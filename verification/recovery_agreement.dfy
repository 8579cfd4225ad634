/** The recovery inspector is sound on any evidence, and it recognises what the
    coordinator leaves behind between its commits. */
module RecoveryAgreement {
  import opened Symbols
  import opened CoordinationRows
  import opened CoordinatorTransactions
  import opened CoordinatorProtocol
  import opened CoordinatorSafety
  import opened CoordinatorSteps
  import opened CoordinatorIdentity
  import opened ChildEvidence
  import opened RecoveryEvidence
  import opened RecoveryAuthority

  // --------------------------------------------------------------- soundness

  function RoleWord(role: Role): string {
    match role
    case Candidate => "candidate"
    case Active => "active"
    case Winner => "winner"
    case Loser => "loser"
  }

  lemma RoleWordsDistinct(role: Role)
    ensures RoleNamed(RoleWord(role)) == Some(role) && RoleWord(role) in CHILD_ROLES
  {
  }

  function DeclarationOf(intent: Payload, role: string): Payload {
    FieldsOf(Get(FieldsOf(Get(intent, "children")), role))
  }

  /** The id the role derives from the operation; the envelope under that id,
      with the pair's place and the declared hash; and a succeeded receipt. */
  predicate ProvenChild(spaces: map<Text, SpaceView>, operation: Text, intent: Payload, role: Role) {
    var id, declared := ChildId(operation, role), DeclarationOf(intent, RoleWord(role));
    && Get(declared, "operation_id") == Str(id)
    && DecodePair(intent).Some? && ChildPlace(DecodePair(intent).value, RoleWord(role), intent).Some?
    && var place := ChildPlace(DecodePair(intent).value, RoleWord(role), intent).value;
    && place.space in spaces && spaces[place.space].Readable?
    && var view := spaces[place.space];
    && id in view.envelopes && id in view.receipts
    && view.envelopes[id].space == Str(place.space) && view.envelopes[id].session == Str(place.session)
    && PyStr(view.envelopes[id].hash) == PyStr(Get(declared, "payload_hash"))
    && Reads(view.receipts[id], "succeeded")
  }

  predicate BothChildrenProven(spaces: map<Text, SpaceView>, operation: Text, intent: Payload, first: Role,
                               second: Role) {
    ProvenChild(spaces, operation, intent, first) && ProvenChild(spaces, operation, intent, second)
  }

  /** A verified, succeeded child is exactly a proven one. */
  lemma VerifiedIsProven(spaces: map<Text, SpaceView>, operation: Text, intent: Payload,
                         children: map<string, Declared>, role: Role)
    requires DecodePair(intent).Some? && DecodeChildren(intent) == Some(children) && RoleWord(role) in children
    requires IsOperationId(operation)
    ensures var r := NamedOutcome(spaces, intent, children, DecodePair(intent).value, RoleWord(role));
            && (r.Ok? && r.value.Success()
                && DerivationProblem(operation, FieldsOf(Get(intent, "children")), RoleWord(role)).None?
                <==> ProvenChild(spaces, operation, intent, role))
            && (DerivationProblem(operation, FieldsOf(Get(intent, "children")), RoleWord(role)).None? ==>
                  children[RoleWord(role)].id == ChildId(operation, role))
  {
    hide IsOperationId, DecodePair, IsHash, RoleWord, RoleNamed, ChildPlace;
    RoleWordsDistinct(role);
  }

  predicate Verified(spaces: map<Text, SpaceView>, operation: Text, intent: Payload, children: map<string, Declared>,
                     pair: Pair, role: string)
    requires role in children
  {
    && DerivationProblem(operation, FieldsOf(Get(intent, "children")), role).None?
    && NamedOutcome(spaces, intent, children, pair, role).Ok?
    && NamedOutcome(spaces, intent, children, pair, role).value.Success()
  }

  /** The fold over two roles, one role at a time. */
  lemma TwoVerified(spaces: map<Text, SpaceView>, operation: Text, intent: Payload, children: map<string, Declared>,
                    pair: Pair, first: string, second: string)
    requires DecodeChildren(intent) == Some(children) && DecodePair(intent) == Some(pair) && first in children
             && second in children
    requires Verified(spaces, operation, intent, children, pair, first)
             && Verified(spaces, operation, intent, children, pair, second)
             ==> children[first].id != children[second].id
    ensures var r := NamedChildren(spaces, operation, intent, [first, second]);
            r.Ok? && AllSucceeded(r.value) <==>
              Verified(spaces, operation, intent, children, pair, first)
              && Verified(spaces, operation, intent, children, pair, second)
  {
    hide DecodePair, DecodeChildren, DerivationProblem, NamedOutcome, DerivationProblems, NamedOutcomes;
    var roles := [first, second];
    assert roles[0] == first && roles[1] == second;
  }

  /** The named children are accepted as successful if and only if both are
      proven, under their derived and therefore distinct ids. */
  lemma NamedChildrenIff(spaces: map<Text, SpaceView>, operation: Text, intent: Payload, first: Role, second: Role)
    requires first != second && IsOperationId(operation)
    ensures var r := NamedChildren(spaces, operation, intent, [RoleWord(first), RoleWord(second)]);
            r.Ok? && AllSucceeded(r.value) <==>
              DecodeChildren(intent).Some? && RoleWord(first) in DecodeChildren(intent).value
              && RoleWord(second) in DecodeChildren(intent).value
              && BothChildrenProven(spaces, operation, intent, first, second)
  {
    hide DecodePair, DecodeChildren, DerivationProblem, NamedOutcome, ProvenChild, IsOperationId, RoleWord,
         NamedChildren, AllSucceeded;
    var one, other := RoleWord(first), RoleWord(second);
    var r := NamedChildren(spaces, operation, intent, [one, other]);
    NeedsDeclarations(spaces, operation, intent, one, other);
    NeedsPair(spaces, operation, intent, first);
    if DecodeChildren(intent).Some? && one in DecodeChildren(intent).value && other in DecodeChildren(intent).value
       && DecodePair(intent).Some? {
      var children, pair := DecodeChildren(intent).value, DecodePair(intent).value;
      VerifiedIsProven(spaces, operation, intent, children, first);
      VerifiedIsProven(spaces, operation, intent, children, second);
      TwoVerified(spaces, operation, intent, children, pair, one, other);
    }
  }

  lemma NeedsDeclarations(spaces: map<Text, SpaceView>, operation: Text, intent: Payload, first: string, second: string)
    ensures NamedChildren(spaces, operation, intent, [first, second]).Ok? ==>
              && DecodePair(intent).Some? && DecodeChildren(intent).Some?
              && first in DecodeChildren(intent).value && second in DecodeChildren(intent).value
  {
    hide DecodePair, DecodeChildren, DerivationProblems, NamedOutcomes, DistinctIds;
    var roles := [first, second];
    assert roles[0] == first && roles[1] == second;
  }

  lemma NeedsPair(spaces: map<Text, SpaceView>, operation: Text, intent: Payload, role: Role)
    ensures DecodePair(intent).None? ==> !ProvenChild(spaces, operation, intent, role)
  {
  }

  lemma ConflictRoles()
    ensures CONFLICT_ROLES == [RoleWord(Candidate), RoleWord(Active)]
  {
  }

  lemma ResolutionRoles()
    ensures RESOLUTION_ROLES == [RoleWord(Winner), RoleWord(Loser)]
  {
  }

  /** What a clean answer about a claiming locator proves about its operation. */
  predicate Sound(spaces: map<Text, SpaceView>, e: Examined, classification: Classification) {
    e.Proceed? && Reads(e.locator.state, "claiming") ==>
      (&& (Reads(e.row.kind, "activate_provisional") ==>
             classification == ConflictAwaiting
             && BothChildrenProven(spaces, PyStr(e.locator.operation), e.intent, Candidate, Active))
       && (Reads(e.row.kind, "resolve_activation_conflict") ==>
             classification == RecoverableClaiming && Reads(e.row.phase, "transferred")
             && BothChildrenProven(spaces, PyStr(e.locator.operation), e.intent, Winner, Loser)))
  }

  /** Whatever the evidence: a clean conflict or resolution has two children
      with distinct, derived ids, matching envelopes and succeeded receipts; a
      claimed resolution is never clean; the relation chain was intact. */
  lemma CleanMeansProven(evidence: Evidence, now: int, decision: Verdict)
    requires Answers(evidence, now, decision) && decision.Clean?
    ensures Sound(evidence.spaces, Examine(evidence.meta, now), decision.classification)
    ensures match Examine(evidence.meta, now)
            case Decided(_) => decision.classification == Vacant
            case Proceed(locator, row, _) => evidence.meta.Tables?
                                             && ChainClean(evidence.meta.ops, row, LocatorPlace(locator))
  {
    hide RoleWord, ChainClean, ProvenChild, NamedChildren, DecodeChildren, DecodePair, ClassifyOriginal,
         ClassifyBySession, LoadPair, LoadFact, OneOf, ChildPlace, Examine, FirstChildProblem,
         ResolutionSessionProblem;
    ExaminedRows(evidence.meta, now);
    ConflictRoles();
    ResolutionRoles();
    var e := Examine(evidence.meta, now);
    if e.Proceed? {
      NamedChildrenIff(evidence.spaces, e.locator.operation.text, e.intent, Candidate, Active);
      NamedChildrenIff(evidence.spaces, e.locator.operation.text, e.intent, Winner, Loser);
      NoProblemMeansSuccess(evidence.spaces, e.locator.operation.text, e.intent);
      ConflictsAreNotSimple(e.row.kind);
    }
  }

  lemma ConflictsAreNotSimple(kind: Json)
    ensures OneOf(kind, SIMPLE_KINDS) ==>
              !Reads(kind, "activate_provisional") && !Reads(kind, "resolve_activation_conflict")
  {
  }

  lemma NoProblemMeansSuccess(spaces: map<Text, SpaceView>, operation: Text, intent: Payload)
    ensures var r := NamedChildren(spaces, operation, intent, CONFLICT_ROLES);
            r.Ok? ==> (FirstChildProblem(r.value).None? ==> AllSucceeded(r.value))
  {
    hide NamedChildren;
  }

  lemma ExaminedRows(meta: MetaView, now: int)
    ensures var e := Examine(meta, now);
            match e
            case Decided(d) => d.Clean? ==> d.classification == Vacant
            case Proceed(locator, row, intent) =>
              && meta.Tables? && locator.operation.Str? && IsOperationId(locator.operation.text)
              && PhaseAllowed(locator.state, row.phase) && row.kind.Str? && row.phase.Str?
              && (Reads(row.phase, "transferred") ==> Reads(row.kind, "resolve_activation_conflict"))
  {
    hide VerifyIntent, IsOperationId;
  }

  // ------------------------------------------------------ what clean means

  /** A Session that exists and has, or has not, ended. */
  predicate SessionIs(spaces: map<Text, SpaceView>, place: Place, ended: bool) {
    && place.space in spaces && spaces[place.space].Readable?
    && place.session in spaces[place.space].sessions
    && (spaces[place.space].sessions[place.session].endedAt != Null <==> ended)
  }

  /** The operation's own envelope with the locator's place and its payload
      hash, and a succeeded receipt. */
  predicate OriginalProven(spaces: map<Text, SpaceView>, place: Place, id: Text, hash: Text) {
    && place.space in spaces && spaces[place.space].Readable?
    && var view := spaces[place.space];
    && id in view.envelopes && id in view.receipts
    && view.envelopes[id].space == Str(place.space) && view.envelopes[id].session == Str(place.session)
    && PyStr(view.envelopes[id].hash) == hash && Reads(view.receipts[id], "succeeded")
  }

  predicate SessionColumns(spaces: map<Text, SpaceView>, place: Place, ownership: string)
    requires SessionIs(spaces, place, true) || SessionIs(spaces, place, false)
  {
    spaces[place.space].sessions[place.session].ownership == Str(Plain(ownership))
  }

  predicate InConflict(spaces: map<Text, SpaceView>, place: Place) {
    (SessionIs(spaces, place, true) || SessionIs(spaces, place, false))
    && SessionColumns(spaces, place, "activation_conflict")
  }

  predicate MarkedLoser(spaces: map<Text, SpaceView>, place: Place) {
    && SessionIs(spaces, place, true)
    && spaces[place.space].sessions[place.session].validity == Str(Plain("invalid"))
    && spaces[place.space].sessions[place.session].reason == Str(Plain("activation_conflict_loser"))
  }

  predicate ChildrenAccepted(spaces: map<Text, SpaceView>, operation: Text, intent: Payload, first: Role,
                             second: Role) {
    && DecodeChildren(intent).Some? && RoleWord(first) in DecodeChildren(intent).value
    && RoleWord(second) in DecodeChildren(intent).value
    && BothChildrenProven(spaces, operation, intent, first, second)
  }

  lemma BySessionIff(spaces: map<Text, SpaceView>, locator: LocatorRow, ended: bool, outcomes: seq<ChildOutcome>,
                     classification: Classification)
    ensures var d := ClassifyBySession(spaces, locator, ended, outcomes, classification);
            && (d.Clean? <==> SessionIs(spaces, LocatorPlace(locator), ended))
            && (d.Clean? ==> d.classification == classification)
  {
  }

  lemma OriginalIff(spaces: map<Text, SpaceView>, locator: LocatorRow, row: OperationRow)
    ensures var d := ClassifyOriginal(spaces, locator, row);
            && (d.Clean? <==> OriginalProven(spaces, LocatorPlace(locator), PyStr(row.id), PyStr(row.hash))
                              && SessionIs(spaces, LocatorPlace(locator), Reads(row.kind, "end")))
            && (d.Clean? ==> d.classification == if Reads(row.kind, "end") then RecoverableReleasing
                else RecoverableClaiming)
  {
    hide ClassifyBySession, SessionIs, LocatorPlace;
    BySessionIff(spaces, locator, true,
                 [ChildOutcome("original", LocatorPlace(locator), PyStr(row.id), true, Some(Plain("succeeded")))],
                 RecoverableReleasing);
    BySessionIff(spaces, locator, false,
                 [ChildOutcome("original", LocatorPlace(locator), PyStr(row.id), true, Some(Plain("succeeded")))],
                 RecoverableClaiming);
  }

  lemma PairIff(spaces: map<Text, SpaceView>, pair: Pair)
    ensures LoadPair(spaces, pair).Ok? <==> InConflict(spaces, pair.active) && InConflict(spaces, pair.candidate)
  {
  }

  lemma AwaitingIff(spaces: map<Text, SpaceView>, locator: LocatorRow, row: OperationRow, intent: Payload)
    requires IsOperationId(PyStr(locator.operation))
    ensures var d := ClassifyAwaiting(spaces, locator, row, intent);
            && (d.Clean? <==>
                  && Reads(row.kind, "activate_provisional") && DecodePair(intent).Some?
                  && LocatorPlace(locator) == DecodePair(intent).value.active
                  && ChildrenAccepted(spaces, PyStr(locator.operation), intent, Candidate, Active)
                  && InConflict(spaces, DecodePair(intent).value.active)
                  && InConflict(spaces, DecodePair(intent).value.candidate))
            && (d.Clean? ==> d.classification == ConflictAwaiting)
  {
    hide DecodePair, DecodeChildren, NamedChildren, LoadPair, BothChildrenProven, InConflict, RoleWord, IsOperationId,
         LocatorPlace, FirstChildProblem;
    ConflictRoles();
    NamedChildrenIff(spaces, PyStr(locator.operation), intent, Candidate, Active);
    if DecodePair(intent).Some? { PairIff(spaces, DecodePair(intent).value); }
    SuccessIsNoProblem(spaces, PyStr(locator.operation), intent);
  }

  /** The awaiting check's separate problems amount to a succeeded receipt. */
  lemma SuccessIsNoProblem(spaces: map<Text, SpaceView>, operation: Text, intent: Payload)
    ensures var r := NamedChildren(spaces, operation, intent, CONFLICT_ROLES);
            r.Ok? ==> (FirstChildProblem(r.value).None? <==> AllSucceeded(r.value))
  {
    hide NamedChildren;
    var r := NamedChildren(spaces, operation, intent, CONFLICT_ROLES);
    if r.Ok? {
      forall i | 0 <= i < |r.value| ensures ChildProblem(r.value[i]).None? <==> r.value[i].Success() {
        FoundOutcome(spaces, operation, intent, i);
      }
    }
  }

  lemma FoundOutcome(spaces: map<Text, SpaceView>, operation: Text, intent: Payload, i: nat)
    requires NamedChildren(spaces, operation, intent, CONFLICT_ROLES).Ok?
             && i < |NamedChildren(spaces, operation, intent, CONFLICT_ROLES).value|
    ensures var outcome := NamedChildren(spaces, operation, intent, CONFLICT_ROLES).value[i];
            outcome.receipt.Some? ==> outcome.envelopePresent
  {
    hide DecodeChildren, DecodePair, DerivationProblems;
  }

  lemma TransferredIff(spaces: map<Text, SpaceView>, locator: LocatorRow, row: OperationRow, intent: Payload)
    requires IsOperationId(PyStr(locator.operation))
    ensures var d := ClassifyTransferred(spaces, locator, row, intent);
            && (d.Clean? <==>
                  && Reads(row.kind, "resolve_activation_conflict") && DecodePair(intent).Some?
                  && ChildPlace(DecodePair(intent).value, "winner", intent).Some?
                  && ChildPlace(DecodePair(intent).value, "loser", intent).Some?
                  && ChildrenAccepted(spaces, PyStr(locator.operation), intent, Winner, Loser)
                  && SessionIs(spaces, ChildPlace(DecodePair(intent).value, "winner", intent).value, false)
                  && SessionColumns(spaces, ChildPlace(DecodePair(intent).value, "winner", intent).value,
                                    "authoritative")
                  && MarkedLoser(spaces, ChildPlace(DecodePair(intent).value, "loser", intent).value))
            && (d.Clean? ==> d.classification == RecoverableClaiming)
  {
    hide DecodePair, DecodeChildren, NamedChildren, BothChildrenProven, RoleWord, IsOperationId, ChildPlace, LoadFact,
         SessionIs, MarkedLoser, SessionColumns;
    ResolutionRoles();
    NamedChildrenIff(spaces, PyStr(locator.operation), intent, Winner, Loser);
    if DecodePair(intent).Some? {
      var w, l := ChildPlace(DecodePair(intent).value, "winner", intent),
          ChildPlace(DecodePair(intent).value, "loser", intent);
      if w.Some? && l.Some? { ResolvedIff(spaces, w.value, l.value); }
    }
  }

  lemma ResolvedIff(spaces: map<Text, SpaceView>, winner: Place, loser: Place)
    ensures && LoadFact(spaces, winner).Ok? && LoadFact(spaces, loser).Ok?
            && ResolutionSessionProblem(LoadFact(spaces, winner).value, LoadFact(spaces, loser).value).None?
            <==>
              SessionIs(spaces, winner, false) && SessionColumns(spaces, winner, "authoritative")
              && MarkedLoser(spaces, loser)
  {
  }

  predicate AwaitingProven(spaces: map<Text, SpaceView>, locator: LocatorRow, row: OperationRow, intent: Payload) {
    && Reads(row.kind, "activate_provisional") && DecodePair(intent).Some?
    && LocatorPlace(locator) == DecodePair(intent).value.active
    && ChildrenAccepted(spaces, PyStr(locator.operation), intent, Candidate, Active)
    && InConflict(spaces, DecodePair(intent).value.active) && InConflict(spaces, DecodePair(intent).value.candidate)
  }

  predicate ResolutionProven(spaces: map<Text, SpaceView>, locator: LocatorRow, row: OperationRow, intent: Payload) {
    && Reads(row.kind, "resolve_activation_conflict") && DecodePair(intent).Some?
    && ChildPlace(DecodePair(intent).value, "winner", intent).Some?
    && ChildPlace(DecodePair(intent).value, "loser", intent).Some?
    && ChildrenAccepted(spaces, PyStr(locator.operation), intent, Winner, Loser)
    && SessionIs(spaces, ChildPlace(DecodePair(intent).value, "winner", intent).value, false)
    && SessionColumns(spaces, ChildPlace(DecodePair(intent).value, "winner", intent).value, "authoritative")
    && MarkedLoser(spaces, ChildPlace(DecodePair(intent).value, "loser", intent).value)
  }

  predicate SimpleProven(spaces: map<Text, SpaceView>, locator: LocatorRow, row: OperationRow) {
    && OneOf(row.kind, SIMPLE_KINDS)
    && OriginalProven(spaces, LocatorPlace(locator), PyStr(row.id), PyStr(row.hash))
    && SessionIs(spaces, LocatorPlace(locator), Reads(row.kind, "end"))
  }

  predicate Stand(locator: LocatorRow, row: OperationRow, state: string, phase: string) {
    Reads(locator.state, state) && Reads(row.phase, phase)
  }

  /** The documented decision table: what each classification requires. */
  predicate Warranted(spaces: map<Text, SpaceView>, locator: LocatorRow, row: OperationRow, intent: Payload,
                      classification: Classification) {
    match classification
    case Vacant => false
    case ActiveConsistent => Stand(locator, row, "active", "completed")
                             && SessionIs(spaces, LocatorPlace(locator), false)
    case RecoverableReleasing =>
      Reads(row.kind, "end")
      && ((Stand(locator, row, "releasing", "space_committed") && SessionIs(spaces, LocatorPlace(locator), true))
          || (Stand(locator, row, "claiming", "claimed") && SimpleProven(spaces, locator, row)))
    case RecoverableClaiming =>
      || (Stand(locator, row, "claiming", "claimed") && !Reads(row.kind, "end") && SimpleProven(spaces, locator, row))
      || (Stand(locator, row, "claiming", "transferred") && ResolutionProven(spaces, locator, row, intent))
    case ConflictAwaiting =>
      || (Stand(locator, row, "claiming", "awaiting_resolution") && AwaitingProven(spaces, locator, row, intent))
      || (Stand(locator, row, "claiming", "claimed") && Reads(row.kind, "activate_provisional")
          && ChildrenAccepted(spaces, PyStr(locator.operation), intent, Candidate, Active))
  }

  lemma ClaimedIff(spaces: map<Text, SpaceView>, locator: LocatorRow, row: OperationRow, intent: Payload)
    requires IsOperationId(PyStr(locator.operation))
    ensures var d := ClassifyClaimed(spaces, locator, row, intent);
            if Reads(row.kind, "activate_provisional")
            then (d.Clean? <==> ChildrenAccepted(spaces, PyStr(locator.operation), intent, Candidate, Active))
                 && (d.Clean? ==> d.classification == ConflictAwaiting)
            else (d.Clean? <==> SimpleProven(spaces, locator, row))
                 && (d.Clean? ==> d.classification == if Reads(row.kind, "end") then RecoverableReleasing
                     else RecoverableClaiming)
  {
    hide NamedChildren, BothChildrenProven, RoleWord, IsOperationId, DecodeChildren, ClassifyOriginal, OriginalProven,
         SessionIs, OneOf, DecodePair, LocatorPlace;
    ConflictRoles();
    NamedChildrenIff(spaces, PyStr(locator.operation), intent, Candidate, Active);
    OriginalIff(spaces, locator, row);
  }

  /** On any evidence: a classification is given if and only if the decision
      table warrants it; every other combination requires recovery. */
  lemma ClassifyIff(spaces: map<Text, SpaceView>, locator: LocatorRow, row: OperationRow, intent: Payload,
                    classification: Classification)
    requires IsOperationId(PyStr(locator.operation))
    ensures var d := Classify(spaces, locator, row, intent);
            d.Clean? && d.classification == classification <==> Warranted(spaces, locator, row, intent, classification)
  {
    hide ClassifyAwaiting, ClassifyClaimed, ClassifyTransferred, ClassifyBySession, SessionIs, SimpleProven,
         ChildrenAccepted, AwaitingProven, ResolutionProven, IsOperationId, LocatorPlace, PyStr;
    DifferentWords();
    EndIsSimple(row.kind);
    SimpleIsNoConflict(spaces, locator, row);
    AwaitingTable(spaces, locator, row, intent);
    TransferredTable(spaces, locator, row, intent);
    ClaimedIff(spaces, locator, row, intent);
    BySessionIff(spaces, locator, false, [], ActiveConsistent);
    BySessionIff(spaces, locator, true, [], RecoverableReleasing);
  }

  lemma DifferentWords()
    ensures Plain("active") != Plain("claiming") && Plain("active") != Plain("releasing")
            && Plain("claiming") != Plain("releasing")
    ensures Plain("claimed") != Plain("transferred") && Plain("claimed") != Plain("awaiting_resolution")
            && Plain("transferred") != Plain("awaiting_resolution")
    ensures Plain("end") != Plain("activate_provisional")
  {
  }

  lemma EndIsSimple(kind: Json)
    ensures Reads(kind, "end") ==> !Reads(kind, "activate_provisional")
  {
  }

  lemma SimpleIsNoConflict(spaces: map<Text, SpaceView>, locator: LocatorRow, row: OperationRow)
    ensures SimpleProven(spaces, locator, row) ==> !Reads(row.kind, "activate_provisional")
  {
    hide OriginalProven, SessionIs;
    ConflictsAreNotSimple(row.kind);
  }

  lemma AwaitingTable(spaces: map<Text, SpaceView>, locator: LocatorRow, row: OperationRow, intent: Payload)
    requires IsOperationId(PyStr(locator.operation))
    ensures var d := ClassifyAwaiting(spaces, locator, row, intent);
            (d.Clean? <==> AwaitingProven(spaces, locator, row, intent))
            && (d.Clean? ==> d.classification == ConflictAwaiting)
  {
    hide ClassifyAwaiting, ChildrenAccepted, InConflict, DecodePair, IsOperationId;
    AwaitingIff(spaces, locator, row, intent);
  }

  lemma TransferredTable(spaces: map<Text, SpaceView>, locator: LocatorRow, row: OperationRow, intent: Payload)
    requires IsOperationId(PyStr(locator.operation))
    ensures var d := ClassifyTransferred(spaces, locator, row, intent);
            (d.Clean? <==> ResolutionProven(spaces, locator, row, intent))
            && (d.Clean? ==> d.classification == RecoverableClaiming)
  {
    hide ClassifyTransferred, ChildrenAccepted, SessionIs, MarkedLoser, SessionColumns, DecodePair, ChildPlace,
         IsOperationId;
    TransferredIff(spaces, locator, row, intent);
  }

  /** What the Meta rows must satisfy before any Space is looked at; in
      particular an active locator's lease has not expired. */
  lemma ExaminedIff(meta: MetaView, now: int, locator: LocatorRow, row: OperationRow, intent: Payload)
    ensures Examine(meta, now) == Proceed(locator, row, intent) <==>
              && meta.Tables? && meta.locators == [locator] && LocatorValid(locator)
              && locator.operation.text in meta.ops && meta.ops[locator.operation.text] == row
              && OperationShape(row) && row.id == locator.operation
              && VerifyIntent(locator, row) == Some(intent)
              && PhaseAllowed(locator.state, row.phase)
              && (Reads(row.phase, "transferred") ==> Reads(row.kind, "resolve_activation_conflict"))
              && (Reads(locator.state, "active") ==> locator.lease.value > now)
  {
    hide VerifyIntent, IsOperationId, AsciiText, OperationShape;
    PhasesAllowed(locator.state, row.phase);
  }

  lemma PhasesAllowed(state: Json, phase: Json)
    ensures PhaseAllowed(state, phase) ==> !Reads(phase, "manual_intervention")
  {
  }
}
