/** The inspector's decision table over the Spaces, written out in columns: for
    each combination of rows the first check that fails names the code, and what
    passes them all is reported. */
module RecoveryTable {
  import opened Symbols
  import opened CoordinationRows
  import opened RecoveryEvidence
  import opened RecoveryColumns
  import RecoveryAuthority

  // ------------------------------------------------------------ one Space

  function SpaceFault(spaces: map<Text, SpaceView>, space: Text): Option<Code> {
    if space !in spaces then Some(SpaceViewMissing)
    else if spaces[space] == Unreadable then Some(SpaceUnreadable) else None
  }

  function FactOf(spaces: map<Text, SpaceView>, place: Place): SessionFact
    requires SpaceFault(spaces, place.space) == None
  {
    var rows := spaces[place.space].sessions;
    if place.session !in rows then SessionFact(place, false, false, Null, Null, Null) else
    var row := rows[place.session];
    SessionFact(place, true, row.endedAt != Null, row.ownership, row.validity, row.reason)
  }

  function ChildFault(spaces: map<Text, SpaceView>, place: Place, id: Text, hash: Text): Option<Code> {
    if SpaceFault(spaces, place.space) != None then SpaceFault(spaces, place.space) else
    var envelopes := spaces[place.space].envelopes;
    if id in envelopes && !(envelopes[id].space == Str(place.space) && envelopes[id].session == Str(place.session)) then
      Some(ChildIdentityMismatch)
    else if id in envelopes && Shown(envelopes[id].hash) != hash then Some(ChildPayloadHashMismatch) else None
  }

  function OutcomeOf(spaces: map<Text, SpaceView>, role: string, place: Place, id: Text): ChildOutcome
    requires SpaceFault(spaces, place.space) == None
  {
    var view := spaces[place.space];
    if id !in view.envelopes then ChildOutcome(role, place, id, false, None)
    else ChildOutcome(role, place, id, true, if id in view.receipts then Some(Shown(view.receipts[id])) else None)
  }

  /** The Session must exist, and have ended or not. */
  function SessionVerdict(spaces: map<Text, SpaceView>, place: Place, ended: bool, outcomes: seq<ChildOutcome>,
                          classification: Classification): Verdict {
    if SpaceFault(spaces, place.space) != None then RecoveryRequired(SpaceFault(spaces, place.space).value) else
    var fact := FactOf(spaces, place);
    if !fact.present then RecoveryRequired(SessionMissing)
    else if fact.ended == ended then Clean(classification, outcomes, [fact], None)
    else RecoveryRequired(if ended then SessionUnexpectedNonterminal else SessionUnexpectedTerminal)
  }

  // -------------------------------------------------------------- the intent

  predicate NamesSession(value: Json) {
    value.Obj? && {"space_id", "session_id"} <= value.fields.Keys
    && value.fields["space_id"].Str? && value.fields["space_id"].text != Plain("")
    && value.fields["session_id"].Str? && value.fields["session_id"].text != Plain("")
  }

  function SessionNamed(value: Json): Place
    requires NamesSession(value)
  {
    Place(value.fields["space_id"].text, value.fields["session_id"].text)
  }

  function PairOf(intent: Payload): Option<Pair> {
    if && "pair" in intent && intent["pair"].Obj? && {"active", "candidate"} <= intent["pair"].fields.Keys
       && NamesSession(intent["pair"].fields["active"]) && NamesSession(intent["pair"].fields["candidate"])
    then Some(Pair(SessionNamed(intent["pair"].fields["active"]), SessionNamed(intent["pair"].fields["candidate"])))
    else None
  }

  function WinnerOf(intent: Payload): Option<Side> {
    if "winner_role" in intent && intent["winner_role"] == Str(Plain("active")) then Some(ActiveSide)
    else if "winner_role" in intent && intent["winner_role"] == Str(Plain("candidate")) then Some(CandidateSide)
    else None
  }

  /** One child's declaration: an operation id and a hash. */
  predicate GoodDeclaration(value: Json) {
    value.Obj? && {"operation_id", "payload_hash"} <= value.fields.Keys
    && value.fields["operation_id"].Str? && IsOperationId(value.fields["operation_id"].text)
    && value.fields["payload_hash"].Str? && IsHash(value.fields["payload_hash"].text)
  }

  /** A nonempty object that declares known roles only. */
  predicate Declares(intent: Payload) {
    "children" in intent && intent["children"].Obj? && intent["children"].fields != map[]
    && forall role :: role in intent["children"].fields ==>
         role in {"candidate", "active", "winner", "loser"} && GoodDeclaration(intent["children"].fields[role])
  }

  function DeclaredId(intent: Payload, role: string): Text
    requires Declares(intent) && role in intent["children"].fields
  {
    intent["children"].fields[role].fields["operation_id"].text
  }

  function DeclaredHash(intent: Payload, role: string): Text
    requires Declares(intent) && role in intent["children"].fields
  {
    intent["children"].fields[role].fields["payload_hash"].text
  }

  /** The two children of an operation: their roles, and the Sessions they go to. */
  datatype Two = Two(first: Role, firstWord: string, firstPlace: Place, second: Role, secondWord: string,
                     secondPlace: Place)

  function ConflictTwo(pair: Pair): Two {
    Two(Candidate, "candidate", pair.candidate, Active, "active", pair.active)
  }

  function ResolutionTwo(pair: Pair, winner: Side): Two {
    Two(Winner, "winner", if winner == ActiveSide then pair.active else pair.candidate,
        Loser, "loser", if winner == ActiveSide then pair.candidate else pair.active)
  }

  /** What both declarations must be before any Space is read. */
  function DeclarationFault(operation: Text, intent: Payload, first: Role, firstWord: string, second: Role,
                            secondWord: string): Option<Code> {
    if "children" !in intent then Some(ChildrenDeclarationMissing)
    else if !Declares(intent) then Some(ChildrenDeclarationInvalid)
    else if !({firstWord, secondWord} <= intent["children"].fields.Keys) then Some(ChildrenDeclarationMissing)
    else if DeclaredId(intent, firstWord) == DeclaredId(intent, secondWord) then Some(ChildrenDeclarationConflict)
    else if DeclaredId(intent, firstWord) == ChildId(operation, first)
         && DeclaredId(intent, secondWord) == ChildId(operation, second) then None
    else Some(ChildIdDerivationMismatch)
  }

  /** The children as the Spaces hold them, the first fault first. */
  function Outcomes(spaces: map<Text, SpaceView>, operation: Text, intent: Payload, two: Two):
    Result<seq<ChildOutcome>, Code>
    requires DeclarationFault(operation, intent, two.first, two.firstWord, two.second, two.secondWord) == None
  {
    var one := ChildFault(spaces, two.firstPlace, DeclaredId(intent, two.firstWord),
                          DeclaredHash(intent, two.firstWord));
    var other :=
      ChildFault(spaces, two.secondPlace, DeclaredId(intent, two.secondWord), DeclaredHash(intent, two.secondWord));
    if one != None then Err(one.value) else if other != None then Err(other.value) else
    Ok([OutcomeOf(spaces, two.firstWord, two.firstPlace, DeclaredId(intent, two.firstWord)),
        OutcomeOf(spaces, two.secondWord, two.secondPlace, DeclaredId(intent, two.secondWord))])
  }

  // ------------------------------------------------------------- the entries

  predicate Reports(outcome: ChildOutcome, word: string) {
    outcome.receipt == Some(Plain(word))
  }

  /** Why a child is not proven to have succeeded. */
  function Unsuccessful(outcome: ChildOutcome): Option<Code> {
    if !outcome.envelopePresent then Some(ChildMissing)
    else if Reports(outcome, "unknown") then Some(ChildUnknown)
    else if Reports(outcome, "pending") then Some(ChildPending)
    else if Reports(outcome, "failed") || Reports(outcome, "conflict") then Some(ChildRejected)
    else if Reports(outcome, "succeeded") then None else Some(ChildMissing)
  }

  /** Kinds whose one child keeps the operation's id. */
  predicate IsSimple(kind: Json) {
    AnyOf(kind, {"start", "heartbeat", "pause", "resume", "end", "update_note", "set_current_plan_item",
                 "set_completion_draft", "add_plan_item", "remove_plan_item"})
  }

  /** A claimed operation whose one child has its own id. */
  function SimpleEntry(spaces: map<Text, SpaceView>, place: Place, id: Text, hash: Text, ends: bool): Verdict {
    if ChildFault(spaces, place, id, hash) != None then RecoveryRequired(ChildFault(spaces, place, id, hash).value) else
    var outcome := OutcomeOf(spaces, "original", place, id);
    if Unsuccessful(outcome) != None then RecoveryRequired(Unsuccessful(outcome).value)
    else SessionVerdict(spaces, place, ends, [outcome], if ends then RecoverableReleasing else RecoverableClaiming)
  }

  /** A claimed conflict: both children have succeeded. */
  function ClaimedEntry(spaces: map<Text, SpaceView>, operation: Text, intent: Payload): Verdict {
    var fault := DeclarationFault(operation, intent, Candidate, "candidate", Active, "active");
    if fault != None then RecoveryRequired(fault.value)
    else if PairOf(intent) == None then RecoveryRequired(ConflictPairMissing) else
    match Outcomes(spaces, operation, intent, ConflictTwo(PairOf(intent).value))
    case Err(code) => RecoveryRequired(code)
    case Ok(outcomes) =>
      if Reports(outcomes[0], "succeeded") && Reports(outcomes[1], "succeeded")
      then Clean(ConflictAwaiting, outcomes, [], PairOf(intent))
      else RecoveryRequired(ChildRejected)
  }

  function Conflicted(fact: SessionFact): Option<Code> {
    if !fact.present then Some(SessionMissing)
    else if Is(fact.ownership, "activation_conflict") then None else Some(ConflictPairInvalid)
  }

  /** Both Sessions of the pair are in conflict. */
  function PairFault(spaces: map<Text, SpaceView>, pair: Pair): Option<Code> {
    if SpaceFault(spaces, pair.active.space) != None then SpaceFault(spaces, pair.active.space)
    else if SpaceFault(spaces, pair.candidate.space) != None then SpaceFault(spaces, pair.candidate.space)
    else if Conflicted(FactOf(spaces, pair.active)) != None then Conflicted(FactOf(spaces, pair.active))
    else Conflicted(FactOf(spaces, pair.candidate))
  }

  /** A conflict that awaits its resolution, under a locator at the running Session. */
  function AwaitingEntry(spaces: map<Text, SpaceView>, operation: Text, place: Place, intent: Payload): Verdict {
    if PairOf(intent) == None then RecoveryRequired(ConflictPairMissing) else
    var pair := PairOf(intent).value;
    var fault := DeclarationFault(operation, intent, Candidate, "candidate", Active, "active");
    if pair.active != place then RecoveryRequired(ConflictPairInvalid)
    else if fault != None then RecoveryRequired(fault.value) else
    match Outcomes(spaces, operation, intent, ConflictTwo(pair))
    case Err(code) => RecoveryRequired(code)
    case Ok(outcomes) =>
      if Unsuccessful(outcomes[0]) != None then RecoveryRequired(Unsuccessful(outcomes[0]).value)
      else if Unsuccessful(outcomes[1]) != None then RecoveryRequired(Unsuccessful(outcomes[1]).value)
      else if PairFault(spaces, pair) != None then RecoveryRequired(PairFault(spaces, pair).value)
      else Clean(ConflictAwaiting, outcomes, [FactOf(spaces, pair.active), FactOf(spaces, pair.candidate)], Some(pair))
  }

  function ResolvedFault(won: SessionFact, lost: SessionFact): Option<Code> {
    if !won.present then Some(SessionMissing)
    else if won.ended then Some(SessionUnexpectedTerminal)
    else if !Is(won.ownership, "authoritative") then Some(SessionOwnershipInvalid)
    else if !lost.present then Some(SessionMissing)
    else if !lost.ended then Some(SessionUnexpectedNonterminal)
    else if Is(lost.validity, "invalid") && Is(lost.reason, "activation_conflict_loser") then None
    else Some(SessionInvalidMarker)
  }

  /** A transferred resolution: both children have succeeded, the winner runs
      on and the loser is marked. */
  function TransferredEntry(spaces: map<Text, SpaceView>, operation: Text, intent: Payload): Verdict {
    if PairOf(intent) == None then RecoveryRequired(ConflictPairMissing)
    else if WinnerOf(intent) == None then RecoveryRequired(ConflictPairInvalid) else
    var two := ResolutionTwo(PairOf(intent).value, WinnerOf(intent).value);
    var fault := DeclarationFault(operation, intent, Winner, "winner", Loser, "loser");
    if fault != None then RecoveryRequired(fault.value) else
    match Outcomes(spaces, operation, intent, two)
    case Err(code) => RecoveryRequired(code)
    case Ok(outcomes) =>
      if !(Reports(outcomes[0], "succeeded") && Reports(outcomes[1], "succeeded")) then RecoveryRequired(ChildRejected)
      else
        var won, lost := FactOf(spaces, two.firstPlace), FactOf(spaces, two.secondPlace);
        if ResolvedFault(won, lost) != None then RecoveryRequired(ResolvedFault(won, lost).value)
        else Clean(RecoverableClaiming, outcomes, [won, lost], PairOf(intent))
  }

  /** The whole table. */
  function Entry(spaces: map<Text, SpaceView>, locator: LocatorRow, row: OperationRow, intent: Payload): Verdict {
    var place, operation := PlaceNamed(locator), Shown(locator.operation);
    if Is(locator.state, "active") && Is(row.phase, "completed") then
      SessionVerdict(spaces, place, false, [], ActiveConsistent)
    else if Is(locator.state, "releasing") && Is(row.phase, "space_committed") && Is(row.kind, "end") then
      SessionVerdict(spaces, place, true, [], RecoverableReleasing)
    else if !Is(locator.state, "claiming") then RecoveryRequired(UnprovenCombination)
    else if Is(row.phase, "awaiting_resolution") && Is(row.kind, "activate_provisional") then
      AwaitingEntry(spaces, operation, place, intent)
    else if Is(row.phase, "claimed") && Is(row.kind, "activate_provisional") then
      ClaimedEntry(spaces, operation, intent)
    else if Is(row.phase, "claimed") && IsSimple(row.kind) then
      SimpleEntry(spaces, place, Shown(row.id), Shown(row.hash), Is(row.kind, "end"))
    else if Is(row.phase, "transferred") && Is(row.kind, "resolve_activation_conflict") then
      TransferredEntry(spaces, operation, intent)
    else RecoveryRequired(UnprovenCombination)
  }

  // -------------------------------------------------- the inspector follows it

  lemma PairIs(intent: Payload)
    ensures RecoveryAuthority.DecodePair(intent) == PairOf(intent)
  {
  }

  lemma ChildIs(spaces: map<Text, SpaceView>, role: string, place: Place, id: Text, hash: Text)
    ensures RecoveryAuthority.VerifyChild(spaces, role, place, id, hash) ==
              match ChildFault(spaces, place, id, hash)
              case Some(code) => Err(code)
              case None => Ok(OutcomeOf(spaces, role, place, id))
  {
  }

  /** Where a role's Session is, if the intent says so. */
  function PlaceFor(pair: Pair, intent: Payload, word: string): Option<Place> {
    if word == "active" then Some(pair.active)
    else if word == "candidate" then Some(pair.candidate)
    else if word !in {"winner", "loser"} || WinnerOf(intent) == None then None
    else if (word == "winner") == (WinnerOf(intent) == Some(ActiveSide)) then Some(pair.active)
    else Some(pair.candidate)
  }

  /** The outcome of any named role: its place, then the checks of its child. */
  lemma RoleOutcome(spaces: map<Text, SpaceView>, intent: Payload, children: map<string, Declared>, pair: Pair,
                    word: string)
    requires word in children
    ensures RecoveryAuthority.NamedOutcome(spaces, intent, children, pair, word) ==
              match PlaceFor(pair, intent, word)
              case None => Err(ConflictPairInvalid)
              case Some(place) =>
                match ChildFault(spaces, place, children[word].id, children[word].hash)
                case Some(code) => Err(code)
                case None => Ok(OutcomeOf(spaces, word, place, children[word].id))
  {
    hide ChildFault, OutcomeOf, RecoveryAuthority.VerifyChild;
    if PlaceFor(pair, intent, word) != None {
      var place := PlaceFor(pair, intent, word).value;
      ChildIs(spaces, word, place, children[word].id, children[word].hash);
    }
  }

  lemma FactIs(spaces: map<Text, SpaceView>, place: Place)
    ensures RecoveryAuthority.LoadFact(spaces, place) ==
              match SpaceFault(spaces, place.space)
              case Some(code) => Err(code)
              case None => Ok(FactOf(spaces, place))
  {
  }

  lemma SessionIs(spaces: map<Text, SpaceView>, locator: LocatorRow, ended: bool, outcomes: seq<ChildOutcome>,
                  classification: Classification)
    ensures RecoveryAuthority.ClassifyBySession(spaces, locator, ended, outcomes, classification) ==
              SessionVerdict(spaces, PlaceNamed(locator), ended, outcomes, classification)
  {
    hide RecoveryAuthority.LoadFact, FactOf, SpaceFault;
    FactIs(spaces, PlaceNamed(locator));
  }

  lemma SimpleIs(spaces: map<Text, SpaceView>, locator: LocatorRow, row: OperationRow)
    ensures RecoveryAuthority.ClassifyOriginal(spaces, locator, row) ==
              SimpleEntry(spaces, PlaceNamed(locator), Shown(row.id), Shown(row.hash), Is(row.kind, "end"))
  {
    hide RecoveryAuthority.VerifyChild, RecoveryAuthority.ClassifyBySession, SessionVerdict;
    var place, id, hash := PlaceNamed(locator), Shown(row.id), Shown(row.hash);
    ChildIs(spaces, "original", place, id, hash);
    if ChildFault(spaces, place, id, hash) == None {
      var outcome := OutcomeOf(spaces, "original", place, id);
      SessionIs(spaces, locator, true, [outcome], RecoverableReleasing);
      SessionIs(spaces, locator, false, [outcome], RecoverableClaiming);
    }
  }

  lemma DeclarationsAre(intent: Payload)
    ensures RecoveryAuthority.DecodeChildren(intent).Some? <==> Declares(intent)
    ensures Declares(intent) ==>
              var children := RecoveryAuthority.DecodeChildren(intent).value;
              && children.Keys == intent["children"].fields.Keys
              && forall role :: role in children ==>
                   children[role] == Declared(DeclaredId(intent, role), DeclaredHash(intent, role))
  {
    hide IsOperationId, IsHash;
  }

  predicate RoleIs(word: string, role: Role) {
    || (word == "candidate" && role == Candidate) || (word == "active" && role == Active)
    || (word == "winner" && role == Winner) || (word == "loser" && role == Loser)
  }

  /** Each derivation problem of one role, on any declaration. */
  lemma DerivationCodes(parent: Text, children: Payload, word: string)
    ensures var problem := RecoveryAuthority.DerivationProblem(parent, children, word);
            var declared := word in children && children[word].Obj?;
            var derives := IsOperationId(parent) && exists role :: RoleIs(word, role);
            && (problem == Some(ChildrenDeclarationInvalid) <==> !declared)
            && (problem == Some(ChildIdDerivationUnproven) <==> declared && !derives)
            && (problem == None <==>
                  declared && derives && "operation_id" in children[word].fields
                  && exists role :: RoleIs(word, role)
                                    && children[word].fields["operation_id"] == Str(ChildId(parent, role)))
            && (problem != None ==> problem.value in {ChildrenDeclarationInvalid, ChildIdDerivationUnproven,
                                                      ChildIdDerivationMismatch})
  {
    hide IsOperationId, RoleIs;
    RolesNamed(word);
    if RecoveryAuthority.RoleNamed(word).Some? { assert RoleIs(word, RecoveryAuthority.RoleNamed(word).value); }
  }

  lemma RolesNamed(word: string)
    ensures forall role :: RoleIs(word, role) <==> RecoveryAuthority.RoleNamed(word) == Some(role)
  {
  }

  lemma DerivedIs(operation: Text, intent: Payload, role: Role, word: string)
    requires Declares(intent) && word in intent["children"].fields && RecoveryAuthority.RoleNamed(word) == Some(role)
    requires IsOperationId(operation)
    ensures RecoveryAuthority.DerivationProblem(operation, RecoveryAuthority.FieldsOf(Get(intent, "children")), word) ==
              if DeclaredId(intent, word) == ChildId(operation, role) then None else Some(ChildIdDerivationMismatch)
  {
    hide IsOperationId, IsHash, RecoveryAuthority.RoleNamed;
    assert GoodDeclaration(intent["children"].fields[word]);
  }

  /** The two declarations, checked in this order. */
  lemma DerivationsAre(operation: Text, intent: Payload, first: Role, firstWord: string, second: Role,
                       secondWord: string)
    requires Declares(intent) && {firstWord, secondWord} <= intent["children"].fields.Keys
    requires RecoveryAuthority.RoleNamed(firstWord) == Some(first)
             && RecoveryAuthority.RoleNamed(secondWord) == Some(second)
    requires IsOperationId(operation)
    ensures RecoveryAuthority.DerivationProblems(operation, RecoveryAuthority.FieldsOf(Get(intent, "children")),
                                                 [firstWord, secondWord]) ==
              if DeclaredId(intent, firstWord) == ChildId(operation, first)
                 && DeclaredId(intent, secondWord) == ChildId(operation, second) then None
              else Some(ChildIdDerivationMismatch)
  {
    hide Declares, IsOperationId, IsHash, DeclaredId, RecoveryAuthority.DerivationProblem,
         RecoveryAuthority.RoleNamed;
    DerivedIs(operation, intent, first, firstWord);
    DerivedIs(operation, intent, second, secondWord);
    var roles := [firstWord, secondWord];
    assert roles[1..] == [secondWord] && roles[1..][1..] == [];
  }

  lemma {:induction false} OutcomesAre(spaces: map<Text, SpaceView>, intent: Payload, children: map<string, Declared>,
                                       pair: Pair, first: string, second: string)
    requires first in children && second in children
    ensures var one := RecoveryAuthority.NamedOutcome(spaces, intent, children, pair, first);
            var other := RecoveryAuthority.NamedOutcome(spaces, intent, children, pair, second);
            RecoveryAuthority.NamedOutcomes(spaces, intent, children, pair, [first, second]) ==
              if one.Err? then Err(one.error) else if other.Err? then Err(other.error)
              else Ok([one.value, other.value])
  {
    hide RecoveryAuthority.NamedOutcome;
    var roles, one := [first, second], [first];
    var found := RecoveryAuthority.NamedOutcome(spaces, intent, children, pair, first);
    assert one[..0] == [] && roles[..|roles| - 1] == one && roles[|roles| - 1] == second;
    assert RecoveryAuthority.NamedOutcomes(spaces, intent, children, pair, one) ==
           if found.Err? then Err(found.error) else Ok([] + [found.value]);
    if found.Ok? {
      assert [] + [found.value] == [found.value];
      var other := RecoveryAuthority.NamedOutcome(spaces, intent, children, pair, second);
      if other.Ok? { assert [found.value] + [other.value] == [found.value, other.value]; }
    }
  }

  predicate Matches(intent: Payload, two: Two) {
    && RecoveryAuthority.RoleNamed(two.firstWord) == Some(two.first)
    && RecoveryAuthority.RoleNamed(two.secondWord) == Some(two.second)
    && (PairOf(intent) != None ==>
          && RecoveryAuthority.ChildPlace(PairOf(intent).value, two.firstWord, intent) == Some(two.firstPlace)
          && RecoveryAuthority.ChildPlace(PairOf(intent).value, two.secondWord, intent) == Some(two.secondPlace))
  }

  lemma FoundAre(spaces: map<Text, SpaceView>, operation: Text, intent: Payload, two: Two)
    requires Matches(intent, two) && PairOf(intent) != None
    requires DeclarationFault(operation, intent, two.first, two.firstWord, two.second, two.secondWord) == None
    ensures RecoveryAuthority.DecodeChildren(intent).Some?
    ensures var children := RecoveryAuthority.DecodeChildren(intent).value;
            && two.firstWord in children && two.secondWord in children
            && RecoveryAuthority.NamedOutcomes(spaces, intent, children, PairOf(intent).value,
                                               [two.firstWord, two.secondWord]) ==
                 Outcomes(spaces, operation, intent, two)
  {
    hide Declares, DeclaredId, DeclaredHash, RecoveryAuthority.DecodeChildren, PairOf,
         RecoveryAuthority.NamedOutcomes, RecoveryAuthority.VerifyChild, ChildFault, OutcomeOf,
         RecoveryAuthority.RoleNamed, RecoveryAuthority.ChildPlace;
    DeclarationsAre(intent);
    var children, pair := RecoveryAuthority.DecodeChildren(intent).value, PairOf(intent).value;
    OutcomesAre(spaces, intent, children, pair, two.firstWord, two.secondWord);
    ChildIs(spaces, two.firstWord, two.firstPlace, children[two.firstWord].id, children[two.firstWord].hash);
    ChildIs(spaces, two.secondWord, two.secondPlace, children[two.secondWord].id, children[two.secondWord].hash);
  }

  /** Before the Spaces are read. */
  lemma DeclarationsFail(spaces: map<Text, SpaceView>, operation: Text, intent: Payload, two: Two)
    requires IsOperationId(operation) && Matches(intent, two)
    ensures var fault := DeclarationFault(operation, intent, two.first, two.firstWord, two.second, two.secondWord);
            var r := RecoveryAuthority.NamedChildren(spaces, operation, intent, [two.firstWord, two.secondWord]);
            && (fault != None ==> r == Err(fault.value))
            && (fault == None && RecoveryAuthority.DecodePair(intent) == None ==> r == Err(ConflictPairMissing))
            && (fault == None && RecoveryAuthority.DecodePair(intent) != None ==>
                  var children := RecoveryAuthority.DecodeChildren(intent).value;
                  && two.firstWord in children && two.secondWord in children
                  && r == RecoveryAuthority.NamedOutcomes(
                            spaces, intent, children, RecoveryAuthority.DecodePair(intent).value,
                            [two.firstWord, two.secondWord]))
  {
    hide IsOperationId, PairOf, RecoveryAuthority.DecodeChildren, RecoveryAuthority.DecodePair,
         RecoveryAuthority.DerivationProblems, RecoveryAuthority.NamedOutcomes, RecoveryAuthority.RoleNamed,
         RecoveryAuthority.ChildPlace, RecoveryAuthority.FieldsOf, Declares, DeclaredHash, DeclaredId;
    DeclarationsAre(intent);
    var roles := [two.firstWord, two.secondWord];
    assert roles[0] == two.firstWord && roles[1] == two.secondWord;
    HasChildren(intent);
    if Declares(intent) {
      if {two.firstWord, two.secondWord} <= intent["children"].fields.Keys {
        DerivationsAre(operation, intent, two.first, two.firstWord, two.second, two.secondWord);
      }
    }
  }

  lemma HasChildren(intent: Payload)
    ensures Declares(intent) ==> "children" in intent && intent["children"].Obj?
  {
  }

  /** The named children, under an operation whose id is one. */
  lemma NamedAre(spaces: map<Text, SpaceView>, operation: Text, intent: Payload, two: Two)
    requires IsOperationId(operation) && Matches(intent, two)
    ensures var fault := DeclarationFault(operation, intent, two.first, two.firstWord, two.second, two.secondWord);
            RecoveryAuthority.NamedChildren(spaces, operation, intent, [two.firstWord, two.secondWord]) ==
              if fault != None then Err(fault.value)
              else if PairOf(intent) == None then Err(ConflictPairMissing)
              else Outcomes(spaces, operation, intent, two)
  {
    hide IsOperationId, PairOf, RecoveryAuthority.DecodeChildren, RecoveryAuthority.DecodePair, DeclarationFault,
         RecoveryAuthority.NamedOutcomes, RecoveryAuthority.NamedChildren, Matches, Outcomes;
    PairIs(intent);
    DeclarationsFail(spaces, operation, intent, two);
    var fault := DeclarationFault(operation, intent, two.first, two.firstWord, two.second, two.secondWord);
    if fault == None && PairOf(intent) != None { FoundAre(spaces, operation, intent, two); }
  }

  lemma ConflictNamed(spaces: map<Text, SpaceView>, operation: Text, intent: Payload, pair: Pair)
    requires IsOperationId(operation) && (PairOf(intent) != None ==> PairOf(intent) == Some(pair))
    ensures var fault := DeclarationFault(operation, intent, Candidate, "candidate", Active, "active");
            RecoveryAuthority.NamedChildren(spaces, operation, intent, RecoveryAuthority.CONFLICT_ROLES) ==
              if fault != None then Err(fault.value)
              else if PairOf(intent) == None then Err(ConflictPairMissing)
              else Outcomes(spaces, operation, intent, ConflictTwo(pair))
  {
    hide IsOperationId, DeclarationFault, RecoveryAuthority.NamedChildren, Outcomes, PairOf;
    NamedAre(spaces, operation, intent, ConflictTwo(pair));
  }

  lemma ResolutionNamed(spaces: map<Text, SpaceView>, operation: Text, intent: Payload, pair: Pair, winner: Side)
    requires IsOperationId(operation) && PairOf(intent) == Some(pair) && WinnerOf(intent) == Some(winner)
    ensures var fault := DeclarationFault(operation, intent, Winner, "winner", Loser, "loser");
            RecoveryAuthority.NamedChildren(spaces, operation, intent, RecoveryAuthority.RESOLUTION_ROLES) ==
              if fault != None then Err(fault.value)
              else Outcomes(spaces, operation, intent, ResolutionTwo(pair, winner))
  {
    hide IsOperationId, DeclarationFault, RecoveryAuthority.NamedChildren, Outcomes, PairOf;
    NamedAre(spaces, operation, intent, ResolutionTwo(pair, winner));
  }

  lemma ClaimedIs(spaces: map<Text, SpaceView>, locator: LocatorRow, row: OperationRow, intent: Payload)
    requires IsOperationId(Shown(locator.operation)) && Is(row.kind, "activate_provisional")
    ensures RecoveryAuthority.ClassifyClaimed(spaces, locator, row, intent) ==
              ClaimedEntry(spaces, Shown(locator.operation), intent)
  {
    hide IsOperationId, DeclarationFault, RecoveryAuthority.NamedChildren, ChildFault, OutcomeOf, DeclaredId,
         DeclaredHash, PairOf, RecoveryAuthority.DecodePair;
    PairIs(intent);
    var pair := if PairOf(intent) != None then PairOf(intent).value
                else Pair(Place(Plain(""), Plain("")), Place(Plain(""), Plain("")));
    ConflictNamed(spaces, Shown(locator.operation), intent, pair);
  }

  lemma ProblemIs(outcome: ChildOutcome)
    ensures RecoveryAuthority.ChildProblem(outcome) == Unsuccessful(outcome)
  {
  }

  lemma ProblemsAre(one: ChildOutcome, other: ChildOutcome)
    ensures RecoveryAuthority.FirstChildProblem([one, other]) ==
              if Unsuccessful(one) != None then Unsuccessful(one) else Unsuccessful(other)
  {
    hide Unsuccessful, RecoveryAuthority.ChildProblem;
    ProblemIs(one);
    ProblemIs(other);
    var both := [one, other];
    assert both[1..] == [other] && both[1..][1..] == [];
  }

  lemma PairFaultIs(spaces: map<Text, SpaceView>, pair: Pair)
    ensures RecoveryAuthority.LoadPair(spaces, pair) ==
              match PairFault(spaces, pair)
              case Some(code) => Err(code)
              case None => Ok([FactOf(spaces, pair.active), FactOf(spaces, pair.candidate)])
  {
    hide RecoveryAuthority.LoadFact, FactOf, SpaceFault;
    FactIs(spaces, pair.active);
    FactIs(spaces, pair.candidate);
  }

  lemma AwaitingIs(spaces: map<Text, SpaceView>, locator: LocatorRow, row: OperationRow, intent: Payload)
    requires IsOperationId(Shown(locator.operation)) && Is(row.kind, "activate_provisional")
    ensures RecoveryAuthority.ClassifyAwaiting(spaces, locator, row, intent) ==
              AwaitingEntry(spaces, Shown(locator.operation), PlaceNamed(locator), intent)
  {
    hide IsOperationId, DeclarationFault, RecoveryAuthority.NamedChildren, ChildFault, OutcomeOf, DeclaredId,
         DeclaredHash, PairOf, RecoveryAuthority.DecodePair, RecoveryAuthority.LoadPair, PairFault, Unsuccessful,
         RecoveryAuthority.FirstChildProblem, FactOf;
    PairIs(intent);
    if PairOf(intent) != None {
      var pair, operation := PairOf(intent).value, Shown(locator.operation);
      ConflictNamed(spaces, operation, intent, pair);
      PairFaultIs(spaces, pair);
      if DeclarationFault(operation, intent, Candidate, "candidate", Active, "active") == None
         && Outcomes(spaces, operation, intent, ConflictTwo(pair)).Ok? {
        var outcomes := Outcomes(spaces, operation, intent, ConflictTwo(pair)).value;
        ProblemsAre(outcomes[0], outcomes[1]);
      }
    }
  }

  lemma ResolvedIs(won: SessionFact, lost: SessionFact)
    ensures RecoveryAuthority.ResolutionSessionProblem(won, lost) == ResolvedFault(won, lost)
  {
  }

  lemma WinnerPlaces(intent: Payload, pair: Pair)
    ensures var won, lost := RecoveryAuthority.ChildPlace(pair, "winner", intent),
                             RecoveryAuthority.ChildPlace(pair, "loser", intent);
            if WinnerOf(intent) == None then won == None && lost == None else
            var two := ResolutionTwo(pair, WinnerOf(intent).value);
            won == Some(two.firstPlace) && lost == Some(two.secondPlace)
  {
  }

  lemma TransferredIs(spaces: map<Text, SpaceView>, locator: LocatorRow, row: OperationRow, intent: Payload)
    requires IsOperationId(Shown(locator.operation)) && Is(row.kind, "resolve_activation_conflict")
    ensures RecoveryAuthority.ClassifyTransferred(spaces, locator, row, intent) ==
              TransferredEntry(spaces, Shown(locator.operation), intent)
  {
    hide IsOperationId, DeclarationFault, RecoveryAuthority.NamedChildren, OutcomeOf, DeclaredId, DeclaredHash, PairOf,
         RecoveryAuthority.DecodePair, RecoveryAuthority.LoadFact, ResolvedFault,
         RecoveryAuthority.ResolutionSessionProblem, FactOf, WinnerOf, RecoveryAuthority.ChildPlace, SpaceFault;
    PairIs(intent);
    if PairOf(intent) != None {
      var pair, operation := PairOf(intent).value, Shown(locator.operation);
      WinnerPlaces(intent, pair);
      if WinnerOf(intent) != None {
        var two := ResolutionTwo(pair, WinnerOf(intent).value);
        ResolutionNamed(spaces, operation, intent, pair, WinnerOf(intent).value);
        FactIs(spaces, two.firstPlace);
        FactIs(spaces, two.secondPlace);
        if SpaceFault(spaces, two.firstPlace.space) == None && SpaceFault(spaces, two.secondPlace.space) == None {
          ResolvedIs(FactOf(spaces, two.firstPlace), FactOf(spaces, two.secondPlace));
        }
      }
    }
  }

  lemma SimpleKinds(kind: Json)
    ensures OneOf(kind, SIMPLE_KINDS) <==> IsSimple(kind)
    ensures IsSimple(kind) ==> !Is(kind, "activate_provisional") && !Is(kind, "resolve_activation_conflict")
  {
  }

  lemma ClaimedFollows(spaces: map<Text, SpaceView>, locator: LocatorRow, row: OperationRow, intent: Payload)
    requires locator.operation.Str? && IsOperationId(locator.operation.text)
    ensures RecoveryAuthority.ClassifyClaimed(spaces, locator, row, intent) ==
              if Is(row.kind, "activate_provisional") then ClaimedEntry(spaces, Shown(locator.operation), intent)
              else if IsSimple(row.kind) then
                SimpleEntry(spaces, PlaceNamed(locator), Shown(row.id), Shown(row.hash), Is(row.kind, "end"))
              else RecoveryRequired(UnprovenCombination)
  {
    hide IsOperationId, ClaimedEntry, SimpleEntry, IsSimple, RecoveryAuthority.ClassifyOriginal, OneOf, PlaceNamed,
         RecoveryAuthority.NamedChildren, RecoveryAuthority.DecodePair;
    if Is(row.kind, "activate_provisional") { ClaimedIs(spaces, locator, row, intent); }
    SimpleIs(spaces, locator, row);
    SimpleKinds(row.kind);
  }

  /** On any evidence the classification is the table's entry, with the outcomes
      and Sessions it reports or the code of the first check that fails. */
  lemma ClassifyFollows(spaces: map<Text, SpaceView>, locator: LocatorRow, row: OperationRow, intent: Payload)
    requires locator.operation.Str? && IsOperationId(locator.operation.text)
    ensures RecoveryAuthority.Classify(spaces, locator, row, intent) == Entry(spaces, locator, row, intent)
  {
    hide IsOperationId, SessionVerdict, RecoveryAuthority.ClassifyBySession, ClaimedEntry, AwaitingEntry,
         TransferredEntry, SimpleEntry, RecoveryAuthority.ClassifyClaimed, RecoveryAuthority.NamedChildren,
         RecoveryAuthority.DecodePair, RecoveryAuthority.LoadFact, RecoveryAuthority.ChildPlace, PlaceNamed;
    SessionIs(spaces, locator, false, [], ActiveConsistent);
    SessionIs(spaces, locator, true, [], RecoverableReleasing);
    ClaimedFollows(spaces, locator, row, intent);
    SimpleKinds(row.kind);
    if Is(row.kind, "activate_provisional") { AwaitingIs(spaces, locator, row, intent); }
    if Is(row.kind, "resolve_activation_conflict") { TransferredIs(spaces, locator, row, intent); }
  }
}
