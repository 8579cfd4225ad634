/** What the coordinator writes, as the recovery inspector reads it. */
module RecoveryWriter {
  import opened Symbols
  import opened CoordinationRows
  import opened CoordinatorTransactions
  import opened CoordinatorProtocol
  import opened CoordinatorSafety
  import opened CoordinatorSteps
  import opened CoordinatorIdentity
  import CoordinatorAnchor
  import CoordinatorTheorems
  import opened RecoveryEvidence
  import opened RecoveryAuthority
  import opened RecoveryAgreement

  // ---------------------------------------------------------------- rendering

  function KindWord(kind: Kind): string {
    match kind
    case Start => "start"
    case Heartbeat => "heartbeat"
    case Pause => "pause"
    case Resume => "resume"
    case End => "end"
    case Takeover => "takeover"
    case UpdateNote => "update_note"
    case SetCurrentPlanItem => "set_current_plan_item"
    case SetCompletionDraft => "set_completion_draft"
    case AddPlanItem => "add_plan_item"
    case RemovePlanItem => "remove_plan_item"
    case ActivateProvisional => "activate_provisional"
    case ResolveConflict => "resolve_activation_conflict"
  }

  function PhaseWord(phase: Phase): string {
    match phase
    case Prepared => "prepared"
    case Claimed => "claimed"
    case SpaceCommitted => "space_committed"
    case AwaitingResolution => "awaiting_resolution"
    case Transferred => "transferred"
    case Completed => "completed"
    case Rejected => "rejected"
    case ManualIntervention => "manual_intervention"
  }

  function StateWord(state: LocatorState): string {
    match state
    case Claiming => "claiming"
    case ActiveState => "active"
    case Releasing => "releasing"
  }

  function OwnershipWord(ownership: Ownership): string {
    match ownership
    case Authoritatively => "authoritative"
    case LocalProvisional => "local_provisional"
    case InConflict => "activation_conflict"
  }

  function ValidityWord(validity: Validity): string {
    match validity
    case PendingValidity => "pending"
    case Valid => "valid"
    case Invalid => "invalid"
  }

  function PlaceJson(place: Place): Json {
    Obj(map["space_id" := Str(place.space), "session_id" := Str(place.session)])
  }

  function PairJson(pair: Pair): Json {
    Obj(map["active" := PlaceJson(pair.active), "candidate" := PlaceJson(pair.candidate)])
  }

  function ChildrenJson(children: map<Role, Declared>): (json: Json)
    ensures json.Obj?
  {
    Obj(map role | role in children ::
          RoleWord(role) :=
            Obj(map["operation_id" := Str(children[role].id), "payload_hash" := Str(children[role].hash)]))
  }

  function IdentityJson(intent: Intent): Payload {
    map["command_id" := Str(intent.commandId), "space_id" := Str(intent.space), "session_id" := Str(intent.session),
        "ownership_epoch" := Int(intent.epoch), "payload_hash" := Str(intent.hash),
        "kind" := Str(Plain(KindWord(intent.kind)))]
  }

  /** `_intent`: identity first, then business keys that do not collide with
      it, then the declarations. */
  function IntentJson(intent: Intent): Payload {
    IdentityJson(intent) + Without(intent.business, IDENTITY)
    + (if intent.pair.Some? then map["pair" := PairJson(intent.pair.value)] else map[])
    + (if intent.children.Some? then map["children" := ChildrenJson(intent.children.value)] else map[])
  }

  predicate CopiesLocator(locator: Locator, row: LocatorRow) {
    && row.singleton == Str(Plain("active")) && row.state == Str(Plain(StateWord(locator.state)))
    && row.space == Str(locator.space) && row.session == Str(locator.session) && row.operation == Str(locator.operation)
    && row.device == Str(locator.device) && row.tab == Str(locator.tab) && row.epoch == Int(locator.epoch)
    && row.lease.Some? && row.updated.Some?
  }

  predicate CopiesOperation(op: Text, operation: Operation, row: OperationRow) {
    && row.id == Str(op) && row.kind == Str(Plain(KindWord(operation.kind))) && row.hash == Str(operation.hash)
    && row.intent == Parsed(Obj(IntentJson(operation.intent))) && row.phase == Str(Plain(PhaseWord(operation.phase)))
    && (row.descriptor.Missing? || (row.descriptor.Parsed? && row.descriptor.json.Obj?))
    && row.related == (if operation.related.Some? then Str(operation.related.value) else Null)
    && row.created.Some? && row.updated.Some? && row.created.value <= row.updated.value
  }

  predicate CopiesSession(session: SessionRow, row: SessionEvidence) {
    && (row.endedAt != Null <==> session.ended) && row.ownership == Str(Plain(OwnershipWord(session.ownership)))
    && row.validity == Str(Plain(ValidityWord(session.validity)))
    && row.reason == (if session.reason.Some? then Str(Plain(session.reason.value)) else Null)
  }

  predicate CopiesEnvelope(envelope: Envelope, row: EnvelopeRow) {
    row == EnvelopeRow(Str(envelope.space), Str(envelope.session), Str(envelope.hash))
  }

  /** A faithful copy of one Space. */
  predicate CopiesSpace(store: Store, space: Text, view: SpaceView) {
    && view.Readable?
    && (forall k ::
          k in store.envelopes && k.space == space ==>
            k.id in view.envelopes && CopiesEnvelope(store.envelopes[k], view.envelopes[k.id]))
    && (forall k ::
          k in store.receipts && k.space == space ==>
            k.id in view.receipts && view.receipts[k.id] == Str(Plain(ReceiptWord(store.receipts[k]))))
    && (forall k ::
          k in store.sessions && k.space == space ==>
            k.id in view.sessions && CopiesSession(store.sessions[k], view.sessions[k.id]))
  }

  ghost predicate CopiesOperations(store: Store, ops: map<Text, OperationRow>) {
    forall op :: op in store.ops ==> op in ops && CopiesOperation(op, store.ops[op], ops[op])
  }

  ghost predicate CopiesSpaces(store: Store, spaces: map<Text, SpaceView>) {
    && (forall space :: space in spaces ==> CopiesSpace(store, space, spaces[space]))
    && (forall k :: k in store.envelopes ==> k.space in spaces)
    && (forall k :: k in store.sessions ==> k.space in spaces)
  }

  /** The evidence is a faithful copy of the store, with every Space that some
      row names; timestamps are any canonical instants. */
  ghost predicate Copies(store: Store, evidence: Evidence) {
    && evidence.meta.Tables?
    && (if store.locator.Some?
        then |evidence.meta.locators| == 1 && CopiesLocator(store.locator.value, evidence.meta.locators[0])
        else evidence.meta.locators == [])
    && CopiesOperations(store, evidence.meta.ops) && CopiesSpaces(store, evidence.spaces)
  }

  // -------------------------------------------------------------- the intent

  lemma IdentityKeys(intent: Intent)
    ensures IdentityJson(intent).Keys == IDENTITY
    ensures "pair" !in IDENTITY && "children" !in IDENTITY && "winner_role" !in IDENTITY
            && "winner_role" !in NON_BUSINESS
  {
  }

  lemma IntentParts(intent: Intent)
    ensures var json := IntentJson(intent);
            && (forall key :: key in IDENTITY ==> key in json && json[key] == IdentityJson(intent)[key])
            && Get(json, "winner_role") == Get(intent.business, "winner_role")
            && (intent.pair.Some? ==> Get(json, "pair") == PairJson(intent.pair.value))
            && (intent.children.Some? ==> Get(json, "children") == ChildrenJson(intent.children.value))
  {
    hide IdentityJson, PairJson, ChildrenJson;
    IdentityKeys(intent);
  }

  /** What the reader hashes again. */
  lemma BusinessPart(intent: Intent)
    ensures Without(IntentJson(intent), IDENTITY + NON_BUSINESS) == Without(intent.business, IDENTITY + NON_BUSINESS)
  {
    hide IdentityJson, PairJson, ChildrenJson;
    IdentityKeys(intent);
    var one, other := Without(IntentJson(intent), IDENTITY + NON_BUSINESS),
        Without(intent.business, IDENTITY + NON_BUSINESS);
    assert one.Keys == other.Keys;
  }

  predicate IntentCopied(intent: Intent, locator: LocatorRow, row: OperationRow) {
    && row.intent == Parsed(Obj(IntentJson(intent)))
    && row.id == Str(intent.commandId) && row.kind == Str(Plain(KindWord(intent.kind))) && row.hash == Str(intent.hash)
    && locator.space == Str(intent.space) && locator.session == Str(intent.session)
    && locator.epoch == Int(intent.epoch)
  }

  /** The payload uses none of the identity keys. */
  predicate PlainPayload(business: Payload) {
    business.Keys !! IDENTITY
  }

  /** The reader accepts what `_intent` wrote under `_contract_payload_hash` if
      and only if the payload uses none of the identity keys. */
  lemma ContractIntentVerifies(intent: Intent, locator: LocatorRow, row: OperationRow)
    requires IntentCopied(intent, locator, row) && intent.hash == ContractHash(intent.business)
    ensures VerifyIntent(locator, row) == (if PlainPayload(intent.business) then Some(IntentJson(intent)) else None)
  {
    hide IntentJson;
    IntentParts(intent);
    BusinessPart(intent);
    var all, some := Without(intent.business, IDENTITY + NON_BUSINESS), Without(intent.business, NON_BUSINESS);
    assert NON_BUSINESS == {"pair", "children"};
    if PlainPayload(intent.business) {
      assert all == some;
    } else {
      var key :| key in intent.business && key in IDENTITY;
      assert key in some && key !in all;
    }
  }

  // ------------------------------------------------------------- declarations

  lemma PairRoundTrips(intent: Intent)
    requires intent.pair.Some? && Named(intent.pair.value.active) && Named(intent.pair.value.candidate)
    ensures DecodePair(IntentJson(intent)) == intent.pair
  {
    hide IntentJson;
    IntentParts(intent);
  }

  lemma ChildPlaceRoundTrips(intent: Intent, role: Role)
    requires intent.pair.Some? && (role in {Winner, Loser} ==> WinnerSide(intent.business).Some?)
    ensures ChildPlace(intent.pair.value, RoleWord(role), IntentJson(intent)) == Some(NamedPlace(intent, role))
    ensures RoleNamed(RoleWord(role)) == Some(role)
  {
    hide IntentJson;
    IntentParts(intent);
  }

  predicate AllDeclared(op: Text, children: map<Role, Declared>) {
    children != map[] && forall role ::
      role in children ==> children[role].id == ChildId(op, role) && children[role].hash.Digest?
  }

  lemma RawChildren(children: map<Role, Declared>)
    ensures var raw := ChildrenJson(children).fields;
            && (forall word :: word in raw <==> exists role :: role in children && RoleWord(role) == word)
            && (forall role ::
                  role in children ==>
                    RoleWord(role) in raw && raw[RoleWord(role)] == Obj(DeclarationFields(children[role])))
  {
    hide RoleWord;
    forall role ensures RoleNamed(RoleWord(role)) == Some(role) { RoleWordsDistinct(role); }
  }

  lemma DeclarationDecodes(op: Text, role: Role, declared: Declared)
    requires IsOperationId(op) && declared.id == ChildId(op, role) && declared.hash.Digest?
    ensures DeclarationOk(Obj(DeclarationFields(declared)))
  {
    IdShape(op, role);
    hide IsOperationId;
  }

  lemma ChildrenRoundTrip(op: Text, intent: Intent)
    requires IsOperationId(op) && intent.children.Some? && AllDeclared(op, intent.children.value)
    ensures var json := IntentJson(intent);
            && DecodeChildren(json).Some?
            && (forall role :: role in intent.children.value ==>
                  RoleWord(role) in DecodeChildren(json).value
                  && DeclarationOf(json, RoleWord(role)) == DeclarationFields(intent.children.value[role]))
  {
    hide IntentJson, IsOperationId, ChildrenJson, RoleWord, DeclarationFields, DeclarationOk, RoleNamed, IsHash,
         PairJson, IdentityJson;
    IntentParts(intent);
    RawChildren(intent.children.value);
    AllDecode(op, intent.children.value);
  }

  lemma AllDecode(op: Text, children: map<Role, Declared>)
    requires IsOperationId(op) && AllDeclared(op, children)
    ensures var raw := ChildrenJson(children).fields;
            raw != map[] && forall word :: word in raw ==> word in CHILD_ROLES && DeclarationOk(raw[word])
  {
    hide IsOperationId, ChildrenJson, RoleWord, DeclarationFields, DeclarationOk, RoleNamed, IsHash;
    RawChildren(children);
    var raw := ChildrenJson(children).fields;
    var some :| some in children;
    assert RoleWord(some) in raw;
    forall word | word in raw ensures word in CHILD_ROLES && DeclarationOk(raw[word]) {
      var role :| role in children && RoleWord(role) == word;
      RoleWordsDistinct(role);
      DeclarationDecodes(op, role, children[role]);
    }
  }

  lemma IdShape(op: Text, role: Role)
    requires IsOperationId(op)
    ensures IsOperationId(ChildId(op, role))
  {
  }

  function DeclarationFields(declared: Declared): Payload {
    map["operation_id" := Str(declared.id), "payload_hash" := Str(declared.hash)]
  }

  // --------------------------------------------------------------- agreement

  /** The identity columns hold nonempty ASCII and a positive epoch. */
  predicate WellFormedLocator(locator: Locator) {
    && AsciiText(locator.space) && AsciiText(locator.session) && AsciiText(locator.device) && AsciiText(locator.tab)
    && IsOperationId(locator.operation) && locator.epoch > 0
  }

  /** The locator and the operation row agree on identity. */
  predicate Aligned(op: Text, locator: Locator, row: Operation) {
    && locator.state == Claiming && locator.operation == op && WellFormedLocator(locator)
    && locator.space == row.intent.space && locator.session == row.intent.session && locator.epoch == row.intent.epoch
  }

  /** What the reader asks of the identity columns and the payload, and no
      command guarantees: nonempty ASCII identities, no identity key among the
      business keys, and a conflict issued for its pair's active Session. */
  predicate Legible(locator: Locator, row: Operation) {
    && AsciiText(locator.space) && AsciiText(locator.session) && AsciiText(locator.device) && AsciiText(locator.tab)
    && PlainPayload(row.intent.business)
    && (row.kind == ActivateProvisional ==> locator.space == row.intent.space && locator.session == row.intent.session)
  }

  /** The locator points at this unfinished conflict or resolution. */
  predicate PointsAt(store: Store, op: Text) {
    && store.locator.Some? && store.locator.value.operation == op && op in store.ops
    && (store.ops[op].kind == ActivateProvisional || store.ops[op].kind == ResolveConflict)
    && store.ops[op].phase != Completed
  }

  /** In a reached state the rest of what the reader checks on the locator holds. */
  lemma ReachedAligned(sessions: map<Key, SessionRow>, actions: seq<Action>, op: Text)
    requires var store := Reached(sessions, actions).store;
             PointsAt(store, op) && Legible(store.locator.value, store.ops[op])
    ensures var store := Reached(sessions, actions).store; Aligned(op, store.locator.value, store.ops[op])
  {
    hide Reached, TrueRows, CoordinatorAnchor.Recorded, Legible;
    ReachedIdentities(sessions, actions);
    CoordinatorAnchor.ReachedRecords(sessions, actions);
    AlignedByRecord(Reached(sessions, actions).store, op);
  }

  lemma AlignedByRecord(store: Store, op: Text)
    requires TrueRows(store) && CoordinatorAnchor.Recorded(store) && PointsAt(store, op)
             && Legible(store.locator.value, store.ops[op])
    ensures Aligned(op, store.locator.value, store.ops[op])
  {
    RowWords(op, store.ops[op]);
    assert TrueLocator(store) && CoordinatorAnchor.LocatorOk(store);
    hide TrueRows, WrittenRow, CoordinatorAnchor.FrozenRow, CoordinatorAnchor.Recorded, IsOperationId, AsciiText,
         PlainPayload;
  }

  lemma WordsKnown(kind: Kind, phase: Phase, state: LocatorState)
    ensures KindWord(kind) in KINDS && PhaseWord(phase) in PHASES && StateWord(state) in STATES
  {
  }

  lemma ShapeOfCopy(op: Text, operation: Operation, row: OperationRow)
    requires CopiesOperation(op, operation, row) && IsOperationId(op) && IsHash(operation.hash)
    requires operation.related.Some? ==> IsOperationId(operation.related.value)
    ensures OperationShape(row)
  {
    hide IsOperationId, IsHash, KindWord, PhaseWord, IntentJson;
    WordsKnown(operation.kind, operation.phase, Claiming);
  }

  lemma LocatorOfCopy(locator: Locator, row: LocatorRow)
    requires CopiesLocator(locator, row) && WellFormedLocator(locator)
    ensures LocatorValid(row)
  {
    hide IsOperationId, AsciiText, StateWord;
    WordsKnown(Start, Claimed, locator.state);
  }

  predicate ReadablePhase(kind: Kind, phase: Phase) {
    if kind == ResolveConflict then phase == Transferred || phase == Claimed
    else phase == AwaitingResolution || phase == Claimed
  }

  lemma ExamineProceeds(copy: LocatorRow, ops: map<Text, OperationRow>, now: int, intent: Payload)
    requires LocatorValid(copy) && copy.operation.text in ops
    requires var row := ops[copy.operation.text];
             && OperationShape(row) && row.id == copy.operation && VerifyIntent(copy, row) == Some(intent)
             && !Reads(row.phase, "manual_intervention") && PhaseAllowed(copy.state, row.phase)
             && !Reads(copy.state, "active")
             && (Reads(row.phase, "transferred") ==> Reads(row.kind, "resolve_activation_conflict"))
    ensures Examine(Tables([copy], ops), now) == Proceed(copy, ops[copy.operation.text], intent)
  {
    hide OperationShape, VerifyIntent, PhaseAllowed, Reads, IsOperationId, AsciiText;
  }

  /** The Meta checks before the relation chain all pass. */
  lemma MetaPasses(op: Text, locator: Locator, row: Operation, ops: map<Text, OperationRow>, copy: LocatorRow, now: int)
    requires Aligned(op, locator, row) && WrittenRow(op, row)
             && (row.kind == ActivateProvisional || row.kind == ResolveConflict)
    requires PlainPayload(row.intent.business) && ReadablePhase(row.kind, row.phase)
    requires row.related.Some? ==> IsOperationId(row.related.value)
    requires CopiesLocator(locator, copy) && op in ops && CopiesOperation(op, row, ops[op])
    ensures Examine(Tables([copy], ops), now) == Proceed(copy, ops[op], IntentJson(row.intent))
    ensures LocatorPlace(copy) == Place(locator.space, locator.session)
  {
    RowWords(op, row);
    hide IsOperationId, IntentJson, KindWord, PhaseWord, StateWord, WrittenRow, AsciiText, OperationShape,
         LocatorValid, VerifyIntent, WellFormedLocator, PhaseAllowed, ReadablePhase, ContractHash, IsHash,
         PlainPayload, Examine;
    ShapeOfCopy(op, row, ops[op]);
    LocatorOfCopy(locator, copy);
    ContractIntentVerifies(row.intent, copy, ops[op]);
    PhasePasses(row.phase, row.kind);
    ExamineProceeds(copy, ops, now, IntentJson(row.intent));
  }

  lemma RowWords(op: Text, row: Operation)
    requires WrittenRow(op, row) && (row.kind == ActivateProvisional || row.kind == ResolveConflict)
    ensures IsOperationId(op) && row.intent.commandId == op && row.intent.kind == row.kind
            && row.intent.hash == row.hash
    ensures row.hash == ContractHash(row.intent.business) && IsHash(row.hash)
  {
    hide IsOperationId;
  }

  lemma PhasePasses(phase: Phase, kind: Kind)
    requires ReadablePhase(kind, phase)
    ensures PhaseAllowed(Str(Plain("claiming")), Str(Plain(PhaseWord(phase))))
    ensures PhaseWord(phase) != "manual_intervention" && (PhaseWord(phase) == "transferred" <==> phase == Transferred)
    ensures KindWord(ResolveConflict) == "resolve_activation_conflict" && StateWord(Claiming) == "claiming"
    ensures phase == Transferred ==> kind == ResolveConflict
  {
  }

  /** A conflict has no relation; a resolution's relation is its conflict. */
  lemma ConflictChain(op: Text, row: Operation, ops: map<Text, OperationRow>, place: Place)
    requires op in ops && CopiesOperation(op, row, ops[op]) && row.related.None?
    ensures ChainClean(ops, ops[op], place)
  {
    hide LinkOk, LinkAgrees, IntentJson, KindWord, PhaseWord;
    assert ChainOk(ops, ops[op], place, []);
  }

  lemma ConflictLink(related: Text, conflict: Operation, copy: OperationRow)
    requires CopiesOperation(related, conflict, copy) && conflict.intent.epoch > 0
    requires conflict.related.None? && IsOperationId(related) && IsHash(conflict.hash)
    ensures LinkOk(copy) && LinkAgrees(copy, LinkPlace(copy)) && NextLink(copy).None?
  {
    hide IntentJson, IsOperationId, IsHash, OperationShape, KindWord, PhaseWord;
    ShapeOfCopy(related, conflict, copy);
    IntentParts(conflict.intent);
    IdentityKeys(conflict.intent);
  }

  lemma RootLink(op: Text, row: Operation, copy: OperationRow)
    requires CopiesOperation(op, row, copy) && row.kind == ResolveConflict
    ensures IsResolution(copy) && NextLink(copy) == row.related && PyStr(copy.id) == op
  {
    hide IntentJson, PhaseWord;
  }

  lemma ResolutionChain(op: Text, row: Operation, related: Text, conflict: Operation, ops: map<Text, OperationRow>,
                        place: Place)
    requires op in ops && CopiesOperation(op, row, ops[op]) && row.related == Some(related) && related != op
             && row.kind == ResolveConflict
    requires related in ops && CopiesOperation(related, conflict, ops[related])
    requires conflict.related.None? && conflict.intent.epoch > 0 && IsOperationId(related) && IsHash(conflict.hash)
    ensures ChainClean(ops, ops[op], place)
  {
    hide *;
    ConflictLink(related, conflict, ops[related]);
    RootLink(op, row, ops[op]);
    OneLinkChain(ops, ops[op], related, place);
  }

  lemma OneLinkChain(ops: map<Text, OperationRow>, root: OperationRow, related: Text, place: Place)
    requires IsResolution(root) && NextLink(root) == Some(related) && PyStr(root.id) != related
    requires related in ops && LinkOk(ops[related]) && LinkAgrees(ops[related], LinkPlace(ops[related]))
             && NextLink(ops[related]).None?
    ensures ChainClean(ops, root, place)
  {
    hide LinkOk, LinkAgrees, LinkPlace, NextLink, IsResolution, PyStr;
    var links := [related];
    assert links[..0] == [];
    assert LastRow(ops, root, []) == root;
    assert ChainOk(ops, root, place, links);
  }

  lemma OneCopy(store: Store, op: Text, ops: map<Text, OperationRow>)
    requires CopiesOperations(store, ops) && op in store.ops
    ensures op in ops && CopiesOperation(op, store.ops[op], ops[op])
  {
  }

  lemma EnvelopeCopy(store: Store, k: Key, spaces: map<Text, SpaceView>)
    requires CopiesSpaces(store, spaces) && k in store.envelopes && k in store.receipts
             && store.receipts[k] == Succeeded
    ensures k.space in spaces && spaces[k.space].Readable?
    ensures var view := spaces[k.space];
            && k.id in view.envelopes && CopiesEnvelope(store.envelopes[k], view.envelopes[k.id])
            && k.id in view.receipts && view.receipts[k.id] == Str(Plain("succeeded"))
  {
    hide CopiesEnvelope, CopiesSession;
    assert CopiesSpace(store, k.space, spaces[k.space]);
  }

  /** A proven child of the store is a proven child of its copy. */
  lemma ChildCopied(store: Store, op: Text, role: Role, spaces: map<Text, SpaceView>)
    requires CopiesSpaces(store, spaces) && KnownChild(store, op, role) && WrittenRow(op, store.ops[op])
    requires RoleFits(store.ops[op].kind, role)
    ensures ProvenChild(spaces, op, IntentJson(store.ops[op].intent), role)
  {
    var intent := store.ops[op].intent;
    var key := NamedKey(op, intent, role);
    assert RowFits(store.ops[op].kind);
    RowDeclared(op, store.ops[op], role);
    hide IntentJson, IsOperationId, AppliedAt, NamedPlace, RoleWord, DecodePair, DecodeChildren, ChildPlace,
         CopiesSpaces, WrittenRow, RoleFits, AllDeclared, Named;
    PairRoundTrips(intent);
    ChildPlaceRoundTrips(intent, role);
    ChildrenRoundTrip(op, intent);
    EnvelopeCopy(store, key, spaces);
    hide RoleNamed, WinnerSide;
    var declared := intent.children.value[role];
    assert declared.id == ChildId(op, role) by { assert AllDeclared(op, intent.children.value); }
    CopyProves(store, key, declared, spaces, IntentJson(intent), role);
  }

  predicate RowFits(kind: Kind) {
    kind == ActivateProvisional || kind == ResolveConflict
  }

  lemma CopyProves(store: Store, key: Key, declared: Declared, spaces: map<Text, SpaceView>, json: Payload, role: Role)
    requires RoleNamed(RoleWord(role)) == Some(role) && key.id.ChildId? && key.id.role == role && key in store.envelopes
    requires key.space in spaces && spaces[key.space].Readable?
    requires var view := spaces[key.space];
             && key.id in view.envelopes && CopiesEnvelope(store.envelopes[key], view.envelopes[key.id])
             && key.id in view.receipts && view.receipts[key.id] == Str(Plain("succeeded"))
    requires declared == Declared(key.id, store.envelopes[key].hash) && store.envelopes[key].space == key.space
    requires DeclarationOf(json, RoleWord(role)) == DeclarationFields(declared)
    requires DecodePair(json).Some?
    requires ChildPlace(DecodePair(json).value, RoleWord(role), json) ==
               Some(Place(store.envelopes[key].space, store.envelopes[key].session))
    ensures ProvenChild(spaces, key.id.parent, json, role)
  {
    hide DecodePair, ChildPlace, RoleNamed, RoleWord, DeclarationOf;
  }

  lemma RowDeclared(op: Text, row: Operation, role: Role)
    requires WrittenRow(op, row) && (row.kind == ActivateProvisional || row.kind == ResolveConflict)
             && RoleFits(row.kind, role)
    ensures IsOperationId(op) && row.intent.children.Some? && AllDeclared(op, row.intent.children.value)
            && role in row.intent.children.value
    ensures row.intent.pair.Some? && Named(row.intent.pair.value.active) && Named(row.intent.pair.value.candidate)
    ensures role in {Winner, Loser} ==> WinnerSide(row.intent.business).Some?
  {
    hide IsOperationId, ContractHash, WinnerSide, Named;
  }

  /** The Session rows as the winner and the loser child leave them. */
  predicate ResolvedSessions(store: Store, intent: Intent) {
    intent.pair.Some? &&
    var winner, loser := NamedPlace(intent, Winner), NamedPlace(intent, Loser);
    var w, l := Key(winner.space, winner.session), Key(loser.space, loser.session);
    && w in store.sessions && !store.sessions[w].ended && store.sessions[w].ownership == Authoritatively
    && l in store.sessions && store.sessions[l].ended && store.sessions[l].validity == Invalid
    && store.sessions[l].reason == Some("activation_conflict_loser")
  }

  predicate FactIs(spaces: map<Text, SpaceView>, place: Place, session: SessionRow) {
    var r := LoadFact(spaces, place);
    && r.Ok? && r.value.present && r.value.ended == session.ended
    && r.value.ownership == Str(Plain(OwnershipWord(session.ownership)))
    && r.value.validity == Str(Plain(ValidityWord(session.validity)))
    && r.value.reason == (if session.reason.Some? then Str(Plain(session.reason.value)) else Null)
  }

  lemma FactCopied(store: Store, place: Place, spaces: map<Text, SpaceView>)
    requires CopiesSpaces(store, spaces) && Key(place.space, place.session) in store.sessions
    ensures FactIs(spaces, place, store.sessions[Key(place.space, place.session)])
  {
    hide CopiesEnvelope, OwnershipWord, ValidityWord;
    assert CopiesSpace(store, place.space, spaces[place.space]);
  }

  /** What reachability gives the reader about both children of an operation. */
  lemma ReachedChild(sessions: map<Key, SessionRow>, actions: seq<Action>, op: Text, role: Role)
    requires var store := Reached(sessions, actions).store;
             op in store.ops && store.ops[op].intent.pair.Some?
             && Proven(store, NamedKey(op, store.ops[op].intent, role))
    ensures var store := Reached(sessions, actions).store;
            var key := NamedKey(op, store.ops[op].intent, role);
            && Promised(store, key.id, store.envelopes[key].hash)
            && Place(store.envelopes[key].space, store.envelopes[key].session) == NamedPlace(store.ops[op].intent, role)
  {
    hide Reached, NamedPlace, AppliedAt;
    var store := Reached(sessions, actions).store;
    AppliedAsDeclared(sessions, actions, NamedKey(op, store.ops[op].intent, role));
  }

  lemma ReachedRows(sessions: map<Key, SessionRow>, actions: seq<Action>, op: Text)
    requires op in Reached(sessions, actions).store.ops
    ensures var store := Reached(sessions, actions).store;
            && WrittenRow(op, store.ops[op]) && TrueLocator(store)
            && (store.ops[op].kind == ResolveConflict ==>
                  && ResolutionRow(store, op) && store.ops[op].related != Some(op)
                  && WrittenRow(store.ops[op].related.value, store.ops[store.ops[op].related.value]))
            && (store.ops[op].kind == ActivateProvisional ==> ConflictRow(store, op))
  {
    hide Reached, WrittenRow, TrueLocator, ConflictRow;
    var store := Reached(sessions, actions).store;
    ReachedInv(sessions, actions);
    ReachedIdentities(sessions, actions);
    if store.ops[op].kind == ResolveConflict {
      hide TrueRows;
      RelatedIsConflict(store, op);
      assert WrittenRow(store.ops[op].related.value, store.ops[store.ops[op].related.value]) by {
        hide ResolutionRow;
        WrittenOf(store, store.ops[op].related.value);
      }
    }
  }

  lemma WrittenOf(store: Store, op: Text)
    requires TrueRows(store)
    ensures op in store.ops ==> WrittenRow(op, store.ops[op])
  {
  }

  lemma RelatedIsOperation(row: Operation, conflict: Operation)
    requires row.related.Some? && WrittenRow(row.related.value, conflict) && conflict.kind == ActivateProvisional
    ensures IsOperationId(row.related.value) && conflict.related.None? && IsHash(conflict.hash)
  {
  }

  lemma TransferredClean(spaces: map<Text, SpaceView>, locator: LocatorRow, copy: OperationRow, intent: Payload,
                         pair: Pair, winner: Place, loser: Place)
    requires Reads(locator.state, "claiming") && Reads(copy.phase, "transferred")
             && Reads(copy.kind, "resolve_activation_conflict")
    requires DecodePair(intent) == Some(pair)
    requires ChildPlace(pair, "winner", intent) == Some(winner) && ChildPlace(pair, "loser", intent) == Some(loser)
    requires NamedChildren(spaces, PyStr(locator.operation), intent, RESOLUTION_ROLES).Ok?
    requires AllSucceeded(NamedChildren(spaces, PyStr(locator.operation), intent, RESOLUTION_ROLES).value)
    requires LoadFact(spaces, winner).Ok? && LoadFact(spaces, loser).Ok?
    requires ResolutionSessionProblem(LoadFact(spaces, winner).value, LoadFact(spaces, loser).value).None?
    ensures var d := Classify(spaces, locator, copy, intent);
            d.Clean? && d.classification == RecoverableClaiming && d.pair == Some(pair)
  {
    hide DecodePair, ChildPlace, NamedChildren, LoadFact, ResolutionSessionProblem, AllSucceeded, PyStr;
    assert Plain("active") != Plain("claiming") && Plain("releasing") != Plain("claiming");
    assert Plain("awaiting_resolution") != Plain("transferred") && Plain("claimed") != Plain("transferred");
  }

  lemma NoSessionProblem(spaces: map<Text, SpaceView>, winner: Place, loser: Place, won: SessionRow, lost: SessionRow)
    requires FactIs(spaces, winner, won) && !won.ended && won.ownership == Authoritatively
    requires FactIs(spaces, loser, lost) && lost.ended && lost.validity == Invalid
    requires lost.reason == Some("activation_conflict_loser")
    ensures LoadFact(spaces, winner).Ok? && LoadFact(spaces, loser).Ok?
    ensures ResolutionSessionProblem(LoadFact(spaces, winner).value, LoadFact(spaces, loser).value).None?
  {
    hide LoadFact;
  }

  lemma TransferredWords(op: Text, row: Operation, locator: LocatorRow, copy: OperationRow)
    requires row.kind == ResolveConflict && row.phase == Transferred && CopiesOperation(op, row, copy)
    requires locator.state == Str(Plain("claiming"))
    ensures Reads(locator.state, "claiming") && Reads(copy.phase, "transferred")
            && Reads(copy.kind, "resolve_activation_conflict")
  {
    hide IntentJson;
  }

  lemma ResolutionPlaces(intent: Intent)
    requires intent.pair.Some? && WinnerSide(intent.business).Some?
    ensures ChildPlace(intent.pair.value, "winner", IntentJson(intent)) == Some(NamedPlace(intent, Winner))
    ensures ChildPlace(intent.pair.value, "loser", IntentJson(intent)) == Some(NamedPlace(intent, Loser))
  {
    hide IntentJson, ChildPlace, NamedPlace;
    ChildPlaceRoundTrips(intent, Winner);
    ChildPlaceRoundTrips(intent, Loser);
  }

  /** A transferred resolution whose children and Sessions are in order. */
  lemma TransferredClassified(op: Text, row: Operation, locator: LocatorRow, copy: OperationRow,
                              spaces: map<Text, SpaceView>, won: SessionRow, lost: SessionRow)
    requires WrittenRow(op, row) && row.kind == ResolveConflict && row.phase == Transferred && row.intent.pair.Some?
    requires CopiesOperation(op, row, copy) && locator.state == Str(Plain("claiming")) && locator.operation == Str(op)
    requires BothChildrenProven(spaces, op, IntentJson(row.intent), Winner, Loser)
    requires FactIs(spaces, NamedPlace(row.intent, Winner), won) && !won.ended && won.ownership == Authoritatively
    requires FactIs(spaces, NamedPlace(row.intent, Loser), lost) && lost.ended && lost.validity == Invalid
    requires lost.reason == Some("activation_conflict_loser")
    ensures var d := Classify(spaces, locator, copy, IntentJson(row.intent));
            d.Clean? && d.classification == RecoverableClaiming && d.pair == row.intent.pair
  {
    hide *;
    var intent, json := row.intent, IntentJson(row.intent);
    ResolutionOperation(locator, op);
    RowDeclared(op, row, Winner);
    RowDeclared(op, row, Loser);
    TransferredWords(op, row, locator, copy);
    NoSessionProblem(spaces, NamedPlace(intent, Winner), NamedPlace(intent, Loser), won, lost);
    PairRoundTrips(intent);
    ResolutionPlaces(intent);
    ProvenAreVerified(op, intent, spaces);
    TransferredClean(spaces, locator, copy, json, intent.pair.value, NamedPlace(intent, Winner),
                     NamedPlace(intent, Loser));
  }

  lemma ResolutionOperation(locator: LocatorRow, op: Text)
    ensures locator.operation == Str(op) ==> PyStr(locator.operation) == op
    ensures RoleFits(ResolveConflict, Winner) && RoleFits(ResolveConflict, Loser)
  {
  }

  lemma ProvenAreVerified(op: Text, intent: Intent, spaces: map<Text, SpaceView>)
    requires BothChildrenProven(spaces, op, IntentJson(intent), Winner, Loser)
    requires IsOperationId(op) && intent.children.Some? && AllDeclared(op, intent.children.value)
    requires Winner in intent.children.value && Loser in intent.children.value
    ensures var r := NamedChildren(spaces, op, IntentJson(intent), RESOLUTION_ROLES);
            r.Ok? && AllSucceeded(r.value)
  {
    hide IntentJson, IsOperationId, DecodeChildren, NamedChildren, ProvenChild, DeclarationFields, RoleWord,
         DecodePair;
    ChildrenRoundTrip(op, intent);
    NamedChildrenIff(spaces, op, IntentJson(intent), Winner, Loser);
    ResolutionRoles();
  }

  /** A reached state whose locator points at a transferred resolution: the
      claim and the transfer are committed, the completion is not. */
  predicate MidResolution(store: Store, op: Text) {
    && PointsAt(store, op) && store.ops[op].kind == ResolveConflict && store.ops[op].phase == Transferred
    && Legible(store.locator.value, store.ops[op]) && ResolvedSessions(store, store.ops[op].intent)
  }

  lemma ReachedResolution(sessions: map<Key, SessionRow>, actions: seq<Action>, op: Text)
    requires op in Reached(sessions, actions).store.ops
    requires var row := Reached(sessions, actions).store.ops[op];
             row.kind == ResolveConflict && row.phase == Transferred
    ensures var store := Reached(sessions, actions).store;
            var row := store.ops[op];
            && WrittenRow(op, row) && row.intent.pair.Some?
            && row.related.Some? && row.related.value != op && row.related.value in store.ops
            && IsOperationId(row.related.value) && store.ops[row.related.value].related.None?
            && IsHash(store.ops[row.related.value].hash)
            && store.ops[row.related.value].intent.epoch > 0 && BothProven(store, op, Winner, Loser)
  {
    hide Reached, WrittenRow, TrueLocator, IsOperationId, IsHash, BothProven, ConflictRow,
         CoordinatorAnchor.FrozenRow;
    ReachedRows(sessions, actions, op);
    CoordinatorAnchor.ReachedRecords(sessions, actions);
    var store := Reached(sessions, actions).store;
    RelatedIsOperation(store.ops[op], store.ops[store.ops[op].related.value]);
    ConflictEpoch(store, store.ops[op].related.value);
  }

  lemma ConflictEpoch(store: Store, op: Text)
    requires CoordinatorAnchor.Recorded(store)
    ensures op in store.ops && store.ops[op].kind == ActivateProvisional ==> store.ops[op].intent.epoch > 0
  {
    hide CoordinatorAnchor.FrozenResolution;
    assert op in store.ops ==> CoordinatorAnchor.FrozenRow(op, store.ops[op]);
  }

  /** What a copied Meta database holds of a resolution between its commits. */
  predicate CopiedRows(op: Text, locator: Locator, row: Operation, related: Text, conflict: Operation,
                       copy: LocatorRow, ops: map<Text, OperationRow>) {
    && CopiesLocator(locator, copy) && op in ops && CopiesOperation(op, row, ops[op])
    && related in ops && CopiesOperation(related, conflict, ops[related])
  }

  lemma RowsOfCopy(store: Store, op: Text, related: Text, evidence: Evidence)
    requires Copies(store, evidence) && store.locator.Some? && op in store.ops && related in store.ops
    ensures |evidence.meta.locators| == 1 && evidence.meta == Tables([evidence.meta.locators[0]], evidence.meta.ops)
    ensures CopiedRows(op, store.locator.value, store.ops[op], related, store.ops[related], evidence.meta.locators[0],
                       evidence.meta.ops)
  {
    hide CopiesOperations, CopiesSpaces, CopiesOperation, CopiesLocator;
    OneCopy(store, op, evidence.meta.ops);
    OneCopy(store, related, evidence.meta.ops);
  }

  /** Nothing but the classification of its children and Sessions is left. */
  lemma MetaAccepted(op: Text, locator: Locator, row: Operation, related: Text, conflict: Operation, copy: LocatorRow,
                     ops: map<Text, OperationRow>, now: int)
    requires CopiedRows(op, locator, row, related, conflict, copy, ops) && Aligned(op, locator, row)
             && WrittenRow(op, row)
    requires row.kind == ResolveConflict && row.phase == Transferred && PlainPayload(row.intent.business)
    requires row.related == Some(related) && related != op && IsOperationId(related)
    requires conflict.related.None? && IsHash(conflict.hash) && conflict.intent.epoch > 0
    ensures op in ops && Examine(Tables([copy], ops), now) == Proceed(copy, ops[op], IntentJson(row.intent))
    ensures ChainClean(ops, ops[op], LocatorPlace(copy))
  {
    assert ReadablePhase(row.kind, row.phase);
    hide CopiesOperation, CopiesLocator, Aligned, WrittenRow, IsOperationId, IsHash, Examine, ChainClean, IntentJson,
         ReadablePhase, PlainPayload, LocatorPlace;
    MetaPasses(op, locator, row, ops, copy, now);
    ResolutionChain(op, row, related, conflict, ops, LocatorPlace(copy));
  }

  lemma CopiedWords(locator: Locator, copy: LocatorRow)
    requires CopiesLocator(locator, copy) && locator.state == Claiming
    ensures copy.state == Str(Plain("claiming")) && copy.operation == Str(locator.operation)
  {
  }

  lemma AnsweredBy(evidence: Evidence, now: int, decision: Verdict, locator: LocatorRow, row: OperationRow,
                   intent: Payload)
    requires Answers(evidence, now, decision) && Examine(evidence.meta, now) == Proceed(locator, row, intent)
    requires evidence.meta.Tables? && ChainClean(evidence.meta.ops, row, LocatorPlace(locator))
    ensures decision == Classify(evidence.spaces, locator, row, intent)
  {
    hide Examine, ChainClean, Classify, LocatorPlace;
  }

  /** Every state between the transfer and the completion is recoverable: with
      the Sessions as the children set them, the inspector of a faithful copy
      answers `recoverable_claiming` and names the conflict pair. */
  lemma TransferredIsRecoverable(sessions: map<Key, SessionRow>, actions: seq<Action>, op: Text, evidence: Evidence,
                                 now: int, decision: Verdict)
    requires MidResolution(Reached(sessions, actions).store, op)
    requires Copies(Reached(sessions, actions).store, evidence) && Answers(evidence, now, decision)
    ensures decision.Clean? && decision.classification == RecoverableClaiming
    ensures decision.pair == Reached(sessions, actions).store.ops[op].intent.pair
  {
    ReachedResolution(sessions, actions, op);
    ReachedChild(sessions, actions, op, Winner);
    ReachedChild(sessions, actions, op, Loser);
    ReachedAligned(sessions, actions, op);
    hide Reached, Copies, WrittenRow, IsOperationId, IsHash, NamedPlace, Answers, Proven, Promised, MidResolution,
         ResolvedSessions, Aligned;
    MidIsRecoverable(Reached(sessions, actions).store, op, evidence, now, decision);
  }

  /** What is known of a named child: proven, and its envelope as declared. */
  predicate KnownChild(store: Store, op: Text, role: Role) {
    && op in store.ops && store.ops[op].intent.pair.Some?
    && var key := NamedKey(op, store.ops[op].intent, role);
    && Proven(store, key) && Promised(store, key.id, store.envelopes[key].hash)
    && Place(store.envelopes[key].space, store.envelopes[key].session) == NamedPlace(store.ops[op].intent, role)
  }

  lemma MidIsRecoverable(store: Store, op: Text, evidence: Evidence, now: int, decision: Verdict)
    requires MidResolution(store, op) && WrittenRow(op, store.ops[op]) && Copies(store, evidence)
             && Answers(evidence, now, decision)
    requires Aligned(op, store.locator.value, store.ops[op])
    requires store.ops[op].related.Some? && store.ops[op].related.value in store.ops
    requires var related := store.ops[op].related.value;
             store.ops[related].intent.epoch > 0 && related != op && IsOperationId(related)
             && store.ops[related].related.None? && IsHash(store.ops[related].hash)
    requires KnownChild(store, op, Winner) && KnownChild(store, op, Loser)
    ensures decision.Clean? && decision.classification == RecoverableClaiming
            && decision.pair == store.ops[op].intent.pair
  {
    var row, related, locator := store.ops[op], store.ops[op].related.value, store.locator.value;
    RowsOfCopy(store, op, related, evidence);
    assert CopiesSpaces(store, evidence.spaces);
    assert locator.state == Claiming && locator.operation == op by {
      hide Copies, KnownChild, WrittenRow, Answers, CopiedRows;
    }
    hide Copies, WrittenRow, IsOperationId, IsHash, KnownChild, Answers, Aligned, ResolvedSessions, PlainPayload,
         CopiesSpaces, CopiesLocator, CopiesOperation;
    var copy, ops := evidence.meta.locators[0], evidence.meta.ops;
    MetaAccepted(op, locator, row, related, store.ops[related], copy, ops, now);
    CopiedWords(locator, copy);
    AnsweredBy(evidence, now, decision, copy, ops[op], IntentJson(row.intent));
    SpacesAccepted(store, op, copy, ops[op], evidence.spaces);
  }

  lemma SpacesAccepted(store: Store, op: Text, locator: LocatorRow, copy: OperationRow, spaces: map<Text, SpaceView>)
    requires CopiesSpaces(store, spaces) && KnownChild(store, op, Winner) && KnownChild(store, op, Loser)
    requires WrittenRow(op, store.ops[op]) && store.ops[op].kind == ResolveConflict
             && store.ops[op].phase == Transferred
    requires ResolvedSessions(store, store.ops[op].intent) && CopiesOperation(op, store.ops[op], copy)
    requires locator.state == Str(Plain("claiming")) && locator.operation == Str(op)
    ensures var d := Classify(spaces, locator, copy, IntentJson(store.ops[op].intent));
            d.Clean? && d.classification == RecoverableClaiming && d.pair == store.ops[op].intent.pair
  {
    var row := store.ops[op];
    assert row.intent.pair.Some?;
    ResolvedFacts(store, op, spaces);
    BothCopied(store, op, spaces);
    hide KnownChild, CopiesSpaces, WrittenRow, ResolvedSessions, CopiesOperation, BothChildrenProven, IntentJson,
         FactIs, NamedPlace, Classify;
    var w, l := NamedPlace(row.intent, Winner), NamedPlace(row.intent, Loser);
    TransferredClassified(op, row, locator, copy, spaces, store.sessions[Key(w.space, w.session)],
                          store.sessions[Key(l.space, l.session)]);
  }

  lemma BothCopied(store: Store, op: Text, spaces: map<Text, SpaceView>)
    requires CopiesSpaces(store, spaces) && KnownChild(store, op, Winner) && KnownChild(store, op, Loser)
    requires WrittenRow(op, store.ops[op]) && store.ops[op].kind == ResolveConflict
    ensures BothChildrenProven(spaces, op, IntentJson(store.ops[op].intent), Winner, Loser)
  {
    hide CopiesSpaces, WrittenRow, KnownChild, IntentJson, ProvenChild, RoleWord;
    ChildCopied(store, op, Winner, spaces);
    ChildCopied(store, op, Loser, spaces);
  }

  lemma ResolvedFacts(store: Store, op: Text, spaces: map<Text, SpaceView>)
    requires op in store.ops && store.ops[op].intent.pair.Some? && ResolvedSessions(store, store.ops[op].intent)
             && CopiesSpaces(store, spaces)
    ensures var w, l := NamedPlace(store.ops[op].intent, Winner), NamedPlace(store.ops[op].intent, Loser);
            && Key(w.space, w.session) in store.sessions && Key(l.space, l.session) in store.sessions
            && FactIs(spaces, w, store.sessions[Key(w.space, w.session)])
            && FactIs(spaces, l, store.sessions[Key(l.space, l.session)])
            && var won, lost := store.sessions[Key(w.space, w.session)], store.sessions[Key(l.space, l.session)];
            !won.ended && won.ownership == Authoritatively && lost.ended && lost.validity == Invalid
            && lost.reason == Some("activation_conflict_loser")
  {
    hide NamedPlace, CopiesSpaces, FactIs;
    FactCopied(store, NamedPlace(store.ops[op].intent, Winner), spaces);
    FactCopied(store, NamedPlace(store.ops[op].intent, Loser), spaces);
  }

  // ---------------------------------------------------- the awaiting conflict

  /** A conflict the locator anchors, awaiting its resolution, with both
      Sessions as the conflict children set them. */
  predicate Awaiting(store: Store, op: Text) {
    && PointsAt(store, op) && store.ops[op].kind == ActivateProvisional && store.ops[op].phase == AwaitingResolution
    && Legible(store.locator.value, store.ops[op]) && ConflictSessions(store, store.ops[op].intent)
  }

  predicate ConflictSessions(store: Store, intent: Intent) {
    intent.pair.Some? && ConflictSession(store, intent.pair.value.active)
    && ConflictSession(store, intent.pair.value.candidate)
  }

  /** The locator of an anchored conflict stands at the pair's active Session. */
  lemma AnchoredPlace(sessions: map<Key, SessionRow>, actions: seq<Action>, op: Text)
    requires var store := Reached(sessions, actions).store;
             PointsAt(store, op) && store.ops[op].kind == ActivateProvisional
    ensures var store := Reached(sessions, actions).store;
            && store.ops[op].intent.pair.Some?
            && Place(store.locator.value.space, store.locator.value.session) == store.ops[op].intent.pair.value.active
  {
    hide Reached, CoordinatorAnchor.FrozenRow;
    CoordinatorAnchor.ReachedRecords(sessions, actions);
  }

  predicate ConflictSession(store: Store, place: Place) {
    Key(place.space, place.session) in store.sessions
    && store.sessions[Key(place.space, place.session)].ownership == CoordinationRows.InConflict
  }

  lemma ConflictCopied(store: Store, place: Place, spaces: map<Text, SpaceView>)
    requires CopiesSpaces(store, spaces) && ConflictSession(store, place)
    ensures RecoveryAgreement.InConflict(spaces, place)
  {
    hide CopiesEnvelope, ValidityWord;
    assert CopiesSpace(store, place.space, spaces[place.space]);
  }

  lemma AwaitingWords(op: Text, row: Operation, copy: OperationRow, locator: LocatorRow)
    requires CopiesOperation(op, row, copy) && row.kind == ActivateProvisional && row.phase == AwaitingResolution
    requires locator.state == Str(Plain("claiming"))
    ensures Stand(locator, copy, "claiming", "awaiting_resolution") && Reads(copy.kind, "activate_provisional")
  {
    hide IntentJson;
  }

  lemma ConflictAccepted(store: Store, op: Text, spaces: map<Text, SpaceView>)
    requires CopiesSpaces(store, spaces) && KnownChild(store, op, Candidate) && KnownChild(store, op, Active)
    requires WrittenRow(op, store.ops[op]) && store.ops[op].kind == ActivateProvisional
    ensures DecodePair(IntentJson(store.ops[op].intent)) == store.ops[op].intent.pair
    ensures ChildrenAccepted(spaces, op, IntentJson(store.ops[op].intent), Candidate, Active)
  {
    RowDeclared(op, store.ops[op], Candidate);
    RowDeclared(op, store.ops[op], Active);
    hide CopiesSpaces, WrittenRow, KnownChild, IntentJson, ProvenChild, RoleWord, AllDeclared, IsOperationId,
         DecodeChildren, DecodePair, Named, DeclarationFields;
    ChildCopied(store, op, Candidate, spaces);
    ChildCopied(store, op, Active, spaces);
    ChildrenRoundTrip(op, store.ops[op].intent);
    PairRoundTrips(store.ops[op].intent);
  }

  lemma AwaitingClassified(op: Text, row: Operation, locator: LocatorRow, copy: OperationRow,
                           spaces: map<Text, SpaceView>)
    requires IsOperationId(op) && row.intent.pair.Some? && CopiesOperation(op, row, copy)
             && locator.operation == Str(op)
    requires Stand(locator, copy, "claiming", "awaiting_resolution") && Reads(copy.kind, "activate_provisional")
    requires DecodePair(IntentJson(row.intent)) == row.intent.pair
             && LocatorPlace(locator) == row.intent.pair.value.active
    requires ChildrenAccepted(spaces, op, IntentJson(row.intent), Candidate, Active)
    requires RecoveryAgreement.InConflict(spaces, row.intent.pair.value.active)
             && RecoveryAgreement.InConflict(spaces, row.intent.pair.value.candidate)
    ensures var d := Classify(spaces, locator, copy, IntentJson(row.intent));
            d.Clean? && d.classification == ConflictAwaiting
  {
    hide IntentJson, IsOperationId, Classify, ChildrenAccepted, RecoveryAgreement.InConflict, DecodePair, Reads,
         CopiesOperation, LocatorPlace, Stand;
    ClassifyIff(spaces, locator, copy, IntentJson(row.intent), ConflictAwaiting);
    assert AwaitingProven(spaces, locator, copy, IntentJson(row.intent));
  }

  lemma AwaitingMeta(op: Text, locator: Locator, row: Operation, copy: LocatorRow, ops: map<Text, OperationRow>,
                     now: int)
    requires CopiesLocator(locator, copy) && op in ops && CopiesOperation(op, row, ops[op])
             && Aligned(op, locator, row) && WrittenRow(op, row)
    requires row.kind == ActivateProvisional && (row.phase == AwaitingResolution || row.phase == Claimed)
             && PlainPayload(row.intent.business)
    ensures Examine(Tables([copy], ops), now) == Proceed(copy, ops[op], IntentJson(row.intent))
    ensures ChainClean(ops, ops[op], LocatorPlace(copy)) && LocatorPlace(copy) == Place(locator.space, locator.session)
    ensures IsOperationId(op)
  {
    assert ReadablePhase(row.kind, row.phase) && row.related == None && IsOperationId(op) by {
      hide IsOperationId, ContractHash;
    }
    hide CopiesOperation, CopiesLocator, Aligned, WrittenRow, IsOperationId, IsHash, Examine, ChainClean, IntentJson,
         ReadablePhase, PlainPayload, LocatorPlace;
    MetaPasses(op, locator, row, ops, copy, now);
    ConflictChain(op, row, ops, LocatorPlace(copy));
  }

  lemma MidIsAwaiting(store: Store, op: Text, evidence: Evidence, now: int, decision: Verdict)
    requires Awaiting(store, op) && WrittenRow(op, store.ops[op]) && Copies(store, evidence)
             && Answers(evidence, now, decision)
    requires Aligned(op, store.locator.value, store.ops[op])
    requires Place(store.locator.value.space, store.locator.value.session) == store.ops[op].intent.pair.value.active
    requires KnownChild(store, op, Candidate) && KnownChild(store, op, Active)
    ensures decision.Clean? && decision.classification == ConflictAwaiting
  {
    var row, locator := store.ops[op], store.locator.value;
    RowsOfCopy(store, op, op, evidence);
    assert CopiesSpaces(store, evidence.spaces);
    assert locator.state == Claiming && locator.operation == op by {
      hide Copies, KnownChild, WrittenRow, Answers, CopiedRows;
    }
    hide Copies, WrittenRow, IsOperationId, KnownChild, Answers, Aligned, PlainPayload, CopiesSpaces, CopiesLocator,
         CopiesOperation, ConflictSession, RecoveryAgreement.InConflict, IntentJson, Classify, Stand, Reads,
         ChildrenAccepted, DecodePair, LocatorPlace, Examine, ChainClean;
    var copy, ops := evidence.meta.locators[0], evidence.meta.ops;
    AwaitingMeta(op, locator, row, copy, ops, now);
    CopiedWords(locator, copy);
    AwaitingWords(op, row, ops[op], copy);
    AnsweredBy(evidence, now, decision, copy, ops[op], IntentJson(row.intent));
    ConflictAccepted(store, op, evidence.spaces);
    ConflictCopied(store, row.intent.pair.value.active, evidence.spaces);
    ConflictCopied(store, row.intent.pair.value.candidate, evidence.spaces);
    AwaitingClassified(op, row, copy, ops[op], evidence.spaces);
  }

  /** Every conflict the coordinator left awaiting its resolution is recognised
      as such, in any reached state whose locator still agrees with its intent. */
  lemma AwaitingIsRecognised(sessions: map<Key, SessionRow>, actions: seq<Action>, op: Text, evidence: Evidence,
                             now: int, decision: Verdict)
    requires Awaiting(Reached(sessions, actions).store, op)
    requires Copies(Reached(sessions, actions).store, evidence) && Answers(evidence, now, decision)
    ensures decision.Clean? && decision.classification == ConflictAwaiting
  {
    ReachedRows(sessions, actions, op);
    ReachedAligned(sessions, actions, op);
    AnchoredPlace(sessions, actions, op);
    hide WrittenRow, TrueLocator, IsOperationId, IsHash, Reached, Copies, Answers, NamedPlace, Proven, Promised,
         ConflictSession, Aligned, PlainPayload;
    ReachedChild(sessions, actions, op, Candidate);
    ReachedChild(sessions, actions, op, Active);
    hide ConflictRow, Awaiting;
    MidIsAwaiting(Reached(sessions, actions).store, op, evidence, now, decision);
  }

  // ---------------------------------------------------- the forsaken conflict

  lemma ClaimedWords(op: Text, row: Operation, copy: OperationRow, locator: LocatorRow)
    requires CopiesOperation(op, row, copy) && row.kind == ActivateProvisional && row.phase == Claimed
    requires locator.state == Str(Plain("claiming"))
    ensures Stand(locator, copy, "claiming", "claimed") && Reads(copy.kind, "activate_provisional")
  {
    hide IntentJson;
  }

  lemma ClaimedClassified(op: Text, row: Operation, locator: LocatorRow, copy: OperationRow,
                          spaces: map<Text, SpaceView>)
    requires Stand(locator, copy, "claiming", "claimed") && Reads(copy.kind, "activate_provisional")
    requires locator.operation == Str(op) && IsOperationId(op)
    requires ChildrenAccepted(spaces, op, IntentJson(row.intent), Candidate, Active)
    ensures var d := Classify(spaces, locator, copy, IntentJson(row.intent));
            d.Clean? && d.classification == ConflictAwaiting
  {
    hide IntentJson, Classify, ChildrenAccepted, Reads, Stand, IsOperationId;
    ClassifyIff(spaces, locator, copy, IntentJson(row.intent), ConflictAwaiting);
  }

  lemma ClaimedIsAwaiting(store: Store, op: Text, evidence: Evidence, now: int, decision: Verdict)
    requires PointsAt(store, op) && store.ops[op].kind == ActivateProvisional && store.ops[op].phase == Claimed
    requires WrittenRow(op, store.ops[op]) && Copies(store, evidence) && Answers(evidence, now, decision)
    requires Aligned(op, store.locator.value, store.ops[op]) && PlainPayload(store.ops[op].intent.business)
    requires KnownChild(store, op, Candidate) && KnownChild(store, op, Active)
    ensures decision.Clean? && decision.classification == ConflictAwaiting
  {
    var row, locator := store.ops[op], store.locator.value;
    RowsOfCopy(store, op, op, evidence);
    assert CopiesSpaces(store, evidence.spaces);
    assert locator.state == Claiming && locator.operation == op by {
      hide Copies, KnownChild, WrittenRow, Answers, CopiedRows;
    }
    hide Copies, WrittenRow, IsOperationId, KnownChild, Answers, Aligned, PlainPayload, CopiesSpaces, CopiesLocator,
         CopiesOperation, IntentJson, Classify, Stand, Reads, ChildrenAccepted, DecodePair, LocatorPlace, Examine,
         ChainClean;
    var copy, ops := evidence.meta.locators[0], evidence.meta.ops;
    AwaitingMeta(op, locator, row, copy, ops, now);
    CopiedWords(locator, copy);
    ClaimedWords(op, row, ops[op], copy);
    AnsweredBy(evidence, now, decision, copy, ops[op], IntentJson(row.intent));
    ConflictAccepted(store, op, evidence.spaces);
    ClaimedClassified(op, row, copy, ops[op], evidence.spaces);
  }

  /** Reader and writer disagree on a conflict whose activation proved both
      children and then died: the inspector of a faithful copy answers
      `awaiting_resolution`, and no continuation ever completes it. */
  lemma ForsakenLooksAwaiting(sessions: map<Key, SessionRow>, actions: seq<Action>, more: seq<Action>, op: Text,
                              evidence: Evidence, now: int, decision: Verdict)
    requires CoordinatorTheorems.Forsaken(Reached(sessions, actions), op)
    requires var store := Reached(sessions, actions).store;
             && PointsAt(store, op) && Legible(store.locator.value, store.ops[op]) && store.ops[op].intent.pair.Some?
             && BothProven(store, op, Candidate, Active) && Copies(store, evidence)
    requires Answers(evidence, now, decision)
    ensures decision.Clean? && decision.classification == ConflictAwaiting
    ensures var t := Reached(sessions, actions + more).store; op in t.ops && t.ops[op].phase == Claimed
  {
    ForsakenParts(Reached(sessions, actions), op);
    ReachedRows(sessions, actions, op);
    ReachedAligned(sessions, actions, op);
    hide WrittenRow, TrueLocator, IsOperationId, IsHash, Reached, Copies, Answers, NamedPlace, Proven, Promised,
         Aligned, PlainPayload, ConflictRow, CoordinatorTheorems.Forsaken;
    ReachedChild(sessions, actions, op, Candidate);
    ReachedChild(sessions, actions, op, Active);
    ClaimedIsAwaiting(Reached(sessions, actions).store, op, evidence, now, decision);
    CoordinatorTheorems.AbandonedNeverCompletes(sessions, actions, more, op);
    ForsakenParts(Reached(sessions, actions + more), op);
  }

  lemma ForsakenParts(s: State, op: Text)
    requires CoordinatorTheorems.Forsaken(s, op)
    ensures op in s.store.ops && s.store.ops[op].kind == ActivateProvisional && s.store.ops[op].phase == Claimed
  {
  }
}
