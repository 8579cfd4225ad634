/** Each atomic block of the coordinator as a function of the durable state:
    one Meta transaction, or the plain computation between two of them. */
module CoordinatorTransactions {
  import opened Symbols
  import opened CoordinationRows
  import opened ChildEvidence

  datatype Command = Command(
    id: Text, space: Option<Text>, session: Text, epoch: Option<int>, hash: Text, payload: Payload)

  datatype Fault =
    | InvalidRequest | NoLocator | AlreadyClaimed | ConcurrentClaim | WrongAnchor | StaleEpoch
    | IdempotencyConflict | MissingRow | CasFailed | ProofInvalid | Unproven

  /** `value or 1` for an optional epoch. */
  function EpochOr1(epoch: Option<int>): int {
    if epoch.Some? && epoch.value != 0 then epoch.value else 1
  }

  /** `_conflict_pair`: the `pair` object of a payload or of an intent. */
  function DecodePlace(side: Json): Place
    requires side.Obj?
  {
    Place(PyStr(Get(side.fields, "space_id")), PyStr(Get(side.fields, "session_id")))
  }

  predicate Named(place: Place) {
    !Empty(place.space) && !Empty(place.session)
  }

  function ConflictPair(payload: Payload): Option<Pair> {
    var raw := Get(payload, "pair");
    if !raw.Obj? then None else
    var active, candidate := Get(raw.fields, "active"), Get(raw.fields, "candidate");
    if !active.Obj? || !candidate.Obj? then None else
    var pair := Pair(DecodePlace(active), DecodePlace(candidate));
    if Named(pair.active) && Named(pair.candidate) && pair.active != pair.candidate then Some(pair) else None
  }

  /** `_contract_payload_hash`: the business subset without the declarations. */
  function ContractHash(payload: Payload): Text {
    Digest(Without(payload, {"pair", "children"}))
  }

  const GUARD_FIELDS: set<string> := {
    "operation", "expected_version", "expected_work_item_versions", "expected_work_item_version",
    "expected_plan_version", "expected_plan_versions", "expected_source_work_item_version",
    "ownership_epoch", "expected_ownership_epoch", "cached_ownership_epoch", "resolution_proof"
  }

  /** `_child_hash`. */
  function ChildHash(payload: Payload): Text {
    Digest(Without(payload, GUARD_FIELDS))
  }

  function StrOf(chars: string): Json {
    Str(Plain(chars))
  }

  function PlacePayload(place: Place): Payload {
    map["space_id" := Str(place.space), "session_id" := Str(place.session)]
  }

  function ConflictChildPayload(command: Command, place: Place): Payload {
    PlacePayload(place)
    + map["decision" := StrOf("preserve"), "expected_ownership_epoch" := Int(EpochOr1(command.epoch))]
  }

  function WinnerPayload(place: Place, decisionAt: Text): Payload {
    PlacePayload(place) + map[
      "decision_at" := Str(decisionAt),
      "validity_correction" := Obj(map[
        "loser_validity" := StrOf("invalid"),
        "loser_validity_reason" := StrOf("activation_conflict_loser")])]
  }

  function LoserPayload(place: Place, decisionAt: Text): Payload {
    PlacePayload(place) + map[
      "occurred_at" := Str(decisionAt),
      "timer_completion" := StrOf("interrupted"),
      "validity" := StrOf("invalid"),
      "validity_reason" := StrOf("activation_conflict_loser")]
  }

  /** The decision time of a resolution: frozen in the payload, or the clock. */
  function DecisionAt(payload: Payload, clock: Text): Text {
    if Truthy(Get(payload, "decision_at")) then PyStr(payload["decision_at"]) else clock
  }

  function MakeChild(parent: Text, role: Role, place: Place, payload: Payload): Child {
    Child(role, place, ChildId(parent, role), ChildHash(payload))
  }

  function ConflictChildren(command: Command, pair: Pair): (kids: seq<Child>)
    ensures |kids| == 2
  {
    [MakeChild(command.id, Candidate, pair.candidate, ConflictChildPayload(command, pair.candidate)),
     MakeChild(command.id, Active, pair.active, ConflictChildPayload(command, pair.active))]
  }

  function ResolutionChildren(op: Text, pair: Pair, winner: Side, decisionAt: Text): (kids: seq<Child>)
    ensures |kids| == 2
  {
    [MakeChild(op, Winner, pair.At(winner), WinnerPayload(pair.At(winner), decisionAt)),
     MakeChild(op, Loser, pair.At(Other(winner)), LoserPayload(pair.At(Other(winner)), decisionAt))]
  }

  function Declarations(kids: seq<Child>): map<Role, Declared>
    requires |kids| == 2
  {
    map[kids[0].role := Declared(kids[0].id, kids[0].hash), kids[1].role := Declared(kids[1].id, kids[1].hash)]
  }

  /** `_intent`, before it is rendered as JSON. */
  function MakeIntent(kind: Kind, command: Command): Intent {
    Intent(command.id, if command.space.Some? then command.space.value else Plain(""), command.session,
           EpochOr1(command.epoch), command.hash, kind, command.payload, None, None)
  }

  function TextField(payload: Payload, key: string): Text {
    if key in payload then PyStr(payload[key]) else Plain("")
  }

  function ClaimingLocator(command: Command, place: Place): Locator {
    Locator(place.space, place.session, command.id, Claiming,
            TextField(command.payload, "owner_device_id"), TextField(command.payload, "owner_tab_id"),
            EpochOr1(command.epoch))
  }

  /** A Meta transaction writes no Space table. */
  predicate MetaOnly(before: Store, after: Store) {
    && after.envelopes == before.envelopes && after.receipts == before.receipts
    && after.journal == before.journal && after.sessions == before.sessions
  }

  /** No existing operation row is changed. */
  ghost predicate RowsKept(before: Store, after: Store) {
    forall o :: o in before.ops ==> o in after.ops && after.ops[o] == before.ops[o]
  }

  /** Insert with a primary key and the locator's positive-epoch check. */
  function InsertClaim(store: Store, locator: Locator, op: Text, row: Operation): (r: Result<Store, Fault>)
    ensures r.Ok? ==> MetaOnly(store, r.value) && RowsKept(store, r.value) && op !in store.ops
  {
    if op in store.ops || locator.epoch <= 0 then Err(ConcurrentClaim)
    else Ok(store.(locator := Some(locator), ops := store.ops[op := row]))
  }

  /** `start`, its Meta transaction. A replay of the claiming command changes nothing. */
  function StartTx(store: Store, command: Command): (r: Result<Store, Fault>)
    ensures r.Ok? ==> MetaOnly(store, r.value) && RowsKept(store, r.value)
  {
    if command.space.None? || !IsOperationId(command.id) || !IsHash(command.hash) then Err(InvalidRequest) else
    match store.locator
    case Some(locator) =>
      if locator.operation != command.id then Err(AlreadyClaimed)
      else if command.id !in store.ops || store.ops[command.id].hash != command.hash then Err(IdempotencyConflict)
      else Ok(store)
    case None =>
      InsertClaim(store, ClaimingLocator(command, Place(command.space.value, command.session)), command.id,
                  Operation(Start, command.hash, MakeIntent(Start, command), Claimed, None, None))
  }

  /** The conflict operation as first persisted, children declared. */
  function NewConflict(command: Command, pair: Pair): (row: Operation)
    ensures row.kind == ActivateProvisional && row.phase == Claimed && row.related == None
            && row.intent.pair == Some(pair)
  {
    var hash := ContractHash(command.payload);
    Operation(ActivateProvisional, hash,
              MakeIntent(ActivateProvisional, command).(
              hash := hash, pair := Some(pair), children := Some(Declarations(ConflictChildren(command, pair)))),
              Claimed, None, None)
  }

  /** `activate_provisional`, its first Meta transaction: the conflict intent
      with both child ids and hashes is durable before any child runs. */
  function ActivateTx(store: Store, command: Command): (r: Result<Store, Fault>)
    ensures r.Ok? ==> MetaOnly(store, r.value) && RowsKept(store, r.value) && command.id !in store.ops
  {
    if !IsOperationId(command.id) || ConflictPair(command.payload).None? then Err(InvalidRequest) else
    var pair := ConflictPair(command.payload).value;
    match store.locator
    case Some(locator) =>
      if locator.state != Claiming || locator.operation != command.id then Err(WrongAnchor)
      else InsertClaim(store, locator, command.id, NewConflict(command, pair))
    case None =>
      InsertClaim(store, ClaimingLocator(command, pair.active), command.id, NewConflict(command, pair))
  }

  /** The last Meta transaction of `activate_provisional`; it checks no phase. */
  function AwaitTx(store: Store, op: Text): (r: Result<Store, Fault>)
    ensures r.Ok? ==> MetaOnly(store, r.value)
  {
    if op !in store.ops then Err(MissingRow)
    else Ok(store.(ops := store.ops[op := store.ops[op].(phase := AwaitingResolution)]))
  }

  datatype ResolutionPlan = ResolutionPlan(
    op: Text, related: Text, epoch: int, expectedEpoch: int, isRestart: bool,
    pair: Pair, winner: Side, kids: seq<Child>, hash: Text, intent: Intent)

  datatype ResolveRead = Refused(fault: Fault) | Replayed | Planned(plan: ResolutionPlan)

  function WinnerSide(payload: Payload): Option<Side> {
    var role := Get(payload, "winner_role");
    if role == StrOf("active") then Some(ActiveSide)
    else if role == StrOf("candidate") then Some(CandidateSide)
    else None
  }

  /** The plan a resolve command follows once its anchor is known. */
  function MakePlan(command: Command, related: Text, pair: Pair, winner: Side,
                    expectedEpoch: int, isRestart: bool, clock: Text): ResolutionPlan
  {
    var kids := ResolutionChildren(command.id, pair, winner, DecisionAt(command.payload, clock));
    var epoch := if isRestart then expectedEpoch else expectedEpoch + 1;
    var hash := ContractHash(command.payload);
    var intent := MakeIntent(ResolveConflict, command).(
                  hash := hash, pair := Some(pair), children := Some(Declarations(kids)), epoch := epoch,
                  space := pair.At(winner).space, session := pair.At(winner).session);
    ResolutionPlan(command.id, related, epoch, expectedEpoch, isRestart, pair, winner, kids, hash, intent)
  }

  /** `resolve_activation_conflict` under an active locator: only the completed
      resolution's own replay is accepted, and it writes nothing. */
  function ReadCompleted(store: Store, locator: Locator, command: Command): ResolveRead {
    if command.id !in store.ops then Refused(WrongAnchor) else
    var row := store.ops[command.id];
    if row.kind != ResolveConflict || row.phase != Completed
       || locator.operation != command.id then Refused(WrongAnchor)
    else if row.hash != ContractHash(command.payload) then Refused(IdempotencyConflict)
    else if row.related.None? || row.related.value !in store.ops then Refused(MissingRow)
    else Replayed
  }

  /** `resolve_activation_conflict` steps 1: the read-only block that binds the
      command to the persisted conflict. */
  function ReadResolution(store: Store, command: Command, clock: Text): ResolveRead {
    var winner := WinnerSide(command.payload);
    var wanted := if Truthy(Get(command.payload, "pair")) then ConflictPair(command.payload) else None;
    if !IsOperationId(command.id) || winner.None? || (Truthy(Get(command.payload, "pair")) && wanted.None?) then
      Refused(InvalidRequest)
    else if store.locator.None? then Refused(NoLocator) else
    var locator := store.locator.value;
    if locator.state == ActiveState then ReadCompleted(store, locator, command)
    else if locator.state != Claiming then Refused(WrongAnchor)
    else if locator.operation != command.id && "related_operation_id" in command.payload
            && locator.operation != PyStr(command.payload["related_operation_id"]) then Refused(WrongAnchor)
    else if locator.operation != command.id && command.epoch.Some? && command.epoch.value != locator.epoch then
      Refused(StaleEpoch)
    else if locator.operation !in store.ops then Refused(MissingRow) else
    var isRestart := locator.operation == command.id;
    var anchor := store.ops[locator.operation];
    if isRestart && (anchor.kind != ResolveConflict || anchor.related.None? || Empty(anchor.related.value)) then
      Refused(WrongAnchor)
    else if !isRestart && (anchor.kind != ActivateProvisional || Empty(locator.operation))
         then Refused(WrongAnchor) else
    var related := if isRestart then anchor.related.value else locator.operation;
    if related !in store.ops || store.ops[related].intent.pair.None? then Refused(MissingRow) else
    var pair := store.ops[related].intent.pair.value;
    if wanted.Some? && wanted.value != pair then Refused(WrongAnchor)
    else Planned(MakePlan(command, related, pair, winner.value, locator.epoch, isRestart, clock))
  }

  function NewResolution(plan: ResolutionPlan): Operation {
    Operation(ResolveConflict, plan.hash, plan.intent, Claimed, Some(plan.related), None)
  }

  /** Step 2: insert or verify the resolution row and CAS the locator onto the
      winner at the next epoch, in one transaction. */
  function ClaimTx(store: Store, plan: ResolutionPlan): (r: Result<Store, Fault>)
    ensures r.Ok? ==> MetaOnly(store, r.value) && RowsKept(store, r.value)
  {
    if plan.op in store.ops then
      var row := store.ops[plan.op];
      if row.kind != ResolveConflict || row.hash != plan.hash || row.related != Some(plan.related)
         || row.phase !in {Claimed, Prepared, Transferred, Completed} then Err(IdempotencyConflict)
      else Ok(store)
    else if plan.isRestart then Ok(store.(ops := store.ops[plan.op := NewResolution(plan)]))
    else if store.locator.None? then Err(IdempotencyConflict) else
    var locator := store.locator.value;
    var target := plan.pair.At(plan.winner);
    if locator.state == Claiming && locator.operation == plan.related && locator.epoch == plan.expectedEpoch
       && Place(locator.space, locator.session) == plan.pair.active then
      Ok(store.(
         ops := store.ops[plan.op := NewResolution(plan)],
         locator := Some(locator.(operation := plan.op, epoch := plan.epoch,
                                  space := target.space, session := target.session))))
    else if locator.operation == plan.op && locator.epoch == plan.epoch && locator.state == Claiming
            && Place(locator.space, locator.session) == target then Ok(store)   // rolled back
    else Err(IdempotencyConflict)
  }

  /** `ResolutionCoordinationProof`, rebuilt from the persisted rows alone. */
  datatype Proof = Proof(
    op: Text, related: Text, phase: Phase, locator: Locator, pair: Pair, winner: Side,
    winnerHash: Text, loserHash: Text)

  /** Step 3: `_read_resolution_proof`. */
  function ReadProof(store: Store, op: Text): Result<Proof, Fault> {
    if store.locator.None? then Err(NoLocator) else
    if op !in store.ops || store.ops[op].kind != ResolveConflict then Err(MissingRow) else
    var row, locator := store.ops[op], store.locator.value;
    var intent := row.intent;
    if row.related.None? || Empty(row.related.value) || intent.pair.None? || WinnerSide(intent.business).None?
       || intent.children.None? || Winner !in intent.children.value
          || Loser !in intent.children.value then Err(ProofInvalid) else
    var winner, loser := intent.children.value[Winner], intent.children.value[Loser];
    if intent.hash != row.hash || winner.id != ChildId(op, Winner) || loser.id != ChildId(op, Loser)
       || intent.space != locator.space || intent.session != locator.session then Err(ProofInvalid)
    else Ok(Proof(op, row.related.value, row.phase, locator, intent.pair.value,
                  WinnerSide(intent.business).value, winner.hash, loser.hash))
  }

  /** The Space policy's gate for a winner or loser mutation
      (`_verify_resolution_child`), evaluated when the mutation compiles. */
  predicate GateOpen(store: Store, proof: Proof, child: Child) {
    && proof.phase in {Claimed, Prepared}
    && proof.op != proof.related
    && child.id == ChildId(proof.op, child.role)
    && store.locator == Some(proof.locator)
    && proof.locator.operation == proof.op
    && proof.pair.At(proof.winner) == Place(proof.locator.space, proof.locator.session)
    && child.place == proof.pair.At(if child.role == Winner then proof.winner else Other(proof.winner))
    && child.hash == (if child.role == Winner then proof.winnerHash else proof.loserHash)
    && var key := Key(child.place.space, child.place.session);
    key in store.sessions && store.sessions[key].ownership == InConflict && !store.sessions[key].ended
  }

  /** What an applied child mutation does to its Session row. */
  function ChildEffect(role: Role, row: SessionRow): SessionRow {
    match role
    case Candidate => row.(ownership := InConflict)
    case Active => row.(ownership := InConflict)
    case Winner => row.(ownership := Authoritatively)
    case Loser => row.(ended := true, ownership := Authoritatively, validity := Invalid,
                       reason := Some("activation_conflict_loser"))
  }

  /** Step 4.5: CAS claimed -> transferred; a row already past it is accepted. */
  function TransferTx(store: Store, op: Text, related: Text): (r: Result<Store, Fault>)
    ensures r.Ok? ==> MetaOnly(store, r.value)
  {
    if op !in store.ops then Err(CasFailed) else
    var row := store.ops[op];
    if row.phase == Claimed && row.related == Some(related) then
      Ok(store.(ops := store.ops[op := row.(phase := Transferred)]))
    else if row.phase in {Transferred, Completed} then Ok(store)
    else Err(CasFailed)
  }

  /** Step 5: the three completion updates commit together or not at all. */
  function CompleteTx(store: Store, plan: ResolutionPlan): (r: Result<Store, Fault>)
    ensures r.Ok? ==> MetaOnly(store, r.value)
  {
    if store.locator.None? || plan.op !in store.ops || plan.related !in store.ops then Err(CasFailed) else
    var locator, row, conflict := store.locator.value, store.ops[plan.op], store.ops[plan.related];
    if locator.state == Claiming && locator.operation == plan.op && locator.epoch == plan.epoch
       && Place(locator.space, locator.session) == plan.pair.At(plan.winner)
       && row.phase == Transferred && row.related == Some(plan.related)
       && conflict.phase == AwaitingResolution then
      Ok(store.(
         locator := Some(locator.(state := ActiveState)),
         ops := store.ops[plan.op := row.(phase := Completed, result := Some(Authoritative))]
                         [plan.related := conflict.(phase := Completed, result := Some(ResolvedBy(plan.op)))]))
    else Err(CasFailed)
  }

  predicate IsTouch(kind: Kind) {
    kind !in {Start, End, ActivateProvisional, ResolveConflict}
  }

  /** The new owner a takeover names, if it names one properly. */
  function NewOwner(payload: Payload): Option<(Text, Text)> {
    var device, tab := Get(payload, "new_owner_device_id"), Get(payload, "new_owner_tab_id");
    if device.Str? && tab.Str? && !Empty(device.text) && !Empty(tab.text) then Some((device.text, tab.text)) else None
  }

  /** `_touch`, its Meta transaction: rotate the locator to the command; a
      takeover's first commit also moves ownership and bumps the epoch. */
  function TouchTx(store: Store, command: Command, kind: Kind): (r: Result<Store, Fault>)
    ensures r.Ok? ==> MetaOnly(store, r.value) && RowsKept(store, r.value)
  {
    if !IsOperationId(command.id) || !IsHash(command.hash) then Err(InvalidRequest)
    else if store.locator.None? then Err(NoLocator) else
    var locator := store.locator.value;
    var known := command.id in store.ops;
    var takes := kind == Takeover && !known;
    if takes && NewOwner(command.payload).None? then Err(InvalidRequest)
    else if command.epoch.Some? && !(kind == Takeover && known) && command.epoch.value != locator.epoch then
      Err(StaleEpoch)
    else if known then
      if store.ops[command.id].kind != kind || store.ops[command.id].hash != command.hash then Err(IdempotencyConflict)
      else Ok(store.(locator := Some(locator.(operation := command.id))))
    else
      var moved := locator.(operation := command.id);
      var owned := if takes then
                     var owner := NewOwner(command.payload).value;
                     moved.(device := owner.0, tab := owner.1, epoch := locator.epoch + 1)
                   else moved;
      Ok(store.(
         locator := Some(owned),
         ops := store.ops[command.id :=
                            Operation(kind, command.hash, MakeIntent(kind, command), Completed, None, None)]))
  }

  /** `end`, first transaction; `Ok(None)` is a replay that stops here. */
  function EndClaimTx(store: Store, command: Command): (r: Result<Option<Store>, Fault>)
    ensures r.Ok? && r.value.Some? ==> MetaOnly(store, r.value.value) && RowsKept(store, r.value.value)
  {
    if !IsOperationId(command.id) then Err(InvalidRequest) else
    match store.locator
    case None =>
      if command.id !in store.ops then Err(NoLocator)
      else if store.ops[command.id].kind != End
           || store.ops[command.id].hash != command.hash then Err(IdempotencyConflict)
      else if Empty(store.ops[command.id].intent.space)
           || Empty(store.ops[command.id].intent.session) then Err(NoLocator)
      else Ok(None)
    case Some(locator) =>
      if command.epoch.Some? && command.epoch.value != locator.epoch then Err(StaleEpoch)
      else if command.id in store.ops then
        if store.ops[command.id].kind == End && store.ops[command.id].hash == command.hash then Ok(None)
        else Err(IdempotencyConflict)
      else if !IsHash(command.hash) then Err(InvalidRequest)
      else
        var intent := MakeIntent(End, command).(space := locator.space);
        Ok(Some(store.(ops :=
                         store.ops[command.id := Operation(End, command.hash, intent, SpaceCommitted, None, None)])))
  }

  /** `end`, second transaction: rotate the locator away from the operation read before. */
  function EndRotateTx(store: Store, op: Text, previous: Text): (r: Result<Store, Fault>)
    ensures r.Ok? ==> MetaOnly(store, r.value) && RowsKept(store, r.value)
  {
    match store.locator
    case Some(locator) =>
      if locator.operation == previous then Ok(store.(locator := Some(locator.(operation := op))))
      else Err(CasFailed)
    case None => Err(CasFailed)
  }

  /** `end`, last transaction: the singleton row is deleted, whoever owns it. */
  function EndReleaseTx(store: Store): (r: Store)
    ensures MetaOnly(store, r)
  {
    store.(locator := None)
  }
}
