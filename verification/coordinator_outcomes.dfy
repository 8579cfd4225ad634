/** What each Meta transaction answers and leaves, column by column and without
    the functions that compute it: every refusal under exactly its cause, and
    every column of the rows an accepted command writes. */
module CoordinatorOutcomes {
  import opened Symbols
  import opened CoordinationRows
  import opened CoordinatorTransactions

  predicate NonemptyString(value: Json) {
    value.Str? && value.text != Plain("")
  }

  predicate Addressed(command: Command) {
    IsOperationId(command.id) && IsHash(command.hash)
  }

  /** The epoch column of a command that brings none, or zero, is one. */
  predicate DefaultsToOne(epoch: Option<int>, column: int) {
    if epoch == None || epoch == Some(0) then column == 1 else epoch == Some(column)
  }

  /** `str(payload.get(key, ""))`. */
  predicate ReadsAs(payload: Payload, key: string, text: Text) {
    if key !in payload then text == Plain("")
    else match payload[key]
         case Str(chars) => text == chars
         case other => text == Repr(other)
  }

  /** The columns of an intent that come from the command itself. */
  predicate IntentColumns(intent: Intent, kind: Kind, command: Command) {
    && intent.commandId == command.id && intent.session == command.session && intent.kind == kind
    && intent.space == (match command.space case Some(space) => space case None => Plain(""))
    && DefaultsToOne(command.epoch, intent.epoch) && intent.business == command.payload
  }

  /** One new operation row, and no other changed. */
  predicate RowAdded(before: map<Text, Operation>, after: map<Text, Operation>, id: Text) {
    after.Keys == before.Keys + {id} && forall o :: o in before && o != id ==> after[o] == before[o]
  }

  // ------------------------------------------------------------------- start

  predicate StartRefused(before: Store, command: Command, fault: Fault) {
    var asked := command.space != None && Addressed(command);
    match fault
    case InvalidRequest => !asked
    case AlreadyClaimed => asked && before.locator != None && before.locator.value.operation != command.id
    case IdempotencyConflict =>
      && asked && before.locator != None && before.locator.value.operation == command.id
      && !(command.id in before.ops && before.ops[command.id].hash == command.hash)
    case ConcurrentClaim =>
      asked && before.locator == None
      && (command.id in before.ops || (command.epoch != None && command.epoch.value < 0))
    case _ => false
  }

  /** The slot is claimed for the command's Session, or it is the claimant's own replay. */
  predicate StartAccepted(before: Store, command: Command, after: Store) {
    if before.locator != None then after == before else
    && after == before.(locator := after.locator, ops := after.ops)
    && after.locator != None && var row := after.locator.value;
    && row.operation == command.id && row.state == Claiming
    && command.space == Some(row.space) && row.session == command.session
    && ReadsAs(command.payload, "owner_device_id", row.device) && ReadsAs(command.payload, "owner_tab_id", row.tab)
    && DefaultsToOne(command.epoch, row.epoch)
    && RowAdded(before.ops, after.ops, command.id)
    && var operation := after.ops[command.id];
    && operation.kind == Start && operation.hash == command.hash && operation.phase == Claimed
    && operation.related == None && operation.result == None
    && IntentColumns(operation.intent, Start, command)
    && operation.intent.hash == command.hash && operation.intent.pair == None && operation.intent.children == None
  }

  lemma StartOutcome(before: Store, command: Command)
    ensures forall fault :: StartTx(before, command) == Err(fault) <==> StartRefused(before, command, fault)
    ensures StartTx(before, command).Ok? ==> StartAccepted(before, command, StartTx(before, command).value)
  {
    hide IsOperationId, IsHash;
  }

  // ------------------------------------------------------------------- touch

  lemma TouchKinds(kind: Kind)
    ensures IsTouch(kind) <==>
              kind in {Heartbeat, Pause, Resume, Takeover, UpdateNote, SetCurrentPlanItem, SetCompletionDraft,
                       AddPlanItem, RemovePlanItem}
  {
  }

  predicate FirstTakeover(before: Store, command: Command, kind: Kind) {
    kind == Takeover && command.id !in before.ops
  }

  predicate NamesOwner(command: Command) {
    && "new_owner_device_id" in command.payload && NonemptyString(command.payload["new_owner_device_id"])
    && "new_owner_tab_id" in command.payload && NonemptyString(command.payload["new_owner_tab_id"])
  }

  /** A command that carries an epoch carries the locator's, unless it replays a takeover. */
  predicate EpochFits(before: Store, command: Command, kind: Kind)
    requires before.locator != None
  {
    || command.epoch == None || command.epoch == Some(before.locator.value.epoch)
    || (kind == Takeover && command.id in before.ops)
  }

  predicate TouchRefused(before: Store, command: Command, kind: Kind, fault: Fault) {
    var found := Addressed(command) && before.locator != None;
    var owned := found && (FirstTakeover(before, command, kind) ==> NamesOwner(command));
    match fault
    case InvalidRequest => !Addressed(command) || (found && !owned)
    case NoLocator => Addressed(command) && before.locator == None
    case StaleEpoch => owned && !EpochFits(before, command, kind)
    case IdempotencyConflict =>
      && owned && EpochFits(before, command, kind) && command.id in before.ops
      && !(before.ops[command.id].kind == kind && before.ops[command.id].hash == command.hash)
    case _ => false
  }

  /** The locator points at the command; the first commit of a takeover also
      moves it to the named device and tab, one epoch later. */
  predicate TouchAccepted(before: Store, command: Command, kind: Kind, after: Store) {
    && after == before.(locator := after.locator, ops := after.ops)
    && before.locator != None && after.locator != None
    && var was, now := before.locator.value, after.locator.value;
    && now.operation == command.id && now.space == was.space && now.session == was.session && now.state == was.state
    && (if FirstTakeover(before, command, kind)
        then "new_owner_device_id" in command.payload && command.payload["new_owner_device_id"] == Str(now.device)
             && "new_owner_tab_id" in command.payload && command.payload["new_owner_tab_id"] == Str(now.tab)
             && now.device != Plain("") && now.tab != Plain("") && now.epoch == was.epoch + 1
        else now.device == was.device && now.tab == was.tab && now.epoch == was.epoch)
    && (command.epoch == None || command.epoch == Some(was.epoch) || (kind == Takeover && command.id in before.ops))
    && (if command.id in before.ops then after.ops == before.ops else
        && RowAdded(before.ops, after.ops, command.id)
        && var operation := after.ops[command.id];
        && operation.kind == kind && operation.hash == command.hash && operation.phase == Completed
        && operation.related == None && operation.result == None
        && IntentColumns(operation.intent, kind, command)
        && operation.intent.hash == command.hash && operation.intent.pair == None && operation.intent.children == None)
  }

  lemma OwnerNamed(payload: Payload)
    ensures var device, tab := Get(payload, "new_owner_device_id"), Get(payload, "new_owner_tab_id");
            NewOwner(payload) == if NonemptyString(device) && NonemptyString(tab) then Some((device.text, tab.text))
            else None
  {
  }

  lemma TouchRefusals(before: Store, command: Command, kind: Kind)
    ensures forall fault :: TouchTx(before, command, kind) == Err(fault) <==> TouchRefused(before, command, kind, fault)
  {
    OwnerNamed(command.payload);
    hide IsOperationId, IsHash, NewOwner, MakeIntent, RowsKept, MetaOnly;
  }

  lemma TouchAccepts(before: Store, command: Command, kind: Kind)
    requires TouchTx(before, command, kind).Ok?
    ensures TouchAccepted(before, command, kind, TouchTx(before, command, kind).value)
  {
    hide IsOperationId, IsHash, NewOwner, MakeIntent, IntentColumns, MetaOnly, RowsKept;
    OwnerFound(command.payload);
    TouchIntent(command, kind);
  }

  lemma TouchOutcome(before: Store, command: Command, kind: Kind)
    ensures forall fault :: TouchTx(before, command, kind) == Err(fault) <==> TouchRefused(before, command, kind, fault)
    ensures TouchTx(before, command, kind).Ok? ==>
              TouchAccepted(before, command, kind, TouchTx(before, command, kind).value)
  {
    hide *;
    TouchRefusals(before, command, kind);
    if TouchTx(before, command, kind).Ok? { TouchAccepts(before, command, kind); }
  }

  lemma OwnerFound(payload: Payload)
    ensures NewOwner(payload).Some? ==>
              var (device, tab) := NewOwner(payload).value;
              && "new_owner_device_id" in payload && payload["new_owner_device_id"] == Str(device)
              && device != Plain("")
              && "new_owner_tab_id" in payload && payload["new_owner_tab_id"] == Str(tab) && tab != Plain("")
  {
  }

  lemma TouchIntent(command: Command, kind: Kind)
    ensures var intent := MakeIntent(kind, command);
            IntentColumns(intent, kind, command) && intent.hash == command.hash && intent.pair == None
            && intent.children == None
  {
  }

  // --------------------------------------------------------------------- end

  predicate EndRefused(before: Store, command: Command, fault: Fault) {
    var same := command.id in before.ops && before.ops[command.id].kind == End
        && before.ops[command.id].hash == command.hash;
    var current := before.locator != None
        && (command.epoch == None || command.epoch == Some(before.locator.value.epoch));
    match fault
    case InvalidRequest =>
      !IsOperationId(command.id) || (current && command.id !in before.ops && !IsHash(command.hash))
    case NoLocator =>
      && IsOperationId(command.id) && before.locator == None
      && (command.id in before.ops ==>
            same && (before.ops[command.id].intent.space == Plain("")
                     || before.ops[command.id].intent.session == Plain("")))
    case StaleEpoch => IsOperationId(command.id) && before.locator != None && !current
    case IdempotencyConflict =>
      && IsOperationId(command.id) && (before.locator != None ==> current) && command.id in before.ops && !same
    case _ => false
  }

  /** A replay changes nothing; otherwise the row is recorded as committed in the Space. */
  predicate EndAccepted(before: Store, command: Command, after: Option<Store>) {
    if command.id in before.ops then after == None else
    && before.locator != None && after != None
    && after.value == before.(ops := after.value.ops)
    && RowAdded(before.ops, after.value.ops, command.id)
    && var row := after.value.ops[command.id];
    && row.kind == End && row.hash == command.hash && row.phase == SpaceCommitted && row.related == None
    && row.result == None
    && IntentColumns(row.intent.(space := (match command.space case Some(space) => space case None => Plain(""))), End,
                     command)
    && row.intent.space == before.locator.value.space
    && row.intent.hash == command.hash && row.intent.pair == None && row.intent.children == None
  }

  lemma EndOutcome(before: Store, command: Command)
    ensures forall fault :: EndClaimTx(before, command) == Err(fault) <==> EndRefused(before, command, fault)
    ensures EndClaimTx(before, command).Ok? ==> EndAccepted(before, command, EndClaimTx(before, command).value)
  {
    hide IsOperationId, IsHash;
  }

  /** `end` rotates the locator only away from the operation it read, and then deletes it. */
  lemma EndReleases(before: Store, op: Text, previous: Text)
    ensures EndRotateTx(before, op, previous).Ok? <==>
              before.locator != None && before.locator.value.operation == previous
    ensures EndRotateTx(before, op, previous).Err? ==> EndRotateTx(before, op, previous) == Err(CasFailed)
    ensures EndRotateTx(before, op, previous).Ok? ==>
              EndRotateTx(before, op, previous).value ==
                before.(locator := Some(before.locator.value.(operation := op)))
    ensures EndReleaseTx(before) == before.(locator := None)
  {
  }

  // ---------------------------------------------------- pairs and child hashes

  /** The payload names these two Sessions, both properly and not the same one twice. */
  predicate NamesPair(payload: Payload, pair: Pair) {
    && "pair" in payload && payload["pair"].Obj?
    && NamesPlace(payload["pair"].fields, "active", pair.active)
    && NamesPlace(payload["pair"].fields, "candidate", pair.candidate)
    && pair.active != pair.candidate
  }

  predicate NamesPlace(pair: Payload, side: string, place: Place) {
    && side in pair && pair[side].Obj?
    && ReadsOr(pair[side].fields, "space_id", place.space) && place.space != Plain("")
    && ReadsOr(pair[side].fields, "session_id", place.session) && place.session != Plain("")
  }

  /** `str(fields.get(key))`. */
  predicate ReadsOr(fields: Payload, key: string, text: Text) {
    if key !in fields then text == Repr(Null)
    else match fields[key]
         case Str(chars) => text == chars
         case other => text == Repr(other)
  }

  lemma PairNamed(payload: Payload)
    ensures forall pair :: ConflictPair(payload) == Some(pair) <==> NamesPair(payload, pair)
  {
  }

  /** The business hash leaves out the two declarations and nothing else. */
  lemma BusinessHash(payload: Payload)
    ensures ContractHash(payload) == Digest(payload - {"pair", "children"})
  {
    assert Without(payload, {"pair", "children"}) == payload - {"pair", "children"};
  }

  /** A conflict child is hashed over its Session and the decision to preserve
      it; the epoch it expects is a guard and plays no part. */
  lemma ConflictChildIs(command: Command, pair: Pair)
    ensures ConflictChildren(command, pair) == [
              Child(Candidate, pair.candidate, ChildId(command.id, Candidate), ConflictHash(pair.candidate)),
              Child(Active, pair.active, ChildId(command.id, Active), ConflictHash(pair.active))]
  {
    GuardsDropped(ConflictChildPayload(command, pair.candidate), ConflictFields(pair.candidate));
    GuardsDropped(ConflictChildPayload(command, pair.active), ConflictFields(pair.active));
  }

  function ConflictFields(place: Place): Payload {
    map["space_id" := Str(place.space), "session_id" := Str(place.session), "decision" := Str(Plain("preserve"))]
  }

  function ConflictHash(place: Place): Text {
    Digest(ConflictFields(place))
  }

  lemma GuardsDropped(payload: Payload, fields: Payload)
    requires fields.Keys !! GUARD_FIELDS && fields.Keys <= payload.Keys <= fields.Keys + GUARD_FIELDS
    requires forall key :: key in fields ==> payload[key] == fields[key]
    ensures ChildHash(payload) == Digest(fields)
  {
    hide GUARD_FIELDS;
    assert Without(payload, GUARD_FIELDS) == fields;
  }

  /** A child's hash leaves out eleven guard fields and nothing else. */
  lemma ChildHashIs(payload: Payload)
    ensures ChildHash(payload) == Digest(payload - {
              "operation", "expected_version", "expected_work_item_versions", "expected_work_item_version",
              "expected_plan_version", "expected_plan_versions", "expected_source_work_item_version",
              "ownership_epoch", "expected_ownership_epoch", "cached_ownership_epoch", "resolution_proof"})
  {
    assert Without(payload, GUARD_FIELDS) == payload - GUARD_FIELDS;
  }

  function WinnerHash(place: Place, decisionAt: Text): Text {
    Digest(map[
      "space_id" := Str(place.space), "session_id" := Str(place.session), "decision_at" := Str(decisionAt),
      "validity_correction" := Obj(map[
        "loser_validity" := Str(Plain("invalid")),
        "loser_validity_reason" := Str(Plain("activation_conflict_loser"))])])
  }

  function LoserHash(place: Place, decisionAt: Text): Text {
    Digest(map[
      "space_id" := Str(place.space), "session_id" := Str(place.session), "occurred_at" := Str(decisionAt),
      "timer_completion" := Str(Plain("interrupted")), "validity" := Str(Plain("invalid")),
      "validity_reason" := Str(Plain("activation_conflict_loser"))])
  }

  /** The winner is told the decision time and how the loser is marked, the
      loser when it was interrupted and why it is invalid. */
  lemma ResolutionChildIs(op: Text, pair: Pair, winner: Side, decisionAt: Text)
    ensures var won, lost := if winner == ActiveSide then pair.active else pair.candidate,
                             if winner == ActiveSide then pair.candidate else pair.active;
            ResolutionChildren(op, pair, winner, decisionAt) == [
              Child(Winner, won, ChildId(op, Winner), WinnerHash(won, decisionAt)),
              Child(Loser, lost, ChildId(op, Loser), LoserHash(lost, decisionAt))]
  {
    hide WinnerPayload, LoserPayload, WinnerHash, LoserHash, ChildHash;
    var won, lost := if winner == ActiveSide then pair.active else pair.candidate,
                     if winner == ActiveSide then pair.candidate else pair.active;
    WinnerHashed(won, decisionAt);
    LoserHashed(lost, decisionAt);
  }

  lemma WinnerHashed(place: Place, decisionAt: Text)
    ensures ChildHash(WinnerPayload(place, decisionAt)) == WinnerHash(place, decisionAt)
  {
    GuardsDropped(WinnerPayload(place, decisionAt), WinnerHash(place, decisionAt).of);
  }

  lemma LoserHashed(place: Place, decisionAt: Text)
    ensures ChildHash(LoserPayload(place, decisionAt)) == LoserHash(place, decisionAt)
  {
    hide GUARD_FIELDS;
    LoserFields(place, decisionAt);
    PlaceIsNoGuard();
    LoserIsNoGuard();
    GuardsDropped(LoserPayload(place, decisionAt), LoserHash(place, decisionAt).of);
  }

  lemma LoserFields(place: Place, decisionAt: Text)
    ensures LoserPayload(place, decisionAt) == LoserHash(place, decisionAt).of
  {
    hide GUARD_FIELDS;
  }

  lemma PlaceIsNoGuard()
    ensures "space_id" !in GUARD_FIELDS && "session_id" !in GUARD_FIELDS
  {
  }

  lemma LoserIsNoGuard()
    ensures "occurred_at" !in GUARD_FIELDS && "timer_completion" !in GUARD_FIELDS
    ensures "validity" !in GUARD_FIELDS && "validity_reason" !in GUARD_FIELDS
  {
  }

  // ---------------------------------------------------------------- activate

  ghost predicate ActivateRefused(before: Store, command: Command, fault: Fault) {
    var asked := IsOperationId(command.id) && exists pair :: NamesPair(command.payload, pair);
    var free := before.locator == None
                || (before.locator.value.state == Claiming && before.locator.value.operation == command.id);
    match fault
    case InvalidRequest => !asked
    case WrongAnchor => asked && !free
    case ConcurrentClaim =>
      && asked && free
      && (command.id in before.ops
          || (if before.locator == None then command.epoch != None && command.epoch.value < 0
              else before.locator.value.epoch <= 0))
    case _ => false
  }

  /** The conflict row is durable, both children declared under their hashes,
      and the locator stands at the running Session. */
  predicate ActivateAccepted(before: Store, command: Command, after: Store) {
    && after == before.(locator := after.locator, ops := after.ops) && after.locator != None
    && var locator := after.locator.value;
    && locator.operation == command.id && locator.state == Claiming
    && RowAdded(before.ops, after.ops, command.id)
    && var row := after.ops[command.id];
    && row.kind == ActivateProvisional && row.phase == Claimed && row.related == None && row.result == None
    && row.hash == Digest(command.payload - {"pair", "children"}) && row.intent.hash == row.hash
    && IntentColumns(row.intent, ActivateProvisional, command)
    && row.intent.pair != None && NamesPair(command.payload, row.intent.pair.value)
    && var pair := row.intent.pair.value;
    && row.intent.children == Some(map[
         Candidate := Declared(ChildId(command.id, Candidate), ConflictHash(pair.candidate)),
         Active := Declared(ChildId(command.id, Active), ConflictHash(pair.active))])
    && (if before.locator != None then after.locator == before.locator else
        && Place(locator.space, locator.session) == pair.active && DefaultsToOne(command.epoch, locator.epoch)
        && ReadsAs(command.payload, "owner_device_id", locator.device)
        && ReadsAs(command.payload, "owner_tab_id", locator.tab))
  }

  lemma PairFound(payload: Payload)
    ensures ConflictPair(payload).Some? <==> exists pair :: NamesPair(payload, pair)
    ensures ConflictPair(payload).Some? ==> NamesPair(payload, ConflictPair(payload).value)
  {
    PairNamed(payload);
    hide ConflictPair, NamesPair;
    if ConflictPair(payload).Some? { assert NamesPair(payload, ConflictPair(payload).value); }
  }

  lemma ConflictRowIs(command: Command, pair: Pair)
    ensures var row := NewConflict(command, pair);
            && row.result == None && row.hash == Digest(command.payload - {"pair", "children"})
            && row.intent.hash == row.hash
            && IntentColumns(row.intent, ActivateProvisional, command)
            && row.intent.children == Some(map[
                 Candidate := Declared(ChildId(command.id, Candidate), ConflictHash(pair.candidate)),
                 Active := Declared(ChildId(command.id, Active), ConflictHash(pair.active))])
  {
    hide ContractHash, ConflictChildren, ConflictHash;
    BusinessHash(command.payload);
    ConflictChildIs(command, pair);
  }

  /** The children an accepted activation runs: the candidate, then the running Session. */
  ghost predicate AreConflictKids(command: Command, kids: seq<Child>) {
    exists pair :: NamesPair(command.payload, pair) && kids == [
      Child(Candidate, pair.candidate, ChildId(command.id, Candidate), ConflictHash(pair.candidate)),
      Child(Active, pair.active, ChildId(command.id, Active), ConflictHash(pair.active))]
  }

  lemma ConflictKidsAre(command: Command)
    ensures ConflictPair(command.payload).Some? ==>
              AreConflictKids(command, ConflictChildren(command, ConflictPair(command.payload).value))
  {
    hide ConflictPair, NamesPair, ConflictHash, ConflictChildren;
    PairFound(command.payload);
    if ConflictPair(command.payload).Some? {
      ConflictChildIs(command, ConflictPair(command.payload).value);
    }
  }

  lemma ActivateRefusals(before: Store, command: Command)
    ensures forall fault :: ActivateTx(before, command) == Err(fault) <==> ActivateRefused(before, command, fault)
  {
    PairFound(command.payload);
    hide ConflictPair, NamesPair, IsOperationId, NewConflict, RowsKept, MetaOnly;
  }

  lemma ActivateAccepts(before: Store, command: Command)
    requires ActivateTx(before, command).Ok?
    ensures ActivateAccepted(before, command, ActivateTx(before, command).value)
  {
    hide ConflictPair, NamesPair, IsOperationId, NewConflict, ConflictHash, IntentColumns, RowsKept, MetaOnly;
    PairFound(command.payload);
    ConflictRowIs(command, ConflictPair(command.payload).value);
  }

  lemma ActivateOutcome(before: Store, command: Command)
    ensures forall fault :: ActivateTx(before, command) == Err(fault) <==> ActivateRefused(before, command, fault)
    ensures ActivateTx(before, command).Ok? ==> ActivateAccepted(before, command, ActivateTx(before, command).value)
  {
    hide *;
    ActivateRefusals(before, command);
    if ActivateTx(before, command).Ok? { ActivateAccepts(before, command); }
  }

  // -------------------------------------------------------- resolve, its reading

  /** The command is one the coordinator looks up at all. */
  ghost predicate ResolveAsked(command: Command) {
    && IsOperationId(command.id)
    && "winner_role" in command.payload
    && (command.payload["winner_role"] == Str(Plain("active"))
        || command.payload["winner_role"] == Str(Plain("candidate")))
    && (NamesSomePair(command.payload) ==> exists pair :: NamesPair(command.payload, pair))
  }

  /** A truthy `pair` field; an empty object, text or list counts as none. */
  predicate NamesSomePair(payload: Payload) {
    "pair" in payload && payload["pair"] !in
      {Null, Bool(false), Int(0), Str(Plain("")), Arr([]), Obj(map[])}
  }

  /** The locator is active on the command's own completed resolution. */
  predicate AnswersReplay(before: Store, command: Command) {
    && before.locator != None && before.locator.value.state == ActiveState
    && before.locator.value.operation == command.id
    && command.id in before.ops && before.ops[command.id].kind == ResolveConflict
    && before.ops[command.id].phase == Completed
  }

  /** The claiming locator is at this command, or at the conflict and epoch it names. */
  predicate Binds(locator: Locator, command: Command) {
    && locator.state == Claiming
    && (locator.operation == command.id
        || "related_operation_id" !in command.payload
        || ReadsOr(command.payload, "related_operation_id", locator.operation))
  }

  predicate EpochBinds(locator: Locator, command: Command) {
    locator.operation == command.id || command.epoch == None || command.epoch == Some(locator.epoch)
  }

  /** The conflict a claiming locator leads to. */
  predicate LeadsTo(before: Store, command: Command, related: Text)
    requires before.locator != None
  {
    var at := before.locator.value.operation;
    && at in before.ops && related != Plain("")
    && (if at == command.id then before.ops[at].kind == ResolveConflict && before.ops[at].related == Some(related)
        else before.ops[at].kind == ActivateProvisional && related == at)
  }

  ghost predicate ReadRefused(before: Store, command: Command, fault: Fault) {
    var asked := ResolveAsked(command) && before.locator != None;
    var claiming := asked && before.locator.value.state != ActiveState;
    var replay := asked && AnswersReplay(before, command);
    var same := replay && before.ops[command.id].hash == Digest(command.payload - {"pair", "children"});
    var bound := claiming && Binds(before.locator.value, command) && EpochBinds(before.locator.value, command);
    var at := if before.locator != None then before.locator.value.operation else command.id;
    match fault
    case InvalidRequest => !ResolveAsked(command)
    case NoLocator => ResolveAsked(command) && before.locator == None
    case IdempotencyConflict => replay && !same
    case StaleEpoch => claiming && Binds(before.locator.value, command) && !EpochBinds(before.locator.value, command)
    case MissingRow =>
      || (same && !(before.ops[command.id].related != None && before.ops[command.id].related.value in before.ops))
      || (bound && at !in before.ops)
      || (bound && exists related :: LeadsTo(before, command, related)
                                     && !(related in before.ops && before.ops[related].intent.pair != None))
    case WrongAnchor =>
      || (asked && before.locator.value.state == ActiveState && !replay)
      || (claiming && !Binds(before.locator.value, command))
      || (bound && at in before.ops && forall related :: !LeadsTo(before, command, related))
      || (bound && exists related :: LeadsTo(before, command, related)
                                     && related in before.ops && before.ops[related].intent.pair != None
                                     && NamesSomePair(command.payload)
                                     && !NamesPair(command.payload, before.ops[related].intent.pair.value))
    case _ => false
  }

  /** The retry of the command that completed the resolution, and nothing else. */
  ghost predicate ReadReplayed(before: Store, command: Command) {
    && ResolveAsked(command) && AnswersReplay(before, command)
    && before.ops[command.id].hash == Digest(command.payload - {"pair", "children"})
    && before.ops[command.id].related != None && before.ops[command.id].related.value in before.ops
  }

  /** The time a decision is frozen at: the payload's, if it names one, or the clock. */
  predicate DecidedAt(payload: Payload, clock: Text, at: Text) {
    if "decision_at" in payload && payload["decision_at"] !in
         {Null, Bool(false), Int(0), Str(Plain("")), Arr([]), Obj(map[])}
    then ReadsOr(payload, "decision_at", at) else at == clock
  }

  /** The plan of a bound command: its conflict, pair and winner, the next epoch
      unless it is a restart, and the two children with their hashes. */
  predicate ReadPlanned(before: Store, command: Command, clock: Text, plan: ResolutionPlan) {
    && ResolveWinner(command, plan.winner) && before.locator != None
    && var locator := before.locator.value;
    && Binds(locator, command) && EpochBinds(locator, command) && LeadsTo(before, command, plan.related)
    && plan.related in before.ops && before.ops[plan.related].intent.pair == Some(plan.pair)
    && (NamesSomePair(command.payload) ==> NamesPair(command.payload, plan.pair))
    && plan.op == command.id && plan.isRestart == (locator.operation == command.id)
    && plan.expectedEpoch == locator.epoch
    && plan.epoch == (if plan.isRestart then locator.epoch else locator.epoch + 1)
    && plan.hash == Digest(command.payload - {"pair", "children"})
    && var won := if plan.winner == ActiveSide then plan.pair.active else plan.pair.candidate;
    && var lost := if plan.winner == ActiveSide then plan.pair.candidate else plan.pair.active;
    && |plan.kids| == 2 && plan.kids[0].hash.Digest? && "decision_at" in plan.kids[0].hash.of
    && plan.kids[0].hash.of["decision_at"].Str?
    && var at := plan.kids[0].hash.of["decision_at"].text;
    && DecidedAt(command.payload, clock, at)
    && plan.kids == [Child(Winner, won, ChildId(command.id, Winner), WinnerHash(won, at)),
                     Child(Loser, lost, ChildId(command.id, Loser), LoserHash(lost, at))]
    && plan.intent == Intent(
         command.id, won.space, won.session, plan.epoch, plan.hash, ResolveConflict, command.payload, Some(plan.pair),
         Some(map[Winner := Declared(ChildId(command.id, Winner), WinnerHash(won, at)),
                  Loser := Declared(ChildId(command.id, Loser), LoserHash(lost, at))]))
  }

  predicate ResolveWinner(command: Command, winner: Side) {
    && IsOperationId(command.id) && "winner_role" in command.payload
    && command.payload["winner_role"] == Str(Plain(if winner == ActiveSide then "active" else "candidate"))
  }

  lemma WinnerNamed(payload: Payload)
    ensures forall side :: WinnerSide(payload) == Some(side) <==>
              "winner_role" in payload
              && payload["winner_role"] == Str(Plain(if side == ActiveSide then "active" else "candidate"))
  {
    assert Plain("active") != Plain("candidate") by { assert "active"[1] != "candidate"[1]; }
  }

  lemma PairIsNamed(payload: Payload)
    ensures Truthy(Get(payload, "pair")) <==> NamesSomePair(payload)
  {
  }

  lemma Asked(command: Command)
    ensures ResolveAsked(command) <==>
              && IsOperationId(command.id) && WinnerSide(command.payload).Some?
              && (Truthy(Get(command.payload, "pair")) ==> ConflictPair(command.payload).Some?)
  {
    WinnerNamed(command.payload);
    PairIsNamed(command.payload);
    PairFound(command.payload);
    hide IsOperationId, ConflictPair, NamesPair, Truthy, NamesSomePair;
    if WinnerSide(command.payload).Some? {
      assert WinnerSide(command.payload) == Some(WinnerSide(command.payload).value);
    }
    assert ActiveSide != CandidateSide;
  }

  lemma RelatedText(payload: Payload, text: Text)
    ensures "related_operation_id" in payload ==>
              (PyStr(payload["related_operation_id"]) == text <==> ReadsOr(payload, "related_operation_id", text))
  {
  }

  lemma PairAgrees(payload: Payload, pair: Pair)
    ensures ConflictPair(payload).Some? ==> (ConflictPair(payload).value == pair <==> NamesPair(payload, pair))
  {
    PairNamed(payload);
  }

  /** Before the rows behind a claiming locator are read. */
  lemma ReadEarly(before: Store, command: Command, clock: Text)
    requires !(ResolveAsked(command) && before.locator != None && before.locator.value.state == Claiming
               && Binds(before.locator.value, command) && EpochBinds(before.locator.value, command))
    ensures forall fault ::
              ReadResolution(before, command, clock) == Refused(fault) <==> ReadRefused(before, command, fault)
    ensures ReadResolution(before, command, clock).Replayed? <==> ReadReplayed(before, command)
    ensures !ReadResolution(before, command, clock).Planned?
  {
    hide IsOperationId, ConflictPair, NamesPair, Truthy, NamesSomePair, WinnerSide, ContractHash, MakePlan,
         ResolveAsked, PyStr, ReadsOr, LeadsTo;
    Asked(command);
    BusinessHash(command.payload);
    if before.locator.Some? { RelatedText(command.payload, before.locator.value.operation); }
  }

  /** The conflict a bound command is led to, if it is led to any. */
  function Led(before: Store, command: Command): Option<Text>
    requires before.locator != None
  {
    var at := before.locator.value.operation;
    if at !in before.ops then None
    else if at == command.id then
      if before.ops[at].kind == ResolveConflict && before.ops[at].related != Some(Plain(""))
      then before.ops[at].related else None
    else if before.ops[at].kind == ActivateProvisional && at != Plain("") then Some(at) else None
  }

  lemma LedIs(before: Store, command: Command)
    requires before.locator != None
    ensures forall related :: LeadsTo(before, command, related) <==> Led(before, command) == Some(related)
  {
  }

  lemma ReadUnled(before: Store, command: Command, clock: Text)
    requires ResolveAsked(command) && before.locator != None && before.locator.value.state == Claiming
    requires Binds(before.locator.value, command) && EpochBinds(before.locator.value, command)
    requires Led(before, command) == None
    ensures forall fault ::
              ReadResolution(before, command, clock) == Refused(fault) <==> ReadRefused(before, command, fault)
    ensures !ReadResolution(before, command, clock).Replayed?
  {
    hide IsOperationId, ConflictPair, NamesPair, Truthy, NamesSomePair, WinnerSide, ContractHash, MakePlan,
         ResolveAsked, PyStr, ReadsOr, LeadsTo;
    Asked(command);
    RelatedText(command.payload, before.locator.value.operation);
    LedIs(before, command);
  }

  lemma ReadLed(before: Store, command: Command, clock: Text)
    requires ResolveAsked(command) && before.locator != None && before.locator.value.state == Claiming
    requires Binds(before.locator.value, command) && EpochBinds(before.locator.value, command)
    requires Led(before, command) != None
    ensures forall fault ::
              ReadResolution(before, command, clock) == Refused(fault) <==> ReadRefused(before, command, fault)
    ensures !ReadResolution(before, command, clock).Replayed?
  {
    hide IsOperationId, ConflictPair, NamesPair, Truthy, NamesSomePair, WinnerSide, ContractHash, MakePlan,
         ResolveAsked, PyStr, ReadsOr, LeadsTo;
    Asked(command);
    PairIsNamed(command.payload);
    RelatedText(command.payload, before.locator.value.operation);
    LedIs(before, command);
    var related := Led(before, command).value;
    assert LeadsTo(before, command, related);
    if related in before.ops && before.ops[related].intent.pair.Some? {
      PairAgrees(command.payload, before.ops[related].intent.pair.value);
    }
  }

  lemma ReadBound(before: Store, command: Command, clock: Text)
    requires ResolveAsked(command) && before.locator != None && before.locator.value.state == Claiming
    requires Binds(before.locator.value, command) && EpochBinds(before.locator.value, command)
    ensures forall fault ::
              ReadResolution(before, command, clock) == Refused(fault) <==> ReadRefused(before, command, fault)
    ensures !ReadResolution(before, command, clock).Replayed? && !ReadReplayed(before, command)
  {
    hide ReadResolution, ReadRefused, ResolveAsked, Led, Binds, EpochBinds;
    if Led(before, command) == None { ReadUnled(before, command, clock); } else { ReadLed(before, command, clock); }
  }

  lemma ReadRefusals(before: Store, command: Command, clock: Text)
    ensures forall fault ::
              ReadResolution(before, command, clock) == Refused(fault) <==> ReadRefused(before, command, fault)
    ensures ReadResolution(before, command, clock).Replayed? <==> ReadReplayed(before, command)
  {
    hide *;
    if ResolveAsked(command) && before.locator != None && before.locator.value.state == Claiming
       && Binds(before.locator.value, command) && EpochBinds(before.locator.value, command) {
      ReadBound(before, command, clock);
    } else {
      ReadEarly(before, command, clock);
    }
  }

  lemma DecidedIs(payload: Payload, clock: Text)
    ensures DecidedAt(payload, clock, DecisionAt(payload, clock))
  {
  }

  /** What the made plan holds, given where it is made. */
  lemma PlanColumns(command: Command, related: Text, pair: Pair, winner: Side, expected: int, isRestart: bool,
                    clock: Text)
    ensures var plan := MakePlan(command, related, pair, winner, expected, isRestart, clock);
            var at := DecisionAt(command.payload, clock);
            var won, lost := if winner == ActiveSide then pair.active else pair.candidate,
                             if winner == ActiveSide then pair.candidate else pair.active;
            && plan.op == command.id && plan.related == related && plan.pair == pair && plan.winner == winner
            && plan.expectedEpoch == expected && plan.isRestart == isRestart
            && plan.epoch == (if isRestart then expected else expected + 1)
            && plan.hash == Digest(command.payload - {"pair", "children"})
            && plan.kids == [Child(Winner, won, ChildId(command.id, Winner), WinnerHash(won, at)),
                             Child(Loser, lost, ChildId(command.id, Loser), LoserHash(lost, at))]
            && plan.intent == Intent(
                 command.id, won.space, won.session, plan.epoch, plan.hash, ResolveConflict, command.payload,
                 Some(pair),
                 Some(map[Winner := Declared(ChildId(command.id, Winner), WinnerHash(won, at)),
                          Loser := Declared(ChildId(command.id, Loser), LoserHash(lost, at))]))
  {
    hide ContractHash, ResolutionChildren, DecisionAt, WinnerHash, LoserHash;
    BusinessHash(command.payload);
    ResolutionChildIs(command.id, pair, winner, DecisionAt(command.payload, clock));
  }

  /** Where the plan of a bound command is made. */
  lemma PlannedAt(before: Store, command: Command, clock: Text)
    requires ReadResolution(before, command, clock).Planned?
    ensures before.locator != None && WinnerSide(command.payload).Some? && Led(before, command).Some?
    ensures var locator, related := before.locator.value, Led(before, command).value;
            && IsOperationId(command.id) && locator.state == Claiming
            && ("related_operation_id" in command.payload && locator.operation != command.id ==>
                  PyStr(command.payload["related_operation_id"]) == locator.operation)
            && EpochBinds(locator, command)
            && related in before.ops && before.ops[related].intent.pair.Some?
            && (Truthy(Get(command.payload, "pair")) ==>
                  ConflictPair(command.payload) == before.ops[related].intent.pair)
            && ReadResolution(before, command, clock).plan ==
                 MakePlan(command, related, before.ops[related].intent.pair.value, WinnerSide(command.payload).value,
                          locator.epoch, locator.operation == command.id, clock)
  {
    hide IsOperationId, ConflictPair, Truthy, WinnerSide, MakePlan, PyStr;
  }

  lemma ReadPlans(before: Store, command: Command, clock: Text)
    requires ReadResolution(before, command, clock).Planned?
    ensures ReadPlanned(before, command, clock, ReadResolution(before, command, clock).plan)
  {
    hide ReadResolution, IsOperationId, ConflictPair, NamesPair, Truthy, NamesSomePair, WinnerSide, MakePlan, PyStr,
         ReadsOr, DecisionAt, DecidedAt, WinnerHash, LoserHash, LeadsTo, Led;
    PlannedAt(before, command, clock);
    LedIs(before, command);
    var related := Led(before, command).value;
    var pair, winner := before.ops[related].intent.pair.value, WinnerSide(command.payload).value;
    PlanColumns(command, related, pair, winner, before.locator.value.epoch,
                before.locator.value.operation == command.id, clock);
    DecidedIs(command.payload, clock);
    WinnerNamed(command.payload);
    PairIsNamed(command.payload);
    PairAgrees(command.payload, pair);
    RelatedText(command.payload, before.locator.value.operation);
    WinnerTold(pair.At(winner), DecisionAt(command.payload, clock));
  }

  lemma WinnerTold(place: Place, at: Text)
    ensures var hash := WinnerHash(place, at);
            hash.Digest? && "decision_at" in hash.of && hash.of["decision_at"] == Str(at)
  {
  }

  /** The read-only block of a resolve command: each refusal under exactly its
      cause, the replay of a completed resolution recognised by its payload,
      and otherwise the plan the rows dictate. */
  lemma ReadOutcome(before: Store, command: Command, clock: Text)
    ensures forall fault ::
              ReadResolution(before, command, clock) == Refused(fault) <==> ReadRefused(before, command, fault)
    ensures ReadResolution(before, command, clock).Replayed? <==> ReadReplayed(before, command)
    ensures ReadResolution(before, command, clock).Planned? ==>
              ReadPlanned(before, command, clock, ReadResolution(before, command, clock).plan)
  {
    hide *;
    ReadRefusals(before, command, clock);
    if ReadResolution(before, command, clock).Planned? { ReadPlans(before, command, clock); }
  }

  // --------------------------------------------- resolve, its three transactions

  /** The conflict as the plan found it, still under the locator. */
  predicate StillAnchored(before: Store, plan: ResolutionPlan) {
    before.locator != None && var row := before.locator.value;
    && row.state == Claiming && row.operation == plan.related && row.epoch == plan.expectedEpoch
    && row.space == plan.pair.active.space && row.session == plan.pair.active.session
  }

  /** The locator as the claim leaves it: at the winner, the next epoch, same owner. */
  predicate ClaimedAt(locator: Option<Locator>, plan: ResolutionPlan) {
    locator != None && var row := locator.value;
    && row.state == Claiming && row.operation == plan.op && row.epoch == plan.epoch
    && Place(row.space, row.session) == (if plan.winner == ActiveSide then plan.pair.active else plan.pair.candidate)
  }

  predicate OwnRow(before: Store, plan: ResolutionPlan) {
    plan.op in before.ops && var row := before.ops[plan.op];
    && row.kind == ResolveConflict && row.hash == plan.hash && row.related == Some(plan.related)
    && (row.phase == Prepared || row.phase == Claimed || row.phase == Transferred || row.phase == Completed)
  }

  /** The claim: verified, inserted by a restart, inserted with the locator's
      move, or found already made; otherwise refused and nothing written. */
  predicate Claims(before: Store, plan: ResolutionPlan, committed: bool, after: Store) {
    var known, writes := plan.op in before.ops, plan.isRestart || StillAnchored(before, plan);
    && (committed <==> if known then OwnRow(before, plan) else writes || ClaimedAt(before.locator, plan))
    && (if !committed || known || !writes then after == before else
        && after == before.(locator := after.locator, ops := after.ops)
        && RowAdded(before.ops, after.ops, plan.op)
        && after.ops[plan.op] == Operation(ResolveConflict, plan.hash, plan.intent, Claimed, Some(plan.related), None)
        && (if plan.isRestart then after.locator == before.locator else
            && ClaimedAt(after.locator, plan) && before.locator != None
            && after.locator.value.device == before.locator.value.device
            && after.locator.value.tab == before.locator.value.tab))
  }

  lemma ClaimOutcome(before: Store, plan: ResolutionPlan)
    ensures var r := ClaimTx(before, plan);
            && Claims(before, plan, r.Ok?, if r.Ok? then r.value else before)
            && (r.Err? ==> r == Err(IdempotencyConflict))
  {
    hide MetaOnly, RowsKept;
  }

  /** The transfer moves a claimed row of this conflict on, and finds one past it. */
  predicate Transfers(before: Store, op: Text, related: Text, committed: bool, after: Store) {
    var moves := op in before.ops && before.ops[op].phase == Claimed && before.ops[op].related == Some(related);
    && (committed <==>
          moves || (op in before.ops && (before.ops[op].phase == Transferred || before.ops[op].phase == Completed)))
    && (if !moves then after == before else
        && after == before.(ops := after.ops) && RowAdded(before.ops, after.ops, op)
        && after.ops[op] == before.ops[op].(phase := Transferred))
  }

  lemma TransferOutcome(before: Store, op: Text, related: Text)
    ensures var r := TransferTx(before, op, related);
            && Transfers(before, op, related, r.Ok?, if r.Ok? then r.value else before)
            && (r.Err? ==> r == Err(CasFailed))
  {
    hide MetaOnly;
  }

  /** The completion: all three rows stand as expected and all three move, or none does. */
  predicate Completes(before: Store, plan: ResolutionPlan, committed: bool, after: Store) {
    && (committed <==>
        && ClaimedAt(before.locator, plan)
        && plan.op in before.ops && before.ops[plan.op].phase == Transferred
        && before.ops[plan.op].related == Some(plan.related)
        && plan.related in before.ops && before.ops[plan.related].phase == AwaitingResolution)
    && (if !committed then after == before else
        && after == before.(locator := after.locator, ops := after.ops)
        && before.locator != None && after.locator == Some(before.locator.value.(state := ActiveState))
        && after.ops.Keys == before.ops.Keys
        && (forall o :: o in before.ops && o != plan.op && o != plan.related ==> after.ops[o] == before.ops[o])
        && after.ops[plan.op] == before.ops[plan.op].(phase := Completed, result := Some(Authoritative))
        && after.ops[plan.related] ==
             before.ops[plan.related].(phase := Completed, result := Some(ResolvedBy(plan.op))))
  }

  lemma CompleteOutcome(before: Store, plan: ResolutionPlan)
    ensures var r := CompleteTx(before, plan);
            && Completes(before, plan, r.Ok?, if r.Ok? then r.value else before)
            && (r.Err? ==> r == Err(CasFailed))
  {
    hide MetaOnly;
  }

  /** `activate_provisional`'s last transaction changes the phase alone. */
  predicate Awaits(before: Store, op: Text, committed: bool, after: Store) {
    && (committed <==> op in before.ops)
    && (if !committed then after == before else
        && after == before.(ops := after.ops) && RowAdded(before.ops, after.ops, op)
        && after.ops[op] == before.ops[op].(phase := AwaitingResolution))
  }

  lemma AwaitOutcome(before: Store, op: Text)
    ensures var r := AwaitTx(before, op);
            && Awaits(before, op, r.Ok?, if r.Ok? then r.value else before)
            && (r.Err? ==> r == Err(MissingRow))
  {
    hide MetaOnly;
  }
}
