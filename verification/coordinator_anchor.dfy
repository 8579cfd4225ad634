/** What the Meta rows of a reached state record about the commands that wrote
    them: the locator anchors an unfinished conflict or resolution exactly as
    its writer left it, and a resolution row holds everything needed to issue
    its command again. */
module CoordinatorAnchor {
  import opened Symbols
  import opened CoordinationRows
  import opened CoordinatorTransactions
  import opened CoordinatorProtocol
  import opened CoordinatorSafety
  import opened CoordinatorSteps
  import opened CoordinatorIdentity
  import opened CoordinatorStranded
  import CoordinatorTheorems

  /** The decision time a winner child was made with. */
  function DecisionIn(hash: Text): Text {
    if hash.Digest? && Get(hash.of, "decision_at").Str? then Get(hash.of, "decision_at").text else Plain("")
  }

  function FrozenDecision(row: Operation): Text {
    if row.intent.children.Some? && Winner in row.intent.children.value
    then DecisionIn(row.intent.children.value[Winner].hash) else Plain("")
  }

  /** The intent a resolve command with this payload and decision time writes. */
  function ResolveIntent(op: Text, payload: Payload, pair: Pair, epoch: int, decisionAt: Text): Intent {
    var winner := SideOf(payload);
    Intent(op, pair.At(winner).space, pair.At(winner).session, epoch, ContractHash(payload), ResolveConflict, payload,
           Some(pair), Some(Declarations(ResolutionChildren(op, pair, winner, decisionAt))))
  }

  /** The payload names no other conflict and no other pair. */
  predicate PayloadFits(payload: Payload, related: Text, pair: Pair) {
    && (Truthy(Get(payload, "pair")) ==> ConflictPair(payload) == Some(pair))
    && ("related_operation_id" in payload ==> PyStr(payload["related_operation_id"]) == related)
  }

  predicate FrozenResolution(op: Text, row: Operation) {
    && row.related.Some? && row.intent.pair.Some? && WinnerSide(row.intent.business).Some?
    && row.hash == row.intent.hash
    && row.intent ==
         ResolveIntent(op, row.intent.business, row.intent.pair.value, row.intent.epoch, FrozenDecision(row))
    && DecisionAt(row.intent.business, FrozenDecision(row)) == FrozenDecision(row)
    && PayloadFits(row.intent.business, row.related.value, row.intent.pair.value)
    && (row.phase != Completed ==> row.result == None)
  }

  predicate FrozenRow(op: Text, row: Operation) {
    && (row.kind == ResolveConflict ==> FrozenResolution(op, row))
    && (row.kind == ActivateProvisional ==> row.intent.epoch > 0 && row.intent.pair.Some?)
  }

  /** Where the locator stands, for the operation it points at. */
  predicate AnchorOk(locator: Locator, row: Operation) {
    && (row.kind == ResolveConflict && row.phase != Completed ==> locator.state == Claiming)
    && (row.kind == ActivateProvisional ==>
          && locator.state == Claiming && locator.epoch == row.intent.epoch
          && row.intent.pair.Some? && Place(locator.space, locator.session) == row.intent.pair.value.active)
  }

  predicate LocatorOk(store: Store) {
    store.locator.Some? ==>
      && store.locator.value.epoch > 0 && store.locator.value.operation in store.ops
      && AnchorOk(store.locator.value, store.ops[store.locator.value.operation])
  }

  ghost predicate Recorded(store: Store) {
    LocatorOk(store) && forall op :: op in store.ops ==> FrozenRow(op, store.ops[op])
  }

  predicate FrozenPlan(plan: ResolutionPlan) {
    !plan.isRestart ==> FrozenRow(plan.op, NewResolution(plan))
  }

  ghost predicate PlansFrozen(s: State) {
    forall pid :: pid in s.procs && s.procs[pid].job.ResolveJob? ==> FrozenPlan(s.procs[pid].job.plan)
  }

  // --------------------------------------------------------- the transactions

  lemma StartRecords(store: Store, command: Command)
    requires MetaInv(store) && Recorded(store) && StartTx(store, command).Ok?
    ensures Recorded(StartTx(store, command).value)
  {
    hide MetaInv, FrozenResolution, IsOperationId, IsHash, MakeIntent, TextField;
  }

  lemma TouchRecords(store: Store, command: Command, kind: Kind)
    requires MetaInv(store) && Recorded(store) && IsTouch(kind) && TouchTx(store, command, kind).Ok?
    ensures Recorded(TouchTx(store, command, kind).value)
  {
    hide MetaInv, FrozenResolution, IsOperationId, IsHash, MakeIntent, NewOwner, MetaOnly, RowsKept;
    var after := TouchTx(store, command, kind).value;
    if command.id in store.ops {
      assert after.ops == store.ops;
    } else {
      assert after.ops[command.id].kind == kind && after.ops == store.ops[command.id := after.ops[command.id]];
    }
  }

  lemma EndRecords(store: Store, command: Command)
    requires MetaInv(store) && Recorded(store) && EndClaimTx(store, command).Ok?
             && EndClaimTx(store, command).value.Some?
    ensures Recorded(EndClaimTx(store, command).value.value)
  {
    hide MetaInv, FrozenResolution, IsOperationId, IsHash, MakeIntent;
  }

  lemma ActivateRecords(store: Store, command: Command)
    requires MetaInv(store) && Recorded(store) && ActivateTx(store, command).Ok?
    ensures Recorded(ActivateTx(store, command).value)
  {
    ConflictRecorded(command);
    AnchorExists(store);
    hide MetaInv, FrozenResolution, IsOperationId, ConflictPair, NewConflict, TextField, MetaOnly, RowsKept;
  }

  lemma AnchorExists(store: Store)
    requires MetaInv(store)
    ensures store.locator != None ==> store.locator.value.operation in store.ops
  {
  }

  lemma ConflictRecorded(command: Command)
    ensures ConflictPair(command.payload).Some? ==>
              var row := NewConflict(command, ConflictPair(command.payload).value);
              && row.kind == ActivateProvisional && row.intent.pair == ConflictPair(command.payload)
              && row.intent.epoch == EpochOr1(command.epoch)
  {
    hide ConflictPair, ConflictChildren, Declarations, ContractHash;
  }

  lemma AwaitRecords(store: Store, op: Text)
    requires Recorded(store) && op in store.ops && store.ops[op].kind == ActivateProvisional
    ensures Recorded(AwaitTx(store, op).value)
  {
    hide FrozenResolution;
  }

  lemma ClaimRecords(store: Store, plan: ResolutionPlan)
    requires MetaInv(store) && Recorded(store) && PlanOk(store, plan) && FrozenPlan(plan) && ClaimTx(store, plan).Ok?
    requires plan.epoch == plan.intent.epoch
    ensures Recorded(ClaimTx(store, plan).value)
  {
    PlanCounts(store, plan);
    hide ClaimTx, FrozenRow, NewResolution, PlanOk, MetaInv, LocatorOk, MetaOnly, RowsKept;
    ClaimedLocator(store, plan);
    RecordsMoved(store, ClaimTx(store, plan).value);
  }

  lemma PlanCounts(store: Store, plan: ResolutionPlan)
    requires PlanOk(store, plan)
    ensures plan.isRestart ==> plan.op in store.ops
    ensures plan.epoch == if plan.isRestart then plan.expectedEpoch else plan.expectedEpoch + 1
  {
    hide KidIs, ContractHash, WinnerSide;
  }

  lemma ClaimedLocator(store: Store, plan: ResolutionPlan)
    requires LocatorOk(store) && ClaimTx(store, plan).Ok? && plan.epoch == plan.intent.epoch
    requires plan.isRestart ==> plan.op in store.ops
    requires plan.epoch == if plan.isRestart then plan.expectedEpoch else plan.expectedEpoch + 1
    ensures LocatorOk(ClaimTx(store, plan).value)
    ensures plan.op !in store.ops ==> ClaimTx(store, plan).value.ops == store.ops[plan.op := NewResolution(plan)]
    ensures plan.op in store.ops ==> ClaimTx(store, plan).value == store
  {
    assert NewResolution(plan).kind == ResolveConflict && NewResolution(plan).phase == Claimed;
    hide NewResolution, MetaOnly, RowsKept;
  }

  lemma TransferRecords(store: Store, plan: ResolutionPlan)
    requires Recorded(store) && ResolvesConflict(store, plan.op, plan.related)
             && TransferTx(store, plan.op, plan.related).Ok?
    ensures Recorded(TransferTx(store, plan.op, plan.related).value)
  {
    var row := store.ops[plan.op];
    assert FrozenRow(plan.op, row);
    assert FrozenRow(plan.op, row.(phase := Transferred)) || row.phase != Claimed by {
      hide ResolveIntent, DecisionAt, PayloadFits, WinnerSide;
    }
    hide FrozenRow;
  }

  lemma CompleteRecords(store: Store, plan: ResolutionPlan)
    requires Recorded(store) && ResolvesConflict(store, plan.op, plan.related) && CompleteTx(store, plan).Ok?
    requires store.ops[plan.related].kind == ActivateProvisional
    ensures Recorded(CompleteTx(store, plan).value)
  {
    CompletedOps(store, plan);
    CompletedRow(plan.op, store.ops[plan.op], Some(Authoritative));
    CompletedRow(plan.related, store.ops[plan.related], Some(ResolvedBy(plan.op)));
    hide FrozenRow, MetaOnly, LocatorOk, CompleteTx;
    RecordsMoved(store, CompleteTx(store, plan).value);
  }

  lemma CompletedOps(store: Store, plan: ResolutionPlan)
    requires Recorded(store) && ResolvesConflict(store, plan.op, plan.related) && CompleteTx(store, plan).Ok?
    requires store.ops[plan.related].kind == ActivateProvisional
    ensures FrozenRow(plan.op, store.ops[plan.op]) && FrozenRow(plan.related, store.ops[plan.related])
    ensures var after := CompleteTx(store, plan).value;
            && LocatorOk(after) && plan.op != plan.related
            && after.ops == store.ops[plan.op := store.ops[plan.op].(phase := Completed, result := Some(Authoritative))]
                                     [plan.related :=
                                        store.ops[plan.related].(phase := Completed,
                                                                 result := Some(ResolvedBy(plan.op)))]
  {
    hide FrozenResolution, MetaOnly;
  }

  lemma RecordsMoved(before: Store, after: Store)
    requires Recorded(before) && LocatorOk(after)
    requires forall op ::
               op in after.ops ==> (op in before.ops && after.ops[op] == before.ops[op]) || FrozenRow(op, after.ops[op])
    ensures Recorded(after)
  {
    hide FrozenRow, LocatorOk;
  }

  lemma CompletedRow(op: Text, row: Operation, result: Option<Descriptor>)
    requires FrozenRow(op, row)
    ensures FrozenRow(op, row.(phase := Completed, result := result))
  {
    hide ResolveIntent, DecisionAt, PayloadFits, WinnerSide;
  }

  lemma RotateRecords(store: Store, op: Text, previous: Text)
    requires Recorded(store) && op in store.ops && store.ops[op].kind == End && EndRotateTx(store, op, previous).Ok?
    ensures Recorded(EndRotateTx(store, op, previous).value)
  {
    hide FrozenRow;
  }

  lemma ReleaseRecords(store: Store)
    requires Recorded(store)
    ensures Recorded(EndReleaseTx(store))
  {
    hide FrozenRow;
  }

  lemma SameRecords(before: Store, after: Store)
    requires Recorded(before) && after.locator == before.locator && after.ops == before.ops
    ensures Recorded(after)
  {
    hide FrozenRow;
  }

  // ---------------------------------------------------------------- the plans

  /** A command that is not a restart freezes its whole plan. */
  lemma PlanFreezes(command: Command, related: Text, pair: Pair, winner: Side, expectedEpoch: int, clock: Text)
    requires WinnerSide(command.payload) == Some(winner) && PayloadFits(command.payload, related, pair)
    ensures FrozenPlan(MakePlan(command, related, pair, winner, expectedEpoch, false, clock))
  {
    var plan := MakePlan(command, related, pair, winner, expectedEpoch, false, clock);
    WinnerHashHolds(plan.op, pair, winner, DecisionAt(command.payload, clock));
    hide WinnerSide, ConflictPair, Truthy, ResolutionChildren;
    TwiceDecided(command.payload, clock);
  }

  lemma TwiceDecided(payload: Payload, clock: Text)
    ensures DecisionAt(payload, DecisionAt(payload, clock)) == DecisionAt(payload, clock)
  {
  }

  lemma WinnerHashHolds(op: Text, pair: Pair, winner: Side, decisionAt: Text)
    ensures var children := Declarations(ResolutionChildren(op, pair, winner, decisionAt));
            Winner in children && DecisionIn(children[Winner].hash) == decisionAt
  {
    var payload := WinnerPayload(pair.At(winner), decisionAt);
    assert "decision_at" in payload && payload["decision_at"] == Str(decisionAt);
    assert "decision_at" !in GUARD_FIELDS;
    hide WinnerPayload, LoserPayload;
  }

  lemma ReadFreezes(store: Store, command: Command, clock: Text)
    requires ReadResolution(store, command, clock).Planned?
    ensures FrozenPlan(ReadResolution(store, command, clock).plan)
  {
    var locator := store.locator.value;
    if locator.operation != command.id {
      var pair, winner := store.ops[locator.operation].intent.pair.value, WinnerSide(command.payload).value;
      assert PayloadFits(command.payload, locator.operation, pair) by {
        hide MakePlan, IsOperationId, ConflictPair, WinnerSide;
      }
      PlanFreezes(command, locator.operation, pair, winner, locator.epoch, clock);
    }
    hide MakePlan, FrozenRow, IsOperationId, ConflictPair, WinnerSide, Truthy, PyStr;
    RestartIsNoPlan(store, command, clock);
  }

  lemma RestartIsNoPlan(store: Store, command: Command, clock: Text)
    requires ReadResolution(store, command, clock).Planned?
    ensures var plan := ReadResolution(store, command, clock).plan;
            plan.isRestart <==> store.locator.value.operation == command.id
  {
    hide IsOperationId, ConflictPair, WinnerSide, Truthy, PyStr, ResolutionChildren, Declarations, ContractHash,
         DecisionAt;
  }

  // --------------------------------------------------------------- every step

  lemma BeginStartRecords(s: State, pid: nat, command: Command)
    requires MetaInv(s.store) && Recorded(s.store)
    ensures Recorded(Next(s, BeginStart(pid, command)).store)
  {
    hide MetaInv, Recorded, StartTx, MetaOnly, RowsKept;
    if StartTx(s.store, command).Ok? { StartRecords(s.store, command); }
  }

  lemma BeginActivateRecords(s: State, pid: nat, command: Command)
    requires MetaInv(s.store) && Recorded(s.store)
    ensures Recorded(Next(s, BeginActivate(pid, command)).store)
  {
    hide MetaInv, Recorded, ActivateTx, ConflictPair, ConflictChildren, MetaOnly, RowsKept;
    if ActivateTx(s.store, command).Ok? { ActivateRecords(s.store, command); }
  }

  lemma BeginEndRecords(s: State, pid: nat, command: Command)
    requires MetaInv(s.store) && Recorded(s.store)
    ensures Recorded(Next(s, BeginEnd(pid, command)).store)
  {
    hide MetaInv, Recorded, EndClaimTx, MetaOnly, RowsKept;
    if EndClaimTx(s.store, command).Ok? && EndClaimTx(s.store, command).value.Some? { EndRecords(s.store, command); }
  }

  lemma TouchingRecords(s: State, command: Command, kind: Kind)
    requires MetaInv(s.store) && Recorded(s.store)
    ensures Recorded(Next(s, Touch(command, kind)).store)
  {
    hide MetaInv, Recorded, TouchTx, MetaOnly, RowsKept, IsTouch;
    if IsTouch(kind) && TouchTx(s.store, command, kind).Ok? { TouchRecords(s.store, command, kind); }
  }

  lemma BeginRecords(s: State, action: Action)
    requires Inv(s) && Recorded(s.store)
    requires action.BeginStart? || action.BeginActivate? || action.BeginResolve? || action.BeginEnd? || action.Touch?
    ensures Recorded(Next(s, action).store)
  {
    hide MetaInv, Recorded, ReadResolution, TableInv, ProcsInv;
    match action
    case BeginStart(pid, command) => hide Next; BeginStartRecords(s, pid, command);
    case BeginActivate(pid, command) => hide Next; BeginActivateRecords(s, pid, command);
    case BeginResolve(_, _, _) =>
    case BeginEnd(pid, command) => hide Next; BeginEndRecords(s, pid, command);
    case Touch(command, kind) => hide Next; TouchingRecords(s, command, kind);
  }

  lemma ResolveRecords(s: State, pid: nat, plan: ResolutionPlan)
    requires Inv(s) && Identities(s) && Recorded(s.store) && PlansFrozen(s) && pid in s.procs
             && s.procs[pid].job == ResolveJob(plan)
    ensures Recorded(AdvanceResolve(s, pid, plan).store)
  {
    PlanKnown(s, pid, plan);
    ResolveStore(s, pid, plan);
    assert MetaInv(s.store) && FrozenPlan(plan);
    assert plan.epoch == plan.intent.epoch by {
      hide Inv, WrittenRow, TrueRows;
      assert TrueProc(s.store, s.procs[pid]);
    }
    assert plan.related in s.store.ops && s.store.ops[plan.related].kind == ActivateProvisional;
    hide Inv, MetaInv, Identities, PlansFrozen, AdvanceResolve, Recorded, PlanOk, FrozenPlan, ClaimTx, TransferTx,
         CompleteTx, ResolvesConflict;
    if s.procs[pid].pc == AtClaim && ClaimTx(s.store, plan).Ok? { ClaimRecords(s.store, plan); }
    if s.procs[pid].pc == AtPhase && TransferTx(s.store, plan.op, plan.related).Ok? { TransferRecords(s.store, plan); }
    if s.procs[pid].pc == AtComplete && CompleteTx(s.store, plan).Ok? { CompleteRecords(s.store, plan); }
  }

  lemma AdvanceRecords(s: State, pid: nat, reply: Reply)
    requires Inv(s) && Identities(s) && Recorded(s.store) && PlansFrozen(s) && pid in s.procs
    ensures Recorded(AdvanceProc(s, pid, reply).store)
  {
    JobKnown(s, pid);
    hide Finish, Goto, WithStore, Inv, Identities, PlansFrozen, Recorded, AdvanceChild, AdvanceActivate, AdvanceEnd,
         AdvanceResolve, AdvanceStart, AwaitTx, EndRotateTx, EndReleaseTx;
    var proc := s.procs[pid];
    if IsChildStage(proc.pc) && proc.pc.i < |proc.kids| {
      SameRecords(s.store, AdvanceChild(s, pid, proc.pc.i, reply).store);
    } else {
      match proc.job
      case ResolveJob(plan) => ResolveRecords(s, pid, plan);
      case ActivateJob(op) => ActivationRecords(s, pid, op);
      case EndJob(op, previous) => EndingRecords(s, pid, op, previous);
      case StartJob(place) =>
        StartKeepsMeta(s, pid, place, reply);
        SameRecords(s.store, AdvanceStart(s, pid, place, reply).store);
    }
  }

  lemma ActivationRecords(s: State, pid: nat, op: Text)
    requires Recorded(s.store) && pid in s.procs && op in s.store.ops && s.store.ops[op].kind == ActivateProvisional
    ensures Recorded(AdvanceActivate(s, pid, op).store)
  {
    hide Recorded, AwaitTx, JobsKept, Release;
    if AwaitTx(s.store, op).Ok? { AwaitRecords(s.store, op); }
  }

  lemma EndingRecords(s: State, pid: nat, op: Text, previous: Text)
    requires Recorded(s.store) && pid in s.procs && op in s.store.ops && s.store.ops[op].kind == End
    ensures Recorded(AdvanceEnd(s, pid, op, previous).store)
  {
    hide Recorded, EndRotateTx, EndReleaseTx, JobsKept, Release;
    if EndRotateTx(s.store, op, previous).Ok? { RotateRecords(s.store, op, previous); }
    ReleaseRecords(s.store);
  }

  /** The row an activation or an end works for exists and has its kind. */
  lemma JobKnown(s: State, pid: nat)
    requires Inv(s) && pid in s.procs
    ensures match s.procs[pid].job
            case ActivateJob(op) => op in s.store.ops && s.store.ops[op].kind == ActivateProvisional
            case EndJob(op, _) => op in s.store.ops && s.store.ops[op].kind == End
            case _ => true
  {
    hide MetaInv, TableInv, ProcProgress, ProcLease, PlanOk, KidIs;
    assert ProcOk(s, pid);
  }

  lemma NextRecords(s: State, action: Action)
    requires Inv(s) && Identities(s) && Recorded(s.store) && PlansFrozen(s)
    ensures Recorded(Next(s, action).store)
  {
    hide Inv, Identities, PlansFrozen, Recorded, AdvanceProc, WriteJournal;
    match action
    case Advance(pid, reply) => if pid in s.procs { AdvanceRecords(s, pid, reply); }
    case Crash(pid) => SameRecords(s.store, Next(s, action).store);
    case Recover(key, entry) =>
      CoordinatorTheorems.RecoveryKeepsMeta(s, key, entry);
      SameRecords(s.store, Next(s, action).store);
    case ChangeSessions(_) => SameRecords(s.store, Next(s, action).store);
    case _ => BeginRecords(s, action);
  }

  lemma NextKeepsPlans(s: State, action: Action)
    requires PlansFrozen(s)
    ensures PlansFrozen(Next(s, action))
  {
    hide FrozenPlan, StartTx, ActivateTx, ReadResolution, EndClaimTx, TouchTx, AdvanceProc, ConflictPair,
         ConflictChildren, IsTouch;
    match action
    case BeginResolve(pid, command, clock) =>
      if ReadResolution(s.store, command, clock).Planned? {
        ReadFreezes(s.store, command, clock);
      }
    case Advance(pid, reply) => if pid in s.procs { AdvanceKeepsJobs(s, pid, reply); }
    case _ =>
  }

  lemma AdvanceKeepsJobs(s: State, pid: nat, reply: Reply)
    requires pid in s.procs
    ensures JobsKept(s, AdvanceProc(s, pid, reply))
  {
    hide AdvanceChild, ClaimTx, ReadProof, TransferTx, CompleteTx, AwaitTx, EndRotateTx, EndReleaseTx;
    var proc := s.procs[pid];
    if !(IsChildStage(proc.pc) && proc.pc.i < |proc.kids|) {
      match proc.job
      case StartJob(_) =>
      case ActivateJob(_) =>
      case ResolveJob(plan) => ResolveKeepsJobs(s, pid, plan);
      case EndJob(_, _) =>
    }
  }

  lemma ResolveKeepsJobs(s: State, pid: nat, plan: ResolutionPlan)
    requires pid in s.procs
    ensures JobsKept(s, AdvanceResolve(s, pid, plan))
  {
    hide ClaimTx, ReadProof, TransferTx, CompleteTx;
  }

  lemma {:induction false} ReachedRecords(sessions: map<Key, SessionRow>, actions: seq<Action>)
    ensures Recorded(Reached(sessions, actions).store) && PlansFrozen(Reached(sessions, actions))
  {
    hide Inv, Next, Identities, Recorded, PlansFrozen;
    if actions == [] {
      FreshRecords(sessions);
    } else {
      var shorter := actions[..|actions| - 1];
      ReachedRecords(sessions, shorter);
      ReachedInv(sessions, shorter);
      ReachedIdentities(sessions, shorter);
      NextRecords(Reached(sessions, shorter), actions[|actions| - 1]);
      NextKeepsPlans(Reached(sessions, shorter), actions[|actions| - 1]);
    }
  }

  lemma FreshRecords(sessions: map<Key, SessionRow>)
    ensures Recorded(Fresh(sessions).store) && PlansFrozen(Fresh(sessions))
  {
    hide FrozenRow, FrozenPlan;
  }
}
