/** The locator's ownership epoch is an exact account of committed takeovers
    and resolutions. */
module CoordinatorEpoch {
  import opened Symbols
  import opened CoordinationRows
  import opened ChildEvidence
  import opened CoordinatorTransactions
  import opened CoordinatorProtocol
  import opened CoordinatorSafety
  import opened CoordinatorSteps

  predicate Counts(kind: Kind) {
    kind == Takeover || kind == ResolveConflict
  }

  /** Takeover and resolution rows committed since the locator was created. */
  function Bumps(ops: map<Text, Operation>, before: set<Text>): set<Text> {
    set o | o in ops && o !in before && Counts(ops[o].kind)
  }

  predicate EpochExact(s: State) {
    s.store.locator.Some? ==> s.store.locator.value.epoch == s.birth.epoch + |Bumps(s.store.ops, s.birth.ops)|
  }

  /** How one step may touch locator and operations. */
  predicate NoLocator(t: State) {
    t.store.locator.None?
  }

  predicate Born(s: State, t: State) {
    s.store.locator.None? && t.store.locator.Some? && t.birth == Birth(t.store.locator.value.epoch, t.store.ops.Keys)
  }

  ghost predicate SameRows(s: State, t: State) {
    && s.store.locator.Some? && t.store.locator.Some? && t.birth == s.birth
    && t.store.locator.value.epoch == s.store.locator.value.epoch
    && SameOwner(s, t)
    && t.store.ops.Keys == s.store.ops.Keys
    && forall o :: o in s.store.ops ==> t.store.ops[o].kind == s.store.ops[o].kind
  }

  predicate SameOwner(s: State, t: State)
    requires s.store.locator.Some? && t.store.locator.Some?
  {
    t.store.locator.value.device == s.store.locator.value.device
    && t.store.locator.value.tab == s.store.locator.value.tab
  }

  predicate NewRow(s: State, t: State, op: Text) {
    && s.store.locator.Some? && t.store.locator.Some? && t.birth == s.birth
    && op !in s.store.ops && op in t.store.ops && t.store.ops == s.store.ops[op := t.store.ops[op]]
    && var kind := t.store.ops[op].kind;
    && t.store.locator.value.epoch == s.store.locator.value.epoch + (if Counts(kind) then 1 else 0)
    && (kind != Takeover ==> SameOwner(s, t))
  }

  /** The only ways a step changes the epoch or the owner. */
  ghost predicate EpochMove(s: State, t: State, op: Text) {
    NoLocator(t) || Born(s, t) || SameRows(s, t) || NewRow(s, t, op)
  }

  function Committed(s: State, action: Action): Text {
    match action
    case BeginStart(_, command) => command.id
    case BeginActivate(_, command) => command.id
    case BeginEnd(_, command) => command.id
    case Touch(command, _) => command.id
    case Advance(pid, _) =>
      if pid in s.procs && s.procs[pid].job.ResolveJob? then s.procs[pid].job.plan.op else Plain("")
    case _ => Plain("")
  }

  lemma NextMovesEpoch(s: State, action: Action)
    requires Inv(s)
    ensures EpochMove(s, Next(s, action), Committed(s, action))
  {
    hide Inv, AdvanceProc, ReadResolution, ConflictPair, NewConflict, IsOperationId, IsHash, MakeIntent, TextField;
    match action
    case Advance(pid, reply) => if pid in s.procs { AdvanceMovesEpoch(s, pid, reply); }
    case Touch(command, kind) => TouchMovesEpoch(s, command, kind);
    case BeginActivate(pid, command) => ActivateMovesEpoch(s, pid, command);
    case _ =>
  }

  lemma TouchMovesEpoch(s: State, command: Command, kind: Kind)
    ensures EpochMove(s, Next(s, Touch(command, kind)), command.id)
  {
    hide IsOperationId, IsHash, MakeIntent, NewOwner, EpochMove;
    var t := Next(s, Touch(command, kind));
    Unmoved(s, t, command.id);
    if t != s {
      if command.id in s.store.ops {
        assert SameRows(s, t);
      } else {
        assert NewRow(s, t, command.id);
      }
      Moved(s, t, command.id);
    }
  }

  lemma Moved(s: State, t: State, op: Text)
    requires SameRows(s, t) || NewRow(s, t, op)
    ensures EpochMove(s, t, op)
  {
  }

  lemma ActivateMovesEpoch(s: State, pid: nat, command: Command)
    ensures EpochMove(s, Next(s, BeginActivate(pid, command)), command.id)
  {
    hide IsOperationId, ConflictPair, NewConflict, ConflictChildren, ClaimingLocator;
  }

  lemma AdvanceMovesEpoch(s: State, pid: nat, reply: Reply)
    requires Inv(s) && pid in s.procs
    ensures EpochMove(s, AdvanceProc(s, pid, reply), Committed(s, Advance(pid, reply)))
  {
    hide AdvanceChild, AdvanceResolve, MetaInv, TableInv, ProcMeta, ProcProgress, ProcLease, EpochMove;
    var proc := s.procs[pid];
    Unmoved(s, AdvanceProc(s, pid, reply), Committed(s, Advance(pid, reply)));
    if IsChildStage(proc.pc) && proc.pc.i < |proc.kids| {
      hide Inv;
    } else {
      match proc.job
      case ResolveJob(plan) =>
        PlanEpoch(s, pid, plan);
        hide Inv;
        ResolveMovesEpoch(s, pid, plan);
      case ActivateJob(op) => hide Inv; AwaitMovesEpoch(s, pid, op);
      case EndJob(op, previous) => hide Inv; EndMovesEpoch(s, pid, op, previous);
      case StartJob(_) => hide Inv;
    }
  }

  lemma PlanEpoch(s: State, pid: nat, plan: ResolutionPlan)
    requires Inv(s) && pid in s.procs && s.procs[pid].job == ResolveJob(plan)
    ensures PlanOk(s.store, plan)
  {
    hide MetaInv, TableInv, PlanOk, ProcProgress, ProcLease;
    assert ProcOk(s, pid);
  }

  lemma Unmoved(s: State, t: State, op: Text)
    ensures t.store.locator == s.store.locator && t.store.ops == s.store.ops && t.birth == s.birth ==>
              EpochMove(s, t, op)
  {
  }

  lemma AwaitMovesEpoch(s: State, pid: nat, op: Text)
    requires pid in s.procs
    ensures forall o :: EpochMove(s, AdvanceActivate(s, pid, op), o)
  {
    hide Finish;
  }

  lemma EndMovesEpoch(s: State, pid: nat, op: Text, previous: Text)
    requires pid in s.procs
    ensures forall o :: EpochMove(s, AdvanceEnd(s, pid, op, previous), o)
  {
    hide Finish, Goto;
  }

  lemma ResolveMovesEpoch(s: State, pid: nat, plan: ResolutionPlan)
    requires pid in s.procs && s.procs[pid].job == ResolveJob(plan)
    requires plan.isRestart ==> plan.op in s.store.ops
    requires plan.epoch == if plan.isRestart then plan.expectedEpoch else plan.expectedEpoch + 1
    ensures EpochMove(s, AdvanceResolve(s, pid, plan), plan.op)
  {
    hide ReadProof, Finish, Goto;
    match s.procs[pid].pc
    case AtClaim =>
    case AtPhase =>
    case AtComplete =>
    case _ =>
  }

  lemma BumpsSame(s: State, t: State)
    requires SameRows(s, t)
    ensures Bumps(t.store.ops, t.birth.ops) == Bumps(s.store.ops, s.birth.ops)
  {
  }

  lemma BumpsGrow(s: State, t: State, op: Text)
    requires NewRow(s, t, op) && s.birth.ops <= s.store.ops.Keys
    ensures |Bumps(t.store.ops, t.birth.ops)|
         == |Bumps(s.store.ops, s.birth.ops)| + if Counts(t.store.ops[op].kind) then 1 else 0
  {
    hide Counts, SameOwner;
    var before, added := Bumps(s.store.ops, s.birth.ops), if Counts(t.store.ops[op].kind) then {op} else {};
    assert op !in before && Bumps(t.store.ops, t.birth.ops) == before + added;
  }

  lemma EpochStep(s: State, t: State, op: Text)
    requires EpochExact(s) && EpochMove(s, t, op)
    requires s.store.locator.Some? ==> s.birth.ops <= s.store.ops.Keys
    ensures EpochExact(t)
    ensures t.store.locator.Some? ==> t.birth.ops <= t.store.ops.Keys
  {
    if Born(s, t) {
      assert Bumps(t.store.ops, t.birth.ops) == {};
    } else {
      hide Bumps;
      if SameRows(s, t) {
        BumpsSame(s, t);
      } else if NewRow(s, t, op) {
        BumpsGrow(s, t, op);
      }
    }
  }

  lemma {:induction false} ReachedEpoch(sessions: map<Key, SessionRow>, actions: seq<Action>)
    ensures var s := Reached(sessions, actions);
            EpochExact(s) && (s.store.locator.Some? ==> s.birth.ops <= s.store.ops.Keys)
  {
    hide Next, Inv;
    if actions != [] {
      var n := |actions| - 1;
      var s := Reached(sessions, actions[..n]);
      ReachedEpoch(sessions, actions[..n]);
      ReachedInv(sessions, actions[..n]);
      NextMovesEpoch(s, actions[n]);
      EpochStep(s, Next(s, actions[n]), Committed(s, actions[n]));
    }
  }

  /** Since its creation the locator's epoch has grown by exactly one for every
      takeover row and every resolution row committed, and by nothing else:
      replays, heartbeats and restarted resolves commit no such row. */
  lemma EpochAccounting(sessions: map<Key, SessionRow>, actions: seq<Action>)
    ensures var s := Reached(sessions, actions);
            s.store.locator.Some? ==>
              s.store.locator.value.epoch == s.birth.epoch + |Bumps(s.store.ops, s.birth.ops)|
  {
    hide Reached;
    ReachedEpoch(sessions, actions);
  }

  /** While one locator lives, its owner changes only when a takeover row is
      committed for the first time. */
  lemma OwnerMovesOnlyByTakeover(sessions: map<Key, SessionRow>, actions: seq<Action>, action: Action)
    requires var s := Reached(sessions, actions);
             var t := Next(s, action);
             s.store.locator.Some? && t.store.locator.Some? && !SameOwner(s, t)
    ensures var s := Reached(sessions, actions);
            var op := Committed(s, action);
            op !in s.store.ops && op in Next(s, action).store.ops && Next(s, action).store.ops[op].kind == Takeover
  {
    hide Reached, Next, Inv, Committed;
    ReachedInv(sessions, actions);
    NextMovesEpoch(Reached(sessions, actions), action);
  }
}
