/** A conflict the locator has left can never be completed. A touch checks
    neither the locator's state nor any phase, so it can leave a conflict at
    any point of its resolution. */
module CoordinatorStranded {
  import opened Symbols
  import opened CoordinationRows
  import opened CoordinatorTransactions
  import opened CoordinatorProtocol
  import opened CoordinatorSafety
  import opened CoordinatorSteps
  import opened CoordinatorTheorems

  predicate ResolvesConflict(store: Store, r: Text, c: Text) {
    r in store.ops && store.ops[r].kind == ResolveConflict && store.ops[r].related == Some(c)
  }

  /** The locator points at the conflict or at its resolution. */
  predicate Anchored(store: Store, c: Text) {
    store.locator.Some?
    && (store.locator.value.operation == c || ResolvesConflict(store, store.locator.value.operation, c))
  }

  /** An unfinished conflict that the locator has left. */
  predicate Stranded(store: Store, c: Text) {
    && c in store.ops && store.ops[c].kind == ActivateProvisional && store.ops[c].phase != Completed
    && !Anchored(store, c)
  }

  /** Any accepted touch, whatever it is for, strands every unfinished conflict. */
  lemma TouchStrands(s: State, command: Command, kind: Kind, c: Text)
    requires Inv(s) && IsTouch(kind) && TouchTx(s.store, command, kind).Ok?
    requires c in s.store.ops && s.store.ops[c].kind == ActivateProvisional && s.store.ops[c].phase != Completed
    ensures Stranded(Next(s, Touch(command, kind)).store, c)
  {
    hide Inv, IsOperationId, IsHash, MakeIntent, NewOwner;
  }

  // --------------------------------------------------------------- every step

  lemma SameMetaStaysStranded(s: State, t: State, c: Text)
    requires Stranded(s.store, c) && t.store.locator == s.store.locator && t.store.ops == s.store.ops
    ensures Stranded(t.store, c)
  {
  }

  lemma StrandedBegin(s: State, action: Action, c: Text)
    requires Inv(s) && Stranded(s.store, c) && (action.BeginStart? || action.BeginResolve? || action.BeginEnd?)
    ensures Stranded(Next(s, action).store, c)
  {
    hide Inv, ReadResolution, IsOperationId, IsHash, MakeIntent, TextField;
    match action
    case BeginStart(_, _) =>
    case BeginResolve(_, _, _) =>
    case BeginEnd(_, _) =>
  }

  lemma StrandedBeginActivate(s: State, pid: nat, command: Command, c: Text)
    requires Stranded(s.store, c)
    ensures Stranded(Next(s, BeginActivate(pid, command)).store, c)
  {
    hide ConflictPair, NewConflict, ConflictChildren, IsOperationId, TextField;
  }

  lemma ClaimLeaves(store: Store, plan: ResolutionPlan, c: Text)
    requires MetaInv(store) && PlanOk(store, plan) && Stranded(store, c) && ClaimTx(store, plan).Ok?
    ensures Stranded(ClaimTx(store, plan).value, c)
  {
    assert store.locator.Some? ==> store.locator.value.operation in store.ops;
    hide MetaInv, KidIs, ContractHash, WinnerSide;
  }

  lemma TransferLeaves(store: Store, plan: ResolutionPlan, c: Text)
    requires Stranded(store, c) && TransferTx(store, plan.op, plan.related).Ok?
    ensures Stranded(TransferTx(store, plan.op, plan.related).value, c)
  {
  }

  lemma CompleteLeaves(store: Store, plan: ResolutionPlan, c: Text)
    requires Stranded(store, c) && CompleteTx(store, plan).Ok?
    requires ResolvesConflict(store, plan.op, plan.related)
    ensures Stranded(CompleteTx(store, plan).value, c)
  {
  }

  lemma PlanKnown(s: State, pid: nat, plan: ResolutionPlan)
    requires Inv(s) && pid in s.procs && s.procs[pid].job == ResolveJob(plan)
    ensures PlanOk(s.store, plan)
    ensures s.procs[pid].pc != AtClaim ==> ResolvesConflict(s.store, plan.op, plan.related)
  {
    hide Inv, PlanOk, IsChildStage;
    ProcMetaOf(s, pid);
  }

  lemma StrandedResolve(s: State, pid: nat, plan: ResolutionPlan, c: Text)
    requires Inv(s) && pid in s.procs && s.procs[pid].job == ResolveJob(plan) && Stranded(s.store, c)
    ensures Stranded(AdvanceResolve(s, pid, plan).store, c)
  {
    PlanKnown(s, pid, plan);
    ResolveStore(s, pid, plan);
    assert MetaInv(s.store);
    hide AdvanceResolve, PlanOk, Inv, MetaInv, Stranded, ClaimTx, TransferTx, CompleteTx, ResolvesConflict;
    if s.procs[pid].pc == AtClaim && ClaimTx(s.store, plan).Ok? { ClaimLeaves(s.store, plan, c); }
    if s.procs[pid].pc == AtPhase && TransferTx(s.store, plan.op, plan.related).Ok? {
      TransferLeaves(s.store, plan, c);
    }
    if s.procs[pid].pc == AtComplete && CompleteTx(s.store, plan).Ok? { CompleteLeaves(s.store, plan, c); }
  }

  /** The only stores a Meta stage of a resolution can leave. */
  lemma ResolveStore(s: State, pid: nat, plan: ResolutionPlan)
    requires pid in s.procs
    ensures var t, pc := AdvanceResolve(s, pid, plan).store, s.procs[pid].pc;
            || t == s.store
            || (pc == AtClaim && ClaimTx(s.store, plan) == Ok(t))
            || (pc == AtPhase && TransferTx(s.store, plan.op, plan.related) == Ok(t))
            || (pc == AtComplete && CompleteTx(s.store, plan) == Ok(t))
  {
    hide ReadProof, JobsKept, ClaimTx, TransferTx, CompleteTx, SpacesKept, Release;
  }

  lemma StrandedActivate(s: State, pid: nat, op: Text, c: Text)
    requires pid in s.procs && s.procs[pid].job == ActivateJob(op) && Stranded(s.store, c)
    ensures Stranded(AdvanceActivate(s, pid, op).store, c)
  {
    hide Finish;
  }

  lemma StrandedEnd(s: State, pid: nat, op: Text, previous: Text, c: Text)
    requires Inv(s) && pid in s.procs && s.procs[pid].job == EndJob(op, previous) && Stranded(s.store, c)
    ensures Stranded(AdvanceEnd(s, pid, op, previous).store, c)
  {
    ProcMetaOf(s, pid);
    hide Inv, Finish, Goto;
    match s.procs[pid].pc
    case AtRotate =>
    case AtRelease =>
    case _ =>
  }

  lemma StrandedAdvance(s: State, pid: nat, reply: Reply, c: Text)
    requires Inv(s) && pid in s.procs && Stranded(s.store, c)
    ensures Stranded(AdvanceProc(s, pid, reply).store, c)
  {
    hide AdvanceChild, AdvanceResolve, AdvanceActivate, AdvanceEnd, AdvanceStart, Inv, Stranded;
    var proc := s.procs[pid];
    if IsChildStage(proc.pc) && proc.pc.i < |proc.kids| {
      SameMetaStaysStranded(s, AdvanceChild(s, pid, proc.pc.i, reply), c);
    } else {
      match proc.job
      case ResolveJob(plan) => StrandedResolve(s, pid, plan, c);
      case ActivateJob(op) => StrandedActivate(s, pid, op, c);
      case EndJob(op, previous) => StrandedEnd(s, pid, op, previous, c);
      case StartJob(place) =>
        StartKeepsMeta(s, pid, place, reply);
        SameMetaStaysStranded(s, AdvanceStart(s, pid, place, reply), c);
    }
  }

  lemma StartKeepsMeta(s: State, pid: nat, place: Place, reply: Reply)
    requires pid in s.procs
    ensures var t := AdvanceStart(s, pid, place, reply);
            t.store.locator == s.store.locator && t.store.ops == s.store.ops
  {
  }

  lemma StrandedUnfinishedRow(store: Store, c: Text)
    requires Stranded(store, c)
    ensures c in store.ops && store.ops[c].kind == ActivateProvisional && store.ops[c].phase != Completed
  {
  }

  lemma StrandedStep(s: State, action: Action, c: Text)
    requires Inv(s) && Stranded(s.store, c)
    ensures Stranded(Next(s, action).store, c)
  {
    hide Inv, Stranded, AdvanceProc, WriteJournal;
    match action
    case Advance(pid, reply) => if pid in s.procs { StrandedAdvance(s, pid, reply, c); }
    case Crash(pid) => SameMetaStaysStranded(s, Next(s, action), c);
    case Recover(key, entry) =>
      RecoveryKeepsMeta(s, key, entry);
      SameMetaStaysStranded(s, Next(s, action), c);
    case ChangeSessions(_) => SameMetaStaysStranded(s, Next(s, action), c);
    case BeginActivate(pid, command) => StrandedBeginActivate(s, pid, command, c);
    case Touch(command, kind) =>
      if IsTouch(kind) && TouchTx(s.store, command, kind).Ok? {
        assert Stranded(Next(s, action).store, c) by {
          StrandedUnfinishedRow(s.store, c);
          TouchStrands(s, command, kind, c);
        }
      }
    case _ => StrandedBegin(s, action, c);
  }

  /** Once the locator has left an unfinished conflict, no continuation
      completes it, nor any resolution of it. */
  lemma {:induction false} StrandedNeverCompletes(sessions: map<Key, SessionRow>, actions: seq<Action>,
                                                  more: seq<Action>, c: Text)
    requires Stranded(Reached(sessions, actions).store, c)
    ensures var t := Reached(sessions, actions + more);
            && Stranded(t.store, c)
            && forall r :: ResolvesConflict(t.store, r, c) ==> t.store.ops[r].phase != Completed
    decreases |more|
  {
    hide Inv, Next, Stranded;
    if more == [] {
      assert actions + more == actions;
    } else {
      var n := |more| - 1;
      StrandedNeverCompletes(sessions, actions, more[..n], c);
      assert (actions + more)[..|actions + more| - 1] == actions + more[..n];
      ReachedInv(sessions, actions + more[..n]);
      StrandedStep(Reached(sessions, actions + more[..n]), more[n], c);
    }
    StrandedUnfinished(sessions, actions + more, c);
  }

  lemma StrandedUnfinished(sessions: map<Key, SessionRow>, actions: seq<Action>, c: Text)
    requires Stranded(Reached(sessions, actions).store, c)
    ensures var t := Reached(sessions, actions);
            forall r :: ResolvesConflict(t.store, r, c) ==> t.store.ops[r].phase != Completed
  {
    hide Reached;
    var t := Reached(sessions, actions);
    forall r | ResolvesConflict(t.store, r, c) ensures t.store.ops[r].phase != Completed {
      CompletionIsAtomic(sessions, actions, r);
    }
  }
}
