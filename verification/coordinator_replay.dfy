/** A completed resolution recognises the command that completed it. */
module CoordinatorReplay {
  import opened Symbols
  import opened CoordinationRows
  import opened CoordinatorTransactions
  import opened CoordinatorProtocol
  import opened CoordinatorSafety
  import opened CoordinatorSteps
  import opened CoordinatorTheorems
  import opened CoordinatorOutcomes
  import CoordinatorStranded

  /** In a reached state the locator's own completed resolution answers every
      well-formed command of its id that hashes to the same payload. */
  lemma CompletedReplays(sessions: map<Key, SessionRow>, actions: seq<Action>, command: Command, clock: Text)
    requires var store := Reached(sessions, actions).store;
             && ResolveAsked(command) && AnswersReplay(store, command)
             && store.ops[command.id].hash == Digest(command.payload - {"pair", "children"})
    ensures ReadResolution(Reached(sessions, actions).store, command, clock).Replayed?
  {
    hide Reached, ResolveAsked, ReadResolution, ConflictRow, UniqueResolutions, AnchorUnresolved;
    ReachedInv(sessions, actions);
    var store := Reached(sessions, actions).store;
    assert ResolutionRow(store, command.id);
    hide MetaInv, TableInv, ProcsInv;
    ReadOutcome(store, command, clock);
  }

  /** What the one command that moves has done to the locator. */
  predicate Goes(s: State, pid: nat, plan: ResolutionPlan) {
    && (pid in s.procs ==> s.procs[pid].job == ResolveJob(plan))
    && (s.store.locator != None && s.store.locator.value.state == ActiveState ==>
          && pid !in s.procs && s.store.locator.value.operation == plan.op && plan.op in s.store.ops
          && s.store.ops[plan.op].kind == ResolveConflict && s.store.ops[plan.op].phase == Completed
          && s.store.ops[plan.op].hash == plan.hash)
  }

  lemma MetaUntouched(s: State, t: State, pid: nat, plan: ResolutionPlan)
    requires Goes(s, pid, plan) && pid in s.procs && MetaKept(s, t)
    ensures Goes(t, pid, plan)
  {
  }

  lemma ResolveGoes(s: State, pid: nat, plan: ResolutionPlan)
    requires Inv(s) && Goes(s, pid, plan) && pid in s.procs
    ensures Goes(AdvanceResolve(s, pid, plan), pid, plan)
  {
    CoordinatorStranded.PlanKnown(s, pid, plan);
    ProcMetaOf(s, pid);
    assert s.procs[pid].pc != AtClaim ==> plan.op in s.store.ops && s.store.ops[plan.op].hash == plan.hash by {
      hide Inv, PlanOk, IsChildStage;
    }
    assert PlanOk(s.store, plan) && s.store.ops[plan.related].kind == ActivateProvisional by {
      hide Inv, ProcMeta, IsChildStage, KidIs, Goes;
    }
    hide Inv, PlanOk, ProcMeta, AdvanceResolve, Goes, IsChildStage, KidIs;
    if s.procs[pid].pc == AtClaim {
      ClaimGoes(s, pid, plan);
    } else if s.procs[pid].pc == AtComplete {
      CompletionGoes(s, pid, plan);
    } else {
      OtherGoes(s, pid, plan);
    }
  }

  lemma ClaimGoes(s: State, pid: nat, plan: ResolutionPlan)
    requires Goes(s, pid, plan) && pid in s.procs && s.procs[pid].pc == AtClaim
    ensures Goes(AdvanceResolve(s, pid, plan), pid, plan)
  {
    ClaimOutcome(s.store, plan);
    hide ClaimTx, MetaOnly, RowsKept, JobsKept, SpacesKept, Release, OwnRow, StillAnchored, RowAdded;
  }

  lemma CompletionGoes(s: State, pid: nat, plan: ResolutionPlan)
    requires Goes(s, pid, plan) && pid in s.procs && s.procs[pid].pc == AtComplete && plan.op != plan.related
    requires CoordinatorStranded.ResolvesConflict(s.store, plan.op, plan.related)
             && s.store.ops[plan.op].hash == plan.hash
    ensures Goes(AdvanceResolve(s, pid, plan), pid, plan)
  {
    CompleteOutcome(s.store, plan);
    hide CompleteTx, MetaOnly, JobsKept, SpacesKept, Release;
  }

  lemma OtherGoes(s: State, pid: nat, plan: ResolutionPlan)
    requires Goes(s, pid, plan) && pid in s.procs && s.procs[pid].pc != AtClaim && s.procs[pid].pc != AtComplete
    ensures Goes(AdvanceResolve(s, pid, plan), pid, plan)
  {
    TransferOutcome(s.store, plan.op, plan.related);
    hide TransferTx, ReadProof, ClaimTx, CompleteTx, MetaOnly, JobsKept, SpacesKept, Release, RowAdded;
  }

  lemma StepGoes(s: State, pid: nat, plan: ResolutionPlan, reply: Reply)
    requires Inv(s) && Goes(s, pid, plan)
    ensures Goes(Next(s, Advance(pid, reply)), pid, plan)
  {
    hide Inv, AdvanceChild, AdvanceResolve, Goes;
    if pid in s.procs {
      assert s.procs[pid].job == ResolveJob(plan) by { assert Goes(s, pid, plan); JobOf(s, pid, plan); }
      var proc := s.procs[pid];
      if IsChildStage(proc.pc) && proc.pc.i < |proc.kids| {
        MetaUntouched(s, AdvanceChild(s, pid, proc.pc.i, reply), pid, plan);
      } else {
        ResolveGoes(s, pid, plan);
      }
    }
  }

  lemma JobOf(s: State, pid: nat, plan: ResolutionPlan)
    requires Goes(s, pid, plan) && pid in s.procs
    ensures s.procs[pid].job == ResolveJob(plan)
  {
  }

  lemma {:induction false} SoloGoes(s: State, pid: nat, plan: ResolutionPlan, uow: Uow, n: nat)
    requires Inv(s) && Goes(s, pid, plan)
    ensures Goes(Solo(s, pid, uow, n), pid, plan)
    decreases n
  {
    hide Inv, Goes, Next;
    if n > 0 {
      var action := Advance(pid, Reaction(s, pid, uow));
      StepGoes(s, pid, plan, Reaction(s, pid, uow));
      NextKeepsInv(s, action);
      SoloGoes(Next(s, action), pid, plan, uow, n - 1);
    }
  }

  lemma CrashGoes(s: State, pid: nat, plan: ResolutionPlan)
    requires Goes(s, pid, plan)
    ensures Goes(Next(s, Crash(pid)), pid, plan)
  {
  }

  lemma PlanBegins(s: State, pid: nat, command: Command, clock: Text)
    requires pid !in s.procs && ReadResolution(s.store, command, clock).Planned?
    ensures var plan := ReadResolution(s.store, command, clock).plan;
            && Goes(Next(s, BeginResolve(pid, command, clock)), pid, plan)
            && plan.op == command.id && plan.hash == Digest(command.payload - {"pair", "children"})
    ensures ResolveAsked(command)
  {
    ReadOutcome(s.store, command, clock);
    assert ResolveAsked(command) by { hide IsOperationId, NamesPair, ReadRefused, ReadReplayed, WinnerHash, LoserHash; }
    hide ReadResolution, ReadRefused, ReadReplayed, ResolveAsked, WinnerHash, LoserHash, IsOperationId, NamesPair,
         LeadsTo;
  }

  /** From every reached state: once a resolve command has brought the locator
      to active on itself, issuing it again, at any clock reading, is answered
      as already done. */
  lemma FinishedReplays(sessions: map<Key, SessionRow>, actions: seq<Action>, pid: nat, command: Command, clock: Text,
                        uow: Uow, n: nat, later: Text)
    requires var s := Reached(sessions, actions);
             pid !in s.procs && ReadResolution(s.store, command, clock).Planned?
    requires var t := Issue(Reached(sessions, actions), BeginResolve(pid, command, clock), pid, uow, n);
             t.store.locator != None && t.store.locator.value.state == ActiveState
    ensures var t := Issue(Reached(sessions, actions), BeginResolve(pid, command, clock), pid, uow, n);
            ReadResolution(t.store, command, later).Replayed?
  {
    hide Reached, Next, Solo, ReadResolution, ResolveAsked, Inv, Goes;
    var s, begin := Reached(sessions, actions), BeginResolve(pid, command, clock);
    var plan := ReadResolution(s.store, command, clock).plan;
    ReachedInv(sessions, actions);
    PlanBegins(s, pid, command, clock);
    NextKeepsInv(s, begin);
    SoloGoes(Next(s, begin), pid, plan, uow, n);
    SoloInv(Next(s, begin), pid, uow, n);
    var v := Solo(Next(s, begin), pid, uow, n);
    CrashGoes(v, pid, plan);
    NextKeepsInv(v, Crash(pid));
    GoneReplays(Next(v, Crash(pid)), pid, plan, command, later);
  }

  lemma {:induction false} SoloInv(s: State, pid: nat, uow: Uow, n: nat)
    requires Inv(s)
    ensures Inv(Solo(s, pid, uow, n))
    decreases n
  {
    hide Inv, Next;
    if n > 0 {
      var action := Advance(pid, Reaction(s, pid, uow));
      NextKeepsInv(s, action);
      SoloInv(Next(s, action), pid, uow, n - 1);
    }
  }

  lemma GoneReplays(t: State, pid: nat, plan: ResolutionPlan, command: Command, clock: Text)
    requires Inv(t) && Goes(t, pid, plan) && ResolveAsked(command)
    requires plan.op == command.id && plan.hash == Digest(command.payload - {"pair", "children"})
    requires t.store.locator != None && t.store.locator.value.state == ActiveState
    ensures ReadResolution(t.store, command, clock).Replayed?
  {
    hide ReadResolution, ResolveAsked, ConflictRow, UniqueResolutions, AnchorUnresolved, TableInv, ProcsInv;
    assert ResolutionRow(t.store, command.id);
    hide MetaInv;
    ReadOutcome(t.store, command, clock);
  }
}
