/** Every protocol step keeps the invariants of `CoordinatorSafety`. */
module CoordinatorSteps {
  import opened Symbols
  import opened CoordinationRows
  import opened ChildEvidence
  import opened CoordinatorTransactions
  import opened CoordinatorProtocol
  import opened CoordinatorSafety

  /** A step of command `pid`: what the others rely on is left alone. */
  ghost predicate Undisturbed(s: State, t: State, pid: nat) {
    && Evolves(s.store, t.store)
    && (forall q :: q in t.procs && q != pid ==> q in s.procs && t.procs[q] == s.procs[q])
    && (forall space ::
          space in s.leases && s.leases[space] != pid ==> space in t.leases && t.leases[space] == s.leases[space])
    && (forall k: Key :: k.space in s.leases && s.leases[k.space] != pid ==>
                           (k in t.store.envelopes ==> k in s.store.envelopes)
                           && (k in t.store.journal ==> k in s.store.journal))
    && (forall q :: q in t.procs && q != pid && t.procs[q].job.ActivateJob? ==>
                      t.procs[q].job.op in t.store.ops && t.store.ops[t.procs[q].job.op].phase == Claimed)
  }

  lemma StepKeepsInv(s: State, t: State, pid: nat)
    requires Inv(s) && MetaInv(t.store) && TableInv(t.store) && Undisturbed(s, t, pid)
    requires pid in t.procs ==> ProcOk(t, pid)
    requires pid in t.procs && t.procs[pid].job.ActivateJob? ==>
               forall q :: q in t.procs && q != pid ==> t.procs[q].job != t.procs[pid].job
    ensures Inv(t)
  {
    forall q | q in t.procs ensures ProcOk(t, q) {
      if q != pid {
        assert ProcOk(s, q);
        ProcFrame(s, t, q);
      }
    }
  }

  /** A step that writes nothing durable. */
  lemma QuietStep(s: State, t: State, pid: nat)
    requires Inv(s) && t.store == s.store
    requires t.procs.Keys <= s.procs.Keys && forall q :: q in t.procs && q != pid ==> t.procs[q] == s.procs[q]
    requires forall space ::
               space in s.leases && s.leases[space] != pid ==> space in t.leases && t.leases[space] == s.leases[space]
    requires pid in t.procs ==> t.procs[pid].job == s.procs[pid].job && ProcOk(t, pid)
    ensures Inv(t)
  {
    forall q | q in t.procs && q != pid && t.procs[q].job.ActivateJob?
      ensures t.procs[q].job.op in t.store.ops && t.store.ops[t.procs[q].job.op].phase == Claimed
    {
      assert ProcOk(s, q);
    }
    StepKeepsInv(s, t, pid);
  }

  lemma FinishKeepsInv(s: State, pid: nat)
    requires Inv(s)
    ensures Inv(Finish(s, pid))
  {
    QuietStep(s, Finish(s, pid), pid);
  }

  /** No conflict other than `op` leaves its first phase. */
  ghost predicate ClaimsKept(before: Store, after: Store, op: Text) {
    forall o ::
      o in before.ops && o != op && before.ops[o].kind == ActivateProvisional && before.ops[o].phase == Claimed ==>
        o in after.ops && after.ops[o].phase == Claimed
  }

  lemma OthersClaimed(s: State, t: State, pid: nat, op: Text)
    requires Inv(s) && Evolves(s.store, t.store)
    requires forall q :: q in t.procs && q != pid ==> q in s.procs && t.procs[q] == s.procs[q]
    requires forall q :: q in s.procs && q != pid ==> s.procs[q].job != ActivateJob(op)
    requires ClaimsKept(s.store, t.store, op)
    ensures forall q :: q in t.procs && q != pid && t.procs[q].job.ActivateJob? ==>
                          t.procs[q].job.op in t.store.ops && t.store.ops[t.procs[q].job.op].phase == Claimed
  {
    forall q | q in t.procs && q != pid && t.procs[q].job.ActivateJob?
      ensures t.procs[q].job.op in t.store.ops && t.store.ops[t.procs[q].job.op].phase == Claimed
    {
      assert ProcOk(s, q);
    }
  }

  // ------------------------------------------------------ Meta transactions

  predicate TablesKept(before: Store, after: Store) {
    after.envelopes == before.envelopes && after.receipts == before.receipts && after.journal == before.journal
  }

  /** A Meta transaction about operation `op` that leaves no command behind. */
  lemma InstallAlone(s: State, store: Store, pid: nat, op: Text)
    requires Inv(s) && MetaInv(store) && TablesKept(s.store, store) && Evolves(s.store, store)
    requires pid !in s.procs
    requires forall q :: q in s.procs ==> s.procs[q].job != ActivateJob(op)
    requires ClaimsKept(s.store, store, op)
    ensures Inv(WithStore(s, store))
  {
    hide ProcsInv, ProcOk, Evolves, MetaInv, TableInv, ClaimsKept;
    TableFrame(s.store, store);
    var t := WithStore(s, store);
    OthersClaimed(s, t, pid, op);
    StepKeepsInv(s, t, pid);
  }

  /** The same, with the command waiting at its next stage without a lease. */
  lemma Install(s: State, store: Store, pid: nat, proc: Proc, op: Text)
    requires Inv(s) && MetaInv(store) && TablesKept(s.store, store) && Evolves(s.store, store)
    requires forall q :: q in s.procs && q != pid ==> s.procs[q].job != ActivateJob(op)
    requires ClaimsKept(s.store, store, op)
    requires ProcMeta(store, proc) && ProcProgress(store, proc) && !Leasing(proc.pc)
    requires proc.job.ActivateJob? ==> proc.job == ActivateJob(op)
    ensures Inv(Spawn(WithStore(s, store), pid, proc))
  {
    hide ProcsInv, ProcMeta, ProcProgress, Evolves, MetaInv, TableInv, ClaimsKept;
    TableFrame(s.store, store);
    var t := Spawn(WithStore(s, store), pid, proc);
    OthersClaimed(s, t, pid, op);
    StepKeepsInv(s, t, pid);
  }

  /** The same, for a command that is finished by its transaction. */
  lemma InstallFinish(s: State, store: Store, pid: nat, op: Text)
    requires Inv(s) && MetaInv(store) && TablesKept(s.store, store) && Evolves(s.store, store)
    requires forall q :: q in s.procs && q != pid ==> s.procs[q].job != ActivateJob(op)
    requires ClaimsKept(s.store, store, op)
    ensures Inv(Finish(WithStore(s, store), pid))
  {
    hide ProcsInv, ProcOk, Evolves, MetaInv, TableInv, ClaimsKept;
    TableFrame(s.store, store);
    var t := Finish(WithStore(s, store), pid);
    OthersClaimed(s, t, pid, op);
    StepKeepsInv(s, t, pid);
  }

  /** A new row that is neither a conflict nor a resolution. */
  lemma InsertMeta(before: Store, after: Store, op: Text)
    requires MetaInv(before) && op !in before.ops && op in after.ops && TablesKept(before, after)
    requires after.ops == before.ops[op := after.ops[op]]
    requires after.ops[op].kind !in {ActivateProvisional, ResolveConflict}
    requires after.locator.Some? && (after.locator.value.operation == op || after.locator == before.locator)
    ensures MetaInv(after) && Evolves(before, after)
  {
    MetaOnlyEvolves(before, after);
    MetaFrame(before, after, {op});
  }

  /** A command in flight only ever owns a persisted conflict. */
  lemma NoOwner(s: State, op: Text)
    requires ProcsInv(s) && (op in s.store.ops ==> s.store.ops[op].kind != ActivateProvisional)
    ensures forall q :: q in s.procs ==> s.procs[q].job != ActivateJob(op)
  {
    forall q | q in s.procs ensures s.procs[q].job != ActivateJob(op) {
      assert ProcOk(s, q);
    }
  }

  lemma Still(store: Store)
    ensures Evolves(store, store)
  {
  }

  lemma StartStep(s: State, pid: nat, command: Command)
    requires Inv(s)
    ensures Inv(Next(s, BeginStart(pid, command))) && Evolves(s.store, Next(s, BeginStart(pid, command)).store)
  {
    Still(s.store);
    hide MetaInv, TableInv, ProcsInv, Evolves;
    var t := Next(s, BeginStart(pid, command));
    if t != s {
      InsertMeta(s.store, t.store, command.id);
      NoOwner(s, command.id);
      Install(s, t.store, pid, t.procs[pid], command.id);
    }
  }

  /** Rotating the locator onto a row that is no conflict. */
  lemma RotateMeta(before: Store, after: Store)
    requires MetaInv(before) && after.ops == before.ops && TablesKept(before, after)
    requires after.locator.Some? ==> after.locator.value.operation in after.ops
                                     && after.ops[after.locator.value.operation].kind != ActivateProvisional
    ensures MetaInv(after) && Evolves(before, after)
  {
    MetaOnlyEvolves(before, after);
    MetaFrame(before, after, {});
  }

  lemma TouchStep(s: State, command: Command, kind: Kind)
    requires Inv(s)
    ensures Inv(Next(s, Touch(command, kind))) && Evolves(s.store, Next(s, Touch(command, kind)).store)
  {
    Still(s.store);
    hide MetaInv, TableInv, ProcsInv, Evolves;
    var t := Next(s, Touch(command, kind));
    if t != s {
      var pid := Unused(s.procs.Keys);
      if command.id in s.store.ops {
        RotateMeta(s.store, t.store);
      } else {
        InsertMeta(s.store, t.store, command.id);
      }
      NoOwner(s, command.id);
      InstallAlone(s, t.store, pid, command.id);
    }
  }

  /** A command number that is not in use. */
  ghost function Unused(pids: set<nat>): (pid: nat)
    ensures forall p :: p in pids ==> p < pid
  {
    if pids == {} then 0 else
    var p :| p in pids;
    var rest := Unused(pids - {p});
    assert pids == pids - {p} + {p};
    if p < rest then rest else p + 1
  }

  lemma EndStep(s: State, pid: nat, command: Command)
    requires Inv(s)
    ensures Inv(Next(s, BeginEnd(pid, command))) && Evolves(s.store, Next(s, BeginEnd(pid, command)).store)
  {
    Still(s.store);
    hide MetaInv, TableInv, ProcsInv, Evolves;
    var t := Next(s, BeginEnd(pid, command));
    if t != s {
      InsertMeta(s.store, t.store, command.id);
      NoOwner(s, command.id);
      Install(s, t.store, pid, t.procs[pid], command.id);
    }
  }

  lemma ActivateMeta(before: Store, command: Command)
    requires MetaInv(before) && ActivateTx(before, command).Ok?
    ensures var after := ActivateTx(before, command).value;
            && MetaInv(after) && Evolves(before, after) && TablesKept(before, after) && command.id !in before.ops
            && ClaimsKept(before, after, command.id)
  {
    hide NewConflict, ConflictPair, IsOperationId;
    var after, op := ActivateTx(before, command).value, command.id;
    MetaOnlyEvolves(before, after);
    forall r | r in after.ops && after.ops[r].kind == ResolveConflict ensures after.ops[r].related != Some(op) {
      assert RowOk(before, r);
    }
    MetaFrame(before, after, {op});
  }

  lemma ActivateProc(before: Store, command: Command)
    requires ActivateTx(before, command).Ok?
    ensures ConflictPair(command.payload).Some?
    ensures var after := ActivateTx(before, command).value;
            var proc := Proc(ActivateJob(command.id), ConflictChildren(command, ConflictPair(command.payload).value),
                             None, AtLease(0));
            ProcMeta(after, proc) && ProcProgress(after, proc)
  {
    hide NewConflict, ChildHash, ConflictChildPayload, ConflictPair, IsOperationId;
  }

  lemma ActivateStep(s: State, pid: nat, command: Command)
    requires Inv(s)
    ensures Inv(Next(s, BeginActivate(pid, command))) && Evolves(s.store, Next(s, BeginActivate(pid, command)).store)
  {
    Still(s.store);
    hide ActivateTx, ConflictPair, ConflictChildren, MetaInv, TableInv, ProcsInv, Evolves, ProcMeta, ProcProgress;
    var t := Next(s, BeginActivate(pid, command));
    if t != s {
      var store := ActivateTx(s.store, command).value;
      var proc := Proc(ActivateJob(command.id), ConflictChildren(command, ConflictPair(command.payload).value), None,
                       AtLease(0));
      assert t == Spawn(WithStore(s, store), pid, proc);
      ActivateMeta(s.store, command);
      ActivateProc(s.store, command);
      NoOwner(s, command.id);
      Install(s, store, pid, proc, command.id);
    }
  }

  lemma MakePlanIsOk(store: Store, command: Command, related: Text, pair: Pair, winner: Side, epoch: int,
                     isRestart: bool, clock: Text)
    requires related in store.ops && store.ops[related].kind == ActivateProvisional
    requires store.ops[related].intent.pair == Some(pair) && WinnerSide(command.payload) == Some(winner)
    requires isRestart ==> command.id in store.ops
    ensures PlanOk(store, MakePlan(command, related, pair, winner, epoch, isRestart, clock))
  {
  }

  lemma PlanIsOk(store: Store, command: Command, clock: Text)
    requires MetaInv(store) && ReadResolution(store, command, clock).Planned?
    ensures PlanOk(store, ReadResolution(store, command, clock).plan)
  {
    hide MakePlan, IsOperationId, ConflictPair, WinnerSide, PlanOk, Truthy, PyStr, BothProven;
    var locator := store.locator.value;
    var isRestart := locator.operation == command.id;
    assert RowOk(store, locator.operation);
    var related := if isRestart then store.ops[command.id].related.value else locator.operation;
    MakePlanIsOk(store, command, related, store.ops[related].intent.pair.value,
                 WinnerSide(command.payload).value, locator.epoch, isRestart, clock);
  }

  lemma SpawnStep(s: State, pid: nat, proc: Proc)
    requires Inv(s) && pid !in s.procs && !proc.job.ActivateJob? && !Leasing(proc.pc)
    requires ProcMeta(s.store, proc) && ProcProgress(s.store, proc)
    ensures Inv(Spawn(s, pid, proc)) && Evolves(s.store, s.store)
  {
    var t := Spawn(s, pid, proc);
    forall q | q in t.procs && q != pid && t.procs[q].job.ActivateJob?
      ensures t.procs[q].job.op in t.store.ops && t.store.ops[t.procs[q].job.op].phase == Claimed
    {
      assert ProcOk(s, q);
    }
    StepKeepsInv(s, t, pid);
  }

  lemma ResolveStep(s: State, pid: nat, command: Command, clock: Text)
    requires Inv(s)
    ensures Inv(Next(s, BeginResolve(pid, command, clock)))
    ensures Evolves(s.store, Next(s, BeginResolve(pid, command, clock)).store)
  {
    Still(s.store);
    hide MetaInv, TableInv, ProcsInv, Evolves, ReadResolution, PlanOk;
    var t := Next(s, BeginResolve(pid, command, clock));
    if t != s {
      PlanIsOk(s.store, command, clock);
      var plan := ReadResolution(s.store, command, clock).plan;
      SpawnStep(s, pid, Proc(ResolveJob(plan), plan.kids, None, AtClaim));
    }
  }

  /** Two payloads with one contract hash name the same winner. */
  lemma SameHashSameWinner(a: Payload, b: Payload)
    requires ContractHash(a) == ContractHash(b)
    ensures WinnerSide(a) == WinnerSide(b)
  {
    var keys := {"pair", "children"};
    assert Get(Without(a, keys), "winner_role") == Get(a, "winner_role");
    assert Get(Without(b, keys), "winner_role") == Get(b, "winner_role");
  }

  /** The claim's CAS succeeds only from the conflict itself, so nobody can
      have resolved it before; an anchored locator always has its operation row,
      so the rolled-back branch is never taken. */
  lemma ClaimMeta(before: Store, plan: ResolutionPlan)
    requires MetaInv(before) && PlanOk(before, plan) && plan.op !in before.ops && ClaimTx(before, plan).Ok?
    ensures var after := ClaimTx(before, plan).value;
            MetaInv(after) && Evolves(before, after) && TablesKept(before, after)
            && plan.op in after.ops && after.ops == before.ops[plan.op := NewResolution(plan)]
  {
    hide NamedPlace, JournalOutcome, KidIs, Proven, WinnerSide, ContractHash;
    var after := ClaimTx(before, plan).value;
    assert before.locator.value.operation == plan.related;
    MetaOnlyEvolves(before, after);
    MetaFrame(before, after, {plan.op});
  }

  lemma ClaimStep(s: State, pid: nat, plan: ResolutionPlan)
    requires Inv(s) && pid in s.procs && s.procs[pid].job == ResolveJob(plan) && s.procs[pid].pc == AtClaim
    requires plan.op !in s.store.ops && ClaimTx(s.store, plan).Ok?
    ensures var t := Goto(WithStore(s, ClaimTx(s.store, plan).value), pid, AtProof);
            Inv(t) && Evolves(s.store, t.store)
  {
    hide MetaInv, TableInv, Evolves, ProcMeta, ProcProgress, ProcLease;
    assert ProcOk(s, pid);
    ClaimingPlan(s.store, plan, s.procs[pid]);
    hide ProcsInv, PlanOk, NewResolution;
    ClaimMeta(s.store, plan);
    ClaimedProc(s.store, ClaimTx(s.store, plan).value, plan, s.procs[pid]);
    hide ClaimTx, MetaOnly, RowsKept, KidIs;
    NoOwner(s, plan.op);
    Install(s, ClaimTx(s.store, plan).value, pid, s.procs[pid].(pc := AtProof), plan.op);
  }

  lemma ClaimingPlan(store: Store, plan: ResolutionPlan, proc: Proc)
    requires ProcMeta(store, proc) && proc.job == ResolveJob(plan)
    ensures PlanOk(store, plan)
  {
    hide PlanOk;
  }

  lemma ClaimedProc(before: Store, after: Store, plan: ResolutionPlan, proc: Proc)
    requires ProcMeta(before, proc) && ProcProgress(before, proc) && proc.job == ResolveJob(plan) && proc.pc == AtClaim
    requires plan.op !in before.ops && after.ops == before.ops[plan.op := NewResolution(plan)]
    ensures ProcMeta(after, proc.(pc := AtProof)) && ProcProgress(after, proc.(pc := AtProof))
  {
    hide KidIs, ContractHash, WinnerSide;
  }

  /** A claim that finds its own row already persisted. */
  lemma ReclaimStep(s: State, pid: nat, plan: ResolutionPlan)
    requires Inv(s) && pid in s.procs && s.procs[pid].job == ResolveJob(plan) && s.procs[pid].pc == AtClaim
    requires plan.op in s.store.ops && ClaimTx(s.store, plan).Ok?
    ensures ClaimTx(s.store, plan) == Ok(s.store) && Inv(Goto(s, pid, AtProof))
  {
    hide MetaInv, TableInv, PlanOk;
    assert ProcOk(s, pid);
    hide ProcsInv;
    QuietStep(s, Goto(s, pid, AtProof), pid);
  }

  // ----------------------------------------------------- the other Meta steps

  /** The command's children are exactly the ones its operation names. */
  predicate KidOwned(store: Store, kid: Child, op: Text) {
    && op in store.ops && store.ops[op].intent.pair.Some? && RoleFits(store.ops[op].kind, kid.role)
    && KidIs(kid, op, store.ops[op].intent, kid.role)
  }

  predicate AmongChildren(pc: Pc) {
    IsChildStage(pc) || pc.AtPhase? || pc.AtComplete?
  }

  lemma KidsOwned(s: State, pid: nat) returns (op: Text)
    requires MetaInv(s.store) && pid in s.procs && ProcMeta(s.store, s.procs[pid]) && AmongChildren(s.procs[pid].pc)
    ensures var kids := s.procs[pid].kids;
            && |kids| == 2 && KidOwned(s.store, kids[0], op) && KidOwned(s.store, kids[1], op)
            && ((kids[0].role == Candidate && kids[1].role == Active && s.procs[pid].job == ActivateJob(op))
                || (kids[0].role == Winner && kids[1].role == Loser && s.procs[pid].job.ResolveJob?
                    && s.procs[pid].job.plan.op == op))
  {
    match s.procs[pid].job
    case ActivateJob(id) => op := id;
    case ResolveJob(plan) =>
      op := plan.op;
      assert RowOk(s.store, op);
      SameHashSameWinner(plan.intent.business, s.store.ops[op].intent.business);
      hide ContractHash, WinnerSide;
  }

  /** `awaiting_resolution` is written only after both children are proven. */
  lemma AwaitMeta(before: Store, op: Text)
    requires MetaInv(before) && op in before.ops && before.ops[op].kind == ActivateProvisional
             && before.ops[op].phase == Claimed
    requires BothProven(before, op, Candidate, Active)
    ensures var after := AwaitTx(before, op).value;
            MetaInv(after) && Evolves(before, after) && ClaimsKept(before, after, op)
  {
    hide ContractHash, WinnerSide, NamedPlace, JournalOutcome;
    var after := AwaitTx(before, op).value;
    MetaOnlyEvolves(before, after);
    assert RowOk(before, op);
    MetaFrame(before, after, {op});
  }

  lemma AwaitStep(s: State, pid: nat, op: Text)
    requires Inv(s) && pid in s.procs && s.procs[pid].job == ActivateJob(op) && s.procs[pid].pc == AtPhase
    ensures AwaitTx(s.store, op).Ok?
    ensures var store := AwaitTx(s.store, op).value;
            Inv(Finish(WithStore(s, store), pid)) && Evolves(s.store, store)
  {
    hide MetaInv, TableInv, Evolves;
    assert ProcOk(s, pid);
    var id := KidsOwned(s, pid);
    assert forall q :: q in s.procs && q != pid ==> s.procs[q].job != ActivateJob(op);
    hide ProcsInv;
    AwaitMeta(s.store, op);
    InstallFinish(s, AwaitTx(s.store, op).value, pid, op);
  }

  lemma ProofsMove(before: Store, after: Store, op: Text, first: Role, second: Role)
    requires Evolves(before, after) && op in before.ops && before.ops[op].intent.pair.Some?
    ensures op in after.ops && after.ops[op].intent == before.ops[op].intent
    ensures BothProven(before, op, first, second) ==> BothProven(after, op, first, second)
  {
  }

  /** Changing phases disturbs neither uniqueness nor the anchor. */
  lemma IdentityKeepsUnique(before: Store, after: Store)
    requires MetaInv(before) && after.ops.Keys == before.ops.Keys
    requires forall o :: o in before.ops ==> SameIdentity(before.ops[o], after.ops[o])
    requires after.locator.Some? ==>
               before.locator.Some? && after.locator.value.operation == before.locator.value.operation
    ensures UniqueResolutions(after) && AnchorUnresolved(after)
    ensures after.locator.Some? ==> after.locator.value.operation in after.ops
  {
    hide ConflictRow, ResolutionRow;
  }

  lemma TransferredRow(before: Store, after: Store, op: Text)
    requires op in before.ops && before.ops[op].kind == ResolveConflict && ResolutionRow(before, op)
    requires after == before.(ops := before.ops[op := before.ops[op].(phase := Transferred)])
    requires before.ops[op].phase == Claimed && BothProven(after, op, Winner, Loser)
    requires before.ops[op].related != Some(op)
    ensures RowOk(after, op)
  {
    hide ContractHash, WinnerSide, BothProven;
  }

  lemma TransferMeta(before: Store, op: Text, related: Text)
    requires MetaInv(before) && op in before.ops && before.ops[op].kind == ResolveConflict
    requires BothProven(before, op, Winner, Loser) && TransferTx(before, op, related).Ok?
    ensures var after := TransferTx(before, op, related).value;
            && MetaInv(after) && Evolves(before, after) && ClaimsKept(before, after, op)
            && TablesKept(before, after)
  {
    hide BothProven, UniqueResolutions, AnchorUnresolved, ResolutionRow, ConflictRow;
    var after := TransferTx(before, op, related).value;
    Still(before);
    if before.ops[op].phase == Claimed {
      MetaOnlyEvolves(before, after);
      IdentityKeepsUnique(before, after);
      RelatedIsConflict(before, op);
      ProofsMove(before, after, op, Winner, Loser);
      TransferredRow(before, after, op);
      hide Evolves, MetaInv;
      MetaFrame(before, after, {op});
    }
  }

  lemma RelatedIsConflict(store: Store, op: Text)
    requires MetaInv(store) && op in store.ops && store.ops[op].kind == ResolveConflict
    ensures ResolutionRow(store, op) && store.ops[op].related != Some(op) && store.ops[op].intent.pair.Some?
  {
    assert ResolutionRow(store, op);
  }

  lemma TransferStep(s: State, pid: nat, plan: ResolutionPlan)
    requires Inv(s) && pid in s.procs && s.procs[pid].job == ResolveJob(plan) && s.procs[pid].pc == AtPhase
    requires TransferTx(s.store, plan.op, plan.related).Ok?
    ensures var store := TransferTx(s.store, plan.op, plan.related).value;
            Inv(Goto(WithStore(s, store), pid, AtComplete)) && Evolves(s.store, store)
  {
    hide MetaInv, TableInv, Evolves, TransferTx, PlanOk;
    assert ProcOk(s, pid);
    var op := KidsOwned(s, pid);
    NoOwner(s, op);
    hide ProcsInv;
    var store := TransferTx(s.store, plan.op, plan.related).value;
    TransferMeta(s.store, op, plan.related);
    ProcStays(s.store, store, s.procs[pid], AtComplete);
    Install(s, store, pid, s.procs[pid].(pc := AtComplete), op);
  }

  /** What a command knows, at a later stage that needs no more. */
  lemma ProcStays(before: Store, after: Store, proc: Proc, pc: Pc)
    requires Evolves(before, after) && ProcMeta(before, proc) && ProcProgress(before, proc)
    requires proc.job.ResolveJob? && proc.pc.AtPhase? && pc.AtComplete?
    ensures ProcMeta(after, proc.(pc := pc)) && ProcProgress(after, proc.(pc := pc))
  {
    hide WinnerSide, ContractHash;
  }

  lemma CompletedRows(before: Store, plan: ResolutionPlan)
    requires CompleteTx(before, plan).Ok? && plan.op in before.ops && plan.related in before.ops
    requires before.ops[plan.op].kind == ResolveConflict && ResolutionRow(before, plan.op)
    requires before.ops[plan.related].kind == ActivateProvisional && ConflictRow(before, plan.related)
    requires Evolves(before, CompleteTx(before, plan).value)
    ensures RowOk(CompleteTx(before, plan).value, plan.op) && RowOk(CompleteTx(before, plan).value, plan.related)
  {
    hide ContractHash, WinnerSide, Proven, NamedPlace;
  }

  /** The three completion updates happen together; only this resolution can
      be the one the conflict is completed by. */
  lemma CompleteMeta(before: Store, plan: ResolutionPlan)
    requires MetaInv(before) && CompleteTx(before, plan).Ok? && before.ops[plan.op].kind == ResolveConflict
    requires before.ops[plan.related].kind == ActivateProvisional
    ensures var after := CompleteTx(before, plan).value;
            && MetaInv(after) && Evolves(before, after) && ClaimsKept(before, after, plan.op)
            && TablesKept(before, after)
  {
    hide BothProven, UniqueResolutions, AnchorUnresolved, ResolutionRow, ConflictRow;
    var after := CompleteTx(before, plan).value;
    MetaOnlyEvolves(before, after);
    IdentityKeepsUnique(before, after);
    CompletedRows(before, plan);
    hide Evolves, MetaInv;
    MetaFrame(before, after, {plan.op, plan.related});
  }

  lemma CompleteStep(s: State, pid: nat, plan: ResolutionPlan)
    requires Inv(s) && pid in s.procs && s.procs[pid].job == ResolveJob(plan) && s.procs[pid].pc == AtComplete
    requires CompleteTx(s.store, plan).Ok?
    ensures var store := CompleteTx(s.store, plan).value;
            Inv(Finish(WithStore(s, store), pid)) && Evolves(s.store, store)
  {
    hide MetaInv, TableInv, Evolves, CompleteTx;
    assert ProcOk(s, pid);
    NoOwner(s, plan.op);
    hide ProcsInv;
    CompleteMeta(s.store, plan);
    InstallFinish(s, CompleteTx(s.store, plan).value, pid, plan.op);
  }

  lemma RotateStep(s: State, pid: nat, op: Text, previous: Text)
    requires Inv(s) && pid in s.procs && s.procs[pid].job == EndJob(op, previous) && s.procs[pid].pc == AtRotate
    requires EndRotateTx(s.store, op, previous).Ok?
    ensures var store := EndRotateTx(s.store, op, previous).value;
            Inv(Goto(WithStore(s, store), pid, AtRelease)) && Evolves(s.store, store)
  {
    hide MetaInv, TableInv, Evolves;
    assert ProcOk(s, pid);
    NoOwner(s, op);
    hide ProcsInv;
    RotateMeta(s.store, EndRotateTx(s.store, op, previous).value);
    Install(s, EndRotateTx(s.store, op, previous).value, pid, s.procs[pid].(pc := AtRelease), op);
  }

  lemma ReleaseStep(s: State, pid: nat, op: Text, previous: Text)
    requires Inv(s) && pid in s.procs && s.procs[pid].job == EndJob(op, previous) && s.procs[pid].pc == AtRelease
    ensures var store := EndReleaseTx(s.store);
            Inv(Finish(WithStore(s, store), pid)) && Evolves(s.store, store)
  {
    hide MetaInv, TableInv, Evolves;
    assert ProcOk(s, pid);
    NoOwner(s, op);
    hide ProcsInv;
    RotateMeta(s.store, EndReleaseTx(s.store));
    InstallFinish(s, EndReleaseTx(s.store), pid, op);
  }

  // ------------------------------------------------------------ child steps

  /** A durable Space write about one child key. */
  lemma EvidenceMeta(before: Store, after: Store)
    requires MetaInv(before) && Evolves(before, after) && after.ops == before.ops && after.locator == before.locator
    ensures MetaInv(after)
  {
    MetaFrame(before, after, {});
  }

  /** Only rows of one leased key were added; the command moves on or is gone. */
  lemma ChildWrite(s: State, t: State, pid: nat, key: Key)
    requires Inv(s) && MetaInv(t.store) && TableInv(t.store) && Evolves(s.store, t.store) && t.store.ops == s.store.ops
    requires forall q :: q in t.procs && q != pid ==> q in s.procs && t.procs[q] == s.procs[q]
    requires forall space ::
               space in s.leases && s.leases[space] != pid ==> space in t.leases && t.leases[space] == s.leases[space]
    requires t.store.envelopes.Keys <= s.store.envelopes.Keys + {key}
             && t.store.journal.Keys <= s.store.journal.Keys + {key}
    requires key.space in s.leases && s.leases[key.space] == pid
    requires pid in s.procs && (pid in t.procs ==> t.procs[pid].job == s.procs[pid].job && ProcOk(t, pid))
    ensures Inv(t)
  {
    hide MetaInv, TableInv, Evolves, ProcMeta, ProcProgress;
    assert ProcsInv(s);
    ClaimsKeptSame(s.store, t.store);
    OthersClaimedAlike(s, t, pid);
    StepKeepsInv(s, t, pid);
  }

  lemma ClaimsKeptSame(before: Store, after: Store)
    requires after.ops == before.ops
    ensures forall op :: ClaimsKept(before, after, op)
  {
  }

  lemma OthersClaimedAlike(s: State, t: State, pid: nat)
    requires Inv(s) && t.store.ops == s.store.ops
    requires forall q :: q in t.procs && q != pid ==> q in s.procs && t.procs[q] == s.procs[q]
    ensures forall q :: q in t.procs && q != pid && t.procs[q].job.ActivateJob? ==>
                          t.procs[q].job.op in t.store.ops && t.store.ops[t.procs[q].job.op].phase == Claimed
  {
    hide MetaInv, TableInv;
    forall q | q in t.procs && q != pid && t.procs[q].job.ActivateJob?
      ensures t.procs[q].job.op in t.store.ops && t.store.ops[t.procs[q].job.op].phase == Claimed
    {
      assert ProcOk(s, q);
    }
  }

  lemma OwnedKept(before: Store, after: Store)
    requires Evolves(before, after) && after.ops == before.ops
    ensures forall k :: OwnedEnvelope(before, k) ==> OwnedEnvelope(after, k)
  {
    hide NamedPlace, SideOf, QueryOriginal;
  }

  lemma EnvelopeTables(before: Store, after: Store, key: Key, envelope: Envelope)
    requires MetaInv(before) && TableInv(before) && after == before.(envelopes := before.envelopes[key := envelope])
    requires key !in before.envelopes && OwnedEnvelope(before, key)
    ensures MetaInv(after) && TableInv(after) && Evolves(before, after)
  {
    hide OwnedEnvelope, ConflictRow, ResolutionRow, UniqueResolutions, AnchorUnresolved, QueryOriginal;
    assert Evolves(before, after);
    hide Evolves, MetaInv;
    EvidenceMeta(before, after);
    OwnedKept(before, after);
  }

  lemma JournalTables(before: Store, after: Store, key: Key, entry: JournalEntry)
    requires MetaInv(before) && TableInv(before) && key in before.envelopes
    requires after == before.(journal := before.journal[key := entry], sessions := after.sessions)
    requires !AppliedAt(before, key)
    ensures MetaInv(after) && TableInv(after) && Evolves(before, after)
  {
    hide OwnedEnvelope, ConflictRow, ResolutionRow, UniqueResolutions, AnchorUnresolved, QueryOriginal;
    assert forall k :: k != key ==> JournalOutcome(after, k) == JournalOutcome(before, k);
    assert Evolves(before, after);
    hide Evolves, MetaInv;
    EvidenceMeta(before, after);
    OwnedKept(before, after);
  }

  lemma ReceiptTables(before: Store, after: Store, key: Key, state: ReceiptState)
    requires MetaInv(before) && TableInv(before) && after == before.(receipts := before.receipts[key := state])
    requires key in before.envelopes && key !in before.receipts && (state == Succeeded ==> AppliedAt(before, key))
    ensures MetaInv(after) && TableInv(after) && Evolves(before, after)
  {
    hide OwnedEnvelope, ConflictRow, ResolutionRow, UniqueResolutions, AnchorUnresolved, QueryOriginal;
    assert Evolves(before, after);
    hide Evolves, MetaInv;
    EvidenceMeta(before, after);
    OwnedKept(before, after);
  }

  /** What a command in a child stage knows about that child. */
  lemma ChildFacts(s: State, pid: nat, i: nat)
    requires Inv(s) && pid in s.procs && IsChildStage(s.procs[pid].pc) && s.procs[pid].pc.i == i
    ensures var kids := s.procs[pid].kids;
            && |kids| == 2 && i < 2 && OwnedIfFirstProven(s.store, kids, i)
            && kids[0].At() != kids[1].At()
            && ProcMeta(s.store, s.procs[pid]) && ProcProgress(s.store, s.procs[pid]) && ProcLease(s, pid)
  {
    hide TableInv, MetaInv;
    assert ProcOk(s, pid);
    hide ProcsInv, ProcLease;
    var op := KidsOwned(s, pid);
    hide ProcMeta, ProcProgress, KidOwned, OwnedIfFirstProven;
    assert i < 2 by { assert ProcProgress(s.store, s.procs[pid]); }
    OwnedKids(s.store, s.procs[pid].kids, op, i);
  }

  lemma OwnedKids(store: Store, kids: seq<Child>, op: Text, i: nat)
    requires |kids| == 2 && i < 2 && KidOwned(store, kids[0], op) && KidOwned(store, kids[1], op)
    requires (kids[0].role == Candidate && kids[1].role == Active) || (kids[0].role == Winner && kids[1].role == Loser)
    ensures OwnedIfFirstProven(store, kids, i) && kids[0].At() != kids[1].At()
  {
    hide NamedPlace, SideOf, Proven;
  }

  predicate OwnedIfFirstProven(store: Store, kids: seq<Child>, i: nat)
    requires |kids| == 2 && i < 2
  {
    (i == 1 ==> Proven(store, kids[0].At())) ==> OwnedEnvelope(store, kids[i].At())
  }

  /** A command may rest at any stage whose knowledge it has; only the pc changes. */
  lemma PcKeepsMeta(store: Store, proc: Proc, pc: Pc)
    requires ProcMeta(store, proc) && IsChildStage(proc.pc) && (IsChildStage(pc) || pc.AtPhase?)
    ensures ProcMeta(store, proc.(pc := pc))
  {
  }

  /** Moving to another stage without a durable write. */
  lemma Move(s: State, leases: map<Text, nat>, pid: nat, pc: Pc)
    requires Inv(s) && pid in s.procs && ProcMeta(s.store, s.procs[pid]) && IsChildStage(s.procs[pid].pc)
    requires IsChildStage(pc) || pc.AtPhase?
    requires forall space ::
               space in s.leases && s.leases[space] != pid ==> space in leases && leases[space] == s.leases[space]
    requires ProcProgress(s.store, s.procs[pid].(pc := pc)) && ProcLease(Goto(s.(leases := leases), pid, pc), pid)
    ensures Inv(Goto(s.(leases := leases), pid, pc))
  {
    hide MetaInv, TableInv, Evolves, ProcsInv, ProcProgress, ProcLease;
    PcKeepsMeta(s.store, s.procs[pid], pc);
    hide ProcMeta;
    QuietStep(s, Goto(s.(leases := leases), pid, pc), pid);
  }

  lemma LeaseStep(s: State, pid: nat, i: nat, reply: Reply)
    requires Inv(s) && pid in s.procs && s.procs[pid].pc == AtLease(i) && i < |s.procs[pid].kids|
    ensures var t := AdvanceChild(s, pid, i, reply); Inv(t) && t.store == s.store
  {
    hide Inv, ProcMeta;
    ChildFacts(s, pid, i);
    var space := s.procs[pid].kids[i].place.space;
    if space !in s.leases {
      Move(s, s.leases[space := pid], pid, AtDecide(i));
    }
  }

  /** The child is settled; the next one starts, or the proofs are re-read. */
  lemma NextChildStep(s: State, pid: nat, i: nat)
    requires Inv(s) && pid in s.procs && IsChildStage(s.procs[pid].pc) && s.procs[pid].pc.i == i
             && !s.procs[pid].pc.AtVerify?
    requires i < |s.procs[pid].kids| && Proven(s.store, s.procs[pid].kids[i].At())
    ensures Inv(NextChild(s, pid, i))
  {
    hide Inv, ProcMeta, Proven;
    ChildFacts(s, pid, i);
    Move(s, Release(s, pid).leases, pid, if i + 1 < 2 then AtLease(i + 1) else AtVerify(0));
  }

  lemma DecideStep(s: State, pid: nat, i: nat, reply: Reply)
    requires Inv(s) && pid in s.procs && s.procs[pid].pc == AtDecide(i) && i < |s.procs[pid].kids|
    ensures var t := AdvanceChild(s, pid, i, reply); Inv(t) && t.store == s.store
  {
    hide Inv, ProcMeta;
    ChildFacts(s, pid, i);
    var child := s.procs[pid].kids[i];
    DecisionIsSound(s.store, child);
    RestoreNeedsApplied(s.store, child);
    FinishKeepsInv(s, pid);
    hide Decide, QueryOriginal;
    match Decide(s.store, child)
    case Execute(exists_) => Move(s, s.leases, pid, if exists_ then AtExecute(i) else AtEnvelope(i));
    case AlreadySucceeded => NextChildStep(s, pid, i);
    case RestoreSucceededReceipt => Move(s, s.leases, pid, AtReceipt(i, Succeeded));
    case _ =>
  }

  lemma RestoreNeedsApplied(store: Store, child: Child)
    ensures Decide(store, child) == RestoreSucceededReceipt ==>
              AppliedAt(store, child.At()) && child.At() in store.envelopes
  {
    hide QueryOriginal;
  }

  lemma ReadBackStep(s: State, pid: nat, i: nat, reply: Reply)
    requires Inv(s) && pid in s.procs && s.procs[pid].pc == AtReadBack(i) && i < |s.procs[pid].kids|
    ensures var t := AdvanceChild(s, pid, i, reply); Inv(t) && t.store == s.store
  {
    hide MetaInv, ProcsInv;
    ChildFacts(s, pid, i);
    var child := s.procs[pid].kids[i];
    FinishKeepsInv(s, pid);
    if Lookup(s.store.receipts, child.At()) == Some(Succeeded) {
      assert Proven(s.store, child.At());
      NextChildStep(s, pid, i);
    }
  }

  lemma VerifyStep(s: State, pid: nat, i: nat, reply: Reply)
    requires Inv(s) && pid in s.procs && s.procs[pid].pc == AtVerify(i) && i < |s.procs[pid].kids|
    ensures var t := AdvanceChild(s, pid, i, reply); Inv(t) && t.store == s.store
  {
    hide Inv, ProcMeta;
    ChildFacts(s, pid, i);
    FinishKeepsInv(s, pid);
    if Lookup(s.store.receipts, s.procs[pid].kids[i].At()) == Some(Succeeded) {
      Move(s, s.leases, pid, if i + 1 < 2 then AtVerify(i + 1) else AtPhase);
    }
  }

  // A durable write by the command, which then moves on or is gone.
  lemma WriteThenMove(s: State, u: State, pid: nat, key: Key, pc: Pc)
    requires Inv(s) && pid in s.procs && ProcMeta(s.store, s.procs[pid]) && IsChildStage(s.procs[pid].pc)
    requires IsChildStage(pc) && pc.i < |s.procs[pid].kids|
    requires u.procs == s.procs && u.leases == s.leases && u.store.ops == s.store.ops
    requires MetaInv(u.store) && TableInv(u.store) && Evolves(s.store, u.store)
    requires u.store.envelopes.Keys <= s.store.envelopes.Keys + {key}
             && u.store.journal.Keys <= s.store.journal.Keys + {key}
    requires key.space in s.leases && s.leases[key.space] == pid
    ensures ProcProgress(u.store, s.procs[pid].(pc := pc)) && ProcLease(Goto(u, pid, pc), pid) ==> Inv(Goto(u, pid, pc))
    ensures Inv(Finish(u, pid))
  {
    hide Inv, MetaInv, TableInv, ProcProgress, ProcLease, PlanOk, KidIs;
    PcKeepsMeta(s.store, s.procs[pid], pc);
    MetaPersists(s.store, u.store, s.procs[pid].(pc := pc));
    hide Evolves, ProcMeta;
    ChildWrite(s, Finish(u, pid), pid, key);
    if ProcProgress(u.store, s.procs[pid].(pc := pc)) && ProcLease(Goto(u, pid, pc), pid) {
      ChildWrite(s, Goto(u, pid, pc), pid, key);
    }
  }

  lemma MetaPersists(before: Store, after: Store, proc: Proc)
    requires ProcMeta(before, proc) && after.ops == before.ops
    ensures ProcMeta(after, proc)
  {
  }

  lemma EnvelopeStep(s: State, pid: nat, i: nat, reply: Reply)
    requires Inv(s) && pid in s.procs && s.procs[pid].pc == AtEnvelope(i) && i < |s.procs[pid].kids|
    ensures var t := AdvanceChild(s, pid, i, reply); Inv(t) && Evolves(s.store, t.store)
  {
    hide MetaInv, TableInv, ProcsInv, ProcMeta, Proven, OwnedEnvelope, Evolves;
    Still(s.store);
    FinishKeepsInv(s, pid);
    ChildFacts(s, pid, i);
    var child, t := s.procs[pid].kids[i], AdvanceChild(s, pid, i, reply);
    if t != Finish(s, pid) {
      var key := child.At();
      var envelope := Envelope(child.place.space, child.place.session, child.hash, true, true);
      var u := s.(store := s.store.(envelopes := s.store.envelopes[key := envelope]));
      EnvelopeTables(s.store, u.store, key, envelope);
      ProgressMoves(s.store, u.store, s.procs[pid], AtExecute(i));
      JournaledHaveEnvelopes(s.store, key);
      WriteThenMove(s, u, pid, key, AtExecute(i));
    }
  }

  /** Progress already made is not lost at a stage of the same child. */
  lemma ProgressMoves(before: Store, after: Store, proc: Proc, pc: Pc)
    requires Evolves(before, after) && ProcProgress(before, proc) && IsChildStage(proc.pc) && !proc.pc.AtVerify?
    requires (pc.AtExecute? || pc.AtReceipt? || pc.AtReadBack?) && pc.i == proc.pc.i
    requires pc.AtReceipt? && pc.state == Succeeded ==> pc.i < |proc.kids| && AppliedAt(after, proc.kids[pc.i].At())
    ensures ProcProgress(after, proc.(pc := pc))
  {
    hide Proven, JournalOutcome;
  }

  lemma JournaledHaveEnvelopes(store: Store, key: Key)
    requires TableInv(store) && key !in store.envelopes
    ensures key !in store.journal && key !in store.receipts
  {
    hide OwnedEnvelope;
  }

  lemma ExecuteStep(s: State, pid: nat, i: nat, reply: Reply)
    requires Inv(s) && pid in s.procs && s.procs[pid].pc == AtExecute(i) && i < |s.procs[pid].kids|
    ensures var t := AdvanceChild(s, pid, i, reply); Inv(t) && Evolves(s.store, t.store)
  {
    hide MetaInv, TableInv, ProcsInv, ProcMeta, Proven, OwnedEnvelope, Evolves, QueryOriginal, MayApply;
    Still(s.store);
    ChildFacts(s, pid, i);
    var proc, t := s.procs[pid], AdvanceChild(s, pid, i, reply);
    var child := proc.kids[i];
    assert !AppliedAt(s.store, child.At()) by { NotExecutedMeansAbsent(s.store, child.At()); }
    match reply
    case Raises(None) =>
      ProgressMoves(s.store, s.store, proc, AtReceipt(i, Unknown));
      Move(s, s.leases, pid, AtReceipt(i, Unknown));
    case Raises(Some(entry)) => if t != s { ExecuteWrote(s, t, pid, i, entry); }
    case Applies(entry) => if t != s { ExecuteWrote(s, t, pid, i, entry); }
    case Rejects(_, entry) => if t != s { ExecuteWrote(s, t, pid, i, entry); }
  }

  lemma ExecuteWrote(s: State, t: State, pid: nat, i: nat, entry: JournalEntry)
    requires Inv(s) && pid in s.procs && s.procs[pid].pc == AtExecute(i) && i < |s.procs[pid].kids|
    requires var key := s.procs[pid].kids[i].At();
             && t.store == s.store.(journal := s.store.journal[key := entry], sessions := t.store.sessions)
             && !AppliedAt(s.store, key) && pid in t.procs && t.procs == s.procs[pid := t.procs[pid]]
             && t.leases == s.leases
             && t.procs[pid] == s.procs[pid].(pc := t.procs[pid].pc) && t.procs[pid].pc.AtReceipt?
             && t.procs[pid].pc.i == i
             && (t.procs[pid].pc.state == Succeeded ==> AppliedAt(t.store, key))
    ensures Inv(t) && Evolves(s.store, t.store)
  {
    hide MetaInv, TableInv, ProcsInv, ProcMeta, Proven, OwnedEnvelope, Evolves, JournalOutcome;
    ChildFacts(s, pid, i);
    var key := s.procs[pid].kids[i].At();
    JournalTables(s.store, t.store, key, entry);
    ProgressMoves(s.store, t.store, s.procs[pid], t.procs[pid].pc);
    hide Inv, ProcProgress;
    WriteThenMove(s, t.(procs := s.procs), pid, key, t.procs[pid].pc);
    assert Goto(t.(procs := s.procs), pid, t.procs[pid].pc) == t;
  }

  lemma NotExecutedMeansAbsent(store: Store, key: Key)
    ensures JournalOutcome(store, key) == NotExecuted <==> key !in store.journal
  {
    AppliedNeedsAllEvidence(Lookup(store.journal, key), key.id);
  }

  lemma ReceiptStep(s: State, pid: nat, i: nat, reply: Reply)
    requires Inv(s) && pid in s.procs && s.procs[pid].pc.AtReceipt? && s.procs[pid].pc.i == i && i < |s.procs[pid].kids|
    ensures var t := AdvanceChild(s, pid, i, reply); Inv(t) && Evolves(s.store, t.store)
  {
    hide MetaInv, TableInv, ProcsInv, ProcMeta, Proven, OwnedEnvelope, Evolves, JournalOutcome;
    Still(s.store);
    FinishKeepsInv(s, pid);
    ChildFacts(s, pid, i);
    var proc := s.procs[pid];
    var key, state := proc.kids[i].At(), proc.pc.state;
    if ReceiptAllowed(s.store, key, state) {
      var u := s.(store := s.store.(receipts := s.store.receipts[key := state]));
      ReceiptTables(s.store, u.store, key, state);
      ProgressMoves(s.store, u.store, proc, AtReadBack(i));
      WriteThenMove(s, u, pid, key, AtReadBack(i));
    }
  }

  lemma ChildStep(s: State, pid: nat, i: nat, reply: Reply)
    requires Inv(s) && pid in s.procs && IsChildStage(s.procs[pid].pc) && s.procs[pid].pc.i == i
             && i < |s.procs[pid].kids|
    ensures var t := AdvanceChild(s, pid, i, reply); Inv(t) && Evolves(s.store, t.store)
  {
    Still(s.store);
    hide Inv, Evolves, AdvanceChild;
    match s.procs[pid].pc
    case AtLease(_) => LeaseStep(s, pid, i, reply);
    case AtDecide(_) => DecideStep(s, pid, i, reply);
    case AtEnvelope(_) => EnvelopeStep(s, pid, i, reply);
    case AtExecute(_) => ExecuteStep(s, pid, i, reply);
    case AtReceipt(_, _) => ReceiptStep(s, pid, i, reply);
    case AtReadBack(_) => ReadBackStep(s, pid, i, reply);
    case AtVerify(_) => VerifyStep(s, pid, i, reply);
  }

  // ------------------------------------------------------------- every step

  lemma ProofStep(s: State, pid: nat, plan: ResolutionPlan, proof: Proof)
    requires Inv(s) && pid in s.procs && s.procs[pid].job == ResolveJob(plan) && s.procs[pid].pc == AtProof
    ensures Inv(s.(procs := s.procs[pid := s.procs[pid].(proof := Some(proof), pc := AtLease(0))]))
  {
    hide MetaInv, TableInv, Evolves;
    var t := s.(procs := s.procs[pid := s.procs[pid].(proof := Some(proof), pc := AtLease(0))]);
    assert ProcOk(s, pid);
    assert ProcOk(t, pid) by { hide PlanOk; }
    hide ProcsInv, ProcOk;
    QuietStep(s, t, pid);
  }

  lemma ClaimStage(s: State, pid: nat, plan: ResolutionPlan)
    requires Inv(s) && pid in s.procs && s.procs[pid].job == ResolveJob(plan) && s.procs[pid].pc == AtClaim
    ensures var t := AdvanceResolve(s, pid, plan); Inv(t) && Evolves(s.store, t.store)
  {
    hide Inv, Evolves, Finish, Goto, ClaimTx;
    Still(s.store);
    FinishKeepsInv(s, pid);
    if ClaimTx(s.store, plan).Ok? {
      if plan.op in s.store.ops {
        ReclaimStep(s, pid, plan);
      } else {
        ClaimStep(s, pid, plan);
      }
    }
  }

  lemma ProofStage(s: State, pid: nat, plan: ResolutionPlan)
    requires Inv(s) && pid in s.procs && s.procs[pid].job == ResolveJob(plan) && s.procs[pid].pc == AtProof
    ensures var t := AdvanceResolve(s, pid, plan); Inv(t) && Evolves(s.store, t.store)
  {
    hide Inv, Evolves, Finish, Goto, ReadProof;
    Still(s.store);
    FinishKeepsInv(s, pid);
    if ReadProof(s.store, plan.op).Ok? { ProofStep(s, pid, plan, ReadProof(s.store, plan.op).value); }
  }

  lemma TransferStage(s: State, pid: nat, plan: ResolutionPlan)
    requires Inv(s) && pid in s.procs && s.procs[pid].job == ResolveJob(plan) && s.procs[pid].pc == AtPhase
    ensures var t := AdvanceResolve(s, pid, plan); Inv(t) && Evolves(s.store, t.store)
  {
    hide Inv, Evolves, Finish, Goto, TransferTx;
    Still(s.store);
    FinishKeepsInv(s, pid);
    if TransferTx(s.store, plan.op, plan.related).Ok? { TransferStep(s, pid, plan); }
  }

  lemma CompleteStage(s: State, pid: nat, plan: ResolutionPlan)
    requires Inv(s) && pid in s.procs && s.procs[pid].job == ResolveJob(plan) && s.procs[pid].pc == AtComplete
    ensures var t := AdvanceResolve(s, pid, plan); Inv(t) && Evolves(s.store, t.store)
  {
    hide Inv, Evolves, Finish, Goto, CompleteTx;
    Still(s.store);
    FinishKeepsInv(s, pid);
    if CompleteTx(s.store, plan).Ok? { CompleteStep(s, pid, plan); }
  }

  lemma EndStage(s: State, pid: nat, op: Text, previous: Text)
    requires Inv(s) && pid in s.procs && s.procs[pid].job == EndJob(op, previous)
    ensures var t := AdvanceEnd(s, pid, op, previous); Inv(t) && Evolves(s.store, t.store)
  {
    hide Inv, Evolves, Finish, Goto, EndRotateTx, EndReleaseTx;
    Still(s.store);
    FinishKeepsInv(s, pid);
    match s.procs[pid].pc
    case AtRotate => if EndRotateTx(s.store, op, previous).Ok? { RotateStep(s, pid, op, previous); }
    case AtRelease => ReleaseStep(s, pid, op, previous);
    case _ =>
  }

  lemma ProcStep(s: State, pid: nat, reply: Reply)
    requires Inv(s) && pid in s.procs
    ensures Inv(AdvanceProc(s, pid, reply)) && Evolves(s.store, AdvanceProc(s, pid, reply).store)
  {
    hide Inv, Evolves, AwaitTx, AdvanceChild, AdvanceResolve, AdvanceEnd, AdvanceStart, Finish;
    var proc := s.procs[pid];
    Still(s.store);
    if IsChildStage(proc.pc) && proc.pc.i < |proc.kids| {
      ChildStep(s, pid, proc.pc.i, reply);
    } else {
      match proc.job
      case StartJob(place) => StartWriteStep(s, pid, place, reply);
      case ActivateJob(op) => if proc.pc == AtPhase { AwaitStep(s, pid, op); }
      case EndJob(op, previous) => EndStage(s, pid, op, previous);
      case ResolveJob(plan) => ResolveStage(s, pid, plan);
    }
  }

  lemma ResolveStage(s: State, pid: nat, plan: ResolutionPlan)
    requires Inv(s) && pid in s.procs && s.procs[pid].job == ResolveJob(plan)
    ensures var t := AdvanceResolve(s, pid, plan); Inv(t) && Evolves(s.store, t.store)
  {
    Still(s.store);
    match s.procs[pid].pc
    case AtClaim => hide AdvanceResolve, Inv, Evolves; ClaimStage(s, pid, plan);
    case AtProof => hide AdvanceResolve, Inv, Evolves; ProofStage(s, pid, plan);
    case AtPhase => hide AdvanceResolve, Inv, Evolves; TransferStage(s, pid, plan);
    case AtComplete => hide AdvanceResolve, Inv, Evolves; CompleteStage(s, pid, plan);
    case _ => hide Inv, Evolves;
  }

  /** Session rows carry no part of the invariant. */
  lemma SessionsStep(s: State, sessions: map<Key, SessionRow>)
    requires Inv(s)
    ensures var t := s.(store := s.store.(sessions := sessions)); Inv(t) && Evolves(s.store, t.store)
  {
    hide ProcMeta, ProcProgress, OwnedEnvelope, ConflictRow, ResolutionRow, QueryOriginal, UniqueResolutions,
         AnchorUnresolved;
    var t := s.(store := s.store.(sessions := sessions));
    assert forall k :: JournalOutcome(t.store, k) == JournalOutcome(s.store, k);
    assert Evolves(s.store, t.store);
    EvidenceMeta(s.store, t.store);
    TableFrame(s.store, t.store);
    hide MetaInv, TableInv, Evolves, ProcsInv;
    var pid := Unused(s.procs.Keys);
    OthersClaimedAlike(s, t, pid);
    StepKeepsInv(s, t, pid);
  }

  lemma StartWriteStep(s: State, pid: nat, place: Place, reply: Reply)
    requires Inv(s) && pid in s.procs && s.procs[pid].job.StartJob?
    ensures var t := AdvanceStart(s, pid, place, reply); Inv(t) && Evolves(s.store, t.store)
  {
    var t := AdvanceStart(s, pid, place, reply);
    hide Inv, Evolves, Finish;
    SessionsStep(s, t.store.sessions);
    FinishKeepsInv(s.(store := s.store.(sessions := t.store.sessions)), pid);
  }

  lemma RecoverStep(s: State, key: Key, entry: JournalEntry)
    requires Inv(s) && key in s.store.journal && JournalOutcome(s.store, key) == Inconclusive
    ensures var t := WriteJournal(s, key, entry); Inv(t) && Evolves(s.store, t.store)
  {
    hide MetaInv, ProcMeta, ProcProgress, OwnedEnvelope, QueryOriginal;
    var t := WriteJournal(s, key, entry);
    assert key in s.store.envelopes;
    JournalTables(s.store, t.store, key, entry);
    hide TableInv, Evolves, ProcsInv;
    var pid := Unused(s.procs.Keys);
    OthersClaimedAlike(s, t, pid);
    StepKeepsInv(s, t, pid);
  }

  /** Every action of the protocol keeps the invariant and takes nothing back. */
  lemma NextKeepsInv(s: State, action: Action)
    requires Inv(s)
    ensures Inv(Next(s, action)) && Evolves(s.store, Next(s, action).store)
  {
    Still(s.store);
    hide Inv, Evolves, AdvanceProc, ActivateTx, StartTx, TouchTx, EndClaimTx, ReadResolution;
    match action
    case BeginStart(pid, command) => StartStep(s, pid, command);
    case BeginActivate(pid, command) => ActivateStep(s, pid, command);
    case BeginResolve(pid, command, clock) => ResolveStep(s, pid, command, clock);
    case BeginEnd(pid, command) => EndStep(s, pid, command);
    case Touch(command, kind) => TouchStep(s, command, kind);
    case Advance(pid, reply) => if pid in s.procs { ProcStep(s, pid, reply); }
    case Crash(pid) => if pid in s.procs { FinishKeepsInv(s, pid); }
    case Recover(key, entry) =>
      if key in s.store.journal && JournalOutcome(s.store, key) == Inconclusive { RecoverStep(s, key, entry); }
    case ChangeSessions(sessions) => SessionsStep(s, sessions);
  }

  lemma {:induction false} RunKeepsInv(s: State, actions: seq<Action>)
    requires Inv(s)
    ensures Inv(Run(s, actions))
  {
    hide Inv, Next;
    if actions != [] {
      RunKeepsInv(s, actions[..|actions| - 1]);
      NextKeepsInv(Run(s, actions[..|actions| - 1]), actions[|actions| - 1]);
    }
  }

  lemma ReachedInv(sessions: map<Key, SessionRow>, actions: seq<Action>)
    ensures Inv(Reached(sessions, actions))
  {
    assert Inv(Fresh(sessions)) by { hide Run; }
    hide Inv;
    RunKeepsInv(Fresh(sessions), actions);
  }
}
