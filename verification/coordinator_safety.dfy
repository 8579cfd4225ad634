/** Invariants of every reachable state of the coordination protocol. */
module CoordinatorSafety {
  import opened Symbols
  import opened CoordinationRows
  import opened ChildEvidence
  import opened CoordinatorTransactions
  import opened CoordinatorProtocol

  // ---------------------------------------------------------------- evidence

  predicate AppliedAt(store: Store, key: Key) {
    JournalOutcome(store, key) == Applied
  }

  /** Envelope, succeeded receipt and applied journal all present. */
  predicate Proven(store: Store, key: Key) {
    && key in store.envelopes
    && Lookup(store.receipts, key) == Some(Succeeded)
    && AppliedAt(store, key)
  }

  function SideOf(business: Payload): Side {
    if WinnerSide(business).Some? then WinnerSide(business).value else ActiveSide
  }

  /** Where the child an operation names for a role lives. */
  function NamedPlace(intent: Intent, role: Role): Place
    requires intent.pair.Some?
  {
    var pair, winner := intent.pair.value, SideOf(intent.business);
    match role
    case Candidate => pair.candidate
    case Active => pair.active
    case Winner => pair.At(winner)
    case Loser => pair.At(Other(winner))
  }

  function NamedKey(op: Text, intent: Intent, role: Role): Key
    requires intent.pair.Some?
  {
    Key(NamedPlace(intent, role).space, ChildId(op, role))
  }

  predicate RoleFits(kind: Kind, role: Role) {
    if role in {Candidate, Active} then kind == ActivateProvisional else kind == ResolveConflict
  }

  predicate SameIdentity(a: Operation, b: Operation) {
    a.kind == b.kind && a.hash == b.hash && a.intent == b.intent && a.related == b.related
  }

  /** What no step ever takes back. */
  ghost predicate Evolves(before: Store, after: Store) {
    && (forall o :: o in before.ops ==> o in after.ops && SameIdentity(before.ops[o], after.ops[o]))
    && (forall k :: k in before.envelopes ==> k in after.envelopes && after.envelopes[k] == before.envelopes[k])
    && (forall k :: AppliedAt(before, k) ==> AppliedAt(after, k))
    && (forall k :: Proven(before, k) ==> Proven(after, k))
  }

  // -------------------------------------------------------------- invariants

  predicate BothProven(store: Store, op: Text, first: Role, second: Role)
    requires op in store.ops && store.ops[op].intent.pair.Some?
  {
    Proven(store, NamedKey(op, store.ops[op].intent, first))
    && Proven(store, NamedKey(op, store.ops[op].intent, second))
  }

  predicate ConflictRow(store: Store, c: Text)
    requires c in store.ops
  {
    var row := store.ops[c];
    && row.intent.pair.Some?
    && row.phase in {Claimed, AwaitingResolution, Completed}
    && (row.phase != Claimed ==> BothProven(store, c, Candidate, Active))
    && (row.phase == Completed ==>
          row.result.Some? && row.result.value.ResolvedBy? &&
          var r := row.result.value.resolution;
          r in store.ops && store.ops[r].kind == ResolveConflict && store.ops[r].related == Some(c)
          && store.ops[r].phase == Completed)
  }

  predicate ResolutionRow(store: Store, r: Text)
    requires r in store.ops
  {
    var row := store.ops[r];
    && row.related.Some? && row.related.value in store.ops
    && var conflict := store.ops[row.related.value];
    && conflict.kind == ActivateProvisional && conflict.intent.pair.Some?
    && row.intent.pair == conflict.intent.pair
    && WinnerSide(row.intent.business).Some?
    && row.hash == ContractHash(row.intent.business)
    && row.phase in {Claimed, Transferred, Completed}
    && (row.phase != Claimed ==> BothProven(store, r, Winner, Loser))
    && (row.phase == Completed ==> conflict.phase == Completed && conflict.result == Some(ResolvedBy(r)))
  }

  ghost predicate MetaInv(store: Store) {
    && (store.locator.Some? ==> store.locator.value.operation in store.ops)
    && (forall c :: c in store.ops && store.ops[c].kind == ActivateProvisional ==> ConflictRow(store, c))
    && (forall r :: r in store.ops && store.ops[r].kind == ResolveConflict ==> ResolutionRow(store, r))
    && UniqueResolutions(store)
    && AnchorUnresolved(store)
  }

  ghost predicate UniqueResolutions(store: Store) {
    forall r, q ::
      && r in store.ops && store.ops[r].kind == ResolveConflict
      && q in store.ops && store.ops[q].kind == ResolveConflict
      && store.ops[r].related == store.ops[q].related
      ==> r == q
  }

  /** While the locator still points at a conflict, nobody has resolved it. */
  ghost predicate AnchorUnresolved(store: Store) {
    store.locator.Some? && store.locator.value.operation in store.ops
    && store.ops[store.locator.value.operation].kind == ActivateProvisional ==>
      forall r :: r in store.ops && store.ops[r].kind == ResolveConflict ==>
        store.ops[r].related != Some(store.locator.value.operation)
  }

  /** Which operation an envelope belongs to, and what had to be proven before it. */
  predicate OwnedEnvelope(store: Store, k: Key) {
    && k.id.ChildId? && k.id.parent in store.ops
    && var row := store.ops[k.id.parent];
    && row.intent.pair.Some? && RoleFits(row.kind, k.id.role)
    && k == NamedKey(k.id.parent, row.intent, k.id.role)
    && (k.id.role == Active ==> Proven(store, NamedKey(k.id.parent, row.intent, Candidate)))
    && (k.id.role == Loser ==> Proven(store, NamedKey(k.id.parent, row.intent, Winner)))
  }

  ghost predicate TableInv(store: Store) {
    && (forall k :: k in store.envelopes ==> OwnedEnvelope(store, k))
    && (forall k :: k in store.journal ==> k in store.envelopes)
    && (forall k :: k in store.receipts ==> k in store.envelopes)
    && (forall k :: Lookup(store.receipts, k) == Some(Succeeded) ==> AppliedAt(store, k))
  }

  predicate KidIs(child: Child, op: Text, intent: Intent, role: Role)
    requires intent.pair.Some?
  {
    child.role == role && child.id == ChildId(op, role) && child.place == NamedPlace(intent, role)
  }

  /** The plan still describes the persisted conflict. */
  predicate PlanOk(store: Store, plan: ResolutionPlan) {
    && plan.related in store.ops && store.ops[plan.related].kind == ActivateProvisional
    && store.ops[plan.related].intent.pair == Some(plan.pair)
    && plan.intent.pair == Some(plan.pair)
    && WinnerSide(plan.intent.business) == Some(plan.winner)
    && plan.hash == ContractHash(plan.intent.business)
    && |plan.kids| == 2
    && KidIs(plan.kids[0], plan.op, plan.intent, Winner)
    && KidIs(plan.kids[1], plan.op, plan.intent, Loser)
    && (plan.isRestart ==> plan.op in store.ops)
    && plan.epoch == (if plan.isRestart then plan.expectedEpoch else plan.expectedEpoch + 1)
  }

  predicate ProcMeta(store: Store, proc: Proc) {
    match proc.job
    case StartJob(_) => proc.pc == AtStartWrite
    case EndJob(op, _) => (proc.pc == AtRotate || proc.pc == AtRelease) && op in store.ops && store.ops[op].kind == End
    case ActivateJob(op) =>
      && (IsChildStage(proc.pc) || proc.pc == AtPhase)
      && op in store.ops && store.ops[op].kind == ActivateProvisional && store.ops[op].phase == Claimed
      && store.ops[op].intent.pair.Some?
      && |proc.kids| == 2
      && KidIs(proc.kids[0], op, store.ops[op].intent, Candidate)
      && KidIs(proc.kids[1], op, store.ops[op].intent, Active)
    case ResolveJob(plan) =>
      && (IsChildStage(proc.pc) || proc.pc in {AtClaim, AtProof, AtPhase, AtComplete})
      && PlanOk(store, plan) && proc.kids == plan.kids
      && (proc.pc != AtClaim ==>
            plan.op in store.ops && store.ops[plan.op].kind == ResolveConflict
            && store.ops[plan.op].related == Some(plan.related)
            && store.ops[plan.op].hash == plan.hash)
  }

  predicate ProcProgress(store: Store, proc: Proc) {
    && (IsChildStage(proc.pc) ==> proc.pc.i < |proc.kids|)
    && (IsChildStage(proc.pc) && proc.pc.i == 1 ==> Proven(store, proc.kids[0].At()))
    && (proc.pc.AtVerify? || ((proc.pc.AtPhase? || proc.pc.AtComplete?) && |proc.kids| == 2) ==>
          |proc.kids| == 2 && Proven(store, proc.kids[0].At()) && Proven(store, proc.kids[1].At()))
    && (proc.pc.AtReceipt? && proc.pc.state == Succeeded ==> AppliedAt(store, proc.kids[proc.pc.i].At()))
  }

  predicate Leasing(pc: Pc) {
    pc.AtDecide? || pc.AtEnvelope? || pc.AtExecute? || pc.AtReceipt? || pc.AtReadBack?
  }

  /** A command between its decision and its read-back holds the Space's lease,
      and what it decided on is still so. */
  predicate ProcLease(s: State, pid: nat)
    requires pid in s.procs && (IsChildStage(s.procs[pid].pc) ==> s.procs[pid].pc.i < |s.procs[pid].kids|)
  {
    var proc := s.procs[pid];
    Leasing(proc.pc) ==>
      var key := proc.kids[proc.pc.i].At();
      && key.space in s.leases && s.leases[key.space] == pid
      && (proc.pc.AtEnvelope? ==> key !in s.store.envelopes)
      && (proc.pc.AtExecute? ==> key in s.store.envelopes && key !in s.store.journal)
      && (proc.pc.AtReceipt? || proc.pc.AtReadBack? ==> key in s.store.envelopes)
  }

  predicate ProcOk(s: State, pid: nat)
    requires pid in s.procs
  {
    ProcMeta(s.store, s.procs[pid]) && ProcProgress(s.store, s.procs[pid]) && ProcLease(s, pid)
  }

  ghost predicate ProcsInv(s: State) {
    && (forall pid :: pid in s.procs ==> ProcOk(s, pid))
    && (forall p, q ::
          p in s.procs && q in s.procs && p != q && s.procs[p].job.ActivateJob? ==> s.procs[q].job != s.procs[p].job)
  }

  ghost predicate Inv(s: State) {
    MetaInv(s.store) && TableInv(s.store) && ProcsInv(s)
  }

  // ------------------------------------------------------------ frame lemmas

  /** A Meta transaction leaves the Space tables alone. */
  lemma MetaOnlyEvolves(before: Store, after: Store)
    requires forall o :: o in before.ops ==> o in after.ops && SameIdentity(before.ops[o], after.ops[o])
    requires after.envelopes == before.envelopes && after.receipts == before.receipts && after.journal == before.journal
    ensures Evolves(before, after)
  {
  }

  ghost predicate RowOk(store: Store, o: Text)
    requires o in store.ops
  {
    && (store.ops[o].kind == ActivateProvisional ==> ConflictRow(store, o))
    && (store.ops[o].kind == ResolveConflict ==> ResolutionRow(store, o))
  }

  /** An operation row nobody touched stays well formed, provided completed
      rows are never touched. */
  lemma RowFrame(before: Store, after: Store, o: Text)
    requires o in before.ops && RowOk(before, o) && Evolves(before, after)
    requires o in after.ops && after.ops[o] == before.ops[o]
    requires forall q :: q in before.ops && before.ops[q].phase == Completed ==>
               q in after.ops && after.ops[q] == before.ops[q]
    ensures RowOk(after, o)
  {
  }

  lemma MetaFrame(before: Store, after: Store, touched: set<Text>)
    requires MetaInv(before) && Evolves(before, after)
    requires after.ops.Keys <= before.ops.Keys + touched
    requires forall o :: o in before.ops && (o !in touched || before.ops[o].phase == Completed) ==>
               after.ops[o] == before.ops[o]
    requires forall o :: o in touched && o in after.ops ==> RowOk(after, o)
    requires after.locator.Some? ==> after.locator.value.operation in after.ops
    requires UniqueResolutions(after) && AnchorUnresolved(after)
    ensures MetaInv(after)
  {
    forall o | o in after.ops ensures RowOk(after, o) {
      if o !in touched {
        assert RowOk(before, o);
        RowFrame(before, after, o);
      }
    }
  }

  /** Facts about the evidence tables survive any step that keeps them. */
  lemma TableFrame(before: Store, after: Store)
    requires TableInv(before) && Evolves(before, after)
    requires after.envelopes == before.envelopes && after.receipts == before.receipts && after.journal == before.journal
    ensures TableInv(after)
  {
    forall k | k in after.envelopes ensures OwnedEnvelope(after, k) {
      assert OwnedEnvelope(before, k);
    }
  }

  /** What a command knows survives the steps of the others: operation rows keep
      their identity, proofs are permanent, and its Space is leased to it. */
  lemma ProcFrame(before: State, after: State, pid: nat)
    requires pid in before.procs && ProcOk(before, pid)
    requires pid in after.procs && after.procs[pid] == before.procs[pid]
    requires Evolves(before.store, after.store)
    requires forall space :: space in before.leases && before.leases[space] == pid ==>
                               space in after.leases && after.leases[space] == pid
    requires forall k: Key :: k.space in before.leases && before.leases[k.space] == pid ==>
                                (k in after.store.envelopes ==> k in before.store.envelopes)
                                && (k in after.store.journal ==> k in before.store.journal)
    requires forall op ::
               before.procs[pid].job == ActivateJob(op) ==>
                 op in after.store.ops && after.store.ops[op].phase == Claimed
    ensures ProcOk(after, pid)
  {
    var proc := before.procs[pid];
    match proc.job
    case ActivateJob(op) => assert SameIdentity(before.store.ops[op], after.store.ops[op]);
    case ResolveJob(plan) =>
      assert SameIdentity(before.store.ops[plan.related], after.store.ops[plan.related]);
    case _ =>
  }
}
