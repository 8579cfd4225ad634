/** Crash-restart convergence of `resolve_activation_conflict`.

    The crash-free run makes nine durable writes. Crashing it anywhere and
    issuing the same command again continues from the last of them: every
    attempt ends at a later checkpoint of that one run, and an attempt that is
    not crashed ends at the last. */
module CoordinatorConvergence {
  import opened Symbols
  import opened CoordinationRows
  import opened ChildEvidence
  import opened CoordinatorTransactions
  import opened CoordinatorProtocol
  import opened CoordinatorSafety

  /** The journal rows the unit of work leaves for a child it accepts. */
  type World = Text -> JournalEntry

  ghost predicate Accepting(world: World) {
    forall id :: QueryOriginal(Some(world(id)), id) == Applied
  }

  /** A conflict awaiting resolution, a plan for it, and both Sessions in conflict. */
  predicate Ready(st: Store, plan: ResolutionPlan) {
    && st.locator.Some? && var locator := st.locator.value;
    && locator.state == Claiming && locator.operation == plan.related && locator.epoch == plan.expectedEpoch
    && Place(locator.space, locator.session) == plan.pair.active
    && !Empty(plan.related) && plan.related in st.ops && plan.op !in st.ops
    && st.ops[plan.related].kind == ActivateProvisional && st.ops[plan.related].phase == AwaitingResolution
    && st.ops[plan.related].intent.pair == Some(plan.pair)
    && plan.pair.active != plan.pair.candidate
    && InConflictAt(st, plan.pair.active) && InConflictAt(st, plan.pair.candidate)
    && Untouched(st, plan.kids)
  }

  predicate InConflictAt(st: Store, place: Place) {
    var key := Key(place.space, place.session);
    key in st.sessions && st.sessions[key].ownership == InConflict && !st.sessions[key].ended
    && st.sessions[key].hasContext
  }

  predicate Untouched(st: Store, kids: seq<Child>) {
    forall i :: 0 <= i < |kids| ==>
      kids[i].At() !in st.envelopes && kids[i].At() !in st.receipts && kids[i].At() !in st.journal
  }

  /** The command the plan was made for, when the clock read `clock`. */
  predicate Commands(command: Command, plan: ResolutionPlan, clock: Text) {
    && IsOperationId(command.id) && command.id == plan.op
    && WinnerSide(command.payload) == Some(plan.winner)
    && (Truthy(Get(command.payload, "pair")) ==> ConflictPair(command.payload) == Some(plan.pair))
    && ("related_operation_id" in command.payload ==> PyStr(command.payload["related_operation_id"]) == plan.related)
    && (command.epoch.Some? ==> command.epoch.value == plan.expectedEpoch)
    && !plan.isRestart
    && plan == MakePlan(command, plan.related, plan.pair, plan.winner, plan.expectedEpoch, false, clock)
  }

  function EnvelopeOf(child: Child): Envelope {
    Envelope(child.place.space, child.place.session, child.hash, true, true)
  }

  function After<T>(table: map<Key, T>, first: (Key, T), second: (Key, T), k: nat, firstAt: nat,
                    secondAt: nat): map<Key, T> {
    if k < firstAt then table
    else if k < secondAt then table[first.0 := first.1]
    else table[first.0 := first.1][second.0 := second.1]
  }

  function SessionAt(child: Child): Key {
    Key(child.place.space, child.place.session)
  }

  function LocatorAt(st: Store, plan: ResolutionPlan, k: nat): Option<Locator>
    requires st.locator.Some?
  {
    var target := plan.pair.At(plan.winner);
    var claimed := st.locator.value.(operation := plan.op, epoch := plan.epoch, space := target.space,
                                     session := target.session);
    if k == 0 then st.locator else if k < 9 then Some(claimed) else Some(claimed.(state := ActiveState))
  }

  function OpsAt(st: Store, plan: ResolutionPlan, k: nat): map<Text, Operation>
    requires plan.related in st.ops
  {
    var row := NewResolution(plan);
    if k == 0 then st.ops
    else if k < 8 then st.ops[plan.op := row]
    else if k < 9 then st.ops[plan.op := row.(phase := Transferred)]
    else st.ops[plan.op := row.(phase := Completed, result := Some(Authoritative))]
               [plan.related := st.ops[plan.related].(phase := Completed, result := Some(ResolvedBy(plan.op)))]
  }

  /** The store after `k` durable writes of the crash-free run:
      1 claim, 2-4 winner envelope, mutation, receipt, 5-7 the same for the
      loser, 8 transfer, 9 completion. */
  function Checkpoint(st: Store, plan: ResolutionPlan, world: World, k: nat): Store
    requires Ready(st, plan) && |plan.kids| == 2
    requires SessionAt(plan.kids[0]) in st.sessions && SessionAt(plan.kids[1]) in st.sessions
  {
    var w, l := plan.kids[0], plan.kids[1];
    Store(
      LocatorAt(st, plan, k),
      OpsAt(st, plan, k),
      After(st.envelopes, (w.At(), EnvelopeOf(w)), (l.At(), EnvelopeOf(l)), k, 2, 5),
      After(st.receipts, (w.At(), Succeeded), (l.At(), Succeeded), k, 4, 7),
      After(st.journal, (w.At(), world(w.id)), (l.At(), world(l.id)), k, 3, 6),
      After(st.sessions,
            (SessionAt(w), ChildEffect(Winner, st.sessions[SessionAt(w)])),
            (SessionAt(l), ChildEffect(Loser, st.sessions[SessionAt(l)])), k, 3, 6))
  }

  /** What the crash-free run comes to. */
  lemma FinalCheckpoint(st: Store, command: Command, plan: ResolutionPlan, clock: Text, world: World)
    requires Ready(st, plan) && Commands(command, plan, clock) && Accepting(world)
    ensures PlanShape(st, plan)
    ensures var final := Checkpoint(st, plan, world, 9);
            var target := plan.pair.At(plan.winner);
            && final.locator.Some? && var locator := final.locator.value;
            && locator.state == ActiveState && Place(locator.space, locator.session) == target
            && locator.operation == command.id && locator.epoch == st.locator.value.epoch + 1
            && final.ops[plan.op].phase == Completed && final.ops[plan.related].phase == Completed
            && final.ops[plan.related].result == Some(ResolvedBy(plan.op))
            && Proven(final, plan.kids[0].At()) && Proven(final, plan.kids[1].At())
            && final.sessions[SessionAt(plan.kids[0])].ownership == Authoritatively
            && final.sessions[SessionAt(plan.kids[1])].ended
  {
    hide QueryOriginal, MakePlan, WinnerSide, Accepting;
    PlanHasShape(st, command, plan, clock);
    EvidenceAt(st, plan, world, 9, 0);
    EvidenceAt(st, plan, world, 9, 1);
    hide JournalOutcome;
  }

  /** The parts of a plan the proofs below use. */
  predicate PlanShape(st: Store, plan: ResolutionPlan) {
    && |plan.kids| == 2
    && var w, l := plan.kids[0], plan.kids[1];
    && w.role == Winner && l.role == Loser && w.id == ChildId(plan.op, Winner) && l.id == ChildId(plan.op, Loser)
    && w.place == plan.pair.At(plan.winner) && l.place == plan.pair.At(Other(plan.winner))
    && SessionAt(w) in st.sessions && SessionAt(l) in st.sessions && SessionAt(w) != SessionAt(l)
    && plan.op != plan.related && plan.epoch == plan.expectedEpoch + 1
    && plan.intent.pair == Some(plan.pair) && WinnerSide(plan.intent.business) == Some(plan.winner)
    && plan.intent.children == Some(Declarations(plan.kids))
    && plan.intent.hash == plan.hash && Place(plan.intent.space, plan.intent.session) == w.place
  }

  predicate TwoKids(st: Store, plan: ResolutionPlan) {
    && |plan.kids| == 2 && plan.kids[0].At() != plan.kids[1].At()
    && SessionAt(plan.kids[0]) in st.sessions && SessionAt(plan.kids[1]) in st.sessions
  }

  lemma PlanHasShape(st: Store, command: Command, plan: ResolutionPlan, clock: Text)
    requires Ready(st, plan) && Commands(command, plan, clock)
    ensures PlanShape(st, plan)
  {
    hide ChildHash, WinnerPayload, LoserPayload, ContractHash, WinnerSide, ConflictPair, IsOperationId;
  }

  // ---------------------------------------------------- along one attempt

  /** The unit of work accepts whatever child it is handed. */
  function AcceptAll(world: World): Uow {
    (kid: Child) => Applies(world(kid.id))
  }

  /** One attempt: the command begins, takes at most `n` steps, and is crashed. */
  function Attempt(s: State, pid: nat, command: Command, clock: Text, world: World, n: nat): State {
    Issue(s, BeginResolve(pid, command, clock), pid, AcceptAll(world), n)
  }

  predicate Restarted(plan: ResolutionPlan, job: Job) {
    job.ResolveJob? && job.plan.(isRestart := false, expectedEpoch := plan.expectedEpoch) == plan
  }

  /** Which stages are met at which checkpoint. */
  predicate Fits(pc: Pc, k: nat) {
    match pc
    case AtClaim => k <= 8
    case AtProof => 1 <= k <= 8
    case AtLease(i) => i < 2 && 3 * i + 1 <= k <= 8
    case AtDecide(i) => i < 2 && 3 * i + 1 <= k <= 8
    case AtEnvelope(i) => i < 2 && k == 3 * i + 1
    case AtExecute(i) => i < 2 && k == 3 * i + 2
    case AtReceipt(i, state) => i < 2 && k == 3 * i + 3 && state == Succeeded
    case AtReadBack(i) => i < 2 && k == 3 * i + 4
    case AtVerify(i) => i < 2 && 7 <= k <= 8
    case AtPhase => 7 <= k <= 8
    case AtComplete => k == 8
    case _ => false
  }

  /** Steps left, at most. */
  function Rank(pc: Pc): nat {
    match pc
    case AtClaim => 20
    case AtProof => 19
    case AtLease(i) => if i == 0 then 18 else 12
    case AtDecide(i) => if i == 0 then 17 else 11
    case AtEnvelope(i) => if i == 0 then 16 else 10
    case AtExecute(i) => if i == 0 then 15 else 9
    case AtReceipt(i, _) => if i == 0 then 14 else 8
    case AtReadBack(i) => if i == 0 then 13 else 7
    case AtVerify(i) => if i == 0 then 6 else 5
    case AtPhase => 4
    case AtComplete => 3
    case _ => 0
  }

  function ClaimedLocator(st: Store, plan: ResolutionPlan): Locator
    requires st.locator.Some?
  {
    var target := plan.pair.At(plan.winner);
    st.locator.value.(operation := plan.op, epoch := plan.epoch, space := target.space, session := target.session)
  }

  function ProofAt(st: Store, plan: ResolutionPlan): Proof
    requires st.locator.Some? && |plan.kids| == 2
  {
    Proof(plan.op, plan.related, Claimed, ClaimedLocator(st, plan), plan.pair, plan.winner, plan.kids[0].hash,
          plan.kids[1].hash)
  }

  /** The attempt stands at checkpoint `k`, alone. */
  predicate Along(st: Store, plan: ResolutionPlan, world: World, s: State, pid: nat, k: nat)
    requires Ready(st, plan) && PlanShape(st, plan)
  {
    && s.store == Checkpoint(st, plan, world, k)
    && pid in s.procs && var proc := s.procs[pid];
    && Restarted(plan, proc.job) && (k == 0 ==> proc.job == ResolveJob(plan)) && proc.kids == plan.kids
    && Fits(proc.pc, k)
    && (proc.pc != AtClaim && proc.pc != AtProof && k < 8 ==> proc.proof == Some(ProofAt(st, plan)))
    && s.leases == (if Leasing(proc.pc) then map[plan.kids[proc.pc.i].place.space := pid] else map[])
  }

  predicate Done(st: Store, plan: ResolutionPlan, world: World, s: State, pid: nat)
    requires Ready(st, plan) && PlanShape(st, plan)
  {
    s.store == Checkpoint(st, plan, world, 9) && pid !in s.procs && s.leases == map[]
  }

  /** One step of the attempt: the same checkpoint or the next, and less to do. */
  ghost predicate Progresses(st: Store, plan: ResolutionPlan, world: World, s: State, t: State, pid: nat, k: nat)
    requires Ready(st, plan) && PlanShape(st, plan) && pid in s.procs
  {
    || (k == 8 && Done(st, plan, world, t, pid))
    || exists next: nat ::
         k <= next <= k + 1 && Along(st, plan, world, t, pid, next) && Rank(t.procs[pid].pc) < Rank(s.procs[pid].pc)
  }

  lemma OnlyLeaseFreed(s: State, pid: nat, space: Text)
    requires s.leases == map[space := pid] || s.leases == map[]
    ensures Release(s, pid).leases == map[]
    ensures Release(s, pid) == s.(leases := map[])
  {
  }

  lemma To(st: Store, plan: ResolutionPlan, world: World, s: State, t: State, pid: nat, k: nat, next: nat)
    requires Ready(st, plan) && PlanShape(st, plan) && pid in s.procs
    requires k <= next <= k + 1 && Along(st, plan, world, t, pid, next) && Rank(t.procs[pid].pc) < Rank(s.procs[pid].pc)
    ensures Progresses(st, plan, world, s, t, pid, k)
  {
  }

  /** What the evidence tables hold for child `i` at checkpoint `k`. */
  lemma EvidenceAt(st: Store, plan: ResolutionPlan, world: World, k: nat, i: nat)
    requires Ready(st, plan) && PlanShape(st, plan) && Accepting(world) && i < 2 && k <= 9
    ensures var c, key := Checkpoint(st, plan, world, k), plan.kids[i].At();
            && Lookup(c.envelopes, key) == (if k < 3 * i + 2 then None else Some(EnvelopeOf(plan.kids[i])))
            && Lookup(c.journal, key) == (if k < 3 * i + 3 then None else Some(world(plan.kids[i].id)))
            && Lookup(c.receipts, key) == (if k < 3 * i + 4 then None else Some(Succeeded))
            && JournalOutcome(c, key) == (if k < 3 * i + 3 then NotExecuted else Applied)
  {
    hide QueryOriginal, WinnerSide;
    var c, key := Checkpoint(st, plan, world, k), plan.kids[i].At();
    assert plan.kids[0].At() != plan.kids[1].At();
    AppliedNeedsAllEvidence(Lookup(c.journal, key), key.id);
  }

  lemma DecisionAtCheckpoint(st: Store, plan: ResolutionPlan, world: World, k: nat, i: nat)
    requires Ready(st, plan) && PlanShape(st, plan) && Accepting(world) && i < 2 && 3 * i + 1 <= k <= 8
    ensures Decide(Checkpoint(st, plan, world, k), plan.kids[i]) ==
            if k == 3 * i + 1 then Execute(false)
            else if k == 3 * i + 2 then Execute(true)
            else if k == 3 * i + 3 then RestoreSucceededReceipt
            else AlreadySucceeded
  {
    EvidenceAt(st, plan, world, k, i);
    hide QueryOriginal, Checkpoint, Ready, PlanShape;
  }

  lemma SessionsAt(st: Store, plan: ResolutionPlan, world: World, k: nat, i: nat)
    requires Ready(st, plan) && PlanShape(st, plan) && i < 2 && k <= 9
    ensures var c, key := Checkpoint(st, plan, world, k), SessionAt(plan.kids[i]);
            && key in c.sessions && c.sessions[key].hasContext
            && (k < 3 * i + 3 ==>
                  c.sessions[key] == st.sessions[key] && c.sessions[key].ownership == InConflict
                  && !c.sessions[key].ended)
  {
    hide WinnerSide;
  }

  lemma MetaAt(st: Store, plan: ResolutionPlan, world: World, k: nat)
    requires Ready(st, plan) && PlanShape(st, plan) && 1 <= k <= 8
    ensures var c := Checkpoint(st, plan, world, k);
            && c.locator == Some(ClaimedLocator(st, plan)) && plan.op in c.ops && plan.related in c.ops
            && c.ops[plan.op] == NewResolution(plan).(phase := if k == 8 then Transferred else Claimed)
            && c.ops[plan.related] == st.ops[plan.related]
  {
    hide WinnerSide;
  }

  /** The three durable writes of child `i`, as checkpoints. */
  lemma ChildWrites(st: Store, plan: ResolutionPlan, world: World, i: nat)
    requires Ready(st, plan) && PlanShape(st, plan) && i < 2
    ensures TwoKids(st, plan)
    ensures var kid, c := plan.kids[i], Checkpoint(st, plan, world, 3 * i + 1);
            Checkpoint(st, plan, world, 3 * i + 2) == c.(envelopes := c.envelopes[kid.At() := EnvelopeOf(kid)])
    ensures var kid, c := plan.kids[i], Checkpoint(st, plan, world, 3 * i + 2);
            && SessionAt(kid) in c.sessions
            && Checkpoint(st, plan, world, 3 * i + 3)
            == c.(journal := c.journal[kid.At() := world(kid.id)],
                  sessions := c.sessions[SessionAt(kid) := ChildEffect(kid.role, c.sessions[SessionAt(kid)])])
    ensures var kid, c := plan.kids[i], Checkpoint(st, plan, world, 3 * i + 3);
            Checkpoint(st, plan, world, 3 * i + 4) == c.(receipts := c.receipts[kid.At() := Succeeded])
  {
    hide WinnerSide, ChildEffect;
  }

  /** The command reads the conflict, or finds its own claim and restarts. */
  lemma BeginsAlong(st: Store, command: Command, plan: ResolutionPlan, made: Text, clock: Text, world: World, s: State,
                    pid: nat, k: nat)
    requires Ready(st, plan) && Commands(command, plan, made) && PlanShape(st, plan) && k <= 8
    requires DecisionAt(command.payload, clock) == DecisionAt(command.payload, made)
    requires s.store == Checkpoint(st, plan, world, k) && pid !in s.procs && s.leases == map[]
    ensures Along(st, plan, world, Next(s, BeginResolve(pid, command, clock)), pid, k)
  {
    hide Commands, ReadResolution, Checkpoint, PlanShape, Ready, MakePlan, DecisionAt;
    ReadsPlan(st, command, plan, made, clock, world, s.store, k);
    EpochRead(st, plan, world, k);
    RestartsPlan(command, plan, made, clock, k > 0);
  }

  lemma EpochRead(st: Store, plan: ResolutionPlan, world: World, k: nat)
    requires Ready(st, plan) && PlanShape(st, plan) && k <= 8
    ensures var c := Checkpoint(st, plan, world, k);
            c.locator.Some? && c.locator.value.epoch == if k > 0 then plan.epoch else plan.expectedEpoch
  {
    hide WinnerSide;
  }

  /** A restart rebuilds the same plan from the already advanced epoch. */
  lemma RestartsPlan(command: Command, plan: ResolutionPlan, made: Text, clock: Text, isRestart: bool)
    requires Commands(command, plan, made) && DecisionAt(command.payload, clock) == DecisionAt(command.payload, made)
    ensures var epoch := if isRestart then plan.epoch else plan.expectedEpoch;
            var again := MakePlan(command, plan.related, plan.pair, plan.winner, epoch, isRestart, clock);
            && again.(isRestart := false, expectedEpoch := plan.expectedEpoch) == plan && again.kids == plan.kids
            && (!isRestart ==> again == plan)
  {
    hide IsOperationId, ConflictPair, Truthy, PyStr, DecisionAt, ResolutionChildren, ContractHash, WinnerSide,
         Declarations;
  }

  lemma ReadsPlan(st: Store, command: Command, plan: ResolutionPlan, made: Text, clock: Text, world: World,
                  store: Store, k: nat)
    requires Ready(st, plan) && Commands(command, plan, made) && PlanShape(st, plan) && k <= 8
    requires store == Checkpoint(st, plan, world, k)
    ensures store.locator.Some?
    ensures ReadResolution(store, command, clock)
         == Planned(MakePlan(command, plan.related, plan.pair, plan.winner, store.locator.value.epoch, k > 0, clock))
  {
    hide IsOperationId, ConflictPair, Truthy, PyStr, MakePlan, WinnerSide, PlanShape;
    if k > 0 { MetaAt(st, plan, world, k); hide Checkpoint; }
  }

  /** A completed resolution is only replayed. */
  lemma BeginsDone(st: Store, command: Command, plan: ResolutionPlan, made: Text, clock: Text, world: World, s: State,
                   pid: nat)
    requires Ready(st, plan) && Commands(command, plan, made) && PlanShape(st, plan)
    requires s.store == Checkpoint(st, plan, world, 9)
    ensures Next(s, BeginResolve(pid, command, clock)) == s
  {
    hide IsOperationId, ConflictPair, Truthy, PyStr, DecisionAt, ResolutionChildren, ContractHash, WinnerSide;
  }

  lemma ClaimAlong(st: Store, plan: ResolutionPlan, world: World, s: State, pid: nat, k: nat)
    requires Ready(st, plan) && PlanShape(st, plan) && Along(st, plan, world, s, pid, k) && s.procs[pid].pc == AtClaim
    ensures Progresses(st, plan, world, s, AdvanceResolve(s, pid, s.procs[pid].job.plan), pid, k)
  {
    hide JobsKept, RowsKept, WinnerSide, KidIs;
    var t := AdvanceResolve(s, pid, s.procs[pid].job.plan);
    hide PlanShape;
    if k == 0 {
      assert t.store == Checkpoint(st, plan, world, 1);
      To(st, plan, world, s, t, pid, k, 1);
    } else {
      MetaAt(st, plan, world, k);
      hide Checkpoint, Ready;
      assert ClaimTx(s.store, s.procs[pid].job.plan) == Ok(s.store);
      To(st, plan, world, s, t, pid, k, k);
    }
  }

  lemma ConflictNamed(st: Store, plan: ResolutionPlan)
    requires Ready(st, plan)
    ensures st.locator.Some? && !Empty(plan.related)
  {
  }

  lemma ProofAlong(st: Store, plan: ResolutionPlan, world: World, s: State, pid: nat, k: nat)
    requires Ready(st, plan) && PlanShape(st, plan) && Along(st, plan, world, s, pid, k) && s.procs[pid].pc == AtProof
    ensures Progresses(st, plan, world, s, AdvanceResolve(s, pid, s.procs[pid].job.plan), pid, k)
  {
    hide JobsKept, Checkpoint, Ready;
    var t := AdvanceResolve(s, pid, s.procs[pid].job.plan);
    MetaAt(st, plan, world, k);
    ConflictNamed(st, plan);
    assert ReadProof(s.store, plan.op).Ok? by { hide WinnerSide; }
    To(st, plan, world, s, t, pid, k, k);
  }

  lemma TransferAlong(st: Store, plan: ResolutionPlan, world: World, s: State, pid: nat, k: nat)
    requires Ready(st, plan) && PlanShape(st, plan) && Along(st, plan, world, s, pid, k) && s.procs[pid].pc == AtPhase
    ensures Progresses(st, plan, world, s, AdvanceResolve(s, pid, s.procs[pid].job.plan), pid, k)
  {
    hide ClaimTx, CompleteTx, ReadProof, Finish, WinnerSide, Declarations, Untouched, JobsKept, SpacesKept, MetaOnly;
    var t := AdvanceResolve(s, pid, s.procs[pid].job.plan);
    MetaAt(st, plan, world, k);
    hide PlanShape;
    assert t.store == Checkpoint(st, plan, world, 8);
    hide Checkpoint, Ready;
    To(st, plan, world, s, t, pid, k, 8);
  }

  lemma CompleteAlong(st: Store, plan: ResolutionPlan, world: World, s: State, pid: nat, k: nat)
    requires Ready(st, plan) && PlanShape(st, plan) && Along(st, plan, world, s, pid, k)
             && s.procs[pid].pc == AtComplete
    ensures Progresses(st, plan, world, s, AdvanceResolve(s, pid, s.procs[pid].job.plan), pid, k)
  {
    var t := AdvanceResolve(s, pid, s.procs[pid].job.plan);
    MetaAt(st, plan, world, k);
    SessionsAt(st, plan, world, k, 0);
    assert CompleteTx(s.store, s.procs[pid].job.plan).Ok? by { hide Checkpoint; }
    assert t.store == Checkpoint(st, plan, world, 9) by { hide WinnerSide; }
    hide Checkpoint, Ready, PlanShape;
  }

  /** The command only changes its stage, and with it its lease. */
  lemma Moves(st: Store, plan: ResolutionPlan, world: World, s: State, pid: nat, k: nat, pc: Pc, leases: map<Text, nat>)
    requires Ready(st, plan) && PlanShape(st, plan) && Along(st, plan, world, s, pid, k)
    requires IsChildStage(s.procs[pid].pc) && (IsChildStage(pc) || pc == AtPhase) && Fits(pc, k)
    requires Rank(pc) < Rank(s.procs[pid].pc)
    requires leases == if Leasing(pc) && pc.i < 2 then map[plan.kids[pc.i].place.space := pid] else map[]
    ensures var t := s.(procs := s.procs[pid := s.procs[pid].(pc := pc)], leases := leases);
            Progresses(st, plan, world, s, t, pid, k)
  {
    hide Ready, PlanShape, Checkpoint;
    var t := s.(procs := s.procs[pid := s.procs[pid].(pc := pc)], leases := leases);
    assert Along(st, plan, world, t, pid, k);
  }

  lemma ReadsAlong(st: Store, plan: ResolutionPlan, world: World, s: State, pid: nat, k: nat, i: nat, reply: Reply)
    requires Ready(st, plan) && PlanShape(st, plan) && Accepting(world) && Along(st, plan, world, s, pid, k)
    requires s.procs[pid].pc == AtLease(i) || s.procs[pid].pc == AtReadBack(i) || s.procs[pid].pc == AtVerify(i)
    ensures i < 2 && Progresses(st, plan, world, s, AdvanceChild(s, pid, i, reply), pid, k)
  {
    hide Checkpoint, Ready, PlanShape, Release, Accepting, MetaKept, JobsKept, Decide, ExecuteChild, Progresses;
    AlongShape(st, plan, world, s, pid, k);
    EvidenceAt(st, plan, world, k, i);
    OnlyLeaseFreed(s, pid, plan.kids[i].place.space);
    var pc := s.procs[pid].pc;
    var next := if pc == AtLease(i) then AtDecide(i)
                else if pc == AtReadBack(i) && i == 0 then AtLease(1)
                else if pc == AtReadBack(i) then AtVerify(0)
                else if i == 0 then AtVerify(1) else AtPhase;
    Moves(st, plan, world, s, pid, k, next, if pc == AtLease(i) then map[plan.kids[i].place.space := pid] else map[]);
  }

  lemma DecideAlong(st: Store, plan: ResolutionPlan, world: World, s: State, pid: nat, k: nat, i: nat, reply: Reply)
    requires Ready(st, plan) && PlanShape(st, plan) && Accepting(world) && Along(st, plan, world, s, pid, k)
    requires s.procs[pid].pc == AtDecide(i)
    ensures i < 2 && Progresses(st, plan, world, s, AdvanceChild(s, pid, i, reply), pid, k)
  {
    hide Checkpoint, Ready, PlanShape, Release, Accepting, MetaKept, JobsKept, Decide, Progresses, ExecuteChild;
    DecisionAtCheckpoint(st, plan, world, k, i);
    AlongShape(st, plan, world, s, pid, k);
    OnlyLeaseFreed(s, pid, plan.kids[i].place.space);
    var next := if k == 3 * i + 1 then AtEnvelope(i) else if k == 3 * i + 2 then AtExecute(i)
                else if k == 3 * i + 3 then AtReceipt(i, Succeeded) else if i == 0 then AtLease(1) else AtVerify(0);
    Moves(st, plan, world, s, pid, k, next, if k >= 3 * i + 4 then map[] else s.leases);
  }

  lemma EnvelopeAlong(st: Store, plan: ResolutionPlan, world: World, s: State, pid: nat, k: nat, i: nat, reply: Reply)
    requires Ready(st, plan) && PlanShape(st, plan) && Accepting(world) && Along(st, plan, world, s, pid, k)
    requires s.procs[pid].pc == AtEnvelope(i)
    ensures i < 2 && Progresses(st, plan, world, s, AdvanceChild(s, pid, i, reply), pid, k)
  {
    hide Checkpoint, Ready, PlanShape, Release, Accepting, MetaKept, JobsKept;
    ChildWrites(st, plan, world, i);
    EvidenceAt(st, plan, world, k, i);
    SessionsAt(st, plan, world, k, i);
    To(st, plan, world, s, AdvanceChild(s, pid, i, reply), pid, k, k + 1);
  }

  lemma ReceiptAlong(st: Store, plan: ResolutionPlan, world: World, s: State, pid: nat, k: nat, i: nat, reply: Reply)
    requires Ready(st, plan) && PlanShape(st, plan) && Accepting(world) && Along(st, plan, world, s, pid, k)
    requires s.procs[pid].pc == AtReceipt(i, Succeeded)
    ensures i < 2 && Progresses(st, plan, world, s, AdvanceChild(s, pid, i, reply), pid, k)
  {
    hide Checkpoint, Ready, PlanShape, Release, Accepting, MetaKept, JobsKept;
    ChildWrites(st, plan, world, i);
    EvidenceAt(st, plan, world, k, i);
    To(st, plan, world, s, AdvanceChild(s, pid, i, reply), pid, k, k + 1);
  }

  /** The policy gate is open for exactly the child the attempt is about to run. */
  lemma GateAlong(st: Store, plan: ResolutionPlan, world: World, s: State, pid: nat, k: nat, i: nat)
    requires Ready(st, plan) && PlanShape(st, plan) && Along(st, plan, world, s, pid, k)
             && s.procs[pid].pc == AtExecute(i)
    ensures i < 2 && MayApply(s, s.procs[pid], plan.kids[i])
  {
    MetaAt(st, plan, world, k);
    SessionsAt(st, plan, world, k, i);
    hide Checkpoint, WinnerSide, Declarations, Untouched, Leasing, NewResolution;
  }

  lemma ExecuteAlong(st: Store, plan: ResolutionPlan, world: World, s: State, pid: nat, k: nat, i: nat)
    requires Ready(st, plan) && PlanShape(st, plan) && Accepting(world) && Along(st, plan, world, s, pid, k)
    requires s.procs[pid].pc == AtExecute(i)
    ensures i < 2 && |plan.kids| == 2
    ensures Progresses(st, plan, world, s, ExecuteChild(s, pid, i, Applies(world(plan.kids[i].id))), pid, k)
  {
    hide Checkpoint, Ready, PlanShape, QueryOriginal, MayApply, GateOpen, MetaKept, JobsKept, Progresses, ChildEffect,
         LocatorAt, OpsAt;
    ChildWrites(st, plan, world, i);
    GateAlong(st, plan, world, s, pid, k, i);
    assert QueryOriginal(Some(world(plan.kids[i].id)), plan.kids[i].id) == Applied;
    hide Accepting;
    To(st, plan, world, s, ExecuteChild(s, pid, i, Applies(world(plan.kids[i].id))), pid, k, k + 1);
  }

  lemma ChildAlong(st: Store, plan: ResolutionPlan, world: World, s: State, pid: nat, k: nat, i: nat)
    requires Ready(st, plan) && PlanShape(st, plan) && Accepting(world) && Along(st, plan, world, s, pid, k)
    requires IsChildStage(s.procs[pid].pc) && s.procs[pid].pc.i == i
    ensures i < 2 && |plan.kids| == 2
    ensures Progresses(st, plan, world, s, AdvanceChild(s, pid, i, Applies(world(plan.kids[i].id))), pid, k)
  {
    hide Ready, PlanShape, Progresses, Checkpoint, ExecuteChild, Accepting;
    AlongShape(st, plan, world, s, pid, k);
    var reply := Applies(world(plan.kids[i].id));
    match s.procs[pid].pc
    case AtExecute(_) => ExecuteAlong(st, plan, world, s, pid, k, i);
    case AtDecide(_) => hide AdvanceChild, Along; DecideAlong(st, plan, world, s, pid, k, i, reply);
    case AtEnvelope(_) => hide AdvanceChild, Along; EnvelopeAlong(st, plan, world, s, pid, k, i, reply);
    case AtReceipt(_, _) => hide AdvanceChild; ReceiptAlong(st, plan, world, s, pid, k, i, reply);
    case _ => hide AdvanceChild, Along; ReadsAlong(st, plan, world, s, pid, k, i, reply);
  }

  lemma AlongShape(st: Store, plan: ResolutionPlan, world: World, s: State, pid: nat, k: nat)
    requires Ready(st, plan) && PlanShape(st, plan) && Along(st, plan, world, s, pid, k)
    ensures TwoKids(st, plan) && s.procs[pid].kids == plan.kids
    ensures var pc := s.procs[pid].pc;
            IsChildStage(pc) ==> pc.i < 2 && (pc.AtReceipt? ==> pc.state == Succeeded)
  {
    hide Ready, Checkpoint, WinnerSide;
  }

  lemma StepAlong(st: Store, plan: ResolutionPlan, world: World, s: State, pid: nat, k: nat)
    requires Ready(st, plan) && PlanShape(st, plan) && Accepting(world) && Along(st, plan, world, s, pid, k)
    ensures Progresses(st, plan, world, s, Next(s, Advance(pid, Reaction(s, pid, AcceptAll(world)))), pid, k)
  {
    hide Ready, PlanShape, Progresses, Checkpoint, AdvanceResolve, AdvanceChild, Accepting;
    AlongShape(st, plan, world, s, pid, k);
    var pc := s.procs[pid].pc;
    if IsChildStage(pc) {
      ChildAlong(st, plan, world, s, pid, k, pc.i);
    } else {
      match pc
      case AtClaim => ClaimAlong(st, plan, world, s, pid, k);
      case AtProof => ProofAlong(st, plan, world, s, pid, k);
      case AtPhase => TransferAlong(st, plan, world, s, pid, k);
      case AtComplete => CompleteAlong(st, plan, world, s, pid, k);
    }
  }

  /** Where an attempt can stand: at some checkpoint no earlier than `k`. */
  ghost predicate Within(st: Store, plan: ResolutionPlan, world: World, s: State, pid: nat, k: nat)
    requires Ready(st, plan) && PlanShape(st, plan)
  {
    Done(st, plan, world, s, pid) || exists at: nat :: k <= at && Along(st, plan, world, s, pid, at)
  }

  lemma {:induction false} DriveAlong(st: Store, plan: ResolutionPlan, world: World, s: State, pid: nat, k: nat, n: nat)
    requires Ready(st, plan) && PlanShape(st, plan) && Accepting(world) && Along(st, plan, world, s, pid, k)
    ensures Within(st, plan, world, Solo(s, pid, AcceptAll(world), n), pid, k)
    ensures n >= Rank(s.procs[pid].pc) ==> Done(st, plan, world, Solo(s, pid, AcceptAll(world), n), pid)
    decreases n
  {
    hide Ready, PlanShape, Done, Next, Accepting;
    RankPositive(st, plan, world, s, pid, k);
    assert k <= k && Along(st, plan, world, s, pid, k);
    if n > 0 {
      var t := Next(s, Advance(pid, Reaction(s, pid, AcceptAll(world))));
      StepAlong(st, plan, world, s, pid, k);
      if Done(st, plan, world, t, pid) {
        DriveDone(st, plan, world, t, pid, n - 1);
      } else {
        var next: nat :| k <= next <= k + 1 && Along(st, plan, world, t, pid, next)
            && Rank(t.procs[pid].pc) < Rank(s.procs[pid].pc);
        hide Along, Rank;
        DriveAlong(st, plan, world, t, pid, next, n - 1);
      }
    }
  }

  /** Checkpoints are passed one at a time: an attempt stands at each later one
      after some number of steps. */
  lemma {:induction false} StopsAt(st: Store, plan: ResolutionPlan, world: World, s: State, pid: nat, k: nat,
                                   goal: nat) returns (n: nat)
    requires Ready(st, plan) && PlanShape(st, plan) && Accepting(world) && pid in s.procs
             && Along(st, plan, world, s, pid, k) && k <= goal <= 8
    ensures Along(st, plan, world, Solo(s, pid, AcceptAll(world), n), pid, goal)
    decreases Rank(s.procs[pid].pc)
  {
    hide Ready, PlanShape, Done, Next, Accepting, Rank, Checkpoint;
    if k == goal {
      n := 0;
    } else {
      var t := Next(s, Advance(pid, Reaction(s, pid, AcceptAll(world))));
      StepAlong(st, plan, world, s, pid, k);
      var next: nat :| k <= next <= k + 1 && Along(st, plan, world, t, pid, next)
          && Rank(t.procs[pid].pc) < Rank(s.procs[pid].pc);
      hide Along;
      var rest := StopsAt(st, plan, world, t, pid, next, goal);
      n := rest + 1;
    }
  }

  lemma StillFlying(st: Store, plan: ResolutionPlan, world: World, s: State, pid: nat, k: nat)
    requires Ready(st, plan) && PlanShape(st, plan) && Along(st, plan, world, s, pid, k)
    ensures pid in s.procs
  {
    hide Ready, PlanShape, Checkpoint;
  }

  lemma RankPositive(st: Store, plan: ResolutionPlan, world: World, s: State, pid: nat, k: nat)
    requires Ready(st, plan) && PlanShape(st, plan) && Along(st, plan, world, s, pid, k)
    ensures 0 < Rank(s.procs[pid].pc) <= 20
  {
    hide Ready, PlanShape, Checkpoint;
  }

  lemma {:induction false} DriveDone(st: Store, plan: ResolutionPlan, world: World, s: State, pid: nat, n: nat)
    requires Ready(st, plan) && PlanShape(st, plan) && Done(st, plan, world, s, pid)
    ensures Solo(s, pid, AcceptAll(world), n) == s
    decreases n
  {
    if n > 0 {
      hide Ready, PlanShape, Checkpoint;
      DriveDone(st, plan, world, s, pid, n - 1);
    }
  }

  /** A quiet state at a checkpoint: nothing in flight holds a lease. */
  predicate Rests(st: Store, plan: ResolutionPlan, world: World, s: State, pid: nat, k: nat)
    requires Ready(st, plan) && PlanShape(st, plan)
  {
    k <= 9 && s.store == Checkpoint(st, plan, world, k) && pid !in s.procs && s.leases == map[]
  }

  /** One attempt, crashed after any number of steps, only moves forward along
      the crash-free run, and twenty steps are always enough to finish it. */
  lemma OneAttempt(st: Store, command: Command, plan: ResolutionPlan, made: Text, clock: Text, world: World, s: State,
                   pid: nat, k: nat, n: nat)
    returns (at: nat)
    requires Ready(st, plan) && Commands(command, plan, made) && PlanShape(st, plan) && Accepting(world)
    requires DecisionAt(command.payload, clock) == DecisionAt(command.payload, made)
    requires Rests(st, plan, world, s, pid, k)
    ensures k <= at && Rests(st, plan, world, Attempt(s, pid, command, clock, world, n), pid, at)
    ensures n >= 20 ==> at == 9
  {
    hide Ready, PlanShape, Commands, DecisionAt, Accepting, Next, Solo, Within, Done, Along;
    var begun := Next(s, BeginResolve(pid, command, clock));
    if k == 9 {
      BeginsDone(st, command, plan, made, clock, world, s, pid);
      RestIsDone(st, plan, world, s, pid);
      DriveDone(st, plan, world, s, pid, n);
      at := CrashRests(st, plan, world, s, pid, k);
    } else {
      BeginsAlong(st, command, plan, made, clock, world, s, pid, k);
      RankPositive(st, plan, world, begun, pid, k);
      DriveAlong(st, plan, world, begun, pid, k, n);
      at := CrashRests(st, plan, world, Solo(begun, pid, AcceptAll(world), n), pid, k);
    }
  }

  lemma RestIsDone(st: Store, plan: ResolutionPlan, world: World, s: State, pid: nat)
    requires Ready(st, plan) && PlanShape(st, plan) && Rests(st, plan, world, s, pid, 9)
    ensures Done(st, plan, world, s, pid) && Within(st, plan, world, s, pid, 9)
  {
    hide Ready, PlanShape, Checkpoint;
  }

  lemma CrashRests(st: Store, plan: ResolutionPlan, world: World, s: State, pid: nat, k: nat) returns (at: nat)
    requires Ready(st, plan) && PlanShape(st, plan) && k <= 9 && Within(st, plan, world, s, pid, k)
    ensures k <= at && Rests(st, plan, world, Next(s, Crash(pid)), pid, at)
    ensures Done(st, plan, world, s, pid) ==> at == 9
  {
    hide Ready, PlanShape, Checkpoint, Release, KidIs;
    if Done(st, plan, world, s, pid) {
      at := 9;
    } else {
      at :| k <= at && Along(st, plan, world, s, pid, at);
      AlongShape(st, plan, world, s, pid, at);
      var pc := s.procs[pid].pc;
      OnlyLeaseFreed(s, pid, if Leasing(pc) then plan.kids[pc.i].place.space else Plain(""));
    }
  }

  /** An attempt can be crashed exactly at any checkpoint up to the transfer. */
  lemma CrashesAt(st: Store, command: Command, plan: ResolutionPlan, clock: Text, world: World, s: State, pid: nat,
                  k: nat, goal: nat)
    returns (n: nat)
    requires Ready(st, plan) && Commands(command, plan, clock) && PlanShape(st, plan) && Accepting(world)
    requires Rests(st, plan, world, s, pid, k) && k <= goal <= 8
    ensures Rests(st, plan, world, Attempt(s, pid, command, clock, world, n), pid, goal)
  {
    hide Ready, PlanShape, Commands, DecisionAt, Accepting, Next, Solo, Along, Checkpoint;
    var begun := Next(s, BeginResolve(pid, command, clock));
    BeginsAlong(st, command, plan, clock, clock, world, s, pid, k);
    StillFlying(st, plan, world, begun, pid, k);
    n := StopsAt(st, plan, world, begun, pid, k, goal);
    CrashStops(st, plan, world, Solo(begun, pid, AcceptAll(world), n), pid, goal);
  }

  lemma CrashStops(st: Store, plan: ResolutionPlan, world: World, s: State, pid: nat, k: nat)
    requires Ready(st, plan) && PlanShape(st, plan) && k <= 9 && Along(st, plan, world, s, pid, k)
    ensures Rests(st, plan, world, Next(s, Crash(pid)), pid, k)
  {
    AlongShape(st, plan, world, s, pid, k);
    hide Ready, PlanShape, Checkpoint, Release, KidIs;
    var pc := s.procs[pid].pc;
    OnlyLeaseFreed(s, pid, if Leasing(pc) then plan.kids[pc.i].place.space else Plain(""));
  }

  /** Where each of several attempts was crashed, and what the clock read. */
  datatype Trial = Trial(steps: nat, clock: Text)

  function Attempts(s: State, pid: nat, command: Command, world: World, trials: seq<Trial>): State
    decreases |trials|
  {
    if trials == [] then s
    else Attempts(Attempt(s, pid, command, trials[0].clock, world, trials[0].steps), pid, command, world, trials[1..])
  }

  /** Crash-restart convergence. Take any number of attempts at one resolve
      command, each crashed anywhere, at clock readings that freeze the same
      decision time; one more attempt that is left to run ends in exactly the
      store the crash-free run ends in. */
  lemma {:induction false} Converges(st: Store, command: Command, plan: ResolutionPlan, made: Text, world: World,
                                     s: State, pid: nat, k: nat, trials: seq<Trial>) returns (end: nat)
    requires Ready(st, plan) && Commands(command, plan, made) && PlanShape(st, plan) && Accepting(world)
    requires forall trial ::
               trial in trials ==> DecisionAt(command.payload, trial.clock) == DecisionAt(command.payload, made)
    requires Rests(st, plan, world, s, pid, k)
    ensures k <= end && Rests(st, plan, world, Attempts(s, pid, command, world, trials), pid, end)
    ensures trials != [] && trials[|trials| - 1].steps >= 20 ==> end == 9
    decreases |trials|
  {
    hide Ready, PlanShape, Commands, DecisionAt, Accepting, Rests;
    end := k;
    if trials != [] {
      var next := Attempt(s, pid, command, trials[0].clock, world, trials[0].steps);
      var at := OneAttempt(st, command, plan, made, trials[0].clock, world, s, pid, k, trials[0].steps);
      hide Attempt;
      end := Converges(st, command, plan, made, world, next, pid, at, trials[1..]);
      NoCheckpointAfter(st, plan, world, Attempts(s, pid, command, world, trials), pid, end);
    }
  }

  lemma NoCheckpointAfter(st: Store, plan: ResolutionPlan, world: World, s: State, pid: nat, k: nat)
    requires Ready(st, plan) && PlanShape(st, plan) && Rests(st, plan, world, s, pid, k)
    ensures k <= 9
  {
    hide Ready, PlanShape, Checkpoint;
  }

  /** A payload that carries `decision_at` freezes one decision time at every
      clock reading, so every restart meets the premise of `Converges`. */
  lemma DecisionFrozen(payload: Payload, clock: Text, other: Text)
    requires clock != other
    ensures DecisionAt(payload, clock) == DecisionAt(payload, other) <==> Truthy(Get(payload, "decision_at"))
  {
  }

  // ------------------------------------------- when a restart cannot converge

  /** A restart whose children hash differently, before its first decision. */
  predicate Mismatched(st: Store, plan: ResolutionPlan, world: World, s: State, pid: nat, k: nat)
    requires Ready(st, plan) && PlanShape(st, plan)
  {
    && s.store == Checkpoint(st, plan, world, k)
    && (pid in s.procs ==>
          var proc := s.procs[pid];
          && proc.job.ResolveJob? && proc.job.plan.op == plan.op && proc.job.plan.related == plan.related
          && proc.job.plan.hash == plan.hash
          && |proc.kids| == 2 && proc.kids[0].At() == plan.kids[0].At() && proc.kids[0].hash != plan.kids[0].hash
          && proc.pc in {AtClaim, AtProof, AtLease(0), AtDecide(0)})
  }

  lemma MismatchStep(st: Store, plan: ResolutionPlan, world: World, s: State, pid: nat, k: nat, reply: Reply)
    requires Ready(st, plan) && PlanShape(st, plan) && Accepting(world) && 2 <= k <= 8
    requires Mismatched(st, plan, world, s, pid, k)
    ensures Mismatched(st, plan, world, Next(s, Advance(pid, reply)), pid, k)
  {
    hide Ready, Accepting, WinnerSide, Checkpoint, QueryOriginal, MetaKept, JobsKept, RowsKept, Release, ExecuteChild,
         MetaOnly, TransferTx, CompleteTx, ReadProof, NextChild, ReceiptAllowed, SpacesKept;
    assert TwoKids(st, plan);
    hide PlanShape;
    MetaAt(st, plan, world, k);
    EvidenceAt(st, plan, world, k, 0);
    if pid in s.procs && s.procs[pid].pc == AtClaim {
      assert ClaimTx(s.store, s.procs[pid].job.plan) == Ok(s.store);
    }
  }

  lemma {:induction false} DriveMismatched(st: Store, plan: ResolutionPlan, world: World, s: State, pid: nat, k: nat,
                                           n: nat)
    requires Ready(st, plan) && PlanShape(st, plan) && Accepting(world) && 2 <= k <= 8
    requires Mismatched(st, plan, world, s, pid, k)
    ensures Solo(s, pid, AcceptAll(world), n).store == s.store
    decreases n
  {
    hide Ready, PlanShape, Accepting, Next, Checkpoint, Reaction;
    if n > 0 {
      var t := Next(s, Advance(pid, Reaction(s, pid, AcceptAll(world))));
      MismatchStep(st, plan, world, s, pid, k, Reaction(s, pid, AcceptAll(world)));
      DriveMismatched(st, plan, world, t, pid, k, n - 1);
    }
  }

  /** Two decision times give the winner two payload hashes. */
  lemma DecisionsHashApart(place: Place, one: Text, other: Text)
    requires one != other
    ensures ChildHash(WinnerPayload(place, one)) != ChildHash(WinnerPayload(place, other))
  {
    var a, b := Without(WinnerPayload(place, one), GUARD_FIELDS), Without(WinnerPayload(place, other), GUARD_FIELDS);
    assert a["decision_at"] == Str(one) && b["decision_at"] == Str(other);
  }

  lemma MismatchBegins(st: Store, command: Command, plan: ResolutionPlan, made: Text, clock: Text, world: World,
                       s: State, pid: nat, k: nat)
    requires Ready(st, plan) && Commands(command, plan, made) && PlanShape(st, plan) && 2 <= k <= 8
    requires DecisionAt(command.payload, clock) != DecisionAt(command.payload, made)
    requires Rests(st, plan, world, s, pid, k)
    ensures Mismatched(st, plan, world, Next(s, BeginResolve(pid, command, clock)), pid, k)
  {
    hide Ready, ReadResolution, Checkpoint, WinnerPayload, LoserPayload, ChildHash, IsOperationId, ConflictPair,
         Truthy, PyStr, WinnerSide, DecisionAt, Declarations, ContractHash;
    ReadsPlan(st, command, plan, made, clock, world, s.store, k);
    DecisionsHashApart(plan.pair.At(plan.winner), DecisionAt(command.payload, clock),
                       DecisionAt(command.payload, made));
  }

  /** Once the winner's envelope is durable, a restart finishes the resolution
      if and only if it freezes the decision time of the first attempt; any
      other restart writes nothing, however far it is driven. */
  lemma RestartConvergesIff(st: Store, command: Command, plan: ResolutionPlan, made: Text, clock: Text, world: World,
                            s: State, pid: nat, k: nat, n: nat)
    requires Ready(st, plan) && Commands(command, plan, made) && PlanShape(st, plan) && Accepting(world)
    requires 2 <= k <= 8 && Rests(st, plan, world, s, pid, k) && n >= 20
    ensures var end := Attempt(s, pid, command, clock, world, n).store;
            && (end == Checkpoint(st, plan, world, 9) <==>
                  DecisionAt(command.payload, clock) == DecisionAt(command.payload, made))
            && (end != Checkpoint(st, plan, world, 9) ==> end == s.store)
  {
    hide Commands, Accepting, DecisionAt;
    if DecisionAt(command.payload, clock) == DecisionAt(command.payload, made) {
      hide Ready, PlanShape, Checkpoint, Attempt;
      var at := OneAttempt(st, command, plan, made, clock, world, s, pid, k, n);
    } else {
      hide Ready, PlanShape, Next, Solo;
      MismatchBegins(st, command, plan, made, clock, world, s, pid, k);
      var begun := Next(s, BeginResolve(pid, command, clock));
      DriveMismatched(st, plan, world, begun, pid, k, n);
      hide Checkpoint;
      CrashKeepsStore(Solo(begun, pid, AcceptAll(world), n), pid);
      LastDiffers(st, plan, world, k);
    }
  }

  lemma CrashKeepsStore(s: State, pid: nat)
    ensures Next(s, Crash(pid)).store == s.store
  {
  }

  lemma LastDiffers(st: Store, plan: ResolutionPlan, world: World, k: nat)
    requires Ready(st, plan) && PlanShape(st, plan) && k <= 8
    ensures Checkpoint(st, plan, world, k) != Checkpoint(st, plan, world, 9)
  {
    hide WinnerSide;
  }
}
