/** One run from an empty Meta database in which a phone's offline Session
    meets a running one: it shows that the premises of the conditional
    theorems are met by reached states. */
module ReachableRuns {
  import opened Symbols
  import opened CoordinationRows
  import opened ChildEvidence
  import opened CoordinatorTransactions
  import opened CoordinatorProtocol
  import opened CoordinatorSafety
  import opened CoordinatorTheorems
  import opened CoordinatorConvergence
  import opened CoordinatorRestart
  import opened CoordinatorActivation
  import opened CoordinatorCompletable
  import RecoveryWriter
  import RecoveryEvidence

  const RUNNING: Place := Place(Plain("home"), Plain("running"))
  const ARRIVED: Place := Place(Plain("home"), Plain("arrived"))

  const SESSIONS: map<Key, SessionRow> := map[
    Key(Plain("home"), Plain("running")) := SessionRow(false, Authoritatively, PendingValidity, None, true),
    Key(Plain("home"), Plain("arrived")) := SessionRow(false, LocalProvisional, PendingValidity, None, true)]

  const CLAIM: Command := Command(Plain("claim"), Some(Plain("home")), Plain("running"), None, Plain(""), map[
    "pair" := Obj(map["active" := Obj(PlacePayload(RUNNING)), "candidate" := Obj(PlacePayload(ARRIVED))]),
    "owner_device_id" := StrOf("phone"), "owner_tab_id" := StrOf("tab")])

  lemma ClaimNamesPair()
    ensures ConflictPair(CLAIM.payload) == Some(Pair(RUNNING, ARRIVED)) && IsOperationId(CLAIM.id)
  {
  }

  lemma ClaimMayActivate()
    ensures MayActivate(SESSIONS, [], 0, CLAIM)
    ensures Reached(SESSIONS, []) == Fresh(SESSIONS)
  {
    ClaimNamesPair();
    hide ConflictPair, NewConflict, IsOperationId;
    assert Reached(SESSIONS, []) == Fresh(SESSIONS);
  }

  lemma ReachedNext(sessions: map<Key, SessionRow>, actions: seq<Action>, action: Action)
    ensures Reached(sessions, actions + [action]) == Next(Reached(sessions, actions), action)
  {
    hide Next;
    assert (actions + [action])[..|actions|] == actions;
  }

  /** A conflict forsaken right after its claim. */
  lemma ForsakenAtOnce()
    ensures Forsaken(Reached(SESSIONS, [BeginActivate(0, CLAIM), Crash(0)]), CLAIM.id)
  {
    hide *;
    var s, begin := Reached(SESSIONS, []), BeginActivate(0, CLAIM);
    ClaimMayActivate();
    ReachedActivatable(SESSIONS, [], 0, CLAIM);
    Begun(s, 0, CLAIM);
    assert [] + [begin] == [begin];
    ReachedNext(SESSIONS, [], begin);
    JustClaimed(s, Next(s, begin), 0, CLAIM);
    DyingForsakes(SESSIONS, [begin], 0, CLAIM.id);
    assert [begin] + [Crash(0)] == [begin, Crash(0)];
  }

  lemma FirstInFlight(sessions: map<Key, SessionRow>)
    ensures Reached(sessions, []).procs == map[]
  {
  }

  // ------------------------------------------------------ the whole activation

  lemma IssueLeads(s: State, pid: nat, begin: Action, world: World, n: nat)
    ensures Leads(s, Issue(s, begin, pid, AcceptAll(world), n))
  {
    hide *;
    LeadsItself(s);
    LeadsFurther(s, s, begin);
    SoloLeads(s, Next(s, begin), pid, AcceptAll(world), n);
    LeadsFurther(s, Solo(Next(s, begin), pid, AcceptAll(world), n), Crash(pid));
    IssueIs(s, begin, pid, AcceptAll(world), n);
  }

  /** Left alone, the run awaits its resolution; a resolve command binds to it
      and `ReachedConverges` applies. */
  lemma ResolvableIsReached() returns (actions: seq<Action>, command: Command)
    ensures Resolvable(Reached(SESSIONS, actions).store, command, Plain(""))
    ensures Reached(SESSIONS, actions).procs == map[] && Reached(SESSIONS, actions).leases == map[]
    ensures Reached(SESSIONS, actions).store.locator == Some(CLAIMED) && command == ChooseActive(command.id)
    ensures ReadResolution(Reached(SESSIONS, actions).store, command, Plain("")).Planned?
    ensures ReadResolution(Reached(SESSIONS, actions).store, command, Plain("")).plan.pair == Pair(RUNNING, ARRIVED)
  {
    hide *;
    var s := Reached(SESSIONS, []);
    var world: World := AppliedEntry;
    ClaimMayActivate();
    FirstInFlight(SESSIONS);
    AcceptedWorld(world);
    ReachedActivationAwaits(SESSIONS, [], 0, CLAIM, world);
    var t := Issue(s, BeginActivate(0, CLAIM), 0, AcceptAll(world), 15);
    IssueLeads(s, 0, BeginActivate(0, CLAIM), world, 15);
    actions := LeadsIsReached(SESSIONS, [], t);
    assert [] + actions == actions;
    Known(SESSIONS, actions);
    AwaitingClaim(s, t);
    command := ChooseActive(FreshId(t.store.ops));
    ClaimIsLegible(s, t, AwaitingResolution);
    ChosenIsResolvable(t.store, CLAIM.id, Plain(""));
    ChoosesActive(FreshId(t.store.ops));
    assert CLAIM.id in t.store.ops by { AwaitsIsKnown(t.store); }
    PlanNames(t.store, command, Plain(""));
  }

  lemma AwaitsIsKnown(store: Store)
    ensures Awaits(store, CLAIM.id) ==> CLAIM.id in store.ops
  {
  }

  lemma AwaitingClaim(s: State, t: State)
    requires s == Reached(SESSIONS, []) && LeftIn(s, t, CLAIM, AwaitingResolution)
    ensures Awaits(t.store, CLAIM.id) && t.procs == map[] && t.leases == map[]
    ensures t.store.locator.Some? && t.store.locator.value.operation == CLAIM.id
    ensures t.store.ops[CLAIM.id].intent.pair == Some(Pair(RUNNING, ARRIVED))
    ensures InConflictAt(t.store, RUNNING) && InConflictAt(t.store, ARRIVED)
  {
    ClaimNamesPair();
    hide ConflictPair, NewConflict, IsOperationId, Proven;
  }

  // ------------------------------------------------ what the inspector is shown

  const CLAIMED: Locator :=
    Locator(Plain("home"), Plain("running"), Plain("claim"), Claiming, Plain("phone"), Plain("tab"), 1)

  lemma WordsAreAscii()
    ensures RecoveryEvidence.AsciiText(Plain("home")) && RecoveryEvidence.AsciiText(Plain("running"))
    ensures RecoveryEvidence.AsciiText(Plain("phone")) && RecoveryEvidence.AsciiText(Plain("tab"))
    ensures RecoveryWriter.PlainPayload(CLAIM.payload)
  {
  }

  lemma ClaimsAt()
    ensures ActivateTx(Fresh(SESSIONS).store, CLAIM).Ok?
            && ActivateTx(Fresh(SESSIONS).store, CLAIM).value.locator == Some(CLAIMED)
  {
    ClaimNamesPair();
    hide ConflictPair, NewConflict, IsOperationId;
  }

  lemma ClaimedRow(phase: Phase)
    ensures var row := NewConflict(CLAIM, Pair(RUNNING, ARRIVED)).(phase := phase);
            && row.kind == ActivateProvisional && row.phase == phase && row.intent.pair == Some(Pair(RUNNING, ARRIVED))
            && row.intent.space == Plain("home") && row.intent.session == Plain("running")
            && row.intent.business == CLAIM.payload
  {
    hide ContractHash, ConflictChildren;
  }

  lemma StartsFresh()
    ensures Reached(SESSIONS, []) == Fresh(SESSIONS)
  {
  }

  lemma ClaimIsLegible(s: State, t: State, phase: Phase)
    requires s == Reached(SESSIONS, []) && LeftIn(s, t, CLAIM, phase)
             && (phase == Claimed || phase == AwaitingResolution)
    ensures t.store.locator == Some(CLAIMED)
    ensures RecoveryWriter.PointsAt(t.store, CLAIM.id)
            && RecoveryWriter.Legible(t.store.locator.value, t.store.ops[CLAIM.id])
    ensures t.store.ops[CLAIM.id].phase == phase && t.store.ops[CLAIM.id].intent.pair == Some(Pair(RUNNING, ARRIVED))
  {
    ClaimNamesPair();
    WordsAreAscii();
    ClaimsAt();
    ClaimedRow(phase);
    StartsFresh();
    hide Reached, Fresh, ActivateTx, ConflictPair, NewConflict, IsOperationId, TookEffect, ConflictChildren,
         RecoveryEvidence.AsciiText, RecoveryWriter.PlainPayload;
  }

  /** An awaiting conflict that meets the premises of `AwaitingIsRecognised`. */
  lemma AwaitingIsReached() returns (actions: seq<Action>)
    ensures RecoveryWriter.Awaiting(Reached(SESSIONS, actions).store, CLAIM.id)
  {
    hide *;
    var s := Reached(SESSIONS, []);
    var world: World := AppliedEntry;
    ClaimMayActivate();
    AcceptedWorld(world);
    ReachedActivationAwaits(SESSIONS, [], 0, CLAIM, world);
    var t := Issue(s, BeginActivate(0, CLAIM), 0, AcceptAll(world), 15);
    IssueLeads(s, 0, BeginActivate(0, CLAIM), world, 15);
    actions := LeadsIsReached(SESSIONS, [], t);
    assert [] + actions == actions;
    AwaitingClaim(s, t);
    ClaimIsLegible(s, t, AwaitingResolution);
    AwaitingFrom(t.store);
  }

  lemma AwaitingFrom(store: Store)
    requires Awaits(store, CLAIM.id) && RecoveryWriter.PointsAt(store, CLAIM.id)
    requires RecoveryWriter.Legible(store.locator.value, store.ops[CLAIM.id])
             && store.ops[CLAIM.id].intent.pair == Some(Pair(RUNNING, ARRIVED))
    requires InConflictAt(store, RUNNING) && InConflictAt(store, ARRIVED)
    ensures RecoveryWriter.Awaiting(store, CLAIM.id)
  {
    hide RecoveryWriter.Legible;
  }

  /** A forsaken conflict that meets the premises of `ForsakenLooksAwaiting`. */
  lemma ForsakenAtLast() returns (actions: seq<Action>)
    ensures var store := Reached(SESSIONS, actions).store;
            && Forsaken(Reached(SESSIONS, actions), CLAIM.id)
            && RecoveryWriter.PointsAt(store, CLAIM.id)
            && RecoveryWriter.Legible(store.locator.value, store.ops[CLAIM.id])
            && store.ops[CLAIM.id].intent.pair.Some? && BothProven(store, CLAIM.id, Candidate, Active)
  {
    hide *;
    var s := Reached(SESSIONS, []);
    var world: World := AppliedEntry;
    ClaimMayActivate();
    AcceptedWorld(world);
    ReachedActivationDies(SESSIONS, [], 0, CLAIM, world);
    var t := Issue(s, BeginActivate(0, CLAIM), 0, AcceptAll(world), 14);
    IssueLeads(s, 0, BeginActivate(0, CLAIM), world, 14);
    actions := LeadsIsReached(SESSIONS, [], t);
    assert [] + actions == actions;
    ClaimIsLegible(s, t, Claimed);
    ClaimIsProven(s, t, Claimed);
  }

  lemma ClaimIsProven(s: State, t: State, phase: Phase)
    requires LeftIn(s, t, CLAIM, phase)
    ensures CLAIM.id in t.store.ops && t.store.ops[CLAIM.id].intent.pair.Some?
            && BothProven(t.store, CLAIM.id, Candidate, Active)
  {
    ClaimNamesPair();
    hide ConflictPair, IsOperationId, Proven, ContractHash, ActivateTx;
  }

  /** A transfer that meets the premises of `TransferredIsRecoverable`. */
  lemma TransferIsReached() returns (actions: seq<Action>, op: Text)
    ensures RecoveryWriter.MidResolution(Reached(SESSIONS, actions).store, op)
  {
    hide *;
    var before, command := ResolvableIsReached();
    var s, clock := Reached(SESSIONS, before), Plain("");
    var plan := ReadResolution(s.store, command, clock).plan;
    ReachedReady(SESSIONS, before, command, clock);
    var world: World := AppliedEntry;
    AcceptedWorld(world);
    RestsAtStart(s, plan, world);
    var n := CrashesAt(s.store, command, plan, clock, world, s, 0, 0, 8);
    var t := Attempt(s, 0, command, clock, world, n);
    LeadsItself(s);
    AttemptLeads(s, s, 0, command, clock, world, n);
    var more := LeadsIsReached(SESSIONS, before, t);
    actions, op := before + more, plan.op;
    MidFrom(s.store, command, plan, clock, world, t);
  }

  /** The transfer checkpoint, as the inspector sees it. */
  lemma MidFrom(st: Store, command: Command, plan: ResolutionPlan, clock: Text, world: World, t: State)
    requires Ready(st, plan) && PlanShape(st, plan) && Commands(command, plan, clock) && Rests(st, plan, world, t, 0, 8)
    requires command == ChooseActive(command.id) && plan.pair == Pair(RUNNING, ARRIVED) && st.locator == Some(CLAIMED)
    ensures RecoveryWriter.MidResolution(t.store, plan.op)
  {
    hide Ready, PlanShape, Commands, Checkpoint, ChooseActive, RecoveryWriter.Legible,
         RecoveryWriter.ResolvedSessions, NewResolution;
    MetaAt(st, plan, world, 8);
    ChosenBusiness(command, plan, clock);
    LegibleAt(st, plan, t.store.ops[plan.op]);
    ResolvedAt(st, plan, world);
  }

  lemma RestsAtStart(s: State, plan: ResolutionPlan, world: World)
    requires Ready(s.store, plan) && PlanShape(s.store, plan) && s.procs == map[] && s.leases == map[]
    ensures Rests(s.store, plan, world, s, 0, 0)
  {
    StartsAtZero(s.store, plan, world);
    hide Ready, PlanShape, Checkpoint;
  }

  lemma ChosenBusiness(command: Command, plan: ResolutionPlan, clock: Text)
    requires Commands(command, plan, clock) && command == ChooseActive(command.id)
    ensures NewResolution(plan).intent == plan.intent && NewResolution(plan).kind == ResolveConflict
    ensures plan.winner == ActiveSide && RecoveryWriter.PlainPayload(plan.intent.business)
  {
    hide IsOperationId, ConflictPair, Truthy, PyStr, ResolutionChildren, Declarations, DecisionAt, ContractHash;
  }

  lemma LegibleAt(st: Store, plan: ResolutionPlan, row: Operation)
    requires st.locator == Some(CLAIMED) && plan.pair == Pair(RUNNING, ARRIVED) && plan.winner == ActiveSide
    requires row.kind == ResolveConflict && RecoveryWriter.PlainPayload(row.intent.business)
    ensures RecoveryWriter.Legible(ClaimedLocator(st, plan), row)
  {
    WordsAreAscii();
    hide RecoveryEvidence.AsciiText, RecoveryWriter.PlainPayload;
  }

  /** After both children the Sessions are as the resolution promised. */
  lemma ResolvedAt(st: Store, plan: ResolutionPlan, world: World)
    requires Ready(st, plan) && PlanShape(st, plan)
    ensures RecoveryWriter.ResolvedSessions(Checkpoint(st, plan, world, 8), plan.intent)
  {
    hide WinnerSide, Declarations, Untouched;
  }
}
