/** Crash-restart convergence from every reached state in which a conflict
    awaits its resolution. */
module CoordinatorRestart {
  import opened Symbols
  import opened CoordinationRows
  import opened CoordinatorTransactions
  import opened CoordinatorProtocol
  import opened CoordinatorSafety
  import opened CoordinatorSteps
  import opened CoordinatorIdentity
  import opened CoordinatorConvergence
  import CoordinatorAnchor

  /** A resolve command, never seen before, that its read-only block binds to
      a conflict awaiting resolution, both Sessions in conflict. */
  predicate Resolvable(store: Store, command: Command, clock: Text) {
    && ReadResolution(store, command, clock).Planned? && command.id !in store.ops && store.locator.Some?
    && var plan := ReadResolution(store, command, clock).plan;
    && plan.related in store.ops && store.ops[plan.related].phase == AwaitingResolution
    && InConflictAt(store, plan.pair.active) && InConflictAt(store, plan.pair.candidate)
  }

  lemma PlanOfCommand(store: Store, command: Command, clock: Text)
    requires MetaInv(store) && TrueRows(store) && CoordinatorAnchor.LocatorOk(store)
             && Resolvable(store, command, clock)
    ensures var plan := ReadResolution(store, command, clock).plan;
            && Commands(command, plan, clock) && !Empty(plan.related)
            && store.locator.value.state == Claiming && store.locator.value.operation == plan.related
            && store.locator.value.epoch == plan.expectedEpoch
            && store.ops[plan.related].kind == ActivateProvisional
            && Place(store.locator.value.space, store.locator.value.session) == plan.pair.active
            && store.ops[plan.related].intent.pair == Some(plan.pair) && ProperPair(plan.pair)
  {
    hide IsOperationId, ConflictPair, WinnerSide, TrueEnvelope, TrueLocator, DecisionAt, ResolutionChildren,
         ContractHash, Declarations, UniqueResolutions, AnchorUnresolved, ConflictRow, ResolutionRow, InConflictAt;
    var plan := ReadResolution(store, command, clock).plan;
    assert WrittenRow(plan.related, store.ops[plan.related]);
  }

  /** Nothing was ever written for the children of an unknown operation. */
  lemma FreshChildren(store: Store, plan: ResolutionPlan)
    requires TableInv(store) && plan.op !in store.ops
    requires forall i :: 0 <= i < |plan.kids| ==> plan.kids[i].id.ChildId? && plan.kids[i].id.parent == plan.op
    ensures Untouched(store, plan.kids)
  {
    forall i | 0 <= i < |plan.kids| ensures plan.kids[i].At() !in store.envelopes {
      assert plan.kids[i].At() in store.envelopes ==> OwnedEnvelope(store, plan.kids[i].At());
    }
  }

  lemma KidsOfPlan(command: Command, plan: ResolutionPlan, clock: Text)
    requires Commands(command, plan, clock)
    ensures plan.op == command.id && forall i ::
              0 <= i < |plan.kids| ==> plan.kids[i].id.ChildId? && plan.kids[i].id.parent == plan.op
  {
    hide IsOperationId, ConflictPair, WinnerSide, DecisionAt, ContractHash, ChildHash, Declarations;
  }

  lemma ReachedReady(sessions: map<Key, SessionRow>, actions: seq<Action>, command: Command, clock: Text)
    requires Resolvable(Reached(sessions, actions).store, command, clock)
    ensures var store := Reached(sessions, actions).store;
            var plan := ReadResolution(store, command, clock).plan;
            Ready(store, plan) && Commands(command, plan, clock) && PlanShape(store, plan)
  {
    hide Reached, ReadResolution, Commands, PlanShape, InConflictAt, Untouched, TrueRows, CoordinatorAnchor.FrozenRow,
         CoordinatorAnchor.LocatorOk;
    var store := Reached(sessions, actions).store;
    var plan := ReadResolution(store, command, clock).plan;
    ReachedInv(sessions, actions);
    ReachedIdentities(sessions, actions);
    CoordinatorAnchor.ReachedRecords(sessions, actions);
    PlanOfCommand(store, command, clock);
    KidsOfPlan(command, plan, clock);
    FreshChildren(store, plan);
    hide MetaInv, TableInv, ProcsInv;
    PlanHasShape(store, command, plan, clock);
  }

  /** From any reached state where a command can resolve a conflict and nobody
      holds a lease: however often the command is crashed and issued again, if
      every clock reading freezes the decision time of the first, the last
      attempt, left to run, ends in the store of the crash-free run: the
      locator active at the winner one epoch later, both operations completed,
      both children proven. */
  lemma ReachedConverges(sessions: map<Key, SessionRow>, actions: seq<Action>, pid: nat, command: Command, clock: Text,
                         world: World, trials: seq<Trial>)
    requires var s := Reached(sessions, actions);
             Resolvable(s.store, command, clock) && pid !in s.procs && s.leases == map[] && Accepting(world)
    requires forall trial ::
               trial in trials ==> DecisionAt(command.payload, trial.clock) == DecisionAt(command.payload, clock)
    requires trials != [] && trials[|trials| - 1].steps >= 20
    ensures var s := Reached(sessions, actions);
            var t := Attempts(s, pid, command, world, trials);
            var plan := ReadResolution(s.store, command, clock).plan;
            && t.store == Attempt(s, pid, command, clock, world, 20).store
            && Resolved(s.store, t.store, command.id, plan)
  {
    var s := Reached(sessions, actions);
    var plan := ReadResolution(s.store, command, clock).plan;
    hide Reached, ReadResolution, Ready, Commands, PlanShape, Accepting, DecisionAt, Attempt, Checkpoint;
    ReachedReady(sessions, actions, command, clock);
    assert Rests(s.store, plan, world, s, pid, 0) by { StartsAtZero(s.store, plan, world); }
    hide Resolvable;
    var once := OneAttempt(s.store, command, plan, clock, clock, world, s, pid, 0, 20);
    var end := Converges(s.store, command, plan, clock, world, s, pid, 0, trials);
    FinalCheckpoint(s.store, command, plan, clock, world);
    ResolvedAtLast(s.store, command, plan, clock, world);
  }

  /** The outcome the coordinator promises. */
  predicate Resolved(before: Store, after: Store, op: Text, plan: ResolutionPlan) {
    && before.locator.Some? && after.locator.Some?
    && after.locator.value.state == ActiveState && after.locator.value.operation == op
    && after.locator.value.epoch == before.locator.value.epoch + 1
    && Place(after.locator.value.space, after.locator.value.session) == plan.pair.At(plan.winner)
    && op in after.ops && after.ops[op].phase == Completed
    && plan.related in after.ops && after.ops[plan.related].phase == Completed
    && after.ops[plan.related].result == Some(ResolvedBy(op))
    && |plan.kids| == 2 && Proven(after, plan.kids[0].At()) && Proven(after, plan.kids[1].At())
  }

  lemma StartsAtZero(st: Store, plan: ResolutionPlan, world: World)
    requires Ready(st, plan) && PlanShape(st, plan)
    ensures Checkpoint(st, plan, world, 0) == st
  {
  }

  lemma ResolvedAtLast(st: Store, command: Command, plan: ResolutionPlan, clock: Text, world: World)
    requires Ready(st, plan) && Commands(command, plan, clock) && Accepting(world) && PlanShape(st, plan)
    ensures Resolved(st, Checkpoint(st, plan, world, 9), command.id, plan)
  {
    assert command.id == plan.op by { hide Ready, Accepting, PlanShape; }
    hide Commands, Accepting;
    FinalCheckpoint(st, command, plan, clock, world);
    hide PlanShape, Proven;
  }
}
