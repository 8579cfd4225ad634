/** When a conflict that awaits its resolution can still be completed: exactly
    while the locator points at it or at its resolution, and no child of that
    resolution has been settled against it. */
module CoordinatorCompletable {
  import opened Symbols
  import opened CoordinationRows
  import opened ChildEvidence
  import opened CoordinatorTransactions
  import opened CoordinatorProtocol
  import opened CoordinatorSafety
  import opened CoordinatorSteps
  import opened CoordinatorTheorems
  import opened CoordinatorIdentity
  import opened CoordinatorConvergence
  import opened CoordinatorRestart
  import opened CoordinatorStranded
  import opened CoordinatorAnchor
  import opened CoordinatorReceipts

  /** A child that can never be proven: its journal row is final and not an
      applied one, or its envelope is frozen under another payload hash. */
  predicate ChildSpoiled(store: Store, key: Key) {
    || (Settled(store, key) && !AppliedAt(store, key))
    || (key in store.envelopes && !Promised(store, key.id, store.envelopes[key].hash))
  }

  predicate ResolutionSpoiled(store: Store, r: Text)
    requires r in store.ops
  {
    store.ops[r].intent.pair.Some?
    && (ChildSpoiled(store, NamedKey(r, store.ops[r].intent, Winner))
        || ChildSpoiled(store, NamedKey(r, store.ops[r].intent, Loser)))
  }

  ghost predicate Spoiled(store: Store, c: Text) {
    exists r :: ResolvesConflict(store, r, c) && ResolutionSpoiled(store, r)
  }

  predicate Awaits(store: Store, c: Text) {
    c in store.ops && store.ops[c].kind == ActivateProvisional && store.ops[c].phase == AwaitingResolution
  }

  // -------------------------------------------------- completed needs all this

  lemma {:induction false} RunEvolves(sessions: map<Key, SessionRow>, actions: seq<Action>, more: seq<Action>)
    ensures Evolves(Reached(sessions, actions).store, Reached(sessions, actions + more).store)
    decreases |more|
  {
    hide Inv, Next, Evolves;
    var s := Reached(sessions, actions);
    if more == [] {
      assert actions + more == actions;
      Still(s.store);
    } else {
      var n := |more| - 1;
      RunEvolves(sessions, actions, more[..n]);
      assert (actions + more)[..|actions + more| - 1] == actions + more[..n];
      var u := Reached(sessions, actions + more[..n]);
      ReachedInv(sessions, actions + more[..n]);
      NextKeepsInv(u, more[n]);
      EvolvesOn(s.store, u.store, Next(u, more[n]).store);
    }
  }

  lemma EvolvesOn(a: Store, b: Store, c: Store)
    requires Evolves(a, b) && Evolves(b, c)
    ensures Evolves(a, c)
  {
    hide AppliedAt, Proven;
  }

  /** A completed conflict's resolution is the only one, and both its children are proven. */
  lemma CompletedIsProven(store: Store, c: Text, r: Text)
    requires MetaInv(store) && c in store.ops && store.ops[c].kind == ActivateProvisional
             && store.ops[c].phase == Completed
    requires ResolvesConflict(store, r, c)
    ensures store.ops[r].intent.pair.Some? && BothProven(store, r, Winner, Loser)
  {
    hide AnchorUnresolved, BothProven;
    assert RowOk(store, c);
    var done := store.ops[c].result.value.resolution;
    assert RowOk(store, done) && r == done;
  }

  lemma ProvenIsUnspoiled(sessions: map<Key, SessionRow>, actions: seq<Action>, more: seq<Action>, key: Key)
    requires Proven(Reached(sessions, actions + more).store, key)
    requires key.id.ChildId? && key.id.parent in Reached(sessions, actions).store.ops
    ensures !ChildSpoiled(Reached(sessions, actions).store, key)
  {
    var before, after := Reached(sessions, actions).store, Reached(sessions, actions + more).store;
    RunEvolves(sessions, actions, more);
    AppliedAsDeclared(sessions, actions + more, key);
    hide Reached, JournalOutcome;
    if Settled(before, key) && !AppliedAt(before, key) {
      SettledForever(sessions, actions, more, key);
      SameOutcome(before, after, key);
    }
    if key in before.envelopes { SamePromise(before, after, key); }
  }

  lemma SameOutcome(before: Store, after: Store, key: Key)
    requires key in before.journal && key in after.journal && after.journal[key] == before.journal[key]
    ensures JournalOutcome(after, key) == JournalOutcome(before, key)
  {
    hide QueryOriginal;
  }

  lemma SamePromise(before: Store, after: Store, key: Key)
    requires Evolves(before, after) && key in before.envelopes && key.id.ChildId? && key.id.parent in before.ops
    ensures key in after.envelopes
            && (Promised(after, key.id, after.envelopes[key].hash) <==>
                  Promised(before, key.id, before.envelopes[key].hash))
  {
    hide AppliedAt, Proven;
    assert SameIdentity(before.ops[key.id.parent], after.ops[key.id.parent]);
  }

  lemma CompletedNeeds(sessions: map<Key, SessionRow>, actions: seq<Action>, more: seq<Action>, c: Text)
    requires Awaits(Reached(sessions, actions).store, c)
    requires var t := Reached(sessions, actions + more).store; c in t.ops && t.ops[c].phase == Completed
    ensures Anchored(Reached(sessions, actions).store, c) && !Spoiled(Reached(sessions, actions).store, c)
  {
    hide Reached, Anchored, ChildSpoiled, Proven;
    var before, after := Reached(sessions, actions).store, Reached(sessions, actions + more).store;
    if !Anchored(before, c) { StrandedNeverCompletes(sessions, actions, more, c); }
    RunEvolves(sessions, actions, more);
    ReachedInv(sessions, actions + more);
    forall r | ResolvesConflict(before, r, c) ensures !ResolutionSpoiled(before, r) {
      KeptResolution(before, after, r, c);
      hide Evolves;
      CompletedIsProven(after, c, r);
      var intent := before.ops[r].intent;
      if intent.pair.Some? {
        ProvenIsUnspoiled(sessions, actions, more, NamedKey(r, intent, Winner));
        ProvenIsUnspoiled(sessions, actions, more, NamedKey(r, intent, Loser));
      }
    }
  }

  lemma KeptResolution(before: Store, after: Store, r: Text, c: Text)
    requires Evolves(before, after) && ResolvesConflict(before, r, c) && c in before.ops
             && before.ops[c].kind == ActivateProvisional
    ensures ResolvesConflict(after, r, c) && after.ops[r].intent == before.ops[r].intent && c in after.ops
            && after.ops[c].kind == ActivateProvisional
  {
    hide AppliedAt, Proven;
    assert SameIdentity(before.ops[r], after.ops[r]) && SameIdentity(before.ops[c], after.ops[c]);
  }

  // -------------------------------------------------------------- continuations

  /** Some continuation of `s` is in state `t`. */
  ghost predicate Leads(s: State, t: State) {
    exists actions :: Run(s, actions) == t
  }

  lemma LeadsItself(s: State)
    ensures Leads(s, s)
  {
    assert Run(s, []) == s;
  }

  lemma LeadsFurther(s: State, t: State, action: Action)
    requires Leads(s, t)
    ensures Leads(s, Next(t, action))
  {
    hide Next;
    var actions :| Run(s, actions) == t;
    assert (actions + [action])[..|actions|] == actions;
    assert Run(s, actions + [action]) == Next(t, action);
  }

  lemma LeadsOn(s: State, t: State, u: State)
    requires Leads(s, t) && Leads(t, u)
    ensures Leads(s, u)
  {
    hide Next;
    var first :| Run(s, first) == t;
    var rest :| Run(t, rest) == u;
    RunAppend(s, first, rest);
    assert Run(s, first + rest) == u;
  }

  lemma {:induction false} SoloLeads(s: State, t: State, pid: nat, uow: Uow, n: nat)
    requires Leads(s, t)
    ensures Leads(s, Solo(t, pid, uow, n))
    decreases n
  {
    hide Next;
    if n > 0 {
      var action := Advance(pid, Reaction(t, pid, uow));
      LeadsFurther(s, t, action);
      SoloLeads(s, Next(t, action), pid, uow, n - 1);
    }
  }

  lemma AttemptLeads(s: State, t: State, pid: nat, command: Command, clock: Text, world: World, n: nat)
    requires Leads(s, t)
    ensures Leads(s, Attempt(t, pid, command, clock, world, n))
  {
    hide Next, Solo;
    var begin := BeginResolve(pid, command, clock);
    LeadsFurther(s, t, begin);
    SoloLeads(s, Next(t, begin), pid, AcceptAll(world), n);
    LeadsFurther(s, Solo(Next(t, begin), pid, AcceptAll(world), n), Crash(pid));
  }

  /** What a continuation of a reached state reaches is reached. */
  lemma LeadsIsReached(sessions: map<Key, SessionRow>, actions: seq<Action>, t: State) returns (more: seq<Action>)
    requires Leads(Reached(sessions, actions), t)
    ensures Reached(sessions, actions + more) == t
  {
    hide Next;
    more :| Run(Reached(sessions, actions), more) == t;
    RunAppend(Fresh(sessions), actions, more);
  }

  /** Every command in flight dies; the rows stay as they are. */
  lemma {:induction false} CrashAll(s: State) returns (t: State)
    ensures Leads(s, t) && t.procs == map[] && t.store == s.store
    decreases |s.procs|
  {
    hide Run, Leads;
    if s.procs == map[] {
      LeadsItself(s);
      t := s;
    } else {
      var pid :| pid in s.procs;
      var u := Next(s, Crash(pid));
      LeadsItself(s);
      LeadsFurther(s, s, Crash(pid));
      assert u.procs == s.procs - {pid} && u.store == s.store;
      FewerCommands(s.procs, pid);
      t := CrashAll(u);
      LeadsOn(s, u, t);
    }
  }

  lemma FewerCommands(procs: map<nat, Proc>, pid: nat)
    requires pid in procs
    ensures |procs - {pid}| < |procs|
  {
    assert (procs - {pid}).Keys == procs.Keys - {pid};
    assert |procs.Keys - {pid}| == |procs.Keys| - 1;
  }

  /** An operation id no row has. */
  ghost function FreshId(ops: map<Text, Operation>): (id: Text)
    ensures id !in ops && IsOperationId(id)
  {
    var used := set o | o in ops :: Serial(o);
    var id := Digest(map["n" := Int(Unused(used))]);
    assert Serial(id) == Unused(used);
    assert id in ops ==> Serial(id) in used;
    id
  }

  function Serial(id: Text): nat {
    if id.Digest? && "n" in id.of && id.of["n"].Int? && id.of["n"].n >= 0 then id.of["n"].n else 0
  }

  /** The journal rows of a finalized, applied mutation. */
  function AppliedEntry(id: Text): JournalEntry {
    JournalEntry(Some(Finalized), Finalized, None, Listed({id}, {}), true, [])
  }

  lemma AppliedEntryApplies(id: Text)
    ensures QueryOriginal(Some(AppliedEntry(id)), id) == Applied
  {
  }

  // ------------------------------------------- the locator is at the conflict

  /** A Session row in conflict, its context known. */
  const CONFLICTING: SessionRow := SessionRow(false, InConflict, PendingValidity, None, true)

  function WithConflict(sessions: map<Key, SessionRow>, pair: Pair): map<Key, SessionRow> {
    sessions[Key(pair.active.space, pair.active.session) := CONFLICTING]
            [Key(pair.candidate.space, pair.candidate.session) := CONFLICTING]
  }

  function ChooseActive(id: Text): Command {
    Command(id, None, Plain(""), None, Plain(""), map["winner_role" := StrOf("active")])
  }

  lemma ChosenIsResolvable(store: Store, c: Text, clock: Text)
    requires MetaInv(store) && TrueRows(store) && Recorded(store) && Awaits(store, c)
    requires store.locator.Some? && store.locator.value.operation == c && store.ops[c].intent.pair.Some?
    requires InConflictAt(store, store.ops[c].intent.pair.value.active)
             && InConflictAt(store, store.ops[c].intent.pair.value.candidate)
    ensures Resolvable(store, ChooseActive(FreshId(store.ops)), clock)
    ensures ReadResolution(store, ChooseActive(FreshId(store.ops)), clock).Planned?
    ensures ReadResolution(store, ChooseActive(FreshId(store.ops)), clock).plan.related == c
  {
    assert FrozenRow(c, store.ops[c]) && WrittenRow(c, store.ops[c]);
    assert store.locator.value.state == Claiming && IsOperationId(c)
           && Place(store.locator.value.space, store.locator.value.session) == store.ops[c].intent.pair.value.active;
    hide MetaInv, TrueRows, Recorded, FrozenRow, WrittenRow, InConflictAt, FreshId, ConflictPair, IsOperationId;
    NeverEmpty(c);
    ChoosesActive(FreshId(store.ops));
    assert FreshId(store.ops) != c;
    hide ChooseActive, WinnerSide, Truthy, PyStr;
    PlanNames(store, ChooseActive(FreshId(store.ops)), clock);
  }

  lemma ChoosesActive(id: Text)
    ensures var command := ChooseActive(id);
            && command.id == id && WinnerSide(command.payload) == Some(ActiveSide) && command.epoch == None
            && !Truthy(Get(command.payload, "pair")) && "related_operation_id" !in command.payload
  {
  }

  /** What a new command's plan names, once it is planned at a conflict. */
  lemma PlanNames(store: Store, command: Command, clock: Text)
    requires ReadResolution(store, command, clock).Planned? && store.locator.Some?
             && store.locator.value.operation != command.id
    ensures var plan := ReadResolution(store, command, clock).plan;
            plan.related == store.locator.value.operation
            && plan.related in store.ops && store.ops[plan.related].intent.pair == Some(plan.pair)
  {
    hide IsOperationId, ConflictPair, WinnerSide, Truthy, PyStr, ResolutionChildren, Declarations, ContractHash,
         DecisionAt;
  }

  lemma NeverEmpty(id: Text)
    ensures IsOperationId(id) ==> !Empty(id)
  {
  }

  /** From a quiet state with the locator at an awaiting conflict. */
  lemma CompletesFromConflict(sessions: map<Key, SessionRow>, actions: seq<Action>, c: Text) returns (t: State)
    requires var s := Reached(sessions, actions);
             && s.procs == map[] && s.leases == map[] && Awaits(s.store, c)
             && s.store.locator.Some? && s.store.locator.value.operation == c
    ensures Leads(Reached(sessions, actions), t) && c in t.store.ops && t.store.ops[c].phase == Completed
  {
    hide *;
    var s := Reached(sessions, actions);
    Known(sessions, actions);
    HasPair(s.store, c);
    var pair := s.store.ops[c].intent.pair.value;
    var change := ChangeSessions(WithConflict(s.store.sessions, pair));
    var u := Next(s, change);
    LeadsItself(s);
    LeadsFurther(s, s, change);
    var more := LeadsIsReached(sessions, actions, u);
    Known(sessions, actions + more);
    NowInConflict(s, pair);
    SameAwaits(s.store, u.store, c);
    var command, clock := ChooseActive(FreshId(u.store.ops)), Plain("");
    ChosenIsResolvable(u.store, c, clock);
    var world: World := AppliedEntry;
    AcceptedWorld(world);
    var trials := OneTrial(u, 0, command, world, clock, 20);
    ReachedConverges(sessions, actions + more, 0, command, clock, world, trials);
    t := Attempts(u, 0, command, world, trials);
    AttemptLeads(s, u, 0, command, clock, world, 20);
    ResolvedCompletes(u.store, t.store, command.id, ReadResolution(u.store, command, clock).plan);
  }

  /** All that is known of a reached state's rows. */
  lemma Known(sessions: map<Key, SessionRow>, actions: seq<Action>)
    ensures var s := Reached(sessions, actions);
            MetaInv(s.store) && TableInv(s.store) && TrueRows(s.store) && Recorded(s.store) && Orderly(s)
  {
    hide Reached, MetaInv, TableInv, ProcsInv, TrueRows, Recorded, Orderly;
    ReachedInv(sessions, actions);
    ReachedIdentities(sessions, actions);
    ReachedRecords(sessions, actions);
    ReachedOrderly(sessions, actions);
  }

  lemma SameAwaits(before: Store, after: Store, c: Text)
    requires Awaits(before, c) && after.ops == before.ops
    ensures Awaits(after, c)
  {
  }

  lemma AcceptedWorld(world: World)
    requires world == AppliedEntry
    ensures Accepting(world)
  {
    hide QueryOriginal;
    forall id ensures QueryOriginal(Some(world(id)), id) == Applied { AppliedEntryApplies(id); }
  }

  lemma ResolvedCompletes(before: Store, after: Store, op: Text, plan: ResolutionPlan)
    requires Resolved(before, after, op, plan)
    ensures plan.related in after.ops && after.ops[plan.related].phase == Completed
  {
    hide Proven;
  }

  lemma OneTrial(s: State, pid: nat, command: Command, world: World, clock: Text, n: nat) returns (trials: seq<Trial>)
    ensures trials == [Trial(n, clock)] && trials[|trials| - 1].steps == n
    ensures forall trial ::
              trial in trials ==> DecisionAt(command.payload, trial.clock) == DecisionAt(command.payload, clock)
    ensures Attempts(s, pid, command, world, trials) == Attempt(s, pid, command, clock, world, n)
  {
    hide Attempt, DecisionAt;
    trials := [Trial(n, clock)];
    assert trials[1..] == [];
  }

  lemma HasPair(store: Store, c: Text)
    requires Recorded(store) && Awaits(store, c)
    ensures c in store.ops && store.ops[c].intent.pair.Some?
  {
    hide FrozenResolution;
    assert FrozenRow(c, store.ops[c]);
  }

  lemma NowInConflict(s: State, pair: Pair)
    ensures var u := Next(s, ChangeSessions(WithConflict(s.store.sessions, pair)));
            && InConflictAt(u.store, pair.active) && InConflictAt(u.store, pair.candidate)
            && u.procs == s.procs && u.leases == s.leases && u.store.ops == s.store.ops
            && u.store.locator == s.store.locator
  {
  }

  // ----------------------------------------- the locator is at its resolution

  /** The command whose payload the resolution row keeps. */
  function CommandOf(r: Text, row: Operation): Command {
    Command(r, None, Plain(""), None, Plain(""), row.intent.business)
  }

  function PlanOf(r: Text, row: Operation): ResolutionPlan
    requires row.intent.pair.Some? && row.related.Some?
  {
    MakePlan(CommandOf(r, row), row.related.value, row.intent.pair.value, SideOf(row.intent.business),
             row.intent.epoch - 1, false,
             FrozenDecision(row))
  }

  /** The row is exactly what issuing its command again would write. */
  lemma PlanRestored(r: Text, row: Operation)
    requires row.kind == ResolveConflict && FrozenResolution(r, row) && WrittenRow(r, row)
    ensures var plan := PlanOf(r, row);
            && Commands(CommandOf(r, row), plan, FrozenDecision(row)) && plan.intent == row.intent
            && plan.hash == row.hash
            && plan.op == r && plan.related == row.related.value && plan.pair == row.intent.pair.value
            && plan.epoch == row.intent.epoch && plan.expectedEpoch == row.intent.epoch - 1
            && plan.winner == SideOf(row.intent.business) && !plan.isRestart
  {
    hide IsOperationId, ConflictPair, WinnerSide, Truthy, PyStr, ResolutionChildren, Declarations, DecisionAt,
         ContractHash, ProperPair;
  }

  lemma KidsRestored(r: Text, row: Operation)
    requires row.kind == ResolveConflict && FrozenResolution(r, row) && WrittenRow(r, row)
    ensures var plan := PlanOf(r, row);
            && |plan.kids| == 2 && plan.kids[0].role == Winner && plan.kids[1].role == Loser
            && KidKept(r, row, plan.kids[0]) && KidKept(r, row, plan.kids[1])
  {
    hide IsOperationId, ConflictPair, Truthy, PyStr, WinnerPayload, LoserPayload, DecisionAt, ContractHash,
         ProperPair, ChildHash;
  }

  /** A child under its declared id and hash, at its declared place. */
  predicate KidKept(r: Text, row: Operation, kid: Child)
    requires row.intent.pair.Some?
  {
    && kid.id == ChildId(r, kid.role) && kid.place == NamedPlace(row.intent, kid.role)
    && row.intent.children.Some? && kid.role in row.intent.children.value
    && row.intent.children.value[kid.role].hash == kid.hash
    && kid.At() == NamedKey(r, row.intent, kid.role)
  }

  /** What a child that is not spoiled has left, in the order it was left:
      nothing, its envelope, an applied journal row, a succeeded receipt. */
  predicate Stages(store: Store, kid: Child) {
    var key := kid.At();
    && (key in store.envelopes ==> store.envelopes[key] == EnvelopeOf(kid))
    && (key in store.journal ==> key in store.envelopes && AppliedAt(store, key))
    && (key in store.receipts ==> key in store.journal && store.receipts[key] == Succeeded)
  }

  lemma KidStages(s: State, r: Text, kid: Child)
    requires TableInv(s.store) && TrueRows(s.store) && Orderly(s)
    requires r in s.store.ops && s.store.ops[r].intent.pair.Some? && KidKept(r, s.store.ops[r], kid)
    requires !ChildSpoiled(s.store, kid.At()) && JournalOutcome(s.store, kid.At()) != Inconclusive
    ensures Stages(s.store, kid)
  {
    var store, key := s.store, kid.At();
    hide WrittenRow, TrueLocator, OwnedEnvelope, QueryOriginal;
    assert key in store.envelopes ==> TrueEnvelope(store, key);
    assert key in store.receipts ==> Reports(store, key, store.receipts[key]);
    if key in store.receipts && store.receipts[key] != Succeeded {
      RefusedIsSettled(store, key);
      RefusedIsNotApplied(store, key);
    }
    assert Lookup(store.receipts, key) == Some(Succeeded) ==> AppliedAt(store, key);
    AppliedNeedsAllEvidence(Lookup(store.journal, key), key.id);
  }

  lemma RefusedIsNotApplied(store: Store, key: Key)
    ensures RefusedAt(store, key) ==> !AppliedAt(store, key)
  {
    hide QueryOriginal;
  }

  /** The store the resolution would have started from. */
  function Origin(store: Store, plan: ResolutionPlan): Store
    requires store.locator.Some? && |plan.kids| == 2
  {
    var gone := {plan.kids[0].At(), plan.kids[1].At()};
    Store(
      Some(store.locator.value.(operation := plan.related, epoch := plan.expectedEpoch,
                                space := plan.pair.active.space, session := plan.pair.active.session)),
      store.ops - {plan.op}, store.envelopes - gone, store.receipts - gone, store.journal - gone,
      WithConflict(store.sessions, plan.pair))
  }

  /** How many durable writes of the crash-free run the rows hold. */
  function StageOf(store: Store, plan: ResolutionPlan): nat
    requires |plan.kids| == 2 && plan.op in store.ops
  {
    var w, l := plan.kids[0].At(), plan.kids[1].At();
    if store.ops[plan.op].phase == Transferred then 8
    else if l in store.receipts then 7
    else if l in store.journal then 6
    else if l in store.envelopes then 5
    else if w in store.receipts then 4
    else if w in store.journal then 3
    else if w in store.envelopes then 2
    else 1
  }

  /** The unit of work that has answered as the journal says. */
  function WorldOf(store: Store, plan: ResolutionPlan): World
    requires |plan.kids| == 2
  {
    var w, l := plan.kids[0], plan.kids[1];
    (id: Text) =>
      if id == w.id && w.At() in store.journal then store.journal[w.At()]
      else if id == l.id && l.At() in store.journal then store.journal[l.At()]
      else AppliedEntry(id)
  }

  /** The evidence is that of some prefix of the crash-free run. */
  predicate InOrder(store: Store, plan: ResolutionPlan) {
    && |plan.kids| == 2 && plan.kids[0].At() != plan.kids[1].At() && plan.kids[0].id != plan.kids[1].id
    && plan.op in store.ops && (store.ops[plan.op].phase == Claimed || store.ops[plan.op].phase == Transferred)
    && Stages(store, plan.kids[0]) && Stages(store, plan.kids[1])
    && (plan.kids[1].At() in store.envelopes ==> plan.kids[0].At() in store.receipts)
    && (store.ops[plan.op].phase == Transferred ==> plan.kids[1].At() in store.receipts)
  }

  lemma WorldAccepts(store: Store, plan: ResolutionPlan)
    requires InOrder(store, plan)
    ensures Accepting(WorldOf(store, plan))
  {
    var world := WorldOf(store, plan);
    forall id ensures QueryOriginal(Some(world(id)), id) == Applied {
      AppliedEntryApplies(id);
      hide QueryOriginal;
    }
  }

  lemma AfterIs<T>(table: map<Key, T>, first: (Key, T), second: (Key, T), k: nat, firstAt: nat, secondAt: nat)
    requires first.0 != second.0 && firstAt <= secondAt
    requires (first.0 in table <==> k >= firstAt) && (first.0 in table ==> table[first.0] == first.1)
    requires (second.0 in table <==> k >= secondAt) && (second.0 in table ==> table[second.0] == second.1)
    ensures After(table - {first.0, second.0}, first, second, k, firstAt, secondAt) == table
  {
  }

  lemma TablesAtStage(store: Store, plan: ResolutionPlan)
    requires InOrder(store, plan) && store.locator.Some?
    ensures var st, world, k := Origin(store, plan), WorldOf(store, plan), StageOf(store, plan);
            var w, l := plan.kids[0], plan.kids[1];
            && After(st.envelopes, (w.At(), EnvelopeOf(w)), (l.At(), EnvelopeOf(l)), k, 2, 5) == store.envelopes
            && After(st.receipts, (w.At(), Succeeded), (l.At(), Succeeded), k, 4, 7) == store.receipts
            && After(st.journal, (w.At(), world(w.id)), (l.At(), world(l.id)), k, 3, 6) == store.journal
            && 1 <= k <= 8
  {
    hide After, JournalOutcome, WithConflict;
    var world, k, w, l := WorldOf(store, plan), StageOf(store, plan), plan.kids[0], plan.kids[1];
    AfterIs(store.envelopes, (w.At(), EnvelopeOf(w)), (l.At(), EnvelopeOf(l)), k, 2, 5);
    AfterIs(store.receipts, (w.At(), Succeeded), (l.At(), Succeeded), k, 4, 7);
    AfterIs(store.journal, (w.At(), world(w.id)), (l.At(), world(l.id)), k, 3, 6);
  }

  /** The Meta rows are those of a claimed or transferred resolution. */
  predicate Claims(store: Store, plan: ResolutionPlan) {
    && store.locator.Some? && plan.op in store.ops && plan.related in store.ops && plan.op != plan.related
    && var locator, row, target := store.locator.value, store.ops[plan.op], plan.pair.At(plan.winner);
    && locator.state == Claiming && locator.operation == plan.op && locator.epoch == plan.epoch
    && Place(locator.space, locator.session) == target && plan.epoch == plan.expectedEpoch + 1
    && row == NewResolution(plan).(phase := row.phase)
    && store.ops[plan.related].kind == ActivateProvisional && store.ops[plan.related].phase == AwaitingResolution
    && store.ops[plan.related].intent.pair == Some(plan.pair) && !Empty(plan.related)
    && plan.pair.active != plan.pair.candidate
  }

  lemma OriginIsReady(store: Store, command: Command, plan: ResolutionPlan, clock: Text)
    requires InOrder(store, plan) && Claims(store, plan) && Commands(command, plan, clock)
    ensures Ready(Origin(store, plan), plan) && PlanShape(Origin(store, plan), plan)
  {
    hide Commands, Stages, NewResolution;
    assert Ready(Origin(store, plan), plan);
    hide Ready, InOrder, Claims, Origin;
    PlanHasShape(Origin(store, plan), command, plan, clock);
  }

  lemma StoreAtStage(store: Store, plan: ResolutionPlan)
    requires InOrder(store, plan) && Claims(store, plan)
    requires Ready(Origin(store, plan), plan) && PlanShape(Origin(store, plan), plan)
    ensures var st, world, k := Origin(store, plan), WorldOf(store, plan), StageOf(store, plan);
            1 <= k <= 8 && store.(sessions := Checkpoint(st, plan, world, k).sessions) == Checkpoint(st, plan, world, k)
  {
    var st, world, k := Origin(store, plan), WorldOf(store, plan), StageOf(store, plan);
    TablesAtStage(store, plan);
    MetaAtStage(store, plan, k);
    hide After, Ready, PlanShape, InOrder, Claims, Origin, LocatorAt, OpsAt, StageOf, WorldOf;
  }

  lemma MetaAtStage(store: Store, plan: ResolutionPlan, k: nat)
    requires InOrder(store, plan) && Claims(store, plan) && k == StageOf(store, plan)
    ensures LocatorAt(Origin(store, plan), plan, k) == store.locator
    ensures plan.related in Origin(store, plan).ops && OpsAt(Origin(store, plan), plan, k) == store.ops
  {
    hide Stages, WithConflict;
    var row := NewResolution(plan);
    assert row.phase == Claimed;
    hide NewResolution;
    assert (store.ops - {plan.op})[plan.op := store.ops[plan.op]] == store.ops;
  }

  lemma ResolutionFacts(store: Store, r: Text, c: Text)
    requires MetaInv(store) && Awaits(store, c) && ResolvesConflict(store, r, c)
    ensures r != c && (store.ops[r].phase == Claimed || store.ops[r].phase == Transferred)
    ensures store.ops[r].intent.pair == store.ops[c].intent.pair
  {
    hide AnchorUnresolved, UniqueResolutions, BothProven, ContractHash, WinnerSide;
    assert RowOk(store, r);
  }

  lemma RowFacts(store: Store, op: Text)
    requires TrueRows(store) && Recorded(store) && op in store.ops
    ensures FrozenRow(op, store.ops[op]) && WrittenRow(op, store.ops[op])
  {
    hide FrozenRow, WrittenRow, TrueLocator, LocatorOk, TrueEnvelope;
  }

  lemma ConflictFacts(c: Text, row: Operation)
    requires FrozenRow(c, row) && WrittenRow(c, row) && row.kind == ActivateProvisional
    ensures row.intent.pair.Some? && row.intent.pair.value.active != row.intent.pair.value.candidate && !Empty(c)
  {
    hide ContractHash, DeclaresChild;
    NeverEmpty(c);
    assert ProperPair(row.intent.pair.value);
    hide IsOperationId;
  }

  lemma LocatorFacts(store: Store, r: Text)
    requires TrueRows(store) && Recorded(store) && r in store.ops && store.ops[r].kind == ResolveConflict
    requires store.locator.Some? && store.locator.value.operation == r && store.ops[r].phase != Completed
    ensures var locator, intent := store.locator.value, store.ops[r].intent;
            && locator.state == Claiming && locator.epoch == intent.epoch
            && Place(locator.space, locator.session) == Place(intent.space, intent.session)
  {
    hide FrozenRow, WrittenRow, TrueEnvelope;
  }

  /** The row is the one its own plan inserts, but for the phase. */
  lemma RowRestored(r: Text, row: Operation)
    requires row.kind == ResolveConflict && FrozenResolution(r, row) && WrittenRow(r, row) && row.phase != Completed
    ensures row.intent.pair.Some? && row.related.Some? && row == NewResolution(PlanOf(r, row)).(phase := row.phase)
  {
    RowParts(r, row);
    PlanRestored(r, row);
    hide PlanOf, FrozenResolution, WrittenRow, Commands;
  }

  lemma ClaimsRow(store: Store, r: Text, c: Text)
    requires MetaInv(store) && TrueRows(store) && Recorded(store) && Awaits(store, c) && ResolvesConflict(store, r, c)
    requires store.locator.Some? && store.locator.value.operation == r
    ensures FrozenResolution(r, store.ops[r]) && WrittenRow(r, store.ops[r])
    ensures store.ops[r].phase == Claimed || store.ops[r].phase == Transferred
    ensures Claims(store, PlanOf(r, store.ops[r]))
  {
    ResolutionFacts(store, r, c);
    RowFacts(store, r);
    RowFacts(store, c);
    ConflictFacts(c, store.ops[c]);
    LocatorFacts(store, r);
    assert FrozenResolution(r, store.ops[r]) by { hide FrozenResolution, WrittenRow; }
    hide *;
    PlanRestored(r, store.ops[r]);
    RowRestored(r, store.ops[r]);
    RowParts(r, store.ops[r]);
    ClaimsFrom(store, r, c);
  }

  lemma ClaimsFrom(store: Store, r: Text, c: Text)
    requires r != c && r in store.ops && c in store.ops && store.locator.Some? && store.locator.value.operation == r
    requires var row, intent, locator := store.ops[r], store.ops[r].intent, store.locator.value;
             && row.related == Some(c) && intent.pair.Some? && intent.pair == store.ops[c].intent.pair
             && locator.state == Claiming && locator.epoch == intent.epoch
             && Place(locator.space, locator.session) == Place(intent.space, intent.session)
             && intent.pair.value.At(SideOf(intent.business)) == Place(intent.space, intent.session)
             && row == NewResolution(PlanOf(r, row)).(phase := row.phase)
             && var plan := PlanOf(r, row);
             && plan.op == r && plan.related == c && plan.pair == intent.pair.value
             && plan.winner == SideOf(intent.business)
             && plan.epoch == intent.epoch && plan.expectedEpoch == intent.epoch - 1
    requires store.ops[c].kind == ActivateProvisional && store.ops[c].phase == AwaitingResolution && !Empty(c)
    requires store.ops[c].intent.pair.value.active != store.ops[c].intent.pair.value.candidate
    ensures Claims(store, PlanOf(r, store.ops[r]))
  {
    hide NewResolution, PlanOf, SideOf;
  }

  /** The parts of a frozen row that its plan repeats. */
  lemma RowParts(r: Text, row: Operation)
    requires FrozenResolution(r, row)
    ensures row.related.Some? && row.intent.pair.Some? && WinnerSide(row.intent.business).Some?
    ensures row.phase != Completed ==> row.result == None
    ensures row.intent.pair.value.At(SideOf(row.intent.business)) == Place(row.intent.space, row.intent.session)
  {
    hide ResolutionChildren, Declarations, DecisionAt, PayloadFits, WinnerSide, ContractHash;
  }

  lemma OrderOfEvidence(s: State, r: Text, c: Text)
    requires MetaInv(s.store) && TableInv(s.store) && TrueRows(s.store) && Orderly(s) && ResolvesConflict(s.store, r, c)
    requires FrozenResolution(r, s.store.ops[r]) && WrittenRow(r, s.store.ops[r])
    requires s.store.ops[r].phase == Claimed || s.store.ops[r].phase == Transferred
    requires !ResolutionSpoiled(s.store, r)
    requires JournalOutcome(s.store, NamedKey(r, s.store.ops[r].intent, Winner)) != Inconclusive
    requires JournalOutcome(s.store, NamedKey(r, s.store.ops[r].intent, Loser)) != Inconclusive
    ensures InOrder(s.store, PlanOf(r, s.store.ops[r]))
  {
    var store, row := s.store, s.store.ops[r];
    KidsRestored(r, row);
    PlanRestored(r, row);
    hide PlanOf, FrozenResolution, WrittenRow, ChildSpoiled, Stages, Commands;
    var w, l := PlanOf(r, row).kids[0], PlanOf(r, row).kids[1];
    KidStages(s, r, w);
    KidStages(s, r, l);
    WinnerIsFirst(store, r, l.At());
    hide MetaInv, TableInv, TrueRows, Orderly, AppliedAt, NamedPlace;
  }

  /** What the loser's envelope and the transfer had to wait for. */
  lemma WinnerIsFirst(store: Store, r: Text, loser: Key)
    requires MetaInv(store) && TableInv(store) && r in store.ops && store.ops[r].kind == ResolveConflict
             && store.ops[r].intent.pair.Some?
    requires loser == NamedKey(r, store.ops[r].intent, Loser)
    ensures loser in store.envelopes ==> Proven(store, NamedKey(r, store.ops[r].intent, Winner))
    ensures store.ops[r].phase == Transferred ==> Proven(store, loser)
  {
    assert RowOk(store, r);
    assert loser in store.envelopes ==> OwnedEnvelope(store, loser);
    hide MetaInv, TableInv, Proven, ContractHash, WinnerSide;
  }

  /** An unfinished mutation is recovered as applied. */
  lemma Recovered(s: State, t: State, key: Key) returns (u: State)
    requires Leads(s, t)
    ensures Leads(s, u) && u.procs == t.procs && u.leases == t.leases
    ensures u.store == t.store.(journal := u.store.journal)
    ensures JournalOutcome(u.store, key) != Inconclusive
    ensures forall k :: k != key ==> JournalOutcome(u.store, k) == JournalOutcome(t.store, k)
    ensures JournalOutcome(t.store, key) != Inconclusive ==>
              JournalOutcome(u.store, key) == JournalOutcome(t.store, key)
    ensures JournalOutcome(t.store, key) == Inconclusive ==> AppliedAt(u.store, key)
  {
    if JournalOutcome(t.store, key) == Inconclusive {
      var entry := AppliedEntry(key.id);
      u := Next(t, Recover(key, entry));
      AppliedEntryApplies(key.id);
      AppliedNeedsAllEvidence(Lookup(t.store.journal, key), key.id);
      hide QueryOriginal, Leads;
      LeadsFurther(s, t, Recover(key, entry));
    } else {
      u := t;
    }
  }

  lemma StillUnspoiled(before: Store, after: Store, r: Text)
    requires r in before.ops && !ResolutionSpoiled(before, r) && after == before.(journal := after.journal)
    requires forall k :: JournalOutcome(after, k) == JournalOutcome(before, k)
                         || (JournalOutcome(before, k) == Inconclusive && AppliedAt(after, k))
    ensures !ResolutionSpoiled(after, r)
  {
    forall k ensures Settled(after, k) && !AppliedAt(after, k) ==> Settled(before, k) && !AppliedAt(before, k) {
      AppliedNeedsAllEvidence(Lookup(before.journal, k), k.id);
      AppliedNeedsAllEvidence(Lookup(after.journal, k), k.id);
    }
    hide Settled, AppliedAt, NamedKey, JournalOutcome;
  }

  /** From a quiet state with the locator at the resolution. */
  lemma CompletesFromResolution(sessions: map<Key, SessionRow>, actions: seq<Action>, c: Text, r: Text)
    returns (t: State)
    requires var s := Reached(sessions, actions);
             && s.procs == map[] && s.leases == map[] && Awaits(s.store, c) && ResolvesConflict(s.store, r, c)
             && s.store.locator.Some? && s.store.locator.value.operation == r && !ResolutionSpoiled(s.store, r)
             && s.store.ops[r].intent.pair.Some?
             && JournalOutcome(s.store, NamedKey(r, s.store.ops[r].intent, Winner)) != Inconclusive
             && JournalOutcome(s.store, NamedKey(r, s.store.ops[r].intent, Loser)) != Inconclusive
    ensures Leads(Reached(sessions, actions), t) && c in t.store.ops && t.store.ops[c].phase == Completed
  {
    hide *;
    var s := Reached(sessions, actions);
    Known(sessions, actions);
    IsResolution(s.store, r, c);
    ClaimsRow(s.store, r, c);
    RowParts(r, s.store.ops[r]);
    OrderOfEvidence(s, r, c);
    var row, plan := s.store.ops[r], PlanOf(r, s.store.ops[r]);
    var command, clock := CommandOf(r, row), FrozenDecision(row);
    PlanRestored(r, row);
    OrderedPlan(s.store, plan);
    OriginIsReady(s.store, command, plan, clock);
    var st, world, k := Origin(s.store, plan), WorldOf(s.store, plan), StageOf(s.store, plan);
    ShapedPlan(st, plan);
    WorldAccepts(s.store, plan);
    StoreAtStage(s.store, plan);
    var change := ChangeSessions(Checkpoint(st, plan, world, k).sessions);
    LeadsItself(s);
    LeadsFurther(s, s, change);
    var u := Next(s, change);
    NowRests(s, st, plan, world, k);
    var at := OneAttempt(st, command, plan, clock, clock, world, u, 0, k, 20);
    t := Attempt(u, 0, command, clock, world, 20);
    AttemptLeads(s, u, 0, command, clock, world, 20);
    LastIsCompleted(st, plan, world, t);
  }

  lemma IsResolution(store: Store, r: Text, c: Text)
    requires ResolvesConflict(store, r, c)
    ensures r in store.ops && store.ops[r].kind == ResolveConflict && store.ops[r].related == Some(c)
  {
  }

  lemma OrderedPlan(store: Store, plan: ResolutionPlan)
    requires InOrder(store, plan)
    ensures |plan.kids| == 2 && plan.op in store.ops
  {
    hide Stages;
  }

  lemma ShapedPlan(st: Store, plan: ResolutionPlan)
    requires PlanShape(st, plan)
    ensures |plan.kids| == 2 && SessionAt(plan.kids[0]) in st.sessions && SessionAt(plan.kids[1]) in st.sessions
  {
    hide WinnerSide;
  }

  lemma NowRests(s: State, st: Store, plan: ResolutionPlan, world: World, k: nat)
    requires Ready(st, plan) && PlanShape(st, plan) && k <= 9 && s.procs == map[] && s.leases == map[]
    requires s.store.(sessions := Checkpoint(st, plan, world, k).sessions) == Checkpoint(st, plan, world, k)
    ensures Rests(st, plan, world, Next(s, ChangeSessions(Checkpoint(st, plan, world, k).sessions)), 0, k)
  {
    hide Ready, PlanShape, Checkpoint;
  }

  lemma LastIsCompleted(st: Store, plan: ResolutionPlan, world: World, t: State)
    requires Ready(st, plan) && PlanShape(st, plan) && Rests(st, plan, world, t, 0, 9)
    ensures plan.related in t.store.ops && t.store.ops[plan.related].phase == Completed
  {
  }

  /** A reached state in which nothing is in flight. */
  lemma Quieted(sessions: map<Key, SessionRow>, actions: seq<Action>) returns (more: seq<Action>)
    ensures var s, t := Reached(sessions, actions), Reached(sessions, actions + more);
            Leads(s, t) && t.procs == map[] && t.leases == map[] && t.store == s.store
  {
    hide *;
    var t := CrashAll(Reached(sessions, actions));
    more := LeadsIsReached(sessions, actions, t);
    Known(sessions, actions + more);
    NobodyLeases(t);
  }

  lemma NobodyLeases(t: State)
    requires Orderly(t) && t.procs == map[]
    ensures t.leases == map[]
  {
    assert forall space :: space !in t.leases;
  }

  lemma CanComplete(sessions: map<Key, SessionRow>, actions: seq<Action>, c: Text) returns (t: State)
    requires Awaits(Reached(sessions, actions).store, c)
    requires Anchored(Reached(sessions, actions).store, c) && !Spoiled(Reached(sessions, actions).store, c)
    ensures Leads(Reached(sessions, actions), t) && c in t.store.ops && t.store.ops[c].phase == Completed
  {
    hide *;
    var s := Reached(sessions, actions);
    var more := Quieted(sessions, actions);
    var q := Reached(sessions, actions + more);
    if q.store.locator.Some? && q.store.locator.value.operation == c {
      t := CompletesFromConflict(sessions, actions + more, c);
      LeadsOn(s, q, t);
    } else {
      Known(sessions, actions + more);
      var r := AnchoredResolution(q.store, c);
      ClaimsRow(q.store, r, c);
      RowParts(r, q.store.ops[r]);
      var intent := q.store.ops[r].intent;
      LeadsItself(q);
      var one := Recovered(q, q, NamedKey(r, intent, Winner));
      var two := Recovered(q, one, NamedKey(r, intent, Loser));
      var rest := LeadsIsReached(sessions, actions + more, two);
      StillUnspoiled(q.store, one.store, r);
      StillUnspoiled(one.store, two.store, r);
      SameResolution(q.store, two.store, r, c);
      t := CompletesFromResolution(sessions, actions + more + rest, c, r);
      LeadsOn(s, q, two);
      LeadsOn(s, two, t);
    }
  }

  lemma AnchoredResolution(store: Store, c: Text) returns (r: Text)
    requires Anchored(store, c) && !Spoiled(store, c) && !(store.locator.Some? && store.locator.value.operation == c)
    ensures store.locator.Some? && store.locator.value.operation == r && ResolvesConflict(store, r, c)
            && !ResolutionSpoiled(store, r)
  {
    r := store.locator.value.operation;
  }

  lemma SameResolution(before: Store, after: Store, r: Text, c: Text)
    requires after.ops == before.ops
    ensures Awaits(after, c) <==> Awaits(before, c)
    ensures ResolvesConflict(after, r, c) <==> ResolvesConflict(before, r, c)
  {
  }

  /** Exactly when a conflict that awaits its resolution can still be
      completed: some continuation completes it if and only if the locator
      points at it or at its resolution and no child of that resolution is
      settled against it. */
  lemma CompletableIff(sessions: map<Key, SessionRow>, actions: seq<Action>, c: Text)
    requires Awaits(Reached(sessions, actions).store, c)
    ensures var store := Reached(sessions, actions).store;
            (exists more :: CompletedBy(sessions, actions + more, c)) <==> Anchored(store, c) && !Spoiled(store, c)
  {
    hide *;
    forall more | CompletedBy(sessions, actions + more, c)
      ensures Anchored(Reached(sessions, actions).store, c) && !Spoiled(Reached(sessions, actions).store, c)
    {
      CompletedMeans(sessions, actions + more, c);
      CompletedNeeds(sessions, actions, more, c);
    }
    if Anchored(Reached(sessions, actions).store, c) && !Spoiled(Reached(sessions, actions).store, c) {
      var t := CanComplete(sessions, actions, c);
      var more := LeadsIsReached(sessions, actions, t);
      CompletedMeans(sessions, actions + more, c);
    }
  }

  predicate CompletedBy(sessions: map<Key, SessionRow>, actions: seq<Action>, c: Text) {
    var ops := Reached(sessions, actions).store.ops; c in ops && ops[c].phase == Completed
  }

  lemma CompletedMeans(sessions: map<Key, SessionRow>, actions: seq<Action>, c: Text)
    ensures var ops := Reached(sessions, actions).store.ops;
            CompletedBy(sessions, actions, c) <==> c in ops && ops[c].phase == Completed
  {
    hide Reached;
  }
}
