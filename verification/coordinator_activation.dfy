/** An activation that nothing interrupts reaches `awaiting_resolution`, with
    both children proven and both Sessions in conflict; one that dies before
    that leaves a conflict nobody can complete. */
module CoordinatorActivation {
  import opened Symbols
  import opened CoordinationRows
  import opened ChildEvidence
  import opened CoordinatorTransactions
  import opened CoordinatorProtocol
  import opened CoordinatorSafety
  import opened CoordinatorSteps
  import opened CoordinatorTheorems
  import opened CoordinatorConvergence

  /** A conflict child about to be executed for the first time, by a command
      that holds no lease and meets none. */
  predicate Starts(s: State, pid: nat, i: nat) {
    && pid in s.procs && i < |s.procs[pid].kids| && s.procs[pid].pc == AtLease(i) && s.leases == map[]
    && var kid := s.procs[pid].kids[i];
    && kid.role in {Candidate, Active}
    && SessionAt(kid) in s.store.sessions && s.store.sessions[SessionAt(kid)].hasContext
    && kid.At() !in s.store.envelopes && kid.At() !in s.store.receipts && kid.At() !in s.store.journal
  }

  /** The state `k` steps into the execution of child `i`. */
  function ChildStep(s: State, pid: nat, i: nat, entry: JournalEntry, k: nat): State
    requires Starts(s, pid, i)
  {
    var proc := s.procs[pid];
    var kid := proc.kids[i];
    var key := kid.At();
    var before := if key in s.applied then s.applied[key] else 0;
    var pc := if k == 0 then AtLease(i) else if k == 1 then AtDecide(i) else if k == 2 then AtEnvelope(i)
              else if k == 3 then AtExecute(i) else if k == 4 then AtReceipt(i, Succeeded)
                   else if k == 5 then AtReadBack(i)
              else if i + 1 < |proc.kids| then AtLease(i + 1) else AtVerify(0);
    s.(procs := s.procs[pid := proc.(pc := pc)],
       leases := if 1 <= k <= 5 then map[kid.place.space := pid] else map[],
       applied := if k < 4 then s.applied else s.applied[key := before + 1],
       store := s.store.(
         envelopes := if k < 3 then s.store.envelopes else s.store.envelopes[key := EnvelopeOf(kid)],
         journal := if k < 4 then s.store.journal else s.store.journal[key := entry],
         sessions := if k < 4 then s.store.sessions
                     else s.store.sessions[SessionAt(kid) := ChildEffect(kid.role, s.store.sessions[SessionAt(kid)])],
         receipts := if k < 5 then s.store.receipts else s.store.receipts[key := Succeeded]))
  }

  lemma StepsOn(s: State, pid: nat, i: nat, world: World, k: nat)
    requires Starts(s, pid, i) && Accepting(world) && k < 6
    ensures var entry := world(s.procs[pid].kids[i].id);
            var t := ChildStep(s, pid, i, entry, k);
            Next(t, Advance(pid, Reaction(t, pid, AcceptAll(world)))) == ChildStep(s, pid, i, entry, k + 1)
  {
    var kid := s.procs[pid].kids[i];
    assert QueryOriginal(Some(world(kid.id)), kid.id) == Applied;
    hide *;
    if k < 3 {
      BeforeMutation(s, pid, i, world, k);
    } else if k == 3 {
      Mutates(s, pid, i, world);
    } else if k == 4 {
      Receipts(s, pid, i, world);
    } else {
      ReadsBack(s, pid, i, world);
    }
  }

  /** A child stage hands its child to the unit of work. */
  lemma HandsOver(s: State, pid: nat, i: nat, world: World)
    requires pid in s.procs && IsChildStage(s.procs[pid].pc) && s.procs[pid].pc.i == i && i < |s.procs[pid].kids|
    ensures Next(s, Advance(pid, Reaction(s, pid, AcceptAll(world)))) ==
              AdvanceChild(s, pid, i, Applies(world(s.procs[pid].kids[i].id)))
  {
    hide AdvanceChild;
  }

  lemma BeforeMutation(s: State, pid: nat, i: nat, world: World, k: nat)
    requires Starts(s, pid, i) && k < 3
    ensures var entry := world(s.procs[pid].kids[i].id);
            var t := ChildStep(s, pid, i, entry, k);
            Next(t, Advance(pid, Reaction(t, pid, AcceptAll(world)))) == ChildStep(s, pid, i, entry, k + 1)
  {
    hide QueryOriginal, Accepting, Next, Reaction, AcceptAll;
    HandsOver(ChildStep(s, pid, i, world(s.procs[pid].kids[i].id), k), pid, i, world);
  }

  lemma Mutates(s: State, pid: nat, i: nat, world: World)
    requires Starts(s, pid, i)
    requires var id := s.procs[pid].kids[i].id; QueryOriginal(Some(world(id)), id) == Applied
    ensures var entry := world(s.procs[pid].kids[i].id);
            var t := ChildStep(s, pid, i, entry, 3);
            Next(t, Advance(pid, Reaction(t, pid, AcceptAll(world)))) == ChildStep(s, pid, i, entry, 4)
  {
    hide QueryOriginal, Accepting, GateOpen, ChildEffect, Next, Reaction, AcceptAll;
    HandsOver(ChildStep(s, pid, i, world(s.procs[pid].kids[i].id), 3), pid, i, world);
  }

  lemma Receipts(s: State, pid: nat, i: nat, world: World)
    requires Starts(s, pid, i)
    ensures var entry := world(s.procs[pid].kids[i].id);
            var t := ChildStep(s, pid, i, entry, 4);
            Next(t, Advance(pid, Reaction(t, pid, AcceptAll(world)))) == ChildStep(s, pid, i, entry, 5)
  {
    hide QueryOriginal, Accepting, GateOpen, ChildEffect, Next, Reaction, AcceptAll;
    HandsOver(ChildStep(s, pid, i, world(s.procs[pid].kids[i].id), 4), pid, i, world);
  }

  lemma ReadsBack(s: State, pid: nat, i: nat, world: World)
    requires Starts(s, pid, i)
    ensures var entry := world(s.procs[pid].kids[i].id);
            var t := ChildStep(s, pid, i, entry, 5);
            Next(t, Advance(pid, Reaction(t, pid, AcceptAll(world)))) == ChildStep(s, pid, i, entry, 6)
  {
    hide QueryOriginal, Accepting, GateOpen, ChildEffect, Next, Reaction, AcceptAll;
    var t := ChildStep(s, pid, i, world(s.procs[pid].kids[i].id), 5);
    HandsOver(t, pid, i, world);
    assert Release(t, pid).leases == map[];
  }

  lemma OneMore(s: State, pid: nat, uow: Uow, n: nat)
    requires n > 0
    ensures Solo(s, pid, uow, n) == Solo(Next(s, Advance(pid, Reaction(s, pid, uow))), pid, uow, n - 1)
  {
  }

  lemma {:induction false} ChildRuns(s: State, pid: nat, i: nat, world: World, k: nat, n: nat)
    requires Starts(s, pid, i) && pid in s.procs && i < |s.procs[pid].kids| && Accepting(world) && k <= 6 && n >= 6 - k
    ensures var entry := world(s.procs[pid].kids[i].id);
            Solo(ChildStep(s, pid, i, entry, k), pid, AcceptAll(world), n)
            == Solo(ChildStep(s, pid, i, entry, 6), pid, AcceptAll(world), n - (6 - k))
    decreases 6 - k
  {
    hide *;
    if k < 6 {
      StepsOn(s, pid, i, world, k);
      OneMore(ChildStep(s, pid, i, world(s.procs[pid].kids[i].id), k), pid, AcceptAll(world), n);
      ChildRuns(s, pid, i, world, k + 1, n - 1);
    }
  }

  /** The child is proven, and its Session is as it was but for the conflict. */
  predicate TookEffect(before: map<Key, SessionRow>, after: Store, kid: Child) {
    && Proven(after, kid.At())
    && SessionAt(kid) in before && SessionAt(kid) in after.sessions
    && after.sessions[SessionAt(kid)] == before[SessionAt(kid)].(ownership := InConflict)
  }

  /** After the first child the second can start. */
  lemma SecondStarts(s: State, pid: nat, entry: JournalEntry)
    requires Starts(s, pid, 0) && |s.procs[pid].kids| == 2
    requires var kids := s.procs[pid].kids;
             && kids[1].role == Active && kids[0].At() != kids[1].At()
             && SessionAt(kids[1]) in s.store.sessions && s.store.sessions[SessionAt(kids[1])].hasContext
             && Untouched(s.store, kids)
    ensures Starts(ChildStep(s, pid, 0, entry, 6), pid, 1)
  {
  }

  lemma Verifies(s: State, pid: nat, i: nat, reply: Reply)
    requires pid in s.procs && i < |s.procs[pid].kids| && s.procs[pid].pc == AtVerify(i)
    requires Lookup(s.store.receipts, s.procs[pid].kids[i].At()) == Some(Succeeded)
    ensures Next(s, Advance(pid, reply)) ==
            s.(procs := s.procs[pid := s.procs[pid].(pc := if i + 1 < |s.procs[pid].kids| then AtVerify(i + 1)
                                                     else AtPhase)])
  {
  }

  lemma SetsPhase(s: State, pid: nat, op: Text, reply: Reply)
    requires pid in s.procs && s.procs[pid].job == ActivateJob(op) && s.procs[pid].pc == AtPhase && s.leases == map[]
             && op in s.store.ops
    ensures Next(s, Advance(pid, reply)) ==
            s.(procs := s.procs - {pid},
               store := s.store.(ops := s.store.ops[op := s.store.ops[op].(phase := AwaitingResolution)]))
  {
    assert Release(s, pid).leases == map[];
  }

  /** Both receipts are read back. */
  lemma ReadsReceipts(s: State, pid: nat, uow: Uow, n: nat)
    requires pid in s.procs && |s.procs[pid].kids| == 2 && s.procs[pid].pc == AtVerify(0) && n >= 2
    requires forall i :: 0 <= i < 2 ==> Lookup(s.store.receipts, s.procs[pid].kids[i].At()) == Some(Succeeded)
    ensures Solo(s, pid, uow, n) == Solo(s.(procs := s.procs[pid := s.procs[pid].(pc := AtPhase)]), pid, uow, n - 2)
  {
    hide *;
    var one := s.(procs := s.procs[pid := s.procs[pid].(pc := AtVerify(1))]);
    var two := s.(procs := s.procs[pid := s.procs[pid].(pc := AtPhase)]);
    assert one.procs[pid := one.procs[pid].(pc := AtPhase)] == two.procs;
    OneMore(s, pid, uow, n);
    OneMore(one, pid, uow, n - 1);
    Verifies(s, pid, 0, Reaction(s, pid, uow));
    Verifies(one, pid, 1, Reaction(one, pid, uow));
  }

  /** Then the phase is set. */
  lemma Settles(s: State, pid: nat, op: Text, uow: Uow)
    requires pid in s.procs && |s.procs[pid].kids| == 2 && s.procs[pid].job == ActivateJob(op)
             && s.procs[pid].pc == AtVerify(0)
    requires s.leases == map[] && op in s.store.ops
    requires forall i :: 0 <= i < 2 ==> Lookup(s.store.receipts, s.procs[pid].kids[i].At()) == Some(Succeeded)
    ensures Solo(s, pid, uow, 3) ==
            s.(procs := s.procs - {pid},
               store := s.store.(ops := s.store.ops[op := s.store.ops[op].(phase := AwaitingResolution)]))
  {
    hide *;
    var two := s.(procs := s.procs[pid := s.procs[pid].(pc := AtPhase)]);
    assert two.procs - {pid} == s.procs - {pid};
    ReadsReceipts(s, pid, uow, 3);
    OneMore(two, pid, uow, 1);
    SetsPhase(two, pid, op, Reaction(two, pid, uow));
    NoMore(Next(two, Advance(pid, Reaction(two, pid, uow))), pid, uow);
  }

  lemma NoMore(s: State, pid: nat, uow: Uow)
    ensures Solo(s, pid, uow, 0) == s
  {
  }

  /** The state after both children. */
  function BothRan(s: State, pid: nat, world: World): State
    requires Starts(s, pid, 0) && |s.procs[pid].kids| == 2
  {
    var one := ChildStep(s, pid, 0, world(s.procs[pid].kids[0].id), 6);
    if Starts(one, pid, 1) then ChildStep(one, pid, 1, world(s.procs[pid].kids[1].id), 6) else one
  }

  predicate TwoToRun(s: State, pid: nat) {
    && Starts(s, pid, 0) && |s.procs[pid].kids| == 2
    && var kids := s.procs[pid].kids;
    && kids[1].role == Active && kids[0].At() != kids[1].At() && SessionAt(kids[0]) != SessionAt(kids[1])
    && SessionAt(kids[1]) in s.store.sessions && s.store.sessions[SessionAt(kids[1])].hasContext
    && Untouched(s.store, kids)
  }

  /** What both children leave. */
  predicate BothLeft(s: State, pid: nat, t: State)
    requires pid in s.procs && |s.procs[pid].kids| == 2
  {
    && t.procs == s.procs[pid := s.procs[pid].(pc := AtVerify(0))] && t.leases == map[]
    && t.store.locator == s.store.locator && t.store.ops == s.store.ops
    && t.store.sessions.Keys == s.store.sessions.Keys
    && TookEffect(s.store.sessions, t.store, s.procs[pid].kids[0])
    && TookEffect(s.store.sessions, t.store, s.procs[pid].kids[1])
  }

  lemma CanRun(s: State, pid: nat)
    requires TwoToRun(s, pid)
    ensures pid in s.procs && |s.procs[pid].kids| == 2 && Starts(s, pid, 0)
  {
  }

  lemma BothRanIs(s: State, pid: nat, world: World)
    requires TwoToRun(s, pid)
    ensures pid in s.procs && |s.procs[pid].kids| == 2 && Starts(s, pid, 0)
    ensures var kids := s.procs[pid].kids;
            var one := ChildStep(s, pid, 0, world(kids[0].id), 6);
            && Starts(one, pid, 1) && BothRan(s, pid, world) == ChildStep(one, pid, 1, world(kids[1].id), 6)
            && one.procs[pid].kids == kids
  {
    SecondStarts(s, pid, world(s.procs[pid].kids[0].id));
    KidsOfStep(s, pid, 0, world(s.procs[pid].kids[0].id));
    hide ChildStep, Starts, Untouched;
  }

  lemma BothRun(s: State, pid: nat, world: World, n: nat)
    requires TwoToRun(s, pid) && Accepting(world) && n >= 12
    ensures pid in s.procs && |s.procs[pid].kids| == 2 && Starts(s, pid, 0)
    ensures Solo(s, pid, AcceptAll(world), n) == Solo(BothRan(s, pid, world), pid, AcceptAll(world), n - 12)
  {
    hide *;
    BothRanIs(s, pid, world);
    var kids := s.procs[pid].kids;
    var one := ChildStep(s, pid, 0, world(kids[0].id), 6);
    CanStart(one, pid, 1);
    StepZero(s, pid, 0, world(kids[0].id));
    StepZero(one, pid, 1, world(kids[1].id));
    ChildRuns(s, pid, 0, world, 0, n);
    ChildRuns(one, pid, 1, world, 0, n - 6);
  }

  lemma CanStart(s: State, pid: nat, i: nat)
    requires Starts(s, pid, i)
    ensures pid in s.procs && i < |s.procs[pid].kids| && s.procs[pid].pc == AtLease(i) && s.leases == map[]
  {
  }

  lemma StepZero(s: State, pid: nat, i: nat, entry: JournalEntry)
    requires Starts(s, pid, i)
    ensures ChildStep(s, pid, i, entry, 0) == s
  {
  }

  lemma KidsOfStep(s: State, pid: nat, i: nat, entry: JournalEntry)
    requires Starts(s, pid, i)
    ensures var t := ChildStep(s, pid, i, entry, 6); pid in t.procs && t.procs[pid].kids == s.procs[pid].kids
  {
  }

  /** What one child leaves alone, and where its command goes next. */
  lemma MetaOfStep(s: State, pid: nat, i: nat, entry: JournalEntry)
    requires Starts(s, pid, i)
    ensures var t := ChildStep(s, pid, i, entry, 6);
            && t.procs == s.procs[pid := s.procs[pid].(pc := if i + 1 < |s.procs[pid].kids| then AtLease(i + 1)
                                                       else AtVerify(0))]
            && t.leases == map[] && t.store.locator == s.store.locator && t.store.ops == s.store.ops
            && t.store.sessions.Keys == s.store.sessions.Keys
  {
  }

  /** What the first child leaves is still there after the second. */
  lemma EvidenceStays(u: State, pid: nat, world: World)
    requires Starts(u, pid, 0) && |u.procs[pid].kids| == 2 && Accepting(world)
    requires Starts(ChildStep(u, pid, 0, world(u.procs[pid].kids[0].id), 6), pid, 1)
    requires var kids := u.procs[pid].kids; SessionAt(kids[0]) != SessionAt(kids[1])
    ensures var kids := u.procs[pid].kids;
            var one := ChildStep(u, pid, 0, world(kids[0].id), 6);
            var two := ChildStep(one, pid, 1, world(kids[1].id), 6);
            TookEffect(u.store.sessions, two.store, kids[0]) && TookEffect(u.store.sessions, two.store, kids[1])
  {
    var kids := u.procs[pid].kids;
    var one := ChildStep(u, pid, 0, world(kids[0].id), 6);
    var two := ChildStep(one, pid, 1, world(kids[1].id), 6);
    assert QueryOriginal(Some(world(kids[0].id)), kids[0].id) == Applied
           && QueryOriginal(Some(world(kids[1].id)), kids[1].id) == Applied;
    hide QueryOriginal, Accepting;
    assert kids[0].At() != kids[1].At();
    assert JournalOutcome(two.store, kids[0].At()) == Applied;
    assert JournalOutcome(two.store, kids[1].At()) == Applied;
  }

  lemma BothDone(s: State, pid: nat, world: World)
    requires TwoToRun(s, pid) && Accepting(world)
    ensures pid in s.procs && |s.procs[pid].kids| == 2 && Starts(s, pid, 0) && BothLeft(s, pid, BothRan(s, pid, world))
  {
    BothRanIs(s, pid, world);
    hide Starts, ChildStep, Untouched, BothRan, TookEffect, Accepting, SessionAt;
    var kids := s.procs[pid].kids;
    var one := ChildStep(s, pid, 0, world(kids[0].id), 6);
    EvidenceStays(s, pid, world);
    MetaOfStep(s, pid, 0, world(kids[0].id));
    MetaOfStep(one, pid, 1, world(kids[1].id));
  }

  lemma ReceiptsLeft(s: State, pid: nat, t: State)
    requires pid in s.procs && |s.procs[pid].kids| == 2 && BothLeft(s, pid, t)
    ensures pid in t.procs && t.procs[pid].pc == AtVerify(0) && t.procs[pid].kids == s.procs[pid].kids
    ensures forall i :: 0 <= i < 2 ==> Lookup(t.store.receipts, s.procs[pid].kids[i].At()) == Some(Succeeded)
  {
    hide QueryOriginal;
  }

  // -------------------------------------------------------- the whole command

  /** A command that may claim, both its Sessions on record, and nothing yet
      written for its children. */
  predicate Activatable(s: State, pid: nat, command: Command) {
    && ActivateTx(s.store, command).Ok? && ConflictPair(command.payload).Some? && pid !in s.procs && s.leases == map[]
    && var kids := ConflictChildren(command, ConflictPair(command.payload).value);
    && Untouched(s.store, kids)
    && forall i :: 0 <= i < 2 ==>
         SessionAt(kids[i]) in s.store.sessions && s.store.sessions[SessionAt(kids[i])].hasContext
  }

  /** The conflict is in this phase, where the activation claimed the locator;
      both children are proven, both Sessions are in conflict. */
  predicate LeftIn(s: State, t: State, command: Command, phase: Phase) {
    && t.procs == s.procs && t.leases == map[] && ActivateTx(s.store, command).Ok?
    && ConflictPair(command.payload).Some?
    && var pair := ConflictPair(command.payload).value;
    && var kids := ConflictChildren(command, pair);
    && t.store.locator == ActivateTx(s.store, command).value.locator
    && t.store.ops == s.store.ops[command.id := NewConflict(command, pair).(phase := phase)]
    && t.store.sessions.Keys == s.store.sessions.Keys
    && TookEffect(s.store.sessions, t.store, kids[0]) && TookEffect(s.store.sessions, t.store, kids[1])
  }

  /** The command has just claimed. */
  predicate JustClaimedBy(s: State, u: State, pid: nat, command: Command) {
    && ActivateTx(s.store, command).Ok? && ConflictPair(command.payload).Some? && pid !in s.procs
    && var kids := ConflictChildren(command, ConflictPair(command.payload).value);
    && u.procs == s.procs[pid := Proc(ActivateJob(command.id), kids, None, AtLease(0))]
    && u.store == ActivateTx(s.store, command).value
    && u.store.ops == s.store.ops[command.id := NewConflict(command, ConflictPair(command.payload).value)]
  }

  lemma Begun(s: State, pid: nat, command: Command)
    requires Activatable(s, pid, command)
    ensures var u := Next(s, BeginActivate(pid, command)); JustClaimedBy(s, u, pid, command) && TwoToRun(u, pid)
  {
    hide *;
    BegunClaims(s, pid, command);
    BegunReady(s, Next(s, BeginActivate(pid, command)), pid, command);
  }

  lemma BegunClaims(s: State, pid: nat, command: Command)
    requires Activatable(s, pid, command)
    ensures var u := Next(s, BeginActivate(pid, command)); JustClaimedBy(s, u, pid, command) && u.leases == map[]
  {
    hide ConflictPair, NewConflict, ConflictChildren, ActivateTx, Untouched, SessionAt, RowsKept, StartTx, TouchTx,
         ReadResolution, EndClaimTx, AdvanceProc, WriteJournal, Finish, IsTouch;
    ActivateOps(s.store, command);
  }

  lemma ActivateOps(store: Store, command: Command)
    requires ActivateTx(store, command).Ok?
    ensures ConflictPair(command.payload).Some?
    ensures ActivateTx(store, command).value.ops ==
              store.ops[command.id := NewConflict(command, ConflictPair(command.payload).value)]
  {
    hide ConflictPair, NewConflict, IsOperationId;
  }

  lemma BegunReady(s: State, u: State, pid: nat, command: Command)
    requires Activatable(s, pid, command) && JustClaimedBy(s, u, pid, command) && u.leases == map[]
    ensures TwoToRun(u, pid)
  {
    DistinctChildren(command);
    hide ConflictPair, NewConflict, ConflictChildren, ActivateTx, SessionAt;
  }

  lemma DistinctChildren(command: Command)
    requires ConflictPair(command.payload).Some?
    ensures var kids := ConflictChildren(command, ConflictPair(command.payload).value);
            && kids[0].role == Candidate && kids[1].role == Active
            && kids[0].At() != kids[1].At() && SessionAt(kids[0]) != SessionAt(kids[1])
  {
    PairIsProper(command.payload);
    hide ConflictPair, ChildHash;
  }

  lemma PairIsProper(payload: Payload)
    ensures ConflictPair(payload).Some? ==> ConflictPair(payload).value.active != ConflictPair(payload).value.candidate
  {
  }

  lemma LeftFrom(s: State, u: State, pid: nat, two: State, t: State, command: Command, phase: Phase)
    requires JustClaimedBy(s, u, pid, command) && |u.procs[pid].kids| == 2 && BothLeft(u, pid, two)
             && command.id in two.store.ops
    requires t.procs == s.procs && t.leases == map[]
    requires t.store == two.store.(ops := two.store.ops[command.id := two.store.ops[command.id].(phase := phase)])
    ensures LeftIn(s, t, command, phase)
  {
    hide ActivateTx, ConflictPair, NewConflict, ConflictChildren, Proven, SessionAt;
    assert u.store.sessions == s.store.sessions;
    var kids := u.procs[pid].kids;
    SameEffect(u.store.sessions, two.store, t.store, kids[0]);
    SameEffect(u.store.sessions, two.store, t.store, kids[1]);
    hide TookEffect;
  }

  lemma SameEffect(sessions: map<Key, SessionRow>, before: Store, after: Store, kid: Child)
    requires TookEffect(sessions, before, kid) && after == before.(ops := after.ops)
    ensures TookEffect(sessions, after, kid)
  {
    hide QueryOriginal;
  }

  lemma JustClaimed(s: State, u: State, pid: nat, command: Command)
    requires JustClaimedBy(s, u, pid, command)
    ensures pid in u.procs && u.procs[pid].job == ActivateJob(command.id) && u.procs - {pid} == s.procs
    ensures command.id in u.store.ops && u.store.ops[command.id].phase == Claimed
  {
    hide ActivateTx, ConflictPair, ConflictChildren;
  }

  lemma LeftStays(s: State, pid: nat, t: State)
    requires pid in s.procs && |s.procs[pid].kids| == 2 && BothLeft(s, pid, t)
    ensures t.procs == s.procs[pid := s.procs[pid].(pc := AtVerify(0))] && t.leases == map[]
            && t.store.ops == s.store.ops
  {
    hide TookEffect;
  }

  /** An activation left to run, with a unit of work that accepts both
      children, ends with its conflict awaiting the resolution. */
  lemma ActivationAwaits(s: State, pid: nat, command: Command, world: World)
    requires Activatable(s, pid, command) && Accepting(world)
    ensures LeftIn(s, Issue(s, BeginActivate(pid, command), pid, AcceptAll(world), 15), command, AwaitingResolution)
  {
    hide *;
    var u := Next(s, BeginActivate(pid, command));
    Begun(s, pid, command);
    JustClaimed(s, u, pid, command);
    BothRun(u, pid, world, 15);
    BothDone(u, pid, world);
    var two := BothRan(u, pid, world);
    ReceiptsLeft(u, pid, two);
    LeftStays(u, pid, two);
    Settles(two, pid, command.id, AcceptAll(world));
    var t := Solo(u, pid, AcceptAll(world), 15);
    assert two.procs - {pid} == s.procs;
    NotInFlight(s, pid, command);
    CrashOfNone(t, pid);
    IssueIs(s, BeginActivate(pid, command), pid, AcceptAll(world), 15);
    LeftFrom(s, u, pid, two, t, command, AwaitingResolution);
  }

  /** The same activation, killed just before its last transaction. */
  lemma ActivationDies(s: State, pid: nat, command: Command, world: World)
    requires Activatable(s, pid, command) && Accepting(world)
    ensures LeftIn(s, Issue(s, BeginActivate(pid, command), pid, AcceptAll(world), 14), command, Claimed)
  {
    hide *;
    var u := Next(s, BeginActivate(pid, command));
    Begun(s, pid, command);
    JustClaimed(s, u, pid, command);
    BothRun(u, pid, world, 14);
    BothDone(u, pid, world);
    var two := BothRan(u, pid, world);
    ReceiptsLeft(u, pid, two);
    LeftStays(u, pid, two);
    ReadsReceipts(two, pid, AcceptAll(world), 2);
    var three := two.(procs := two.procs[pid := two.procs[pid].(pc := AtPhase)]);
    NoMore(three, pid, AcceptAll(world));
    KilledAt(three, pid);
    assert three.procs - {pid} == s.procs;
    IssueIs(s, BeginActivate(pid, command), pid, AcceptAll(world), 14);
    assert two.store.ops[command.id := two.store.ops[command.id].(phase := Claimed)] == two.store.ops;
    LeftFrom(s, u, pid, two, Next(three, Crash(pid)), command, Claimed);
  }

  lemma KilledAt(s: State, pid: nat)
    requires pid in s.procs && s.leases == map[]
    ensures Next(s, Crash(pid)) == s.(procs := s.procs - {pid})
  {
    assert Release(s, pid).leases == map[];
  }

  lemma NotInFlight(s: State, pid: nat, command: Command)
    requires Activatable(s, pid, command)
    ensures pid !in s.procs
  {
    hide ActivateTx, ConflictPair, ConflictChildren;
  }

  lemma IssueIs(s: State, begin: Action, pid: nat, uow: Uow, n: nat)
    ensures Issue(s, begin, pid, uow, n) == Next(Solo(Next(s, begin), pid, uow, n), Crash(pid))
  {
    hide Next, Solo;
  }

  lemma CrashOfNone(s: State, pid: nat)
    ensures pid !in s.procs ==> Next(s, Crash(pid)) == s
  {
  }

  /** Nothing was ever written for the children of an unknown conflict. */
  lemma NeverWritten(store: Store, command: Command)
    requires TableInv(store) && command.id !in store.ops && ConflictPair(command.payload).Some?
    ensures Untouched(store, ConflictChildren(command, ConflictPair(command.payload).value))
  {
    var kids := ConflictChildren(command, ConflictPair(command.payload).value);
    forall i | 0 <= i < 2 ensures kids[i].At() !in store.envelopes {
      assert kids[i].At() in store.envelopes ==> OwnedEnvelope(store, kids[i].At());
    }
  }

  /** In a reached state a command may claim the locator for a conflict whose
      Sessions are both on record, and nobody holds a lease. */
  ghost predicate MayActivate(sessions: map<Key, SessionRow>, actions: seq<Action>, pid: nat, command: Command) {
    var s := Reached(sessions, actions);
    && ActivateTx(s.store, command).Ok? && pid !in s.procs && s.leases == map[]
    && ConflictPair(command.payload).Some? && OnRecord(s.store, ConflictPair(command.payload).value)
  }

  lemma ReachedActivatable(sessions: map<Key, SessionRow>, actions: seq<Action>, pid: nat, command: Command)
    requires MayActivate(sessions, actions, pid, command)
    ensures Activatable(Reached(sessions, actions), pid, command)
  {
    hide Reached, ConflictPair, ActivateTx;
    var s := Reached(sessions, actions);
    ReachedInv(sessions, actions);
    NeverWritten(s.store, command);
    hide MetaInv, TableInv, ProcsInv, Untouched;
  }

  /** Left to run from any reached state, an accepted activation ends with its
      conflict awaiting the resolution. */
  lemma ReachedActivationAwaits(sessions: map<Key, SessionRow>, actions: seq<Action>, pid: nat, command: Command,
                                world: World)
    requires MayActivate(sessions, actions, pid, command) && Accepting(world)
    ensures var s := Reached(sessions, actions);
            LeftIn(s, Issue(s, BeginActivate(pid, command), pid, AcceptAll(world), 15), command, AwaitingResolution)
  {
    hide *;
    ReachedActivatable(sessions, actions, pid, command);
    ActivationAwaits(Reached(sessions, actions), pid, command, world);
  }

  /** Killed one step earlier, it leaves the same rows but for the phase, and
      a conflict that is forsaken although both children are proven. */
  lemma ReachedActivationDies(sessions: map<Key, SessionRow>, actions: seq<Action>, pid: nat, command: Command,
                              world: World)
    requires MayActivate(sessions, actions, pid, command) && Accepting(world)
    ensures var s := Reached(sessions, actions);
            var t := Issue(s, BeginActivate(pid, command), pid, AcceptAll(world), 14);
            LeftIn(s, t, command, Claimed) && Forsaken(t, command.id)
  {
    hide *;
    ReachedActivatable(sessions, actions, pid, command);
    var s := Reached(sessions, actions);
    ActivationDies(s, pid, command, world);
    ReachedInv(sessions, actions);
    NobodyElse(s, Issue(s, BeginActivate(pid, command), pid, AcceptAll(world), 14), command);
  }

  lemma NobodyElse(s: State, t: State, command: Command)
    requires Inv(s) && LeftIn(s, t, command, Claimed)
    ensures Forsaken(t, command.id)
  {
    assert command.id !in s.store.ops by { hide ConflictPair, ConflictChildren, TookEffect; }
    hide Inv, ActivateTx, ConflictPair, ConflictChildren, TookEffect;
    forall pid | pid in s.procs ensures s.procs[pid].job != ActivateJob(command.id) {
      ProcMetaOf(s, pid);
    }
  }

  predicate OnRecord(store: Store, pair: Pair) {
    var a, c := Key(pair.active.space, pair.active.session), Key(pair.candidate.space, pair.candidate.session);
    a in store.sessions && store.sessions[a].hasContext && c in store.sessions && store.sessions[c].hasContext
  }

  // --------------------------------------------------- the activation dies

  /** However far it came, an activation forsakes its conflict by dying. */
  lemma DyingForsakes(sessions: map<Key, SessionRow>, actions: seq<Action>, pid: nat, c: Text)
    requires var s := Reached(sessions, actions); pid in s.procs && s.procs[pid].job == ActivateJob(c)
    ensures Forsaken(Reached(sessions, actions + [Crash(pid)]), c)
  {
    hide Next, Inv;
    var s := Reached(sessions, actions);
    ReachedInv(sessions, actions);
    ProcMetaOf(s, pid);
    OnlyOneActivates(s, pid, c);
    assert (actions + [Crash(pid)])[..|actions|] == actions;
    hide Reached, Run;
    CrashForsakes(s, pid, c);
  }

  lemma OnlyOneActivates(s: State, pid: nat, c: Text)
    requires Inv(s) && pid in s.procs && s.procs[pid].job == ActivateJob(c)
    ensures forall q :: q in s.procs && q != pid ==> s.procs[q].job != ActivateJob(c)
  {
    hide MetaInv, TableInv, ProcOk;
  }

  lemma CrashForsakes(s: State, pid: nat, c: Text)
    requires pid in s.procs && s.procs[pid].job == ActivateJob(c) && ProcMeta(s.store, s.procs[pid])
    requires forall q :: q in s.procs && q != pid ==> s.procs[q].job != ActivateJob(c)
    ensures Forsaken(Next(s, Crash(pid)), c)
  {
  }
}
