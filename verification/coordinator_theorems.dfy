/** What holds in every state the coordinator can reach, whatever commands are
    interleaved and wherever they crash. */
module CoordinatorTheorems {
  import opened Symbols
  import opened CoordinationRows
  import opened ChildEvidence
  import opened CoordinatorTransactions
  import opened CoordinatorProtocol
  import opened CoordinatorSafety
  import opened CoordinatorSteps

  // ------------------------------------------------- at most once, per child

  /** A child's mutation is handed to the unit of work only while the journal
      has no trace of it, its envelope is durable, and its Space is leased. */
  lemma ExecutesOnlyUnexecuted(sessions: map<Key, SessionRow>, actions: seq<Action>, pid: nat, i: nat)
    requires pid in Reached(sessions, actions).procs && Reached(sessions, actions).procs[pid].pc == AtExecute(i)
    ensures var s := Reached(sessions, actions);
            && i < |s.procs[pid].kids|
            && var key := s.procs[pid].kids[i].At();
            && QueryOriginal(Lookup(s.store.journal, key), key.id) == NotExecuted
            && key in s.store.envelopes && Lookup(s.leases, key.space) == Some(pid)
  {
    hide Reached, QueryOriginal, Inv;
    ReachedInv(sessions, actions);
    ChildFacts(Reached(sessions, actions), pid, i);
    NotExecutedMeansAbsent(Reached(sessions, actions).store, Reached(sessions, actions).procs[pid].kids[i].At());
  }

  function Count(s: State, key: Key): nat {
    if key in s.applied then s.applied[key] else 0
  }

  ghost predicate Counted(s: State) {
    forall key :: Count(s, key) == if AppliedAt(s.store, key) then 1 else 0
  }

  /** A journal row that settles its child's fate. */
  predicate Settled(store: Store, key: Key) {
    key in store.journal && JournalOutcome(store, key) != Inconclusive
  }

  /** One step's effect on journals and counters. */
  ghost predicate JournalMove(s: State, t: State) {
    || (t.store.journal == s.store.journal && t.applied == s.applied)
    || exists key, entry :: JournalWrite(s, t, key, entry)
  }

  predicate JournalWrite(s: State, t: State, key: Key, entry: JournalEntry) {
    && !Settled(s.store, key)
    && t.store.journal == s.store.journal[key := entry]
    && t.applied == WriteJournal(s, key, entry).applied
  }

  lemma NextMovesJournal(s: State, action: Action)
    requires Inv(s)
    ensures JournalMove(s, Next(s, action))
  {
    hide Inv, QueryOriginal, ReadResolution, JournalMove, AdvanceProc, StartTx, ActivateTx, TouchTx, EndClaimTx;
    var t := Next(s, action);
    Steady(s, t);
    match action
    case Advance(pid, reply) => if pid in s.procs { AdvanceMovesJournal(s, pid, reply); }
    case Recover(key, entry) => if t != s { Written(s, t, key, entry); }
    case _ =>
  }

  lemma Steady(s: State, t: State)
    ensures t.store.journal == s.store.journal && t.applied == s.applied ==> JournalMove(s, t)
  {
  }

  lemma Written(s: State, t: State, key: Key, entry: JournalEntry)
    requires JournalWrite(s, t, key, entry)
    ensures JournalMove(s, t)
  {
  }

  lemma AdvanceMovesJournal(s: State, pid: nat, reply: Reply)
    requires Inv(s) && pid in s.procs
    ensures JournalMove(s, AdvanceProc(s, pid, reply))
  {
    hide Inv, JournalMove, AdvanceChild, AdvanceResolve, AdvanceActivate, AdvanceEnd;
    var proc := s.procs[pid];
    Steady(s, AdvanceProc(s, pid, reply));
    if IsChildStage(proc.pc) && proc.pc.i < |proc.kids| {
      ChildFacts(s, pid, proc.pc.i);
      ChildMovesJournal(s, pid, proc.pc.i, reply);
    }
  }

  lemma ChildMovesJournal(s: State, pid: nat, i: nat, reply: Reply)
    requires pid in s.procs && i < |s.procs[pid].kids|
    requires s.procs[pid].pc.AtExecute? ==> s.procs[pid].kids[i].At() !in s.store.journal
    ensures JournalMove(s, AdvanceChild(s, pid, i, reply))
  {
    hide JournalMove, ExecuteChild, Decide, ReceiptAllowed;
    Steady(s, AdvanceChild(s, pid, i, reply));
    if s.procs[pid].pc.AtExecute? { ExecuteMovesJournal(s, pid, i, reply); }
  }

  lemma ExecuteMovesJournal(s: State, pid: nat, i: nat, reply: Reply)
    requires pid in s.procs && i < |s.procs[pid].kids| && s.procs[pid].kids[i].At() !in s.store.journal
    ensures JournalMove(s, ExecuteChild(s, pid, i, reply))
  {
    hide QueryOriginal, MayApply;
    var t, key := ExecuteChild(s, pid, i, reply), s.procs[pid].kids[i].At();
    match reply
    case Applies(entry) => if t != s { assert JournalWrite(s, t, key, entry); }
    case Rejects(_, entry) => if t != s { assert JournalWrite(s, t, key, entry); }
    case Raises(Some(entry)) => if t != s { assert JournalWrite(s, t, key, entry); }
    case Raises(None) =>
  }

  lemma {:induction false} ReachedCounted(sessions: map<Key, SessionRow>, actions: seq<Action>)
    ensures Counted(Reached(sessions, actions))
  {
    hide Inv, Next;
    if actions != [] {
      var n := |actions| - 1;
      ReachedCounted(sessions, actions[..n]);
      ReachedInv(sessions, actions[..n]);
      CountedStep(Reached(sessions, actions[..n]), actions[n]);
    }
  }

  lemma CountedStep(s: State, action: Action)
    requires Inv(s) && Counted(s)
    ensures Counted(Next(s, action))
  {
    hide Inv, Next, QueryOriginal;
    NextMovesJournal(s, action);
    var t := Next(s, action);
    if t.store.journal != s.store.journal || t.applied != s.applied {
      var key, entry :| JournalWrite(s, t, key, entry);
      NotExecutedMeansAbsent(s.store, key);
      assert !AppliedAt(s.store, key);
      forall k ensures Count(t, k) == if AppliedAt(t.store, k) then 1 else 0 {
        assert Count(s, k) == if AppliedAt(s.store, k) then 1 else 0;
        if k != key { assert JournalOutcome(t.store, k) == JournalOutcome(s.store, k); }
      }
    } else {
      forall k ensures Count(t, k) == if AppliedAt(t.store, k) then 1 else 0 {
        assert Count(s, k) == if AppliedAt(s.store, k) then 1 else 0;
      }
    }
  }

  /** In every run each child mutation takes effect at most once, and exactly
      when the joint journal evidence says it was applied. */
  lemma AppliedAtMostOnce(sessions: map<Key, SessionRow>, actions: seq<Action>, key: Key)
    ensures var s := Reached(sessions, actions);
            Count(s, key) <= 1
            && (Count(s, key) == 1 <==> QueryOriginal(Lookup(s.store.journal, key), key.id) == Applied)
  {
    hide Reached, QueryOriginal;
    ReachedCounted(sessions, actions);
  }

  /** A child found applied, rejected, in conflict or aborted keeps that very
      journal row through every continuation: it is never replayed. */
  lemma {:induction false} SettledForever(sessions: map<Key, SessionRow>, actions: seq<Action>, more: seq<Action>,
                                          key: Key)
    requires Settled(Reached(sessions, actions).store, key)
    ensures var s, t := Reached(sessions, actions), Reached(sessions, actions + more);
            key in t.store.journal && t.store.journal[key] == s.store.journal[key]
    decreases |more|
  {
    hide Inv, Next, QueryOriginal;
    if more == [] {
      assert actions + more == actions;
    } else {
      var n := |more| - 1;
      SettledForever(sessions, actions, more[..n], key);
      assert (actions + more)[..|actions + more| - 1] == actions + more[..n];
      var u := Reached(sessions, actions + more[..n]);
      ReachedInv(sessions, actions + more[..n]);
      NextMovesJournal(u, more[n]);
      assert Settled(u.store, key);
    }
  }

  // ------------------------------------------------- evidence before phase

  /** An operation past its first phase has both named children proven. */
  lemma EvidenceBeforePhase(sessions: map<Key, SessionRow>, actions: seq<Action>, op: Text)
    requires op in Reached(sessions, actions).store.ops
    ensures var store := Reached(sessions, actions).store;
            var row := store.ops[op];
            && (row.kind in {ActivateProvisional, ResolveConflict} ==> row.intent.pair.Some?)
            && (row.kind == ActivateProvisional && row.phase != Claimed ==> BothProven(store, op, Candidate, Active))
            && (row.kind == ResolveConflict && row.phase != Claimed ==> BothProven(store, op, Winner, Loser))
  {
    hide Reached;
    ReachedInv(sessions, actions);
    hide TableInv, ProcsInv;
    assert RowOk(Reached(sessions, actions).store, op);
  }

  /** A loser (or active) envelope exists only after the winner's (or
      candidate's) mutation has been proven. */
  lemma FirstChildBeforeSecond(sessions: map<Key, SessionRow>, actions: seq<Action>, k: Key)
    requires k in Reached(sessions, actions).store.envelopes
    ensures var store := Reached(sessions, actions).store;
            && k.id.ChildId? && k.id.parent in store.ops && store.ops[k.id.parent].intent.pair.Some?
            && var intent := store.ops[k.id.parent].intent;
            && k == NamedKey(k.id.parent, intent, k.id.role)
            && (k.id.role == Active ==> Proven(store, NamedKey(k.id.parent, intent, Candidate)))
            && (k.id.role == Loser ==> Proven(store, NamedKey(k.id.parent, intent, Winner)))
  {
    hide Reached;
    ReachedInv(sessions, actions);
    hide MetaInv, ProcsInv;
    assert OwnedEnvelope(Reached(sessions, actions).store, k);
  }

  // ------------------------------------------------------ unique resolution

  /** At most one resolution is ever committed for a conflict. */
  lemma ResolutionIsUnique(sessions: map<Key, SessionRow>, actions: seq<Action>, r: Text, q: Text)
    requires var ops := Reached(sessions, actions).store.ops;
             && r in ops && ops[r].kind == ResolveConflict && q in ops && ops[q].kind == ResolveConflict
             && ops[r].related == ops[q].related
    ensures r == q
  {
    hide Reached;
    ReachedInv(sessions, actions);
    hide TableInv, ProcsInv, ConflictRow, ResolutionRow;
  }

  /** Completion is atomic: a resolution is completed exactly when the conflict
      it names is, and then the conflict names it back. */
  lemma CompletionIsAtomic(sessions: map<Key, SessionRow>, actions: seq<Action>, r: Text)
    requires r in Reached(sessions, actions).store.ops
             && Reached(sessions, actions).store.ops[r].kind == ResolveConflict
    ensures var ops := Reached(sessions, actions).store.ops;
            && ops[r].related.Some? && ops[r].related.value in ops
            && var c := ops[r].related.value;
            && ops[c].kind == ActivateProvisional
            && (ops[r].phase == Completed <==> ops[c].phase == Completed)
            && (ops[c].phase == Completed ==> ops[c].result == Some(ResolvedBy(r)))
  {
    hide Reached;
    ReachedInv(sessions, actions);
    var store := Reached(sessions, actions).store;
    hide TableInv, ProcsInv;
    assert RowOk(store, r);
    assert RowOk(store, store.ops[r].related.value);
  }

  // ------------------------------------------- a conflict nobody will finish

  /** The activation was abandoned before `awaiting_resolution`. */
  ghost predicate Forsaken(s: State, c: Text) {
    && c in s.store.ops && s.store.ops[c].kind == ActivateProvisional && s.store.ops[c].phase == Claimed
    && forall pid :: pid in s.procs ==> s.procs[pid].job != ActivateJob(c)
  }

  lemma AbandonedStep(s: State, action: Action, c: Text)
    requires Inv(s) && Forsaken(s, c)
    ensures Forsaken(Next(s, action), c)
  {
    hide AdvanceProc, WriteJournal, Forsaken;
    match action
    case Advance(pid, reply) =>
      if pid in s.procs {
        ProcMetaOf(s, pid);
        hide Inv;
        AbandonedAdvance(s, pid, reply, c);
      }
    case Recover(key, entry) =>
      hide Inv;
      RecoveryKeepsMeta(s, key, entry);
      ForsakenKept(s, WriteJournal(s, key, entry), c);
    case Crash(pid) => hide Inv; ForsakenKept(s, Finish(s, pid), c);
    case ChangeSessions(sessions) => hide Inv; ForsakenKept(s, s.(store := s.store.(sessions := sessions)), c);
    case _ => hide Inv, Next; AbandonedMeta(s, action, c);
  }

  lemma ForsakenKept(s: State, t: State, c: Text)
    requires Forsaken(s, c) && JobsKept(s, t) && t.store.ops == s.store.ops
    ensures Forsaken(t, c)
  {
  }

  lemma ProcMetaOf(s: State, pid: nat)
    requires Inv(s) && pid in s.procs
    ensures ProcMeta(s.store, s.procs[pid])
  {
    hide MetaInv, TableInv;
    assert ProcOk(s, pid);
  }

  /** The first transaction of any other command. */
  lemma AbandonedMeta(s: State, action: Action, c: Text)
    requires Forsaken(s, c) && !action.Advance? && !action.Recover? && !action.Crash? && !action.ChangeSessions?
    ensures Forsaken(Next(s, action), c)
  {
    hide ReadResolution, ActivateTx, StartTx, TouchTx, EndClaimTx, MetaOnly;
    match action
    case BeginActivate(pid, command) =>
    case BeginResolve(pid, command, clock) =>
    case BeginStart(pid, command) =>
    case BeginEnd(pid, command) =>
    case Touch(command, kind) =>
  }

  lemma RecoveryKeepsMeta(s: State, key: Key, entry: JournalEntry)
    ensures MetaKept(s, WriteJournal(s, key, entry)) && WriteJournal(s, key, entry).procs == s.procs
  {
  }

  lemma AbandonedAdvance(s: State, pid: nat, reply: Reply, c: Text)
    requires pid in s.procs && ProcMeta(s.store, s.procs[pid]) && Forsaken(s, c)
    ensures Forsaken(AdvanceProc(s, pid, reply), c)
  {
    hide AdvanceChild, AdvanceResolve, AdvanceActivate, AdvanceEnd, AdvanceStart, ProcMeta, Forsaken;
    var proc := s.procs[pid];
    if IsChildStage(proc.pc) && proc.pc.i < |proc.kids| {
      ForsakenKept(s, AdvanceChild(s, pid, proc.pc.i, reply), c);
    } else {
      match proc.job
      case ResolveJob(plan) => AbandonedResolve(s, pid, plan, c);
      case ActivateJob(op) => AbandonedActivate(s, pid, op, c);
      case EndJob(op, previous) => AbandonedEnd(s, pid, op, previous, c);
      case StartJob(place) => AbandonedStart(s, pid, place, reply, c);
    }
  }

  lemma AbandonedActivate(s: State, pid: nat, op: Text, c: Text)
    requires pid in s.procs && s.procs[pid].job == ActivateJob(op) && Forsaken(s, c)
    ensures Forsaken(AdvanceActivate(s, pid, op), c)
  {
    hide Finish, SpacesKept;
  }

  lemma RotationKeepsRows(store: Store, op: Text, previous: Text)
    ensures EndRotateTx(store, op, previous).Ok? ==> EndRotateTx(store, op, previous).value.ops == store.ops
  {
  }

  lemma AbandonedEnd(s: State, pid: nat, op: Text, previous: Text, c: Text)
    requires pid in s.procs && Forsaken(s, c)
    ensures Forsaken(AdvanceEnd(s, pid, op, previous), c)
  {
    hide Finish, Goto, SpacesKept, MetaOnly, RowsKept, Forsaken, EndRotateTx;
    RotationKeepsRows(s.store, op, previous);
    ForsakenKept(s, AdvanceEnd(s, pid, op, previous), c);
  }

  lemma AbandonedStart(s: State, pid: nat, place: Place, reply: Reply, c: Text)
    requires pid in s.procs && Forsaken(s, c)
    ensures Forsaken(AdvanceStart(s, pid, place, reply), c)
  {
    hide Finish;
  }

  lemma AbandonedResolve(s: State, pid: nat, plan: ResolutionPlan, c: Text)
    requires pid in s.procs && s.procs[pid].job == ResolveJob(plan) && ProcMeta(s.store, s.procs[pid]) && Forsaken(s, c)
    ensures Forsaken(AdvanceResolve(s, pid, plan), c)
  {
    hide ReadProof, PlanOk, KidIs, Finish, Goto;
    match s.procs[pid].pc
    case AtClaim =>
    case AtPhase =>
    case AtComplete =>
    case _ =>
  }

  /** Convergence needs the conflict to be in `awaiting_resolution`: if its
      activation was crashed before that, no continuation ever completes it,
      nor any resolution of it. */
  lemma {:induction false} AbandonedNeverCompletes(sessions: map<Key, SessionRow>, actions: seq<Action>,
                                                   more: seq<Action>, c: Text)
    requires Forsaken(Reached(sessions, actions), c)
    ensures var t := Reached(sessions, actions + more);
            && Forsaken(t, c)
            && forall r ::
                 r in t.store.ops && t.store.ops[r].kind == ResolveConflict && t.store.ops[r].related == Some(c) ==>
                   t.store.ops[r].phase != Completed
    decreases |more|
  {
    hide Inv, Next, Forsaken;
    if more == [] {
      assert actions + more == actions;
    } else {
      var n := |more| - 1;
      AbandonedNeverCompletes(sessions, actions, more[..n], c);
      assert (actions + more)[..|actions + more| - 1] == actions + more[..n];
      ReachedInv(sessions, actions + more[..n]);
      AbandonedStep(Reached(sessions, actions + more[..n]), more[n], c);
    }
    NotCompleted(sessions, actions + more, c);
  }

  lemma NotCompleted(sessions: map<Key, SessionRow>, actions: seq<Action>, c: Text)
    requires Forsaken(Reached(sessions, actions), c)
    ensures var t := Reached(sessions, actions);
            forall r ::
              r in t.store.ops && t.store.ops[r].kind == ResolveConflict && t.store.ops[r].related == Some(c) ==>
                t.store.ops[r].phase != Completed
  {
    hide Reached;
    var t := Reached(sessions, actions);
    forall r | r in t.store.ops && t.store.ops[r].kind == ResolveConflict && t.store.ops[r].related == Some(c)
      ensures t.store.ops[r].phase != Completed
    {
      CompletionIsAtomic(sessions, actions, r);
    }
  }
}
