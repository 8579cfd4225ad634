/** The receipts the coordinator leaves. They are written once, they report
    what the journal holds, and the receipt policy's own rule, as the reconciler
    meets it, is the rule the coordinator's writes run into. */
module CoordinatorReceipts {
  import opened Symbols
  import opened CoordinationRows
  import opened ChildEvidence
  import opened CoordinatorTransactions
  import opened CoordinatorProtocol
  import opened CoordinatorSafety
  import opened CoordinatorSteps
  import opened CoordinatorTheorems
  import Reconciling = ReconcilerProtocol

  /** The journal holds a final refusal. */
  predicate RefusedAt(store: Store, key: Key) {
    JournalOutcome(store, key) == RejectedOutcome || JournalOutcome(store, key) == ConflictOutcome
  }

  predicate Reports(store: Store, key: Key, state: ReceiptState) {
    state == Succeeded || ((state == Failed || state == Conflicted) && RefusedAt(store, key))
  }

  /** A command about to write a receipt knows what it reports. */
  predicate ReceiptPending(store: Store, proc: Proc) {
    proc.pc.AtReceipt? ==>
      proc.pc.i < |proc.kids| && (proc.pc.state == Unknown || Reports(store, proc.kids[proc.pc.i].At(), proc.pc.state))
  }

  /** Envelopes as the coordinator freezes them, receipts as it may write them,
      and no lease without a command that holds it. */
  ghost predicate Orderly(s: State) {
    && (forall k :: k in s.store.envelopes ==> s.store.envelopes[k].replaySafe && s.store.envelopes[k].completes)
    && (forall k :: k in s.store.receipts ==> Reports(s.store, k, s.store.receipts[k]))
    && (forall pid :: pid in s.procs ==> ReceiptPending(s.store, s.procs[pid]))
    && (forall space :: space in s.leases ==> s.leases[space] in s.procs)
  }

  /** A refusal stays where it is. */
  lemma RefusalStays(s: State, action: Action)
    requires Inv(s)
    ensures forall k :: RefusedAt(s.store, k) ==> RefusedAt(Next(s, action).store, k)
  {
    hide Inv, Next, QueryOriginal;
    NextMovesJournal(s, action);
    var t := Next(s, action);
    forall k | RefusedAt(s.store, k) ensures RefusedAt(t.store, k) {
      RefusedIsSettled(s.store, k);
      if t.store.journal != s.store.journal {
        var key, entry :| JournalWrite(s, t, key, entry);
        assert k != key;
      }
    }
  }

  lemma RefusedIsSettled(store: Store, k: Key)
    requires RefusedAt(store, k)
    ensures Settled(store, k)
  {
    AppliedNeedsAllEvidence(Lookup(store.journal, k), k.id);
  }

  // ------------------------------------------------------------------- frames

  /** What a step may do to envelopes, receipts, leases and commands. */
  ghost predicate OrderlyMove(s: State, t: State, pid: nat) {
    && (forall k :: k in t.store.envelopes ==>
          (k in s.store.envelopes && t.store.envelopes[k] == s.store.envelopes[k])
          || (t.store.envelopes[k].replaySafe && t.store.envelopes[k].completes))
    && (forall k :: k in t.store.receipts ==>
          (k in s.store.receipts && t.store.receipts[k] == s.store.receipts[k])
          || Reports(t.store, k, t.store.receipts[k]))
    && (forall q ::
          q in t.procs ==>
            (q in s.procs && t.procs[q] == s.procs[q]) || (q == pid && ReceiptPending(t.store, t.procs[q])))
    && (forall q :: q in s.procs && q != pid ==> q in t.procs)
    && (forall space :: space in t.leases ==>
          (space in s.leases && t.leases[space] == s.leases[space] && (t.leases[space] != pid || pid in t.procs))
          || t.leases[space] in t.procs)
  }

  lemma MoveKeeps(s: State, t: State, pid: nat)
    requires Orderly(s) && OrderlyMove(s, t, pid) && forall k :: RefusedAt(s.store, k) ==> RefusedAt(t.store, k)
    ensures Orderly(t)
  {
    hide RefusedAt;
  }

  /** The command moves on to a stage that writes no receipt, or is gone. */
  lemma GoesOrEnds(s: State, u: State, pid: nat)
    requires Orderly(s) && pid in s.procs && u.procs == s.procs && u.leases == s.leases
    requires u.store.envelopes == s.store.envelopes && u.store.receipts == s.store.receipts
    ensures OrderlyMove(s, Finish(u, pid), pid)
    ensures forall pc: Pc :: !pc.AtReceipt? ==> OrderlyMove(s, Goto(u, pid, pc), pid)
  {
    hide Reports, JobsKept;
  }

  lemma StaysOrderly(s: State, pid: nat)
    requires Orderly(s)
    ensures OrderlyMove(s, s, pid)
  {
    hide Reports, ReceiptPending;
  }

  // ------------------------------------------------------------- child stages

  lemma ChildMove(s: State, pid: nat, i: nat, reply: Reply)
    requires Orderly(s) && pid in s.procs && i < |s.procs[pid].kids| && IsChildStage(s.procs[pid].pc)
             && s.procs[pid].pc.i == i
    requires forall k :: RefusedAt(s.store, k) ==> RefusedAt(AdvanceChild(s, pid, i, reply).store, k)
    ensures OrderlyMove(s, AdvanceChild(s, pid, i, reply), pid)
  {
    hide ExecuteChild, Decide, JobsKept, MetaKept, RefusedAt, OrderlyMove, Goto, Finish, Release;
    StaysOrderly(s, pid);
    GoesOrEnds(s, s, pid);
    match s.procs[pid].pc
    case AtExecute(_) => hide AdvanceChild, Orderly; AdvancesExecute(s, pid, i, reply); ExecuteMove(s, pid, i, reply);
    case AtReceipt(_, state) => hide AdvanceChild, Orderly; ReceiptMove(s, pid, i, reply);
    case AtLease(_) => hide Orderly, AdvanceChild; LeaseMove(s, pid, i, reply);
    case AtDecide(_) => hide Orderly, AdvanceChild; DecideMove(s, pid, i, reply);
    case AtEnvelope(_) => hide Orderly, AdvanceChild; EnvelopeMove(s, pid, i, reply);
    case AtReadBack(_) => hide Orderly, AdvanceChild; ReadMove(s, pid, i, reply);
    case AtVerify(_) => hide Orderly, AdvanceChild; ReadMove(s, pid, i, reply);
  }

  lemma LeaseMove(s: State, pid: nat, i: nat, reply: Reply)
    requires Orderly(s) && pid in s.procs && i < |s.procs[pid].kids| && s.procs[pid].pc == AtLease(i)
    ensures OrderlyMove(s, AdvanceChild(s, pid, i, reply), pid)
  {
    hide ExecuteChild, JobsKept, MetaKept, Reports;
  }

  lemma DecideMove(s: State, pid: nat, i: nat, reply: Reply)
    requires Orderly(s) && pid in s.procs && i < |s.procs[pid].kids| && s.procs[pid].pc == AtDecide(i)
    ensures OrderlyMove(s, AdvanceChild(s, pid, i, reply), pid)
  {
    AlwaysSucceeded();
    hide ExecuteChild, JobsKept, MetaKept, Decide, Reports;
  }

  lemma EnvelopeMove(s: State, pid: nat, i: nat, reply: Reply)
    requires Orderly(s) && pid in s.procs && i < |s.procs[pid].kids| && s.procs[pid].pc == AtEnvelope(i)
    ensures OrderlyMove(s, AdvanceChild(s, pid, i, reply), pid)
  {
    hide ExecuteChild, JobsKept, MetaKept, Reports;
  }

  lemma ReadMove(s: State, pid: nat, i: nat, reply: Reply)
    requires Orderly(s) && pid in s.procs && i < |s.procs[pid].kids|
             && (s.procs[pid].pc == AtReadBack(i) || s.procs[pid].pc == AtVerify(i))
    ensures OrderlyMove(s, AdvanceChild(s, pid, i, reply), pid)
  {
    hide ExecuteChild, JobsKept, MetaKept, Reports;
  }

  lemma AdvancesExecute(s: State, pid: nat, i: nat, reply: Reply)
    requires pid in s.procs && i < |s.procs[pid].kids| && s.procs[pid].pc == AtExecute(i)
    ensures AdvanceChild(s, pid, i, reply) == ExecuteChild(s, pid, i, reply)
  {
    hide ExecuteChild;
  }

  lemma ReceiptMove(s: State, pid: nat, i: nat, reply: Reply)
    requires Orderly(s) && pid in s.procs && i < |s.procs[pid].kids| && s.procs[pid].pc.AtReceipt?
             && s.procs[pid].pc.i == i
    ensures OrderlyMove(s, AdvanceChild(s, pid, i, reply), pid)
  {
    hide JobsKept, MetaKept, ExecuteChild, QueryOriginal;
    var t := AdvanceChild(s, pid, i, reply);
    assert ReceiptPending(s.store, s.procs[pid]);
    assert forall k :: RefusedAt(t.store, k) == RefusedAt(s.store, k);
    hide RefusedAt;
  }

  lemma ExecuteMove(s: State, pid: nat, i: nat, reply: Reply)
    requires Orderly(s) && pid in s.procs && i < |s.procs[pid].kids| && s.procs[pid].pc == AtExecute(i)
    ensures OrderlyMove(s, ExecuteChild(s, pid, i, reply), pid)
  {
    hide QueryOriginal, MayApply, MetaKept, JobsKept, ChildEffect, Reports;
    var t := ExecuteChild(s, pid, i, reply);
    var key := s.procs[pid].kids[i].At();
    assert pid in t.procs && t.procs.Keys == s.procs.Keys && t.leases == s.leases
           && t.store.envelopes == s.store.envelopes && t.store.receipts == s.store.receipts;
    PendingNow(s, pid, i, reply);
    ExecutedReceipts(s, pid, i, reply);
    hide ExecuteChild, ReceiptPending;
  }

  /** A receipt that was true stays true while the mutation runs. */
  lemma ExecutedReceipts(s: State, pid: nat, i: nat, reply: Reply)
    requires pid in s.procs && i < |s.procs[pid].kids|
    ensures ExecuteChild(s, pid, i, reply).store.receipts == s.store.receipts
  {
    hide QueryOriginal, MayApply, MetaKept, JobsKept, ChildEffect;
  }

  lemma RejectionReports(s: State, pid: nat, i: nat, code: string, entry: JournalEntry)
    requires pid in s.procs && i < |s.procs[pid].kids| && s.procs[pid].pc == AtExecute(i)
    ensures var t := ExecuteChild(s, pid, i, Rejects(code, entry));
            t == s || (t.procs[pid].pc.AtReceipt? && t.procs[pid].kids == s.procs[pid].kids && t.procs[pid].pc.i == i
                       && Reports(t.store, s.procs[pid].kids[i].At(), t.procs[pid].pc.state))
  {
    hide QueryOriginal, MetaKept, JobsKept;
  }

  lemma PendingNow(s: State, pid: nat, i: nat, reply: Reply)
    requires Orderly(s) && pid in s.procs && i < |s.procs[pid].kids| && s.procs[pid].pc == AtExecute(i)
    ensures var t := ExecuteChild(s, pid, i, reply);
            && pid in t.procs && ReceiptPending(t.store, t.procs[pid])
            && forall q :: q in t.procs && q != pid ==> q in s.procs && t.procs[q] == s.procs[q]
  {
    hide QueryOriginal, MayApply, MetaKept, JobsKept, ChildEffect, Reports, Orderly;
    match reply
    case Applies(_) => assert forall store, key :: Reports(store, key, Succeeded) by { AlwaysSucceeded(); }
    case Rejects(code, entry) => RejectionReports(s, pid, i, code, entry);
    case Raises(None) =>
    case Raises(Some(_)) =>
  }

  lemma AlwaysSucceeded()
    ensures forall store, key :: Reports(store, key, Succeeded)
  {
  }

  // --------------------------------------------------------------- every step

  lemma MetaMove(s: State, pid: nat, reply: Reply)
    requires Orderly(s) && pid in s.procs && !IsChildStage(s.procs[pid].pc)
    ensures OrderlyMove(s, AdvanceProc(s, pid, reply), pid)
  {
    hide Orderly, OrderlyMove, AdvanceResolve, AwaitTx, EndRotateTx, EndReleaseTx, SpacesKept, JobsKept, Finish, Goto;
    StaysOrderly(s, pid);
    GoesOrEnds(s, s, pid);
    match s.procs[pid].job
    case StartJob(place) => GoesOrEnds(s,
                                       s.(store := s.store.(sessions :=
                                                              AdvanceStart(s, pid, place, reply).store.sessions)), pid);
    case ActivateJob(op) =>
      if AwaitTx(s.store, op).Ok? {
        GoesOrEnds(s, WithStore(s, AwaitTx(s.store, op).value), pid);
      }
    case ResolveJob(plan) => ResolveMove(s, pid, plan);
    case EndJob(op, previous) =>
      if EndRotateTx(s.store, op, previous).Ok? {
        GoesOrEnds(s, WithStore(s, EndRotateTx(s.store, op, previous).value), pid);
      }
      GoesOrEnds(s, WithStore(s, EndReleaseTx(s.store)), pid);
  }

  lemma ResolveMove(s: State, pid: nat, plan: ResolutionPlan)
    requires Orderly(s) && pid in s.procs && s.procs[pid].job == ResolveJob(plan)
    ensures OrderlyMove(s, AdvanceResolve(s, pid, plan), pid)
  {
    hide Orderly, OrderlyMove, ClaimTx, ReadProof, TransferTx, CompleteTx, SpacesKept, JobsKept, Finish, Goto;
    StaysOrderly(s, pid);
    GoesOrEnds(s, s, pid);
    match s.procs[pid].pc
    case AtClaim => if ClaimTx(s.store, plan).Ok? { GoesOrEnds(s, WithStore(s, ClaimTx(s.store, plan).value), pid); }
    case AtProof => if ReadProof(s.store, plan.op).Ok? { ProofMove(s, pid, ReadProof(s.store, plan.op).value); }
    case AtPhase =>
      if TransferTx(s.store, plan.op, plan.related).Ok? {
        GoesOrEnds(s, WithStore(s, TransferTx(s.store, plan.op, plan.related).value), pid);
      }
    case AtComplete =>
      if CompleteTx(s.store, plan).Ok? {
        GoesOrEnds(s, WithStore(s, CompleteTx(s.store, plan).value), pid);
      }
    case _ =>
  }

  lemma ProofMove(s: State, pid: nat, proof: Proof)
    requires Orderly(s) && pid in s.procs
    ensures OrderlyMove(s, s.(procs := s.procs[pid := s.procs[pid].(proof := Some(proof), pc := AtLease(0))]), pid)
  {
    hide Reports;
  }

  lemma BeginMove(s: State, action: Action)
    requires Orderly(s)
    requires action.BeginStart? || action.BeginActivate? || action.BeginResolve? || action.BeginEnd?
    ensures OrderlyMove(s, Next(s, action), action.pid)
  {
    hide Orderly, OrderlyMove, StartTx, ActivateTx, ReadResolution, EndClaimTx, ConflictPair, ConflictChildren;
    StaysOrderly(s, action.pid);
    forall u: State, proc: Proc | u.procs == s.procs && u.leases == s.leases && u.store.envelopes == s.store.envelopes
                                  && u.store.receipts == s.store.receipts && !proc.pc.AtReceipt?
                                  && action.pid !in s.procs
      ensures OrderlyMove(s, Spawn(u, action.pid, proc), action.pid)
    {
      SpawnMove(s, u, action.pid, proc);
    }
    match action
    case BeginStart(_, _) =>
    case BeginActivate(_, _) =>
    case BeginResolve(_, _, _) =>
    case BeginEnd(_, _) =>
  }

  lemma SpawnMove(s: State, u: State, pid: nat, proc: Proc)
    requires Orderly(s) && pid !in s.procs && u.procs == s.procs && u.leases == s.leases && !proc.pc.AtReceipt?
    requires u.store.envelopes == s.store.envelopes && u.store.receipts == s.store.receipts
    ensures OrderlyMove(s, Spawn(u, pid, proc), pid)
  {
    hide Reports;
  }

  lemma StageKnown(s: State, pid: nat)
    requires Inv(s) && pid in s.procs
    ensures IsChildStage(s.procs[pid].pc) ==> s.procs[pid].pc.i < |s.procs[pid].kids|
  {
    hide MetaInv, TableInv, ProcMeta, ProcLease;
    assert ProcOk(s, pid);
  }

  lemma NextOrderly(s: State, action: Action)
    requires Inv(s) && Orderly(s)
    ensures Orderly(Next(s, action))
  {
    hide Inv, Orderly, OrderlyMove, AdvanceProc, AdvanceChild, RefusedAt;
    RefusalStays(s, action);
    match action
    case Advance(pid, reply) =>
      if pid in s.procs {
        StageKnown(s, pid);
        var t := Next(s, action);
        if IsChildStage(s.procs[pid].pc) {
          AdvancesChild(s, pid, reply);
          ChildMove(s, pid, s.procs[pid].pc.i, reply);
        } else {
          MetaMove(s, pid, reply);
        }
        MoveKeeps(s, t, pid);
      }
    case Crash(pid) => CrashOrderly(s, pid);
    case Recover(key, entry) => RecoverOrderly(s, key, entry);
    case ChangeSessions(sessions) => SessionsOrderly(s, sessions);
    case Touch(command, kind) => TouchOrderly(s, command, kind);
    case _ => BeginMove(s, action); MoveKeeps(s, Next(s, action), action.pid);
  }

  lemma AdvancesChild(s: State, pid: nat, reply: Reply)
    requires pid in s.procs && IsChildStage(s.procs[pid].pc) && s.procs[pid].pc.i < |s.procs[pid].kids|
    ensures Next(s, Advance(pid, reply)) == AdvanceChild(s, pid, s.procs[pid].pc.i, reply)
  {
    hide AdvanceChild;
  }

  lemma CrashOrderly(s: State, pid: nat)
    requires Orderly(s)
    ensures Orderly(Next(s, Crash(pid)))
  {
    hide QueryOriginal;
  }

  lemma RecoverOrderly(s: State, key: Key, entry: JournalEntry)
    requires Orderly(s) && forall k :: RefusedAt(s.store, k) ==> RefusedAt(Next(s, Recover(key, entry)).store, k)
    ensures Orderly(Next(s, Recover(key, entry)))
  {
    hide QueryOriginal, RefusedAt;
  }

  lemma SessionsOrderly(s: State, sessions: map<Key, SessionRow>)
    requires Orderly(s)
    ensures Orderly(Next(s, ChangeSessions(sessions)))
  {
    hide QueryOriginal;
  }

  lemma TouchOrderly(s: State, command: Command, kind: Kind)
    requires Orderly(s) && forall k :: RefusedAt(s.store, k) ==> RefusedAt(Next(s, Touch(command, kind)).store, k)
    ensures Orderly(Next(s, Touch(command, kind)))
  {
    hide TouchTx, RefusedAt, IsTouch;
  }

  lemma {:induction false} ReachedOrderly(sessions: map<Key, SessionRow>, actions: seq<Action>)
    ensures Orderly(Reached(sessions, actions))
  {
    hide Inv, Next, Orderly;
    if actions == [] {
      assert Orderly(Fresh(sessions)) by { FreshOrderly(sessions); }
    } else {
      var shorter := actions[..|actions| - 1];
      ReachedOrderly(sessions, shorter);
      ReachedInv(sessions, shorter);
      NextOrderly(Reached(sessions, shorter), actions[|actions| - 1]);
    }
  }

  lemma FreshOrderly(sessions: map<Key, SessionRow>)
    ensures Orderly(Fresh(sessions))
  {
  }

  // ----------------------------------------------------------------- theorems

  /** Every receipt of a reached state is terminal and reports its journal. */
  lemma ReceiptsReport(sessions: map<Key, SessionRow>, actions: seq<Action>, key: Key)
    requires key in Reached(sessions, actions).store.receipts
    ensures var store := Reached(sessions, actions).store;
            var state := store.receipts[key];
            && (state == Succeeded || state == Failed || state == Conflicted)
            && (state == Succeeded <==> AppliedAt(store, key))
            && (state != Succeeded ==> RefusedAt(store, key))
  {
    hide Reached, JournalOutcome;
    ReachedOrderly(sessions, actions);
    ReachedInv(sessions, actions);
    var store := Reached(sessions, actions).store;
    assert Reports(store, key, store.receipts[key]);
    assert Lookup(store.receipts, key) == Some(Succeeded) ==> AppliedAt(store, key);
  }

  /** The receipt tables as the receipt policy meets them: a receipt the
      coordinator wrote carries no reconciliation claim. */
  predicate PolicyView(store: Store, key: Key, space: Reconciling.Space) {
    && (key.id in space.envelopes <==> key in store.envelopes)
    && (key.id in space.receipts <==> key in store.receipts)
    && (key in store.receipts ==>
          space.receipts[key.id] == Reconciling.Receipt(store.receipts[key], Reconciling.NoClaim))
  }

  /** What the coordinator sends is never the claim of a receipt it wrote, so
      on any tables the policy refuses a second write and every `unknown`. */
  lemma PolicyAgrees(store: Store, key: Key, state: ReceiptState, space: Reconciling.Space)
    requires PolicyView(store, key, space)
    ensures ReceiptAllowed(store, key, state) <==>
              Reconciling.WriteAllowed(space, key.id, state, Reconciling.NoClaim, false,
                                       Some(Reconciling.ClaimedBy(key.id)))
  {
  }

  /** In a reached state the policy would decide the same whatever coordination
      the coordinator sent: its receipts are terminal. */
  lemma ReachedPolicyAgrees(sessions: map<Key, SessionRow>, actions: seq<Action>, key: Key, state: ReceiptState,
                            space: Reconciling.Space, expected: Option<Reconciling.Claim>)
    requires PolicyView(Reached(sessions, actions).store, key, space)
    ensures ReceiptAllowed(Reached(sessions, actions).store, key, state) <==>
              Reconciling.WriteAllowed(space, key.id, state, Reconciling.NoClaim, false, expected)
  {
    hide Reached;
    if key in Reached(sessions, actions).store.receipts { ReceiptsReport(sessions, actions, key); }
  }

  /** A child whose mutation raised ends its command without a receipt: the
      attempt to record `unknown` is refused, and the journal is the only trace. */
  lemma RaisedChildHasNoReceipt(sessions: map<Key, SessionRow>, actions: seq<Action>, pid: nat, i: nat,
                                trace: Option<JournalEntry>, reply: Reply)
    requires var s := Reached(sessions, actions);
             pid in s.procs && s.procs[pid].pc == AtExecute(i) && Next(s, Advance(pid, Raises(trace))) != s
    ensures var s := Reached(sessions, actions);
            var t := Next(Next(s, Advance(pid, Raises(trace))), Advance(pid, reply));
            && i < |s.procs[pid].kids|
            && var key := s.procs[pid].kids[i].At();
            && pid !in t.procs && t.store.receipts == s.store.receipts && key !in t.store.receipts
            && t.store.journal == if trace.Some? then s.store.journal[key := trace.value] else s.store.journal
  {
    var s := Reached(sessions, actions);
    hide Reached, JournalOutcome;
    ExecutesOnlyUnexecuted(sessions, actions, pid, i);
    var key := s.procs[pid].kids[i].At();
    if key in s.store.receipts {
      ReceiptsReport(sessions, actions, key);
      UnexecutedIsNeither(s.store, key);
    }
    hide Next;
    AdvancesChild(s, pid, Raises(trace));
    RaisedStep(s, pid, i, trace, reply);
  }

  lemma UnexecutedIsNeither(store: Store, key: Key)
    requires QueryOriginal(Lookup(store.journal, key), key.id) == NotExecuted
    ensures !AppliedAt(store, key) && !RefusedAt(store, key)
  {
  }

  lemma RaisedStep(s: State, pid: nat, i: nat, trace: Option<JournalEntry>, reply: Reply)
    requires pid in s.procs && i < |s.procs[pid].kids| && s.procs[pid].pc == AtExecute(i)
             && Next(s, Advance(pid, Raises(trace))) != s
    ensures var key := s.procs[pid].kids[i].At();
            var t := Next(Next(s, Advance(pid, Raises(trace))), Advance(pid, reply));
            && pid !in t.procs && t.store.receipts == s.store.receipts
            && t.store.journal == if trace.Some? then s.store.journal[key := trace.value] else s.store.journal
  {
    hide QueryOriginal, MayApply, MetaKept, JobsKept, ChildEffect;
    var u := Next(s, Advance(pid, Raises(trace)));
    RaisedOnce(s, pid, i, trace);
    hide ExecuteChild, ApplyChild;
    UnknownRefused(u, pid, i, reply);
  }

  lemma RaisedOnce(s: State, pid: nat, i: nat, trace: Option<JournalEntry>)
    requires pid in s.procs && i < |s.procs[pid].kids| && s.procs[pid].pc == AtExecute(i)
             && Next(s, Advance(pid, Raises(trace))) != s
    ensures var key := s.procs[pid].kids[i].At();
            var u := Next(s, Advance(pid, Raises(trace)));
            && pid in u.procs && u.procs[pid] == s.procs[pid].(pc := AtReceipt(i, Unknown))
            && u.store.receipts == s.store.receipts
            && u.store.journal == if trace.Some? then s.store.journal[key := trace.value] else s.store.journal
  {
    hide QueryOriginal, MayApply, MetaKept, JobsKept, ChildEffect;
  }

  lemma UnknownRefused(u: State, pid: nat, i: nat, reply: Reply)
    requires pid in u.procs && i < |u.procs[pid].kids| && u.procs[pid].pc == AtReceipt(i, Unknown)
    ensures Next(u, Advance(pid, reply)) == Finish(u, pid)
  {
    hide ExecuteChild, MetaKept, JobsKept;
  }
}
