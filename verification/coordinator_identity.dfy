/** What the rows of a reached state say about each other.

    A proven child's envelope carries exactly the identity and payload hash
    that its operation declared, even when a restart recomputed the child with
    another decision time; and while the locator points at a resolution, the
    two agree on winner and epoch. A reader of the rows relies on both. */
module CoordinatorIdentity {
  import opened Symbols
  import opened CoordinationRows
  import opened ChildEvidence
  import opened CoordinatorTransactions
  import opened CoordinatorProtocol
  import opened CoordinatorSafety
  import opened CoordinatorSteps

  function FirstRole(kind: Kind): Role {
    if kind == ActivateProvisional then Candidate else Winner
  }

  function SecondRole(kind: Kind): Role {
    if kind == ActivateProvisional then Active else Loser
  }

  predicate DeclaresChild(intent: Intent, op: Text, role: Role) {
    && intent.children.Some? && role in intent.children.value
    && intent.children.value[role].id == ChildId(op, role) && intent.children.value[role].hash.Digest?
  }

  /** Two different, fully named places. */
  predicate ProperPair(pair: Pair) {
    Named(pair.active) && Named(pair.candidate) && pair.active != pair.candidate
  }

  /** A conflict or resolution row as its writer made it. */
  predicate WrittenRow(op: Text, row: Operation) {
    row.kind == ActivateProvisional || row.kind == ResolveConflict ==>
      && IsOperationId(op)
      && row.intent.pair.Some? && ProperPair(row.intent.pair.value)
      && row.intent.commandId == op && row.intent.kind == row.kind && row.intent.hash == row.hash
      && row.hash == ContractHash(row.intent.business)
      && row.intent.children.Some? && row.intent.children.value.Keys == {FirstRole(row.kind), SecondRole(row.kind)}
      && DeclaresChild(row.intent, op, FirstRole(row.kind)) && DeclaresChild(row.intent, op, SecondRole(row.kind))
      && (row.kind == ActivateProvisional ==> row.related == None)
      && (row.kind == ResolveConflict ==>
            (WinnerSide(row.intent.business).Some?
             && NamedPlace(row.intent, Winner) == Place(row.intent.space, row.intent.session)))
  }

  /** The declared hash of an existing operation's child. */
  predicate Promised(store: Store, id: Text, hash: Text) {
    && id.ChildId? && id.parent in store.ops
    && var intent := store.ops[id.parent].intent;
    intent.children.Some? && id.role in intent.children.value && intent.children.value[id.role].hash == hash
  }

  predicate TrueEnvelope(store: Store, k: Key)
    requires k in store.envelopes
  {
    var envelope := store.envelopes[k];
    && k.id.ChildId? && k.id.parent in store.ops && store.ops[k.id.parent].intent.pair.Some?
    && Place(envelope.space, envelope.session) == NamedPlace(store.ops[k.id.parent].intent, k.id.role)
    && (Compiled(JournalOutcome(store, k)) ==> Promised(store, k.id, envelope.hash))
  }

  /** The locator and the resolution it points at agree. */
  predicate TrueLocator(store: Store) {
    store.locator.Some? && store.locator.value.operation in store.ops
    && store.ops[store.locator.value.operation].kind == ResolveConflict ==>
      var locator, intent := store.locator.value, store.ops[store.locator.value.operation].intent;
      locator.epoch == intent.epoch && locator.space == intent.space && locator.session == intent.session
  }

  ghost predicate TrueRows(store: Store) {
    && (forall op :: op in store.ops ==> WrittenRow(op, store.ops[op]))
    && (forall k :: k in store.envelopes ==> TrueEnvelope(store, k))
    && TrueLocator(store)
  }

  predicate TrueProc(store: Store, proc: Proc) {
    && (match proc.job
        case ActivateJob(op) =>
          forall i :: 0 <= i < |proc.kids| ==> Promised(store, proc.kids[i].id, proc.kids[i].hash)
        case ResolveJob(plan) =>
          && WrittenRow(plan.op, NewResolution(plan)) && plan.epoch == plan.intent.epoch
          && plan.pair.At(plan.winner) == Place(plan.intent.space, plan.intent.session)
          && (proc.proof.Some? ==>
                && Promised(store, ChildId(plan.op, Winner), proc.proof.value.winnerHash)
                && Promised(store, ChildId(plan.op, Loser), proc.proof.value.loserHash))
        case _ => true)
    && (proc.pc.AtExecute? ==>
          && proc.pc.i < |proc.kids|
          && var child := proc.kids[proc.pc.i];
          child.At() in store.envelopes && EnvelopeMatches(store.envelopes[child.At()], child))
  }

  ghost predicate Identities(s: State) {
    TrueRows(s.store) && forall pid :: pid in s.procs ==> TrueProc(s.store, s.procs[pid])
  }

  // ------------------------------------------------------------------ frames

  lemma ProcFramed(before: Store, after: Store, proc: Proc)
    requires Evolves(before, after) && TrueProc(before, proc)
    ensures TrueProc(after, proc)
  {
    hide WrittenRow, EnvelopeMatches, AppliedAt, Proven;
  }

  /** Every other command is where it was; the rows were checked one by one. */
  lemma StepKeeps(s: State, t: State, pid: nat)
    requires Identities(s) && Evolves(s.store, t.store) && TrueRows(t.store)
    requires forall q :: q in t.procs && q != pid ==> q in s.procs && t.procs[q] == s.procs[q]
    requires pid in t.procs ==> TrueProc(t.store, t.procs[pid])
    ensures Identities(t)
  {
    hide TrueRows, TrueProc, Evolves;
    forall q | q in t.procs ensures TrueProc(t.store, t.procs[q]) {
      if q != pid { ProcFramed(s.store, t.store, s.procs[q]); }
    }
  }

  lemma EnvelopeFramed(before: Store, after: Store, k: Key)
    requires Evolves(before, after) && k in before.envelopes && TrueEnvelope(before, k)
    requires Compiled(JournalOutcome(after, k)) ==> Compiled(JournalOutcome(before, k))
    ensures k in after.envelopes && TrueEnvelope(after, k)
  {
    hide JournalOutcome, Compiled, AppliedAt, Proven;
    assert SameIdentity(before.ops[k.id.parent], after.ops[k.id.parent]);
  }

  /** A Meta transaction changes no row's identity except that it may add `op`. */
  lemma MetaKeeps(before: Store, after: Store, op: Text)
    requires TrueRows(before) && Evolves(before, after) && MetaOnly(before, after)
    requires after.ops.Keys <= before.ops.Keys + {op}
    requires op in after.ops && op !in before.ops ==> WrittenRow(op, after.ops[op])
    requires TrueLocator(after)
    ensures TrueRows(after)
  {
    hide WrittenRow, TrueLocator;
    forall k | k in after.envelopes ensures TrueEnvelope(after, k) {
      EnvelopeFramed(before, after, k);
    }
    forall o | o in after.ops ensures WrittenRow(o, after.ops[o]) {
      if o in before.ops { SameRow(o, before.ops[o], after.ops[o]); }
    }
  }

  lemma SameRow(op: Text, before: Operation, after: Operation)
    requires WrittenRow(op, before) && SameIdentity(before, after)
    ensures WrittenRow(op, after)
  {
  }

  /** Only the rows of one child changed. */
  lemma SpaceKeeps(before: Store, after: Store, key: Key)
    requires TrueRows(before) && Evolves(before, after) && after.ops == before.ops && after.locator == before.locator
    requires forall k :: k in after.envelopes && k != key ==>
               k in before.envelopes && JournalOutcome(after, k) == JournalOutcome(before, k)
    requires key in after.envelopes ==> TrueEnvelope(after, key)
    ensures TrueRows(after)
  {
    hide WrittenRow;
    forall k | k in after.envelopes ensures TrueEnvelope(after, k) {
      if k != key { EnvelopeFramed(before, after, k); }
    }
  }

  // ------------------------------------------------------------- child steps

  lemma KidNamed(s: State, pid: nat, i: nat)
    requires Inv(s) && pid in s.procs && IsChildStage(s.procs[pid].pc) && i < |s.procs[pid].kids|
    ensures var child, proc := s.procs[pid].kids[i], s.procs[pid];
            && child.id.ChildId? && child.id.role == child.role && child.id.parent in s.store.ops
            && s.store.ops[child.id.parent].intent.pair.Some?
            && (proc.pc != AtClaim ==> child.place == NamedPlace(s.store.ops[child.id.parent].intent, child.role))
            && (proc.job.ActivateJob?
                || (proc.job.ResolveJob? && child.role in {Winner, Loser} && child.id.parent == proc.job.plan.op))
  {
    hide TableInv, ProcProgress, ProcLease, ConflictRow, UniqueResolutions, AnchorUnresolved;
    assert ProcOk(s, pid);
    if s.procs[pid].job.ResolveJob? {
      var plan := s.procs[pid].job.plan;
      assert ResolutionRow(s.store, plan.op);
      SameHashSameWinner(plan.intent.business, s.store.ops[plan.op].intent.business);
    }
  }

  /** Besides the envelope write and the mutation, a child stage changes no
      envelope and no journal row. */
  lemma QuietChild(s: State, pid: nat, i: nat, reply: Reply)
    requires pid in s.procs && i < |s.procs[pid].kids| && !s.procs[pid].pc.AtEnvelope? && !s.procs[pid].pc.AtExecute?
    ensures var t := AdvanceChild(s, pid, i, reply);
            && t.store.envelopes == s.store.envelopes && t.store.journal == s.store.journal
            && (forall q :: q in t.procs && q != pid ==> q in s.procs && t.procs[q] == s.procs[q])
            && (pid in t.procs ==> t.procs[pid] == s.procs[pid].(pc := t.procs[pid].pc))
            && (pid in t.procs && t.procs[pid].pc.AtExecute? ==>
                  s.procs[pid].pc == t.procs[pid].pc
                  || (t.procs[pid].pc.i == i && Decide(s.store, s.procs[pid].kids[i]) == Execute(true)))
  {
    hide ExecuteChild, Decide, ReceiptAllowed, JobsKept, MetaKept, Release, Lookup;
    match s.procs[pid].pc
    case AtLease(_) =>
    case AtDecide(_) =>
    case AtReceipt(_, _) =>
    case AtReadBack(_) =>
    case AtVerify(_) =>
    case _ =>
  }

  lemma QuietStage(s: State, pid: nat, i: nat, reply: Reply)
    requires Inv(s) && Identities(s) && pid in s.procs && i < |s.procs[pid].kids|
    requires s.procs[pid].pc.AtLease? || s.procs[pid].pc.AtDecide? || s.procs[pid].pc.AtReceipt?
             || s.procs[pid].pc.AtReadBack? || s.procs[pid].pc.AtVerify?
    requires Evolves(s.store, AdvanceChild(s, pid, i, reply).store)
    ensures Identities(AdvanceChild(s, pid, i, reply))
  {
    var t := AdvanceChild(s, pid, i, reply);
    assert MetaKept(s, t);
    QuietChild(s, pid, i, reply);
    hide AdvanceChild, Inv, Evolves, TrueProc, TrueRows;
    assert forall k :: JournalOutcome(t.store, k) == JournalOutcome(s.store, k);
    assert TrueRows(t.store) by {
      hide WrittenRow, TrueLocator;
      if key :| key in t.store.envelopes {
        assert TrueEnvelope(s.store, key);
        EnvelopeFramed(s.store, t.store, key);
        SpaceKeeps(s.store, t.store, key);
      }
    }
    if pid in t.procs {
      ProcFramed(s.store, t.store, s.procs[pid]);
      DecidedProc(s, t, pid, i);
    }
    StepKeeps(s, t, pid);
  }

  lemma DecidedProc(s: State, t: State, pid: nat, i: nat)
    requires pid in s.procs && pid in t.procs && i < |s.procs[pid].kids| && !s.procs[pid].pc.AtExecute?
    requires TrueProc(t.store, s.procs[pid]) && t.procs[pid] == s.procs[pid].(pc := t.procs[pid].pc)
    requires t.store.envelopes == s.store.envelopes
    requires t.procs[pid].pc.AtExecute? ==>
               t.procs[pid].pc.i == i && Decide(s.store, s.procs[pid].kids[i]) == Execute(true)
    ensures TrueProc(t.store, t.procs[pid])
  {
    hide WrittenRow, Decide;
    DecisionIsSound(s.store, s.procs[pid].kids[i]);
  }

  lemma EnvelopeChild(s: State, pid: nat, i: nat, reply: Reply)
    requires pid in s.procs && s.procs[pid].pc == AtEnvelope(i) && i < |s.procs[pid].kids|
    ensures var t, child := AdvanceChild(s, pid, i, reply), s.procs[pid].kids[i];
            && (forall q :: q in t.procs && q != pid ==> q in s.procs && t.procs[q] == s.procs[q])
            && t.store.journal == s.store.journal
            && (if pid in t.procs
                then t.procs[pid] == s.procs[pid].(pc := AtExecute(i))
                     && t.store.envelopes ==
                          s.store.envelopes[child.At() :=
                                              Envelope(child.place.space, child.place.session, child.hash, true, true)]
                else t.store.envelopes == s.store.envelopes)
  {
    hide Release, JobsKept, MetaKept;
  }

  lemma EnvelopeStage(s: State, pid: nat, i: nat, reply: Reply)
    requires Inv(s) && Identities(s) && pid in s.procs && s.procs[pid].pc == AtEnvelope(i) && i < |s.procs[pid].kids|
    requires Evolves(s.store, AdvanceChild(s, pid, i, reply).store)
    ensures Identities(AdvanceChild(s, pid, i, reply))
  {
    var t := AdvanceChild(s, pid, i, reply);
    var key := s.procs[pid].kids[i].At();
    assert MetaKept(s, t);
    EnvelopeChild(s, pid, i, reply);
    KidNamed(s, pid, i);
    NoTrace(s, pid, i);
    hide AdvanceChild, Inv, Evolves, TrueProc, TrueLocator, WrittenRow, JobsKept, NamedPlace;
    assert TrueRows(s.store) && TrueProc(s.store, s.procs[pid]);
    NewEnvelope(s.store, t.store, s.procs[pid].kids[i]);
    hide Identities, TrueRows, TrueEnvelope, JournalOutcome;
    SpaceKeeps(s.store, t.store, key);
    ProcFramed(s.store, t.store, s.procs[pid]);
    if pid in t.procs { EnvelopeRecorded(t.store, s.procs[pid], i); }
    StepKeeps(s, t, pid);
  }

  /** The envelope a command records is the child's own, and nothing was journaled yet. */
  lemma NewEnvelope(before: Store, after: Store, child: Child)
    requires after.ops == before.ops && after.journal == before.journal && child.At() !in before.journal
             && child.At() !in before.envelopes
    requires child.id.ChildId? && child.id.role == child.role && child.id.parent in before.ops
             && before.ops[child.id.parent].intent.pair.Some?
    requires child.place == NamedPlace(before.ops[child.id.parent].intent, child.role)
    requires after.envelopes == before.envelopes
             || after.envelopes ==
                  before.envelopes[child.At() :=
                                     Envelope(child.place.space, child.place.session, child.hash, true, true)]
    ensures child.At() in after.envelopes ==> TrueEnvelope(after, child.At())
    ensures forall k :: k in after.envelopes && k != child.At() ==> k in before.envelopes
    ensures forall k :: JournalOutcome(after, k) == JournalOutcome(before, k)
  {
    hide NamedPlace;
  }

  lemma EnvelopeRecorded(store: Store, proc: Proc, i: nat)
    requires TrueProc(store, proc) && i < |proc.kids|
    requires proc.kids[i].At() in store.envelopes && EnvelopeMatches(store.envelopes[proc.kids[i].At()], proc.kids[i])
    ensures TrueProc(store, proc.(pc := AtExecute(i)))
  {
    hide WrittenRow;
  }

  lemma NoTrace(s: State, pid: nat, i: nat)
    requires Inv(s) && pid in s.procs && s.procs[pid].pc == AtEnvelope(i) && i < |s.procs[pid].kids|
    ensures s.procs[pid].kids[i].At() !in s.store.envelopes && s.procs[pid].kids[i].At() !in s.store.journal
  {
    hide MetaInv, ProcMeta, ProcProgress, OwnedEnvelope;
    assert ProcOk(s, pid);
  }

  lemma AdmittedHash(s: State, pid: nat, i: nat)
    requires Inv(s) && Identities(s) && pid in s.procs && s.procs[pid].pc == AtExecute(i) && i < |s.procs[pid].kids|
    requires MayApply(s, s.procs[pid], s.procs[pid].kids[i])
    ensures Promised(s.store, s.procs[pid].kids[i].id, s.procs[pid].kids[i].hash)
  {
    KidNamed(s, pid, i);
    hide Inv, TrueRows, WrittenRow;
    assert TrueProc(s.store, s.procs[pid]);
  }

  /** What the mutation leaves: at most one journal row, and a compiled one only
      if the policy admitted the child. */
  lemma ExecutedChild(s: State, pid: nat, i: nat, reply: Reply)
    requires pid in s.procs && i < |s.procs[pid].kids|
    ensures var t, key, child := ExecuteChild(s, pid, i, reply), s.procs[pid].kids[i].At(), s.procs[pid].kids[i];
            && t.store.envelopes == s.store.envelopes
            && (forall q :: q in t.procs && q != pid ==> q in s.procs && t.procs[q] == s.procs[q])
            && (t == s || (pid in t.procs && t.procs[pid].pc.AtReceipt?
                           && t.procs[pid] == s.procs[pid].(pc := t.procs[pid].pc)))
            && (t.store.journal == s.store.journal
                || (key in t.store.journal && t.store.journal == s.store.journal[key := t.store.journal[key]]
                    && (Compiled(QueryOriginal(Some(t.store.journal[key]), key.id)) ==>
                          MayApply(s, s.procs[pid], child))))
  {
    hide QueryOriginal, MayApply, MetaKept, JobsKept, ChildEffect, Release, GateOpen;
    match reply
    case Applies(_) =>
    case Rejects(_, _) =>
    case Raises(None) =>
    case Raises(Some(_)) =>
  }

  lemma JournalFrame(before: Store, after: Store, key: Key)
    requires after.journal == before.journal
             || (key in after.journal && after.journal == before.journal[key := after.journal[key]])
    ensures forall k :: k != key ==> JournalOutcome(after, k) == JournalOutcome(before, k)
    ensures after.journal == before.journal ==> JournalOutcome(after, key) == JournalOutcome(before, key)
    ensures key in after.journal ==> JournalOutcome(after, key) == QueryOriginal(Some(after.journal[key]), key.id)
  {
    hide QueryOriginal;
  }

  lemma ExecuteStage(s: State, pid: nat, i: nat, reply: Reply)
    requires Inv(s) && Identities(s) && pid in s.procs && s.procs[pid].pc == AtExecute(i) && i < |s.procs[pid].kids|
    requires Evolves(s.store, ExecuteChild(s, pid, i, reply).store)
    ensures Identities(ExecuteChild(s, pid, i, reply))
  {
    var t := ExecuteChild(s, pid, i, reply);
    assert MetaKept(s, t);
    ExecutedChild(s, pid, i, reply);
    hide ExecuteChild, Evolves, QueryOriginal, MayApply;
    if t != s {
      var key := s.procs[pid].kids[i].At();
      JournalFrame(s.store, t.store, key);
      KidNamed(s, pid, i);
      if MayApply(s, s.procs[pid], s.procs[pid].kids[i]) { AdmittedHash(s, pid, i); }
      assert TrueRows(s.store) && TrueProc(s.store, s.procs[pid]);
      ExecutedEnvelope(s, t.store, pid, i);
      hide Inv, Identities, TrueRows, TrueEnvelope, TrueProc, JournalOutcome, JobsKept, Promised;
      ProcFramed(s.store, t.store, s.procs[pid]);
      SpaceKeeps(s.store, t.store, key);
      MovedOn(t.store, s.procs[pid], t.procs[pid]);
      StepKeeps(s, t, pid);
    }
  }

  lemma MovedOn(store: Store, before: Proc, after: Proc)
    requires TrueProc(store, before) && after == before.(pc := after.pc) && !after.pc.AtExecute?
    ensures TrueProc(store, after)
  {
    hide WrittenRow;
  }

  lemma ExecutedEnvelope(s: State, after: Store, pid: nat, i: nat)
    requires Identities(s) && pid in s.procs && s.procs[pid].pc == AtExecute(i) && i < |s.procs[pid].kids|
    requires after.ops == s.store.ops && after.envelopes == s.store.envelopes
    requires var child := s.procs[pid].kids[i];
             Compiled(JournalOutcome(after, child.At())) ==>
               Compiled(JournalOutcome(s.store, child.At())) || Promised(s.store, child.id, child.hash)
    ensures s.procs[pid].kids[i].At() in after.envelopes && TrueEnvelope(after, s.procs[pid].kids[i].At())
  {
    hide JournalOutcome, WrittenRow, TrueLocator, Compiled;
    var key := s.procs[pid].kids[i].At();
    assert TrueProc(s.store, s.procs[pid]);
    assert TrueEnvelope(s.store, key);
  }

  lemma ChildStage(s: State, pid: nat, i: nat, reply: Reply)
    requires Inv(s) && Identities(s) && pid in s.procs && IsChildStage(s.procs[pid].pc) && i == s.procs[pid].pc.i
             && i < |s.procs[pid].kids|
    requires Evolves(s.store, AdvanceChild(s, pid, i, reply).store)
    ensures Identities(AdvanceChild(s, pid, i, reply))
  {
    hide Inv, Identities, Evolves, ExecuteChild;
    match s.procs[pid].pc
    case AtExecute(_) => ExecuteStage(s, pid, i, reply);
    case AtEnvelope(_) => hide AdvanceChild; EnvelopeStage(s, pid, i, reply);
    case _ => hide AdvanceChild; QuietStage(s, pid, i, reply);
  }

  // -------------------------------------------------------------- Meta steps

  /** The rows a Meta step may add, and where it leaves the locator. */
  ghost predicate MetaStep(s: State, t: State, op: Text) {
    && MetaOnly(s.store, t.store)
    && t.store.ops.Keys <= s.store.ops.Keys + {op}
    && (op in t.store.ops && op !in s.store.ops ==> WrittenRow(op, t.store.ops[op]))
    && (t.store.locator.Some? && t.store.locator.value.operation in t.store.ops
        && t.store.ops[t.store.locator.value.operation].kind == ResolveConflict ==>
          SameTarget(s.store.locator, t.store.locator.value)
          || MatchesIntent(t.store.locator.value, t.store.ops[t.store.locator.value.operation].intent))
  }

  predicate MatchesIntent(locator: Locator, intent: Intent) {
    locator.epoch == intent.epoch && locator.space == intent.space && locator.session == intent.session
  }

  predicate SameTarget(before: Option<Locator>, after: Locator) {
    before.Some? && before.value == after.(state := before.value.state)
  }

  lemma MetaStepKeeps(s: State, t: State, op: Text, pid: nat)
    requires Inv(s) && Identities(s) && Evolves(s.store, t.store) && MetaStep(s, t, op)
    requires forall q :: q in t.procs && q != pid ==> q in s.procs && t.procs[q] == s.procs[q]
    requires pid in t.procs ==> TrueProc(t.store, t.procs[pid])
    ensures Identities(t)
  {
    assert TrueLocator(t.store) by {
      hide TrueProc, WrittenRow, TrueEnvelope, TableInv, ProcsInv, ConflictRow, ResolutionRow, UniqueResolutions,
           AnchorUnresolved, AppliedAt, Proven;
    }
    hide Inv, Evolves, WrittenRow, TrueProc, TrueLocator;
    MetaKeeps(s.store, t.store, op);
    StepKeeps(s, t, pid);
  }

  lemma StartMeta(s: State, pid: nat, command: Command)
    ensures var t := Next(s, BeginStart(pid, command)); t != s ==> MetaStep(s, t, command.id)
  {
    hide IsOperationId, IsHash, MakeIntent, TextField;
  }

  lemma TouchMeta(s: State, command: Command, kind: Kind)
    ensures var t := Next(s, Touch(command, kind)); t != s ==> MetaStep(s, t, command.id)
  {
    hide IsOperationId, IsHash, MakeIntent, NewOwner;
  }

  lemma EndMeta(s: State, pid: nat, command: Command)
    ensures var t := Next(s, BeginEnd(pid, command)); t != s ==> MetaStep(s, t, command.id)
  {
    hide IsOperationId, IsHash, MakeIntent;
  }

  lemma PairIsNamed(payload: Payload)
    ensures ConflictPair(payload).Some? ==> ProperPair(ConflictPair(payload).value)
  {
  }

  lemma ConflictWritten(command: Command, pair: Pair)
    requires IsOperationId(command.id) && ProperPair(pair)
    ensures WrittenRow(command.id, NewConflict(command, pair))
    ensures var children := NewConflict(command, pair).intent.children;
            forall kid :: kid in ConflictChildren(command, pair) ==>
              kid.id == ChildId(command.id, kid.role) && children.Some? && kid.role in children.value
              && children.value[kid.role].hash == kid.hash
  {
    hide IsOperationId, ConflictChildPayload;
  }

  lemma ActivateMetaStep(s: State, pid: nat, command: Command)
    requires Inv(s)
    ensures var t := Next(s, BeginActivate(pid, command));
            t != s ==> MetaStep(s, t, command.id) && pid in t.procs && TrueProc(t.store, t.procs[pid])
  {
    hide IsOperationId, NewConflict, ConflictChildren, ConflictPair, Inv, WrittenRow;
    var t := Next(s, BeginActivate(pid, command));
    PairIsNamed(command.payload);
    if t != s {
      var pair := ConflictPair(command.payload).value;
      ConflictWritten(command, pair);
      assert t.store.ops[command.id] == NewConflict(command, pair);
    }
  }

  lemma PlanWritten(store: Store, command: Command, clock: Text)
    requires TrueRows(store) && MetaInv(store) && ReadResolution(store, command, clock).Planned?
    ensures var plan := ReadResolution(store, command, clock).plan;
            && WrittenRow(plan.op, NewResolution(plan)) && plan.epoch == plan.intent.epoch
            && plan.pair.At(plan.winner) == Place(plan.intent.space, plan.intent.session)
  {
    hide MakePlan, IsOperationId, ConflictPair, Truthy, PyStr, WinnerSide, TableInv, TrueLocator, TrueEnvelope,
         WrittenRow, PlanOk;
    var locator := store.locator.value;
    var isRestart := locator.operation == command.id;
    var related := if isRestart then store.ops[locator.operation].related.value else locator.operation;
    var pair, winner := store.ops[related].intent.pair.value, WinnerSide(command.payload).value;
    assert ReadResolution(store, command, clock).plan ==
             MakePlan(command, related, pair, winner, locator.epoch, isRestart, clock);
    PairOfConflict(store, related, isRestart);
    hide ReadResolution, RowOk, MetaInv, TrueRows;
    PlanIsWritten(command, related, pair, winner, locator.epoch, isRestart, clock);
  }

  lemma PairOfConflict(store: Store, related: Text, isRestart: bool)
    requires TrueRows(store) && MetaInv(store) && store.locator.Some? && related in store.ops
    requires if isRestart then store.locator.value.operation in store.ops
             && store.ops[store.locator.value.operation].kind == ResolveConflict
                               && store.ops[store.locator.value.operation].related == Some(related)
             else store.ops[related].kind == ActivateProvisional
    ensures store.ops[related].intent.pair.Some?
    ensures ProperPair(store.ops[related].intent.pair.value)
  {
    hide UniqueResolutions, AnchorUnresolved, TrueLocator, TrueEnvelope, BothProven;
    assert RowOk(store, store.locator.value.operation);
    assert WrittenRow(related, store.ops[related]);
  }

  lemma PlanIsWritten(command: Command, related: Text, pair: Pair, winner: Side, expectedEpoch: int, isRestart: bool,
                      clock: Text)
    requires IsOperationId(command.id) && ProperPair(pair) && WinnerSide(command.payload) == Some(winner)
    ensures var plan := MakePlan(command, related, pair, winner, expectedEpoch, isRestart, clock);
            && WrittenRow(plan.op, NewResolution(plan)) && plan.epoch == plan.intent.epoch
            && plan.pair.At(plan.winner) == Place(plan.intent.space, plan.intent.session)
  {
    hide IsOperationId, WinnerSide, WinnerPayload, LoserPayload, DecisionAt;
  }

  /** What a Meta stage of a resolution leaves of its command. */
  ghost predicate Staged(s: State, t: State, pid: nat, plan: ResolutionPlan)
    requires pid in s.procs
  {
    && OthersSame(s, t, pid)
    && (pid in t.procs ==>
          && t.procs[pid].job == s.procs[pid].job && t.procs[pid].kids == s.procs[pid].kids
          && (t.procs[pid].pc.AtExecute? ==> t == s)
          && (t.procs[pid].proof == s.procs[pid].proof
              || (t.procs[pid].proof.Some? && ReadProof(s.store, plan.op) == Ok(t.procs[pid].proof.value)
                  && t.store == s.store)))
  }

  lemma ResolveStaged(s: State, pid: nat, plan: ResolutionPlan)
    requires pid in s.procs && s.procs[pid].job == ResolveJob(plan)
    ensures Staged(s, AdvanceResolve(s, pid, plan), pid, plan)
  {
    hide ReadProof, JobsKept, ClaimTx, TransferTx, CompleteTx, SpacesKept, Release;
  }

  lemma ResolveMeta(s: State, pid: nat, plan: ResolutionPlan)
    requires pid in s.procs && s.procs[pid].job == ResolveJob(plan) && TrueProc(s.store, s.procs[pid])
    requires plan.isRestart ==> plan.op in s.store.ops
    ensures MetaStep(s, AdvanceResolve(s, pid, plan), plan.op)
  {
    hide WrittenRow, ReadProof, JobsKept, MetaStep, ClaimTx, TransferTx, CompleteTx, NewResolution, SpacesKept, Goto,
         Finish;
    SameMeta(s, AdvanceResolve(s, pid, plan), plan.op);
    if ClaimTx(s.store, plan).Ok? { ClaimedMeta(s, plan); }
    if TransferTx(s.store, plan.op, plan.related).Ok? { TransferredMeta(s, plan); }
    if CompleteTx(s.store, plan).Ok? { CompletedMeta(s, plan); }
    hide TrueProc;
    match s.procs[pid].pc
    case AtClaim =>
    case AtPhase =>
    case AtComplete =>
    case _ =>
  }

  lemma ResolveStages(s: State, pid: nat, plan: ResolutionPlan)
    requires Inv(s) && Identities(s) && pid in s.procs && s.procs[pid].job == ResolveJob(plan)
    ensures var t := AdvanceResolve(s, pid, plan);
            MetaStep(s, t, plan.op) && Staged(s, t, pid, plan)
  {
    PlanEpochOk(s, pid, plan);
    hide Inv, TrueRows, TrueProc;
    assert TrueProc(s.store, s.procs[pid]);
    ResolveMeta(s, pid, plan);
    hide MetaStep, Staged, AdvanceResolve, Identities;
    ResolveStaged(s, pid, plan);
  }

  lemma SameMeta(s: State, t: State, op: Text)
    ensures t.store == s.store ==> MetaStep(s, t, op)
  {
  }

  lemma ClaimedMeta(s: State, plan: ResolutionPlan)
    requires ClaimTx(s.store, plan).Ok? && (plan.isRestart ==> plan.op in s.store.ops)
    requires WrittenRow(plan.op, NewResolution(plan)) && plan.epoch == plan.intent.epoch
    requires plan.pair.At(plan.winner) == Place(plan.intent.space, plan.intent.session)
    ensures forall t: State :: t.store == ClaimTx(s.store, plan).value ==> MetaStep(s, t, plan.op)
  {
    hide WrittenRow;
  }

  lemma TransferredMeta(s: State, plan: ResolutionPlan)
    requires TransferTx(s.store, plan.op, plan.related).Ok?
    ensures forall t: State :: t.store == TransferTx(s.store, plan.op, plan.related).value ==> MetaStep(s, t, plan.op)
  {
    hide WrittenRow;
  }

  lemma CompletedMeta(s: State, plan: ResolutionPlan)
    requires CompleteTx(s.store, plan).Ok?
    ensures forall t: State :: t.store == CompleteTx(s.store, plan).value ==> MetaStep(s, t, plan.op)
  {
    hide WrittenRow;
  }

  lemma PlanEpochOk(s: State, pid: nat, plan: ResolutionPlan)
    requires Inv(s) && pid in s.procs && s.procs[pid].job == ResolveJob(plan)
    ensures plan.isRestart ==> plan.op in s.store.ops
  {
    hide MetaInv, TableInv, ProcProgress, ProcLease, WinnerSide, ContractHash;
    assert ProcOk(s, pid);
  }

  lemma ProofHashes(store: Store, op: Text, proof: Proof)
    requires ReadProof(store, op) == Ok(proof)
    ensures Promised(store, ChildId(op, Winner), proof.winnerHash)
            && Promised(store, ChildId(op, Loser), proof.loserHash)
  {
    hide WinnerSide;
  }

  lemma StagedProc(s: State, t: State, pid: nat, plan: ResolutionPlan)
    requires pid in s.procs && s.procs[pid].job == ResolveJob(plan) && pid in t.procs && Staged(s, t, pid, plan)
    requires TrueProc(t.store, s.procs[pid])
    ensures TrueProc(t.store, t.procs[pid])
  {
    hide WrittenRow, ReadProof;
    if t.procs[pid].proof != s.procs[pid].proof { ProofHashes(s.store, plan.op, t.procs[pid].proof.value); }
  }

  lemma ResolveProc(s: State, pid: nat, plan: ResolutionPlan)
    requires Inv(s) && Identities(s) && pid in s.procs && s.procs[pid].job == ResolveJob(plan)
    requires Evolves(s.store, AdvanceResolve(s, pid, plan).store)
    ensures Identities(AdvanceResolve(s, pid, plan))
  {
    var t := AdvanceResolve(s, pid, plan);
    ResolveStages(s, pid, plan);
    assert TrueProc(s.store, s.procs[pid]);
    assert OthersSame(s, t, pid);
    hide AdvanceResolve, Inv, MetaStep, Staged, Evolves, TrueProc, Identities;
    ProcFramed(s.store, t.store, s.procs[pid]);
    if pid in t.procs { StagedProc(s, t, pid, plan); }
    MetaStepKeeps(s, t, plan.op, pid);
  }

  lemma AwaitMetaStep(s: State, pid: nat, op: Text)
    requires pid in s.procs
    ensures var t := AdvanceActivate(s, pid, op); MetaStep(s, t, op) && OthersSame(s, t, pid) && SameButGone(s, t, pid)
  {
    hide WrittenRow;
  }

  lemma EndMetaStep(s: State, pid: nat, op: Text, previous: Text)
    requires Inv(s) && pid in s.procs && s.procs[pid].job == EndJob(op, previous)
    ensures var t := AdvanceEnd(s, pid, op, previous);
            MetaStep(s, t, op) && OthersSame(s, t, pid) && SameButGone(s, t, pid)
  {
    assert op in s.store.ops && s.store.ops[op].kind == End
           && (s.procs[pid].pc == AtRotate || s.procs[pid].pc == AtRelease) by {
      hide MetaInv, TableInv, ProcProgress, ProcLease;
      assert ProcOk(s, pid);
    }
    hide Inv, MetaStep, OthersSame, SameButGone, AdvanceEnd;
    if s.procs[pid].pc == AtRotate {
      RotateMetaStep(s, pid, op, previous);
    } else {
      ReleaseMetaStep(s, pid, op, previous);
    }
  }

  lemma RotateMetaStep(s: State, pid: nat, op: Text, previous: Text)
    requires pid in s.procs && s.procs[pid].job == EndJob(op, previous) && s.procs[pid].pc == AtRotate
    requires op in s.store.ops && s.store.ops[op].kind == End
    ensures var t := AdvanceEnd(s, pid, op, previous);
            MetaStep(s, t, op) && OthersSame(s, t, pid) && SameButGone(s, t, pid)
  {
    hide JobsKept, Release, SpacesKept, MetaStep, EndRotateTx, EndReleaseTx;
    if EndRotateTx(s.store, op, previous).Ok? { RotationMeta(s, op, previous); }
    SameMeta(s, AdvanceEnd(s, pid, op, previous), op);
  }

  lemma ReleaseMetaStep(s: State, pid: nat, op: Text, previous: Text)
    requires pid in s.procs && s.procs[pid].job == EndJob(op, previous) && s.procs[pid].pc == AtRelease
    ensures var t := AdvanceEnd(s, pid, op, previous);
            MetaStep(s, t, op) && OthersSame(s, t, pid) && SameButGone(s, t, pid)
  {
    hide JobsKept, Release, SpacesKept, MetaStep, EndRotateTx, EndReleaseTx;
    ReleaseMeta(s, op);
  }

  lemma RotationMeta(s: State, op: Text, previous: Text)
    requires op in s.store.ops && s.store.ops[op].kind == End && EndRotateTx(s.store, op, previous).Ok?
    ensures forall t: State :: t.store == EndRotateTx(s.store, op, previous).value ==> MetaStep(s, t, op)
  {
    hide WrittenRow;
  }

  lemma ReleaseMeta(s: State, op: Text)
    ensures forall t: State :: t.store == EndReleaseTx(s.store) ==> MetaStep(s, t, op)
  {
    hide WrittenRow;
  }

  ghost predicate OthersSame(s: State, t: State, pid: nat) {
    forall q :: q in t.procs && q != pid ==> q in s.procs && t.procs[q] == s.procs[q]
  }

  predicate SameButGone(s: State, t: State, pid: nat) {
    pid in t.procs ==> pid in s.procs && (t.procs[pid] == s.procs[pid] || t.procs[pid].job.EndJob?)
                       && (t.procs[pid].pc.AtExecute? ==> t.procs[pid] == s.procs[pid])
  }

  lemma MetaProcKeeps(s: State, t: State, op: Text, pid: nat)
    requires Inv(s) && Identities(s) && Evolves(s.store, t.store) && MetaStep(s, t, op)
    requires OthersSame(s, t, pid) && SameButGone(s, t, pid)
    ensures Identities(t)
  {
    hide Inv, Evolves, MetaStep, TrueRows;
    if pid in t.procs && t.procs[pid] == s.procs[pid] { ProcFramed(s.store, t.store, s.procs[pid]); }
    hide WrittenRow;
    assert pid in t.procs ==> TrueProc(t.store, t.procs[pid]);
    hide TrueProc;
    MetaStepKeeps(s, t, op, pid);
  }

  // --------------------------------------------------------------- every step

  lemma ProcKeeps(s: State, pid: nat, reply: Reply)
    requires Inv(s) && Identities(s) && pid in s.procs && Evolves(s.store, AdvanceProc(s, pid, reply).store)
    ensures Identities(AdvanceProc(s, pid, reply))
  {
    hide Identities, Evolves, MetaStep, AdvanceChild, AdvanceResolve, AdvanceEnd, AdvanceStart, AdvanceActivate,
         OthersSame, SameButGone;
    var proc := s.procs[pid];
    assert IsChildStage(proc.pc) ==> proc.pc.i < |proc.kids| by {
      hide MetaInv, TableInv, ProcMeta, ProcLease;
      assert ProcOk(s, pid);
    }
    hide Inv;
    if IsChildStage(proc.pc) {
      ChildStage(s, pid, proc.pc.i, reply);
    } else {
      match proc.job
      case StartJob(place) => StartKeeps(s, pid, place, reply);
      case ActivateJob(op) =>
        AwaitMetaStep(s, pid, op);
        MetaProcKeeps(s, AdvanceActivate(s, pid, op), op, pid);
      case EndJob(op, previous) =>
        EndMetaStep(s, pid, op, previous);
        MetaProcKeeps(s, AdvanceEnd(s, pid, op, previous), op, pid);
      case ResolveJob(plan) => ResolveProc(s, pid, plan);
    }
  }

  lemma SameTables(s: State, t: State)
    requires Inv(s) && Identities(s) && Evolves(s.store, t.store)
    requires t.store == s.store.(sessions := t.store.sessions)
    requires forall q :: q in t.procs ==> q in s.procs && t.procs[q] == s.procs[q]
    ensures Identities(t)
  {
    hide Inv, Evolves, TrueProc, WrittenRow, TrueRows;
    assert TrueRows(t.store) by { SessionsAside(s.store, t.store); }
    StepKeeps(s, t, Unused(s.procs.Keys));
  }

  lemma SessionsAside(before: Store, after: Store)
    requires TrueRows(before) && after == before.(sessions := after.sessions)
    ensures TrueRows(after)
  {
    hide WrittenRow, QueryOriginal;
    forall k | k in after.envelopes ensures TrueEnvelope(after, k) {
      assert TrueEnvelope(before, k);
    }
  }

  lemma StartKeeps(s: State, pid: nat, place: Place, reply: Reply)
    requires Inv(s) && Identities(s) && pid in s.procs && Evolves(s.store, AdvanceStart(s, pid, place, reply).store)
    ensures Identities(AdvanceStart(s, pid, place, reply))
  {
    hide Inv, Identities, Evolves;
    SameTables(s, AdvanceStart(s, pid, place, reply));
  }

  lemma RecoverKeeps(s: State, key: Key, entry: JournalEntry)
    requires Inv(s) && Identities(s) && key in s.store.journal && JournalOutcome(s.store, key) == Inconclusive
    requires Evolves(s.store, WriteJournal(s, key, entry).store)
    ensures Identities(WriteJournal(s, key, entry))
  {
    var t := WriteJournal(s, key, entry);
    hide Inv, Evolves, TrueProc, WrittenRow, QueryOriginal;
    if key in s.store.envelopes {
      EnvelopeFramed(s.store, t.store, key);
    }
    SpaceKeeps(s.store, t.store, key);
    hide TrueRows;
    StepKeeps(s, t, Unused(s.procs.Keys));
  }

  lemma NextKeepsIdentities(s: State, action: Action)
    requires Inv(s) && Identities(s)
    ensures Identities(Next(s, action))
  {
    var t := Next(s, action);
    hide Inv, Identities, Evolves, MetaStep, AdvanceProc, ActivateTx, StartTx, TouchTx, EndClaimTx, ReadResolution,
         TrueProc;
    NextKeepsInv(s, action);
    if t == s { return; }
    match action
    case BeginStart(pid, command) =>
      StartMeta(s, pid, command);
      hide Next;
      Begun(s, action, pid, command.id);
    case BeginActivate(pid, command) =>
      ActivateMetaStep(s, pid, command);
      MetaStepKeeps(s, t, command.id, pid);
    case BeginResolve(pid, command, clock) => BeginResolveKeeps(s, pid, command, clock);
    case BeginEnd(pid, command) =>
      EndMeta(s, pid, command);
      hide Next;
      Begun(s, action, pid, command.id);
    case Touch(command, kind) =>
      TouchMeta(s, command, kind);
      MetaStepKeeps(s, t, command.id, Unused(s.procs.Keys));
    case Advance(pid, reply) => ProcKeeps(s, pid, reply);
    case Crash(pid) => SameTables(s, t);
    case Recover(key, entry) => RecoverKeeps(s, key, entry);
    case ChangeSessions(_) => SameTables(s, t);
  }

  lemma Begun(s: State, action: Action, pid: nat, op: Text)
    requires Inv(s) && Identities(s) && Evolves(s.store, Next(s, action).store) && MetaStep(s, Next(s, action), op)
    requires action.BeginStart? || action.BeginEnd?
    requires pid == action.pid && Next(s, action) != s
    ensures Identities(Next(s, action))
  {
    var t := Next(s, action);
    assert TrueProc(t.store, t.procs[pid]) by {
      hide Inv, Identities, Evolves, MetaStep, StartTx, EndClaimTx;
    }
    hide Inv, Identities, Evolves, MetaStep, StartTx, EndClaimTx, TrueProc;
    MetaStepKeeps(s, t, op, pid);
  }

  lemma BeginResolveKeeps(s: State, pid: nat, command: Command, clock: Text)
    requires Inv(s) && Identities(s) && Next(s, BeginResolve(pid, command, clock)) != s
    requires Evolves(s.store, s.store)
    ensures Identities(Next(s, BeginResolve(pid, command, clock)))
  {
    var t := Next(s, BeginResolve(pid, command, clock));
    hide ReadResolution;
    assert TrueProc(t.store, t.procs[pid]) by {
      PlanWritten(s.store, command, clock);
      hide Inv, Identities, Evolves, WrittenRow;
    }
    hide Inv, Evolves, TrueProc, TrueRows;
    StepKeeps(s, t, pid);
  }

  lemma FreshIdentities(sessions: map<Key, SessionRow>)
    ensures Identities(Fresh(sessions))
  {
    hide WrittenRow, TrueEnvelope, TrueProc;
  }

  lemma {:induction false} ReachedIdentities(sessions: map<Key, SessionRow>, actions: seq<Action>)
    ensures Identities(Reached(sessions, actions))
  {
    hide Inv, Next, Identities;
    if actions == [] {
      FreshIdentities(sessions);
    } else {
      var shorter := actions[..|actions| - 1];
      ReachedIdentities(sessions, shorter);
      ReachedInv(sessions, shorter);
      NextKeepsIdentities(Reached(sessions, shorter), actions[|actions| - 1]);
    }
  }

  /** In every reached state: a child with an applied journal has an envelope
      carrying the place and payload hash its operation declared for it. */
  lemma AppliedAsDeclared(sessions: map<Key, SessionRow>, actions: seq<Action>, key: Key)
    ensures var store := Reached(sessions, actions).store;
            AppliedAt(store, key) ==>
              && key in store.envelopes && Promised(store, key.id, store.envelopes[key].hash)
              && store.ops[key.id.parent].intent.pair.Some?
              && Place(store.envelopes[key].space, store.envelopes[key].session) ==
                   NamedPlace(store.ops[key.id.parent].intent, key.id.role)
  {
    hide MetaInv, ProcsInv, WrittenRow, TrueProc, Run;
    ReachedIdentities(sessions, actions);
    ReachedInv(sessions, actions);
    var store := Reached(sessions, actions).store;
    if AppliedAt(store, key) {
      assert key in store.journal;
      assert TrueEnvelope(store, key);
    }
  }
}
