/** Every interleaving of coordinator commands, crashes and journal recovery.

    A state is the durable store plus the commands in flight. Each action is
    one atomic block: a Meta transaction, a durable Space write, or a read. A
    command in flight may be abandoned between any two of its steps (`Crash`,
    which also stands for any exception that escapes it). */
module CoordinatorProtocol {
  import opened Symbols
  import opened CoordinationRows
  import opened ChildEvidence
  import opened CoordinatorTransactions

  datatype Job =
    | StartJob(place: Place)
    | ActivateJob(op: Text)
    | ResolveJob(plan: ResolutionPlan)
    | EndJob(op: Text, previous: Text)

  /** Where a command in flight stands. Child stages carry the child's index. */
  datatype Pc =
    | AtStartWrite
    | AtClaim | AtProof
    | AtLease(i: nat) | AtDecide(i: nat) | AtEnvelope(i: nat) | AtExecute(i: nat)
    | AtReceipt(i: nat, state: ReceiptState) | AtReadBack(i: nat)
    | AtVerify(i: nat)
    | AtPhase | AtComplete
    | AtRotate | AtRelease

  datatype Proc = Proc(job: Job, kids: seq<Child>, proof: Option<Proof>, pc: Pc)

  /** What the Space's mutation unit of work does with one child. */
  datatype Reply =
    | Applies(entry: JournalEntry)
    | Rejects(code: string, entry: JournalEntry)
    | Raises(trace: Option<JournalEntry>)

  /** The locator's initial epoch and the operations that existed when it was created. */
  datatype Birth = Birth(epoch: int, ops: set<Text>)

  datatype State = State(
    store: Store,
    procs: map<nat, Proc>,
    leases: map<Text, nat>,      // Space -> the command holding its mutation lease
    applied: map<Key, nat>,      // how often each child mutation took effect
    birth: Birth)

  datatype Action =
    | BeginStart(pid: nat, command: Command)
    | BeginActivate(pid: nat, command: Command)
    | BeginResolve(pid: nat, command: Command, clock: Text)
    | BeginEnd(pid: nat, command: Command)
    | Touch(command: Command, kind: Kind)
    | Advance(pid: nat, reply: Reply)
    | Crash(pid: nat)
    | Recover(key: Key, entry: JournalEntry)        // uow recovery of an inconclusive mutation
    | ChangeSessions(sessions: map<Key, SessionRow>) // other writers of Session rows

  function JournalOutcome(store: Store, key: Key): Outcome {
    QueryOriginal(Lookup(store.journal, key), key.id)
  }

  /** Install a new store; a new locator starts a new count. */
  function WithStore(s: State, store: Store): State {
    if s.store.locator.None? && store.locator.Some? then
      s.(store := store, birth := Birth(store.locator.value.epoch, store.ops.Keys))
    else s.(store := store)
  }

  function Spawn(s: State, pid: nat, proc: Proc): State {
    s.(procs := s.procs[pid := proc])
  }

  /** Commands only ever disappear; what they were issued for never changes. */
  ghost predicate JobsKept(s: State, t: State) {
    forall q :: q in t.procs ==> q in s.procs && t.procs[q].job == s.procs[q].job
  }

  /** A Space stage leaves the Meta database alone. */
  ghost predicate MetaKept(s: State, t: State) {
    t.store.locator == s.store.locator && t.store.ops == s.store.ops && t.birth == s.birth && JobsKept(s, t)
  }

  function Goto(s: State, pid: nat, pc: Pc): (t: State)
    requires pid in s.procs
    ensures t.store == s.store && t.applied == s.applied && t.birth == s.birth && JobsKept(s, t)
  {
    s.(procs := s.procs[pid := s.procs[pid].(pc := pc)])
  }

  function Release(s: State, pid: nat): (t: State)
    ensures t.store == s.store && t.procs == s.procs && t.applied == s.applied && t.birth == s.birth
  {
    s.(leases := map space | space in s.leases && s.leases[space] != pid :: s.leases[space])
  }

  function Finish(s: State, pid: nat): (t: State)
    ensures t.store == s.store && t.applied == s.applied && t.birth == s.birth && pid !in t.procs && JobsKept(s, t)
  {
    Release(s, pid).(procs := s.procs - {pid})
  }

  function WriteJournal(s: State, key: Key, entry: JournalEntry): State {
    var before := if key in s.applied then s.applied[key] else 0;
    s.(store := s.store.(journal := s.store.journal[key := entry]),
       applied := if QueryOriginal(Some(entry), key.id) == Applied then s.applied[key := before + 1] else s.applied)
  }

  /** The mutation's own effect, together with its journal rows. */
  function ApplyChild(s: State, child: Child, entry: JournalEntry): State
    requires Key(child.place.space, child.place.session) in s.store.sessions
  {
    var key := Key(child.place.space, child.place.session);
    var row := ChildEffect(child.role, s.store.sessions[key]);
    var journaled := WriteJournal(s, child.At(), entry);
    journaled.(store := journaled.store.(sessions := s.store.sessions[key := row]))
  }

  /** May the mutation take effect? The Session exists and, for a resolution
      child, the Space policy's gate is open. */
  predicate MayApply(s: State, proc: Proc, child: Child) {
    && Key(child.place.space, child.place.session) in s.store.sessions
    && (child.role in {Winner, Loser} ==> proc.proof.Some? && GateOpen(s.store, proc.proof.value, child))
  }

  /** The unit of work journals an intent only for a mutation that compiled, so
      an unfinished or applied entry has passed the policy's gate. */
  predicate Compiled(outcome: Outcome) {
    outcome == Applied || outcome == Inconclusive
  }

  /** The receipt mutation's own rules (`_compile_receipt_row`) for a receipt
      written by the coordinator: a second write is refused, and so is
      `unknown`, which would need a replay coordination the coordinator never sends. */
  predicate ReceiptAllowed(store: Store, key: Key, state: ReceiptState) {
    key in store.envelopes && key !in store.receipts && state != Unknown
  }

  function NextChild(s: State, pid: nat, i: nat): (t: State)
    requires pid in s.procs
    ensures MetaKept(s, t)
  {
    Goto(Release(s, pid), pid, if i + 1 < |s.procs[pid].kids| then AtLease(i + 1) else AtVerify(0))
  }

  /** One step of `_execute_children` for child `i`. */
  function AdvanceChild(s: State, pid: nat, i: nat, reply: Reply): (t: State)
    requires pid in s.procs && i < |s.procs[pid].kids|
    ensures MetaKept(s, t)
  {
    var proc := s.procs[pid];
    var child := proc.kids[i];
    var key := child.At();
    match proc.pc
    case AtLease(_) =>
      if child.place.space in s.leases then s
      else Goto(s.(leases := s.leases[child.place.space := pid]), pid, AtDecide(i))
    case AtDecide(_) =>
      (match Decide(s.store, child)
       case Execute(exists_) => Goto(s, pid, if exists_ then AtExecute(i) else AtEnvelope(i))
       case AlreadySucceeded => NextChild(s, pid, i)
       case RestoreSucceededReceipt => Goto(s, pid, AtReceipt(i, Succeeded))
       case _ => Finish(s, pid))
    case AtEnvelope(_) =>
      var row := Key(child.place.space, child.place.session);
      if row in s.store.sessions && s.store.sessions[row].hasContext && key !in s.store.envelopes then
        var envelope := Envelope(child.place.space, child.place.session, child.hash, true, true);
        Goto(s.(store := s.store.(envelopes := s.store.envelopes[key := envelope])), pid, AtExecute(i))
      else Finish(s, pid)
    case AtExecute(_) => ExecuteChild(s, pid, i, reply)
    case AtReceipt(_, state) =>
      if !ReceiptAllowed(s.store, key, state) then Finish(s, pid) else
      var written := s.(store := s.store.(receipts := s.store.receipts[key := state]));
      if state == Succeeded then Goto(written, pid, AtReadBack(i)) else Finish(written, pid)
    case AtReadBack(_) =>
      if Lookup(s.store.receipts, key) == Some(Succeeded) then NextChild(s, pid, i) else Finish(s, pid)
    case AtVerify(_) =>
      if Lookup(s.store.receipts, key) != Some(Succeeded) then Finish(s, pid)
      else Goto(s, pid, if i + 1 < |proc.kids| then AtVerify(i + 1) else AtPhase)
    case _ => s
  }

  function ExecuteChild(s: State, pid: nat, i: nat, reply: Reply): (t: State)
    requires pid in s.procs && i < |s.procs[pid].kids|
    ensures MetaKept(s, t)
  {
    var proc := s.procs[pid];
    var child := proc.kids[i];
    var key := child.At();
    match reply
    case Applies(entry) =>
      if MayApply(s, proc, child) && QueryOriginal(Some(entry), child.id) == Applied then
        Goto(ApplyChild(s, child, entry), pid, AtReceipt(i, Succeeded))
      else s
    case Rejects(code, entry) =>
      if QueryOriginal(Some(entry), child.id) in {RejectedOutcome, ConflictOutcome} then
        var state := if code in {"idempotency_conflict", "version_conflict"} then Conflicted else Failed;
        Goto(WriteJournal(s, key, entry), pid, AtReceipt(i, state))
      else s
    case Raises(None) => Goto(s, pid, AtReceipt(i, Unknown))
    case Raises(Some(entry)) =>
      var outcome := QueryOriginal(Some(entry), child.id);
      if Compiled(outcome) && !MayApply(s, proc, child) then s
      else if outcome == Applied then Goto(ApplyChild(s, child, entry), pid, AtReceipt(i, Unknown))
      else Goto(WriteJournal(s, key, entry), pid, AtReceipt(i, Unknown))
  }

  /** A Meta stage writes no Space row and counts no child. */
  predicate SpacesKept(s: State, t: State) {
    MetaOnly(s.store, t.store) && t.applied == s.applied
  }

  function AdvanceResolve(s: State, pid: nat, plan: ResolutionPlan): (t: State)
    requires pid in s.procs
    ensures SpacesKept(s, t)
  {
    var proc := s.procs[pid];
    match proc.pc
    case AtClaim =>
      (match ClaimTx(s.store, plan)
       case Ok(store) => Goto(WithStore(s, store), pid, AtProof)
       case Err(_) => Finish(s, pid))
    case AtProof =>
      (match ReadProof(s.store, plan.op)
       case Ok(proof) => s.(procs := s.procs[pid := proc.(proof := Some(proof), pc := AtLease(0))])
       case Err(_) => Finish(s, pid))
    case AtPhase =>
      (match TransferTx(s.store, plan.op, plan.related)
       case Ok(store) => Goto(WithStore(s, store), pid, AtComplete)
       case Err(_) => Finish(s, pid))
    case AtComplete =>
      var target := plan.pair.At(plan.winner);
      if Key(target.space, target.session) !in s.store.sessions then Finish(s, pid) else
      (match CompleteTx(s.store, plan)
       case Ok(store) => Finish(WithStore(s, store), pid)
       case Err(_) => Finish(s, pid))
    case _ => s
  }

  function AdvanceActivate(s: State, pid: nat, op: Text): (t: State)
    requires pid in s.procs
    ensures SpacesKept(s, t)
  {
    if s.procs[pid].pc != AtPhase then s else
    match AwaitTx(s.store, op)
    case Ok(store) => Finish(WithStore(s, store), pid)
    case Err(_) => Finish(s, pid)
  }

  function AdvanceEnd(s: State, pid: nat, op: Text, previous: Text): (t: State)
    requires pid in s.procs
    ensures SpacesKept(s, t)
  {
    match s.procs[pid].pc
    case AtRotate =>
      (match EndRotateTx(s.store, op, previous)
       case Ok(store) => Goto(WithStore(s, store), pid, AtRelease)
       case Err(_) => Finish(s, pid))
    case AtRelease => Finish(WithStore(s, EndReleaseTx(s.store)), pid)
    case _ => s
  }

  /** The Space write of `start`: an existing Session is reused. */
  function AdvanceStart(s: State, pid: nat, place: Place, reply: Reply): State
    requires pid in s.procs
  {
    var key := Key(place.space, place.session);
    if s.procs[pid].pc == AtStartWrite && reply.Applies? && key !in s.store.sessions then
      var row := SessionRow(false, Authoritatively, PendingValidity, None, true);
      Finish(s.(store := s.store.(sessions := s.store.sessions[key := row])), pid)
    else Finish(s, pid)
  }

  function AdvanceProc(s: State, pid: nat, reply: Reply): State
    requires pid in s.procs
  {
    var proc := s.procs[pid];
    if IsChildStage(proc.pc) && proc.pc.i < |proc.kids| then AdvanceChild(s, pid, proc.pc.i, reply) else
    match proc.job
    case StartJob(place) => AdvanceStart(s, pid, place, reply)
    case ActivateJob(op) => AdvanceActivate(s, pid, op)
    case ResolveJob(plan) => AdvanceResolve(s, pid, plan)
    case EndJob(op, previous) => AdvanceEnd(s, pid, op, previous)
  }

  predicate IsChildStage(pc: Pc) {
    pc.AtLease? || pc.AtDecide? || pc.AtEnvelope? || pc.AtExecute? || pc.AtReceipt? || pc.AtReadBack? || pc.AtVerify?
  }

  function Next(s: State, action: Action): State {
    match action
    case BeginStart(pid, command) =>
      if pid in s.procs || StartTx(s.store, command).Err? || command.space.None? then s else
      var store := StartTx(s.store, command).value;
      if s.store.locator.Some? then s
      else Spawn(WithStore(s, store), pid,
                 Proc(StartJob(Place(command.space.value, command.session)), [], None, AtStartWrite))
    case BeginActivate(pid, command) =>
      if pid in s.procs || ActivateTx(s.store, command).Err? || ConflictPair(command.payload).None? then s else
      Spawn(WithStore(s, ActivateTx(s.store, command).value), pid,
            Proc(ActivateJob(command.id), ConflictChildren(command, ConflictPair(command.payload).value), None,
                 AtLease(0)))
    case BeginResolve(pid, command, clock) =>
      (match ReadResolution(s.store, command, clock)
       case Planned(plan) => if pid in s.procs then s
                             else Spawn(s, pid, Proc(ResolveJob(plan), plan.kids, None, AtClaim))
       case _ => s)
    case BeginEnd(pid, command) =>
      (match EndClaimTx(s.store, command)
       case Ok(Some(store)) =>
         if pid in s.procs || s.store.locator.None? then s
         else Spawn(WithStore(s, store), pid,
                    Proc(EndJob(command.id, s.store.locator.value.operation), [], None, AtRotate))
       case _ => s)
    case Touch(command, kind) =>
      if IsTouch(kind) && TouchTx(s.store, command, kind).Ok? then WithStore(s, TouchTx(s.store, command, kind).value)
         else s
    case Advance(pid, reply) =>
      if pid in s.procs then AdvanceProc(s, pid, reply) else s
    case Crash(pid) =>
      if pid in s.procs then Finish(s, pid) else s
    case Recover(key, entry) =>
      if key in s.store.journal && JournalOutcome(s.store, key) == Inconclusive then WriteJournal(s, key, entry) else s
    case ChangeSessions(sessions) =>
      s.(store := s.store.(sessions := sessions))
  }

  function Run(s: State, actions: seq<Action>): State {
    if actions == [] then s else Next(Run(s, actions[..|actions| - 1]), actions[|actions| - 1])
  }

  /** How a Space's unit of work answers each child it is handed. */
  type Uow = Child -> Reply

  const READ: Reply := Raises(None)

  function Reaction(s: State, pid: nat, uow: Uow): Reply {
    if pid in s.procs && IsChildStage(s.procs[pid].pc) && s.procs[pid].pc.i < |s.procs[pid].kids| then
      uow(s.procs[pid].kids[s.procs[pid].pc.i])
    else READ
  }

  /** `n` steps of one command, with nobody else moving. */
  function Solo(s: State, pid: nat, uow: Uow, n: nat): State
    decreases n
  {
    if n == 0 then s else Solo(Next(s, Advance(pid, Reaction(s, pid, uow))), pid, uow, n - 1)
  }

  /** A command is issued, takes at most `n` steps, and is then gone. */
  function Issue(s: State, begin: Action, pid: nat, uow: Uow, n: nat): State {
    Next(Solo(Next(s, begin), pid, uow, n), Crash(pid))
  }

  const EMPTY: Store := Store(None, map[], map[], map[], map[], map[])

  /** A fresh installation: no coordination rows, any Sessions. */
  function Fresh(sessions: map<Key, SessionRow>): State {
    State(EMPTY.(sessions := sessions), map[], map[], map[], Birth(0, {}))
  }

  function Reached(sessions: map<Key, SessionRow>, actions: seq<Action>): State {
    Run(Fresh(sessions), actions)
  }

  lemma {:induction false} RunAppend(s: State, first: seq<Action>, rest: seq<Action>)
    ensures Run(s, first + rest) == Run(Run(s, first), rest)
    decreases |rest|
  {
    if rest == [] {
      assert first + rest == first;
    } else {
      var n := |rest| - 1;
      RunAppend(s, first, rest[..n]);
      assert (first + rest)[..|first + rest| - 1] == first + rest[..n];
    }
  }
}
