/** The coordinator as an object over its databases.

    Its methods update the rows block by block, in the order of the Python
    code. A ghost history records which protocol action each block was, so
    every state of the object is a reached state of `CoordinatorProtocol` and
    all theorems about reached states apply to it. `fuel` bounds how many
    blocks a command gets before its process dies. */
module Coordinator {
  import opened Symbols
  import opened CoordinationRows
  import opened ChildEvidence
  import opened CoordinatorTransactions
  import opened CoordinatorProtocol
  import opened CoordinatorOutcomes
  import opened ChildOutcomes

  /** After some of its blocks a command goes on, has returned, or was stopped:
      its process died, or it waits for a lease or a reply that never comes. */
  datatype Progress = GoesOn | Returned | Stopped

  /** How a command ended for its caller. */
  datatype Verdict = NotStarted(fault: Fault) | AlreadyDone | Finished | Interrupted

  /** A command in flight, as its Python frame holds it. */
  datatype Errand = Errand(pid: nat, job: Job, kids: seq<Child>, proof: Option<Proof>)

  class ActiveSessionCoordinator {
    // Meta database
    var locator: Option<Locator>
    var ops: map<Text, Operation>
    // Space databases
    var envelopes: map<Key, Envelope>
    var receipts: map<Key, ReceiptState>
    var journal: map<Key, JournalEntry>
    var sessions: map<Key, SessionRow>
    // mutation leases held by commands in flight
    var leases: map<Text, nat>

    ghost const origin: map<Key, SessionRow>
    ghost var history: seq<Action>

    function Rows(): Store
      reads this
    {
      Store(locator, ops, envelopes, receipts, journal, sessions)
    }

    ghost function View(): State
      reads this
    {
      Reached(origin, history)
    }

    ghost predicate Valid()
      reads this
    {
      View().store == Rows() && View().leases == leases
    }

    /** The locator is active on resolution `op`, which is completed. */
    static predicate IsSettled(store: Store, op: Text) {
      && store.locator.Some? && store.locator.value.state == ActiveState && store.locator.value.operation == op
      && op in store.ops && store.ops[op].phase == Completed
    }

    /** The command stands at stage `pc`. */
    ghost predicate Stands(e: Errand, pc: Pc)
      reads this
    {
      e.pid in View().procs && View().procs[e.pid] == Proc(e.job, e.kids, e.proof, pc)
    }

    constructor (rows: map<Key, SessionRow>)
      ensures Valid() && history == [] && sessions == rows && locator == None && ops == map[] && leases == map[]
    {
      locator, ops := None, map[];
      envelopes, receipts, journal, sessions := map[], map[], map[], rows;
      leases := map[];
      origin, history := rows, [];
    }

    lemma Logged(past: seq<Action>, action: Action)
      ensures Reached(origin, past + [action]) == Next(Reached(origin, past), action)
    {
      assert (past + [action])[..|past|] == past;
    }

    method FreeLeases(pid: nat)
      modifies this`leases
      ensures leases == map space | space in old(leases) && old(leases)[space] != pid :: old(leases)[space]
    {
      leases := map space | space in leases && leases[space] != pid :: leases[space];
    }

    /** The process dies: its mutation leases are released with it. */
    method Die(pid: nat)
      requires Valid() && pid in View().procs
      modifies this`leases, this`history
      ensures Valid() && history == old(history) + [Crash(pid)] && pid !in View().procs
      ensures View() == Next(old(View()), Crash(pid))
    {
      hide Run;
      Logged(history, Crash(pid));
      FreeLeases(pid);
      history := history + [Crash(pid)];
    }

    // ------------------------------------------------------ Meta transactions

    /** `start`, its Meta transaction: claim the singleton, or recognise the
        command that already claimed it. True when the slot was claimed now. */
    method ClaimSlot(pid: nat, command: Command) returns (claimed: Result<bool, Fault>)
      requires Valid() && pid !in View().procs
      modifies this`locator, this`ops, this`history
      ensures Valid() && history == old(history) + [BeginStart(pid, command)]
      ensures View() == Next(old(View()), BeginStart(pid, command))
      ensures Rows() == (match StartTx(old(Rows()), command) case Ok(rows) => rows case Err(_) => old(Rows()))
      ensures match StartTx(old(Rows()), command)
              case Ok(_) => claimed == Ok(old(locator).None?)
              case Err(fault) => claimed == Err(fault)
      ensures match claimed
              case Ok(now) => StartAccepted(old(Rows()), command, Rows()) && now == (old(locator) == None)
              case Err(fault) => StartRefused(old(Rows()), command, fault) && Rows() == old(Rows())
      ensures claimed == Ok(true) ==>
                (&& command.space.Some? && pid in View().procs
                 && View().procs[pid] ==
                      Proc(StartJob(Place(command.space.value, command.session)), [], None, AtStartWrite))
      ensures claimed != Ok(true) ==> pid !in View().procs && View() == old(View())
    {
      hide Run, StartTx, StartRefused, StartAccepted;
      StartOutcome(Rows(), command);
      StartSpawns(Rows(), command);
      Logged(history, BeginStart(pid, command));
      claimed := ClaimWrite(command);
      history := history + [BeginStart(pid, command)];
    }

    static lemma StartSpawns(store: Store, command: Command)
      ensures StartTx(store, command).Ok? && store.locator.None? ==> command.space.Some?
      ensures StartTx(store, command).Ok? && store.locator.Some? ==> StartTx(store, command).value == store
    {
      hide IsOperationId, IsHash, InsertClaim, MetaOnly, RowsKept;
    }

    method ClaimWrite(command: Command) returns (claimed: Result<bool, Fault>)
      modifies this`locator, this`ops
      ensures Rows() == (match StartTx(old(Rows()), command) case Ok(rows) => rows case Err(_) => old(Rows()))
      ensures match StartTx(old(Rows()), command)
              case Ok(_) => claimed == Ok(old(locator).None?)
              case Err(fault) => claimed == Err(fault)
    {
      hide IsOperationId, IsHash, MakeIntent, MetaOnly, RowsKept;
      if command.space.None? || !IsOperationId(command.id) || !IsHash(command.hash) {
        claimed := Err(InvalidRequest);
      } else if locator.Some? {
        claimed := if locator.value.operation != command.id then Err(AlreadyClaimed)
                   else if command.id !in ops || ops[command.id].hash != command.hash then Err(IdempotencyConflict)
                   else Ok(false);
      } else {
        var row := ClaimingLocator(command, Place(command.space.value, command.session));
        if command.id in ops || row.epoch <= 0 {
          claimed := Err(ConcurrentClaim);
        } else {
          locator := Some(row);
          ops := ops[command.id :=
                       Operation(Kind.Start, command.hash, MakeIntent(Kind.Start, command), Claimed, None, None)];
          claimed := Ok(true);
        }
      }
    }

    /** `start`: claim, then create the Session unless it exists; `accepts` says
        whether the Space applies the write. An existing row is never touched. */
    method Start(pid: nat, command: Command, accepts: bool, entry: JournalEntry) returns (claimed: Result<bool, Fault>)
      requires Valid() && pid !in View().procs
      modifies this
      ensures Valid() && old(history) <= history && pid !in View().procs
      ensures Rows().(sessions := old(sessions)) ==
                (match StartTx(old(Rows()), command) case Ok(rows) => rows case Err(_) => old(Rows()))
      ensures match claimed
              case Ok(_) => StartAccepted(old(Rows()), command, Rows().(sessions := old(sessions)))
              case Err(fault) => StartRefused(old(Rows()), command, fault)
      ensures sessions ==
                if claimed == Ok(true) && accepts && command.space.Some?
                   && Key(command.space.value, command.session) !in old(sessions) then
                  old(sessions)[Key(command.space.value, command.session) :=
                                  SessionRow(false, Authoritatively, PendingValidity, None, true)]
                else old(sessions)
      ensures claimed != Ok(true) ==> Rows() == old(Rows())
    {
      hide Run, StartTx, Next, StartAccepted, StartRefused;
      claimed := ClaimSlot(pid, command);
      if claimed == Ok(true) {
        SessionWrite(pid, Place(command.space.value, command.session), if accepts then Applies(entry) else READ);
      }
    }

    method SessionWrite(pid: nat, place: Place, reply: Reply)
      requires Valid() && pid in View().procs && View().procs[pid] == Proc(StartJob(place), [], None, AtStartWrite)
      modifies this`sessions, this`leases, this`history
      ensures Valid() && history == old(history) + [Advance(pid, reply)] && pid !in View().procs
      ensures var key := Key(place.space, place.session);
              sessions == if reply.Applies? && key !in old(sessions)
                          then old(sessions)[key := SessionRow(false, Authoritatively, PendingValidity, None, true)]
                          else old(sessions)
    {
      hide Run, JobsKept;
      Logged(history, Advance(pid, reply));
      var key := Key(place.space, place.session);
      if key !in sessions && reply.Applies? {
        sessions := sessions[key := SessionRow(false, Authoritatively, PendingValidity, None, true)];
      }
      FreeLeases(pid);
      history := history + [Advance(pid, reply)];
    }

    /** The read-only block: bind the command to the persisted conflict. */
    method ReadConflict(pid: nat, command: Command, clock: Text) returns (read: ResolveRead)
      requires Valid() && pid !in View().procs
      modifies this`history
      ensures read == ReadResolution(Rows(), command, clock)
      ensures match read
              case Refused(fault) => ReadRefused(Rows(), command, fault)
              case Replayed => ReadReplayed(Rows(), command)
              case Planned(plan) => ReadPlanned(Rows(), command, clock, plan)
      ensures (read.Replayed? <==> ReadReplayed(Rows(), command))
              && forall fault :: read == Refused(fault) <==> ReadRefused(Rows(), command, fault)
      ensures Valid() && history == old(history) + [BeginResolve(pid, command, clock)]
      ensures View() == Next(old(View()), BeginResolve(pid, command, clock)) && Rows() == old(Rows())
      ensures if read.Planned? then Stands(Errand(pid, ResolveJob(read.plan), read.plan.kids, None), AtClaim)
              else pid !in View().procs
    {
      hide Run, ReadResolution, ReadRefused, ReadReplayed, ReadPlanned;
      ReadOutcome(Rows(), command, clock);
      Logged(history, BeginResolve(pid, command, clock));
      read := ReadResolution(Rows(), command, clock);
      history := history + [BeginResolve(pid, command, clock)];
    }

    /** Insert or verify the resolution row and CAS the locator onto the winner,
        or change nothing. */
    method ClaimTransaction(plan: ResolutionPlan) returns (committed: bool)
      modifies this`locator, this`ops
      ensures committed <==> ClaimTx(old(Rows()), plan).Ok?
      ensures Rows() == if committed then ClaimTx(old(Rows()), plan).value else old(Rows())
      ensures Claims(old(Rows()), plan, committed, Rows())
    {
      hide MetaOnly, RowsKept, NewResolution, Claims;
      ClaimOutcome(Rows(), plan);
      if plan.op in ops {
        var row := ops[plan.op];
        return row.kind == ResolveConflict && row.hash == plan.hash && row.related == Some(plan.related)
               && row.phase in {Claimed, Prepared, Transferred, Completed};
      }
      if plan.isRestart {
        ops := ops[plan.op := NewResolution(plan)];
        return true;
      }
      // UPDATE active_session_locator ... WHERE <still the conflict, at the expected epoch>
      var target := plan.pair.At(plan.winner);
      var rowcount := 0;
      if locator.Some? {
        var row := locator.value;
        if row.state == Claiming && row.operation == plan.related && row.epoch == plan.expectedEpoch
           && Place(row.space, row.session) == plan.pair.active {
          locator := Some(row.(operation := plan.op, epoch := plan.epoch, space := target.space,
                               session := target.session));
          rowcount := 1;
        }
      }
      if rowcount == 1 {
        ops := ops[plan.op := NewResolution(plan)];
        return true;
      }
      return locator.Some? && locator.value.operation == plan.op && locator.value.epoch == plan.epoch
             && locator.value.state == Claiming && Place(locator.value.space, locator.value.session) == target;
    }

    method ClaimResolution(e: Errand, plan: ResolutionPlan) returns (alive: bool)
      requires Valid() && e.job == ResolveJob(plan) && Stands(e, AtClaim)
      modifies this
      ensures Valid() && history == old(history) + [Advance(e.pid, READ)]
              && View() == Next(old(View()), Advance(e.pid, READ))
      ensures if alive then Stands(e, AtProof) else e.pid !in View().procs
      ensures Claims(old(Rows()), plan, alive, Rows())
    {
      hide Run, ClaimTx, JobsKept, MetaOnly, Claims;
      Logged(history, Advance(e.pid, READ));
      alive := ClaimTransaction(plan);
      if !alive { FreeLeases(e.pid); }
      history := history + [Advance(e.pid, READ)];
    }

    /** Rebuild the proof from the persisted rows. */
    method FreezeProof(e: Errand, plan: ResolutionPlan) returns (proof: Result<Proof, Fault>)
      requires Valid() && e.job == ResolveJob(plan) && Stands(e, AtProof)
      modifies this`leases, this`history
      ensures Valid() && history == old(history) + [Advance(e.pid, READ)]
              && View() == Next(old(View()), Advance(e.pid, READ))
      ensures proof == ReadProof(old(Rows()), plan.op) && Rows() == old(Rows())
      ensures match proof
              case Ok(rebuilt) => ProofRebuilt(Rows(), plan.op, rebuilt)
              case Err(fault) => ProofRefused(Rows(), plan.op, fault)
      ensures if proof.Ok? then Stands(e.(proof := Some(proof.value)), AtLease(0)) else e.pid !in View().procs
    {
      hide Run, ReadProof, RowsKept, JobsKept, ProofRebuilt, ProofRefused;
      ProofOutcome(Rows(), plan.op);
      Logged(history, Advance(e.pid, READ));
      proof := ReadProof(Rows(), plan.op);
      if proof.Err? { FreeLeases(e.pid); }
      history := history + [Advance(e.pid, READ)];
    }

    /** CAS claimed -> transferred; a row already past it is accepted. */
    method TransferTransaction(plan: ResolutionPlan) returns (committed: bool)
      modifies this`ops
      ensures committed <==> TransferTx(old(Rows()), plan.op, plan.related).Ok?
      ensures Rows() == if committed then TransferTx(old(Rows()), plan.op, plan.related).value else old(Rows())
      ensures Transfers(old(Rows()), plan.op, plan.related, committed, Rows())
    {
      hide MetaOnly, Transfers;
      TransferOutcome(Rows(), plan.op, plan.related);
      var rowcount := 0;
      if plan.op in ops && ops[plan.op].phase == Claimed && ops[plan.op].related == Some(plan.related) {
        ops := ops[plan.op := ops[plan.op].(phase := Transferred)];
        rowcount := 1;
      }
      committed := rowcount == 1 || (plan.op in ops && ops[plan.op].phase in {Transferred, Completed});
    }

    method TransferResolution(e: Errand, plan: ResolutionPlan) returns (alive: bool)
      requires Valid() && e.job == ResolveJob(plan) && Stands(e, AtPhase)
      modifies this
      ensures Valid() && history == old(history) + [Advance(e.pid, READ)]
              && View() == Next(old(View()), Advance(e.pid, READ))
      ensures if alive then Stands(e, AtComplete) else e.pid !in View().procs
      ensures Transfers(old(Rows()), plan.op, plan.related, alive, Rows())
    {
      hide Run, TransferTx, JobsKept, MetaOnly, Transfers;
      Logged(history, Advance(e.pid, READ));
      alive := TransferTransaction(plan);
      if !alive { FreeLeases(e.pid); }
      history := history + [Advance(e.pid, READ)];
    }

    /** Three conditional updates in one transaction; unless each of them hits
        exactly one row, all of them are rolled back. */
    method CompletionTransaction(plan: ResolutionPlan) returns (committed: bool)
      modifies this`locator, this`ops
      ensures committed <==> CompleteTx(old(Rows()), plan).Ok?
      ensures Rows() == if committed then CompleteTx(old(Rows()), plan).value else old(Rows())
      ensures Completes(old(Rows()), plan, committed, Rows())
    {
      hide MetaOnly, Completes;
      CompleteOutcome(Rows(), plan);
      var locatorBefore, opsBefore := locator, ops;
      var locatorHits, resolutionHits, conflictHits := 0, 0, 0;
      if locator.Some? && locator.value.state == Claiming && locator.value.operation == plan.op
         && locator.value.epoch == plan.epoch
         && Place(locator.value.space, locator.value.session) == plan.pair.At(plan.winner) {
        locator := Some(locator.value.(state := ActiveState));
        locatorHits := 1;
      }
      if plan.op in ops && ops[plan.op].phase == Transferred && ops[plan.op].related == Some(plan.related) {
        ops := ops[plan.op := ops[plan.op].(phase := Completed, result := Some(Authoritative))];
        resolutionHits := 1;
      }
      if plan.related in ops && ops[plan.related].phase == AwaitingResolution {
        ops := ops[plan.related := ops[plan.related].(phase := Completed, result := Some(ResolvedBy(plan.op)))];
        conflictHits := 1;
      }
      committed := locatorHits == 1 && resolutionHits == 1 && conflictHits == 1;
      if !committed {
        locator, ops := locatorBefore, opsBefore;
      }
    }

    method CompleteResolution(e: Errand, plan: ResolutionPlan) returns (done: bool)
      requires Valid() && e.job == ResolveJob(plan) && Stands(e, AtComplete)
      modifies this
      ensures Valid() && history == old(history) + [Advance(e.pid, READ)]
              && View() == Next(old(View()), Advance(e.pid, READ))
      ensures e.pid !in View().procs
      ensures done <==>
                CompleteTx(old(Rows()), plan).Ok?
                && Key(plan.pair.At(plan.winner).space, plan.pair.At(plan.winner).session) in old(sessions)
      ensures Rows() == if done then CompleteTx(old(Rows()), plan).value else old(Rows())
      ensures if done then Completes(old(Rows()), plan, true, Rows()) else Rows() == old(Rows())
    {
      hide Run, CompleteTx, JobsKept, MetaOnly, Completes;
      Logged(history, Advance(e.pid, READ));
      var target := plan.pair.At(plan.winner);
      done := false;
      if Key(target.space, target.session) in sessions {
        done := CompletionTransaction(plan);
      }
      FreeLeases(e.pid);
      history := history + [Advance(e.pid, READ)];
    }

    /** `awaiting_resolution`, once both children are proven. */
    method AwaitResolution(e: Errand, op: Text) returns (done: bool)
      requires Valid() && e.job == ActivateJob(op) && Stands(e, AtPhase)
      modifies this
      ensures Valid() && history == old(history) + [Advance(e.pid, READ)]
              && View() == Next(old(View()), Advance(e.pid, READ))
      ensures e.pid !in View().procs && Awaits(old(Rows()), op, done, Rows())
    {
      hide Run, JobsKept, MetaOnly, Awaits;
      AwaitOutcome(Rows(), op);
      Logged(history, Advance(e.pid, READ));
      done := op in ops;
      if done {
        ops := ops[op := ops[op].(phase := AwaitingResolution)];
      }
      FreeLeases(e.pid);
      history := history + [Advance(e.pid, READ)];
    }

    // ----------------------------------------------------------- Space stages

    method AcquireLease(e: Errand, i: nat, reply: Reply) returns (held: bool)
      requires Valid() && i < |e.kids| && Stands(e, AtLease(i))
      modifies this`leases, this`history
      ensures Valid() && history == old(history) + [Advance(e.pid, reply)]
              && View() == Next(old(View()), Advance(e.pid, reply))
      ensures if held then Stands(e, AtDecide(i)) else View() == old(View())
      ensures var space := e.kids[i].place.space;
              && (held <==> space !in old(leases))
              && leases == (if held then old(leases)[space := e.pid] else old(leases))
    {
      hide Run, JobsKept;
      Logged(history, Advance(e.pid, reply));
      held := e.kids[i].place.space !in leases;
      if held { leases := leases[e.kids[i].place.space := e.pid]; }
      history := history + [Advance(e.pid, reply)];
    }

    /** The next stage after a decision, if the command goes on. */
    static function Decided(decision: Decision, count: nat, i: nat): Option<Pc> {
      match decision
      case Execute(exists_) => Some(if exists_ then AtExecute(i) else AtEnvelope(i))
      case RestoreSucceededReceipt => Some(AtReceipt(i, Succeeded))
      case AlreadySucceeded => Some(if i + 1 < count then AtLease(i + 1) else AtVerify(0))
      case _ => None
    }

    method DecideChild(e: Errand, i: nat, reply: Reply) returns (decision: Decision)
      requires Valid() && i < |e.kids| && Stands(e, AtDecide(i))
      modifies this`leases, this`history
      ensures Valid() && history == old(history) + [Advance(e.pid, reply)]
              && View() == Next(old(View()), Advance(e.pid, reply))
      ensures Rows() == old(Rows()) && Warrants(Rows(), e.kids[i], decision)
      ensures match decision
              case Execute(known) => Stands(e, if known then AtExecute(i) else AtEnvelope(i))
              case RestoreSucceededReceipt => Stands(e, AtReceipt(i, Succeeded))
              case AlreadySucceeded => Stands(e, if i + 1 < |e.kids| then AtLease(i + 1) else AtVerify(0))
              case _ => e.pid !in View().procs
      ensures leases == if decision.Execute? || decision.RestoreSucceededReceipt? then old(leases)
                        else map space | space in old(leases) && old(leases)[space] != e.pid :: old(leases)[space]
    {
      hide Run, Next, Decide, Release, Warrants;
      DecisionTable(Rows(), e.kids[i]);
      Logged(history, Advance(e.pid, reply));
      Deciding(View(), e, i, reply);
      decision := Decide(Rows(), e.kids[i]);
      if !decision.Execute? && !decision.RestoreSucceededReceipt? { FreeLeases(e.pid); }
      history := history + [Advance(e.pid, reply)];
    }

    method RecordEnvelope(e: Errand, i: nat, reply: Reply) returns (alive: bool)
      requires Valid() && i < |e.kids| && Stands(e, AtEnvelope(i))
      modifies this`envelopes, this`leases, this`history
      ensures Valid() && history == old(history) + [Advance(e.pid, reply)]
              && View() == Next(old(View()), Advance(e.pid, reply))
      ensures if alive then Stands(e, AtExecute(i)) else e.pid !in View().procs
      ensures var child, place := e.kids[i], e.kids[i].place;
              && (alive <==>
                  && Key(place.space, place.session) in sessions && sessions[Key(place.space, place.session)].hasContext
                  && Key(place.space, child.id) !in old(envelopes))
              && envelopes == if !alive then old(envelopes) else
                   old(envelopes)[Key(place.space, child.id) :=
                                    Envelope(place.space, place.session, child.hash, true, true)]
    {
      hide Run, JobsKept;
      Logged(history, Advance(e.pid, reply));
      var child := e.kids[i];
      var row := Key(child.place.space, child.place.session);
      alive := row in sessions && sessions[row].hasContext && child.At() !in envelopes;
      if alive {
        envelopes := envelopes[child.At() := Envelope(child.place.space, child.place.session, child.hash, true, true)];
      } else {
        FreeLeases(e.pid);
      }
      history := history + [Advance(e.pid, reply)];
    }

    /** `uow.execute`: whatever the unit of work did is in its journal rows, and
        the receipt to write follows from its reply. A reply the Space policy
        would not give leaves everything as it was. */
    method RunMutation(e: Errand, i: nat, reply: Reply) returns (state: Option<ReceiptState>)
      requires Valid() && i < |e.kids| && Stands(e, AtExecute(i))
      modifies this`journal, this`sessions, this`history
      ensures Valid() && history == old(history) + [Advance(e.pid, reply)]
              && View() == Next(old(View()), Advance(e.pid, reply))
      ensures if state.Some? then Stands(e, AtReceipt(i, state.value)) else View() == old(View())
      ensures Reports(reply, e.kids[i], Permits(old(Rows()), e.proof, e.kids[i]), state)
      ensures Leaves(old(Rows()), Rows(), reply, e.kids[i], state)
    {
      hide Run, Next, Reports, Leaves, Permits;
      Logged(history, Advance(e.pid, reply));
      state := ExecuteMutation(e.proof, e.kids[i], reply);
      Executed(View(), Rows(), e, i, reply, state);
      history := history + [Advance(e.pid, reply)];
    }

    /** The two tables the unit of work writes. */
    method ExecuteMutation(proof: Option<Proof>, child: Child, reply: Reply) returns (state: Option<ReceiptState>)
      modifies this`journal, this`sessions
      ensures Reports(reply, child, Permits(old(Rows()), proof, child), state)
      ensures Leaves(old(Rows()), Rows(), reply, child, state)
    {
      hide QueryOriginal, GateOpen, Admits, ChildEffect, ChildOutcomes.Concluded;
      var row := Key(child.place.space, child.place.session);
      var admitted := row in sessions
          && (child.role in {Winner, Loser} ==> proof.Some? && GateOpen(Rows(), proof.value, child));
      if proof.Some? && child.role in {Winner, Loser} { GateOpens(Rows(), proof.value, child); }
      if row in sessions { EffectIs(child.role, sessions[row]); }
      state := None;
      match reply {
        case Applies(entry) =>
          if admitted && QueryOriginal(Some(entry), child.id) == Applied {
            state := Some(Succeeded);
            journal := journal[child.At() := entry];
            sessions := sessions[row := ChildEffect(child.role, sessions[row])];
          }
        case Rejects(code, entry) =>
          if QueryOriginal(Some(entry), child.id) in {RejectedOutcome, ConflictOutcome} {
            state := Some(if code in {"idempotency_conflict", "version_conflict"} then Conflicted else Failed);
            journal := journal[child.At() := entry];
          }
        case Raises(None) => state := Some(Unknown);
        case Raises(Some(entry)) =>
          var outcome := QueryOriginal(Some(entry), child.id);
          if admitted || !Compiled(outcome) {
            state := Some(Unknown);
            journal := journal[child.At() := entry];
            if outcome == Applied {
              sessions := sessions[row := ChildEffect(child.role, sessions[row])];
            }
          }
      }
    }

    /** The receipt mutation; a refused or unsuccessful receipt ends the command. */
    method RecordReceipt(e: Errand, i: nat, state: ReceiptState, reply: Reply) returns (alive: bool)
      requires Valid() && i < |e.kids| && Stands(e, AtReceipt(i, state))
      modifies this`receipts, this`leases, this`history
      ensures Valid() && history == old(history) + [Advance(e.pid, reply)]
              && View() == Next(old(View()), Advance(e.pid, reply))
      ensures if alive then Stands(e, AtReadBack(i)) else e.pid !in View().procs
      ensures var key := Key(e.kids[i].place.space, e.kids[i].id);
              var writes := key in envelopes && key !in old(receipts) && state != Unknown;
              && receipts == (if writes then old(receipts)[key := state] else old(receipts))
              && (alive <==> writes && state == Succeeded)
    {
      hide Run, JobsKept;
      Logged(history, Advance(e.pid, reply));
      var key := e.kids[i].At();
      alive := false;
      if key in envelopes && key !in receipts && state != Unknown {
        receipts := receipts[key := state];
        alive := state == Succeeded;
      }
      if !alive { FreeLeases(e.pid); }
      history := history + [Advance(e.pid, reply)];
    }

    method ReadBack(e: Errand, i: nat, reply: Reply) returns (alive: bool)
      requires Valid() && i < |e.kids| && Stands(e, AtReadBack(i))
      modifies this`leases, this`history
      ensures Valid() && history == old(history) + [Advance(e.pid, reply)]
              && View() == Next(old(View()), Advance(e.pid, reply))
      ensures if alive then Stands(e, if i + 1 < |e.kids| then AtLease(i + 1) else AtVerify(0))
              else e.pid !in View().procs
      ensures var key := Key(e.kids[i].place.space, e.kids[i].id);
              alive <==> key in receipts && receipts[key] == Succeeded
    {
      hide Run, JobsKept;
      Logged(history, Advance(e.pid, reply));
      alive := Lookup(receipts, e.kids[i].At()) == Some(Succeeded);
      FreeLeases(e.pid);
      history := history + [Advance(e.pid, reply)];
    }

    method VerifyReceipt(e: Errand, i: nat, reply: Reply) returns (alive: bool)
      requires Valid() && i < |e.kids| && Stands(e, AtVerify(i))
      modifies this`leases, this`history
      ensures Valid() && history == old(history) + [Advance(e.pid, reply)]
              && View() == Next(old(View()), Advance(e.pid, reply))
      ensures if alive then Stands(e, if i + 1 < |e.kids| then AtVerify(i + 1) else AtPhase) else e.pid !in View().procs
      ensures var key := Key(e.kids[i].place.space, e.kids[i].id);
              alive <==> key in receipts && receipts[key] == Succeeded
    {
      hide Run, JobsKept;
      Logged(history, Advance(e.pid, reply));
      alive := Lookup(receipts, e.kids[i].At()) == Some(Succeeded);
      if !alive { FreeLeases(e.pid); }
      history := history + [Advance(e.pid, reply)];
    }

    // ------------------------------------------------------ whole commands

    /** The remaining run of command `pid` is what `n` steps from `s` come to. */
    ghost predicate OnTrack(pid: nat, uow: Uow, s: State, n: nat, left: nat)
      reads this
    {
      Solo(s, pid, uow, n) == Solo(View(), pid, uow, left)
    }

    /** A command that goes on stands at `pc`; otherwise its run is over. */
    ghost predicate Tracked(e: Errand, now: Progress, pc: Pc, uow: Uow, s: State, n: nat, left: nat)
      reads this
    {
      match now
      case GoesOn => Stands(e, pc) && OnTrack(e.pid, uow, s, n, left)
      case Returned => View() == Solo(s, e.pid, uow, n) && e.pid !in View().procs
      case Stopped => View() == Solo(s, e.pid, uow, n) && e.pid in View().procs
    }

    /** A command that has returned, or whose reply is never accepted, stands still. */
    static lemma {:induction false} Halted(s: State, pid: nat, uow: Uow, n: nat)
      requires Next(s, Advance(pid, Reaction(s, pid, uow))) == s
      ensures Solo(s, pid, uow, n) == s
      decreases n
    {
      hide Next, Reaction;
      if n > 0 { Halted(s, pid, uow, n - 1); }
    }

    static lemma Spent(s: State, pid: nat, uow: Uow)
      ensures Solo(s, pid, uow, 0) == s
    {
    }

    static lemma Stepped(before: State, after: State, pid: nat, uow: Uow, left: nat)
      requires after == Next(before, Advance(pid, Reaction(before, pid, uow)))
      ensures Solo(before, pid, uow, left + 1) == Solo(after, pid, uow, left)
    {
    }

    static lemma Gone(s: State, pid: nat, uow: Uow, n: nat)
      requires pid !in s.procs
      ensures Solo(s, pid, uow, n) == s
    {
      hide Solo;
      Halted(s, pid, uow, n);
    }

    /** Run the mutation and drive the receipt from its outcome, then re-read it. */
    method RunAndRecord(e: Errand, i: nat, uow: Uow, fuel: nat, ghost s: State, ghost n: nat)
      returns (now: Progress, left: nat)
      requires Valid() && i < |e.kids| && Stands(e, AtExecute(i)) && OnTrack(e.pid, uow, s, n, fuel)
      modifies this
      ensures Valid() && old(history) <= history
      ensures Tracked(e, now, if i + 1 < |e.kids| then AtLease(i + 1) else AtVerify(0), uow, s, n, left)
    {
      hide Reached, Next, Solo, Reports, Leaves;
      now, left := Stopped, fuel;
      if left == 0 {
        Spent(View(), e.pid, uow);
        return;
      }
      ghost var before := View();
      var ran := RunMutation(e, i, uow(e.kids[i]));
      left := left - 1;
      Stepped(before, View(), e.pid, uow, left);
      if ran.None? {
        Halted(View(), e.pid, uow, left);
        return;
      }
      now, left := Record(e, i, ran.value, uow, left, s, n);
    }

    method Record(e: Errand, i: nat, state: ReceiptState, uow: Uow, fuel: nat, ghost s: State, ghost n: nat)
      returns (now: Progress, left: nat)
      requires Valid() && i < |e.kids| && Stands(e, AtReceipt(i, state)) && OnTrack(e.pid, uow, s, n, fuel)
      modifies this
      ensures Valid() && old(history) <= history
      ensures Tracked(e, now, if i + 1 < |e.kids| then AtLease(i + 1) else AtVerify(0), uow, s, n, left)
    {
      hide Reached, Next, Solo;
      now, left := Stopped, fuel;
      if left == 0 {
        Spent(View(), e.pid, uow);
        return;
      }
      ghost var before := View();
      var written := RecordReceipt(e, i, state, uow(e.kids[i]));
      left := left - 1;
      Stepped(before, View(), e.pid, uow, left);
      if !written {
        Gone(View(), e.pid, uow, left);
        return Returned, left;
      }
      if left == 0 {
        Spent(View(), e.pid, uow);
        return;
      }
      before := View();
      var confirmed := ReadBack(e, i, uow(e.kids[i]));
      left := left - 1;
      Stepped(before, View(), e.pid, uow, left);
      if confirmed { return GoesOn, left; }
      Gone(View(), e.pid, uow, left);
      now := Returned;
    }

    /** Everything one child needs, under its Space's mutation lease. */
    method ExecuteChild(e: Errand, i: nat, uow: Uow, fuel: nat, ghost s: State, ghost n: nat)
      returns (now: Progress, left: nat)
      requires Valid() && i < |e.kids| && Stands(e, AtLease(i)) && OnTrack(e.pid, uow, s, n, fuel)
      modifies this
      ensures Valid() && old(history) <= history
      ensures Tracked(e, now, if i + 1 < |e.kids| then AtLease(i + 1) else AtVerify(0), uow, s, n, left)
    {
      hide Reached, Next, Decide, Solo, Warrants;
      var reply := uow(e.kids[i]);
      now, left := Stopped, fuel;
      if left == 0 {
        Spent(View(), e.pid, uow);
        return;
      }
      ghost var before := View();
      var held := AcquireLease(e, i, reply);
      left := left - 1;
      Stepped(before, View(), e.pid, uow, left);
      if !held {
        Halted(View(), e.pid, uow, left);
        return;
      }
      if left == 0 {
        Spent(View(), e.pid, uow);
        return;
      }
      before := View();
      var decision := DecideChild(e, i, reply);
      left := left - 1;
      Stepped(before, View(), e.pid, uow, left);
      match decision {
        case AlreadySucceeded => now := GoesOn;
        case RestoreSucceededReceipt => now, left := Record(e, i, Succeeded, uow, left, s, n);
        case Execute(true) => now, left := RunAndRecord(e, i, uow, left, s, n);
        case Execute(false) =>
          if left == 0 {
            Spent(View(), e.pid, uow);
            return;
          }
          before := View();
          var recorded := RecordEnvelope(e, i, reply);
          left := left - 1;
          Stepped(before, View(), e.pid, uow, left);
          if !recorded {
            Gone(View(), e.pid, uow, left);
            return Returned, left;
          }
          now, left := RunAndRecord(e, i, uow, left, s, n);
        case _ =>
          Gone(View(), e.pid, uow, left);
          now := Returned;
      }
    }

    /** `_execute_children`: every child in order, then an independent second
        reading of every receipt. */
    method ExecuteChildren(e: Errand, uow: Uow, fuel: nat, ghost s: State, ghost n: nat)
      returns (now: Progress, left: nat)
      requires Valid() && |e.kids| > 0 && Stands(e, AtLease(0)) && OnTrack(e.pid, uow, s, n, fuel)
      modifies this
      ensures Valid() && old(history) <= history
      ensures Tracked(e, now, AtPhase, uow, s, n, left)
    {
      hide Reached, Next, Solo;
      ghost var before := View();
      var i := 0;
      now, left := GoesOn, fuel;
      while i < |e.kids|
        invariant 0 <= i <= |e.kids| && Valid() && old(history) <= history
        invariant Stands(e, if i < |e.kids| then AtLease(i) else AtVerify(0)) && OnTrack(e.pid, uow, s, n, left)
      {
        now, left := ExecuteChild(e, i, uow, left, s, n);
        if now != GoesOn { return; }
        i := i + 1;
      }
      i := 0;
      while i < |e.kids|
        invariant 0 <= i <= |e.kids| && Valid() && old(history) <= history
        invariant Stands(e, if i < |e.kids| then AtVerify(i) else AtPhase) && OnTrack(e.pid, uow, s, n, left)
      {
        if left == 0 {
          Spent(View(), e.pid, uow);
          return Stopped, 0;
        }
        before := View();
        var verified := VerifyReceipt(e, i, uow(e.kids[i]));
        left := left - 1;
        Stepped(before, View(), e.pid, uow, left);
        if !verified {
          Gone(View(), e.pid, uow, left);
          return Returned, left;
        }
        i := i + 1;
      }
      now := GoesOn;
    }

    /** `resolve_activation_conflict` after its command is bound to the conflict. */
    method RunResolution(e: Errand, plan: ResolutionPlan, uow: Uow, fuel: nat, ghost s: State, ghost n: nat)
      returns (now: Progress, done: bool)
      requires Valid() && e.job == ResolveJob(plan) && e.kids == plan.kids && |plan.kids| == 2 && e.proof == None
      requires Stands(e, AtClaim) && OnTrack(e.pid, uow, s, n, fuel)
      modifies this
      ensures Valid() && old(history) <= history && now != GoesOn && (done ==> now == Returned)
      ensures View() == Solo(s, e.pid, uow, n) && (now == Stopped <==> e.pid in View().procs)
      ensures done ==> IsSettled(Rows(), plan.op) && plan.related in ops && ops[plan.related].phase == Completed
    {
      hide Reached, Next, Solo, CompleteTx, ReadProof, Claims, ProofRebuilt, ProofRefused;
      done := false;
      now := Stopped;
      var left := fuel;
      if left == 0 {
        Spent(View(), e.pid, uow);
        return;
      }
      ghost var before := View();
      var claimed := ClaimResolution(e, plan);
      left := left - 1;
      Stepped(before, View(), e.pid, uow, left);
      if !claimed {
        Gone(View(), e.pid, uow, left);
        return Returned, false;
      }
      if left == 0 {
        Spent(View(), e.pid, uow);
        return;
      }
      before := View();
      var proof := FreezeProof(e, plan);
      left := left - 1;
      Stepped(before, View(), e.pid, uow, left);
      if proof.Err? {
        Gone(View(), e.pid, uow, left);
        return Returned, false;
      }
      var bound := e.(proof := Some(proof.value));
      now, left := ExecuteChildren(bound, uow, left, s, n);
      if now == GoesOn {
        now, done := FinishResolution(bound, plan, uow, left, s, n);
      }
    }

    /** Transfer, then complete. */
    method FinishResolution(e: Errand, plan: ResolutionPlan, uow: Uow, fuel: nat, ghost s: State, ghost n: nat)
      returns (now: Progress, done: bool)
      requires Valid() && e.job == ResolveJob(plan) && Stands(e, AtPhase) && OnTrack(e.pid, uow, s, n, fuel)
      modifies this
      ensures Valid() && old(history) <= history && now != GoesOn && (done ==> now == Returned)
      ensures View() == Solo(s, e.pid, uow, n) && (now == Stopped <==> e.pid in View().procs)
      ensures done ==> IsSettled(Rows(), plan.op) && plan.related in ops && ops[plan.related].phase == Completed
    {
      hide Reached, Next, Solo, CompleteTx, Transfers, Completes;
      done := false;
      now := Stopped;
      var left := fuel;
      if left == 0 {
        Spent(View(), e.pid, uow);
        return;
      }
      ghost var before := View();
      var transferred := TransferResolution(e, plan);
      left := left - 1;
      Stepped(before, View(), e.pid, uow, left);
      if !transferred {
        Gone(View(), e.pid, uow, left);
        return Returned, false;
      }
      if left == 0 {
        Spent(View(), e.pid, uow);
        return;
      }
      before := View();
      CompletedRows(Rows(), plan);
      done := CompleteResolution(e, plan);
      left := left - 1;
      Stepped(before, View(), e.pid, uow, left);
      Gone(View(), e.pid, uow, left);
      now := Returned;
    }

    /** `resolve_activation_conflict`: exactly `fuel` protocol steps of this
        command, from whatever state the databases were left in. */
    method ResolveActivationConflict(pid: nat, command: Command, clock: Text, uow: Uow, fuel: nat)
      returns (verdict: Verdict)
      requires Valid() && pid !in View().procs
      modifies this
      ensures Valid() && old(history) <= history && pid !in View().procs
      ensures View() == Issue(old(View()), BeginResolve(pid, command, clock), pid, uow, fuel)
      ensures verdict.NotStarted? || verdict.AlreadyDone? ==> Rows() == old(Rows())
      ensures verdict == AlreadyDone <==> ReadReplayed(old(Rows()), command)
      ensures forall fault :: verdict == NotStarted(fault) <==> ReadRefused(old(Rows()), command, fault)
      ensures verdict.Finished? ==> IsSettled(Rows(), command.id)
    {
      hide Reached, Next, Solo, ReadResolution, CompleteTx, ReadReplayed, ReadRefused, ReadPlanned;
      PlanNamesCommand(Rows(), command, clock);
      var read := ReadConflict(pid, command, clock);
      ghost var s := View();
      if !read.Planned? {
        Gone(s, pid, uow, fuel);
        CrashOfNobody(s, pid);
        return if read.Refused? then NotStarted(read.fault) else AlreadyDone;
      }
      var e := Errand(pid, ResolveJob(read.plan), read.plan.kids, None);
      var now, done := RunResolution(e, read.plan, uow, fuel, s, fuel);
      if now == Stopped {
        Die(pid);
        return Interrupted;
      }
      CrashOfNobody(View(), pid);
      return if done then Finished else Interrupted;
    }

    /** The first Meta transaction of `activate_provisional`. */
    method BeginActivation(pid: nat, command: Command) returns (began: Result<Errand, Fault>)
      requires Valid() && pid !in View().procs
      modifies this`locator, this`ops, this`history
      ensures Valid() && history == old(history) + [BeginActivate(pid, command)]
      ensures View() == Next(old(View()), BeginActivate(pid, command))
      ensures began.Ok? <==> ActivateTx(old(Rows()), command).Ok?
      ensures Rows() == if began.Ok? then ActivateTx(old(Rows()), command).value else old(Rows())
      ensures match began
              case Ok(e) => e.pid == pid && e.job == ActivateJob(command.id) && |e.kids| == 2 && Stands(e, AtLease(0))
              case Err(_) => pid !in View().procs
      ensures match began
              case Ok(e) => ActivateAccepted(old(Rows()), command, Rows()) && AreConflictKids(command, e.kids)
              case Err(_) => Rows() == old(Rows())
      ensures forall fault :: began == Err(fault) <==> ActivateRefused(old(Rows()), command, fault)
    {
      hide Run, Next, ActivateTx, ConflictPair, ConflictChildren, MetaOnly, RowsKept, ActivateAccepted,
           ActivateRefused, AreConflictKids;
      ActivateOutcome(Rows(), command);
      ConflictKidsAre(command);
      Logged(history, BeginActivate(pid, command));
      ActivationBegins(View(), pid, command);
      var rows := ActivateTx(Rows(), command);
      history := history + [BeginActivate(pid, command)];
      if rows.Err? { return Err(rows.error); }
      locator, ops := rows.value.locator, rows.value.ops;
      began := Ok(Errand(pid, ActivateJob(command.id), ConflictChildren(command, ConflictPair(command.payload).value),
                         None));
    }

    /** `activate_provisional`. */
    method ActivateProvisional(pid: nat, command: Command, uow: Uow, fuel: nat) returns (verdict: Verdict)
      requires Valid() && pid !in View().procs
      modifies this
      ensures Valid() && old(history) <= history && pid !in View().procs
      ensures View() == Issue(old(View()), BeginActivate(pid, command), pid, uow, fuel)
      ensures verdict.NotStarted? ==> Rows() == old(Rows())
      ensures forall fault :: verdict == NotStarted(fault) <==> ActivateRefused(old(Rows()), command, fault)
      ensures verdict.Finished? ==> command.id in ops && ops[command.id].phase == AwaitingResolution
    {
      hide Reached, Next, Solo, ActivateTx, ConflictPair, ConflictChildren, ActivateRefused, ActivateAccepted;
      var began := BeginActivation(pid, command);
      ghost var s := View();
      if began.Err? {
        Gone(s, pid, uow, fuel);
        CrashOfNobody(s, pid);
        return NotStarted(began.error);
      }
      var now, left := ExecuteChildren(began.value, uow, fuel, s, fuel);
      var done := false;
      if now == GoesOn {
        now, done := FinishActivation(began.value, command.id, uow, left, s, fuel);
      }
      if now == Stopped {
        Die(pid);
        return Interrupted;
      }
      CrashOfNobody(View(), pid);
      return if done then Finished else Interrupted;
    }

    method FinishActivation(e: Errand, op: Text, uow: Uow, fuel: nat, ghost s: State, ghost n: nat)
      returns (now: Progress, done: bool)
      requires Valid() && e.job == ActivateJob(op) && Stands(e, AtPhase) && OnTrack(e.pid, uow, s, n, fuel)
      modifies this
      ensures Valid() && old(history) <= history && now != GoesOn && (done ==> now == Returned)
      ensures View() == Solo(s, e.pid, uow, n) && (now == Stopped <==> e.pid in View().procs)
      ensures done ==> op in ops && ops[op].phase == AwaitingResolution
    {
      hide Reached, Next, Solo;
      if fuel == 0 {
        Spent(View(), e.pid, uow);
        return Stopped, false;
      }
      ghost var before := View();
      done := AwaitResolution(e, op);
      Stepped(before, View(), e.pid, uow, fuel - 1);
      Gone(View(), e.pid, uow, fuel - 1);
      now := Returned;
    }

    /** `heartbeat`, `takeover` and the other touches, their Meta transaction. */
    method TouchLocator(command: Command, kind: Kind) returns (fault: Option<Fault>)
      requires Valid() && IsTouch(kind)
      modifies this`locator, this`ops, this`history
      ensures Valid() && history == old(history) + [Touch(command, kind)]
      ensures fault == (match TouchTx(old(Rows()), command, kind) case Ok(_) => None case Err(f) => Some(f))
      ensures Rows() == (match TouchTx(old(Rows()), command, kind) case Ok(rows) => rows case Err(_) => old(Rows()))
      ensures match fault
              case None => TouchAccepted(old(Rows()), command, kind, Rows())
              case Some(_) => Rows() == old(Rows())
      ensures forall f :: fault == Some(f) <==> TouchRefused(old(Rows()), command, kind, f)
    {
      hide Run, TouchTx, TouchAccepted, TouchRefused;
      TouchOutcome(Rows(), command, kind);
      Logged(history, Touch(command, kind));
      fault := TouchTransaction(command, kind);
      history := history + [Touch(command, kind)];
    }

    method TouchTransaction(command: Command, kind: Kind) returns (fault: Option<Fault>)
      modifies this`locator, this`ops
      ensures fault == (match TouchTx(old(Rows()), command, kind) case Ok(_) => None case Err(f) => Some(f))
      ensures Rows() == (match TouchTx(old(Rows()), command, kind) case Ok(rows) => rows case Err(_) => old(Rows()))
    {
      hide IsOperationId, IsHash, MakeIntent, NewOwner, MetaOnly, RowsKept;
      fault := None;
      if !IsOperationId(command.id) || !IsHash(command.hash) {
        fault := Some(InvalidRequest);
      } else if locator.None? {
        fault := Some(Fault.NoLocator);
      } else {
        var installed := locator.value;
        var owner: Option<(Text, Text)> := None;
        if kind == Takeover && command.id !in ops {
          owner := NewOwner(command.payload);
          if owner.None? { fault := Some(InvalidRequest); }
        }
        if fault.None? {
          var replayedTakeover := kind == Takeover && command.id in ops;
          if command.epoch.Some? && !replayedTakeover && command.epoch.value != installed.epoch {
            fault := Some(StaleEpoch);
          } else if command.id in ops && (ops[command.id].kind != kind || ops[command.id].hash != command.hash) {
            fault := Some(IdempotencyConflict);
          } else {
            installed := installed.(operation := command.id);
            if owner.Some? {
              installed := installed.(device := owner.value.0, tab := owner.value.1, epoch := installed.epoch + 1);
            }
            locator := Some(installed);
            if command.id !in ops {
              ops := ops[command.id := Operation(kind, command.hash, MakeIntent(kind, command), Completed, None, None)];
            }
          }
        }
      }
    }

    /** The protocol's step is the one whose tables and receipt these are. */
    static lemma Executed(s: State, after: Store, e: Errand, i: nat, reply: Reply, state: Option<ReceiptState>)
      requires i < |e.kids| && e.pid in s.procs && s.procs[e.pid] == Proc(e.job, e.kids, e.proof, AtExecute(i))
      requires Reports(reply, e.kids[i], Permits(s.store, e.proof, e.kids[i]), state)
      requires Leaves(s.store, after, reply, e.kids[i], state)
      ensures var t := Next(s, Advance(e.pid, reply));
              && t.store == after && t.leases == s.leases
              && match state
                 case None => t == s
                 case Some(known) =>
                   e.pid in t.procs && t.procs[e.pid] == Proc(e.job, e.kids, e.proof, AtReceipt(i, known))
    {
      hide Next, GateOpen, Admits, ChildEffect, ChildOutcomes.Concluded, QueryOriginal, MetaKept, JobsKept;
      Executing(s, e, i, reply);
      var child := e.kids[i];
      var row := Key(child.place.space, child.place.session);
      if e.proof.Some? && child.role in {Winner, Loser} { GateOpens(s.store, e.proof.value, child); }
      if row in s.store.sessions { EffectIs(child.role, s.store.sessions[row]); }
    }

    static lemma Executing(s: State, e: Errand, i: nat, reply: Reply)
      requires i < |e.kids| && e.pid in s.procs && s.procs[e.pid] == Proc(e.job, e.kids, e.proof, AtExecute(i))
      ensures Next(s, Advance(e.pid, reply)) == CoordinatorProtocol.ExecuteChild(s, e.pid, i, reply)
    {
      hide CoordinatorProtocol.ExecuteChild, MetaKept, JobsKept;
    }

    /** What the decision step does to the protocol state. */
    static lemma Deciding(s: State, e: Errand, i: nat, reply: Reply)
      requires i < |e.kids| && e.pid in s.procs && s.procs[e.pid] == Proc(e.job, e.kids, e.proof, AtDecide(i))
      ensures var t := Next(s, Advance(e.pid, reply));
              var decision := Decide(s.store, e.kids[i]);
              && t.store == s.store
              && t.leases == (if decision.Execute? || decision.RestoreSucceededReceipt? then s.leases
                              else map space | space in s.leases && s.leases[space] != e.pid :: s.leases[space])
              && (match Decided(decision, |e.kids|, i)
                  case Some(pc) => e.pid in t.procs && t.procs[e.pid] == Proc(e.job, e.kids, e.proof, pc)
                  case None => e.pid !in t.procs)
    {
      hide Decide, JobsKept, MetaKept;
    }

    static lemma CompletedRows(store: Store, plan: ResolutionPlan)
      ensures var r := CompleteTx(store, plan);
              r.Ok? ==>
                IsSettled(r.value, plan.op) && plan.related in r.value.ops
                && r.value.ops[plan.related].phase == Completed
    {
      hide MetaOnly;
    }

    static lemma CrashOfNobody(s: State, pid: nat)
      requires pid !in s.procs
      ensures Next(s, Crash(pid)) == s
    {
    }

    static lemma PlanNamesCommand(store: Store, command: Command, clock: Text)
      ensures var read := ReadResolution(store, command, clock);
              read.Planned? ==> read.plan.op == command.id && |read.plan.kids| == 2
    {
      hide IsOperationId, ConflictPair, WinnerSide, Truthy, PyStr, DecisionAt, ContractHash, Declarations;
    }

    static lemma ActivationBegins(s: State, pid: nat, command: Command)
      requires pid !in s.procs
      ensures var t := Next(s, BeginActivate(pid, command));
              match ActivateTx(s.store, command)
              case Err(_) => t == s
              case Ok(store) =>
                && ConflictPair(command.payload).Some? && t.store == store && t.leases == s.leases && pid in t.procs
                && t.procs[pid] ==
                     Proc(ActivateJob(command.id), ConflictChildren(command, ConflictPair(command.payload).value),
                          None, AtLease(0))
                && store == s.store.(locator := store.locator, ops := store.ops)
    {
      hide NewConflict, IsOperationId, ConflictChildren;
    }
  }
}
