/** The reconciler as an object over one Space's rows. */
module CommandReconciler {
  import opened Symbols
  import opened CoordinationRows
  import opened ReconcilerProtocol
  import opened ReconcilerOutcomes

  class SessionCommandReconciler {
    const envelopes: map<Text, CommandEnvelope>
    var receipts: map<Text, Receipt>
    var tasks: map<Text, TaskRow>
    var written: set<ReceiptOp>
    var admissions: map<Text, Admission>
    ghost var log: seq<TaskCall>

    ghost function Rows(): Space
      reads this
    {
      Space(envelopes, receipts, tasks, written, admissions, log)
    }

    constructor (envelopes: map<Text, CommandEnvelope>, receipts: map<Text, Receipt>, tasks: map<Text, TaskRow>)
      ensures Rows() == Space(envelopes, receipts, tasks, {}, map[], [])
    {
      this.envelopes, this.receipts, this.tasks := envelopes, receipts, tasks;
      written, admissions, log := {}, map[], [];
    }

    method CurrentReceipt(c: Text) returns (current: Option<Receipt>)
      ensures current == Lookup(receipts, c)
    {
      current := if c in receipts then Some(receipts[c]) else None;
    }

    /** `_write`: a terminal receipt is returned, a journaled write is not
        repeated, and everything else goes through the receipt policy. */
    method Write(c: Text, state: ReceiptState, column: ClaimColumn, reservedKey: bool, expected: Option<Claim>)
      returns (answer: Result<Receipt, Trouble>)
      modifies this`receipts, this`written
      ensures (Rows(), answer) == ReconcilerProtocol.Write(old(Rows()), c, state, column, reservedKey, expected)
      ensures Wrote(old(Rows()), Rows(), answer, c, state, column, reservedKey, expected)
    {
      hide View, WriteAllowed, Wrote;
      WriteOutcome(Rows(), c, state, column, reservedKey, expected);
      var current := CurrentReceipt(c);
      if current.Some? && Terminal(current.value.state) {
        return View(current);
      }
      var op := OpOf(c, state, expected);
      if op in written {
        return View(current);
      }
      var allowed := Admissible(c, state, column, reservedKey, expected);
      written := written + {op};
      if !allowed {
        return Err(IdempotencyClash);
      }
      receipts := receipts[c := Receipt(state, column)];
      answer := Ok(Receipt(state, column));
    }

    /** The receipt policy's checks, one after the other. */
    method Admissible(c: Text, state: ReceiptState, column: ClaimColumn, reservedKey: bool, expected: Option<Claim>)
      returns (allowed: bool)
      ensures allowed <==> WriteAllowed(Rows(), c, state, column, reservedKey, expected)
      ensures allowed <==> MayWrite(Rows(), c, state, column, reservedKey, expected)
    {
      hide Decode, MayWrite;
      WriteAllowedIff(Rows(), c, state, column, reservedKey, expected);
      if c !in envelopes { return false; }
      if c in receipts {
        var row := receipts[c];
        var claim := Decode(row);
        if claim.Err? || Terminal(row.state) || row.state == NotNeeded || claim.value != expected { return false; }
      }
      if Nonterminal(state) {
        return column != Garbled && (state != Unknown || column.Holds?);
      }
      allowed := !column.Holds? && !reservedKey;
    }

    /** `record`: the receipt state an outcome stands for. */
    method Record(c: Text, outcome: Option<TaskOutcome>, expected: Option<Claim>)
      returns (answer: Result<Receipt, Trouble>)
      modifies this`receipts, this`written
      ensures (Rows(), answer) == ReconcilerProtocol.Record(old(Rows()), c, outcome, expected)
      ensures Recorded(old(Rows()), Rows(), answer, c, outcome, expected)
    {
      hide ReconcilerProtocol.Write, Recorded, Wrote;
      RecordOutcome(Rows(), c, outcome, expected);
      match outcome {
        case None =>
          var column := if expected.Some? then Holds(FinishedUnknown(expected.value.root)) else NoClaim;
          answer := Write(c, Unknown, column, false, expected);
        case Some(Accepted(reservedKey)) => answer := Write(c, Succeeded, NoClaim, reservedKey, expected);
        case Some(RejectedAs(code)) =>
          var conflict := code == "version_conflict" || code == "work_item_structure_changed"
              || code == "invalid_work_item_tree";
          answer := Write(c, if conflict then Conflicted else Failed, NoClaim, false, expected);
      }
    }

    /** `task_space.execute`: the task journal keeps what is already final. */
    method ExecuteTask(root: Text, replaySafe: bool, c: Text, reply: TaskReply)
      requires c in envelopes
      modifies this`tasks, this`log
      ensures var call := TaskCall(root, c, Lookup(receipts, c), Lookup(old(tasks), c), envelopes[c].replaySafe,
                                   replaySafe);
              Rows() == AfterTask(old(Rows()), c, reply).(log := old(log) + [call])
    {
      log := log + [TaskCall(root, c, Lookup(receipts, c), Lookup(tasks, c), envelopes[c].replaySafe, replaySafe)];
      if c !in tasks || tasks[c] == Unfinished {
        match reply {
          case Replies(outcome) => tasks := tasks[c := Concluded(outcome)];
          case TimesOut(Some(row)) => tasks := tasks[c := row];
          case Dies(Some(row)) => tasks := tasks[c := row];
          case _ =>
        }
      }
    }

    /** `_reconcile_one` up to the execution: an answer, or none if the task
        command has to be executed. */
    method AnswerWithoutExecuting(root: Text, replaySafe: bool, c: Text, verdict: Verdict)
      returns (answer: Option<Result<Receipt, Trouble>>)
      modifies this`receipts, this`written
      ensures match Settle(old(Rows()), root, replaySafe, c, verdict)
              case None => answer.None? && Rows() == old(Rows())
              case Some(step) => answer == Some(step.answer) && Rows() == step.space
    {
      hide ReconcilerProtocol.Record, ReconcilerProtocol.Write, View, CurrentClaim, Recorded, Wrote;
      if c !in envelopes || !envelopes[c].transitionKnown { return Some(Err(NeedsRecovery)); }
      var local := CurrentReceipt(c);
      if c in tasks && tasks[c] != Unfinished {
        match tasks[c] {
          case Foreign => return Some(Err(IdempotencyClash));
          case Lost => return Some(Err(NeedsRecovery));
          case Concluded(outcome) =>
            if local.Some? && local.value.state == Abandoned { return Some(Err(NeedsRecovery)); }
            var claim := CurrentClaim(local);
            if claim.Err? { return Some(Err(claim.error)); }
            var recorded := Record(c, Some(outcome), claim.value);
            return Some(recorded);
        }
      }
      if local.Some? && Terminal(local.value.state) { return Some(View(local)); }
      match verdict {
        case AbandonedBy(_, _) => return Some(Err(NeedsRecovery));
        case Observe(_) =>
          if local.None? {
            var pending := Write(c, Pending, NoClaim, false, None);
            return Some(pending);
          }
          return Some(View(local));
        case ReplayClaimed(claimant) =>
          var claim := CurrentClaim(local);
          if claim.Err? { return Some(Err(claim.error)); }
          if claim.value != Some(ClaimedBy(claimant)) || claimant != root { return Some(View(local)); }
          if !replaySafe || !envelopes[c].replaySafe { return Some(Err(NeedsRecovery)); }
      }
      answer := None;
    }

    /** `_reconcile_one`. */
    method ReconcileOne(root: Text, replaySafe: bool, c: Text, verdict: Verdict, reply: TaskReply)
      returns (answer: Result<Receipt, Trouble>, executed: bool)
      modifies this`receipts, this`written, this`tasks, this`log
      ensures Step(Rows(), answer, executed) ==
                ReconcilerProtocol.ReconcileOne(old(Rows()), root, replaySafe, c, verdict, reply)
      ensures Reconciled(old(Rows()), root, replaySafe, c, verdict, reply, Step(Rows(), answer, executed))
    {
      hide ReconcilerProtocol.Record, AfterTask, Settle, Reconciled, Recorded;
      ReconcileOutcome(Rows(), root, replaySafe, c, verdict, reply);
      assert forall step :: Settle(Rows(), root, replaySafe, c, verdict) == Some(step) ==> !step.executed by {
        NotExecuted(Rows(), root, replaySafe, c, verdict);
      }
      var settled := AnswerWithoutExecuting(root, replaySafe, c, verdict);
      if settled.Some? { return settled.value, false; }
      executed := true;
      ExecuteTask(root, replaySafe, c, reply);
      match reply {
        case Dies(_) => answer := Err(NeedsRecovery);
        case Replies(outcome) => answer := Record(c, Some(outcome), Some(ClaimedBy(root)));
        case TimesOut(_) => answer := Record(c, None, Some(ClaimedBy(root)));
      }
    }

    static lemma NotExecuted(s: Space, root: Text, replaySafe: bool, c: Text, verdict: Verdict)
      ensures forall step :: Settle(s, root, replaySafe, c, verdict) == Some(step) ==> !step.executed
    {
      hide ReconcilerProtocol.Record, ReconcilerProtocol.Write, View, CurrentClaim;
    }

    /** `_compile_reconcile_admission` under the root command's journal entry. */
    method Admit(root: Text, request: Request) returns (verdicts: Result<map<Text, Verdict>, Trouble>)
      modifies this`receipts, this`admissions
      ensures (Rows(), verdicts) == ReconcilerProtocol.Admit(old(Rows()), root, request)
      ensures root in old(admissions) ==>
                Rows() == old(Rows())
                && verdicts == if old(admissions)[root].request == request then old(admissions)[root].verdicts
                               else Err(IdempotencyClash)
    {
      hide AdmitOne;
      if root in admissions {
        return if admissions[root].request == request then admissions[root].verdicts else Err(IdempotencyClash);
      }
      ghost var before := Rows();
      var plans: map<Text, (Option<Receipt>, Verdict)> := map[];
      for i := 0 to |request.ids|
        invariant Rows() == before
        invariant AdmitAll(before, root, request, request.ids[..i]) == Ok(plans)
      {
        var c := request.ids[i];
        assert request.ids[..i + 1][..i] == request.ids[..i];
        var row := AdmitOne(Space(envelopes, receipts, tasks, written, admissions, []), root, request, c);
        LogPlaysNoPart(before, root, request, c);
        if row.Err? {
          RefusedAt(before, root, request, request.ids, i);
          admissions := admissions[root := Admission(request, Err(row.error))];
          return Err(row.error);
        }
        plans := plans[c := row.value];
      }
      assert request.ids[..|request.ids|] == request.ids;
      admissions := admissions[root := Admission(request, Ok(Verdicts(plans)))];
      receipts := receipts + NewRows(plans);
      verdicts := Ok(Verdicts(plans));
    }

    /** `reconcile_commands`: admit, then reconcile one envelope after the other. */
    method ReconcileCommands(root: Text, request: Request, world: World) returns (answer: Result<Receipt, Trouble>)
      modifies this`receipts, this`written, this`tasks, this`log, this`admissions
      ensures Rows() == WholeCall(old(Rows()), root, request, world)
      ensures var (admitted, verdicts) := ReconcilerProtocol.Admit(old(Rows()), root, request);
              match verdicts
              case Err(trouble) => answer == Err(trouble)
              case Ok(given) =>
                (forall i :: 0 <= i < |request.ids| ==> request.ids[i] in given) ==>
                  answer == ReconcileEach(admitted, root, request, given, request.ids, world).answer
    {
      hide ReconcilerProtocol.Admit, ReconcilerProtocol.ReconcileEach;
      var verdicts := Admit(root, request);
      if verdicts.Err? { return Err(verdicts.error); }
      if exists i :: 0 <= i < |request.ids| && request.ids[i] !in verdicts.value { return Err(NeedsRecovery); }
      answer := ReconcileSelected(root, request, verdicts.value, world);
    }

    /** The loop over the admitted envelopes; the first failure ends it. */
    method ReconcileSelected(root: Text, request: Request, verdicts: map<Text, Verdict>, world: World)
      returns (answer: Result<Receipt, Trouble>)
      requires forall i :: 0 <= i < |request.ids| ==> request.ids[i] in verdicts
      modifies this`receipts, this`written, this`tasks, this`log
      ensures var step := ReconcileEach(old(Rows()), root, request, verdicts, request.ids, world);
              Rows() == step.space && answer == step.answer
    {
      hide ReconcilerProtocol.ReconcileOne, Reconciled;
      ghost var admitted := Rows();
      var ids := request.ids;
      answer := Err(NeedsRecovery);
      for i := 0 to |ids|
        invariant i > 0 ==> answer.Ok?
        invariant ReconcileEach(admitted, root, request, verdicts, ids[..i], world).space == Rows()
        invariant ReconcileEach(admitted, root, request, verdicts, ids[..i], world).answer == answer
      {
        assert ids[..i + 1][..i] == ids[..i];
        var executed;
        answer, executed := ReconcileOne(root, request.replaySafe, ids[i], verdicts[ids[i]], world(ids[i]));
        if answer.Err? {
          StopsAt(admitted, root, request, verdicts, ids, world, i);
          return;
        }
      }
      assert ids[..|ids|] == ids;
    }

    static lemma LogPlaysNoPart(s: Space, root: Text, request: Request, c: Text)
      ensures AdmitOne(s.(log := []), root, request, c) == AdmitOne(s, root, request, c)
    {
    }

    /** The first refused id refuses the whole admission. */
    static lemma {:induction false} RefusedAt(s: Space, root: Text, request: Request, ids: seq<Text>, i: nat)
      requires i < |ids| && AdmitAll(s, root, request, ids[..i]).Ok? && AdmitOne(s, root, request, ids[i]).Err?
      ensures AdmitAll(s, root, request, ids) == Err(AdmitOne(s, root, request, ids[i]).error)
    {
      hide AdmitOne;
      var n := |ids| - 1;
      if i < n {
        assert ids[..n][..i] == ids[..i];
        RefusedAt(s, root, request, ids[..n], i);
      }
    }

    /** A failing envelope ends the loop: the ids after it change nothing. */
    static lemma {:induction false} StopsAt(s: Space, root: Text, request: Request, verdicts: map<Text, Verdict>,
                                            ids: seq<Text>, world: World, i: nat)
      requires i < |ids| && forall j :: 0 <= j < |ids| ==> ids[j] in verdicts
      requires ReconcileEach(s, root, request, verdicts, ids[..i + 1], world).answer.Err?
      ensures ReconcileEach(s, root, request, verdicts, ids, world) ==
                ReconcileEach(s, root, request, verdicts, ids[..i + 1], world)
    {
      hide ReconcilerProtocol.ReconcileOne;
      var n := |ids| - 1;
      if i < n {
        assert ids[..n][..i + 1] == ids[..i + 1];
        StopsAt(s, root, request, verdicts, ids[..n], world, i);
      } else {
        assert ids[..i + 1] == ids;
      }
    }
  }
}
