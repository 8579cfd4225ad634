/** What a reconciled command answers and leaves, column by column and without
    the functions that compute it. */
module ReconcilerOutcomes {
  import opened Symbols
  import opened CoordinationRows
  import opened ReconcilerProtocol

  /** Succeeded for an accepted outcome, a conflict for three rejections, failed for any other. */
  predicate ReportsOutcome(outcome: TaskOutcome, state: ReceiptState) {
    match outcome
    case Accepted(_) => state == Succeeded
    case RejectedAs(code) =>
      if code in {"version_conflict", "work_item_structure_changed", "invalid_work_item_tree"}
      then state == Conflicted else state == Failed
  }

  predicate IsFinal(receipt: Option<Receipt>) {
    receipt != None && receipt.value.state in {Succeeded, Failed, Conflicted, Abandoned}
  }

  /** Only a pending or unknown receipt carries a claim, and a readable one. */
  predicate IsLegible(receipt: Option<Receipt>) {
    receipt != None ==>
      receipt.value.column == NoClaim || (receipt.value.column.Holds? && receipt.value.state in {Pending, Unknown})
  }

  function Claimed(receipt: Option<Receipt>): Option<Claim> {
    if receipt != None && receipt.value.column.Holds? then Some(receipt.value.column.claim) else None
  }

  /** The receipt as it is shown; a missing or illegible one cannot be. */
  predicate Shows(receipt: Option<Receipt>, answer: Result<Receipt, Trouble>) {
    if receipt != None && IsLegible(receipt) then answer == Ok(receipt.value) else answer == Err(NeedsRecovery)
  }

  /** The receipt policy: the command is known, an existing receipt is open and
      carries the expected claim, and the new one carries a claim if and only if
      it may. */
  predicate MayWrite(s: Space, c: Text, state: ReceiptState, column: ClaimColumn, reservedKey: bool,
                     expected: Option<Claim>) {
    && c in s.envelopes
    && (c in s.receipts ==>
          && IsLegible(Some(s.receipts[c])) && Claimed(Some(s.receipts[c])) == expected
          && (s.receipts[c].state == Pending || s.receipts[c].state == Unknown))
    && (state in {Pending, Unknown} ==> column != Garbled)
    && (state == Unknown ==> column.Holds?)
    && (state !in {Pending, Unknown} ==> !column.Holds? && !reservedKey)
  }

  lemma WriteAllowedIff(s: Space, c: Text, state: ReceiptState, column: ClaimColumn, reservedKey: bool,
                        expected: Option<Claim>)
    ensures WriteAllowed(s, c, state, column, reservedKey, expected) <==>
              MayWrite(s, c, state, column, reservedKey, expected)
  {
  }

  /** A final receipt and a journaled write are shown as they are; a write that
      the policy refuses is journaled and changes no receipt. */
  predicate Wrote(before: Space, after: Space, answer: Result<Receipt, Trouble>, c: Text, state: ReceiptState,
                  column: ClaimColumn, reservedKey: bool, expected: Option<Claim>) {
    var current := if c in before.receipts then Some(before.receipts[c]) else None;
    var op := if expected == None then Own(c, state) else Under(expected.value.root, c, state);
    if IsFinal(current) || op in before.written then after == before && Shows(current, answer) else
    && after == before.(written := before.written + {op}, receipts := after.receipts)
    && if MayWrite(before, c, state, column, reservedKey, expected)
       then answer == Ok(Receipt(state, column)) && after.receipts == before.receipts[c := Receipt(state, column)]
       else answer == Err(IdempotencyClash) && after.receipts == before.receipts
  }

  lemma WriteOutcome(s: Space, c: Text, state: ReceiptState, column: ClaimColumn, reservedKey: bool,
                     expected: Option<Claim>)
    ensures var (after, answer) := Write(s, c, state, column, reservedKey, expected);
            Wrote(s, after, answer, c, state, column, reservedKey, expected)
  {
    WriteAllowedIff(s, c, state, column, reservedKey, expected);
    hide WriteAllowed, MayWrite;
  }

  /** A known outcome is written as what it stands for, without a claim; an
      unknown one finishes the claim it was executed under. */
  ghost predicate Recorded(before: Space, after: Space, answer: Result<Receipt, Trouble>, c: Text,
                           outcome: Option<TaskOutcome>, expected: Option<Claim>) {
    match outcome
    case Some(known) =>
      exists state :: ReportsOutcome(known, state)
                      && Wrote(before, after, answer, c, state, NoClaim, known == Accepted(true), expected)
    case None =>
      Wrote(before, after, answer, c, Unknown,
            if expected == None then NoClaim else Holds(FinishedUnknown(expected.value.root)), false, expected)
  }

  lemma RecordOutcome(s: Space, c: Text, outcome: Option<TaskOutcome>, expected: Option<Claim>)
    ensures var (after, answer) := Record(s, c, outcome, expected); Recorded(s, after, answer, c, outcome, expected)
  {
    hide Write, Wrote;
    match outcome
    case None =>
      WriteOutcome(s, c, Unknown, if expected.Some? then Holds(FinishedUnknown(expected.value.root)) else NoClaim,
                   false, expected);
    case Some(known) =>
      assert ReportsOutcome(known, StateOf(known));
      WriteOutcome(s, c, StateOf(known), NoClaim, known.Accepted? && known.reservedKey, expected);
  }

  // ------------------------------------------------------------ one command

  /** The journal has no outcome yet, and the command may be executed for `root`. */
  predicate Executes(s: Space, root: Text, replaySafe: bool, c: Text, verdict: Verdict) {
    && c in s.envelopes && s.envelopes[c].transitionKnown && s.envelopes[c].replaySafe && replaySafe
    && verdict == ReplayClaimed(root) && c in s.receipts
    && s.receipts[c].state in {Pending, Unknown} && s.receipts[c].column == Holds(ClaimedBy(root))
    && (c !in s.tasks || s.tasks[c] == Unfinished)
  }

  /** The journal after the execution, which never changes a finished row. */
  predicate Journaled(before: map<Text, TaskRow>, after: map<Text, TaskRow>, c: Text, reply: TaskReply) {
    match reply
    case Replies(outcome) => after == before[c := Concluded(outcome)]
    case TimesOut(row) => after == if row == None then before else before[c := row.value]
    case Dies(row) => after == if row == None then before else before[c := row.value]
  }

  /** What is recorded once the execution has ended. */
  ghost predicate Ended(executed: Space, root: Text, c: Text, reply: TaskReply, step: Step) {
    if reply.Dies? then step.space == executed && step.answer == Err(NeedsRecovery)
    else Recorded(executed, step.space, step.answer, c, if reply.Replies? then Some(reply.outcome) else None,
                  Some(ClaimedBy(root)))
  }

  /** A command that is executed: logged with its guard, journaled, recorded. */
  ghost predicate Ran(before: Space, root: Text, replaySafe: bool, c: Text, reply: TaskReply, step: Step)
    requires c in before.envelopes
  {
    exists executed: Space ::
      Called(before, executed, root, replaySafe, c, reply) && Ended(executed, root, c, reply, step)
  }

  predicate Called(before: Space, executed: Space, root: Text, replaySafe: bool, c: Text, reply: TaskReply)
    requires c in before.envelopes
  {
    && executed == before.(tasks := executed.tasks, log := executed.log)
    && Journaled(before.tasks, executed.tasks, c, reply)
    && executed.log == before.log + [
         TaskCall(root, c, if c in before.receipts then Some(before.receipts[c]) else None,
                  if c in before.tasks then Some(before.tasks[c]) else None,
                  before.envelopes[c].replaySafe, replaySafe)]
  }

  /** The receipt and task row of a command that is not executed decide its answer. */
  ghost predicate Answered(before: Space, root: Text, c: Text, verdict: Verdict, step: Step) {
    var current := if c in before.receipts then Some(before.receipts[c]) else None;
    var row := if c in before.tasks then before.tasks[c] else Unfinished;
    var known := c in before.envelopes && before.envelopes[c].transitionKnown;
    if !known || row == Lost then Refused(before, step, NeedsRecovery)
    else if row == Foreign then Refused(before, step, IdempotencyClash)
    else if row.Concluded? then
      if !IsLegible(current) || (current != None && current.value.state == Abandoned)
      then Refused(before, step, NeedsRecovery)
      else Recorded(before, step.space, step.answer, c, Some(row.outcome), Claimed(current))
    else if IsFinal(current) then step.space == before && Shows(current, step.answer)
    else match verdict
    case AbandonedBy(_, _) => Refused(before, step, NeedsRecovery)
    case Observe(_) =>
      if current == None then Wrote(before, step.space, step.answer, c, Pending, NoClaim, false, None)
      else step.space == before && Shows(current, step.answer)
    case ReplayClaimed(claimant) =>
      if claimant == root && Claimed(current) == Some(ClaimedBy(root)) then Refused(before, step, NeedsRecovery)
      else step.space == before && Shows(current, step.answer)
  }

  predicate Refused(before: Space, step: Step, trouble: Trouble) {
    step.space == before && step.answer == Err(trouble)
  }

  /** `_reconcile_one`, whatever the rows are. */
  ghost predicate Reconciled(before: Space, root: Text, replaySafe: bool, c: Text, verdict: Verdict, reply: TaskReply,
                             step: Step) {
    && (step.executed <==> Executes(before, root, replaySafe, c, verdict))
    && if step.executed then Ran(before, root, replaySafe, c, reply, step)
       else Answered(before, root, c, verdict, step)
  }

  lemma RunOutcome(s: Space, root: Text, replaySafe: bool, c: Text, verdict: Verdict, reply: TaskReply)
    requires Executes(s, root, replaySafe, c, verdict)
    ensures var step := ReconcileOne(s, root, replaySafe, c, verdict, reply);
            step.executed && Ran(s, root, replaySafe, c, reply, step)
  {
    hide Record, Recorded, View;
    assert Settle(s, root, replaySafe, c, verdict).None?;
    hide Settle;
    var call := TaskCall(root, c, Lookup(s.receipts, c), Lookup(s.tasks, c), s.envelopes[c].replaySafe, replaySafe);
    var executed := AfterTask(s, c, reply).(log := s.log + [call]);
    assert Journaled(s.tasks, executed.tasks, c, reply);
    hide Journaled, AfterTask;
    assert Called(s, executed, root, replaySafe, c, reply);
    match reply
    case Dies(_) =>
    case Replies(outcome) => RecordOutcome(executed, c, Some(outcome), Some(ClaimedBy(root)));
    case TimesOut(_) => RecordOutcome(executed, c, None, Some(ClaimedBy(root)));
  }

  lemma SettleOutcome(s: Space, root: Text, replaySafe: bool, c: Text, verdict: Verdict, reply: TaskReply)
    requires !Executes(s, root, replaySafe, c, verdict)
    ensures var step := ReconcileOne(s, root, replaySafe, c, verdict, reply);
            !step.executed && Answered(s, root, c, verdict, step)
  {
    hide Record, Recorded, Write, Wrote;
    if c in s.tasks && s.tasks[c].Concluded? {
      RecordOutcome(s, c, Some(s.tasks[c].outcome), Claimed(Lookup(s.receipts, c)));
    } else {
      WriteOutcome(s, c, Pending, NoClaim, false, None);
    }
  }

  lemma ReconcileOutcome(s: Space, root: Text, replaySafe: bool, c: Text, verdict: Verdict, reply: TaskReply)
    ensures Reconciled(s, root, replaySafe, c, verdict, reply, ReconcileOne(s, root, replaySafe, c, verdict, reply))
  {
    hide ReconcileOne, Executes, Ran, Answered;
    if Executes(s, root, replaySafe, c, verdict) {
      RunOutcome(s, root, replaySafe, c, verdict, reply);
    } else {
      SettleOutcome(s, root, replaySafe, c, verdict, reply);
    }
  }

  /** The outcome a reconciled command learns, if it learns one. */
  function Learns(s: Space, root: Text, replaySafe: bool, c: Text, verdict: Verdict,
                  reply: TaskReply): Option<TaskOutcome> {
    if c in s.tasks && s.tasks[c].Concluded? then Some(s.tasks[c].outcome)
    else if Executes(s, root, replaySafe, c, verdict) && reply.Replies? then Some(reply.outcome)
    else None
  }

  /** A stored or replied outcome that may be written leaves exactly the receipt
      it stands for, and that receipt is the answer. */
  lemma OutcomeIsRecorded(s: Space, root: Text, replaySafe: bool, c: Text, verdict: Verdict, reply: TaskReply,
                          outcome: TaskOutcome, state: ReceiptState)
    requires Learns(s, root, replaySafe, c, verdict, reply) == Some(outcome) && ReportsOutcome(outcome, state)
    requires c in s.envelopes && s.envelopes[c].transitionKnown && outcome != Accepted(true)
    requires c in s.receipts ==> IsLegible(Some(s.receipts[c])) && s.receipts[c].state in {Pending, Unknown}
    requires match Claimed(if c in s.receipts then Some(s.receipts[c]) else None)
             case None => Own(c, state) !in s.written
             case Some(claim) => Under(claim.root, c, state) !in s.written
    ensures var step := ReconcileOne(s, root, replaySafe, c, verdict, reply);
            && step.answer == Ok(Receipt(state, NoClaim))
            && step.space.receipts == s.receipts[c := Receipt(state, NoClaim)]
            && c in step.space.tasks && step.space.tasks[c] == Concluded(outcome)
  {
    hide ReconcileOne;
    ReconcileOutcome(s, root, replaySafe, c, verdict, reply);
  }

  // --------------------------------------------------------------- admission

  /** Why an id is refused: unknown, of another Session, untranslatable or
      under way; or its row or receipt cannot be read. */
  predicate AdmitRefused(s: Space, request: Request, c: Text, trouble: Trouble) {
    var current := if c in s.receipts then Some(s.receipts[c]) else None;
    var ours := c in s.envelopes && s.envelopes[c].session == request.session;
    var known := ours && IsLegible(current) && s.envelopes[c].transitionKnown;
    match trouble
    case IdempotencyClash => ours && (!IsLegible(current) || (known && c in s.tasks && s.tasks[c] == Foreign))
    case NeedsRecovery =>
      || !ours || (IsLegible(current) && !s.envelopes[c].transitionKnown)
      || (known && c in request.abandon && !IsFinal(current)
          && (if c in s.tasks then s.tasks[c] == Unfinished
              else Claimed(current) != None && Claimed(current).value.ClaimedBy?))
  }

  /** The row an admitted id gets, if it gets one, beside its verdict. */
  predicate AdmitWrote(s: Space, root: Text, c: Text, row: Option<Receipt>, verdict: Verdict) {
    var current := if c in s.receipts then Some(s.receipts[c]) else None;
    match verdict
    case Observe(state) => row == None && state == (if current == None then Pending else current.value.state)
    case AbandonedBy(_, _) => row == Some(Receipt(Abandoned, NoClaim))
    case ReplayClaimed(_) =>
      if Claimed(current) == Some(ClaimedBy(root)) then row == None else
      row == Some(Receipt(if current != None && current.value.state == Unknown then Unknown else Pending,
                          Holds(ClaimedBy(root))))
  }

  lemma AdmitOutcome(s: Space, root: Text, request: Request, c: Text)
    ensures forall trouble ::
              AdmitOne(s, root, request, c) == Err(trouble) <==> AdmitRefused(s, request, c, trouble)
    ensures AdmitOne(s, root, request, c).Ok? ==>
              AdmitWrote(s, root, c, AdmitOne(s, root, request, c).value.0, AdmitOne(s, root, request, c).value.1)
  {
  }
}
