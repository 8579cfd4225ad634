/** Reconciliation of stored Task Space commands: what one call of the
    receipt writer, of `_reconcile_one` and of the admission policy does to the
    durable rows of a Space. */
module ReconcilerProtocol {
  import opened Symbols
  import opened CoordinationRows

  /** The reconciliation claim a nonterminal receipt carries. */
  datatype Claim = ClaimedBy(root: Text) | FinishedUnknown(root: Text)

  /** A receipt's `result_json`, as far as coordination goes. */
  datatype ClaimColumn = NoClaim | Holds(claim: Claim) | Garbled

  datatype Receipt = Receipt(state: ReceiptState, column: ClaimColumn)

  datatype TaskOutcome = Accepted(reservedKey: bool) | RejectedAs(code: string)

  /** The journal row of the stored task command. */
  datatype TaskRow =
    | Unfinished
    | Concluded(outcome: TaskOutcome)
    | Foreign          // undecodable, or another request under this id
    | Lost             // a terminal batch that names no outcome for it

  /** The deterministic id of one receipt mutation. */
  datatype ReceiptOp = Own(command: Text, state: ReceiptState) | Under(root: Text, command: Text, state: ReceiptState)

  datatype CommandEnvelope = CommandEnvelope(session: Text, replaySafe: bool, transitionKnown: bool)

  datatype Verdict = ReplayClaimed(root: Text) | AbandonedBy(root: Text, at: Text) | Observe(state: ReceiptState)

  datatype Trouble = NeedsRecovery | IdempotencyClash

  /** One `reconcile_commands` request. */
  datatype Request = Request(session: Text, ids: seq<Text>, abandon: set<Text>, replaySafe: bool, at: Text)

  /** What the unit of work has journaled for a root command. */
  datatype Admission = Admission(request: Request, verdicts: Result<map<Text, Verdict>, Trouble>)

  /** One execution of a stored task command, with what was true when it was called. */
  datatype TaskCall = TaskCall(
    root: Text, command: Text, receipt: Option<Receipt>, row: Option<TaskRow>, envelopeSafe: bool, callerSafe: bool)

  datatype Space = Space(
    envelopes: map<Text, CommandEnvelope>,
    receipts: map<Text, Receipt>,
    tasks: map<Text, TaskRow>,
    written: set<ReceiptOp>,             // receipt mutations that have a batch
    admissions: map<Text, Admission>,
    log: seq<TaskCall>)                  // executions so far, for the statements below

  predicate Terminal(state: ReceiptState) {
    state == Succeeded || state == Failed || state == Conflicted || state == Abandoned
  }

  predicate Nonterminal(state: ReceiptState) {
    state == Pending || state == Unknown
  }

  /** `decode_reconcile_coordination`. */
  function Decode(receipt: Receipt): Result<Option<Claim>, Trouble> {
    match receipt.column
    case NoClaim => Ok(None)
    case Garbled => Err(NeedsRecovery)
    case Holds(claim) => if Nonterminal(receipt.state) then Ok(Some(claim)) else Err(NeedsRecovery)
  }

  /** `current_replay_coordination`. */
  function CurrentClaim(current: Option<Receipt>): Result<Option<Claim>, Trouble> {
    if current.None? then Ok(None) else Decode(current.value)
  }

  /** `receipt_view`: a row with a malformed claim cannot be shown. */
  function View(current: Option<Receipt>): Result<Receipt, Trouble> {
    if current.None? then Err(NeedsRecovery)
    else if Decode(current.value).Err? then Err(NeedsRecovery)
    else Ok(current.value)
  }

  /** `query_original`. */
  function QueryTask(s: Space, c: Text): Result<Option<TaskOutcome>, Trouble> {
    if c !in s.tasks then Ok(None) else
    match s.tasks[c]
    case Unfinished => Ok(None)
    case Concluded(outcome) => Ok(Some(outcome))
    case Foreign => Err(IdempotencyClash)
    case Lost => Err(NeedsRecovery)
  }

  // --------------------------------------------------------- receipt writing

  /** The policy of `record_receipt`, for a write that compiles to one row. */
  predicate WriteAllowed(s: Space, c: Text, state: ReceiptState, column: ClaimColumn, reservedKey: bool,
                         expected: Option<Claim>) {
    && c in s.envelopes
    && (c in s.receipts ==>
          && Decode(s.receipts[c]).Ok?
          && !Terminal(s.receipts[c].state) && s.receipts[c].state != NotNeeded
          && Decode(s.receipts[c]).value == expected)
    && (if Nonterminal(state) then column != Garbled && (state == Unknown ==> column.Holds?)
        else !column.Holds? && !reservedKey)
  }

  function OpOf(c: Text, state: ReceiptState, expected: Option<Claim>): ReceiptOp {
    if expected.Some? then Under(expected.value.root, c, state) else Own(c, state)
  }

  /** `S3ReceiptWriter._write`. */
  function Write(s: Space, c: Text, state: ReceiptState, column: ClaimColumn, reservedKey: bool,
                 expected: Option<Claim>): (Space, Result<Receipt, Trouble>) {
    var current := Lookup(s.receipts, c);
    if current.Some? && Terminal(current.value.state) then (s, View(current)) else
    var op := OpOf(c, state, expected);
    if op in s.written then (s, View(current)) else
    var journaled := s.(written := s.written + {op});
    if !WriteAllowed(s, c, state, column, reservedKey, expected) then (journaled, Err(IdempotencyClash))
    else (journaled.(receipts := s.receipts[c := Receipt(state, column)]), Ok(Receipt(state, column)))
  }

  function StateOf(outcome: TaskOutcome): ReceiptState {
    match outcome
    case Accepted(_) => Succeeded
    case RejectedAs(code) =>
      if code == "version_conflict" || code == "work_item_structure_changed"
         || code == "invalid_work_item_tree" then Conflicted
      else Failed
  }

  /** `S3ReceiptWriter.record`. */
  function Record(s: Space, c: Text, outcome: Option<TaskOutcome>, expected: Option<Claim>):
    (Space, Result<Receipt, Trouble>)
  {
    match outcome
    case None =>
      Write(s, c, Unknown, if expected.Some? then Holds(FinishedUnknown(expected.value.root)) else NoClaim, false,
            expected)
    case Some(known) =>
      Write(s, c, StateOf(known), NoClaim, known.Accepted? && known.reservedKey, expected)
  }

  // ---------------------------------------------------------- one envelope

  /** What executing the task command does: its journal row afterwards, and
      whether the caller learns the outcome, times out, or dies. */
  datatype TaskReply = Replies(outcome: TaskOutcome) | TimesOut(row: Option<TaskRow>) | Dies(row: Option<TaskRow>)

  /** The task journal never changes a finished row or another request's row. */
  function AfterTask(s: Space, c: Text, reply: TaskReply): Space {
    var row := if reply.Replies? then Some(Concluded(reply.outcome)) else reply.row;
    if row.None? || (c in s.tasks && s.tasks[c] != Unfinished) then s
    else s.(tasks := s.tasks[c := row.value])
  }

  /** Everything that has to hold before `_reconcile_one` executes. */
  predicate MayExecute(s: Space, root: Text, replaySafe: bool, c: Text, verdict: Verdict) {
    && c in s.envelopes && s.envelopes[c].transitionKnown && s.envelopes[c].replaySafe && replaySafe
    && verdict == ReplayClaimed(root)
    && c in s.receipts && !Terminal(s.receipts[c].state) && Decode(s.receipts[c]) == Ok(Some(ClaimedBy(root)))
    && (c !in s.tasks || s.tasks[c] == Unfinished)
  }

  datatype Step = Step(space: Space, answer: Result<Receipt, Trouble>, executed: bool)

  /** `_reconcile_one` without the execution: what it answers, or none if it
      goes on to execute. */
  function Settle(s: Space, root: Text, replaySafe: bool, c: Text, verdict: Verdict): (step: Option<Step>)
    ensures step.None? ==> c in s.envelopes
  {
    if c !in s.envelopes || !s.envelopes[c].transitionKnown then Some(Step(s, Err(NeedsRecovery), false)) else
    var local := Lookup(s.receipts, c);
    match QueryTask(s, c)
    case Err(trouble) => Some(Step(s, Err(trouble), false))
    case Ok(Some(outcome)) =>
      if local.Some? && local.value.state == Abandoned then Some(Step(s, Err(NeedsRecovery), false)) else
      (match CurrentClaim(local)
       case Err(trouble) => Some(Step(s, Err(trouble), false))
       case Ok(claim) =>
         var (after, answer) := Record(s, c, Some(outcome), claim);
         Some(Step(after, answer, false)))
    case Ok(None) =>
      if local.Some? && Terminal(local.value.state) then Some(Step(s, View(local), false)) else
      match verdict
      case AbandonedBy(_, _) => Some(Step(s, Err(NeedsRecovery), false))
      case Observe(_) =>
        if local.None? then
          var (after, answer) := Write(s, c, Pending, NoClaim, false, None);
          Some(Step(after, answer, false))
        else Some(Step(s, View(local), false))
      case ReplayClaimed(claimant) =>
        match CurrentClaim(local)
        case Err(trouble) => Some(Step(s, Err(trouble), false))
        case Ok(claim) =>
          if claim != Some(ClaimedBy(claimant)) || claimant != root then Some(Step(s, View(local), false))
          else if !replaySafe || !s.envelopes[c].replaySafe then Some(Step(s, Err(NeedsRecovery), false))
          else None
  }

  /** `_reconcile_one`. */
  function ReconcileOne(s: Space, root: Text, replaySafe: bool, c: Text, verdict: Verdict, reply: TaskReply): Step {
    match Settle(s, root, replaySafe, c, verdict)
    case Some(step) => step
    case None =>
      var call := TaskCall(root, c, Lookup(s.receipts, c), Lookup(s.tasks, c), s.envelopes[c].replaySafe, replaySafe);
      var executed := AfterTask(s, c, reply).(log := s.log + [call]);
      match reply
      case Dies(_) => Step(executed, Err(NeedsRecovery), true)
      case Replies(outcome) =>
        var (after, answer) := Record(executed, c, Some(outcome), Some(ClaimedBy(root)));
        Step(after, answer, true)
      case TimesOut(_) =>
        var (after, answer) := Record(executed, c, None, Some(ClaimedBy(root)));
        Step(after, answer, true)
  }

  // --------------------------------------------------------------- admission

  /** One id of `_compile_reconcile_admission`: the row to write, if any, and
      the verdict. */
  function AdmitOne(s: Space, root: Text, request: Request, c: Text): Result<(Option<Receipt>, Verdict), Trouble> {
    if c !in s.envelopes || s.envelopes[c].session != request.session then Err(NeedsRecovery) else
    var current := Lookup(s.receipts, c);
    match CurrentClaim(current)
    case Err(_) => Err(IdempotencyClash)
    case Ok(claim) =>
      var state := if current.Some? then current.value.state else Pending;
      var original := Lookup(s.tasks, c);
      if !s.envelopes[c].transitionKnown then Err(NeedsRecovery)
      else if original == Some(Foreign) then Err(IdempotencyClash)
      else if Terminal(state) || (original.Some? && original != Some(Unfinished)) then Ok((None, Observe(state)))
      else if c in request.abandon then
        if original.Some? || (claim.Some? && claim.value.ClaimedBy?) then Err(NeedsRecovery)
        else Ok((Some(Receipt(Abandoned, NoClaim)), AbandonedBy(root, request.at)))
      else if original.None? && request.replaySafe && s.envelopes[c].replaySafe
              && !(claim.Some? && claim.value.ClaimedBy? && claim.value.root != root) then
        if claim.None? || claim.value.FinishedUnknown? then
          Ok((Some(Receipt(if Nonterminal(state) then state else Pending,
                           Holds(ClaimedBy(root)))), ReplayClaimed(root)))
        else Ok((None, ReplayClaimed(root)))
      else Ok((None, Observe(state)))
  }

  /** Every id admitted, or the first refusal. */
  function AdmitAll(s: Space, root: Text, request: Request,
                    ids: seq<Text>): (r: Result<map<Text, (Option<Receipt>, Verdict)>, Trouble>)
    ensures r.Ok? <==> forall i :: 0 <= i < |ids| ==> AdmitOne(s, root, request, ids[i]).Ok?
    ensures r.Ok? ==> r.value.Keys == set i | 0 <= i < |ids| :: ids[i]
    ensures r.Ok? ==> forall c :: c in r.value ==> AdmitOne(s, root, request, c) == Ok(r.value[c])
  {
    if ids == [] then Ok(map[]) else
    var n := |ids| - 1;
    match AdmitAll(s, root, request, ids[..n])
    case Err(trouble) => Err(trouble)
    case Ok(earlier) =>
      match AdmitOne(s, root, request, ids[n])
      case Err(trouble) => Err(trouble)
      case Ok(row) => Ok(earlier[ids[n] := row])
  }

  function NewRows(plans: map<Text, (Option<Receipt>, Verdict)>): map<Text, Receipt> {
    map c | c in plans && plans[c].0.Some? :: plans[c].0.value
  }

  function Verdicts(plans: map<Text, (Option<Receipt>, Verdict)>): map<Text, Verdict> {
    map c | c in plans :: plans[c].1
  }

  /** The admission mutation: journaled under the root command's id, so that
      the first request decides and a later one only reads its result. */
  function Admit(s: Space, root: Text, request: Request): (Space, Result<map<Text, Verdict>, Trouble>) {
    if root in s.admissions then
      (s, if s.admissions[root].request == request then s.admissions[root].verdicts else Err(IdempotencyClash))
    else
      match AdmitAll(s, root, request, request.ids)
      case Err(trouble) => (s.(admissions := s.admissions[root := Admission(request, Err(trouble))]), Err(trouble))
      case Ok(plans) =>
        (s.(admissions := s.admissions[root := Admission(request, Ok(Verdicts(plans)))],
            receipts := s.receipts + NewRows(plans)),
         Ok(Verdicts(plans)))
  }

  // ------------------------------------------------------------ whole calls

  type World = Text -> TaskReply

  /** The loop over the selected envelopes; the first failure ends the call. */
  function ReconcileEach(s: Space, root: Text, request: Request, verdicts: map<Text, Verdict>, ids: seq<Text>,
                         world: World): Step
    requires forall i :: 0 <= i < |ids| ==> ids[i] in verdicts
  {
    if ids == [] then Step(s, Err(NeedsRecovery), false) else
    var n := |ids| - 1;
    var earlier := ReconcileEach(s, root, request, verdicts, ids[..n], world);
    if n > 0 && earlier.answer.Err? then earlier
    else ReconcileOne(earlier.space, root, request.replaySafe, ids[n], verdicts[ids[n]], world(ids[n]))
  }

  /** `reconcile_commands`: admission, then one envelope after the other. */
  function WholeCall(s: Space, root: Text, request: Request, world: World): Space {
    var (admitted, verdicts) := Admit(s, root, request);
    if verdicts.Err? || exists i :: 0 <= i < |request.ids| && request.ids[i] !in verdicts.value then admitted
    else ReconcileEach(admitted, root, request, verdicts.value, request.ids, world).space
  }

  // ----------------------------------------------------------- interleavings

  /** What calls of any number of roots do, block by block: a call may be cut
      between any two of its blocks, and another call may come between them. */
  datatype Event =
    | Admits(root: Text, request: Request)
    | Reconciles(root: Text, c: Text, reply: TaskReply)
    | Settles(c: Text, row: TaskRow)          // the task journal finishes on its own

  /** Has this root's admission, as journaled, given the envelope a verdict? */
  predicate AdmittedFor(s: Space, root: Text, c: Text) {
    root in s.admissions && s.admissions[root].verdicts.Ok? && c in s.admissions[root].verdicts.value
  }

  function Next(s: Space, event: Event): Space {
    match event
    case Settles(c, row) => if c in s.tasks && s.tasks[c] == Unfinished then s.(tasks := s.tasks[c := row]) else s
    case Admits(root, request) => Admit(s, root, request).0
    case Reconciles(root, c, reply) =>
      if !AdmittedFor(s, root, c) then s else
      var admission := s.admissions[root];
      ReconcileOne(s, root, admission.request.replaySafe, c, admission.verdicts.value[c], reply).space
  }

  function Run(s: Space, events: seq<Event>): Space {
    if events == [] then s else Next(Run(s, events[..|events| - 1]), events[|events| - 1])
  }
}
