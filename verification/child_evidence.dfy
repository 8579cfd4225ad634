/** How a child operation's durable evidence is read:
    `_query_child_original` and `_child_execution_decision`. */
module ChildEvidence {
  import opened Symbols
  import opened CoordinationRows

  datatype Outcome =
    | NotExecuted | Applied | RejectedOutcome | ConflictOutcome | UnknownOutcome | AbortedOutcome | Inconclusive

  predicate IsConflictCode(code: string) {
    code in {"idempotency_conflict", "stale_session_owner", "session_activation_conflict", "version_conflict"}
  }

  predicate StepProven(step: StepRow) {
    step.applied && step.afterHash.Some? && step.appliedHash == step.afterHash
  }

  /** The joint reading of operation, batch and step rows. */
  function QueryOriginal(entry: Option<JournalEntry>, id: Text): Outcome {
    match entry
    case None => NotExecuted
    case Some(row) =>
      if row.batch.None? then Inconclusive
      else if row.batch.value == Aborted || row.state == Aborted then
        match row.errorCode
        case Some(code) => if IsConflictCode(code) then ConflictOutcome else RejectedOutcome
        case None => AbortedOutcome
      else if row.batch.value == Compensated || row.state == Compensated then Inconclusive
      else if row.batch.value == Finalized && row.state == Finalized then
        match row.errorCode
        case Some(code) => if IsConflictCode(code) then ConflictOutcome else RejectedOutcome
        case None =>
          if !row.batchResult.Listed? || !row.resultIsObject then Inconclusive
          else if id !in row.batchResult.applied || id in row.batchResult.rejected then Inconclusive
          else if exists i :: 0 <= i < |row.steps| && !StepProven(row.steps[i]) then Inconclusive
          else Applied
      else Inconclusive
  }

  /** Only full agreement of batch, operation, result lists and every step
      counts as applied; in particular no aborted, compensated or rejected row does. */
  lemma AppliedNeedsAllEvidence(entry: Option<JournalEntry>, id: Text)
    ensures QueryOriginal(entry, id) == Applied <==>
              entry.Some? && var row := entry.value;
              row.batch == Some(Finalized) && row.state == Finalized && row.errorCode == None &&
              row.batchResult.Listed? && row.resultIsObject &&
              id in row.batchResult.applied - row.batchResult.rejected &&
              forall i :: 0 <= i < |row.steps| ==> StepProven(row.steps[i])
    ensures QueryOriginal(entry, id) == NotExecuted <==> entry.None?
  {
    if entry.Some? && QueryOriginal(entry, id) == Applied {
      assert entry.value.errorCode == None;
    }
  }

  datatype Decision =
    | Execute(envelopeExists: bool)
    | AlreadySucceeded
    | RestoreSucceededReceipt
    | TerminalRejected
    | RecoveryRequired
    | EvidenceMismatch            // raised, never returned

  /** Does the persisted envelope belong to exactly this deterministic child? */
  predicate EnvelopeMatches(envelope: Envelope, child: Child) {
    && Place(envelope.space, envelope.session) == child.place
    && envelope.hash == child.hash
    && envelope.replaySafe && envelope.completes
  }

  /** The closed envelope / receipt / journal decision table. */
  function Decide(store: Store, child: Child): Decision {
    match Lookup(store.envelopes, child.At())
    case None => Execute(false)
    case Some(envelope) =>
      if !EnvelopeMatches(envelope, child) then EvidenceMismatch else
      var original := QueryOriginal(Lookup(store.journal, child.At()), child.id);
      match Lookup(store.receipts, child.At())
      case None =>
        (match original
         case Applied => RestoreSucceededReceipt
         case RejectedOutcome => TerminalRejected
         case ConflictOutcome => TerminalRejected
         case NotExecuted => Execute(true)
         case _ => RecoveryRequired)
      case Some(state) =>
        if state in {Failed, Conflicted, Abandoned} then
          if original == Applied then EvidenceMismatch else TerminalRejected
        else
          match original
          case Applied => if state == Succeeded then AlreadySucceeded else RestoreSucceededReceipt
          case RejectedOutcome => if state == Succeeded then EvidenceMismatch else TerminalRejected
          case ConflictOutcome => if state == Succeeded then EvidenceMismatch else TerminalRejected
          case NotExecuted => Execute(true)
          case _ => RecoveryRequired
  }

  /** On any evidence, however damaged: a child whose envelope exists runs only
      if the journal holds no trace of it, and it is skipped only if envelope,
      receipt and journal agree that it was applied. */
  lemma DecisionIsSound(store: Store, child: Child)
    ensures Decide(store, child) == Execute(true) <==>
              child.At() in store.envelopes && EnvelopeMatches(store.envelopes[child.At()], child) &&
              child.At() !in store.journal &&
              Lookup(store.receipts, child.At()) !in {Some(Failed), Some(Conflicted), Some(Abandoned)}
    ensures Decide(store, child) == Execute(false) <==> child.At() !in store.envelopes
    ensures Decide(store, child) == AlreadySucceeded <==>
              child.At() in store.envelopes && EnvelopeMatches(store.envelopes[child.At()], child) &&
              Lookup(store.receipts, child.At()) == Some(Succeeded) &&
              QueryOriginal(Lookup(store.journal, child.At()), child.id) == Applied
  {
    AppliedNeedsAllEvidence(Lookup(store.journal, child.At()), child.id);
  }
}
