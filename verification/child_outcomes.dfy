/** What the evidence of a child decides, what its mutation does and when its
    proof admits it, column by column and without the functions that compute it. */
module ChildOutcomes {
  import opened Symbols
  import opened CoordinationRows
  import opened ChildEvidence
  import opened CoordinatorTransactions
  import opened CoordinatorProtocol
  import CoordinatorOutcomes

  // ------------------------------------------------------------------ children

  predicate Aborts(row: JournalEntry) {
    row.batch == Some(Aborted) || row.state == Aborted
  }

  /** Operation and batch are final: both aborted-or-finalized ways a rejection is recorded. */
  predicate Concludes(row: JournalEntry) {
    row.batch != None && (Aborts(row) || (row.batch == Some(Finalized) && row.state == Finalized))
  }

  /** How the journal of a child reads, beside applied and not executed. */
  lemma JournalReading(entry: Option<JournalEntry>, id: Text)
    ensures var outcome := QueryOriginal(entry, id);
            && (outcome == ConflictOutcome <==>
                  entry != None && Concludes(entry.value) && entry.value.errorCode in {
                    Some("idempotency_conflict"), Some("stale_session_owner"),
                    Some("session_activation_conflict"), Some("version_conflict")})
            && (outcome == RejectedOutcome <==>
                  entry != None && Concludes(entry.value) && entry.value.errorCode !in {
                    None, Some("idempotency_conflict"), Some("stale_session_owner"),
                    Some("session_activation_conflict"), Some("version_conflict")})
            && (outcome == AbortedOutcome <==>
                  entry != None && entry.value.batch != None && Aborts(entry.value) && entry.value.errorCode == None)
            && (outcome == NotExecuted <==> entry == None)
            && outcome != UnknownOutcome
  {
  }

  /** An applied child: batch and operation finalized without an error, the id
      among the applied ones alone, and every step applied with the hash it
      was to leave. */
  lemma AppliedReading(entry: Option<JournalEntry>, id: Text)
    ensures QueryOriginal(entry, id) == Applied <==>
              entry != None && var row := entry.value;
              && row.batch == Some(Finalized) && row.state == Finalized && row.errorCode == None
              && row.resultIsObject && row.batchResult.Listed?
              && id in row.batchResult.applied && id !in row.batchResult.rejected
              && forall step :: step in row.steps ==>
                   step.applied && step.afterHash != None && step.appliedHash == step.afterHash
  {
    AppliedNeedsAllEvidence(entry, id);
    if entry != None {
      var steps := entry.value.steps;
      assert (forall step :: step in steps ==> StepProven(step)) <==>
             (forall i :: 0 <= i < |steps| ==> StepProven(steps[i]));
    }
    hide QueryOriginal;
  }

  predicate Matches(envelope: Envelope, child: Child) {
    && envelope.space == child.place.space && envelope.session == child.place.session && envelope.hash == child.hash
    && envelope.replaySafe && envelope.completes
  }

  /** The decision table, entry by entry. */
  predicate Warrants(store: Store, child: Child, decision: Decision) {
    var key := Key(child.place.space, child.id);
    var found := key in store.envelopes;
    var fits := found && Matches(store.envelopes[key], child);
    var receipt := if key in store.receipts then Some(store.receipts[key]) else None;
    var refusedReceipt := receipt == Some(Failed) || receipt == Some(Conflicted) || receipt == Some(Abandoned);
    var journal := QueryOriginal(if key in store.journal then Some(store.journal[key]) else None, child.id);
    var refused := journal == RejectedOutcome || journal == ConflictOutcome;
    match decision
    case Execute(false) => !found
    case Execute(true) => fits && !refusedReceipt && journal == NotExecuted
    case AlreadySucceeded => fits && journal == Applied && receipt == Some(Succeeded)
    case RestoreSucceededReceipt => fits && journal == Applied && !refusedReceipt && receipt != Some(Succeeded)
    case TerminalRejected =>
      fits && ((refusedReceipt && journal != Applied) || (!refusedReceipt && refused && receipt != Some(Succeeded)))
    case RecoveryRequired => fits && !refusedReceipt && journal != Applied && journal != NotExecuted && !refused
    case EvidenceMismatch =>
      found && (!fits || (refusedReceipt && journal == Applied) || (receipt == Some(Succeeded) && refused))
  }

  /** On any evidence, however damaged, the one decision its entry warrants. */
  lemma DecisionTable(store: Store, child: Child)
    ensures forall decision :: Decide(store, child) == decision <==> Warrants(store, child, decision)
  {
    hide QueryOriginal;
  }

  /** What an applied child does to its Session row: a conflict child marks the
      conflict, the winner takes ownership, the loser ends as invalid. */
  lemma EffectIs(role: Role, row: SessionRow)
    ensures ChildEffect(role, row) == Concluded(role, row)
  {
  }

  // -------------------------------------------------------------------- proof

  /** The rows prove the resolution: its conflict, winner and both children are
      named, under its own hash and derived ids, at the locator's place. */
  predicate Proves(before: Store, op: Text, winner: Side, children: map<Role, Declared>)
    requires before.locator != None && op in before.ops
  {
    var row, intent := before.ops[op], before.ops[op].intent;
    && row.related != None && row.related != Some(Plain("")) && intent.pair != None
    && "winner_role" in intent.business
    && intent.business["winner_role"] == Str(Plain(if winner == ActiveSide then "active" else "candidate"))
    && intent.children == Some(children) && Winner in children && Loser in children
    && intent.hash == row.hash && children[Winner].id == ChildId(op, Winner) && children[Loser].id == ChildId(op, Loser)
    && intent.space == before.locator.value.space && intent.session == before.locator.value.session
  }

  ghost predicate ProofRefused(before: Store, op: Text, fault: Fault) {
    var found := before.locator != None && op in before.ops && before.ops[op].kind == ResolveConflict;
    match fault
    case NoLocator => before.locator == None
    case MissingRow => before.locator != None && !found
    case ProofInvalid => found && forall winner, children :: !Proves(before, op, winner, children)
    case _ => false
  }

  predicate ProofRebuilt(before: Store, op: Text, proof: Proof) {
    && before.locator != None && op in before.ops && before.ops[op].kind == ResolveConflict
    && before.ops[op].intent.pair == Some(proof.pair) && before.ops[op].intent.children != None
    && var children := before.ops[op].intent.children.value;
    && Proves(before, op, proof.winner, children)
    && proof.op == op && before.ops[op].related == Some(proof.related) && proof.phase == before.ops[op].phase
    && before.locator == Some(proof.locator)
    && proof.winnerHash == children[Winner].hash && proof.loserHash == children[Loser].hash
  }

  lemma ProofOutcome(before: Store, op: Text)
    ensures forall fault :: ReadProof(before, op) == Err(fault) <==> ProofRefused(before, op, fault)
    ensures ReadProof(before, op).Ok? ==> ProofRebuilt(before, op, ReadProof(before, op).value)
  {
    if op in before.ops { CoordinatorOutcomes.WinnerNamed(before.ops[op].intent.business); }
    hide WinnerSide;
    if before.locator != None && op in before.ops && before.ops[op].kind == ResolveConflict {
      var intent := before.ops[op].intent;
      assert ActiveSide != CandidateSide;
      if WinnerSide(intent.business).Some? {
        assert WinnerSide(intent.business) == Some(WinnerSide(intent.business).value);
        if ReadProof(before, op).Ok? {
          assert Proves(before, op, WinnerSide(intent.business).value, intent.children.value);
        }
      }
    }
  }

  /** The Space policy's gate for a resolution child: its proof is that of an
      unfinished resolution the locator still stands at, the child is the one
      the proof names, and its Session is in conflict. */
  predicate Admits(store: Store, proof: Proof, child: Child) {
    var winner := if proof.winner == ActiveSide then proof.pair.active else proof.pair.candidate;
    var loser := if proof.winner == ActiveSide then proof.pair.candidate else proof.pair.active;
    var row := Key(child.place.space, child.place.session);
    && (proof.phase == Claimed || proof.phase == Prepared) && proof.op != proof.related
    && store.locator == Some(proof.locator) && proof.locator.operation == proof.op
    && winner.space == proof.locator.space && winner.session == proof.locator.session
    && child == (if child.role == Winner then Child(Winner, winner, ChildId(proof.op, Winner), proof.winnerHash)
                 else Child(Loser, loser, ChildId(proof.op, Loser), proof.loserHash))
    && row in store.sessions && store.sessions[row].ownership == InConflict && !store.sessions[row].ended
  }

  lemma GateOpens(store: Store, proof: Proof, child: Child)
    requires child.role == Winner || child.role == Loser
    ensures GateOpen(store, proof, child) <==> Admits(store, proof, child)
  {
  }

  /** May the mutation of a child take effect at all? */
  predicate Permits(store: Store, proof: Option<Proof>, child: Child) {
    && Key(child.place.space, child.place.session) in store.sessions
    && (child.role == Winner || child.role == Loser ==> proof != None && Admits(store, proof.value, child))
  }

  /** The receipt that an executed child asks for, if its reply is one that can be given. */
  predicate Reports(reply: Reply, child: Child, permitted: bool, state: Option<ReceiptState>) {
    match reply
    case Applies(entry) =>
      state == if permitted && QueryOriginal(Some(entry), child.id) == Applied then Some(Succeeded) else None
    case Rejects(code, entry) =>
      var outcome := QueryOriginal(Some(entry), child.id);
      if outcome != RejectedOutcome && outcome != ConflictOutcome then state == None
      else if code == "idempotency_conflict" || code == "version_conflict" then state == Some(Conflicted)
      else state == Some(Failed)
    case Raises(None) => state == Some(Unknown)
    case Raises(Some(entry)) =>
      var outcome := QueryOriginal(Some(entry), child.id);
      state == if permitted || (outcome != Applied && outcome != Inconclusive) then Some(Unknown) else None
  }

  /** What it leaves: its journal rows, and its Session as an applied child of its role sets it. */
  predicate Leaves(before: Store, after: Store, reply: Reply, child: Child, state: Option<ReceiptState>) {
    var key, row := Key(child.place.space, child.id), Key(child.place.space, child.place.session);
    var entry := match reply case Applies(e) => Some(e) case Rejects(_, e) => Some(e) case Raises(e) => e;
    && after == before.(journal := after.journal, sessions := after.sessions)
    && after.journal == (if state != None && entry != None then before.journal[key := entry.value] else before.journal)
    && (if state != None && entry != None && !reply.Rejects? && QueryOriginal(entry, child.id) == Applied
        then row in before.sessions
             && after.sessions == before.sessions[row := Concluded(child.role, before.sessions[row])]
        else after.sessions == before.sessions)
  }

  function Concluded(role: Role, row: SessionRow): SessionRow {
    if role == Winner then row.(ownership := Authoritatively)
    else if role == Loser then
      SessionRow(true, Authoritatively, Invalid, Some("activation_conflict_loser"), row.hasContext)
    else row.(ownership := InConflict)
  }
}
