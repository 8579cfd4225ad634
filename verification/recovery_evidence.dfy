/** The evidence a recovery inspection reads: raw column values of copied
    databases, however damaged. A column holds any JSON-like value, a timestamp
    column is reduced to its canonical UTC instant (none if it has no such
    form), and a JSON text column to what parsing it gives. */
module RecoveryEvidence {
  import opened Symbols
  import opened CoordinationRows

  /** A text column that should hold a JSON document. */
  datatype Document =
    | Missing            // NULL
    | Unusable           // not a string, empty, or over the size bound
    | Malformed          // not JSON
    | Parsed(json: Json)

  datatype LocatorRow = LocatorRow(
    singleton: Json, space: Json, session: Json, operation: Json, state: Json,
    device: Json, tab: Json, epoch: Json, lease: Option<int>, updated: Option<int>)

  datatype OperationRow = OperationRow(
    id: Json, kind: Json, hash: Json, intent: Document, phase: Json, descriptor: Document,
    related: Json, created: Option<int>, updated: Option<int>)

  datatype EnvelopeRow = EnvelopeRow(space: Json, session: Json, hash: Json)

  datatype SessionEvidence = SessionEvidence(endedAt: Json, ownership: Json, validity: Json, reason: Json)

  /** One Space's copied database. */
  datatype SpaceView =
    | Unreadable
    | Readable(envelopes: map<Text, EnvelopeRow>, receipts: map<Text, Json>, sessions: map<Text, SessionEvidence>)

  datatype MetaView =
    | NoPath
    | Damaged                                  // unreadable, or a table or column is missing
    | Tables(locators: seq<LocatorRow>, ops: map<Text, OperationRow>)

  datatype Evidence = Evidence(meta: MetaView, spaces: map<Text, SpaceView>)

  /** The authority's failure codes. */
  datatype Code =
    | InvalidView | MissingSchema | MultipleLocators | InvalidLocator | OperationMissing | InvalidOperation
    | IntentInvalid | StatePhaseInconsistent | ManualInterventionNeeded | LeaseExpired
    | RelationMissing | RelationInvalid | RelationCycle
    | SpaceViewMissing | SpaceUnreadable | SessionMissing | SessionUnexpectedTerminal | SessionUnexpectedNonterminal
    | ConflictPairMissing | ConflictPairInvalid | ChildMissing | ChildUnknown | ChildPending | ChildRejected
    | ChildIdentityMismatch | ChildPayloadHashMismatch | ChildrenDeclarationMissing | ChildrenDeclarationInvalid
    | ChildrenDeclarationConflict | ChildIdDerivationUnproven | ChildIdDerivationMismatch
    | SessionOwnershipInvalid | SessionInvalidMarker | UnprovenCombination

  /** One Space child as found. */
  datatype ChildOutcome = ChildOutcome(role: string, place: Place, id: Text, envelopePresent: bool,
                                       receipt: Option<Text>) {
    predicate Is(state: string) {
      receipt == Some(Plain(state))
    }

    predicate Success() { Is("succeeded") }

    predicate TerminalRejected() { Is("failed") || Is("conflict") }
  }

  datatype SessionFact = SessionFact(
    place: Place, present: bool, ended: bool, ownership: Json, validity: Json, reason: Json)

  datatype Classification =
    | Vacant | ActiveConsistent | RecoverableClaiming | RecoverableReleasing | ConflictAwaiting

  datatype Verdict =
    | Clean(classification: Classification, outcomes: seq<ChildOutcome>, facts: seq<SessionFact>, pair: Option<Pair>)
    | RecoveryRequired(code: Code)

  // ------------------------------------------------------------ column checks

  predicate PlainAscii(c: char) {
    0 < c as int < 128 && c != '\n' && c != '\r'
  }

  predicate AsciiText(text: Text) {
    match text
    case Plain(chars) => chars != "" && forall i :: 0 <= i < |chars| ==> PlainAscii(chars[i])
    case ChildId(parent, _) => AsciiText(parent)
    case Digest(_) => true
    case Repr(_) => false
  }

  /** `_require_nonempty_ascii`. */
  predicate NonemptyAscii(value: Json) {
    value.Str? && AsciiText(value.text)
  }

  predicate OperationIdColumn(value: Json) {
    value.Str? && IsOperationId(value.text)
  }

  predicate HashColumn(value: Json) {
    value.Str? && IsHash(value.text)
  }

  predicate OneOf(value: Json, words: seq<string>) {
    value.Str? && value.text.Plain? && value.text.chars in words
  }

  predicate PositiveInt(value: Json) {
    value.Int? && value.n > 0
  }

  const STATES: seq<string> := ["claiming", "active", "releasing"]

  const KINDS: seq<string> := [
    "start", "heartbeat", "pause", "resume", "end", "takeover", "update_note", "set_current_plan_item",
    "set_completion_draft", "add_plan_item", "remove_plan_item", "activate_provisional", "resolve_activation_conflict"]

  const PHASES: seq<string> := [
    "prepared", "claimed", "space_committed", "awaiting_resolution", "transferred", "completed", "rejected",
    "manual_intervention"]

  /** Kinds whose only child keeps the operation's own id. */
  const SIMPLE_KINDS: seq<string> := [
    "start", "heartbeat", "pause", "resume", "end", "update_note", "set_current_plan_item", "set_completion_draft",
    "add_plan_item", "remove_plan_item"]

  const CHILD_ROLES: set<string> := {"candidate", "active", "winner", "loser"}

  const IDENTITY: set<string> := {"command_id", "space_id", "session_id", "ownership_epoch", "payload_hash", "kind"}

  const NON_BUSINESS: set<string> := {"pair", "children"}

  /** `_validated_locator`. */
  predicate LocatorValid(row: LocatorRow) {
    && row.singleton == Str(Plain("active"))
    && OneOf(row.state, STATES)
    && NonemptyAscii(row.space) && NonemptyAscii(row.session) && NonemptyAscii(row.device) && NonemptyAscii(row.tab)
    && OperationIdColumn(row.operation)
    && PositiveInt(row.epoch)
    && row.lease.Some? && row.updated.Some?
  }

  /** `_validated_operation_shape`. */
  predicate OperationShape(row: OperationRow) {
    && OperationIdColumn(row.id)
    && OneOf(row.kind, KINDS) && OneOf(row.phase, PHASES)
    && HashColumn(row.hash)
    && !row.intent.Missing? && !row.intent.Unusable?
    && row.created.Some? && row.updated.Some? && row.created.value <= row.updated.value
    && (row.descriptor.Missing? || (row.descriptor.Parsed? && row.descriptor.json.Obj?))
    && (row.related == Null || OperationIdColumn(row.related))
  }
}
