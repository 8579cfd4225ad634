/** The rows of the Meta database and of the Space databases that the
    active-session coordination reads and writes. Timestamps are left out. */
module CoordinationRows {
  import opened Symbols

  datatype LocatorState = Claiming | ActiveState | Releasing

  datatype Kind =
    | Start | Heartbeat | Pause | Resume | End | Takeover | UpdateNote | SetCurrentPlanItem
    | SetCompletionDraft | AddPlanItem | RemovePlanItem | ActivateProvisional | ResolveConflict

  datatype Phase =
    | Prepared | Claimed | SpaceCommitted | AwaitingResolution | Transferred | Completed
    | Rejected | ManualIntervention

  datatype Place = Place(space: Text, session: Text)

  /** The two Sessions of an activation conflict. */
  datatype Side = ActiveSide | CandidateSide

  datatype Pair = Pair(active: Place, candidate: Place) {
    function At(side: Side): Place {
      if side == ActiveSide then active else candidate
    }
  }

  function Other(side: Side): Side {
    if side == ActiveSide then CandidateSide else ActiveSide
  }

  /** One `children` entry of an intent. */
  datatype Declared = Declared(id: Text, hash: Text)

  /** The intent written beside an operation before any Space write. */
  datatype Intent = Intent(
    commandId: Text, space: Text, session: Text, epoch: int, hash: Text, kind: Kind,
    business: Payload, pair: Option<Pair>, children: Option<map<Role, Declared>>)

  datatype Locator = Locator(
    space: Text, session: Text, operation: Text, state: LocatorState,
    device: Text, tab: Text, epoch: int)

  /** What `result_descriptor_json` names, if anything. */
  datatype Descriptor = ResolvedBy(resolution: Text) | Authoritative

  datatype Operation = Operation(
    kind: Kind, hash: Text, intent: Intent, phase: Phase,
    related: Option<Text>, result: Option<Descriptor>)

  datatype ReceiptState = NotNeeded | Pending | Succeeded | Failed | Conflicted | Unknown | Abandoned

  function ReceiptWord(state: ReceiptState): string {
    match state
    case NotNeeded => "not_needed"
    case Pending => "pending"
    case Succeeded => "succeeded"
    case Failed => "failed"
    case Conflicted => "conflict"
    case Unknown => "unknown"
    case Abandoned => "abandoned"
  }

  datatype Envelope = Envelope(space: Text, session: Text, hash: Text, replaySafe: bool, completes: bool)

  datatype MutationState =
    | IntentRecorded | Staged | DbCommitted | Finalizing | ForwardApplied | Finalized | Aborted
    | Compensating | Compensated | FailedManual

  datatype StepRow = StepRow(applied: bool, afterHash: Option<Text>, appliedHash: Option<Text>)

  /** The decoded `applied`/`rejected` operation ids of a batch result. */
  datatype BatchResult = Undecodable | Listed(applied: set<Text>, rejected: set<Text>)

  /** The journal rows of one mutation operation: its own row, its batch (if
      that row still exists) and its steps. */
  datatype JournalEntry = JournalEntry(
    batch: Option<MutationState>, state: MutationState, errorCode: Option<string>,
    batchResult: BatchResult, resultIsObject: bool, steps: seq<StepRow>)

  datatype Ownership = Authoritatively | LocalProvisional | InConflict

  datatype Validity = PendingValidity | Valid | Invalid

  datatype SessionRow = SessionRow(
    ended: bool, ownership: Ownership, validity: Validity, reason: Option<string>, hasContext: bool)

  /** A primary key inside one Space database. */
  datatype Key = Key(space: Text, id: Text)

  /** The durable state: one Meta database and every Space database. */
  datatype Store = Store(
    locator: Option<Locator>,
    ops: map<Text, Operation>,
    envelopes: map<Key, Envelope>,
    receipts: map<Key, ReceiptState>,
    journal: map<Key, JournalEntry>,
    sessions: map<Key, SessionRow>)

  /** A deterministic child operation, as its writer computed it. */
  datatype Child = Child(role: Role, place: Place, id: Text, hash: Text) {
    function At(): Key {
      Key(place.space, id)
    }
  }
}
