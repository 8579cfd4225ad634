/** The whole read-only inspection, and what each of its answers means. */
module RecoveryInspector {
  import opened Symbols
  import opened CoordinationRows
  import opened RecoveryEvidence
  import opened RecoveryColumns
  import opened RecoveryAuthority
  import RecoveryTable

  lemma LocatorIs(row: LocatorRow)
    ensures LocatorValid(row) <==> GoodLocator(row)
    ensures LocatorPlace(row) == PlaceNamed(row)
  {
    hide IsOperationId, AsciiText;
  }

  lemma IntentIs(locator: LocatorRow, row: OperationRow)
    requires GoodLocator(locator) && GoodOperation(row)
    ensures VerifyIntent(locator, row).Some? <==> IntentAgrees(locator, row)
    ensures IntentAgrees(locator, row) ==> VerifyIntent(locator, row) == Some(row.intent.json.fields)
  {
    hide IsOperationId, IsHash, AsciiText, OneOf;
    if row.intent.Parsed? && row.intent.json.Obj? {
      var intent := row.intent.json.fields;
      assert Without(intent, IDENTITY + NON_BUSINESS) ==
             intent - {"command_id", "space_id", "session_id", "ownership_epoch", "payload_hash", "kind", "pair",
                       "children"};
    }
  }

  lemma CombinesIs(state: Json, phase: Json, kind: Json)
    ensures PhaseAllowed(state, phase) && (Reads(phase, "transferred") ==> Reads(kind, "resolve_activation_conflict"))
            <==> Combines(state, phase, kind)
    ensures Combines(state, phase, kind) ==> !Is(phase, "manual_intervention")
  {
  }

  predicate IsRelationCode(code: Code) {
    code.RelationMissing? || code.RelationInvalid? || code.RelationCycle?
  }

  /** Before the relation: each refusal under its cause, or the rows to go on with. */
  lemma ExamineIs(meta: MetaView, now: int)
    ensures Examine(meta, now) == Decided(Clean(Vacant, [], [], None)) <==> meta.Tables? && meta.locators == []
    ensures forall code ::
              Examine(meta, now) == Decided(RecoveryRequired(code)) <==>
                MetaRefuses(meta, now, code) && !IsRelationCode(code)
    ensures Live(meta, now) <==> Examine(meta, now).Proceed?
    ensures Live(meta, now) ==>
              Examine(meta, now) == Proceed(meta.locators[0], FoundRow(meta), FoundRow(meta).intent.json.fields)
  {
    hide LocatorValid, GoodLocator, OperationShape, GoodOperation, VerifyIntent, IntentAgrees, PhaseAllowed, Combines,
         RelationEnds;
    if meta.Tables? && |meta.locators| == 1 {
      var locator := meta.locators[0];
      LocatorIs(locator);
      assert GoodLocator(locator) ==> locator.operation.Str? && locator.lease.Some? by { GoodColumns(locator); }
      if GoodLocator(locator) && locator.operation.text in meta.ops {
        var row := meta.ops[locator.operation.text];
        ShapeIs(row);
        CombinesIs(locator.state, row.phase, row.kind);
        if GoodOperation(row) {
          IntentIs(locator, row);
          assert IntentAgrees(locator, row) ==> row.intent.Parsed? && row.intent.json.Obj? by {
            IntentParsed(locator, row);
          }
        }
      }
    }
  }

  lemma GoodColumns(locator: LocatorRow)
    ensures GoodLocator(locator) ==>
              locator.operation.Str? && locator.lease.Some? && IsOperationId(locator.operation.text)
  {
  }

  lemma IntentParsed(locator: LocatorRow, row: OperationRow)
    ensures IntentAgrees(locator, row) ==> row.intent.Parsed? && row.intent.json.Obj?
  {
  }

  predicate NoMetaAnswer(entry: Verdict) {
    match entry
    case Clean(classification, _, _, _) => classification != Vacant
    case RecoveryRequired(code) => !IsMetaCode(code)
  }

  lemma OutcomesAreNoMetaAnswer(spaces: map<Text, SpaceView>, operation: Text, intent: Payload, two: RecoveryTable.Two)
    requires RecoveryTable.DeclarationFault(operation, intent, two.first, two.firstWord, two.second,
                                            two.secondWord) == None
    ensures var r := RecoveryTable.Outcomes(spaces, operation, intent, two); r.Err? ==> !IsMetaCode(r.error)
  {
    hide RecoveryTable.OutcomeOf, RecoveryTable.DeclaredId, RecoveryTable.DeclaredHash,
         RecoveryTable.DeclarationFault;
  }

  predicate NoMetaCode(code: Option<Code>) {
    code == None || !IsMetaCode(code.value)
  }

  lemma FaultsAreNoMetaCodes(operation: Text, intent: Payload)
    ensures NoMetaCode(RecoveryTable.DeclarationFault(operation, intent, Candidate, "candidate", Active, "active"))
    ensures NoMetaCode(RecoveryTable.DeclarationFault(operation, intent, Winner, "winner", Loser, "loser"))
  {
    hide RecoveryTable.Declares, RecoveryTable.DeclaredId;
  }

  lemma SessionsAreNoMetaCodes(spaces: map<Text, SpaceView>, pair: Pair)
    ensures NoMetaCode(RecoveryTable.PairFault(spaces, pair))
  {
    hide RecoveryTable.FactOf;
  }

  lemma ClaimedIsNoMetaAnswer(spaces: map<Text, SpaceView>, operation: Text, intent: Payload)
    ensures NoMetaAnswer(RecoveryTable.ClaimedEntry(spaces, operation, intent))
  {
    FaultsAreNoMetaCodes(operation, intent);
    hide RecoveryTable.PairOf, RecoveryTable.Outcomes, RecoveryTable.DeclarationFault;
    if RecoveryTable.DeclarationFault(operation, intent, Candidate, "candidate", Active, "active") == None
       && RecoveryTable.PairOf(intent) != None {
      OutcomesAreNoMetaAnswer(spaces, operation, intent, RecoveryTable.ConflictTwo(RecoveryTable.PairOf(intent).value));
    }
  }

  lemma AwaitingIsNoMetaAnswer(spaces: map<Text, SpaceView>, operation: Text, place: Place, intent: Payload)
    ensures NoMetaAnswer(RecoveryTable.AwaitingEntry(spaces, operation, place, intent))
  {
    FaultsAreNoMetaCodes(operation, intent);
    hide RecoveryTable.PairOf, RecoveryTable.FactOf, RecoveryTable.Outcomes, RecoveryTable.DeclarationFault,
         RecoveryTable.PairFault;
    if RecoveryTable.PairOf(intent) != None {
      SessionsAreNoMetaCodes(spaces, RecoveryTable.PairOf(intent).value);
      if RecoveryTable.DeclarationFault(operation, intent, Candidate, "candidate", Active, "active") == None {
        OutcomesAreNoMetaAnswer(spaces, operation, intent,
                                RecoveryTable.ConflictTwo(RecoveryTable.PairOf(intent).value));
      }
    }
  }

  lemma ResolutionIsNoMetaAnswer(spaces: map<Text, SpaceView>, operation: Text, intent: Payload)
    ensures NoMetaAnswer(RecoveryTable.TransferredEntry(spaces, operation, intent))
  {
    FaultsAreNoMetaCodes(operation, intent);
    hide RecoveryTable.PairOf, RecoveryTable.FactOf, RecoveryTable.Outcomes, RecoveryTable.DeclarationFault,
         RecoveryTable.WinnerOf;
    if RecoveryTable.DeclarationFault(operation, intent, Winner, "winner", Loser, "loser") == None
       && RecoveryTable.PairOf(intent) != None && RecoveryTable.WinnerOf(intent) != None {
      OutcomesAreNoMetaAnswer(
        spaces, operation, intent,
        RecoveryTable.ResolutionTwo(RecoveryTable.PairOf(intent).value, RecoveryTable.WinnerOf(intent).value));
    }
  }

  lemma SimpleIsNoMetaAnswer(spaces: map<Text, SpaceView>, place: Place, id: Text, hash: Text, ends: bool)
    ensures NoMetaAnswer(RecoveryTable.SimpleEntry(spaces, place, id, hash, ends))
  {
    hide RecoveryTable.FactOf, RecoveryTable.OutcomeOf;
  }

  /** No entry of the table over the Spaces is an answer of the Meta database. */
  lemma EntryIsNoMetaAnswer(spaces: map<Text, SpaceView>, locator: LocatorRow, row: OperationRow, intent: Payload)
    ensures NoMetaAnswer(RecoveryTable.Entry(spaces, locator, row, intent))
  {
    hide RecoveryTable.IsSimple, PlaceNamed, RecoveryTable.FactOf, RecoveryTable.TransferredEntry,
         RecoveryTable.ClaimedEntry, RecoveryTable.AwaitingEntry, RecoveryTable.SimpleEntry;
    var place, operation := PlaceNamed(locator), Shown(locator.operation);
    ClaimedIsNoMetaAnswer(spaces, operation, intent);
    AwaitingIsNoMetaAnswer(spaces, operation, place, intent);
    ResolutionIsNoMetaAnswer(spaces, operation, intent);
    SimpleIsNoMetaAnswer(spaces, place, Shown(row.id), Shown(row.hash), Is(row.kind, "end"));
  }

  lemma EndsOnce(meta: MetaView, problem: Option<Code>)
    requires Found(meta) && RelationEnds(meta, problem)
    ensures forall other :: RelationEnds(meta, other) ==> other == problem
  {
    hide Stops;
    var row, at := FoundRow(meta), PlaceNamed(meta.locators[0]);
    var links: seq<Text> :| Stops(meta.ops, row, at, links, problem);
    forall other | RelationEnds(meta, other) ensures other == problem {
      var more: seq<Text> :| Stops(meta.ops, row, at, more, other);
      StopsOnce(meta.ops, row, at, links, more, problem, other);
    }
  }

  /** What an answer means: clean and vacant exactly when the readable tables
      hold no locator; each code of the Meta database exactly under its cause;
      and for rows that pass, with an intact relation, the table's entry. */
  ghost predicate Inspected(evidence: Evidence, now: int, decision: Verdict) {
    var meta := evidence.meta;
    && (decision == Clean(Vacant, [], [], None) <==> meta.Tables? && meta.locators == [])
    && (forall code :: IsMetaCode(code) ==> (decision == RecoveryRequired(code) <==> MetaRefuses(meta, now, code)))
    && (Live(meta, now) && RelationEnds(meta, None) ==>
          decision == RecoveryTable.Entry(evidence.spaces, meta.locators[0], FoundRow(meta),
                                          FoundRow(meta).intent.json.fields))
  }

  lemma EarlyAnswer(evidence: Evidence, now: int, decision: Verdict)
    requires Examine(evidence.meta, now) == Decided(decision)
    ensures Inspected(evidence, now, decision)
  {
    hide Examine, MetaRefuses, Live, RelationEnds;
    ExamineIs(evidence.meta, now);
    RelationNeedsRows(evidence.meta, now);
  }

  lemma RelationNeedsRows(meta: MetaView, now: int)
    ensures forall code :: MetaRefuses(meta, now, code) && IsRelationCode(code) ==> Live(meta, now)
  {
    hide Live, RelationEnds;
  }

  lemma LiveRows(meta: MetaView, now: int)
    requires Live(meta, now)
    ensures meta.Tables? && |meta.locators| == 1 && GoodLocator(meta.locators[0]) && Found(meta)
    ensures meta.locators[0].operation.Str? && IsOperationId(meta.locators[0].operation.text)
  {
    hide IsOperationId, AsciiText;
  }

  lemma LateAnswer(evidence: Evidence, now: int, problem: Option<Code>, decision: Verdict)
    requires Live(evidence.meta, now) && RelationEnds(evidence.meta, problem)
    requires problem in {None, Some(RelationCycle), Some(RelationMissing), Some(RelationInvalid)}
    requires decision == if problem != None then RecoveryRequired(problem.value) else
               RecoveryTable.Entry(evidence.spaces, evidence.meta.locators[0], FoundRow(evidence.meta),
                                   FoundRow(evidence.meta).intent.json.fields)
    ensures Inspected(evidence, now, decision)
  {
    hide GoodLocator, GoodOperation, IntentAgrees, Combines, RelationEnds, RecoveryTable.Entry;
    IntentParsed(evidence.meta.locators[0], FoundRow(evidence.meta));
    EndsOnce(evidence.meta, problem);
    CombinesIs(evidence.meta.locators[0].state, FoundRow(evidence.meta).phase, FoundRow(evidence.meta).kind);
    EntryIsNoMetaAnswer(evidence.spaces, evidence.meta.locators[0], FoundRow(evidence.meta),
                        FoundRow(evidence.meta).intent.json.fields);
  }

  /** `inspect_read_only`. */
  method Inspect(evidence: Evidence, now: int) returns (decision: Verdict)
    ensures Answers(evidence, now, decision)
    ensures Inspected(evidence, now, decision)
  {
    hide VerifyIntent, Classify, LocatorValid, OperationShape, PhaseAllowed, ChainOk, Repeats, Follows, IsOperationId,
         Inspected, Live, Stops, Examine, FoundRow, RecoveryTable.Entry, GoodLocator;
    ExamineIs(evidence.meta, now);
    match Examine(evidence.meta, now) {
      case Decided(early) =>
        EarlyAnswer(evidence, now, early);
        decision := early;
      case Proceed(locator, row, intent) =>
        LiveRows(evidence.meta, now);
        LocatorIs(locator);
        RecoveryTable.ClassifyFollows(evidence.spaces, locator, row, intent);
        var problem := VerifyRelationChain(evidence.meta.ops, row, LocatorPlace(locator));
        decision := if problem.Some? then RecoveryRequired(problem.value)
        else Classify(evidence.spaces, locator, row, intent);
        LateAnswer(evidence, now, problem, decision);
    }
  }
}
