/** What the recovery inspector may answer, in terms of the copied columns alone:
    the cause of each refusal, the walk along the relation, and the checks of
    every classification in their order. */
module RecoveryColumns {
  import opened Symbols
  import opened CoordinationRows
  import opened RecoveryEvidence

  predicate Is(value: Json, word: string) {
    value == Str(Plain(word))
  }

  predicate AnyOf(value: Json, words: set<string>) {
    value.Str? && value.text.Plain? && value.text.chars in words
  }

  predicate LegibleColumn(value: Json) {
    value.Str? && AsciiText(value.text)
  }

  /** Text, operation id and hash columns, on the strings a database holds. */
  lemma TextColumns(chars: string)
    ensures AsciiText(Plain(chars)) <==>
              |chars| > 0
              && forall i :: 0 <= i < |chars| ==> 0 < chars[i] as int < 128 && chars[i] != '\n' && chars[i] != '\r'
    ensures IsOperationId(Plain(chars)) <==>
              1 <= |chars| <= 128 && forall i :: 0 <= i < |chars| ==> 33 <= chars[i] as int <= 126
    ensures IsHash(Plain(chars)) <==> |chars| == 64 && forall i :: 0 <= i < |chars| ==> chars[i] in "0123456789abcdef"
  {
    forall c: char ensures HexDigit(c) <==> c in "0123456789abcdef" { HexDigits(c); }
  }

  /** On the strings that hashing, child derivation and `str()` make. */
  lemma MadeColumns(parent: Text, role: Role, fields: map<string, Json>, shown: Json)
    ensures AsciiText(ChildId(parent, role)) == AsciiText(parent) && AsciiText(Digest(fields))
            && !AsciiText(Repr(shown))
    ensures IsOperationId(ChildId(parent, role)) == IsOperationId(parent) && IsOperationId(Digest(fields))
            && !IsOperationId(Repr(shown))
    ensures IsHash(Digest(fields)) && !IsHash(ChildId(parent, role)) && !IsHash(Repr(shown))
  {
  }

  lemma HexDigits(c: char)
    ensures HexDigit(c) <==> c in "0123456789abcdef"
  {
    if HexDigit(c) {
      var digits := "0123456789abcdef";
      var i := if c <= '9' then c as int - '0' as int else c as int - 'a' as int + 10;
      assert digits[i] == c;
    }
  }

  // -------------------------------------------------------------- Meta rows

  predicate GoodLocator(row: LocatorRow) {
    && Is(row.singleton, "active") && AnyOf(row.state, {"claiming", "active", "releasing"})
    && LegibleColumn(row.space) && LegibleColumn(row.session) && LegibleColumn(row.device) && LegibleColumn(row.tab)
    && row.operation.Str? && IsOperationId(row.operation.text)
    && row.epoch.Int? && row.epoch.n >= 1 && row.lease != None && row.updated != None
  }

  predicate GoodOperation(row: OperationRow) {
    && row.id.Str? && IsOperationId(row.id.text) && row.hash.Str? && IsHash(row.hash.text)
    && AnyOf(row.kind, {"start", "heartbeat", "pause", "resume", "end", "takeover", "update_note",
                        "set_current_plan_item", "set_completion_draft", "add_plan_item", "remove_plan_item",
                        "activate_provisional", "resolve_activation_conflict"})
    && AnyOf(row.phase, {"prepared", "claimed", "space_committed", "awaiting_resolution", "transferred", "completed",
                         "rejected", "manual_intervention"})
    && (row.intent.Malformed? || row.intent.Parsed?)
    && row.created != None && row.updated != None && row.created.value <= row.updated.value
    && (row.descriptor == Missing || (row.descriptor.Parsed? && row.descriptor.json.Obj?))
    && (row.related == Null || (row.related.Str? && IsOperationId(row.related.text)))
  }

  /** The six identity fields repeat the columns, and what is neither identity
      nor declaration hashes to the operation's hash. */
  predicate IntentAgrees(locator: LocatorRow, row: OperationRow) {
    row.intent.Parsed? && row.intent.json.Obj? && var intent := row.intent.json.fields;
    && {"command_id", "space_id", "session_id", "ownership_epoch", "payload_hash", "kind"} <= intent.Keys
    && intent["command_id"] == row.id && intent["space_id"] == locator.space
    && intent["session_id"] == locator.session && intent["ownership_epoch"] == locator.epoch
    && intent["payload_hash"] == row.hash && intent["kind"] == row.kind
    && row.hash == Str(Digest(intent - {"command_id", "space_id", "session_id", "ownership_epoch", "payload_hash",
                                        "kind", "pair", "children"}))
  }

  /** The phases an operation may be in under a locator of this state. */
  predicate Combines(state: Json, phase: Json, kind: Json) {
    || (Is(state, "active") && Is(phase, "completed"))
    || (Is(state, "releasing") && Is(phase, "space_committed"))
    || (Is(state, "claiming") && (Is(phase, "claimed") || Is(phase, "awaiting_resolution")))
    || (Is(state, "claiming") && Is(phase, "transferred") && Is(kind, "resolve_activation_conflict"))
  }

  predicate Located(meta: MetaView) {
    meta.Tables? && |meta.locators| == 1 && GoodLocator(meta.locators[0])
  }

  predicate Found(meta: MetaView) {
    Located(meta) && meta.locators[0].operation.text in meta.ops
  }

  function FoundRow(meta: MetaView): OperationRow
    requires Found(meta)
  {
    meta.ops[meta.locators[0].operation.text]
  }

  predicate Shaped(meta: MetaView) {
    Found(meta) && GoodOperation(FoundRow(meta)) && FoundRow(meta).id == meta.locators[0].operation
  }

  predicate Agreed(meta: MetaView) {
    Shaped(meta) && IntentAgrees(meta.locators[0], FoundRow(meta))
  }

  predicate Paired(meta: MetaView) {
    Agreed(meta) && Combines(meta.locators[0].state, FoundRow(meta).phase, FoundRow(meta).kind)
  }

  /** All that is checked before the relation: an active locator's lease is not over. */
  predicate Live(meta: MetaView, now: int) {
    Paired(meta) && (Is(meta.locators[0].state, "active") ==> meta.locators[0].lease.value > now)
  }

  /** Where the operation's relation leads. */
  ghost predicate RelationEnds(meta: MetaView, problem: Option<Code>)
    requires Found(meta)
  {
    exists links: seq<Text> :: Stops(meta.ops, FoundRow(meta), PlaceNamed(meta.locators[0]), links, problem)
  }

  function PlaceNamed(locator: LocatorRow): Place {
    Place(Shown(locator.space), Shown(locator.session))
  }

  /** `str(value)`. */
  function Shown(value: Json): Text {
    match value
    case Str(text) => text
    case other => Repr(other)
  }

  /** The cause of each refusal that the Meta database alone decides. */
  ghost predicate MetaRefuses(meta: MetaView, now: int, code: Code) {
    match code
    case InvalidView => meta == NoPath
    case MissingSchema => meta == Damaged
    case MultipleLocators => meta.Tables? && |meta.locators| >= 2
    case InvalidLocator => meta.Tables? && |meta.locators| == 1 && !Located(meta)
    case OperationMissing => Located(meta) && !Found(meta)
    case InvalidOperation => Found(meta) && !Shaped(meta)
    case IntentInvalid => Shaped(meta) && !Agreed(meta)
    case ManualInterventionNeeded => Agreed(meta) && Is(FoundRow(meta).phase, "manual_intervention")
    case StatePhaseInconsistent => Agreed(meta) && !Paired(meta) && !Is(FoundRow(meta).phase, "manual_intervention")
    case LeaseExpired => Paired(meta) && !Live(meta, now)
    case RelationMissing => Live(meta, now) && RelationEnds(meta, Some(RelationMissing))
    case RelationInvalid => Live(meta, now) && RelationEnds(meta, Some(RelationInvalid))
    case RelationCycle => Live(meta, now) && RelationEnds(meta, Some(RelationCycle))
    case _ => false
  }

  /** Whether a code can come from the Meta database alone. */
  predicate IsMetaCode(code: Code) {
    code in {InvalidView, MissingSchema, MultipleLocators, InvalidLocator, OperationMissing, InvalidOperation,
             IntentInvalid, ManualInterventionNeeded, StatePhaseInconsistent, LeaseExpired, RelationMissing,
             RelationInvalid, RelationCycle}
  }

  // --------------------------------------------------------------- relation

  /** A row the relation may pass through. */
  predicate GoodLink(row: OperationRow) {
    && GoodOperation(row) && row.intent.Parsed? && row.intent.json.Obj?
    && "ownership_epoch" in row.intent.json.fields
    && row.intent.json.fields["ownership_epoch"].Int? && row.intent.json.fields["ownership_epoch"].n >= 1
  }

  predicate NamesPlace(row: OperationRow, place: Place) {
    && row.intent.Parsed? && row.intent.json.Obj? && {"space_id", "session_id"} <= row.intent.json.fields.Keys
    && row.intent.json.fields["space_id"] == Str(place.space)
    && row.intent.json.fields["session_id"] == Str(place.session)
  }

  /** All links name one Session: the locator's, unless a resolution moved it. */
  ghost predicate OnePlace(ops: map<Text, OperationRow>, root: OperationRow, at: Place, links: seq<Text>) {
    exists place: Place ::
      AllName(ops, links, place) && (place == at || Is(root.kind, "resolve_activation_conflict"))
  }

  predicate AllName(ops: map<Text, OperationRow>, links: seq<Text>, place: Place) {
    forall i :: 0 <= i < |links| ==> links[i] in ops && NamesPlace(ops[links[i]], place)
  }

  /** The id a row's relation names, if it names one. */
  function Successor(row: OperationRow): Option<Text> {
    if row.related == Null then None else Some(Shown(row.related))
  }

  function Last(ops: map<Text, OperationRow>, root: OperationRow, links: seq<Text>): OperationRow {
    if links != [] && links[|links| - 1] in ops then ops[links[|links| - 1]] else root
  }

  predicate Meets(root: OperationRow, links: seq<Text>, id: Text) {
    id == Shown(root.id) || id in links
  }

  /** The relation leads from `root` through these rows, all different, all
      well formed, all naming one Session. */
  ghost predicate Walks(ops: map<Text, OperationRow>, root: OperationRow, at: Place, links: seq<Text>) {
    && (forall i :: 0 <= i < |links| ==> links[i] in ops && GoodLink(ops[links[i]]))
    && (forall i :: 0 <= i < |links| ==> Successor(Last(ops, root, links[..i])) == Some(links[i]))
    && (forall i :: 0 <= i < |links| ==> !Meets(root, links[..i], links[i]))
    && OnePlace(ops, root, at, links)
  }

  /** Where the walk stops, and with which problem: it ends, comes back to a row
      it has met, misses one, meets an unfit one, or has eight links. */
  ghost predicate Stops(ops: map<Text, OperationRow>, root: OperationRow, at: Place, links: seq<Text>,
                        problem: Option<Code>) {
    Walks(ops, root, at, links) && |links| <= 8 &&
    if |links| == 8 then problem == Some(RelationInvalid) else
    match Successor(Last(ops, root, links))
    case None => problem == None
    case Some(related) =>
      if Meets(root, links, related) then problem == Some(RelationCycle)
      else if related !in ops then problem == Some(RelationMissing)
      else !(GoodLink(ops[related]) && OnePlace(ops, root, at, links + [related])) && problem == Some(RelationInvalid)
  }

  lemma {:induction false} SameWalk(ops: map<Text, OperationRow>, root: OperationRow, at: Place, one: seq<Text>,
                                    other: seq<Text>, n: nat)
    requires Walks(ops, root, at, one) && Walks(ops, root, at, other) && n <= |one| && n <= |other|
    ensures one[..n] == other[..n]
  {
    hide OnePlace, GoodLink, Successor, Last, Meets;
    if n > 0 {
      SameWalk(ops, root, at, one, other, n - 1);
      assert Some(one[n - 1]) == Some(other[n - 1]);
      assert one[..n] == one[..n - 1] + [one[n - 1]] && other[..n] == other[..n - 1] + [other[n - 1]];
    }
  }

  lemma OnePlacePrefix(ops: map<Text, OperationRow>, root: OperationRow, at: Place, links: seq<Text>, n: nat)
    requires OnePlace(ops, root, at, links) && n <= |links|
    ensures OnePlace(ops, root, at, links[..n])
  {
    hide NamesPlace;
    var place: Place :| AllName(ops, links, place) && (place == at || Is(root.kind, "resolve_activation_conflict"));
    assert AllName(ops, links[..n], place);
  }

  /** The walk cannot go on where it stops. */
  lemma NoFurther(ops: map<Text, OperationRow>, root: OperationRow, at: Place, walk: seq<Text>, n: nat,
                  problem: Option<Code>)
    requires Walks(ops, root, at, walk) && n < |walk| <= 8
    ensures !Stops(ops, root, at, walk[..n], problem)
  {
    hide OnePlace, GoodLink, Successor, Last, Meets, Walks;
    WalksOn(ops, root, at, walk, n);
  }

  lemma WalksOn(ops: map<Text, OperationRow>, root: OperationRow, at: Place, walk: seq<Text>, n: nat)
    requires Walks(ops, root, at, walk) && n < |walk|
    ensures walk[n] in ops && GoodLink(ops[walk[n]]) && Successor(Last(ops, root, walk[..n])) == Some(walk[n])
    ensures !Meets(root, walk[..n], walk[n]) && OnePlace(ops, root, at, walk[..n] + [walk[n]])
  {
    hide OnePlace, GoodLink, Successor, Last, Meets;
    OnePlacePrefix(ops, root, at, walk, n + 1);
    assert walk[..n + 1] == walk[..n] + [walk[n]];
  }

  /** There is one place where it stops, and one problem. */
  lemma StopsOnce(ops: map<Text, OperationRow>, root: OperationRow, at: Place, one: seq<Text>, other: seq<Text>,
                  problem: Option<Code>, another: Option<Code>)
    requires Stops(ops, root, at, one, problem) && Stops(ops, root, at, other, another)
    ensures one == other && problem == another
  {
    var n := if |one| <= |other| then |one| else |other|;
    SameWalk(ops, root, at, one, other, n);
    hide Walks, OnePlace, GoodLink, Successor, Last, Meets;
    assert one[..|one|] == one && other[..|other|] == other;
    if n < |other| { NoFurther(ops, root, at, other, n, problem); }
    if n < |one| { NoFurther(ops, root, at, one, n, another); }
  }
}
