/** The read-only recovery inspector. Every check that is one Python function
    is one function here; the two loops are methods proved against them. */
module RecoveryAuthority {
  import opened Symbols
  import opened CoordinationRows
  import opened RecoveryEvidence
  import RecoveryColumns

  // ------------------------------------------------------------------ intent

  /** `_verify_intent`: identity columns agree with the rows, and the business
      subset hashes to the operation's payload hash. */
  function VerifyIntent(locator: LocatorRow, row: OperationRow): Option<Payload> {
    if !row.intent.Parsed? || !row.intent.json.Obj? then None else
    var intent := row.intent.json.fields;
    if && row.id.Str? && Get(intent, "command_id") == row.id
       && locator.space.Str? && Get(intent, "space_id") == locator.space
       && locator.session.Str? && Get(intent, "session_id") == locator.session
       && locator.epoch.Int? && Get(intent, "ownership_epoch") == locator.epoch
       && row.hash.Str? && Get(intent, "payload_hash") == row.hash
       && row.kind.Str? && Get(intent, "kind") == row.kind
       && row.hash.text == Digest(Without(intent, IDENTITY + NON_BUSINESS)) then Some(intent)
    else None
  }

  /** `_decode_pair`. */
  function DecodePair(intent: Payload): Option<Pair> {
    var raw := Get(intent, "pair");
    if !raw.Obj? then None else
    var active, candidate := Get(raw.fields, "active"), Get(raw.fields, "candidate");
    if !active.Obj? || !candidate.Obj? then None else
    var aSpace, aSession := Get(active.fields, "space_id"), Get(active.fields, "session_id");
    var cSpace, cSession := Get(candidate.fields, "space_id"), Get(candidate.fields, "session_id");
    if Filled(aSpace) && Filled(aSession) && Filled(cSpace) && Filled(cSession) then
      Some(Pair(Place(aSpace.text, aSession.text), Place(cSpace.text, cSession.text)))
    else None
  }

  predicate Filled(value: Json) {
    value.Str? && !Empty(value.text)
  }

  // ---------------------------------------------------------------- children

  predicate DeclarationOk(value: Json) {
    && value.Obj?
    && OperationIdColumn(Get(value.fields, "operation_id")) && HashColumn(Get(value.fields, "payload_hash"))
  }

  /** `_decode_children`. */
  function DecodeChildren(intent: Payload): Option<map<string, Declared>> {
    var raw := Get(intent, "children");
    if !raw.Obj? || raw.fields == map[] then None
    else if exists role :: role in raw.fields && (role !in CHILD_ROLES || !DeclarationOk(raw.fields[role])) then None
    else Some(map role | role in raw.fields ::
                Declared(PyStr(Get(FieldsOf(raw.fields[role]), "operation_id")),
                         PyStr(Get(FieldsOf(raw.fields[role]), "payload_hash"))))
  }

  function FieldsOf(value: Json): Payload {
    if value.Obj? then value.fields else map[]
  }

  function RoleNamed(role: string): Option<Role> {
    match role
    case "candidate" => Some(Candidate)
    case "active" => Some(Active)
    case "winner" => Some(Winner)
    case "loser" => Some(Loser)
    case _ => None
  }

  /** One role of `_verify_child_derivation`. */
  function DerivationProblem(parent: Text, children: Payload, role: string): Option<Code> {
    if !Get(children, role).Obj? then Some(ChildrenDeclarationInvalid)
    else if RoleNamed(role).None? || !IsOperationId(parent) then Some(ChildIdDerivationUnproven)
    else if PyStr(Get(Get(children, role).fields, "operation_id")) != ChildId(parent, RoleNamed(role).value) then
      Some(ChildIdDerivationMismatch)
    else None
  }

  /** `_verify_child_derivation`. */
  function DerivationProblems(parent: Text, children: Payload, roles: seq<string>): (problem: Option<Code>)
    ensures problem.None? <==> forall i :: 0 <= i < |roles| ==> DerivationProblem(parent, children, roles[i]).None?
  {
    if roles == [] then None
    else if DerivationProblem(parent, children, roles[0]).Some? then DerivationProblem(parent, children, roles[0])
    else DerivationProblems(parent, children, roles[1..])
  }

  /** `_child_identity_for_role`. */
  function ChildPlace(pair: Pair, role: string, intent: Payload): Option<Place> {
    if role == "active" then Some(pair.active)
    else if role == "candidate" then Some(pair.candidate)
    else
      var winner := Get(intent, "winner_role");
      if winner != Str(Plain("active")) && winner != Str(Plain("candidate")) then None
      else if role == "winner" then Some(if winner == Str(Plain("active")) then pair.active else pair.candidate)
      else if role == "loser" then Some(if winner == Str(Plain("active")) then pair.candidate else pair.active)
      else None
  }

  /** `_verify_child`. */
  function VerifyChild(spaces: map<Text, SpaceView>, role: string, place: Place, id: Text,
                       hash: Text): Result<ChildOutcome, Code> {
    if place.space !in spaces then Err(SpaceViewMissing) else
    match spaces[place.space]
    case Unreadable => Err(SpaceUnreadable)
    case Readable(envelopes, receipts, _) =>
      if id !in envelopes then Ok(ChildOutcome(role, place, id, false, None)) else
      var envelope := envelopes[id];
      if envelope.space != Str(place.space) || envelope.session != Str(place.session) then Err(ChildIdentityMismatch)
      else if PyStr(envelope.hash) != hash then Err(ChildPayloadHashMismatch)
      else Ok(ChildOutcome(role, place, id, true, if id in receipts then Some(PyStr(receipts[id])) else None))
  }

  /** The verified outcome of one named role, or why it has none. */
  function NamedOutcome(spaces: map<Text, SpaceView>, intent: Payload, children: map<string, Declared>, pair: Pair,
                        role: string): Result<ChildOutcome, Code>
    requires role in children
  {
    match ChildPlace(pair, role, intent)
    case None => Err(ConflictPairInvalid)
    case Some(place) => VerifyChild(spaces, role, place, children[role].id, children[role].hash)
  }

  function NamedOutcomes(spaces: map<Text, SpaceView>, intent: Payload, children: map<string, Declared>, pair: Pair,
                         roles: seq<string>): (r: Result<seq<ChildOutcome>, Code>)
    requires forall i :: 0 <= i < |roles| ==> roles[i] in children
    ensures r.Ok? <==> forall i :: 0 <= i < |roles| ==> NamedOutcome(spaces, intent, children, pair, roles[i]).Ok?
    ensures r.Ok? ==> |r.value| == |roles|
    ensures r.Ok? ==> forall i ::
              0 <= i < |roles| ==> r.value[i] == NamedOutcome(spaces, intent, children, pair, roles[i]).value
  {
    if roles == [] then Ok([]) else
    match NamedOutcomes(spaces, intent, children, pair, roles[..|roles| - 1])
    case Err(code) => Err(code)
    case Ok(earlier) =>
      match NamedOutcome(spaces, intent, children, pair, roles[|roles| - 1])
      case Err(code) => Err(code)
      case Ok(outcome) => Ok(earlier + [outcome])
  }

  predicate DistinctIds(children: map<string, Declared>, roles: seq<string>) {
    forall i, j ::
      0 <= i < j < |roles| && roles[i] in children && roles[j] in children ==>
        children[roles[i]].id != children[roles[j]].id
  }

  /** `_verify_named_children`, up to its loop. */
  function NamedChildren(spaces: map<Text, SpaceView>, operation: Text, intent: Payload,
                         roles: seq<string>): Result<seq<ChildOutcome>, Code> {
    match DecodeChildren(intent)
    case None => Err(if "children" in intent then ChildrenDeclarationInvalid else ChildrenDeclarationMissing)
    case Some(children) =>
      if exists i :: 0 <= i < |roles| && roles[i] !in children then Err(ChildrenDeclarationMissing)
      else if !DistinctIds(children, roles) then Err(ChildrenDeclarationConflict)
      else if DerivationProblems(operation, FieldsOf(Get(intent, "children")), roles).Some? then
        Err(DerivationProblems(operation, FieldsOf(Get(intent, "children")), roles).value)
      else if DecodePair(intent).None? then Err(ConflictPairMissing)
      else NamedOutcomes(spaces, intent, children, DecodePair(intent).value, roles)
  }

  method VerifyNamedChildren(spaces: map<Text, SpaceView>, operation: Text, intent: Payload, roles: seq<string>)
    returns (r: Result<seq<ChildOutcome>, Code>)
    ensures r == NamedChildren(spaces, operation, intent, roles)
  {
    hide DecodeChildren, DerivationProblems, DecodePair, NamedOutcomes, DistinctIds;
    var children := DecodeChildren(intent);
    if children.None? {
      return Err(if "children" in intent then ChildrenDeclarationInvalid else ChildrenDeclarationMissing);
    }
    if exists i :: 0 <= i < |roles| && roles[i] !in children.value { return Err(ChildrenDeclarationMissing); }
    if !DistinctIds(children.value, roles) { return Err(ChildrenDeclarationConflict); }
    var derivation := DerivationProblems(operation, FieldsOf(Get(intent, "children")), roles);
    if derivation.Some? { return Err(derivation.value); }
    var pair := DecodePair(intent);
    if pair.None? { return Err(ConflictPairMissing); }
    r := VerifyRoles(spaces, intent, children.value, pair.value, roles);
  }

  /** Its loop: the first role without a verified child ends it. */
  method VerifyRoles(spaces: map<Text, SpaceView>, intent: Payload, children: map<string, Declared>, pair: Pair,
                     roles: seq<string>)
    returns (r: Result<seq<ChildOutcome>, Code>)
    requires forall i :: 0 <= i < |roles| ==> roles[i] in children
    ensures r == NamedOutcomes(spaces, intent, children, pair, roles)
  {
    hide NamedOutcome;
    var outcomes: seq<ChildOutcome> := [];
    var i := 0;
    while i < |roles|
      invariant 0 <= i <= |roles|
      invariant NamedOutcomes(spaces, intent, children, pair, roles[..i]) == Ok(outcomes)
    {
      assert roles[..i + 1][..i] == roles[..i];
      var outcome := NamedOutcome(spaces, intent, children, pair, roles[i]);
      if outcome.Err? {
        FirstProblem(spaces, intent, children, pair, roles, i);
        return Err(outcome.error);
      }
      outcomes := outcomes + [outcome.value];
      i := i + 1;
    }
    assert roles[..i] == roles;
    r := Ok(outcomes);
  }

  /** The first role without a verified child decides the code. */
  lemma {:induction false} FirstProblem(spaces: map<Text, SpaceView>, intent: Payload, children: map<string, Declared>,
                                        pair: Pair, roles: seq<string>, i: nat)
    requires i < |roles| && forall j :: 0 <= j < |roles| ==> roles[j] in children
    requires NamedOutcomes(spaces, intent, children, pair, roles[..i]).Ok?
    requires NamedOutcome(spaces, intent, children, pair, roles[i]).Err?
    ensures NamedOutcomes(spaces, intent, children, pair, roles) ==
              Err(NamedOutcome(spaces, intent, children, pair, roles[i]).error)
  {
    var n := |roles| - 1;
    if i == n {
    } else {
      assert roles[..n][..i] == roles[..i];
      FirstProblem(spaces, intent, children, pair, roles[..n], i);
    }
  }

  // ---------------------------------------------------------- relation chain

  const MAX_CHAIN: nat := 8

  /** A link's own well-formedness. */
  predicate LinkOk(row: OperationRow) {
    && OperationShape(row)
    && row.intent.Parsed? && row.intent.json.Obj?
    && PositiveInt(Get(row.intent.json.fields, "ownership_epoch"))
  }

  function LinkPlace(row: OperationRow): Place {
    if row.intent.Parsed? && row.intent.json.Obj?
    then Place(TextOr(Get(row.intent.json.fields, "space_id")), TextOr(Get(row.intent.json.fields, "session_id")))
    else Place(Plain(""), Plain(""))
  }

  /** `str(value or "")`. */
  function TextOr(value: Json): Text {
    if Truthy(value) then PyStr(value) else Plain("")
  }

  predicate LinkAgrees(row: OperationRow, place: Place) {
    && row.intent.Parsed? && row.intent.json.Obj?
    && Get(row.intent.json.fields, "space_id") == Str(place.space)
    && Get(row.intent.json.fields, "session_id") == Str(place.session)
  }

  predicate IsResolution(row: OperationRow) {
    PyStr(row.kind) == Plain("resolve_activation_conflict")
  }

  /** `_verify_relation_chain`. */
  method VerifyRelationChain(ops: map<Text, OperationRow>, root: OperationRow, locatorPlace: Place)
    returns (problem: Option<Code>)
    ensures problem.None? <==> exists links: seq<Text> :: ChainOk(ops, root, locatorPlace, links)
    ensures problem == Some(RelationCycle) ==> exists links: seq<Text> :: Repeats(ops, root, links)
    ensures problem == Some(RelationMissing) ==>
              exists links: seq<Text> :: Follows(ops, root, links) && NextLink(LastRow(ops, root, links)).Some?
                && NextLink(LastRow(ops, root, links)).value !in ops
    ensures problem in {None, Some(RelationCycle), Some(RelationMissing), Some(RelationInvalid)}
    ensures exists links: seq<Text> :: RecoveryColumns.Stops(ops, root, locatorPlace, links, problem)
  {
    hide LinkOk, LinkAgrees, LinkPlace, NextLink, IsResolution, RecoveryColumns.Stops, Walking, Met, Follows, ChainOk,
         Repeats;
    var seen := {PyStr(root.id)};
    var current := root;
    var rootIsResolution := IsResolution(root);
    var place := locatorPlace;
    ghost var links: seq<Text> := [];
    WalkBegins(ops, root, locatorPlace);
    for step := 0 to MAX_CHAIN
      invariant |links| == step && Walking(ops, root, locatorPlace, links, current, seen, rootIsResolution, place)
    {
      var next := NextLink(current);
      if next.None? {
        WalkStops(ops, root, locatorPlace, links, current, seen, rootIsResolution, place, None);
        return None;
      }
      var related := next.value;
      if related in seen {
        WalkStops(ops, root, locatorPlace, links, current, seen, rootIsResolution, place, Some(RelationCycle));
        return Some(RelationCycle);
      }
      if related !in ops {
        WalkStops(ops, root, locatorPlace, links, current, seen, rootIsResolution, place, Some(RelationMissing));
        return Some(RelationMissing);
      }
      var child := ops[related];
      var anchor := if rootIsResolution then LinkPlace(child) else place;
      if !LinkOk(child) || !LinkAgrees(child, anchor) {
        WalkStops(ops, root, locatorPlace, links, current, seen, rootIsResolution, place, Some(RelationInvalid));
        return Some(RelationInvalid);
      }
      WalkGoesOn(ops, root, locatorPlace, links, current, seen, rootIsResolution, place);
      rootIsResolution, place, seen, current := false, anchor, seen + {related}, child;
      links := links + [related];
    }
    WalkStops(ops, root, locatorPlace, links, current, seen, rootIsResolution, place, Some(RelationInvalid));
    problem := Some(RelationInvalid);
  }

  /** What the loop's variables are after the links it has followed. */
  ghost predicate Walking(ops: map<Text, OperationRow>, root: OperationRow, locatorPlace: Place, links: seq<Text>,
                          current: OperationRow, seen: set<Text>, rootIsResolution: bool, place: Place) {
    && Follows(ops, root, links) && Distinct(root, links) && AllAgree(ops, links, place)
    && current == LastRow(ops, root, links) && seen == Visited(root, links)
    && rootIsResolution == (IsResolution(root) && links == []) && place == Anchor(ops, root, locatorPlace, links)
  }

  lemma WalkBegins(ops: map<Text, OperationRow>, root: OperationRow, locatorPlace: Place)
    ensures Walking(ops, root, locatorPlace, [], root, {PyStr(root.id)}, IsResolution(root), locatorPlace)
  {
  }

  lemma WalkGoesOn(ops: map<Text, OperationRow>, root: OperationRow, locatorPlace: Place, links: seq<Text>,
                   current: OperationRow, seen: set<Text>, rootIsResolution: bool, place: Place)
    requires Walking(ops, root, locatorPlace, links, current, seen, rootIsResolution, place)
    requires NextLink(current).Some? && NextLink(current).value in ops && NextLink(current).value !in seen
    requires var child := ops[NextLink(current).value];
             LinkOk(child) && LinkAgrees(child, if rootIsResolution then LinkPlace(child) else place)
    ensures var related := NextLink(current).value;
            Walking(ops, root, locatorPlace, links + [related], ops[related], seen + {related}, false,
                    if rootIsResolution then LinkPlace(ops[related]) else place)
  {
    hide LinkOk, LinkAgrees, LinkPlace, NextLink, PyStr, IsResolution;
    var related := NextLink(current).value;
    Extend(ops, root, links, related);
    Appended(ops, root, locatorPlace, links, related);
    hide Met, Follows;
    var all := links + [related];
    assert all[|links|] == related && forall i :: 0 <= i < |links| ==> all[i] == links[i];
  }

  lemma WalkStops(ops: map<Text, OperationRow>, root: OperationRow, locatorPlace: Place, links: seq<Text>,
                  current: OperationRow, seen: set<Text>, rootIsResolution: bool, place: Place, problem: Option<Code>)
    requires |links| <= MAX_CHAIN && Walking(ops, root, locatorPlace, links, current, seen, rootIsResolution, place)
    requires if |links| == MAX_CHAIN then problem == Some(RelationInvalid) else
             match NextLink(current)
             case None => problem == None
             case Some(related) =>
               if related in seen then problem == Some(RelationCycle)
               else if related !in ops then problem == Some(RelationMissing)
               else var child := ops[related];
                    problem == Some(RelationInvalid)
                    && !(LinkOk(child) && LinkAgrees(child, if rootIsResolution then LinkPlace(child) else place))
    ensures RecoveryColumns.Stops(ops, root, locatorPlace, links, problem)
    ensures problem.None? <==> exists other: seq<Text> :: ChainOk(ops, root, locatorPlace, other)
    ensures problem == Some(RelationCycle) ==> exists other: seq<Text> :: Repeats(ops, root, other)
    ensures problem == Some(RelationMissing) ==>
              Follows(ops, root, links) && NextLink(LastRow(ops, root, links)).Some?
              && NextLink(LastRow(ops, root, links)).value !in ops
  {
    hide LinkOk, LinkAgrees, LinkPlace, NextLink, PyStr, IsResolution, RecoveryColumns.Stops, Met, Follows;
    assert Halts(ops, root, locatorPlace, links, problem);
    StopsHere(ops, root, locatorPlace, links, problem);
    if problem.None? {
      assert ChainOk(ops, root, locatorPlace, links);
    } else {
      NoChain(ops, root, locatorPlace, links, problem);
    }
  }

  /** A walk that stops with a problem is no part of an accepted chain. */
  lemma NoChain(ops: map<Text, OperationRow>, root: OperationRow, locatorPlace: Place, links: seq<Text>,
                problem: Option<Code>)
    requires |links| <= MAX_CHAIN && Follows(ops, root, links) && Halts(ops, root, locatorPlace, links, problem)
    requires problem.Some?
    ensures forall other: seq<Text> :: !ChainOk(ops, root, locatorPlace, other)
    ensures problem == Some(RelationCycle) ==> exists other: seq<Text> :: Repeats(ops, root, other)
  {
    hide LinkOk, LinkAgrees, LinkPlace, NextLink, PyStr, IsResolution;
    if |links| < MAX_CHAIN && NextLink(LastRow(ops, root, links)).value in Visited(root, links) {
      var all := links + [NextLink(LastRow(ops, root, links)).value];
      assert Repeats(ops, root, all) by { Extend(ops, root, links, all[|links|]); }
      CyclicNeverAccepted(ops, root, locatorPlace, all);
    } else {
      forall other: seq<Text> ensures !ChainOk(ops, root, locatorPlace, other) {
        if |links| == MAX_CHAIN {
          ChainsAgree(ops, root, locatorPlace, links, other);
        } else if ChainOk(ops, root, locatorPlace, other) {
          NextAgrees(ops, root, locatorPlace, links, other);
          NextFails(ops, root, locatorPlace, links, other);
        }
      }
    }
  }

  lemma NextFails(ops: map<Text, OperationRow>, root: OperationRow, locatorPlace: Place, links: seq<Text>,
                  chain: seq<Text>)
    requires ChainOk(ops, root, locatorPlace, chain) && |links| < |chain| && chain[..|links|] == links
    ensures var related := chain[|links|];
            related in ops && LinkOk(ops[related])
            && LinkAgrees(ops[related], Anchor(ops, root, locatorPlace, links + [related]))
  {
    hide LinkOk, LinkAgrees, LinkPlace, NextLink, PyStr, IsResolution, Met, Distinct;
    var all := links + [chain[|links|]];
    assert all[0] == chain[0];
  }

  /** Why the walk along `links` goes no further, if it does not. */
  predicate Halts(ops: map<Text, OperationRow>, root: OperationRow, locatorPlace: Place, links: seq<Text>,
                  problem: Option<Code>) {
    if |links| == MAX_CHAIN then problem == Some(RelationInvalid) else
    match NextLink(LastRow(ops, root, links))
    case None => problem == None
    case Some(related) =>
      if related in Visited(root, links) then problem == Some(RelationCycle)
      else if related !in ops then problem == Some(RelationMissing)
      else problem == Some(RelationInvalid)
           && !(LinkOk(ops[related])
                && LinkAgrees(ops[related], Anchor(ops, root, locatorPlace, links + [related])))
  }

  lemma LinkIs(row: OperationRow, place: Place)
    ensures LinkOk(row) <==> RecoveryColumns.GoodLink(row)
    ensures LinkAgrees(row, place) <==> RecoveryColumns.NamesPlace(row, place)
    ensures LinkAgrees(row, place) ==> LinkPlace(row) == place
    ensures NextLink(row) == RecoveryColumns.Successor(row) && PyStr(row.id) == RecoveryColumns.Shown(row.id)
    ensures IsResolution(row) <==> RecoveryColumns.Is(row.kind, "resolve_activation_conflict")
  {
    ShapeIs(row);
    hide OperationShape, RecoveryColumns.GoodOperation;
  }

  lemma ShapeIs(row: OperationRow)
    ensures OperationShape(row) <==> RecoveryColumns.GoodOperation(row)
  {
    hide IsOperationId, IsHash;
  }

  lemma OnePlaceIff(ops: map<Text, OperationRow>, root: OperationRow, locatorPlace: Place, links: seq<Text>)
    ensures RecoveryColumns.OnePlace(ops, root, locatorPlace, links) <==>
              AllAgree(ops, links, Anchor(ops, root, locatorPlace, links))
  {
    hide LinkAgrees, LinkPlace, IsResolution, RecoveryColumns.NamesPlace, RecoveryColumns.Is;
    forall row, place ensures LinkAgrees(row, place) <==> RecoveryColumns.NamesPlace(row, place) { LinkIs(row, place); }
    LinkIs(root, locatorPlace);
    if RecoveryColumns.OnePlace(ops, root, locatorPlace, links) {
      var place: Place :| RecoveryColumns.AllName(ops, links, place)
          && (place == locatorPlace || RecoveryColumns.Is(root.kind, "resolve_activation_conflict"));
      if links != [] { LinkIs(ops[links[0]], place); }
    }
    if AllAgree(ops, links, Anchor(ops, root, locatorPlace, links)) {
      assert RecoveryColumns.AllName(ops, links, Anchor(ops, root, locatorPlace, links));
    }
  }

  lemma WalkIs(ops: map<Text, OperationRow>, root: OperationRow, locatorPlace: Place, links: seq<Text>)
    requires Follows(ops, root, links) && Distinct(root, links)
             && AllAgree(ops, links, Anchor(ops, root, locatorPlace, links))
    ensures RecoveryColumns.Walks(ops, root, locatorPlace, links)
  {
    OnePlaceIff(ops, root, locatorPlace, links);
    hide LinkAgrees, AllAgree, Anchor, LinkOk, RecoveryColumns.GoodLink, RecoveryColumns.OnePlace,
         RecoveryColumns.Successor, NextLink, RecoveryColumns.Shown, PyStr;
    LinkIs(root, locatorPlace);
    forall i | 0 <= i < |links|
      ensures RecoveryColumns.Successor(RecoveryColumns.Last(ops, root, links[..i])) == Some(links[i])
      ensures links[i] in ops && RecoveryColumns.GoodLink(ops[links[i]])
    {
      LinkIs(ops[links[i]], locatorPlace);
      LinkIs(LastRow(ops, root, links[..i]), locatorPlace);
    }
  }

  lemma StopsHere(ops: map<Text, OperationRow>, root: OperationRow, locatorPlace: Place, links: seq<Text>,
                  problem: Option<Code>)
    requires |links| <= MAX_CHAIN && Follows(ops, root, links) && Distinct(root, links)
    requires AllAgree(ops, links, Anchor(ops, root, locatorPlace, links))
    requires Halts(ops, root, locatorPlace, links, problem)
    ensures RecoveryColumns.Stops(ops, root, locatorPlace, links, problem)
  {
    WalkIs(ops, root, locatorPlace, links);
    var last := LastRow(ops, root, links);
    LinkIs(root, locatorPlace);
    LinkIs(last, locatorPlace);
    if NextLink(last).Some? {
      var related := NextLink(last).value;
      OnePlaceIff(ops, root, locatorPlace, links + [related]);
      if related in ops { LinkIs(ops[related], Anchor(ops, root, locatorPlace, links + [related])); }
      Appended(ops, root, locatorPlace, links, related);
    }
    hide LinkAgrees, AllAgree, Anchor, LinkOk, RecoveryColumns.GoodLink, RecoveryColumns.OnePlace, Follows,
         RecoveryColumns.Successor, NextLink, RecoveryColumns.Shown, PyStr, RecoveryColumns.Walks;
  }

  lemma Appended(ops: map<Text, OperationRow>, root: OperationRow, locatorPlace: Place, links: seq<Text>, related: Text)
    requires AllAgree(ops, links, Anchor(ops, root, locatorPlace, links))
    ensures var place := Anchor(ops, root, locatorPlace, links + [related]);
            AllAgree(ops, links + [related], place) <==> related in ops && LinkAgrees(ops[related], place)
  {
    hide LinkAgrees, LinkPlace, IsResolution;
    var all := links + [related];
    assert all[|links|] == related && forall i :: 0 <= i < |links| ==> all[i] == links[i];
  }

  /** The `related_operation_id` of a row, as text. */
  function NextLink(row: OperationRow): Option<Text> {
    if row.related == Null then None else Some(PyStr(row.related))
  }

  function LastRow(ops: map<Text, OperationRow>, root: OperationRow, links: seq<Text>): OperationRow {
    if links == [] || links[|links| - 1] !in ops then root else ops[links[|links| - 1]]
  }

  /** `links` are the ids met when following the relation from `root`; all but
      possibly the last name existing rows. */
  ghost predicate Met(ops: map<Text, OperationRow>, root: OperationRow, links: seq<Text>) {
    && (forall i :: 0 <= i < |links| - 1 ==> links[i] in ops)
    && (forall i :: 0 <= i < |links| ==> NextLink(LastRow(ops, root, links[..i])) == Some(links[i]))
  }

  /** As `Met`, and every row exists and is well formed. */
  ghost predicate Follows(ops: map<Text, OperationRow>, root: OperationRow, links: seq<Text>) {
    && Met(ops, root, links)
    && (forall i :: 0 <= i < |links| ==> links[i] in ops && LinkOk(ops[links[i]]))
  }

  function Visited(root: OperationRow, links: seq<Text>): set<Text> {
    {PyStr(root.id)} + set i | 0 <= i < |links| :: links[i]
  }

  predicate Distinct(root: OperationRow, links: seq<Text>) {
    && (forall i, j :: 0 <= i < j < |links| ==> links[i] != links[j])
    && (forall i :: 0 <= i < |links| ==> links[i] != PyStr(root.id))
  }

  /** The Space and Session every link has to name: the locator's, unless the
      root is a resolution, whose first link sets it. */
  function Anchor(ops: map<Text, OperationRow>, root: OperationRow, locatorPlace: Place, links: seq<Text>): Place {
    if IsResolution(root) && links != [] && links[0] in ops then LinkPlace(ops[links[0]]) else locatorPlace
  }

  predicate AllAgree(ops: map<Text, OperationRow>, links: seq<Text>, place: Place) {
    forall i :: 0 <= i < |links| ==> links[i] in ops && LinkAgrees(ops[links[i]], place)
  }

  /** The relation ends after at most seven links through pairwise distinct,
      well-formed rows that agree on one identity. */
  ghost predicate ChainOk(ops: map<Text, OperationRow>, root: OperationRow, locatorPlace: Place, links: seq<Text>) {
    && |links| < MAX_CHAIN
    && Follows(ops, root, links) && Distinct(root, links)
    && AllAgree(ops, links, Anchor(ops, root, locatorPlace, links))
    && NextLink(LastRow(ops, root, links)).None?
  }

  /** Following the relation comes back to a row it has met. */
  ghost predicate Repeats(ops: map<Text, OperationRow>, root: OperationRow, links: seq<Text>) {
    && links != [] && Met(ops, root, links)
    && links[|links| - 1] in Visited(root, links[..|links| - 1])
  }

  lemma Extend(ops: map<Text, OperationRow>, root: OperationRow, links: seq<Text>, related: Text)
    requires Follows(ops, root, links) && NextLink(LastRow(ops, root, links)) == Some(related)
    ensures Met(ops, root, links + [related])
    ensures related in ops && LinkOk(ops[related]) ==> Follows(ops, root, links + [related])
  {
    var all := links + [related];
    forall i | 0 <= i < |all| ensures NextLink(LastRow(ops, root, all[..i])) == Some(all[i]) {
      assert all[..i] == links[..i];
      if i == |links| { assert links[..i] == links; }
    }
  }

  /** The relation is a function: two walks share their common prefix. */
  lemma {:induction false} SamePath(ops: map<Text, OperationRow>, root: OperationRow, one: seq<Text>, other: seq<Text>,
                                    n: nat)
    requires Met(ops, root, one) && Met(ops, root, other) && n <= |one| && n <= |other|
    ensures one[..n] == other[..n]
  {
    if n > 0 {
      SamePath(ops, root, one, other, n - 1);
      assert one[..n] == one[..n - 1] + [one[n - 1]] && other[..n] == other[..n - 1] + [other[n - 1]];
    }
  }

  /** The shorter of two walks is where the longer one has been. */
  lemma Compare(ops: map<Text, OperationRow>, root: OperationRow, short: seq<Text>, long: seq<Text>)
    requires Met(ops, root, short) && Met(ops, root, long) && |short| <= |long|
    ensures long[..|short|] == short
    ensures |short| < |long| ==> NextLink(LastRow(ops, root, short)) == Some(long[|short|])
  {
    hide NextLink, LastRow;
    SamePath(ops, root, short, long, |short|);
    assert short[..|short|] == short;
    if |short| < |long| {
      assert NextLink(LastRow(ops, root, long[..|short|])) == Some(long[|short|]);
    }
  }

  /** An accepted chain cannot be longer or shorter than a walk that has met
      an id again or has too many links. */
  lemma ChainsAgree(ops: map<Text, OperationRow>, root: OperationRow, locatorPlace: Place, walk: seq<Text>,
                    chain: seq<Text>)
    requires Met(ops, root, walk)
    requires Repeats(ops, root, walk) || |walk| >= MAX_CHAIN
    ensures !ChainOk(ops, root, locatorPlace, chain)
  {
    hide LinkOk, AllAgree, Anchor, NextLink, LastRow;
    if ChainOk(ops, root, locatorPlace, chain) {
      if |chain| < |walk| {
        Compare(ops, root, chain, walk);
      } else {
        Compare(ops, root, walk, chain);
        PrefixRepeats(root, walk, chain);
      }
    }
  }

  lemma PrefixRepeats(root: OperationRow, walk: seq<Text>, chain: seq<Text>)
    requires walk != [] && |walk| <= |chain| && chain[..|walk|] == walk
    requires Distinct(root, chain)
    ensures walk[|walk| - 1] !in Visited(root, walk[..|walk| - 1])
  {
    var last := |walk| - 1;
    assert walk[last] == chain[last];
    forall j | 0 <= j < last ensures walk[..last][j] != walk[last] {
      assert walk[j] == chain[j];
    }
  }

  lemma NextAgrees(ops: map<Text, OperationRow>, root: OperationRow, locatorPlace: Place, links: seq<Text>,
                   chain: seq<Text>)
    requires Follows(ops, root, links) && NextLink(LastRow(ops, root, links)).Some?
             && ChainOk(ops, root, locatorPlace, chain)
    ensures |links| < |chain| && chain[..|links|] == links
            && chain[|links|] == NextLink(LastRow(ops, root, links)).value
  {
    hide LinkOk, AllAgree, Anchor, NextLink, LastRow, Distinct;
    if |chain| <= |links| {
      assert links[..|links|] == links;
      Compare(ops, root, chain, links);
    } else {
      Compare(ops, root, links, chain);
    }
  }

  /** A relation that comes back to a row it has met, however late, is never accepted. */
  lemma CyclicNeverAccepted(ops: map<Text, OperationRow>, root: OperationRow, locatorPlace: Place, walk: seq<Text>)
    requires Repeats(ops, root, walk)
    ensures forall links: seq<Text> :: !ChainOk(ops, root, locatorPlace, links)
  {
    forall links: seq<Text> ensures !ChainOk(ops, root, locatorPlace, links) {
      ChainsAgree(ops, root, locatorPlace, walk, links);
    }
  }

  // ---------------------------------------------------------- classification

  predicate Reads(value: Json, word: string) {
    PyStr(value) == Plain(word)
  }

  /** `_load_session_fact_for`. */
  function LoadFact(spaces: map<Text, SpaceView>, place: Place): Result<SessionFact, Code> {
    if place.space !in spaces then Err(SpaceViewMissing) else
    match spaces[place.space]
    case Unreadable => Err(SpaceUnreadable)
    case Readable(_, _, sessions) =>
      if place.session !in sessions then Ok(SessionFact(place, false, false, Null, Null, Null)) else
      var row := sessions[place.session];
      Ok(SessionFact(place, true, row.endedAt != Null, row.ownership, row.validity, row.reason))
  }

  function LocatorPlace(locator: LocatorRow): Place {
    Place(PyStr(locator.space), PyStr(locator.session))
  }

  /** A locator whose Session must exist and have, or not have, ended. */
  function ClassifyBySession(spaces: map<Text, SpaceView>, locator: LocatorRow, ended: bool,
                             outcomes: seq<ChildOutcome>, classification: Classification): Verdict {
    match LoadFact(spaces, LocatorPlace(locator))
    case Err(code) => RecoveryRequired(code)
    case Ok(fact) =>
      if !fact.present then RecoveryRequired(SessionMissing)
      else if fact.ended && !ended then RecoveryRequired(SessionUnexpectedTerminal)
      else if !fact.ended && ended then RecoveryRequired(SessionUnexpectedNonterminal)
      else Clean(classification, outcomes, [fact], None)
  }

  /** `_classify_claimed` for an operation whose only child has its own id. */
  function ClassifyOriginal(spaces: map<Text, SpaceView>, locator: LocatorRow, row: OperationRow): Verdict {
    match VerifyChild(spaces, "original", LocatorPlace(locator), PyStr(row.id), PyStr(row.hash))
    case Err(code) => RecoveryRequired(code)
    case Ok(outcome) =>
      if outcome.Is("unknown") then RecoveryRequired(ChildUnknown)
      else if outcome.Is("pending") then RecoveryRequired(ChildPending)
      else if outcome.TerminalRejected() then RecoveryRequired(ChildRejected)
      else if !outcome.Success() then RecoveryRequired(ChildMissing)
      else if Reads(row.kind, "end") then ClassifyBySession(spaces, locator, true, [outcome], RecoverableReleasing)
      else ClassifyBySession(spaces, locator, false, [outcome], RecoverableClaiming)
  }

  const CONFLICT_ROLES: seq<string> := ["candidate", "active"]
  const RESOLUTION_ROLES: seq<string> := ["winner", "loser"]

  predicate AllSucceeded(outcomes: seq<ChildOutcome>) {
    forall i :: 0 <= i < |outcomes| ==> outcomes[i].Success()
  }

  /** `_classify_claimed`. */
  function ClassifyClaimed(spaces: map<Text, SpaceView>, locator: LocatorRow, row: OperationRow,
                           intent: Payload): Verdict {
    if Reads(row.kind, "activate_provisional") then
      match NamedChildren(spaces, PyStr(locator.operation), intent, CONFLICT_ROLES)
      case Err(code) => RecoveryRequired(code)
      case Ok(outcomes) =>
        if AllSucceeded(outcomes) then Clean(ConflictAwaiting, outcomes, [], DecodePair(intent))
        else RecoveryRequired(ChildRejected)
    else if OneOf(row.kind, SIMPLE_KINDS) then ClassifyOriginal(spaces, locator, row)
    else RecoveryRequired(UnprovenCombination)    // in particular every resolution
  }

  /** Why an awaiting conflict's child is not proven, if it is not. */
  function ChildProblem(outcome: ChildOutcome): Option<Code> {
    if !outcome.envelopePresent then Some(ChildMissing)
    else if outcome.Is("unknown") then Some(ChildUnknown)
    else if outcome.Is("pending") then Some(ChildPending)
    else if outcome.TerminalRejected() then Some(ChildRejected)
    else if !outcome.Success() then Some(ChildMissing)
    else None
  }

  function FirstChildProblem(outcomes: seq<ChildOutcome>): (problem: Option<Code>)
    ensures problem.None? <==> forall i :: 0 <= i < |outcomes| ==> ChildProblem(outcomes[i]).None?
  {
    if outcomes == [] then None
    else if ChildProblem(outcomes[0]).Some? then ChildProblem(outcomes[0])
    else FirstChildProblem(outcomes[1..])
  }

  /** `_load_pair_sessions`. */
  function LoadPair(spaces: map<Text, SpaceView>, pair: Pair): Result<seq<SessionFact>, Code> {
    match LoadFact(spaces, pair.active)
    case Err(code) => Err(code)
    case Ok(active) =>
      match LoadFact(spaces, pair.candidate)
      case Err(code) => Err(code)
      case Ok(candidate) =>
        if !active.present then Err(SessionMissing)
        else if active.ownership != Str(Plain("activation_conflict")) then Err(ConflictPairInvalid)
        else if !candidate.present then Err(SessionMissing)
        else if candidate.ownership != Str(Plain("activation_conflict")) then Err(ConflictPairInvalid)
        else Ok([active, candidate])
  }

  /** `_classify_awaiting_resolution`. */
  function ClassifyAwaiting(spaces: map<Text, SpaceView>, locator: LocatorRow, row: OperationRow,
                            intent: Payload): Verdict {
    if !Reads(row.kind, "activate_provisional") then RecoveryRequired(UnprovenCombination)
    else if DecodePair(intent).None? then RecoveryRequired(ConflictPairMissing) else
    var pair := DecodePair(intent).value;
    if LocatorPlace(locator) != pair.active then RecoveryRequired(ConflictPairInvalid) else
    match NamedChildren(spaces, PyStr(locator.operation), intent, CONFLICT_ROLES)
    case Err(code) => RecoveryRequired(code)
    case Ok(outcomes) =>
      if FirstChildProblem(outcomes).Some? then RecoveryRequired(FirstChildProblem(outcomes).value) else
      match LoadPair(spaces, pair)
      case Err(code) => RecoveryRequired(code)
      case Ok(facts) => Clean(ConflictAwaiting, outcomes, facts, Some(pair))
  }

  /** The Sessions as the winner and the loser child leave them. */
  function ResolutionSessionProblem(winner: SessionFact, loser: SessionFact): Option<Code> {
    if !winner.present then Some(SessionMissing)
    else if winner.ended then Some(SessionUnexpectedTerminal)
    else if winner.ownership != Str(Plain("authoritative")) then Some(SessionOwnershipInvalid)
    else if !loser.present then Some(SessionMissing)
    else if !loser.ended then Some(SessionUnexpectedNonterminal)
    else if loser.validity != Str(Plain("invalid"))
         || loser.reason != Str(Plain("activation_conflict_loser")) then Some(SessionInvalidMarker)
    else None
  }

  /** `_classify_transferred`. */
  function ClassifyTransferred(spaces: map<Text, SpaceView>, locator: LocatorRow, row: OperationRow,
                               intent: Payload): Verdict {
    if !Reads(row.kind, "resolve_activation_conflict") then RecoveryRequired(UnprovenCombination)
    else if DecodePair(intent).None? then RecoveryRequired(ConflictPairMissing) else
    var pair := DecodePair(intent).value;
    var winner, loser := ChildPlace(pair, "winner", intent), ChildPlace(pair, "loser", intent);
    if winner.None? || loser.None? then RecoveryRequired(ConflictPairInvalid) else
    match NamedChildren(spaces, PyStr(locator.operation), intent, RESOLUTION_ROLES)
    case Err(code) => RecoveryRequired(code)
    case Ok(outcomes) =>
      if !AllSucceeded(outcomes) then RecoveryRequired(ChildRejected) else
      match LoadFact(spaces, winner.value)
      case Err(code) => RecoveryRequired(code)
      case Ok(won) =>
        match LoadFact(spaces, loser.value)
        case Err(code) => RecoveryRequired(code)
        case Ok(lost) =>
          if ResolutionSessionProblem(won, lost).Some? then RecoveryRequired(ResolutionSessionProblem(won, lost).value)
          else Clean(RecoverableClaiming, outcomes, [won, lost], Some(pair))
  }

  /** `_classify`. */
  function Classify(spaces: map<Text, SpaceView>, locator: LocatorRow, row: OperationRow, intent: Payload): Verdict {
    if Reads(locator.state, "active") && Reads(row.phase, "completed") then
      ClassifyBySession(spaces, locator, false, [], ActiveConsistent)
    else if Reads(locator.state, "releasing") && Reads(row.phase, "space_committed") then
      if Reads(row.kind, "end") then ClassifyBySession(spaces, locator, true, [], RecoverableReleasing)
      else RecoveryRequired(UnprovenCombination)
    else if !Reads(locator.state, "claiming") then RecoveryRequired(UnprovenCombination)
    else if Reads(row.phase, "awaiting_resolution") then ClassifyAwaiting(spaces, locator, row, intent)
    else if Reads(row.phase, "claimed") then ClassifyClaimed(spaces, locator, row, intent)
    else if Reads(row.phase, "transferred") then ClassifyTransferred(spaces, locator, row, intent)
    else RecoveryRequired(UnprovenCombination)
  }

  // -------------------------------------------------------------- inspection

  predicate PhaseAllowed(state: Json, phase: Json) {
    || (Reads(state, "active") && Reads(phase, "completed"))
    || (Reads(state, "claiming") && OneOf(phase, ["claimed", "awaiting_resolution", "transferred"]))
    || (Reads(state, "releasing") && Reads(phase, "space_committed"))
  }

  /** What the Meta database alone decides. */
  datatype Examined = Decided(decision: Verdict) | Proceed(locator: LocatorRow, row: OperationRow, intent: Payload)

  function Examine(meta: MetaView, now: int): Examined {
    match meta
    case NoPath => Decided(RecoveryRequired(InvalidView))
    case Damaged => Decided(RecoveryRequired(MissingSchema))
    case Tables(locators, ops) =>
      if |locators| == 0 then Decided(Clean(Vacant, [], [], None))
      else if |locators| > 1 then Decided(RecoveryRequired(MultipleLocators))
      else if !LocatorValid(locators[0]) then Decided(RecoveryRequired(InvalidLocator)) else
      var locator := locators[0];
      if locator.operation.text !in ops then Decided(RecoveryRequired(OperationMissing)) else
      var row := ops[locator.operation.text];
      if !OperationShape(row) || row.id != locator.operation then Decided(RecoveryRequired(InvalidOperation)) else
      match VerifyIntent(locator, row)
      case None => Decided(RecoveryRequired(IntentInvalid))
      case Some(intent) =>
        if Reads(row.phase, "manual_intervention") then Decided(RecoveryRequired(ManualInterventionNeeded))
        else if !PhaseAllowed(locator.state, row.phase) then Decided(RecoveryRequired(StatePhaseInconsistent))
        else if Reads(row.phase, "transferred") && !Reads(row.kind, "resolve_activation_conflict") then
          Decided(RecoveryRequired(StatePhaseInconsistent))
        else if Reads(locator.state, "active")
             && locator.lease.value <= now then Decided(RecoveryRequired(LeaseExpired))
        else Proceed(locator, row, intent)
  }

  ghost predicate ChainClean(ops: map<Text, OperationRow>, root: OperationRow, place: Place) {
    exists links: seq<Text> :: ChainOk(ops, root, place, links)
  }

  /** What an inspection may answer. */
  ghost predicate Answers(evidence: Evidence, now: int, decision: Verdict) {
    match Examine(evidence.meta, now)
    case Decided(early) => decision == early
    case Proceed(locator, row, intent) =>
      evidence.meta.Tables? &&
      if ChainClean(evidence.meta.ops, row, LocatorPlace(locator))
      then decision == Classify(evidence.spaces, locator, row, intent)
      else decision.RecoveryRequired? && decision.code in {RelationCycle, RelationMissing, RelationInvalid}
  }
}
