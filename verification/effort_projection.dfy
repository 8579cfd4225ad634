/** `_compute_effort_map` and the laws of its overrides. */
module EffortProjection {
  import opened Symbols
  import opened EffortSpec

  datatype Fault =
    | InvalidOverride | MultipleEffective | NoEffective | TargetMissing | NotLevelTwo | CrossProject
    | InvalidSeconds | UnsafeTotal

  /** An attribution override as the policy may pass it. */
  datatype Override = One(row: Attribution) | Many(rows: seq<Attribution>) | Malformed

  datatype Overrides = Overrides(sessions: map<Id, Session>, attributions: seq<(Id, Override)>)

  /** `_work_item_depth`: the length of the parent chain, cut off above 3. */
  method WorkItemDepth(items: Items, row: WorkItem) returns (depth: nat)
    ensures depth == 2 <==> row.parent.Some? && row.parent.value in items
                            && var up := items[row.parent.value].parent; up.None? || up.value !in items
  {
    depth := 1;
    var parent := row.parent;
    while parent.Some?
      invariant 1 <= depth <= 3
      invariant depth == 1 ==> parent == row.parent
      invariant depth == 2 ==> row.parent.Some? && row.parent.value in items && parent == items[row.parent.value].parent
      invariant depth == 3 ==> row.parent.Some? && row.parent.value in items
                               && items[row.parent.value].parent.Some? && items[row.parent.value].parent.value in items
      decreases 4 - depth
    {
      if parent.value !in items { break; }
      depth := depth + 1;
      parent := items[parent.value].parent;
      if depth > 3 { break; }
    }
  }

  // ---------------------------------------------------------------- overrides

  function Overridden(rows: seq<Session>, overrides: map<Id, Session>): (r: seq<Session>)
    ensures |r| == |rows|
    ensures forall i :: 0 <= i < |rows| ==> r[i] == if rows[i].id in overrides then overrides[rows[i].id] else rows[i]
  {
    seq(|rows|, i requires 0 <= i < |rows| => if rows[i].id in overrides then overrides[rows[i].id] else rows[i])
  }

  function Names(overrides: seq<(Id, Override)>): set<Id> {
    set i | 0 <= i < |overrides| :: overrides[i].0
  }

  function Kept(rows: seq<Attribution>, replaced: set<Id>): (r: seq<Attribution>)
    ensures forall a :: a in r <==> a in rows && a.session !in replaced
  {
    if rows == [] then [] else
    var n := |rows| - 1;
    if rows[n].session in replaced then Kept(rows[..n], replaced) else Kept(rows[..n], replaced) + [rows[n]]
  }

  function OverrideRows(override_: Override): seq<Attribution> {
    match override_
    case One(row) => [row]
    case Many(rows) => rows
    case Malformed => []
  }

  function Added(overrides: seq<(Id, Override)>): seq<Attribution> {
    if overrides == [] then [] else Added(overrides[..|overrides| - 1]) + OverrideRows(overrides[|overrides| - 1].1)
  }

  predicate AnyMalformed(overrides: seq<(Id, Override)>) {
    exists i :: 0 <= i < |overrides| && overrides[i].1.Malformed?
  }

  /** The attribution rows the computation runs over. */
  function Replaced(rows: seq<Attribution>, overrides: seq<(Id, Override)>): seq<Attribution> {
    Kept(rows, Names(overrides)) + Added(overrides)
  }

  /** The rows the computation runs over, one row or override at a time: a row
      stays unless its Session is named, and each override adds its rows in
      order. */
  lemma ReplacedGrows(rows: seq<Attribution>, row: Attribution, names: set<Id>, overrides: seq<(Id, Override)>,
                      session: Id, more: seq<Attribution>)
    ensures Kept([], names) == [] && Added([]) == []
    ensures Kept(rows + [row], names) == Kept(rows, names) + if row.session in names then [] else [row]
    ensures Added(overrides + [(session, One(row))]) == Added(overrides) + [row]
    ensures Added(overrides + [(session, Many(more))]) == Added(overrides) + more
    ensures Names(overrides + [(session, Many(more))]) == Names(overrides) + {session}
  {
    assert (rows + [row])[..|rows|] == rows;
    var one, many := overrides + [(session, One(row))], overrides + [(session, Many(more))];
    assert one[..|overrides|] == overrides && many[..|overrides|] == overrides && many[|overrides|].0 == session;
    assert forall i :: 0 <= i < |overrides| ==> many[i] == overrides[i];
  }

  method ApplyOverrides(sessions: seq<Session>, attributions: seq<Attribution>, overrides: Overrides)
    returns (r: Result<(seq<Session>, seq<Attribution>), Fault>)
    ensures r.Err? <==> AnyMalformed(overrides.attributions)
    ensures r.Err? ==> r.error == InvalidOverride
    ensures r.Ok? ==>
              r.value == (Overridden(sessions, overrides.sessions), Replaced(attributions, overrides.attributions))
  {
    hide Kept;
    var seen := OverrideSessions(sessions, overrides.sessions);
    var names := Names(overrides.attributions);
    var rows := Kept(attributions, names);
    for i := 0 to |overrides.attributions|
      invariant rows == Kept(attributions, names) + Added(overrides.attributions[..i])
      invariant forall j :: 0 <= j < i ==> !overrides.attributions[j].1.Malformed?
    {
      assert overrides.attributions[..i + 1][..i] == overrides.attributions[..i];
      match overrides.attributions[i].1 {
        case Malformed => return Err(InvalidOverride);
        case One(row) => rows := rows + [row];
        case Many(more) => rows := rows + more;
      }
    }
    assert overrides.attributions[..|overrides.attributions|] == overrides.attributions;
    r := Ok((seen, rows));
  }

  method OverrideSessions(sessions: seq<Session>, overrides: map<Id, Session>) returns (seen: seq<Session>)
    ensures seen == Overridden(sessions, overrides)
  {
    seen := [];
    for i := 0 to |sessions|
      invariant seen == Overridden(sessions, overrides)[..i]
    {
      var s := sessions[i];
      seen := seen + [if s.id in overrides then overrides[s.id] else s];
    }
  }

  // ---------------------------------------------------------------- the fold

  function RowsOf(grouped: map<Id, seq<Attribution>>, session: Id): seq<Attribution> {
    if session in grouped then grouped[session] else []
  }

  method GroupEffective(rows: seq<Attribution>) returns (effective: map<Id, seq<Attribution>>)
    ensures forall session :: RowsOf(effective, session) == EffectiveOf(rows, session)
  {
    effective := map[];
    for i := 0 to |rows|
      invariant forall session :: RowsOf(effective, session) == EffectiveOf(rows[..i], session)
    {
      var a := rows[i];
      assert rows[..i + 1][..i] == rows[..i];
      if a.effective {
        var list := RowsOf(effective, a.session);
        effective := effective[a.session := list + [a]];
      }
    }
    assert rows[..|rows|] == rows;
  }

  /** Which check of a Session fails, given its effective revisions. */
  predicate Fails(s: Session, list: seq<Attribution>, items: Items, fault: Fault) {
    match fault
    case MultipleEffective => |list| >= 2
    case NoEffective => list == []
    case TargetMissing => |list| == 1 && IsWork(s) && list[0].target !in items
    case NotLevelTwo =>
      |list| == 1 && IsWork(s) && list[0].target in items && !SecondLevel(items, list[0].target)
    case CrossProject =>
      |list| == 1 && IsWork(s) && SecondLevel(items, list[0].target) && CrossesProjects(items, list[0])
    case InvalidSeconds =>
      |list| == 1 && IsWork(s) && SecondLevel(items, list[0].target) && !CrossesProjects(items, list[0])
      && (s.focused == None || s.focused.value < 0)
    case InvalidOverride => false
    case UnsafeTotal => false
  }

  /** The checks of one Session; its target when it contributes. */
  method CheckSession(s: Session, list: seq<Attribution>, items: Items) returns (r: Result<Option<Id>, Fault>)
    ensures r.Ok? <==>
              |list| == 1
              && (Contributes(s) ==>
                    LevelTwo(items, list[0].target) && SameProject(items, list[0]) && s.focused.Some?
                    && s.focused.value >= 0)
    ensures r.Ok? ==> r.value == if Contributes(s) then Some(list[0].target) else None
    ensures forall fault :: r == Err(fault) <==> Fails(s, list, items, fault)
  {
    if |list| > 1 { return Err(MultipleEffective); }
    if |list| == 0 { return Err(NoEffective); }
    if s.isBreak || !s.ended || !s.valid || !s.authoritative { return Ok(None); }
    var a := list[0];
    if a.target !in items { return Err(TargetMissing); }
    var depth := WorkItemDepth(items, items[a.target]);
    if depth != 2 { return Err(NotLevelTwo); }
    var project := items[a.target].project;
    if a.project != "" && project != "" && a.project != project { return Err(CrossProject); }
    if s.focused.None? || s.focused.value < 0 { return Err(InvalidSeconds); }
    r := Ok(Some(a.target));
  }

  /** `_compute_effort_map`: it succeeds exactly on sound rows, whatever the
      order in which a check could fail, and then returns the projection. */
  method ComputeEffortMap(sessions: seq<Session>, attributions: seq<Attribution>, items: Items, overrides: Overrides)
    returns (r: Result<map<Id, nat>, Fault>)
    ensures r.Ok? <==> !AnyMalformed(overrides.attributions)
                       && Sound(Overridden(sessions, overrides.sessions),
                                Replaced(attributions, overrides.attributions), items)
    ensures r.Ok? ==> IsProjection(r.value, Overridden(sessions, overrides.sessions),
                                   Replaced(attributions, overrides.attributions))
    ensures AnyMalformed(overrides.attributions) ==> r == Err(InvalidOverride)
    ensures r.Err? && !AnyMalformed(overrides.attributions) ==>
              var rows := Overridden(sessions, overrides.sessions);
              exists i :: 0 <= i < |rows|
                          && StopsAt(rows, Replaced(attributions, overrides.attributions), items, i, r.error)
  {
    var applied := ApplyOverrides(sessions, attributions, overrides);
    if applied.Err? { return Err(applied.error); }
    r := Fold(applied.value.0, applied.value.1, items);
  }

  /** The Session at which the fold stops: all before it are sound and sum up
      safely, and it fails a check or takes an item's sum over the bound. */
  ghost predicate StopsAt(sessions: seq<Session>, attributions: seq<Attribution>, items: Items, i: nat, fault: Fault)
    requires i < |sessions|
  {
    && (forall j :: 0 <= j < i ==> SessionSound(sessions[j], attributions, items))
    && InBound(sessions[..i], attributions)
    && if fault == UnsafeTotal
       then SessionSound(sessions[i], attributions, items) && !InBound(sessions[..i + 1], attributions)
       else Fails(sessions[i], EffectiveOf(attributions, sessions[i].id), items, fault)
  }

  lemma SafeSoFar(effort: map<Id, nat>, sessions: seq<Session>, attributions: seq<Attribution>)
    requires IsProjection(effort, sessions, attributions) && AllSafe(effort)
    ensures InBound(sessions, attributions)
  {
    forall w ensures Effort(sessions, attributions, w) <= 9007199254740991 {
      ProjectionGivesSum(effort, sessions, attributions, w);
    }
  }

  method Fold(sessions: seq<Session>, attributions: seq<Attribution>, items: Items)
    returns (r: Result<map<Id, nat>, Fault>)
    ensures r.Ok? <==> Sound(sessions, attributions, items)
    ensures r.Ok? ==> IsProjection(r.value, sessions, attributions)
    ensures r == Err(UnsafeTotal) ==> exists w :: Effort(sessions, attributions, w) > SAFE_INTEGER_MAX
    ensures r.Err? ==> exists i :: 0 <= i < |sessions| && StopsAt(sessions, attributions, items, i, r.error)
  {
    hide Effort, IsProjection, EffectiveOf, LevelTwo, SameProject, Charged, SecondLevel, CrossesProjects;
    var effective := GroupEffective(attributions);
    var effort: map<Id, nat> := map[];
    NothingCharged(attributions);
    assert sessions[..0] == [];
    for i := 0 to |sessions|
      invariant forall j :: 0 <= j < i ==> SessionSound(sessions[j], attributions, items)
      invariant IsProjection(effort, sessions[..i], attributions)
      invariant AllSafe(effort)
    {
      var s := sessions[i];
      var list := RowsOf(effective, s.id);
      assert list == EffectiveOf(attributions, s.id);
      var checked := CheckSession(s, list, items);
      if checked.Err? {
        assert !SessionSound(sessions[i], attributions, items);
        SafeSoFar(effort, sessions[..i], attributions);
        assert StopsAt(sessions, attributions, items, i, checked.error);
        return Err(checked.error);
      }
      assert sessions[..i + 1][..i] == sessions[..i] && sessions[..i + 1][i] == s;
      if checked.value.Some? {
        var target := checked.value.value;
        var total := (if target in effort then effort[target] else 0) + s.focused.value;
        OneCharged(effort, sessions[..i + 1], attributions, items, target, total);
        if total > SAFE_INTEGER_MAX {
          PrefixIsLess(sessions, attributions, target, i + 1);
          SafeSoFar(effort, sessions[..i], attributions);
          assert StopsAt(sessions, attributions, items, i, UnsafeTotal);
          return Err(UnsafeTotal);
        }
        StaysSafe(effort, target, total);
        effort := effort[target := total];
      } else {
        NoneCharged(effort, sessions[..i + 1], attributions);
      }
    }
    assert sessions[..|sessions|] == sessions;
    forall w ensures Effort(sessions, attributions, w) <= SAFE_INTEGER_MAX {
      ProjectionGivesSum(effort, sessions, attributions, w);
    }
    r := Ok(effort);
  }

  predicate AllSafe(effort: map<Id, nat>) {
    forall w :: w in effort ==> effort[w] <= SAFE_INTEGER_MAX
  }

  lemma StaysSafe(effort: map<Id, nat>, target: Id, total: nat)
    requires AllSafe(effort) && total <= SAFE_INTEGER_MAX
    ensures AllSafe(effort[target := total])
  {
  }

  lemma NothingCharged(attributions: seq<Attribution>)
    ensures IsProjection(map[], [], attributions)
  {
  }

  lemma OneCharged(effort: map<Id, nat>, sessions: seq<Session>, attributions: seq<Attribution>, items: Items,
                   target: Id, total: nat)
    requires sessions != [] && IsProjection(effort, sessions[..|sessions| - 1], attributions)
    requires var s := sessions[|sessions| - 1];
             SessionSound(s, attributions, items) && Contributes(s) && SoleOf(attributions, s.id).target == target
             && total == Get0(effort, target) + s.focused.value
    ensures IsProjection(effort[target := total], sessions, attributions)
            && Effort(sessions, attributions, target) == total
  {
    var n := |sessions| - 1;
    ProjectionGivesSum(effort, sessions[..n], attributions, target);
    forall w ensures Charged(sessions, attributions, w) <==> Charged(sessions[..n], attributions, w) || w == target {
      ChargedOn(sessions, attributions, w);
    }
  }

  lemma NoneCharged(effort: map<Id, nat>, sessions: seq<Session>, attributions: seq<Attribution>)
    requires sessions != [] && IsProjection(effort, sessions[..|sessions| - 1], attributions)
             && !Contributes(sessions[|sessions| - 1])
    ensures IsProjection(effort, sessions, attributions)
  {
    forall w ensures Charged(sessions, attributions, w) <==> Charged(sessions[..|sessions| - 1], attributions, w) {
      ChargedOn(sessions, attributions, w);
    }
  }

  lemma ChargedOn(sessions: seq<Session>, attributions: seq<Attribution>, w: Id)
    requires sessions != []
    ensures var n := |sessions| - 1;
            Charged(sessions, attributions, w) <==>
              Charged(sessions[..n], attributions, w) || ChargedTo(sessions[n], attributions, w)
  {
    var n := |sessions| - 1;
    if i :| 0 <= i < n && ChargedTo(sessions[..n][i], attributions, w) { assert sessions[i] == sessions[..n][i]; }
    if i :| 0 <= i < |sessions| && ChargedTo(sessions[i], attributions, w) {
      if i < n { assert sessions[..n][i] == sessions[i]; }
    }
  }

  /** Seconds only add up: a prefix over the bound puts the whole over it. */
  lemma {:induction false} PrefixIsLess(sessions: seq<Session>, attributions: seq<Attribution>, w: Id, n: nat)
    requires n <= |sessions|
    ensures Effort(sessions[..n], attributions, w) <= Effort(sessions, attributions, w)
  {
    assert sessions == sessions[..n] + sessions[n..];
    EffortAppend(sessions[..n], sessions[n..], attributions, w);
  }
}
