/** What a WorkItem's effort is: the declarative sum the projection promises,
    and the laws of that sum. */
module EffortSpec {
  import opened Symbols

  type Id = string

  /** `focused` is none when the column holds no integer. */
  datatype Session = Session(id: Id, isBreak: bool, ended: bool, valid: bool, authoritative: bool, focused: Option<int>)

  datatype Attribution = Attribution(id: Id, session: Id, effective: bool, target: Id, project: string)

  datatype WorkItem = WorkItem(parent: Option<Id>, project: string)

  type Items = map<Id, WorkItem>

  const SAFE_INTEGER_MAX: nat := 9007199254740991

  // ------------------------------------------------------------- attributions

  /** The effective revisions of one Session, in row order. */
  function EffectiveOf(rows: seq<Attribution>, session: Id): seq<Attribution> {
    if rows == [] then []
    else
      var n := |rows| - 1;
      if rows[n].effective && rows[n].session == session then EffectiveOf(rows[..n], session) + [rows[n]]
      else EffectiveOf(rows[..n], session)
  }

  predicate Sole(rows: seq<Attribution>, session: Id) {
    |EffectiveOf(rows, session)| == 1
  }

  function SoleOf(rows: seq<Attribution>, session: Id): Attribution
    requires Sole(rows, session)
  {
    EffectiveOf(rows, session)[0]
  }

  // ---------------------------------------------------------------- the checks

  /** Only ended, valid, authoritative work Sessions contribute. */
  predicate Contributes(s: Session) {
    !s.isBreak && s.ended && s.valid && s.authoritative
  }

  /** A level-2 item: its parent exists and is itself a root. */
  predicate LevelTwo(items: Items, target: Id) {
    && target in items && items[target].parent.Some? && items[target].parent.value in items
    && var grandparent := items[items[target].parent.value].parent;
    grandparent.None? || grandparent.value !in items
  }

  predicate SameProject(items: Items, a: Attribution) {
    a.target in items && (a.project == "" || items[a.target].project == "" || a.project == items[a.target].project)
  }

  predicate SessionSound(s: Session, attributions: seq<Attribution>, items: Items) {
    && Sole(attributions, s.id)
    && (Contributes(s) ==>
          && LevelTwo(items, SoleOf(attributions, s.id).target)
          && SameProject(items, SoleOf(attributions, s.id))
          && s.focused.Some? && s.focused.value >= 0)
  }

  /** The target exists, its parent exists, and that parent has none. */
  predicate SecondLevel(items: Items, target: Id) {
    target in items && items[target].parent != None && var parent := items[target].parent.value;
    parent in items && (items[parent].parent != None ==> items[parent].parent.value !in items)
  }

  /** Both projects are named and differ. */
  predicate CrossesProjects(items: Items, a: Attribution) {
    a.target in items && a.project != "" && items[a.target].project != "" && items[a.target].project != a.project
  }

  predicate IsWork(s: Session) {
    !s.isBreak && s.ended && s.valid && s.authoritative
  }

  /** What makes one Session's rows sound: one effective revision, and for a
      contributing Session a level-2 target in no other project and a count of
      seconds that is not negative. */
  lemma SessionSoundIff(s: Session, attributions: seq<Attribution>, items: Items)
    ensures SessionSound(s, attributions, items) <==>
              |EffectiveOf(attributions, s.id)| == 1 && var a := EffectiveOf(attributions, s.id)[0];
              IsWork(s) ==> SecondLevel(items, a.target) && !CrossesProjects(items, a)
                            && s.focused != None && 0 <= s.focused.value
  {
  }

  /** A revision is among the effective ones as often as its row is listed. */
  lemma {:induction false} EffectiveRows(rows: seq<Attribution>, session: Id, a: Attribution)
    ensures multiset(EffectiveOf(rows, session))[a] ==
              if a.effective && a.session == session then multiset(rows)[a] else 0
    decreases |rows|
  {
    if rows != [] {
      var n := |rows| - 1;
      EffectiveRows(rows[..n], session, a);
      assert rows == rows[..n] + [rows[n]];
      assert multiset(rows)[a] == multiset(rows[..n])[a] + if rows[n] == a then 1 else 0;
      var earlier := EffectiveOf(rows[..n], session);
      assert multiset(earlier + [rows[n]])[a] == multiset(earlier)[a] + if rows[n] == a then 1 else 0;
    }
  }

  // ------------------------------------------------------------------ the sum

  function Seconds(s: Session): nat {
    if Contributes(s) && s.focused.Some? && s.focused.value >= 0 then s.focused.value else 0
  }

  predicate ChargedTo(s: Session, attributions: seq<Attribution>, w: Id) {
    Contributes(s) && Sole(attributions, s.id) && SoleOf(attributions, s.id).target == w
  }

  function Amount(s: Session, attributions: seq<Attribution>, w: Id): nat {
    if ChargedTo(s, attributions, w) then Seconds(s) else 0
  }

  function Effort(sessions: seq<Session>, attributions: seq<Attribution>, w: Id): nat {
    if sessions == [] then 0
    else Effort(sessions[..|sessions| - 1], attributions, w) + Amount(sessions[|sessions| - 1], attributions, w)
  }

  /** A contributing Session is charged to the target of its one revision, in full. */
  lemma AmountIs(s: Session, attributions: seq<Attribution>, items: Items, w: Id)
    requires SessionSound(s, attributions, items)
    ensures Amount(s, attributions, w) ==
              if IsWork(s) && EffectiveOf(attributions, s.id)[0].target == w then s.focused.value else 0
  {
  }

  predicate Charged(sessions: seq<Session>, attributions: seq<Attribution>, w: Id) {
    exists i :: 0 <= i < |sessions| && ChargedTo(sessions[i], attributions, w)
  }

  /** When a projection exists at all. */
  ghost predicate Sound(sessions: seq<Session>, attributions: seq<Attribution>, items: Items) {
    && (forall i :: 0 <= i < |sessions| ==> SessionSound(sessions[i], attributions, items))
    && (forall w :: Effort(sessions, attributions, w) <= SAFE_INTEGER_MAX)
  }

  lemma SoundIff(sessions: seq<Session>, attributions: seq<Attribution>, items: Items)
    ensures Sound(sessions, attributions, items) <==>
              && (forall i :: 0 <= i < |sessions| ==> SessionSound(sessions[i], attributions, items))
              && InBound(sessions, attributions)
  {
    assert SAFE_INTEGER_MAX == 9007199254740991;
    hide Effort, SessionSound;
  }

  ghost predicate InBound(sessions: seq<Session>, attributions: seq<Attribution>) {
    forall w :: Effort(sessions, attributions, w) <= 9007199254740991
  }

  /** The projection: exactly the charged items, each with its sum. */
  ghost predicate IsProjection(effort: map<Id, nat>, sessions: seq<Session>, attributions: seq<Attribution>) {
    && (forall w :: w in effort <==> Charged(sessions, attributions, w))
    && (forall w :: w in effort ==> effort[w] == Effort(sessions, attributions, w))
  }

  /** `effort_map.get(w, 0)`. */
  function Get0(effort: map<Id, nat>, w: Id): nat {
    if w in effort then effort[w] else 0
  }

  lemma {:induction false} UnchargedIsZero(sessions: seq<Session>, attributions: seq<Attribution>, w: Id)
    requires !Charged(sessions, attributions, w)
    ensures Effort(sessions, attributions, w) == 0
    decreases |sessions|
  {
    if sessions != [] {
      var n := |sessions| - 1;
      forall i | 0 <= i < n ensures !ChargedTo(sessions[..n][i], attributions, w) {
        assert sessions[..n][i] == sessions[i];
      }
      UnchargedIsZero(sessions[..n], attributions, w);
    }
  }

  /** A projection gives every item its sum. */
  lemma ProjectionGivesSum(effort: map<Id, nat>, sessions: seq<Session>, attributions: seq<Attribution>, w: Id)
    requires IsProjection(effort, sessions, attributions)
    ensures Get0(effort, w) == Effort(sessions, attributions, w)
  {
    if w !in effort { UnchargedIsZero(sessions, attributions, w); }
  }

  // -------------------------------------------------------------- permutations

  lemma {:induction false} EffortAppend(one: seq<Session>, other: seq<Session>, attributions: seq<Attribution>, w: Id)
    ensures Effort(one + other, attributions, w) == Effort(one, attributions, w) + Effort(other, attributions, w)
    decreases |other|
  {
    if other == [] {
      assert one + other == one;
    } else {
      var n := |other| - 1;
      assert (one + other)[..|one + other| - 1] == one + other[..n];
      EffortAppend(one, other[..n], attributions, w);
    }
  }

  lemma EffortOne(s: Session, attributions: seq<Attribution>, w: Id)
    ensures Effort([s], attributions, w) == Amount(s, attributions, w)
  {
    assert [s][..0] == [];
  }

  /** The last element of one listing, found in the other and taken out. */
  lemma TakeLast<T>(one: seq<T>, other: seq<T>) returns (i: nat)
    requires one != [] && multiset(one) == multiset(other)
    ensures i < |other| && other == other[..i] + ([one[|one| - 1]] + other[i + 1..])
    ensures multiset(one[..|one| - 1]) == multiset(other[..i] + other[i + 1..])
  {
    var n := |one| - 1;
    assert one == one[..n] + [one[n]];
    assert one[n] in multiset(one);
    i :| 0 <= i < |other| && other[i] == one[n];
    assert other == other[..i] + ([other[i]] + other[i + 1..]);
    assert multiset(one) == multiset(one[..n]) + multiset{one[n]};
    assert multiset(other) == multiset(other[..i]) + (multiset{other[i]} + multiset(other[i + 1..]));
    assert multiset(other[..i] + other[i + 1..]) == multiset(other[..i]) + multiset(other[i + 1..]);
    assert multiset(one[..n]) == multiset(one) - multiset{one[n]};
    assert multiset(other[..i] + other[i + 1..]) == multiset(other) - multiset{other[i]};
  }

  lemma {:induction false} EffortPermutes(one: seq<Session>, other: seq<Session>, attributions: seq<Attribution>, w: Id)
    requires multiset(one) == multiset(other)
    ensures Effort(one, attributions, w) == Effort(other, attributions, w)
    decreases |one|
  {
    if one == [] {
      assert |multiset(other)| == 0;
    } else {
      var n := |one| - 1;
      var last := one[n];
      var i := TakeLast(one, other);
      var before, after := other[..i], other[i + 1..];
      EffortPermutes(one[..n], before + after, attributions, w);
      EffortAppend(before, [last] + after, attributions, w);
      EffortAppend([last], after, attributions, w);
      EffortAppend(before, after, attributions, w);
      EffortOne(last, attributions, w);
    }
  }

  lemma {:induction false} EffectiveAppend(one: seq<Attribution>, other: seq<Attribution>, session: Id)
    ensures EffectiveOf(one + other, session) == EffectiveOf(one, session) + EffectiveOf(other, session)
    decreases |other|
  {
    if other == [] {
      assert one + other == one;
    } else {
      var n := |other| - 1;
      assert (one + other)[..|one + other| - 1] == one + other[..n];
      EffectiveAppend(one, other[..n], session);
    }
  }

  lemma {:induction false} EffectivePermutes(one: seq<Attribution>, other: seq<Attribution>, session: Id)
    requires multiset(one) == multiset(other)
    ensures multiset(EffectiveOf(one, session)) == multiset(EffectiveOf(other, session))
    decreases |one|
  {
    if one == [] {
      assert |multiset(other)| == 0;
    } else {
      var n := |one| - 1;
      var last := one[n];
      var i := TakeLast(one, other);
      var before, after := other[..i], other[i + 1..];
      assert one == one[..n] + [last];
      EffectivePermutes(one[..n], before + after, session);
      EffectiveAppend(before, [last] + after, session);
      EffectiveAppend([last], after, session);
      EffectiveAppend(before, after, session);
      EffectiveAppend(one[..n], [last], session);
      hide EffectiveOf;
    }
  }

  /** Reordering attribution rows changes neither who is sole nor to whom. */
  lemma SolePermutes(one: seq<Attribution>, other: seq<Attribution>, session: Id)
    requires multiset(one) == multiset(other)
    ensures Sole(one, session) <==> Sole(other, session)
    ensures Sole(one, session) ==> SoleOf(one, session) == SoleOf(other, session)
  {
    EffectivePermutes(one, other, session);
    var a, b := EffectiveOf(one, session), EffectiveOf(other, session);
    assert |a| == |multiset(a)| && |b| == |multiset(b)|;
    if |a| == 1 {
      assert a == [a[0]] && b == [b[0]];
      assert b[0] in multiset(a);
    }
  }

  lemma {:induction false} EffortRespects(sessions: seq<Session>, one: seq<Attribution>, other: seq<Attribution>, w: Id)
    requires forall i :: 0 <= i < |sessions| ==> Amount(sessions[i], one, w) == Amount(sessions[i], other, w)
    ensures Effort(sessions, one, w) == Effort(sessions, other, w)
    decreases |sessions|
  {
    if sessions != [] {
      var n := |sessions| - 1;
      forall i | 0 <= i < n ensures Amount(sessions[..n][i], one, w) == Amount(sessions[..n][i], other, w) {
        assert sessions[..n][i] == sessions[i];
      }
      EffortRespects(sessions[..n], one, other, w);
    }
  }

  lemma SessionAgrees(s: Session, one: seq<Attribution>, other: seq<Attribution>, items: Items)
    requires multiset(one) == multiset(other)
    ensures SessionSound(s, one, items) <==> SessionSound(s, other, items)
    ensures forall w :: (ChargedTo(s, one, w) <==> ChargedTo(s, other, w)) && Amount(s, one, w) == Amount(s, other, w)
  {
    SolePermutes(one, other, s.id);
  }

  /** Success and result depend on the rows only as multisets, including the
      integer bound. */
  lemma OrderDoesNotMatter(sessions: seq<Session>, others: seq<Session>, one: seq<Attribution>,
                           other: seq<Attribution>, items: Items)
    requires multiset(sessions) == multiset(others) && multiset(one) == multiset(other)
    ensures Sound(sessions, one, items) <==> Sound(others, other, items)
    ensures forall w ::
              Effort(sessions, one, w) == Effort(others, other, w)
              && (Charged(sessions, one, w) <==> Charged(others, other, w))
  {
    forall i | 0 <= i < |sessions| ensures sessions[i] in others { assert sessions[i] in multiset(others); }
    forall i | 0 <= i < |others| ensures others[i] in sessions { assert others[i] in multiset(sessions); }
    forall s ensures SessionSound(s, one, items) <==> SessionSound(s, other, items) {
      SessionAgrees(s, one, other, items);
    }
    forall w
      ensures Effort(sessions, one, w) == Effort(others, other, w)
              && (Charged(sessions, one, w) <==> Charged(others, other, w))
    {
      EffortPermutes(sessions, others, one, w);
      forall i | 0 <= i < |others| ensures Amount(others[i], one, w) == Amount(others[i], other, w) {
        SessionAgrees(others[i], one, other, items);
      }
      EffortRespects(others, one, other, w);
      ChargedPermutes(sessions, others, one, other, items, w);
      ChargedPermutes(others, sessions, other, one, items, w);
    }
  }

  lemma ChargedPermutes(sessions: seq<Session>, others: seq<Session>, one: seq<Attribution>, other: seq<Attribution>,
                        items: Items, w: Id)
    requires multiset(sessions) == multiset(others) && multiset(one) == multiset(other)
    ensures Charged(sessions, one, w) ==> Charged(others, other, w)
  {
    if i :| 0 <= i < |sessions| && ChargedTo(sessions[i], one, w) {
      assert sessions[i] in multiset(others);
      var j :| 0 <= j < |others| && others[j] == sessions[i];
      SessionAgrees(sessions[i], one, other, items);
    }
  }

  // -------------------------------------------------------------- conservation

  function Total(sessions: seq<Session>): nat {
    if sessions == [] then 0 else Total(sessions[..|sessions| - 1]) + Seconds(sessions[|sessions| - 1])
  }

  function SumOver(ids: seq<Id>, effort: Id -> nat): nat {
    if ids == [] then 0 else SumOver(ids[..|ids| - 1], effort) + effort(ids[|ids| - 1])
  }

  lemma {:induction false} SumAdds(ids: seq<Id>, one: Id -> nat, other: Id -> nat, both: Id -> nat)
    requires forall w :: both(w) == one(w) + other(w)
    ensures SumOver(ids, both) == SumOver(ids, one) + SumOver(ids, other)
    decreases |ids|
  {
    if ids != [] { SumAdds(ids[..|ids| - 1], one, other, both); }
  }

  /** Exactly one of the distinct ids is charged. */
  lemma {:induction false} SumOfOne(ids: seq<Id>, target: Id, amount: nat)
    requires forall i, j :: 0 <= i < j < |ids| ==> ids[i] != ids[j]
    ensures SumOver(ids, w => if w == target then amount else 0) == if target in ids then amount else 0
    decreases |ids|
  {
    if ids != [] {
      var n := |ids| - 1;
      SumOfOne(ids[..n], target, amount);
      assert ids == ids[..n] + [ids[n]];
    }
  }

  lemma {:induction false} SumSame(ids: seq<Id>, one: Id -> nat, other: Id -> nat)
    requires forall w :: one(w) == other(w)
    ensures SumOver(ids, one) == SumOver(ids, other)
    decreases |ids|
  {
    if ids != [] { SumSame(ids[..|ids| - 1], one, other); }
  }

  /** No second is lost or counted twice: over any listing of the charged
      items, the efforts add up to the seconds of all contributing Sessions. */
  lemma {:induction false} Conserved(sessions: seq<Session>, attributions: seq<Attribution>, items: Items, ids: seq<Id>)
    requires forall i :: 0 <= i < |sessions| ==> SessionSound(sessions[i], attributions, items)
    requires forall i, j :: 0 <= i < j < |ids| ==> ids[i] != ids[j]
    requires forall w :: Charged(sessions, attributions, w) ==> w in ids
    ensures SumOver(ids, w => Effort(sessions, attributions, w)) == Total(sessions)
    decreases |sessions|
  {
    if sessions == [] {
      SumSame(ids, w => Effort(sessions, attributions, w), w => if w == "" then 0 else 0);
      SumOfOne(ids, "", 0);
    } else {
      var n := |sessions| - 1;
      var shorter, last := sessions[..n], sessions[n];
      forall i | 0 <= i < n ensures SessionSound(shorter[i], attributions, items) { assert shorter[i] == sessions[i]; }
      forall w | Charged(shorter, attributions, w) ensures w in ids {
        var i :| 0 <= i < n && ChargedTo(shorter[i], attributions, w);
        assert ChargedTo(sessions[i], attributions, w);
      }
      Conserved(shorter, attributions, items, ids);
      var target := SoleOf(attributions, last.id).target;
      if Contributes(last) {
        assert ChargedTo(sessions[n], attributions, target) && Charged(sessions, attributions, target);
      }
      SumOfOne(ids, target, Seconds(last));
      SumAdds(ids, w => Effort(shorter, attributions, w), w => if w == target then Seconds(last) else 0,
              w => Effort(sessions, attributions, w));
    }
  }
}
