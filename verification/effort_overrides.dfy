/** Computing with overrides is computing after the commit, and a correction
    moves exactly one Session's seconds. */
module EffortOverrides {
  import opened Symbols
  import opened EffortSpec
  import opened EffortProjection

  predicate NoRepeats<T(==)>(rows: seq<T>) {
    forall i, j :: 0 <= i < j < |rows| ==> rows[i] != rows[j]
  }

  lemma {:induction false} OnceEach<T>(rows: seq<T>, x: T)
    requires NoRepeats(rows)
    ensures multiset(rows)[x] == if x in rows then 1 else 0
    decreases |rows|
  {
    if rows != [] {
      var n := |rows| - 1;
      OnceEach(rows[..n], x);
      assert rows == rows[..n] + [rows[n]];
    }
  }

  lemma SameRows<T>(one: seq<T>, other: seq<T>)
    requires NoRepeats(one) && NoRepeats(other) && forall x :: x in one <==> x in other
    ensures multiset(one) == multiset(other)
  {
    forall x ensures multiset(one)[x] == multiset(other)[x] {
      OnceEach(one, x);
      OnceEach(other, x);
    }
  }

  // ---------------------------------------------------- overrides as a commit

  /** `rows` lists a table keyed by id, in any order. */
  ghost predicate ListsSessions(rows: seq<Session>, table: map<Id, Session>) {
    NoRepeats(rows) && forall s :: s in rows <==> s.id in table && table[s.id] == s
  }

  ghost predicate ListsAttributions(rows: seq<Attribution>, table: map<Id, Attribution>) {
    NoRepeats(rows) && forall a :: a in rows <==> a.id in table && table[a.id] == a
  }

  /** The Session table once the overriding rows are written. */
  function CommittedSessions(table: map<Id, Session>, overrides: map<Id, Session>): map<Id, Session> {
    map k | k in table :: if k in overrides then overrides[k] else table[k]
  }

  /** The attribution table once each overridden Session has exactly its new rows. */
  ghost predicate CommittedAttributions(table: map<Id, Attribution>, overrides: seq<(Id, Override)>,
                                        after: map<Id, Attribution>) {
    forall a: Attribution :: (a.id in after && after[a.id] == a) <==>
      (a.id in table && table[a.id] == a && a.session !in Names(overrides)) || a in Added(overrides)
  }

  predicate AllOf(rows: seq<Attribution>, session: Id) {
    forall a :: a in rows ==> a.session == session
  }

  predicate OwnRows(overrides: seq<(Id, Override)>) {
    forall i :: 0 <= i < |overrides| ==> AllOf(OverrideRows(overrides[i].1), overrides[i].0)
  }

  /** Every overriding row is keyed by its own Session, and no row repeats. */
  ghost predicate WellKeyed(table: map<Id, Session>, overrides: Overrides) {
    && (forall k :: k in table ==> table[k].id == k)
    && (forall k :: k in overrides.sessions ==> overrides.sessions[k].id == k)
    && NoRepeats(Added(overrides.attributions)) && !AnyMalformed(overrides.attributions)
    && OwnRows(overrides.attributions)
  }

  lemma SessionsCommitted(rows: seq<Session>, table: map<Id, Session>, overrides: map<Id, Session>, after: seq<Session>)
    requires ListsSessions(rows, table) && ListsSessions(after, CommittedSessions(table, overrides))
    requires (forall k :: k in table ==> table[k].id == k) && (forall k :: k in overrides ==> overrides[k].id == k)
    ensures multiset(Overridden(rows, overrides)) == multiset(after)
  {
    var now := Overridden(rows, overrides);
    forall i, j | 0 <= i < j < |now| ensures now[i] != now[j] {
      assert rows[i] in rows && rows[j] in rows;
      assert now[i].id == rows[i].id && now[j].id == rows[j].id;
    }
    forall s ensures s in now <==> s in after {
      if i :| 0 <= i < |now| && now[i] == s { assert rows[i] in rows; }
      if s in after {
        var row := table[s.id];
        assert row in rows;
        var i :| 0 <= i < |rows| && rows[i] == row;
        assert now[i] == s;
      }
    }
    SameRows(now, after);
  }

  lemma {:induction false} KeptNoRepeats(rows: seq<Attribution>, replaced: set<Id>)
    requires NoRepeats(rows)
    ensures NoRepeats(Kept(rows, replaced))
    decreases |rows|
  {
    if rows != [] {
      var n := |rows| - 1;
      KeptNoRepeats(rows[..n], replaced);
      assert rows[n] !in rows[..n];
    }
  }

  lemma {:induction false} AddedAreNamed(overrides: seq<(Id, Override)>, a: Attribution)
    requires OwnRows(overrides)
    ensures a in Added(overrides) ==> a.session in Names(overrides)
    decreases |overrides|
  {
    if overrides != [] {
      var n := |overrides| - 1;
      AddedAreNamed(overrides[..n], a);
      assert overrides[n].0 in Names(overrides);
      assert forall x :: x in Names(overrides[..n]) ==> x in Names(overrides);
    }
  }

  /** Keeping the rows of other Sessions and adding the new ones lists the
      table that holds exactly those. */
  lemma KeptAndAdded(rows: seq<Attribution>, table: map<Id, Attribution>, names: set<Id>, added: seq<Attribution>,
                     after: seq<Attribution>, committed: map<Id, Attribution>)
    requires ListsAttributions(rows, table) && ListsAttributions(after, committed) && NoRepeats(added)
    requires forall a :: a in added ==> a.session in names
    requires forall a: Attribution :: (a.id in committed && committed[a.id] == a) <==>
      (a.id in table && table[a.id] == a && a.session !in names) || a in added
    ensures multiset(Kept(rows, names) + added) == multiset(after)
  {
    var kept := Kept(rows, names);
    KeptNoRepeats(rows, names);
    NoRepeatsJoined(kept, added);
    var all := kept + added;
    assert forall a :: a in all <==> a in kept || a in added;
    SameRows(all, after);
  }

  lemma AttributionsCommitted(rows: seq<Attribution>, table: map<Id, Attribution>, overrides: seq<(Id, Override)>,
                              after: seq<Attribution>, committed: map<Id, Attribution>)
    requires ListsAttributions(rows, table) && ListsAttributions(after, committed)
             && CommittedAttributions(table, overrides, committed)
    requires NoRepeats(Added(overrides))
    requires OwnRows(overrides)
    ensures multiset(Replaced(rows, overrides)) == multiset(after)
  {
    hide Names, Added, Kept, ListsAttributions;
    forall a ensures a in Added(overrides) ==> a.session in Names(overrides) { AddedAreNamed(overrides, a); }
    KeptAndAdded(rows, table, Names(overrides), Added(overrides), after, committed);
  }

  lemma NoRepeatsJoined(one: seq<Attribution>, other: seq<Attribution>)
    requires NoRepeats(one) && NoRepeats(other) && forall a :: a in other ==> a !in one
    ensures NoRepeats(one + other)
  {
    var all := one + other;
    forall i, j | 0 <= i < j < |all| ensures all[i] != all[j] {
      if j >= |one| { assert all[j] in other; }
      if i < |one| { assert all[i] in one; }
    }
  }

  /** Computing with well-keyed overrides succeeds exactly when computing over
      the committed tables does, and gives every item the same effort. */
  lemma OverridesArePostState(
    sessions: seq<Session>, sessionTable: map<Id, Session>, attributions: seq<Attribution>,
    attributionTable: map<Id, Attribution>,
    items: Items, overrides: Overrides,
    afterSessions: seq<Session>, afterAttributions: seq<Attribution>, committed: map<Id, Attribution>)
    requires WellKeyed(sessionTable, overrides)
    requires ListsSessions(sessions, sessionTable) && ListsAttributions(attributions, attributionTable)
    requires ListsSessions(afterSessions, CommittedSessions(sessionTable, overrides.sessions))
    requires CommittedAttributions(attributionTable, overrides.attributions, committed)
             && ListsAttributions(afterAttributions, committed)
    ensures var s, a := Overridden(sessions, overrides.sessions), Replaced(attributions, overrides.attributions);
            && (Sound(s, a, items) <==> Sound(afterSessions, afterAttributions, items))
            && (forall effort :: IsProjection(effort, s, a) <==> IsProjection(effort, afterSessions, afterAttributions))
  {
    var s, a := Overridden(sessions, overrides.sessions), Replaced(attributions, overrides.attributions);
    SessionsCommitted(sessions, sessionTable, overrides.sessions, afterSessions);
    AttributionsCommitted(attributions, attributionTable, overrides.attributions, afterAttributions, committed);
    OrderDoesNotMatter(s, afterSessions, a, afterAttributions, items);
  }

  // --------------------------------------------------------------- corrections

  /** `collect_affected_work_item_ids`. */
  method CollectAffected(attributions: seq<Attribution>, items: Items, session: Id) returns (ids: set<Id>)
    ensures ids == Affected(attributions, items, session)
    ensures forall w :: w in ids <==>
              w != "" && w in items && exists a :: a in attributions && a.session == session && a.target == w
  {
    ids := {};
    for i := 0 to |attributions|
      invariant ids == Affected(attributions[..i], items, session)
    {
      var a := attributions[i];
      assert attributions[..i + 1] == attributions[..i] + [a];
      if a.session == session && a.target != "" && a.target in items {
        ids := ids + {a.target};
      }
    }
    assert attributions[..|attributions|] == attributions;
  }

  function Affected(attributions: seq<Attribution>, items: Items, session: Id): set<Id> {
    set a | a in attributions && a.session == session && a.target != "" && a.target in items :: a.target
  }

  lemma {:induction false} EffectiveAreRows(rows: seq<Attribution>, session: Id, a: Attribution)
    ensures a in EffectiveOf(rows, session) ==> a in rows && a.session == session
    decreases |rows|
  {
    if rows != [] { EffectiveAreRows(rows[..|rows| - 1], session, a); }
  }

  lemma {:induction false} NotTheirs(rows: seq<Attribution>, added: seq<Attribution>, session: Id)
    requires forall a :: a in added ==> a.session != session
    ensures EffectiveOf(rows + added, session) == EffectiveOf(rows, session)
    decreases |added|
  {
    if added == [] {
      assert rows + added == rows;
    } else {
      var n := |added| - 1;
      assert (rows + added)[..|rows| + n] == rows + added[..n];
      assert added[n] in added;
      NotTheirs(rows, added[..n], session);
    }
  }

  lemma {:induction false} KeptIsTheirs(rows: seq<Attribution>, corrected: Id, session: Id)
    requires session != corrected
    ensures EffectiveOf(Kept(rows, {corrected}), session) == EffectiveOf(rows, session)
    decreases |rows|
  {
    if rows != [] {
      var n := |rows| - 1;
      KeptIsTheirs(rows[..n], corrected, session);
      if rows[n].session != corrected {
        EffectiveAppend(Kept(rows[..n], {corrected}), [rows[n]], session);
        SingleEffective(rows[n], session);
      }
    }
  }

  /** Replacing one Session's rows leaves every other Session's alone. */
  lemma OthersKeepTheirs(rows: seq<Attribution>, corrected: Id, added: seq<Attribution>, session: Id)
    requires session != corrected && forall a :: a in added ==> a.session == corrected
    ensures EffectiveOf(Kept(rows, {corrected}) + added, session) == EffectiveOf(rows, session)
  {
    NotTheirs(Kept(rows, {corrected}), added, session);
    KeptIsTheirs(rows, corrected, session);
  }

  lemma SingleEffective(a: Attribution, session: Id)
    ensures EffectiveOf([a], session) == if a.effective && a.session == session then [a] else []
  {
    assert [a][..0] == [];
  }

  /** Sessions other than the corrected one contribute as before. */
  lemma {:induction false} OneMoves(sessions: seq<Session>, one: seq<Attribution>, other: seq<Attribution>, k: nat,
                                    w: Id)
    requires k < |sessions|
    requires forall i :: 0 <= i < |sessions| && i != k ==> Amount(sessions[i], one, w) == Amount(sessions[i], other, w)
    ensures Effort(sessions, other, w) + Amount(sessions[k], one, w) == Effort(sessions, one, w)
            + Amount(sessions[k], other, w)
    decreases |sessions|
  {
    var n := |sessions| - 1;
    if k == n {
      EffortRespects(sessions[..n], one, other, w);
    } else {
      OneMoves(sessions[..n], one, other, k, w);
    }
  }

  /** Correcting one Session's attribution moves exactly that Session's seconds
      from its old target to its new one, and nothing at all if it does not
      contribute; every item outside the collected ids and the new target is
      unchanged. */
  lemma CorrectionMovesOneSession(sessions: seq<Session>, attributions: seq<Attribution>, items: Items, k: nat,
                                  added: seq<Attribution>)
    requires "" !in items && k < |sessions|
    requires forall i, j :: 0 <= i < j < |sessions| ==> sessions[i].id != sessions[j].id
    requires forall a :: a in added ==> a.session == sessions[k].id
    requires Sound(sessions, attributions, items)
             && Sound(sessions, Replaced(attributions, [(sessions[k].id, Many(added))]), items)
    ensures var s, after := sessions[k], Replaced(attributions, [(sessions[k].id, Many(added))]);
            var from, onto := SoleOf(attributions, s.id).target, SoleOf(after, s.id).target;
            && (forall w :: Effort(sessions, after, w) + (if w == from then Seconds(s) else 0)
                            == Effort(sessions, attributions, w) + (if w == onto then Seconds(s) else 0))
            && (forall w :: w !in Affected(attributions, items, s.id) && w != onto ==>
                  Effort(sessions, after, w) == Effort(sessions, attributions, w))
  {
    var s, overrides := sessions[k], [(sessions[k].id, Many(added))];
    var after := Replaced(attributions, overrides);
    assert overrides[..0] == [] && overrides[0] == (s.id, Many(added));
    assert Names(overrides) == {s.id} && Added(overrides) == added;
    assert SessionSound(sessions[k], attributions, items) && SessionSound(sessions[k], after, items);
    var oldTarget, newTarget := SoleOf(attributions, s.id).target, SoleOf(after, s.id).target;
    EffectiveAreRows(attributions, s.id, SoleOf(attributions, s.id));
    hide EffectiveOf, Kept, Added, Effort, LevelTwo;
    forall w
      ensures Effort(sessions, after, w) + Amount(s, attributions, w) == Effort(sessions, attributions, w)
              + Amount(s, after, w)
    {
      forall i | 0 <= i < |sessions| && i != k
        ensures Amount(sessions[i], attributions, w) == Amount(sessions[i], after, w)
      {
        OthersKeepTheirs(attributions, s.id, added, sessions[i].id);
      }
      OneMoves(sessions, attributions, after, k, w);
    }
    LevelTwoExists(items, oldTarget);
  }

  lemma LevelTwoExists(items: Items, target: Id)
    ensures LevelTwo(items, target) ==> target in items
  {
  }
}
