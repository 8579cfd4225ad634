/** Soft-deleting a folder with everything active below it. */
module FolderCascade {
  import opened Symbols
  import opened FolderForest
  import opened FolderPolicy

  predicate Distinct<T(==)>(items: seq<T>) {
    forall i, j :: 0 <= i < j < |items| ==> items[i] != items[j]
  }

  /** The order in which an overlay lists its rows. */
  ghost predicate Lists(order: seq<Id>, keys: set<Id>) {
    Distinct(order) && forall x :: x in order <==> x in keys
  }

  predicate ActiveChild(rows: Rows, k: Id, f: Id) {
    k in rows && rows[k].parent == Some(f) && !rows[k].trashed
  }

  /** `_children_of`. */
  function ChildrenOf(rows: Rows, order: seq<Id>, f: Id): (kids: seq<Id>)
    ensures forall k :: k in kids <==> k in order && ActiveChild(rows, k, f)
    ensures Distinct(order) ==> Distinct(kids)
  {
    if order == [] then []
    else if ActiveChild(rows, order[0], f) then [order[0]] + ChildrenOf(rows, order[1..], f)
    else ChildrenOf(rows, order[1..], f)
  }

  // --------------------------------------------------------- active descent

  /** `d` is `n` steps below `f`, through active folders only. */
  predicate ActivePath(rows: Rows, d: Id, f: Id, n: nat)
    decreases n
  {
    n > 0 && d in rows && !rows[d].trashed && rows[d].parent.Some?
    && if n == 1 then rows[d].parent == Some(f) else ActivePath(rows, rows[d].parent.value, f, n - 1)
  }

  ghost predicate ActiveBelow(rows: Rows, d: Id, f: Id) {
    exists n: nat :: ActivePath(rows, d, f, n)
  }

  lemma {:induction false} PathClimbs(rows: Rows, d: Id, f: Id, n: nat)
    requires ActivePath(rows, d, f, n)
    ensures Climb(rows, Some(d), n) == Some(f)
    decreases n
  {
    if n == 1 {
      assert Climb(rows, Some(d), 1) == Climb(rows, Some(f), 0);
    } else {
      PathClimbs(rows, rows[d].parent.value, f, n - 1);
    }
  }

  /** The last step of a path is an active child of `f`. */
  lemma {:induction false} LastStep(rows: Rows, d: Id, f: Id, n: nat) returns (k: Id)
    requires n > 1 && ActivePath(rows, d, f, n)
    ensures ActiveChild(rows, k, f) && ActivePath(rows, d, k, n - 1)
    decreases n
  {
    var up := rows[d].parent.value;
    if n == 2 { k := up; } else { k := LastStep(rows, up, f, n - 1); }
  }

  lemma {:induction false} OneMore(rows: Rows, d: Id, k: Id, f: Id, n: nat)
    requires ActivePath(rows, d, k, n) && ActiveChild(rows, k, f)
    ensures ActivePath(rows, d, f, n + 1)
    decreases n
  {
    if n > 1 {
      OneMore(rows, rows[d].parent.value, k, f, n - 1);
    } else {
      assert ActivePath(rows, k, f, 1);
    }
  }

  ghost predicate Within(rows: Rows, d: Id, k: Id) {
    d == k || ActiveBelow(rows, d, k)
  }

  lemma BelowByChild(rows: Rows, d: Id, f: Id)
    ensures ActiveBelow(rows, d, f) <==> exists k :: ActiveChild(rows, k, f) && Within(rows, d, k)
  {
    if ActiveBelow(rows, d, f) {
      var n: nat :| ActivePath(rows, d, f, n);
      if n == 1 {
        assert ActiveChild(rows, d, f) && Within(rows, d, d);
      } else {
        var k := LastStep(rows, d, f, n);
        assert ActiveChild(rows, k, f) && Within(rows, d, k);
      }
    }
    if k :| ActiveChild(rows, k, f) && Within(rows, d, k) {
      if d == k {
        assert ActivePath(rows, d, f, 1);
      } else {
        var n: nat :| ActivePath(rows, d, k, n);
        OneMore(rows, d, k, f, n);
      }
    }
  }

  /** No folder the search from `f` meets is below itself. */
  ghost predicate Grounded(rows: Rows, f: Id) {
    forall d :: Within(rows, d, f) ==> !ActiveBelow(rows, d, d)
  }

  lemma AcyclicIsGrounded(rows: Rows, f: Id)
    requires Acyclic(rows)
    ensures Grounded(rows, f)
  {
    forall d ensures !ActiveBelow(rows, d, d) {
      if ActiveBelow(rows, d, d) {
        var n: nat :| ActivePath(rows, d, d, n);
        PathClimbs(rows, d, d, n);
        RepeatNeverEnds(rows, Some(d), 0, n);
      }
    }
  }

  ghost function Below(rows: Rows, f: Id): set<Id> {
    set d | d in rows && ActiveBelow(rows, d, f)
  }

  lemma WithinChild(rows: Rows, d: Id, k: Id, f: Id)
    requires ActiveChild(rows, k, f) && Within(rows, d, k)
    ensures ActiveBelow(rows, d, f)
  {
    BelowByChild(rows, d, f);
  }

  lemma BelowShrinks(rows: Rows, k: Id, f: Id)
    requires Grounded(rows, f) && ActiveChild(rows, k, f)
    ensures Grounded(rows, k) && Below(rows, k) < Below(rows, f)
  {
    forall d | Within(rows, d, k) ensures Within(rows, d, f) { WithinChild(rows, d, k, f); }
    WithinChild(rows, k, k, f);
    forall d | d in Below(rows, k) ensures d in Below(rows, f) { WithinChild(rows, d, k, f); }
    assert k in Below(rows, f) && k !in Below(rows, k);
  }

  // ------------------------------------------------------------- the search

  /** `_find_descendants`. */
  function FindDescendants(rows: Rows, order: seq<Id>, f: Id): seq<Id>
    requires Grounded(rows, f)
    decreases Below(rows, f), 1, 0
  {
    Flatten(rows, order, f, ChildrenOf(rows, order, f))
  }

  function Flatten(rows: Rows, order: seq<Id>, f: Id, kids: seq<Id>): seq<Id>
    requires Grounded(rows, f) && forall k :: k in kids ==> ActiveChild(rows, k, f)
    decreases Below(rows, f), 0, |kids|
  {
    if kids == [] then [] else
    var last := kids[|kids| - 1];
    assert ActiveChild(rows, last, f);
    BelowShrinks(rows, last, f);
    Flatten(rows, order, f, kids[..|kids| - 1]) + [last] + FindDescendants(rows, order, last)
  }

  method Descendants(rows: Rows, order: seq<Id>, f: Id) returns (result: seq<Id>)
    requires Grounded(rows, f)
    ensures result == FindDescendants(rows, order, f)
    decreases Below(rows, f)
  {
    var kids := ChildrenOf(rows, order, f);
    result := [];
    for i := 0 to |kids|
      invariant result == Flatten(rows, order, f, kids[..i])
    {
      assert kids[..i + 1][..i] == kids[..i];
      assert kids[i] in kids;
      BelowShrinks(rows, kids[i], f);
      var below := Descendants(rows, order, kids[i]);
      result := result + [kids[i]] + below;
    }
    assert kids[..|kids|] == kids;
  }

  // ------------------------------------------------------ when the search ends

  /** The same search, given up when the calls nest deeper than `depth`. */
  function Search(rows: Rows, order: seq<Id>, f: Id, depth: nat): Option<seq<Id>>
    decreases depth, 0
  {
    if depth == 0 then None else SearchAll(rows, order, ChildrenOf(rows, order, f), depth - 1)
  }

  function SearchAll(rows: Rows, order: seq<Id>, kids: seq<Id>, depth: nat): Option<seq<Id>>
    decreases depth, |kids| + 1
  {
    if kids == [] then Some([]) else
    var last := kids[|kids| - 1];
    var earlier, below := SearchAll(rows, order, kids[..|kids| - 1], depth), Search(rows, order, last, depth);
    if earlier.Some? && below.Some? then Some(earlier.value + [last] + below.value) else None
  }

  lemma SmallerSet<T>(a: set<T>, b: set<T>)
    requires a < b
    ensures |a| < |b|
  {
    assert |b - a| > 0 by {
      var x :| x in b && x !in a;
      assert x in b - a;
    }
    assert b == a + (b - a);
  }

  lemma {:induction false} EnoughDepth(rows: Rows, order: seq<Id>, f: Id, depth: nat)
    requires Grounded(rows, f) && depth > |Below(rows, f)|
    ensures Search(rows, order, f, depth) == Some(FindDescendants(rows, order, f))
    decreases depth, 0
  {
    EnoughForAll(rows, order, f, ChildrenOf(rows, order, f), depth - 1);
  }

  lemma {:induction false} EnoughForAll(rows: Rows, order: seq<Id>, f: Id, kids: seq<Id>, depth: nat)
    requires Grounded(rows, f) && depth >= |Below(rows, f)| && forall k :: k in kids ==> ActiveChild(rows, k, f)
    ensures SearchAll(rows, order, kids, depth) == Some(Flatten(rows, order, f, kids))
    decreases depth, |kids| + 1
  {
    if kids != [] {
      var last := kids[|kids| - 1];
      assert last in kids;
      BelowShrinks(rows, last, f);
      SmallerSet(Below(rows, last), Below(rows, f));
      EnoughForAll(rows, order, f, kids[..|kids| - 1], depth);
      EnoughDepth(rows, order, last, depth);
    }
  }

  lemma {:induction false} OneEndless(rows: Rows, order: seq<Id>, kids: seq<Id>, k: Id, depth: nat)
    requires k in kids && Search(rows, order, k, depth).None?
    ensures SearchAll(rows, order, kids, depth).None?
    decreases |kids|
  {
    var last := kids[|kids| - 1];
    if k != last {
      assert k in kids[..|kids| - 1];
      OneEndless(rows, order, kids[..|kids| - 1], k, depth);
    }
  }

  lemma {:induction false} LoopNeverEnds(rows: Rows, order: seq<Id>, f: Id, d: Id, depth: nat)
    requires Lists(order, rows.Keys) && Within(rows, d, f) && ActiveBelow(rows, d, d)
    ensures Search(rows, order, f, depth).None?
    decreases depth
  {
    if depth > 0 {
      BelowByChild(rows, d, f);
      var k :| ActiveChild(rows, k, f) && Within(rows, d, k);
      assert k in ChildrenOf(rows, order, f);
      LoopNeverEnds(rows, order, k, d, depth - 1);
      OneEndless(rows, order, ChildrenOf(rows, order, f), k, depth - 1);
    }
  }

  /** On any table: the search from a folder ends if and only if no folder it
      can reach through active children is below itself. */
  lemma SearchEndsIff(rows: Rows, order: seq<Id>, f: Id)
    requires Lists(order, rows.Keys)
    ensures (exists depth: nat :: Search(rows, order, f, depth).Some?) <==> Grounded(rows, f)
    ensures Grounded(rows, f) ==> Search(rows, order, f, |Below(rows, f)| + 1) == Some(FindDescendants(rows, order, f))
  {
    if Grounded(rows, f) {
      EnoughDepth(rows, order, f, |Below(rows, f)| + 1);
    } else {
      var d :| Within(rows, d, f) && ActiveBelow(rows, d, d);
      forall depth: nat ensures Search(rows, order, f, depth).None? { LoopNeverEnds(rows, order, f, d, depth); }
    }
  }

  /** The cycle that a create can close is such a table: deleting either
      folder searches forever. */
  lemma ClosedCycleIsEndless(a: Id, b: Id, order: seq<Id>, depth: nat)
    requires a != b
    requires var rows := Apply(map[a := Folder(Some(b), false, Some(1))], Create(b, Some(a), false));
             Lists(order, rows.Keys)
    ensures var rows := Apply(map[a := Folder(Some(b), false, Some(1))], Create(b, Some(a), false));
            Search(rows, order, a, depth).None?
  {
    CreateCanCloseCycle(a, b);
    var rows := Apply(map[a := Folder(Some(b), false, Some(1))], Create(b, Some(a), false));
    assert ActivePath(rows, b, a, 1) && ActivePath(rows, a, a, 2);
    LoopNeverEnds(rows, order, a, a, depth);
  }

  // ------------------------------------------- every active descendant, once

  lemma WithinClimbs(rows: Rows, d: Id, k: Id) returns (n: nat)
    requires Within(rows, d, k)
    ensures Climb(rows, Some(d), n) == Some(k) && (n > 0 ==> ActivePath(rows, d, k, n)) && (n == 0 ==> d == k)
  {
    if d == k {
      n := 0;
    } else {
      n :| ActivePath(rows, d, k, n);
      PathClimbs(rows, d, k, n);
    }
  }

  /** The rest of a path, from any folder on it. */
  lemma {:induction false} RestOfPath(rows: Rows, d: Id, at: Id, f: Id, m: nat, n: nat)
    requires m < n && ActivePath(rows, d, f, n) && Climb(rows, Some(d), m) == Some(at)
    ensures ActivePath(rows, at, f, n - m)
    decreases m
  {
    if m > 0 {
      RestOfPath(rows, rows[d].parent.value, at, f, m - 1, n - 1);
    }
  }

  /** Where the search ends, nothing is within two different children. */
  lemma ChildrenApart(rows: Rows, f: Id, one: Id, other: Id, d: Id)
    requires Grounded(rows, f) && ActiveChild(rows, one, f) && ActiveChild(rows, other, f)
    requires Within(rows, d, one) && Within(rows, d, other)
    ensures one == other
  {
    var m := WithinClimbs(rows, d, one);
    var n := WithinClimbs(rows, d, other);
    if m < n { NotBelowSibling(rows, f, one, other, d, m, n); }
    if n < m { NotBelowSibling(rows, f, other, one, d, n, m); }
  }

  lemma NotBelowSibling(rows: Rows, f: Id, one: Id, other: Id, d: Id, m: nat, n: nat)
    requires Grounded(rows, f) && ActiveChild(rows, one, f) && ActiveChild(rows, other, f)
    requires Climb(rows, Some(d), m) == Some(one) && n > 0 && ActivePath(rows, d, other, n)
    ensures m >= n
  {
    if m < n {
      RestOfPath(rows, d, one, other, m, n);
      assert ActivePath(rows, one, other, n - m);
      if n - m == 1 {
        assert f == other;
        assert ActivePath(rows, f, f, 1);
      } else {
        assert ActivePath(rows, f, other, n - m - 1);
        WithinChild(rows, f, other, f);
      }
      assert ActiveBelow(rows, f, f) && Within(rows, f, f);
    }
  }

  /** `_find_descendants` lists every active descendant exactly once. */
  lemma {:induction false} FindsAll(rows: Rows, order: seq<Id>, f: Id)
    requires Grounded(rows, f) && Lists(order, rows.Keys)
    ensures forall d :: d in FindDescendants(rows, order, f) <==> ActiveBelow(rows, d, f)
    ensures Distinct(FindDescendants(rows, order, f))
    decreases Below(rows, f), 1, 0
  {
    var kids := ChildrenOf(rows, order, f);
    FlattensAll(rows, order, f, kids);
    forall d ensures d in FindDescendants(rows, order, f) <==> ActiveBelow(rows, d, f) {
      BelowByChild(rows, d, f);
      assert forall k :: k in kids <==> ActiveChild(rows, k, f);
    }
  }

  lemma {:induction false} FlattensAll(rows: Rows, order: seq<Id>, f: Id, kids: seq<Id>)
    requires Grounded(rows, f) && Lists(order, rows.Keys) && Distinct(kids) && forall k ::
               k in kids ==> ActiveChild(rows, k, f)
    ensures forall d :: d in Flatten(rows, order, f, kids) <==> exists k :: k in kids && Within(rows, d, k)
    ensures Distinct(Flatten(rows, order, f, kids))
    decreases Below(rows, f), 0, |kids|
  {
    if kids != [] {
      var n := |kids| - 1;
      var k, earlier := kids[n], Flatten(rows, order, f, kids[..n]);
      assert k in kids && kids == kids[..n] + [k];
      BelowShrinks(rows, k, f);
      FlattensAll(rows, order, f, kids[..n]);
      FindsAll(rows, order, k);
      assert Within(rows, k, k);
      var below := FindDescendants(rows, order, k);
      assert Flatten(rows, order, f, kids) == earlier + ([k] + below);
      assert forall d :: d in [k] + below <==> Within(rows, d, k);
      hide Grounded, Within, ActiveBelow, ActiveChild, Flatten, FindDescendants;
      forall d | d in earlier ensures d !in [k] + below {
        var other :| other in kids[..n] && Within(rows, d, other);
        if d in [k] + below {
          ChildrenApart(rows, f, k, other, d);
        }
      }
      Joined([k], below);
      Joined(earlier, [k] + below);
      WithinOneMore(rows, kids, earlier, [k] + below);
    }
  }

  lemma WithinOneMore(rows: Rows, kids: seq<Id>, earlier: seq<Id>, last: seq<Id>)
    requires kids != []
    requires var n := |kids| - 1;
             && (forall d :: d in earlier <==> exists k :: k in kids[..n] && Within(rows, d, k))
             && (forall d :: d in last <==> Within(rows, d, kids[n]))
    ensures forall d :: d in earlier + last <==> exists k :: k in kids && Within(rows, d, k)
  {
    hide Within;
    var n := |kids| - 1;
    assert kids == kids[..n] + [kids[n]];
    forall d ensures d in earlier + last <==> exists k :: k in kids && Within(rows, d, k) {
      if k :| k in kids && Within(rows, d, k) {
        assert k in kids[..n] || k == kids[n];
      }
    }
  }

  lemma Joined<T>(one: seq<T>, other: seq<T>)
    requires Distinct(one) && Distinct(other) && forall x :: x in one ==> x !in other
    ensures Distinct(one + other)
  {
    var all := one + other;
    forall i, j | 0 <= i < j < |all| ensures all[i] != all[j] {
      if j >= |one| { assert all[j] in other; }
      if i < |one| { assert all[i] in one; }
    }
  }
}
