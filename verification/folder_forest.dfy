/** The parent relation of the folder table, and what moving a folder does to it. */
module FolderForest {
  import opened Symbols

  type Id = string

  datatype Folder = Folder(parent: Option<Id>, trashed: bool, version: Option<int>)

  type Rows = map<Id, Folder>

  /** The parent of a folder; a missing row has none. */
  function Up(rows: Rows, at: Option<Id>): Option<Id> {
    if at.Some? && at.value in rows then rows[at.value].parent else None
  }

  function Climb(rows: Rows, at: Option<Id>, n: nat): Option<Id>
    decreases n
  {
    if n == 0 then at else Climb(rows, Up(rows, at), n - 1)
  }

  /** Following parents comes to an end. */
  ghost predicate Ends(rows: Rows, at: Option<Id>) {
    exists n: nat :: Climb(rows, at, n).None?
  }

  /** `below` is `above` or one of its descendants. */
  ghost predicate Under(rows: Rows, below: Id, above: Id) {
    exists n: nat :: Climb(rows, Some(below), n) == Some(above)
  }

  ghost predicate Acyclic(rows: Rows) {
    forall f :: f in rows ==> Ends(rows, Some(f))
  }

  /** Every parent is a row. */
  ghost predicate Closed(rows: Rows) {
    forall f :: f in rows && rows[f].parent.Some? ==> rows[f].parent.value in rows
  }

  /** Some folder is its own proper ancestor. */
  ghost predicate OwnAncestor(rows: Rows, f: Id) {
    exists n: nat :: n > 0 && Climb(rows, Some(f), n) == Some(f)
  }

  // ------------------------------------------------------------------- chains

  lemma {:induction false} ClimbOn(rows: Rows, at: Option<Id>, m: nat, n: nat)
    ensures Climb(rows, at, m + n) == Climb(rows, Climb(rows, at, m), n)
    decreases m
  {
    if m > 0 { ClimbOn(rows, Up(rows, at), m - 1, n); }
  }

  lemma {:induction false} PastTheEnd(rows: Rows, n: nat)
    ensures Climb(rows, None, n).None?
  {
    if n > 0 { PastTheEnd(rows, n - 1); }
  }

  /** A chain that is somewhere twice is there again and again. */
  lemma {:induction false} Rounds(rows: Rows, at: Option<Id>, period: nat, k: nat)
    requires period > 0 && Climb(rows, at, period) == at
    ensures Climb(rows, at, k * period) == at
  {
    if k > 0 {
      Rounds(rows, at, period, k - 1);
      assert k * period == (k - 1) * period + period;
      ClimbOn(rows, at, (k - 1) * period, period);
    }
  }

  lemma RepeatNeverEnds(rows: Rows, at: Option<Id>, i: nat, j: nat)
    requires i < j && Climb(rows, at, i) == Climb(rows, at, j) && Climb(rows, at, i).Some?
    ensures !Ends(rows, at)
  {
    var here, period := Climb(rows, at, i), j - i;
    ClimbOn(rows, at, i, period);
    forall n: nat ensures Climb(rows, at, n).Some? {
      Rounds(rows, here, period, n);
      ClimbOn(rows, at, i, n * period);
      var far := i + n * period;
      assert n <= far by { AtLeast(n, period); }
      ClimbOn(rows, at, n, far - n);
      PastTheEnd(rows, far - n);
    }
  }

  lemma AtLeast(n: nat, period: nat)
    requires period > 0
    ensures n <= n * period
  {
  }

  ghost predicate FirstSteps(rows: Rows, at: Option<Id>, n: nat, seen: set<Id>) {
    && (forall i :: 0 <= i < n ==> Climb(rows, at, i).Some? && Climb(rows, at, i).value in seen)
    && (forall x :: x in seen ==> x in rows && exists i :: 0 <= i < n && Climb(rows, at, i) == Some(x))
  }

  /** A chain ends unless it comes back to a folder it has met. */
  lemma EndsOrRepeats(rows: Rows, at: Option<Id>, n: nat, seen: set<Id>) returns (i: nat, j: nat)
    requires FirstSteps(rows, at, n, seen) && !Ends(rows, at)
    ensures i < j && Climb(rows, at, i) == Climb(rows, at, j)
    decreases rows.Keys - seen
  {
    var here := Climb(rows, at, n);
    assert here.Some?;
    if here.value in seen {
      i :| 0 <= i < n && Climb(rows, at, i) == here;
      j := n;
    } else {
      ClimbOn(rows, at, n, 1);
      assert Climb(rows, here, 1) == Up(rows, here);
      assert here.value in rows;
      i, j := EndsOrRepeats(rows, at, n + 1, seen + {here.value});
    }
  }

  /** The two readings of acyclicity agree. */
  lemma AcyclicIff(rows: Rows)
    ensures Acyclic(rows) <==> forall f :: f in rows ==> !OwnAncestor(rows, f)
  {
    forall f | f in rows && OwnAncestor(rows, f) ensures !Ends(rows, Some(f)) {
      var n: nat :| n > 0 && Climb(rows, Some(f), n) == Some(f);
      RepeatNeverEnds(rows, Some(f), 0, n);
    }
    forall f | f in rows && !Ends(rows, Some(f)) ensures exists g :: g in rows && OwnAncestor(rows, g) {
      var i, j := EndsOrRepeats(rows, Some(f), 0, {});
      var g := Climb(rows, Some(f), i).value;
      ClimbOn(rows, Some(f), i, j - i);
      ClimbOn(rows, Some(f), i, 1);
      assert Climb(rows, Some(g), 1) == Up(rows, Some(g));
      assert g in rows && OwnAncestor(rows, g);
    }
  }

  // ------------------------------------------------------------- re-parenting

  /** `rows` with `f` under `parent`; the other columns are the new row's. */
  predicate Reparented(rows: Rows, after: Rows, f: Id, parent: Option<Id>) {
    && after.Keys == rows.Keys + {f} && after[f].parent == parent
    && forall g :: g in rows && g != f ==> after[g] == rows[g]
  }

  /** A chain that avoids `f` is not affected. */
  lemma {:induction false} SameChain(rows: Rows, after: Rows, f: Id, parent: Option<Id>, at: Option<Id>, n: nat)
    requires Reparented(rows, after, f, parent) && forall i :: 0 <= i < n ==> Climb(rows, at, i) != Some(f)
    ensures Climb(after, at, n) == Climb(rows, at, n)
    decreases n
  {
    if n > 0 {
      assert Climb(rows, at, 0) == at;
      forall i | 0 <= i < n - 1 ensures Climb(rows, Up(rows, at), i) != Some(f) {
        assert Climb(rows, at, i + 1) != Some(f);
      }
      SameChain(rows, after, f, parent, Up(rows, at), n - 1);
    }
  }

  /** Every chain ends, once the chain from `f` does. */
  lemma {:induction false} EndsAgain(rows: Rows, after: Rows, f: Id, parent: Option<Id>, at: Option<Id>, n: nat)
    requires Reparented(rows, after, f, parent) && Climb(rows, at, n).None? && Ends(after, Some(f))
    ensures Ends(after, at)
    decreases n
  {
    if at.None? {
      assert Climb(after, at, 0).None?;
    } else if at != Some(f) {
      EndsAgain(rows, after, f, parent, Up(rows, at), n - 1);
      var m: nat :| Climb(after, Up(rows, at), m).None?;
      assert Climb(after, at, m + 1).None?;
    }
  }

  /** Moving (or adding) `f` below `p` keeps the relation acyclic exactly when
      `p` is neither `f` nor below it. */
  lemma ReparentIff(rows: Rows, after: Rows, f: Id, p: Id)
    requires Acyclic(rows) && Reparented(rows, after, f, Some(p))
    ensures Acyclic(after) <==> !Under(rows, p, f)
  {
    if Under(rows, p, f) {
      var n := FirstMeeting(rows, p, f);
      SameChain(rows, after, f, Some(p), Some(p), n);
      assert Climb(after, Some(f), n + 1) == Climb(after, Some(p), n);
      RepeatNeverEnds(after, Some(f), 0, n + 1);
    } else {
      assert Ends(rows, Some(p)) by {
        if p !in rows { assert Climb(rows, Some(p), 1) == Climb(rows, None, 0); }
      }
      var n: nat :| Climb(rows, Some(p), n).None?;
      SameChain(rows, after, f, Some(p), Some(p), n);
      assert Climb(after, Some(f), n + 1) == Climb(after, Some(p), n);
      AllEnd(rows, after, f, Some(p));
    }
  }

  lemma FirstMeeting(rows: Rows, p: Id, f: Id) returns (n: nat)
    requires Under(rows, p, f)
    ensures Climb(rows, Some(p), n) == Some(f) && forall i :: 0 <= i < n ==> Climb(rows, Some(p), i) != Some(f)
  {
    var m: nat :| Climb(rows, Some(p), m) == Some(f);
    n := 0;
    while Climb(rows, Some(p), n) != Some(f)
      invariant n <= m && forall i :: 0 <= i < n ==> Climb(rows, Some(p), i) != Some(f)
      decreases m - n
    {
      n := n + 1;
    }
  }

  lemma AllEnd(rows: Rows, after: Rows, f: Id, parent: Option<Id>)
    requires Acyclic(rows) && Reparented(rows, after, f, parent) && Ends(after, Some(f))
    ensures Acyclic(after)
  {
    forall g | g in after ensures Ends(after, Some(g)) {
      if g != f {
        var n: nat :| Climb(rows, Some(g), n).None?;
        EndsAgain(rows, after, f, parent, Some(g), n);
      }
    }
  }

  /** A folder made a root never closes a cycle. */
  lemma RootIsSafe(rows: Rows, after: Rows, f: Id)
    requires Acyclic(rows) && Reparented(rows, after, f, None)
    ensures Acyclic(after)
  {
    assert Climb(after, Some(f), 1) == Climb(after, None, 0);
    AllEnd(rows, after, f, None);
  }

  /** In a closed table nothing is under an id that has no row. */
  lemma {:induction false} ClosedChain(rows: Rows, at: Option<Id>, n: nat)
    requires Closed(rows) && (at.Some? ==> at.value in rows)
    ensures Climb(rows, at, n).Some? ==> Climb(rows, at, n).value in rows
    decreases n
  {
    if n > 0 { ClosedChain(rows, Up(rows, at), n - 1); }
  }

  lemma NothingUnderNewId(rows: Rows, p: Id, f: Id)
    requires Closed(rows) && p in rows && f !in rows
    ensures !Under(rows, p, f)
  {
    forall n: nat ensures Climb(rows, Some(p), n) != Some(f) { ClosedChain(rows, Some(p), n); }
  }
}
