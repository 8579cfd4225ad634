/** The sliding window as a property of a key's admission times. */
module SlidingWindow {

  predicate Sorted(times: seq<real>) {
    forall i, j :: 0 <= i <= j < |times| ==> times[i] <= times[j]
  }

  /** The admissions still inside the window: leading times at or before the
      cutoff are dropped. */
  function Recent(times: seq<real>, cutoff: real): seq<real> {
    if times != [] && times[0] <= cutoff then Recent(times[1..], cutoff) else times
  }

  /** The dropped part is a prefix of expired times, and the first time kept is not expired. */
  lemma {:induction false} RecentShape(times: seq<real>, cutoff: real)
    ensures var r := Recent(times, cutoff);
            && |r| <= |times| && r == times[|times| - |r|..]
            && (forall i :: 0 <= i < |times| - |r| ==> times[i] <= cutoff)
            && (r != [] ==> r[0] > cutoff)
  {
    if times != [] && times[0] <= cutoff { RecentShape(times[1..], cutoff); }
  }

  /** The quota decision over the full admission history. */
  predicate Allowed(history: seq<real>, now: real, quota: int, window: real) {
    |Recent(history, now - window)| < quota
  }

  /** What was pruned once stays pruned: later prunings of the rest decide as
      if nothing had ever been dropped. */
  lemma {:induction false} PruningForgetsNothing(history: seq<real>, n: nat, cutoff: real)
    requires n <= |history| && forall i :: 0 <= i < n ==> history[i] <= cutoff
    ensures Recent(history[n..], cutoff) == Recent(history, cutoff)
    decreases n
  {
    if n > 0 {
      assert history[1..][n - 1..] == history[n..];
      PruningForgetsNothing(history[1..], n - 1, cutoff);
    } else {
      assert history[0..] == history;
    }
  }

  /** The dropped part is exactly the times at or before the cutoff. */
  lemma RecentAre(times: seq<real>, cutoff: real, i: nat)
    requires Sorted(times) && i < |times|
    ensures |Recent(times, cutoff)| <= |times| && (i < |times| - |Recent(times, cutoff)| <==> times[i] <= cutoff)
  {
    RecentShape(times, cutoff);
    var r := Recent(times, cutoff);
    var n := |times| - |r|;
    if i >= n { assert times[n] == r[0] && times[n] <= times[i]; }
  }

  /** Any `quota` consecutive admissions after one another span a whole window. */
  predicate Spaced(times: seq<real>, quota: int, window: real) {
    forall i :: 0 <= i && quota > 0 && i + quota < |times| ==> times[i + quota] >= times[i] + window
  }

  lemma AdmissionKeepsSpacing(times: seq<real>, now: real, quota: int, window: real)
    requires Sorted(times) && Spaced(times, quota, window) && Allowed(times, now, quota, window)
    requires forall i :: 0 <= i < |times| ==> times[i] <= now
    ensures Sorted(times + [now]) && Spaced(times + [now], quota, window)
  {
    hide Recent, Spaced;
    if 0 < quota <= |times| {
      RecentAre(times, now - window, |times| - quota);
    }
    SpacedAppend(times, now, quota, window);
    SortedAppend(times, now);
  }

  lemma SortedAppend(times: seq<real>, now: real)
    requires Sorted(times) && forall i :: 0 <= i < |times| ==> times[i] <= now
    ensures Sorted(times + [now])
  {
  }

  lemma SpacedAppend(times: seq<real>, now: real, quota: int, window: real)
    requires Spaced(times, quota, window)
    requires 0 < quota <= |times| ==> now >= times[|times| - quota] + window
    ensures Spaced(times + [now], quota, window)
  {
    var all := times + [now];
    forall i | 0 <= i && quota > 0 && i + quota < |all| ensures all[i + quota] >= all[i] + window {
      var j := i + quota;
      assert all[i] == times[i];
      if j < |times| { assert times[i + quota] >= times[i] + window; }
    }
  }

  /** The indices of admissions in the half-open interval from `start`. */
  function Inside(times: seq<real>, start: real, window: real): set<nat> {
    set i: nat | i < |times| && start <= times[i] < start + window
  }

  lemma Span(times: seq<real>, quota: int, window: real, i: nat, j: nat)
    requires Sorted(times) && Spaced(times, quota, window) && quota > 0 && i + quota <= j < |times|
    ensures times[j] >= times[i] + window
  {
    assert times[i + quota] <= times[j];
  }

  /** Any half-open interval of one window holds at most `quota` admissions. */
  lemma WindowHoldsQuota(times: seq<real>, quota: int, window: real, start: real)
    requires Sorted(times) && Spaced(times, quota, window) && quota > 0
    ensures |Inside(times, start, window)| <= quota
  {
    var inside := Inside(times, start, window);
    if inside != {} {
      var first := First(inside);
      var range := Range(first, quota);
      forall i | i in inside ensures i in range {
        RangeIs(first, quota, i);
        if first + quota <= i { Span(times, quota, window, first, i); }
      }
      Subset(inside, range);
    }
  }

  lemma {:induction false} First(s: set<nat>) returns (first: nat)
    requires s != {}
    ensures first in s && forall i :: i in s ==> first <= i
    decreases s
  {
    var x :| x in s;
    first := x;
    if s != {x} {
      var other := First(s - {x});
      first := if other < x then other else x;
      assert forall i :: i in s ==> i == x || i in s - {x};
    }
  }

  function Range(first: nat, n: nat): (r: set<nat>)
    ensures |r| <= n
  {
    if n == 0 then {} else Range(first, n - 1) + {first + n - 1}
  }

  lemma {:induction false} RangeIs(first: nat, n: nat, i: nat)
    ensures i in Range(first, n) <==> first <= i < first + n
    decreases n
  {
    if n > 0 { RangeIs(first, n - 1, i); }
  }

  lemma {:induction false} Subset(one: set<nat>, other: set<nat>)
    requires one <= other
    ensures |one| <= |other|
  {
    if one != {} {
      var x :| x in one;
      Subset(one - {x}, other - {x});
    }
  }

  // -------------------------------------------------------------- Retry-After

  /** `math.ceil`. */
  function Ceil(x: real): (n: int)
    ensures (n - 1) as real < x <= n as real
  {
    -((-x).Floor)
  }

  /** `max(1, math.ceil(window - (now - oldest)))`. */
  function RetryAfter(oldest: real, now: real, window: real): int {
    var wait := Ceil(window - (now - oldest));
    if wait > 1 then wait else 1
  }

  /** The delay a quota rejection announces. */
  function Announced(history: seq<real>, now: real, window: real): int {
    var recent := Recent(history, now - window);
    if recent == [] then 1 else RetryAfter(recent[0], now, window)
  }

  /** The window never holds more than the quota. */
  lemma RecentWithinQuota(history: seq<real>, now: real, quota: int, window: real)
    requires Sorted(history) && Spaced(history, quota, window) && quota > 0
    requires forall i :: 0 <= i < |history| ==> history[i] <= now
    ensures |Recent(history, now - window)| <= quota
  {
    RecentShape(history, now - window);
    var r := Recent(history, now - window);
    var n := |history| - |r|;
    if |r| > quota { Span(history, quota, window, n, n + quota); }
  }

  /** After a quota rejection, and if no request intervenes, the same key is
      admitted after `d` whole seconds exactly when `d` is at least the
      announced delay: `Retry-After` is the least positive such delay. */
  lemma RetryAfterIsExact(history: seq<real>, now: real, quota: int, window: real, d: int)
    requires Sorted(history) && Spaced(history, quota, window) && quota > 0 && d > 0
    requires forall i :: 0 <= i < |history| ==> history[i] <= now
    requires !Allowed(history, now, quota, window)
    ensures Allowed(history, now + d as real, quota, window) <==> d >= Announced(history, now, window)
  {
    var r := Recent(history, now - window);
    RecentShape(history, now - window);
    RecentWithinQuota(history, now, quota, window);
    var n := |history| - |r|;
    var later := Recent(history, now + d as real - window);
    assert history[n] == r[0];
    RecentAre(history, now + d as real - window, n);
  }
}
