/** `RateLimitMiddleware`: admission of one request at a time, under its lock. */
module RateLimit {
  import opened Symbols
  import opened SlidingWindow

  type Path = string
  type Client = string

  datatype Limit = Limit(quota: int, window: real)

  datatype Key = Key(path: Path, client: Client)

  datatype ConfigError = MaxClientsNotPositive | CleanupIntervalNotPositive

  datatype Outcome =
    | NotLimited
    | Admitted
    | QuotaExceeded(retryAfter: int)
    | AtCapacity(retryAfter: int)
    | IndexError                     // a limit that allows nothing meets an empty deque

  const DEFAULT_LIMITS: map<Path, Limit> := map[
    "/api/v1/auth/login" := Limit(10, 60.0),
    "/api/v1/auth/setup" := Limit(5, 60.0),
    "/api/v1/task-space/commands:batch" := Limit(30, 60.0)]

  class RateLimitMiddleware {
    const limits: map<Path, Limit>
    const maxClients: int
    const cleanupInterval: real
    var nextCleanup: real
    var hits: map<Key, seq<real>>

    ghost var history: map<Key, seq<real>>      // every admission of every key
    ghost var clock: real                       // the latest reading

    ghost function HistoryOf(key: Key): seq<real>
      reads this`history
    {
      if key in history then history[key] else []
    }

    function Tracked(key: Key): seq<real>
      reads this`hits
    {
      if key in hits then hits[key] else []
    }

    /** The deque is the end of the key's history; the rest has expired. */
    ghost predicate KeyOk(key: Key)
      reads this
    {
      key.path in limits && Fits(limits[key.path], HistoryOf(key), Tracked(key), clock)
    }

    ghost predicate Valid()
      reads this
    {
      && maxClients >= 1 && |hits| <= maxClients && cleanupInterval > 0.0
      && (forall key :: key in hits ==> key.path in limits)
      && (forall key: Key :: key.path in limits ==> KeyOk(key))
    }

    constructor (limits: map<Path, Limit>, maxClients: int, cleanupInterval: real, now: real)
      requires maxClients >= 1 && cleanupInterval > 0.0
      ensures Valid() && hits == map[] && history == map[] && clock == now && nextCleanup == now + cleanupInterval
      ensures this.limits == (if limits == map[] then DEFAULT_LIMITS else limits) && this.maxClients == maxClients
      ensures this.cleanupInterval == cleanupInterval
    {
      this.limits := if limits == map[] then DEFAULT_LIMITS else limits;
      this.maxClients, this.cleanupInterval := maxClients, cleanupInterval;
      nextCleanup := now + cleanupInterval;
      hits, history, clock := map[], map[], now;
    }

    /** `__init__` with its configuration checks. */
    static method Make(limits: map<Path, Limit>, maxClients: int, cleanupInterval: real, now: real)
      returns (r: Result<RateLimitMiddleware, ConfigError>)
      ensures r.Ok? <==> maxClients >= 1 && cleanupInterval > 0.0
      ensures maxClients < 1 ==> r == Err(MaxClientsNotPositive)
      ensures maxClients >= 1 && cleanupInterval <= 0.0 ==> r == Err(CleanupIntervalNotPositive)
      ensures r.Ok? ==> fresh(r.value) && r.value.Valid() && r.value.maxClients == maxClients
      ensures r.Ok? ==> r.value.cleanupInterval == cleanupInterval && r.value.nextCleanup == now + cleanupInterval
      ensures r.Ok? ==> r.value.hits == map[] && r.value.history == map[] && r.value.clock == now
      ensures r.Ok? ==> r.value.limits == if limits != map[] then limits else map[
                "/api/v1/auth/login" := Limit(10, 60.0), "/api/v1/auth/setup" := Limit(5, 60.0),
                "/api/v1/task-space/commands:batch" := Limit(30, 60.0)]
    {
      if maxClients < 1 { return Err(MaxClientsNotPositive); }
      if cleanupInterval <= 0.0 { return Err(CleanupIntervalNotPositive); }
      var limiter := new RateLimitMiddleware(limits, maxClients, cleanupInterval, now);
      r := Ok(limiter);
    }

    ghost method Tick(now: real)
      requires Valid() && clock <= now
      modifies this`clock
      ensures Valid() && clock == now
    {
      hide Fits;
      forall key: Key | key.path in limits
        ensures Fits(limits[key.path], HistoryOf(key), Tracked(key), now)
      {
        assert KeyOk(key);
        TimePasses(limits[key.path], HistoryOf(key), Tracked(key), clock, now);
      }
      clock := now;
    }

    /** `_prune_key`: an expired key is forgotten altogether. */
    method PruneKey(key: Key, now: real) returns (timestamps: seq<real>)
      requires Valid() && key.path in limits && clock == now
      modifies this`hits
      ensures Valid()
      ensures timestamps == Recent(HistoryOf(key), now - limits[key.path].window)
      ensures timestamps == [] ==> hits == old(hits) - {key}
      ensures timestamps != [] ==> key in old(hits) && hits == old(hits)[key := timestamps]
    {
      hide Fits, Recent;
      var limit := limits[key.path];
      assert KeyOk(key);
      Pruned(limit, HistoryOf(key), Tracked(key), now);
      NoneRecent(now - limit.window);
      timestamps := PopExpired(Tracked(key), now - limit.window);
      if timestamps == [] {
        Forget(key);
      } else {
        Keep(key, timestamps);
      }
    }

    /** `del self._hits[key]`, once everything in the deque has expired. */
    method Forget(key: Key)
      requires Valid() && key.path in limits && Fits(limits[key.path], HistoryOf(key), [], clock)
      modifies this`hits
      ensures Valid() && hits == old(hits) - {key}
    {
      hide Fits;
      SizeWithout(hits, key);
      hits := hits - {key};
      forall other: Key | other.path in limits ensures KeyOk(other) { assert other != key ==> old(KeyOk(other)); }
    }

    /** The deque after its `popleft`s. */
    method Keep(key: Key, timestamps: seq<real>)
      requires Valid() && key in hits && Fits(limits[key.path], HistoryOf(key), timestamps, clock)
      modifies this`hits
      ensures Valid() && hits == old(hits)[key := timestamps]
    {
      hide Fits;
      SizeWith(hits, key, timestamps);
      hits := hits[key := timestamps];
      forall other: Key | other.path in limits ensures KeyOk(other) { assert other != key ==> old(KeyOk(other)); }
    }

    /** The loop of `_prune_key` over one deque. */
    static method PopExpired(deque: seq<real>, cutoff: real) returns (rest: seq<real>)
      ensures rest == Recent(deque, cutoff)
    {
      rest := deque;
      while rest != [] && rest[0] <= cutoff
        invariant Recent(rest, cutoff) == Recent(deque, cutoff)
      {
        rest := rest[1..];
      }
    }

    /** The key has an unexpired admission. */
    ghost predicate Lives(key: Key, now: real)
      reads this`history
    {
      key.path in limits && Recent(HistoryOf(key), now - limits[key.path].window) != []
    }

    /** The deque holds exactly the unexpired admissions, and is gone if there are none. */
    ghost predicate Cleaned(key: Key, now: real)
      reads this`hits, this`history
    {
      key.path in limits && Tracked(key) == Recent(HistoryOf(key), now - limits[key.path].window)
      && (key in hits <==> Tracked(key) != [])
    }

    /** One turn of the cleanup: `done` stays clean. */
    method CleanKey(key: Key, now: real, ghost done: set<Key>)
      requires Valid() && key.path in limits && clock == now && key !in done
      requires forall other :: other in done ==> Cleaned(other, now)
      modifies this`hits
      ensures Valid() && Cleaned(key, now) && hits.Keys <= old(hits).Keys
      ensures forall other :: other in done ==> Cleaned(other, now)
      ensures old(hits).Keys - {key} <= hits.Keys
    {
      hide Fits, Recent, Sorted, Spaced;
      var kept := PruneKey(key, now);
      forall other | other in done ensures Cleaned(other, now) { assert old(Cleaned(other, now)); }
    }

    /** `_periodic_cleanup`: when it is due, every deque is pruned and every
        expired key dropped. */
    method PeriodicCleanup(now: real)
      requires Valid() && clock == now
      modifies this`hits, this`nextCleanup
      ensures Valid()
      ensures now < old(nextCleanup) ==> hits == old(hits) && nextCleanup == old(nextCleanup)
      ensures hits.Keys <= old(hits).Keys
      ensures now >= old(nextCleanup) ==> nextCleanup == now + cleanupInterval
      ensures now >= old(nextCleanup) ==> forall key :: key in old(hits) ==> Cleaned(key, now)
      ensures hits.Keys == set key | key in old(hits) && (now >= old(nextCleanup) ==> Lives(key, now))
    {
      hide Fits, Recent, Sorted, Spaced;
      if now < nextCleanup { return; }
      ghost var all := hits.Keys;
      var todo := hits.Keys;
      while todo != {}
        invariant Valid() && todo <= hits.Keys <= all
        invariant forall key :: key in all - todo ==> Cleaned(key, now)
        decreases todo
      {
        var key :| key in todo;
        CleanKey(key, now, all - todo);
        todo := todo - {key};
      }
      assert forall key :: key in all ==> Cleaned(key, now);
      assert forall key :: key in all ==> (key in hits <==> Lives(key, now)) by { hide Fits, Recent; }
      nextCleanup := now + cleanupInterval;
    }

    /** The other keys a request at `now` leaves tracked: all of them, or those
        with an unexpired admission if the cleanup is due. */
    ghost function Survivors(key: Key, now: real): set<Key>
      reads this`hits, this`history, this`nextCleanup
    {
      set other | other in hits && other != key && (now >= nextCleanup ==> Lives(other, now))
    }

    /** The two calls a limited request makes first: the cleanup if it is due,
        then its own key. */
    method Refresh(key: Key, now: real) returns (timestamps: seq<real>)
      requires Valid() && clock <= now && key.path in limits
      modifies this`hits, this`clock, this`nextCleanup
      ensures Valid() && clock == now
      ensures nextCleanup == if now >= old(nextCleanup) then now + cleanupInterval else old(nextCleanup)
      ensures timestamps == Recent(HistoryOf(key), now - limits[key.path].window)
      ensures hits.Keys == old(Survivors(key, now)) + (if timestamps == [] then {} else {key})
      ensures key in hits <==> timestamps != []
      ensures timestamps != [] ==> hits[key] == timestamps
    {
      hide Valid, KeyOk, Cleaned, Fits, Recent, Sorted, Spaced, Lives;
      Tick(now);
      PeriodicCleanup(now);
      assert hits.Keys - {key} == old(Survivors(key, now));
      timestamps := PruneKey(key, now);
      assert hits.Keys - {key} == old(Survivors(key, now));
    }

    /** `__call__` up to the response: one request, under the lock. */
    method Call(path: Path, isPost: bool, client: Client, now: real) returns (outcome: Outcome)
      requires Valid() && clock <= now
      modifies this`hits, this`history, this`clock, this`nextCleanup
      ensures Valid()
      ensures outcome == NotLimited <==> !(isPost && path in limits)
      ensures outcome == NotLimited ==> hits == old(hits) && history == old(history)
      ensures forall other: Key :: other != Key(path, client) ==> HistoryOf(other) == old(HistoryOf(other))
      ensures nextCleanup == if outcome != NotLimited && now >= old(nextCleanup) then now + cleanupInterval
              else old(nextCleanup)
      ensures outcome != NotLimited ==>
                var limit, h := limits[path], old(HistoryOf(Key(path, client)));
                var recent := Recent(h, now - limit.window);
                && (outcome == Admitted ==> Allowed(h, now, limit.quota, limit.window))
                && (Allowed(h, now, limit.quota, limit.window) ==> outcome == Admitted || outcome.AtCapacity?)
                && HistoryOf(Key(path, client)) == (if outcome == Admitted then h + [now] else h)
                && (outcome.QuotaExceeded? ==> outcome.retryAfter == Announced(h, now, limit.window))
                && (outcome.AtCapacity? ==> outcome.retryAfter == AtLeastOne(Ceil(cleanupInterval)))
      ensures outcome != NotLimited ==>
                var key, limit := Key(path, client), limits[path];
                var recent, others := Recent(old(HistoryOf(key)), now - limit.window), old(Survivors(key, now));
                && (outcome.QuotaExceeded? <==> recent != [] && |recent| >= limit.quota)
                && (outcome.AtCapacity? <==> recent == [] && |others| >= maxClients)
                && (outcome == IndexError <==> recent == [] && |others| < maxClients && limit.quota <= 0)
                && hits.Keys == others + (if outcome.AtCapacity? then {} else {key})
                && (!outcome.AtCapacity? ==> hits[key] == if outcome == Admitted then recent + [now] else recent)
    {
      hide Valid, KeyOk, Fits, Recent, Sorted, Spaced, Survivors, Lives;
      if !isPost || path !in limits { return NotLimited; }
      var limit := limits[path];
      var key := Key(path, client);
      var timestamps := Refresh(key, now);
      assert |hits.Keys| == |hits|;
      if timestamps == [] && |hits| >= maxClients {
        return AtCapacity(AtLeastOne(Ceil(cleanupInterval)));
      }
      if timestamps == [] {
        AddKey(key);
      }
      if |timestamps| >= limit.quota {
        if timestamps == [] { return IndexError; }
        return QuotaExceeded(RetryAfter(timestamps[0], now, limit.window));
      }
      Append(key, now, timestamps);
      outcome := Admitted;
    }

    /** `self._hits[key] = deque()`. */
    method AddKey(key: Key)
      requires Valid() && key.path in limits && key !in hits && |hits| < maxClients
      modifies this`hits
      ensures Valid() && hits == old(hits)[key := []]
    {
      hide Fits;
      SizeWith(hits, key, []);
      assert KeyOk(key);
      hits := hits[key := []];
      forall other: Key | other.path in limits ensures KeyOk(other) { assert old(KeyOk(other)); }
    }

    /** `timestamps.append(now)`. */
    method Append(key: Key, now: real, timestamps: seq<real>)
      requires Valid() && clock == now && key in hits && hits[key] == timestamps
      requires timestamps == Recent(HistoryOf(key), now - limits[key.path].window)
               && |timestamps| < limits[key.path].quota
      modifies this`hits, this`history
      ensures Valid() && hits == old(hits)[key := timestamps + [now]]
      ensures HistoryOf(key) == old(HistoryOf(key)) + [now]
      ensures forall other: Key :: other != key ==> HistoryOf(other) == old(HistoryOf(other))
    {
      hide Fits, Recent;
      var limit := limits[key.path];
      assert KeyOk(key);
      Appended(limit, HistoryOf(key), timestamps, now);
      SizeWith(hits, key, timestamps + [now]);
      hits := hits[key := timestamps + [now]];
      history := history[key := HistoryOf(key) + [now]];
      forall other: Key | other.path in limits ensures KeyOk(other) { assert old(KeyOk(other)); }
    }

    static lemma SizeWithout(m: map<Key, seq<real>>, key: Key)
      ensures |m - {key}| <= |m|
    {
      assert (m - {key}).Keys == m.Keys - {key};
    }

    static lemma SizeWith(m: map<Key, seq<real>>, key: Key, value: seq<real>)
      ensures |m[key := value]| == |m| + (if key in m then 0 else 1)
    {
      assert m[key := value].Keys == m.Keys + {key};
    }

    /** Any half-open interval of one window holds at most `quota` admissions of a key. */
    lemma NeverTooMany(key: Key, start: real)
      requires Valid() && key.path in limits && limits[key.path].quota > 0
      ensures |Inside(HistoryOf(key), start, limits[key.path].window)| <= limits[key.path].quota
    {
      hide Fits, Sorted, Spaced, Inside;
      assert KeyOk(key);
      FitsGives(limits[key.path], HistoryOf(key), Tracked(key), clock);
      WindowHoldsQuota(HistoryOf(key), limits[key.path].quota, limits[key.path].window, start);
    }

    /** A key whose quota is used up at the latest reading is admitted again
        after exactly the announced whole seconds, and not earlier. */
    lemma RetryAfterHolds(key: Key, d: int)
      requires Valid() && key.path in limits && limits[key.path].quota > 0 && d > 0
      requires !Allowed(HistoryOf(key), clock, limits[key.path].quota, limits[key.path].window)
      ensures var limit := limits[key.path];
              Allowed(HistoryOf(key), clock + d as real, limit.quota, limit.window) <==>
                d >= Announced(HistoryOf(key), clock, limit.window)
    {
      hide Fits, Recent, Sorted, Spaced, Allowed, Announced;
      assert KeyOk(key);
      FitsGives(limits[key.path], HistoryOf(key), Tracked(key), clock);
      RetryAfterIsExact(HistoryOf(key), clock, limits[key.path].quota, limits[key.path].window, d);
    }
  }

  /** A limit that allows nothing raises on the first request of a client,
      instead of rejecting it. */
  method FirstUnderZeroQuota(path: Path, client: Client, start: real, now: real) returns (outcome: Outcome)
    requires start <= now
    ensures outcome == IndexError
  {
    var limiter := new RateLimitMiddleware(map[path := Limit(0, 60.0)], 1, 60.0, start);
    assert limiter.Survivors(Key(path, client), now) == {};
    NothingYet(now - 60.0);
    outcome := limiter.Call(path, true, client, now);
  }

  lemma NothingYet(cutoff: real)
    ensures Recent([], cutoff) == []
  {
  }

  /** `max(1, n)`. */
  function AtLeastOne(n: int): (r: int)
    ensures r >= 1 && r >= n && (r == n || r == 1)
  {
    if n > 1 then n else 1
  }

  /** A pruned deque stands for a whole history, and the history keeps its quota. */
  ghost predicate Fits(limit: Limit, all: seq<real>, kept: seq<real>, clock: real) {
    && Sorted(all) && (forall i :: 0 <= i < |all| ==> all[i] <= clock)
    && Spaced(all, limit.quota, limit.window)
    && |kept| <= |all| && kept == all[|all| - |kept|..]
    && (forall i :: 0 <= i < |all| - |kept| ==> all[i] <= clock - limit.window)
  }

  lemma FitsGives(limit: Limit, all: seq<real>, kept: seq<real>, clock: real)
    requires Fits(limit, all, kept, clock)
    ensures Sorted(all) && Spaced(all, limit.quota, limit.window) && forall i :: 0 <= i < |all| ==> all[i] <= clock
  {
  }

  lemma NoneRecent(cutoff: real)
    ensures Recent([], cutoff) == []
  {
  }

  lemma TimePasses(limit: Limit, all: seq<real>, kept: seq<real>, clock: real, now: real)
    requires Fits(limit, all, kept, clock) && clock <= now
    ensures Fits(limit, all, kept, now)
  {
  }

  /** The pruned deque makes the decision the full history makes. */
  lemma Pruned(limit: Limit, all: seq<real>, kept: seq<real>, now: real)
    requires Fits(limit, all, kept, now)
    ensures Recent(kept, now - limit.window) == Recent(all, now - limit.window)
    ensures Fits(limit, all, Recent(all, now - limit.window), now)
  {
    PruningForgetsNothing(all, |all| - |kept|, now - limit.window);
    RecentShape(all, now - limit.window);
  }

  lemma Appended(limit: Limit, all: seq<real>, kept: seq<real>, now: real)
    requires Fits(limit, all, kept, now) && kept == Recent(all, now - limit.window) && |kept| < limit.quota
    ensures Fits(limit, all + [now], kept + [now], now)
  {
    AdmissionKeepsSpacing(all, now, limit.quota, limit.window);
    assert (all + [now])[|all| - |kept|..] == kept + [now];
  }
}
