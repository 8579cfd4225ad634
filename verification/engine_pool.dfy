/** The engine cache as a state machine: every step is one block that the
    asyncio lock, or the absence of an await, makes atomic. Entries and handles
    are addressed by ids, which stand for object identity. */
module EnginePool {
  import opened Symbols

  type Identity = nat
  type SpaceId = nat
  type EntryId = nat
  type HandleId = nat
  type Task = nat

  datatype Entry = Entry(identity: Identity, refs: nat)

  /** `Held`, then `Started` when release has begun, `Dropped` when its
      reference is given back but the release has not returned, `Released`. */
  datatype HandleState = Held | Started | Dropped | Released

  datatype Handle = Handle(space: SpaceId, entry: EntryId, owner: Task, state: HandleState)

  /** `polling`: the drain call is still looking; `quiesced`: it found the
      identity unreferenced and emptied the cache of it. */
  datatype Drain = Drain(owner: Task, polling: bool, quiesced: bool)

  datatype Pool = Pool(
    cache: map<SpaceId, EntryId>,
    entries: map<EntryId, Entry>,
    handles: map<HandleId, Handle>,
    draining: map<Identity, Drain>,
    disposed: set<EntryId>)

  const FRESH: Pool := Pool(map[], map[], map[], map[], {})

  datatype Action =
    | Acquire(space: SpaceId, identity: Identity, task: Task, entry: EntryId, handle: HandleId)
    | GetSession(space: SpaceId, identity: Identity, entry: EntryId)
    | BeginRelease(handle: HandleId, task: Task)
    | DropReference(handle: HandleId)
    | DisposeDropped(handle: HandleId, succeeds: bool)
    | BeginDrain(identity: Identity, task: Task)
    | PollDrain(identity: Identity)
    | CancelDrain(identity: Identity)
    | Resume(identity: Identity, task: Task)
    | Evict(space: SpaceId)                       // LRU eviction, dispose, dispose_all

  predicate Carries(p: Pool, space: SpaceId, identity: Identity) {
    space in p.cache && p.cache[space] in p.entries && p.entries[p.cache[space]].identity == identity
  }

  /** Some cached entry of the identity is referenced. */
  predicate Busy(p: Pool, identity: Identity) {
    exists space :: space in p.cache && Carries(p, space, identity) && p.entries[p.cache[space]].refs > 0
  }

  /** The engines a step hands to `engine.dispose()`. */
  function Disposes(p: Pool, action: Action): set<EntryId> {
    match action
    case DisposeDropped(h, _) => if h in p.handles && p.handles[h].state == Dropped then {p.handles[h].entry} else {}
    case PollDrain(identity) =>
      if identity in p.draining && p.draining[identity].polling && !Busy(p, identity) then
        set space | space in p.cache && Carries(p, space, identity) :: p.cache[space]
      else {}
    case Evict(space) => if space in p.cache then {p.cache[space]} else {}
    case _ => {}
  }

  /** `acquire`, the block under the lock. */
  function AcquireStep(p: Pool, space: SpaceId, identity: Identity, task: Task, e: EntryId, h: HandleId): Pool {
    if identity in p.draining || h in p.handles then p
    else if space in p.cache then
      var cached := p.cache[space];
      if cached !in p.entries || p.entries[cached].identity != identity then p
      else p.(entries := p.entries[cached := p.entries[cached].(refs := p.entries[cached].refs + 1)],
              handles := p.handles[h := Handle(space, cached, task, Held)])
    else if e in p.entries then p
    else p.(cache := p.cache[space := e], entries := p.entries[e := Entry(identity, 1)],
            handles := p.handles[h := Handle(space, e, task, Held)])
  }

  /** `_release_handle`, the block under the lock. */
  function DropStep(p: Pool, h: HandleId): Pool {
    if h !in p.handles || p.handles[h].state in {Held, Released} || p.handles[h].entry !in p.entries then p else
    var handle := p.handles[h];
    var e := handle.entry;
    var refs := if p.entries[e].refs > 0 then p.entries[e].refs - 1 else 0;
    var dropped := p.(entries := p.entries[e := p.entries[e].(refs := refs)]);
    if refs > 0 then dropped.(handles := p.handles[h := handle.(state := Released)])
    else dropped.(handles := p.handles[h := handle.(state := Dropped)],
                  cache := if handle.space in p.cache && p.cache[handle.space] == e then p.cache - {handle.space}
                  else p.cache)
  }

  function Next(p: Pool, action: Action): Pool {
    match action
    case Acquire(space, identity, task, e, h) => AcquireStep(p, space, identity, task, e, h)
    case GetSession(space, identity, e) =>
      if identity in p.draining || space in p.cache || e in p.entries then p
      else p.(cache := p.cache[space := e], entries := p.entries[e := Entry(identity, 0)])
    case BeginRelease(h, task) =>
      if h in p.handles && p.handles[h].owner == task && p.handles[h].state == Held
      then p.(handles := p.handles[h := p.handles[h].(state := Started)]) else p
    case DropReference(h) => DropStep(p, h)
    case DisposeDropped(h, succeeds) =>
      if h !in p.handles || p.handles[h].state != Dropped then p
      else p.(disposed := p.disposed + Disposes(p, action),
              handles := if succeeds then p.handles[h := p.handles[h].(state := Released)] else p.handles)
    case BeginDrain(identity, task) =>
      if identity in p.draining then p else p.(draining := p.draining[identity := Drain(task, true, false)])
    case PollDrain(identity) =>
      if identity !in p.draining || !p.draining[identity].polling || Busy(p, identity) then p
      else p.(cache := map space | space in p.cache && !Carries(p, space, identity) :: p.cache[space],
              disposed := p.disposed + Disposes(p, action),
              draining := p.draining[identity := p.draining[identity].(polling := false, quiesced := true)])
    case CancelDrain(identity) =>
      if identity in p.draining then p.(draining := p.draining[identity := p.draining[identity].(polling := false)])
         else p
    case Resume(identity, task) =>
      if identity in p.draining && p.draining[identity].owner == task then p.(draining := p.draining - {identity})
         else p
    case Evict(space) =>
      p.(disposed := p.disposed + Disposes(p, action), cache := p.cache - {space})
  }

  function Run(p: Pool, actions: seq<Action>): Pool {
    if actions == [] then p else Next(Run(p, actions[..|actions| - 1]), actions[|actions| - 1])
  }

  // ------------------------------------------------- the steps, column by column

  /** The cached engine of a Space, if it belongs to the identity. */
  predicate CachedFor(p: Pool, space: SpaceId, identity: Identity) {
    space in p.cache && p.cache[space] in p.entries && p.entries[p.cache[space]].identity == identity
  }

  ghost predicate Referenced(p: Pool, identity: Identity) {
    exists space :: CachedFor(p, space, identity) && p.entries[p.cache[space]].refs >= 1
  }

  /** Waits for a drain, refuses another path, or hands out one more reference. */
  ghost predicate Acquires(p: Pool, q: Pool, space: SpaceId, identity: Identity, task: Task, e: EntryId, h: HandleId) {
    if identity in p.draining || h in p.handles || (space in p.cache && !CachedFor(p, space, identity))
       || (space !in p.cache && e in p.entries) then q == p
    else
      var entry := if space in p.cache then p.cache[space] else e;
      var refs := if space in p.cache && entry in p.entries then p.entries[entry].refs else 0;
      q == Pool(p.cache[space := entry], p.entries[entry := Entry(identity, refs + 1)],
                p.handles[h := Handle(space, entry, task, Held)], p.draining, p.disposed)
  }

  /** One reference less, once; the last one takes the entry out of the cache. */
  ghost predicate GivesBack(p: Pool, q: Pool, h: HandleId) {
    if !(h in p.handles && (p.handles[h].state == Started || p.handles[h].state == Dropped)
         && p.handles[h].entry in p.entries) then q == p
    else
      var handle, entry := p.handles[h], p.entries[p.handles[h].entry];
      var left := if entry.refs == 0 then 0 else entry.refs - 1;
      && q == p.(cache := q.cache, entries := q.entries, handles := q.handles)
      && q.entries == p.entries[handle.entry := Entry(entry.identity, left)]
      && q.handles == p.handles[h := Handle(handle.space, handle.entry, handle.owner,
                                            if left >= 1 then Released else Dropped)]
      && q.cache == if left == 0 && handle.space in p.cache && p.cache[handle.space] == handle.entry
                    then p.cache - {handle.space} else p.cache
  }

  /** The identity's engines leave the cache and are disposed, all of them and
      no other, once none of them is referenced. */
  ghost predicate Drains(p: Pool, q: Pool, identity: Identity) {
    if !(identity in p.draining && p.draining[identity].polling) || Referenced(p, identity) then q == p else
    && q == p.(cache := q.cache, disposed := q.disposed, draining := q.draining)
    && (forall space :: space in q.cache <==> space in p.cache && !CachedFor(p, space, identity))
    && (forall space :: space in q.cache ==> q.cache[space] == p.cache[space])
    && (forall e :: e in q.disposed <==>
                      e in p.disposed || exists space :: CachedFor(p, space, identity) && p.cache[space] == e)
    && q.draining == p.draining[identity := Drain(p.draining[identity].owner, false, true)]
  }

  /** What each step changes, and that it changes nothing else. */
  ghost predicate Moves(p: Pool, action: Action, q: Pool) {
    match action
    case Acquire(space, identity, task, e, h) => Acquires(p, q, space, identity, task, e, h)
    case GetSession(space, identity, e) =>
      if identity in p.draining || space in p.cache || e in p.entries then q == p
      else q == p.(cache := p.cache[space := e], entries := p.entries[e := Entry(identity, 0)])
    case BeginRelease(h, task) =>
      q == if h in p.handles && p.handles[h] == Handle(p.handles[h].space, p.handles[h].entry, task, Held)
           then p.(handles := p.handles[h := Handle(p.handles[h].space, p.handles[h].entry, task, Started)]) else p
    case DropReference(h) => GivesBack(p, q, h)
    case DisposeDropped(h, succeeds) =>
      if !(h in p.handles && p.handles[h].state == Dropped) then q == p else
      && q == p.(disposed := p.disposed + {p.handles[h].entry}, handles := q.handles)
      && q.handles == if succeeds then p.handles[h := p.handles[h].(state := Released)] else p.handles
    case BeginDrain(identity, task) =>
      q == if identity in p.draining then p else p.(draining := p.draining[identity := Drain(task, true, false)])
    case PollDrain(identity) => Drains(p, q, identity)
    case CancelDrain(identity) =>
      if identity !in p.draining then q == p else
      var drain := p.draining[identity];
      q == p.(draining := p.draining[identity := Drain(drain.owner, false, drain.quiesced)])
    case Resume(identity, task) =>
      q == if identity in p.draining && p.draining[identity].owner == task
           then p.(draining := p.draining - {identity}) else p
    case Evict(space) =>
      q == p.(cache := p.cache - {space},
              disposed := if space in p.cache then p.disposed + {p.cache[space]} else p.disposed)
  }

  lemma PollMoves(p: Pool, identity: Identity)
    ensures Drains(p, Next(p, PollDrain(identity)), identity)
  {
    var q := Next(p, PollDrain(identity));
    assert Busy(p, identity) <==> Referenced(p, identity);
    if q != p {
      forall e ensures e in q.disposed <==>
                         e in p.disposed || exists space :: CachedFor(p, space, identity) && p.cache[space] == e
      {
        if space :| CachedFor(p, space, identity) && p.cache[space] == e { assert Carries(p, space, identity); }
      }
    }
  }

  lemma NextMoves(p: Pool, action: Action)
    ensures Moves(p, action, Next(p, action))
  {
    hide Drains, Busy;
    if action.PollDrain? {
      PollMoves(p, action.identity);
    }
  }

  // --------------------------------------------------------------- invariants

  predicate Outstanding(handle: Handle, e: EntryId) {
    handle.entry == e && (handle.state == Held || handle.state == Started)
  }

  /** The handles that still hold a reference to the entry. */
  function Holders(p: Pool, e: EntryId): set<HandleId> {
    set h | h in p.handles && Outstanding(p.handles[h], e)
  }

  predicate EntryOk(p: Pool, e: EntryId)
    requires e in p.entries
  {
    && p.entries[e].refs == |Holders(p, e)|
    && (e in p.disposed ==> p.entries[e].refs == 0 && e !in p.cache.Values)
  }

  predicate HandleOk(p: Pool, h: HandleId)
    requires h in p.handles
  {
    var handle := p.handles[h];
    && handle.entry in p.entries
    && (handle.state in {Held, Started} ==> handle.space in p.cache && p.cache[handle.space] == handle.entry)
    && (handle.state == Dropped ==> p.entries[handle.entry].refs == 0 && handle.entry !in p.cache.Values)
  }

  predicate CacheOk(p: Pool) {
    && p.disposed <= p.entries.Keys
    && (forall space :: space in p.cache ==> p.cache[space] in p.entries)
    && (forall s, t :: s in p.cache && t in p.cache && p.cache[s] == p.cache[t] ==> s == t)
  }

  predicate DrainOk(p: Pool) {
    forall identity :: identity in p.draining && p.draining[identity].quiesced ==>
      forall space :: space in p.cache ==> !Carries(p, space, identity)
  }

  predicate Inv(p: Pool) {
    && CacheOk(p) && DrainOk(p)
    && (forall e :: e in p.entries ==> EntryOk(p, e))
    && (forall h :: h in p.handles ==> HandleOk(p, h))
  }

  lemma HoldersGrow(p: Pool, q: Pool, h: HandleId, e: EntryId)
    requires h !in p.handles && h in q.handles && q.handles == p.handles[h := q.handles[h]]
             && Outstanding(q.handles[h], e)
    ensures |Holders(q, e)| == |Holders(p, e)| + 1
    ensures forall d :: d != e ==> Holders(q, d) == Holders(p, d)
  {
    assert Holders(q, e) == Holders(p, e) + {h};
  }

  lemma HoldersShrink(p: Pool, q: Pool, h: HandleId, e: EntryId)
    requires h in p.handles && Outstanding(p.handles[h], e)
    requires h in q.handles && q.handles == p.handles[h := q.handles[h]] && q.handles[h].entry == e
             && !Outstanding(q.handles[h], e)
    ensures |Holders(q, e)| == |Holders(p, e)| - 1
    ensures forall d :: d != e ==> Holders(q, d) == Holders(p, d)
  {
    assert Holders(q, e) == Holders(p, e) - {h};
  }

  lemma HoldersSame(p: Pool, q: Pool)
    requires q.handles.Keys == p.handles.Keys
    requires forall h, e ::
               h in p.handles && h in q.handles ==> (Outstanding(q.handles[h], e) <==> Outstanding(p.handles[h], e))
    ensures forall e :: Holders(q, e) == Holders(p, e)
  {
  }

  lemma AcquireCached(p: Pool, space: SpaceId, identity: Identity, task: Task, h: HandleId)
    requires Inv(p) && space in p.cache && Carries(p, space, identity) && identity !in p.draining && h !in p.handles
    ensures Inv(AcquireStep(p, space, identity, task, 0, h))
  {
    var q, e := AcquireStep(p, space, identity, task, 0, h), p.cache[space];
    HoldersGrow(p, q, h, e);
    hide Holders;
    assert EntryOk(p, e);
    forall d | d in q.entries ensures EntryOk(q, d) { assert EntryOk(p, d); }
    forall g | g in q.handles ensures HandleOk(q, g) { if g != h { assert HandleOk(p, g); } }
    forall identity, s | identity in q.draining && q.draining[identity].quiesced && s in q.cache
      ensures !Carries(q, s, identity)
    {
      assert !Carries(p, s, identity);
    }
  }

  lemma NewEntry(p: Pool, q: Pool, space: SpaceId, identity: Identity, e: EntryId)
    requires Inv(p) && space !in p.cache && e !in p.entries && identity !in p.draining
    requires q.cache == p.cache[space := e] && e in q.entries && q.entries == p.entries[e := q.entries[e]]
    requires q.entries[e].identity == identity && q.disposed == p.disposed && q.draining == p.draining
    ensures CacheOk(q) && DrainOk(q)
  {
    forall identity, s | identity in q.draining && q.draining[identity].quiesced && s in q.cache
      ensures !Carries(q, s, identity)
    {
      if s != space { assert !Carries(p, s, identity); }
    }
  }

  lemma NobodyHolds(p: Pool, e: EntryId)
    requires Inv(p) && e !in p.entries
    ensures Holders(p, e) == {}
  {
    forall g | g in p.handles ensures !Outstanding(p.handles[g], e) { assert HandleOk(p, g); }
  }

  lemma AcquireNew(p: Pool, space: SpaceId, identity: Identity, task: Task, e: EntryId, h: HandleId)
    requires Inv(p) && space !in p.cache && e !in p.entries && identity !in p.draining && h !in p.handles
    ensures Inv(AcquireStep(p, space, identity, task, e, h))
  {
    var q := AcquireStep(p, space, identity, task, e, h);
    HoldersGrow(p, q, h, e);
    NobodyHolds(p, e);
    hide Holders;
    NewEntry(p, q, space, identity, e);
    NewHandle(p, q, space, e, h);
    hide CacheOk, DrainOk, Carries, HandleOk;
    assert forall d :: d in q.cache.Values ==> d == e || d in p.cache.Values;
    forall d | d in q.entries ensures EntryOk(q, d) { if d != e { assert EntryOk(p, d); } }
  }

  lemma NewHandle(p: Pool, q: Pool, space: SpaceId, e: EntryId, h: HandleId)
    requires Inv(p) && space !in p.cache && e !in p.entries && h !in p.handles
    requires q.cache == p.cache[space := e] && e in q.entries && q.entries == p.entries[e := q.entries[e]]
    requires h in q.handles && q.handles == p.handles[h := q.handles[h]]
    requires q.handles[h].space == space && q.handles[h].entry == e && q.handles[h].state == Held
    ensures forall g :: g in q.handles ==> HandleOk(q, g)
  {
    hide EntryOk, DrainOk, Carries;
    assert forall d :: d in q.cache.Values ==> d == e || d in p.cache.Values;
    forall g | g in q.handles ensures HandleOk(q, g) { if g != h { assert HandleOk(p, g); } }
  }

  lemma SessionKeeps(p: Pool, space: SpaceId, identity: Identity, e: EntryId)
    requires Inv(p) && space !in p.cache && e !in p.entries && identity !in p.draining
    ensures Inv(Next(p, GetSession(space, identity, e)))
  {
    var q := Next(p, GetSession(space, identity, e));
    HoldersSame(p, q);
    NobodyHolds(p, e);
    hide Holders;
    NewEntry(p, q, space, identity, e);
    forall d | d in q.entries ensures EntryOk(q, d) { if d != e { assert EntryOk(p, d); } }
    forall g | g in q.handles ensures HandleOk(q, g) { assert HandleOk(p, g); }
  }

  /** Giving a reference back: the entry leaves the cache exactly when the
      last outstanding handle lets go of it. */
  lemma DropKeeps(p: Pool, h: HandleId)
    requires Inv(p) && h in p.handles && p.handles[h].state == Started
    ensures Inv(DropStep(p, h))
    ensures var e := p.handles[h].entry;
            DropStep(p, h).handles[h].state == if |Holders(p, e)| == 1 then Dropped else Released
  {
    var q, e := DropStep(p, h), p.handles[h].entry;
    assert HandleOk(p, h) && EntryOk(p, e);
    HoldersHave(p, h);
    HoldersShrink(p, q, h, e);
    OthersHold(p, q, h, e);
    DroppedCache(p, q, h, e);
    hide Holders, HandleOk, CacheOk, DrainOk, DropStep;
    assert p.disposed == q.disposed && q.entries == p.entries[e := q.entries[e]]
           && q.entries[e].refs == p.entries[e].refs - 1
           && (forall d :: d in q.cache.Values ==> d in p.cache.Values) by { assert GaveBack(p, q, h, e); }
    forall d | d in q.entries ensures EntryOk(q, d) { assert EntryOk(p, d); }
  }

  /** What giving a reference back leaves of the tables. */
  predicate GaveBack(p: Pool, q: Pool, h: HandleId, e: EntryId) {
    && e in p.entries && e in q.entries && p.disposed == q.disposed && q.entries == p.entries[e := q.entries[e]]
    && q.entries[e].refs == p.entries[e].refs - 1
    && (forall d :: d in q.cache.Values ==> d in p.cache.Values)
  }

  lemma DroppedCache(p: Pool, q: Pool, h: HandleId, e: EntryId)
    requires Inv(p) && h in p.handles && p.handles[h].state == Started && p.handles[h].entry == e && q == DropStep(p, h)
    requires e in p.entries && p.entries[e].refs == |Holders(p, e)| && |Holders(p, e)| >= 1
    ensures CacheOk(q) && DrainOk(q) && GaveBack(p, q, h, e)
  {
    hide EntryOk, HandleOk, Holders;
    forall identity, s | identity in q.draining && q.draining[identity].quiesced && s in q.cache
      ensures !Carries(q, s, identity)
    {
      assert !Carries(p, s, identity);
    }
  }

  lemma HoldersHave(p: Pool, h: HandleId)
    requires h in p.handles && Outstanding(p.handles[h], p.handles[h].entry)
    ensures h in Holders(p, p.handles[h].entry) && |Holders(p, p.handles[h].entry)| >= 1
  {
    assert h in Holders(p, p.handles[h].entry);
  }

  lemma OthersHold(p: Pool, q: Pool, h: HandleId, e: EntryId)
    requires Inv(p) && h in p.handles && p.handles[h].state == Started && p.handles[h].entry == e && q == DropStep(p, h)
    requires e in p.entries && p.entries[e].refs == |Holders(p, e)| && |Holders(q, e)| == |Holders(p, e)| - 1
    requires p.handles[h].space in p.cache && p.cache[p.handles[h].space] == e
    ensures forall g :: g in q.handles ==> HandleOk(q, g)
  {
    assert q.entries[e].refs == 0 ==> Holders(q, e) == {};
    forall g | g in q.handles ensures HandleOk(q, g) {
      assert HandleOk(p, g);
      assert Outstanding(q.handles[g], e) ==> g in Holders(q, e);
    }
  }

  /** A retried release finds its reference already given back. */
  lemma RetryChangesNothing(p: Pool, h: HandleId)
    requires Inv(p) && h in p.handles && p.handles[h].state == Dropped
    ensures DropStep(p, h) == p
  {
    assert HandleOk(p, h);
    var e := p.handles[h].entry;
    assert p.entries[e].(refs := 0) == p.entries[e];
    assert p.entries[e := p.entries[e].(refs := 0)] == p.entries;
    assert p.handles[h := p.handles[h].(state := Dropped)] == p.handles;
    if p.handles[h].space in p.cache { assert p.cache[p.handles[h].space] in p.cache.Values; }
  }

  lemma DisposeKeeps(p: Pool, h: HandleId, succeeds: bool)
    requires Inv(p) && h in p.handles && p.handles[h].state == Dropped
    ensures Inv(Next(p, DisposeDropped(h, succeeds)))
  {
    var q := Next(p, DisposeDropped(h, succeeds));
    assert HandleOk(p, h);
    HoldersSame(p, q);
    hide Holders;
    forall d | d in q.entries ensures EntryOk(q, d) { assert EntryOk(p, d); }
    forall g | g in q.handles ensures HandleOk(q, g) { assert HandleOk(p, g); }
    forall identity, s | identity in q.draining && q.draining[identity].quiesced && s in q.cache
      ensures !Carries(q, s, identity)
    {
      assert !Carries(p, s, identity);
    }
  }

  lemma PollKeeps(p: Pool, identity: Identity)
    requires Inv(p) && identity in p.draining && p.draining[identity].polling && !Busy(p, identity)
    ensures Inv(Next(p, PollDrain(identity)))
  {
    var q := Next(p, PollDrain(identity));
    HoldersSame(p, q);
    forall g | g in q.handles ensures HandleOk(q, g) {
      assert HandleOk(p, g);
      var handle := p.handles[g];
      if Outstanding(handle, handle.entry) {
        HoldersHave(p, g);
        assert EntryOk(p, handle.entry) && handle.space in p.cache;
        assert !Carries(p, handle.space, identity);
      }
    }
    hide Holders;
    forall d | d in q.entries ensures EntryOk(q, d) {
      assert EntryOk(p, d);
      if d in q.disposed && d !in p.disposed {
        var s :| s in p.cache && Carries(p, s, identity) && p.cache[s] == d;
        assert p.entries[p.cache[s]].refs == 0;
      }
    }
    forall other, s | other in q.draining && q.draining[other].quiesced && s in q.cache ensures !Carries(q, s, other) {
      if other != identity { assert !Carries(p, s, other); }
    }
  }

  lemma QuietKeeps(p: Pool, q: Pool)
    requires Inv(p) && q == p.(draining := q.draining, handles := q.handles)
    requires q.handles.Keys == p.handles.Keys
    requires forall h :: h in p.handles && h in q.handles ==>
               q.handles[h] == p.handles[h]
               || (p.handles[h].state == Held && q.handles[h] == p.handles[h].(state := Started))
    requires forall i :: i in q.draining && q.draining[i].quiesced ==> i in p.draining && p.draining[i].quiesced
    ensures Inv(q)
  {
    HoldersSame(p, q);
    hide Holders;
    forall d | d in q.entries ensures EntryOk(q, d) { assert EntryOk(p, d); }
    forall g | g in q.handles ensures HandleOk(q, g) { assert HandleOk(p, g); }
    forall identity, s | identity in q.draining && q.draining[identity].quiesced && s in q.cache
      ensures !Carries(q, s, identity)
    {
      assert !Carries(p, s, identity);
    }
  }

  lemma NextKeeps(p: Pool, action: Action)
    requires Inv(p) && !action.Evict?
    ensures Inv(Next(p, action))
  {
    hide Inv, Holders;
    var q := Next(p, action);
    if q == p { return; }
    match action
    case Acquire(space, identity, task, e, h) =>
      if space in p.cache {
        AcquireCached(p, space, identity, task, h);
      } else {
        AcquireNew(p, space, identity, task, e, h);
      }
    case GetSession(space, identity, e) => SessionKeeps(p, space, identity, e);
    case BeginRelease(_, _) => QuietKeeps(p, q);
    case DropReference(h) => if p.handles[h].state == Started { DropKeeps(p, h); } else { RetryChangesNothing(p, h); }
    case DisposeDropped(h, succeeds) => DisposeKeeps(p, h, succeeds);
    case BeginDrain(_, _) => QuietKeeps(p, q);
    case PollDrain(identity) => PollKeeps(p, identity);
    case CancelDrain(_) => QuietKeeps(p, q);
    case Resume(_, _) => QuietKeeps(p, q);
  }

  /** No cached engine is evicted or force-disposed along the run. */
  predicate NoEviction(actions: seq<Action>) {
    forall i :: 0 <= i < |actions| ==> !actions[i].Evict?
  }

  lemma {:induction false} RunKeeps(actions: seq<Action>)
    requires NoEviction(actions)
    ensures Inv(Run(FRESH, actions))
    decreases |actions|
  {
    hide Next, Inv;
    if actions == [] {
      assert Inv(FRESH) by { FreshOk(); }
    } else {
      RunKeeps(actions[..|actions| - 1]);
      NextKeeps(Run(FRESH, actions[..|actions| - 1]), actions[|actions| - 1]);
    }
  }

  lemma FreshOk()
    ensures Inv(FRESH)
  {
  }

  // ----------------------------------------------------------------- theorems

  /** Over every interleaving: an entry's count is the number of handles that
      still hold it, and whatever a step disposes has none. */
  lemma CountsAreExact(actions: seq<Action>, action: Action)
    requires NoEviction(actions) && !action.Evict?
    ensures var p := Run(FRESH, actions);
            && (forall e :: e in p.entries ==> p.entries[e].refs == |Holders(p, e)|)
            && (forall e :: e in Disposes(p, action) ==> Holders(p, e) == {} && e in p.entries)
  {
    var p := Run(FRESH, actions);
    RunKeeps(actions);
    hide Run, Holders;
    forall e | e in p.entries ensures p.entries[e].refs == |Holders(p, e)| { assert EntryOk(p, e); }
    forall e | e in Disposes(p, action) ensures Holders(p, e) == {} && e in p.entries {
      match action
      case DisposeDropped(h, _) => assert HandleOk(p, h) && EntryOk(p, e);
      case PollDrain(identity) =>
        var s :| s in p.cache && Carries(p, s, identity) && p.cache[s] == e;
        assert p.entries[p.cache[s]].refs == 0;
    }
  }

  /** An outstanding handle's engine is cached under its Space and was never disposed. */
  lemma HandlesAreAlive(actions: seq<Action>, h: HandleId)
    requires NoEviction(actions)
    ensures var p := Run(FRESH, actions);
            h in p.handles && p.handles[h].state in {Held, Started} ==>
              && p.handles[h].space in p.cache && p.cache[p.handles[h].space] == p.handles[h].entry
              && p.handles[h].entry !in p.disposed
  {
    var p := Run(FRESH, actions);
    RunKeeps(actions);
    hide Run;
    if h in p.handles && p.handles[h].state in {Held, Started} {
      assert HandleOk(p, h) && EntryOk(p, p.handles[h].entry);
      HoldersHave(p, h);
    }
  }

  /** `drain_identity` returned for this identity, and nobody resumed it. */
  predicate Undisturbed(actions: seq<Action>, identity: Identity) {
    forall i :: 0 <= i < |actions| ==> !actions[i].Evict? && !(actions[i].Resume? && actions[i].identity == identity)
  }

  /** From a successful poll until the resume no cached entry carries the
      identity, whatever happens in between. */
  lemma {:induction false} DrainedStaysEmpty(p: Pool, actions: seq<Action>, identity: Identity)
    requires Inv(p) && identity in p.draining && p.draining[identity].quiesced && Undisturbed(actions, identity)
    ensures var q := Run(p, actions);
            && Inv(q) && identity in q.draining && q.draining[identity].quiesced
            && forall space :: space in q.cache ==> !Carries(q, space, identity)
    decreases |actions|
  {
    hide EntryOk, HandleOk;
    if actions != [] {
      var shorter := actions[..|actions| - 1];
      DrainedStaysEmpty(p, shorter, identity);
      NextKeeps(Run(p, shorter), actions[|actions| - 1]);
      StaysDrained(Run(p, shorter), actions[|actions| - 1], identity);
    }
  }

  lemma StaysDrained(p: Pool, action: Action, identity: Identity)
    requires identity in p.draining && p.draining[identity].quiesced && !(action.Resume? && action.identity == identity)
    ensures identity in Next(p, action).draining && Next(p, action).draining[identity].quiesced
  {
  }

  /** A drain call that its owner repeats returns at once and changes nothing.
      The identity is then free of cached entries if the earlier call completed
      its poll; the next lemma shows that a cancelled one promises nothing. */
  lemma RepeatedDrainReturns(p: Pool, identity: Identity, task: Task)
    requires Inv(p) && identity in p.draining && p.draining[identity].owner == task
    ensures Next(p, BeginDrain(identity, task)) == p
    ensures p.draining[identity].quiesced ==> forall space :: space in p.cache ==> !Carries(p, space, identity)
  {
    hide EntryOk, HandleOk;
  }

  lemma CancelledDrainReturnsBusy(identity: Identity, space: SpaceId, user: Task, owner: Task)
    ensures var actions :=
              [Acquire(space, identity, user, 0, 0), BeginDrain(identity, owner), CancelDrain(identity),
               BeginDrain(identity, owner)];
            var p := Run(FRESH, actions);
            NoEviction(actions) && Carries(p, space, identity) && Busy(p, identity) && !p.draining[identity].quiesced
  {
    var a, b, c := Acquire(space, identity, user, 0, 0), BeginDrain(identity, owner), CancelDrain(identity);
    var one := Run(FRESH, [a]);
    assert [a][..0] == [] && Run(FRESH, []) == FRESH && one == Next(FRESH, a);
    assert [a, b][..1] == [a];
    assert [a, b, c][..2] == [a, b];
    assert [a, b, c, b][..3] == [a, b, c];
    assert Run(FRESH, [a, b]) == Next(one, b);
    assert Run(FRESH, [a, b, c]) == Next(Next(one, b), c);
    var p := Run(FRESH, [a, b, c, b]);
    assert p == Next(Next(Next(one, b), c), b);
    assert Carries(p, space, identity);
  }

  /** Eviction looks at no count: it disposes an engine with outstanding
      handles exactly when the evicted entry has some. */
  lemma EvictionIff(p: Pool, space: SpaceId)
    requires Inv(p) && space in p.cache
    ensures (exists e :: e in Disposes(p, Evict(space)) && Holders(p, e) != {}) <==> p.entries[p.cache[space]].refs > 0
  {
    assert EntryOk(p, p.cache[space]);
    assert p.cache[space] in Disposes(p, Evict(space));
  }
}
