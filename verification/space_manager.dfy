/** `SpaceEngineManager` and `EngineHandle.release` over the state they mutate. */
module SpaceManager {
  import opened Symbols
  import opened EnginePool

  datatype Acquired = Handed(handle: HandleId) | MustWait | PathMismatch

  datatype ReleaseOutcome = Done | AlreadyReleased | WrongTask | DisposeFailed

  datatype DrainOutcome = Quiet | StillPolling | OwnDrain | OwnerChanged

  class SpaceEngineManager {
    var cache: map<SpaceId, EntryId>
    var entries: map<EntryId, Entry>
    var handles: map<HandleId, Handle>
    var draining: map<Identity, Drain>
    var disposed: set<EntryId>

    function State(): Pool
      reads this
    {
      Pool(cache, entries, handles, draining, disposed)
    }

    predicate Valid()
      reads this
    {
      Inv(State())
    }

    constructor ()
      ensures Valid() && State() == FRESH
    {
      cache, entries, handles, draining, disposed := map[], map[], map[], map[], {};
      new;
      FreshOk();
    }

    /** `acquire`, one turn of its loop; `e` and `h` are the identities of the
        objects it would allocate. */
    method Acquire(space: SpaceId, identity: Identity, task: Task, e: EntryId, h: HandleId) returns (r: Acquired)
      requires Valid() && e !in entries && h !in handles
      modifies this
      ensures Valid()
      ensures State() == Next(old(State()), Action.Acquire(space, identity, task, e, h))
      ensures Moves(old(State()), Action.Acquire(space, identity, task, e, h), State())
      ensures r == MustWait <==> identity in old(draining)
      ensures r == PathMismatch <==>
                identity !in old(draining) && space in old(cache) && !Carries(old(State()), space, identity)
      ensures r.Handed? ==>
                && r.handle !in old(handles) && r.handle in handles
                && handles[r.handle] == Handle(space, cache[space], task, Held)
                && space in cache && Carries(State(), space, identity)
                && (space in old(cache) ==> cache[space] == old(cache)[space])
    {
      hide Inv, Moves;
      NextKeeps(State(), Action.Acquire(space, identity, task, e, h));
      NextMoves(State(), Action.Acquire(space, identity, task, e, h));
      CachedExists(State());
      if identity in draining { return MustWait; }
      if space in cache {
        var found := cache[space];
        if entries[found].identity != identity { return PathMismatch; }
        entries := entries[found := entries[found].(refs := entries[found].refs + 1)];
        handles := handles[h := Handle(space, found, task, Held)];
      } else {
        entries := entries[e := Entry(identity, 1)];
        cache := cache[space := e];
        handles := handles[h := Handle(space, e, task, Held)];
      }
      r := Handed(h);
    }

    static lemma CachedExists(p: Pool)
      requires Inv(p)
      ensures forall space :: space in p.cache ==> p.cache[space] in p.entries
      ensures forall h :: h in p.handles ==> p.handles[h].entry in p.entries
    {
      forall h | h in p.handles ensures p.handles[h].entry in p.entries { assert HandleOk(p, h); }
    }

    /** `_release_handle`, its block under the lock: true when nothing is left
        to dispose. */
    method DropReference(h: HandleId) returns (finished: bool)
      requires Valid() && h in handles && handles[h].state in {Started, Dropped}
      modifies this`cache, this`entries, this`handles
      ensures Valid() && State() == Next(old(State()), Action.DropReference(h))
      ensures Moves(old(State()), Action.DropReference(h), State())
      ensures h in handles && handles[h].state == (if finished then Released else Dropped)
    {
      hide Inv, Moves;
      NextKeeps(State(), Action.DropReference(h));
      NextMoves(State(), Action.DropReference(h));
      CachedExists(State());
      var handle := handles[h];
      var e := handle.entry;
      if entries[e].refs > 0 {
        entries := entries[e := entries[e].(refs := entries[e].refs - 1)];
      } else {
        assert entries[e := entries[e].(refs := 0)] == entries;
      }
      finished := entries[e].refs > 0;
      if finished {
        handles := handles[h := handle.(state := Released)];
      } else {
        handles := handles[h := handle.(state := Dropped)];
        if handle.space in cache && cache[handle.space] == e {
          cache := cache - {handle.space};
        }
      }
    }

    method DisposeDropped(h: HandleId, succeeds: bool)
      requires Valid() && h in handles && handles[h].state == Dropped
      modifies this`disposed, this`handles
      ensures Valid() && State() == Next(old(State()), Action.DisposeDropped(h, succeeds))
      ensures Moves(old(State()), Action.DisposeDropped(h, succeeds), State())
      ensures disposed == old(disposed) + {old(handles)[h].entry}
      ensures h in handles && handles[h].state == (if succeeds then Released else Dropped)
    {
      hide Inv, Moves;
      NextKeeps(State(), Action.DisposeDropped(h, succeeds));
      NextMoves(State(), Action.DisposeDropped(h, succeeds));
      disposed := disposed + {handles[h].entry};
      if succeeds { handles := handles[h := handles[h].(state := Released)]; }
    }

    /** `EngineHandle.release`, undisturbed. The reference is given back once,
        however often a failing release is tried again. */
    method Release(h: HandleId, task: Task, disposeSucceeds: bool) returns (outcome: ReleaseOutcome)
      requires Valid() && h in handles
      modifies this
      ensures Valid() && h in handles
      ensures outcome == AlreadyReleased <==> old(handles[h]).state == Released
      ensures outcome == WrongTask <==> old(handles[h]).state != Released && old(handles[h]).owner != task
      ensures outcome in {AlreadyReleased, WrongTask} ==> State() == old(State())
      ensures outcome in {Done, DisposeFailed} ==>
                State() == Next(Next(Next(old(State()), BeginRelease(h, task)), Action.DropReference(h)),
                                Action.DisposeDropped(h, disposeSucceeds))
      ensures outcome == Done ==> handles[h].state == Released
      ensures outcome == DisposeFailed ==> handles[h].state == Dropped && !disposeSucceeds
      ensures var e := old(handles[h]).entry;
              var holding := old(handles[h]).state in {Held, Started};
              outcome in {Done, DisposeFailed} ==>
                && e in entries && entries[e].refs == old(entries)[e].refs - (if holding then 1 else 0)
                && (e in disposed && e !in old(disposed) ==> entries[e].refs == 0)
    {
      hide Inv;
      CachedExists(State());
      var handle := handles[h];
      var e := handle.entry;
      if handle.state == Released { return AlreadyReleased; }
      if handle.owner != task { return WrongTask; }
      RefsOfHandle(State(), h);
      if handle.state == Held {
        NextKeeps(State(), BeginRelease(h, task));
        handles := handles[h := handle.(state := Started)];
      }
      var finished := DropReference(h);
      if finished { return Done; }
      DisposeDropped(h, disposeSucceeds);
      outcome := if disposeSucceeds then Done else DisposeFailed;
    }

    static lemma RefsOfHandle(p: Pool, h: HandleId)
      requires Inv(p) && h in p.handles
      ensures p.handles[h].entry in p.entries
      ensures p.handles[h].state in {Held, Started} ==> p.entries[p.handles[h].entry].refs > 0
      ensures p.handles[h].state == Dropped ==> p.entries[p.handles[h].entry].refs == 0
    {
      assert HandleOk(p, h) && EntryOk(p, p.handles[h].entry);
      if p.handles[h].state in {Held, Started} { HoldersHave(p, h); }
    }

    /** `drain_identity`, before its loop. */
    method StartDrain(identity: Identity, task: Task) returns (outcome: DrainOutcome)
      requires Valid()
      modifies this`draining
      ensures Valid() && State() == Next(old(State()), BeginDrain(identity, task))
      ensures Moves(old(State()), BeginDrain(identity, task), State())
      ensures outcome == (if identity !in old(draining) then StillPolling
                          else if old(draining)[identity].owner == task then OwnDrain else OwnerChanged)
      ensures if outcome == StillPolling then identity in draining && draining[identity].polling
              else State() == old(State())
    {
      hide Inv, Moves;
      NextKeeps(State(), BeginDrain(identity, task));
      NextMoves(State(), BeginDrain(identity, task));
      if identity in draining {
        return if draining[identity].owner == task then OwnDrain else OwnerChanged;
      }
      draining := draining[identity := Drain(task, true, false)];
      outcome := StillPolling;
    }

    /** One turn of the polling loop. */
    method Poll(identity: Identity) returns (done: bool)
      requires Valid() && identity in draining && draining[identity].polling
      modifies this`cache, this`draining, this`disposed
      ensures Valid() && State() == Next(old(State()), PollDrain(identity))
      ensures Moves(old(State()), PollDrain(identity), State())
      ensures done <==> !Busy(old(State()), identity)
      ensures done ==> identity in draining && draining[identity].quiesced && forall space ::
                space in cache ==> !Carries(State(), space, identity)
      ensures !done ==> State() == old(State())
    {
      hide Inv, Moves;
      NextKeeps(State(), PollDrain(identity));
      NextMoves(State(), PollDrain(identity));
      ghost var before := State();
      done := !exists space :: space in cache && Carries(State(), space, identity) && entries[cache[space]].refs > 0;
      if done {
        var gone := set space | space in cache && Carries(State(), space, identity) :: cache[space];
        disposed := disposed + gone;
        cache := map space | space in cache && !Carries(State(), space, identity) :: cache[space];
        draining := draining[identity := draining[identity].(polling := false, quiesced := true)];
        assert cache == Next(before, PollDrain(identity)).cache;
        assert disposed == Next(before, PollDrain(identity)).disposed;
        forall space | space in cache ensures !Carries(State(), space, identity) {
          assert !Carries(before, space, identity);
        }
      }
    }

    /** What other tasks do: they neither evict nor touch this drain. */
    static predicate LeavesDrain(action: Action, identity: Identity) {
      && !action.Evict? && action != CancelDrain(identity) && action != PollDrain(identity)
      && !(action.Resume? && action.identity == identity)
    }

    /** `drain_identity`, while the other tasks act between its polls as
        `others` says; it may still be polling when they are done. */
    method DrainIdentity(identity: Identity, task: Task, others: seq<Action>) returns (outcome: DrainOutcome)
      requires Valid() && forall i :: 0 <= i < |others| ==> LeavesDrain(others[i], identity)
      modifies this
      ensures Valid()
      ensures outcome == Quiet ==>
                identity in draining && draining[identity].quiesced && forall space ::
                  space in cache ==> !Carries(State(), space, identity)
      ensures outcome in {OwnDrain, OwnerChanged} ==> State() == old(State())
      ensures outcome in {OwnDrain, OwnerChanged} <==> identity in old(draining)
      ensures outcome == StillPolling ==> State() == Polled(old(State()), identity, task, others)
      ensures outcome == Quiet ==>
                exists n: nat ::
                  n < |others|
                  && State() == Next(Polled(old(State()), identity, task, others[..n]), PollDrain(identity))
    {
      hide Inv, Disposes, AcquireStep, DropStep, Next;
      ghost var before := State();
      outcome := StartDrain(identity, task);
      if outcome != StillPolling { return; }
      for i := 0 to |others|
        invariant Valid() && identity in draining && draining[identity].polling && outcome == StillPolling
        invariant State() == Polled(before, identity, task, others[..i])
      {
        assert others[..i + 1][..i] == others[..i];
        ghost var polled := State();
        var done := Poll(identity);
        if done {
          assert State() == Next(Polled(before, identity, task, others[..i]), PollDrain(identity));
          return Quiet;
        }
        StillPolled(State(), others[i], identity);
        NextKeeps(State(), others[i]);
        var next := Next(State(), others[i]);
        cache, entries, handles, draining, disposed := next.cache, next.entries, next.handles, next.draining,
        next.disposed;
      }
      assert others[..|others|] == others;
    }

    /** The drain begun, and then a poll before every action of the others. */
    static function Polled(p: Pool, identity: Identity, task: Task, others: seq<Action>): Pool {
      if others == [] then Next(p, BeginDrain(identity, task))
      else
        var n := |others| - 1;
        Next(Next(Polled(p, identity, task, others[..n]), PollDrain(identity)), others[n])
    }

    static lemma StillPolled(p: Pool, action: Action, identity: Identity)
      requires identity in p.draining && p.draining[identity].polling && LeavesDrain(action, identity)
      ensures identity in Next(p, action).draining && Next(p, action).draining[identity].polling
    {
    }

    /** `resume_identity`: true unless another task owns the drain. */
    method ResumeIdentity(identity: Identity, task: Task) returns (allowed: bool)
      requires Valid()
      modifies this`draining
      ensures Valid() && State() == Next(old(State()), Resume(identity, task))
      ensures Moves(old(State()), Resume(identity, task), State())
      ensures allowed <==> (identity in old(draining) ==> old(draining)[identity].owner == task)
      ensures allowed ==> identity !in draining
    {
      hide Inv, Moves;
      NextKeeps(State(), Resume(identity, task));
      NextMoves(State(), Resume(identity, task));
      allowed := true;
      if identity in draining {
        if draining[identity].owner != task { return false; }
        draining := draining - {identity};
      }
    }
  }
}
