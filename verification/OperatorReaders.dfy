/** The cache is shared: the views that a node's calls get, with any number of other readers. */
module OperatorReaders {
  import opened Wrappers
  import opened SlotClocks
  import opened OperatorsCaches
  import opened Operators
  import opened OperatorRuns
  import opened OperatorSchedule
  import opened OperatorOverlaps

  /**
   The moment a reader that asked at `now` leaves the cache: it stores its own reading if its fetch was
   usable, else it takes what is there. `fetch` is `NoBlock` for a hit. Readers leave in any order, so a
   reading may be stored late, over a newer one.
   */
  datatype Access = Access(now: nat, fetch: Fetch)

  predicate Stores(cfg: Config, a: Access)
    requires cfg.Valid()
  {
    a.now >= cfg.clock.GenesisMs() && Usable(a.fetch, cfg.clock.SlotBeginSec(a.now))
  }

  function Reading(cfg: Config, a: Access): CacheState
    requires cfg.Valid() && Stores(cfg, a)
  {
    CacheState(cfg.clock.SlotBeginSec(a.now), a.fetch.current.value, a.fetch.next.value)
  }

  // The cache after these accesses, which is also what the last of them got.
  function SharedAfter(cfg: Config, accesses: seq<Access>): Option<CacheState>
    requires cfg.Valid()
  {
    if accesses == [] then None
    else
      var n := |accesses| - 1;
      if Stores(cfg, accesses[n]) then Some(Reading(cfg, accesses[n])) else SharedAfter(cfg, accesses[..n])
  }

  // A whole request at one instant is such an access.
  lemma LookupIsAccess(cfg: Config, accesses: seq<Access>, now: nat, fetch: Fetch)
    requires cfg.Valid() && now >= cfg.clock.GenesisMs()
    ensures var slotSec, cache := cfg.clock.SlotBeginSec(now), SharedAfter(cfg, accesses);
            var hit := cache.Some? && cache.value.timestamp == slotSec;
            Lookup(cache, slotSec, fetch) == SharedAfter(cfg, accesses + [Access(now, if hit then NoBlock else fetch)])
  {
    var slotSec, cache := cfg.clock.SlotBeginSec(now), SharedAfter(cfg, accesses);
    var a := Access(now, if cache.Some? && cache.value.timestamp == slotSec then NoBlock else fetch);
    assert (accesses + [a])[..|accesses|] == accesses;
  }

  // Call i of the run got its view by access at[i], with no reader in it that asked later than the call.
  ghost predicate Serves(cfg: Config, accesses: seq<Access>, ticks: seq<Observation>, at: seq<nat>)
    requires cfg.Valid()
  {
    && |at| == |ticks|
    && forall i :: 0 <= i < |ticks| && Asks(cfg, ticks[i].now) ==> ServesCall(cfg, accesses, ticks[i], at[i])
  }

  ghost predicate ServesCall(cfg: Config, accesses: seq<Access>, o: Observation, k: nat)
    requires cfg.Valid()
  {
    && k < |accesses| && accesses[k].now == o.now && o.view == SharedAfter(cfg, accesses[..k + 1])
    && forall j :: 0 <= j <= k ==> accesses[j].now <= o.now
  }

  // Every usable fetch reads the operators of its epoch and the next.
  ghost predicate Reads(cfg: Config, sched: Schedule, accesses: seq<Access>)
    requires cfg.Valid()
  {
    forall k :: 0 <= k < |accesses| && Stores(cfg, accesses[k]) ==>
                  Reading(cfg, accesses[k]) == ViewAt(cfg, sched, accesses[k].now)
  }

  // What the cache holds is one access's own reading.
  lemma {:induction false} SharedHasSource(cfg: Config, accesses: seq<Access>) returns (k: nat)
    requires cfg.Valid() && SharedAfter(cfg, accesses).Some?
    ensures k < |accesses| && Stores(cfg, accesses[k]) && SharedAfter(cfg, accesses).value == Reading(cfg, accesses[k])
  {
    var n := |accesses| - 1;
    if Stores(cfg, accesses[n]) {
      k := n;
    } else {
      k := SharedHasSource(cfg, accesses[..n]);
    }
  }

  /** Whatever the other readers do, the views of a run follow the schedule that the fetches read. */
  lemma SharedViewsFollow(cfg: Config, sched: Schedule, accesses: seq<Access>, ticks: seq<Observation>, at: seq<nat>)
    requires cfg.Valid() && Serves(cfg, accesses, ticks, at) && Reads(cfg, sched, accesses)
    ensures Follows(cfg, sched, ticks)
  {
    forall i | 0 <= i < |ticks| && Asks(cfg, ticks[i].now) && ticks[i].view.Some?
      ensures Scheduled(cfg, sched, ticks[i].view.value, ticks[i].now)
    {
      assert ServesCall(cfg, accesses, ticks[i], at[i]);
      var k := SharedHasSource(cfg, accesses[..at[i] + 1]);
      ViewIsScheduled(cfg, sched, accesses[k].now, ticks[i].now);
    }
  }

  /**
   A decision in epoch e that does not fall back rests on a reading, by whichever reader, at a block
   whose timestamp is at or after the start of e.
   */
  lemma DecisionIsFresh(cfg: Config, accesses: seq<Access>, ticks: seq<Observation>, at: seq<nat>, i: nat)
      returns (k: nat)
    requires cfg.Valid() && Serves(cfg, accesses, ticks, at) && i < |ticks| && Accepts(cfg, ticks[i])
    ensures k < |accesses| && Stores(cfg, accesses[k]) && ticks[i].view == Some(Reading(cfg, accesses[k]))
    ensures cfg.clock.EpochBeginSec(cfg.clock.Epoch(ticks[i].now)).value <= accesses[k].fetch.timestamp
  {
    assert ServesCall(cfg, accesses, ticks[i], at[i]);
    k := SharedHasSource(cfg, accesses[..at[i] + 1]);
  }

  // An access at `now` with a usable fetch.
  function Fresh(cfg: Config, sched: Schedule, now: nat): Access
    requires cfg.Valid() && now >= cfg.clock.GenesisMs()
  {
    var v := ViewAt(cfg, sched, now);
    Access(now, Block(v.timestamp, Some(v.current), Some(v.next)))
  }

  /** The two calls of an overlapping run are served by a cache that another reader refreshed in between. */
  lemma OverlapIsServed(cfg: Config, sched: Schedule, past: nat, read: nat, now: nat)
    requires cfg.Valid() && cfg.clock.GenesisMs() <= past <= read <= now
    ensures var accesses := [Fresh(cfg, sched, past), Fresh(cfg, sched, read), Access(now, NoBlock)];
            var ticks := [Look(past, ViewAt(cfg, sched, past)), Look(now, ViewAt(cfg, sched, read))];
            Serves(cfg, accesses, ticks, [0, 2]) && Reads(cfg, sched, accesses)
  {
    var accesses := [Fresh(cfg, sched, past), Fresh(cfg, sched, read), Access(now, NoBlock)];
    assert accesses[..1] == [accesses[0]];
    assert accesses[..3][..2] == accesses[..2] && accesses[..3] == accesses;
    assert SharedAfter(cfg, accesses[..1]) == Some(ViewAt(cfg, sched, past));
    assert SharedAfter(cfg, accesses[..2]) == Some(ViewAt(cfg, sched, read));
    assert SharedAfter(cfg, accesses[..3]) == Some(ViewAt(cfg, sched, read));
  }
}
