/**
 The cache in front of the preconfirmation whitelist: one remembered answer,
 refetched when its label is not the current slot, kept when the refetch fails.
 */
module OperatorsCaches {
  import opened Wrappers

  type Address = nat

  const ZERO_ADDRESS: Address := 0

  // `timestamp` is the slot start the answer was requested for, in seconds.
  datatype CacheState = CacheState(timestamp: int, current: Address, next: Address)

  // One refetch: the latest block and the two whitelist calls made at its hash, any of which may fail.
  datatype Fetch =
    | NoBlock
    | Block(timestamp: int, current: Option<Address>, next: Option<Address>)

  // The block is not behind the slot and both calls answered.
  predicate Usable(fetch: Fetch, slotSec: int) {
    fetch.Block? && fetch.timestamp >= slotSec && fetch.current.Some? && fetch.next.Some?
  }

  // The cache after a request; the same value is the reply, `None` being the error.
  function Lookup(cache: Option<CacheState>, slotSec: int, fetch: Fetch): Option<CacheState> {
    if cache.Some? && cache.value.timestamp == slotSec then cache
    else if Usable(fetch, slotSec) then Some(CacheState(slotSec, fetch.current.value, fetch.next.value))
    else cache
  }

  class OperatorsCache {
    var cache: Option<CacheState>

    constructor ()
      ensures cache == None
    {
      cache := None;
    }

    method UpdateCache(state: CacheState)
      modifies this
      ensures cache == Some(state)
    {
      cache := Some(state);
    }

    method GetOperatorsForCurrentAndNextEpoch(slotSec: int, fetch: Fetch) returns (r: Option<CacheState>)
      modifies this
      ensures cache == Lookup(old(cache), slotSec, fetch)
      ensures r == cache
    {
      if cache.Some? && cache.value.timestamp == slotSec {
        return cache;
      }
      if Usable(fetch, slotSec) {
        var state := CacheState(slotSec, fetch.current.value, fetch.next.value);
        UpdateCache(state);
        return Some(state);
      }
      r := cache;
    }
  }

  datatype Request = Request(slotSec: int, fetch: Fetch)

  function CacheAfter(requests: seq<Request>): Option<CacheState> {
    if requests == [] then None
    else
      var last := requests[|requests| - 1];
      Lookup(CacheAfter(requests[..|requests| - 1]), last.slotSec, last.fetch)
  }

  // `view` is what request r read, at a block not older than the label the view carries.
  predicate ReadBy(r: Request, view: CacheState) {
    && Usable(r.fetch, r.slotSec)
    && view == CacheState(r.slotSec, r.fetch.current.value, r.fetch.next.value)
    && view.timestamp <= r.fetch.timestamp
  }

  // Over every run of hits, refetches and failures a reply is one request's own reading.
  lemma {:induction false} ReplyHasSource(requests: seq<Request>)
    requires CacheAfter(requests).Some?
    ensures exists i :: 0 <= i < |requests| && ReadBy(requests[i], CacheAfter(requests).value)
  {
    var n := |requests| - 1;
    var before := CacheAfter(requests[..n]);
    if CacheAfter(requests) == before {
      ReplyHasSource(requests[..n]);
      var i :| 0 <= i < n && ReadBy(requests[..n][i], before.value);
      assert ReadBy(requests[i], before.value);
    } else {
      assert ReadBy(requests[n], CacheAfter(requests).value);
    }
  }
}
