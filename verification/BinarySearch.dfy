/**
 The slow path of `LastSafeL2BlockFinder`: a binary search over block numbers
 whose only access to the chain is one fetch per probed block.
 */
module BinarySearch {
  import opened Wrappers
  import opened Arithmetic

  // What the execution layer answers for a block: its proposal id, or an RPC error.
  type Fetcher = nat -> Option<nat>

  ghost predicate Answers(fetch: Fetcher, start: nat, end: nat) {
    forall b: nat {:trigger fetch(b)} :: start < b <= end ==> fetch(b).Some?
  }

  // Proposal ids never decrease along the blocks that answer.
  ghost predicate NonDecreasing(fetch: Fetcher, start: nat, end: nat) {
    forall a: nat, b: nat {:trigger fetch(a), fetch(b)} ::
      start < a <= b <= end && fetch(a).Some? && fetch(b).Some? ==> fetch(a).value <= fetch(b).value
  }

  ghost predicate AtMost(fetch: Fetcher, block: nat, target: nat) {
    fetch(block).Some? && fetch(block).value <= target
  }

  // `block` is the greatest block of (start, end] whose id is at most `target`.
  ghost predicate IsLast(fetch: Fetcher, start: nat, end: nat, target: nat, block: nat) {
    && start < block <= end
    && AtMost(fetch, block, target)
    && forall b: nat {:trigger fetch(b)} :: block < b <= end && fetch(b).Some? ==> fetch(b).value > target
  }

  // Floor of the base-2 logarithm, the cost measure of a halving search.
  function FloorLog2(n: nat): (k: nat)
    requires n > 0
  {
    if n == 1 then 0 else 1 + FloorLog2(n / 2)
  }

  lemma {:induction false} FloorLog2IsFloor(n: nat)
    requires n > 0
    ensures Pow2(FloorLog2(n)) <= n < 2 * Pow2(FloorLog2(n))
  {
    if n > 1 {
      FloorLog2IsFloor(n / 2);
    }
  }

  lemma {:induction false} FloorLog2Monotone(m: nat, n: nat)
    requires 0 < m <= n
    ensures FloorLog2(m) <= FloorLog2(n)
  {
    if m > 1 {
      FloorLog2Monotone(m / 2, n / 2);
    }
  }

  // Probes left for a window of `width` candidate blocks.
  function Budget(width: nat): (k: nat) {
    if width == 0 then 0 else FloorLog2(width) + 1
  }

  lemma BudgetHalves(width: nat, rest: nat)
    requires width > 0 && rest <= width / 2
    ensures Budget(rest) + 1 <= Budget(width)
  {
    if rest > 0 {
      FloorLog2Monotone(rest, width / 2);
    }
  }

  /**
   Searches (start, end]. A failing fetch ends the search with an error; otherwise
   the answer is the greatest block with an id at most the target, `None` exactly
   when there is no such block, after at most floor(log2(end - start)) + 1 fetches.
   */
  method BinarySearchLastBlock(fetch: Fetcher, start: nat, end: nat, target: nat)
      returns (r: Result<Option<nat>, nat>, fetches: nat)
    requires NonDecreasing(fetch, start, end)
    ensures r.Err? ==> start < r.error <= end && fetch(r.error).None?
    ensures Answers(fetch, start, end) ==> r.Ok?
    ensures r.Ok? && r.value.Some? ==> IsLast(fetch, start, end, target, r.value.value)
    ensures r.Ok? && r.value.None? ==> forall b: nat :: start < b <= end ==> !AtMost(fetch, b, target)
    ensures end <= start ==> r == Ok(None) && fetches == 0
    ensures end > start ==> fetches <= FloorLog2(end - start) + 1
  {
    var left: nat, right: nat := start + 1, end;
    var result: Option<nat> := None;
    fetches := 0;
    while left <= right
      invariant start < left && right <= end
      invariant end <= start ==> left > right && fetches == 0 && result == None
      invariant end > start ==> left <= right + 1
      invariant result.None? ==> left == start + 1
      invariant result.Some? ==> start < result.value == left - 1 && result.value <= end && AtMost(fetch, result.value, target)
      invariant forall b: nat {:trigger fetch(b)} :: right < b <= end && fetch(b).Some? ==> fetch(b).value > target
      invariant end > start ==> fetches + Budget(right + 1 - left) <= FloorLog2(end - start) + 1
      decreases right + 1 - left
    {
      var width := right + 1 - left;
      var mid := left + (right - left) / 2;
      var reply := fetch(mid);
      fetches := fetches + 1;
      BudgetHalves(width, right - mid);
      BudgetHalves(width, mid - left);
      if reply.None? {
        return Err(mid), fetches;
      }
      if reply.value == target {
        result := Some(mid);
        left := mid + 1;
      } else if reply.value < target {
        result := Some(mid);
        left := mid + 1;
      } else {
        right := SaturatingSub(mid, 1);
      }
    }
    r := Ok(result);
  }
}
