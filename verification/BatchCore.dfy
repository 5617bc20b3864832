/** The batch builder core shared by the forks: timing rules, block creation, admission. */
module BatchCores {
  import opened Wrappers

  datatype Config = Config(
    maxBytes: nat,
    maxBlocks: nat,
    slotSec: nat,
    maxShiftSec: nat,
    minTxs: nat,
    maxSkippedL2Slots: nat,
    heartbeatMs: nat)
  {
    // A zero divisor and a shift below one slot can make the timing rules panic.
    ghost predicate Valid() {
      heartbeatMs > 0 && slotSec <= maxShiftSec
    }
  }

  datatype L2Block = L2Block(txs: nat, bytes: nat, timestamp: nat)

  datatype Batch = Batch(blocks: seq<L2Block>, totalBytes: nat)

  type SizeFunction = seq<L2Block> -> nat

  datatype Core = Core(
    current: Option<Batch>,
    forced: Option<nat>,
    queue: seq<(Option<nat>, Batch)>,
    lastTimestamp: nat)

  predicate HasBlocks(core: Core) {
    core.current.Some? && core.current.value.blocks != []
  }

  function LastSec(core: Core): nat
    requires HasBlocks(core)
  {
    var blocks := core.current.value.blocks;
    blocks[|blocks| - 1].timestamp
  }

  // The u64 subtraction of `is_time_shift_expired` panics.
  predicate TimeRunsBack(core: Core, sec: nat) {
    HasBlocks(core) && sec < LastSec(core)
  }

  predicate Expired(cfg: Config, core: Core, sec: nat)
    requires !TimeRunsBack(core, sec)
  {
    HasBlocks(core) && sec - LastSec(core) > cfg.maxShiftSec
  }

  predicate IsLastSlotForEmptyBlock(sec: nat, last: nat, maxShiftSec: nat, slotSec: nat)
    requires last <= sec && slotSec <= maxShiftSec
  {
    sec - last >= maxShiftSec - slotSec
  }

  // The u64 subtraction of the maximum shift and the slot panics.
  predicate ShiftUnderflows(cfg: Config, core: Core, sec: nat) {
    HasBlocks(core) && LastSec(core) <= sec && cfg.maxShiftSec < cfg.slotSec
  }

  // A timestamp before the last block only draws a warning here.
  predicate EmptyBlockRequired(cfg: Config, core: Core, sec: nat)
    requires !ShiftUnderflows(cfg, core, sec)
  {
    && HasBlocks(core) && LastSec(core) <= sec
    && IsLastSlotForEmptyBlock(sec, LastSec(core), cfg.maxShiftSec, cfg.slotSec)
  }

  // One of the tests that come before the count of skipped L2 slots.
  predicate DecidedEarly(cfg: Config, core: Core, txs: nat, sec: nat, eos: bool)
    requires !ShiftUnderflows(cfg, core, sec)
  {
    EmptyBlockRequired(cfg, core, sec) || eos || txs >= cfg.minTxs
  }

  // The count of skipped slots is reached with a timestamp before the last block, or divides by zero.
  predicate OfferPanics(cfg: Config, core: Core, txs: nat, sec: nat, eos: bool) {
    || ShiftUnderflows(cfg, core, sec)
    || (!DecidedEarly(cfg, core, txs, sec, eos) && (sec < core.lastTimestamp || cfg.heartbeatMs == 0))
  }

  predicate ShouldCreate(cfg: Config, core: Core, txs: nat, sec: nat, eos: bool)
    requires !OfferPanics(cfg, core, txs, sec, eos)
  {
    || DecidedEarly(cfg, core, txs, sec, eos)
    || (sec - core.lastTimestamp) * 1000 / cfg.heartbeatMs > cfg.maxSkippedL2Slots
  }

  datatype TxList = TxList(txs: nat, bytes: nat)

  function TxsIn(pending: Option<TxList>): nat {
    if pending.Some? then pending.value.txs else 0
  }

  function Offer(cfg: Config, core: Core, pending: Option<TxList>, sec: nat, eos: bool): Option<L2Block>
    requires !OfferPanics(cfg, core, TxsIn(pending), sec, eos)
  {
    if !ShouldCreate(cfg, core, TxsIn(pending), sec, eos) then None
    else if pending.Some? then Some(L2Block(pending.value.txs, pending.value.bytes, sec))
    else Some(L2Block(0, 0, sec))
  }

  // A forced inclusion waits for the next batch that has blocks.
  function Finalize(core: Core): Core {
    if HasBlocks(core)
    then core.(current := None, forced := None, queue := core.queue + [(core.forced, core.current.value)])
    else core.(current := None)
  }

  function Add(core: Core, b: L2Block): Core
    requires core.current.Some?
  {
    var p := core.current.value;
    core.(current := Some(Batch(p.blocks + [b], p.totalBytes + b.bytes)), lastTimestamp := b.timestamp)
  }

  predicate UndoPanics(core: Core) {
    HasBlocks(core) &&
    var p := core.current.value;
    p.totalBytes < p.blocks[|p.blocks| - 1].bytes
  }

  // The last-block timestamp is not put back.
  function RemoveLast(core: Core): Core
    requires !UndoPanics(core)
  {
    if !HasBlocks(core) then core
    else
      var p := core.current.value;
      var n := |p.blocks| - 1;
      if n == 0 then core.(current := None)
      else core.(current := Some(Batch(p.blocks[..n], p.totalBytes - p.blocks[n].bytes)))
  }

  function Compress(size: SizeFunction, p: Batch, ok: bool): Batch {
    if ok then p.(totalBytes := size(p.blocks)) else p
  }

  // The second compression works on a clone whose total does not include the new block.
  function Measure(cfg: Config, size: SizeFunction, p: Batch, b: L2Block, ok1: bool, ok2: bool): (Batch, nat) {
    if p.totalBytes + b.bytes <= cfg.maxBytes then (p, p.totalBytes + b.bytes)
    else
      var q := Compress(size, p, ok1);
      if q.totalBytes + b.bytes <= cfg.maxBytes then (q, q.totalBytes + b.bytes)
      else (q, Compress(size, q.(blocks := q.blocks + [b]), ok2).totalBytes)
  }

  function CanConsume(cfg: Config, size: SizeFunction, core: Core, b: L2Block, ok1: bool, ok2: bool): (Core, bool)
    requires !TimeRunsBack(core, b.timestamp)
  {
    if core.current.None? || |core.current.value.blocks| + 1 > MAX_U16 then (core, false)
    else
      var (p, bytes) := Measure(cfg, size, core.current.value, b, ok1, ok2);
      (core.(current := Some(p)),
       bytes <= cfg.maxBytes && |p.blocks| + 1 <= cfg.maxBlocks && !Expired(cfg, core, b.timestamp))
  }

  ghost predicate HasRoom(cfg: Config, p: Batch, sec: nat) {
    && |p.blocks| < cfg.maxBlocks && |p.blocks| < MAX_U16
    && (p.blocks == [] || sec <= p.blocks[|p.blocks| - 1].timestamp + cfg.maxShiftSec)
  }

  // A failed second compression compares the total without the new block.
  ghost predicate SomeSizeFits(cfg: Config, size: SizeFunction, p: Batch, b: L2Block, ok1: bool, ok2: bool) {
    var known := if ok1 then size(p.blocks) else p.totalBytes;
    || p.totalBytes + b.bytes <= cfg.maxBytes
    || known + b.bytes <= cfg.maxBytes
    || (if ok2 then size(p.blocks + [b]) else known) <= cfg.maxBytes
  }

  // Admission on the inputs alone, both ways.
  lemma AdmittedIff(cfg: Config, size: SizeFunction, core: Core, b: L2Block, ok1: bool, ok2: bool)
    requires !TimeRunsBack(core, b.timestamp)
    ensures CanConsume(cfg, size, core, b, ok1, ok2).1 <==>
            && core.current.Some? && HasRoom(cfg, core.current.value, b.timestamp)
            && SomeSizeFits(cfg, size, core.current.value, b, ok1, ok2)
  {
  }

  class BatchBuilderCore {
    const cfg: Config
    const size: SizeFunction
    var currentBatch: Option<Batch>
    var currentForcedInclusion: Option<nat>
    var batchesToSend: seq<(Option<nat>, Batch)>
    var lastL2BlockTimestamp: nat

    function Abs(): Core
      reads this
    {
      Core(currentBatch, currentForcedInclusion, batchesToSend, lastL2BlockTimestamp)
    }

    constructor (currentBatch: Option<Batch>, cfg: Config, size: SizeFunction)
      ensures this.cfg == cfg && this.size == size && Abs() == Core(currentBatch, None, [], 0)
    {
      this.currentBatch, this.cfg, this.size := currentBatch, cfg, size;
      currentForcedInclusion, batchesToSend, lastL2BlockTimestamp := None, [], 0;
    }

    method CanConsumeL2Block(b: L2Block, ok1: bool, ok2: bool) returns (r: bool)
      requires !TimeRunsBack(Abs(), b.timestamp)
      modifies this
      ensures (Abs(), r) == CanConsume(cfg, size, old(Abs()), b, ok1, ok2)
      ensures r <==>
                && old(currentBatch).Some? && HasRoom(cfg, old(currentBatch).value, b.timestamp)
                && SomeSizeFits(cfg, size, old(currentBatch).value, b, ok1, ok2)
    {
      var expired := Expired(cfg, Abs(), b.timestamp);
      if currentBatch.None? || |currentBatch.value.blocks| + 1 > MAX_U16 {
        return false;
      }
      var newBlockCount := |currentBatch.value.blocks| + 1;
      var newTotalBytes := currentBatch.value.totalBytes + b.bytes;
      if newTotalBytes > cfg.maxBytes {
        currentBatch := Some(Compress(size, currentBatch.value, ok1));
        newTotalBytes := currentBatch.value.totalBytes + b.bytes;
        if newTotalBytes > cfg.maxBytes {
          var clone := currentBatch.value.(blocks := currentBatch.value.blocks + [b]);
          clone := Compress(size, clone, ok2);
          newTotalBytes := clone.totalBytes;
        }
      }
      r := newTotalBytes <= cfg.maxBytes && newBlockCount <= cfg.maxBlocks && !expired;
    }

    method TryCreatingL2Block(pending: Option<TxList>, sec: nat, eos: bool) returns (r: Option<L2Block>)
      requires !OfferPanics(cfg, Abs(), TxsIn(pending), sec, eos)
      ensures r == Offer(cfg, Abs(), pending, sec, eos)
      ensures r.Some? ==>
                r.value == if pending.Some? then L2Block(pending.value.txs, pending.value.bytes, sec) else L2Block(0, 0, sec)
      ensures r.None? <==>
                && !eos && TxsIn(pending) < cfg.minTxs
                && (HasBlocks(Abs()) && LastSec(Abs()) <= sec ==> sec + cfg.slotSec < LastSec(Abs()) + cfg.maxShiftSec)
                && sec >= lastL2BlockTimestamp && cfg.heartbeatMs > 0
                && (sec - lastL2BlockTimestamp) * 1000 / cfg.heartbeatMs <= cfg.maxSkippedL2Slots
    {
      if !ShouldCreate(cfg, Abs(), TxsIn(pending), sec, eos) {
        return None;
      }
      if pending.Some? {
        r := Some(L2Block(pending.value.txs, pending.value.bytes, sec));
      } else {
        r := Some(L2Block(0, 0, sec));
      }
    }

    method RemoveLastL2Block()
      requires !UndoPanics(Abs())
      modifies `currentBatch
      ensures Abs() == RemoveLast(old(Abs()))
      ensures currentBatch.Some? && old(HasBlocks(Abs())) ==>
                var p, q := currentBatch.value, old(currentBatch).value;
                && p.blocks != [] && p.blocks + [q.blocks[|q.blocks| - 1]] == q.blocks
                && p.totalBytes + q.blocks[|q.blocks| - 1].bytes == q.totalBytes
      ensures currentBatch.None? ==> old(currentBatch).None? || |old(currentBatch).value.blocks| == 1
    {
      if currentBatch.Some? && currentBatch.value.blocks != [] {
        var p := currentBatch.value;
        var n := |p.blocks| - 1;
        var removed := p.blocks[n];
        currentBatch := Some(Batch(p.blocks[..n], p.totalBytes - removed.bytes));
        if currentBatch.value.blocks == [] {
          currentBatch := None;
        }
      }
    }

    method FinalizeCurrentBatch()
      modifies `currentBatch, `currentForcedInclusion, `batchesToSend
      ensures Abs() == Finalize(old(Abs()))
      ensures currentBatch.None?
      ensures if old(currentBatch).Some? && old(currentBatch).value.blocks != []
              then batchesToSend == old(batchesToSend) + [(old(currentForcedInclusion), old(currentBatch).value)]
                   && currentForcedInclusion.None?
              else batchesToSend == old(batchesToSend) && currentForcedInclusion == old(currentForcedInclusion)
    {
      if currentBatch.Some? && currentBatch.value.blocks != [] {
        batchesToSend := batchesToSend + [(currentForcedInclusion, currentBatch.value)];
        currentForcedInclusion := None;
      }
      currentBatch := None;
    }

    method AddL2Block(b: L2Block) returns (ok: bool)
      modifies `currentBatch, `lastL2BlockTimestamp
      ensures ok <==> old(Abs()).current.Some?
      ensures Abs() == if ok then Add(old(Abs()), b) else old(Abs())
      ensures ok ==>
                && lastL2BlockTimestamp == b.timestamp
                && currentBatch == Some(Batch(old(currentBatch).value.blocks + [b],
                                              old(currentBatch).value.totalBytes + b.bytes))
    {
      ok := currentBatch.Some?;
      if ok {
        var p := currentBatch.value;
        lastL2BlockTimestamp := b.timestamp;
        currentBatch := Some(Batch(p.blocks + [b], p.totalBytes + b.bytes));
      }
    }
  }
}
