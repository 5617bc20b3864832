/** The realtime batch builder: proposals, admission of blocks, the queue, and the undo of an add. */
module BatchBuilders {
  import opened Wrappers

  datatype Config = Config(
    maxBytes: nat,
    maxBlocks: nat,
    maxTimeShiftSec: nat,
    coinbase: nat)
  {
    predicate WithinBytes(n: nat) { n <= maxBytes }

    predicate WithinBlocks(n: nat) { n <= maxBlocks }
  }

  // `bytes` is the listed length of the transaction list `txs`.
  datatype Draft = Draft(txs: nat, bytes: nat, timestamp: nat, gasLimit: nat)

  datatype Block = Block(txs: nat, bytes: nat, timestamp: nat, coinbase: nat, anchor: nat, gasLimit: nat)

  datatype Anchor = Anchor(number: nat, hash: nat, stateRoot: nat)

  datatype Payload = Payload(
    coinbase: nat, txs: nat, timestamp: nat, gasLimit: nat, anchor: Anchor)

  datatype Proposal = Proposal(
    blocks: seq<Block>,
    totalBytes: nat,
    coinbase: nat,
    anchor: Anchor,
    lastFinalized: nat)

  // Length of the encoded and compressed manifest of these blocks.
  type SizeFunction = seq<Block> -> nat

  // A failed compression leaves the old total.
  function Compress(size: SizeFunction, p: Proposal, ok: bool): Proposal {
    if ok then p.(totalBytes := size(p.blocks)) else p
  }

  function BlockFrom(p: Proposal, d: Draft): Block {
    Block(d.txs, d.bytes, d.timestamp, p.coinbase, p.anchor.number, d.gasLimit)
  }

  function AddDraft(p: Proposal, d: Draft): Proposal {
    p.(blocks := p.blocks + [BlockFrom(p, d)], totalBytes := p.totalBytes + d.bytes)
  }

  datatype Builder = Builder(queue: seq<Proposal>, current: Option<Proposal>)

  // Timestamps are subtracted as u64: a draft older than the last block panics.
  predicate TimeRunsBack(b: Builder, sec: nat) {
    b.current.Some? && b.current.value.blocks != [] && sec < Last(b.current.value.blocks).timestamp
  }

  function Last(blocks: seq<Block>): Block
    requires blocks != []
  {
    blocks[|blocks| - 1]
  }

  predicate TimeShiftExpired(cfg: Config, b: Builder, sec: nat)
    requires !TimeRunsBack(b, sec)
  {
    && b.current.Some? && b.current.value.blocks != []
    && sec - Last(b.current.value.blocks).timestamp > cfg.maxTimeShiftSec
  }

  // The proposal after the checks (it may have been compressed) and the size the checks arrive at.
  function Measure(cfg: Config, size: SizeFunction, p: Proposal, d: Draft, ok1: bool, ok2: bool): (Proposal, nat) {
    if cfg.WithinBytes(p.totalBytes + d.bytes) then (p, p.totalBytes + d.bytes)
    else
      var q := Compress(size, p, ok1);
      if cfg.WithinBytes(q.totalBytes + d.bytes) then (q, q.totalBytes + d.bytes)
      else (q, Compress(size, AddDraft(q, d), ok2).totalBytes)
  }

  function CanConsume(cfg: Config, size: SizeFunction, b: Builder, d: Draft, ok1: bool, ok2: bool): (Builder, bool)
    requires !TimeRunsBack(b, d.timestamp)
  {
    if b.current.None? || |b.current.value.blocks| + 1 > MAX_U16 then (b, false)
    else
      var (p, bytes) := Measure(cfg, size, b.current.value, d, ok1, ok2);
      (b.(current := Some(p)),
       && cfg.WithinBytes(bytes)
       && cfg.WithinBlocks(|p.blocks| + 1)
       && !TimeShiftExpired(cfg, b, d.timestamp))
  }

  // There is room for one block more, and it is not too long after the last one.
  ghost predicate HasRoom(cfg: Config, p: Proposal, sec: nat) {
    && |p.blocks| < cfg.maxBlocks && |p.blocks| < MAX_U16
    && (p.blocks == [] || sec <= p.blocks[|p.blocks| - 1].timestamp + cfg.maxTimeShiftSec)
  }

  // Some size that is known for the proposal with the block fits: listed, half compressed or compressed.
  ghost predicate SomeSizeFits(cfg: Config, size: SizeFunction, p: Proposal, d: Draft, ok1: bool, ok2: bool) {
    var block := Block(d.txs, d.bytes, d.timestamp, p.coinbase, p.anchor.number, d.gasLimit);
    || p.totalBytes + d.bytes <= cfg.maxBytes
    || (ok1 && size(p.blocks) + d.bytes <= cfg.maxBytes)
    || (ok2 && size(p.blocks + [block]) <= cfg.maxBytes)
  }

  /**
   Admission on the inputs alone, both ways; the checks change the proposal's total at most, and only
   to the compressed size when the listed one does not fit.
   */
  lemma AdmittedIff(cfg: Config, size: SizeFunction, b: Builder, d: Draft, ok1: bool, ok2: bool)
    requires !TimeRunsBack(b, d.timestamp)
    ensures var (after, admitted) := CanConsume(cfg, size, b, d, ok1, ok2);
            && (admitted <==>
                && b.current.Some? && HasRoom(cfg, b.current.value, d.timestamp)
                && SomeSizeFits(cfg, size, b.current.value, d, ok1, ok2))
            && after.queue == b.queue && after.current.Some? == b.current.Some?
            && (b.current.Some? && |b.current.value.blocks| < MAX_U16 ==>
                  var p := b.current.value;
                  after.current.value == p.(totalBytes :=
                    if ok1 && p.totalBytes + d.bytes > cfg.maxBytes then size(p.blocks) else p.totalBytes))
  {
  }

  // An empty current proposal is discarded.
  function Finalize(b: Builder): Builder {
    Builder(if b.current.Some? && b.current.value.blocks != [] then b.queue + [b.current.value] else b.queue, None)
  }

  function Create(cfg: Config, b: Builder, anchor: Anchor, lastFinalized: nat): Builder {
    Finalize(b).(current := Some(Proposal([], 0, cfg.coinbase, anchor, lastFinalized)))
  }

  function Add(b: Builder, d: Draft): Builder {
    if b.current.None? then b else b.(current := Some(AddDraft(b.current.value, d)))
  }

  // The subtraction in `remove_last_l2_block` panics.
  predicate UndoPanics(b: Builder) {
    && b.current.Some? && b.current.value.blocks != []
    && b.current.value.totalBytes < Last(b.current.value.blocks).bytes
  }

  function RemoveLast(b: Builder): Builder
    requires !UndoPanics(b)
  {
    if b.current.None? || b.current.value.blocks == [] then b
    else
      var p := b.current.value;
      var rest := p.blocks[..|p.blocks| - 1];
      if rest == [] then b.(current := None)
      else b.(current := Some(p.(blocks := rest, totalBytes := p.totalBytes - Last(p.blocks).bytes)))
  }

  function FinalizeIfNeeded(cfg: Config, b: Builder, onlyFull: bool): Builder {
    if b.current.Some? && (!onlyFull || !cfg.WithinBlocks(|b.current.value.blocks| + 1)) then Finalize(b) else b
  }

  function Stamped(p: Proposal, lastFinalized: nat): Proposal {
    p.(lastFinalized := lastFinalized)
  }

  function Popped(b: Builder): Builder {
    if b.queue == [] then b else b.(queue := b.queue[1..])
  }

  // The queue with the current batch behind it, if that has blocks and is full or need not be.
  ghost function DueQueue(cfg: Config, b: Builder, onlyFull: bool): seq<Proposal> {
    b.queue + if b.current.Some? && b.current.value.blocks != [] && (onlyFull ==> |b.current.value.blocks| >= cfg.maxBlocks)
              then [b.current.value] else []
  }

  // The builder after a submission attempt, and the batch handed to the submitter.
  function Submission(cfg: Config, b: Builder, busy: bool, onlyFull: bool, lastFinalized: nat, inProgress: bool):
      (Builder, Option<Proposal>)
  {
    if busy then (b, None)
    else
      var f := FinalizeIfNeeded(cfg, b, onlyFull);
      if f.queue == [] then (f, None)
      else
        var p := Stamped(f.queue[0], lastFinalized);
        if inProgress then (f.(queue := f.queue[0 := p]), None) else (Popped(f), Some(p))
  }

  class BatchBuilder {
    const cfg: Config
    const size: SizeFunction
    var proposalsToSend: seq<Proposal>
    var currentProposal: Option<Proposal>

    function Abs(): Builder
      reads this
    {
      Builder(proposalsToSend, currentProposal)
    }

    constructor (cfg: Config, size: SizeFunction)
      ensures this.cfg == cfg && this.size == size && Abs() == Builder([], None)
    {
      this.cfg, this.size := cfg, size;
      proposalsToSend, currentProposal := [], None;
    }

    // ok1 and ok2 say whether the two possible compressions succeed.
    method CanConsumeL2Block(d: Draft, ok1: bool, ok2: bool) returns (r: bool)
      requires !TimeRunsBack(Abs(), d.timestamp)
      modifies this
      ensures (Abs(), r) == CanConsume(cfg, size, old(Abs()), d, ok1, ok2)
      ensures r <==>
                && old(currentProposal).Some? && HasRoom(cfg, old(currentProposal).value, d.timestamp)
                && SomeSizeFits(cfg, size, old(currentProposal).value, d, ok1, ok2)
    {
      var expired := TimeShiftExpired(cfg, Abs(), d.timestamp);
      if currentProposal.None? || |currentProposal.value.blocks| + 1 > MAX_U16 {
        return false;
      }
      var newBlockCount := |currentProposal.value.blocks| + 1;
      var newTotalBytes := currentProposal.value.totalBytes + d.bytes;
      if !cfg.WithinBytes(newTotalBytes) {
        currentProposal := Some(Compress(size, currentProposal.value, ok1));
        newTotalBytes := currentProposal.value.totalBytes + d.bytes;
        if !cfg.WithinBytes(newTotalBytes) {
          var clone := AddDraft(currentProposal.value, d);
          clone := Compress(size, clone, ok2);
          newTotalBytes := clone.totalBytes;
        }
      }
      r := cfg.WithinBytes(newTotalBytes) && cfg.WithinBlocks(newBlockCount) && !expired;
    }

    method FinalizeCurrentBatch()
      modifies this
      ensures Abs() == Finalize(old(Abs()))
    {
      var taken := currentProposal;
      currentProposal := None;
      if taken.Some? && taken.value.blocks != [] {
        proposalsToSend := proposalsToSend + [taken.value];
      }
    }

    method CreateNewBatch(anchor: Anchor, lastFinalized: nat)
      modifies this
      ensures Abs() == Create(cfg, old(Abs()), anchor, lastFinalized)
      ensures currentProposal == Some(Proposal([], 0, cfg.coinbase, anchor, lastFinalized))
      ensures proposalsToSend == old(proposalsToSend) +
                if old(currentProposal).Some? && old(currentProposal).value.blocks != []
                then [old(currentProposal).value] else []
    {
      FinalizeCurrentBatch();
      currentProposal := Some(Proposal([], 0, cfg.coinbase, anchor, lastFinalized));
    }

    // The payload carries the proposal's coinbase and anchor, not the draft's.
    method AddL2DraftBlock(d: Draft) returns (r: Option<Payload>)
      modifies this
      ensures Abs() == Add(old(Abs()), d)
      ensures r.Some? <==> old(currentProposal).Some?
      ensures r.Some? ==>
                var p := old(currentProposal).value;
                && r.value == Payload(p.coinbase, d.txs, d.timestamp, d.gasLimit, p.anchor)
                && currentProposal == Some(p.(
                     blocks := p.blocks + [Block(d.txs, d.bytes, d.timestamp, p.coinbase, p.anchor.number, d.gasLimit)],
                     totalBytes := p.totalBytes + d.bytes))
    {
      if currentProposal.None? {
        return None;
      }
      var p := currentProposal.value;
      var block := BlockFrom(p, d);
      r := Some(Payload(p.coinbase, block.txs, block.timestamp, block.gasLimit, p.anchor));
      currentProposal := Some(p.(totalBytes := p.totalBytes + block.bytes, blocks := p.blocks + [block]));
    }

    method RemoveLastL2Block()
      requires !UndoPanics(Abs())
      modifies this
      ensures Abs() == RemoveLast(old(Abs()))
    {
      if currentProposal.Some? && currentProposal.value.blocks != [] {
        var p := currentProposal.value;
        var removed := Last(p.blocks);
        var rest := p.blocks[..|p.blocks| - 1];
        currentProposal := Some(p.(blocks := rest, totalBytes := p.totalBytes - removed.bytes));
        if rest == [] {
          currentProposal := None;
        }
      }
    }

    // The block count is incremented as u16.
    method FinalizeBatchIfNeeded(submitOnlyFull: bool)
      requires submitOnlyFull && currentProposal.Some? ==> |currentProposal.value.blocks| < MAX_U16
      modifies this
      ensures Abs() == FinalizeIfNeeded(cfg, old(Abs()), submitOnlyFull)
      ensures proposalsToSend == DueQueue(cfg, old(Abs()), submitOnlyFull)
    {
      if currentProposal.Some?
         && (!submitOnlyFull || !cfg.WithinBlocks(|currentProposal.value.blocks| + 1))
      {
        FinalizeCurrentBatch();
      }
    }

    method PopOldestBatch(lastFinalized: nat) returns (r: Option<Proposal>)
      modifies this
      ensures Abs() == Popped(old(Abs()))
      ensures r == if old(proposalsToSend) == [] then None else Some(Stamped(old(proposalsToSend)[0], lastFinalized))
    {
      if proposalsToSend == [] {
        return None;
      }
      r := Some(proposalsToSend[0].(lastFinalized := lastFinalized));
      proposalsToSend := proposalsToSend[1..];
    }

    method PushFrontBatch(p: Proposal)
      modifies this
      ensures Abs() == old(Abs()).(queue := [p] + old(proposalsToSend))
    {
      proposalsToSend := [p] + proposalsToSend;
    }

    // A submission that cannot start puts the popped batch back.
    method TryStartSubmission(busy: bool, submitOnlyFull: bool, lastFinalized: nat, inProgress: bool)
      returns (r: Option<Proposal>)
      requires submitOnlyFull && currentProposal.Some? ==> |currentProposal.value.blocks| < MAX_U16
      modifies this
      ensures (Abs(), r) == Submission(cfg, old(Abs()), busy, submitOnlyFull, lastFinalized, inProgress)
      ensures busy ==> r.None? && Abs() == old(Abs())
      ensures var due := DueQueue(cfg, old(Abs()), submitOnlyFull);
              !busy && due == [] ==> r.None? && proposalsToSend == []
      ensures var due := DueQueue(cfg, old(Abs()), submitOnlyFull);
              !busy && due != [] ==>
                var p := due[0].(lastFinalized := lastFinalized);
                if inProgress then r.None? && proposalsToSend == [p] + due[1..]
                else r == Some(p) && proposalsToSend == due[1..]
    {
      if busy {
        return None;
      }
      FinalizeBatchIfNeeded(submitOnlyFull);
      ghost var queue := proposalsToSend;
      r := PopOldestBatch(lastFinalized);
      if r.Some? && inProgress {
        PushFrontBatch(r.value);
        assert proposalsToSend == queue[0 := r.value];
        r := None;
      }
    }
  }
}
