/** Sizes and shapes of the batches that a caller following the protocol of `add_new_l2_block` builds. */
module BatchBounds {
  import opened Wrappers
  import opened BatchBuilders
  import opened BatchRuns
  import opened BatchUndo

  // An add follows its own admission or a new batch, and an undo follows an add.
  predicate Disciplined(s: System, op: Op) {
    Ordered(s, op) && (op.AddBlock? ==> s.recent == Admitted(op.draft) || s.recent == Opened)
  }

  ghost predicate GoodRun(cfg: Config, size: SizeFunction, ops: seq<Op>) {
    ops == [] ||
    var prefix := ops[..|ops| - 1];
    && GoodRun(cfg, size, prefix)
    && Run(cfg, size, prefix).Some?
    && Disciplined(Run(cfg, size, prefix).value, ops[|ops| - 1])
  }

  // ---------- sizes ----------

  // One more block grows the compressed manifest by at most its listed length and c.
  ghost predicate GrowsBy(size: SizeFunction, c: nat) {
    && size([]) <= c
    && forall blocks, b :: GrowsAt(size, c, blocks, b)
  }

  ghost predicate GrowsAt(size: SizeFunction, c: nat, blocks: seq<Block>, b: Block) {
    size(blocks + [b]) <= size(blocks) + b.bytes + c
  }

  // c per unit; written out so that the proofs below stay linear.
  function Times(c: nat, n: nat): nat {
    if n == 0 then 0 else Times(c, n - 1) + c
  }

  lemma {:induction false} TimesIsProduct(c: nat, n: nat)
    ensures Times(c, n) == c * n
  {
    if n > 0 {
      TimesIsProduct(c, n - 1);
      assert c * n == c * (n - 1) + c;
    }
  }

  lemma {:induction false} TimesMonotone(c: nat, m: nat, n: nat)
    requires m <= n
    ensures Times(c, m) <= Times(c, n)
    decreases n
  {
    if m < n {
      TimesMonotone(c, m, n - 1);
    }
  }

  // Growth is measured against the listed bytes, from any prefix on.
  lemma {:induction false} GrowthSum(size: SizeFunction, c: nat, a: seq<Block>, b: seq<Block>)
    requires GrowsBy(size, c) && a <= b
    ensures size(b) - SumBytes(b) <= size(a) - SumBytes(a) + Times(c, |b| - |a|)
    decreases |b|
  {
    if |a| == |b| {
      assert a == b;
    } else {
      var n := |b| - 1;
      GrowthSum(size, c, a, b[..n]);
      assert b == b[..n] + [b[n]];
      assert GrowsAt(size, c, b[..n], b[n]);
    }
  }

  lemma AccountedSize(size: SizeFunction, c: nat, p: Proposal, packed: Option<seq<Block>>)
    requires GrowsBy(size, c) && Accounted(size, p, packed) && (packed.Some? ==> packed.value <= p.blocks)
    ensures size(p.blocks) <= p.totalBytes + Times(c, |p.blocks| + 1)
  {
    var a := if packed.Some? then packed.value else [];
    GrowthSum(size, c, a, p.blocks);
    TimesMonotone(c, |p.blocks| - |a|, |p.blocks|);
  }

  // Allowance for the first k blocks; a block that opens a batch unchecked may be any size.
  function Allowance(cfg: Config, c: nat, blocks: seq<Block>, checked: bool, k: nat): nat
    requires 1 <= k <= |blocks|
  {
    (if k == 1 && !checked && blocks[0].bytes > cfg.maxBytes then blocks[0].bytes else cfg.maxBytes) + Times(c, k + 1)
  }

  ghost predicate Bounded(cfg: Config, size: SizeFunction, c: nat, blocks: seq<Block>, checked: bool) {
    forall k :: 1 <= k <= |blocks| ==> size(blocks[..k]) <= Allowance(cfg, c, blocks, checked, k)
  }

  ghost predicate Shaped(cfg: Config, p: Proposal) {
    && (forall i :: 0 <= i < |p.blocks| ==>
          p.blocks[i].coinbase == p.coinbase && p.blocks[i].anchor == p.anchor.number)
    && (forall i, j :: 0 <= i && j == i + 1 && j < |p.blocks| ==>
          p.blocks[i].timestamp <= p.blocks[j].timestamp <= p.blocks[i].timestamp + cfg.maxTimeShiftSec)
  }

  ghost predicate Fine(cfg: Config, size: SizeFunction, c: nat, p: Proposal, checked: bool) {
    && Bounded(cfg, size, c, p.blocks, checked) && Shaped(cfg, p)
    && (p.blocks != [] ==> |p.blocks| <= cfg.maxBlocks || (|p.blocks| == 1 && !checked))
  }

  // What an admission promises about the block it admitted.
  ghost predicate Fits(cfg: Config, size: SizeFunction, p: Proposal, d: Draft) {
    && (p.totalBytes + d.bytes <= cfg.maxBytes || size(p.blocks + [BlockFrom(p, d)]) <= cfg.maxBytes)
    && |p.blocks| + 1 <= cfg.maxBlocks
    && (p.blocks != [] ==>
          Last(p.blocks).timestamp <= d.timestamp <= Last(p.blocks).timestamp + cfg.maxTimeShiftSec)
  }

  lemma AdmissionFits(cfg: Config, size: SizeFunction, b: Builder, d: Draft, ok1: bool, ok2: bool)
    requires !TimeRunsBack(b, d.timestamp) && CanConsume(cfg, size, b, d, ok1, ok2).1
    ensures var c := CanConsume(cfg, size, b, d, ok1, ok2).0;
            c.current.Some? && Fits(cfg, size, c.current.value, d)
  {
  }

  lemma AddKeepsShape(cfg: Config, size: SizeFunction, p: Proposal, d: Draft)
    requires Shaped(cfg, p) && (Fits(cfg, size, p, d) || p.blocks == [])
    ensures Shaped(cfg, AddDraft(p, d))
  {
  }

  // Whether the first block is checked is decided when it is added.
  function OpenerAfter(s: System): bool {
    if CurrentBlocks(s.builder) == [] then s.recent.Admitted? else s.opener
  }

  lemma AddKeepsBound(cfg: Config, size: SizeFunction, c: nat, p: Proposal, packed: Option<seq<Block>>, d: Draft,
                      checked: bool)
    requires GrowsBy(size, c) && Accounted(size, p, packed) && (packed.Some? ==> packed.value <= p.blocks)
    requires p.blocks != [] ==> Bounded(cfg, size, c, p.blocks, checked)
    requires Fits(cfg, size, p, d) || (p.blocks == [] && !checked)
    ensures Bounded(cfg, size, c, AddDraft(p, d).blocks, checked)
  {
    var q, n := AddDraft(p, d), |p.blocks|;
    AccountedSize(size, c, p, packed);
    forall k | 1 <= k <= |q.blocks| ensures size(q.blocks[..k]) <= Allowance(cfg, c, q.blocks, checked, k) {
      if k <= n {
        assert q.blocks[..k] == p.blocks[..k];
        assert size(p.blocks[..k]) <= Allowance(cfg, c, p.blocks, checked, k);
      } else {
        assert q.blocks[..k] == p.blocks + [BlockFrom(p, d)];
        assert GrowsAt(size, c, p.blocks, BlockFrom(p, d));
      }
    }
  }

  lemma UndoKeepsFine(cfg: Config, size: SizeFunction, c: nat, p: Proposal, q: Proposal, checked: bool)
    requires Fine(cfg, size, c, p, checked) && p.blocks != [] && q.blocks == p.blocks[..|p.blocks| - 1]
    requires q.coinbase == p.coinbase && q.anchor == p.anchor
    ensures Fine(cfg, size, c, q, checked)
  {
    forall k | 1 <= k <= |q.blocks| ensures size(q.blocks[..k]) <= Allowance(cfg, c, q.blocks, checked, k) {
      assert q.blocks[..k] == p.blocks[..k];
      assert size(p.blocks[..k]) <= Allowance(cfg, c, p.blocks, checked, k);
    }
  }

  ghost predicate FineBatch(cfg: Config, size: SizeFunction, c: nat, p: Proposal, checked: bool) {
    p.blocks != [] && Fine(cfg, size, c, p, checked)
  }

  ghost predicate CurrentInv(cfg: Config, size: SizeFunction, c: nat, s: System) {
    && PackedInv(s) && AccountInv(size, s)
    && (s.builder.current.Some? ==> Fine(cfg, size, c, s.builder.current.value, s.opener))
    && (s.recent.Admitted? ==> s.builder.current.Some? && Fits(cfg, size, s.builder.current.value, s.recent.draft))
  }

  ghost predicate BatchesInv(cfg: Config, size: SizeFunction, c: nat, s: System) {
    && |s.openers| == |Released(s)|
    && forall i :: 0 <= i < |Released(s)| ==> FineBatch(cfg, size, c, Released(s)[i], s.openers[i])
  }

  lemma CheckKeepsFine(cfg: Config, size: SizeFunction, c: nat, s: System, d: Draft, ok1: bool, ok2: bool)
    requires CurrentInv(cfg, size, c, s) && !TimeRunsBack(s.builder, d.timestamp)
    ensures var t := Step(cfg, size, s, CheckFits(d, ok1, ok2)).value;
            && (t.builder.current.Some? ==> Fine(cfg, size, c, t.builder.current.value, t.opener))
            && (t.recent.Admitted? ==>
                  t.builder.current.Some? && Fits(cfg, size, t.builder.current.value, t.recent.draft))
  {
    var b := s.builder;
    if b.current.Some? {
      CheckShape(cfg, size, b, d, ok1, ok2);
      if CanConsume(cfg, size, b, d, ok1, ok2).1 {
        AdmissionFits(cfg, size, b, d, ok1, ok2);
      }
    }
  }

  lemma AddStepKeepsFine(cfg: Config, size: SizeFunction, c: nat, s: System, d: Draft)
    requires GrowsBy(size, c) && CurrentInv(cfg, size, c, s) && Disciplined(s, AddBlock(d))
    ensures s.builder.current.Some? && Fine(cfg, size, c, AddDraft(s.builder.current.value, d), OpenerAfter(s))
  {
    var p := s.builder.current.value;
    AddKeepsBound(cfg, size, c, p, s.packed, d, OpenerAfter(s));
    AddKeepsShape(cfg, size, p, d);
  }

  lemma UndoStepKeepsFine(cfg: Config, size: SizeFunction, c: nat, s: System)
    requires CurrentInv(cfg, size, c, s) && !UndoPanics(s.builder)
    ensures var b := RemoveLast(s.builder);
            b.current.Some? ==> Fine(cfg, size, c, b.current.value, s.opener)
  {
    if s.builder.current.Some? && s.builder.current.value.blocks != [] {
      var p := s.builder.current.value;
      var rest := p.blocks[..|p.blocks| - 1];
      UndoKeepsFine(cfg, size, c, p, p.(blocks := rest, totalBytes := p.totalBytes - Last(p.blocks).bytes), s.opener);
    }
  }

  lemma StepKeepsCurrent(cfg: Config, size: SizeFunction, c: nat, s: System, op: Op)
    requires GrowsBy(size, c) && CurrentInv(cfg, size, c, s)
    requires Disciplined(s, op) && Step(cfg, size, s, op).Some?
    ensures CurrentInv(cfg, size, c, Step(cfg, size, s, op).value)
  {
    StepKeepsPacked(cfg, size, s, op);
    StepKeepsAccount(cfg, size, s, op);
    match op
    case CheckFits(d, ok1, ok2) => CheckKeepsFine(cfg, size, c, s, d, ok1, ok2);
    case AddBlock(d) => AddStepKeepsFine(cfg, size, c, s, d);
    case UndoAdd => UndoStepKeepsFine(cfg, size, c, s);
    case _ =>
  }

  // A finalized batch joins the released ones with its opener.
  lemma SealKeepsBatches(cfg: Config, size: SizeFunction, c: nat, s: System, t: System)
    requires CurrentInv(cfg, size, c, s) && BatchesInv(cfg, size, c, s)
    requires t.out == s.out && t.openers == Sealed(s, t.builder)
    requires t.builder.queue == s.builder.queue || t.builder.queue == Finalize(s.builder).queue
    ensures BatchesInv(cfg, size, c, t)
  {
    if t.builder.queue != s.builder.queue {
      var p := s.builder.current.value;
      assert FineBatch(cfg, size, c, p, s.opener);
      assert Released(t) == Released(s) + [p] && t.openers == s.openers + [s.opener];
    }
  }

  lemma QueueKeepsBatches(cfg: Config, size: SizeFunction, c: nat, s: System, op: Op)
    requires BatchesInv(cfg, size, c, s) && (op.Pop? || op.Requeue?)
    ensures BatchesInv(cfg, size, c, Step(cfg, size, s, op).value)
  {
    var t := Step(cfg, size, s, op).value;
    if op.Pop? && s.builder.queue != [] {
      var n := |s.out|;
      assert Released(t) == Released(s)[n := Stamped(s.builder.queue[0], op.lastFinalized)];
      assert FineBatch(cfg, size, c, Released(s)[n], s.openers[n]);
      assert FineBatch(cfg, size, c, Stamped(s.builder.queue[0], op.lastFinalized), s.openers[n]);
    } else {
      assert Released(t) == Released(s);
    }
  }

  lemma StepKeepsBatches(cfg: Config, size: SizeFunction, c: nat, s: System, op: Op)
    requires CurrentInv(cfg, size, c, s) && BatchesInv(cfg, size, c, s)
    requires Step(cfg, size, s, op).Some?
    ensures BatchesInv(cfg, size, c, Step(cfg, size, s, op).value)
  {
    if op.Pop? || op.Requeue? {
      QueueKeepsBatches(cfg, size, c, s, op);
    } else {
      SealKeepsBatches(cfg, size, c, s, Step(cfg, size, s, op).value);
    }
  }

  lemma {:induction false} RunKeepsInv(cfg: Config, size: SizeFunction, c: nat, ops: seq<Op>)
    requires GrowsBy(size, c) && GoodRun(cfg, size, ops) && Run(cfg, size, ops).Some?
    ensures CurrentInv(cfg, size, c, Run(cfg, size, ops).value)
    ensures BatchesInv(cfg, size, c, Run(cfg, size, ops).value)
  {
    if ops != [] {
      var prefix := ops[..|ops| - 1];
      RunKeepsInv(cfg, size, c, prefix);
      StepKeepsCurrent(cfg, size, c, Run(cfg, size, prefix).value, ops[|ops| - 1]);
      StepKeepsBatches(cfg, size, c, Run(cfg, size, prefix).value, ops[|ops| - 1]);
    }
  }

  /**
   Every batch that reaches the queue is non-empty and shaped, and its true compressed size is
   within its allowance, whichever compressions failed.
   */
  lemma ReleasedBatchesBounded(cfg: Config, size: SizeFunction, c: nat, ops: seq<Op>, i: nat)
    requires GrowsBy(size, c) && GoodRun(cfg, size, ops) && Run(cfg, size, ops).Some?
    requires i < |Released(Run(cfg, size, ops).value)|
    ensures var s := Run(cfg, size, ops).value;
            var p := Released(s)[i];
            && |s.openers| == |Released(s)| && p.blocks != [] && Shaped(cfg, p)
            && (|p.blocks| <= cfg.maxBlocks || (|p.blocks| == 1 && !s.openers[i]))
            && size(p.blocks) <= Allowance(cfg, c, p.blocks, s.openers[i], |p.blocks|)
  {
    RunKeepsInv(cfg, size, c, ops);
    var s := Run(cfg, size, ops).value;
    assert FineBatch(cfg, size, c, Released(s)[i], s.openers[i]);
    var blocks := Released(s)[i].blocks;
    assert blocks[..|blocks|] == blocks;
  }

  // Two blocks, an admitted opener, or an opener that is itself within the limits.
  predicate Vouched(cfg: Config, p: Proposal, checked: bool) {
    |p.blocks| >= 2 || checked || (|p.blocks| == 1 && cfg.maxBlocks >= 1 && p.blocks[0].bytes <= cfg.maxBytes)
  }

  lemma AllowanceWithinLimit(cfg: Config, c: nat, p: Proposal, checked: bool)
    requires 1 <= |p.blocks| <= cfg.maxBlocks && Vouched(cfg, p, checked)
    ensures Allowance(cfg, c, p.blocks, checked, |p.blocks|) <= cfg.maxBytes + c * (cfg.maxBlocks + 1)
  {
    TimesMonotone(c, |p.blocks| + 1, cfg.maxBlocks + 1);
    TimesIsProduct(c, cfg.maxBlocks + 1);
  }

  /**
   Every released batch keeps both configured limits, unless its only block opened it unchecked
   and breaks them itself.
   */
  lemma ReleasedBatchesWithinLimit(cfg: Config, size: SizeFunction, c: nat, ops: seq<Op>, i: nat)
    requires GrowsBy(size, c) && GoodRun(cfg, size, ops) && Run(cfg, size, ops).Some?
    requires i < |Released(Run(cfg, size, ops).value)|
    ensures var s := Run(cfg, size, ops).value;
            var p := Released(s)[i];
            && |s.openers| == |Released(s)|
            && (Vouched(cfg, p, s.openers[i]) ==>
                  1 <= |p.blocks| <= cfg.maxBlocks && size(p.blocks) <= cfg.maxBytes + c * (cfg.maxBlocks + 1))
            && (!Vouched(cfg, p, s.openers[i]) ==> |p.blocks| == 1 && !s.openers[i])
  {
    ReleasedBatchesBounded(cfg, size, c, ops, i);
    var s := Run(cfg, size, ops).value;
    var p := Released(s)[i];
    if Vouched(cfg, p, s.openers[i]) {
      AllowanceWithinLimit(cfg, c, p, s.openers[i]);
    }
  }
}
