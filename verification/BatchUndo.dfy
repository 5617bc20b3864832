/** What `total_bytes` counts over every run, and when an undo panics. */
module BatchUndo {
  import opened Wrappers
  import opened BatchBuilders
  import opened BatchRuns

  function SumBytes(blocks: seq<Block>): nat {
    if blocks == [] then 0 else SumBytes(blocks[..|blocks| - 1]) + blocks[|blocks| - 1].bytes
  }

  lemma SumPush(blocks: seq<Block>, b: Block)
    ensures SumBytes(blocks + [b]) == SumBytes(blocks) + b.bytes
  {
    assert (blocks + [b])[..|blocks|] == blocks;
  }

  // Listed bytes minus compressed bytes at the last successful compression of the current batch.
  function Saved(size: SizeFunction, packed: Option<seq<Block>>): int {
    if packed.None? then 0 else SumBytes(packed.value) - size(packed.value)
  }

  // The total is the listed bytes of the blocks, less what the last compression saved.
  ghost predicate Accounted(size: SizeFunction, p: Proposal, packed: Option<seq<Block>>) {
    p.totalBytes == SumBytes(p.blocks) - Saved(size, packed)
  }

  ghost predicate AccountInv(size: SizeFunction, s: System) {
    s.builder.current.Some? ==> Accounted(size, s.builder.current.value, s.packed)
  }

  // The current proposal after a check: at most its total has changed.
  function Checked(cfg: Config, size: SizeFunction, b: Builder, d: Draft, ok1: bool): Proposal
    requires b.current.Some?
  {
    if CheckCompresses(cfg, b, d, ok1) then Compress(size, b.current.value, true) else b.current.value
  }

  lemma CheckShape(cfg: Config, size: SizeFunction, b: Builder, d: Draft, ok1: bool, ok2: bool)
    requires b.current.Some? && !TimeRunsBack(b, d.timestamp)
    ensures CanConsume(cfg, size, b, d, ok1, ok2).0 == b.(current := Some(Checked(cfg, size, b, d, ok1)))
  {
  }

  lemma StepKeepsAccount(cfg: Config, size: SizeFunction, s: System, op: Op)
    requires AccountInv(size, s) && Step(cfg, size, s, op).Some?
    ensures AccountInv(size, Step(cfg, size, s, op).value)
  {
    match op
    case CheckFits(d, ok1, ok2) => CheckKeepsAccount(cfg, size, s, d, ok1, ok2);
    case AddBlock(d) => AddKeepsAccount(cfg, size, s, d);
    case _ =>
  }

  lemma CheckKeepsAccount(cfg: Config, size: SizeFunction, s: System, d: Draft, ok1: bool, ok2: bool)
    requires AccountInv(size, s) && Step(cfg, size, s, CheckFits(d, ok1, ok2)).Some?
    ensures AccountInv(size, Step(cfg, size, s, CheckFits(d, ok1, ok2)).value)
  {
    if s.builder.current.Some? {
      CheckShape(cfg, size, s.builder, d, ok1, ok2);
    }
  }

  lemma AddKeepsAccount(cfg: Config, size: SizeFunction, s: System, d: Draft)
    requires AccountInv(size, s) && Step(cfg, size, s, AddBlock(d)).Some?
    ensures AccountInv(size, Step(cfg, size, s, AddBlock(d)).value)
  {
    if s.builder.current.Some? {
      var p := s.builder.current.value;
      SumPush(p.blocks, BlockFrom(p, d));
    }
  }

  lemma {:induction false} RunKeepsAccount(cfg: Config, size: SizeFunction, ops: seq<Op>)
    requires Run(cfg, size, ops).Some?
    ensures AccountInv(size, Run(cfg, size, ops).value)
  {
    if ops != [] {
      var prefix := ops[..|ops| - 1];
      RunKeepsAccount(cfg, size, prefix);
      StepKeepsAccount(cfg, size, Run(cfg, size, prefix).value, ops[|ops| - 1]);
    }
  }

  // The blocks that an undo would leave list fewer bytes than the last compression saved.
  ghost predicate SavedMore(size: SizeFunction, s: System) {
    var blocks := CurrentBlocks(s.builder);
    blocks != [] && SumBytes(blocks[..|blocks| - 1]) < Saved(size, s.packed)
  }

  /** After every run, disciplined or not, exactly when the next undo panics. */
  lemma UndoPanicsIff(cfg: Config, size: SizeFunction, ops: seq<Op>)
    requires Run(cfg, size, ops).Some?
    ensures Run(cfg, size, ops + [UndoAdd]).None? <==> SavedMore(size, Run(cfg, size, ops).value)
  {
    assert (ops + [UndoAdd])[..|ops|] == ops;
    RunKeepsAccount(cfg, size, ops);
  }

  function TwoAdded(): Builder {
    var b := Create(Config(200, 5, 10, 0), Builder([], None), Anchor(0, 0, 0), 0);
    Add(Add(b, Draft(0, 100, 0, 0)), Draft(1, 100, 1, 0))
  }

  /**
   Two blocks of 100 bytes that a check compresses to 120: one undo is fine, a second one panics,
   although the batch was never compressed below its last block.
   */
  lemma SecondUndoPanics(size: SizeFunction)
    requires size([Block(0, 100, 0, 0, 0, 0), Block(1, 100, 1, 0, 0, 0)]) == 120
    ensures !TimeRunsBack(TwoAdded(), 2)
    ensures var b := CanConsume(Config(200, 5, 10, 0), size, TwoAdded(), Draft(2, 1, 2, 0), true, true).0;
            !UndoPanics(b) && UndoPanics(RemoveLast(b))
  {
    var x, y := Block(0, 100, 0, 0, 0, 0), Block(1, 100, 1, 0, 0, 0);
    assert [] + [x] + [y] == [x, y];
    assert TwoAdded().current == Some(Proposal([x, y], 200, 0, Anchor(0, 0, 0), 0));
    assert [x, y][..1] == [x];
  }

  // A check between the add and the undo can compress 100 bytes to 1, and the undo then panics.
  lemma UndoAfterCheckPanics(size: SizeFunction)
    requires size([Block(0, 100, 0, 0, 0, 0)]) == 1
    ensures var cfg := Config(100, 5, 10, 0);
            var b := Add(Create(cfg, Builder([], None), Anchor(0, 0, 0), 0), Draft(0, 100, 0, 0));
            && !UndoPanics(b) && !TimeRunsBack(b, 1)
            && UndoPanics(CanConsume(cfg, size, b, Draft(1, 50, 1, 0), true, true).0)
  {
    assert [] + [Block(0, 100, 0, 0, 0, 0)] == [Block(0, 100, 0, 0, 0, 0)];
  }

  // Undoing an add restores the builder, except that a batch it leaves empty is dropped.
  lemma UndoRestores(b: Builder, d: Draft)
    requires b.current.Some?
    ensures !UndoPanics(Add(b, d))
    ensures RemoveLast(Add(b, d)) == if b.current.value.blocks == [] then b.(current := None) else b
  {
    var p := b.current.value;
    assert (p.blocks + [BlockFrom(p, d)])[..|p.blocks|] == p.blocks;
  }

  // ---------- undos that follow their add ----------

  // An undo follows an add, of whatever draft.
  predicate Ordered(s: System, op: Op) {
    op.UndoAdd? ==> s.recent == Added
  }

  ghost predicate OrderedRun(cfg: Config, size: SizeFunction, ops: seq<Op>) {
    ops == [] ||
    var prefix := ops[..|ops| - 1];
    && OrderedRun(cfg, size, prefix)
    && Run(cfg, size, prefix).Some?
    && Ordered(Run(cfg, size, prefix).value, ops[|ops| - 1])
  }

  // The compressed blocks are still there, and a block just added is not among them.
  predicate PackedInv(s: System) {
    && (s.builder.current.Some? && s.packed.Some? ==> s.packed.value <= s.builder.current.value.blocks)
    && (s.recent.Opened? ==> s.builder.current.Some? && s.builder.current.value.blocks == [])
    && (s.recent.Added? ==>
          && s.builder.current.Some? && s.builder.current.value.blocks != []
          && (s.packed.Some? ==> s.packed.value < s.builder.current.value.blocks))
  }

  lemma StepKeepsPacked(cfg: Config, size: SizeFunction, s: System, op: Op)
    requires PackedInv(s) && Ordered(s, op) && Step(cfg, size, s, op).Some?
    ensures PackedInv(Step(cfg, size, s, op).value)
  {
    if op.CheckFits? && s.builder.current.Some? {
      CheckShape(cfg, size, s.builder, op.draft, op.ok1, op.ok2);
    }
  }

  lemma {:induction false} RunKeepsPacked(cfg: Config, size: SizeFunction, ops: seq<Op>)
    requires OrderedRun(cfg, size, ops) && Run(cfg, size, ops).Some?
    ensures PackedInv(Run(cfg, size, ops).value)
  {
    if ops != [] {
      var prefix := ops[..|ops| - 1];
      RunKeepsPacked(cfg, size, prefix);
      StepKeepsPacked(cfg, size, Run(cfg, size, prefix).value, ops[|ops| - 1]);
    }
  }

  lemma {:induction false} SumPrefix(a: seq<Block>, b: seq<Block>)
    requires a <= b
    ensures SumBytes(a) <= SumBytes(b)
    decreases |b|
  {
    if |a| < |b| {
      SumPrefix(a, b[..|b| - 1]);
    } else {
      assert a == b;
    }
  }

  // When every undo follows an add, no undo panics.
  lemma UndoNeverPanics(cfg: Config, size: SizeFunction, ops: seq<Op>)
    requires OrderedRun(cfg, size, ops + [UndoAdd])
    ensures Run(cfg, size, ops + [UndoAdd]).Some?
  {
    assert (ops + [UndoAdd])[..|ops|] == ops;
    var s := Run(cfg, size, ops).value;
    RunKeepsPacked(cfg, size, ops);
    UndoPanicsIff(cfg, size, ops);
    if s.packed.Some? {
      var blocks := s.builder.current.value.blocks;
      SumPrefix(s.packed.value, blocks[..|blocks| - 1]);
    }
  }
}
