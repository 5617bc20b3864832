/** Admission in the core: where it differs from the realtime builder. */
module BatchAdmission {
  import opened Wrappers
  import opened BatchCores

  // The admitted batch is within the limit by its own total or by its true compressed size.
  ghost predicate Honest(cfg: Config, size: SizeFunction, core: Core, b: L2Block, ok1: bool, ok2: bool)
    requires !TimeRunsBack(core, b.timestamp)
  {
    var (c, admitted) := CanConsume(cfg, size, core, b, ok1, ok2);
    admitted ==>
      var p := c.current.value;
      p.totalBytes + b.bytes <= cfg.maxBytes || size(p.blocks + [b]) <= cfg.maxBytes
  }

  // The guard of the second compression, with a block that does not fit.
  ghost predicate Oversize(cfg: Config, size: SizeFunction, core: Core, b: L2Block)
    requires !TimeRunsBack(core, b.timestamp)
  {
    core.current.Some? &&
    var p := core.current.value;
    && |p.blocks| + 1 <= MAX_U16 && |p.blocks| + 1 <= cfg.maxBlocks && !Expired(cfg, core, b.timestamp)
    && p.totalBytes + b.bytes > cfg.maxBytes && size(p.blocks + [b]) > cfg.maxBytes
    && (|| p.totalBytes <= cfg.maxBytes
        || (size(p.blocks) <= cfg.maxBytes && size(p.blocks) + b.bytes > cfg.maxBytes))
  }

  /** An oversize block gets in exactly when a compression can fail on a batch that was within the limit. */
  lemma HonestIffNotOversize(cfg: Config, size: SizeFunction, core: Core, b: L2Block)
    requires !TimeRunsBack(core, b.timestamp)
    ensures (forall ok1, ok2 :: Honest(cfg, size, core, b, ok1, ok2)) <==> !Oversize(cfg, size, core, b)
  {
    assert Honest(cfg, size, core, b, false, false) || Oversize(cfg, size, core, b);
    if Oversize(cfg, size, core, b) {
      var p := core.current.value;
      if p.totalBytes <= cfg.maxBytes {
        assert !Honest(cfg, size, core, b, false, false);
      } else {
        assert !Honest(cfg, size, core, b, true, false);
      }
    }
  }

  // While both compressions succeed no oversize block is admitted.
  lemma CompressionMakesHonest(cfg: Config, size: SizeFunction, core: Core, b: L2Block, ok1: bool)
    requires !TimeRunsBack(core, b.timestamp)
    ensures Honest(cfg, size, core, b, ok1, true)
  {
  }

  // With max_bytes 10: a batch of 9 bytes takes a block of 1000 bytes when both compressions fail.
  lemma FailedCompressionAdmitsOversize(size: SizeFunction)
    requires size([L2Block(1, 9, 0), L2Block(1, 1000, 1)]) > 10
    ensures var cfg := Config(10, 5, 12, 100, 1, 1, 1000);
            var core := Core(Some(Batch([L2Block(1, 9, 0)], 9)), None, [], 0);
            !TimeRunsBack(core, 1) && !Honest(cfg, size, core, L2Block(1, 1000, 1), false, false)
  {
    var cfg := Config(10, 5, 12, 100, 1, 1, 1000);
    var p, b := Batch([L2Block(1, 9, 0)], 9), L2Block(1, 1000, 1);
    assert p.blocks + [b] == [L2Block(1, 9, 0), b];
    assert Measure(cfg, size, p, b, false, false) == (p, 9);
  }
}
