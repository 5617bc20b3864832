/** What every sequence of builder operations keeps. */
module BatchRuns {
  import opened Wrappers
  import opened BatchBuilders

  datatype Op =
    | CheckFits(draft: Draft, ok1: bool, ok2: bool)
    | NewBatch(anchor: Anchor, lastFinalized: nat)
    | AddBlock(draft: Draft)
    | UndoAdd
    | FinalizeNow
    | FinalizeFull(onlyFull: bool)
    | Pop(lastFinalized: nat)
    | Requeue

  // What the caller did last, as far as the next operation depends on it.
  datatype Recent = Admitted(draft: Draft) | Opened | Added | Other

  /**
   A builder with its history: the batches handed out, the blocks added and not removed, and the
   blocks of the current batch at its last successful compression. `opener` says whether the first
   block of the current batch was admitted, `openers` the same for the handed-out and queued ones.
   */
  datatype System = System(
    builder: Builder,
    out: seq<Proposal>,
    ledger: seq<Block>,
    packed: Option<seq<Block>>,
    recent: Recent,
    opener: bool,
    openers: seq<bool>)

  const START := System(Builder([], None), [], [], None, Other, false, [])

  function CurrentBlocks(b: Builder): seq<Block> {
    if b.current.Some? then b.current.value.blocks else []
  }

  // The first compression of the check ran and succeeded.
  predicate CheckCompresses(cfg: Config, b: Builder, d: Draft, ok1: bool) {
    && b.current.Some? && |b.current.value.blocks| + 1 <= MAX_U16
    && !cfg.WithinBytes(b.current.value.totalBytes + d.bytes) && ok1
  }

  // Handed-out batches, then queued ones.
  function Released(s: System): seq<Proposal> {
    s.out + s.builder.queue
  }

  // A batch that enters the queue takes its opener along.
  function Sealed(s: System, b: Builder): seq<bool> {
    if |b.queue| > |s.builder.queue| then s.openers + [s.opener] else s.openers
  }

  // One operation; `None` is a panic.
  function Step(cfg: Config, size: SizeFunction, s: System, op: Op): Option<System> {
    var b := s.builder;
    match op
    case CheckFits(d, ok1, ok2) =>
      if TimeRunsBack(b, d.timestamp) then None
      else
        var (c, fits) := CanConsume(cfg, size, b, d, ok1, ok2);
        var packed := CheckCompresses(cfg, b, d, ok1);
        Some(s.(builder := c,
                packed := if packed then Some(CurrentBlocks(b)) else s.packed,
                recent := if fits then Admitted(d) else Other))
    case NewBatch(anchor, hash) =>
      var c := Create(cfg, b, anchor, hash);
      Some(s.(builder := c, packed := None, recent := Opened, openers := Sealed(s, c)))
    case AddBlock(d) =>
      Some(s.(builder := Add(b, d),
              ledger := if b.current.Some? then s.ledger + [BlockFrom(b.current.value, d)] else s.ledger,
              opener := if CurrentBlocks(b) == [] then s.recent.Admitted? else s.opener,
              recent := if b.current.Some? then Added else Other))
    case UndoAdd =>
      if UndoPanics(b) then None
      else
        Some(s.(builder := RemoveLast(b),
                ledger := if CurrentBlocks(b) != [] && s.ledger != [] then s.ledger[..|s.ledger| - 1] else s.ledger,
                recent := Other))
    case FinalizeNow => Some(s.(builder := Finalize(b), recent := Other, openers := Sealed(s, Finalize(b))))
    case FinalizeFull(onlyFull) =>
      if onlyFull && |CurrentBlocks(b)| >= MAX_U16 then None
      else
        var c := FinalizeIfNeeded(cfg, b, onlyFull);
        Some(s.(builder := c, recent := Other, openers := Sealed(s, c)))
    case Pop(hash) =>
      Some(s.(builder := Popped(b),
              out := if b.queue == [] then s.out else s.out + [Stamped(b.queue[0], hash)],
              recent := Other))
    case Requeue =>
      if s.out == [] then Some(s)
      else
        var n := |s.out| - 1;
        Some(s.(builder := b.(queue := [s.out[n]] + b.queue), out := s.out[..n], recent := Other))
  }

  function Run(cfg: Config, size: SizeFunction, ops: seq<Op>): Option<System> {
    if ops == [] then Some(START)
    else
      var s := Run(cfg, size, ops[..|ops| - 1]);
      if s.None? then None else Step(cfg, size, s.value, ops[|ops| - 1])
  }

  // ---------- conservation ----------

  function Flatten(ps: seq<Proposal>): seq<Block> {
    if ps == [] then [] else Flatten(ps[..|ps| - 1]) + ps[|ps| - 1].blocks
  }

  lemma {:induction false} FlattenAppend(ps: seq<Proposal>, qs: seq<Proposal>)
    ensures Flatten(ps + qs) == Flatten(ps) + Flatten(qs)
  {
    if qs == [] {
      assert ps + qs == ps;
    } else {
      var n := |qs| - 1;
      assert (ps + qs)[..|ps| + n] == ps + qs[..n];
      FlattenAppend(ps, qs[..n]);
    }
  }

  lemma FlattenOne(p: Proposal)
    ensures Flatten([p]) == p.blocks
  {
    assert [p][..0] == [];
  }

  // Exchanging the front for one with the same blocks.
  lemma FlattenFront(queue: seq<Proposal>, p: Proposal)
    requires queue != [] && p.blocks == queue[0].blocks
    ensures Flatten(queue) == p.blocks + Flatten(queue[1..])
    ensures Flatten(queue[0 := p]) == Flatten(queue)
  {
    assert queue == [queue[0]] + queue[1..] && queue[0 := p] == [p] + queue[1..];
    FlattenAppend([queue[0]], queue[1..]);
    FlattenAppend([p], queue[1..]);
    FlattenOne(p);
    FlattenOne(queue[0]);
  }

  // Handed-out batches, then queued ones, then the current one.
  function AllBlocks(s: System): seq<Block> {
    Flatten(s.out) + Flatten(s.builder.queue) + CurrentBlocks(s.builder)
  }

  lemma FinalizeConserves(b: Builder)
    ensures Flatten(Finalize(b).queue) + CurrentBlocks(Finalize(b)) == Flatten(b.queue) + CurrentBlocks(b)
  {
    if CurrentBlocks(b) != [] {
      FlattenAppend(b.queue, [b.current.value]);
      FlattenOne(b.current.value);
    }
  }

  lemma FrontConserves(p: Proposal, hash: nat, out: seq<Proposal>, queue: seq<Proposal>)
    ensures Flatten(out + [Stamped(p, hash)]) + Flatten(queue) == Flatten(out) + Flatten([p] + queue)
  {
    FlattenAppend(out, [Stamped(p, hash)]);
    FlattenAppend([p], queue);
    FlattenOne(p);
    FlattenOne(Stamped(p, hash));
  }

  lemma QueueStepConserves(cfg: Config, size: SizeFunction, s: System, op: Op)
    requires AllBlocks(s) == s.ledger && (op.Pop? || op.Requeue?)
    ensures var t := Step(cfg, size, s, op).value; AllBlocks(t) == t.ledger
  {
    var q := s.builder.queue;
    if op.Pop? && q != [] {
      assert q == [q[0]] + q[1..];
      FrontConserves(q[0], op.lastFinalized, s.out, q[1..]);
    } else if op.Requeue? && s.out != [] {
      var n := |s.out| - 1;
      assert s.out == s.out[..n] + [Stamped(s.out[n], s.out[n].lastFinalized)];
      FrontConserves(s.out[n], s.out[n].lastFinalized, s.out[..n], q);
    }
  }

  lemma UndoConserves(cfg: Config, size: SizeFunction, s: System)
    requires AllBlocks(s) == s.ledger && !UndoPanics(s.builder)
    ensures var t := Step(cfg, size, s, UndoAdd).value; AllBlocks(t) == t.ledger
  {
    var before, blocks := Flatten(s.out) + Flatten(s.builder.queue), CurrentBlocks(s.builder);
    if blocks != [] {
      assert (before + blocks)[..|before + blocks| - 1] == before + blocks[..|blocks| - 1];
    }
  }

  lemma SameBuilderBlocks(s: System, t: System)
    requires t.out == s.out
    requires Flatten(t.builder.queue) + CurrentBlocks(t.builder) == Flatten(s.builder.queue) + CurrentBlocks(s.builder)
    ensures AllBlocks(t) == AllBlocks(s)
  {
    assert AllBlocks(t) == Flatten(t.out) + (Flatten(t.builder.queue) + CurrentBlocks(t.builder));
    assert AllBlocks(s) == Flatten(s.out) + (Flatten(s.builder.queue) + CurrentBlocks(s.builder));
  }

  lemma BuilderStepConserves(cfg: Config, size: SizeFunction, s: System, op: Op)
    requires AllBlocks(s) == s.ledger && Step(cfg, size, s, op).Some?
    requires op.CheckFits? || op.NewBatch? || op.FinalizeNow? || op.FinalizeFull?
    ensures var t := Step(cfg, size, s, op).value; AllBlocks(t) == t.ledger
  {
    var t := Step(cfg, size, s, op).value;
    if op.CheckFits? {
      assert t.builder.queue == s.builder.queue && CurrentBlocks(t.builder) == CurrentBlocks(s.builder);
    } else {
      FinalizeConserves(s.builder);
    }
    SameBuilderBlocks(s, t);
  }

  lemma AddConserves(cfg: Config, size: SizeFunction, s: System, d: Draft)
    requires AllBlocks(s) == s.ledger
    ensures var t := Step(cfg, size, s, AddBlock(d)).value; AllBlocks(t) == t.ledger
  {
    var before := Flatten(s.out) + Flatten(s.builder.queue);
    if s.builder.current.Some? {
      var p := s.builder.current.value;
      assert before + (p.blocks + [BlockFrom(p, d)]) == (before + p.blocks) + [BlockFrom(p, d)];
    }
  }

  lemma StepConserves(cfg: Config, size: SizeFunction, s: System, op: Op)
    requires AllBlocks(s) == s.ledger && Step(cfg, size, s, op).Some?
    ensures var t := Step(cfg, size, s, op).value; AllBlocks(t) == t.ledger
  {
    match op
    case Pop(_) => QueueStepConserves(cfg, size, s, op);
    case Requeue => QueueStepConserves(cfg, size, s, op);
    case UndoAdd => UndoConserves(cfg, size, s);
    case AddBlock(d) => AddConserves(cfg, size, s, d);
    case _ => BuilderStepConserves(cfg, size, s, op);
  }

  // Over every sequence of operations the blocks are exactly those added and not removed, in order.
  lemma {:induction false} RunConserves(cfg: Config, size: SizeFunction, ops: seq<Op>)
    requires Run(cfg, size, ops).Some?
    ensures var s := Run(cfg, size, ops).value; AllBlocks(s) == s.ledger
  {
    if ops != [] {
      RunConserves(cfg, size, ops[..|ops| - 1]);
      StepConserves(cfg, size, Run(cfg, size, ops[..|ops| - 1]).value, ops[|ops| - 1]);
    }
  }

  // Popping and putting back changes nothing but the stamp.
  lemma PopThenRequeue(cfg: Config, size: SizeFunction, s: System, hash: nat)
    ensures var t := Step(cfg, size, Step(cfg, size, s, Pop(hash)).value, Requeue).value;
            s.builder.queue != [] ==>
              && t.builder == s.builder.(queue := s.builder.queue[0 := Stamped(s.builder.queue[0], hash)])
              && t.out == s.out && t.ledger == s.ledger
  {
    var q := s.builder.queue;
    if q != [] {
      var p := Stamped(q[0], hash);
      assert (s.out + [p])[..|s.out|] == s.out;
      assert [p] + q[1..] == q[0 := p];
    }
  }

  /** A submission attempt leaves every block in the returned proposal, the queue or the current batch. */
  lemma SubmissionConserves(cfg: Config, b: Builder, busy: bool, onlyFull: bool, hash: nat, inProgress: bool)
    ensures var (c, sent) := Submission(cfg, b, busy, onlyFull, hash, inProgress);
            (if sent.Some? then sent.value.blocks else []) + Flatten(c.queue) + CurrentBlocks(c)
            == Flatten(b.queue) + CurrentBlocks(b)
  {
    if !busy {
      var f := FinalizeIfNeeded(cfg, b, onlyFull);
      FinalizeConserves(b);
      if f.queue != [] {
        var p := Stamped(f.queue[0], hash);
        FlattenFront(f.queue, p);
      }
    }
  }
}
