/** The empty-block rule against the time-shift deadline, over runs of ticks. */
module BatchTiming {
  import opened Wrappers
  import opened Arithmetic
  import opened BatchCores

  // `closed` finalizes the batch before the tick; `reopen` puts an offered block in a new batch.
  datatype Tick = Tick(sec: nat, pending: Option<TxList>, eos: bool, closed: bool, reopen: bool)

  const START := Core(None, None, [], 0)

  function BeforeOffer(core: Core, t: Tick): Core {
    if t.closed then Finalize(core) else core
  }

  predicate TickPanics(cfg: Config, core: Core, t: Tick) {
    OfferPanics(cfg, BeforeOffer(core, t), TxsIn(t.pending), t.sec, t.eos)
  }

  // Every offered block is added, to the current batch or to a new one.
  function AfterTick(cfg: Config, core: Core, t: Tick): Core
    requires !TickPanics(cfg, core, t)
  {
    var c := BeforeOffer(core, t);
    var offer := Offer(cfg, c, t.pending, t.sec, t.eos);
    if offer.None? then c
    else if t.reopen || c.current.None? then Add(Finalize(c).(current := Some(Batch([], 0))), offer.value)
    else Add(c, offer.value)
  }

  // Ticks are non-decreasing, and at most `gap` seconds apart.
  ghost predicate Paced(ticks: seq<Tick>, gap: nat) {
    forall i, j :: 0 <= i && j == i + 1 && j < |ticks| ==> ticks[i].sec <= ticks[j].sec <= ticks[i].sec + gap
  }

  // What a batch with blocks looks like after a tick at `sec`.
  ghost predicate Timely(cfg: Config, core: Core, sec: nat) {
    && core.lastTimestamp <= sec
    && (HasBlocks(core) ==>
          && LastSec(core) == core.lastTimestamp
          && (core.lastTimestamp == sec || Silent(cfg, sec - core.lastTimestamp)))
  }

  // A tick without transactions this long after the last block can pass without an offer.
  predicate Silent(cfg: Config, d: nat) {
    && d + cfg.slotSec < cfg.maxShiftSec
    && cfg.minTxs > 0
    && cfg.heartbeatMs > 0 && d * 1000 / cfg.heartbeatMs <= cfg.maxSkippedL2Slots
  }

  // A caller can check this on the configuration: no silence plus one gap passes the deadline.
  ghost predicate SafeGap(cfg: Config, gap: nat) {
    gap <= cfg.maxShiftSec && forall d: nat :: Silent(cfg, d) ==> d + gap <= cfg.maxShiftSec
  }

  lemma TickKeepsTimely(cfg: Config, core: Core, t: Tick, sec: nat)
    requires cfg.Valid() && Timely(cfg, core, sec) && sec <= t.sec
    ensures !TickPanics(cfg, core, t)
    ensures Timely(cfg, AfterTick(cfg, core, t), t.sec)
  {
  }

  function After(cfg: Config, ticks: seq<Tick>): Core {
    if ticks == [] then START
    else
      var core := After(cfg, ticks[..|ticks| - 1]);
      var t := ticks[|ticks| - 1];
      // A tick that panics leaves the builder as it is.
      if TickPanics(cfg, core, t) then core else AfterTick(cfg, core, t)
  }

  lemma {:induction false} RunIsTimely(cfg: Config, ticks: seq<Tick>, gap: nat)
    requires cfg.Valid() && Paced(ticks, gap) && ticks != []
    ensures Timely(cfg, After(cfg, ticks), ticks[|ticks| - 1].sec)
  {
    var n := |ticks| - 1;
    if n == 0 {
      assert ticks[..0] == [];
      TickKeepsTimely(cfg, START, ticks[0], 0);
    } else {
      var prefix := ticks[..n];
      RunIsTimely(cfg, prefix, gap);
      assert prefix[n - 1] == ticks[n - 1];
      TickKeepsTimely(cfg, After(cfg, prefix), ticks[n], ticks[n - 1].sec);
    }
  }

  // Neither a panic nor the deadline at tick i of the run.
  ghost predicate InTime(cfg: Config, ticks: seq<Tick>, i: nat)
    requires i < |ticks|
  {
    var core := After(cfg, ticks[..i]);
    !TickPanics(cfg, core, ticks[i]) && !TimeRunsBack(core, ticks[i].sec) && !Expired(cfg, core, ticks[i].sec)
  }

  lemma SafeGapNeverExpires(cfg: Config, ticks: seq<Tick>, gap: nat, i: nat)
    requires cfg.Valid() && SafeGap(cfg, gap) && Paced(ticks, gap) && i < |ticks|
    ensures InTime(cfg, ticks, i)
  {
    if i > 0 {
      var prefix := ticks[..i];
      RunIsTimely(cfg, prefix, gap);
      assert prefix[i - 1] == ticks[i - 1];
    }
  }

  /** The empty-block rule fires before the deadline when ticks are at most one L1 slot apart. */
  lemma SlotGapNeverExpires(cfg: Config, ticks: seq<Tick>, i: nat)
    requires cfg.Valid() && Paced(ticks, cfg.slotSec) && i < |ticks|
    ensures InTime(cfg, ticks, i)
  {
    SafeGapNeverExpires(cfg, ticks, cfg.slotSec, i);
  }

  // ---------- the bound is tight ----------

  function QuietTick(sec: nat, eos: bool): Tick {
    Tick(sec, None, eos, false, false)
  }

  // One block at second 0, silence until second d, then one gap.
  function LongSilence(d: nat, gap: nat): seq<Tick> {
    seq(d + 1, (i: nat) => QuietTick(i, i == 0)) + [QuietTick(d + gap, false)]
  }

  lemma SilentBelow(cfg: Config, d: nat, e: nat)
    requires Silent(cfg, d) && e <= d
    ensures Silent(cfg, e)
  {
    DivMonotone(e * 1000, d * 1000, cfg.heartbeatMs);
  }

  const ONE_BLOCK := Core(Some(Batch([L2Block(0, 0, 0)], 0)), None, [], 0)

  lemma FirstTickAdds(cfg: Config)
    requires cfg.Valid()
    ensures !TickPanics(cfg, START, QuietTick(0, true))
    ensures AfterTick(cfg, START, QuietTick(0, true)) == ONE_BLOCK
  {
    assert [] + [L2Block(0, 0, 0)] == [L2Block(0, 0, 0)];
  }

  lemma QuietTickAddsNothing(cfg: Config, k: nat)
    requires cfg.Valid() && Silent(cfg, k)
    ensures !TickPanics(cfg, ONE_BLOCK, QuietTick(k, false))
    ensures AfterTick(cfg, ONE_BLOCK, QuietTick(k, false)) == ONE_BLOCK
  {
  }

  lemma {:induction false} SilenceAddsNothing(cfg: Config, d: nat, gap: nat, k: nat)
    requires cfg.Valid() && (d == 0 || Silent(cfg, d)) && k <= d
    ensures After(cfg, LongSilence(d, gap)[..k + 1]) == ONE_BLOCK
  {
    var ticks := LongSilence(d, gap);
    assert ticks[..k + 1][..k] == ticks[..k];
    assert ticks[k] == QuietTick(k, k == 0);
    if k == 0 {
      assert ticks[..0] == [];
      FirstTickAdds(cfg);
    } else {
      SilenceAddsNothing(cfg, d, gap, k - 1);
      SilentBelow(cfg, d, k);
      QuietTickAddsNothing(cfg, k);
    }
  }

  lemma SilenceIsPaced(d: nat, gap: nat)
    requires d == 0 || gap > 0
    ensures Paced(LongSilence(d, gap), gap)
  {
    var ticks := LongSilence(d, gap);
    forall i | 0 <= i <= d ensures ticks[i].sec == i {
      assert ticks[i] == QuietTick(i, i == 0);
    }
    assert ticks[d + 1].sec == d + gap;
  }

  lemma SilenceExpires(cfg: Config, d: nat, gap: nat)
    requires cfg.Valid() && (d == 0 || Silent(cfg, d)) && d + gap > cfg.maxShiftSec
    ensures var ticks := LongSilence(d, gap); Paced(ticks, gap) && !InTime(cfg, ticks, d + 1)
  {
    SilenceIsPaced(d, gap);
    SilenceAddsNothing(cfg, d, gap, d);
    assert LongSilence(d, gap)[d + 1].sec == d + gap;
  }

  ghost predicate NeverExpires(cfg: Config, gap: nat) {
    forall ticks: seq<Tick>, i: nat :: Paced(ticks, gap) && i < |ticks| ==> InTime(cfg, ticks, i)
  }

  /** Exactly the gaps that keep every run before the deadline. */
  lemma NeverExpiresIffSafeGap(cfg: Config, gap: nat)
    requires cfg.Valid()
    ensures NeverExpires(cfg, gap) <==> SafeGap(cfg, gap)
  {
    if SafeGap(cfg, gap) {
      forall ticks: seq<Tick>, i: nat | Paced(ticks, gap) && i < |ticks| ensures InTime(cfg, ticks, i) {
        SafeGapNeverExpires(cfg, ticks, gap, i);
      }
    } else {
      var d: nat :| (d == 0 || Silent(cfg, d)) && d + gap > cfg.maxShiftSec;
      SilenceExpires(cfg, d, gap);
    }
  }
}
