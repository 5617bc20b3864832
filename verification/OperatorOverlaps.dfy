/** Runs in which two nodes have the same role, or a node misses its own. */
module OperatorOverlaps {
  import opened Wrappers
  import opened Arithmetic
  import opened SlotClocks
  import opened OperatorsCaches
  import opened Operators
  import opened OperatorRuns
  import opened OperatorSchedule

  // What a reader finds at `now`.
  function ViewAt(cfg: Config, sched: Schedule, now: nat): CacheState
    requires cfg.Valid() && now >= cfg.clock.GenesisMs()
  {
    CacheState(cfg.clock.SlotBeginSec(now), sched(cfg.clock.Epoch(now)), sched(cfg.clock.Epoch(now) + 1))
  }

  // A call at `now` that gets this view; driver and inbox answer, and the marker block has been seen.
  function Look(now: nat, view: CacheState): Observation {
    Observation(now, SlotInfo(0, 0, 0), Some(view), Some(DriverStatus(0, 0)), Some(0))
  }

  lemma ViewIsScheduled(cfg: Config, sched: Schedule, read: nat, now: nat)
    requires cfg.Valid() && cfg.clock.GenesisMs() <= read <= now && Asks(cfg, now)
    ensures Scheduled(cfg, sched, ViewAt(cfg, sched, read), now)
    ensures StampEpoch(cfg.clock, ViewAt(cfg, sched, read).timestamp) == cfg.clock.Epoch(read)
    ensures Accepts(cfg, Look(now, ViewAt(cfg, sched, read))) <==> cfg.clock.Epoch(read) == cfg.clock.Epoch(now)
  {
    StampOfNow(cfg.clock, read);
    AcceptedIffEpoch(cfg.clock, cfg.clock.SlotBeginSec(read), cfg.clock.Epoch(now));
    EpochMonotone(cfg.clock, read, now);
  }

  lemma FirstLook(cfg: Config, sched: Schedule, read: nat, now: nat)
    requires cfg.Valid() && cfg.clock.GenesisMs() <= read <= now && Asks(cfg, now)
    ensures var ticks := [Look(now, ViewAt(cfg, sched, read))];
            && Follows(cfg, sched, ticks) && Reply(cfg, ticks, 0).Some? && !Ejected(cfg, ticks, 0)
            && LastAccepted(cfg, ticks[..0]) == None
            && LastAccepted(cfg, ticks) == (if Accepts(cfg, ticks[0]) then ticks[0].view else None)
  {
    var o := Look(now, ViewAt(cfg, sched, read));
    var ticks := [o];
    assert ticks[..0] == [] && ticks[..1] == ticks;
    ViewIsScheduled(cfg, sched, read, now);
    ReplyIsStatus(cfg, ticks, 0);
    RecordMadeIff(cfg, INITIAL, o);
  }

  // A view read and accepted at `then`, and later a stale one that was read at `read`.
  lemma SecondLook(cfg: Config, sched: Schedule, past: nat, read: nat, now: nat)
    requires cfg.Valid() && Asks(cfg, past) && Asks(cfg, now) && past <= read <= now
    requires cfg.clock.Epoch(read) < cfg.clock.Epoch(now)
    ensures var ticks := [Look(past, ViewAt(cfg, sched, past)), Look(now, ViewAt(cfg, sched, read))];
            && Follows(cfg, sched, ticks) && Reply(cfg, ticks, 1).Some? && !Ejected(cfg, ticks, 1)
            && !Accepts(cfg, ticks[1])
            && NextEpoch(cfg, LastAccepted(cfg, ticks[..1])) == Some(cfg.clock.Epoch(past) + 1)
            && LastAccepted(cfg, ticks[..2]) == LastAccepted(cfg, ticks[..1])
  {
    var first, second := Look(past, ViewAt(cfg, sched, past)), Look(now, ViewAt(cfg, sched, read));
    var ticks := [first, second];
    assert ticks[..1] == [first] && ticks[..2] == ticks && ticks[..2][..1] == [first];
    FirstLook(cfg, sched, past, past);
    assert [first][..1] == [first];
    ViewIsScheduled(cfg, sched, past, past);
    ViewIsScheduled(cfg, sched, read, now);
    ReplyIsStatus(cfg, ticks, 1);
    RecordMadeIff(cfg, RoleAfter(cfg, [first]), second);
  }

  lemma EpochStart(c: SlotClock, e: nat)
    requires c.Valid() && e * c.slotsPerEpoch >= c.genesisSlot
    ensures c.StartAt(e * c.slotsPerEpoch) >= c.GenesisMs()
    ensures c.Epoch(c.StartAt(e * c.slotsPerEpoch)) == e && c.EpochBeginSec(e).Some?
  {
    StartIsInItsSlot(c, e * c.slotsPerEpoch);
    MulMonotone(0, e * c.slotsPerEpoch - c.genesisSlot, c.SlotMs());
    DivUnique(e * c.slotsPerEpoch, c.slotsPerEpoch, e);
  }

  lemma EpochsApart(c: SlotClock, d: nat, e: nat)
    requires c.Valid() && d <= e && d * c.slotsPerEpoch >= c.genesisSlot
    ensures e * c.slotsPerEpoch >= c.genesisSlot
    ensures c.StartAt(d * c.slotsPerEpoch) <= c.StartAt(e * c.slotsPerEpoch)
  {
    MulMonotone(d, e, c.slotsPerEpoch);
    StartMonotone(c, d * c.slotsPerEpoch, e * c.slotsPerEpoch);
  }

  function Starts(c: SlotClock, e: nat): int {
    c.StartAt(e * c.slotsPerEpoch)
  }

  /**
   For all nodes, epochs and k >= 2: a schedule and two runs that submit at the same instant. One node
   accepted a view k epochs ago and now gets one that is s epochs old, 1 <= s <= k (read by another
   reader of its cache if s < k); the other node gets a current view.
   */
  lemma TwoSubmittersHappen(a: Config, b: Config, e: nat, k: nat, s: nat)
      returns (sched: Schedule, ta: seq<Observation>, tb: seq<Observation>)
    requires a.Valid() && b.Valid() && a.clock == b.clock && a.handoverSlots == b.handoverSlots
    requires !a.simulateNotSubmitting && !b.simulateNotSubmitting
    requires 2 <= k <= e && 1 <= s <= k && (e - k) * a.clock.slotsPerEpoch >= a.clock.genesisSlot
    ensures |ta| == 2 && |tb| == 1 && ta[1].now == tb[0].now && SideBySide(a, b, sched, ta, 1, tb, 0)
    ensures var c := a.clock;
            && Starts(c, e - k) >= c.GenesisMs() && Starts(c, e - s) >= c.GenesisMs() && Starts(c, e) >= 0
            && ta == [Look(Starts(c, e - k), ViewAt(a, sched, Starts(c, e - k))),
                      Look(Starts(c, e), ViewAt(a, sched, Starts(c, e - s)))]
    ensures Reply(a, ta, 1).value.submitter && Reply(b, tb, 0).value.submitter
  {
    var c := a.clock;
    EpochsApart(c, e - k, e - s);
    EpochsApart(c, e - s, e);
    EpochStart(c, e - k);
    EpochStart(c, e - s);
    EpochStart(c, e);
    sched := (x: nat) => if x == e - k + 1 then a.me else b.me;
    ta := [Look(Starts(c, e - k), ViewAt(a, sched, Starts(c, e - k))), Look(Starts(c, e), ViewAt(a, sched, Starts(c, e - s)))];
    tb := [Look(Starts(c, e), ViewAt(b, sched, Starts(c, e)))];
    SecondLook(a, sched, Starts(c, e - k), Starts(c, e - s), Starts(c, e));
    FirstLook(b, sched, Starts(c, e), Starts(c, e));
    ViewIsScheduled(b, sched, Starts(c, e), Starts(c, e));
    TwoSubmittersIff(a, b, sched, ta, 1, tb, 0);
  }

  /** A node whose first view is stale submits nothing, although the schedule names it for every epoch. */
  lemma FirstStaleViewIdles(cfg: Config, sched: Schedule, read: nat, now: nat)
    requires cfg.Valid() && cfg.clock.GenesisMs() <= read <= now && Asks(cfg, now)
    requires cfg.clock.Epoch(read) < cfg.clock.Epoch(now)
    requires forall x :: sched(x) == cfg.me
    ensures var ticks := [Look(now, ViewAt(cfg, sched, read))];
            && Follows(cfg, sched, ticks) && Reply(cfg, ticks, 0).Some? && !Ejected(cfg, ticks, 0)
            && MaySubmit(cfg, sched, now)
            && !Reply(cfg, ticks, 0).value.submitter && !Reply(cfg, ticks, 0).value.preconfer
  {
    var ticks := [Look(now, ViewAt(cfg, sched, read))];
    FirstLook(cfg, sched, read, now);
    ViewIsScheduled(cfg, sched, read, now);
    assert ticks[..1] == ticks;
    SubmitterIff(cfg, sched, ticks, 0);
    PreconferIff(cfg, sched, ticks, 0);
  }

  lemma WindowStartInside(c: SlotClock, e: nat, n: nat)
    requires c.Valid() && 0 < n <= c.slotsPerEpoch && e * c.slotsPerEpoch >= c.genesisSlot
    ensures c.WindowStart(e, n) >= c.StartAt(e * c.slotsPerEpoch) >= c.GenesisMs()
    ensures c.Epoch(c.WindowStart(e, n)) == e && c.InLastSlots(c.SlotOfEpoch(c.WindowStart(e, n)), n)
    ensures c.EpochBeginSec(e).Some?
  {
    var w := e * c.slotsPerEpoch + (c.slotsPerEpoch - n);
    EpochStart(c, e);
    StartMonotone(c, e * c.slotsPerEpoch, w);
    StartIsInItsSlot(c, w);
    DivUnique(w, c.slotsPerEpoch, e);
  }

  /**
   Why a view of the previous epoch is not enough inside the window: for all nodes and epochs, a schedule
   and two runs that preconfirm at the same instant there. One node acts for this epoch on a view of the
   previous one, the other for the next epoch on a view of this one.
   */
  lemma TwoPreconfersHappen(a: Config, b: Config, e: nat)
      returns (sched: Schedule, ta: seq<Observation>, tb: seq<Observation>)
    requires a.Valid() && b.Valid() && a.clock == b.clock && a.handoverSlots == b.handoverSlots > 0
    requires !IsForkTransition(a, 0) && !IsForkTransition(b, 0)
    requires e >= 1 && (e - 1) * a.clock.slotsPerEpoch >= a.clock.genesisSlot
    ensures |ta| == 2 && |tb| == 1 && SideBySide(a, b, sched, ta, 1, tb, 0)
    ensures IsHandoverWindow(a, ta[1].now) && InStep(a, ta, 1) && InStep(b, tb, 0)
    ensures Reply(a, ta, 1).value.preconfer && Reply(b, tb, 0).value.preconfer
  {
    var c, n := a.clock, a.handoverSlots;
    EpochsApart(c, e - 1, e);
    EpochStart(c, e - 1);
    WindowStartInside(c, e, n);
    var past, now := Starts(c, e - 1), c.WindowStart(e, n);
    sched := (x: nat) => if x == e then a.me else b.me;
    ta := [Look(past, ViewAt(a, sched, past)), Look(now, ViewAt(a, sched, past))];
    tb := [Look(now, ViewAt(b, sched, now))];
    SecondLook(a, sched, past, past, now);
    FirstLook(b, sched, now, now);
    ViewIsScheduled(b, sched, now, now);
    AcceptedNext(b, sched, tb, 0);
    assert tb[..1] == tb;
    TwoPreconfersIff(a, b, sched, ta, 1, tb, 0);
  }
}
