/**
 L1 slots, epochs, handover windows and L2 slots as functions of one clock reading.
 Times are milliseconds since the UNIX epoch unless a name ends in `Sec`.
 */
module SlotClocks {
  import opened Wrappers
  import opened Arithmetic

  datatype SlotClock = SlotClock(
    genesisSlot: nat,
    genesisSec: nat,
    slotSec: nat,
    slotsPerEpoch: nat,
    heartbeatMs: nat)
  {
    // The divisors of the source are positive, or it panics.
    predicate Valid() {
      slotSec > 0 && slotsPerEpoch > 0 && heartbeatMs > 0
    }

    function GenesisMs(): nat {
      genesisSec * 1000
    }

    function SlotMs(): nat {
      slotSec * 1000
    }

    function L2SlotsPerL1(): nat
      requires Valid()
    {
      SlotMs() / heartbeatMs
    }

    function L2SlotsPerEpoch(): nat
      requires Valid()
    {
      slotsPerEpoch * L2SlotsPerL1()
    }

    // `slot_of` on readings it accepts.
    function Slot(now: nat): (slot: nat)
      requires Valid() && now >= GenesisMs()
      ensures slot >= genesisSlot
    {
      (now - GenesisMs()) / SlotMs() + genesisSlot
    }

    function SlotOf(now: nat): Option<nat>
      requires Valid()
    {
      if now >= GenesisMs() then Some(Slot(now)) else None
    }

    // Start of a slot on an unbounded time line; `start_of` is its restriction to slots from genesis on.
    function StartAt(slot: int): int {
      GenesisMs() + (slot - genesisSlot) * SlotMs()
    }

    function StartOf(slot: nat): Option<int> {
      if slot < genesisSlot then None else Some(StartAt(slot))
    }

    function DurationToNextSlot(now: nat): (d: int)
      requires Valid()
    {
      if now < GenesisMs() then GenesisMs() - now else StartAt(Slot(now) + 1) - now
    }

    function Epoch(now: nat): nat
      requires Valid() && now >= GenesisMs()
    {
      Slot(now) / slotsPerEpoch
    }

    function SlotOfEpoch(now: nat): nat
      requires Valid() && now >= GenesisMs()
    {
      Slot(now) % slotsPerEpoch
    }

    // Whole seconds, as `get_current_slot_begin_timestamp`.
    function SlotBeginSec(now: nat): int
      requires Valid() && now >= GenesisMs()
    {
      StartAt(Slot(now)) / 1000
    }

    function EpochBeginSec(epoch: nat): Option<int> {
      if epoch * slotsPerEpoch < genesisSlot then None
      else Some(StartAt(epoch * slotsPerEpoch) / 1000)
    }

    predicate InLastSlots(slotOfEpoch: nat, n: nat)
      requires n <= slotsPerEpoch
    {
      slotsPerEpoch - n <= slotOfEpoch < slotsPerEpoch
    }

    // First instant of the last `n` slots of `epoch`.
    function WindowStart(epoch: nat, n: nat): int
      requires n <= slotsPerEpoch
    {
      StartAt(epoch * slotsPerEpoch + (slotsPerEpoch - n))
    }

    function L2SlotWithinL1(now: nat): int
      requires Valid() && now >= GenesisMs()
    {
      (now - StartAt(Slot(now))) / heartbeatMs
    }

    function L2SlotBeginSec(now: nat): nat
      requires Valid() && now >= GenesisMs()
    {
      (now - GenesisMs()) / heartbeatMs * heartbeatMs / 1000 + genesisSec
    }

    // The heartbeat fits a whole number of times in an L1 slot.
    predicate Aligned()
      requires Valid()
    {
      SlotMs() % heartbeatMs == 0
    }

    // `is_l2_slot_before_handover_window` for a window of `n` slots.
    predicate LastL2SlotBefore(now: nat, n: nat)
      requires Valid() && now >= GenesisMs() && n < slotsPerEpoch
    {
      && SlotOfEpoch(now) == slotsPerEpoch - n - 1
      && L2SlotWithinL1(now) + 1 == L2SlotsPerL1()
    }
  }

  lemma NextStart(c: SlotClock, slot: int)
    ensures c.StartAt(slot + 1) == c.StartAt(slot) + c.SlotMs()
  {
    assert (slot + 1 - c.genesisSlot) * c.SlotMs() == (slot - c.genesisSlot) * c.SlotMs() + c.SlotMs();
  }

  lemma CurrentSlotContains(c: SlotClock, now: nat)
    requires c.Valid() && now >= c.GenesisMs()
    ensures c.StartAt(c.Slot(now)) <= now < c.StartAt(c.Slot(now)) + c.SlotMs()
  {
    DivBounds(now - c.GenesisMs(), c.SlotMs());
  }

  lemma InsideIsCurrent(c: SlotClock, now: nat, slot: nat)
    requires c.Valid() && slot >= c.genesisSlot && c.StartAt(slot) <= now < c.StartAt(slot) + c.SlotMs()
    ensures c.SlotOf(now) == Some(slot)
  {
    var k, d := slot - c.genesisSlot, c.SlotMs();
    MulMonotone(0, k, d);
    DivUnique(now - c.GenesisMs(), d, k);
  }

  // A slot is current exactly during [start of slot, start of next slot).
  lemma SlotIffInside(c: SlotClock, now: nat, slot: nat)
    requires c.Valid()
    ensures c.SlotOf(now) == Some(slot) <==> slot >= c.genesisSlot && c.StartAt(slot) <= now < c.StartAt(slot + 1)
  {
    var start := c.StartAt(slot);
    assert c.StartAt(slot + 1) == start + c.SlotMs() by { NextStart(c, slot); }
    if now >= c.GenesisMs() && slot == c.Slot(now) {
      CurrentSlotContains(c, now);
    } else if slot >= c.genesisSlot && start <= now < start + c.SlotMs() {
      InsideIsCurrent(c, now, slot);
    }
  }

  lemma StartIsInItsSlot(c: SlotClock, slot: nat)
    requires c.Valid() && slot >= c.genesisSlot
    ensures c.StartOf(slot) == Some(c.StartAt(slot)) && c.StartAt(slot) >= 0
    ensures c.SlotOf(c.StartAt(slot)) == Some(slot)
  {
    MulMonotone(0, slot - c.genesisSlot, c.SlotMs());
    NextStart(c, slot);
    SlotIffInside(c, c.StartAt(slot), slot);
  }

  // The wait is positive, at most one slot after genesis, and ends on a slot start.
  lemma DurationEndsOnNextSlot(c: SlotClock, now: nat)
    requires c.Valid()
    ensures var d := c.DurationToNextSlot(now);
            && d > 0
            && now + d == (if now < c.GenesisMs() then c.StartAt(c.genesisSlot) else c.StartAt(c.Slot(now) + 1))
            && (now >= c.GenesisMs() ==> d <= c.SlotMs() && c.SlotOf(now + d) == Some(c.Slot(now) + 1))
  {
    if now >= c.GenesisMs() {
      SlotIffInside(c, now, c.Slot(now));
      NextStart(c, c.Slot(now));
      StartIsInItsSlot(c, c.Slot(now) + 1);
    }
  }

  lemma StartMonotone(c: SlotClock, a: int, b: int)
    requires a <= b
    ensures c.StartAt(a) <= c.StartAt(b)
  {
    MulMonotone(a - c.genesisSlot, b - c.genesisSlot, c.SlotMs());
  }

  // Milliseconds into the current slot, and the slot start as whole slots after genesis.
  lemma OffsetInSlot(c: SlotClock, now: nat)
    requires c.Valid() && now >= c.GenesisMs()
    ensures 0 <= now - c.StartAt(c.Slot(now)) < c.SlotMs()
    ensures now - c.StartAt(c.Slot(now)) == (now - c.GenesisMs()) % c.SlotMs()
    ensures c.StartAt(c.Slot(now)) == c.GenesisMs() + (now - c.GenesisMs()) / c.SlotMs() * c.SlotMs()
  {
    DivBounds(now - c.GenesisMs(), c.SlotMs());
  }

  lemma SecondsOfStart(c: SlotClock, slot: int)
    ensures c.StartAt(slot) == 1000 * (c.genesisSec + (slot - c.genesisSlot) * c.slotSec)
    ensures c.StartAt(slot) / 1000 == c.genesisSec + (slot - c.genesisSlot) * c.slotSec
  {
    assert (slot - c.genesisSlot) * c.SlotMs() == 1000 * ((slot - c.genesisSlot) * c.slotSec);
  }

  // Two clocks for the same L2 slot: counted from genesis, and counted within the L1 slot.
  ghost predicate L2TimesAgreeAt(c: SlotClock, now: nat)
    requires c.Valid() && now >= c.GenesisMs()
  {
    c.L2SlotBeginSec(now) == c.SlotBeginSec(now) + c.L2SlotWithinL1(now) * c.heartbeatMs / 1000
  }

  lemma AlignedTimesAgree(c: SlotClock, now: nat)
    requires c.Valid() && now >= c.GenesisMs() && c.Aligned()
    ensures L2TimesAgreeAt(c, now)
  {
    var h, d := c.heartbeatMs, c.SlotMs();
    var k := (now - c.GenesisMs()) / d;
    var off := now - c.StartAt(c.Slot(now));
    var m := d / h;
    OffsetInSlot(c, now);
    SecondsOfStart(c, c.Slot(now));
    assert d == m * h;
    assert k * d == k * (m * h) == (k * m) * h;
    DivShift(off, h, k * m);
    var i := off / h;
    assert (now - c.GenesisMs()) / h == k * m + i;
    assert (k * m + i) * h == k * d + i * h;
    assert k * d == 1000 * (k * c.slotSec);
    DivShift(i * h, 1000, k * c.slotSec);
  }

  // The two agree at every reading exactly when the heartbeat divides the L1 slot.
  lemma L2TimesAgreeIffAligned(c: SlotClock)
    requires c.Valid()
    ensures (forall now: nat :: now >= c.GenesisMs() ==> L2TimesAgreeAt(c, now)) <==> c.Aligned()
  {
    if c.Aligned() {
      forall now: nat | now >= c.GenesisMs() ensures L2TimesAgreeAt(c, now) {
        AlignedTimesAgree(c, now);
      }
    } else {
      MisalignedAfterOneSlot(c);
      assert !L2TimesAgreeAt(c, c.GenesisMs() + c.SlotMs());
    }
  }

  lemma MisalignedAfterOneSlot(c: SlotClock)
    requires c.Valid() && !c.Aligned()
    ensures !L2TimesAgreeAt(c, c.GenesisMs() + c.SlotMs())
  {
    var now, h, d := c.GenesisMs() + c.SlotMs(), c.heartbeatMs, c.SlotMs();
    DivUnique(d, d, 1);
    OffsetInSlot(c, now);
    SecondsOfStart(c, c.Slot(now));
    DivUnique(0, h, 0);
    DivBounds(d, h);
    assert d / h * h < d;
  }

  // The slots before the window of epoch e run up to its start, the window up to the next epoch.
  lemma WindowIffInLastSlots(c: SlotClock, now: nat, n: nat)
    requires c.Valid() && now >= c.GenesisMs() && n <= c.slotsPerEpoch
    ensures var e := c.Epoch(now);
            c.InLastSlots(c.SlotOfEpoch(now), n) <==> c.WindowStart(e, n) <= now < c.StartAt((e + 1) * c.slotsPerEpoch)
    ensures c.StartAt(c.Epoch(now) * c.slotsPerEpoch) <= now < c.StartAt((c.Epoch(now) + 1) * c.slotsPerEpoch)
  {
    var e, s, p := c.Epoch(now), c.Slot(now), c.slotsPerEpoch;
    SlotIffInside(c, now, s);
    DivBounds(s, p);
    assert s == e * p + c.SlotOfEpoch(now);
    assert (e + 1) * p == e * p + p;
    StartMonotone(c, s + 1, (e + 1) * p);
    StartMonotone(c, e * p, s);
    var w := e * p + (p - n);
    if s >= w {
      StartMonotone(c, w, s);
    } else {
      StartMonotone(c, s + 1, w);
    }
  }

  // In epoch e, the interval of one heartbeat that ends where the handover window starts.
  ghost predicate FinalHeartbeat(c: SlotClock, now: nat, n: nat)
    requires c.Valid() && now >= c.GenesisMs() && n < c.slotsPerEpoch
  {
    c.WindowStart(c.Epoch(now), n) - c.heartbeatMs <= now < c.WindowStart(c.Epoch(now), n)
  }

  lemma SlotBeforeWindow(c: SlotClock, now: nat, n: nat)
    requires c.Valid() && now >= c.GenesisMs() && n < c.slotsPerEpoch
    ensures var start := c.WindowStart(c.Epoch(now), n);
            c.SlotOfEpoch(now) == c.slotsPerEpoch - n - 1 <==> start - c.SlotMs() <= now < start
    ensures c.SlotOfEpoch(now) == c.slotsPerEpoch - n - 1 ==>
              c.StartAt(c.Slot(now)) == c.WindowStart(c.Epoch(now), n) - c.SlotMs()
  {
    var e, s, p := c.Epoch(now), c.Slot(now), c.slotsPerEpoch;
    var w := e * p + (p - n);
    assert s == e * p + c.SlotOfEpoch(now);
    NextStart(c, w - 1);
    SlotIffInside(c, now, s);
    if s < w - 1 {
      StartMonotone(c, s + 1, w - 1);
    } else if s > w - 1 {
      StartMonotone(c, w, s);
    }
  }

  lemma AlignedFinalHeartbeat(c: SlotClock, now: nat, n: nat)
    requires c.Valid() && now >= c.GenesisMs() && n < c.slotsPerEpoch && c.Aligned()
    ensures c.LastL2SlotBefore(now, n) <==> FinalHeartbeat(c, now, n)
  {
    var h, d := c.heartbeatMs, c.SlotMs();
    SlotBeforeWindow(c, now, n);
    assert d == (d / h) * h;
    assert h <= d by { MulMonotone(1, d / h, h); }
    if c.SlotOfEpoch(now) == c.slotsPerEpoch - n - 1 {
      var off := now - c.StartAt(c.Slot(now));
      OffsetInSlot(c, now);
      assert (d / h - 1) * h == d - h;
      if off >= d - h {
        DivUnique(off, h, d / h - 1);
      } else {
        DivBounds(off, h);
        if off / h >= d / h - 1 {
          MulMonotone(d / h - 1, off / h, h);
        }
      }
    }
  }

  // Just before the window start of a late enough epoch, a misaligned heartbeat counts one L2 slot too many.
  lemma MisalignedMissesWindow(c: SlotClock, n: nat)
    requires c.Valid() && n < c.slotsPerEpoch && !c.Aligned()
    ensures exists now: nat :: now >= c.GenesisMs() && FinalHeartbeat(c, now, n) && !c.LastL2SlotBefore(now, n)
  {
    var p, h, d := c.slotsPerEpoch, c.heartbeatMs, c.SlotMs();
    var e := c.genesisSlot + 1;
    var w := e * p + (p - n);
    assert e * p >= e by { MulMonotone(1, p, e); }
    MulMonotone(0, w - 1 - c.genesisSlot, d);
    var now := c.StartAt(w) - 1;
    NextStart(c, w - 1);
    SlotIffInside(c, now, w - 1);
    DivUnique(w - 1, p, e);
    assert c.Epoch(now) == e;
    DivBounds(d, h);
    DivUnique(d - 1, h, d / h);
    assert c.L2SlotWithinL1(now) == d / h;
    assert FinalHeartbeat(c, now, n);
  }

  // The marker slot is the last heartbeat before the window at every reading exactly when aligned.
  lemma FinalHeartbeatIffAligned(c: SlotClock, n: nat)
    requires c.Valid() && n < c.slotsPerEpoch
    ensures (forall now: nat :: now >= c.GenesisMs() ==> (c.LastL2SlotBefore(now, n) <==> FinalHeartbeat(c, now, n)))
            <==> c.Aligned()
  {
    if c.Aligned() {
      forall now: nat | now >= c.GenesisMs() ensures c.LastL2SlotBefore(now, n) <==> FinalHeartbeat(c, now, n) {
        AlignedFinalHeartbeat(c, now, n);
      }
    } else {
      MisalignedMissesWindow(c, n);
    }
  }
}
