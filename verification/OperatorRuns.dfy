/**
 Whole runs of the role machine. A run is the sequence of its `get_status` calls, failed ones
 included, each with what it observed; the whitelist view is whatever the shared cache answered.
 */
module OperatorRuns {
  import opened Wrappers
  import opened Arithmetic
  import opened SlotClocks
  import opened OperatorsCaches
  import opened Operators

  // The call gets as far as asking for the operators.
  predicate Asks(cfg: Config, now: nat)
    requires cfg.Valid()
  {
    now >= cfg.clock.GenesisMs() && cfg.clock.EpochBeginSec(cfg.clock.Epoch(now)).Some?
  }

  // The call gets a view that is not older than the epoch.
  predicate Accepts(cfg: Config, o: Observation)
    requires cfg.Valid()
  {
    && Asks(cfg, o.now) && o.view.Some?
    && o.view.value.timestamp >= cfg.clock.EpochBeginSec(cfg.clock.Epoch(o.now)).value
  }

  function RoleAfter(cfg: Config, ticks: seq<Observation>): RoleState
    requires cfg.Valid()
  {
    if ticks == [] then INITIAL
    else StatusStep(cfg, RoleAfter(cfg, ticks[..|ticks| - 1]), ticks[|ticks| - 1]).0
  }

  // The reply to call i of the run.
  function Reply(cfg: Config, ticks: seq<Observation>, i: nat): Option<Status>
    requires cfg.Valid() && i < |ticks|
  {
    StatusStep(cfg, RoleAfter(cfg, ticks[..i]), ticks[i]).1
  }

  // States and replies of a run, one call at a time.
  lemma ReplyIsStatus(cfg: Config, ticks: seq<Observation>, i: nat)
    requires cfg.Valid() && i < |ticks|
    ensures StatusStep(cfg, RoleAfter(cfg, ticks[..i]), ticks[i]) == (RoleAfter(cfg, ticks[..i + 1]), Reply(cfg, ticks, i))
    ensures Reply(cfg, ticks, i).Some? <==>
            Asks(cfg, ticks[i].now) && ticks[i].view.Some? && ticks[i].driver.Some? && ticks[i].inboxHeight.Some?
  {
    assert ticks[..i + 1][..i] == ticks[..i];
  }

  // The rest of a status call leaves what the view decided alone.
  lemma StatusKeepsFlags(cfg: Config, s: RoleState, o: Observation)
    requires cfg.Valid() && Asks(cfg, o.now) && o.view.Some?
    ensures var epochSec := cfg.clock.EpochBeginSec(cfg.clock.Epoch(o.now)).value;
            var t, u := RoleAfterView(cfg, s, o.now, epochSec, o.view.value).0, StatusStep(cfg, s, o).0;
            && u.nextOperator == t.nextOperator
            && u.continuingRole == t.continuingRole
            && u.lastEjection == t.lastEjection
  {
  }

  // ---------- ejection ----------

  ghost predicate Sidelined(s: RoleState) {
    s.lastEjection.Some? ==> !s.nextOperator && !s.continuingRole
  }

  lemma EjectionStep(cfg: Config, s: RoleState, o: Observation)
    requires cfg.Valid() && Sidelined(s)
    ensures var (t, reply) := StatusStep(cfg, s, o);
            && Sidelined(t)
            && (t.lastEjection.Some? && reply.Some? ==> !reply.value.preconfer && !reply.value.submitter)
  {
  }

  lemma {:induction false} RunSidelined(cfg: Config, ticks: seq<Observation>)
    requires cfg.Valid()
    ensures Sidelined(RoleAfter(cfg, ticks))
  {
    if ticks != [] {
      RunSidelined(cfg, ticks[..|ticks| - 1]);
      EjectionStep(cfg, RoleAfter(cfg, ticks[..|ticks| - 1]), ticks[|ticks| - 1]);
    }
  }

  function Record(cfg: Config, ticks: seq<Observation>): Option<int>
    requires cfg.Valid()
  {
    RoleAfter(cfg, ticks).lastEjection
  }

  // After every call, with a fresh or a stale view, a recorded ejection leaves the node without any role.
  lemma EjectedHasNoRole(cfg: Config, ticks: seq<Observation>, i: nat)
    requires cfg.Valid() && i < |ticks| && Record(cfg, ticks[..i + 1]).Some?
    ensures !RoleAfter(cfg, ticks[..i + 1]).nextOperator && !RoleAfter(cfg, ticks[..i + 1]).continuingRole
    ensures Reply(cfg, ticks, i).Some? ==>
              var status := Reply(cfg, ticks, i).value;
              !status.preconfer && !status.submitter && !status.started && !status.endOfSequencing
  {
    ReplyIsStatus(cfg, ticks, i);
    RunSidelined(cfg, ticks[..i]);
    EjectionStep(cfg, RoleAfter(cfg, ticks[..i]), ticks[i]);
  }

  // The node becomes operator after somebody else while it was not preconfirming.
  predicate Ejects(cfg: Config, s: RoleState, view: CacheState) {
    && view.current == cfg.me && s.operatorAddress !in {cfg.me, ZERO_ADDRESS} && !s.wasSyncedPreconfer
  }

  // The call leaves the record x: no accepted view, or one within the grace that brings no newer ejection.
  predicate Spares(cfg: Config, s: RoleState, o: Observation, x: int)
    requires cfg.Valid()
  {
    Accepts(cfg, o) ==>
      && cfg.clock.L2SlotBeginSec(o.now) <= x + cfg.graceSec
      && (Ejects(cfg, s, o.view.value) ==> cfg.clock.SlotBeginSec(o.now) == x)
  }

  lemma SparedIffKept(cfg: Config, s: RoleState, o: Observation, x: int)
    requires cfg.Valid() && s.lastEjection == Some(x)
    ensures StatusStep(cfg, s, o).0.lastEjection == Some(x) <==> Spares(cfg, s, o, x)
  {
    if Asks(cfg, o.now) && o.view.Some? {
      StatusKeepsFlags(cfg, s, o);
    }
  }

  lemma RecordStep(cfg: Config, ticks: seq<Observation>, k: nat, x: int)
    requires cfg.Valid() && k < |ticks|
    ensures Record(cfg, ticks[..k]) == Some(x) ==>
              (Record(cfg, ticks[..k + 1]) == Some(x) <==> Spares(cfg, RoleAfter(cfg, ticks[..k]), ticks[k], x))
  {
    ReplyIsStatus(cfg, ticks, k);
    if Record(cfg, ticks[..k]) == Some(x) {
      SparedIffKept(cfg, RoleAfter(cfg, ticks[..k]), ticks[k], x);
    }
  }

  /**
   A record lasts from one point of a run to another exactly when every accepted view in between came
   within the grace and none brought a newer ejection; stale views and failed calls never end it.
   */
  lemma {:induction false} RecordLastsIff(cfg: Config, ticks: seq<Observation>, i: nat, j: nat, x: int)
    requires cfg.Valid() && i <= j <= |ticks| && Record(cfg, ticks[..i]) == Some(x)
    ensures (forall m :: i <= m <= j ==> Record(cfg, ticks[..m]) == Some(x)) <==>
            (forall k :: i <= k < j ==> Spares(cfg, RoleAfter(cfg, ticks[..k]), ticks[k], x))
    decreases j
  {
    if i < j {
      RecordLastsIff(cfg, ticks, i, j - 1, x);
      RecordStep(cfg, ticks, j - 1, x);
    }
  }

  // A record is made exactly by an accepted view that ejects, within its own grace.
  lemma RecordMadeIff(cfg: Config, s: RoleState, o: Observation)
    requires cfg.Valid() && s.lastEjection.None?
    ensures StatusStep(cfg, s, o).0.lastEjection ==
            if Accepts(cfg, o) && Ejects(cfg, s, o.view.value)
               && cfg.clock.L2SlotBeginSec(o.now) <= cfg.clock.SlotBeginSec(o.now) + cfg.graceSec
            then Some(cfg.clock.SlotBeginSec(o.now)) else None
  {
    if Asks(cfg, o.now) && o.view.Some? {
      StatusKeepsFlags(cfg, s, o);
    }
  }

  // ---------- epochs of views ----------

  lemma SlotMonotone(c: SlotClock, a: nat, b: nat)
    requires c.Valid() && c.GenesisMs() <= a <= b
    ensures c.Slot(a) <= c.Slot(b)
  {
    CurrentSlotContains(c, a);
    CurrentSlotContains(c, b);
    if c.Slot(b) < c.Slot(a) {
      NextStart(c, c.Slot(b));
      StartMonotone(c, c.Slot(b) + 1, c.Slot(a));
    }
  }

  lemma EpochMonotone(c: SlotClock, a: nat, b: nat)
    requires c.Valid() && c.GenesisMs() <= a <= b
    ensures c.Epoch(a) <= c.Epoch(b)
  {
    SlotMonotone(c, a, b);
    var p := c.slotsPerEpoch;
    DivBounds(c.Slot(a), p);
    DivBounds(c.Slot(b), p);
    if c.Epoch(b) < c.Epoch(a) {
      MulStrict(c.Epoch(b), c.Epoch(a), p);
    }
  }

  function StampEpoch(c: SlotClock, stamp: int): nat
    requires c.Valid() && stamp >= c.genesisSec
  {
    c.Epoch(stamp * 1000)
  }

  lemma StampOfNow(c: SlotClock, now: nat)
    requires c.Valid() && now >= c.GenesisMs()
    ensures c.genesisSec <= c.SlotBeginSec(now) && c.SlotBeginSec(now) * 1000 <= now
    ensures StampEpoch(c, c.SlotBeginSec(now)) == c.Epoch(now)
  {
    CurrentSlotContains(c, now);
    SecondsOfStart(c, c.Slot(now));
    MulMonotone(0, c.Slot(now) - c.genesisSlot, c.slotSec);
    StartIsInItsSlot(c, c.Slot(now));
  }

  // A timestamp passes the source's epoch test exactly when it was taken in that epoch or later.
  lemma AcceptedIffEpoch(c: SlotClock, stamp: int, e: nat)
    requires c.Valid() && stamp >= c.genesisSec && c.EpochBeginSec(e).Some?
    ensures c.EpochBeginSec(e).value <= stamp <==> e <= StampEpoch(c, stamp)
  {
    var p, at := c.slotsPerEpoch, stamp * 1000;
    SecondsOfStart(c, e * p);
    CurrentSlotContains(c, at);
    DivBounds(c.Slot(at), p);
    if e <= StampEpoch(c, stamp) {
      MulMonotone(e, StampEpoch(c, stamp), p);
      StartMonotone(c, e * p, c.Slot(at));
    } else {
      MulStrict(StampEpoch(c, stamp), e, p);
      NextStart(c, c.Slot(at));
      StartMonotone(c, c.Slot(at) + 1, e * p);
    }
  }

  // ---------- end of sequencing ----------

  lemma MarkerParts(cfg: Config, s: RoleState, o: Observation)
    requires cfg.Valid() && StatusStep(cfg, s, o).1.Some?
    ensures var (t, reply) := StatusStep(cfg, s, o);
            && o.now >= cfg.clock.GenesisMs()
            && (reply.value.endOfSequencing <==>
                && !t.continuingRole && reply.value.preconfer && reply.value.submitter
                && cfg.clock.LastL2SlotBefore(o.now, cfg.handoverSlots))
            && (reply.value.preconfer ==> !IsForkTransition(cfg, o.slot.slotSec))
  {
  }

  /**
   With a heartbeat that divides the L1 slot, the marker is reported only in the single
   heartbeat that ends where the handover window starts, hence never inside the window.
   */
  lemma MarkerOnlyInFinalHeartbeat(cfg: Config, ticks: seq<Observation>, i: nat)
    requires cfg.Valid() && cfg.clock.Aligned() && i < |ticks|
    requires Reply(cfg, ticks, i).Some? && Reply(cfg, ticks, i).value.endOfSequencing
    ensures FinalHeartbeat(cfg.clock, ticks[i].now, cfg.handoverSlots)
    ensures !IsHandoverWindow(cfg, ticks[i].now)
  {
    MarkerParts(cfg, RoleAfter(cfg, ticks[..i]), ticks[i]);
    AlignedFinalHeartbeat(cfg.clock, ticks[i].now, cfg.handoverSlots);
    WindowIffInLastSlots(cfg.clock, ticks[i].now, cfg.handoverSlots);
  }

  // ---------- sync, on the heights a call observes ----------

  // The call gets all its replies.
  predicate Answers(cfg: Config, o: Observation)
    requires cfg.Valid()
  {
    Asks(cfg, o.now) && o.view.Some? && o.driver.Some? && o.inboxHeight.Some?
  }

  // The L2 tip is below what the inbox has proposed, or is not the last block the driver preconfirmed.
  predicate Behind(o: Observation)
    requires o.driver.Some? && o.inboxHeight.Some?
  {
    var tip, unsafe := o.slot.parentId, o.driver.value.highestUnsafeBlock;
    tip < o.inboxHeight.value || tip < unsafe || 0 < unsafe < tip
  }

  // Whatever happened before, a reply says synced exactly when the tip has reached the inbox and the driver.
  lemma SyncedIff(cfg: Config, ticks: seq<Observation>, i: nat)
    requires cfg.Valid() && i < |ticks|
    ensures Reply(cfg, ticks, i).Some? <==> Answers(cfg, ticks[i])
    ensures Reply(cfg, ticks, i).Some? ==>
              var o := ticks[i];
              && (Reply(cfg, ticks, i).value.synced <==>
                    && o.slot.parentId >= o.inboxHeight.value
                    && (o.driver.value.highestUnsafeBlock == 0 || o.driver.value.highestUnsafeBlock == o.slot.parentId))
              && (Reply(cfg, ticks, i).value.synced <==> !Behind(o))
  {
    ReplyIsStatus(cfg, ticks, i);
  }

  // ---------- start of preconfirmation ----------

  ghost predicate PreconfersFrom(cfg: Config, ticks: seq<Observation>, j: int, i: int)
    requires cfg.Valid() && 0 <= j <= i <= |ticks|
  {
    forall k :: j <= k < i && Reply(cfg, ticks, k).Some? ==> Reply(cfg, ticks, k).value.preconfer
  }

  // Before call i the node has been preconfer without a break since a call at which it was not behind.
  ghost predicate SyncedStretch(cfg: Config, ticks: seq<Observation>, i: nat)
    requires cfg.Valid() && i <= |ticks|
  {
    exists j :: 0 <= j < i && Answers(cfg, ticks[j]) && !Behind(ticks[j]) && PreconfersFrom(cfg, ticks, j, i)
  }

  lemma StepKeepsStretch(cfg: Config, s: RoleState, o: Observation)
    requires cfg.Valid()
    ensures var (t, r) := StatusStep(cfg, s, o);
            && (r.None? ==> t.wasSyncedPreconfer == s.wasSyncedPreconfer)
            && (r.Some? ==> t.wasSyncedPreconfer == (r.value.preconfer && (s.wasSyncedPreconfer || r.value.synced)))
            && (r.Some? ==> r.value.started == (r.value.preconfer && r.value.synced && !s.wasSyncedPreconfer))
  {
  }

  function Flag(cfg: Config, ticks: seq<Observation>, i: nat): bool
    requires cfg.Valid() && i <= |ticks|
  {
    RoleAfter(cfg, ticks[..i]).wasSyncedPreconfer
  }

  // The flag is kept by failed calls, cleared by any other role and raised by sync.
  lemma FlagStep(cfg: Config, ticks: seq<Observation>, i: nat)
    requires cfg.Valid() && i < |ticks|
    ensures Flag(cfg, ticks, i + 1) ==
            if !Answers(cfg, ticks[i]) then Flag(cfg, ticks, i)
            else Reply(cfg, ticks, i).Some? && Reply(cfg, ticks, i).value.preconfer
                 && (Flag(cfg, ticks, i) || !Behind(ticks[i]))
  {
    ReplyIsStatus(cfg, ticks, i);
    StepKeepsStretch(cfg, RoleAfter(cfg, ticks[..i]), ticks[i]);
    SyncedIff(cfg, ticks, i);
  }

  // The remembered flag is the unbroken synced stretch.
  lemma {:induction false} FlagIffStretch(cfg: Config, ticks: seq<Observation>, i: nat)
    requires cfg.Valid() && i <= |ticks|
    ensures Flag(cfg, ticks, i) <==> SyncedStretch(cfg, ticks, i)
  {
    if i > 0 {
      var n := i - 1;
      FlagIffStretch(cfg, ticks, n);
      FlagStep(cfg, ticks, n);
      SyncedIff(cfg, ticks, n);
      StretchStep(cfg, ticks, n);
    }
  }

  lemma StretchStep(cfg: Config, ticks: seq<Observation>, n: nat)
    requires cfg.Valid() && n < |ticks| && (Reply(cfg, ticks, n).Some? <==> Answers(cfg, ticks[n]))
    ensures SyncedStretch(cfg, ticks, n + 1) <==>
            if !Answers(cfg, ticks[n]) then SyncedStretch(cfg, ticks, n)
            else Reply(cfg, ticks, n).value.preconfer && (SyncedStretch(cfg, ticks, n) || !Behind(ticks[n]))
  {
    if j :| 0 <= j < n && Answers(cfg, ticks[j]) && !Behind(ticks[j]) && PreconfersFrom(cfg, ticks, j, n) {
      assert (Reply(cfg, ticks, n).Some? ==> Reply(cfg, ticks, n).value.preconfer) ==> PreconfersFrom(cfg, ticks, j, n + 1);
    }
    if Answers(cfg, ticks[n]) && !Behind(ticks[n]) && Reply(cfg, ticks, n).value.preconfer {
      assert PreconfersFrom(cfg, ticks, n, n + 1);
    }
    if j :| 0 <= j <= n && Answers(cfg, ticks[j]) && !Behind(ticks[j]) && PreconfersFrom(cfg, ticks, j, n + 1) {
      assert PreconfersFrom(cfg, ticks, j, n);
    }
  }

  // The start is reported exactly at the first call of each unbroken stretch as preconfer that is not behind.
  lemma StartIffFirstSynced(cfg: Config, ticks: seq<Observation>, i: nat)
    requires cfg.Valid() && i < |ticks| && Answers(cfg, ticks[i])
    ensures Reply(cfg, ticks, i).Some?
    ensures var r := Reply(cfg, ticks, i).value;
            r.started <==> r.preconfer && !Behind(ticks[i]) && !SyncedStretch(cfg, ticks, i)
  {
    SyncedIff(cfg, ticks, i);
    FlagIffStretch(cfg, ticks, i);
    StepKeepsStretch(cfg, RoleAfter(cfg, ticks[..i]), ticks[i]);
  }

  // ---------- loss of sync ----------

  // The calls that got all their replies, in order.
  function Answered(cfg: Config, ticks: seq<Observation>): (calls: seq<Observation>)
    requires cfg.Valid()
    ensures forall k :: 0 <= k < |calls| ==> calls[k].driver.Some? && calls[k].inboxHeight.Some?
  {
    if ticks == [] then []
    else
      var o := ticks[|ticks| - 1];
      Answered(cfg, ticks[..|ticks| - 1]) + if Answers(cfg, o) then [o] else []
  }

  ghost predicate Unsynced(calls: seq<Observation>, a: int, b: int) {
    && 0 <= a <= b <= |calls|
    && forall k :: a <= k < b ==> calls[k].driver.Some? && calls[k].inboxHeight.Some? && Behind(calls[k])
  }

  lemma StepCountsUnsynced(cfg: Config, s: RoleState, o: Observation)
    requires cfg.Valid()
    requires s.cancelCounter > cfg.clock.L2SlotsPerEpoch() / 2 ==> s.cancelled
    ensures var (t, r) := StatusStep(cfg, s, o);
            && (r.None? ==> t.cancelCounter == s.cancelCounter && t.cancelled == s.cancelled)
            && (r.Some? ==>
                  && t.cancelCounter == (if r.value.synced then 0 else s.cancelCounter + 1)
                  && (t.cancelled <==> s.cancelled || t.cancelCounter > cfg.clock.L2SlotsPerEpoch() / 2))
  {
  }

  // Half the heartbeats of an epoch.
  function HalfEpoch(c: SlotClock): nat
    requires c.Valid()
  {
    c.slotsPerEpoch * (c.slotSec * 1000 / c.heartbeatMs) / 2
  }

  lemma CountStep(cfg: Config, ticks: seq<Observation>, n: nat)
    requires cfg.Valid() && n < |ticks|
    requires RoleAfter(cfg, ticks[..n]).cancelCounter > HalfEpoch(cfg.clock) ==> RoleAfter(cfg, ticks[..n]).cancelled
    ensures var s, t := RoleAfter(cfg, ticks[..n]), RoleAfter(cfg, ticks[..n + 1]);
            if Answers(cfg, ticks[n])
            then && t.cancelCounter == (if Behind(ticks[n]) then s.cancelCounter + 1 else 0)
                 && (t.cancelled <==> s.cancelled || t.cancelCounter > HalfEpoch(cfg.clock))
            else t.cancelCounter == s.cancelCounter && t.cancelled == s.cancelled
  {
    ReplyIsStatus(cfg, ticks, n);
    SyncedIff(cfg, ticks, n);
    StepCountsUnsynced(cfg, RoleAfter(cfg, ticks[..n]), ticks[n]);
  }

  // The operator cancels the node exactly once more than half an epoch of answered calls in a row was behind.
  lemma {:induction false} CancelledIffLongUnsynced(cfg: Config, ticks: seq<Observation>)
    requires cfg.Valid()
    ensures var v, role, limit := Answered(cfg, ticks), RoleAfter(cfg, ticks), HalfEpoch(cfg.clock);
            && role.cancelCounter <= |v|
            && Unsynced(v, |v| - role.cancelCounter, |v|)
            && (role.cancelCounter < |v| ==> !Behind(v[|v| - role.cancelCounter - 1]))
            && (role.cancelCounter > limit ==> role.cancelled)
            && (role.cancelled <==> exists a, b :: Unsynced(v, a, b) && b - a > limit)
  {
    if ticks != [] {
      var n := |ticks| - 1;
      CancelledIffLongUnsynced(cfg, ticks[..n]);
      assert ticks[..n + 1] == ticks;
      CountStep(cfg, ticks, n);
      var u, v := Answered(cfg, ticks[..n]), Answered(cfg, ticks);
      var was, role := RoleAfter(cfg, ticks[..n]), RoleAfter(cfg, ticks);
      if Answers(cfg, ticks[n]) {
        AnsweredGrow(u, v, was.cancelCounter, role.cancelCounter, HalfEpoch(cfg.clock));
      } else {
        assert v == u;
      }
    }
  }

  ghost predicate Known(calls: seq<Observation>) {
    forall k :: 0 <= k < |calls| ==> calls[k].driver.Some? && calls[k].inboxHeight.Some?
  }

  lemma AnsweredGrow(u: seq<Observation>, v: seq<Observation>, was: nat, count: nat, limit: nat)
    requires |v| == |u| + 1 && v[..|u|] == u && was <= |u| && Known(v) && Known(u) && Unsynced(u, |u| - was, |u|)
    requires was < |u| ==> !Behind(u[|u| - was - 1])
    requires count == if Behind(v[|u|]) then was + 1 else 0
    ensures Unsynced(v, |v| - count, |v|)
    ensures count < |v| ==> !Behind(v[|v| - count - 1])
    ensures (exists a, b :: Unsynced(v, a, b) && b - a > limit) <==>
            (exists a, b :: Unsynced(u, a, b) && b - a > limit) || count > limit
  {
    assert forall k :: 0 <= k < |u| ==> v[k] == u[k];
    assert Unsynced(v, |v| - count, |v|);
    if a, b :| Unsynced(u, a, b) && b - a > limit {
      assert Unsynced(v, a, b);
    }
    if a, b :| Unsynced(v, a, b) && b - a > limit {
      if b <= |u| {
        assert Unsynced(u, a, b);
      } else {
        UnsyncedTail(v, count, a);
      }
    }
  }

  // The count is the longest unsynced tail.
  lemma UnsyncedTail(v: seq<Observation>, count: nat, a: int)
    requires Known(v) && count <= |v| && Unsynced(v, a, |v|) && (count < |v| ==> !Behind(v[|v| - count - 1]))
    ensures |v| - a <= count
  {
  }
}
