/** Reported roles against the whitelist's schedule, for one node and for two side by side. */
module OperatorSchedule {
  import opened Wrappers
  import opened Arithmetic
  import opened SlotClocks
  import opened OperatorsCaches
  import opened Operators
  import opened OperatorRuns

  // The operator of each epoch, as the whitelist contract would name it.
  type Schedule = nat -> Address

  // The view holds the operators of its label's epoch and the next, and its label is not in the future.
  ghost predicate Scheduled(cfg: Config, sched: Schedule, view: CacheState, now: nat)
    requires cfg.Valid()
  {
    && cfg.clock.genesisSec <= view.timestamp && view.timestamp * 1000 <= now
    && view.current == sched(StampEpoch(cfg.clock, view.timestamp))
    && view.next == sched(StampEpoch(cfg.clock, view.timestamp) + 1)
  }

  // Every view that a call gets is scheduled; nothing is said about which one it gets.
  ghost predicate Follows(cfg: Config, sched: Schedule, ticks: seq<Observation>)
    requires cfg.Valid()
  {
    forall i :: 0 <= i < |ticks| && Asks(cfg, ticks[i].now) && ticks[i].view.Some? ==>
                  Scheduled(cfg, sched, ticks[i].view.value, ticks[i].now)
  }

  // The last view that was not stale when the role machine got it.
  function LastAccepted(cfg: Config, ticks: seq<Observation>): Option<CacheState>
    requires cfg.Valid()
  {
    if ticks == [] then None
    else
      var o := ticks[|ticks| - 1];
      if Accepts(cfg, o) then o.view else LastAccepted(cfg, ticks[..|ticks| - 1])
  }

  // The flags say what the last accepted view says, unless an ejection silences them.
  ghost predicate Remembers(cfg: Config, sched: Schedule, s: RoleState, accepted: Option<CacheState>)
    requires cfg.Valid()
  {
    match accepted
    case None => !s.nextOperator && !s.continuingRole && s.lastEjection.None?
    case Some(v) =>
      && cfg.clock.genesisSec <= v.timestamp
      && var e := StampEpoch(cfg.clock, v.timestamp);
      && s.nextOperator == (s.lastEjection.None? && sched(e + 1) == cfg.me)
      && s.continuingRole == (s.lastEjection.None? && sched(e) == cfg.me && sched(e + 1) == cfg.me)
  }

  lemma RememberStep(cfg: Config, sched: Schedule, s: RoleState, accepted: Option<CacheState>, o: Observation)
    requires cfg.Valid() && Remembers(cfg, sched, s, accepted)
    requires Asks(cfg, o.now) && o.view.Some? ==> Scheduled(cfg, sched, o.view.value, o.now)
    ensures Remembers(cfg, sched, StatusStep(cfg, s, o).0, if Accepts(cfg, o) then o.view else accepted)
  {
    if Asks(cfg, o.now) && o.view.Some? {
      StatusKeepsFlags(cfg, s, o);
    }
  }

  lemma {:induction false} RunRemembers(cfg: Config, sched: Schedule, ticks: seq<Observation>)
    requires cfg.Valid() && Follows(cfg, sched, ticks)
    ensures Remembers(cfg, sched, RoleAfter(cfg, ticks), LastAccepted(cfg, ticks))
  {
    if ticks != [] {
      var n := |ticks| - 1;
      RunRemembers(cfg, sched, ticks[..n]);
      RememberStep(cfg, sched, RoleAfter(cfg, ticks[..n]), LastAccepted(cfg, ticks[..n]), ticks[n]);
    }
  }

  // An accepted view is of the current epoch.
  lemma AcceptedIsCurrent(cfg: Config, sched: Schedule, o: Observation)
    requires cfg.Valid() && Accepts(cfg, o) && Scheduled(cfg, sched, o.view.value, o.now)
    ensures StampEpoch(cfg.clock, o.view.value.timestamp) == cfg.clock.Epoch(o.now)
  {
    AcceptedIffEpoch(cfg.clock, o.view.value.timestamp, cfg.clock.Epoch(o.now));
    EpochMonotone(cfg.clock, o.view.value.timestamp * 1000, o.now);
  }

  // ---------- exactly which epoch a node acts for ----------

  // The epoch after the one of this view.
  function NextEpoch(cfg: Config, view: Option<CacheState>): Option<nat>
    requires cfg.Valid()
  {
    if view.None? || view.value.timestamp < cfg.clock.genesisSec then None
    else Some(StampEpoch(cfg.clock, view.value.timestamp) + 1)
  }

  /**
   The epoch whose operator the node takes itself for in call i: the current one on an accepted view;
   on a stale one the epoch after the last accepted view, whatever the stale view says; else none.
   */
  function Acting(cfg: Config, ticks: seq<Observation>, i: nat): Option<nat>
    requires cfg.Valid() && i < |ticks| && Asks(cfg, ticks[i].now)
  {
    if Accepts(cfg, ticks[i]) then Some(cfg.clock.Epoch(ticks[i].now)) else NextEpoch(cfg, LastAccepted(cfg, ticks[..i]))
  }

  // For preconfirming, inside the handover window: the epoch after the last accepted view, this one included.
  function Preconfirming(cfg: Config, ticks: seq<Observation>, i: nat): Option<nat>
    requires cfg.Valid() && i < |ticks| && Asks(cfg, ticks[i].now)
  {
    if IsHandoverWindow(cfg, ticks[i].now) then NextEpoch(cfg, LastAccepted(cfg, ticks[..i + 1])) else Acting(cfg, ticks, i)
  }

  ghost predicate Names(sched: Schedule, e: Option<nat>, me: Address) {
    e.Some? && sched(e.value) == me
  }

  predicate Ejected(cfg: Config, ticks: seq<Observation>, i: nat)
    requires cfg.Valid() && i < |ticks|
  {
    Record(cfg, ticks[..i + 1]).Some?
  }

  // The window opened at most the buffer ago, and the tip is not the previous preconfer's last block.
  predicate InBuffer(cfg: Config, o: Observation)
    requires cfg.Valid() && Asks(cfg, o.now) && o.driver.Some?
  {
    var start := cfg.clock.StartAt((cfg.clock.Epoch(o.now) + 1) * cfg.clock.slotsPerEpoch - cfg.handoverSlots);
    o.now <= start + cfg.bufferMs && o.slot.parentHash != o.driver.value.endOfSequencingHash
  }

  // Waiting for the previous preconfer at the start of the window, unless this node has been it all along.
  ghost predicate HoldsBack(cfg: Config, ticks: seq<Observation>, i: nat)
    requires cfg.Valid() && i < |ticks| && Asks(cfg, ticks[i].now) && ticks[i].driver.Some?
  {
    IsHandoverWindow(cfg, ticks[i].now) && !SyncedStretch(cfg, ticks, i) && InBuffer(cfg, ticks[i])
  }

  lemma BufferIff(cfg: Config, o: Observation)
    requires cfg.Valid() && Asks(cfg, o.now) && o.driver.Some?
    ensures IsHandoverBuffer(cfg, o.now, o.slot, o.driver.value) <==> InBuffer(cfg, o)
  {
    var e, p := cfg.clock.Epoch(o.now), cfg.clock.slotsPerEpoch;
    assert (e + 1) * p - cfg.handoverSlots == e * p + (p - cfg.handoverSlots);
  }

  // The slot lies in the seconds before the next fork, the fork's own second included.
  predicate NearFork(cfg: Config, o: Observation) {
    cfg.nextForkSec.Some? && 0 <= cfg.nextForkSec.value - o.slot.slotSec <= cfg.transitionSec
  }

  // What a call makes of its view, in terms of the schedule.
  lemma CallActs(cfg: Config, sched: Schedule, ticks: seq<Observation>, i: nat)
    requires cfg.Valid() && Follows(cfg, sched, ticks) && i < |ticks| && Reply(cfg, ticks, i).Some?
    ensures Asks(cfg, ticks[i].now)
    ensures var o, s := ticks[i], RoleAfter(cfg, ticks[..i]);
            var (t, current) := RoleAfterView(cfg, s, o.now, cfg.clock.EpochBeginSec(cfg.clock.Epoch(o.now)).value, o.view.value);
            && t.lastEjection == Record(cfg, ticks[..i + 1])
            && t.nextOperator == RoleAfter(cfg, ticks[..i + 1]).nextOperator
            && (t.lastEjection.None? ==> (current <==> Names(sched, Acting(cfg, ticks, i), cfg.me)))
  {
    ReplyIsStatus(cfg, ticks, i);
    StatusKeepsFlags(cfg, RoleAfter(cfg, ticks[..i]), ticks[i]);
    assert forall j :: 0 <= j < i ==> ticks[..i][j] == ticks[j];
    RunRemembers(cfg, sched, ticks[..i]);
    if Accepts(cfg, ticks[i]) {
      AcceptedIsCurrent(cfg, sched, ticks[i]);
    }
  }

  /** A reply says submitter exactly for the operator of the epoch the node acts for. */
  lemma SubmitterIff(cfg: Config, sched: Schedule, ticks: seq<Observation>, i: nat)
    requires cfg.Valid() && Follows(cfg, sched, ticks) && i < |ticks| && Reply(cfg, ticks, i).Some?
    ensures Asks(cfg, ticks[i].now)
    ensures Reply(cfg, ticks, i).value.submitter <==>
            && !Ejected(cfg, ticks, i) && Names(sched, Acting(cfg, ticks, i), cfg.me)
            && !(IsHandoverWindow(cfg, ticks[i].now) && cfg.simulateNotSubmitting)
  {
    CallActs(cfg, sched, ticks, i);
    if Ejected(cfg, ticks, i) {
      EjectedHasNoRole(cfg, ticks, i);
    }
  }

  lemma NextFlagIff(cfg: Config, sched: Schedule, ticks: seq<Observation>, i: nat)
    requires cfg.Valid() && Follows(cfg, sched, ticks) && i < |ticks| && !Ejected(cfg, ticks, i)
    ensures RoleAfter(cfg, ticks[..i + 1]).nextOperator <==>
            Names(sched, NextEpoch(cfg, LastAccepted(cfg, ticks[..i + 1])), cfg.me)
  {
    assert forall j :: 0 <= j <= i ==> ticks[..i + 1][j] == ticks[j];
    RunRemembers(cfg, sched, ticks[..i + 1]);
  }

  /** The same for preconfer. */
  lemma PreconferIff(cfg: Config, sched: Schedule, ticks: seq<Observation>, i: nat)
    requires cfg.Valid() && Follows(cfg, sched, ticks) && i < |ticks| && Reply(cfg, ticks, i).Some?
    ensures Asks(cfg, ticks[i].now) && ticks[i].driver.Some?
    ensures Reply(cfg, ticks, i).value.preconfer <==>
            && !Ejected(cfg, ticks, i) && Names(sched, Preconfirming(cfg, ticks, i), cfg.me)
            && !NearFork(cfg, ticks[i]) && !HoldsBack(cfg, ticks, i)
  {
    ReplyIsStatus(cfg, ticks, i);
    FlagIffStretch(cfg, ticks, i);
    BufferIff(cfg, ticks[i]);
    CallActs(cfg, sched, ticks, i);
    if Ejected(cfg, ticks, i) {
      EjectedHasNoRole(cfg, ticks, i);
    } else {
      NextFlagIff(cfg, sched, ticks, i);
    }
  }

  // ---------- roles against the schedule ----------

  ghost predicate MaySubmit(cfg: Config, sched: Schedule, now: nat)
    requires cfg.Valid() && now >= cfg.clock.GenesisMs()
  {
    sched(cfg.clock.Epoch(now)) == cfg.me
  }

  ghost predicate MayPreconfirm(cfg: Config, sched: Schedule, now: nat)
    requires cfg.Valid() && now >= cfg.clock.GenesisMs()
  {
    sched(cfg.clock.Epoch(now) + (if IsHandoverWindow(cfg, now) then 1 else 0)) == cfg.me
  }

  // The view of call i is accepted, or the last accepted one is of the previous epoch, or there is none yet.
  predicate InStep(cfg: Config, ticks: seq<Observation>, i: nat)
    requires cfg.Valid() && i < |ticks| && Asks(cfg, ticks[i].now)
  {
    || Accepts(cfg, ticks[i]) || LastAccepted(cfg, ticks[..i]).None?
    || NextEpoch(cfg, LastAccepted(cfg, ticks[..i])) == Some(cfg.clock.Epoch(ticks[i].now))
  }

  // Inside the window the previous epoch's view does not do.
  predicate InStepForWindow(cfg: Config, ticks: seq<Observation>, i: nat)
    requires cfg.Valid() && i < |ticks| && Asks(cfg, ticks[i].now)
  {
    Accepts(cfg, ticks[i]) || LastAccepted(cfg, ticks[..i]).None?
  }

  lemma AcceptedNext(cfg: Config, sched: Schedule, ticks: seq<Observation>, i: nat)
    requires cfg.Valid() && Follows(cfg, sched, ticks) && i < |ticks| && Asks(cfg, ticks[i].now)
    ensures Accepts(cfg, ticks[i]) ==>
              NextEpoch(cfg, LastAccepted(cfg, ticks[..i + 1])) == Some(cfg.clock.Epoch(ticks[i].now) + 1)
    ensures !Accepts(cfg, ticks[i]) ==> LastAccepted(cfg, ticks[..i + 1]) == LastAccepted(cfg, ticks[..i])
  {
    assert ticks[..i + 1][..i] == ticks[..i];
    if Accepts(cfg, ticks[i]) {
      AcceptedIsCurrent(cfg, sched, ticks[i]);
    }
  }

  /**
   A node that is in step reports no role that the schedule does not grant it, and on an accepted view
   without an ejection exactly those it does.
   */
  lemma RolesFollowSchedule(cfg: Config, sched: Schedule, ticks: seq<Observation>, i: nat)
    requires cfg.Valid() && Follows(cfg, sched, ticks) && i < |ticks| && Reply(cfg, ticks, i).Some?
    ensures Asks(cfg, ticks[i].now) && ticks[i].driver.Some?
    ensures var status, window := Reply(cfg, ticks, i).value, IsHandoverWindow(cfg, ticks[i].now);
            && (InStep(cfg, ticks, i) && status.submitter ==> MaySubmit(cfg, sched, ticks[i].now))
            && ((if window then InStepForWindow(cfg, ticks, i) else InStep(cfg, ticks, i)) && status.preconfer ==>
                  MayPreconfirm(cfg, sched, ticks[i].now))
            && (Accepts(cfg, ticks[i]) && !Ejected(cfg, ticks, i) ==>
                  && (status.submitter <==>
                      MaySubmit(cfg, sched, ticks[i].now) && !(window && cfg.simulateNotSubmitting))
                  && (status.preconfer <==>
                      MayPreconfirm(cfg, sched, ticks[i].now)
                      && !NearFork(cfg, ticks[i]) && !HoldsBack(cfg, ticks, i)))
  {
    SubmitterIff(cfg, sched, ticks, i);
    PreconferIff(cfg, sched, ticks, i);
    AcceptedNext(cfg, sched, ticks, i);
  }

  // Nodes that share a clock and a handover window see the same epoch and window in the same L1 slot.
  lemma SameSlotSameWindow(a: Config, b: Config, now: nat, later: nat)
    requires a.Valid() && b.Valid() && a.clock == b.clock && a.handoverSlots == b.handoverSlots
    requires now >= a.clock.GenesisMs() && later >= a.clock.GenesisMs()
    requires a.clock.Slot(now) == a.clock.Slot(later)
    ensures a.clock.Epoch(now) == b.clock.Epoch(later) && IsHandoverWindow(a, now) == IsHandoverWindow(b, later)
  {
  }

  // Two nodes with their own runs, replying in the same L1 slot.
  ghost predicate SideBySide(a: Config, b: Config, sched: Schedule,
                             ta: seq<Observation>, i: nat, tb: seq<Observation>, j: nat)
  {
    && a.Valid() && b.Valid() && a.clock == b.clock && a.handoverSlots == b.handoverSlots
    && i < |ta| && j < |tb| && Follows(a, sched, ta) && Follows(b, sched, tb)
    && Reply(a, ta, i).Some? && Reply(b, tb, j).Some?
    && Asks(a, ta[i].now) && Asks(b, tb[j].now)
    && a.clock.Slot(ta[i].now) == a.clock.Slot(tb[j].now)
  }

  /**
   Two nodes with different addresses that are in step are never both submitter, nor both preconfer;
   inside the window a preconfer needs a view of this epoch (or none so far) for that.
   */
  lemma NeverTwoInOneRole(a: Config, b: Config, sched: Schedule,
                          ta: seq<Observation>, i: nat, tb: seq<Observation>, j: nat)
    requires SideBySide(a, b, sched, ta, i, tb, j) && a.me != b.me
    requires InStep(a, ta, i) && InStep(b, tb, j)
    ensures !(Reply(a, ta, i).value.submitter && Reply(b, tb, j).value.submitter)
    ensures !IsHandoverWindow(a, ta[i].now) || (InStepForWindow(a, ta, i) && InStepForWindow(b, tb, j)) ==>
              !(Reply(a, ta, i).value.preconfer && Reply(b, tb, j).value.preconfer)
  {
    RolesFollowSchedule(a, sched, ta, i);
    RolesFollowSchedule(b, sched, tb, j);
    SameSlotSameWindow(a, b, ta[i].now, tb[j].now);
  }

  /** On any views: exactly when both submit. */
  lemma TwoSubmittersIff(a: Config, b: Config, sched: Schedule,
                         ta: seq<Observation>, i: nat, tb: seq<Observation>, j: nat)
    requires SideBySide(a, b, sched, ta, i, tb, j)
    ensures Reply(a, ta, i).value.submitter && Reply(b, tb, j).value.submitter <==>
            && !Ejected(a, ta, i) && !Ejected(b, tb, j)
            && Names(sched, Acting(a, ta, i), a.me) && Names(sched, Acting(b, tb, j), b.me)
            && !(IsHandoverWindow(a, ta[i].now) && (a.simulateNotSubmitting || b.simulateNotSubmitting))
  {
    SubmitterIff(a, sched, ta, i);
    SubmitterIff(b, sched, tb, j);
    SameSlotSameWindow(a, b, ta[i].now, tb[j].now);
  }

  /** On any views: exactly when both preconfirm. */
  lemma TwoPreconfersIff(a: Config, b: Config, sched: Schedule,
                         ta: seq<Observation>, i: nat, tb: seq<Observation>, j: nat)
    requires SideBySide(a, b, sched, ta, i, tb, j)
    ensures ta[i].driver.Some? && tb[j].driver.Some?
    ensures Reply(a, ta, i).value.preconfer && Reply(b, tb, j).value.preconfer <==>
            && !Ejected(a, ta, i) && !Ejected(b, tb, j)
            && Names(sched, Preconfirming(a, ta, i), a.me) && Names(sched, Preconfirming(b, tb, j), b.me)
            && !NearFork(a, ta[i]) && !NearFork(b, tb[j])
            && !HoldsBack(a, ta, i) && !HoldsBack(b, tb, j)
  {
    PreconferIff(a, sched, ta, i);
    PreconferIff(b, sched, tb, j);
  }

  /**
   On an accepted view without an ejection, the end-of-sequencing marker is reported in the final
   heartbeat exactly by the operator of this epoch that is not also the operator of the next.
   */
  lemma MarkerIffHandingOver(cfg: Config, sched: Schedule, ticks: seq<Observation>, i: nat)
    requires cfg.Valid() && cfg.clock.Aligned() && Follows(cfg, sched, ticks) && i < |ticks|
    requires Reply(cfg, ticks, i).Some? && Accepts(cfg, ticks[i]) && !Ejected(cfg, ticks, i)
    ensures Reply(cfg, ticks, i).value.endOfSequencing <==>
            && FinalHeartbeat(cfg.clock, ticks[i].now, cfg.handoverSlots)
            && !NearFork(cfg, ticks[i])
            && sched(cfg.clock.Epoch(ticks[i].now)) == cfg.me
            && sched(cfg.clock.Epoch(ticks[i].now) + 1) != cfg.me
  {
    AlignedFinalHeartbeat(cfg.clock, ticks[i].now, cfg.handoverSlots);
    WindowIffInLastSlots(cfg.clock, ticks[i].now, cfg.handoverSlots);
    RolesFollowSchedule(cfg, sched, ticks, i);
    ContinuingIff(cfg, sched, ticks, i);
    ReplyIsStatus(cfg, ticks, i);
    MarkerParts(cfg, RoleAfter(cfg, ticks[..i]), ticks[i]);
  }

  lemma ContinuingIff(cfg: Config, sched: Schedule, ticks: seq<Observation>, i: nat)
    requires cfg.Valid() && Follows(cfg, sched, ticks) && i < |ticks| && Accepts(cfg, ticks[i]) && !Ejected(cfg, ticks, i)
    ensures var e := cfg.clock.Epoch(ticks[i].now);
            RoleAfter(cfg, ticks[..i + 1]).continuingRole <==> sched(e) == cfg.me && sched(e + 1) == cfg.me
  {
    assert forall j :: 0 <= j <= i ==> ticks[..i + 1][j] == ticks[j];
    RunRemembers(cfg, sched, ticks[..i + 1]);
    AcceptedIsCurrent(cfg, sched, ticks[i]);
  }
}
