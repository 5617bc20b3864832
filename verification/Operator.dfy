/** The operator role machine: one `get_status` call per heartbeat. */
module Operators {
  import opened Wrappers
  import opened SlotClocks
  import opened OperatorsCaches

  datatype Config = Config(
    clock: SlotClock,
    handoverSlots: nat,
    bufferMs: nat,
    simulateNotSubmitting: bool,
    graceSec: nat,
    me: Address,
    nextForkSec: Option<nat>,
    transitionSec: nat)
  {
    // What keeps the source's unsigned subtractions from panicking.
    predicate Valid() {
      && clock.Valid()
      && handoverSlots < clock.slotsPerEpoch
      && (nextForkSec.Some? ==> transitionSec <= nextForkSec.value)
    }
  }

  datatype DriverStatus = DriverStatus(endOfSequencingHash: nat, highestUnsafeBlock: nat)

  datatype SlotInfo = SlotInfo(parentId: nat, parentHash: nat, slotSec: nat)

  // What one call observes: a clock reading, the slot, and three replies that may be errors.
  datatype Observation = Observation(
    now: nat,
    slot: SlotInfo,
    view: Option<CacheState>,
    driver: Option<DriverStatus>,
    inboxHeight: Option<nat>)

  datatype Status = Status(preconfer: bool, submitter: bool, started: bool, endOfSequencing: bool, synced: bool)

  datatype RoleState = RoleState(
    nextOperator: bool,
    continuingRole: bool,
    wasSyncedPreconfer: bool,
    cancelCounter: nat,
    operatorAddress: Address,
    lastEjection: Option<int>,
    cancelled: bool)

  const INITIAL := RoleState(false, false, false, 0, ZERO_ADDRESS, None, false)

  // ---------- the pure parts of the source ----------

  predicate IsHandoverWindow(cfg: Config, now: nat)
    requires cfg.Valid() && now >= cfg.clock.GenesisMs()
  {
    cfg.clock.InLastSlots(cfg.clock.SlotOfEpoch(now), cfg.handoverSlots)
  }

  predicate IsForkTransition(cfg: Config, sec: nat)
    requires cfg.Valid()
  {
    cfg.nextForkSec.Some? && cfg.nextForkSec.value - cfg.transitionSec <= sec <= cfg.nextForkSec.value
  }

  // Still waiting for the previous preconfer: early in the window and its marker block not seen.
  predicate IsHandoverBuffer(cfg: Config, now: nat, slot: SlotInfo, driver: DriverStatus)
    requires cfg.Valid() && now >= cfg.clock.GenesisMs()
  {
    && now - cfg.clock.WindowStart(cfg.clock.Epoch(now), cfg.handoverSlots) <= cfg.bufferMs
    && slot.parentHash != driver.endOfSequencingHash
  }

  predicate IsSubmitter(cfg: Config, currentOperator: bool, window: bool) {
    currentOperator && !(window && cfg.simulateNotSubmitting)
  }

  predicate IsSynced(slot: SlotInfo, driver: DriverStatus, inboxHeight: nat) {
    slot.parentId >= inboxHeight && (driver.highestUnsafeBlock == 0 || slot.parentId == driver.highestUnsafeBlock)
  }

  // ---------- one call as a function of the old state ----------

  // The ejection on record once the view's operator has been compared with the remembered one.
  function EjectionRecord(cfg: Config, s: RoleState, slotSec: int, view: CacheState): Option<int> {
    if view.current != s.operatorAddress && view.current == cfg.me
       && s.operatorAddress != ZERO_ADDRESS && !s.wasSyncedPreconfer
    then Some(slotSec)
    else s.lastEjection
  }

  predicate InGrace(cfg: Config, record: Option<int>, l2SlotSec: int) {
    record.Some? && l2SlotSec <= record.value + cfg.graceSec
  }

  // A view labelled in the current epoch is accepted, an older one leaves the state alone.
  function AcceptView(cfg: Config, s: RoleState, now: nat, view: CacheState): RoleState
    requires cfg.Valid() && now >= cfg.clock.GenesisMs()
  {
    var record := EjectionRecord(cfg, s, cfg.clock.SlotBeginSec(now), view);
    var grace := InGrace(cfg, record, cfg.clock.L2SlotBeginSec(now));
    s.(operatorAddress := view.current,
       lastEjection := if grace then record else None,
       nextOperator := !grace && view.next == cfg.me,
       continuingRole := !grace && view.current == cfg.me && view.next == cfg.me)
  }

  function RoleAfterView(cfg: Config, s: RoleState, now: nat, epochSec: int, view: CacheState): (RoleState, bool)
    requires cfg.Valid() && now >= cfg.clock.GenesisMs()
  {
    if view.timestamp < epochSec then (s, s.nextOperator)
    else
      var t := AcceptView(cfg, s, now, view);
      (t, t.lastEjection.None? && view.current == cfg.me)
  }

  function RoleAfterSync(cfg: Config, s: RoleState, synced: bool): RoleState
    requires cfg.Valid()
  {
    if synced then s.(cancelCounter := 0)
    else s.(cancelCounter := s.cancelCounter + 1,
            cancelled := s.cancelled || s.cancelCounter + 1 > cfg.clock.L2SlotsPerEpoch() / 2)
  }

  predicate IsPreconfer(cfg: Config, s: RoleState, current: bool, now: nat, slot: SlotInfo, driver: DriverStatus)
    requires cfg.Valid() && now >= cfg.clock.GenesisMs()
  {
    && !IsForkTransition(cfg, slot.slotSec)
    && if IsHandoverWindow(cfg, now)
       then s.nextOperator && (s.wasSyncedPreconfer || !IsHandoverBuffer(cfg, now, slot, driver))
       else current
  }

  // The new state and the reply, `None` being an error reply (which may leave the view accepted).
  function StatusStep(cfg: Config, s: RoleState, o: Observation): (RoleState, Option<Status>)
    requires cfg.Valid()
  {
    if o.now < cfg.clock.GenesisMs() then (s, None)
    else
      var epochSec := cfg.clock.EpochBeginSec(cfg.clock.Epoch(o.now));
      if epochSec.None? || o.view.None? then (s, None)
      else
        var (s1, current) := RoleAfterView(cfg, s, o.now, epochSec.value, o.view.value);
        if o.driver.None? || o.inboxHeight.None? then (s1, None)
        else
          var synced := IsSynced(o.slot, o.driver.value, o.inboxHeight.value);
          var s2 := RoleAfterSync(cfg, s1, synced);
          var preconfer := IsPreconfer(cfg, s2, current, o.now, o.slot, o.driver.value);
          var started := !s2.wasSyncedPreconfer && preconfer && synced;
          var submitter := IsSubmitter(cfg, current, IsHandoverWindow(cfg, o.now));
          var eos := !s2.continuingRole && preconfer && submitter
                     && cfg.clock.LastL2SlotBefore(o.now, cfg.handoverSlots);
          (s2.(wasSyncedPreconfer := preconfer && (s2.wasSyncedPreconfer || synced)),
           Some(Status(preconfer, submitter, started, eos, synced)))
  }

  class Operator {
    const cfg: Config
    var nextOperator: bool
    var continuingRole: bool
    var wasSyncedPreconfer: bool
    var cancelCounter: nat
    var currentOperatorAddress: Address
    var lastEjectionTimestamp: Option<int>
    var cancelled: bool  // the shared cancellation token, as far as this object sets it

    function State(): RoleState
      reads this
    {
      RoleState(nextOperator, continuingRole, wasSyncedPreconfer, cancelCounter,
                currentOperatorAddress, lastEjectionTimestamp, cancelled)
    }

    constructor (cfg: Config)
      ensures this.cfg == cfg && State() == INITIAL
    {
      this.cfg := cfg;
      nextOperator, continuingRole, wasSyncedPreconfer := false, false, false;
      cancelCounter, currentOperatorAddress := 0, ZERO_ADDRESS;
      lastEjectionTimestamp, cancelled := None, false;
    }

    method HandleOperatorChange(currentOp: Address, slotSec: int)
      modifies this
      ensures State() == old(State()).(
                operatorAddress := currentOp,
                lastEjection := EjectionRecord(cfg, old(State()), slotSec, CacheState(0, currentOp, 0)))
    {
      if currentOp == currentOperatorAddress {
        return;
      }
      var wasEjected := !wasSyncedPreconfer && currentOp == cfg.me && currentOperatorAddress != ZERO_ADDRESS;
      if wasEjected {
        lastEjectionTimestamp := Some(slotSec);
      }
      currentOperatorAddress := currentOp;
    }

    method IsWithinEjectionGrace(now: nat) returns (r: bool)
      requires cfg.Valid() && now >= cfg.clock.GenesisMs()
      modifies this
      ensures r == InGrace(cfg, old(lastEjectionTimestamp), cfg.clock.L2SlotBeginSec(now))
      ensures State() == if r then old(State()).(nextOperator := false, continuingRole := false)
                         else old(State()).(lastEjection := None)
    {
      match lastEjectionTimestamp {
        case Some(lastTs) =>
          if cfg.clock.L2SlotBeginSec(now) <= lastTs + cfg.graceSec {
            nextOperator := false;
            continuingRole := false;
            return true;
          }
          lastEjectionTimestamp := None;
          return false;
        case None =>
          return false;
      }
    }

    method IsCurrentOperator(now: nat, epochSec: int, view: CacheState) returns (r: bool)
      requires cfg.Valid() && now >= cfg.clock.GenesisMs()
      modifies this
      ensures (State(), r) == RoleAfterView(cfg, old(State()), now, epochSec, view)
    {
      if view.timestamp < epochSec {
        return nextOperator;
      }
      HandleOperatorChange(view.current, cfg.clock.SlotBeginSec(now));
      var grace := IsWithinEjectionGrace(now);
      if grace {
        return false;
      }
      var isCurrent := view.current == cfg.me;
      var isNext := view.next == cfg.me;
      nextOperator := isNext;
      continuingRole := isCurrent && isNext;
      r := isCurrent;
    }

    method IsDriverSynced(slot: SlotInfo, driver: DriverStatus, inboxHeight: nat) returns (r: bool)
      requires cfg.Valid()
      modifies this
      ensures r == IsSynced(slot, driver, inboxHeight)
      ensures slot.parentId < inboxHeight ==> !r
      ensures slot.parentId >= inboxHeight ==> (r <==> driver.highestUnsafeBlock in {0, slot.parentId})
      ensures cancelCounter == if r then 0 else old(cancelCounter) + 1
      ensures State() == RoleAfterSync(cfg, old(State()), r)
    {
      if IsSynced(slot, driver, inboxHeight) {
        cancelCounter := 0;
        return true;
      }
      cancelCounter := cancelCounter + 1;
      if cancelCounter > cfg.clock.L2SlotsPerEpoch() / 2 {
        cancelled := true;
      }
      r := false;
    }

    method GetStatus(o: Observation) returns (r: Option<Status>)
      requires cfg.Valid()
      modifies this
      ensures (State(), r) == StatusStep(cfg, old(State()), o)
    {
      if o.now < cfg.clock.GenesisMs() {
        return None;
      }
      var epochSec := cfg.clock.EpochBeginSec(cfg.clock.Epoch(o.now));
      if epochSec.None? || o.view.None? {
        return None;
      }
      var current := IsCurrentOperator(o.now, epochSec.value, o.view.value);
      var window := IsHandoverWindow(cfg, o.now);
      if o.driver.None? || o.inboxHeight.None? {
        return None;
      }
      var synced := IsDriverSynced(o.slot, o.driver.value, o.inboxHeight.value);
      var preconfer := IsPreconfer(cfg, State(), current, o.now, o.slot, o.driver.value);
      var started := !wasSyncedPreconfer && preconfer && synced;
      if started {
        wasSyncedPreconfer := true;
      }
      if !preconfer {
        wasSyncedPreconfer := false;
      }
      var submitter := IsSubmitter(cfg, current, window);
      var eos := !continuingRole && preconfer && submitter && cfg.clock.LastL2SlotBefore(o.now, cfg.handoverSlots);
      r := Some(Status(preconfer, submitter, started, eos, synced));
    }

    method Reset()
      modifies this
      ensures State() == old(State()).(nextOperator := false, continuingRole := false,
                                       wasSyncedPreconfer := false, cancelCounter := 0)
    {
      nextOperator, continuingRole, wasSyncedPreconfer, cancelCounter := false, false, false, 0;
    }
  }
}
