/**
 The node loop and the monitor task as one interleaved state machine. An action is
 one atomic step of the loop, one event of the task, or a cancellation from outside;
 everything the environment decides is data of the action.
 */
module SubmissionProtocol {
  import opened Wrappers
  import opened TransactionMonitors
  import opened ProposalQueues

  // The parts of the operator status the loop branches on.
  datatype Role = Role(submitter: bool, preconfer: bool, started: bool, synced: bool)

  // Where the loop is; `busy` is the `transaction_in_progress` it read at the start of the step.
  datatype Pc =
    | Top
    | AskStatus
    | ReadProgress(role: Role)
    | CheckChannel(role: Role)
    | Resubmit(role: Role)
    | Drop(role: Role)
    | Start(role: Role, busy: bool)
    | Preconfirm(role: Role, busy: bool)
    | Verify(role: Role, busy: bool)
    | Submit(role: Role)
    | SetPending(role: Role)
    | Cleanup(role: Role)
    | Stopped

  // The monitor's join handle: which proposal it was spawned for, and how far it got.
  datatype Task = Task(id: nat, phase: Phase)

  datatype State = State(
    queue: seq<Proposal>,
    verifier: bool,
    cancelled: bool,
    channel: seq<TransactionError>,
    task: Option<Task>,
    pc: Pc)

  const INITIAL := State([], false, false, [], None, Top)

  // Reanchoring clears the verifier, resets the builder and rebuilds proposals; each part may fail.
  datatype Reanchor =
    | Rebuilt(ids: seq<nat>)
    | ReanchorFails(partial: Option<seq<nat>>, verifierCleared: bool)

  datatype StartOutcome =
    | StartOk(newVerifier: bool)
    | StartErr(newVerifier: bool)
    | StartFatal

  datatype PreconfirmOutcome =
    | NoBlock
    | Block(finalized: seq<nat>)
    | BlockErr(finalized: seq<nat>)
    | HeadMismatch(finalized: seq<nat>)
    | FastReanchor(result: Reanchor)

  datatype VerifyOutcome =
    | StillVerifying
    | VerifyErr
    | Verified(recovered: seq<nat>)
    | ReanchorNeeded(result: Reanchor)

  datatype SubmitOutcome =
    | Dispatched
    | SendErr
    | SendTransactionError(error: TransactionError, result: Reanchor)

  datatype Action =
    | Tick
    | StatusErr
    | StatusIs(role: Role)
    | ReadsProgress
    | Receives(result: Reanchor)
    | FindsChannelEmpty
    | ChannelClosed
    | MarksForResubmit
    | DropsConfirmed
    | Starts(start: StartOutcome)
    | Preconfirms(preconf: PreconfirmOutcome)
    | Verifies(verify: VerifyOutcome)
    | Submits(finalized: seq<nat>, submit: SubmitOutcome)
    | SetsPending
    | CleansUp(holdsMore: bool, ok: bool)
    | TaskDoes(event: Event)
    | Cancels

  predicate Busy(task: Option<Task>) {
    task.Some? && !task.value.phase.Done?
  }

  // The errors after which `handle_transaction_error` lets the loop go on.
  predicate Survivable(e: TransactionError) {
    e.EstimationTooEarly? || e.NotTheOperatorInCurrentEpoch? || e.OldestForcedInclusionDue?
  }

  function AfterReanchor(s: State, r: Reanchor): State {
    match r
    case Rebuilt(ids) => s.(verifier := false, queue := Fresh(ids))
    case ReanchorFails(partial, cleared) =>
      s.(verifier := s.verifier && !cleared, cancelled := true,
         queue := if partial.Some? then Fresh(partial.value) else s.queue)
  }

  // `handle_transaction_error`; it fails exactly when it cancelled the node.
  function AfterError(s: State, e: TransactionError, r: Reanchor): (State, bool) {
    if !Survivable(e) then (s.(cancelled := true), false)
    else if e.OldestForcedInclusionDue? then (AfterReanchor(s, r), r.Rebuilt?)
    else (s, true)
  }

  function AfterTaskEvent(cfg: MonitorConfig, s: State, e: Event): Option<State> {
    if !Busy(s.task) then None
    else
      var p := PhaseStep(cfg, s.task.value.phase, e);
      if p.None? then None
      else Some(s.(task := Some(s.task.value.(phase := p.value)),
                   channel := s.channel + if e.Signal? then [e.error] else []))
  }

  function AfterStart(s: State, role: Role, busy: bool, o: StartOutcome): State {
    if !role.started then s.(pc := Preconfirm(role, busy))
    else
      match o
      case StartOk(v) => s.(verifier := s.verifier || v || !role.submitter, pc := Preconfirm(role, busy))
      case StartErr(v) => s.(verifier := s.verifier || v, pc := Top)
      case StartFatal => s.(cancelled := true, pc := Top)
  }

  // A submitter does not look at anchor offsets here, so it never reanchors at this point.
  function AfterPreconfirm(s: State, role: Role, busy: bool, o: PreconfirmOutcome): State {
    if !(role.preconfer && role.synced) then s.(pc := Verify(role, busy))
    else
      match o
      case NoBlock => s.(pc := Verify(role, busy))
      case Block(ids) => s.(queue := s.queue + Fresh(ids), pc := Verify(role, busy))
      case BlockErr(ids) => s.(queue := s.queue + Fresh(ids), pc := Top)
      case HeadMismatch(ids) => s.(queue := s.queue + Fresh(ids), cancelled := true, pc := Top)
      case FastReanchor(r) =>
        if role.submitter then s.(pc := Verify(role, busy)) else AfterReanchor(s, r).(pc := Top)
  }

  function AfterVerify(s: State, role: Role, busy: bool, o: VerifyOutcome): State {
    if !role.submitter || busy then s.(pc := Cleanup(role))
    else if !s.verifier then s.(pc := Submit(role))
    else
      match o
      case StillVerifying => s.(pc := Cleanup(role))
      case VerifyErr => s.(pc := Top)
      case Verified(ids) => s.(verifier := false, queue := Fresh(ids) + s.queue, pc := Submit(role))
      case ReanchorNeeded(r) =>
        AfterReanchor(s, r).(verifier := false, pc := if r.Rebuilt? then Submit(role) else Top)
  }

  // The current proposal may be finalized first; the front is sent unless it is pending.
  function AfterSubmit(s: State, role: Role, finalized: seq<nat>, o: SubmitOutcome): State {
    AfterDispatch(s.(queue := s.queue + Fresh(finalized)), role, o)
  }

  function AfterDispatch(t: State, role: Role, o: SubmitOutcome): State {
    if t.queue == [] then t.(pc := Cleanup(role))
    else if t.queue[0].pending then t.(pc := Top)
    else
      match o
      case Dispatched =>
        if Busy(t.task) then t.(pc := Top)
        else t.(task := Some(Task(t.queue[0].id, Running)), pc := SetPending(role))
      case SendErr => t.(pc := Top)
      case SendTransactionError(e, r) =>
        var (u, ok) := AfterError(t, e, r);
        u.(pc := if ok then Cleanup(role) else Top)
  }

  // Without a role the builder is reset if it holds anything; the reset may fail.
  function AfterCleanup(s: State, role: Role, holdsMore: bool, ok: bool): State {
    if role.submitter || role.preconfer then s.(pc := Top)
    else if (s.queue != [] || holdsMore) && !ok then s.(pc := Top)
    else s.(queue := [], verifier := false, pc := Top)
  }

  // The successor, `None` when the action cannot happen here.
  function Next(cfg: MonitorConfig, s: State, a: Action): Option<State> {
    match (a, s.pc)
    case (TaskDoes(e), _) => AfterTaskEvent(cfg, s, e)
    case (Cancels, _) => Some(s.(cancelled := true))
    case (Tick, Top) => Some(s.(pc := if s.cancelled then Stopped else AskStatus))
    case (StatusErr, AskStatus) => Some(s.(pc := Top))
    case (StatusIs(role), AskStatus) => Some(s.(pc := ReadProgress(role)))
    case (ReadsProgress, ReadProgress(role)) =>
      Some(s.(pc := if Busy(s.task) then Start(role, true) else CheckChannel(role)))
    case (Receives(r), CheckChannel(role)) =>
      if s.channel == [] then None
      else
        var (t, ok) := AfterError(s.(channel := s.channel[1..]), s.channel[0], r);
        Some(t.(pc := if ok then Resubmit(role) else Top))
    case (FindsChannelEmpty, CheckChannel(role)) =>
      if s.channel == [] then Some(s.(pc := Drop(role))) else None
    case (ChannelClosed, CheckChannel(role)) => Some(s.(cancelled := true, pc := Top))
    case (MarksForResubmit, Resubmit(role)) =>
      Some(s.(queue := WithFront(s.queue, false), pc := Start(role, false)))
    case (DropsConfirmed, Drop(role)) =>
      Some(s.(queue := WithoutConfirmed(s.queue), pc := Start(role, false)))
    case (Starts(o), Start(role, busy)) => Some(AfterStart(s, role, busy, o))
    case (Preconfirms(o), Preconfirm(role, busy)) => Some(AfterPreconfirm(s, role, busy, o))
    case (Verifies(o), Verify(role, busy)) => Some(AfterVerify(s, role, busy, o))
    case (Submits(ids, o), Submit(role)) => Some(AfterSubmit(s, role, ids, o))
    case (SetsPending, SetPending(role)) =>
      Some(s.(queue := WithFront(s.queue, true), pc := Cleanup(role)))
    case (CleansUp(more, ok), Cleanup(role)) => Some(AfterCleanup(s, role, more, ok))
    case _ => None
  }

  // ---------- runs ----------

  function Exec(cfg: MonitorConfig, s: State, run: seq<Action>): Option<State> {
    if run == [] then Some(s)
    else
      var m := Exec(cfg, s, run[..|run| - 1]);
      if m.None? then None else Next(cfg, m.value, run[|run| - 1])
  }

  ghost predicate Reaches(cfg: MonitorConfig, s: State, t: State) {
    exists run :: Exec(cfg, s, run) == Some(t)
  }

  ghost predicate Reachable(cfg: MonitorConfig, s: State) {
    Reaches(cfg, INITIAL, s)
  }

  lemma ReachesSelf(cfg: MonitorConfig, s: State)
    ensures Reaches(cfg, s, s)
  {
    assert Exec(cfg, s, []) == Some(s);
  }

  lemma ReachesStep(cfg: MonitorConfig, s: State, t: State, a: Action)
    requires Reaches(cfg, s, t) && Next(cfg, t, a).Some?
    ensures Reaches(cfg, s, Next(cfg, t, a).value)
  {
    var run :| Exec(cfg, s, run) == Some(t);
    assert (run + [a])[..|run|] == run;
    assert Exec(cfg, s, run + [a]) == Next(cfg, t, a);
  }

  lemma {:induction false} ExecReaches(cfg: MonitorConfig, r: State, s: State, run: seq<Action>)
    requires Reaches(cfg, r, s) && Exec(cfg, s, run).Some?
    ensures Reaches(cfg, r, Exec(cfg, s, run).value)
  {
    if run != [] {
      var prefix := run[..|run| - 1];
      ExecReaches(cfg, r, s, prefix);
      ReachesStep(cfg, r, Exec(cfg, s, prefix).value, run[|run| - 1]);
    }
  }

  // ---------- what every step keeps ----------

  ghost predicate NonePending(q: seq<Proposal>) {
    forall i :: 0 <= i < |q| ==> !q[i].pending
  }

  ghost predicate OnlyFrontPending(q: seq<Proposal>) {
    forall i :: 0 < i < |q| ==> !q[i].pending
  }

  // The last task signalled an error.
  ghost predicate TaskFailed(s: State) {
    s.task.Some? && (s.task.value.phase.Erred? || (s.task.value.phase.Done? && s.task.value.phase.failed))
  }

  // The loop has seen the task idle in this step and has not dispatched another one.
  ghost predicate SawIdle(pc: Pc) {
    match pc
    case CheckChannel(_) => true
    case Resubmit(_) => true
    case Drop(_) => true
    case Start(_, busy) => !busy
    case Preconfirm(_, busy) => !busy
    case Verify(_, busy) => !busy
    case Submit(_) => true
    case _ => false
  }

  // ... and has settled the pending proposal.
  ghost predicate Settled(pc: Pc) {
    (SawIdle(pc) && !pc.CheckChannel? && !pc.Resubmit? && !pc.Drop?) || pc.SetPending?
  }

  ghost predicate QueueInv(s: State) {
    && OnlyFrontPending(s.queue)
    && (Settled(s.pc) ==> NonePending(s.queue))
    && (s.pc.SetPending? ==> s.queue != [] && s.task.Some? && s.task.value.id == s.queue[0].id)
    && (s.pc.Submit? || s.pc.SetPending? ==> !s.verifier)
  }

  ghost predicate TaskInv(cfg: MonitorConfig, s: State) {
    && (SawIdle(s.pc) ==> !Busy(s.task))
    && (s.task.Some? && s.task.value.phase.Done? ==>
          var p := s.task.value.phase;
          !(p.included && p.failed) && (p.included || p.failed || MayGiveUpSilently(cfg)))
  }

  ghost predicate ChannelInv(s: State) {
    && |s.channel| <= 1
    && (s.channel != [] ==> TaskFailed(s))
    && (SawIdle(s.pc) && !s.pc.CheckChannel? ==> s.channel == [])
    && (s.pc.SetPending? && TaskFailed(s) ==> s.channel != [])
  }

  // A pending proposal belongs to the last task; a read failure leaves it pending only until it is marked or the node stops.
  ghost predicate PendingInv(s: State) {
    FrontPending(s.queue) ==>
      && s.task.Some? && s.task.value.id == s.queue[0].id
      && (TaskFailed(s) && s.channel == [] ==> s.pc.Resubmit? || (s.cancelled && (s.pc.Top? || s.pc.Stopped?)))
  }

  ghost predicate Inv(cfg: MonitorConfig, s: State) {
    QueueInv(s) && TaskInv(cfg, s) && ChannelInv(s) && PendingInv(s)
  }

  lemma TaskEventKeepsInv(cfg: MonitorConfig, s: State, e: Event)
    requires Inv(cfg, s) && AfterTaskEvent(cfg, s, e).Some?
    ensures Inv(cfg, AfterTaskEvent(cfg, s, e).value)
  {
  }

  lemma ReadingErrorKeepsInv(cfg: MonitorConfig, s: State, r: Reanchor)
    requires Inv(cfg, s) && s.pc.CheckChannel? && s.channel != []
    ensures Inv(cfg, Next(cfg, s, Receives(r)).value)
  {
  }

  lemma SettlingKeepsInv(cfg: MonitorConfig, s: State, a: Action)
    requires Inv(cfg, s) && (a.MarksForResubmit? || a.DropsConfirmed? || a.SetsPending?) && Next(cfg, s, a).Some?
    ensures Inv(cfg, Next(cfg, s, a).value)
  {
  }

  lemma StartKeepsInv(cfg: MonitorConfig, s: State, o: StartOutcome)
    requires Inv(cfg, s) && s.pc.Start?
    ensures Inv(cfg, AfterStart(s, s.pc.role, s.pc.busy, o))
  {
  }

  lemma PreconfirmKeepsInv(cfg: MonitorConfig, s: State, o: PreconfirmOutcome)
    requires Inv(cfg, s) && s.pc.Preconfirm?
    ensures Inv(cfg, AfterPreconfirm(s, s.pc.role, s.pc.busy, o))
  {
  }

  lemma VerifyKeepsInv(cfg: MonitorConfig, s: State, o: VerifyOutcome)
    requires Inv(cfg, s) && s.pc.Verify?
    ensures Inv(cfg, AfterVerify(s, s.pc.role, s.pc.busy, o))
  {
  }

  lemma SubmitKeepsInv(cfg: MonitorConfig, s: State, ids: seq<nat>, o: SubmitOutcome)
    requires Inv(cfg, s) && s.pc.Submit?
    ensures Inv(cfg, AfterSubmit(s, s.pc.role, ids, o))
  {
    PushKeepsInv(cfg, s, ids);
    DispatchKeepsInv(cfg, s.(queue := s.queue + Fresh(ids)), o);
  }

  lemma PushKeepsInv(cfg: MonitorConfig, s: State, ids: seq<nat>)
    requires Inv(cfg, s) && s.pc.Submit?
    ensures Inv(cfg, s.(queue := s.queue + Fresh(ids)))
  {
  }

  lemma DispatchKeepsInv(cfg: MonitorConfig, s: State, o: SubmitOutcome)
    requires Inv(cfg, s) && s.pc.Submit?
    ensures Inv(cfg, AfterDispatch(s, s.pc.role, o))
  {
  }

  lemma CleanupKeepsInv(cfg: MonitorConfig, s: State, more: bool, ok: bool)
    requires Inv(cfg, s) && s.pc.Cleanup?
    ensures Inv(cfg, AfterCleanup(s, s.pc.role, more, ok))
  {
  }

  lemma StepKeepsInv(cfg: MonitorConfig, s: State, a: Action)
    requires Inv(cfg, s) && Next(cfg, s, a).Some?
    ensures Inv(cfg, Next(cfg, s, a).value)
  {
    match a
    case TaskDoes(e) => TaskEventKeepsInv(cfg, s, e);
    case Receives(r) => ReadingErrorKeepsInv(cfg, s, r);
    case MarksForResubmit => SettlingKeepsInv(cfg, s, a);
    case DropsConfirmed => SettlingKeepsInv(cfg, s, a);
    case SetsPending => SettlingKeepsInv(cfg, s, a);
    case Starts(o) => StartKeepsInv(cfg, s, o);
    case Preconfirms(o) => PreconfirmKeepsInv(cfg, s, o);
    case Verifies(o) => VerifyKeepsInv(cfg, s, o);
    case Submits(ids, o) => SubmitKeepsInv(cfg, s, ids, o);
    case CleansUp(more, ok) => CleanupKeepsInv(cfg, s, more, ok);
    case _ =>
  }

  lemma {:induction false} RunKeepsInv(cfg: MonitorConfig, run: seq<Action>)
    requires Exec(cfg, INITIAL, run).Some?
    ensures Inv(cfg, Exec(cfg, INITIAL, run).value)
  {
    if run != [] {
      var prefix := run[..|run| - 1];
      RunKeepsInv(cfg, prefix);
      StepKeepsInv(cfg, Exec(cfg, INITIAL, prefix).value, run[|run| - 1]);
    }
  }

  lemma ReachableInv(cfg: MonitorConfig, s: State)
    requires Reachable(cfg, s)
    ensures Inv(cfg, s)
  {
    var run :| Exec(cfg, INITIAL, run) == Some(s);
    RunKeepsInv(cfg, run);
  }

  // ---------- what the protocol guarantees ----------

  // The next loop action pops the front as confirmed.
  ghost predicate AboutToDrop(s: State) {
    s.pc.Drop? && FrontPending(s.queue)
  }

  // The last task was spawned for the front and ended with its transaction seen included.
  ghost predicate FrontIncluded(s: State) {
    s.queue != [] && s.task == Some(Task(s.queue[0].id, Done(true, false)))
  }

  // In every interleaving a proposal is dropped as confirmed only after its own task saw it included.
  lemma DroppedWasIncluded(cfg: MonitorConfig, s: State)
    requires Reachable(cfg, s) && AboutToDrop(s) && !MayGiveUpSilently(cfg)
    ensures FrontIncluded(s)
  {
    ReachableInv(cfg, s);
  }

  // No action of the loop, as opposed to the task or the outside.
  predicate LoopAction(a: Action) {
    !a.TaskDoes? && !a.Cancels?
  }

  // Once the failure of a task has been read, its proposal is marked next or the loop does nothing but stop.
  lemma FailedIsMarkedOrNodeStops(cfg: MonitorConfig, s: State, a: Action)
    requires Reachable(cfg, s) && TaskFailed(s) && s.channel == [] && FrontPending(s.queue)
    requires LoopAction(a) && Next(cfg, s, a).Some?
    ensures var t := Next(cfg, s, a).value;
            || (s.pc.Resubmit? && NonePending(t.queue))
            || (s.cancelled && t.pc.Stopped? && t.queue == s.queue)
  {
    ReachableInv(cfg, s);
  }

  // At most one proposal is pending, it is the front, and it belongs to the last task.
  lemma OnePendingAtFront(cfg: MonitorConfig, s: State, i: nat)
    requires Reachable(cfg, s) && i < |s.queue| && s.queue[i].pending
    ensures i == 0 && s.task.Some? && s.task.value.id == s.queue[0].id
  {
    ReachableInv(cfg, s);
  }

  // A task is spawned only with no verifier left, no task running, no unread error and nothing pending.
  lemma DispatchIsGuarded(cfg: MonitorConfig, s: State, ids: seq<nat>, o: SubmitOutcome)
    requires Reachable(cfg, s) && s.pc.Submit?
    ensures !s.verifier && !Busy(s.task) && s.channel == [] && NonePending(s.queue)
    ensures var t := Next(cfg, s, Submits(ids, o)).value;
            Busy(t.task) ==> t.pc.SetPending? && t.task.value == Task(t.queue[0].id, Running)
  {
    ReachableInv(cfg, s);
  }

  // ---------- why each assumption is there ----------

  const SUBMITTING := Role(true, false, false, false)

  function JustDispatched(id: nat, pc: Pc): State {
    State([Proposal(id, true)], false, false, [], Some(Task(id, Running)), pc)
  }

  lemma FirstSettled(cfg: MonitorConfig)
    ensures Reachable(cfg, INITIAL.(pc := Start(SUBMITTING, false)))
  {
    var s := INITIAL;
    ReachesSelf(cfg, s);
    s := Follow(cfg, s, Tick);
    s := Follow(cfg, s, StatusIs(SUBMITTING));
    s := Follow(cfg, s, ReadsProgress);
    s := Follow(cfg, s, FindsChannelEmpty);
    s := Follow(cfg, s, DropsConfirmed);
  }

  lemma FirstSubmit(cfg: MonitorConfig)
    ensures Reachable(cfg, INITIAL.(pc := Submit(SUBMITTING)))
  {
    FirstSettled(cfg);
    var s := INITIAL.(pc := Start(SUBMITTING, false));
    s := Follow(cfg, s, Starts(StartFatal));
    s := Follow(cfg, s, Preconfirms(NoBlock));
    s := Follow(cfg, s, Verifies(VerifyErr));
  }

  function JustSpawned(id: nat): State {
    State([Proposal(id, false)], false, false, [], Some(Task(id, Running)), SetPending(SUBMITTING))
  }

  lemma SpawnSteps(cfg: MonitorConfig, id: nat)
    ensures Next(cfg, INITIAL.(pc := Submit(SUBMITTING)), Submits([id], Dispatched)) == Some(JustSpawned(id))
    ensures Next(cfg, JustSpawned(id), SetsPending) == Some(JustDispatched(id, Cleanup(SUBMITTING)))
  {
    assert INITIAL.queue + Fresh([id]) == [Proposal(id, false)];
    assert WithFront([Proposal(id, false)], true) == [Proposal(id, true)];
  }

  // From the start a first proposal can be finalized, dispatched and marked pending.
  lemma FirstDispatch(cfg: MonitorConfig, id: nat)
    ensures Reachable(cfg, JustDispatched(id, Top))
  {
    FirstSubmit(cfg);
    SpawnSteps(cfg, id);
    var s := Follow(cfg, INITIAL.(pc := Submit(SUBMITTING)), Submits([id], Dispatched));
    s := Follow(cfg, JustSpawned(id), SetsPending);
    s := Follow(cfg, JustDispatched(id, Cleanup(SUBMITTING)), CleansUp(false, false));
  }

  lemma Follow(cfg: MonitorConfig, s: State, a: Action) returns (t: State)
    requires Reachable(cfg, s) && Next(cfg, s, a).Some?
    ensures Reachable(cfg, t) && t == Next(cfg, s, a).value
  {
    ReachesStep(cfg, INITIAL, s, a);
    t := Next(cfg, s, a).value;
  }

  // With silent giving up, a proposal that was never sent is dropped as confirmed.
  lemma SilenceDropsUnsent(cfg: MonitorConfig) returns (s: State)
    requires MayGiveUpSilently(cfg)
    ensures Reachable(cfg, s) && AboutToDrop(s) && s.task.Some? && s.task.value.phase == Done(false, false)
  {
    FirstDispatch(cfg, 0);
    s := JustDispatched(0, Top);
    s := Follow(cfg, s, TaskDoes(Exit));
    s := Follow(cfg, s, Tick);
    s := Follow(cfg, s, StatusIs(SUBMITTING));
    s := Follow(cfg, s, ReadsProgress);
    s := Follow(cfg, s, FindsChannelEmpty);
  }

  // Drops are sound in every reachable state exactly when the monitor cannot give up in silence.
  lemma DropsSoundIff(cfg: MonitorConfig)
    ensures (forall s :: Reachable(cfg, s) && AboutToDrop(s) ==> FrontIncluded(s)) <==> !MayGiveUpSilently(cfg)
  {
    if MayGiveUpSilently(cfg) {
      var s := SilenceDropsUnsent(cfg);
      assert !FrontIncluded(s);
    } else {
      forall s | Reachable(cfg, s) && AboutToDrop(s) ensures FrontIncluded(s) {
        DroppedWasIncluded(cfg, s);
      }
    }
  }

  // ---------- the two reads exchanged ----------

  /**
   The loop that asks the channel first and the task second: a channel found empty is followed by
   the question whether the task is running, and by the drop if it is not.
   */
  function NextReversed(cfg: MonitorConfig, s: State, a: Action): Option<State> {
    match (a, s.pc)
    case (StatusIs(role), AskStatus) => Some(s.(pc := CheckChannel(role)))
    case (FindsChannelEmpty, CheckChannel(role)) =>
      if s.channel == [] then Some(s.(pc := ReadProgress(role))) else None
    case (ReadsProgress, ReadProgress(role)) =>
      Some(s.(pc := if Busy(s.task) then Start(role, true) else Drop(role)))
    case _ => Next(cfg, s, a)
  }

  function ExecReversed(cfg: MonitorConfig, s: State, run: seq<Action>): Option<State> {
    if run == [] then Some(s)
    else
      var m := ExecReversed(cfg, s, run[..|run| - 1]);
      if m.None? then None else NextReversed(cfg, m.value, run[|run| - 1])
  }

  ghost predicate ReachableReversed(cfg: MonitorConfig, s: State) {
    exists run :: ExecReversed(cfg, INITIAL, run) == Some(s)
  }

  lemma FollowReversed(cfg: MonitorConfig, s: State, a: Action) returns (t: State)
    requires ReachableReversed(cfg, s) && NextReversed(cfg, s, a).Some?
    ensures ReachableReversed(cfg, t) && t == NextReversed(cfg, s, a).value
  {
    var run :| ExecReversed(cfg, INITIAL, run) == Some(s);
    assert (run + [a])[..|run|] == run;
    t := NextReversed(cfg, s, a).value;
    assert ExecReversed(cfg, INITIAL, run + [a]) == Some(t);
  }

  lemma ReversedSettled(cfg: MonitorConfig)
    ensures ReachableReversed(cfg, INITIAL.(pc := Start(SUBMITTING, false)))
  {
    assert ExecReversed(cfg, INITIAL, []) == Some(INITIAL);
    var s := FollowReversed(cfg, INITIAL, Tick);
    s := FollowReversed(cfg, s, StatusIs(SUBMITTING));
    s := FollowReversed(cfg, s, FindsChannelEmpty);
    s := FollowReversed(cfg, s, ReadsProgress);
    s := FollowReversed(cfg, s, DropsConfirmed);
  }

  lemma ReversedSubmit(cfg: MonitorConfig)
    ensures ReachableReversed(cfg, INITIAL.(pc := Submit(SUBMITTING)))
  {
    ReversedSettled(cfg);
    var s := FollowReversed(cfg, INITIAL.(pc := Start(SUBMITTING, false)), Starts(StartFatal));
    s := FollowReversed(cfg, s, Preconfirms(NoBlock));
    s := FollowReversed(cfg, s, Verifies(VerifyErr));
  }

  lemma ReversedDispatch(cfg: MonitorConfig, id: nat)
    ensures ReachableReversed(cfg, JustDispatched(id, Top))
  {
    ReversedSubmit(cfg);
    SpawnSteps(cfg, id);
    var s := FollowReversed(cfg, INITIAL.(pc := Submit(SUBMITTING)), Submits([id], Dispatched));
    s := FollowReversed(cfg, JustSpawned(id), SetsPending);
    s := FollowReversed(cfg, JustDispatched(id, Cleanup(SUBMITTING)), CleansUp(false, false));
  }

  lemma ReversedEmptyChannel(cfg: MonitorConfig, id: nat)
    ensures ReachableReversed(cfg, JustDispatched(id, ReadProgress(SUBMITTING)))
  {
    ReversedDispatch(cfg, id);
    var s := FollowReversed(cfg, JustDispatched(id, Top), Tick);
    s := FollowReversed(cfg, s, StatusIs(SUBMITTING));
    s := FollowReversed(cfg, s, FindsChannelEmpty);
  }

  /**
   Why the task is read first: with the reads exchanged, whatever the configuration, a run reaches
   the drop of a proposal whose task failed between the two reads.
   */
  lemma ReversedReadsDropFailures(cfg: MonitorConfig, e: TransactionError) returns (s: State)
    ensures ReachableReversed(cfg, s) && AboutToDrop(s) && TaskFailed(s) && !FrontIncluded(s)
  {
    ReversedEmptyChannel(cfg, 0);
    s := JustDispatched(0, ReadProgress(SUBMITTING));
    s := FollowReversed(cfg, s, TaskDoes(Signal(e)));
    s := FollowReversed(cfg, s, TaskDoes(Exit));
    s := FollowReversed(cfg, s, ReadsProgress);
  }
}
