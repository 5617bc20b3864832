/**
 The Shasta node loop in its own imperative form. Each method is proved to take exactly
 the protocol's steps for the replies it gets, so what holds in every reachable state of
 the protocol holds along the loop. `Interleave` is where other tasks run.
 */
module Nodes {
  import opened Wrappers
  import opened TransactionMonitors
  import opened ProposalQueues
  import opened SubmissionProtocol

  // What the environment answers during one step of the loop.
  datatype Replies = Replies(
    status: Option<Role>,
    channelClosed: bool,
    reanchor: Reanchor,
    start: StartOutcome,
    preconf: PreconfirmOutcome,
    verify: VerifyOutcome,
    finalized: seq<nat>,
    submit: SubmitOutcome,
    holdsMore: bool,
    resetOk: bool)

  // The actions these replies allow; other tasks and the outside are not bound by them.
  predicate Obeys(env: Replies, a: Action) {
    match a
    case TaskDoes(_) => true
    case Cancels => true
    case Tick => false
    case StatusErr => env.status.None?
    case StatusIs(role) => env.status == Some(role)
    case ReadsProgress => true
    case Receives(r) => !env.channelClosed && r == env.reanchor
    case FindsChannelEmpty => !env.channelClosed
    case ChannelClosed => env.channelClosed
    case MarksForResubmit => true
    case DropsConfirmed => true
    case Starts(o) => o == env.start
    case Preconfirms(o) => o == env.preconf
    case Verifies(o) => o == env.verify
    case Submits(ids, o) => ids == env.finalized && o == env.submit
    case SetsPending => true
    case CleansUp(more, ok) => more == env.holdsMore && ok == env.resetOk
  }

  // The protocol gets from s to t on these replies, with any interleaving of the other tasks.
  ghost predicate Does(cfg: MonitorConfig, env: Replies, s: State, t: State) {
    exists run :: Exec(cfg, s, run) == Some(t) && forall i :: 0 <= i < |run| ==> Obeys(env, run[i])
  }

  lemma DoesNothing(cfg: MonitorConfig, env: Replies, s: State)
    ensures Does(cfg, env, s, s)
  {
    assert Exec(cfg, s, []) == Some(s);
  }

  lemma DoesStep(cfg: MonitorConfig, env: Replies, s: State, t: State, a: Action)
    requires Does(cfg, env, s, t) && Next(cfg, t, a).Some? && Obeys(env, a)
    ensures Does(cfg, env, s, Next(cfg, t, a).value)
  {
    var run :| Exec(cfg, s, run) == Some(t) && forall i :: 0 <= i < |run| ==> Obeys(env, run[i]);
    assert (run + [a])[..|run|] == run;
    assert Exec(cfg, s, run + [a]) == Next(cfg, t, a);
  }

  lemma {:induction false} DoesRun(cfg: MonitorConfig, env: Replies, r: State, s: State, run: seq<Action>)
    requires Does(cfg, env, r, s) && Exec(cfg, s, run).Some? && forall i :: 0 <= i < |run| ==> Obeys(env, run[i])
    ensures Does(cfg, env, r, Exec(cfg, s, run).value)
  {
    if run != [] {
      var prefix := run[..|run| - 1];
      DoesRun(cfg, env, r, s, prefix);
      DoesStep(cfg, env, r, Exec(cfg, s, prefix).value, run[|run| - 1]);
    }
  }

  lemma DoesThen(cfg: MonitorConfig, env: Replies, r: State, s: State, t: State)
    requires Does(cfg, env, r, s) && Does(cfg, env, s, t)
    ensures Does(cfg, env, r, t)
  {
    var run :| Exec(cfg, s, run) == Some(t) && forall i :: 0 <= i < |run| ==> Obeys(env, run[i]);
    DoesRun(cfg, env, r, s, run);
  }

  lemma DoesReaches(cfg: MonitorConfig, env: Replies, r: State, s: State, t: State)
    requires Reaches(cfg, r, s) && Does(cfg, env, s, t)
    ensures Reaches(cfg, r, t)
  {
    var run :| Exec(cfg, s, run) == Some(t) && forall i :: 0 <= i < |run| ==> Obeys(env, run[i]);
    ExecReaches(cfg, r, s, run);
  }

  // One pass of the loop: other tasks run, then the token stops the node or the step is done.
  ghost predicate Beat(cfg: MonitorConfig, env: Replies, s: State, t: State) {
    exists m {:trigger Does(cfg, env, s, m)} ::
      && Does(cfg, env, s, m) && m.pc == Top
      && if m.cancelled then t == m.(pc := Stopped)
         else t.pc == Top && Does(cfg, env, m.(pc := AskStatus), t)
  }

  // The loop over a sequence of heartbeats; a stopped node stays as it is.
  ghost predicate Loops(cfg: MonitorConfig, beats: seq<Replies>, s: State, t: State) {
    if beats == [] then s == t
    else
      exists m {:trigger Loops(cfg, beats[..|beats| - 1], s, m)} ::
        && Loops(cfg, beats[..|beats| - 1], s, m)
        && if m.pc == Stopped then t == m else Beat(cfg, beats[|beats| - 1], m, t)
  }

  class Node {
    const cfg: MonitorConfig
    var queue: ProposalQueue
    var verifier: bool
    var cancelled: bool
    var channel: seq<TransactionError>
    var task: Option<Task>
    ghost var pc: Pc

    ghost function Abs(): State
      reads this, queue
    {
      State(queue.proposals, verifier, cancelled, channel, task, pc)
    }

    constructor (cfg: MonitorConfig)
      ensures this.cfg == cfg && Abs() == INITIAL && fresh(queue)
    {
      this.cfg := cfg;
      queue := new ProposalQueue();
      verifier, cancelled, channel, task, pc := false, false, [], None, Top;
    }

    // Any number of task events and outside cancellations, in any order.
    method Interleave(ghost env: Replies)
      modifies this`task, this`channel, this`cancelled
      ensures Does(cfg, env, old(Abs()), Abs())
      ensures old(task).Some? ==> task.Some? && task.value.id == old(task).value.id
      ensures old(cancelled) ==> cancelled
    {
      var n: int :| 0 <= n;
      DoesNothing(cfg, env, Abs());
      for i := 0 to n
        invariant Does(cfg, env, old(Abs()), Abs())
        invariant old(task).Some? ==> task.Some? && task.value.id == old(task).value.id
        invariant old(cancelled) ==> cancelled
      {
        ghost var before := Abs();
        RunElsewhere(env);
        DoesThen(cfg, env, old(Abs()), before, Abs());
      }
    }

    // At most one task event or outside cancellation.
    method RunElsewhere(ghost env: Replies)
      modifies this`task, this`channel, this`cancelled
      ensures Does(cfg, env, old(Abs()), Abs())
      ensures old(task).Some? ==> task.Some? && task.value.id == old(task).value.id
      ensures old(cancelled) ==> cancelled
    {
      ghost var before := Abs();
      DoesNothing(cfg, env, before);
      var event: Event, outside: bool := *, *;
      if outside {
        cancelled := true;
        DoesStep(cfg, env, before, before, Cancels);
        assert Abs() == Next(cfg, before, Cancels).value;
      } else if task.Some? && !task.value.phase.Done? {
        var p := PhaseStep(cfg, task.value.phase, event);
        if p.Some? {
          task := Some(task.value.(phase := p.value));
          channel := channel + if event.Signal? then [event.error] else [];
          DoesStep(cfg, env, before, before, TaskDoes(event));
          assert Abs() == Next(cfg, before, TaskDoes(event)).value;
        }
      }
    }

    method ResetBuilder(ids: seq<nat>)
      modifies this`queue
      ensures fresh(queue) && Abs() == old(Abs()).(queue := Fresh(ids))
    {
      queue := new ProposalQueue();
      queue.PushAll(ids);
    }

    method ReanchorBlocks(result: Reanchor) returns (ok: bool)
      modifies this`queue, this`verifier, this`cancelled
      ensures queue == old(queue) || fresh(queue)
      ensures queue == old(queue) ==> queue.proposals == old(queue.proposals)
      ensures Abs() == AfterReanchor(old(Abs()), result) && ok == result.Rebuilt?
      ensures result.Rebuilt? ==> queue.proposals == Fresh(result.ids) && !verifier && cancelled == old(cancelled)
      ensures result.ReanchorFails? ==> cancelled && (result.verifierCleared ==> !verifier)
    {
      match result {
        case Rebuilt(ids) =>
          verifier := false;
          ResetBuilder(ids);
          ok := true;
        case ReanchorFails(partial, cleared) =>
          if cleared {
            verifier := false;
          }
          if partial.Some? {
            ResetBuilder(partial.value);
          }
          cancelled := true;
          ok := false;
      }
    }

    method HandleTransactionError(error: TransactionError, result: Reanchor) returns (ok: bool)
      modifies this`queue, this`verifier, this`cancelled
      ensures queue == old(queue) || fresh(queue)
      ensures queue == old(queue) ==> queue.proposals == old(queue.proposals)
      ensures (Abs(), ok) == AfterError(old(Abs()), error, result)
      ensures error in {EstimationTooEarly, NotTheOperatorInCurrentEpoch} ==> ok && Abs() == old(Abs())
      ensures error == OldestForcedInclusionDue ==>
                ok == result.Rebuilt? && (ok ==> queue.proposals == Fresh(result.ids) && cancelled == old(cancelled))
      ensures error !in {EstimationTooEarly, NotTheOperatorInCurrentEpoch, OldestForcedInclusionDue} ==>
                !ok && Abs() == old(Abs()).(cancelled := true)
    {
      match error {
        case EstimationTooEarly => ok := true;
        case NotTheOperatorInCurrentEpoch => ok := true;
        case OldestForcedInclusionDue => ok := ReanchorBlocks(result);
        case _ =>
          cancelled := true;
          ok := false;
      }
    }

    // `None` after an error return, else whether a transaction error was received.
    method CheckTransactionErrorChannel(role: Role, env: Replies) returns (had: Option<bool>)
      requires pc == CheckChannel(role)
      modifies this
      ensures queue == old(queue) || fresh(queue)
      ensures queue == old(queue) ==> queue.proposals == old(queue.proposals)
      ensures Does(cfg, env, old(Abs()), Abs())
      ensures match had
              case None => pc == Top && cancelled
              case Some(b) => pc == if b then Resubmit(role) else Drop(role)
      ensures had == Some(false) <==> !env.channelClosed && old(channel) == []
      ensures !env.channelClosed && old(channel) != [] ==> channel == old(channel)[1..]
    {
      ghost var before := Abs();
      DoesNothing(cfg, env, before);
      if env.channelClosed {
        cancelled, pc := true, Top;
        DoesStep(cfg, env, before, before, ChannelClosed);
        assert Abs() == Next(cfg, before, ChannelClosed).value;
        return None;
      }
      if channel == [] {
        pc := Drop(role);
        DoesStep(cfg, env, before, before, FindsChannelEmpty);
        assert Abs() == Next(cfg, before, FindsChannelEmpty).value;
        return Some(false);
      }
      var error := channel[0];
      channel := channel[1..];
      var ok := HandleTransactionError(error, env.reanchor);
      pc := if ok then Resubmit(role) else Top;
      DoesStep(cfg, env, before, before, Receives(env.reanchor));
      assert Abs() == Next(cfg, before, Receives(env.reanchor)).value;
      had := if ok then Some(true) else None;
    }

    // Reads the task, then the channel, and settles the pending proposal; `None` after an error return.
    method SettlePending(role: Role, env: Replies) returns (inProgress: Option<bool>)
      requires pc == ReadProgress(role)
      modifies this, queue
      ensures queue == old(queue) || fresh(queue)
      ensures Does(cfg, env, old(Abs()), Abs())
      ensures pc == if inProgress.None? then Top else Start(role, inProgress.value)
    {
      var busy := IsTransactionInProgress(role, env);
      if busy {
        return Some(true);
      }
      ghost var s := Abs();
      Interleave(env);
      DoesThen(cfg, env, old(Abs()), s, Abs());
      s := Abs();
      var had := CheckTransactionErrorChannel(role, env);
      DoesThen(cfg, env, old(Abs()), s, Abs());
      if had.None? {
        return None;
      }
      s := Abs();
      MarkOrRemove(role, had.value, env);
      DoesThen(cfg, env, old(Abs()), s, Abs());
      inProgress := Some(false);
    }

    method IsTransactionInProgress(role: Role, ghost env: Replies) returns (busy: bool)
      requires pc == ReadProgress(role)
      modifies this
      ensures queue == old(queue) && queue.proposals == old(queue.proposals)
      ensures Does(cfg, env, old(Abs()), Abs())
      ensures pc == if busy then Start(role, true) else CheckChannel(role)
    {
      Interleave(env);
      ghost var s := Abs();
      busy := Busy(task);
      pc := if busy then Start(role, true) else CheckChannel(role);
      DoesStep(cfg, env, old(Abs()), s, ReadsProgress);
      assert Abs() == Next(cfg, s, ReadsProgress).value;
    }

    method MarkOrRemove(role: Role, hadError: bool, ghost env: Replies)
      requires pc == if hadError then Resubmit(role) else Drop(role)
      modifies this, queue
      ensures queue == old(queue)
      ensures Does(cfg, env, old(Abs()), Abs()) && pc == Start(role, false)
      ensures queue.proposals ==
                if old(queue.proposals) == [] then []
                else if hadError then [old(queue.proposals)[0].(pending := false)] + old(queue.proposals)[1..]
                else old(queue.proposals)[if old(queue.proposals)[0].pending then 1 else 0..]
    {
      Interleave(env);
      ghost var s, a := Abs(), if hadError then MarksForResubmit else DropsConfirmed;
      if hadError {
        queue.MarkFrontForResubmit();
      } else {
        queue.RemoveConfirmed();
      }
      pc := Start(role, false);
      DoesStep(cfg, env, old(Abs()), s, a);
      assert Abs() == Next(cfg, s, a).value;
    }

    // The first slot of preconfirmation may create a verifier.
    method StartPreconfirmation(role: Role, busy: bool, env: Replies) returns (ok: bool)
      requires pc == Start(role, busy)
      modifies this
      ensures queue == old(queue) && queue.proposals == old(queue.proposals)
      ensures Does(cfg, env, old(Abs()), Abs())
      ensures pc == if ok then Preconfirm(role, busy) else Top
      ensures ok <==> !role.started || env.start.StartOk?
      ensures ok && role.started && !role.submitter ==> verifier
      ensures old(verifier) ==> verifier
    {
      Interleave(env);
      ghost var s := Abs();
      ok := CreateVerifier(role, busy, env.start);
      DoesStep(cfg, env, old(Abs()), s, Starts(env.start));
    }

    method CreateVerifier(role: Role, busy: bool, start: StartOutcome) returns (ok: bool)
      requires pc == Start(role, busy)
      modifies this`verifier, this`cancelled, this`pc
      ensures Abs() == AfterStart(old(Abs()), role, busy, start)
      ensures pc == if ok then Preconfirm(role, busy) else Top
      ensures ok <==> !role.started || start.StartOk?
      ensures verifier <==>
                || old(verifier)
                || (role.started && !start.StartFatal? && start.newVerifier)
                || (role.started && start.StartOk? && !role.submitter)
      ensures cancelled <==> old(cancelled) || (role.started && start.StartFatal?)
    {
      ok := true;
      if role.started {
        match start {
          case StartOk(newVerifier) =>
            verifier := verifier || newVerifier || !role.submitter;
          case StartErr(newVerifier) =>
            verifier := verifier || newVerifier;
            ok := false;
          case StartFatal =>
            cancelled := true;
            ok := false;
        }
      }
      pc := if ok then Preconfirm(role, busy) else Top;
    }

    method PreconfirmBlock(role: Role, busy: bool, env: Replies) returns (ok: bool)
      requires pc == Preconfirm(role, busy)
      modifies this, queue
      ensures queue == old(queue) || fresh(queue)
      ensures Does(cfg, env, old(Abs()), Abs())
      ensures pc == if ok then Verify(role, busy) else Top
    {
      Interleave(env);
      ghost var s := Abs();
      ok := BuildBlock(role, busy, env.preconf);
      DoesStep(cfg, env, old(Abs()), s, Preconfirms(env.preconf));
    }

    method BuildBlock(role: Role, busy: bool, preconf: PreconfirmOutcome) returns (ok: bool)
      requires pc == Preconfirm(role, busy)
      modifies this, queue
      ensures queue == old(queue) || fresh(queue)
      ensures Abs() == AfterPreconfirm(old(Abs()), role, busy, preconf)
      ensures pc == if ok then Verify(role, busy) else Top
      ensures !role.preconfer || !role.synced || preconf.NoBlock? ==> ok && queue.proposals == old(queue.proposals)
      ensures role.preconfer && role.synced && (preconf.Block? || preconf.BlockErr? || preconf.HeadMismatch?) ==>
                && ok == preconf.Block? && cancelled == (old(cancelled) || preconf.HeadMismatch?)
                && queue.proposals == old(queue.proposals) + Fresh(preconf.finalized)
      ensures role.preconfer && role.synced && preconf.FastReanchor? ==>
                && ok == role.submitter
                && (ok ==> queue.proposals == old(queue.proposals))
                && (!ok && preconf.result.Rebuilt? ==> queue.proposals == Fresh(preconf.result.ids) && !verifier)
    {
      ok := true;
      if role.preconfer && role.synced {
        match preconf {
          case NoBlock =>
          case Block(ids) =>
            queue.PushAll(ids);
          case BlockErr(ids) =>
            queue.PushAll(ids);
            ok := false;
          case HeadMismatch(ids) =>
            queue.PushAll(ids);
            cancelled, ok := true, false;
          case FastReanchor(result) =>
            if !role.submitter {
              var _ := ReanchorBlocks(result);
              ok := false;
            }
        }
      }
      pc := if ok then Verify(role, busy) else Top;
    }

    // `Some(true)` to go on and submit, `Some(false)` to skip it, `None` after an error return.
    method HasVerifiedUnsentProposals(role: Role, busy: bool, env: Replies) returns (r: Option<bool>)
      requires pc == Verify(role, busy)
      modifies this, queue
      ensures queue == old(queue) || fresh(queue)
      ensures Does(cfg, env, old(Abs()), Abs())
      ensures match r
              case None => pc == Top
              case Some(b) => pc == if b then Submit(role) else Cleanup(role)
      ensures r == Some(true) ==> !verifier
      ensures role.submitter && !busy && old(verifier) && env.verify.Verified? ==>
                r == Some(true) && queue.proposals == Fresh(env.verify.recovered) + old(queue.proposals)
    {
      Interleave(env);
      ghost var s := Abs();
      r := TakeVerified(role, busy, env.verify);
      DoesStep(cfg, env, old(Abs()), s, Verifies(env.verify));
    }

    // Recovered proposals go before the queued ones; a failed verification rebuilds the queue.
    method TakeVerified(role: Role, busy: bool, verify: VerifyOutcome) returns (r: Option<bool>)
      requires pc == Verify(role, busy)
      modifies this, queue
      ensures queue == old(queue) || fresh(queue)
      ensures Abs() == AfterVerify(old(Abs()), role, busy, verify)
      ensures match r
              case None => pc == Top
              case Some(b) => pc == if b then Submit(role) else Cleanup(role)
      ensures r == Some(true) ==> !verifier
      ensures !role.submitter || busy ==> r == Some(false)
      ensures !role.submitter || busy || !old(verifier) || verify.StillVerifying? || verify.VerifyErr? ==>
                queue.proposals == old(queue.proposals) && verifier == old(verifier) && cancelled == old(cancelled)
      ensures role.submitter && !busy && !old(verifier) ==> r == Some(true)
      ensures role.submitter && !busy && old(verifier) ==>
                match verify
                case StillVerifying => r == Some(false)
                case VerifyErr => r == None
                case Verified(ids) => r == Some(true) && queue.proposals == Fresh(ids) + old(queue.proposals)
                case ReanchorNeeded(result) =>
                  r == (if result.Rebuilt? then Some(true) else None) &&
                  (result.Rebuilt? ==> queue.proposals == Fresh(result.ids))
    {
      if !role.submitter || busy {
        r := Some(false);
      } else if !verifier {
        r := Some(true);
      } else {
        match verify {
          case StillVerifying =>
            r := Some(false);
          case VerifyErr =>
            r := None;
          case Verified(ids) =>
            verifier := false;
            queue.Prepend(Fresh(ids));
            r := Some(true);
          case ReanchorNeeded(result) =>
            verifier := false;
            var ok := ReanchorBlocks(result);
            r := if ok then Some(true) else None;
        }
      }
      pc := if r.None? then Top else if r.value then Submit(role) else Cleanup(role);
    }

    method TrySubmitOldestProposal(role: Role, env: Replies) returns (ok: bool)
      requires pc == Submit(role)
      modifies this, queue
      ensures queue == old(queue) || fresh(queue)
      ensures Does(cfg, env, old(Abs()), Abs())
      ensures pc == if ok then Cleanup(role) else Top
      ensures var q := old(queue.proposals) + Fresh(env.finalized);
              q != [] && env.submit.Dispatched? && ok ==>
                !q[0].pending && queue.proposals == WithFront(q, true) && task.Some? && task.value.id == q[0].id
    {
      Interleave(env);
      ghost var s := Abs();
      var spawned;
      ok, spawned := SendOldest(role, env.finalized, env.submit);
      DoesStep(cfg, env, old(Abs()), s, Submits(env.finalized, env.submit));
      if spawned {
        s := Abs();
        MarkDispatched(role, env);
        DoesThen(cfg, env, old(Abs()), s, Abs());
      }
    }

    // Finalizes what is due, then sends the front unless it is pending.
    method SendOldest(role: Role, finalized: seq<nat>, submit: SubmitOutcome) returns (ok: bool, spawned: bool)
      requires pc == Submit(role)
      modifies this, queue
      ensures queue == old(queue) || fresh(queue)
      ensures Abs() == AfterSubmit(old(Abs()), role, finalized, submit)
      ensures pc == if spawned then SetPending(role) else if ok then Cleanup(role) else Top
      ensures var q := old(queue.proposals) + Fresh(finalized);
              && (q == [] ==> ok && !spawned && queue.proposals == [])
              && (q != [] && (q[0].pending || submit.SendErr?) ==> !ok && queue.proposals == q)
              && (q != [] && submit.Dispatched? ==> queue.proposals == q && ok == spawned)
              && (spawned <==> q != [] && !q[0].pending && submit.Dispatched? && !Busy(old(task)))
              && (spawned ==> task == Some(Task(q[0].id, Running)))
    {
      spawned := false;
      queue.PushAll(finalized);
      ok := true;
      if queue.proposals == [] {
      } else if queue.proposals[0].pending {
        ok := false;
      } else {
        match submit {
          case Dispatched =>
            if Busy(task) {
              ok := false;
            } else {
              task := Some(Task(queue.proposals[0].id, Running));
              spawned := true;
            }
          case SendErr =>
            ok := false;
          case SendTransactionError(error, result) =>
            ok := HandleTransactionError(error, result);
        }
      }
      pc := if spawned then SetPending(role) else if ok then Cleanup(role) else Top;
    }

    // The task may already have failed or finished when the flag is set.
    method MarkDispatched(role: Role, ghost env: Replies)
      requires pc == SetPending(role) && queue.proposals != []
      modifies this, queue
      ensures queue == old(queue)
      ensures Does(cfg, env, old(Abs()), Abs()) && pc == Cleanup(role)
      ensures queue.proposals == WithFront(old(queue.proposals), true)
      ensures old(task).Some? ==> task.Some? && task.value.id == old(task).value.id
    {
      Interleave(env);
      ghost var s := Abs();
      queue.MarkFrontPending();
      pc := Cleanup(role);
      DoesStep(cfg, env, old(Abs()), s, SetsPending);
      assert Abs() == Next(cfg, s, SetsPending).value;
    }

    // Without a role, whatever is left in the builder is discarded.
    method CleanUp(role: Role, env: Replies) returns (ok: bool)
      requires pc == Cleanup(role)
      modifies this, queue
      ensures queue == old(queue) || fresh(queue)
      ensures Does(cfg, env, old(Abs()), Abs()) && pc == Top
    {
      Interleave(env);
      ghost var s := Abs();
      ok := Discard(role, env.holdsMore, env.resetOk);
      DoesStep(cfg, env, old(Abs()), s, CleansUp(env.holdsMore, env.resetOk));
    }

    method Discard(role: Role, holdsMore: bool, resetOk: bool) returns (ok: bool)
      requires pc == Cleanup(role)
      modifies this, queue
      ensures queue == old(queue) || fresh(queue)
      ensures Abs() == AfterCleanup(old(Abs()), role, holdsMore, resetOk)
      ensures role.submitter || role.preconfer ==> ok && queue.proposals == old(queue.proposals) && verifier == old(verifier)
      ensures !role.submitter && !role.preconfer ==>
                && ok == (resetOk || (old(queue.proposals) == [] && !holdsMore))
                && (ok ==> queue.proposals == [] && !verifier)
                && (!ok ==> queue.proposals == old(queue.proposals) && verifier == old(verifier))
    {
      ok := true;
      if !role.submitter && !role.preconfer {
        if queue.proposals != [] || holdsMore {
          if resetOk {
            ResetBuilder([]);
          } else {
            ok := false;
          }
        }
        if ok {
          verifier := false;
        }
      }
      pc := Top;
    }

    // Settles, starts and preconfirms; `None` after an early return.
    method Preconfirmation(role: Role, env: Replies) returns (inProgress: Option<bool>)
      requires pc == ReadProgress(role)
      modifies this, queue
      ensures queue == old(queue) || fresh(queue)
      ensures Does(cfg, env, old(Abs()), Abs())
      ensures pc == if inProgress.None? then Top else Verify(role, inProgress.value)
    {
      inProgress := SettlePending(role, env);
      if inProgress.None? {
        return;
      }
      ghost var s := Abs();
      var ok := StartPreconfirmation(role, inProgress.value, env);
      DoesThen(cfg, env, old(Abs()), s, Abs());
      if !ok {
        return None;
      }
      s := Abs();
      ok := PreconfirmBlock(role, inProgress.value, env);
      DoesThen(cfg, env, old(Abs()), s, Abs());
      if !ok {
        return None;
      }
    }

    // Verifies, submits and cleans up.
    method Submission(role: Role, busy: bool, env: Replies) returns (ok: bool)
      requires pc == Verify(role, busy)
      modifies this, queue
      ensures queue == old(queue) || fresh(queue)
      ensures Does(cfg, env, old(Abs()), Abs()) && pc == Top
    {
      var submit := HasVerifiedUnsentProposals(role, busy, env);
      if submit.None? {
        return false;
      }
      ghost var s := Abs();
      if submit.value {
        ok := TrySubmitOldestProposal(role, env);
        DoesThen(cfg, env, old(Abs()), s, Abs());
        if !ok {
          return;
        }
      }
      s := Abs();
      ok := CleanUp(role, env);
      DoesThen(cfg, env, old(Abs()), s, Abs());
    }

    // One heartbeat: every path is a run of the protocol that ends at the top of the loop.
    method MainBlockPreconfirmationStep(env: Replies) returns (ok: bool)
      requires pc == AskStatus
      modifies this, queue
      ensures queue == old(queue) || fresh(queue)
      ensures Does(cfg, env, old(Abs()), Abs()) && pc == Top
    {
      ghost var s := Abs();
      DoesNothing(cfg, env, s);
      if env.status.None? {
        pc := Top;
        DoesStep(cfg, env, s, s, StatusErr);
        assert Abs() == Next(cfg, s, StatusErr).value;
        return false;
      }
      var role := env.status.value;
      pc := ReadProgress(role);
      DoesStep(cfg, env, s, s, StatusIs(role));
      assert Abs() == Next(cfg, s, StatusIs(role)).value;

      s := Abs();
      var busy := Preconfirmation(role, env);
      DoesThen(cfg, env, old(Abs()), s, Abs());
      if busy.None? {
        return false;
      }
      s := Abs();
      ok := Submission(role, busy.value, env);
      DoesThen(cfg, env, old(Abs()), s, Abs());
    }

    // The loop leaves at the first heartbeat that finds the token cancelled.
    method PreconfirmationLoop(beats: seq<Replies>)
      requires pc == Top
      modifies this, queue
      ensures pc == Top || (pc == Stopped && cancelled)
      ensures exists n :: 0 <= n <= |beats| && (pc == Top ==> n == |beats|) && Loops(cfg, beats[..n], old(Abs()), Abs())
      ensures old(Reachable(cfg, Abs())) ==> Reachable(cfg, Abs()) && Inv(cfg, Abs())
    {
      for i := 0 to |beats|
        invariant queue == old(queue) || fresh(queue)
        invariant pc == Top && Loops(cfg, beats[..i], old(Abs()), Abs())
        invariant old(Reachable(cfg, Abs())) ==> Reachable(cfg, Abs())
      {
        assert beats[..i + 1][..i] == beats[..i];
        var goesOn := OneBeat(beats[i]);
        assert Loops(cfg, beats[..i + 1], old(Abs()), Abs());
        if !goesOn {
          if old(Reachable(cfg, Abs())) {
            ReachableInv(cfg, Abs());
          }
          return;
        }
      }
      assert beats[..|beats|] == beats;
      if old(Reachable(cfg, Abs())) {
        ReachableInv(cfg, Abs());
      }
    }

    method OneBeat(env: Replies) returns (goesOn: bool)
      requires pc == Top
      modifies this, queue
      ensures queue == old(queue) || fresh(queue)
      ensures Beat(cfg, env, old(Abs()), Abs())
      ensures pc == if goesOn then Top else Stopped
      ensures pc == Stopped ==> cancelled
      ensures old(Reachable(cfg, Abs())) ==> Reachable(cfg, Abs())
    {
      Interleave(env);
      ghost var m := Abs();
      goesOn := !cancelled;
      pc := if cancelled then Stopped else AskStatus;
      ghost var u := Abs();
      if goesOn {
        var _ := MainBlockPreconfirmationStep(env);
      }
      if old(Reachable(cfg, Abs())) {
        DoesReaches(cfg, env, INITIAL, old(Abs()), m);
        assert Next(cfg, m, Tick) == Some(u);
        ReachesStep(cfg, INITIAL, m, Tick);
        if goesOn {
          DoesReaches(cfg, env, INITIAL, u, Abs());
        }
      }
    }
  }
}
