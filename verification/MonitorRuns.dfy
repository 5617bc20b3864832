/** What the log of a finished monitor task says, over all requests and all replies. */
module MonitorRuns {
  import opened Wrappers
  import opened TransactionMonitors

  // The log of a task that is finished after these replies.
  function TaskLog(cfg: MonitorConfig, tx: TransactionRequest, replies: seq<Reply>): Option<seq<Event>> {
    var t := Task(cfg, tx, replies, 0);
    if t.verdict.None? then None
    else Some(SendEvents(cfg.nonce, Tuned(cfg, tx.fees), t.sent) + t.verdict.value.Events()
              + [Delivered(t.verdict.value.Reported())])
  }

  ghost predicate ErrorFree(cfg: MonitorConfig, tx: TransactionRequest, replies: seq<Reply>) {
    TaskLog(cfg, tx, replies).Some? && ErrorsIn(TaskLog(cfg, tx, replies).value) == []
  }

  // An event of the log says that a sent hash was seen included.
  ghost predicate ShowsInclusion(cfg: MonitorConfig, tx: TransactionRequest, replies: seq<Reply>) {
    TaskLog(cfg, tx, replies).Some? &&
    exists h :: h in Task(cfg, tx, replies, 0).sent
                && (Receipt(h) in TaskLog(cfg, tx, replies).value || Found(h) in TaskLog(cfg, tx, replies).value)
  }

  ghost predicate DeliversTrue(cfg: MonitorConfig, tx: TransactionRequest, replies: seq<Reply>) {
    TaskLog(cfg, tx, replies).Some? && ResultsIn(TaskLog(cfg, tx, replies).value) == [true]
  }

  lemma {:induction false} SendsShowNothing(nonce: nat, first: Fees, sent: seq<nat>, h: nat)
    ensures Receipt(h) !in SendEvents(nonce, first, sent) && Found(h) !in SendEvents(nonce, first, sent)
  {
    if sent != [] {
      SendsShowNothing(nonce, first, sent[..|sent| - 1], h);
    }
  }

  // The three readings of a log, by the verdict of its task.
  lemma LogReads(cfg: MonitorConfig, tx: TransactionRequest, replies: seq<Reply>)
    requires TaskLog(cfg, tx, replies).Some?
    ensures var v := Task(cfg, tx, replies, 0).verdict.value;
            && (ErrorFree(cfg, tx, replies) <==> !v.Failed?)
            && (DeliversTrue(cfg, tx, replies) <==> v.Reported())
            && (ShowsInclusion(cfg, tx, replies) <==> v.Included())
  {
    var t := Task(cfg, tx, replies, 0);
    FinishedTaskSignals(cfg, Tuned(cfg, tx.fees), t.sent, t.verdict.value);
    InclusionReads(cfg, tx, replies);
  }

  lemma InclusionReads(cfg: MonitorConfig, tx: TransactionRequest, replies: seq<Reply>)
    requires TaskLog(cfg, tx, replies).Some?
    ensures ShowsInclusion(cfg, tx, replies) <==> Task(cfg, tx, replies, 0).verdict.value.Included()
  {
    var t := Task(cfg, tx, replies, 0);
    var v, log := t.verdict.value, TaskLog(cfg, tx, replies).value;
    forall h ensures Receipt(h) in log || Found(h) in log <==> Receipt(h) in v.Events() || Found(h) in v.Events() {
      SendsShowNothing(cfg.nonce, Tuned(cfg, tx.fees), t.sent, h);
    }
    if v.Included() {
      assert v.Events() == [if v.SeenReceipt? then Receipt(v.hash) else Found(v.hash)];
      assert Receipt(v.hash) in v.Events() || Found(v.hash) in v.Events();
    }
  }

  const SUPPORTED := TransactionRequest(true, Fees(0, 0, None))

  /** Over all requests and replies: no error means included, exactly when the task cannot give up in silence. */
  lemma SilenceMeansIncludedIff(cfg: MonitorConfig)
    ensures (forall tx, replies :: ErrorFree(cfg, tx, replies) ==> ShowsInclusion(cfg, tx, replies))
            <==> !MayGiveUpSilently(cfg)
  {
    if MayGiveUpSilently(cfg) {
      assert Task(cfg, SUPPORTED, [], 0).verdict == Some(GaveUpSilently);
      LogReads(cfg, SUPPORTED, []);
      assert ErrorFree(cfg, SUPPORTED, []) && !ShowsInclusion(cfg, SUPPORTED, []);
    } else {
      forall tx, replies | ErrorFree(cfg, tx, replies) ensures ShowsInclusion(cfg, tx, replies) {
        LogReads(cfg, tx, replies);
      }
    }
  }

  // ---------- when the submitter is told something else ----------

  function Answer(block: nat, send: SendReply, inBlock: bool): Reply {
    Reply(Some(block), send, WatcherTimeout, inBlock, false)
  }

  /**
   The first attempt is sent as hash 7 and times out; a block later the replacement is refused with
   "nonce too low", and hash 7 is found in a block.
   */
  const REFUSED_REPLACEMENT := [
    Answer(0, TransportFailure, false),
    Answer(0, Accepted(7), false),
    Answer(0, TransportFailure, false),
    Answer(1, TransportFailure, false),
    Answer(1, TransportFailure, false),
    Answer(1, TransportFailure, false),
    Answer(1, Refused(true, None), false),
    Answer(1, TransportFailure, true)]

  lemma FirstAttemptTimesOut()
    ensures SendOnce(REFUSED_REPLACEMENT, 0, []) == Sending(4, [7], 0, None, true)
  {
    var r := REFUSED_REPLACEMENT;
    assert CheckFirst(r, 0, []) == Sending(1, [], 0, None, true);
    assert [] + [7] == [7];
    assert ReceiptWatch(r, 2, 7, [7]) == Watch(3, None, true);
    assert BlockWatch(r, 2, 7, 0, [7]) == Watch(4, None, true);
  }

  lemma ReplacementIsRefused()
    ensures SendOnce(REFUSED_REPLACEMENT, 4, [7]) == Sending(8, [7], 1, Some(SeenAfterRefusal(7)), true)
  {
    var r := REFUSED_REPLACEMENT;
    assert [7][1..] == [];
    assert Inclusion(r, 5, [7]) == Search(6, None, true);
    assert CheckFirst(r, 4, [7]) == Sending(6, [7], 1, None, true);
    assert Inclusion(r, 7, [7]) == Search(8, Some(7), true);
  }

  lemma RefusedReplacementIsSilent(cfg: MonitorConfig)
    requires cfg.maxSend >= 2
    ensures ErrorFree(cfg, SUPPORTED, REFUSED_REPLACEMENT) && ShowsInclusion(cfg, SUPPORTED, REFUSED_REPLACEMENT)
    ensures !DeliversTrue(cfg, SUPPORTED, REFUSED_REPLACEMENT)
  {
    FirstAttemptTimesOut();
    ReplacementIsRefused();
    assert Attempts(cfg, REFUSED_REPLACEMENT, 4, [7], 0) == SendOnce(REFUSED_REPLACEMENT, 4, [7]);
    LogReads(cfg, SUPPORTED, REFUSED_REPLACEMENT);
  }

  /**
   Over all requests and replies: a task that sends no error delivers true, exactly when at most one
   send is configured (no earlier hash to find) and the task cannot give up in silence.
   */
  lemma ErrorFreeDeliversTrueIff(cfg: MonitorConfig)
    ensures (forall tx, replies :: ErrorFree(cfg, tx, replies) ==> DeliversTrue(cfg, tx, replies))
            <==> cfg.maxSend <= 1 && !MayGiveUpSilently(cfg)
  {
    if cfg.maxSend >= 2 {
      RefusedReplacementIsSilent(cfg);
    } else if MayGiveUpSilently(cfg) {
      LogReads(cfg, SUPPORTED, []);
      assert ErrorFree(cfg, SUPPORTED, []) && !DeliversTrue(cfg, SUPPORTED, []);
    } else {
      forall tx, replies | ErrorFree(cfg, tx, replies) ensures DeliversTrue(cfg, tx, replies) {
        LogReads(cfg, tx, replies);
        var v := Task(cfg, tx, replies, 0).verdict.value;
        assert !v.SeenAfterRefusal?;
      }
    }
  }

  // A true result always goes with a sent hash seen included and no error.
  lemma TrueMeansIncluded(cfg: MonitorConfig, tx: TransactionRequest, replies: seq<Reply>)
    requires DeliversTrue(cfg, tx, replies)
    ensures ErrorFree(cfg, tx, replies) && ShowsInclusion(cfg, tx, replies)
  {
    LogReads(cfg, tx, replies);
  }

  // ---------- included, but reverted ----------

  // A successful receipt, or a hash in a block whose transaction did not revert.
  predicate Succeeded(cfg: MonitorConfig, tx: TransactionRequest, replies: seq<Reply>) {
    var t := Task(cfg, tx, replies, 0);
    && t.verdict.Some? && t.verdict.value.Included()
    && (t.verdict.value.SeenReceipt? || (0 < t.pos <= |replies| && !replies[t.pos - 1].reverted))
  }

  // The first attempt is sent, its watcher fails, and the transaction is found in a block, reverted.
  const REVERTED_IN_BLOCK := [
    Answer(0, TransportFailure, false),
    Answer(0, Accepted(7), false),
    Reply(Some(0), TransportFailure, WatcherFailure, false, false),
    Reply(Some(0), TransportFailure, WatcherTimeout, true, true)]

  lemma RevertedIsFound()
    ensures SendOnce(REVERTED_IN_BLOCK, 0, []) == Sending(4, [7], 0, Some(SeenInBlock(7)), true)
  {
    var r := REVERTED_IN_BLOCK;
    assert CheckFirst(r, 0, []) == Sending(1, [], 0, None, true);
    assert [] + [7] == [7];
    assert Inclusion(r, 3, [7]) == Search(4, Some(7), true);
    assert ReceiptWatch(r, 2, 7, [7]) == Watch(4, Some(SeenInBlock(7)), true);
    assert BlockWatch(r, 2, 7, 0, [7]) == Watch(4, Some(SeenInBlock(7)), true);
  }

  lemma RevertedIsSilent(cfg: MonitorConfig)
    requires cfg.maxSend >= 1
    ensures ErrorFree(cfg, SUPPORTED, REVERTED_IN_BLOCK) && DeliversTrue(cfg, SUPPORTED, REVERTED_IN_BLOCK)
    ensures !Succeeded(cfg, SUPPORTED, REVERTED_IN_BLOCK)
  {
    RevertedIsFound();
    assert Attempts(cfg, REVERTED_IN_BLOCK, 0, [], 0) == SendOnce(REVERTED_IN_BLOCK, 0, []);
    LogReads(cfg, SUPPORTED, REVERTED_IN_BLOCK);
  }

  /**
   Over all requests and replies: a task that sends no error succeeded, exactly for the configurations in
   which no task ends without an error. As soon as anything is sent, a reverted transaction passes.
   */
  lemma ErrorFreeSucceedsIff(cfg: MonitorConfig)
    ensures (forall tx, replies :: ErrorFree(cfg, tx, replies) ==> Succeeded(cfg, tx, replies))
            <==> cfg.maxSend == 0 && cfg.maxWait == 0
    ensures (forall tx, replies :: !ErrorFree(cfg, tx, replies)) <==> cfg.maxSend == 0 && cfg.maxWait == 0
  {
    if cfg.maxSend >= 1 {
      RevertedIsSilent(cfg);
    } else if cfg.maxWait >= 1 {
      LogReads(cfg, SUPPORTED, []);
      assert ErrorFree(cfg, SUPPORTED, []) && !Succeeded(cfg, SUPPORTED, []);
    } else {
      forall tx, replies ensures !ErrorFree(cfg, tx, replies) {
        if TaskLog(cfg, tx, replies).Some? {
          LogReads(cfg, tx, replies);
        }
      }
    }
  }

  // An error-free task that a receipt ended did succeed.
  lemma ReceiptMeansSuccess(cfg: MonitorConfig, tx: TransactionRequest, replies: seq<Reply>, h: nat)
    requires TaskLog(cfg, tx, replies).Some? && Receipt(h) in TaskLog(cfg, tx, replies).value
    ensures Succeeded(cfg, tx, replies)
  {
    var t := Task(cfg, tx, replies, 0);
    SendsShowNothing(cfg.nonce, Tuned(cfg, tx.fees), t.sent, h);
    assert Receipt(h) in t.verdict.value.Events();
  }
}
