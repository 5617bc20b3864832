/**
 When a task gives up, stated on the replies alone: every attempt was accepted and outlived its
 block, and then exactly the configured number of new blocks came and went without any hash.
 */
module MonitorRounds {
  import opened Wrappers
  import opened TransactionMonitors

  // With n hashes out and none of them found, another transaction is accepted and outlives block c.
  ghost predicate Attempt(replies: seq<Reply>, p: nat, q: nat, n: nat, hash: nat, c: nat) {
    && p < |replies| && replies[p].blockNumber == Some(c)
    && Missing(replies, p + 1, n)
    && p + 1 + n < |replies| && replies[p + 1 + n].send == Accepted(hash)
    && NewBlock(replies, p + 2 + n, q, n + 1, c)
  }

  // Attempt i sends hashes[i] at blocks[i] and reads the replies between marks i and i + 1.
  ghost predicate Tried(replies: seq<Reply>, marks: seq<nat>, hashes: seq<nat>, blocks: seq<nat>) {
    && |marks| == |hashes| + 1 && |blocks| == |hashes|
    && forall i :: 0 <= i < |hashes| ==> Attempt(replies, marks[i], marks[i + 1], i, hashes[i], blocks[i])
  }

  // All sends were tried and the last block was waited out; with nothing to send nothing is waited for.
  ghost predicate RanOut(cfg: MonitorConfig, replies: seq<Reply>, q: nat, marks: seq<nat>, hashes: seq<nat>,
                         blocks: seq<nat>) {
    && Tried(replies, marks, hashes, blocks) && |hashes| == cfg.maxSend
    && if hashes == [] then q == marks[0] && cfg.maxWait == 0
       else Waited(replies, marks[|hashes|], q, |hashes|, blocks[|hashes| - 1], cfg.maxWait)
  }

  /**
   No reply carries this error as the reason of a refusal or a revert. Of `NotConfirmed` that always
   holds: the reasons the source reads out of a reply do not include it.
   */
  ghost predicate NoneReports(replies: seq<Reply>, e: TransactionError) {
    forall i :: 0 <= i < |replies| ==> !Shows(replies[i], Failed(e))
  }

  // ---------- one attempt ----------

  lemma CheckedFirst(replies: seq<Reply>, pos: nat, sent: seq<nat>)
    ensures var c := CheckFirst(replies, pos, sent);
            && (c.done && c.verdict.None? <==>
                  pos < |replies| && replies[pos].blockNumber.Some? && Missing(replies, pos + 1, |sent|))
            && (c.done && c.verdict.None? ==> c.pos == pos + 1 + |sent| && replies[pos].blockNumber == Some(c.block))
  {
    InclusionMisses(replies, pos + 1, sent);
  }

  lemma AttemptIff(replies: seq<Reply>, pos: nat, q: nat, sent: seq<nat>, hash: nat, c: nat)
    ensures SendOnce(replies, pos, sent) == Sending(q, sent + [hash], c, None, true)
            <==> Attempt(replies, pos, q, |sent|, hash, c)
  {
    CheckedFirst(replies, pos, sent);
    var f := CheckFirst(replies, pos, sent);
    if f.done && f.verdict.None? && f.pos < |replies| && replies[f.pos].send.Accepted? {
      var h := replies[f.pos].send.hash;
      NewBlockIff(replies, f.pos + 1, q, h, f.block, sent + [h]);
      assert (sent + [h])[|sent|] == h && (sent + [hash])[|sent|] == hash;
    }
  }

  function BlockAfter(blocks: seq<nat>): nat {
    if blocks == [] then 0 else blocks[|blocks| - 1]
  }

  lemma TriedStep(cfg: MonitorConfig, replies: seq<Reply>, marks: seq<nat>, hashes: seq<nat>, blocks: seq<nat>, k: nat)
    requires Tried(replies, marks, hashes, blocks) && k < |hashes| <= cfg.maxSend
    ensures Attempts(cfg, replies, marks[k], hashes[..k], BlockAfter(blocks[..k]))
            == Attempts(cfg, replies, marks[k + 1], hashes[..k + 1], BlockAfter(blocks[..k + 1]))
  {
    AttemptIff(replies, marks[k], marks[k + 1], hashes[..k], hashes[k], blocks[k]);
    assert hashes[..k] + [hashes[k]] == hashes[..k + 1];
    OneAttempt(cfg, replies, marks[k], hashes[..k], BlockAfter(blocks[..k]), marks[k + 1], hashes[..k + 1], blocks[k]);
  }

  lemma {:induction false} AllEqual(values: seq<Sending>)
    requires values != [] && forall j :: 0 < j < |values| ==> values[j - 1] == values[j]
    ensures values[0] == values[|values| - 1]
  {
    if |values| > 1 {
      AllEqual(values[..|values| - 1]);
    }
  }

  // Attempts in the replies are attempts of the task.
  lemma TriedIsAttempts(cfg: MonitorConfig, replies: seq<Reply>, marks: seq<nat>, hashes: seq<nat>, blocks: seq<nat>)
    requires Tried(replies, marks, hashes, blocks) && |hashes| <= cfg.maxSend
    ensures Attempts(cfg, replies, marks[0], [], 0)
            == Attempts(cfg, replies, marks[|hashes|], hashes, BlockAfter(blocks))
  {
    var n := |hashes|;
    var values := seq(n + 1, j requires 0 <= j <= n =>
                  Attempts(cfg, replies, marks[j], hashes[..j], BlockAfter(blocks[..j])));
    forall j | 0 < j <= n ensures values[j - 1] == values[j] {
      TriedStep(cfg, replies, marks, hashes, blocks, j - 1);
    }
    AllEqual(values);
    assert hashes[..n] == hashes && blocks[..n] == blocks && hashes[..0] == [];
  }

  lemma OneAttempt(cfg: MonitorConfig, replies: seq<Reply>, p: nat, sent: seq<nat>, block: nat, q: nat, more: seq<nat>,
                   c: nat)
    requires |sent| < cfg.maxSend && |more| == |sent| + 1 && SendOnce(replies, p, sent) == Sending(q, more, c, None, true)
    ensures Attempts(cfg, replies, p, sent, block) == Attempts(cfg, replies, q, more, c)
  {
  }

  // ---------- giving up ----------

  lemma RanOutGivesUp(cfg: MonitorConfig, tx: TransactionRequest, replies: seq<Reply>, q: nat, marks: seq<nat>,
                      hashes: seq<nat>, blocks: seq<nat>)
    requires tx.supported && RanOut(cfg, replies, q, marks, hashes, blocks)
    ensures Task(cfg, tx, replies, marks[0]) == Sending(q, hashes, BlockAfter(blocks), Some(Failed(NotConfirmed)), true)
  {
    TriedIsAttempts(cfg, replies, marks, hashes, blocks);
    if hashes != [] {
      var waits: seq<nat> :| && |waits| == cfg.maxWait + 1 && waits[0] == marks[|hashes|] && waits[cfg.maxWait] == q
                             && Rounds(replies, waits, |hashes|, blocks[|hashes| - 1]);
      RoundsOfWaits(cfg, replies, waits, hashes, blocks[|hashes| - 1]);
    }
  }

  lemma {:induction false} BlockWatchHonest(replies: seq<Reply>, pos: nat, hash: nat, block: nat, sent: seq<nat>)
    requires hash in sent && NoneReports(replies, NotConfirmed)
    ensures BlockWatch(replies, pos, hash, block, sent).verdict != Some(Failed(NotConfirmed))
    decreases |replies| - pos
  {
    if pos < |replies| {
      assert !Shows(replies[pos], Failed(NotConfirmed));
      var w := ReceiptWatch(replies, pos, hash, sent);
      if w.done && w.verdict.None? && w.pos < |replies| && replies[w.pos].blockNumber == Some(block) {
        BlockWatchHonest(replies, w.pos + 1, hash, block, sent);
      }
    }
  }

  lemma SendOnceHonest(replies: seq<Reply>, pos: nat, sent: seq<nat>)
    requires NoneReports(replies, NotConfirmed)
    ensures SendOnce(replies, pos, sent).verdict != Some(Failed(NotConfirmed))
  {
    var c := CheckFirst(replies, pos, sent);
    if c.done && c.verdict.None? && c.pos < |replies| {
      assert !Shows(replies[c.pos], Failed(NotConfirmed));
      if replies[c.pos].send.Accepted? {
        var h := replies[c.pos].send.hash;
        BlockWatchHonest(replies, c.pos + 1, h, c.block, sent + [h]);
      }
    }
  }

  // Giving up after some rounds needs the rest of them.
  lemma {:induction false} WaitsOut(cfg: MonitorConfig, replies: seq<Reply>, marks: seq<nat>, sent: seq<nat>, block: nat)
    requires sent != [] && 0 < |marks| <= cfg.maxWait + 1 && Rounds(replies, marks, |sent|, block)
    requires NoneReports(replies, NotConfirmed)
    requires Waits(cfg, replies, marks[|marks| - 1], sent, block, |marks| - 1).verdict == Some(Failed(NotConfirmed))
    ensures Waited(replies, marks[0], Waits(cfg, replies, marks[|marks| - 1], sent, block, |marks| - 1).pos,
                   |sent|, block, cfg.maxWait)
    decreases cfg.maxWait + 1 - |marks|
  {
    var k, p := |marks| - 1, marks[|marks| - 1];
    if k == cfg.maxWait {
      assert Rounds(replies, marks, |sent|, block);
    } else {
      var q := RoundOrVerdict(cfg, replies, p, sent, block, k);
      WaitsOut(cfg, replies, marks + [q], sent, block);
    }
  }

  lemma RoundOrVerdict(cfg: MonitorConfig, replies: seq<Reply>, p: nat, sent: seq<nat>, block: nat, n: nat) returns (q: nat)
    requires sent != [] && n < cfg.maxWait && NoneReports(replies, NotConfirmed)
    requires Waits(cfg, replies, p, sent, block, n).verdict == Some(Failed(NotConfirmed))
    ensures Round(replies, p, q, |sent|, block)
    ensures Waits(cfg, replies, p, sent, block, n) == Waits(cfg, replies, q, sent, block, n + 1)
  {
    var hash := sent[|sent| - 1];
    BlockWatchHonest(replies, p, hash, block, sent);
    var w := BlockWatch(replies, p, hash, block, sent);
    NewBlockIff(replies, p, w.pos, hash, block, sent);
    InclusionMisses(replies, w.pos, sent);
    q := Inclusion(replies, w.pos, sent).pos;
  }

  lemma {:induction false} AttemptsRunOut(cfg: MonitorConfig, replies: seq<Reply>, marks: seq<nat>, hashes: seq<nat>,
                                          blocks: seq<nat>) returns (ms: seq<nat>, hs: seq<nat>, bs: seq<nat>)
    requires Tried(replies, marks, hashes, blocks) && |hashes| <= cfg.maxSend && NoneReports(replies, NotConfirmed)
    requires Attempts(cfg, replies, marks[|hashes|], hashes, BlockAfter(blocks)).verdict == Some(Failed(NotConfirmed))
    ensures var t := Attempts(cfg, replies, marks[|hashes|], hashes, BlockAfter(blocks));
            hs == t.sent && RanOut(cfg, replies, t.pos, ms, hs, bs) && ms[0] == marks[0]
    decreases cfg.maxSend - |hashes|
  {
    var p := marks[|hashes|];
    if |hashes| == cfg.maxSend {
      ms, hs, bs := marks, hashes, blocks;
      if hashes != [] {
        WaitsOut(cfg, replies, [p], hashes, BlockAfter(blocks));
      }
    } else {
      SendOnceHonest(replies, p, hashes);
      var s := SendOnce(replies, p, hashes);
      SentOneMore(replies, p, hashes);
      AttemptIff(replies, p, s.pos, hashes, s.sent[|hashes|], s.block);
      TriedOneMore(replies, marks, hashes, blocks, s.pos, s.sent[|hashes|], s.block);
      OneAttempt(cfg, replies, p, hashes, BlockAfter(blocks), s.pos, s.sent, s.block);
      ms, hs, bs := AttemptsRunOut(cfg, replies, marks + [s.pos], s.sent, blocks + [s.block]);
    }
  }

  lemma SentOneMore(replies: seq<Reply>, pos: nat, sent: seq<nat>)
    requires SendOnce(replies, pos, sent).done && SendOnce(replies, pos, sent).verdict.None?
    ensures var s := SendOnce(replies, pos, sent); s.sent == sent + [s.sent[|sent|]]
  {
  }

  lemma TriedOneMore(replies: seq<Reply>, marks: seq<nat>, hashes: seq<nat>, blocks: seq<nat>, q: nat, hash: nat, c: nat)
    requires Tried(replies, marks, hashes, blocks) && Attempt(replies, marks[|hashes|], q, |hashes|, hash, c)
    ensures Tried(replies, marks + [q], hashes + [hash], blocks + [c])
  {
  }

  /**
   A supported task reports that its transaction was not confirmed exactly when the replies are:
   every allowed send accepted, each followed by a new block, and then exactly `maxWait` further
   rounds of a new block and one failed lookup per hash.
   */
  lemma NotConfirmedIff(cfg: MonitorConfig, tx: TransactionRequest, replies: seq<Reply>, pos: nat)
    requires tx.supported && NoneReports(replies, NotConfirmed)
    ensures Task(cfg, tx, replies, pos).verdict == Some(Failed(NotConfirmed))
            <==> exists q, marks, hashes, blocks :: RanOut(cfg, replies, q, marks, hashes, blocks) && marks[0] == pos
  {
    if Task(cfg, tx, replies, pos).verdict == Some(Failed(NotConfirmed)) {
      var marks, hashes, blocks := AttemptsRunOut(cfg, replies, [pos], [], []);
      assert RanOut(cfg, replies, Task(cfg, tx, replies, pos).pos, marks, hashes, blocks);
    }
    if q, marks, hashes, blocks :| RanOut(cfg, replies, q, marks, hashes, blocks) && marks[0] == pos {
      RanOutGivesUp(cfg, tx, replies, q, marks, hashes, blocks);
    }
  }

  // ---------- a receipt that comes after a wait ----------

  function Told(block: nat, send: SendReply, receipt: ReceiptReply): Reply {
    Reply(Some(block), send, receipt, false, false)
  }

  // Accepted at block 0, timed out until block 1, timed out again, not found, then a receipt.
  const LATE_RECEIPT := [
    Told(0, TransportFailure, WatcherTimeout),
    Told(0, Accepted(7), WatcherTimeout),
    Told(0, TransportFailure, WatcherTimeout),
    Told(1, TransportFailure, WatcherTimeout),
    Told(0, TransportFailure, WatcherTimeout),
    Told(1, TransportFailure, WatcherTimeout),
    Told(0, TransportFailure, WatcherTimeout),
    Told(0, TransportFailure, Success)]

  lemma LateReceiptFirstRound()
    ensures Tried(LATE_RECEIPT, [0, 4], [7], [0]) && Rounds(LATE_RECEIPT, [4, 7], 1, 0)
  {
    assert NewBlock(LATE_RECEIPT, 2, 4, 1, 0);
    assert NewBlock(LATE_RECEIPT, 4, 6, 1, 0) && Missing(LATE_RECEIPT, 6, 1);
    assert Round(LATE_RECEIPT, 4, 7, 1, 0);
  }

  // With more than one wait allowed, a receipt after the first round is still seen.
  lemma LateReceiptIsSeen(cfg: MonitorConfig, tx: TransactionRequest)
    requires tx.supported && cfg.maxSend == 1 && cfg.maxWait >= 2
    ensures Task(cfg, tx, LATE_RECEIPT, 0).verdict == Some(SeenReceipt(7))
  {
    LateReceiptFirstRound();
    TriedIsAttempts(cfg, LATE_RECEIPT, [0, 4], [7], [0]);
    RoundsOfWaits(cfg, LATE_RECEIPT, [4, 7], [7], 0);
    assert BlockWatch(LATE_RECEIPT, 7, 7, 0, [7]) == Watch(8, Some(SeenReceipt(7)), true);
  }
}
