/**
 The spawned task that sends one L1 transaction, replaces it with doubled fees and
 waits for it. RPC replies are an arbitrary sequence: call number i of the task reads
 the field it needs from replies[i], and a task whose replies run out is still waiting.
 */
module TransactionMonitors {
  import opened Wrappers
  import opened Arithmetic

  datatype TransactionError =
    | BuildFailed
    | EstimationFailed
    | EstimationTooEarly
    | TransactionReverted
    | NotConfirmed
    | UnsupportedTransactionType
    | GetBlockNumberFailed
    | InsufficientFunds
    | ReanchorRequired
    | OldestForcedInclusionDue
    | NotTheOperatorInCurrentEpoch

  // ---------- fees ----------

  datatype Fees = Fees(maxFee: nat, priority: nat, blob: Option<nat>)

  datatype MonitorConfig = MonitorConfig(
    nonce: nat,
    minPriority: nat,
    increasePercent: nat,
    maxSend: nat,
    maxWait: nat)

  function Double(f: Fees): Fees {
    Fees(f.maxFee + f.maxFee, f.priority + f.priority, if f.blob.Some? then Some(f.blob.value + f.blob.value) else None)
  }

  // Fees of the first attempt.
  function Tuned(cfg: MonitorConfig, f: Fees): Fees {
    var priority := f.priority + f.priority * cfg.increasePercent / 100;
    var lift := SaturatingSub(cfg.minPriority, priority);
    Fees(f.maxFee * 2 + lift, priority + lift, if f.blob.Some? then Some(f.blob.value * 2) else None)
  }

  // The caps are doubled; a tip below the minimum after the raise is lifted to it, and the fee cap by as much.
  lemma TunedFees(cfg: MonitorConfig, f: Fees)
    ensures var t, raised := Tuned(cfg, f), f.priority + f.priority * cfg.increasePercent / 100;
            && t.blob.Some? == f.blob.Some? && (f.blob.Some? ==> t.blob.value == f.blob.value + f.blob.value)
            && t.priority >= cfg.minPriority && t.priority >= raised && (t.priority == cfg.minPriority || t.priority == raised)
            && t.maxFee - t.priority == f.maxFee + f.maxFee - raised
  {
  }

  function Times(f: Fees, k: nat): Fees {
    Fees(f.maxFee * k, f.priority * k, if f.blob.Some? then Some(f.blob.value * k) else None)
  }

  lemma DoubleTimes(f: Fees, k: nat)
    ensures Double(Times(f, Pow2(k))) == Times(f, Pow2(k + 1))
  {
    MulDouble(f.maxFee, Pow2(k));
    MulDouble(f.priority, Pow2(k));
    if f.blob.Some? {
      MulDouble(f.blob.value, Pow2(k));
    }
  }

  // Every attempt offers at least the configured tip.
  lemma TipNeverBelowMinimum(cfg: MonitorConfig, f: Fees, attempt: nat)
    ensures Times(Tuned(cfg, f), Pow2(attempt)).priority >= cfg.minPriority
  {
    MulMonotone(1, Pow2(attempt), Tuned(cfg, f).priority);
  }

  // max_priority_fee_per_gas <= max_fee_per_gas, as section "Specification" of EIP-1559 requires of a transaction.
  predicate TipWithinCap(f: Fees) {
    f.priority <= f.maxFee
  }

  lemma TuningKeepsCap(cfg: MonitorConfig, f: Fees, attempt: nat)
    requires cfg.increasePercent <= 100 && TipWithinCap(f)
    ensures TipWithinCap(Times(Tuned(cfg, f), Pow2(attempt)))
  {
    MulMonotone(cfg.increasePercent, 100, f.priority);
    assert f.priority * cfg.increasePercent / 100 <= f.priority;
    MulMonotone(Tuned(cfg, f).priority, Tuned(cfg, f).maxFee, Pow2(attempt));
  }

  // Attempts stay within the cap for every admissible request exactly when the increase is at most 100 percent.
  lemma CapKeptIffAtMostDoubled(cfg: MonitorConfig)
    ensures (forall f: Fees, attempt: nat :: TipWithinCap(f) ==> TipWithinCap(Times(Tuned(cfg, f), Pow2(attempt))))
            <==> cfg.increasePercent <= 100
  {
    if cfg.increasePercent <= 100 {
      forall f: Fees, attempt: nat | TipWithinCap(f)
        ensures TipWithinCap(Times(Tuned(cfg, f), Pow2(attempt)))
      {
        TuningKeepsCap(cfg, f, attempt);
      }
    } else {
      var f := Fees(100, 100, None);
      assert TipWithinCap(f);
      assert 100 * cfg.increasePercent / 100 == cfg.increasePercent;
      assert !TipWithinCap(Times(Tuned(cfg, f), Pow2(0)));
    }
  }

  // ---------- what the task is asked and told ----------

  datatype TransactionRequest = TransactionRequest(supported: bool, fees: Fees)

  // An error reply to `send_transaction`: the node's own message, or a transport failure.
  datatype SendReply =
    | Accepted(hash: nat)
    | Refused(nonceTooLow: bool, payload: Option<TransactionError>)
    | TransportFailure

  datatype ReceiptReply =
    | Success
    | Reverted(payload: Option<TransactionError>)
    | WatcherTimeout
    | WatcherFailure

  // `reverted` is the status of a transaction found in a block, which the source does not look at.
  datatype Reply = Reply(
    blockNumber: Option<nat>,
    send: SendReply,
    receipt: ReceiptReply,
    inBlock: bool,
    reverted: bool)

  // ---------- what the outside sees of a task ----------

  datatype Event =
    | Sent(attempt: nat, nonce: nat, fees: Fees, hash: nat)
    | FirstHash(hash: nat)
    | Receipt(hash: nat)
    | Found(hash: nat)
    | Signal(error: TransactionError)
    | Delivered(success: bool)
    | Exit

  // How a finished task ended.
  datatype Verdict =
    | SeenReceipt(hash: nat)
    | SeenInBlock(hash: nat)
    | SeenAfterRefusal(hash: nat)
    | Failed(error: TransactionError)
    | GaveUpSilently
  {
    predicate Included() {
      SeenReceipt? || SeenInBlock? || SeenAfterRefusal?
    }

    function Events(): seq<Event> {
      match this
      case SeenReceipt(h) => [Receipt(h)]
      case SeenInBlock(h) => [Found(h)]
      case SeenAfterRefusal(h) => [Found(h)]
      case Failed(e) => [Signal(e)]
      case GaveUpSilently => []
    }

    // The boolean handed to the submitter.
    predicate Reported() {
      SeenReceipt? || SeenInBlock?
    }
  }

  // One send per hash, with the nonce unchanged and the fees doubled each time; the first hash is announced.
  function SendEvents(nonce: nat, first: Fees, sent: seq<nat>): seq<Event> {
    if sent == [] then []
    else
      var k := |sent| - 1;
      SendEvents(nonce, first, sent[..k])
      + [Sent(k, nonce, Times(first, Pow2(k)), sent[k])]
      + if k == 0 then [FirstHash(sent[0])] else []
  }

  // Zero send attempts but some wait attempts: the loop is skipped and so is the error signal.
  predicate MayGiveUpSilently(cfg: MonitorConfig) {
    cfg.maxSend == 0 && cfg.maxWait > 0
  }

  // The verdict is possible after these hashes were sent.
  ghost predicate Justified(cfg: MonitorConfig, v: Verdict, sent: seq<nat>) {
    && (v.Included() ==> v.hash in sent)
    && (v.GaveUpSilently? ==> MayGiveUpSilently(cfg))
  }

  function PayloadOr(payload: Option<TransactionError>): TransactionError {
    if payload.Some? then payload.value else TransactionReverted
  }

  // The reply is one that makes the source reach this verdict.
  ghost predicate Shows(r: Reply, v: Verdict) {
    match v
    case SeenReceipt(_) => r.receipt.Success?
    case SeenInBlock(_) => r.inBlock
    case SeenAfterRefusal(_) => r.inBlock
    case Failed(e) =>
      || (e == GetBlockNumberFailed && r.blockNumber.None?)
      || (r.receipt.Reverted? && e == PayloadOr(r.receipt.payload))
      || (r.send.Refused? && e == (if r.send.nonceTooLow then TransactionReverted else PayloadOr(r.send.payload)))
      || (r.send.TransportFailure? && e == TransactionReverted)
    case GaveUpSilently => false
  }

  // Some reply among lo..hi shows the verdict.
  ghost predicate Witnessed(replies: seq<Reply>, lo: nat, hi: nat, v: Verdict) {
    exists q :: lo <= q < hi && q < |replies| && Shows(replies[q], v)
  }

  // ---------- the task as a function of the replies ----------

  // `done` is false when the replies ran out.
  datatype Search = Search(pos: nat, found: Option<nat>, done: bool)

  datatype Watch = Watch(pos: nat, verdict: Option<Verdict>, done: bool)

  datatype Sending = Sending(pos: nat, sent: seq<nat>, block: nat, verdict: Option<Verdict>, done: bool)

  // The oldest of these hashes that is in a block.
  function Inclusion(replies: seq<Reply>, pos: nat, sent: seq<nat>): (s: Search)
    ensures s.pos >= pos && (s.found.Some? ==> s.done && s.found.value in sent)
    decreases |sent|
  {
    if sent == [] then Search(pos, None, true)
    else if pos >= |replies| then Search(pos, None, false)
    else if replies[pos].inBlock then Search(pos + 1, Some(sent[0]), true)
    else Inclusion(replies, pos + 1, sent[1..])
  }

  // A verdict of the watcher: never silent, never a refusal, and about a hash that was sent.
  predicate Watched(v: Option<Verdict>, sent: seq<nat>) {
    v.Some? ==> !v.value.GaveUpSilently? && !v.value.SeenAfterRefusal? && (v.value.Included() ==> v.value.hash in sent)
  }

  function ReceiptWatch(replies: seq<Reply>, pos: nat, hash: nat, sent: seq<nat>): (w: Watch)
    requires pos < |replies| && hash in sent
    ensures w.pos > pos && (w.verdict.Some? ==> w.done) && Watched(w.verdict, sent)
  {
    match replies[pos].receipt
    case Success => Watch(pos + 1, Some(SeenReceipt(hash)), true)
    case Reverted(payload) => Watch(pos + 1, Some(Failed(PayloadOr(payload))), true)
    case WatcherTimeout => Watch(pos + 1, None, true)
    case WatcherFailure =>
      var s := Inclusion(replies, pos + 1, sent);
      Watch(s.pos, if s.found.Some? then Some(SeenInBlock(s.found.value)) else None, s.done)
  }

  // Without a verdict: the first reply that shows another L1 block.
  function BlockWatch(replies: seq<Reply>, pos: nat, hash: nat, block: nat, sent: seq<nat>): (w: Watch)
    requires hash in sent
    ensures w.pos >= pos && (w.verdict.Some? ==> w.done) && Watched(w.verdict, sent)
    decreases |replies| - pos
  {
    if pos >= |replies| then Watch(pos, None, false)
    else
      var w := ReceiptWatch(replies, pos, hash, sent);
      if !w.done || w.verdict.Some? then w
      else if w.pos >= |replies| then Watch(w.pos, None, false)
      else
        match replies[w.pos].blockNumber
        case None => Watch(w.pos + 1, Some(Failed(GetBlockNumberFailed)), true)
        case Some(n) =>
          if n != block then Watch(w.pos + 1, None, true) else BlockWatch(replies, w.pos + 1, hash, block, sent)
  }

  function RefusalWatch(replies: seq<Reply>, pos: nat, reply: SendReply, sent: seq<nat>): (w: Watch)
    requires !reply.Accepted?
    ensures w.pos >= pos && (w.verdict.Some? <==> w.done)
    ensures w.verdict.Some? ==> w.verdict.value.Failed? || (w.verdict.value.SeenAfterRefusal? && w.verdict.value.hash in sent)
  {
    if reply.Refused? && reply.nonceTooLow then
      var s := Inclusion(replies, pos, sent);
      if !s.done then Watch(s.pos, None, false)
      else Watch(s.pos, Some(if s.found.Some? then SeenAfterRefusal(s.found.value) else Failed(TransactionReverted)), true)
    else Watch(pos, Some(Failed(if reply.Refused? then PayloadOr(reply.payload) else TransactionReverted)), true)
  }

  function CheckFirst(replies: seq<Reply>, pos: nat, sent: seq<nat>): (s: Sending)
    ensures s.pos >= pos && s.sent == sent && (s.verdict.Some? ==> s.done) && Watched(s.verdict, sent)
  {
    if pos >= |replies| then Sending(pos, sent, 0, None, false)
    else
      match replies[pos].blockNumber
      case None => Sending(pos + 1, sent, 0, Some(Failed(GetBlockNumberFailed)), true)
      case Some(n) =>
        if sent == [] then Sending(pos + 1, sent, n, None, true)
        else
          var s := Inclusion(replies, pos + 1, sent);
          Sending(s.pos, sent, n, if s.found.Some? then Some(SeenInBlock(s.found.value)) else None, s.done)
  }

  function SendNow(replies: seq<Reply>, pos: nat, sent: seq<nat>, block: nat): (s: Sending)
    ensures s.pos >= pos && s.block == block && (s.verdict.Some? ==> s.done)
    ensures s.sent == sent || |s.sent| == |sent| + 1
    ensures s.done && s.verdict.None? ==> |s.sent| == |sent| + 1
    ensures s.verdict.Some? ==>
              && !s.verdict.value.GaveUpSilently?
              && (s.verdict.value.Included() ==> s.verdict.value.hash in s.sent)
              && (s.verdict.value.SeenAfterRefusal? ==> sent != [])
  {
    if pos >= |replies| then Sending(pos, sent, block, None, false)
    else
      match replies[pos].send
      case Accepted(hash) =>
        var w := BlockWatch(replies, pos + 1, hash, block, sent + [hash]);
        Sending(w.pos, sent + [hash], block, w.verdict, w.done)
      case refusal =>
        var w := RefusalWatch(replies, pos + 1, refusal, sent);
        Sending(w.pos, sent, block, w.verdict, w.done)
  }

  // One attempt.
  function SendOnce(replies: seq<Reply>, pos: nat, sent: seq<nat>): (s: Sending)
    ensures s.pos >= pos && (s.verdict.Some? ==> s.done)
    ensures s.sent == sent || |s.sent| == |sent| + 1
    ensures s.done && s.verdict.None? ==> |s.sent| == |sent| + 1
    ensures s.verdict.Some? ==>
              && !s.verdict.value.GaveUpSilently?
              && (s.verdict.value.Included() ==> s.verdict.value.hash in s.sent)
              && (s.verdict.value.SeenAfterRefusal? ==> sent != [])
  {
    var c := CheckFirst(replies, pos, sent);
    if !c.done || c.verdict.Some? then c else SendNow(replies, c.pos, sent, c.block)
  }

  // Waiting for the last hash; with nothing sent the loop is skipped.
  function Waits(cfg: MonitorConfig, replies: seq<Reply>, pos: nat, sent: seq<nat>, block: nat, n: nat): (w: Watch)
    ensures w.pos >= pos && (w.verdict.Some? <==> w.done)
    ensures w.verdict.Some? && w.verdict.value.GaveUpSilently? ==> sent == [] && n < cfg.maxWait
    ensures w.verdict.Some? && !w.verdict.value.GaveUpSilently? ==> Watched(w.verdict, sent)
    decreases cfg.maxWait - n
  {
    if n >= cfg.maxWait then Watch(pos, Some(Failed(NotConfirmed)), true)
    else if sent == [] then Watch(pos, Some(GaveUpSilently), true)
    else
      var w := BlockWatch(replies, pos, sent[|sent| - 1], block, sent);
      if !w.done || w.verdict.Some? then w
      else
        var s := Inclusion(replies, w.pos, sent);
        if !s.done then Watch(s.pos, None, false)
        else if s.found.Some? then Watch(s.pos, Some(SeenInBlock(s.found.value)), true)
        else Waits(cfg, replies, s.pos, sent, block, n + 1)
  }

  // The attempts from here on, then the wait.
  function Attempts(cfg: MonitorConfig, replies: seq<Reply>, pos: nat, sent: seq<nat>, block: nat): (s: Sending)
    requires |sent| <= cfg.maxSend
    ensures s.pos >= pos && |s.sent| <= cfg.maxSend && (s.verdict.Some? <==> s.done)
    ensures s.verdict.Some? ==> Justified(cfg, s.verdict.value, s.sent)
    ensures s.verdict.Some? && s.verdict.value.SeenAfterRefusal? ==> cfg.maxSend >= 2
    decreases cfg.maxSend - |sent|
  {
    if |sent| == cfg.maxSend then
      var w := Waits(cfg, replies, pos, sent, block, 0);
      Sending(w.pos, sent, block, w.verdict, w.done)
    else
      var s := SendOnce(replies, pos, sent);
      if !s.done || s.verdict.Some? then s else Attempts(cfg, replies, s.pos, s.sent, s.block)
  }

  // The whole task: what it sent, how far it read, and its verdict once it is finished.
  function Task(cfg: MonitorConfig, tx: TransactionRequest, replies: seq<Reply>, pos: nat): (s: Sending)
    ensures s.verdict.Some? ==> Justified(cfg, s.verdict.value, s.sent)
  {
    if tx.supported then Attempts(cfg, replies, pos, [], 0)
    else Sending(pos, [], 0, Some(Failed(UnsupportedTransactionType)), true)
  }

  // ---------- the same waiting, read off the replies alone ----------

  // The next n lookups find nothing in a block.
  ghost predicate Missing(replies: seq<Reply>, p: nat, n: nat) {
    n > 0 ==> p + n <= |replies| && forall q :: p <= q < p + n ==> !replies[q].inBlock
  }

  // Where the question for the block number comes: after the receipt, or after n lookups in its place.
  function RoundEnd(r: Reply, p: nat, n: nat): nat {
    if r.receipt.WatcherFailure? then p + 1 + n else p + 1
  }

  // One look at the receipt from p on decides nothing, and the block number is known.
  ghost predicate Undecided(replies: seq<Reply>, p: nat, n: nat) {
    && p < |replies|
    && (replies[p].receipt.WatcherTimeout? || (replies[p].receipt.WatcherFailure? && Missing(replies, p + 1, n)))
    && RoundEnd(replies[p], p, n) < |replies| && replies[RoundEnd(replies[p], p, n)].blockNumber.Some?
  }

  // Undecided looks from p to q, of which only the last sees a block other than the given one.
  ghost predicate NewBlock(replies: seq<Reply>, p: nat, q: nat, n: nat, block: nat)
    decreases |replies| - p
  {
    && Undecided(replies, p, n)
    && var e := RoundEnd(replies[p], p, n);
       if replies[e].blockNumber.value != block then q == e + 1 else NewBlock(replies, e + 1, q, n, block)
  }

  // A new block arrives and then none of the n hashes is found.
  ghost predicate Round(replies: seq<Reply>, p: nat, q: nat, n: nat, block: nat) {
    exists e: nat :: NewBlock(replies, p, e, n, block) && Missing(replies, e, n) && q == e + n
  }

  // Each mark but the last begins a round that ends at the next one.
  ghost predicate Rounds(replies: seq<Reply>, marks: seq<nat>, n: nat, block: nat) {
    forall i :: 0 < i < |marks| ==> Round(replies, marks[i - 1], marks[i], n, block)
  }

  // Exactly k rounds from p to q.
  ghost predicate Waited(replies: seq<Reply>, p: nat, q: nat, n: nat, block: nat, k: nat) {
    exists marks: seq<nat> :: |marks| == k + 1 && marks[0] == p && marks[k] == q && Rounds(replies, marks, n, block)
  }

  lemma {:induction false} InclusionMisses(replies: seq<Reply>, pos: nat, sent: seq<nat>)
    ensures var s := Inclusion(replies, pos, sent);
            s.done && s.found.None? <==> Missing(replies, pos, |sent|)
    ensures var s := Inclusion(replies, pos, sent);
            s.done && s.found.None? ==> s.pos == pos + |sent|
    decreases |sent|
  {
    if sent == [] {
    } else if pos < |replies| && !replies[pos].inBlock {
      InclusionMisses(replies, pos + 1, sent[1..]);
      assert Missing(replies, pos, |sent|) <==> Missing(replies, pos + 1, |sent| - 1);
    }
  }

  lemma UndecidedIff(replies: seq<Reply>, pos: nat, hash: nat, sent: seq<nat>)
    requires pos < |replies| && hash in sent
    ensures var w := ReceiptWatch(replies, pos, hash, sent);
            && (w.done && w.verdict.None? ==> w.pos == RoundEnd(replies[pos], pos, |sent|))
            && (Undecided(replies, pos, |sent|) <==>
                  w.done && w.verdict.None? && w.pos < |replies| && replies[w.pos].blockNumber.Some?)
  {
    InclusionMisses(replies, pos + 1, sent);
  }

  // The watch ends without a verdict exactly at the first other block after undecided looks.
  lemma {:induction false} NewBlockIff(replies: seq<Reply>, pos: nat, q: nat, hash: nat, block: nat, sent: seq<nat>)
    requires hash in sent
    ensures BlockWatch(replies, pos, hash, block, sent) == Watch(q, None, true) <==> NewBlock(replies, pos, q, |sent|, block)
    decreases |replies| - pos
  {
    if pos < |replies| {
      UndecidedIff(replies, pos, hash, sent);
      var w := ReceiptWatch(replies, pos, hash, sent);
      if Undecided(replies, pos, |sent|) && replies[w.pos].blockNumber.value == block {
        NewBlockIff(replies, w.pos + 1, q, hash, block, sent);
      }
    }
  }

  lemma {:induction false} NewBlockReads(replies: seq<Reply>, p: nat, q: nat, n: nat, block: nat)
    requires NewBlock(replies, p, q, n, block)
    ensures p + 2 <= q <= |replies| && replies[q - 1].blockNumber.Some? && replies[q - 1].blockNumber.value != block
    decreases |replies| - p
  {
    var e := RoundEnd(replies[p], p, n);
    if replies[e].blockNumber.value == block {
      NewBlockReads(replies, e + 1, q, n, block);
    }
  }

  // Every round reads at least a receipt, a block number and one lookup per hash.
  lemma {:induction false} RoundsRead(replies: seq<Reply>, marks: seq<nat>, n: nat, block: nat)
    requires marks != [] && Rounds(replies, marks, n, block)
    ensures marks[|marks| - 1] >= marks[0] + (|marks| - 1) * (n + 2)
  {
    var k := |marks| - 1;
    if k > 0 {
      RoundsRead(replies, marks[..k], n, block);
      RoundReads(replies, marks[k - 1], marks[k], n, block);
      OneMoreRound(k, n);
    }
  }

  lemma RoundReads(replies: seq<Reply>, p: nat, q: nat, n: nat, block: nat)
    requires Round(replies, p, q, n, block)
    ensures q >= p + n + 2
  {
    var e: nat :| NewBlock(replies, p, e, n, block) && Missing(replies, e, n) && q == e + n;
    NewBlockReads(replies, p, e, n, block);
  }

  lemma OneMoreRound(k: nat, n: nat)
    requires k > 0
    ensures k * (n + 2) == (k - 1) * (n + 2) + n + 2
  {
  }

  lemma RoundOfWaits(cfg: MonitorConfig, replies: seq<Reply>, p: nat, q: nat, sent: seq<nat>, block: nat, n: nat)
    requires sent != [] && n < cfg.maxWait && Round(replies, p, q, |sent|, block)
    ensures Waits(cfg, replies, p, sent, block, n) == Waits(cfg, replies, q, sent, block, n + 1)
  {
    var e: nat :| NewBlock(replies, p, e, |sent|, block) && Missing(replies, e, |sent|) && q == e + |sent|;
    NewBlockIff(replies, p, e, sent[|sent| - 1], block, sent);
    InclusionMisses(replies, e, sent);
  }

  // Rounds in the replies are rounds of the wait.
  lemma {:induction false} RoundsOfWaits(cfg: MonitorConfig, replies: seq<Reply>, marks: seq<nat>, sent: seq<nat>, block: nat)
    requires sent != [] && 0 < |marks| <= cfg.maxWait + 1 && Rounds(replies, marks, |sent|, block)
    ensures Waits(cfg, replies, marks[0], sent, block, 0)
            == Waits(cfg, replies, marks[|marks| - 1], sent, block, |marks| - 1)
  {
    var k := |marks| - 1;
    if k > 0 {
      RoundsOfWaits(cfg, replies, marks[..k], sent, block);
      RoundOfWaits(cfg, replies, marks[k - 1], marks[k], sent, block, k - 1);
    }
  }

  class TransactionMonitorThread {
    const cfg: MonitorConfig
    const replies: seq<Reply>
    var pos: nat
    var sentTxHashes: seq<nat>
    var log: seq<Event>

    constructor (cfg: MonitorConfig, replies: seq<Reply>)
      ensures this.cfg == cfg && this.replies == replies
      ensures pos == 0 && sentTxHashes == [] && log == []
    {
      this.cfg, this.replies := cfg, replies;
      pos, sentTxHashes, log := 0, [], [];
    }

    predicate Waiting()
      reads this
    {
      pos >= |replies|
    }

    method Call() returns (r: Reply)
      requires !Waiting()
      modifies this`pos
      ensures pos == old(pos) + 1 <= |replies| && r == replies[old(pos)]
    {
      r := replies[pos];
      pos := pos + 1;
    }

    method SendErrorSignal(error: TransactionError)
      modifies this`log
      ensures log == old(log) + [Signal(error)]
    {
      log := log + [Signal(error)];
    }

    method NotifyResult(success: bool)
      modifies this`log
      ensures log == old(log) + [Delivered(success)]
    {
      log := log + [Delivered(success)];
    }

    // Looks every sent hash up, oldest first; stops at the first one that is in a block.
    method VerifyTxIncluded() returns (found: Option<nat>, done: bool)
      modifies this`pos, this`log
      ensures pos >= old(pos)
      ensures !done ==> Waiting() && found.None?
      ensures found.Some? ==>
                && old(pos) < pos <= |replies| && replies[pos - 1].inBlock
                && pos - old(pos) <= |sentTxHashes| && found.value == sentTxHashes[pos - 1 - old(pos)]
      ensures log == old(log) + (if found.Some? then [Found(found.value)] else [])
      ensures done && found.None? ==>
                pos == old(pos) + |sentTxHashes| && Missing(replies, old(pos), |sentTxHashes|)
      ensures Search(pos, found, done) == Inclusion(replies, old(pos), sentTxHashes)
    {
      found := None;
      for i := 0 to |sentTxHashes|
        invariant pos == old(pos) + i
        invariant log == old(log) && found.None?
        invariant pos <= |replies| || i == 0
        invariant forall q :: old(pos) <= q < pos ==> q < |replies| && !replies[q].inBlock
        invariant Inclusion(replies, old(pos), sentTxHashes) == Inclusion(replies, pos, sentTxHashes[i..])
      {
        assert sentTxHashes[i..][0] == sentTxHashes[i] && sentTxHashes[i..][1..] == sentTxHashes[i + 1..];
        if Waiting() {
          return None, false;
        }
        var reply := Call();
        if reply.inBlock {
          log := log + [Found(sentTxHashes[i])];
          return Some(sentTxHashes[i]), true;
        }
      }
      assert sentTxHashes[|sentTxHashes|..] == [];
      done := true;
    }

    // `None` while the transaction is pending.
    method WaitForTxReceipt(hash: nat) returns (r: Option<Verdict>, done: bool)
      requires hash in sentTxHashes && !Waiting()
      modifies this`pos, this`log
      ensures pos > old(pos)
      ensures !done ==> Waiting() && r.None?
      ensures r.Some? ==> Justified(cfg, r.value, sentTxHashes) && Witnessed(replies, old(pos), pos, r.value)
      ensures match replies[old(pos)].receipt
              case Success => r == Some(SeenReceipt(hash))
              case Reverted(payload) => r == Some(Failed(PayloadOr(payload)))
              case WatcherTimeout => r.None? && done
              case WatcherFailure =>
                && (r.Some? ==> r.value.SeenInBlock? && pos <= |replies| && replies[pos - 1].inBlock)
                && (done && r.None? ==> Missing(replies, old(pos) + 1, |sentTxHashes|) && pos == old(pos) + 1 + |sentTxHashes|)
      ensures Watch(pos, r, done) == ReceiptWatch(replies, old(pos), hash, sentTxHashes)
      ensures log == old(log) + (if r.Some? then r.value.Events() else [])
    {
      done := true;
      var reply := Call();
      match reply.receipt {
        case Success =>
          log := log + [Receipt(hash)];
          r := Some(SeenReceipt(hash));
        case Reverted(payload) =>
          SendErrorSignal(PayloadOr(payload));
          r := Some(Failed(PayloadOr(payload)));
        case WatcherTimeout =>
          r := None;
        case WatcherFailure =>
          var found, finished := VerifyTxIncluded();
          done := finished;
          r := if found.Some? then Some(SeenInBlock(found.value)) else None;
      }
    }

    // Watches one hash until it is decided or a new L1 block arrives.
    method IsTransactionHandledByBuilder(hash: nat, blockAtSend: nat) returns (r: Option<Verdict>, done: bool)
      requires hash in sentTxHashes
      modifies this`pos, this`log
      ensures pos >= old(pos)
      ensures !done ==> Waiting() && r.None?
      ensures r.Some? ==>
                && Justified(cfg, r.value, sentTxHashes) && !r.value.SeenAfterRefusal?
                && Witnessed(replies, old(pos), pos, r.value)
      ensures done && r.None? ==>
                && NewBlock(replies, old(pos), pos, |sentTxHashes|, blockAtSend) && old(pos) + 2 <= pos <= |replies|
                && replies[pos - 1].blockNumber.Some? && replies[pos - 1].blockNumber.value != blockAtSend
      ensures Watch(pos, r, done) == BlockWatch(replies, old(pos), hash, blockAtSend, sentTxHashes)
      ensures log == old(log) + (if r.Some? then r.value.Events() else [])
    {
      while true
        invariant pos >= old(pos) && log == old(log)
        invariant BlockWatch(replies, old(pos), hash, blockAtSend, sentTxHashes)
               == BlockWatch(replies, pos, hash, blockAtSend, sentTxHashes)
        decreases |replies| - pos
      {
        if Waiting() {
          return None, false;
        }
        r, done := WaitForTxReceipt(hash);
        if !done || r.Some? {
          return;
        }
        if Waiting() {
          return None, false;
        }
        var reply := Call();
        if reply.blockNumber.None? {
          SendErrorSignal(GetBlockNumberFailed);
          return Some(Failed(GetBlockNumberFailed)), true;
        }
        if reply.blockNumber.value != blockAtSend {
          NewBlockIff(replies, old(pos), pos, hash, blockAtSend, sentTxHashes);
          NewBlockReads(replies, old(pos), pos, |sentTxHashes|, blockAtSend);
          return None, true;
        }
      }
    }

    method HandleRpcError(reply: SendReply) returns (v: Verdict, done: bool)
      requires !reply.Accepted? && 0 < pos <= |replies| && reply == replies[pos - 1].send
      modifies this`pos, this`log
      ensures pos >= old(pos)
      ensures !done ==> Waiting() && log == old(log)
      ensures done ==> Justified(cfg, v, sentTxHashes) && log == old(log) + v.Events()
      ensures done && v.Included() ==> v.SeenAfterRefusal? && reply.Refused? && reply.nonceTooLow
      ensures done && v.Failed? && reply.Refused? && reply.nonceTooLow ==>
                v.error == TransactionReverted && Missing(replies, old(pos), |sentTxHashes|)
      ensures !(reply.Refused? && reply.nonceTooLow) ==>
                done && pos == old(pos) && v == Failed(if reply.Refused? then PayloadOr(reply.payload) else TransactionReverted)
      ensures done ==> Witnessed(replies, old(pos) - 1, pos, v)
      ensures Watch(pos, if done then Some(v) else None, done) == RefusalWatch(replies, old(pos), reply, sentTxHashes)
    {
      done := true;
      if reply.Refused? {
        if reply.nonceTooLow {
          var found, finished := VerifyTxIncluded();
          if !finished {
            return Failed(TransactionReverted), false;
          }
          if found.Some? {
            return SeenAfterRefusal(found.value), true;
          }
          SendErrorSignal(TransactionReverted);
          return Failed(TransactionReverted), true;
        } else if reply.payload.Some? {
          SendErrorSignal(reply.payload.value);
          return Failed(reply.payload.value), true;
        }
      }
      SendErrorSignal(TransactionReverted);
      v := Failed(TransactionReverted);
    }

    /**
     The whole task. While it waits for a reply it has only sent transactions. When it is
     finished (`Some`), its log is its sends, then the events of one verdict, then one
     delivered result: at most one error signal, and none exactly when a sent hash was seen
     included, or when it was configured to give up in silence.
     */
    method MonitorTransaction(tx: TransactionRequest) returns (verdict: Option<Verdict>)
      requires sentTxHashes == [] && log == []
      modifies this
      ensures |sentTxHashes| <= cfg.maxSend
      ensures verdict.None? ==> Waiting() && log == SendEvents(cfg.nonce, Tuned(cfg, tx.fees), sentTxHashes)
      ensures verdict.Some? ==>
                && Justified(cfg, verdict.value, sentTxHashes)
                && log == SendEvents(cfg.nonce, Tuned(cfg, tx.fees), sentTxHashes)
                          + verdict.value.Events() + [Delivered(verdict.value.Reported())]
      ensures verdict.Some? && tx.supported ==>
                verdict.value in {Failed(NotConfirmed), GaveUpSilently} || Witnessed(replies, old(pos), pos, verdict.value)
      ensures var t := Task(cfg, tx, replies, old(pos));
              verdict == t.verdict && sentTxHashes == t.sent && pos == t.pos
      ensures !tx.supported ==> verdict == Some(Failed(UnsupportedTransactionType))
      ensures tx.supported && cfg.maxSend == 0 ==>
                verdict == Some(if cfg.maxWait == 0 then Failed(NotConfirmed) else GaveUpSilently)
    {
      if !tx.supported {
        SendErrorSignal(UnsupportedTransactionType);
        NotifyResult(false);
        return Some(Failed(UnsupportedTransactionType));
      }
      var fees := InitialFees(tx.fees);
      ghost var first := Tuned(cfg, tx.fees);
      var blockAtSend := 0;
      for attempt := 0 to cfg.maxSend
        invariant |sentTxHashes| == attempt && pos >= old(pos)
        invariant log == SendEvents(cfg.nonce, first, sentTxHashes)
        invariant fees == Times(first, Pow2(attempt))
        invariant Task(cfg, tx, replies, old(pos)) == Attempts(cfg, replies, pos, sentTxHashes, blockAtSend)
      {
        var done;
        verdict, blockAtSend, done := SendAndWatch(attempt, fees, first);
        if !done || verdict.Some? {
          return;
        }
        // replacement requires twice the fees
        DoubleTimes(first, attempt);
        fees := Double(fees);
      }
      verdict := WaitForResult(blockAtSend);
    }

    method InitialFees(f: Fees) returns (fees: Fees)
      ensures fees == Tuned(cfg, f)
    {
      var maxPriority, maxFee, maxBlob := f.priority, f.maxFee, f.blob;
      maxFee := maxFee * 2;
      maxPriority := maxPriority + maxPriority * cfg.increasePercent / 100;
      if maxBlob.Some? {
        maxBlob := Some(maxBlob.value * 2);
      }
      if maxPriority < cfg.minPriority {
        var diff := cfg.minPriority - maxPriority;
        maxFee, maxPriority := maxFee + diff, maxPriority + diff;
      }
      fees := Fees(maxFee, maxPriority, maxBlob);
    }

    // One pass of the sending loop; without a verdict the transaction is out and still pending.
    method SendAndWatch(attempt: nat, fees: Fees, ghost first: Fees)
        returns (verdict: Option<Verdict>, blockAtSend: nat, done: bool)
      requires |sentTxHashes| == attempt && fees == Times(first, Pow2(attempt))
      requires log == SendEvents(cfg.nonce, first, sentTxHashes)
      modifies this
      ensures |sentTxHashes| <= attempt + 1 && pos >= old(pos)
      ensures !done ==> verdict.None? && Waiting()
      ensures done && verdict.None? ==> |sentTxHashes| == attempt + 1
      ensures Sending(pos, sentTxHashes, blockAtSend, verdict, done) == SendOnce(replies, old(pos), old(sentTxHashes))
      ensures verdict.None? ==> log == SendEvents(cfg.nonce, first, sentTxHashes)
      ensures verdict.Some? ==>
                && Justified(cfg, verdict.value, sentTxHashes)
                && Witnessed(replies, old(pos), pos, verdict.value)
                && log == SendEvents(cfg.nonce, first, sentTxHashes)
                          + verdict.value.Events() + [Delivered(verdict.value.Reported())]
    {
      verdict, blockAtSend, done := CheckBeforeSend(attempt);
      if done && verdict.None? {
        verdict, done := SendAndHandle(attempt, fees, first, blockAtSend);
      }
    }

    // Sends, and watches what was accepted or handles the refusal.
    method SendAndHandle(attempt: nat, fees: Fees, ghost first: Fees, blockAtSend: nat)
        returns (verdict: Option<Verdict>, done: bool)
      requires |sentTxHashes| == attempt && fees == Times(first, Pow2(attempt))
      requires log == SendEvents(cfg.nonce, first, sentTxHashes)
      modifies this
      ensures pos >= old(pos)
      ensures !done ==> verdict.None? && Waiting()
      ensures Sending(pos, sentTxHashes, blockAtSend, verdict, done)
              == SendNow(replies, old(pos), old(sentTxHashes), blockAtSend)
      ensures verdict.None? ==> log == SendEvents(cfg.nonce, first, sentTxHashes)
      ensures verdict.Some? ==>
                && Justified(cfg, verdict.value, sentTxHashes)
                && Witnessed(replies, old(pos), pos, verdict.value)
                && log == SendEvents(cfg.nonce, first, sentTxHashes)
                          + verdict.value.Events() + [Delivered(verdict.value.Reported())]
    {
      verdict, done := None, false;
      if Waiting() {
        return;
      }
      var reply := Call();
      if !reply.send.Accepted? {
        var v, handled := HandleRpcError(reply.send);
        if !handled {
          return;
        }
        NotifyResult(false);
        return Some(v), true;
      }
      Record(attempt, fees, first, reply.send.hash);
      verdict, done := IsTransactionHandledByBuilder(reply.send.hash, blockAtSend);
      if verdict.Some? {
        NotifyResult(verdict.value.Reported());
      }
    }

    // The block to watch from, and whether an earlier attempt is already included.
    method CheckBeforeSend(attempt: nat) returns (verdict: Option<Verdict>, blockAtSend: nat, done: bool)
      requires |sentTxHashes| == attempt
      modifies this`pos, this`log
      ensures pos >= old(pos)
      ensures !done ==> verdict.None? && Waiting()
      ensures Sending(pos, sentTxHashes, blockAtSend, verdict, done) == CheckFirst(replies, old(pos), sentTxHashes)
      ensures verdict.None? ==> log == old(log)
      ensures done && verdict.None? ==>
                && old(pos) < |replies| && replies[old(pos)].blockNumber == Some(blockAtSend)
                && Missing(replies, old(pos) + 1, attempt) && pos == old(pos) + 1 + attempt
      ensures verdict.Some? ==>
                && Justified(cfg, verdict.value, sentTxHashes)
                && Witnessed(replies, old(pos), pos, verdict.value)
                && log == old(log) + verdict.value.Events() + [Delivered(verdict.value.Reported())]
    {
      verdict, blockAtSend, done := None, 0, false;
      if Waiting() {
        return;
      }
      var reply := Call();
      if reply.blockNumber.None? {
        SendErrorSignal(GetBlockNumberFailed);
        NotifyResult(false);
        return Some(Failed(GetBlockNumberFailed)), 0, true;
      }
      blockAtSend := reply.blockNumber.value;
      if attempt > 0 {
        var found, checked := VerifyTxIncluded();
        if !checked {
          return;
        }
        if found.Some? {
          NotifyResult(true);
          return Some(SeenInBlock(found.value)), blockAtSend, true;
        }
      }
      done := true;
    }

    // A transaction was accepted: remember its hash and announce the first one.
    method Record(attempt: nat, fees: Fees, ghost first: Fees, hash: nat)
      requires |sentTxHashes| == attempt && fees == Times(first, Pow2(attempt))
      requires log == SendEvents(cfg.nonce, first, sentTxHashes)
      modifies this`sentTxHashes, this`log
      ensures sentTxHashes == old(sentTxHashes) + [hash]
      ensures log == SendEvents(cfg.nonce, first, sentTxHashes)
    {
      ghost var before := sentTxHashes;
      sentTxHashes := sentTxHashes + [hash];
      log := log + [Sent(attempt, cfg.nonce, fees, hash)];
      if attempt == 0 {
        log := log + [FirstHash(hash)];
      }
      assert sentTxHashes[..attempt] == before;
    }

    // The wait loop after the last attempt, and the final report.
    method WaitForResult(blockAtSend: nat) returns (verdict: Option<Verdict>)
      requires |sentTxHashes| == cfg.maxSend
      modifies this`pos, this`log
      ensures verdict.None? ==> Waiting() && log == old(log)
      ensures verdict.Some? ==>
                && Justified(cfg, verdict.value, sentTxHashes)
                && (verdict.value in {Failed(NotConfirmed), GaveUpSilently}
                    || Witnessed(replies, old(pos), pos, verdict.value))
                && log == old(log) + verdict.value.Events() + [Delivered(verdict.value.Reported())]
      ensures Watch(pos, verdict, verdict.Some?) == Waits(cfg, replies, old(pos), sentTxHashes, blockAtSend, 0)
      ensures cfg.maxSend == 0 ==>
                verdict == Some(if cfg.maxWait == 0 then Failed(NotConfirmed) else GaveUpSilently)
    {
      var result, waitAttempt, done := WatchLastHash(blockAtSend);
      if !done {
        return None;
      }
      if result.Some? {
        NotifyResult(result.value.Reported());
        return result;
      }
      if waitAttempt >= cfg.maxWait {
        SendErrorSignal(NotConfirmed);
        NotifyResult(false);
        return Some(Failed(NotConfirmed));
      }
      NotifyResult(false);
      verdict := Some(GaveUpSilently);
    }

    // Up to the configured number of watches; skipped when nothing was sent.
    method WatchLastHash(blockAtSend: nat) returns (result: Option<Verdict>, waitAttempt: nat, done: bool)
      modifies this`pos, this`log
      ensures pos >= old(pos) && log == old(log) + (if result.Some? then result.value.Events() else [])
      ensures !done ==> Waiting() && result.None?
      ensures done && result.None? ==> waitAttempt == if sentTxHashes == [] then 0 else cfg.maxWait
      ensures done && result.None? && sentTxHashes != [] ==>
                && Waited(replies, old(pos), pos, |sentTxHashes|, blockAtSend, cfg.maxWait)
                && pos >= old(pos) + cfg.maxWait * (|sentTxHashes| + 2)
      ensures result.Some? ==> Watched(result, sentTxHashes) && Witnessed(replies, old(pos), pos, result.value)
      ensures Waits(cfg, replies, old(pos), sentTxHashes, blockAtSend, 0) ==
              if !done || result.Some? then Watch(pos, result, done)
              else Waits(cfg, replies, pos, sentTxHashes, blockAtSend, waitAttempt)
    {
      result, waitAttempt, done := None, 0, true;
      if sentTxHashes != [] {
        ghost var marks;
        result, waitAttempt, done, marks := WatchRounds(blockAtSend);
        if done && result.None? {
          RoundsRead(replies, marks, |sentTxHashes|, blockAtSend);
        }
      }
    }

    method WatchRounds(blockAtSend: nat)
        returns (result: Option<Verdict>, waitAttempt: nat, done: bool, ghost marks: seq<nat>)
      requires sentTxHashes != []
      modifies this`pos, this`log
      ensures pos >= old(pos) && log == old(log) + (if result.Some? then result.value.Events() else [])
      ensures !done ==> Waiting() && result.None?
      ensures done && result.None? ==>
                && waitAttempt == cfg.maxWait && |marks| == cfg.maxWait + 1
                && marks[0] == old(pos) && marks[cfg.maxWait] == pos && Rounds(replies, marks, |sentTxHashes|, blockAtSend)
      ensures result.Some? ==> Watched(result, sentTxHashes) && Witnessed(replies, old(pos), pos, result.value)
      ensures Waits(cfg, replies, old(pos), sentTxHashes, blockAtSend, 0) ==
              if !done || result.Some? then Watch(pos, result, done)
              else Waits(cfg, replies, pos, sentTxHashes, blockAtSend, waitAttempt)
    {
      result, waitAttempt, done, marks := None, 0, true, [pos];
      while waitAttempt < cfg.maxWait
        invariant waitAttempt <= cfg.maxWait && pos >= old(pos) && log == old(log) && result.None? && done
        invariant |marks| == waitAttempt + 1 && marks[0] == old(pos) && marks[waitAttempt] == pos
        invariant Rounds(replies, marks, |sentTxHashes|, blockAtSend)
        invariant Waits(cfg, replies, old(pos), sentTxHashes, blockAtSend, 0)
               == Waits(cfg, replies, pos, sentTxHashes, blockAtSend, waitAttempt)
        decreases cfg.maxWait - waitAttempt
      {
        result, done := WatchOneRound(blockAtSend, waitAttempt);
        if !done || result.Some? {
          return;
        }
        waitAttempt, marks := waitAttempt + 1, marks + [pos];
      }
    }

    // One wait: for a new L1 block, then a look at every hash sent.
    method WatchOneRound(blockAtSend: nat, ghost n: nat) returns (result: Option<Verdict>, done: bool)
      requires sentTxHashes != [] && n < cfg.maxWait
      modifies this`pos, this`log
      ensures pos >= old(pos) && log == old(log) + (if result.Some? then result.value.Events() else [])
      ensures !done ==> Waiting() && result.None?
      ensures done && result.None? ==> Round(replies, old(pos), pos, |sentTxHashes|, blockAtSend)
      ensures result.Some? ==> Watched(result, sentTxHashes) && Witnessed(replies, old(pos), pos, result.value)
      ensures Waits(cfg, replies, old(pos), sentTxHashes, blockAtSend, n) ==
              if !done || result.Some? then Watch(pos, result, done)
              else Waits(cfg, replies, pos, sentTxHashes, blockAtSend, n + 1)
    {
      result, done := IsTransactionHandledByBuilder(sentTxHashes[|sentTxHashes| - 1], blockAtSend);
      if !done || result.Some? {
        return;
      }
      var found;
      found, done := VerifyTxIncluded();
      if done && found.Some? {
        result := Some(SeenInBlock(found.value));
      }
    }

    // The task as Shasta spawns it: a failed build is signalled and delivers no result.
    method MonitorWithBuilder(built: Result<TransactionRequest, TransactionError>) returns (verdict: Option<Verdict>)
      requires sentTxHashes == [] && log == []
      modifies this
      ensures |sentTxHashes| <= cfg.maxSend
      ensures built.Err? ==> verdict == Some(Failed(built.error)) && sentTxHashes == [] && log == [Signal(built.error), Exit]
      ensures built.Ok? && verdict.None? ==>
                Waiting() && log == SendEvents(cfg.nonce, Tuned(cfg, built.value.fees), sentTxHashes)
      ensures built.Ok? && verdict.Some? ==>
                && Justified(cfg, verdict.value, sentTxHashes)
                && log == SendEvents(cfg.nonce, Tuned(cfg, built.value.fees), sentTxHashes)
                          + verdict.value.Events() + [Delivered(verdict.value.Reported()), Exit]
    {
      match built {
        case Ok(tx) =>
          verdict := MonitorTransaction(tx);
          if verdict.Some? {
            log := log + [Exit];
          }
        case Err(error) =>
          SendErrorSignal(error);
          log := log + [Exit];
          verdict := Some(Failed(error));
      }
    }
  }

  // ---------- counting ----------

  function ErrorsIn(log: seq<Event>): seq<TransactionError> {
    if log == [] then []
    else ErrorsIn(log[..|log| - 1]) + match log[|log| - 1] { case Signal(e) => [e] case _ => [] }
  }

  function ResultsIn(log: seq<Event>): seq<bool> {
    if log == [] then []
    else ResultsIn(log[..|log| - 1]) + match log[|log| - 1] { case Delivered(b) => [b] case _ => [] }
  }

  lemma AppendOne(log: seq<Event>, e: Event)
    ensures ErrorsIn(log + [e]) == ErrorsIn(log) + match e { case Signal(x) => [x] case _ => [] }
    ensures ResultsIn(log + [e]) == ResultsIn(log) + match e { case Delivered(b) => [b] case _ => [] }
  {
    assert (log + [e])[..|log|] == log;
  }

  lemma {:induction false} SendsAreQuiet(nonce: nat, first: Fees, sent: seq<nat>)
    ensures ErrorsIn(SendEvents(nonce, first, sent)) == [] && ResultsIn(SendEvents(nonce, first, sent)) == []
  {
    if sent != [] {
      var k := |sent| - 1;
      var before, s := SendEvents(nonce, first, sent[..k]), Sent(k, nonce, Times(first, Pow2(k)), sent[k]);
      SendsAreQuiet(nonce, first, sent[..k]);
      AppendOne(before, s);
      if k == 0 {
        AppendOne(before + [s], FirstHash(sent[0]));
      } else {
        assert SendEvents(nonce, first, sent) == before + [s];
      }
    }
  }

  /**
   Counting the log of any finished task: at most one error signal and exactly one result;
   a true result means no error; and, exactly when silent giving up is not configured,
   no error is the same as a sent hash seen included.
   */
  lemma FinishedTaskSignals(cfg: MonitorConfig, first: Fees, sent: seq<nat>, v: Verdict)
    requires Justified(cfg, v, sent)
    ensures var log := SendEvents(cfg.nonce, first, sent) + v.Events() + [Delivered(v.Reported())];
            && ErrorsIn(log) == (if v.Failed? then [v.error] else [])
            && ResultsIn(log) == [v.Reported()]
            && (v.Reported() ==> ErrorsIn(log) == [])
            && (!MayGiveUpSilently(cfg) ==> (ErrorsIn(log) == [] <==> v.Included()))
  {
    var sends := SendEvents(cfg.nonce, first, sent);
    SendsAreQuiet(cfg.nonce, first, sent);
    if v.GaveUpSilently? {
      assert sends + v.Events() == sends;
    } else {
      AppendOne(sends, v.Events()[0]);
    }
    AppendOne(sends + v.Events(), Delivered(v.Reported()));
  }

  // ---------- the task as seen by the node ----------

  datatype Phase = Running | Confirmed | Erred | Done(included: bool, failed: bool)

  // What one event does to the phase; `None` for an event that cannot happen in it.
  function PhaseStep(cfg: MonitorConfig, p: Phase, e: Event): Option<Phase> {
    match e
    case Sent(_, _, _, _) => if p.Running? then Some(p) else None
    case FirstHash(_) => if p.Running? then Some(p) else None
    case Receipt(_) => if p.Running? then Some(Confirmed) else None
    case Found(_) => if p.Running? then Some(Confirmed) else None
    case Signal(_) => if p.Running? then Some(Erred) else None
    case Delivered(_) => if p.Done? then None else Some(p)
    case Exit =>
      match p
      case Running => if MayGiveUpSilently(cfg) then Some(Done(false, false)) else None
      case Confirmed => Some(Done(true, false))
      case Erred => Some(Done(false, true))
      case Done(_, _) => None
  }

  function PhaseAfter(cfg: MonitorConfig, log: seq<Event>): Option<Phase> {
    if log == [] then Some(Running)
    else
      var p := PhaseAfter(cfg, log[..|log| - 1]);
      if p.None? then None else PhaseStep(cfg, p.value, log[|log| - 1])
  }

  lemma PhaseAppend(cfg: MonitorConfig, log: seq<Event>, e: Event)
    ensures PhaseAfter(cfg, log + [e]) ==
            var p := PhaseAfter(cfg, log);
            if p.None? then None else PhaseStep(cfg, p.value, e)
  {
    assert (log + [e])[..|log|] == log;
  }

  lemma {:induction false} SendsKeepRunning(cfg: MonitorConfig, first: Fees, sent: seq<nat>)
    ensures PhaseAfter(cfg, SendEvents(cfg.nonce, first, sent)) == Some(Running)
  {
    if sent != [] {
      var k := |sent| - 1;
      var before, s := SendEvents(cfg.nonce, first, sent[..k]), Sent(k, cfg.nonce, Times(first, Pow2(k)), sent[k]);
      SendsKeepRunning(cfg, first, sent[..k]);
      PhaseAppend(cfg, before, s);
      if k == 0 {
        PhaseAppend(cfg, before + [s], FirstHash(sent[0]));
      } else {
        assert SendEvents(cfg.nonce, first, sent) == before + [s];
      }
    }
  }

  // Every task the monitor can run is one of the phase machine, which is what the node is composed with.
  lemma FinishedTaskPhases(cfg: MonitorConfig, first: Fees, sent: seq<nat>, v: Verdict)
    requires Justified(cfg, v, sent)
    ensures PhaseAfter(cfg, SendEvents(cfg.nonce, first, sent) + v.Events() + [Delivered(v.Reported()), Exit])
            == Some(Done(v.Included(), v.Failed?))
  {
    SendsKeepRunning(cfg, first, sent);
    VerdictPhases(cfg, SendEvents(cfg.nonce, first, sent), v);
  }

  function PhaseOf(v: Verdict): Phase {
    if v.Included() then Confirmed else if v.Failed? then Erred else Running
  }

  lemma EventPhase(cfg: MonitorConfig, sends: seq<Event>, e: Event, p: Phase)
    requires PhaseAfter(cfg, sends) == Some(Running) && PhaseStep(cfg, Running, e) == Some(p)
    ensures PhaseAfter(cfg, sends + [e]) == Some(p)
  {
    PhaseAppend(cfg, sends, e);
  }

  lemma EventsPhase(cfg: MonitorConfig, sends: seq<Event>, v: Verdict)
    requires PhaseAfter(cfg, sends) == Some(Running)
    ensures PhaseAfter(cfg, sends + v.Events()) == Some(PhaseOf(v))
  {
    if v.GaveUpSilently? {
      assert sends + v.Events() == sends;
    } else {
      var e := v.Events()[0];
      assert v.Events() == [e];
      EventPhase(cfg, sends, e, PhaseOf(v));
    }
  }

  lemma LastTwoPhases(cfg: MonitorConfig, log: seq<Event>, result: bool)
    requires PhaseAfter(cfg, log).Some? && !PhaseAfter(cfg, log).value.Done?
    ensures PhaseAfter(cfg, log + [Delivered(result), Exit]) == PhaseStep(cfg, PhaseAfter(cfg, log).value, Exit)
  {
    PhaseAppend(cfg, log, Delivered(result));
    PhaseAppend(cfg, log + [Delivered(result)], Exit);
    assert log + [Delivered(result)] + [Exit] == log + [Delivered(result), Exit];
  }

  lemma VerdictPhases(cfg: MonitorConfig, sends: seq<Event>, v: Verdict)
    requires PhaseAfter(cfg, sends) == Some(Running) && (v.GaveUpSilently? ==> MayGiveUpSilently(cfg))
    ensures PhaseAfter(cfg, sends + v.Events() + [Delivered(v.Reported()), Exit])
            == Some(Done(v.Included(), v.Failed?))
  {
    EventsPhase(cfg, sends, v);
    LastTwoPhases(cfg, sends + v.Events(), v.Reported());
  }

  lemma FailedBuildPhases(cfg: MonitorConfig, e: TransactionError)
    ensures PhaseAfter(cfg, [Signal(e), Exit]) == Some(Done(false, true))
  {
    PhaseAppend(cfg, [], Signal(e));
    PhaseAppend(cfg, [Signal(e)], Exit);
    assert [] + [Signal(e)] == [Signal(e)];
    assert [Signal(e)] + [Exit] == [Signal(e), Exit];
  }
}
