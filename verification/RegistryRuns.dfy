/** Whole runs of the registry indexer: tiling, agreement with chronological replay. */
module RegistryRuns {
  import opened Wrappers
  import opened RegistryDb
  import opened RegistryReplay
  import opened RegistryMonitors

  // ---------- ranges tile ----------

  // Consecutive ranges from just after `from` up to `to`.
  predicate Tiles(ranges: seq<(nat, nat)>, from: nat, to: nat) {
    if ranges == [] then from == to
    else
      var n := |ranges| - 1;
      1 <= ranges[n].0 && ranges[n].0 <= ranges[n].1 + 1 && ranges[n].1 == to
      && Tiles(ranges[..n], from, ranges[n].0 - 1)
  }

  predicate Within(range: (nat, nat), block: nat) {
    range.0 <= block <= range.1
  }

  // Every block is in exactly one range, and only the blocks between the ends are in any.
  lemma {:induction false} TilesCover(ranges: seq<(nat, nat)>, from: nat, to: nat, block: nat)
    requires Tiles(ranges, from, to)
    ensures from <= to
    ensures from < block <= to <==> exists i :: 0 <= i < |ranges| && Within(ranges[i], block)
    ensures forall i, j :: 0 <= i < j < |ranges| ==> !(Within(ranges[i], block) && Within(ranges[j], block))
  {
    if ranges != [] {
      var n := |ranges| - 1;
      var rest, last := ranges[..n], ranges[n];
      TilesCover(rest, from, last.0 - 1, block);
      assert forall i :: 0 <= i < n ==> rest[i] == ranges[i];
      if from < block < last.0 {
        var i :| 0 <= i < n && Within(rest[i], block);
        assert Within(ranges[i], block);
      } else if last.0 <= block <= to {
        assert Within(ranges[n], block);
      }
      forall i | 0 <= i < n && Within(ranges[i], block) ensures !Within(ranges[n], block) {
        assert Within(rest[i], block);
      }
    }
  }

  // No range is longer than the batch size, and none is empty unless the batch size is zero.
  predicate Sized(ranges: seq<(nat, nat)>, batchSize: nat) {
    forall i :: 0 <= i < |ranges| ==>
                  ranges[i].1 < ranges[i].0 + batchSize && (batchSize > 0 ==> ranges[i].0 <= ranges[i].1)
  }

  lemma TilesPush(ranges: seq<(nat, nat)>, from: nat, mid: nat, end: nat, batchSize: nat)
    requires Tiles(ranges, from, mid) && Sized(ranges, batchSize) && mid <= end <= mid + batchSize
    requires batchSize > 0 ==> mid < end
    ensures Tiles(ranges + [(mid + 1, end)], from, end) && Sized(ranges + [(mid + 1, end)], batchSize)
  {
    assert (ranges + [(mid + 1, end)])[..|ranges|] == ranges;
  }

  lemma PollShape(cfg: Config, passes: Passes, m: Monitor, p: Poll)
    ensures var s := PollOnce(cfg, passes, m, p);
            s.ok ==>
              if s.range.None? then s.monitor == m
              else
                var end := s.monitor.indexed;
                s.range.value == (m.indexed + 1, end) && m.indexed <= end <= m.indexed + cfg.batchSize
                && (cfg.batchSize > 0 ==> m.indexed < end)
                && s.monitor.status == end
  {
  }

  predicate Tiled(batchSize: nat, m: Monitor, r: Progress) {
    && Tiles(r.ranges, m.indexed, r.monitor.indexed) && Sized(r.ranges, batchSize)
    && (if r.ranges == [] then r.monitor == m else r.monitor.status == r.monitor.indexed)
  }

  lemma TiledStep(cfg: Config, passes: Passes, m: Monitor, r: Progress, p: Poll)
    requires Tiled(cfg.batchSize, m, r) && PollOnce(cfg, passes, r.monitor, p).ok
    ensures var s := PollOnce(cfg, passes, r.monitor, p);
            Tiled(cfg.batchSize, m,
                  Progress(s.monitor, s.ok, if s.range.Some? then r.ranges + [s.range.value] else r.ranges))
  {
    PollShape(cfg, passes, r.monitor, p);
    var s := PollOnce(cfg, passes, r.monitor, p);
    if s.range.Some? {
      TilesPush(r.ranges, m.indexed, r.monitor.indexed, s.monitor.indexed, cfg.batchSize);
    }
  }

  /** The completed ranges tile the blocks between the initial and the final indexed block. */
  lemma {:induction false} RunTiles(cfg: Config, passes: Passes, m: Monitor, polls: seq<Poll>)
    requires Run(cfg, passes, m, polls).ok
    ensures Tiled(cfg.batchSize, m, Run(cfg, passes, m, polls))
  {
    if polls != [] {
      var n := |polls| - 1;
      RunTiles(cfg, passes, m, polls[..n]);
      TiledStep(cfg, passes, m, Run(cfg, passes, m, polls[..n]), polls[n]);
    }
  }

  // ---------- the distance kept from the head ----------

  // A poll moves on only to blocks that are at least the fork depth below the height it saw.
  lemma PollStaysDeep(cfg: Config, passes: Passes, m: Monitor, p: Poll)
    ensures var s := PollOnce(cfg, passes, m, p);
            && (s.range.Some? ==> s.range.value.1 + cfg.maxForkDepth <= p.height)
            && (s.monitor.indexed == m.indexed || s.monitor.indexed + cfg.maxForkDepth <= p.height)
  {
  }

  // A poll without a failure ends where the batch or the distance from the head ends, whichever is first.
  lemma PollReaches(cfg: Config, passes: Passes, m: Monitor, p: Poll)
    ensures var s := PollOnce(cfg, passes, m, p);
            if p.height < m.indexed + 1 + cfg.maxForkDepth then s == Step(m, true, None)
            else s.ok ==>
              var end := s.monitor.indexed;
              && s.range == Some((m.indexed + 1, end)) && s.monitor.status == end
              && end <= m.indexed + cfg.batchSize && end + cfg.maxForkDepth <= p.height
              && (end == m.indexed + cfg.batchSize || end + cfg.maxForkDepth == p.height)
  {
  }

  // Some poll saw a height at least the fork depth above the block.
  ghost predicate SeenAbove(cfg: Config, polls: seq<Poll>, block: nat) {
    exists i :: 0 <= i < |polls| && block + cfg.maxForkDepth <= polls[i].height
  }

  /** No run indexes a block that is not, by the fork depth, below a height one of its polls saw. */
  lemma {:induction false} RunStaysDeep(cfg: Config, passes: Passes, m: Monitor, polls: seq<Poll>)
    ensures var r := Run(cfg, passes, m, polls);
            && (r.monitor.indexed == m.indexed || SeenAbove(cfg, polls, r.monitor.indexed))
            && forall k :: 0 <= k < |r.ranges| ==> SeenAbove(cfg, polls, r.ranges[k].1)
  {
    if polls != [] {
      var n := |polls| - 1;
      RunStaysDeep(cfg, passes, m, polls[..n]);
      var before := Run(cfg, passes, m, polls[..n]);
      forall block: nat | SeenAbove(cfg, polls[..n], block) ensures SeenAbove(cfg, polls, block) {
        var i :| 0 <= i < n && block + cfg.maxForkDepth <= polls[..n][i].height;
        assert polls[i] == polls[..n][i];
      }
      PollStaysDeep(cfg, passes, before.monitor, polls[n]);
      NewestSeen(cfg, polls);
    }
  }

  lemma NewestSeen(cfg: Config, polls: seq<Poll>)
    requires polls != []
    ensures forall block: nat :: block + cfg.maxForkDepth <= polls[|polls| - 1].height ==> SeenAbove(cfg, polls, block)
  {
  }

  // ---------- agreement with chronological replay ----------

  ghost predicate InChainOrder(log: seq<Log>) {
    forall i, j :: 0 <= i < j < |log| ==> log[i].block <= log[j].block
  }

  lemma {:induction false} InRangeBounds(log: seq<Log>, lo: nat, hi: nat)
    ensures forall i :: 0 <= i < |InRange(log, lo, hi)| ==> lo <= InRange(log, lo, hi)[i].block <= hi
    ensures forall i :: 0 <= i < |InRange(log, lo, hi)| ==> InRange(log, lo, hi)[i] in log
  {
    if log != [] {
      InRangeBounds(log[..|log| - 1], lo, hi);
    }
  }

  lemma NoneAbove(log: seq<Log>, lo: nat, hi: nat)
    requires forall i :: 0 <= i < |log| ==> log[i].block < lo
    ensures InRange(log, lo, hi) == []
  {
    InRangeBounds(log, lo, hi);
  }

  // Two adjacent ranges make one.
  lemma {:induction false} InRangeSplit(log: seq<Log>, lo: nat, mid: nat, hi: nat)
    requires InChainOrder(log) && lo <= mid + 1 && mid <= hi
    ensures InRange(log, lo, hi) == InRange(log, lo, mid) + InRange(log, mid + 1, hi)
  {
    if log != [] {
      var n := |log| - 1;
      InRangeSplit(log[..n], lo, mid, hi);
      if lo <= log[n].block <= mid {
        NoneAbove(log[..n], mid + 1, hi);
      }
    }
  }

  lemma RangeIsByKind(log: seq<Log>, lo: nat, hi: nat)
    ensures RangeStatements(log, lo, hi) == ByKind(Statements(InRange(log, lo, hi)))
  {
    var logs := InRange(log, lo, hi);
    KindsAgree(logs, 0);
    KindsAgree(logs, 1);
    KindsAgree(logs, 2);
    KindsAgree(logs, 3);
  }

  function Replay(t: Tables, logs: seq<Log>): Outcome {
    Attempt(t, Statements(logs), None)
  }

  lemma WellFormedPrefix(t: Tables, a: seq<Log>, b: seq<Log>)
    requires WellFormed(t, a + b)
    ensures WellFormed(t, a)
  {
    forall i | 0 <= i < |a| ensures Proper(t, a[..i], a[i].event) {
      assert (a + b)[..i] == a[..i] && (a + b)[i] == a[i];
    }
  }

  // From tables reached by replaying `a`, the range that holds `b` also agrees with replay.
  lemma RangeReplays(t: Tables, a: seq<Log>, b: seq<Log>)
    requires Closed(t) && WellFormed(t, a + b)
    ensures Replay(t, a).ok && Replay(t, a + b).ok
    ensures Attempt(Replay(t, a).tables, ByKind(Statements(b)), None) == Replay(t, a + b)
  {
    var sa, sb := Statements(a), Statements(b);
    StatementsAppend(a, b);
    WellFormedIffStrict(t, a + b);
    StrictAppend(t, sa, sb);
    StrictRuns(t, sa);
    StrictRuns(t, sa + sb);
    ByKindEqualsChronological(Replay(t, a).tables, sb);
    AttemptAppend(t, sa, sb, None);
  }

  ghost predicate Agrees(log: seq<Log>, m: Monitor, n: Monitor) {
    Replay(m.tables, InRange(log, m.indexed + 1, n.indexed)) == Outcome(n.tables, true)
  }

  ghost predicate WellFormedUpTo(log: seq<Log>, m: Monitor, hi: nat) {
    WellFormed(m.tables, InRange(log, m.indexed + 1, hi))
  }

  // A range whose statements run ends with their tables, unless the budget or the status row fails.
  lemma CompleteEnds(m: Monitor, sts: seq<Statement>, end: nat, budget: Option<nat>)
    requires Attempt(m.tables, sts, None).ok
    ensures var s := Complete(m, sts, end, budget);
            && (s.ok ==> s.monitor.indexed == end && s.monitor.tables == Attempt(m.tables, sts, None).tables)
            && (budget.None? && end <= MAX_I64 ==> s.ok)
  {
    if Attempt(m.tables, sts, budget).ok {
      AttemptWithin(m.tables, sts, budget);
    }
  }

  lemma PassesByKind(passes: Passes, log: seq<Log>, lo: nat, hi: nat)
    requires FollowsLog(passes, log)
    ensures passes(lo, hi) == ByKind(Statements(InRange(log, lo, hi)))
  {
    RangeIsByKind(log, lo, hi);
    assert RunsRange(passes, log, lo, hi);
  }

  // From u the statements run to the replay of the log from t.
  ghost predicate RunsTo(u: Tables, sts: seq<Statement>, t: Tables, logs: seq<Log>) {
    Attempt(u, sts, None) == Replay(t, logs) && Replay(t, logs).ok
  }

  lemma PassesAgree(passes: Passes, log: seq<Log>, t: Tables, a: seq<Log>, b: seq<Log>, all: seq<Log>,
                    lo: nat, hi: nat, u: Tables)
    requires FollowsLog(passes, log) && Closed(t) && WellFormed(t, all) && all == a + b && b == InRange(log, lo, hi)
    requires Replay(t, a) == Outcome(u, true)
    ensures RunsTo(u, passes(lo, hi), t, all)
  {
    RangeReplays(t, a, b);
    PassesByKind(passes, log, lo, hi);
  }

  lemma RangeAgrees(passes: Passes, log: seq<Log>, m: Monitor, n: Monitor, end: nat)
    requires FollowsLog(passes, log) && InChainOrder(log) && Closed(m.tables)
    requires m.indexed <= n.indexed <= end && Agrees(log, m, n) && WellFormedUpTo(log, m, end)
    ensures RunsTo(n.tables, passes(n.indexed + 1, end), m.tables, InRange(log, m.indexed + 1, end))
  {
    var a, b := InRange(log, m.indexed + 1, n.indexed), InRange(log, n.indexed + 1, end);
    var all := InRange(log, m.indexed + 1, end);
    assert all == a + b by { InRangeSplit(log, m.indexed + 1, n.indexed, end); }
    PassesAgree(passes, log, m.tables, a, b, all, n.indexed + 1, end, n.tables);
  }

  lemma PollEnds(cfg: Config, passes: Passes, m: Monitor, p: Poll, end: nat)
    requires Target(cfg, p) > m.indexed && end == RangeEnd(cfg, m.indexed, Target(cfg, p))
    requires Attempt(m.tables, passes(m.indexed + 1, end), None).ok
    ensures var s := PollOnce(cfg, passes, m, p);
            && (s.ok ==> s.monitor.indexed == end
                         && s.monitor.tables == Attempt(m.tables, passes(m.indexed + 1, end), None).tables)
            && (p.budget.None? && Target(cfg, p) <= MAX_I64 ==> s.ok)
  {
    CompleteEnds(m, passes(m.indexed + 1, end), end, p.budget);
  }

  // One more range keeps the tables equal to the replay; without a failure it completes.
  lemma StepAgrees(cfg: Config, passes: Passes, log: seq<Log>, m: Monitor, n: Monitor, p: Poll)
    requires InChainOrder(log) && Closed(m.tables) && m.indexed <= n.indexed && Agrees(log, m, n)
    requires FollowsLog(passes, log) && Target(cfg, p) > n.indexed
    requires WellFormedUpTo(log, m, RangeEnd(cfg, n.indexed, Target(cfg, p)))
    ensures var s := PollOnce(cfg, passes, n, p);
            && (s.ok ==> Agrees(log, m, s.monitor))
            && (p.budget.None? && Target(cfg, p) <= MAX_I64 ==> s.ok)
  {
    var end := RangeEnd(cfg, n.indexed, Target(cfg, p));
    RangeAgrees(passes, log, m, n, end);
    PollEnds(cfg, passes, n, p, end);
  }

  lemma WellFormedBelow(t: Tables, log: seq<Log>, lo: nat, mid: nat, hi: nat)
    requires InChainOrder(log) && lo <= mid + 1 && mid <= hi && WellFormed(t, InRange(log, lo, hi))
    ensures WellFormed(t, InRange(log, lo, mid))
  {
    InRangeSplit(log, lo, mid, hi);
    WellFormedPrefix(t, InRange(log, lo, mid), InRange(log, mid + 1, hi));
  }

  lemma RunAdvances(cfg: Config, passes: Passes, m: Monitor, polls: seq<Poll>)
    requires Run(cfg, passes, m, polls).ok
    ensures m.indexed <= Run(cfg, passes, m, polls).monitor.indexed
  {
    RunTiles(cfg, passes, m, polls);
    TilesCover(Run(cfg, passes, m, polls).ranges, m.indexed, Run(cfg, passes, m, polls).monitor.indexed, 0);
  }

  lemma PollAdvances(cfg: Config, passes: Passes, m: Monitor, p: Poll)
    requires PollOnce(cfg, passes, m, p).ok
    ensures var n := PollOnce(cfg, passes, m, p).monitor;
            n == m || (Target(cfg, p) > m.indexed && n.indexed == RangeEnd(cfg, m.indexed, Target(cfg, p)))
  {
  }

  /** After every run without an error the tables equal the chronological replay of the indexed blocks. */
  lemma {:induction false} RunReplays(cfg: Config, passes: Passes, log: seq<Log>, m: Monitor, polls: seq<Poll>)
    requires InChainOrder(log) && Closed(m.tables) && FollowsLog(passes, log) && Run(cfg, passes, m, polls).ok
    requires WellFormedUpTo(log, m, Run(cfg, passes, m, polls).monitor.indexed)
    ensures Agrees(log, m, Run(cfg, passes, m, polls).monitor)
  {
    if polls == [] {
      EmptyRange(log, m.indexed + 1, m.indexed);
    } else {
      var k := |polls| - 1;
      var n := Run(cfg, passes, m, polls[..k]).monitor;
      RunAdvances(cfg, passes, m, polls[..k]);
      PollAdvances(cfg, passes, n, polls[k]);
      WellFormedBelow(m.tables, log, m.indexed + 1, n.indexed, Run(cfg, passes, m, polls).monitor.indexed);
      RunReplays(cfg, passes, log, m, polls[..k]);
      if Run(cfg, passes, m, polls).monitor != n {
        StepAgrees(cfg, passes, log, m, n, polls[k]);
      }
    }
  }

  lemma {:induction false} EmptyRange(log: seq<Log>, lo: nat, hi: nat)
    requires hi < lo
    ensures InRange(log, lo, hi) == []
  {
    if log != [] {
      EmptyRange(log[..|log| - 1], lo, hi);
    }
  }

  /** On a well-formed log the loop stops only for an RPC or database failure. */
  lemma {:induction false} RunNeverRefused(cfg: Config, passes: Passes, log: seq<Log>, m: Monitor, polls: seq<Poll>)
    requires InChainOrder(log) && Closed(m.tables) && FollowsLog(passes, log)
    requires forall hi: nat :: WellFormedUpTo(log, m, hi)
    requires forall i :: 0 <= i < |polls| ==> polls[i].budget.None? && Target(cfg, polls[i]) <= MAX_I64
    ensures Run(cfg, passes, m, polls).ok
  {
    if polls != [] {
      var k := |polls| - 1;
      RunNeverRefused(cfg, passes, log, m, polls[..k]);
      RunReplays(cfg, passes, log, m, polls[..k]);
      RunAdvances(cfg, passes, m, polls[..k]);
      var n := Run(cfg, passes, m, polls[..k]).monitor;
      if Target(cfg, polls[k]) > n.indexed {
        StepAgrees(cfg, passes, log, m, n, polls[k]);
      }
    }
  }
}
