/** Ranges that broke off, and what later processes can do about them. */
module RegistryRestarts {
  import opened Wrappers
  import opened RegistryDb
  import opened RegistryReplay
  import opened RegistryUpdates
  import opened RegistryMonitors
  import opened RegistryRuns

  // ---------- restarts ----------

  // A new process reads the status row, or takes it for 0 when the query fails.
  function Restart(cfg: Config, m: Monitor, readable: bool): Monitor {
    m.(indexed := Resume(cfg, if readable then m.status else 0))
  }

  // Rows are never deleted.
  lemma {:induction false} TakenStays(t: Tables, sts: seq<Statement>, budget: Option<nat>, st: Statement)
    requires Taken(t, st)
    ensures Taken(Attempt(t, sts, budget).tables, st)
  {
    if sts != [] {
      TakenStays(t, sts[..|sts| - 1], budget, st);
    }
  }

  lemma {:induction false} TakenRefuses(t: Tables, sts: seq<Statement>, budget: Option<nat>, j: nat)
    requires j < |sts| && Taken(t, sts[j])
    ensures !Attempt(t, sts, budget).ok
  {
    var n := |sts| - 1;
    if j < n {
      TakenRefuses(t, sts[..n], budget, j);
    } else {
      TakenStays(t, sts[..n], budget, sts[n]);
    }
  }

  lemma {:induction false} InsertsTake(t: Tables, sts: seq<Statement>, i: nat)
    requires Attempt(t, sts, None).ok && i < |sts| && sts[i].IsInsert()
    ensures Taken(Attempt(t, sts, None).tables, sts[i])
  {
    var n := |sts| - 1;
    if i < n {
      InsertsTake(t, sts[..n], i);
      TakenStays(Attempt(t, sts[..n], None).tables, [sts[n]], None, sts[i]);
      assert [sts[n]][..0] == [];
    }
  }

  // ---------- retrying a range that broke off ----------

  predicate InsertsFirst(sts: seq<Statement>) {
    forall i, j :: 0 <= i < j < |sts| && sts[j].IsInsert() ==> sts[i].IsInsert()
  }

  lemma {:induction false} StrictBounds(t: Tables, sts: seq<Statement>)
    requires Strict(t, sts)
    ensures forall i :: 0 <= i < |sts| ==> sts[i].Bound() <= MAX_I64
  {
    if sts != [] {
      StrictBounds(t, sts[..|sts| - 1]);
    }
  }

  lemma ByKindInsertsFirst(sts: seq<Statement>)
    ensures InsertsFirst(ByKind(sts))
  {
    PickKinds(sts, 0);
    PickKinds(sts, 1);
    PickKinds(sts, 2);
    PickKinds(sts, 3);
  }

  /**
   A range that broke off after k statements can be retried exactly when none of them was an insert.
   Then the retry ends where an unbroken pass would have; otherwise it fails at its first statement.
   */
  lemma RetryIff(t: Tables, sts: seq<Statement>, k: nat, budget: Option<nat>)
    requires Strict(t, sts) && InsertsFirst(sts) && k <= |sts|
    ensures var u := Attempt(t, sts[..k], None).tables;
            && (Attempt(u, sts, None).ok <==> k == 0 || !sts[0].IsInsert())
            && (Attempt(u, sts, None).ok ==> Attempt(u, sts, None) == Attempt(t, sts, None))
            && (k > 0 && sts[0].IsInsert() ==> Attempt(u, sts, budget) == Outcome(u, false))
  {
    var p, q := sts[..k], sts[k..];
    assert sts == p + q;
    var u := Attempt(t, p, None).tables;
    StrictAppend(t, p, q);
    StrictRuns(t, p);
    StrictRuns(t, sts);
    AttemptAppend(t, p, q, None);
    AttemptAppend(u, p, q, None);
    if k > 0 && sts[0].IsInsert() {
      InsertsTake(t, p, 0);
      TakenRefuses(u, sts, None, 0);
      FirstRefused(u, sts, budget);
    } else {
      StrictBounds(t, sts);
      UpdatesTwice(t, p);
    }
  }

  lemma {:induction false} FirstRefused(t: Tables, sts: seq<Statement>, budget: Option<nat>)
    requires sts != [] && Taken(t, sts[0])
    ensures Attempt(t, sts, budget) == Outcome(t, false)
  {
    var n := |sts| - 1;
    if n == 0 {
      assert sts[..0] == [];
    } else {
      FirstRefused(t, sts[..n], budget);
    }
  }

  lemma CompleteStuck(m: Monitor, sts: seq<Statement>, end: nat, budget: Option<nat>, st: Statement)
    requires st in sts && Taken(m.tables, st)
    ensures var s := Complete(m, sts, end, budget);
            && !s.ok && s.monitor == m.(tables := s.monitor.tables) && Taken(s.monitor.tables, st)
  {
    var j :| 0 <= j < |sts| && sts[j] == st;
    TakenRefuses(m.tables, sts, budget, j);
    TakenStays(m.tables, sts, budget, st);
  }

  // ---------- which log a statement comes from ----------

  lemma {:induction false} InRangeHolds(log: seq<Log>, lo: nat, hi: nat, i: nat)
    requires i < |log| && lo <= log[i].block <= hi
    ensures log[i] in InRange(log, lo, hi)
  {
    if i < |log| - 1 {
      InRangeHolds(log[..|log| - 1], lo, hi, i);
    }
  }

  lemma {:induction false} StatementsHold(logs: seq<Log>, log: Log, st: Statement)
    requires log in logs && st in EventStatements(log.event)
    ensures st in Statements(logs)
  {
    var n := |logs| - 1;
    var before, own := Statements(logs[..n]), EventStatements(logs[n].event);
    assert st in before || st in own by {
      if logs[n] != log {
        StatementsHold(logs[..n], log, st);
      }
    }
    assert Statements(logs) == before + own;
    InEither(before, own, st);
  }

  lemma InEither(a: seq<Statement>, b: seq<Statement>, st: Statement)
    ensures st in a + b <==> st in a || st in b
  {
  }

  lemma {:induction false} PickHolds(sts: seq<Statement>, st: Statement, k: nat)
    ensures st in Pick(sts, k) <==> st in sts && Kind(st) == k
  {
    if sts != [] {
      PickHolds(sts[..|sts| - 1], st, k);
    }
  }

  lemma ByKindHolds(sts: seq<Statement>, st: Statement)
    ensures st in ByKind(sts) <==> st in sts
  {
    PickHolds(sts, st, 0);
    PickHolds(sts, st, 1);
    PickHolds(sts, st, 2);
    PickHolds(sts, st, 3);
  }

  // Every range over the block of an event runs the event's statements.
  lemma RangeHolds(log: seq<Log>, lo: nat, hi: nat, i: nat, st: Statement)
    requires i < |log| && lo <= log[i].block <= hi && st in EventStatements(log[i].event)
    ensures st in RangeStatements(log, lo, hi)
  {
    InRangeHolds(log, lo, hi, i);
    StatementsHold(InRange(log, lo, hi), log[i], st);
    RangeIsByKind(log, lo, hi);
    ByKindHolds(Statements(InRange(log, lo, hi)), st);
  }

  lemma {:induction false} StatementOrigin(logs: seq<Log>, st: Statement) returns (log: Log)
    requires st in Statements(logs)
    ensures log in logs && st in EventStatements(log.event)
  {
    var n := |logs| - 1;
    if st in EventStatements(logs[n].event) {
      log := logs[n];
    } else {
      log := StatementOrigin(logs[..n], st);
    }
  }

  // A statement of a range comes from an event of one of its blocks.
  lemma RangeOrigin(log: seq<Log>, lo: nat, hi: nat, st: Statement) returns (i: nat)
    requires st in RangeStatements(log, lo, hi)
    ensures i < |log| && lo <= log[i].block <= hi && st in EventStatements(log[i].event)
  {
    RangeIsByKind(log, lo, hi);
    ByKindHolds(Statements(InRange(log, lo, hi)), st);
    var entry := StatementOrigin(InRange(log, lo, hi), st);
    InRangeBounds(log, lo, hi);
    var j :| 0 <= j < |InRange(log, lo, hi)| && InRange(log, lo, hi)[j] == entry;
    assert entry in log;
    i :| 0 <= i < |log| && log[i] == entry;
  }

  // ---------- a poll that breaks off ----------

  ghost predicate Inserting(log: seq<Log>, lo: nat, hi: nat) {
    exists i :: 0 <= i < |log| && lo <= log[i].block <= hi && (log[i].event.Registered? || log[i].event.OptedIn?)
  }

  lemma InsertLeads(sts: seq<Statement>, st: Statement)
    requires InsertsFirst(sts) && st in sts && st.IsInsert()
    ensures sts[0].IsInsert()
  {
    var j :| 0 <= j < |sts| && sts[j] == st;
  }

  // ---------- the same for what the passes run ----------

  lemma PassesHold(passes: Passes, log: seq<Log>, lo: nat, hi: nat, i: nat, st: Statement)
    requires FollowsLog(passes, log)
    requires i < |log| && lo <= log[i].block <= hi && st in EventStatements(log[i].event)
    ensures st in passes(lo, hi)
  {
    RangeHolds(log, lo, hi, i, st);
    assert RunsRange(passes, log, lo, hi);
  }

  lemma PassesOrigin(passes: Passes, log: seq<Log>, lo: nat, hi: nat, st: Statement) returns (i: nat)
    requires FollowsLog(passes, log) && st in passes(lo, hi)
    ensures i < |log| && lo <= log[i].block <= hi && st in EventStatements(log[i].event)
  {
    assert RunsRange(passes, log, lo, hi);
    i := RangeOrigin(log, lo, hi, st);
  }

  lemma PassesInsertFirst(passes: Passes, log: seq<Log>, lo: nat, hi: nat)
    requires FollowsLog(passes, log)
    ensures InsertsFirst(passes(lo, hi))
  {
    PassesByKind(passes, log, lo, hi);
    ByKindInsertsFirst(Statements(InRange(log, lo, hi)));
  }

  // A range that inserts anything inserts first.
  lemma InsertingIff(passes: Passes, log: seq<Log>, lo: nat, hi: nat)
    requires FollowsLog(passes, log)
    ensures Inserting(log, lo, hi) <==> passes(lo, hi) != [] && passes(lo, hi)[0].IsInsert()
  {
    if Inserting(log, lo, hi) {
      var i :| 0 <= i < |log| && lo <= log[i].block <= hi && (log[i].event.Registered? || log[i].event.OptedIn?);
      var st := EventStatements(log[i].event)[0];
      PassesHold(passes, log, lo, hi, i, st);
      PassesInsertFirst(passes, log, lo, hi);
      InsertLeads(passes(lo, hi), st);
    } else if passes(lo, hi) != [] {
      var i := PassesOrigin(passes, log, lo, hi, passes(lo, hi)[0]);
      assert !log[i].event.Registered? && !log[i].event.OptedIn?;
    }
  }

  lemma {:induction false} BudgetRunsOut(t: Tables, sts: seq<Statement>, k: nat)
    requires Attempt(t, sts, None).ok
    ensures Attempt(t, sts, Some(k)) ==
            if k < |sts| then Outcome(Attempt(t, sts[..k], None).tables, false) else Attempt(t, sts, None)
  {
    if sts != [] {
      var n := |sts| - 1;
      BudgetRunsOut(t, sts[..n], k);
      if k < n {
        assert sts[..n][..k] == sts[..k];
      }
    }
  }

  // A poll with a budget of k statements leaves the tables of the first k, and the status row.
  lemma PollBreaks(cfg: Config, passes: Passes, m: Monitor, p: Poll, end: nat, k: nat)
    requires Target(cfg, p) > m.indexed && end == RangeEnd(cfg, m.indexed, Target(cfg, p))
    requires p.budget == Some(k) && k <= |passes(m.indexed + 1, end)|
    requires Attempt(m.tables, passes(m.indexed + 1, end), None).ok
    ensures var s := PollOnce(cfg, passes, m, p);
            && !s.ok && s.monitor.status == m.status
            && s.monitor.tables == Attempt(m.tables, passes(m.indexed + 1, end)[..k], None).tables
  {
    var sts := passes(m.indexed + 1, end);
    BudgetRunsOut(m.tables, sts, k);
    assert k == |sts| ==> sts[..k] == sts;
  }

  // A well-formed range runs, and every update in it hits a row.
  lemma PassesStrict(passes: Passes, log: seq<Log>, m: Monitor, end: nat)
    requires FollowsLog(passes, log) && Closed(m.tables) && WellFormedUpTo(log, m, end)
    ensures Strict(m.tables, passes(m.indexed + 1, end)) && Attempt(m.tables, passes(m.indexed + 1, end), None).ok
  {
    var logs := InRange(log, m.indexed + 1, end);
    WellFormedIffStrict(m.tables, logs);
    ByKindEqualsChronological(m.tables, Statements(logs));
    PassesByKind(passes, log, m.indexed + 1, end);
    StrictRuns(m.tables, passes(m.indexed + 1, end));
  }

  /**
   A poll of a well-formed range breaks off after k statements and the next process polls the same
   range: it completes exactly when k is 0 or the range inserts nothing, and then as if unbroken.
   */
  lemma RetryRangeIff(cfg: Config, passes: Passes, log: seq<Log>, m: Monitor, p: Poll, q: Poll, end: nat, k: nat)
    requires FollowsLog(passes, log) && Closed(m.tables) && WellFormedUpTo(log, m, end) && end <= MAX_I64
    requires Restart(cfg, m, true) == m && Target(cfg, p) > m.indexed && Target(cfg, q) > m.indexed
    requires end == RangeEnd(cfg, m.indexed, Target(cfg, p)) == RangeEnd(cfg, m.indexed, Target(cfg, q))
    requires p.budget == Some(k) && k <= |passes(m.indexed + 1, end)| && q.budget == None
    ensures var s := PollOnce(cfg, passes, Restart(cfg, PollOnce(cfg, passes, m, p).monitor, true), q);
            && (s.ok <==> k == 0 || !Inserting(log, m.indexed + 1, end))
            && (s.ok ==> s.monitor == PollOnce(cfg, passes, m, q).monitor)
  {
    PassesStrict(passes, log, m, end);
    PassesInsertFirst(passes, log, m.indexed + 1, end);
    InsertingIff(passes, log, m.indexed + 1, end);
    PollBreaks(cfg, passes, m, p, end, k);
    RetryIff(m.tables, passes(m.indexed + 1, end), k, None);
    var r := Restart(cfg, PollOnce(cfg, passes, m, p).monitor, true);
    PollIs(cfg, passes, r, q, end);
    PollIs(cfg, passes, m, q, end);
  }

  // ---------- every later process ----------

  datatype Act = Restarts(readable: bool) | Polls(poll: Poll)

  // A process that returned an error does nothing until the next one starts.
  datatype Process = Process(monitor: Monitor, alive: bool)

  function ActOn(cfg: Config, passes: Passes, s: Process, a: Act): Process {
    match a
    case Restarts(readable) => Process(Restart(cfg, s.monitor, readable), true)
    case Polls(p) =>
      if !s.alive then s
      else
        var r := PollOnce(cfg, passes, s.monitor, p);
        Process(r.monitor, r.ok)
  }

  function LifeAfter(cfg: Config, passes: Passes, s: Process, acts: seq<Act>): Process {
    if acts == [] then s
    else ActOn(cfg, passes, LifeAfter(cfg, passes, s, acts[..|acts| - 1]), acts[|acts| - 1])
  }

  // A row of a block that is not indexed is already there.
  predicate Stuck(cfg: Config, s: Process, st: Statement, block: nat) {
    && Taken(s.monitor.tables, st)
    && s.monitor.status < block && cfg.startBlock < block && (s.alive ==> s.monitor.indexed < block)
  }

  lemma CompleteBelow(m: Monitor, sts: seq<Statement>, end: nat, budget: Option<nat>, st: Statement)
    requires Taken(m.tables, st)
    ensures var s := Complete(m, sts, end, budget);
            && Taken(s.monitor.tables, st) && (s.monitor.status == m.status || s.monitor.status == end)
            && (s.ok ==> s.monitor.indexed == end)
  {
    TakenStays(m.tables, sts, budget, st);
  }

  lemma ActKeepsStuck(cfg: Config, passes: Passes, log: seq<Log>, i: nat, st: Statement, s: Process, a: Act)
    requires FollowsLog(passes, log) && i < |log| && st in EventStatements(log[i].event)
    requires Stuck(cfg, s, st, log[i].block)
    ensures Stuck(cfg, ActOn(cfg, passes, s, a), st, log[i].block)
  {
    if a.Polls? && s.alive && Target(cfg, a.poll) > s.monitor.indexed {
      var m, end := s.monitor, RangeEnd(cfg, s.monitor.indexed, Target(cfg, a.poll));
      PollIs(cfg, passes, m, a.poll, end);
      if end < log[i].block {
        CompleteBelow(m, passes(m.indexed + 1, end), end, a.poll.budget, st);
      } else {
        PassesHold(passes, log, m.indexed + 1, end, i, st);
        CompleteStuck(m, passes(m.indexed + 1, end), end, a.poll.budget, st);
      }
    }
  }

  lemma {:induction false} LifeKeepsStuck(cfg: Config, passes: Passes, log: seq<Log>, i: nat, st: Statement,
                                          s: Process, acts: seq<Act>)
    requires FollowsLog(passes, log) && i < |log| && st in EventStatements(log[i].event)
    requires Stuck(cfg, s, st, log[i].block)
    ensures Stuck(cfg, LifeAfter(cfg, passes, s, acts), st, log[i].block)
  {
    if acts != [] {
      var n := |acts| - 1;
      LifeKeepsStuck(cfg, passes, log, i, st, s, acts[..n]);
      ActKeepsStuck(cfg, passes, log, i, st, LifeAfter(cfg, passes, s, acts[..n]), acts[n]);
    }
  }

  ghost predicate NeverIndexed(cfg: Config, passes: Passes, s: Process, block: nat) {
    forall acts :: LifeAfter(cfg, passes, s, acts).monitor.status < block
  }

  /**
   A poll of a well-formed range that inserts breaks off after at least one statement. Then there is
   a block of that range that no sequence of restarts and polls, at any heights, ever gets past.
   */
  lemma BrokenRangeNeverIndexed(cfg: Config, passes: Passes, log: seq<Log>, m: Monitor, p: Poll, end: nat, k: nat)
      returns (i: nat)
    requires FollowsLog(passes, log) && Closed(m.tables) && WellFormedUpTo(log, m, end)
    requires cfg.startBlock <= m.indexed && m.status <= m.indexed
    requires Target(cfg, p) > m.indexed && end == RangeEnd(cfg, m.indexed, Target(cfg, p))
    requires Inserting(log, m.indexed + 1, end)
    requires p.budget == Some(k) && 0 < k <= |passes(m.indexed + 1, end)|
    ensures i < |log| && m.indexed < log[i].block <= end
    ensures !PollOnce(cfg, passes, m, p).ok
    ensures NeverIndexed(cfg, passes, Process(PollOnce(cfg, passes, m, p).monitor, false), log[i].block)
  {
    var sts := passes(m.indexed + 1, end);
    PassesStrict(passes, log, m, end);
    PollBreaks(cfg, passes, m, p, end, k);
    InsertingIff(passes, log, m.indexed + 1, end);
    assert sts[..k][0] == sts[0];
    AttemptPrefix(m.tables, sts, k);
    InsertsTake(m.tables, sts[..k], 0);
    i := PassesOrigin(passes, log, m.indexed + 1, end, sts[0]);
    var s := Process(PollOnce(cfg, passes, m, p).monitor, false);
    forall acts ensures LifeAfter(cfg, passes, s, acts).monitor.status < log[i].block {
      LifeKeepsStuck(cfg, passes, log, i, sts[0], s, acts);
    }
  }

  lemma AttemptPrefix(t: Tables, sts: seq<Statement>, k: nat)
    requires Attempt(t, sts, None).ok && k <= |sts|
    ensures Attempt(t, sts[..k], None).ok
  {
    assert sts == sts[..k] + sts[k..];
    AttemptAppend(t, sts[..k], sts[k..], None);
  }

  // An insert whose row is already there is never passed, whoever put it there.
  lemma RepeatNeverIndexed(cfg: Config, passes: Passes, log: seq<Log>, i: nat, st: Statement, m: Monitor)
    requires FollowsLog(passes, log) && i < |log| && st in EventStatements(log[i].event)
    requires Stuck(cfg, Process(m, true), st, log[i].block)
    ensures NeverIndexed(cfg, passes, Process(m, true), log[i].block)
  {
    forall acts ensures LifeAfter(cfg, passes, Process(m, true), acts).monitor.status < log[i].block {
      LifeKeepsStuck(cfg, passes, log, i, st, Process(m, true), acts);
    }
  }

  // A process that could not read the status row is refused at the first row it would insert again.
  lemma UnreadableRestartRefused(cfg: Config, passes: Passes, log: seq<Log>, i: nat, st: Statement, m: Monitor, p: Poll)
    requires FollowsLog(passes, log) && i < |log| && st in EventStatements(log[i].event) && Taken(m.tables, st)
    requires cfg.startBlock < log[i].block <= RangeEnd(cfg, cfg.startBlock, Target(cfg, p))
    ensures var s := PollOnce(cfg, passes, Restart(cfg, m, false), p);
            !s.ok && s.monitor.status == m.status && s.monitor.indexed == cfg.startBlock
  {
    var end := RangeEnd(cfg, cfg.startBlock, Target(cfg, p));
    PassesHold(passes, log, cfg.startBlock + 1, end, i, st);
    CompleteStuck(Restart(cfg, m, false), passes(cfg.startBlock + 1, end), end, p.budget, st);
  }

  // One registration in block 5, polled at height 10, with the process lost before the status row.
  const BROKEN_LOG := [Log(5, Registered(7, 1, 100, []))]

  const BROKEN_CONFIG := Config(0, 0, 100)

  const BROKEN_START := Monitor(0, Tables(map[], map[], map[]), 0)

  const BROKEN_POLL := Poll(10, Some(1))

  lemma InRangeOne(log: Log, lo: nat, hi: nat)
    requires lo <= log.block <= hi
    ensures InRange([log], lo, hi) == [log]
  {
    assert [log][..0] == [];
  }

  lemma RegistrationIsWellFormed(t: Tables, log: Log)
    requires Proper(t, [], log.event)
    ensures WellFormed(t, [log])
  {
    assert [log][..0] == [];
  }

  lemma BrokenLogRange()
    ensures WellFormedUpTo(BROKEN_LOG, BROKEN_START, 10) && Inserting(BROKEN_LOG, 1, 10)
  {
    var log := Log(5, Registered(7, 1, 100, []));
    InRangeOne(log, 1, 10);
    RegistrationIsWellFormed(BROKEN_START.tables, log);
    assert BROKEN_LOG[0].event.Registered?;
  }

  /** A concrete broken run: block 5 is never indexed, whatever happens later. */
  lemma BrokenRun(passes: Passes)
    requires FollowsLog(passes, BROKEN_LOG)
    ensures var s := PollOnce(BROKEN_CONFIG, passes, BROKEN_START, BROKEN_POLL);
            !s.ok && NeverIndexed(BROKEN_CONFIG, passes, Process(s.monitor, false), 5)
  {
    BrokenLogRange();
    InsertingIff(passes, BROKEN_LOG, 1, 10);
    var i := BrokenRangeNeverIndexed(BROKEN_CONFIG, passes, BROKEN_LOG, BROKEN_START, BROKEN_POLL, 10, 1);
  }
}
