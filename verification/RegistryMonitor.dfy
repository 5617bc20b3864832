/** The registry indexer: block ranges, and within a range one kind of event after another. */
module RegistryMonitors {
  import opened Wrappers
  import opened RegistryDb
  import opened RegistryReplay

  datatype Config = Config(startBlock: nat, maxForkDepth: nat, batchSize: nat)

  // The chain height, and how many statements run before an RPC or database failure, if any.
  datatype Poll = Poll(height: nat, budget: Option<nat>)

  datatype Monitor = Monitor(indexed: nat, tables: Tables, status: nat)

  // What `get_logs` returns for a range.
  function InRange(log: seq<Log>, lo: nat, hi: nat): seq<Log> {
    if log == [] then []
    else
      var rest, last := InRange(log[..|log| - 1], lo, hi), log[|log| - 1];
      if lo <= last.block <= hi then rest + [last] else rest
  }

  function RangeStatements(log: seq<Log>, lo: nat, hi: nat): seq<Statement> {
    var logs := InRange(log, lo, hi);
    Statements(OfKind(logs, 0)) + Statements(OfKind(logs, 1)) + Statements(OfKind(logs, 2)) + Statements(OfKind(logs, 3))
  }

  // The statements that the four passes over a range run.
  type Passes = (nat, nat) -> seq<Statement>

  ghost predicate RunsRange(passes: Passes, log: seq<Log>, lo: nat, hi: nat) {
    passes(lo, hi) == RangeStatements(log, lo, hi)
  }

  ghost predicate FollowsLog(passes: Passes, log: seq<Log>) {
    forall lo, hi :: RunsRange(passes, log, lo, hi)
  }

  function Target(cfg: Config, p: Poll): nat {
    SaturatingSub(p.height, cfg.maxForkDepth)
  }

  function RangeEnd(cfg: Config, indexed: nat, target: nat): nat {
    Min(indexed + cfg.batchSize, target)
  }

  // Where a process starts: the later of the status row and the configured start.
  function Resume(cfg: Config, status: nat): nat {
    if status >= cfg.startBlock then status else cfg.startBlock
  }

  // `range` is the range that was completed, if any.
  datatype Step = Step(monitor: Monitor, ok: bool, range: Option<(nat, nat)>)

  // The statements of the range up to `end`, then the status row.
  function Complete(m: Monitor, sts: seq<Statement>, end: nat, budget: Option<nat>): Step {
    var o := Attempt(m.tables, sts, budget);
    if !o.ok then Step(m.(tables := o.tables), false, None)
    else if Left(budget, |sts|) == Some(0) || end > MAX_I64
    then Step(m.(tables := o.tables, indexed := end), false, None)
    else Step(Monitor(end, o.tables, end), true, Some((m.indexed + 1, end)))
  }

  function PollOnce(cfg: Config, passes: Passes, m: Monitor, p: Poll): Step {
    if Target(cfg, p) <= m.indexed then Step(m, true, None)
    else
      var end := RangeEnd(cfg, m.indexed, Target(cfg, p));
      Complete(m, passes(m.indexed + 1, end), end, p.budget)
  }

  datatype Progress = Progress(monitor: Monitor, ok: bool, ranges: seq<(nat, nat)>)

  // The loop returns at the first error.
  function Advance(cfg: Config, passes: Passes, r: Progress, p: Poll): Progress {
    if !r.ok then r
    else
      var s := PollOnce(cfg, passes, r.monitor, p);
      Progress(s.monitor, s.ok, if s.range.Some? then r.ranges + [s.range.value] else r.ranges)
  }

  function Run(cfg: Config, passes: Passes, m: Monitor, polls: seq<Poll>): Progress {
    if polls == [] then Progress(m, true, [])
    else Advance(cfg, passes, Run(cfg, passes, m, polls[..|polls| - 1]), polls[|polls| - 1])
  }

  class RegistryMonitor {
    var indexedBlock: nat
    const db: DataBase
    const cfg: Config
    // The registry's events on the chain, in chain order.
    const log: seq<Log>
    ghost const passes: Passes
    // Statements until the next RPC or database failure.
    var budget: Option<nat>

    // `readable` is false when the status query fails, which counts as block 0.
    constructor (db: DataBase, cfg: Config, log: seq<Log>, readable: bool)
      ensures this.db == db && this.cfg == cfg && this.log == log && budget == None && FollowsLog(passes, log)
      ensures indexedBlock == Resume(cfg, if readable then db.indexedBlock else 0)
      ensures cfg.startBlock <= indexedBlock && (readable ==> db.indexedBlock <= indexedBlock)
      ensures indexedBlock == cfg.startBlock || (readable && indexedBlock == db.indexedBlock)
    {
      this.db, this.cfg, this.log, this.budget := db, cfg, log, None;
      this.passes := (lo: nat, hi: nat) => RangeStatements(log, lo, hi);
      var status := if readable then db.indexedBlock else 0;
      indexedBlock := if status >= cfg.startBlock then status else cfg.startBlock;
    }

    function Abs(): Monitor
      reads this, db
    {
      Monitor(indexedBlock, db.Contents(), db.indexedBlock)
    }

    // The statements ran from these tables with this budget, and brought the database here.
    ghost predicate Ran(t: Tables, b: Option<nat>, sts: seq<Statement>, ok: bool)
      reads this, db
    {
      Outcome(db.Contents(), ok) == Attempt(t, sts, b) && (ok ==> budget == Left(b, |sts|))
    }

    method Spend() returns (ok: bool)
      modifies `budget
      ensures ok <==> old(budget) != Some(0)
      ensures budget == Left(old(budget), 1)
    {
      ok := budget != Some(0);
      if ok && budget.Some? {
        budget := Some(budget.value - 1);
      }
    }

    method Execute(st: Statement) returns (ok: bool)
      modifies `budget, db
      ensures db.indexedBlock == old(db.indexedBlock)
      ensures ok <==> old(budget) != Some(0) && !Refused(old(db.Contents()), st)
      ensures db.Contents() == if ok then Exec(old(db.Contents()), st) else old(db.Contents())
      ensures budget == Left(old(budget), 1)
    {
      ok := Spend();
      if ok {
        match st {
          case InsertOperator(root, owner, at) => ok := db.InsertOperator(root, owner, at);
          case InsertRegistration(root, idx, key) => ok := db.InsertSignedRegistration(root, idx, key);
          case InsertProtocol(root, slasher, committer, at) => ok := db.InsertProtocol(root, slasher, committer, at);
          case SetUnregistered(root, at) => ok := db.SetOperatorUnregistered(root, at);
          case SetSlashed(root, at) => ok := db.SetOperatorSlashed(root, at);
        }
      }
    }

    // One more statement after those that ran.
    method Extend(ghost t: Tables, ghost b: Option<nat>, ghost sts: seq<Statement>, st: Statement) returns (ok: bool)
      requires Ran(t, b, sts, true)
      modifies `budget, db
      ensures db.indexedBlock == old(db.indexedBlock)
      ensures Ran(t, b, sts + [st], ok)
    {
      AttemptWithin(t, sts, b);
      assert (sts + [st])[..|sts|] == sts;
      ok := Execute(st);
    }

    method IndexRegister(lo: nat, hi: nat) returns (ok: bool)
      modifies `budget, db
      ensures db.indexedBlock == old(db.indexedBlock)
      ensures Ran(old(db.Contents()), old(budget), Statements(OfKind(InRange(log, lo, hi), 0)), ok)
    {
      ghost var t, b := db.Contents(), budget;
      var logs := OfKind(InRange(log, lo, hi), 0);
      KindOfKind(InRange(log, lo, hi), 0);
      for i := 0 to |logs|
        invariant Ran(t, b, Statements(logs[..i]), true)
        invariant db.indexedBlock == old(db.indexedBlock)
      {
        ghost var rest := StatementsSplit(logs, i);
        assert EventKind(logs[i].event) == 0;
        ok := AddOperator(t, b, Statements(logs[..i]), logs[i].event);
        if !ok {
          AttemptAppend(t, Statements(logs[..i + 1]), rest, b);
          return;
        }
      }
      assert logs[..|logs|] == logs;
      ok := true;
    }

    // The operator row and its signed registrations.
    method AddOperator(ghost t: Tables, ghost b: Option<nat>, ghost sts: seq<Statement>, e: Event) returns (ok: bool)
      requires e.Registered? && Ran(t, b, sts, true)
      modifies `budget, db
      ensures db.indexedBlock == old(db.indexedBlock)
      ensures Ran(t, b, sts + EventStatements(e), ok)
    {
      ok := Extend(t, b, sts, InsertOperator(e.root, e.owner, e.at));
      ghost var base := sts + [InsertOperator(e.root, e.owner, e.at)];
      ghost var keys := KeyStatements(e.root, e.keys);
      assert sts + EventStatements(e) == base + keys;
      AttemptAppend(t, base, keys, b);
      if !ok {
        return;
      }
      assert base + keys[..0] == base;
      for idx := 0 to |e.keys|
        invariant Ran(t, b, base + keys[..idx], true)
        invariant db.indexedBlock == old(db.indexedBlock)
      {
        ok := Extend(t, b, base + keys[..idx], InsertRegistration(e.root, idx, e.keys[idx]));
        assert base + keys[..idx + 1] == base + keys[..idx] + [keys[idx]];
        if !ok {
          assert base + keys == base + keys[..idx + 1] + keys[idx + 1..];
          AttemptAppend(t, base + keys[..idx + 1], keys[idx + 1..], b);
          return;
        }
      }
      assert keys[..|e.keys|] == keys;
    }

    method IndexOptIn(lo: nat, hi: nat) returns (ok: bool)
      modifies `budget, db
      ensures db.indexedBlock == old(db.indexedBlock)
      ensures Ran(old(db.Contents()), old(budget), Statements(OfKind(InRange(log, lo, hi), 1)), ok)
    {
      ghost var t, b := db.Contents(), budget;
      var logs := OfKind(InRange(log, lo, hi), 1);
      KindOfKind(InRange(log, lo, hi), 1);
      for i := 0 to |logs|
        invariant Ran(t, b, Statements(logs[..i]), true)
        invariant db.indexedBlock == old(db.indexedBlock)
      {
        ghost var rest := StatementsSplit(logs, i);
        assert EventKind(logs[i].event) == 1;
        var e := logs[i].event;
        ok := Extend(t, b, Statements(logs[..i]), InsertProtocol(e.root, e.slasher, e.committer, e.at));
        if !ok {
          AttemptAppend(t, Statements(logs[..i + 1]), rest, b);
          return;
        }
      }
      assert logs[..|logs|] == logs;
      ok := true;
    }

    method IndexUnregister(lo: nat, hi: nat) returns (ok: bool)
      modifies `budget, db
      ensures db.indexedBlock == old(db.indexedBlock)
      ensures Ran(old(db.Contents()), old(budget), Statements(OfKind(InRange(log, lo, hi), 2)), ok)
    {
      ghost var t, b := db.Contents(), budget;
      var logs := OfKind(InRange(log, lo, hi), 2);
      KindOfKind(InRange(log, lo, hi), 2);
      for i := 0 to |logs|
        invariant Ran(t, b, Statements(logs[..i]), true)
        invariant db.indexedBlock == old(db.indexedBlock)
      {
        ghost var rest := StatementsSplit(logs, i);
        assert EventKind(logs[i].event) == 2;
        ok := Extend(t, b, Statements(logs[..i]), SetUnregistered(logs[i].event.root, logs[i].event.at));
        if !ok {
          AttemptAppend(t, Statements(logs[..i + 1]), rest, b);
          return;
        }
      }
      assert logs[..|logs|] == logs;
      ok := true;
    }

    method IndexSlash(lo: nat, hi: nat) returns (ok: bool)
      modifies `budget, db
      ensures db.indexedBlock == old(db.indexedBlock)
      ensures Ran(old(db.Contents()), old(budget), Statements(OfKind(InRange(log, lo, hi), 3)), ok)
    {
      ghost var t, b := db.Contents(), budget;
      var logs := OfKind(InRange(log, lo, hi), 3);
      KindOfKind(InRange(log, lo, hi), 3);
      for i := 0 to |logs|
        invariant Ran(t, b, Statements(logs[..i]), true)
        invariant db.indexedBlock == old(db.indexedBlock)
      {
        ghost var rest := StatementsSplit(logs, i);
        assert EventKind(logs[i].event) == 3;
        ok := Extend(t, b, Statements(logs[..i]), SetSlashed(logs[i].event.root, logs[i].event.at));
        if !ok {
          AttemptAppend(t, Statements(logs[..i + 1]), rest, b);
          return;
        }
      }
      assert logs[..|logs|] == logs;
      ok := true;
    }

    // The four passes over one range.
    method IndexRange(lo: nat, hi: nat) returns (ok: bool)
      modifies `budget, db
      ensures db.indexedBlock == old(db.indexedBlock)
      ensures Ran(old(db.Contents()), old(budget), RangeStatements(log, lo, hi), ok)
    {
      ghost var logs := InRange(log, lo, hi);
      FourPasses(db.Contents(), budget, Statements(OfKind(logs, 0)), Statements(OfKind(logs, 1)),
                 Statements(OfKind(logs, 2)), Statements(OfKind(logs, 3)));
      ok := IndexRegister(lo, hi);
      if !ok {
        return;
      }
      ok := IndexOptIn(lo, hi);
      if !ok {
        return;
      }
      ok := IndexUnregister(lo, hi);
      if !ok {
        return;
      }
      ok := IndexSlash(lo, hi);
    }

    method CompleteRange(end: nat) returns (ok: bool)
      requires FollowsLog(passes, log)
      modifies this, db
      ensures var s := Complete(old(Abs()), passes(old(indexedBlock) + 1, end), end, old(budget));
              Abs() == s.monitor && ok == s.ok
    {
      assert RunsRange(passes, log, indexedBlock + 1, end);
      ok := IndexRange(indexedBlock + 1, end);
      if ok {
        indexedBlock := end;
        ok := Spend();
      }
      if ok {
        ok := db.UpdateStatus(indexedBlock);
      }
    }

    method IndexOnce(p: Poll) returns (ok: bool)
      requires FollowsLog(passes, log)
      modifies this, db
      ensures Abs() == PollOnce(cfg, passes, old(Abs()), p).monitor
      ensures ok == PollOnce(cfg, passes, old(Abs()), p).ok
      ensures p.height < old(indexedBlock) + 1 + cfg.maxForkDepth ==> ok && Abs() == old(Abs())
      ensures indexedBlock == old(indexedBlock) || indexedBlock + cfg.maxForkDepth <= p.height
      ensures ok && p.height >= old(indexedBlock) + 1 + cfg.maxForkDepth ==>
                indexedBlock == db.indexedBlock == Min(old(indexedBlock) + cfg.batchSize, p.height - cfg.maxForkDepth)
    {
      budget := p.budget;
      var current := SaturatingSub(p.height, cfg.maxForkDepth);
      var start := indexedBlock + 1;
      if current >= start {
        var end := Min(start + cfg.batchSize - 1, current);
        PollIs(cfg, passes, Abs(), p, end);
        ok := CompleteRange(end);
      } else {
        ok := true;
      }
    }

    method RunIndexingLoop(polls: seq<Poll>) returns (ok: bool)
      requires FollowsLog(passes, log)
      modifies this, db
      ensures Abs() == Run(cfg, passes, old(Abs()), polls).monitor
      ensures ok == Run(cfg, passes, old(Abs()), polls).ok
    {
      for i := 0 to |polls|
        invariant Abs() == Run(cfg, passes, old(Abs()), polls[..i]).monitor
        invariant Run(cfg, passes, old(Abs()), polls[..i]).ok
      {
        assert polls[..i + 1][..i] == polls[..i];
        ok := IndexOnce(polls[i]);
        if !ok {
          StopsAt(cfg, passes, old(Abs()), polls, i + 1);
          return;
        }
      }
      assert polls[..|polls|] == polls;
      ok := true;
    }
  }

  lemma PollIs(cfg: Config, passes: Passes, m: Monitor, p: Poll, end: nat)
    requires Target(cfg, p) > m.indexed && end == RangeEnd(cfg, m.indexed, Target(cfg, p))
    ensures PollOnce(cfg, passes, m, p) == Complete(m, passes(m.indexed + 1, end), end, p.budget)
  {
  }

  lemma {:induction false} KindOfKind(logs: seq<Log>, k: nat)
    ensures forall i :: 0 <= i < |OfKind(logs, k)| ==> EventKind(OfKind(logs, k)[i].event) == k
  {
    if logs != [] {
      KindOfKind(logs[..|logs| - 1], k);
    }
  }

  lemma Regroup(x: seq<Statement>, y: seq<Statement>, z: seq<Statement>)
    ensures (x + y) + z == x + (y + z)
  {
  }

  lemma {:induction false} StatementsAppend(a: seq<Log>, b: seq<Log>)
    ensures Statements(a + b) == Statements(a) + Statements(b)
  {
    if b == [] {
      assert a + b == a;
    } else {
      var n := |b| - 1;
      assert a + b == (a + b[..n]) + [b[n]];
      StatementsAppend(a, b[..n]);
      StatementsPush(a + b[..n], b[n]);
      Regroup(Statements(a), Statements(b[..n]), EventStatements(b[n].event));
    }
  }

  // Statements before, at and after log i.
  lemma StatementsSplit(logs: seq<Log>, i: nat) returns (rest: seq<Statement>)
    requires i < |logs|
    ensures Statements(logs[..i + 1]) == Statements(logs[..i]) + EventStatements(logs[i].event)
    ensures Statements(logs) == Statements(logs[..i + 1]) + rest
  {
    assert logs[..i + 1] == logs[..i] + [logs[i]];
    StatementsPush(logs[..i], logs[i]);
    assert logs == logs[..i + 1] + logs[i + 1..];
    StatementsAppend(logs[..i + 1], logs[i + 1..]);
    rest := Statements(logs[i + 1..]);
  }

  function Pass(o: Outcome, sts: seq<Statement>, budget: Option<nat>): Outcome {
    if o.ok then Attempt(o.tables, sts, budget) else o
  }

  lemma FourPasses(t: Tables, budget: Option<nat>, s0: seq<Statement>, s1: seq<Statement>,
                   s2: seq<Statement>, s3: seq<Statement>)
    ensures var b1 := Left(budget, |s0|);
            var b2 := Left(b1, |s1|);
            var b3 := Left(b2, |s2|);
            && Attempt(t, s0 + s1 + s2 + s3, budget)
               == Pass(Pass(Pass(Attempt(t, s0, budget), s1, b1), s2, b2), s3, b3)
            && Left(b3, |s3|) == Left(budget, |s0 + s1 + s2 + s3|)
  {
    AttemptAppend(t, s0, s1, budget);
    AttemptAppend(t, s0 + s1, s2, budget);
    AttemptAppend(t, s0 + s1 + s2, s3, budget);
  }

  lemma {:induction false} StopsAt(cfg: Config, passes: Passes, m: Monitor, polls: seq<Poll>, i: nat)
    requires i <= |polls| && !Run(cfg, passes, m, polls[..i]).ok
    ensures Run(cfg, passes, m, polls) == Run(cfg, passes, m, polls[..i])
    decreases |polls|
  {
    if i == |polls| {
      assert polls[..i] == polls;
    } else {
      var n := |polls| - 1;
      assert polls[..n][..i] == polls[..i];
      StopsAt(cfg, passes, m, polls[..n], i);
    }
  }
}
