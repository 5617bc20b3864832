/** Running statements one after another, and the order in which the indexer runs them. */
module RegistryReplay {
  import opened Wrappers
  import opened RegistryDb

  datatype Event =
    | Registered(root: nat, owner: nat, at: nat, keys: seq<Pubkey>)
    | OptedIn(root: nat, slasher: nat, committer: nat, at: nat)
    | Unregistered(root: nat, at: nat)
    | Slashed(root: nat, at: nat)

  datatype Log = Log(block: nat, event: Event)

  datatype Outcome = Outcome(tables: Tables, ok: bool)

  // Runs the statements until one is refused, or until `budget` of them have run.
  function Attempt(t: Tables, sts: seq<Statement>, budget: Option<nat>): Outcome {
    if sts == [] then Outcome(t, true)
    else
      var n := |sts| - 1;
      var o := Attempt(t, sts[..n], budget);
      if !o.ok then o
      else if (budget.Some? && budget.value <= n) || Refused(o.tables, sts[n]) then Outcome(o.tables, false)
      else Outcome(Exec(o.tables, sts[n]), true)
  }

  function Left(budget: Option<nat>, used: nat): Option<nat> {
    if budget.None? then None else Some(SaturatingSub(budget.value, used))
  }

  lemma {:induction false} AttemptAppend(t: Tables, a: seq<Statement>, b: seq<Statement>, budget: Option<nat>)
    ensures var o := Attempt(t, a, budget);
            Attempt(t, a + b, budget) == if o.ok then Attempt(o.tables, b, Left(budget, |a|)) else o
  {
    if b == [] {
      assert a + b == a;
    } else {
      var n := |b| - 1;
      AttemptAppend(t, a, b[..n], budget);
      assert (a + b)[..|a| + n] == a + b[..n];
      if Attempt(t, a, budget).ok {
        AttemptWithin(t, a, budget);
      }
    }
  }

  lemma {:induction false} AttemptWithin(t: Tables, sts: seq<Statement>, budget: Option<nat>)
    requires Attempt(t, sts, budget).ok
    ensures budget.Some? ==> |sts| <= budget.value
    ensures Attempt(t, sts, None) == Attempt(t, sts, budget)
  {
    if sts != [] {
      AttemptWithin(t, sts[..|sts| - 1], budget);
    }
  }

  // ---------- statements of events, by kind ----------

  function KeyStatements(root: nat, keys: seq<Pubkey>): seq<Statement> {
    seq(|keys|, i requires 0 <= i < |keys| => InsertRegistration(root, i, keys[i]))
  }

  function EventStatements(e: Event): seq<Statement> {
    match e
    case Registered(root, owner, at, keys) => [InsertOperator(root, owner, at)] + KeyStatements(root, keys)
    case OptedIn(root, slasher, committer, at) => [InsertProtocol(root, slasher, committer, at)]
    case Unregistered(root, at) => [SetUnregistered(root, at)]
    case Slashed(root, at) => [SetSlashed(root, at)]
  }

  function Statements(logs: seq<Log>): seq<Statement> {
    if logs == [] then [] else Statements(logs[..|logs| - 1]) + EventStatements(logs[|logs| - 1].event)
  }

  function EventKind(e: Event): nat {
    match e
    case Registered(_, _, _, _) => 0
    case OptedIn(_, _, _, _) => 1
    case Unregistered(_, _) => 2
    case Slashed(_, _) => 3
  }

  function Kind(st: Statement): nat {
    match st
    case InsertProtocol(_, _, _, _) => 1
    case SetUnregistered(_, _) => 2
    case SetSlashed(_, _) => 3
    case _ => 0
  }

  function OfKind(logs: seq<Log>, k: nat): seq<Log> {
    if logs == [] then []
    else
      var rest, last := OfKind(logs[..|logs| - 1], k), logs[|logs| - 1];
      if EventKind(last.event) == k then rest + [last] else rest
  }

  function Pick(sts: seq<Statement>, k: nat): seq<Statement> {
    if sts == [] then []
    else
      var rest, last := Pick(sts[..|sts| - 1], k), sts[|sts| - 1];
      if Kind(last) == k then rest + [last] else rest
  }

  function ByKind(sts: seq<Statement>): seq<Statement> {
    Pick(sts, 0) + Pick(sts, 1) + Pick(sts, 2) + Pick(sts, 3)
  }

  lemma {:induction false} PickAppend(a: seq<Statement>, b: seq<Statement>, k: nat)
    ensures Pick(a + b, k) == Pick(a, k) + Pick(b, k)
  {
    if b == [] {
      assert a + b == a;
    } else {
      var n := |b| - 1;
      assert (a + b)[..|a| + n] == a + b[..n];
      PickAppend(a, b[..n], k);
    }
  }

  lemma {:induction false} PickUniform(sts: seq<Statement>, j: nat, k: nat)
    requires forall i :: 0 <= i < |sts| ==> Kind(sts[i]) == j
    ensures Pick(sts, k) == if j == k then sts else []
  {
    if sts != [] {
      PickUniform(sts[..|sts| - 1], j, k);
    }
  }

  lemma StatementsPush(logs: seq<Log>, log: Log)
    ensures Statements(logs + [log]) == Statements(logs) + EventStatements(log.event)
  {
    assert (logs + [log])[..|logs|] == logs;
  }

  lemma PickEvent(e: Event, k: nat)
    ensures Pick(EventStatements(e), k) == if EventKind(e) == k then EventStatements(e) else []
  {
    PickUniform(EventStatements(e), EventKind(e), k);
  }

  // Selecting logs by kind selects exactly their statements.
  lemma {:induction false} KindsAgree(logs: seq<Log>, k: nat)
    ensures Statements(OfKind(logs, k)) == Pick(Statements(logs), k)
  {
    if logs != [] {
      var n := |logs| - 1;
      KindsAgree(logs[..n], k);
      PickAppend(Statements(logs[..n]), EventStatements(logs[n].event), k);
      PickEvent(logs[n].event, k);
      StatementsPush(OfKind(logs[..n], k), logs[n]);
    }
  }

  // ---------- reordering ----------

  // The statement runs and touches a row.
  predicate Hits(t: Tables, st: Statement) {
    !Refused(t, st) && (st.IsInsert() || st.root in t.operators)
  }

  predicate Strict(t: Tables, sts: seq<Statement>) {
    sts == [] ||
    var n := |sts| - 1;
    Strict(t, sts[..n]) && Hits(Attempt(t, sts[..n], None).tables, sts[n])
  }

  lemma {:induction false} StrictRuns(t: Tables, sts: seq<Statement>)
    requires Strict(t, sts)
    ensures Attempt(t, sts, None).ok
  {
    if sts != [] {
      StrictRuns(t, sts[..|sts| - 1]);
    }
  }

  lemma {:induction false} StrictAppend(t: Tables, a: seq<Statement>, b: seq<Statement>)
    ensures Strict(t, a + b) <==> Strict(t, a) && Strict(Attempt(t, a, None).tables, b)
  {
    if b == [] {
      assert a + b == a;
    } else {
      var n := |b| - 1;
      assert (a + b)[..|a| + n] == a + b[..n];
      StrictAppend(t, a, b[..n]);
      if Strict(t, a) {
        StrictRuns(t, a);
        AttemptAppend(t, a, b[..n], None);
      }
    }
  }

  // A statement of a lower kind may run before its predecessor.
  lemma Commute(t: Tables, b: Statement, s: Statement)
    requires Kind(s) < Kind(b) && Hits(t, b) && Hits(Exec(t, b), s)
    ensures Hits(t, s) && Hits(Exec(t, s), b) && Exec(Exec(t, s), b) == Exec(Exec(t, b), s)
  {
    var u, v := Exec(Exec(t, s), b), Exec(Exec(t, b), s);
    assert u.operators == v.operators;
  }

  lemma Regrouped(a: seq<Statement>, b: seq<Statement>, s: Statement)
    requires b != []
    ensures var n := |b| - 1;
            && a + b + [s] == (a + b[..n]) + [b[n]] + [s]
            && a + [s] + b == (a + [s] + b[..n]) + [b[n]]
  {
  }

  // A statement moves left over a block of statements of higher kinds.
  lemma {:induction false} MoveLeft(t: Tables, a: seq<Statement>, b: seq<Statement>, s: Statement)
    requires Strict(t, a + b + [s])
    requires forall i :: 0 <= i < |b| ==> Kind(s) < Kind(b[i])
    ensures Strict(t, a + [s] + b)
    ensures Attempt(t, a + [s] + b, None) == Attempt(t, a + b + [s], None)
    decreases |b|
  {
    if b == [] {
      assert a + b + [s] == a + [s] + b;
    } else {
      var n := |b| - 1;
      Regrouped(a, b, s);
      SwapLast(t, a + b[..n], b[n], s);
      MoveLeft(t, a, b[..n], s);
      MoveLast(t, a + b[..n], a + [s] + b[..n], b[n], s);
    }
  }

  lemma MoveLast(t: Tables, a: seq<Statement>, moved: seq<Statement>, b: Statement, s: Statement)
    requires Strict(t, a + [b] + [s]) && Kind(s) < Kind(b)
    requires Strict(t, moved) && Attempt(t, moved, None) == Attempt(t, a + [s], None)
    ensures Strict(t, moved + [b])
    ensures Attempt(t, moved + [b], None) == Attempt(t, a + [b] + [s], None)
  {
    SwapLast(t, a, b, s);
    LastOne(t, moved, b);
  }

  lemma SwapLast(t: Tables, a: seq<Statement>, b: Statement, s: Statement)
    requires Strict(t, a + [b] + [s]) && Kind(s) < Kind(b)
    ensures Strict(t, a + [s]) && Hits(Attempt(t, a + [s], None).tables, b)
    ensures Exec(Attempt(t, a + [s], None).tables, b) == Attempt(t, a + [b] + [s], None).tables
    ensures Attempt(t, a + [b] + [s], None).ok
  {
    LastTwo(t, a, b, s, a + [b] + [s]);
    Commute(Attempt(t, a, None).tables, b, s);
    LastOne(t, a, s);
  }

  lemma LastOne(t: Tables, a: seq<Statement>, x: Statement)
    requires Strict(t, a) && Hits(Attempt(t, a, None).tables, x)
    ensures Strict(t, a + [x])
    ensures Attempt(t, a + [x], None) == Outcome(Exec(Attempt(t, a, None).tables, x), true)
  {
    assert (a + [x])[..|a|] == a;
    StrictRuns(t, a);
  }

  lemma LastTwo(t: Tables, a: seq<Statement>, x: Statement, y: Statement, all: seq<Statement>)
    requires all == a + [x] + [y] && Strict(t, all)
    ensures var u := Attempt(t, a, None).tables;
            && Strict(t, a) && Hits(u, x) && Hits(Exec(u, x), y)
            && Attempt(t, all, None) == Outcome(Exec(Exec(u, x), y), true)
  {
    assert all[..|a| + 1] == a + [x];
    assert (a + [x])[..|a|] == a;
    LastOne(t, a, x);
    LastOne(t, a + [x], y);
  }

  lemma {:induction false} PickKinds(sts: seq<Statement>, k: nat)
    ensures forall i :: 0 <= i < |Pick(sts, k)| ==> Kind(Pick(sts, k)[i]) == k
  {
    if sts != [] {
      PickKinds(sts[..|sts| - 1], k);
    }
  }

  // Where a new last statement goes in the order by kind.
  lemma ByKindPush(sts: seq<Statement>, s: Statement)
    returns (a: seq<Statement>, b: seq<Statement>)
    ensures ByKind(sts) == a + b && ByKind(sts + [s]) == a + [s] + b
    ensures forall i :: 0 <= i < |b| ==> Kind(s) < Kind(b[i])
  {
    assert (sts + [s])[..|sts|] == sts;
    var p0, p1, p2, p3 := Pick(sts, 0), Pick(sts, 1), Pick(sts, 2), Pick(sts, 3);
    PickKinds(sts, 1);
    PickKinds(sts, 2);
    PickKinds(sts, 3);
    if Kind(s) == 0 {
      a, b := p0, p1 + p2 + p3;
    } else if Kind(s) == 1 {
      a, b := p0 + p1, p2 + p3;
    } else if Kind(s) == 2 {
      a, b := p0 + p1 + p2, p3;
    } else {
      a, b := p0 + p1 + p2 + p3, [];
    }
  }

  /** Kind by kind and chronological execution give the same tables. */
  lemma {:induction false} ByKindEqualsChronological(t: Tables, sts: seq<Statement>)
    requires Strict(t, sts)
    ensures Strict(t, ByKind(sts)) && Attempt(t, ByKind(sts), None) == Attempt(t, sts, None)
  {
    if sts != [] {
      var n := |sts| - 1;
      var s := sts[n];
      ByKindEqualsChronological(t, sts[..n]);
      assert sts == sts[..n] + [s];
      var a, b := ByKindPush(sts[..n], s);
      LastOne(t, a + b, s);
      LastOne(t, sts[..n], s);
      MoveLeft(t, a, b, s);
    }
  }

  // ---------- well-formed logs ----------

  ghost predicate RegisteredIn(logs: seq<Log>, root: nat) {
    exists i :: 0 <= i < |logs| && logs[i].event.Registered? && logs[i].event.root == root
  }

  ghost predicate OptedInIn(logs: seq<Log>, slasher: nat, root: nat) {
    exists i :: 0 <= i < |logs| && logs[i].event.OptedIn? && logs[i].event.slasher == slasher && logs[i].event.root == root
  }

  // Registration roots and opt-ins are new, other events follow the registration, numbers fit 64 bits.
  ghost predicate Proper(t: Tables, before: seq<Log>, e: Event) {
    && e.at <= MAX_I64
    && (e.Registered? <==> !(e.root in t.operators || RegisteredIn(before, e.root)))
    && (e.Registered? ==> |e.keys| <= MAX_I64 + 1)
    && (e.OptedIn? ==> (e.slasher, e.root) !in t.protocols && !OptedInIn(before, e.slasher, e.root))
  }

  ghost predicate WellFormed(t: Tables, logs: seq<Log>) {
    forall i :: 0 <= i < |logs| ==> Proper(t, logs[..i], logs[i].event)
  }

  // Foreign keys hold.
  ghost predicate Closed(t: Tables) {
    && (forall k :: k in t.registrations ==> k.0 in t.operators)
    && (forall k :: k in t.protocols ==> k.1 in t.operators)
  }

  lemma {:induction false} KeysRun(t: Tables, root: nat, keys: seq<Pubkey>)
    requires root in t.operators && forall i :: (root, i) !in t.registrations
    ensures Strict(t, KeyStatements(root, keys)) <==> |keys| <= MAX_I64 + 1
    ensures |keys| <= MAX_I64 + 1 ==>
              var u := Attempt(t, KeyStatements(root, keys), None).tables;
              && u.operators == t.operators && u.protocols == t.protocols
              && forall k :: k in u.registrations <==> k in t.registrations || (k.0 == root && 0 <= k.1 < |keys|)
  {
    if keys != [] {
      var n := |keys| - 1;
      KeysRun(t, root, keys[..n]);
      var sts := KeyStatements(root, keys);
      assert sts[..n] == KeyStatements(root, keys[..n]);
      if |keys| <= MAX_I64 + 1 {
        StrictRuns(t, sts[..n]);
      }
    }
  }

  // In closed tables a single event runs exactly when it is proper there.
  lemma EventRunsIff(t: Tables, e: Event)
    requires Closed(t)
    ensures Strict(t, EventStatements(e)) <==> Proper(t, [], e)
    ensures Strict(t, EventStatements(e)) ==> Follows(t, e, Attempt(t, EventStatements(e), None).tables)
  {
    var sts := EventStatements(e);
    if e.Registered? {
      var first := [InsertOperator(e.root, e.owner, e.at)];
      StrictAppend(t, first, KeyStatements(e.root, e.keys));
      assert first[..0] == [];
      if e.root !in t.operators && e.at <= MAX_I64 {
        var u := Exec(t, first[0]);
        KeysRun(u, e.root, e.keys);
        AttemptAppend(t, first, KeyStatements(e.root, e.keys), None);
      }
    } else {
      assert sts[..0] == [];
    }
  }

  // Which keys the tables hold after an event.
  ghost predicate Follows(t: Tables, e: Event, u: Tables) {
    && Closed(u)
    && (forall r: nat :: r in u.operators <==> r in t.operators || (e.Registered? && r == e.root))
    && (forall s: nat, r: nat :: (s, r) in u.protocols <==> (s, r) in t.protocols || (e.OptedIn? && s == e.slasher && r == e.root))
  }

  // Which keys the tables hold after a replay.
  ghost predicate Holds(t: Tables, logs: seq<Log>, u: Tables) {
    && Closed(u)
    && (forall r: nat :: r in u.operators <==> r in t.operators || RegisteredIn(logs, r))
    && (forall s: nat, r: nat :: (s, r) in u.protocols <==> (s, r) in t.protocols || OptedInIn(logs, s, r))
  }

  lemma ProperStep(t: Tables, logs: seq<Log>, u: Tables, e: Event)
    requires Holds(t, logs, u)
    ensures Proper(u, [], e) <==> Proper(t, logs, e)
  {
  }

  lemma HoldsStep(t: Tables, logs: seq<Log>, log: Log, u: Tables, v: Tables)
    requires Holds(t, logs, u) && Follows(u, log.event, v)
    ensures Holds(t, logs + [log], v)
  {
    var all := logs + [log];
    assert all[|logs|] == log;
    forall r: nat ensures RegisteredIn(all, r) <==> RegisteredIn(logs, r) || (log.event.Registered? && r == log.event.root) {
      if RegisteredIn(logs, r) {
        var i :| 0 <= i < |logs| && logs[i].event.Registered? && logs[i].event.root == r;
        assert all[i] == logs[i];
      }
    }
    forall s: nat, r: nat ensures OptedInIn(all, s, r) <==>
                        OptedInIn(logs, s, r) || (log.event.OptedIn? && s == log.event.slasher && r == log.event.root)
    {
      if OptedInIn(logs, s, r) {
        var i :| 0 <= i < |logs| && logs[i].event.OptedIn? && logs[i].event.slasher == s && logs[i].event.root == r;
        assert all[i] == logs[i];
      }
    }
  }

  lemma WellFormedPush(t: Tables, logs: seq<Log>)
    requires logs != []
    ensures var n := |logs| - 1;
            WellFormed(t, logs) <==> WellFormed(t, logs[..n]) && Proper(t, logs[..n], logs[n].event)
  {
    var n := |logs| - 1;
    assert forall i :: 0 <= i < n ==> logs[..n][..i] == logs[..i];
  }

  // The statements of a log match it: they run exactly when it is well-formed, and leave its keys.
  ghost predicate Matches(t: Tables, logs: seq<Log>, sts: seq<Statement>) {
    && (WellFormed(t, logs) <==> Strict(t, sts))
    && (WellFormed(t, logs) ==> Holds(t, logs, Attempt(t, sts, None).tables))
  }

  lemma MatchesPush(t: Tables, logs: seq<Log>, log: Log, sts: seq<Statement>)
    requires Matches(t, logs, sts)
    ensures Matches(t, logs + [log], sts + EventStatements(log.event))
  {
    WellFormedPush(t, logs + [log]);
    assert (logs + [log])[..|logs|] == logs;
    StrictAppend(t, sts, EventStatements(log.event));
    if WellFormed(t, logs) {
      StrictRuns(t, sts);
      AttemptAppend(t, sts, EventStatements(log.event), None);
      EventAfter(t, logs, Attempt(t, sts, None).tables, log);
    }
  }

  lemma {:induction false} StatementsMatch(t: Tables, logs: seq<Log>)
    requires Closed(t)
    ensures Matches(t, logs, Statements(logs))
  {
    if logs != [] {
      var n := |logs| - 1;
      StatementsMatch(t, logs[..n]);
      MatchesPush(t, logs[..n], logs[n], Statements(logs[..n]));
      assert logs[..n] + [logs[n]] == logs;
    }
  }

  /** A log is well-formed exactly when its chronological replay runs and every update hits a row. */
  lemma WellFormedIffStrict(t: Tables, logs: seq<Log>)
    requires Closed(t)
    ensures WellFormed(t, logs) <==> Strict(t, Statements(logs))
    ensures WellFormed(t, logs) ==> Holds(t, logs, Attempt(t, Statements(logs), None).tables)
  {
    StatementsMatch(t, logs);
  }

  lemma EventAfter(t: Tables, logs: seq<Log>, u: Tables, log: Log)
    requires Holds(t, logs, u)
    ensures Strict(u, EventStatements(log.event)) <==> Proper(t, logs, log.event)
    ensures Proper(t, logs, log.event) ==>
              Holds(t, logs + [log], Attempt(u, EventStatements(log.event), None).tables)
  {
    ProperStep(t, logs, u, log.event);
    EventRunsIff(u, log.event);
    if Proper(u, [], log.event) {
      HoldsStep(t, logs, log, u, Attempt(u, EventStatements(log.event), None).tables);
    }
  }
}
