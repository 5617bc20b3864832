/** What the tables say about the log they were built from. */
module RegistryMeaning {
  import opened Wrappers
  import opened RegistryDb
  import opened RegistryReplay
  import opened RegistryMonitors
  import opened RegistryRuns

  function UnregisteredAt(logs: seq<Log>, root: nat): Option<nat> {
    if logs == [] then None
    else
      var e := logs[|logs| - 1].event;
      if e.Unregistered? && e.root == root then Some(e.at) else UnregisteredAt(logs[..|logs| - 1], root)
  }

  function SlashedAt(logs: seq<Log>, root: nat): Option<nat> {
    if logs == [] then None
    else
      var e := logs[|logs| - 1].event;
      if e.Slashed? && e.root == root then Some(e.at) else SlashedAt(logs[..|logs| - 1], root)
  }

  // The rows that an event of the log accounts for.
  ghost predicate EventMeans(logs: seq<Log>, e: Event, u: Tables) {
    match e
    case Registered(root, owner, at, keys) =>
      && root in u.operators
      && u.operators[root] == OperatorRow(owner, at, UnregisteredAt(logs, root), SlashedAt(logs, root))
      && forall j :: 0 <= j < |keys| ==> (root, j) in u.registrations && u.registrations[(root, j)] == keys[j]
    case OptedIn(root, slasher, committer, at) =>
      (slasher, root) in u.protocols && u.protocols[(slasher, root)] == ProtocolRow(committer, at, 0)
    case Unregistered(root, _) =>
      root in u.operators && u.operators[root].unregisteredAt == UnregisteredAt(logs, root)
    case Slashed(root, _) =>
      root in u.operators && u.operators[root].slashedAt == SlashedAt(logs, root)
  }

  ghost predicate Means(logs: seq<Log>, u: Tables) {
    forall i :: 0 <= i < |logs| ==> EventMeans(logs, logs[i].event, u)
  }

  // Some registration of the log brings this key.
  ghost predicate KeyIn(logs: seq<Log>, k: (nat, nat)) {
    exists i :: 0 <= i < |logs| && Brings(logs[i].event, k)
  }

  predicate Brings(e: Event, k: (nat, nat)) {
    e.Registered? && e.root == k.0 && k.1 < |e.keys|
  }

  // An operator that was there before, with the updates of the log.
  function Overlaid(logs: seq<Log>, root: nat, row: OperatorRow): OperatorRow {
    var u, s := UnregisteredAt(logs, root), SlashedAt(logs, root);
    row.(unregisteredAt := if u.Some? then u else row.unregisteredAt, slashedAt := if s.Some? then s else row.slashedAt)
  }

  // Key rows are the old ones and those of the log; old rows change only by updates of the log.
  ghost predicate OldKept(t: Tables, logs: seq<Log>, u: Tables) {
    && (forall k: (nat, nat) :: k in u.registrations <==> k in t.registrations || KeyIn(logs, k))
    && (forall k :: k in t.registrations ==> k in u.registrations && u.registrations[k] == t.registrations[k])
    && (forall k :: k in t.protocols ==> k in u.protocols && u.protocols[k] == t.protocols[k])
    && (forall r :: r in t.operators ==> r in u.operators && u.operators[r] == Overlaid(logs, r, t.operators[r]))
  }

  /**
   The tables are exactly what the old tables and the log account for: every row of an event is there,
   every row comes from the old tables or from an event, and nothing else was touched.
   */
  ghost predicate Accounts(t: Tables, logs: seq<Log>, u: Tables) {
    Means(logs, u) && Holds(t, logs, u) && OldKept(t, logs, u)
  }

  // ---------- one event ----------

  ghost predicate Effect(u: Tables, e: Event, v: Tables) {
    match e
    case Registered(root, owner, at, keys) =>
      && v.operators == u.operators[root := OperatorRow(owner, at, None, None)]
      && v.protocols == u.protocols
      && (forall k :: k in u.registrations ==> k in v.registrations && v.registrations[k] == u.registrations[k])
      && (forall k: (nat, nat) :: k in v.registrations <==> k in u.registrations || Brings(e, k))
      && forall j :: 0 <= j < |keys| ==> (root, j) in v.registrations && v.registrations[(root, j)] == keys[j]
    case OptedIn(root, slasher, committer, at) =>
      v == u.(protocols := u.protocols[(slasher, root) := ProtocolRow(committer, at, 0)])
    case Unregistered(root, at) =>
      root in u.operators && v == u.(operators := u.operators[root := u.operators[root].(unregisteredAt := Some(at))])
    case Slashed(root, at) =>
      root in u.operators && v == u.(operators := u.operators[root := u.operators[root].(slashedAt := Some(at))])
  }

  lemma {:induction false} KeysEffect(t: Tables, root: nat, keys: seq<Pubkey>)
    requires Strict(t, KeyStatements(root, keys))
    ensures var u := Attempt(t, KeyStatements(root, keys), None).tables;
            && u.operators == t.operators && u.protocols == t.protocols
            && (forall k :: k in t.registrations ==> k in u.registrations && u.registrations[k] == t.registrations[k])
            && (forall k: (nat, nat) :: k in u.registrations <==> k in t.registrations || (k.0 == root && k.1 < |keys|))
            && forall j :: 0 <= j < |keys| ==> (root, j) in u.registrations && u.registrations[(root, j)] == keys[j]
  {
    if keys != [] {
      var n := |keys| - 1;
      var sts := KeyStatements(root, keys);
      assert sts[..n] == KeyStatements(root, keys[..n]);
      KeysEffect(t, root, keys[..n]);
      StrictRuns(t, sts[..n]);
    }
  }

  lemma EventEffect(u: Tables, e: Event)
    requires Strict(u, EventStatements(e))
    ensures Effect(u, e, Attempt(u, EventStatements(e), None).tables)
  {
    var sts := EventStatements(e);
    if e.Registered? {
      var first, rest := [InsertOperator(e.root, e.owner, e.at)], KeyStatements(e.root, e.keys);
      StrictAppend(u, first, rest);
      assert first[..0] == [];
      AttemptAppend(u, first, rest, None);
      KeysEffect(Attempt(u, first, None).tables, e.root, e.keys);
    } else {
      assert sts[..0] == [];
    }
  }

  // ---------- along the log ----------

  ghost predicate Known(t: Tables, logs: seq<Log>, root: nat) {
    root in t.operators || RegisteredIn(logs, root)
  }

  lemma RootsKnown(t: Tables, logs: seq<Log>, i: nat)
    requires WellFormed(t, logs) && i < |logs|
    ensures Known(t, logs, logs[i].event.root)
  {
    assert Proper(t, logs[..i], logs[i].event);
    if !logs[i].event.Registered? && RegisteredIn(logs[..i], logs[i].event.root) {
      var j :| 0 <= j < i && logs[..i][j].event.Registered? && logs[..i][j].event.root == logs[i].event.root;
      assert logs[j].event.Registered?;
    }
  }

  // Nothing in a well-formed log updates a root before its registration.
  lemma {:induction false} UnknownIsUntouched(t: Tables, logs: seq<Log>, root: nat)
    requires WellFormed(t, logs) && !Known(t, logs, root)
    ensures UnregisteredAt(logs, root) == None && SlashedAt(logs, root) == None
  {
    if logs != [] {
      var n := |logs| - 1;
      WellFormedPush(t, logs);
      RootsKnown(t, logs, n);
      UnknownIsUntouched(t, logs[..n], root);
    }
  }

  lemma TimesPush(logs: seq<Log>, log: Log, root: nat)
    ensures UnregisteredAt(logs + [log], root)
         == if log.event.Unregistered? && log.event.root == root then Some(log.event.at) else UnregisteredAt(logs, root)
    ensures SlashedAt(logs + [log], root)
         == if log.event.Slashed? && log.event.root == root then Some(log.event.at) else SlashedAt(logs, root)
  {
    assert (logs + [log])[..|logs|] == logs;
  }

  // An earlier event keeps its meaning.
  lemma OldMeaningKept(t: Tables, logs: seq<Log>, i: nat, log: Log, u: Tables, v: Tables)
    requires WellFormed(t, logs) && i < |logs| && EventMeans(logs, logs[i].event, u)
    requires Proper(t, logs, log.event) && Effect(u, log.event, v)
    ensures EventMeans(logs + [log], logs[i].event, v)
  {
    RootsKnown(t, logs, i);
    TimesPush(logs, log, logs[i].event.root);
    if logs[i].event.OptedIn? {
      assert OptedInIn(logs, logs[i].event.slasher, logs[i].event.root);
    }
  }

  lemma NewMeaning(t: Tables, logs: seq<Log>, log: Log, u: Tables, v: Tables)
    requires WellFormed(t, logs) && Proper(t, logs, log.event) && Effect(u, log.event, v)
    ensures EventMeans(logs + [log], log.event, v)
  {
    TimesPush(logs, log, log.event.root);
    if log.event.Registered? {
      UnknownIsUntouched(t, logs, log.event.root);
    }
  }

  lemma MeansPush(t: Tables, logs: seq<Log>, log: Log, u: Tables, v: Tables)
    requires WellFormed(t, logs) && Means(logs, u)
    requires Proper(t, logs, log.event) && Effect(u, log.event, v)
    ensures Means(logs + [log], v)
  {
    var all := logs + [log];
    forall i | 0 <= i < |all| ensures EventMeans(all, all[i].event, v) {
      if i < |logs| {
        assert all[i] == logs[i];
        OldMeaningKept(t, logs, i, log, u, v);
      } else {
        NewMeaning(t, logs, log, u, v);
      }
    }
  }

  lemma KeyInPush(logs: seq<Log>, log: Log, k: (nat, nat))
    ensures KeyIn(logs + [log], k) <==> KeyIn(logs, k) || Brings(log.event, k)
  {
    var all := logs + [log];
    assert all[|logs|] == log;
    if KeyIn(logs, k) {
      var i :| 0 <= i < |logs| && Brings(logs[i].event, k);
      assert all[i] == logs[i];
    }
  }

  lemma OldKeptPush(t: Tables, logs: seq<Log>, log: Log, u: Tables, v: Tables)
    requires OldKept(t, logs, u) && Proper(t, logs, log.event) && Effect(u, log.event, v)
    ensures OldKept(t, logs + [log], v)
  {
    forall k: (nat, nat) ensures KeyIn(logs + [log], k) <==> KeyIn(logs, k) || Brings(log.event, k) {
      KeyInPush(logs, log, k);
    }
    forall r | r in t.operators
      ensures r in v.operators && v.operators[r] == Overlaid(logs + [log], r, t.operators[r])
    {
      TimesPush(logs, log, r);
    }
  }

  lemma {:induction false} ReplayKeepsOld(t: Tables, logs: seq<Log>)
    requires Closed(t) && WellFormed(t, logs)
    ensures OldKept(t, logs, Replay(t, logs).tables)
  {
    if logs != [] {
      var n := |logs| - 1;
      var pre := logs[..n];
      WellFormedPush(t, logs);
      ReplayKeepsOld(t, pre);
      LastEffect(t, logs);
      OldKeptPush(t, pre, logs[n], Replay(t, pre).tables, Replay(t, logs).tables);
      assert pre + [logs[n]] == logs;
    }
  }

  lemma LastEffect(t: Tables, logs: seq<Log>)
    requires Closed(t) && WellFormed(t, logs) && logs != []
    ensures var n := |logs| - 1; Effect(Replay(t, logs[..n]).tables, logs[n].event, Replay(t, logs).tables)
  {
    var n := |logs| - 1;
    var pre, e := logs[..n], logs[n].event;
    WellFormedIffStrict(t, logs);
    StrictAppend(t, Statements(pre), EventStatements(e));
    StrictRuns(t, Statements(pre));
    AttemptAppend(t, Statements(pre), EventStatements(e), None);
    EventEffect(Replay(t, pre).tables, e);
  }

  /** The tables after a replay, read off the log: owners, times of the last updates, keys, opt-ins. */
  lemma {:induction false} ReplayMeans(t: Tables, logs: seq<Log>)
    requires Closed(t) && WellFormed(t, logs)
    ensures Means(logs, Replay(t, logs).tables)
  {
    if logs != [] {
      var n := |logs| - 1;
      var pre := logs[..n];
      WellFormedPush(t, logs);
      ReplayMeans(t, pre);
      LastEffect(t, logs);
      MeansPush(t, pre, logs[n], Replay(t, pre).tables, Replay(t, logs).tables);
      assert pre + [logs[n]] == logs;
    }
  }

  /** Exactly the rows that the old tables and the log account for. */
  lemma ReplayAccounts(t: Tables, logs: seq<Log>)
    requires Closed(t) && WellFormed(t, logs)
    ensures Accounts(t, logs, Replay(t, logs).tables)
  {
    ReplayMeans(t, logs);
    ReplayKeepsOld(t, logs);
    WellFormedIffStrict(t, logs);
  }

  /** The same for a run of the indexer, whatever its batch size and the heights it polled. */
  lemma RunAccounts(cfg: Config, passes: Passes, log: seq<Log>, m: Monitor, polls: seq<Poll>)
    requires InChainOrder(log) && Closed(m.tables) && FollowsLog(passes, log) && Run(cfg, passes, m, polls).ok
    requires WellFormedUpTo(log, m, Run(cfg, passes, m, polls).monitor.indexed)
    ensures var n := Run(cfg, passes, m, polls).monitor;
            Accounts(m.tables, InRange(log, m.indexed + 1, n.indexed), n.tables)
  {
    RunReplays(cfg, passes, log, m, polls);
    ReplayAccounts(m.tables, InRange(log, m.indexed + 1, Run(cfg, passes, m, polls).monitor.indexed));
  }
}
