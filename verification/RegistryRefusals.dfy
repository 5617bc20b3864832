/** Exactly which logs stop the indexer, without any failure. */
module RegistryRefusals {
  import opened Wrappers
  import opened RegistryDb
  import opened RegistryReplay
  import opened RegistryMonitors

  // Two inserts of the same row.
  predicate SameRow(a: Statement, b: Statement) {
    match (a, b)
    case (InsertOperator(r, _, _), InsertOperator(s, _, _)) => r == s
    case (InsertRegistration(r, i, _), InsertRegistration(s, j, _)) => r == s && i == j
    case (InsertProtocol(r, x, _, _), InsertProtocol(s, y, _, _)) => r == s && x == y
    case _ => false
  }

  // The insert of the operator that this one refers to.
  function Parent(st: Statement): Statement {
    InsertOperator(st.root, 0, 0)
  }

  predicate NeedsParent(st: Statement) {
    st.InsertRegistration? || st.InsertProtocol?
  }

  // An earlier statement inserts this row.
  ghost predicate Inserted(sts: seq<Statement>, i: nat, st: Statement)
    requires i <= |sts|
  {
    exists j :: 0 <= j < i && SameRow(sts[j], st)
  }

  /**
   What the tables and the order say about statement i: its number fits 64 bits, its row is neither in
   the tables nor inserted earlier, and its operator is one or the other.
   */
  ghost predicate Admissible(t: Tables, sts: seq<Statement>, i: nat)
    requires i < |sts|
  {
    && sts[i].Bound() <= MAX_I64
    && (sts[i].IsInsert() ==> !Taken(t, sts[i]) && !Inserted(sts, i, sts[i]))
    && (NeedsParent(sts[i]) ==> Taken(t, Parent(sts[i])) || Inserted(sts, i, Parent(sts[i])))
  }

  lemma RefusedIff(u: Tables, st: Statement)
    ensures Refused(u, st) <==>
            || st.Bound() > MAX_I64 || (st.IsInsert() && Taken(u, st))
            || (NeedsParent(st) && !Taken(u, Parent(st)))
  {
  }

  lemma TakenStep(u: Tables, s: Statement, st: Statement)
    requires !Refused(u, s)
    ensures Taken(Exec(u, s), st) <==> Taken(u, st) || SameRow(s, st)
  {
  }

  lemma InsertedPush(sts: seq<Statement>, i: nat, st: Statement)
    requires i < |sts|
    ensures Inserted(sts, i + 1, st) <==> Inserted(sts, i, st) || SameRow(sts[i], st)
  {
  }

  // Which rows are there after a prefix that ran.
  lemma {:induction false} TakenIff(t: Tables, sts: seq<Statement>, i: nat, st: Statement)
    requires i <= |sts| && Attempt(t, sts[..i], None).ok
    ensures Taken(Attempt(t, sts[..i], None).tables, st) <==> Taken(t, st) || Inserted(sts, i, st)
  {
    if i > 0 {
      var n := i - 1;
      assert sts[..i][..n] == sts[..n] && sts[..i][n] == sts[n];
      TakenIff(t, sts, n, st);
      TakenStep(Attempt(t, sts[..n], None).tables, sts[n], st);
      InsertedPush(sts, n, st);
    }
  }

  lemma NextRunsIff(t: Tables, sts: seq<Statement>, i: nat)
    requires i < |sts| && Attempt(t, sts[..i], None).ok
    ensures Attempt(t, sts[..i + 1], None).ok <==> Admissible(t, sts, i)
  {
    assert sts[..i + 1][..i] == sts[..i] && sts[..i + 1][i] == sts[i];
    RefusedIff(Attempt(t, sts[..i], None).tables, sts[i]);
    TakenIff(t, sts, i, sts[i]);
    TakenIff(t, sts, i, Parent(sts[i]));
  }

  ghost predicate AllAdmissible(t: Tables, sts: seq<Statement>, n: nat)
    requires n <= |sts|
  {
    forall i :: 0 <= i < n ==> Admissible(t, sts, i)
  }

  lemma {:induction false} PrefixRunsIff(t: Tables, sts: seq<Statement>, n: nat)
    requires n <= |sts|
    ensures Attempt(t, sts[..n], None).ok <==> AllAdmissible(t, sts, n)
  {
    if n > 0 {
      PrefixRunsIff(t, sts, n - 1);
      assert sts[..n][..n - 1] == sts[..n - 1];
      if Attempt(t, sts[..n - 1], None).ok {
        NextRunsIff(t, sts, n - 1);
      }
    }
  }

  // ---------- the statements that the heights plan ----------

  datatype Plan = Plan(indexed: nat, statements: seq<Statement>)

  // The ranges depend on the heights alone.
  function PlanNext(cfg: Config, passes: Passes, plan: Plan, p: Poll): Plan {
    if Target(cfg, p) <= plan.indexed then plan
    else
      var end := RangeEnd(cfg, plan.indexed, Target(cfg, p));
      Plan(end, plan.statements + passes(plan.indexed + 1, end))
  }

  function Planned(cfg: Config, passes: Passes, indexed: nat, polls: seq<Poll>): Plan {
    if polls == [] then Plan(indexed, [])
    else PlanNext(cfg, passes, Planned(cfg, passes, indexed, polls[..|polls| - 1]), polls[|polls| - 1])
  }

  ghost predicate Undisturbed(cfg: Config, polls: seq<Poll>) {
    forall i :: 0 <= i < |polls| ==> polls[i].budget.None? && Target(cfg, polls[i]) <= MAX_I64
  }

  // The run so far has done exactly what was planned.
  ghost predicate OnPlan(m: Monitor, r: Progress, plan: Plan) {
    var o := Attempt(m.tables, plan.statements, None);
    && (r.ok <==> o.ok)
    && (r.ok ==> r.monitor.indexed == plan.indexed && r.monitor.tables == o.tables)
  }

  lemma CompleteOnPlan(n: Monitor, sts: seq<Statement>, end: nat)
    requires end <= MAX_I64
    ensures var s, o := Complete(n, sts, end, None), Attempt(n.tables, sts, None);
            (s.ok <==> o.ok) && (s.ok ==> s.monitor.indexed == end && s.monitor.tables == o.tables)
  {
  }

  lemma AdvanceOnPlan(cfg: Config, passes: Passes, m: Monitor, r: Progress, plan: Plan, p: Poll)
    requires OnPlan(m, r, plan) && p.budget.None? && Target(cfg, p) <= MAX_I64
    ensures OnPlan(m, Advance(cfg, passes, r, p), PlanNext(cfg, passes, plan, p))
  {
    if Target(cfg, p) > plan.indexed {
      var end := RangeEnd(cfg, plan.indexed, Target(cfg, p));
      AttemptAppend(m.tables, plan.statements, passes(plan.indexed + 1, end), None);
      if r.ok {
        PollIs(cfg, passes, r.monitor, p, end);
        CompleteOnPlan(r.monitor, passes(plan.indexed + 1, end), end);
      }
    }
  }

  lemma {:induction false} RunIsPlanned(cfg: Config, passes: Passes, m: Monitor, polls: seq<Poll>)
    requires Undisturbed(cfg, polls)
    ensures OnPlan(m, Run(cfg, passes, m, polls), Planned(cfg, passes, m.indexed, polls))
  {
    if polls != [] {
      var k := |polls| - 1;
      RunIsPlanned(cfg, passes, m, polls[..k]);
      AdvanceOnPlan(cfg, passes, m, Run(cfg, passes, m, polls[..k]), Planned(cfg, passes, m.indexed, polls[..k]), polls[k]);
    }
  }

  /**
   For arbitrary logs, heights and batch sizes: a run without failures goes on exactly when every planned
   statement is admissible. The order is the planned one, kind by kind within each range.
   */
  lemma RunRefusedIff(cfg: Config, passes: Passes, m: Monitor, polls: seq<Poll>)
    requires Undisturbed(cfg, polls)
    ensures Run(cfg, passes, m, polls).ok <==>
            var sts := Planned(cfg, passes, m.indexed, polls).statements;
            AllAdmissible(m.tables, sts, |sts|)
  {
    RunIsPlanned(cfg, passes, m, polls);
    var sts := Planned(cfg, passes, m.indexed, polls).statements;
    assert sts[..|sts|] == sts;
    PrefixRunsIff(m.tables, sts, |sts|);
  }
}
