/** What a sequence of updates leaves in the operators table. */
module RegistryUpdates {
  import opened Wrappers
  import opened RegistryDb
  import opened RegistryReplay

  function LastUnregistered(sts: seq<Statement>, root: nat): Option<nat> {
    if sts == [] then None
    else
      var last := sts[|sts| - 1];
      if last.SetUnregistered? && last.root == root then Some(last.at) else LastUnregistered(sts[..|sts| - 1], root)
  }

  function LastSlashed(sts: seq<Statement>, root: nat): Option<nat> {
    if sts == [] then None
    else
      var last := sts[|sts| - 1];
      if last.SetSlashed? && last.root == root then Some(last.at) else LastSlashed(sts[..|sts| - 1], root)
  }

  function Updated(row: OperatorRow, sts: seq<Statement>, root: nat): OperatorRow {
    var u, s := LastUnregistered(sts, root), LastSlashed(sts, root);
    row.(unregisteredAt := if u.Some? then u else row.unregisteredAt, slashedAt := if s.Some? then s else row.slashedAt)
  }

  predicate OnlyUpdates(sts: seq<Statement>) {
    forall i :: 0 <= i < |sts| ==> !sts[i].IsInsert() && sts[i].at <= MAX_I64
  }

  // The last update of each column wins.
  lemma {:induction false} LastUpdateWins(t: Tables, sts: seq<Statement>)
    requires OnlyUpdates(sts)
    ensures Attempt(t, sts, None)
         == Outcome(t.(operators := map r | r in t.operators :: Updated(t.operators[r], sts, r)), true)
  {
    var all := map r | r in t.operators :: Updated(t.operators[r], sts, r);
    if sts == [] {
      assert all == t.operators;
    } else {
      var n := |sts| - 1;
      LastUpdateWins(t, sts[..n]);
      var o := Attempt(t, sts[..n], None).tables;
      assert all == Exec(o, sts[n]).operators;
    }
  }

  lemma UpdatesTwice(t: Tables, sts: seq<Statement>)
    requires OnlyUpdates(sts)
    ensures Attempt(Attempt(t, sts, None).tables, sts, None) == Attempt(t, sts, None)
  {
    var u := Attempt(t, sts, None).tables;
    LastUpdateWins(t, sts);
    LastUpdateWins(u, sts);
    assert (map r | r in u.operators :: Updated(u.operators[r], sts, r)) == u.operators;
  }
}
