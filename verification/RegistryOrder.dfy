/** Exactly when running a log kind by kind gives the tables of its chronological replay. */
module RegistryOrder {
  import opened Wrappers
  import opened RegistryDb
  import opened RegistryReplay
  import opened RegistryUpdates

  // An update of this kind of this root.
  predicate Touches(st: Statement, root: nat, kind: nat) {
    !st.IsInsert() && Kind(st) == kind && st.root == root
  }

  /**
   The last update of a column of a root comes before the registration of that root: chronologically
   it is lost, kind by kind it is not.
   */
  ghost predicate Lost(sts: seq<Statement>, root: nat, kind: nat) {
    exists i, j :: 0 <= i < j < |sts| && LostAt(sts, root, kind, i, j)
  }

  ghost predicate LostAt(sts: seq<Statement>, root: nat, kind: nat, i: int, j: int)
    requires 0 <= i < j < |sts|
  {
    && Touches(sts[i], root, kind) && sts[j].InsertOperator? && sts[j].root == root
    && forall k :: i < k < |sts| ==> !Touches(sts[k], root, kind)
  }

  function LastAt(sts: seq<Statement>, root: nat, kind: nat): Option<nat> {
    if sts == [] then None
    else
      var last := sts[|sts| - 1];
      if Touches(last, root, kind) then Some(last.at) else LastAt(sts[..|sts| - 1], root, kind)
  }

  lemma {:induction false} LastAtIs(sts: seq<Statement>, root: nat)
    ensures LastAt(sts, root, 2) == LastUnregistered(sts, root) && LastAt(sts, root, 3) == LastSlashed(sts, root)
  {
    if sts != [] {
      LastAtIs(sts[..|sts| - 1], root);
    }
  }

  lemma {:induction false} LastAtAppend(a: seq<Statement>, b: seq<Statement>, root: nat, kind: nat)
    ensures LastAt(a + b, root, kind) ==
            if LastAt(b, root, kind).Some? then LastAt(b, root, kind) else LastAt(a, root, kind)
  {
    if b == [] {
      assert a + b == a;
    } else {
      var n := |b| - 1;
      assert (a + b)[..|a| + n] == a + b[..n];
      LastAtAppend(a, b[..n], root, kind);
    }
  }

  lemma {:induction false} LastAtPick(sts: seq<Statement>, root: nat, kind: nat, k: nat)
    ensures LastAt(Pick(sts, k), root, kind) == if k == kind then LastAt(sts, root, kind) else None
  {
    if sts != [] {
      var n := |sts| - 1;
      LastAtPick(sts[..n], root, kind, k);
      if Kind(sts[n]) == k {
        assert (Pick(sts[..n], k) + [sts[n]])[..|Pick(sts[..n], k)|] == Pick(sts[..n], k);
      }
    }
  }

  // The updates as they run kind by kind.
  function Updates(sts: seq<Statement>): seq<Statement> {
    Pick(sts, 2) + Pick(sts, 3)
  }

  function Inserts(sts: seq<Statement>): seq<Statement> {
    Pick(sts, 0) + Pick(sts, 1)
  }

  lemma ByKindParts(sts: seq<Statement>)
    ensures ByKind(sts) == Inserts(sts) + Updates(sts)
  {
  }

  lemma LastOfUpdates(sts: seq<Statement>, root: nat)
    ensures LastUnregistered(Updates(sts), root) == LastAt(sts, root, 2)
    ensures LastSlashed(Updates(sts), root) == LastAt(sts, root, 3)
  {
    LastAtIs(Updates(sts), root);
    LastAtAppend(Pick(sts, 2), Pick(sts, 3), root, 2);
    LastAtAppend(Pick(sts, 2), Pick(sts, 3), root, 3);
    LastAtPick(sts, root, 2, 2);
    LastAtPick(sts, root, 2, 3);
    LastAtPick(sts, root, 3, 2);
    LastAtPick(sts, root, 3, 3);
  }

  // ---------- leaving out the updates that miss ----------

  function RootsAfter(t: Tables, sts: seq<Statement>): map<nat, OperatorRow> {
    Attempt(t, sts, None).tables.operators
  }

  function Hitting(t: Tables, sts: seq<Statement>): seq<Statement> {
    if sts == [] then []
    else
      var n := |sts| - 1;
      var rest := Hitting(t, sts[..n]);
      if sts[n].IsInsert() || sts[n].root in RootsAfter(t, sts[..n]) then rest + [sts[n]] else rest
  }

  lemma {:induction false} HittingRuns(t: Tables, sts: seq<Statement>)
    requires Attempt(t, sts, None).ok
    ensures Strict(t, Hitting(t, sts)) && Attempt(t, Hitting(t, sts), None) == Attempt(t, sts, None)
  {
    if sts != [] {
      var n := |sts| - 1;
      HittingRuns(t, sts[..n]);
      if sts[n].IsInsert() || sts[n].root in RootsAfter(t, sts[..n]) {
        LastOne(t, Hitting(t, sts[..n]), sts[n]);
      }
    }
  }

  lemma {:induction false} HittingKeepsInserts(t: Tables, sts: seq<Statement>, k: nat)
    requires k < 2
    ensures Pick(Hitting(t, sts), k) == Pick(sts, k)
  {
    if sts != [] {
      var n := |sts| - 1;
      HittingKeepsInserts(t, sts[..n], k);
      var rest := Hitting(t, sts[..n]);
      assert (rest + [sts[n]])[..|rest|] == rest;
    }
  }

  // Roots are never removed.
  lemma {:induction false} RootsGrow(t: Tables, sts: seq<Statement>, i: nat, root: nat)
    requires i <= |sts| && root in RootsAfter(t, sts[..i])
    ensures root in RootsAfter(t, sts)
    decreases |sts|
  {
    if i == |sts| {
      assert sts[..i] == sts;
    } else {
      var n := |sts| - 1;
      assert sts[..n][..i] == sts[..i];
      RootsGrow(t, sts[..n], i, root);
    }
  }

  // The last update of this kind found no row.
  predicate MissedLast(t: Tables, sts: seq<Statement>, root: nat, kind: nat) {
    sts != [] &&
    var n := |sts| - 1;
    if Touches(sts[n], root, kind) then root !in RootsAfter(t, sts[..n]) else MissedLast(t, sts[..n], root, kind)
  }

  lemma {:induction false} NoHitYet(t: Tables, sts: seq<Statement>, root: nat, kind: nat)
    requires root !in RootsAfter(t, sts)
    ensures LastAt(Hitting(t, sts), root, kind) == None
  {
    if sts != [] {
      var n := |sts| - 1;
      if root in RootsAfter(t, sts[..n]) {
        RootsGrow(t, sts, n, root);
      }
      NoHitYet(t, sts[..n], root, kind);
      LastAtPush(Hitting(t, sts[..n]), sts[n], root, kind);
    }
  }

  lemma LastAtPush(sts: seq<Statement>, st: Statement, root: nat, kind: nat)
    ensures LastAt(sts + [st], root, kind) == if Touches(st, root, kind) then Some(st.at) else LastAt(sts, root, kind)
  {
    assert (sts + [st])[..|sts|] == sts;
  }

  lemma {:induction false} LastOfHitting(t: Tables, sts: seq<Statement>, root: nat, kind: nat)
    ensures LastAt(Hitting(t, sts), root, kind) ==
            if MissedLast(t, sts, root, kind) then None else LastAt(sts, root, kind)
    ensures MissedLast(t, sts, root, kind) ==> LastAt(sts, root, kind).Some?
  {
    if sts != [] {
      var n := |sts| - 1;
      LastOfHitting(t, sts[..n], root, kind);
      LastAtPush(Hitting(t, sts[..n]), sts[n], root, kind);
      if Touches(sts[n], root, kind) && root !in RootsAfter(t, sts[..n]) {
        NoHitYet(t, sts[..n], root, kind);
      }
    }
  }

  // ---------- a missed last update, read off the statements ----------

  lemma {:induction false} JoinedBetween(t: Tables, sts: seq<Statement>, i: nat, root: nat) returns (j: nat)
    requires i <= |sts| && root !in RootsAfter(t, sts[..i]) && root in RootsAfter(t, sts)
    ensures i <= j < |sts| && sts[j].InsertOperator? && sts[j].root == root
    decreases |sts|
  {
    assert sts[..|sts|] == sts;
    var n := |sts| - 1;
    assert sts[..n][..i] == sts[..i];
    if root in RootsAfter(t, sts[..n]) {
      j := JoinedBetween(t, sts[..n], i, root);
    } else {
      j := n;
    }
  }

  lemma {:induction false} LastTouch(t: Tables, sts: seq<Statement>, root: nat, kind: nat) returns (i: nat)
    requires MissedLast(t, sts, root, kind)
    ensures i < |sts| && Touches(sts[i], root, kind) && root !in RootsAfter(t, sts[..i])
    ensures forall k :: i < k < |sts| ==> !Touches(sts[k], root, kind)
  {
    var n := |sts| - 1;
    if Touches(sts[n], root, kind) {
      i := n;
    } else {
      i := LastTouch(t, sts[..n], root, kind);
      assert sts[..n][..i] == sts[..i];
    }
  }

  lemma {:induction false} TouchDecides(t: Tables, sts: seq<Statement>, root: nat, kind: nat, i: nat)
    requires i < |sts| && Touches(sts[i], root, kind) && root !in RootsAfter(t, sts[..i])
    requires forall k :: i < k < |sts| ==> !Touches(sts[k], root, kind)
    ensures MissedLast(t, sts, root, kind)
  {
    var n := |sts| - 1;
    if i < n {
      assert sts[..n][..i] == sts[..i];
      TouchDecides(t, sts[..n], root, kind, i);
    }
  }

  lemma {:induction false} OkPrefix(t: Tables, sts: seq<Statement>, i: nat)
    requires Attempt(t, sts, None).ok && i < |sts|
    ensures Attempt(t, sts[..i], None).ok && !Refused(Attempt(t, sts[..i], None).tables, sts[i])
    ensures Attempt(t, sts[..i + 1], None) == Outcome(Exec(Attempt(t, sts[..i], None).tables, sts[i]), true)
    decreases |sts|
  {
    var n := |sts| - 1;
    if i == n {
      assert sts[..i + 1] == sts;
    } else {
      assert sts[..n][..i] == sts[..i] && sts[..n][..i + 1] == sts[..i + 1];
      OkPrefix(t, sts[..n], i);
    }
  }

  lemma LostIff(t: Tables, sts: seq<Statement>, root: nat, kind: nat)
    requires Attempt(t, sts, None).ok
    ensures Lost(sts, root, kind) <==> MissedLast(t, sts, root, kind) && root in RootsAfter(t, sts)
  {
    if MissedLast(t, sts, root, kind) && root in RootsAfter(t, sts) {
      var i := LastTouch(t, sts, root, kind);
      var j := JoinedBetween(t, sts, i, root);
      assert LostAt(sts, root, kind, i, j);
    }
    if Lost(sts, root, kind) {
      var i, j :| 0 <= i < j < |sts| && LostAt(sts, root, kind, i, j);
      OkPrefix(t, sts, j);
      if root in RootsAfter(t, sts[..i]) {
        assert sts[..j][..i] == sts[..i];
        RootsGrow(t, sts[..j], i, root);
      }
      TouchDecides(t, sts, root, kind, i);
      RootsGrow(t, sts, j + 1, root);
    }
  }

  // ---------- the two orders compared ----------

  ghost predicate OnlyInserts(sts: seq<Statement>) {
    forall i :: 0 <= i < |sts| ==> sts[i].IsInsert()
  }

  lemma {:induction false} InsertedRowsBlank(t: Tables, sts: seq<Statement>, root: nat)
    requires OnlyInserts(sts) && root !in t.operators && root in RootsAfter(t, sts)
    ensures RootsAfter(t, sts)[root].unregisteredAt == None && RootsAfter(t, sts)[root].slashedAt == None
  {
    if sts != [] {
      var n := |sts| - 1;
      if root in RootsAfter(t, sts[..n]) {
        InsertedRowsBlank(t, sts[..n], root);
      }
    }
  }

  lemma PartsKinds(sts: seq<Statement>)
    ensures OnlyInserts(Inserts(sts))
    ensures forall i :: 0 <= i < |Updates(sts)| ==> !Updates(sts)[i].IsInsert()
  {
    PickKinds(sts, 0);
    PickKinds(sts, 1);
    PickKinds(sts, 2);
    PickKinds(sts, 3);
  }

  lemma {:induction false} PickFrom(sts: seq<Statement>, k: nat)
    ensures forall st :: st in Pick(sts, k) ==> st in sts
  {
    if sts != [] {
      PickFrom(sts[..|sts| - 1], k);
    }
  }

  lemma UpdatesFit(t: Tables, sts: seq<Statement>)
    requires Attempt(t, sts, None).ok
    ensures OnlyUpdates(Updates(sts))
  {
    PartsKinds(sts);
    PickFrom(sts, 2);
    PickFrom(sts, 3);
    forall st | st in Updates(sts) ensures st.at <= MAX_I64 {
      var i :| 0 <= i < |sts| && sts[i] == st;
      OkPrefix(t, sts, i);
    }
  }

  // Both orders run the same inserts, then their own updates.
  lemma BothOrders(t: Tables, sts: seq<Statement>) returns (u: Tables)
    requires Attempt(t, sts, None).ok
    ensures Attempt(t, Inserts(sts), None) == Outcome(u, true)
    ensures OnlyUpdates(Updates(sts)) && OnlyUpdates(Updates(Hitting(t, sts)))
    ensures Attempt(t, ByKind(sts), None) == Attempt(u, Updates(sts), None)
    ensures Attempt(t, sts, None) == Attempt(u, Updates(Hitting(t, sts)), None)
  {
    var h := Hitting(t, sts);
    HittingRuns(t, sts);
    ByKindEqualsChronological(t, h);
    StrictRuns(t, ByKind(h));
    HittingKeepsInserts(t, sts, 0);
    HittingKeepsInserts(t, sts, 1);
    ByKindParts(sts);
    ByKindParts(h);
    UpdatesFit(t, sts);
    UpdatesFit(t, h);
    AttemptAppend(t, Inserts(h), Updates(h), None);
    AttemptAppend(t, Inserts(sts), Updates(sts), None);
    u := Attempt(t, Inserts(sts), None).tables;
  }

  // One row in both orders.
  lemma RowsAgreeIff(t: Tables, sts: seq<Statement>, row: OperatorRow, root: nat)
    requires Attempt(t, sts, None).ok && root in RootsAfter(t, sts)
    requires root !in t.operators ==> row.unregisteredAt == None && row.slashedAt == None
    ensures Updated(row, Updates(sts), root) == Updated(row, Updates(Hitting(t, sts)), root) <==>
            !Lost(sts, root, 2) && !Lost(sts, root, 3)
  {
    LastOfUpdates(sts, root);
    LastOfUpdates(Hitting(t, sts), root);
    LastOfHitting(t, sts, root, 2);
    LastOfHitting(t, sts, root, 3);
    LostIff(t, sts, root, 2);
    LostIff(t, sts, root, 3);
    if root in t.operators {
      KnownNeverMisses(t, sts, root, 2);
      KnownNeverMisses(t, sts, root, 3);
    }
  }

  lemma {:induction false} KnownNeverMisses(t: Tables, sts: seq<Statement>, root: nat, kind: nat)
    requires root in t.operators
    ensures !MissedLast(t, sts, root, kind)
  {
    if sts != [] {
      var n := |sts| - 1;
      KnownNeverMisses(t, sts[..n], root, kind);
      assert sts[..n][..0] == [];
      RootsGrow(t, sts[..n], 0, root);
    }
  }

  ghost predicate LosesNothing(sts: seq<Statement>) {
    forall root :: !Lost(sts, root, 2) && !Lost(sts, root, 3)
  }

  /**
   Both orders run and give the same tables, exactly when the chronological one runs and no root has
   the last update of a column before its registration. An update of a root that is never registered
   does no harm.
   */
  lemma OrdersAgreeIff(t: Tables, sts: seq<Statement>)
    ensures Attempt(t, sts, None).ok && Attempt(t, ByKind(sts), None) == Attempt(t, sts, None) <==>
            Attempt(t, sts, None).ok && LosesNothing(sts)
  {
    if Attempt(t, sts, None).ok {
      var u := BothOrders(t, sts);
      LastUpdateWins(u, Updates(sts));
      LastUpdateWins(u, Updates(Hitting(t, sts)));
      PartsKinds(sts);
      forall root | root in u.operators
        ensures Updated(u.operators[root], Updates(sts), root) == Updated(u.operators[root], Updates(Hitting(t, sts)), root)
                <==> !Lost(sts, root, 2) && !Lost(sts, root, 3)
      {
        if root !in t.operators {
          InsertedRowsBlank(t, Inserts(sts), root);
        }
        RowsAgreeIff(t, sts, u.operators[root], root);
      }
      forall root | root !in u.operators ensures !Lost(sts, root, 2) && !Lost(sts, root, 3) {
        LostIff(t, sts, root, 2);
        LostIff(t, sts, root, 3);
      }
      MapsAgreeIff(u.operators, Updates(sts), Updates(Hitting(t, sts)));
    }
  }

  lemma MapsAgreeIff(m: map<nat, OperatorRow>, a: seq<Statement>, b: seq<Statement>)
    ensures (map r | r in m :: Updated(m[r], a, r)) == (map r | r in m :: Updated(m[r], b, r)) <==>
            forall r :: r in m ==> Updated(m[r], a, r) == Updated(m[r], b, r)
  {
    var x, y := map r | r in m :: Updated(m[r], a, r), map r | r in m :: Updated(m[r], b, r);
    if x == y {
      forall r | r in m ensures Updated(m[r], a, r) == Updated(m[r], b, r) {
        assert x[r] == y[r];
      }
    }
  }

  // An update that comes before the registration is lost chronologically and kept kind by kind.
  lemma EarlyUpdateDiffers()
    ensures var t, sts := Tables(map[], map[], map[]), [SetUnregistered(7, 100), InsertOperator(7, 1, 200)];
            Attempt(t, sts, None).ok && Attempt(t, ByKind(sts), None) != Attempt(t, sts, None)
  {
    var t, sts := Tables(map[], map[], map[]), [SetUnregistered(7, 100), InsertOperator(7, 1, 200)];
    assert sts[..1] == [sts[0]] && sts[..1][..0] == [];
    assert Attempt(t, sts[..1], None) == Outcome(t, true);
    assert LostAt(sts, 7, 2, 0, 1);
    assert Lost(sts, 7, 2);
    OrdersAgreeIff(t, sts);
  }
}
