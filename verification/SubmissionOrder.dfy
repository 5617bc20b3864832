/**
 The order in which proposals are submitted, over whole runs. A book records only what the
 environment reports: proposals finalized, recovered or rebuilt, and proposals confirmed. The queue
 of every run is what its book has left, so nothing is lost, repeated or overtaken between two
 restarts of the builder.
 */
module SubmissionOrder {
  import opened Wrappers
  import opened TransactionMonitors
  import opened ProposalQueues
  import opened SubmissionProtocol

  function Ids(q: seq<Proposal>): (ids: seq<nat>)
    ensures |ids| == |q| && forall i :: 0 <= i < |q| ==> ids[i] == q[i].id
  {
    seq(|q|, i requires 0 <= i < |q| => q[i].id)
  }

  // Since the builder was last reset or rebuilt: every proposal in the order due, and those confirmed.
  datatype Book = Book(order: seq<nat>, confirmed: seq<nat>)

  const BLANK := Book([], [])

  // What this node finalizes comes last.
  function Finalized(b: Book, ids: seq<nat>): Book {
    b.(order := b.order + ids)
  }

  // What was preconfirmed before this node took over comes before everything not yet confirmed.
  function Recovered(b: Book, ids: seq<nat>): Book {
    var n := Min(|b.confirmed|, |b.order|);
    b.(order := b.order[..n] + ids + b.order[n..])
  }

  // A reanchor that got as far as resetting the builder starts the book again.
  function Reanchored(b: Book, r: Reanchor): Book {
    match r
    case Rebuilt(ids) => Book(ids, [])
    case ReanchorFails(partial, _) => if partial.Some? then Book(partial.value, []) else b
  }

  function OnError(b: Book, e: TransactionError, r: Reanchor): Book {
    if e == OldestForcedInclusionDue then Reanchored(b, r) else b
  }

  function OnPreconfirm(b: Book, role: Role, o: PreconfirmOutcome): Book {
    match o
    case NoBlock => b
    case FastReanchor(r) => if role.submitter then b else Reanchored(b, r)
    case _ => Finalized(b, o.finalized)
  }

  function OnSubmit(b: Book, q: seq<Proposal>, o: SubmitOutcome): Book {
    if o.SendTransactionError? && q != [] && !q[0].pending then OnError(b, o.error, o.result) else b
  }

  // The book after an action; everything it does not name leaves the book alone.
  function Booked(s: State, b: Book, a: Action): Book {
    match (a, s.pc)
    case (DropsConfirmed, _) => if FrontPending(s.queue) then b.(confirmed := b.confirmed + [s.queue[0].id]) else b
    case (Receives(r), _) => if s.channel == [] then b else OnError(b, s.channel[0], r)
    case (Preconfirms(o), Preconfirm(role, _)) => if role.preconfer && role.synced then OnPreconfirm(b, role, o) else b
    case (Verifies(Verified(ids)), Verify(role, busy)) =>
      if role.submitter && !busy && s.verifier then Recovered(b, ids) else b
    case (Verifies(ReanchorNeeded(r)), Verify(role, busy)) =>
      if role.submitter && !busy && s.verifier then Reanchored(b, r) else b
    case (Submits(ids, o), _) => OnSubmit(Finalized(b, ids), s.queue + Fresh(ids), o)
    case (CleansUp(more, ok), Cleanup(role)) =>
      if !role.submitter && !role.preconfer && (s.queue != [] || more) && ok then BLANK else b
    case _ => b
  }

  function BookOf(cfg: MonitorConfig, run: seq<Action>): Book {
    if run == [] then BLANK
    else
      var prefix := run[..|run| - 1];
      var s := Exec(cfg, INITIAL, prefix);
      if s.None? then BLANK else Booked(s.value, BookOf(cfg, prefix), run[|run| - 1])
  }

  // What was confirmed, then what is queued, is the book.
  ghost predicate Keeps(b: Book, s: State) {
    b.order == b.confirmed + Ids(s.queue)
  }

  lemma FinalizedKeeps(b: Book, s: State, ids: seq<nat>)
    requires Keeps(b, s)
    ensures Keeps(Finalized(b, ids), s.(queue := s.queue + Fresh(ids)))
  {
    assert Ids(s.queue + Fresh(ids)) == Ids(s.queue) + ids;
  }

  lemma RecoveredKeeps(b: Book, s: State, ids: seq<nat>)
    requires Keeps(b, s)
    ensures Keeps(Recovered(b, ids), s.(queue := Fresh(ids) + s.queue))
  {
    var q := Ids(s.queue);
    assert Ids(Fresh(ids) + s.queue) == ids + q;
    SplitAt(b.confirmed, q);
    assert Recovered(b, ids).order == b.confirmed + ids + q;
    assert b.confirmed + ids + q == b.confirmed + (ids + q);
  }

  lemma SplitAt(a: seq<nat>, b: seq<nat>)
    ensures (a + b)[..|a|] == a && (a + b)[|a|..] == b
  {
  }

  lemma ReanchoredKeeps(b: Book, s: State, r: Reanchor)
    requires Keeps(b, s)
    ensures Keeps(Reanchored(b, r), AfterReanchor(s, r))
  {
    forall ids: seq<nat> ensures Ids(Fresh(ids)) == ids {
    }
  }

  lemma ErrorKeeps(b: Book, s: State, e: TransactionError, r: Reanchor)
    requires Keeps(b, s)
    ensures Keeps(OnError(b, e, r), AfterError(s, e, r).0)
  {
    ReanchoredKeeps(b, s, r);
  }

  lemma PreconfirmKeeps(b: Book, s: State, o: PreconfirmOutcome)
    requires Keeps(b, s) && s.pc.Preconfirm?
    ensures Keeps(Booked(s, b, Preconfirms(o)), AfterPreconfirm(s, s.pc.role, s.pc.busy, o))
  {
    if o.FastReanchor? {
      ReanchoredKeeps(b, s, o.result);
    } else if !o.NoBlock? {
      FinalizedKeeps(b, s, o.finalized);
    }
  }

  lemma VerifyKeeps(b: Book, s: State, o: VerifyOutcome)
    requires Keeps(b, s) && s.pc.Verify?
    ensures Keeps(Booked(s, b, Verifies(o)), AfterVerify(s, s.pc.role, s.pc.busy, o))
  {
    match o
    case Verified(ids) => RecoveredKeeps(b, s, ids);
    case ReanchorNeeded(r) => ReanchoredKeeps(b, s, r);
    case _ =>
  }

  lemma SubmitKeeps(b: Book, s: State, ids: seq<nat>, o: SubmitOutcome)
    requires Keeps(b, s) && s.pc.Submit?
    ensures Keeps(Booked(s, b, Submits(ids, o)), AfterSubmit(s, s.pc.role, ids, o))
  {
    FinalizedKeeps(b, s, ids);
    if o.SendTransactionError? {
      ErrorKeeps(Finalized(b, ids), s.(queue := s.queue + Fresh(ids)), o.error, o.result);
    }
  }

  lemma SettlingKeeps(cfg: MonitorConfig, b: Book, s: State, a: Action)
    requires Keeps(b, s) && (a.MarksForResubmit? || a.DropsConfirmed? || a.SetsPending?) && Next(cfg, s, a).Some?
    ensures Keeps(Booked(s, b, a), Next(cfg, s, a).value)
  {
    IdsOfFront(s.queue, a.SetsPending?);
    if a.DropsConfirmed? && FrontPending(s.queue) {
      IdsOfRest(s.queue);
      Regroup(b.confirmed, [s.queue[0].id], Ids(s.queue[1..]));
    }
  }

  lemma IdsOfFront(q: seq<Proposal>, pending: bool)
    ensures Ids(WithFront(q, pending)) == Ids(q)
  {
  }

  lemma IdsOfRest(q: seq<Proposal>)
    requires q != []
    ensures Ids(q) == [q[0].id] + Ids(q[1..])
  {
  }

  lemma Regroup(a: seq<nat>, b: seq<nat>, c: seq<nat>)
    ensures a + (b + c) == (a + b) + c
  {
  }

  lemma StepKeeps(cfg: MonitorConfig, b: Book, s: State, a: Action)
    requires Keeps(b, s) && Next(cfg, s, a).Some?
    ensures Keeps(Booked(s, b, a), Next(cfg, s, a).value)
  {
    match a
    case Receives(r) => ErrorKeeps(b, s.(channel := s.channel[1..]), s.channel[0], r);
    case MarksForResubmit => SettlingKeeps(cfg, b, s, a);
    case DropsConfirmed => SettlingKeeps(cfg, b, s, a);
    case SetsPending => SettlingKeeps(cfg, b, s, a);
    case Preconfirms(o) => PreconfirmKeeps(b, s, o);
    case Verifies(o) => VerifyKeeps(b, s, o);
    case Submits(ids, o) => SubmitKeeps(b, s, ids, o);
    case _ =>
  }

  // On every run the confirmed proposals and then the queued ones are the book, in its order.
  lemma {:induction false} QueueIsTheBook(cfg: MonitorConfig, run: seq<Action>)
    requires Exec(cfg, INITIAL, run).Some?
    ensures var b := BookOf(cfg, run);
            b.order == b.confirmed + Ids(Exec(cfg, INITIAL, run).value.queue)
  {
    if run != [] {
      var prefix := run[..|run| - 1];
      QueueIsTheBook(cfg, prefix);
      StepKeeps(cfg, BookOf(cfg, prefix), Exec(cfg, INITIAL, prefix).value, run[|run| - 1]);
    }
  }

  // Whatever run led here, a task is spawned for the oldest proposal of the book not yet confirmed.
  lemma DispatchesInOrder(cfg: MonitorConfig, run: seq<Action>)
    requires run != [] && run[|run| - 1].Submits?
    requires Exec(cfg, INITIAL, run).Some? && Exec(cfg, INITIAL, run).value.pc.SetPending?
    ensures var b, task := BookOf(cfg, run), Exec(cfg, INITIAL, run).value.task;
            |b.confirmed| < |b.order| && task == Some(Task(b.order[|b.confirmed|], Running))
  {
    QueueIsTheBook(cfg, run);
    var s, a := Exec(cfg, INITIAL, run[..|run| - 1]).value, run[|run| - 1];
    assert Exec(cfg, INITIAL, run) == Next(cfg, s, a);
    SpawnsTheFront(s, a.finalized, a.submit);
  }

  lemma SpawnsTheFront(s: State, ids: seq<nat>, o: SubmitOutcome)
    requires s.pc.Submit? && AfterSubmit(s, s.pc.role, ids, o).pc.SetPending?
    ensures var t := AfterSubmit(s, s.pc.role, ids, o);
            t.queue != [] && t.task == Some(Task(t.queue[0].id, Running))
  {
  }

  // ---------- between two restarts ----------

  // Neither recovers proposals nor resets or rebuilds the builder.
  predicate Plain(s: State, a: Action) {
    match (a, s.pc)
    case (Receives(_), _) => s.channel == [] || s.channel[0] != OldestForcedInclusionDue
    case (Preconfirms(o), Preconfirm(role, _)) => !o.FastReanchor? || role.submitter || !(role.preconfer && role.synced)
    case (Verifies(o), Verify(role, busy)) => o.StillVerifying? || o.VerifyErr? || !role.submitter || busy || !s.verifier
    case (Submits(_, o), _) => o.SendTransactionError? ==> o.error != OldestForcedInclusionDue
    case (CleansUp(_, ok), Cleanup(role)) => role.submitter || role.preconfer || !ok
    case _ => true
  }

  // The proposals an action finalizes.
  function Finalizes(s: State, a: Action): seq<nat> {
    match (a, s.pc)
    case (Preconfirms(o), Preconfirm(role, _)) =>
      if role.preconfer && role.synced && !o.NoBlock? && !o.FastReanchor? then o.finalized else []
    case (Submits(ids, _), _) => ids
    case _ => []
  }

  ghost predicate PlainFrom(cfg: MonitorConfig, run: seq<Action>, k: nat) {
    forall j :: k <= j < |run| ==>
      Exec(cfg, INITIAL, run[..j]).Some? && Plain(Exec(cfg, INITIAL, run[..j]).value, run[j])
  }

  // The proposals that action j of the run finalizes.
  function FinalizedAt(cfg: MonitorConfig, run: seq<Action>, j: nat): seq<nat>
    requires j < |run|
  {
    var s := Exec(cfg, INITIAL, run[..j]);
    if s.None? then [] else Finalizes(s.value, run[j])
  }

  function Joined(parts: seq<seq<nat>>, k: nat): seq<nat> {
    if |parts| <= k then [] else Joined(parts[..|parts| - 1], k) + parts[|parts| - 1]
  }

  // What the run finalizes from action k on, in order.
  function FinalizedFrom(cfg: MonitorConfig, run: seq<Action>, k: nat): seq<nat> {
    Joined(seq(|run|, j requires 0 <= j < |run| => FinalizedAt(cfg, run, j)), k)
  }

  lemma PlainAppends(s: State, b: Book, a: Action)
    requires Plain(s, a)
    ensures Booked(s, b, a).order == b.order + Finalizes(s, a)
  {
  }

  lemma BookStep(cfg: MonitorConfig, run: seq<Action>, s: State)
    requires run != [] && Exec(cfg, INITIAL, run[..|run| - 1]) == Some(s)
    ensures BookOf(cfg, run) == Booked(s, BookOf(cfg, run[..|run| - 1]), run[|run| - 1])
  {
  }

  lemma PlainStep(cfg: MonitorConfig, run: seq<Action>, j: nat)
    requires j < |run| && Exec(cfg, INITIAL, run[..j]).Some? && Plain(Exec(cfg, INITIAL, run[..j]).value, run[j])
    ensures BookOf(cfg, run[..j + 1]).order == BookOf(cfg, run[..j]).order + FinalizedAt(cfg, run, j)
  {
    var s := Exec(cfg, INITIAL, run[..j]).value;
    assert run[..j + 1][..j] == run[..j];
    BookStep(cfg, run[..j + 1], s);
    PlainAppends(s, BookOf(cfg, run[..j]), run[j]);
  }

  // Lines that each extend the one before end in the first followed by all the extensions.
  lemma {:induction false} ExtensionsJoin(lines: seq<seq<nat>>, parts: seq<seq<nat>>, k: nat)
    requires |lines| == |parts| + 1 && k <= |parts|
    requires forall j :: k <= j < |parts| ==> lines[j + 1] == lines[j] + parts[j]
    ensures lines[|parts|] == lines[k] + Joined(parts, k)
  {
    if k < |parts| {
      var n := |parts| - 1;
      ExtensionsJoin(lines[..n + 1], parts[..n], k);
      Regroup(lines[k], Joined(parts[..n], k), parts[n]);
    }
  }

  lemma PlainRunAppends(cfg: MonitorConfig, run: seq<Action>, k: nat)
    requires k <= |run| && PlainFrom(cfg, run, k)
    ensures BookOf(cfg, run).order == BookOf(cfg, run[..k]).order + FinalizedFrom(cfg, run, k)
  {
    var lines := seq(|run| + 1, j requires 0 <= j <= |run| => BookOf(cfg, run[..j]).order);
    var parts := seq(|run|, j requires 0 <= j < |run| => FinalizedAt(cfg, run, j));
    forall j | k <= j < |run| ensures lines[j + 1] == lines[j] + parts[j] {
      PlainStep(cfg, run, j);
    }
    ExtensionsJoin(lines, parts, k);
    assert run[..|run|] == run;
  }

  lemma RecoveryStep(cfg: MonitorConfig, run: seq<Action>, s: State, ids: seq<nat>)
    requires run != [] && Exec(cfg, INITIAL, run[..|run| - 1]) == Some(s) && run[|run| - 1] == Verifies(Verified(ids))
    requires s.pc.Verify? && s.verifier && s.pc.role.submitter && !s.pc.busy
    ensures BookOf(cfg, run).order == BookOf(cfg, run[..|run| - 1]).confirmed + ids + Ids(s.queue)
  {
    var b := BookOf(cfg, run[..|run| - 1]);
    QueueIsTheBook(cfg, run[..|run| - 1]);
    BookStep(cfg, run, s);
    SplitAt(b.confirmed, Ids(s.queue));
  }

  /**
   From a recovery up to the next restart, what has been confirmed and what is queued are: what was
   confirmed already, the recovered proposals, the ones queued then, and the ones finalized since, in
   this order, each exactly once.
   */
  lemma RecoveredBeforeFinalized(cfg: MonitorConfig, run: seq<Action>, k: nat, s: State)
    requires k < |run| && Exec(cfg, INITIAL, run).Some? && Exec(cfg, INITIAL, run[..k]) == Some(s)
    requires run[k].Verifies? && run[k].verify.Verified? && s.pc.Verify?
    requires s.verifier && s.pc.role.submitter && !s.pc.busy && PlainFrom(cfg, run, k + 1)
    ensures BookOf(cfg, run).confirmed + Ids(Exec(cfg, INITIAL, run).value.queue)
            == BookOf(cfg, run[..k]).confirmed + run[k].verify.recovered + Ids(s.queue) + FinalizedFrom(cfg, run, k + 1)
  {
    QueueIsTheBook(cfg, run);
    PlainRunAppends(cfg, run, k + 1);
    assert run[..k + 1][..k] == run[..k];
    RecoveryStep(cfg, run[..k + 1], s, run[k].verify.recovered);
  }
}
