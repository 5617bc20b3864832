/** The queue of finalized proposals and the pending flag of the one that was dispatched. */
module ProposalQueues {
  // A proposal, by the identity of its contents.
  datatype Proposal = Proposal(id: nat, pending: bool)

  // Newly built or recovered proposals are not pending.
  function Fresh(ids: seq<nat>): (q: seq<Proposal>)
    ensures |q| == |ids| && forall i :: 0 <= i < |q| ==> q[i] == Proposal(ids[i], false)
  {
    seq(|ids|, i requires 0 <= i < |ids| => Proposal(ids[i], false))
  }

  predicate FrontPending(q: seq<Proposal>) {
    q != [] && q[0].pending
  }

  function WithoutConfirmed(q: seq<Proposal>): seq<Proposal> {
    if FrontPending(q) then q[1..] else q
  }

  function WithFront(q: seq<Proposal>, pending: bool): seq<Proposal> {
    if q == [] then q else q[0 := q[0].(pending := pending)]
  }

  class ProposalQueue {
    var proposals: seq<Proposal>

    constructor ()
      ensures proposals == []
    {
      proposals := [];
    }

    method Push(proposal: Proposal)
      modifies this
      ensures proposals == old(proposals) + [proposal]
    {
      proposals := proposals + [proposal];
    }

    method PushAll(ids: seq<nat>)
      modifies this
      ensures proposals == old(proposals) + Fresh(ids)
    {
      for i := 0 to |ids|
        invariant proposals == old(proposals) + Fresh(ids[..i])
      {
        Push(Proposal(ids[i], false));
        assert Fresh(ids[..i + 1]) == Fresh(ids[..i]) + [Proposal(ids[i], false)];
      }
      assert ids[..|ids|] == ids;
    }

    // Pops the front only if it was dispatched.
    method RemoveConfirmed()
      modifies this
      ensures proposals == WithoutConfirmed(old(proposals))
      ensures old(proposals) != [] && old(proposals)[0].pending ==> [old(proposals)[0]] + proposals == old(proposals)
      ensures old(proposals) == [] || !old(proposals)[0].pending ==> proposals == old(proposals)
    {
      if proposals != [] && proposals[0].pending {
        proposals := proposals[1..];
      }
    }

    method MarkFrontForResubmit()
      modifies this
      ensures proposals == WithFront(old(proposals), false)
      ensures old(proposals) != [] ==> proposals == [Proposal(old(proposals)[0].id, false)] + old(proposals)[1..]
    {
      if proposals != [] {
        proposals := proposals[0 := proposals[0].(pending := false)];
      }
    }

    method MarkFrontPending()
      requires proposals != []
      modifies this
      ensures proposals == WithFront(old(proposals), true)
      ensures proposals == [Proposal(old(proposals)[0].id, true)] + old(proposals)[1..]
    {
      proposals := proposals[0 := proposals[0].(pending := true)];
    }

    method TakeAll() returns (all: seq<Proposal>)
      modifies this
      ensures all == old(proposals) && proposals == []
    {
      all, proposals := proposals, [];
    }

    method Prepend(recovered: seq<Proposal>)
      modifies this
      ensures proposals == recovered + old(proposals)
    {
      proposals := recovered + proposals;
    }
  }
}
