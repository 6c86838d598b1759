/** Finishing a prepare: one pass over the instance numbers from the hole on that re-decrees what is uncommitted and
    fills the gaps with null decrees. */
module FinishingPrepare {
  import opened Primitives
  import opened DecreeLog
  import opened IntrusiveList
  import opened Instances
  import opened Session
  import opened Learner
  import opened Acceptor
  import opened PromiseReply
  import opened MergePromise

  /** `header_init` and `instance_init_metadata` for a decree. */
  function Decreed(x: Instance, b: Ballot): Instance {
    x.(ballot := b, committed := false, cached := false, learned := false, votes := 1, rejects := 0)
  }

  /** A null decree with the next request id of our own. */
  function NullDecree(n: nat, self: nat, reqid: nat, b: Ballot): Instance {
    Decreed(Fresh(n, b).(value := Value(Null, Pair(self, reqid), 0)), b)
  }

  /** Insert a null decree for instance n. */
  method InsertNull(pax: Session, it: Link<Instance>, n: nat, ghost k: nat) returns (inst: Link<Instance>)
    requires pax.Learns() && k < |pax.ilist.links| && pax.ilist.links[k] == it
    requires LastUpTo(pax.Xs(), k, n) && it.elt.inum < n
    modifies pax`istart, pax`reqid, pax.ilist, pax.ilist.links`next, pax.ilist.links`prev
    ensures pax.Learns() && pax.reqid == old(pax.reqid) + 1
    ensures pax.istart == if n == pax.hole then inst else old(pax.istart)
    ensures inst.elt == NullDecree(n, pax.self, pax.reqid, pax.ballot) && fresh(inst)
    ensures pax.ilist.links == InsertAt(old(pax.ilist.links), k + 1, inst)
    ensures n !in old(pax.Log()) && pax.Log() == old(pax.Log())[n := SlotOf(inst.elt)]
  {
    hide LogOf, Vals, List.Valid, Sorted, Learning, Session.Pointed, Session.Xs, InsertAt, LastUpTo;
    pax.reqid := pax.reqid + 1;
    inst := new Link(NullDecree(n, pax.self, pax.reqid, pax.ballot));
    InsertVote(pax, it, inst, k);
  }

  /** Nobody in the quorum has heard of instance n: decree null, and leave istart in its place. */
  method Fill(pax: Session, it: Link<Instance>, n: nat, ghost k: nat) returns (inst: Link<Instance>)
    requires pax.Learns() && k < |pax.ilist.links| && pax.ilist.links[k] == it
    requires LastUpTo(pax.Xs(), k, n) && it.elt.inum < n && (n == pax.hole || (n > pax.hole && pax.hole in pax.Log()))
    modifies pax`istart, pax`reqid, pax.ilist, pax.ilist.links`next, pax.ilist.links`prev
    ensures pax.Learns() && pax.reqid == old(pax.reqid) + 1
    ensures old(PlaceOfStart(pax)) != Wrong ==> PlaceOfStart(pax) == old(PlaceOfStart(pax))
    ensures pax.istart == if n == pax.hole then inst else old(pax.istart)
    ensures inst.elt == NullDecree(n, pax.self, pax.reqid, pax.ballot) && fresh(inst)
    ensures pax.ilist.links == InsertAt(old(pax.ilist.links), k + 1, inst)
    ensures n !in old(pax.Log()) && pax.Log() == old(pax.Log())[n := SlotOf(inst.elt)]
  {
    hide LogOf, Vals, List.Valid, Sorted, Learning, Session.Pointed, Blocked, Session.Xs, InsertAt, LastUpTo, PlaceOfStart;
    ghost var place := PlaceOfStart(pax);
    PlaceTells(pax);
    if place == Right {
      PointsNow(pax);
    }
    ghost var was := pax.ilist.links;
    inst := InsertNull(pax, it, n, k);
    InsertMembers(was, k + 1, inst);
    if place == Right {
      PointsRight(pax);
    }
    if place != Wrong {
      PlaceIs(pax, place);
    }
  }

  ghost predicate IsLast(log: Log, last: nat) {
    last in log && forall n :: n in log ==> n <= last
  }

  /** The greatest number is that of the last instance. */
  lemma LastOf(pax: Session)
    requires pax.Listed() && pax.ilist.links != []
    ensures var links := pax.ilist.links; IsLast(pax.Log(), links[|links| - 1].elt.inum)
  {
    hide LogOf, List.Valid, Vals;
    var xs := pax.Xs();
    assert xs[|xs| - 1] in xs;
    forall n | n in pax.Log() ensures n <= xs[|xs| - 1].inum {
      var j := PlaceOf(xs, n);
    }
  }

  /** What the closest instance tells about the log. */
  lemma GlbTells(pax: Session, k: nat, n: nat)
    requires pax.Listed() && k < |pax.ilist.links| && LastUpTo(pax.Xs(), k, n)
    ensures var x := pax.ilist.links[k].elt;
      && x.inum <= n && (n in pax.Log() <==> x.inum == n) && (x.inum == n ==> pax.Log()[n] == SlotOf(x))
  {
    hide LogOf, List.Valid, Vals;
    GlbFinds(pax.Xs(), k, n);
  }

  /** sent holds a decree for exactly the uncommitted instances of the log from hole to before n, in order. */
  ghost predicate Sent(sent: seq<Instance>, log: Log, hole: nat, n: nat) {
    && Sorted(sent)
    && (forall x {:trigger x in sent} :: x in sent ==>
          hole <= x.inum < n && x.inum in log && log[x.inum] == SlotOf(x) && !x.committed)
    && (forall m {:trigger Numbered(sent, m)} :: hole <= m < n && m in log && !log[m].committed ==> Numbered(sent, m))
  }

  lemma SentOne(sent: seq<Instance>, log: Log, hole: nat, x: Instance)
    requires Sent(sent, log, hole, x.inum) && hole <= x.inum && !x.committed
    ensures Sent(sent + [x], log[x.inum := SlotOf(x)], hole, x.inum + 1)
  {
    var more, l := sent + [x], log[x.inum := SlotOf(x)];
    assert forall i :: 0 <= i < |sent| ==> sent[i] in sent;
    assert forall y :: y in more <==> y in sent || y == x;
    forall m | hole <= m < x.inum + 1 && m in l && !l[m].committed ensures Numbered(more, m) {
      if m == x.inum {
        assert x in more;
      } else {
        var y := Find(sent, m);
        assert y in more;
      }
    }
  }

  lemma SentNone(sent: seq<Instance>, log: Log, hole: nat, n: nat)
    requires Sent(sent, log, hole, n) && n in log && log[n].committed
    ensures Sent(sent, log, hole, n + 1)
  {
  }

  lemma FinishUnfolds(log: Log, n: nat, last: nat, b: Ballot, self: nat, reqid: nat)
    ensures n > last ==> FinishFrom(log, n, last, b, self, reqid) == (log, reqid)
    ensures n <= last && n !in log ==>
              FinishFrom(log, n, last, b, self, reqid)
              == FinishFrom(log[n := Slot(b, Value(Null, Pair(self, reqid + 1), 0), false, 1)], n + 1, last, b, self,
                             reqid + 1)
    ensures n <= last && n in log && !log[n].committed ==>
              FinishFrom(log, n, last, b, self, reqid)
              == FinishFrom(log[n := log[n].(ballot := b, votes := 1)], n + 1, last, b, self, reqid)
    ensures n <= last && n in log && log[n].committed ==>
              FinishFrom(log, n, last, b, self, reqid) == FinishFrom(log, n + 1, last, b, self, reqid)
  {
  }

  /** An instance that is there but not committed is decreed again, under our ballot. */
  method Redecree(pax: Session, it: Link<Instance>, ghost k: nat)
    requires pax.Learns() && k < |pax.ilist.links| && pax.ilist.links[k] == it && !it.elt.committed
    modifies it`elt
    ensures old(PlaceOfStart(pax)) != Wrong ==> PlaceOfStart(pax) == old(PlaceOfStart(pax))
    ensures pax.Learns() && it.elt == Decreed(old(it.elt), pax.ballot)
    ensures pax.Log() == old(pax.Log())[it.elt.inum := SlotOf(it.elt)]
    ensures SlotOf(it.elt) == SlotOf(old(it.elt)).(ballot := pax.ballot, votes := 1)
  {
    hide LogOf, Vals, List.Valid, Sorted, Learning, Session.Pointed, Blocked, Session.Xs, PlaceOfStart;
    OpenInstance(pax, k);
    Overwrite(pax, it, Decreed(it.elt, pax.ballot), k);
  }

  /** What happens at number n, once the closest instance it is found. */
  method FinishOne(pax: Session, it: Link<Instance>, n: nat, sent: seq<Instance>, ghost last: nat, ghost k: nat)
    returns (more: seq<Instance>)
    requires pax.Learns() && k < |pax.ilist.links| && pax.ilist.links[k] == it && LastUpTo(pax.Xs(), k, n)
    requires pax.hole <= n <= last && IsLast(pax.Log(), last) && (n > pax.hole ==> pax.hole in pax.Log())
    requires Sent(sent, pax.Log(), pax.hole, n)
    modifies pax`istart, pax`reqid, pax.ilist, pax.ilist.links
    ensures pax.Learns() && (old(PlaceOfStart(pax)) != Wrong ==> PlaceOfStart(pax) == old(PlaceOfStart(pax)))
    ensures k < |pax.ilist.links| && pax.ilist.links[k] == it && it.elt.inum <= n
    ensures pax.hole in pax.Log() && IsLast(pax.Log(), last) && Sent(more, pax.Log(), pax.hole, n + 1)
    ensures FinishFrom(pax.Log(), n + 1, last, pax.ballot, pax.self, pax.reqid)
         == FinishFrom(old(pax.Log()), n, last, pax.ballot, pax.self, old(pax.reqid))
    ensures forall i :: 0 <= i < |pax.ilist.links| ==>
              pax.ilist.links[i] in old(pax.ilist.links) || fresh(pax.ilist.links[i])
  {
    hide LogOf, Vals, List.Valid, Sorted, Learning, Session.Pointed, Blocked, Session.Xs, Sent, FinishFrom, LastUpTo,
      Session.Log, PlaceOfStart;
    GlbTells(pax, k, n);
    FinishUnfolds(pax.Log(), n, last, pax.ballot, pax.self, pax.reqid);
    more := sent;
    var inst: Link?<Instance> := null;
    if it.elt.inum < n {
      inst := Fill(pax, it, n, k);
      InsertMembers(old(pax.ilist.links), k + 1, inst);
    } else if !it.elt.committed {
      Redecree(pax, it, k);
      inst := it;
    }
    if inst != null {
      more := sent + [inst.elt];
      SentOne(sent, old(pax.Log()), pax.hole, inst.elt);
    } else {
      SentNone(sent, pax.Log(), pax.hole, n);
    }
  }

  lemma SentNothing(pax: Session)
    requires pax.Learns()
    ensures Sent([], pax.Log(), pax.hole, pax.hole) && pax.ilist.links != []
    ensures var links := pax.ilist.links; pax.hole <= links[|links| - 1].elt.inum + 1
  {
    hide LogOf, List.Valid, Vals;
    var xs, j := pax.Xs(), pax.hole - pax.base;
    assert xs[j - 1].inum == pax.hole - 1;
    assert j - 1 < |xs| - 1 ==> xs[j - 1].inum < xs[|xs| - 1].inum;
  }

  lemma NotLast(pax: Session, k: nat, n: nat, last: nat)
    requires pax.Listed() && k < |pax.ilist.links| && LastUpTo(pax.Xs(), k, n) && IsLast(pax.Log(), last)
    requires pax.ilist.links[k].elt.inum == n || pax.ilist.links[k] != pax.ilist.last
    ensures n <= last
  {
    hide LogOf, Vals;
    var xs := pax.Xs();
    assert xs[k].inum in LogOf(xs) by { assert xs[k] in xs; }
    if k + 1 < |xs| {
      assert xs[k + 1].inum in LogOf(xs) by { assert xs[k + 1] in xs; }
    }
  }

  lemma SameLast(log: Log, last: nat, other: nat)
    requires IsLast(log, last) && IsLast(log, other)
    ensures last == other
  {
  }

  lemma OneLast(log: Log, last: nat)
    requires IsLast(log, last)
    ensures last == Last(log)
  {
  }

  /** One pass of the loop: search, stop behind the last instance, and else deal with number n. */
  method FinishStep(pax: Session, it0: Link<Instance>, n: nat, sent: seq<Instance>, ghost last: nat,
                    ghost trail: seq<Link<Instance>>, ghost k0: nat)
    returns (went: Went, done: bool, it: Link<Instance>, more: seq<Instance>, ghost k: nat)
    requires pax.Learns()
    requires Leads(pax.ilist.links, it0, trail, k0) || Leaves(pax.ilist.links, it0, trail, n)
    requires pax.hole <= n <= last + 1 && IsLast(pax.Log(), last) && (n > pax.hole ==> pax.hole in pax.Log())
    requires Sent(sent, pax.Log(), pax.hole, n)
    modifies pax`istart, pax`reqid, pax.ilist, pax.ilist.links
    ensures went == Beyond <==> old(it0.elt.inum) > n
    ensures went == Stray <==> old(it0.elt.inum) <= n && !old(Leads(pax.ilist.links, it0, trail, k0))
    ensures went == Stray ==> |trail| > 1
    ensures pax.Learns() && (old(PlaceOfStart(pax)) != Wrong ==> PlaceOfStart(pax) == old(PlaceOfStart(pax)))
    ensures went == Through && done ==>
              n == last + 1 && pax.Log() == old(pax.Log()) && pax.reqid == old(pax.reqid) && more == sent
    ensures went == Through && !done ==>
              && n <= last && k < |pax.ilist.links| && Leads(pax.ilist.links, it, [it], k) && it.elt.inum <= n
              && pax.hole in pax.Log() && IsLast(pax.Log(), last) && Sent(more, pax.Log(), pax.hole, n + 1)
              && FinishFrom(pax.Log(), n + 1, last, pax.ballot, pax.self, pax.reqid)
              == FinishFrom(old(pax.Log()), n, last, pax.ballot, pax.self, old(pax.reqid))
    ensures forall i :: 0 <= i < |pax.ilist.links| ==>
              pax.ilist.links[i] in old(pax.ilist.links) || fresh(pax.ilist.links[i])
  {
    hide LogOf, Vals, List.Valid, Sorted, Learning, Session.Pointed, Blocked, Sent, FinishFrom, LastUpTo,
      Session.Log, IsLast, Leads, Leaves, PlaceOfStart;
    done, more := true, sent;
    went, it, k := Closest(pax, it0, n, trail, k0);
    if went != Through {
      return;
    }
    GlbTells(pax, k, n);
    LastOf(pax);
    pax.ilist.Ends();
    if it.elt.inum < n && it == pax.ilist.last {
      SameLast(pax.Log(), last, it.elt.inum);
      return;
    }
    NotLast(pax, k, n, last);
    more := FinishOne(pax, it, n, sent, last, k);
    LeadsItself(pax.ilist.links, it, k);
    done := false;
  }

  /** The second part of `proposer_ack_promise`, from the cached iterator start on, which the promises may have taken out
      of the list.  It goes through exactly if the iterator is ready; then it ends, leaves no gap up to the last
      instance, and decrees each uncommitted instance once, in order. */
  method Finish(pax: Session, start: Link<Instance>, b: Ballot, ghost trail0: seq<Link<Instance>>)
    returns (went: Went, sent: seq<Instance>)
    requires pax.Learns() && Cursor(pax, start, trail0)
    modifies pax`ballot, pax`istart, pax`reqid, pax.ilist, pax.ilist.links
    ensures went == Through <==> old(Ready(pax, start, trail0))
    ensures went == Beyond <==> old(start.elt.inum > pax.hole)
    ensures went == Stray ==> |trail0| > 1
    ensures pax.Learns() && pax.ballot == b && old(pax.Log()).Keys != {}
    ensures old(PlaceOfStart(pax)) != Wrong ==> PlaceOfStart(pax) == old(PlaceOfStart(pax))
    ensures went == Through ==> var log, last := old(pax.Log()), Last(old(pax.Log()));
      && (pax.Log(), pax.reqid) == FinishFrom(log, pax.hole, last, b, pax.self, old(pax.reqid))
      && Sent(sent, pax.Log(), pax.hole, last + 1)
    ensures forall i :: 0 <= i < |pax.ilist.links| ==>
              pax.ilist.links[i] in old(pax.ilist.links) || fresh(pax.ilist.links[i])
  {
    hide LogOf, Vals, List.Valid, Sorted, Learning, Session.Pointed, Blocked, Sent, FinishFrom, LastUpTo,
      Session.Log, Session.Xs, IsLast, Last, Leads, Leaves, PlaceOfStart;
    ghost var trail, k, ready := trail0, CursorPlace(pax, start, trail0), Ready(pax, start, trail0);
    CursorLeads(pax, start, trail, k);
    ghost var place := PlaceOfStart(pax);
    hide Cursor, Ready, Chain;
    SentNothing(pax);
    LastOf(pax);
    ghost var links0, last := pax.ilist.links, pax.ilist.links[|pax.ilist.links| - 1].elt.inum;
    OneLast(pax.Log(), last);
    pax.ballot := b;
    var it := start;
    var n := pax.hole;
    sent := [];
    went := Through;
    while true
      invariant pax.ballot == b && pax.Learns()
      invariant place != Wrong ==> PlaceOfStart(pax) == place
      invariant ready ==> Leads(pax.ilist.links, it, trail, k)
      invariant !ready ==> n == pax.hole && trail == trail0 && Leaves(pax.ilist.links, it, trail, n)
      invariant !ready && Leads(pax.ilist.links, it, trail, k) ==> it.elt.inum > n
      invariant if n == pax.hole then it.elt.inum == old(start.elt.inum) else it.elt.inum < n && pax.hole in pax.Log()
      invariant pax.hole <= n <= last + 1 && IsLast(pax.Log(), last) && Sent(sent, pax.Log(), pax.hole, n)
      invariant FinishFrom(pax.Log(), n, last, b, pax.self, pax.reqid)
             == FinishFrom(old(pax.Log()), pax.hole, last, b, pax.self, old(pax.reqid))
      invariant forall i :: 0 <= i < |pax.ilist.links| ==> pax.ilist.links[i] in links0 || fresh(pax.ilist.links[i])
      decreases last + 1 - n
    {
      var done;
      went, done, it, sent, k := FinishStep(pax, it, n, sent, last, trail, k);
      if went != Through {
        return went, [];
      }
      if done {
        FinishUnfolds(pax.Log(), n, last, b, pax.self, pax.reqid);
        break;
      }
      trail, n := [it], n + 1;
    }
  }

  ghost function CursorPlace(pax: Session, start: Link<Instance>, trail: seq<Link<Instance>>): (k: nat)
    requires Cursor(pax, start, trail)
    reads pax`hole, pax.ilist`links, start, trail
    ensures Ready(pax, start, trail) ==> k < |pax.ilist.links| && pax.ilist.links[k] == trail[|trail| - 1]
  {
    if Ready(pax, start, trail) then PlaceIn(pax.ilist.links, trail[|trail| - 1]) else 0
  }

  lemma LeadsItself(links: seq<Link<Instance>>, it: Link<Instance>, k: nat)
    requires k < |links| && links[k] == it
    ensures Leads(links, it, [it], k)
  {
  }
}
