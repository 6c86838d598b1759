/** Joining a running session with the instance list the proposer sends. */
module Welcome {
  import opened Primitives
  import opened DecreeLog
  import opened IntrusiveList
  import opened Instances
  import opened Session
  import opened PromiseReply
  import opened Learner

  /** The instance list of a welcome: it starts with the committed instance numbered base. */
  ghost predicate Snapshot(items: seq<Instance>, base: nat) {
    Sorted(items) && items != [] && items[0].inum == base && items[0].committed
  }

  /** The list while it is searched: the instances before the hole are marked cached and learned, the others are as
      they came. */
  ghost predicate Marked(xs: seq<Instance>, items: seq<Instance>, base: nat, hole: nat) {
    && base <= hole <= base + |items| && |xs| == |items|
    && (forall i {:trigger xs[i]} :: 0 <= i < |xs| ==>
          if i < hole - base then xs[i] == Wire(items[i]).(cached := true, learned := true) && xs[i].inum == base + i
                                  && xs[i].committed
          else xs[i] == Wire(items[i]))
  }

  lemma MarkOne(xs: seq<Instance>, items: seq<Instance>, base: nat, hole: nat)
    requires Marked(xs, items, base, hole) && hole - base < |items|
    requires xs[hole - base].inum == hole && xs[hole - base].committed
    ensures Marked(xs[hole - base := xs[hole - base].(cached := true, learned := true)], items, base, hole + 1)
  {
  }

  /** Where the search stops, a learner can start. */
  lemma MarkedLearns(xs: seq<Instance>, items: seq<Instance>, base: nat, hole: nat)
    requires Snapshot(items, base) && Marked(xs, items, base, hole)
    requires hole - base < |xs| ==> !(xs[hole - base].inum == hole && xs[hole - base].committed)
    ensures LearnedPrefix(xs, base, hole) && Blocked(xs, base, hole) && Backed(xs, hole, {})
    ensures StartAt(xs, base, hole) == if hole - base < |xs| && xs[hole - base].inum == hole then hole - base
                                       else hole - base - 1
  {
    FirstStays(xs, items, base, hole);
    MarkedLog(xs, items, base, hole);
    if hole - base < |xs| {
      assert xs[hole - base - 1].inum == hole - 1;
      assert xs[hole - base].inum >= hole;
    }
  }

  lemma MarkedLog(xs: seq<Instance>, items: seq<Instance>, base: nat, hole: nat)
    requires Sorted(items) && Marked(xs, items, base, hole)
    ensures Sorted(xs) && Sorted(Wires(items)) && LogOf(xs) == LogOf(Wires(items))
  {
    hide LogOf;
    var ws := Wires(items);
    assert forall i :: 0 <= i < |xs| ==> xs[i].inum == items[i].inum == ws[i].inum;
    forall x | x in xs ensures x.inum in LogOf(ws) && LogOf(ws)[x.inum] == SlotOf(x) {
      var i :| 0 <= i < |xs| && xs[i] == x;
      assert ws[i] in ws;
    }
    forall n | n in LogOf(ws) ensures Numbered(xs, n) {
      var i := PlaceOf(ws, n);
      assert xs[i] in xs;
    }
    OneLog(xs, LogOf(ws));
  }

  /** The search of `acceptor_ack_welcome` for the hole, the end of the contiguous committed instances. */
  method FindHole(list: List<Instance>, items: seq<Instance>, base: nat) returns (hole: nat, istart: Link<Instance>)
    requires list.Valid() && Snapshot(items, base) && Marked(list.Elts(), items, base, base)
    modifies list.links`elt
    ensures list.Valid() && Marked(list.Elts(), items, base, hole) && LearnedPrefix(list.Elts(), base, hole)
    ensures Blocked(list.Elts(), base, hole) && Backed(list.Elts(), hole, {})
    ensures istart == list.links[StartAt(list.Elts(), base, hole)]
    ensures HoleThere(list.Elts(), base, hole) ==> !list.Elts()[hole - base].committed
  {
    hide LogOf, Vals, List.Valid, Sorted, Marked, Wire, LearnedPrefix, Blocked, Backed, Snapshot, StartAt;
    var inst := list.first;
    hole := base;
    ghost var links := list.links;
    list.Ends();
    while true
      invariant list.Valid() && base <= hole <= base + |links|
      invariant inst == if hole - base < |links| then links[hole - base] else null
      invariant Marked(list.Elts(), items, base, hole)
      decreases base + |links| - hole
    {
      ghost var j := hole - base;
      list.Ends();
      FirstStays(list.Elts(), items, base, hole);
      if inst == null {
        istart := list.last;
        break;
      }
      list.Around(j);
      if inst.elt.inum != hole {
        istart := inst.prev;
        break;
      }
      if !inst.elt.committed {
        istart := inst;
        break;
      }
      MarkOne(list.Elts(), items, base, hole);
      list.Store(inst, inst.elt.(cached := true, learned := true), j);
      inst := inst.next;
      hole := hole + 1;
    }
    MarkedLearns(list.Elts(), items, base, hole);
  }

  /** `acceptor_ack_welcome`: copy the list and find the hole. */
  method AckWelcome(self: nat, ballot: Ballot, base: nat, items: seq<Instance>, acceptors: nat)
    returns (pax: Session)
    requires Snapshot(items, base)
    ensures fresh(pax) && pax.Valid() && pax.trace == [] && pax.ballot == ballot && pax.genHigh == ballot.gen
    ensures fresh(pax.ilist) && fresh(pax.ilist.links) && pax.acceptors == acceptors
    ensures pax.self == self && pax.base == base && pax.origin == pax.hole && pax.rcache == {}
    ensures Sorted(Wires(items)) && pax.Log() == LogOf(Wires(items))
    ensures (forall n :: base <= n < pax.hole ==> n in pax.Log() && pax.Log()[n].committed)
    ensures pax.hole in pax.Log() ==> !pax.Log()[pax.hole].committed
  {
    hide LogOf, Vals, List.Valid, Sorted, Marked, Wire, Wires, LearnedPrefix, Blocked, Backed, StartAt,
      HoleThere, Session.Pointed, Learning;
    var list := CopyList(items);
    NoneMarked(items, base);
    var hole, istart := FindHole(list, items, base);
    MarkedLog(list.Elts(), items, base, hole);
    pax := new Session.Joined(self, list, ballot, base, hole, istart, acceptors);
    HoleTells(pax);
  }

  lemma HoleTells(pax: Session)
    requires pax.Valid() && (HoleThere(pax.Xs(), pax.base, pax.hole) ==> !pax.Xs()[pax.hole - pax.base].committed)
    ensures forall n :: pax.base <= n < pax.hole ==> n in pax.Log() && pax.Log()[n].committed
    ensures pax.hole in pax.Log() ==> !pax.Log()[pax.hole].committed
  {
    hide LogOf, Vals, List.Valid, Sorted, Blocked;
    Contiguous(pax);
    StartInstance(pax);
  }

  /** Everything from the base to the hole is committed. */
  lemma Contiguous(pax: Session)
    requires pax.Learns()
    ensures forall n :: pax.base <= n < pax.hole ==> n in pax.Log() && pax.Log()[n].committed
  {
    hide LogOf, Vals, List.Valid;
    forall n | pax.base <= n < pax.hole
      ensures n in pax.Log() && pax.Log()[n].committed
    {
      LogAt(pax.Xs(), n - pax.base, n);
    }
  }

  lemma FirstStays(xs: seq<Instance>, items: seq<Instance>, base: nat, hole: nat)
    requires Snapshot(items, base) && Marked(xs, items, base, hole)
    ensures |xs| == |items| > 0 && (hole == base ==> xs[0].inum == base && xs[0].committed)
  {
  }

  lemma NoneMarked(items: seq<Instance>, base: nat)
    ensures Marked(Wires(items), items, base, base)
  {
  }

  /** Unpack the instances onto a new list. */
  method CopyList(items: seq<Instance>) returns (list: List<Instance>)
    ensures fresh(list) && fresh(list.links) && list.Valid() && list.Elts() == Wires(items)
  {
    hide Vals, List.Valid, Wire, InsertAt;
    list := new List<Instance>();
    for i := 0 to |items|
      invariant fresh(list) && fresh(list.links) && list.Valid() && list.Elts() == Wires(items[..i])
    {
      var inst := new Link(Wire(items[i]));
      ValsInsert(list.links, |list.links|, inst);
      Append(Wires(items[..i]), Wire(items[i]));
      Append(list.links, inst);
      assert items[..i + 1] == items[..i] + [items[i]];
      assert Wires(items[..i + 1]) == Wires(items[..i]) + [Wire(items[i])];
      list.InsertTail(inst);
    }
    assert items[..|items|] == items;
  }

  lemma Append<T>(s: seq<T>, x: T)
    ensures InsertAt(s, |s|, x) == s + [x]
  {
  }
}
