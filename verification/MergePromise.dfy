/** Merging the votes of a promise into the preparer's own instance list, with one iterator that is carried from vote
    to vote. */
module MergePromise {
  import opened Primitives
  import opened DecreeLog
  import opened IntrusiveList
  import opened Instances
  import opened Session
  import opened PromiseReply
  import opened Learner
  import opened Acceptor

  // ---------------------------------------------------------------- on values

  /** What the log holds at v's number after v was merged in. */
  function MergedSlot(log: Log, v: Instance): Slot {
    if v.inum in log then MergeSlot(log[v.inum], Vote(v.ballot, v.value)) else NewSlot(Vote(v.ballot, v.value))
  }

  lemma VotesPrefix(votes: seq<Instance>, p: nat)
    requires Sorted(votes) && p < |votes|
    ensures Sorted(votes[..p]) && Sorted(votes[..p + 1]) && votes[p].inum !in VotesOf(votes[..p])
    ensures VotesOf(votes[..p + 1]) == VotesOf(votes[..p])[votes[p].inum := Vote(votes[p].ballot, votes[p].value)]
  {
    assert Fits(votes[..p], p, votes[p].inum);
    hide LogOf, Sorted, Votes, InsertAt;
    LogInsert(votes[..p], p, votes[p]);
    InsertLast(votes, p);
    VotesUpdate(LogOf(votes[..p]), votes[p].inum, SlotOf(votes[p]));
  }

  lemma InsertLast<T>(s: seq<T>, p: nat)
    requires p < |s|
    ensures InsertAt(s[..p], p, s[p]) == s[..p + 1]
  {
  }

  lemma VotesUpdate(log: Log, n: nat, x: Slot)
    ensures Votes(log[n := x]) == Votes(log)[n := Vote(x.ballot, x.value)]
    ensures n in Votes(log) <==> n in log
  {
  }

  /** Merging one vote more. */
  lemma MergeOneMore(log: Log, votes: seq<Instance>, p: nat)
    requires Sorted(votes) && p < |votes|
    ensures Sorted(votes[..p]) && Sorted(votes[..p + 1])
    ensures Merge(log, VotesOf(votes[..p + 1]))
         == Merge(log, VotesOf(votes[..p]))[votes[p].inum := MergedSlot(log, votes[p])]
    ensures votes[p].inum in Merge(log, VotesOf(votes[..p])) <==> votes[p].inum in log
    ensures votes[p].inum in log ==> Merge(log, VotesOf(votes[..p]))[votes[p].inum] == log[votes[p].inum]
  {
    hide VotesOf, Sorted;
    VotesPrefix(votes, p);
  }

  // ---------------------------------------------------------------- the search

  /** The links an iterator that is no longer in the list leads through: each but the last is out of the list, has
      the iterator's number, and points to the next.  An iterator in the list is its own trail. */
  ghost predicate Chain(links: seq<Link<Instance>>, it: Link<Instance>, trail: seq<Link<Instance>>)
    reads it, trail
  {
    && trail != [] && trail[0] == it
    && forall i {:trigger trail[i]} :: 0 <= i < |trail| - 1 ==>
         trail[i].next == trail[i + 1] && trail[i].elt.inum == it.elt.inum && trail[i] !in links
  }

  /** The trail ends in the list, in place k, at the iterator's number. */
  ghost predicate Leads(links: seq<Link<Instance>>, it: Link<Instance>, trail: seq<Link<Instance>>, k: nat)
    reads it, trail
  {
    && Chain(links, it, trail) && k < |links| && links[k] == trail[|trail| - 1]
    && trail[|trail| - 1].elt.inum == it.elt.inum
  }

  /** The trail ends beyond number n. */
  ghost predicate Leaves(links: seq<Link<Instance>>, it: Link<Instance>, trail: seq<Link<Instance>>, n: nat)
    reads it, trail
  {
    Chain(links, it, trail) && trail[|trail| - 1].elt.inum > n
  }

  /** `get_instance_glb`: from an iterator on, the last instance numbered at most n; none exactly if the iterator is
      already beyond n.  If the iterator leads out of the list, that is an instance that is no longer in it. */
  method GetInstanceGlb(it: Link<Instance>, list: List<Instance>, n: nat, ghost trail: seq<Link<Instance>>, ghost k: nat)
    returns (prev: Link?<Instance>, ghost j: nat)
    requires list.Valid() && Sorted(list.Elts())
    requires Leads(list.links, it, trail, k) || Leaves(list.links, it, trail, n)
    ensures prev == null <==> it.elt.inum > n
    ensures prev != null && Leads(list.links, it, trail, k) ==>
              k <= j < |list.links| && prev == list.links[j] && LastUpTo(list.Elts(), j, n)
    ensures prev != null && !Leads(list.links, it, trail, k) ==> |trail| > 1 && prev == trail[|trail| - 2]
  {
    hide List.Valid, Vals, Sorted;
    ghost var xs := list.Elts();
    prev := null;
    var at: Link?<Instance> := it;
    ghost var m, i: nat := 0, k;
    while at != null
      invariant m <= |trail| && k <= i
      invariant m < |trail| ==> at == trail[m] && prev == (if m == 0 then null else trail[m - 1]) && i == k
      invariant m > 0 ==> it.elt.inum <= n
      invariant m == |trail| ==> Leads(list.links, it, trail, k) && i < |xs| && prev == list.links[i] && xs[i].inum <= n
      invariant m == |trail| ==> at == if i + 1 < |xs| then list.links[i + 1] else null
      decreases |trail| - m, |xs| - i
    {
      if m == |trail| || (m == |trail| - 1 && Leads(list.links, it, trail, k)) {
        list.Around(if m == |trail| then i + 1 else i);
      }
      if at.elt.inum > n {
        break;
      }
      prev := at;
      at := at.next;
      if m < |trail| {
        m := m + 1;
      } else {
        i := i + 1;
      }
    }
    j := i;
  }

  /** How a search comes out: with an instance of the list, with none, or with one that is not in the list. */
  datatype Went = Through | Beyond | Stray

  /** The search, stopping where the C code would go on with an instance that is no longer in the list. */
  method Closest(pax: Session, it: Link<Instance>, n: nat, ghost trail: seq<Link<Instance>>, ghost k: nat)
    returns (went: Went, at: Link<Instance>, ghost j: nat)
    requires pax.Listed()
    requires Leads(pax.ilist.links, it, trail, k) || Leaves(pax.ilist.links, it, trail, n)
    ensures went == Beyond <==> it.elt.inum > n
    ensures went == Stray <==> it.elt.inum <= n && !Leads(pax.ilist.links, it, trail, k)
    ensures went == Stray ==> |trail| > 1
    ensures went == Through ==>
              k <= j < |pax.ilist.links| && at == pax.ilist.links[j] && LastUpTo(pax.Xs(), j, n)
  {
    hide LogOf, Vals, List.Valid, Sorted, LastUpTo;
    var prev;
    prev, j := GetInstanceGlb(it, pax.ilist, n, trail, k);
    if prev == null {
      return Beyond, it, j;
    }
    at := prev;
    var found, l := FindInstance(pax, at.elt.inum);
    assert found != null ==> found in pax.ilist.links;
    if Leads(pax.ilist.links, it, trail, k) {
      LinkPlace(pax, at, at.elt.inum);
    } else {
      assert trail[|trail| - 2].next == trail[|trail| - 1];
    }
    went := if found == at then Through else Stray;
  }

  // ---------------------------------------------------------------- one vote

  /** There is no instance with the vote's number yet: it becomes a new one behind the one found. */
  method InsertVote(pax: Session, it: Link<Instance>, inst: Link<Instance>, ghost k: nat)
    requires pax.Listed() && k < |pax.ilist.links| && pax.ilist.links[k] == it && inst !in pax.ilist.links
    requires LastUpTo(pax.Xs(), k, inst.elt.inum) && it.elt.inum < inst.elt.inum
    requires !inst.elt.committed && !inst.elt.cached && !inst.elt.learned
    modifies pax`istart, pax.ilist, pax.ilist.links`next, pax.ilist.links`prev, inst`next, inst`prev
    ensures pax.Listed() && pax.ilist.links == InsertAt(old(pax.ilist.links), k + 1, inst)
    ensures inst.elt.inum !in old(pax.Log()) && pax.Log() == old(pax.Log())[inst.elt.inum := SlotOf(inst.elt)]
    ensures pax.istart == if inst.elt.inum == pax.hole then inst else old(pax.istart)
    ensures old(pax.Learns()) ==> pax.Learns()
  {
    hide LogOf, Vals, List.Valid, Sorted, InsertAt, Learning;
    InsertLearns(pax, k, inst.elt);
    ValsInsert(pax.ilist.links, k + 1, inst);
    LogInsert(pax.Xs(), k + 1, inst.elt);
    pax.ilist.InsertAfter(it, inst, k);
    if inst.elt.inum == pax.hole {
      pax.istart := inst;
    }
  }

  /** The number is there with a lower ballot: switch the vote in. */
  method SwapVote(pax: Session, it: Link<Instance>, inst: Link<Instance>, ghost k: nat)
    requires pax.Listed() && k < |pax.ilist.links| && pax.ilist.links[k] == it && inst !in pax.ilist.links
    requires it.elt.inum == inst.elt.inum && !it.elt.committed
    requires !inst.elt.committed && !inst.elt.cached && !inst.elt.learned
    modifies pax.ilist, pax.ilist.links`next, pax.ilist.links`prev, inst`next, inst`prev
    ensures pax.Listed() && pax.ilist.links == old(pax.ilist.links)[k := inst] && it !in pax.ilist.links
    ensures it.next == inst && inst.elt.inum in old(pax.Log()) && old(pax.Log())[inst.elt.inum] == SlotOf(it.elt)
    ensures pax.Log() == old(pax.Log())[inst.elt.inum := SlotOf(inst.elt)]
    ensures old(pax.Learns()) ==> pax.Learns()
  {
    hide LogOf, Vals, Sorted, Learning;
    UpdateLearns(pax, k, inst.elt);
    ghost var links, xs := pax.ilist.links, pax.Xs();
    LogUpdate(xs, k, inst.elt);
    SwapLinks(links, k, inst);
    SwapVals(links, k, inst);
    assert it !in links[k := inst];
    hide List.Valid, InsertAt, RemoveAt;
    pax.ilist.InsertAfter(it, inst, k);
    KeepsPlace(links, k, inst);
    pax.ilist.Around(k);
    pax.ilist.Remove(it, k);
  }

  lemma InsertLearns(pax: Session, k: nat, x: Instance)
    requires k < |pax.Xs()| && LastUpTo(pax.Xs(), k, x.inum) && pax.Xs()[k].inum < x.inum
    requires !x.committed && !x.cached && !x.learned
    ensures Learning(pax.Xs(), pax.base, pax.hole, pax.origin, pax.rcache, pax.trace) ==>
              Learning(InsertAt(pax.Xs(), k + 1, x), pax.base, pax.hole, pax.origin, pax.rcache, pax.trace)
  {
    hide InsertAt, Vals;
    var xs := pax.Xs();
    if Learning(xs, pax.base, pax.hole, pax.origin, pax.rcache, pax.trace) {
      assert xs[k].inum >= pax.base;
      InsertKeeps(xs, pax.base, pax.hole, pax.origin, pax.rcache, pax.trace, k + 1, x);
    }
  }

  lemma UpdateLearns(pax: Session, k: nat, x: Instance)
    requires k < |pax.Xs()| && x.inum == pax.Xs()[k].inum && !pax.Xs()[k].committed
    requires !x.committed && !x.cached && !x.learned
    ensures Learning(pax.Xs(), pax.base, pax.hole, pax.origin, pax.rcache, pax.trace) ==>
              Learning(pax.Xs()[k := x], pax.base, pax.hole, pax.origin, pax.rcache, pax.trace)
  {
    hide Vals;
    var xs := pax.Xs();
    if Learning(xs, pax.base, pax.hole, pax.origin, pax.rcache, pax.trace) {
      OpenPlace(xs, pax.base, pax.hole, k);
      UpdateKeeps(xs, pax.base, pax.hole, pax.origin, pax.rcache, pax.trace, k, x);
    }
  }

  lemma SwapLinks<T>(s: seq<T>, k: nat, x: T)
    requires k < |s|
    ensures RemoveAt(InsertAt(s, k + 1, x), k) == s[k := x]
  {
  }

  lemma KeepsPlace<T>(s: seq<T>, k: nat, x: T)
    requires k < |s|
    ensures InsertAt(s, k + 1, x)[k] == s[k] && InsertAt(s, k + 1, x)[k + 1] == x
  {
  }

  lemma SwapVals<T>(links: seq<Link<T>>, k: nat, x: Link<T>)
    requires k < |links|
    ensures Vals(links[k := x]) == Vals(links)[k := x.elt]
  {
    hide Vals;
  }

  /** The vote replaces what the log holds at its number. */
  predicate Replaces(v: Instance, log: Log) {
    v.inum in log && !log[v.inum].committed && Below(log[v.inum].ballot, v.ballot)
  }

  /** The vote goes into the list, as a new instance or in place of another. */
  predicate Enters(v: Instance, log: Log) {
    v.inum !in log || Replaces(v, log)
  }

  /** `paxos_instance_unpack`, and the mark that is cleared after it: header and value are those of the vote, all else
      is zero, whatever the instance held before. */
  function Unpacked(v: Instance): Instance {
    v.(committed := false, cached := false, learned := false, votes := 0, rejects := 0)
  }

  /** What one vote v does to the list: the links now are those from before and it, except that a link whose
      instance v replaces is out and becomes the scratch. */
  ghost predicate Placed(was: seq<Link<Instance>>, now: seq<Link<Instance>>, swap: bool, it: Link<Instance>,
                         inst: Link?<Instance>) {
    && it in now && (inst != null ==> inst !in now)
    && (forall l {:trigger l in now} :: l in now ==> l in was || l == it)
    && (forall l {:trigger l in was} :: l in was ==> l in now || (swap && l == inst))
    && (swap ==> inst != null && inst in was)
  }

  lemma PlacedInsert(was: seq<Link<Instance>>, k: nat, it: Link<Instance>)
    requires k <= |was|
    ensures Placed(was, InsertAt(was, k, it), false, it, null)
    ensures InsertAt(was, k, it)[k] == it
  {
  }

  lemma PlacedSwap(was: seq<Link<Instance>>, k: nat, it: Link<Instance>)
    requires k < |was| && was[k] !in was[k := it]
    ensures Placed(was, was[k := it], true, it, was[k])
  {
    var now := was[k := it];
    assert now[k] == it;
    forall l | l in was ensures l in now || l == was[k] {
      var i :| 0 <= i < |was| && was[i] == l;
      assert i != k ==> now[i] == l;
    }
  }

  /** Find the place of the unpacked vote inst, from the iterator it0 on, and put it there if it belongs there. */
  method PlaceVote(pax: Session, it0: Link<Instance>, inst0: Link<Instance>, ghost trail: seq<Link<Instance>>,
                   ghost k: nat)
    returns (went: Went, it: Link<Instance>, inst: Link?<Instance>, ghost j: nat)
    requires pax.Listed()
    requires Leads(pax.ilist.links, it0, trail, k) || Leaves(pax.ilist.links, it0, trail, inst0.elt.inum)
    requires inst0 !in pax.ilist.links && !inst0.elt.committed && !inst0.elt.cached && !inst0.elt.learned
    requires inst0.elt.votes == 0
    modifies pax`istart, pax.ilist, pax.ilist.links`next, pax.ilist.links`prev, inst0`next, inst0`prev
    ensures went == Beyond <==> it0.elt.inum > inst0.elt.inum
    ensures went == Stray <==> it0.elt.inum <= inst0.elt.inum && !old(Leads(pax.ilist.links, it0, trail, k))
    ensures pax.Listed() && (old(pax.Learns()) ==> pax.Learns())
    ensures went != Through ==> pax.ilist.links == old(pax.ilist.links)
    ensures went == Through ==> j < |pax.ilist.links| && pax.ilist.links[j] == it && it.elt.inum == inst0.elt.inum
    ensures went == Through ==> var v, log := inst0.elt, old(pax.Log());
      && pax.Log() == log[v.inum := MergedSlot(log, v)]
      && pax.istart == (if v.inum == pax.hole && v.inum !in log then it else old(pax.istart))
      && Placed(old(pax.ilist.links), pax.ilist.links, Replaces(v, log), it, inst)
      && it == (if v.inum !in log || Replaces(v, log) then inst0 else it)
      && (v.inum in log && !Replaces(v, log) ==> inst == inst0 && it in old(pax.ilist.links))
      && (v.inum !in log ==> inst == null)
      && (inst == null || inst == inst0 || inst in old(pax.ilist.links))
      && (Replaces(v, log) ==> inst != null && inst.elt.inum == v.inum && inst.next == it)
      && (if Enters(v, log) then inst0 in pax.ilist.links else inst == inst0 && inst0.next == old(inst0.next))
  {
    hide LogOf, Vals, List.Valid, Sorted, InsertAt, RemoveAt, MergedSlot, LastUpTo, Learning, Placed, Leads, Leaves;
    inst := inst0;
    went, it, j := Closest(pax, it0, inst.elt.inum, trail, k);
    if went != Through {
      return;
    }
    GlbFinds(pax.Xs(), j, inst.elt.inum);
    MergeMeans(pax.Log(), inst.elt);
    if it.elt.inum < inst.elt.inum {
      PlacedInsert(pax.ilist.links, j + 1, inst);
      InsertVote(pax, it, inst, j);
      it, j := inst, j + 1;
      inst := null;
    } else {
      CompareMeaning(inst.elt.ballot, it.elt.ballot);
      if !it.elt.committed && PairCompare(inst.elt.ballot, it.elt.ballot) > 0 {
        ghost var was := pax.ilist.links;
        SwapVote(pax, it, inst, j);
        PlacedSwap(was, j, inst);
        inst, it := it, inst;
      } else {
        PlacedNot(pax.ilist.links, j, inst);
      }
    }
  }

  lemma PlacedNot(was: seq<Link<Instance>>, j: nat, inst: Link<Instance>)
    requires j < |was| && inst !in was
    ensures Placed(was, was, false, was[j], inst)
  {
  }

  /** One pass of the loop: it0 is the iterator, scratch the instance left over from the pass before, if any. */
  method MergeVote(pax: Session, it0: Link<Instance>, scratch: Link?<Instance>, v: Instance,
                   ghost trail: seq<Link<Instance>>, ghost k: nat)
    returns (went: Went, it: Link<Instance>, inst: Link?<Instance>, ghost j: nat)
    requires pax.Listed()
    requires Leads(pax.ilist.links, it0, trail, k) || Leaves(pax.ilist.links, it0, trail, v.inum)
    requires scratch != null ==> scratch !in pax.ilist.links && scratch !in trail
    modifies pax`istart, pax.ilist, pax.ilist.links`next, pax.ilist.links`prev, if scratch == null then {} else {scratch}
    ensures went == Beyond <==> old(it0.elt.inum) > v.inum
    ensures went == Stray <==> old(it0.elt.inum) <= v.inum && !old(Leads(pax.ilist.links, it0, trail, k))
    ensures pax.Listed() && (old(pax.Learns()) ==> pax.Learns())
    ensures went != Through ==> pax.ilist.links == old(pax.ilist.links)
    ensures went == Through ==> j < |pax.ilist.links| && pax.ilist.links[j] == it && it.elt.inum == v.inum
    ensures went == Through ==> var log := old(pax.Log());
      && pax.Log() == log[v.inum := MergedSlot(log, v)]
      && pax.istart == (if v.inum == pax.hole && v.inum !in log then it else old(pax.istart))
      && Placed(old(pax.ilist.links), pax.ilist.links, Replaces(v, log), it, inst)
      && (it in old(pax.ilist.links) || it == scratch || fresh(it))
      && (Replaces(v, log) ==>
            it !in old(pax.ilist.links) && inst != null && inst.elt.inum == v.inum && inst.next == it)
    ensures went == Through ==> inst == null || inst == scratch || fresh(inst) || inst in old(pax.ilist.links)
    ensures scratch != null ==> scratch.elt.inum == v.inum && !scratch.elt.committed
    ensures went == Through && scratch != null ==>
              if Enters(v, old(pax.Log())) then scratch in pax.ilist.links
              else inst == scratch && scratch.next == old(scratch.next)
  {
    hide LogOf, Vals, List.Valid, Sorted, MergedSlot, Learning, Placed, Merge, Leads, Leaves;
    InTrail(pax.ilist.links, it0, trail, k, v.inum);
    inst := scratch;
    if inst == null {
      inst := new Link(Fresh0());
    }
    inst.elt := Unpacked(v);
    MergeSame(pax.Log(), v, inst.elt);
    assert Leads(pax.ilist.links, it0, trail, k) == old(Leads(pax.ilist.links, it0, trail, k));
    went, it, inst, j := PlaceVote(pax, it0, inst, trail, k);
  }

  lemma InTrail(links: seq<Link<Instance>>, it: Link<Instance>, trail: seq<Link<Instance>>, k: nat, n: nat)
    requires Leads(links, it, trail, k) || Leaves(links, it, trail, n)
    ensures it in trail
  {
  }

  lemma MergeSame(log: Log, v: Instance, x: Instance)
    requires x.inum == v.inum && x.ballot == v.ballot && x.value == v.value
    ensures MergedSlot(log, x) == MergedSlot(log, v) && Replaces(x, log) == Replaces(v, log)
    ensures Enters(x, log) == Enters(v, log)
  {
  }

  /** A zeroed allocation. */
  function Fresh0(): Instance {
    Instance(0, Pair(0, 0), Value(Null, Pair(0, 0), 0), false, false, false, 0, 0)
  }

  lemma GlbFinds(xs: seq<Instance>, j: nat, n: nat)
    requires Sorted(xs) && LastUpTo(xs, j, n)
    ensures n in LogOf(xs) <==> xs[j].inum == n
    ensures xs[j].inum == n ==> LogOf(xs)[n] == SlotOf(xs[j])
    ensures xs[j].inum <= n
  {
    hide LogOf;
    LogAt(xs, j, n);
    LogAt(xs, j + 1, n);
  }

  lemma MergeMeans(log: Log, v: Instance)
    requires !v.committed && v.votes == 0
    ensures v.inum !in log || Replaces(v, log) ==> MergedSlot(log, v) == SlotOf(v)
    ensures v.inum in log && !Replaces(v, log) ==> log == log[v.inum := MergedSlot(log, v)]
  {
  }

  // ---------------------------------------------------------------- all votes

  /** Some vote replaces an instance that was x when the merge began. */
  predicate Swapped(x: Instance, votes: seq<Instance>) {
    !x.committed && exists i :: 0 <= i < |votes| && votes[i].inum == x.inum && Below(x.ballot, votes[i].ballot)
  }

  lemma SwappedOneMore(x: Instance, votes: seq<Instance>, p: nat)
    requires Sorted(votes) && p < |votes|
    ensures Swapped(x, votes[..p + 1]) <==>
              Swapped(x, votes[..p]) || (!x.committed && votes[p].inum == x.inum && Below(x.ballot, votes[p].ballot))
    ensures Swapped(x, votes[..p]) ==> x.inum < votes[p].inum && p > 0
  {
  }

  ghost predicate SameAt(log: Log, other: Log, n: nat) {
    if n in log then n in other && other[n] == log[n] else n !in other
  }

  /** The merge on values moves on by one vote. */
  lemma MergeAdvances(log0: Log, log: Log, votes: seq<Instance>, p: nat)
    requires Sorted(votes) && p < |votes| && Sorted(votes[..p]) && log == Merge(log0, VotesOf(votes[..p]))
    ensures Sorted(votes[..p + 1])
    ensures var v := votes[p];
      && Merge(log0, VotesOf(votes[..p + 1])) == log[v.inum := MergedSlot(log, v)] && SameAt(log, log0, v.inum)
  {
    hide VotesOf, Sorted, Merge;
    MergeOneMore(log0, votes, p);
  }

  /** Some vote beyond number n enters the list; so the scratch instance left over from number n is in the list again. */
  predicate Used(n: nat, votes: seq<Instance>, log: Log) {
    exists i :: 0 <= i < |votes| && votes[i].inum > n && Enters(votes[i], log)
  }

  lemma UsedOneMore(n: nat, votes: seq<Instance>, p: nat, log: Log)
    requires Sorted(votes) && p < |votes|
    ensures Used(n, votes[..p + 1], log) <==>
              Used(n, votes[..p], log) || (votes[p].inum > n && Enters(votes[p], log))
    ensures votes[p].inum <= n ==> !Used(n, votes[..p], log)
  {
    hide Enters;
  }

  /** What became of t, which was x in the list when the merge began.  If no vote so far has replaced it, it is still
      there.  If the last one has, it is the scratch instance, which points to what replaced it.  If an earlier one
      has, it was used again for a vote of a higher number, and is in the list or still the scratch instance. */
  ghost predicate Tracked(pax: Session, t: Link<Instance>, x: Instance, votes: seq<Instance>, log0: Log,
                          scratch: Link?<Instance>)
    reads pax.ilist`links, pax.ilist.links, t
  {
    if !Swapped(x, votes) then t in pax.ilist.links && t.elt == x
    else
      && (if votes[|votes| - 1].inum == x.inum then t !in pax.ilist.links && t.elt == x
          else x.inum < t.elt.inum <= votes[|votes| - 1].inum)
      && (t in pax.ilist.links <==> Used(x.inum, votes, log0))
      && (t in pax.ilist.links || Left(pax, t, x.inum, scratch))
  }

  /** t was replaced, and is the scratch instance now; it points to the instance that replaced it as number n. */
  ghost predicate Left(pax: Session, t: Link<Instance>, n: nat, scratch: Link?<Instance>)
    reads pax.ilist`links, pax.ilist.links, t
  {
    t == scratch && !t.elt.committed && t.next != null && t.next in pax.ilist.links && t.next.elt.inum == n
  }

  /** istart is the new instance at the hole if the votes so far have filled the hole, and else what it was. */
  ghost predicate StartFollows(pax: Session, was: Link<Instance>, log0: Log, votes: seq<Instance>)
    requires Sorted(votes)
    reads pax`hole, pax`istart, pax.ilist`links, pax.istart`elt
  {
    if pax.hole !in log0 && pax.hole in VotesOf(votes)
    then pax.istart in pax.ilist.links && pax.istart.elt.inum == pax.hole
    else pax.istart == was
  }

  lemma ReplacesMeans(v: Instance, log: Log, x: Instance)
    ensures v.inum in log && log[v.inum] == SlotOf(x) ==>
              (Replaces(v, log) <==> !x.committed && Below(x.ballot, v.ballot))
    ensures Replaces(v, log) ==> v.inum in log
  {
  }

  /** A number is in one link only, and the log shows that link. */
  lemma LinkPlace(pax: Session, t: Link<Instance>, n: nat)
    requires pax.Listed() && t in pax.ilist.links
    ensures t.elt.inum == n ==> n in pax.Log() && pax.Log()[n] == SlotOf(t.elt)
    ensures t.elt.inum == n ==>
              forall l {:trigger l in pax.ilist.links} :: l in pax.ilist.links && l.elt.inum == n ==> l == t
  {
    hide LogOf, List.Valid, Vals;
    var links := pax.ilist.links;
    var i :| 0 <= i < |links| && links[i] == t;
    LogAt(pax.Xs(), i, n);
    if t.elt.inum == n {
      forall l | l in links && l.elt.inum == n ensures l == t {
        var j :| 0 <= j < |links| && links[j] == l;
        assert pax.Xs()[j].inum == n && pax.Xs()[i].inum == n;
      }
    }
  }

  /** Every link that was in the list when the merge began. */
  ghost predicate AllTracked(pax: Session, ts: seq<Link<Instance>>, xs: seq<Instance>, votes: seq<Instance>, log0: Log,
                             scratch: Link?<Instance>)
    requires |ts| == |xs|
    reads pax.ilist`links, pax.ilist.links, ts
  {
    forall i {:trigger ts[i]} :: 0 <= i < |ts| ==> Tracked(pax, ts[i], xs[i], votes, log0, scratch)
  }

  /** What is known of t before a vote, when it holds y. */
  ghost predicate TrackedBefore(was: seq<Link<Instance>>, t: Link<Instance>, y: Instance, x: Instance,
                                votes: seq<Instance>, log0: Log, scratch: Link?<Instance>)
  {
    if Swapped(x, votes) then
      && (t == scratch || (t in was && x.inum < y.inum <= votes[|votes| - 1].inum))
      && (t in was <==> Used(x.inum, votes, log0))
    else t in was && y == x
  }

  /** One vote more, for one link t that was x when the merge began.  was and xs are the list before this vote, y is
      what t held then. */
  lemma TrackOne(pax: Session, t: Link<Instance>, x: Instance, votes: seq<Instance>, p: nat, log0: Log,
                 was: seq<Link<Instance>>, xs: seq<Instance>, y: Instance, scratch: Link?<Instance>,
                 r: Link?<Instance>, it: Link<Instance>, inst: Link?<Instance>)
    requires Sorted(votes) && p < |votes| && pax.Listed() && Sorted(xs) && |was| == |xs|
    requires TrackedBefore(was, t, y, x, votes[..p], log0, scratch) && SameAt(LogOf(xs), log0, votes[p].inum)
    requires forall i :: 0 <= i < |was| && was[i] == t ==> xs[i] == y
    requires Placed(was, pax.ilist.links, Replaces(votes[p], LogOf(xs)), it, inst) && it.elt.inum == votes[p].inum
    requires Replaces(votes[p], LogOf(xs)) ==>
               it !in was && inst != null && inst.elt.inum == votes[p].inum && inst.next == it
    requires if t == scratch then t.elt.inum == votes[p].inum && !t.elt.committed else t.elt == y
    requires scratch != null ==> scratch !in was
    requires scratch != null ==> if Enters(votes[p], LogOf(xs)) then scratch in pax.ilist.links
                                 else inst == scratch && scratch.next == r
    requires t == scratch && Swapped(x, votes[..p]) ==> r != null && r in was && r.elt.inum == x.inum
    ensures Tracked(pax, t, x, votes[..p + 1], log0, inst)
  {
    hide LogOf, Sorted, Swapped, Replaces, Session.Log, Session.Xs, Session.Listed, Used, Enters;
    SwappedOneMore(x, votes, p);
    UsedOneMore(x.inum, votes, p, log0);
    EntersSame(votes[p], LogOf(xs), log0);
    Uncommitted(x, votes[..p + 1]);
    Ascends(votes, p);
    ReplacesMeans(votes[p], LogOf(xs), x);
    if t in was {
      var i :| 0 <= i < |was| && was[i] == t;
      LogAt(xs, i, votes[p].inum);
    }
    if t in pax.ilist.links {
      LinkPlace(pax, t, votes[p].inum);
    }
  }

  lemma EntersSame(v: Instance, log: Log, other: Log)
    requires SameAt(log, other, v.inum)
    ensures Enters(v, log) <==> Enters(v, other)
  {
  }

  /** One pass, with an eye on the links ts that were in the list when the merge began, and on istart. */
  method MergeTracked(pax: Session, it0: Link<Instance>, scratch: Link?<Instance>, votes: seq<Instance>, p: nat,
                      ghost trail: seq<Link<Instance>>, ghost k: nat, ghost ts: seq<Link<Instance>>,
                      ghost xs0: seq<Instance>, ghost was: Link<Instance>, ghost log0: Log)
    returns (went: Went, it: Link<Instance>, inst: Link?<Instance>, ghost j: nat)
    requires pax.Listed() && Sorted(votes) && p < |votes| && |ts| == |xs0|
    requires Leads(pax.ilist.links, it0, trail, k) || Leaves(pax.ilist.links, it0, trail, votes[p].inum)
    requires scratch != null ==> scratch !in pax.ilist.links && scratch !in trail
    requires AllTracked(pax, ts, xs0, votes[..p], log0, scratch)
    requires Sorted(votes[..p]) && Sorted(votes[..p + 1]) && StartFollows(pax, was, log0, votes[..p])
    requires SameAt(pax.Log(), log0, votes[p].inum)
    modifies pax`istart, pax.ilist, pax.ilist.links`next, pax.ilist.links`prev, if scratch == null then {} else {scratch}
    ensures went == Beyond <==> old(it0.elt.inum) > votes[p].inum
    ensures went == Stray <==> old(it0.elt.inum) <= votes[p].inum && !old(Leads(pax.ilist.links, it0, trail, k))
    ensures pax.Listed() && (old(pax.Learns()) ==> pax.Learns())
    ensures went == Through ==> j < |pax.ilist.links| && pax.ilist.links[j] == it && it.elt.inum == votes[p].inum
    ensures went == Through ==> inst != null ==>
              inst !in pax.ilist.links && (inst == scratch || inst in old(pax.ilist.links) || fresh(inst))
    ensures forall i :: 0 <= i < |pax.ilist.links| ==>
              pax.ilist.links[i] in old(pax.ilist.links) || fresh(pax.ilist.links[i]) || pax.ilist.links[i] == scratch
    ensures went == Through ==> var slot := MergedSlot(old(pax.Log()), votes[p]);
      pax.Log() == old(pax.Log())[votes[p].inum := slot]
    ensures went == Through ==> AllTracked(pax, ts, xs0, votes[..p + 1], log0, inst)
    ensures went == Through ==> StartFollows(pax, was, log0, votes[..p + 1])
  {
    hide LogOf, Vals, List.Valid, Sorted, MergedSlot, Swapped, Learning, VotesOf, Replaces, Enters, Tracked,
      Session.Learns, Session.Xs, Leads, Leaves, TrackedBefore;
    ghost var links, xs := pax.ilist.links, pax.Xs();
    ghost var ys := Elements(ts);
    ghost var r: Link?<Instance> := if scratch == null then null else scratch.next;
    TrackedNow(pax, ts, xs0, ys, votes[..p], log0, scratch);
    ElementsAt(pax, ts, ys);
    VotesPrefix(votes, p);
    went, it, inst, j := MergeVote(pax, it0, scratch, votes[p], trail, k);
    if went == Through {
      forall i {:trigger ts[i]} | 0 <= i < |ts| ensures Tracked(pax, ts[i], xs0[i], votes[..p + 1], log0, inst) {
        TrackOne(pax, ts[i], xs0[i], votes, p, log0, links, xs, ys[i], scratch, r, it, inst);
      }
      assert forall i :: 0 <= i < |pax.ilist.links| ==> pax.ilist.links[i] in pax.ilist.links;
    }
  }

  /** What the links hold now. */
  ghost function Elements(ts: seq<Link<Instance>>): (ys: seq<Instance>)
    reads ts`elt
    ensures |ys| == |ts| && forall i {:trigger ys[i]} :: 0 <= i < |ys| ==> ys[i] == ts[i].elt
  {
    Vals(ts)
  }

  lemma TrackedNow(pax: Session, ts: seq<Link<Instance>>, xs: seq<Instance>, ys: seq<Instance>, votes: seq<Instance>,
                   log0: Log, scratch: Link?<Instance>)
    requires |ts| == |xs| && AllTracked(pax, ts, xs, votes, log0, scratch) && ys == Elements(ts)
    ensures forall i {:trigger ts[i]} :: 0 <= i < |ts| ==>
              && TrackedBefore(pax.ilist.links, ts[i], ys[i], xs[i], votes, log0, scratch)
              && (ts[i] == scratch && Swapped(xs[i], votes) && scratch !in pax.ilist.links ==>
                    Left(pax, scratch, xs[i].inum, scratch))
  {
    hide Swapped, Used;
  }

  lemma ElementsAt(pax: Session, ts: seq<Link<Instance>>, ys: seq<Instance>)
    requires ys == Elements(ts)
    ensures |pax.Xs()| == |pax.ilist.links|
    ensures forall i, j {:trigger ts[i], pax.ilist.links[j]} ::
      0 <= i < |ts| && 0 <= j < |pax.ilist.links| && pax.ilist.links[j] == ts[i] ==> pax.Xs()[j] == ys[i]
  {
    hide Vals;
  }

  /** The vote loop of `proposer_ack_promise`, from the iterator start on. */
  method MergeVotes(pax: Session, start: Link<Instance>, votes: seq<Instance>, ghost trail0: seq<Link<Instance>>,
                    ghost k0: nat)
    returns (went: Went, ghost scratch: Link?<Instance>)
    requires pax.Listed() && Sorted(votes)
    requires votes != [] ==>
               Leads(pax.ilist.links, start, trail0, k0) || Leaves(pax.ilist.links, start, trail0, votes[0].inum)
    modifies pax`istart, pax.ilist, pax.ilist.links
    ensures went == Beyond <==> votes != [] && old(start.elt.inum) > votes[0].inum
    ensures went == Stray <==> votes != [] && old(start.elt.inum) <= votes[0].inum
                               && !old(Leads(pax.ilist.links, start, trail0, k0))
    ensures pax.Listed() && (old(pax.Learns()) ==> pax.Learns())
    ensures went == Through ==> pax.Log() == Merge(old(pax.Log()), VotesOf(votes))
    ensures votes == [] ==> unchanged(pax`istart, pax.ilist) && unchanged(old(pax.ilist.links))
    ensures |old(pax.ilist.links)| == |old(pax.Xs())|
    ensures went == Through ==> AllTracked(pax, old(pax.ilist.links), old(pax.Xs()), votes, old(pax.Log()), scratch)
    ensures went == Through ==> StartFollows(pax, old(pax.istart), old(pax.Log()), votes)
    ensures forall i :: 0 <= i < |pax.ilist.links| ==>
              pax.ilist.links[i] in old(pax.ilist.links) || fresh(pax.ilist.links[i])
  {
    hide LogOf, Vals, List.Valid, Sorted, InsertAt, MergedSlot, Merge, VotesOf, AllTracked, Learning, StartFollows,
      Session.Listed, Session.Learns, Session.Log, Session.Xs;
    var it, inst: Link?<Instance> := start, null;
    ghost var links0, xs0, log0 := pax.ilist.links, pax.Xs(), pax.Log();
    ghost var trail, k: nat := trail0, k0;
    went := Through;
    NotYet(pax, log0);
    for p := 0 to |votes|
      invariant went == Through && pax.Listed()
      invariant p == 0 ==> it == start && trail == trail0 && k == k0 && inst == null
                           && unchanged(pax`istart, pax.ilist) && unchanged(links0)
                           && start.elt == old(start.elt)
                           && Leads(pax.ilist.links, start, trail0, k0) == old(Leads(pax.ilist.links, start, trail0, k0))
      invariant p > 0 ==> k < |pax.ilist.links| && pax.ilist.links[k] == it && it.elt.inum == votes[p - 1].inum
                          && trail == [it]
      invariant p > 0 ==> old(start.elt.inum) <= votes[0].inum && old(Leads(pax.ilist.links, start, trail0, k0))
      invariant inst != null ==> inst !in pax.ilist.links && (inst in links0 || fresh(inst))
      invariant forall i :: 0 <= i < |pax.ilist.links| ==> pax.ilist.links[i] in links0 || fresh(pax.ilist.links[i])
      invariant Sorted(votes[..p]) && pax.Log() == Merge(log0, VotesOf(votes[..p]))
      invariant AllTracked(pax, links0, xs0, votes[..p], log0, inst)
      invariant old(pax.Learns()) ==> pax.Learns()
      invariant StartFollows(pax, old(pax.istart), log0, votes[..p])
    {
      MergeAdvances(log0, pax.Log(), votes, p);
      Ascends(votes, p);
      assert p > 0 ==> Leads(pax.ilist.links, it, trail, k);
      went, it, inst, k := MergeTracked(pax, it, inst, votes, p, trail, k, links0, xs0, old(pax.istart), log0);
      if went != Through {
        scratch := inst;
        return;
      }
      trail := [it];
    }
    assert votes[..|votes|] == votes;
    scratch := inst;
  }

  lemma Ascends(votes: seq<Instance>, p: nat)
    requires Sorted(votes) && p < |votes|
    ensures p > 0 ==> votes[p - 1].inum < votes[p].inum
  {
  }

  lemma NotYet(pax: Session, log0: Log)
    ensures |pax.ilist.links| == |pax.Xs()| && AllTracked(pax, pax.ilist.links, pax.Xs(), [], log0, null)
    ensures StartFollows(pax, pax.istart, log0, [])
    ensures Sorted([]) && Merge(log0, VotesOf([])) == log0
  {
    hide Vals;
    NoVotes(log0, Fresh0());
  }

  lemma NoVotes(log: Log, x: Instance)
    ensures Sorted([]) && VotesOf([]) == map[] && Merge(log, VotesOf([])) == log && !Swapped(x, [])
  {
  }

  // ---------------------------------------------------------------- istart after the merge

  lemma PointsRight(pax: Session)
    requires pax.Learns() && pax.istart in pax.ilist.links
    requires var x := pax.istart.elt;
      if x.inum == pax.hole then !(x.committed && x.cached)
      else x.inum == pax.hole - 1 && pax.hole !in pax.Log()
    ensures pax.Valid()
  {
    hide LogOf, List.Valid, Vals;
    var links, xs, j := pax.ilist.links, pax.Xs(), pax.hole - pax.base;
    var i :| 0 <= i < |links| && links[i] == pax.istart;
    assert xs[i].inum == pax.istart.elt.inum;
    LogAt(xs, j, pax.hole);
    if xs[i].inum == pax.hole {
      assert i >= j;
    } else {
      assert i < j;
      assert xs[i].inum == pax.base + i;
    }
  }

  /** Where istart points while all is well. */
  lemma PointsNow(pax: Session)
    requires pax.Valid()
    ensures pax.istart in pax.ilist.links
    ensures var x := pax.istart.elt;
      if x.inum == pax.hole then pax.hole in pax.Log() && !(x.committed && x.cached)
      else x.inum == pax.hole - 1 && pax.hole !in pax.Log() && x.committed
  {
    hide LogOf, List.Valid, Vals;
    var j := pax.hole - pax.base;
    LogAt(pax.Xs(), j, pax.hole);
  }

  ghost function PlaceIn<T>(s: seq<T>, x: T): (i: nat)
    requires x in s
    ensures i < |s| && s[i] == x
  {
    var i: nat :| i < |s| && s[i] == x;
    i
  }

  lemma XsAt(pax: Session, i: nat)
    requires i < |pax.ilist.links|
    ensures |pax.Xs()| == |pax.ilist.links| && pax.Xs()[i] == pax.ilist.links[i].elt
  {
    hide Vals;
  }

  lemma HoleSlot(log: Log, log0: Log, votes: map<nat, Vote>, n: nat)
    requires log == Merge(log0, votes)
    ensures n in log <==> n in log0 || n in votes
    ensures n !in log0 && n in votes ==> !log[n].committed
  {
  }

  // ---------------------------------------------------------------- the cached iterator after the merge

  /** The cached iterator leads to an instance of the list at or before the hole. */
  ghost predicate Ready(pax: Session, start: Link<Instance>, trail: seq<Link<Instance>>)
    reads pax`hole, pax.ilist`links, start, trail
  {
    trail != [] && var t := trail[|trail| - 1]; t in pax.ilist.links && t.elt.inum == start.elt.inum <= pax.hole
  }

  /** Either it is ready, or the last link it leads to was used again for an instance beyond the hole. */
  ghost predicate Cursor(pax: Session, start: Link<Instance>, trail: seq<Link<Instance>>)
    reads pax`hole, pax.ilist`links, start, trail
  {
    && Chain(pax.ilist.links, start, trail)
    && (Ready(pax, start, trail) || trail[|trail| - 1].elt.inum > pax.hole)
  }

  /** If a vote replaces instance x, it is the last one, and so the scratch instance is not used again. */
  predicate SwappedLast(x: Instance, votes: seq<Instance>) {
    Swapped(x, votes) ==> votes[|votes| - 1].inum == x.inum
  }

  /** Where the cached iterator leads after the votes. */
  lemma CursorAfter(pax: Session, start: Link<Instance>, x: Instance, votes: seq<Instance>, scratch: Link?<Instance>,
                    trail: seq<Link<Instance>>, log0: Log) returns (after: seq<Link<Instance>>)
    requires Chain(pax.ilist.links, start, trail)
    requires var t := trail[|trail| - 1];
      Tracked(pax, t, x, votes, log0, scratch) && (|trail| > 1 ==> start.elt.inum == x.inum)
    requires x.inum <= pax.hole && (Swapped(x, votes) ==> x.inum == pax.hole)
    ensures Cursor(pax, start, after) && (Ready(pax, start, after) <==> SwappedLast(x, votes))
    ensures if Ready(pax, start, after) then start.elt.inum == x.inum else after == trail
  {
    hide Swapped, Used;
    var t := trail[|trail| - 1];
    after := trail;
    if Swapped(x, votes) && SwappedLast(x, votes) {
      after := trail + [t.next];
    }
  }

  /** Where istart points after the votes, if x was the instance it pointed to or, before the hole, its next one. */
  ghost function AfterVotes(place: Place, x: Instance, votes: seq<Instance>, log: Log): Place {
    if !Swapped(x, votes) then place
    else match place
      case Right => if SwappedLast(x, votes) then Outside else if Used(x.inum, votes, log) then Doomed else NextRight
      case NextRight => if SwappedLast(x, votes) then NextOutside else Doomed
      case _ => place
  }

  /** istart was right, and s, which was y. */
  lemma StartAfter(pax: Session, s: Link<Instance>, y: Instance, log0: Log, votes: seq<Instance>,
                   scratch: Link?<Instance>)
    requires pax.Learns() && Sorted(votes) && pax.Log() == Merge(log0, VotesOf(votes))
    requires Tracked(pax, s, y, votes, log0, scratch) && StartFollows(pax, s, log0, votes)
    requires if y.inum == pax.hole then pax.hole in log0 && !(y.committed && y.cached)
             else y.inum == pax.hole - 1 && pax.hole !in log0 && y.committed
    ensures PlaceOfStart(pax) == AfterVotes(Right, y, votes, log0)
  {
    hide LogOf, Vals, List.Valid, Sorted, Merge, VotesOf, Learning, Session.Xs, Swapped, PlaceOfStart, Used;
    HoleSlot(pax.Log(), log0, VotesOf(votes), pax.hole);
    Uncommitted(y, votes);
    if !Swapped(y, votes) {
      if pax.istart in pax.ilist.links && pax.istart.elt.inum == pax.hole {
        LinkPlace(pax, pax.istart, pax.hole);
      }
      PointsRight(pax);
    }
    PlaceIs(pax, AfterVotes(Right, y, votes, log0));
  }

  /** istart was off the right place, and s, which was y; r, which was z, was its next link if it had one.  Both were
      tracked if they were in the list. */
  lemma OffAfter(pax: Session, s: Link<Instance>, log0: Log, votes: seq<Instance>, scratch: Link?<Instance>,
                 place: Place, wasIn: bool, y: Instance, r: Link<Instance>, nextIn: bool, z: Instance)
    requires pax.Learns() && Sorted(votes) && pax.Log() == Merge(log0, VotesOf(votes)) && pax.hole in log0
    requires StartFollows(pax, s, log0, votes)
    requires if wasIn then Tracked(pax, s, y, votes, log0, scratch) else s.elt == y && s !in pax.ilist.links
    requires if nextIn then Tracked(pax, r, z, votes, log0, scratch) else r.elt == z && r !in pax.ilist.links
    requires !wasIn && s.next != null ==> s.next == r
    requires match place
      case Outside => !wasIn && y.inum == pax.hole && !y.committed
      case Doomed => y.inum > pax.hole && (wasIn || s.next == null || z.inum > pax.hole)
      case NextRight => y.inum > pax.hole && !wasIn && s.next != null && z.inum == pax.hole && nextIn
      case NextOutside => y.inum > pax.hole && !wasIn && s.next != null && z.inum == pax.hole && !nextIn && !z.committed
      case _ => false
    ensures PlaceOfStart(pax) == if place == NextRight then AfterVotes(place, z, votes, log0) else place
  {
    hide LogOf, Vals, List.Valid, Sorted, Merge, VotesOf, Learning, Session.Xs, Swapped, PlaceOfStart, Used;
    HoleSlot(pax.Log(), log0, VotesOf(votes), pax.hole);
    PlaceIs(pax, if place == NextRight then AfterVotes(place, z, votes, log0) else place);
  }

  lemma Uncommitted(x: Instance, votes: seq<Instance>)
    ensures Swapped(x, votes) ==> !x.committed
  {
  }

  lemma TrackedAt(pax: Session, ts: seq<Link<Instance>>, xs: seq<Instance>, votes: seq<Instance>, log0: Log,
                  scratch: Link?<Instance>, i: nat)
    requires |ts| == |xs| && AllTracked(pax, ts, xs, votes, log0, scratch) && i < |ts|
    ensures Tracked(pax, ts[i], xs[i], votes, log0, scratch)
  {
  }

  /** An instance that can be replaced lies at the hole or beyond. */
  lemma OpenNumber(pax: Session, k: nat)
    requires pax.Learns() && k < |pax.ilist.links| && !pax.ilist.links[k].elt.committed
    ensures pax.ilist.links[k].elt.inum >= pax.hole
  {
    hide LogOf, List.Valid, Vals, Sorted, Learning;
    OpenInstance(pax, k);
  }

  lemma CursorLeads(pax: Session, start: Link<Instance>, trail: seq<Link<Instance>>, k: nat)
    requires Cursor(pax, start, trail)
    requires Ready(pax, start, trail) ==> k < |pax.ilist.links| && pax.ilist.links[k] == trail[|trail| - 1]
    ensures if Ready(pax, start, trail) then Leads(pax.ilist.links, start, trail, k)
            else Leaves(pax.ilist.links, start, trail, pax.hole)
    ensures Ready(pax, start, trail) ==> start.elt.inum <= pax.hole
    ensures Leads(pax.ilist.links, start, trail, k) ==> Ready(pax, start, trail) || start.elt.inum > pax.hole
  {
  }

  lemma LeavesEarlier(links: seq<Link<Instance>>, it: Link<Instance>, trail: seq<Link<Instance>>, n: nat, m: nat)
    requires Leaves(links, it, trail, n) && m <= n
    ensures Leaves(links, it, trail, m)
  {
  }

  /** The vote loop and istart: the learner goes on undisturbed exactly if no vote replaced the instance istart points
      to. */
  method MergeLearning(pax: Session, start: Link<Instance>, votes: seq<Instance>, ghost trail: seq<Link<Instance>>,
                       ghost k: nat)
    returns (went: Went, ghost scratch: Link?<Instance>)
    requires pax.Learns() && Sorted(votes)
    requires votes != [] ==>
               Leads(pax.ilist.links, start, trail, k) || Leaves(pax.ilist.links, start, trail, votes[0].inum)
    modifies pax`istart, pax.ilist, pax.ilist.links
    ensures went == Beyond <==> votes != [] && old(start.elt.inum) > votes[0].inum
    ensures went == Stray <==> votes != [] && old(start.elt.inum) <= votes[0].inum
                               && !old(Leads(pax.ilist.links, start, trail, k))
    ensures pax.Learns() && |old(pax.ilist.links)| == |old(pax.Xs())|
    ensures votes == [] ==> unchanged(pax`istart, pax.ilist) && unchanged(old(pax.ilist.links))
    ensures went == Through ==> pax.Log() == Merge(old(pax.Log()), VotesOf(votes))
    ensures went == Through ==> AllTracked(pax, old(pax.ilist.links), old(pax.Xs()), votes, old(pax.Log()), scratch)
    ensures went == Through && old(PlaceOfStart(pax)) != Wrong ==>
              PlaceOfStart(pax) == AfterVotes(old(PlaceOfStart(pax)), old(AtOrNext(pax)), votes, old(pax.Log()))
    ensures forall i :: 0 <= i < |pax.ilist.links| ==>
              pax.ilist.links[i] in old(pax.ilist.links) || fresh(pax.ilist.links[i])
  {
    hide LogOf, Vals, List.Valid, Sorted, Merge, VotesOf, Learning, Session.Pointed, Blocked, Session.Xs, Swapped,
      Tracked, AllTracked, Leads, Leaves, Session.Log, PlaceOfStart, AfterVotes;
    ghost var log0, links0, xs0, place := pax.Log(), pax.ilist.links, pax.Xs(), PlaceOfStart(pax);
    ghost var s, y, i, wasIn := pax.istart, pax.istart.elt, IndexIn(links0, pax.istart), pax.istart in links0;
    ghost var r: Link<Instance> := if s.next == null then s else s.next;
    ghost var z, l, nextIn := r.elt, IndexIn(links0, r), r in links0;
    PlaceTells(pax);
    if place == Right {
      PointsNow(pax);
    } else if wasIn && s.next != null {
      NextBeyond(pax, s);
    }
    IndexHolds(pax, s);
    IndexHolds(pax, r);
    went, scratch := MergeVotes(pax, start, votes, trail, k);
    if went == Through && place != Wrong {
      if wasIn {
        TrackedAt(pax, links0, xs0, votes, log0, scratch, i);
      }
      if nextIn {
        TrackedAt(pax, links0, xs0, votes, log0, scratch, l);
      }
      hide AllTracked, IndexIn;
      StartPlaced(pax, s, log0, votes, scratch, place, wasIn, y, r, nextIn, z);
    }
  }

  /** Both cases at once. */
  lemma StartPlaced(pax: Session, s: Link<Instance>, log0: Log, votes: seq<Instance>, scratch: Link?<Instance>,
                    place: Place, wasIn: bool, y: Instance, r: Link<Instance>, nextIn: bool, z: Instance)
    requires pax.Learns() && Sorted(votes) && pax.Log() == Merge(log0, VotesOf(votes)) && place != Wrong
    requires StartFollows(pax, s, log0, votes)
    requires if wasIn then Tracked(pax, s, y, votes, log0, scratch) else s.elt == y && s !in pax.ilist.links
    requires if nextIn then Tracked(pax, r, z, votes, log0, scratch) else r.elt == z && r !in pax.ilist.links
    requires !wasIn && s.next != null ==> s.next == r
    requires place == Right ==> wasIn && if y.inum == pax.hole then pax.hole in log0 && !(y.committed && y.cached)
                                         else y.inum == pax.hole - 1 && pax.hole !in log0 && y.committed
    requires place != Right ==> pax.hole in log0
    requires place == Outside ==> !wasIn && y.inum == pax.hole && !y.committed
    requires place == Doomed ==> y.inum > pax.hole && (wasIn || s.next == null || z.inum > pax.hole)
    requires place == NextRight || place == NextOutside ==>
               y.inum > pax.hole && !wasIn && s.next != null && z.inum == pax.hole && nextIn == (place == NextRight)
    requires place == NextOutside ==> !z.committed
    ensures PlaceOfStart(pax) == AfterVotes(place, if place == NextRight then z else y, votes, log0)
  {
    hide LogOf, Vals, List.Valid, Sorted, Merge, VotesOf, Learning, Session.Pointed, Blocked, Session.Xs, Swapped,
      Tracked, Session.Log, PlaceOfStart, AfterVotes;
    if place == Right {
      StartAfter(pax, s, y, log0, votes, scratch);
    } else {
      OffAfter(pax, s, log0, votes, scratch, place, wasIn, y, r, nextIn, z);
      OnlyNear(place, y, votes, log0);
    }
  }

  lemma OnlyNear(place: Place, x: Instance, votes: seq<Instance>, log: Log)
    ensures place != Right && place != NextRight ==> AfterVotes(place, x, votes, log) == place
  {
  }

  /** The instance istart points to or, where the next link is at the hole, that one. */
  ghost function AtOrNext(pax: Session): Instance
    reads pax`base, pax`hole, pax`istart, pax`rcache, pax`trace, pax.ilist, pax.ilist.links,
          pax.istart, if pax.istart.next == null then {} else {pax.istart.next}
  {
    if PlaceOfStart(pax) == NextRight && pax.istart.next != null then pax.istart.next.elt else pax.istart.elt
  }

  /** The place of x in s, if it has one. */
  ghost function IndexIn<T>(s: seq<T>, x: T): (i: nat)
    ensures x in s ==> i < |s| && s[i] == x
  {
    if x in s then PlaceIn(s, x) else 0
  }

  lemma IndexHolds(pax: Session, l: Link<Instance>)
    ensures var i := IndexIn(pax.ilist.links, l);
      l in pax.ilist.links ==> i < |pax.ilist.links| == |pax.Xs()| && pax.Xs()[i] == l.elt
  {
    hide Vals;
  }

  /** The vote part of `proposer_ack_promise`, from a cached iterator that may have been replaced by an earlier promise.
      It goes through exactly if the iterator is ready and the first vote does not lie before it; then the log is the
      pointwise join with the votes, the iterator stays ready exactly if no vote comes after one that replaced its
      instance, and the learner goes on undisturbed exactly if no vote replaced the instance istart points to. */
  method MergeInto(pax: Session, start: Link<Instance>, votes: seq<Instance>, ghost trail: seq<Link<Instance>>)
    returns (went: Went, ghost after: seq<Link<Instance>>)
    requires pax.Learns() && Sorted(votes) && Cursor(pax, start, trail)
    requires votes != [] ==> votes[0].inum <= pax.hole
    modifies pax`istart, pax.ilist, pax.ilist.links
    ensures went == Beyond <==> votes != [] && old(start.elt.inum) > votes[0].inum
    ensures went == Stray <==> votes != [] && old(start.elt.inum) <= votes[0].inum && !old(Ready(pax, start, trail))
    ensures pax.Learns()
    ensures went == Through ==> pax.Log() == Merge(old(pax.Log()), VotesOf(votes))
    ensures went == Through && old(PlaceOfStart(pax)) != Wrong ==>
              PlaceOfStart(pax) == AfterVotes(old(PlaceOfStart(pax)), old(AtOrNext(pax)), votes, old(pax.Log()))
    ensures went == Through ==> Cursor(pax, start, after)
    ensures went == Through ==>
              (Ready(pax, start, after) <==>
               old(Ready(pax, start, trail)) && SwappedLast(old(trail[|trail| - 1].elt), votes))
    ensures went == Through ==>
              if Ready(pax, start, after) then start.elt.inum == old(start.elt.inum) else after == trail
    ensures forall i :: 0 <= i < |pax.ilist.links| ==>
              pax.ilist.links[i] in old(pax.ilist.links) || fresh(pax.ilist.links[i])
  {
    hide LogOf, Vals, List.Valid, Sorted, Merge, VotesOf, Learning, Session.Pointed, Blocked, Session.Xs, Swapped,
      Tracked, AllTracked, Leads, Leaves, Session.Log, SwappedLast, PlaceOfStart, AfterVotes;
    ghost var t := trail[|trail| - 1];
    ghost var x, links0, xs0, log0 := t.elt, pax.ilist.links, pax.Xs(), pax.Log();
    ghost var ready, k: nat := Ready(pax, start, trail), 0;
    if ready {
      k := PlaceIn(links0, t);
      XsAt(pax, k);
      if !x.committed {
        OpenNumber(pax, k);
      }
      Uncommitted(x, votes);
    }
    CursorLeads(pax, start, trail, k);
    if !ready && votes != [] {
      LeavesEarlier(links0, start, trail, pax.hole, votes[0].inum);
    }
    ghost var scratch;
    went, scratch := MergeLearning(pax, start, votes, trail, k);
    after := trail;
    if went == Through && ready {
      TrackedAt(pax, links0, xs0, votes, log0, scratch, k);
      after := CursorAfter(pax, start, x, votes, scratch, trail, log0);
    }
  }
}
