/** Committing and learning. */
module Learner {
  import opened Primitives
  import opened DecreeLog
  import opened IntrusiveList
  import opened Instances
  import opened Session

  // ---------------------------------------------------------------- on values

  /** Learning the instance at the hole moves the hole past it. */
  lemma LearnStep(xs: seq<Instance>, base: nat, hole: nat, origin: nat, cache: set<ReqId>, trace: seq<Value>)
    requires Learning(xs, base, hole, origin, cache, trace) && base < hole < base + |xs|
    requires xs[hole - base].inum == hole && xs[hole - base].committed && xs[hole - base].cached
    ensures var j := hole - base;
      && !xs[j].learned
      && Learning(xs[j := xs[j].(learned := true)], base, hole + 1, origin, cache, trace + [xs[j].value])
      && Sorted(xs[j := xs[j].(learned := true)]) && LogOf(xs[j := xs[j].(learned := true)]) == LogOf(xs)
  {
    hide LogOf;
    LogSame(xs, hole - base, xs[hole - base].(learned := true));
  }

  /** An instance that is not both committed and cached lies at the hole or beyond; at the hole exactly if that is
      its number. */
  lemma OpenPlace(xs: seq<Instance>, base: nat, hole: nat, k: nat)
    requires LearnedPrefix(xs, base, hole) && k < |xs| && !(xs[k].committed && xs[k].cached)
    ensures hole - base <= k && xs[k].inum >= hole && !xs[k].learned
    ensures xs[k].inum == hole <==> k == hole - base && HoleThere(xs, base, hole)
  {
    if k > hole - base {
      assert xs[hole - base].inum < xs[k].inum;
    }
  }

  /** Overwriting an instance beyond the learned ones keeps the learner's state. */
  lemma UpdateKeeps(xs: seq<Instance>, base: nat, hole: nat, origin: nat, cache: set<ReqId>, trace: seq<Value>,
                    k: nat, x: Instance)
    requires Learning(xs, base, hole, origin, cache, trace) && hole - base <= k < |xs|
    requires x.inum == xs[k].inum && !x.learned
    requires x.cached ==> x.committed && (NeedsCached(x.value.kind) && x.inum >= origin ==> x.value.reqid in cache)
    ensures Learning(xs[k := x], base, hole, origin, cache, trace)
    ensures StartAt(xs[k := x], base, hole) == StartAt(xs, base, hole)
    ensures Blocked(xs, base, hole) && !(x.inum == hole && x.committed && x.cached) ==> Blocked(xs[k := x], base, hole)
  {
  }

  // ---------------------------------------------------------------- the handler

  /** What `paxos_commit` does besides: ask for the request, wait, ask for the commit of the hole, enter the learn loop,
      or fail the assert that istart is numbered like the hole. */
  datatype Outcome = Retrieve | Wait | Retry | Learned | Stopped

  // ---------------------------------------------------------------- where istart points

  /** A prepare can take the instance that istart points to out of the list.  Then istart is left outside the list, at the
      hole; or that instance was used again and is numbered beyond the hole.  In that case it is doomed, unless it
      is outside the list and its next link is an instance at the hole, which may be in the list or not. */
  datatype Place = Right | Outside | Doomed | NextRight | NextOutside | Wrong

  /** Where istart points once an instance at the hole is committed and cached: if it is not numbered like the hole, the
      code moves it to the next link.  Wrong says that the assert that follows fails. */
  function AtHole(place: Place): Place {
    match place
    case Right => Right
    case Outside => Outside
    case NextRight => Right
    case NextOutside => Outside
    case Doomed => Wrong
    case Wrong => Wrong
  }

  /** The instance numbered hole is in the list. */
  ghost predicate HasHole(pax: Session)
    requires pax.Listed()
    reads pax`hole, pax.ilist, pax.ilist.links
  {
    pax.hole in pax.Log()
  }

  ghost predicate IsOutside(pax: Session)
    reads pax`hole, pax`istart, pax.ilist`links, pax.istart`elt
  {
    pax.istart !in pax.ilist.links && pax.istart.elt.inum == pax.hole && !pax.istart.elt.committed
  }

  ghost predicate IsDoomed(pax: Session)
    reads pax`hole, pax`istart, pax.ilist`links, pax.istart, if pax.istart.next == null then {} else {pax.istart.next}
  {
    && pax.istart.elt.inum > pax.hole
    && (pax.istart in pax.ilist.links || pax.istart.next == null || pax.istart.next.elt.inum > pax.hole)
  }

  /** istart is outside the list, beyond the hole, and its next link is at the hole, in the list or not. */
  ghost predicate IsBefore(pax: Session, inList: bool)
    reads pax`hole, pax`istart, pax.ilist`links, pax.istart, if pax.istart.next == null then {} else {pax.istart.next}
  {
    && pax.istart.elt.inum > pax.hole && pax.istart !in pax.ilist.links
    && pax.istart.next != null && pax.istart.next.elt.inum == pax.hole
    && if inList then pax.istart.next in pax.ilist.links
       else pax.istart.next !in pax.ilist.links && !pax.istart.next.elt.committed
  }

  /** Where istart points. */
  ghost function PlaceOfStart(pax: Session): Place
    reads pax`base, pax`hole, pax`istart, pax`rcache, pax`trace, pax.ilist, pax.ilist.links,
          pax.istart, if pax.istart.next == null then {} else {pax.istart.next}
  {
    if !pax.Learns() then Wrong
    else if pax.Valid() then Right
    else if !HasHole(pax) then Wrong
    else if IsOutside(pax) then Outside
    else if IsDoomed(pax) then Doomed
    else if IsBefore(pax, true) then NextRight
    else if IsBefore(pax, false) then NextOutside
    else Wrong
  }

  /** What a place off the right one asks for. */
  ghost predicate IsAt(pax: Session, place: Place)
    reads pax`hole, pax`istart, pax.ilist`links, pax.istart, if pax.istart.next == null then {} else {pax.istart.next}
  {
    match place
    case Outside => IsOutside(pax)
    case Doomed => IsDoomed(pax)
    case NextRight => IsBefore(pax, true)
    case NextOutside => IsBefore(pax, false)
    case _ => false
  }

  /** What a place says. */
  lemma PlaceTells(pax: Session)
    ensures PlaceOfStart(pax) == Right <==> pax.Valid()
    ensures PlaceOfStart(pax) != Wrong ==> pax.Learns()
    ensures PlaceOfStart(pax) != Wrong && PlaceOfStart(pax) != Right ==> HasHole(pax) && IsAt(pax, PlaceOfStart(pax))
  {
  }

  /** Off the right place, the session is not in good order. */
  lemma NotRight(pax: Session, place: Place)
    requires pax.Learns()
    ensures IsAt(pax, place) ==> !pax.Valid()
  {
    hide LogOf, List.Valid, Vals, Blocked;
  }

  /** And it determines the place. */
  lemma PlaceIs(pax: Session, place: Place)
    requires pax.Learns() && place != Wrong
    requires if place == Right then pax.Valid() else HasHole(pax) && IsAt(pax, place)
    ensures PlaceOfStart(pax) == place
  {
    hide LogOf, List.Valid, Vals, Learning, Session.Pointed, Blocked, Sorted;
    NotRight(pax, place);
  }

  /** What the list looks like around the hole, and when there is nothing more to learn. */
  lemma AroundHole(pax: Session)
    requires pax.Learns()
    ensures var links, j := pax.ilist.links, pax.hole - pax.base;
      && pax.ilist.Valid() && 0 < j <= |links| && pax.ilist.last == links[|links| - 1]
      && (j < |links| ==>
            && links[j].next == (if j + 1 < |links| then links[j + 1] else null)
            && links[j].prev == links[j - 1] && !links[j].elt.learned
            && (var x := links[j].elt;
                x.inum == pax.hole && x.cached && NeedsCached(x.value.kind) ==> x.value.reqid in pax.rcache))
      && ((pax.istart == links[j - 1] && (j < |links| ==> links[j].elt.inum != pax.hole)) ==> pax.Valid())
      && ((j < |links| && links[j].elt.inum == pax.hole && pax.istart == links[j])
            ==> (links[j].elt.committed && links[j].elt.cached) || pax.Valid())
  {
    hide Sorted, Vals;
    pax.ilist.Ends();
    if pax.hole - pax.base < |pax.ilist.links| {
      pax.ilist.Around(pax.hole - pax.base);
    }
  }

  /** `paxos_learn` of the instance at the hole, as far as the instance list goes. */
  method LearnHere(pax: Session, it: Link<Instance>)
    requires pax.Learns() && pax.base < pax.hole < pax.base + |pax.ilist.links|
    requires it == pax.ilist.links[pax.hole - pax.base]
    requires it.elt.inum == pax.hole && it.elt.committed && it.elt.cached
    modifies pax`hole, pax`trace, it`elt
    ensures pax.Learns() && pax.Log() == old(pax.Log())
    ensures pax.trace == old(pax.trace + [it.elt.value]) && pax.hole == old(pax.hole) + 1
  {
    hide LogOf, List.Valid, Vals, Learning, Sorted;
    ghost var j := pax.hole - pax.base;
    LearnStep(pax.Xs(), pax.base, pax.hole, pax.origin, pax.rcache, pax.trace);
    pax.trace := pax.trace + [it.elt.value];
    pax.ilist.Store(it, it.elt.(learned := true), j);
    pax.hole := pax.hole + 1;
  }

  /** The learn loop of `paxos_commit`: from the hole on, learn what is committed and cached, in order, until an
      instance is missing, uncommitted or uncached.  If istart is outside the list, nothing is learned. */
  method LearnOn(pax: Session)
    requires pax.Learns() && pax.base < pax.hole < pax.base + |pax.ilist.links|
    requires IsOutside(pax) || (pax.istart == pax.ilist.links[pax.hole - pax.base] && pax.istart.elt.inum == pax.hole)
    modifies pax`hole, pax`istart, pax`trace, pax.ilist.links`elt
    ensures pax.Learns() && pax.Log() == old(pax.Log()) && Extends(pax.trace, old(pax.trace))
    ensures if old(IsOutside(pax)) then unchanged(pax) else pax.Valid()
    ensures pax.hole >= old(pax.hole)
    ensures old(!IsOutside(pax) && pax.istart.elt.committed && pax.istart.elt.cached) ==> pax.hole > old(pax.hole)
  {
    hide Extends, Learning, Session.Listed, Session.Valid, Session.Log, Session.Xs, List.Valid, Vals;
    var it: Link?<Instance> := pax.istart;
    ghost var links, outside := pax.ilist.links, IsOutside(pax);
    AroundHole(pax);
    ExtendsFurther(pax.trace, pax.trace, it.elt.value);
    while true
      invariant pax.base < pax.hole && pax.ilist.links == links
      invariant pax.Learns() && pax.Log() == old(pax.Log()) && Extends(pax.trace, old(pax.trace))
      invariant old(pax.hole) <= pax.hole <= pax.base + |links|
      invariant !outside ==> it == if pax.hole - pax.base < |links| then links[pax.hole - pax.base] else null
      invariant pax.hole == old(pax.hole) ==> it == old(pax.istart) && it.elt == old(pax.istart.elt)
      invariant outside ==> unchanged(pax) && it == pax.istart && it.elt.inum == pax.hole && !it.elt.committed
      decreases |links| - (pax.hole - pax.base)
    {
      AroundHole(pax);
      if it == null {
        pax.istart := pax.ilist.last;
        break;
      }
      if it.elt.inum != pax.hole {
        pax.istart := it.prev;
        break;
      }
      if !it.elt.committed || !it.elt.cached {
        pax.istart := it;
        break;
      }
      assert !it.elt.learned;
      if NeedsCached(it.elt.value.kind) {
        assert it.elt.value.reqid in pax.rcache;
      }
      ghost var next := it.next;
      ExtendsFurther(old(pax.trace), pax.trace, it.elt.value);
      LearnHere(pax, it);
      assert it.next == next;
      it := it.next;
    }
    AroundHole(pax);
  }

  /** Write to an instance the learner has not reached. */
  method WriteTo(pax: Session, inst: Link<Instance>, y: Instance, ghost k: nat)
    requires pax.Learns() && pax.hole - pax.base <= k < |pax.ilist.links| && pax.ilist.links[k] == inst
    requires y.inum == inst.elt.inum && !y.learned
    requires y.cached ==>
      y.committed && (NeedsCached(y.value.kind) && y.inum >= pax.origin ==> y.value.reqid in pax.rcache)
    modifies inst`elt
    ensures inst.elt == y && pax.Learns() && pax.Log() == old(pax.Log())[y.inum := SlotOf(y)]
    ensures old(pax.Pointed()) ==> pax.Pointed()
    ensures old(pax.Valid()) && !(y.inum == pax.hole && y.committed && y.cached) ==> pax.Valid()
  {
    hide LogOf, List.Valid, Vals;
    ghost var xs := pax.Xs();
    UpdateKeeps(xs, pax.base, pax.hole, pax.origin, pax.rcache, pax.trace, k, y);
    LogUpdate(xs, k, y);
    hide Learning, StartAt, Sorted;
    pax.ilist.Store(inst, y, k);
  }

  /** The same, with an eye on istart. */
  method Overwrite(pax: Session, inst: Link<Instance>, y: Instance, ghost k: nat)
    requires pax.Learns() && pax.hole - pax.base <= k < |pax.ilist.links| && pax.ilist.links[k] == inst
    requires y.inum == inst.elt.inum && !y.learned
    requires y.cached ==>
      y.committed && (NeedsCached(y.value.kind) && y.inum >= pax.origin ==> y.value.reqid in pax.rcache)
    modifies inst`elt
    ensures inst.elt == y && pax.Learns() && pax.Log() == old(pax.Log())[y.inum := SlotOf(y)]
    ensures (old(pax.Pointed()) ==> pax.Pointed()) && HasHole(pax) == old(HasHole(pax))
    ensures var place := old(PlaceOfStart(pax));
      && (place != Wrong && !(place == Right && y.inum == pax.hole && y.committed && y.cached) ==>
            PlaceOfStart(pax) == place)
      && (place != Wrong && place != Right ==> IsAt(pax, place))
  {
    hide LogOf, List.Valid, Vals, PlaceOfStart, Learning, StartAt, Sorted, Session.Pointed, Blocked, Session.Xs,
      Session.Listed;
    PlaceTells(pax);
    SlotAt(pax, k);
    ghost var place := PlaceOfStart(pax);
    WriteTo(pax, inst, y, k);
    if place != Wrong && !(place == Right && y.inum == pax.hole && y.committed && y.cached) {
      PlaceIs(pax, place);
    }
  }

  lemma OpenInstance(pax: Session, k: nat)
    requires pax.Learns() && k < |pax.ilist.links|
    requires var x := pax.ilist.links[k].elt; !(x.committed && x.cached)
    ensures var x := pax.ilist.links[k].elt;
      && pax.hole - pax.base <= k && x.inum >= pax.hole && !x.learned && !x.cached
      && (x.inum == pax.hole ==> k == pax.hole - pax.base)
  {
    hide Vals, List.Valid, Sorted;
    OpenPlace(pax.Xs(), pax.base, pax.hole, k);
  }

  lemma SlotAt(pax: Session, k: nat)
    requires pax.Listed() && k < |pax.ilist.links|
    ensures var x := pax.ilist.links[k].elt; x.inum in pax.Log() && pax.Log()[x.inum] == SlotOf(x)
  {
    hide LogOf, List.Valid, Sorted;
    LogAt(pax.Xs(), k, pax.Xs()[k].inum);
  }

  /** istart tells whether the instance numbered hole is there, and its state. */
  lemma StartInstance(pax: Session)
    requires pax.Learns() && pax.Pointed()
    ensures var j, x := pax.hole - pax.base, pax.istart.elt;
      && 0 < j && (x.inum == pax.hole ==> j < |pax.ilist.links| && pax.istart == pax.ilist.links[j])
      && (x.inum == pax.hole <==> pax.hole in pax.Log())
      && (x.inum == pax.hole ==> pax.Log()[pax.hole].committed == x.committed)
      && (x.inum == pax.hole && pax.Valid() ==> !(x.committed && x.cached))
  {
    hide Vals, List.Valid, LogOf;
    var j := pax.hole - pax.base;
    LogAt(pax.Xs(), j, pax.hole);
    if j < |pax.Xs()| && pax.Xs()[j].inum != pax.hole {
    }
  }

  /** The link numbered hole is in its place. */
  lemma HoleLink(pax: Session, l: Link<Instance>)
    requires pax.Learns() && l in pax.ilist.links && l.elt.inum == pax.hole
    ensures pax.base < pax.hole < pax.base + |pax.ilist.links| && l == pax.ilist.links[pax.hole - pax.base]
  {
    hide LogOf, List.Valid, Vals;
    var i :| 0 <= i < |pax.ilist.links| && pax.ilist.links[i] == l;
    assert pax.Xs()[i].inum == pax.hole;
  }

  /** What follows a link in the list is in the list, under a greater number. */
  lemma NextBeyond(pax: Session, l: Link<Instance>)
    requires pax.Listed() && l.next != null
    ensures l in pax.ilist.links ==> l.next in pax.ilist.links && l.next.elt.inum > l.elt.inum
  {
    hide LogOf, Vals;
    if l in pax.ilist.links {
      var i :| 0 <= i < |pax.ilist.links| && pax.ilist.links[i] == l;
      pax.ilist.Around(i);
      assert pax.Xs()[i].inum < pax.Xs()[i + 1].inum;
    }
  }

  /** `paxos_commit` of the instance in place k, one that has not been both committed and cached before.  Where istart is
      right, the commit of the hole is learned.  Where it is outside the list, no commit ever learns anything.
      Where it is beyond the hole, the commit of the hole moves it to the next link, or fails the assert. */
  method Commit(pax: Session, inst: Link<Instance>, ghost k: nat) returns (out: Outcome)
    requires PlaceOfStart(pax) != Wrong
    requires k < |pax.ilist.links| && pax.ilist.links[k] == inst && !(inst.elt.committed && inst.elt.cached)
    modifies pax`hole, pax`istart, pax`trace, pax.ilist.links`elt
    ensures pax.Learns() && Extends(pax.trace, old(pax.trace)) && pax.hole >= old(pax.hole)
    ensures var x := old(inst.elt);
      pax.Log() == old(pax.Log())[x.inum := SlotOf(x.(committed := true))]
    ensures var x, place, next := old(inst.elt), old(PlaceOfStart(pax)), AtHole(old(PlaceOfStart(pax)));
      var cached := x.value.kind == Chat || x.value.kind == Join ==> x.value.reqid in pax.rcache;
      var here := cached && x.inum == old(pax.hole);
      && (out == Retrieve <==> !cached)
      && (out == Stopped <==> here && next == Wrong)
      && (out == Learned <==> here && next != Wrong)
      && (out == Retry <==> cached && !here && !pax.proposing
                            && !(place == Right && pax.hole in pax.Log() && pax.Log()[pax.hole].committed))
      && (pax.hole > old(pax.hole) <==> here && next == Right)
      && (out != Stopped ==> PlaceOfStart(pax) == if here then next else place)
      && (here || pax.istart == old(pax.istart))
  {
    hide Learning, LogOf, Blocked, List.Valid, Vals, Sorted, Extends, Session.Pointed, StartAt, Session.Xs, PlaceOfStart,
      IsAt, AtHole;
    PlaceTells(pax);
    ghost var x := inst.elt;
    OpenInstance(pax, k);
    ExtendsFurther(pax.trace, pax.trace, x.value);
    Overwrite(pax, inst, inst.elt.(committed := true), k);
    if NeedsCached(inst.elt.value.kind) && inst.elt.value.reqid !in pax.rcache {
      return Retrieve;
    }
    out := CommitCached(pax, inst, k);
  }

  /** The rest of `paxos_commit`, once the request is known to be there. */
  method CommitCached(pax: Session, inst: Link<Instance>, ghost k: nat) returns (out: Outcome)
    requires PlaceOfStart(pax) != Wrong
    requires k < |pax.ilist.links| && pax.ilist.links[k] == inst && inst.elt.committed && !inst.elt.cached
    requires NeedsCached(inst.elt.value.kind) ==> inst.elt.value.reqid in pax.rcache
    modifies pax`hole, pax`istart, pax`trace, pax.ilist.links`elt
    ensures pax.Learns() && pax.Log() == old(pax.Log()) && Extends(pax.trace, old(pax.trace))
    ensures pax.hole >= old(pax.hole) && out != Retrieve
    ensures var here, place, next := old(inst.elt.inum == pax.hole), old(PlaceOfStart(pax)), AtHole(old(PlaceOfStart(pax)));
      && (out == Stopped <==> here && next == Wrong)
      && (out == Learned <==> here && next != Wrong)
      && (out == Retry <==> !here && !pax.proposing
                            && !(place == Right && pax.hole in pax.Log() && pax.Log()[pax.hole].committed))
      && (pax.hole > old(pax.hole) <==> here && next == Right)
      && (out != Stopped ==> PlaceOfStart(pax) == if here then next else place)
      && (here || pax.istart == old(pax.istart))
  {
    hide Learning, LogOf, Blocked, List.Valid, Vals, Sorted, Extends, Session.Pointed, StartAt, Session.Xs, PlaceOfStart;
    PlaceTells(pax);
    ghost var place, next := PlaceOfStart(pax), AtHole(PlaceOfStart(pax));
    OpenInstance(pax, k);
    ExtendsFurther(pax.trace, pax.trace, inst.elt.value);
    MarkCached(pax, inst, k);
    assert inst.elt.inum >= pax.hole;
    if inst.elt.inum != pax.hole {
      if pax.proposing {
        return Wait;
      }
      if pax.istart.elt.inum == pax.hole && pax.istart.elt.committed {
        assert !pax.istart.elt.cached;
        return Wait;
      }
      return Retry;
    }
    if pax.istart.elt.inum != pax.hole {
      if pax.istart.next == null {
        // The C code reads the list head as an instance here.
        return Stopped;
      }
      NextBeyond(pax, pax.istart);
      pax.istart := pax.istart.next;
    }
    if pax.istart.elt.inum != pax.hole {
      return Stopped;
    }
    if pax.istart in pax.ilist.links {
      HoleLink(pax, pax.istart);
    }
    LearnOn(pax);
    PlaceIs(pax, next);
    return Learned;
  }

  /** Mark the cache. */
  method MarkCached(pax: Session, inst: Link<Instance>, ghost k: nat)
    requires PlaceOfStart(pax) != Wrong
    requires k < |pax.ilist.links| && pax.ilist.links[k] == inst && inst.elt.committed && !inst.elt.cached
    requires NeedsCached(inst.elt.value.kind) ==> inst.elt.value.reqid in pax.rcache
    modifies inst`elt
    ensures inst.elt == old(inst.elt).(cached := true) && pax.Learns() && pax.Log() == old(pax.Log())
    ensures inst.elt.inum == pax.hole ==> pax.base < pax.hole < pax.base + |pax.ilist.links| && k == pax.hole - pax.base
    ensures inst.elt.inum != pax.hole ==> PlaceOfStart(pax) == old(PlaceOfStart(pax))
    ensures old(PlaceOfStart(pax)) == Right ==>
      && (pax.istart.elt.inum == pax.hole <==> pax.hole in pax.Log())
      && (pax.hole in pax.Log() ==> pax.Log()[pax.hole].committed == pax.istart.elt.committed)
      && (inst.elt.inum != pax.hole && pax.istart.elt.inum == pax.hole ==>
            !(pax.istart.elt.committed && pax.istart.elt.cached))
      && (inst.elt.inum == pax.hole ==> pax.istart == inst)
    ensures var place := old(PlaceOfStart(pax)); place != Right ==> HasHole(pax) && IsAt(pax, place)
  {
    hide Learning, LogOf, Blocked, List.Valid, Vals, Sorted, Session.Pointed, StartAt, Session.Xs, PlaceOfStart,
      IsAt;
    PlaceTells(pax);
    OpenInstance(pax, k);
    SlotAt(pax, k);
    Overwrite(pax, inst, inst.elt.(cached := true), k);
    AroundHole(pax);
    PlaceTells(pax);
    if pax.Pointed() {
      StartInstance(pax);
    }
  }
}
