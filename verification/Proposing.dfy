/** The prepared proposer's handlers: new decrees, the decrees deferred during the prepare, and accepts. */
module Proposing {
  import opened Primitives
  import opened DecreeLog
  import opened IntrusiveList
  import opened Instances
  import opened Session
  import opened Learner
  import opened Acceptor
  import opened MergePromise
  import opened FinishingPrepare

  /** The log after decreeing vs, one instance after the other from n on.  A proposer that is alone commits at once. */
  function AfterDecrees(log: Log, n: nat, b: Ballot, vs: seq<Value>, alone: bool): Log {
    if vs == [] then log else AfterDecrees(log, n, b, vs[..|vs| - 1], alone)[n + |vs| - 1 := Slot(b, vs[|vs| - 1], alone, 1)]
  }

  /** The deferred decrees get consecutive numbers, first come first served, and nothing else changes. */
  lemma {:induction false} DecreesInOrder(log: Log, n: nat, b: Ballot, vs: seq<Value>, alone: bool)
    ensures var more := AfterDecrees(log, n, b, vs, alone);
      && (forall i {:trigger vs[i]} :: 0 <= i < |vs| ==> n + i in more && more[n + i] == Slot(b, vs[i], alone, 1))
      && (forall m :: m in more <==> m in log || n <= m < n + |vs|)
      && (forall m :: m in log && !(n <= m < n + |vs|) ==> more[m] == log[m])
  {
    if vs != [] {
      DecreesInOrder(log, n, b, vs[..|vs| - 1], alone);
    }
  }

  /** `next_instance` */
  method NextNumber(pax: Session) returns (n: nat)
    requires pax.Listed()
    ensures if pax.ilist.links == [] then n == 1 && pax.Log() == map[] else n > 0 && IsLast(pax.Log(), n - 1)
  {
    hide LogOf, Vals, List.Valid, Sorted, IsLast;
    pax.ilist.Ends();
    if pax.ilist.last == null {
      NoLog(pax.Xs());
      return 1;
    }
    LastOf(pax);
    n := pax.ilist.last.elt.inum + 1;
  }

  lemma NoLog(xs: seq<Instance>)
    requires xs == [] && Sorted(xs)
    ensures LogOf(xs) == map[]
  {
    hide LogOf;
    assert forall n :: n in LogOf(xs) ==> Numbered(xs, n);
  }

  /** The next number is free, beyond the hole, and the greatest once it is used. */
  lemma NextIsNew(pax: Session, n: nat, slot: Slot)
    requires pax.Learns() && n > 0 && IsLast(pax.Log(), n - 1)
    ensures n !in pax.Log() && (HasHole(pax) ==> n != pax.hole) && n >= pax.base && IsLast(pax.Log()[n := slot], n)
  {
    hide LogOf, Vals, List.Valid, Sorted;
    SentNothing(pax);
    LastOf(pax);
  }

  lemma OneDecree(log: Log, n: nat, b: Ballot, v: Value, alone: bool)
    ensures AfterDecrees(log, n, b, [v], alone) == log[n := Slot(b, v, alone, 1)]
    ensures log[n := Slot(b, v, false, 1)][n := Slot(b, v, true, 1)] == log[n := Slot(b, v, true, 1)]
  {
  }

  lemma ApartMeans(pax: Session, inst: Link<Instance>)
    requires pax.Listed() && inst !in pax.ilist.links && Apart(pax, inst)
    ensures inst != pax.istart && inst != pax.istart.next
  {
    hide LogOf, Vals, List.Valid, Sorted;
    if pax.istart.next != null {
      NextBeyond(pax, pax.istart);
    }
  }

  /** istart is in the list, or where it was. */
  lemma StartThere(pax: Session)
    requires PlaceOfStart(pax) == Right
    ensures pax.istart in pax.ilist.links
  {
    hide LogOf, Vals, List.Valid, Sorted, Learning, PlaceOfStart;
    PlaceTells(pax);
    PointsNow(pax);
  }

  /** `proposer_decree`: the number is the next one, whatever the instance held before. */
  method Decree(pax: Session, inst: Link<Instance>) returns (n: nat, ghost k: nat)
    requires PlaceOfStart(pax) != Wrong && inst !in pax.ilist.links && Apart(pax, inst)
    modifies pax`istart, pax`hole, pax`trace, pax.ilist, pax.ilist.links, inst
    ensures PlaceOfStart(pax) == old(PlaceOfStart(pax)) && pax.Learns()
    ensures PlaceOfStart(pax) != Right ==> pax.istart == old(pax.istart)
    ensures n > 0 && IsLast(old(pax.Log()), n - 1) && IsLast(pax.Log(), n)
    ensures pax.Log()
         == AfterDecrees(old(pax.Log()), n, pax.ballot, [old(inst.elt.value)], 1 >= Majority(pax.acceptors))
    ensures Extends(pax.trace, old(pax.trace)) && pax.hole >= old(pax.hole)
    ensures k <= |old(pax.ilist.links)| && pax.ilist.links == InsertAt(old(pax.ilist.links), k, inst)
  {
    hide LogOf, Vals, List.Valid, Sorted, Learning, Session.Pointed, Blocked, Session.Xs, IsLast, InsertAt, Extends,
      AfterDecrees, Session.Log, PlaceOfStart, Apart;
    PlaceTells(pax);
    NotEmpty(pax);
    n := NextNumber(pax);
    ghost var v, log := inst.elt.value, pax.Log();
    ExtendsFurther(pax.trace, pax.trace, v);
    ApartMeans(pax, inst);
    assert Apart(pax, inst);
    inst.elt := Decreed(inst.elt.(inum := n), pax.ballot);
    assert Apart(pax, inst);
    NextIsNew(pax, n, Slot(pax.ballot, v, false, 1));
    NextIsNew(pax, n, Slot(pax.ballot, v, true, 1));
    OneDecree(log, n, pax.ballot, v, 1 >= Majority(pax.acceptors));
    k := InsertAndUpstart(pax, inst);
    if inst.elt.votes >= Majority(pax.acceptors) {
      StaysAt(old(pax.ilist.links), k, inst);
      var out := Commit(pax, inst, k);
    }
    PlaceTells(pax);
  }

  lemma StaysAt<T>(s: seq<T>, k: nat, x: T)
    requires k <= |s|
    ensures k < |InsertAt(s, k, x)| && InsertAt(s, k, x)[k] == x
  {
  }

  lemma NotEmpty(pax: Session)
    requires pax.Learns()
    ensures pax.ilist.links != []
  {
    hide LogOf, Vals, List.Valid, Sorted;
  }

  ghost function Values(xs: seq<Instance>): (vs: seq<Value>)
    ensures |vs| == |xs| && forall i {:trigger vs[i]} :: 0 <= i < |vs| ==> vs[i] == xs[i].value
  {
    seq(|xs|, i requires 0 <= i < |xs| => xs[i].value)
  }

  lemma DecreeNext(log: Log, n: nat, b: Ballot, vs: seq<Value>, i: nat, alone: bool)
    requires i < |vs|
    ensures AfterDecrees(log, n, b, vs[..i + 1], alone)
         == AfterDecrees(AfterDecrees(log, n, b, vs[..i], alone), n + i, b, [vs[i]], alone)
  {
    assert vs[..i + 1][..i] == vs[..i];
    OneDecree(AfterDecrees(log, n, b, vs[..i], alone), n + i, b, vs[i], alone);
  }

  // ---------------------------------------------------------------- accepts

  /** A vote counter does not concern the learner. */
  lemma CountKeeps(xs: seq<Instance>, base: nat, hole: nat, origin: nat, cache: set<ReqId>, trace: seq<Value>,
                   k: nat, votes: nat)
    requires Learning(xs, base, hole, origin, cache, trace) && k < |xs|
    ensures var ys := xs[k := xs[k].(votes := votes)];
      && base < hole && Learning(ys, base, hole, origin, cache, trace)
      && StartAt(ys, base, hole) == StartAt(xs, base, hole)
      && (Blocked(xs, base, hole) <==> Blocked(ys, base, hole))
  {
  }

  method CountVote(pax: Session, inst: Link<Instance>, ghost k: nat)
    requires PlaceOfStart(pax) != Wrong && k < |pax.ilist.links| && pax.ilist.links[k] == inst
    modifies inst`elt
    ensures PlaceOfStart(pax) == old(PlaceOfStart(pax)) && inst.elt == old(inst.elt).(votes := old(inst.elt.votes) + 1)
    ensures pax.Learns() && pax.Log() == old(pax.Log())[inst.elt.inum := SlotOf(inst.elt)]
  {
    hide LogOf, List.Valid, Vals, Learning, StartAt, Sorted, Blocked, PlaceOfStart;
    PlaceTells(pax);
    ghost var x, place := inst.elt.(votes := inst.elt.votes + 1), PlaceOfStart(pax);
    CountKeeps(pax.Xs(), pax.base, pax.hole, pax.origin, pax.rcache, pax.trace, k, x.votes);
    LogUpdate(pax.Xs(), k, x);
    pax.ilist.Store(inst, inst.elt.(votes := inst.elt.votes + 1), k);
    PlaceIs(pax, place);
  }

  /** `proposer_ack_accept`: the instance is there, as it was decreed.  A commit at the hole aborts if istart cannot be
      moved there. */
  method AckAccept(pax: Session, n: nat) returns (abort: bool)
    requires PlaceOfStart(pax) != Wrong && n in pax.Log()
    modifies pax`istart, pax`hole, pax`trace, pax.ilist.links`elt
    ensures pax.Learns() && Extends(pax.trace, old(pax.trace)) && pax.hole >= old(pax.hole)
    ensures var slot := old(pax.Log())[n].(votes := old(pax.Log())[n].votes + 1);
      var done := slot.committed || slot.votes >= Majority(pax.acceptors);
      && pax.Log() == old(pax.Log())[n := slot.(committed := done)]
      && (var here := slot.votes >= Majority(pax.acceptors)
                      && Learnable(old(pax.Log()), old(pax.hole), pax.rcache, n, slot.value);
          var place, next := old(PlaceOfStart(pax)), AtHole(old(PlaceOfStart(pax)));
          && (abort <==> here && next == Wrong)
          && (pax.hole > old(pax.hole) <==> here && next == Right)
          && (!abort ==> PlaceOfStart(pax) == if here then next else place))
  {
    hide LogOf, Vals, List.Valid, Sorted, Learning, Session.Pointed, Blocked, Session.Xs, Extends, Session.Log, PlaceOfStart;
    PlaceTells(pax);
    ExtendsFurther(pax.trace, pax.trace, Value(Null, Pair(0, 0), 0));
    var inst, k := FindInstance(pax, n);
    CountVote(pax, inst, k);
    if inst.elt.committed {
      return false;
    }
    abort := false;
    if inst.elt.votes >= Majority(pax.acceptors) {
      var out := Commit(pax, inst, k);
      abort := out == Stopped;
    }
  }

  // ---------------------------------------------------------------- deferred decrees

  /** The deferred links that are left: none of them is in the instance list, and their values are those deferred. */
  ghost predicate Waiting(deferred: seq<Link<Instance>>, i: nat, vs: seq<Value>, links: seq<Link<Instance>>)
    reads deferred`elt
  {
    && i <= |deferred| == |vs|
    && (forall j {:trigger deferred[j]} :: i <= j < |deferred| ==>
          deferred[j] !in links && deferred[j].elt.value == vs[j])
    && (forall j, l {:trigger deferred[j], deferred[l]} :: 0 <= j < l < |deferred| ==> deferred[j] != deferred[l])
  }

  /** The deferred links that are left do not concern istart. */
  ghost predicate AllApart(pax: Session, deferred: seq<Link<Instance>>, i: nat)
    reads pax`istart, pax.ilist`links, pax.istart`next
  {
    forall j {:trigger deferred[j]} :: i <= j < |deferred| ==> Apart(pax, deferred[j])
  }

  lemma DeferredWait(idefer: List<Instance>, links: seq<Link<Instance>>)
    requires idefer.Valid() && forall l :: l in idefer.links ==> l !in links
    ensures Waiting(idefer.links, 0, Values(idefer.Elts()), links)
  {
    hide Vals;
  }

  lemma DeferredApart(pax: Session, deferred: seq<Link<Instance>>)
    requires forall l :: l in deferred ==> Apart(pax, l)
    ensures AllApart(pax, deferred, 0)
  {
  }

  lemma ExtendsOn(s: seq<Value>, t: seq<Value>, u: seq<Value>)
    requires Extends(t, s) && Extends(u, t)
    ensures Extends(u, s)
  {
  }

  /** The flush at the end of a prepare: the deferred decrees, in the order in which they were deferred, get the
      numbers that follow the last one. */
  method Flush(pax: Session, idefer: List<Instance>)
    requires PlaceOfStart(pax) != Wrong && idefer.Valid() && idefer != pax.ilist
    requires forall l :: l in idefer.links ==> l !in pax.ilist.links && Apart(pax, l)
    modifies pax`istart, pax`hole, pax`trace, pax.ilist, pax.ilist.links, idefer, idefer.links
    ensures PlaceOfStart(pax) == old(PlaceOfStart(pax)) && idefer.Valid() && idefer.links == []
    ensures old(pax.Log()).Keys != {}
    ensures pax.Log() == AfterDecrees(old(pax.Log()), Last(old(pax.Log())) + 1, pax.ballot, Values(old(idefer.Elts())),
                                      1 >= Majority(pax.acceptors))
    ensures Extends(pax.trace, old(pax.trace)) && pax.hole >= old(pax.hole)
  {
    hide LogOf, Vals, List.Valid, Sorted, Learning, Session.Pointed, Blocked, Session.Xs, IsLast, InsertAt, Extends,
      AfterDecrees, Session.Log, Last, RemoveAt, Waiting, Values, PlaceOfStart, AllApart, Apart;
    PlaceTells(pax);
    assert AllApart(pax, idefer.links, 0) by { DeferredApart(pax, idefer.links); }
    NotEmpty(pax);
    LastOf(pax);
    DeferredWait(idefer, pax.ilist.links);
    var alone := 1 >= Majority(pax.acceptors);
    ghost var links0, vs, log0 := idefer.links, Values(idefer.Elts()), pax.Log();
    ghost var last := pax.ilist.links[|pax.ilist.links| - 1].elt.inum;
    OneLast(log0, last);
    NoDecrees(log0, last + 1, pax.ballot, vs, alone);
    ExtendsFurther(pax.trace, pax.trace, Value(Null, Pair(0, 0), 0));
    idefer.Ends();
    var inst := idefer.first;
    ghost var i := 0;
    while inst != null
      invariant pax.Learns() && PlaceOfStart(pax) == old(PlaceOfStart(pax)) && idefer.Valid()
      invariant i <= |links0| == |vs| && idefer.links == links0[i..]
      invariant AllApart(pax, links0, i)
      invariant inst == if i < |links0| then links0[i] else null
      invariant Waiting(links0, i, vs, pax.ilist.links)
      invariant forall j :: 0 <= j < |pax.ilist.links| ==>
                  pax.ilist.links[j] in old(pax.ilist.links) || pax.ilist.links[j] in links0
      invariant pax.Log() == AfterDecrees(log0, last + 1, pax.ballot, vs[..i], alone) && IsLast(pax.Log(), last + i)
      invariant Extends(pax.trace, old(pax.trace)) && pax.hole >= old(pax.hole)
      decreases |links0| - i
    {
      DecreeNext(log0, last + 1, pax.ballot, vs, i, alone);
      ghost var trace := pax.trace;
      inst := FlushOne(pax, idefer, inst, links0, i, vs, last + i);
      ExtendsOn(old(pax.trace), trace, pax.trace);
      i := i + 1;
    }
    assert vs[..|vs|] == vs;
  }

  lemma NoDecrees(log: Log, n: nat, b: Ballot, vs: seq<Value>, alone: bool)
    ensures AfterDecrees(log, n, b, vs[..0], alone) == log
  {
  }

  /** One deferred decree; returns the next. */
  method FlushOne(pax: Session, idefer: List<Instance>, inst: Link<Instance>, ghost deferred: seq<Link<Instance>>,
                  ghost i: nat, ghost vs: seq<Value>, ghost last: nat) returns (next: Link?<Instance>)
    requires PlaceOfStart(pax) != Wrong && idefer.Valid() && idefer != pax.ilist && IsLast(pax.Log(), last)
    requires AllApart(pax, deferred, i)
    requires Waiting(deferred, i, vs, pax.ilist.links)
    requires i < |deferred| && idefer.links == deferred[i..] && inst == deferred[i]
    modifies pax`istart, pax`hole, pax`trace, pax.ilist, pax.ilist.links, idefer, idefer.links
    ensures PlaceOfStart(pax) == old(PlaceOfStart(pax)) && idefer.Valid() && idefer.links == deferred[i + 1..]
    ensures AllApart(pax, deferred, i + 1)
    ensures next == if i + 1 < |deferred| then deferred[i + 1] else null
    ensures Waiting(deferred, i + 1, vs, pax.ilist.links)
    ensures pax.Log() == AfterDecrees(old(pax.Log()), last + 1, pax.ballot, [vs[i]], 1 >= Majority(pax.acceptors))
    ensures pax.Learns() && IsLast(pax.Log(), last + 1)
    ensures Extends(pax.trace, old(pax.trace)) && pax.hole >= old(pax.hole)
    ensures forall j :: 0 <= j < |pax.ilist.links| ==>
              pax.ilist.links[j] in old(pax.ilist.links) || pax.ilist.links[j] == inst
  {
    hide LogOf, Vals, List.Valid, Sorted, Learning, Session.Pointed, Blocked, Session.Xs, IsLast, InsertAt, Extends,
      AfterDecrees, Session.Log, RemoveAt, PlaceOfStart;
    ghost var place := PlaceOfStart(pax);
    RemoveFirst(deferred[i..]);
    TakeOff(pax, idefer, deferred, i);
    var n, k := Decree(pax, inst);
    if place == Right {
      StartThere(pax);
    }
    SameLast(old(pax.Log()), last, n - 1);
    InsertMembers(old(pax.ilist.links), k, inst);
    idefer.Ends();
    next := idefer.first;
  }

  /** Take the first deferred link off its list, which does not concern istart. */
  method TakeOff(pax: Session, idefer: List<Instance>, ghost deferred: seq<Link<Instance>>, ghost i: nat)
    requires PlaceOfStart(pax) != Wrong && idefer.Valid() && idefer != pax.ilist && i < |deferred|
    requires idefer.links == deferred[i..] && forall j :: i <= j < |deferred| ==> deferred[j] !in pax.ilist.links
    requires AllApart(pax, deferred, i)
    modifies idefer, idefer.links`next, idefer.links`prev
    ensures idefer.Valid() && idefer.links == RemoveAt(deferred[i..], 0)
    ensures pax.Learns() && PlaceOfStart(pax) == old(PlaceOfStart(pax)) && pax.Log() == old(pax.Log())
    ensures AllApart(pax, deferred, i)
  {
    hide LogOf, Vals, List.Valid, Sorted, Learning, PlaceOfStart, RemoveAt;
    PlaceTells(pax);
    forall j | i <= j < |deferred|
      ensures deferred[j] != pax.istart && deferred[j] != pax.istart.next
    {
      ApartMeans(pax, deferred[j]);
    }
    idefer.Ends();
    idefer.Remove(idefer.first, 0);
    PlaceTells(pax);
  }

  lemma RemoveFirst<T>(s: seq<T>)
    requires s != []
    ensures RemoveAt(s, 0) == s[1..]
  {
  }
}
