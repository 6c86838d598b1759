/** Dropping the prefix of the instance list that everyone has learned, and joining with a copy of such a list. */
module Truncation {
  import opened Primitives
  import opened DecreeLog
  import opened IntrusiveList
  import opened Instances
  import opened Session

  // ---------------------------------------------------------------- on values

  ghost function LogFrom(log: Log, n: nat): Log {
    map m | m in log && m >= n :: log[m]
  }

  lemma LogSuffix(xs: seq<Instance>, d: nat, n: nat)
    requires Sorted(xs) && d < |xs| && n <= xs[d].inum && (d > 0 ==> xs[d - 1].inum < n)
    ensures Sorted(xs[d..]) && LogOf(xs[d..]) == LogFrom(LogOf(xs), n)
  {
    hide LogOf;
    var ys, log := xs[d..], LogFrom(LogOf(xs), n);
    forall y | y in ys ensures y.inum in log && log[y.inum] == SlotOf(y) {
      var i :| 0 <= i < |ys| && ys[i] == y;
      assert xs[d + i] in xs;
    }
    forall m | m in log ensures Numbered(ys, m) {
      var j := PlaceOf(xs, m);
      assert j >= d;
      assert ys[j - d] in ys;
    }
    OneLog(ys, log);
  }

  /** The request ids of the first d instances. */
  ghost function Ids(xs: seq<Instance>, d: nat): set<ReqId>
    requires d <= |xs|
  {
    set i | 0 <= i < d :: xs[i].value.reqid
  }

  /** No instance from place d on that relies on its cached request shares its request id with one before d. */
  ghost predicate Unshared(xs: seq<Instance>, d: nat, origin: nat)
    requires d <= |xs|
  {
    forall j {:trigger xs[j]} :: d <= j < |xs| && xs[j].cached && NeedsCached(xs[j].value.kind) && xs[j].inum >= origin ==>
      xs[j].value.reqid !in Ids(xs, d)
  }

  lemma TruncateKeeps(xs: seq<Instance>, base: nat, hole: nat, origin: nat, cache: set<ReqId>, trace: seq<Value>, d: nat)
    requires Learning(xs, base, hole, origin, cache, trace) && base + d < hole
    ensures d < |xs| && LearnedPrefix(xs[d..], base + d, hole) && Traced(xs[d..], base + d, hole, origin, trace)
    ensures Backed(xs[d..], origin, cache - Ids(xs, d)) <==> Unshared(xs, d, origin)
    ensures StartAt(xs[d..], base + d, hole) == StartAt(xs, base, hole) - d >= 0
    ensures Blocked(xs[d..], base + d, hole) <==> Blocked(xs, base, hole)
  {
    var ys := xs[d..];
    assert forall i {:trigger ys[i]} :: 0 <= i < |ys| ==> ys[i] == xs[d + i];
    if Backed(ys, origin, cache - Ids(xs, d)) {
      forall j {:trigger xs[j]}
        | d <= j < |xs| && xs[j].cached && NeedsCached(xs[j].value.kind) && xs[j].inum >= origin
        ensures xs[j].value.reqid !in Ids(xs, d)
      {
        assert ys[j - d] == xs[j];
      }
    }
  }

  lemma IdsGrow(xs: seq<Instance>, g: nat)
    requires g < |xs|
    ensures Ids(xs, 0) == {} && Ids(xs, g + 1) == Ids(xs, g) + {xs[g].value.reqid}
  {
  }

  lemma IdsBelow(xs: seq<Instance>, d: nat, base: nat)
    requires Sorted(xs) && d < |xs| && xs[d].inum == base
    ensures forall id :: id in Ids(xs, d) <==> exists x :: x in xs && x.inum < base && x.value.reqid == id
  {
    forall id | id in Ids(xs, d)
      ensures exists x :: x in xs && x.inum < base && x.value.reqid == id
    {
      var i :| 0 <= i < d && xs[i].value.reqid == id;
      assert xs[i] in xs && xs[i].inum < xs[d].inum;
    }
    forall x | x in xs && x.inum < base
      ensures x.value.reqid in Ids(xs, d)
    {
      var i :| 0 <= i < |xs| && xs[i] == x;
      assert i < d;
    }
  }

  /** Where the new base is in the list. */
  lemma BaseAt(xs: seq<Instance>, base: nat, hole: nat, d: nat)
    requires LearnedPrefix(xs, base, hole) && base + d < hole
    ensures d < |xs| && xs[d].inum == base + d && forall i {:trigger xs[i]} :: 0 <= i < d ==> xs[i].inum < base + d
  {
  }

  lemma ValsSuffix<T>(links: seq<Link<T>>, d: nat)
    requires d <= |links|
    ensures Vals(links[d..]) == Vals(links)[d..]
  {
    hide Vals;
  }

  // ---------------------------------------------------------------- the handler

  /** `ilist_truncate_prefix`: drop the first instances, those numbered below base, and their requests. */
  method DropBelow(pax: Session, base: nat, ghost d: nat)
    requires pax.Listed() && d < |pax.Xs()| && pax.Xs()[d].inum >= base
    requires forall i {:trigger pax.Xs()[i]} :: 0 <= i < d ==> pax.Xs()[i].inum < base
    modifies pax`rcache, pax.ilist, pax.ilist.links`next, pax.ilist.links`prev
    ensures pax.Listed() && pax.ilist.links == old(pax.ilist.links)[d..] && pax.Xs() == old(pax.Xs())[d..]
    ensures pax.rcache == old(pax.rcache) - Ids(old(pax.Xs()), d)
  {
    hide LogOf, Vals, List.Valid, Sorted, RemoveAt, Ids;
    ghost var xs, links := pax.Xs(), pax.ilist.links;
    IdsGrow(xs, 0);
    ValsSuffix(links, d);
    SortedSuffix(xs, d);
    pax.ilist.Ends();
    var it := pax.ilist.first;
    ghost var g := 0;
    while it != null
      invariant pax.ilist.Valid() && g <= d && pax.ilist.links == links[g..]
      invariant it == if g < |links| then links[g] else null
      invariant pax.rcache == old(pax.rcache) - Ids(xs, g)
      decreases |links| - g
    {
      assert it.elt == xs[g];
      if it.elt.inum >= base {
        break;
      }
      IdsGrow(xs, g);
      RemoveHead(links, g);
      pax.rcache := pax.rcache - {it.elt.value.reqid};
      pax.ilist.Remove(it, 0);
      pax.ilist.Ends();
      it := pax.ilist.first;
      g := g + 1;
    }
  }

  lemma SortedSuffix(xs: seq<Instance>, d: nat)
    requires Sorted(xs) && d <= |xs|
    ensures Sorted(xs[d..])
  {
  }

  lemma RemoveHead<T>(s: seq<T>, g: nat)
    requires g < |s|
    ensures RemoveAt(s[g..], 0) == s[g + 1..]
  {
  }

  /** A truncation as the proposer and the acceptors do it: everything below the new base goes, together with its
      request; what is at the base stays, and so does istart.  The learner goes on undisturbed exactly if no request
      that is still needed went with a dropped instance. */
  method Truncate(pax: Session, base: nat)
    requires pax.Valid() && pax.base <= base < pax.hole
    modifies pax`base, pax`rcache, pax.ilist, pax.ilist.links`next, pax.ilist.links`prev
    ensures pax.base == base && pax.Listed() && pax.Log() == LogFrom(old(pax.Log()), base)
    ensures base in pax.Log() && pax.istart in pax.ilist.links
    ensures pax.Valid() <==> old(Unshared(pax.Xs(), base - pax.base, pax.origin))
    ensures forall id :: id in pax.rcache <==>
              && id in old(pax.rcache)
              && forall x {:trigger x in old(pax.Xs())} :: x in old(pax.Xs()) && x.inum < base ==> x.value.reqid != id
  {
    hide LogOf, Vals, List.Valid, Sorted, Blocked, Unshared, Ids, Backed, Traced, LearnedPrefix, StartAt, LogFrom,
      Session.Valid, Session.Xs;
    Opened(pax);
    ghost var xs, links, d := pax.Xs(), pax.ilist.links, base - pax.base;
    TruncateKeeps(xs, pax.base, pax.hole, pax.origin, pax.rcache, pax.trace, d);
    BaseAt(xs, pax.base, pax.hole, d);
    LogSuffix(xs, d, base);
    LogAt(xs[d..], 0, base);
    ghost var at := StartAt(xs, pax.base, pax.hole);
    pax.base := base;
    DropBelow(pax, base, d);
    IdsBelow(xs, d, base);
    assert pax.ilist.links[at - d] == pax.istart;
    ValidAgain(pax, at - d);
  }

  lemma Opened(pax: Session)
    requires pax.Valid()
    ensures pax.Listed() && Learning(pax.Xs(), pax.base, pax.hole, pax.origin, pax.rcache, pax.trace)
    ensures Blocked(pax.Xs(), pax.base, pax.hole) && pax.base < pax.hole
    ensures StartAt(pax.Xs(), pax.base, pax.hole) < |pax.ilist.links|
    ensures pax.istart == pax.ilist.links[StartAt(pax.Xs(), pax.base, pax.hole)]
  {
  }

  lemma ValidAgain(pax: Session, at: nat)
    requires pax.Listed() && LearnedPrefix(pax.Xs(), pax.base, pax.hole)
    requires Traced(pax.Xs(), pax.base, pax.hole, pax.origin, pax.trace) && Blocked(pax.Xs(), pax.base, pax.hole)
    requires at == StartAt(pax.Xs(), pax.base, pax.hole) && pax.istart == pax.ilist.links[at]
    ensures pax.Valid() <==> Backed(pax.Xs(), pax.origin, pax.rcache)
  {
  }
}
