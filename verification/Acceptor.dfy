/** The acceptor's handlers. */
module Acceptor {
  import opened Primitives
  import opened DecreeLog
  import opened IntrusiveList
  import opened Instances
  import opened Session
  import opened Learner
  import SortedList

  // ---------------------------------------------------------------- on values

  /** A new instance at the hole or beyond keeps the learner's state; istart moves only if it is the hole. */
  lemma InsertKeeps(xs: seq<Instance>, base: nat, hole: nat, origin: nat, cache: set<ReqId>, trace: seq<Value>,
                    k: nat, x: Instance)
    requires Learning(xs, base, hole, origin, cache, trace) && Fits(xs, k, x.inum) && x.inum >= base
    requires !x.committed && !x.cached && !x.learned
    ensures base < hole && k >= hole - base && x.inum >= hole
    ensures Learning(InsertAt(xs, k, x), base, hole, origin, cache, trace)
    ensures StartAt(InsertAt(xs, k, x), base, hole) == if x.inum == hole then k else StartAt(xs, base, hole)
    ensures x.inum == hole ==> k == hole - base
    ensures x.inum != hole ==> StartAt(xs, base, hole) < k
    ensures Blocked(xs, base, hole) ==> Blocked(InsertAt(xs, k, x), base, hole)
  {
    InsertSorted(xs, k, x);
  }

  /** A learner's list begins at the base. */
  lemma FromBase(pax: Session)
    requires pax.Learns()
    ensures pax.base < pax.hole && forall n :: n in pax.Log() ==> n >= pax.base
  {
    hide LogOf, List.Valid, Vals;
    forall n | n in pax.Log()
      ensures n >= pax.base
    {
      var j := PlaceOf(pax.Xs(), n);
    }
  }

  lemma NotBelow(pax: Session, n: nat)
    requires pax.Listed() && n in pax.Log() && n < pax.base
    ensures PlaceOfStart(pax) == Wrong
  {
    hide LogOf, List.Valid, Vals, Learning, Session.Pointed, Blocked, Sorted, PlaceOfStart;
    PlaceTells(pax);
    if pax.Learns() {
      FromBase(pax);
    }
  }

  // ---------------------------------------------------------------- the instance list

  /** `instance_find` */
  method FindInstance(pax: Session, n: nat) returns (r: Link?<Instance>, ghost k: nat)
    requires pax.Listed()
    ensures r != null ==> k < |pax.ilist.links| && r == pax.ilist.links[k] && r.elt.inum == n
                          && n in pax.Log() && pax.Log()[n] == SlotOf(r.elt)
    ensures r == null <==> n !in pax.Log()
  {
    hide LogOf, SortedList.Place, Sorted, Vals;
    PaxidOrder();
    SortedIsOrdered(pax.Xs());
    r, k := SortedList.FindRev(pax.ilist, n, Inum, PaxidCompare);
    if r == null {
      Absent(pax.Xs(), n);
    } else {
      LogAt(pax.Xs(), k, n);
    }
  }

  lemma Absent(xs: seq<Instance>, n: nat)
    requires Sorted(xs) && forall x :: x in xs ==> Inum(x) != n
    ensures n !in LogOf(xs)
  {
  }

  /** `instance_insert` of an instance that is not there yet. */
  method InsertInstance(pax: Session, inst: Link<Instance>) returns (ghost k: nat)
    requires pax.Listed() && inst !in pax.ilist.links && inst.elt.inum !in pax.Log()
    modifies pax.ilist, pax.ilist.links`next, pax.ilist.links`prev, inst`next, inst`prev
    ensures pax.Listed() && k <= |old(pax.ilist.links)|
    ensures pax.ilist.links == InsertAt(old(pax.ilist.links), k, inst)
    ensures pax.Xs() == InsertAt(old(pax.Xs()), k, inst.elt) && Fits(old(pax.Xs()), k, inst.elt.inum)
  {
    hide LogOf, Sorted, Vals, SortedList.Place, Fits, List.Valid, InsertAt, SortedList.Ordered, TotalOrder;
    ghost var xs, x, links := pax.Xs(), inst.elt, pax.ilist.links;
    PaxidOrder();
    SortedIsOrdered(xs);
    NotThere(xs, x.inum);
    var r;
    r, k := SortedList.InsertRev(pax.ilist, inst, Inum, PaxidCompare);
    PlaceFits(xs, k, x.inum);
    LogAt(xs, k, x.inum);
    ValsInsert(links, k, inst);
    LogInsert(xs, k, x);
  }

  /** inst is not a link that istart leads through outside the list. */
  ghost predicate Apart(pax: Session, inst: Link<Instance>)
    reads pax`istart, pax.ilist`links, pax.istart`next
  {
    pax.istart !in pax.ilist.links ==> inst != pax.istart && inst != pax.istart.next
  }

  /** `instance_insert_and_upstart` of an instance that is not there yet.  Below the base it breaks the learner. */
  method InsertAndUpstart(pax: Session, inst: Link<Instance>) returns (ghost k: nat)
    requires PlaceOfStart(pax) != Wrong && inst !in pax.ilist.links && Apart(pax, inst)
    requires var x := inst.elt; x.inum !in pax.Log() && !x.committed && !x.cached && !x.learned
    modifies pax`istart, pax.ilist, pax.ilist.links`next, pax.ilist.links`prev, inst`next, inst`prev
    ensures pax.Listed() && pax.Log() == old(pax.Log())[inst.elt.inum := SlotOf(inst.elt)]
    ensures if inst.elt.inum < pax.base then PlaceOfStart(pax) == Wrong
            else PlaceOfStart(pax) == old(PlaceOfStart(pax))
    ensures pax.istart == if inst.elt.inum == pax.hole then inst else old(pax.istart)
    ensures k <= |old(pax.ilist.links)| && pax.ilist.links == InsertAt(old(pax.ilist.links), k, inst)
  {
    hide LogOf, Sorted, Vals, Learning, Blocked, StartAt, Fits, List.Valid, InsertAt, Session.Xs, PlaceOfStart;
    PlaceTells(pax);
    FromBase(pax);
    ghost var place := PlaceOfStart(pax);
    k := InsertListed(pax, inst);
    if inst.elt.inum >= pax.base {
      PlaceIs(pax, place);
    } else {
      NotBelow(pax, inst.elt.inum);
    }
  }

  /** The insertion itself. */
  method InsertListed(pax: Session, inst: Link<Instance>) returns (ghost k: nat)
    requires pax.Learns() && inst !in pax.ilist.links && pax.base < pax.hole
    requires var x := inst.elt; x.inum !in pax.Log() && !x.committed && !x.cached && !x.learned
    modifies pax`istart, pax.ilist, pax.ilist.links`next, pax.ilist.links`prev, inst`next, inst`prev
    ensures pax.Listed() && pax.Log() == old(pax.Log())[inst.elt.inum := SlotOf(inst.elt)]
    ensures inst.elt.inum >= pax.base ==> pax.Learns() && (old(pax.Valid()) ==> pax.Valid())
    ensures pax.istart == if inst.elt.inum == pax.hole then inst else old(pax.istart)
    ensures k <= |old(pax.ilist.links)| && pax.ilist.links == InsertAt(old(pax.ilist.links), k, inst)
    ensures forall l :: l in pax.ilist.links <==> l in old(pax.ilist.links) || l == inst
  {
    hide LogOf, Sorted, Vals, Learning, Blocked, StartAt, Fits, List.Valid, InsertAt, Session.Xs;
    ghost var xs, x, links := pax.Xs(), inst.elt, pax.ilist.links;
    k := InsertInstance(pax, inst);
    LogInsert(xs, k, x);
    InsertMembers(links, k, inst);
    if x.inum >= pax.base {
      InsertKeeps(xs, pax.base, pax.hole, pax.origin, pax.rcache, pax.trace, k, x);
      StartsAt(links, k, inst, StartAt(xs, pax.base, pax.hole));
    }
    if inst.elt.inum == pax.hole {
      pax.istart := inst;
    }
  }

  lemma StartsAt<T>(s: seq<T>, k: nat, x: T, l: nat)
    requires k <= |s|
    ensures InsertAt(s, k, x)[k] == x
    ensures l < k ==> InsertAt(s, k, x)[l] == s[l]
  {
  }

  lemma NotThere(xs: seq<Instance>, n: nat)
    requires Sorted(xs) && n !in LogOf(xs)
    ensures forall x :: x in xs ==> Inum(x) != n
  {
  }

  // ---------------------------------------------------------------- decrees

  datatype Reply = Silence | Accepted | Rejected | Abort

  /** The value asserts of `acceptor_ack_decree`. */
  predicate SameDecree(x: Value, y: Value) {
    x.kind == y.kind && x.reqid == y.reqid
  }

  /** A newly allocated instance, with nothing but its header set. */
  function Fresh(n: nat, b: Ballot): Instance {
    Instance(n, b, Value(Null, Pair(0, 0), 0), false, false, false, 0, 0)
  }

  /** `acceptor_ack_decree`.  `partLive` says that the value parts an acceptor we are connected to.  The learner goes
      on undisturbed unless a decree of our ballot is numbered below the base. */
  method AckDecree(pax: Session, b: Ballot, n: nat, v: Value, partLive: bool) returns (reply: Reply)
    requires PlaceOfStart(pax) != Wrong
    modifies pax`istart, pax.ilist, pax.ilist.links
    ensures pax.Listed()
    ensures var log, ours := old(pax.Log()), b == pax.ballot && !(v.kind == Part && partLive);
      && PlaceOfStart(pax) == (if ours && n < pax.base then Wrong else old(PlaceOfStart(pax)))
      && pax.Log() == (if ours then AfterDecree(log, b, n, v) else log)
      && (reply == Abort <==> ours && n in log && log[n].committed
                              && (log[n].value.kind != v.kind || log[n].value.reqid != v.reqid))
      && (reply == Accepted <==> ours && Accepts(log, b, n) && reply != Abort)
      && (reply == Rejected <==> b == pax.ballot && v.kind == Part && partLive)
    ensures forall i :: 0 <= i < |pax.ilist.links| ==>
              pax.ilist.links[i] in old(pax.ilist.links) || fresh(pax.ilist.links[i])
  {
    hide LogOf, Vals, Session.Xs, Learning, Session.Pointed, Blocked, List.Valid, Sorted, PlaceOfStart, AfterDecree,
      Accepts;
    PlaceTells(pax);
    CompareMeaning(b, pax.ballot);
    if PairCompare(b, pax.ballot) != 0 {
      return Silence;
    }
    if v.kind == Part && partLive {
      return Rejected;
    }
    reply := TakeDecree(pax, b, n, v);
  }

  /** A decree of our ballot that we do not reject. */
  method TakeDecree(pax: Session, b: Ballot, n: nat, v: Value) returns (reply: Reply)
    requires PlaceOfStart(pax) != Wrong
    modifies pax`istart, pax.ilist, pax.ilist.links
    ensures pax.Listed() && PlaceOfStart(pax) == (if n < pax.base then Wrong else old(PlaceOfStart(pax)))
    ensures var log := old(pax.Log());
      && pax.Log() == AfterDecree(log, b, n, v)
      && (reply == Abort <==> n in log && log[n].committed && !SameDecree(log[n].value, v))
      && (reply == Accepted <==> Accepts(log, b, n) && reply != Abort) && reply != Rejected
    ensures forall i :: 0 <= i < |pax.ilist.links| ==>
              pax.ilist.links[i] in old(pax.ilist.links) || fresh(pax.ilist.links[i])
  {
    hide LogOf, Vals, Session.Xs, Learning, Session.Pointed, Blocked, List.Valid, Sorted, InsertAt, PlaceOfStart;
    PlaceTells(pax);
    FromBase(pax);
    var inst, k := FindInstance(pax, n);
    if inst == null {
      inst := new Link(Fresh(n, b).(value := v));
      k := InsertAndUpstart(pax, inst);
      InsertMembers(old(pax.ilist.links), k, inst);
      return Accepted;
    }
    if inst.elt.committed {
      if !SameDecree(inst.elt.value, v) {
        return Abort;
      }
      return Accepted;
    }
    CompareMeaning(b, inst.elt.ballot);
    if PairCompare(b, inst.elt.ballot) >= 0 {
      OpenInstance(pax, k);
      Overwrite(pax, inst, inst.elt.(ballot := b, value := v), k);
      return Accepted;
    }
    return Silence;
  }

  // ---------------------------------------------------------------- commits

  /** The instance numbered n, made if it is missing. */
  method FindOrInsert(pax: Session, b: Ballot, n: nat) returns (inst: Link<Instance>, ghost k: nat)
    requires PlaceOfStart(pax) != Wrong
    modifies pax`istart, pax.ilist, pax.ilist.links
    ensures pax.Listed() && pax.base < pax.hole
    ensures if n < pax.base then PlaceOfStart(pax) == Wrong
            else PlaceOfStart(pax) == old(PlaceOfStart(pax))
    ensures k < |pax.ilist.links| && pax.ilist.links[k] == inst
    ensures var log := old(pax.Log());
      && pax.Log() == (if n in log then log else log[n := SlotOf(Fresh(n, b))])
      && SlotOf(inst.elt) == pax.Log()[n] && inst.elt.inum == n && (n < pax.base ==> n !in log)
    ensures forall i :: 0 <= i < |pax.ilist.links| ==>
              pax.ilist.links[i] in old(pax.ilist.links) || fresh(pax.ilist.links[i])
  {
    hide LogOf, Vals, Session.Xs, Learning, Session.Pointed, Blocked, List.Valid, Sorted, InsertAt, PlaceOfStart;
    PlaceTells(pax);
    FromBase(pax);
    var found;
    found, k := FindInstance(pax, n);
    if found != null {
      inst := found;
      return;
    }
    inst := new Link(Fresh(n, b));
    k := InsertAndUpstart(pax, inst);
    InsertMembers(old(pax.ilist.links), k, inst);
  }

  /** The commit of v is at the hole, new, and has its request. */
  ghost predicate Learnable(log: Log, hole: nat, cache: set<ReqId>, n: nat, v: Value) {
    n == hole && !(n in log && log[n].committed) && (NeedsCached(v.kind) ==> v.reqid in cache)
  }

  /** Write anywhere in the list. */
  method Rewrite(pax: Session, inst: Link<Instance>, y: Instance, ghost k: nat)
    requires pax.Listed() && k < |pax.ilist.links| && pax.ilist.links[k] == inst && y.inum == inst.elt.inum
    modifies inst`elt
    ensures inst.elt == y && pax.Listed() && pax.Log() == old(pax.Log())[y.inum := SlotOf(y)]
  {
    hide LogOf, Vals, List.Valid, Sorted;
    LogUpdate(pax.Xs(), k, y);
    pax.ilist.Store(inst, y, k);
  }

  /** Give an uncommitted instance the value of a commit, and commit it.  Below the base, where no instance belongs,
      that fails the assert of `paxos_commit` about the hole unless the request is missing. */
  method CommitValue(pax: Session, inst: Link<Instance>, v: Value, ghost k: nat) returns (abort: bool)
    requires pax.Listed() && pax.base < pax.hole && (PlaceOfStart(pax) == Wrong <==> inst.elt.inum < pax.base)
    requires k < |pax.ilist.links| && pax.ilist.links[k] == inst && !inst.elt.committed
    modifies pax`hole, pax`istart, pax`trace, pax.ilist.links`elt
    ensures pax.Listed() && Extends(pax.trace, old(pax.trace)) && pax.hole >= old(pax.hole)
    ensures var x := old(inst.elt); pax.Log() == old(pax.Log())[x.inum := SlotOf(x.(value := v, committed := true))]
    ensures var n, place, next := old(inst.elt.inum), old(PlaceOfStart(pax)), AtHole(old(PlaceOfStart(pax)));
      var here := Learnable(map[], old(pax.hole), pax.rcache, n, v);
      && (abort <==> if n < pax.base then NeedsCached(v.kind) ==> v.reqid in pax.rcache else here && next == Wrong)
      && (!abort ==> PlaceOfStart(pax) == if here then next else place)
      && (pax.hole > old(pax.hole) <==> here && next == Right)
  {
    hide LogOf, Vals, Session.Xs, Learning, Session.Pointed, Blocked, List.Valid, Sorted, Extends, PlaceOfStart;
    PlaceTells(pax);
    ExtendsFurther(pax.trace, pax.trace, v);
    if inst.elt.inum < pax.base {
      Rewrite(pax, inst, inst.elt.(value := v, committed := true), k);
      NotBelow(pax, inst.elt.inum);
      if NeedsCached(v.kind) && v.reqid !in pax.rcache {
        return false;
      }
      return inst.elt.inum < pax.hole;
    }
    OpenInstance(pax, k);
    Overwrite(pax, inst, inst.elt.(value := v), k);
    var out := Commit(pax, inst, k);
    return out == Stopped;
  }

  /** `acceptor_ack_commit`.  Below the base it aborts unless it has to wait for its request, and at the hole it aborts if
      istart cannot be moved there. */
  method AckCommit(pax: Session, b: Ballot, n: nat, v: Value) returns (abort: bool)
    requires PlaceOfStart(pax) != Wrong
    modifies pax`istart, pax`hole, pax`trace, pax.ilist, pax.ilist.links
    ensures pax.Listed() && pax.Log() == AfterCommit(old(pax.Log()), b, n, v)
    ensures Extends(pax.trace, old(pax.trace)) && pax.hole >= old(pax.hole)
    ensures Committed(old(pax.Log()), old(pax.hole), old(PlaceOfStart(pax)), pax, n, v, abort)
    ensures forall i :: 0 <= i < |pax.ilist.links| ==>
              pax.ilist.links[i] in old(pax.ilist.links) || fresh(pax.ilist.links[i])
  {
    hide LogOf, Vals, Session.Xs, Session.Learns, Session.Listed, Session.Log, Session.Pointed, Blocked, Extends, SlotOf,
      Fresh, PlaceOfStart;
    ExtendsFurther(pax.trace, pax.trace, v);
    var inst, k := FindOrInsert(pax, b, n);
    SlotMeans(inst.elt, v);
    SlotMeans(Fresh(n, b), v);
    if inst.elt.committed {
      return false;
    }
    abort := CommitValue(pax, inst, v, k);
  }

  /** What a commit or recommit of v as n does to the learner, given its log, its hole and where istart pointed
      before. */
  ghost predicate Committed(log: Log, hole: nat, place: Place, pax: Session, n: nat, v: Value, abort: bool)
    reads pax`base, pax`hole, pax`istart, pax`rcache, pax`trace, pax.ilist, pax.ilist.links,
          pax.istart, if pax.istart.next == null then {} else {pax.istart.next}
  {
    var here, next := Learnable(log, hole, pax.rcache, n, v), AtHole(place);
    && (abort <==> if n < pax.base then NeedsCached(v.kind) ==> v.reqid in pax.rcache else here && next == Wrong)
    && (!abort ==> PlaceOfStart(pax) == if n < pax.base then Wrong else if here then next else place)
    && (pax.hole > hole <==> here && next == Right)
  }

  lemma SlotMeans(x: Instance, v: Value)
    ensures SlotOf(x).committed == x.committed
    ensures SlotOf(x.(value := v, committed := true)) == SlotOf(x).(value := v, committed := true)
    ensures forall n, b :: SlotOf(Fresh(n, b)) == Slot(b, Value(Null, Pair(0, 0), 0), false, 0)
  {
  }

  /** Give an uncommitted instance the header and the value of a recommit, and commit it. */
  method CommitUnder(pax: Session, inst: Link<Instance>, b: Ballot, v: Value, ghost k: nat) returns (abort: bool)
    requires pax.Listed() && pax.base < pax.hole && (PlaceOfStart(pax) == Wrong <==> inst.elt.inum < pax.base)
    requires k < |pax.ilist.links| && pax.ilist.links[k] == inst && !inst.elt.committed
    modifies pax`hole, pax`istart, pax`trace, pax.ilist.links`elt
    ensures pax.Listed() && Extends(pax.trace, old(pax.trace)) && pax.hole >= old(pax.hole)
    ensures var x := old(inst.elt);
      pax.Log() == old(pax.Log())[x.inum := SlotOf(x.(ballot := b, value := v, committed := true))]
    ensures var n, place, next := old(inst.elt.inum), old(PlaceOfStart(pax)), AtHole(old(PlaceOfStart(pax)));
      var here := Learnable(map[], old(pax.hole), pax.rcache, n, v);
      && (abort <==> if n < pax.base then NeedsCached(v.kind) ==> v.reqid in pax.rcache else here && next == Wrong)
      && (!abort ==> PlaceOfStart(pax) == if here then next else place)
      && (pax.hole > old(pax.hole) <==> here && next == Right)
  {
    hide LogOf, Vals, Session.Xs, Learning, Session.Pointed, Blocked, List.Valid, Sorted, Extends, SlotOf,
      PlaceOfStart;
    PlaceTells(pax);
    if inst.elt.inum >= pax.base {
      OpenInstance(pax, k);
      Overwrite(pax, inst, inst.elt.(ballot := b), k);
    } else {
      Rewrite(pax, inst, inst.elt.(ballot := b), k);
      NotBelow(pax, inst.elt.inum);
    }
    abort := CommitValue(pax, inst, v, k);
  }

  /** `acceptor_ack_recommit`: the header is taken over, too. */
  method AckRecommit(pax: Session, b: Ballot, n: nat, v: Value) returns (abort: bool)
    requires PlaceOfStart(pax) != Wrong
    modifies pax`istart, pax`hole, pax`trace, pax.ilist, pax.ilist.links
    ensures pax.Listed() && pax.Log() == AfterRecommit(old(pax.Log()), b, n, v)
    ensures Extends(pax.trace, old(pax.trace)) && pax.hole >= old(pax.hole)
    ensures Committed(old(pax.Log()), old(pax.hole), old(PlaceOfStart(pax)), pax, n, v, abort)
  {
    hide LogOf, Vals, Session.Xs, Session.Learns, Session.Listed, Session.Log, Session.Pointed, Blocked, Extends, SlotOf,
      Fresh, PlaceOfStart;
    ExtendsFurther(pax.trace, pax.trace, v);
    var inst, k := FindOrInsert(pax, b, n);
    SlotMeans(inst.elt, v);
    SlotMeans(Fresh(n, b), v);
    HeaderMeans(inst.elt, b, v);
    if inst.elt.committed {
      return false;
    }
    abort := CommitUnder(pax, inst, b, v, k);
  }

  lemma HeaderMeans(x: Instance, b: Ballot, v: Value)
    ensures SlotOf(x.(ballot := b, value := v, committed := true)) == Slot(b, v, true, SlotOf(x).votes)
  {
  }
}
