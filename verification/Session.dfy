/** The session state the message handlers work on, and the invariant of the learner. */
module Session {
  import opened Primitives
  import opened DecreeLog
  import opened IntrusiveList
  import opened Instances

  /** `request_needs_cached` */
  predicate NeedsCached(k: Kind) {
    k == Chat || k == Join
  }

  // ---------------------------------------------------------------- the learner's invariant, on values

  /** The instances from base to the hole come first, all committed, cached and learned; from the hole on nothing
      is learned. */
  ghost predicate LearnedPrefix(xs: seq<Instance>, base: nat, hole: nat) {
    && base < hole <= base + |xs| && Sorted(xs)
    && (forall i {:trigger xs[i]} :: 0 <= i < hole - base ==>
          xs[i].inum == base + i && xs[i].committed && xs[i].cached && xs[i].learned)
    && (forall i {:trigger xs[i]} :: hole - base <= i < |xs| ==> xs[i].inum >= hole && !xs[i].learned)
  }

  /** A cached instance is committed; and if it needs a request and came after the session's origin, the request
      is in the cache. */
  ghost predicate Backed(xs: seq<Instance>, origin: nat, cache: set<ReqId>) {
    forall i {:trigger xs[i]} :: 0 <= i < |xs| && xs[i].cached ==>
      xs[i].committed && (NeedsCached(xs[i].value.kind) && xs[i].inum >= origin ==> xs[i].value.reqid in cache)
  }

  /** The values learned since the origin are those from there to the hole, in order. */
  ghost predicate Traced(xs: seq<Instance>, base: nat, hole: nat, origin: nat, trace: seq<Value>)
    requires base < hole <= base + |xs|
  {
    && origin <= hole && |trace| == hole - origin
    && (forall i {:trigger xs[i]} :: 0 <= i < hole - base && base + i >= origin ==> trace[base + i - origin] == xs[i].value)
  }

  ghost predicate Learning(xs: seq<Instance>, base: nat, hole: nat, origin: nat, cache: set<ReqId>, trace: seq<Value>) {
    LearnedPrefix(xs, base, hole) && Backed(xs, origin, cache) && Traced(xs, base, hole, origin, trace)
  }

  /** The instance numbered hole is there. */
  ghost predicate HoleThere(xs: seq<Instance>, base: nat, hole: nat)
    requires base < hole
  {
    hole - base < |xs| && xs[hole - base].inum == hole
  }

  /** The place istart points to: the instance numbered hole if there is one, and else the one before. */
  ghost function StartAt(xs: seq<Instance>, base: nat, hole: nat): (k: nat)
    requires base < hole
  {
    if HoleThere(xs, base, hole) then hole - base else hole - base - 1
  }

  /** Nothing more can be learned: the instance numbered hole is missing, uncommitted or uncached. */
  ghost predicate Blocked(xs: seq<Instance>, base: nat, hole: nat)
    requires base < hole
  {
    HoleThere(xs, base, hole) ==> !(xs[hole - base].committed && xs[hole - base].cached)
  }

  /** A chat or a join whose request is missing is never learned: those that were learned since the origin have theirs in
      the cache. */
  lemma LearnedWithRequest(xs: seq<Instance>, base: nat, hole: nat, origin: nat, cache: set<ReqId>, trace: seq<Value>,
                           n: nat)
    requires Learning(xs, base, hole, origin, cache, trace) && n < |trace|
    requires trace[n].kind == Chat || trace[n].kind == Join
    requires base <= origin + n
    ensures trace[n].reqid in cache
  {
    var i := origin + n - base;
    assert trace[base + i - origin] == xs[i].value;
  }

  /** t continues s. */
  ghost predicate Extends(t: seq<Value>, s: seq<Value>) {
    s <= t
  }

  lemma ExtendsFurther(s: seq<Value>, t: seq<Value>, v: Value)
    ensures Extends(s, s) && (Extends(t, s) ==> Extends(t + [v], s) && t[..|s|] == s)
  {
  }

  /** The instance `paxos_start` makes up. */
  function OwnJoin(): Instance {
    Instance(1, Pair(1, 1), Value(Join, Pair(1, 1), 0), true, true, true, 1, 0)
  }

  lemma OwnJoinLearns()
    ensures var xs := [OwnJoin()];
      && Sorted(xs) && Learning(xs, 1, 2, 2, {Pair(1, 1)}, []) && Blocked(xs, 1, 2) && StartAt(xs, 1, 2) == 0
      && LogOf(xs) == map[1 := SlotOf(OwnJoin())]
  {
    hide LogOf;
    OneLog([OwnJoin()], map[1 := SlotOf(OwnJoin())]);
  }

  lemma OneLink(inst: Link<Instance>)
    ensures InsertAt([], 0, inst) == [inst] && Vals([inst]) == [inst.elt]
  {
    hide Vals;
  }

  // ---------------------------------------------------------------- the session

  class Session {
    const self: nat
    const ilist: List<Instance>
    var ballot: Ballot
    var genHigh: nat
    var reqid: nat
    var base: nat
    var hole: nat
    var istart: Link<Instance>
    var rcache: set<ReqId>
    /** We believe to be the proposer, among so many acceptors. */
    var proposing: bool
    var acceptors: nat
    /** The values learned so far, in the order of learning, and the hole the session began with. */
    ghost var trace: seq<Value>
    ghost const origin: nat

    ghost function Xs(): seq<Instance>
      reads ilist`links, ilist.links`elt
    {
      ilist.Elts()
    }

    /** A sorted instance list. */
    ghost predicate Listed()
      reads ilist, ilist.links
    {
      ilist.Valid() && Sorted(Xs())
    }

    ghost function Log(): Log
      requires Listed()
      reads ilist, ilist.links
    {
      LogOf(Xs())
    }

    /** The learner's invariant, except that there may be something left to learn and istart may be off. */
    ghost predicate Learns()
      reads this`base, this`hole, this`rcache, this`trace, ilist, ilist.links
    {
      Listed() && Learning(Xs(), base, hole, origin, rcache, trace)
    }

    /** istart points to the instance numbered hole, or the last before it. */
    ghost predicate Pointed()
      requires Learns()
      reads this`base, this`hole, this`istart, this`rcache, this`trace, ilist, ilist.links
    {
      istart == ilist.links[StartAt(Xs(), base, hole)]
    }

    ghost predicate Valid()
      reads this`base, this`hole, this`istart, this`rcache, this`trace, ilist, ilist.links
    {
      Learns() && Pointed() && Blocked(Xs(), base, hole)
    }

    /** `paxos_start`: one committed instance, our own join. */
    constructor Start()
      ensures Valid() && fresh(ilist) && fresh(ilist.links) && base == 1 && hole == 2 && trace == [] && origin == 2
      ensures ballot == Pair(1, 1) && genHigh == 1 && self == 1 && proposing && acceptors == 1
      ensures Log() == map[1 := Slot(Pair(1, 1), Value(Join, Pair(1, 1), 0), true, 1)] && rcache == {Pair(1, 1)}
    {
      hide LogOf, List.Valid, Vals, Learning, Sorted, Blocked, StartAt, InsertAt;
      var inst := new Link(OwnJoin());
      var list := new List<Instance>();
      OneLink(inst);
      OwnJoinLearns();
      list.InsertHead(inst);
      self, ilist, ballot, genHigh, reqid := 1, list, Pair(1, 1), 1, 1;
      rcache := {Pair(1, 1)};
      base, hole, istart, trace, origin := 1, 2, inst, [], 2;
      proposing, acceptors := true, 1;
      new;
      assert Xs() == [OwnJoin()];
    }

    /** The session a newcomer starts from, once the list it was sent has been searched for the hole. */
    constructor Joined(self: nat, list: List<Instance>, ballot: Ballot, base: nat, hole: nat, istart: Link<Instance>,
                       acceptors: nat)
      requires list.Valid() && LearnedPrefix(list.Elts(), base, hole) && Blocked(list.Elts(), base, hole)
      requires Backed(list.Elts(), hole, {}) && istart == list.links[StartAt(list.Elts(), base, hole)]
      ensures Valid() && ilist == list && trace == [] && origin == hole && rcache == {} && !proposing
      ensures this.self == self && this.ballot == ballot && genHigh == ballot.gen && this.acceptors == acceptors
      ensures this.base == base && this.hole == hole && this.istart == istart && reqid == 0
    {
      this.self, ilist, this.ballot, genHigh, reqid := self, list, ballot, ballot.gen, 0;
      rcache := {};
      this.base, this.hole, this.istart, trace, origin := base, hole, istart, [], hole;
      proposing, this.acceptors := false, acceptors;
    }
  }
}
