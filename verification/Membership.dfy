/** The acceptor list as replicated state: a fold of the learned joins, parts and kills. */
module Membership {
  import opened Primitives
  import opened DecreeLog
  import opened Protocol
  import Agreement

  /** What `paxos_learn` does to the acceptor list for the value of instance n.  A joiner gets the number of its
      instance as its id; parting someone who is not there does nothing. */
  function LearnOne(alist: set<Id>, n: nat, v: Value): set<Id> {
    match v.kind
    case Join => alist + {n}
    case Part => alist - {v.extra}
    case Kill => alist - {v.extra}
    case _ => alist
  }

  /** The list after learning vs, numbered from base. */
  function LearnAll(alist: set<Id>, base: nat, vs: seq<Value>): set<Id> {
    if vs == [] then alist
    else LearnOne(LearnAll(alist, base, vs[..|vs| - 1]), base + |vs| - 1, vs[|vs| - 1])
  }

  /** The acceptor list a node has after k events of a run. */
  ghost function List(c: Config, run: seq<Event>, k: nat, i: Id, start: set<Id>): set<Id>
    requires c.Valid() && Orderly(c, run) && k <= |run| && i in c.members
  {
    LearnAll(start, c.base, Agreement.Learned(c, run, k, i))
  }

  lemma {:induction false} LearnPrefix(alist: set<Id>, base: nat, xs: seq<Value>, ys: seq<Value>)
    requires xs <= ys
    ensures LearnAll(alist, base, ys) == LearnAll(LearnAll(alist, base, xs), base + |xs|, ys[|xs|..])
  {
    if xs == ys {
      assert ys[|xs|..] == [];
    } else {
      var zs := ys[|xs|..];
      assert zs[..|zs| - 1] == ys[..|ys| - 1][|xs|..];
      LearnPrefix(alist, base, xs, ys[..|ys| - 1]);
    }
  }

  /** From place d on, nothing learned parts or kills x. */
  ghost predicate Spared(vs: seq<Value>, d: nat, x: Id) {
    forall e {:trigger vs[e]} :: d <= e < |vs| ==> !((vs[e].kind == Part || vs[e].kind == Kill) && vs[e].extra == x)
  }

  /** The join numbered x was learned, and since then nothing has parted or killed x. */
  ghost predicate Joined(base: nat, vs: seq<Value>, x: Id) {
    base <= x < base + |vs| && vs[x - base].kind == Join && Spared(vs, x - base + 1, x)
  }

  /** Who is on the list: those that were on it, and those whose join was learned under their number, except whom a later
      part or kill names. */
  lemma {:induction false} OnList(alist: set<Id>, base: nat, vs: seq<Value>, x: Id)
    ensures x in LearnAll(alist, base, vs) <==> (x in alist && Spared(vs, 0, x)) || Joined(base, vs, x)
  {
    if vs != [] {
      var last := |vs| - 1;
      OnList(alist, base, vs[..last], x);
      SparedMore(vs, 0, x);
      if base <= x < base + last {
        SparedMore(vs, x - base + 1, x);
      }
    }
  }

  lemma SparedMore(vs: seq<Value>, d: nat, x: Id)
    requires vs != [] && d < |vs|
    ensures var v := vs[|vs| - 1];
      Spared(vs, d, x) <==> Spared(vs[..|vs| - 1], d, x) && !((v.kind == Part || v.kind == Kill) && v.extra == x)
  {
    var most := vs[..|vs| - 1];
    if Spared(vs, d, x) {
      forall e {:trigger most[e]} | d <= e < |most|
        ensures !((most[e].kind == Part || most[e].kind == Kill) && most[e].extra == x)
      {
        assert most[e] == vs[e];
      }
    }
    if Spared(most, d, x) {
      assert forall e :: d <= e < |most| ==> most[e] == vs[e];
    }
  }

  /** Nodes whose holes are equal have equal acceptor lists, at whatever moments; and a node whose hole is lower
      has exactly the list the other had when its hole was there. */
  lemma SameHoleSameList(c: Config, run: seq<Event>, k: nat, l: nat, i: Id, j: Id, start: set<Id>)
    requires c.Valid() && Orderly(c, run) && k <= |run| && l <= |run| && i in c.members && j in c.members
    requires |Agreement.Learned(c, run, k, i)| <= |Agreement.Learned(c, run, l, j)|
    ensures var x, y := Agreement.Learned(c, run, k, i), Agreement.Learned(c, run, l, j);
      && List(c, run, l, j, start) == LearnAll(List(c, run, k, i, start), c.base + |x|, y[|x|..])
      && (|x| == |y| ==> List(c, run, l, j, start) == List(c, run, k, i, start))
  {
    hide IsRun, After, Agreement.Learned;
    Agreement.TotalOrder(c, run, k, l, i, j);
    LearnPrefix(start, c.base, Agreement.Learned(c, run, k, i), Agreement.Learned(c, run, l, j));
  }

  // ---------------------------------------------------------------- quorums of neighbouring lists

  ghost predicate MajorityOf(q: set<Id>, alist: set<Id>) {
    q <= alist && |q| >= Majority(|alist|)
  }

  lemma Overlap(q: set<Id>, r: set<Id>, all: set<Id>)
    requires q <= all && r <= all && |q| + |r| > |all|
    ensures q * r != {}
  {
    SubsetCard(q + r, all);
    assert |q + r| == |q| + |r| - |q * r|;
  }

  /** Learning one value changes the list by at most one acceptor, so a majority before and a majority after
      always share an acceptor. */
  lemma NeighbouringMajorities(alist: set<Id>, n: nat, v: Value, q: set<Id>, r: set<Id>)
    requires MajorityOf(q, alist) && MajorityOf(r, LearnOne(alist, n, v))
    ensures q * r != {}
  {
    var next := LearnOne(alist, n, v);
    if next == alist {
      Overlap(q, r, alist);
    } else if v.kind == Join {
      Overlap(q, r, next);
    } else {
      assert alist == next + {v.extra};
      Overlap(q, r, alist);
    }
  }

  /** Two values are too many: after two joins a majority of the old list may miss one of the new. */
  lemma DistantMajorities() returns (alist: set<Id>, q: set<Id>, r: set<Id>, v: Value)
    ensures MajorityOf(q, alist) && MajorityOf(r, LearnAll(alist, 5, [v, v])) && q * r == {}
  {
    v := Value(Join, Pair(1, 1), 0);
    alist, q, r := {1}, {1}, {5, 6};
    assert [v, v][..1] == [v] && [v][..0] == [];
    assert LearnAll(alist, 5, [v]) == {1, 5};
    assert LearnAll(alist, 5, [v, v]) == {1, 5, 6};
  }
}
