/** Answering a prepare with the votes from the preparer's hole on. */
module PromiseReply {
  import opened Primitives
  import opened DecreeLog
  import opened IntrusiveList
  import opened Instances
  import opened Session

  /** What of an instance goes over the wire. */
  function Wire(x: Instance): Instance {
    x.(cached := false, learned := false, votes := 0, rejects := 0)
  }

  function Wires(xs: seq<Instance>): (ws: seq<Instance>)
    ensures |ws| == |xs| && forall i {:trigger ws[i]} :: 0 <= i < |ws| ==> ws[i] == Wire(xs[i])
  {
    seq(|xs|, i requires 0 <= i < |xs| => Wire(xs[i]))
  }

  /** The ballots and values of a log. */
  ghost function Votes(log: Log): map<nat, Vote> {
    map n | n in log :: Vote(log[n].ballot, log[n].value)
  }

  /** The votes in a promise. */
  ghost function VotesOf(ws: seq<Instance>): map<nat, Vote>
    requires Sorted(ws)
  {
    Votes(LogOf(ws))
  }

  /** k is the place of the greatest instance not beyond hole. */
  ghost predicate LastUpTo(xs: seq<Instance>, k: nat, hole: nat) {
    k < |xs| && xs[k].inum <= hole && (k + 1 < |xs| ==> xs[k + 1].inum > hole)
  }

  lemma ReportedFrom(xs: seq<Instance>, k: nat, hole: nat, n: nat)
    requires Sorted(xs) && LastUpTo(xs, k, hole)
    ensures Reported(LogOf(xs), hole, n) <==> n in LogOf(xs) && n >= xs[k].inum
  {
    hide LogOf;
    assert xs[k] in xs;
    if n in LogOf(xs) && n >= xs[k].inum {
      forall m | m in LogOf(xs) && m <= hole ensures m <= xs[k].inum {
        var j := PlaceOf(xs, m);
      }
      var j := PlaceOf(xs, n);
      assert j > k ==> xs[j].inum >= xs[k + 1].inum;
    }
    if Reported(LogOf(xs), hole, n) {
      assert xs[k].inum in LogOf(xs);
    }
  }

  lemma SuffixSorted(xs: seq<Instance>, k: nat)
    requires Sorted(xs) && k < |xs|
    ensures Sorted(Wires(xs[k..]))
  {
  }

  lemma WireNumber(x: Instance)
    ensures Wire(x).inum == x.inum && Wire(x).ballot == x.ballot && Wire(x).value == x.value
  {
  }

  lemma SuffixHas(xs: seq<Instance>, k: nat, n: nat)
    requires Sorted(xs) && k < |xs| && Sorted(Wires(xs[k..])) && n in LogOf(xs) && n >= xs[k].inum
    ensures n in LogOf(Wires(xs[k..]))
  {
    hide LogOf, Wire;
    var j := PlaceOf(xs, n);
    WireNumber(xs[j]);
    assert Wires(xs[k..])[j - k] in Wires(xs[k..]);
  }

  lemma SuffixVote(xs: seq<Instance>, k: nat, n: nat)
    requires Sorted(xs) && k < |xs| && Sorted(Wires(xs[k..])) && n in LogOf(Wires(xs[k..]))
    ensures n in LogOf(xs) && n >= xs[k].inum
    ensures var x, y := LogOf(Wires(xs[k..]))[n], LogOf(xs)[n]; x.ballot == y.ballot && x.value == y.value
  {
    hide LogOf, Wire;
    var ws := Wires(xs[k..]);
    var i := PlaceOf(ws, n);
    assert i > 0 ==> xs[k].inum < xs[k + i].inum;
    WireNumber(xs[k + i]);
    assert xs[k + i] in xs;
  }

  /** The wires from that place on are exactly the report for the hole. */
  lemma SuffixReports(xs: seq<Instance>, k: nat, hole: nat)
    requires Sorted(xs) && LastUpTo(xs, k, hole)
    ensures Sorted(Wires(xs[k..])) && VotesOf(Wires(xs[k..])) == Report(LogOf(xs), hole)
  {
    hide LogOf, Wires, Sorted, Reported;
    SuffixSorted(xs, k);
    var ws := Wires(xs[k..]);
    forall n | n in LogOf(ws)
      ensures Reported(LogOf(xs), hole, n) && n in LogOf(xs)
      ensures LogOf(ws)[n].ballot == LogOf(xs)[n].ballot && LogOf(ws)[n].value == LogOf(xs)[n].value
    {
      SuffixVote(xs, k, n);
      ReportedFrom(xs, k, hole, n);
    }
    forall n | n in LogOf(xs) && Reported(LogOf(xs), hole, n) ensures n in LogOf(ws) {
      ReportedFrom(xs, k, hole, n);
      SuffixHas(xs, k, n);
    }
  }

  lemma SuffixStarts(xs: seq<Instance>, k: nat)
    requires k < |xs|
    ensures |Wires(xs[k..])| == |xs| - k && Wires(xs[k..])[0].inum == xs[k].inum
  {
  }

  /** The counting loop of `acceptor_promise`: backwards to the greatest instance not beyond the preparer's hole. */
  method CountBack(pax: Session, hole: nat) returns (it: Link?<Instance>, count: nat)
    requires pax.Listed()
    ensures var xs, links := pax.Xs(), pax.ilist.links;
      if it == null then count == |xs| && forall x :: x in xs ==> x.inum > hole
      else 0 < count <= |xs| && it == links[|xs| - count] && LastUpTo(xs, |xs| - count, hole)
  {
    hide LogOf, Vals, List.Valid, Sorted;
    ghost var xs := pax.Xs();
    ghost var k: nat := |xs|;
    count := 0;
    pax.ilist.Ends();
    it := pax.ilist.last;
    while it != null
      invariant k <= |xs| && it == if k > 0 then pax.ilist.links[k - 1] else null
      invariant count == |xs| - k && forall i {:trigger xs[i]} :: k <= i < |xs| ==> xs[i].inum > hole
      decreases k
    {
      pax.ilist.Around(k - 1);
      count := count + 1;
      if hole >= it.elt.inum {
        break;
      }
      it := it.prev;
      k := k - 1;
    }
  }

  /** The packing loop: from there to the end. */
  method PackFrom(pax: Session, start: Link?<Instance>, ghost k: nat) returns (packed: seq<Instance>)
    requires pax.Listed() && start == if k < |pax.ilist.links| then pax.ilist.links[k] else null
    ensures packed == if k < |pax.Xs()| then Wires(pax.Xs()[k..]) else []
  {
    hide LogOf, Vals, List.Valid, Sorted, Wire;
    ghost var xs := pax.Xs();
    ghost var j := k;
    var it := start;
    packed := [];
    while it != null
      invariant k < |xs| ==> k <= j <= |xs| && packed == Wires(xs[k..j])
      invariant k >= |xs| ==> packed == []
      invariant it == if j < |xs| then pax.ilist.links[j] else null
      decreases |xs| - j
    {
      pax.ilist.Around(j);
      packed := packed + [Wire(it.elt)];
      assert xs[k..j + 1] == xs[k..j] + [xs[j]];
      assert Wires(xs[k..j + 1]) == Wires(xs[k..j]) + [Wire(xs[j])];
      it := it.next;
      j := j + 1;
    }
    if k < |xs| {
      assert xs[k..|xs|] == xs[k..];
    }
  }

  /** `acceptor_promise`: take over the ballot, declare a count, and pack.  The count is that of the packed votes,
      and they are the report for the preparer's hole, if the list reaches back to the hole. */
  method Promise(pax: Session, b: Ballot, hole: nat) returns (count: nat, packed: seq<Instance>)
    requires pax.Listed()
    modifies pax`ballot, pax`genHigh
    ensures pax.ballot == b && pax.genHigh == b.gen
    ensures (exists x :: x in pax.Xs() && x.inum <= hole) ==>
              && Sorted(packed) && VotesOf(packed) == Report(pax.Log(), hole)
              && count == |packed| && packed != [] && packed[0].inum <= hole
    ensures !(exists x :: x in pax.Xs() && x.inum <= hole) ==> packed == [] && count == |pax.Xs()|
  {
    hide LogOf, Vals, List.Valid, Sorted, VotesOf, Report, Wires;
    pax.ballot := b;
    pax.genHigh := pax.ballot.gen;
    ghost var xs := pax.Xs();
    var it;
    it, count := CountBack(pax, hole);
    packed := PackFrom(pax, it, if it == null then |xs| else |xs| - count);
    if it != null {
      assert xs[|xs| - count] in xs;
      SuffixReports(xs, |xs| - count, hole);
      SuffixStarts(xs, |xs| - count);
    }
  }

  /** `acceptor_ack_prepare`: promise to the believed proposer's higher ballot, and redirect everyone else. */
  method AckPrepare(pax: Session, b: Ballot, hole: nat, fromProposer: bool)
    returns (promised: bool, count: nat, packed: seq<Instance>)
    requires pax.Listed()
    modifies pax`ballot, pax`genHigh
    ensures promised <==> fromProposer && Below(old(pax.ballot), b)
    ensures if promised then pax.ballot == b && pax.genHigh == b.gen
            else pax.ballot == old(pax.ballot) && pax.genHigh == old(pax.genHigh) && packed == []
    ensures promised && (exists x :: x in pax.Xs() && x.inum <= hole) ==>
              && Sorted(packed) && VotesOf(packed) == Report(pax.Log(), hole)
              && count == |packed| && packed != [] && packed[0].inum <= hole
  {
    hide LogOf, Vals, List.Valid, Sorted, VotesOf, Report, Session.Xs;
    CompareMeaning(b, pax.ballot);
    if PairCompare(b, pax.ballot) <= 0 || !fromProposer {
      return false, 0, [];
    }
    count, packed := Promise(pax, b, hole);
    promised := true;
  }

  /** A learner's list reaches back to every hole from its base on: no such promise is short. */
  lemma ReachesBack(pax: Session, hole: nat)
    requires pax.Valid() && hole >= pax.base
    ensures exists x :: x in pax.Xs() && x.inum <= hole
  {
    hide LogOf, Vals, List.Valid, Sorted;
    assert pax.Xs()[0] in pax.Xs();
  }
}
