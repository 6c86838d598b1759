/** The whole handler of a promise: merge the votes, count the promise, and with a majority finish the prepare.  It
    takes the steps the protocol takes. */
module AckPromise {
  import opened Primitives
  import opened DecreeLog
  import opened IntrusiveList
  import opened Instances
  import opened Session
  import opened PromiseReply
  import opened Learner
  import opened MergePromise
  import opened FinishingPrepare

  /** A pending `paxos_prep`. */
  class Prep {
    const ballot: Ballot
    var acks: nat
    var start: Link<Instance>

    constructor (ballot: Ballot, start: Link<Instance>)
      ensures this.ballot == ballot && acks == 1 && this.start == start
    {
      this.ballot, this.acks, this.start := ballot, 1, start;
    }
  }

  /** `proposer_prepare`: the iterator it caches is istart, so it is ready. */
  method StartPrepare(pax: Session) returns (prep: Prep)
    requires pax.Valid()
    modifies pax`genHigh
    ensures pax.Valid() && pax.genHigh == old(pax.genHigh) + 1
    ensures fresh(prep) && prep.ballot == Pair(pax.self, pax.genHigh) && prep.acks == 1 && prep.start == pax.istart
    ensures Cursor(pax, prep.start, [prep.start]) && Ready(pax, prep.start, [prep.start])
    ensures prep.start.elt.inum == if pax.hole in pax.Log() then pax.hole else pax.hole - 1
  {
    hide LogOf, Vals, List.Valid, Sorted, Learning, Session.Pointed, Blocked, Session.Xs;
    PointsNow(pax);
    pax.genHigh := pax.genHigh + 1;
    prep := new Prep(Pair(pax.self, pax.genHigh), pax.istart);
  }

  /** What the handler does: nothing; stop at the assert about the iterator; go on with an instance that is not in the
      list; wait for more promises; or finish. */
  datatype Verdict = Ignored | Aborted | Strayed | Waiting | Finished

  // ---------------------------------------------------------------- which promises go well

  /** Some vote replaces what the log holds at number n. */
  predicate Outvotes(votes: seq<Instance>, log: Log, n: nat) {
    n in log && !log[n].committed
    && exists i :: 0 <= i < |votes| && votes[i].inum == n && Below(log[n].ballot, votes[i].ballot)
  }

  predicate EndsAt(votes: seq<Instance>, n: nat) {
    votes != [] && votes[|votes| - 1].inum == n
  }

  /** The promise does not begin before number n, where the iterator stands, and if it replaces the instance there,
      it says nothing about later ones. */
  predicate Smooth(votes: seq<Instance>, log: Log, n: nat) {
    votes == [] || (n <= votes[0].inum && (Outvotes(votes, log, n) ==> EndsAt(votes, n)))
  }

  lemma SwappedOutvotes(x: Instance, votes: seq<Instance>, log: Log)
    requires x.inum in log && log[x.inum] == SlotOf(x)
    ensures Swapped(x, votes) <==> Outvotes(votes, log, x.inum)
  {
  }

  /** Where istart points after a promise.  If a vote replaces the instance at the hole, istart is left outside the list;
      if another vote follows it, istart is left beyond the hole, and is doomed if such a vote enters the list.  A
      promise can do the same to the instance at the hole that is next to it. */
  ghost function AfterPromise(place: Place, votes: seq<Instance>, log: Log, hole: nat): Place {
    if !Outvotes(votes, log, hole) then place
    else match place
      case Right => if EndsAt(votes, hole) then Outside else if Used(hole, votes, log) then Doomed else NextRight
      case NextRight => if EndsAt(votes, hole) then NextOutside else Doomed
      case _ => place
  }

  /** What istart says about the votes. */
  lemma StartOutvoted(pax: Session, votes: seq<Instance>)
    requires PlaceOfStart(pax) != Wrong
    ensures AfterVotes(PlaceOfStart(pax), AtOrNext(pax), votes, pax.Log())
         == AfterPromise(PlaceOfStart(pax), votes, pax.Log(), pax.hole)
  {
    hide LogOf, Vals, List.Valid, Outvotes, Swapped, Session.Xs, PlaceOfStart, Used;
    PlaceTells(pax);
    SomeVote(votes, pax.Log(), pax.hole);
    var x := AtOrNext(pax);
    if PlaceOfStart(pax) == Right {
      PointsNow(pax);
      LinkPlace(pax, pax.istart, x.inum);
    } else if PlaceOfStart(pax) == NextRight {
      LinkPlace(pax, pax.istart.next, x.inum);
    }
    if PlaceOfStart(pax) == Right || PlaceOfStart(pax) == NextRight {
      SwappedOutvotes(x, votes, pax.Log());
      Uncommitted(x, votes);
      Missing(votes, pax.Log(), pax.hole);
    }
  }

  lemma SomeVote(votes: seq<Instance>, log: Log, n: nat)
    ensures Outvotes(votes, log, n) ==> votes != []
  {
  }

  lemma Missing(votes: seq<Instance>, log: Log, n: nat)
    ensures Outvotes(votes, log, n) ==> n in log
  {
  }

  /** What the cached iterator says about the votes. */
  lemma CursorOutvoted(pax: Session, start: Link<Instance>, trail: seq<Link<Instance>>, votes: seq<Instance>)
    requires pax.Listed() && Cursor(pax, start, trail) && Ready(pax, start, trail)
    ensures votes == [] || start.elt.inum <= votes[0].inum ==>
              (SwappedLast(trail[|trail| - 1].elt, votes) <==> Smooth(votes, pax.Log(), start.elt.inum))
  {
    hide LogOf, Vals, List.Valid, Outvotes, Swapped, Session.Xs;
    var t := trail[|trail| - 1];
    LinkPlace(pax, t, t.elt.inum);
    SwappedOutvotes(t.elt, votes, pax.Log());
    NoVotes(pax.Log(), t.elt);
  }

  // ---------------------------------------------------------------- the handler

  /** Merging, in terms of what the log says about the votes. */
  method MergeVoted(pax: Session, start: Link<Instance>, votes: seq<Instance>, ghost trail: seq<Link<Instance>>)
    returns (went: Went, ghost after: seq<Link<Instance>>)
    requires pax.Learns() && Sorted(votes) && Cursor(pax, start, trail)
    requires votes != [] ==> votes[0].inum <= pax.hole
    modifies pax`istart, pax.ilist, pax.ilist.links
    ensures pax.Learns() && (went == Stray ==> |trail| > 1)
    ensures went == Through <==>
              votes == [] || (old(Ready(pax, start, trail)) && old(start.elt.inum) <= votes[0].inum)
    ensures went == Through ==> pax.Log() == Merge(old(pax.Log()), VotesOf(votes))
    ensures went == Through ==> Cursor(pax, start, after)
    ensures went == Through ==>
              (Ready(pax, start, after) <==>
               old(Ready(pax, start, trail)) && Smooth(votes, old(pax.Log()), old(start.elt.inum)))
    ensures went == Through ==>
              if Ready(pax, start, after) then start.elt.inum == old(start.elt.inum) else after == trail
    ensures went == Through && old(PlaceOfStart(pax)) != Wrong ==>
              PlaceOfStart(pax) == AfterPromise(old(PlaceOfStart(pax)), votes, old(pax.Log()), pax.hole)
    ensures forall i :: 0 <= i < |pax.ilist.links| ==>
              pax.ilist.links[i] in old(pax.ilist.links) || fresh(pax.ilist.links[i])
  {
    hide LogOf, Vals, List.Valid, Sorted, Learning, Session.Pointed, Blocked, Session.Xs, Merge, VotesOf,
      Swapped, Session.Log, Outvotes, SwappedLast, Smooth, Session.Listed, PlaceOfStart, AfterVotes, AfterPromise, AtOrNext;
    ghost var ready, place := Ready(pax, start, trail), PlaceOfStart(pax);
    PlaceTells(pax);
    if ready {
      CursorOutvoted(pax, start, trail, votes);
    }
    if place != Wrong {
      StartOutvoted(pax, votes);
    }
    SmoothNothing(pax.Log(), start.elt.inum);
    went, after := MergeInto(pax, start, votes, trail);
  }

  lemma SmoothNothing(log: Log, n: nat)
    ensures Smooth([], log, n)
  {
  }

  /** `proposer_ack_promise` up to the flush of deferred decrees, from a cached iterator that earlier promises may have
      taken out of the list.  While it is ready, it finishes or waits exactly if the promise is smooth or there is no
      majority yet; the join and the finished log are those of the protocol. */
  method AckPromise(pax: Session, prep: Prep?, b: Ballot, votes: seq<Instance>, ghost trail: seq<Link<Instance>>)
    returns (v: Verdict, sent: seq<Instance>, ghost after: seq<Link<Instance>>)
    requires pax.Learns() && Sorted(votes) && (votes != [] ==> votes[0].inum <= pax.hole)
    requires prep != null ==> Cursor(pax, prep.start, trail)
    modifies pax`ballot, pax`istart, pax`reqid, pax.ilist, pax.ilist.links, if prep == null then {} else {prep}
    ensures pax.Learns() && (v == Ignored <==> prep == null || prep.ballot != b)
    ensures v == Ignored ==> pax.Log() == old(pax.Log()) && pax.ballot == old(pax.ballot)
    ensures v != Ignored ==>
      var n, ready := old(prep.start.elt.inum), old(Ready(pax, prep.start, trail));
      var full := old(prep.acks) + 1 >= Majority(pax.acceptors);
      && (v == Finished <==> full && ready && Smooth(votes, old(pax.Log()), n))
      && (v == Waiting <==> !full && (votes == [] || (ready && n <= votes[0].inum)))
      && (v == Strayed ==> |trail| > 1)
    ensures v == Waiting || v == Finished ==> prep.acks == old(prep.acks) + 1 && prep.start == old(prep.start)
    ensures v == Waiting ==>
      && pax.ballot == old(pax.ballot) && pax.reqid == old(pax.reqid)
      && pax.Log() == Merge(old(pax.Log()), VotesOf(votes)) && Cursor(pax, prep.start, after)
      && (Ready(pax, prep.start, after) <==>
          old(Ready(pax, prep.start, trail)) && Smooth(votes, old(pax.Log()), old(prep.start.elt.inum)))
      && (Ready(pax, prep.start, after) ==> prep.start.elt.inum == old(prep.start.elt.inum))
    ensures v == Finished ==> var merged := Merge(old(pax.Log()), VotesOf(votes));
      && merged.Keys != {} && pax.ballot == b && Sent(sent, pax.Log(), pax.hole, Last(merged) + 1)
      && (pax.Log(), pax.reqid) == FinishFrom(merged, pax.hole, Last(merged), b, pax.self, old(pax.reqid))
    ensures (v == Waiting || v == Finished) && old(PlaceOfStart(pax)) != Wrong ==>
              PlaceOfStart(pax) == AfterPromise(old(PlaceOfStart(pax)), votes, old(pax.Log()), pax.hole)
    ensures forall i :: 0 <= i < |pax.ilist.links| ==>
              pax.ilist.links[i] in old(pax.ilist.links) || fresh(pax.ilist.links[i])
  {
    hide LogOf, Vals, List.Valid, Sorted, Learning, Session.Pointed, Blocked, Session.Xs, Merge, VotesOf, FinishFrom, Sent,
      Swapped, Last, Session.Log, Outvotes, EndsAt, Cursor, Ready, Session.Listed, PlaceOfStart, AfterPromise;
    sent, after := [], trail;
    if prep == null {
      return Ignored, sent, trail;
    }
    CompareMeaning(prep.ballot, b);
    if PairCompare(prep.ballot, b) != 0 {
      return Ignored, sent, trail;
    }
    var went;
    NeverWrong(PlaceOfStart(pax), votes, pax.Log(), pax.hole);
    went, after := MergeVoted(pax, prep.start, votes, trail);
    if went != Through {
      return (if went == Beyond then Aborted else Strayed), sent, after;
    }
    prep.acks := prep.acks + 1;
    if prep.acks < Majority(pax.acceptors) {
      return Waiting, sent, after;
    }
    went, sent := Finish(pax, prep.start, prep.ballot, after);
    v := if went == Through then Finished else if went == Beyond then Aborted else Strayed;
  }

  lemma NeverWrong(place: Place, votes: seq<Instance>, log: Log, hole: nat)
    ensures place != Wrong ==> AfterPromise(place, votes, log, hole) != Wrong
  {
  }

  // ---------------------------------------------------------------- a whole prepare

  ghost predicate AllSorted(ps: seq<seq<Instance>>) {
    forall i {:trigger ps[i]} :: 0 <= i < |ps| ==> Sorted(ps[i])
  }

  /** The log after several promises. */
  ghost function MergeAll(log: Log, ps: seq<seq<Instance>>): Log
    requires AllSorted(ps)
  {
    if ps == [] then log else Merge(MergeAll(log, ps[..|ps| - 1]), VotesOf(ps[|ps| - 1]))
  }

  /** Each promise is smooth when its turn comes. */
  ghost predicate AllSmooth(ps: seq<seq<Instance>>, log: Log, n: nat)
    requires AllSorted(ps)
  {
    forall i {:trigger ps[i]} :: 0 <= i < |ps| ==> Smooth(ps[i], MergeAll(log, ps[..i]), n)
  }

  /** Where istart points after several promises. */
  ghost function AfterAll(place: Place, ps: seq<seq<Instance>>, log: Log, hole: nat): Place
    requires AllSorted(ps)
  {
    if ps == [] then place
    else AfterPromise(AfterAll(place, ps[..|ps| - 1], log, hole), ps[|ps| - 1], MergeAll(log, ps[..|ps| - 1]), hole)
  }

  lemma Prefixes(ps: seq<seq<Instance>>, i: nat)
    requires AllSorted(ps) && i < |ps|
    ensures AllSorted(ps[..i]) && AllSorted(ps[..i + 1]) && ps[..i + 1][..i] == ps[..i]
    ensures forall j :: 0 <= j < i ==> ps[..i][j] == ps[j] && ps[..i][..j] == ps[..j]
    ensures forall j :: 0 <= j <= i ==> ps[..i + 1][j] == ps[j] && ps[..i + 1][..j] == ps[..j]
  {
    assert forall j :: 0 <= j < i ==> ps[..i][..j] == ps[..j];
    assert forall j :: 0 <= j <= i ==> ps[..i + 1][..j] == ps[..j];
  }

  lemma SmoothOneMore(ps: seq<seq<Instance>>, i: nat, log: Log, n: nat)
    requires AllSorted(ps) && i < |ps| && AllSorted(ps[..i]) && AllSorted(ps[..i + 1])
    ensures AllSmooth(ps[..i + 1], log, n) <==>
              AllSmooth(ps[..i], log, n) && Smooth(ps[i], MergeAll(log, ps[..i]), n)
    ensures AllSmooth(ps, log, n) ==> AllSmooth(ps[..i + 1], log, n)
  {
    hide Smooth, Sorted, MergeAll, AllSorted;
    Prefixes(ps, i);
  }

  /** One promise more. */
  lemma OneMore(ps: seq<seq<Instance>>, i: nat, log0: Log, log: Log, n: nat, hole: nat, place: Place)
    requires AllSorted(ps) && i < |ps| && AllSorted(ps[..i]) && log == MergeAll(log0, ps[..i])
    ensures AllSorted(ps[..i + 1]) && Merge(log, VotesOf(ps[i])) == MergeAll(log0, ps[..i + 1])
    ensures AllSmooth(ps[..i + 1], log0, n) <==> AllSmooth(ps[..i], log0, n) && Smooth(ps[i], log, n)
    ensures AfterAll(place, ps[..i + 1], log0, hole)
         == AfterPromise(AfterAll(place, ps[..i], log0, hole), ps[i], log, hole)
    ensures AllSmooth(ps, log0, n) ==> AllSmooth(ps[..i + 1], log0, n)
  {
    hide Smooth, Outvotes, Sorted, Merge, VotesOf, AllSmooth, AfterPromise;
    Prefixes(ps, i);
    SmoothOneMore(ps, i, log0, n);
  }

  /** The promises that make a majority, one after the other.  The prepare finishes exactly if each of them is smooth
      when its turn comes, and then leaves the log that the protocol leaves.  istart stays right exactly if none of
      them replaced what the log held at the hole; otherwise it ends outside the list or past the hole, depending on
      whether a vote followed the first that did. */
  method AckPromises(pax: Session, prep: Prep, ps: seq<seq<Instance>>, ghost trail0: seq<Link<Instance>>)
    returns (v: Verdict, sent: seq<Instance>)
    requires pax.Learns() && Cursor(pax, prep.start, trail0) && AllSorted(ps)
    requires forall i {:trigger ps[i]} :: 0 <= i < |ps| && ps[i] != [] ==> ps[i][0].inum <= pax.hole
    requires ps != [] && prep.acks + |ps| == Majority(pax.acceptors)
    modifies pax`ballot, pax`istart, pax`reqid, pax.ilist, pax.ilist.links, prep
    ensures pax.Learns()
    ensures v == Finished <==>
              old(Ready(pax, prep.start, trail0)) && AllSmooth(ps, old(pax.Log()), old(prep.start.elt.inum))
    ensures v != Finished ==> v == Aborted || v == Strayed
    ensures v == Finished ==> var merged := MergeAll(old(pax.Log()), ps);
      && merged.Keys != {} && pax.ballot == prep.ballot && Sent(sent, pax.Log(), pax.hole, Last(merged) + 1)
      && (pax.Log(), pax.reqid) == FinishFrom(merged, pax.hole, Last(merged), prep.ballot, pax.self, old(pax.reqid))
    ensures v == Finished && old(PlaceOfStart(pax)) != Wrong ==>
              PlaceOfStart(pax) == AfterAll(old(PlaceOfStart(pax)), ps, old(pax.Log()), pax.hole)
    ensures forall i :: 0 <= i < |pax.ilist.links| ==>
              pax.ilist.links[i] in old(pax.ilist.links) || fresh(pax.ilist.links[i])
  {
    hide LogOf, Vals, List.Valid, Sorted, Learning, Session.Pointed, Blocked, Session.Xs, Merge, VotesOf, FinishFrom,
      Sent, Last, Session.Log, Outvotes, EndsAt, Smooth, Cursor, Ready, Session.Listed, MergeAll, AllSmooth,
      PlaceOfStart, AfterPromise, AfterAll;
    ghost var log0, n, trail, ready := pax.Log(), prep.start.elt.inum, trail0, Ready(pax, prep.start, trail0);
    ghost var place, links0 := PlaceOfStart(pax), pax.ilist.links;
    NoPromises(log0, n, pax.hole, place);
    v, sent := Waiting, [];
    assert ps[..0] == [] && ps[..|ps|] == ps;
    var last := |ps| - 1;
    for i := 0 to last
      invariant pax.Learns() && Cursor(pax, prep.start, trail)
      invariant prep.start == old(prep.start) && prep.acks == old(prep.acks) + i && pax.reqid == old(pax.reqid)
      invariant AllSorted(ps[..i]) && pax.Log() == MergeAll(log0, ps[..i])
      invariant Ready(pax, prep.start, trail) <==> ready && AllSmooth(ps[..i], log0, n)
      invariant Ready(pax, prep.start, trail) ==> prep.start.elt.inum == n
      invariant place != Wrong ==> PlaceOfStart(pax) == AfterAll(place, ps[..i], log0, pax.hole) != Wrong
      invariant forall i :: 0 <= i < |pax.ilist.links| ==> pax.ilist.links[i] in links0 || fresh(pax.ilist.links[i])
    {
      OneMore(ps, i, log0, pax.Log(), n, pax.hole, place);
      NeverWrong(PlaceOfStart(pax), ps[i], pax.Log(), pax.hole);
      SmoothMeans(ps[i], pax.Log(), n);
      v, sent, trail := AckPromise(pax, prep, prep.ballot, ps[i], trail);
      if v != Waiting {
        return;
      }
    }
    OneMore(ps, last, log0, pax.Log(), n, pax.hole, place);
    SmoothMeans(ps[last], pax.Log(), n);
    v, sent, trail := AckPromise(pax, prep, prep.ballot, ps[last], trail);
  }

  lemma SmoothMeans(votes: seq<Instance>, log: Log, n: nat)
    ensures Smooth(votes, log, n) ==> votes == [] || n <= votes[0].inum
  {
  }

  lemma NoPromises(log: Log, n: nat, hole: nat, place: Place)
    ensures MergeAll(log, []) == log && AllSmooth([], log, n) && AfterAll(place, [], log, hole) == place
  {
  }

  /** The other half: istart stays right exactly if no promise outvotes the instance at the hole when its turn comes. */
  lemma {:induction false} StaysRight(ps: seq<seq<Instance>>, log: Log, hole: nat)
    requires AllSorted(ps)
    ensures AfterAll(Right, ps, log, hole) != Wrong
    ensures AfterAll(Right, ps, log, hole) == Right <==>
              forall i {:trigger ps[i]} :: 0 <= i < |ps| ==> !Outvotes(ps[i], MergeAll(log, ps[..i]), hole)
  {
    hide Outvotes, MergeAll, Sorted, EndsAt;
    if ps != [] {
      var last := |ps| - 1;
      Prefixes(ps, last);
      StaysRight(ps[..last], log, hole);
      assert forall i :: 0 <= i < last ==> ps[..last][i] == ps[i] && ps[..last][..i] == ps[..i];
    }
  }

  /** Otherwise the first one that does decides whether istart ends at the hole, outside the list, or beyond it; and it is
      doomed if a later vote of that promise enters the list. */
  lemma {:induction false} FirstDecides(ps: seq<seq<Instance>>, log: Log, hole: nat, k: nat)
    requires AllSorted(ps) && k < |ps| && Outvotes(ps[k], MergeAll(log, ps[..k]), hole)
    requires forall i {:trigger ps[i]} :: 0 <= i < k ==> !Outvotes(ps[i], MergeAll(log, ps[..i]), hole)
    ensures var place := AfterAll(Right, ps, log, hole);
      && (place == Outside <==> EndsAt(ps[k], hole))
      && (!EndsAt(ps[k], hole) && Used(hole, ps[k], MergeAll(log, ps[..k])) ==> place == Doomed)
      && place != Right
  {
    hide Outvotes, MergeAll, Sorted, EndsAt, Used;
    var last := |ps| - 1;
    Prefixes(ps, last);
    assert forall i :: 0 <= i < last ==> ps[..last][i] == ps[i] && ps[..last][..i] == ps[..i];
    if k < last {
      FirstDecides(ps[..last], log, hole, k);
    } else {
      StaysRight(ps[..last], log, hole);
    }
  }
}
