/** Prepares of a newcomer, acceptor 3 of five, after its proposers are lost.  If it has accepted a decree for the instance
    at its hole and a promise comes from an acceptor that has not heard of that instance, the handler stops at its
    assert; if the promises have it under a higher ballot, the prepare finishes, but 3 never learns again.  If 3 has
    not heard of the instance, one promise can bring it and the next replace it; then the prepare finishes, too, and
    the commit of the hole stops at another assert. */
module LostStart {
  import opened Primitives
  import opened DecreeLog
  import opened IntrusiveList
  import opened Instances
  import opened Session
  import opened PromiseReply
  import opened Learner
  import opened Acceptor
  import opened Requests
  import opened Welcome
  import opened MergePromise
  import opened Proposing
  import FinishingPrepare
  import opened AckPromise

  function JoinOf(n: nat): Value {
    Value(Join, Pair(1, n), 0)
  }

  /** The committed join of acceptor n. */
  function JoinAt(n: nat): Instance {
    Fresh(n, Pair(1, 1)).(value := JoinOf(n), committed := true)
  }

  /** The log holds the joins up to the one numbered top, and nothing else. */
  ghost predicate JoinsUpTo(log: Log, top: nat) {
    forall n :: (n in log <==> 1 <= n <= top) && (n in log ==> log[n].committed)
  }

  lemma FirstJoins(items: seq<Instance>)
    requires items == [JoinAt(1), JoinAt(2), JoinAt(3)]
    ensures Snapshot(items, 1) && JoinsUpTo(LogOf(Wires(items)), 3)
  {
    hide LogOf;
    var ws := Wires(items);
    assert forall x :: x in ws <==> x == ws[0] || x == ws[1] || x == ws[2];
    assert ws[0] in ws && ws[1] in ws && ws[2] in ws;
    forall n | n in LogOf(ws)
      ensures 1 <= n <= 3 && LogOf(ws)[n].committed
    {
      var j := PlaceOf(ws, n);
    }
  }

  /** A newcomer learns the join of acceptor n. */
  method LearnJoin(pax: Session, n: nat)
    requires pax.Valid() && n == pax.hole && n > 1 && pax.base == 1 && JoinsUpTo(pax.Log(), n - 1)
    modifies pax`rcache, pax`istart, pax`hole, pax`trace, pax`acceptors, pax.ilist, pax.ilist.links
    ensures pax.Valid() && JoinsUpTo(pax.Log(), n)
    ensures pax.hole == n + 1 && pax.acceptors == old(pax.acceptors) + 1
    ensures forall i :: 0 <= i < |pax.ilist.links| ==>
              pax.ilist.links[i] in old(pax.ilist.links) || fresh(pax.ilist.links[i])
  {
    hide LogOf, Vals, List.Valid, Sorted, Learning, Session.Pointed, Blocked, Session.Xs, Extends;
    CacheRequest(pax, JoinOf(n).reqid);
    var abort := AckCommit(pax, Pair(1, 1), n, JoinOf(n));
    pax.acceptors := pax.acceptors + 1;
    Contiguous(pax);
    assert pax.hole - 1 in pax.Log();
  }

  /** Acceptor 3, welcomed by 1 together with 2. */
  method Newcomer() returns (pax: Session)
    ensures fresh(pax) && fresh(pax.ilist) && fresh(pax.ilist.links)
    ensures pax.Valid() && pax.self == 3 && pax.ballot == Pair(1, 1) && pax.acceptors == 3 && pax.base == 1
    ensures pax.hole == 4 && JoinsUpTo(pax.Log(), 3)
  {
    hide LogOf, Vals, List.Valid, Sorted, Learning, Session.Pointed, Blocked, Session.Xs, Wires, Snapshot;
    FirstJoins([JoinAt(1), JoinAt(2), JoinAt(3)]);
    pax := AckWelcome(3, Pair(1, 1), 1, [JoinAt(1), JoinAt(2), JoinAt(3)], 3);
    FromBase(pax);
    assert pax.hole - 1 in pax.Log();
  }

  /** It has learned the joins of 4 and 5, and has accepted a decree for instance 6 if it heard of one. */
  method Joined(heard: Option<Value>) returns (pax: Session)
    ensures fresh(pax) && fresh(pax.ilist) && fresh(pax.ilist.links)
    ensures pax.Valid() && pax.self == 3 && pax.ballot == Pair(1, 1) && pax.hole == 6 && pax.acceptors == 5
    ensures if heard.Some? then
              pax.Log().Keys == {1, 2, 3, 4, 5, 6} && pax.Log()[6] == Slot(Pair(1, 1), heard.value, false, 0)
            else
              JoinsUpTo(pax.Log(), 5)
  {
    hide LogOf, Vals, List.Valid, Sorted, Learning, Session.Pointed, Blocked, Session.Xs, PlaceOfStart;
    pax := Newcomer();
    LearnJoin(pax, 4);
    LearnJoin(pax, 5);
    if heard.Some? {
      PlaceTells(pax);
      var reply := AckDecree(pax, Pair(1, 1), 6, heard.value, false);
      PlaceTells(pax);
    }
  }

  /** It has promised to 2, which proposed after 1 was lost; now it has lost 2 as well and prepares. */
  method Third(heard: Option<Value>) returns (pax: Session, prep: Prep)
    ensures fresh(pax) && fresh(pax.ilist) && fresh(pax.ilist.links) && fresh(prep)
    ensures pax.Valid() && pax.hole == 6 && pax.acceptors == 5
    ensures forall n :: 6 < n ==> n !in pax.Log()
    ensures if heard.Some? then 6 in pax.Log() && pax.Log()[6] == Slot(Pair(1, 1), heard.value, false, 0)
            else JoinsUpTo(pax.Log(), 5)
    ensures prep.ballot == Pair(3, 3) && prep.acks == 1 && prep.start.elt.inum == if heard.Some? then 6 else 5
    ensures Cursor(pax, prep.start, [prep.start]) && Ready(pax, prep.start, [prep.start])
  {
    hide LogOf, Vals, List.Valid, Sorted, Learning, Session.Pointed, Blocked, Session.Xs, Cursor, Ready;
    pax := Joined(heard);
    var promised, count, packed := AckPrepare(pax, Pair(2, 2), 6, true);
    prep := StartPrepare(pax);
  }

  /** A vote for v as instance n. */
  function VoteFor(n: nat, b: Ballot, v: Value): Instance {
    Fresh(n, b).(value := v)
  }

  lemma OneSorted(x: Instance)
    ensures Sorted([x])
  {
  }

  /** Acceptor 5 has not heard of instance 6, so its promise begins with instance 5: the assert about the iterator
      fails. */
  method PrepareAborts(v: Value) returns (pax: Session, verdict: Verdict)
    ensures verdict == Aborted
  {
    hide Session.Log, Session.Listed;
    var prep, sent;
    pax, prep := Third(Some(v));
    hide LogOf, Vals, List.Valid, Sorted, Learning, Session.Pointed, Blocked, Session.Xs, Cursor, Ready, Smooth,
      FinishingPrepare.Sent, Last, Outvotes, PlaceOfStart, AfterPromise;
    OneSorted(VoteFor(5, Pair(1, 1), JoinOf(5)));
    ghost var after;
    verdict, sent, after := AckPromise.AckPromise(pax, prep, Pair(3, 3), [VoteFor(5, Pair(1, 1), JoinOf(5))],
                                                  [prep.start]);
  }

  /** The one vote replaces instance 6, and a second promise with the same vote does not. */
  lemma SameVote(log: Log, vote: Instance)
    requires 6 in log && log[6] == Slot(Pair(1, 1), vote.value, false, 0) && vote.inum == 6 && vote.ballot == Pair(2, 2)
    ensures var ps := [[vote], [vote]]; AllSorted(ps) && AllSmooth(ps, log, 6) && AfterAll(Right, ps, log, 6) == Outside
  {
    var ps := [[vote], [vote]];
    assert ps[..0] == [] && MergeAll(log, ps[..0]) == log;
    assert ps[0][0] == vote && Outvotes(ps[0], MergeAll(log, ps[..0]), 6);
    FirstDecides(ps, log, 6, 0);
  }

  /** Acceptors 4 and 5 have accepted v again from 2: the prepare finishes and decrees v, but istart is left outside the
      list, and so no commit is ever learned. */
  method IstartLost(v: Value) returns (pax: Session, verdict: Verdict)
    ensures fresh(pax) && verdict == Finished && PlaceOfStart(pax) == Outside
  {
    hide Session.Log, Session.Listed;
    var prep, sent;
    pax, prep := Third(Some(v));
    hide LogOf, Vals, List.Valid, Sorted, Learning, Session.Pointed, Blocked, Session.Xs, Cursor, Ready, AllSmooth,
      MergeAll, AfterAll, FinishingPrepare.Sent, Last, PlaceOfStart;
    PlaceTells(pax);
    SameVote(pax.Log(), VoteFor(6, Pair(2, 2), v));
    var ps := [[VoteFor(6, Pair(2, 2), v)], [VoteFor(6, Pair(2, 2), v)]];
    verdict, sent := AckPromises(pax, prep, ps, [prep.start]);
  }

  /** The logs on the way. */
  lemma LogsThen(log: Log, first: Instance, second: Instance, third: Instance)
    requires JoinsUpTo(log, 5) && first.inum == 6 && second.inum == 6 && third.inum == 7
    requires first.ballot == Pair(1, 1) && second.ballot == Pair(2, 2)
    ensures Sorted([first]) && Sorted([second, third])
    ensures var log1 := Merge(log, VotesOf([first]));
      var log2 := Merge(log1, VotesOf([second, third]));
      && 6 in log1 && log1[6] == Slot(first.ballot, first.value, false, 0) && 5 in log1 && log1[5].committed && 7 !in log1
      && (forall n :: n in log2 ==> n <= 7) && 6 in log2 && 7 in log2
      && log2[6] == Slot(second.ballot, second.value, false, 0)
  {
    hide VotesOf, Sorted, LogOf;
    OneVote(first);
    TwoVotes(second, third);
  }

  /** The first promise brings instance 6; the second replaces it, and brings instance 7. */
  lemma NextVote(log: Log, first: Instance, second: Instance, third: Instance)
    requires JoinsUpTo(log, 5) && first.inum == 6 && second.inum == 6 && third.inum == 7
    requires first.ballot == Pair(1, 1) && second.ballot == Pair(2, 2)
    ensures var ps := [[first], [second, third]];
      && AllSorted(ps) && AllSmooth(ps, log, 5) && AfterAll(Right, ps, log, 6) == Doomed
      && MergeAll(log, ps) == Merge(Merge(log, VotesOf([first])), VotesOf([second, third]))
  {
    hide Sorted, Merge, VotesOf;
    var ps := [[first], [second, third]];
    LogsThen(log, first, second, third);
    assert ps[..0] == [] && ps[..1] == [[first]] && [[first]][..0] == [];
    var log1 := Merge(log, VotesOf([first]));
    assert MergeAll(log, ps[..0]) == log && MergeAll(log, ps[..1]) == log1;
    assert ps[1][0] == second && Outvotes(ps[1], log1, 6);
    assert ps[1][1] == third && Used(6, ps[1], log1);
    FirstDecides(ps, log, 6, 1);
  }

  lemma OneVote(x: Instance)
    ensures Sorted([x]) && VotesOf([x]) == map[x.inum := Vote(x.ballot, x.value)]
  {
    OneLog([x], map[x.inum := SlotOf(x)]);
  }

  lemma TwoVotes(x: Instance, y: Instance)
    requires x.inum < y.inum
    ensures Sorted([x, y])
    ensures VotesOf([x, y]) == map[x.inum := Vote(x.ballot, x.value), y.inum := Vote(y.ballot, y.value)]
  {
    OneLog([x, y], map[x.inum := SlotOf(x), y.inum := SlotOf(y)]);
  }

  /** Instance 6 is decreed again as it was merged. */
  lemma SixAgain(merged: Log, b: Ballot, self: nat, reqid: nat)
    requires (forall n :: n in merged ==> n <= 7) && 6 in merged && 7 in merged && !merged[6].committed
    ensures merged.Keys != {} && Last(merged) == 7
    ensures var done := FinishFrom(merged, 6, 7, b, self, reqid).0;
      6 in done && done[6] == Slot(b, merged[6].value, false, 1)
  {
    FinishMeaning(merged, 6, 7, b, self, reqid);
    assert merged.Keys != {};
    assert Last(merged) in merged;
  }

  /** Acceptor 4 has accepted v from 1, and acceptor 5 has accepted it from 2, together with another decree: the prepare
      finishes and decrees v, but istart is left beyond the hole. */
  method IstartBeyond(v: Value, w: Value) returns (pax: Session, verdict: Verdict)
    ensures fresh(pax) && fresh(pax.ilist) && fresh(pax.ilist.links) && pax.Learns()
    ensures verdict == Finished && PlaceOfStart(pax) == Doomed && pax.hole == 6 && pax.acceptors == 5
    ensures 6 in pax.Log() && pax.Log()[6] == Slot(Pair(3, 3), v, false, 1)
  {
    hide Session.Log, Session.Listed;
    var prep, sent;
    pax, prep := Third(None);
    hide LogOf, Vals, List.Valid, Sorted, Learning, Session.Pointed, Blocked, Session.Xs, Cursor, Ready, AllSmooth,
      MergeAll, AfterAll, FinishingPrepare.Sent, Last, PlaceOfStart, FinishFrom, JoinsUpTo, Merge, VotesOf, AllSorted;
    PlaceTells(pax);
    var x, y, z := VoteFor(6, Pair(1, 1), v), VoteFor(6, Pair(2, 2), v), VoteFor(7, Pair(2, 2), w);
    NextVote(pax.Log(), x, y, z);
    LogsThen(pax.Log(), x, y, z);
    var ps := [[x], [y, z]];
    ghost var merged, reqid := MergeAll(pax.Log(), ps), pax.reqid;
    verdict, sent := AckPromises(pax, prep, ps, [prep.start]);
    SixAgain(merged, Pair(3, 3), pax.self, reqid);
  }

  /** When 4 and 5 have accepted v and its request is there, the commit of the hole stops at the assert that istart is
      numbered like the hole. */
  method IstartDoomed(v: Value, w: Value) returns (pax: Session, verdict: Verdict, abort: bool)
    ensures verdict == Finished && abort
  {
    hide Session.Log, Session.Listed, LogOf, Vals, List.Valid, Sorted, Learning, Session.Pointed, Blocked, Session.Xs,
      PlaceOfStart, Extends;
    pax, verdict := IstartBeyond(v, w);
    CacheRequest(pax, v.reqid);
    abort := AckAccept(pax, 6);
    abort := AckAccept(pax, 6);
  }
}
