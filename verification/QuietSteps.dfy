/** Events that decree nothing and cast no vote: messages lost, prepares started or given up, promises made or
    collected, commits received, holes advanced. */
module QuietSteps {
  import opened Primitives
  import opened DecreeLog
  import opened Protocol
  import opened Invariants
  import opened Preservation

  ghost predicate SameHistory(s: System, t: System) {
    && t.hist.decreed == s.hist.decreed && t.hist.voted == s.hist.voted && t.hist.chosen == s.hist.chosen
    && t.hist.prepared == s.hist.prepared && t.hist.counted == s.hist.counted
  }

  /** Prepared owners keep their role and their log. */
  ghost predicate OwnersIdle(s: System, t: System) {
    forall b {:trigger OwnerStays(s, t, b)} :: b in s.hist.prepared ==>
      OwnerStays(s, t, b) && t.nodes[b.id].log == s.nodes[b.id].log
  }

  ghost predicate Quiet(s: System, t: System) {
    SameHistory(s, t) && OwnersIdle(s, t) && Grows(s, t) && LogsGrow(s, t) && HolesGrow(s, t)
  }

  lemma QuietOwners(c: Config, s: System, t: System)
    requires Quiet(s, t) && Owners(c, s) && DecreedOk(s)
    ensures Owners(c, t) && DecreedOk(t)
  {
    OwnersKept(c, s, t);
    assert forall b :: b in s.hist.prepared ==> OwnerStays(s, t, b);
  }

  lemma QuietVotes(c: Config, s: System, t: System)
    requires Quiet(s, t) && Votes(s) && Chosens(c, s)
    ensures Votes(t) && Chosens(c, t)
  {
    VotesKept(s, t);
    ChosensKept(c, s, t);
  }

  lemma QuietSafes(c: Config, s: System, t: System)
    requires Quiet(s, t) && Safes(c, s) && Majorities(c, s)
    ensures Safes(c, t) && Majorities(c, t)
  {
    SafesKept(c, s, t);
  }

  lemma QuietCounts(c: Config, s: System, t: System)
    requires Quiet(s, t) && Counts(c, s) && Owners(c, s)
    ensures Counts(c, t)
  {
    forall b, n | b in t.hist.prepared && b.id in t.nodes && n in t.nodes[b.id].log
                  && !t.nodes[b.id].log[n].committed
      ensures t.nodes[b.id].log[n].votes == |Counted(c, t, b, n)|
    {
      assert OwnerStays(s, t, b);
      assert Counted(c, t, b, n) == Counted(c, s, b, n);
    }
  }

  lemma QuietRecord(c: Config, s: System, t: System)
    requires Quiet(s, t) && Record(c, s)
    requires forall a, b :: (a, b) in t.hist.promised && !SamePromise(s, t, a, b) ==> PromisedOk(c, t, a, b)
    ensures Record(c, t)
  {
    QuietOwners(c, s, t);
    QuietVotes(c, s, t);
    QuietSafes(c, s, t);
    QuietCounts(c, s, t);
    PromisesKept(c, s, t);
  }

  // ---------------------------------------------------------------- one node changes

  /** Only node i changes, and it was not a prepared proposer. */
  ghost predicate OnlyNode(s: System, t: System, i: Id) {
    && t.nodes.Keys == s.nodes.Keys && i in s.nodes
    && (forall j :: j in s.nodes && j != i ==> t.nodes[j] == s.nodes[j])
  }

  /** How node i may change: ballot and hole grow, and slots only change under headers that do not drop. */
  ghost predicate NodeGrows(x: Node, y: Node) {
    && !Below(y.ballot, x.ballot) && x.hole <= y.hole
    && (forall n :: n in x.log ==> n in y.log && !Below(y.log[n].ballot, x.log[n].ballot))
  }

  lemma OneNode(c: Config, s: System, t: System, i: Id)
    requires OnlyNode(s, t, i) && SameHistory(s, t) && NodeGrows(s.nodes[i], t.nodes[i])
    requires Owners(c, s)
    requires !Prepared(s.nodes, i) || t.nodes[i] == s.nodes[i].(hole := t.nodes[i].hole)
    ensures Quiet(s, t)
  {
    forall b | b in s.hist.prepared
      ensures OwnerStays(s, t, b) && t.nodes[b.id].log == s.nodes[b.id].log
    {
      assert PreparedOk(c, s, b);
    }
    forall j, n | j in s.nodes && n in s.nodes[j].log
      ensures SlotGrows(s, t, j, n)
    {
    }
  }

  // ---------------------------------------------------------------- messages

  lemma PrepareMsgsKept(s: System, t: System)
    requires PrepareMsgs(s) && HolesGrow(s, t)
    requires forall m :: m in t.net && m.Prepare? && m !in s.net ==> PrepareOk(t, m)
    ensures PrepareMsgs(t)
  {
    forall m | m in t.net && m.Prepare?
      ensures PrepareOk(t, m)
    {
      if m in s.net {
        assert PrepareOk(s, m);
      }
    }
  }

  lemma CommitMsgsKept(s: System, t: System)
    requires CommitMsgs(s) && Grows(s, t)
    requires forall m :: m in t.net && m.Commit? && m !in s.net ==> CommitOk(t, m)
    ensures CommitMsgs(t)
  {
    forall m | m in t.net && m.Commit?
      ensures CommitOk(t, m)
    {
      if m in s.net {
        assert CommitOk(s, m);
      }
    }
  }

  /** An event that sends and receives nothing. */
  lemma SameNetMsgs(s: System, t: System)
    requires Msgs(s) && t.net == s.net && t.hist == s.hist && Grows(s, t) && HolesGrow(s, t)
    requires forall j :: j in s.nodes ==> t.nodes[j].prep == s.nodes[j].prep || t.nodes[j].prep == None
    ensures Msgs(t)
  {
    PrepareMsgsKept(s, t);
    CommitMsgsKept(s, t);
    forall m | m in t.net && m.Promise?
      ensures PromiseOk(t, m)
    {
      assert PromiseOk(s, m);
    }
    forall m | m in t.net && m.Decree?
      ensures DecreeOk(t, m)
    {
      assert DecreeOk(s, m);
    }
    forall m | m in t.net && m.Accept?
      ensures AcceptOk(t, m)
    {
      assert AcceptOk(s, m);
    }
  }

  // ---------------------------------------------------------------- nodes and pending prepares

  /** Node facts depend on the node and on which ballots are prepared. */
  lemma NodesKept(c: Config, s: System, t: System)
    requires Nodes(c, s) && t.nodes.Keys == s.nodes.Keys && s.hist.prepared.Keys <= t.hist.prepared.Keys
    requires forall i :: i in t.nodes && t.nodes[i] != s.nodes[i] ==> NodeOk(c, t, i)
    ensures Nodes(c, t)
  {
    forall i | i in t.nodes
      ensures NodeOk(c, t, i)
    {
      if t.nodes[i] == s.nodes[i] {
        assert NodeOk(c, s, i);
      }
    }
  }

  /** A pending prepare depends on its node, on the promises made, and on its ackers. */
  lemma PrepsKept(c: Config, s: System, t: System)
    requires Preps(c, s) && Promises(c, s) && t.nodes.Keys == s.nodes.Keys
    requires forall a, b :: (a, b) in s.hist.promised ==> SamePromise(s, t, a, b)
    requires forall i :: i in t.nodes && t.nodes[i].prep.Some? ==>
      (s.nodes[i].prep == t.nodes[i].prep && s.nodes[i].log == t.nodes[i].log
        && AckersOf(s.hist, i) == AckersOf(t.hist, i))
      || PrepOk(c, t, i)
    ensures Preps(c, t)
  {
    forall i | i in t.nodes && t.nodes[i].prep.Some?
      ensures PrepOk(c, t, i)
    {
      if !PrepOk(c, t, i) {
        assert PrepOk(c, s, i);
        PrepStable(c, s, t, i);
      }
    }
  }

  lemma PrepStable(c: Config, s: System, t: System, i: Id)
    requires i in s.nodes && s.nodes[i].prep.Some? && PrepOk(c, s, i) && i in t.nodes
    requires forall a, b :: (a, b) in s.hist.promised ==> SamePromise(s, t, a, b)
    requires s.nodes[i].prep == t.nodes[i].prep && s.nodes[i].log == t.nodes[i].log
    requires AckersOf(s.hist, i) == AckersOf(t.hist, i)
    ensures PrepOk(c, t, i)
  {
    var b := s.nodes[i].prep.value.ballot;
    forall a | a in AckersOf(t.hist, i) && a != i
      ensures (a, b) in t.hist.promised && Covers(t.nodes[i].log, t.hist.promised[(a, b)].votes)
    {
      assert SamePromise(s, t, a, b);
    }
  }

  // ---------------------------------------------------------------- Lose, AskAgain and AckRetry

  lemma NetRecord(c: Config, s: System, t: System)
    requires t.nodes == s.nodes && t.hist == s.hist && Record(c, s)
    ensures Record(c, t)
  {
    assert Quiet(s, t) by {
      forall b | b in s.hist.prepared
        ensures OwnerStays(s, t, b)
      {
        assert PreparedOk(c, s, b);
      }
    }
    QuietRecord(c, s, t);
  }

  lemma NetLocal(c: Config, s: System, t: System)
    requires t.nodes == s.nodes && t.hist == s.hist && Nodes(c, s) && Slots(s) && Preps(c, s) && Promises(c, s)
    ensures Nodes(c, t) && Slots(t) && Preps(c, t)
  {
    NodesKept(c, s, t);
    SlotsKept(s, t);
    PrepsKept(c, s, t);
  }

  /** Messages after an event that only takes some away, or adds retries or commits of chosen values. */
  lemma NetMsgs(c: Config, s: System, t: System)
    requires t.nodes == s.nodes && t.hist == s.hist && Msgs(s)
    requires forall m :: m in t.net && m !in s.net ==> m.Retry? || (m.Commit? && CommitOk(t, m))
    requires forall m :: m in s.net && m in t.net && !m.Commit? && !m.Retry? ==> t.net[m] <= s.net[m]
    ensures Msgs(t)
  {
    PrepareMsgsKept(s, t);
    forall m | m in t.net && m.Promise?
      ensures PromiseOk(t, m)
    {
      assert PromiseOk(s, m);
    }
    forall m | m in t.net && m.Decree?
      ensures DecreeOk(t, m)
    {
      assert DecreeOk(s, m);
    }
    forall m | m in t.net && m.Accept?
      ensures AcceptOk(t, m)
    {
      assert AcceptOk(s, m);
    }
    CommitMsgsKept(s, t);
  }

  lemma NetInv(c: Config, s: System, t: System)
    requires Inv(c, s) && t.nodes == s.nodes && t.hist == s.hist && Shape(c, t) && Msgs(t)
    ensures Inv(c, t)
  {
    hide Shape, Nodes, Slots, Preps, Msgs, Owners, DecreedOk, Votes, Chosens, Safes, Majorities, Promises, Counts;
    NetRecord(c, s, t);
    NetLocal(c, s, t);
  }

  lemma LoseMsgs(c: Config, s: System, m: Msg)
    requires Shape(c, s) && Msgs(s)
    ensures var t := DoLose(s, m); Shape(c, t) && Msgs(t)
  {
    NetMsgs(c, s, DoLose(s, m));
  }

  lemma LoseInv(c: Config, s: System, m: Msg)
    requires Inv(c, s) && m in s.net
    ensures Inv(c, DoLose(s, m))
  {
    hide Shape, Nodes, Slots, Preps, Msgs, Owners, DecreedOk, Votes, Chosens, Safes, Majorities, Promises, Counts;
    LoseMsgs(c, s, m);
    NetInv(c, s, DoLose(s, m));
  }

  lemma AskMsgs(c: Config, s: System, i: Id)
    requires Shape(c, s) && Nodes(c, s) && Msgs(s) && CanAskAgain(s, i)
    ensures var t := DoAskAgain(s, i); Shape(c, t) && Msgs(t)
  {
    assert NodeOk(c, s, i);
    NetMsgs(c, s, DoAskAgain(s, i));
  }

  lemma AskInv(c: Config, s: System, i: Id)
    requires Inv(c, s) && CanAskAgain(s, i)
    ensures Inv(c, DoAskAgain(s, i))
  {
    hide Shape, Nodes, Slots, Preps, Msgs, Owners, DecreedOk, Votes, Chosens, Safes, Majorities, Promises, Counts;
    AskMsgs(c, s, i);
    NetInv(c, s, DoAskAgain(s, i));
  }

  lemma RetryMsgs(c: Config, s: System, m: Msg)
    requires Shape(c, s) && Msgs(s) && Slots(s) && CanAckRetry(s, m)
    ensures var t := DoAckRetry(c, s, m); t.nodes == s.nodes && t.hist == s.hist && Shape(c, t) && Msgs(t)
  {
    assert m.inum in s.nodes[m.dst].log ==> SlotOk(s, m.inum, s.nodes[m.dst].log[m.inum]);
    NetMsgs(c, s, DoAckRetry(c, s, m));
  }

  lemma RetryInv(c: Config, s: System, m: Msg)
    requires Inv(c, s) && CanAckRetry(s, m)
    ensures Inv(c, DoAckRetry(c, s, m))
  {
    hide Shape, Nodes, Slots, Preps, Msgs, Owners, DecreedOk, Votes, Chosens, Safes, Majorities, Promises, Counts;
    RetryMsgs(c, s, m);
    NetInv(c, s, DoAckRetry(c, s, m));
  }

  // ---------------------------------------------------------------- events at one node

  /** What the local parts of the invariant ask of the node an event happens at. */
  ghost predicate LocalStep(c: Config, s: System, t: System, i: Id) {
    && OnlyNode(s, t, i)
    && NodeOk(c, t, i)
    && (t.nodes[i].prep.Some? ==> PrepOk(c, t, i))
    && (forall n :: n in t.nodes[i].log ==>
          (n in s.nodes[i].log && t.nodes[i].log[n] == s.nodes[i].log[n]) || SlotOk(t, n, t.nodes[i].log[n]))
    && (forall j :: j in s.nodes && j != i ==> AckersOf(s.hist, j) == AckersOf(t.hist, j))
  }

  /** Promises are only added. */
  ghost predicate PromisesAdded(c: Config, s: System, t: System) {
    && (forall a, b :: (a, b) in s.hist.promised ==> SamePromise(s, t, a, b))
    && (forall a, b :: (a, b) in t.hist.promised && !SamePromise(s, t, a, b) ==> PromisedOk(c, t, a, b))
  }

  lemma LocalKept(c: Config, s: System, t: System, i: Id)
    requires Nodes(c, s) && Slots(s) && Preps(c, s) && Promises(c, s)
    requires SameHistory(s, t) && Grows(s, t) && PromisesAdded(c, s, t) && LocalStep(c, s, t, i)
    ensures Nodes(c, t) && Slots(t) && Preps(c, t)
  {
    hide NodeOk, PrepOk, SlotOk, PromisedOk, SamePromise, Grows;
    NodesKept(c, s, t);
    SlotsKept(s, t);
    PrepsKept(c, s, t);
  }

  /** An event at one node that changes nothing on record but promises. */
  lemma OneNodeInv(c: Config, s: System, t: System, i: Id)
    requires Inv(c, s) && Quiet(s, t) && PromisesAdded(c, s, t) && LocalStep(c, s, t, i)
    requires Shape(c, t) && Msgs(t)
    ensures Inv(c, t)
  {
    hide Shape, Nodes, Slots, Preps, Msgs, Owners, DecreedOk, Votes, Chosens, Safes, Majorities, Promises, Counts,
      LocalStep, SameHistory, OwnersIdle, Grows, LogsGrow, HolesGrow, SamePromise, PromisedOk;
    QuietRecord(c, s, t);
    LocalKept(c, s, t, i);
  }

  lemma FollowLocal(c: Config, s: System, i: Id, p: Id)
    requires Shape(c, s) && Nodes(c, s) && Owners(c, s) && CanFollow(c, s, i, p)
    ensures var t := DoFollow(s, i, p); Shape(c, t) && Quiet(s, t) && LocalStep(c, s, t, i)
  {
    var t := DoFollow(s, i, p);
    assert NodeOk(c, s, i);
    OneNode(c, s, t, i);
  }

  lemma FollowInv(c: Config, s: System, i: Id, p: Id)
    requires Inv(c, s) && CanFollow(c, s, i, p)
    ensures Inv(c, DoFollow(s, i, p))
  {
    hide Shape, Nodes, Slots, Preps, Msgs, Owners, DecreedOk, Votes, Chosens, Safes, Majorities, Promises, Counts,
      LocalStep;
    var t := DoFollow(s, i, p);
    FollowLocal(c, s, i, p);
    SameNetMsgs(s, t);
    OneNodeInv(c, s, t, i);
  }

  lemma AdvanceLocal(c: Config, s: System, i: Id)
    requires Shape(c, s) && Nodes(c, s) && Owners(c, s) && Preps(c, s) && CanAdvance(s, i)
    ensures var t := DoAdvance(s, i); Shape(c, t) && Quiet(s, t) && LocalStep(c, s, t, i)
  {
    var t := DoAdvance(s, i);
    assert NodeOk(c, s, i);
    assert s.nodes[i].prep.Some? ==> PrepOk(c, s, i);
    OneNode(c, s, t, i);
  }

  lemma HoleChosen(s: System, i: Id)
    requires Slots(s) && CanAdvance(s, i)
    ensures IsChosen(s, s.nodes[i].hole, s.nodes[i].log[s.nodes[i].hole].value)
  {
    assert SlotOk(s, s.nodes[i].hole, s.nodes[i].log[s.nodes[i].hole]);
  }

  lemma AdvanceInv(c: Config, s: System, i: Id)
    requires Inv(c, s) && CanAdvance(s, i)
    ensures Inv(c, DoAdvance(s, i))
    ensures var n, t := s.nodes[i].hole, DoAdvance(s, i);
      IsChosen(t, n, s.nodes[i].log[n].value) && i in t.nodes && t.nodes[i].hole == n + 1
  {
    HoleChosen(s, i);
    hide Shape, Nodes, Slots, Preps, Msgs, Owners, DecreedOk, Votes, Chosens, Safes, Majorities, Promises, Counts,
      LocalStep;
    var t := DoAdvance(s, i);
    AdvanceLocal(c, s, i);
    SameNetMsgs(s, t);
    OneNodeInv(c, s, t, i);
  }
}
