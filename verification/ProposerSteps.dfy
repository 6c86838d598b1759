/** The prepared proposer at work: counting votes, committing, and making fresh decrees. */
module ProposerSteps {
  import opened Primitives
  import opened DecreeLog
  import opened Protocol
  import opened Invariants
  import opened Preservation
  import opened QuietSteps
  import opened PrepareSteps
  import opened VoteSteps

  /** Node i is a prepared proposer; its ballot is on record. */
  lemma ProposerBallot(c: Config, s: System, i: Id)
    requires Nodes(c, s) && Owners(c, s) && CanPropose(s, i)
    ensures var b := s.nodes[i].ballot; b in s.hist.prepared && b.id == i && PreparedOk(c, s, b)
  {
    assert NodeOk(c, s, i);
    assert PreparedOk(c, s, s.nodes[i].ballot);
  }

  /** Only the slots of node i change; nothing on record does, except votes counted. */
  ghost predicate ProposerStep(s: System, t: System, i: Id) {
    && OnlyNode(s, t, i)
    && t.nodes[i] == s.nodes[i].(log := t.nodes[i].log)
    && (forall n :: n in s.nodes[i].log ==>
          n in t.nodes[i].log && t.nodes[i].log[n].ballot == s.nodes[i].log[n].ballot
          && t.nodes[i].log[n].value == s.nodes[i].log[n].value
          && (s.nodes[i].log[n].committed ==> t.nodes[i].log[n].committed))
  }

  lemma ProposerGrows(c: Config, s: System, t: System, i: Id)
    requires Owners(c, s) && ProposerStep(s, t, i)
    requires t.hist.decreed == s.hist.decreed && t.hist.voted == s.hist.voted && t.hist.chosen == s.hist.chosen
    requires t.hist.prepared == s.hist.prepared
    ensures Grows(s, t) && LogsGrow(s, t) && HolesGrow(s, t)
    ensures forall b :: b in s.hist.prepared ==> OwnerStays(s, t, b)
  {
    forall b | b in s.hist.prepared
      ensures OwnerStays(s, t, b)
    {
      assert PreparedOk(c, s, b);
    }
  }

  lemma ProposerRecord(c: Config, s: System, t: System)
    requires Owners(c, s) && Votes(s) && Chosens(c, s) && Safes(c, s) && Majorities(c, s) && Promises(c, s)
    requires Grows(s, t) && LogsGrow(s, t) && HolesGrow(s, t)
    requires forall b :: b in s.hist.prepared ==> OwnerStays(s, t, b)
    requires t.hist.decreed == s.hist.decreed && t.hist.voted == s.hist.voted && t.hist.chosen == s.hist.chosen
    requires t.hist.prepared == s.hist.prepared && t.hist.promised == s.hist.promised
    ensures Owners(c, t) && Votes(t) && Chosens(c, t) && Safes(c, t) && Majorities(c, t) && Promises(c, t)
  {
    hide Owners, Votes, Chosens, Safes, Promises, Grows, LogsGrow, HolesGrow;
    OwnersKept(c, s, t);
    VotesKept(s, t);
    ChosensKept(c, s, t);
    SafesKept(c, s, t);
    PromisesKept(c, s, t);
  }

  lemma ProposerLocal(c: Config, s: System, t: System, i: Id)
    requires Nodes(c, s) && Preps(c, s) && Promises(c, s) && ProposerStep(s, t, i) && CanPropose(s, i)
    requires t.hist.prepared == s.hist.prepared && t.hist.promised == s.hist.promised && t.hist.ackers == s.hist.ackers
    requires forall n :: n in t.nodes[i].log ==> c.base <= n
    ensures Nodes(c, t) && Preps(c, t)
  {
    assert NodeOk(c, s, i);
    assert NodeOk(c, t, i);
    NodesKept(c, s, t);
    PrepsKept(c, s, t);
  }

  // ---------------------------------------------------------------- counting a vote

  /** An accept reaches the proposer that made the decree, still in that ballot, with the instance at hand. */
  lemma AcceptArrives(c: Config, s: System, m: Msg)
    requires Owners(c, s) && DecreedOk(s) && Votes(s) && AcceptMsgs(s) && m in s.net && m.Accept?
    ensures m.dst in s.nodes && CanPropose(s, m.dst) && m.ballot == s.nodes[m.dst].ballot
    ensures m.inum in s.nodes[m.dst].log && m.ballot in s.hist.prepared
  {
    assert AcceptOk(s, m);
    assert VoteOk(s, m.src, m.ballot, m.inum);
    assert PreparedOk(c, s, m.ballot);
  }

  lemma CountCounts(c: Config, s: System, m: Msg)
    requires Shape(c, s) && Owners(c, s) && DecreedOk(s) && Votes(s) && AcceptMsgs(s) && Counts(c, s)
    requires CanAckAccept(s, m)
    ensures DecreedOk(CountVote(s, m)) && Counts(c, CountVote(s, m))
  {
    CountDecreed(s, m);
    hide DecreedOk, Votes;
    var t := CountVote(s, m);
    AcceptArrives(c, s, m);
    assert AcceptOk(s, m);
    forall b, n | b in t.hist.prepared && b.id in t.nodes && n in t.nodes[b.id].log
                  && !t.nodes[b.id].log[n].committed
      ensures t.nodes[b.id].log[n].votes == |Counted(c, t, b, n)|
    {
      assert PreparedOk(c, s, b);
      if b == m.ballot && n == m.inum {
        assert Counted(c, t, b, n) == Counted(c, s, b, n) + {m.src};
      } else {
        assert Counted(c, t, b, n) == Counted(c, s, b, n);
      }
    }
  }

  lemma CountDecreed(s: System, m: Msg)
    requires DecreedOk(s) && CanAckAccept(s, m)
    ensures DecreedOk(CountVote(s, m))
  {
  }

  lemma CountAccepts(c: Config, s: System, m: Msg)
    requires AcceptMsgs(s) && CanAckAccept(s, m)
    ensures AcceptMsgs(CountVote(s, m))
  {
    var t := CountVote(s, m);
    assert AcceptOk(s, m);
    forall d | d in t.net && d.Accept?
      ensures AcceptOk(t, d)
    {
      assert AcceptOk(s, d);
    }
  }

  lemma CountOtherMsgs(c: Config, s: System, m: Msg)
    requires Shape(c, s) && Msgs(s) && CanAckAccept(s, m)
    requires Grows(s, CountVote(s, m)) && HolesGrow(s, CountVote(s, m))
    ensures var t := CountVote(s, m);
      Shape(c, t) && PrepareMsgs(t) && PromiseMsgs(t) && DecreeMsgs(t) && CommitMsgs(t)
  {
    var t := CountVote(s, m);
    PrepareMsgsKept(s, t);
    CommitMsgsKept(s, t);
    forall d | d in t.net && d.Promise?
      ensures PromiseOk(t, d)
    {
      assert PromiseOk(s, d);
    }
    forall d | d in t.net && d.Decree?
      ensures DecreeOk(t, d)
    {
      assert DecreeOk(s, d);
    }
  }

  lemma CountStep(c: Config, s: System, m: Msg)
    requires Nodes(c, s) && CanAckAccept(s, m)
    ensures var t := CountVote(s, m);
      ProposerStep(s, t, m.dst) && (forall n :: n in t.nodes[m.dst].log ==> c.base <= n)
  {
    assert NodeOk(c, s, m.dst);
  }

  lemma CountSlots(s: System, m: Msg)
    requires Slots(s) && CanAckAccept(s, m) && Grows(s, CountVote(s, m))
    ensures Slots(CountVote(s, m))
  {
    SlotsKept(s, CountVote(s, m));
  }

  lemma CountInv(c: Config, s: System, m: Msg)
    requires Inv(c, s) && CanAckAccept(s, m)
    ensures Inv(c, CountVote(s, m)) && CanPropose(CountVote(s, m), m.dst)
  {
    hide Shape, Nodes, Slots, Preps, Owners, DecreedOk, Votes, Chosens, Safes, Majorities, Promises, Counts,
      PrepareMsgs, PromiseMsgs, AcceptMsgs, CommitMsgs, DecreeMsgs, Grows, LogsGrow, HolesGrow, ProposerStep;
    var t := CountVote(s, m);
    AcceptArrives(c, s, m);
    CountStep(c, s, m);
    ProposerGrows(c, s, t, m.dst);
    ProposerRecord(c, s, t);
    ProposerLocal(c, s, t, m.dst);
    CountCounts(c, s, m);
    CountSlots(s, m);
    CountAccepts(c, s, m);
    CountOtherMsgs(c, s, m);
  }

  // ---------------------------------------------------------------- committing

  /** Whatever a majority voted for, in any ballot, is the value chosen first. */
  lemma MajorityValue(c: Config, s: System, b: Ballot, n: nat, v: Value)
    requires Chosens(c, s) && Majorities(c, s) && WasDecreed(s, b, n, v)
    requires |Voters(c, s.hist.voted, b, n)| >= c.Majority()
    ensures IsChosen(s, n, v)
  {
    assert n in s.hist.chosen;
    assert ChosenOk(c, s, n);
    var b1 := s.hist.chosen[n].ballot;
    if Below(b, b1) {
      var v1 := s.hist.decreed[(b1, n)];
      assert SafeBelow(c, s, b, n, v1);
      var q :| c.Quorum(q) && AllSettled(s, q, b, n, v1);
      var k := QuorumsMeet(c, q, Voters(c, s.hist.voted, b, n));
      assert Settled(s, k, b, n, v1);
    }
  }

  /** The proposer's bare vote counter stands for a majority, so what it commits is chosen. */
  lemma CounterChooses(c: Config, s: System, i: Id, n: nat)
    requires Nodes(c, s) && Owners(c, s) && DecreedOk(s) && Chosens(c, s) && Majorities(c, s) && Counts(c, s)
    requires CanPropose(s, i) && n in s.nodes[i].log && !s.nodes[i].log[n].committed
    requires s.nodes[i].log[n].votes >= c.Majority()
    ensures IsChosen(s, n, s.nodes[i].log[n].value)
  {
    var b := s.nodes[i].ballot;
    ProposerBallot(c, s, i);
    assert forall a :: (a, b, n) in s.hist.counted ==> Voted(s, a, b, n);
    SubsetCard(Counted(c, s, b, n), Voters(c, s.hist.voted, b, n));
    MajorityValue(c, s, b, n, s.nodes[i].log[n].value);
  }

  ghost predicate Committing(s: System, i: Id, n: nat) {
    CanPropose(s, i) && n in s.nodes[i].log && IsChosen(s, n, s.nodes[i].log[n].value)
  }

  lemma MarkStep(c: Config, s: System, i: Id, n: nat)
    requires Nodes(c, s) && Committing(s, i, n)
    ensures var t := DoCommit(c, s, i, n);
      ProposerStep(s, t, i) && (forall k :: k in t.nodes[i].log ==> c.base <= k)
  {
    assert NodeOk(c, s, i);
  }

  lemma MarkCounts(c: Config, s: System, i: Id, n: nat)
    requires Owners(c, s) && DecreedOk(s) && Counts(c, s) && Committing(s, i, n)
    ensures DecreedOk(DoCommit(c, s, i, n)) && Counts(c, DoCommit(c, s, i, n))
  {
    var t := DoCommit(c, s, i, n);
    forall b, k | b in t.hist.prepared && b.id in t.nodes && k in t.nodes[b.id].log
                  && !t.nodes[b.id].log[k].committed
      ensures t.nodes[b.id].log[k].votes == |Counted(c, t, b, k)|
    {
      assert Counted(c, t, b, k) == Counted(c, s, b, k);
    }
  }

  lemma MarkSlots(c: Config, s: System, i: Id, n: nat)
    requires Slots(s) && Committing(s, i, n) && Grows(s, DoCommit(c, s, i, n))
    ensures Slots(DoCommit(c, s, i, n))
  {
    SlotsKept(s, DoCommit(c, s, i, n));
  }

  lemma MarkMsgs(c: Config, s: System, i: Id, n: nat)
    requires Shape(c, s) && Msgs(s) && Committing(s, i, n)
    requires Grows(s, DoCommit(c, s, i, n)) && HolesGrow(s, DoCommit(c, s, i, n))
    ensures Shape(c, DoCommit(c, s, i, n)) && Msgs(DoCommit(c, s, i, n))
  {
    var t := DoCommit(c, s, i, n);
    PrepareMsgsKept(s, t);
    CommitMsgsKept(s, t);
    forall d | d in t.net && d.Promise?
      ensures PromiseOk(t, d)
    {
      assert PromiseOk(s, d);
    }
    forall d | d in t.net && d.Decree?
      ensures DecreeOk(t, d)
    {
      assert DecreeOk(s, d);
    }
    forall d | d in t.net && d.Accept?
      ensures AcceptOk(t, d)
    {
      assert AcceptOk(s, d);
    }
  }

  lemma MarkInv(c: Config, s: System, i: Id, n: nat)
    requires Inv(c, s) && Committing(s, i, n)
    ensures Inv(c, DoCommit(c, s, i, n))
  {
    hide Shape, Nodes, Slots, Preps, Owners, DecreedOk, Votes, Chosens, Safes, Majorities, Promises, Counts,
      Msgs, Grows, LogsGrow, HolesGrow, ProposerStep, IsChosen;
    var t := DoCommit(c, s, i, n);
    MarkStep(c, s, i, n);
    ProposerGrows(c, s, t, i);
    ProposerRecord(c, s, t);
    ProposerLocal(c, s, t, i);
    MarkCounts(c, s, i, n);
    MarkSlots(c, s, i, n);
    MarkMsgs(c, s, i, n);
  }

  lemma AckAcceptInv(c: Config, s: System, m: Msg)
    requires Inv(c, s) && CanAckAccept(s, m)
    ensures Inv(c, DoAckAccept(c, s, m))
  {
    hide Shape, Nodes, Slots, Preps, Owners, DecreedOk, Votes, Chosens, Safes, Majorities, Promises, Counts, Msgs,
      IsChosen;
    var t := CountVote(s, m);
    CountInv(c, s, m);
    var slot := t.nodes[m.dst].log[m.inum];
    if !slot.committed && slot.votes >= c.Majority() {
      CounterChooses(c, t, m.dst, m.inum);
      MarkInv(c, t, m.dst, m.inum);
    }
  }

  // ---------------------------------------------------------------- fresh decrees

  /** A majority that voted for n in a lower ballot has left n in the log of the prepared proposer. */
  lemma VotedSeen(c: Config, s: System, b: Ballot, q: set<Id>, low: Ballot, n: nat)
    requires b in s.hist.prepared && PreparedOk(c, s, b) && c.Quorum(q) && Below(low, b)
    requires forall a :: a in q ==> Voted(s, a, low, n)
    ensures n in s.nodes[b.id].log
  {
    var a := QuorumsMeet(c, q, s.hist.prepared[b]);
    assert Voted(s, a, low, n);
  }

  /** The instance a fresh decree takes, and why nothing was ever decided there in a lower ballot. */
  lemma FreshInstance(c: Config, s: System, i: Id, n: nat)
    requires Nodes(c, s) && Owners(c, s) && DecreedOk(s) && Votes(s) && Chosens(c, s) && CanPropose(s, i)
    requires n == NextInstance(s.nodes[i].log)
    ensures c.base <= n && n !in s.nodes[i].log
    ensures var b := s.nodes[i].ballot;
      && (b, n) !in s.hist.decreed && !Voted(s, i, b, n)
      && (n in s.hist.chosen ==> Below(b, s.hist.chosen[n].ballot))
  {
    var b := s.nodes[i].ballot;
    ProposerBallot(c, s, i);
    assert NodeOk(c, s, i);
    assert c.base in s.nodes[i].log;
    assert Voted(s, i, b, n) ==> VoteOk(s, i, b, n);
    if n in s.hist.chosen {
      assert ChosenOk(c, s, n);
      var b1 := s.hist.chosen[n].ballot;
      BelowTotal(b, b1);
      if Below(b1, b) {
        VotedSeen(c, s, b, s.hist.chosen[n].quorum, b1, n);
      }
    }
  }

  /** The state after a fresh decree for n. */
  ghost predicate Decreed(c: Config, s: System, t: System, i: Id, n: nat, v: Value) {
    && CanPropose(s, i) && n !in s.nodes[i].log && c.base <= n && OnlyNode(s, t, i)
    && (var b := s.nodes[i].ballot;
        && b.id == i && b in s.hist.prepared && PreparedOk(c, s, b)
        && (b, n) !in s.hist.decreed && !Voted(s, i, b, n)
        && (n in s.hist.chosen ==> Below(b, s.hist.chosen[n].ballot))
        && t.nodes[i] == s.nodes[i].(log := s.nodes[i].log[n := Slot(b, v, false, 1)])
        && t.net == s.net + Decrees(c, i, b, {n}, t.nodes[i].log)
        && t.hist == AddVote(c, s.hist, i, b, n).(
             decreed := s.hist.decreed[(b, n) := v],
             counted := s.hist.counted + {(i, b, n)}))
  }

  lemma DecreeEffect(c: Config, s: System, i: Id, v: Value)
    requires Shape(c, s) && Nodes(c, s) && Owners(c, s) && DecreedOk(s) && Votes(s) && Chosens(c, s)
    requires CanPropose(s, i)
    ensures Decreed(c, s, DoDecree(c, s, i, v), i, NextInstance(s.nodes[i].log), v)
  {
    ProposerBallot(c, s, i);
    FreshInstance(c, s, i, NextInstance(s.nodes[i].log));
  }

  lemma DecreeGrows(c: Config, s: System, t: System, i: Id, n: nat, v: Value)
    requires Shape(c, s) && Decreed(c, s, t, i, n, v)
    ensures Grows(s, t) && LogsGrow(s, t) && HolesGrow(s, t) && Casts(c, s, t, i, s.nodes[i].ballot, n)
  {
  }

  lemma DecreeStays(c: Config, s: System, t: System, i: Id, n: nat, v: Value)
    requires Owners(c, s) && Decreed(c, s, t, i, n, v)
    ensures forall b :: b in s.hist.prepared ==> OwnerStays(s, t, b)
  {
    forall b | b in s.hist.prepared
      ensures OwnerStays(s, t, b)
    {
      assert PreparedOk(c, s, b);
    }
  }

  /** A fresh value is safe: the promise majority never voted for that instance and is past every lower
      ballot. */
  lemma DecreeSafe(c: Config, s: System, t: System, i: Id, n: nat, v: Value)
    requires Decreed(c, s, t, i, n, v)
    ensures SafeAt(c, t, s.nodes[i].ballot, n, v)
  {
    var b := s.nodes[i].ballot;
    var q := s.hist.prepared[b];
    forall low | Below(low, b)
      ensures SafeBelow(c, t, low, n, v)
    {
      forall a | a in q
        ensures Settled(t, a, low, n, v)
      {
        assert !Voted(s, a, low, n);
      }
      assert AllSettled(t, q, low, n, v);
    }
  }

  lemma DecreeVotes(c: Config, s: System, t: System, i: Id, n: nat, v: Value)
    requires Votes(s) && Slots(s) && Decreed(c, s, t, i, n, v) && Grows(s, t) && LogsGrow(s, t)
    ensures Votes(t) && Slots(t)
  {
    VotesKept(s, t);
    SlotsKept(s, t);
  }

  lemma DecreeChosens(c: Config, s: System, t: System, i: Id, n: nat, v: Value)
    requires Votes(s) && Chosens(c, s) && Safes(c, s) && Decreed(c, s, t, i, n, v)
    requires Grows(s, t) && LogsGrow(s, t) && Casts(c, s, t, i, s.nodes[i].ballot, n)
    requires SafeAt(c, t, s.nodes[i].ballot, n, v)
    ensures Chosens(c, t) && Safes(c, t)
  {
    if n in t.hist.chosen && n !in s.hist.chosen {
      NewChoice(c, s, t, i, s.nodes[i].ballot, n, v);
    }
    ChosensKept(c, s, t);
    SafesKept(c, s, t);
  }

  lemma DecreeOwners(c: Config, s: System, t: System, i: Id, n: nat, v: Value)
    requires Owners(c, s) && DecreedOk(s) && Decreed(c, s, t, i, n, v) && Grows(s, t) && LogsGrow(s, t)
    requires forall b :: b in s.hist.prepared ==> OwnerStays(s, t, b)
    ensures Owners(c, t) && DecreedOk(t)
  {
    OwnersKept(c, s, t);
    forall b, k | b in t.hist.prepared && b.id in t.nodes && k in t.nodes[b.id].log
                  && !t.nodes[b.id].log[k].committed
      ensures t.nodes[b.id].log[k].ballot == b && WasDecreed(t, b, k, t.nodes[b.id].log[k].value)
    {
      assert PreparedOk(c, s, b);
    }
  }

  lemma DecreePromises(c: Config, s: System, t: System, i: Id, n: nat, v: Value)
    requires Promises(c, s) && Chosens(c, t) && Grows(s, t) && HolesGrow(s, t) && Decreed(c, s, t, i, n, v)
    ensures Promises(c, t)
  {
    PromisesKept(c, s, t);
  }

  lemma DecreeCounts(c: Config, s: System, t: System, i: Id, n: nat, v: Value)
    requires Shape(c, s) && Owners(c, s) && Votes(s) && Counts(c, s) && Decreed(c, s, t, i, n, v)
    ensures Counts(c, t)
  {
    forall b, k | b in t.hist.prepared && b.id in t.nodes && k in t.nodes[b.id].log
                  && !t.nodes[b.id].log[k].committed
      ensures t.nodes[b.id].log[k].votes == |Counted(c, t, b, k)|
    {
      assert PreparedOk(c, s, b);
      if b == s.nodes[i].ballot && k == n {
        forall a | a in Counted(c, t, b, k)
          ensures a == i
        {
          assert Voted(s, a, b, k) ==> VoteOk(s, a, b, k);
        }
        assert Counted(c, t, b, k) == {i};
      } else {
        assert Counted(c, t, b, k) == Counted(c, s, b, k);
      }
    }
  }

  lemma DecreeLocal(c: Config, s: System, t: System, i: Id, n: nat, v: Value)
    requires Nodes(c, s) && Preps(c, s) && Promises(c, s) && Decreed(c, s, t, i, n, v)
    ensures Nodes(c, t) && Preps(c, t)
  {
    assert NodeOk(c, s, i);
    ProposerLocal(c, s, t, i);
  }

  lemma DecreeDecrees(c: Config, s: System, t: System, i: Id, n: nat, v: Value)
    requires Shape(c, s) && Votes(s) && DecreeMsgs(s) && Decreed(c, s, t, i, n, v)
    ensures Shape(c, t) && DecreeMsgs(t)
  {
    forall m | m in t.net && m.Decree?
      ensures DecreeOk(t, m)
    {
      if m in s.net {
        assert DecreeOk(s, m);
      } else {
        assert Voted(s, m.dst, m.ballot, m.inum) ==> VoteOk(s, m.dst, m.ballot, m.inum);
      }
    }
  }

  lemma DecreeAccepts(c: Config, s: System, t: System, i: Id, n: nat, v: Value)
    requires Votes(s) && AcceptMsgs(s) && Decreed(c, s, t, i, n, v)
    ensures AcceptMsgs(t)
  {
    forall m | m in t.net && m.Accept?
      ensures AcceptOk(t, m)
    {
      assert AcceptOk(s, m);
      assert VoteOk(s, m.src, m.ballot, m.inum);
    }
  }

  lemma DecreeOtherMsgs(c: Config, s: System, t: System, i: Id, n: nat, v: Value)
    requires PrepareMsgs(s) && PromiseMsgs(s) && CommitMsgs(s) && Decreed(c, s, t, i, n, v)
    requires Grows(s, t) && HolesGrow(s, t)
    ensures PrepareMsgs(t) && PromiseMsgs(t) && CommitMsgs(t)
  {
    PrepareMsgsKept(s, t);
    CommitMsgsKept(s, t);
    forall m | m in t.net && m.Promise?
      ensures PromiseOk(t, m)
    {
      assert PromiseOk(s, m);
    }
  }

  lemma DecreeInv(c: Config, s: System, i: Id, v: Value)
    requires Inv(c, s) && CanPropose(s, i)
    ensures Inv(c, DoDecree(c, s, i, v))
  {
    hide Shape, Nodes, Slots, Preps, Owners, DecreedOk, Votes, Chosens, Safes, Majorities, Promises, Counts,
      PrepareMsgs, PromiseMsgs, AcceptMsgs, CommitMsgs, DecreeMsgs, Grows, LogsGrow, HolesGrow, Casts, SafeAt,
      Decreed;
    var t := DoDecree(c, s, i, v);
    var n := NextInstance(s.nodes[i].log);
    DecreeEffect(c, s, i, v);
    DecreeGrows(c, s, t, i, n, v);
    DecreeStays(c, s, t, i, n, v);
    DecreeSafe(c, s, t, i, n, v);
    DecreeVotes(c, s, t, i, n, v);
    DecreeChosens(c, s, t, i, n, v);
    DecreeOwners(c, s, t, i, n, v);
    MajoritiesCast(c, s, t, i, s.nodes[i].ballot, n);
    DecreePromises(c, s, t, i, n, v);
    DecreeCounts(c, s, t, i, n, v);
    DecreeLocal(c, s, t, i, n, v);
    DecreeDecrees(c, s, t, i, n, v);
    DecreeAccepts(c, s, t, i, n, v);
    DecreeOtherMsgs(c, s, t, i, n, v);
  }

  lemma ProposeInv(c: Config, s: System, i: Id, v: Value)
    requires Inv(c, s) && CanPropose(s, i)
    ensures Inv(c, DoPropose(c, s, i, v))
  {
    hide Shape, Nodes, Slots, Preps, Owners, DecreedOk, Votes, Chosens, Safes, Majorities, Promises, Counts, Msgs,
      IsChosen;
    DecreeInv(c, s, i, v);
    if 1 >= c.Majority() {
      CounterChooses(c, DoDecree(c, s, i, v), i, NextInstance(s.nodes[i].log));
      MarkInv(c, DoDecree(c, s, i, v), i, NextInstance(s.nodes[i].log));
    }
  }
}
