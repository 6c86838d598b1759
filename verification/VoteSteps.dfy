/** An acceptor votes: `acceptor_ack_decree`.  This is where an instance becomes chosen. */
module VoteSteps {
  import opened Primitives
  import opened DecreeLog
  import opened Protocol
  import opened Invariants
  import opened Preservation
  import opened QuietSteps
  import opened PrepareSteps

  // ---------------------------------------------------------------- casting a vote

  /** The record grows by a's vote in its current ballot b for instance n, and by the choice this may
      complete. */
  ghost predicate Casts(c: Config, s: System, t: System, a: Id, b: Ballot, n: nat) {
    && a in c.members && a in s.nodes && !Below(b, s.nodes[a].ballot) && !Below(s.nodes[a].ballot, b)
    && !Voted(s, a, b, n)
    && t.hist.voted == AddVote(c, s.hist, a, b, n).voted
    && t.hist.chosen == AddVote(c, s.hist, a, b, n).chosen
  }

  lemma MajoritiesCast(c: Config, s: System, t: System, a: Id, b: Ballot, n: nat)
    requires Majorities(c, s) && Casts(c, s, t, a, b, n)
    ensures Majorities(c, t)
  {
    forall low, k | k !in t.hist.chosen
      ensures |Voters(c, t.hist.voted, low, k)| < c.Majority()
    {
      if low != b || k != n {
        assert Voters(c, t.hist.voted, low, k) == Voters(c, s.hist.voted, low, k);
      }
    }
  }

  /** A decree in a higher ballot already carries the value that has just been chosen: its safety names a
      majority that settled ballot b, and that majority meets the voters. */
  lemma HigherAgrees(c: Config, s: System, a: Id, b: Ballot, n: nat, v: Value, voters: set<Id>, high: Ballot, x: Value)
    requires c.Quorum(voters) && (forall k :: k in voters && k != a ==> Voted(s, k, b, n))
    requires a in s.nodes && !Below(b, s.nodes[a].ballot)
    requires SafeAt(c, s, high, n, x) && Below(b, high)
    requires forall y :: WasDecreed(s, b, n, y) ==> y == v
    requires !Voted(s, a, b, n)
    ensures x == v
  {
    assert SafeBelow(c, s, b, n, x);
    var q :| c.Quorum(q) && AllSettled(s, q, b, n, x);
    var k := QuorumsMeet(c, voters, q);
    assert Settled(s, k, b, n, x);
  }

  lemma NewChoice(c: Config, s: System, t: System, a: Id, b: Ballot, n: nat, v: Value)
    requires Casts(c, s, t, a, b, n) && Grows(s, t) && LogsGrow(s, t) && Votes(s) && Safes(c, s)
    requires n !in s.hist.chosen && n in t.hist.chosen
    requires WasDecreed(t, b, n, v) && SafeAt(c, t, b, n, v)
    requires forall high :: (high, n) in t.hist.decreed && (high, n) !in s.hist.decreed ==> high == b
    requires a in t.nodes && n in t.nodes[a].log && !Below(t.nodes[a].log[n].ballot, b)
    ensures ChosenOk(c, t, n)
  {
    var voters := Voters(c, t.hist.voted, b, n);
    assert t.hist.chosen[n] == Choice(b, voters);
    forall k | k in voters
      ensures Voted(t, k, b, n) && k in t.nodes && n in t.nodes[k].log && !Below(t.nodes[k].log[n].ballot, b)
    {
      if k != a {
        assert Voted(s, k, b, n);
        assert VoteOk(s, k, b, n);
        assert SlotGrows(s, t, k, n);
      }
    }
    forall high | (high, n) in t.hist.decreed && !Below(high, b)
      ensures t.hist.decreed[(high, n)] == v
    {
      if high != b {
        BelowTotal(b, high);
        var x := s.hist.decreed[(high, n)];
        assert SafeAt(c, s, high, n, x);
        HigherAgrees(c, s, a, b, n, v, voters, high, x);
      }
    }
  }

  // ---------------------------------------------------------------- AckDecree

  ghost predicate Accepting(s: System, m: Msg) {
    CanAckDecree(s, m) && Accepts(s.nodes[m.dst].log, m.ballot, m.inum)
  }

  /** What the voting step changes outside the record of votes. */
  lemma AcceptGrows(c: Config, s: System, m: Msg)
    requires Shape(c, s) && Owners(c, s) && DecreeMsgs(s) && Accepting(s, m)
    ensures var t := DoAccept(c, s, m);
      && Grows(s, t) && LogsGrow(s, t) && HolesGrow(s, t) && OwnersIdle(s, t)
      && Casts(c, s, t, m.dst, m.ballot, m.inum)
  {
    var t := DoAccept(c, s, m);
    assert DecreeOk(s, m);
    forall b | b in s.hist.prepared
      ensures OwnerStays(s, t, b) && t.nodes[b.id].log == s.nodes[b.id].log
    {
      assert PreparedOk(c, s, b);
    }
  }

  lemma AcceptVotes(c: Config, s: System, m: Msg)
    requires Shape(c, s) && Votes(s) && Slots(s) && DecreeMsgs(s) && Accepting(s, m)
    requires Grows(s, DoAccept(c, s, m)) && LogsGrow(s, DoAccept(c, s, m))
    ensures Votes(DoAccept(c, s, m)) && Slots(DoAccept(c, s, m))
  {
    var t := DoAccept(c, s, m);
    assert DecreeOk(s, m);
    if m.inum in s.nodes[m.dst].log {
      assert SlotOk(s, m.inum, s.nodes[m.dst].log[m.inum]);
    }
    VotesKept(s, t);
    SlotsKept(s, t);
  }

  lemma AcceptChosens(c: Config, s: System, m: Msg)
    requires Shape(c, s) && Votes(s) && Slots(s) && Chosens(c, s) && Safes(c, s) && DecreeMsgs(s) && Accepting(s, m)
    requires var t := DoAccept(c, s, m);
      Grows(s, t) && LogsGrow(s, t) && Casts(c, s, t, m.dst, m.ballot, m.inum)
    ensures Chosens(c, DoAccept(c, s, m))
  {
    var t := DoAccept(c, s, m);
    assert DecreeOk(s, m);
    if m.inum in t.hist.chosen && m.inum !in s.hist.chosen {
      if m.inum in s.nodes[m.dst].log {
        assert SlotOk(s, m.inum, s.nodes[m.dst].log[m.inum]);
      }
      assert SafeAt(c, s, m.ballot, m.inum, s.hist.decreed[(m.ballot, m.inum)]);
      SafeStable(c, s, t, m.ballot, m.inum, m.value);
      NewChoice(c, s, t, m.dst, m.ballot, m.inum, m.value);
    }
    ChosensKept(c, s, t);
  }

  lemma AcceptRecord(c: Config, s: System, m: Msg)
    requires Shape(c, s) && Slots(s) && DecreeMsgs(s) && Record(c, s) && Accepting(s, m)
    ensures Record(c, DoAccept(c, s, m)) && Slots(DoAccept(c, s, m))
  {
    hide Shape, Slots, Owners, DecreedOk, Votes, Chosens, Safes, Majorities, Promises, Counts, DecreeMsgs,
      Grows, LogsGrow, HolesGrow, OwnersIdle, Casts;
    var t := DoAccept(c, s, m);
    AcceptGrows(c, s, m);
    AcceptVotes(c, s, m);
    AcceptChosens(c, s, m);
    MajoritiesCast(c, s, t, m.dst, m.ballot, m.inum);
    AcceptRest(c, s, t);
  }

  /** The parts of the record that a vote does not concern. */
  lemma AcceptRest(c: Config, s: System, t: System)
    requires Owners(c, s) && DecreedOk(s) && Safes(c, s) && Promises(c, s) && Counts(c, s)
    requires Grows(s, t) && LogsGrow(s, t) && HolesGrow(s, t) && OwnersIdle(s, t) && Chosens(c, t)
    requires t.hist.decreed == s.hist.decreed && t.hist.promised == s.hist.promised
    requires t.hist.prepared == s.hist.prepared && t.hist.counted == s.hist.counted
    ensures Owners(c, t) && DecreedOk(t) && Safes(c, t) && Promises(c, t) && Counts(c, t)
  {
    OwnersKept(c, s, t);
    SafesKept(c, s, t);
    PromisesKept(c, s, t);
    forall b, n | b in t.hist.prepared && b.id in t.nodes && n in t.nodes[b.id].log
                  && !t.nodes[b.id].log[n].committed
      ensures t.nodes[b.id].log[n].votes == |Counted(c, t, b, n)|
    {
      assert OwnerStays(s, t, b);
      assert Counted(c, t, b, n) == Counted(c, s, b, n);
    }
    assert forall b :: b in s.hist.prepared ==> OwnerStays(s, t, b);
  }

  lemma AcceptLocal(c: Config, s: System, m: Msg)
    requires Shape(c, s) && Nodes(c, s) && DecreedOk(s) && Preps(c, s) && DecreeMsgs(s) && Promises(c, s)
    requires Accepting(s, m)
    ensures var t := DoAccept(c, s, m); Shape(c, t) && Nodes(c, t) && Preps(c, t)
  {
    var t := DoAccept(c, s, m);
    assert DecreeOk(s, m);
    DecreedBase(c, s, m.ballot, m.inum);
    assert NodeOk(c, s, m.dst);
    NodesKept(c, s, t);
    PrepsKept(c, s, t);
  }

  lemma AcceptDecreeMsgs(c: Config, s: System, m: Msg)
    requires Shape(c, s) && DecreeMsgs(s) && Accepting(s, m)
    ensures DecreeMsgs(DoAccept(c, s, m))
  {
    var t := DoAccept(c, s, m);
    assert DecreeOk(s, m);
    forall d | d in t.net && d.Decree?
      ensures DecreeOk(t, d)
    {
      assert DecreeOk(s, d);
    }
  }

  lemma AcceptAcceptMsgs(c: Config, s: System, m: Msg)
    requires Shape(c, s) && DecreeMsgs(s) && AcceptMsgs(s) && Counts(c, s) && Accepting(s, m)
    ensures AcceptMsgs(DoAccept(c, s, m))
  {
    var t := DoAccept(c, s, m);
    assert DecreeOk(s, m);
    forall d | d in t.net && d.Accept?
      ensures AcceptOk(t, d)
    {
      if d in s.net {
        assert AcceptOk(s, d);
      }
    }
  }

  lemma AcceptMsgsAll(c: Config, s: System, m: Msg)
    requires Shape(c, s) && Msgs(s) && Counts(c, s) && Accepting(s, m)
    requires Grows(s, DoAccept(c, s, m)) && HolesGrow(s, DoAccept(c, s, m))
    ensures Msgs(DoAccept(c, s, m))
  {
    var t := DoAccept(c, s, m);
    AcceptDecreeMsgs(c, s, m);
    AcceptAcceptMsgs(c, s, m);
    PrepareMsgsKept(s, t);
    CommitMsgsKept(s, t);
    forall d | d in t.net && d.Promise?
      ensures PromiseOk(t, d)
    {
      assert PromiseOk(s, d);
    }
  }

  lemma AckDecreeInv(c: Config, s: System, m: Msg)
    requires Inv(c, s) && CanAckDecree(s, m)
    ensures Inv(c, DoAckDecree(c, s, m))
  {
    hide Shape, Nodes, Slots, Preps, Owners, DecreedOk, Votes, Chosens, Safes, Majorities, Promises, Counts,
      PrepareMsgs, PromiseMsgs, AcceptMsgs, CommitMsgs, DecreeMsgs, OwnersIdle, Grows, LogsGrow, HolesGrow, Casts;
    if Accepting(s, m) {
      AcceptGrows(c, s, m);
      AcceptRecord(c, s, m);
      AcceptLocal(c, s, m);
      AcceptMsgsAll(c, s, m);
    } else {
      LoseInv(c, s, m);
    }
  }
}
