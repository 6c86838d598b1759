/** The prepared proposer's events: finishing a prepare, counting votes, committing, and making fresh decrees. */
module DecreeSteps {
  import opened Primitives
  import opened DecreeLog
  import opened Protocol
  import opened Invariants
  import opened Preservation
  import opened QuietSteps
  import opened PrepareSteps
  import opened VoteSteps

  // ---------------------------------------------------------------- what a majority of promises knows

  /** Node i has a pending prepare whose ackers are a majority of a membership of at least two. */
  ghost predicate Finishing(c: Config, s: System, i: Id) {
    && i in s.nodes && s.nodes[i].prep.Some? && s.nodes[i].log.Keys != {}
    && s.nodes[i].prep.value.acks >= c.Majority() >= 2
  }

  /** Nothing was decreed yet in the ballot of a pending prepare. */
  lemma PendingFresh(c: Config, s: System, i: Id)
    requires Nodes(c, s) && Owners(c, s) && DecreedOk(s) && Finishing(c, s, i)
    ensures var b := s.nodes[i].prep.value.ballot;
      b !in s.hist.prepared && (forall n :: (b, n) !in s.hist.decreed) && b.id == i
      && Below(s.nodes[i].ballot, b)
  {
    var b := s.nodes[i].prep.value.ballot;
    assert NodeOk(c, s, i);
    assert b in s.hist.prepared ==> PreparedOk(c, s, b);
  }

  /** Whatever an acker voted for in a lower ballot is in the preparer's log, and as long as the instance is
      not chosen, under that ballot or a higher one. */
  lemma AckerSeen(c: Config, s: System, i: Id, a: Id, low: Ballot, n: nat)
    requires Nodes(c, s) && Votes(s) && Slots(s) && Promises(c, s) && Preps(c, s) && DecreedOk(s) && Finishing(c, s, i)
    requires a in AckersOf(s.hist, i) && Voted(s, a, low, n) && Below(low, s.nodes[i].prep.value.ballot)
    ensures n in s.nodes[i].log
    ensures n !in s.hist.chosen ==> !Below(s.nodes[i].log[n].ballot, low) && !s.nodes[i].log[n].committed
  {
    var b := s.nodes[i].prep.value.ballot;
    assert PrepOk(c, s, i) && VoteOk(s, a, low, n) && NodeOk(c, s, i);
    DecreedBase(c, s, low, n);
    if a != i {
      assert PromisedOk(c, s, a, b);
    }
    if n in s.nodes[i].log {
      assert SlotOk(s, n, s.nodes[i].log[n]);
    }
  }

  /** If n was first chosen in a lower ballot, the preparer's log holds it under that ballot or a higher one,
      or committed; either way with the chosen value. */
  lemma ChosenSeen(c: Config, s: System, i: Id, n: nat)
    requires Nodes(c, s) && Owners(c, s) && Votes(s) && Slots(s) && Chosens(c, s) && Promises(c, s) && Preps(c, s)
    requires DecreedOk(s) && Finishing(c, s, i)
    requires n in s.hist.chosen && Below(s.hist.chosen[n].ballot, s.nodes[i].prep.value.ballot)
    ensures n in s.nodes[i].log && IsChosen(s, n, s.nodes[i].log[n].value)
  {
    var b := s.nodes[i].prep.value.ballot;
    assert ChosenOk(c, s, n) && PrepOk(c, s, i) && NodeOk(c, s, i);
    var a := QuorumsMeet(c, s.hist.chosen[n].quorum, AckersOf(s.hist, i));
    DecreedBase(c, s, s.hist.chosen[n].ballot, n);
    if a != i && n >= s.nodes[i].hole {
      assert PromisedOk(c, s, a, b);
    }
    assert SlotOk(s, n, s.nodes[i].log[n]);
  }

  /** Every acker has reached the ballot, except possibly the preparer itself. */
  lemma AckersReached(c: Config, s: System, i: Id, a: Id)
    requires Promises(c, s) && Preps(c, s) && Finishing(c, s, i) && a in AckersOf(s.hist, i) && a != i
    ensures a in s.nodes && !Below(s.nodes[a].ballot, s.nodes[i].prep.value.ballot)
  {
    assert PrepOk(c, s, i);
    assert PromisedOk(c, s, a, s.nodes[i].prep.value.ballot);
  }

  // ---------------------------------------------------------------- finishing a prepare

  /** The log a finished prepare leaves: committed slots as they were, all others re-decreed in the ballot. */
  ghost predicate Redecreed(x: Log, y: Log, b: Ballot) {
    && (forall n :: n in x ==> n in y)
    && (forall n :: n in y && y[n].committed ==> n in x && y[n] == x[n])
    && (forall n :: n in y && !y[n].committed ==>
          && y[n].ballot == b && y[n].votes == 1
          && (n in x ==> !x[n].committed && y[n].value == x[n].value))
  }

  lemma FinishLog(c: Config, s: System, i: Id)
    requires Shape(c, s) && Nodes(c, s) && Finishing(c, s, i)
    ensures var t := FinishPrepare(c, s, i);
      && Redecreed(s.nodes[i].log, t.nodes[i].log, s.nodes[i].prep.value.ballot)
      && (forall n :: n in t.nodes[i].log ==> c.base <= n)
      && (forall n :: n in t.nodes[i].log && !t.nodes[i].log[n].committed ==> n in Open(t.nodes[i].log, s.nodes[i].hole))
  {
    var nd := s.nodes[i];
    assert NodeOk(c, s, i);
    FinishMeaning(nd.log, nd.hole, Last(nd.log), nd.prep.value.ballot, i, nd.reqid);
  }

  /** The effect of finishing, in terms of the relation above. */
  ghost predicate Finished(c: Config, s: System, t: System, i: Id) {
    && Finishing(c, s, i)
    && t.nodes.Keys == s.nodes.Keys && (forall j :: j in s.nodes && j != i ==> t.nodes[j] == s.nodes[j])
    && (var b := s.nodes[i].prep.value.ballot;
        var open := Open(t.nodes[i].log, s.nodes[i].hole);
        && t.nodes[i] == s.nodes[i].(ballot := b, prep := None, log := t.nodes[i].log, reqid := t.nodes[i].reqid)
        && Redecreed(s.nodes[i].log, t.nodes[i].log, b)
        && (forall n :: n in t.nodes[i].log ==> c.base <= n)
        && (forall n :: n in t.nodes[i].log && !t.nodes[i].log[n].committed ==> n in open)
        && t.net == s.net + Decrees(c, i, b, open, t.nodes[i].log)
        && t.hist == s.hist.(
             decreed := s.hist.decreed + (map n | n in open :: (b, n) := t.nodes[i].log[n].value),
             voted := s.hist.voted + (set n | n in open :: (i, b, n)),
             counted := s.hist.counted + (set n | n in open :: (i, b, n)),
             prepared := s.hist.prepared[b := AckersOf(s.hist, i)]))
  }

  lemma FinishEffect(c: Config, s: System, i: Id)
    requires Shape(c, s) && Nodes(c, s) && Finishing(c, s, i)
    ensures Finished(c, s, FinishPrepare(c, s, i), i)
  {
    hide Shape, Nodes, Redecreed, Decrees, Open, AckersOf, Last;
    FinishLog(c, s, i);
  }

  lemma FinishGrows(c: Config, s: System, t: System, i: Id)
    requires Nodes(c, s) && Owners(c, s) && DecreedOk(s) && Finished(c, s, t, i)
    ensures Grows(s, t) && HolesGrow(s, t)
  {
    hide Nodes, Owners, DecreedOk, Finished;
    IsFinishing(c, s, t, i);
    PendingFresh(c, s, i);
    FinishKeepsDecrees(c, s, t, i);
    FinishVoted(c, s, t, i);
    FinishHoles(c, s, t, i);
  }

  lemma IsFinishing(c: Config, s: System, t: System, i: Id)
    requires Finished(c, s, t, i)
    ensures Finishing(c, s, i)
  {
  }

  lemma FinishHoles(c: Config, s: System, t: System, i: Id)
    requires Finished(c, s, t, i) && Below(s.nodes[i].ballot, s.nodes[i].prep.value.ballot)
    ensures t.hist.chosen == s.hist.chosen && HolesGrow(s, t)
    ensures forall j :: j in s.nodes ==> !Below(t.nodes[j].ballot, s.nodes[j].ballot)
  {
    hide Redecreed, Decrees, Open, AckersOf;
  }

  lemma FinishVoted(c: Config, s: System, t: System, i: Id)
    requires Finished(c, s, t, i) && Below(s.nodes[i].ballot, s.nodes[i].prep.value.ballot)
    ensures forall a, b, n :: Voted(s, a, b, n) ==> Voted(t, a, b, n)
    ensures forall a, b, n :: Voted(t, a, b, n) && a in s.nodes ==> Voted(s, a, b, n) || !Below(b, s.nodes[a].ballot)
  {
    hide Redecreed, Decrees, Open, AckersOf;
    forall a, b, n | Voted(t, a, b, n) && a in s.nodes
      ensures Voted(s, a, b, n) || !Below(b, s.nodes[a].ballot)
    {
      assert Voted(s, a, b, n) || (a == i && b == t.nodes[i].ballot);
    }
  }

  lemma FinishKeepsDecrees(c: Config, s: System, t: System, i: Id)
    requires Finished(c, s, t, i) && forall n :: (s.nodes[i].prep.value.ballot, n) !in s.hist.decreed
    ensures forall b, n :: (b, n) in s.hist.decreed ==>
              (b, n) in t.hist.decreed && t.hist.decreed[(b, n)] == s.hist.decreed[(b, n)]
  {
    hide Redecreed, Decrees, Open;
  }

  lemma FinishLogs(c: Config, s: System, t: System, i: Id)
    requires Nodes(c, s) && Owners(c, s) && DecreedOk(s) && Finished(c, s, t, i)
    ensures LogsGrow(s, t)
  {
    PendingFresh(c, s, i);
  }

  lemma FinishStays(c: Config, s: System, t: System, i: Id)
    requires Nodes(c, s) && Owners(c, s) && DecreedOk(s) && Finished(c, s, t, i)
    ensures forall b :: b in s.hist.prepared ==> OwnerStays(s, t, b)
  {
    PendingFresh(c, s, i);
    forall b | b in s.hist.prepared
      ensures OwnerStays(s, t, b)
    {
      assert PreparedOk(c, s, b);
    }
  }

  lemma FinishPrepared(c: Config, s: System, t: System, i: Id)
    requires Nodes(c, s) && Votes(s) && Slots(s) && Promises(c, s) && Preps(c, s) && DecreedOk(s) && Owners(c, s)
    requires Finished(c, s, t, i) && Grows(s, t)
    ensures PreparedOk(c, t, s.nodes[i].prep.value.ballot)
  {
    var b := s.nodes[i].prep.value.ballot;
    var who := AckersOf(s.hist, i);
    PendingFresh(c, s, i);
    assert PrepOk(c, s, i) && NodeOk(c, s, i);
    forall a | a in who
      ensures a in t.nodes && !Below(t.nodes[a].ballot, b)
    {
      if a != i {
        AckersReached(c, s, i, a);
      }
    }
    forall a, low, n | a in who && Voted(t, a, low, n) && Below(low, b)
      ensures n in t.nodes[i].log
    {
      assert Voted(s, a, low, n);
      AckerSeen(c, s, i, a, low, n);
    }
  }

  lemma FinishOwners(c: Config, s: System, t: System, i: Id)
    requires Owners(c, s) && DecreedOk(s) && Nodes(c, s)
    requires Finished(c, s, t, i) && Grows(s, t) && LogsGrow(s, t)
    requires forall b :: b in s.hist.prepared ==> OwnerStays(s, t, b)
    requires PreparedOk(c, t, s.nodes[i].prep.value.ballot)
    ensures Owners(c, t)
  {
    OwnersKept(c, s, t);
  }

  lemma FinishDecreed(c: Config, s: System, t: System, i: Id)
    requires Owners(c, s) && DecreedOk(s) && Nodes(c, s) && Finished(c, s, t, i)
    ensures DecreedOk(t)
  {
    PendingFresh(c, s, i);
    forall b, n | b in t.hist.prepared && b.id in t.nodes && n in t.nodes[b.id].log
                  && !t.nodes[b.id].log[n].committed
      ensures t.nodes[b.id].log[n].ballot == b && WasDecreed(t, b, n, t.nodes[b.id].log[n].value)
    {
      if b != s.nodes[i].prep.value.ballot {
        assert PreparedOk(c, s, b);
      }
    }
  }

  lemma FinishVotes(c: Config, s: System, t: System, i: Id)
    requires Votes(s) && Finished(c, s, t, i) && Grows(s, t) && LogsGrow(s, t)
    ensures Votes(t)
  {
    VotesKept(s, t);
  }

  lemma FinishSlots(c: Config, s: System, t: System, i: Id)
    requires Slots(s) && Finished(c, s, t, i) && Grows(s, t)
    ensures Slots(t)
  {
    SlotsKept(s, t);
  }

  lemma FinishChosens(c: Config, s: System, t: System, i: Id)
    requires Nodes(c, s) && Owners(c, s) && Votes(s) && Slots(s) && Chosens(c, s) && Promises(c, s) && Preps(c, s)
    requires DecreedOk(s) && Finished(c, s, t, i) && Grows(s, t) && LogsGrow(s, t)
    ensures Chosens(c, t)
  {
    forall n | n in s.hist.chosen
      ensures NewDecreesAgree(s, t, n)
    {
      if Below(s.hist.chosen[n].ballot, s.nodes[i].prep.value.ballot) {
        ChosenSeen(c, s, i, n);
      }
    }
    ChosensKept(c, s, t);
  }

  /** What was decreed in a ballot is safe in every lower one. */
  lemma HigherIsSafe(c: Config, s: System, t: System, h: Ballot, n: nat, low: Ballot)
    requires Safes(c, s) && Grows(s, t) && (h, n) in s.hist.decreed && n !in s.hist.chosen && Below(low, h)
    ensures SafeBelow(c, t, low, n, s.hist.decreed[(h, n)])
  {
    var x := s.hist.decreed[(h, n)];
    assert SafeAt(c, s, h, n, x);
    SafeStable(c, s, t, h, n, x);
  }

  /** A re-decreed or null value is safe in the new ballot: below it, either no acker voted and none will, or
      the value carries the highest such vote. */
  lemma FinishSafe(c: Config, s: System, t: System, i: Id, n: nat, low: Ballot)
    requires Nodes(c, s) && Owners(c, s) && Votes(s) && Slots(s) && Safes(c, s) && Promises(c, s) && Preps(c, s)
    requires DecreedOk(s) && Finished(c, s, t, i) && Grows(s, t)
    requires PreparedOk(c, t, s.nodes[i].prep.value.ballot)
    requires n in t.nodes[i].log && !t.nodes[i].log[n].committed && n !in s.hist.chosen
    requires Below(low, s.nodes[i].prep.value.ballot)
    ensures SafeBelow(c, t, low, n, t.nodes[i].log[n].value)
  {
    hide Nodes, Owners, Votes, Safes, Promises, Preps, DecreedOk, PreparedOk, SafeBelow, Grows, AckersOf;
    var who := AckersOf(s.hist, i);
    var x := t.nodes[i].log[n].value;
    if a :| a in who && Voted(s, a, low, n) {
      AckerSeen(c, s, i, a, low, n);
      var h := s.nodes[i].log[n].ballot;
      assert SlotOk(s, n, s.nodes[i].log[n]);
      if h != low {
        BelowTotal(h, low);
        HigherIsSafe(c, s, t, h, n, low);
      } else {
        SettledByAckers(c, s, t, i, n, low, x);
      }
    } else {
      SettledByAckers(c, s, t, i, n, low, x);
    }
  }

  lemma SettledByAckers(c: Config, s: System, t: System, i: Id, n: nat, low: Ballot, x: Value)
    requires Votes(s) && Finished(c, s, t, i) && Grows(s, t)
    requires PreparedOk(c, t, s.nodes[i].prep.value.ballot)
    requires Below(low, s.nodes[i].prep.value.ballot)
    requires forall a :: a in AckersOf(s.hist, i) && Voted(s, a, low, n) ==> WasDecreed(s, low, n, x)
    ensures SafeBelow(c, t, low, n, x)
  {
    var who := AckersOf(s.hist, i);
    forall a | a in who
      ensures Settled(t, a, low, n, x)
    {
      if Voted(t, a, low, n) {
        assert Voted(s, a, low, n);
      }
    }
    assert AllSettled(t, who, low, n, x);
  }

  lemma FinishSafes(c: Config, s: System, t: System, i: Id)
    requires Nodes(c, s) && Owners(c, s) && Votes(s) && Slots(s) && Safes(c, s) && Promises(c, s) && Preps(c, s)
    requires DecreedOk(s) && Finished(c, s, t, i) && Grows(s, t)
    requires PreparedOk(c, t, s.nodes[i].prep.value.ballot)
    ensures Safes(c, t)
  {
    forall b, n | (b, n) in t.hist.decreed && (b, n) !in s.hist.decreed && n !in t.hist.chosen
      ensures SafeAt(c, t, b, n, t.hist.decreed[(b, n)])
    {
      forall low | Below(low, b)
        ensures SafeBelow(c, t, low, n, t.hist.decreed[(b, n)])
      {
        FinishSafe(c, s, t, i, n, low);
      }
    }
    SafesKept(c, s, t);
  }

  lemma FinishMajorities(c: Config, s: System, t: System, i: Id)
    requires Nodes(c, s) && Owners(c, s) && DecreedOk(s) && Votes(s) && Majorities(c, s) && Finished(c, s, t, i)
    ensures Majorities(c, t)
  {
    var b := s.nodes[i].prep.value.ballot;
    PendingFresh(c, s, i);
    forall low, n | n !in t.hist.chosen
      ensures |Voters(c, t.hist.voted, low, n)| < c.Majority()
    {
      if low != b {
        assert Voters(c, t.hist.voted, low, n) == Voters(c, s.hist.voted, low, n);
      } else {
        forall a | a in Voters(c, t.hist.voted, b, n)
          ensures a == i
        {
          assert Voted(s, a, b, n) ==> VoteOk(s, a, b, n);
        }
        SubsetCard(Voters(c, t.hist.voted, b, n), {i});
      }
    }
  }

  lemma FinishCounts(c: Config, s: System, t: System, i: Id)
    requires Shape(c, s) && Nodes(c, s) && Owners(c, s) && DecreedOk(s) && Votes(s) && Counts(c, s)
    requires Finished(c, s, t, i)
    ensures Counts(c, t)
  {
    var mine := s.nodes[i].prep.value.ballot;
    PendingFresh(c, s, i);
    forall b, n | b in t.hist.prepared && b.id in t.nodes && n in t.nodes[b.id].log
                  && !t.nodes[b.id].log[n].committed
      ensures t.nodes[b.id].log[n].votes == |Counted(c, t, b, n)|
    {
      if b != mine {
        assert PreparedOk(c, s, b);
        assert Counted(c, t, b, n) == Counted(c, s, b, n);
      } else {
        forall a | a in Counted(c, t, b, n)
          ensures a == i
        {
          assert Voted(s, a, b, n) ==> VoteOk(s, a, b, n);
        }
        assert Counted(c, t, b, n) == {i};
      }
    }
  }

  lemma FinishRecord(c: Config, s: System, t: System, i: Id)
    requires Shape(c, s) && Nodes(c, s) && Slots(s) && Preps(c, s) && Record(c, s) && Finished(c, s, t, i)
    ensures Record(c, t) && Slots(t) && Grows(s, t) && HolesGrow(s, t)
  {
    hide Shape, Nodes, Slots, Preps, Owners, DecreedOk, Votes, Chosens, Safes, Majorities, Promises, Counts,
      Grows, LogsGrow, HolesGrow, PreparedOk;
    FinishGrows(c, s, t, i);
    FinishLogs(c, s, t, i);
    FinishStays(c, s, t, i);
    FinishPrepared(c, s, t, i);
    FinishOwners(c, s, t, i);
    FinishDecreed(c, s, t, i);
    FinishVotes(c, s, t, i);
    FinishSlots(c, s, t, i);
    FinishChosens(c, s, t, i);
    FinishSafes(c, s, t, i);
    FinishMajorities(c, s, t, i);
    FinishCounts(c, s, t, i);
    FinishPromises(c, s, t, i);
  }

  lemma FinishPromises(c: Config, s: System, t: System, i: Id)
    requires Promises(c, s) && Chosens(c, t) && Grows(s, t) && HolesGrow(s, t) && Finished(c, s, t, i)
    ensures Promises(c, t)
  {
    PromisesKept(c, s, t);
  }

  lemma FinishLocal(c: Config, s: System, t: System, i: Id)
    requires Shape(c, s) && Nodes(c, s) && Preps(c, s) && Promises(c, s) && Owners(c, s) && DecreedOk(s)
    requires Finished(c, s, t, i)
    ensures Nodes(c, t) && Preps(c, t)
  {
    PendingFresh(c, s, i);
    assert NodeOk(c, s, i);
    assert NodeOk(c, t, i);
    NodesKept(c, s, t);
    PrepsKept(c, s, t);
  }

  lemma FinishDecrees(c: Config, s: System, t: System, i: Id)
    requires Shape(c, s) && Nodes(c, s) && Owners(c, s) && DecreedOk(s) && Votes(s) && DecreeMsgs(s)
    requires Finished(c, s, t, i)
    ensures DecreeMsgs(t)
  {
    PendingFresh(c, s, i);
    forall m | m in t.net && m.Decree?
      ensures DecreeOk(t, m)
    {
      if m in s.net {
        assert DecreeOk(s, m);
      } else {
        assert Voted(s, m.dst, m.ballot, m.inum) ==> VoteOk(s, m.dst, m.ballot, m.inum);
      }
    }
  }

  lemma FinishAccepts(c: Config, s: System, t: System, i: Id)
    requires Nodes(c, s) && Owners(c, s) && DecreedOk(s) && Votes(s) && AcceptMsgs(s) && Finished(c, s, t, i)
    ensures AcceptMsgs(t)
  {
    PendingFresh(c, s, i);
    forall m | m in t.net && m.Accept?
      ensures AcceptOk(t, m)
    {
      assert AcceptOk(s, m);
      assert VoteOk(s, m.src, m.ballot, m.inum);
    }
  }

  lemma FinishOtherMsgs(c: Config, s: System, t: System, i: Id)
    requires PrepareMsgs(s) && PromiseMsgs(s) && CommitMsgs(s)
    requires Finished(c, s, t, i) && Grows(s, t) && HolesGrow(s, t)
    ensures PrepareMsgs(t) && PromiseMsgs(t) && CommitMsgs(t)
  {
    PrepareMsgsKept(s, t);
    CommitMsgsKept(s, t);
    forall m | m in t.net && m.Promise?
      ensures PromiseOk(t, m)
    {
      assert PromiseOk(s, m);
    }
  }

  lemma FinishShape(c: Config, s: System, t: System, i: Id)
    requires Shape(c, s) && Finished(c, s, t, i)
    ensures Shape(c, t)
  {
  }

  lemma FinishInv(c: Config, s: System, i: Id)
    requires Inv(c, s) && Finishing(c, s, i)
    ensures Inv(c, FinishPrepare(c, s, i))
  {
    hide Shape, Nodes, Slots, Preps, Owners, DecreedOk, Votes, Chosens, Safes, Majorities, Promises, Counts,
      PrepareMsgs, PromiseMsgs, AcceptMsgs, CommitMsgs, DecreeMsgs, Finished, Grows, HolesGrow;
    var t := FinishPrepare(c, s, i);
    FinishEffect(c, s, i);
    FinishShape(c, s, t, i);
    FinishRecord(c, s, t, i);
    FinishLocal(c, s, t, i);
    FinishDecrees(c, s, t, i);
    FinishAccepts(c, s, t, i);
    FinishOtherMsgs(c, s, t, i);
  }
}
