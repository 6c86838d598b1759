/** What a majority voted for in the ballot given in the beginning, every later decree carries. */
module FirstBallot {
  import opened Primitives
  import opened DecreeLog
  import opened Protocol
  import opened Invariants
  import opened Preservation
  import opened PrepareSteps
  import opened VoteSteps
  import opened DecreeSteps
  import opened ProposerSteps
  import opened Agreement
  import opened Ballots

  /** The first ballot never chooses anything but what a later ballot has decreed. */
  ghost predicate FirstSafe(c: Config, s: System) {
    forall d, n :: (d, n) in s.hist.decreed && d != c.reign ==> SafeBelow(c, s, c.reign, n, s.hist.decreed[(d, n)])
  }

  lemma BelowStable(c: Config, s: System, t: System, b: Ballot, n: nat, v: Value)
    requires Grows(s, t) && SafeBelow(c, s, b, n, v)
    ensures SafeBelow(c, t, b, n, v)
  {
    var q :| c.Quorum(q) && AllSettled(s, q, b, n, v);
    forall a | a in q
      ensures Settled(t, a, b, n, v)
    {
      assert Settled(s, a, b, n, v);
    }
    assert AllSettled(t, q, b, n, v);
  }

  lemma FirstKept(c: Config, s: System, t: System)
    requires FirstSafe(c, s) && Grows(s, t)
    requires forall d, n :: (d, n) in t.hist.decreed && (d, n) !in s.hist.decreed && d != c.reign ==>
               SafeBelow(c, t, c.reign, n, t.hist.decreed[(d, n)])
    ensures FirstSafe(c, t)
  {
    hide SafeBelow;
    forall d, n | (d, n) in t.hist.decreed && d != c.reign
      ensures SafeBelow(c, t, c.reign, n, t.hist.decreed[(d, n)])
    {
      if (d, n) in s.hist.decreed {
        BelowStable(c, s, t, c.reign, n, s.hist.decreed[(d, n)]);
      }
    }
  }

  /** No decree, no vote, no choice. */
  ghost predicate Idle(s: System, t: System) {
    && s.nodes.Keys == t.nodes.Keys && (forall i :: i in s.nodes ==> !Below(t.nodes[i].ballot, s.nodes[i].ballot))
    && t.hist.decreed == s.hist.decreed && t.hist.voted == s.hist.voted && t.hist.chosen == s.hist.chosen
  }

  lemma IdleKeeps(c: Config, s: System, t: System)
    requires FirstSafe(c, s) && Idle(s, t)
    ensures FirstSafe(c, t)
  {
    hide FirstSafe;
    assert Grows(s, t);
    FirstKept(c, s, t);
  }

  // ---------------------------------------------------------------- the events

  lemma FinishFirst(c: Config, s: System, i: Id)
    requires Inv(c, s) && AllUsual(c, s) && FirstSafe(c, s) && Finishing(c, s, i)
    ensures FirstSafe(c, FinishPrepare(c, s, i))
  {
    hide FinishPrepare, FirstSafe, Grows, Finished, PreparedOk, AllUsual, SafeBelow;
    var t := FinishPrepare(c, s, i);
    FinishEffect(c, s, i);
    FinishGrows(c, s, t, i);
    FinishPrepared(c, s, t, i);
    forall d, n | (d, n) in t.hist.decreed && (d, n) !in s.hist.decreed && d != c.reign
      ensures SafeBelow(c, t, c.reign, n, t.hist.decreed[(d, n)])
    {
      NewDecree(c, s, t, i, d, n);
      RedecreeFirst(c, s, t, i, n);
    }
    FirstKept(c, s, t);
  }

  lemma NewDecree(c: Config, s: System, t: System, i: Id, d: Ballot, n: nat)
    requires Finished(c, s, t, i) && (d, n) in t.hist.decreed && (d, n) !in s.hist.decreed
    ensures n in t.nodes[i].log && !t.nodes[i].log[n].committed && t.hist.decreed[(d, n)] == t.nodes[i].log[n].value
  {
    hide Redecreed, Decrees;
  }

  /** A value that an acker has voted for in the first ballot is the one re-decreed, unless that one stems from a later
      ballot; and then it is safe already. */
  lemma RedecreeFirst(c: Config, s: System, t: System, i: Id, n: nat)
    requires Nodes(c, s) && Votes(s) && Slots(s) && Invariants.Promises(c, s) && Preps(c, s) && DecreedOk(s)
    requires AllUsual(c, s) && FirstSafe(c, s) && Finished(c, s, t, i) && Grows(s, t)
    requires PreparedOk(c, t, s.nodes[i].prep.value.ballot) && n in t.nodes[i].log && !t.nodes[i].log[n].committed
    ensures SafeBelow(c, t, c.reign, n, t.nodes[i].log[n].value)
  {
    hide SafeBelow, Grows, PreparedOk, Promises, Preps, Nodes, Votes, Slots, FirstSafe, AckersOf, Genuine;
    var x := t.nodes[i].log[n].value;
    assert UsualNode(c, i, s.nodes[i]);
    if a :| a in AckersOf(s.hist, i) && Voted(s, a, c.reign, n) {
      AckerSeen(c, s, i, a, c.reign, n);
      StemsFrom(c, s, i, n);
      if !WasDecreed(s, c.reign, n, x) {
        BelowStable(c, s, t, c.reign, n, x);
      } else {
        SettledByAckers(c, s, t, i, n, c.reign, x);
      }
    } else {
      SettledByAckers(c, s, t, i, n, c.reign, x);
    }
  }

  /** Every value in a log was decreed in some ballot. */
  lemma StemsFrom(c: Config, s: System, i: Id, n: nat)
    requires Slots(s) && FirstSafe(c, s) && i in s.nodes && n in s.nodes[i].log
    ensures var x := s.nodes[i].log[n].value; WasDecreed(s, c.reign, n, x) || SafeBelow(c, s, c.reign, n, x)
  {
    hide SafeBelow;
    assert SlotOk(s, n, s.nodes[i].log[n]);
  }

  lemma AckPromiseFirst(c: Config, s: System, m: Msg)
    requires Inv(c, s) && AllUsual(c, s) && FirstSafe(c, s) && CanAckPromise(s, m)
    ensures FirstSafe(c, DoAckPromise(c, s, m))
  {
    hide Nodes, Slots, Preps, Msgs, Record, AllUsual, FirstSafe, FinishPrepare;
    var t := Collect(s, m);
    CollectInv(c, s, m);
    CollectUsual(c, s, m);
    IdleKeeps(c, s, t);
    if t.nodes[m.dst].prep.value.acks >= c.Majority() {
      SubsetCard({m.src, m.dst}, c.members);
      FinishFirst(c, t, m.dst);
    }
  }

  lemma AckDecreeFirst(c: Config, s: System, m: Msg)
    requires Inv(c, s) && FirstSafe(c, s) && CanAckDecree(s, m)
    ensures FirstSafe(c, DoAckDecree(c, s, m))
  {
    hide FirstSafe, DoAccept, Accepts, Grows, LogsGrow, Slots, Chosens, Safes, Majorities, Counts, Promises, Preps, Votes;
    if Accepts(s.nodes[m.dst].log, m.ballot, m.inum) {
      AcceptGrows(c, s, m);
      SameDecrees(c, s, m);
      FirstKept(c, s, DoAccept(c, s, m));
    } else {
      IdleKeeps(c, s, DoLose(s, m));
    }
  }

  lemma SameDecrees(c: Config, s: System, m: Msg)
    requires CanAckDecree(s, m)
    ensures DoAccept(c, s, m).hist.decreed == s.hist.decreed
  {
  }

  lemma CommitFirst(c: Config, s: System, i: Id, n: nat)
    requires FirstSafe(c, s) && i in s.nodes && n in s.nodes[i].log
    ensures FirstSafe(c, DoCommit(c, s, i, n))
  {
    hide FirstSafe, Commits;
    IdleKeeps(c, s, DoCommit(c, s, i, n));
  }

  lemma AckAcceptFirst(c: Config, s: System, m: Msg)
    requires FirstSafe(c, s) && CanAckAccept(s, m)
    ensures FirstSafe(c, DoAckAccept(c, s, m))
  {
    hide FirstSafe, DoCommit;
    var t := CountVote(s, m);
    IdleKeeps(c, s, t);
    CommitFirst(c, t, m.dst, m.inum);
  }

  lemma ProposeFirst(c: Config, s: System, i: Id, v: Value)
    requires Inv(c, s) && AllUsual(c, s) && FirstSafe(c, s) && CanPropose(s, i)
    ensures FirstSafe(c, DoPropose(c, s, i, v))
  {
    hide FirstSafe, DoCommit, DoDecree, Grows, SafeBelow, SafeAt, Decreed, Slots, Safes, Majorities, Counts, Promises, Preps,
      Msgs, NextInstance;
    var t, n := DoDecree(c, s, i, v), NextInstance(s.nodes[i].log);
    DecreeEffect(c, s, i, v);
    DecreeGrows(c, s, t, i, n, v);
    DecreeSafe(c, s, t, i, n, v);
    FreshFirst(c, s, t, i, n, v);
    FirstKept(c, s, t);
    CommitFirst(c, t, i, n);
  }

  lemma FreshFirst(c: Config, s: System, t: System, i: Id, n: nat, v: Value)
    requires Decreed(c, s, t, i, n, v) && AllUsual(c, s) && SafeAt(c, t, s.nodes[i].ballot, n, v)
    ensures n in t.nodes[i].log
    ensures forall d, k :: (d, k) in t.hist.decreed && (d, k) !in s.hist.decreed && d != c.reign ==>
              SafeBelow(c, t, c.reign, k, t.hist.decreed[(d, k)])
  {
    hide SafeBelow, PreparedOk, Decrees;
    assert UsualNode(c, i, s.nodes[i]);
  }

  lemma NetFirst(c: Config, s: System, e: Event)
    requires FirstSafe(c, s) && Enabled(c, s, e) && (e.Lose? || e.AskAgain? || e.AckRetry?)
    ensures FirstSafe(c, Apply(c, s, e))
  {
    hide FirstSafe, Commits;
    IdleKeeps(c, s, Apply(c, s, e));
  }

  lemma NodeFirst(c: Config, s: System, e: Event)
    requires FirstSafe(c, s) && Enabled(c, s, e) && (e.StartPrepare? || e.Follow? || e.Advance?)
    ensures FirstSafe(c, Apply(c, s, e))
  {
    hide FirstSafe, Prepares;
    IdleKeeps(c, s, Apply(c, s, e));
  }

  lemma PromiseFirst(c: Config, s: System, m: Msg)
    requires FirstSafe(c, s) && CanAckPrepare(s, m)
    ensures FirstSafe(c, DoPromise(s, m))
  {
    hide FirstSafe, Report;
    IdleKeeps(c, s, DoPromise(s, m));
  }

  lemma AckCommitFirst(c: Config, s: System, m: Msg)
    requires FirstSafe(c, s) && CanAckCommit(s, m)
    ensures FirstSafe(c, DoAckCommit(s, m))
  {
    hide FirstSafe, AfterCommit, AfterRecommit;
    IdleKeeps(c, s, DoAckCommit(s, m));
  }

  lemma StepFirst(c: Config, s: System, e: Event)
    requires Inv(c, s) && AllUsual(c, s) && FirstSafe(c, s) && Enabled(c, s, e)
    ensures FirstSafe(c, Apply(c, s, e))
  {
    hide Inv, AllUsual, FirstSafe, DoLose, DoPrepare, DoFollow, DoPromise, DoAckPromise, DoAckDecree, DoAckAccept,
      DoAckCommit, DoPropose, DoAskAgain, DoAckRetry, DoAdvance, CanPrepare, CanFollow, CanAckPrepare, CanAckPromise,
      CanAckDecree, CanAckAccept, CanAckCommit, CanPropose, CanAskAgain, CanAckRetry, CanAdvance;
    match e
    case AckPromise(m) => AckPromiseFirst(c, s, m);
    case AckDecree(m) => AckDecreeFirst(c, s, m);
    case AckAccept(m) => AckAcceptFirst(c, s, m);
    case Propose(i, v) => ProposeFirst(c, s, i, v);
    case AckPrepare(m) => PromiseFirst(c, s, m);
    case AckCommit(m) => AckCommitFirst(c, s, m);
    case StartPrepare(_) | Follow(_, _) | Advance(_) => NodeFirst(c, s, e);
    case Lose(_) | AskAgain(_) | AckRetry(_) => NetFirst(c, s, e);
  }

  lemma {:induction false} RunFirst(c: Config, run: seq<Event>)
    requires c.Valid() && Orderly(c, run)
    ensures FirstSafe(c, After(c, run))
  {
    hide Inv, AllUsual, Init, Apply, Enabled, FirstSafe;
    if run == [] {
      InitFirst(c);
    } else {
      var before := run[..|run| - 1];
      RunInv(c, before);
      RunUsual(c, before);
      RunFirst(c, before);
      StepFirst(c, After(c, before), run[|run| - 1]);
    }
  }

  lemma InitFirst(c: Config)
    ensures FirstSafe(c, Init(c))
  {
  }

  /** If a majority voted for v in the first ballot, every decree for the instance in any ballot is v. */
  lemma FirstStands(c: Config, run: seq<Event>, d: Ballot, n: nat, v: Value, w: Value)
    requires c.Valid() && Orderly(c, run)
    requires var s := After(c, run); WasDecreed(s, c.reign, n, v) && ChosenIn(c, s, c.reign, n) && WasDecreed(s, d, n, w)
    ensures v == w
  {
    hide Init, Apply, Enabled;
    var s := After(c, run);
    RunFirst(c, run);
    if d != c.reign {
      assert SafeBelow(c, s, c.reign, n, w);
      var q :| c.Quorum(q) && AllSettled(s, q, c.reign, n, w);
      VotersQuorum(c, s, c.reign, n);
      var a := QuorumsMeet(c, Voters(c, s.hist.voted, c.reign, n), q);
      assert Settled(s, a, c.reign, n, w);
    }
  }
}
