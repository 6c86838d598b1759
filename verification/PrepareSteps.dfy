/** The prepare phase up to the majority: starting a prepare, promising, and collecting a promise; and the
    receipt of a commit. */
module PrepareSteps {
  import opened Primitives
  import opened DecreeLog
  import opened Protocol
  import opened Invariants
  import opened Preservation
  import opened QuietSteps

  // ---------------------------------------------------------------- StartPrepare

  lemma StartQuiet(c: Config, s: System, i: Id)
    requires Shape(c, s) && Owners(c, s) && CanPrepare(s, i)
    ensures Quiet(s, DoPrepare(c, s, i))
  {
    OneNode(c, s, DoPrepare(c, s, i), i);
  }

  lemma StartLocal(c: Config, s: System, i: Id)
    requires Shape(c, s) && Nodes(c, s) && CanPrepare(s, i)
    ensures var t := DoPrepare(c, s, i); Shape(c, t) && LocalStep(c, s, t, i)
  {
    assert NodeOk(c, s, i);
    assert |{i}| == 1;
  }

  lemma StartMsgs(c: Config, s: System, i: Id)
    requires Shape(c, s) && Msgs(s) && CanPrepare(s, i) && Quiet(s, DoPrepare(c, s, i))
    ensures Msgs(DoPrepare(c, s, i))
  {
    var t := DoPrepare(c, s, i);
    PrepareMsgsKept(s, t);
    CommitMsgsKept(s, t);
    forall m | m in t.net && m.Promise?
      ensures PromiseOk(t, m)
    {
      assert PromiseOk(s, m);
    }
    forall m | m in t.net && m.Decree?
      ensures DecreeOk(t, m)
    {
      assert DecreeOk(s, m);
    }
    forall m | m in t.net && m.Accept?
      ensures AcceptOk(t, m)
    {
      assert AcceptOk(s, m);
    }
  }

  lemma StartInv(c: Config, s: System, i: Id)
    requires Inv(c, s) && CanPrepare(s, i)
    ensures Inv(c, DoPrepare(c, s, i))
  {
    hide Shape, Nodes, Slots, Preps, Msgs, Owners, DecreedOk, Votes, Chosens, Safes, Majorities, Promises, Counts,
      LocalStep, Quiet;
    StartQuiet(c, s, i);
    StartLocal(c, s, i);
    StartMsgs(c, s, i);
    OneNodeInv(c, s, DoPrepare(c, s, i), i);
  }

  // ---------------------------------------------------------------- AckPrepare

  lemma PromiseQuiet(c: Config, s: System, m: Msg)
    requires Shape(c, s) && Owners(c, s) && CanAckPrepare(s, m)
    ensures Quiet(s, DoPromise(s, m))
  {
    OneNode(c, s, DoPromise(s, m), m.dst);
  }

  lemma PromiseLocal(c: Config, s: System, m: Msg)
    requires Shape(c, s) && Nodes(c, s) && CanAckPrepare(s, m)
    ensures var t := DoPromise(s, m); Shape(c, t) && LocalStep(c, s, t, m.dst)
  {
    assert NodeOk(c, s, m.dst);
  }

  /** What the promise reports is genuine and covers the sender's votes. */
  lemma PromiseRecorded(c: Config, s: System, m: Msg)
    requires Shape(c, s) && Nodes(c, s) && Votes(s) && Slots(s) && Chosens(c, s) && Promises(c, s)
    requires PrepareMsgs(s) && CanAckPrepare(s, m)
    ensures PromisesAdded(c, s, DoPromise(s, m)) && (m.dst, m.ballot) !in s.hist.promised
  {
    var t := DoPromise(s, m);
    var a, b := m.dst, m.ballot;
    assert PrepareOk(s, m) && NodeOk(c, s, a);
    assert (a, b) in s.hist.promised ==> PromisedOk(c, s, a, b);
    var votes := Report(s.nodes[a].log, m.hole);
    forall n | n in votes
      ensures c.base <= n && Genuine(t, n, votes[n].ballot, votes[n].value)
    {
      assert SlotOk(s, n, s.nodes[a].log[n]);
    }
    forall low, n | Voted(t, a, low, n) && m.hole <= n
      ensures n in votes && (n !in t.hist.chosen ==> !Below(votes[n].ballot, low))
    {
      assert VoteOk(s, a, low, n);
    }
    forall n | n in t.hist.chosen && a in t.hist.chosen[n].quorum && m.hole <= n
      ensures n in votes && !Below(votes[n].ballot, t.hist.chosen[n].ballot)
    {
      assert ChosenOk(c, s, n);
    }
    assert PromisedOk(c, t, a, b);
  }

  lemma PromiseMsg(c: Config, s: System, m: Msg)
    requires Shape(c, s) && PromiseMsgs(s) && Preps(c, s) && CanAckPrepare(s, m) && PrepareOk(s, m)
    requires (m.dst, m.ballot) !in s.hist.promised
    ensures PromiseMsgs(DoPromise(s, m))
  {
    var t := DoPromise(s, m);
    forall p | p in t.net && p.Promise?
      ensures PromiseOk(t, p)
    {
      if p in s.net {
        assert PromiseOk(s, p);
      } else {
        assert p.dst in s.nodes && p.src == m.dst && p.ballot == m.ballot;
        if s.nodes[p.dst].prep.Some? {
          assert PrepOk(c, s, p.dst);
        }
      }
    }
  }

  lemma PromiseMsgsAll(c: Config, s: System, m: Msg)
    requires Shape(c, s) && Msgs(s) && Preps(c, s) && CanAckPrepare(s, m) && Quiet(s, DoPromise(s, m))
    requires (m.dst, m.ballot) !in s.hist.promised
    ensures Msgs(DoPromise(s, m))
  {
    var t := DoPromise(s, m);
    assert PrepareOk(s, m);
    PromiseMsg(c, s, m);
    PrepareMsgsKept(s, t);
    CommitMsgsKept(s, t);
    forall d | d in t.net && d.Decree?
      ensures DecreeOk(t, d)
    {
      assert DecreeOk(s, d);
    }
    forall d | d in t.net && d.Accept?
      ensures AcceptOk(t, d)
    {
      assert AcceptOk(s, d);
    }
  }

  lemma PromiseInv(c: Config, s: System, m: Msg)
    requires Inv(c, s) && CanAckPrepare(s, m)
    ensures Inv(c, DoPromise(s, m))
  {
    hide Shape, Nodes, Slots, Preps, Owners, DecreedOk, Votes, Chosens, Safes, Majorities, Promises, Counts,
      PrepareMsgs, PromiseMsgs, AcceptMsgs, CommitMsgs, DecreeMsgs, LocalStep, Quiet, PromisesAdded;
    PromiseQuiet(c, s, m);
    PromiseLocal(c, s, m);
    PromiseRecorded(c, s, m);
    PromiseMsgsAll(c, s, m);
    OneNodeInv(c, s, DoPromise(s, m), m.dst);
  }

  // ---------------------------------------------------------------- AckCommit

  lemma CommitQuiet(c: Config, s: System, m: Msg)
    requires Shape(c, s) && Owners(c, s) && CanAckCommit(s, m) && !Lowers(s, AckCommit(m))
    ensures Quiet(s, DoAckCommit(s, m))
  {
    OneNode(c, s, DoAckCommit(s, m), m.dst);
  }

  /** Instances with a decree are numbered from the base on. */
  lemma DecreedBase(c: Config, s: System, b: Ballot, n: nat)
    requires Nodes(c, s) && DecreedOk(s) && (b, n) in s.hist.decreed
    ensures c.base <= n
  {
    assert NodeOk(c, s, b.id);
  }

  lemma CommitLocal(c: Config, s: System, m: Msg)
    requires Shape(c, s) && Nodes(c, s) && DecreedOk(s) && CommitMsgs(s) && CanAckCommit(s, m)
    ensures var t := DoAckCommit(s, m); Shape(c, t) && LocalStep(c, s, t, m.dst)
  {
    hide AfterCommit, AfterRecommit;
    var t := DoAckCommit(s, m);
    assert NodeOk(c, s, m.dst) && CommitOk(s, m);
    DecreedBase(c, s, s.hist.chosen[m.inum].ballot, m.inum);
    assert IsChosen(t, m.inum, m.value);
    CommitSlots(s.nodes[m.dst].log, m.ballot, m.inum, m.value);
  }

  ghost predicate OneSlot(log: Log, more: Log, n: nat, v: Value) {
    && more.Keys == log.Keys + {n} && (forall m :: m in log && (m != n || log[m].committed) ==> more[m] == log[m])
    && ((n in log && log[n].committed) || (more[n].committed && more[n].value == v))
  }

  /** A commit or a recommit changes at most one slot, to a committed one. */
  lemma CommitSlots(log: Log, b: Ballot, n: nat, v: Value)
    ensures OneSlot(log, AfterCommit(log, b, n, v), n, v) && OneSlot(log, AfterRecommit(log, b, n, v), n, v)
  {
  }

  lemma CommitMsgsAll(c: Config, s: System, m: Msg)
    requires Shape(c, s) && Msgs(s) && CanAckCommit(s, m) && Quiet(s, DoAckCommit(s, m))
    ensures Msgs(DoAckCommit(s, m))
  {
    var t := DoAckCommit(s, m);
    PrepareMsgsKept(s, t);
    CommitMsgsKept(s, t);
    forall d | d in t.net && d.Promise?
      ensures PromiseOk(t, d)
    {
      assert PromiseOk(s, d);
    }
    forall d | d in t.net && d.Decree?
      ensures DecreeOk(t, d)
    {
      assert DecreeOk(s, d);
    }
    forall d | d in t.net && d.Accept?
      ensures AcceptOk(t, d)
    {
      assert AcceptOk(s, d);
    }
  }

  lemma CommitInv(c: Config, s: System, m: Msg)
    requires Inv(c, s) && CanAckCommit(s, m) && !Lowers(s, AckCommit(m))
    ensures Inv(c, DoAckCommit(s, m))
  {
    hide Shape, Nodes, Slots, Preps, Owners, DecreedOk, Votes, Chosens, Safes, Majorities, Promises, Counts,
      PrepareMsgs, PromiseMsgs, AcceptMsgs, CommitMsgs, DecreeMsgs, LocalStep, Quiet;
    CommitQuiet(c, s, m);
    CommitLocal(c, s, m);
    CommitMsgsAll(c, s, m);
    OneNodeInv(c, s, DoAckCommit(s, m), m.dst);
  }

  // ---------------------------------------------------------------- collecting a promise

  lemma CollectQuiet(c: Config, s: System, m: Msg)
    requires Shape(c, s) && Nodes(c, s) && Owners(c, s) && CanAckPromise(s, m)
    ensures var t := Collect(s, m); Shape(c, t) && Quiet(s, t)
  {
    var t := Collect(s, m);
    assert NodeOk(c, s, m.dst);
    OneNode(c, s, t, m.dst);
  }

  /** The merged log covers the votes merged in, and still covers the earlier ones. */
  lemma MergeCovers(log: Log, votes: map<nat, Vote>, other: map<nat, Vote>)
    ensures Covers(Merge(log, votes), votes)
    ensures Covers(log, other) ==> Covers(Merge(log, votes), other)
  {
  }

  lemma CollectPrep(c: Config, s: System, m: Msg)
    requires Shape(c, s) && Preps(c, s) && Promises(c, s) && PromiseMsgs(s) && CanAckPromise(s, m)
    ensures PrepOk(c, Collect(s, m), m.dst)
  {
    var t := Collect(s, m);
    assert PromiseOk(s, m) && PrepOk(c, s, m.dst);
    var who := AckersOf(s.hist, m.dst);
    forall a | a in who + {m.src} && a != m.dst
      ensures (a, m.ballot) in s.hist.promised && Covers(t.nodes[m.dst].log, s.hist.promised[(a, m.ballot)].votes)
    {
      MergeCovers(s.nodes[m.dst].log, m.votes, s.hist.promised[(a, m.ballot)].votes);
    }
  }

  lemma CollectSlots(c: Config, s: System, m: Msg)
    requires Shape(c, s) && Nodes(c, s) && Promises(c, s) && PromiseMsgs(s) && CanAckPromise(s, m)
    ensures NodeOk(c, Collect(s, m), m.dst)
    ensures var x, y := s.nodes[m.dst].log, Collect(s, m).nodes[m.dst].log;
      forall n :: n in y ==> (n in x && y[n] == x[n]) || SlotOk(Collect(s, m), n, y[n])
  {
    assert PromiseOk(s, m) && PromisedOk(c, s, m.src, m.ballot) && NodeOk(c, s, m.dst);
  }

  lemma CollectPromises(c: Config, s: System, m: Msg)
    requires Shape(c, s) && PromiseMsgs(s) && CanAckPromise(s, m)
    ensures PromiseMsgs(Collect(s, m))
  {
    var t := Collect(s, m);
    assert PromiseOk(s, m);
    forall d | d in t.net && d.Promise?
      ensures PromiseOk(t, d)
    {
      assert PromiseOk(s, d);
    }
  }

  lemma CollectMsgs(c: Config, s: System, m: Msg)
    requires Shape(c, s) && Msgs(s) && CanAckPromise(s, m) && Quiet(s, Collect(s, m))
    ensures Msgs(Collect(s, m))
  {
    var t := Collect(s, m);
    CollectPromises(c, s, m);
    PrepareMsgsKept(s, t);
    CommitMsgsKept(s, t);
    forall d | d in t.net && d.Decree?
      ensures DecreeOk(t, d)
    {
      assert DecreeOk(s, d);
    }
    forall d | d in t.net && d.Accept?
      ensures AcceptOk(t, d)
    {
      assert AcceptOk(s, d);
    }
  }

  lemma CollectInv(c: Config, s: System, m: Msg)
    requires Inv(c, s) && CanAckPromise(s, m)
    ensures Inv(c, Collect(s, m))
  {
    hide Shape, Nodes, Slots, Preps, Owners, DecreedOk, Votes, Chosens, Safes, Majorities, Promises, Counts,
      PrepareMsgs, PromiseMsgs, AcceptMsgs, CommitMsgs, DecreeMsgs, Quiet, NodeOk, PrepOk, SlotOk;
    CollectQuiet(c, s, m);
    CollectPrep(c, s, m);
    CollectSlots(c, s, m);
    CollectMsgs(c, s, m);
    OneNodeInv(c, s, Collect(s, m), m.dst);
  }
}
