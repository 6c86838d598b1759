/** Which ballots turn up anywhere in a run: the one given in the beginning, and later ones of other proposers. */
module Ballots {
  import opened Primitives
  import opened DecreeLog
  import opened Protocol

  ghost predicate Usual(c: Config, b: Ballot) {
    b == c.reign || (b.gen > c.reign.gen && b.id != c.reign.id)
  }

  ghost predicate UsualLog(c: Config, log: Log) {
    forall n :: n in log ==> Usual(c, log[n].ballot)
  }

  ghost predicate UsualVotes(c: Config, votes: map<nat, Vote>) {
    forall n :: n in votes ==> Usual(c, votes[n].ballot)
  }

  /** The first proposer never prepares. */
  ghost predicate UsualNode(c: Config, i: Id, nd: Node) {
    && Usual(c, nd.ballot) && nd.genHigh >= c.reign.gen && UsualLog(c, nd.log)
    && (nd.prep.Some? ==> Usual(c, nd.prep.value.ballot) && nd.prep.value.ballot.id == i)
    && (i == c.reign.id ==> nd.proposer == i && nd.prep == None)
  }

  ghost predicate UsualMsg(c: Config, m: Msg) {
    Usual(c, m.ballot) && (m.Promise? ==> UsualVotes(c, m.votes))
  }

  ghost predicate AllUsual(c: Config, s: System) {
    && (forall i :: i in s.nodes ==> UsualNode(c, i, s.nodes[i]))
    && (forall m :: m in s.net ==> UsualMsg(c, m))
  }

  // ---------------------------------------------------------------- the logs

  lemma MergeUsual(c: Config, log: Log, votes: map<nat, Vote>)
    requires UsualLog(c, log) && UsualVotes(c, votes)
    ensures UsualLog(c, Merge(log, votes))
  {
  }

  lemma FinishUsual(c: Config, log: Log, n: nat, last: nat, b: Ballot, self: nat, reqid: nat)
    requires UsualLog(c, log) && Usual(c, b) && forall m :: m in log ==> m <= last
    ensures UsualLog(c, FinishFrom(log, n, last, b, self, reqid).0)
  {
    FinishMeaning(log, n, last, b, self, reqid);
    var done := FinishFrom(log, n, last, b, self, reqid).0;
    forall m | m in done
      ensures Usual(c, done[m].ballot)
    {
      assert m !in log ==> n <= m <= last;
      assert m in log && m >= n && !log[m].committed ==> done[m] == Slot(b, log[m].value, false, 1);
    }
  }

  // ---------------------------------------------------------------- the events

  /** Node i changed, and everything that was sent is as usual. */
  lemma OneNode(c: Config, s: System, t: System, i: Id)
    requires AllUsual(c, s) && i in s.nodes && i in t.nodes && t.nodes == s.nodes[i := t.nodes[i]]
    requires UsualNode(c, i, t.nodes[i])
    requires forall m :: m in t.net ==> m in s.net || UsualMsg(c, m)
    ensures AllUsual(c, t)
  {
    hide UsualNode, UsualMsg;
  }

  lemma PrepareUsual(c: Config, s: System, i: Id)
    requires AllUsual(c, s) && CanPrepare(s, i)
    ensures AllUsual(c, DoPrepare(c, s, i))
  {
    OneNode(c, s, DoPrepare(c, s, i), i);
  }

  lemma PromiseUsual(c: Config, s: System, m: Msg)
    requires AllUsual(c, s) && CanAckPrepare(s, m)
    ensures AllUsual(c, DoPromise(s, m))
  {
    assert UsualMsg(c, m);
    OneNode(c, s, DoPromise(s, m), m.dst);
  }

  lemma CollectUsual(c: Config, s: System, m: Msg)
    requires AllUsual(c, s) && CanAckPromise(s, m)
    ensures AllUsual(c, Collect(s, m))
  {
    hide Merge;
    assert UsualMsg(c, m) && UsualNode(c, m.dst, s.nodes[m.dst]);
    MergeUsual(c, s.nodes[m.dst].log, m.votes);
    OneNode(c, s, Collect(s, m), m.dst);
  }

  lemma FinishPrepareUsual(c: Config, s: System, i: Id)
    requires AllUsual(c, s) && i in s.nodes && s.nodes[i].prep.Some? && s.nodes[i].log.Keys != {}
    ensures AllUsual(c, FinishPrepare(c, s, i))
  {
    hide Open, Last;
    var nd := s.nodes[i];
    FinishUsual(c, nd.log, nd.hole, Last(nd.log), nd.prep.value.ballot, i, nd.reqid);
    OneNode(c, s, FinishPrepare(c, s, i), i);
  }

  lemma AckPromiseUsual(c: Config, s: System, m: Msg)
    requires AllUsual(c, s) && CanAckPromise(s, m)
    ensures AllUsual(c, DoAckPromise(c, s, m))
  {
    hide AllUsual, FinishPrepare;
    CollectUsual(c, s, m);
    var t := Collect(s, m);
    if t.nodes[m.dst].prep.value.acks >= c.Majority() {
      FinishPrepareUsual(c, t, m.dst);
    }
  }

  lemma AckDecreeUsual(c: Config, s: System, m: Msg)
    requires AllUsual(c, s) && CanAckDecree(s, m)
    ensures AllUsual(c, DoAckDecree(c, s, m))
  {
    hide AddVote;
    assert UsualMsg(c, m);
    OneNode(c, s, DoAckDecree(c, s, m), m.dst);
  }

  lemma CommitUsual(c: Config, s: System, i: Id, n: nat)
    requires AllUsual(c, s) && i in s.nodes && n in s.nodes[i].log
    ensures AllUsual(c, DoCommit(c, s, i, n))
  {
    OneNode(c, s, DoCommit(c, s, i, n), i);
  }

  lemma AckAcceptUsual(c: Config, s: System, m: Msg)
    requires AllUsual(c, s) && CanAckAccept(s, m)
    ensures AllUsual(c, DoAckAccept(c, s, m))
  {
    hide DoCommit;
    var t := CountVote(s, m);
    OneNode(c, s, t, m.dst);
    CommitUsual(c, t, m.dst, m.inum);
  }

  lemma AckCommitUsual(c: Config, s: System, m: Msg)
    requires AllUsual(c, s) && CanAckCommit(s, m)
    ensures AllUsual(c, DoAckCommit(s, m))
  {
    assert UsualMsg(c, m);
    OneNode(c, s, DoAckCommit(s, m), m.dst);
  }

  lemma ProposeUsual(c: Config, s: System, i: Id, v: Value)
    requires AllUsual(c, s) && CanPropose(s, i)
    ensures AllUsual(c, DoPropose(c, s, i, v))
  {
    hide DoCommit, NextInstance, AddVote;
    var t := DoDecree(c, s, i, v);
    OneNode(c, s, t, i);
    CommitUsual(c, t, i, NextInstance(s.nodes[i].log));
  }

  lemma RetryUsual(c: Config, s: System, m: Msg)
    requires AllUsual(c, s) && CanAckRetry(s, m)
    ensures AllUsual(c, DoAckRetry(c, s, m))
  {
    assert UsualMsg(c, m);
  }

  lemma SmallUsual(c: Config, s: System, e: Event)
    requires AllUsual(c, s) && Enabled(c, s, e) && (e.Lose? || e.Follow? || e.AskAgain? || e.Advance?)
    ensures AllUsual(c, Apply(c, s, e))
  {
    if e.Follow? || e.Advance? {
      OneNode(c, s, Apply(c, s, e), e.node);
    }
  }

  lemma StepUsual(c: Config, s: System, e: Event)
    requires AllUsual(c, s) && Enabled(c, s, e)
    ensures AllUsual(c, Apply(c, s, e))
  {
    hide AllUsual, DoLose, DoPrepare, DoFollow, DoPromise, DoAckPromise, DoAckDecree, DoAckAccept, DoAckCommit, DoPropose,
      DoAskAgain, DoAckRetry, DoAdvance, CanPrepare, CanFollow, CanAckPrepare, CanAckPromise, CanAckDecree, CanAckAccept,
      CanAckCommit, CanPropose, CanAskAgain, CanAckRetry, CanAdvance;
    match e
    case StartPrepare(i) => PrepareUsual(c, s, i);
    case AckPrepare(m) => PromiseUsual(c, s, m);
    case AckPromise(m) => AckPromiseUsual(c, s, m);
    case AckDecree(m) => AckDecreeUsual(c, s, m);
    case AckAccept(m) => AckAcceptUsual(c, s, m);
    case AckCommit(m) => AckCommitUsual(c, s, m);
    case Propose(i, v) => ProposeUsual(c, s, i, v);
    case AckRetry(m) => RetryUsual(c, s, m);
    case _ => SmallUsual(c, s, e);
  }

  lemma InitUsual(c: Config)
    ensures AllUsual(c, Init(c))
  {
    assert UsualLog(c, InitNode(c).log);
  }

  /** Every ballot in any run is the one given in the beginning, or has a higher generation and another owner. */
  lemma {:induction false} RunUsual(c: Config, run: seq<Event>)
    requires IsRun(c, run)
    ensures AllUsual(c, After(c, run))
  {
    hide Init, Apply, Enabled, AllUsual;
    if run == [] {
      InitUsual(c);
    } else {
      var before := run[..|run| - 1];
      RunUsual(c, before);
      StepUsual(c, After(c, before), run[|run| - 1]);
    }
  }
}
