/** The protocol's guarantees over every run. */
module Agreement {
  import opened Primitives
  import opened DecreeLog
  import opened Protocol
  import opened Invariants
  import opened Preservation
  import opened QuietSteps
  import opened PrepareSteps
  import opened VoteSteps
  import opened DecreeSteps
  import opened ProposerSteps

  // ---------------------------------------------------------------- the invariant holds in every run

  lemma InitOwners(c: Config)
    requires c.Valid()
    ensures c.Quorum(c.members) && Owners(c, Init(c)) && DecreedOk(Init(c)) && Counts(c, Init(c))
  {
    SubsetCard({c.reign.id}, c.members);
    assert PreparedOk(c, Init(c), c.reign);
  }

  lemma InitVotes(c: Config)
    requires c.Valid()
    ensures Votes(Init(c)) && Majorities(c, Init(c))
  {
    var s := Init(c);
    SubsetCard({c.reign.id}, c.members);
    forall b, n | n !in s.hist.chosen
      ensures |Voters(c, s.hist.voted, b, n)| < c.Majority()
    {
      assert Voters(c, s.hist.voted, b, n) == {};
    }
  }

  lemma InitChosens(c: Config)
    requires c.Valid() && c.Quorum(c.members)
    ensures Chosens(c, Init(c)) && Safes(c, Init(c)) && Promises(c, Init(c))
  {
    InitSafe(c);
  }

  lemma InitRecord(c: Config)
    requires c.Valid()
    ensures Record(c, Init(c))
  {
    hide Owners, DecreedOk, Votes, Chosens, Safes, Majorities, Promises, Counts, Init;
    InitOwners(c);
    InitVotes(c);
    InitChosens(c);
  }

  lemma InitSafe(c: Config)
    requires c.Valid() && c.Quorum(c.members)
    ensures forall n :: n in Init(c).hist.chosen ==>
      SafeAt(c, Init(c), c.reign, n, Init(c).hist.decreed[(c.reign, n)])
  {
    var s := Init(c);
    forall n, low | n in s.hist.chosen && Below(low, c.reign)
      ensures SafeBelow(c, s, low, n, s.hist.decreed[(c.reign, n)])
    {
      assert AllSettled(s, c.members, low, n, s.hist.decreed[(c.reign, n)]);
    }
  }

  lemma InitInv(c: Config)
    requires c.Valid()
    ensures Inv(c, Init(c))
  {
    hide Record;
    InitRecord(c);
  }

  lemma AckPromiseInv(c: Config, s: System, m: Msg)
    requires Inv(c, s) && CanAckPromise(s, m)
    ensures Inv(c, DoAckPromise(c, s, m))
  {
    hide Nodes, Slots, Preps, Msgs, Record;
    var t := Collect(s, m);
    CollectInv(c, s, m);
    if t.nodes[m.dst].prep.value.acks >= c.Majority() {
      SubsetCard({m.src, m.dst}, c.members);
      FinishInv(c, t, m.dst);
    }
  }

  /** Every event keeps the invariant, except a recommit that lowers a header. */
  lemma StepInv(c: Config, s: System, e: Event)
    requires Inv(c, s) && Enabled(c, s, e) && !Lowers(s, e)
    ensures Inv(c, Apply(c, s, e))
  {
    hide Inv, DoLose, DoPrepare, DoFollow, DoPromise, DoAckPromise, DoAckDecree, DoAckAccept, DoAckCommit, DoPropose,
      DoAskAgain, DoAckRetry, DoAdvance, CanPrepare, CanFollow, CanAckPrepare, CanAckPromise, CanAckDecree, CanAckAccept,
      CanAckCommit, CanPropose, CanAskAgain, CanAckRetry, CanAdvance;
    match e
    case Lose(m) => LoseInv(c, s, m);
    case StartPrepare(i) => StartInv(c, s, i);
    case Follow(i, p) => FollowInv(c, s, i, p);
    case AckPrepare(m) => PromiseInv(c, s, m);
    case AckPromise(m) => AckPromiseInv(c, s, m);
    case AckDecree(m) => AckDecreeInv(c, s, m);
    case AckAccept(m) => AckAcceptInv(c, s, m);
    case AckCommit(m) => CommitInv(c, s, m);
    case Propose(i, v) => ProposeInv(c, s, i, v);
    case AskAgain(i) => AskInv(c, s, i);
    case AckRetry(m) => RetryInv(c, s, m);
    case Advance(i) => AdvanceInv(c, s, i);
  }

  lemma {:induction false} RunInv(c: Config, run: seq<Event>)
    requires c.Valid() && Orderly(c, run)
    ensures Inv(c, After(c, run))
  {
    hide Inv, Init, Apply, Enabled;
    if run == [] {
      InitInv(c);
    } else {
      var before := run[..|run| - 1];
      RunInv(c, before);
      StepInv(c, After(c, before), run[|run| - 1]);
    }
  }

  // ---------------------------------------------------------------- agreement

  /** Decrees and choices on record stay. */
  ghost predicate Keeps(h: History, k: History) {
    && (forall x :: x in h.decreed ==> x in k.decreed && k.decreed[x] == h.decreed[x])
    && (forall n :: n in h.chosen ==> n in k.chosen && k.chosen[n] == h.chosen[n])
  }

  lemma FinishKeeps(c: Config, s: System, i: Id)
    requires Inv(c, s) && Finishing(c, s, i)
    ensures Keeps(s.hist, FinishPrepare(c, s, i).hist)
  {
    hide Shape, Slots, Msgs, Votes, Chosens, Safes, Majorities, Counts, Promises, Preps;
    PendingFresh(c, s, i);
  }

  lemma AckPromiseKeeps(c: Config, s: System, m: Msg)
    requires Inv(c, s) && CanAckPromise(s, m)
    ensures Keeps(s.hist, DoAckPromise(c, s, m).hist)
  {
    hide Nodes, Slots, Preps, Msgs, Record, FinishPrepare;
    var t := Collect(s, m);
    CollectInv(c, s, m);
    if t.nodes[m.dst].prep.value.acks >= c.Majority() {
      SubsetCard({m.src, m.dst}, c.members);
      FinishKeeps(c, t, m.dst);
    }
  }

  lemma ProposeKeeps(c: Config, s: System, i: Id, v: Value)
    requires Inv(c, s) && CanPropose(s, i)
    ensures Keeps(s.hist, DoPropose(c, s, i, v).hist)
  {
    hide Shape, Slots, Msgs, Safes, Majorities, Counts, Promises, Preps;
    FreshInstance(c, s, i, NextInstance(s.nodes[i].log));
  }

  lemma StepKeeps(c: Config, s: System, e: Event)
    requires Inv(c, s) && Enabled(c, s, e)
    ensures Keeps(s.hist, Apply(c, s, e).hist)
  {
    hide Inv, Keeps, DoLose, DoPrepare, DoFollow, DoPromise, DoAckPromise, DoAckDecree, DoAckAccept, DoAckCommit,
      DoPropose, DoAskAgain, DoAckRetry, DoAdvance, CanPrepare, CanFollow, CanAckPrepare, CanAckPromise, CanAckDecree,
      CanAckAccept,
      CanAckCommit, CanPropose, CanAskAgain, CanAckRetry, CanAdvance;
    match e
    case Lose(m) => LoseKeeps(s, m);
    case StartPrepare(i) => StartKeeps(c, s, i);
    case Follow(i, p) => FollowKeeps(c, s, i, p);
    case AckPrepare(m) => PromiseKeeps(s, m);
    case AckPromise(m) => AckPromiseKeeps(c, s, m);
    case AckDecree(m) => AckDecreeKeeps(c, s, m);
    case AckAccept(m) => AckAcceptKeeps(c, s, m);
    case AckCommit(m) => AckCommitKeeps(s, m);
    case Propose(i, v) => ProposeKeeps(c, s, i, v);
    case AskAgain(i) => AskKeeps(s, i);
    case AckRetry(m) => RetryKeeps(c, s, m);
    case Advance(i) => AdvanceKeeps(s, i);
  }

  lemma LoseKeeps(s: System, m: Msg)
    ensures Keeps(s.hist, DoLose(s, m).hist)
  {
  }

  lemma StartKeeps(c: Config, s: System, i: Id)
    requires CanPrepare(s, i)
    ensures Keeps(s.hist, DoPrepare(c, s, i).hist)
  {
  }

  lemma FollowKeeps(c: Config, s: System, i: Id, p: Id)
    requires CanFollow(c, s, i, p)
    ensures Keeps(s.hist, DoFollow(s, i, p).hist)
  {
  }

  lemma PromiseKeeps(s: System, m: Msg)
    requires CanAckPrepare(s, m)
    ensures Keeps(s.hist, DoPromise(s, m).hist)
  {
    hide Report;
  }

  lemma AckDecreeKeeps(c: Config, s: System, m: Msg)
    requires CanAckDecree(s, m)
    ensures Keeps(s.hist, DoAckDecree(c, s, m).hist)
  {
    hide Voters, AfterDecree, Accepts;
  }

  lemma AckAcceptKeeps(c: Config, s: System, m: Msg)
    requires CanAckAccept(s, m)
    ensures Keeps(s.hist, DoAckAccept(c, s, m).hist)
  {
    hide Commits;
  }

  lemma AckCommitKeeps(s: System, m: Msg)
    requires CanAckCommit(s, m)
    ensures Keeps(s.hist, DoAckCommit(s, m).hist)
  {
    hide AfterCommit;
  }

  lemma AskKeeps(s: System, i: Id)
    requires CanAskAgain(s, i)
    ensures Keeps(s.hist, DoAskAgain(s, i).hist)
  {
  }

  lemma RetryKeeps(c: Config, s: System, m: Msg)
    requires CanAckRetry(s, m)
    ensures Keeps(s.hist, DoAckRetry(c, s, m).hist)
  {
    hide Commits;
  }

  lemma AdvanceKeeps(s: System, i: Id)
    requires CanAdvance(s, i)
    ensures Keeps(s.hist, DoAdvance(s, i).hist)
  {
  }

  /** A choice is final. */
  lemma ChoiceStays(c: Config, s: System, e: Event, n: nat, v: Value)
    requires Inv(c, s) && Enabled(c, s, e) && IsChosen(s, n, v)
    ensures IsChosen(Apply(c, s, e), n, v)
  {
    hide Inv, Enabled, Apply;
    StepKeeps(c, s, e);
  }

  lemma {:induction false} ChoiceLasts(c: Config, run: seq<Event>, k: nat, n: nat, v: Value)
    requires c.Valid() && Orderly(c, run) && k <= |run| && Orderly(c, run[..k]) && IsChosen(After(c, run[..k]), n, v)
    ensures IsChosen(After(c, run), n, v)
  {
    hide Inv, Init, Apply, Enabled, IsChosen;
    if k == |run| {
      assert run[..k] == run;
    } else {
      var before := run[..|run| - 1];
      assert before[..k] == run[..k];
      ChoiceLasts(c, before, k, n, v);
      RunInv(c, before);
      ChoiceStays(c, After(c, before), run[|run| - 1], n, v);
    }
  }

  /** Every prefix of an orderly run is one. */
  lemma {:induction false} PrefixRuns(c: Config, run: seq<Event>, k: nat)
    requires Orderly(c, run) && k <= |run|
    ensures Orderly(c, run[..k])
  {
    if k == |run| {
      assert run[..k] == run;
    } else {
      var before := run[..|run| - 1];
      assert before[..k] == run[..k];
      PrefixRuns(c, before, k);
    }
  }

  /** Node i has committed v for instance n after the first k events. */
  ghost predicate CommittedAt(c: Config, run: seq<Event>, k: nat, i: Id, n: nat, v: Value)
    requires Orderly(c, run) && k <= |run|
  {
    PrefixRuns(c, run, k);
    var s := After(c, run[..k]);
    i in s.nodes && n in s.nodes[i].log && s.nodes[i].log[n].committed && s.nodes[i].log[n].value == v
  }

  lemma CommittedIsChosen(c: Config, run: seq<Event>, k: nat, i: Id, n: nat, v: Value)
    requires c.Valid() && Orderly(c, run) && k <= |run| && CommittedAt(c, run, k, i, n, v)
    ensures IsChosen(After(c, run), n, v)
  {
    hide Init, Apply, Enabled;
    PrefixRuns(c, run, k);
    RunInv(c, run[..k]);
    var s := After(c, run[..k]);
    assert SlotOk(s, n, s.nodes[i].log[n]);
    ChoiceLasts(c, run, k, n, v);
  }

  /** Agreement: whatever two nodes ever commit for an instance, at whatever moments of a run, is the same
      value. */
  lemma Agreement(c: Config, run: seq<Event>, k: nat, l: nat, i: Id, j: Id, n: nat, v: Value, w: Value)
    requires c.Valid() && Orderly(c, run) && k <= |run| && l <= |run|
    requires CommittedAt(c, run, k, i, n, v) && CommittedAt(c, run, l, j, n, w)
    ensures v == w
  {
    hide Init, Apply, Enabled, CommittedAt;
    CommittedIsChosen(c, run, k, i, n, v);
    CommittedIsChosen(c, run, l, j, n, w);
  }

  // ---------------------------------------------------------------- total order

  /** The values node i has learned, in order: those of the instances from the base to its hole. */
  ghost function Learned(c: Config, run: seq<Event>, k: nat, i: Id): seq<Value>
    requires c.Valid() && Orderly(c, run) && k <= |run| && i in c.members
  {
    PrefixRuns(c, run, k);
    RunInv(c, run[..k]);
    var s := After(c, run[..k]);
    assert NodeOk(c, s, i);
    seq(s.nodes[i].hole - c.base, d requires 0 <= d < s.nodes[i].hole - c.base => s.nodes[i].log[c.base + d].value)
  }

  lemma LearnedAt(c: Config, run: seq<Event>, k: nat, i: Id, d: nat)
    requires c.Valid() && Orderly(c, run) && k <= |run| && i in c.members && d < |Learned(c, run, k, i)|
    ensures CommittedAt(c, run, k, i, c.base + d, Learned(c, run, k, i)[d])
  {
    hide Init, Apply, Enabled;
    PrefixRuns(c, run, k);
    RunInv(c, run[..k]);
    assert NodeOk(c, After(c, run[..k]), i);
  }

  /** Total order broadcast: of what any two nodes have learned by any two moments of a run, one is a prefix of
      the other. */
  lemma TotalOrder(c: Config, run: seq<Event>, k: nat, l: nat, i: Id, j: Id)
    requires c.Valid() && Orderly(c, run) && k <= |run| && l <= |run| && i in c.members && j in c.members
    ensures var x, y := Learned(c, run, k, i), Learned(c, run, l, j); x <= y || y <= x
  {
    hide Init, Apply, Enabled, CommittedAt, Learned;
    var x, y := Learned(c, run, k, i), Learned(c, run, l, j);
    forall d | 0 <= d < |x| && d < |y|
      ensures x[d] == y[d]
    {
      LearnedAt(c, run, k, i, d);
      LearnedAt(c, run, l, j, d);
      Agreement(c, run, k, l, i, j, c.base + d, x[d], y[d]);
    }
  }

  // ---------------------------------------------------------------- what ballots may decree

  /** Once a majority has voted for v in ballot b, no majority of any ballot ever votes for anything else. */
  lemma OneValue(c: Config, run: seq<Event>, b: Ballot, d: Ballot, n: nat, v: Value, w: Value)
    requires c.Valid() && Orderly(c, run)
    requires var s := After(c, run);
      && WasDecreed(s, b, n, v) && |Voters(c, s.hist.voted, b, n)| >= c.Majority()
      && WasDecreed(s, d, n, w) && |Voters(c, s.hist.voted, d, n)| >= c.Majority()
    ensures v == w
  {
    hide Init, Apply, Enabled;
    RunInv(c, run);
    MajorityValue(c, After(c, run), b, n, v);
    MajorityValue(c, After(c, run), d, n, w);
  }

  /** From the ballot whose majority came first in time on, every decree of the instance carries its value. */
  lemma LaterDecreesAgree(c: Config, run: seq<Event>, b: Ballot, n: nat, v: Value)
    requires c.Valid() && Orderly(c, run)
    requires var s := After(c, run);
      n in s.hist.chosen && WasDecreed(s, b, n, v) && !Below(b, s.hist.chosen[n].ballot)
    ensures IsChosen(After(c, run), n, v)
  {
    hide Init, Apply, Enabled;
    RunInv(c, run);
    assert ChosenOk(c, After(c, run), n);
  }

  /** A majority has voted for ballot b's decree of n. */
  ghost predicate ChosenIn(c: Config, s: System, b: Ballot, n: nat) {
    |Voters(c, s.hist.voted, b, n)| >= c.Majority()
  }

  lemma VotersQuorum(c: Config, s: System, b: Ballot, n: nat)
    requires ChosenIn(c, s, b, n)
    ensures c.Quorum(Voters(c, s.hist.voted, b, n))
    ensures forall a :: a in Voters(c, s.hist.voted, b, n) ==> Voted(s, a, b, n)
  {
  }

  /** A prepared proposer's next instance lies beyond everything chosen in any lower ballot. */
  lemma NextIsFree(c: Config, run: seq<Event>, i: Id, low: Ballot, n: nat)
    requires c.Valid() && Orderly(c, run)
    requires var s := After(c, run);
      CanPropose(s, i) && ChosenIn(c, s, low, n) && Below(low, s.nodes[i].ballot)
    ensures n < NextInstance(After(c, run).nodes[i].log)
  {
    hide Init, Apply, Enabled, ChosenIn;
    RunInv(c, run);
    var s := After(c, run);
    ProposerBallot(c, s, i);
    VotersQuorum(c, s, low, n);
    VotedSeen(c, s, s.nodes[i].ballot, Voters(c, s.hist.voted, low, n), low, n);
  }

  /** When a prepare finishes, every instance chosen in any lower ballot is in the merged log, so a null decree never
      lands on one; and every instance whose first majority was in a lower ballot is re-decreed with, or already
      committed to, its chosen value. */
  lemma FillsAreFree(c: Config, run: seq<Event>, m: Msg, low: Ballot, n: nat)
    requires c.Valid() && Orderly(c, run) && CanAckPromise(After(c, run), m)
    requires var t := Collect(After(c, run), m);
      t.nodes[m.dst].prep.value.acks >= c.Majority() && ChosenIn(c, t, low, n) && Below(low, m.ballot)
    ensures var t := Collect(After(c, run), m);
      var log := FinishPrepare(c, t, m.dst).nodes[m.dst].log;
      && n in t.nodes[m.dst].log && n in log
      && (n in t.hist.chosen && Below(t.hist.chosen[n].ballot, m.ballot) ==> IsChosen(t, n, log[n].value))
  {
    hide Init, Apply, Enabled, Inv, CanAckPromise, ChosenIn;
    RunInv(c, run);
    FinishFree(c, After(c, run), m, low, n);
  }

  lemma FinishFree(c: Config, s: System, m: Msg, low: Ballot, n: nat)
    requires Inv(c, s) && CanAckPromise(s, m)
    requires var t := Collect(s, m);
      t.nodes[m.dst].prep.value.acks >= c.Majority() && ChosenIn(c, t, low, n) && Below(low, m.ballot)
    ensures var t := Collect(s, m);
      var log := FinishPrepare(c, t, m.dst).nodes[m.dst].log;
      && n in t.nodes[m.dst].log && n in log
      && (n in t.hist.chosen && Below(t.hist.chosen[n].ballot, m.ballot) ==> IsChosen(t, n, log[n].value))
  {
    hide Nodes, Slots, Preps, Msgs, Owners, DecreedOk, Votes, Chosens, Safes, Majorities, Promises, Counts, FinishPrepare,
      ChosenIn;
    var t := Collect(s, m);
    CollectInv(c, s, m);
    SubsetCard({m.src, m.dst}, c.members);
    LowerSeen(c, t, m.dst, low, n);
    FinishEffect(c, t, m.dst);
    if n in t.hist.chosen && Below(t.hist.chosen[n].ballot, m.ballot) {
      ChosenSeen(c, t, m.dst, n);
    }
  }

  lemma LowerSeen(c: Config, s: System, i: Id, low: Ballot, n: nat)
    requires Inv(c, s) && Finishing(c, s, i) && ChosenIn(c, s, low, n) && Below(low, s.nodes[i].prep.value.ballot)
    ensures n in s.nodes[i].log
  {
    hide Msgs, Owners, Chosens, Safes, Majorities, Counts, Shape;
    VotersQuorum(c, s, low, n);
    assert PrepOk(c, s, i);
    var a := QuorumsMeet(c, Voters(c, s.hist.voted, low, n), AckersOf(s.hist, i));
    AckerSeen(c, s, i, a, low, n);
  }

  /** Two promises of one ballot can show an instance with the same header and still with different values, but only
      where one of them has committed it: then its value is the chosen one.  Otherwise the order in which the votes
      are merged makes no difference. */
  lemma PromisesAgree(c: Config, run: seq<Event>, x: Msg, y: Msg, n: nat)
    requires c.Valid() && Orderly(c, run) && x.Promise? && y.Promise? && x in After(c, run).net && y in After(c, run).net
    requires n in x.votes && n in y.votes && x.votes[n].ballot == y.votes[n].ballot
    ensures x.votes[n].value == y.votes[n].value
         || IsChosen(After(c, run), n, x.votes[n].value) || IsChosen(After(c, run), n, y.votes[n].value)
  {
    hide Init, Apply, Enabled;
    RunInv(c, run);
    var s := After(c, run);
    assert PromiseOk(s, x) && PromiseOk(s, y);
    assert PromisedOk(c, s, x.src, x.ballot) && PromisedOk(c, s, y.src, y.ballot);
  }

  // ---------------------------------------------------------------- the counters and the asserts of the C code

  /** The bare counters stand for sets of distinct acceptors: a prepare's for acceptors that promised its ballot,
      an open decree's for acceptors that voted for it. */
  lemma CountersCount(c: Config, run: seq<Event>, i: Id)
    requires c.Valid() && Orderly(c, run) && i in c.members
    ensures var s := After(c, run);
      && i in s.nodes
      && (s.nodes[i].prep.Some? ==>
            var who := AckersOf(s.hist, i);
            && s.nodes[i].prep.value.acks == |who| && i in who && who <= c.members
            && forall a :: a in who && a != i ==>
                 && (a, s.nodes[i].prep.value.ballot) in s.hist.promised
                 && a in s.nodes && !Below(s.nodes[a].ballot, s.nodes[i].prep.value.ballot))
      && (CanPropose(s, i) ==>
            forall n :: n in s.nodes[i].log && !s.nodes[i].log[n].committed ==>
              && s.nodes[i].log[n].votes == |Counted(c, s, s.nodes[i].ballot, n)|
              && Counted(c, s, s.nodes[i].ballot, n) <= Voters(c, s.hist.voted, s.nodes[i].ballot, n))
  {
    hide Init, Apply, Enabled;
    RunInv(c, run);
    var s := After(c, run);
    if s.nodes[i].prep.Some? {
      var b := s.nodes[i].prep.value.ballot;
      assert PrepOk(c, s, i);
      forall a | a in AckersOf(s.hist, i) && a != i
        ensures a in s.nodes && !Below(s.nodes[a].ballot, b)
      {
        assert PromisedOk(c, s, a, b);
      }
    }
    if CanPropose(s, i) {
      ProposerBallot(c, s, i);
      assert forall a, b, n :: (a, b, n) in s.hist.counted ==> Voted(s, a, b, n);
    }
  }

  /** The asserts of `proposer_ack_accept`: an accept always finds its addressee proposing in its ballot, with
      the instance in the log. */
  lemma AcceptsFit(c: Config, run: seq<Event>, m: Msg)
    requires c.Valid() && Orderly(c, run) && m in After(c, run).net && m.Accept?
    ensures CanAckAccept(After(c, run), m)
  {
    hide Init, Apply, Enabled;
    RunInv(c, run);
    AcceptArrives(c, After(c, run), m);
  }

  /** The value asserts of `acceptor_ack_decree` hold for every decree in the ballot that first chose the
      instance or a later one. */
  lemma ValueAssertHolds(c: Config, run: seq<Event>, m: Msg)
    requires c.Valid() && Orderly(c, run) && CanAckDecree(After(c, run), m)
    requires var s := After(c, run);
      && m.inum in s.nodes[m.dst].log && s.nodes[m.dst].log[m.inum].committed
      && m.inum in s.hist.chosen && !Below(m.ballot, s.hist.chosen[m.inum].ballot)
    ensures After(c, run).nodes[m.dst].log[m.inum].value == m.value
  {
    hide Init, Apply, Enabled;
    RunInv(c, run);
    var s := After(c, run);
    assert DecreeOk(s, m) && ChosenOk(c, s, m.inum);
    assert SlotOk(s, m.inum, s.nodes[m.dst].log[m.inum]);
  }
}
