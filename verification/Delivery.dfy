/** Learning does learn: what a node has learned grows with its log, one committed value after the other, and by nothing
    else. */
module Delivery {
  import opened Primitives
  import opened DecreeLog
  import opened Protocol
  import opened Invariants
  import opened PrepareSteps
  import opened DecreeSteps
  import opened Agreement

  /** What node i has learned by the end of a run. */
  ghost function Now(c: Config, run: seq<Event>, i: Id): (vs: seq<Value>)
    requires c.Valid() && Orderly(c, run) && i in c.members
  {
    Learned(c, run, |run|, i)
  }

  /** Its log. */
  ghost function LogOf(c: Config, run: seq<Event>, i: Id): Log
    requires c.Valid() && Orderly(c, run) && i in c.members
  {
    RunInv(c, run);
    After(c, run).nodes[i].log
  }

  /** s holds just the values vs in node i's log from the base to the hole, all committed. */
  ghost predicate Holds(c: Config, s: System, i: Id, vs: seq<Value>) {
    && i in s.nodes && c.base < s.nodes[i].hole == c.base + |vs|
    && forall d {:trigger vs[d]} :: 0 <= d < |vs| ==>
         && c.base + d in s.nodes[i].log && s.nodes[i].log[c.base + d].committed
         && vs[d] == s.nodes[i].log[c.base + d].value
  }

  lemma LearnedIs(c: Config, run: seq<Event>, k: nat, i: Id)
    requires c.Valid() && Orderly(c, run) && k <= |run| && i in c.members
    ensures Orderly(c, run[..k]) && Holds(c, After(c, run[..k]), i, Learned(c, run, k, i))
  {
    hide Init, Apply, Enabled, Inv, Orderly, IsRun, After;
    PrefixRuns(c, run, k);
    RunInv(c, run[..k]);
    HoleLearned(c, After(c, run[..k]), i);
  }

  lemma HoleLearned(c: Config, s: System, i: Id)
    requires Inv(c, s) && i in c.members
    ensures i in s.nodes && c.base < s.nodes[i].hole
    ensures forall n :: c.base <= n < s.nodes[i].hole ==> n in s.nodes[i].log && s.nodes[i].log[n].committed
  {
    assert NodeOk(c, s, i);
  }

  lemma HoldsOne(c: Config, s: System, t: System, i: Id, xs: seq<Value>, ys: seq<Value>)
    requires Holds(c, s, i, xs) && Holds(c, t, i, ys) && t.nodes[i].log == s.nodes[i].log
    requires s.nodes[i].hole <= t.nodes[i].hole
    ensures xs <= ys
    ensures t.nodes[i].hole == s.nodes[i].hole + 1 ==>
              s.nodes[i].hole in s.nodes[i].log && ys == xs + [s.nodes[i].log[s.nodes[i].hole].value]
  {
    assert forall d :: 0 <= d < |xs| ==> xs[d] == ys[d];
    if t.nodes[i].hole == s.nodes[i].hole + 1 {
      var last := ys[|xs|];
      assert c.base + |xs| in t.nodes[i].log && last == t.nodes[i].log[c.base + |xs|].value;
    }
  }

  lemma NowIs(c: Config, run: seq<Event>, i: Id)
    requires c.Valid() && Orderly(c, run) && i in c.members
    ensures Holds(c, After(c, run), i, Now(c, run, i)) && LogOf(c, run, i) == After(c, run).nodes[i].log
  {
    hide Init, Apply, Enabled, Orderly, IsRun, After, Learned, Holds;
    assert run[..|run|] == run;
    LearnedIs(c, run, |run|, i);
    RunInv(c, run);
  }

  lemma OneMore(c: Config, run: seq<Event>, e: Event)
    requires Orderly(c, run) && Enabled(c, After(c, run), e) && !Lowers(After(c, run), e)
    ensures Orderly(c, run + [e]) && After(c, run + [e]) == Apply(c, After(c, run), e)
    ensures (run + [e])[..|run|] == run
  {
    hide Init, Apply, Enabled, Lowers;
    assert (run + [e])[..|run|] == run;
  }

  lemma Runs(c: Config, run: seq<Event>)
    requires Orderly(c, run)
    ensures IsRun(c, run)
  {
    hide Init, Apply, Enabled, Lowers;
  }

  // ---------------------------------------------------------------- one value more

  /** The value after the last one node i has learned, if it is committed in its log. */
  ghost function Next(c: Config, run: seq<Event>, i: Id): (r: Option<Value>)
    requires c.Valid() && Orderly(c, run) && i in c.members
  {
    var log, n := LogOf(c, run, i), c.base + |Now(c, run, i)|;
    if n in log && log[n].committed then Some(log[n].value) else None
  }

  ghost predicate SameLogs(c: Config, run: seq<Event>, more: seq<Event>)
    requires c.Valid() && Orderly(c, run) && Orderly(c, more)
  {
    forall j :: j in c.members ==> LogOf(c, more, j) == LogOf(c, run, j)
  }

  /** A node whose next instance is committed can learn it: what it has learned grows by that value. */
  lemma LearnsNext(c: Config, run: seq<Event>, i: Id) returns (more: seq<Event>)
    requires c.Valid() && Orderly(c, run) && i in c.members && Next(c, run, i).Some?
    ensures more == run + [Advance(i)] && Orderly(c, more)
    ensures Now(c, more, i) == Now(c, run, i) + [Next(c, run, i).value]
    ensures SameLogs(c, run, more)
  {
    hide Init, Inv, Learned, Now, LogOf, Orderly, IsRun, After, Apply, Enabled, Lowers, Holds;
    more := run + [Advance(i)];
    AdvanceRuns(c, run, i);
    NowIs(c, run, i);
    NowIs(c, more, i);
    HoldsOne(c, After(c, run), After(c, more), i, Now(c, run, i), Now(c, more, i));
    LogsStay(c, run, more);
  }

  lemma AdvanceRuns(c: Config, run: seq<Event>, i: Id)
    requires c.Valid() && Orderly(c, run) && i in c.members && Next(c, run, i).Some?
    ensures var more := run + [Advance(i)];
      Orderly(c, more) && IsRun(c, run) && IsRun(c, more) && Advanced(After(c, run), After(c, more), i)
    ensures After(c, run).nodes[i].hole == c.base + |Now(c, run, i)|
  {
    hide Init, Inv, Learned, Now, LogOf, Orderly, IsRun, After, Apply, Enabled, Lowers, Holds, CanAdvance;
    Runs(c, run);
    NowIs(c, run, i);
    MayAdvance(c, After(c, run), i, Now(c, run, i));
    AdvanceTells(c, After(c, run), i);
    OneMore(c, run, Advance(i));
    Runs(c, run + [Advance(i)]);
  }

  ghost predicate Advanced(s: System, t: System, i: Id) {
    && i in s.nodes && t.nodes.Keys == s.nodes.Keys && t.nodes[i].hole == s.nodes[i].hole + 1
    && forall j :: j in s.nodes ==> t.nodes[j].log == s.nodes[j].log
  }

  lemma MayAdvance(c: Config, s: System, i: Id, vs: seq<Value>)
    requires Holds(c, s, i, vs) && c.base + |vs| in s.nodes[i].log && s.nodes[i].log[c.base + |vs|].committed
    ensures i in s.nodes && CanAdvance(s, i) && s.nodes[i].hole == c.base + |vs|
  {
  }

  lemma LogsStay(c: Config, run: seq<Event>, more: seq<Event>)
    requires c.Valid() && Orderly(c, run) && Orderly(c, more)
    requires forall j :: j in After(c, run).nodes ==>
      j in After(c, more).nodes && After(c, more).nodes[j].log == After(c, run).nodes[j].log
    ensures SameLogs(c, run, more)
  {
    hide Init, Now, LogOf, IsRun, After, Apply, Enabled, Lowers, Holds;
    forall j | j in c.members
      ensures LogOf(c, more, j) == LogOf(c, run, j)
    {
      LogIs(c, run, j);
      LogIs(c, more, j);
    }
  }

  lemma LogIs(c: Config, run: seq<Event>, i: Id)
    requires c.Valid() && Orderly(c, run) && i in c.members
    ensures i in After(c, run).nodes && LogOf(c, run, i) == After(c, run).nodes[i].log
  {
    hide Init, Apply, Enabled, Inv, Orderly, IsRun, After;
    NowIs(c, run, i);
  }

  lemma AdvanceTells(c: Config, s: System, i: Id)
    requires i in s.nodes && CanAdvance(s, i)
    ensures Enabled(c, s, Advance(i)) && !Lowers(s, Advance(i))
    ensures var t := Apply(c, s, Advance(i));
      && t.nodes.Keys == s.nodes.Keys && t.nodes[i].hole == s.nodes[i].hole + 1
      && forall j :: j in s.nodes ==> t.nodes[j].log == s.nodes[j].log && (j != i ==> t.nodes[j] == s.nodes[j])
  {
  }

  /** Nobody learns otherwise: an event that is not its own step leaves what a node has learned as it was. */
  lemma NothingElse(c: Config, run: seq<Event>, e: Event, j: Id)
    requires c.Valid() && Orderly(c, run + [e]) && j in c.members && e != Advance(j)
    ensures Orderly(c, run) && Now(c, run + [e], j) == Now(c, run, j)
  {
    hide Init, Apply, Enabled, Learned, Lowers;
    var more := run + [e];
    assert more[..|run|] == run && more[..|more|] == more && more[|run|] == e && more[..|more| - 1] == run;
    assert run[..|run|] == run;
    hide Orderly, IsRun, After;
    NowIs(c, run, j);
    NowIs(c, more, j);
    HoleStays(c, After(c, run), e, j);
    LearnedIs(c, run, |run|, j);
    LearnedIs(c, more, |run|, j);
    HoldsOne(c, After(c, run), After(c, run), j, Learned(c, more, |run|, j), Learned(c, run, |run|, j));
    Agreement.TotalOrder(c, more, |run|, |more|, j, j);
  }

  lemma HoleStays(c: Config, s: System, e: Event, j: Id)
    requires Enabled(c, s, e) && j in s.nodes && e != Advance(j)
    ensures j in Apply(c, s, e).nodes && Apply(c, s, e).nodes[j].hole == s.nodes[j].hole
  {
    if e.AckPromise? {
      PromiseStays(c, s, e.msg, j);
    } else if e.AckAccept? {
      CountStays(c, s, e.msg, j);
    } else if e.Propose? {
      ProposeStays(c, s, e.node, e.value, j);
    } else if e.AckPrepare? || e.AckDecree? || e.AckCommit? {
      AcceptStays(c, s, e, j);
    } else {
      hide Commits, Prepares;
    }
  }

  lemma PromiseStays(c: Config, s: System, m: Msg, j: Id)
    requires CanAckPromise(s, m) && j in s.nodes
    ensures var t := DoAckPromise(c, s, m); j in t.nodes && t.nodes[j].hole == s.nodes[j].hole
  {
    hide Merge, Open, Decrees, FinishFrom;
  }

  lemma CountStays(c: Config, s: System, m: Msg, j: Id)
    requires CanAckAccept(s, m) && j in s.nodes
    ensures var t := DoAckAccept(c, s, m); j in t.nodes && t.nodes[j].hole == s.nodes[j].hole
  {
    hide Commits;
  }

  lemma ProposeStays(c: Config, s: System, i: Id, v: Value, j: Id)
    requires CanPropose(s, i) && j in s.nodes
    ensures var t := DoPropose(c, s, i, v); j in t.nodes && t.nodes[j].hole == s.nodes[j].hole
  {
    hide Decrees, Commits, AddVote, NextInstance;
  }

  lemma AcceptStays(c: Config, s: System, e: Event, j: Id)
    requires Enabled(c, s, e) && j in s.nodes && (e.AckPrepare? || e.AckDecree? || e.AckCommit?)
    ensures j in Apply(c, s, e).nodes && Apply(c, s, e).nodes[j].hole == s.nodes[j].hole
  {
    hide Report, AddVote, AfterDecree, AfterCommit, AfterRecommit;
  }

  // ---------------------------------------------------------------- all there is

  /** The values of a log from number n to before m. */
  ghost function ValuesOf(log: Log, n: nat, m: nat): (vs: seq<Value>)
    requires n <= m && forall k :: n <= k < m ==> k in log
    ensures |vs| == m - n && forall d :: 0 <= d < m - n ==> vs[d] == log[n + d].value
  {
    seq(m - n, d requires 0 <= d < m - n => log[n + d].value)
  }

  /** If a node's log is committed from its next instance up to before m, some continuation has it learn just these values,
      in order, and changes no log. */
  lemma {:induction false} LearnsAll(c: Config, run: seq<Event>, i: Id, m: nat) returns (more: seq<Event>)
    requires c.Valid() && Orderly(c, run) && i in c.members && c.base + |Now(c, run, i)| <= m
    requires forall k :: c.base + |Now(c, run, i)| <= k < m ==> k in LogOf(c, run, i) && LogOf(c, run, i)[k].committed
    ensures run <= more && Orderly(c, more)
    ensures Now(c, more, i) == Now(c, run, i) + ValuesOf(LogOf(c, run, i), c.base + |Now(c, run, i)|, m)
    ensures SameLogs(c, run, more)
    decreases m - |Now(c, run, i)|
  {
    hide Init, Apply, Enabled, Now, LogOf, Orderly;
    var log, n := LogOf(c, run, i), c.base + |Now(c, run, i)|;
    more := run;
    if n < m {
      more := LearnsNext(c, run, i);
      more := LearnsAll(c, more, i, m);
    }
  }

  /** Whoever has a committed instance it cannot learn yet, and does not propose, may ask for the one it lacks. */
  lemma AsksForGaps(c: Config, run: seq<Event>, i: Id)
    requires c.Valid() && Orderly(c, run) && i in c.members
    ensures var s, log, n := After(c, run), LogOf(c, run, i), c.base + |Now(c, run, i)|;
      && i in s.nodes
      && (Enabled(c, s, AskAgain(i)) <==>
            && s.nodes[i].proposer != i && !(n in log && log[n].committed)
            && exists m :: m in log && m > n && log[m].committed)
  {
    hide Init, Apply;
    NowIs(c, run, i);
  }

  /** A message is delivered at most once: the event that takes it uses it up. */
  lemma DeliveredOnce(c: Config, s: System, e: Event, m: Msg)
    requires Enabled(c, s, e)
    requires e in {Lose(m), AckPrepare(m), AckPromise(m), AckDecree(m), AckAccept(m), AckCommit(m), AckRetry(m)}
    ensures m in s.net && Apply(c, s, e).net[m] == s.net[m] - 1
  {
    hide Report, AddVote, AfterDecree, AfterCommit, AfterRecommit;
    if e.AckPromise? {
      PromiseUsed(c, s, m);
    } else if e.AckAccept? {
      AcceptUsed(c, s, m);
    } else if e.AckRetry? {
      RetryUsed(c, s, m);
    }
  }

  lemma PromiseUsed(c: Config, s: System, m: Msg)
    requires CanAckPromise(s, m)
    ensures DoAckPromise(c, s, m).net[m] == s.net[m] - 1
  {
    hide Merge, Open, FinishFrom;
  }

  lemma AcceptUsed(c: Config, s: System, m: Msg)
    requires CanAckAccept(s, m)
    ensures DoAckAccept(c, s, m).net[m] == s.net[m] - 1
  {
  }

  lemma RetryUsed(c: Config, s: System, m: Msg)
    requires CanAckRetry(s, m)
    ensures DoAckRetry(c, s, m).net[m] == s.net[m] - 1
  {
  }
}
