/** Building runs step by step, with only a part of the state in view: some nodes and some messages in flight. */
module Scenario {
  import opened Primitives
  import opened DecreeLog
  import opened Protocol
  import opened Invariants

  // ---------------------------------------------------------------- which runs

  /** The value asserts of `acceptor_ack_decree` fail for the decree m. */
  ghost predicate FailsAssert(s: System, m: Msg) {
    && m.Decree? && m.dst in s.nodes && m.inum in s.nodes[m.dst].log
    && var slot := s.nodes[m.dst].log[m.inum];
       slot.committed && (slot.value.kind != m.value.kind || slot.value.reqid != m.value.reqid)
  }

  /** What the runs are limited to.  The only header a recommit may lower is drop's second to its first; the only
      ballot that may decree the value of `only` for its instance is the one given. */
  datatype Limits = Limits(drop: Option<(Ballot, Ballot)>, only: Option<(nat, Value, Ballot)>)

  /** The event fails no value assert, and lowers no header but as allowed. */
  ghost predicate Allowed(s: System, e: Event, drop: Option<(Ballot, Ballot)>) {
    && (e.AckDecree? ==> !FailsAssert(s, e.msg))
    && (Lowers(s, e) ==> drop == Some((e.msg.ballot, s.nodes[e.msg.dst].log[e.msg.inum].ballot)))
  }

  ghost predicate RunWithin(c: Config, run: seq<Event>, drop: Option<(Ballot, Ballot)>) {
    && IsRun(c, run)
    && (run == [] ||
        (RunWithin(c, run[..|run| - 1], drop) && Allowed(After(c, run[..|run| - 1]), run[|run| - 1], drop)))
  }

  lemma {:induction false} WithinIsOrderly(c: Config, run: seq<Event>)
    requires RunWithin(c, run, None)
    ensures Orderly(c, run)
  {
    hide Init, Apply, Enabled;
    if run != [] {
      WithinIsOrderly(c, run[..|run| - 1]);
    }
  }

  ghost predicate OrderlyReachable(c: Config, s: System) {
    exists run :: Orderly(c, run) && After(c, run) == s
  }

  /** The value given is decreed for its instance in no other ballot than the one given. */
  ghost predicate OnlyThere(lim: Limits, decreed: map<(Ballot, nat), Value>) {
    lim.only.Some? ==>
      forall a {:trigger (a, lim.only.value.0) in decreed} ::
        (a, lim.only.value.0) in decreed && decreed[(a, lim.only.value.0)] == lim.only.value.1 ==> a == lim.only.value.2
  }

  // ---------------------------------------------------------------- what is in view

  /** Some nodes, and some messages in flight. */
  datatype Scene = Scene(nodes: map<Id, Node>, msgs: multiset<Msg>) {
    ghost function Set(i: Id, nd: Node): Scene { Scene(nodes[i := nd], msgs) }
    ghost function Send(sent: multiset<Msg>): Scene { Scene(nodes, msgs + sent) }
    ghost function Take(m: Msg): Scene { Scene(nodes, msgs - multiset{m}) }
  }

  ghost predicate Shows(s: System, x: Scene) {
    && (forall i :: i in x.nodes ==> i in s.nodes && s.nodes[i] == x.nodes[i])
    && x.msgs <= s.net
  }

  ghost predicate Reachable(c: Config, s: System, lim: Limits) {
    (exists run :: RunWithin(c, run, lim.drop) && After(c, run) == s) && OnlyThere(lim, s.hist.decreed)
  }

  /** Some run leads there. */
  ghost predicate At(c: Config, lim: Limits, x: Scene) {
    exists s :: Reachable(c, s, lim) && Shows(s, x)
  }

  ghost function Witness(c: Config, lim: Limits, x: Scene): (s: System)
    requires At(c, lim, x)
    ensures Reachable(c, s, lim) && Shows(s, x) && OnlyThere(lim, s.hist.decreed)
  {
    var s :| Reachable(c, s, lim) && Shows(s, x);
    s
  }

  /** One event more. */
  lemma Step(c: Config, lim: Limits, s: System, e: Event, y: Scene)
    requires Reachable(c, s, lim) && Enabled(c, s, e) && Allowed(s, e, lim.drop)
    requires OnlyThere(lim, Apply(c, s, e).hist.decreed) && Shows(Apply(c, s, e), y)
    ensures At(c, lim, y)
  {
    hide Init, Apply, Enabled, Allowed, OnlyThere, Shows;
    var run :| RunWithin(c, run, lim.drop) && After(c, run) == s;
    assert (run + [e])[..|run|] == run;
    assert RunWithin(c, run + [e], lim.drop) && After(c, run + [e]) == Apply(c, s, e);
    assert Reachable(c, Apply(c, s, e), lim);
  }

  lemma AlwaysAllowed(s: System, e: Event, drop: Option<(Ballot, Ballot)>)
    requires !e.AckDecree? && !e.AckCommit?
    ensures Allowed(s, e, drop)
  {
  }

  lemma Weaken(c: Config, lim: Limits, x: Scene, fewer: multiset<Msg>)
    requires At(c, lim, x) && fewer <= x.msgs
    ensures At(c, lim, Scene(x.nodes, fewer))
  {
    hide Reachable;
    assert Shows(Witness(c, lim, x), Scene(x.nodes, fewer));
  }

  lemma Begins(c: Config, lim: Limits)
    requires OnlyThere(lim, Init(c).hist.decreed)
    ensures At(c, lim, Scene(Init(c).nodes, multiset{}))
  {
    var s := Init(c);
    assert RunWithin(c, [], lim.drop) && After(c, []) == s;
    assert Shows(s, Scene(s.nodes, multiset{}));
  }

  // ---------------------------------------------------------------- single events

  ghost function DecreesTo(ds: seq<Id>, i: Id, b: Ballot, n: nat, v: Value): multiset<Msg> {
    if ds == [] then multiset{} else DecreesTo(ds[1..], i, b, n, v) + multiset{Decree(i, ds[0], b, n, v)}
  }

  ghost function PreparesTo(ds: seq<Id>, i: Id, b: Ballot, hole: nat): multiset<Msg> {
    if ds == [] then multiset{} else PreparesTo(ds[1..], i, b, hole) + multiset{Prepare(i, ds[0], b, hole)}
  }

  ghost function CommitsTo(ds: seq<Id>, i: Id, b: Ballot, n: nat, v: Value, again: bool): multiset<Msg> {
    if ds == [] then multiset{} else CommitsTo(ds[1..], i, b, n, v, again) + multiset{Commit(i, ds[0], b, n, v, again)}
  }

  ghost predicate Distinct(ds: seq<Id>) {
    forall k, l :: 0 <= k < l < |ds| ==> ds[k] != ds[l]
  }

  /** Each of ds but i is another member. */
  ghost predicate Others(c: Config, i: Id, ds: seq<Id>) {
    Distinct(ds) && forall d :: d in ds ==> d in c.members && d != i
  }

  lemma OthersRest(c: Config, i: Id, ds: seq<Id>)
    requires Others(c, i, ds) && ds != []
    ensures Others(c, i, ds[1..]) && ds[0] !in ds[1..] && ds[0] in c.members - {i}
    ensures forall d :: d in ds <==> d == ds[0] || d in ds[1..]
  {
    var rest := ds[1..];
    assert ds == [ds[0]] + rest;
    assert forall k :: 0 <= k < |rest| ==> rest[k] == ds[k + 1];
    assert forall d :: d in rest ==> d in ds;
    assert ds[0] in ds;
  }

  lemma OthersSum(c: Config, i: Id, ds: seq<Id>, es: seq<Id>)
    requires Others(c, i, ds) && Others(c, i, es) && forall d :: d in ds ==> d !in es
    ensures Others(c, i, ds + es)
  {
    forall k, l | 0 <= k < l < |ds + es|
      ensures (ds + es)[k] != (ds + es)[l]
    {
      assert k < |ds| ==> (ds + es)[k] in ds;
      assert l >= |ds| ==> (ds + es)[l] in es;
    }
  }

  lemma OthersApart(c: Config, i: Id, ds: seq<Id>)
    requires Others(c, i, ds)
    ensures i !in ds
  {
  }

  lemma {:induction false} DecreesSent(c: Config, ds: seq<Id>, i: Id, b: Ballot, n: nat, log: Log)
    requires n in log && Others(c, i, ds)
    ensures DecreesTo(ds, i, b, n, log[n].value) <= Decrees(c, i, b, {n}, log)
    ensures forall m :: m in DecreesTo(ds, i, b, n, log[n].value) ==>
              m.Decree? && m.dst in ds && m == Decree(i, m.dst, b, n, log[n].value)
  {
    if ds != [] {
      OthersRest(c, i, ds);
      DecreesSent(c, ds[1..], i, b, n, log);
      assert ds[0] in c.members - {i} && n in {n};
      assert Decree(i, ds[0], b, n, log[n].value) in Decrees(c, i, b, {n}, log);
    }
  }

  lemma {:induction false} PreparesSent(c: Config, ds: seq<Id>, i: Id, b: Ballot, hole: nat)
    requires Others(c, i, ds)
    ensures PreparesTo(ds, i, b, hole) <= Protocol.Prepares(c, i, b, hole)
    ensures forall m :: m in PreparesTo(ds, i, b, hole) ==> m.Prepare? && m.dst in ds && m == Prepare(i, m.dst, b, hole)
  {
    if ds != [] {
      OthersRest(c, i, ds);
      PreparesSent(c, ds[1..], i, b, hole);
      assert Prepare(i, ds[0], b, hole) in Protocol.Prepares(c, i, b, hole);
    }
  }

  lemma {:induction false} CommitsSent(c: Config, ds: seq<Id>, i: Id, b: Ballot, n: nat, v: Value, again: bool)
    requires Others(c, i, ds)
    ensures CommitsTo(ds, i, b, n, v, again) <= Protocol.Commits(c, i, b, n, v, again)
    ensures forall m :: m in CommitsTo(ds, i, b, n, v, again) ==>
              m.Commit? && m.dst in ds && m == Commit(i, m.dst, b, n, v, again)
  {
    if ds != [] {
      OthersRest(c, i, ds);
      CommitsSent(c, ds[1..], i, b, n, v, again);
      assert Commit(i, ds[0], b, n, v, again) in Protocol.Commits(c, i, b, n, v, again);
    }
  }

  lemma Proposes(c: Config, lim: Limits, x: Scene, i: Id, v: Value, ds: seq<Id>)
    requires At(c, lim, x) && i in x.nodes && Prepared(x.nodes, i) && c.Majority() > 1 && Others(c, i, ds)
    requires lim.only.Some? && v == lim.only.value.1 ==> x.nodes[i].ballot == lim.only.value.2
    ensures var nd := x.nodes[i];
      var n := NextInstance(nd.log);
      At(c, lim, x.Set(i, nd.(log := nd.log[n := Slot(nd.ballot, v, false, 1)]))
                  .Send(DecreesTo(ds, i, nd.ballot, n, v)))
  {
    hide At, Allowed, Reachable;
    var nd, s := x.nodes[i], Witness(c, lim, x);
    var n := NextInstance(nd.log);
    var log := nd.log[n := Slot(nd.ballot, v, false, 1)];
    DecreesSent(c, ds, i, nd.ballot, n, log);
    OnlyOneMore(lim, s.hist.decreed, nd.ballot, n, v);
    AlwaysAllowed(s, Propose(i, v), lim.drop);
    Step(c, lim, s, Propose(i, v), x.Set(i, nd.(log := log)).Send(DecreesTo(ds, i, nd.ballot, n, v)));
  }

  lemma OnlyOneMore(lim: Limits, decreed: map<(Ballot, nat), Value>, b: Ballot, n: nat, v: Value)
    requires OnlyThere(lim, decreed) && (lim.only.Some? && v == lim.only.value.1 ==> b == lim.only.value.2)
    ensures OnlyThere(lim, decreed[(b, n) := v])
  {
  }

  /** Node nd with a new prepare. */
  ghost function Preparing(nd: Node, i: Id, g: nat): Node {
    nd.(genHigh := g, proposer := i, prep := Some(Prep(Pair(i, g), 1)))
  }

  lemma Prepares(c: Config, lim: Limits, x: Scene, i: Id, ds: seq<Id>)
    requires At(c, lim, x) && i in x.nodes && !Prepared(x.nodes, i) && Others(c, i, ds)
    ensures var nd, g := x.nodes[i], x.nodes[i].genHigh + 1;
      At(c, lim, x.Set(i, Preparing(nd, i, g)).Send(PreparesTo(ds, i, Pair(i, g), nd.hole)))
  {
    hide At, Protocol.Prepares, PreparesTo, Allowed, Reachable, OnlyThere;
    var nd, g, s := x.nodes[i], x.nodes[i].genHigh + 1, Witness(c, lim, x);
    PreparesSent(c, ds, i, Pair(i, g), nd.hole);
    AlwaysAllowed(s, StartPrepare(i), lim.drop);
    Step(c, lim, s, StartPrepare(i), x.Set(i, Preparing(nd, i, g)).Send(PreparesTo(ds, i, Pair(i, g), nd.hole)));
  }

  /** Preparing again and again raises the generation as far as one likes. */
  lemma {:induction false} PreparesUpTo(c: Config, lim: Limits, x: Scene, i: Id, g: nat, ds: seq<Id>)
    requires At(c, lim, x) && i in x.nodes && !Prepared(x.nodes, i) && Others(c, i, ds) && x.nodes[i].genHigh < g
    ensures var nd := x.nodes[i];
      At(c, lim, x.Set(i, Preparing(nd, i, g)).Send(PreparesTo(ds, i, Pair(i, g), nd.hole)))
    decreases g - x.nodes[i].genHigh
  {
    hide At;
    var nd, h := x.nodes[i], x.nodes[i].genHigh + 1;
    if h == g {
      Prepares(c, lim, x, i, ds);
    } else {
      var y := x.Set(i, Preparing(nd, i, h));
      Prepares(c, lim, x, i, []);
      assert y.Send(multiset{}) == y;
      PreparesUpTo(c, lim, y, i, g, ds);
      assert y.Set(i, Preparing(y.nodes[i], i, g)) == x.Set(i, Preparing(nd, i, g));
    }
  }

  lemma Follows(c: Config, lim: Limits, x: Scene, i: Id, p: Id)
    requires At(c, lim, x) && i in x.nodes && !Prepared(x.nodes, i) && p in c.members && p != i
    ensures At(c, lim, x.Set(i, x.nodes[i].(proposer := p, prep := None)))
  {
    hide At, Allowed, Reachable, OnlyThere;
    var s := Witness(c, lim, x);
    AlwaysAllowed(s, Follow(i, p), lim.drop);
    Step(c, lim, s, Follow(i, p), x.Set(i, x.nodes[i].(proposer := p, prep := None)));
  }

  ghost function Answer(m: Msg, log: Log): Msg
    requires m.Prepare?
  {
    Promise(m.dst, m.src, m.ballot, Report(log, m.hole))
  }

  lemma Promises(c: Config, lim: Limits, x: Scene, m: Msg)
    requires At(c, lim, x) && m.Prepare? && m in x.msgs && m.dst in x.nodes
    requires x.nodes[m.dst].proposer == m.src && Below(x.nodes[m.dst].ballot, m.ballot)
    ensures var nd := x.nodes[m.dst];
      At(c, lim, x.Take(m).Set(m.dst, nd.(ballot := m.ballot, genHigh := m.ballot.gen)).Send(multiset{Answer(m, nd.log)}))
  {
    hide At, Allowed, Reachable, OnlyThere, Report;
    var nd, s := x.nodes[m.dst], Witness(c, lim, x);
    AlwaysAllowed(s, AckPrepare(m), lim.drop);
    Step(c, lim, s, AckPrepare(m),
         x.Take(m).Set(m.dst, nd.(ballot := m.ballot, genHigh := m.ballot.gen)).Send(multiset{Answer(m, nd.log)}));
  }

  /** The promise m reports nothing that the preparer, node m.dst, does not know. */
  ghost predicate Counting(x: Scene, m: Msg) {
    && m.Promise? && m in x.msgs && m.dst in x.nodes
    && var nd := x.nodes[m.dst];
       && nd.proposer == m.dst && nd.prep.Some? && nd.prep.value.ballot == m.ballot && nd.log.Keys != {}
       && Merge(nd.log, m.votes) == nd.log
  }

  lemma Collects(c: Config, lim: Limits, x: Scene, m: Msg)
    requires At(c, lim, x) && Counting(x, m) && x.nodes[m.dst].prep.value.acks + 1 < c.Majority()
    ensures var nd := x.nodes[m.dst];
      At(c, lim, x.Take(m).Set(m.dst, nd.(prep := Some(Prep(m.ballot, nd.prep.value.acks + 1)))))
  {
    hide At, FinishPrepare, Allowed, Reachable, OnlyThere, Merge;
    var nd, s := x.nodes[m.dst], Witness(c, lim, x);
    AlwaysAllowed(s, AckPromise(m), lim.drop);
    Step(c, lim, s, AckPromise(m), x.Take(m).Set(m.dst, nd.(prep := Some(Prep(m.ballot, nd.prep.value.acks + 1)))));
  }

  /** The last promise that is needed, where nothing is open. */
  lemma Finishes(c: Config, lim: Limits, x: Scene, m: Msg)
    requires At(c, lim, x) && Counting(x, m) && x.nodes[m.dst].prep.value.acks + 1 >= c.Majority()
    requires Last(x.nodes[m.dst].log) < x.nodes[m.dst].hole
    ensures var nd := x.nodes[m.dst]; At(c, lim, x.Take(m).Set(m.dst, nd.(ballot := m.ballot, prep := None)))
  {
    hide At, Allowed, Reachable, Merge;
    var nd, s := x.nodes[m.dst], Witness(c, lim, x);
    assert Open(nd.log, nd.hole) == {};
    var t := Apply(c, s, AckPromise(m));
    assert t.hist.decreed == s.hist.decreed;
    AlwaysAllowed(s, AckPromise(m), lim.drop);
    Step(c, lim, s, AckPromise(m), x.Take(m).Set(m.dst, nd.(ballot := m.ballot, prep := None)));
  }

  /** Of the instances from the hole on, which are all there, only the one at the hole is open. */
  ghost predicate HoleOpen(nd: Node) {
    && nd.log.Keys != {} && nd.hole in nd.log && !nd.log[nd.hole].committed
    && forall n :: nd.hole < n <= Last(nd.log) ==> n in nd.log && nd.log[n].committed
  }

  /** The last promise that is needed, where only the instance at the hole is open: it is decreed again. */
  lemma FinishesOpen(c: Config, lim: Limits, x: Scene, m: Msg, ds: seq<Id>)
    requires At(c, lim, x) && lim.only == None && Counting(x, m) && Others(c, m.dst, ds)
    requires x.nodes[m.dst].prep.value.acks + 1 >= c.Majority() && HoleOpen(x.nodes[m.dst])
    ensures var nd := x.nodes[m.dst];
      var v := nd.log[nd.hole].value;
      At(c, lim, x.Take(m).Set(m.dst, nd.(ballot := m.ballot, prep := None,
                                          log := nd.log[nd.hole := Slot(m.ballot, v, false, 1)]))
                  .Send(DecreesTo(ds, m.dst, m.ballot, nd.hole, v)))
  {
    hide At, Allowed, Reachable, Merge, Last, Decrees, Others;
    var nd, s := x.nodes[m.dst], Witness(c, lim, x);
    var v := nd.log[nd.hole].value;
    var log := nd.log[nd.hole := Slot(m.ballot, v, false, 1)];
    OneOpen(nd, m.ballot, m.dst);
    DecreesSent(c, ds, m.dst, m.ballot, nd.hole, log);
    AlwaysAllowed(s, AckPromise(m), lim.drop);
    hide HoleOpen;
    Step(c, lim, s, AckPromise(m), x.Take(m).Set(m.dst, nd.(ballot := m.ballot, prep := None, log := log))
                                    .Send(DecreesTo(ds, m.dst, m.ballot, nd.hole, v)));
  }

  lemma OneOpen(nd: Node, b: Ballot, self: nat)
    requires HoleOpen(nd)
    ensures var n, more := nd.hole, nd.log[nd.hole := Slot(b, nd.log[nd.hole].value, false, 1)];
      FinishFrom(nd.log, n, Last(nd.log), b, self, nd.reqid) == (more, nd.reqid) && Open(more, n) == {n}
  {
    var n, more := nd.hole, nd.log[nd.hole := Slot(b, nd.log[nd.hole].value, false, 1)];
    assert forall m :: m in nd.log ==> m <= Last(nd.log);
    AllCommitted(more, n + 1, Last(nd.log), b, self, nd.reqid);
    assert nd.log[n := nd.log[n].(ballot := b, votes := 1)] == more;
  }

  lemma {:induction false} AllCommitted(log: Log, n: nat, last: nat, b: Ballot, self: nat, reqid: nat)
    requires forall m :: n <= m <= last ==> m in log && log[m].committed
    ensures FinishFrom(log, n, last, b, self, reqid) == (log, reqid)
    decreases last + 1 - n
  {
    if n <= last {
      AllCommitted(log, n + 1, last, b, self, reqid);
    }
  }

  lemma Votes(c: Config, lim: Limits, x: Scene, m: Msg)
    requires At(c, lim, x) && m.Decree? && m in x.msgs && m.dst in x.nodes
    requires var nd := x.nodes[m.dst];
      && nd.proposer != m.dst && nd.proposer == m.ballot.id && nd.ballot == m.ballot
      && Accepts(nd.log, m.ballot, m.inum)
      && (m.inum in nd.log && nd.log[m.inum].committed ==> nd.log[m.inum].value == m.value)
    ensures var nd := x.nodes[m.dst];
      At(c, lim, x.Take(m).Set(m.dst, nd.(log := AfterDecree(nd.log, m.ballot, m.inum, m.value)))
                  .Send(multiset{Accept(m.dst, m.src, m.ballot, m.inum)}))
  {
    hide At, Reachable, OnlyThere, AfterDecree;
    var nd, s := x.nodes[m.dst], Witness(c, lim, x);
    Step(c, lim, s, AckDecree(m), x.Take(m).Set(m.dst, nd.(log := AfterDecree(nd.log, m.ballot, m.inum, m.value)))
                                   .Send(multiset{Accept(m.dst, m.src, m.ballot, m.inum)}));
  }

  /** The accept m arrives at a proposer that has the instance and has not committed it. */
  ghost predicate Voting(x: Scene, m: Msg) {
    && m.Accept? && m in x.msgs && m.dst in x.nodes
    && var nd := x.nodes[m.dst];
       && nd.proposer == m.dst && m.ballot == nd.ballot && m.inum in nd.log && !nd.log[m.inum].committed
  }

  lemma Counts(c: Config, lim: Limits, x: Scene, m: Msg)
    requires At(c, lim, x) && Voting(x, m) && x.nodes[m.dst].log[m.inum].votes + 1 < c.Majority()
    ensures var nd := x.nodes[m.dst];
      var slot := nd.log[m.inum];
      At(c, lim, x.Take(m).Set(m.dst, nd.(log := nd.log[m.inum := slot.(votes := slot.votes + 1)])))
  {
    hide At, DoAckAccept, Allowed, Reachable, OnlyThere;
    var nd, s := x.nodes[m.dst], Witness(c, lim, x);
    var slot := nd.log[m.inum];
    CountNode(c, s, m);
    AlwaysAllowed(s, AckAccept(m), lim.drop);
    Step(c, lim, s, AckAccept(m),
         x.Take(m).Set(m.dst, nd.(log := nd.log[m.inum := slot.(votes := slot.votes + 1)])));
  }

  lemma CountNode(c: Config, s: System, m: Msg)
    requires CanAckAccept(s, m) && s.nodes[m.dst].log[m.inum].votes + 1 < c.Majority()
    ensures var nd, t := s.nodes[m.dst], DoAckAccept(c, s, m);
      var slot := nd.log[m.inum];
      && t.nodes == s.nodes[m.dst := nd.(log := nd.log[m.inum := slot.(votes := slot.votes + 1)])]
      && t.net == s.net - multiset{m} && t.hist.decreed == s.hist.decreed
  {
    hide Protocol.Commits;
  }

  /** The accept that completes the majority; the commit goes to ds, among others. */
  lemma Commits(c: Config, lim: Limits, x: Scene, m: Msg, ds: seq<Id>)
    requires At(c, lim, x) && Voting(x, m) && x.nodes[m.dst].log[m.inum].votes + 1 >= c.Majority()
    requires Others(c, m.dst, ds)
    ensures var nd := x.nodes[m.dst];
      var slot := nd.log[m.inum];
      At(c, lim, x.Take(m).Set(m.dst, nd.(log := nd.log[m.inum := slot.(votes := slot.votes + 1, committed := true)]))
                  .Send(CommitsTo(ds, m.dst, slot.ballot, m.inum, slot.value, false)))
  {
    hide At, Others, CommitsTo, DoAckAccept, Protocol.Commits, Allowed, Reachable, OnlyThere;
    var nd, s := x.nodes[m.dst], Witness(c, lim, x);
    var slot := nd.log[m.inum];
    var told := CommitsTo(ds, m.dst, slot.ballot, m.inum, slot.value, false);
    CommitsSent(c, ds, m.dst, slot.ballot, m.inum, slot.value, false);
    CommitNode(c, s, m);
    AlwaysAllowed(s, AckAccept(m), lim.drop);
    Step(c, lim, s, AckAccept(m),
         x.Take(m).Set(m.dst, nd.(log := nd.log[m.inum := slot.(votes := slot.votes + 1, committed := true)]))
          .Send(told));
  }

  lemma CommitNode(c: Config, s: System, m: Msg)
    requires CanAckAccept(s, m)
    requires var slot := s.nodes[m.dst].log[m.inum]; !slot.committed && slot.votes + 1 >= c.Majority()
    ensures var nd, t := s.nodes[m.dst], DoAckAccept(c, s, m);
      var slot := nd.log[m.inum];
      && t.nodes == s.nodes[m.dst := nd.(log := nd.log[m.inum := slot.(votes := slot.votes + 1, committed := true)])]
      && t.net == s.net - multiset{m} + Protocol.Commits(c, m.dst, slot.ballot, m.inum, slot.value, false)
      && t.hist.decreed == s.hist.decreed
  {
    hide Protocol.Commits;
    var nd := s.nodes[m.dst];
    var slot := nd.log[m.inum];
    var counted := slot.(votes := slot.votes + 1);
    assert nd.log[m.inum := counted][m.inum := counted.(committed := true)]
        == nd.log[m.inum := slot.(votes := slot.votes + 1, committed := true)];
  }

  /** A commit, or a recommit, arrives. */
  lemma Takes(c: Config, lim: Limits, x: Scene, m: Msg)
    requires At(c, lim, x) && m.Commit? && m in x.msgs && m.dst in x.nodes && x.nodes[m.dst].proposer != m.dst
    requires var log := x.nodes[m.dst].log;
      m.again && m.inum in log && !log[m.inum].committed && Below(m.ballot, log[m.inum].ballot) ==>
        lim.drop == Some((m.ballot, log[m.inum].ballot))
    ensures var nd := x.nodes[m.dst];
      var log := if m.again then AfterRecommit(nd.log, m.ballot, m.inum, m.value)
                 else AfterCommit(nd.log, m.ballot, m.inum, m.value);
      At(c, lim, x.Take(m).Set(m.dst, nd.(log := log)))
  {
    hide At, Reachable, OnlyThere, AfterRecommit, AfterCommit;
    var nd, s := x.nodes[m.dst], Witness(c, lim, x);
    var log := if m.again then AfterRecommit(nd.log, m.ballot, m.inum, m.value)
               else AfterCommit(nd.log, m.ballot, m.inum, m.value);
    Step(c, lim, s, AckCommit(m), x.Take(m).Set(m.dst, nd.(log := log)));
  }

  /** Node i has a commit numbered n, beyond its hole, and asks for the commit of the hole. */
  lemma Asks(c: Config, lim: Limits, x: Scene, i: Id, n: nat)
    requires At(c, lim, x) && i in x.nodes && x.nodes[i].proposer != i
    requires var nd := x.nodes[i];
      nd.hole !in nd.log && n in nd.log && n > nd.hole && nd.log[n].committed
    ensures var nd := x.nodes[i]; At(c, lim, x.Send(multiset{Retry(i, nd.proposer, nd.ballot, nd.hole)}))
  {
    hide At, Allowed, Reachable, OnlyThere;
    var nd, s := x.nodes[i], Witness(c, lim, x);
    AlwaysAllowed(s, AskAgain(i), lim.drop);
    assert n in s.nodes[i].log;
    Step(c, lim, s, AskAgain(i), x.Send(multiset{Retry(i, nd.proposer, nd.ballot, nd.hole)}));
  }

  /** A retry is answered, to ds among others. */
  lemma Answers(c: Config, lim: Limits, x: Scene, m: Msg, ds: seq<Id>)
    requires At(c, lim, x) && m.Retry? && m in x.msgs && m.dst in x.nodes && x.nodes[m.dst].proposer == m.dst
    requires m.inum in x.nodes[m.dst].log && x.nodes[m.dst].log[m.inum].committed && Others(c, m.dst, ds)
    ensures var v := x.nodes[m.dst].log[m.inum].value;
      At(c, lim, x.Take(m).Send(CommitsTo(ds, m.dst, m.ballot, m.inum, v, true)))
  {
    hide At, Allowed, Reachable, OnlyThere, Others, CommitsTo;
    var v, s := x.nodes[m.dst].log[m.inum].value, Witness(c, lim, x);
    CommitsSent(c, ds, m.dst, m.ballot, m.inum, v, true);
    AlwaysAllowed(s, AckRetry(m), lim.drop);
    Step(c, lim, s, AckRetry(m), x.Take(m).Send(CommitsTo(ds, m.dst, m.ballot, m.inum, v, true)));
  }

  // ---------------------------------------------------------------- a whole prepare, a whole vote

  /** Node nd once it has come to follow i and has promised ballot b. */
  ghost function Joined(nd: Node, i: Id, b: Ballot): Node {
    nd.(ballot := b, genHigh := b.gen, proposer := i, prep := None)
  }

  /** Node d can join the prepare of node i without telling it anything new. */
  ghost predicate CanJoin(nodes: map<Id, Node>, i: Id, b: Ballot, d: Id)
    requires i in nodes
  {
    && d in nodes && d != i && !Prepared(nodes, d) && Below(nodes[d].ballot, b)
    && Merge(nodes[i].log, Report(nodes[d].log, nodes[i].hole)) == nodes[i].log
  }

  /** Node i has a pending prepare that has counted so many promises. */
  ghost predicate Pending(nodes: map<Id, Node>, i: Id, b: Ballot, acks: nat) {
    i in nodes && nodes[i].proposer == i && nodes[i].prep == Some(Prep(b, acks)) && nodes[i].log.Keys != {}
  }

  lemma Joins(c: Config, lim: Limits, x: Scene, i: Id, b: Ballot, d: Id, hole: nat)
    requires At(c, lim, x) && i in c.members && d != i && d in x.nodes && !Prepared(x.nodes, d)
    requires Below(x.nodes[d].ballot, b) && Prepare(i, d, b, hole) in x.msgs
    ensures var m, nd := Prepare(i, d, b, hole), x.nodes[d];
      At(c, lim, x.Take(m).Set(d, Joined(nd, i, b)).Send(multiset{Answer(m, nd.log)}))
  {
    hide At, Report;
    var m, nd := Prepare(i, d, b, hole), x.nodes[d];
    var y := x.Set(d, nd.(proposer := i, prep := None));
    Follows(c, lim, x, d, i);
    Promises(c, lim, y, m);
    assert y.Take(m).Set(d, y.nodes[d].(ballot := b, genHigh := b.gen)) == x.Take(m).Set(d, Joined(nd, i, b));
  }

  /** Node d joins, and its promise is there. */
  lemma Answered(c: Config, lim: Limits, x: Scene, rest: multiset<Msg>, i: Id, b: Ballot, acks: nat, d: Id)
    returns (y: Scene, m: Msg)
    requires At(c, lim, x) && i in c.members && Pending(x.nodes, i, b, acks) && CanJoin(x.nodes, i, b, d)
    requires x.msgs == rest + multiset{Prepare(i, d, b, x.nodes[i].hole)}
    ensures y == Scene(x.nodes[d := Joined(x.nodes[d], i, b)], rest + multiset{m})
    ensures At(c, lim, y) && Counting(y, m) && m.dst == i && m.ballot == b
  {
    hide At, Report, Merge;
    var ask := Prepare(i, d, b, x.nodes[i].hole);
    m := Answer(ask, x.nodes[d].log);
    Joins(c, lim, x, i, b, d, x.nodes[i].hole);
    y := x.Take(ask).Set(d, Joined(x.nodes[d], i, b)).Send(multiset{m});
    assert x.msgs - multiset{ask} == rest;
  }

  lemma JoinsOne(c: Config, lim: Limits, x: Scene, rest: multiset<Msg>, i: Id, b: Ballot, acks: nat, d: Id)
    requires At(c, lim, x) && i in c.members && Pending(x.nodes, i, b, acks) && CanJoin(x.nodes, i, b, d)
    requires x.msgs == rest + multiset{Prepare(i, d, b, x.nodes[i].hole)} && acks + 1 < c.Majority()
    ensures var nodes := x.nodes[d := Joined(x.nodes[d], i, b)][i := x.nodes[i].(prep := Some(Prep(b, acks + 1)))];
      At(c, lim, Scene(nodes, rest))
  {
    hide At, Report, Merge, Joined;
    var z, m := Answered(c, lim, x, rest, i, b, acks, d);
    Collects(c, lim, z, m);
    assert rest + multiset{m} - multiset{m} == rest;
  }

  /** The nodes ds join, and their promises are counted. */
  lemma {:induction false} JoinsAll(c: Config, lim: Limits, x: Scene, rest: multiset<Msg>, i: Id, b: Ballot, acks: nat,
                                    ds: seq<Id>) returns (y: Scene)
    requires At(c, lim, x) && i in c.members && Others(c, i, ds) && Pending(x.nodes, i, b, acks)
    requires acks + |ds| < c.Majority() && forall d :: d in ds ==> CanJoin(x.nodes, i, b, d)
    requires x.msgs == rest + PreparesTo(ds, i, b, x.nodes[i].hole)
    ensures At(c, lim, y) && y.msgs == rest && y.nodes.Keys == x.nodes.Keys
    ensures y.nodes[i] == x.nodes[i].(prep := Some(Prep(b, acks + |ds|)))
    ensures forall j :: j in x.nodes && j != i ==>
              y.nodes[j] == if j in ds then Joined(x.nodes[j], i, b) else x.nodes[j]
    decreases |ds|
  {
    hide At, Report, Merge, Others, Joined, PreparesTo, DecreesTo, CommitsTo;
    if ds == [] {
      SentNothing(i, b, 0, JOINED, x.nodes[i].hole);
      y := x;
    } else {
      OthersRest(c, i, ds);
      SentOne(ds, i, b, 0, JOINED, x.nodes[i].hole);
      var d, more := ds[0], rest + PreparesTo(ds[1..], i, b, x.nodes[i].hole);
      assert x.msgs == more + multiset{Prepare(i, d, b, x.nodes[i].hole)};
      JoinsOne(c, lim, x, more, i, b, acks, d);
      y := Scene(x.nodes[d := Joined(x.nodes[d], i, b)][i := x.nodes[i].(prep := Some(Prep(b, acks + 1)))], more);
      y := JoinsAll(c, lim, y, rest, i, b, acks + 1, ds[1..]);
    }
  }

  lemma {:induction false} SentBoth(ds: seq<Id>, late: seq<Id>, i: Id, b: Ballot, hole: nat)
    ensures PreparesTo(ds + late, i, b, hole) == PreparesTo(ds, i, b, hole) + PreparesTo(late, i, b, hole)
  {
    if ds == [] {
      assert ds + late == late;
    } else {
      assert (ds + late)[1..] == ds[1..] + late;
      SentBoth(ds[1..], late, i, b, hole);
    }
  }

  lemma {:induction false} DecreesBoth(ds: seq<Id>, es: seq<Id>, i: Id, b: Ballot, n: nat, v: Value)
    ensures DecreesTo(ds + es, i, b, n, v) == DecreesTo(es, i, b, n, v) + DecreesTo(ds, i, b, n, v)
  {
    if ds == [] {
      assert ds + es == es;
    } else {
      assert (ds + es)[1..] == ds[1..] + es;
      DecreesBoth(ds[1..], es, i, b, n, v);
    }
  }

  lemma OthersFirst(c: Config, i: Id, ds: seq<Id>, late: seq<Id>)
    requires Others(c, i, ds + late)
    ensures Others(c, i, ds) && forall d :: d in ds ==> d !in late
  {
    assert forall k :: 0 <= k < |ds| ==> (ds + late)[k] == ds[k];
    assert forall k :: 0 <= k < |late| ==> (ds + late)[|ds| + k] == late[k];
    assert forall d :: d in ds ==> d in ds + late;
  }

  /** Node i prepares ballot (i, g) and counts the promises of ds but for one, which is there.  The nodes late have yet
      to be reached. */
  lemma JoinsButOne(c: Config, lim: Limits, x: Scene, i: Id, g: nat, ds: seq<Id>, late: seq<Id>)
    returns (y: Scene, m: Msg)
    requires At(c, lim, x) && i in c.members && i in x.nodes && Others(c, i, ds + late) && ds != []
    requires |ds| < c.Majority() && !Prepared(x.nodes, i) && x.nodes[i].genHigh < g && x.nodes[i].log.Keys != {}
    requires forall d :: d in ds ==> CanJoin(x.nodes, i, Pair(i, g), d)
    ensures y.msgs == x.msgs + PreparesTo(late, i, Pair(i, g), x.nodes[i].hole) + multiset{m}
    ensures At(c, lim, y) && y.nodes.Keys == x.nodes.Keys && Counting(y, m) && m.dst == i && m.ballot == Pair(i, g)
    ensures y.nodes[i] == x.nodes[i].(genHigh := g, proposer := i, prep := Some(Prep(Pair(i, g), |ds|)))
    ensures forall j :: j in x.nodes && j != i ==>
              y.nodes[j] == if j in ds then Joined(x.nodes[j], i, Pair(i, g)) else x.nodes[j]
  {
    hide At, Report, Merge, Others, Joined, PreparesTo, DecreesTo, CommitsTo;
    OthersFirst(c, i, ds, late);
    OthersRest(c, i, ds);
    var b, hole := Pair(i, g), x.nodes[i].hole;
    SentBoth(ds, late, i, b, hole);
    SentOne(ds, i, b, 0, JOINED, hole);
    PreparesUpTo(c, lim, x, i, g, ds + late);
    y := x.Set(i, Preparing(x.nodes[i], i, g)).Send(PreparesTo(ds + late, i, b, hole));
    var more := x.msgs + PreparesTo(late, i, b, hole);
    var rest := more + multiset{Prepare(i, ds[0], b, hole)};
    assert y.msgs == rest + PreparesTo(ds[1..], i, b, hole);
    y := JoinsAll(c, lim, y, rest, i, b, 1, ds[1..]);
    y, m := Answered(c, lim, y, more, i, b, |ds|, ds[0]);
  }

  /** Node i prepares ballot (i, g) with ds, a majority together with itself, and nothing is open.  The nodes late have
      yet to be reached. */
  lemma RisesWith(c: Config, lim: Limits, x: Scene, i: Id, g: nat, ds: seq<Id>, late: seq<Id>) returns (y: Scene)
    requires At(c, lim, x) && i in c.members && i in x.nodes && Others(c, i, ds + late) && |ds| + 1 == c.Majority() > 1
    requires !Prepared(x.nodes, i) && x.nodes[i].genHigh < g && x.nodes[i].log.Keys != {}
    requires Last(x.nodes[i].log) < x.nodes[i].hole && forall d :: d in ds ==> CanJoin(x.nodes, i, Pair(i, g), d)
    ensures At(c, lim, y) && y.nodes.Keys == x.nodes.Keys
    ensures y.msgs == x.msgs + PreparesTo(late, i, Pair(i, g), x.nodes[i].hole)
    ensures forall j :: j in x.nodes ==>
              y.nodes[j] == if j == i || j in ds then Joined(x.nodes[j], i, Pair(i, g)) else x.nodes[j]
  {
    hide At, Report, Merge, Others, Last, PreparesTo, DecreesTo, CommitsTo;
    var m;
    y, m := JoinsButOne(c, lim, x, i, g, ds, late);
    Finishes(c, lim, y, m);
    var rest := x.msgs + PreparesTo(late, i, Pair(i, g), x.nodes[i].hole);
    assert y.msgs - multiset{m} == rest;
    y := y.Take(m).Set(i, y.nodes[i].(ballot := Pair(i, g), prep := None));
  }

  lemma PreparesWith(c: Config, lim: Limits, x: Scene, i: Id, g: nat, ds: seq<Id>) returns (y: Scene)
    requires At(c, lim, x) && i in c.members && i in x.nodes && Others(c, i, ds) && |ds| + 1 == c.Majority() > 1
    requires !Prepared(x.nodes, i) && x.nodes[i].genHigh < g && x.nodes[i].log.Keys != {}
    requires Last(x.nodes[i].log) < x.nodes[i].hole && forall d :: d in ds ==> CanJoin(x.nodes, i, Pair(i, g), d)
    ensures At(c, lim, y) && y.msgs == x.msgs && y.nodes.Keys == x.nodes.Keys
    ensures forall j :: j in x.nodes ==>
              y.nodes[j] == if j == i || j in ds then Joined(x.nodes[j], i, Pair(i, g)) else x.nodes[j]
  {
    hide At, Report, Merge, Others, Last, PreparesTo, DecreesTo, CommitsTo, CanJoin, Joined;
    assert ds + [] == ds;
    SentNothing(i, Pair(i, g), 0, JOINED, x.nodes[i].hole);
    y := RisesWith(c, lim, x, i, g, ds, []);
    assert x.msgs + multiset{} == x.msgs;
  }

  lemma JoinsLate(c: Config, lim: Limits, x: Scene, rest: multiset<Msg>, i: Id, b: Ballot, d: Id, hole: nat)
    requires At(c, lim, x) && i in c.members && d != i && d in x.nodes && !Prepared(x.nodes, d)
    requires Below(x.nodes[d].ballot, b) && x.msgs == rest + multiset{Prepare(i, d, b, hole)}
    ensures At(c, lim, Scene(x.nodes[d := Joined(x.nodes[d], i, b)], rest))
  {
    hide At, Report, Joined, Answer;
    var ask := Prepare(i, d, b, hole);
    Joins(c, lim, x, i, b, d, hole);
    assert rest + multiset{ask} - multiset{ask} == rest;
    Weaken(c, lim, x.Take(ask).Set(d, Joined(x.nodes[d], i, b)).Send(multiset{Answer(ask, x.nodes[d].log)}), rest);
  }

  /** The nodes ds promise, but their promises are lost. */
  lemma {:induction false} LateJoins(c: Config, lim: Limits, x: Scene, rest: multiset<Msg>, i: Id, b: Ballot, hole: nat,
                                     ds: seq<Id>) returns (y: Scene)
    requires At(c, lim, x) && i in c.members && Others(c, i, ds) && x.msgs == rest + PreparesTo(ds, i, b, hole)
    requires forall d :: d in ds ==> d in x.nodes && !Prepared(x.nodes, d) && Below(x.nodes[d].ballot, b)
    ensures At(c, lim, y) && y.msgs == rest && y.nodes.Keys == x.nodes.Keys
    ensures forall j :: j in x.nodes ==> y.nodes[j] == if j in ds then Joined(x.nodes[j], i, b) else x.nodes[j]
    decreases |ds|
  {
    hide At, Others, Joined, PreparesTo, DecreesTo, CommitsTo;
    if ds == [] {
      SentNothing(i, b, 0, JOINED, hole);
      y := x;
    } else {
      OthersRest(c, i, ds);
      OthersApart(c, i, ds);
      SentOne(ds, i, b, 0, JOINED, hole);
      var d, more := ds[0], rest + PreparesTo(ds[1..], i, b, hole);
      assert x.msgs == more + multiset{Prepare(i, d, b, hole)};
      JoinsLate(c, lim, x, more, i, b, d, hole);
      y := Scene(x.nodes[d := Joined(x.nodes[d], i, b)], more);
      y := LateJoins(c, lim, y, rest, i, b, hole, ds[1..]);
    }
  }

  /** Node d will vote for i's decree of n. */
  ghost predicate CanVote(nodes: map<Id, Node>, i: Id, b: Ballot, n: nat, v: Value, d: Id) {
    && d in nodes && d != i && nodes[d].proposer == i && nodes[d].ballot == b && Accepts(nodes[d].log, b, n)
    && (n in nodes[d].log && nodes[d].log[n].committed ==> nodes[d].log[n].value == v)
  }

  /** Node i has decreed v for n, has not committed it, and has counted so many votes. */
  ghost predicate Deciding(nodes: map<Id, Node>, i: Id, b: Ballot, n: nat, v: Value, votes: nat) {
    && i in nodes && nodes[i].proposer == i && nodes[i].ballot == b && b.id == i
    && n in nodes[i].log && nodes[i].log[n] == Slot(b, v, false, votes)
  }

  ghost function Voted(nd: Node, b: Ballot, n: nat, v: Value): Node {
    nd.(log := AfterDecree(nd.log, b, n, v))
  }

  /** Node d votes, and its accept is there. */
  lemma Accepted(c: Config, lim: Limits, x: Scene, rest: multiset<Msg>, i: Id, b: Ballot, n: nat, v: Value, votes: nat,
                 d: Id) returns (y: Scene, m: Msg)
    requires At(c, lim, x) && Deciding(x.nodes, i, b, n, v, votes) && CanVote(x.nodes, i, b, n, v, d)
    requires x.msgs == rest + multiset{Decree(i, d, b, n, v)}
    ensures m == Accept(d, i, b, n) && y == Scene(x.nodes[d := Voted(x.nodes[d], b, n, v)], rest + multiset{m})
    ensures At(c, lim, y) && Voting(y, m)
  {
    hide At, AfterDecree;
    var ask := Decree(i, d, b, n, v);
    m := Accept(d, i, b, n);
    Votes(c, lim, x, ask);
    assert x.msgs - multiset{ask} == rest;
    y := x.Take(ask).Set(d, Voted(x.nodes[d], b, n, v)).Send(multiset{m});
  }

  lemma VotesOne(c: Config, lim: Limits, x: Scene, rest: multiset<Msg>, i: Id, b: Ballot, n: nat, v: Value, votes: nat,
                 d: Id)
    requires At(c, lim, x) && Deciding(x.nodes, i, b, n, v, votes) && CanVote(x.nodes, i, b, n, v, d)
    requires x.msgs == rest + multiset{Decree(i, d, b, n, v)} && votes + 1 < c.Majority()
    ensures var log := x.nodes[i].log[n := Slot(b, v, false, votes + 1)];
      At(c, lim, Scene(x.nodes[d := Voted(x.nodes[d], b, n, v)][i := x.nodes[i].(log := log)], rest))
  {
    hide At, Voted;
    var z, m := Accepted(c, lim, x, rest, i, b, n, v, votes, d);
    Counts(c, lim, z, m);
    assert rest + multiset{m} - multiset{m} == rest;
  }

  lemma SentNothing(i: Id, b: Ballot, n: nat, v: Value, hole: nat)
    ensures DecreesTo([], i, b, n, v) == multiset{} && PreparesTo([], i, b, hole) == multiset{}
    ensures forall again :: CommitsTo([], i, b, n, v, again) == multiset{}
  {
  }

  lemma SentOne(ds: seq<Id>, i: Id, b: Ballot, n: nat, v: Value, hole: nat)
    requires ds != []
    ensures DecreesTo(ds, i, b, n, v) == DecreesTo(ds[1..], i, b, n, v) + multiset{Decree(i, ds[0], b, n, v)}
    ensures PreparesTo(ds, i, b, hole) == PreparesTo(ds[1..], i, b, hole) + multiset{Prepare(i, ds[0], b, hole)}
    ensures forall again ::
      CommitsTo(ds, i, b, n, v, again) == CommitsTo(ds[1..], i, b, n, v, again) + multiset{Commit(i, ds[0], b, n, v, again)}
  {
  }

  /** The nodes ds vote, and their votes are counted. */
  lemma {:induction false} VotesAll(c: Config, lim: Limits, x: Scene, rest: multiset<Msg>, i: Id, b: Ballot, n: nat,
                                    v: Value, votes: nat, ds: seq<Id>) returns (y: Scene)
    requires At(c, lim, x) && Others(c, i, ds) && Deciding(x.nodes, i, b, n, v, votes) && votes + |ds| < c.Majority()
    requires forall d :: d in ds ==> CanVote(x.nodes, i, b, n, v, d)
    requires x.msgs == rest + DecreesTo(ds, i, b, n, v)
    ensures At(c, lim, y) && y.msgs == rest && y.nodes.Keys == x.nodes.Keys
    ensures y.nodes[i] == x.nodes[i].(log := x.nodes[i].log[n := Slot(b, v, false, votes + |ds|)])
    ensures forall j :: j in x.nodes && j != i ==>
              y.nodes[j] == if j in ds then Voted(x.nodes[j], b, n, v) else x.nodes[j]
    decreases |ds|
  {
    hide At, Others, Voted, Accepts, DecreesTo, PreparesTo, CommitsTo;
    if ds == [] {
      SentNothing(i, b, n, v, 0);
      y := x;
    } else {
      OthersRest(c, i, ds);
      SentOne(ds, i, b, n, v, 0);
      var d, more := ds[0], rest + DecreesTo(ds[1..], i, b, n, v);
      assert x.msgs == more + multiset{Decree(i, d, b, n, v)};
      VotesOne(c, lim, x, more, i, b, n, v, votes, d);
      var log := x.nodes[i].log[n := Slot(b, v, false, votes + 1)];
      y := Scene(x.nodes[d := Voted(x.nodes[d], b, n, v)][i := x.nodes[i].(log := log)], more);
      y := VotesAll(c, lim, y, rest, i, b, n, v, votes + 1, ds[1..]);
    }
  }

  /** With the votes of ds, a majority together with its own, node i commits, and tells es, among others. */
  lemma Decides(c: Config, lim: Limits, x: Scene, rest: multiset<Msg>, i: Id, b: Ballot, n: nat, v: Value, ds: seq<Id>,
                es: seq<Id>) returns (y: Scene)
    requires At(c, lim, x) && Others(c, i, ds) && Deciding(x.nodes, i, b, n, v, 1) && |ds| + 1 == c.Majority() > 1
    requires forall d :: d in ds ==> CanVote(x.nodes, i, b, n, v, d)
    requires x.msgs == rest + DecreesTo(ds, i, b, n, v) && Others(c, i, es)
    ensures At(c, lim, y) && y.msgs == rest + CommitsTo(es, i, b, n, v, false) && y.nodes.Keys == x.nodes.Keys
    ensures y.nodes[i] == x.nodes[i].(log := x.nodes[i].log[n := Slot(b, v, true, |ds| + 1)])
    ensures forall j :: j in x.nodes && j != i ==>
              y.nodes[j] == if j in ds then Voted(x.nodes[j], b, n, v) else x.nodes[j]
  {
    hide At, Others, Voted, Accepts, DecreesTo, CommitsTo, PreparesTo;
    OthersRest(c, i, ds);
    SentOne(ds, i, b, n, v, 0);
    var log: Log, more := x.nodes[i].log, rest + multiset{Decree(i, ds[0], b, n, v)};
    assert x.msgs == more + DecreesTo(ds[1..], i, b, n, v);
    y := VotesAll(c, lim, x, more, i, b, n, v, 1, ds[1..]);
    var m;
    y, m := Accepted(c, lim, y, rest, i, b, n, v, |ds|, ds[0]);
    Commits(c, lim, y, m, es);
    assert rest + multiset{m} - multiset{m} == rest;
    assert log[n := Slot(b, v, false, |ds|)][n := Slot(b, v, true, |ds| + 1)] == log[n := Slot(b, v, true, |ds| + 1)];
    y := y.Take(m).Set(i, x.nodes[i].(log := log[n := Slot(b, v, true, |ds| + 1)]))
          .Send(CommitsTo(es, i, b, n, v, false));
  }

  /** A prepared proposer decrees v for the instance n after its last, and commits it with the votes of ds. */
  lemma DecreesWith(c: Config, lim: Limits, x: Scene, i: Id, b: Ballot, n: nat, v: Value, ds: seq<Id>, es: seq<Id>)
    returns (y: Scene)
    requires At(c, lim, x) && Others(c, i, ds) && |ds| + 1 == c.Majority() > 1 && Others(c, i, es)
    requires i in x.nodes && Prepared(x.nodes, i) && x.nodes[i].ballot == b && b.id == i
    requires n == NextInstance(x.nodes[i].log) && (lim.only.Some? && v == lim.only.value.1 ==> b == lim.only.value.2)
    requires forall d :: d in ds ==> CanVote(x.nodes, i, b, n, v, d)
    ensures At(c, lim, y) && y.msgs == x.msgs + CommitsTo(es, i, b, n, v, false) && y.nodes.Keys == x.nodes.Keys
    ensures y.nodes[i] == x.nodes[i].(log := x.nodes[i].log[n := Slot(b, v, true, |ds| + 1)])
    ensures forall j :: j in x.nodes && j != i ==>
              y.nodes[j] == if j in ds then Voted(x.nodes[j], b, n, v) else x.nodes[j]
  {
    hide At, Others, Voted, Accepts, DecreesTo, CommitsTo, NextInstance;
    var nd := x.nodes[i];
    var log: Log := nd.log[n := Slot(b, v, false, 1)];
    Proposes(c, lim, x, i, v, ds);
    y := x.Set(i, nd.(log := log)).Send(DecreesTo(ds, i, b, n, v));
    y := Decides(c, lim, y, x.msgs, i, b, n, v, ds, es);
    assert log[n := Slot(b, v, true, |ds| + 1)] == nd.log[n := Slot(b, v, true, |ds| + 1)];
  }

  /** Node nd once a commit, or a recommit, has arrived. */
  ghost function Taken(nd: Node, b: Ballot, n: nat, v: Value, again: bool): Node {
    nd.(log := if again then AfterRecommit(nd.log, b, n, v) else AfterCommit(nd.log, b, n, v))
  }

  /** It may arrive: a recommit lowers no header but as allowed. */
  ghost predicate CanTake(nodes: map<Id, Node>, lim: Limits, b: Ballot, n: nat, again: bool, d: Id) {
    && d in nodes && nodes[d].proposer != d
    && var log := nodes[d].log;
       again && n in log && !log[n].committed && Below(b, log[n].ballot) ==> lim.drop == Some((b, log[n].ballot))
  }

  lemma TakesOne(c: Config, lim: Limits, x: Scene, rest: multiset<Msg>, i: Id, b: Ballot, n: nat, v: Value, again: bool,
                 d: Id)
    requires At(c, lim, x) && CanTake(x.nodes, lim, b, n, again, d)
    requires x.msgs == rest + multiset{Commit(i, d, b, n, v, again)}
    ensures At(c, lim, Scene(x.nodes[d := Taken(x.nodes[d], b, n, v, again)], rest))
  {
    hide At, AfterCommit, AfterRecommit;
    var m := Commit(i, d, b, n, v, again);
    Takes(c, lim, x, m);
    assert rest + multiset{m} - multiset{m} == rest;
  }

  /** The commits, or recommits, arrive at ds. */
  lemma {:induction false} TakesAll(c: Config, lim: Limits, x: Scene, rest: multiset<Msg>, i: Id, b: Ballot, n: nat,
                                    v: Value, again: bool, ds: seq<Id>) returns (y: Scene)
    requires At(c, lim, x) && Others(c, i, ds) && x.msgs == rest + CommitsTo(ds, i, b, n, v, again)
    requires forall d :: d in ds ==> CanTake(x.nodes, lim, b, n, again, d)
    ensures At(c, lim, y) && y.msgs == rest && y.nodes.Keys == x.nodes.Keys
    ensures forall j :: j in x.nodes ==> y.nodes[j] == if j in ds then Taken(x.nodes[j], b, n, v, again) else x.nodes[j]
    decreases |ds|
  {
    hide At, Others, CommitsTo, PreparesTo, DecreesTo, Taken;
    if ds == [] {
      SentNothing(i, b, n, v, 0);
      y := x;
    } else {
      OthersRest(c, i, ds);
      SentOne(ds, i, b, n, v, 0);
      var d, more := ds[0], rest + CommitsTo(ds[1..], i, b, n, v, again);
      assert x.msgs == more + multiset{Commit(i, d, b, n, v, again)};
      TakesOne(c, lim, x, more, i, b, n, v, again, d);
      y := Scene(x.nodes[d := Taken(x.nodes[d], b, n, v, again)], more);
      y := TakesAll(c, lim, y, rest, i, b, n, v, again, ds[1..]);
    }
  }

  // ---------------------------------------------------------------- the beginning

  /** What everyone has learned in the beginning, under the ballot reign. */
  ghost function Start(reign: Ballot): Log {
    map[1 := Slot(reign, JOINED, true, 1)]
  }

  const JOINED := Value(Join, Pair(1, 0), 0)

  /** The n identifiers after lo. */
  ghost function Span(lo: Id, n: nat): (ids: set<Id>)
    ensures |ids| == n && forall i :: i in ids <==> lo < i <= lo + n
  {
    if n == 0 then {} else Span(lo, n - 1) + {lo + n}
  }

  lemma LastIs(log: Log, n: nat)
    requires n in log && forall m :: m in log ==> m <= n
    ensures log.Keys != {} && Last(log) == n && NextInstance(log) == n + 1
  {
    assert log.Keys != {};
    assert Last(log) in log;
  }

  /** A node that has promised ballot b and believes p to propose; its hole is 2. */
  ghost predicate Holds(nd: Node, log: Log, b: Ballot, p: Id) {
    && nd.log == log && nd.hole == 2 && nd.ballot == b && nd.genHigh == b.gen && nd.proposer == p && nd.prep == None
  }

  /** It knows no more than in the beginning. */
  ghost predicate Knows(nd: Node, reign: Ballot, b: Ballot, p: Id) {
    Holds(nd, Start(reign), b, p)
  }

  ghost predicate AllHold(x: Scene, ds: seq<Id>, log: Log, b: Ballot, p: Id) {
    forall d :: d in ds ==> d in x.nodes && Holds(x.nodes[d], log, b, p)
  }

  /** Nothing changed but at ds. */
  ghost predicate Only(x: Scene, y: Scene, ds: seq<Id>) {
    y.nodes.Keys == x.nodes.Keys && forall j :: j in x.nodes && j !in ds ==> y.nodes[j] == x.nodes[j]
  }

  lemma StayHeld(x: Scene, y: Scene, ds: seq<Id>, es: seq<Id>, log: Log, b: Ballot, p: Id)
    requires AllHold(x, es, log, b, p) && Only(x, y, ds) && forall e :: e in es ==> e !in ds
    ensures AllHold(y, es, log, b, p)
  {
    hide Holds;
  }

  lemma StartLog(reign: Ballot)
    ensures Start(reign).Keys != {} && Last(Start(reign)) == 1 && NextInstance(Start(reign)) == 2
    ensures Merge(Start(reign), Report(Start(reign), 2)) == Start(reign)
  {
    LastIs(Start(reign), 1);
  }

  lemma KnowsAtStart(c: Config, lim: Limits)
    requires c.base == 1 && c.snapshot == [JOINED] && (lim.only.Some? ==> lim.only.value.0 > 1)
    ensures At(c, lim, Scene(Init(c).nodes, multiset{})) && Init(c).nodes.Keys == c.members
    ensures forall i :: i in c.members ==> Knows(Init(c).nodes[i], c.reign, c.reign, c.reign.id)
                                           && Init(c).nodes[i].reqid == 0
  {
    hide At, Start;
    Begins(c, lim);
    InitLog(c);
  }

  lemma InitLog(c: Config)
    requires c.base == 1 && c.snapshot == [JOINED]
    ensures InitNode(c) == Node(c.reign, c.reign.gen, c.reign.id, None, 2, Start(c.reign), 0)
  {
    assert InitNode(c).log == Start(c.reign);
  }

  /** What a node knows that holds one slot more. */
  ghost function Two(reign: Ballot, slot: Slot): Log {
    Start(reign)[2 := slot]
  }

  lemma TwoLog(reign: Ballot, slot: Slot)
    ensures Two(reign, slot).Keys != {} && Last(Two(reign, slot)) == 2
    ensures 2 in Two(reign, slot) && Two(reign, slot)[2] == slot
    ensures 1 in Two(reign, slot) && 2 !in Start(reign) && forall other :: Two(reign, slot)[2 := other] == Two(reign, other)
  {
    LastIs(Two(reign, slot), 2);
  }

  /** What a node knows that holds two slots more. */
  ghost function Three(reign: Ballot, slot: Slot, third: Slot): Log {
    Two(reign, slot)[3 := third]
  }

  lemma ThreeLog(reign: Ballot, slot: Slot, third: Slot)
    ensures var log := Three(reign, slot, third);
      && 2 in log && log[2] == slot && 3 in log && log[3] == third && log.Keys != {} && Last(log) == 3
      && forall other :: log[2 := other] == Three(reign, other, third)
  {
    LastIs(Three(reign, slot, third), 3);
    assert forall other :: Three(reign, slot, third)[2 := other] == Three(reign, other, third);
  }

  /** A preparer learns nothing from a log whose slots it all holds, committed or under no lower ballot. */
  lemma NothingNew(own: Log, log: Log, hole: nat)
    requires forall n :: n in log ==> n in own && (own[n].committed || !Below(own[n].ballot, log[n].ballot))
    ensures Merge(own, Report(log, hole)) == own
  {
    assert Merge(own, Report(log, hole)).Keys == own.Keys;
  }
}
