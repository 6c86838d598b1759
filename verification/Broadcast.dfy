/** Total order is not empty: whatever values are handed to the first proposer, in some run everyone learns just these, in
    this order. */
module Broadcast {
  import opened Primitives
  import opened DecreeLog
  import opened Protocol
  import opened Scenario
  import Delivery

  const LIM := Limits(None, None)

  /** Node nd has learned just the values vs, and follows the first proposer. */
  ghost predicate Knew(c: Config, nd: Node, vs: seq<Value>) {
    && nd.ballot == c.reign && nd.proposer == c.reign.id && nd.prep == None && nd.hole == c.base + |vs|
    && Filled(c, nd.log, vs)
  }

  /** The log holds just the values vs, committed. */
  ghost predicate Filled(c: Config, log: Log, vs: seq<Value>) {
    && (forall n :: n in log <==> c.base <= n < c.base + |vs|)
    && (forall n {:trigger log[n]} :: c.base <= n < c.base + |vs| ==> log[n].committed && log[n].value == vs[n - c.base])
  }

  ghost predicate AllKnew(c: Config, x: Scene, vs: seq<Value>) {
    && x.msgs == multiset{} && x.nodes.Keys == c.members
    && forall i {:trigger x.nodes[i]} :: i in c.members ==> Knew(c, x.nodes[i], vs)
  }

  // ---------------------------------------------------------------- enumerating acceptors

  lemma {:induction false} Listing(s: set<Id>) returns (ds: seq<Id>)
    ensures Distinct(ds) && |ds| == |s| && forall d :: d in ds <==> d in s
  {
    ds := [];
    if s != {} {
      var d :| d in s;
      var most := Listing(s - {d});
      ds := most + [d];
      assert |s - {d}| + 1 == |s|;
      forall k, l | 0 <= k < l < |ds|
        ensures ds[k] != ds[l]
      {
        assert ds[k] in most;
      }
    }
  }

  // ---------------------------------------------------------------- learning, in a scene

  lemma Advances(c: Config, x: Scene, i: Id)
    requires At(c, LIM, x) && i in x.nodes
    requires var nd := x.nodes[i]; nd.hole in nd.log && nd.log[nd.hole].committed
    ensures At(c, LIM, x.Set(i, x.nodes[i].(hole := x.nodes[i].hole + 1)))
  {
    hide At, Allowed, Reachable, OnlyThere;
    var s := Witness(c, LIM, x);
    AlwaysAllowed(s, Advance(i), LIM.drop);
    Step(c, LIM, s, Advance(i), x.Set(i, x.nodes[i].(hole := x.nodes[i].hole + 1)));
  }

  /** The nodes ds learn one instance each. */
  lemma {:induction false} AdvancesAll(c: Config, x: Scene, ds: seq<Id>) returns (y: Scene)
    requires At(c, LIM, x) && Distinct(ds)
    requires forall d :: d in ds ==>
      d in x.nodes && x.nodes[d].hole in x.nodes[d].log && x.nodes[d].log[x.nodes[d].hole].committed
    ensures At(c, LIM, y) && y.msgs == x.msgs && y.nodes.Keys == x.nodes.Keys
    ensures forall j :: j in x.nodes ==>
      y.nodes[j] == if j in ds then x.nodes[j].(hole := x.nodes[j].hole + 1) else x.nodes[j]
    decreases |ds|
  {
    hide At;
    y := x;
    if ds != [] {
      var d, rest := ds[0], ds[1..];
      assert d in ds && d !in rest && forall e :: e in ds <==> e == d || e in rest;
      Advances(c, x, d);
      y := AdvancesAll(c, x.Set(d, x.nodes[d].(hole := x.nodes[d].hole + 1)), rest);
    }
  }

  // ---------------------------------------------------------------- one value

  lemma NextIs(c: Config, log: Log, vs: seq<Value>)
    requires Filled(c, log, vs) && vs != []
    ensures log.Keys != {} && NextInstance(log) == c.base + |vs| && c.base + |vs| !in log
  {
    assert c.base + |vs| - 1 in log;
    LastIs(log, c.base + |vs| - 1);
  }

  lemma FilledMore(c: Config, log: Log, vs: seq<Value>, slot: Slot)
    requires Filled(c, log, vs) && slot.committed
    ensures Filled(c, log[c.base + |vs| := slot], vs + [slot.value])
  {
  }

  /** What a node holds once it has voted and been told, or only been told. */
  lemma ToldLog(c: Config, log: Log, vs: seq<Value>, b: Ballot, v: Value, voted: bool)
    requires Filled(c, log, vs)
    ensures var n := c.base + |vs|;
      && Accepts(log, b, n) && n !in log
      && Filled(c, AfterCommit(if voted then AfterDecree(log, b, n, v) else log, b, n, v), vs + [v])
  {
    var n := c.base + |vs|;
    FilledMore(c, log, vs, Slot(b, v, true, 0));
    assert log[n := Slot(b, v, false, 0)][n := Slot(b, v, true, 0)] == log[n := Slot(b, v, true, 0)];
  }

  /** A proposer on its own commits at once. */
  lemma ProposesAlone(c: Config, x: Scene, v: Value)
    requires c.Valid() && At(c, LIM, x) && c.reign.id in x.nodes && Prepared(x.nodes, c.reign.id) && c.Majority() == 1
    ensures var nd := x.nodes[c.reign.id];
      At(c, LIM, x.Set(c.reign.id, nd.(log := nd.log[NextInstance(nd.log) := Slot(nd.ballot, v, true, 1)])))
  {
    hide At, Allowed, Reachable, Decrees, Protocol.Commits, NextInstance;
    var i, nd, s := c.reign.id, x.nodes[c.reign.id], Witness(c, LIM, x);
    var n := NextInstance(nd.log);
    assert nd.log[n := Slot(nd.ballot, v, false, 1)][n := Slot(nd.ballot, v, true, 1)]
        == nd.log[n := Slot(nd.ballot, v, true, 1)];
    AlwaysAllowed(s, Propose(i, v), LIM.drop);
    Step(c, LIM, s, Propose(i, v), x.Set(i, nd.(log := nd.log[n := Slot(nd.ballot, v, true, 1)])));
  }

  /** Everyone is told v as the next value, but has not learned it yet. */
  ghost predicate Told(c: Config, nd: Node, vs: seq<Value>, v: Value) {
    && nd.ballot == c.reign && nd.proposer == c.reign.id && nd.prep == None && nd.hole == c.base + |vs|
    && Filled(c, nd.log, vs + [v])
  }

  ghost predicate AllTold(c: Config, x: Scene, vs: seq<Value>, v: Value) {
    && x.msgs == multiset{} && x.nodes.Keys == c.members
    && forall i {:trigger x.nodes[i]} :: i in c.members ==> Told(c, x.nodes[i], vs, v)
  }

  /** The proposer decrees v, a majority votes for it, and the commit reaches everyone. */
  lemma TellsAll(c: Config, x: Scene, vs: seq<Value>, v: Value, others: seq<Id>) returns (y: Scene)
    requires c.Valid() && At(c, LIM, x) && AllKnew(c, x, vs) && vs != [] && c.Majority() > 1
    requires Others(c, c.reign.id, others) && |others| + 1 == |c.members|
    requires forall i :: i in c.members ==> i == c.reign.id || i in others
    ensures At(c, LIM, y) && AllTold(c, y, vs, v)
  {
    hide At, Others, CommitsTo, Filled, NextInstance, AfterCommit, AfterDecree, Accepts;
    var i, b, n, ds := c.reign.id, c.reign, c.base + |vs|, others[..c.Majority() - 1];
    OthersHalf(c, i, others, c.Majority() - 1);
    OthersApart(c, i, others);
    NextIs(c, x.nodes[i].log, vs);
    forall j | j in c.members
      ensures Accepts(x.nodes[j].log, b, n) && n !in x.nodes[j].log
      ensures Filled(c, AfterCommit(AfterDecree(x.nodes[j].log, b, n, v), b, n, v), vs + [v])
      ensures Filled(c, AfterCommit(x.nodes[j].log, b, n, v), vs + [v])
    {
      ToldLog(c, x.nodes[j].log, vs, b, v, true);
      ToldLog(c, x.nodes[j].log, vs, b, v, false);
    }
    FilledMore(c, x.nodes[i].log, vs, Slot(b, v, true, |ds| + 1));
    var z := DecreesWith(c, LIM, x, i, b, n, v, ds, others);
    y := TakesAll(c, LIM, z, multiset{}, i, b, n, v, false, others);
  }

  lemma OthersHalf(c: Config, i: Id, ds: seq<Id>, k: nat)
    requires Others(c, i, ds) && k <= |ds|
    ensures Others(c, i, ds[..k]) && (forall d :: d in ds[..k] ==> d in ds) && forall d :: d in ds ==> d in c.members
  {
    var es := ds[..k];
    assert forall l :: 0 <= l < |es| ==> es[l] == ds[l];
  }

  lemma Alone(c: Config)
    requires c.Valid() && c.Majority() == 1
    ensures c.members == {c.reign.id}
  {
    assert c.members == {c.reign.id} + (c.members - {c.reign.id});
    assert |c.members - {c.reign.id}| == 0;
  }

  lemma TellsItself(c: Config, x: Scene, vs: seq<Value>, v: Value) returns (y: Scene)
    requires c.Valid() && At(c, LIM, x) && AllKnew(c, x, vs) && vs != [] && c.Majority() == 1
    ensures At(c, LIM, y) && AllTold(c, y, vs, v)
  {
    hide At, Filled, NextInstance;
    Alone(c);
    var i := c.reign.id;
    NextIs(c, x.nodes[i].log, vs);
    FilledMore(c, x.nodes[i].log, vs, Slot(c.reign, v, true, 1));
    ProposesAlone(c, x, v);
    var log: Log := x.nodes[i].log;
    y := x.Set(i, x.nodes[i].(log := log[c.base + |vs| := Slot(c.reign, v, true, 1)]));
  }

  /** Whoever is told can learn. */
  lemma LearnsIt(c: Config, x: Scene, vs: seq<Value>, v: Value) returns (y: Scene)
    requires At(c, LIM, x) && AllTold(c, x, vs, v)
    ensures At(c, LIM, y) && AllKnew(c, y, vs + [v])
  {
    hide At;
    var all := Listing(c.members);
    y := AdvancesAll(c, x, all);
  }

  lemma OneValue(c: Config, x: Scene, vs: seq<Value>, v: Value) returns (y: Scene)
    requires c.Valid() && At(c, LIM, x) && AllKnew(c, x, vs) && vs != []
    ensures At(c, LIM, y) && AllKnew(c, y, vs + [v])
  {
    hide At, AllKnew, AllTold, Others;
    if c.Majority() == 1 {
      y := TellsItself(c, x, vs, v);
    } else {
      var others := Listing(c.members - {c.reign.id});
      AreOthers(c, others);
      y := TellsAll(c, x, vs, v, others);
    }
    y := LearnsIt(c, y, vs, v);
  }

  lemma AreOthers(c: Config, ds: seq<Id>)
    requires c.Valid() && Distinct(ds) && |ds| == |c.members - {c.reign.id}|
    requires forall d :: d in ds <==> d in c.members - {c.reign.id}
    ensures Others(c, c.reign.id, ds) && |ds| + 1 == |c.members| && forall i :: i in c.members ==> i == c.reign.id || i in ds
  {
    assert c.members == (c.members - {c.reign.id}) + {c.reign.id};
  }

  // ---------------------------------------------------------------- any values

  lemma InitKnew(c: Config)
    requires c.Valid()
    ensures AllKnew(c, Scene(Init(c).nodes, multiset{}), c.snapshot)
  {
    assert Filled(c, InitNode(c).log, c.snapshot);
  }

  lemma {:induction false} ManyValues(c: Config, vs: seq<Value>) returns (x: Scene)
    requires c.Valid()
    ensures At(c, LIM, x) && AllKnew(c, x, c.snapshot + vs)
  {
    hide At, AllKnew;
    if vs == [] {
      Begins(c, LIM);
      InitKnew(c);
      x := Scene(Init(c).nodes, multiset{});
      assert c.snapshot + vs == c.snapshot;
    } else {
      var last := |vs| - 1;
      x := ManyValues(c, vs[..last]);
      x := OneValue(c, x, c.snapshot + vs[..last], vs[last]);
      assert c.snapshot + vs[..last] + [vs[last]] == c.snapshot + vs;
    }
  }

  /** For any acceptors and any values there is a run after which everyone has learned the snapshot and then these values,
      and nothing else. */
  lemma EveryoneLearns(c: Config, vs: seq<Value>) returns (run: seq<Event>)
    requires c.Valid()
    ensures Orderly(c, run) && forall i :: i in c.members ==> Delivery.Now(c, run, i) == c.snapshot + vs
  {
    hide At, Filled, Init, Apply, Enabled, Delivery.Now, IsRun, After;
    var x := ManyValues(c, vs);
    var s := Witness(c, LIM, x);
    run :| RunWithin(c, run, None) && After(c, run) == s;
    WithinIsOrderly(c, run);
    forall i | i in c.members
      ensures Delivery.Now(c, run, i) == c.snapshot + vs
    {
      assert Knew(c, x.nodes[i], c.snapshot + vs);
      Delivery.NowIs(c, run, i);
      JustThese(c, s, i, Delivery.Now(c, run, i), c.snapshot + vs);
    }
  }

  lemma JustThese(c: Config, s: System, i: Id, xs: seq<Value>, vs: seq<Value>)
    requires Delivery.Holds(c, s, i, xs) && Knew(c, s.nodes[i], vs)
    ensures xs == vs
  {
    forall d | 0 <= d < |xs|
      ensures xs[d] == vs[d]
    {
      var v := xs[d];
      assert s.nodes[i].log[c.base + d].value == v;
    }
  }
}
