/** For which ballots the value asserts of `acceptor_ack_decree` can fail: a decree of a superseded proposer reaches an
    acceptor that has meanwhile been told a commit made in a later ballot. */
module LateDecree {
  import opened Primitives
  import opened DecreeLog
  import opened Protocol
  import opened Invariants
  import opened Agreement
  import opened Ballots
  import opened Scenario

  const FRESH := Value(Chat, Pair(1, 1), 0)
  const LATE := Value(Chat, Pair(1, 2), 0)
  const KILL := Value(Kill, Pair(1, 3), 0)
  const EARLY := Value(Chat, Pair(1, 4), 0)

  // ---------------------------------------------------------------- seven acceptors

  /** The superseded proposer p, its successor q, the acceptor late that learns of q's commit first, and others that rank
      below both proposers. */
  datatype Cast = Cast(p: Id, q: Id, late: Id, x: Id, y: Id, z: Id, w: Id) {
    ghost function Members(): set<Id> { {p, q, late, x, y, z, w} }
    ghost predicate Apart() {
      p != q && late !in {p, q} && x !in {p, q, late} && y !in {p, q, late, x} && z !in {p, q, late, x, y}
      && w !in {p, q, late, x, y, z}
    }
    ghost function Setup(reign: Ballot): Config {
      Config(Members(), 1, [JOINED], reign)
    }
  }

  /** FRESH is decreed for instance 3 in the later ballot only, and no recommit lowers a header. */
  ghost function Lim(later: Ballot): Limits {
    Limits(None, Some((3, FRESH, later)))
  }

  lemma SevenMembers(k: Cast, reign: Ballot)
    requires k.Apart() && reign.id in k.Members()
    ensures var c := k.Setup(reign);
      && c.Valid() && c.Majority() == 4 && {k.p, k.q, k.late, k.x, k.y, k.z} <= c.members
      && Others(c, k.p, [k.late, k.x, k.y]) && Others(c, k.q, [k.x, k.y, k.z])
  {
  }

  /** The first proposer of the story has ballot b, which late, x and y have promised unless it is the reign. */
  lemma FirstRises(k: Cast, b: Ballot, later: Ballot) returns (c: Config, x: Scene, reign: Ballot)
    requires k.Apart() && b.id == k.p && later.id == k.q && Below(b, later)
    ensures c == k.Setup(reign) && reign.id in k.Members()
    ensures At(c, Lim(later), x) && {k.p, k.q, k.late, k.x, k.y, k.z} <= x.nodes.Keys && x.msgs == multiset{}
    ensures Knows(x.nodes[k.p], reign, b, k.p) && Knows(x.nodes[k.late], reign, b, k.p)
    ensures forall i :: i in {k.q, k.x, k.y, k.z} ==>
      !Prepared(x.nodes, i) && x.nodes[i].log == Start(reign) && x.nodes[i].hole == 2 && Below(x.nodes[i].ballot, later)
    ensures later.gen > 0 ==> x.nodes[k.q].genHigh < later.gen
  {
    hide At, Start, Merge, Report, Others, Last, PreparesTo, DecreesTo, CommitsTo, Init;
    reign := if b.gen == 0 then b else Pair(k.w, b.gen - 1);
    c := k.Setup(reign);
    SevenMembers(k, reign);
    StartLog(reign);
    KnowsAtStart(c, Lim(later));
    x := Scene(Init(c).nodes, multiset{});
    if b.gen > 0 {
      x := PreparesWith(c, Lim(later), x, k.p, b.gen, [k.late, k.x, k.y]);
    }
  }

  // ---------------------------------------------------------------- the asserts can fail

  /** An old decree in ballot b arrives where a commit whose instance was first chosen in ballot later has overtaken it,
      with another value. */
  ghost predicate AssertFails(c: Config, s: System, m: Msg, b: Ballot, later: Ballot) {
    && c.Valid() && OrderlyReachable(c, s) && CanAckDecree(s, m) && m.ballot == b && FailsAssert(s, m)
    && m.inum in s.hist.chosen && s.hist.chosen[m.inum].ballot == later
  }

  /** Proposer p makes two decrees; the second one is still on its way to node d. */
  lemma DecreesTwice(c: Config, later: Ballot, x: Scene, reign: Ballot, b: Ballot, p: Id, d: Id) returns (y: Scene)
    requires At(c, Lim(later), x) && x.msgs == multiset{}
    requires c.Majority() > 1 && p in x.nodes && Knows(x.nodes[p], reign, b, p) && d in c.members && d != p
    ensures At(c, Lim(later), y) && y.msgs == multiset{Decree(p, d, b, 3, LATE)} && y.nodes.Keys == x.nodes.Keys
    ensures forall i :: i in x.nodes && i != p ==> y.nodes[i] == x.nodes[i]
  {
    hide At, DecreesTo, Start;
    StartLog(reign);
    var log := Start(reign)[2 := Slot(b, EARLY, false, 1)];
    Second(reign, Slot(b, EARLY, false, 1));
    SentNothing(p, b, 2, EARLY, 0);
    Proposes(c, Lim(later), x, p, EARLY, []);
    y := x.Set(p, x.nodes[p].(log := log));
    assert y.Send(multiset{}) == y;
    SentNothing(p, b, 3, LATE, 0);
    SentOne([d], p, b, 3, LATE, 0);
    Proposes(c, Lim(later), y, p, LATE, [d]);
    y := y.Set(p, y.nodes[p].(log := log[3 := Slot(b, LATE, false, 1)])).Send(DecreesTo([d], p, b, 3, LATE));
  }

  lemma Second(reign: Ballot, slot: Slot)
    ensures 3 !in Start(reign) && NextInstance(Start(reign)[2 := slot]) == 3
  {
    LastIs(Start(reign)[2 := slot], 2);
  }

  /** Node i decrees the kill it deferred. */
  lemma KillsFirst(c: Config, x: Scene, reign: Ballot, i: Id, b: Ballot, e: Id) returns (y: Scene)
    requires At(c, Lim(b), x) && c.Majority() > 1 && i in x.nodes && Knows(x.nodes[i], reign, b, i)
    ensures At(c, Lim(b), y) && y.msgs == x.msgs
    ensures y.nodes == x.nodes[i := x.nodes[i].(log := Start(reign)[2 := Slot(b, KILL, false, 1)])]
  {
    hide At, DecreesTo, Start, Others;
    StartLog(reign);
    NoOthers(c, i, e);
    SentNothing(i, b, 2, KILL, 0);
    Proposes(c, Lim(b), x, i, KILL, []);
    y := x.Set(i, x.nodes[i].(log := Start(reign)[2 := Slot(b, KILL, false, 1)]));
    assert y.Send(multiset{}) == y;
  }

  /** Node i, once it has prepared with ds, decrees the kill it deferred and then a new value, which it commits with
      their votes; node e learns of that commit only. */
  lemma DecidesWith(c: Config, x: Scene, reign: Ballot, i: Id, b: Ballot, ds: seq<Id>, e: Id) returns (y: Scene)
    requires At(c, Lim(b), x) && c.Majority() == |ds| + 1 > 1 && b.id == i && Others(c, i, ds)
    requires i in x.nodes && Knows(x.nodes[i], reign, b, i) && e in c.members && e in x.nodes && e != i && e !in ds
    requires forall d :: d in ds ==> d in x.nodes && Knows(x.nodes[d], reign, b, i)
    requires x.nodes[e].proposer != e && x.nodes[e].log == Start(reign)
    ensures At(c, Lim(b), y) && y.msgs == x.msgs && y.nodes.Keys == x.nodes.Keys
    ensures y.nodes[e] == x.nodes[e].(log := x.nodes[e].log[3 := Slot(b, FRESH, true, 0)])
  {
    hide At, DecreesTo, CommitsTo, Start, Others, NextInstance;
    Second(reign, Slot(b, KILL, false, 1));
    OthersApart(c, i, ds);
    NoOthers(c, i, e);
    y := KillsFirst(c, x, reign, i, b, e);
    y := DecreesWith(c, Lim(b), y, i, b, 3, FRESH, ds, [e]);
    SentNothing(i, b, 3, FRESH, 0);
    SentOne([e], i, b, 3, FRESH, 0);
    TakesOne(c, Lim(b), y, x.msgs, i, b, 3, FRESH, false, e);
    y := Scene(y.nodes[e := Taken(y.nodes[e], b, 3, FRESH, false)], x.msgs);
  }

  lemma NoOthers(c: Config, i: Id, e: Id)
    ensures Others(c, i, []) && (e in c.members && e != i ==> Others(c, i, [e]))
  {
  }

  /** The asserts fail where the commit has come first. */
  lemma FailsHere(c: Config, x: Scene, b: Ballot, later: Ballot, p: Id, d: Id) returns (s: System)
    requires c.Valid() && At(c, Lim(later), x) && x.msgs == multiset{Decree(p, d, b, 3, LATE)} && d in x.nodes
    requires b.id == p != d && x.nodes[d].proposer == p && x.nodes[d].ballot == b
    requires 3 in x.nodes[d].log && x.nodes[d].log[3] == Slot(later, FRESH, true, 0)
    ensures AssertFails(c, s, Decree(p, d, b, 3, LATE), b, later)
  {
    s := Witness(c, Lim(later), x);
    var run :| RunWithin(c, run, None) && After(c, run) == s;
    WithinIsOrderly(c, run);
    RunInv(c, run);
    assert SlotOk(s, 3, s.nodes[d].log[3]);
    assert Decree(p, d, b, 3, LATE) in x.msgs;
  }

  /** Proposer q prepares and decides, while p's decree is still on its way. */
  lemma SecondDecides(c: Config, k: Cast, x: Scene, reign: Ballot, b: Ballot, later: Ballot) returns (y: Scene)
    requires k.Apart() && c.Majority() == 4 && Others(c, k.q, [k.x, k.y, k.z]) && k.late in c.members && k.q in c.members
    requires At(c, Lim(later), x) && {k.p, k.q, k.late, k.x, k.y, k.z} <= x.nodes.Keys && later.id == k.q
    requires forall i :: i in {k.q, k.x, k.y, k.z} ==>
      !Prepared(x.nodes, i) && x.nodes[i].log == Start(reign) && x.nodes[i].hole == 2 && Below(x.nodes[i].ballot, later)
    requires x.nodes[k.q].genHigh < later.gen && Knows(x.nodes[k.late], reign, b, k.p)
    ensures At(c, Lim(later), y) && y.msgs == x.msgs && y.nodes.Keys == x.nodes.Keys
    ensures y.nodes[k.late] == x.nodes[k.late].(log := x.nodes[k.late].log[3 := Slot(later, FRESH, true, 0)])
  {
    hide At, Start, Merge, Report, Others, Last;
    StartLog(reign);
    var ds := [k.x, k.y, k.z];
    assert forall d :: d in ds ==> d in {k.x, k.y, k.z};
    y := PreparesWith(c, Lim(later), x, k.q, later.gen, ds);
    y := DecidesWith(c, y, reign, k.q, later, ds, k.late);
  }

  /** Whenever the later ballot belongs to another proposer, the asserts can fail. */
  lemma ValueAssertFails(b: Ballot, later: Ballot) returns (c: Config, s: System, m: Msg)
    requires Below(b, later) && b.id != later.id && later.gen > 0
    ensures AssertFails(c, s, m, b, later)
  {
    hide At, Start, Merge, Report, Others, Last, Cast.Members, Cast.Setup, AssertFails;
    var top := if b.id < later.id then later.id else b.id;
    var k := Cast(b.id, later.id, top + 1, top + 2, top + 3, top + 4, top + 5);
    var x, reign;
    c, x, reign := FirstRises(k, b, later);
    m := Decree(k.p, k.late, b, 3, LATE);
    SevenMembers(k, reign);
    assert 3 !in Start(reign) by { Second(reign, Slot(b, EARLY, false, 1)); }
    x := DecreesTwice(c, later, x, reign, b, k.p, k.late);
    x := SecondDecides(c, k, x, reign, b, later);
    s := FailsHere(c, x, b, later, k.p, k.late);
  }

  // ---------------------------------------------------------------- and only then

  /** If they fail, the decree is from a lower ballot of another proposer than the one that first chose the instance,
      and that one was not given in the beginning. */
  lemma ValueAssertNeeds(c: Config, s: System, m: Msg, b: Ballot, later: Ballot)
    requires AssertFails(c, s, m, b, later)
    ensures Below(b, later) && b.id != later.id && later.gen > 0
  {
    hide Init, Apply, Enabled;
    var run :| Orderly(c, run) && After(c, run) == s;
    RunInv(c, run);
    RunUsual(c, run);
    if !Below(b, later) {
      ValueAssertHolds(c, run, m);
      assert false;
    }
    assert DecreeOk(s, m) && ChosenOk(c, s, m.inum);
    assert PreparedOk(c, s, b) && PreparedOk(c, s, later);
    assert UsualNode(c, b.id, s.nodes[b.id]) && UsualNode(c, later.id, s.nodes[later.id]);
  }

  /** The asserts can fail for exactly these pairs of ballots. */
  lemma ValueAssertPairs(b: Ballot, later: Ballot)
    ensures (exists c, s, m :: AssertFails(c, s, m, b, later)) <==> Below(b, later) && b.id != later.id && later.gen > 0
  {
    hide AssertFails;
    if Below(b, later) && b.id != later.id && later.gen > 0 {
      var c, s, m := ValueAssertFails(b, later);
    }
    if c, s, m :| AssertFails(c, s, m, b, later) {
      ValueAssertNeeds(c, s, m, b, later);
    }
  }
}
