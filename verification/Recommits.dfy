/** Where agreement fails.  A recommit goes to everyone under the header of the acceptor that asked for it, and whoever has
    not committed the instance takes the header over, even if that lowers it.  A later prepare can then miss that
    the instance was chosen. */
module Recommits {
  import opened Primitives
  import opened DecreeLog
  import opened Protocol
  import opened Agreement
  import opened Ballots
  import opened Scenario

  /** Two nodes have committed different values for one instance. */
  ghost predicate Disagree(s: System) {
    exists i, j, n :: i in s.nodes && j in s.nodes && n in s.nodes[i].log && n in s.nodes[j].log
                      && s.nodes[i].log[n].committed && s.nodes[j].log[n].committed
                      && s.nodes[i].log[n].value != s.nodes[j].log[n].value
  }

  // ---------------------------------------------------------------- runs that lower no header agree

  /** A run whose only lowered headers drop from k to h either lowers none, or h is lower than k and both are among the
      ballots of the run. */
  lemma {:induction false} OrLowered(c: Config, run: seq<Event>, h: Ballot, k: Ballot)
    requires RunWithin(c, run, Some((h, k)))
    ensures Orderly(c, run) || (Below(h, k) && Usual(c, h) && Usual(c, k))
  {
    hide Init, Apply, Enabled;
    if run != [] {
      var before, e := run[..|run| - 1], run[|run| - 1];
      OrLowered(c, before, h, k);
      if Lowers(After(c, before), e) {
        RunUsual(c, before);
        HeadersUsual(c, After(c, before), e);
      }
    }
  }

  lemma HeadersUsual(c: Config, s: System, e: Event)
    requires AllUsual(c, s) && Lowers(s, e) && Enabled(c, s, e)
    ensures Usual(c, e.msg.ballot) && Usual(c, s.nodes[e.msg.dst].log[e.msg.inum].ballot)
  {
    assert UsualMsg(c, e.msg) && UsualNode(c, e.msg.dst, s.nodes[e.msg.dst]);
  }

  lemma OrderlyAgrees(c: Config, run: seq<Event>)
    requires c.Valid() && Orderly(c, run)
    ensures !Disagree(After(c, run))
  {
    hide Init, Apply, Enabled;
    var s := After(c, run);
    assert run[..|run|] == run;
    forall i, j, n | i in s.nodes && j in s.nodes && n in s.nodes[i].log && n in s.nodes[j].log
                     && s.nodes[i].log[n].committed && s.nodes[j].log[n].committed
      ensures s.nodes[i].log[n].value == s.nodes[j].log[n].value
    {
      Agreement.Agreement(c, run, |run|, |run|, i, j, n, s.nodes[i].log[n].value, s.nodes[j].log[n].value);
    }
  }

  // ---------------------------------------------------------------- the cast

  const OLD := Value(Chat, Pair(1, 1), 0)
  const NEW := Value(Chat, Pair(1, 2), 0)
  const SIDE := Value(Chat, Pair(1, 3), 0)

  /** Thirteen acceptors.  In ballot cross, p decrees OLD, which t votes for.  In ballot k, q commits NEW with the votes of
      two, one and xs.  The acceptor w, in ballot h, asks for that commit, and two and one take what is sent.  Then t
      prepares with w, ws, two and one, decrees OLD again, and commits it with the votes of w, ws and xs. */
  datatype Cast = Cast(c: Config, p: Id, q: Id, t: Id, w: Id, ws: seq<Id>, two: seq<Id>, one: Id, xs: seq<Id>,
                       cross: Ballot, h: Ballot, k: Ballot)
  {
    ghost predicate Setup() {
      && c.Valid() && c.base == 1 && c.snapshot == [JOINED] && c.Majority() == 7
      && {p, q, t, w, one} <= c.members && (forall d :: d in ws + two + xs ==> d in c.members)
      && |ws| == 2 && |two| == 2 && |xs| == 3
    }

    /** Nobody plays two parts. */
    ghost predicate Apart() {
      && Distinct(ws) && Distinct(two) && Distinct(xs)
      && p != q && t !in {p, q} && w !in {p, q, t} && one !in {p, q, t, w}
      && (forall d :: d in ws ==> d !in {p, q, t, w, one} && d !in two && d !in xs)
      && (forall d :: d in two ==> d !in {p, q, t, w, one} && d !in xs)
      && (forall d :: d in xs ==> d !in {p, q, t, w, one})
    }

    ghost predicate Groups() {
      && Others(c, p, [t]) && Others(c, p, [t, w] + ws + two) && Others(c, p, [t, one] + ws + two)
      && Others(c, q, two + [one] + xs) && Others(c, q, two + [one]) && Others(c, q, [t, w]) && Others(c, q, [w])
      && Others(c, q, []) && Others(c, t, [w, one] + ws + two + xs) && Others(c, t, [w] + ws + xs)
      && Others(c, t, xs) && Others(c, t, [])
    }

    ghost predicate Plays() {
      && Setup() && Apart() && Groups()
      && k.id == q && Below(h, k) && Below(cross, k) && !Below(cross, h) && cross.id == p
    }

    ghost function Lim(): Limits { Limits(Some((h, k)), None) }
    ghost function Start(): Log { Scenario.Start(c.reign) }
    ghost function Both(slot: Slot, third: Slot): Log { Three(c.reign, slot, third) }
  }

  /** A node that has heard of nothing and can join a prepare in ballot k. */
  ghost predicate Blank(r: Cast, x: Scene, d: Id) {
    && d in x.nodes && x.nodes[d].log == r.Start() && x.nodes[d].hole == 2 && x.nodes[d].proposer != d
    && Below(x.nodes[d].ballot, r.k)
  }

  ghost predicate AllBlank(r: Cast, x: Scene, ds: seq<Id>) {
    forall d :: d in ds ==> Blank(r, x, d)
  }

  // ---------------------------------------------------------------- OLD is decreed

  /** Where p has prepared ballot cross, t with it, and w is in ballot h. */
  ghost predicate Begun(r: Cast, x: Scene) {
    && x.msgs == multiset{} && AllHold(x, [r.p, r.t], r.Start(), r.cross, r.p)
    && AllBlank(r, x, [r.w, r.one] + r.ws + r.two + r.xs) && r.w in x.nodes && x.nodes[r.w].ballot == r.h
    && r.q in x.nodes && !Prepared(x.nodes, r.q) && x.nodes[r.q].log == r.Start() && x.nodes[r.q].hole == 2
    && x.nodes[r.q].genHigh < r.k.gen
  }

  /** Whoever proposes in the beginning is p or plays no part. */
  ghost predicate Throne(r: Cast) {
    var z := r.c.reign.id;
    z == r.p || (z !in {r.p, r.q, r.t, r.w, r.one} && z !in r.ws && z !in r.two && z !in r.xs)
  }

  lemma Members(r: Cast)
    requires r.Plays()
    ensures forall d :: d in [r.w, r.one] + r.ws + r.two + r.xs ==> d in r.c.members
  {
    hide Cast.Apart, Distinct;
    assert forall d :: d in [r.w, r.one] + r.ws + r.two + r.xs ==> d in r.c.members - {r.t};
  }

  lemma AtFirst(r: Cast) returns (x: Scene)
    requires r.Plays() && Throne(r)
    ensures At(r.c, r.Lim(), x) && x.msgs == multiset{} && x.nodes.Keys == r.c.members
    ensures forall d :: d in r.c.members ==> Holds(x.nodes[d], r.Start(), r.c.reign, r.c.reign.id)
    ensures Below(r.c.reign, r.k) ==> AllBlank(r, x, [r.w, r.one] + r.ws + r.two + r.xs)
  {
    hide At, Scenario.Start, Cast.Groups;
    Members(r);
    KnowsAtStart(r.c, r.Lim());
    x := Scene(Init(r.c).nodes, multiset{});
  }

  /** Proposer p prepares with ds. */
  lemma FirstRises(r: Cast, x: Scene, ds: seq<Id>) returns (y: Scene)
    requires r.Setup() && Others(r.c, r.p, ds) && |ds| == 6 && At(r.c, r.Lim(), x) && x.msgs == multiset{}
    requires AllHold(x, [r.p] + ds, r.Start(), r.c.reign, r.c.reign.id) && r.c.reign.id !in [r.p] + ds
    requires r.cross.id == r.p && r.c.reign.gen < r.cross.gen
    ensures At(r.c, r.Lim(), y) && y.msgs == multiset{} && Only(x, y, [r.p] + ds)
    ensures AllHold(y, [r.p] + ds, r.Start(), r.cross, r.p)
  {
    hide At, Scenario.Start, Others, Merge, Report, Last;
    StartLog(r.c.reign);
    OthersApart(r.c, r.p, ds);
    assert r.p in [r.p] + ds && forall d :: d in ds ==> d in [r.p] + ds;
    y := PreparesWith(r.c, r.Lim(), x, r.p, r.cross.gen, ds);
  }

  /** Ballots h and k have different owners: p prepares h, unless it is given. */
  lemma BeginsApart(r: Cast) returns (x: Scene)
    requires r.Plays() && Throne(r) && r.cross == r.h && r.k.gen > 0
    requires if r.h.gen == 0 then r.c.reign == r.h else r.c.reign.gen + 1 == r.h.gen && r.c.reign.id != r.p
    ensures At(r.c, r.Lim(), x) && Begun(r, x)
  {
    hide At, Scenario.Start, Others, Cast.Groups, AllBlank;
    x := AtFirst(r);
    if r.h.gen > 0 {
      x := RisesApart(r, x);
    }
  }

  lemma RisesApart(r: Cast, x: Scene) returns (y: Scene)
    requires r.Plays() && Throne(r) && r.cross == r.h && r.c.reign.gen + 1 == r.h.gen && r.c.reign.id != r.p
    requires At(r.c, r.Lim(), x) && x.msgs == multiset{} && x.nodes.Keys == r.c.members
    requires forall d :: d in r.c.members ==> Holds(x.nodes[d], r.Start(), r.c.reign, r.c.reign.id)
    requires AllBlank(r, x, [r.w, r.one] + r.ws + r.two + r.xs)
    ensures At(r.c, r.Lim(), y) && Begun(r, y)
  {
    hide At, Scenario.Start, Others, Cast.Groups, AllBlank;
    var ds := [r.t, r.w] + r.ws + r.two;
    MayRise(r);
    Members(r);
    assert forall d :: d in ds ==> d == r.t || d in [r.w, r.one] + r.ws + r.two + r.xs;
    y := FirstRises(r, x, ds);
    StillBlank(r, x, y, ds);
    BegunApart(r, x, y, ds);
  }

  lemma BegunApart(r: Cast, x: Scene, y: Scene, ds: seq<Id>)
    requires r.Plays() && Throne(r) && r.cross == r.h && r.c.reign.gen + 1 == r.h.gen && r.c.reign.id != r.p
    requires y.msgs == multiset{} && x.nodes.Keys == r.c.members && ds == [r.t, r.w] + r.ws + r.two
    requires forall d :: d in r.c.members ==> Holds(x.nodes[d], r.Start(), r.c.reign, r.c.reign.id)
    requires Only(x, y, [r.p] + ds) && AllHold(y, [r.p] + ds, r.Start(), r.cross, r.p)
    requires AllBlank(r, y, [r.w, r.one] + r.ws + r.two + r.xs)
    ensures Begun(r, y)
  {
    hide Scenario.Start, Cast.Groups, AllBlank;
    assert r.p in [r.p] + ds && r.t in [r.p] + ds && r.w in [r.p] + ds && r.q !in [r.p] + ds;
  }

  lemma MayRise(r: Cast)
    requires r.Plays()
    ensures Others(r.c, r.p, [r.t, r.w] + r.ws + r.two) && Others(r.c, r.p, [r.t, r.one] + r.ws + r.two)
  {
    hide Others;
  }

  /** What p's prepare leaves blank. */
  lemma StillBlank(r: Cast, x: Scene, y: Scene, ds: seq<Id>)
    requires r.Plays() && AllBlank(r, x, [r.w, r.one] + r.ws + r.two + r.xs) && Only(x, y, [r.p] + ds)
    requires AllHold(y, [r.p] + ds, r.Start(), r.cross, r.p)
    ensures AllBlank(r, y, [r.w, r.one] + r.ws + r.two + r.xs)
  {
    hide Scenario.Start, Cast.Groups;
    forall d | d in [r.w, r.one] + r.ws + r.two + r.xs
      ensures Blank(r, y, d)
    {
      assert Blank(r, x, d);
      if d in ds {
        assert d in [r.p] + ds;
      }
    }
  }

  /** Proposer q begins to prepare h, and w promises it. */
  lemma AskerRises(r: Cast) returns (x: Scene)
    requires r.Plays() && Throne(r) && r.h.id == r.q && r.c.reign.gen < r.h.gen < r.k.gen && r.c.reign.id != r.p
    ensures At(r.c, r.Lim(), x) && x.msgs == multiset{} && x.nodes.Keys == r.c.members
    ensures AllBlank(r, x, [r.w, r.one] + r.ws + r.two + r.xs) && x.nodes[r.w].ballot == r.h
    ensures !Prepared(x.nodes, r.q) && x.nodes[r.q].log == r.Start() && x.nodes[r.q].hole == 2
    ensures x.nodes[r.q].genHigh == r.h.gen
    ensures forall d :: d in r.c.members && d !in {r.q, r.w} ==> Holds(x.nodes[d], r.Start(), r.c.reign, r.c.reign.id)
  {
    hide At, Scenario.Start, Others, PreparesTo;
    x := AtFirst(r);
    MayAsk(r);
    PreparesUpTo(r.c, r.Lim(), x, r.q, r.h.gen, [r.w]);
    x := x.Set(r.q, Preparing(x.nodes[r.q], r.q, r.h.gen)).Send(PreparesTo([r.w], r.q, r.h, 2));
    x := LateJoins(r.c, r.Lim(), x, multiset{}, r.q, r.h, 2, [r.w]);
  }

  lemma MayAsk(r: Cast)
    requires r.Plays()
    ensures Others(r.c, r.q, [r.w])
  {
    hide Others;
  }

  /** Ballots h and k are both q's: the ballot between them is p's. */
  lemma BeginsTogether(r: Cast) returns (x: Scene)
    requires r.Plays() && Throne(r) && r.h.id == r.q && r.c.reign.gen < r.h.gen < r.k.gen && r.c.reign.id != r.p
    requires r.cross.gen == r.k.gen
    ensures At(r.c, r.Lim(), x) && Begun(r, x)
  {
    hide At, Scenario.Start, Others, Cast.Groups, AllBlank;
    var ds := [r.t, r.one] + r.ws + r.two;
    MayRise(r);
    Members(r);
    assert forall d :: d in ds ==> d == r.t || d in [r.w, r.one] + r.ws + r.two + r.xs;
    var y := AskerRises(r);
    x := FirstRises(r, y, ds);
    assert r.t in [r.p] + ds;
    StillBlank(r, y, x, ds);
  }

  /** Proposer p decrees OLD, and t votes for it. */
  lemma OldIsDecreed(r: Cast, x: Scene) returns (y: Scene)
    requires r.Plays() && At(r.c, r.Lim(), x) && Begun(r, x)
    ensures At(r.c, r.Lim(), y) && Ready(r, y)
  {
    hide At, Scenario.Start, Others, Cast.Groups, DecreesTo, AllBlank, Two, Accepts, AfterDecree;
    var lim := r.Lim();
    StartLog(r.c.reign);
    MayVote(r);
    assert r.p in [r.p, r.t] && r.t in [r.p, r.t];
    Proposes(r.c, lim, x, r.p, OLD, [r.t]);
    y := x.Set(r.p, x.nodes[r.p].(log := Two(r.c.reign, Slot(r.cross, OLD, false, 1))))
          .Send(DecreesTo([r.t], r.p, r.cross, 2, OLD));
    assert y.msgs == multiset{} + DecreesTo([r.t], r.p, r.cross, 2, OLD);
    y := VotesAll(r.c, lim, y, multiset{}, r.p, r.cross, 2, OLD, 1, [r.t]);
    assert Only(x, y, [r.p, r.t]);
    StillReady(r, x, y);
  }

  lemma MayVote(r: Cast)
    requires r.Plays()
    ensures Others(r.c, r.p, [r.t]) && Accepts(r.Start(), r.cross, 2)
    ensures AfterDecree(r.Start(), r.cross, 2, OLD) == Two(r.c.reign, Slot(r.cross, OLD, false, 0))
    ensures r.Start()[2 := Slot(r.cross, OLD, false, 1)] == Two(r.c.reign, Slot(r.cross, OLD, false, 1))
  {
    hide Others;
  }

  lemma StillReady(r: Cast, x: Scene, y: Scene)
    requires r.Plays() && Begun(r, x) && Only(x, y, [r.p, r.t]) && y.msgs == multiset{}
    requires y.nodes[r.t] == x.nodes[r.t].(log := Two(r.c.reign, Slot(r.cross, OLD, false, 0)))
    ensures Ready(r, y)
  {
    hide Cast.Groups, Scenario.Start, Two;
    assert r.t in [r.p, r.t];
    forall d | d in [r.w, r.one] + r.ws + r.two + r.xs
      ensures Blank(r, y, d)
    {
      assert Blank(r, x, d);
    }
  }

  // ---------------------------------------------------------------- NEW is committed

  /** The acceptor t holds OLD in ballot cross, w is in ballot h, and q can prepare ballot k. */
  ghost predicate Ready(r: Cast, x: Scene) {
    && x.msgs == multiset{} && AllBlank(r, x, [r.w, r.one] + r.ws + r.two + r.xs)
    && r.w in x.nodes && x.nodes[r.w].ballot == r.h
    && r.q in x.nodes && !Prepared(x.nodes, r.q) && x.nodes[r.q].log == r.Start() && x.nodes[r.q].hole == 2
    && x.nodes[r.q].genHigh < r.k.gen
    && r.t in x.nodes && x.nodes[r.t].log == Two(r.c.reign, Slot(r.cross, OLD, false, 0)) && x.nodes[r.t].hole == 2
    && x.nodes[r.t].proposer != r.t && x.nodes[r.t].genHigh <= r.k.gen
  }

  /** Proposer q prepares. */
  lemma SecondRises(r: Cast, x: Scene) returns (y: Scene)
    requires r.Plays() && At(r.c, r.Lim(), x) && Ready(r, x)
    ensures At(r.c, r.Lim(), y) && y.msgs == multiset{} && Only(x, y, [r.q] + (r.two + [r.one] + r.xs))
    ensures AllHold(y, [r.q] + (r.two + [r.one] + r.xs), r.Start(), r.k, r.q)
  {
    hide At, Scenario.Start, Others, Merge, Report, Last, Two;
    var ds := r.two + [r.one] + r.xs;
    StartLog(r.c.reign);
    OthersApart(r.c, r.q, ds);
    assert forall d :: d in ds ==> d in [r.w, r.one] + r.ws + r.two + r.xs;
    y := PreparesWith(r.c, r.Lim(), x, r.q, r.k.gen, ds);
  }

  /** It decrees v, and commits it with the votes of two, one and xs. */
  lemma SecondDecrees(r: Cast, x: Scene, log: Log, mine: Log, n: nat, v: Value, es: seq<Id>) returns (y: Scene)
    requires r.Plays() && At(r.c, r.Lim(), x) && Others(r.c, r.q, es) && n !in log
    requires AllHold(x, [r.q], mine, r.k, r.q) && AllHold(x, r.two + [r.one] + r.xs, log, r.k, r.q)
    requires n == NextInstance(mine)
    ensures At(r.c, r.Lim(), y) && y.msgs == x.msgs + CommitsTo(es, r.q, r.k, n, v, false)
    ensures Only(x, y, [r.q] + (r.two + [r.one] + r.xs)) && AllHold(y, [r.q], mine[n := Slot(r.k, v, true, 7)], r.k, r.q)
    ensures AllHold(y, r.two + [r.one] + r.xs, log[n := Slot(r.k, v, false, 0)], r.k, r.q)
  {
    hide At, Others, CommitsTo, NextInstance;
    var ds := r.two + [r.one] + r.xs;
    OthersApart(r.c, r.q, ds);
    assert r.q in [r.q];
    y := DecreesWith(r.c, r.Lim(), x, r.q, r.k, n, v, ds, es);
  }

  lemma MayHear(r: Cast)
    requires r.Plays()
    ensures Others(r.c, r.q, []) && Others(r.c, r.q, [r.t, r.w])
  {
    hide Others;
  }

  /** First NEW, of whose commit nobody hears, and then SIDE, whose commit goes to t and w. */
  lemma SecondCommits(r: Cast, x: Scene) returns (y: Scene)
    requires r.Plays() && At(r.c, r.Lim(), x) && x.msgs == multiset{}
    requires AllHold(x, [r.q] + (r.two + [r.one] + r.xs), r.Start(), r.k, r.q)
    ensures At(r.c, r.Lim(), y) && y.msgs == CommitsTo([r.t, r.w], r.q, r.k, 3, SIDE, false)
    ensures Only(x, y, [r.q] + (r.two + [r.one] + r.xs))
    ensures AllHold(y, [r.q], r.Both(Slot(r.k, NEW, true, 7), Slot(r.k, SIDE, true, 7)), r.k, r.q)
    ensures AllHold(y, r.two + [r.one] + r.xs, r.Both(Slot(r.k, NEW, false, 0), Slot(r.k, SIDE, false, 0)), r.k, r.q)
  {
    hide At, Scenario.Start, Others, CommitsTo, Cast.Apart, Cast.Groups, Holds;
    StartLog(r.c.reign);
    TwoLog(r.c.reign, Slot(r.k, NEW, true, 7));
    TwoLog(r.c.reign, Slot(r.k, NEW, false, 0));
    MayHear(r);
    SentNothing(r.q, r.k, 2, NEW, 0);
    var ds := r.two + [r.one] + r.xs;
    assert r.q in [r.q] + ds && forall d :: d in ds ==> d in [r.q] + ds;
    y := SecondDecrees(r, x, r.Start(), r.Start(), 2, NEW, []);
    var log, mine := Two(r.c.reign, Slot(r.k, NEW, false, 0)), Two(r.c.reign, Slot(r.k, NEW, true, 7));
    y := SecondDecrees(r, y, log, mine, 3, SIDE, [r.t, r.w]);
  }

  // ---------------------------------------------------------------- the recommit

  /** What t holds once it has heard of SIDE. */
  ghost function Mine(r: Cast): Log {
    r.Both(Slot(r.cross, OLD, false, 0), Slot(r.k, SIDE, true, 0))
  }

  /** What w holds then. */
  ghost function Asking(r: Cast): Log {
    r.Start()[3 := Slot(r.k, SIDE, true, 0)]
  }

  /** The acceptors t and w follow q, and take the commit of SIDE. */
  lemma TheyHear(r: Cast, x: Scene) returns (y: Scene)
    requires r.Plays() && At(r.c, r.Lim(), x) && x.msgs == CommitsTo([r.t, r.w], r.q, r.k, 3, SIDE, false)
    requires Blank(r, x, r.w) && r.t in x.nodes && x.nodes[r.t].proposer != r.t
    requires x.nodes[r.t].log == Two(r.c.reign, Slot(r.cross, OLD, false, 0))
    ensures At(r.c, r.Lim(), y) && y.msgs == multiset{} && Only(x, y, [r.t, r.w])
    ensures y.nodes[r.t] == x.nodes[r.t].(proposer := r.q, prep := None, log := Mine(r))
    ensures y.nodes[r.w] == x.nodes[r.w].(proposer := r.q, prep := None, log := Asking(r))
  {
    hide At, Scenario.Start, Two, Others, CommitsTo, Cast.Groups;
    MayHear(r);
    TwoLog(r.c.reign, Slot(r.cross, OLD, false, 0));
    NoThird(r.c.reign, Slot(r.cross, OLD, false, 0));
    Follows(r.c, r.Lim(), x, r.t, r.q);
    y := x.Set(r.t, x.nodes[r.t].(proposer := r.q, prep := None));
    Follows(r.c, r.Lim(), y, r.w, r.q);
    y := y.Set(r.w, x.nodes[r.w].(proposer := r.q, prep := None));
    assert y.msgs == multiset{} + y.msgs;
    y := TakesAll(r.c, r.Lim(), y, multiset{}, r.q, r.k, 3, SIDE, false, [r.t, r.w]);
    assert r.t in [r.t, r.w] && r.w in [r.t, r.w];
  }

  lemma NoThird(reign: Ballot, slot: Slot)
    ensures 2 !in Scenario.Start(reign) && 3 !in Scenario.Start(reign) && 3 !in Two(reign, slot)
  {
  }

  /** Now w has a commit beyond its hole, and asks; two and one take the answer, and their headers drop to h. */
  lemma HeadersDrop(r: Cast, x: Scene) returns (y: Scene)
    requires r.Plays() && At(r.c, r.Lim(), x) && x.msgs == multiset{}
    requires r.w in x.nodes && x.nodes[r.w].log == Asking(r) && x.nodes[r.w].hole == 2 && x.nodes[r.w].ballot == r.h
    requires x.nodes[r.w].proposer == r.q
    requires AllHold(x, [r.q], r.Both(Slot(r.k, NEW, true, 7), Slot(r.k, SIDE, true, 7)), r.k, r.q)
    requires AllHold(x, r.two + [r.one], r.Both(Slot(r.k, NEW, false, 0), Slot(r.k, SIDE, false, 0)), r.k, r.q)
    ensures At(r.c, r.Lim(), y) && y.msgs == multiset{} && Only(x, y, r.two + [r.one])
    ensures AllHold(y, r.two + [r.one], r.Both(Slot(r.h, NEW, true, 0), Slot(r.k, SIDE, false, 0)), r.k, r.q)
  {
    hide At, Scenario.Start, Two, Three, Others, CommitsTo;
    var ask, ds := Retry(r.w, r.q, r.h, 2), r.two + [r.one];
    NoThird(r.c.reign, Slot(r.cross, OLD, false, 0));
    ThreeLog(r.c.reign, Slot(r.k, NEW, false, 0), Slot(r.k, SIDE, false, 0));
    ThreeLog(r.c.reign, Slot(r.k, NEW, true, 7), Slot(r.k, SIDE, true, 7));
    assert r.q in [r.q];
    OthersApart(r.c, r.q, ds);
    Asks(r.c, r.Lim(), x, r.w, 3);
    y := x.Send(multiset{ask});
    Answers(r.c, r.Lim(), y, ask, ds);
    y := y.Take(ask).Send(CommitsTo(ds, r.q, r.h, 2, NEW, true));
    assert y.msgs == multiset{} + CommitsTo(ds, r.q, r.h, 2, NEW, true);
    y := TakesAll(r.c, r.Lim(), y, multiset{}, r.q, r.h, 2, NEW, true, ds);
  }

  // ---------------------------------------------------------------- OLD is committed

  /** What t learns from its answers: nothing. */
  lemma LearnsNothing(r: Cast)
    requires !Below(r.cross, r.h)
    ensures Merge(Mine(r), Report(r.Start(), 2)) == Mine(r) && Merge(Mine(r), Report(Asking(r), 2)) == Mine(r)
    ensures var log := r.Both(Slot(r.h, NEW, true, 0), Slot(r.k, SIDE, false, 0));
      Merge(Mine(r), Report(log, 2)) == Mine(r)
  {
    hide Report, Merge;
    NothingNew(Mine(r), r.Start(), 2);
    NothingNew(Mine(r), Asking(r), 2);
    NothingNew(Mine(r), r.Both(Slot(r.h, NEW, true, 0), Slot(r.k, SIDE, false, 0)), 2);
  }

  /** Before t prepares. */
  ghost predicate Missed(r: Cast, x: Scene) {
    && r.t in x.nodes && x.nodes[r.t].log == Mine(r) && x.nodes[r.t].hole == 2 && x.nodes[r.t].proposer == r.q
    && x.nodes[r.t].genHigh <= r.k.gen
    && r.w in x.nodes && x.nodes[r.w].log == Asking(r) && x.nodes[r.w].proposer == r.q && x.nodes[r.w].ballot == r.h
    && AllBlank(r, x, r.ws)
    && AllHold(x, r.two + [r.one], r.Both(Slot(r.h, NEW, true, 0), Slot(r.k, SIDE, false, 0)), r.k, r.q)
    && AllHold(x, r.xs, r.Both(Slot(r.k, NEW, false, 0), Slot(r.k, SIDE, false, 0)), r.k, r.q)
  }

  ghost function Final(r: Cast): Ballot { Pair(r.t, r.k.gen + 1) }

  /** The nodes ds have joined t's prepare. */
  ghost predicate AllJoined(r: Cast, x: Scene, y: Scene, ds: seq<Id>) {
    forall d :: d in ds ==> d in x.nodes && d in y.nodes && y.nodes[d] == Joined(x.nodes[d], r.t, Final(r))
  }

  lemma MayJoin(r: Cast, x: Scene)
    requires r.Plays() && Missed(r, x)
    ensures !Prepared(x.nodes, r.t) && forall d :: d in [r.w, r.one] + r.ws + r.two ==> CanJoin(x.nodes, r.t, Final(r), d)
  {
    hide Scenario.Start, Two, Three, Others, Merge, Report, Mine, Asking, Cast.Groups;
    LearnsNothing(r);
    assert r.one in r.two + [r.one] && forall d :: d in r.two ==> d in r.two + [r.one];
  }

  /** It prepares with w, ws, two and one; the last promise is there, and xs have yet to be reached. */
  lemma ThirdRises(r: Cast, x: Scene) returns (y: Scene, m: Msg)
    requires r.Plays() && At(r.c, r.Lim(), x) && x.msgs == multiset{} && Missed(r, x)
    ensures At(r.c, r.Lim(), y) && Counting(y, m) && m.dst == r.t && m.ballot == Final(r)
    ensures y.msgs == PreparesTo(r.xs, r.t, Final(r), 2) + multiset{m}
    ensures Only(x, y, [r.t, r.w, r.one] + r.ws + r.two) && AllJoined(r, x, y, [r.w, r.one] + r.ws + r.two)
    ensures y.nodes[r.t] == x.nodes[r.t].(genHigh := r.k.gen + 1, proposer := r.t, prep := Some(Prep(Final(r), 6)))
  {
    hide At, Others, PreparesTo, Mine, Joined, CanJoin, Cast.Apart;
    var ds := [r.w, r.one] + r.ws + r.two;
    MineHas(r);
    MayJoin(r, x);
    OthersApart(r.c, r.t, ds + r.xs);
    assert forall d :: d in ds ==> d in ds + r.xs;
    y, m := JoinsButOne(r.c, r.Lim(), x, r.t, r.k.gen + 1, ds, r.xs);
  }

  lemma MineHas(r: Cast)
    ensures Mine(r).Keys != {} && 2 in Mine(r) && Mine(r)[2] == Slot(r.cross, OLD, false, 0) && Last(Mine(r)) == 3
    ensures 3 in Mine(r) && Mine(r)[3].committed
  {
    hide Two;
    ThreeLog(r.c.reign, Slot(r.cross, OLD, false, 0), Slot(r.k, SIDE, true, 0));
  }

  /** It finishes, and decrees OLD again. */
  lemma ThirdDecrees(r: Cast, x: Scene, m: Msg, rest: multiset<Msg>) returns (y: Scene)
    requires r.Plays() && At(r.c, r.Lim(), x) && x.msgs == rest + multiset{m}
    requires Counting(x, m) && m.dst == r.t && m.ballot == Final(r) && r.t in x.nodes && x.nodes[r.t].log == Mine(r)
    requires x.nodes[r.t].hole == 2 && x.nodes[r.t].prep == Some(Prep(Final(r), 6)) && x.nodes[r.t].proposer == r.t
    ensures At(r.c, r.Lim(), y) && y.msgs == rest + DecreesTo([r.w] + r.ws + r.xs, r.t, Final(r), 2, OLD)
    ensures Only(x, y, [r.t]) && Deciding(y.nodes, r.t, Final(r), 2, OLD, 1)
  {
    hide At, Others, Last, PreparesTo, DecreesTo, Mine, Merge;
    var ds, log := [r.w] + r.ws + r.xs, Mine(r)[2 := Slot(Final(r), OLD, false, 1)];
    MineHas(r);
    FinishesOpen(r.c, r.Lim(), x, m, ds);
    assert rest + multiset{m} - multiset{m} == rest;
    y := x.Take(m).Set(r.t, x.nodes[r.t].(ballot := Final(r), prep := None, log := log))
          .Send(DecreesTo(ds, r.t, Final(r), 2, OLD));
  }

  /** Then xs promise, too, and with w and ws they make OLD committed; none of the six had committed NEW. */
  lemma ThirdCommits(r: Cast, x: Scene) returns (y: Scene)
    requires r.Plays() && At(r.c, r.Lim(), x) && Deciding(x.nodes, r.t, Final(r), 2, OLD, 1)
    requires x.msgs == DecreesTo([r.w] + r.ws + r.xs, r.t, Final(r), 2, OLD) + PreparesTo(r.xs, r.t, Final(r), 2)
    requires forall d :: d in [r.w] + r.ws ==> d in x.nodes && CanVote(x.nodes, r.t, Final(r), 2, OLD, d)
    requires AllHold(x, r.xs, r.Both(Slot(r.k, NEW, false, 0), Slot(r.k, SIDE, false, 0)), r.k, r.q)
    ensures At(r.c, r.Lim(), y) && Only(x, y, [r.t, r.w] + r.ws + r.xs)
    ensures 2 in y.nodes[r.t].log && y.nodes[r.t].log[2] == Slot(Final(r), OLD, true, 7)
  {
    hide At, Two, Three, Others, PreparesTo, DecreesTo, CommitsTo;
    var ds := [r.w] + r.ws + r.xs;
    ThreeLog(r.c.reign, Slot(r.k, NEW, false, 0), Slot(r.k, SIDE, false, 0));
    y := LateJoins(r.c, r.Lim(), x, DecreesTo(ds, r.t, Final(r), 2, OLD), r.t, Final(r), 2, r.xs);
    assert y.msgs == multiset{} + y.msgs;
    y := Decides(r.c, r.Lim(), y, multiset{}, r.t, Final(r), 2, OLD, ds, []);
  }

  // ---------------------------------------------------------------- the whole run

  lemma StayBlank(r: Cast, x: Scene, y: Scene, ds: seq<Id>, es: seq<Id>)
    requires AllBlank(r, x, es) && Only(x, y, ds) && forall e :: e in es ==> e !in ds
    ensures AllBlank(r, y, es)
  {
    hide Cast.Start;
    forall e | e in es
      ensures Blank(r, y, e)
    {
      assert Blank(r, x, e);
    }
  }

  lemma NobodyTwice(r: Cast)
    requires r.Plays()
    ensures forall d :: d in r.ws ==> d !in [r.q] + (r.two + [r.one] + r.xs) && d !in r.two + [r.one] && d !in [r.t, r.w]
    ensures forall d :: d in r.two + [r.one] + r.xs ==> d !in [r.t, r.w]
    ensures forall d :: d in r.xs ==> d !in r.two + [r.one]
    ensures r.t !in [r.q] + (r.two + [r.one] + r.xs) && r.w !in [r.q] + (r.two + [r.one] + r.xs)
    ensures r.q !in [r.t, r.w, r.one] + r.ws + r.two + r.xs
  {
    hide Cast.Groups;
  }

  /** Proposer q has committed NEW, t and w have heard of SIDE. */
  lemma NewIsHeard(r: Cast, x: Scene) returns (y: Scene)
    requires r.Plays() && At(r.c, r.Lim(), x) && Ready(r, x)
    ensures At(r.c, r.Lim(), y) && y.msgs == multiset{} && AllBlank(r, y, r.ws) && {r.t, r.w} <= x.nodes.Keys
    ensures Only(x, y, [r.q] + (r.two + [r.one] + r.xs) + [r.t, r.w])
    ensures y.nodes[r.t] == x.nodes[r.t].(proposer := r.q, prep := None, log := Mine(r))
    ensures y.nodes[r.w] == x.nodes[r.w].(proposer := r.q, prep := None, log := Asking(r)) && y.nodes[r.w].hole == 2
    ensures AllHold(y, [r.q], r.Both(Slot(r.k, NEW, true, 7), Slot(r.k, SIDE, true, 7)), r.k, r.q)
    ensures AllHold(y, r.two + [r.one] + r.xs, r.Both(Slot(r.k, NEW, false, 0), Slot(r.k, SIDE, false, 0)), r.k, r.q)
  {
    hide At, Two, Three, CommitsTo, Cast.Groups, Cast.Apart, Cast.Start, Mine, Asking, AllHold;
    var ds, ours, its := r.two + [r.one] + r.xs, Slot(r.k, NEW, true, 7), Slot(r.k, NEW, false, 0);
    NobodyTwice(r);
    assert r.w in [r.w, r.one] + r.ws + r.two + r.xs;
    assert forall d :: d in r.ws ==> d in [r.w, r.one] + r.ws + r.two + r.xs;
    var x1 := SecondRises(r, x);
    var x2 := SecondCommits(r, x1);
    StayBlank(r, x, x2, [r.q] + ds, [r.w] + r.ws);
    assert Blank(r, x2, r.w) by { assert r.w in [r.w] + r.ws; }
    y := TheyHear(r, x2);
    assert forall d :: d in r.ws ==> d in [r.w] + r.ws;
    StayBlank(r, x2, y, [r.t, r.w], r.ws);
    StayHeld(x2, y, [r.t, r.w], ds, r.Both(its, Slot(r.k, SIDE, false, 0)), r.k, r.q);
    StayHeld(x2, y, [r.t, r.w], [r.q], r.Both(ours, Slot(r.k, SIDE, true, 7)), r.k, r.q);
  }

  /** And the headers of two and one no longer tell of it. */
  lemma NewIsCommitted(r: Cast, x: Scene) returns (y: Scene)
    requires r.Plays() && At(r.c, r.Lim(), x) && Ready(r, x)
    ensures At(r.c, r.Lim(), y) && y.msgs == multiset{} && Missed(r, y)
    ensures AllHold(y, [r.q], r.Both(Slot(r.k, NEW, true, 7), Slot(r.k, SIDE, true, 7)), r.k, r.q)
  {
    hide At, Cast.Groups, Cast.Apart, Cast.Both, Cast.Start, Mine, Asking, Holds, AllBlank;
    var ds, hole := r.two + [r.one], r.Both(Slot(r.k, NEW, false, 0), Slot(r.k, SIDE, false, 0));
    NobodyTwice(r);
    var z := NewIsHeard(r, x);
    assert forall d :: d in ds || d in r.xs ==> d in r.two + [r.one] + r.xs;
    y := HeadersDrop(r, z);
    StayHeld(z, y, ds, r.xs, hole, r.k, r.q);
    StayBlank(r, z, y, ds, r.ws);
  }

  /** And then t commits OLD. */
  lemma OldIsCommitted(r: Cast, x: Scene) returns (y: Scene)
    requires r.Plays() && At(r.c, r.Lim(), x) && x.msgs == multiset{} && Missed(r, x)
    ensures At(r.c, r.Lim(), y) && Only(x, y, [r.t, r.w, r.one] + r.ws + r.two + r.xs)
    ensures r.t in y.nodes && 2 in y.nodes[r.t].log && y.nodes[r.t].log[2] == Slot(Final(r), OLD, true, 7)
  {
    hide At, Two, Three, DecreesTo, PreparesTo, Cast.Groups, Scenario.Start, Mine;
    var m;
    y, m := ThirdRises(r, x);
    y := ThirdDecrees(r, y, m, PreparesTo(r.xs, r.t, Final(r), 2));
    NoThird(r.c.reign, Slot(r.cross, OLD, false, 0));
    y := ThirdCommits(r, y);
  }

  /** No assert fails, all that is lowered are headers from k to h, and in the end q and t disagree. */
  lemma AgreementFails(r: Cast) returns (run: seq<Event>)
    requires r.Plays() && Throne(r) && r.k.gen > 0
    requires if r.h.gen == 0 then r.c.reign == r.h else r.c.reign.gen + 1 == r.h.gen && r.c.reign.id != r.p
    requires if r.h.id == r.k.id then r.h.gen > 0 && r.cross.gen == r.k.gen else r.cross == r.h
    ensures EndsBadly(r.c, run, r.h, r.k)
  {
    hide At, Cast.Groups, Cast.Apart, Cast.Start, Missed, Ready, Begun, Reachable, Throne, Two, Three;
    NobodyTwice(r);
    var x;
    if r.h.id == r.k.id {
      x := BeginsTogether(r);
    } else {
      x := BeginsApart(r);
    }
    x := OldIsDecreed(r, x);
    x := NewIsCommitted(r, x);
    ThreeLog(r.c.reign, Slot(r.k, NEW, true, 7), Slot(r.k, SIDE, true, 7));
    assert r.q in [r.q];
    x := OldIsCommitted(r, x);
    run := Ending(r.c, r.Lim(), x, r.q, r.t);
  }

  /** The run that led there. */
  lemma Ending(c: Config, lim: Limits, x: Scene, i: Id, j: Id) returns (run: seq<Event>)
    requires At(c, lim, x) && i in x.nodes && j in x.nodes && 2 in x.nodes[i].log && 2 in x.nodes[j].log
    requires x.nodes[i].log[2].committed && x.nodes[j].log[2].committed
    requires x.nodes[i].log[2].value != x.nodes[j].log[2].value
    ensures RunWithin(c, run, lim.drop) && Disagree(After(c, run))
  {
    var s := Witness(c, lim, x);
    run :| RunWithin(c, run, lim.drop) && After(c, run) == s;
    assert s.nodes[i] == x.nodes[i] && s.nodes[j] == x.nodes[j];
  }

  /** The run lowers no header by a recommit but from k to h, fails no value assert, and ends in disagreement. */
  ghost predicate EndsBadly(c: Config, run: seq<Event>, h: Ballot, k: Ballot) {
    c.Valid() && RunWithin(c, run, Some((h, k))) && Disagree(After(c, run))
  }

  ghost predicate CanDisagree(h: Ballot, k: Ballot) {
    exists c, run :: EndsBadly(c, run, h, k)
  }

  // ---------------------------------------------------------------- who plays

  /** The parts given to the identifiers after top. */
  ghost predicate Assigned(r: Cast, top: Id) {
    && r.c.members == {r.p, r.q, top + 1} + Span(top + 2, 10) && (r.p <= top || r.p == top + 2) && r.q <= top && r.p != r.q
    && r.t == top + 3 && r.w == top + 4 && r.ws == [top + 5, top + 6] && r.two == [top + 7, top + 8]
    && r.one == top + 9 && r.xs == [top + 10, top + 11, top + 12]
  }

  lemma GroupsApart(r: Cast, top: Id)
    requires Assigned(r, top)
    ensures forall d :: d in r.ws ==> d !in {r.p, r.q, r.t, r.w, r.one, top + 1} && d !in r.two && d !in r.xs
    ensures forall d :: d in r.two ==> d !in {r.p, r.q, r.t, r.w, r.one, top + 1} && d !in r.xs
    ensures forall d :: d in r.xs ==> d !in {r.p, r.q, r.t, r.w, r.one, top + 1}
  {
  }

  lemma SinglesApart(r: Cast, top: Id)
    requires Assigned(r, top)
    ensures Distinct(r.ws) && Distinct(r.two) && Distinct(r.xs)
    ensures r.p != r.q && r.t !in {r.p, r.q} && r.w !in {r.p, r.q, r.t} && r.one !in {r.p, r.q, r.t, r.w}
    ensures top + 1 !in {r.p, r.q, r.t, r.w, r.one}
  {
  }

  lemma AreApart(r: Cast, top: Id)
    requires Assigned(r, top)
    ensures r.Apart() && (r.c.reign.id in {r.p, top + 1} ==> Throne(r))
  {
    hide Assigned, Distinct;
    GroupsApart(r, top);
    SinglesApart(r, top);
  }

  lemma AreMembers(r: Cast, top: Id)
    requires Assigned(r, top) && r.c.base == 1 && r.c.snapshot == [JOINED] && r.c.reign.id in {r.p, top + 1}
    ensures r.Setup()
  {
    assert |r.c.members| == 13;
  }

  lemma Assign(top: Id, q: Id, reign: Ballot, cross: Ballot, h: Ballot, k: Ballot) returns (r: Cast)
    requires (cross.id <= top || cross.id == top + 2) && q <= top && cross.id != q
    ensures Assigned(r, top) && r.c.base == 1 && r.c.snapshot == [JOINED] && r.c.reign == reign
    ensures r.p == cross.id && r.q == q && r.cross == cross && r.h == h && r.k == k
  {
    var c := Config({cross.id, q, top + 1} + Span(top + 2, 10), 1, [JOINED], reign);
    r := Cast(c, cross.id, q, top + 3, top + 4, [top + 5, top + 6], [top + 7, top + 8], top + 9,
              [top + 10, top + 11, top + 12], cross, h, k);
  }

  lemma Casting(h: Ballot, k: Ballot) returns (r: Cast)
    requires Below(h, k) && k.gen > 0 && (h.gen == 0 ==> h.id != k.id)
    ensures r.Plays() && Throne(r) && r.h == h && r.k == k
    ensures if h.gen == 0 then r.c.reign == h else r.c.reign.gen + 1 == h.gen && r.c.reign.id != r.p
    ensures if h.id == k.id then r.cross.gen == k.gen else r.cross == h
  {
    hide Cast.Groups, Cast.Apart, Cast.Setup, Throne, Assigned;
    var top := if h.id < k.id then k.id else h.id;
    var reign := if h.gen == 0 then h else Pair(top + 1, h.gen - 1);
    var cross := if h.id == k.id then Pair(top + 2, k.gen) else h;
    r := Assign(top, k.id, reign, cross, h, k);
    AreMembers(r, top);
    AreApart(r, top);
    AreGroups(r);
  }

  lemma AreGroups(r: Cast)
    requires r.Setup() && r.Apart()
    ensures r.Groups()
  {
    hide Others, Cast.Apart;
    var c := r.c;
    Parts(r, r.p);
    Parts(r, r.q);
    Parts(r, r.t);
    Disjoint(r);
    OthersSum(c, r.p, [r.t, r.w], r.ws);
    OthersSum(c, r.p, [r.t, r.w] + r.ws, r.two);
    OthersSum(c, r.p, [r.t, r.one], r.ws);
    OthersSum(c, r.p, [r.t, r.one] + r.ws, r.two);
    OthersSum(c, r.q, r.two, [r.one]);
    OthersSum(c, r.q, r.two + [r.one], r.xs);
    OthersSum(c, r.t, [r.w, r.one], r.ws);
    OthersSum(c, r.t, [r.w, r.one] + r.ws, r.two);
    OthersSum(c, r.t, [r.w, r.one] + r.ws + r.two, r.xs);
    OthersSum(c, r.t, [r.w], r.ws);
    OthersSum(c, r.t, [r.w] + r.ws, r.xs);
  }

  lemma Parts(r: Cast, i: Id)
    requires r.Setup() && r.Apart() && i in {r.p, r.q, r.t}
    ensures Others(r.c, i, []) && Others(r.c, i, [r.w]) && Others(r.c, i, [r.one]) && Others(r.c, i, [r.w, r.one])
    ensures Others(r.c, i, r.ws) && Others(r.c, i, r.two) && Others(r.c, i, r.xs)
    ensures i != r.t ==> Others(r.c, i, [r.t]) && Others(r.c, i, [r.t, r.w]) && Others(r.c, i, [r.t, r.one])
  {
    assert forall d :: d in r.ws || d in r.two || d in r.xs ==> d in r.ws + r.two + r.xs;
  }

  lemma Disjoint(r: Cast)
    requires r.Apart()
    ensures forall d :: d in [r.t, r.w] + r.ws || d in [r.t, r.one] + r.ws || d in [r.w, r.one] + r.ws ==> d !in r.two
    ensures forall d :: d in [r.t, r.w] || d in [r.t, r.one] || d in [r.w, r.one] || d in [r.w] ==> d !in r.ws
    ensures forall d :: d in r.two + [r.one] || d in [r.w, r.one] + r.ws + r.two || d in [r.w] + r.ws ==> d !in r.xs
    ensures r.p != r.t && r.q != r.t && forall d :: d in r.two ==> d !in [r.one]
  {
    hide Distinct;
  }

  // ---------------------------------------------------------------- the result

  /** Agreement can fail for exactly these pairs of ballots, one the header of the recommit and the other the header it
      lowers; an acceptor holds only ballots that somebody prepared, apart from the one given in the beginning. */
  lemma DisagreeingPairs(h: Ballot, k: Ballot)
    ensures CanDisagree(h, k) <==> Below(h, k) && k.gen > 0 && (h.gen == 0 ==> h.id != k.id)
  {
    hide EndsBadly, Cast.Plays, Throne;
    if Below(h, k) && k.gen > 0 && (h.gen == 0 ==> h.id != k.id) {
      var r := Casting(h, k);
      var run := AgreementFails(r);
      assert EndsBadly(r.c, run, h, k);
    }
    if c, run :| EndsBadly(c, run, h, k) {
      OnlyThen(c, run, h, k);
    }
  }

  lemma OnlyThen(c: Config, run: seq<Event>, h: Ballot, k: Ballot)
    requires EndsBadly(c, run, h, k)
    ensures Below(h, k) && k.gen > 0 && (h.gen == 0 ==> h.id != k.id)
  {
    hide Init, Apply, Enabled, Disagree;
    OrLowered(c, run, h, k);
    if Orderly(c, run) {
      OrderlyAgrees(c, run);
      assert false;
    }
  }
}
