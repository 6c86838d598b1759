/** A ballot can win a majority although a higher ballot has already decreed another value for the instance.  A commit from a
    still higher ballot gives the missing voters the value, but not a header that tells of it. */
module LateMajority {
  import opened Primitives
  import opened DecreeLog
  import opened Protocol
  import opened Invariants
  import opened Agreement
  import opened Ballots
  import opened FirstBallot
  import opened Scenario

  const X := Value(Chat, Pair(1, 1), 0)
  const Y := Value(Chat, Pair(1, 2), 0)

  // ---------------------------------------------------------------- the cast

  /** Thirteen acceptors.  In the first ballot z decrees Y, which q, two and last vote for.  In ballot low, p decrees X,
      which f and fs vote for at once, and two and last only after they were told of f's commit.  In ballot high, q
      decrees Y again with the promises of cs, two and last. */
  datatype Cast = Cast(c: Config, p: Id, q: Id, f: Id, fs: seq<Id>, cs: seq<Id>, odd: Id, two: seq<Id>, last: Id,
                       low: Ballot, high: Ballot)
  {
    ghost function Z(): Id { c.reign.id }

    ghost predicate Setup() {
      && c.Valid() && c.base == 1 && c.snapshot == [JOINED] && c.Majority() == 7
      && {p, q, f, odd, last} <= c.members && (forall d :: d in fs + cs + two ==> d in c.members)
      && |fs| == 2 && |cs| == 3 && |two| == 2
    }

    /** Nobody plays two parts. */
    ghost predicate Apart() {
      && Distinct(fs) && Distinct(cs) && Distinct(two)
      && p != Z() && q !in {Z(), p} && f !in {Z(), p, q} && odd !in {Z(), p, q, f} && last !in {Z(), p, q, f, odd}
      && (forall d :: d in fs ==> d !in {Z(), p, q, f, odd, last} && d !in cs && d !in two)
      && (forall d :: d in cs ==> d !in {Z(), p, q, f, odd, last} && d !in two)
      && (forall d :: d in two ==> d !in {Z(), p, q, f, odd, last})
    }

    ghost predicate Groups() {
      && Others(c, Z(), [q, last] + two)
      && Others(c, p, [f] + fs + cs + (two + [last])) && Others(c, p, [f] + fs) && Others(c, p, [f] + fs + (two + [last]))
      && Others(c, p, two + [last]) && Others(c, p, two)
      && Others(c, q, cs + (two + [last])) && Others(c, q, cs) && Others(c, q, two) && Others(c, q, [])
      && Others(c, f, fs + cs + [odd]) && Others(c, f, two + [last])
    }

    ghost predicate Plays() {
      && Setup() && Apart() && Groups()
      && low.id == p && high.id == q && Below(low, high) && low.gen == c.reign.gen + 1
    }

    ghost function First(): Ballot { Pair(f, high.gen + 1) }
    ghost function Fresh(): Log { Start(c.reign) }
    ghost function One(b: Ballot, v: Value): Log { Two(c.reign, Slot(b, v, false, 0)) }
  }

  const LIM := Limits(None, None)

  lemma OneLog(r: Cast, b: Ballot, v: Value, votes: nat)
    ensures var log := Two(r.c.reign, Slot(b, v, false, votes));
      2 in log && log[2] == Slot(b, v, false, votes) && log.Keys != {} && Last(log) == 2
    ensures forall other :: Two(r.c.reign, Slot(b, v, false, votes))[2 := other] == Two(r.c.reign, other)
    ensures r.Fresh().Keys != {} && Last(r.Fresh()) == 1 && NextInstance(r.Fresh()) == 2 && 2 !in r.Fresh()
    ensures forall other :: r.Fresh()[2 := other] == Two(r.c.reign, other)
  {
    StartLog(r.c.reign);
    TwoLog(r.c.reign, Slot(b, v, false, votes));
  }

  /** Voting for v in ballot b. */
  lemma VoteLogs(r: Cast, b: Ballot, v: Value, held: Ballot, w: Value)
    ensures Accepts(r.Fresh(), b, 2) && AfterDecree(r.Fresh(), b, 2, v) == r.One(b, v) && 2 !in r.Fresh()
    ensures Below(held, b) ==> Accepts(r.One(held, w), b, 2) && AfterDecree(r.One(held, w), b, 2, v) == r.One(b, v)
    ensures 2 in r.One(held, w) && !r.One(held, w)[2].committed
  {
  }

  // ---------------------------------------------------------------- two ballots decree

  /** First z decrees Y, and q, two and last vote for it. */
  lemma FirstDecrees(r: Cast) returns (x: Scene)
    requires r.Plays()
    ensures At(r.c, LIM, x) && x.msgs == multiset{} && r.c.members <= x.nodes.Keys
    ensures AllHold(x, [r.q, r.last] + r.two, r.One(r.c.reign, Y), r.c.reign, r.Z())
    ensures forall d :: d in r.c.members && d != r.Z() && d !in [r.q, r.last] + r.two ==>
              Holds(x.nodes[d], r.Fresh(), r.c.reign, r.Z())
  {
    hide At, Start, Others, DecreesTo, AfterDecree, Accepts, Cast.One, Cast.Apart;
    var ds, b := [r.q, r.last] + r.two, r.c.reign;
    KnowsAtStart(r.c, LIM);
    x := Scene(Init(r.c).nodes, multiset{});
    OneLog(r, b, Y, 1);
    VoteLogs(r, b, Y, b, Y);
    OthersApart(r.c, r.Z(), ds);
    assert forall d :: d in ds ==> d in r.c.members by { OthersIn(r.c, r.Z(), ds); }
    Proposes(r.c, LIM, x, r.Z(), Y, ds);
    x := x.Set(r.Z(), x.nodes[r.Z()].(log := Two(b, Slot(b, Y, false, 1)))).Send(DecreesTo(ds, r.Z(), b, 2, Y));
    assert x.msgs == multiset{} + DecreesTo(ds, r.Z(), b, 2, Y);
    x := VotesAll(r.c, LIM, x, multiset{}, r.Z(), b, 2, Y, 1, ds);
  }

  lemma OthersIn(c: Config, i: Id, ds: seq<Id>)
    requires Others(c, i, ds)
    ensures forall d :: d in ds ==> d in c.members
  {
  }

  /** Proposer p prepares low; two and last promise too late to be heard. */
  lemma LowRises(r: Cast, x: Scene) returns (y: Scene)
    requires r.Plays() && At(r.c, LIM, x) && x.msgs == multiset{}
    requires AllHold(x, [r.p] + ([r.f] + r.fs + r.cs), r.Fresh(), r.c.reign, r.Z())
    requires AllHold(x, r.two + [r.last], r.One(r.c.reign, Y), r.c.reign, r.Z())
    ensures At(r.c, LIM, y) && y.msgs == multiset{}
    ensures Only(x, y, [r.p] + ([r.f] + r.fs + r.cs) + (r.two + [r.last]))
    ensures AllHold(y, [r.p] + ([r.f] + r.fs + r.cs), r.Fresh(), r.low, r.p)
    ensures AllHold(y, r.two + [r.last], r.One(r.c.reign, Y), r.low, r.p)
  {
    hide At, Start, Others, Merge, Report, Last, PreparesTo, Cast.One;
    var ds, late := [r.f] + r.fs + r.cs, r.two + [r.last];
    StartLog(r.c.reign);
    OthersApart(r.c, r.p, ds + late);
    OthersFirst(r.c, r.p, ds, late);
    assert r.p in [r.p] + ds && forall d :: d in ds ==> d in [r.p] + ds && d in ds + late;
    y := RisesWith(r.c, LIM, x, r.p, r.low.gen, ds, late);
    assert y.msgs == multiset{} + y.msgs;
    y := LateJoins(r.c, LIM, y, multiset{}, r.p, r.low, 2, late);
  }

  /** It decrees X; for the time being only f and fs vote for it. */
  lemma LowDecrees(r: Cast, x: Scene) returns (y: Scene)
    requires r.Plays() && At(r.c, LIM, x) && x.msgs == multiset{}
    requires AllHold(x, [r.p] + ([r.f] + r.fs), r.Fresh(), r.low, r.p)
    ensures At(r.c, LIM, y) && y.msgs == DecreesTo(r.two + [r.last], r.p, r.low, 2, X)
    ensures Only(x, y, [r.p] + ([r.f] + r.fs)) && AllHold(y, [r.f] + r.fs, r.One(r.low, X), r.low, r.p)
    ensures AllHold(y, [r.p], Two(r.c.reign, Slot(r.low, X, false, 4)), r.low, r.p)
  {
    hide At, Start, Two, Others, DecreesTo, AfterDecree, Accepts, Cast.One;
    var ds, late := [r.f] + r.fs, r.two + [r.last];
    OneLog(r, r.low, X, 1);
    VoteLogs(r, r.low, X, r.low, X);
    OthersApart(r.c, r.p, ds);
    assert r.p in [r.p] + ds && forall d :: d in ds ==> d in [r.p] + ds;
    DecreesBoth(ds, late, r.p, r.low, 2, X);
    Proposes(r.c, LIM, x, r.p, X, ds + late);
    y := x.Set(r.p, x.nodes[r.p].(log := Two(r.c.reign, Slot(r.low, X, false, 1))))
          .Send(DecreesTo(ds + late, r.p, r.low, 2, X));
    y := VotesAll(r.c, LIM, y, DecreesTo(late, r.p, r.low, 2, X), r.p, r.low, 2, X, 1, ds);
  }

  /** Node q prepares high; cs promise, and two and last have yet to be reached. */
  lemma HighRises(r: Cast, x: Scene) returns (y: Scene)
    requires r.Plays() && At(r.c, LIM, x) && AllHold(x, [r.q], r.One(r.c.reign, Y), r.c.reign, r.Z())
    requires AllHold(x, r.cs, r.Fresh(), r.low, r.p)
    ensures At(r.c, LIM, y) && y.msgs == x.msgs + PreparesTo(r.two + [r.last], r.q, r.high, 2) && r.q in x.nodes
    ensures Only(x, y, [r.q] + r.cs) && AllHold(y, r.cs, r.Fresh(), r.high, r.q)
    ensures y.nodes[r.q] == Preparing(x.nodes[r.q], r.q, r.high.gen).(prep := Some(Prep(r.high, 4)))
  {
    hide At, Start, Others, Merge, Report, PreparesTo, Cast.One;
    var late := r.two + [r.last];
    OneLog(r, r.c.reign, Y, 0);
    OneIs(r, r.c.reign, Y);
    Learned(r, r.c.reign, Y);
    OthersApart(r.c, r.q, r.cs);
    SentBoth(r.cs, late, r.q, r.high, 2);
    assert r.q in [r.q];
    PreparesUpTo(r.c, LIM, x, r.q, r.high.gen, r.cs + late);
    y := x.Set(r.q, Preparing(x.nodes[r.q], r.q, r.high.gen)).Send(PreparesTo(r.cs + late, r.q, r.high, 2));
    var rest := x.msgs + PreparesTo(late, r.q, r.high, 2);
    assert y.msgs == rest + PreparesTo(r.cs, r.q, r.high, 2);
    y := JoinsAll(r.c, LIM, y, rest, r.q, r.high, 1, r.cs);
  }

  /** What holds one open slot learns nothing from the beginning, from itself, or from a commit under the first header. */
  lemma Learned(r: Cast, b: Ballot, v: Value)
    requires !Below(b, r.c.reign)
    ensures Merge(r.One(b, v), Report(r.Fresh(), 2)) == r.One(b, v)
    ensures Merge(r.One(b, v), Report(r.One(b, v), 2)) == r.One(b, v)
    ensures Merge(r.One(b, v), Report(Told(r), 2)) == r.One(b, v)
  {
    hide Report, Merge;
    NothingNew(r.One(b, v), r.Fresh(), 2);
    NothingNew(r.One(b, v), r.One(b, v), 2);
    NothingNew(r.One(b, v), Told(r), 2);
  }

  /** What is left of the first decree once the commit has overwritten its value: the header. */
  ghost function Told(r: Cast): Log {
    Two(r.c.reign, Slot(r.c.reign, X, true, 0))
  }

  // ---------------------------------------------------------------- a third ballot commits

  /** Node f prepares its own ballot; the last promise is there. */
  lemma ThirdRises(r: Cast, x: Scene) returns (y: Scene, m: Msg)
    requires r.Plays() && At(r.c, LIM, x) && AllHold(x, [r.f] + r.fs, r.One(r.low, X), r.low, r.p)
    requires AllHold(x, r.cs, r.Fresh(), r.high, r.q) && AllHold(x, [r.odd], r.Fresh(), r.c.reign, r.Z())
    ensures At(r.c, LIM, y) && y.msgs == x.msgs + multiset{m} && Only(x, y, [r.f] + (r.fs + r.cs + [r.odd]))
    ensures Ending(r, y, m, r.f, r.First(), r.low, X)
    ensures AllHold(y, r.fs, r.One(r.low, X), r.First(), r.f) && AllHold(y, r.cs + [r.odd], r.Fresh(), r.First(), r.f)
  {
    hide At, Start, Others, Merge, Report, Last, PreparesTo, DecreesTo, Cast.One, Counting;
    var ds := r.fs + r.cs + [r.odd];
    OneLog(r, r.low, X, 0);
    OneIs(r, r.low, X);
    Learned(r, r.low, X);
    OthersApart(r.c, r.f, ds);
    SentNothing(r.f, r.First(), 2, X, 2);
    assert ds + [] == ds && r.f in [r.f] + r.fs && r.odd in [r.odd] && forall d :: d in r.fs ==> d in [r.f] + r.fs;
    y, m := JoinsButOne(r.c, LIM, x, r.f, r.high.gen + 1, ds, []);
    assert y.msgs == x.msgs + multiset{m};
  }

  /** The last promise m has come to node i, which holds the value v under the header held. */
  ghost predicate Ending(r: Cast, x: Scene, m: Msg, i: Id, b: Ballot, held: Ballot, v: Value) {
    && i in x.nodes && Counting(x, m) && m.dst == i && m.ballot == b && b.id == i && x.nodes[i].proposer == i
    && x.nodes[i].prep == Some(Prep(b, 6)) && x.nodes[i].log == r.One(held, v) && x.nodes[i].hole == 2
  }

  /** It decrees v again, to ds among others. */
  lemma Ends(r: Cast, x: Scene, rest: multiset<Msg>, m: Msg, i: Id, b: Ballot, held: Ballot, v: Value, ds: seq<Id>)
    returns (y: Scene)
    requires r.Setup() && At(r.c, LIM, x) && x.msgs == rest + multiset{m} && Others(r.c, i, ds)
    requires Ending(r, x, m, i, b, held, v)
    ensures At(r.c, LIM, y) && y.msgs == rest + DecreesTo(ds, i, b, 2, v) && Only(x, y, [i])
    ensures Deciding(y.nodes, i, b, 2, v, 1) && y.nodes[i].prep == None
  {
    hide At, Two, Start, Others, DecreesTo, Last, Counting, Cast.One;
    OneLog(r, held, v, 0);
    OneIs(r, held, v);
    FinishesOpen(r.c, LIM, x, m, ds);
    assert rest + multiset{m} - multiset{m} == rest;
    y := x.Take(m).Set(i, x.nodes[i].(ballot := b, prep := None, log := Two(r.c.reign, Slot(b, v, false, 1))))
          .Send(DecreesTo(ds, i, b, 2, v));
    TwoLog(r.c.reign, Slot(b, v, false, 1));
  }

  lemma OneIs(r: Cast, b: Ballot, v: Value)
    ensures r.One(b, v) == Two(r.c.reign, Slot(b, v, false, 0))
  {
  }

  /** It commits X; the commit goes to two and last. */
  lemma ThirdCommits(r: Cast, x: Scene) returns (y: Scene)
    requires r.Plays() && At(r.c, LIM, x) && AllHold(x, [r.f] + r.fs, r.One(r.low, X), r.low, r.p)
    requires AllHold(x, r.cs, r.Fresh(), r.high, r.q) && AllHold(x, [r.odd], r.Fresh(), r.c.reign, r.Z())
    ensures At(r.c, LIM, y) && y.msgs == x.msgs + CommitsTo(r.two + [r.last], r.f, r.First(), 2, X, false)
    ensures Only(x, y, [r.f] + (r.fs + r.cs + [r.odd]))
  {
    hide At, Start, Two, Others, DecreesTo, CommitsTo, AfterDecree, Accepts, Cast.One, Ending, Deciding;
    var ds, m := r.fs + r.cs + [r.odd], Accept(0, 0, r.low, 2);
    VoteLogs(r, r.First(), X, r.low, X);
    OthersApart(r.c, r.f, ds);
    assert forall d :: d in ds ==> d in r.fs || d in r.cs + [r.odd];
    y, m := ThirdRises(r, x);
    y := Ends(r, y, x.msgs, m, r.f, r.First(), r.low, X, ds);
    y := Decides(r.c, LIM, y, x.msgs, r.f, r.First(), 2, X, ds, r.two + [r.last]);
  }

  /** They take it: the value changes, and the header stays. */
  lemma TheyHear(r: Cast, x: Scene, rest: multiset<Msg>) returns (y: Scene)
    requires r.Plays() && At(r.c, LIM, x) && x.msgs == rest + CommitsTo(r.two + [r.last], r.f, r.First(), 2, X, false)
    requires AllHold(x, r.two + [r.last], r.One(r.c.reign, Y), r.low, r.p)
    ensures At(r.c, LIM, y) && y.msgs == rest && Only(x, y, r.two + [r.last])
    ensures AllHold(y, r.two + [r.last], Told(r), r.low, r.p)
  {
    hide At, Start, Two, Others, CommitsTo;
    var ds := r.two + [r.last];
    OneLog(r, r.c.reign, Y, 0);
    OthersApart(r.c, r.p, ds);
    y := TakesAll(r.c, LIM, x, rest, r.f, r.First(), 2, X, false, ds);
  }

  // ---------------------------------------------------------------- a late majority, and a decree against it

  /** Then they vote in low; the last accept has yet to be counted. */
  lemma LateVotes(r: Cast, x: Scene, rest: multiset<Msg>) returns (y: Scene)
    requires r.Plays() && At(r.c, LIM, x) && x.msgs == rest + DecreesTo(r.two + [r.last], r.p, r.low, 2, X)
    requires AllHold(x, [r.p], Two(r.c.reign, Slot(r.low, X, false, 4)), r.low, r.p)
    requires AllHold(x, r.two + [r.last], Told(r), r.low, r.p)
    ensures At(r.c, LIM, y) && y.msgs == rest + multiset{Accept(r.last, r.p, r.low, 2)}
    ensures Only(x, y, [r.p] + (r.two + [r.last])) && AllHold(y, r.two + [r.last], Told(r), r.low, r.p)
    ensures AllHold(y, [r.p], Two(r.c.reign, Slot(r.low, X, false, 6)), r.low, r.p)
  {
    hide At, Start, Two, Others, DecreesTo, Told, Accepts;
    OneLog(r, r.low, X, 4);
    ToldLog(r);
    OthersApart(r.c, r.p, r.two);
    DecreesBoth(r.two, [r.last], r.p, r.low, 2, X);
    SentOne([r.last], r.p, r.low, 2, X, 0);
    SentNothing(r.p, r.low, 2, X, 0);
    assert [r.last][1..] == [] && r.p in [r.p] && r.last in r.two + [r.last];
    assert forall d :: d in r.two ==> d in r.two + [r.last];
    var more := rest + multiset{Decree(r.p, r.last, r.low, 2, X)};
    assert x.msgs == more + DecreesTo(r.two, r.p, r.low, 2, X);
    y := VotesAll(r.c, LIM, x, more, r.p, r.low, 2, X, 4, r.two);
    var m;
    y, m := Accepted(r.c, LIM, y, rest, r.p, r.low, 2, X, 6, r.last);
  }

  lemma ToldLog(r: Cast)
    ensures 2 in Told(r) && Told(r)[2] == Slot(r.c.reign, X, true, 0)
    ensures Accepts(Told(r), r.low, 2) && AfterDecree(Told(r), r.low, 2, X) == Told(r)
  {
  }

  /** And then they promise to q. */
  lemma LateAnswers(r: Cast, x: Scene, rest: multiset<Msg>) returns (y: Scene, m: Msg)
    requires r.Plays() && At(r.c, LIM, x) && x.msgs == rest + PreparesTo(r.two + [r.last], r.q, r.high, 2)
    requires r.q in x.nodes && x.nodes[r.q].log == r.One(r.c.reign, Y) && x.nodes[r.q].hole == 2
    requires x.nodes[r.q].proposer == r.q && x.nodes[r.q].prep == Some(Prep(r.high, 4))
    requires AllHold(x, r.two + [r.last], Told(r), r.low, r.p)
    ensures At(r.c, LIM, y) && y.msgs == rest + multiset{m} && Only(x, y, [r.q] + (r.two + [r.last]))
    ensures Ending(r, y, m, r.q, r.high, r.c.reign, Y)
  {
    hide At, Start, Others, Merge, Report, PreparesTo, DecreesTo, Cast.One, Told, Counting;
    OneLog(r, r.c.reign, Y, 0);
    OneIs(r, r.c.reign, Y);
    Learned(r, r.c.reign, Y);
    OthersApart(r.c, r.q, r.two);
    SentBoth(r.two, [r.last], r.q, r.high, 2);
    SentOne([r.last], r.q, r.high, 2, Y, 2);
    SentNothing(r.q, r.high, 2, Y, 2);
    assert [r.last][1..] == [] && r.last in r.two + [r.last];
    assert forall d :: d in r.two ==> d in r.two + [r.last];
    var more := rest + multiset{Prepare(r.q, r.last, r.high, 2)};
    assert x.msgs == more + PreparesTo(r.two, r.q, r.high, 2);
    y := JoinsAll(r.c, LIM, x, more, r.q, r.high, 4, r.two);
    y, m := Answered(r.c, LIM, y, rest, r.q, r.high, 6, r.last);
  }

  // ---------------------------------------------------------------- the whole run

  lemma NobodyTwice(r: Cast)
    requires r.Plays()
    ensures forall d :: d in [r.q] || d in [r.odd] ==> d !in [r.p] + ([r.f] + r.fs + r.cs) + (r.two + [r.last])
    ensures forall d :: d in [r.q] || d in [r.odd] || d in r.cs || d in r.two + [r.last] ==> d !in [r.p] + ([r.f] + r.fs)
    ensures forall d :: d in [r.p] || d in [r.f] + r.fs || d in [r.odd] || d in r.two + [r.last] ==> d !in [r.q] + r.cs
    ensures forall d :: d in [r.p] || d in [r.q] || d in r.two + [r.last] ==> d !in [r.f] + (r.fs + r.cs + [r.odd])
    ensures forall d :: d in [r.p] || d in [r.q] ==> d !in r.two + [r.last]
    ensures r.p !in [r.q] && r.p !in [r.q] + (r.two + [r.last]) && r.q !in [r.p] + (r.two + [r.last])
  {
    hide Cast.Groups, Distinct;
  }

  /** Before anyone has heard of anything but the first decree. */
  lemma Beginning(r: Cast) returns (x: Scene)
    requires r.Plays()
    ensures At(r.c, LIM, x) && x.msgs == multiset{}
    ensures AllHold(x, [r.p] + ([r.f] + r.fs + r.cs), r.Fresh(), r.c.reign, r.Z())
    ensures AllHold(x, [r.odd], r.Fresh(), r.c.reign, r.Z())
    ensures AllHold(x, [r.q], r.One(r.c.reign, Y), r.c.reign, r.Z())
    ensures AllHold(x, r.two + [r.last], r.One(r.c.reign, Y), r.c.reign, r.Z())
  {
    hide At, Start, Cast.Groups, Cast.One, Cast.Fresh, Holds, Distinct;
    x := FirstDecrees(r);
    assert forall d :: d in r.two + [r.last] || d in [r.q] ==> d in [r.q, r.last] + r.two;
    assert forall d :: d in r.fs || d in r.cs ==> d in r.fs + r.cs + r.two;
  }

  /** Ballot low has four votes for X. */
  ghost predicate Halfway(r: Cast, x: Scene) {
    && AllHold(x, [r.p], Two(r.c.reign, Slot(r.low, X, false, 4)), r.low, r.p)
    && AllHold(x, [r.f] + r.fs, r.One(r.low, X), r.low, r.p) && AllHold(x, r.cs, r.Fresh(), r.low, r.p)
    && AllHold(x, [r.odd], r.Fresh(), r.c.reign, r.Z()) && AllHold(x, [r.q], r.One(r.c.reign, Y), r.c.reign, r.Z())
    && AllHold(x, r.two + [r.last], r.One(r.c.reign, Y), r.low, r.p)
  }

  lemma LowVotes(r: Cast) returns (x: Scene)
    requires r.Plays()
    ensures At(r.c, LIM, x) && x.msgs == DecreesTo(r.two + [r.last], r.p, r.low, 2, X) && Halfway(r, x)
  {
    hide At, Start, Cast.Groups, Cast.Apart, Cast.One, Cast.Fresh, Holds, DecreesTo, Two;
    NobodyTwice(r);
    var us, tl, low := [r.p] + ([r.f] + r.fs), r.two + [r.last], [r.p] + ([r.f] + r.fs + r.cs) + (r.two + [r.last]);
    var x0 := Beginning(r);
    var x1 := LowRises(r, x0);
    StayHeld(x0, x1, low, [r.odd], r.Fresh(), r.c.reign, r.Z());
    StayHeld(x0, x1, low, [r.q], r.One(r.c.reign, Y), r.c.reign, r.Z());
    assert forall d :: d in us || d in r.cs ==> d in [r.p] + ([r.f] + r.fs + r.cs);
    x := LowDecrees(r, x1);
    StayHeld(x1, x, us, [r.odd], r.Fresh(), r.c.reign, r.Z());
    StayHeld(x1, x, us, [r.q], r.One(r.c.reign, Y), r.c.reign, r.Z());
    StayHeld(x1, x, us, r.cs, r.Fresh(), r.low, r.p);
    StayHeld(x1, x, us, tl, r.One(r.c.reign, Y), r.low, r.p);
  }

  /** Ballot high has four promises, and two and last have been told of X. */
  ghost predicate Awaiting(r: Cast, x: Scene) {
    && AllHold(x, [r.p], Two(r.c.reign, Slot(r.low, X, false, 4)), r.low, r.p)
    && AllHold(x, r.two + [r.last], Told(r), r.low, r.p) && r.q in x.nodes
    && x.nodes[r.q].log == r.One(r.c.reign, Y) && x.nodes[r.q].hole == 2 && x.nodes[r.q].proposer == r.q
    && x.nodes[r.q].prep == Some(Prep(r.high, 4))
  }

  lemma HighWaits(r: Cast, x: Scene, rest: multiset<Msg>) returns (y: Scene)
    requires r.Plays() && At(r.c, LIM, x) && x.msgs == rest && Halfway(r, x)
    ensures At(r.c, LIM, y) && y.msgs == rest + PreparesTo(r.two + [r.last], r.q, r.high, 2) && Awaiting(r, y)
  {
    hide At, Start, Cast.Groups, Cast.Apart, Cast.One, Cast.Fresh, DecreesTo, PreparesTo, CommitsTo, Two, Told;
    NobodyTwice(r);
    var ds, tl, four := [r.f] + (r.fs + r.cs + [r.odd]), r.two + [r.last], Two(r.c.reign, Slot(r.low, X, false, 4));
    assert r.q in [r.q];
    y := HighRises(r, x);
    StayHeld(x, y, [r.q] + r.cs, [r.p], four, r.low, r.p);
    StayHeld(x, y, [r.q] + r.cs, [r.f] + r.fs, r.One(r.low, X), r.low, r.p);
    StayHeld(x, y, [r.q] + r.cs, [r.odd], r.Fresh(), r.c.reign, r.Z());
    StayHeld(x, y, [r.q] + r.cs, tl, r.One(r.c.reign, Y), r.low, r.p);
    var z := ThirdCommits(r, y);
    StayHeld(y, z, ds, [r.p], four, r.low, r.p);
    StayHeld(y, z, ds, tl, r.One(r.c.reign, Y), r.low, r.p);
    y := TheyHear(r, z, y.msgs);
    StayHeld(z, y, tl, [r.p], four, r.low, r.p);
  }

  /** The end: the last vote of a majority for X in low is cast, and q has decreed Y in high. */
  lemma TheEnd(r: Cast) returns (x: Scene)
    requires r.Plays()
    ensures At(r.c, LIM, x) && x.msgs == multiset{Accept(r.last, r.p, r.low, 2)}
    ensures AllHold(x, [r.p], Two(r.c.reign, Slot(r.low, X, false, 6)), r.low, r.p)
    ensures Deciding(x.nodes, r.q, r.high, 2, Y, 1) && x.nodes[r.q].prep == None
  {
    hide At, Start, Cast.Apart, Cast.One, Cast.Fresh, DecreesTo, PreparesTo, Two, Told, Others, Holds, Halfway, Ending;
    NobodyTwice(r);
    var tl, six, accept := r.two + [r.last], Two(r.c.reign, Slot(r.low, X, false, 6)), Accept(r.last, r.p, r.low, 2);
    var waiting := PreparesTo(tl, r.q, r.high, 2);
    var x1 := LowVotes(r);
    var x2 := HighWaits(r, x1, x1.msgs);
    assert x2.msgs == waiting + DecreesTo(tl, r.p, r.low, 2, X);
    var x3 := LateVotes(r, x2, waiting);
    assert x3.msgs == multiset{accept} + waiting;
    var x4, m := LateAnswers(r, x3, multiset{accept});
    StayHeld(x3, x4, [r.q] + tl, [r.p], six, r.low, r.p);
    x := Ends(r, x4, multiset{accept}, m, r.q, r.high, r.c.reign, Y, []);
    StayHeld(x4, x, [r.q], [r.p], six, r.low, r.p);
    SentNothing(r.q, r.high, 2, Y, 0);
  }

  // ---------------------------------------------------------------- what the end shows

  /** A majority has voted for v in ballot low, and w was decreed for the same instance in the higher ballot high. */
  ghost predicate DecreedAgainst(c: Config, s: System, low: Ballot, high: Ballot, n: nat, v: Value, w: Value) {
    && c.Valid() && OrderlyReachable(c, s) && Below(low, high)
    && ChosenIn(c, s, low, n) && WasDecreed(s, low, n, v) && WasDecreed(s, high, n, w) && v != w
  }

  /** The proposer has counted six votes, and the accept in flight is the seventh. */
  lemma SevenVotes(c: Config, s: System, p: Id, low: Ballot, last: Id)
    requires Inv(c, s) && Accept(last, p, low, 2) in s.net && p in s.nodes && c.Majority() == 7 && Prepared(s.nodes, p)
    requires s.nodes[p].ballot == low && 2 in s.nodes[p].log && s.nodes[p].log[2] == Slot(low, X, false, 6)
    ensures ChosenIn(c, s, low, 2) && WasDecreed(s, low, 2, X)
  {
    hide Slots, Preps, Owners, Chosens, Safes, Majorities, Invariants.Promises, Invariants.Votes;
    assert NodeOk(c, s, p) && AcceptOk(s, Accept(last, p, low, 2));
    var counted, voters := Counted(c, s, low, 2), Voters(c, s.hist.voted, low, 2);
    assert |counted + {last}| == 7;
    SubsetCard(counted + {last}, voters);
  }

  lemma OwnDecree(c: Config, s: System, q: Id, high: Ballot)
    requires Inv(c, s) && q in s.nodes && Prepared(s.nodes, q) && s.nodes[q].ballot == high
    requires 2 in s.nodes[q].log && s.nodes[q].log[2] == Slot(high, Y, false, 1)
    ensures WasDecreed(s, high, 2, Y)
  {
    hide Slots, Preps, Owners, Chosens, Safes, Majorities, Invariants.Promises, Invariants.Votes, Invariants.Counts, Msgs;
    assert NodeOk(c, s, q);
  }

  lemma LaterDecreesDiffer(r: Cast) returns (s: System)
    requires r.Plays()
    ensures DecreedAgainst(r.c, s, r.low, r.high, 2, X, Y)
  {
    hide At, Cast.Groups, Cast.Apart, Two, Init, Apply, Enabled, Inv, ChosenIn, WasDecreed;
    var x := TheEnd(r);
    assert r.p in [r.p] && Accept(r.last, r.p, r.low, 2) in x.msgs;
    TwoLog(r.c.reign, Slot(r.low, X, false, 6));
    s := Witness(r.c, LIM, x);
    var run :| RunWithin(r.c, run, None) && After(r.c, run) == s;
    WithinIsOrderly(r.c, run);
    RunInv(r.c, run);
    SevenVotes(r.c, s, r.p, r.low, r.last);
    OwnDecree(r.c, s, r.q, r.high);
  }

  // ---------------------------------------------------------------- who plays

  /** The parts given to the identifiers after top. */
  ghost predicate Assigned(r: Cast, top: Id) {
    && r.c.members == {r.p, r.q} + Span(top, 11) && r.p <= top && r.q <= top && r.p != r.q
    && r.c.base == 1 && r.c.snapshot == [JOINED] && r.c.reign.id == top + 1 && r.f == top + 2 && r.odd == top + 3
    && r.last == top + 4 && r.fs == [top + 5, top + 6] && r.cs == [top + 7, top + 8, top + 9]
    && r.two == [top + 10, top + 11]
  }

  lemma AreApart(r: Cast, top: Id)
    requires Assigned(r, top)
    ensures r.Apart()
  {
  }

  lemma AreMembers(r: Cast, top: Id)
    requires Assigned(r, top)
    ensures r.Setup()
  {
    assert |r.c.members| == 13;
  }

  lemma Parts(r: Cast, i: Id)
    requires r.Setup() && r.Apart() && i in {r.Z(), r.p, r.q, r.f}
    ensures Others(r.c, i, []) && Others(r.c, i, [r.last]) && Others(r.c, i, [r.odd]) && Others(r.c, i, r.fs)
    ensures Others(r.c, i, r.cs) && Others(r.c, i, r.two) && (i != r.f ==> Others(r.c, i, [r.f]))
    ensures i == r.Z() ==> Others(r.c, i, [r.q, r.last])
  {
    assert forall d :: d in r.fs || d in r.cs || d in r.two ==> d in r.fs + r.cs + r.two;
  }

  lemma Disjoint(r: Cast)
    requires r.Apart()
    ensures r.p != r.f && forall d :: d in [r.q, r.last] ==> d !in r.two
    ensures forall d :: d in [r.f] ==> d !in r.fs
    ensures forall d :: d in [r.f] + r.fs || d in r.fs ==> d !in r.cs && d !in r.two + [r.last]
    ensures forall d :: d in [r.f] + r.fs + r.cs || d in r.cs ==> d !in r.two + [r.last]
    ensures forall d :: d in r.two ==> d !in [r.last]
    ensures forall d :: d in r.fs + r.cs ==> d !in [r.odd]
  {
    hide Distinct;
  }

  lemma AreGroups(r: Cast)
    requires r.Setup() && r.Apart()
    ensures r.Groups()
  {
    hide Others, Cast.Apart;
    var c, tl := r.c, r.two + [r.last];
    Parts(r, r.Z());
    Parts(r, r.p);
    Parts(r, r.q);
    Parts(r, r.f);
    Disjoint(r);
    OthersSum(c, r.Z(), [r.q, r.last], r.two);
    OthersSum(c, r.p, r.two, [r.last]);
    OthersSum(c, r.q, r.two, [r.last]);
    OthersSum(c, r.f, r.two, [r.last]);
    OthersSum(c, r.p, [r.f], r.fs);
    OthersSum(c, r.p, [r.f] + r.fs, tl);
    OthersSum(c, r.p, [r.f] + r.fs, r.cs);
    OthersSum(c, r.p, [r.f] + r.fs + r.cs, tl);
    OthersSum(c, r.q, r.cs, tl);
    OthersSum(c, r.f, r.fs, r.cs);
    OthersSum(c, r.f, r.fs + r.cs, [r.odd]);
  }

  lemma Casting(low: Ballot, high: Ballot) returns (r: Cast)
    requires Below(low, high) && low.id != high.id && low.gen > 0
    ensures r.Plays() && r.low == low && r.high == high
  {
    hide Cast.Groups, Cast.Apart, Cast.Setup;
    var top := if low.id < high.id then high.id else low.id;
    var c := Config({low.id, high.id} + Span(top, 11), 1, [JOINED], Pair(top + 1, low.gen - 1));
    r := Cast(c, low.id, high.id, top + 2, [top + 5, top + 6], [top + 7, top + 8, top + 9], top + 3, [top + 10, top + 11],
              top + 4, low, high);
    AreMembers(r, top);
    AreApart(r, top);
    AreGroups(r);
  }

  // ---------------------------------------------------------------- the result

  lemma OnlyThen(c: Config, s: System, low: Ballot, high: Ballot, n: nat, v: Value, w: Value)
    requires DecreedAgainst(c, s, low, high, n, v, w)
    ensures Below(low, high) && low.id != high.id && low.gen > 0
  {
    hide Init, Apply, Enabled, ChosenIn;
    var run :| Orderly(c, run) && After(c, run) == s;
    RunInv(c, run);
    RunUsual(c, run);
    assert PreparedOk(c, s, low) && PreparedOk(c, s, high);
    assert UsualNode(c, low.id, s.nodes[low.id]);
    if low == c.reign {
      FirstStands(c, run, high, n, v, w);
      assert false;
    }
  }

  ghost predicate CanDecreeAgainst(low: Ballot, high: Ballot) {
    exists c, s, n, v, w :: DecreedAgainst(c, s, low, high, n, v, w)
  }

  /** A higher ballot can decree something else than a lower one wins a majority for, for exactly these pairs of ballots. */
  lemma LaterDecreesPairs(low: Ballot, high: Ballot)
    ensures CanDecreeAgainst(low, high) <==> Below(low, high) && low.id != high.id && low.gen > 0
  {
    hide DecreedAgainst, Cast.Plays;
    if Below(low, high) && low.id != high.id && low.gen > 0 {
      var r := Casting(low, high);
      var s := LaterDecreesDiffer(r);
    }
    if c, s, n, v, w :| DecreedAgainst(c, s, low, high, n, v, w) {
      OnlyThen(c, s, low, high, n, v, w);
    }
  }
}
