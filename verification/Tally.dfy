/** Counting the answers to one prepare: promises against redirects, with dead acceptors counted among the
    redirects. */
module Tally {
  import opened Primitives
  import opened DecreeLog

  type Id = nat

  /** What an answer leads to: go on waiting, finish the prepare, try to reconnect to the purported proposer, or
      prepare again. */
  datatype Verdict = Wait | Won | Reconnect | Reprepare

  datatype Answer = Promise(src: Id) | Redirect(src: Id)

  class Prepare {
    /** The acceptors, the live ones among them, and ourselves. */
    const acceptors: set<Id>
    const live: set<Id>
    const self: Id
    var acks: nat
    var redirects: nat
    /** The answers so far. */
    ghost var answers: seq<Answer>

    ghost predicate Valid()
      reads this
    {
      && Setting(acceptors, live, self) && OnceEach(answers, live - {self})
      && acks == 1 + |Promisers(answers)| && redirects == |Redirecters(answers)|
    }

    /** The counters of `proposer_prepare`. */
    constructor (acceptors: set<Id>, live: set<Id>, self: Id)
      requires Setting(acceptors, live, self)
      ensures Valid() && answers == []
      ensures this.acceptors == acceptors && this.live == live && this.self == self
    {
      this.acceptors, this.live, this.self := acceptors, live, self;
      acks, redirects, answers := 1, 0, [];
    }

    /** `DEATH_ADJUSTED` */
    function DeathAdjusted(n: nat): nat
      reads this
      requires |live| <= |acceptors|
    {
      n + (|acceptors| - |live|)
    }

    /** The counting of `proposer_ack_promise`. */
    method AckPromise(ghost src: Id) returns (v: Verdict)
      requires Valid() && src in live - {self} && !Answered(answers, src)
      modifies this
      ensures Valid() && answers == old(answers) + [Promise(src)]
      ensures Redirecters(answers) == old(Redirecters(answers))
      ensures v == if |Promisers(answers)| + 1 >= Majority(|acceptors|) then Won else Wait
    {
      CountOne(answers, Promise(src));
      CardBound(acceptors, live, self);
      answers := answers + [Promise(src)];
      acks := acks + 1;
      if acks < Majority(|acceptors|) {
        return Wait;
      }
      return Won;
    }

    /** `proposer_ack_redirect` */
    method AckRedirect(ghost src: Id) returns (v: Verdict)
      requires Valid() && src in live - {self} && !Answered(answers, src)
      modifies this
      ensures Valid() && answers == old(answers) + [Redirect(src)]
      ensures Promisers(answers) == old(Promisers(answers))
      ensures v == Reconnect <==> |Redirecters(answers)| + |acceptors - live| >= Majority(|acceptors|)
      ensures v == Reprepare <==>
                && (forall a :: a in live - {self} ==> Answered(answers, a))
                && |acceptors| % 2 == 0 && 1 + |Promisers(answers)| == |acceptors| / 2
      ensures v == Reconnect || v == Reprepare || v == Wait
    {
      CountOne(answers, Redirect(src));
      CardBound(acceptors, live, self);
      answers := answers + [Redirect(src)];
      redirects := redirects + 1;
      Partition(answers, live - {self});
      if DeathAdjusted(redirects) >= Majority(|acceptors|) {
        return Reconnect;
      }
      if acks < Majority(|acceptors|) && DeathAdjusted(redirects) < Majority(|acceptors|)
         && acks + redirects == |live| {
        return Reprepare;
      }
      return Wait;
    }
  }

  ghost predicate Setting(acceptors: set<Id>, live: set<Id>, self: Id) {
    self in live && live <= acceptors
  }

  ghost predicate Answered(answers: seq<Answer>, a: Id) {
    Promise(a) in answers || Redirect(a) in answers
  }

  /** Every answer comes from one of the peers, and no peer answers twice. */
  ghost predicate OnceEach(answers: seq<Answer>, peers: set<Id>) {
    && (forall i :: 0 <= i < |answers| ==> answers[i].src in peers)
    && (forall i, j :: 0 <= i < j < |answers| ==> answers[i].src != answers[j].src)
  }

  ghost function Promisers(answers: seq<Answer>): set<Id> {
    set x | x in answers && x.Promise? :: x.src
  }

  ghost function Redirecters(answers: seq<Answer>): set<Id> {
    set x | x in answers && x.Redirect? :: x.src
  }

  lemma CountOne(answers: seq<Answer>, x: Answer)
    requires !Answered(answers, x.src)
    ensures x.Promise? ==> |Promisers(answers + [x])| == |Promisers(answers)| + 1
                           && Redirecters(answers + [x]) == Redirecters(answers)
    ensures x.Redirect? ==> |Redirecters(answers + [x])| == |Redirecters(answers)| + 1
                            && Promisers(answers + [x]) == Promisers(answers)
  {
    var more := answers + [x];
    assert forall y :: y in more <==> y in answers || y == x;
    if x.Promise? {
      assert Promisers(more) == Promisers(answers) + {x.src};
      assert Redirecters(more) == Redirecters(answers);
      assert x.src !in Promisers(answers);
    } else {
      assert Redirecters(more) == Redirecters(answers) + {x.src};
      assert Promisers(more) == Promisers(answers);
      assert x.src !in Redirecters(answers);
    }
  }

  lemma CardBound(acceptors: set<Id>, live: set<Id>, self: Id)
    requires Setting(acceptors, live, self)
    ensures |live| <= |acceptors| && |acceptors - live| == |acceptors| - |live| && |live - {self}| == |live| - 1
  {
  }

  /** Promisers and redirecters are disjoint groups of peers; together they are all of them exactly if everyone
      has answered. */
  lemma Partition(answers: seq<Answer>, peers: set<Id>)
    requires OnceEach(answers, peers)
    ensures |Promisers(answers)| + |Redirecters(answers)| <= |peers|
    ensures |Promisers(answers)| + |Redirecters(answers)| == |peers| <==> forall a :: a in peers ==> Answered(answers, a)
  {
    var p, r := Promisers(answers), Redirecters(answers);
    assert p !! r;
    assert |p + r| == |p| + |r|;
    assert p + r <= peers;
    var rest := peers - (p + r);
    assert peers == (p + r) + rest;
    assert |peers| == |p + r| + |rest|;
    if |rest| == 0 {
      assert forall a :: a in peers ==> a !in rest;
    } else {
      var a :| a in rest;
      assert !Answered(answers, a);
    }
  }

  /** However the live peers answer, a promise majority and a death-adjusted redirect majority exclude each
      other; and once everyone has answered, it is one of them or an exact tie. */
  lemma OneOutcome(answers: seq<Answer>, acceptors: set<Id>, live: set<Id>, self: Id)
    requires Setting(acceptors, live, self) && OnceEach(answers, live - {self})
    ensures var won := |Promisers(answers)| + 1 >= Majority(|acceptors|);
      var lost := |Redirecters(answers)| + |acceptors - live| >= Majority(|acceptors|);
      && !(won && lost)
      && ((forall a :: a in live - {self} ==> Answered(answers, a)) ==>
            (!won && !lost <==> |acceptors| % 2 == 0 && |Promisers(answers)| + 1 == |acceptors| / 2))
  {
    CardBound(acceptors, live, self);
    Partition(answers, live - {self});
  }

  /** An outcome, once reached, is never overturned by later answers. */
  lemma OutcomeLasts(answers: seq<Answer>, more: seq<Answer>, acceptors: set<Id>, live: set<Id>, self: Id)
    requires Setting(acceptors, live, self) && OnceEach(answers + more, live - {self})
    requires |Promisers(answers)| + 1 >= Majority(|acceptors|)
    ensures |Redirecters(answers + more)| + |acceptors - live| < Majority(|acceptors|)
  {
    assert forall x :: x in answers ==> x in answers + more;
    SubsetCard(Promisers(answers), Promisers(answers + more));
    OneOutcome(answers + more, acceptors, live, self);
  }

  /** Only a redirect looks for a tie: when everyone has answered and promises and redirects are tied, the prepare is
      repeated exactly if the answer that came last is a redirect, and otherwise nothing happens. */
  method TieNoticed(p: Prepare, answers: seq<Answer>) returns (v: Verdict)
    requires p.Valid() && p.answers == [] && answers != [] && OnceEach(answers, p.live - {p.self})
    requires forall a :: a in p.live - {p.self} ==> Answered(answers, a)
    requires |p.acceptors| % 2 == 0 && 1 + |Promisers(answers)| == |p.acceptors| / 2
    modifies p
    ensures p.Valid() && p.answers == answers
    ensures v == if answers[|answers| - 1].Redirect? then Reprepare else Wait
  {
    v := Wait;
    for i := 0 to |answers|
      invariant p.Valid() && p.answers == answers[..i]
      invariant i == |answers| ==> v == if answers[|answers| - 1].Redirect? then Reprepare else Wait
    {
      assert answers[..i + 1] == answers[..i] + [answers[i]];
      OneOutcome(answers, p.acceptors, p.live, p.self);
      NotYet(answers, i);
      if answers[i].Promise? {
        v := p.AckPromise(answers[i].src);
      } else {
        v := p.AckRedirect(answers[i].src);
      }
      assert i + 1 == |answers| ==> p.answers == answers;
    }
    assert answers[..|answers|] == answers;
  }

  lemma NotYet(answers: seq<Answer>, i: nat)
    requires i < |answers| && forall j, k :: 0 <= j < k < |answers| ==> answers[j].src != answers[k].src
    ensures !Answered(answers[..i], answers[i].src)
  {
  }

  /** The unnoticed tie does come up, with four live acceptors. */
  lemma TieMissed() returns (answers: seq<Answer>)
    ensures Setting({1, 2, 3, 4}, {1, 2, 3, 4}, 1) && OnceEach(answers, {1, 2, 3, 4} - {1})
    ensures answers != [] && answers[|answers| - 1].Promise?
    ensures forall a :: a in {1, 2, 3, 4} - {1} ==> Answered(answers, a)
    ensures 1 + |Promisers(answers)| == |{1, 2, 3, 4}| / 2 < Majority(|{1, 2, 3, 4}|)
  {
    answers := [Redirect(2), Redirect(3), Promise(4)];
    assert answers[0] == Redirect(2) && answers[1] == Redirect(3) && answers[2] == Promise(4);
    assert Promisers(answers) == {4};
  }
}
