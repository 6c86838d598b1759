/** The inductive invariant of the protocol. */
module Invariants {
  import opened Primitives
  import opened DecreeLog
  import opened Protocol

  // ---------------------------------------------------------------- vocabulary

  ghost predicate WasDecreed(s: System, b: Ballot, n: nat, v: Value) {
    (b, n) in s.hist.decreed && s.hist.decreed[(b, n)] == v
  }

  ghost predicate Voted(s: System, a: Id, b: Ballot, n: nat) {
    (a, b, n) in s.hist.voted
  }

  /** A majority voted for a decree of v for instance n, and no majority voted for n before. */
  ghost predicate IsChosen(s: System, n: nat, v: Value) {
    n in s.hist.chosen && WasDecreed(s, s.hist.chosen[n].ballot, n, v)
  }

  /** As far as a is concerned, ballot b cannot choose anything but v for n: it voted for v, or it did not vote
      and has promised a later ballot. */
  ghost predicate Settled(s: System, a: Id, b: Ballot, n: nat, v: Value) {
    a in s.nodes && if Voted(s, a, b, n) then WasDecreed(s, b, n, v) else Below(b, s.nodes[a].ballot)
  }

  ghost predicate AllSettled(s: System, q: set<Id>, b: Ballot, n: nat, v: Value) {
    forall a :: a in q ==> Settled(s, a, b, n, v)
  }

  /** Ballot b never chooses anything but v for n. */
  ghost predicate SafeBelow(c: Config, s: System, b: Ballot, n: nat, v: Value) {
    exists q :: c.Quorum(q) && AllSettled(s, q, b, n, v)
  }

  ghost predicate SafeAt(c: Config, s: System, b: Ballot, n: nat, v: Value) {
    forall low :: Below(low, b) ==> SafeBelow(c, s, low, n, v)
  }

  /** A ballot-value pair found in a log or a promise: a real decree, or the chosen value under whatever
      header it was committed to. */
  ghost predicate Genuine(s: System, n: nat, b: Ballot, v: Value) {
    WasDecreed(s, b, n, v) || IsChosen(s, n, v)
  }

  // ---------------------------------------------------------------- the parts of the invariant

  ghost predicate Shape(c: Config, s: System) {
    && c.Valid()
    && s.nodes.Keys == c.members
    && (forall m :: m in s.net ==> m.src in c.members && m.dst in c.members && m.src != m.dst)
  }

  ghost predicate NodeOk(c: Config, s: System, i: Id)
    requires i in s.nodes
  {
    var nd := s.nodes[i];
    && nd.ballot.gen <= nd.genHigh && nd.proposer in c.members
    && (nd.prep.Some? ==>
          && nd.proposer == i && nd.prep.value.ballot == Pair(i, nd.genHigh) && nd.ballot.gen < nd.genHigh)
    && (Prepared(s.nodes, i) ==> nd.ballot in s.hist.prepared && nd.ballot.id == i)
    && c.base < nd.hole
    && (forall n :: n in nd.log ==> c.base <= n)
    && (forall n :: c.base <= n < nd.hole ==> n in nd.log && nd.log[n].committed)
  }

  ghost predicate Nodes(c: Config, s: System) {
    forall i {:trigger NodeOk(c, s, i)} :: i in s.nodes ==> NodeOk(c, s, i)
  }

  /** A prepared ballot is the current one of its owner, and its promise majority has left everything it voted
      for before in the owner's log. */
  ghost predicate PreparedOk(c: Config, s: System, b: Ballot)
    requires b in s.hist.prepared
  {
    var q := s.hist.prepared[b];
    && b.id in s.nodes && Prepared(s.nodes, b.id) && s.nodes[b.id].ballot == b
    && c.Quorum(q)
    && (forall a :: a in q ==> a in s.nodes && !Below(s.nodes[a].ballot, b))
    && (forall a, low, n :: a in q && Voted(s, a, low, n) && Below(low, b) ==> n in s.nodes[b.id].log)
  }

  ghost predicate Owners(c: Config, s: System) {
    forall b {:trigger PreparedOk(c, s, b)} :: b in s.hist.prepared ==> PreparedOk(c, s, b)
  }

  /** Decrees come from prepared ballots, and sit in the owner's log. */
  ghost predicate DecreedOk(s: System) {
    && (forall b, n :: (b, n) in s.hist.decreed ==>
          && b in s.hist.prepared && b.id in s.nodes && n in s.nodes[b.id].log)
    && (forall b, n :: b in s.hist.prepared && b.id in s.nodes && n in s.nodes[b.id].log
                       && !s.nodes[b.id].log[n].committed ==>
          s.nodes[b.id].log[n].ballot == b && WasDecreed(s, b, n, s.nodes[b.id].log[n].value))
  }

  ghost predicate VoteOk(s: System, a: Id, b: Ballot, n: nat) {
    && a in s.nodes && (b, n) in s.hist.decreed
    && !Below(s.nodes[a].ballot, b)
    && n in s.nodes[a].log
    && (n !in s.hist.chosen ==> !Below(s.nodes[a].log[n].ballot, b))
  }

  /** A vote stays visible in the voter's log, under its ballot or a higher one, until the instance is chosen. */
  ghost predicate Votes(s: System) {
    forall a, b, n {:trigger VoteOk(s, a, b, n)} :: Voted(s, a, b, n) ==> VoteOk(s, a, b, n)
  }

  ghost predicate SlotOk(s: System, n: nat, slot: Slot) {
    && Genuine(s, n, slot.ballot, slot.value)
    && (slot.committed ==> IsChosen(s, n, slot.value))
  }

  ghost predicate Slots(s: System) {
    forall i, n {:trigger SlotOk(s, n, s.nodes[i].log[n])} ::
      i in s.nodes && n in s.nodes[i].log ==> SlotOk(s, n, s.nodes[i].log[n])
  }

  ghost predicate ChosenOk(c: Config, s: System, n: nat)
    requires n in s.hist.chosen
  {
    var b := s.hist.chosen[n].ballot;
    var q := s.hist.chosen[n].quorum;
    && (b, n) in s.hist.decreed
    && c.Quorum(q)
    && (forall a :: a in q ==>
          && Voted(s, a, b, n) && a in s.nodes && n in s.nodes[a].log
          && !Below(s.nodes[a].log[n].ballot, b))
    && (forall high :: (high, n) in s.hist.decreed && !Below(high, b) ==>
          s.hist.decreed[(high, n)] == s.hist.decreed[(b, n)])
    && SafeAt(c, s, b, n, s.hist.decreed[(b, n)])
  }

  /** The first majority for n fixes the value of every decree of n in its ballot or a later one. */
  ghost predicate Chosens(c: Config, s: System) {
    forall n {:trigger ChosenOk(c, s, n)} :: n in s.hist.chosen ==> ChosenOk(c, s, n)
  }

  ghost predicate Safes(c: Config, s: System) {
    forall b, n {:trigger SafeAt(c, s, b, n, s.hist.decreed[(b, n)])} ::
      (b, n) in s.hist.decreed && n !in s.hist.chosen ==> SafeAt(c, s, b, n, s.hist.decreed[(b, n)])
  }

  /** No majority goes unrecorded. */
  ghost predicate Majorities(c: Config, s: System) {
    forall b, n :: n !in s.hist.chosen ==> |Voters(c, s.hist.voted, b, n)| < c.Majority()
  }

  ghost predicate PromisedOk(c: Config, s: System, a: Id, b: Ballot)
    requires (a, b) in s.hist.promised
  {
    var p := s.hist.promised[(a, b)];
    && a in s.nodes && b.id in s.nodes && a != b.id
    && !Below(s.nodes[a].ballot, b)
    && p.from <= s.nodes[b.id].hole
    && (forall n :: n in p.votes ==> c.base <= n && Genuine(s, n, p.votes[n].ballot, p.votes[n].value))
    && (forall low, n :: Voted(s, a, low, n) && Below(low, b) && p.from <= n ==>
          n in p.votes && (n !in s.hist.chosen ==> !Below(p.votes[n].ballot, low)))
    && (forall n :: n in s.hist.chosen && a in s.hist.chosen[n].quorum && Below(s.hist.chosen[n].ballot, b)
                    && p.from <= n ==>
          n in p.votes && !Below(p.votes[n].ballot, s.hist.chosen[n].ballot))
  }

  /** A promise covers every earlier vote of its sender, from the preparer's hole on. */
  ghost predicate Promises(c: Config, s: System) {
    forall a, b {:trigger PromisedOk(c, s, a, b)} :: (a, b) in s.hist.promised ==> PromisedOk(c, s, a, b)
  }

  /** The log knows everything the votes do. */
  ghost predicate Covers(log: Log, votes: map<nat, Vote>) {
    forall n :: n in votes ==> n in log && (log[n].committed || !Below(log[n].ballot, votes[n].ballot))
  }

  ghost predicate PrepOk(c: Config, s: System, i: Id)
    requires i in s.nodes && s.nodes[i].prep.Some?
  {
    var prep := s.nodes[i].prep.value;
    var who := AckersOf(s.hist, i);
    && i in who && who <= c.members && prep.acks == |who|
    && (forall a :: a in who && a != i ==>
          && (a, prep.ballot) in s.hist.promised
          && Covers(s.nodes[i].log, s.hist.promised[(a, prep.ballot)].votes))
  }

  /** The bare counter of a pending prepare counts distinct acceptors, and their votes are merged. */
  ghost predicate Preps(c: Config, s: System) {
    forall i {:trigger PrepOk(c, s, i)} :: i in s.nodes && s.nodes[i].prep.Some? ==> PrepOk(c, s, i)
  }

  // Messages in flight, one kind at a time.

  ghost predicate PrepareOk(s: System, m: Msg)
    requires m.Prepare?
  {
    m.ballot.id == m.src && m.src in s.nodes && m.hole <= s.nodes[m.src].hole
  }

  ghost predicate PromiseOk(s: System, m: Msg)
    requires m.Promise?
  {
    && m.ballot.id == m.dst && m.dst in s.nodes && (m.src, m.ballot) in s.hist.promised
    && s.hist.promised[(m.src, m.ballot)].votes == m.votes
    && s.net[m] == 1
    && (s.nodes[m.dst].prep.Some? && s.nodes[m.dst].prep.value.ballot == m.ballot ==>
          m.src !in AckersOf(s.hist, m.dst))
  }

  ghost predicate DecreeOk(s: System, m: Msg)
    requires m.Decree?
  {
    && m.ballot.id == m.src && WasDecreed(s, m.ballot, m.inum, m.value) && !Voted(s, m.dst, m.ballot, m.inum)
    && s.net[m] == 1
  }

  ghost predicate AcceptOk(s: System, m: Msg)
    requires m.Accept?
  {
    && m.ballot.id == m.dst && Voted(s, m.src, m.ballot, m.inum)
    && (m.src, m.ballot, m.inum) !in s.hist.counted && s.net[m] == 1
  }

  ghost predicate CommitOk(s: System, m: Msg)
    requires m.Commit?
  {
    IsChosen(s, m.inum, m.value)
  }

  ghost predicate PrepareMsgs(s: System) {
    forall m {:trigger PrepareOk(s, m)} :: m in s.net && m.Prepare? ==> PrepareOk(s, m)
  }

  ghost predicate PromiseMsgs(s: System) {
    forall m {:trigger PromiseOk(s, m)} :: m in s.net && m.Promise? ==> PromiseOk(s, m)
  }

  ghost predicate DecreeMsgs(s: System) {
    forall m {:trigger DecreeOk(s, m)} :: m in s.net && m.Decree? ==> DecreeOk(s, m)
  }

  ghost predicate AcceptMsgs(s: System) {
    forall m {:trigger AcceptOk(s, m)} :: m in s.net && m.Accept? ==> AcceptOk(s, m)
  }

  ghost predicate CommitMsgs(s: System) {
    forall m {:trigger CommitOk(s, m)} :: m in s.net && m.Commit? ==> CommitOk(s, m)
  }

  ghost predicate Msgs(s: System) {
    PrepareMsgs(s) && PromiseMsgs(s) && DecreeMsgs(s) && AcceptMsgs(s) && CommitMsgs(s)
  }

  ghost function Counted(c: Config, s: System, b: Ballot, n: nat): set<Id> {
    set a | a in c.members && (a, b, n) in s.hist.counted
  }

  /** The bare vote counter of an open decree counts distinct voters. */
  ghost predicate Counts(c: Config, s: System) {
    && (forall a, b, n :: (a, b, n) in s.hist.counted ==> Voted(s, a, b, n))
    && (forall b, n :: b in s.hist.prepared && b.id in s.nodes && n in s.nodes[b.id].log
                       && !s.nodes[b.id].log[n].committed ==>
          s.nodes[b.id].log[n].votes == |Counted(c, s, b, n)|)
  }

  /** What holds of the record of decrees, votes, choices and promises. */
  ghost predicate Record(c: Config, s: System) {
    && Owners(c, s) && DecreedOk(s) && Votes(s) && Chosens(c, s) && Safes(c, s) && Majorities(c, s)
    && Promises(c, s) && Counts(c, s)
  }

  ghost predicate Inv(c: Config, s: System) {
    Shape(c, s) && Nodes(c, s) && Slots(s) && Preps(c, s) && Msgs(s) && Record(c, s)
  }

  // ---------------------------------------------------------------- quorums

  /** Two majorities share a member. */
  lemma QuorumsMeet(c: Config, p: set<Id>, q: set<Id>) returns (a: Id)
    requires c.Quorum(p) && c.Quorum(q)
    ensures a in p && a in q
  {
    if p * q == {} {
      assert |p + q| == |p| + |q|;
      SubsetCard(p + q, c.members);
      assert false;
    }
    a :| a in p * q;
  }

  /** And a majority is no more than it takes: any fewer acceptors can be missed. */
  lemma SmallerMisses(members: set<Id>) returns (p: set<Id>, q: set<Id>)
    requires members != {}
    ensures p <= members && q <= members && p * q == {}
    ensures |p| + 1 == DecreeLog.Majority(|members|) && |q| + 1 == DecreeLog.Majority(|members|)
  {
    p := Part(members, |members| / 2);
    assert members == p + (members - p);
    q := Part(members - p, |members| / 2);
  }

  lemma {:induction false} Part(s: set<Id>, k: nat) returns (p: set<Id>)
    requires k <= |s|
    ensures p <= s && |p| == k
  {
    p := {};
    if k > 0 {
      var a :| a in s;
      assert |s - {a}| + 1 == |s|;
      var rest := Part(s - {a}, k - 1);
      p := rest + {a};
    }
  }

  // ---------------------------------------------------------------- stability

  /** What every event leaves in place: decrees, votes, choices and ballots only grow, and a new vote is cast
      in the voter's ballot. */
  ghost predicate Grows(s: System, t: System) {
    && s.nodes.Keys == t.nodes.Keys
    && (forall i :: i in s.nodes ==> !Below(t.nodes[i].ballot, s.nodes[i].ballot))
    && (forall b, n :: (b, n) in s.hist.decreed ==>
          (b, n) in t.hist.decreed && t.hist.decreed[(b, n)] == s.hist.decreed[(b, n)])
    && (forall a, b, n :: Voted(s, a, b, n) ==> Voted(t, a, b, n))
    && (forall a, b, n :: Voted(t, a, b, n) && a in s.nodes ==>
          Voted(s, a, b, n) || !Below(b, s.nodes[a].ballot))
    && (forall n :: n in s.hist.chosen ==> n in t.hist.chosen && t.hist.chosen[n] == s.hist.chosen[n])
  }

  lemma SafeStable(c: Config, s: System, t: System, b: Ballot, n: nat, v: Value)
    requires Grows(s, t) && SafeAt(c, s, b, n, v)
    ensures SafeAt(c, t, b, n, v)
  {
    forall low | Below(low, b)
      ensures SafeBelow(c, t, low, n, v)
    {
      assert SafeBelow(c, s, low, n, v);
      var q :| c.Quorum(q) && AllSettled(s, q, low, n, v);
      forall a | a in q
        ensures Settled(t, a, low, n, v)
      {
        assert Settled(s, a, low, n, v);
      }
      assert AllSettled(t, q, low, n, v);
    }
  }
}
