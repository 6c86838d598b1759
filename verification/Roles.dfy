/** Who proposes: the acceptor list with its connections, the live count, and the believed proposer. */
module Roles {
  import opened Primitives
  import opened DecreeLog

  type Id = nat
  type Peer = nat

  /** An acceptor and the connection to it, if there is one.  There is none to ourselves. */
  datatype Acceptor = Acceptor(id: Id, peer: Option<Peer>)

  /** How an attempt to connect came out: with a connection, or not. */
  type Attempt = Option<Peer>

  // ---------------------------------------------------------------- acceptor lists

  ghost predicate Ranked(s: seq<Acceptor>) {
    forall i, j {:trigger s[i], s[j]} :: 0 <= i < j < |s| ==> s[i].id < s[j].id
  }

  /** Connected, or ourselves. */
  predicate Present(a: Acceptor, self: Id) {
    a.id == self || a.peer.Some?
  }

  ghost function Members(s: seq<Acceptor>): set<Id> {
    set a | a in s :: a.id
  }

  ghost function Live(s: seq<Acceptor>, self: Id): set<Id> {
    set a | a in s && Present(a, self) :: a.id
  }

  /** The list now is the list was, except that id's entry has this connection. */
  ghost predicate PeerSet(was: seq<Acceptor>, now: seq<Acceptor>, id: Id, peer: Option<Peer>) {
    && |now| == |was|
    && forall k {:trigger now[k]} :: 0 <= k < |now| ==> now[k] == if was[k].id == id then Acceptor(id, peer) else was[k]
  }

  /** Acceptor id is connected through source now, unless it had a connection already and ranks below self: of two
      connections the one that the higher-ranked end made is kept. */
  ghost predicate Attached(was: seq<Acceptor>, now: seq<Acceptor>, id: Id, self: Id, source: Peer) {
    && |now| == |was|
    && forall k {:trigger now[k]} :: 0 <= k < |now| ==>
         now[k] == if was[k].id == id && (was[k].peer == None || id < self) then Acceptor(id, Some(source)) else was[k]
  }

  ghost predicate Lowest(p: Id, ids: set<Id>) {
    p in ids && forall i :: i in ids ==> p <= i
  }

  lemma AppendOne(s: seq<Acceptor>, a: Acceptor, self: Id)
    requires Ranked(s) && a.id != self && forall i :: i in Members(s) ==> i < a.id
    ensures Ranked(s + [a]) && a.id !in Members(s) && Members(s + [a]) == Members(s) + {a.id}
    ensures Live(s + [a], self) == if a.peer.Some? then Live(s, self) + {a.id} else Live(s, self)
    ensures a.id !in Live(s, self)
  {
    assert forall x :: x in s + [a] <==> x in s || x == a;
    assert forall x :: x in s ==> x.id in Members(s);
  }

  lemma RemoveOne(s: seq<Acceptor>, k: nat, self: Id)
    requires k < |s| && Ranked(s)
    ensures var t := s[..k] + s[k + 1..];
      && Ranked(t) && Members(t) == Members(s) - {s[k].id} && Live(t, self) == Live(s, self) - {s[k].id}
      && forall x :: x in t ==> x in s
  {
    var t := s[..k] + s[k + 1..];
    RemoveElement(s, k);
    assert forall x :: x in t <==> x in s && x.id != s[k].id;
    assert s[k] in s;
  }

  lemma RemoveElement(s: seq<Acceptor>, k: nat)
    requires k < |s| && Ranked(s)
    ensures var t := s[..k] + s[k + 1..]; Ranked(t) && forall x :: x in t <==> x in s && x.id != s[k].id
  {
  }

  lemma ChangePeer(s: seq<Acceptor>, k: nat, peer: Option<Peer>, self: Id)
    requires k < |s| && Ranked(s) && s[k].id != self
    ensures var t := s[k := s[k].(peer := peer)];
      && Ranked(t) && Members(t) == Members(s)
      && Live(t, self) == if peer.Some? then Live(s, self) + {s[k].id} else Live(s, self) - {s[k].id}
  {
    var t := s[k := s[k].(peer := peer)];
    forall x | x in s && x != s[k] ensures x in t && x.id != s[k].id {
      var i :| 0 <= i < |s| && s[i] == x;
      assert t[i] == x;
    }
    forall x | x in t && x != t[k] ensures x in s && x.id != s[k].id {
      var i :| 0 <= i < |t| && t[i] == x;
      assert s[i] == x;
    }
    assert t[k] in t && s[k] in s;
  }

  // ---------------------------------------------------------------- the session

  class Session {
    const self: Id
    var alist: seq<Acceptor>
    /** Acceptors whose hello came before their join was learned. */
    var adefer: map<Id, Peer>
    var liveCount: nat
    var proposer: Id
    /** A prepare is pending. */
    var preparing: bool
    /** The session is over, `paxos_end`. */
    var ended: bool

    constructor Start()
      ensures Valid() && !ended && Members(alist) == {self} && proposer == self && !preparing && adefer == map[]
    {
      self := 1;
      alist := [Acceptor(1, None)];
      liveCount, proposer, preparing, ended, adefer := 1, 1, false, false, map[];
      new;
      assert Live(alist, 1) == {1};
    }

    /** `acceptor_ack_welcome`, the acceptor list: the welcome comes from the proposer, who was there before us. */
    constructor Welcome(self: Id, ids: seq<Id>, proposer: Id, source: Peer)
      requires forall i, j :: 0 <= i < j < |ids| ==> ids[i] < ids[j]
      requires self in ids && proposer in ids && proposer < self
      ensures Valid() && !ended && !preparing && adefer == map[] && this.self == self && this.proposer == proposer
      ensures Members(alist) == (set i | i in ids) && Live(alist, self) == {proposer, self}
      ensures |alist| == |ids| && forall i :: 0 <= i < |ids| ==>
                alist[i] == Acceptor(ids[i], if ids[i] == proposer then Some(source) else None)
    {
      this.self, this.proposer := self, proposer;
      alist, liveCount, preparing, ended, adefer := [], 1, false, false, map[];
      new;
      for k := 0 to |ids|
        invariant |alist| == k && adefer == map[] && !ended && !preparing && this.proposer == proposer
        invariant forall i :: 0 <= i < k ==>
          alist[i] == Acceptor(ids[i], if ids[i] == proposer then Some(source) else None)
        invariant liveCount == if proposer in ids[..k] then 2 else 1
      {
        assert ids[..k + 1] == ids[..k] + [ids[k]];
        if ids[k] == proposer {
          alist := alist + [Acceptor(ids[k], Some(source))];
          liveCount := liveCount + 1;
        } else {
          alist := alist + [Acceptor(ids[k], None)];
        }
      }
      assert ids[..|ids|] == ids;
      WelcomeList(alist, ids, self, proposer, source);
    }

    /** The proposer is the lowest acceptor that is live or ourselves, the live count is exact, and only a
        proposer has a prepare pending. */
    ghost predicate Valid()
      reads this
    {
      !ended ==>
        && Ranked(alist) && self in Members(alist)
        && (forall a :: a in alist && a.id == self ==> a.peer == None)
        && liveCount == |Live(alist, self)|
        && Lowest(proposer, Live(alist, self))
        && (preparing ==> proposer == self)
    }

    /** `acceptor_find` */
    method Find(id: Id) returns (found: bool, k: nat)
      ensures found ==> k < |alist| && alist[k].id == id
      ensures !found ==> id !in Members(alist)
    {
      k := 0;
      while k < |alist|
        invariant k <= |alist| && forall i :: 0 <= i < k ==> alist[i].id != id
      {
        if alist[k].id == id {
          return true, k;
        }
        k := k + 1;
      }
      found := false;
    }

    /** `reset_proposer` */
    method ResetProposer()
      requires Ranked(alist) && self in Members(alist)
      modifies this`proposer
      ensures Lowest(proposer, Live(alist, self))
    {
      var k := 0;
      while k < |alist|
        invariant k <= |alist| && forall i :: 0 <= i < k ==> !Present(alist[i], self)
      {
        if Present(alist[k], self) {
          proposer := alist[k].id;
          assert alist[k] in alist;
          return;
        }
        k := k + 1;
      }
      assert false;
    }

    /** `proposer_prepare`, as far as roles go: end the session without a live majority. */
    method StartPrepare()
      requires !preparing
      modifies this`preparing, this`ended
      ensures ended == (old(ended) || liveCount < Majority(|alist|))
      ensures preparing == (liveCount >= Majority(|alist|))
    {
      if liveCount < Majority(|alist|) {
        ended := true;
        return;
      }
      preparing := true;
    }

    /** `paxos_drop_connection` */
    method Drop(source: Peer) returns (lost: Option<Id>)
      requires Valid() && !ended
      modifies this
      ensures Valid() && Members(alist) == old(Members(alist)) && adefer == old(adefer)
      ensures |alist| == |old(alist)| && liveCount == |Live(alist, self)| && Lowest(proposer, Live(alist, self))
      ensures lost == None ==> alist == old(alist) && preparing == old(preparing) && !ended
                               && forall a :: a in alist ==> a.peer != Some(source)
      ensures lost.Some? ==> Acceptor(lost.value, Some(source)) in old(alist)
                             && PeerSet(old(alist), alist, lost.value, None)
                             && Live(alist, self) == old(Live(alist, self)) - {lost.value}
      ensures lost.Some? && lost.value == old(proposer) && proposer == self ==>
                preparing == (liveCount >= Majority(|alist|)) && ended != preparing
      ensures !(lost.Some? && lost.value == old(proposer) && proposer == self) ==>
                preparing == old(preparing) && !ended
    {
      hide Lowest, Members, Live;
      var k := 0;
      while k < |alist| && alist[k].peer != Some(source)
        invariant k <= |alist| && forall i :: 0 <= i < k ==> alist[i].peer != Some(source)
      {
        k := k + 1;
      }
      if k == |alist| {
        return None;
      }
      var id := alist[k].id;
      Detach(k, None);
      liveCount := liveCount - 1;
      if proposer == self {
        // A part for the lost acceptor is decreed, or deferred until the prepare succeeds.
        StaysLowest(proposer, old(Live(alist, self)), id);
      } else if id == proposer {
        ResetProposer();
        if proposer == self {
          StartPrepare();
        }
      } else {
        StaysLowest(proposer, old(Live(alist, self)), id);
      }
      lost := Some(id);
    }

    /** Set the connection of the acceptor in place k. */
    method Detach(k: nat, peer: Option<Peer>)
      requires Ranked(alist) && k < |alist| && alist[k].id != self && self in Members(alist)
      requires forall a :: a in alist && a.id == self ==> a.peer == None
      modifies this`alist
      ensures Ranked(alist) && Members(alist) == old(Members(alist)) && |alist| == old(|alist|)
      ensures PeerSet(old(alist), alist, old(alist[k].id), peer)
      ensures forall a :: a in alist && a.id == self ==> a.peer == None
      ensures var id, was := old(alist[k].id), old(Live(alist, self));
        && Live(alist, self) == (if peer.Some? then was + {id} else was - {id})
        && |Live(alist, self)| == |was| + (if peer.Some? && id !in was then 1 else 0)
                                  - (if peer.None? && id in was then 1 else 0)
        && (id in was <==> old(alist[k].peer.Some?))
    {
      ChangePeer(alist, k, peer, self);
      LiveAt(alist, k, self);
      alist := alist[k := alist[k].(peer := peer)];
    }

    /** `paxos_ack_hello`, the attaching part. */
    method AckHello(id: Id, source: Peer)
      requires Valid() && !ended && id != self
      modifies this
      ensures Valid() && !ended && Members(alist) == old(Members(alist)) && |alist| == |old(alist)|
      ensures var ignored := old(proposer) == self && !old(preparing) && id < self;
        && (ignored ==> alist == old(alist) && adefer == old(adefer) && preparing == old(preparing))
        && (!ignored && id in Members(alist) ==>
              && Attached(old(alist), alist, id, self, source)
              && Live(alist, self) == old(Live(alist, self)) + {id} && adefer == old(adefer)
              && preparing == (old(preparing) && proposer == self))
        && (!ignored && id !in Members(alist) ==>
              && alist == old(alist) && preparing == old(preparing)
              && adefer == (if id in old(adefer) then old(adefer) else old(adefer)[id := source]))
    {
      hide Lowest, Members, Live, PeerSet, Attached;
      if proposer == self && !preparing && id < self {
        return;
      }
      var found, k := Find(id);
      if !found {
        if id !in adefer {
          adefer := adefer[id := source];
        }
        return;
      }
      InMembers(alist, k);
      LiveAt(alist, k, self);
      ghost var was := alist;
      if alist[k].peer == None {
        Detach(k, Some(source));
        liveCount := liveCount + 1;
        AttachesAt(was, alist, k, self, source);
        NewLowest(proposer, old(Live(alist, self)), id);
        if id < proposer {
          if proposer == self {
            preparing := false;
          }
          proposer := id;
        }
      } else if id < self {
        Detach(k, Some(source));
        AttachesAt(was, alist, k, self, source);
        StaysSame(old(Live(alist, self)), id);
      } else {
        KeepsAt(was, k, self, source);
        StaysSame(Live(alist, self), id);
      }
    }

    /** Learning a join, in `paxos_learn`.  An acceptor's id is the number of the instance that made it join, so
        it is greater than all before it. */
    method LearnJoin(id: Id)
      requires Valid() && !ended && forall i :: i in Members(alist) ==> i < id
      modifies this
      ensures alist == old(alist) + [Acceptor(id, if id in old(adefer) then Some(old(adefer)[id]) else None)]
      ensures Valid() && !ended && preparing == old(preparing) && proposer == old(proposer)
      ensures Members(alist) == old(Members(alist)) + {id}
      ensures adefer == old(adefer - {id})
      ensures Live(alist, self) == old(Live(alist, self)) + if id in old(adefer) then {id} else {}
    {
      hide Lowest, Members, Live, Ranked;
      var acc := Acceptor(id, None);
      if id in adefer {
        acc := acc.(peer := Some(adefer[id]));
        liveCount := liveCount + 1;
      }
      adefer := adefer - {id};
      BelowNext(alist, proposer, self, id);
      NewLowest(proposer, Live(alist, self), id);
      AppendOne(alist, acc, self);
      alist := alist + [acc];
    }

    /** Learning a part or a kill, in `paxos_learn`. */
    method LearnPart(id: Id)
      requires Valid() && !ended
      modifies this
      ensures Valid() && adefer == old(adefer)
      ensures id !in old(Members(alist)) ==> alist == old(alist) && preparing == old(preparing) && !ended
      ensures id == self ==> ended
      ensures id != self ==> Ranked(alist) && forall a :: a in alist <==> a in old(alist) && a.id != id
      ensures !ended ==> Members(alist) == old(Members(alist)) - {id}
                         && Live(alist, self) == old(Live(alist, self)) - {id}
      ensures !ended ==> preparing == (old(preparing) || (old(proposer) == id && proposer == self))
      ensures ended <==> id == self || (old(proposer) == id && proposer == self && liveCount < Majority(|alist|))
    {
      hide Lowest, Members, Live;
      var found, k := Find(id);
      if !found {
        NotLive(alist, self, id);
        NotThere(alist, id, None);
        StaysSame(Live(alist, self), id);
        return;
      }
      InMembers(alist, k);
      LiveAt(alist, k, self);
      if id == self {
        ended := true;
        return;
      }
      RemoveOne(alist, k, self);
      var acc := alist[k];
      alist := alist[..k] + alist[k + 1..];
      if acc.peer.Some? {
        liveCount := liveCount - 1;
      }
      if id == proposer {
        ResetProposer();
        if proposer == self {
          StartPrepare();
        }
      } else {
        StaysLowest(proposer, old(Live(alist, self)), id);
      }
    }

    /** `do_continue_ack_welcome`: a newcomer's connection to one of the others.  It never corrects the proposer,
        so the roles stay right exactly if it is not a second connection and does not reach above the
        proposer. */
    method ContinueWelcome(id: Id, chan: Attempt)
      requires Valid() && !ended && id != self
      modifies this
      ensures Members(alist) == old(Members(alist)) && adefer == old(adefer) && !ended
      ensures proposer == old(proposer) && preparing == old(preparing)
      ensures Valid() <==> id !in Members(alist) || (id !in old(Live(alist, self)) && (chan == None || proposer < id))
      ensures id in Members(alist) && chan.Some? ==> Live(alist, self) == old(Live(alist, self)) + {id}
      ensures PeerSet(old(alist), alist, id, chan)
      ensures liveCount == old(liveCount) + if id in Members(alist) && chan.Some? then 1 else 0
    {
      hide Members, Live;
      var found, k := Find(id);
      NotThere(alist, id, chan);
      if !found {
        return;
      }
      InMembers(alist, k);
      LiveAt(alist, k, self);
      Detach(k, chan);
      StaysSame(old(Live(alist, self)), id);
      if chan.Some? {
        liveCount := liveCount + 1;
        NewLowest(proposer, old(Live(alist, self)), id);
      }
    }

    /** `do_continue_ack_redirect`: the attempt to reconnect to the acceptor a majority called the proposer.  It
        keeps the roles right exactly unless the attempt fails on a session that has stopped proposing in the
        meantime. */
    method ContinueRedirect(id: Id, chan: Attempt)
      requires Valid() && !ended && id < self
      modifies this
      ensures Members(alist) == old(Members(alist)) && adefer == old(adefer)
      ensures Valid() <==> !(id in old(Members(alist)) && id !in old(Live(alist, self)) && chan == None
                             && old(proposer) != self && liveCount >= Majority(|alist|))
      ensures id in Members(alist) && chan.Some? ==> !ended && proposer != self
                                                     && Live(alist, self) == old(Live(alist, self)) + {id}
      ensures chan == None ==> alist == old(alist) && liveCount == old(liveCount) && proposer == old(proposer)
      ensures id in Members(alist) && id !in old(Live(alist, self)) && chan == None ==>
                preparing == (liveCount >= Majority(|alist|)) && ended != preparing
      ensures if id in old(Live(alist, self)) then alist == old(alist) && preparing == old(preparing) && !ended
              else PeerSet(old(alist), alist, id, chan)
    {
      hide Lowest, Members, Live;
      var found, k := Find(id);
      NotThere(alist, id, chan);
      if !found {
        NotLive(alist, self, id);
        return;
      }
      InMembers(alist, k);
      LiveAt(alist, k, self);
      if alist[k].peer.Some? {
        // The assert of the C code: someone higher-ranked is live, so we are not the proposer.
        NotProposer(proposer, Live(alist, self), id, self);
        assert proposer != self;
        StaysSame(Live(alist, self), id);
        return;
      }
      preparing := false;
      if chan.Some? {
        Detach(k, chan);
        liveCount := liveCount + 1;
        NewLowest(proposer, old(Live(alist, self)), id);
        if id < proposer {
          proposer := id;
        }
        NotProposer(proposer, Live(alist, self), id, self);
      } else {
        StartPrepare();
      }
    }

    /** `do_continue_ack_refuse`: the attempt to reconnect to an acceptor that another one called the proposer.
        It keeps the roles right exactly if it is ignored or that acceptor is still not connected. */
    method ContinueRefuse(id: Id, chan: Attempt)
      requires Valid() && !ended && id != self
      modifies this
      ensures Members(alist) == old(Members(alist)) && adefer == old(adefer) && !ended
      ensures Valid() <==> (old(proposer) == self && !old(preparing)) || id !in old(Live(alist, self))
      ensures var ignored := id !in Members(alist) || (old(proposer) == self && !old(preparing));
        && (ignored ==> alist == old(alist) && liveCount == old(liveCount) && proposer == old(proposer))
        && (!ignored ==> PeerSet(old(alist), alist, id, chan))
        && (!ignored ==> liveCount == old(liveCount) + if chan.Some? then 1 else 0)
        && (!ignored ==> proposer == if chan.Some? && id < old(proposer) then id else old(proposer))
        && (preparing <==> old(preparing) && (ignored || chan == None))
    {
      hide Lowest, Members, Live;
      var found, k := Find(id);
      if !found {
        NotLive(alist, self, id);
        return;
      }
      InMembers(alist, k);
      LiveAt(alist, k, self);
      if proposer == self && !preparing {
        return;
      }
      Detach(k, chan);
      StaysSame(old(Live(alist, self)), id);
      if chan.Some? {
        liveCount := liveCount + 1;
        NewLowest(proposer, old(Live(alist, self)), id);
        preparing := false;
        if id < proposer {
          proposer := id;
        }
      }
    }
  }

  /** The case excluded for redirects does come up: acceptor 3 loses the proposer 1, prepares and is redirected to
      1; while it is connecting, 2 says hello and becomes its proposer; when the connection to 1 fails, it
      prepares again although it no longer proposes. */
  method StaleReconnect() returns (s: Session)
    ensures !s.ended && s.preparing && s.proposer != s.self
  {
    hide Lowest, Members, Live, Ranked;
    s := Five();
    var lost := s.Drop(10);
    assert lost == Some(1);
    assert {1, 3, 4, 5} - {1} == {3, 4, 5};
    ThreeIsLowest(s.proposer);
    s.AckHello(2, 12);
    assert {3, 4, 5} + {2} == {2, 3, 4, 5};
    TwoIsLowest(s.proposer);
    s.ContinueRedirect(1, None);
  }

  /** Acceptor 3, connected to the proposer 1 only. */
  method Newcomer() returns (s: Session)
    ensures fresh(s) && s.Valid() && !s.ended && !s.preparing && s.self == 3 && s.proposer == 1 && s.adefer == map[]
    ensures s.alist == [Acceptor(1, Some(10)), Acceptor(2, None), Acceptor(3, None)]
    ensures Members(s.alist) == {1, 2, 3} && Live(s.alist, 3) == {1, 3}
  {
    hide Lowest, Members, Live, Ranked;
    s := new Session.Welcome(3, [1, 2, 3], 1, 10);
    assert s.alist == [Acceptor(1, Some(10)), Acceptor(2, None), Acceptor(3, None)];
    IdSet([1, 2, 3], {1, 2, 3});
  }

  /** Acceptor 3 of five, all of which it is connected to except 2. */
  method Five() returns (s: Session)
    ensures fresh(s) && s.Valid() && !s.ended && !s.preparing && s.self == 3 && s.proposer == 1
    ensures s.alist == [Acceptor(1, Some(10)), Acceptor(2, None), Acceptor(3, None), Acceptor(4, Some(14)),
                        Acceptor(5, Some(15))]
    ensures Members(s.alist) == {1, 2, 3, 4, 5} && Live(s.alist, 3) == {1, 3, 4, 5}
  {
    hide Lowest, Members, Live, Ranked;
    s := Newcomer();
    Join(s, 4, 14);
    Join(s, 5, 15);
    assert {1, 2, 3} + {4} + {5} == {1, 2, 3, 4, 5} && {1, 3} + {4} + {5} == {1, 3, 4, 5};
    OneIsLowest(s.proposer);
  }

  /** An acceptor says hello, and then its join is learned. */
  method Join(s: Session, id: Id, peer: Peer)
    requires s.Valid() && !s.ended && !s.preparing && forall i :: i in Members(s.alist) ==> i < id
    requires s.self < id && s.adefer == map[]
    modifies s
    ensures s.adefer == map[]
    ensures s.Valid() && !s.ended && !s.preparing && s.alist == old(s.alist) + [Acceptor(id, Some(peer))]
    ensures Members(s.alist) == old(Members(s.alist)) + {id}
    ensures Live(s.alist, s.self) == old(Live(s.alist, s.self)) + {id}
  {
    hide Lowest, Members, Live, Ranked;
    s.AckHello(id, peer);
    s.LearnJoin(id);
  }

  lemma OneIsLowest(p: Id)
    requires Lowest(p, {1, 3, 4, 5})
    ensures p == 1
  {
  }

  lemma IdSet(ids: seq<Id>, s: set<Id>)
    requires forall i :: i in s <==> i in ids
    ensures (set i | i in ids) == s
  {
  }

  lemma ThreeIsLowest(p: Id)
    requires Lowest(p, {3, 4, 5})
    ensures p == 3
  {
  }

  lemma TwoIsLowest(p: Id)
    requires Lowest(p, {2, 3, 4, 5})
    ensures p == 2
  {
  }

  // ---------------------------------------------------------------- the lowest present acceptor

  lemma WelcomeList(s: seq<Acceptor>, ids: seq<Id>, self: Id, p: Id, source: Peer)
    requires |s| == |ids| && self in ids && p in ids && p < self
    requires forall i, j :: 0 <= i < j < |ids| ==> ids[i] < ids[j]
    requires forall i :: 0 <= i < |s| ==> s[i] == Acceptor(ids[i], if ids[i] == p then Some(source) else None)
    ensures Ranked(s) && Members(s) == (set i | i in ids) && Live(s, self) == {p, self}
    ensures forall a :: a in s && a.id == self ==> a.peer == None
  {
    forall i | i in ids ensures i in Members(s) {
      var k :| 0 <= k < |ids| && ids[k] == i;
      assert s[k] in s;
    }
    var k :| 0 <= k < |ids| && ids[k] == p;
    var l :| 0 <= l < |ids| && ids[l] == self;
    assert s[k] in s && s[l] in s;
  }

  lemma StaysLowest(p: Id, ids: set<Id>, gone: Id)
    requires Lowest(p, ids) && p != gone
    ensures Lowest(p, ids - {gone})
  {
  }

  lemma NewLowest(p: Id, ids: set<Id>, id: Id)
    requires Lowest(p, ids)
    ensures Lowest(if id < p then id else p, ids + {id})
  {
  }

  lemma NotProposer(p: Id, ids: set<Id>, id: Id, self: Id)
    requires Lowest(p, ids) && id in ids && id < self
    ensures p != self
  {
  }

  lemma StaysSame(ids: set<Id>, id: Id)
    ensures id in ids ==> ids + {id} == ids
    ensures id !in ids ==> ids - {id} == ids
  {
  }

  lemma BelowNext(s: seq<Acceptor>, p: Id, self: Id, id: Id)
    requires self in Members(s) && Lowest(p, Live(s, self)) && forall i :: i in Members(s) ==> i < id
    ensures p < id && self < id && id !in Live(s, self)
  {
    assert forall a :: a in s ==> a.id in Members(s);
  }

  lemma InMembers(s: seq<Acceptor>, k: nat)
    requires k < |s|
    ensures s[k].id in Members(s)
  {
  }

  lemma LiveAt(s: seq<Acceptor>, k: nat, self: Id)
    requires Ranked(s) && k < |s|
    ensures s[k].id in Live(s, self) <==> Present(s[k], self)
  {
  }

  lemma NotThere(s: seq<Acceptor>, id: Id, peer: Option<Peer>)
    ensures id !in Members(s) ==> PeerSet(s, s, id, peer) && forall a :: a in s ==> a.id != id
  {
    forall k | 0 <= k < |s|
      ensures s[k].id in Members(s)
    {
      InMembers(s, k);
    }
  }

  lemma AttachesAt(was: seq<Acceptor>, now: seq<Acceptor>, k: nat, self: Id, source: Peer)
    requires Ranked(was) && k < |was| && PeerSet(was, now, was[k].id, Some(source))
    requires was[k].peer == None || was[k].id < self
    ensures Attached(was, now, was[k].id, self, source)
  {
  }

  lemma KeepsAt(s: seq<Acceptor>, k: nat, self: Id, source: Peer)
    requires Ranked(s) && k < |s| && s[k].peer.Some? && s[k].id > self
    ensures Attached(s, s, s[k].id, self, source)
  {
  }

  lemma NotLive(s: seq<Acceptor>, self: Id, id: Id)
    requires id !in Members(s)
    ensures id !in Live(s, self)
  {
  }
}
