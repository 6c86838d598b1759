/** What the parts of the invariant ask of an event: each lemma keeps one part, given how far the event may
    change what that part looks at. */
module Preservation {
  import opened Primitives
  import opened DecreeLog
  import opened Protocol
  import opened Invariants

  /** Slots never disappear, commits are final, and a header only drops to a ballot that is still at least the
      node's own. */
  ghost predicate SlotGrows(s: System, t: System, i: Id, n: nat)
    requires i in s.nodes && i in t.nodes && n in s.nodes[i].log
  {
    && n in t.nodes[i].log
    && (var x, y := s.nodes[i].log[n], t.nodes[i].log[n];
        && (!Below(y.ballot, x.ballot) || !Below(y.ballot, s.nodes[i].ballot)))
  }

  ghost predicate LogsGrow(s: System, t: System) {
    && s.nodes.Keys == t.nodes.Keys
    && (forall i, n :: i in s.nodes && n in s.nodes[i].log ==> SlotGrows(s, t, i, n))
  }

  lemma VotesKept(s: System, t: System)
    requires Votes(s) && Grows(s, t) && LogsGrow(s, t)
    requires forall a, b, n :: Voted(t, a, b, n) && !Voted(s, a, b, n) ==> VoteOk(t, a, b, n)
    ensures Votes(t)
  {
    forall a, b, n | Voted(t, a, b, n)
      ensures VoteOk(t, a, b, n)
    {
      if Voted(s, a, b, n) {
        assert VoteOk(s, a, b, n);
        assert SlotGrows(s, t, a, n);
      }
    }
  }

  lemma SlotsKept(s: System, t: System)
    requires Slots(s) && Grows(s, t)
    requires forall i, n :: i in t.nodes && n in t.nodes[i].log ==>
      (n in s.nodes[i].log
        && s.nodes[i].log[n].(votes := t.nodes[i].log[n].votes) == t.nodes[i].log[n])
      || SlotOk(t, n, t.nodes[i].log[n])
    ensures Slots(t)
  {
    forall i, n | i in t.nodes && n in t.nodes[i].log
      ensures SlotOk(t, n, t.nodes[i].log[n])
    {
      if !SlotOk(t, n, t.nodes[i].log[n]) {
        assert SlotOk(s, n, s.nodes[i].log[n]);
      }
    }
  }

  /** The decrees of instance n that t has and s does not agree with the choice s made. */
  ghost predicate NewDecreesAgree(s: System, t: System, n: nat)
    requires n in s.hist.chosen
  {
    forall b :: (b, n) in t.hist.decreed && (b, n) !in s.hist.decreed && Below(s.hist.chosen[n].ballot, b) ==>
      IsChosen(s, n, t.hist.decreed[(b, n)])
  }

  lemma ChosenStable(c: Config, s: System, t: System, n: nat)
    requires n in s.hist.chosen && ChosenOk(c, s, n)
    requires Votes(s) && Grows(s, t) && LogsGrow(s, t)
    requires NewDecreesAgree(s, t, n)
    ensures ChosenOk(c, t, n)
  {
    var b := s.hist.chosen[n].ballot;
    var v := s.hist.decreed[(b, n)];
    SafeStable(c, s, t, b, n, v);
    forall a | a in s.hist.chosen[n].quorum
      ensures Voted(t, a, b, n) && a in t.nodes && n in t.nodes[a].log && !Below(t.nodes[a].log[n].ballot, b)
    {
      assert VoteOk(s, a, b, n);
      assert SlotGrows(s, t, a, n);
    }
    forall high | (high, n) in t.hist.decreed && !Below(high, b)
      ensures t.hist.decreed[(high, n)] == v
    {
      if (high, n) !in s.hist.decreed {
        assert high != b;
        BelowTotal(b, high);
      }
    }
  }

  lemma BelowTotal(x: Ballot, y: Ballot)
    ensures x == y || Below(x, y) || Below(y, x)
  {
  }

  lemma ChosensKept(c: Config, s: System, t: System)
    requires Votes(s) && Chosens(c, s) && Grows(s, t) && LogsGrow(s, t)
    requires forall n :: n in s.hist.chosen ==> NewDecreesAgree(s, t, n)
    requires forall n :: n in t.hist.chosen && n !in s.hist.chosen ==> ChosenOk(c, t, n)
    ensures Chosens(c, t)
  {
    forall n | n in t.hist.chosen
      ensures ChosenOk(c, t, n)
    {
      if n in s.hist.chosen {
        ChosenStable(c, s, t, n);
      }
    }
  }

  lemma SafesKept(c: Config, s: System, t: System)
    requires Safes(c, s) && Grows(s, t)
    requires forall b, n :: (b, n) in t.hist.decreed && (b, n) !in s.hist.decreed && n !in t.hist.chosen ==>
               SafeAt(c, t, b, n, t.hist.decreed[(b, n)])
    ensures Safes(c, t)
  {
    forall b, n | (b, n) in t.hist.decreed && n !in t.hist.chosen
      ensures SafeAt(c, t, b, n, t.hist.decreed[(b, n)])
    {
      if (b, n) in s.hist.decreed {
        SafeStable(c, s, t, b, n, s.hist.decreed[(b, n)]);
      }
    }
  }

  lemma PromisesKept(c: Config, s: System, t: System)
    requires Promises(c, s) && Chosens(c, t) && Grows(s, t) && HolesGrow(s, t)
    requires forall a, b :: (a, b) in t.hist.promised && !SamePromise(s, t, a, b) ==> PromisedOk(c, t, a, b)
    ensures Promises(c, t)
  {
    forall a, b | (a, b) in t.hist.promised
      ensures PromisedOk(c, t, a, b)
    {
      if SamePromise(s, t, a, b) {
        PromiseStable(c, s, t, a, b);
      }
    }
  }

  ghost predicate HolesGrow(s: System, t: System) {
    s.nodes.Keys == t.nodes.Keys && forall i :: i in s.nodes ==> s.nodes[i].hole <= t.nodes[i].hole
  }

  ghost predicate SamePromise(s: System, t: System, a: Id, b: Ballot) {
    (a, b) in s.hist.promised && (a, b) in t.hist.promised && t.hist.promised[(a, b)] == s.hist.promised[(a, b)]
  }

  lemma PromiseStable(c: Config, s: System, t: System, a: Id, b: Ballot)
    requires SamePromise(s, t, a, b) && PromisedOk(c, s, a, b)
    requires Chosens(c, t) && Grows(s, t) && HolesGrow(s, t)
    ensures PromisedOk(c, t, a, b)
  {
    var p := s.hist.promised[(a, b)];
    forall low, n | Voted(t, a, low, n) && Below(low, b) && p.from <= n
      ensures n in p.votes && (n !in t.hist.chosen ==> !Below(p.votes[n].ballot, low))
    {
      assert Voted(s, a, low, n);
    }
    forall n | n in t.hist.chosen && a in t.hist.chosen[n].quorum && Below(t.hist.chosen[n].ballot, b)
               && p.from <= n
      ensures n in p.votes && !Below(p.votes[n].ballot, t.hist.chosen[n].ballot)
    {
      if n !in s.hist.chosen {
        assert ChosenOk(c, t, n);
        assert Voted(s, a, t.hist.chosen[n].ballot, n);
      }
    }
  }

  /** The owner of a prepared ballot keeps its role. */
  ghost predicate OwnerStays(s: System, t: System, b: Ballot) {
    && b in s.hist.prepared && b in t.hist.prepared && t.hist.prepared[b] == s.hist.prepared[b]
    && b.id in s.nodes && b.id in t.nodes
    && t.nodes[b.id].proposer == s.nodes[b.id].proposer
    && t.nodes[b.id].prep == s.nodes[b.id].prep
    && t.nodes[b.id].ballot == s.nodes[b.id].ballot
  }

  lemma OwnerStable(c: Config, s: System, t: System, b: Ballot)
    requires OwnerStays(s, t, b) && PreparedOk(c, s, b)
    requires Grows(s, t) && LogsGrow(s, t)
    ensures PreparedOk(c, t, b)
  {
    var q := s.hist.prepared[b];
    forall a, low, n | a in q && Voted(t, a, low, n) && Below(low, b)
      ensures n in t.nodes[b.id].log
    {
      assert Voted(s, a, low, n);
      assert SlotGrows(s, t, b.id, n);
    }
  }

  lemma OwnersKept(c: Config, s: System, t: System)
    requires Owners(c, s) && Grows(s, t) && LogsGrow(s, t)
    requires forall b :: b in t.hist.prepared && !OwnerStays(s, t, b) ==> PreparedOk(c, t, b)
    ensures Owners(c, t)
  {
    forall b | b in t.hist.prepared
      ensures PreparedOk(c, t, b)
    {
      if OwnerStays(s, t, b) {
        OwnerStable(c, s, t, b);
      }
    }
  }
}
