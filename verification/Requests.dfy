/** The request cache: requests arriving on their own, and resends. */
module Requests {
  import opened Primitives
  import opened DecreeLog
  import opened IntrusiveList
  import opened Instances
  import opened Session
  import opened Learner
  import opened Acceptor

  /** `request_insert` into the cache, as done for every request that is received; it never commits by itself. */
  method CacheRequest(pax: Session, id: ReqId)
    requires pax.Learns()
    modifies pax`rcache
    ensures pax.Learns() && pax.rcache == old(pax.rcache) + {id} && pax.Log() == old(pax.Log())
    ensures PlaceOfStart(pax) == old(PlaceOfStart(pax))
  {
    hide LogOf, Vals, Sorted, List.Valid, LearnedPrefix, Traced;
    pax.rcache := pax.rcache + {id};
  }

  /** `paxos_ack_resend`: commit again, now that the request is there. */
  method AckResend(pax: Session, n: nat, id: ReqId) returns (out: Option<Outcome>)
    requires PlaceOfStart(pax) != Wrong
    modifies pax`rcache, pax`istart, pax`hole, pax`trace, pax.ilist.links`elt
    ensures pax.Learns() && Extends(pax.trace, old(pax.trace)) && pax.hole >= old(pax.hole)
    ensures var log := old(pax.Log());
      && (out == None ==> pax.Log() == log && pax.rcache == old(pax.rcache))
      && (out.Some? ==>
            && n in log && pax.Log() == log[n := log[n].(committed := true)]
            && pax.rcache == old(pax.rcache) + if log[n].value.reqid in old(pax.rcache) then {} else {id})
    ensures out.Some? && id == old(pax.Log())[n].value.reqid ==> out.value != Retrieve
    ensures var place, next := old(PlaceOfStart(pax)), AtHole(old(PlaceOfStart(pax)));
      var here := out.Some? && out.value != Retrieve && n == old(pax.hole);
      && (out == Some(Stopped) <==> here && next == Wrong)
      && (out == Some(Learned) <==> here && next != Wrong)
      && (pax.hole > old(pax.hole) <==> here && next == Right)
      && (out != Some(Stopped) ==> PlaceOfStart(pax) == if here then next else place)
    ensures old(pax.Valid() && n == pax.hole && n in pax.Log() && pax.Log()[n].committed && pax.Log()[n].value.reqid == id)
            ==> out == Some(Learned)
  {
    hide LogOf, Vals, Session.Xs, Learning, Session.Pointed, Blocked, List.Valid, Sorted, Extends, PlaceOfStart;
    PlaceTells(pax);
    ExtendsFurther(pax.trace, pax.trace, Value(Null, id, 0));
    var inst, k := FindInstance(pax, n);
    if inst == null || inst.elt.cached {
      if inst != null && pax.Valid() {
        HoleOpen(pax, k);
      }
      return None;
    }
    if inst.elt.value.reqid !in pax.rcache {
      CacheRequest(pax, id);
    }
    var r := Commit(pax, inst, k);
    out := Some(r);
  }

  /** The instance at the hole is not cached if it is committed. */
  lemma HoleOpen(pax: Session, k: nat)
    requires pax.Valid() && k < |pax.ilist.links|
    ensures var x := pax.ilist.links[k].elt; !(x.inum == pax.hole && x.committed && x.cached)
  {
    hide Vals, List.Valid, LogOf;
  }
}
