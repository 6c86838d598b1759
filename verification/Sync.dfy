/** Log synchronization in one proposer's reign: the proposer asks everyone how far it has learned, and commands a
    truncation up to the least answer. */
module Sync {
  import opened Primitives

  type Id = nat

  const SKIP_THRESH := 30

  /** `paxos_sync`, without its total, which is the number of acceptors. */
  datatype Round = Round(acks: nat, skips: nat, last: nat)

  /** The proposer's session fields that sync uses. */
  datatype Proposer = Proposer(base: nat, hole: nat, syncId: nat, syncPrev: nat, sync: Option<Round>)

  // ---------------------------------------------------------------- the handlers

  /** `proposer_sync`, when everyone is live: the new state, and whether a new round was started. */
  function Ticked(p: Proposer): (Proposer, bool)
    requires p.hole > 0
  {
    if p.hole - 1 == p.syncPrev then
      (p, false)
    else if p.sync.Some? && p.sync.value.skips + 1 < SKIP_THRESH then
      (p.(sync := Some(p.sync.value.(skips := p.sync.value.skips + 1))), false)
    else
      (p.(syncId := p.syncId + 1, sync := Some(Round(1, 0, 0))), true)
  }

  /** The least answer so far; zero stands for none. */
  function Least(last: nat, answer: nat): nat {
    if answer < last || last == 0 then answer else last
  }

  /** `proposer_ack_last` and `proposer_truncate`: the new state, and the base that everyone is told, if any. */
  function Answered(p: Proposer, total: nat, id: nat, answer: nat): (Proposer, Option<nat>)
    requires id == p.syncId ==> p.sync.Some?
    requires p.hole > 0
  {
    if id != p.syncId then
      (p, None)
    else
      var last := Least(p.sync.value.last, answer);
      var acks := p.sync.value.acks + 1;
      if acks != total then
        (p.(sync := Some(p.sync.value.(acks := acks, last := last))), None)
      else
        var base := if p.hole - 1 < last then p.hole - 1 else last;
        (p.(base := base, syncPrev := base, sync := None), Some(base))
  }

  /** The proposer's side in place. */
  class Syncer {
    var base: nat
    var hole: nat
    var syncId: nat
    var syncPrev: nat
    var syncing: bool
    var acks: nat
    var skips: nat
    var last: nat

    constructor (base: nat, hole: nat)
      requires base < hole
      ensures View() == Proposer(base, hole, 0, 0, None)
    {
      this.base, this.hole, syncId, syncPrev, syncing, acks, skips, last := base, hole, 0, 0, false, 0, 0, 0;
    }

    ghost function View(): Proposer
      reads this
    {
      Proposer(base, hole, syncId, syncPrev, if syncing then Some(Round(acks, skips, last)) else None)
    }

    /** `proposer_sync`, when everyone is live. */
    method Tick() returns (started: bool)
      requires hole > 0
      modifies this
      ensures (View(), started) == Ticked(old(View()))
    {
      if hole - 1 == syncPrev {
        return false;
      }
      if syncing {
        skips := skips + 1;
        if skips < SKIP_THRESH {
          return false;
        }
        syncing := false;
      }
      syncing := true;
      acks, skips, last := 1, 0, 0;
      syncId := syncId + 1;
      return true;
    }

    /** `proposer_ack_last` */
    method AckLast(total: nat, id: nat, answer: nat) returns (command: Option<nat>)
      requires hole > 0 && (id == syncId ==> syncing)
      modifies this
      ensures (View(), command) == Answered(old(View()), total, id, answer)
    {
      if id != syncId {
        return None;
      }
      if answer < last || last == 0 {
        last := answer;
      }
      acks := acks + 1;
      if acks != total {
        return None;
      }
      if hole - 1 < last {
        last := hole - 1;
      }
      syncPrev := last;
      base := last;
      command := Some(base);
      syncing := false;
    }
  }

  // ---------------------------------------------------------------- the system

  /** Every message is sent at most once, and delivered at most once, in any order, or lost. */
  datatype Msg =
    | AskLast(dst: Id, id: nat)
    | Last(src: Id, id: nat, answer: nat)
    | Truncate(dst: Id, id: nat, base: nat)

  datatype Config = Config(members: set<Id>, proposer: Id, base: nat, holes: map<Id, nat>) {
    ghost predicate Valid() {
      && proposer in members && holes.Keys == members && forall i :: i in members ==> 0 < base < holes[i]
    }
  }

  /** holes and bases of all members but the proposer's base, which is in its record.
      Three history variables: whose answers to the current round were counted, what everyone answered to each round, and
      what each round commanded.  The proposer answers when the round ends. */
  datatype System = System(prop: Proposer, holes: map<Id, nat>, bases: map<Id, nat>, net: set<Msg>,
                           answered: set<Id>, given: map<(Id, nat), nat>, commands: map<nat, nat>)

  datatype Event =
    | Lose(msg: Msg)
    | Learn(node: Id)
    | Tick
    | AckSync(msg: Msg)
    | AckLast(msg: Msg)
    | AckTruncate(msg: Msg)

  ghost function Init(c: Config): System
    requires c.Valid()
  {
    System(Proposer(c.base, c.holes[c.proposer], 0, 0, None), c.holes, map i | i in c.members :: c.base, {}, {},
           map[], map[0 := c.base])
  }

  ghost predicate Enabled(c: Config, s: System, e: Event) {
    match e
    case Lose(m) => m in s.net
    case Learn(i) => i in s.holes
    case Tick => s.prop.hole > 0
    case AckSync(m) => m.AskLast? && m in s.net && m.dst in s.holes && s.holes[m.dst] > 0
    case AckLast(m) => m.Last? && m in s.net && s.prop.hole > 0 && (m.id == s.prop.syncId ==> s.prop.sync.Some?)
    case AckTruncate(m) => m.Truncate? && m in s.net && m.dst in s.bases
  }

  ghost function DoLearn(c: Config, s: System, i: Id): System
    requires i in s.holes
  {
    var t := s.(holes := s.holes[i := s.holes[i] + 1]);
    if i == c.proposer then t.(prop := s.prop.(hole := s.holes[i] + 1)) else t
  }

  ghost function DoTick(c: Config, s: System): System
    requires s.prop.hole > 0
  {
    var (prop, started) := Ticked(s.prop);
    if started then
      s.(prop := prop, answered := {},
         net := s.net + (set i | i in c.members && i != c.proposer :: AskLast(i, prop.syncId)))
    else
      s.(prop := prop)
  }

  ghost function DoAckSync(s: System, m: Msg): System
    requires m.AskLast? && m.dst in s.holes && s.holes[m.dst] > 0
  {
    s.(net := s.net - {m} + {Last(m.dst, m.id, s.holes[m.dst] - 1)},
       given := s.given[(m.dst, m.id) := s.holes[m.dst] - 1])
  }

  ghost function DoAckLast(c: Config, s: System, m: Msg): System
    requires m.Last? && s.prop.hole > 0 && (m.id == s.prop.syncId ==> s.prop.sync.Some?)
  {
    var (prop, command) := Answered(s.prop, |c.members|, m.id, m.answer);
    var t := s.(prop := prop, net := s.net - {m},
                answered := if m.id == s.prop.syncId then s.answered + {m.src} else s.answered);
    match command
    case None => t
    case Some(base) =>
      t.(net := t.net + (set i | i in c.members && i != c.proposer :: Truncate(i, m.id, base)),
         bases := s.bases[c.proposer := base], commands := s.commands[m.id := base],
         given := s.given[(c.proposer, m.id) := s.prop.hole - 1])
  }

  ghost function DoAckTruncate(s: System, m: Msg): System
    requires m.Truncate?
  {
    s.(net := s.net - {m}, bases := s.bases[m.dst := m.base])
  }

  ghost function Apply(c: Config, s: System, e: Event): System
    requires Enabled(c, s, e)
  {
    match e
    case Lose(m) => s.(net := s.net - {m})
    case Learn(i) => DoLearn(c, s, i)
    case Tick => DoTick(c, s)
    case AckSync(m) => DoAckSync(s, m)
    case AckLast(m) => DoAckLast(c, s, m)
    case AckTruncate(m) => DoAckTruncate(s, m)
  }

  ghost predicate IsRun(c: Config, run: seq<Event>)
    requires c.Valid()
    decreases |run|, 0
  {
    run == [] || (IsRun(c, run[..|run| - 1]) && Enabled(c, After(c, run[..|run| - 1]), run[|run| - 1]))
  }

  ghost function After(c: Config, run: seq<Event>): System
    requires c.Valid() && IsRun(c, run)
    decreases |run|, 1
  {
    if run == [] then Init(c) else Apply(c, After(c, run[..|run| - 1]), run[|run| - 1])
  }

  // ---------------------------------------------------------------- the invariant

  /** Everyone has learned at least up to n. */
  ghost predicate LearnedBy(c: Config, s: System, n: nat) {
    forall i {:trigger s.holes[i]} :: i in c.members ==> i in s.holes && n < s.holes[i]
  }

  ghost predicate MsgOk(c: Config, s: System, m: Msg) {
    match m
    case AskLast(j, id) =>
      && j in c.members && j != c.proposer && id <= s.prop.syncId && (j, id) !in s.given
      && (id == s.prop.syncId ==> s.prop.sync.Some? && j !in s.answered)
    case Last(j, id, answer) =>
      && j in c.members && j != c.proposer && id <= s.prop.syncId && (j, id) in s.given && s.given[(j, id)] == answer
      && (id == s.prop.syncId ==> s.prop.sync.Some? && j !in s.answered && s.prop.base <= answer)
    case Truncate(j, id, base) =>
      j in c.members && j != c.proposer && id in s.commands && s.commands[id] == base
  }

  ghost predicate Msgs(c: Config, s: System) {
    forall m {:trigger MsgOk(c, s, m)} :: m in s.net ==> MsgOk(c, s, m)
  }

  /** n is the least of the answers that those acceptors gave to round id. */
  ghost predicate LeastGiven(given: map<(Id, nat), nat>, who: set<Id>, id: nat, n: nat) {
    && (forall j {:trigger (j, id) in given} :: j in who ==> (j, id) in given && n <= given[(j, id)])
    && exists j {:trigger (j, id) in given} :: j in who && (j, id) in given && n == given[(j, id)]
  }

  /** Answers are true, and to rounds that were started. */
  ghost predicate Answers(c: Config, s: System) {
    forall j, id {:trigger (j, id) in s.given} :: (j, id) in s.given ==>
      j in c.members && j in s.holes && 0 < s.given[(j, id)] < s.holes[j] && id <= s.prop.syncId
  }

  /** The round in progress counts distinct acceptors and keeps the least of their answers. */
  ghost predicate RoundOk(c: Config, s: System) {
    && s.answered <= c.members - {c.proposer}
    && (s.prop.sync.Some? ==>
          && s.prop.sync.value.acks == 1 + |s.answered|
          && (if s.answered == {} then s.prop.sync.value.last == 0
              else LeastGiven(s.given, s.answered, s.prop.syncId, s.prop.sync.value.last)
                   && s.prop.base <= s.prop.sync.value.last))
  }

  ghost predicate Commands(c: Config, s: System) {
    && (s.prop.syncPrev == 0 || s.prop.syncPrev == s.prop.base)
    && 0 in s.commands && (forall id :: id in s.commands ==> id <= s.prop.syncId && s.commands[id] <= s.prop.base)
    && (s.prop.sync.Some? ==> s.prop.syncId !in s.commands)
    && (forall x, y :: x in s.commands && y in s.commands && x <= y ==> s.commands[x] <= s.commands[y])
    && (exists id :: id in s.commands && s.commands[id] == s.prop.base)
    && (forall id {:trigger id in s.commands} :: id in s.commands && id > 0 ==>
          LeastGiven(s.given, c.members, id, s.commands[id]))
    && (forall i :: i in s.bases ==> s.bases[i] <= s.prop.base)
  }

  ghost predicate Inv(c: Config, s: System) {
    && s.holes.Keys == c.members && s.bases.Keys == c.members && c.proposer in c.members
    && s.prop.hole == s.holes[c.proposer] && 0 < s.prop.base && LearnedBy(c, s, s.prop.base)
    && Msgs(c, s) && Answers(c, s) && RoundOk(c, s) && Commands(c, s)
  }

  lemma LeastStays(given: map<(Id, nat), nat>, more: map<(Id, nat), nat>, who: set<Id>, id: nat, n: nat)
    requires LeastGiven(given, who, id, n)
    requires forall j :: j in who ==> (j, id) in more && more[(j, id)] == given[(j, id)]
    ensures LeastGiven(more, who, id, n)
  {
    var j :| j in who && (j, id) in given && n == given[(j, id)];
    assert (j, id) in more;
    assert forall i :: i in who ==> (i, id) in given;
  }

  lemma LeastIs(given: map<(Id, nat), nat>, who: set<Id>, id: nat, n: nat, j: Id)
    requires forall i :: i in who ==> (i, id) in given && n <= given[(i, id)]
    requires j in who && (j, id) in given && n == given[(j, id)]
    ensures LeastGiven(given, who, id, n)
  {
  }

  /** One answer more. */
  lemma LeastOfMore(given: map<(Id, nat), nat>, who: set<Id>, id: nat, n: nat, i: Id)
    requires if who == {} then n == 0 else n > 0 && LeastGiven(given, who, id, n)
    requires (i, id) in given
    ensures LeastGiven(given, who + {i}, id, Least(n, given[(i, id)]))
  {
    var w, a := i, given[(i, id)];
    if who != {} {
      var j :| j in who && (j, id) in given && n == given[(j, id)];
      assert forall k :: k in who ==> (k, id) in given;
      w := if a < n then i else j;
    }
    LeastIs(given, who + {i}, id, Least(n, a), w);
  }

  lemma LeastIsAnswer(c: Config, s: System)
    requires Answers(c, s) && RoundOk(c, s) && s.prop.sync.Some? && s.answered != {}
    ensures s.prop.sync.value.last > 0
  {
  }

  // ---------------------------------------------------------------- every event keeps it

  lemma LearnInv(c: Config, s: System, i: Id)
    requires Inv(c, s) && i in s.holes
    ensures Inv(c, DoLearn(c, s, i))
  {
    var t := DoLearn(c, s, i);
    forall m | m in t.net ensures MsgOk(c, t, m) {
      assert MsgOk(c, s, m);
    }
  }

  lemma LoseInv(c: Config, s: System, m: Msg)
    requires Inv(c, s) && m in s.net
    ensures Inv(c, s.(net := s.net - {m}))
  {
    var t := s.(net := s.net - {m});
    forall x | x in t.net ensures MsgOk(c, t, x) {
      assert MsgOk(c, s, x);
    }
  }

  lemma TickInv(c: Config, s: System)
    requires Inv(c, s) && s.prop.hole > 0
    ensures Inv(c, DoTick(c, s))
  {
    var t := DoTick(c, s);
    forall m | m in t.net ensures MsgOk(c, t, m) {
      if m in s.net {
        assert MsgOk(c, s, m);
      }
    }
  }

  lemma AckSyncInv(c: Config, s: System, m: Msg)
    requires Inv(c, s) && m.AskLast? && m in s.net && m.dst in s.holes && s.holes[m.dst] > 0
    ensures Inv(c, DoAckSync(s, m))
  {
    hide LeastGiven;
    var t := DoAckSync(s, m);
    assert MsgOk(c, s, m);
    forall x | x in t.net ensures MsgOk(c, t, x) {
      if x in s.net {
        assert MsgOk(c, s, x);
      }
    }
    AnswersStay(c, s, t, m);
    assert s.holes[m.dst] > s.prop.base;
  }

  /** What was answered before stays. */
  lemma AnswersStay(c: Config, s: System, t: System, m: Msg)
    requires RoundOk(c, s) && Commands(c, s) && m.AskLast? && MsgOk(c, s, m) && m in s.net && m.dst in s.holes
    requires s.holes[m.dst] > 0 && t == DoAckSync(s, m)
    ensures RoundOk(c, t) && Commands(c, t)
  {
    hide LeastGiven;
    if s.prop.sync.Some? && s.answered != {} {
      KeptGiven(s.given, m, s.holes[m.dst] - 1, s.answered, s.prop.syncId, s.prop.sync.value.last);
    }
    forall id | id in s.commands && id > 0
      ensures LeastGiven(t.given, c.members, id, s.commands[id])
    {
      KeptGiven(s.given, m, s.holes[m.dst] - 1, c.members, id, s.commands[id]);
    }
  }

  lemma KeptGiven(given: map<(Id, nat), nat>, m: Msg, answer: nat, who: set<Id>, id: nat, n: nat)
    requires m.AskLast? && (m.dst, m.id) !in given && LeastGiven(given, who, id, n)
    ensures LeastGiven(given[(m.dst, m.id) := answer], who, id, n)
  {
    LeastStays(given, given[(m.dst, m.id) := answer], who, id, n);
  }

  lemma AckTruncateInv(c: Config, s: System, m: Msg)
    requires Inv(c, s) && m.Truncate? && m in s.net && m.dst in s.bases
    ensures Inv(c, DoAckTruncate(s, m))
  {
    var t := DoAckTruncate(s, m);
    assert MsgOk(c, s, m);
    forall x | x in t.net ensures MsgOk(c, t, x) {
      assert MsgOk(c, s, x);
    }
  }

  /** An answer that does not end the round. */
  lemma AnswerInv(c: Config, s: System, m: Msg)
    requires Inv(c, s) && m.Last? && m in s.net && s.prop.hole > 0
    requires m.id == s.prop.syncId ==> s.prop.sync.Some? && s.prop.sync.value.acks + 1 != |c.members|
    ensures Inv(c, DoAckLast(c, s, m))
  {
    hide LeastGiven;
    var t := DoAckLast(c, s, m);
    assert MsgOk(c, s, m);
    forall x | x in t.net ensures MsgOk(c, t, x) {
      assert MsgOk(c, s, x);
    }
    if m.id == s.prop.syncId {
      LeastSoFar(c, s, m);
    }
  }

  /** The least answer, with one more. */
  lemma LeastSoFar(c: Config, s: System, m: Msg)
    requires Answers(c, s) && RoundOk(c, s) && m.Last? && MsgOk(c, s, m) && m.id == s.prop.syncId
    ensures s.prop.sync.Some?
    ensures var last := Least(s.prop.sync.value.last, m.answer);
      LeastGiven(s.given, s.answered + {m.src}, m.id, last) && s.prop.base <= last
  {
    if s.answered != {} {
      LeastIsAnswer(c, s);
    }
    LeastOfMore(s.given, s.answered, m.id, s.prop.sync.value.last, m.src);
  }

  /** The last answer: everyone has answered, so the least answer is one everyone has learned, and none of the
      round's messages is left. */
  lemma LastAnswer(c: Config, s: System, m: Msg)
    requires Inv(c, s) && m.Last? && m in s.net && m.id == s.prop.syncId
    ensures s.prop.sync.Some? && (s.prop.sync.value.acks + 1 == |c.members| ==>
              s.answered + {m.src} == c.members - {c.proposer})
  {
    assert MsgOk(c, s, m);
    var all := c.members - {c.proposer};
    assert c.members == all + {c.proposer};
    if s.prop.sync.value.acks + 1 == |c.members| {
      var done := s.answered + {m.src};
      assert |done| == |s.answered| + 1;
      assert all == done + (all - done);
      assert |all - done| == 0;
    }
  }

  ghost predicate Ends(c: Config, s: System, m: Msg) {
    && m.Last? && m in s.net && s.prop.hole > 0 && m.id == s.prop.syncId
    && s.prop.sync.Some? && s.prop.sync.value.acks + 1 == |c.members|
  }

  /** The command is the least of all answers to the round, the proposer's own included. */
  lemma CommandLeast(c: Config, s: System, m: Msg)
    requires Inv(c, s) && Ends(c, s, m)
    ensures var t := DoAckLast(c, s, m);
      && m.id in t.commands && t.commands[m.id] == t.prop.base && LeastGiven(t.given, c.members, m.id, t.prop.base)
      && t.given == s.given[(c.proposer, m.id) := s.prop.hole - 1] && s.prop.base <= t.prop.base
  {
    hide LeastGiven, Msgs, Commands;
    var t, last := DoAckLast(c, s, m), Least(s.prop.sync.value.last, m.answer);
    var all := c.members - {c.proposer};
    LastAnswer(c, s, m);
    assert MsgOk(c, s, m) by { MsgHolds(c, s, m); }
    LeastSoFar(c, s, m);
    LeastStays(s.given, t.given, all, m.id, last);
    LeastTwo(t.given, all, m.id, last, c.proposer);
    assert all + {c.proposer} == c.members;
    assert s.holes[c.proposer] > s.prop.base;
  }

  lemma MsgHolds(c: Config, s: System, m: Msg)
    requires Msgs(c, s) && m in s.net
    ensures MsgOk(c, s, m)
  {
  }

  lemma LeastTwo(given: map<(Id, nat), nat>, who: set<Id>, id: nat, n: nat, i: Id)
    requires LeastGiven(given, who, id, n) && (i, id) in given
    ensures LeastGiven(given, who + {i}, id, if given[(i, id)] < n then given[(i, id)] else n)
  {
    var j :| j in who && (j, id) in given && n == given[(j, id)];
    assert forall k :: k in who ==> (k, id) in given;
    var a := given[(i, id)];
    LeastIs(given, who + {i}, id, if a < n then a else n, if a < n then i else j);
  }

  /** The assert of `proposer_truncate`, and why the command is safe. */
  lemma CommandSafe(c: Config, s: System, m: Msg)
    requires Inv(c, s) && Ends(c, s, m)
    ensures var base := DoAckLast(c, s, m).prop.base; s.prop.base <= base && LearnedBy(c, s, base)
  {
    hide Msgs, Commands, RoundOk;
    var t := DoAckLast(c, s, m);
    CommandLeast(c, s, m);
    forall i | i in c.members ensures i in s.holes && t.prop.base < s.holes[i] {
      assert (i, m.id) in t.given;
    }
  }

  lemma CommandMsgs(c: Config, s: System, m: Msg)
    requires Inv(c, s) && Ends(c, s, m)
    ensures Msgs(c, DoAckLast(c, s, m)) && Answers(c, DoAckLast(c, s, m))
  {
    hide RoundOk, LeastGiven;
    var t := DoAckLast(c, s, m);
    LastAnswer(c, s, m);
    assert s.holes[c.proposer] > s.prop.base;
    assert MsgOk(c, s, m);
    forall x | x in t.net ensures MsgOk(c, t, x) {
      if x in s.net {
        assert MsgOk(c, s, x);
      }
    }
  }

  lemma CommandRecord(c: Config, s: System, m: Msg)
    requires Inv(c, s) && Ends(c, s, m)
    ensures Commands(c, DoAckLast(c, s, m))
  {
    hide Msgs, Answers, RoundOk, LeastGiven;
    CommandLeast(c, s, m);
    var t := DoAckLast(c, s, m);
    forall id | id in t.commands && id > 0
      ensures LeastGiven(t.given, c.members, id, t.commands[id])
    {
      if id != m.id {
        OtherRound(s.given, t.given, c.members, id, s.commands[id], c.proposer, m.id, s.prop.hole - 1);
      }
    }
    assert t.commands[m.id] == t.prop.base;
  }

  lemma OtherRound(given: map<(Id, nat), nat>, more: map<(Id, nat), nat>, who: set<Id>, id: nat, n: nat, i: Id, other: nat,
                   answer: nat)
    requires LeastGiven(given, who, id, n) && other != id && more == given[(i, other) := answer]
    ensures LeastGiven(more, who, id, n)
  {
    LeastStays(given, more, who, id, n);
  }

  lemma CommandInv(c: Config, s: System, m: Msg)
    requires Inv(c, s) && Ends(c, s, m)
    ensures Inv(c, DoAckLast(c, s, m))
  {
    hide Msgs, Commands, Answers;
    CommandMsgs(c, s, m);
    CommandSafe(c, s, m);
    CommandRecord(c, s, m);
    LastAnswer(c, s, m);
    assert m.src in c.members - {c.proposer} by {
      assert m.src in s.answered + {m.src};
    }
  }

  lemma StepInv(c: Config, s: System, e: Event)
    requires Inv(c, s) && Enabled(c, s, e)
    ensures Inv(c, Apply(c, s, e)) && s.prop.base <= Apply(c, s, e).prop.base
  {
    hide Inv, DoLearn, DoTick, DoAckSync, DoAckLast, DoAckTruncate;
    BaseStays(c, s, e);
    match e
    case Lose(m) => LoseInv(c, s, m);
    case Learn(i) => LearnInv(c, s, i);
    case Tick => TickInv(c, s);
    case AckSync(m) => AckSyncInv(c, s, m);
    case AckLast(m) =>
      if Ends(c, s, m) {
        CommandInv(c, s, m);
        CommandSafe(c, s, m);
      } else {
        AnswerInv(c, s, m);
      }
    case AckTruncate(m) => AckTruncateInv(c, s, m);
  }

  /** Only the end of a round moves the base. */
  lemma BaseStays(c: Config, s: System, e: Event)
    requires Enabled(c, s, e)
    ensures (e.AckLast? && Ends(c, s, e.msg)) || Apply(c, s, e).prop.base == s.prop.base
  {
  }

  lemma InitInv(c: Config)
    requires c.Valid()
    ensures Inv(c, Init(c))
  {
  }

  lemma {:induction false} RunInv(c: Config, run: seq<Event>)
    requires c.Valid() && IsRun(c, run)
    ensures Inv(c, After(c, run))
  {
    hide Inv, Init, Enabled, Apply;
    if run == [] {
      InitInv(c);
    } else {
      var before := run[..|run| - 1];
      RunInv(c, before);
      StepInv(c, After(c, before), run[|run| - 1]);
    }
  }

  // ---------------------------------------------------------------- what holds in every run

  /** Truncation is safe: what the proposer, any acceptor, or any command on its way has as base is at most the last
      contiguous learn of every participant.  So truncation removes only what everyone has learned. */
  lemma TruncationIsSafe(c: Config, run: seq<Event>, i: Id, j: Id, m: Msg)
    requires c.Valid() && IsRun(c, run) && i in c.members && j in c.members
    ensures var s := After(c, run);
      && j in s.holes && i in s.bases && s.prop.base < s.holes[j] && s.bases[i] < s.holes[j]
      && (m.Truncate? && m in s.net ==> m.base < s.holes[j])
  {
    hide Init, Enabled, Apply;
    RunInv(c, run);
    var s := After(c, run);
    if m in s.net {
      assert MsgOk(c, s, m);
    }
  }

  /** What a round commanded stays on record... */
  lemma CommandsStay(c: Config, run: seq<Event>, e: Event, id: nat)
    requires c.Valid() && IsRun(c, run) && Enabled(c, After(c, run), e) && id in After(c, run).commands
    ensures var s, t := After(c, run), Apply(c, After(c, run), e);
      id in t.commands && t.commands[id] == s.commands[id]
  {
    hide Init, IsRun, After;
    RunInv(c, run);
    CommandStays(c, After(c, run), e, id);
  }

  lemma CommandStays(c: Config, s: System, e: Event, id: nat)
    requires Commands(c, s) && Enabled(c, s, e) && id in s.commands
    ensures var t := Apply(c, s, e); id in t.commands && t.commands[id] == s.commands[id]
  {
    hide LeastGiven;
  }

  /** ...and the commanded bases never decrease from round to round, whether or not the commands are still on their
      way; so an acceptor that obeys a later command never lowers its base. */
  lemma CommandsGrow(c: Config, run: seq<Event>, x: nat, y: nat)
    requires c.Valid() && IsRun(c, run) && x in After(c, run).commands && y in After(c, run).commands && x <= y
    ensures After(c, run).commands[x] <= After(c, run).commands[y] <= After(c, run).prop.base
  {
    hide Init, Enabled, Apply;
    RunInv(c, run);
  }

  /** Every command on its way is the one its round commanded. */
  lemma CommandsKnown(c: Config, run: seq<Event>, m: Msg)
    requires c.Valid() && IsRun(c, run) && m.Truncate? && m in After(c, run).net
    ensures m.id in After(c, run).commands && After(c, run).commands[m.id] == m.base
  {
    hide Init, Enabled, Apply;
    RunInv(c, run);
    assert MsgOk(c, After(c, run), m);
  }

  /** The proposer's own base never decreases: the assert of `proposer_truncate`. */
  lemma BaseGrows(c: Config, run: seq<Event>, e: Event)
    requires c.Valid() && IsRun(c, run) && Enabled(c, After(c, run), e)
    ensures After(c, run).prop.base <= Apply(c, After(c, run), e).prop.base
  {
    hide Init, Enabled, Apply, Inv;
    RunInv(c, run);
    StepInv(c, After(c, run), e);
  }

  /** An answer to the current round always finds the round in progress, and every answer can be taken. */
  lemma AnswersFindRound(c: Config, run: seq<Event>, m: Msg)
    requires c.Valid() && IsRun(c, run) && m.Last? && m in After(c, run).net
    ensures Enabled(c, After(c, run), AckLast(m))
  {
    hide Init, Apply;
    RunInv(c, run);
    var s := After(c, run);
    assert MsgOk(c, s, m);
    assert s.holes[c.proposer] > s.prop.base;
  }

  /** An answer to the current round gives the command exactly if with it every acceptor has answered that round. */
  lemma EveryoneAnswered(c: Config, run: seq<Event>, m: Msg)
    requires c.Valid() && IsRun(c, run) && m.Last? && m in After(c, run).net && m.id == After(c, run).prop.syncId
    ensures Ends(c, After(c, run), m) <==> After(c, run).answered + {m.src} == c.members - {c.proposer}
  {
    hide Init, Apply, Enabled;
    RunInv(c, run);
    var s := After(c, run);
    AnswersFindRound(c, run, m);
    LastAnswer(c, s, m);
    assert MsgOk(c, s, m);
    assert c.members == (c.members - {c.proposer}) + {c.proposer};
    assert |s.answered + {m.src}| == |s.answered| + 1;
    assert s.holes[c.proposer] > s.prop.base;
  }

  /** A proposer on its own never truncates. */
  lemma {:induction false} AloneNeverTruncates(c: Config, run: seq<Event>)
    requires c.Valid() && IsRun(c, run) && c.members == {c.proposer}
    ensures After(c, run).prop.base == c.base
  {
    hide Init, Enabled, Apply;
    if run == [] {
      assert After(c, run) == Init(c);
      AloneAtFirst(c);
    } else {
      var before := run[..|run| - 1];
      AloneNeverTruncates(c, before);
      RunInv(c, before);
      var s, e := After(c, before), run[|run| - 1];
      BaseStays(c, s, e);
      if e.AckLast? && Ends(c, s, e.msg) {
        assert MsgOk(c, s, e.msg);
      }
    }
  }

  lemma AloneAtFirst(c: Config)
    requires c.Valid()
    ensures Init(c).prop.base == c.base
  {
  }

  // ---------------------------------------------------------------- commands are as high as they can be

  /** One event more. */
  lemma OneMore(c: Config, run: seq<Event>, e: Event)
    requires c.Valid() && IsRun(c, run) && Enabled(c, After(c, run), e)
    ensures IsRun(c, run + [e]) && After(c, run + [e]) == Apply(c, After(c, run), e) && run <= run + [e]
  {
    hide Init, Enabled, Apply;
    assert (run + [e])[..|run|] == run;
  }

  /** Every command is the least of what all participants answered to its round, the proposer included: everyone has
      answered, nobody less, and somebody just that. */
  lemma CommandsAreLeast(c: Config, run: seq<Event>, id: nat)
    requires c.Valid() && IsRun(c, run) && id in After(c, run).commands && id > 0
    ensures var s := After(c, run);
      && (forall j :: j in c.members ==> (j, id) in s.given && s.commands[id] <= s.given[(j, id)])
      && (exists j :: j in c.members && (j, id) in s.given && s.commands[id] == s.given[(j, id)])
  {
    hide Init, Enabled, Apply;
    RunInv(c, run);
    var s := After(c, run);
    assert LeastGiven(s.given, c.members, id, s.commands[id]);
    assert forall j :: j in c.members ==> (j, id) in s.given;
  }

  /** An answer is the last contiguous learn of its sender at the time, and stays on record. */
  lemma AnswersAreLearns(c: Config, run: seq<Event>, m: Msg)
    requires c.Valid() && IsRun(c, run) && m.AskLast? && m in After(c, run).net
    ensures Enabled(c, After(c, run), AckSync(m))
    ensures var s, t := After(c, run), Apply(c, After(c, run), AckSync(m));
      && m.dst in s.holes && (m.dst, m.id) in t.given && t.given[(m.dst, m.id)] == s.holes[m.dst] - 1
      && Last(m.dst, m.id, s.holes[m.dst] - 1) in t.net
  {
    hide Init;
    RunInv(c, run);
    assert MsgOk(c, After(c, run), m);
    assert After(c, run).holes[m.dst] > After(c, run).prop.base;
  }

  lemma AnswersRemain(c: Config, run: seq<Event>, e: Event, j: Id, id: nat)
    requires c.Valid() && IsRun(c, run) && Enabled(c, After(c, run), e) && (j, id) in After(c, run).given
    ensures var s, t := After(c, run), Apply(c, After(c, run), e);
      (j, id) in t.given && (j != c.proposer ==> t.given[(j, id)] == s.given[(j, id)])
  {
    hide Init, IsRun, After;
    RunInv(c, run);
    GivenStays(c, After(c, run), e, j, id);
  }

  lemma GivenStays(c: Config, s: System, e: Event, j: Id, id: nat)
    requires Msgs(c, s) && Enabled(c, s, e) && (j, id) in s.given
    ensures var t := Apply(c, s, e); (j, id) in t.given && (j != c.proposer ==> t.given[(j, id)] == s.given[(j, id)])
  {
    if e.AckSync? {
      assert MsgOk(c, s, e.msg);
    }
  }

  /** An acceptor that takes a command has the commanded base, and only so does a base change. */
  lemma CommandsAreObeyed(c: Config, run: seq<Event>, m: Msg)
    requires c.Valid() && IsRun(c, run) && m.Truncate? && m in After(c, run).net
    ensures Enabled(c, After(c, run), AckTruncate(m))
    ensures var s, t := After(c, run), Apply(c, After(c, run), AckTruncate(m));
      m.id in s.commands && t.bases == s.bases[m.dst := s.commands[m.id]]
  {
    hide Init, LeastGiven;
    RunInv(c, run);
    assert MsgOk(c, After(c, run), m);
  }

  /** Learning is by one instance. */
  lemma LearnsByOne(c: Config, run: seq<Event>, i: Id)
    requires c.Valid() && IsRun(c, run) && i in c.members
    ensures Enabled(c, After(c, run), Learn(i))
    ensures var s, t := After(c, run), Apply(c, After(c, run), Learn(i));
      i in s.holes && t.holes == s.holes[i := s.holes[i] + 1] && c.proposer in t.holes && t.prop.hole == t.holes[c.proposer]
  {
    hide Init, LeastGiven;
    RunInv(c, run);
  }

  // ---------------------------------------------------------------- truncation is possible

  /** n is the least last contiguous learn. */
  ghost predicate Floor(c: Config, holes: map<Id, nat>, n: nat) {
    && (forall i {:trigger holes[i]} :: i in c.members ==> i in holes && n < holes[i])
    && (exists i {:trigger holes[i]} :: i in c.members && i in holes && n + 1 == holes[i])
  }

  /** Nobody has learned anything, and no base has moved. */
  ghost predicate SameLearns(s: System, t: System) {
    t.holes == s.holes && t.prop.hole == s.prop.hole && t.bases == s.bases && t.prop.base == s.prop.base
  }

  /** A round has just been started. */
  ghost predicate Started(c: Config, s: System) {
    && s.prop.sync == Some(Round(1, 0, 0)) && s.answered == {}
    && forall i {:trigger AskLast(i, s.prop.syncId)} ::
         i in c.members && i != c.proposer ==> AskLast(i, s.prop.syncId) in s.net
  }

  /** The tick that replaces a round. */
  ghost function Patience(s: System): nat {
    if s.prop.sync.Some? && s.prop.sync.value.skips < 30 then 30 - s.prop.sync.value.skips else 0
  }

  lemma TickTells(c: Config, s: System)
    requires s.prop.hole > 0 && s.prop.hole - 1 != s.prop.syncPrev
    ensures var t := DoTick(c, s);
      SameLearns(s, t) && t.prop.syncPrev == s.prop.syncPrev && (Started(c, t) || Patience(t) < Patience(s))
  {
  }

  /** Ticks start a round in the end, where the proposer has learned something since the last command. */
  lemma {:induction false} StartsRound(c: Config, run: seq<Event>) returns (more: seq<Event>)
    requires c.Valid() && IsRun(c, run) && After(c, run).prop.hole - 1 != After(c, run).prop.syncPrev
    ensures run <= more && IsRun(c, more) && Started(c, After(c, more)) && SameLearns(After(c, run), After(c, more))
    decreases Patience(After(c, run))
  {
    hide Init, IsRun, After, Inv, Started, Patience, DoTick;
    RunInv(c, run);
    var s := After(c, run);
    HolePositive(c, s);
    OneMore(c, run, Tick);
    TickTells(c, s);
    more := run + [Tick];
    if !Started(c, After(c, more)) {
      more := StartsRound(c, more);
    }
  }

  lemma HolePositive(c: Config, s: System)
    requires Inv(c, s)
    ensures s.prop.hole > 0 && c.proposer in c.members && s.holes.Keys == c.members
  {
    assert s.holes[c.proposer] > s.prop.base;
  }

  ghost function Others(c: Config): set<Id> {
    c.members - {c.proposer}
  }

  /** The current round waits for the answers of todo; the others have answered what they have learned. */
  ghost predicate Asked(c: Config, s: System, todo: set<Id>) {
    && s.prop.sync.Some? && todo <= Others(c) && s.answered == Others(c) - todo
    && (forall i {:trigger AskLast(i, s.prop.syncId)} :: i in todo ==> AskLast(i, s.prop.syncId) in s.net)
    && (forall j {:trigger (j, s.prop.syncId) in s.given} :: j in s.answered ==>
          (j, s.prop.syncId) in s.given && j in s.holes && s.given[(j, s.prop.syncId)] + 1 == s.holes[j])
  }

  lemma AllAsked(c: Config, s: System)
    requires Started(c, s)
    ensures Asked(c, s, Others(c))
  {
  }

  /** Acceptor i answers what it has learned, and the answer arrives. */
  lemma AnswerOne(c: Config, run: seq<Event>, i: Id, todo: set<Id>) returns (more: seq<Event>, mid: seq<Event>, m: Msg)
    requires c.Valid() && IsRun(c, run) && Asked(c, After(c, run), todo) && i in todo
    ensures run <= mid <= more && IsRun(c, mid) && IsRun(c, more)
    ensures var s, t := After(c, run), After(c, mid);
      && i in s.holes && s.holes[i] > 0 && m == Last(i, s.prop.syncId, s.holes[i] - 1) && m in t.net
      && Enabled(c, t, AckLast(m))
      && t == s.(net := t.net, given := s.given[(i, s.prop.syncId) := s.holes[i] - 1])
      && (forall x :: x in s.net && x != AskLast(i, s.prop.syncId) ==> x in t.net)
    ensures After(c, more) == DoAckLast(c, After(c, mid), m)
  {
    hide Init, Inv, IsRun, After, Asked;
    var s := After(c, run);
    RunInv(c, run);
    HolePositive(c, s);
    AskedTells(c, s, i, todo);
    var ask := AskLast(i, s.prop.syncId);
    AnswersAreLearns(c, run, ask);
    OneMore(c, run, AckSync(ask));
    mid := run + [AckSync(ask)];
    m := Last(i, s.prop.syncId, s.holes[i] - 1);
    AnswersFindRound(c, mid, m);
    OneMore(c, mid, AckLast(m));
    more := mid + [AckLast(m)];
  }

  lemma AskedTells(c: Config, s: System, i: Id, todo: set<Id>)
    requires Asked(c, s, todo) && i in todo
    ensures s.prop.sync.Some? && AskLast(i, s.prop.syncId) in s.net && i in c.members && i != c.proposer
  {
  }

  /** With more answers to come, the round goes on. */
  lemma StillAsked(c: Config, s: System, mid: System, i: Id, m: Msg, todo: set<Id>)
    requires c.proposer in c.members && RoundOk(c, s) && Asked(c, s, todo) && i in todo && todo != {i} && i in s.holes
    requires mid.prop.hole > 0 && s.holes[i] > 0
    requires m == Last(i, s.prop.syncId, s.holes[i] - 1)
    requires mid == s.(net := mid.net, given := s.given[(i, s.prop.syncId) := s.holes[i] - 1])
    requires forall x :: x in s.net && x != AskLast(i, s.prop.syncId) ==> x in mid.net
    ensures var t := DoAckLast(c, mid, m); Asked(c, t, todo - {i}) && SameLearns(s, t)
  {
    hide LeastGiven;
    NotAll(c, todo, i);
    var t := DoAckLast(c, mid, m);
    assert t.answered == Others(c) - (todo - {i});
    forall j | j in t.answered
      ensures (j, t.prop.syncId) in t.given && j in t.holes && t.given[(j, t.prop.syncId)] + 1 == t.holes[j]
    {
      assert j != i ==> (j, s.prop.syncId) in s.given;
    }
  }

  lemma NotAll(c: Config, todo: set<Id>, i: Id)
    requires c.proposer in c.members && todo <= Others(c) && i in todo
    ensures |Others(c) - todo| + 2 == |c.members| <==> todo == {i}
  {
    assert c.members == Others(c) + {c.proposer};
    assert Others(c) == (Others(c) - todo) + todo;
    assert todo == (todo - {i}) + {i};
    assert |todo - {i}| == 0 <==> todo == {i};
  }

  /** The least last contiguous learn is the proposer's base, and the command to the acceptors in todo is on its way. */
  ghost predicate Commanded(c: Config, s: System, todo: set<Id>) {
    && Floor(c, s.holes, s.prop.base) && todo <= Others(c)
    && (forall i {:trigger i in s.bases} :: i in c.members - todo ==> i in s.bases && s.bases[i] == s.prop.base)
    && (forall i {:trigger Truncate(i, s.prop.syncId, s.prop.base)} :: i in todo ==>
          Truncate(i, s.prop.syncId, s.prop.base) in s.net)
  }

  lemma EndsHere(c: Config, s: System, mid: System, i: Id, m: Msg)
    requires c.proposer in c.members && RoundOk(c, s) && Asked(c, s, {i}) && i in s.holes && s.holes[i] > 0 && m in mid.net
    requires m == Last(i, s.prop.syncId, s.holes[i] - 1) && mid.prop.hole > 0
    requires mid == s.(net := mid.net, given := s.given[(i, s.prop.syncId) := s.holes[i] - 1])
    ensures Ends(c, mid, m)
    ensures forall j :: j in Others(c) ==> (j, m.id) in mid.given && j in s.holes && mid.given[(j, m.id)] + 1 == s.holes[j]
  {
    hide LeastGiven;
    NotAll(c, {i}, i);
    forall j | j in Others(c)
      ensures (j, m.id) in mid.given && j in s.holes && mid.given[(j, m.id)] + 1 == s.holes[j]
    {
      assert j != i ==> j in s.answered && (j, s.prop.syncId) in s.given;
    }
  }

  /** The last answer gives the command. */
  lemma LastGives(c: Config, s: System, mid: System, i: Id, m: Msg)
    requires Inv(c, s) && Inv(c, mid) && Asked(c, s, {i}) && i in s.holes && s.holes[i] > 0 && m in mid.net
    requires m == Last(i, s.prop.syncId, s.holes[i] - 1) && mid.prop.hole > 0
    requires mid == s.(net := mid.net, given := s.given[(i, s.prop.syncId) := s.holes[i] - 1])
    ensures var t := DoAckLast(c, mid, m); Commanded(c, t, Others(c)) && t.holes == s.holes
  {
    hide LeastGiven, Msgs, Commands, Answers, RoundOk, Asked, Floor;
    EndsHere(c, s, mid, i, m);
    CommandLeast(c, mid, m);
    var t := DoAckLast(c, mid, m);
    forall j | j in c.members
      ensures j in t.holes && ((j, m.id) in t.given ==> t.given[(j, m.id)] + 1 == t.holes[j])
    {
      assert j == c.proposer || j in Others(c);
    }
    FloorGiven(c, t, m.id, t.prop.base);
  }

  lemma FloorGiven(c: Config, s: System, id: nat, n: nat)
    requires LeastGiven(s.given, c.members, id, n)
    requires forall j :: j in c.members ==> j in s.holes && ((j, id) in s.given ==> s.given[(j, id)] + 1 == s.holes[j])
    ensures Floor(c, s.holes, n)
  {
    forall i | i in c.members
      ensures i in s.holes && n < s.holes[i]
    {
      assert (i, id) in s.given;
    }
  }

  lemma {:induction false} AnswersCome(c: Config, run: seq<Event>, todo: set<Id>) returns (more: seq<Event>)
    requires c.Valid() && IsRun(c, run) && Asked(c, After(c, run), todo) && todo != {}
    ensures run <= more && IsRun(c, more) && Commanded(c, After(c, more), Others(c))
    ensures After(c, more).holes == After(c, run).holes
    decreases |todo|
  {
    hide Init, Inv, IsRun, After, Asked, Commanded, DoAckLast, LeastGiven, Enabled, Apply;
    var i :| i in todo;
    var s := After(c, run);
    var mid, m;
    more, mid, m := AnswerOne(c, run, i, todo);
    RunInv(c, run);
    RunInv(c, mid);
    Beyond(c, s, i);
    HolePositive(c, After(c, mid));
    if todo == {i} {
      LastGives(c, s, After(c, mid), i, m);
    } else {
      StillAsked(c, s, After(c, mid), i, m, todo);
      NonEmpty(todo, i);
      more := AnswersCome(c, more, todo - {i});
    }
  }

  lemma NonEmpty(todo: set<Id>, i: Id)
    requires i in todo && todo != {i}
    ensures todo - {i} != {} && |todo - {i}| < |todo|
  {
    assert todo == (todo - {i}) + {i};
  }

  lemma Beyond(c: Config, s: System, i: Id)
    requires Inv(c, s) && i in s.holes
    ensures s.holes[i] > 0 && RoundOk(c, s) && c.proposer in c.members
  {
  }

  lemma {:induction false} CommandsArrive(c: Config, run: seq<Event>, todo: set<Id>) returns (more: seq<Event>)
    requires c.Valid() && IsRun(c, run) && Commanded(c, After(c, run), todo)
    ensures run <= more && IsRun(c, more) && Commanded(c, After(c, more), {}) && After(c, more).holes == After(c, run).holes
    decreases |todo|
  {
    hide Init, Inv, IsRun, After, Floor, Enabled, Apply;
    more := run;
    if todo != {} {
      var i :| i in todo;
      var s := After(c, run);
      var m := Truncate(i, s.prop.syncId, s.prop.base);
      CommandsAreObeyed(c, run, m);
      OneMore(c, run, AckTruncate(m));
      ObeyedOne(c, s, m, i, todo);
      assert todo == (todo - {i}) + {i};
      more := CommandsArrive(c, run + [AckTruncate(m)], todo - {i});
    }
  }

  lemma ObeyedOne(c: Config, s: System, m: Msg, i: Id, todo: set<Id>)
    requires Commanded(c, s, todo) && i in todo && m == Truncate(i, s.prop.syncId, s.prop.base)
    requires Enabled(c, s, AckTruncate(m))
    ensures var t := Apply(c, s, AckTruncate(m)); Commanded(c, t, todo - {i}) && t.holes == s.holes
  {
  }

  /** Truncation is possible: whatever has happened, if there is more than one participant and the proposer has learned
      something since the last command, some continuation in which nobody learns anything brings everyone's base to the
      least last contiguous learn. */
  lemma CanTruncate(c: Config, run: seq<Event>) returns (more: seq<Event>)
    requires c.Valid() && IsRun(c, run) && |c.members| > 1
    requires After(c, run).prop.hole - 1 != After(c, run).prop.syncPrev
    ensures run <= more && IsRun(c, more)
    ensures var s := After(c, more);
      && s.holes == After(c, run).holes && Floor(c, s.holes, s.prop.base)
      && forall i :: i in c.members ==> i in s.bases && s.bases[i] == s.prop.base
  {
    hide Init, IsRun, After, Floor, Asked, Started;
    more := StartsRound(c, run);
    AllAsked(c, After(c, more));
    assert c.members == Others(c) + {c.proposer};
    more := AnswersCome(c, more, Others(c));
    more := CommandsArrive(c, more, Others(c));
    AllObeyed(c, After(c, more));
  }

  lemma AllObeyed(c: Config, s: System)
    requires Commanded(c, s, {})
    ensures forall i :: i in c.members ==> i in s.bases && s.bases[i] == s.prop.base
  {
    var none: set<Id> := {};
    assert c.members - none == c.members;
  }

  /** A proposer that has learned nothing since the last command starts no round; and then its base is that learn. */
  lemma NothingToDo(c: Config, run: seq<Event>)
    requires c.Valid() && IsRun(c, run) && After(c, run).prop.hole - 1 == After(c, run).prop.syncPrev
    ensures Apply(c, After(c, run), Tick) == After(c, run) && After(c, run).prop.base + 1 == After(c, run).prop.hole
  {
    hide Init;
    RunInv(c, run);
  }

  ghost function Ticks(n: nat): (ticks: seq<Event>)
    ensures |ticks| == n
  {
    if n == 0 then [] else Ticks(n - 1) + [Tick]
  }

  /** Without the answers it waits for, a new round is waited for during 29 ticks, and replaced at the thirtieth. */
  lemma {:induction false} RoundsAreReplaced(c: Config, run: seq<Event>, n: nat)
    requires c.Valid() && IsRun(c, run) && Started(c, After(c, run)) && n <= 30
    requires After(c, run).prop.hole - 1 != After(c, run).prop.syncPrev
    ensures IsRun(c, run + Ticks(n)) && SameLearns(After(c, run), After(c, run + Ticks(n)))
    ensures var s, t := After(c, run), After(c, run + Ticks(n));
      && t.prop.sync.Some? && t.prop.syncPrev == s.prop.syncPrev
      && (n < 30 ==> t.prop.syncId == s.prop.syncId && t.prop.sync.value.skips == n && t.net == s.net)
      && (n == 30 ==> t.prop.syncId == s.prop.syncId + 1 && Started(c, t))
  {
    hide Init, Inv, IsRun, After;
    if n == 0 {
      assert run + Ticks(0) == run;
    } else {
      RoundsAreReplaced(c, run, n - 1);
      var most := run + Ticks(n - 1);
      RunInv(c, most);
      HolePositive(c, After(c, most));
      OneMore(c, most, Tick);
      assert run + Ticks(n) == most + [Tick];
    }
  }
}
