/** Decree values, and what the message handlers do to a log of decrees, stated on finite maps from instance
    numbers to slots.  The protocol model runs on these functions; the imperative handlers over the linked
    instance list are proved against them. */
module DecreeLog {
  import opened Primitives

  datatype Kind = Null | Chat | Join | Part | Kill

  datatype Value = Value(kind: Kind, reqid: ReqId, extra: nat)

  /** The protocol-relevant part of one Paxos instance: the ballot in its header, the value, whether it is
      committed, and the proposer's vote count. */
  datatype Slot = Slot(ballot: Ballot, value: Value, committed: bool, votes: nat)

  /** What a promise says about one instance. */
  datatype Vote = Vote(ballot: Ballot, value: Value)

  type Log = map<nat, Slot>

  /** Majority of a list of n acceptors. */
  function Majority(n: nat): nat {
    n / 2 + 1
  }

  /** The decree is answered with an accept, given that the ballots already matched. */
  predicate Accepts(log: Log, b: Ballot, n: nat) {
    n !in log || log[n].committed || !Below(b, log[n].ballot)
  }

  /** The log after a decree whose ballot is the acceptor's own.  A committed slot keeps its header. */
  function AfterDecree(log: Log, b: Ballot, n: nat, v: Value): Log {
    if n !in log then
      log[n := Slot(b, v, false, 0)]
    else if log[n].committed || Below(b, log[n].ballot) then
      log
    else
      log[n := log[n].(ballot := b, value := v)]
  }

  /** The log after a commit: the value is overwritten whatever its ballot, and an existing header stays. */
  function AfterCommit(log: Log, b: Ballot, n: nat, v: Value): Log {
    if n !in log then
      log[n := Slot(b, v, true, 0)]
    else if log[n].committed then
      log
    else
      log[n := log[n].(value := v, committed := true)]
  }

  /** The log after a recommit: unless the slot is committed already, value and header are overwritten. */
  function AfterRecommit(log: Log, b: Ballot, n: nat, v: Value): Log {
    if n in log && log[n].committed then log else log[n := Slot(b, v, true, if n in log then log[n].votes else 0)]
  }

  /** Slot n belongs to the answer to a prepare for the given hole: everything from the hole on, and the
      greatest slot at or before the hole. */
  ghost predicate Reported(log: Log, hole: nat, n: nat) {
    n in log && (n >= hole || forall m | m in log && m <= hole :: m <= n)
  }

  ghost function Report(log: Log, hole: nat): map<nat, Vote> {
    map n | n in log && Reported(log, hole, n) :: Vote(log[n].ballot, log[n].value)
  }

  /** One slot of the preparer's log after a promise was merged in. */
  function MergeSlot(own: Slot, vote: Vote): Slot {
    if !own.committed && Below(own.ballot, vote.ballot) then
      Slot(vote.ballot, vote.value, false, 0)
    else
      own
  }

  /** A vote for an instance the preparer has not heard of. */
  function NewSlot(vote: Vote): Slot {
    Slot(vote.ballot, vote.value, false, 0)
  }

  /** The preparer's log after a promise: its own committed slots stay, otherwise the higher ballot wins. */
  function Merge(log: Log, votes: map<nat, Vote>): Log {
    map n | n in log.Keys + votes.Keys ::
      if n !in log then NewSlot(votes[n])
      else if n in votes then MergeSlot(log[n], votes[n])
      else log[n]
  }

  lemma SlotsCommute(own: Slot, v: Vote, w: Vote)
    requires v.ballot == w.ballot ==> v.value == w.value
    ensures MergeSlot(MergeSlot(own, v), w) == MergeSlot(MergeSlot(own, w), v)
    ensures MergeSlot(NewSlot(v), w) == MergeSlot(NewSlot(w), v)
  {
    CompareMeaning(v.ballot, w.ballot);
  }

  /** Where equal ballots carry equal values, the order in which promises arrive makes no difference. */
  lemma MergeCommutes(log: Log, v: map<nat, Vote>, w: map<nat, Vote>)
    requires forall n :: n in v && n in w && v[n].ballot == w[n].ballot ==> v[n].value == w[n].value
    ensures Merge(Merge(log, v), w) == Merge(Merge(log, w), v)
  {
    hide MergeSlot;
    forall n | n in log || n in v || n in w
      ensures Merge(Merge(log, v), w)[n] == Merge(Merge(log, w), v)[n]
    {
      if n in v && n in w {
        SlotsCommute(if n in log then log[n] else NewSlot(v[n]), v[n], w[n]);
      }
    }
  }

  /** The log and the request counter after re-decreeing, in ballot b, every uncommitted instance from n to
      last, with null decrees in the gaps. */
  function FinishFrom(log: Log, n: nat, last: nat, b: Ballot, self: nat, reqid: nat): (Log, nat)
    decreases last + 1 - n
  {
    if n > last then
      (log, reqid)
    else if n !in log then
      var fill := Slot(b, Value(Null, Pair(self, reqid + 1), 0), false, 1);
      FinishFrom(log[n := fill], n + 1, last, b, self, reqid + 1)
    else if !log[n].committed then
      FinishFrom(log[n := log[n].(ballot := b, votes := 1)], n + 1, last, b, self, reqid)
    else
      FinishFrom(log, n + 1, last, b, self, reqid)
  }

  /** The number m is filled with a null decree of ours whose request id is among those from low to high. */
  ghost predicate FilledNew(done: Log, m: nat, self: nat, low: nat, high: nat) {
    && m in done && done[m].value.kind == Null && done[m].value.extra == 0 && done[m].value.reqid.id == self
    && low < done[m].value.reqid.gen <= high
  }

  /** The null decrees that fill gaps get new request ids, each its own. */
  lemma {:induction false} FillsAreNew(log: Log, n: nat, last: nat, b: Ballot, self: nat, reqid: nat)
    ensures var (done, after) := FinishFrom(log, n, last, b, self, reqid);
      && reqid <= after
      && (forall m {:trigger FilledNew(done, m, self, reqid, after)} :: n <= m <= last && m !in log ==>
            FilledNew(done, m, self, reqid, after))
      && (forall m, k {:trigger FilledNew(done, m, self, reqid, after), FilledNew(done, k, self, reqid, after)} ::
            n <= m < k <= last && m !in log && k !in log ==>
              m in done && k in done && done[m].value.reqid.gen < done[k].value.reqid.gen)
    decreases last + 1 - n
  {
    var (done, after) := FinishFrom(log, n, last, b, self, reqid);
    if n <= last {
      var next := if n in log then reqid else reqid + 1;
      var more := if n !in log then log[n := Slot(b, Value(Null, Pair(self, reqid + 1), 0), false, 1)]
                  else if !log[n].committed then log[n := log[n].(ballot := b, votes := 1)] else log;
      FillsAreNew(more, n + 1, last, b, self, next);
      FillStays(more, n + 1, last, b, self, next, n);
      assert FinishFrom(more, n + 1, last, b, self, next) == (done, after);
      forall m | n <= m <= last && m !in log
        ensures FilledNew(done, m, self, reqid, after) && (m > n ==> FilledNew(done, m, self, next, after))
      {
        assert m > n ==> FilledNew(done, m, self, next, after);
      }
    }
  }

  lemma {:induction false} FillStays(log: Log, n: nat, last: nat, b: Ballot, self: nat, reqid: nat, m: nat)
    requires m in log && m < n
    ensures var done := FinishFrom(log, n, last, b, self, reqid).0; m in done && done[m] == log[m]
    decreases last + 1 - n
  {
    if n > last {
    } else if n !in log {
      var fill := Slot(b, Value(Null, Pair(self, reqid + 1), 0), false, 1);
      FillStays(log[n := fill], n + 1, last, b, self, reqid + 1, m);
    } else if !log[n].committed {
      FillStays(log[n := log[n].(ballot := b, votes := 1)], n + 1, last, b, self, reqid, m);
    } else {
      FillStays(log, n + 1, last, b, self, reqid, m);
    }
  }

  /** Re-decreeing touches exactly the numbers from n to last: it leaves no gap there, keeps committed slots,
      keeps the value of uncommitted ones, and fills the gaps with nulls. */
  lemma {:induction false} FinishMeaning(log: Log, n: nat, last: nat, b: Ballot, self: nat, reqid: nat)
    requires forall m :: m in log ==> m <= last
    ensures var done := FinishFrom(log, n, last, b, self, reqid).0;
      && (forall m :: m in done <==> m in log || n <= m <= last)
      && (forall m :: m in log && (m < n || log[m].committed) ==> done[m] == log[m])
      && (forall m :: m in log && m >= n && !log[m].committed ==>
            done[m] == Slot(b, log[m].value, false, 1))
      && (forall m :: n <= m <= last && m !in log ==>
            && done[m].ballot == b && done[m].value.kind == Null && done[m].value.reqid.id == self
            && !done[m].committed && done[m].votes == 1)
    decreases last + 1 - n
  {
    if n > last {
    } else if n !in log {
      var fill := Slot(b, Value(Null, Pair(self, reqid + 1), 0), false, 1);
      FinishMeaning(log[n := fill], n + 1, last, b, self, reqid + 1);
    } else if !log[n].committed {
      FinishMeaning(log[n := log[n].(ballot := b, votes := 1)], n + 1, last, b, self, reqid);
    } else {
      FinishMeaning(log, n + 1, last, b, self, reqid);
    }
  }

  /** The greatest instance number in a nonempty log. */
  ghost function Last(log: Log): (last: nat)
    requires log.Keys != {}
    ensures last in log && forall n :: n in log ==> n <= last
  {
    HasLast(log.Keys);
    var last :| last in log.Keys && forall n :: n in log.Keys ==> n <= last;
    last
  }

  lemma {:induction false} HasLast(s: set<nat>)
    requires s != {}
    ensures exists last :: last in s && forall n :: n in s ==> n <= last
  {
    var k :| k in s;
    var rest := s - {k};
    var top := k;
    if rest != {} {
      HasLast(rest);
      var r :| r in rest && forall n :: n in rest ==> n <= r;
      top := if k <= r then r else k;
    }
    forall n | n in s
      ensures n <= top
    {
      assert n == k || n in rest;
    }
    Greatest(s, top);
  }

  lemma Greatest(s: set<nat>, top: nat)
    requires top in s && forall n :: n in s ==> n <= top
    ensures exists last :: last in s && forall n :: n in s ==> n <= last
  {
  }
}
