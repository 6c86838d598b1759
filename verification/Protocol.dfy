/** The Multi-Paxos engine as a state machine: one node state per acceptor, a multiset of messages in flight,
    and one event per message handler.  A message is delivered at most once, in any order, or lost. */
module Protocol {
  import opened Primitives
  import opened DecreeLog

  type Id = nat

  /** A fixed membership that starts from a common snapshot: every member has committed and learned the
      values `snapshot`, numbered from `base`, under the ballot `reign`, whose owner is the proposer. */
  datatype Config = Config(members: set<Id>, base: nat, snapshot: seq<Value>, reign: Ballot) {
    ghost predicate Valid() {
      reign.id in members && |snapshot| > 0
    }
    function Majority(): nat { DecreeLog.Majority(|members|) }
    ghost predicate Quorum(s: set<Id>) {
      s <= members && |s| >= Majority()
    }
  }

  /** A pending prepare: its ballot and the bare counter of promises, the preparer's own included. */
  datatype Prep = Prep(ballot: Ballot, acks: nat)

  /** The session fields the protocol reads.  `proposer` is the acceptor this node believes to propose; a node
      that believes in itself and has no pending prepare has prepared successfully. */
  datatype Node = Node(ballot: Ballot, genHigh: nat, proposer: Id, prep: Option<Prep>,
                       hole: nat, log: Log, reqid: nat)

  datatype Msg =
    | Prepare(src: Id, dst: Id, ballot: Ballot, hole: nat)
    | Promise(src: Id, dst: Id, ballot: Ballot, votes: map<nat, Vote>)
    | Decree(src: Id, dst: Id, ballot: Ballot, inum: nat, value: Value)
    | Accept(src: Id, dst: Id, ballot: Ballot, inum: nat)
    | Commit(src: Id, dst: Id, ballot: Ballot, inum: nat, value: Value, again: bool)
    | Retry(src: Id, dst: Id, ballot: Ballot, inum: nat)

  /** A ballot and a quorum that voted for its decree. */
  datatype Choice = Choice(ballot: Ballot, quorum: set<Id>)

  datatype Promised = Promised(from: nat, votes: map<nat, Vote>)

  /** History variables.  No event's guard and no node or message field depends on them; they record what has
      happened so that invariants can speak about it.
      decreed: the value each ballot decreed for each instance;
      voted: who voted for which ballot's decree;
      chosen: for each instance, the first ballot whose decree a majority voted for, with that majority;
      promised: what each acceptor reported in its promise for a ballot;
      prepared: the promise majority of every successful prepare;
      ackers: whose promises a node's pending prepare has counted;
      counted: whose votes a decree's proposer has counted. */
  datatype History = History(
    decreed: map<(Ballot, nat), Value>,
    voted: set<(Id, Ballot, nat)>,
    chosen: map<nat, Choice>,
    promised: map<(Id, Ballot), Promised>,
    prepared: map<Ballot, set<Id>>,
    ackers: map<Id, set<Id>>,
    counted: set<(Id, Ballot, nat)>)

  datatype System = System(nodes: map<Id, Node>, net: multiset<Msg>, hist: History)

  datatype Event =
    | Lose(msg: Msg)
    | StartPrepare(node: Id)
    | Follow(node: Id, proposer: Id)
    | AckPrepare(msg: Msg)
    | AckPromise(msg: Msg)
    | AckDecree(msg: Msg)
    | AckAccept(msg: Msg)
    | AckCommit(msg: Msg)
    | Propose(node: Id, value: Value)
    | AskAgain(node: Id)
    | AckRetry(msg: Msg)
    | Advance(node: Id)

  // ---------------------------------------------------------------- initial state

  ghost function Top(c: Config): nat { c.base + |c.snapshot| }

  ghost predicate InSnapshot(c: Config, n: nat) { c.base <= n < Top(c) }

  ghost function InitNode(c: Config): Node {
    Node(c.reign, c.reign.gen, c.reign.id, None, Top(c),
         map n: nat | n < Top(c) && InSnapshot(c, n) :: Slot(c.reign, c.snapshot[n - c.base], true, 1), 0)
  }

  ghost function Init(c: Config): System {
    System(
      map i | i in c.members :: InitNode(c),
      multiset{},
      History(
        map n: nat | n < Top(c) && InSnapshot(c, n) :: (c.reign, n) := c.snapshot[n - c.base],
        set i, n: nat | i in c.members && n < Top(c) && InSnapshot(c, n) :: (i, c.reign, n),
        map n: nat | n < Top(c) && InSnapshot(c, n) :: Choice(c.reign, c.members),
        map[],
        map[c.reign := c.members],
        map[],
        {}))
  }

  // ---------------------------------------------------------------- broadcasts

  ghost function Prepares(c: Config, src: Id, b: Ballot, hole: nat): multiset<Msg> {
    multiset(set d | d in c.members - {src} :: Prepare(src, d, b, hole))
  }

  /** Decrees for the instances ns of src's log. */
  ghost function Decrees(c: Config, src: Id, b: Ballot, ns: set<nat>, log: Log): multiset<Msg>
    requires ns <= log.Keys
  {
    multiset(set d, n | d in c.members - {src} && n in ns :: Decree(src, d, b, n, log[n].value))
  }

  /** Commits, or recommits if they are sent again. */
  ghost function Commits(c: Config, src: Id, b: Ballot, n: nat, v: Value, again: bool): multiset<Msg> {
    multiset(set d | d in c.members - {src} :: Commit(src, d, b, n, v, again))
  }

  // ---------------------------------------------------------------- history updates

  ghost function Voters(c: Config, voted: set<(Id, Ballot, nat)>, b: Ballot, n: nat): set<Id> {
    set a | a in c.members && (a, b, n) in voted
  }

  /** Record that a voted for ballot b's decree of n, and that n is chosen if that completes the first
      majority. */
  ghost function AddVote(c: Config, h: History, a: Id, b: Ballot, n: nat): History {
    var voted := h.voted + {(a, b, n)};
    var who := Voters(c, voted, b, n);
    h.(voted := voted,
       chosen := if n !in h.chosen && |who| >= c.Majority() then h.chosen[n := Choice(b, who)] else h.chosen)
  }

  /** The acceptors whose promises node i's pending prepare has counted. */
  ghost function AckersOf(h: History, i: Id): set<Id> {
    if i in h.ackers then h.ackers[i] else {}
  }

  // ---------------------------------------------------------------- handlers

  predicate Prepared(nodes: map<Id, Node>, i: Id)
    requires i in nodes
  {
    nodes[i].proposer == i && nodes[i].prep == None
  }

  /** `proposer_prepare`: a new ballot above every generation this node has in its high-water mark. */
  ghost function DoPrepare(c: Config, s: System, i: Id): System
    requires i in s.nodes
  {
    var nd := s.nodes[i];
    var b := Pair(i, nd.genHigh + 1);
    System(s.nodes[i := nd.(genHigh := nd.genHigh + 1, proposer := i, prep := Some(Prep(b, 1)))],
           s.net + Prepares(c, i, b, nd.hole),
           s.hist.(ackers := s.hist.ackers[i := {i}]))
  }

  /** `acceptor_promise`: note that the high-water mark is assigned, not maximized. */
  ghost function DoPromise(s: System, m: Msg): System
    requires m.Prepare? && m.dst in s.nodes
  {
    var nd := s.nodes[m.dst];
    var votes := Report(nd.log, m.hole);
    System(s.nodes[m.dst := nd.(ballot := m.ballot, genHigh := m.ballot.gen)],
           s.net - multiset{m} + multiset{Promise(m.dst, m.src, m.ballot, votes)},
           s.hist.(promised := s.hist.promised[(m.dst, m.ballot) := Promised(m.hole, votes)]))
  }

  /** First part of `proposer_ack_promise`: merge the votes and count the promise. */
  ghost function Collect(s: System, m: Msg): System
    requires m.Promise? && m.dst in s.nodes && s.nodes[m.dst].prep.Some?
  {
    var nd := s.nodes[m.dst];
    var prep := nd.prep.value;
    System(s.nodes[m.dst := nd.(log := Merge(nd.log, m.votes), prep := Some(prep.(acks := prep.acks + 1)))],
           s.net - multiset{m},
           s.hist.(ackers := s.hist.ackers[m.dst := AckersOf(s.hist, m.dst) + {m.src}]))
  }

  /** The instances a finished prepare decreed: those from the hole on that are not committed. */
  ghost function Open(log: Log, hole: nat): set<nat> {
    set n | n in log && n >= hole && !log[n].committed
  }

  /** Second part of `proposer_ack_promise`: take the ballot, re-decree and fill. */
  ghost function FinishPrepare(c: Config, s: System, i: Id): System
    requires i in s.nodes && s.nodes[i].prep.Some? && s.nodes[i].log.Keys != {}
  {
    var nd := s.nodes[i];
    var b := nd.prep.value.ballot;
    var (log, reqid) := FinishFrom(nd.log, nd.hole, Last(nd.log), b, i, nd.reqid);
    var open := Open(log, nd.hole);
    var h := s.hist;
    System(s.nodes[i := nd.(ballot := b, prep := None, log := log, reqid := reqid)],
           s.net + Decrees(c, i, b, open, log),
           h.(decreed := h.decreed + (map n | n in open :: (b, n) := log[n].value),
              voted := h.voted + (set n | n in open :: (i, b, n)),
              counted := h.counted + (set n | n in open :: (i, b, n)),
              prepared := h.prepared[b := AckersOf(h, i)]))
  }

  ghost function DoAckPromise(c: Config, s: System, m: Msg): System
    requires m.Promise? && m.dst in s.nodes && s.nodes[m.dst].prep.Some?
    requires s.nodes[m.dst].log.Keys != {}
  {
    var t := Collect(s, m);
    if t.nodes[m.dst].prep.value.acks < c.Majority() then t else FinishPrepare(c, t, m.dst)
  }

  /** The part of `acceptor_ack_decree` that accepts. */
  ghost function DoAccept(c: Config, s: System, m: Msg): System
    requires m.Decree? && m.dst in s.nodes
  {
    var nd := s.nodes[m.dst];
    System(s.nodes[m.dst := nd.(log := AfterDecree(nd.log, m.ballot, m.inum, m.value))],
           s.net - multiset{m} + multiset{Accept(m.dst, m.src, m.ballot, m.inum)},
           AddVote(c, s.hist, m.dst, m.ballot, m.inum))
  }

  /** `acceptor_ack_decree` once the ballots matched. */
  ghost function DoAckDecree(c: Config, s: System, m: Msg): System
    requires m.Decree? && m.dst in s.nodes
  {
    if Accepts(s.nodes[m.dst].log, m.ballot, m.inum) then DoAccept(c, s, m) else DoLose(s, m)
  }

  /** `proposer_commit`: mark the slot and broadcast. */
  ghost function DoCommit(c: Config, s: System, i: Id, n: nat): System
    requires i in s.nodes && n in s.nodes[i].log
  {
    var nd := s.nodes[i];
    var slot := nd.log[n];
    s.(nodes := s.nodes[i := nd.(log := nd.log[n := slot.(committed := true)])],
       net := s.net + Commits(c, i, slot.ballot, n, slot.value, false))
  }

  /** The vote counter of n at node i becomes one higher. */
  ghost function CountVote(s: System, m: Msg): System
    requires m.Accept? && m.dst in s.nodes && m.inum in s.nodes[m.dst].log
  {
    var nd := s.nodes[m.dst];
    var slot := nd.log[m.inum];
    System(s.nodes[m.dst := nd.(log := nd.log[m.inum := slot.(votes := slot.votes + 1)])],
           s.net - multiset{m},
           s.hist.(counted := s.hist.counted + {(m.src, m.ballot, m.inum)}))
  }

  /** `proposer_ack_accept` */
  ghost function DoAckAccept(c: Config, s: System, m: Msg): System
    requires m.Accept? && m.dst in s.nodes && m.inum in s.nodes[m.dst].log
  {
    var t := CountVote(s, m);
    var slot := t.nodes[m.dst].log[m.inum];
    if !slot.committed && slot.votes >= c.Majority() then DoCommit(c, t, m.dst, m.inum) else t
  }

  /** `acceptor_ack_commit` and `acceptor_ack_recommit`: no ballot is checked. */
  ghost function DoAckCommit(s: System, m: Msg): System
    requires m.Commit? && m.dst in s.nodes
  {
    var nd := s.nodes[m.dst];
    var log := if m.again then AfterRecommit(nd.log, m.ballot, m.inum, m.value)
               else AfterCommit(nd.log, m.ballot, m.inum, m.value);
    s.(nodes := s.nodes[m.dst := nd.(log := log)], net := s.net - multiset{m})
  }

  /** `acceptor_retry`: ask the proposer for the commit of the hole.  The header holds our own ballot. */
  ghost function DoAskAgain(s: System, i: Id): System
    requires i in s.nodes
  {
    var nd := s.nodes[i];
    s.(net := s.net + multiset{Retry(i, nd.proposer, nd.ballot, nd.hole)})
  }

  /** `proposer_ack_retry`: send the commit again, to everyone, under the header of the one who asked. */
  ghost function DoAckRetry(c: Config, s: System, m: Msg): System
    requires m.Retry? && m.dst in s.nodes
  {
    var log := s.nodes[m.dst].log;
    if m.inum in log && log[m.inum].committed then
      s.(net := s.net - multiset{m} + Commits(c, m.dst, m.ballot, m.inum, log[m.inum].value, true))
    else
      DoLose(s, m)
  }

  /** `next_instance` */
  ghost function NextInstance(log: Log): nat {
    if log.Keys == {} then 1 else Last(log) + 1
  }

  /** `proposer_decree`, up to the broadcast. */
  ghost function DoDecree(c: Config, s: System, i: Id, v: Value): System
    requires i in s.nodes
  {
    var nd := s.nodes[i];
    var n := NextInstance(nd.log);
    var log := nd.log[n := Slot(nd.ballot, v, false, 1)];
    var h := AddVote(c, s.hist, i, nd.ballot, n);
    System(s.nodes[i := nd.(log := log)],
           s.net + Decrees(c, i, nd.ballot, {n}, log),
           h.(decreed := h.decreed[(nd.ballot, n) := v], counted := h.counted + {(i, nd.ballot, n)}))
  }

  /** `proposer_decree` */
  ghost function DoPropose(c: Config, s: System, i: Id, v: Value): System
    requires i in s.nodes
  {
    var t := DoDecree(c, s, i, v);
    if 1 >= c.Majority() then DoCommit(c, t, i, NextInstance(s.nodes[i].log)) else t
  }

  // ---------------------------------------------------------------- runs

  /** Becoming the proposer, or preparing again.  A proposer that has prepared never prepares again. */
  ghost predicate CanPrepare(s: System, i: Id) {
    i in s.nodes && !Prepared(s.nodes, i)
  }

  /** Recognizing another acceptor as the proposer; a pending prepare is given up. */
  ghost predicate CanFollow(c: Config, s: System, i: Id, p: Id) {
    i in s.nodes && p in c.members && p != i && !Prepared(s.nodes, i)
  }

  ghost function DoFollow(s: System, i: Id, p: Id): System
    requires i in s.nodes
  {
    s.(nodes := s.nodes[i := s.nodes[i].(proposer := p, prep := None)])
  }

  ghost predicate CanAckPrepare(s: System, m: Msg) {
    && m.Prepare? && m in s.net && m.dst in s.nodes
    && s.nodes[m.dst].proposer == m.src && Below(s.nodes[m.dst].ballot, m.ballot)
  }

  ghost predicate CanAckPromise(s: System, m: Msg) {
    && m.Promise? && m in s.net && m.dst in s.nodes && s.nodes[m.dst].proposer == m.dst
    && s.nodes[m.dst].prep.Some? && s.nodes[m.dst].prep.value.ballot == m.ballot
    && s.nodes[m.dst].log.Keys != {}
  }

  ghost predicate CanAckDecree(s: System, m: Msg) {
    && m.Decree? && m in s.net && m.dst in s.nodes
    && s.nodes[m.dst].proposer != m.dst && s.nodes[m.dst].proposer == m.ballot.id
    && s.nodes[m.dst].ballot == m.ballot
  }

  ghost predicate CanAckAccept(s: System, m: Msg) {
    && m.Accept? && m in s.net && m.dst in s.nodes && s.nodes[m.dst].proposer == m.dst
    && m.ballot == s.nodes[m.dst].ballot && m.inum in s.nodes[m.dst].log
  }

  ghost predicate CanAckCommit(s: System, m: Msg) {
    m.Commit? && m in s.net && m.dst in s.nodes && s.nodes[m.dst].proposer != m.dst
  }

  ghost predicate CanPropose(s: System, i: Id) {
    i in s.nodes && Prepared(s.nodes, i)
  }

  /** A commit beyond the hole has come, and the hole is missing or not committed. */
  ghost predicate CanAskAgain(s: System, i: Id) {
    && i in s.nodes && s.nodes[i].proposer != i
    && var nd := s.nodes[i];
       && !(nd.hole in nd.log && nd.log[nd.hole].committed)
       && exists n :: n in nd.log && n > nd.hole && nd.log[n].committed
  }

  ghost predicate CanAckRetry(s: System, m: Msg) {
    m.Retry? && m in s.net && m.dst in s.nodes && s.nodes[m.dst].proposer == m.dst
  }

  /** The hole moves past a committed instance. */
  ghost predicate CanAdvance(s: System, i: Id) {
    i in s.nodes && s.nodes[i].hole in s.nodes[i].log && s.nodes[i].log[s.nodes[i].hole].committed
  }

  ghost function DoAdvance(s: System, i: Id): System
    requires i in s.nodes
  {
    s.(nodes := s.nodes[i := s.nodes[i].(hole := s.nodes[i].hole + 1)])
  }

  ghost function DoLose(s: System, m: Msg): System {
    s.(net := s.net - multiset{m})
  }

  /** When an event can happen. */
  ghost predicate Enabled(c: Config, s: System, e: Event) {
    match e
    case Lose(m) => m in s.net
    case StartPrepare(i) => CanPrepare(s, i)
    case Follow(i, p) => CanFollow(c, s, i, p)
    case AckPrepare(m) => CanAckPrepare(s, m)
    case AckPromise(m) => CanAckPromise(s, m)
    case AckDecree(m) => CanAckDecree(s, m)
    case AckAccept(m) => CanAckAccept(s, m)
    case AckCommit(m) => CanAckCommit(s, m)
    case Propose(i, v) => CanPropose(s, i)
    case AskAgain(i) => CanAskAgain(s, i)
    case AckRetry(m) => CanAckRetry(s, m)
    case Advance(i) => CanAdvance(s, i)
  }

  /** What it does. */
  ghost function Apply(c: Config, s: System, e: Event): System
    requires Enabled(c, s, e)
  {
    match e
    case Lose(m) => DoLose(s, m)
    case StartPrepare(i) => DoPrepare(c, s, i)
    case Follow(i, p) => DoFollow(s, i, p)
    case AckPrepare(m) => DoPromise(s, m)
    case AckPromise(m) => DoAckPromise(c, s, m)
    case AckDecree(m) => DoAckDecree(c, s, m)
    case AckAccept(m) => DoAckAccept(c, s, m)
    case AckCommit(m) => DoAckCommit(s, m)
    case Propose(i, v) => DoPropose(c, s, i, v)
    case AskAgain(i) => DoAskAgain(s, i)
    case AckRetry(m) => DoAckRetry(c, s, m)
    case Advance(i) => DoAdvance(s, i)
  }

  /** A run: the events so far can happen one after the other from the initial state. */
  ghost predicate IsRun(c: Config, run: seq<Event>)
    decreases |run|, 0
  {
    run == [] || (IsRun(c, run[..|run| - 1]) && Enabled(c, After(c, run[..|run| - 1]), run[|run| - 1]))
  }

  /** The state a run leads to. */
  ghost function After(c: Config, run: seq<Event>): System
    requires IsRun(c, run)
    decreases |run|, 1
  {
    if run == [] then Init(c) else Apply(c, After(c, run[..|run| - 1]), run[|run| - 1])
  }

  /** A recommit that would put a lower ballot into the header of an uncommitted instance. */
  ghost predicate Lowers(s: System, e: Event) {
    && e.AckCommit? && e.msg.Commit? && e.msg.again && e.msg.dst in s.nodes
    && var log := s.nodes[e.msg.dst].log;
       e.msg.inum in log && !log[e.msg.inum].committed && Below(e.msg.ballot, log[e.msg.inum].ballot)
  }

  /** A run in which no recommit lowers a header. */
  ghost predicate Orderly(c: Config, run: seq<Event>) {
    && IsRun(c, run)
    && (run == [] || (Orderly(c, run[..|run| - 1]) && !Lowers(After(c, run[..|run| - 1]), run[|run| - 1])))
  }
}
