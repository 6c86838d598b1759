/** The Trill role election: two connections exchange priority probes over datagrams until one is the TLS server
    and the other the client. */
module Trill {
  import opened Primitives

  type Byte = b: nat | b < 0x100
  type Word = w: nat | w < 0x1_0000_0000
  type Datagram = seq<Byte>

  const ACK: Byte := 99
  const NOACK: Byte := 100

  datatype State = Initial | Probing | Server | Client | Established

  /** A priority: two random words, the first the more significant. */
  datatype Priority = Priority(high: Word, low: Word)

  /** One end.  `reading` and `probing` say whether the probe reader and the probe timer are registered; `role`
      remembers, for the properties, which role was settled. */
  datatype Conn = Conn(state: State, priority: Priority, reading: bool, probing: bool, role: Option<State>)

  /** p is strictly greater than q. */
  predicate Greater(p: Priority, q: Priority) {
    p.high > q.high || (p.high == q.high && p.low > q.low)
  }

  // ---------------------------------------------------------------- probes

  /** A word in network order. */
  function Pack(w: Word): Datagram {
    [w / 0x100 / 0x100 / 0x100, w / 0x100 / 0x100 % 0x100, w / 0x100 % 0x100, w % 0x100]
  }

  function Shifted(w: nat, b: Byte): (r: nat)
    ensures w < 0x100 ==> r < 0x1_0000
    ensures w < 0x1_0000 ==> r < 0x100_0000
    ensures w < 0x100_0000 ==> r < 0x1_0000_0000
  {
    w * 0x100 + b
  }

  function Unpack(d: Datagram): Word
    requires |d| == 4
  {
    Shifted(Shifted(Shifted(d[0], d[1]), d[2]), d[3])
  }

  function Probe(tag: Byte, p: Priority): (d: Datagram)
    ensures |d| == 9 && d[0] == tag
  {
    [tag] + Pack(p.high) + Pack(p.low)
  }

  /** The priority in a probe. */
  function Sent(d: Datagram): Priority
    requires |d| == 9
  {
    Priority(Unpack(d[1..5]), Unpack(d[5..9]))
  }

  /** Reading a probe gives back the priority it was built from. */
  lemma SentProbe(tag: Byte, p: Priority)
    ensures Sent(Probe(tag, p)) == p
  {
  }

  /** A priority as one number of 64 bits. */
  function Number(p: Priority): nat {
    p.high * 0x1_0000_0000 + p.low
  }

  /** Priorities are compared as such numbers. */
  lemma GreaterMeans(p: Priority, q: Priority)
    ensures Greater(p, q) <==> Number(p) > Number(q)
  {
  }

  /** The number that four bytes spell, the first being the most significant. */
  function Spelled(a: Byte, b: Byte, c: Byte, d: Byte): nat {
    a * 0x100_0000 + b * 0x1_0000 + c * 0x100 + d
  }

  lemma PackSpells(w: Word)
    ensures var d := Pack(w); |d| == 4 && Spelled(d[0], d[1], d[2], d[3]) == w
  {
  }

  lemma UnpackSpells(d: Datagram)
    requires |d| == 4
    ensures Unpack(d) == Spelled(d[0], d[1], d[2], d[3])
  {
  }

  /** A probe is a tag and the two words of a priority, in network order. */
  lemma ProbeFormat(tag: Byte, p: Priority)
    ensures var d := Probe(tag, p);
      && |d| == 9 && d[0] == tag
      && Spelled(d[1], d[2], d[3], d[4]) == p.high && Spelled(d[5], d[6], d[7], d[8]) == p.low
  {
    hide Pack, Spelled;
    PackSpells(p.high);
    PackSpells(p.low);
    var d := Probe(tag, p);
    assert d[1..5] == Pack(p.high) && d[5..9] == Pack(p.low);
    assert forall i :: 0 <= i < 4 ==> d[1 + i] == Pack(p.high)[i] && d[5 + i] == Pack(p.low)[i];
    assert d[1] == Pack(p.high)[0] && d[5] == Pack(p.low)[0];
  }

  // ---------------------------------------------------------------- the handlers

  /** `trill_connect`, past the socket calls; in any state but the first it is refused. */
  function Connected(c: Conn): Conn {
    if c.state != Initial then c else c.(state := Probing, reading := true, probing := true)
  }

  /** `trill_connection_probe`: what the timer sends, until it unregisters itself. */
  function Timed(c: Conn): (Conn, Option<Datagram>) {
    match c.state
    case Probing => (c, Some(Probe(NOACK, c.priority)))
    case Server => (c, Some(Probe(ACK, c.priority)))
    case _ => (c.(probing := false), None)
  }

  /** `trill_connection_read_probe` on a received datagram. */
  function Answered(c: Conn, d: Datagram): (Conn, Option<Datagram>) {
    if |d| != 9 then
      (c, None)
    else if Sent(d) == c.priority then
      (c.(reading := false), None)
    else if Greater(Sent(d), c.priority) then
      (c.(state := Server, reading := false, role := Some(Server)), Some(Probe(ACK, c.priority)))
    else if d[0] == ACK then
      (c.(state := Client, reading := false, role := Some(Client)), None)
    else
      (c, None)
  }

  /** What the timer sends: tag 100 while probing, tag 99 as the server, each with our priority; otherwise it stops. */
  lemma TimerSends(c: Conn)
    ensures var (after, sent) := Timed(c);
      && after == c.(probing := c.probing && (c.state == Probing || c.state == Server))
      && (sent.Some? <==> c.state == Probing || c.state == Server)
      && (sent.Some? ==> |sent.value| == 9 && Sent(sent.value) == c.priority
                         && sent.value[0] == if c.state == Server then 99 else 100)
  {
    hide Sent, Probe;
    SentProbe(ACK, c.priority);
    SentProbe(NOACK, c.priority);
  }

  class Connection {
    var state: State
    var priority: array<Word>
    var reading: bool
    var probing: bool
    ghost var role: Option<State>

    ghost predicate Valid()
      reads this
    {
      priority.Length == 2
    }

    ghost function View(): Conn
      requires Valid()
      reads this, priority
    {
      Conn(state, Priority(priority[0], priority[1]), reading, probing, role)
    }

    /** `trill_connection_new`, given the two random words. */
    constructor (high: Word, low: Word)
      ensures Valid() && fresh(priority) && View() == Conn(Initial, Priority(high, low), false, false, None)
    {
      state, reading, probing, role := Initial, false, false, None;
      priority := new Word[2];
      new;
      priority[0], priority[1] := high, low;
    }

    method Connect()
      requires Valid()
      modifies this
      ensures Valid() && priority == old(priority) && View() == Connected(old(View()))
    {
      if state != Initial {
        return;
      }
      state, reading, probing := Probing, true, true;
    }

    method TimerProbe() returns (sent: Option<Datagram>)
      requires Valid() && state != Initial
      modifies this`probing
      ensures Valid() && (View(), sent) == Timed(old(View()))
    {
      var tag;
      if state == Probing {
        tag := NOACK;
      } else if state == Server {
        tag := ACK;
      } else {
        probing := false;
        return None;
      }
      sent := Some(Probe(tag, Priority(priority[0], priority[1])));
    }

    method ReadProbe(d: Datagram) returns (sent: Option<Datagram>)
      requires Valid() && state == Probing
      modifies this
      ensures Valid() && priority == old(priority) && (View(), sent) == Answered(old(View()), d)
    {
      hide Unpack, Pack, Probe;
      sent := None;
      if |d| != 9 {
        return;
      }
      var a, b := Unpack(d[1..5]), Unpack(d[5..9]);
      if a == priority[0] && b == priority[1] {
        reading := false;
        return;
      }
      var winning := a > priority[0] || (a == priority[0] && b > priority[1]);
      if winning {
        state := Server;
        role := Some(Server);
        sent := TimerProbe();
        reading := false;
      } else if !winning && d[0] == ACK {
        state := Client;
        role := Some(Client);
        reading := false;
      }
    }
  }

  // ---------------------------------------------------------------- the two ends and the network

  /** Both ends, and every datagram ever sent to each: any of them may arrive at any time, any number of times,
      or never. */
  datatype System = System(a: Conn, b: Conn, toA: set<Datagram>, toB: set<Datagram>)

  function Swap(s: System): System {
    System(s.b, s.a, s.toB, s.toA)
  }

  datatype Action = Dial | Timer | Receive(d: Datagram) | Handshake

  /** An action of end a, or else of end b. */
  datatype Event = Event(atA: bool, action: Action)

  /** A probe reaches a registered reader, or something that is no probe does.  The TLS handshake completes only
      between ends whose roles are settled. */
  ghost predicate EnabledA(s: System, x: Action) {
    match x
    case Dial => true
    case Timer => s.a.probing
    case Receive(d) => s.a.reading && (d in s.toA || |d| != 9)
    case Handshake => (s.a.state == Server || s.a.state == Client) && s.b.role.Some?
  }

  ghost function Emit(s: System, r: (Conn, Option<Datagram>)): System {
    s.(a := r.0, toB := if r.1.Some? then s.toB + {r.1.value} else s.toB)
  }

  ghost function ApplyA(s: System, x: Action): System {
    match x
    case Dial => s.(a := Connected(s.a))
    case Timer => Emit(s, Timed(s.a))
    case Receive(d) => Emit(s, Answered(s.a, d))
    case Handshake => s.(a := s.a.(state := Established))
  }

  ghost predicate Enabled(s: System, e: Event) {
    EnabledA(if e.atA then s else Swap(s), e.action)
  }

  ghost function Apply(s: System, e: Event): System {
    if e.atA then ApplyA(s, e.action) else Swap(ApplyA(Swap(s), e.action))
  }

  ghost function Start(p: Priority, q: Priority): System {
    System(Conn(Initial, p, false, false, None), Conn(Initial, q, false, false, None), {}, {})
  }

  ghost predicate IsRun(s: System, run: seq<Event>)
    decreases |run|
  {
    run == [] || (Enabled(s, run[0]) && IsRun(Apply(s, run[0]), run[1..]))
  }

  ghost function After(s: System, run: seq<Event>): System
    requires IsRun(s, run)
    decreases |run|
  {
    if run == [] then s else After(Apply(s, run[0]), run[1..])
  }

  // ---------------------------------------------------------------- the invariant

  /** What holds of an end, given its peer and what was sent to it. */
  ghost predicate EndOk(x: Conn, y: Conn, toX: set<Datagram>) {
    && (x.state == Initial ==> !x.reading && !x.probing && x.role == None)
    && (x.state == Probing ==> x.role == None && x.probing && (x.reading || x.priority == y.priority))
    && (x.state == Server ==> x.role == Some(Server) && x.probing)
    && (x.state == Client ==> x.role == Some(Client))
    && (x.state == Established ==> x.role.Some? && y.role.Some?)
    && (x.reading ==> x.state == Probing)
    && (x.role.Some? ==> x.role == Some(Server) || x.role == Some(Client))
    && (x.role == Some(Server) ==> Greater(y.priority, x.priority))
    && (x.role == Some(Client) ==> y.role == Some(Server))
    && (forall d {:trigger d in toX} :: d in toX ==>
          |d| == 9 && Sent(d) == y.priority && (d[0] == ACK ==> y.role == Some(Server)))
  }

  ghost predicate Inv(s: System) {
    EndOk(s.a, s.b, s.toA) && EndOk(s.b, s.a, s.toB)
  }

  lemma ReadKeeps(s: System, d: Datagram)
    requires Inv(s) && EnabledA(s, Receive(d))
    ensures Inv(ApplyA(s, Receive(d)))
  {
    hide Greater, Sent, Probe;
    SentProbe(ACK, s.a.priority);
    SentProbe(NOACK, s.a.priority);
    if |d| == 9 {
      Asymmetric(Sent(d), s.a.priority);
    }
  }

  lemma Asymmetric(p: Priority, q: Priority)
    ensures Greater(p, q) ==> !Greater(q, p) && p != q
    ensures p == q || Greater(p, q) || Greater(q, p)
  {
  }

  lemma StepKeepsA(s: System, x: Action)
    requires Inv(s) && EnabledA(s, x)
    ensures Inv(ApplyA(s, x))
  {
    hide Greater, Sent, Probe;
    match x
    case Receive(d) => ReadKeeps(s, d);
    case _ =>
      SentProbe(ACK, s.a.priority);
      SentProbe(NOACK, s.a.priority);
  }

  lemma StepKeeps(s: System, e: Event)
    requires Inv(s) && Enabled(s, e)
    ensures Inv(Apply(s, e))
    ensures Apply(s, e).a.priority == s.a.priority && Apply(s, e).b.priority == s.b.priority
  {
    hide EndOk, Sent, Probe, Greater;
    StepKeepsA(if e.atA then s else Swap(s), e.action);
  }

  lemma {:induction false} RunKeeps(s: System, run: seq<Event>)
    requires Inv(s) && IsRun(s, run)
    ensures Inv(After(s, run))
    ensures After(s, run).a.priority == s.a.priority && After(s, run).b.priority == s.b.priority
    decreases |run|
  {
    hide Inv, Apply, Enabled;
    if run != [] {
      StepKeeps(s, run[0]);
      RunKeeps(Apply(s, run[0]), run[1..]);
    }
  }

  // ---------------------------------------------------------------- safety

  /** No run gives both ends the same role; a client's peer has already become the server; the server is the end
      with the lower priority. */
  lemma ElectionSafety(p: Priority, q: Priority, run: seq<Event>)
    requires IsRun(Start(p, q), run)
    ensures var s := After(Start(p, q), run);
      && !(s.a.role.Some? && s.a.role == s.b.role)
      && (s.a.role == Some(Client) ==> s.b.role == Some(Server))
      && (s.b.role == Some(Client) ==> s.a.role == Some(Server))
      && (s.a.role == Some(Server) ==> Greater(q, p))
      && (s.b.role == Some(Server) ==> Greater(p, q))
  {
    hide Greater, Apply, Enabled, Sent;
    RunKeeps(Start(p, q), run);
    Asymmetric(p, q);
  }

  /** Tied ends never leave the probing state. */
  lemma TiesStay(p: Priority, run: seq<Event>)
    requires IsRun(Start(p, p), run)
    ensures var s := After(Start(p, p), run);
      && (s.a.state == Initial || s.a.state == Probing) && (s.b.state == Initial || s.b.state == Probing)
  {
    hide Greater, Apply, Enabled, Sent;
    RunKeeps(Start(p, p), run);
    Asymmetric(p, p);
  }

  /** An end that reads its own priority gives up: it answers nothing, and never reads again. */
  lemma TiesGiveUp(s: System, atA: bool, d: Datagram)
    requires Inv(s) && Enabled(s, Event(atA, Receive(d)))
    requires |d| == 9 && Sent(d) == (if atA then s.a else s.b).priority
    ensures var t := Apply(s, Event(atA, Receive(d)));
      if atA then !t.a.reading && t.a.state == s.a.state && t.toB == s.toB && t.b == s.b
      else !t.b.reading && t.b.state == s.b.state && t.toA == s.toA && t.a == s.a
  {
    hide Sent, Greater;
  }

  lemma NeverReadsAgain(s: System, e: Event)
    requires Inv(s) && Enabled(s, e)
    ensures s.a.state != Initial && !s.a.reading ==> Apply(s, e).a.state != Initial && !Apply(s, e).a.reading
    ensures s.b.state != Initial && !s.b.reading ==> Apply(s, e).b.state != Initial && !Apply(s, e).b.reading
  {
    hide Sent, Probe, Greater;
  }

  /** A settled role is never given up. */
  lemma RolesLast(s: System, e: Event)
    requires Inv(s) && Enabled(s, e)
    ensures s.a.role.Some? ==> Apply(s, e).a.role == s.a.role
    ensures s.b.role.Some? ==> Apply(s, e).b.role == s.b.role
  {
    hide Sent, Probe, Greater;
  }

  /** The asserts of the probe handlers: the timer never fires before connecting, and the reader only runs while
      probing. */
  lemma HandlersExpectTheirState(p: Priority, q: Priority, run: seq<Event>)
    requires IsRun(Start(p, q), run)
    ensures var s := After(Start(p, q), run);
      && (s.a.probing ==> s.a.state != Initial) && (s.a.reading ==> s.a.state == Probing)
      && (s.b.probing ==> s.b.state != Initial) && (s.b.reading ==> s.b.state == Probing)
  {
    hide Greater, Apply, Enabled, Sent;
    RunKeeps(Start(p, q), run);
  }

  // ---------------------------------------------------------------- possibility

  ghost predicate Settled(s: System) {
    || (s.a.role == Some(Server) && s.b.role == Some(Client))
    || (s.a.role == Some(Client) && s.b.role == Some(Server))
  }

  lemma {:induction false} RunsCompose(s: System, run: seq<Event>, more: seq<Event>)
    requires IsRun(s, run) && IsRun(After(s, run), more)
    ensures IsRun(s, run + more) && After(s, run + more) == After(After(s, run), more)
    decreases |run|
  {
    hide Apply, Enabled;
    if run == [] {
      assert run + more == more;
    } else {
      assert (run + more)[0] == run[0] && (run + more)[1..] == run[1..] + more;
      RunsCompose(Apply(s, run[0]), run[1..], more);
    }
  }

  /** One event, then a settling run. */
  lemma Prepend(s: System, e: Event, more: seq<Event>) returns (run: seq<Event>)
    requires Enabled(s, e) && IsRun(Apply(s, e), more) && Settled(After(Apply(s, e), more))
    ensures IsRun(s, run) && Settled(After(s, run))
  {
    hide Apply, Enabled, Settled;
    run := [e] + more;
    assert run[0] == e && run[1..] == more;
  }

  /** How far a state is from being settled with a as the server. */
  ghost function Distance(s: System): nat {
    (if s.a.state == Initial then 1 else 0) + (if s.b.state == Initial then 1 else 0)
    + (if s.a.role == None then 2 else 0) + (if s.b.role == None then 2 else 0)
    + (if s.toA == {} then 1 else 0) + (if Probe(ACK, s.a.priority) in s.toB then 0 else 1)
  }

  /** While a state is not settled, some event brings it nearer. */
  lemma Nearer(s: System) returns (e: Event)
    requires Inv(s) && Greater(s.b.priority, s.a.priority) && !(s.a.role.Some? && s.b.role.Some?)
    ensures Enabled(s, e) && Distance(Apply(s, e)) < Distance(s)
  {
    hide Sent, Probe, Greater;
    Asymmetric(s.b.priority, s.a.priority);
    SentProbe(ACK, s.a.priority);
    SentProbe(NOACK, s.b.priority);
    if s.a.state == Initial {
      e := Event(true, Dial);
    } else if s.b.state == Initial {
      e := Event(false, Dial);
    } else if s.a.role == None {
      if s.toA == {} {
        e := Event(false, Timer);
      } else {
        var d :| d in s.toA;
        e := Event(true, Receive(d));
      }
    } else if Probe(ACK, s.a.priority) !in s.toB {
      e := Event(true, Timer);
    } else {
      e := Event(false, Receive(Probe(ACK, s.a.priority)));
    }
  }

  lemma {:induction false} SettleA(s: System) returns (run: seq<Event>)
    requires Inv(s) && Greater(s.b.priority, s.a.priority)
    ensures IsRun(s, run) && Settled(After(s, run))
    decreases Distance(s)
  {
    hide IsRun, After, Sent, Probe, Greater, Apply, Enabled, Distance;
    Asymmetric(s.b.priority, s.a.priority);
    if s.a.role.Some? && s.b.role.Some? {
      run := [];
      NoEvents(s);
    } else {
      var e := Nearer(s);
      StepKeeps(s, e);
      var more := SettleA(Apply(s, e));
      run := Prepend(s, e, more);
    }
  }

  lemma NoEvents(s: System)
    ensures IsRun(s, []) && After(s, []) == s
  {
  }

  /** The mirror image of an event, and of a run. */
  ghost function Mirror(run: seq<Event>): (r: seq<Event>)
    ensures |r| == |run|
  {
    if run == [] then [] else [Event(!run[0].atA, run[0].action)] + Mirror(run[1..])
  }

  lemma {:induction false} MirrorRuns(s: System, run: seq<Event>)
    requires IsRun(s, run)
    ensures IsRun(Swap(s), Mirror(run)) && After(Swap(s), Mirror(run)) == Swap(After(s, run))
    decreases |run|
  {
    if run != [] {
      MirrorEvent(s, run[0]);
      MirrorRuns(Apply(s, run[0]), run[1..]);
      assert Mirror(run)[1..] == Mirror(run[1..]);
    }
  }

  lemma MirrorEvent(s: System, e: Event)
    requires Enabled(s, e)
    ensures Enabled(Swap(s), Event(!e.atA, e.action)) && Apply(Swap(s), Event(!e.atA, e.action)) == Swap(Apply(s, e))
  {
    hide EnabledA, ApplyA;
  }

  /** Whatever has happened between untied ends, some continuation settles one server and one client. */
  lemma CanSettle(p: Priority, q: Priority, run: seq<Event>) returns (more: seq<Event>)
    requires p != q && IsRun(Start(p, q), run)
    ensures IsRun(Start(p, q), run + more) && Settled(After(Start(p, q), run + more))
  {
    hide Greater, Apply, Enabled, Sent;
    RunKeeps(Start(p, q), run);
    Asymmetric(p, q);
    var s := After(Start(p, q), run);
    if Greater(q, p) {
      more := SettleA(s);
    } else {
      var mirrored := SettleA(Swap(s));
      MirrorRuns(Swap(s), mirrored);
      more := Mirror(mirrored);
    }
    RunsCompose(Start(p, q), run, more);
  }

  /** Both ends are through with probing: the handshake is done, and neither reads nor sends probes any more. */
  ghost predicate Done(c: Conn) {
    c.state == Established && !c.reading && !c.probing
  }

  /** One end completes the handshake, and its timer runs out. */
  lemma EndsUp(s: System) returns (run: seq<Event>)
    requires Inv(s) && s.a.role.Some? && s.b.role.Some?
    ensures IsRun(s, run)
    ensures var t := After(s, run); Inv(t) && Done(t.a) && t.a.role == s.a.role && t.b == s.b
  {
    hide Sent, Probe, Greater, IsRun, After;
    run := [];
    NoEvents(s);
    var t := s;
    if s.a.state != Established {
      StepKeeps(s, Event(true, Handshake));
      t := Apply(s, Event(true, Handshake));
      run := OneEvent(s, run, t, Event(true, Handshake));
    }
    if t.a.probing {
      StepKeeps(t, Event(true, Timer));
      var u := Apply(t, Event(true, Timer));
      run := OneEvent(s, run, u, Event(true, Timer));
    }
  }

  lemma OneEvent(s: System, run: seq<Event>, t: System, e: Event) returns (more: seq<Event>)
    requires IsRun(s, run) && Enabled(After(s, run), e) && t == Apply(After(s, run), e)
    ensures IsRun(s, more) && After(s, more) == t && more == run + [e]
  {
    hide Apply, Enabled;
    more := run + [e];
    var u := After(s, run);
    NoEvents(t);
    assert [e][0] == e && [e][1..] == [];
    RunsCompose(s, run, [e]);
  }

  /** And then, whatever has happened between untied ends, some continuation completes both handshakes. */
  lemma CanEstablish(p: Priority, q: Priority, run: seq<Event>) returns (more: seq<Event>)
    requires p != q && IsRun(Start(p, q), run)
    ensures IsRun(Start(p, q), run + more)
    ensures var s := After(Start(p, q), run + more); Settled(s) && Done(s.a) && Done(s.b)
  {
    hide Greater, Apply, Enabled, Sent, IsRun, After, Inv;
    var first := CanSettle(p, q, run);
    StartsWell(p, q);
    RunKeeps(Start(p, q), run + first);
    var s := After(Start(p, q), run + first);
    var mine := EndsUp(s);
    var t := After(s, mine);
    Mirrored(t);
    var mirrored := EndsUp(Swap(t));
    MirrorRuns(Swap(t), mirrored);
    var its := Mirror(mirrored);
    RunsCompose(s, mine, its);
    RunsCompose(Start(p, q), run + first, mine + its);
    more := first + (mine + its);
    assert run + more == run + first + (mine + its);
  }

  lemma StartsWell(p: Priority, q: Priority)
    ensures Inv(Start(p, q))
  {
  }

  lemma Mirrored(s: System)
    requires Inv(s)
    ensures Inv(Swap(s)) && Swap(Swap(s)) == s
  {
  }
}
