/** Runs of a PAP printer and its port. */
module PortRuns {
  import opened Words
  import opened PapSpec
  import opened PortSpec
  import AtpSpec
  import PapRuns

  datatype Action =
    | Datagram(socket: u8, src: Address, q: AtpSpec.AtpPacket, now: Micros)
    | Tick(now: Micros)
    | Input(data: seq<byte>, now: Micros)
    | BeginWrite
    | EndWrite(n: nat, now: Micros)
    | Report

  /** `said` is what the role has said, `handed` what the port was given, `reported` the events
      returned, each with the number of bytes it followed. */
  datatype History = History(said: seq<PapEvent>, handed: seq<byte>, reported: seq<(nat, PrinterEvent)>)

  datatype State = State(port: Port, h: History)

  /** Replies to pulls bring at most what a pull asks for. */
  ghost predicate RepliesFit(conn: AtpSpec.Atp) {
    forall i :: 0 <= i < |conn.events| && conn.events[i].ResponseEvent? ==> |conn.events[i].data| <= PULL_CAPACITY
  }

  ghost predicate Can(s: Port, act: Action) {
    match act
    case Datagram(socket, src, q, _) => RepliesFit(AtpSpec.HandleDatagram(s.role.conn, src, q))
    case EndWrite(n, _) => n <= s.writing
    case Report => EventReady(s)
    case _ => true
  }

  ghost function PortAfter(s: Port, act: Action): Port
    requires Can(s, act)
  {
    match act
    case Datagram(socket, src, q, now) => OnDatagram(s, socket, src, q, now)
    case Tick(now) => OnTick(s, now)
    case Input(data, now) => OnInput(s, data, now)
    case BeginWrite => TakeWrite(s)
    case EndWrite(n, now) => WriteOver(s, n, now)
    case Report => TakeEvent(s)
  }

  /** The role events the action settles. */
  ghost function Says(s: Port, act: Action): seq<PapEvent> {
    match act
    case Datagram(socket, src, q, now) => PapSpec.HandleDatagram(s.role, socket, src, q, now).events
    case Tick(now) => PapSpec.Poll(s.role, now).events
    case Input(data, now) => QueueOutput(s.role, data, now).events
    case EndWrite(_, _) => s.role.events
    case _ => []
  }

  ghost function Recorded(h: History, s: Port, act: Action): History
    requires Can(s, act)
  {
    var t := h.(said := h.said + Says(s, act));
    match act
    case BeginWrite => t.(handed := h.handed + NextWrite(s))
    case Report => t.(reported := h.reported + [s.events[0]])
    case _ => t
  }

  ghost predicate Next(s: State, act: Action, s': State) {
    Can(s.port, act) && s'.port == PortAfter(s.port, act) && s'.h == Recorded(s.h, s.port, act)
  }

  /** A printer as bound: nothing held, the first window granted. */
  ghost predicate IsStart(s: State, now: Micros) {
    && (exists l: u8, c: u8, status: seq<byte> ::
          s.port == Settle(Port(SetStatus(NewServer(l, c), status), [], 0, 0, 0, []), now))
    && s.h == History([], [], [])
  }

  ghost predicate IsRun(states: seq<State>, acts: seq<Action>, now: Micros) {
    && |states| == |acts| + 1 && IsStart(states[0], now)
    && forall i :: 0 <= i < |acts| ==> Next(states[i], acts[i], states[i + 1])
  }

  // ---- order --------------------------------------------------------------------------------------

  /** The job bytes among the role's events. */
  function Bytes(said: seq<PapEvent>): seq<byte> {
    if said == [] then [] else
    Bytes(said[..|said| - 1]) + (if said[|said| - 1].ToPrinter? then said[|said| - 1].bytes else [])
  }

  /** The other events, each with the number of bytes that came before it. */
  function Marks(said: seq<PapEvent>): seq<(nat, PrinterEvent)> {
    if said == [] then [] else
    var front, ev := said[..|said| - 1], said[|said| - 1];
    Marks(front) + (if ev.ToPrinter? then [] else [(|Bytes(front)|, Announced(ev))])
  }

  predicate OrderOk(s: Port, h: History) {
    && h.handed + s.toPrinter == Bytes(h.said)
    && |h.handed| == s.writtenTotal + s.writing
    && s.queuedTotal == |Bytes(h.said)|
    && h.reported + s.events == Marks(h.said)
    && (forall i :: 0 <= i < |h.reported| ==> h.reported[i].0 <= s.writtenTotal)
  }

  lemma {:induction false} SortOne(s: Port, h: History, ev: PapEvent)
    requires OrderOk(s, h)
    ensures OrderOk(SortEvent(s, ev), h.(said := h.said + [ev]))
    ensures SortEvent(s, ev).role == s.role && SortEvent(s, ev).writing == s.writing
  {
    assert (h.said + [ev])[..|h.said|] == h.said;
  }

  lemma {:induction false} SortAll(s: Port, h: History, evs: seq<PapEvent>)
    requires OrderOk(s, h)
    ensures OrderOk(Sorted(s, evs), h.(said := h.said + evs))
    ensures Sorted(s, evs).role == s.role && Sorted(s, evs).writing == s.writing
    decreases |evs|
  {
    if evs == [] {
      assert h.said + evs == h.said;
    } else {
      var front, ev := evs[..|evs| - 1], evs[|evs| - 1];
      SortAll(s, h, front);
      SortOne(Sorted(s, front), h.(said := h.said + front), ev);
      assert h.said + front + [ev] == h.said + evs;
    }
  }

  lemma {:induction false} SettleOrders(s: Port, h: History, now: Micros)
    requires OrderOk(s, h)
    ensures OrderOk(Settle(s, now), h.(said := h.said + s.role.events))
  {
    SortAll(s, h, s.role.events);
  }

  lemma {:induction false} WriteOrders(s: Port, h: History)
    requires OrderOk(s, h)
    ensures OrderOk(TakeWrite(s), h.(handed := h.handed + NextWrite(s)))
  {
    assert s.toPrinter == NextWrite(s) + s.toPrinter[|NextWrite(s)|..];
    assert h.handed + NextWrite(s) + s.toPrinter[|NextWrite(s)|..] == h.handed + s.toPrinter;
  }

  lemma {:induction false} ReportOrders(s: Port, h: History)
    requires OrderOk(s, h) && EventReady(s)
    ensures OrderOk(TakeEvent(s), h.(reported := h.reported + [s.events[0]]))
  {
    assert h.reported + [s.events[0]] + s.events[1..] == h.reported + s.events;
  }

  lemma {:induction false} OrderKept(s: State, act: Action, s': State)
    requires OrderOk(s.port, s.h) && Next(s, act, s')
    ensures OrderOk(s'.port, s'.h)
  {
    match act
    case Datagram(socket, src, q, now) =>
      SettleOrders(s.port.(role := PapSpec.HandleDatagram(s.port.role, socket, src, q, now)), s.h, now);
    case Tick(now) => SettleOrders(s.port.(role := PapSpec.Poll(s.port.role, now)), s.h, now);
    case Input(data, now) => SettleOrders(s.port.(role := QueueOutput(s.port.role, data, now)), s.h, now);
    case BeginWrite => assert s.h.said + [] == s.h.said; WriteOrders(s.port, s.h);
    case EndWrite(n, now) =>
      SettleOrders(s.port.(writing := s.port.writing - n, writtenTotal := s.port.writtenTotal + n), s.h, now);
    case Report => assert s.h.said + [] == s.h.said; ReportOrders(s.port, s.h);
  }

  // ---- flow ---------------------------------------------------------------------------------------

  function Out(p: PapServer): nat {
    PapRuns.Outstanding(p.session)
  }

  function Room(p: PapServer): bool {
    p.sinkCredit >= PULL_CAPACITY
  }

  predicate Quiet(p: PapServer) {
    p.events == [] && p.conn.events == [] && p.listener.events == []
  }

  /** A reply takes the outstanding pull with it; a new pull needs room. */
  predicate Flows(p: PapServer, p': PapServer) {
    && p'.sinkCredit == p.sinkCredit
    && |Bytes(p'.events)| <= PULL_CAPACITY * Out(p)
    && (Room(p) || |Bytes(p'.events)| + PULL_CAPACITY * Out(p') <= PULL_CAPACITY * Out(p))
  }

  lemma {:induction false} BytesSnoc(said: seq<PapEvent>, ev: PapEvent)
    ensures Bytes(said + [ev]) == Bytes(said) + (if ev.ToPrinter? then ev.bytes else [])
  {
    assert (said + [ev])[..|said|] == said;
  }

  lemma {:induction false} ListenerSaysNoBytes(p: PapServer, evs: seq<AtpSpec.AtpEvent>, now: Micros)
    requires p.events == []
    ensures var p' := ListenerEvents(p, evs, now);
            && Bytes(p'.events) == [] && Out(p') == Out(p) && p'.conn == p.conn && p'.sinkCredit == p.sinkCredit
            && p'.listener.events == p.listener.events
    decreases |evs|
  {
    if evs != [] {
      ListenerSaysNoBytes(p, evs[..|evs| - 1], now);
      OneListenerEvent(ListenerEvents(p, evs[..|evs| - 1], now), evs[|evs| - 1], now);
    }
  }

  lemma {:induction false} OneListenerEvent(p: PapServer, ev: AtpSpec.AtpEvent, now: Micros)
    ensures var p' := HandleListenerEvent(p, ev, now);
            && Bytes(p'.events) == Bytes(p.events) && Out(p') == Out(p) && p'.conn == p.conn
            && p'.sinkCredit == p.sinkCredit && p'.listener.events == p.listener.events
  {
    var p' := HandleListenerEvent(p, ev, now);
    if p'.events != p.events { BytesSnoc(p.events, p'.events[|p.events|]); }
  }

  lemma {:induction false} ReplyBytes(before: seq<PapEvent>, data: seq<byte>, done: bool)
    ensures var said := (if data != [] then [ToPrinter(data)] else []) + (if done then [JobEof] else []);
            |Bytes(before + said)| == |Bytes(before)| + |data|
  {
    var first, last := if data != [] then [ToPrinter(data)] else [], if done then [JobEof] else [];
    if data != [] { BytesSnoc(before, ToPrinter(data)); } else { assert before + first == before; }
    if done { BytesSnoc(before + first, JobEof); } else { assert before + first + last == before + first; }
    assert before + (first + last) == before + first + last;
  }

  lemma {:induction false} PulledBytes(s: Session, u: AtpSpec.UserBytes, data: seq<byte>, now: Micros,
      before: seq<PapEvent>)
    ensures var (t, said) := TakePulled(s, u, data, now);
            t.outstandingPull == None && |Bytes(before + said)| <= |Bytes(before)| + |data|
  {
    var pap := Parse(u, data);
    if pap.Some? && pap.value.function_ == Data {
      PapRuns.PulledSays(s, u, data, now);
      ReplyBytes(before, data, pap.value.eof && (s.jobBytes > 0 || data != []));
    } else {
      assert before + [] == before;
    }
  }

  lemma {:induction false} OneConnRequest(p: PapServer, ev: AtpSpec.AtpEvent, now: Micros)
    requires ev.RequestEvent?
    ensures var p' := HandleConnRequest(p, ev, now);
            && p'.sinkCredit == p.sinkCredit && p'.listener == p.listener && p'.conn.events == p.conn.events
            && |Bytes(p'.events)| == |Bytes(p.events)| && Out(p') <= Out(p)
  {
    BytesSnoc(p.events, ConnectionClosed);
    match Parse(ev.userBytes, ev.data)
    case None =>
    case Some(pap) =>
      if p.session.Some? && pap.connId == p.session.value.connId && pap.function_ == SendData {
        ReadSaysNothing(p, p.session.value.(lastActivity := now), ev, pap, now);
      }
  }

  lemma {:induction false} ReadSaysNothing(p: PapServer, s: Session, ev: AtpSpec.AtpEvent, pap: PapPacket, now: Micros)
    requires ev.RequestEvent?
    ensures var p' := HandleSendData(p, s, ev, pap, now);
            && p'.events == p.events && p'.sinkCredit == p.sinkCredit && p'.listener == p.listener
            && p'.conn.events == p.conn.events && p'.session.Some?
            && p'.session.value.outstandingPull == s.outstandingPull
  {
  }

  lemma {:induction false} OneConnEvent(p: PapServer, ev: AtpSpec.AtpEvent, now: Micros)
    requires ev.ResponseEvent? ==> |ev.data| <= PULL_CAPACITY
    ensures var p' := HandleConnEvent(p, ev, now);
            && p'.sinkCredit == p.sinkCredit && p'.listener == p.listener && p'.conn.events == p.conn.events
            && |Bytes(p'.events)| + PULL_CAPACITY * Out(p') <= |Bytes(p.events)| + PULL_CAPACITY * Out(p)
            && (ev.RequestFailed? ==> p'.events == p.events)
  {
    var p' := HandleConnEvent(p, ev, now);
    match ev
    case ResponseEvent(h, u, data) =>
      if p' != p { PulledBytes(p.session.value, u, data, now, p.events); }
    case RequestEvent(_, _, _, _, _, _) => OneConnRequest(p, ev, now);
    case RequestFailed(_) =>
  }

  lemma {:induction false} ConnEventsFlow(p: PapServer, evs: seq<AtpSpec.AtpEvent>, now: Micros)
    requires forall i :: 0 <= i < |evs| && evs[i].ResponseEvent? ==> |evs[i].data| <= PULL_CAPACITY
    ensures var p' := ConnEvents(p, evs, now);
            && p'.sinkCredit == p.sinkCredit && p'.listener == p.listener && p'.conn.events == p.conn.events
            && |Bytes(p'.events)| + PULL_CAPACITY * Out(p') <= |Bytes(p.events)| + PULL_CAPACITY * Out(p)
    decreases |evs|
  {
    if evs != [] {
      ConnEventsFlow(p, evs[..|evs| - 1], now);
      OneConnEvent(ConnEvents(p, evs[..|evs| - 1], now), evs[|evs| - 1], now);
    }
  }

  /** Pulling and answering say nothing; a pull needs room. */
  lemma {:induction false} PullFlows(p: PapServer, now: Micros)
    ensures var p' := MaybePull(AnswerRead(p, now), now);
            && p'.events == p.events && p'.sinkCredit == p.sinkCredit && p'.listener == p.listener
            && p'.conn.events == p.conn.events && Out(p') <= 1
            && (Room(p) || Out(p') == Out(p))
  {
  }

  /** A drain brings at most one pull's bytes, and takes the outstanding pull with them or needs room. */
  lemma {:induction false} DrainFlows(p: PapServer, now: Micros)
    requires p.events == [] && RepliesFit(p.conn)
    ensures Flows(p, Drain(p, now)) && Drain(p, now).conn.events == [] && Drain(p, now).listener.events == []
  {
    var p0 := p.(listener := p.listener.(events := []));
    ListenerSaysNoBytes(p0, p.listener.events, now);
    var p1 := ListenerEvents(p0, p.listener.events, now);
    ConnEventsFlow(p1.(conn := p1.conn.(events := [])), p1.conn.events, now);
    PullFlows(ConnEvents(p1.(conn := p1.conn.(events := [])), p1.conn.events, now), now);
  }

  lemma {:induction false} FailuresHaveNoData(pending: map<u16, AtpSpec.PendingRequest>, tids: seq<u16>, now: Micros)
    requires forall t :: t in tids ==> t in pending
    ensures forall i :: 0 <= i < |AtpSpec.Failures(pending, tids, now)| ==>
              AtpSpec.Failures(pending, tids, now)[i].RequestFailed?
    decreases |tids|
  {
    if tids != [] { FailuresHaveNoData(pending, tids[..|tids| - 1], now); }
  }

  lemma {:induction false} KeepAliveFlows(p: PapServer, now: Micros)
    ensures var p' := KeepAlive(p, now);
            && Bytes(p'.events) == Bytes(p.events) && p'.sinkCredit == p.sinkCredit && p'.listener == p.listener
            && p'.conn.events == p.conn.events && Out(p') <= Out(p)
  {
    BytesSnoc(p.events, ConnectionClosed);
  }

  lemma {:induction false} PollFlows(p: PapServer, now: Micros)
    requires Quiet(p)
    ensures var p' := PapSpec.Poll(p, now);
            Flows(p, p') && p'.conn.events == [] && p'.listener.events == []
  {
    FailuresHaveNoData(p.conn.pending, Ascending(p.conn.pending.Keys), now);
    var ticked := p.(listener := AtpSpec.Poll(p.listener, now), conn := AtpSpec.Poll(p.conn, now));
    DrainFlows(ticked, now);
    var p1 := Drain(ticked, now);
    KeepAliveFlows(p1, now);
    PullFlows(KeepAlive(p1, now), now);
  }

  // ---- the memory bound -------------------------------------------------------------------------------

  /** Held bytes and the pull in flight fit two windows, and the reported room is the room left. */
  predicate FlowOk(s: Port) {
    && Quiet(s.role)
    && s.role.sinkCredit == SaturatingSub(WINDOW, Held(s))
    && Held(s) + PULL_CAPACITY * Out(s.role) <= 2 * WINDOW
  }

  lemma {:induction false} SortedHeld(s: Port, evs: seq<PapEvent>)
    ensures Held(Sorted(s, evs)) == Held(s) + |Bytes(evs)|
    decreases |evs|
  {
    if evs != [] { SortedHeld(s, evs[..|evs| - 1]); }
  }

  lemma {:induction false} SettleFlows(s: Port, before: PapServer, now: Micros)
    requires Quiet(before) && before.sinkCredit == SaturatingSub(WINDOW, Held(s))
    requires Held(s) + PULL_CAPACITY * Out(before) <= 2 * WINDOW
    requires Flows(before, s.role) && s.role.conn.events == [] && s.role.listener.events == []
    ensures FlowOk(Settle(s, now))
  {
    SortedHeld(s, s.role.events);
  }

  lemma {:induction false} EndWriteFlows(s: Port, n: nat, now: Micros)
    requires FlowOk(s) && n <= s.writing
    ensures FlowOk(WriteOver(s, n, now))
  {
    SortedHeld(s.(writing := s.writing - n, writtenTotal := s.writtenTotal + n), s.role.events);
  }

  lemma {:induction false} InputFlows(p: PapServer, data: seq<byte>, now: Micros)
    requires Quiet(p)
    ensures Flows(p, QueueOutput(p, data, now)) && Quiet(QueueOutput(p, data, now))
  {
  }

  lemma {:induction false} FlowKept(s: Port, act: Action)
    requires FlowOk(s) && Can(s, act)
    ensures FlowOk(PortAfter(s, act))
  {
    match act
    case Datagram(socket, src, q, now) =>
      DrainFlows(Fed(s.role, socket, src, q), now);
      SettleFlows(s.(role := PapSpec.HandleDatagram(s.role, socket, src, q, now)), s.role, now);
    case Tick(now) =>
      PollFlows(s.role, now);
      SettleFlows(s.(role := PapSpec.Poll(s.role, now)), s.role, now);
    case Input(data, now) =>
      InputFlows(s.role, data, now);
      SettleFlows(s.(role := QueueOutput(s.role, data, now)), s.role, now);
    case EndWrite(n, now) => EndWriteFlows(s, n, now);
    case _ =>
  }

  lemma {:induction false} RunKeepsInv(states: seq<State>, acts: seq<Action>, now: Micros, n: nat)
    requires IsRun(states, acts, now) && n <= |acts|
    ensures OrderOk(states[n].port, states[n].h) && FlowOk(states[n].port)
  {
    if n > 0 {
      RunKeepsInv(states, acts, now, n - 1);
      assert Next(states[n - 1], acts[n - 1], states[n]);
      OrderKept(states[n - 1], acts[n - 1], states[n]);
      FlowKept(states[n - 1].port, acts[n - 1]);
    }
  }

  /** Nothing is lost or counted twice between the network and the port, and the bytes go to the port
      in job order. */
  lemma {:induction false} BytesInOrder(states: seq<State>, acts: seq<Action>, now: Micros, n: nat)
    requires IsRun(states, acts, now) && n <= |acts|
    ensures var s, h := states[n].port, states[n].h;
            && s.queuedTotal == s.writtenTotal + s.writing + |s.toPrinter|
            && h.handed + s.toPrinter == Bytes(h.said)
            && |h.handed| == s.writtenTotal + s.writing
  {
    RunKeepsInv(states, acts, now, n);
  }

  /** Events come out in the order the role raised them, each only after the write of every byte
      queued ahead of it is over. */
  lemma {:induction false} EventsAfterTheirBytes(states: seq<State>, acts: seq<Action>, now: Micros, n: nat)
    requires IsRun(states, acts, now) && n <= |acts|
    ensures states[n].h.reported <= Marks(states[n].h.said)
    ensures forall i :: 0 <= i < |states[n].h.reported| ==> states[n].h.reported[i].0 <= states[n].port.writtenTotal
  {
    RunKeepsInv(states, acts, now, n);
  }

  /** While no reply is larger than a pull asks for, the bytes held and the pull in flight never
      exceed two windows. */
  lemma {:induction false} MemoryBound(states: seq<State>, acts: seq<Action>, now: Micros, n: nat)
    requires IsRun(states, acts, now) && n <= |acts|
    ensures var s := states[n].port;
            |s.toPrinter| + s.writing + PULL_CAPACITY * Out(s.role) <= 2 * WINDOW
  {
    RunKeepsInv(states, acts, now, n);
  }

  lemma {:induction false} FullReplyTaken(p: PapServer, h: u16, u: AtpSpec.UserBytes, data: seq<byte>, now: Micros)
    requires p.session.Some? && p.session.value.outstandingPull == Some(h) && p.events == []
    requires |data| == PULL_CAPACITY && Parse(u, data).Some? && Parse(u, data).value.function_ == Data
    ensures var p' := HandleConnEvent(p, AtpSpec.ResponseEvent(h, u, data), now);
            && |Bytes(p'.events)| == PULL_CAPACITY && p'.session.Some? && p'.session.value.outstandingPull == None
            && p'.conn == p.conn && p'.sinkCredit == p.sinkCredit
  {
    var s := p.session.value;
    PapRuns.PulledSays(s, u, data, now);
    ReplyBytes(p.events, data, Parse(u, data).value.eof && (s.jobBytes > 0 || data != []));
  }

  lemma {:induction false} PullsWithRoom(p: PapServer, now: Micros)
    requires p.session.Some? && p.session.value.outstandingPull == None && Room(p)
    requires AtpSpec.HasFreeTid(p.conn.pending)
    ensures var p' := MaybePull(AnswerRead(p, now), now); Out(p') == 1 && p'.events == p.events
  {
  }

  /** The second window is real: with nothing held, a full reply is taken and the next pull goes out
      in the same step, on the room reported before the reply. */
  lemma {:induction false} PullsOnStaleRoom(
      s: Port, src: Address, q: AtpSpec.AtpPacket, now: Micros, h: u16, u: AtpSpec.UserBytes, data: seq<byte>)
    requires FlowOk(s) && Held(s) == 0 && s.role.connSocket != s.role.listenerSocket
    requires s.role.session.Some? && s.role.session.value.outstandingPull == Some(h)
    requires var conn := AtpSpec.HandleDatagram(s.role.conn, src, q);
             conn.events == [AtpSpec.ResponseEvent(h, u, data)] && AtpSpec.HasFreeTid(conn.pending)
    requires |data| == PULL_CAPACITY && Parse(u, data).Some? && Parse(u, data).value.function_ == Data
    ensures var s' := OnDatagram(s, s.role.connSocket, src, q, now);
            Held(s') == WINDOW && Out(s'.role) == 1
  {
    var ev := AtpSpec.ResponseEvent(h, u, data);
    var fed := s.role.(conn := AtpSpec.HandleDatagram(s.role.conn, src, q));
    var p1 := fed.(listener := fed.listener.(events := []));
    assert ListenerEvents(p1, fed.listener.events, now) == p1;
    var p2 := p1.(conn := p1.conn.(events := []));
    assert [ev][..0] == [];
    assert ConnEvents(p2, [ev], now) == HandleConnEvent(p2, ev, now);
    FullReplyTaken(p2, h, u, data, now);
    PullsWithRoom(HandleConnEvent(p2, ev, now), now);
    var role := PapSpec.HandleDatagram(s.role, s.role.connSocket, src, q, now);
    SortedHeld(s.(role := role), role.events);
  }
}
