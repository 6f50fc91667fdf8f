/** Two ADSP endpoints joined by a network that loses, duplicates and reorders.

    The network is a set of packets that only grows: a packet may be delivered never, once
    or many times, at any later moment and in any order. The theorems here hold in every
    state that any run of writes, attentions, window changes, timer ticks, closes and
    deliveries can reach. */
module AdspNetwork {
  import opened Words
  import opened AdspSpec
  import opened AdspStream
  import AdspLedger

  datatype Message = Message(code: u16, data: seq<byte>)

  /** A packet in transit, stamped with where its sender's streams stood when it left: the
      position cut up to, the position received up to, the attentions acknowledged, the
      attention being sent, and the attentions heard. Code never reads the stamps. */
  datatype Stamped = Stamped(p: Packet, sentAt: nat, ackAt: nat, attnAt: nat, attnOrd: nat, attnAckAt: nat)

  /** One end: its endpoint and a history of what the application did and saw. */
  datatype Side = Side(
    ep: Endpoint,
    id: u16,                // our ConnID
    peerId: u16,            // the peer's, under which the connection is kept
    peerAddr: Address,
    known: bool,           // the connection has existed
    tape: seq<Token>,       // everything passed to `send`
    got: seq<Token>,        // everything in Data events
    asked: seq<Message>,    // attentions `send_attention` accepted
    slot: seq<nat>,         // the attention sequence each was given
    acked: nat,             // AttentionAcked events
    failed: bool,           // an AttentionFailed since the last AttentionAcked
    everFailed: bool,
    heard: seq<Message>,    // Attention events
    heardOrd: seq<nat>)     // which of the peer's `asked` each of them was

  datatype System = System(a: Side, b: Side, toA: set<Stamped>, toB: set<Stamped>)

  datatype Action =
    | Dial(now: Micros)
    | Write(data: seq<byte>, eom: bool)
    | Attend(code: u16, data: seq<byte>, now: Micros)
    | SetWindow(window: u16)
    | Tick(now: Micros)
    | Hangup
    | Deliver(t: Stamped, now: Micros)

  ghost predicate Alive(s: Side) {
    s.peerId in s.ep.connections
  }

  ghost function Conn(s: Side): Connection
    requires Alive(s)
  {
    s.ep.connections[s.peerId]
  }

  predicate IsStream(p: Packet) {
    !p.attention && (p.descriptor == DataPacket || p.descriptor == ControlPacket)
  }

  predicate TakesSpace(p: Packet) {
    IsStream(p) && SeqLen(p) > 0
  }

  /** The stream position of a packet's first byte, from the stamp and the wire sequence. */
  function First(t: Stamped): nat {
    var back := Sub32(Low32(t.sentAt), t.p.firstByteSeq);
    if back <= t.sentAt then t.sentAt - back else 0
  }

  // ---- what an action does to the side that takes it ------------------------------------

  ghost function EpAfter(s: Side, act: Action): Endpoint {
    match act
    case Dial(now) => Connect(s.ep, s.peerAddr, now, s.id)
    case Write(data, eom) => Send(s.ep, s.peerId, data, eom)
    case Attend(code, data, now) => SendAttention(s.ep, s.peerId, code, data, now)
    case SetWindow(w) => SetRecvWindow(s.ep, w)
    case Tick(now) => Poll(s.ep, now)
    case Hangup => Close(s.ep, s.peerId)
    case Deliver(t, now) => HandleDatagram(s.ep, s.peerAddr, t.p, now, s.id)
  }

  function HeardIn(evs: seq<AdspEvent>): seq<Message> {
    if evs == [] then [] else
    (if evs[0].Attention? then [Message(evs[0].code, evs[0].data)] else []) + HeardIn(evs[1..])
  }

  function AckedIn(evs: seq<AdspEvent>): nat {
    if evs == [] then 0 else (if evs[0].AttentionAcked? then 1 else 0) + AckedIn(evs[1..])
  }

  predicate FailedIn(evs: seq<AdspEvent>) {
    exists i :: 0 <= i < |evs| && evs[i].AttentionFailed?
  }

  predicate TakesAttention(s: Side, act: Action) {
    act.Attend? && s.peerId in s.ep.connections && s.ep.connections[s.peerId].attnInFlight.None?
  }

  /** The side after the action, with the endpoint's queues drained into the histories. */
  ghost function Act(s: Side, act: Action): Side {
    var e := EpAfter(s, act);
    var evs := e.events;
    var accepted := TakesAttention(s, act);
    s.(ep := e.(outbox := [], events := []),
       known := s.known || s.peerId in e.connections,
       tape := if act.Write? && Alive(s) then s.tape + Tokens(act.data, act.eom) else s.tape,
       got := s.got + EventTokens(evs),
       asked := if accepted then s.asked + [Message(act.code, act.data)] else s.asked,
       slot := if accepted then s.slot + [s.acked] else s.slot,
       acked := s.acked + AckedIn(evs),
       failed := if AckedIn(evs) > 0 then false else s.failed || FailedIn(evs),
       everFailed := s.everFailed || FailedIn(evs),
       heard := s.heard + HeardIn(evs),
       heardOrd := if act.Deliver? && HeardIn(evs) != [] then s.heardOrd + [act.t.attnOrd] else s.heardOrd)
  }

  ghost function SentAt(s: Side): nat {
    if Alive(s) && CutPos(Conn(s), s.tape) >= 0 then CutPos(Conn(s), s.tape) else 0
  }

  ghost function Stamp(s: Side, p: Packet): Stamped {
    Stamped(p, SentAt(s), |s.got|, s.acked, if s.asked == [] then 0 else |s.asked| - 1, |s.heard|)
  }

  /** The packets of an outbox that go to the peer, stamped by their sender. */
  ghost function StampAll(s: Side, outbox: seq<(Address, Packet)>): set<Stamped> {
    set m | m in outbox && m.0 == s.peerAddr :: Stamp(s, m.1)
  }

  /** What the action puts on the wire toward the peer. */
  ghost function Sent(s: Side, act: Action): set<Stamped> {
    StampAll(Act(s, act), EpAfter(s, act).outbox)
  }

  /** The packet comes from within half a turn of where the receiving side's streams are: the
      network's packet lifetime is short against the sequence space. */
  ghost predicate Timely(s: Side, t: Stamped) {
    && -HALF32 < |s.got| - First(t) < HALF32
    && SentAt(s) - t.ackAt < HALF32
    && s.acked - t.attnAckAt < HALF32
    && |s.heard| - t.attnAt < HALF32
  }

  /** When an action can happen. No pump leaves a byte in flight behind a mark in flight: the flight
      buffer is exact just so long. Writes keep less than half a turn unacknowledged, a side dials
      once, and an open request does not bring back a connection that has closed, since each ConnID
      is used once. */
  ghost predicate Enabled(s: Side, inbox: set<Stamped>, act: Action) {
    match act
    case Dial(_) => !s.known && !s.ep.listening && s.ep.pendingOpens == map[]
    case Write(data, eom) =>
      Alive(s) ==>
        && InOrder(Pump(Queued(Conn(s), data, eom), s.ep.recvWindow, None).conn, s.tape + Tokens(data, eom))
        && |s.tape| + |Tokens(data, eom)| - OldestPos(Conn(s), s.tape) < HALF32
    case Deliver(t, now) =>
      && t in inbox
      && Timely(s, t)
      && (t.p.descriptor == OpenConnRequest ==> !s.known || Alive(s))
      && (IsStream(t.p) && Alive(s) ==> InOrder(HandleData(Conn(s), t.p, s.ep.recvWindow, now).conn, s.tape))
    case _ => true
  }

  ghost predicate StepA(s: System, s': System, act: Action) {
    Enabled(s.a, s.toA, act) && s' == s.(a := Act(s.a, act), toB := s.toB + Sent(s.a, act))
  }

  ghost predicate StepB(s: System, s': System, act: Action) {
    Enabled(s.b, s.toB, act) && s' == s.(b := Act(s.b, act), toA := s.toA + Sent(s.b, act))
  }

  ghost predicate Next(s: System, s': System) {
    exists act :: StepA(s, s', act) || StepB(s, s', act)
  }

  ghost predicate FreshSide(s: Side) {
    && s.ep.connections == map[] && s.ep.pendingOpens == map[] && s.ep.outbox == [] && s.ep.events == []
    && !s.known && s.tape == [] && s.got == [] && s.asked == [] && s.slot == [] && s.acked == 0
    && !s.failed && !s.everFailed && s.heard == [] && s.heardOrd == []
  }

  /** Two fresh endpoints that know each other's address; the one that listens will answer
      under an odd id, as the draw is made odd. Nothing is in transit. */
  ghost predicate Init(s: System) {
    && FreshSide(s.a) && FreshSide(s.b)
    && s.a.peerId == s.b.id && s.b.peerId == s.a.id
    && (s.a.ep.listening ==> s.a.id % 2 == 1) && (s.b.ep.listening ==> s.b.id % 2 == 1)
    && s.toA == {} && s.toB == {}
  }

  ghost predicate IsRun(run: seq<System>) {
    && run != [] && Init(run[0])
    && forall i :: 0 <= i < |run| - 1 ==> Next(run[i], run[i + 1])
  }

  // ---- the invariant --------------------------------------------------------------------

  /** One side on its own. */
  ghost predicate Local(s: Side) {
    && s.ep.outbox == [] && s.ep.events == []
    && s.ep.connections.Keys <= {s.peerId}
    && s.ep.pendingOpens.Keys <= {s.id}
    && (s.ep.pendingOpens != map[] ==> !s.known)
    && (s.ep.listening ==> s.id % 2 == 1 && s.ep.pendingOpens == map[])
    && (Alive(s) ==> s.known)
    && (!s.known ==> s.tape == [] && s.got == [])
    && (Alive(s) ==> LocalConn(Conn(s), s))
  }

  ghost predicate LocalConn(c: Connection, s: Side) {
    && c.ourConnId == s.id && c.remote == s.peerAddr
    && GoodSender(c, s.tape)
    && c.recvSeq == Low32(|s.got|)
    && (c.attnInFlight.Some? ==> IsAttentionFrom(c.attnInFlight.value.packet, s))
  }

  ghost predicate IsAttentionFrom(p: Packet, s: Side) {
    p.attention && p.descriptor == DataPacket && p.connId == s.id
  }

  /** A packet in transit says what its sender's tape says, and acknowledges no more than the
      sender has received. */
  ghost predicate Honest(t: Stamped, from: Side) {
    && t.p.connId == from.id
    && t.p.descriptor != RetransmitAdvice
    && (t.p.descriptor == OpenConnReqAck ==> DestConnId(t.p) == from.peerId)
    && t.sentAt <= |from.tape|
    && (IsStream(t.p) ==>
          && t.ackAt <= |from.got| && t.p.nextRecvSeq == Low32(t.ackAt)
          && (SeqLen(t.p) > 0 ==> Slice(t.p, from.tape, First(t)) && First(t) + SeqLen(t.p) <= t.sentAt))
  }

  /** One direction: what `to` got is a prefix of what `from` wrote and cut, `from` counts as
      acknowledged only what `to` got, and the packets in between are honest. */
  ghost predicate Half(from: Side, to: Side, net: set<Stamped>) {
    && to.got <= from.tape
    && (Alive(from) ==> OldestPos(Conn(from), from.tape) <= |to.got| <= CutPos(Conn(from), from.tape))
    && forall t :: t in net ==> Honest(t, from) && (Alive(from) ==> t.sentAt <= CutPos(Conn(from), from.tape))
  }

  ghost predicate Both(s: Side, peer: Side, out: set<Stamped>, inbox: set<Stamped>) {
    && Local(s) && Local(peer)
    && s.peerId == peer.id && peer.peerId == s.id
    && Half(s, peer, out) && Half(peer, s, inbox)
  }

  ghost predicate Inv(s: System) {
    Both(s.a, s.b, s.toB, s.toA)
  }

  /** What a side's own step has to establish. */
  ghost predicate Advances(s: Side, s': Side, peer: Side, sent: set<Stamped>) {
    && Local(s')
    && s'.id == s.id && s'.peerId == s.peerId
    && s.tape <= s'.tape && s.got <= s'.got
    && s'.got <= peer.tape && (Alive(peer) ==> |s'.got| <= CutPos(Conn(peer), peer.tape))
    && (Alive(s') ==> OldestPos(Conn(s'), s'.tape) <= |peer.got|)
    && (Alive(s') ==> if Alive(s) then CutPos(Conn(s), s.tape) <= CutPos(Conn(s'), s'.tape) else s.tape == [])
    && forall t :: t in sent ==> Honest(t, s') && t.sentAt == SentAt(s')
  }

  lemma {:induction false} SliceOfLonger(p: Packet, tape: seq<Token>, tape': seq<Token>, f: nat)
    requires Slice(p, tape, f) && tape <= tape'
    ensures Slice(p, tape', f)
  {
    assert tape'[f..f + SeqLen(p)] == tape[f..f + SeqLen(p)];
  }

  /** A step that advances its own side keeps the whole invariant. */
  lemma {:induction false} AdvancingKeepsBoth(s: Side, s': Side, peer: Side, out: set<Stamped>, inbox: set<Stamped>,
      sent: set<Stamped>)
    requires Both(s, peer, out, inbox) && Advances(s, s', peer, sent)
    ensures Both(s', peer, out + sent, inbox)
  {
    forall t | t in out
      ensures Honest(t, s')
    {
      if IsStream(t.p) && SeqLen(t.p) > 0 {
        SliceOfLonger(t.p, s.tape, s'.tape, First(t));
      }
    }
  }

  // ---- each action advances its side ------------------------------------------------------

  /** The ids, ledger and receive position a sending connection shares with its side. */
  ghost predicate Matches(c: Connection, s: Side) {
    c.ourConnId == s.id && Ledger(c, s.tape) && c.recvSeq == Low32(|s.got|)
  }

  lemma {:induction false} EmittableIsHonest(p: Packet, s: Side)
    requires Alive(s) && Matches(Conn(s), s) && Emittable(p, Conn(s), s.tape)
    ensures Honest(Stamp(s, p), s)
  {
    if SeqLen(p) > 0 {
      var c := Conn(s);
      var f: nat :| OldestPos(c, s.tape) <= f && f + SeqLen(p) <= CutPos(c, s.tape) && Slice(p, s.tape, f);
      LowSub(CutPos(c, s.tape), f);
      assert First(Stamp(s, p)) == f;
    }
  }

  /** A packet outside the byte stream that carries our id, and echoes the peer's if it
      answers an open request. */
  predicate Aside(p: Packet, s: Side) {
    !IsStream(p) && p.connId == s.id && p.descriptor != RetransmitAdvice
    && (p.descriptor == OpenConnReqAck ==> DestConnId(p) == s.peerId)
  }

  lemma {:induction false} SentAtBounded(s: Side)
    ensures SentAt(s) <= |s.tape|
  {
  }

  ghost predicate Sendable(p: Packet, s: Side) {
    Aside(p, s) || (Alive(s) && Matches(Conn(s), s) && Emittable(p, Conn(s), s.tape))
  }

  lemma {:induction false} SendableIsHonest(p: Packet, s: Side)
    requires Sendable(p, s)
    ensures Honest(Stamp(s, p), s)
  {
    SentAtBounded(s);
    if !Aside(p, s) { EmittableIsHonest(p, s); }
  }

  lemma {:induction false} AllHonest(outbox: seq<(Address, Packet)>, s: Side)
    requires forall m :: m in outbox ==> Sendable(m.1, s)
    ensures forall t :: t in StampAll(s, outbox) ==> Honest(t, s)
  {
    forall t | t in StampAll(s, outbox)
      ensures Honest(t, s)
    {
      var m :| m in outbox && t == Stamp(s, m.1);
      SendableIsHonest(m.1, s);
    }
  }

  /** Events that carry no stream data. */
  predicate NoData(evs: seq<AdspEvent>) {
    forall ev :: ev in evs ==> !ev.Data?
  }

  lemma {:induction false} NoDataTokens(evs: seq<AdspEvent>)
    requires NoData(evs)
    ensures EventTokens(evs) == []
  {
    if evs != [] { NoDataTokens(evs[1..]); }
  }

  /** The side after a step that leaves its connection as `f` says and everything else alone. */
  ghost predicate Carries(s: Side, s': Side, f: Effect) {
    && Alive(s) && s'.ep == s.ep.(connections := s.ep.connections[s.peerId := f.conn])
    && s'.id == s.id && s'.peerId == s.peerId && s'.peerAddr == s.peerAddr && s'.known && s.known
    && s.tape <= s'.tape && s.got <= s'.got
    && f.conn.ourConnId == s.id && f.conn.remote == s.peerAddr && f.conn.recvSeq == Low32(|s'.got|)
    && GoodSender(f.conn, s'.tape) && CutPos(Conn(s), s.tape) <= CutPos(f.conn, s'.tape)
    && (f.conn.attnInFlight.Some? ==> IsAttentionFrom(f.conn.attnInFlight.value.packet, s))
    && forall p :: p in f.out ==> Aside(p, s') || Emittable(p, f.conn, s'.tape)
  }

  /** Such a step advances its side. */
  lemma {:induction false} EffectAdvances(s: Side, s': Side, peer: Side, f: Effect)
    requires Local(s) && Carries(s, s', f) && s'.got <= peer.tape && OldestPos(f.conn, s'.tape) <= |peer.got|
    requires Alive(peer) ==> |s'.got| <= CutPos(Conn(peer), peer.tape)
    ensures Advances(s, s', peer, StampAll(s', ToRemote(f.conn.remote, f.out)))
  {
    var outbox := ToRemote(f.conn.remote, f.out);
    assert s'.ep.connections.Keys == s.ep.connections.Keys && Conn(s') == f.conn;
    forall m | m in outbox ensures Sendable(m.1, s') { assert m.1 in f.out; }
    AllHonest(outbox, s');
  }

  lemma {:induction false} UpdatedOutbox(e: Endpoint, key: u16, f: Effect)
    requires e.outbox == []
    ensures Update(e, key, f).outbox == ToRemote(f.conn.remote, f.out)
  {
  }

  /** A step that changes nothing and sends nothing. */
  lemma {:induction false} IdleAdvances(s: Side, peer: Side, out: set<Stamped>, inbox: set<Stamped>)
    requires Both(s, peer, out, inbox)
    ensures Advances(s, s, peer, {})
  {
  }

  lemma {:induction false} WriteAdvances(s: Side, peer: Side, out: set<Stamped>, inbox: set<Stamped>, act: Action)
    requires Both(s, peer, out, inbox) && act.Write? && Enabled(s, inbox, act)
    ensures Advances(s, Act(s, act), peer, Sent(s, act))
  {
    if Alive(s) {
      var c, s' := Conn(s), Act(s, act);
      QueuedLedger(c, act.data, act.eom, s.tape);
      var q := Queued(c, act.data, act.eom);
      PumpEmits(q, s.ep.recvWindow, None, s'.tape);
      var f := Pump(q, s.ep.recvWindow, None);
      assert EpAfter(s, act) == Update(s.ep, s.peerId, f);
      UpdatedOutbox(s.ep, s.peerId, f);
      assert s.got + [] == s.got;
      EffectAdvances(s, s', peer, f);
    } else {
      NothingHappens(s, act);
      IdleAdvances(s, peer, out, inbox);
    }
  }

  lemma {:induction false} NothingHappens(s: Side, act: Action)
    requires EpAfter(s, act) == s.ep && s.ep.outbox == [] && s.ep.events == [] && !TakesAttention(s, act)
    requires (act.Write? ==> !Alive(s)) && (Alive(s) ==> s.known)
    ensures Act(s, act) == s && Sent(s, act) == {}
  {
    assert s.got + [] == s.got && s.heard + [] == s.heard;
  }

  lemma {:induction false} AttendAdvances(s: Side, peer: Side, out: set<Stamped>, inbox: set<Stamped>, act: Action)
    requires Both(s, peer, out, inbox) && act.Attend?
    ensures Advances(s, Act(s, act), peer, Sent(s, act))
  {
    if TakesAttention(s, act) {
      var c, s' := Conn(s), Act(s, act);
      var f := SendAttentionOn(c, act.code, act.data, act.now);
      assert EpAfter(s, act) == Update(s.ep, s.peerId, f);
      UpdatedOutbox(s.ep, s.peerId, f);
      assert s.got + [] == s.got;
      EffectAdvances(s, s', peer, f);
    } else {
      NothingHappens(s, act);
      IdleAdvances(s, peer, out, inbox);
    }
  }

  lemma {:induction false} DialAdvances(s: Side, peer: Side, out: set<Stamped>, inbox: set<Stamped>, act: Action)
    requires Both(s, peer, out, inbox) && act.Dial? && Enabled(s, inbox, act)
    ensures Advances(s, Act(s, act), peer, Sent(s, act))
  {
    AllHonest(EpAfter(s, act).outbox, Act(s, act));
  }

  lemma {:induction false} HangupAdvances(s: Side, peer: Side, out: set<Stamped>, inbox: set<Stamped>, act: Action)
    requires Both(s, peer, out, inbox) && act.Hangup?
    ensures Advances(s, Act(s, act), peer, Sent(s, act))
  {
    AllHonest(EpAfter(s, act).outbox, Act(s, act));
  }

  /** With a single connection the ordered walks visit just that one. */
  lemma {:induction false} SetWindowSingle(e: Endpoint, key: u16, w: u16)
    requires e.connections.Keys <= {key}
    ensures var e1 := e.(recvWindow := w);
            SetRecvWindow(e, w) == if e.recvWindow == 0 && w > 0 then SendAck(e1, key) else e1
  {
    var e1 := e.(recvWindow := w);
    AscendingSingleton(key);
    assert SendAcks(e1, [key]) == SendAck(SendAcks(e1, []), key);
    assert e.connections.Keys == {} || e.connections.Keys == {key};
  }

  lemma {:induction false} PollAttentionsSingle(e: Endpoint, key: u16, now: Micros)
    requires e.connections.Keys <= {key}
    ensures PollAttentions(e, Ascending(e.connections.Keys), now) == PollAttention(e, key, now)
    ensures PollAttention(e, key, now).connections.Keys == e.connections.Keys
  {
    AscendingSingleton(key);
    assert PollAttentions(e, [key], now) == PollAttention(PollAttentions(e, [], now), key, now);
    assert e.connections.Keys == {} || e.connections.Keys == {key};
  }

  lemma {:induction false} PollStreamsSingle(e: Endpoint, key: u16, now: Micros)
    requires e.connections.Keys <= {key}
    ensures PollStreams(e, Ascending(e.connections.Keys), now) == PollStream(e, key, now)
  {
    AscendingSingleton(key);
    assert PollStreams(e, [key], now) == PollStream(PollStreams(e, [], now), key, now);
    assert e.connections.Keys == {} || e.connections.Keys == {key};
  }

  lemma {:induction false} PollSingle(e: Endpoint, key: u16, now: Micros)
    requires e.connections.Keys <= {key}
    ensures Poll(e, now) == PollStream(PollAttention(PollOpens(e, now), key, now), key, now)
  {
    var e1 := PollOpens(e, now);
    PollAttentionsSingle(e1, key, now);
    PollStreamsSingle(PollAttention(e1, key, now), key, now);
  }

  lemma {:induction false} WindowAdvances(s: Side, peer: Side, out: set<Stamped>, inbox: set<Stamped>, act: Action)
    requires Both(s, peer, out, inbox) && act.SetWindow?
    ensures Advances(s, Act(s, act), peer, Sent(s, act))
  {
    SetWindowSingle(s.ep, s.peerId, act.window);
    AllHonest(EpAfter(s, act).outbox, Act(s, act));
  }

  lemma {:induction false} OpenRequestsAside(opens: map<u16, PendingOpen>, ids: seq<u16>, window: u16, now: Micros,
      s: Side)
    requires opens.Keys <= {s.id} && forall k :: k in ids ==> k in opens
    ensures forall m :: m in OpenRequests(opens, ids, window, now) ==> Aside(m.1, s) && !m.1.attention
    decreases |ids|
  {
    if ids != [] {
      OpenRequestsAside(opens, ids[..|ids| - 1], window, now, s);
      assert ids[|ids| - 1] in ids;
    }
  }

  lemma {:induction false} OpenFailuresNoData(opens: map<u16, PendingOpen>, ids: seq<u16>, now: Micros)
    requires forall k :: k in ids ==> k in opens
    ensures forall ev :: ev in OpenFailures(opens, ids, now) ==> ev.OpenFailed?
    decreases |ids|
  {
    if ids != [] {
      OpenFailuresNoData(opens, ids[..|ids| - 1], now);
    }
  }

  /** The open timers leave connections alone and send only open requests. */
  lemma {:induction false} PollOpensEffect(s: Side, now: Micros)
    requires Local(s)
    ensures var e := PollOpens(s.ep, now);
            && e.connections == s.ep.connections && e.recvWindow == s.ep.recvWindow
            && e.listening == s.ep.listening
            && e.pendingOpens.Keys <= s.ep.pendingOpens.Keys
            && (forall m :: m in e.outbox ==> Aside(m.1, s) && !m.1.attention)
            && (forall ev :: ev in e.events ==> ev.OpenFailed?)
  {
    var ids := Ascending(s.ep.pendingOpens.Keys);
    assert forall k :: k in ids ==> k in s.ep.pendingOpens;
    OpenRequestsAside(s.ep.pendingOpens, ids, s.ep.recvWindow, now, s);
    OpenFailuresNoData(s.ep.pendingOpens, ids, now);
  }

  /** A connection whose streams stand where its side's histories say. */
  ghost predicate Sound(c: Connection, s: Side) {
    && c.ourConnId == s.id && c.remote == s.peerAddr
    && GoodSender(c, s.tape)
    && c.recvSeq == Low32(|s.got|)
    && (c.attnInFlight.Some? ==> IsAttentionFrom(c.attnInFlight.value.packet, s))
  }

  /** An endpoint part-way through work that delivers no stream data. */
  ghost predicate Ticking(e: Endpoint, s: Side, oldest: int) {
    && e.listening == s.ep.listening
    && e.pendingOpens.Keys <= s.ep.pendingOpens.Keys
    && e.connections.Keys <= {s.peerId}
    && (s.peerId in e.connections ==> Alive(s) || e.pendingOpens == map[])
    && (s.peerId in e.connections ==>
          && Sound(e.connections[s.peerId], s) && OldestPos(e.connections[s.peerId], s.tape) == oldest
          && (if Alive(s) then CutPos(e.connections[s.peerId], s.tape) == CutPos(Conn(s), s.tape) else s.tape == []))
    && (forall m :: m in e.outbox ==>
          Aside(m.1, s)
          || (s.peerId in e.connections && Emittable(m.1, e.connections[s.peerId], s.tape)))
    && NoData(e.events)
  }

  /** The connections differ in nothing the byte stream depends on. */
  predicate SameStream(c: Connection, c': Connection) {
    && c'.ourConnId == c.ourConnId && c'.remote == c.remote
    && c'.sendSeq == c.sendSeq && c'.oldestUnackedSeq == c.oldestUnackedSeq
    && c'.recvSeq == c.recvSeq && c'.flightBuffer == c.flightBuffer && c'.pendingWrites == c.pendingWrites
    && c'.writesSubmitted == c.writesSubmitted && c'.writesCompleted == c.writesCompleted
    && (c'.attnInFlight.Some? ==> c.attnInFlight.Some? && c'.attnInFlight.value.packet == c.attnInFlight.value.packet)
  }

  lemma {:induction false} SoundStays(c: Connection, c': Connection, s: Side)
    requires Sound(c, s) && SameStream(c, c')
    ensures Sound(c', s) && OldestPos(c', s.tape) == OldestPos(c, s.tape)
  {
  }

  /** A sound connection put back, with packets it may send. */
  lemma {:induction false} UpdateTicks(e: Endpoint, s: Side, oldest: int, f: Effect)
    requires Ticking(e, s, oldest) && s.peerId in e.connections && (forall m :: m in e.outbox ==> Aside(m.1, s))
    requires Sound(f.conn, s) && OldestPos(f.conn, s.tape) == oldest
    requires f.conn.pendingWrites == e.connections[s.peerId].pendingWrites
    requires forall p :: p in f.out ==> Aside(p, s) || Emittable(p, f.conn, s.tape)
    ensures Ticking(Update(e, s.peerId, f), s, oldest)
  {
    var e' := Update(e, s.peerId, f);
    forall m | m in e'.outbox ensures Aside(m.1, s) || Emittable(m.1, f.conn, s.tape) {
      if m !in e.outbox { assert m in ToRemote(f.conn.remote, f.out) && m.1 in f.out; }
    }
  }

  /** An attention timer that is due sends the attention again or says that it failed. */
  lemma {:induction false} TimedAttention(e: Endpoint, key: u16, now: Micros)
    requires key in e.connections && AttnDue(e.connections[key], now)
    ensures var c, c' := e.connections[key], PollAttention(e, key, now).connections[key];
            var sent := if c'.attnInFlight.Some? then [c.attnInFlight.value.packet] else [];
            && SameStream(c, c')
            && PollAttention(e, key, now)
                 == Emit(Update(e, key, Effect(c', sent)), if sent == [] then [AttentionFailed(key)] else [])
  {
    var e' := PollAttention(e, key, now);
    assert e.outbox + [] == e.outbox && e.events + [] == e.events;
    assert e'.outbox == e.outbox + ToRemote(e'.connections[key].remote,
             if e'.connections[key].attnInFlight.Some? then [e.connections[key].attnInFlight.value.packet] else []);
  }

  lemma {:induction false} EmitTicks(e: Endpoint, s: Side, oldest: int, evs: seq<AdspEvent>)
    requires Ticking(e, s, oldest) && NoData(evs)
    ensures Ticking(Emit(e, evs), s, oldest)
  {
  }

  lemma {:induction false} AttentionTicking(e: Endpoint, s: Side, oldest: int, now: Micros)
    requires Local(s) && Ticking(e, s, oldest) && (forall m :: m in e.outbox ==> Aside(m.1, s))
    ensures var e' := PollAttention(e, s.peerId, now);
            Ticking(e', s, oldest) && forall m :: m in e'.outbox ==> Aside(m.1, s)
  {
    if s.peerId in e.connections && AttnDue(e.connections[s.peerId], now) {
      TimedAttention(e, s.peerId, now);
      var c, c' := e.connections[s.peerId], PollAttention(e, s.peerId, now).connections[s.peerId];
      ResentTicks(e, s, oldest, c', if c'.attnInFlight.Some? then [c.attnInFlight.value.packet] else []);
    }
  }

  /** The connection put back with a newer timer, and perhaps the attention sent again. */
  lemma {:induction false} ResentTicks(e: Endpoint, s: Side, oldest: int, c': Connection, sent: seq<Packet>)
    requires Ticking(e, s, oldest) && (forall m :: m in e.outbox ==> Aside(m.1, s)) && s.peerId in e.connections
    requires SameStream(e.connections[s.peerId], c') && e.connections[s.peerId].attnInFlight.Some?
    requires forall p :: p in sent ==> p == e.connections[s.peerId].attnInFlight.value.packet
    ensures var evs := if sent == [] then [AttentionFailed(s.peerId)] else [];
            var e' := Emit(Update(e, s.peerId, Effect(c', sent)), evs);
            Ticking(e', s, oldest) && forall m :: m in e'.outbox ==> Aside(m.1, s)
  {
    SoundStays(e.connections[s.peerId], c', s);
    forall p | p in sent ensures Aside(p, s) { assert IsAttentionFrom(p, s); }
    UpdateTicks(e, s, oldest, Effect(c', sent));
    var e1 := Update(e, s.peerId, Effect(c', sent));
    forall m | m in e1.outbox ensures Aside(m.1, s) {
      if m !in e.outbox { assert m in ToRemote(c'.remote, sent) && m.1 in sent; }
    }
    EmitTicks(e1, s, oldest, if sent == [] then [AttentionFailed(s.peerId)] else []);
  }

  lemma {:induction false} StreamTicking(e: Endpoint, s: Side, oldest: int, now: Micros)
    requires Local(s) && Ticking(e, s, oldest) && (forall m :: m in e.outbox ==> Aside(m.1, s))
    ensures Ticking(PollStream(e, s.peerId, now), s, oldest)
  {
    if s.peerId in e.connections && DataDue(e.connections[s.peerId], now) {
      var c := e.connections[s.peerId];
      var c1 := c.(retries := Min(c.retries + 1, 255));
      if c1.retries <= MAX_RETRIES {
        RetryTicks(e, s, oldest, c1, now);
      }
    }
  }

  /** The bytes in flight sent again, with the retry counted. */
  lemma {:induction false} RetryTicks(e: Endpoint, s: Side, oldest: int, c1: Connection, now: Micros)
    requires Local(s) && Ticking(e, s, oldest) && (forall m :: m in e.outbox ==> Aside(m.1, s))
    requires s.peerId in e.connections && SameStream(e.connections[s.peerId], c1)
    ensures Ticking(Update(e, s.peerId, Resend(c1, e.recvWindow, now)), s, oldest)
  {
    var f := Resend(c1, e.recvWindow, now);
    SoundStays(e.connections[s.peerId], c1, s);
    ResendEmits(c1, e.recvWindow, now, s.tape);
    assert SameStream(c1, f.conn);
    SoundStays(c1, f.conn, s);
    UpdateTicks(e, s, oldest, f);
  }

  lemma {:induction false} TickAdvances(s: Side, peer: Side, out: set<Stamped>, inbox: set<Stamped>, act: Action)
    requires Both(s, peer, out, inbox) && act.Tick?
    ensures Advances(s, Act(s, act), peer, Sent(s, act))
  {
    var oldest := if Alive(s) then OldestPos(Conn(s), s.tape) else 0;
    PollOpensEffect(s, act.now);
    PollSingle(s.ep, s.peerId, act.now);
    var e1 := PollOpens(s.ep, act.now);
    assert Ticking(e1, s, oldest);
    AttentionTicking(e1, s, oldest, act.now);
    var e2 := PollAttention(e1, s.peerId, act.now);
    StreamTicking(e2, s, oldest, act.now);
    TickingAdvances(s, peer, out, inbox, act, oldest);
  }

  /** A stream packet: what is new in it extends `got` along the peer's tape. */
  lemma {:induction false} DeliverStreamAdvances(s: Side, peer: Side, out: set<Stamped>, inbox: set<Stamped>,
      act: Action)
    requires Both(s, peer, out, inbox) && act.Deliver? && Enabled(s, inbox, act) && IsStream(act.t.p)
    ensures Advances(s, Act(s, act), peer, Sent(s, act))
  {
    var p := act.t.p;
    assert EpAfter(s, act) == HandleStream(s.ep, p, act.now);
    if Alive(s) {
      StreamArrives(s, peer, act);
    } else {
      NothingHappens(s, act);
      IdleAdvances(s, peer, out, inbox);
    }
  }

  lemma {:induction false} StreamArrives(s: Side, peer: Side, act: Action)
    requires Local(s) && Alive(s) && act.Deliver? && EpAfter(s, act) == HandleStream(s.ep, act.t.p, act.now)
    requires Timely(s, act.t) && Honest(act.t, peer) && IsStream(act.t.p) && peer.id == s.peerId
    requires s.got <= peer.tape && peer.got <= s.tape && OldestPos(Conn(s), s.tape) <= |peer.got|
    requires Alive(peer) ==> |s.got| <= CutPos(Conn(peer), peer.tape) && act.t.sentAt <= CutPos(Conn(peer), peer.tape)
    requires InOrder(HandleData(Conn(s), act.t.p, s.ep.recvWindow, act.now).conn, s.tape)
    ensures Advances(s, Act(s, act), peer, Sent(s, act))
  {
    var c, s', p := Conn(s), Act(s, act), act.t.p;
    var (c1, evs) := Receive(c, p);
    var f := HandleData(c, p, s.ep.recvWindow, act.now);
    DeliveredIsPrefix(s, peer, act.t);
    HandleDataKeeps(c, p, s.ep.recvWindow, act.now, s.tape, act.t.ackAt);
    assert EpAfter(s, act) == Emit(Update(s.ep, s.peerId, f), evs);
    UpdatedOutbox(s.ep, s.peerId, f);
    assert EpAfter(s, act).events == evs;
    EffectAdvances(s, s', peer, f);
  }

  /** What a delivered stream packet adds to `got`, and where that leaves `recv_seq`. */
  lemma {:induction false} DeliveredIsPrefix(s: Side, peer: Side, t: Stamped)
    requires Alive(s) && Conn(s).recvSeq == Low32(|s.got|) && s.got <= peer.tape
    requires IsStream(t.p) && Honest(t, peer) && -HALF32 < |s.got| - First(t) < HALF32
    ensures var (c1, evs) := Receive(Conn(s), t.p);
            && s.got + EventTokens(evs) <= peer.tape
            && (|s.got + EventTokens(evs)| <= |s.got| || |s.got + EventTokens(evs)| <= t.sentAt)
            && c1 == Conn(s).(recvSeq := Low32(|s.got + EventTokens(evs)|))
  {
    if SeqLen(t.p) > 0 {
      var r := |s.got|;
      ReceiveSlice(Conn(s), t.p, peer.tape, First(t), r);
      var r' := NextPos(r, First(t), SeqLen(t.p));
      JoinTape(peer.tape, 0, r, r');
      assert s.got == peer.tape[0..r];
    } else {
      assert s.got + [] == s.got;
    }
  }

  lemma {:induction false} AttentionIsTicking(s: Side, p: Packet, oldest: int)
    requires Local(s) && p.connId == s.peerId && (Alive(s) ==> oldest == OldestPos(Conn(s), s.tape))
    ensures Ticking(HandleAttention(s.ep, p), s, oldest)
  {
    if Alive(s) && |p.payload| >= 2 {
      var f := TakeAttention(Conn(s), p);
      assert Sound(f.conn, s) && OldestPos(f.conn, s.tape) == oldest;
      assert forall q :: q in f.out ==> Aside(q, s);
    }
  }

  lemma {:induction false} AttentionAckIsTicking(s: Side, p: Packet, oldest: int)
    requires Local(s) && p.connId == s.peerId && (Alive(s) ==> oldest == OldestPos(Conn(s), s.tape))
    ensures Ticking(HandleAttentionAck(s.ep, p), s, oldest)
  {
    if Alive(s) {
      assert Sound(RetireAttention(Conn(s)), s) && OldestPos(RetireAttention(Conn(s)), s.tape) == oldest;
    }
  }

  lemma {:induction false} NewConnectionIsSound(c: Connection, s: Side)
    requires c == NewConnection(s.id, s.peerAddr, c.sendWindow, c.lastTx)
    requires s.tape == [] && s.got == []
    ensures Sound(c, s) && OldestPos(c, s.tape) == 0
  {
  }

  lemma {:induction false} OpenRequestIsTicking(s: Side, p: Packet, now: Micros, oldest: int)
    requires Local(s) && p.connId == s.peerId && (s.known ==> Alive(s))
    requires oldest == if Alive(s) then OldestPos(Conn(s), s.tape) else 0
    ensures Ticking(HandleOpenRequest(s.ep, s.peerAddr, p, now, s.id), s, oldest)
  {
    DestOfOpenPacket(OpenConnReqAck, s.id, s.ep.recvWindow, s.peerId);
    if s.ep.listening && !Alive(s) {
      NewConnectionIsSound(NewConnection(s.id, s.peerAddr, p.recvWindow, now), s);
    }
  }

  lemma {:induction false} OpenAckIsTicking(s: Side, p: Packet, now: Micros, oldest: int)
    requires Local(s) && p.connId == s.peerId && (p.descriptor == OpenConnReqAck ==> DestConnId(p) == s.id)
    requires oldest == if Alive(s) then OldestPos(Conn(s), s.tape) else 0
    ensures Ticking(HandleOpenAck(s.ep, s.peerAddr, p, now), s, oldest)
  {
    if !Alive(s) && DestConnId(p) in s.ep.pendingOpens {
      assert DestConnId(p) == s.id && s.ep.pendingOpens - {s.id} == map[];
      NewConnectionIsSound(NewConnection(s.id, s.peerAddr, p.recvWindow, now), s);
    } else if !Alive(s) {
      assert s.ep.connections == map[];
    }
  }

  /** A step that delivers no data and leaves the connection sound advances its side. */
  lemma {:induction false} TickingAdvances(s: Side, peer: Side, out: set<Stamped>, inbox: set<Stamped>, act: Action,
      oldest: int)
    requires Both(s, peer, out, inbox) && (act.Tick? || act.Deliver?)
    requires Ticking(EpAfter(s, act), s, oldest) && oldest <= |peer.got|
    ensures Advances(s, Act(s, act), peer, Sent(s, act))
  {
    NoDataTokens(EpAfter(s, act).events);
    AllHonest(EpAfter(s, act).outbox, Act(s, act));
  }

  /** A packet outside the byte stream - handshake, attention, acknowledgement of one, close -
      leaves both streams where they were; the connection appears at most once, at zero. */
  lemma {:induction false} DeliverAsideAdvances(s: Side, peer: Side, out: set<Stamped>, inbox: set<Stamped>,
      act: Action)
    requires Both(s, peer, out, inbox) && act.Deliver? && Enabled(s, inbox, act) && !IsStream(act.t.p)
    ensures Advances(s, Act(s, act), peer, Sent(s, act))
  {
    var oldest := if Alive(s) then OldestPos(Conn(s), s.tape) else 0;
    var p := act.t.p;
    if p.attention {
      if p.Control() { AttentionAckIsTicking(s, p, oldest); } else { AttentionIsTicking(s, p, oldest); }
    } else if p.descriptor == OpenConnRequest {
      OpenRequestIsTicking(s, p, act.now, oldest);
    } else if p.descriptor == OpenConnAck || p.descriptor == OpenConnReqAck {
      OpenAckIsTicking(s, p, act.now, oldest);
    }
    assert Ticking(EpAfter(s, act), s, oldest);
    TickingAdvances(s, peer, out, inbox, act, oldest);
  }

  lemma {:induction false} ActAdvances(s: Side, peer: Side, out: set<Stamped>, inbox: set<Stamped>, act: Action)
    requires Both(s, peer, out, inbox) && Enabled(s, inbox, act)
    ensures Advances(s, Act(s, act), peer, Sent(s, act))
  {
    match act
    case Dial(_) => DialAdvances(s, peer, out, inbox, act);
    case Write(_, _) => WriteAdvances(s, peer, out, inbox, act);
    case Attend(_, _, _) => AttendAdvances(s, peer, out, inbox, act);
    case SetWindow(_) => WindowAdvances(s, peer, out, inbox, act);
    case Tick(_) => TickAdvances(s, peer, out, inbox, act);
    case Hangup => HangupAdvances(s, peer, out, inbox, act);
    case Deliver(t, _) =>
      if IsStream(t.p) {
        DeliverStreamAdvances(s, peer, out, inbox, act);
      } else {
        DeliverAsideAdvances(s, peer, out, inbox, act);
      }
  }

  // ---- the theorems -----------------------------------------------------------------------

  lemma {:induction false} ActKeepsBoth(s: Side, peer: Side, out: set<Stamped>, inbox: set<Stamped>, act: Action)
    requires Both(s, peer, out, inbox) && Enabled(s, inbox, act)
    ensures Both(Act(s, act), peer, out + Sent(s, act), inbox)
  {
    ActAdvances(s, peer, out, inbox, act);
    AdvancingKeepsBoth(s, Act(s, act), peer, out, inbox, Sent(s, act));
  }

  lemma {:induction false} BothSwaps(s: Side, peer: Side, out: set<Stamped>, inbox: set<Stamped>)
    requires Both(s, peer, out, inbox)
    ensures Both(peer, s, inbox, out)
  {
  }

  lemma {:induction false} NextKeepsInv(s: System, s': System)
    requires Inv(s) && Next(s, s')
    ensures Inv(s')
  {
    var act :| StepA(s, s', act) || StepB(s, s', act);
    if StepA(s, s', act) {
      ActKeepsBoth(s.a, s.b, s.toB, s.toA, act);
    } else {
      BothSwaps(s.a, s.b, s.toB, s.toA);
      ActKeepsBoth(s.b, s.a, s.toA, s.toB, act);
      BothSwaps(s'.b, s'.a, s'.toA, s'.toB);
    }
  }

  lemma {:induction false} RunKeepsInv(run: seq<System>, n: nat)
    requires IsRun(run) && n < |run|
    ensures Inv(run[n])
  {
    if n > 0 {
      RunKeepsInv(run, n - 1);
      NextKeepsInv(run[n - 1], run[n]);
    }
  }

  /** Stream safety. In every state of every run, what each application has been handed is
      a prefix of what the other one wrote, end-of-message marks included. */
  lemma {:induction false} StreamSafety(run: seq<System>, n: nat)
    requires IsRun(run) && n < |run|
    ensures run[n].b.got <= run[n].a.tape
    ensures run[n].a.got <= run[n].b.tape
  {
    RunKeepsInv(run, n);
  }

  /** Delivery. While a connection lives, an empty transmit backlog means the peer's
      application has been handed every byte ever written; only end-of-message marks at the
      very end can still be on their way. */
  lemma {:induction false} EmptyBacklogMeansDelivered(run: seq<System>, n: nat)
    requires IsRun(run) && n < |run| && Alive(run[n].a)
    requires TxBacklog(run[n].a.ep, run[n].a.peerId) == 0
    ensures var s := run[n];
            && s.b.got <= s.a.tape
            && (forall i :: |s.b.got| <= i < |s.a.tape| ==> s.a.tape[i] == Eom)
            && (Eom !in s.a.tape ==> s.b.got == s.a.tape)
  {
    RunKeepsInv(run, n);
    var s := run[n];
    var c := Conn(s.a);
    var tape := s.a.tape;
    NoBytesPending(c.pendingWrites);
    var cut := CutPos(c, tape);
    forall i | |s.b.got| <= i < |tape|
      ensures tape[i] == Eom
    {
      if cut <= i {
        assert tape[i] == tape[cut..][i - cut];
        assert tape[i] in PendingTokens(c.pendingWrites);
      }
    }
    if |s.b.got| < |tape| {
      assert tape[|s.b.got|] in tape;
    }
  }

  lemma {:induction false} NoBytesPending(ws: seq<PendingWrite>)
    requires PendingBytes(ws) == 0
    ensures forall t :: t in PendingTokens(ws) ==> t == Eom
  {
    if ws != [] {
      NoBytesPending(ws[1..]);
    }
  }

  /** The system with its sides exchanged. */
  function Swapped(s: System): System {
    System(s.b, s.a, s.toB, s.toA)
  }

  ghost function SwappedRun(run: seq<System>): (swapped: seq<System>)
    ensures |swapped| == |run| && forall i :: 0 <= i < |run| ==> swapped[i] == Swapped(run[i])
  {
    seq(|run|, i requires 0 <= i < |run| => Swapped(run[i]))
  }

  lemma {:induction false} NextSwaps(s: System, s': System)
    requires Next(s, s')
    ensures Next(Swapped(s), Swapped(s'))
  {
    var act :| StepA(s, s', act) || StepB(s, s', act);
    assert StepA(s, s', act) ==> StepB(Swapped(s), Swapped(s'), act);
    assert StepB(s, s', act) ==> StepA(Swapped(s), Swapped(s'), act);
  }

  /** Runs know no first side: what holds of side `a` in every run holds of side `b`. */
  lemma {:induction false} RunSwaps(run: seq<System>)
    requires IsRun(run)
    ensures IsRun(SwappedRun(run))
  {
    forall i | 0 <= i < |run| - 1 ensures Next(Swapped(run[i]), Swapped(run[i + 1])) { NextSwaps(run[i], run[i + 1]); }
  }

  /** What the writer alone can see to. While nothing it wrote comes after a mark that is not yet
      acknowledged, no packet can bring a byte into flight behind a mark in flight; nor can a write
      that keeps to the same. Senders of plain bytes always do. */
  lemma {:induction false} WriteGuardSuffices(s: Side, p: Packet, data: seq<byte>, eom: bool, now: Micros)
    requires Local(s) && Alive(s) && NoByteAfterEom(Unacked(Conn(s), s.tape))
    ensures InOrder(HandleData(Conn(s), p, s.ep.recvWindow, now).conn, s.tape)
    ensures NoByteAfterEom(Unacked(HandleData(Conn(s), p, s.ep.recvWindow, now).conn, s.tape))
    ensures |s.tape| + |Tokens(data, eom)| - OldestPos(Conn(s), s.tape) < HALF32
            && NoByteAfterEom(Unacked(Conn(s), s.tape) + Tokens(data, eom)) ==>
              InOrder(Pump(Queued(Conn(s), data, eom), s.ep.recvWindow, None).conn, s.tape + Tokens(data, eom))
  {
    var c, w := Conn(s), s.ep.recvWindow;
    AdspLedger.PacketKeepsLedger(c, w, p, now, s.tape);
    UnackedInOrder(c, HandleData(c, p, w, now).conn, s.tape);
    if |s.tape| + |Tokens(data, eom)| - OldestPos(c, s.tape) < HALF32
       && NoByteAfterEom(Unacked(c, s.tape) + Tokens(data, eom)) {
      QueuedLedger(c, data, eom, s.tape);
      var q, tape := Queued(c, data, eom), s.tape + Tokens(data, eom);
      AdspLedger.PumpLedger(q, w, None, tape);
      UnackedInOrder(q, Pump(q, w, None).conn, tape);
    }
  }

  /** The packet lifetime asked of the network is no restriction on short conversations:
      while both tapes and both attention counts are below half a turn, everything in
      transit is timely. */
  lemma {:induction false} ShortRunsAreTimely(run: seq<System>, n: nat)
    requires IsRun(run) && n < |run|
    requires var s := run[n];
             && |s.a.tape| < HALF32 && s.a.acked < HALF32 && |s.a.heard| < HALF32
             && |s.b.tape| < HALF32 && s.b.acked < HALF32 && |s.b.heard| < HALF32
    ensures forall t :: t in run[n].toA ==> Timely(run[n].a, t)
    ensures forall t :: t in run[n].toB ==> Timely(run[n].b, t)
  {
    RunKeepsInv(run, n);
    SentAtBounded(run[n].a);
    SentAtBounded(run[n].b);
  }
}
