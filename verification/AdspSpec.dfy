/** What each operation of the ADSP endpoint does, as functions on values.

    `AdspEndpoint` (the class) is proved against these functions; the theorems about
    connections, networks and timers are proved about them. */
module AdspSpec {
  import opened Words

  const ADSP_MAX_DATA: nat := 572
  const DEFAULT_RECV_WINDOW: u16 := 1024
  const RETRANSMIT_TIMEOUT: Micros := 3_000_000
  const MAX_RETRIES: nat := 5
  const OPEN_RETRY_INTERVAL: Micros := 1_000_000
  const MAX_OPEN_RETRIES: nat := 5
  const ATTN_RETRY_INTERVAL: Micros := 1_000_000
  const MAX_ATTN_RETRIES: nat := 5

  datatype Descriptor =
    | DataPacket | ControlPacket
    | OpenConnRequest | OpenConnAck | OpenConnReqAck | OpenConnDeny
    | CloseAdvice | ForwardReset | ForwardResetAck | RetransmitAdvice

  /** A parsed header and the bytes after it. The Control flag is the descriptor's top
      bit, so it is set on everything but a data packet. */
  datatype Packet = Packet(
    descriptor: Descriptor,
    connId: u16,
    firstByteSeq: u32,
    nextRecvSeq: u32,
    recvWindow: u16,
    ackReq: bool,
    eom: bool,
    attention: bool,
    payload: seq<byte>)
  {
    predicate Control() { descriptor != DataPacket }
  }

  datatype AdspEvent =
    | Opened(conn: u16, remote: Address, inbound: bool, pending: Option<u16>)
    | OpenFailed(conn: u16)
    | Data(conn: u16, data: seq<byte>, eom: bool)
    | Attention(conn: u16, code: u16, data: seq<byte>)
    | AttentionAcked(conn: u16)
    | AttentionFailed(conn: u16)
    | Closed(conn: u16)

  datatype AdspError = NoSuchConnection | AttentionInFlight

  datatype Write = Write(data: seq<byte>, offset: nat, eom: bool)
  type PendingWrite = w: Write | w.offset <= |w.data| witness Write([], 0, false)

  datatype AttnPending = AttnPending(seqNo: u32, packet: Packet, lastTx: Micros, retries: nat)

  datatype PendingOpen = PendingOpen(remote: Address, lastTx: Micros, retries: nat)

  datatype Connection = Connection(
    ourConnId: u16,
    remote: Address,
    sendSeq: u32,
    oldestUnackedSeq: u32,
    recvSeq: u32,
    sendWindow: u16,
    flightBuffer: seq<byte>,
    pendingWrites: seq<PendingWrite>,
    lastTx: Micros,
    retries: nat,
    attnSendSeq: u32,
    attnRecvSeq: u32,
    attnInFlight: Option<AttnPending>,
    writesSubmitted: nat,
    writesCompleted: nat)

  datatype Endpoint = Endpoint(
    listening: bool,
    recvWindow: u16,
    connections: map<u16, Connection>,
    pendingOpens: map<u16, PendingOpen>,
    outbox: seq<(Address, Packet)>,
    events: seq<AdspEvent>)

  function NewConnection(ourConnId: u16, remote: Address, peerWindow: u16, now: Micros): Connection {
    Connection(ourConnId, remote, 0, 0, 0, peerWindow, [], [], now, 0, 0, 0, None, 0, 0)
  }

  // ---- one connection ---------------------------------------------------------------

  /** A connection after a step, and the packets the step put on the wire. */
  datatype Effect = Effect(conn: Connection, out: seq<Packet>)

  function AckPacket(c: Connection, window: u16): Packet {
    Packet(ControlPacket, c.ourConnId, c.sendSeq, c.recvSeq, window, false, false, false, [])
  }

  function StreamPacket(c: Connection, window: u16, first: u32, eom: bool, payload: seq<byte>): Packet {
    Packet(DataPacket, c.ourConnId, first, c.recvSeq, window, true, eom, false, payload)
  }

  function InFlight(c: Connection): u32 {
    Sub32(c.sendSeq, c.oldestUnackedSeq)
  }

  /** Room the peer's window leaves beyond what is in flight. */
  function Available(c: Connection): nat {
    SaturatingSub(c.sendWindow, InFlight(c))
  }

  function Touched(c: Connection, now: Option<Micros>): Connection {
    if now.Some? then c.(lastTx := now.value) else c
  }

  function WriteDone(c: Connection): Connection
    requires c.pendingWrites != []
  {
    c.(pendingWrites := c.pendingWrites[1..], writesCompleted := c.writesCompleted + 1)
  }

  /** The queue once `take` more bytes of its front write are cut: a write that is done is popped. */
  function QueueAfter(ws: seq<PendingWrite>, take: nat): seq<PendingWrite>
    requires ws != [] && ws[0].offset + take <= |ws[0].data|
  {
    if ws[0].offset + take == |ws[0].data| then ws[1..]
    else [ws[0].(offset := ws[0].offset + take)] + ws[1..]
  }

  /** The chunk of `take` bytes at the front of the queue. */
  function Chunk(c: Connection, take: nat): seq<byte>
    requires c.pendingWrites != [] && c.pendingWrites[0].offset + take <= |c.pendingWrites[0].data|
  {
    c.pendingWrites[0].data[c.pendingWrites[0].offset..c.pendingWrites[0].offset + take]
  }

  /** Whether `take` more bytes finish the front write, and whether they carry its end-of-message. */
  predicate Finishes(c: Connection, take: nat)
    requires c.pendingWrites != []
  {
    c.pendingWrites[0].offset + take == |c.pendingWrites[0].data|
  }

  predicate CarriesEom(c: Connection, take: nat)
    requires c.pendingWrites != []
  {
    c.pendingWrites[0].eom && Finishes(c, take)
  }

  /** Move `take` bytes of the front write into flight. */
  function CutBytes(c: Connection, take: nat): Connection
    requires c.pendingWrites != [] && c.pendingWrites[0].offset + take <= |c.pendingWrites[0].data|
  {
    c.(flightBuffer := c.flightBuffer + Chunk(c, take),
       sendSeq := Add32(c.sendSeq, take + (if CarriesEom(c, take) then 1 else 0)),
       pendingWrites := QueueAfter(c.pendingWrites, take),
       writesCompleted := c.writesCompleted + (if Finishes(c, take) then 1 else 0))
  }

  /** One turn of the pump loop; `None` when it stops. */
  function PumpStep(c: Connection, window: u16, now: Option<Micros>): Option<Effect> {
    if c.pendingWrites == [] then None else
    var front := c.pendingWrites[0];
    var remaining := |front.data| - front.offset;
    if remaining == 0 && front.eom then
      // A bare end-of-message takes one place of sequence space and needs no window.
      var c' := Touched(WriteDone(c), now).(sendSeq := Add32(c.sendSeq, 1));
      Some(Effect(c', [StreamPacket(c, window, c.sendSeq, true, [])]))
    else if remaining == 0 then
      Some(Effect(WriteDone(c), []))
    else if Available(c) == 0 then
      None
    else
      var take := Min(Min(remaining, Available(c)), ADSP_MAX_DATA);
      Some(Effect(Touched(CutBytes(c, take), now),
                  [StreamPacket(c, window, c.sendSeq, CarriesEom(c, take), Chunk(c, take))]))
  }

  function PendingBytes(ws: seq<PendingWrite>): nat {
    if ws == [] then 0 else |ws[0].data| - ws[0].offset + PendingBytes(ws[1..])
  }

  /** The pump loop terminates: every turn finishes a write or cuts at least one byte. */
  lemma {:induction false} PumpStepShrinks(c: Connection, window: u16, now: Option<Micros>)
    requires PumpStep(c, window, now).Some?
    ensures var c' := PumpStep(c, window, now).value.conn;
            PendingBytes(c'.pendingWrites) + |c'.pendingWrites|
              < PendingBytes(c.pendingWrites) + |c.pendingWrites|
  {
    var front := c.pendingWrites[0];
    var c' := PumpStep(c, window, now).value.conn;
    if c'.pendingWrites != c.pendingWrites[1..] {
      assert c'.pendingWrites[1..] == c.pendingWrites[1..];
    }
  }

  /** Push queued writes into the window. */
  function Pump(c: Connection, window: u16, now: Option<Micros>): Effect
    decreases PendingBytes(c.pendingWrites) + |c.pendingWrites|
  {
    var step := PumpStep(c, window, now);
    if step.None? then Effect(c, [])
    else
      PumpStepShrinks(c, window, now);
      var rest := Pump(step.value.conn, window, now);
      Effect(rest.conn, step.value.out + rest.out)
  }

  /** Sequence space a packet takes up: its bytes, and one more for an end-of-message. */
  function SeqLen(p: Packet): nat {
    |p.payload| + (if p.eom then 1 else 0)
  }

  /** How far the receiver is past the packet's first byte; negative beyond a hole. */
  function Overlap(c: Connection, p: Packet): int {
    AsI32(Sub32(c.recvSeq, p.firstByteSeq))
  }

  predicate Accepts(c: Connection, p: Packet) {
    0 <= Overlap(c, p) < SeqLen(p)
  }

  /** Sequence-validate a packet; deliver what is new in it. */
  function Receive(c: Connection, p: Packet): (Connection, seq<AdspEvent>) {
    if !Accepts(c, p) then (c, []) else
    var skip := Min(Overlap(c, p), |p.payload|);
    var unseen := p.payload[skip..];
    (c.(recvSeq := Add32(p.firstByteSeq, SeqLen(p))),
     if unseen != [] || p.eom then [Data(p.connId, unseen, p.eom)] else [])
  }

  /** Take the peer's window, and retire what it acknowledges. */
  function TakeAck(c: Connection, p: Packet): Connection {
    var c1 := c.(sendWindow := p.recvWindow);
    var acked := Sub32(p.nextRecvSeq, c.oldestUnackedSeq);
    if 0 < acked <= InFlight(c) then
      c1.(flightBuffer := c.flightBuffer[Min(acked, |c.flightBuffer|)..],
          oldestUnackedSeq := p.nextRecvSeq,
          retries := 0)
    else c1
  }

  /** A data or control packet: receive, acknowledge if asked, pump. */
  function HandleData(c: Connection, p: Packet, window: u16, now: Micros): Effect {
    var acked := Pump(TakeAck(Receive(c, p).0, p), window, Some(now));
    var reply := if p.ackReq then [AckPacket(acked.conn, window)] else [];
    var pumped := Pump(acked.conn, window, Some(now));
    Effect(pumped.conn, acked.out + reply + pumped.out)
  }

  /** The flight buffer from `i` on, cut into packets. */
  function ResendFrom(c: Connection, window: u16, i: nat): (ps: seq<Packet>)
    requires i <= |c.flightBuffer|
    decreases |c.flightBuffer| - i
  {
    if i == |c.flightBuffer| then [] else
    var take := Min(ADSP_MAX_DATA, |c.flightBuffer| - i);
    [StreamPacket(c, window, Add32(c.oldestUnackedSeq, i), false, c.flightBuffer[i..i + take])]
    + ResendFrom(c, window, i + take)
  }

  /** Go back and send everything unacknowledged again. */
  function Resend(c: Connection, window: u16, now: Micros): Effect {
    if c.flightBuffer == [] then Effect(c, [])
    else Effect(c.(lastTx := now), ResendFrom(c, window, 0))
  }

  function AttentionPacket(c: Connection, code: u16, data: seq<byte>): Packet {
    Packet(DataPacket, c.ourConnId, c.attnSendSeq, c.attnRecvSeq, 0, true, false, true, WriteU16(code) + data)
  }

  /** Send a new attention; the caller has checked that none is in flight. */
  function SendAttentionOn(c: Connection, code: u16, data: seq<byte>, now: Micros): Effect {
    var p := AttentionPacket(c, code, data);
    Effect(c.(attnInFlight := Some(AttnPending(c.attnSendSeq, p, now, 0))), [p])
  }

  /** A message is new exactly when it carries the sequence expected next. */
  predicate FreshAttention(c: Connection, p: Packet) {
    p.firstByteSeq == c.attnRecvSeq
  }

  /** An attention message: acknowledged always, counted once. */
  function TakeAttention(c: Connection, p: Packet): Effect
    requires |p.payload| >= 2
  {
    var c' := if FreshAttention(c, p) then c.(attnRecvSeq := Add32(c.attnRecvSeq, 1)) else c;
    Effect(c', [Packet(ControlPacket, c.ourConnId, c.attnSendSeq, c'.attnRecvSeq, 0, false, false, true,
                       WriteU16(ReadU16(p.payload)))])
  }

  /** Whether a packet acknowledges the attention in flight. */
  predicate AcksAttention(c: Connection, p: Packet) {
    c.attnInFlight.Some? && p.nextRecvSeq == Add32(c.attnInFlight.value.seqNo, 1)
  }

  function RetireAttention(c: Connection): Connection {
    c.(attnInFlight := None, attnSendSeq := Add32(c.attnSendSeq, 1))
  }

  // ---- the endpoint -----------------------------------------------------------------

  function ToRemote(remote: Address, ps: seq<Packet>): seq<(Address, Packet)> {
    seq(|ps|, i requires 0 <= i < |ps| => (remote, ps[i]))
  }

  /** Store a connection's new state and queue what it sent. */
  function Update(e: Endpoint, key: u16, f: Effect): Endpoint {
    e.(connections := e.connections[key := f.conn],
       outbox := e.outbox + ToRemote(f.conn.remote, f.out))
  }

  function Emit(e: Endpoint, evs: seq<AdspEvent>): Endpoint {
    e.(events := e.events + evs)
  }

  function SendAck(e: Endpoint, key: u16): Endpoint {
    if key !in e.connections then e else
    var c := e.connections[key];
    e.(outbox := e.outbox + [(c.remote, AckPacket(c, e.recvWindow))])
  }

  function SendAcks(e: Endpoint, keys: seq<u16>): Endpoint {
    if keys == [] then e
    else SendAck(SendAcks(e, keys[..|keys| - 1]), keys[|keys| - 1])
  }

  /** Set the advertised window; reopening a closed one is announced on every connection. */
  ghost function SetRecvWindow(e: Endpoint, window: u16): Endpoint {
    var e1 := e.(recvWindow := window);
    if e.recvWindow == 0 && window > 0 then SendAcks(e1, Ascending(e.connections.Keys)) else e1
  }

  function OpenPacket(descriptor: Descriptor, ourConnId: u16, window: u16, dest: u16): Packet {
    Packet(descriptor, ourConnId, 0, 0, window, false, false, false,
           WriteU16(0x0100) + WriteU16(dest) + [0, 0, 0, 0])
  }

  function SendOpenReply(e: Endpoint, d: Descriptor, ourConnId: u16, dest: u16, remote: Address): Endpoint {
    e.(outbox := e.outbox + [(remote, OpenPacket(d, ourConnId, e.recvWindow, dest))])
  }

  /** Begin an outbound connect under a fresh non-zero id. */
  function Connect(e: Endpoint, remote: Address, now: Micros, id: u16): Endpoint {
    e.(pendingOpens := e.pendingOpens[id := PendingOpen(remote, now, 0)],
       outbox := e.outbox + [(remote, OpenPacket(OpenConnRequest, id, e.recvWindow, 0))])
  }

  function TxBacklog(e: Endpoint, conn: u16): nat {
    if conn in e.connections
    then |e.connections[conn].flightBuffer| + PendingBytes(e.connections[conn].pendingWrites)
    else 0
  }

  function Queued(c: Connection, data: seq<byte>, eom: bool): Connection {
    c.(writesSubmitted := c.writesSubmitted + 1, pendingWrites := c.pendingWrites + [Write(data, 0, eom)])
  }

  /** Queue stream data and pump, without touching the retransmission timer. */
  function Send(e: Endpoint, conn: u16, data: seq<byte>, eom: bool): Endpoint {
    if conn !in e.connections then e
    else Update(e, conn, Pump(Queued(e.connections[conn], data, eom), e.recvWindow, None))
  }

  function SendAttention(e: Endpoint, conn: u16, code: u16, data: seq<byte>, now: Micros): Endpoint {
    if conn !in e.connections || e.connections[conn].attnInFlight.Some? then e
    else Update(e, conn, SendAttentionOn(e.connections[conn], code, data, now))
  }

  function AbandonOpen(e: Endpoint, pending: u16): Endpoint {
    e.(pendingOpens := e.pendingOpens - {pending})
  }

  function Close(e: Endpoint, conn: u16): Endpoint {
    if conn !in e.connections then e else
    var c := e.connections[conn];
    e.(connections := e.connections - {conn},
       outbox := e.outbox + [(c.remote,
         Packet(CloseAdvice, c.ourConnId, c.sendSeq, c.recvSeq, 0, false, false, false, []))])
  }

  /** The id an accepted connection takes from a random draw: the draw, made odd. */
  function MadeOdd(drawn: u16): u16 {
    if drawn % 2 == 0 then drawn + 1 else drawn
  }

  function HandleOpenRequest(e: Endpoint, src: Address, p: Packet, now: Micros, drawn: u16): Endpoint {
    if !e.listening then e
    else if p.connId in e.connections then
      SendOpenReply(e, OpenConnReqAck, e.connections[p.connId].ourConnId, p.connId, src)
    else
      var ours := MadeOdd(drawn);
      var e1 := e.(connections := e.connections[p.connId := NewConnection(ours, src, p.recvWindow, now)]);
      Emit(SendOpenReply(e1, OpenConnReqAck, ours, p.connId, src), [Opened(p.connId, src, true, None)])
  }

  /** The DestConnID of an open packet, which echoes the id of the end it answers. */
  function DestConnId(p: Packet): u16 {
    if |p.payload| >= 4 then ReadU16(p.payload[2..4]) else p.connId
  }

  lemma {:induction false} DestOfOpenPacket(d: Descriptor, id: u16, window: u16, dest: u16)
    ensures DestConnId(OpenPacket(d, id, window, dest)) == dest
  {
    var p := OpenPacket(d, id, window, dest);
    assert p.payload[2..4] == WriteU16(dest);
    ReadWriteU16(dest, []);
    assert WriteU16(dest) + [] == WriteU16(dest);
  }

  /** The smallest key whose connection carries our id `ours`: the first an ordered walk finds. */
  ghost predicate IsStaleKey(conns: map<u16, Connection>, ours: u16, k: u16) {
    && k in conns && conns[k].ourConnId == ours
    && forall j: u16 :: j in conns && conns[j].ourConnId == ours ==> k <= j
  }

  ghost function HandleOpenAck(e: Endpoint, src: Address, p: Packet, now: Micros): Endpoint {
    var key := p.connId;
    var ours := DestConnId(p);
    var reply := p.descriptor == OpenConnReqAck;
    if key in e.connections then
      if reply then SendOpenReply(e, OpenConnAck, ours, key, src) else e
    else if ours !in e.pendingOpens then
      if exists k: u16 :: IsStaleKey(e.connections, ours, k) then
        var stale: u16 :| IsStaleKey(e.connections, ours, stale);
        var e1 := e.(connections := (e.connections - {stale})[key := e.connections[stale]]);
        Emit(SendOpenReply(e1, OpenConnAck, ours, key, src), [Opened(key, src, false, Some(ours))])
      else e
    else
      var e1 := e.(pendingOpens := e.pendingOpens - {ours},
                   connections := e.connections[key := NewConnection(ours, src, p.recvWindow, now)]);
      var e2 := if reply then SendOpenReply(e1, OpenConnAck, ours, key, src) else e1;
      Emit(e2, [Opened(key, src, false, Some(ours))])
  }

  function HandleDeny(e: Endpoint, p: Packet): Endpoint {
    var ours := DestConnId(p);
    if ours in e.pendingOpens
    then Emit(e.(pendingOpens := e.pendingOpens - {ours}), [OpenFailed(ours)])
    else e
  }

  function HandleAttention(e: Endpoint, p: Packet): Endpoint {
    if |p.payload| < 2 || p.connId !in e.connections then e else
    var c := e.connections[p.connId];
    Emit(Update(e, p.connId, TakeAttention(c, p)),
         if FreshAttention(c, p) then [Attention(p.connId, ReadU16(p.payload), p.payload[2..])] else [])
  }

  function HandleAttentionAck(e: Endpoint, p: Packet): Endpoint {
    if p.connId !in e.connections || !AcksAttention(e.connections[p.connId], p) then e
    else Emit(e.(connections := e.connections[p.connId := RetireAttention(e.connections[p.connId])]),
              [AttentionAcked(p.connId)])
  }

  function HandleStream(e: Endpoint, p: Packet, now: Micros): Endpoint {
    if p.connId !in e.connections then e else
    var c := e.connections[p.connId];
    Emit(Update(e, p.connId, HandleData(c, p, e.recvWindow, now)), Receive(c, p).1)
  }

  function HandleAdvice(e: Endpoint, p: Packet, now: Micros): Endpoint {
    if p.connId !in e.connections then e else
    var acked := Pump(TakeAck(e.connections[p.connId], p), e.recvWindow, Some(now));
    var resent := Resend(acked.conn, e.recvWindow, now);
    Update(e, p.connId, Effect(resent.conn, acked.out + resent.out))
  }

  function HandleClose(e: Endpoint, p: Packet): Endpoint {
    if p.connId !in e.connections then e
    else Emit(e.(connections := e.connections - {p.connId}), [Closed(p.connId)])
  }

  /** Feed a received packet. `drawn` is the random word an inbound open would take its id from. */
  ghost function HandleDatagram(e: Endpoint, src: Address, p: Packet, now: Micros, drawn: u16): Endpoint {
    if p.attention then
      if p.Control() then HandleAttentionAck(e, p) else HandleAttention(e, p)
    else match p.descriptor {
      case OpenConnRequest => HandleOpenRequest(e, src, p, now, drawn)
      case OpenConnAck => HandleOpenAck(e, src, p, now)
      case OpenConnReqAck => HandleOpenAck(e, src, p, now)
      case OpenConnDeny => HandleDeny(e, p)
      case DataPacket => HandleStream(e, p, now)
      case ControlPacket => HandleStream(e, p, now)
      case RetransmitAdvice => HandleAdvice(e, p, now)
      case CloseAdvice => HandleClose(e, p)
      case ForwardReset => e
      case ForwardResetAck => e
    }
  }

  // ---- timers -----------------------------------------------------------------------

  predicate OpenDue(o: PendingOpen, now: Micros) {
    SaturatingSub(now, o.lastTx) >= OPEN_RETRY_INTERVAL
  }

  predicate OpenGivesUp(o: PendingOpen, now: Micros) {
    OpenDue(o, now) && o.retries + 1 > MAX_OPEN_RETRIES
  }

  predicate OpenRetries(o: PendingOpen, now: Micros) {
    OpenDue(o, now) && !OpenGivesUp(o, now)
  }

  function OpenTicked(o: PendingOpen, now: Micros): PendingOpen {
    if OpenDue(o, now) then o.(retries := o.retries + 1, lastTx := now) else o
  }

  function OpensAfter(opens: map<u16, PendingOpen>, now: Micros): map<u16, PendingOpen> {
    map id | id in opens && !OpenGivesUp(opens[id], now) :: OpenTicked(opens[id], now)
  }

  function OpenFailures(opens: map<u16, PendingOpen>, ids: seq<u16>, now: Micros): seq<AdspEvent>
    requires forall id :: id in ids ==> id in opens
  {
    if ids == [] then [] else
    var id := ids[|ids| - 1];
    OpenFailures(opens, ids[..|ids| - 1], now) + (if OpenGivesUp(opens[id], now) then [OpenFailed(id)] else [])
  }

  function OpenRequests(opens: map<u16, PendingOpen>, ids: seq<u16>, window: u16, now: Micros): seq<(Address, Packet)>
    requires forall id :: id in ids ==> id in opens
  {
    if ids == [] then [] else
    var id := ids[|ids| - 1];
    OpenRequests(opens, ids[..|ids| - 1], window, now)
    + (if OpenRetries(opens[id], now)
       then [(opens[id].remote, OpenPacket(OpenConnRequest, id, window, 0))] else [])
  }

  ghost function PollOpens(e: Endpoint, now: Micros): Endpoint {
    var ids := Ascending(e.pendingOpens.Keys);
    e.(pendingOpens := OpensAfter(e.pendingOpens, now),
       events := e.events + OpenFailures(e.pendingOpens, ids, now),
       outbox := e.outbox + OpenRequests(e.pendingOpens, ids, e.recvWindow, now))
  }

  predicate AttnDue(c: Connection, now: Micros) {
    c.attnInFlight.Some? && SaturatingSub(now, c.attnInFlight.value.lastTx) >= ATTN_RETRY_INTERVAL
  }

  /** The attention timer of one connection. */
  function PollAttention(e: Endpoint, key: u16, now: Micros): Endpoint {
    if key !in e.connections || !AttnDue(e.connections[key], now) then e else
    var c := e.connections[key];
    var attn := c.attnInFlight.value;
    if attn.retries + 1 > MAX_ATTN_RETRIES then
      Emit(e.(connections := e.connections[key := c.(attnInFlight := None)]), [AttentionFailed(key)])
    else
      Update(e, key, Effect(c.(attnInFlight := Some(attn.(retries := attn.retries + 1, lastTx := now))),
                            [attn.packet]))
  }

  function PollAttentions(e: Endpoint, keys: seq<u16>, now: Micros): Endpoint {
    if keys == [] then e
    else PollAttention(PollAttentions(e, keys[..|keys| - 1], now), keys[|keys| - 1], now)
  }

  predicate DataDue(c: Connection, now: Micros) {
    c.flightBuffer != [] && SaturatingSub(now, c.lastTx) >= RETRANSMIT_TIMEOUT
  }

  /** The retransmission timer of one connection. */
  function PollStream(e: Endpoint, key: u16, now: Micros): Endpoint {
    if key !in e.connections || !DataDue(e.connections[key], now) then e else
    var c := e.connections[key];
    var c1 := c.(retries := Min(c.retries + 1, 255));
    if c1.retries > MAX_RETRIES
    then Emit(e.(connections := e.connections - {key}), [Closed(key)])
    else Update(e, key, Resend(c1, e.recvWindow, now))
  }

  function PollStreams(e: Endpoint, keys: seq<u16>, now: Micros): Endpoint {
    if keys == [] then e
    else PollStream(PollStreams(e, keys[..|keys| - 1], now), keys[|keys| - 1], now)
  }

  ghost function Poll(e: Endpoint, now: Micros): Endpoint {
    var e1 := PollOpens(e, now);
    var e2 := PollAttentions(e1, Ascending(e1.connections.Keys), now);
    PollStreams(e2, Ascending(e2.connections.Keys), now)
  }

  /** Every moment at which some timer is due. */
  ghost function Deadlines(e: Endpoint): set<Micros> {
    (set k | k in e.connections && e.connections[k].flightBuffer != [] ::
      e.connections[k].lastTx + RETRANSMIT_TIMEOUT)
    + (set id | id in e.pendingOpens :: e.pendingOpens[id].lastTx + OPEN_RETRY_INTERVAL)
    + (set k | k in e.connections && e.connections[k].attnInFlight.Some? ::
        e.connections[k].attnInFlight.value.lastTx + ATTN_RETRY_INTERVAL)
  }
}
