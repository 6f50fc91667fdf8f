/** What each operation of the PAP server does, as functions on values. */
module PapSpec {
  import opened Words
  import opened AtpSpec

  const PAP_MAX_DATA_PER_PACKET: nat := 512
  const FLOW_QUANTUM: u8 := 8
  const PULL_CAPACITY: nat := 4096
  const READ_IDLE_ANSWER: Micros := 2_000_000
  const TICKLE_INTERVAL: Micros := 30_000_000
  const INACTIVITY_TIMEOUT: Micros := 120_000_000
  const READ_REPLY_CACHE_LEN: nat := 8
  const MAX_STATUS: nat := 255

  // ---- packets --------------------------------------------------------------------------------

  datatype PapFunction =
    | OpenConn | OpenConnReply | SendData | Data | Tickle | CloseConn | CloseConnReply | SendStatus | Status

  datatype PapPacket = PapPacket(connId: u8, function_: PapFunction, seqNum: u16, eof: bool, data: seq<byte>)

  function Code(f: PapFunction): byte {
    match f
    case OpenConn => 1
    case OpenConnReply => 2
    case SendData => 3
    case Data => 4
    case Tickle => 5
    case CloseConn => 6
    case CloseConnReply => 7
    case SendStatus => 8
    case Status => 9
  }

  function FunctionOf(code: byte): Option<PapFunction> {
    if code == 1 then Some(OpenConn)
    else if code == 2 then Some(OpenConnReply)
    else if code == 3 then Some(SendData)
    else if code == 4 then Some(Data)
    else if code == 5 then Some(Tickle)
    else if code == 6 then Some(CloseConn)
    else if code == 7 then Some(CloseConnReply)
    else if code == 8 then Some(SendStatus)
    else if code == 9 then Some(Status)
    else None
  }

  /** The PAP header rides in the ATP user bytes. */
  function UserBytesOf(p: PapPacket): UserBytes {
    match p.function_
    case Data => UserBytes(p.connId, Code(Data), if p.eof then 1 else 0, 0)
    case SendData => UserBytes(p.connId, Code(SendData), p.seqNum / 256, p.seqNum % 256)
    case _ => UserBytes(p.connId, Code(p.function_), 0, 0)
  }

  function Parse(u: UserBytes, data: seq<byte>): Option<PapPacket> {
    match FunctionOf(u.b1)
    case None => None
    case Some(Data) => Some(PapPacket(u.b0, Data, 0, u.b2 != 0, data))
    case Some(SendData) => Some(PapPacket(u.b0, SendData, u.b2 * 256 + u.b3, false, data))
    case Some(f) => Some(PapPacket(u.b0, f, 0, false, data))
  }

  /** A packet that uses only the fields its function carries. */
  predicate Canonical(p: PapPacket) {
    (p.function_ != SendData ==> p.seqNum == 0) && (p.function_ != Data ==> !p.eof)
  }

  lemma {:induction false} ParseInverts(p: PapPacket)
    requires Canonical(p)
    ensures Parse(UserBytesOf(p), p.data) == Some(p)
  {
  }

  // ---- state ----------------------------------------------------------------------------------

  datatype PapEvent =
    | ConnectionOpened(client: Address)
    | ToPrinter(bytes: seq<byte>)
    | JobEof
    | ConnectionClosed

  /** A client read waiting for an answer. */
  datatype Read = Read(source: Address, tid: u16, bitmap: u8, seqNum: u16)

  datatype CachedRead = CachedRead(seqNum: u16, userBytes: UserBytes, data: seq<byte>)

  datatype Session = Session(
    connId: u8,
    client: Address,
    pullSeq: u16,
    outstandingPull: Option<u16>,
    jobBytes: nat,
    readSeq: u16,
    readCache: seq<CachedRead>,
    pendingRead: Option<Read>,
    stdout: seq<byte>,
    eofQueued: bool,
    lastClientWrite: Micros,
    lastActivity: Micros,
    nextTickle: Micros)

  datatype PapServer = PapServer(
    listenerSocket: u8,
    connSocket: u8,
    listener: Atp,
    conn: Atp,
    status: seq<byte>,
    session: Option<Session>,
    sinkCredit: nat,
    events: seq<PapEvent>)

  /** The next sequence number: 1 to 65535, then 1 again. */
  function NextPapSeq(s: u16): u16 {
    if s == 0xFFFF then 1 else s + 1
  }

  function NewSession(connId: u8, client: Address, now: Micros): Session {
    Session(connId, client, 1, None, 0, 1, [], None, [], false, now, now, now + TICKLE_INTERVAL)
  }

  function Reply(a: Atp, source: Address, tid: u16, p: PapPacket, now: Micros): Atp {
    Respond(a, source, tid, UserBytesOf(p), p.data, PAP_MAX_DATA_PER_PACKET, now)
  }

  function StatusPascal(status: seq<byte>): seq<byte> {
    [|status| % 0x100] + status
  }

  // ---- the listener -----------------------------------------------------------------------------

  function OpenReply(p: PapServer, connId: u8, socket: u8, result: byte): PapPacket {
    PapPacket(connId, OpenConnReply, 0, false, [socket, FLOW_QUANTUM, result, result] + StatusPascal(p.status))
  }

  function StatusReply(p: PapServer): PapPacket {
    PapPacket(0, Status, 0, false, [0, 0, 0, 0] + StatusPascal(p.status))
  }

  /** A busy server refuses; a free one opens a session with the client. */
  function HandleOpen(p: PapServer, source: Address, tid: u16, pap: PapPacket, now: Micros): PapServer {
    if |pap.data| < 2 then p
    else if p.session.Some? then
      p.(listener := Reply(p.listener, source, tid, OpenReply(p, pap.connId, 0, 0xFF), now))
    else
      var client := Address(source.network, source.node, pap.data[0]);
      p.(listener := Reply(p.listener, source, tid, OpenReply(p, pap.connId, p.connSocket, 0), now),
         session := Some(NewSession(pap.connId, client, now)),
         events := p.events + [ConnectionOpened(client)])
  }

  function HandleListenerEvent(p: PapServer, ev: AtpEvent, now: Micros): PapServer {
    if !ev.RequestEvent? then p else
    match Parse(ev.userBytes, ev.data)
    case None => p
    case Some(pap) =>
      if pap.function_ == SendStatus then p.(listener := Reply(p.listener, ev.source, ev.tid, StatusReply(p), now))
      else if pap.function_ == OpenConn then HandleOpen(p, ev.source, ev.tid, pap, now)
      else p
  }

  // ---- the connection -----------------------------------------------------------------------------

  function FindRead(cache: seq<CachedRead>, s: u16): Option<CachedRead> {
    if cache == [] then None else if cache[0].seqNum == s then Some(cache[0]) else FindRead(cache[1..], s)
  }

  /** A read in turn, or unsequenced, waits for an answer; a repeat of an answered one gets the
      same answer; anything else is stale. */
  function HandleSendData(p: PapServer, s: Session, ev: AtpEvent, pap: PapPacket, now: Micros): PapServer
    requires ev.RequestEvent?
  {
    if pap.seqNum != 0 && pap.seqNum != s.readSeq then
      match FindRead(s.readCache, pap.seqNum)
      case None => p.(session := Some(s))
      case Some(c) =>
        p.(session := Some(s),
           conn := Respond(p.conn, ev.source, ev.tid, c.userBytes, c.data, PAP_MAX_DATA_PER_PACKET, now))
    else p.(session := Some(s.(pendingRead := Some(Read(ev.source, ev.tid, ev.bitmap, pap.seqNum)))))
  }

  function HandleConnRequest(p: PapServer, ev: AtpEvent, now: Micros): PapServer
    requires ev.RequestEvent?
  {
    match Parse(ev.userBytes, ev.data)
    case None => p
    case Some(pap) =>
      if p.session.None? || pap.connId != p.session.value.connId then p else
      var s := p.session.value.(lastActivity := now);
      if pap.function_ == SendData then HandleSendData(p, s, ev, pap, now)
      else if pap.function_ == CloseConn then
        p.(conn := Reply(p.conn, ev.source, ev.tid, PapPacket(pap.connId, CloseConnReply, 0, false, []), now),
           session := None,
           events := p.events + [ConnectionClosed])
      else p.(session := Some(s))
  }

  /** The session after a reply to its pull, and what the reply makes it say. */
  function TakePulled(s: Session, u: UserBytes, data: seq<byte>, now: Micros): (Session, seq<PapEvent>) {
    var freed := s.(outstandingPull := None);
    var pap := Parse(u, data);
    if pap.None? || pap.value.function_ != Data then (freed, []) else
    var bytes := pap.value.data;
    var t := freed.(lastActivity := now, lastClientWrite := now, pullSeq := NextPapSeq(s.pullSeq),
                    jobBytes := s.jobBytes + |bytes|);
    var said := if bytes != [] then [ToPrinter(bytes)] else [];
    if pap.value.eof && t.jobBytes > 0 then (t.(jobBytes := 0), said + [JobEof]) else (t, said)
  }

  function HandleConnEvent(p: PapServer, ev: AtpEvent, now: Micros): PapServer {
    match ev
    case RequestEvent(_, _, _, _, _, _) => HandleConnRequest(p, ev, now)
    case ResponseEvent(handle, u, data) =>
      if p.session.None? || p.session.value.outstandingPull != Some(handle) then p else
      var (s, said) := TakePulled(p.session.value, u, data, now);
      p.(session := Some(s), events := p.events + said)
    case RequestFailed(handle) =>
      if p.session.None? || p.session.value.outstandingPull != Some(handle) then p
      else p.(session := Some(p.session.value.(outstandingPull := None)))
  }

  // ---- pulling and answering -----------------------------------------------------------------------

  /** Whether a pull is to be issued. With every transaction id taken the source would search for
      ever; no pull is modelled then. */
  ghost predicate WantsPull(p: PapServer) {
    && p.session.Some? && p.session.value.outstandingPull.None? && p.sinkCredit >= PULL_CAPACITY
    && HasFreeTid(p.conn.pending)
  }

  ghost function PullTid(p: PapServer): u16
    requires WantsPull(p)
  {
    AllocateTid(p.conn.pending, p.conn.nextTid)
  }

  ghost function MaybePull(p: PapServer, now: Micros): PapServer {
    if !WantsPull(p) then p else
    var s := p.session.value;
    var pull := PapPacket(s.connId, SendData, s.pullSeq, false, []);
    p.(conn := MakeRequest(p.conn, s.client, UserBytesOf(pull), [], 0xFF, now),
       session := Some(s.(outstandingPull := Some(PullTid(p)))))
  }

  /** Packets a read may be answered in. */
  function MaxPackets(bitmap: u8): nat {
    var n := Ones(bitmap);
    if n < 1 then 1 else if n > 8 then 8 else n
  }

  predicate ReadReady(s: Session, now: Micros) {
    s.pendingRead.Some? && (s.stdout != [] || s.eofQueued || now >= s.lastClientWrite + READ_IDLE_ANSWER)
  }

  /** The bytes the waiting read gets. */
  function ReadChunk(s: Session): seq<byte>
    requires s.pendingRead.Some?
  {
    s.stdout[..Min(|s.stdout|, MaxPackets(s.pendingRead.value.bitmap) * PAP_MAX_DATA_PER_PACKET)]
  }

  function ReadEof(s: Session): bool
    requires s.pendingRead.Some?
  {
    s.eofQueued && |ReadChunk(s)| == |s.stdout|
  }

  function ReadReply(s: Session): PapPacket
    requires s.pendingRead.Some?
  {
    PapPacket(s.connId, Data, 0, ReadEof(s), ReadChunk(s))
  }

  function Answered(s: Session): Session
    requires s.pendingRead.Some?
  {
    var r := s.pendingRead.value;
    var t := s.(pendingRead := None, stdout := s.stdout[|ReadChunk(s)|..], eofQueued := s.eofQueued && !ReadEof(s));
    if r.seqNum == 0 then t else
    var room := if |s.readCache| == READ_REPLY_CACHE_LEN then s.readCache[1..] else s.readCache;
    t.(readSeq := NextPapSeq(s.readSeq),
       readCache := room + [CachedRead(r.seqNum, UserBytesOf(ReadReply(s)), ReadChunk(s))])
  }

  function AnswerRead(p: PapServer, now: Micros): PapServer {
    if p.session.None? || !ReadReady(p.session.value, now) then p else
    var s := p.session.value;
    var r := s.pendingRead.value;
    p.(session := Some(Answered(s)), conn := Reply(p.conn, r.source, r.tid, ReadReply(s), now))
  }

  // ---- the public operations --------------------------------------------------------------------------

  function SetStatus(p: PapServer, status: seq<byte>): PapServer {
    p.(status := status[..Min(|status|, MAX_STATUS)])
  }

  ghost function SetSinkCredit(p: PapServer, bytes: nat, now: Micros): PapServer {
    MaybePull(p.(sinkCredit := bytes), now)
  }

  function Queued(p: PapServer, data: seq<byte>): PapServer {
    if p.session.None? then p else p.(session := Some(p.session.value.(stdout := p.session.value.stdout + data)))
  }

  function Ended(p: PapServer): PapServer {
    if p.session.None? then p else p.(session := Some(p.session.value.(eofQueued := true)))
  }

  function QueueOutput(p: PapServer, data: seq<byte>, now: Micros): PapServer {
    AnswerRead(Queued(p, data), now)
  }

  function EndOutput(p: PapServer, now: Micros): PapServer {
    AnswerRead(Ended(p), now)
  }

  function ListenerEvents(p: PapServer, evs: seq<AtpEvent>, now: Micros): PapServer {
    if evs == [] then p
    else HandleListenerEvent(ListenerEvents(p, evs[..|evs| - 1], now), evs[|evs| - 1], now)
  }

  function ConnEvents(p: PapServer, evs: seq<AtpEvent>, now: Micros): PapServer {
    if evs == [] then p
    else HandleConnEvent(ConnEvents(p, evs[..|evs| - 1], now), evs[|evs| - 1], now)
  }

  /** Handling an event raises none, so both queues are taken as they stand. */
  ghost function Drain(p: PapServer, now: Micros): PapServer {
    var p1 := ListenerEvents(p.(listener := p.listener.(events := [])), p.listener.events, now);
    var p2 := ConnEvents(p1.(conn := p1.conn.(events := [])), p1.conn.events, now);
    MaybePull(AnswerRead(p2, now), now)
  }

  /** A datagram goes to the endpoint its socket belongs to. */
  function Fed(p: PapServer, socket: u8, src: Address, q: AtpPacket): PapServer {
    if socket == p.listenerSocket then p.(listener := AtpSpec.HandleDatagram(p.listener, src, q))
    else if socket == p.connSocket then p.(conn := AtpSpec.HandleDatagram(p.conn, src, q))
    else p
  }

  ghost function HandleDatagram(p: PapServer, socket: u8, src: Address, q: AtpPacket, now: Micros): PapServer {
    Drain(Fed(p, socket, src, q), now)
  }

  predicate Abandoned(s: Session, now: Micros) {
    SaturatingSub(now, s.lastActivity) > INACTIVITY_TIMEOUT
  }

  /** Close a session that has gone quiet; tickle the client of one that has not. */
  ghost function KeepAlive(p: PapServer, now: Micros): PapServer {
    if p.session.None? then p else
    var s := p.session.value;
    if Abandoned(s, now) then p.(session := None, events := p.events + [ConnectionClosed])
    else if now >= s.nextTickle && HasFreeTid(p.conn.pending) then
      p.(session := Some(s.(nextTickle := now + TICKLE_INTERVAL)),
         conn := SendAlo(p.conn, s.client, UserBytesOf(PapPacket(s.connId, Tickle, 0, false, []))))
    else p
  }

  ghost function Poll(p: PapServer, now: Micros): PapServer {
    var p1 := Drain(p.(listener := AtpSpec.Poll(p.listener, now), conn := AtpSpec.Poll(p.conn, now)), now);
    MaybePull(AnswerRead(KeepAlive(p1, now), now), now)
  }

  function NewServer(listenerSocket: u8, connSocket: u8): PapServer {
    var a := Atp(1, map[], [], [], [], []);
    PapServer(listenerSocket, connSocket, a, a, [], None, 0, [])
  }
}
