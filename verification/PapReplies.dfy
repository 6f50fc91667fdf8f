/** What a PAP client is told: the answers of the server as a client reads them off the packets, and
    what they say of the server. */
module PapReplies {
  import opened Words
  import opened AtpSpec
  import opened PapSpec
  import opened AtpReassembly

  /** The packets are a whole reply: a client waiting under this id, whose request asks for as many,
      reads this PAP packet off them in whatever order they come. */
  ghost predicate Says(ps: seq<AtpPacket>, tid: u16, said: PapPacket) {
    forall q: Atp, src: Address, order: seq<u8> ::
      Untouched(q, tid) && Fits(q.pending[tid].requestedBitmap, |ps|) && Within(order, |ps|) && Covers(order, |ps|) ==>
        exists u :: Feed(q, src, ps, order).events == q.events + [ResponseEvent(tid, u, said.data)]
                    && Parse(u, said.data) == Some(said)
  }

  /** What an endpoint queued between two states is one such reply, and nothing else. */
  ghost predicate Tells(a: Atp, a': Atp, to: Address, tid: u16, said: PapPacket) {
    exists ps :: a'.outbox == a.outbox + ToAddress(to, ps) && Says(ps, tid, said)
  }

  lemma {:induction false} RespondTells(a: Atp, to: Address, tid: u16, said: PapPacket, now: Micros)
    requires Canonical(said) && Needed(said.data, PAP_MAX_DATA_PER_PACKET) <= MAX_REPLY_PACKETS
    ensures Tells(a, Reply(a, to, tid, said, now), to, tid, said)
  {
    var u := UserBytesOf(said);
    var ps := Framed(tid, ReplyChunks(u, said.data, PAP_MAX_DATA_PER_PACKET));
    ChunksCarry(u, said.data, PAP_MAX_DATA_PER_PACKET);
    ParseInverts(said);
    forall q: Atp, src: Address, order: seq<u8> |
      Untouched(q, tid) && Fits(q.pending[tid].requestedBitmap, |ps|) && Within(order, |ps|) && Covers(order, |ps|)
      ensures Feed(q, src, ps, order).events == q.events + [ResponseEvent(tid, u, said.data)]
    {
      RoundTrip(q, src, tid, u, said.data, PAP_MAX_DATA_PER_PACKET, order);
    }
    assert Says(ps, tid, said);
  }

  lemma {:induction false} ShortFits(data: seq<byte>)
    requires |data| <= MAX_REPLY_PACKETS * PAP_MAX_DATA_PER_PACKET
    ensures Needed(data, PAP_MAX_DATA_PER_PACKET) <= MAX_REPLY_PACKETS
  {
  }

  // ---- the listener's answers -----------------------------------------------------------------------------

  /** A Pascal string at the end of some data. */
  predicate EndsWithPascal(data: seq<byte>, at: nat, text: seq<byte>) {
    |data| == at + 1 + |text| && data[at] == |text| && data[at + 1..] == text
  }

  const ACCEPTED: seq<byte> := [0x00, 0x00]
  const REFUSED: seq<byte> := [0xFF, 0xFF]

  /** An answer to an open request: the socket to use, the flow quantum, two bytes of result, and the
      status. */
  predicate IsOpenReply(said: PapPacket, connId: u8, status: seq<byte>) {
    && said.connId == connId && said.function_ == OpenConnReply
    && EndsWithPascal(said.data, 4, status) && said.data[1] == FLOW_QUANTUM
  }

  /** The client an open request names: its node, at the socket it asks to be called at. */
  function ClientOf(source: Address, pap: PapPacket): Address
    requires pap.data != []
  {
    Address(source.network, source.node, pap.data[0])
  }

  ghost predicate OpenAnswered(p: PapServer, p': PapServer, source: Address, tid: u16, pap: PapPacket, said: PapPacket)
    requires pap.data != []
  {
    var opens := p'.events == p.events + [ConnectionOpened(ClientOf(source, pap))];
    && Tells(p.listener, p'.listener, source, tid, said) && IsOpenReply(said, pap.connId, p.status)
    && (said.data[2..4] == ACCEPTED <==> opens)
    && (said.data[2..4] == REFUSED <==> p.session.Some?)
    && (opens ==>
          && p'.session.Some? && p'.session.value.connId == pap.connId
          && p'.session.value.client == ClientOf(source, pap)
          && said.data[0] == p'.connSocket)
    && (!opens ==> p'.session == p.session && p'.events == p.events)
  }

  /** An open request is answered once, under its ConnID. The answer says accepted if and only if this
      very step opens a session, with the client the request names, and then gives the socket the
      session is on; it says refused if and only if a session was in hand, which stays. The status follows in
      both. A request too short to name a socket is not answered. */
  lemma {:induction false} OpenIsAnswered(p: PapServer, ev: AtpEvent, pap: PapPacket, now: Micros)
    requires ev.RequestEvent? && Parse(ev.userBytes, ev.data) == Some(pap) && pap.function_ == OpenConn
    requires |p.status| <= MAX_STATUS
    ensures var p' := HandleListenerEvent(p, ev, now);
            if |pap.data| < 2 then p' == p
            else exists said :: OpenAnswered(p, p', ev.source, ev.tid, pap, said)
  {
    var p' := HandleListenerEvent(p, ev, now);
    if |pap.data| >= 2 {
      var busy := p.session.Some?;
      var said := OpenReply(p, pap.connId, if busy then 0 else p.connSocket, if busy then 0xFF else 0);
      ShortFits(said.data);
      RespondTells(p.listener, ev.source, ev.tid, said, now);
      OpenReplyReads(p, pap.connId, if busy then 0 else p.connSocket, if busy then 0xFF else 0);
      assert busy ==> |p'.events| != |p.events + [ConnectionOpened(ClientOf(ev.source, pap))]|;
      assert OpenAnswered(p, p', ev.source, ev.tid, pap, said);
    }
  }

  lemma {:induction false} OpenReplyReads(p: PapServer, connId: u8, socket: u8, result: byte)
    requires |p.status| <= MAX_STATUS
    ensures var said := OpenReply(p, connId, socket, result);
            IsOpenReply(said, connId, p.status) && said.data[0] == socket && said.data[2..4] == [result, result]
  {
  }

  /** The socket an accepted client is given leads to the connection's endpoint, not the listener's. */
  lemma {:induction false} SocketLeadsToConnection(p: PapServer, socket: u8, src: Address, q: AtpPacket)
    requires socket == p.connSocket && p.listenerSocket != p.connSocket
    ensures Fed(p, socket, src, q).conn == AtpSpec.HandleDatagram(p.conn, src, q)
    ensures Fed(p, socket, src, q).listener == p.listener
  {
  }

  /** A status request is answered with the status last set, and changes nothing. */
  lemma {:induction false} StatusIsAnswered(p: PapServer, ev: AtpEvent, pap: PapPacket, now: Micros)
    requires ev.RequestEvent? && Parse(ev.userBytes, ev.data) == Some(pap) && pap.function_ == SendStatus
    requires |p.status| <= MAX_STATUS
    ensures var p' := HandleListenerEvent(p, ev, now);
            && p' == p.(listener := p'.listener)
            && exists said: PapPacket :: said.function_ == Status && EndsWithPascal(said.data, 4, p.status)
                 && Tells(p.listener, p'.listener, ev.source, ev.tid, said)
  {
    var said := StatusReply(p);
    ShortFits(said.data);
    RespondTells(p.listener, ev.source, ev.tid, said, now);
    assert EndsWithPascal(said.data, 4, p.status);
  }

  /** The status told is the one set, cut to what a Pascal string can hold. */
  lemma {:induction false} StatusFits(p: PapServer, status: seq<byte>)
    ensures |SetStatus(p, status).status| <= MAX_STATUS
    ensures SetStatus(p, status).status <= status
    ensures |status| <= MAX_STATUS ==> SetStatus(p, status).status == status
  {
  }

  // ---- the connection's answers -----------------------------------------------------------------------------

  /** Whether a request on the connection is from the session's client. */
  predicate FromClient(p: PapServer, pap: PapPacket) {
    p.session.Some? && pap.connId == p.session.value.connId
  }

  /** A close is confirmed to the session's client and ends the session; any other is ignored. */
  lemma {:induction false} CloseIsAnswered(p: PapServer, ev: AtpEvent, pap: PapPacket, now: Micros)
    requires ev.RequestEvent? && Parse(ev.userBytes, ev.data) == Some(pap) && pap.function_ == CloseConn
    ensures var p' := HandleConnEvent(p, ev, now);
            if FromClient(p, pap) then
              && p'.session == None && p'.events == p.events + [ConnectionClosed]
              && exists said: PapPacket :: said.function_ == CloseConnReply && said.connId == pap.connId
                   && Tells(p.conn, p'.conn, ev.source, ev.tid, said)
            else p' == p
  {
    if FromClient(p, pap) {
      var said := PapPacket(pap.connId, CloseConnReply, 0, false, []);
      ShortFits(said.data);
      RespondTells(p.conn, ev.source, ev.tid, said, now);
    }
  }

  /** What a waiting read is told: output from the front of what waits, as much as the read has room
      for, and the end of it exactly when it was ended and nothing is left. */
  ghost predicate ReadAnswered(s: Session, s': Session, said: PapPacket)
    requires s.pendingRead.Some?
  {
    && said.function_ == Data && said.connId == s.connId
    && said.data + s'.stdout == s.stdout
    && (s'.stdout == [] || |said.data| == MaxPackets(s.pendingRead.value.bitmap) * PAP_MAX_DATA_PER_PACKET)
    && (said.eof <==> s.eofQueued && s'.stdout == [])
    && (s'.eofQueued <==> s.eofQueued && !said.eof)
    && s'.pendingRead.None?
  }

  /** A read that waits is answered if and only if there is output, or its end, or the client has been
      idle; the answer goes to the read and says just what was taken off the output. */
  lemma {:induction false} ReadIsAnswered(p: PapServer, now: Micros)
    requires p.session.Some? && p.session.value.pendingRead.Some?
    ensures var s, p' := p.session.value, AnswerRead(p, now);
            var r := s.pendingRead.value;
            if s.stdout != [] || s.eofQueued || now >= s.lastClientWrite + READ_IDLE_ANSWER then
              && p'.session.Some?
              && exists said :: ReadAnswered(s, p'.session.value, said) && Tells(p.conn, p'.conn, r.source, r.tid, said)
            else p' == p
  {
    var s, p' := p.session.value, AnswerRead(p, now);
    var r := s.pendingRead.value;
    if s.stdout != [] || s.eofQueued || now >= s.lastClientWrite + READ_IDLE_ANSWER {
      var said := ReadReply(s);
      ReadChunkFits(s);
      ShortFits(said.data);
      RespondTells(p.conn, r.source, r.tid, said, now);
      assert s.stdout == said.data + s.stdout[|said.data|..];
      assert ReadAnswered(s, p'.session.value, said);
    }
  }

  lemma {:induction false} ReadChunkFits(s: Session)
    requires s.pendingRead.Some?
    ensures var room := MaxPackets(s.pendingRead.value.bitmap) * PAP_MAX_DATA_PER_PACKET;
            |ReadChunk(s)| == Min(|s.stdout|, room) && room <= MAX_REPLY_PACKETS * PAP_MAX_DATA_PER_PACKET
  {
  }

  /** A read answered before is told the same again. */
  lemma {:induction false} RepeatTells(p: PapServer, ev: AtpEvent, said: PapPacket, now: Micros)
    requires Canonical(said) && |said.data| <= MAX_REPLY_PACKETS * PAP_MAX_DATA_PER_PACKET && ev.RequestEvent?
    ensures var a := Respond(p.conn, ev.source, ev.tid, UserBytesOf(said), said.data, PAP_MAX_DATA_PER_PACKET, now);
            Tells(p.conn, a, ev.source, ev.tid, said)
  {
    ShortFits(said.data);
    RespondTells(p.conn, ev.source, ev.tid, said, now);
  }

  // ---- what the server asks -----------------------------------------------------------------------------------

  /** A request on the wire, as the client reads it. */
  predicate Asks(m: (Address, AtpPacket), client: Address, said: PapPacket) {
    m.0 == client && m.1.function_ == Request && Parse(m.1.userBytes, m.1.payload) == Some(said)
  }

  /** A pull goes out if and only if there is a session with none outstanding and room for a full
      reply; it asks the session's client, in turn, for as many packets as there are. */
  lemma {:induction false} PullIsSent(p: PapServer, now: Micros)
    ensures var p' := MaybePull(p, now);
            if WantsPull(p) then
              && p'.session.Some? && p'.session.value.outstandingPull.Some?
              && |p'.conn.outbox| == |p.conn.outbox| + 1 && p.conn.outbox <= p'.conn.outbox
              && var m, s := p'.conn.outbox[|p.conn.outbox|], p.session.value;
                 && Asks(m, s.client, PapPacket(s.connId, SendData, s.pullSeq, false, []))
                 && m.1.xo && m.1.bitmapSeq == 0xFF && m.1.tid == p'.session.value.outstandingPull.value
                 && Untouched(p'.conn, m.1.tid) && p'.conn.pending[m.1.tid].requestedBitmap == 0xFF
            else p' == p
  {
    if WantsPull(p) {
      var s := p.session.value;
      ParseInverts(PapPacket(s.connId, SendData, s.pullSeq, false, []));
    }
  }

  /** A client that has not been heard of for the tickle interval is tickled, under its ConnID. */
  lemma {:induction false} TickleIsSent(p: PapServer, now: Micros)
    requires p.session.Some? && !Abandoned(p.session.value, now) && now >= p.session.value.nextTickle
    requires HasFreeTid(p.conn.pending)
    ensures var s, p' := p.session.value, KeepAlive(p, now);
            && |p'.conn.outbox| == |p.conn.outbox| + 1 && p.conn.outbox <= p'.conn.outbox
            && Asks(p'.conn.outbox[|p.conn.outbox|], s.client, PapPacket(s.connId, Tickle, 0, false, []))
            && p'.conn.pending == p.conn.pending && p'.events == p.events
  {
    ParseInverts(PapPacket(p.session.value.connId, Tickle, 0, false, []));
  }

  /** A client's answer to the outstanding pull is printed, byte for byte, and ends the job if it says
      so and the job has bytes. */
  lemma {:induction false} PullIsPrinted(p: PapServer, tid: u16, said: PapPacket, now: Micros)
    requires p.session.Some? && p.session.value.outstandingPull == Some(tid)
    requires Canonical(said) && said.function_ == Data
    ensures var s, p' := p.session.value, HandleConnEvent(p, ResponseEvent(tid, UserBytesOf(said), said.data), now);
            && p'.session.Some? && p'.session.value.outstandingPull.None?
            && p'.session.value.pullSeq == NextPapSeq(s.pullSeq)
            && p'.events == p.events + (if said.data != [] then [ToPrinter(said.data)] else [])
                                     + (if said.eof && (s.jobBytes > 0 || said.data != []) then [JobEof] else [])
  {
    ParseInverts(said);
  }

  /** A pull that failed is made again, under the same number, as soon as there is room. */
  lemma {:induction false} FailedPullIsRepeated(p: PapServer, tid: u16, now: Micros)
    requires p.session.Some? && p.session.value.outstandingPull == Some(tid)
    requires p.sinkCredit >= PULL_CAPACITY && HasFreeTid(p.conn.pending)
    ensures var s, p' := p.session.value, MaybePull(HandleConnEvent(p, RequestFailed(tid), now), now);
            && p'.events == p.events && |p'.conn.outbox| == |p.conn.outbox| + 1
            && Asks(p'.conn.outbox[|p.conn.outbox|], s.client, PapPacket(s.connId, SendData, s.pullSeq, false, []))
  {
    PullIsSent(HandleConnEvent(p, RequestFailed(tid), now), now);
  }

  // ---- how long a session lasts ---------------------------------------------------------------------------------

  /** Any request under the session's ConnID shows its client is there; any other changes nothing. */
  lemma {:induction false} ClientIsHeard(p: PapServer, ev: AtpEvent, pap: PapPacket, now: Micros)
    requires ev.RequestEvent? && Parse(ev.userBytes, ev.data) == Some(pap) && pap.function_ != CloseConn
    ensures var p' := HandleConnEvent(p, ev, now);
            if FromClient(p, pap) then p'.session.Some? && p'.session.value.lastActivity == now && p'.events == p.events
            else p' == p
  {
  }

  /** A session whose client was last heard at `heard` is closed by the timer if and only if more than the
      timeout has passed; until then it is neither closed nor moved. */
  lemma {:induction false} SilenceEndsSession(p: PapServer, now: Micros)
    requires p.session.Some?
    ensures var heard, p' := p.session.value.lastActivity, KeepAlive(p, now);
            && (p'.session.None? <==> now > heard + INACTIVITY_TIMEOUT)
            && (p'.session.None? ==> p'.events == p.events + [ConnectionClosed])
            && (p'.session.Some? ==> p'.events == p.events && p'.session.value.lastActivity == heard
                                     && p'.session.value == p.session.value.(nextTickle := p'.session.value.nextTickle))
  {
  }
}
