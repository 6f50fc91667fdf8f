/** What the StyleWriter role tells a Mac, in the bytes written on its connection, and that it is true
    of what the role does in the same step; and what becomes of a job from its request to its end. */
module StyleWriterReplies {
  import opened Words
  import opened StyleWriterSpec
  import AdspSpec

  // ---- what is written on a connection -----------------------------------------------------------------------

  /** The bytes a queue of writes still has to send. */
  function Waiting(ws: seq<AdspSpec.PendingWrite>): seq<byte> {
    if ws == [] then [] else ws[0].data[ws[0].offset..] + Waiting(ws[1..])
  }

  /** Everything a connection has yet to get through: sent and unacknowledged, and waiting. */
  function Owing(c: AdspSpec.Connection): seq<byte> {
    c.flightBuffer + Waiting(c.pendingWrites)
  }

  lemma {:induction false} WaitingMore(ws: seq<AdspSpec.PendingWrite>, w: AdspSpec.PendingWrite)
    ensures Waiting(ws + [w]) == Waiting(ws) + w.data[w.offset..]
  {
    if ws == [] {
      assert [w][1..] == [];
    } else {
      assert (ws + [w])[1..] == ws[1..] + [w];
      WaitingMore(ws[1..], w);
    }
  }

  lemma {:induction false} CutWaits(ws: seq<AdspSpec.PendingWrite>, take: nat)
    requires ws != [] && ws[0].offset + take <= |ws[0].data|
    ensures Waiting(ws) == ws[0].data[ws[0].offset..ws[0].offset + take] + Waiting(AdspSpec.QueueAfter(ws, take))
  {
    var w, ws' := ws[0], AdspSpec.QueueAfter(ws, take);
    var chunk, rest := w.data[w.offset..w.offset + take], w.data[w.offset + take..];
    assert w.data[w.offset..] == chunk + rest;
    if w.offset + take == |w.data| {
      assert rest == [] && chunk + rest == chunk;
    } else {
      assert ws'[1..] == ws[1..] && ws'[0].data[ws'[0].offset..] == rest;
      assert chunk + (rest + Waiting(ws[1..])) == chunk + rest + Waiting(ws[1..]);
    }
  }

  lemma {:induction false} CutOwes(c: AdspSpec.Connection, take: nat)
    requires c.pendingWrites != [] && c.pendingWrites[0].offset + take <= |c.pendingWrites[0].data|
    ensures Owing(AdspSpec.CutBytes(c, take)) == Owing(c)
  {
    CutWaits(c.pendingWrites, take);
  }

  lemma {:induction false} PumpOwes(c: AdspSpec.Connection, window: u16, now: Option<Micros>)
    ensures Owing(AdspSpec.Pump(c, window, now).conn) == Owing(c)
    decreases AdspSpec.PendingBytes(c.pendingWrites) + |c.pendingWrites|
  {
    var step := AdspSpec.PumpStep(c, window, now);
    if step.Some? {
      AdspSpec.PumpStepShrinks(c, window, now);
      PumpStepOwes(c, window, now);
      PumpOwes(step.value.conn, window, now);
    }
  }

  lemma {:induction false} PumpStepOwes(c: AdspSpec.Connection, window: u16, now: Option<Micros>)
    requires AdspSpec.PumpStep(c, window, now).Some?
    ensures Owing(AdspSpec.PumpStep(c, window, now).value.conn) == Owing(c)
  {
    var front := c.pendingWrites[0];
    if front.offset == |front.data| {
      assert front.data[front.offset..] == [];
    } else {
      CutOwes(c, Min(Min(|front.data| - front.offset, AdspSpec.Available(c)), AdspSpec.ADSP_MAX_DATA));
    }
  }

  /** Exactly these bytes were written on the connection, behind whatever it owed already. */
  ghost predicate Written(e: AdspSpec.Endpoint, e': AdspSpec.Endpoint, conn: u16, bytes: seq<byte>) {
    && conn in e.connections && conn in e'.connections
    && Owing(e'.connections[conn]) == Owing(e.connections[conn]) + bytes
    && forall k :: k in e.connections && k != conn ==> k in e'.connections && e'.connections[k] == e.connections[k]
  }

  lemma {:induction false} SendWrites(e: AdspSpec.Endpoint, conn: u16, bytes: seq<byte>)
    requires conn in e.connections
    ensures Written(e, AdspSpec.Send(e, conn, bytes, false), conn, bytes)
  {
    var c := e.connections[conn];
    WaitingMore(c.pendingWrites, AdspSpec.Write(bytes, 0, false));
    assert bytes[0..] == bytes;
    PumpOwes(AdspSpec.Queued(c, bytes, false), e.recvWindow, None);
  }

  /** The role after an attention on a connection. */
  function Answered(r: Role, conn: u16, code: u16, data: seq<byte>, now: Micros): Role {
    HandleAdspEvent(r, AdspSpec.Attention(conn, code, data), now, 0)
  }

  lemma {:induction false} AnswerIsWritten(r: Role, conn: u16, code: u16, data: seq<byte>, now: Micros)
    requires conn in r.endpoint.connections
    ensures Written(r.endpoint, Answered(r, conn, code, data, now).endpoint, conn,
                    ReplyTo(r.core, Some(r.endpoint.connections[conn].remote), conn, code, data))
  {
    SendWrites(r.endpoint, conn, ReplyTo(r.core, Some(r.endpoint.connections[conn].remote), conn, code, data));
  }

  /** What an attention on a live connection was answered: the bytes written there. */
  ghost predicate Told(r: Role, r': Role, conn: u16, reply: seq<byte>) {
    Written(r.endpoint, r'.endpoint, conn, reply)
  }

  lemma {:induction false} ToldOnce(r: Role, r': Role, conn: u16, a: seq<byte>, b: seq<byte>)
    requires Told(r, r', conn, a) && Told(r, r', conn, b)
    ensures a == b
  {
    var owed := Owing(r.endpoint.connections[conn]);
    assert (owed + a)[|owed|..] == a && (owed + b)[|owed|..] == b;
  }

  // ---- the answers --------------------------------------------------------------------------------------------

  /** A print request is answered. It is told accepted if and only if this very step starts the job, and
      then for the Mac at the other end, at the socket it named; busy if and only if it was long enough and a
      job was in hand; rejected if and only if it was too short. Unless accepted, nothing happens. */
  lemma {:induction false} PrintRequestIsAnswered(r: Role, conn: u16, data: seq<byte>, now: Micros)
    requires conn in r.endpoint.connections
    ensures var r' := Answered(r, conn, ATTN_PRINT_REQUEST, data, now);
            var starts := |r'.events| == |r.events| + 1 && r.events <= r'.events && r'.events[|r.events|].JobStarted?;
            && (Told(r, r', conn, [0x00, 0x00]) <==> starts)
            && (Told(r, r', conn, [0x00, 0x01]) <==> |data| >= 5 && r.core.state != Idle)
            && (Told(r, r', conn, [0xFF, 0xFF]) <==> |data| < 5)
            && (starts ==>
                  r'.core.state == AwaitingCtrlClose(conn, r.endpoint.connections[conn].remote, data[3])
                  && r'.core.jobRequest == RequestBlock(data))
            && (!starts ==> r'.core == r.core && r'.events == r.events)
  {
    var r' := Answered(r, conn, ATTN_PRINT_REQUEST, data, now);
    AnswerIsWritten(r, conn, ATTN_PRINT_REQUEST, data, now);
    var said := if |data| < 5 then [0xFF, 0xFF] else if r.core.state != Idle then [0x00, 0x01] else [0x00, 0x00];
    assert Told(r, r', conn, said);
    OnlyTold(r, r', conn, said, [0x00, 0x00]);
    OnlyTold(r, r', conn, said, [0x00, 0x01]);
    OnlyTold(r, r', conn, said, [0xFF, 0xFF]);
  }

  lemma {:induction false} OnlyTold(r: Role, r': Role, conn: u16, said: seq<byte>, other: seq<byte>)
    requires Told(r, r', conn, said)
    ensures Told(r, r', conn, other) <==> other == said
  {
    if Told(r, r', conn, other) { ToldOnce(r, r', conn, said, other); }
  }

  /** END_SESSION is told FFFF if and only if it marks the session of the pipe it came on as ended, and
      0000 otherwise; then, and only if that connection staged a name, it publishes the name. */
  lemma {:induction false} EndSessionIsAnswered(r: Role, conn: u16, data: seq<byte>, now: Micros)
    requires conn in r.endpoint.connections
    ensures var r' := Answered(r, conn, ATTN_END_SESSION, data, now);
            var pipe := r.core.state.Piping? && r.core.state.pipe == conn;
            var staged := r.core.pendingName.Some? && r.core.pendingName.value.0 == conn;
            && (Told(r, r', conn, [0xFF, 0xFF]) <==> pipe)
            && (Told(r, r', conn, [0x00, 0x00]) <==> !pipe)
            && (pipe ==> r'.core.state == Piping(conn, true) && r'.events == r.events)
            && (!pipe ==> r'.core.state == r.core.state)
            && (!pipe && staged ==>
                  r'.events == r.events + [Rename(r.core.pendingName.value.1)] && r'.core.pendingName.None?)
            && (!pipe && !staged ==> r'.events == r.events && r'.core == r.core)
  {
    var r' := Answered(r, conn, ATTN_END_SESSION, data, now);
    AnswerIsWritten(r, conn, ATTN_END_SESSION, data, now);
    var said := if OnPipe(r.core, conn) then [0xFF, 0xFF] else [0x00, 0x00];
    assert Told(r, r', conn, said);
    OnlyTold(r, r', conn, said, [0x00, 0x00]);
    OnlyTold(r, r', conn, said, [0xFF, 0xFF]);
  }

  /** What a question is told, by what is so. */
  function Truth(c: Core, code: u16): seq<byte> {
    if code == ATTN_OUTPUT_DRAINED then if c.printerDrained then [0xFF, 0xFF] else [0x00, 0x00]
    else if code == ATTN_FAST_CLOCK_QUERY then if c.fastClockSupported then [0x00, 0x00] else [0x00, 0xEF]
    else if c.state == Idle then [0x00, 0x00] else [0x00, 0x01]
  }

  /** Questions are answered with what is so and change nothing: whether all output was written, how many
      jobs there are (none, or the one in hand), and whether the port can follow the printer's clock. */
  lemma {:induction false} QuestionsAreAnswered(r: Role, conn: u16, code: u16, data: seq<byte>, now: Micros)
    requires conn in r.endpoint.connections
    requires code == ATTN_OUTPUT_DRAINED || code == ATTN_FAST_CLOCK_QUERY || code == ATTN_JOB_COUNT
             || code == ATTN_QUEUE_POSITION
    ensures var r' := Answered(r, conn, code, data, now);
            && r'.core == r.core && r'.events == r.events
            && forall reply :: Told(r, r', conn, reply) <==> reply == Truth(r.core, code)
  {
    var r' := Answered(r, conn, code, data, now);
    AnswerIsWritten(r, conn, code, data, now);
    forall reply ensures Told(r, r', conn, reply) <==> reply == Truth(r.core, code) {
      OnlyTold(r, r', conn, Truth(r.core, code), reply);
    }
  }

  /** Which clock an attention asks for, if it asks. */
  function Wanted(code: u16, data: seq<byte>): bool {
    if code == ATTN_SERIAL_OPTIONS then data != [] && (data[0] / 0x40) % 2 == 1
    else |data| >= 2 && (data[0] != 0 || data[1] != 0)
  }

  /** Where the port can follow the printer's clock, an attention that asks for it is told 0000, and
      afterwards the clock is the one asked for; the embedder is told if and only if it was not. Where it cannot,
      nothing changes, and SERIAL_CONTROL_JF is refused with FFEF. */
  lemma {:induction false} ClockIsAnswered(r: Role, conn: u16, code: u16, data: seq<byte>, now: Micros)
    requires conn in r.endpoint.connections && (code == ATTN_SERIAL_OPTIONS || code == ATTN_SERIAL_CONTROL_JF)
    ensures var r' := Answered(r, conn, code, data, now);
            var can, want := r.core.fastClockSupported, Wanted(code, data);
            && (Told(r, r', conn, [0x00, 0x00]) <==> can || code == ATTN_SERIAL_OPTIONS)
            && (Told(r, r', conn, [0xFF, 0xEF]) <==> !can && code == ATTN_SERIAL_CONTROL_JF)
            && r'.core == r.core.(fastClockOn := if can then want else r.core.fastClockOn)
            && r'.events == r.events + (if !can || want == r.core.fastClockOn then []
                                        else if want then [FastClockEnable] else [FastClockDisable])
  {
    var r' := Answered(r, conn, code, data, now);
    AnswerIsWritten(r, conn, code, data, now);
    var said := if r.core.fastClockSupported || code == ATTN_SERIAL_OPTIONS then [0x00, 0x00] else [0xFF, 0xEF];
    assert Told(r, r', conn, said);
    OnlyTold(r, r', conn, said, [0x00, 0x00]);
    OnlyTold(r, r', conn, said, [0xFF, 0xEF]);
    if |data| >= 2 { assert data[..2] == [data[0], data[1]]; }
    assert r.events + [] == r.events;
  }

  /** SERIAL_CONFIG sets the port's own clock, whatever the port can do. */
  lemma {:induction false} ConfigIsAnswered(r: Role, conn: u16, data: seq<byte>, now: Micros)
    requires conn in r.endpoint.connections
    ensures var r' := Answered(r, conn, ATTN_SERIAL_CONFIG, data, now);
            && Told(r, r', conn, [0x00, 0x00]) && r'.core == r.core.(fastClockOn := false)
            && r'.events == r.events + (if r.core.fastClockOn then [FastClockDisable] else [])
  {
    AnswerIsWritten(r, conn, ATTN_SERIAL_CONFIG, data, now);
    assert r.events + [] == r.events;
  }

  // ---- what is set is told ---------------------------------------------------------------------------------

  /** The 70-byte request of the job in hand is told to whoever asks, as far as it went, zeros behind it;
      zeros alone when there is none. */
  lemma {:induction false} JobUserIsAnswered(r: Role, conn: u16, data: seq<byte>, now: Micros)
    requires conn in r.endpoint.connections && |r.core.jobRequest| == PRINT_REQUEST_LEN
    ensures var r' := Answered(r, conn, ATTN_JOB_USER, data, now);
            && r'.core == r.core && r'.events == r.events
            && exists reply :: Told(r, r', conn, reply) && |reply| == 72 && reply[70..] == [0x00, 0x00]
                 && (if r.core.state == Idle then forall i :: 0 <= i < 70 ==> reply[i] == 0
                     else reply[..70] == r.core.jobRequest)
  {
    AnswerIsWritten(r, conn, ATTN_JOB_USER, data, now);
    var reply := ReplyTo(r.core, Some(r.endpoint.connections[conn].remote), conn, ATTN_JOB_USER, data);
    assert Told(r, Answered(r, conn, ATTN_JOB_USER, data, now), conn, reply);
    assert reply == JobUserReply(r.core) && reply[70..] == [0x00, 0x00];
    if r.core.state != Idle { assert reply[..70] == r.core.jobRequest; }
  }

  /** The request as kept: the first 70 bytes of what came, zeros behind. */
  lemma {:induction false} RequestIsKept(data: seq<byte>)
    ensures var block := RequestBlock(data);
            && |block| == 70
            && (forall i :: 0 <= i < 70 && i < |data| ==> block[i] == data[i])
            && (forall i :: |data| <= i < 70 ==> block[i] == 0)
  {
  }

  /** A status a Mac sets is what it and others are told while the job is in hand: the id, and the text as
      a Pascal string in a field of 255 bytes. */
  lemma {:induction false} StatusComesBack(c: Core, id: u16, text: seq<byte>)
    requires |text| < JOB_STATUS_TEXT_LEN && c.state != Idle
    ensures var reply := JobStatusReply(SetStatus(c, WriteU16(id) + [|text|] + text));
            && |reply| == 259 && reply[257..] == [0x00, 0x00]
            && ReadU16(reply) == id && reply[2] == |text| && reply[3..3 + |text|] == text
            && forall i :: 3 + |text| <= i < 257 ==> reply[i] == 0
  {
    var data := WriteU16(id) + [|text|] + text;
    assert data[3..] == text;
    ReadWriteU16(id, [|text|] + text);
    assert data == WriteU16(id) + ([|text|] + text);
    assert text[..|text|] == text;
    var c' := SetStatus(c, data);
    assert c'.jobStatusId == id && c'.jobStatus == text;
    var head := WriteU16(id) + [|text|] + text;
    var reply := head + Zeros(257 - |head|) + [0x00, 0x00];
    assert JobStatusReply(c') == reply;
    ReadWriteU16(id, reply[2..]);
    assert reply == WriteU16(id) + reply[2..];
  }

  /** A job starts with no status of its own: until a Mac sets one, and while there is no job, the answer is
      an id of zero and no text, whatever was set before. */
  lemma {:induction false} NewJobHasNoStatus(c: Core, mac: Address, ctrl: u16, request: seq<byte>, now: Micros)
    ensures c.state == Idle ==> JobStatusReply(c) == Zeros(259)
    ensures var c' := CoreAfter(c, AdspSpec.Attention(ctrl, ATTN_PRINT_REQUEST, request), Some(mac), now, 0).core;
            c'.state != c.state ==> JobStatusReply(c') == Zeros(259)
  {
    assert WriteU16(0) + [0] + [] + Zeros(254) + [0x00, 0x00] == Zeros(259);
  }

  /** A print request that carries a user name, as a Pascal string in its field, starts the job under that
      name, or the first 32 bytes of it. */
  lemma {:induction false} UserIsAsSent(c: Core, mac: Address, ctrl: u16, socket: byte, user: seq<byte>,
      padding: seq<byte>, now: Micros)
    requires c.state == Idle && |user| < 0x100
    ensures var request := [0, 0, 0, socket, |user|] + user + padding;
            var o := CoreAfter(c, AdspSpec.Attention(ctrl, ATTN_PRINT_REQUEST, request), Some(mac), now, 0);
            && o.said == [JobStarted(if |user| <= 32 then user else user[..32])]
            && o.core.state == AwaitingCtrlClose(ctrl, mac, socket)
  {
    var request := [0, 0, 0, socket, |user|] + user + padding;
    var kept := Min(|user|, 32);
    assert request[5..5 + kept] == user[..kept];
  }

  /** A name sent as a Pascal string is published, exactly, by the end of the session it came in; unless it
      is empty or cut short, and then nothing is. */
  lemma {:induction false} NameIsPublished(c: Core, mac: Address, conn: u16, len: byte, text: seq<byte>, now: Micros,
      later: Micros)
    requires c.pendingName.None? && !(c.state.Piping? && c.state.pipe == conn)
    ensures var o := CoreAfter(c, AdspSpec.Attention(conn, ATTN_SET_NAME, [len] + text), Some(mac), now, 0);
            var o' := CoreAfter(o.core, AdspSpec.Attention(conn, ATTN_END_SESSION, []), Some(mac), later, 0);
            o.said == [] && o'.said == (if 0 < len as nat <= |text| then [Rename(text[..len])] else [])
            && o'.core == c
  {
    var data := [len] + text;
    if 0 < len as nat <= |text| { assert data[1..1 + len as nat] == text[..len]; }
  }

  // ---- a job from request to end --------------------------------------------------------------------------------

  /** A job not yet called back is withdrawn by repeating its request, and by nothing else. */
  lemma {:induction false} WithdrawIsAnswered(r: Role, conn: u16, data: seq<byte>, now: Micros)
    requires conn in r.endpoint.connections
    ensures var r' := Answered(r, conn, ATTN_WITHDRAW, data, now);
            var withdrawn := InHandshake(r.core) && RequestBlock(data) == r.core.jobRequest;
            && Told(r, r', conn, [0x00, 0x00])
            && (withdrawn ==> r'.core.state == Idle && r'.events == r.events + [JobEnded(true)])
            && (withdrawn && r.core.state.Connecting? ==> r.core.state.pending !in r'.endpoint.pendingOpens)
            && (!withdrawn ==> r'.core == r.core && r'.events == r.events)
  {
    AnswerIsWritten(r, conn, ATTN_WITHDRAW, data, now);
  }

  /** When the control connection of an accepted request closes, the role calls the Mac back at the node
      it asked from and the socket it named. */
  lemma {:induction false} MacIsCalledBack(r: Role, conn: u16, now: Micros, drawn: u16)
    requires r.core.state.AwaitingCtrlClose? && r.core.state.ctrl == conn
    ensures var r' := HandleAdspEvent(r, AdspSpec.Closed(conn), now, drawn);
            var mac := Address(r.core.state.macNode.network, r.core.state.macNode.node, r.core.state.dataSocket);
            && r'.core.state == Connecting(drawn) && r'.events == r.events
            && drawn in r'.endpoint.pendingOpens && r'.endpoint.pendingOpens[drawn].remote == mac
            && |r'.endpoint.outbox| == |r.endpoint.outbox| + 1
            && var m := r'.endpoint.outbox[|r.endpoint.outbox|];
               m.0 == mac && m.1.descriptor == AdspSpec.OpenConnRequest && m.1.connId == drawn
  {
    assert r.events + [] == r.events;
  }

  /** The connection the call-back opens is the pipe; and if the endpoint moves it, so is the new one. */
  lemma {:induction false} PipeOpens(r: Role, pipe: u16, remote: Address, pending: Option<u16>, now: Micros)
    requires r.core.state.Connecting? || r.core.state.Piping?
    ensures var r' := HandleAdspEvent(r, AdspSpec.Opened(pipe, remote, false, pending), now, 0);
            r'.core.state == Piping(pipe, false) && r'.core.dataMsgStart && r'.events == r.events
  {
    assert r.events + [] == r.events;
  }

  /** A switch to fast mode, sent as a message of its own. */
  predicate IsFastSwitch(c: Core, data: seq<byte>, eom: bool) {
    c.dataMsgStart && eom && (data == [0x78] || data == [0x68])
  }

  /** What comes over the pipe is printed, byte for byte; but for a switch to fast mode the port could
      not follow. What comes over any other connection is not. */
  lemma {:induction false} PipeIsPrinted(r: Role, conn: u16, data: seq<byte>, eom: bool, now: Micros)
    requires data != []
    ensures var r' := HandleAdspEvent(r, AdspSpec.Data(conn, data, eom), now, 0);
            var pipe := r.core.state.Piping? && r.core.state.pipe == conn;
            && (if pipe && !(IsFastSwitch(r.core, data, eom) && !r.core.fastClockSupported)
                then r'.events == r.events + [ToPrinter(data)]
                else r'.events == r.events)
            && r'.core == (if pipe then r.core.(dataMsgStart := eom) else r.core)
  {
    assert r.events + [] == r.events;
  }

  /** A Mac that asks for a job and then neither closes its control connection nor answers the call-back loses
      it when the timeout has passed, counted afresh from the close; a job that has its pipe is never
      timed out. */
  lemma {:induction false} StalledHandshakeEnds(c: Core, mac: Address, ctrl: u16, request: seq<byte>, drawn: u16,
      pipe: u16, asked: Micros, closed: Micros, piped: Micros, now: Micros)
    requires c.state == Idle && |request| >= 5
    ensures var o1 := CoreAfter(c, AdspSpec.Attention(ctrl, ATTN_PRINT_REQUEST, request), Some(mac), asked, 0);
            var o2 := CoreAfter(o1.core, AdspSpec.Closed(ctrl), None, closed, drawn);
            var o3 := CoreAfter(o2.core, AdspSpec.Opened(pipe, mac, false, Some(drawn)), None, piped, 0);
            && Expire(c, now) == Quiet(c) && Expire(o3.core, now) == Quiet(o3.core)
            && EndsIff(o1.core, now, now > asked + HANDSHAKE_TIMEOUT)
            && EndsIff(o2.core, now, now > closed + HANDSHAKE_TIMEOUT)
  {
  }

  /** The timer ends the job uncleanly, and frees the role, exactly when it is late; until then it does
      nothing. */
  predicate EndsIff(c: Core, now: Micros, late: bool) {
    var o := Expire(c, now);
    if late then o.said == [JobEnded(false)] && o.core.state == Idle else o == Quiet(c)
  }

  /** A port that can follow the printer's clock and does not, and no name staged. */
  predicate Plain(c: Core) {
    !c.fastClockOn && c.fastClockSupported && c.pendingName.None?
  }

  lemma {:induction false} JobRequested(c: Core, mac: Address, ctrl: u16, request: seq<byte>, now: Micros)
    requires c.state == Idle && Plain(c) && |request| >= 5
    ensures var o := CoreAfter(c, AdspSpec.Attention(ctrl, ATTN_PRINT_REQUEST, request), Some(mac), now, 0);
            o.said == [JobStarted(UserIn(request))] && o.core.state == AwaitingCtrlClose(ctrl, mac, request[3])
            && Plain(o.core)
  {
  }

  lemma {:induction false} JobPiped(c: Core, ctrl: u16, mac: Address, drawn: u16, pipe: u16, before: Micros,
      now: Micros)
    requires c.state.AwaitingCtrlClose? && c.state.ctrl == ctrl && Plain(c)
    ensures var o := CoreAfter(c, AdspSpec.Closed(ctrl), None, before, drawn);
            var o' := CoreAfter(o.core, AdspSpec.Opened(pipe, mac, false, Some(drawn)), None, now, 0);
            o.said == [] && o'.said == [] && o'.core.state == Piping(pipe, false) && Plain(o'.core)
  {
  }

  lemma {:induction false} JobEnds(c: Core, mac: Address, pipe: u16, before: Micros, now: Micros)
    requires c.state.Piping? && c.state.pipe == pipe && Plain(c)
    ensures var o := CoreAfter(c, AdspSpec.Attention(pipe, ATTN_END_SESSION, []), Some(mac), before, 0);
            var o' := CoreAfter(o.core, AdspSpec.Closed(pipe), None, now, 0);
            o.said == [] && o'.said == [JobEnded(true)] && o'.core.state == Idle
  {
  }

  /** A whole job: requested, called back, piped, ended and closed. It starts once, prints what came over
      the pipe, and ends clean. */
  lemma {:induction false} JobRuns(c: Core, mac: Address, ctrl: u16, request: seq<byte>, drawn: u16, pipe: u16,
      data: seq<byte>, eom: bool, at: seq<Micros>)
    requires c.state == Idle && !c.fastClockOn && c.fastClockSupported && c.pendingName.None?
    requires |request| >= 5 && data != [] && |at| == 6
    ensures var o1 := CoreAfter(c, AdspSpec.Attention(ctrl, ATTN_PRINT_REQUEST, request), Some(mac), at[0], 0);
            var o2 := CoreAfter(o1.core, AdspSpec.Closed(ctrl), None, at[1], drawn);
            var o3 := CoreAfter(o2.core, AdspSpec.Opened(pipe, mac, false, Some(drawn)), None, at[2], 0);
            var o4 := CoreAfter(o3.core, AdspSpec.Data(pipe, data, eom), None, at[3], 0);
            var o5 := CoreAfter(o4.core, AdspSpec.Attention(pipe, ATTN_END_SESSION, []), Some(mac), at[4], 0);
            var o6 := CoreAfter(o5.core, AdspSpec.Closed(pipe), None, at[5], 0);
            && o1.said + o2.said + o3.said + o4.said + o5.said + o6.said
                 == [JobStarted(UserIn(request)), ToPrinter(data), JobEnded(true)]
            && o6.core.state == Idle
  {
    JobRequested(c, mac, ctrl, request, at[0]);
    var o1 := CoreAfter(c, AdspSpec.Attention(ctrl, ATTN_PRINT_REQUEST, request), Some(mac), at[0], 0);
    JobPiped(o1.core, ctrl, mac, drawn, pipe, at[1], at[2]);
    var o2 := CoreAfter(o1.core, AdspSpec.Closed(ctrl), None, at[1], drawn);
    var o3 := CoreAfter(o2.core, AdspSpec.Opened(pipe, mac, false, Some(drawn)), None, at[2], 0);
    var o4 := CoreAfter(o3.core, AdspSpec.Data(pipe, data, eom), None, at[3], 0);
    assert o4.said == [ToPrinter(data)] && Plain(o4.core);
    JobEnds(o4.core, mac, pipe, at[4], at[5]);
  }
}
