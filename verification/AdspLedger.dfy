/** The sender's books over any run: any writes, and any packets at all from the peer. */
module AdspLedger {
  import opened Words
  import opened AdspSpec
  import opened AdspStream

  datatype ConnOp =
    | WriteOp(data: seq<byte>, eom: bool)
    | PacketOp(p: Packet, now: Micros)
    | AdviceOp(p: Packet, now: Micros)
    | TimerOp(now: Micros)

  function After(c: Connection, window: u16, op: ConnOp): Effect {
    match op
    case WriteOp(data, eom) => Pump(Queued(c, data, eom), window, None)
    case PacketOp(p, now) => HandleData(c, p, window, now)
    case AdviceOp(p, now) => Resend(Pump(TakeAck(c, p), window, Some(now)).conn, window, now)
    case TimerOp(now) => Resend(c.(retries := Min(c.retries + 1, 255)), window, now)
  }

  function TapeAfter(tape: seq<Token>, op: ConnOp): seq<Token> {
    if op.WriteOp? then tape + Tokens(op.data, op.eom) else tape
  }

  /** Any acknowledgement, honest or not, leaves the books balanced. */
  lemma {:induction false} TakeAckKeepsLedger(c: Connection, p: Packet, tape: seq<Token>)
    requires Ledger(c, tape)
    ensures var c' := TakeAck(c, p);
            && Ledger(c', tape) && CutPos(c', tape) == CutPos(c, tape)
            && OldestPos(c, tape) <= OldestPos(c', tape) <= CutPos(c, tape)
  {
    LedgerOldest(c, tape);
    var acked := Sub32(p.nextRecvSeq, c.oldestUnackedSeq);
    if 0 < acked <= InFlight(c) {
      AckSplits(c.sendSeq, c.oldestUnackedSeq, p.nextRecvSeq);
    }
  }

  lemma {:induction false} AckSplits(s: u32, o: u32, a: u32)
    requires Sub32(a, o) <= Sub32(s, o)
    ensures Sub32(s, a) == Sub32(s, o) - Sub32(a, o)
  {
  }

  lemma {:induction false} PumpLedger(c: Connection, window: u16, now: Option<Micros>, tape: seq<Token>)
    requires Ledger(c, tape)
    ensures var c' := Pump(c, window, now).conn;
            && Ledger(c', tape) && OldestPos(c', tape) == OldestPos(c, tape) && CutPos(c, tape) <= CutPos(c', tape)
  {
    PumpKeeps(c, window, now, tape);
  }

  lemma {:induction false} PacketKeepsLedger(c: Connection, window: u16, p: Packet, now: Micros, tape: seq<Token>)
    requires Ledger(c, tape)
    ensures var c' := HandleData(c, p, window, now).conn;
            && Ledger(c', tape)
            && OldestPos(c, tape) <= OldestPos(c', tape) <= CutPos(c', tape)
            && CutPos(c, tape) <= CutPos(c', tape)
  {
    var c1 := Receive(c, p).0;
    assert Ledger(c1, tape) && OldestPos(c1, tape) == OldestPos(c, tape);
    TakeAckKeepsLedger(c1, p, tape);
    PumpLedger(TakeAck(c1, p), window, Some(now), tape);
    PumpLedger(Pump(TakeAck(c1, p), window, Some(now)).conn, window, Some(now), tape);
  }

  /** Going back sends again and moves nothing. */
  lemma {:induction false} TimerKeepsLedger(c: Connection, window: u16, now: Micros, tape: seq<Token>)
    requires Ledger(c, tape)
    ensures var c' := Resend(c.(retries := Min(c.retries + 1, 255)), window, now).conn;
            Ledger(c', tape) && OldestPos(c', tape) == OldestPos(c, tape) && CutPos(c', tape) == CutPos(c, tape)
    ensures var c' := Resend(c, window, now).conn;
            Ledger(c', tape) && OldestPos(c', tape) == OldestPos(c, tape) && CutPos(c', tape) == CutPos(c, tape)
  {
  }

  lemma {:induction false} AdviceKeepsLedger(c: Connection, window: u16, p: Packet, now: Micros, tape: seq<Token>)
    requires Ledger(c, tape)
    ensures var c' := Resend(Pump(TakeAck(c, p), window, Some(now)).conn, window, now).conn;
            && Ledger(c', tape)
            && OldestPos(c, tape) <= OldestPos(c', tape) <= CutPos(c', tape)
            && CutPos(c, tape) <= CutPos(c', tape)
  {
    TakeAckKeepsLedger(c, p, tape);
    PumpLedger(TakeAck(c, p), window, Some(now), tape);
    TimerKeepsLedger(Pump(TakeAck(c, p), window, Some(now)).conn, window, now, tape);
  }

  /** One step: the books stay balanced, the oldest unacknowledged position only moves
      forward, and what is cut is never uncut. */
  lemma {:induction false} StepKeepsLedger(c: Connection, window: u16, op: ConnOp, tape: seq<Token>)
    requires Ledger(c, tape) && |TapeAfter(tape, op)| - OldestPos(c, tape) < HALF32
    ensures var c', tape' := After(c, window, op).conn, TapeAfter(tape, op);
            && Ledger(c', tape')
            && OldestPos(c, tape) <= OldestPos(c', tape') <= CutPos(c', tape')
            && CutPos(c, tape) <= CutPos(c', tape')
  {
    match op
    case WriteOp(data, eom) =>
      QueuedLedger(c, data, eom, tape);
      PumpLedger(Queued(c, data, eom), window, None, TapeAfter(tape, op));
    case PacketOp(p, now) => PacketKeepsLedger(c, window, p, now, tape);
    case AdviceOp(p, now) => AdviceKeepsLedger(c, window, p, now, tape);
    case TimerOp(now) => TimerKeepsLedger(c, window, now, tape);
  }

  // ---- the flight buffer, against any peer -------------------------------------------------

  /** Whatever is acknowledged, an aligned flight buffer stays aligned. */
  lemma {:induction false} TakeAckAligned(c: Connection, p: Packet, tape: seq<Token>)
    requires Ledger(c, tape) && FlightAligned(c, tape)
    ensures FlightAligned(TakeAck(c, p), tape)
  {
    LedgerOldest(c, tape);
    var acked := Sub32(p.nextRecvSeq, c.oldestUnackedSeq);
    if 0 < acked <= InFlight(c) {
      AckSplits(c.sendSeq, c.oldestUnackedSeq, p.nextRecvSeq);
      AlignedDrops(c.flightBuffer, tape, OldestPos(c, tape), CutPos(c, tape), acked);
    }
  }

  lemma {:induction false} PumpAligned(c: Connection, window: u16, now: Option<Micros>, tape: seq<Token>)
    requires Ledger(c, tape) && FlightAligned(c, tape)
    ensures var c' := Pump(c, window, now).conn;
            0 <= OldestPos(c', tape) && (FlightAligned(c', tape) <==> NoByteAfterEom(OnTheWire(c', tape)))
  {
    PumpKeeps(c, window, now, tape);
    var c' := Pump(c, window, now).conn;
    if FlightAligned(c', tape) { AlignedInOrder(c'.flightBuffer, tape, OldestPos(c', tape), CutPos(c', tape)); }
  }

  lemma {:induction false} PacketAligned(c: Connection, window: u16, p: Packet, now: Micros, tape: seq<Token>)
    requires Ledger(c, tape) && FlightAligned(c, tape)
    ensures var c' := HandleData(c, p, window, now).conn;
            0 <= OldestPos(c', tape) && (FlightAligned(c', tape) <==> NoByteAfterEom(OnTheWire(c', tape)))
  {
    var c1 := TakeAck(Receive(c, p).0, p);
    TakeAckKeepsLedger(Receive(c, p).0, p, tape);
    TakeAckAligned(Receive(c, p).0, p, tape);
    PumpTwiceAligned(c1, window, Some(now), tape);
  }

  lemma {:induction false} PumpTwiceAligned(c: Connection, window: u16, now: Option<Micros>, tape: seq<Token>)
    requires Ledger(c, tape) && FlightAligned(c, tape)
    ensures var c' := Pump(Pump(c, window, now).conn, window, now).conn;
            0 <= OldestPos(c', tape) && (FlightAligned(c', tape) <==> NoByteAfterEom(OnTheWire(c', tape)))
  {
    var c1 := Pump(c, window, now).conn;
    PumpLedger(c, window, now, tape);
    PumpAligned(c, window, now, tape);
    var c2 := Pump(c1, window, now).conn;
    PumpLedger(c1, window, now, tape);
    var o := OldestPos(c, tape);
    PartInOrder(tape, o, CutPos(c2, tape), o, CutPos(c1, tape));
    if FlightAligned(c1, tape) {
      PumpAligned(c1, window, now, tape);
    } else if FlightAligned(c2, tape) {
      AlignedInOrder(c2.flightBuffer, tape, o, CutPos(c2, tape));
    }
  }

  lemma {:induction false} ResendAligned(c: Connection, window: u16, now: Micros, tape: seq<Token>)
    requires 0 <= OldestPos(c, tape)
    ensures var c' := Resend(c, window, now).conn;
            && OldestPos(c', tape) == OldestPos(c, tape) && OnTheWire(c', tape) == OnTheWire(c, tape)
            && (FlightAligned(c', tape) <==> FlightAligned(c, tape))
  {
  }

  lemma {:induction false} AdviceAligned(c: Connection, window: u16, p: Packet, now: Micros, tape: seq<Token>)
    requires Ledger(c, tape) && FlightAligned(c, tape)
    ensures var c' := After(c, window, AdviceOp(p, now)).conn;
            0 <= OldestPos(c', tape) && (FlightAligned(c', tape) <==> NoByteAfterEom(OnTheWire(c', tape)))
  {
    TakeAckKeepsLedger(c, p, tape);
    TakeAckAligned(c, p, tape);
    PumpAligned(TakeAck(c, p), window, Some(now), tape);
    ResendAligned(Pump(TakeAck(c, p), window, Some(now)).conn, window, now, tape);
  }

  lemma {:induction false} WriteAligned(c: Connection, window: u16, data: seq<byte>, eom: bool, tape: seq<Token>)
    requires Ledger(c, tape) && FlightAligned(c, tape)
    requires |tape + Tokens(data, eom)| - OldestPos(c, tape) < HALF32
    ensures var c', tape' := After(c, window, WriteOp(data, eom)).conn, tape + Tokens(data, eom);
            0 <= OldestPos(c', tape') && (FlightAligned(c', tape') <==> NoByteAfterEom(OnTheWire(c', tape')))
  {
    QueuedLedger(c, data, eom, tape);
    PumpAligned(Queued(c, data, eom), window, None, tape + Tokens(data, eom));
  }

  /** One step from an aligned flight buffer: it stays aligned if and only if what is then in
      flight has no byte behind a mark. */
  lemma {:induction false} StepAligned(c: Connection, window: u16, op: ConnOp, tape: seq<Token>)
    requires Ledger(c, tape) && FlightAligned(c, tape) && |TapeAfter(tape, op)| - OldestPos(c, tape) < HALF32
    ensures var c', tape' := After(c, window, op).conn, TapeAfter(tape, op);
            0 <= OldestPos(c', tape') && (FlightAligned(c', tape') <==> NoByteAfterEom(OnTheWire(c', tape')))
  {
    match op
    case WriteOp(data, eom) => WriteAligned(c, window, data, eom, tape);
    case PacketOp(p, now) => PacketAligned(c, window, p, now, tape);
    case AdviceOp(p, now) => AdviceAligned(c, window, p, now, tape);
    case TimerOp(now) =>
      TimerKeepsLedger(c, window, now, tape);
      AlignedInOrder(c.flightBuffer, tape, OldestPos(c, tape), CutPos(c, tape));
  }

  lemma {:induction false} BytesUnlessMark(flight: seq<byte>, tape: seq<Token>, o: nat, s: nat)
    requires AlignedAt(flight, tape, o, s)
    ensures |flight| == s - o || Eom in tape
  {
    if |flight| < s - o { assert tape[o + |flight|] == Eom; }
  }

  /** While only bytes are written a step keeps the flight buffer exact. */
  lemma {:induction false} BytesAligned(c: Connection, window: u16, op: ConnOp, tape: seq<Token>)
    requires Ledger(c, tape) && |TapeAfter(tape, op)| - OldestPos(c, tape) < HALF32
    requires Eom !in TapeAfter(tape, op) && (Eom !in tape ==> FlightAligned(c, tape))
    ensures var c', tape' := After(c, window, op).conn, TapeAfter(tape, op);
            FlightAligned(c', tape') && |c'.flightBuffer| == CutPos(c', tape') - OldestPos(c', tape')
  {
    var c', tape' := After(c, window, op).conn, TapeAfter(tape, op);
    assert forall t :: t in tape ==> t in tape';
    StepKeepsLedger(c, window, op, tape);
    StepAligned(c, window, op, tape);
    assert forall t :: t in OnTheWire(c', tape') ==> t in tape';
    BytesUnlessMark(c'.flightBuffer, tape', OldestPos(c', tape'), CutPos(c', tape'));
  }

  // ---- whole runs ----------------------------------------------------------------------------

  /** Connections and tapes along a list of operations. */
  function ConnAt(c: Connection, window: u16, ops: seq<ConnOp>): Connection {
    if ops == [] then c else After(ConnAt(c, window, ops[..|ops| - 1]), window, ops[|ops| - 1]).conn
  }

  function TapeAt(tape: seq<Token>, ops: seq<ConnOp>): seq<Token> {
    if ops == [] then tape else TapeAfter(TapeAt(tape, ops[..|ops| - 1]), ops[|ops| - 1])
  }

  /** No write puts half a turn of sequence space in flight or in the queue. */
  ghost predicate Modest(c: Connection, window: u16, ops: seq<ConnOp>, tape: seq<Token>) {
    ops != [] ==>
      var front := ops[..|ops| - 1];
      && Modest(c, window, front, tape)
      && |TapeAt(tape, ops)| - OldestPos(ConnAt(c, window, front), TapeAt(tape, front)) < HALF32
  }

  /** The ledger over whole runs, from a fresh connection. Where no end-of-message was written the
      flight buffer is exactly what is in flight, byte for byte. */
  lemma {:induction false} LedgerOverRuns(c: Connection, window: u16, ops: seq<ConnOp>)
    requires c == NewConnection(c.ourConnId, c.remote, c.sendWindow, c.lastTx) && Modest(c, window, ops, [])
    ensures var c', tape := ConnAt(c, window, ops), TapeAt([], ops);
            && Ledger(c', tape)
            && 0 <= OldestPos(c', tape) <= CutPos(c', tape) <= |tape|
            && |c'.flightBuffer| <= CutPos(c', tape) - OldestPos(c', tape)
            && c'.writesCompleted + |c'.pendingWrites| == c'.writesSubmitted
            && (Eom !in tape ==>
                  |c'.flightBuffer| == CutPos(c', tape) - OldestPos(c', tape) && FlightAligned(c', tape))
    decreases |ops|
  {
    if ops != [] {
      var front, op := ops[..|ops| - 1], ops[|ops| - 1];
      LedgerOverRuns(c, window, front);
      var c1, tape1 := ConnAt(c, window, front), TapeAt([], front);
      StepKeepsLedger(c1, window, op, tape1);
      if Eom !in TapeAfter(tape1, op) { BytesAligned(c1, window, op, tape1); }
    }
  }

  /** A packet that carries bytes leaves at most the peer's window in flight, and one place
      more for the end-of-message it may carry. */
  lemma {:induction false} CutsStayInWindow(c: Connection, window: u16, now: Option<Micros>, tape: seq<Token>)
    requires Ledger(c, tape) && PumpStep(c, window, now).Some?
    ensures var f := PumpStep(c, window, now).value;
            forall p :: p in f.out && p.payload != [] ==>
              InFlight(f.conn) <= c.sendWindow + 1 && |p.payload| <= ADSP_MAX_DATA
  {
    var chunk, eom := PumpStepIsCut(c, window, now);
    CutKeeps(c, PumpStep(c, window, now).value.conn, chunk, eom, tape);
  }

  // ---- retries ---------------------------------------------------------------------------------

  /** Timeouts since the oldest unacknowledged position last moved. */
  function Timeouts(c: Connection, window: u16, ops: seq<ConnOp>): nat {
    if ops == [] then 0 else
    var front := ops[..|ops| - 1];
    if ops[|ops| - 1].TimerOp? then Timeouts(c, window, front) + 1
    else if ConnAt(c, window, ops).oldestUnackedSeq != ConnAt(c, window, front).oldestUnackedSeq then 0
    else Timeouts(c, window, front)
  }

  lemma {:induction false} TakeAckRetries(c: Connection, p: Packet)
    ensures var c' := TakeAck(c, p);
            c'.retries == if c'.oldestUnackedSeq != c.oldestUnackedSeq then 0 else c.retries
  {
  }

  lemma {:induction false} PumpRetries(c: Connection, window: u16, now: Option<Micros>)
    ensures var c' := Pump(c, window, now).conn;
            c'.retries == c.retries && c'.oldestUnackedSeq == c.oldestUnackedSeq
    decreases PendingBytes(c.pendingWrites) + |c.pendingWrites|
  {
    var step := PumpStep(c, window, now);
    if step.Some? {
      PumpStepShrinks(c, window, now);
      PumpRetries(step.value.conn, window, now);
    }
  }

  /** A step counts a timeout, forgets them all when something is newly acknowledged, and otherwise
      leaves the count alone. */
  lemma {:induction false} StepRetries(c: Connection, window: u16, op: ConnOp)
    ensures var c' := After(c, window, op).conn;
            c'.retries == if op.TimerOp? then Min(c.retries + 1, 255)
                          else if c'.oldestUnackedSeq != c.oldestUnackedSeq then 0 else c.retries
  {
    match op
    case WriteOp(data, eom) => PumpRetries(Queued(c, data, eom), window, None);
    case PacketOp(p, now) =>
      var c1 := Receive(c, p).0;
      TakeAckRetries(c1, p);
      PumpRetries(TakeAck(c1, p), window, Some(now));
      PumpRetries(Pump(TakeAck(c1, p), window, Some(now)).conn, window, Some(now));
    case AdviceOp(p, now) =>
      TakeAckRetries(c, p);
      PumpRetries(TakeAck(c, p), window, Some(now));
    case TimerOp(_) =>
  }

  /** Progress counts. Over any run and against any peer a connection's retries are the timeouts since
      something was last acknowledged, up to 255: a peer that acknowledges anything at all in between is never
      given up for the timeouts before. */
  lemma {:induction false} RetriesSinceProgress(c: Connection, window: u16, ops: seq<ConnOp>)
    requires c.retries == 0
    ensures ConnAt(c, window, ops).retries == Min(Timeouts(c, window, ops), 255)
    decreases |ops|
  {
    if ops != [] {
      var front := ops[..|ops| - 1];
      RetriesSinceProgress(c, window, front);
      StepRetries(ConnAt(c, window, front), window, ops[|ops| - 1]);
    }
  }

  // ---- the retransmission timer -----------------------------------------------------------------

  /** Some of the packets take up sequence space. */
  predicate HasData(ps: seq<Packet>) {
    exists p :: p in ps && SeqLen(p) > 0
  }

  /** Everything a step sends. */
  function SentBy(c: Connection, window: u16, op: ConnOp): seq<Packet> {
    (if op.AdviceOp? then Pump(TakeAck(c, op.p), window, Some(op.now)).out else []) + After(c, window, op).out
  }

  /** When the connection last sent data in answer to something. What a write sends at once does not
      count: the code gives a write no time. */
  function LastSending(c: Connection, window: u16, ops: seq<ConnOp>): Micros {
    if ops == [] then c.lastTx else
    var front, op := ops[..|ops| - 1], ops[|ops| - 1];
    if !op.WriteOp? && HasData(SentBy(ConnAt(c, window, front), window, op)) then op.now
    else LastSending(c, window, front)
  }

  lemma {:induction false} HasDataConcat(ps: seq<Packet>, qs: seq<Packet>)
    ensures HasData(ps + qs) <==> HasData(ps) || HasData(qs)
  {
    if HasData(ps) {
      var p :| p in ps && SeqLen(p) > 0;
      assert p in ps + qs;
    }
    if HasData(qs) {
      var p :| p in qs && SeqLen(p) > 0;
      assert p in ps + qs;
    }
  }

  lemma {:induction false} PumpTimes(c: Connection, window: u16, now: Option<Micros>)
    ensures var f := Pump(c, window, now);
            f.conn.lastTx == if now.Some? && HasData(f.out) then now.value else c.lastTx
    decreases PendingBytes(c.pendingWrites) + |c.pendingWrites|
  {
    var step := PumpStep(c, window, now);
    if step.Some? {
      PumpStepShrinks(c, window, now);
      PumpTimes(step.value.conn, window, now);
      HasDataConcat(step.value.out, Pump(step.value.conn, window, now).out);
      if step.value.out != [] { assert step.value.out[0] in step.value.out && SeqLen(step.value.out[0]) > 0; }
    }
  }

  lemma {:induction false} ResendTimes(c: Connection, window: u16, now: Micros)
    ensures var f := Resend(c, window, now);
            f.conn.lastTx == if HasData(f.out) then now else c.lastTx
  {
    if c.flightBuffer != [] {
      var p := ResendFrom(c, window, 0)[0];
      assert p in Resend(c, window, now).out && SeqLen(p) > 0;
    }
  }

  lemma {:induction false} PacketTimes(c: Connection, window: u16, now: Micros, asked: bool)
    ensures var f1 := Pump(c, window, Some(now));
            var f2 := Pump(f1.conn, window, Some(now));
            var reply := if asked then [AckPacket(f1.conn, window)] else [];
            f2.conn.lastTx == if HasData(f1.out + reply + f2.out) then now else c.lastTx
  {
    var f1 := Pump(c, window, Some(now));
    var reply := if asked then [AckPacket(f1.conn, window)] else [];
    PumpTimes(c, window, Some(now));
    PumpTimes(f1.conn, window, Some(now));
    HasDataConcat(f1.out, reply);
    HasDataConcat(f1.out + reply, Pump(f1.conn, window, Some(now)).out);
    assert !HasData(reply);
  }

  lemma {:induction false} StepTimes(c: Connection, window: u16, op: ConnOp)
    ensures After(c, window, op).conn.lastTx
              == if !op.WriteOp? && HasData(SentBy(c, window, op)) then op.now else c.lastTx
  {
    match op
    case WriteOp(data, eom) => PumpTimes(Queued(c, data, eom), window, None);
    case PacketOp(p, now) =>
      PacketTimes(TakeAck(Receive(c, p).0, p), window, now, p.ackReq);
      assert [] + After(c, window, op).out == After(c, window, op).out;
    case AdviceOp(p, now) =>
      PumpTimes(TakeAck(c, p), window, Some(now));
      ResendTimes(Pump(TakeAck(c, p), window, Some(now)).conn, window, now);
      HasDataConcat(Pump(TakeAck(c, p), window, Some(now)).out, After(c, window, op).out);
    case TimerOp(now) =>
      ResendTimes(c.(retries := Min(c.retries + 1, 255)), window, now);
      assert [] + After(c, window, op).out == After(c, window, op).out;
  }

  /** Over any run and against any peer the retransmission timer runs from the last time data went out,
      new data on an acknowledgement or old data again, and is due if and only if bytes are in flight
      and the timeout has passed since. */
  lemma {:induction false} TimedFromLastSending(c: Connection, window: u16, ops: seq<ConnOp>, now: Micros)
    ensures var c' := ConnAt(c, window, ops);
            && c'.lastTx == LastSending(c, window, ops)
            && (DataDue(c', now) <==>
                  c'.flightBuffer != [] && now >= LastSending(c, window, ops) + RETRANSMIT_TIMEOUT)
    decreases |ops|
  {
    if ops != [] {
      var front := ops[..|ops| - 1];
      TimedFromLastSending(c, window, front, now);
      StepTimes(ConnAt(c, window, front), window, ops[|ops| - 1]);
    }
  }
}
