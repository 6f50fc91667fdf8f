/** Retransmission and end-of-message marks.

    The flight buffer stores bytes and no marks. Retransmission numbers it from the oldest
    unacknowledged sequence, and an acknowledgement takes as many bytes off it as it acknowledges
    places. Both are right exactly as long as no byte is cut while a mark is in flight. */
module AdspEom {
  import opened Words
  import opened AdspSpec
  import opened AdspStream
  import opened AdspLedger

  /** After these operations the flight buffer says what is in flight. */
  ghost predicate FaithfulAfter(c: Connection, window: u16, ops: seq<ConnOp>) {
    FlightAligned(ConnAt(c, window, ops), TapeAt([], ops))
  }

  /** After these operations no byte in flight comes after a mark in flight. */
  ghost predicate InOrderAfter(c: Connection, window: u16, ops: seq<ConnOp>) {
    && 0 <= OldestPos(ConnAt(c, window, ops), TapeAt([], ops))
    && NoByteAfterEom(OnTheWire(ConnAt(c, window, ops), TapeAt([], ops)))
  }

  lemma {:induction false} FrontIsModest(c: Connection, window: u16, ops: seq<ConnOp>, k: nat)
    requires Modest(c, window, ops, []) && k <= |ops|
    ensures Modest(c, window, ops[..k], [])
    decreases |ops|
  {
    if k == |ops| {
      assert ops[..k] == ops;
    } else {
      assert ops[..|ops| - 1][..k] == ops[..k];
      FrontIsModest(c, window, ops[..|ops| - 1], k);
    }
  }

  lemma {:induction false} FaithfulIsInOrder(c: Connection, window: u16, ops: seq<ConnOp>)
    requires FaithfulAfter(c, window, ops)
    ensures InOrderAfter(c, window, ops)
  {
    var c', tape := ConnAt(c, window, ops), TapeAt([], ops);
    AlignedInOrder(c'.flightBuffer, tape, OldestPos(c', tape), CutPos(c', tape));
  }

  lemma {:induction false} InOrderIsFaithful(c: Connection, window: u16, ops: seq<ConnOp>)
    requires c == NewConnection(c.ourConnId, c.remote, c.sendWindow, c.lastTx) && Modest(c, window, ops, [])
    requires forall k :: 0 <= k <= |ops| ==> InOrderAfter(c, window, ops[..k])
    ensures FaithfulAfter(c, window, ops)
    decreases |ops|
  {
    if ops != [] {
      var front := ops[..|ops| - 1];
      assert forall k :: 0 <= k <= |front| ==> front[..k] == ops[..k];
      InOrderIsFaithful(c, window, front);
      assert ops[..|ops|] == ops;
      LedgerOverRuns(c, window, front);
      StepAligned(ConnAt(c, window, front), window, ops[|ops| - 1], TapeAt([], front));
    }
  }

  /** Exactly when the flight buffer can be trusted. Over any run of writes, packets, advice and
      timers, whatever the peer acknowledges: the flight buffer says what is in flight at every
      moment if and only if at no moment a byte is in flight behind a mark in flight. */
  lemma {:induction false} FaithfulIffNoByteAfterEom(c: Connection, window: u16, ops: seq<ConnOp>)
    requires c == NewConnection(c.ourConnId, c.remote, c.sendWindow, c.lastTx) && Modest(c, window, ops, [])
    ensures (forall k :: 0 <= k <= |ops| ==> FaithfulAfter(c, window, ops[..k])) <==>
            (forall k :: 0 <= k <= |ops| ==> InOrderAfter(c, window, ops[..k]))
  {
    forall k | 0 <= k <= |ops| && FaithfulAfter(c, window, ops[..k]) ensures InOrderAfter(c, window, ops[..k]) {
      FaithfulIsInOrder(c, window, ops[..k]);
    }
    if forall k :: 0 <= k <= |ops| ==> InOrderAfter(c, window, ops[..k]) {
      forall k | 0 <= k <= |ops| ensures FaithfulAfter(c, window, ops[..k]) {
        FrontIsModest(c, window, ops, k);
        assert forall j :: 0 <= j <= k ==> ops[..k][..j] == ops[..j];
        InOrderIsFaithful(c, window, ops[..k]);
      }
    }
  }

  lemma {:induction false} FrontStandsBefore(c: Connection, window: u16, ops: seq<ConnOp>)
    requires c == NewConnection(c.ourConnId, c.remote, c.sendWindow, c.lastTx) && Modest(c, window, ops, [])
    requires ops != []
    ensures var front := ops[..|ops| - 1];
            var c1, tape1 := ConnAt(c, window, front), TapeAt([], front);
            var c', tape := ConnAt(c, window, ops), TapeAt([], ops);
            && tape1 <= tape && 0 <= OldestPos(c1, tape1) <= OldestPos(c', tape)
            && CutPos(c1, tape1) <= CutPos(c', tape) <= |tape|
  {
    var front := ops[..|ops| - 1];
    LedgerOverRuns(c, window, front);
    StepKeepsLedger(ConnAt(c, window, front), window, ops[|ops| - 1], TapeAt([], front));
  }

  /** While nothing has been acknowledged the end of the run decides alone: the flight buffer is
      right if and only if no byte sent so far comes after a mark. */
  lemma {:induction false} NothingAckedIffNoByteAfterEom(c: Connection, window: u16, ops: seq<ConnOp>)
    requires c == NewConnection(c.ourConnId, c.remote, c.sendWindow, c.lastTx) && Modest(c, window, ops, [])
    requires OldestPos(ConnAt(c, window, ops), TapeAt([], ops)) == 0
    ensures FaithfulAfter(c, window, ops) <==> InOrderAfter(c, window, ops)
    decreases |ops|
  {
    if FaithfulAfter(c, window, ops) { FaithfulIsInOrder(c, window, ops); }
    if ops != [] && InOrderAfter(c, window, ops) {
      var front := ops[..|ops| - 1];
      var c1, tape1 := ConnAt(c, window, front), TapeAt([], front);
      var c', tape := ConnAt(c, window, ops), TapeAt([], ops);
      FrontStandsBefore(c, window, ops);
      PartInOrder(tape, 0, CutPos(c', tape), 0, CutPos(c1, tape1));
      LedgerOverRuns(c, window, front);
      assert OnTheWire(c1, tape1) == tape[0..CutPos(c1, tape1)];
      NothingAckedIffNoByteAfterEom(c, window, front);
      StepAligned(c1, window, ops[|ops| - 1], tape1);
    }
  }

  // ---- what goes wrong otherwise ---------------------------------------------------------------

  /** One byte ends a message and another follows, with nothing acknowledged. */
  lemma {:induction false} TwoWritesInFlight(c: Connection, x: byte, y: byte, window: u16)
    requires c == NewConnection(c.ourConnId, c.remote, c.sendWindow, c.lastTx) && c.sendWindow >= 3
    ensures var f1 := Pump(Queued(c, [x], true), window, None);
            var f2 := Pump(Queued(f1.conn, [y], false), window, None);
            && f2.out == [StreamPacket(f1.conn, window, 2, false, [y])]
            && f2.conn == c.(flightBuffer := [x, y], sendSeq := 3, pendingWrites := [],
                             writesSubmitted := 2, writesCompleted := 2)
  {
    var q1 := Queued(c, [x], true);
    var f1 := Pump(q1, window, None);
    OneByteCut(q1, window, x, true);
    var q2 := Queued(f1.conn, [y], false);
    OneByteCut(q2, window, y, false);
  }

  /** Both packets are late, the timer resends the flight buffer, and then the second original
      arrives. The receiver is handed the second byte twice, and never the end of the message. */
  lemma {:induction false} LateOriginalIsDeliveredTwice(c: Connection, d: Connection, x: byte, y: byte, window: u16,
      now: Micros)
    requires c == NewConnection(c.ourConnId, c.remote, c.sendWindow, c.lastTx) && c.sendWindow >= 3
    requires d == NewConnection(d.ourConnId, d.remote, d.sendWindow, d.lastTx)
    ensures var f1 := Pump(Queued(c, [x], true), window, None);
            var f2 := Pump(Queued(f1.conn, [y], false), window, None);
            var late := Resend(f2.conn, window, now);
            && |f2.out| == 1 && |late.out| == 1
            && EventTokens(ReceiveAll(d, [late.out[0], f2.out[0]]).1) == [Byte(x), Byte(y), Byte(y)]
  {
    TwoWritesInFlight(c, x, y, window);
    var f1 := Pump(Queued(c, [x], true), window, None);
    var f2 := Pump(Queued(f1.conn, [y], false), window, None);
    var late := Resend(f2.conn, window, now);
    var p := StreamPacket(f2.conn, window, 0, false, [x, y]);
    assert f2.conn.flightBuffer[0..2] == [x, y];
    assert ResendFrom(f2.conn, window, 0) == [p] + ResendFrom(f2.conn, window, 2);
    assert late.out == [p];
    LateReceive(d, p, f2.out[0], x, y);
  }

  /** Nothing is resent, but the first packet is acknowledged, byte and mark. The acknowledgement
      takes two bytes off the flight buffer: the backlog reads zero and no timer will ever resend
      the second byte, which is still unacknowledged. */
  lemma {:induction false} AckedMarkDropsAByte(c: Connection, x: byte, y: byte, window: u16, ack: Packet, now: Micros)
    requires c == NewConnection(c.ourConnId, c.remote, c.sendWindow, c.lastTx) && c.sendWindow >= 3
    requires ack.nextRecvSeq == 2
    ensures var f1 := Pump(Queued(c, [x], true), window, None);
            var f2 := Pump(Queued(f1.conn, [y], false), window, None);
            var c', tape := TakeAck(f2.conn, ack), Tokens([x], true) + Tokens([y], false);
            && |c'.flightBuffer| + PendingBytes(c'.pendingWrites) == 0
            && InFlight(c') == 1
            && OldestPos(c', tape) == 2 && tape[2..] == [Byte(y)]
            && !DataDue(c', now) && Resend(c', window, now).out == []
  {
    TwoWritesInFlight(c, x, y, window);
    var tape := Tokens([x], true) + Tokens([y], false);
    assert tape == [Byte(x), Eom, Byte(y)];
  }

  /** A receiver handed `x y` at sequence 0, then `y` at sequence 2. */
  lemma {:induction false} LateReceive(d: Connection, p: Packet, q: Packet, x: byte, y: byte)
    requires d.recvSeq == 0
    requires p.firstByteSeq == 0 && p.payload == [x, y] && !p.eom
    requires q.firstByteSeq == 2 && q.payload == [y] && !q.eom
    ensures EventTokens(ReceiveAll(d, [p, q]).1) == [Byte(x), Byte(y), Byte(y)]
  {
    var (d1, ev1) := Receive(d, p);
    assert p.payload[0..] == p.payload && ev1 == [Data(p.connId, [x, y], false)];
    var (d2, ev2) := Receive(d1, q);
    assert q.payload[0..] == q.payload && ev2 == [Data(q.connId, [y], false)];
    assert [p, q][1..] == [q] && [q][1..] == [];
    assert ReceiveAll(d1, [q]) == (d2, ev2 + []);
    OneDataEvent(ev1, [x, y], false);
    OneDataEvent(ev2, [y], false);
    assert ev2 + [] == ev2;
    EventTokensConcat(ev1, ev2);
  }

  /** Pumping a queue that holds one byte, with room for it. */
  lemma {:induction false} OneByteCut(c: Connection, window: u16, b: byte, eom: bool)
    requires |c.pendingWrites| == 1 && c.pendingWrites[0] == Write([b], 0, eom) && Available(c) >= 1
    ensures var f := Pump(c, window, None);
            && f.out == [StreamPacket(c, window, c.sendSeq, eom, [b])]
            && f.conn == c.(flightBuffer := c.flightBuffer + [b],
                            sendSeq := Add32(c.sendSeq, if eom then 2 else 1),
                            pendingWrites := [], writesCompleted := c.writesCompleted + 1)
  {
    assert Chunk(c, 1) == [b];
    var step := PumpStep(c, window, None).value;
    assert Pump(step.conn, window, None) == Effect(step.conn, []);
  }
}
