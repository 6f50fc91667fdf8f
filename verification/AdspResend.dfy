/** What a retransmission must send: all of the flight buffer, in order, from the oldest
    unacknowledged byte on, in packets that ask for an acknowledgement. */
module AdspResend {
  import opened Words
  import opened AdspSpec
  import opened AdspStream

  /** A packet of plain bytes that asks to be acknowledged: neither empty nor too long. */
  predicate Piece(p: Packet, first: u32) {
    && p.descriptor == DataPacket && !p.attention && !p.eom && p.ackReq
    && 0 < |p.payload| <= ADSP_MAX_DATA && p.firstByteSeq == first
  }

  /** The packets carry `data` from sequence number `first` on, piece after piece, every piece but the
      last full: nothing missing, nothing twice. */
  predicate Spells(ps: seq<Packet>, first: u32, data: seq<byte>)
    decreases |ps|
  {
    if ps == [] then data == [] else
    && Piece(ps[0], first)
    && ps[0].payload <= data && |ps[0].payload| == Min(ADSP_MAX_DATA, |data|)
    && Spells(ps[1..], Add32(first, |ps[0].payload|), data[|ps[0].payload|..])
  }

  /** The bytes of some packets, end to end. */
  function Payloads(ps: seq<Packet>): seq<byte> {
    if ps == [] then [] else ps[0].payload + Payloads(ps[1..])
  }

  lemma {:induction false} SpelledPayloads(ps: seq<Packet>, first: u32, data: seq<byte>)
    requires Spells(ps, first, data)
    ensures Payloads(ps) == data
    decreases |ps|
  {
    if ps != [] { SpelledPayloads(ps[1..], Add32(first, |ps[0].payload|), data[|ps[0].payload|..]); }
  }

  lemma {:induction false} AddTwice(a: u32, m: nat, n: nat)
    ensures Add32(Add32(a, m), n) == Add32(a, m + n)
  {
  }

  lemma {:induction false} ResendFromSpells(c: Connection, window: u16, i: nat)
    requires i <= |c.flightBuffer|
    ensures Spells(ResendFrom(c, window, i), Add32(c.oldestUnackedSeq, i), c.flightBuffer[i..])
    decreases |c.flightBuffer| - i
  {
    if i < |c.flightBuffer| {
      var take := Min(ADSP_MAX_DATA, |c.flightBuffer| - i);
      ResendFromSpells(c, window, i + take);
      AddTwice(c.oldestUnackedSeq, i, take);
      var ps := ResendFrom(c, window, i);
      assert ps[1..] == ResendFrom(c, window, i + take);
      assert c.flightBuffer[i..][take..] == c.flightBuffer[i + take..];
    }
  }

  /** Going back sends the whole flight buffer again. */
  lemma {:induction false} ResendSpells(c: Connection, window: u16, now: Micros)
    ensures Spells(Resend(c, window, now).out, c.oldestUnackedSeq, c.flightBuffer)
  {
    ResendFromSpells(c, window, 0);
    assert c.flightBuffer[0..] == c.flightBuffer;
  }

  // ---- a write that fits -------------------------------------------------------------------------------

  /** A single write, cut from some byte on, with room for all the rest. */
  predicate RoomForWrite(c: Connection) {
    && |c.pendingWrites| == 1 && !c.pendingWrites[0].eom
    && |c.pendingWrites[0].data| - c.pendingWrites[0].offset <= Available(c)
  }

  lemma {:induction false} InFlightMoves(s: u32, o: u32, n: nat)
    requires Sub32(s, o) + n < MOD32
    ensures Sub32(Add32(s, n), o) == Sub32(s, o) + n
  {
  }

  lemma {:induction false} WriteSpellsFrom(c: Connection, window: u16)
    requires RoomForWrite(c)
    ensures var w := c.pendingWrites[0];
            Spells(Pump(c, window, None).out, c.sendSeq, w.data[w.offset..])
    decreases |c.pendingWrites[0].data| - c.pendingWrites[0].offset
  {
    var w := c.pendingWrites[0];
    var left := |w.data| - w.offset;
    if left == 0 {
      assert w.data[w.offset..] == [];
      assert Pump(WriteDone(c), window, None).out == [];
    } else {
      var take := Min(Min(left, Available(c)), ADSP_MAX_DATA);
      var c1, ps := CutBytes(c, take), Pump(c, window, None).out;
      InFlightMoves(c.sendSeq, c.oldestUnackedSeq, take);
      assert w.data[w.offset..][take..] == w.data[w.offset + take..];
      PumpStepShrinks(c, window, None);
      assert ps == [StreamPacket(c, window, c.sendSeq, false, Chunk(c, take))] + Pump(c1, window, None).out;
      assert ps[1..] == Pump(c1, window, None).out;
      if take == left {
        assert c1.pendingWrites == [] && Pump(c1, window, None).out == [];
      } else {
        WriteSpellsFrom(c1, window);
      }
    }
  }

  /** A write of plain bytes into an open window goes out at once, all of it, in as few packets as hold
      it. */
  lemma {:induction false} WriteSpells(c: Connection, window: u16, data: seq<byte>)
    requires c.pendingWrites == [] && |data| <= Available(c)
    ensures Spells(Pump(Queued(c, data, false), window, None).out, c.sendSeq, data)
  {
    assert data[0..] == data;
    WriteSpellsFrom(Queued(c, data, false), window);
  }

  // ---- the two that go back ---------------------------------------------------------------------------

  /** What an operation added to an outbox, as packets to one address. */
  predicate Adds(before: seq<(Address, Packet)>, after: seq<(Address, Packet)>, remote: Address, ps: seq<Packet>) {
    after == before + ToRemote(remote, ps)
  }

  /** The retransmission timer, while it does not give up: the whole flight buffer goes out again, and
      nothing else. */
  lemma {:induction false} TimerResends(e: Endpoint, key: u16, now: Micros)
    requires key in e.connections && DataDue(e.connections[key], now) && e.connections[key].retries < MAX_RETRIES
    ensures var c := e.connections[key];
            exists ps :: Adds(e.outbox, PollStream(e, key, now).outbox, c.remote, ps)
                         && Spells(ps, c.oldestUnackedSeq, c.flightBuffer)
  {
    var c := e.connections[key];
    var c1 := c.(retries := c.retries + 1);
    ResendSpells(c1, e.recvWindow, now);
    assert Adds(e.outbox, PollStream(e, key, now).outbox, c.remote, Resend(c1, e.recvWindow, now).out);
  }

  /** Retransmission advice: after what the advice's acknowledgement lets go, the whole flight buffer
      as it then is. */
  lemma {:induction false} AdviceResends(e: Endpoint, p: Packet, now: Micros)
    requires p.connId in e.connections
    ensures var e' := HandleAdvice(e, p, now);
            var c' := e'.connections[p.connId];
            exists cut, ps :: Adds(e.outbox, e'.outbox, c'.remote, cut + ps)
                              && Spells(ps, c'.oldestUnackedSeq, c'.flightBuffer)
  {
    var acked := Pump(TakeAck(e.connections[p.connId], p), e.recvWindow, Some(now));
    var resent := Resend(acked.conn, e.recvWindow, now);
    ResendSpells(acked.conn, e.recvWindow, now);
    assert Adds(e.outbox, HandleAdvice(e, p, now).outbox, resent.conn.remote, acked.out + resent.out);
  }

  // ---- at the receiver -----------------------------------------------------------------------------------

  /** A packet that starts where the receiver stands is taken whole. */
  lemma {:induction false} NextPacketTaken(r: Connection, p: Packet)
    requires p.firstByteSeq == r.recvSeq && !p.eom && 0 < |p.payload| <= ADSP_MAX_DATA
    ensures Receive(r, p) == (r.(recvSeq := Add32(r.recvSeq, |p.payload|)), [Data(p.connId, p.payload, false)])
  {
    assert p.payload[0..] == p.payload;
  }

  lemma {:induction false} BytesSplit(data: seq<byte>, n: nat)
    requires n <= |data|
    ensures Bytes(data[..n]) + Bytes(data[n..]) == Bytes(data)
  {
  }

  /** A receiver that waits for the first byte takes every byte, in order. */
  lemma {:induction false} SpelledIsReceived(r: Connection, ps: seq<Packet>, data: seq<byte>)
    requires Spells(ps, r.recvSeq, data)
    ensures var (r', evs) := ReceiveAll(r, ps);
            r' == r.(recvSeq := Add32(r.recvSeq, |data|)) && EventTokens(evs) == Bytes(data)
    decreases |ps|
  {
    if ps != [] {
      var p, n := ps[0], |ps[0].payload|;
      NextPacketTaken(r, p);
      var (r1, evs) := Receive(r, p);
      SpelledIsReceived(r1, ps[1..], data[n..]);
      AddTwice(r.recvSeq, n, |data| - n);
      EventTokensConcat(evs, ReceiveAll(r1, ps[1..]).1);
      OneDataEvent(evs, p.payload, false);
      BytesSplit(data, n);
      assert data[..n] == p.payload;
    }
  }

  /** Going back repairs the loss of everything in flight: a peer that has received up to the oldest
      unacknowledged byte takes exactly the flight buffer from what is sent again, and has then
      received all that was sent if and only if no end-of-message was in flight. */
  lemma {:induction false} ResendRepairs(c: Connection, window: u16, now: Micros, tape: seq<Token>, r: Connection)
    requires Ledger(c, tape) && FlightAligned(c, tape) && r.recvSeq == c.oldestUnackedSeq
    ensures var (r', evs) := ReceiveAll(r, Resend(c, window, now).out);
            && EventTokens(evs) == Bytes(c.flightBuffer)
            && r'.recvSeq == Add32(c.oldestUnackedSeq, |c.flightBuffer|)
            && (r'.recvSeq == c.sendSeq <==> Eom !in OnTheWire(c, tape))
  {
    ResendSpells(c, window, now);
    SpelledIsReceived(r, Resend(c, window, now).out, c.flightBuffer);
    FlightReaches(c, tape);
  }

  /** An exact flight buffer ends where the sender stands, but for the marks behind it. */
  lemma {:induction false} FlightReaches(c: Connection, tape: seq<Token>)
    requires Ledger(c, tape) && FlightAligned(c, tape)
    ensures Add32(c.oldestUnackedSeq, |c.flightBuffer|) == c.sendSeq <==> Eom !in OnTheWire(c, tape)
  {
    var o, s, n := OldestPos(c, tape), CutPos(c, tape), |c.flightBuffer|;
    LedgerOldest(c, tape);
    LowAdd(o, n);
    LowSub(s, o + n);
    MarkInFlight(c.flightBuffer, tape, o, s);
  }
}
