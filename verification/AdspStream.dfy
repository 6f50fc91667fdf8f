/** The byte stream of one ADSP connection as a tape of tokens.

    A tape lists what a sender wrote: bytes, and an end-of-message token that takes up
    one place of sequence space. Packets are slices of the tape. */
module AdspStream {
  import opened Words
  import opened AdspSpec

  datatype Token = Byte(b: byte) | Eom

  function Bytes(data: seq<byte>): (t: seq<Token>)
    ensures |t| == |data|
  {
    seq(|data|, i requires 0 <= i < |data| => Byte(data[i]))
  }

  function Tokens(data: seq<byte>, eom: bool): seq<Token> {
    Bytes(data) + (if eom then [Eom] else [])
  }

  /** What a queue of writes still has to cut into packets. */
  function PendingTokens(ws: seq<PendingWrite>): seq<Token> {
    if ws == [] then [] else
    Tokens(ws[0].data[ws[0].offset..], ws[0].eom) + PendingTokens(ws[1..])
  }

  /** What the application is handed by a list of events. */
  function EventTokens(evs: seq<AdspEvent>): seq<Token> {
    if evs == [] then [] else
    (if evs[0].Data? then Tokens(evs[0].data, evs[0].eom) else []) + EventTokens(evs[1..])
  }

  lemma {:induction false} EventTokensConcat(a: seq<AdspEvent>, b: seq<AdspEvent>)
    ensures EventTokens(a + b) == EventTokens(a) + EventTokens(b)
  {
    if a == [] {
      assert a + b == b;
    } else {
      assert (a + b)[1..] == a[1..] + b;
      EventTokensConcat(a[1..], b);
    }
  }

  lemma {:induction false} PendingTokensConcat(a: seq<PendingWrite>, b: seq<PendingWrite>)
    ensures PendingTokens(a + b) == PendingTokens(a) + PendingTokens(b)
  {
    if a == [] {
      assert a + b == b;
    } else {
      assert (a + b)[1..] == a[1..] + b;
      PendingTokensConcat(a[1..], b);
    }
  }

  // ---- the receiver -----------------------------------------------------------------

  /** The packet carries the tape's tokens from position `f` on. */
  ghost predicate Slice(p: Packet, tape: seq<Token>, f: nat) {
    && f + SeqLen(p) <= |tape|
    && tape[f..f + SeqLen(p)] == Tokens(p.payload, p.eom)
    && p.firstByteSeq == Low32(f)
  }

  /** Where a receiver at `r` stands after a packet for `[f, f + len)`. */
  function NextPos(r: nat, f: nat, len: nat): nat {
    if f <= r < f + len then f + len else r
  }

  /** What is left of a packet's tokens after the first `k`, taken off its bytes. */
  lemma {:induction false} UnseenTokens(data: seq<byte>, eom: bool, k: nat)
    requires k < |Tokens(data, eom)|
    ensures Tokens(data[Min(k, |data|)..], eom) == Tokens(data, eom)[k..]
  {
  }

  lemma {:induction false} OneDataEvent(evs: seq<AdspEvent>, data: seq<byte>, eom: bool)
    requires |evs| == 1 && evs[0].Data? && evs[0].data == data && evs[0].eom == eom
    ensures EventTokens(evs) == Tokens(data, eom)
  {
    assert evs[1..] == [];
  }

  /** One packet, in order or not: exactly the unseen part of the tape is handed over. */
  lemma {:induction false} ReceiveSlice(c: Connection, p: Packet, tape: seq<Token>, f: nat, r: nat)
    requires c.recvSeq == Low32(r) && r <= |tape|
    requires Slice(p, tape, f)
    requires -HALF32 < r - f < HALF32
    ensures var (c', evs) := Receive(c, p);
            var r' := NextPos(r, f, SeqLen(p));
            && r <= r' <= |tape|
            && c' == c.(recvSeq := Low32(r'))
            && EventTokens(evs) == tape[r..r']
  {
    LowSigned(r, f);
    assert Overlap(c, p) == r - f;
    if f <= r < f + SeqLen(p) {
      LowAdd(f, SeqLen(p));
      UnseenTokens(p.payload, p.eom, r - f);
      OneDataEvent(Receive(c, p).1, p.payload[Min(r - f, |p.payload|)..], p.eom);
      assert tape[f..f + SeqLen(p)][r - f..] == tape[r..f + SeqLen(p)];
    } else {
      assert c.(recvSeq := Low32(r)) == c;
    }
  }

  lemma {:induction false} JoinTape(tape: seq<Token>, a: nat, b: nat, c: nat)
    requires a <= b <= c <= |tape|
    ensures tape[a..b] + tape[b..c] == tape[a..c]
  {
  }

  function ReceiveAll(c: Connection, ps: seq<Packet>): (Connection, seq<AdspEvent>)
    decreases |ps|
  {
    if ps == [] then (c, []) else
    var (c1, evs) := Receive(c, ps[0]);
    var (c2, more) := ReceiveAll(c1, ps[1..]);
    (c2, evs + more)
  }

  function FinalPos(r: nat, ps: seq<Packet>, fs: seq<nat>): nat
    requires |ps| == |fs|
    decreases |ps|
  {
    if ps == [] then r else FinalPos(NextPos(r, fs[0], SeqLen(ps[0])), ps[1..], fs[1..])
  }

  /** Each packet is a slice of the tape and arrives while its first byte is within half a
      turn of the receiver. Order, gaps, overlap and repetition are free. */
  ghost predicate SlicesInReach(r: nat, ps: seq<Packet>, fs: seq<nat>, tape: seq<Token>)
    requires |ps| == |fs|
    decreases |ps|
  {
    ps != [] ==>
      && Slice(ps[0], tape, fs[0])
      && -HALF32 < r - fs[0] < HALF32
      && SlicesInReach(NextPos(r, fs[0], SeqLen(ps[0])), ps[1..], fs[1..], tape)
  }

  /** Any slices of a tape, in any order, with any overlap: the events flatten to exactly
      the tape between where the receiver started and where its sequence number now is. */
  lemma {:induction false} ReceiverFollowsTape(c: Connection, ps: seq<Packet>, fs: seq<nat>, tape: seq<Token>, r: nat)
    requires |ps| == |fs| && r <= |tape| && c.recvSeq == Low32(r)
    requires SlicesInReach(r, ps, fs, tape)
    ensures var (c', evs) := ReceiveAll(c, ps);
            var r' := FinalPos(r, ps, fs);
            && r <= r' <= |tape|
            && c'.recvSeq == Low32(r')
            && EventTokens(evs) == tape[r..r']
    decreases |ps|
  {
    if ps != [] {
      var (c1, evs) := Receive(c, ps[0]);
      var r1 := NextPos(r, fs[0], SeqLen(ps[0]));
      ReceiveSlice(c, ps[0], tape, fs[0], r);
      ReceiverFollowsTape(c1, ps[1..], fs[1..], tape, r1);
      var (c2, more) := ReceiveAll(c1, ps[1..]);
      EventTokensConcat(evs, more);
      JoinTape(tape, r, r1, FinalPos(r, ps, fs));
    }
  }

  // ---- the sender's ledger ----------------------------------------------------------

  /** How much of the tape has been cut into packets. */
  ghost function CutPos(c: Connection, tape: seq<Token>): int {
    |tape| - |PendingTokens(c.pendingWrites)|
  }

  /** The first position the peer has not acknowledged. */
  ghost function OldestPos(c: Connection, tape: seq<Token>): int {
    CutPos(c, tape) - InFlight(c)
  }

  /** What every sender keeps, whatever was written. */
  ghost predicate Ledger(c: Connection, tape: seq<Token>) {
    && 0 <= OldestPos(c, tape)
    && tape[CutPos(c, tape)..] == PendingTokens(c.pendingWrites)
    && c.sendSeq == Low32(CutPos(c, tape))
    && |tape| - OldestPos(c, tape) < HALF32
    && |c.flightBuffer| <= InFlight(c)
    && c.writesCompleted + |c.pendingWrites| == c.writesSubmitted
  }

  lemma {:induction false} LedgerOldest(c: Connection, tape: seq<Token>)
    requires Ledger(c, tape)
    ensures c.oldestUnackedSeq == Low32(OldestPos(c, tape))
  {
  }

  /** Everything a step that only sends leaves alone. */
  predicate SameButSending(c: Connection, c': Connection) {
    && c'.ourConnId == c.ourConnId && c'.remote == c.remote
    && c'.recvSeq == c.recvSeq && c'.sendWindow == c.sendWindow
    && c'.oldestUnackedSeq == c.oldestUnackedSeq
    && c'.attnSendSeq == c.attnSendSeq && c'.attnRecvSeq == c.attnRecvSeq
    && c'.attnInFlight == c.attnInFlight
    && c'.writesSubmitted == c.writesSubmitted
  }

  /** The packet is a slice of the tape between two positions. */
  ghost predicate SentWithin(p: Packet, tape: seq<Token>, lo: int, hi: int) {
    exists f: nat :: lo <= f && f + SeqLen(p) <= hi && Slice(p, tape, f)
  }

  /** A packet of the byte stream from the end that uses this id. */
  predicate IsStreamOf(p: Packet, id: u16) {
    (p.descriptor == DataPacket || p.descriptor == ControlPacket) && !p.attention && p.connId == id
  }

  /** A stream packet this connection would send now. */
  predicate FromStream(p: Packet, c: Connection, window: u16) {
    IsStreamOf(p, c.ourConnId) && p.nextRecvSeq == c.recvSeq && p.recvWindow == window
  }

  /** Whatever the pump sends is this connection's, and it touches only what is being sent. */
  lemma {:induction false} PumpFromStream(c: Connection, window: u16, now: Option<Micros>)
    ensures var f := Pump(c, window, now);
            SameButSending(c, f.conn) && forall p :: p in f.out ==> FromStream(p, c, window)
    decreases PendingBytes(c.pendingWrites) + |c.pendingWrites|
  {
    var step := PumpStep(c, window, now);
    if step.Some? {
      PumpStepShrinks(c, window, now);
      var chunk, eom := PumpStepIsCut(c, window, now);
      PumpFromStream(step.value.conn, window, now);
    }
  }

  /** So is whatever answers a packet. */
  lemma {:induction false} HandleDataFromStream(c: Connection, p: Packet, window: u16, now: Micros)
    ensures var f := HandleData(c, p, window, now);
            && f.conn.ourConnId == c.ourConnId
            && forall q :: q in f.out ==> IsStreamOf(q, c.ourConnId) && q.recvWindow == window
  {
    var c1 := TakeAck(Receive(c, p).0, p);
    PumpFromStream(c1, window, Some(now));
    PumpFromStream(Pump(c1, window, Some(now)).conn, window, Some(now));
  }

  lemma {:induction false} TokensConcat(a: seq<byte>, b: seq<byte>, eom: bool, others: seq<Token>)
    ensures Tokens(a + b, eom) + others == Tokens(a, false) + (Tokens(b, eom) + others)
  {
    assert Bytes(a + b) == Bytes(a) + Bytes(b);
  }

  /** Cutting part of the front write. */
  lemma {:induction false} PartTokens(ws: seq<PendingWrite>, take: nat)
    requires ws != [] && ws[0].offset + take < |ws[0].data|
    ensures PendingTokens(ws) ==
              Tokens(ws[0].data[ws[0].offset..ws[0].offset + take], false) + PendingTokens(QueueAfter(ws, take))
  {
    var w, ws' := ws[0], QueueAfter(ws, take);
    var head, tail := w.data[w.offset..w.offset + take], w.data[w.offset + take..];
    assert w.data[w.offset..] == head + tail;
    assert ws'[0].data[ws'[0].offset..] == tail && ws'[0].eom == w.eom && ws'[1..] == ws[1..];
    TokensConcat(head, tail, w.eom, PendingTokens(ws[1..]));
  }

  /** Cutting bytes off the front write takes exactly those tokens off the queue. */
  lemma {:induction false} CutTokens(ws: seq<PendingWrite>, take: nat)
    requires ws != [] && ws[0].offset + take <= |ws[0].data|
    ensures var w := ws[0];
            var eom := w.eom && w.offset + take == |w.data|;
            PendingTokens(ws) ==
              Tokens(w.data[w.offset..w.offset + take], eom) + PendingTokens(QueueAfter(ws, take))
  {
    var w := ws[0];
    if w.offset + take == |w.data| {
      assert w.data[w.offset..] == w.data[w.offset..w.offset + take];
    } else {
      PartTokens(ws, take);
    }
  }

  /** The queue `head + tail` sits at `s` on the tape; so does each part. */
  lemma {:induction false} SplitTape(tape: seq<Token>, s: nat, head: seq<Token>, tail: seq<Token>)
    requires s <= |tape| && tape[s..] == head + tail
    ensures s + |head| <= |tape|
    ensures tape[s..s + |head|] == head && tape[s + |head|..] == tail
  {
    assert |tape[s..]| == |head| + |tail|;
    assert tape[s..s + |head|] == tape[s..][..|head|];
    assert tape[s + |head|..] == tape[s..][|head|..];
  }

  /** `c'` is `c` after cutting `chunk`, and an end-of-message if `eom`, off its queue. */
  ghost predicate IsCut(c: Connection, c': Connection, chunk: seq<byte>, eom: bool) {
    && SameButSending(c, c')
    && c'.sendSeq == Add32(c.sendSeq, |chunk| + (if eom then 1 else 0))
    && c'.flightBuffer == c.flightBuffer + chunk
    && PendingTokens(c.pendingWrites) == Tokens(chunk, eom) + PendingTokens(c'.pendingWrites)
    && c'.writesCompleted + |c'.pendingWrites| == c.writesCompleted + |c.pendingWrites|
  }

  /** Every turn of the pump loop is a cut: bytes only within the window, at most one packet. */
  lemma {:induction false} PumpStepIsCut(c: Connection, window: u16, now: Option<Micros>) returns (chunk: seq<byte>,
      eom: bool)
    requires PumpStep(c, window, now).Some?
    ensures IsCut(c, PumpStep(c, window, now).value.conn, chunk, eom)
    ensures |chunk| <= Available(c) && |chunk| <= ADSP_MAX_DATA
    ensures PumpStep(c, window, now).value.out ==
            if chunk == [] && !eom then [] else [StreamPacket(c, window, c.sendSeq, eom, chunk)]
  {
    var front := c.pendingWrites[0];
    var remaining := |front.data| - front.offset;
    if remaining == 0 {
      chunk, eom := [], front.eom;
      assert front.data[front.offset..] == [];
      assert c.flightBuffer + [] == c.flightBuffer;
    } else {
      var take := Min(Min(remaining, Available(c)), ADSP_MAX_DATA);
      chunk, eom := Chunk(c, take), CarriesEom(c, take);
      CutBytesIsCut(c, take);
    }
  }

  lemma {:induction false} CutBytesIsCut(c: Connection, take: nat)
    requires c.pendingWrites != [] && c.pendingWrites[0].offset + take <= |c.pendingWrites[0].data|
    ensures IsCut(c, CutBytes(c, take), Chunk(c, take), CarriesEom(c, take))
  {
    CutTokens(c.pendingWrites, take);
  }

  lemma {:induction false} CutKeeps(c: Connection, c': Connection, chunk: seq<byte>, eom: bool, tape: seq<Token>)
    requires Ledger(c, tape) && IsCut(c, c', chunk, eom)
    ensures Ledger(c', tape)
    ensures OldestPos(c', tape) == OldestPos(c, tape)
    ensures CutPos(c', tape) == CutPos(c, tape) + |Tokens(chunk, eom)|
    ensures tape[CutPos(c, tape)..CutPos(c', tape)] == Tokens(chunk, eom)
  {
    SplitTape(tape, CutPos(c, tape), Tokens(chunk, eom), PendingTokens(c'.pendingWrites));
    CutAdvances(c, c', tape, |Tokens(chunk, eom)|);
  }

  /** A turn of the pump keeps the ledger, and what it sends is a slice of the tape. */
  lemma {:induction false} PumpStepKeeps(c: Connection, window: u16, now: Option<Micros>, tape: seq<Token>)
    requires Ledger(c, tape) && PumpStep(c, window, now).Some?
    ensures var f := PumpStep(c, window, now).value;
            && Ledger(f.conn, tape)
            && SameButSending(c, f.conn)
            && OldestPos(f.conn, tape) == OldestPos(c, tape)
            && CutPos(c, tape) <= CutPos(f.conn, tape)
            && (forall p :: p in f.out ==>
                  FromStream(p, c, window) && Slice(p, tape, CutPos(c, tape))
                  && CutPos(c, tape) + SeqLen(p) <= CutPos(f.conn, tape))
            && (FlightAligned(c, tape) && NoByteAfterEom(OnTheWire(f.conn, tape)) ==> FlightAligned(f.conn, tape))
  {
    var chunk, eom := PumpStepIsCut(c, window, now);
    var c' := PumpStep(c, window, now).value.conn;
    CutKeeps(c, c', chunk, eom, tape);
    if FlightAligned(c, tape) { CutAlignedIff(c, c', chunk, eom, tape); }
  }

  /** The arithmetic of a cut: sequence space grows by what was cut, inside half a turn. */
  lemma {:induction false} CutAdvances(c: Connection, c': Connection, tape: seq<Token>, n: nat)
    requires Ledger(c, tape) && SameButSending(c, c')
    requires c'.sendSeq == Add32(c.sendSeq, n)
    requires CutPos(c', tape) == CutPos(c, tape) + n
    ensures c'.sendSeq == Low32(CutPos(c', tape))
    ensures InFlight(c') == InFlight(c) + n
    ensures OldestPos(c', tape) == OldestPos(c, tape)
  {
    LowAdd(CutPos(c, tape), n);
    LedgerOldest(c, tape);
    LowSub(CutPos(c', tape), OldestPos(c, tape));
  }

  /** The whole pump loop. */
  lemma {:induction false} PumpKeeps(c: Connection, window: u16, now: Option<Micros>, tape: seq<Token>)
    requires Ledger(c, tape)
    ensures var f := Pump(c, window, now);
            && Ledger(f.conn, tape)
            && SameButSending(c, f.conn)
            && OldestPos(f.conn, tape) == OldestPos(c, tape)
            && CutPos(c, tape) <= CutPos(f.conn, tape)
            && (forall p :: p in f.out ==>
                  FromStream(p, c, window) && SentWithin(p, tape, CutPos(c, tape), CutPos(f.conn, tape)))
            && (FlightAligned(c, tape) && NoByteAfterEom(OnTheWire(f.conn, tape)) ==> FlightAligned(f.conn, tape))
    decreases PendingBytes(c.pendingWrites) + |c.pendingWrites|
  {
    var step := PumpStep(c, window, now);
    if step.Some? {
      PumpStepShrinks(c, window, now);
      PumpStepKeeps(c, window, now, tape);
      var c1 := step.value.conn;
      PumpKeeps(c1, window, now, tape);
      var rest := Pump(c1, window, now);
      PartInOrder(tape, OldestPos(c, tape), CutPos(rest.conn, tape), OldestPos(c, tape), CutPos(c1, tape));
      forall p | p in step.value.out + rest.out
        ensures FromStream(p, c, window) && SentWithin(p, tape, CutPos(c, tape), CutPos(rest.conn, tape))
      {
        if p in step.value.out {
          assert Slice(p, tape, CutPos(c, tape));
        } else {
          assert SentWithin(p, tape, CutPos(c1, tape), CutPos(rest.conn, tape));
        }
      }
    }
  }

  // ---- the flight buffer ------------------------------------------------------------

  /** No byte comes after an end-of-message. */
  ghost predicate NoByteAfterEom(ts: seq<Token>) {
    forall i, j :: 0 <= i < j < |ts| && ts[i] == Eom ==> ts[j] == Eom
  }

  /** What was sent and is not acknowledged. */
  ghost function OnTheWire(c: Connection, tape: seq<Token>): seq<Token>
    requires 0 <= OldestPos(c, tape)
  {
    tape[OldestPos(c, tape)..CutPos(c, tape)]
  }

  /** Everything not acknowledged, sent or still queued. */
  ghost function Unacked(c: Connection, tape: seq<Token>): seq<Token>
    requires 0 <= OldestPos(c, tape)
  {
    tape[OldestPos(c, tape)..]
  }

  /** What is in order stays so in part. */
  lemma {:induction false} PartInOrder(tape: seq<Token>, a: nat, b: nat, c: nat, d: nat)
    requires a <= c <= d <= b <= |tape|
    ensures NoByteAfterEom(tape[a..b]) ==> NoByteAfterEom(tape[c..d])
  {
    if NoByteAfterEom(tape[a..b]) {
      forall i, j | 0 <= i < j < d - c && tape[c..d][i] == Eom
        ensures tape[c..d][j] == Eom
      {
        assert tape[a..b][c - a + i] == Eom && tape[a..b][c - a + j] == tape[c..d][j];
      }
    }
  }

  /** Positions `o` to `s` of the tape: the bytes of `flight`, then only ends of message. */
  ghost predicate AlignedAt(flight: seq<byte>, tape: seq<Token>, o: int, s: int) {
    && 0 <= o && o + |flight| <= s <= |tape|
    && (forall i :: 0 <= i < |flight| ==> tape[o + i] == Byte(flight[i]))
    && (forall i :: o + |flight| <= i < s ==> tape[i] == Eom)
  }

  /** The flight buffer holds the bytes in flight, at the place they have on the tape. */
  ghost predicate FlightAligned(c: Connection, tape: seq<Token>) {
    AlignedAt(c.flightBuffer, tape, OldestPos(c, tape), CutPos(c, tape))
  }

  lemma {:induction false} AlignedInOrder(flight: seq<byte>, tape: seq<Token>, o: nat, s: nat)
    requires AlignedAt(flight, tape, o, s)
    ensures NoByteAfterEom(tape[o..s])
  {
    var ts := tape[o..s];
    forall i | 0 <= i < |flight| ensures ts[i] != Eom { assert ts[i] == tape[o + i] == Byte(flight[i]); }
    forall i | |flight| <= i < |ts| ensures ts[i] == Eom { assert ts[i] == tape[o + i]; }
  }

  lemma {:induction false} AlignedGrows(flight: seq<byte>, tape: seq<Token>, o: nat, s: nat, chunk: seq<byte>,
      eom: bool)
    requires AlignedAt(flight, tape, o, s) && (chunk == [] || o + |flight| == s)
    requires s + |Tokens(chunk, eom)| <= |tape| && tape[s..s + |Tokens(chunk, eom)|] == Tokens(chunk, eom)
    ensures AlignedAt(flight + chunk, tape, o, s + |Tokens(chunk, eom)|)
  {
    var n := |flight|;
    StretchOfTape(tape, s, s + |Tokens(chunk, eom)|, Tokens(chunk, eom));
    forall i | 0 <= i < |flight + chunk|
      ensures tape[o + i] == Byte((flight + chunk)[i])
    {
      if n <= i { assert Tokens(chunk, eom)[i - n] == Byte(chunk[i - n]); }
    }
    forall i | o + |flight + chunk| <= i < s + |Tokens(chunk, eom)|
      ensures tape[i] == Eom
    {
      if s <= i { assert Tokens(chunk, eom)[i - s] == Eom; }
    }
  }

  /** A byte cut behind a mark is out of order. */
  lemma {:induction false} ByteBehindMark(flight: seq<byte>, tape: seq<Token>, o: nat, s: nat, chunk: seq<byte>,
      eom: bool)
    requires AlignedAt(flight, tape, o, s) && chunk != [] && o + |flight| < s
    requires s + |Tokens(chunk, eom)| <= |tape| && tape[s..s + |Tokens(chunk, eom)|] == Tokens(chunk, eom)
    ensures !NoByteAfterEom(tape[o..s + |Tokens(chunk, eom)|])
  {
    var ts := tape[o..s + |Tokens(chunk, eom)|];
    assert ts[|flight|] == tape[o + |flight|] == Eom;
    assert ts[s - o] == tape[s..s + |Tokens(chunk, eom)|][0] == Byte(chunk[0]);
  }

  /** A cut keeps an aligned flight buffer aligned if and only if no byte is cut while an
      end-of-message is in flight. */
  lemma {:induction false} CutAlignedIff(c: Connection, c': Connection, chunk: seq<byte>, eom: bool, tape: seq<Token>)
    requires Ledger(c, tape) && IsCut(c, c', chunk, eom) && FlightAligned(c, tape)
    ensures 0 <= OldestPos(c', tape)
    ensures FlightAligned(c', tape) <==> chunk == [] || Eom !in OnTheWire(c, tape)
    ensures FlightAligned(c', tape) <==> NoByteAfterEom(OnTheWire(c', tape))
  {
    CutKeeps(c, c', chunk, eom, tape);
    var o, s, flight := OldestPos(c, tape), CutPos(c, tape), c.flightBuffer;
    MarkInFlight(flight, tape, o, s);
    if chunk == [] || o + |flight| == s {
      AlignedGrows(flight, tape, o, s, chunk, eom);
      AlignedInOrder(c'.flightBuffer, tape, o, CutPos(c', tape));
    } else {
      ByteBehindMark(flight, tape, o, s, chunk, eom);
      if FlightAligned(c', tape) { AlignedInOrder(c'.flightBuffer, tape, o, CutPos(c', tape)); }
    }
  }

  lemma {:induction false} MarkInFlight(flight: seq<byte>, tape: seq<Token>, o: nat, s: nat)
    requires AlignedAt(flight, tape, o, s)
    ensures Eom in tape[o..s] <==> o + |flight| < s
  {
    if o + |flight| < s { assert tape[o..s][|flight|] == Eom; }
    forall i | 0 <= i < s - o && i < |flight| ensures tape[o..s][i] == Byte(flight[i]) {}
  }

  /** Reading a known stretch of the tape one token at a time. */
  lemma {:induction false} StretchOfTape(tape: seq<Token>, s: nat, t: nat, ts: seq<Token>)
    requires s <= t <= |tape| && tape[s..t] == ts
    ensures forall i :: 0 <= i < t - s ==> tape[s + i] == ts[i]
  {
  }

  /** The acknowledged distance the source computes: the true one when `a` is ahead, and
      otherwise too large to pass its range check. */
  lemma {:induction false} AckDistance(c: Connection, tape: seq<Token>, a: nat)
    requires Ledger(c, tape)
    requires CutPos(c, tape) - a < HALF32 && a - OldestPos(c, tape) < HALF32
    ensures var o := OldestPos(c, tape);
            var acked := Sub32(Low32(a), c.oldestUnackedSeq);
            if a >= o then acked == a - o else acked > InFlight(c)
  {
    LedgerOldest(c, tape);
    var o := OldestPos(c, tape);
    if a >= o { LowSub(a, o); } else { LowSubBehind(a, o); }
  }

  /** What `n` acknowledged places leave of an aligned flight buffer is aligned. */
  lemma {:induction false} AlignedDrops(flight: seq<byte>, tape: seq<Token>, o: nat, s: nat, n: nat)
    requires AlignedAt(flight, tape, o, s) && o + n <= s
    ensures AlignedAt(flight[Min(n, |flight|)..], tape, o + n, s)
  {
    var left := flight[Min(n, |flight|)..];
    forall i | 0 <= i < |left| ensures tape[o + n + i] == Byte(left[i]) {
      assert tape[o + (n + i)] == Byte(flight[n + i]);
    }
  }

  /** Taking an acknowledgement of stream position `a`, from within half a turn: the oldest
      unacknowledged position moves to `a` when `a` is ahead and was cut, and stays otherwise. */
  lemma {:induction false} TakeAckKeeps(c: Connection, p: Packet, tape: seq<Token>, a: nat)
    requires Ledger(c, tape) && p.nextRecvSeq == Low32(a)
    requires CutPos(c, tape) - a < HALF32 && a - OldestPos(c, tape) < HALF32
    ensures var c' := TakeAck(c, p);
            && Ledger(c', tape)
            && CutPos(c', tape) == CutPos(c, tape)
            && OldestPos(c', tape) == (if OldestPos(c, tape) < a <= CutPos(c, tape) then a else OldestPos(c, tape))
            && (FlightAligned(c, tape) ==> FlightAligned(c', tape))
  {
    AckDistance(c, tape, a);
    var o, s := OldestPos(c, tape), CutPos(c, tape);
    if o < a <= s {
      LowSub(s, a);
      assert InFlight(TakeAck(c, p)) == s - a;
      if FlightAligned(c, tape) { AlignedDrops(c.flightBuffer, tape, o, s, a - o); }
    }
  }

  /** Retransmission sends slices of the tape, as long as the flight buffer is aligned. */
  lemma {:induction false} ResendFromKeeps(c: Connection, window: u16, i: nat, tape: seq<Token>)
    requires Ledger(c, tape) && FlightAligned(c, tape) && i <= |c.flightBuffer|
    ensures forall p :: p in ResendFrom(c, window, i) ==>
              FromStream(p, c, window) && SentWithin(p, tape, OldestPos(c, tape), CutPos(c, tape))
    decreases |c.flightBuffer| - i
  {
    if i < |c.flightBuffer| {
      var o := OldestPos(c, tape);
      var take := Min(ADSP_MAX_DATA, |c.flightBuffer| - i);
      ResendFromKeeps(c, window, i + take, tape);
      var chunk := c.flightBuffer[i..i + take];
      var p := StreamPacket(c, window, Add32(c.oldestUnackedSeq, i), false, chunk);
      LedgerOldest(c, tape);
      LowAdd(o, i);
      assert tape[o + i..o + i + take] == Tokens(chunk, false);
      assert Slice(p, tape, o + i);
    }
  }

  /** A packet an aligned sender may emit: it acknowledges what was received, and any
      sequence space it takes up is a slice of the tape that was unacknowledged or new. */
  ghost predicate Emittable(p: Packet, c: Connection, tape: seq<Token>) {
    && (p.descriptor == DataPacket || p.descriptor == ControlPacket) && !p.attention
    && p.connId == c.ourConnId && p.nextRecvSeq == c.recvSeq
    && (SeqLen(p) > 0 ==> SentWithin(p, tape, OldestPos(c, tape), CutPos(c, tape)))
  }

  /** A sender whose flight buffer tells the truth. */
  ghost predicate GoodSender(c: Connection, tape: seq<Token>) {
    Ledger(c, tape) && FlightAligned(c, tape)
  }

  /** No byte in flight comes after a mark in flight. */
  ghost predicate InOrder(c: Connection, tape: seq<Token>) {
    0 <= OldestPos(c, tape) && NoByteAfterEom(OnTheWire(c, tape))
  }

  /** A condition on what is written that is enough: while nothing written comes after a mark that
      is not acknowledged, nothing in flight does, now or later. */
  lemma {:induction false} UnackedInOrder(c: Connection, c': Connection, tape: seq<Token>)
    requires Ledger(c, tape) && Ledger(c', tape) && OldestPos(c, tape) <= OldestPos(c', tape)
    requires NoByteAfterEom(Unacked(c, tape))
    ensures InOrder(c', tape) && NoByteAfterEom(Unacked(c', tape))
  {
    var o, n := OldestPos(c, tape), |tape|;
    assert tape[o..n] == Unacked(c, tape) && tape[OldestPos(c', tape)..n] == Unacked(c', tape);
    PartInOrder(tape, o, n, OldestPos(c', tape), n);
    PartInOrder(tape, o, n, OldestPos(c', tape), CutPos(c', tape));
  }

  lemma {:induction false} PumpEmits(c: Connection, window: u16, now: Option<Micros>, tape: seq<Token>)
    requires GoodSender(c, tape) && InOrder(Pump(c, window, now).conn, tape)
    ensures var f := Pump(c, window, now);
            && GoodSender(f.conn, tape) && SameButSending(c, f.conn)
            && OldestPos(f.conn, tape) == OldestPos(c, tape)
            && CutPos(c, tape) <= CutPos(f.conn, tape)
            && forall p :: p in f.out ==> Emittable(p, f.conn, tape)
  {
    PumpKeeps(c, window, now, tape);
    var f := Pump(c, window, now);
    forall p | p in f.out
      ensures Emittable(p, f.conn, tape)
    {
      var at: nat :| CutPos(c, tape) <= at && at + SeqLen(p) <= CutPos(f.conn, tape) && Slice(p, tape, at);
      assert OldestPos(f.conn, tape) <= at;
    }
  }

  /** What was emittable stays so while only the cut position moves on. */
  lemma {:induction false} EmittableLater(p: Packet, c: Connection, c': Connection, tape: seq<Token>)
    requires Emittable(p, c, tape) && SameButSending(c, c')
    requires OldestPos(c', tape) == OldestPos(c, tape) && CutPos(c, tape) <= CutPos(c', tape)
    ensures Emittable(p, c', tape)
  {
    if SeqLen(p) > 0 {
      var at: nat :| OldestPos(c, tape) <= at && at + SeqLen(p) <= CutPos(c, tape) && Slice(p, tape, at);
      assert OldestPos(c', tape) <= at && at + SeqLen(p) <= CutPos(c', tape) && Slice(p, tape, at);
    }
  }

  lemma {:induction false} ResendEmits(c: Connection, window: u16, now: Micros, tape: seq<Token>)
    requires GoodSender(c, tape)
    ensures var f := Resend(c, window, now);
            && GoodSender(f.conn, tape)
            && SameButSending(c, f.conn)
            && OldestPos(f.conn, tape) == OldestPos(c, tape)
            && forall p :: p in f.out ==> Emittable(p, f.conn, tape)
  {
    ResendFromKeeps(c, window, 0, tape);
    var f := Resend(c, window, now);
    forall p | p in f.out
      ensures Emittable(p, f.conn, tape)
    {
      assert SentWithin(p, tape, OldestPos(c, tape), CutPos(c, tape));
    }
  }

  /** What is in order after two pumps was in order after one. */
  lemma {:induction false} FirstPumpInOrder(c: Connection, window: u16, now: Option<Micros>, tape: seq<Token>)
    requires Ledger(c, tape) && InOrder(Pump(Pump(c, window, now).conn, window, now).conn, tape)
    ensures InOrder(Pump(c, window, now).conn, tape)
  {
    var c1 := Pump(c, window, now).conn;
    PumpKeeps(c, window, now, tape);
    PumpKeeps(c1, window, now, tape);
    var c2 := Pump(c1, window, now).conn;
    PartInOrder(tape, OldestPos(c, tape), CutPos(c2, tape), OldestPos(c, tape), CutPos(c1, tape));
  }

  /** A data or control packet acknowledging position `a`, at a good sender. */
  lemma {:induction false} HandleDataKeeps(c: Connection, p: Packet, window: u16, now: Micros, tape: seq<Token>, a: nat)
    requires GoodSender(c, tape) && p.nextRecvSeq == Low32(a) && InOrder(HandleData(c, p, window, now).conn, tape)
    requires CutPos(c, tape) - a < HALF32 && a - OldestPos(c, tape) < HALF32
    ensures var f := HandleData(c, p, window, now);
            && GoodSender(f.conn, tape)
            && SameButStream(c, f.conn)
            && f.conn.recvSeq == Receive(c, p).0.recvSeq
            && OldestPos(f.conn, tape) == (if OldestPos(c, tape) < a <= CutPos(c, tape) then a else OldestPos(c, tape))
            && CutPos(c, tape) <= CutPos(f.conn, tape)
            && forall q :: q in f.out ==> Emittable(q, f.conn, tape)
  {
    var c1 := Receive(c, p).0;
    assert GoodSender(c1, tape) && OldestPos(c1, tape) == OldestPos(c, tape);
    TakeAckKeeps(c1, p, tape, a);
    var c2 := TakeAck(c1, p);
    var f1 := Pump(c2, window, Some(now));
    FirstPumpInOrder(c2, window, Some(now), tape);
    PumpEmits(c2, window, Some(now), tape);
    PumpEmits(f1.conn, window, Some(now), tape);
    var f2 := Pump(f1.conn, window, Some(now));
    var f := HandleData(c, p, window, now);
    forall q | q in f.out
      ensures Emittable(q, f.conn, tape)
    {
      if q in f1.out {
        EmittableLater(q, f1.conn, f2.conn, tape);
      }
    }
  }

  /** Everything the stream half of a connection's code leaves alone. */
  predicate SameButStream(c: Connection, c': Connection) {
    && c'.ourConnId == c.ourConnId && c'.remote == c.remote
    && c'.attnSendSeq == c.attnSendSeq && c'.attnRecvSeq == c.attnRecvSeq
    && c'.attnInFlight == c.attnInFlight
  }

  /** Queueing a write extends the tape by its tokens. */
  lemma {:induction false} QueuedLedger(c: Connection, data: seq<byte>, eom: bool, tape: seq<Token>)
    requires Ledger(c, tape)
    requires |tape| + |Tokens(data, eom)| - OldestPos(c, tape) < HALF32
    ensures var q, tape' := Queued(c, data, eom), tape + Tokens(data, eom);
            && Ledger(q, tape')
            && OldestPos(q, tape') == OldestPos(c, tape) && CutPos(q, tape') == CutPos(c, tape)
            && Unacked(q, tape') == Unacked(c, tape) + Tokens(data, eom)
            && (FlightAligned(c, tape) ==> FlightAligned(q, tape'))
  {
    var w: PendingWrite := Write(data, 0, eom);
    PendingTokensConcat(c.pendingWrites, [w]);
    assert data[0..] == data;
    assert PendingTokens([w]) == Tokens(data, eom) + PendingTokens([]);
    var tape' := tape + Tokens(data, eom);
    assert tape'[CutPos(c, tape)..] == tape[CutPos(c, tape)..] + Tokens(data, eom);
    assert tape'[OldestPos(c, tape)..] == tape[OldestPos(c, tape)..] + Tokens(data, eom);
  }
}
