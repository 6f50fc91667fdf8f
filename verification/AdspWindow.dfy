/** The window a receive queue advertises, and a sender that stays inside what it was offered. */
module AdspWindow {
  import opened Words
  import opened AdspSpec
  import opened AdspStream
  import opened AdspNetwork

  const RX_WINDOW: nat := 4096
  const LIMIT: nat := RX_WINDOW + ADSP_MAX_DATA

  /** The window to advertise with `held` bytes waiting: less than a packet's room counts as none. */
  function WindowFor(held: nat): nat {
    var room := SaturatingSub(RX_WINDOW, held);
    if room < ADSP_MAX_DATA then 0 else room
  }

  /** One window serves every connection, so the fullest queue sets it: no connection is offered more
      than its own queue has room for, and some connection is offered exactly that. */
  method UpdateWindow(queues: seq<seq<byte>>) returns (window: u16)
    ensures forall i :: 0 <= i < |queues| ==> window <= WindowFor(|queues[i]|)
    ensures if queues == [] then window == WindowFor(0)
            else exists i :: 0 <= i < |queues| && window == WindowFor(|queues[i]|)
  {
    var held := 0;
    for i := 0 to |queues|
      invariant forall j :: 0 <= j < i ==> |queues[j]| <= held
      invariant if i == 0 then held == 0 else exists j :: 0 <= j < i && |queues[j]| == held
    {
      if i == 0 || |queues[i]| > held { held := |queues[i]|; }
    }
    var room := SaturatingSub(RX_WINDOW, held);
    window := if room < ADSP_MAX_DATA then 0 else Min(room, U16_MAX);
  }

  // ---- bytes on a tape ------------------------------------------------------------------------------

  /** The bytes among these tokens: an end-of-message takes sequence space and no memory. */
  function ByteCount(ts: seq<Token>): nat {
    if ts == [] then 0 else (if ts[0].Byte? then 1 else 0) + ByteCount(ts[1..])
  }

  /** The bytes before a position of the tape. */
  function BytesBefore(tape: seq<Token>, p: int): nat {
    if p <= 0 then 0 else if p >= |tape| then ByteCount(tape) else ByteCount(tape[..p])
  }

  lemma {:induction false} ByteCountConcat(a: seq<Token>, b: seq<Token>)
    ensures ByteCount(a + b) == ByteCount(a) + ByteCount(b)
  {
    if a == [] {
      assert a + b == b;
    } else {
      assert (a + b)[1..] == a[1..] + b;
      ByteCountConcat(a[1..], b);
    }
  }

  lemma {:induction false} ByteCountSmall(ts: seq<Token>)
    ensures ByteCount(ts) <= |ts|
  {
    if ts != [] { ByteCountSmall(ts[1..]); }
  }

  lemma {:induction false} ByteCountTokens(data: seq<byte>, eom: bool)
    ensures ByteCount(Tokens(data, eom)) == |data|
  {
    if data == [] {
      assert Tokens(data, eom) == if eom then [Eom] else [];
    } else {
      ByteCountTokens(data[1..], eom);
      assert Tokens(data, eom)[1..] == Tokens(data[1..], eom);
    }
  }

  lemma {:induction false} BytesBetween(tape: seq<Token>, p: nat, q: nat)
    requires p <= q <= |tape|
    ensures BytesBefore(tape, q) == BytesBefore(tape, p) + ByteCount(tape[p..q])
    ensures ByteCount(tape[p..q]) <= q - p
  {
    assert tape[..p] + tape[p..q] == tape[..q] && tape[..|tape|] == tape && tape[..0] == [];
    ByteCountConcat(tape[..p], tape[p..q]);
    ByteCountSmall(tape[p..q]);
  }

  /** What is before a position is there whatever is written after. */
  lemma {:induction false} BytesBeforeStays(tape: seq<Token>, tape': seq<Token>, p: int)
    requires tape <= tape' && p <= |tape|
    ensures BytesBefore(tape', p) == BytesBefore(tape, p)
  {
    if p > 0 { assert tape'[..p] == tape[..p] && tape[..|tape|] == tape && tape'[..|tape'|] == tape'; }
  }

  // ---- the sender stays inside what it was offered --------------------------------------------------

  /** The bytes cut, and those acknowledged with the window on top, both stay at or below `k`. */
  ghost predicate Within(c: Connection, tape: seq<Token>, k: int) {
    BytesBefore(tape, CutPos(c, tape)) <= k && BytesBefore(tape, OldestPos(c, tape)) + c.sendWindow <= k
  }

  /** The packet lies between what is unacknowledged and what is cut, with one packet's bytes. */
  ghost predicate Inside(p: Packet, c: Connection, tape: seq<Token>) {
    TakesSpace(p) ==>
      && |p.payload| <= ADSP_MAX_DATA
      && exists f: nat :: OldestPos(c, tape) <= f && f + SeqLen(p) <= CutPos(c, tape) && p.firstByteSeq == Low32(f)
  }

  lemma {:induction false} InsideLater(p: Packet, c: Connection, c': Connection, tape: seq<Token>)
    requires Inside(p, c, tape) && OldestPos(c', tape) == OldestPos(c, tape) && CutPos(c, tape) <= CutPos(c', tape)
    ensures Inside(p, c', tape)
  {
    if TakesSpace(p) {
      var f: nat :| OldestPos(c, tape) <= f && f + SeqLen(p) <= CutPos(c, tape) && p.firstByteSeq == Low32(f);
      assert OldestPos(c', tape) <= f && f + SeqLen(p) <= CutPos(c', tape);
    }
  }

  /** A cut of no more bytes than the window leaves room for: a mark adds none. */
  lemma {:induction false} CutWithin(c: Connection, c': Connection, chunk: seq<byte>, eom: bool, tape: seq<Token>, k: int)
    requires Ledger(c, tape) && IsCut(c, c', chunk, eom) && |chunk| <= Available(c) && Within(c, tape, k)
    ensures Ledger(c', tape) && Within(c', tape, k)
  {
    CutKeeps(c, c', chunk, eom, tape);
    var o, s, t := OldestPos(c, tape), CutPos(c, tape), CutPos(c', tape);
    BytesBetween(tape, o, s);
    BytesBetween(tape, s, t);
    ByteCountTokens(chunk, eom);
  }

  lemma {:induction false} PumpStepStays(c: Connection, window: u16, now: Option<Micros>, tape: seq<Token>, k: int)
    requires Ledger(c, tape) && Within(c, tape, k) && PumpStep(c, window, now).Some?
    ensures var f := PumpStep(c, window, now).value;
            && Ledger(f.conn, tape) && Within(f.conn, tape, k)
            && OldestPos(f.conn, tape) == OldestPos(c, tape) && CutPos(c, tape) <= CutPos(f.conn, tape)
            && forall p :: p in f.out ==> Inside(p, f.conn, tape)
  {
    var f := PumpStep(c, window, now).value;
    var chunk, eom := PumpStepIsCut(c, window, now);
    CutKeeps(c, f.conn, chunk, eom, tape);
    CutWithin(c, f.conn, chunk, eom, tape, k);
    forall p | p in f.out ensures Inside(p, f.conn, tape) {
      assert p == StreamPacket(c, window, c.sendSeq, eom, chunk);
      assert OldestPos(f.conn, tape) <= CutPos(c, tape) && CutPos(c, tape) + SeqLen(p) <= CutPos(f.conn, tape);
    }
  }

  lemma {:induction false} PumpStays(c: Connection, window: u16, now: Option<Micros>, tape: seq<Token>, k: int)
    requires Ledger(c, tape) && Within(c, tape, k)
    ensures var f := Pump(c, window, now);
            && Ledger(f.conn, tape) && Within(f.conn, tape, k)
            && OldestPos(f.conn, tape) == OldestPos(c, tape) && CutPos(c, tape) <= CutPos(f.conn, tape)
            && forall p :: p in f.out ==> Inside(p, f.conn, tape)
    decreases PendingBytes(c.pendingWrites) + |c.pendingWrites|
  {
    var step := PumpStep(c, window, now);
    if step.Some? {
      PumpStepShrinks(c, window, now);
      PumpStepStays(c, window, now, tape, k);
      var c1 := step.value.conn;
      PumpStays(c1, window, now, tape, k);
      var rest := Pump(c1, window, now);
      forall p | p in step.value.out + rest.out ensures Inside(p, rest.conn, tape) {
        if p in step.value.out { InsideLater(p, c1, rest.conn, tape); }
      }
    }
  }

  lemma {:induction false} ResendInside(c: Connection, window: u16, i: nat, tape: seq<Token>)
    requires Ledger(c, tape) && i <= |c.flightBuffer|
    ensures forall p :: p in ResendFrom(c, window, i) ==> Inside(p, c, tape)
    decreases |c.flightBuffer| - i
  {
    if i < |c.flightBuffer| {
      var take := Min(ADSP_MAX_DATA, |c.flightBuffer| - i);
      ResendInside(c, window, i + take, tape);
      LedgerOldest(c, tape);
      var o := OldestPos(c, tape);
      LowAdd(o, i);
      var p := StreamPacket(c, window, Add32(c.oldestUnackedSeq, i), false, c.flightBuffer[i..i + take]);
      assert o <= o + i && o + i + SeqLen(p) <= CutPos(c, tape) && p.firstByteSeq == Low32(o + i);
      assert Inside(p, c, tape);
    }
  }

  /** Taking an acknowledgement that nothing later has overtaken. */
  lemma {:induction false} TakeAckStays(c: Connection, p: Packet, tape: seq<Token>, a: nat, k: int)
    requires Ledger(c, tape) && BytesBefore(tape, CutPos(c, tape)) <= k
    requires p.nextRecvSeq == Low32(a) && CutPos(c, tape) - a < HALF32 && a - OldestPos(c, tape) < HALF32
    requires OldestPos(c, tape) <= a <= |tape| && BytesBefore(tape, a) + p.recvWindow <= k
    ensures var c' := TakeAck(Receive(c, p).0, p);
            Ledger(c', tape) && Within(c', tape, k)
  {
    var c1 := Receive(c, p).0;
    assert Ledger(c1, tape) && OldestPos(c1, tape) == OldestPos(c, tape) && CutPos(c1, tape) == CutPos(c, tape);
    TakeAckKeeps(c1, p, tape, a);
    BytesBetween(tape, OldestPos(c, tape), a);
  }

  lemma {:induction false} HandleDataStays(c: Connection, p: Packet, window: u16, now: Micros, tape: seq<Token>,
      a: nat, k: int)
    requires GoodSender(c, tape) && BytesBefore(tape, CutPos(c, tape)) <= k
    requires p.nextRecvSeq == Low32(a) && CutPos(c, tape) - a < HALF32 && a - OldestPos(c, tape) < HALF32
    requires OldestPos(c, tape) <= a <= |tape| && BytesBefore(tape, a) + p.recvWindow <= k
    ensures var f := HandleData(c, p, window, now);
            Within(f.conn, tape, k) && forall q :: q in f.out ==> Inside(q, f.conn, tape)
  {
    var c2 := TakeAck(Receive(c, p).0, p);
    TakeAckStays(c, p, tape, a, k);
    PumpStays(c2, window, Some(now), tape, k);
    var f1 := Pump(c2, window, Some(now));
    PumpStays(f1.conn, window, Some(now), tape, k);
    var f2 := Pump(f1.conn, window, Some(now));
    var f := HandleData(c, p, window, now);
    forall q | q in f.out ensures Inside(q, f.conn, tape) {
      if q in f1.out { InsideLater(q, f1.conn, f2.conn, tape); }
    }
  }

  // ---- the sending side's steps ---------------------------------------------------------------------

  /** What a packet brings the side that writes `tape`: an offer of bytes no higher than `k`. */
  predicate OfferOk(t: Stamped, tape: seq<Token>, k: int) {
    && (IsStream(t.p) ==> BytesBefore(tape, t.ackAt) + t.p.recvWindow <= k)
    && (!t.p.attention && t.p.descriptor in {OpenConnRequest, OpenConnAck, OpenConnReqAck} ==> t.p.recvWindow <= RX_WINDOW)
  }

  /** What a packet of `tape` brings the receiving side: one packet's bytes, all below `k`. */
  predicate LoadOk(t: Stamped, tape: seq<Token>, k: int) {
    TakesSpace(t.p) ==>
      |t.p.payload| <= ADSP_MAX_DATA && First(t) + SeqLen(t.p) <= |tape| && BytesBefore(tape, First(t) + SeqLen(t.p)) <= k
  }

  ghost predicate SideWithin(s: Side, k: int) {
    Alive(s) ==> Within(Conn(s), s.tape, k)
  }

  /** Everything sent to the peer takes no stream space or lies inside the connection's window. */
  ghost predicate AllInside(s: Side, outbox: seq<(Address, Packet)>) {
    forall m :: m in outbox ==> InsideSide(s, m.1)
  }

  ghost predicate InsideSide(s: Side, p: Packet) {
    !TakesSpace(p) || (Alive(s) && Ledger(Conn(s), s.tape) && Inside(p, Conn(s), s.tape))
  }

  lemma {:induction false} InsideLoads(s: Side, p: Packet, k: int)
    requires SideWithin(s, k) && InsideSide(s, p)
    ensures LoadOk(Stamp(s, p), s.tape, k)
  {
    if TakesSpace(p) {
      var c := Conn(s);
      var f: nat :| OldestPos(c, s.tape) <= f && f + SeqLen(p) <= CutPos(c, s.tape) && p.firstByteSeq == Low32(f);
      FirstOf(s, p, f);
      BytesBetween(s.tape, f + SeqLen(p), CutPos(c, s.tape));
    }
  }

  lemma {:induction false} FirstOf(s: Side, p: Packet, f: nat)
    requires Alive(s) && Ledger(Conn(s), s.tape)
    requires OldestPos(Conn(s), s.tape) <= f <= CutPos(Conn(s), s.tape) && p.firstByteSeq == Low32(f)
    ensures First(Stamp(s, p)) == f
  {
    LowSub(CutPos(Conn(s), s.tape), f);
  }

  lemma {:induction false} AllLoad(s: Side, outbox: seq<(Address, Packet)>, k: int)
    requires SideWithin(s, k) && AllInside(s, outbox)
    ensures forall t :: t in StampAll(s, outbox) ==> LoadOk(t, s.tape, k)
  {
    forall t | t in StampAll(s, outbox) ensures LoadOk(t, s.tape, k) {
      var m :| m in outbox && t == Stamp(s, m.1);
      InsideLoads(s, m.1, k);
    }
  }

  /** What the sending side's step has to establish. */
  ghost predicate Behaves(s: Side, act: Action, k: int) {
    SideWithin(Act(s, act), k) && AllInside(Act(s, act), EpAfter(s, act).outbox)
  }

  ghost predicate SenderReady(s: Side, peer: Side, out: set<Stamped>, inbox: set<Stamped>, act: Action, k: int) {
    && Both(s, peer, out, inbox) && Enabled(s, inbox, act)
    && SideWithin(s, k) && k >= RX_WINDOW
    && (act.Deliver? ==> OfferOk(act.t, s.tape, k))
    && (act.Deliver? && IsStream(act.t.p) && Alive(s) ==> OldestPos(Conn(s), s.tape) <= act.t.ackAt)
  }

  lemma {:induction false} WriteBehaves(s: Side, peer: Side, out: set<Stamped>, inbox: set<Stamped>, act: Action,
      k: int)
    requires SenderReady(s, peer, out, inbox, act, k) && act.Write?
    ensures Behaves(s, act, k)
  {
    if Alive(s) {
      var c, s' := Conn(s), Act(s, act);
      var q := Queued(c, act.data, act.eom);
      QueuedLedger(c, act.data, act.eom, s.tape);
      BytesBeforeStays(s.tape, s'.tape, CutPos(c, s.tape));
      BytesBeforeStays(s.tape, s'.tape, OldestPos(c, s.tape));
      PumpStays(q, s.ep.recvWindow, None, s'.tape, k);
      var f := Pump(q, s.ep.recvWindow, None);
      assert EpAfter(s, act) == Update(s.ep, s.peerId, f);
      assert Conn(s') == f.conn;
    }
  }

  lemma {:induction false} DeliverBehaves(s: Side, peer: Side, out: set<Stamped>, inbox: set<Stamped>, act: Action,
      k: int)
    requires SenderReady(s, peer, out, inbox, act, k) && act.Deliver? && IsStream(act.t.p)
    ensures Behaves(s, act, k)
  {
    var p := act.t.p;
    assert EpAfter(s, act) == HandleStream(s.ep, p, act.now);
    if Alive(s) {
      var f := HandleData(Conn(s), p, s.ep.recvWindow, act.now);
      HandleDataStays(Conn(s), p, s.ep.recvWindow, act.now, s.tape, act.t.ackAt, k);
      HandleDataKeeps(Conn(s), p, s.ep.recvWindow, act.now, s.tape, act.t.ackAt);
      assert EpAfter(s, act).connections[s.peerId] == f.conn;
    }
  }

  /** What is cut and what was offered have not changed. */
  predicate SameCut(c: Connection, c': Connection) {
    && c'.sendSeq == c.sendSeq && c'.oldestUnackedSeq == c.oldestUnackedSeq && c'.sendWindow == c.sendWindow
    && c'.flightBuffer == c.flightBuffer && c'.pendingWrites == c.pendingWrites
    && c'.writesSubmitted == c.writesSubmitted && c'.writesCompleted == c.writesCompleted
  }

  /** A step outside the byte stream: nothing it sends takes stream space, and the connection's
      stream is as before or brand new. */
  ghost predicate Aloof(s: Side, e: Endpoint) {
    && (forall m :: m in e.outbox ==> !TakesSpace(m.1))
    && (s.peerId in e.connections ==>
          var c := e.connections[s.peerId];
          if Alive(s) then SameCut(Conn(s), c)
          else c == NewConnection(s.id, c.remote, c.sendWindow, c.lastTx) && c.sendWindow <= RX_WINDOW
               && s.tape == [])
  }

  lemma {:induction false} AloofBehaves(s: Side, act: Action, k: int)
    requires Aloof(s, EpAfter(s, act)) && SideWithin(s, k) && k >= RX_WINDOW && !act.Write?
    ensures Behaves(s, act, k)
  {
  }

  lemma {:induction false} AttentionIsAloof(s: Side, p: Packet)
    requires Local(s) && p.connId == s.peerId
    ensures Aloof(s, HandleAttention(s.ep, p)) && Aloof(s, HandleAttentionAck(s.ep, p))
  {
  }

  lemma {:induction false} OpenRequestIsAloof(s: Side, p: Packet, now: Micros)
    requires Local(s) && p.connId == s.peerId && (s.known ==> Alive(s)) && p.recvWindow <= RX_WINDOW
    ensures Aloof(s, HandleOpenRequest(s.ep, s.peerAddr, p, now, s.id))
  {
  }

  lemma {:induction false} OpenAckIsAloof(s: Side, p: Packet, now: Micros)
    requires Local(s) && p.connId == s.peerId && p.recvWindow <= RX_WINDOW
    ensures Aloof(s, HandleOpenAck(s.ep, s.peerAddr, p, now))
  {
    if !Alive(s) {
      if DestConnId(p) in s.ep.pendingOpens {
        assert DestConnId(p) == s.id;
      } else {
        assert s.ep.connections == map[];
      }
    }
  }

  lemma {:induction false} AsideIsAloof(s: Side, peer: Side, out: set<Stamped>, inbox: set<Stamped>, act: Action,
      k: int)
    requires SenderReady(s, peer, out, inbox, act, k) && act.Deliver? && !IsStream(act.t.p)
    ensures Aloof(s, EpAfter(s, act))
  {
    var p := act.t.p;
    if p.attention {
      AttentionIsAloof(s, p);
    } else if p.descriptor == OpenConnRequest {
      OpenRequestIsAloof(s, p, act.now);
    } else if p.descriptor == OpenConnAck || p.descriptor == OpenConnReqAck {
      OpenAckIsAloof(s, p, act.now);
    }
  }

  /** The open and attention timers. */
  lemma {:induction false} EarlyTimersAreAloof(s: Side, now: Micros)
    requires Local(s)
    ensures Aloof(s, PollAttention(PollOpens(s.ep, now), s.peerId, now))
  {
    PollOpensEffect(s, now);
  }

  lemma {:induction false} TickBehaves(s: Side, peer: Side, out: set<Stamped>, inbox: set<Stamped>, act: Action, k: int)
    requires SenderReady(s, peer, out, inbox, act, k) && act.Tick?
    ensures Behaves(s, act, k)
  {
    PollSingle(s.ep, s.peerId, act.now);
    EarlyTimersAreAloof(s, act.now);
    var e2 := PollAttention(PollOpens(s.ep, act.now), s.peerId, act.now);
    PollOpensKeepsConnections(s, act.now);
    if Alive(s) { StreamTimerInside(s, e2, act.now, k); }
  }

  lemma {:induction false} PollOpensKeepsConnections(s: Side, now: Micros)
    requires Local(s)
    ensures PollAttention(PollOpens(s.ep, now), s.peerId, now).connections.Keys == s.ep.connections.Keys
  {
  }

  lemma {:induction false} SameCutKeeps(c: Connection, c': Connection, tape: seq<Token>, k: int)
    requires Ledger(c, tape) && Within(c, tape, k) && SameCut(c, c')
    ensures Ledger(c', tape) && Within(c', tape, k)
  {
  }

  lemma {:induction false} ResendStays(c: Connection, window: u16, now: Micros, tape: seq<Token>, k: int)
    requires Ledger(c, tape) && Within(c, tape, k)
    ensures var f := Resend(c, window, now);
            Ledger(f.conn, tape) && Within(f.conn, tape, k) && forall p :: p in f.out ==> Inside(p, f.conn, tape)
  {
    var f := Resend(c, window, now);
    ResendInside(c, window, 0, tape);
    SameCutKeeps(c, f.conn, tape, k);
    forall p | p in f.out ensures Inside(p, f.conn, tape) { InsideLater(p, c, f.conn, tape); }
  }

  /** The retransmission timer, after the others. */
  lemma {:induction false} StreamTimerInside(s: Side, e: Endpoint, now: Micros, k: int)
    requires Aloof(s, e) && Alive(s) && s.peerId in e.connections
    requires Ledger(Conn(s), s.tape) && Within(Conn(s), s.tape, k)
    ensures var e' := PollStream(e, s.peerId, now);
            && (s.peerId in e'.connections ==>
                  Ledger(e'.connections[s.peerId], s.tape) && Within(e'.connections[s.peerId], s.tape, k))
            && (forall m :: m in e'.outbox ==>
                  !TakesSpace(m.1) || (s.peerId in e'.connections && Inside(m.1, e'.connections[s.peerId], s.tape)))
  {
    var c := e.connections[s.peerId];
    var c1 := c.(retries := Min(c.retries + 1, 255));
    SameCutKeeps(Conn(s), c, s.tape, k);
    SameCutKeeps(Conn(s), c1, s.tape, k);
    ResendStays(c1, e.recvWindow, now, s.tape, k);
    TimerSends(s, e, now);
  }

  /** The timer leaves the outbox alone, or adds the retransmission to it. */
  lemma {:induction false} TimerSends(s: Side, e: Endpoint, now: Micros)
    requires s.peerId in e.connections
    ensures var e' := PollStream(e, s.peerId, now);
            var c := e.connections[s.peerId];
            var f := Resend(c.(retries := Min(c.retries + 1, 255)), e.recvWindow, now);
            || e' == e
            || (s.peerId !in e'.connections && e'.outbox == e.outbox)
            || (s.peerId in e'.connections && e'.connections[s.peerId] == f.conn
                && forall m :: m in e'.outbox ==> m in e.outbox || m.1 in f.out)
  {
  }

  lemma {:induction false} SenderBehaves(s: Side, peer: Side, out: set<Stamped>, inbox: set<Stamped>, act: Action,
      k: int)
    requires SenderReady(s, peer, out, inbox, act, k)
    ensures Behaves(s, act, k)
  {
    match act
    case Write(_, _) => WriteBehaves(s, peer, out, inbox, act, k);
    case Tick(_) => TickBehaves(s, peer, out, inbox, act, k);
    case Deliver(t, _) =>
      if IsStream(t.p) {
        DeliverBehaves(s, peer, out, inbox, act, k);
      } else {
        AsideIsAloof(s, peer, out, inbox, act, k);
        AloofBehaves(s, act, k);
      }
    case SetWindow(w) =>
      SetWindowSingle(s.ep, s.peerId, w);
      AloofBehaves(s, act, k);
    case _ => AloofBehaves(s, act, k);
  }
}
