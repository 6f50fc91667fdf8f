/** Two connected ADSP endpoints on a line that keeps order and loses nothing.

    Safety says what is never delivered wrongly; this module says what must be delivered. The sides
    and their calls are those of the lossy network. Packets wait in the order they were sent. */
module AdspLine {
  import opened Words
  import opened AdspSpec
  import opened AdspStream
  import opened AdspNetwork

  datatype Line = Line(a: Side, b: Side, toA: seq<Packet>, toB: seq<Packet>)

  /** The packets of an outbox that go to an address, in order. */
  function Toward(outbox: seq<(Address, Packet)>, to: Address): seq<Packet> {
    if outbox == [] then [] else
    (if outbox[0].0 == to then [outbox[0].1] else []) + Toward(outbox[1..], to)
  }

  /** The arrival of a packet. The code reads no stamp, so any will do. */
  function Arrival(p: Packet, now: Micros): Action {
    Deliver(Stamped(p, 0, 0, 0, 0, 0), now)
  }

  /** What a side can do: write, send an attention, set its window, or take the packet at the head
      of its line. Less than half a turn is ever unacknowledged. */
  ghost predicate CanDo(s: Side, inbox: seq<Packet>, act: Action) {
    match act
    case Write(data, eom) => Alive(s) ==> |s.tape| + |Tokens(data, eom)| - OldestPos(Conn(s), s.tape) < HALF32
    case Attend(_, _, _) => true
    case SetWindow(_) => true
    case Deliver(_, now) => inbox != [] && act == Arrival(inbox[0], now)
    case _ => false
  }

  function InboxAfter(inbox: seq<Packet>, act: Action): seq<Packet> {
    if act.Deliver? && inbox != [] then inbox[1..] else inbox
  }

  ghost function SentNow(s: Side, act: Action): seq<Packet> {
    Toward(EpAfter(s, act).outbox, s.peerAddr)
  }

  ghost predicate StepsA(l: Line, l': Line, act: Action) {
    && CanDo(l.a, l.toA, act)
    && l' == Line(Act(l.a, act), l.b, InboxAfter(l.toA, act), l.toB + SentNow(l.a, act))
  }

  ghost predicate StepsB(l: Line, l': Line, act: Action) {
    && CanDo(l.b, l.toB, act)
    && l' == Line(l.a, Act(l.b, act), l.toA + SentNow(l.b, act), InboxAfter(l.toB, act))
  }

  ghost predicate Steps(l: Line, l': Line) {
    exists act :: StepsA(l, l', act) || StepsB(l, l', act)
  }

  ghost predicate IsLineRun(ls: seq<Line>) {
    ls != [] && forall i :: 0 <= i < |ls| - 1 ==> Steps(ls[i], ls[i + 1])
  }

  // ---- the state of one side ------------------------------------------------------------------------------

  /** Connected, under the ids and to the address both ends agreed on, and with nothing left in its
      queues. */
  ghost predicate Joined(s: Side) {
    && s.ep.outbox == [] && s.ep.events == []
    && s.ep.connections.Keys == {s.peerId}
    && Conn(s).ourConnId == s.id && Conn(s).remote == s.peerAddr
  }

  /** A packet that travels between connected ends: of the stream, an attention or an answer to one, or
      the last leg of the handshake. */
  predicate Usual(p: Packet, id: u16) {
    && p.connId == id
    && (p.descriptor == DataPacket || p.descriptor == ControlPacket || (p.descriptor == OpenConnAck && !p.attention))
  }

  /** The pump has nothing it could send. */
  predicate Stuck(c: Connection) {
    c.pendingWrites == [] || (c.pendingWrites[0].offset < |c.pendingWrites[0].data| && Available(c) == 0)
  }

  // ---- a line of packets ----------------------------------------------------------------------------------

  /** The stream position of a packet's first byte, seen by a receiver at position `n`. */
  function Start(p: Packet, n: nat): int {
    n - AsI32(Sub32(Low32(n), p.firstByteSeq))
  }

  /** The packets lay out the tape from `n` to `end`, each where the one before it ends. */
  ghost predicate Lays(ps: seq<Packet>, tape: seq<Token>, n: nat, end: nat)
    decreases |ps|
  {
    if ps == [] then n == end
    else if !TakesSpace(ps[0]) then Lays(ps[1..], tape, n, end)
    else Slice(ps[0], tape, n) && Lays(ps[1..], tape, n + SeqLen(ps[0]), end)
  }

  /** Taken in order by a receiver at position `n`, these packets bring it to `end`, and none of them
      starts beyond a hole. Some may be repetitions. */
  ghost predicate Brings(ps: seq<Packet>, tape: seq<Token>, n: nat, end: nat)
    decreases |ps|
  {
    if ps == [] then n == end
    else if !TakesSpace(ps[0]) then Brings(ps[1..], tape, n, end)
    else
      var f := Start(ps[0], n);
      && 0 <= f <= n && Slice(ps[0], tape, f)
      && Brings(ps[1..], tape, NextPos(n, f, SeqLen(ps[0])), end)
  }

  /** Taken in order by a receiver at position `n`, these packets never bring it past `h`: the token
      there is in none of them, and what comes later starts beyond the hole. */
  ghost predicate Stops(ps: seq<Packet>, tape: seq<Token>, n: nat, h: nat)
    decreases |ps|
  {
    if ps == [] then n <= h
    else if !TakesSpace(ps[0]) then Stops(ps[1..], tape, n, h)
    else
      var f := Start(ps[0], n);
      if f > n then Stops(ps[1..], tape, n, h) else
      0 <= f && f + SeqLen(ps[0]) <= h && Slice(ps[0], tape, f) && Stops(ps[1..], tape, NextPos(n, f, SeqLen(ps[0])), h)
  }

  /** Something before `end` is lost. */
  ghost predicate Holed(ps: seq<Packet>, tape: seq<Token>, n: nat, end: nat) {
    exists h: nat :: h < end && Stops(ps, tape, n, h)
  }

  /** Whatever takes up sequence space asks to be acknowledged. */
  predicate DataAsks(ps: seq<Packet>) {
    forall p :: p in ps && TakesSpace(p) ==> p.ackReq
  }

  predicate Asks(ps: seq<Packet>) {
    exists p :: p in ps && IsStream(p) && p.ackReq
  }

  predicate HasStream(ps: seq<Packet>) {
    exists p :: p in ps && IsStream(p)
  }

  /** The position a packet acknowledges, seen by a sender whose oldest position is `o`. */
  function AckOf(p: Packet, o: nat): nat {
    o + Sub32(p.nextRecvSeq, Low32(o))
  }

  /** The acknowledgements on their way to a sender at `o` with window `w`, the last of which leaves it
      at `o'` with `w'`: each ahead of the one before, and none beyond `got`. */
  ghost predicate Settles(ps: seq<Packet>, o: nat, w: u16, got: nat, o': nat, w': u16)
    decreases |ps|
  {
    if ps == [] then o == o' <= got && w == w'
    else if !IsStream(ps[0]) then Settles(ps[1..], o, w, got, o', w')
    else AckOf(ps[0], o) <= got && Settles(ps[1..], AckOf(ps[0], o), ps[0].recvWindow, got, o', w')
  }

  lemma {:induction false} LaysForward(ps: seq<Packet>, tape: seq<Token>, n: nat, end: nat)
    requires Lays(ps, tape, n, end)
    ensures n <= end
    decreases |ps|
  {
    if ps != [] { LaysForward(ps[1..], tape, if TakesSpace(ps[0]) then n + SeqLen(ps[0]) else n, end); }
  }

  lemma {:induction false} LaysConcat(ps: seq<Packet>, qs: seq<Packet>, tape: seq<Token>, n: nat, m: nat, end: nat)
    requires Lays(ps, tape, n, m) && Lays(qs, tape, m, end)
    ensures Lays(ps + qs, tape, n, end)
    decreases |ps|
  {
    if ps == [] {
      assert ps + qs == qs;
    } else {
      assert (ps + qs)[1..] == ps[1..] + qs;
      LaysConcat(ps[1..], qs, tape, if TakesSpace(ps[0]) then n + SeqLen(ps[0]) else n, m, end);
    }
  }

  /** Packets that take up no sequence space lay out nothing. */
  lemma {:induction false} LaysNothing(ps: seq<Packet>, tape: seq<Token>, n: nat)
    requires forall p :: p in ps ==> !TakesSpace(p)
    ensures Lays(ps, tape, n, n)
    decreases |ps|
  {
    if ps != [] {
      assert ps[0] in ps;
      LaysNothing(ps[1..], tape, n);
    }
  }

  lemma {:induction false} BringsForward(ps: seq<Packet>, tape: seq<Token>, n: nat, end: nat)
    requires Brings(ps, tape, n, end)
    ensures n <= end
    decreases |ps|
  {
    if ps != [] {
      BringsForward(ps[1..], tape, if TakesSpace(ps[0]) then NextPos(n, Start(ps[0], n), SeqLen(ps[0])) else n, end);
    }
  }

  lemma {:induction false} BringsLonger(ps: seq<Packet>, tape: seq<Token>, tape': seq<Token>, n: nat, end: nat)
    requires Brings(ps, tape, n, end) && tape <= tape'
    ensures Brings(ps, tape', n, end)
    decreases |ps|
  {
    if ps != [] {
      if TakesSpace(ps[0]) {
        SliceOfLonger(ps[0], tape, tape', Start(ps[0], n));
        BringsLonger(ps[1..], tape, tape', NextPos(n, Start(ps[0], n), SeqLen(ps[0])), end);
      } else {
        BringsLonger(ps[1..], tape, tape', n, end);
      }
    }
  }

  lemma {:induction false} StartOf(p: Packet, n: nat, f: nat)
    requires p.firstByteSeq == Low32(f) && f <= n && n - f < HALF32
    ensures Start(p, n) == f
  {
    LowSigned(n, f);
  }

  lemma {:induction false} LaysBrings(ps: seq<Packet>, tape: seq<Token>, n: nat, end: nat)
    requires Lays(ps, tape, n, end)
    ensures Brings(ps, tape, n, end)
    decreases |ps|
  {
    if ps != [] {
      if TakesSpace(ps[0]) { StartOf(ps[0], n, n); }
      LaysBrings(ps[1..], tape, if TakesSpace(ps[0]) then n + SeqLen(ps[0]) else n, end);
    }
  }

  /** What is newly cut goes behind what already brings the receiver up to there. */
  lemma {:induction false} BringsMore(ps: seq<Packet>, qs: seq<Packet>, tape: seq<Token>, n: nat, m: nat, end: nat)
    requires Brings(ps, tape, n, m) && Lays(qs, tape, m, end)
    ensures Brings(ps + qs, tape, n, end)
    decreases |ps|
  {
    if ps == [] {
      assert ps + qs == qs;
      LaysBrings(qs, tape, m, end);
    } else {
      assert (ps + qs)[1..] == ps[1..] + qs;
      BringsMore(ps[1..], qs, tape,
                 if TakesSpace(ps[0]) then NextPos(n, Start(ps[0], n), SeqLen(ps[0])) else n, m, end);
    }
  }

  lemma {:induction false} StopsForward(ps: seq<Packet>, tape: seq<Token>, n: nat, h: nat)
    requires Stops(ps, tape, n, h)
    ensures n <= h
    decreases |ps|
  {
    if ps != [] {
      var f := Start(ps[0], n);
      StopsForward(ps[1..], tape, if TakesSpace(ps[0]) && 0 <= f <= n then NextPos(n, f, SeqLen(ps[0])) else n, h);
    }
  }

  lemma {:induction false} StopsLonger(ps: seq<Packet>, tape: seq<Token>, tape': seq<Token>, n: nat, h: nat)
    requires Stops(ps, tape, n, h) && tape <= tape'
    ensures Stops(ps, tape', n, h)
    decreases |ps|
  {
    if ps != [] {
      var f := Start(ps[0], n);
      if TakesSpace(ps[0]) && f <= n {
        SliceOfLonger(ps[0], tape, tape', f);
        StopsLonger(ps[1..], tape, tape', NextPos(n, f, SeqLen(ps[0])), h);
      } else {
        StopsLonger(ps[1..], tape, tape', n, h);
      }
    }
  }

  /** Packets that start beyond the hole. */
  lemma {:induction false} LaysBeyond(ps: seq<Packet>, tape: seq<Token>, m: nat, end: nat, n: nat, h: nat)
    requires Lays(ps, tape, m, end) && n <= h < m && end - n < HALF32
    ensures Stops(ps, tape, n, h)
    decreases |ps|
  {
    if ps != [] {
      if TakesSpace(ps[0]) {
        LaysForward(ps[1..], tape, m + SeqLen(ps[0]), end);
        LowSigned(n, m);
        LaysBeyond(ps[1..], tape, m + SeqLen(ps[0]), end, n, h);
      } else {
        LaysBeyond(ps[1..], tape, m, end, n, h);
      }
    }
  }

  /** What brings a receiver to `end` does not stop it before. */
  lemma {:induction false} BringsOrStops(ps: seq<Packet>, tape: seq<Token>, n: nat, end: nat, h: nat)
    requires Brings(ps, tape, n, end) && h < end
    ensures !Stops(ps, tape, n, h)
    decreases |ps|
  {
    if ps != [] {
      BringsOrStops(ps[1..], tape, if TakesSpace(ps[0]) then NextPos(n, Start(ps[0], n), SeqLen(ps[0])) else n, end, h);
    }
  }

  /** What is newly cut does not fill a hole behind it. */
  lemma {:induction false} StopsMore(ps: seq<Packet>, qs: seq<Packet>, tape: seq<Token>, n: nat, h: nat, m: nat,
      end: nat)
    requires Stops(ps, tape, n, h) && Lays(qs, tape, m, end) && h < m && end - n < HALF32
    ensures Stops(ps + qs, tape, n, h)
    decreases |ps|
  {
    if ps == [] {
      assert ps + qs == qs;
      LaysBeyond(qs, tape, m, end, n, h);
    } else {
      assert (ps + qs)[1..] == ps[1..] + qs;
      var f := Start(ps[0], n);
      StopsMore(ps[1..], qs, tape, if TakesSpace(ps[0]) && 0 <= f <= n then NextPos(n, f, SeqLen(ps[0])) else n,
                h, m, end);
    }
  }

  lemma {:induction false} SettlesMore(ps: seq<Packet>, qs: seq<Packet>, o: nat, w: u16, got: nat, o': nat, w': u16,
      got': nat, v: u16)
    requires Settles(ps, o, w, got, o', w') && got <= got' && got' - o' < HALF32
    requires forall q :: q in qs && IsStream(q) ==> q.nextRecvSeq == Low32(got') && q.recvWindow == v
    ensures if HasStream(qs) then Settles(ps + qs, o, w, got', got', v) else Settles(ps + qs, o, w, got', o', w')
    decreases |ps|
  {
    if ps == [] {
      assert ps + qs == qs;
      SettlesAt(qs, o, w, got', v);
    } else {
      assert (ps + qs)[1..] == ps[1..] + qs;
      if IsStream(ps[0]) {
        SettlesMore(ps[1..], qs, AckOf(ps[0], o), ps[0].recvWindow, got, o', w', got', v);
      } else {
        SettlesMore(ps[1..], qs, o, w, got, o', w', got', v);
      }
    }
  }

  /** Packets that all acknowledge the same position. */
  lemma {:induction false} SettlesAt(qs: seq<Packet>, o: nat, w: u16, got: nat, v: u16)
    requires o <= got && got - o < HALF32
    requires forall q :: q in qs && IsStream(q) ==> q.nextRecvSeq == Low32(got) && q.recvWindow == v
    ensures if HasStream(qs) then Settles(qs, o, w, got, got, v) else Settles(qs, o, w, got, o, w)
    decreases |qs|
  {
    if qs != [] {
      assert qs[0] in qs;
      if IsStream(qs[0]) {
        LowSub(got, o);
        assert AckOf(qs[0], o) == got;
        SettlesAt(qs[1..], got, v, got, v);
      } else {
        SettlesAt(qs[1..], o, w, got, v);
        assert HasStream(qs) ==> HasStream(qs[1..]);
      }
    }
  }

  lemma {:induction false} SettlesBounds(ps: seq<Packet>, o: nat, w: u16, got: nat, o': nat, w': u16)
    requires Settles(ps, o, w, got, o', w')
    ensures o <= o' <= got
    decreases |ps|
  {
    if ps == [] {
    } else if IsStream(ps[0]) {
      SettlesBounds(ps[1..], AckOf(ps[0], o), ps[0].recvWindow, got, o', w');
    } else {
      SettlesBounds(ps[1..], o, w, got, o', w');
    }
  }

  // ---- what a pump sends -----------------------------------------------------------------------------------

  /** The pump cuts off exactly what lies between where it starts and where it ends, leaves nothing it
      could send, and asks for an acknowledgement of all of it. */
  lemma {:induction false} PumpLays(c: Connection, window: u16, now: Option<Micros>, tape: seq<Token>)
    requires Ledger(c, tape)
    ensures var f := Pump(c, window, now);
            && Ledger(f.conn, tape) && CutPos(c, tape) <= CutPos(f.conn, tape)
            && Lays(f.out, tape, CutPos(c, tape), CutPos(f.conn, tape))
            && DataAsks(f.out) && Stuck(f.conn)
    decreases PendingBytes(c.pendingWrites) + |c.pendingWrites|
  {
    var step := PumpStep(c, window, now);
    if step.Some? {
      PumpStepShrinks(c, window, now);
      PumpStepLays(c, window, now, tape);
      var c1 := step.value.conn;
      PumpLays(c1, window, now, tape);
      var rest := Pump(c1, window, now);
      LaysConcat(step.value.out, rest.out, tape, CutPos(c, tape), CutPos(c1, tape), CutPos(rest.conn, tape));
    }
  }

  lemma {:induction false} PumpStepLays(c: Connection, window: u16, now: Option<Micros>, tape: seq<Token>)
    requires Ledger(c, tape) && PumpStep(c, window, now).Some?
    ensures var f := PumpStep(c, window, now).value;
            && Ledger(f.conn, tape) && CutPos(c, tape) <= CutPos(f.conn, tape)
            && Lays(f.out, tape, CutPos(c, tape), CutPos(f.conn, tape))
            && DataAsks(f.out)
  {
    var chunk, eom := PumpStepIsCut(c, window, now);
    var f := PumpStep(c, window, now).value;
    CutKeeps(c, f.conn, chunk, eom, tape);
    PumpStepKeeps(c, window, now, tape);
    if f.out != [] {
      assert f.out[0] in f.out;
      assert f.out[1..] == [];
    }
  }

  // ---- one step of one side ---------------------------------------------------------------------------------

  lemma {:induction false} TowardRemote(r: Address, ps: seq<Packet>)
    ensures Toward(ToRemote(r, ps), r) == ps
    decreases |ps|
  {
    var out := ToRemote(r, ps);
    if ps != [] {
      assert out[1..] == ToRemote(r, ps[1..]);
      TowardRemote(r, ps[1..]);
    }
  }

  /** A side that has taken a step stays connected; what it has put on the line lays out exactly what it
      has newly cut, and tells the peer how far it has received and what room it has. */
  ghost predicate Turn(s: Side, s': Side, ps: seq<Packet>) {
    && Joined(s) && Joined(s')
    && s'.id == s.id && s'.peerId == s.peerId && s'.peerAddr == s.peerAddr && s.tape <= s'.tape
    && Ledger(Conn(s'), s'.tape)
    && 0 <= CutPos(Conn(s), s.tape) <= CutPos(Conn(s'), s'.tape)
    && Lays(ps, s'.tape, CutPos(Conn(s), s.tape), CutPos(Conn(s'), s'.tape))
    && DataAsks(ps)
    && forall p :: p in ps ==>
         Usual(p, s.id)
         && (IsStream(p) ==> p.nextRecvSeq == Conn(s').recvSeq && p.recvWindow == s'.ep.recvWindow)
  }

  /** A connection put back: what its new state says of the side. */
  lemma {:induction false} EffectTurns(s: Side, s': Side, f: Effect)
    requires Joined(s) && Ledger(Conn(s), s.tape)
    requires s'.ep == s.ep.(connections := s.ep.connections[s.peerId := f.conn])
    requires s'.id == s.id && s'.peerId == s.peerId && s'.peerAddr == s.peerAddr && s.tape <= s'.tape
    requires f.conn.ourConnId == s.id && f.conn.remote == s.peerAddr
    requires Ledger(f.conn, s'.tape) && CutPos(Conn(s), s.tape) <= CutPos(f.conn, s'.tape)
    requires Lays(f.out, s'.tape, CutPos(Conn(s), s.tape), CutPos(f.conn, s'.tape)) && DataAsks(f.out)
    requires forall p :: p in f.out ==>
               Usual(p, s.id) && (IsStream(p) ==> p.nextRecvSeq == f.conn.recvSeq && p.recvWindow == s.ep.recvWindow)
    ensures Turn(s, s', f.out) && Conn(s') == f.conn
  {
    assert s'.ep.connections.Keys == s.ep.connections.Keys;
  }

  /** What a call leaves as it was. */
  ghost predicate CallKeeps(s: Side, s': Side, ps: seq<Packet>) {
    && Turn(s, s', ps)
    && s'.got == s.got && Conn(s').recvSeq == Conn(s).recvSeq
    && OldestPos(Conn(s'), s'.tape) == OldestPos(Conn(s), s.tape) && Conn(s').sendWindow == Conn(s).sendWindow
    && (Stuck(Conn(s)) ==> Stuck(Conn(s')))
    && (HasStream(ps) || (s'.ep.recvWindow > 0 ==> s.ep.recvWindow > 0))
  }

  lemma {:induction false} WriteTurns(s: Side, act: Action)
    requires Joined(s) && Ledger(Conn(s), s.tape) && act.Write? && CanDo(s, [], act)
    ensures CallKeeps(s, Act(s, act), SentNow(s, act))
  {
    var c, s' := Conn(s), Act(s, act);
    var q := Queued(c, act.data, act.eom);
    var f := Pump(q, s.ep.recvWindow, None);
    assert EpAfter(s, act) == Update(s.ep, s.peerId, f);
    UpdatedOutbox(s.ep, s.peerId, f);
    TowardRemote(s.peerAddr, f.out);
    QueuedLedger(c, act.data, act.eom, s.tape);
    PumpLays(q, s.ep.recvWindow, None, s'.tape);
    PumpFromStream(q, s.ep.recvWindow, None);
    PumpKeeps(q, s.ep.recvWindow, None, s'.tape);
    assert s.got + [] == s.got;
    EffectTurns(s, s', f);
  }

  lemma {:induction false} AttendTurns(s: Side, act: Action)
    requires Joined(s) && Ledger(Conn(s), s.tape) && act.Attend?
    ensures CallKeeps(s, Act(s, act), SentNow(s, act))
  {
    var c, s' := Conn(s), Act(s, act);
    assert s.got + [] == s.got;
    if TakesAttention(s, act) {
      var f := SendAttentionOn(c, act.code, act.data, act.now);
      assert EpAfter(s, act) == Update(s.ep, s.peerId, f);
      UpdatedOutbox(s.ep, s.peerId, f);
      TowardRemote(s.peerAddr, f.out);
      LaysNothing(f.out, s.tape, CutPos(c, s.tape));
      EffectTurns(s, s', f);
    } else {
      LaysNothing([], s.tape, CutPos(c, s.tape));
    }
  }

  lemma {:induction false} WindowTurns(s: Side, act: Action)
    requires Joined(s) && Ledger(Conn(s), s.tape) && act.SetWindow?
    ensures CallKeeps(s, Act(s, act), SentNow(s, act))
  {
    SetWindowSingle(s.ep, s.peerId, act.window);
    var c := Conn(s);
    var ps := SentNow(s, act);
    assert s.got + [] == s.got;
    if s.ep.recvWindow == 0 && act.window > 0 {
      var ack := AckPacket(c, act.window);
      TowardRemote(s.peerAddr, [ack]);
      assert EpAfter(s, act).outbox == ToRemote(s.peerAddr, [ack]);
      assert ack in ps;
    } else {
      assert ps == [];
    }
    LaysNothing(ps, s.tape, CutPos(c, s.tape));
  }

  /** An attention arrives, is counted if it is new, and is acknowledged. */
  lemma {:induction false} AttentionTurns(s: Side, p: Packet, now: Micros)
    requires Joined(s) && Ledger(Conn(s), s.tape) && p.connId == s.peerId && p.attention && !p.Control()
    requires |p.payload| >= 2
    ensures var act := Arrival(p, now);
            && CallKeeps(s, Act(s, act), SentNow(s, act)) && Act(s, act).ep.recvWindow == s.ep.recvWindow
            && SentNow(s, act) == TakeAttention(Conn(s), p).out && Conn(Act(s, act)) == TakeAttention(Conn(s), p).conn
  {
    var act, c := Arrival(p, now), Conn(s);
    var f := TakeAttention(c, p);
    assert EpAfter(s, act) == HandleAttention(s.ep, p);
    assert EpAfter(s, act).outbox == Update(s.ep, s.peerId, f).outbox;
    UpdatedOutbox(s.ep, s.peerId, f);
    TowardRemote(s.peerAddr, f.out);
    LaysNothing(f.out, s.tape, CutPos(c, s.tape));
    NoDataTokens(EpAfter(s, act).events);
    assert s.got + [] == s.got;
    EffectTurns(s, Act(s, act), f);
  }

  /** The acknowledgement of an attention arrives. */
  lemma {:induction false} AttentionAckTurns(s: Side, p: Packet, now: Micros)
    requires Joined(s) && Ledger(Conn(s), s.tape) && p.connId == s.peerId && p.attention && p.Control()
    ensures var act := Arrival(p, now);
            && CallKeeps(s, Act(s, act), SentNow(s, act)) && Act(s, act).ep.recvWindow == s.ep.recvWindow
            && SentNow(s, act) == []
            && Conn(Act(s, act)) == (if AcksAttention(Conn(s), p) then RetireAttention(Conn(s)) else Conn(s))
  {
    var act, c := Arrival(p, now), Conn(s);
    assert EpAfter(s, act) == HandleAttentionAck(s.ep, p);
    NoDataTokens(EpAfter(s, act).events);
    assert s.got + [] == s.got;
    LaysNothing([], s.tape, CutPos(c, s.tape));
    EffectTurns(s, Act(s, act), Effect(if AcksAttention(c, p) then RetireAttention(c) else c, []));
  }

  /** What the arrival of a packet outside the stream leaves as it was. */
  lemma {:induction false} AsideTurns(s: Side, p: Packet, now: Micros)
    requires Joined(s) && Ledger(Conn(s), s.tape) && Usual(p, s.peerId) && !IsStream(p)
    ensures CallKeeps(s, Act(s, Arrival(p, now)), SentNow(s, Arrival(p, now)))
    ensures Act(s, Arrival(p, now)).ep.recvWindow == s.ep.recvWindow
  {
    if p.attention && p.Control() {
      AttentionAckTurns(s, p, now);
    } else if p.attention && |p.payload| >= 2 {
      AttentionTurns(s, p, now);
    } else {
      NothingTurns(s, Arrival(p, now));
    }
  }

  /** A step in which the endpoint does nothing. */
  lemma {:induction false} NothingTurns(s: Side, act: Action)
    requires Joined(s) && Ledger(Conn(s), s.tape) && EpAfter(s, act) == s.ep && !act.Write?
    ensures CallKeeps(s, Act(s, act), SentNow(s, act)) && Act(s, act).ep == s.ep
  {
    assert s.got + [] == s.got;
    LaysNothing([], s.tape, CutPos(Conn(s), s.tape));
  }

  // ---- a stream packet arrives -------------------------------------------------------------------------------

  /** The word of an acknowledged position. */
  lemma {:induction false} AckWord(a: u32, o: nat)
    ensures Low32(o + Sub32(a, Low32(o))) == a
  {
  }

  lemma {:induction false} ReceiveKeepsBooks(c: Connection, p: Packet, tape: seq<Token>)
    requires Ledger(c, tape)
    ensures var c1 := Receive(c, p).0;
            Ledger(c1, tape) && OldestPos(c1, tape) == OldestPos(c, tape) && CutPos(c1, tape) == CutPos(c, tape)
  {
  }

  /** Receiving and taking the acknowledgement. */
  lemma {:induction false} AckTaken(c: Connection, p: Packet, tape: seq<Token>)
    requires Ledger(c, tape) && AckOf(p, OldestPos(c, tape)) <= CutPos(c, tape)
    ensures var c' := TakeAck(Receive(c, p).0, p);
            && Ledger(c', tape) && CutPos(c', tape) == CutPos(c, tape)
            && OldestPos(c', tape) == AckOf(p, OldestPos(c, tape))
  {
    ReceiveKeepsBooks(c, p, tape);
    AckWord(p.nextRecvSeq, OldestPos(c, tape));
    TakeAckKeeps(Receive(c, p).0, p, tape, AckOf(p, OldestPos(c, tape)));
  }

  /** Pumping, answering, and pumping again. */
  function Answer(c: Connection, asked: bool, window: u16, now: Micros): Effect {
    var acked := Pump(c, window, Some(now));
    var pumped := Pump(acked.conn, window, Some(now));
    Effect(pumped.conn, acked.out + (if asked then [AckPacket(acked.conn, window)] else []) + pumped.out)
  }

  lemma {:induction false} AnswerLays(c: Connection, asked: bool, window: u16, now: Micros, tape: seq<Token>)
    requires Ledger(c, tape)
    ensures var f := Answer(c, asked, window, now);
            && Ledger(f.conn, tape) && CutPos(c, tape) <= CutPos(f.conn, tape)
            && OldestPos(f.conn, tape) == OldestPos(c, tape)
            && Lays(f.out, tape, CutPos(c, tape), CutPos(f.conn, tape)) && DataAsks(f.out) && Stuck(f.conn)
            && (asked ==> HasStream(f.out))
  {
    PumpLays(c, window, Some(now), tape);
    PumpKeeps(c, window, Some(now), tape);
    var f1 := Pump(c, window, Some(now));
    PumpLays(f1.conn, window, Some(now), tape);
    PumpKeeps(f1.conn, window, Some(now), tape);
    var f2 := Pump(f1.conn, window, Some(now));
    var reply := if asked then [AckPacket(f1.conn, window)] else [];
    AnswerLine(f1.out, reply, f2.out, tape, CutPos(c, tape), CutPos(f1.conn, tape), CutPos(f2.conn, tape));
    if asked { assert reply[0] in f1.out + reply + f2.out; }
  }

  /** Two pumps' packets with an answer between them. */
  lemma {:induction false} AnswerLine(ps: seq<Packet>, reply: seq<Packet>, qs: seq<Packet>, tape: seq<Token>,
      n: nat, m: nat, end: nat)
    requires Lays(ps, tape, n, m) && Lays(qs, tape, m, end) && DataAsks(ps) && DataAsks(qs)
    requires forall p :: p in reply ==> !TakesSpace(p)
    ensures Lays(ps + reply + qs, tape, n, end) && DataAsks(ps + reply + qs)
  {
    LaysNothing(reply, tape, m);
    LaysConcat(ps, reply, tape, n, m, m);
    LaysConcat(ps + reply, qs, tape, n, m, end);
  }

  /** What handling a packet of the stream does to a sender, and puts on the line. */
  lemma {:induction false} HandleDataLays(c: Connection, p: Packet, window: u16, now: Micros, tape: seq<Token>)
    requires Ledger(c, tape) && AckOf(p, OldestPos(c, tape)) <= CutPos(c, tape)
    ensures var f := HandleData(c, p, window, now);
            && Ledger(f.conn, tape) && CutPos(c, tape) <= CutPos(f.conn, tape)
            && OldestPos(f.conn, tape) == AckOf(p, OldestPos(c, tape))
            && Lays(f.out, tape, CutPos(c, tape), CutPos(f.conn, tape)) && DataAsks(f.out) && Stuck(f.conn)
            && (p.ackReq ==> HasStream(f.out))
  {
    AckTaken(c, p, tape);
    AnswerLays(TakeAck(Receive(c, p).0, p), p.ackReq, window, now, tape);
  }

  /** The packets it sends, and what of the connection it leaves alone. */
  lemma {:induction false} HandleDataTells(c: Connection, p: Packet, window: u16, now: Micros)
    ensures var f := HandleData(c, p, window, now);
            && f.conn.ourConnId == c.ourConnId && f.conn.remote == c.remote
            && f.conn.recvSeq == Receive(c, p).0.recvSeq && f.conn.sendWindow == p.recvWindow
            && f.conn.attnInFlight == c.attnInFlight && f.conn.attnSendSeq == c.attnSendSeq
            && f.conn.attnRecvSeq == c.attnRecvSeq
            && forall q :: q in f.out ==>
                 IsStreamOf(q, c.ourConnId) && q.nextRecvSeq == f.conn.recvSeq && q.recvWindow == window
  {
    var c1 := TakeAck(Receive(c, p).0, p);
    PumpFromStream(c1, window, Some(now));
    PumpFromStream(Pump(c1, window, Some(now)).conn, window, Some(now));
  }

  /** A bare acknowledgement: how far the connection has received, and the room it has. */
  predicate Acknowledges(q: Packet, c: Connection, window: u16) {
    && q.descriptor == ControlPacket && !q.attention && !q.ackReq && SeqLen(q) == 0 && q.connId == c.ourConnId
    && q.nextRecvSeq == c.recvSeq && q.recvWindow == window
  }

  /** A packet of the stream that asks is answered, to the end it came from, with an acknowledgement of
      all that was received, this packet included. */
  lemma {:induction false} AskedIsAnswered(e: Endpoint, src: Address, p: Packet, now: Micros, drawn: u16)
    requires IsStream(p) && p.ackReq && p.connId in e.connections
    ensures var e' := HandleDatagram(e, src, p, now, drawn);
            && p.connId in e'.connections && e'.recvWindow == e.recvWindow
            && var c' := e'.connections[p.connId];
               && c'.recvSeq == Receive(e.connections[p.connId], p).0.recvSeq
               && exists i :: |e.outbox| <= i < |e'.outbox|
                    && e'.outbox[i].0 == c'.remote && Acknowledges(e'.outbox[i].1, c', e.recvWindow)
  {
    var c := e.connections[p.connId];
    var c1 := TakeAck(Receive(c, p).0, p);
    var f1 := Pump(c1, e.recvWindow, Some(now));
    PumpFromStream(c1, e.recvWindow, Some(now));
    PumpFromStream(f1.conn, e.recvWindow, Some(now));
    var e' := HandleDatagram(e, src, p, now, drawn);
    assert e' == HandleStream(e, p, now);
    var i := |e.outbox| + |f1.out|;
    assert e'.outbox[i] == (e'.connections[p.connId].remote, AckPacket(f1.conn, e.recvWindow));
  }

  lemma {:induction false} StreamTurns(s: Side, p: Packet, now: Micros)
    requires Joined(s) && Ledger(Conn(s), s.tape) && Usual(p, s.peerId) && IsStream(p)
    requires AckOf(p, OldestPos(Conn(s), s.tape)) <= CutPos(Conn(s), s.tape)
    ensures var s', ps := Act(s, Arrival(p, now)), SentNow(s, Arrival(p, now));
            && Turn(s, s', ps) && s'.tape == s.tape && s'.ep.recvWindow == s.ep.recvWindow
            && Conn(s').recvSeq == Receive(Conn(s), p).0.recvSeq && s'.got == s.got + EventTokens(Receive(Conn(s), p).1)
            && OldestPos(Conn(s'), s'.tape) == AckOf(p, OldestPos(Conn(s), s.tape))
            && Conn(s').sendWindow == p.recvWindow
            && Stuck(Conn(s')) && (p.ackReq ==> HasStream(ps))
  {
    var act, c := Arrival(p, now), Conn(s);
    var f := HandleData(c, p, s.ep.recvWindow, now);
    assert EpAfter(s, act) == HandleStream(s.ep, p, now);
    UpdatedOutbox(s.ep, s.peerId, f);
    TowardRemote(s.peerAddr, f.out);
    HandleDataLays(c, p, s.ep.recvWindow, now, s.tape);
    HandleDataTells(c, p, s.ep.recvWindow, now);
    assert EpAfter(s, act).events == Receive(c, p).1;
    EffectTurns(s, Act(s, act), f);
  }
}
