/** What must be delivered: over a line that keeps order and loses nothing everything written is handed
    over, and after any loss one retransmission is enough to set it right. */
module AdspFlow {
  import opened Words
  import opened AdspSpec
  import opened AdspStream
  import opened AdspNetwork
  import opened AdspLine
  import AdspQuiescence

  // ---- one direction ---------------------------------------------------------------------------------------

  /** The acknowledgements on their way back, and where the last of them leaves the sender. */
  ghost predicate Told(s: Side, r: Side, back: seq<Packet>, o': nat, w': u16) {
    && Alive(s) && 0 <= OldestPos(Conn(s), s.tape)
    && Settles(back, OldestPos(Conn(s), s.tape), Conn(s).sendWindow, |r.got|, o', w')
  }

  /** From `s` to `r`: what was received is a prefix of what was sent, and what is on the line carries
      on from there, up to what was sent or up to a hole. */
  ghost predicate Sane(s: Side, r: Side, out: seq<Packet>, back: seq<Packet>) {
    && Joined(s) && Joined(r) && s.peerId == r.id && r.peerId == s.id
    && Ledger(Conn(s), s.tape)
    && r.got <= s.tape && Conn(r).recvSeq == Low32(|r.got|)
    && (forall p :: p in out ==> Usual(p, s.id))
    && (Brings(out, s.tape, |r.got|, CutPos(Conn(s), s.tape)) || Holed(out, s.tape, |r.got|, CutPos(Conn(s), s.tape)))
    && exists o', w' :: Told(s, r, back, o', w')
  }

  /** Something `s` sent is lost on its way to `r`. */
  ghost predicate HoleIn(s: Side, r: Side, out: seq<Packet>) {
    Alive(s) && 0 <= CutPos(Conn(s), s.tape) && Holed(out, s.tape, |r.got|, CutPos(Conn(s), s.tape))
  }

  /** The last word on its way back is up to date. */
  ghost predicate Caught(s: Side, r: Side, back: seq<Packet>) {
    exists w' :: Told(s, r, back, |r.got|, w') && (r.ep.recvWindow > 0 ==> w' > 0)
  }

  /** Nothing is missing from `s` to `r`: what is on the line brings the receiver level with what was
      sent; its last word is on its way, or will be asked for; and the sender has sent what it could,
      or will be prompted to. */
  ghost predicate Flows(s: Side, r: Side, out: seq<Packet>, back: seq<Packet>) {
    && Sane(s, r, out, back)
    && Brings(out, s.tape, |r.got|, CutPos(Conn(s), s.tape))
    && DataAsks(out)
    && (Asks(out) || Caught(s, r, back))
    && (Asks(out) || HasStream(back) || Stuck(Conn(s)))
  }

  lemma {:induction false} SaneBounds(s: Side, r: Side, out: seq<Packet>, back: seq<Packet>)
    requires Sane(s, r, out, back)
    ensures 0 <= OldestPos(Conn(s), s.tape) <= |r.got| <= CutPos(Conn(s), s.tape) <= |s.tape|
    ensures |s.tape| - |r.got| < HALF32
  {
    var o', w' :| Told(s, r, back, o', w');
    SettlesBounds(back, OldestPos(Conn(s), s.tape), Conn(s).sendWindow, |r.got|, o', w');
    if Brings(out, s.tape, |r.got|, CutPos(Conn(s), s.tape)) {
      BringsForward(out, s.tape, |r.got|, CutPos(Conn(s), s.tape));
    } else {
      var h: nat :| h < CutPos(Conn(s), s.tape) && Stops(out, s.tape, |r.got|, h);
      StopsForward(out, s.tape, |r.got|, h);
    }
  }

  /** What a turn of the sender adds to its line. */
  lemma {:induction false} OutGrows(s: Side, s': Side, out: seq<Packet>, ps: seq<Packet>, n: nat)
    requires Turn(s, s', ps) && |s'.tape| - n < HALF32
    ensures Brings(out, s.tape, n, CutPos(Conn(s), s.tape)) ==>
              Brings(out + ps, s'.tape, n, CutPos(Conn(s'), s'.tape))
    ensures Holed(out, s.tape, n, CutPos(Conn(s), s.tape)) ==>
              Holed(out + ps, s'.tape, n, CutPos(Conn(s'), s'.tape))
  {
    var m, m' := CutPos(Conn(s), s.tape), CutPos(Conn(s'), s'.tape);
    if Brings(out, s.tape, n, m) {
      BringsLonger(out, s.tape, s'.tape, n, m);
      BringsMore(out, ps, s'.tape, n, m, m');
    }
    if Holed(out, s.tape, n, m) {
      var h: nat :| h < m && Stops(out, s.tape, n, h);
      StopsLonger(out, s.tape, s'.tape, n, h);
      StopsMore(out, ps, s'.tape, n, h, m, m');
    }
  }

  lemma {:induction false} AsksMore(ps: seq<Packet>, qs: seq<Packet>)
    ensures Asks(ps) ==> Asks(ps + qs)
    ensures HasStream(ps + qs) <==> HasStream(ps) || HasStream(qs)
    ensures DataAsks(ps) && DataAsks(qs) ==> DataAsks(ps + qs)
  {
    if Asks(ps) {
      var p :| p in ps && IsStream(p) && p.ackReq;
      assert p in ps + qs;
    }
    if HasStream(ps) {
      var p :| p in ps && IsStream(p);
      assert p in ps + qs;
    }
    if HasStream(qs) {
      var p :| p in qs && IsStream(p);
      assert p in ps + qs;
    }
  }

  /** A call on the sending side. */
  lemma {:induction false} SenderCalls(s: Side, s': Side, r: Side, out: seq<Packet>, back: seq<Packet>, ps: seq<Packet>)
    requires Sane(s, r, out, back) && CallKeeps(s, s', ps)
    ensures Sane(s', r, out + ps, back)
    ensures Flows(s, r, out, back) ==> Flows(s', r, out + ps, back)
    ensures HoleIn(s, r, out) ==> HoleIn(s', r, out + ps)
  {
    SaneBounds(s, r, out, back);
    OutGrows(s, s', out, ps, |r.got|);
    var o', w' :| Told(s, r, back, o', w');
    assert Told(s', r, back, o', w');
    AsksMore(out, ps);
    if Caught(s, r, back) {
      var v :| Told(s, r, back, |r.got|, v) && (r.ep.recvWindow > 0 ==> v > 0);
      assert Told(s', r, back, |r.got|, v);
    }
  }

  /** A packet outside the stream reaches the sending side. */
  lemma {:induction false} SenderHears(s: Side, s': Side, r: Side, out: seq<Packet>, back: seq<Packet>, ps: seq<Packet>)
    requires Sane(s, r, out, back) && CallKeeps(s, s', ps) && back != [] && !IsStream(back[0])
    ensures Sane(s', r, out + ps, back[1..])
    ensures Flows(s, r, out, back) ==> Flows(s', r, out + ps, back[1..])
    ensures HoleIn(s, r, out) ==> HoleIn(s', r, out + ps)
  {
    SaneBounds(s, r, out, back);
    OutGrows(s, s', out, ps, |r.got|);
    var o', w' :| Told(s, r, back, o', w');
    assert Told(s', r, back[1..], o', w');
    AsksMore(out, ps);
    AsksMore([back[0]], back[1..]);
    assert [back[0]] + back[1..] == back;
    if Caught(s, r, back) {
      var v :| Told(s, r, back, |r.got|, v) && (r.ep.recvWindow > 0 ==> v > 0);
      assert Told(s', r, back[1..], |r.got|, v);
    }
  }

  /** A packet of the stream reaches the sending side, with the peer's acknowledgement and window. */
  lemma {:induction false} SenderTakes(s: Side, r: Side, out: seq<Packet>, back: seq<Packet>, now: Micros)
    requires Sane(s, r, out, back) && back != [] && IsStream(back[0]) && Usual(back[0], s.peerId)
    ensures var s', ps := Act(s, Arrival(back[0], now)), SentNow(s, Arrival(back[0], now));
            && Turn(s, s', ps)
            && Sane(s', r, out + ps, back[1..])
            && (Flows(s, r, out, back) ==> Flows(s', r, out + ps, back[1..]))
            && (HoleIn(s, r, out) ==> HoleIn(s', r, out + ps))
  {
    var p := back[0];
    SaneBounds(s, r, out, back);
    StreamTurns(s, p, now);
    var s', ps := Act(s, Arrival(p, now)), SentNow(s, Arrival(p, now));
    OutGrows(s, s', out, ps, |r.got|);
    var o', w' :| Told(s, r, back, o', w');
    assert Told(s', r, back[1..], o', w');
    AsksMore(out, ps);
    if Caught(s, r, back) {
      var v :| Told(s, r, back, |r.got|, v) && (r.ep.recvWindow > 0 ==> v > 0);
      assert Told(s', r, back[1..], |r.got|, v);
    }
  }

  /** What a turn of the receiving side adds to the acknowledgements. */
  lemma {:induction false} BackGrows(s: Side, r: Side, r': Side, back: seq<Packet>, ps: seq<Packet>)
    requires Turn(r, r', ps) && Conn(r').recvSeq == Low32(|r'.got|) && |r.got| <= |r'.got|
    requires Alive(s) && 0 <= OldestPos(Conn(s), s.tape) && |r'.got| - OldestPos(Conn(s), s.tape) < HALF32
    requires exists o', w' :: Told(s, r, back, o', w')
    ensures exists o', w' :: Told(s, r', back + ps, o', w')
    ensures HasStream(ps) ==> Caught(s, r', back + ps)
    ensures !HasStream(ps) && r'.got == r.got && (r'.ep.recvWindow > 0 ==> r.ep.recvWindow > 0) ==>
              Caught(s, r, back) ==> Caught(s, r', back + ps)
  {
    var o', w' :| Told(s, r, back, o', w');
    SettlesMoreTold(s, r, r', back, ps, o', w');
    if Caught(s, r, back) {
      var v :| Told(s, r, back, |r.got|, v) && (r.ep.recvWindow > 0 ==> v > 0);
      SettlesMoreTold(s, r, r', back, ps, |r.got|, v);
    }
  }

  lemma {:induction false} SettlesMoreTold(s: Side, r: Side, r': Side, back: seq<Packet>, ps: seq<Packet>, o': nat,
      w': u16)
    requires Turn(r, r', ps) && Conn(r').recvSeq == Low32(|r'.got|) && |r.got| <= |r'.got|
    requires Alive(s) && 0 <= OldestPos(Conn(s), s.tape) && |r'.got| - OldestPos(Conn(s), s.tape) < HALF32
    requires Told(s, r, back, o', w')
    ensures if HasStream(ps) then Told(s, r', back + ps, |r'.got|, r'.ep.recvWindow) else Told(s, r', back + ps, o', w')
  {
    SettlesBounds(back, OldestPos(Conn(s), s.tape), Conn(s).sendWindow, |r.got|, o', w');
    SettlesMore(back, ps, OldestPos(Conn(s), s.tape), Conn(s).sendWindow, |r.got|, o', w', |r'.got|, r'.ep.recvWindow);
  }

  /** A call on the receiving side. */
  lemma {:induction false} ReceiverCalls(s: Side, r: Side, r': Side, out: seq<Packet>, back: seq<Packet>,
      ps: seq<Packet>)
    requires Sane(s, r, out, back) && CallKeeps(r, r', ps)
    ensures Sane(s, r', out, back + ps)
    ensures Flows(s, r, out, back) ==> Flows(s, r', out, back + ps)
    ensures HoleIn(s, r, out) ==> HoleIn(s, r', out)
  {
    SaneBounds(s, r, out, back);
    BackGrows(s, r, r', back, ps);
    AsksMore(back, ps);
  }

  /** If the head of the line asks, it is answered; if not, it brought nothing, and what was so of the
      rest is so still. */
  lemma {:induction false} HeadFlows(s: Side, r: Side, r': Side, out: seq<Packet>, back: seq<Packet>, ps: seq<Packet>)
    requires Flows(s, r, out, back) && out != []
    requires Sane(s, r', out[1..], back + ps) && Brings(out[1..], s.tape, |r'.got|, CutPos(Conn(s), s.tape))
    requires HasStream(ps) ==> Caught(s, r', back + ps)
    requires HasStream(ps) ==> HasStream(back + ps)
    requires !HasStream(ps) && r'.got == r.got && Caught(s, r, back) ==> Caught(s, r', back + ps)
    requires HasStream(back) ==> HasStream(back + ps)
    requires IsStream(out[0]) && out[0].ackReq ==> HasStream(ps)
    requires !TakesSpace(out[0]) ==> r'.got == r.got
    ensures Flows(s, r', out[1..], back + ps)
  {
    assert forall p :: p in out ==> p == out[0] || p in out[1..];
    assert out[0] in out;
    if !(IsStream(out[0]) && out[0].ackReq) {
      assert Asks(out) ==> Asks(out[1..]);
      if !HasStream(ps) { assert r'.got == r.got; }
    }
  }

  /** A packet outside the stream reaches the receiving side. */
  lemma {:induction false} ReceiverHears(s: Side, r: Side, r': Side, out: seq<Packet>, back: seq<Packet>,
      ps: seq<Packet>)
    requires Sane(s, r, out, back) && CallKeeps(r, r', ps) && out != [] && !IsStream(out[0])
    ensures Sane(s, r', out[1..], back + ps)
    ensures Flows(s, r, out, back) ==> Flows(s, r', out[1..], back + ps)
    ensures HoleIn(s, r, out) ==> HoleIn(s, r', out[1..])
  {
    SaneBounds(s, r, out, back);
    BackGrows(s, r, r', back, ps);
    AsksMore(back, ps);
    HeadAside(out, s.tape, |r.got|, CutPos(Conn(s), s.tape));
    if Flows(s, r, out, back) { HeadFlows(s, r, r', out, back, ps); }
  }

  /** A packet that takes up no space leaves the line as it is. */
  lemma {:induction false} HeadAside(out: seq<Packet>, tape: seq<Token>, n: nat, end: nat)
    requires out != [] && !TakesSpace(out[0])
    ensures Brings(out, tape, n, end) ==> Brings(out[1..], tape, n, end)
    ensures Holed(out, tape, n, end) ==> Holed(out[1..], tape, n, end)
  {
    if Holed(out, tape, n, end) {
      var h: nat :| h < end && Stops(out, tape, n, h);
      assert Stops(out[1..], tape, n, h);
    }
  }

  /** What the packet of the stream at the head of the line hands over. */
  lemma {:induction false} HeadArrives(c: Connection, out: seq<Packet>, tape: seq<Token>, n: nat, end: nat)
    returns (n': nat)
    requires out != [] && IsStream(out[0]) && n <= end <= |tape| && end - n < HALF32 && c.recvSeq == Low32(n)
    requires Brings(out, tape, n, end) || Holed(out, tape, n, end)
    ensures n <= n' <= end && Receive(c, out[0]).0.recvSeq == Low32(n')
    ensures EventTokens(Receive(c, out[0]).1) == tape[n..n']
    ensures Brings(out, tape, n, end) ==> Brings(out[1..], tape, n', end)
    ensures Holed(out, tape, n, end) ==> Holed(out[1..], tape, n', end)
    ensures !TakesSpace(out[0]) ==> n' == n
  {
    var p := out[0];
    if Brings(out, tape, n, end) {
      n' := if TakesSpace(p) then NextPos(n, Start(p, n), SeqLen(p)) else n;
      if TakesSpace(p) { ReceiveSlice(c, p, tape, Start(p, n), n); }
      BringsForward(out[1..], tape, n', end);
      forall h: nat | h < end ensures !Stops(out, tape, n, h) { BringsOrStops(out, tape, n, end, h); }
    } else {
      var h: nat :| h < end && Stops(out, tape, n, h);
      n' := if TakesSpace(p) && Start(p, n) <= n then NextPos(n, Start(p, n), SeqLen(p)) else n;
      if TakesSpace(p) && Start(p, n) <= n { ReceiveSlice(c, p, tape, Start(p, n), n); }
      StopsForward(out[1..], tape, n', h);
    }
  }

  /** A packet of the stream reaches the receiving side. */
  lemma {:induction false} ReceiverTakes(s: Side, r: Side, r': Side, out: seq<Packet>, back: seq<Packet>,
      ps: seq<Packet>)
    requires Sane(s, r, out, back) && Turn(r, r', ps) && out != [] && IsStream(out[0])
    requires Conn(r').recvSeq == Receive(Conn(r), out[0]).0.recvSeq
    requires r'.got == r.got + EventTokens(Receive(Conn(r), out[0]).1) && r'.ep.recvWindow == r.ep.recvWindow
    requires out[0].ackReq ==> HasStream(ps)
    ensures Sane(s, r', out[1..], back + ps)
    ensures Flows(s, r, out, back) ==> Flows(s, r', out[1..], back + ps)
    ensures HoleIn(s, r, out) ==> HoleIn(s, r', out[1..])
  {
    SaneBounds(s, r, out, back);
    var n, end := |r.got|, CutPos(Conn(s), s.tape);
    var n' := HeadArrives(Conn(r), out, s.tape, n, end);
    assert r'.got == s.tape[..n'] && |r'.got| == n';
    if HoleIn(s, r, out) { assert Holed(out[1..], s.tape, n', end); }
    BackGrows(s, r, r', back, ps);
    AsksMore(back, ps);
    if Flows(s, r, out, back) { HeadFlows(s, r, r', out, back, ps); }
  }

  // ---- whole runs --------------------------------------------------------------------------------------------

  ghost predicate BothSane(s: Side, peer: Side, out: seq<Packet>, inbox: seq<Packet>) {
    Sane(s, peer, out, inbox) && Sane(peer, s, inbox, out)
  }

  /** A side's step keeps both directions sane, each direction flowing that was, and any hole. */
  ghost predicate StepKeepsLine(s: Side, peer: Side, out: seq<Packet>, inbox: seq<Packet>, act: Action) {
    var s', out', inbox' := Act(s, act), out + SentNow(s, act), InboxAfter(inbox, act);
    && BothSane(s', peer, out', inbox')
    && (Flows(s, peer, out, inbox) ==> Flows(s', peer, out', inbox'))
    && (Flows(peer, s, inbox, out) ==> Flows(peer, s', inbox', out'))
    && (HoleIn(s, peer, out) ==> HoleIn(s', peer, out')) && (HoleIn(peer, s, inbox) ==> HoleIn(peer, s', inbox'))
  }

  lemma {:induction false} CallKeepsLine(s: Side, peer: Side, out: seq<Packet>, inbox: seq<Packet>, act: Action)
    requires BothSane(s, peer, out, inbox) && CanDo(s, inbox, act) && !act.Deliver?
    ensures StepKeepsLine(s, peer, out, inbox, act)
  {
    match act {
      case Write(_, _) => WriteTurns(s, act);
      case Attend(_, _, _) => AttendTurns(s, act);
      case SetWindow(_) => WindowTurns(s, act);
    }
    SenderCalls(s, Act(s, act), peer, out, inbox, SentNow(s, act));
    ReceiverCalls(peer, s, Act(s, act), inbox, out, SentNow(s, act));
  }

  lemma {:induction false} ArrivalKeepsLine(s: Side, peer: Side, out: seq<Packet>, inbox: seq<Packet>, now: Micros)
    requires BothSane(s, peer, out, inbox) && inbox != []
    ensures StepKeepsLine(s, peer, out, inbox, Arrival(inbox[0], now))
  {
    var p, act := inbox[0], Arrival(inbox[0], now);
    assert p in inbox;
    if IsStream(p) {
      SaneBounds(s, peer, out, inbox);
      StreamTurns(s, p, now);
      SenderTakes(s, peer, out, inbox, now);
      ReceiverTakes(peer, s, Act(s, act), inbox, out, SentNow(s, act));
    } else {
      AsideTurns(s, p, now);
      SenderHears(s, Act(s, act), peer, out, inbox, SentNow(s, act));
      ReceiverHears(peer, s, Act(s, act), inbox, out, SentNow(s, act));
    }
  }

  lemma {:induction false} ActKeepsLine(s: Side, peer: Side, out: seq<Packet>, inbox: seq<Packet>, act: Action)
    requires BothSane(s, peer, out, inbox) && CanDo(s, inbox, act)
    ensures StepKeepsLine(s, peer, out, inbox, act)
  {
    if act.Deliver? {
      ArrivalKeepsLine(s, peer, out, inbox, act.now);
    } else {
      CallKeepsLine(s, peer, out, inbox, act);
    }
  }

  ghost predicate LineSane(l: Line) {
    BothSane(l.a, l.b, l.toB, l.toA)
  }

  ghost predicate FlowsToB(l: Line) {
    Flows(l.a, l.b, l.toB, l.toA)
  }

  ghost predicate FlowsToA(l: Line) {
    Flows(l.b, l.a, l.toA, l.toB)
  }

  lemma {:induction false} RunKeepsLine(ls: seq<Line>, n: nat)
    requires IsLineRun(ls) && n < |ls| && LineSane(ls[0])
    ensures LineSane(ls[n])
    ensures FlowsToB(ls[0]) ==> FlowsToB(ls[n])
    ensures FlowsToA(ls[0]) ==> FlowsToA(ls[n])
    ensures HoleIn(ls[0].a, ls[0].b, ls[0].toB) ==> HoleIn(ls[n].a, ls[n].b, ls[n].toB)
  {
    if n > 0 {
      RunKeepsLine(ls, n - 1);
      var l, l' := ls[n - 1], ls[n];
      var act :| StepsA(l, l', act) || StepsB(l, l', act);
      if StepsA(l, l', act) {
        ActKeepsLine(l.a, l.b, l.toB, l.toA, act);
      } else {
        ActKeepsLine(l.b, l.a, l.toA, l.toB, act);
      }
    }
  }

  /** Everything `s` sent has been handed over at `r` and acknowledged, and what it could not send is
      still queued; with the window of `r` open there is nothing of that, and everything `s` wrote has
      been handed over. */
  ghost predicate Delivered(s: Side, r: Side) {
    && Alive(s)
    && r.got + PendingTokens(Conn(s).pendingWrites) == s.tape
    && Conn(s).flightBuffer == [] && Conn(s).oldestUnackedSeq == Conn(s).sendSeq
    && (r.ep.recvWindow > 0 ==> r.got == s.tape && TxBacklog(s.ep, s.peerId) == 0 && Conn(s).pendingWrites == [])
  }

  lemma {:induction false} QuietMeansDelivered(s: Side, r: Side)
    requires Flows(s, r, [], [])
    ensures Delivered(s, r)
  {
    var w' :| Told(s, r, [], |r.got|, w') && (r.ep.recvWindow > 0 ==> w' > 0);
    var c := Conn(s);
    assert InFlight(c) == 0;
    assert Stuck(c);
    assert r.got == s.tape[..CutPos(c, s.tape)];
    if r.ep.recvWindow > 0 {
      assert c.pendingWrites == [];
      assert r.got == s.tape[..|s.tape|];
    }
  }

  /** Nothing is on its way. */
  predicate Quiet(l: Line) {
    l.toA == [] && l.toB == []
  }

  /** Two ends just connected, with nothing written yet and each knowing the other's window. */
  ghost predicate Fresh(l: Line) {
    && Quiet(l) && FreshEnd(l.a, l.b) && FreshEnd(l.b, l.a)
  }

  ghost predicate FreshEnd(s: Side, peer: Side) {
    && Joined(s) && s.peerId == peer.id && s.tape == [] && s.got == []
    && var c := Conn(s);
       c == NewConnection(s.id, s.peerAddr, peer.ep.recvWindow, c.lastTx)
  }

  lemma {:induction false} FreshFlows(s: Side, r: Side)
    requires FreshEnd(s, r) && FreshEnd(r, s)
    ensures Flows(s, r, [], [])
  {
    assert Told(s, r, [], |r.got|, Conn(s).sendWindow);
  }

  // ---- the line goes quiet -----------------------------------------------------------------------------------

  ghost predicate Delivers(l: Line, l': Line) {
    exists act: Action :: act.Deliver? && (StepsA(l, l', act) || StepsB(l, l', act))
  }

  /** A run in which packets arrive and nothing else happens. */
  ghost predicate IsDrain(ls: seq<Line>) {
    ls != [] && forall i :: 0 <= i < |ls| - 1 ==> Delivers(ls[i], ls[i + 1])
  }

  ghost function LineWeight(l: Line): nat {
    AdspQuiescence.QueuesWeight(l.a.ep.connections) + AdspQuiescence.QueuesWeight(l.b.ep.connections)
    + AdspQuiescence.Weight(l.toA) + AdspQuiescence.Weight(l.toB)
  }

  lemma {:induction false} TowardWeighs(outbox: seq<(Address, Packet)>, to: Address)
    ensures AdspQuiescence.Weight(Toward(outbox, to)) <= AdspQuiescence.Weight(AdspQuiescence.Packets(outbox))
    decreases |outbox|
  {
    if outbox != [] {
      TowardWeighs(outbox[1..], to);
      var ps := AdspQuiescence.Packets(outbox);
      assert ps[1..] == AdspQuiescence.Packets(outbox[1..]);
      AdspQuiescence.WeightConcat(if outbox[0].0 == to then [outbox[0].1] else [], Toward(outbox[1..], to));
      AdspQuiescence.OnePacket(outbox[0].1);
    }
  }

  lemma {:induction false} DatagramCosts(e: Endpoint, src: Address, p: Packet, now: Micros, drawn: u16)
    requires AdspQuiescence.Drained(e) && p.connId in e.connections && p.descriptor != RetransmitAdvice
    ensures var e' := HandleDatagram(e, src, p, now, drawn);
            AdspQuiescence.QueuesWeight(e'.connections) + AdspQuiescence.Weight(AdspQuiescence.Packets(e'.outbox))
              < AdspQuiescence.QueuesWeight(e.connections) + AdspQuiescence.PacketWeight(p)
  {
    AdspQuiescence.DeliveryCosts(e, src, p, now, drawn);
    assert AdspQuiescence.Packets(e.outbox) == [];
  }

  /** An arrival costs the line at least one. */
  lemma {:induction false} ArrivalCosts(e: Endpoint, src: Address, inbox: seq<Packet>, now: Micros, drawn: u16)
    requires AdspQuiescence.Drained(e) && inbox != []
    requires inbox[0].connId in e.connections && inbox[0].descriptor != RetransmitAdvice
    ensures var e' := HandleDatagram(e, src, inbox[0], now, drawn);
            AdspQuiescence.QueuesWeight(e'.connections) + AdspQuiescence.Weight(Toward(e'.outbox, src))
            + AdspQuiescence.Weight(inbox[1..])
              < AdspQuiescence.QueuesWeight(e.connections) + AdspQuiescence.Weight(inbox)
  {
    DatagramCosts(e, src, inbox[0], now, drawn);
    TowardWeighs(HandleDatagram(e, src, inbox[0], now, drawn).outbox, src);
  }

  lemma {:induction false} DeliveryShrinks(l: Line, l': Line)
    requires LineSane(l) && Delivers(l, l')
    ensures LineWeight(l') < LineWeight(l)
  {
    var act: Action :| act.Deliver? && (StepsA(l, l', act) || StepsB(l, l', act));
    if StepsA(l, l', act) {
      assert l.toA[0] in l.toA;
      ArrivalCosts(l.a.ep, l.a.peerAddr, l.toA, act.now, l.a.id);
      AdspQuiescence.WeightConcat(l.toB, SentNow(l.a, act));
    } else {
      assert l.toB[0] in l.toB;
      ArrivalCosts(l.b.ep, l.b.peerAddr, l.toB, act.now, l.b.id);
      AdspQuiescence.WeightConcat(l.toA, SentNow(l.b, act));
    }
  }

  lemma {:induction false} DrainIsRun(ls: seq<Line>)
    requires IsDrain(ls)
    ensures IsLineRun(ls)
  {
    forall i | 0 <= i < |ls| - 1 ensures Steps(ls[i], ls[i + 1]) {
      assert Delivers(ls[i], ls[i + 1]);
    }
  }

  lemma {:induction false} DrainsFall(ls: seq<Line>, n: nat)
    requires IsDrain(ls) && LineSane(ls[0]) && n < |ls|
    ensures n + LineWeight(ls[n]) <= LineWeight(ls[0])
  {
    if n > 0 {
      DrainsFall(ls, n - 1);
      DrainIsRun(ls);
      RunKeepsLine(ls, n - 1);
      DeliveryShrinks(ls[n - 1], ls[n]);
    }
  }

  /** The line goes quiet by itself, after no more arrivals than its weight. */
  lemma {:induction false} DrainsEnd(ls: seq<Line>)
    requires IsDrain(ls) && LineSane(ls[0])
    ensures |ls| - 1 + LineWeight(ls[|ls| - 1]) <= LineWeight(ls[0])
  {
    DrainsFall(ls, |ls| - 1);
  }

  /** As long as it is not quiet something can arrive. */
  lemma {:induction false} NotQuietDelivers(l: Line) returns (l': Line)
    requires !Quiet(l)
    ensures Delivers(l, l')
  {
    if l.toA != [] {
      var act := Arrival(l.toA[0], 0);
      l' := Line(Act(l.a, act), l.b, InboxAfter(l.toA, act), l.toB + SentNow(l.a, act));
      assert StepsA(l, l', act);
    } else {
      var act := Arrival(l.toB[0], 0);
      l' := Line(l.a, Act(l.b, act), l.toA + SentNow(l.b, act), InboxAfter(l.toB, act));
      assert StepsB(l, l', act);
    }
  }

  lemma {:induction false} DeliveryKeepsSane(l: Line, l': Line)
    requires LineSane(l) && Delivers(l, l')
    ensures LineSane(l')
  {
    var ls := [l, l'];
    assert IsDrain(ls) by { assert Delivers(ls[0], ls[1]); }
    DrainIsRun(ls);
    RunKeepsLine(ls, 1);
  }

  lemma {:induction false} DrainPrepends(l: Line, rest: seq<Line>)
    requires IsDrain(rest) && Delivers(l, rest[0])
    ensures IsDrain([l] + rest)
  {
    var ls := [l] + rest;
    forall i | 0 <= i < |ls| - 1 ensures Delivers(ls[i], ls[i + 1]) {
      if i > 0 { assert ls[i] == rest[i - 1] && ls[i + 1] == rest[i]; }
    }
  }

  /** Left to itself any line drains until it is quiet. */
  lemma {:induction false} LineSettles(l: Line) returns (ls: seq<Line>)
    requires LineSane(l)
    ensures IsDrain(ls) && ls[0] == l && Quiet(ls[|ls| - 1])
    decreases LineWeight(l)
  {
    if Quiet(l) {
      ls := [l];
    } else {
      var l' := NotQuietDelivers(l);
      DeliveryShrinks(l, l');
      DeliveryKeepsSane(l, l');
      var rest := LineSettles(l');
      DrainPrepends(l, rest);
      ls := [l] + rest;
    }
  }

  /** What must be delivered. Two connected endpoints write, send attentions and change their windows
      as they like; the line keeps order and loses nothing. Whenever nothing is on its way, each end has
      been handed everything the other sent, and, with its window open, everything the other ever wrote,
      marks included; nothing is left to send or to resend. */
  lemma {:induction false} QuietLineHasDelivered(ls: seq<Line>, n: nat)
    requires IsLineRun(ls) && n < |ls| && Fresh(ls[0]) && Quiet(ls[n])
    ensures Delivered(ls[n].a, ls[n].b) && Delivered(ls[n].b, ls[n].a)
  {
    FreshFlows(ls[0].a, ls[0].b);
    FreshFlows(ls[0].b, ls[0].a);
    RunKeepsLine(ls, n);
    QuietMeansDelivered(ls[n].a, ls[n].b);
    QuietMeansDelivered(ls[n].b, ls[n].a);
  }

  // ---- after a loss --------------------------------------------------------------------------------------------

  lemma {:induction false} TowardConcat(a: seq<(Address, Packet)>, b: seq<(Address, Packet)>, to: Address)
    ensures Toward(a + b, to) == Toward(a, to) + Toward(b, to)
    decreases |a|
  {
    if a == [] {
      assert a + b == b;
    } else {
      assert (a + b)[1..] == a[1..] + b;
      TowardConcat(a[1..], b, to);
    }
  }

  /** The retransmission timer of a side is due, and neither it nor the attention timer gives up. */
  ghost predicate GoesBack(s: Side, now: Micros) {
    Alive(s) && DataDue(Conn(s), now) && HoldsOn(Conn(s), now)
  }

  lemma {:induction false} AttentionTimer(e: Endpoint, key: u16, now: Micros)
    requires key in e.connections && HoldsOn(e.connections[key], now)
    ensures var c, e' := e.connections[key], PollAttention(e, key, now);
            && e'.connections.Keys == e.connections.Keys && e'.recvWindow == e.recvWindow && e'.events == e.events
            && SameStream(c, e'.connections[key]) && SameAttention(c, e'.connections[key])
            && e'.connections[key].retries == c.retries && e'.connections[key].lastTx == c.lastTx
            && e'.connections[key].sendWindow == c.sendWindow
            && e'.outbox == e.outbox + ToRemote(c.remote, AttnAgain(c, now))
  {
    if AttnDue(e.connections[key], now) { TimedAttention(e, key, now); }
    assert ToRemote(e.connections[key].remote, []) == [];
    assert e.events + [] == e.events && e.outbox + [] == e.outbox;
  }

  lemma {:induction false} NoOpens(e: Endpoint, now: Micros)
    requires e.pendingOpens == map[] && e.outbox == [] && e.events == []
    ensures PollOpens(e, now) == e
  {
    AscendingSingleton(0);
    assert OpensAfter(e.pendingOpens, now) == map[];
  }

  /** The retransmission timer, while it does not give up. */
  lemma {:induction false} StreamTimer(e: Endpoint, key: u16, now: Micros)
    requires key in e.connections && DataDue(e.connections[key], now) && e.connections[key].retries < MAX_RETRIES
    ensures var c, e' := e.connections[key], PollStream(e, key, now);
            && e'.connections.Keys == e.connections.Keys && e'.recvWindow == e.recvWindow
            && SameStream(c, e'.connections[key]) && e'.connections[key].sendWindow == c.sendWindow
            && e'.connections[key].attnInFlight == c.attnInFlight && SameAttention(c, e'.connections[key])
            && e'.events == e.events
            && e'.outbox == e.outbox + ToRemote(c.remote, ResendFrom(c, e.recvWindow, 0))
  {
    var c := e.connections[key];
    var c1 := c.(retries := c.retries + 1);
    assert PollStream(e, key, now) == Update(e, key, Resend(c1, e.recvWindow, now));
    SameResend(c, c1, e.recvWindow, 0);
  }

  lemma {:induction false} TowardBoth(r: Address, a: seq<Packet>, b: seq<Packet>)
    ensures Toward(ToRemote(r, a) + ToRemote(r, b), r) == a + b
  {
    TowardRemote(r, a);
    TowardRemote(r, b);
    TowardConcat(ToRemote(r, a), ToRemote(r, b), r);
  }

  /** No timer of the connection gives up. */
  predicate HoldsOn(c: Connection, now: Micros) {
    && (DataDue(c, now) ==> c.retries < MAX_RETRIES)
    && (AttnDue(c, now) ==> c.attnInFlight.value.retries < MAX_ATTN_RETRIES)
  }

  /** What the retransmission timer sends again. */
  function Again(c: Connection, window: u16, now: Micros): seq<Packet> {
    if DataDue(c, now) then ResendFrom(c, window, 0) else []
  }

  /** What the attention timer sends again. */
  function AttnAgain(c: Connection, now: Micros): seq<Packet> {
    if AttnDue(c, now) then [c.attnInFlight.value.packet] else []
  }

  /** The timers of an endpoint with one connection that holds on and no open under way. */
  lemma {:induction false} TimersSend(e: Endpoint, key: u16, now: Micros)
    requires e.connections.Keys == {key} && e.pendingOpens == map[] && e.outbox == [] && e.events == []
    requires HoldsOn(e.connections[key], now)
    ensures var c, e' := e.connections[key], Poll(e, now);
            && e'.connections.Keys == {key} && e'.recvWindow == e.recvWindow
            && SameStream(c, e'.connections[key]) && e'.connections[key].sendWindow == c.sendWindow
            && SameAttention(c, e'.connections[key])
            && e'.events == []
            && Toward(e'.outbox, c.remote) == AttnAgain(c, now) + Again(c, e.recvWindow, now)
  {
    PollSingle(e, key, now);
    NoOpens(e, now);
    var c := e.connections[key];
    AttentionTimer(e, key, now);
    var e1 := PollAttention(e, key, now);
    if DataDue(c, now) {
      StreamTimer(e1, key, now);
      SameResend(c, e1.connections[key], e.recvWindow, 0);
    } else {
      assert ToRemote(c.remote, []) == [];
    }
    TowardBoth(c.remote, AttnAgain(c, now), Again(c, e.recvWindow, now));
  }

  /** What the timers leave of the attention in flight. */
  predicate SameAttention(c: Connection, c': Connection) {
    && c'.attnSendSeq == c.attnSendSeq && c'.attnRecvSeq == c.attnRecvSeq
    && (c'.attnInFlight.Some? <==> c.attnInFlight.Some?)
    && (c.attnInFlight.Some? ==>
          c'.attnInFlight.value.seqNo == c.attnInFlight.value.seqNo
          && c'.attnInFlight.value.packet == c.attnInFlight.value.packet)
  }

  /** `s'` is `s` after its timers ran, and `ps` what they put on the line: perhaps the attention in
      flight, and perhaps all of the flight buffer. */
  ghost predicate Ticked(s: Side, s': Side, now: Micros, ps: seq<Packet>) {
    && Local(s) && Alive(s) && Joined(s')
    && s'.id == s.id && s'.peerId == s.peerId && s'.peerAddr == s.peerAddr
    && s'.tape == s.tape && s'.got == s.got && s'.ep.recvWindow == s.ep.recvWindow
    && s'.asked == s.asked && s'.acked == s.acked && s'.heard == s.heard
    && SameStream(Conn(s), Conn(s')) && Conn(s').sendWindow == Conn(s).sendWindow && SameAttention(Conn(s), Conn(s'))
    && ps == AttnAgain(Conn(s), now) + Again(Conn(s), s.ep.recvWindow, now)
  }

  lemma {:induction false} TickSends(s: Side, now: Micros)
    requires Local(s) && Alive(s) && HoldsOn(Conn(s), now)
    ensures Ticked(s, Act(s, Tick(now)), now, SentNow(s, Tick(now)))
  {
    TimersSend(s.ep, s.peerId, now);
    assert s.got + [] == s.got && s.heard + [] == s.heard;
  }

  /** What is sent again depends on the stream alone. */
  lemma {:induction false} SameResend(c: Connection, c': Connection, window: u16, i: nat)
    requires SameStream(c, c') && i <= |c.flightBuffer|
    ensures ResendFrom(c, window, i) == ResendFrom(c', window, i)
    decreases |c.flightBuffer| - i
  {
    if i < |c.flightBuffer| { SameResend(c, c', window, i + Min(ADSP_MAX_DATA, |c.flightBuffer| - i)); }
  }

  /** The later of two positions. */
  function Later(a: int, b: int): int {
    if a < b then b else a
  }

  /** What is sent again brings a receiver to the end of the bytes in flight, if it is not past them. */
  lemma {:induction false} ResendBrings(c: Connection, window: u16, i: nat, tape: seq<Token>, n: nat)
    requires Ledger(c, tape) && FlightAligned(c, tape) && i <= |c.flightBuffer|
    requires OldestPos(c, tape) + i <= n <= CutPos(c, tape)
    ensures var ps := ResendFrom(c, window, i);
            && Brings(ps, tape, n, Later(n, OldestPos(c, tape) + |c.flightBuffer|))
            && DataAsks(ps) && (i < |c.flightBuffer| ==> Asks(ps))
            && forall p :: p in ps ==>
                 IsStreamOf(p, c.ourConnId) && p.nextRecvSeq == c.recvSeq && p.recvWindow == window
    decreases |c.flightBuffer| - i
  {
    if i < |c.flightBuffer| {
      var o := OldestPos(c, tape);
      var take := Min(ADSP_MAX_DATA, |c.flightBuffer| - i);
      var p := StreamPacket(c, window, Add32(c.oldestUnackedSeq, i), false, c.flightBuffer[i..i + take]);
      ResendSlice(c, window, i, take, tape);
      StartOf(p, n, o + i);
      ResendBrings(c, window, i + take, tape, NextPos(n, o + i, take));
      var ps := ResendFrom(c, window, i);
      assert ps[0] == p && ps[1..] == ResendFrom(c, window, i + take);
      assert p in ps;
    }
  }

  lemma {:induction false} ResendSlice(c: Connection, window: u16, i: nat, take: nat, tape: seq<Token>)
    requires Ledger(c, tape) && FlightAligned(c, tape) && i + take <= |c.flightBuffer|
    ensures Slice(StreamPacket(c, window, Add32(c.oldestUnackedSeq, i), false, c.flightBuffer[i..i + take]), tape,
                  OldestPos(c, tape) + i)
  {
    var o := OldestPos(c, tape);
    LedgerOldest(c, tape);
    LowAdd(o, i);
    assert tape[o + i..o + i + take] == Tokens(c.flightBuffer[i..i + take], false);
  }

  /** Packets outside the stream ahead of some do not matter to it. */
  lemma {:induction false} AttentionAhead(attn: seq<Packet>, ps: seq<Packet>, tape: seq<Token>, n: nat, end: nat)
    requires Brings(ps, tape, n, end) && DataAsks(ps) && Asks(ps) && forall p :: p in attn ==> p.attention
    ensures Brings(attn + ps, tape, n, end) && DataAsks(attn + ps) && Asks(attn + ps)
    decreases |attn|
  {
    if attn == [] {
      assert attn + ps == ps;
    } else {
      assert attn[0] in attn;
      AttentionAhead(attn[1..], ps, tape, n, end);
      assert (attn + ps)[1..] == attn[1..] + ps;
      var p :| p in attn[1..] + ps && IsStream(p) && p.ackReq;
      assert p in attn + ps;
      assert forall q :: q in attn + ps ==> q == attn[0] || q in attn[1..] + ps;
    }
  }

  /** Packets that bring a receiver to a place stop it there. */
  lemma {:induction false} BringsStops(ps: seq<Packet>, tape: seq<Token>, n: nat, h: nat)
    requires Brings(ps, tape, n, h)
    ensures Stops(ps, tape, n, h)
    decreases |ps|
  {
    if ps != [] {
      if TakesSpace(ps[0]) {
        var f := Start(ps[0], n);
        BringsForward(ps[1..], tape, NextPos(n, f, SeqLen(ps[0])), h);
        BringsStops(ps[1..], tape, NextPos(n, f, SeqLen(ps[0])), h);
      } else {
        BringsStops(ps[1..], tape, n, h);
      }
    }
  }

  /** Where going back brings a peer that has received `n`. */
  ghost function BackTo(s: Side, n: nat): int
    requires Alive(s)
  {
    Later(n, OldestPos(Conn(s), s.tape) + |Conn(s).flightBuffer|)
  }

  /** What is sent again, behind attentions. */
  lemma {:induction false} AgainLine(c: Connection, window: u16, attn: seq<Packet>, tape: seq<Token>, n: nat)
    requires Ledger(c, tape) && FlightAligned(c, tape) && c.flightBuffer != []
    requires OldestPos(c, tape) <= n <= CutPos(c, tape)
    requires forall p :: p in attn ==> p.attention && p.descriptor == DataPacket && p.connId == c.ourConnId
    ensures var ps, end := attn + ResendFrom(c, window, 0), Later(n, OldestPos(c, tape) + |c.flightBuffer|);
            && Brings(ps, tape, n, end) && DataAsks(ps) && Asks(ps)
            && forall p :: p in ps ==>
                 Usual(p, c.ourConnId) && (IsStream(p) ==> p.nextRecvSeq == c.recvSeq && p.recvWindow == window)
  {
    ResendBrings(c, window, 0, tape, n);
    AttentionAhead(attn, ResendFrom(c, window, 0), tape, n, Later(n, OldestPos(c, tape) + |c.flightBuffer|));
  }

  /** No end-of-message is among what `s` sent and `peer` has not received. */
  ghost predicate NoMarkLost(s: Side, peer: Side) {
    && Alive(s) && |peer.got| <= CutPos(Conn(s), s.tape)
    && Eom !in s.tape[|peer.got|..CutPos(Conn(s), s.tape)]
  }

  /** An exact flight buffer ends with the last byte sent, so going back brings the peer level if and
      only if no mark is lost. */
  lemma {:induction false} BackToLevel(s: Side, peer: Side)
    requires Local(s) && Alive(s) && OldestPos(Conn(s), s.tape) <= |peer.got| <= CutPos(Conn(s), s.tape)
    ensures BackTo(s, |peer.got|) <= CutPos(Conn(s), s.tape)
    ensures BackTo(s, |peer.got|) == CutPos(Conn(s), s.tape) <==> NoMarkLost(s, peer)
  {
    var c, n, cut := Conn(s), |peer.got|, CutPos(Conn(s), s.tape);
    var flight := OldestPos(c, s.tape) + |c.flightBuffer|;
    if Later(n, flight) < cut {
      assert s.tape[n..cut][Later(n, flight) - n] == Eom;
    } else {
      forall i | n <= i < cut ensures s.tape[i] != Eom {
        assert s.tape[i] == Byte(c.flightBuffer[i - OldestPos(c, s.tape)]);
      }
    }
  }

  lemma {:induction false} AgainLeads(c: Connection, window: u16, attn: seq<Packet>, tape: seq<Token>, n: nat, end: int)
    requires Ledger(c, tape) && FlightAligned(c, tape) && c.flightBuffer != []
    requires OldestPos(c, tape) <= n && end == Later(n, OldestPos(c, tape) + |c.flightBuffer|) <= CutPos(c, tape)
    requires forall p :: p in attn ==> p.attention && p.descriptor == DataPacket && p.connId == c.ourConnId
    ensures var ps, cut := attn + ResendFrom(c, window, 0), CutPos(c, tape);
            && DataAsks(ps) && Asks(ps)
            && (if end == cut then Brings(ps, tape, n, cut) else Holed(ps, tape, n, cut))
  {
    AgainLine(c, window, attn, tape, n);
    LeadsTo(attn + ResendFrom(c, window, 0), tape, n, end, CutPos(c, tape));
  }

  /** Packets that bring a receiver to `end` leave it level with `cut`, or at a hole before it. */
  lemma {:induction false} LeadsTo(ps: seq<Packet>, tape: seq<Token>, n: nat, end: int, cut: nat)
    requires 0 <= end <= cut && Brings(ps, tape, n, end)
    ensures if end == cut then Brings(ps, tape, n, cut) else Holed(ps, tape, n, cut)
  {
    BringsStops(ps, tape, n, end);
  }

  /** Where the line of a side that went back leads: level with what was sent, or to a hole. */
  lemma {:induction false} BackLeads(s: Side, s': Side, peer: Side, now: Micros, ps: seq<Packet>)
    requires Ticked(s, s', now, ps) && DataDue(Conn(s), now)
    requires OldestPos(Conn(s), s.tape) <= |peer.got| <= CutPos(Conn(s), s.tape)
    ensures var n, cut := |peer.got|, CutPos(Conn(s), s.tape);
            && DataAsks(ps) && Asks(ps)
            && (if NoMarkLost(s, peer) then Brings(ps, s.tape, n, cut) else Holed(ps, s.tape, n, cut))
  {
    BackToLevel(s, peer);
    AgainLeads(Conn(s), s.ep.recvWindow, AttnAgain(Conn(s), now), s.tape, |peer.got|, BackTo(s, |peer.got|));
  }

  /** If nothing is sent again, what is on the line leads nowhere. */
  lemma {:induction false} IdleLeads(ps: seq<Packet>, tape: seq<Token>, n: nat, end: nat)
    requires n <= end && forall p :: p in ps ==> !TakesSpace(p)
    ensures Brings(ps, tape, n, end) || Holed(ps, tape, n, end)
  {
    LaysNothing(ps, tape, n);
    LaysBrings(ps, tape, n, n);
    BringsStops(ps, tape, n, n);
  }

  /** The packets timers put on the line. */
  lemma {:induction false} TickedUsual(s: Side, s': Side, now: Micros, ps: seq<Packet>)
    requires Ticked(s, s', now, ps)
    ensures forall p :: p in ps ==>
              Usual(p, s.id) && (IsStream(p) ==> p.nextRecvSeq == Low32(|s.got|) && p.recvWindow == s.ep.recvWindow)
  {
    if DataDue(Conn(s), now) {
      AgainLine(Conn(s), s.ep.recvWindow, AttnAgain(Conn(s), now), s.tape, OldestPos(Conn(s), s.tape));
    }
  }

  /** A side whose timers ran, with nothing else on the line: its direction is sane; if it went back it
      flows if no mark is lost, and otherwise there is a hole. */
  lemma {:induction false} TickedSends(s: Side, s': Side, peer: Side, out: set<Stamped>, inbox: set<Stamped>,
      now: Micros, ps: seq<Packet>)
    requires Both(s, peer, out, inbox) && Alive(peer) && Ticked(s, s', now, ps)
    ensures Sane(s', peer, ps, [])
    ensures DataDue(Conn(s), now) ==> if NoMarkLost(s, peer) then Flows(s', peer, ps, []) else HoleIn(s', peer, ps)
  {
    TickedUsual(s, s', now, ps);
    if DataDue(Conn(s), now) {
      BackLeads(s, s', peer, now, ps);
    } else {
      IdleLeads(ps, s.tape, |peer.got|, CutPos(Conn(s), s.tape));
    }
    assert Joined(peer);
    assert Told(s', peer, [], OldestPos(Conn(s), s.tape), Conn(s).sendWindow);
  }

  /** The other direction stays sane. */
  lemma {:induction false} TickedHears(s: Side, s': Side, peer: Side, out: set<Stamped>, inbox: set<Stamped>,
      now: Micros, ps: seq<Packet>)
    requires Both(s, peer, out, inbox) && Alive(peer) && Ticked(s, s', now, ps)
    ensures Sane(peer, s', [], ps)
  {
    var c := Conn(peer);
    TickedUsual(s, s', now, ps);
    assert Joined(peer);
    SettlesAt(ps, OldestPos(c, peer.tape), c.sendWindow, |s.got|, s.ep.recvWindow);
    var o', w' :| Settles(ps, OldestPos(c, peer.tape), c.sendWindow, |s.got|, o', w');
    assert Told(peer, s', ps, o', w');
    IdleLeads([], peer.tape, |s.got|, CutPos(c, peer.tape));
  }

  /** The line after everything on its way was lost and the timers of `a` ran. */
  ghost function AfterLoss(s: System, now: Micros): Line {
    Line(Act(s.a, Tick(now)), s.b, [], SentNow(s.a, Tick(now)))
  }

  lemma {:induction false} LossIsSane(run: seq<System>, n: nat, now: Micros)
    requires IsRun(run) && n < |run| && Alive(run[n].a) && Alive(run[n].b) && HoldsOn(Conn(run[n].a), now)
    ensures LineSane(AfterLoss(run[n], now))
    ensures var s, l := run[n], AfterLoss(run[n], now);
            && Ticked(s.a, l.a, now, l.toB)
            && (DataDue(Conn(s.a), now) ==> if NoMarkLost(s.a, s.b) then FlowsToB(l) else HoleIn(l.a, l.b, l.toB))
  {
    RunKeepsInv(run, n);
    var s, l := run[n], AfterLoss(run[n], now);
    TickSends(s.a, now);
    TickedSends(s.a, l.a, s.b, s.toB, s.toA, now, l.toB);
    TickedHears(s.a, l.a, s.b, s.toB, s.toA, now, l.toB);
  }

  /** After any loss. Take any state the lossy network can reach, both ends connected, and lose
      everything on its way. The sender's next retransmission sets it right if and only if no
      end-of-message was among what was lost: over a line that from then on loses nothing, whenever
      nothing is on its way everything the sender sent, and with an open window everything it ever
      wrote, has been handed over. */
  lemma {:induction false} RecoversFromLoss(run: seq<System>, n: nat, now: Micros, ls: seq<Line>, m: nat)
    requires IsRun(run) && n < |run| && GoesBack(run[n].a, now) && Alive(run[n].b)
    requires IsLineRun(ls) && m < |ls| && ls[0] == AfterLoss(run[n], now) && Quiet(ls[m])
    ensures Delivered(ls[m].a, ls[m].b) <==> NoMarkLost(run[n].a, run[n].b)
  {
    LossIsSane(run, n, now);
    RunKeepsLine(ls, m);
    if NoMarkLost(run[n].a, run[n].b) {
      QuietMeansDelivered(ls[m].a, ls[m].b);
    } else {
      assert HoleIn(ls[m].a, ls[m].b, []);
    }
  }
}
