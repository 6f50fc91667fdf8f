/** What attentions must do: over a line that keeps order and loses nothing every attention accepted is
    heard and acknowledged, and after a loss one retry is enough. */
module AdspHearing {
  import opened Words
  import opened AdspSpec
  import opened AdspStream
  import opened AdspNetwork
  import opened AdspLine
  import opened AdspFlow
  import AdspAttention

  /** The attentions on a line, or the acknowledgements of attentions. */
  function Attentions(ps: seq<Packet>, acks: bool): seq<Packet> {
    if ps == [] then [] else
    (if ps[0].attention && ps[0].Control() == acks then [ps[0]] else []) + Attentions(ps[1..], acks)
  }

  lemma {:induction false} AttentionsConcat(ps: seq<Packet>, qs: seq<Packet>, acks: bool)
    ensures Attentions(ps + qs, acks) == Attentions(ps, acks) + Attentions(qs, acks)
    decreases |ps|
  {
    if ps == [] {
      assert ps + qs == qs;
    } else {
      assert (ps + qs)[1..] == ps[1..] + qs;
      AttentionsConcat(ps[1..], qs, acks);
    }
  }

  predicate NoAttention(ps: seq<Packet>, acks: bool) {
    forall p :: p in ps ==> !(p.attention && p.Control() == acks)
  }

  lemma {:induction false} NoAttentions(ps: seq<Packet>, acks: bool)
    requires NoAttention(ps, acks)
    ensures Attentions(ps, acks) == []
    decreases |ps|
  {
    if ps != [] {
      assert ps[0] in ps;
      NoAttentions(ps[1..], acks);
    }
  }

  /** The acknowledgement of attention number `n`. */
  predicate AcksNumber(p: Packet, n: nat) {
    p.nextRecvSeq == Low32(n + 1)
  }

  /** The attention in flight is on the line. */
  predicate OnItsWay(p: Packet, out: seq<Packet>, back: seq<Packet>) {
    Attentions(out, false) == [p] && Attentions(back, true) == []
  }

  /** The attention in flight was heard, and its acknowledgement is coming back. */
  predicate Answered(n: nat, heard: nat, out: seq<Packet>, back: seq<Packet>) {
    && heard == n + 1 && Attentions(out, false) == []
    && |Attentions(back, true)| == 1 && AcksNumber(Attentions(back, true)[0], n)
  }

  /** The attention in flight, or its acknowledgement, was lost. */
  predicate Lost(out: seq<Packet>, back: seq<Packet>) {
    Attentions(out, false) == [] && Attentions(back, true) == []
  }

  /** From `s` to `r`, while no attention has failed: with none in flight every attention accepted was
      heard; with one in flight either it is on the line, or it was heard and its acknowledgement is
      coming back, or, unless the line is `whole`, either was lost. */
  ghost predicate Heeds(s: Side, r: Side, out: seq<Packet>, back: seq<Packet>, whole: bool) {
    && Alive(s) && Alive(r)
    && Conn(r).attnRecvSeq == Low32(|r.heard|) && Conn(s).attnSendSeq == Low32(s.acked)
    && r.heard <= s.asked && s.acked <= |r.heard|
    && match Conn(s).attnInFlight
       case None => |s.asked| == s.acked && Attentions(out, false) == [] && Attentions(back, true) == []
       case Some(a) =>
         && |s.asked| == s.acked + 1 && a.seqNo == Low32(s.acked)
         && AdspAttention.Carries(a.packet, s, s.acked, s.acked)
         && (OnItsWay(a.packet, out, back) || Answered(s.acked, |r.heard|, out, back) || (!whole && Lost(out, back)))
  }

  /** Nothing is on its way: every attention accepted was heard, and its acknowledgement reported. */
  ghost predicate AllHeard(s: Side, r: Side) {
    r.heard == s.asked && s.acked == |s.asked| && Alive(s) && Conn(s).attnInFlight.None?
  }

  lemma {:induction false} QuietMeansHeard(s: Side, r: Side)
    requires Heeds(s, r, [], [], true)
    ensures AllHeard(s, r)
  {
  }

  // ---- steps -------------------------------------------------------------------------------------------------

  /** The side sends no attention and takes no acknowledgement of one. */
  ghost predicate AsksNothing(s: Side, s': Side, ps: seq<Packet>) {
    && Alive(s) && Alive(s') && s'.asked == s.asked && s'.acked == s.acked
    && Conn(s').attnInFlight == Conn(s).attnInFlight && Conn(s').attnSendSeq == Conn(s).attnSendSeq
    && NoAttention(ps, false)
  }

  /** The side hears no attention. */
  ghost predicate HearsNothing(r: Side, r': Side, ps: seq<Packet>) {
    && Alive(r) && Alive(r') && r'.heard == r.heard && Conn(r').attnRecvSeq == Conn(r).attnRecvSeq
    && NoAttention(ps, true)
  }

  lemma {:induction false} NoMoreAttentions(line: seq<Packet>, ps: seq<Packet>, acks: bool)
    requires NoAttention(ps, acks)
    ensures Attentions(line + ps, acks) == Attentions(line, acks)
  {
    AttentionsConcat(line, ps, acks);
    NoAttentions(ps, acks);
  }

  /** Both directions after a step of `s` that neither sends nor hears an attention, and takes none off
      its line. */
  lemma {:induction false} QuietStep(s: Side, s': Side, peer: Side, out: seq<Packet>, inbox: seq<Packet>,
      inbox': seq<Packet>, ps: seq<Packet>, mine: bool, theirs: bool)
    requires AsksNothing(s, s', ps) && HearsNothing(s, s', ps)
    requires Attentions(inbox', true) == Attentions(inbox, true)
    requires Attentions(inbox', false) == Attentions(inbox, false)
    ensures Heeds(s, peer, out, inbox, mine) ==> Heeds(s', peer, out + ps, inbox', mine)
    ensures Heeds(peer, s, inbox, out, theirs) ==> Heeds(peer, s', inbox', out + ps, theirs)
  {
    NoMoreAttentions(out, ps, false);
    NoMoreAttentions(out, ps, true);
  }

  lemma {:induction false} EffectIsQuiet(s: Side, s': Side, f: Effect)
    requires Alive(s) && s'.ep.connections == s.ep.connections[s.peerId := f.conn] && s'.peerId == s.peerId
    requires s'.asked == s.asked && s'.acked == s.acked && s'.heard == s.heard
    requires f.conn.attnInFlight == Conn(s).attnInFlight && f.conn.attnSendSeq == Conn(s).attnSendSeq
    requires f.conn.attnRecvSeq == Conn(s).attnRecvSeq && forall p :: p in f.out ==> !p.attention
    ensures AsksNothing(s, s', f.out) && HearsNothing(s, s', f.out)
  {
  }

  lemma {:induction false} DataEvents(evs: seq<AdspEvent>)
    requires forall ev :: ev in evs ==> ev.Data?
    ensures HeardIn(evs) == [] && AckedIn(evs) == 0
  {
    if evs != [] {
      assert evs[0] in evs;
      DataEvents(evs[1..]);
    }
  }

  lemma {:induction false} WriteIsQuiet(s: Side, act: Action)
    requires Joined(s) && act.Write?
    ensures AsksNothing(s, Act(s, act), SentNow(s, act)) && HearsNothing(s, Act(s, act), SentNow(s, act))
  {
    var q := Queued(Conn(s), act.data, act.eom);
    var f := Pump(q, s.ep.recvWindow, None);
    PumpFromStream(q, s.ep.recvWindow, None);
    assert EpAfter(s, act) == Update(s.ep, s.peerId, f);
    UpdatedOutbox(s.ep, s.peerId, f);
    TowardRemote(s.peerAddr, f.out);
    assert s.heard + [] == s.heard;
    EffectIsQuiet(s, Act(s, act), f);
  }

  lemma {:induction false} WindowIsQuiet(s: Side, act: Action)
    requires Joined(s) && act.SetWindow?
    ensures AsksNothing(s, Act(s, act), SentNow(s, act)) && HearsNothing(s, Act(s, act), SentNow(s, act))
  {
    SetWindowSingle(s.ep, s.peerId, act.window);
    assert s.heard + [] == s.heard;
    if s.ep.recvWindow == 0 && act.window > 0 {
      assert EpAfter(s, act).outbox == ToRemote(s.peerAddr, [AckPacket(Conn(s), act.window)]);
      TowardRemote(s.peerAddr, [AckPacket(Conn(s), act.window)]);
    }
  }

  lemma {:induction false} StreamIsQuiet(s: Side, p: Packet, now: Micros)
    requires Joined(s) && Usual(p, s.peerId) && IsStream(p)
    ensures var act := Arrival(p, now);
            AsksNothing(s, Act(s, act), SentNow(s, act)) && HearsNothing(s, Act(s, act), SentNow(s, act))
  {
    var act := Arrival(p, now);
    var f := HandleData(Conn(s), p, s.ep.recvWindow, now);
    HandleDataTells(Conn(s), p, s.ep.recvWindow, now);
    assert EpAfter(s, act) == HandleStream(s.ep, p, now);
    UpdatedOutbox(s.ep, s.peerId, f);
    TowardRemote(s.peerAddr, f.out);
    assert EpAfter(s, act).events == Receive(Conn(s), p).1;
    DataEvents(EpAfter(s, act).events);
    assert s.heard + [] == s.heard;
    EffectIsQuiet(s, Act(s, act), f);
  }

  lemma {:induction false} NothingIsQuiet(s: Side, act: Action)
    requires Joined(s) && EpAfter(s, act) == s.ep && !TakesAttention(s, act)
    ensures AsksNothing(s, Act(s, act), SentNow(s, act)) && HearsNothing(s, Act(s, act), SentNow(s, act))
  {
    assert s.heard + [] == s.heard;
  }

  lemma {:induction false} OneAttention(p: Packet, acks: bool)
    ensures Attentions([p], acks) == if p.attention && p.Control() == acks then [p] else []
  {
    assert [p][1..] == [];
  }

  /** An attention goes out. */
  lemma {:induction false} AttendSends(s: Side, act: Action)
    requires Joined(s) && act.Attend? && TakesAttention(s, act)
    ensures var s', ps := Act(s, act), SentNow(s, act);
            && HearsNothing(s, s', ps) && s'.asked == s.asked + [Message(act.code, act.data)] && s'.acked == s.acked
            && Conn(s').attnSendSeq == Conn(s).attnSendSeq && Conn(s').attnInFlight.Some?
            && var a := Conn(s').attnInFlight.value;
               && ps == [a.packet] && a.seqNo == Conn(s).attnSendSeq && a.packet.firstByteSeq == a.seqNo
               && a.packet.attention && !a.packet.Control() && a.packet.payload == WriteU16(act.code) + act.data
  {
    var f := SendAttentionOn(Conn(s), act.code, act.data, act.now);
    assert EpAfter(s, act) == Update(s.ep, s.peerId, f);
    UpdatedOutbox(s.ep, s.peerId, f);
    TowardRemote(s.peerAddr, f.out);
    assert f.out == [f.out[0]] && s.heard + [] == s.heard;
  }

  /** So an attention accepted is an attention on its way. */
  lemma {:induction false} AttendHeeds(s: Side, peer: Side, out: seq<Packet>, inbox: seq<Packet>, act: Action,
      whole: bool)
    requires Joined(s) && act.Attend? && TakesAttention(s, act) && Heeds(s, peer, out, inbox, whole)
    ensures Heeds(Act(s, act), peer, out + SentNow(s, act), inbox, whole)
  {
    AttendSends(s, act);
    var s' := Act(s, act);
    var p := Conn(s').attnInFlight.value.packet;
    OneAttention(p, false);
    AttentionsConcat(out, [p], false);
    assert s'.asked[s.acked] == Message(act.code, act.data);
    assert OnItsWay(p, out + [p], inbox);
  }

  /** The other direction is as it was. */
  lemma {:induction false} AttendHears(s: Side, peer: Side, out: seq<Packet>, inbox: seq<Packet>, act: Action,
      whole: bool)
    requires Joined(s) && act.Attend? && TakesAttention(s, act) && Heeds(peer, s, inbox, out, whole)
    ensures Heeds(peer, Act(s, act), inbox, out + SentNow(s, act), whole)
  {
    AttendSends(s, act);
    NoMoreAttentions(out, SentNow(s, act), true);
  }

  lemma {:induction false} OneEvent(ev: AdspEvent)
    ensures HeardIn([ev]) == if ev.Attention? then [Message(ev.code, ev.data)] else []
    ensures AckedIn([ev]) == if ev.AttentionAcked? then 1 else 0
  {
    assert [ev][1..] == [];
  }

  /** What a message says once it is parsed. */
  lemma {:induction false} ParsedMessage(m: Message)
    ensures var payload := WriteU16(m.code) + m.data;
            |payload| >= 2 && ReadU16(payload) == m.code && payload[2..] == m.data
  {
    ReadWriteU16(m.code, m.data);
  }

  /** What a receiver hears of an attention. */
  function HeardOf(c: Connection, p: Packet): seq<Message>
    requires |p.payload| >= 2
  {
    if FreshAttention(c, p) then [Message(ReadU16(p.payload), p.payload[2..])] else []
  }

  lemma {:induction false} MessageEvents(e: Endpoint, p: Packet)
    requires p.connId in e.connections && e.events == [] && |p.payload| >= 2
    ensures var evs := HandleAttention(e, p).events;
            HeardIn(evs) == HeardOf(e.connections[p.connId], p) && AckedIn(evs) == 0
  {
    OneEvent(Attention(p.connId, ReadU16(p.payload), p.payload[2..]));
  }

  /** An attention arrives: it is heard if it is new, and acknowledged in any case. */
  lemma {:induction false} MessageArrives(s: Side, p: Packet, now: Micros)
    requires Joined(s) && Ledger(Conn(s), s.tape) && p.connId == s.peerId && p.attention && !p.Control()
    requires |p.payload| >= 2
    ensures var s', ps := Act(s, Arrival(p, now)), SentNow(s, Arrival(p, now));
            && AsksNothing(s, s', ps) && |ps| == 1 && ps[0].attention && ps[0].Control()
            && s'.heard == s.heard + HeardOf(Conn(s), p)
            && ps[0].nextRecvSeq == Conn(s').attnRecvSeq
            && Conn(s').attnRecvSeq
                 == (if FreshAttention(Conn(s), p) then Add32(Conn(s).attnRecvSeq, 1) else Conn(s).attnRecvSeq)
  {
    AttentionTurns(s, p, now);
    assert EpAfter(s, Arrival(p, now)) == HandleAttention(s.ep, p);
    MessageEvents(s.ep, p);
  }

  /** The attention at the head of a line is the one in flight, and the only one. */
  lemma {:induction false} HeadIsInFlight(s: Side, peer: Side, out: seq<Packet>, inbox: seq<Packet>, whole: bool)
    requires Heeds(peer, s, inbox, out, whole) && inbox != [] && inbox[0].attention && !inbox[0].Control()
    ensures Conn(peer).attnInFlight.Some? && inbox[0] == Conn(peer).attnInFlight.value.packet
    ensures Attentions(inbox[1..], false) == [] && Attentions(out, true) == [] && |inbox[0].payload| >= 2
    ensures Message(ReadU16(inbox[0].payload), inbox[0].payload[2..]) == peer.asked[peer.acked]
  {
    assert Attentions(inbox, false) == [inbox[0]] + Attentions(inbox[1..], false);
    var a := Conn(peer).attnInFlight.value;
    assert OnItsWay(a.packet, inbox, out);
    assert Attentions(inbox, false)[0] == a.packet;
    ParsedMessage(peer.asked[peer.acked]);
  }

  /** So the peer's attention on its way becomes its acknowledgement on the way back. */
  lemma {:induction false} MessageHeeds(s: Side, peer: Side, out: seq<Packet>, inbox: seq<Packet>, now: Micros,
      mine: bool, theirs: bool)
    requires Joined(s) && Ledger(Conn(s), s.tape) && inbox != []
    requires var p := inbox[0]; p.connId == s.peerId && p.attention && !p.Control()
    requires Heeds(peer, s, inbox, out, theirs)
    ensures var s', ps := Act(s, Arrival(inbox[0], now)), SentNow(s, Arrival(inbox[0], now));
            && Heeds(peer, s', inbox[1..], out + ps, theirs)
            && (Heeds(s, peer, out, inbox, mine) ==> Heeds(s', peer, out + ps, inbox[1..], mine))
  {
    var p := inbox[0];
    HeadIsInFlight(s, peer, out, inbox, theirs);
    MessageArrives(s, p, now);
    var s', ps := Act(s, Arrival(p, now)), SentNow(s, Arrival(p, now));
    HeardNext(s, s', peer, p);
    MessageAnswered(s', peer, out, inbox[1..], ps, theirs);
    NoMoreAttentions(out, ps, false);
  }

  lemma {:induction false} MessageAnswered(s': Side, peer: Side, out: seq<Packet>, rest: seq<Packet>, ps: seq<Packet>,
      whole: bool)
    requires Alive(s') && Alive(peer) && s'.heard == peer.asked && Conn(s').attnRecvSeq == Low32(|s'.heard|)
    requires Conn(peer).attnSendSeq == Low32(peer.acked) && |peer.asked| == peer.acked + 1
    requires Conn(peer).attnInFlight.Some? && Conn(peer).attnInFlight.value.seqNo == Low32(peer.acked)
    requires AdspAttention.Carries(Conn(peer).attnInFlight.value.packet, peer, peer.acked, peer.acked)
    requires Attentions(rest, false) == [] && Attentions(out, true) == []
    requires |ps| == 1 && ps[0].attention && ps[0].Control() && ps[0].nextRecvSeq == Conn(s').attnRecvSeq
    ensures Heeds(peer, s', rest, out + ps, whole)
  {
    OneAttention(ps[0], true);
    assert ps == [ps[0]];
    AttentionsConcat(out, ps, true);
    assert Answered(peer.acked, |s'.heard|, rest, out + ps);
  }

  /** Which of the two an attention in flight finds: a receiver that waits for it, or one that has heard
      it. Afterwards it has been heard. */
  lemma {:induction false} HeardNext(s: Side, s': Side, peer: Side, p: Packet)
    requires Alive(s) && Alive(s') && Alive(peer) && s.heard <= peer.asked && peer.acked <= |s.heard|
    requires |peer.asked| == peer.acked + 1 && AdspAttention.Carries(p, peer, peer.acked, peer.acked)
    requires Conn(s).attnRecvSeq == Low32(|s.heard|) && |p.payload| >= 2
    requires Message(ReadU16(p.payload), p.payload[2..]) == peer.asked[peer.acked]
    requires s'.heard == s.heard + HeardOf(Conn(s), p)
    requires Conn(s').attnRecvSeq
               == (if FreshAttention(Conn(s), p) then Add32(Conn(s).attnRecvSeq, 1) else Conn(s).attnRecvSeq)
    ensures s'.heard == peer.asked && Conn(s').attnRecvSeq == Low32(|s'.heard|)
  {
    if |s.heard| == peer.acked {
      LowAdd(peer.acked, 1);
      assert peer.asked == peer.asked[..peer.acked] + [peer.asked[peer.acked]];
    } else {
      assert s.heard == peer.asked;
      LowSub(peer.acked + 1, peer.acked);
    }
  }

  /** The acknowledgement of the attention in flight arrives, and is reported. */
  lemma {:induction false} AckArrives(s: Side, p: Packet, now: Micros)
    requires Joined(s) && Ledger(Conn(s), s.tape) && p.connId == s.peerId && p.attention && p.Control()
    requires AcksAttention(Conn(s), p)
    ensures var s' := Act(s, Arrival(p, now));
            && Joined(s') && SentNow(s, Arrival(p, now)) == [] && HearsNothing(s, s', [])
            && s'.asked == s.asked && s'.acked == s.acked + 1
            && Conn(s').attnInFlight == None && Conn(s').attnSendSeq == Add32(Conn(s).attnSendSeq, 1)
  {
    AttentionAckTurns(s, p, now);
    var act := Arrival(p, now);
    assert EpAfter(s, act) == HandleAttentionAck(s.ep, p);
    var evs := EpAfter(s, act).events;
    assert evs == [AttentionAcked(p.connId)];
    OneEvent(AttentionAcked(p.connId));
    assert s.heard + [] == s.heard;
  }

  lemma {:induction false} AckHeeds(s: Side, peer: Side, out: seq<Packet>, inbox: seq<Packet>, now: Micros,
      mine: bool, theirs: bool)
    requires Joined(s) && Ledger(Conn(s), s.tape) && inbox != []
    requires var p := inbox[0]; p.connId == s.peerId && p.attention && p.Control()
    requires Heeds(s, peer, out, inbox, mine)
    ensures var s', ps := Act(s, Arrival(inbox[0], now)), SentNow(s, Arrival(inbox[0], now));
            && Heeds(s', peer, out + ps, inbox[1..], mine)
            && (Heeds(peer, s, inbox, out, theirs) ==> Heeds(peer, s', inbox[1..], out + ps, theirs))
  {
    var p := inbox[0];
    assert Attentions(inbox, true) == [p] + Attentions(inbox[1..], true);
    assert Answered(s.acked, |peer.heard|, out, inbox) && AcksNumber(p, s.acked);
    LowAdd(s.acked, 1);
    AckArrives(s, p, now);
    assert out + [] == out;
  }

  /** A step of a side, in both directions. */
  lemma {:induction false} StepHeeds(s: Side, peer: Side, out: seq<Packet>, inbox: seq<Packet>, act: Action,
      mine: bool, theirs: bool)
    requires BothSane(s, peer, out, inbox) && CanDo(s, inbox, act)
    requires Heeds(s, peer, out, inbox, mine) && Heeds(peer, s, inbox, out, theirs)
    ensures var s', out', inbox' := Act(s, act), out + SentNow(s, act), InboxAfter(inbox, act);
            Heeds(s', peer, out', inbox', mine) && Heeds(peer, s', inbox', out', theirs)
  {
    match act
    case Write(_, _) =>
      WriteIsQuiet(s, act);
      QuietStep(s, Act(s, act), peer, out, inbox, inbox, SentNow(s, act), mine, theirs);
    case SetWindow(_) =>
      WindowIsQuiet(s, act);
      QuietStep(s, Act(s, act), peer, out, inbox, inbox, SentNow(s, act), mine, theirs);
    case Attend(_, _, _) =>
      if TakesAttention(s, act) {
        AttendHeeds(s, peer, out, inbox, act, mine);
        AttendHears(s, peer, out, inbox, act, theirs);
      } else {
        NothingIsQuiet(s, act);
        QuietStep(s, Act(s, act), peer, out, inbox, inbox, SentNow(s, act), mine, theirs);
      }
    case Deliver(_, now) => ArrivalHeeds(s, peer, out, inbox, now, mine, theirs);
  }

  lemma {:induction false} ArrivalHeeds(s: Side, peer: Side, out: seq<Packet>, inbox: seq<Packet>, now: Micros,
      mine: bool, theirs: bool)
    requires BothSane(s, peer, out, inbox) && inbox != []
    requires Heeds(s, peer, out, inbox, mine) && Heeds(peer, s, inbox, out, theirs)
    ensures var s', ps := Act(s, Arrival(inbox[0], now)), SentNow(s, Arrival(inbox[0], now));
            Heeds(s', peer, out + ps, inbox[1..], mine) && Heeds(peer, s', inbox[1..], out + ps, theirs)
  {
    var p, act := inbox[0], Arrival(inbox[0], now);
    assert p in inbox;
    if p.attention && p.Control() {
      AckHeeds(s, peer, out, inbox, now, mine, theirs);
    } else if p.attention {
      MessageHeeds(s, peer, out, inbox, now, mine, theirs);
    } else {
      if IsStream(p) { StreamIsQuiet(s, p, now); } else { NothingIsQuiet(s, act); }
      QuietStep(s, Act(s, act), peer, out, inbox, inbox[1..], SentNow(s, act), mine, theirs);
    }
  }

  // ---- whole runs ----------------------------------------------------------------------------------------------

  /** Both directions; each is whole or may have lost an attention. */
  ghost predicate LineHeeds(l: Line, toB: bool, toA: bool) {
    Heeds(l.a, l.b, l.toB, l.toA, toB) && Heeds(l.b, l.a, l.toA, l.toB, toA)
  }

  lemma {:induction false} StepKeepsHeeding(l: Line, l': Line, toB: bool, toA: bool)
    requires Steps(l, l') && LineSane(l) && LineHeeds(l, toB, toA)
    ensures LineHeeds(l', toB, toA)
  {
    var act :| StepsA(l, l', act) || StepsB(l, l', act);
    if StepsA(l, l', act) {
      StepHeeds(l.a, l.b, l.toB, l.toA, act, toB, toA);
    } else {
      StepHeeds(l.b, l.a, l.toA, l.toB, act, toA, toB);
    }
  }

  lemma {:induction false} RunKeepsHeeding(ls: seq<Line>, n: nat, toB: bool, toA: bool)
    requires IsLineRun(ls) && n < |ls| && LineSane(ls[0]) && LineHeeds(ls[0], toB, toA)
    ensures LineHeeds(ls[n], toB, toA)
  {
    if n > 0 {
      RunKeepsHeeding(ls, n - 1, toB, toA);
      RunStepHeeds(ls, n - 1, toB, toA);
    }
  }

  lemma {:induction false} RunStepHeeds(ls: seq<Line>, n: nat, toB: bool, toA: bool)
    requires IsLineRun(ls) && n + 1 < |ls| && LineSane(ls[0]) && LineHeeds(ls[n], toB, toA)
    ensures LineHeeds(ls[n + 1], toB, toA)
  {
    RunKeepsLine(ls, n);
    assert Steps(ls[n], ls[n + 1]);
    StepKeepsHeeding(ls[n], ls[n + 1], toB, toA);
  }

  /** Two ends just connected that have said nothing. */
  ghost predicate Silent(l: Line) {
    && Fresh(l)
    && l.a.asked == [] && l.a.acked == 0 && l.a.heard == [] && l.b.asked == [] && l.b.acked == 0 && l.b.heard == []
  }

  /** Every attention accepted is heard and acknowledged: whenever nothing is on its way, those heard are
      exactly those accepted, in order, and each was reported acknowledged. */
  lemma {:induction false} QuietLineHasHeard(ls: seq<Line>, n: nat)
    requires IsLineRun(ls) && n < |ls| && Silent(ls[0]) && Quiet(ls[n])
    ensures AllHeard(ls[n].a, ls[n].b) && AllHeard(ls[n].b, ls[n].a)
  {
    FreshFlows(ls[0].a, ls[0].b);
    FreshFlows(ls[0].b, ls[0].a);
    RunKeepsHeeding(ls, n, true, true);
  }

  /** What is left of the attentions when everything on its way is lost. */
  lemma {:induction false} LossHeeds(s: Side, r: Side, out: set<Stamped>, inbox: set<Stamped>, ps: seq<Packet>,
      back: seq<Packet>)
    requires Both(s, r, out, inbox) && AdspAttention.AttnBoth(s, r, out, inbox) && Alive(s) && Alive(r) && !s.everFailed
    requires Attentions(back, true) == []
    requires match Conn(s).attnInFlight
             case None => Attentions(ps, false) == []
             case Some(a) => Attentions(ps, false) == [a.packet] || Attentions(ps, false) == []
    ensures Heeds(s, r, ps, back, Attentions(ps, false) != [] || Conn(s).attnInFlight.None?)
  {
    forall i | 0 <= i < |r.heard| ensures i < |s.asked| && r.heard[i] == s.asked[i] {
      assert s.slot[r.heardOrd[i]] == i;
    }
    if |r.heard| > 0 { var last := r.heard[|r.heard| - 1]; }
  }

  /** The attentions among what the timers send again. */
  lemma {:induction false} TickedAttentions(s: Side, s': Side, now: Micros, ps: seq<Packet>)
    requires Ticked(s, s', now, ps)
    ensures Attentions(ps, true) == [] && Attentions(ps, false) == AttnAgain(Conn(s), now)
  {
    var attn, again := AttnAgain(Conn(s), now), Again(Conn(s), s.ep.recvWindow, now);
    TickedUsual(s, s', now, ps);
    AgainIsStream(Conn(s), s.ep.recvWindow, 0);
    NoMoreAttentions(attn, again, true);
    NoMoreAttentions(attn, again, false);
    if attn != [] {
      OneAttention(attn[0], true);
      OneAttention(attn[0], false);
    }
  }

  lemma {:induction false} AgainIsStream(c: Connection, window: u16, i: nat)
    requires i <= |c.flightBuffer|
    ensures forall p :: p in ResendFrom(c, window, i) ==> !p.attention
    decreases |c.flightBuffer| - i
  {
    if i < |c.flightBuffer| { AgainIsStream(c, window, i + Min(ADSP_MAX_DATA, |c.flightBuffer| - i)); }
  }

  /** Heeding does not depend on when the attention was last sent. */
  lemma {:induction false} TickedHeeds(s: Side, s': Side, r: Side, now: Micros, ps: seq<Packet>, line: seq<Packet>,
      back: seq<Packet>, whole: bool)
    requires Ticked(s, s', now, ps)
    ensures Heeds(s, r, line, back, whole) ==> Heeds(s', r, line, back, whole)
    ensures Heeds(r, s, line, back, whole) ==> Heeds(r, s', line, back, whole)
  {
  }

  /** After any loss. Take any state the lossy network can reach, both ends connected and no attention
      failed so far, and lose everything on its way. If the attention timer then sends again what is in
      flight, then over a line that from then on loses nothing, whenever nothing is on its way, every
      attention accepted was heard, once and in order, and reported acknowledged. */
  lemma {:induction false} AttentionsRecover(run: seq<System>, n: nat, now: Micros, ls: seq<Line>, m: nat)
    requires IsRun(run) && n < |run| && Alive(run[n].a) && Alive(run[n].b)
    requires !run[n].a.everFailed && !run[n].b.everFailed && HoldsOn(Conn(run[n].a), now)
    requires Conn(run[n].a).attnInFlight.Some? ==> AttnDue(Conn(run[n].a), now)
    requires IsLineRun(ls) && m < |ls| && ls[0] == AfterLoss(run[n], now) && Quiet(ls[m])
    ensures AllHeard(ls[m].a, ls[m].b)
  {
    var s, ps := run[n], ls[0].toB;
    AdspAttention.RunKeepsAttention(run, n);
    LossIsSane(run, n, now);
    TickedAttentions(s.a, ls[0].a, now, ps);
    LossHeeds(s.a, s.b, s.toB, s.toA, ps, []);
    TickedHeeds(s.a, ls[0].a, s.b, now, ps, ps, [], true);
    BothSwaps(s.a, s.b, s.toB, s.toA);
    LossHeeds(s.b, s.a, s.toA, s.toB, [], ps);
    var theirs := Conn(s.b).attnInFlight.None?;
    TickedHeeds(s.a, ls[0].a, s.b, now, ps, [], ps, theirs);
    RunKeepsHeeding(ls, m, true, theirs);
    QuietMeansHeard(ls[m].a, ls[m].b);
  }
}
