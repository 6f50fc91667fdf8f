/** Attention messages between two ADSP endpoints: stop-and-wait over the same lossy,
    duplicating, reordering network as the byte stream. */
module AdspAttention {
  import opened Words
  import opened AdspSpec
  import opened AdspStream
  import opened AdspNetwork

  /** The packet is attention number `ord` of its sender, under sequence `at`. */
  ghost predicate Carries(p: Packet, from: Side, ord: nat, at: nat) {
    && p.attention && p.descriptor == DataPacket
    && ord < |from.asked|
    && p.payload == WriteU16(from.asked[ord].code) + from.asked[ord].data
    && p.firstByteSeq == Low32(at)
  }

  ghost predicate AttnConn(c: Connection, s: Side)
    requires |s.slot| == |s.asked|
  {
    && c.attnSendSeq == Low32(s.acked)
    && c.attnRecvSeq == Low32(|s.heard|)
    && (c.attnInFlight.Some? ==>
          && s.asked != [] && s.slot[|s.asked| - 1] == s.acked
          && c.attnInFlight.value.seqNo == c.attnSendSeq
          && Carries(c.attnInFlight.value.packet, s, |s.asked| - 1, s.acked))
    && (!s.failed ==>
          forall i :: 0 <= i < |s.asked| && s.slot[i] == s.acked ==>
            c.attnInFlight.Some? && i == |s.asked| - 1)
    && (!s.everFailed ==> |s.asked| == s.acked + (if c.attnInFlight.Some? then 1 else 0))
  }

  ghost predicate AttnLocal(s: Side) {
    && |s.slot| == |s.asked|
    && (forall i :: 0 <= i < |s.slot| ==> s.slot[i] <= s.acked)
    && (!s.known ==> s.asked == [] && s.acked == 0 && s.heard == [])
    && (!s.everFailed ==> forall i :: 0 <= i < |s.slot| ==> s.slot[i] == i)
    && (Alive(s) ==> AttnConn(Conn(s), s))
  }

  /** A packet in transit carries an attention its sender accepted, under that attention's
      sequence, or acknowledges no more than its sender heard. */
  ghost predicate AttnHonest(t: Stamped, from: Side)
    requires |from.slot| == |from.asked|
  {
    t.p.attention ==>
      if t.p.Control() then
        t.attnAckAt <= |from.heard| && t.p.nextRecvSeq == Low32(t.attnAckAt)
      else
        Carries(t.p, from, t.attnOrd, t.attnAt) && from.slot[t.attnOrd] == t.attnAt
  }

  /** What `to` heard, place by place, is what `from` sent under that sequence. */
  ghost predicate HeardFrom(to: Side, from: Side)
    requires |from.slot| == |from.asked|
  {
    && |to.heardOrd| == |to.heard|
    && forall i :: 0 <= i < |to.heard| ==>
         && to.heardOrd[i] < |from.asked|
         && from.slot[to.heardOrd[i]] == i
         && to.heard[i] == from.asked[to.heardOrd[i]]
  }

  ghost predicate AttnHalf(from: Side, to: Side, net: set<Stamped>)
    requires |from.slot| == |from.asked|
  {
    && HeardFrom(to, from)
    && from.acked <= |to.heard|
    && forall t :: t in net ==> AttnHonest(t, from)
  }

  ghost predicate AttnBoth(s: Side, peer: Side, out: set<Stamped>, inbox: set<Stamped>) {
    && AttnLocal(s) && AttnLocal(peer)
    && AttnHalf(s, peer, out) && AttnHalf(peer, s, inbox)
  }

  ghost predicate AttnInv(s: System) {
    Inv(s) && AttnBoth(s.a, s.b, s.toB, s.toA)
  }

  /** What a side's own step has to establish. */
  ghost predicate AttnAdvances(s: Side, s': Side, peer: Side, sent: set<Stamped>)
    requires |peer.slot| == |peer.asked|
  {
    && AttnLocal(s')
    && s.asked <= s'.asked && s.slot <= s'.slot && |s.heard| <= |s'.heard|
    && HeardFrom(s', peer)
    && s'.acked <= |peer.heard|
    && forall t :: t in sent ==> AttnHonest(t, s')
  }

  lemma {:induction false} AdvancingKeepsAttnBoth(s: Side, s': Side, peer: Side, out: set<Stamped>,
      inbox: set<Stamped>, sent: set<Stamped>)
    requires AttnBoth(s, peer, out, inbox) && AttnAdvances(s, s', peer, sent)
    ensures AttnBoth(s', peer, out + sent, inbox)
  {
    forall i | 0 <= i < |peer.heard|
      ensures peer.heardOrd[i] < |s'.asked| && s'.slot[peer.heardOrd[i]] == i && peer.heard[i] == s'.asked[peer.heardOrd[i]]
    {
    }
    forall t | t in out
      ensures AttnHonest(t, s')
    {
      assert AttnHonest(t, s);
    }
  }

  // ---- steps that leave attentions alone --------------------------------------------------

  /** Events about no attention. */
  predicate Unattended(evs: seq<AdspEvent>) {
    forall ev :: ev in evs ==> !ev.Attention? && !ev.AttentionAcked? && !ev.AttentionFailed?
  }

  lemma {:induction false} UnattendedCounts(evs: seq<AdspEvent>)
    requires Unattended(evs)
    ensures HeardIn(evs) == [] && AckedIn(evs) == 0 && !FailedIn(evs)
  {
    if evs != [] { UnattendedCounts(evs[1..]); }
  }

  predicate SameAttention(c: Connection, c': Connection) {
    && c'.attnSendSeq == c.attnSendSeq && c'.attnRecvSeq == c.attnRecvSeq
    && (c'.attnInFlight.Some? <==> c.attnInFlight.Some?)
    && (c.attnInFlight.Some? ==>
          && c'.attnInFlight.value.seqNo == c.attnInFlight.value.seqNo
          && c'.attnInFlight.value.packet == c.attnInFlight.value.packet)
  }

  /** The endpoint after a step that neither sends a new attention nor settles one. */
  ghost predicate Quiet(e: Endpoint, s: Side) {
    && Unattended(e.events)
    && (s.peerId in e.connections ==>
          if Alive(s) then SameAttention(Conn(s), e.connections[s.peerId])
          else !s.known && e.connections[s.peerId].attnSendSeq == 0
               && e.connections[s.peerId].attnRecvSeq == 0 && e.connections[s.peerId].attnInFlight.None?)
    && (forall m :: m in e.outbox && m.1.attention ==>
          Alive(s) && Conn(s).attnInFlight.Some? && m.1 == Conn(s).attnInFlight.value.packet)
  }

  /** The attention history of a side is untouched. */
  predicate SameHistory(s: Side, s': Side) {
    && s'.peerId == s.peerId
    && s'.asked == s.asked && s'.slot == s.slot && s'.acked == s.acked
    && s'.heard == s.heard && s'.heardOrd == s.heardOrd
    && s'.failed == s.failed && s'.everFailed == s.everFailed
  }

  lemma {:induction false} QuietHistory(s: Side, act: Action)
    requires Quiet(EpAfter(s, act), s) && !TakesAttention(s, act)
    ensures SameHistory(s, Act(s, act))
    ensures Act(s, act).known == (s.known || s.peerId in EpAfter(s, act).connections)
  {
    UnattendedCounts(EpAfter(s, act).events);
  }

  lemma {:induction false} QuietLocal(s: Side, s': Side, e: Endpoint)
    requires AttnLocal(s) && SameHistory(s, s') && Quiet(e, s)
    requires s'.ep.connections == e.connections && s'.known == (s.known || s.peerId in e.connections)
    ensures AttnLocal(s')
  {
    if Alive(s') && Alive(s) {
      assert AttnConn(Conn(s), s);
      assert AttnConn(Conn(s'), s');
    }
  }

  lemma {:induction false} QuietSent(s: Side, s': Side, e: Endpoint)
    requires AttnLocal(s) && SameHistory(s, s') && Quiet(e, s)
    ensures forall t :: t in StampAll(s', e.outbox) ==> AttnHonest(t, s')
  {
    forall t | t in StampAll(s', e.outbox)
      ensures AttnHonest(t, s')
    {
      var m :| m in e.outbox && t == Stamp(s', m.1);
      if m.1.attention {
        assert Carries(m.1, s, |s.asked| - 1, s.acked);
      }
    }
  }

  lemma {:induction false} QuietAdvances(s: Side, peer: Side, out: set<Stamped>, inbox: set<Stamped>, act: Action)
    requires AttnBoth(s, peer, out, inbox) && Quiet(EpAfter(s, act), s) && !TakesAttention(s, act)
    ensures AttnAdvances(s, Act(s, act), peer, Sent(s, act))
  {
    QuietHistory(s, act);
    var s' := Act(s, act);
    QuietLocal(s, s', EpAfter(s, act));
    QuietSent(s, s', EpAfter(s, act));
  }

  lemma {:induction false} UpdateIsQuiet(s: Side, f: Effect, evs: seq<AdspEvent>)
    requires Local(s) && Alive(s) && SameAttention(Conn(s), f.conn)
    requires (forall p :: p in f.out ==> !p.attention) && Unattended(evs)
    ensures Quiet(Emit(Update(s.ep, s.peerId, f), evs), s)
  {
  }

  lemma {:induction false} WriteIsQuiet(s: Side, peer: Side, out: set<Stamped>, inbox: set<Stamped>, act: Action)
    requires Both(s, peer, out, inbox) && act.Write? && Enabled(s, inbox, act)
    ensures Quiet(EpAfter(s, act), s)
  {
    if Alive(s) {
      var q := Queued(Conn(s), act.data, act.eom);
      QueuedLedger(Conn(s), act.data, act.eom, s.tape);
      PumpEmits(q, s.ep.recvWindow, None, s.tape + Tokens(act.data, act.eom));
      UpdateIsQuiet(s, Pump(q, s.ep.recvWindow, None), []);
    }
  }

  lemma {:induction false} WindowIsQuiet(s: Side, act: Action)
    requires Local(s) && act.SetWindow?
    ensures Quiet(EpAfter(s, act), s)
  {
    SetWindowSingle(s.ep, s.peerId, act.window);
  }

  lemma {:induction false} StreamIsQuiet(s: Side, peer: Side, out: set<Stamped>, inbox: set<Stamped>, act: Action)
    requires Both(s, peer, out, inbox) && act.Deliver? && Enabled(s, inbox, act) && IsStream(act.t.p)
    ensures Quiet(EpAfter(s, act), s)
  {
    if Alive(s) {
      HandleDataKeeps(Conn(s), act.t.p, s.ep.recvWindow, act.now, s.tape, act.t.ackAt);
      UpdateIsQuiet(s, HandleData(Conn(s), act.t.p, s.ep.recvWindow, act.now), Receive(Conn(s), act.t.p).1);
    }
  }

  lemma {:induction false} HandshakeIsQuiet(s: Side, peer: Side, out: set<Stamped>, inbox: set<Stamped>, act: Action)
    requires Both(s, peer, out, inbox) && act.Deliver? && Enabled(s, inbox, act)
    requires !act.t.p.attention && !IsStream(act.t.p)
    ensures Quiet(EpAfter(s, act), s)
  {
    var p := act.t.p;
    assert p.connId == s.peerId;
    if p.descriptor == OpenConnRequest {
      OpenRequestIsQuiet(s, p, act.now);
    } else if p.descriptor == OpenConnAck || p.descriptor == OpenConnReqAck {
      OpenAckIsQuiet(s, p, act.now);
    }
  }

  lemma {:induction false} OpenRequestIsQuiet(s: Side, p: Packet, now: Micros)
    requires Local(s) && p.connId == s.peerId && (s.known ==> Alive(s))
    ensures Quiet(HandleOpenRequest(s.ep, s.peerAddr, p, now, s.id), s)
  {
  }

  lemma {:induction false} OpenAckIsQuiet(s: Side, p: Packet, now: Micros)
    requires Local(s) && p.connId == s.peerId
    ensures Quiet(HandleOpenAck(s.ep, s.peerAddr, p, now), s)
  {
    if !Alive(s) { assert s.ep.connections == map[]; }
  }

  // ---- the timer ----------------------------------------------------------------------------

  /** The attention in flight on this side is due and out of retries. */
  ghost predicate GivesUp(s: Side, now: Micros) {
    Alive(s) && AttnDue(Conn(s), now) && Conn(s).attnInFlight.value.retries + 1 > MAX_ATTN_RETRIES
  }

  /** The endpoint after a tick that gave up on an attention. */
  ghost predicate GaveUp(e: Endpoint, s: Side) {
    && (forall ev :: ev in e.events ==> !ev.Attention? && !ev.AttentionAcked?)
    && AttentionFailed(s.peerId) in e.events
    && (s.peerId in e.connections ==>
          && Alive(s)
          && e.connections[s.peerId].attnSendSeq == Conn(s).attnSendSeq
          && e.connections[s.peerId].attnRecvSeq == Conn(s).attnRecvSeq
          && e.connections[s.peerId].attnInFlight.None?)
    && (forall m :: m in e.outbox ==> !m.1.attention)
  }

  /** The retransmission timer touches no attention. */
  lemma {:induction false} StreamTickEffect(e: Endpoint, s: Side, oldest: int, now: Micros)
    requires Local(s) && Ticking(e, s, oldest)
    ensures var e' := PollStream(e, s.peerId, now);
            && (forall m :: m in e'.outbox ==> m in e.outbox || !m.1.attention)
            && (forall ev :: ev in e.events ==> ev in e'.events)
            && (forall ev :: ev in e'.events ==> ev in e.events || ev.Closed?)
            && e'.connections.Keys <= e.connections.Keys
            && (s.peerId in e'.connections ==> SameAttention(e.connections[s.peerId], e'.connections[s.peerId]))
  {
    if s.peerId in e.connections && DataDue(e.connections[s.peerId], now) {
      var c := e.connections[s.peerId];
      var c1 := c.(retries := Min(c.retries + 1, 255));
      assert GoodSender(c1, s.tape);
      ResendEmits(c1, e.recvWindow, now, s.tape);
      var f := Resend(c1, e.recvWindow, now);
      assert forall m :: m in ToRemote(f.conn.remote, f.out) ==> m.1 in f.out;
    }
  }

  lemma {:induction false} StreamTickKeepsQuiet(e: Endpoint, s: Side, oldest: int, now: Micros)
    requires Local(s) && Ticking(e, s, oldest)
    ensures Quiet(e, s) ==> Quiet(PollStream(e, s.peerId, now), s)
    ensures GaveUp(e, s) ==> GaveUp(PollStream(e, s.peerId, now), s)
  {
    StreamTickEffect(e, s, oldest, now);
  }

  lemma {:induction false} TickAttention(s: Side, now: Micros)
    requires Local(s)
    ensures GivesUp(s, now) ==> GaveUp(Poll(s.ep, now), s)
    ensures !GivesUp(s, now) ==> Quiet(Poll(s.ep, now), s)
  {
    var oldest := if Alive(s) then OldestPos(Conn(s), s.tape) else 0;
    PollOpensEffect(s, now);
    PollSingle(s.ep, s.peerId, now);
    var e1 := PollOpens(s.ep, now);
    assert Ticking(e1, s, oldest);
    AttentionTicking(e1, s, oldest, now);
    var e2 := PollAttention(e1, s.peerId, now);
    if GivesUp(s, now) {
      assert AttentionFailed(s.peerId) == e2.events[|e2.events| - 1];
      assert GaveUp(e2, s);
    } else {
      assert Quiet(e2, s);
    }
    StreamTickKeepsQuiet(e2, s, oldest, now);
  }

  lemma {:induction false} UnheardCounts(evs: seq<AdspEvent>)
    requires forall ev :: ev in evs ==> !ev.Attention? && !ev.AttentionAcked?
    ensures HeardIn(evs) == [] && AckedIn(evs) == 0
  {
    if evs != [] { UnheardCounts(evs[1..]); }
  }

  lemma {:induction false} GaveUpAdvances(s: Side, peer: Side, out: set<Stamped>, inbox: set<Stamped>, act: Action)
    requires AttnBoth(s, peer, out, inbox) && act.Tick? && GaveUp(EpAfter(s, act), s)
    ensures AttnAdvances(s, Act(s, act), peer, Sent(s, act))
    ensures Act(s, act).everFailed
  {
    var e := EpAfter(s, act);
    UnheardCounts(e.events);
    assert FailedIn(e.events);
    GaveUpLocal(s, Act(s, act), e);
    UnattendedSent(Act(s, act), e.outbox);
  }

  lemma {:induction false} UnattendedSent(s: Side, outbox: seq<(Address, Packet)>)
    requires |s.slot| == |s.asked| && forall m :: m in outbox ==> !m.1.attention
    ensures forall t :: t in StampAll(s, outbox) ==> AttnHonest(t, s)
  {
  }

  lemma {:induction false} GaveUpLocal(s: Side, s': Side, e: Endpoint)
    requires AttnLocal(s) && GaveUp(e, s)
    requires SameHistory(s, s'.(failed := s.failed, everFailed := s.everFailed)) && s'.failed && s'.everFailed
    requires s'.ep.connections == e.connections && s'.known == (s.known || s.peerId in e.connections)
    ensures AttnLocal(s')
  {
  }

  // ---- sending, hearing and settling ----------------------------------------------------------

  /** A connection that sends a new attention, and the side it belongs to. */
  ghost predicate Asks(s: Side, s': Side, m: Message, now: Micros) {
    && Alive(s) && Conn(s).attnInFlight.None? && s.known && s'.known && s'.peerId == s.peerId && s'.peerAddr == s.peerAddr
    && s'.ep.connections == s.ep.connections[s.peerId := SendAttentionOn(Conn(s), m.code, m.data, now).conn]
    && s'.asked == s.asked + [m] && s'.slot == s.slot + [s.acked]
    && s'.acked == s.acked && s'.heard == s.heard && s'.heardOrd == s.heardOrd
    && s'.failed == s.failed && s'.everFailed == s.everFailed
  }

  lemma {:induction false} TakesAnother(s: Side, act: Action)
    requires Local(s) && TakesAttention(s, act)
    ensures Asks(s, Act(s, act), Message(act.code, act.data), act.now)
    ensures EpAfter(s, act).outbox == [(Conn(s).remote, AttentionPacket(Conn(s), act.code, act.data))]
  {
    assert EpAfter(s, act) == Update(s.ep, s.peerId, SendAttentionOn(Conn(s), act.code, act.data, act.now));
    assert s.heard + [] == s.heard;
  }

  lemma {:induction false} AskedAdvances(s: Side, s': Side, peer: Side, m: Message, now: Micros)
    requires AttnLocal(s) && Asks(s, s', m, now) && |peer.slot| == |peer.asked| && HeardFrom(s, peer)
    requires s.acked <= |peer.heard|
    ensures AttnAdvances(s, s', peer, StampAll(s', [(Conn(s).remote, AttentionPacket(Conn(s), m.code, m.data))]))
  {
    var c := Conn(s);
    assert AttnConn(c, s);
    assert Carries(AttentionPacket(c, m.code, m.data), s', |s.asked|, s.acked);
    assert AttnConn(Conn(s'), s');
  }

  lemma {:induction false} AttendKeepsAttention(s: Side, peer: Side, out: set<Stamped>, inbox: set<Stamped>,
      act: Action)
    requires AttnBoth(s, peer, out, inbox) && Local(s) && act.Attend?
    ensures AttnAdvances(s, Act(s, act), peer, Sent(s, act))
  {
    if TakesAttention(s, act) {
      TakesAnother(s, act);
      AskedAdvances(s, Act(s, act), peer, Message(act.code, act.data), act.now);
    } else {
      QuietAdvances(s, peer, out, inbox, act);
    }
  }

  /** An attention message in transit is fresh at the receiver exactly when its sequence is
      the number of attentions the receiver has heard. */
  lemma {:induction false} FreshMeansNext(s: Side, peer: Side, t: Stamped)
    requires AttnLocal(s) && AttnLocal(peer) && Alive(s) && peer.acked <= |s.heard|
    requires AttnHonest(t, peer) && t.p.attention && !t.p.Control() && Timely(s, t)
    ensures FreshAttention(Conn(s), t.p) <==> t.attnAt == |s.heard|
  {
    assert t.attnAt <= peer.acked;
    if t.attnAt < |s.heard| { LowSub(|s.heard|, t.attnAt); }
  }

  /** What the message in transit says when it is heard. */
  lemma {:induction false} HeardMessage(s: Side, peer: Side, t: Stamped)
    requires Local(s) && Alive(s) && t.p.connId == s.peerId && Carries(t.p, peer, t.attnOrd, t.attnAt)
    ensures var e := HandleAttention(s.ep, t.p);
            && e.events == (if FreshAttention(Conn(s), t.p)
                            then [Attention(s.peerId, peer.asked[t.attnOrd].code, peer.asked[t.attnOrd].data)] else [])
            && e.outbox == ToRemote(TakeAttention(Conn(s), t.p).conn.remote, TakeAttention(Conn(s), t.p).out)
            && e.connections == s.ep.connections[s.peerId := TakeAttention(Conn(s), t.p).conn]
  {
    var m := peer.asked[t.attnOrd];
    ReadWriteU16(m.code, m.data);
    assert t.p.payload[2..] == m.data;
  }

  lemma {:induction false} HearingAdvances(s: Side, peer: Side, out: set<Stamped>, inbox: set<Stamped>, act: Action)
    requires Both(s, peer, out, inbox) && AttnBoth(s, peer, out, inbox)
    requires act.Deliver? && Enabled(s, inbox, act) && act.t.p.attention && !act.t.p.Control()
    ensures AttnAdvances(s, Act(s, act), peer, Sent(s, act))
  {
    assert EpAfter(s, act) == HandleAttention(s.ep, act.t.p);
    if !Alive(s) {
      QuietAdvances(s, peer, out, inbox, act);
    } else {
      MessageArrives(s, peer, act);
    }
  }

  lemma {:induction false} MessageArrives(s: Side, peer: Side, act: Action)
    requires Local(s) && AttnLocal(s) && AttnLocal(peer) && Alive(s) && act.Deliver? && Timely(s, act.t)
    requires act.t.p.attention && !act.t.p.Control() && act.t.p.connId == s.peerId
    requires EpAfter(s, act) == HandleAttention(s.ep, act.t.p)
    requires AttnHonest(act.t, peer) && HeardFrom(s, peer) && peer.acked <= |s.heard| && s.acked <= |peer.heard|
    ensures AttnAdvances(s, Act(s, act), peer, Sent(s, act))
  {
    var s', t := Act(s, act), act.t;
    MessageHistory(s, peer, act);
    FreshMeansNext(s, peer, t);
    HeardGrows(s, s', peer, t, FreshAttention(Conn(s), t.p));
    HearingLocal(s, s', t.p);
    HearingSent(s, s', t.p);
  }

  /** What the message adds to the history of the side it reaches. */
  lemma {:induction false} MessageHistory(s: Side, peer: Side, act: Action)
    requires Local(s) && Alive(s) && act.Deliver? && EpAfter(s, act) == HandleAttention(s.ep, act.t.p)
    requires act.t.p.connId == s.peerId && Carries(act.t.p, peer, act.t.attnOrd, act.t.attnAt)
    ensures var s', t := Act(s, act), act.t;
            var isNew := FreshAttention(Conn(s), t.p);
            && Alive(s') && s'.known && s'.peerAddr == s.peerAddr && Conn(s') == TakeAttention(Conn(s), t.p).conn
            && SameHistory(s, s'.(heard := s.heard, heardOrd := s.heardOrd))
            && s'.heard == s.heard + (if isNew then [peer.asked[t.attnOrd]] else [])
            && s'.heardOrd == s.heardOrd + (if isNew then [t.attnOrd] else [])
            && EpAfter(s, act).outbox == ToRemote(Conn(s').remote, TakeAttention(Conn(s), t.p).out)
  {
    HeardMessage(s, peer, act.t);
    var m := peer.asked[act.t.attnOrd];
    OneMessage(Attention(s.peerId, m.code, m.data));
    assert !FailedIn([]);
  }

  lemma {:induction false} OneMessage(ev: AdspEvent)
    requires ev.Attention? || ev.AttentionAcked?
    ensures HeardIn([ev]) == if ev.Attention? then [Message(ev.code, ev.data)] else []
    ensures AckedIn([ev]) == (if ev.AttentionAcked? then 1 else 0) && !FailedIn([ev])
  {
    assert [ev][1..] == [];
  }

  lemma {:induction false} HeardGrows(s: Side, s': Side, peer: Side, t: Stamped, isNew: bool)
    requires |peer.slot| == |peer.asked| && HeardFrom(s, peer) && t.attnOrd < |peer.asked|
    requires isNew ==> peer.slot[t.attnOrd] == |s.heard|
    requires s'.heard == s.heard + (if isNew then [peer.asked[t.attnOrd]] else [])
    requires s'.heardOrd == s.heardOrd + (if isNew then [t.attnOrd] else [])
    ensures HeardFrom(s', peer)
  {
  }

  /** The receiver's own state after a message: one more heard if it was fresh. */
  lemma {:induction false} HearingLocal(s: Side, s': Side, p: Packet)
    requires AttnLocal(s) && Alive(s) && Alive(s') && |p.payload| >= 2 && s'.known == s.known && s.known
    requires Conn(s') == TakeAttention(Conn(s), p).conn
    requires SameHistory(s, s'.(heard := s.heard, heardOrd := s.heardOrd))
    requires |s'.heard| == |s.heard| + (if FreshAttention(Conn(s), p) then 1 else 0)
    ensures AttnLocal(s')
  {
    assert AttnConn(Conn(s), s);
    LowAdd(|s.heard|, 1);
    assert AttnConn(Conn(s'), s');
  }

  lemma {:induction false} HearingSent(s: Side, s': Side, p: Packet)
    requires |s'.slot| == |s'.asked| && Alive(s') && AttnConn(Conn(s'), s') && |p.payload| >= 2 && Alive(s)
    requires Conn(s') == TakeAttention(Conn(s), p).conn
    ensures forall t :: t in StampAll(s', ToRemote(Conn(s').remote, TakeAttention(Conn(s), p).out)) ==> AttnHonest(t, s')
  {
    var out := TakeAttention(Conn(s), p).out;
    forall t | t in StampAll(s', ToRemote(Conn(s').remote, out))
      ensures AttnHonest(t, s')
    {
      assert t.p == out[0];
    }
  }

  /** An acknowledgement that matches proves its attention's place has been heard. */
  lemma {:induction false} SettlingAdvances(s: Side, peer: Side, out: set<Stamped>, inbox: set<Stamped>, act: Action)
    requires Both(s, peer, out, inbox) && AttnBoth(s, peer, out, inbox)
    requires act.Deliver? && Enabled(s, inbox, act) && act.t.p.attention && act.t.p.Control()
    ensures AttnAdvances(s, Act(s, act), peer, Sent(s, act))
    ensures Act(s, act).acked > s.acked ==>
      && Act(s, act).acked == s.acked + 1 && s.acked < |peer.heard|
      && Alive(s) && Conn(s).attnInFlight.Some?
  {
    var p := act.t.p;
    assert EpAfter(s, act) == HandleAttentionAck(s.ep, p);
    if Alive(s) && AcksAttention(Conn(s), p) {
      AckedPlace(s, peer, act.t);
      AcknowledgementArrives(s, peer, act);
    } else {
      QuietAdvances(s, peer, out, inbox, act);
    }
  }

  lemma {:induction false} AcknowledgementArrives(s: Side, peer: Side, act: Action)
    requires Local(s) && AttnLocal(s) && Alive(s) && act.Deliver? && AcksAttention(Conn(s), act.t.p)
    requires act.t.p.connId == s.peerId && EpAfter(s, act) == HandleAttentionAck(s.ep, act.t.p)
    requires |peer.slot| == |peer.asked| && HeardFrom(s, peer) && s.acked < |peer.heard|
    ensures AttnAdvances(s, Act(s, act), peer, Sent(s, act)) && Act(s, act).acked == s.acked + 1
  {
    var s', e := Act(s, act), EpAfter(s, act);
    assert e.events == [AttentionAcked(s.peerId)] && e.outbox == [];
    OneMessage(AttentionAcked(s.peerId));
    assert s.heard + [] == s.heard;
    SettledLocal(s, s');
  }

  lemma {:induction false} SettledLocal(s: Side, s': Side)
    requires AttnLocal(s) && Alive(s) && Conn(s).attnInFlight.Some? && Alive(s') && s'.known && s.known
    requires Conn(s') == RetireAttention(Conn(s)) && s'.acked == s.acked + 1 && !s'.failed
    requires s'.asked == s.asked && s'.slot == s.slot && s'.heard == s.heard && s'.everFailed == s.everFailed
    ensures AttnLocal(s')
  {
    assert AttnConn(Conn(s), s);
    LowAdd(s.acked, 1);
    assert AttnConn(Conn(s'), s');
  }

  lemma {:induction false} AckedPlace(s: Side, peer: Side, t: Stamped)
    requires AttnLocal(s) && AttnLocal(peer) && HeardFrom(peer, s) && Alive(s)
    requires AttnHonest(t, peer) && t.p.attention && t.p.Control() && Timely(s, t)
    requires AcksAttention(Conn(s), t.p)
    ensures s.acked < |peer.heard|
  {
    assert AttnConn(Conn(s), s);
    if |peer.heard| > 0 {
      assert s.slot[peer.heardOrd[|peer.heard| - 1]] == |peer.heard| - 1;
    }
    assert t.attnAckAt <= |peer.heard| <= s.acked + 1;
    LowAdd(s.acked, 1);
    if t.attnAckAt < s.acked + 1 { LowSub(s.acked + 1, t.attnAckAt); }
  }

  lemma {:induction false} ActKeepsAttention(s: Side, peer: Side, out: set<Stamped>, inbox: set<Stamped>, act: Action)
    requires Both(s, peer, out, inbox) && AttnBoth(s, peer, out, inbox) && Enabled(s, inbox, act)
    ensures AttnAdvances(s, Act(s, act), peer, Sent(s, act))
  {
    if act.Attend? {
      AttendKeepsAttention(s, peer, out, inbox, act);
    } else if act.Tick? {
      TickAttention(s, act.now);
      if GivesUp(s, act.now) {
        GaveUpAdvances(s, peer, out, inbox, act);
      } else {
        QuietAdvances(s, peer, out, inbox, act);
      }
    } else if act.Deliver? && act.t.p.attention {
      if act.t.p.Control() {
        SettlingAdvances(s, peer, out, inbox, act);
      } else {
        HearingAdvances(s, peer, out, inbox, act);
      }
    } else {
      OthersAreQuiet(s, peer, out, inbox, act);
      QuietAdvances(s, peer, out, inbox, act);
    }
  }

  /** What has nothing to do with attentions. */
  lemma {:induction false} OthersAreQuiet(s: Side, peer: Side, out: set<Stamped>, inbox: set<Stamped>, act: Action)
    requires Both(s, peer, out, inbox) && Enabled(s, inbox, act) && !act.Attend? && !act.Tick?
    requires act.Deliver? ==> !act.t.p.attention
    ensures Quiet(EpAfter(s, act), s)
  {
    match act
    case Write(_, _) => WriteIsQuiet(s, peer, out, inbox, act);
    case SetWindow(_) => WindowIsQuiet(s, act);
    case Deliver(t, _) =>
      if IsStream(t.p) {
        StreamIsQuiet(s, peer, out, inbox, act);
      } else {
        HandshakeIsQuiet(s, peer, out, inbox, act);
      }
    case _ =>
  }

  // ---- the theorems ---------------------------------------------------------------------------

  lemma {:induction false} ActKeepsAttnBoth(s: Side, peer: Side, out: set<Stamped>, inbox: set<Stamped>, act: Action)
    requires Both(s, peer, out, inbox) && AttnBoth(s, peer, out, inbox) && Enabled(s, inbox, act)
    ensures AttnBoth(Act(s, act), peer, out + Sent(s, act), inbox)
  {
    ActKeepsAttention(s, peer, out, inbox, act);
    AdvancingKeepsAttnBoth(s, Act(s, act), peer, out, inbox, Sent(s, act));
  }

  lemma {:induction false} AttnBothSwaps(s: Side, peer: Side, out: set<Stamped>, inbox: set<Stamped>)
    requires AttnBoth(s, peer, out, inbox)
    ensures AttnBoth(peer, s, inbox, out)
  {
  }

  lemma {:induction false} NextKeepsAttention(s: System, s': System)
    requires AttnInv(s) && Next(s, s')
    ensures AttnInv(s')
  {
    NextKeepsInv(s, s');
    var act :| StepA(s, s', act) || StepB(s, s', act);
    if StepA(s, s', act) {
      ActKeepsAttnBoth(s.a, s.b, s.toB, s.toA, act);
    } else {
      BothSwaps(s.a, s.b, s.toB, s.toA);
      AttnBothSwaps(s.a, s.b, s.toB, s.toA);
      ActKeepsAttnBoth(s.b, s.a, s.toA, s.toB, act);
      AttnBothSwaps(s'.b, s'.a, s'.toA, s'.toB);
    }
  }

  lemma {:induction false} RunKeepsAttention(run: seq<System>, n: nat)
    requires IsRun(run) && n < |run|
    ensures AttnInv(run[n])
  {
    if n > 0 {
      RunKeepsAttention(run, n - 1);
      NextKeepsAttention(run[n - 1], run[n]);
    }
  }

  /** At most once, always: no two Attention events come from the same call of
      `send_attention`, and each event is the message of the call it comes from. */
  lemma {:induction false} AttentionsAtMostOnce(run: seq<System>, n: nat)
    requires IsRun(run) && n < |run|
    ensures var s := run[n];
            && |s.b.heardOrd| == |s.b.heard|
            && (forall i, j :: 0 <= i < j < |s.b.heard| ==> s.b.heardOrd[i] != s.b.heardOrd[j])
            && (forall i :: 0 <= i < |s.b.heard| ==>
                  s.b.heardOrd[i] < |s.a.asked| && s.b.heard[i] == s.a.asked[s.b.heardOrd[i]])
  {
    RunKeepsAttention(run, n);
    var s := run[n];
    assert forall i :: 0 <= i < |s.b.heard| ==> s.a.slot[s.b.heardOrd[i]] == i;
  }

  /** Until the first AttentionFailed: the messages heard are a prefix of those accepted, in
      order, and no more were reported acknowledged than were heard. */
  lemma {:induction false} AttentionsInOrderUntilFailure(run: seq<System>, n: nat)
    requires IsRun(run) && n < |run| && !run[n].a.everFailed
    ensures var s := run[n];
            s.b.heard <= s.a.asked && s.a.acked <= |s.b.heard|
  {
    RunKeepsAttention(run, n);
    var s := run[n];
    forall i | 0 <= i < |s.b.heard|
      ensures i < |s.a.asked| && s.b.heard[i] == s.a.asked[i]
    {
      assert s.a.slot[s.b.heardOrd[i]] == i;
    }
    if |s.b.heard| > 0 {
      var last := |s.b.heard| - 1;
      var message := s.b.heard[last];
    }
  }

  // ---- when an acknowledgement can be believed -------------------------------------------------

  /** The attention `send_attention` accepted as number `i` went out under the sequence that is
      acknowledged next, but is not the last to: it was given up. */
  ghost predicate GivenUp(s: Side, i: nat) {
    i + 1 < |s.asked| && i < |s.slot| && s.slot[i] == s.acked
  }

  lemma {:induction false} NextKeepsPeer(s: System, s': System)
    requires AttnInv(s) && Next(s, s') && s'.a.acked > s.a.acked
    ensures s'.b == s.b && s'.a.asked == s.a.asked && s'.a.acked == s.a.acked + 1
    ensures s.a.acked < |s.b.heard| && s.a.asked != [] && s.a.slot[|s.a.asked| - 1] == s.a.acked
  {
    var act :| StepA(s, s', act) || StepB(s, s', act);
    assert StepA(s, s', act);
    AckedOnlyBySettling(s.a, s.b, s.toB, s.toA, act);
    assert AttnConn(Conn(s.a), s.a);
  }

  /** Which attention was heard under the sequence being acknowledged. */
  lemma {:induction false} HeardUnderSequence(s: Side, peer: Side)
    requires AttnLocal(s) && HeardFrom(peer, s) && s.acked < |peer.heard|
    requires s.asked != [] && s.slot[|s.asked| - 1] == s.acked
    ensures var last := |s.asked| - 1;
            && (peer.heardOrd[s.acked] == last <==> last in peer.heardOrd)
            && (last in peer.heardOrd <==> forall i :: GivenUp(s, i) ==> i !in peer.heardOrd)
  {
    var ord := peer.heardOrd[s.acked];
    assert s.slot[ord] == s.acked;
    assert ord in peer.heardOrd;
    forall i | i in peer.heardOrd && i < |s.slot| && s.slot[i] == s.acked ensures i == ord {
      var j :| 0 <= j < |peer.heardOrd| && peer.heardOrd[j] == i;
      assert s.slot[peer.heardOrd[j]] == j;
    }
    if ord != |s.asked| - 1 { assert GivenUp(s, ord); }
  }

  /** Exactly when AttentionAcked can be believed. The step that raises it finds the message in
      flight already delivered if and only if none of the attentions given up since the last
      acknowledgement was delivered; they all went out under the one sequence. */
  lemma {:induction false} AckedMeansHeard(run: seq<System>, n: nat)
    requires IsRun(run) && n + 1 < |run| && run[n + 1].a.acked > run[n].a.acked
    ensures var s, s' := run[n], run[n + 1];
            && s'.a.acked == s.a.acked + 1 <= |s'.b.heard| == |s'.b.heardOrd|
            && s'.a.asked == s.a.asked != []
            && (s'.b.heardOrd[s.a.acked] == |s.a.asked| - 1 <==>
                  forall i :: GivenUp(s.a, i) ==> i !in s'.b.heardOrd)
            && (|s.a.asked| - 1 in s'.b.heardOrd <==> s'.b.heardOrd[s.a.acked] == |s.a.asked| - 1)
            && (|s.a.asked| - 1 in s'.b.heardOrd ==> s'.b.heard[s.a.acked] == s.a.asked[|s.a.asked| - 1])
            && (!s.a.failed ==> |s.a.asked| - 1 in s'.b.heardOrd)
  {
    RunKeepsAttention(run, n);
    assert Next(run[n], run[n + 1]);
    var s := run[n];
    NextKeepsPeer(s, run[n + 1]);
    HeardUnderSequence(s.a, s.b);
    if !s.a.failed { NoneGivenUp(s, run[n + 1]); }
  }

  /** Without a failure since the last acknowledgement nothing was given up. */
  lemma {:induction false} NoneGivenUp(s: System, s': System)
    requires AttnInv(s) && Next(s, s') && s'.a.acked > s.a.acked && !s.a.failed
    ensures forall i :: !GivenUp(s.a, i)
  {
    var act :| StepA(s, s', act) || StepB(s, s', act);
    assert StepA(s, s', act);
    AckedOnlyBySettling(s.a, s.b, s.toB, s.toA, act);
    assert AttnConn(Conn(s.a), s.a);
  }

  lemma {:induction false} AckedOnlyBySettling(s: Side, peer: Side, out: set<Stamped>, inbox: set<Stamped>, act: Action)
    requires Both(s, peer, out, inbox) && AttnBoth(s, peer, out, inbox) && Enabled(s, inbox, act)
    requires Act(s, act).acked > s.acked
    ensures Act(s, act).acked == s.acked + 1 && s.acked < |peer.heard|
    ensures Alive(s) && Conn(s).attnInFlight.Some?
    ensures Act(s, act).asked == s.asked
  {
    if act.Attend? {
      AttendRaisesNothing(s, act);
    } else if act.Tick? {
      TickAttention(s, act.now);
      UnheardCounts(EpAfter(s, act).events);
    } else if act.Deliver? && act.t.p.attention {
      if act.t.p.Control() {
        SettlingAdvances(s, peer, out, inbox, act);
      } else {
        UnackedByMessage(s, act.t.p);
      }
    } else {
      OthersAreQuiet(s, peer, out, inbox, act);
      QuietHistory(s, act);
    }
  }

  lemma {:induction false} AttendRaisesNothing(s: Side, act: Action)
    requires Local(s) && act.Attend?
    ensures Act(s, act).acked == s.acked
  {
  }

  lemma {:induction false} UnackedByMessage(s: Side, p: Packet)
    requires Local(s)
    ensures AckedIn(HandleAttention(s.ep, p).events) == 0
  {
  }

  /** The attention after one that was given up. The timer finds the attention in flight out of
      retries and raises AttentionFailed; the sequence stays where it was. The next attention goes
      out under that same sequence, so a receiver takes it for new if and only if it never heard
      the one given up. Otherwise it is taken for a repetition and acknowledged all the same. */
  lemma {:induction false} SwallowedAfterFailure(e: Endpoint, key: u16, now: Micros, d: Connection, next: Message,
      later: Micros)
    requires key in e.connections && AttnDue(e.connections[key], now)
    requires e.connections[key].attnInFlight.value.retries + 1 > MAX_ATTN_RETRIES
    requires e.connections[key].attnInFlight.value.seqNo == e.connections[key].attnSendSeq
    requires e.connections[key].attnInFlight.value.packet.firstByteSeq == e.connections[key].attnSendSeq
    requires |e.connections[key].attnInFlight.value.packet.payload| >= 2
    ensures var lost := e.connections[key].attnInFlight.value.packet;
            var e' := PollAttention(e, key, now);
            var heard := TakeAttention(d, lost).conn;
            && e'.events == e.events + [AttentionFailed(key)]
            && key in e'.connections && e'.connections[key].attnInFlight.None?
            && var again := SendAttentionOn(e'.connections[key], next.code, next.data, later);
            && (FreshAttention(d, lost) <==> FreshAttention(d, again.out[0]))
            && (FreshAttention(d, lost) ==>
                  && !FreshAttention(heard, again.out[0])
                  && AcksAttention(again.conn, TakeAttention(heard, again.out[0]).out[0]))
  {
    var c := e.connections[key];
    var gaveUp := PollAttention(e, key, now).connections[key];
    assert gaveUp == c.(attnInFlight := None);
    var again := SendAttentionOn(gaveUp, next.code, next.data, later);
    assert again.out[0].firstByteSeq == c.attnSendSeq;
  }
}
