/** What opening and closing must do: a request that reaches a listener, the first or a repeated one,
    leads in two more packets to a connection both ends agree on; and a close reaches the other end. */
module AdspHandshake {
  import opened Words
  import opened AdspSpec
  import opened AdspStream
  import opened AdspNetwork
  import opened AdspLine
  import opened AdspFlow
  import opened AdspHearing

  /** Nothing written, sent, received or heard so far, and nothing waiting in a queue. */
  ghost predicate Blank(s: Side) {
    && s.ep.outbox == [] && s.ep.events == [] && s.tape == [] && s.got == []
    && s.asked == [] && s.acked == 0 && s.heard == []
  }

  /** An end that has asked for a connection and has no answer yet. */
  ghost predicate Dialing(a: Side) {
    && Blank(a) && a.ep.connections == map[]
    && a.ep.pendingOpens.Keys == {a.id} && a.ep.pendingOpens[a.id].remote == a.peerAddr
  }

  /** A listener that has not heard of the other end, or has answered it and heard no more. */
  ghost predicate Ready(b: Side, a: Side) {
    && Blank(b) && b.ep.listening && b.id % 2 == 1 && b.peerId == a.id
    && (b.ep.connections == map[] || FreshEnd(b, a))
  }

  function Request(a: Side): Packet {
    OpenPacket(OpenConnRequest, a.id, a.ep.recvWindow, 0)
  }

  lemma {:induction false} OneToward(to: Address, p: Packet)
    ensures Toward([(to, p)], to) == [p]
  {
    TowardRemote(to, [p]);
    assert ToRemote(to, [p]) == [(to, p)];
  }

  /** Dialing puts the request on the line. */
  lemma {:induction false} DialAsks(a: Side, now: Micros)
    requires FreshSide(a)
    ensures Dialing(Act(a, Dial(now))) && SentNow(a, Dial(now)) == [Request(a)]
    ensures Act(a, Dial(now)).ep.recvWindow == a.ep.recvWindow
  {
    OneToward(a.peerAddr, Request(a));
    assert EpAfter(a, Dial(now)).outbox == [(a.peerAddr, Request(a))];
  }

  /** And so does every retry. */
  lemma {:induction false} RetryAsks(a: Side, now: Micros)
    requires Dialing(a) && OpenRetries(a.ep.pendingOpens[a.id], now)
    ensures Dialing(Act(a, Tick(now))) && SentNow(a, Tick(now)) == [Request(a)]
    ensures Act(a, Tick(now)).ep.recvWindow == a.ep.recvWindow
  {
    var e := PollOpens(a.ep, now);
    AscendingSingleton(a.id);
    PollSingle(a.ep, a.peerId, now);
    var opens := a.ep.pendingOpens;
    assert OpenRequests(opens, [a.id], a.ep.recvWindow, now)
      == OpenRequests(opens, [], a.ep.recvWindow, now) + [(a.peerAddr, Request(a))];
    assert OpenFailures(opens, [a.id], now) == OpenFailures(opens, [], now) + [];
    assert e.outbox == [(a.peerAddr, Request(a))] && e.events == [];
    assert e.pendingOpens.Keys == {a.id};
    OneToward(a.peerAddr, Request(a));
  }

  /** An event that is neither data nor an attention leaves every history as it was. */
  lemma {:induction false} SaysNothing(s: Side, act: Action, evs: seq<AdspEvent>)
    requires Blank(s) && act.Deliver? && EpAfter(s, act).events == evs
    requires |evs| <= 1 && forall ev :: ev in evs ==> ev.Opened? || ev.Closed?
    ensures Blank(Act(s, act))
  {
    NoDataTokens(evs);
    if evs != [] {
      assert evs == [evs[0]] && evs[0] in evs;
      OneEvent(evs[0]);
    }
  }

  /** The listener opens the connection under the caller's id, or has done so, and answers. */
  lemma {:induction false} RequestIsAnswered(a: Side, b: Side, now: Micros)
    requires Dialing(a) && Ready(b, a)
    ensures var act := Arrival(Request(a), now);
            var b' := Act(b, act);
            && FreshEnd(b', a) && Blank(b') && b'.id == b.id && b'.ep.recvWindow == b.ep.recvWindow
            && b'.peerId == b.peerId && b'.peerAddr == b.peerAddr
            && SentNow(b, act) == [OpenPacket(OpenConnReqAck, b.id, b.ep.recvWindow, a.id)]
            && EpAfter(b, act).events
                 == if b.ep.connections == map[] then [Opened(a.id, b.peerAddr, true, None)] else []
  {
    var act := Arrival(Request(a), now);
    var reply := OpenPacket(OpenConnReqAck, b.id, b.ep.recvWindow, a.id);
    assert EpAfter(b, act) == HandleOpenRequest(b.ep, b.peerAddr, Request(a), now, b.id);
    assert EpAfter(b, act).outbox == [(b.peerAddr, reply)];
    OneToward(b.peerAddr, reply);
    SaysNothing(b, act, EpAfter(b, act).events);
  }

  /** The caller, once answered, has the connection under the listener's id, and says so. */
  lemma {:induction false} AnswerJoins(a: Side, b: Side, now: Micros)
    requires Dialing(a) && a.peerId == b.id
    ensures var act := Arrival(OpenPacket(OpenConnReqAck, b.id, b.ep.recvWindow, a.id), now);
            var a' := Act(a, act);
            && FreshEnd(a', b) && Blank(a') && a'.id == a.id && a'.ep.recvWindow == a.ep.recvWindow
            && a'.peerId == a.peerId && a'.peerAddr == a.peerAddr
            && SentNow(a, act) == [OpenPacket(OpenConnAck, a.id, a.ep.recvWindow, b.id)]
            && EpAfter(a, act).events == [Opened(b.id, a.peerAddr, false, Some(a.id))]
  {
    var p := OpenPacket(OpenConnReqAck, b.id, b.ep.recvWindow, a.id);
    var act, reply := Arrival(p, now), OpenPacket(OpenConnAck, a.id, a.ep.recvWindow, b.id);
    DestOfOpenPacket(OpenConnReqAck, b.id, b.ep.recvWindow, a.id);
    assert EpAfter(a, act) == HandleOpenAck(a.ep, a.peerAddr, p, now);
    assert EpAfter(a, act).outbox == [(a.peerAddr, reply)];
    OneToward(a.peerAddr, reply);
    SaysNothing(a, act, EpAfter(a, act).events);
  }

  /** The three-way open. A request to a listener, answered, and the answer acknowledged: both ends have
      the connection, each under the other's id and with the other's address and window, ready for
      everything `AdspFlow` and `AdspHearing` promise; and each application was told once. */
  lemma {:induction false} HandshakeJoins(a: Side, b: Side, now: Micros)
    requires Dialing(a) && Ready(b, a) && a.peerId == b.id
    ensures var asked := Arrival(Request(a), now);
            var b' := Act(b, asked);
            && |SentNow(b, asked)| == 1
            && var answered := Arrival(SentNow(b, asked)[0], now);
               var a' := Act(a, answered);
               && |SentNow(a, answered)| == 1
               && var confirmed := Arrival(SentNow(a, answered)[0], now);
                  && Silent(Line(a', Act(b', confirmed), [], [])) && SentNow(b', confirmed) == []
                  && EpAfter(a, answered).events == [Opened(b.id, a.peerAddr, false, Some(a.id))]
                  && (b.ep.connections == map[] ==>
                        EpAfter(b, asked).events == [Opened(a.id, b.peerAddr, true, None)])
                  && EpAfter(b', confirmed).events == []
  {
    RequestIsAnswered(a, b, now);
    AnswerJoins(a, b, now);
    var b' := Act(b, Arrival(Request(a), now));
    ConfirmationStays(b', OpenPacket(OpenConnAck, a.id, a.ep.recvWindow, b.id), now);
  }

  lemma {:induction false} ConfirmationStays(b: Side, p: Packet, now: Micros)
    requires Joined(b) && Blank(b) && p.descriptor == OpenConnAck && !p.attention && p.connId == b.peerId
    ensures var act := Arrival(p, now);
            && EpAfter(b, act) == b.ep && SentNow(b, act) == [] && Act(b, act).ep == b.ep
            && Blank(Act(b, act)) && Act(b, act).peerId == b.peerId && Act(b, act).peerAddr == b.peerAddr
            && Act(b, act).id == b.id
  {
  }

  /** An answer repeated, because its confirmation was lost, is confirmed again and changes nothing. */
  lemma {:induction false} RepeatedAnswerConfirmed(a: Side, p: Packet, now: Micros)
    requires Joined(a)
    requires p.descriptor == OpenConnReqAck && !p.attention && p.connId == a.peerId && DestConnId(p) == a.id
    ensures var act := Arrival(p, now);
            && SentNow(a, act) == [OpenPacket(OpenConnAck, a.id, a.ep.recvWindow, a.peerId)]
            && EpAfter(a, act).connections == a.ep.connections && EpAfter(a, act).events == []
  {
    var reply := OpenPacket(OpenConnAck, a.id, a.ep.recvWindow, a.peerId);
    assert EpAfter(a, Arrival(p, now)).outbox == [(a.peerAddr, reply)];
    OneToward(a.peerAddr, reply);
  }

  /** A peer that answers under another id than before takes the connection with it: whole, under the new
      key and no longer under the old, confirmed to the peer and announced to the application. */
  lemma {:induction false} NewIdTakesConnection(e: Endpoint, src: Address, p: Packet, now: Micros, stale: u16)
    requires p.descriptor == OpenConnReqAck && p.connId !in e.connections && DestConnId(p) !in e.pendingOpens
    requires stale in e.connections && e.connections[stale].ourConnId == DestConnId(p)
    requires forall k :: k in e.connections && k != stale ==> e.connections[k].ourConnId != DestConnId(p)
    ensures var e' := HandleOpenAck(e, src, p, now);
            && e'.connections.Keys == e.connections.Keys - {stale} + {p.connId}
            && e'.connections[p.connId] == e.connections[stale]
            && (forall k :: k in e.connections && k != stale ==> e'.connections[k] == e.connections[k])
            && e'.events == e.events + [Opened(p.connId, src, false, Some(DestConnId(p)))]
            && e'.outbox == e.outbox + [(src, OpenPacket(OpenConnAck, DestConnId(p), e.recvWindow, p.connId))]
  {
    assert IsStaleKey(e.connections, DestConnId(p), stale);
  }

  /** A refusal ends the open it refuses, and the application is told; a refusal of no open of ours is
      ignored. */
  lemma {:induction false} RefusalIsTold(e: Endpoint, src: Address, p: Packet, now: Micros, drawn: u16)
    requires p.descriptor == OpenConnDeny && !p.attention
    ensures var e', ours := HandleDatagram(e, src, p, now, drawn), DestConnId(p);
            if ours in e.pendingOpens then
              e' == e.(pendingOpens := e.pendingOpens - {ours}, events := e.events + [OpenFailed(ours)])
            else e' == e
  {
  }

  /** A close ends the connection at both ends, and the other application is told. */
  lemma {:induction false} CloseReaches(a: Side, b: Side, now: Micros)
    requires Joined(a) && Joined(b) && a.peerId == b.id && b.peerId == a.id
    ensures !Alive(Act(a, Hangup)) && |SentNow(a, Hangup)| == 1
    ensures var act := Arrival(SentNow(a, Hangup)[0], now);
            && !Alive(Act(b, act)) && EpAfter(b, act).events == [Closed(b.peerId)] && SentNow(b, act) == []
  {
    var c := Conn(a);
    var p := Packet(CloseAdvice, c.ourConnId, c.sendSeq, c.recvSeq, 0, false, false, false, []);
    assert EpAfter(a, Hangup).outbox == [(a.peerAddr, p)];
    OneToward(a.peerAddr, p);
  }
}
