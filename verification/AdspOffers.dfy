/** What a receiving side offers: every packet it sends carries its window, and a step brings it at
    most one packet's bytes. */
module AdspOffers {
  import opened Words
  import opened AdspSpec
  import opened AdspStream
  import opened AdspNetwork
  import opened AdspWindow

  // ---- the receiving side's steps ---------------------------------------------------------------------

  /** A packet that carries a window carries this one. */
  predicate Advertises(p: Packet, w: nat) {
    IsStream(p) || (!p.attention && p.descriptor in {OpenConnRequest, OpenConnAck, OpenConnReqAck}) ==> p.recvWindow == w
  }

  ghost predicate AllAdvertise(outbox: seq<(Address, Packet)>, w: nat) {
    forall m :: m in outbox ==> Advertises(m.1, w)
  }

  lemma {:induction false} ResendAdvertises(c: Connection, window: u16, i: nat)
    requires i <= |c.flightBuffer|
    ensures forall p :: p in ResendFrom(c, window, i) ==> Advertises(p, window)
    decreases |c.flightBuffer| - i
  {
    if i < |c.flightBuffer| { ResendAdvertises(c, window, i + Min(ADSP_MAX_DATA, |c.flightBuffer| - i)); }
  }

  lemma {:induction false} OpenRequestsAdvertise(opens: map<u16, PendingOpen>, ids: seq<u16>, window: u16, now: Micros)
    requires forall k :: k in ids ==> k in opens
    ensures forall m :: m in OpenRequests(opens, ids, window, now) ==> Advertises(m.1, window)
    decreases |ids|
  {
    if ids != [] { OpenRequestsAdvertise(opens, ids[..|ids| - 1], window, now); }
  }

  lemma {:induction false} TickAdvertises(s: Side, now: Micros)
    requires Local(s)
    ensures AllAdvertise(Poll(s.ep, now).outbox, s.ep.recvWindow) && Poll(s.ep, now).recvWindow == s.ep.recvWindow
  {
    PollSingle(s.ep, s.peerId, now);
    OpenRequestsAdvertise(s.ep.pendingOpens, Ascending(s.ep.pendingOpens.Keys), s.ep.recvWindow, now);
    var e1 := PollOpens(s.ep, now);
    assert AllAdvertise(e1.outbox, s.ep.recvWindow);
    AttentionAdvertises(e1, s, now);
    var e2 := PollAttention(e1, s.peerId, now);
    if s.peerId in e2.connections {
      var c := e2.connections[s.peerId];
      ResendAdvertises(c.(retries := Min(c.retries + 1, 255)), e2.recvWindow, 0);
    }
    ResendTimerAdvertises(e2, s.peerId, now);
  }

  lemma {:induction false} AttentionAdvertises(e: Endpoint, s: Side, now: Micros)
    requires AllAdvertise(e.outbox, e.recvWindow)
    requires s.peerId in e.connections && e.connections[s.peerId].attnInFlight.Some? ==>
               IsAttentionFrom(e.connections[s.peerId].attnInFlight.value.packet, s)
    ensures var e' := PollAttention(e, s.peerId, now);
            AllAdvertise(e'.outbox, e.recvWindow) && e'.recvWindow == e.recvWindow
  {
  }

  lemma {:induction false} ResendTimerAdvertises(e: Endpoint, key: u16, now: Micros)
    requires AllAdvertise(e.outbox, e.recvWindow)
    requires key in e.connections ==>
               var c := e.connections[key].(retries := Min(e.connections[key].retries + 1, 255));
               forall p :: p in ResendFrom(c, e.recvWindow, 0) ==> Advertises(p, e.recvWindow)
    ensures var e' := PollStream(e, key, now);
            AllAdvertise(e'.outbox, e.recvWindow) && e'.recvWindow == e.recvWindow
  {
  }

  /** Whatever a side sends in a step carries its window as it stands then. */
  lemma {:induction false} StepAdvertises(s: Side, peer: Side, out: set<Stamped>, inbox: set<Stamped>, act: Action)
    requires Both(s, peer, out, inbox) && Enabled(s, inbox, act)
    ensures var e := EpAfter(s, act);
            && AllAdvertise(e.outbox, e.recvWindow)
            && e.recvWindow == if act.SetWindow? then act.window else s.ep.recvWindow
  {
    if act.Tick? {
      TickAdvertises(s, act.now);
    } else if act.Deliver? {
      DeliverAdvertises(s, act);
    } else {
      CallAdvertises(s, act);
    }
  }

  lemma {:induction false} SentAdvertises(r: Address, ps: seq<Packet>, w: nat)
    requires forall p :: p in ps ==> Advertises(p, w)
    ensures AllAdvertise(ToRemote(r, ps), w)
  {
  }

  lemma {:induction false} CallAdvertises(s: Side, act: Action)
    requires Local(s) && !act.Tick? && !act.Deliver?
    ensures var e := EpAfter(s, act);
            && AllAdvertise(e.outbox, e.recvWindow)
            && e.recvWindow == if act.SetWindow? then act.window else s.ep.recvWindow
  {
    if act.Write? && Alive(s) {
      var q := Queued(Conn(s), act.data, act.eom);
      var f := Pump(q, s.ep.recvWindow, None);
      PumpFromStream(q, s.ep.recvWindow, None);
      UpdatedOutbox(s.ep, s.peerId, f);
      SentAdvertises(f.conn.remote, f.out, s.ep.recvWindow);
    } else if act.SetWindow? {
      SetWindowSingle(s.ep, s.peerId, act.window);
    }
  }

  lemma {:induction false} AttentionAnswersAdvertise(s: Side, p: Packet, w: nat)
    requires Local(s)
    ensures AllAdvertise(HandleAttention(s.ep, p).outbox, w) && AllAdvertise(HandleAttentionAck(s.ep, p).outbox, w)
  {
  }

  lemma {:induction false} OpenAnswersAdvertise(s: Side, p: Packet, now: Micros)
    requires Local(s)
    ensures AllAdvertise(HandleOpenRequest(s.ep, s.peerAddr, p, now, s.id).outbox, s.ep.recvWindow)
    ensures AllAdvertise(HandleOpenAck(s.ep, s.peerAddr, p, now).outbox, s.ep.recvWindow)
    ensures HandleOpenRequest(s.ep, s.peerAddr, p, now, s.id).recvWindow == s.ep.recvWindow
    ensures HandleOpenAck(s.ep, s.peerAddr, p, now).recvWindow == s.ep.recvWindow
  {
  }

  lemma {:induction false} StreamAnswersAdvertise(s: Side, p: Packet, now: Micros)
    requires Local(s) && p.connId == s.peerId
    ensures var e := HandleStream(s.ep, p, now);
            AllAdvertise(e.outbox, s.ep.recvWindow) && e.recvWindow == s.ep.recvWindow
  {
    if Alive(s) {
      var f := HandleData(Conn(s), p, s.ep.recvWindow, now);
      HandleDataFromStream(Conn(s), p, s.ep.recvWindow, now);
      UpdatedOutbox(s.ep, s.peerId, f);
      SentAdvertises(f.conn.remote, f.out, s.ep.recvWindow);
    }
  }

  lemma {:induction false} DeliverAdvertises(s: Side, act: Action)
    requires Local(s) && act.Deliver? && act.t.p.connId == s.peerId && act.t.p.descriptor != RetransmitAdvice
    ensures AllAdvertise(EpAfter(s, act).outbox, s.ep.recvWindow) && EpAfter(s, act).recvWindow == s.ep.recvWindow
  {
    var p := act.t.p;
    if IsStream(p) {
      assert EpAfter(s, act) == HandleStream(s.ep, p, act.now);
      StreamAnswersAdvertise(s, p, act.now);
    } else if p.attention {
      AttentionAnswersAdvertise(s, p, s.ep.recvWindow);
    } else {
      OpenAnswersAdvertise(s, p, act.now);
    }
  }

  /** What a slice of the tape adds to a prefix of it: no more than the slice's bytes. */
  lemma {:induction false} SliceAdds(tape: seq<Token>, p: Packet, f: nat, r: nat)
    requires Slice(p, tape, f) && f <= r < f + SeqLen(p)
    ensures BytesBefore(tape, f + SeqLen(p)) <= BytesBefore(tape, r) + |p.payload|
  {
    BytesBetween(tape, f, r);
    BytesBetween(tape, r, f + SeqLen(p));
    BytesBetween(tape, f, f + SeqLen(p));
    ByteCountTokens(p.payload, p.eom);
  }

  lemma {:induction false} SliceHands(tape: seq<Token>, got: seq<Token>, p: Packet, f: nat, k: int)
    requires got <= tape && Slice(p, tape, f) && |p.payload| <= ADSP_MAX_DATA
    requires ByteCount(got) <= k && BytesBefore(tape, f + SeqLen(p)) <= k
    ensures var got' := tape[..NextPos(|got|, f, SeqLen(p))];
            ByteCount(got) <= ByteCount(got') <= ByteCount(got) + ADSP_MAX_DATA && ByteCount(got') <= k
  {
    var r, r' := |got|, NextPos(|got|, f, SeqLen(p));
    BytesBetween(tape, r, r');
    WholePrefix(tape, got);
    WholePrefix(tape, tape[..r']);
    if r' > r { SliceAdds(tape, p, f, r); }
  }

  /** What one packet's slice makes of a prefix of the tape. */
  lemma {:induction false} SliceArrives(c: Connection, p: Packet, tape: seq<Token>, got: seq<Token>, f: nat, k: int)
    requires c.recvSeq == Low32(|got|) && got <= tape && Slice(p, tape, f) && -HALF32 < |got| - f < HALF32
    requires |p.payload| <= ADSP_MAX_DATA && ByteCount(got) <= k && BytesBefore(tape, f + SeqLen(p)) <= k
    ensures var got' := got + EventTokens(Receive(c, p).1);
            ByteCount(got) <= ByteCount(got') <= ByteCount(got) + ADSP_MAX_DATA && ByteCount(got') <= k
  {
    ReceiveSlice(c, p, tape, f, |got|);
    assert got + EventTokens(Receive(c, p).1) == tape[..NextPos(|got|, f, SeqLen(p))];
    SliceHands(tape, got, p, f, k);
  }

  lemma {:induction false} StreamHands(s: Side, t: Stamped, tape: seq<Token>, k: int)
    requires Alive(s) && Conn(s).recvSeq == Low32(|s.got|) && s.got <= tape
    requires IsStream(t.p) && (SeqLen(t.p) > 0 ==> Slice(t.p, tape, First(t))) && -HALF32 < |s.got| - First(t) < HALF32
    requires ByteCount(s.got) <= k && LoadOk(t, tape, k)
    ensures var got' := s.got + EventTokens(Receive(Conn(s), t.p).1);
            ByteCount(s.got) <= ByteCount(got') <= ByteCount(s.got) + ADSP_MAX_DATA && ByteCount(got') <= k
  {
    if SeqLen(t.p) > 0 {
      SliceArrives(Conn(s), t.p, tape, s.got, First(t), k);
    } else {
      assert s.got + [] == s.got;
    }
  }

  lemma {:induction false} WholePrefix(tape: seq<Token>, got: seq<Token>)
    requires got <= tape
    ensures BytesBefore(tape, |got|) == ByteCount(got)
  {
    assert got == tape[..|got|] && tape[..|tape|] == tape;
  }

  /** A step hands over at most one packet's bytes, and none past the end of the packet. */
  lemma {:induction false} GotGrows(s: Side, peer: Side, out: set<Stamped>, inbox: set<Stamped>, act: Action, k: int)
    requires Both(s, peer, out, inbox) && Enabled(s, inbox, act)
    requires ByteCount(s.got) <= k && (act.Deliver? ==> LoadOk(act.t, peer.tape, k))
    ensures ByteCount(s.got) <= ByteCount(Act(s, act).got) <= ByteCount(s.got) + ADSP_MAX_DATA
    ensures ByteCount(Act(s, act).got) <= k
  {
    if act.Deliver? && IsStream(act.t.p) && Alive(s) {
      StreamHands(s, act.t, peer.tape, k);
      StreamEvents(s, act);
    } else {
      OtherStepsHandNothing(s, peer, out, inbox, act);
    }
  }

  lemma {:induction false} StreamEvents(s: Side, act: Action)
    requires Local(s) && Alive(s) && act.Deliver? && IsStream(act.t.p) && act.t.p.connId == s.peerId
    ensures Act(s, act).got == s.got + EventTokens(Receive(Conn(s), act.t.p).1)
  {
    assert EpAfter(s, act) == HandleStream(s.ep, act.t.p, act.now);
    assert EpAfter(s, act).events == Receive(Conn(s), act.t.p).1;
  }

  lemma {:induction false} AsideSaysNoData(s: Side, t: Stamped, now: Micros)
    requires Local(s) && t.p.connId == s.peerId && !(IsStream(t.p) && Alive(s)) && t.p.descriptor != RetransmitAdvice
    ensures NoData(HandleDatagram(s.ep, s.peerAddr, t.p, now, s.id).events)
  {
  }

  lemma {:induction false} OtherStepsHandNothing(s: Side, peer: Side, out: set<Stamped>, inbox: set<Stamped>,
      act: Action)
    requires Both(s, peer, out, inbox) && Enabled(s, inbox, act)
    requires !(act.Deliver? && IsStream(act.t.p) && Alive(s))
    ensures Act(s, act).got == s.got
  {
    match act {
      case Tick(now) => TickSaysNoData(s, now);
      case Deliver(t, now) => AsideSaysNoData(s, t, now);
      case SetWindow(w) => SetWindowSingle(s.ep, s.peerId, w);
      case _ =>
    }
    NoDataTokens(EpAfter(s, act).events);
    assert s.got + [] == s.got;
  }

  lemma {:induction false} StreamTimerSaysNoData(e: Endpoint, key: u16, now: Micros)
    requires NoData(e.events)
    ensures NoData(PollStream(e, key, now).events) && NoData(PollAttention(e, key, now).events)
  {
  }

  lemma {:induction false} TickSaysNoData(s: Side, now: Micros)
    requires Local(s)
    ensures NoData(Poll(s.ep, now).events)
  {
    PollOpensEffect(s, now);
    PollSingle(s.ep, s.peerId, now);
    StreamTimerSaysNoData(PollOpens(s.ep, now), s.peerId, now);
    StreamTimerSaysNoData(PollAttention(PollOpens(s.ep, now), s.peerId, now), s.peerId, now);
  }
}
