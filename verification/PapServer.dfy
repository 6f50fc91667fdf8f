/** The PAP server as the source writes it: an object that owns two ATP endpoints and updates its
    fields in place. Every method is proved to do what `PapSpec` says. */
module PapServerModel {
  import opened Words
  import opened PapSpec
  import AtpSpec
  import opened AtpEndpointModel

  type Tids = map<u16, AtpSpec.PendingRequest>

  /** At least `n` transaction ids are free. */
  ghost predicate FreeTids(pending: Tids, n: nat) {
    exists free: set<u16> :: AllFree(pending, free) && |free| >= n
  }

  ghost predicate AllFree(pending: Tids, free: set<u16>) {
    forall t :: t in free ==> AtpSpec.FreeTid(pending, t)
  }

  ghost predicate GrewByAtMostOne(pending: Tids, more: Tids) {
    exists t: u16 :: more.Keys <= pending.Keys + {t}
  }

  lemma {:induction false} SomeFree(pending: Tids)
    requires FreeTids(pending, 1)
    ensures AtpSpec.HasFreeTid(pending)
  {
    var free: set<u16> :| AllFree(pending, free) && |free| >= 1;
    var t: u16 :| t in free;
    assert AtpSpec.FreeTid(pending, t);
  }

  lemma {:induction false} FewerPending(pending: Tids, less: Tids, n: nat)
    requires less.Keys <= pending.Keys && FreeTids(pending, n)
    ensures FreeTids(less, n)
  {
    var free: set<u16> :| AllFree(pending, free) && |free| >= n;
    assert AllFree(less, free);
  }

  lemma {:induction false} StillFree(pending: Tids, more: Tids, free: set<u16>, t: u16)
    requires AllFree(pending, free) && more.Keys <= pending.Keys + {t}
    ensures AllFree(more, free - {t})
  {
    forall u | u in free - {t} ensures AtpSpec.FreeTid(more, u) { assert AtpSpec.FreeTid(pending, u); }
  }

  lemma {:induction false} LosesAtMostOne(free: set<u16>, t: u16)
    ensures |free - {t}| >= |free| - 1
  {
    if t in free { assert free == free - {t} + {t}; } else { assert free - {t} == free; }
  }

  lemma {:induction false} OneMorePending(pending: Tids, more: Tids, n: nat)
    requires FreeTids(pending, n + 1) && GrewByAtMostOne(pending, more)
    ensures FreeTids(more, n)
  {
    var free: set<u16> :| AllFree(pending, free) && |free| >= n + 1;
    var t: u16 :| more.Keys <= pending.Keys + {t};
    StillFree(pending, more, free, t);
    LosesAtMostOne(free, t);
  }

  class PapServer {
    const listenerSocket: u8
    const connSocket: u8
    const listener: AtpEndpoint
    const connEp: AtpEndpoint
    var status: seq<byte>
    var session: Option<Session>
    var sinkCredit: nat
    var events: seq<PapEvent>

    predicate Valid() {
      listener != connEp
    }

    function State(): PapSpec.PapServer
      reads this, listener, connEp
    {
      PapSpec.PapServer(listenerSocket, connSocket, listener.State(), connEp.State(), status, session, sinkCredit, events)
    }

    constructor (listenerSocket: u8, connSocket: u8)
      ensures Valid() && fresh(listener) && fresh(connEp)
      ensures State() == NewServer(listenerSocket, connSocket)
    {
      this.listenerSocket, this.connSocket := listenerSocket, connSocket;
      listener := new AtpEndpoint();
      connEp := new AtpEndpoint();
      status, session, sinkCredit, events := [], None, 0, [];
    }

    method SetStatus(bytes: seq<byte>)
      modifies this
      ensures State() == PapSpec.SetStatus(old(State()), bytes)
    {
      status := bytes[..Min(|bytes|, MAX_STATUS)];
    }

    /** Issue the next pull if the session is open, none is in flight, and the sink can take a full
        reply. */
    method MaybePull(now: Micros)
      requires Valid() && FreeTids(connEp.pending, 1)
      modifies this, connEp
      ensures State() == PapSpec.MaybePull(old(State()), now)
      ensures GrewByAtMostOne(old(connEp.pending), connEp.pending)
    {
      assert connEp.pending.Keys <= old(connEp.pending.Keys) + {0};
      if session.None? { return; }
      var s := session.value;
      if s.outstandingPull.Some? || sinkCredit < PULL_CAPACITY { return; }
      SomeFree(connEp.pending);
      var pull := PapPacket(s.connId, SendData, s.pullSeq, false, []);
      var handle := connEp.Request(s.client, UserBytesOf(pull), [], 0xFF, now);
      session := Some(s.(outstandingPull := Some(handle)));
      assert connEp.pending.Keys <= old(connEp.pending.Keys) + {handle};
    }

    /** Serve a waiting client read: output when there is any, eof when it has ended, or nothing once
        the client has been idle. */
    method AnswerRead(now: Micros)
      requires Valid()
      modifies this, connEp
      ensures State() == PapSpec.AnswerRead(old(State()), now)
      ensures connEp.pending == old(connEp.pending)
    {
      if session.None? { return; }
      var s := session.value;
      if s.pendingRead.None? { return; }
      var r := s.pendingRead.value;
      var haveOutput := s.stdout != [] || s.eofQueued;
      var idle := now >= s.lastClientWrite + READ_IDLE_ANSWER;
      if !haveOutput && !idle { return; }
      s := s.(pendingRead := None);
      var take := Min(|s.stdout|, MaxPackets(r.bitmap) * PAP_MAX_DATA_PER_PACKET);
      var chunk := s.stdout[..take];
      s := s.(stdout := s.stdout[take..]);
      var eof := s.eofQueued && s.stdout == [];
      if eof { s := s.(eofQueued := false); }
      var userBytes := UserBytesOf(PapPacket(s.connId, Data, 0, eof, chunk));
      if r.seqNum != 0 {
        var room := if |s.readCache| == READ_REPLY_CACHE_LEN then s.readCache[1..] else s.readCache;
        s := s.(readSeq := NextPapSeq(s.readSeq), readCache := room + [CachedRead(r.seqNum, userBytes, chunk)]);
      }
      session := Some(s);
      connEp.Respond(r.source, r.tid, userBytes, chunk, PAP_MAX_DATA_PER_PACKET, now);
    }

    method SetSinkCredit(bytes: nat, now: Micros)
      requires Valid() && FreeTids(connEp.pending, 1)
      modifies this, connEp
      ensures State() == PapSpec.SetSinkCredit(old(State()), bytes, now)
      ensures GrewByAtMostOne(old(connEp.pending), connEp.pending)
    {
      sinkCredit := bytes;
      MaybePull(now);
    }

    method QueueOutput(data: seq<byte>, now: Micros)
      requires Valid()
      modifies this, connEp
      ensures State() == PapSpec.QueueOutput(old(State()), data, now)
      ensures connEp.pending == old(connEp.pending)
    {
      if session.Some? { session := Some(session.value.(stdout := session.value.stdout + data)); }
      AnswerRead(now);
    }

    method EndOutput(now: Micros)
      requires Valid()
      modifies this, connEp
      ensures State() == PapSpec.EndOutput(old(State()), now)
    {
      if session.Some? { session := Some(session.value.(eofQueued := true)); }
      AnswerRead(now);
    }

    method RespondPap(onListener: bool, source: Address, tid: u16, pap: PapPacket, now: Micros)
      requires Valid()
      modifies listener, connEp
      ensures onListener ==> listener.State() == Reply(old(listener.State()), source, tid, pap, now)
                             && connEp.State() == old(connEp.State())
      ensures !onListener ==> connEp.State() == Reply(old(connEp.State()), source, tid, pap, now)
                              && listener.State() == old(listener.State())
    {
      if onListener {
        listener.Respond(source, tid, UserBytesOf(pap), pap.data, PAP_MAX_DATA_PER_PACKET, now);
      } else {
        connEp.Respond(source, tid, UserBytesOf(pap), pap.data, PAP_MAX_DATA_PER_PACKET, now);
      }
    }

    method HandleListenerEvent(ev: AtpSpec.AtpEvent, now: Micros)
      requires Valid()
      modifies this, listener, connEp
      ensures State() == PapSpec.HandleListenerEvent(old(State()), ev, now)
      ensures connEp.State() == old(connEp.State()) && listener.events == old(listener.events)
    {
      if !ev.RequestEvent? { return; }
      var parsed := Parse(ev.userBytes, ev.data);
      if parsed.None? { return; }
      var pap := parsed.value;
      if pap.function_ == SendStatus {
        var status := PapPacket(0, Status, 0, false, [0, 0, 0, 0] + StatusPascal(status));
        RespondPap(true, ev.source, ev.tid, status, now);
      } else if pap.function_ == OpenConn {
        if |pap.data| < 2 { return; }
        var free := session.None?;
        var first: byte, result: byte := (if free then connSocket else 0), (if free then 0 else 0xFF);
        var d := [first, FLOW_QUANTUM, result, result] + StatusPascal(status);
        RespondPap(true, ev.source, ev.tid, PapPacket(pap.connId, OpenConnReply, 0, false, d), now);
        if !free { return; }
        var client := Address(ev.source.network, ev.source.node, pap.data[0]);
        session := Some(NewSession(pap.connId, client, now));
        events := events + [ConnectionOpened(client)];
      }
    }

    method HandleSendData(ev: AtpSpec.AtpEvent, pap: PapPacket, now: Micros)
      requires Valid() && session.Some? && ev.RequestEvent?
      modifies this, connEp
      ensures State() == PapSpec.HandleSendData(old(State()), old(session).value, ev, pap, now)
      ensures connEp.pending == old(connEp.pending) && connEp.events == old(connEp.events)
    {
      var s := session.value;
      if pap.seqNum != 0 && pap.seqNum != s.readSeq {
        var cached := FindRead(s.readCache, pap.seqNum);
        if cached.Some? {
          connEp.Respond(ev.source, ev.tid, cached.value.userBytes, cached.value.data, PAP_MAX_DATA_PER_PACKET, now);
        }
      } else {
        session := Some(s.(pendingRead := Some(Read(ev.source, ev.tid, ev.bitmap, pap.seqNum))));
      }
    }

    method HandleConnRequest(ev: AtpSpec.AtpEvent, now: Micros)
      requires Valid() && ev.RequestEvent?
      modifies this, listener, connEp
      ensures State() == PapSpec.HandleConnRequest(old(State()), ev, now)
      ensures connEp.pending == old(connEp.pending) && connEp.events == old(connEp.events)
    {
      var parsed := Parse(ev.userBytes, ev.data);
      if parsed.None? || session.None? { return; }
      var pap := parsed.value;
      if pap.connId != session.value.connId { return; }
      session := Some(session.value.(lastActivity := now));
      if pap.function_ == SendData {
        HandleSendData(ev, pap, now);
      } else if pap.function_ == CloseConn {
        RespondPap(false, ev.source, ev.tid, PapPacket(pap.connId, CloseConnReply, 0, false, []), now);
        session := None;
        events := events + [ConnectionClosed];
      }
    }

    method TakePulled(handle: u16, userBytes: AtpSpec.UserBytes, data: seq<byte>, now: Micros)
      modifies this
      ensures State() == PapSpec.HandleConnEvent(old(State()), AtpSpec.ResponseEvent(handle, userBytes, data), now)
    {
      if session.None? || session.value.outstandingPull != Some(handle) { return; }
      var s := session.value.(outstandingPull := None);
      session := Some(s);
      var parsed := Parse(userBytes, data);
      if parsed.None? || parsed.value.function_ != Data { return; }
      var pap := parsed.value;
      s := s.(lastActivity := now, lastClientWrite := now, pullSeq := NextPapSeq(s.pullSeq));
      var before := events;
      if pap.data != [] {
        s := s.(jobBytes := s.jobBytes + |pap.data|);
        events := events + [ToPrinter(pap.data)];
      }
      if pap.eof && s.jobBytes > 0 {
        s := s.(jobBytes := 0);
        events := events + [JobEof];
      }
      session := Some(s);
      assert events == before + PapSpec.TakePulled(old(session).value, userBytes, data, now).1;
    }

    method HandleConnEvent(ev: AtpSpec.AtpEvent, now: Micros)
      requires Valid()
      modifies this, listener, connEp
      ensures State() == PapSpec.HandleConnEvent(old(State()), ev, now)
      ensures connEp.pending == old(connEp.pending) && connEp.events == old(connEp.events)
    {
      match ev {
        case RequestEvent(_, _, _, _, _, _) => HandleConnRequest(ev, now);
        case ResponseEvent(handle, u, data) => TakePulled(handle, u, data, now);
        case RequestFailed(handle) =>
          if session.Some? && session.value.outstandingPull == Some(handle) {
            session := Some(session.value.(outstandingPull := None));
          }
      }
    }

    /** Take the listener's events one by one. */
    method DrainListener(now: Micros)
      requires Valid()
      modifies this, listener, connEp
      ensures var p := old(State());
              State() == ListenerEvents(p.(listener := p.listener.(events := [])), p.listener.events, now)
      ensures connEp.State() == old(connEp.State())
    {
      ghost var all := listener.events;
      ghost var p0 := State().(listener := listener.State().(events := []));
      ghost var i := 0;
      while listener.events != []
        invariant i <= |all| && listener.events == all[i..]
        invariant State().(listener := listener.State().(events := [])) == ListenerEvents(p0, all[..i], now)
        invariant connEp.State() == old(connEp.State())
        decreases |listener.events|
      {
        assert all[..i + 1][..i] == all[..i] && all[..i + 1] == all[..i] + [all[i]];
        ghost var before := State();
        var ev := listener.PollEvent();
        ListenerEventIgnoresQueue(before, ev.value, now, all[i + 1..]);
        HandleListenerEvent(ev.value, now);
        i := i + 1;
      }
      assert all[..i] == all;
    }

    /** Take the connection's events one by one. */
    method DrainConn(now: Micros)
      requires Valid()
      modifies this, listener, connEp
      ensures var p := old(State());
              State() == ConnEvents(p.(conn := p.conn.(events := [])), p.conn.events, now)
      ensures connEp.pending == old(connEp.pending)
    {
      ghost var all := connEp.events;
      ghost var p0 := State().(conn := connEp.State().(events := []));
      ghost var i := 0;
      while connEp.events != []
        invariant i <= |all| && connEp.events == all[i..]
        invariant State().(conn := connEp.State().(events := [])) == ConnEvents(p0, all[..i], now)
        invariant connEp.pending == old(connEp.pending)
        decreases |connEp.events|
      {
        assert all[..i + 1][..i] == all[..i] && all[..i + 1] == all[..i] + [all[i]];
        ghost var before := State();
        var ev := connEp.PollEvent();
        ConnEventIgnoresQueue(before, ev.value, now, all[i + 1..]);
        HandleConnEvent(ev.value, now);
        i := i + 1;
      }
      assert all[..i] == all;
    }

    method Drain(now: Micros)
      requires Valid() && FreeTids(connEp.pending, 1)
      modifies this, listener, connEp
      ensures State() == PapSpec.Drain(old(State()), now)
      ensures GrewByAtMostOne(old(connEp.pending), connEp.pending)
    {
      DrainListener(now);
      DrainConn(now);
      AnswerRead(now);
      MaybePull(now);
    }

    method HandleDatagram(socket: u8, src: Address, q: AtpSpec.AtpPacket, now: Micros)
      requires Valid() && FreeTids(connEp.pending, 1)
      modifies this, listener, connEp
      ensures State() == PapSpec.HandleDatagram(old(State()), socket, src, q, now)
      ensures GrewByAtMostOne(old(connEp.pending), connEp.pending)
    {
      if socket == listenerSocket {
        listener.HandleDatagram(src, q);
      } else if socket == connSocket {
        connEp.HandleDatagram(src, q);
      }
      FewerPending(old(connEp.pending), connEp.pending, 1);
      Drain(now);
    }

    /** Close a session gone quiet, or tickle its client. */
    method KeepAlive(now: Micros)
      requires Valid() && FreeTids(connEp.pending, 1)
      modifies this, connEp
      ensures State() == PapSpec.KeepAlive(old(State()), now)
      ensures connEp.pending == old(connEp.pending)
    {
      if session.None? { return; }
      var s := session.value;
      if SaturatingSub(now, s.lastActivity) > INACTIVITY_TIMEOUT {
        session := None;
        events := events + [ConnectionClosed];
      } else if now >= s.nextTickle {
        session := Some(s.(nextTickle := now + TICKLE_INTERVAL));
        SomeFree(connEp.pending);
        connEp.SendAlo(s.client, UserBytesOf(PapPacket(s.connId, Tickle, 0, false, [])));
      }
    }

    method Poll(now: Micros)
      requires Valid() && FreeTids(connEp.pending, 2)
      modifies this, listener, connEp
      ensures State() == PapSpec.Poll(old(State()), now)
      ensures forall n: nat :: FreeTids(old(connEp.pending), n + 2) ==> FreeTids(connEp.pending, n)
    {
      listener.Poll(now);
      connEp.Poll(now);
      ghost var polled := connEp.pending;
      FewerPending(old(connEp.pending), polled, 2);
      assert FreeTids(polled, 1) by { assert polled.Keys <= polled.Keys + {0}; OneMorePending(polled, polled, 1); }
      Drain(now);
      ghost var drained := connEp.pending;
      OneMorePending(polled, drained, 1);
      KeepAlive(now);
      AnswerRead(now);
      MaybePull(now);
      forall n: nat | FreeTids(old(connEp.pending), n + 2) ensures FreeTids(connEp.pending, n) {
        FewerPending(old(connEp.pending), polled, n + 2);
        OneMorePending(polled, drained, n + 1);
        OneMorePending(drained, connEp.pending, n);
      }
    }

    method PollEvent() returns (r: Option<PapEvent>)
      modifies this
      ensures old(events) == [] ==> r == None && State() == old(State())
      ensures old(events) != [] ==> r == Some(old(events)[0]) && State() == old(State()).(events := old(events)[1..])
    {
      if events == [] { return None; }
      r, events := Some(events[0]), events[1..];
    }

    /** The listener's datagrams go out before the connection's. */
    method PollTransmit() returns (r: Option<(u8, Address, AtpSpec.AtpPacket)>)
      requires Valid()
      modifies listener, connEp
      ensures old(listener.outbox) != [] ==>
                r == Some((listenerSocket, old(listener.outbox)[0].0, old(listener.outbox)[0].1))
                && State() == old(State()).(listener := old(listener.State()).(outbox := old(listener.outbox)[1..]))
      ensures old(listener.outbox) == [] && old(connEp.outbox) != [] ==>
                r == Some((connSocket, old(connEp.outbox)[0].0, old(connEp.outbox)[0].1))
                && State() == old(State()).(conn := old(connEp.State()).(outbox := old(connEp.outbox)[1..]))
      ensures old(listener.outbox) == [] && old(connEp.outbox) == [] ==> r == None && State() == old(State())
    {
      var a := listener.PollTransmit();
      if a.Some? { return Some((listenerSocket, a.value.0, a.value.1)); }
      var b := connEp.PollTransmit();
      if b.Some? { return Some((connSocket, b.value.0, b.value.1)); }
      r := None;
    }
  }

  /** Handling a listener event leaves the events queued behind it alone. */
  lemma {:induction false} ListenerEventIgnoresQueue(p: PapSpec.PapServer, ev: AtpSpec.AtpEvent, now: Micros,
      rest: seq<AtpSpec.AtpEvent>)
    ensures var with := PapSpec.HandleListenerEvent(p.(listener := p.listener.(events := rest)), ev, now);
            var without := PapSpec.HandleListenerEvent(p.(listener := p.listener.(events := [])), ev, now);
            with.(listener := with.listener.(events := [])) == without
  {
  }

  lemma {:induction false} ConnRequestIgnoresQueue(p: PapSpec.PapServer, ev: AtpSpec.AtpEvent, now: Micros,
      rest: seq<AtpSpec.AtpEvent>)
    requires ev.RequestEvent?
    ensures var with := PapSpec.HandleConnRequest(p.(conn := p.conn.(events := rest)), ev, now);
            var without := PapSpec.HandleConnRequest(p.(conn := p.conn.(events := [])), ev, now);
            with.(conn := with.conn.(events := [])) == without
  {
  }

  lemma {:induction false} ConnEventIgnoresQueue(p: PapSpec.PapServer, ev: AtpSpec.AtpEvent, now: Micros,
      rest: seq<AtpSpec.AtpEvent>)
    ensures var with := PapSpec.HandleConnEvent(p.(conn := p.conn.(events := rest)), ev, now);
            var without := PapSpec.HandleConnEvent(p.(conn := p.conn.(events := [])), ev, now);
            with.(conn := with.conn.(events := [])) == without
  {
    if ev.RequestEvent? { ConnRequestIgnoresQueue(p, ev, now, rest); }
  }
}
