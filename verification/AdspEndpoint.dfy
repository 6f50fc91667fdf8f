/** The ADSP endpoint as the source writes it: one object whose methods update its maps and
    queues in place. Every method is proved to do what `AdspSpec` says. */
module AdspEndpointModel {
  import opened Words
  import opened AdspSpec

  lemma {:induction false} ToRemoteSnoc(r: Address, ps: seq<Packet>, p: Packet)
    ensures ToRemote(r, ps) + [(r, p)] == ToRemote(r, ps + [p])
  {
  }

  class AdspEndpoint {
    var listening: bool
    var recvWindow: u16
    var connections: map<u16, Connection>
    var pendingOpens: map<u16, PendingOpen>
    var outbox: seq<(Address, Packet)>
    var events: seq<AdspEvent>

    function State(): Endpoint
      reads this
    {
      Endpoint(listening, recvWindow, connections, pendingOpens, outbox, events)
    }

    constructor ()
      ensures State() == Endpoint(false, DEFAULT_RECV_WINDOW, map[], map[], [], [])
    {
      listening, recvWindow := false, DEFAULT_RECV_WINDOW;
      connections, pendingOpens := map[], map[];
      outbox, events := [], [];
    }

    method SetListening(on: bool)
      modifies this
      ensures State() == old(State()).(listening := on)
    {
      listening := on;
    }

    method SetRecvWindow(window: u16)
      modifies this
      ensures State() == AdspSpec.SetRecvWindow(old(State()), window)
    {
      var reopened := recvWindow == 0 && window > 0;
      recvWindow := window;
      if reopened {
        ghost var e1 := State();
        var keys := AscendingKeys(connections.Keys);
        for i := 0 to |keys|
          invariant State() == SendAcks(e1, keys[..i])
          invariant connections == e1.connections
        {
          assert keys[..i + 1][..i] == keys[..i];
          SendAck(keys[i]);
        }
        assert keys[..|keys|] == keys;
      }
    }

    method SendAck(key: u16)
      modifies this
      ensures State() == AdspSpec.SendAck(old(State()), key)
      ensures connections == old(connections)
    {
      if key in connections {
        var c := connections[key];
        outbox := outbox + [(c.remote, AckPacket(c, recvWindow))];
      }
    }

    /** `id` is a random draw that is not zero and not the id of another pending open. */
    method Connect(remote: Address, now: Micros, id: u16) returns (handle: u16)
      requires id != 0 && id !in pendingOpens
      modifies this
      ensures handle == id && State() == AdspSpec.Connect(old(State()), remote, now, id)
    {
      pendingOpens := pendingOpens[id := PendingOpen(remote, now, 0)];
      outbox := outbox + [(remote, OpenPacket(OpenConnRequest, id, recvWindow, 0))];
      handle := id;
    }

    method TxBacklog(conn: u16) returns (n: nat)
      ensures n == AdspSpec.TxBacklog(State(), conn)
    {
      if conn !in connections { return 0; }
      var c := connections[conn];
      var queued := 0;
      var i := |c.pendingWrites|;
      while i > 0
        invariant 0 <= i <= |c.pendingWrites|
        invariant queued == PendingBytes(c.pendingWrites[i..])
      {
        i := i - 1;
        assert c.pendingWrites[i..][1..] == c.pendingWrites[i + 1..];
        queued := |c.pendingWrites[i].data| - c.pendingWrites[i].offset + queued;
      }
      assert c.pendingWrites[0..] == c.pendingWrites;
      n := |c.flightBuffer| + queued;
    }

    method Send(conn: u16, data: seq<byte>, eom: bool) returns (id: nat, ok: bool)
      modifies this
      ensures State() == AdspSpec.Send(old(State()), conn, data, eom)
      ensures ok <==> conn in old(connections)
      ensures ok ==> id == old(connections)[conn].writesSubmitted + 1
    {
      if conn !in connections { return 0, false; }
      connections := connections[conn := Queued(connections[conn], data, eom)];
      id, ok := connections[conn].writesSubmitted, true;
      PumpLoop(conn, None);
    }

    method SendAttention(conn: u16, code: u16, data: seq<byte>, now: Micros) returns (r: Option<AdspError>)
      modifies this
      ensures State() == AdspSpec.SendAttention(old(State()), conn, code, data, now)
      ensures r == if conn !in old(connections) then Some(NoSuchConnection)
                   else if old(connections)[conn].attnInFlight.Some? then Some(AttentionInFlight) else None
    {
      if conn !in connections { return Some(NoSuchConnection); }
      var c := connections[conn];
      if c.attnInFlight.Some? { return Some(AttentionInFlight); }
      var packet := AttentionPacket(c, code, data);
      connections := connections[conn := c.(attnInFlight := Some(AttnPending(c.attnSendSeq, packet, now, 0)))];
      outbox := outbox + [(c.remote, packet)];
      ToRemoteSnoc(c.remote, [], packet);
      r := None;
    }

    method AbandonOpen(pending: u16)
      modifies this
      ensures State() == AdspSpec.AbandonOpen(old(State()), pending)
    {
      pendingOpens := pendingOpens - {pending};
    }

    method Close(conn: u16)
      modifies this
      ensures State() == AdspSpec.Close(old(State()), conn)
    {
      if conn in connections {
        var c := connections[conn];
        connections := connections - {conn};
        outbox := outbox + [(c.remote,
          Packet(CloseAdvice, c.ourConnId, c.sendSeq, c.recvSeq, 0, false, false, false, []))];
      }
    }

    /** Move `take` bytes of the front write into flight, and the packet that carries them. */
    static method CutFront(before: Connection, window: u16, now: Option<Micros>, take: nat)
        returns (c: Connection, p: Packet)
      requires before.pendingWrites != [] && var front := before.pendingWrites[0];
               front.offset + take <= |front.data|
      ensures c == Touched(CutBytes(before, take), now)
      ensures p == StreamPacket(before, window, before.sendSeq, CarriesEom(before, take), Chunk(before, take))
    {
      c := before;
      var front := c.pendingWrites[0];
      var chunk := front.data[front.offset..front.offset + take];
      var eom := front.eom && front.offset + take == |front.data|;
      p := StreamPacket(c, window, c.sendSeq, eom, chunk);
      c := c.(flightBuffer := c.flightBuffer + chunk,
              sendSeq := Add32(c.sendSeq, |chunk| + (if eom then 1 else 0)));
      if now.Some? { c := c.(lastTx := now.value); }
      if front.offset + take == |front.data| {
        c := WriteDone(c);
      } else {
        c := c.(pendingWrites := [front.(offset := front.offset + take)] + c.pendingWrites[1..]);
      }
    }

    /** One turn of the pump loop: finish a write or cut one packet; false when there is
        nothing to send or no room. */
    method PumpTurn(key: u16, now: Option<Micros>) returns (more: bool)
      requires key in connections
      modifies this
      ensures var step := PumpStep(old(connections)[key], old(recvWindow), now);
              && more == step.Some?
              && State() == if more then Update(old(State()), key, step.value) else old(State())
    {
      var c := connections[key];
      if c.pendingWrites == [] { return false; }
      var front := c.pendingWrites[0];
      var inFlight := Sub32(c.sendSeq, c.oldestUnackedSeq);
      var available := SaturatingSub(c.sendWindow, inFlight);
      var remaining := |front.data| - front.offset;
      if remaining == 0 && front.eom {
        var p := StreamPacket(c, recvWindow, c.sendSeq, true, []);
        c := WriteDone(c).(sendSeq := Add32(c.sendSeq, 1));
        if now.Some? { c := c.(lastTx := now.value); }
        connections := connections[key := c];
        outbox := outbox + [(c.remote, p)];
        ToRemoteSnoc(c.remote, [], p);
      } else if remaining == 0 {
        connections := connections[key := WriteDone(c)];
        assert outbox + ToRemote(c.remote, []) == outbox;
      } else {
        if available == 0 { return false; }
        var take := Min(Min(remaining, available), ADSP_MAX_DATA);
        var p;
        c, p := CutFront(c, recvWindow, now, take);
        connections := connections[key := c];
        outbox := outbox + [(c.remote, p)];
        ToRemoteSnoc(c.remote, [], p);
      }
      more := true;
    }

    /** Cut packets while the peer's window has room. */
    method PumpLoop(key: u16, now: Option<Micros>)
      modifies this
      ensures State() ==
        if key in old(connections)
        then Update(old(State()), key, Pump(old(connections)[key], old(recvWindow), now))
        else old(State())
    {
      if key !in connections { return; }
      ghost var e0, c0 := State(), connections[key];
      ghost var sent: seq<Packet> := [];
      UpdateNothing(e0, key);
      while true
        invariant key in connections && connections[key].remote == c0.remote
        invariant State() == Update(e0, key, Effect(connections[key], sent))
        invariant PumpReaches(c0, recvWindow, now, sent, connections[key])
        decreases PendingBytes(connections[key].pendingWrites) + |connections[key].pendingWrites|
      {
        ghost var c := connections[key];
        var more := PumpTurn(key, now);
        if !more { return; }
        PumpStepReaches(c0, recvWindow, now, sent, c);
        UpdateTwice(e0, key, c, sent, PumpStep(c, recvWindow, now).value);
        sent := sent + PumpStep(c, recvWindow, now).value.out;
      }
    }

    /** Take the window and acknowledgement a packet carries, then pump. */
    method ApplyAck(p: Packet, now: Micros)
      modifies this
      ensures State() ==
        if p.connId in old(connections)
        then Update(old(State()), p.connId, Pump(TakeAck(old(connections)[p.connId], p), old(recvWindow), Some(now)))
        else old(State())
    {
      if p.connId !in connections { return; }
      ghost var e0 := State();
      var c := connections[p.connId].(sendWindow := p.recvWindow);
      var maxValid := Sub32(c.sendSeq, c.oldestUnackedSeq);
      var acked := Sub32(p.nextRecvSeq, c.oldestUnackedSeq);
      if acked > 0 && acked <= maxValid {
        var drain := Min(acked, |c.flightBuffer|);
        c := c.(flightBuffer := c.flightBuffer[drain..], oldestUnackedSeq := p.nextRecvSeq, retries := 0);
      }
      connections := connections[p.connId := c];
      PumpLoop(p.connId, Some(now));
    }

    /** Sequence-validate a data packet and queue the event for what is new in it. */
    method ReceiveInto(p: Packet)
      requires p.connId in connections
      modifies this
      ensures State() == Received(old(State()), p)
    {
      var c := connections[p.connId];
      var total := |p.payload| + (if p.eom then 1 else 0);
      assert connections[p.connId := c] == connections;
      if total > 0 {
        var diff := AsI32(Sub32(c.recvSeq, p.firstByteSeq));
        if 0 <= diff < total {
          var skip := Min(diff, |p.payload|);
          var unseen := p.payload[skip..];
          connections := connections[p.connId := c.(recvSeq := Add32(p.firstByteSeq, total))];
          if unseen != [] || p.eom {
            events := events + [Data(p.connId, unseen, p.eom)];
          }
        }
      }
    }

    method HandleStream(p: Packet, now: Micros)
      modifies this
      ensures State() == AdspSpec.HandleStream(old(State()), p, now)
    {
      if p.connId !in connections { return; }
      StreamStages(State(), p, now);
      ReceiveInto(p);
      ApplyAck(p, now);
      if p.ackReq { SendAck(p.connId); }
      PumpLoop(p.connId, Some(now));
    }

    method ResendUnacked(key: u16, now: Micros)
      modifies this
      ensures State() ==
        if key in old(connections) then Update(old(State()), key, Resend(old(connections)[key], old(recvWindow), now))
        else old(State())
    {
      if key !in connections { return; }
      var c := connections[key];
      UpdateNothing(State(), key);
      if c.flightBuffer == [] { return; }
      var i := 0;
      while i < |c.flightBuffer|
        invariant i <= |c.flightBuffer|
        invariant outbox + ToRemote(c.remote, ResendFrom(c, recvWindow, i))
               == old(outbox) + ToRemote(c.remote, ResendFrom(c, recvWindow, 0))
        invariant State() == old(State()).(outbox := outbox)
      {
        var take := Min(ADSP_MAX_DATA, |c.flightBuffer| - i);
        var p := StreamPacket(c, recvWindow, Add32(c.oldestUnackedSeq, i), false, c.flightBuffer[i..i + take]);
        ToRemoteCons(outbox, c.remote, p, ResendFrom(c, recvWindow, i + take));
        outbox := outbox + [(c.remote, p)];
        i := i + take;
      }
      assert outbox + ToRemote(c.remote, []) == outbox;
      connections := connections[key := c.(lastTx := now)];
    }

    method HandleAttention(p: Packet)
      modifies this
      ensures State() == AdspSpec.HandleAttention(old(State()), p)
    {
      if |p.payload| < 2 || p.connId !in connections { return; }
      var c := connections[p.connId];
      var code := ReadU16(p.payload);
      var isFresh := p.firstByteSeq == c.attnRecvSeq;
      if isFresh { c := c.(attnRecvSeq := Add32(c.attnRecvSeq, 1)); }
      connections := connections[p.connId := c];
      var ack := Packet(ControlPacket, c.ourConnId, c.attnSendSeq, c.attnRecvSeq, 0, false, false, true, WriteU16(code));
      outbox := outbox + [(c.remote, ack)];
      ToRemoteSnoc(c.remote, [], ack);
      if isFresh { events := events + [Attention(p.connId, code, p.payload[2..])]; }
    }

    method HandleAttentionAck(p: Packet)
      modifies this
      ensures State() == AdspSpec.HandleAttentionAck(old(State()), p)
    {
      if p.connId !in connections { return; }
      var c := connections[p.connId];
      if c.attnInFlight.None? || p.nextRecvSeq != Add32(c.attnInFlight.value.seqNo, 1) { return; }
      connections := connections[p.connId := c.(attnInFlight := None, attnSendSeq := Add32(c.attnSendSeq, 1))];
      events := events + [AttentionAcked(p.connId)];
    }

    method SendOpenReply(d: Descriptor, ourConnId: u16, dest: u16, remote: Address)
      modifies this
      ensures State() == AdspSpec.SendOpenReply(old(State()), d, ourConnId, dest, remote)
    {
      outbox := outbox + [(remote, OpenPacket(d, ourConnId, recvWindow, dest))];
    }

    method HandleOpenRequest(src: Address, p: Packet, now: Micros, drawn: u16)
      modifies this
      ensures State() == AdspSpec.HandleOpenRequest(old(State()), src, p, now, drawn)
    {
      if !listening { return; }
      if p.connId in connections {
        SendOpenReply(OpenConnReqAck, connections[p.connId].ourConnId, p.connId, src);
        return;
      }
      var ours := MadeOdd(drawn);
      connections := connections[p.connId := NewConnection(ours, src, p.recvWindow, now)];
      SendOpenReply(OpenConnReqAck, ours, p.connId, src);
      events := events + [Opened(p.connId, src, true, None)];
    }

    /** The first connection, in key order, that carries our id `ours`. */
    method FindStale(ours: u16) returns (r: Option<u16>)
      ensures r.Some? ==> IsStaleKey(connections, ours, r.value)
      ensures r.None? ==> forall k: u16 :: !IsStaleKey(connections, ours, k)
    {
      var keys := AscendingKeys(connections.Keys);
      for i := 0 to |keys|
        invariant forall j :: 0 <= j < i ==> connections[keys[j]].ourConnId != ours
      {
        assert keys[i] in keys;
        if connections[keys[i]].ourConnId == ours {
          forall j: u16 | j in connections && connections[j].ourConnId == ours
            ensures keys[i] <= j
          {
            assert j in keys;
          }
          return Some(keys[i]);
        }
      }
      assert forall k: u16 :: k in connections ==> k in keys;
      r := None;
    }

    method HandleOpenAck(src: Address, p: Packet, now: Micros)
      modifies this
      ensures State() == AdspSpec.HandleOpenAck(old(State()), src, p, now)
    {
      var key := p.connId;
      var ours := DestConnId(p);
      var isReqAck := p.descriptor == OpenConnReqAck;
      if key in connections {
        if isReqAck { SendOpenReply(OpenConnAck, ours, key, src); }
        return;
      }
      if ours !in pendingOpens {
        var stale := FindStale(ours);
        if stale.None? { return; }
        StaleIsUnique(connections, ours, stale.value);
        var moved := connections[stale.value];
        connections := (connections - {stale.value})[key := moved];
        SendOpenReply(OpenConnAck, ours, key, src);
        events := events + [Opened(key, src, false, Some(ours))];
        return;
      }
      pendingOpens := pendingOpens - {ours};
      connections := connections[key := NewConnection(ours, src, p.recvWindow, now)];
      if isReqAck { SendOpenReply(OpenConnAck, ours, key, src); }
      events := events + [Opened(key, src, false, Some(ours))];
    }

    method HandleDeny(p: Packet)
      modifies this
      ensures State() == AdspSpec.HandleDeny(old(State()), p)
    {
      var ours := DestConnId(p);
      if ours in pendingOpens {
        pendingOpens := pendingOpens - {ours};
        events := events + [OpenFailed(ours)];
      }
    }

    /** Feed a received packet; `drawn` is the random word an inbound open takes its id from. */
    method HandleDatagram(src: Address, p: Packet, now: Micros, drawn: u16)
      modifies this
      ensures State() == AdspSpec.HandleDatagram(old(State()), src, p, now, drawn)
    {
      if p.attention {
        if p.Control() { HandleAttentionAck(p); } else { HandleAttention(p); }
        return;
      }
      match p.descriptor {
        case OpenConnRequest => HandleOpenRequest(src, p, now, drawn);
        case OpenConnAck => HandleOpenAck(src, p, now);
        case OpenConnReqAck => HandleOpenAck(src, p, now);
        case OpenConnDeny => HandleDeny(p);
        case DataPacket => HandleStream(p, now);
        case ControlPacket => HandleStream(p, now);
        case RetransmitAdvice =>
          ghost var e0 := State();
          ApplyAck(p, now);
          if p.connId in e0.connections {
            ghost var acked := Pump(TakeAck(e0.connections[p.connId], p), recvWindow, Some(now));
            UpdateTwice(e0, p.connId, acked.conn, acked.out, Resend(acked.conn, recvWindow, now));
          }
          ResendUnacked(p.connId, now);
        case CloseAdvice =>
          if p.connId in connections {
            connections := connections - {p.connId};
            events := events + [Closed(p.connId)];
          }
        case ForwardReset =>
        case ForwardResetAck =>
      }
    }

    // ---- timers ---------------------------------------------------------------------------

    /** The events and requests the open timers give rise to, in key order. */
    method DueOpens(now: Micros) returns (failures: seq<AdspEvent>, requests: seq<(Address, Packet)>)
      ensures var ids := Ascending(pendingOpens.Keys);
              && failures == OpenFailures(pendingOpens, ids, now)
              && requests == OpenRequests(pendingOpens, ids, recvWindow, now)
    {
      var ids := AscendingKeys(pendingOpens.Keys);
      failures, requests := [], [];
      for i := 0 to |ids|
        invariant failures == OpenFailures(pendingOpens, ids[..i], now)
        invariant requests == OpenRequests(pendingOpens, ids[..i], recvWindow, now)
      {
        assert ids[..i + 1][..i] == ids[..i] && ids[i] in ids;
        var open := pendingOpens[ids[i]];
        if SaturatingSub(now, open.lastTx) >= OPEN_RETRY_INTERVAL {
          if open.retries + 1 > MAX_OPEN_RETRIES {
            failures := failures + [OpenFailed(ids[i])];
          } else {
            requests := requests + [(open.remote, OpenPacket(OpenConnRequest, ids[i], recvWindow, 0))];
          }
        }
      }
      assert ids[..|ids|] == ids;
    }

    method PollOpens(now: Micros)
      modifies this
      ensures State() == AdspSpec.PollOpens(old(State()), now)
    {
      var failures, requests := DueOpens(now);
      pendingOpens := OpensAfter(pendingOpens, now);
      events := events + failures;
      outbox := outbox + requests;
    }

    method PollAttention(key: u16, now: Micros)
      requires key in connections
      modifies this
      ensures State() == AdspSpec.PollAttention(old(State()), key, now)
      ensures connections.Keys == old(connections.Keys)
    {
      var c := connections[key];
      if c.attnInFlight.None? { return; }
      var attn := c.attnInFlight.value;
      if SaturatingSub(now, attn.lastTx) < ATTN_RETRY_INTERVAL { return; }
      if attn.retries + 1 > MAX_ATTN_RETRIES {
        connections := connections[key := c.(attnInFlight := None)];
        events := events + [AttentionFailed(key)];
        return;
      }
      connections := connections[key := c.(attnInFlight := Some(attn.(retries := attn.retries + 1, lastTx := now)))];
      outbox := outbox + [(c.remote, attn.packet)];
      ToRemoteSnoc(c.remote, [], attn.packet);
    }

    method PollStream(key: u16, now: Micros)
      requires key in connections
      modifies this
      ensures State() == AdspSpec.PollStream(old(State()), key, now)
      ensures connections.Keys == old(connections.Keys) || connections.Keys == old(connections.Keys) - {key}
    {
      var c := connections[key];
      if c.flightBuffer == [] || SaturatingSub(now, c.lastTx) < RETRANSMIT_TIMEOUT { return; }
      ghost var e0 := State();
      c := c.(retries := Min(c.retries + 1, 255));
      if c.retries > MAX_RETRIES {
        connections := connections - {key};
        events := events + [Closed(key)];
        return;
      }
      connections := connections[key := c];
      ResendUnacked(key, now);
    }

    method PollAttentions(now: Micros)
      modifies this
      ensures State() == AdspSpec.PollAttentions(old(State()), Ascending(old(connections.Keys)), now)
    {
      ghost var e0 := State();
      var keys := AscendingKeys(connections.Keys);
      for i := 0 to |keys|
        invariant State() == AdspSpec.PollAttentions(e0, keys[..i], now)
        invariant connections.Keys == e0.connections.Keys
      {
        assert keys[..i + 1][..i] == keys[..i] && keys[i] in keys;
        PollAttention(keys[i], now);
      }
      assert keys[..|keys|] == keys;
    }

    method PollStreams(now: Micros)
      modifies this
      ensures State() == AdspSpec.PollStreams(old(State()), Ascending(old(connections.Keys)), now)
    {
      ghost var e0 := State();
      var keys := AscendingKeys(connections.Keys);
      for i := 0 to |keys|
        invariant State() == AdspSpec.PollStreams(e0, keys[..i], now)
        invariant forall j :: i <= j < |keys| ==> keys[j] in connections
      {
        assert keys[..i + 1][..i] == keys[..i];
        PollStream(keys[i], now);
      }
      assert keys[..|keys|] == keys;
    }

    /** Drive the open, attention and retransmission timers, in that order. */
    method Poll(now: Micros)
      modifies this
      ensures State() == AdspSpec.Poll(old(State()), now)
    {
      PollOpens(now);
      PollAttentions(now);
      PollStreams(now);
    }

    method EarliestConnTimer() returns (r: Option<Micros>)
      ensures r.Some? ==> r.value in Deadlines(State())
      ensures forall k: u16 :: k in connections ==> NotAfterConn(r, connections[k])
    {
      r := None;
      var keys := AscendingKeys(connections.Keys);
      for i := 0 to |keys|
        invariant r.Some? ==> r.value in Deadlines(State())
        invariant forall j :: 0 <= j < i ==> NotAfterConn(r, connections[keys[j]])
      {
        assert keys[i] in keys;
        var c := connections[keys[i]];
        if c.flightBuffer != [] { r := Earlier(r, c.lastTx + RETRANSMIT_TIMEOUT); }
        if c.attnInFlight.Some? { r := Earlier(r, c.attnInFlight.value.lastTx + ATTN_RETRY_INTERVAL); }
      }
      forall k: u16 | k in connections ensures NotAfterConn(r, connections[k]) {
        assert k in keys;
      }
    }

    method EarliestOpenTimer() returns (r: Option<Micros>)
      ensures r.Some? ==> r.value in Deadlines(State())
      ensures forall id: u16 :: id in pendingOpens ==> NotAfter(r, pendingOpens[id].lastTx + OPEN_RETRY_INTERVAL)
    {
      r := None;
      var ids := AscendingKeys(pendingOpens.Keys);
      for i := 0 to |ids|
        invariant r.Some? ==> r.value in Deadlines(State())
        invariant forall j :: 0 <= j < i ==> NotAfter(r, pendingOpens[ids[j]].lastTx + OPEN_RETRY_INTERVAL)
      {
        assert ids[i] in ids;
        r := Earlier(r, pendingOpens[ids[i]].lastTx + OPEN_RETRY_INTERVAL);
      }
      forall id: u16 | id in pendingOpens ensures NotAfter(r, pendingOpens[id].lastTx + OPEN_RETRY_INTERVAL) {
        assert id in ids;
      }
    }

    /** The earliest moment any timer is due; none when nothing is pending. */
    method NextDeadline() returns (r: Option<Micros>)
      ensures r.None? <==> Deadlines(State()) == {}
      ensures r.Some? ==> r.value in Deadlines(State()) && forall d :: d in Deadlines(State()) ==> r.value <= d
    {
      var conns := EarliestConnTimer();
      r := EarliestOpenTimer();
      if conns.Some? { r := Earlier(r, conns.value); }
      assert forall d :: d in Deadlines(State()) ==> NotAfter(r, d);
    }

    method PollTransmit() returns (r: Option<(Address, Packet)>)
      modifies this
      ensures old(outbox) == [] ==> r == None && State() == old(State())
      ensures old(outbox) != [] ==> r == Some(old(outbox)[0]) && State() == old(State()).(outbox := old(outbox)[1..])
    {
      if outbox == [] { return None; }
      r, outbox := Some(outbox[0]), outbox[1..];
    }

    method PollEvent() returns (r: Option<AdspEvent>)
      modifies this
      ensures old(events) == [] ==> r == None && State() == old(State())
      ensures old(events) != [] ==> r == Some(old(events)[0]) && State() == old(State()).(events := old(events)[1..])
    {
      if events == [] { return None; }
      r, events := Some(events[0]), events[1..];
    }
  }

  /** `r` is no later than any timer of the connection. */
  predicate NotAfterConn(r: Option<Micros>, c: Connection) {
    && (c.flightBuffer != [] ==> NotAfter(r, c.lastTx + RETRANSMIT_TIMEOUT))
    && (c.attnInFlight.Some? ==> NotAfter(r, c.attnInFlight.value.lastTx + ATTN_RETRY_INTERVAL))
  }

  lemma {:induction false} ToRemoteCons(outbox: seq<(Address, Packet)>, r: Address, p: Packet, rest: seq<Packet>)
    ensures outbox + ToRemote(r, [p] + rest) == outbox + [(r, p)] + ToRemote(r, rest)
  {
  }

  /** An endpoint that has received a data packet and not yet looked at its acknowledgement. */
  function Received(e: Endpoint, p: Packet): Endpoint
    requires p.connId in e.connections
  {
    var (c, evs) := Receive(e.connections[p.connId], p);
    Emit(e.(connections := e.connections[p.connId := c]), evs)
  }

  /** Receiving, taking the acknowledgement, answering and pumping again, one after another. */
  lemma {:induction false} StreamStages(e: Endpoint, p: Packet, now: Micros)
    requires p.connId in e.connections
    ensures var key, w := p.connId, e.recvWindow;
            var e1 := Received(e, p);
            var e2 := Update(e1, key, Pump(TakeAck(e1.connections[key], p), w, Some(now)));
            var e3 := if p.ackReq then SendAck(e2, key) else e2;
            HandleStream(e, p, now) == Update(e3, key, Pump(e3.connections[key], w, Some(now)))
  {
    var key, w := p.connId, e.recvWindow;
    var e1 := Received(e, p);
    var c := e1.connections[key];
    var acked := Pump(TakeAck(c, p), w, Some(now));
    var reply := if p.ackReq then [AckPacket(acked.conn, w)] else [];
    var pumped := Pump(acked.conn, w, Some(now));
    PumpKeepsRemote(TakeAck(c, p), w, Some(now));
    PumpKeepsRemote(acked.conn, w, Some(now));
    AckIsUpdate(e1, key, acked, w);
    assert acked.out + [] == acked.out;
    UpdateTwice(e1, key, acked.conn, acked.out + reply, pumped);
    UpdateReceived(e, p, HandleData(e.connections[key], p, w, now));
  }

  lemma {:induction false} AckIsUpdate(e: Endpoint, key: u16, f: Effect, w: u16)
    requires w == e.recvWindow
    ensures SendAck(Update(e, key, f), key) == Update(e, key, Effect(f.conn, f.out + [AckPacket(f.conn, w)]))
  {
    ToRemoteSnoc(f.conn.remote, f.out, AckPacket(f.conn, w));
  }

  /** The event is queued before the packets or after them, it makes no difference. */
  lemma {:induction false} UpdateReceived(e: Endpoint, p: Packet, f: Effect)
    requires p.connId in e.connections
    ensures Update(Received(e, p), p.connId, f)
         == Emit(Update(e, p.connId, f), Receive(e.connections[p.connId], p).1)
  {
  }

  lemma {:induction false} PumpKeepsRemote(c: Connection, w: u16, now: Option<Micros>)
    ensures Pump(c, w, now).conn.remote == c.remote
    decreases PendingBytes(c.pendingWrites) + |c.pendingWrites|
  {
    if PumpStep(c, w, now).Some? {
      PumpStepShrinks(c, w, now);
      PumpKeepsRemote(PumpStep(c, w, now).value.conn, w, now);
    }
  }

  lemma {:induction false} StaleIsUnique(conns: map<u16, Connection>, ours: u16, k: u16)
    requires IsStaleKey(conns, ours, k)
    ensures forall j: u16 :: IsStaleKey(conns, ours, j) ==> j == k
  {
  }

  /** Pumping `c0` sends `sent` and then whatever pumping `c` sends. */
  ghost predicate PumpReaches(c0: Connection, window: u16, now: Option<Micros>, sent: seq<Packet>, c: Connection) {
    var rest := Pump(c, window, now);
    Pump(c0, window, now) == Effect(rest.conn, sent + rest.out)
  }

  lemma {:induction false} PumpStepReaches(c0: Connection, window: u16, now: Option<Micros>, sent: seq<Packet>,
      c: Connection)
    requires PumpReaches(c0, window, now, sent, c) && PumpStep(c, window, now).Some?
    ensures var step := PumpStep(c, window, now).value;
            && PumpReaches(c0, window, now, sent + step.out, step.conn)
            && PendingBytes(step.conn.pendingWrites) + |step.conn.pendingWrites|
                 < PendingBytes(c.pendingWrites) + |c.pendingWrites|
            && step.conn.remote == c.remote
  {
    PumpStepShrinks(c, window, now);
    var step := PumpStep(c, window, now).value;
    var rest := Pump(step.conn, window, now);
    assert (sent + step.out) + rest.out == sent + (step.out + rest.out);
  }

  lemma {:induction false} UpdateNothing(e: Endpoint, key: u16)
    requires key in e.connections
    ensures Update(e, key, Effect(e.connections[key], [])) == e
  {
    assert e.connections[key := e.connections[key]] == e.connections;
    assert e.outbox + ToRemote(e.connections[key].remote, []) == e.outbox;
  }

  /** Two updates of one connection, sending to the same address, are one. */
  lemma {:induction false} UpdateTwice(e: Endpoint, key: u16, c: Connection, sent: seq<Packet>, f: Effect)
    requires f.conn.remote == c.remote
    ensures Update(Update(e, key, Effect(c, sent)), key, f) == Update(e, key, Effect(f.conn, sent + f.out))
  {
    assert ToRemote(c.remote, sent) + ToRemote(c.remote, f.out) == ToRemote(c.remote, sent + f.out);
  }
}
