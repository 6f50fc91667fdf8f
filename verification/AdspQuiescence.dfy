/** No ack storm: with no timers and no new calls, every exchange between two ADSP
    endpoints dies out, whatever order packets arrive in and however many are lost. */
module AdspQuiescence {
  import opened Words
  import opened AdspSpec
  import opened AdspStream
  import AdspRekeying

  /** What a packet can still cost: itself, and the replies it may draw. */
  function PacketWeight(p: Packet): nat {
    if p.attention then (if p.Control() then 1 else 2)
    else match p.descriptor
      case OpenConnRequest => 3
      case OpenConnReqAck => 2
      case DataPacket => if p.ackReq then 2 else 1
      case ControlPacket => if p.ackReq then 2 else 1
      case _ => 1
  }

  function Weight(ps: seq<Packet>): nat {
    if ps == [] then 0 else PacketWeight(ps[0]) + Weight(ps[1..])
  }

  lemma {:induction false} WeightConcat(a: seq<Packet>, b: seq<Packet>)
    ensures Weight(a + b) == Weight(a) + Weight(b)
  {
    if a == [] {
      assert a + b == b;
    } else {
      assert (a + b)[1..] == a[1..] + b;
      WeightConcat(a[1..], b);
    }
  }

  function Without(ps: seq<Packet>, i: nat): seq<Packet>
    requires i < |ps|
  {
    ps[..i] + ps[i + 1..]
  }

  lemma {:induction false} WeightWithout(ps: seq<Packet>, i: nat)
    requires i < |ps|
    ensures Weight(ps) == PacketWeight(ps[i]) + Weight(Without(ps, i))
  {
    assert ps == ps[..i] + ([ps[i]] + ps[i + 1..]);
    WeightConcat(ps[..i], [ps[i]] + ps[i + 1..]);
    WeightConcat([ps[i]], ps[i + 1..]);
    WeightConcat(ps[..i], ps[i + 1..]);
    assert Weight([ps[i]]) == PacketWeight(ps[i]) + Weight([]);
  }

  /** What a connection's queue can still cost: a data packet and its ack for every place of
      sequence space not yet cut. */
  function QueueWeight(c: Connection): nat {
    3 * |PendingTokens(c.pendingWrites)|
  }

  ghost function QueuesWeight(m: map<u16, Connection>): nat
    decreases |m|
  {
    if m == map[] then 0 else
    var k: u16 :| k in m;
    QueueWeight(m[k]) + QueuesWeight(m - {k})
  }

  lemma {:induction false} QueuesWeightAt(m: map<u16, Connection>, k: u16)
    requires k in m
    ensures QueuesWeight(m) == QueueWeight(m[k]) + QueuesWeight(m - {k})
    decreases |m|
  {
    var j: u16 :| j in m && QueuesWeight(m) == QueueWeight(m[j]) + QueuesWeight(m - {j});
    if j != k {
      QueuesWeightAt(m - {j}, k);
      QueuesWeightAt(m - {k}, j);
      assert m - {j} - {k} == m - {k} - {j};
    }
  }

  lemma {:induction false} QueuesWeightUpdate(m: map<u16, Connection>, k: u16, c: Connection)
    ensures QueuesWeight(m[k := c]) == QueueWeight(c) + QueuesWeight(m - {k})
  {
    var m' := m[k := c];
    QueuesWeightAt(m', k);
    assert m' - {k} == m - {k};
  }

  function Packets(outbox: seq<(Address, Packet)>): seq<Packet> {
    seq(|outbox|, i requires 0 <= i < |outbox| => outbox[i].1)
  }

  /** An endpoint with its queues and its undelivered packets. */
  ghost function EndpointWeight(e: Endpoint): nat {
    QueuesWeight(e.connections) + Weight(Packets(e.outbox))
  }

  // ---- the pump ---------------------------------------------------------------------------

  /** A packet costs less than the sequence space it was cut from. */
  lemma {:induction false} PumpPaysForPackets(c: Connection, window: u16, now: Option<Micros>)
    ensures var f := Pump(c, window, now);
            QueueWeight(f.conn) + Weight(f.out) <= QueueWeight(c)
    ensures forall p :: p in Pump(c, window, now).out ==> p.descriptor != RetransmitAdvice
    decreases PendingBytes(c.pendingWrites) + |c.pendingWrites|
  {
    var step := PumpStep(c, window, now);
    if step.Some? {
      PumpStepShrinks(c, window, now);
      var chunk, eom := PumpStepIsCut(c, window, now);
      PumpPaysForPackets(step.value.conn, window, now);
      WeightConcat(step.value.out, Pump(step.value.conn, window, now).out);
      assert |PendingTokens(c.pendingWrites)| == |Tokens(chunk, eom)| + |PendingTokens(step.value.conn.pendingWrites)|;
      if step.value.out != [] {
        assert |step.value.out| == 1 && step.value.out[1..] == [];
        assert Weight(step.value.out) == 2;
      }
    }
  }

  lemma {:induction false} HandleDataCosts(c: Connection, p: Packet, window: u16, now: Micros)
    ensures var f := HandleData(c, p, window, now);
            QueueWeight(f.conn) + Weight(f.out) <= QueueWeight(c) + (if p.ackReq then 1 else 0)
    ensures forall q :: q in HandleData(c, p, window, now).out ==> q.descriptor != RetransmitAdvice
  {
    var c1 := TakeAck(Receive(c, p).0, p);
    PumpPaysForPackets(c1, window, Some(now));
    var acked := Pump(c1, window, Some(now));
    PumpPaysForPackets(acked.conn, window, Some(now));
    var pumped := Pump(acked.conn, window, Some(now));
    var reply := if p.ackReq then [AckPacket(acked.conn, window)] else [];
    WeightConcat(acked.out + reply, pumped.out);
    WeightConcat(acked.out, reply);
    assert Weight(reply) <= (if p.ackReq then 1 else 0) by {
      if p.ackReq { assert reply[1..] == []; }
    }
  }

  // ---- one delivery -------------------------------------------------------------------------

  lemma {:induction false} PacketsOfRemote(r: Address, ps: seq<Packet>)
    ensures Packets([] + ToRemote(r, ps)) == ps
  {
  }

  /** Nothing queued to send and nothing to report. */
  predicate Drained(e: Endpoint) {
    e.outbox == [] && e.events == []
  }

  lemma {:induction false} OnePacket(p: Packet)
    ensures Weight([p]) == PacketWeight(p)
  {
    assert [p][1..] == [];
  }

  lemma {:induction false} StreamCosts(e: Endpoint, p: Packet, now: Micros)
    requires Drained(e)
    ensures EndpointWeight(HandleStream(e, p, now)) <= EndpointWeight(e) + (if p.ackReq then 1 else 0)
    ensures forall m :: m in HandleStream(e, p, now).outbox ==> m.1.descriptor != RetransmitAdvice
  {
    if p.connId in e.connections {
      var c := e.connections[p.connId];
      var f := HandleData(c, p, e.recvWindow, now);
      HandleDataCosts(c, p, e.recvWindow, now);
      QueuesWeightAt(e.connections, p.connId);
      QueuesWeightUpdate(e.connections, p.connId, f.conn);
      PacketsOfRemote(f.conn.remote, f.out);
    }
  }

  lemma {:induction false} AttentionCosts(e: Endpoint, p: Packet)
    requires Drained(e)
    ensures EndpointWeight(HandleAttention(e, p)) <= EndpointWeight(e) + 1
    ensures EndpointWeight(HandleAttentionAck(e, p)) == EndpointWeight(e)
    ensures forall m :: m in HandleAttention(e, p).outbox + HandleAttentionAck(e, p).outbox ==> m.1.descriptor != RetransmitAdvice
  {
    if p.connId in e.connections {
      var c := e.connections[p.connId];
      QueuesWeightAt(e.connections, p.connId);
      QueuesWeightUpdate(e.connections, p.connId, RetireAttention(c));
      if |p.payload| >= 2 {
        var f := TakeAttention(c, p);
        QueuesWeightUpdate(e.connections, p.connId, f.conn);
        PacketsOfRemote(f.conn.remote, f.out);
        OnePacket(f.out[0]);
      }
    }
  }

  /** A handshake packet for a connection we hold under another key: the branch that moves
      the connection to the key the peer now uses. */
  ghost predicate Rekeys(e: Endpoint, p: Packet) {
    && !p.attention && (p.descriptor == OpenConnAck || p.descriptor == OpenConnReqAck)
    && p.connId !in e.connections && DestConnId(p) !in e.pendingOpens
    && exists k: u16 :: IsStaleKey(e.connections, DestConnId(p), k)
  }

  /** The third leg of the handshake is answered exactly when it re-keys a connection. The
      source means never to answer it, since two ends could acknowledge each other's
      acknowledgement forever. */
  lemma {:induction false} ThirdLegAnsweredOnlyByRekeying(e: Endpoint, src: Address, p: Packet, now: Micros)
    requires Drained(e) && p.descriptor == OpenConnAck && !p.attention
    ensures HandleOpenAck(e, src, p, now).outbox != [] <==> Rekeys(e, p)
  {
  }

  lemma {:induction false} OpenRequestCosts(e: Endpoint, src: Address, p: Packet, now: Micros, drawn: u16)
    requires Drained(e)
    ensures EndpointWeight(HandleOpenRequest(e, src, p, now, drawn)) <= EndpointWeight(e) + 2
    ensures forall m :: m in HandleOpenRequest(e, src, p, now, drawn).outbox ==> m.1.descriptor != RetransmitAdvice
  {
    var e' := HandleOpenRequest(e, src, p, now, drawn);
    if e.listening {
      if p.connId !in e.connections {
        NewQueues(e.connections, p.connId, NewConnection(MadeOdd(drawn), src, p.recvWindow, now));
      }
      assert Packets(e'.outbox) == [e'.outbox[0].1];
      OnePacket(e'.outbox[0].1);
    }
  }

  /** A connection moved to a free key keeps its queue. */
  lemma {:induction false} MovedQueues(m: map<u16, Connection>, stale: u16, key: u16)
    requires stale in m && key !in m
    ensures QueuesWeight((m - {stale})[key := m[stale]]) == QueuesWeight(m)
  {
    QueuesWeightAt(m, stale);
    QueuesWeightUpdate(m - {stale}, key, m[stale]);
    assert m - {stale} - {key} == m - {stale};
  }

  lemma {:induction false} NewQueues(m: map<u16, Connection>, key: u16, c: Connection)
    requires key !in m && QueueWeight(c) == 0
    ensures QueuesWeight(m[key := c]) == QueuesWeight(m)
  {
    QueuesWeightUpdate(m, key, c);
    assert m - {key} == m;
  }

  lemma {:induction false} OpenAckQueues(e: Endpoint, src: Address, p: Packet, now: Micros)
    ensures QueuesWeight(HandleOpenAck(e, src, p, now).connections) == QueuesWeight(e.connections)
  {
    var m: map<u16, Connection> := e.connections;
    if p.connId in m {
    } else if DestConnId(p) in e.pendingOpens {
      NewQueues(m, p.connId, NewConnection(DestConnId(p), src, p.recvWindow, now));
    } else if exists k: u16 :: IsStaleKey(m, DestConnId(p), k) {
      var stale: u16 :| IsStaleKey(m, DestConnId(p), stale);
      MovedQueues(m, stale, p.connId);
    }
  }

  lemma {:induction false} OpenAckReplies(e: Endpoint, src: Address, p: Packet, now: Micros)
    requires Drained(e) && (p.descriptor == OpenConnAck || p.descriptor == OpenConnReqAck) && !p.attention
    ensures var out := HandleOpenAck(e, src, p, now).outbox;
            && |out| <= (if p.descriptor == OpenConnReqAck || Rekeys(e, p) then 1 else 0)
            && forall m :: m in out ==> m.1.descriptor == OpenConnAck && !m.1.attention
  {
  }

  lemma {:induction false} OpenAckCosts(e: Endpoint, src: Address, p: Packet, now: Micros)
    requires Drained(e) && (p.descriptor == OpenConnAck || p.descriptor == OpenConnReqAck) && !p.attention
    ensures EndpointWeight(HandleOpenAck(e, src, p, now)) <=
            EndpointWeight(e) + (if p.descriptor == OpenConnReqAck || Rekeys(e, p) then 1 else 0)
    ensures forall m :: m in HandleOpenAck(e, src, p, now).outbox ==> m.1.descriptor != RetransmitAdvice
  {
    OpenAckQueues(e, src, p, now);
    OpenAckReplies(e, src, p, now);
    var out := HandleOpenAck(e, src, p, now).outbox;
    if out != [] {
      assert out[0] in out && Packets(out) == [out[0].1];
      OnePacket(out[0].1);
    }
  }

  lemma {:induction false} CloseCosts(e: Endpoint, p: Packet)
    requires Drained(e)
    ensures EndpointWeight(HandleClose(e, p)) <= EndpointWeight(e) && HandleClose(e, p).outbox == []
  {
    if p.connId in e.connections { QueuesWeightAt(e.connections, p.connId); }
  }

  /** A third leg that moves a connection to another key, and is answered. */
  ghost predicate BreaksEven(e: Endpoint, p: Packet) {
    p.descriptor == OpenConnAck && Rekeys(e, p)
  }

  /** Every delivery costs at least one: what the endpoint holds and sends afterwards weighs
      less than what it held and the packet did before. Re-keying on a third leg breaks even. */
  lemma {:induction false} DeliveryCosts(e: Endpoint, src: Address, p: Packet, now: Micros, drawn: u16)
    requires Drained(e) && p.descriptor != RetransmitAdvice
    ensures var e' := HandleDatagram(e, src, p, now, drawn);
            EndpointWeight(e') < EndpointWeight(e) + PacketWeight(p) + (if BreaksEven(e, p) then 1 else 0)
    ensures forall m :: m in HandleDatagram(e, src, p, now, drawn).outbox ==> m.1.descriptor != RetransmitAdvice
  {
    if p.attention {
      AttentionCosts(e, p);
    } else {
      match p.descriptor
      case OpenConnRequest => OpenRequestCosts(e, src, p, now, drawn);
      case OpenConnAck => OpenAckCosts(e, src, p, now);
      case OpenConnReqAck => OpenAckCosts(e, src, p, now);
      case DataPacket => StreamCosts(e, p, now);
      case ControlPacket => StreamCosts(e, p, now);
      case CloseAdvice => CloseCosts(e, p);
      case _ =>
    }
  }

  // ---- two endpoints ------------------------------------------------------------------------

  /** Two endpoints, with any number of connections each, and the packets on their way. */
  datatype Exchange = Exchange(a: Endpoint, b: Endpoint, toA: seq<Packet>, toB: seq<Packet>)

  ghost function Measure(x: Exchange): nat {
    EndpointWeight(x.a) + EndpointWeight(x.b) + Weight(x.toA) + Weight(x.toB)
  }

  datatype Delivery = Delivery(toB: bool, index: nat, lost: bool, src: Address, now: Micros, drawn: u16)

  /** `e` after a packet, with its outbox handed to the network and its events to the application. */
  ghost function After(e: Endpoint, d: Delivery, p: Packet): Endpoint {
    HandleDatagram(e, d.src, p, d.now, d.drawn)
  }

  /** Any packet in transit is delivered or lost. */
  ghost predicate Delivers(x: Exchange, x': Exchange, d: Delivery) {
    if d.toB then
      && d.index < |x.toB|
      && if d.lost then x' == x.(toB := Without(x.toB, d.index))
         else var e := After(x.b, d, x.toB[d.index]);
              x' == x.(b := e.(outbox := [], events := []),
                       toB := Without(x.toB, d.index), toA := x.toA + Packets(e.outbox))
    else
      && d.index < |x.toA|
      && if d.lost then x' == x.(toA := Without(x.toA, d.index))
         else var e := After(x.a, d, x.toA[d.index]);
              x' == x.(a := e.(outbox := [], events := []),
                       toA := Without(x.toA, d.index), toB := x.toB + Packets(e.outbox))
  }

  /** The one kind of delivery that need not shrink the exchange: a re-keying third leg. */
  ghost predicate RekeyingDelivery(x: Exchange, d: Delivery) {
    && !d.lost
    && if d.toB then d.index < |x.toB| && BreaksEven(x.b, x.toB[d.index])
       else d.index < |x.toA| && BreaksEven(x.a, x.toA[d.index])
  }

  ghost predicate NoAdvice(ps: seq<Packet>) {
    forall p :: p in ps ==> p.descriptor != RetransmitAdvice
  }

  /** Endpoints of this code never send RetransmitAdvice, so none is in transit. */
  ghost predicate Ordinary(x: Exchange) {
    Drained(x.a) && Drained(x.b) && NoAdvice(x.toA) && NoAdvice(x.toB)
  }

  lemma {:induction false} EachDeliveryShrinks(x: Exchange, x': Exchange, d: Delivery)
    requires Ordinary(x) && Delivers(x, x', d)
    ensures Ordinary(x')
    ensures Measure(x') < Measure(x) + (if RekeyingDelivery(x, d) then 1 else 0)
  {
    var ps, e := if d.toB then x.toB else x.toA, if d.toB then x.b else x.a;
    WeightWithout(ps, d.index);
    assert forall p :: p in Without(ps, d.index) ==> p in ps;
    if !d.lost {
      var p := ps[d.index];
      DeliveryCosts(e, d.src, p, d.now, d.drawn);
      var e' := After(e, d, p);
      DrainedWeight(e');
      WeightConcat(if d.toB then x.toA else x.toB, Packets(e'.outbox));
      assert NoAdvice(Packets(e'.outbox)) by {
        forall i | 0 <= i < |e'.outbox| ensures Packets(e'.outbox)[i].descriptor != RetransmitAdvice {
          assert e'.outbox[i] in e'.outbox;
        }
      }
      DrainedWeight(e);
    }
  }

  lemma {:induction false} DrainedWeight(e: Endpoint)
    ensures EndpointWeight(e) == EndpointWeight(e.(outbox := [], events := [])) + Weight(Packets(e.outbox))
  {
  }

  /** Deliveries one after another. */
  ghost predicate IsExchange(xs: seq<Exchange>, ds: seq<Delivery>) {
    |xs| == |ds| + 1 && forall i :: 0 <= i < |ds| ==> Delivers(xs[i], xs[i + 1], ds[i])
  }

  lemma {:induction false} PartOfExchange(xs: seq<Exchange>, ds: seq<Delivery>, i: nat)
    requires IsExchange(xs, ds) && i <= |ds|
    ensures IsExchange(xs[i..], ds[i..]) && IsExchange(xs[..i + 1], ds[..i])
  {
    forall j | 0 <= j < |ds[i..]| ensures Delivers(xs[i..][j], xs[i..][j + 1], ds[i..][j]) {
      assert Delivers(xs[i + j], xs[i + j + 1], ds[i + j]);
    }
  }

  // ---- re-keying -----------------------------------------------------------------------------

  predicate ThirdLeg(p: Packet) {
    !p.attention && p.descriptor == OpenConnAck
  }

  /** The ids a third leg on its way to one end names: the key it asks for and the connection. */
  function PairOf(end: AdspRekeying.End, p: Packet): AdspRekeying.Pair {
    if end.A? then AdspRekeying.Pair(p.connId, DestConnId(p)) else AdspRekeying.Pair(DestConnId(p), p.connId)
  }

  function ThirdLegs(end: AdspRekeying.End, ps: seq<Packet>): multiset<AdspRekeying.Pair> {
    if ps == [] then multiset{}
    else (if ThirdLeg(ps[0]) then multiset{PairOf(end, ps[0])} else multiset{}) + ThirdLegs(end, ps[1..])
  }

  lemma {:induction false} ThirdLegsConcat(end: AdspRekeying.End, a: seq<Packet>, b: seq<Packet>)
    ensures ThirdLegs(end, a + b) == ThirdLegs(end, a) + ThirdLegs(end, b)
  {
    if a == [] {
      assert a + b == b;
    } else {
      assert (a + b)[1..] == a[1..] + b;
      ThirdLegsConcat(end, a[1..], b);
    }
  }

  lemma {:induction false} ThirdLegsWithout(end: AdspRekeying.End, ps: seq<Packet>, i: nat)
    requires i < |ps| && ThirdLeg(ps[i])
    ensures PairOf(end, ps[i]) in ThirdLegs(end, ps)
    ensures ThirdLegs(end, Without(ps, i)) == ThirdLegs(end, ps) - multiset{PairOf(end, ps[i])}
  {
    assert ps == ps[..i] + ([ps[i]] + ps[i + 1..]);
    ThirdLegsConcat(end, ps[..i], [ps[i]] + ps[i + 1..]);
    ThirdLegsConcat(end, [ps[i]], ps[i + 1..]);
    ThirdLegsConcat(end, ps[..i], ps[i + 1..]);
    assert ThirdLegs(end, [ps[i]]) == multiset{PairOf(end, ps[i])} + ThirdLegs(end, []);
  }

  lemma {:induction false} ThirdLegsWeigh(end: AdspRekeying.End, ps: seq<Packet>)
    ensures |ThirdLegs(end, ps)| <= Weight(ps)
  {
    if ps != [] { ThirdLegsWeigh(end, ps[1..]); }
  }

  function Ids(m: map<u16, Connection>): map<u16, u16> {
    map k | k in m :: m[k].ourConnId
  }

  /** What of an exchange re-keying depends on. */
  function GameOf(x: Exchange): AdspRekeying.Game {
    AdspRekeying.Game(Ids(x.a.connections), Ids(x.b.connections),
                      ThirdLegs(AdspRekeying.A, x.toA), ThirdLegs(AdspRekeying.B, x.toB))
  }

  /** Re-keying moves one connection to a free key and answers with the same two ids. */
  lemma {:induction false} RekeyingMoves(e: Endpoint, src: Address, p: Packet, now: Micros)
    requires Drained(e) && ThirdLeg(p) && Rekeys(e, p)
    ensures var e' := HandleOpenAck(e, src, p, now);
            && AdspRekeying.Moves(Ids(e.connections), p.connId, DestConnId(p), Ids(e'.connections))
            && |e'.outbox| == 1 && ThirdLeg(e'.outbox[0].1)
            && e'.outbox[0].1.connId == DestConnId(p) && DestConnId(e'.outbox[0].1) == p.connId
  {
    var m: map<u16, Connection> := e.connections;
    var key: u16 := p.connId;
    var ours: u16 := DestConnId(p);
    var stale: u16 :| IsStaleKey(m, ours, stale);
    var e' := HandleOpenAck(e, src, p, now);
    assert e'.connections == (m - {stale})[key := m[stale]];
    assert Ids(e'.connections) == (Ids(m) - {stale})[key := ours];
    assert stale in Ids(m) && Ids(m)[stale] == ours;
    DestOfOpenPacket(OpenConnAck, ours, e.recvWindow, key);
  }

  lemma {:induction false} OneThirdLeg(end: AdspRekeying.End, p: Packet)
    requires ThirdLeg(p)
    ensures ThirdLegs(end, [p]) == multiset{PairOf(end, p)}
  {
    assert [p][1..] == [];
  }

  /** What a re-keying delivery does at the end it reaches, and to the packets on their way back. */
  lemma {:induction false} RekeyedEnd(e: Endpoint, d: Delivery, end: AdspRekeying.End, ps: seq<Packet>, back: seq<Packet>)
    requires Drained(e) && d.index < |ps| && ThirdLeg(ps[d.index]) && Rekeys(e, ps[d.index])
    ensures var p, other := ps[d.index], AdspRekeying.Other(end);
            var e' := After(e, d, p);
            && PairOf(end, p) in ThirdLegs(end, ps)
            && AdspRekeying.Moves(Ids(e.connections), p.connId, DestConnId(p), Ids(e'.connections))
            && ThirdLegs(end, Without(ps, d.index)) == ThirdLegs(end, ps) - multiset{PairOf(end, p)}
            && ThirdLegs(other, back + Packets(e'.outbox)) == ThirdLegs(other, back) + multiset{PairOf(end, p)}
  {
    var p, other := ps[d.index], AdspRekeying.Other(end);
    RekeyingMoves(e, d.src, p, d.now);
    ThirdLegsWithout(end, ps, d.index);
    var e' := HandleOpenAck(e, d.src, p, d.now);
    assert After(e, d, p) == e';
    var q := e'.outbox[0].1;
    assert Packets(e'.outbox) == [q];
    ThirdLegsConcat(other, back, [q]);
    OneThirdLeg(other, q);
  }

  /** A re-keying delivery is a move of the game. */
  lemma {:induction false} RekeyingFires(x: Exchange, x': Exchange, d: Delivery) returns (f: AdspRekeying.Fire)
    requires Ordinary(x) && Delivers(x, x', d) && RekeyingDelivery(x, d)
    ensures AdspRekeying.Fires(GameOf(x), f, GameOf(x'))
  {
    if d.toB {
      RekeyedEnd(x.b, d, AdspRekeying.B, x.toB, x.toA);
      f := AdspRekeying.Fire(AdspRekeying.B, PairOf(AdspRekeying.B, x.toB[d.index]));
    } else {
      RekeyedEnd(x.a, d, AdspRekeying.A, x.toA, x.toB);
      f := AdspRekeying.Fire(AdspRekeying.A, PairOf(AdspRekeying.A, x.toA[d.index]));
    }
  }

  ghost predicate AllRekey(xs: seq<Exchange>, ds: seq<Delivery>)
    requires |xs| == |ds| + 1
  {
    forall i :: 0 <= i < |ds| ==> RekeyingDelivery(xs[i], ds[i])
  }

  lemma {:induction false} FrontRekeys(xs: seq<Exchange>, ds: seq<Delivery>, n: nat)
    requires |xs| == |ds| + 1 && AllRekey(xs, ds) && n <= |ds|
    ensures AllRekey(xs[..n + 1], ds[..n])
  {
  }

  lemma {:induction false} RekeyingStep(x: Exchange, x': Exchange, d: Delivery) returns (f: AdspRekeying.Fire)
    requires Ordinary(x) && Delivers(x, x', d) && RekeyingDelivery(x, d)
    ensures AdspRekeying.Fires(GameOf(x), f, GameOf(x')) && Ordinary(x') && Measure(x') <= Measure(x)
  {
    EachDeliveryShrinks(x, x', d);
    f := RekeyingFires(x, x', d);
  }

  ghost function Games(xs: seq<Exchange>): (gs: seq<AdspRekeying.Game>)
    ensures |gs| == |xs| && forall i :: 0 <= i < |xs| ==> gs[i] == GameOf(xs[i])
  {
    seq(|xs|, i requires 0 <= i < |xs| => GameOf(xs[i]))
  }

  lemma {:induction false} GamesOneMore(xs: seq<Exchange>)
    requires xs != []
    ensures Games(xs) == Games(xs[..|xs| - 1]) + [GameOf(xs[|xs| - 1])]
  {
  }

  /** As long as every delivery re-keys, the exchange plays the game. */
  lemma {:induction false} RekeyingsEnd(xs: seq<Exchange>, ds: seq<Delivery>) returns (fs: seq<AdspRekeying.Fire>)
    requires IsExchange(xs, ds) && AllRekey(xs, ds) && Ordinary(xs[0])
    ensures |fs| == |ds| && AdspRekeying.IsPlay(Games(xs), fs)
    ensures Ordinary(xs[|ds|]) && Measure(xs[|ds|]) <= Measure(xs[0])
    decreases |ds|
  {
    fs := [];
    if ds != [] {
      var n := |ds| - 1;
      PartOfExchange(xs, ds, n);
      FrontRekeys(xs, ds, n);
      var front := RekeyingsEnd(xs[..n + 1], ds[..n]);
      var f := RekeyingStep(xs[n], xs[n + 1], ds[n]);
      fs := front + [f];
      GamesOneMore(xs);
      AdspRekeying.PlayOneMore(Games(xs[..n + 1]), front, f, GameOf(xs[n + 1]));
    }
  }

  // ---- every exchange ends -------------------------------------------------------------------

  /** How many deliveries an exchange of weight `w` can last: some re-keyings, a delivery that
      lowers the weight, and so on. */
  function ExchangeBound(w: nat): nat {
    if w == 0 then 0 else AdspRekeying.PlayBound(w, w) + 1 + ExchangeBound(w - 1)
  }

  lemma {:induction false} BoundGrows(v: nat, w: nat)
    requires v <= w
    ensures ExchangeBound(v) <= ExchangeBound(w)
    ensures v < w ==> AdspRekeying.PlayBound(w, w) + 1 + ExchangeBound(v) <= ExchangeBound(w)
    decreases w
  {
    if v < w { BoundGrows(v, w - 1); }
  }

  lemma {:induction false} PlayWithinBound(w: nat)
    ensures AdspRekeying.PlayBound(w, w) <= ExchangeBound(w)
  {
  }

  /** The first delivery that does not re-key. */
  ghost function FirstShrinking(xs: seq<Exchange>, ds: seq<Delivery>): (i: nat)
    requires |xs| == |ds| + 1
    ensures i <= |ds| && (i < |ds| ==> !RekeyingDelivery(xs[i], ds[i]))
    ensures forall j :: 0 <= j < i ==> RekeyingDelivery(xs[j], ds[j])
    decreases |ds|
  {
    if ds == [] || !RekeyingDelivery(xs[0], ds[0]) then 0 else
    var rest := FirstShrinking(xs[1..], ds[1..]);
    assert forall j :: 1 <= j < 1 + rest ==> xs[j] == xs[1..][j - 1] && ds[j] == ds[1..][j - 1];
    1 + rest
  }

  lemma {:induction false} RekeyingsFew(xs: seq<Exchange>, ds: seq<Delivery>)
    requires IsExchange(xs, ds) && AllRekey(xs, ds) && Ordinary(xs[0])
    ensures |ds| <= AdspRekeying.PlayBound(Measure(xs[0]), Measure(xs[0]))
    ensures Ordinary(xs[|ds|]) && Measure(xs[|ds|]) <= Measure(xs[0])
  {
    var fs := RekeyingsEnd(xs, ds);
    ThirdLegsWeigh(AdspRekeying.A, xs[0].toA);
    ThirdLegsWeigh(AdspRekeying.B, xs[0].toB);
    AdspRekeying.PlaysEnd(Games(xs), fs, Measure(xs[0]));
  }

  lemma {:induction false} LeadingRekeyings(xs: seq<Exchange>, ds: seq<Delivery>, i: nat)
    requires IsExchange(xs, ds) && Ordinary(xs[0]) && i <= |ds|
    requires forall j :: 0 <= j < i ==> RekeyingDelivery(xs[j], ds[j])
    ensures i <= AdspRekeying.PlayBound(Measure(xs[0]), Measure(xs[0]))
    ensures Ordinary(xs[i]) && Measure(xs[i]) <= Measure(xs[0])
  {
    PartOfExchange(xs, ds, i);
    assert AllRekey(xs[..i + 1], ds[..i]);
    RekeyingsFew(xs[..i + 1], ds[..i]);
  }

  lemma {:induction false} ShrinkingStep(xs: seq<Exchange>, ds: seq<Delivery>, i: nat)
    requires IsExchange(xs, ds) && i < |ds| && Ordinary(xs[i]) && !RekeyingDelivery(xs[i], ds[i])
    ensures Ordinary(xs[i + 1]) && Measure(xs[i + 1]) < Measure(xs[i])
  {
    EachDeliveryShrinks(xs[i], xs[i + 1], ds[i]);
  }

  /** Quiescence. However deliveries and losses are ordered, with any number of connections at
      each end, an exchange is over after a number of deliveries fixed by what was queued and in
      transit at its start. */
  lemma {:induction false} ExchangesEnd(xs: seq<Exchange>, ds: seq<Delivery>)
    requires IsExchange(xs, ds) && Ordinary(xs[0])
    ensures |ds| <= ExchangeBound(Measure(xs[0]))
    decreases |ds|
  {
    var i, w := FirstShrinking(xs, ds), Measure(xs[0]);
    LeadingRekeyings(xs, ds, i);
    if i < |ds| {
      ShrinkingStep(xs, ds, i);
      PartOfExchange(xs, ds, i + 1);
      ExchangesEnd(xs[i + 1..], ds[i + 1..]);
      BoundGrows(Measure(xs[i + 1]), w);
    } else {
      PlayWithinBound(w);
    }
  }

  // ---- one connection --------------------------------------------------------------------------

  /** An end with at most the one connection, ours `id` and theirs `peer`. */
  ghost predicate LoneEnd(e: Endpoint, id: u16, peer: u16) {
    && e.connections.Keys <= {peer} && e.pendingOpens.Keys <= {id}
    && (peer in e.connections ==> e.connections[peer].ourConnId == id)
  }

  /** A packet of that connection. */
  predicate Addressed(p: Packet, from: u16, to: u16) {
    && p.connId == from
    && (!p.attention && (p.descriptor == OpenConnAck || p.descriptor == OpenConnReqAck) ==> DestConnId(p) == to)
  }

  ghost predicate Lone(x: Exchange, idA: u16, idB: u16) {
    && LoneEnd(x.a, idA, idB) && LoneEnd(x.b, idB, idA)
    && (forall p :: p in x.toA ==> Addressed(p, idB, idA))
    && (forall p :: p in x.toB ==> Addressed(p, idA, idB))
  }

  /** An end that takes a new connection draws the id it is to have. */
  ghost predicate DrawsRight(x: Exchange, d: Delivery, idA: u16, idB: u16) {
    if d.toB then x.b.listening ==> MadeOdd(d.drawn) == idB else x.a.listening ==> MadeOdd(d.drawn) == idA
  }

  lemma {:induction false} LoneNeverRekeys(e: Endpoint, id: u16, peer: u16, p: Packet)
    requires LoneEnd(e, id, peer) && p.connId == peer
    ensures !Rekeys(e, p)
  {
    if peer !in e.connections { assert e.connections.Keys == {}; }
  }

  lemma {:induction false} LoneStream(e: Endpoint, id: u16, peer: u16, p: Packet, now: Micros)
    requires LoneEnd(e, id, peer) && Drained(e) && p.connId == peer
    ensures var e' := HandleStream(e, p, now);
            LoneEnd(e', id, peer) && forall m :: m in e'.outbox ==> Addressed(m.1, id, peer)
  {
    if peer in e.connections {
      HandleDataFromStream(e.connections[peer], p, e.recvWindow, now);
      var f := HandleData(e.connections[peer], p, e.recvWindow, now);
      assert forall m :: m in ToRemote(f.conn.remote, f.out) ==> m.1 in f.out;
    }
  }

  lemma {:induction false} LoneOpens(e: Endpoint, src: Address, id: u16, peer: u16, p: Packet, now: Micros, drawn: u16)
    requires LoneEnd(e, id, peer) && Drained(e) && Addressed(p, peer, id)
    requires e.listening ==> MadeOdd(drawn) == id
    ensures var e' := HandleOpenRequest(e, src, p, now, drawn);
            LoneEnd(e', id, peer) && forall m :: m in e'.outbox ==> Addressed(m.1, id, peer)
    ensures !p.attention && (p.descriptor == OpenConnAck || p.descriptor == OpenConnReqAck) ==>
              var e' := HandleOpenAck(e, src, p, now);
              LoneEnd(e', id, peer) && forall m :: m in e'.outbox ==> Addressed(m.1, id, peer)
  {
    DestOfOpenPacket(OpenConnReqAck, id, e.recvWindow, peer);
    DestOfOpenPacket(OpenConnAck, id, e.recvWindow, peer);
    LoneNeverRekeys(e, id, peer, p);
  }

  lemma {:induction false} LoneDatagram(e: Endpoint, src: Address, id: u16, peer: u16, p: Packet, now: Micros,
      drawn: u16)
    requires LoneEnd(e, id, peer) && Drained(e) && Addressed(p, peer, id) && p.descriptor != RetransmitAdvice
    requires e.listening ==> MadeOdd(drawn) == id
    ensures var e' := HandleDatagram(e, src, p, now, drawn);
            LoneEnd(e', id, peer) && forall m :: m in e'.outbox ==> Addressed(m.1, id, peer)
  {
    LoneStream(e, id, peer, p, now);
    LoneOpens(e, src, id, peer, p, now, drawn);
  }

  lemma {:induction false} LoneDelivery(x: Exchange, x': Exchange, d: Delivery, idA: u16, idB: u16)
    requires Ordinary(x) && Delivers(x, x', d) && Lone(x, idA, idB) && DrawsRight(x, d, idA, idB)
    ensures Lone(x', idA, idB) && !RekeyingDelivery(x, d)
  {
    var e, ps := if d.toB then x.b else x.a, if d.toB then x.toB else x.toA;
    var id, peer := if d.toB then idB else idA, if d.toB then idA else idB;
    var p := ps[d.index];
    assert p in ps && forall q :: q in Without(ps, d.index) ==> q in ps;
    LoneNeverRekeys(e, id, peer, p);
    if !d.lost {
      LoneDatagram(e, d.src, id, peer, p, d.now, d.drawn);
      assert forall q :: q in Packets(After(e, d, p).outbox) ==> Addressed(q, id, peer);
    }
  }

  /** With one connection between two ends every delivery lowers the weight, so an exchange lasts
      no longer than the weight of what was queued and in transit at its start. */
  lemma {:induction false} OneConnectionExchangesEnd(xs: seq<Exchange>, ds: seq<Delivery>, idA: u16, idB: u16)
    requires IsExchange(xs, ds) && Ordinary(xs[0]) && Lone(xs[0], idA, idB)
    requires forall i :: 0 <= i < |ds| ==> DrawsRight(xs[i], ds[i], idA, idB)
    ensures |ds| + Measure(xs[|ds|]) <= Measure(xs[0])
    decreases |ds|
  {
    if ds != [] {
      LoneDelivery(xs[0], xs[1], ds[0], idA, idB);
      EachDeliveryShrinks(xs[0], xs[1], ds[0]);
      PartOfExchange(xs, ds, 1);
      forall i | 0 <= i < |ds[1..]| ensures DrawsRight(xs[1..][i], ds[1..][i], idA, idB) {
        assert DrawsRight(xs[i + 1], ds[i + 1], idA, idB);
      }
      OneConnectionExchangesEnd(xs[1..], ds[1..], idA, idB);
    }
  }
}
