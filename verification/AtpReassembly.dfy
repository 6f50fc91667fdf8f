/** Splitting a reply into packets and putting it together again. */
module AtpReassembly {
  import opened Words
  import opened AtpSpec

  /** The number of packets a reply of these chunks is sent in. */
  function Count(chunks: seq<Chunk>): nat {
    Min(|chunks|, MAX_REPLY_PACKETS)
  }

  /** The data of the chunks, end to end. */
  function Concat(chunks: seq<Chunk>): seq<byte> {
    if chunks == [] then [] else Concat(chunks[..|chunks| - 1]) + chunks[|chunks| - 1].data
  }

  /** What the packets of a reply carry: the chunks after the eighth are not sent. */
  function Carried(chunks: seq<Chunk>): seq<byte> {
    Concat(chunks[..Count(chunks)])
  }

  /** A request asks for at least as many packets as the reply has; an empty bitmap sets no limit. */
  predicate Fits(bitmap: u8, packets: nat) {
    bitmap == 0 || packets <= Ones(bitmap)
  }

  // ---- counting -------------------------------------------------------------------------------

  lemma {:induction false} OnesZero(n: nat)
    ensures Ones(n) == 0 <==> n == 0
  {
    if n > 0 { OnesZero(n / 2); }
  }

  lemma {:induction false} SmallSet(s: set<u8>, n: nat)
    requires forall i :: i in s ==> i < n
    ensures |s| <= n
  {
    if s != {} {
      var m: u8 :| m in s;
      if n - 1 < 0x100 && (n - 1) as u8 in s {
        SmallSet(s - {(n - 1) as u8}, n - 1);
      } else {
        SmallSet(s, n - 1);
      }
    }
  }

  /** A set of small numbers is full exactly when none is missing. */
  lemma {:induction false} FullSet(s: set<u8>, n: nat)
    requires n <= 0x100 && forall i :: i in s ==> i < n
    ensures |s| == n <==> forall i: u8 :: i < n ==> i in s
  {
    if n > 0 {
      var last: u8 := (n - 1) as u8;
      FullSet(s - {last}, n - 1);
      if last in s {
        assert forall i: u8 :: i < n - 1 ==> (i in s <==> i in s - {last});
      } else {
        SmallSet(s, n - 1);
      }
    }
  }

  // ---- one packet at a time ---------------------------------------------------------------------

  /** The requestor holds only what the reply of these chunks carries. */
  predicate Holds(s: PendingRequest, chunks: seq<Chunk>) {
    var n := Count(chunks);
    && (forall i: u8 :: i in s.received ==> i < n && s.received[i] == chunks[i].data)
    && s.eomSeq == (if n > 0 && (n - 1) as u8 in s.received then Some((n - 1) as u8) else None)
    && (s.received == map[] ==> s.userBytes == None)
    && (s.received != map[] ==>
          exists i: u8 :: i in s.received && s.userBytes == Some(chunks[i].userBytes))
  }

  predicate AllIn(s: PendingRequest, n: nat) {
    forall i: u8 :: i < n ==> i in s.received
  }

  lemma {:induction false} FiledHolds(s: PendingRequest, chunks: seq<Chunk>, tid: u16, i: u8)
    requires Holds(s, chunks) && i < Count(chunks)
    ensures var s' := Filed(s, Framed(tid, chunks)[i]);
            && Holds(s', chunks) && s'.received.Keys == s.received.Keys + {i}
            && s'.requestedBitmap == s.requestedBitmap && s'.dest == s.dest
  {
    var p := Framed(tid, chunks)[i];
    var s' := Filed(s, p);
    assert s'.received[i] == chunks[i].data;
    if s.received == map[] {
      assert i in s'.received && s'.userBytes == Some(chunks[i].userBytes);
    } else {
      var j: u8 :| j in s.received && s.userBytes == Some(chunks[j].userBytes);
      assert j in s'.received;
    }
  }

  /** While the reply fits the bitmap, a request is complete when every packet is in and no sooner. */
  lemma {:induction false} CompleteWhenAllIn(s: PendingRequest, chunks: seq<Chunk>)
    requires Holds(s, chunks) && s.received != map[] && Fits(s.requestedBitmap, Count(chunks))
    ensures Complete(s) <==> AllIn(s, Count(chunks))
    ensures Complete(s) ==> Expected(s) == Count(chunks)
  {
    var n := Count(chunks);
    assert n > 0 by { var i: u8 :| i in s.received; }
    if s.eomSeq.None? {
      SmallSet(s.received.Keys, n);
      FullSet(s.received.Keys, n);
      OnesZero(s.requestedBitmap);
      assert !AllIn(s, n);
      assert |s.received.Keys| == |s.received|;
    }
  }

  lemma {:induction false} ConcatStep(chunks: seq<Chunk>, n: nat)
    requires n < |chunks|
    ensures Concat(chunks[..n + 1]) == Concat(chunks[..n]) + chunks[n].data
  {
    assert chunks[..n + 1][..n] == chunks[..n];
  }

  lemma {:induction false} GatherHeld(s: PendingRequest, chunks: seq<Chunk>, n: nat)
    requires Holds(s, chunks) && n <= Count(chunks) && AllIn(s, n)
    ensures Gather(s.received, n) == Some(Concat(chunks[..n]))
  {
    if n > 0 {
      GatherHeld(s, chunks, n - 1);
      ConcatStep(chunks, n - 1);
      assert (n - 1) as u8 in s.received;
    }
  }

  /** A missing packet below `n` leaves nothing to return. */
  lemma {:induction false} GatherHole(received: map<u8, seq<byte>>, n: nat, hole: u8)
    requires hole < n && hole !in received
    ensures Gather(received, n) == None
  {
    if hole < n - 1 { GatherHole(received, n - 1, hole); }
  }

  /** A response packet that completes its request. */
  lemma {:induction false} ResponseCloses(a: Atp, src: Address, p: AtpPacket, full: seq<byte>)
    requires p.tid in a.pending
    requires var s := Filed(a.pending[p.tid], p);
             && Complete(s) && Expected(s) < 0x100 && s.userBytes.Some?
             && Gather(s.received, Expected(s)) == Some(full)
    ensures var a' := HandleResponse(a, src, p);
            && a'.pending == a.pending - {p.tid}
            && a'.events == a.events + [ResponseEvent(p.tid, Filed(a.pending[p.tid], p).userBytes.value, full)]
            && a'.outbox == a.outbox + [(src, ReleasePacket(p.tid))]
  {
  }

  /** What the endpoint does with one packet of a fitting reply. */
  lemma {:induction false} OnePacket(a: Atp, src: Address, tid: u16, chunks: seq<Chunk>, i: u8)
    requires tid in a.pending && Holds(a.pending[tid], chunks) && i < Count(chunks)
    requires Fits(a.pending[tid].requestedBitmap, Count(chunks))
    ensures var p := Framed(tid, chunks)[i];
            var s := Filed(a.pending[tid], p);
            var a' := HandleResponse(a, src, p);
            && Holds(s, chunks) && s.received.Keys == a.pending[tid].received.Keys + {i}
            && s.requestedBitmap == a.pending[tid].requestedBitmap
            && s.userBytes.Some?
            && if AllIn(s, Count(chunks))
               then && a'.pending == a.pending - {tid}
                    && a'.events == a.events + [ResponseEvent(tid, s.userBytes.value, Carried(chunks))]
                    && a'.outbox == a.outbox + [(src, ReleasePacket(tid))]
               else a' == a.(pending := a.pending[tid := s])
  {
    var p := Framed(tid, chunks)[i];
    var s := Filed(a.pending[tid], p);
    FiledHolds(a.pending[tid], chunks, tid, i);
    assert i in s.received;
    CompleteWhenAllIn(s, chunks);
    if AllIn(s, Count(chunks)) {
      GatherHeld(s, chunks, Count(chunks));
      ResponseCloses(a, src, p, Carried(chunks));
    }
  }

  // ---- any arrival order --------------------------------------------------------------------------

  predicate Within(order: seq<u8>, n: nat) {
    forall i :: 0 <= i < |order| ==> order[i] < n
  }

  /** Packets of a reply arriving in this order; indices may repeat or never come. */
  function Feed(a: Atp, src: Address, ps: seq<AtpPacket>, order: seq<u8>): Atp
    requires Within(order, |ps|)
    decreases |order|
  {
    if order == [] then a else
    HandleResponse(Feed(a, src, ps, order[..|order| - 1]), src, ps[order[|order| - 1]])
  }

  predicate Covers(order: seq<u8>, n: nat) {
    forall i: u8 :: i < n ==> i in order
  }

  /** A request nothing has come in for. */
  predicate Untouched(a: Atp, tid: u16) {
    && tid in a.pending
    && a.pending[tid].received == map[] && a.pending[tid].userBytes == None && a.pending[tid].eomSeq == None
  }

  function SetOf(order: seq<u8>): set<u8> {
    set i | i in order
  }

  /** Where an order of arrivals leaves the requestor: still waiting, with what has come, or done
      with one response. */
  ghost predicate FedTo(a: Atp, f: Atp, tid: u16, chunks: seq<Chunk>, order: seq<u8>) {
    tid in a.pending &&
    if Covers(order, Count(chunks)) then
      && f.pending == a.pending - {tid}
      && exists i: u8 :: i in order && i < Count(chunks)
           && f.events == a.events + [ResponseEvent(tid, chunks[i].userBytes, Carried(chunks))]
    else
      && tid in f.pending && Holds(f.pending[tid], chunks)
      && f.pending == a.pending[tid := f.pending[tid]]
      && f.pending[tid].received.Keys == SetOf(order)
      && f.pending[tid].requestedBitmap == a.pending[tid].requestedBitmap
      && f.events == a.events
  }

  /** Any order, with any repeats: the requestor waits until the last missing packet is in and then
      raises exactly one response, which carries the reply's bytes and the user bytes of one of its
      packets. */
  lemma {:induction false} AnyOrder(a: Atp, src: Address, tid: u16, chunks: seq<Chunk>, order: seq<u8>)
    requires Untouched(a, tid) && chunks != []
    requires Fits(a.pending[tid].requestedBitmap, Count(chunks))
    requires Within(order, Count(chunks))
    ensures FedTo(a, Feed(a, src, Framed(tid, chunks), order), tid, chunks, order)
    decreases |order|
  {
    if order == [] {
      assert a.pending[tid := a.pending[tid]] == a.pending;
      assert !Covers(order, Count(chunks)) by { assert 0 !in order; }
    } else {
      var front, last := order[..|order| - 1], order[|order| - 1];
      assert order == front + [last];
      AnyOrder(a, src, tid, chunks, front);
      var f := Feed(a, src, Framed(tid, chunks), front);
      if Covers(front, Count(chunks)) {
        assert Covers(order, Count(chunks));
        var i: u8 :| i in front && i < Count(chunks)
          && f.events == a.events + [ResponseEvent(tid, chunks[i].userBytes, Carried(chunks))];
        assert i in order;
      } else {
        LastOf(a, f, src, tid, chunks, front, last);
      }
    }
  }

  lemma {:induction false} LastOf(a: Atp, f: Atp, src: Address, tid: u16, chunks: seq<Chunk>, front: seq<u8>, last: u8)
    requires tid in a.pending && !Covers(front, Count(chunks)) && FedTo(a, f, tid, chunks, front)
    requires last < Count(chunks) && Fits(a.pending[tid].requestedBitmap, Count(chunks))
    ensures FedTo(a, HandleResponse(f, src, Framed(tid, chunks)[last]), tid, chunks, front + [last])
  {
    var order := front + [last];
    OnePacket(f, src, tid, chunks, last);
    var s := Filed(f.pending[tid], Framed(tid, chunks)[last]);
    assert SetOf(order) == SetOf(front) + {last};
    assert s.received.Keys == SetOf(order);
    assert forall i: u8 :: i in s.received <==> i in order;
    assert AllIn(s, Count(chunks)) <==> Covers(order, Count(chunks));
    if AllIn(s, Count(chunks)) {
      var i: u8 :| i in s.received && s.userBytes == Some(chunks[i].userBytes);
      assert i in order;
      assert f.pending - {tid} == a.pending - {tid};
    }
  }

  // ---- split and join ---------------------------------------------------------------------------------

  function Join(pieces: seq<seq<byte>>): seq<byte> {
    if pieces == [] then [] else pieces[0] + Join(pieces[1..])
  }

  lemma {:induction false} CeilStep(n: nat, d: nat)
    requires 0 < d < n
    ensures CeilDiv(n, d) == CeilDiv(n - d, d) + 1
  {
    var q, r := (n - 1) / d, (n - 1) % d;
    assert n - 1 == d * q + r;
    assert n - 1 + d == d * (q + 1) + r;
    Quotient(n - 1 + d, d, q + 1, r);
  }

  lemma {:induction false} SplitJoins(data: seq<byte>, size: nat)
    requires size > 0
    ensures Join(Split(data, size)) == data
    ensures |Split(data, size)| == CeilDiv(|data|, size)
    ensures forall i :: 0 <= i < |Split(data, size)| ==> 0 < |Split(data, size)[i]| <= size
    decreases |data|
  {
    if data == [] {
    } else if |data| <= size {
      assert CeilDiv(|data|, size) == 1;
      assert Split(data, size)[1..] == [];
    } else {
      SplitJoins(data[size..], size);
      CeilStep(|data|, size);
      assert Split(data, size)[1..] == Split(data[size..], size);
      assert data == data[..size] + data[size..];
    }
  }

  /** The chunks that carry these pieces under one set of user bytes. */
  function Under(userBytes: UserBytes, pieces: seq<seq<byte>>): seq<Chunk> {
    seq(|pieces|, i requires 0 <= i < |pieces| => Chunk(userBytes, pieces[i]))
  }

  lemma {:induction false} JoinSnoc(pieces: seq<seq<byte>>, last: seq<byte>)
    ensures Join(pieces + [last]) == Join(pieces) + last
  {
    if pieces != [] {
      JoinSnoc(pieces[1..], last);
      assert (pieces + [last])[1..] == pieces[1..] + [last];
    }
  }

  lemma {:induction false} ConcatJoins(userBytes: UserBytes, pieces: seq<seq<byte>>)
    ensures Concat(Under(userBytes, pieces)) == Join(pieces)
  {
    if pieces != [] {
      var front, last := pieces[..|pieces| - 1], pieces[|pieces| - 1];
      assert pieces == front + [last];
      ConcatJoins(userBytes, front);
      JoinSnoc(front, last);
      var all := Under(userBytes, pieces);
      assert all[..|all| - 1] == Under(userBytes, front);
    }
  }

  lemma {:induction false} JoinLength(pieces: seq<seq<byte>>, n: nat)
    requires n <= |pieces| && forall i :: 0 <= i < |pieces| ==> |pieces[i]| > 0
    ensures |Join(pieces[..n])| <= |Join(pieces)|
    ensures n < |pieces| ==> |Join(pieces[..n])| < |Join(pieces)|
  {
    if n > 0 {
      JoinLength(pieces[1..], n - 1);
      assert pieces[..n][1..] == pieces[1..][..n - 1];
    } else if pieces != [] {
      assert |Join(pieces)| >= |pieces[0]|;
    }
  }

  /** The chunk size in force: at least one byte. */
  function Size(chunkSize: nat): nat {
    if chunkSize == 0 then 1 else chunkSize
  }

  /** The number of packets `Respond` would need for the data. */
  function Needed(data: seq<byte>, chunkSize: nat): nat {
    if data == [] then 1 else CeilDiv(|data|, Size(chunkSize))
  }

  /** The chunks of a reply carry the data exactly when eight are enough; else a shorter prefix. */
  lemma {:induction false} ChunksCarry(userBytes: UserBytes, data: seq<byte>, chunkSize: nat)
    ensures var chunks := ReplyChunks(userBytes, data, chunkSize);
            && |chunks| == Min(Needed(data, chunkSize), MAX_REPLY_PACKETS)
            && (forall i :: 0 <= i < |chunks| ==> chunks[i].userBytes == userBytes)
            && (data != [] ==> forall i :: 0 <= i < |chunks| ==> |chunks[i].data| > 0)
            && (Needed(data, chunkSize) <= MAX_REPLY_PACKETS ==> Concat(chunks) == data)
            && (Needed(data, chunkSize) > MAX_REPLY_PACKETS ==> |Concat(chunks)| < |data|)
  {
    if data == [] {
      var one := [Chunk(userBytes, [])];
      assert one[..0] == [] && Concat(one) == Concat(one[..0]) + [];
    } else {
      var pieces := Split(data, Size(chunkSize));
      SplitJoins(data, Size(chunkSize));
      var kept := if |pieces| > MAX_REPLY_PACKETS then pieces[..MAX_REPLY_PACKETS] else pieces;
      assert ReplyChunks(userBytes, data, chunkSize) == Under(userBytes, kept);
      ConcatJoins(userBytes, kept);
      if |pieces| > MAX_REPLY_PACKETS { JoinLength(pieces, MAX_REPLY_PACKETS); }
    }
  }

  /** The reply comes through whole in every arrival order that misses no packet. */
  ghost predicate Faithful(a: Atp, src: Address, tid: u16, userBytes: UserBytes, data: seq<byte>, chunkSize: nat) {
    var ps := Framed(tid, ReplyChunks(userBytes, data, chunkSize));
    forall order: seq<u8> :: Within(order, |ps|) && Covers(order, |ps|) ==>
      var f := Feed(a, src, ps, order);
      f.events == a.events + [ResponseEvent(tid, userBytes, data)] && f.pending == a.pending - {tid}
  }

  /** The round trip: data that fits eight packets and the bitmap comes back byte for byte, with the
      user bytes, in one response, whatever the order of arrival. */
  lemma {:induction false} RoundTrip(
      a: Atp, src: Address, tid: u16, userBytes: UserBytes, data: seq<byte>, chunkSize: nat, order: seq<u8>)
    requires Untouched(a, tid)
    requires Needed(data, chunkSize) <= MAX_REPLY_PACKETS
    requires Fits(a.pending[tid].requestedBitmap, Needed(data, chunkSize))
    requires Within(order, Needed(data, chunkSize))
    requires Covers(order, Needed(data, chunkSize))
    ensures |ReplyChunks(userBytes, data, chunkSize)| == Needed(data, chunkSize)
    ensures var f := Feed(a, src, Framed(tid, ReplyChunks(userBytes, data, chunkSize)), order);
            f.events == a.events + [ResponseEvent(tid, userBytes, data)] && f.pending == a.pending - {tid}
  {
    var chunks := ReplyChunks(userBytes, data, chunkSize);
    ChunksCarry(userBytes, data, chunkSize);
    assert chunks[..|chunks|] == chunks;
    NeededPositive(data, chunkSize);
    AnyOrder(a, src, tid, chunks, order);
  }

  lemma {:induction false} NeededPositive(data: seq<byte>, chunkSize: nat)
    ensures Needed(data, chunkSize) > 0
  {
    if data != [] { SplitJoins(data, Size(chunkSize)); }
  }

  // ---- when the bitmap is too small ---------------------------------------------------------------

  function UpTo(n: nat): seq<u8>
    requires n <= 0x100
  {
    seq(n, i requires 0 <= i < n => i as u8)
  }

  /** The first `j` packets are in and no other. */
  predicate FirstIn(s: PendingRequest, j: nat) {
    forall i: u8 :: i in s.received <==> i < j
  }

  lemma {:induction false} FirstInSize(s: PendingRequest, j: nat)
    requires FirstIn(s, j) && j <= 0x100
    ensures |s.received| == j
  {
    FullSet(s.received.Keys, j);
    assert |s.received.Keys| == |s.received|;
  }

  /** The next packet in order, before the last one: the request closes when as many packets are
      in as the bitmap has bits. */
  lemma {:induction false} NextInOrder(s: PendingRequest, chunks: seq<Chunk>, tid: u16, j: u8)
    requires Holds(s, chunks) && FirstIn(s, j) && j < Ones(s.requestedBitmap) < Count(chunks)
    ensures var s' := Filed(s, Framed(tid, chunks)[j]);
            && Holds(s', chunks) && FirstIn(s', j + 1) && s'.requestedBitmap == s.requestedBitmap
            && s'.userBytes.Some?
            && (Complete(s') <==> j + 1 == Ones(s.requestedBitmap))
            && (Complete(s') ==> Expected(s') == j + 1 && Gather(s'.received, j + 1) == Some(Concat(chunks[..j + 1])))
  {
    FiledHolds(s, chunks, tid, j);
    var s' := Filed(s, Framed(tid, chunks)[j]);
    FirstInSize(s', j + 1);
    assert j in s'.received;
    GatherHeld(s', chunks, j + 1);
  }

  /** Packets come in order, fewer than the bitmap asks for and none of them the last: still waiting. */
  lemma {:induction false} InOrderWaits(a: Atp, src: Address, tid: u16, chunks: seq<Chunk>, j: nat)
    requires Untouched(a, tid) && j < Ones(a.pending[tid].requestedBitmap) < Count(chunks)
    ensures var f := Feed(a, src, Framed(tid, chunks), UpTo(j));
            && tid in f.pending && Holds(f.pending[tid], chunks) && f.events == a.events
            && FirstIn(f.pending[tid], j)
            && f.pending[tid].requestedBitmap == a.pending[tid].requestedBitmap
  {
    if j > 0 {
      InOrderWaits(a, src, tid, chunks, j - 1);
      assert UpTo(j)[..j - 1] == UpTo(j - 1);
      NextInOrder(Feed(a, src, Framed(tid, chunks), UpTo(j - 1)).pending[tid], chunks, tid, (j - 1) as u8);
    }
  }

  /** One packet more and the request closes, short of the end of the reply. */
  lemma {:induction false} InOrderCloses(a: Atp, src: Address, tid: u16, chunks: seq<Chunk>)
    requires Untouched(a, tid) && 0 < Ones(a.pending[tid].requestedBitmap) < Count(chunks)
    ensures var k := Ones(a.pending[tid].requestedBitmap);
            var f := Feed(a, src, Framed(tid, chunks), UpTo(k));
            && tid !in f.pending
            && exists u :: f.events == a.events + [ResponseEvent(tid, u, Concat(chunks[..k]))]
  {
    var k := Ones(a.pending[tid].requestedBitmap);
    InOrderWaits(a, src, tid, chunks, k - 1);
    assert UpTo(k)[..k - 1] == UpTo(k - 1);
    var f := Feed(a, src, Framed(tid, chunks), UpTo(k - 1));
    NextInOrder(f.pending[tid], chunks, tid, (k - 1) as u8);
    var p := Framed(tid, chunks)[k - 1];
    assert p.tid == tid;
    ResponseCloses(f, src, p, Concat(chunks[..k]));
  }

  /** A closed request takes no more packets. */
  lemma {:induction false} ClosedStays(a: Atp, src: Address, tid: u16, chunks: seq<Chunk>, k: nat, n: nat)
    requires k <= n <= Count(chunks)
    requires tid !in Feed(a, src, Framed(tid, chunks), UpTo(k)).pending
    ensures Feed(a, src, Framed(tid, chunks), UpTo(n)) == Feed(a, src, Framed(tid, chunks), UpTo(k))
    decreases n
  {
    if k < n {
      ClosedStays(a, src, tid, chunks, k, n - 1);
      assert UpTo(n)[..n - 1] == UpTo(n - 1);
    }
  }

  lemma {:induction false} ConcatGrows(chunks: seq<Chunk>, k: nat)
    requires k < |chunks| && forall i :: 0 <= i < |chunks| ==> |chunks[i].data| > 0
    ensures |Concat(chunks[..k])| < |Concat(chunks)|
    decreases |chunks|
  {
    var front := chunks[..|chunks| - 1];
    if k < |front| {
      ConcatGrows(front, k);
      assert front[..k] == chunks[..k];
    }
  }

  /** A reply that needs more packets than the bitmap has bits, arriving in order, is cut short. */
  lemma {:induction false} SmallBitmapTruncates(
      a: Atp, src: Address, tid: u16, userBytes: UserBytes, data: seq<byte>, chunkSize: nat)
    requires Untouched(a, tid)
    requires Needed(data, chunkSize) <= MAX_REPLY_PACKETS
    requires !Fits(a.pending[tid].requestedBitmap, Needed(data, chunkSize))
    ensures var ps := Framed(tid, ReplyChunks(userBytes, data, chunkSize));
            && |ps| == Needed(data, chunkSize) && Covers(UpTo(|ps|), |ps|)
            && exists u, short :: |short| < |data|
                 && Feed(a, src, ps, UpTo(|ps|)).events == a.events + [ResponseEvent(tid, u, short)]
  {
    var chunks := ReplyChunks(userBytes, data, chunkSize);
    var k := Ones(a.pending[tid].requestedBitmap);
    OnesZero(a.pending[tid].requestedBitmap);
    ChunksCarry(userBytes, data, chunkSize);
    InOrderCloses(a, src, tid, chunks);
    ClosedStays(a, src, tid, chunks, k, |chunks|);
    assert data != [];
    ConcatGrows(chunks, k);
    forall i: u8 | i < |chunks| ensures i in UpTo(|chunks|) { assert UpTo(|chunks|)[i] == i; }
    var u :| Feed(a, src, Framed(tid, chunks), UpTo(k)).events
      == a.events + [ResponseEvent(tid, u, Concat(chunks[..k]))];
    assert |Concat(chunks[..k])| < |data|;
  }

  /** More than eight packets' worth of data is cut by the responder itself. */
  lemma {:induction false} LongDataTruncates(
      a: Atp, src: Address, tid: u16, userBytes: UserBytes, data: seq<byte>, chunkSize: nat)
    requires Untouched(a, tid) && Needed(data, chunkSize) > MAX_REPLY_PACKETS
    ensures !Faithful(a, src, tid, userBytes, data, chunkSize)
  {
    var chunks := ReplyChunks(userBytes, data, chunkSize);
    ChunksCarry(userBytes, data, chunkSize);
    var ps := Framed(tid, chunks);
    var order := UpTo(8);
    forall i: u8 | i < 8 ensures i in order { assert order[i] == i; }
    assert Covers(order, |ps|);
    OnesZero(a.pending[tid].requestedBitmap);
    var f := Feed(a, src, ps, order);
    if Fits(a.pending[tid].requestedBitmap, 8) {
      AnyOrder(a, src, tid, chunks, order);
      var i: u8 :| i in order && f.events == a.events + [ResponseEvent(tid, chunks[i].userBytes, Carried(chunks))];
      assert chunks[..8] == chunks;
      assert f.events[|a.events|].data != data;
    } else {
      var k := Ones(a.pending[tid].requestedBitmap);
      InOrderCloses(a, src, tid, chunks);
      ClosedStays(a, src, tid, chunks, k, 8);
      ConcatGrows(chunks, k);
      var u :| f.events == a.events + [ResponseEvent(tid, u, Concat(chunks[..k]))];
      assert f.events[|a.events|].data != data;
    }
  }

  /** Exactly when a reply comes through: it needs no more than eight packets, and no more than
      the bitmap of the request has bits (or the bitmap is zero, which sets no limit). */
  lemma {:induction false} FaithfulIffFits(
      a: Atp, src: Address, tid: u16, userBytes: UserBytes, data: seq<byte>, chunkSize: nat)
    requires Untouched(a, tid)
    ensures Faithful(a, src, tid, userBytes, data, chunkSize)
            <==> Needed(data, chunkSize) <= MAX_REPLY_PACKETS
                 && Fits(a.pending[tid].requestedBitmap, Needed(data, chunkSize))
  {
    var need := Needed(data, chunkSize);
    var ps := Framed(tid, ReplyChunks(userBytes, data, chunkSize));
    ChunksCarry(userBytes, data, chunkSize);
    if need > MAX_REPLY_PACKETS {
      LongDataTruncates(a, src, tid, userBytes, data, chunkSize);
    } else if Fits(a.pending[tid].requestedBitmap, need) {
      forall order: seq<u8> | Within(order, |ps|) && Covers(order, |ps|)
        ensures var f := Feed(a, src, ps, order);
                f.events == a.events + [ResponseEvent(tid, userBytes, data)] && f.pending == a.pending - {tid}
      {
        RoundTrip(a, src, tid, userBytes, data, chunkSize, order);
      }
    } else {
      SmallBitmapTruncates(a, src, tid, userBytes, data, chunkSize);
      var f := Feed(a, src, ps, UpTo(|ps|));
      var u, short :| |short| < |data| && f.events == a.events + [ResponseEvent(tid, u, short)];
      assert f.events[|a.events|].data != data;
    }
  }

  // ---- when a request closes with no event -----------------------------------------------------------

  /** The request is gone and nothing was raised for it. */
  predicate ClosedSilently(a: Atp, f: Atp, tid: u16) {
    tid !in f.pending && f.events == a.events
  }

  /** Every packet but the first, in order. */
  function WithoutFirst(n: nat): seq<u8>
    requires n < 0x100
  {
    seq(n, i requires 0 <= i < n => (i + 1) as u8)
  }

  predicate AllButFirstIn(s: PendingRequest, j: nat) {
    forall i: u8 :: i in s.received <==> 1 <= i <= j
  }

  lemma {:induction false} AllButFirstSize(s: PendingRequest, j: nat)
    requires AllButFirstIn(s, j) && j < 0xFF
    ensures |s.received| == j
  {
    var keys := s.received.Keys;
    FullSet(keys + {0}, j + 1);
    assert keys == (keys + {0}) - {0};
    assert |keys| == |s.received|;
  }

  /** Without the first packet or the last, a request is complete when as many are in as the bitmap has
      bits, and then there is nothing to return. */
  lemma {:induction false} NothingBehindHole(s: PendingRequest, j: u8)
    requires s.eomSeq.None? && 1 <= j < 0xFF && AllButFirstIn(s, j)
    ensures Complete(s) <==> j == Ones(s.requestedBitmap)
    ensures Gather(s.received, Expected(s) % 0x100) == None
  {
    AllButFirstSize(s, j);
    GatherHole(s.received, j, 0);
    assert Expected(s) % 0x100 == j;
    assert j in s.received;
  }

  /** The first packet is lost and the others come in order. */
  lemma {:induction false} NextBehindHole(s: PendingRequest, chunks: seq<Chunk>, tid: u16, j: u8)
    requires Holds(s, chunks) && 1 <= j <= Ones(s.requestedBitmap) <= Count(chunks) - 2 && AllButFirstIn(s, j - 1)
    ensures var s' := Filed(s, Framed(tid, chunks)[j]);
            && Holds(s', chunks) && AllButFirstIn(s', j) && s'.requestedBitmap == s.requestedBitmap
            && (Complete(s') <==> j == Ones(s.requestedBitmap))
            && Gather(s'.received, Expected(s') % 0x100) == None
  {
    FiledHolds(s, chunks, tid, j);
    NothingBehindHole(Filed(s, Framed(tid, chunks)[j]), j);
  }

  /** Complete with a packet missing, the request is dropped and nothing is said. */
  lemma {:induction false} GapClosesSilently(a: Atp, src: Address, p: AtpPacket)
    requires p.tid in a.pending
    requires var s := Filed(a.pending[p.tid], p); Complete(s) ==> Gather(s.received, Expected(s) % 0x100).None?
    ensures var s := Filed(a.pending[p.tid], p);
            HandleResponse(a, src, p)
              == a.(pending := if Complete(s) then a.pending - {p.tid} else a.pending[p.tid := s])
  {
  }

  lemma {:induction false} HoleTakesPacket(a: Atp, src: Address, tid: u16, chunks: seq<Chunk>, j: u8)
    requires tid in a.pending && Holds(a.pending[tid], chunks)
    requires 1 <= j <= Ones(a.pending[tid].requestedBitmap) <= Count(chunks) - 2 && AllButFirstIn(a.pending[tid], j - 1)
    ensures var s' := Filed(a.pending[tid], Framed(tid, chunks)[j]);
            HandleResponse(a, src, Framed(tid, chunks)[j])
              == a.(pending := if j == Ones(a.pending[tid].requestedBitmap) then a.pending - {tid}
                               else a.pending[tid := s'])
  {
    NextBehindHole(a.pending[tid], chunks, tid, j);
    var p := Framed(tid, chunks)[j];
    assert p.tid == tid;
    GapClosesSilently(a, src, p);
  }

  /** Still waiting, with all but the first of the first `j + 1` packets in. */
  predicate BehindHole(a: Atp, f: Atp, tid: u16, chunks: seq<Chunk>, j: nat)
    requires tid in a.pending
  {
    && tid in f.pending && Holds(f.pending[tid], chunks) && AllButFirstIn(f.pending[tid], j)
    && f == a.(pending := a.pending[tid := f.pending[tid]])
    && f.pending[tid].requestedBitmap == a.pending[tid].requestedBitmap
  }

  lemma {:induction false} StillBehindHole(a: Atp, f: Atp, src: Address, tid: u16, chunks: seq<Chunk>, j: u8)
    requires tid in a.pending && 1 <= j < Ones(a.pending[tid].requestedBitmap) <= Count(chunks) - 2
    requires BehindHole(a, f, tid, chunks, j - 1)
    ensures BehindHole(a, HandleResponse(f, src, Framed(tid, chunks)[j]), tid, chunks, j)
  {
    NextBehindHole(f.pending[tid], chunks, tid, j);
    HoleTakesPacket(f, src, tid, chunks, j);
  }

  lemma {:induction false} FeedOneMore(a: Atp, src: Address, ps: seq<AtpPacket>, n: nat)
    requires 0 < n < |ps| && n < 0x100
    ensures Feed(a, src, ps, WithoutFirst(n)) == HandleResponse(Feed(a, src, ps, WithoutFirst(n - 1)), src, ps[n])
  {
    assert WithoutFirst(n)[..n - 1] == WithoutFirst(n - 1);
  }

  lemma {:induction false} HoleWaits(a: Atp, src: Address, tid: u16, chunks: seq<Chunk>, j: nat)
    requires Untouched(a, tid) && j < Ones(a.pending[tid].requestedBitmap) <= Count(chunks) - 2
    ensures BehindHole(a, Feed(a, src, Framed(tid, chunks), WithoutFirst(j)), tid, chunks, j)
  {
    if j == 0 {
      assert a.pending[tid := a.pending[tid]] == a.pending;
    } else {
      HoleWaits(a, src, tid, chunks, j - 1);
      FeedOneMore(a, src, Framed(tid, chunks), j);
      StillBehindHole(a, Feed(a, src, Framed(tid, chunks), WithoutFirst(j - 1)), src, tid, chunks, j as u8);
    }
  }

  /** With two packets more than bits, losing the first closes the request and leaves no trace. */
  lemma {:induction false} HoleCloses(a: Atp, src: Address, tid: u16, chunks: seq<Chunk>)
    requires Untouched(a, tid) && 0 < Ones(a.pending[tid].requestedBitmap) <= Count(chunks) - 2
    ensures var k := Ones(a.pending[tid].requestedBitmap);
            Feed(a, src, Framed(tid, chunks), WithoutFirst(k)) == a.(pending := a.pending - {tid})
  {
    var k := Ones(a.pending[tid].requestedBitmap);
    HoleWaits(a, src, tid, chunks, k - 1);
    FeedOneMore(a, src, Framed(tid, chunks), k);
    ClosesBehindHole(a, Feed(a, src, Framed(tid, chunks), WithoutFirst(k - 1)), src, tid, chunks, k as u8);
  }

  lemma {:induction false} ClosesBehindHole(a: Atp, f: Atp, src: Address, tid: u16, chunks: seq<Chunk>, k: u8)
    requires tid in a.pending && 1 <= k == Ones(a.pending[tid].requestedBitmap) <= Count(chunks) - 2
    requires BehindHole(a, f, tid, chunks, k - 1)
    ensures HandleResponse(f, src, Framed(tid, chunks)[k]) == a.(pending := a.pending - {tid})
  {
    HoleTakesPacket(f, src, tid, chunks, k);
    assert f.pending - {tid} == a.pending - {tid};
  }

  /** With no more than one packet more than bits, a request that is complete has no hole. */
  lemma {:induction false} CompleteHasNoHole(s: PendingRequest, chunks: seq<Chunk>)
    requires Holds(s, chunks) && Complete(s) && s.received != map[]
    requires Ones(s.requestedBitmap) == 0 || Count(chunks) <= Ones(s.requestedBitmap) + 1
    ensures Expected(s) <= Count(chunks) && AllIn(s, Expected(s))
  {
    var n := Count(chunks);
    assert n > 0 by { var i: u8 :| i in s.received; }
    if s.eomSeq.None? {
      var keys := s.received.Keys;
      assert |keys| == |s.received|;
      forall i: u8 | i in keys ensures i < n - 1 {}
      SmallSet(keys, n - 1);
      FullSet(keys, n - 1);
    }
  }

  /** Then the request waits, or was closed with one event. */
  predicate Spoken(a: Atp, f: Atp, tid: u16, chunks: seq<Chunk>)
    requires tid in a.pending
  {
    if tid in f.pending
    then Holds(f.pending[tid], chunks) && f.pending[tid].requestedBitmap == a.pending[tid].requestedBitmap
    else |f.events| == |a.events| + 1
  }

  lemma {:induction false} OrderSpeaks(a: Atp, src: Address, tid: u16, chunks: seq<Chunk>, order: seq<u8>)
    requires Untouched(a, tid) && Within(order, Count(chunks))
    requires var k := Ones(a.pending[tid].requestedBitmap); k == 0 || Count(chunks) <= k + 1
    ensures var f := Feed(a, src, Framed(tid, chunks), order);
            Spoken(a, f, tid, chunks) && (tid in f.pending ==> f.events == a.events)
    decreases |order|
  {
    if order != [] {
      var front, last := order[..|order| - 1], order[|order| - 1];
      OrderSpeaks(a, src, tid, chunks, front);
      var f := Feed(a, src, Framed(tid, chunks), front);
      if tid in f.pending { PacketSpeaks(f, src, tid, chunks, last); }
    }
  }

  lemma {:induction false} PacketSpeaks(f: Atp, src: Address, tid: u16, chunks: seq<Chunk>, i: u8)
    requires tid in f.pending && Holds(f.pending[tid], chunks) && i < Count(chunks)
    requires var k := Ones(f.pending[tid].requestedBitmap); k == 0 || Count(chunks) <= k + 1
    ensures var f' := HandleResponse(f, src, Framed(tid, chunks)[i]);
            && Spoken(f, f', tid, chunks) && (tid in f'.pending ==> f'.events == f.events)
  {
    var p := Framed(tid, chunks)[i];
    var s := Filed(f.pending[tid], p);
    FiledHolds(f.pending[tid], chunks, tid, i);
    assert i in s.received;
    if Complete(s) {
      CompleteHasNoHole(s, chunks);
      GatherHeld(s, chunks, Expected(s));
      ResponseCloses(f, src, p, Concat(chunks[..Expected(s)]));
    }
  }

  /** Exactly when the branch the code marks as impossible is reached: some arrivals close a request
      with no event at all if and only if its bitmap sets a limit and the reply has at least two
      packets more. With one more the request can be cut short, but always answers. */
  lemma {:induction false} HoleLosesRequest(a: Atp, src: Address, tid: u16, chunks: seq<Chunk>)
    requires Untouched(a, tid)
    ensures (exists order: seq<u8> :: Within(order, Count(chunks))
               && ClosedSilently(a, Feed(a, src, Framed(tid, chunks), order), tid))
            <==> 0 < Ones(a.pending[tid].requestedBitmap) && Ones(a.pending[tid].requestedBitmap) + 2 <= Count(chunks)
  {
    var k := Ones(a.pending[tid].requestedBitmap);
    if 0 < k && k + 2 <= Count(chunks) {
      HoleCloses(a, src, tid, chunks);
      assert Within(WithoutFirst(k), Count(chunks));
    } else {
      forall order: seq<u8> | Within(order, Count(chunks))
        ensures !ClosedSilently(a, Feed(a, src, Framed(tid, chunks), order), tid)
      {
        OrderSpeaks(a, src, tid, chunks, order);
      }
    }
  }
}
