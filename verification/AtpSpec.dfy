/** What each operation of the ATP endpoint does, as functions on values. */
module AtpSpec {
  import opened Words

  const RETRY_INTERVAL: Micros := 2_000_000
  const MAX_RETRIES: nat := 8
  const RELEASE_TIMEOUT: Micros := 30_000_000
  const REPLY_CACHE_LEN: nat := 16
  const MAX_REPLY_PACKETS: nat := 8

  datatype UserBytes = UserBytes(b0: byte, b1: byte, b2: byte, b3: byte)

  datatype Function = Request | Response | Release

  /** A parsed header and the bytes after it; `bitmapSeq` is the bitmap of a request and the
      sequence number of a response. */
  datatype AtpPacket = AtpPacket(
    function_: Function, xo: bool, eom: bool, bitmapSeq: u8, tid: u16, userBytes: UserBytes, payload: seq<byte>)

  datatype AtpEvent =
    | RequestEvent(source: Address, tid: u16, userBytes: UserBytes, data: seq<byte>, bitmap: u8, xo: bool)
    | ResponseEvent(handle: u16, userBytes: UserBytes, data: seq<byte>)
    | RequestFailed(handle: u16)

  datatype PendingRequest = PendingRequest(
    dest: Address,
    packet: AtpPacket,
    requestedBitmap: u8,
    received: map<u8, seq<byte>>,
    userBytes: Option<UserBytes>,
    eomSeq: Option<u8>,
    retries: nat,
    retryAt: Micros)

  datatype CachedResponse = CachedResponse(source: Address, tid: u16, packets: seq<AtpPacket>, expiresAt: Micros)

  datatype Chunk = Chunk(userBytes: UserBytes, data: seq<byte>)

  datatype Atp = Atp(
    nextTid: u16,
    pending: map<u16, PendingRequest>,
    replyCache: seq<CachedResponse>,
    inProgress: seq<(Address, u16)>,
    outbox: seq<(Address, AtpPacket)>,
    events: seq<AtpEvent>)

  const ZERO_USER: UserBytes := UserBytes(0, 0, 0, 0)

  function Ones(n: nat): nat {
    if n == 0 then 0 else n % 2 + Ones(n / 2)
  }

  // ---- requestor ------------------------------------------------------------------------

  predicate FreeTid(pending: map<u16, PendingRequest>, tid: u16) {
    tid != 0 && tid !in pending
  }

  ghost predicate HasFreeTid(pending: map<u16, PendingRequest>) {
    exists t: u16 :: FreeTid(pending, t)
  }

  ghost function SomeFreeTid(pending: map<u16, PendingRequest>): u16
    requires HasFreeTid(pending)
  {
    var t: u16 :| FreeTid(pending, t);
    t
  }

  function NextTid(t: u16): u16 {
    if t == 0xFFFF then 0 else t + 1
  }

  ghost function TidDistance(pending: map<u16, PendingRequest>, from: u16): nat
    requires HasFreeTid(pending)
  {
    (SomeFreeTid(pending) - from) % 0x1_0000
  }

  /** The first free transaction id at or after `from`, wrapping and skipping zero. */
  function AllocateTid(pending: map<u16, PendingRequest>, from: u16): (tid: u16)
    requires HasFreeTid(pending)
    ensures FreeTid(pending, tid)
    decreases TidDistance(pending, from)
  {
    if FreeTid(pending, from) then from else AllocateTid(pending, NextTid(from))
  }

  function RequestPacket(tid: u16, xo: bool, bitmap: u8, userBytes: UserBytes, data: seq<byte>): AtpPacket {
    AtpPacket(Request, xo, false, bitmap, tid, userBytes, data)
  }

  function NewRequest(dest: Address, packet: AtpPacket, bitmap: u8, now: Micros): PendingRequest {
    PendingRequest(dest, packet, bitmap, map[], None, None, 0, now + RETRY_INTERVAL)
  }

  /** Send an exactly-once request under a fresh transaction id. */
  function MakeRequest(a: Atp, dest: Address, userBytes: UserBytes, data: seq<byte>, bitmap: u8, now: Micros): Atp
    requires HasFreeTid(a.pending)
  {
    var tid := AllocateTid(a.pending, a.nextTid);
    var p := RequestPacket(tid, true, bitmap, userBytes, data);
    a.(nextTid := NextTid(tid),
       outbox := a.outbox + [(dest, p)],
       pending := a.pending[tid := NewRequest(dest, p, bitmap, now)])
  }

  /** Send a request that registers no transaction. */
  function SendAlo(a: Atp, dest: Address, userBytes: UserBytes): Atp
    requires HasFreeTid(a.pending)
  {
    var tid := AllocateTid(a.pending, a.nextTid);
    a.(nextTid := NextTid(tid), outbox := a.outbox + [(dest, RequestPacket(tid, false, 0xFF, userBytes, []))])
  }

  /** A request with one more response packet filed under its sequence number. */
  function Filed(s: PendingRequest, p: AtpPacket): PendingRequest {
    s.(received := s.received[p.bitmapSeq := p.payload],
       userBytes := if s.userBytes.None? then Some(p.userBytes) else s.userBytes,
       eomSeq := if p.eom then Some(p.bitmapSeq) else s.eomSeq)
  }

  /** Every packet up to the end-of-message is in; or, with none seen, as many packets are in
      as the bitmap has bits. */
  predicate Complete(s: PendingRequest) {
    if s.eomSeq.Some? then forall i: u8 :: i <= s.eomSeq.value ==> i in s.received
    else s.received != map[] && |s.received| == Ones(s.requestedBitmap)
  }

  function Expected(s: PendingRequest): nat {
    if s.eomSeq.Some? then s.eomSeq.value + 1 else |s.received|
  }

  /** The payloads 0 to `n` in order; none if one is missing. */
  function Gather(received: map<u8, seq<byte>>, n: nat): Option<seq<byte>> {
    if n == 0 then Some([])
    else
      var front := Gather(received, n - 1);
      if front.None? || n > 0x100 || (n - 1) as u8 !in received then None
      else Some(front.value + received[(n - 1) as u8])
  }

  function ReleasePacket(tid: u16): AtpPacket {
    AtpPacket(Release, false, false, 0, tid, ZERO_USER, [])
  }

  function HandleResponse(a: Atp, src: Address, p: AtpPacket): Atp {
    if p.tid !in a.pending then a else
    var s := Filed(a.pending[p.tid], p);
    if !Complete(s) then a.(pending := a.pending[p.tid := s]) else
    // The packet count is truncated to a byte.
    var full := Gather(s.received, Expected(s) % 0x100);
    if full.None? then a.(pending := a.pending - {p.tid})
    else a.(pending := a.pending - {p.tid},
            outbox := a.outbox + [(src, ReleasePacket(p.tid))],
            events := a.events + [ResponseEvent(p.tid, if s.userBytes.Some? then s.userBytes.value else ZERO_USER, full.value)])
  }

  // ---- responder ------------------------------------------------------------------------

  /** `data` in pieces of `size` bytes, the last one shorter. */
  function Split(data: seq<byte>, size: nat): (r: seq<seq<byte>>)
    requires size > 0
    decreases |data|
  {
    if data == [] then [] else
    if |data| <= size then [data] else [data[..size]] + Split(data[size..], size)
  }

  function ReplyChunks(userBytes: UserBytes, data: seq<byte>, chunkSize: nat): seq<Chunk> {
    if data == [] then [Chunk(userBytes, [])] else
    var pieces := Split(data, if chunkSize == 0 then 1 else chunkSize);
    var kept := if |pieces| > MAX_REPLY_PACKETS then pieces[..MAX_REPLY_PACKETS] else pieces;
    seq(|kept|, i requires 0 <= i < |kept| => Chunk(userBytes, kept[i]))
  }

  /** The packets of a reply: at most eight, numbered from zero, the last one marked. */
  function Framed(tid: u16, chunks: seq<Chunk>): (ps: seq<AtpPacket>)
    ensures |ps| == Min(|chunks|, MAX_REPLY_PACKETS)
  {
    var n := Min(|chunks|, MAX_REPLY_PACKETS);
    seq(n, i requires 0 <= i < n =>
      AtpPacket(Response, false, i == n - 1, i as u8, tid, chunks[i].userBytes, chunks[i].data))
  }

  function ToAddress(dest: Address, ps: seq<AtpPacket>): seq<(Address, AtpPacket)> {
    seq(|ps|, i requires 0 <= i < |ps| => (dest, ps[i]))
  }

  function RemoveKey(keys: seq<(Address, u16)>, k: (Address, u16)): seq<(Address, u16)> {
    if keys == [] then []
    else (if keys[0] == k then [] else [keys[0]]) + RemoveKey(keys[1..], k)
  }

  function RemoveCached(cache: seq<CachedResponse>, src: Address, tid: u16): seq<CachedResponse> {
    if cache == [] then []
    else (if cache[0].source == src && cache[0].tid == tid then [] else [cache[0]]) + RemoveCached(cache[1..], src, tid)
  }

  function Unexpired(cache: seq<CachedResponse>, now: Micros): seq<CachedResponse> {
    if cache == [] then []
    else (if cache[0].expiresAt > now then [cache[0]] else []) + Unexpired(cache[1..], now)
  }

  function FindCached(cache: seq<CachedResponse>, src: Address, tid: u16): Option<CachedResponse> {
    if cache == [] then None
    else if cache[0].source == src && cache[0].tid == tid then Some(cache[0])
    else FindCached(cache[1..], src, tid)
  }

  /** Answer a request; the framed packets are kept for retransmissions. */
  function RespondPackets(a: Atp, source: Address, tid: u16, chunks: seq<Chunk>, now: Micros): Atp {
    var ps := Framed(tid, chunks);
    var room := if |a.replyCache| == REPLY_CACHE_LEN then a.replyCache[1..] else a.replyCache;
    a.(outbox := a.outbox + ToAddress(source, ps),
       inProgress := RemoveKey(a.inProgress, (source, tid)),
       replyCache := room + [CachedResponse(source, tid, ps, now + RELEASE_TIMEOUT)])
  }

  function Respond(a: Atp, source: Address, tid: u16, userBytes: UserBytes, data: seq<byte>, chunkSize: nat,
      now: Micros): Atp {
    RespondPackets(a, source, tid, ReplyChunks(userBytes, data, chunkSize), now)
  }

  /** A zero bitmap means no restriction. */
  function WidenedBitmap(bitmap: u8): u8 {
    if bitmap == 0 then 0xFF else bitmap
  }

  function HandleRequest(a: Atp, src: Address, p: AtpPacket): Atp {
    var cached := FindCached(a.replyCache, src, p.tid);
    if cached.Some? then a.(outbox := a.outbox + ToAddress(src, cached.value.packets))
    else if p.xo && (src, p.tid) in a.inProgress then a
    else
      var room := if |a.inProgress| >= REPLY_CACHE_LEN then a.inProgress[1..] else a.inProgress;
      a.(inProgress := if p.xo then room + [(src, p.tid)] else a.inProgress,
         events := a.events
           + [RequestEvent(src, p.tid, p.userBytes, p.payload, WidenedBitmap(p.bitmapSeq), p.xo)])
  }

  function HandleRelease(a: Atp, src: Address, p: AtpPacket): Atp {
    a.(replyCache := RemoveCached(a.replyCache, src, p.tid))
  }

  function HandleDatagram(a: Atp, src: Address, p: AtpPacket): Atp {
    match p.function_
    case Request => HandleRequest(a, src, p)
    case Response => HandleResponse(a, src, p)
    case Release => HandleRelease(a, src, p)
  }

  // ---- timers ---------------------------------------------------------------------------

  predicate Due(s: PendingRequest, now: Micros) {
    now >= s.retryAt
  }

  predicate GivesUp(s: PendingRequest, now: Micros) {
    Due(s, now) && s.retries + 1 > MAX_RETRIES
  }

  function Ticked(s: PendingRequest, now: Micros): PendingRequest {
    if Due(s, now) then s.(retries := s.retries + 1, retryAt := now + RETRY_INTERVAL) else s
  }

  function PendingAfter(pending: map<u16, PendingRequest>, now: Micros): map<u16, PendingRequest> {
    map t | t in pending && !GivesUp(pending[t], now) :: Ticked(pending[t], now)
  }

  function Failures(pending: map<u16, PendingRequest>, tids: seq<u16>, now: Micros): seq<AtpEvent>
    requires forall t :: t in tids ==> t in pending
  {
    if tids == [] then [] else
    var t := tids[|tids| - 1];
    Failures(pending, tids[..|tids| - 1], now) + (if GivesUp(pending[t], now) then [RequestFailed(t)] else [])
  }

  function Resends(pending: map<u16, PendingRequest>, tids: seq<u16>, now: Micros): seq<(Address, AtpPacket)>
    requires forall t :: t in tids ==> t in pending
  {
    if tids == [] then [] else
    var t := tids[|tids| - 1];
    Resends(pending, tids[..|tids| - 1], now)
    + (if Due(pending[t], now) && !GivesUp(pending[t], now) then [(pending[t].dest, pending[t].packet)] else [])
  }

  ghost function Poll(a: Atp, now: Micros): Atp {
    var tids := Ascending(a.pending.Keys);
    a.(pending := PendingAfter(a.pending, now),
       events := a.events + Failures(a.pending, tids, now),
       outbox := a.outbox + Resends(a.pending, tids, now),
       replyCache := Unexpired(a.replyCache, now))
  }

  ghost function Deadlines(a: Atp): set<Micros> {
    (set t | t in a.pending :: a.pending[t].retryAt) + (set i | 0 <= i < |a.replyCache| :: a.replyCache[i].expiresAt)
  }
}
