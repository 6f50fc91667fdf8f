/** What an ATP transaction must bring: over a link that loses nothing the answer, whole and once; and
    after any loss one retry is enough while the responder keeps the reply. */
module AtpDelivery {
  import opened Words
  import opened AtpSpec
  import opened AtpReassembly
  import opened AtpOnce

  // ---- a kept reply ---------------------------------------------------------------------------------------

  lemma {:induction false} FoundBehind(cache: seq<CachedResponse>, more: seq<CachedResponse>, src: Address, tid: u16)
    ensures FindCached(cache + more, src, tid)
              == if FindCached(cache, src, tid).Some? then FindCached(cache, src, tid) else FindCached(more, src, tid)
  {
    if cache == [] {
      assert cache + more == more;
    } else {
      assert (cache + more)[1..] == cache[1..] + more;
      FoundBehind(cache[1..], more, src, tid);
    }
  }

  lemma {:induction false} FoundUnexpired(cache: seq<CachedResponse>, now: Micros, src: Address, tid: u16)
    requires forall c :: c in cache && c.source == src && c.tid == tid ==> c.expiresAt > now
    ensures FindCached(Unexpired(cache, now), src, tid) == FindCached(cache, src, tid)
  {
    if cache != [] {
      FoundUnexpired(cache[1..], now, src, tid);
      var kept := if cache[0].expiresAt > now then [cache[0]] else [];
      FoundBehind(kept, Unexpired(cache[1..], now), src, tid);
      FoundBehind([cache[0]], cache[1..], src, tid);
      assert cache[0] in cache;
      assert kept != [] ==> kept[1..] == [];
    }
  }

  lemma {:induction false} FoundUnreleased(cache: seq<CachedResponse>, s: Address, t: u16, src: Address, tid: u16)
    requires (s, t) != (src, tid)
    ensures FindCached(RemoveCached(cache, s, t), src, tid) == FindCached(cache, src, tid)
  {
    if cache != [] {
      FoundUnreleased(cache[1..], s, t, src, tid);
      var kept := if cache[0].source == s && cache[0].tid == t then [] else [cache[0]];
      FoundBehind(kept, RemoveCached(cache[1..], s, t), src, tid);
      assert kept != [] ==> kept[1..] == [];
    }
  }

  /** A reply found in the cache is found again after any step that is no cause to forget it. */
  lemma {:induction false} KeptReplyStays(a: Atp, act: Action, src: Address, tid: u16)
    requires Possible(a, act) && FindCached(a.replyCache, src, tid).Some? && !Cause(a, act, src, tid)
    ensures FindCached(After(a, act).replyCache, src, tid) == FindCached(a.replyCache, src, tid)
  {
    match act
    case Answer(source, id, chunks, now) => AnswerKeepsReply(a, source, id, chunks, now, src, tid);
    case Tick(now) => FoundUnexpired(a.replyCache, now, src, tid);
    case Receive(s, p) => if p.function_ == Release { FoundUnreleased(a.replyCache, s, p.tid, src, tid); }
    case _ =>
  }

  lemma {:induction false} AnswerKeepsReply(a: Atp, source: Address, id: u16, chunks: seq<Chunk>, now: Micros,
      src: Address, tid: u16)
    requires FindCached(a.replyCache, src, tid).Some?
    requires |a.replyCache| == REPLY_CACHE_LEN ==> !(a.replyCache[0].source == src && a.replyCache[0].tid == tid)
    ensures FindCached(RespondPackets(a, source, id, chunks, now).replyCache, src, tid)
              == FindCached(a.replyCache, src, tid)
  {
    var room := if |a.replyCache| == REPLY_CACHE_LEN then a.replyCache[1..] else a.replyCache;
    FoundBehind(room, [CachedResponse(source, id, Framed(id, chunks), now + RELEASE_TIMEOUT)], src, tid);
  }

  /** The reply just given is the one found, if there was none. */
  lemma {:induction false} ReplyIsKept(a: Atp, src: Address, tid: u16, chunks: seq<Chunk>, now: Micros)
    requires FindCached(a.replyCache, src, tid).None?
    ensures var found := FindCached(RespondPackets(a, src, tid, chunks, now).replyCache, src, tid);
            found.Some? && found.value.packets == Framed(tid, chunks)
  {
    var room := if |a.replyCache| == REPLY_CACHE_LEN then a.replyCache[1..] else a.replyCache;
    FoundBehind(room, [CachedResponse(src, tid, Framed(tid, chunks), now + RELEASE_TIMEOUT)], src, tid);
    if a.replyCache != [] { FoundBehind([a.replyCache[0]], a.replyCache[1..], src, tid); }
  }

  /** Left to its timer a reply is kept for the release timeout after it was given, and no longer. */
  lemma {:induction false} ReplyLasts(a: Atp, src: Address, tid: u16, chunks: seq<Chunk>, given: Micros, now: Micros)
    requires FindCached(a.replyCache, src, tid).None?
    ensures var found := FindCached(Poll(RespondPackets(a, src, tid, chunks, given), now).replyCache, src, tid);
            && (found.Some? <==> now < given + RELEASE_TIMEOUT)
            && (found.Some? ==> found.value.packets == Framed(tid, chunks))
  {
    var cache := RespondPackets(a, src, tid, chunks, given).replyCache;
    ReplyIsKept(a, src, tid, chunks, given);
    KeptOnce(a, src, tid, chunks, given);
    if now < given + RELEASE_TIMEOUT {
      FoundUnexpired(cache, now, src, tid);
    } else {
      forall c | c in Unexpired(cache, now) ensures !(c.source == src && c.tid == tid) {
        UnexpiredStay(cache, now, c);
      }
      FindsCached(Unexpired(cache, now), src, tid);
    }
  }

  lemma {:induction false} KeptOnce(a: Atp, src: Address, tid: u16, chunks: seq<Chunk>, given: Micros)
    requires FindCached(a.replyCache, src, tid).None?
    ensures forall c :: c in RespondPackets(a, src, tid, chunks, given).replyCache && c.source == src && c.tid == tid ==>
              c.expiresAt == given + RELEASE_TIMEOUT
  {
    FindsCached(a.replyCache, src, tid);
    HasCachedIn(a.replyCache, src, tid);
  }

  lemma {:induction false} ReplyStaysKept(states: seq<Atp>, acts: seq<Action>, i: nat, n: nat, src: Address, tid: u16)
    requires IsRun(states, acts) && i < n <= |acts| && acts[i].Answer? && acts[i].source == src && acts[i].tid == tid
    requires FindCached(states[i].replyCache, src, tid).None?
    requires forall k :: i < k < n ==> !Cause(states[k], acts[k], src, tid)
    ensures var found := FindCached(states[n].replyCache, src, tid);
            found.Some? && found.value.packets == Framed(tid, acts[i].chunks)
  {
    assert IsStep(states[n - 1], acts[n - 1], states[n]);
    if n == i + 1 {
      ReplyIsKept(states[i], src, tid, acts[i].chunks, acts[i].now);
    } else {
      ReplyStaysKept(states, acts, i, n - 1, src, tid);
      KeptReplyStays(states[n - 1], acts[n - 1], src, tid);
    }
  }

  /** Replay. A request is answered, and then, while its reply is neither released, expired nor evicted,
      repeated: exactly the packets that went out the first time go out again, all of them, in order, and
      nothing else happens. */
  lemma {:induction false} RepeatIsReplayed(states: seq<Atp>, acts: seq<Action>, i: nat, n: nat, src: Address, tid: u16)
    requires IsRun(states, acts) && i < n < |acts|
    requires acts[i].Answer? && acts[i].source == src && acts[i].tid == tid
    requires FindCached(states[i].replyCache, src, tid).None?
    requires forall k :: i < k < n ==> !Cause(states[k], acts[k], src, tid)
    requires acts[n].Receive? && acts[n].src == src && acts[n].p.function_ == Request && acts[n].p.tid == tid
    ensures IsStep(states[i], acts[i], states[i + 1]) && IsStep(states[n], acts[n], states[n + 1])
    ensures After(states[n], acts[n]).outbox == After(states[i], acts[i]).outbox
    ensures After(states[n], acts[n]).events == [] && states[n + 1] == states[n]
  {
    ReplyStaysKept(states, acts, i, n, src, tid);
    assert states[i] == Drained(states[i]) && states[n] == Drained(states[n]);
    assert IsStep(states[i], acts[i], states[i + 1]) && IsStep(states[n], acts[n], states[n + 1]);
  }

  // ---- retries ----------------------------------------------------------------------------------------------

  lemma {:induction false} ResendsAll(pending: map<u16, PendingRequest>, tids: seq<u16>, now: Micros, t: u16)
    requires (forall k :: k in tids ==> k in pending) && t in tids && Due(pending[t], now) && !GivesUp(pending[t], now)
    ensures (pending[t].dest, pending[t].packet) in Resends(pending, tids, now)
    decreases |tids|
  {
    var front, last := tids[..|tids| - 1], tids[|tids| - 1];
    assert tids == front + [last];
    if t in front {
      ResendsAll(pending, front, now, t);
    }
  }

  /** A retry: every request that is due and not given up goes out again as it was first sent, and what
      has come in for it is kept. */
  lemma {:induction false} RetryGoesOut(a: Atp, now: Micros, tid: u16)
    requires tid in a.pending && Due(a.pending[tid], now) && !GivesUp(a.pending[tid], now)
    ensures var a' := Poll(a, now);
            && a.outbox <= a'.outbox && (a.pending[tid].dest, a.pending[tid].packet) in a'.outbox[|a.outbox|..]
            && tid in a'.pending && a'.pending[tid].received == a.pending[tid].received
            && a'.pending[tid].userBytes == a.pending[tid].userBytes && a'.pending[tid].eomSeq == a.pending[tid].eomSeq
            && a'.pending[tid].requestedBitmap == a.pending[tid].requestedBitmap
  {
    var tids := Ascending(a.pending.Keys);
    assert tid in tids;
    ResendsAll(a.pending, tids, now, tid);
    assert Poll(a, now).outbox[|a.outbox|..] == Resends(a.pending, tids, now);
  }

  /** Nothing else goes out. */
  lemma {:induction false} OnlyRetriesGoOut(a: Atp, now: Micros, m: (Address, AtpPacket))
    requires m in Poll(a, now).outbox[|a.outbox|..]
    ensures exists t :: t in a.pending && Due(a.pending[t], now) && !GivesUp(a.pending[t], now)
                        && m == (a.pending[t].dest, a.pending[t].packet)
  {
    var tids := Ascending(a.pending.Keys);
    assert Poll(a, now).outbox[|a.outbox|..] == Resends(a.pending, tids, now);
    ResentIsDue(a.pending, tids, now, m);
  }

  lemma {:induction false} ResentIsDue(pending: map<u16, PendingRequest>, tids: seq<u16>, now: Micros,
      m: (Address, AtpPacket))
    requires (forall k :: k in tids ==> k in pending) && m in Resends(pending, tids, now)
    ensures exists t :: t in pending && Due(pending[t], now) && !GivesUp(pending[t], now)
                        && m == (pending[t].dest, pending[t].packet)
    decreases |tids|
  {
    var front, last := tids[..|tids| - 1], tids[|tids| - 1];
    if m in Resends(pending, front, now) {
      ResentIsDue(pending, front, now, m);
    } else {
      assert last in tids && m == (pending[last].dest, pending[last].packet);
    }
  }

  /** More of a reply arrives at a requestor that has had part of it. */
  lemma {:induction false} FeedOn(a: Atp, f: Atp, src: Address, tid: u16, chunks: seq<Chunk>, had: seq<u8>,
      order: seq<u8>)
    requires tid in a.pending && FedTo(a, f, tid, chunks, had) && Fits(a.pending[tid].requestedBitmap, Count(chunks))
    requires Within(order, Count(chunks))
    ensures FedTo(a, Feed(f, src, Framed(tid, chunks), order), tid, chunks, had + order)
    decreases |order|
  {
    if order == [] {
      assert had + order == had;
    } else {
      var front, last := order[..|order| - 1], order[|order| - 1];
      FeedOn(a, f, src, tid, chunks, had, front);
      assert had + order == (had + front) + [last];
      var g := Feed(f, src, Framed(tid, chunks), front);
      if Covers(had + front, Count(chunks)) {
        FedAlready(a, g, tid, chunks, had + front, last);
      } else {
        LastOf(a, g, src, tid, chunks, had + front, last);
      }
    }
  }

  /** A request already answered takes no more. */
  lemma {:induction false} FedAlready(a: Atp, g: Atp, tid: u16, chunks: seq<Chunk>, had: seq<u8>, last: u8)
    requires FedTo(a, g, tid, chunks, had) && Covers(had, Count(chunks))
    ensures FedTo(a, g, tid, chunks, had + [last])
  {
    var i: u8 :| i in had && i < Count(chunks)
      && g.events == a.events + [ResponseEvent(tid, chunks[i].userBytes, Carried(chunks))];
    assert i in had + [last];
  }

  /** The request as it stood before anything came in. */
  function Emptied(s: PendingRequest): PendingRequest {
    s.(received := map[], userBytes := None, eomSeq := None)
  }

  /** After a retry the requestor stands where it would had the first copies come after it. */
  lemma {:induction false} RetryKeepsFed(a: Atp, f: Atp, now: Micros, tid: u16, chunks: seq<Chunk>, had: seq<u8>)
    requires FedTo(a, f, tid, chunks, had) && !Covers(had, Count(chunks))
    requires Due(f.pending[tid], now) && !GivesUp(f.pending[tid], now)
    ensures var p := Poll(f, now);
            && tid in p.pending
            && var b := p.(pending := p.pending[tid := Emptied(p.pending[tid])]);
               && Untouched(b, tid) && b.pending[tid].requestedBitmap == a.pending[tid].requestedBitmap
               && FedTo(b, p, tid, chunks, had)
  {
    RetryGoesOut(f, now, tid);
    var p := Poll(f, now);
    assert p.pending[tid := p.pending[tid]] == p.pending;
  }

  /** Recovery. A reply that fits is sent; any part of it arrives, in any order, but not all. The
      request's retry goes out, the responder still has the reply and sends it again, and however those
      packets arrive, the last one missing ends the request in exactly one response with the original
      data. */
  lemma {:induction false} RetryRecovers(q: Atp, r0: Atp, r: Atp, qa: Address, ra: Address, tid: u16,
      userBytes: UserBytes, data: seq<byte>, chunkSize: nat, sent: Micros, had: seq<u8>, now: Micros, order: seq<u8>)
    returns (ps: seq<AtpPacket>)
    requires Untouched(q, tid) && q.pending[tid].dest == ra
    requires q.pending[tid].packet.function_ == Request && q.pending[tid].packet.tid == tid
    requires Needed(data, chunkSize) <= MAX_REPLY_PACKETS
    requires Fits(q.pending[tid].requestedBitmap, Needed(data, chunkSize))
    requires FindCached(r0.replyCache, qa, tid).None?
    requires FindCached(r.replyCache, qa, tid)
               == FindCached(Respond(r0, qa, tid, userBytes, data, chunkSize, sent).replyCache, qa, tid)
    requires Within(had, Needed(data, chunkSize)) && !Covers(had, Needed(data, chunkSize))
    requires Within(order, Needed(data, chunkSize)) && Covers(had + order, Needed(data, chunkSize))
    ensures |ps| == Needed(data, chunkSize)
    ensures Respond(r0, qa, tid, userBytes, data, chunkSize, sent).outbox == r0.outbox + ToAddress(qa, ps)
    ensures HandleRequest(r, qa, q.pending[tid].packet).outbox == r.outbox + ToAddress(qa, ps)
    ensures var f := Feed(q, ra, ps, had);
            && f.events == q.events && tid in f.pending
            && (Due(f.pending[tid], now) && !GivesUp(f.pending[tid], now) ==>
                  var p := Poll(f, now);
                  && (ra, q.pending[tid].packet) in p.outbox[|f.outbox|..]
                  && var g := Feed(p, ra, ps, order);
                     g.events == p.events + [ResponseEvent(tid, userBytes, data)] && g.pending == p.pending - {tid})
  {
    var chunks := ReplyChunks(userBytes, data, chunkSize);
    ps := Framed(tid, chunks);
    ChunksCarry(userBytes, data, chunkSize);
    NeededPositive(data, chunkSize);
    assert chunks[..|chunks|] == chunks;
    ReplyIsKept(r0, qa, tid, chunks, sent);
    AnyOrder(q, ra, tid, chunks, had);
    var f := Feed(q, ra, ps, had);
    FeedKeepsRequest(q, ra, tid, chunks, had);
    if Due(f.pending[tid], now) && !GivesUp(f.pending[tid], now) {
      RetryGoesOut(f, now, tid);
      RetryFinishes(q, f, ra, now, tid, chunks, had, order);
    }
  }

  /** The rest of the reply after a retry: one response, whatever arrived before it. */
  lemma {:induction false} RetryFinishes(q: Atp, f: Atp, src: Address, now: Micros, tid: u16, chunks: seq<Chunk>,
      had: seq<u8>, order: seq<u8>)
    requires FedTo(q, f, tid, chunks, had) && !Covers(had, Count(chunks))
    requires Due(f.pending[tid], now) && !GivesUp(f.pending[tid], now)
    requires Fits(q.pending[tid].requestedBitmap, Count(chunks))
    requires Within(order, Count(chunks)) && Covers(had + order, Count(chunks))
    ensures var p := Poll(f, now);
            var g := Feed(p, src, Framed(tid, chunks), order);
            && g.pending == p.pending - {tid}
            && exists i: u8 :: i < Count(chunks)
                 && g.events == p.events + [ResponseEvent(tid, chunks[i].userBytes, Carried(chunks))]
  {
    RetryKeepsFed(q, f, now, tid, chunks, had);
    var p := Poll(f, now);
    FeedOn(p.(pending := p.pending[tid := Emptied(p.pending[tid])]), p, src, tid, chunks, had, order);
    assert p.pending[tid := Emptied(p.pending[tid])] - {tid} == p.pending - {tid};
  }

  /** While the request waits its packet stays what it was. */
  lemma {:induction false} FeedKeepsRequest(a: Atp, src: Address, tid: u16, chunks: seq<Chunk>, order: seq<u8>)
    requires tid in a.pending && Within(order, Count(chunks))
    ensures var f := Feed(a, src, Framed(tid, chunks), order);
            tid in f.pending ==>
              f.pending[tid].packet == a.pending[tid].packet && f.pending[tid].dest == a.pending[tid].dest
    decreases |order|
  {
    if order != [] { FeedKeepsRequest(a, src, tid, chunks, order[..|order| - 1]); }
  }

  // ---- a whole transaction -------------------------------------------------------------------------------------

  /** While it waits the requestor sends nothing; the packet that completes the reply releases it. */
  lemma {:induction false} WaitingSendsNothing(a: Atp, src: Address, tid: u16, chunks: seq<Chunk>, order: seq<u8>)
    requires Untouched(a, tid) && chunks != [] && Fits(a.pending[tid].requestedBitmap, Count(chunks))
    requires Within(order, Count(chunks)) && !Covers(order, Count(chunks))
    ensures Feed(a, src, Framed(tid, chunks), order).outbox == a.outbox
    decreases |order|
  {
    if order != [] {
      var front, last := order[..|order| - 1], order[|order| - 1];
      assert order == front + [last];
      AnyOrder(a, src, tid, chunks, front);
      AnyOrder(a, src, tid, chunks, order);
      WaitingSendsNothing(a, src, tid, chunks, front);
      OnePacket(Feed(a, src, Framed(tid, chunks), front), src, tid, chunks, last);
    }
  }

  lemma {:induction false} LastReleases(a: Atp, src: Address, tid: u16, chunks: seq<Chunk>, order: seq<u8>)
    requires Untouched(a, tid) && chunks != [] && Fits(a.pending[tid].requestedBitmap, Count(chunks))
    requires Within(order, Count(chunks)) && Covers(order, Count(chunks))
    requires order != [] && !Covers(order[..|order| - 1], Count(chunks))
    ensures Feed(a, src, Framed(tid, chunks), order).outbox == a.outbox + [(src, ReleasePacket(tid))]
  {
    var front, last := order[..|order| - 1], order[|order| - 1];
    AnyOrder(a, src, tid, chunks, front);
    AnyOrder(a, src, tid, chunks, order);
    WaitingSendsNothing(a, src, tid, chunks, front);
    OnePacket(Feed(a, src, Framed(tid, chunks), front), src, tid, chunks, last);
  }

  /** A release after the answer leaves no trace of the transaction. */
  lemma {:induction false} ReleaseForgets(r: Atp, src: Address, tid: u16, chunks: seq<Chunk>, now: Micros)
    ensures !Known(HandleRelease(RespondPackets(r, src, tid, chunks, now), src, ReleasePacket(tid)), src, tid)
  {
    var r2 := RespondPackets(r, src, tid, chunks, now);
    RemovedKeys(r.inProgress, (src, tid), (src, tid));
    var cache := RemoveCached(r2.replyCache, src, tid);
    HasCachedIn(cache, src, tid);
    forall c | c in cache ensures !(c.source == src && c.tid == tid) { RemovedCached(r2.replyCache, src, tid, c); }
  }

  /** A request nobody loses. It reaches the responder's application as it was made; the answer, of any
      size that fits, reaches the requestor's whole, in whatever order, as one response; and the release
      that goes with it makes the responder forget the reply. */
  lemma {:induction false} TransactionCompletes(q: Atp, r: Atp, qa: Address, ra: Address, userBytes: UserBytes,
      data: seq<byte>, bitmap: u8, now: Micros, replyBytes: UserBytes, reply: seq<byte>, chunkSize: nat, later: Micros,
      order: seq<u8>) returns (tid: u16, ps: seq<AtpPacket>)
    requires HasFreeTid(q.pending)
    requires Needed(reply, chunkSize) <= MAX_REPLY_PACKETS && Fits(bitmap, Needed(reply, chunkSize))
    requires Within(order, Needed(reply, chunkSize)) && Covers(order, Needed(reply, chunkSize))
    requires order != [] && !Covers(order[..|order| - 1], Needed(reply, chunkSize))
    requires forall t: u16 :: t !in q.pending ==> !Known(r, qa, t)
    ensures tid !in q.pending && |ps| == Needed(reply, chunkSize)
    ensures var q1 := MakeRequest(q, ra, userBytes, data, bitmap, now);
            && |q1.outbox| == |q.outbox| + 1 && q1.outbox[|q.outbox|].0 == ra
            && var r1 := HandleDatagram(r, qa, q1.outbox[|q.outbox|].1);
               && r1.events == r.events + [RequestEvent(qa, tid, userBytes, data, WidenedBitmap(bitmap), true)]
               && var r2 := Respond(r1, qa, tid, replyBytes, reply, chunkSize, later);
                  && r2.outbox == r.outbox + ToAddress(qa, ps)
                  && var q2 := Feed(q1, ra, ps, order);
                     && q2.events == q.events + [ResponseEvent(tid, replyBytes, reply)]
                     && q2.pending == q.pending
                     && |q2.outbox| == |q1.outbox| + 1 && q2.outbox[|q1.outbox|].0 == ra
                     && !Known(HandleDatagram(r2, qa, q2.outbox[|q1.outbox|].1), qa, tid)
  {
    tid := AllocateTid(q.pending, q.nextTid);
    var chunks := ReplyChunks(replyBytes, reply, chunkSize);
    ps := Framed(tid, chunks);
    var q1 := MakeRequest(q, ra, userBytes, data, bitmap, now);
    var p := q1.outbox[|q.outbox|].1;
    RequestKnows(r, qa, p, qa, tid);
    FindsCached(r.replyCache, qa, tid);
    var r1 := HandleDatagram(r, qa, p);
    var r2 := Respond(r1, qa, tid, replyBytes, reply, chunkSize, later);
    RoundTrip(q1, ra, tid, replyBytes, reply, chunkSize, order);
    assert q1.pending - {tid} == q.pending;
    LastReleases(q1, ra, tid, chunks, order);
    ReleaseForgets(r1, qa, tid, chunks, later);
  }
}
