/** The ATP endpoint as the source writes it: one object whose methods update its maps and queues
    in place. Every method is proved to do what `AtpSpec` says. */
module AtpEndpointModel {
  import opened Words
  import opened AtpSpec
  import AtpReassembly

  class AtpEndpoint {
    var nextTid: u16
    var pending: map<u16, PendingRequest>
    var replyCache: seq<CachedResponse>
    var inProgress: seq<(Address, u16)>
    var outbox: seq<(Address, AtpPacket)>
    var events: seq<AtpEvent>

    function State(): Atp
      reads this
    {
      Atp(nextTid, pending, replyCache, inProgress, outbox, events)
    }

    constructor ()
      ensures State() == Atp(1, map[], [], [], [], [])
    {
      nextTid, pending := 1, map[];
      replyCache, inProgress, outbox, events := [], [], [], [];
    }

    /** The next free transaction id. The search ends only if one is free: 65535 requests at once
        would hang it. */
    method AllocateTid() returns (tid: u16)
      requires HasFreeTid(pending)
      modifies this`nextTid
      ensures tid == AtpSpec.AllocateTid(pending, old(nextTid)) && nextTid == NextTid(tid)
    {
      while true
        invariant AtpSpec.AllocateTid(pending, nextTid) == AtpSpec.AllocateTid(pending, old(nextTid))
        decreases TidDistance(pending, nextTid)
      {
        tid := nextTid;
        nextTid := NextTid(nextTid);
        if tid != 0 && tid !in pending { return; }
      }
    }

    method Request(dest: Address, userBytes: UserBytes, data: seq<byte>, bitmap: u8, now: Micros) returns (handle: u16)
      requires HasFreeTid(pending)
      modifies this
      ensures State() == MakeRequest(old(State()), dest, userBytes, data, bitmap, now)
      ensures handle !in old(pending) && handle != 0 && pending.Keys == old(pending.Keys) + {handle}
    {
      handle := AllocateTid();
      var p := RequestPacket(handle, true, bitmap, userBytes, data);
      outbox := outbox + [(dest, p)];
      pending := pending[handle := NewRequest(dest, p, bitmap, now)];
    }

    method SendAlo(dest: Address, userBytes: UserBytes)
      requires HasFreeTid(pending)
      modifies this
      ensures State() == AtpSpec.SendAlo(old(State()), dest, userBytes)
    {
      var tid := AllocateTid();
      outbox := outbox + [(dest, RequestPacket(tid, false, 0xFF, userBytes, []))];
    }

    method Respond(source: Address, tid: u16, userBytes: UserBytes, data: seq<byte>, chunkSize: nat, now: Micros)
      modifies this
      ensures State() == AtpSpec.Respond(old(State()), source, tid, userBytes, data, chunkSize, now)
    {
      RespondPackets(source, tid, ReplyChunks(userBytes, data, chunkSize), now);
    }

    method RespondPackets(source: Address, tid: u16, chunks: seq<Chunk>, now: Micros)
      modifies this
      ensures State() == AtpSpec.RespondPackets(old(State()), source, tid, chunks, now)
    {
      var count := if |chunks| < 1 then 1 else Min(|chunks|, MAX_REPLY_PACKETS);
      var packets: seq<AtpPacket> := [];
      var i := 0;
      ghost var framed := Framed(tid, chunks);
      while i < |chunks| && i < MAX_REPLY_PACKETS
        invariant i <= Min(|chunks|, MAX_REPLY_PACKETS)
        invariant packets == framed[..i]
        invariant outbox == old(outbox) + ToAddress(source, framed[..i])
        invariant nextTid == old(nextTid) && pending == old(pending) && replyCache == old(replyCache)
        invariant inProgress == old(inProgress) && events == old(events)
      {
        var p := AtpPacket(Response, false, i == count - 1, i, tid, chunks[i].userBytes, chunks[i].data);
        assert p == framed[i] && framed[..i + 1] == framed[..i] + [p];
        assert ToAddress(source, framed[..i + 1]) == ToAddress(source, framed[..i]) + [(source, p)];
        outbox := outbox + [(source, p)];
        packets := packets + [p];
        i := i + 1;
      }
      assert framed[..i] == framed;
      inProgress := RemoveKey(inProgress, (source, tid));
      if |replyCache| == REPLY_CACHE_LEN { replyCache := replyCache[1..]; }
      replyCache := replyCache + [CachedResponse(source, tid, packets, now + RELEASE_TIMEOUT)];
    }

    method HandleDatagram(src: Address, p: AtpPacket)
      modifies this
      ensures State() == AtpSpec.HandleDatagram(old(State()), src, p)
    {
      match p.function_ {
        case Request => HandleRequest(src, p);
        case Response => HandleResponse(src, p);
        case Release => replyCache := RemoveCached(replyCache, src, p.tid);
      }
    }

    method HandleRequest(src: Address, p: AtpPacket)
      modifies this
      ensures State() == AtpSpec.HandleRequest(old(State()), src, p)
    {
      var cached := FindCached(replyCache, src, p.tid);
      if cached.Some? {
        outbox := outbox + ToAddress(src, cached.value.packets);
        return;
      }
      if p.xo {
        if (src, p.tid) in inProgress { return; }
        if |inProgress| >= REPLY_CACHE_LEN { inProgress := inProgress[1..]; }
        inProgress := inProgress + [(src, p.tid)];
      }
      var bitmap := if p.bitmapSeq == 0 then 0xFF else p.bitmapSeq;
      events := events + [RequestEvent(src, p.tid, p.userBytes, p.payload, bitmap, p.xo)];
    }

    /** Whether every packet up to the end-of-message is in, or, with none seen, as many as were
        asked for. */
    method AllHere(s: PendingRequest) returns (r: bool)
      ensures r == Complete(s)
    {
      if s.eomSeq.None? { return s.received != map[] && |s.received| == Ones(s.requestedBitmap); }
      var i := 0;
      while i <= s.eomSeq.value
        invariant i <= s.eomSeq.value + 1
        invariant forall j: u8 :: j < i ==> j in s.received
      {
        if i !in s.received { return false; }
        i := i + 1;
      }
      r := true;
    }

    /** The payloads of a complete request, in order; none if one is missing. */
    method Joined(s: PendingRequest) returns (full: Option<seq<byte>>)
      ensures full == Gather(s.received, Expected(s) % 0x100)
    {
      var expected := (if s.eomSeq.Some? then s.eomSeq.value + 1 else |s.received|) % 0x100;
      var joined: seq<byte> := [];
      var i := 0;
      while i < expected
        invariant i <= expected
        invariant Gather(s.received, i) == Some(joined)
      {
        if i !in s.received {
          AtpReassembly.GatherHole(s.received, expected, i);
          return None;
        }
        joined := joined + s.received[i];
        i := i + 1;
      }
      full := Some(joined);
    }

    method HandleResponse(src: Address, p: AtpPacket)
      modifies this
      ensures State() == AtpSpec.HandleResponse(old(State()), src, p)
    {
      if p.tid !in pending { return; }
      var s := Filed(pending[p.tid], p);
      var complete := AllHere(s);
      if !complete {
        pending := pending[p.tid := s];
        return;
      }
      pending := pending - {p.tid};
      var full := Joined(s);
      if full.None? { return; }
      outbox := outbox + [(src, ReleasePacket(p.tid))];
      events := events + [ResponseEvent(p.tid, if s.userBytes.Some? then s.userBytes.value else ZERO_USER, full.value)];
    }

    /** Count one try of a request that is due. */
    method TickOne(t: u16, now: Micros) returns (gaveUp: bool, again: bool)
      requires t in pending
      modifies this`pending
      ensures pending == old(pending)[t := Ticked(old(pending)[t], now)]
      ensures gaveUp == GivesUp(old(pending)[t], now)
      ensures again == (Due(old(pending)[t], now) && !gaveUp)
    {
      var p := pending[t];
      if now < p.retryAt { return false, false; }
      p := p.(retries := p.retries + 1, retryAt := now + RETRY_INTERVAL);
      pending := pending[t := p];
      gaveUp := p.retries > MAX_RETRIES;
      again := !gaveUp;
    }

    /** Count the tries of every request that is due; list those to give up and those to resend. */
    method TickPending(now: Micros) returns (failed: seq<u16>, resend: seq<(Address, AtpPacket)>)
      modifies this`pending
      ensures failed == FailedTids(old(pending), Ascending(old(pending.Keys)), now)
      ensures resend == Resends(old(pending), Ascending(old(pending.Keys)), now)
      ensures pending == AllTicked(old(pending), now)
    {
      var keys := AscendingKeys(pending.Keys);
      failed, resend := [], [];
      ghost var was := pending;
      for i := 0 to |keys|
        invariant pending == TickedOver(was, keys[..i], now)
        invariant failed == FailedTids(was, keys[..i], now)
        invariant resend == Resends(was, keys[..i], now)
      {
        var t := keys[i];
        TickedSnoc(was, keys, i, now);
        ListsSnoc(was, keys, i, now);
        var p := pending[t];
        var gaveUp, again := TickOne(t, now);
        if gaveUp { failed := failed + [t]; }
        if again { resend := resend + [(p.dest, p.packet)]; }
      }
      assert keys[..|keys|] == keys;
      AllTickedOver(was, keys, now);
    }

    /** Drop the requests that gave up, with an event each. */
    method DropFailed(failed: seq<u16>)
      modifies this`pending, this`events
      ensures pending == Without(old(pending), failed)
      ensures events == old(events) + FailedEvents(failed)
    {
      for i := 0 to |failed|
        invariant pending == Without(old(pending), failed[..i])
        invariant events == old(events) + FailedEvents(failed[..i])
      {
        assert failed[..i + 1] == failed[..i] + [failed[i]];
        pending := pending - {failed[i]};
        events := events + [RequestFailed(failed[i])];
        assert FailedEvents(failed[..i + 1]) == FailedEvents(failed[..i]) + [RequestFailed(failed[i])];
      }
      assert failed[..|failed|] == failed;
    }

    /** Drive retransmission and cache expiry. */
    method Poll(now: Micros)
      modifies this
      ensures State() == AtpSpec.Poll(old(State()), now)
    {
      ghost var keys := Ascending(pending.Keys);
      var failed, resend := TickPending(now);
      DropFailed(failed);
      PollStages(old(pending), keys, now);
      outbox := outbox + resend;
      replyCache := Unexpired(replyCache, now);
    }

    method NextDeadline() returns (r: Option<Micros>)
      ensures r.None? <==> Deadlines(State()) == {}
      ensures r.Some? ==> r.value in Deadlines(State()) && forall d :: d in Deadlines(State()) ==> r.value <= d
    {
      r := None;
      var keys := AscendingKeys(pending.Keys);
      for i := 0 to |keys|
        invariant r.Some? ==> r.value in Deadlines(State())
        invariant forall j :: 0 <= j < i ==> NotAfter(r, pending[keys[j]].retryAt)
      {
        assert keys[i] in keys;
        r := Earlier(r, pending[keys[i]].retryAt);
      }
      forall t: u16 | t in pending ensures NotAfter(r, pending[t].retryAt) { assert t in keys; }
      for i := 0 to |replyCache|
        invariant r.Some? ==> r.value in Deadlines(State())
        invariant forall t: u16 :: t in pending ==> NotAfter(r, pending[t].retryAt)
        invariant forall j :: 0 <= j < i ==> NotAfter(r, replyCache[j].expiresAt)
      {
        r := Earlier(r, replyCache[i].expiresAt);
      }
      EarliestOf(State(), r);
    }

    method PollTransmit() returns (r: Option<(Address, AtpPacket)>)
      modifies this
      ensures old(outbox) == [] ==> r == None && State() == old(State())
      ensures old(outbox) != [] ==> r == Some(old(outbox)[0]) && State() == old(State()).(outbox := old(outbox)[1..])
    {
      if outbox == [] { return None; }
      r, outbox := Some(outbox[0]), outbox[1..];
    }

    method PollEvent() returns (r: Option<AtpEvent>)
      modifies this
      ensures old(events) == [] ==> r == None && State() == old(State())
      ensures old(events) != [] ==> r == Some(old(events)[0]) && State() == old(State()).(events := old(events)[1..])
    {
      if events == [] { return None; }
      r, events := Some(events[0]), events[1..];
    }
  }

  function FailedEvents(tids: seq<u16>): seq<AtpEvent> {
    seq(|tids|, i requires 0 <= i < |tids| => RequestFailed(tids[i]))
  }

  function AllTicked(pending: map<u16, PendingRequest>, now: Micros): map<u16, PendingRequest> {
    map t | t in pending :: Ticked(pending[t], now)
  }

  function TickedOver(pending: map<u16, PendingRequest>, tids: seq<u16>, now: Micros): map<u16, PendingRequest> {
    map t | t in pending :: if t in tids then Ticked(pending[t], now) else pending[t]
  }

  lemma {:induction false} AllTickedOver(pending: map<u16, PendingRequest>, keys: seq<u16>, now: Micros)
    requires keys == Ascending(pending.Keys)
    ensures TickedOver(pending, keys, now) == AllTicked(pending, now)
  {
  }

  lemma {:induction false} TickedSnoc(pending: map<u16, PendingRequest>, keys: seq<u16>, i: nat, now: Micros)
    requires AscendingOf(keys, pending.Keys) && i < |keys|
    ensures keys[i] in pending && keys[i] !in keys[..i]
    ensures TickedOver(pending, keys[..i + 1], now)
         == TickedOver(pending, keys[..i], now)[keys[i] := Ticked(pending[keys[i]], now)]
  {
    PrefixSnoc(keys, i);
  }

  /** The lists of failures and resends grow at the end as the keys do. */
  lemma {:induction false} ListsSnoc(pending: map<u16, PendingRequest>, keys: seq<u16>, i: nat, now: Micros)
    requires AscendingOf(keys, pending.Keys) && i < |keys|
    ensures forall t :: t in keys[..i + 1] ==> t in pending
    ensures forall t :: t in keys[..i] ==> t in pending
    ensures keys[i] in keys && keys[i] in pending
    ensures FailedTids(pending, keys[..i + 1], now)
         == FailedTids(pending, keys[..i], now) + (if GivesUp(pending[keys[i]], now) then [keys[i]] else [])
    ensures Resends(pending, keys[..i + 1], now)
         == Resends(pending, keys[..i], now)
            + (if Due(pending[keys[i]], now) && !GivesUp(pending[keys[i]], now)
               then [(pending[keys[i]].dest, pending[keys[i]].packet)] else [])
  {
    PrefixSnoc(keys, i);
    forall t | t in keys[..i + 1] ensures t in pending { assert t in keys; }
  }

  function Without(pending: map<u16, PendingRequest>, tids: seq<u16>): map<u16, PendingRequest> {
    map t | t in pending && t !in tids :: pending[t]
  }

  /** The requests among `tids` that give up now. */
  function FailedTids(pending: map<u16, PendingRequest>, tids: seq<u16>, now: Micros): seq<u16>
    requires forall t :: t in tids ==> t in pending
  {
    if tids == [] then [] else
    var t := tids[|tids| - 1];
    FailedTids(pending, tids[..|tids| - 1], now) + (if GivesUp(pending[t], now) then [t] else [])
  }

  lemma {:induction false} PrefixSnoc(keys: seq<u16>, i: nat)
    requires i < |keys|
    ensures keys[..i + 1] == keys[..i] + [keys[i]] && keys[..i + 1][..i] == keys[..i] && keys[i] in keys
    ensures forall t :: t in keys[..i + 1] <==> t in keys[..i] || t == keys[i]
  {
  }

  lemma {:induction false} FailedTidsAre(pending: map<u16, PendingRequest>, tids: seq<u16>, now: Micros)
    requires forall t :: t in tids ==> t in pending
    ensures forall t :: t in FailedTids(pending, tids, now) <==> t in tids && GivesUp(pending[t], now)
    decreases |tids|
  {
    if tids != [] {
      PrefixSnoc(tids, |tids| - 1);
      FailedTidsAre(pending, tids[..|tids| - 1], now);
    }
  }

  lemma {:induction false} FailuresListed(pending: map<u16, PendingRequest>, tids: seq<u16>, now: Micros)
    requires forall t :: t in tids ==> t in pending
    ensures FailedEvents(FailedTids(pending, tids, now)) == Failures(pending, tids, now)
    decreases |tids|
  {
    if tids != [] { FailuresListed(pending, tids[..|tids| - 1], now); }
  }

  /** Counting all tries first and dropping the failed requests after is the specified poll. */
  lemma {:induction false} PollStages(pending: map<u16, PendingRequest>, keys: seq<u16>, now: Micros)
    requires keys == Ascending(pending.Keys)
    ensures Without(AllTicked(pending, now), FailedTids(pending, keys, now)) == PendingAfter(pending, now)
    ensures FailedEvents(FailedTids(pending, keys, now)) == Failures(pending, keys, now)
  {
    FailedTidsAre(pending, keys, now);
    FailuresListed(pending, keys, now);
  }

  /** The earliest of all timers, or none when there is no timer. */
  lemma {:induction false} EarliestOf(a: Atp, r: Option<Micros>)
    requires r.Some? ==> r.value in Deadlines(a)
    requires forall t: u16 :: t in a.pending ==> NotAfter(r, a.pending[t].retryAt)
    requires forall j :: 0 <= j < |a.replyCache| ==> NotAfter(r, a.replyCache[j].expiresAt)
    ensures r.None? <==> Deadlines(a) == {}
    ensures r.Some? ==> forall d :: d in Deadlines(a) ==> r.value <= d
  {
    if d :| d in Deadlines(a) {
      assert (exists t: u16 :: t in a.pending && d == a.pending[t].retryAt)
        || (exists j :: 0 <= j < |a.replyCache| && d == a.replyCache[j].expiresAt);
    }
  }
}
