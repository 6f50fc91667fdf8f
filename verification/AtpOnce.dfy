/** Exactly-once on one ATP endpoint: over any run, whatever arrives from whomever, a request is
    raised again only after it was forgotten, and a handle is answered at most once. */
module AtpOnce {
  import opened Words
  import opened AtpSpec

  datatype Action =
    | Ask(dest: Address, userBytes: UserBytes, data: seq<byte>, bitmap: u8, now: Micros)
    | Tickle(dest: Address, userBytes: UserBytes)
    | Answer(source: Address, tid: u16, chunks: seq<Chunk>, now: Micros)
    | Tick(now: Micros)
    | Receive(src: Address, p: AtpPacket)

  ghost predicate Possible(a: Atp, act: Action) {
    act.Ask? || act.Tickle? ==> HasFreeTid(a.pending)
  }

  ghost function After(a: Atp, act: Action): Atp
    requires Possible(a, act)
  {
    match act
    case Ask(dest, userBytes, data, bitmap, now) => MakeRequest(a, dest, userBytes, data, bitmap, now)
    case Tickle(dest, userBytes) => SendAlo(a, dest, userBytes)
    case Answer(source, tid, chunks, now) => RespondPackets(a, source, tid, chunks, now)
    case Tick(now) => Poll(a, now)
    case Receive(src, p) => HandleDatagram(a, src, p)
  }

  /** The driver takes what the endpoint queued. */
  function Drained(a: Atp): Atp {
    a.(outbox := [], events := [])
  }

  // ---- what the responder remembers -------------------------------------------------------------

  predicate HasCached(cache: seq<CachedResponse>, src: Address, tid: u16) {
    exists i :: 0 <= i < |cache| && cache[i].source == src && cache[i].tid == tid
  }

  /** The transaction is being worked on or its reply is still kept. */
  predicate Known(a: Atp, src: Address, tid: u16) {
    (src, tid) in a.inProgress || HasCached(a.replyCache, src, tid)
  }

  lemma {:induction false} FindsCached(cache: seq<CachedResponse>, src: Address, tid: u16)
    ensures FindCached(cache, src, tid).Some? <==> HasCached(cache, src, tid)
    ensures FindCached(cache, src, tid).Some? ==>
              var c := FindCached(cache, src, tid).value;
              c in cache && c.source == src && c.tid == tid
  {
    if cache != [] {
      FindsCached(cache[1..], src, tid);
      if HasCached(cache[1..], src, tid) {
        var i :| 0 <= i < |cache| - 1 && cache[1..][i].source == src && cache[1..][i].tid == tid;
        assert cache[i + 1].source == src && cache[i + 1].tid == tid;
      }
    }
  }

  lemma {:induction false} RemovedKeys(keys: seq<(Address, u16)>, k: (Address, u16), x: (Address, u16))
    ensures x in RemoveKey(keys, k) <==> x in keys && x != k
  {
    if keys != [] { RemovedKeys(keys[1..], k, x); }
  }

  lemma {:induction false} RemovedCached(cache: seq<CachedResponse>, src: Address, tid: u16, c: CachedResponse)
    ensures c in RemoveCached(cache, src, tid) <==> c in cache && !(c.source == src && c.tid == tid)
  {
    if cache != [] { RemovedCached(cache[1..], src, tid, c); }
  }

  lemma {:induction false} UnexpiredStay(cache: seq<CachedResponse>, now: Micros, c: CachedResponse)
    ensures c in Unexpired(cache, now) <==> c in cache && c.expiresAt > now
  {
    if cache != [] { UnexpiredStay(cache[1..], now, c); }
  }

  /** Membership says the same as the indexed form. */
  lemma {:induction false} HasCachedIn(cache: seq<CachedResponse>, src: Address, tid: u16)
    ensures HasCached(cache, src, tid) <==> exists c :: c in cache && c.source == src && c.tid == tid
  {
    if c :| c in cache && c.source == src && c.tid == tid {
      var i :| 0 <= i < |cache| && cache[i] == c;
    }
  }

  /** The four ways a transaction is forgotten. */
  ghost predicate Cause(a: Atp, act: Action, src: Address, tid: u16) {
    match act
    case Receive(s, p) =>
      if p.function_ == Release then s == src && p.tid == tid
      else p.function_ == Request && p.xo && |a.inProgress| >= REPLY_CACHE_LEN && a.inProgress[0] == (src, tid)
    case Tick(now) => exists c :: c in a.replyCache && c.source == src && c.tid == tid && c.expiresAt <= now
    case Answer(_, _, _, _) =>
      |a.replyCache| == REPLY_CACHE_LEN && a.replyCache[0].source == src && a.replyCache[0].tid == tid
    case _ => false
  }

  lemma {:induction false} AnswerKnows(a: Atp, source: Address, id: u16, chunks: seq<Chunk>, now: Micros,
      src: Address, tid: u16)
    ensures var a' := RespondPackets(a, source, id, chunks, now);
            && ((source, id) == (src, tid) ==> Known(a', src, tid))
            && (Known(a, src, tid) && !Known(a', src, tid) ==> Cause(a, Answer(source, id, chunks, now), src, tid))
  {
    var a' := RespondPackets(a, source, id, chunks, now);
    RemovedKeys(a.inProgress, (source, id), (src, tid));
    var last := |a'.replyCache| - 1;
    assert a'.replyCache[last].source == source && a'.replyCache[last].tid == id;
    if HasCached(a.replyCache, src, tid) {
      var i :| 0 <= i < |a.replyCache| && a.replyCache[i].source == src && a.replyCache[i].tid == tid;
      var j := if |a.replyCache| == REPLY_CACHE_LEN then i - 1 else i;
      if 0 <= j { assert a'.replyCache[j] == a.replyCache[i]; }
    }
  }

  lemma {:induction false} TickKnows(a: Atp, now: Micros, src: Address, tid: u16)
    requires Known(a, src, tid) && !Known(Poll(a, now), src, tid)
    ensures Cause(a, Tick(now), src, tid)
  {
    var i :| 0 <= i < |a.replyCache| && a.replyCache[i].source == src && a.replyCache[i].tid == tid;
    UnexpiredStay(a.replyCache, now, a.replyCache[i]);
    HasCachedIn(Unexpired(a.replyCache, now), src, tid);
  }

  lemma {:induction false} ReleaseKnows(a: Atp, s: Address, p: AtpPacket, src: Address, tid: u16)
    requires Known(a, src, tid) && !Known(HandleRelease(a, s, p), src, tid)
    ensures s == src && p.tid == tid
  {
    var i :| 0 <= i < |a.replyCache| && a.replyCache[i].source == src && a.replyCache[i].tid == tid;
    RemovedCached(a.replyCache, s, p.tid, a.replyCache[i]);
    HasCachedIn(RemoveCached(a.replyCache, s, p.tid), src, tid);
  }

  /** The request the packet raises as an event, if any. */
  predicate Raises(a: Atp, s: Address, p: AtpPacket) {
    p.function_ == Request && FindCached(a.replyCache, s, p.tid).None? && !(p.xo && (s, p.tid) in a.inProgress)
  }

  function RaisedEvent(s: Address, p: AtpPacket): AtpEvent {
    RequestEvent(s, p.tid, p.userBytes, p.payload, WidenedBitmap(p.bitmapSeq), p.xo)
  }

  lemma {:induction false} RequestKnows(a: Atp, s: Address, p: AtpPacket, src: Address, tid: u16)
    requires p.function_ == Request
    ensures var a' := HandleRequest(a, s, p);
            && a'.events == a.events + (if Raises(a, s, p) then [RaisedEvent(s, p)] else [])
            && (Raises(a, s, p) && p.xo ==> !Known(a, s, p.tid) && Known(a', s, p.tid))
            && (Known(a, src, tid) && !Known(a', src, tid) ==> Cause(a, Receive(s, p), src, tid))
  {
    FindsCached(a.replyCache, s, p.tid);
  }

  /** A remembered transaction is forgotten by its release, by its reply expiring, or by being the
      oldest of a full table when another comes in; by nothing else. */
  lemma {:induction false} ForgottenOnlyBy(a: Atp, act: Action, src: Address, tid: u16)
    requires Possible(a, act) && Known(a, src, tid) && !Known(After(a, act), src, tid)
    ensures Cause(a, act, src, tid)
  {
    match act
    case Answer(source, id, chunks, now) => AnswerKnows(a, source, id, chunks, now, src, tid);
    case Tick(now) => TickKnows(a, now, src, tid);
    case Receive(s, p) =>
      match p.function_ {
        case Request => RequestKnows(a, s, p, src, tid);
        case Release => ReleaseKnows(a, s, p, src, tid);
        case Response =>
      }
    case _ =>
  }

  // ---- runs -----------------------------------------------------------------------------------

  /** An endpoint driven through `acts`, its queues drained after every step. */
  ghost predicate IsRun(states: seq<Atp>, acts: seq<Action>) {
    && |states| == |acts| + 1
    && (forall i :: 0 <= i < |states| ==> states[i] == Drained(states[i]))
    && (forall i :: 0 <= i < |acts| ==> IsStep(states[i], acts[i], states[i + 1]))
  }

  ghost predicate IsStep(a: Atp, act: Action, a': Atp) {
    Possible(a, act) && a' == Drained(After(a, act))
  }

  predicate IsRaise(ev: AtpEvent, src: Address, tid: u16) {
    ev.RequestEvent? && ev.xo && ev.source == src && ev.tid == tid
  }

  predicate IsOutcome(ev: AtpEvent, h: u16) {
    (ev.ResponseEvent? || ev.RequestFailed?) && ev.handle == h
  }

  function CountRaises(evs: seq<AtpEvent>, src: Address, tid: u16): nat {
    if evs == [] then 0
    else CountRaises(evs[..|evs| - 1], src, tid) + (if IsRaise(evs[|evs| - 1], src, tid) then 1 else 0)
  }

  function CountOutcomes(evs: seq<AtpEvent>, h: u16): nat {
    if evs == [] then 0
    else CountOutcomes(evs[..|evs| - 1], h) + (if IsOutcome(evs[|evs| - 1], h) then 1 else 0)
  }

  ghost function RaisesIn(a: Atp, act: Action, src: Address, tid: u16): nat
    requires Possible(a, act)
  {
    CountRaises(After(a, act).events, src, tid)
  }

  /** How often the run has raised this exactly-once request. */
  ghost function Raised(states: seq<Atp>, acts: seq<Action>, src: Address, tid: u16, n: nat): nat
    requires IsRun(states, acts) && n <= |acts|
  {
    if n == 0 then 0 else
    assert IsStep(states[n - 1], acts[n - 1], states[n]);
    Raised(states, acts, src, tid, n - 1) + RaisesIn(states[n - 1], acts[n - 1], src, tid)
  }

  /** How often it has been forgotten. */
  ghost function Forgotten(states: seq<Atp>, acts: seq<Action>, src: Address, tid: u16, n: nat): nat
    requires IsRun(states, acts) && n <= |acts|
  {
    if n == 0 then 0 else
    Forgotten(states, acts, src, tid, n - 1)
    + (if Known(states[n - 1], src, tid) && !Known(states[n], src, tid) then 1 else 0)
  }

  lemma {:induction false} OneEvent(ev: AtpEvent, src: Address, tid: u16, h: u16)
    ensures CountRaises([ev], src, tid) == if IsRaise(ev, src, tid) then 1 else 0
    ensures CountOutcomes([ev], h) == if IsOutcome(ev, h) then 1 else 0
    ensures CountRaises([], src, tid) == 0 && CountOutcomes([], h) == 0
  {
    assert [ev][..0] == [];
  }

  lemma {:induction false} FailuresCounted(pending: map<u16, PendingRequest>, tids: seq<u16>, now: Micros,
      src: Address, tid: u16, h: u16)
    requires forall t :: t in tids ==> t in pending
    requires forall i, j :: 0 <= i < j < |tids| ==> tids[i] != tids[j]
    ensures CountRaises(Failures(pending, tids, now), src, tid) == 0
    ensures CountOutcomes(Failures(pending, tids, now), h) ==
              if h in tids && GivesUp(pending[h], now) then 1 else 0
    decreases |tids|
  {
    if tids != [] {
      var front, t := tids[..|tids| - 1], tids[|tids| - 1];
      assert tids == front + [t] && t !in front;
      FailuresCounted(pending, front, now, src, tid, h);
      var evs := Failures(pending, front, now);
      assert (evs + [RequestFailed(t)])[..|evs|] == evs;
      assert evs + [] == evs;
      assert Failures(pending, tids, now) == evs + (if GivesUp(pending[t], now) then [RequestFailed(t)] else []);
    }
  }

  lemma {:induction false} StepRaises(a: Atp, act: Action, src: Address, tid: u16)
    requires Possible(a, act) && a.events == []
    ensures var evs := After(a, act).events;
            && CountRaises(evs, src, tid) <= 1
            && (CountRaises(evs, src, tid) == 1 ==> !Known(a, src, tid) && Known(After(a, act), src, tid))
  {
    match act
    case Tick(now) =>
      FailuresCounted(a.pending, Ascending(a.pending.Keys), now, src, tid, 0);
      assert a.events + Failures(a.pending, Ascending(a.pending.Keys), now) == Failures(a.pending, Ascending(a.pending.Keys), now);
    case Receive(s, p) => ReceiveRaises(a, s, p, src, tid);
    case _ =>
  }

  lemma {:induction false} ReceiveRaises(a: Atp, s: Address, p: AtpPacket, src: Address, tid: u16)
    requires a.events == []
    ensures var evs := HandleDatagram(a, s, p).events;
            && CountRaises(evs, src, tid) <= 1
            && (CountRaises(evs, src, tid) == 1 ==> !Known(a, src, tid) && Known(HandleDatagram(a, s, p), src, tid))
  {
    OneEvent(RaisedEvent(s, p), src, tid, 0);
    match p.function_
    case Request => RequestKnows(a, s, p, src, tid);
    case Response =>
      var evs := HandleResponse(a, s, p).events;
      if evs != [] { assert evs == [evs[0]]; OneEvent(evs[0], src, tid, 0); }
    case Release =>
  }

  function KnownCount(a: Atp, src: Address, tid: u16): nat {
    if Known(a, src, tid) then 1 else 0
  }

  lemma {:induction false} StepBalance(a: Atp, act: Action, a': Atp, src: Address, tid: u16)
    requires IsStep(a, act, a') && a.events == []
    ensures RaisesIn(a, act, src, tid) + KnownCount(a, src, tid)
         <= (if Known(a, src, tid) && !Known(a', src, tid) then 1 else 0) + KnownCount(a', src, tid)
  {
    StepRaises(a, act, src, tid);
  }

  lemma {:induction false} BalanceAt(states: seq<Atp>, acts: seq<Action>, src: Address, tid: u16, n: nat)
    requires IsRun(states, acts) && n < |acts|
    ensures IsStep(states[n], acts[n], states[n + 1])
    ensures RaisesIn(states[n], acts[n], src, tid) + KnownCount(states[n], src, tid)
         <= (if Known(states[n], src, tid) && !Known(states[n + 1], src, tid) then 1 else 0)
            + KnownCount(states[n + 1], src, tid)
  {
    assert states[n] == Drained(states[n]);
    StepBalance(states[n], acts[n], states[n + 1], src, tid);
  }

  /** Exactly once: counted over any run, an exactly-once request is raised at most once more than it
      was forgotten, and not at all while it is known from the start. */
  lemma {:induction false} RaisedOncePerForgetting(states: seq<Atp>, acts: seq<Action>, src: Address, tid: u16, n: nat)
    requires IsRun(states, acts) && n <= |acts|
    ensures Raised(states, acts, src, tid, n) + KnownCount(states[0], src, tid)
         <= Forgotten(states, acts, src, tid, n) + KnownCount(states[n], src, tid)
  {
    if n > 0 {
      RaisedOncePerForgetting(states, acts, src, tid, n - 1);
      BalanceAt(states, acts, src, tid, n - 1);
    }
  }

  // ---- one outcome per request --------------------------------------------------------------------

  /** Whether the step starts a request under this handle. */
  ghost predicate Opens(a: Atp, act: Action, h: u16)
    requires Possible(a, act)
  {
    act.Ask? && AllocateTid(a.pending, a.nextTid) == h
  }

  ghost function Opened(states: seq<Atp>, acts: seq<Action>, h: u16, n: nat): nat
    requires IsRun(states, acts) && n <= |acts|
  {
    if n == 0 then 0 else
    assert IsStep(states[n - 1], acts[n - 1], states[n]);
    Opened(states, acts, h, n - 1) + (if Opens(states[n - 1], acts[n - 1], h) then 1 else 0)
  }

  /** Responses and failures raised for a handle. */
  ghost function Outcomes(states: seq<Atp>, acts: seq<Action>, h: u16, n: nat): nat
    requires IsRun(states, acts) && n <= |acts|
  {
    if n == 0 then 0 else
    assert IsStep(states[n - 1], acts[n - 1], states[n]);
    Outcomes(states, acts, h, n - 1) + CountOutcomes(After(states[n - 1], acts[n - 1]).events, h)
  }

  function Waiting(a: Atp, h: u16): nat {
    if h in a.pending then 1 else 0
  }

  lemma {:induction false} ReceiveOutcomes(a: Atp, s: Address, p: AtpPacket, h: u16)
    requires a.events == []
    ensures CountOutcomes(HandleDatagram(a, s, p).events, h) + Waiting(HandleDatagram(a, s, p), h) <= Waiting(a, h)
  {
    OneEvent(RaisedEvent(s, p), s, 0, h);
    match p.function_
    case Request => RequestKnows(a, s, p, s, 0);
    case Response =>
      var evs := HandleResponse(a, s, p).events;
      if evs != [] { assert evs == [evs[0]]; OneEvent(evs[0], s, 0, h); }
    case Release =>
  }

  lemma {:induction false} StepOutcomes(a: Atp, act: Action, h: u16)
    requires Possible(a, act) && a.events == []
    ensures CountOutcomes(After(a, act).events, h) + Waiting(After(a, act), h)
         <= Waiting(a, h) + (if Opens(a, act, h) then 1 else 0)
  {
    match act
    case Tick(now) =>
      var tids := Ascending(a.pending.Keys);
      FailuresCounted(a.pending, tids, now, Address(0, 0, 0), 0, h);
      assert a.events + Failures(a.pending, tids, now) == Failures(a.pending, tids, now);
    case Receive(s, p) => ReceiveOutcomes(a, s, p, h);
    case _ =>
  }

  /** However packets arrive, a handle has no more responses and failures together than requests
      were made under it, and none while the request is still waiting. */
  lemma {:induction false} OneOutcomePerRequest(states: seq<Atp>, acts: seq<Action>, h: u16, n: nat)
    requires IsRun(states, acts) && n <= |acts|
    ensures Outcomes(states, acts, h, n) + Waiting(states[n], h) <= Opened(states, acts, h, n) + Waiting(states[0], h)
  {
    if n > 0 {
      OneOutcomePerRequest(states, acts, h, n - 1);
      assert IsStep(states[n - 1], acts[n - 1], states[n]);
      StepOutcomes(states[n - 1], acts[n - 1], h);
    }
  }
}
