/** A requestor and a responder joined by a network that loses, duplicates and reorders.

    The network is two sets of packets that only grow. Both ends are whole endpoints: the
    responder may make requests of its own, the requestor may answer others, and either may
    receive anything from third parties, except that whatever answers an open request is what the
    responder sent, whoever passes it on: the code does not check where a response is from, as
    `ForeignAnswerIsTaken` shows. */
module AtpSystem {
  import opened Words
  import opened AtpSpec
  import opened AtpReassembly
  import opened AtpOnce

  /** A response raised for a request: what it carried, and whether the responder still had the
      transaction on record, had it not been released. */
  datatype Completion = Completion(userBytes: UserBytes, data: seq<byte>, inTime: bool)

  datatype System = System(
    q: Atp,                         // the requestor
    r: Atp,                         // the responder
    qa: Address,
    ra: Address,
    toR: set<AtpPacket>,
    toQ: set<AtpPacket>,
    used: set<u16>,                 // transaction ids the requestor has allocated
    asked: map<u16, u8>,            // its requests to the responder, with their bitmaps
    raised: multiset<u16>,          // request events from the requestor
    answered: multiset<u16>,        // replies given to it
    answer: map<u16, seq<Chunk>>,   // the first of them
    lost: set<u16>,                 // transactions the responder forgot by expiry or eviction
    done: map<u16, Completion>)     // responses raised

  datatype Event = AtQ(act: Action) | AtR(act: Action)

  // ---- what each end does to the system ------------------------------------------------------------

  const Nobody: multiset<u16> := multiset{}

  function Just(tid: u16): multiset<u16> {
    multiset{tid}
  }

  /** The transactions of the requests these events raise from `src`. */
  function RaisedFrom(evs: seq<AtpEvent>, src: Address): multiset<u16> {
    if evs == [] then Nobody else
    var ev := evs[|evs| - 1];
    RaisedFrom(evs[..|evs| - 1], src) + (if ev.RequestEvent? && ev.source == src then Just(ev.tid) else Nobody)
  }

  function Sent(outbox: seq<(Address, AtpPacket)>, dest: Address): set<AtpPacket> {
    set m | m in outbox && m.0 == dest :: m.1
  }

  /** The completion an event records, if it is a response to a request made of the responder. */
  function Completed(s: System, evs: seq<AtpEvent>): map<u16, Completion> {
    if |evs| == 1 && evs[0].ResponseEvent? && evs[0].handle in s.asked
    then s.done[evs[0].handle := Completion(evs[0].userBytes, evs[0].data, evs[0].handle !in s.lost)]
    else s.done
  }

  ghost function QStep(s: System, act: Action): System
    requires Possible(s.q, act)
  {
    var q := After(s.q, act);
    var tid := if act.Ask? || act.Tickle? then AllocateTid(s.q.pending, s.q.nextTid) else 0;
    s.(q := Drained(q),
       toR := s.toR + Sent(q.outbox, s.ra),
       used := if act.Ask? || act.Tickle? then s.used + {tid} else s.used,
       asked := if act.Ask? && act.dest == s.ra then s.asked[tid := act.bitmap] else s.asked,
       done := Completed(s, q.events))
  }

  predicate IsRelease(act: Action) {
    act.Receive? && act.p.function_ == Release
  }

  predicate AnswersQ(s: System, act: Action) {
    act.Answer? && act.source == s.qa
  }

  /** The transactions this step makes the responder forget, other than by a release. */
  ghost function Losses(s: System, act: Action): set<u16>
    requires Possible(s.r, act)
  {
    if IsRelease(act) then {} else
    set t | t in s.used && Known(s.r, s.qa, t) && !Known(After(s.r, act), s.qa, t)
  }

  ghost function RStep(s: System, act: Action): System
    requires Possible(s.r, act)
  {
    var r := After(s.r, act);
    s.(r := Drained(r),
       toQ := s.toQ + Sent(r.outbox, s.qa),
       raised := s.raised + RaisedFrom(r.events, s.qa),
       answered := if AnswersQ(s, act) then s.answered + multiset{act.tid} else s.answered,
       answer := if AnswersQ(s, act) && act.tid !in s.answer then s.answer[act.tid := act.chunks] else s.answer,
       lost := s.lost + Losses(s, act))
  }

  /** A response packet, from wherever, to a request the responder was asked and that still waits. */
  predicate Answers(s: System, p: AtpPacket) {
    p.function_ == Response && p.tid in s.asked && p.tid in s.q.pending
  }

  /** What the requestor can do: it never reuses a transaction id, and gets from the responder's
      address, or in answer to an open request to it from any address, only what the responder
      sent. */
  ghost predicate QCan(s: System, act: Action) {
    && Possible(s.q, act)
    && (act.Ask? || act.Tickle? ==> AllocateTid(s.q.pending, s.q.nextTid) !in s.used)
    && (act.Receive? && (act.src == s.ra || Answers(s, act.p)) ==> act.p in s.toQ)
  }

  /** What the responder can do: it answers each request event at most once. */
  ghost predicate RCan(s: System, act: Action) {
    && Possible(s.r, act)
    && (act.Receive? && act.src == s.qa ==> act.p in s.toR)
    && (AnswersQ(s, act) ==> s.answered[act.tid] < s.raised[act.tid])
  }

  ghost predicate Next(s: System, e: Event, s': System) {
    match e
    case AtQ(act) => QCan(s, act) && s' == QStep(s, act)
    case AtR(act) => RCan(s, act) && s' == RStep(s, act)
  }

  function NewAtp(nextTid: u16): Atp {
    Atp(nextTid, map[], [], [], [], [])
  }

  function Start(qa: Address, ra: Address): System {
    System(NewAtp(1), NewAtp(1), qa, ra, {}, {}, {}, map[], multiset{}, multiset{}, map[], {}, map[])
  }

  ghost predicate IsSystemRun(states: seq<System>, evs: seq<Event>) {
    && |states| == |evs| + 1
    && states[0] == Start(states[0].qa, states[0].ra)
    && forall i :: 0 <= i < |evs| ==> Next(states[i], evs[i], states[i + 1])
  }

  // ---- the invariant --------------------------------------------------------------------------------

  /** Requests waiting hold their own request packet; kept replies hold response packets. */
  ghost predicate Tidy(a: Atp) {
    && (forall t :: t in a.pending ==>
          var p := a.pending[t].packet; p.function_ == Request && p.xo && p.tid == t)
    && (forall c, p :: c in a.replyCache && p in c.packets ==> p.function_ == Response && p.tid == c.tid)
    && a.outbox == [] && a.events == []
  }

  /** The responder's record of one transaction agrees with what was raised and answered. */
  ghost predicate RecordOk(r: Atp, qa: Address, tid: u16, raised: nat, answered: nat, answer: Option<seq<Chunk>>) {
    && raised == KnownCount(r, qa, tid)
    && (HasCached(r.replyCache, qa, tid) <==> answer.Some?)
    && (answer.Some? ==> (qa, tid) !in r.inProgress)
    && answered == (if answer.Some? then 1 else 0)
    && (forall c :: c in r.replyCache && c.source == qa && c.tid == tid ==>
          answer.Some? && c.packets == Framed(tid, answer.value))
  }

  /** The waiting request holds nothing but packets of the one answer. */
  predicate WaitingOk(s: PendingRequest, bitmap: u8, answer: Option<seq<Chunk>>) {
    && s.requestedBitmap == bitmap
    && if answer.Some? then Holds(s, answer.value)
       else s.received == map[] && s.userBytes == None && s.eomSeq == None
  }

  ghost predicate ResponsesOk(toQ: set<AtpPacket>, tid: u16, answer: Option<seq<Chunk>>) {
    forall p :: p in toQ && p.function_ == Response && p.tid == tid ==>
      answer.Some? && p in Framed(tid, answer.value)
  }

  ghost predicate RequestsOk(toR: set<AtpPacket>, tid: u16) {
    forall p :: p in toR && p.tid == tid ==> (p.function_ == Request ==> p.xo) && p.function_ != Release
  }

  function AnswerTo(s: System, tid: u16): Option<seq<Chunk>> {
    if tid in s.answer then Some(s.answer[tid]) else None
  }

  /** A transaction in progress of which the responder has lost nothing. */
  ghost predicate Live(s: System, tid: u16) {
    tid in s.asked && tid !in s.lost && tid !in s.done
  }

  ghost predicate LiveOk(s: System, tid: u16)
    requires tid in s.asked
  {
    && RecordOk(s.r, s.qa, tid, s.raised[tid], s.answered[tid], AnswerTo(s, tid))
    && (tid in s.q.pending ==> WaitingOk(s.q.pending[tid], s.asked[tid], AnswerTo(s, tid)))
    && ResponsesOk(s.toQ, tid, AnswerTo(s, tid))
    && RequestsOk(s.toR, tid)
  }

  /** A transaction id not used yet has left no trace. */
  ghost predicate Unused(s: System, tid: u16) {
    && tid !in s.asked && tid !in s.lost && tid !in s.done && tid !in s.answer && tid !in s.q.pending
    && s.raised[tid] == 0 && s.answered[tid] == 0 && !Known(s.r, s.qa, tid)
    && (forall p :: p in s.toR && p.tid == tid ==> p.function_ == Response)
    && (forall p :: p in s.toQ && p.tid == tid ==> p.function_ != Response)
  }

  /** What a completion promises. */
  ghost predicate CompletionOk(c: Completion, bitmap: u8, answer: Option<seq<Chunk>>) {
    c.inTime ==>
      && answer.Some?
      && (Fits(bitmap, Count(answer.value)) ==>
            && c.data == Carried(answer.value)
            && exists i :: 0 <= i < Count(answer.value) && answer.value[i].userBytes == c.userBytes)
  }

  ghost predicate TidOk(s: System, tid: u16) {
    && (tid !in s.used ==> Unused(s, tid))
    && (Live(s, tid) ==> LiveOk(s, tid))
    && (tid in s.done ==> tid in s.asked && tid !in s.q.pending
                          && CompletionOk(s.done[tid], s.asked[tid], AnswerTo(s, tid)))
  }

  ghost predicate Inv(s: System) {
    Tidy(s.q) && Tidy(s.r) && forall tid: u16 :: TidOk(s, tid)
  }

  // ---- what an endpoint sends -------------------------------------------------------------------------

  lemma {:induction false} ResendsOnly(pending: map<u16, PendingRequest>, tids: seq<u16>, now: Micros, m: (Address,
      AtpPacket))
    requires forall t :: t in tids ==> t in pending
    requires m in Resends(pending, tids, now)
    ensures exists t :: t in pending && m == (pending[t].dest, pending[t].packet)
    decreases |tids|
  {
    var front, t := tids[..|tids| - 1], tids[|tids| - 1];
    if m in Resends(pending, front, now) { ResendsOnly(pending, front, now, m); }
  }

  lemma {:induction false} FailuresOnly(pending: map<u16, PendingRequest>, tids: seq<u16>, now: Micros)
    requires forall t :: t in tids ==> t in pending
    ensures forall i :: 0 <= i < |Failures(pending, tids, now)| ==> Failures(pending, tids, now)[i].RequestFailed?
    decreases |tids|
  {
    if tids != [] { FailuresOnly(pending, tids[..|tids| - 1], now); }
  }

  /** Where each packet an endpoint sends comes from. */
  ghost predicate Accounted(a: Atp, act: Action, m: (Address, AtpPacket))
    requires Possible(a, act)
  {
    match m.1.function_
    case Request =>
      || (act.Ask? && m.1.tid == AllocateTid(a.pending, a.nextTid) && m.1.xo && m.0 == act.dest)
      || (act.Tickle? && m.1.tid == AllocateTid(a.pending, a.nextTid))
      || (act.Tick? && m.1.tid in a.pending && m.1.xo)
    case Release =>
      && act.Receive? && act.p.function_ == Response && m.0 == act.src && m.1.tid == act.p.tid
      && act.p.tid in a.pending && |After(a, act).events| == 1
      && After(a, act).events[0].ResponseEvent? && After(a, act).events[0].handle == act.p.tid
    case Response =>
      || (act.Answer? && m.0 == act.source && m.1 in Framed(act.tid, act.chunks))
      || (act.Receive? && act.p.function_ == Request && m.0 == act.src
          && exists c :: c in a.replyCache && c.source == act.src && c.tid == act.p.tid && m.1 in c.packets)
  }

  lemma {:induction false} SentByPeerRequest(a: Atp, src: Address, p: AtpPacket, m: (Address, AtpPacket))
    requires Tidy(a) && p.function_ == Request && m in HandleRequest(a, src, p).outbox
    ensures m.0 == src && m.1.function_ == Response
    ensures exists c :: c in a.replyCache && c.source == src && c.tid == p.tid && m.1 in c.packets
  {
    FindsCached(a.replyCache, src, p.tid);
    var c := FindCached(a.replyCache, src, p.tid).value;
    assert m in ToAddress(src, c.packets);
  }

  lemma {:induction false} SentByResponse(a: Atp, src: Address, p: AtpPacket, m: (Address, AtpPacket))
    requires Tidy(a) && p.function_ == Response && m in HandleResponse(a, src, p).outbox
    ensures m == (src, ReleasePacket(p.tid)) && p.tid in a.pending
    ensures var evs := HandleResponse(a, src, p).events;
            |evs| == 1 && evs[0].ResponseEvent? && evs[0].handle == p.tid
  {
  }

  lemma {:induction false} SentByReceive(a: Atp, src: Address, p: AtpPacket, m: (Address, AtpPacket))
    requires Tidy(a) && m in HandleDatagram(a, src, p).outbox
    ensures Accounted(a, Receive(src, p), m)
  {
    match p.function_
    case Request => SentByPeerRequest(a, src, p, m);
    case Response => SentByResponse(a, src, p, m);
    case Release =>
  }

  lemma {:induction false} SentAccounted(a: Atp, act: Action, m: (Address, AtpPacket))
    requires Tidy(a) && Possible(a, act) && m in After(a, act).outbox
    ensures Accounted(a, act, m)
  {
    match act
    case Answer(source, tid, chunks, now) =>
      assert m in ToAddress(source, Framed(tid, chunks));
    case Tick(now) => ResendsOnly(a.pending, Ascending(a.pending.Keys), now, m);
    case Receive(src, p) => SentByReceive(a, src, p, m);
    case _ =>
  }

  lemma {:induction false} TidyCacheKeeps(a: Atp, act: Action, c: CachedResponse)
    requires Tidy(a) && Possible(a, act) && c in After(a, act).replyCache
    ensures c in a.replyCache || (act.Answer? && c.tid == act.tid && c.source == act.source
                                  && c.packets == Framed(act.tid, act.chunks))
  {
    match act
    case Tick(now) => UnexpiredStay(a.replyCache, now, c);
    case Receive(src, p) => if p.function_ == Release { RemovedCached(a.replyCache, src, p.tid, c); }
    case _ =>
  }

  lemma {:induction false} TidyKeeps(a: Atp, act: Action)
    requires Tidy(a) && Possible(a, act)
    ensures Tidy(Drained(After(a, act)))
  {
    var a' := Drained(After(a, act));
    forall c, p | c in a'.replyCache && p in c.packets ensures p.function_ == Response && p.tid == c.tid {
      TidyCacheKeeps(a, act, c);
    }
    forall t | t in a'.pending
      ensures var p := a'.pending[t].packet; p.function_ == Request && p.xo && p.tid == t
    {
      PendingPacketKeeps(a, act, t);
    }
  }

  lemma {:induction false} PendingPacketKeeps(a: Atp, act: Action, t: u16)
    requires Tidy(a) && Possible(a, act) && t in After(a, act).pending
    ensures var p := After(a, act).pending[t].packet; p.function_ == Request && p.xo && p.tid == t
  {
  }
}
