/** What a PAP server never leaves undone: after every call it has answered what it can, pulled what it
    can take, and set every timer ahead. */
module PapProgress {
  import opened Words
  import opened AtpSpec
  import opened PapSpec
  import AtpOnce
  import AtpReassembly

  /** The public calls, and taking away what they put out. */
  datatype Call =
    | Datagram(socket: u8, src: Address, q: AtpPacket, now: Micros)
    | Tick(now: Micros)
    | Print(data: seq<byte>, now: Micros)
    | EndPrint(now: Micros)
    | Room(bytes: nat, now: Micros)
    | Label(status: seq<byte>)
    | Take

  ghost function Called(p: PapServer, c: Call): PapServer {
    match c
    case Datagram(socket, src, q, now) => PapSpec.HandleDatagram(p, socket, src, q, now)
    case Tick(now) => PapSpec.Poll(p, now)
    case Print(data, now) => QueueOutput(p, data, now)
    case EndPrint(now) => EndOutput(p, now)
    case Room(bytes, now) => SetSinkCredit(p, bytes, now)
    case Label(status) => SetStatus(p, status)
    case Take => p.(listener := p.listener.(outbox := []), conn := p.conn.(outbox := []), events := [])
  }

  /** A server from its start, after each of some calls. */
  ghost predicate IsRun(ps: seq<PapServer>, calls: seq<Call>) {
    && |ps| == |calls| + 1
    && (exists listener, conn :: ps[0] == NewServer(listener, conn))
    && forall i :: 0 <= i < |calls| ==> ps[i + 1] == Called(ps[i], calls[i])
  }

  /** Nothing is left undone: no event of a transaction waits to be handled, no read waits while there is
      output for it, and no pull is due. */
  ghost predicate Prompt(p: PapServer) {
    && p.listener.events == [] && p.conn.events == [] && !WantsPull(p)
    && (p.session.Some? && p.session.value.pendingRead.Some? ==>
          p.session.value.stdout == [] && !p.session.value.eofQueued)
  }

  // ---- events are all handled ------------------------------------------------------------------------------

  lemma {:induction false} ListenerRaisesNone(p: PapServer, evs: seq<AtpEvent>, now: Micros)
    ensures var p' := ListenerEvents(p, evs, now);
            p'.listener.events == p.listener.events && p'.conn == p.conn
            && p'.listener.pending == p.listener.pending
    decreases |evs|
  {
    if evs != [] { ListenerRaisesNone(p, evs[..|evs| - 1], now); }
  }

  lemma {:induction false} ConnRaisesNone(p: PapServer, evs: seq<AtpEvent>, now: Micros)
    ensures var p' := ConnEvents(p, evs, now);
            p'.conn.events == p.conn.events && p'.listener == p.listener && p'.conn.pending == p.conn.pending
    decreases |evs|
  {
    if evs != [] { ConnRaisesNone(p, evs[..|evs| - 1], now); }
  }

  lemma {:induction false} AnswerLeavesNone(p: PapServer, now: Micros)
    ensures var p' := AnswerRead(p, now);
            && p'.listener == p.listener && p'.conn.events == p.conn.events && p'.conn.pending == p.conn.pending
            && p'.sinkCredit == p.sinkCredit
            && (p'.session.Some? <==> p.session.Some?)
            && (p.session.Some? ==>
                  && p'.session.value.outstandingPull == p.session.value.outstandingPull
                  && !ReadReady(p'.session.value, now))
  {
  }

  lemma {:induction false} PullLeavesNone(p: PapServer, now: Micros)
    ensures var p' := MaybePull(p, now);
            && p'.listener == p.listener && p'.conn.events == p.conn.events && !WantsPull(p')
            && (p'.session.Some? <==> p.session.Some?)
            && (p.session.Some? ==>
                  p'.session.value == p.session.value.(outstandingPull := p'.session.value.outstandingPull))
  {
  }

  lemma {:induction false} FinishIsPrompt(p: PapServer, now: Micros)
    requires p.listener.events == [] && p.conn.events == []
    ensures Prompt(MaybePull(AnswerRead(p, now), now))
  {
    AnswerLeavesNone(p, now);
    PullLeavesNone(AnswerRead(p, now), now);
  }

  lemma {:induction false} DrainIsPrompt(p: PapServer, now: Micros)
    ensures Prompt(Drain(p, now))
  {
    var p0 := p.(listener := p.listener.(events := []));
    ListenerRaisesNone(p0, p.listener.events, now);
    var p1 := ListenerEvents(p0, p.listener.events, now);
    var p2 := p1.(conn := p1.conn.(events := []));
    ConnRaisesNone(p2, p1.conn.events, now);
    FinishIsPrompt(ConnEvents(p2, p1.conn.events, now), now);
  }

  lemma {:induction false} PollIsPrompt(p: PapServer, now: Micros)
    ensures Prompt(PapSpec.Poll(p, now))
  {
    var p1 := p.(listener := AtpSpec.Poll(p.listener, now), conn := AtpSpec.Poll(p.conn, now));
    DrainIsPrompt(p1, now);
    FinishIsPrompt(KeepAlive(Drain(p1, now), now), now);
  }

  lemma {:induction false} PrintIsPrompt(p: PapServer, now: Micros)
    requires p.listener.events == [] && p.conn.events == [] && !WantsPull(p)
    ensures Prompt(AnswerRead(p, now))
  {
    AnswerLeavesNone(p, now);
  }

  lemma {:induction false} CallIsPrompt(p: PapServer, c: Call)
    requires Prompt(p)
    ensures Prompt(Called(p, c))
  {
    match c
    case Datagram(socket, src, q, now) => DrainIsPrompt(Fed(p, socket, src, q), now);
    case Tick(now) => PollIsPrompt(p, now);
    case Print(data, now) => PrintIsPrompt(Queued(p, data), now);
    case EndPrint(now) => PrintIsPrompt(Ended(p), now);
    case Room(bytes, now) => PullLeavesNone(p.(sinkCredit := bytes), now);
    case Label(_) =>
    case Take =>
  }

  /** After every call of every run nothing is left undone. */
  lemma {:induction false} ServerIsPrompt(ps: seq<PapServer>, calls: seq<Call>, n: nat)
    requires IsRun(ps, calls) && n <= |calls|
    ensures Prompt(ps[n])
  {
    if n > 0 {
      ServerIsPrompt(ps, calls, n - 1);
      CallIsPrompt(ps[n - 1], calls[n - 1]);
    }
  }

  // ---- an outstanding pull is waited for --------------------------------------------------------------------

  /** The pull a session waits for has a transaction that will answer it or fail. */
  predicate PullWaits(p: PapServer) {
    p.session.Some? && p.session.value.outstandingPull.Some? ==>
      p.session.value.outstandingPull.value in p.conn.pending
  }

  /** An event that settles a transaction is among these. */
  predicate Settles(evs: seq<AtpEvent>, tid: u16) {
    exists ev :: ev in evs && !ev.RequestEvent? && ev.handle == tid
  }

  lemma {:induction false} ListenerOutstanding(p: PapServer, evs: seq<AtpEvent>, now: Micros)
    ensures var p' := ListenerEvents(p, evs, now);
            && (p.session.Some? ==> p'.session == p.session)
            && (p.session.None? && p'.session.Some? ==> p'.session.value.outstandingPull.None?)
    decreases |evs|
  {
    if evs != [] { ListenerOutstanding(p, evs[..|evs| - 1], now); }
  }

  /** A session's outstanding pull, if it had one and keeps it. */
  function Pull(p: PapServer): Option<u16> {
    if p.session.Some? then p.session.value.outstandingPull else None
  }

  lemma {:induction false} EventOutstanding(p: PapServer, ev: AtpEvent, now: Micros)
    ensures var p' := HandleConnEvent(p, ev, now);
            && (p'.session.Some? ==> p.session.Some?)
            && (p'.session.Some? ==>
                  Pull(p') == if Pull(p).Some? && Settles([ev], Pull(p).value) then None else Pull(p))
  {
    if Pull(p).Some? && !ev.RequestEvent? && ev.handle == Pull(p).value { assert ev in [ev]; }
  }

  lemma {:induction false} SettlesLast(evs: seq<AtpEvent>, tid: u16)
    requires evs != []
    ensures Settles(evs, tid) <==> Settles(evs[..|evs| - 1], tid) || Settles([evs[|evs| - 1]], tid)
  {
    var front, last := evs[..|evs| - 1], evs[|evs| - 1];
    assert evs == front + [last];
    if Settles([last], tid) { assert last in [last] && last in evs; }
  }

  /** Handling events ends the wait exactly if one of them settles the pull. */
  lemma {:induction false} ConnOutstanding(p: PapServer, evs: seq<AtpEvent>, now: Micros)
    ensures var p' := ConnEvents(p, evs, now);
            && (p'.session.Some? ==> p.session.Some?)
            && (p'.session.Some? ==>
                  Pull(p') == if Pull(p).Some? && Settles(evs, Pull(p).value) then None else Pull(p))
    decreases |evs|
  {
    if evs != [] {
      var front, last := evs[..|evs| - 1], evs[|evs| - 1];
      ConnOutstanding(p, front, now);
      EventOutstanding(ConnEvents(p, front, now), last, now);
      if Pull(p).Some? { SettlesLast(evs, Pull(p).value); }
    }
  }

  /** Answering and pulling: a pull that is made waits, and one that is outstanding stays. */
  lemma {:induction false} FinishOutstanding(p: PapServer, now: Micros)
    ensures var p' := MaybePull(AnswerRead(p, now), now);
            && (p'.session.Some? <==> p.session.Some?)
            && (PullWaits(p) ==> PullWaits(p'))
            && (Pull(p).Some? ==> Pull(p') == Pull(p) && p'.conn.pending == p.conn.pending)
  {
    AnswerLeavesNone(p, now);
  }

  /** After draining a pull waits if it had a transaction, or an event that settles it; and one that had
      neither is still outstanding. */
  lemma {:induction false} DrainOutstanding(p: PapServer, now: Micros)
    ensures var p' := Drain(p, now);
            && (Pull(p).None? || Pull(p).value in p.conn.pending || Settles(p.conn.events, Pull(p).value) ==>
                  PullWaits(p'))
            && (p.session.Some? && Pull(p).Some? && Pull(p).value !in p.conn.pending
                && !Settles(p.conn.events, Pull(p).value) && p'.session.Some? ==>
                  Pull(p') == Pull(p) && Pull(p).value !in p'.conn.pending)
            && (p.session.Some? && p.listener.events == [] && p.conn.events == [] ==> p'.session.Some?)
  {
    var p0 := p.(listener := p.listener.(events := []));
    ListenerRaisesNone(p0, p.listener.events, now);
    ListenerOutstanding(p0, p.listener.events, now);
    var p1 := ListenerEvents(p0, p.listener.events, now);
    var p2 := p1.(conn := p1.conn.(events := []));
    ConnRaisesNone(p2, p1.conn.events, now);
    ConnOutstanding(p2, p1.conn.events, now);
    FinishOutstanding(ConnEvents(p2, p1.conn.events, now), now);
  }

  // ---- the one way a pull is lost -----------------------------------------------------------------------------

  predicate HoleBelow(received: map<u8, seq<byte>>, n: nat) {
    exists i: u8 :: i as nat < n && i !in received
  }

  /** As many packets are in as were asked for and none is marked last, yet one of those asked for is not
      among them. */
  predicate EndsAtHole(s: PendingRequest) {
    && s.eomSeq.None? && s.received != map[] && |s.received| == Ones(s.requestedBitmap)
    && HoleBelow(s.received, |s.received|)
  }

  lemma {:induction false} GatherAll(received: map<u8, seq<byte>>, n: nat)
    requires n <= 0x100 && forall i: u8 :: i as nat < n ==> i in received
    ensures Gather(received, n).Some?
  {
    if n > 0 {
      GatherAll(received, n - 1);
      assert (n - 1) as u8 in received;
    }
  }

  lemma {:induction false} MarkedGathers(received: map<u8, seq<byte>>, last: u8)
    requires forall i: u8 :: i <= last ==> i in received
    ensures Gather(received, (last + 1) % 0x100).Some?
  {
    if last < 0xFF { GatherAll(received, last + 1); }
  }

  lemma {:induction false} UnmarkedGathers(received: map<u8, seq<byte>>, n: nat)
    requires n <= 8
    ensures Gather(received, n % 0x100).None? <==> HoleBelow(received, n)
  {
    if HoleBelow(received, n) {
      var hole: u8 :| hole as nat < n && hole !in received;
      AtpReassembly.GatherHole(received, n, hole);
    } else {
      GatherAll(received, n);
    }
  }

  /** A reply that is complete cannot be put together if and only if it ends at a hole. */
  lemma {:induction false} MissesAtHole(s: PendingRequest)
    requires Complete(s)
    ensures Gather(s.received, Expected(s) % 0x100).None? <==> EndsAtHole(s)
  {
    if s.eomSeq.Some? {
      MarkedGathers(s.received, s.eomSeq.value);
    } else {
      OnesBound(s.requestedBitmap, 8);
      UnmarkedGathers(s.received, |s.received|);
    }
  }

  /** A response closes its transaction without a word if and only if it ends at a hole. */
  lemma {:induction false} ClosesSilently(a: Atp, src: Address, q: AtpPacket)
    requires q.tid in a.pending
    ensures var a' := HandleResponse(a, src, q);
            && (q.tid !in a'.pending && a'.events == a.events <==> EndsAtHole(Filed(a.pending[q.tid], q)))
            && (q.tid !in a'.pending && a'.events != a.events ==> Settles(a'.events, q.tid))
            && (forall t :: t in a.pending && t != q.tid ==> t in a'.pending)
  {
    var s, a' := Filed(a.pending[q.tid], q), HandleResponse(a, src, q);
    if Complete(s) {
      MissesAtHole(s);
      if a'.events != a.events { assert a'.events[|a.events|] in a'.events; }
    }
  }

  function Twos(n: nat): nat {
    if n == 0 then 1 else 2 * Twos(n - 1)
  }

  lemma {:induction false} OnesBound(n: nat, bits: nat)
    requires n < Twos(bits)
    ensures Ones(n) <= bits
  {
    if n > 0 { OnesBound(n / 2, bits - 1); }
  }

  /** The call brings the packet that ends the outstanding pull at a hole. */
  predicate LosesPull(p: PapServer, c: Call) {
    && c.Datagram? && c.socket == p.connSocket != p.listenerSocket && c.q.function_ == Response
    && Pull(p) == Some(c.q.tid) && c.q.tid in p.conn.pending
    && EndsAtHole(Filed(p.conn.pending[c.q.tid], c.q))
  }

  lemma {:induction false} FedOutstanding(p: PapServer, c: Call)
    requires c.Datagram? && Prompt(p) && PullWaits(p)
    ensures var f := Fed(p, c.socket, c.src, c.q);
            && f.session == p.session
            && (Pull(p).Some? ==>
                  (Pull(p).value in f.conn.pending || Settles(f.conn.events, Pull(p).value) <==> !LosesPull(p, c)))
            && (LosesPull(p, c) ==> f.listener.events == [] && f.conn.events == [])
  {
    if c.socket == p.connSocket != p.listenerSocket && c.q.function_ == Response && c.q.tid in p.conn.pending {
      ClosesSilently(p.conn, c.src, c.q);
    }
  }

  lemma {:induction false} FailureSettles(pending: map<u16, PendingRequest>, tids: seq<u16>, now: Micros, t: u16)
    requires (forall k :: k in tids ==> k in pending) && t in tids && GivesUp(pending[t], now)
    ensures Settles(Failures(pending, tids, now), t)
    decreases |tids|
  {
    var front, last := tids[..|tids| - 1], tids[|tids| - 1];
    assert tids == front + [last];
    if t in front {
      FailureSettles(pending, front, now, t);
      var ev :| ev in Failures(pending, front, now) && !ev.RequestEvent? && ev.handle == t;
      assert ev in Failures(pending, tids, now);
    } else {
      assert RequestFailed(t) in Failures(pending, tids, now);
    }
  }

  lemma {:induction false} TimerOutstanding(a: Atp, now: Micros, t: u16)
    requires t in a.pending
    ensures t in AtpSpec.Poll(a, now).pending || Settles(AtpSpec.Poll(a, now).events, t)
  {
    if GivesUp(a.pending[t], now) {
      FailureSettles(a.pending, Ascending(a.pending.Keys), now, t);
      var evs := Failures(a.pending, Ascending(a.pending.Keys), now);
      var ev :| ev in evs && !ev.RequestEvent? && ev.handle == t;
      assert ev in AtpSpec.Poll(a, now).events;
    }
  }

  lemma {:induction false} TickOutstanding(p: PapServer, now: Micros)
    requires PullWaits(p)
    ensures PullWaits(PapSpec.Poll(p, now))
  {
    var p1 := p.(listener := AtpSpec.Poll(p.listener, now), conn := AtpSpec.Poll(p.conn, now));
    if Pull(p).Some? { TimerOutstanding(p.conn, now, Pull(p).value); }
    DrainOutstanding(p1, now);
    FinishOutstanding(KeepAlive(Drain(p1, now), now), now);
  }

  lemma {:induction false} DatagramOutstanding(p: PapServer, c: Call)
    requires c.Datagram? && Prompt(p) && PullWaits(p)
    ensures PullWaits(Called(p, c)) <==> !LosesPull(p, c)
  {
    FedOutstanding(p, c);
    DrainOutstanding(Fed(p, c.socket, c.src, c.q), c.now);
  }

  /** An outstanding pull is one that will be answered or fail, whatever the call, if and only if the call
      does not end it at a hole. */
  lemma {:induction false} CallKeepsPull(p: PapServer, c: Call)
    requires Prompt(p) && PullWaits(p)
    ensures PullWaits(Called(p, c)) <==> !LosesPull(p, c)
  {
    match c
    case Datagram(_, _, _, _) => DatagramOutstanding(p, c);
    case Tick(now) => TickOutstanding(p, now);
    case Print(data, now) => AnswerLeavesNone(Queued(p, data), now);
    case EndPrint(now) => AnswerLeavesNone(Ended(p), now);
    case Room(bytes, now) =>
    case Label(_) =>
    case Take =>
  }

  /** Over whole runs every session's pull is waited for, as long as none was lost; and the first that is
      lost is not waited for. */
  lemma {:induction false} PullsAreWaitedFor(ps: seq<PapServer>, calls: seq<Call>, n: nat)
    requires IsRun(ps, calls) && n <= |calls|
    requires forall k :: 0 <= k < n - 1 ==> !LosesPull(ps[k], calls[k])
    ensures PullWaits(ps[n]) <==> n == 0 || !LosesPull(ps[n - 1], calls[n - 1])
  {
    if n > 0 {
      PullsAreWaitedFor(ps, calls, n - 1);
      ServerIsPrompt(ps, calls, n - 1);
      CallKeepsPull(ps[n - 1], calls[n - 1]);
    }
  }

  /** The session waits for a pull that nothing will settle. */
  predicate Stalled(p: PapServer) {
    Pull(p).Some? && Pull(p).value !in p.conn.pending
  }

  lemma {:induction false} FailuresAreTheirs(pending: map<u16, PendingRequest>, tids: seq<u16>, now: Micros, t: u16)
    requires (forall k :: k in tids ==> k in pending) && t !in pending
    ensures !Settles(Failures(pending, tids, now), t)
    decreases |tids|
  {
    if tids != [] { FailuresAreTheirs(pending, tids[..|tids| - 1], now, t); }
  }

  /** The session is gone, or still stalled on the same pull. */
  predicate StillStalled(p: PapServer, p': PapServer) {
    p'.session.Some? ==> Stalled(p') && Pull(p') == Pull(p)
  }

  lemma {:induction false} DatagramStalls(p: PapServer, socket: u8, src: Address, q: AtpPacket, now: Micros)
    requires Prompt(p) && Stalled(p)
    ensures StillStalled(p, PapSpec.HandleDatagram(p, socket, src, q, now))
  {
    FedStalls(p, socket, src, q);
    DrainOutstanding(Fed(p, socket, src, q), now);
  }

  lemma {:induction false} FedStalls(p: PapServer, socket: u8, src: Address, q: AtpPacket)
    requires Prompt(p) && Stalled(p)
    ensures var f := Fed(p, socket, src, q);
            f.session == p.session && Stalled(f) && !Settles(f.conn.events, Pull(p).value)
  {
  }

  lemma {:induction false} TickStalls(p: PapServer, now: Micros)
    requires Prompt(p) && Stalled(p)
    ensures StillStalled(p, PapSpec.Poll(p, now))
  {
    var p1 := p.(listener := AtpSpec.Poll(p.listener, now), conn := AtpSpec.Poll(p.conn, now));
    FailuresAreTheirs(p.conn.pending, Ascending(p.conn.pending.Keys), now, Pull(p).value);
    DrainOutstanding(p1, now);
    AliveStalls(Drain(p1, now), now);
    FinishOutstanding(KeepAlive(Drain(p1, now), now), now);
  }

  lemma {:induction false} AliveStalls(p: PapServer, now: Micros)
    ensures var p' := KeepAlive(p, now);
            p'.session.Some? ==> p.session.Some? && Pull(p') == Pull(p) && p'.conn.pending == p.conn.pending
  {
  }

  /** A pull that was lost is never made again: whatever is called, the session stays stalled until it is
      closed. */
  lemma {:induction false} LostPullStalls(p: PapServer, c: Call)
    requires Prompt(p) && Stalled(p)
    ensures StillStalled(p, Called(p, c))
  {
    match c
    case Datagram(socket, src, q, now) => DatagramStalls(p, socket, src, q, now);
    case Tick(now) => TickStalls(p, now);
    case Print(data, now) => AnswerLeavesNone(Queued(p, data), now);
    case EndPrint(now) => AnswerLeavesNone(Ended(p), now);
    case Room(bytes, now) =>
    case Label(_) =>
    case Take =>
  }

  // ---- timers of the transactions ------------------------------------------------------------------------------

  /** Every retry and every expiry of the endpoint lies ahead. */
  ghost predicate Ahead(a: Atp, now: Micros) {
    (forall t :: t in a.pending ==> a.pending[t].retryAt > now) && (forall c :: c in a.replyCache ==> c.expiresAt > now)
  }

  lemma {:induction false} RespondAhead(a: Atp, to: Address, tid: u16, u: UserBytes, data: seq<byte>, now: Micros)
    requires Ahead(a, now)
    ensures Ahead(Respond(a, to, tid, u, data, PAP_MAX_DATA_PER_PACKET, now), now)
  {
  }

  lemma {:induction false} ListenerAhead(p: PapServer, evs: seq<AtpEvent>, now: Micros)
    requires Ahead(p.listener, now)
    ensures Ahead(ListenerEvents(p, evs, now).listener, now)
    decreases |evs|
  {
    if evs != [] {
      ListenerAhead(p, evs[..|evs| - 1], now);
      ListenerEventAhead(ListenerEvents(p, evs[..|evs| - 1], now), evs[|evs| - 1], now);
    }
  }

  lemma {:induction false} ListenerEventAhead(p: PapServer, ev: AtpEvent, now: Micros)
    requires Ahead(p.listener, now)
    ensures Ahead(HandleListenerEvent(p, ev, now).listener, now)
  {
  }

  lemma {:induction false} ConnEventAhead(p: PapServer, ev: AtpEvent, now: Micros)
    requires Ahead(p.conn, now)
    ensures Ahead(HandleConnEvent(p, ev, now).conn, now)
  {
  }

  lemma {:induction false} ConnAhead(p: PapServer, evs: seq<AtpEvent>, now: Micros)
    requires Ahead(p.conn, now)
    ensures Ahead(ConnEvents(p, evs, now).conn, now)
    decreases |evs|
  {
    if evs != [] {
      ConnAhead(p, evs[..|evs| - 1], now);
      ConnEventAhead(ConnEvents(p, evs[..|evs| - 1], now), evs[|evs| - 1], now);
    }
  }

  lemma {:induction false} FinishAhead(p: PapServer, now: Micros)
    requires Ahead(p.listener, now) && Ahead(p.conn, now)
    ensures var p' := MaybePull(AnswerRead(p, now), now);
            Ahead(p'.listener, now) && Ahead(p'.conn, now)
  {
  }

  lemma {:induction false} DrainAhead(p: PapServer, now: Micros)
    requires Ahead(p.listener, now) && Ahead(p.conn, now)
    ensures Ahead(Drain(p, now).listener, now) && Ahead(Drain(p, now).conn, now)
  {
    var p0 := p.(listener := p.listener.(events := []));
    ListenerAhead(p0, p.listener.events, now);
    ListenerRaisesNone(p0, p.listener.events, now);
    var p1 := ListenerEvents(p0, p.listener.events, now);
    var p2 := p1.(conn := p1.conn.(events := []));
    ConnAhead(p2, p1.conn.events, now);
    ConnRaisesNone(p2, p1.conn.events, now);
    FinishAhead(ConnEvents(p2, p1.conn.events, now), now);
  }

  lemma {:induction false} AliveAhead(p: PapServer, now: Micros)
    requires Ahead(p.listener, now) && Ahead(p.conn, now)
    ensures Ahead(KeepAlive(p, now).listener, now) && Ahead(KeepAlive(p, now).conn, now)
  {
  }

  lemma {:induction false} TimersAhead(a: Atp, now: Micros)
    ensures Ahead(AtpSpec.Poll(a, now), now)
  {
    forall c | c in Unexpired(a.replyCache, now) ensures c.expiresAt > now {
      AtpOnce.UnexpiredStay(a.replyCache, now, c);
    }
  }

  /** A tick at a time drives the transactions of both endpoints, and of what it lets them start: none of
      their timers is left at or before that time. */
  lemma {:induction false} TickIsAhead(p: PapServer, now: Micros)
    ensures Ahead(PapSpec.Poll(p, now).listener, now) && Ahead(PapSpec.Poll(p, now).conn, now)
  {
    TimersAhead(p.listener, now);
    TimersAhead(p.conn, now);
    var p1 := p.(listener := AtpSpec.Poll(p.listener, now), conn := AtpSpec.Poll(p.conn, now));
    DrainAhead(p1, now);
    AliveAhead(Drain(p1, now), now);
    FinishAhead(KeepAlive(Drain(p1, now), now), now);
  }
}
