/** What holds of a PAP server over whole runs: its event grammar, one pull at a time, no data from
    an earlier session, and a reverse stream that loses, repeats and reorders nothing. */
module PapRuns {
  import opened Words
  import opened AtpSpec
  import opened PapSpec
  import AtpReassembly

  // ---- steps ------------------------------------------------------------------------------------

  /** The pieces the public operations are made of, in any order. */
  datatype Micro =
    | OnListener(ev: AtpEvent, now: Micros)
    | OnConn(ev: AtpEvent, now: Micros)
    | Endpoints(listener: Atp, conn: Atp)         // the ATP layer takes a packet or a timer tick
    | Pull(now: Micros)
    | Answer(now: Micros)
    | Alive(now: Micros)
    | Output(data: seq<byte>)
    | End
    | Credit(bytes: nat)
    | Label(status: seq<byte>)

  ghost function Apply(p: PapServer, m: Micro): PapServer {
    match m
    case OnListener(ev, now) => HandleListenerEvent(p, ev, now)
    case OnConn(ev, now) => HandleConnEvent(p, ev, now)
    case Endpoints(l, c) => p.(listener := l, conn := c)
    case Pull(now) => MaybePull(p, now)
    case Answer(now) => AnswerRead(p, now)
    case Alive(now) => KeepAlive(p, now)
    case Output(data) => Queued(p, data)
    case End => Ended(p)
    case Credit(n) => p.(sinkCredit := n)
    case Label(status) => SetStatus(p, status)
  }

  /** Whether a first answer left nothing waiting, whether an end of output was still to be
      announced, and whether the answer announced it. */
  datatype Close = Close(emptied: bool, owed: bool, eof: bool)

  /** A first answer to a sequenced read. */
  datatype Given = Given(seqNum: u16, userBytes: UserBytes, data: seq<byte>)

  /** What a run has said and done. The last fields concern the current session only. */
  datatype History = History(
    trace: seq<PapEvent>,
    epoch: nat,                      // sessions opened
    issuedIn: map<u16, nat>,         // the session each pull was issued in
    printed: seq<(u16, nat)>,        // the pull and the session of every ToPrinter event
    pulls: nat,                      // pulls issued
    settled: nat,                    // pulls replied to or failed
    output: seq<byte>,               // bytes queued for the client
    delivered: seq<byte>,            // bytes of first answers
    answers: seq<Given>,             // sequenced first answers
    owed: bool,                      // the output was ended and no eof answer has said so since
    closes: seq<Close>)              // first answers, sequenced or not

  predicate Prints(p: PapServer, ev: AtpEvent, now: Micros) {
    && ev.ResponseEvent? && p.session.Some? && p.session.value.outstandingPull == Some(ev.handle)
    && exists i :: 0 <= i < |TakePulled(p.session.value, ev.userBytes, ev.data, now).1|
         && TakePulled(p.session.value, ev.userBytes, ev.data, now).1[i].ToPrinter?
  }

  predicate Settles(p: PapServer, ev: AtpEvent) {
    && p.session.Some? && !ev.RequestEvent? && p.session.value.outstandingPull == Some(ev.handle)
  }

  predicate Answers(p: PapServer, now: Micros) {
    p.session.Some? && ReadReady(p.session.value, now)
  }

  ghost function Recorded(h: History, p: PapServer, m: Micro): History {
    var p' := Apply(p, m);
    var t := h.(trace := h.trace + p'.events[|p.events|..]);
    match m
    case OnListener(_, _) =>
      if p.session.None? && p'.session.Some?
      then t.(epoch := h.epoch + 1, pulls := 0, settled := 0, output := [], delivered := [], answers := [],
             owed := false, closes := [])
      else t
    case OnConn(ev, now) =>
      t.(settled := if Settles(p, ev) then h.settled + 1 else h.settled,
         printed := if Prints(p, ev, now) then h.printed + [(ev.handle, h.epoch)] else h.printed)
    case Pull(_) =>
      if WantsPull(p) then t.(pulls := h.pulls + 1, issuedIn := h.issuedIn[PullTid(p) := h.epoch]) else t
    case Answer(now) => if Answers(p, now) then RecordAnswer(t, p.session.value) else t
    case Output(data) => if p.session.Some? then t.(output := h.output + data) else t
    case End => if p.session.Some? then t.(owed := true) else t
    case _ => t
  }

  function RecordAnswer(h: History, s: Session): History
    requires s.pendingRead.Some?
  {
    var chunk := ReadChunk(s);
    var given := h.delivered + chunk;
    var eof := ReadReply(s).eof;
    h.(delivered := given,
       answers := if s.pendingRead.value.seqNum == 0 then h.answers
                  else h.answers + [Given(s.pendingRead.value.seqNum, UserBytesOf(ReadReply(s)), chunk)],
       owed := h.owed && !eof,
       closes := h.closes + [Close(|given| == |h.output|, h.owed, eof)])
  }

  datatype State = State(p: PapServer, h: History)

  ghost function Step(s: State, m: Micro): State {
    State(Apply(s.p, m), Recorded(s.h, s.p, m))
  }

  ghost predicate Next(s: State, m: Micro, s': State) {
    s' == Step(s, m)
  }

  const NoHistory: History := History([], 0, map[], [], 0, 0, [], [], [], false, [])

  ghost predicate IsRun(states: seq<State>, micros: seq<Micro>) {
    && |states| == |micros| + 1
    && states[0].p.session.None? && states[0].p.events == [] && states[0].h == NoHistory
    && forall i :: 0 <= i < |micros| ==> Next(states[i], micros[i], states[i + 1])
  }

  // ---- the event grammar ----------------------------------------------------------------------------

  /** Where a trace stands in (ConnectionOpened (ToPrinter+ JobEof)* ToPrinter* ConnectionClosed)*:
      between sessions, or in a session with or without bytes since the last end of job. */
  datatype Mode = Closed | Open(bytes: bool)

  function Advance(m: Mode, ev: PapEvent): Option<Mode> {
    match ev
    case ConnectionOpened(_) => if m.Closed? then Some(Open(false)) else None
    case ToPrinter(bytes) => if m.Open? && bytes != [] then Some(Open(true)) else None
    case JobEof => if m == Open(true) then Some(Open(false)) else None
    case ConnectionClosed => if m.Open? then Some(Closed) else None
  }

  /** The mode after a trace; none if the trace is not in the grammar. */
  function Walk(trace: seq<PapEvent>): Option<Mode> {
    if trace == [] then Some(Closed) else
    match Walk(trace[..|trace| - 1])
    case None => None
    case Some(m) => Advance(m, trace[|trace| - 1])
  }

  lemma {:induction false} WalkOne(trace: seq<PapEvent>, ev: PapEvent)
    requires Walk(trace).Some?
    ensures Walk(trace + [ev]) == Advance(Walk(trace).value, ev)
  {
    assert (trace + [ev])[..|trace|] == trace;
  }

  function ModeOf(session: Option<Session>): Mode {
    if session.None? then Closed else Open(session.value.jobBytes > 0)
  }

  ghost predicate Grammatical(s: State) {
    Walk(s.h.trace) == Some(ModeOf(s.p.session))
  }

  lemma {:induction false} BytesWalk(trace: seq<PapEvent>, pending: bool, bytes: seq<byte>)
    requires Walk(trace) == Some(Open(pending))
    ensures Walk(trace + (if bytes != [] then [ToPrinter(bytes)] else [])) == Some(Open(pending || bytes != []))
  {
    if bytes != [] { WalkOne(trace, ToPrinter(bytes)); } else { assert trace + [] == trace; }
  }

  lemma {:induction false} EofWalks(trace: seq<PapEvent>, pending: bool, eof: bool)
    requires Walk(trace) == Some(Open(pending))
    ensures Walk(trace + (if eof && pending then [JobEof] else [])) == Some(Open(pending && !eof))
  {
    if eof && pending { WalkOne(trace, JobEof); } else { assert trace + [] == trace; }
  }

  /** A reply with data says its bytes, if any, and the end of the job they complete. */
  lemma {:induction false} PulledSays(s: Session, u: UserBytes, data: seq<byte>, now: Micros)
    requires Parse(u, data).Some? && Parse(u, data).value.function_ == Data
    ensures var (t, said) := TakePulled(s, u, data, now);
            var pending, eof := s.jobBytes > 0 || data != [], Parse(u, data).value.eof;
            && said == (if data != [] then [ToPrinter(data)] else []) + (if eof && pending then [JobEof] else [])
            && (t.jobBytes > 0 <==> pending && !eof)
  {
  }

  lemma {:induction false} TakePulledWalks(trace: seq<PapEvent>, s: Session, u: UserBytes, data: seq<byte>, now: Micros)
    requires Walk(trace) == Some(Open(s.jobBytes > 0))
    ensures var (t, said) := TakePulled(s, u, data, now);
            Walk(trace + said) == Some(Open(t.jobBytes > 0))
  {
    var (t, said) := TakePulled(s, u, data, now);
    var pap := Parse(u, data);
    if pap.None? || pap.value.function_ != Data {
      assert trace + said == trace;
    } else {
      PulledSays(s, u, data, now);
      var pending := s.jobBytes > 0 || data != [];
      var first := if data != [] then [ToPrinter(data)] else [];
      var last := if pap.value.eof && pending then [JobEof] else [];
      BytesWalk(trace, s.jobBytes > 0, data);
      EofWalks(trace + first, pending, pap.value.eof);
      assert trace + (first + last) == trace + first + last;
    }
  }

  lemma {:induction false} SaysNothing(h: History, p: PapServer, m: Micro)
    requires Apply(p, m).events == p.events
    ensures Recorded(h, p, m).trace == h.trace
  {
  }

  lemma {:induction false} SaysOne(h: History, p: PapServer, m: Micro, ev: PapEvent)
    requires Apply(p, m).events == p.events + [ev]
    ensures Recorded(h, p, m).trace == h.trace + [ev]
  {
  }

  lemma {:induction false} GrammarOnListener(s: State, ev: AtpEvent, now: Micros)
    requires Grammatical(s)
    ensures Walk(Recorded(s.h, s.p, OnListener(ev, now)).trace) == Some(ModeOf(HandleListenerEvent(s.p, ev, now).session))
  {
    var m := OnListener(ev, now);
    var p' := HandleListenerEvent(s.p, ev, now);
    if p'.session != s.p.session {
      var news := p'.events[|s.p.events|];
      SaysOne(s.h, s.p, m, news);
      WalkOne(s.h.trace, news);
    } else {
      SaysNothing(s.h, s.p, m);
    }
  }

  lemma {:induction false} GrammarOnRequest(s: State, ev: AtpEvent, now: Micros)
    requires Grammatical(s) && ev.RequestEvent?
    ensures var p' := HandleConnRequest(s.p, ev, now);
            && |s.p.events| <= |p'.events|
            && Walk(s.h.trace + p'.events[|s.p.events|..]) == Some(ModeOf(p'.session))
  {
    var p' := HandleConnRequest(s.p, ev, now);
    if p'.events != s.p.events {
      WalkOne(s.h.trace, ConnectionClosed);
      assert p'.events[|s.p.events|..] == [ConnectionClosed];
    } else {
      assert p'.events[|s.p.events|..] == [];
      assert s.h.trace + [] == s.h.trace;
    }
  }

  lemma {:induction false} GrammarOnResponse(s: State, handle: u16, u: UserBytes, data: seq<byte>, now: Micros)
    requires Grammatical(s)
    ensures var p' := HandleConnEvent(s.p, ResponseEvent(handle, u, data), now);
            && |s.p.events| <= |p'.events|
            && Walk(s.h.trace + p'.events[|s.p.events|..]) == Some(ModeOf(p'.session))
  {
    var p' := HandleConnEvent(s.p, ResponseEvent(handle, u, data), now);
    if s.p.session.Some? && s.p.session.value.outstandingPull == Some(handle) {
      assert p'.events[|s.p.events|..] == TakePulled(s.p.session.value, u, data, now).1;
      TakePulledWalks(s.h.trace, s.p.session.value, u, data, now);
    } else {
      assert p'.events[|s.p.events|..] == [];
      assert s.h.trace + [] == s.h.trace;
    }
  }

  lemma {:induction false} GrammarOnConn(s: State, ev: AtpEvent, now: Micros)
    requires Grammatical(s)
    ensures Walk(Recorded(s.h, s.p, OnConn(ev, now)).trace) == Some(ModeOf(HandleConnEvent(s.p, ev, now).session))
  {
    match ev
    case RequestEvent(_, _, _, _, _, _) => GrammarOnRequest(s, ev, now);
    case ResponseEvent(handle, u, data) => GrammarOnResponse(s, handle, u, data, now);
    case RequestFailed(_) => SaysNothing(s.h, s.p, OnConn(ev, now));
  }

  lemma {:induction false} GrammarKept(s: State, m: Micro, s': State)
    requires Grammatical(s) && Next(s, m, s')
    ensures Grammatical(s')
  {
    match m
    case OnListener(ev, now) => GrammarOnListener(s, ev, now);
    case OnConn(ev, now) => GrammarOnConn(s, ev, now);
    case Alive(now) =>
      if s'.p.events != s.p.events {
        SaysOne(s.h, s.p, m, ConnectionClosed);
        WalkOne(s.h.trace, ConnectionClosed);
      } else {
        SaysNothing(s.h, s.p, m);
      }
    case _ => SaysNothing(s.h, s.p, m);
  }

  // ---- pulls ------------------------------------------------------------------------------------------

  function Outstanding(session: Option<Session>): nat {
    if session.Some? && session.value.outstandingPull.Some? then 1 else 0
  }

  /** Pulls of the session are settled but for at most one; the outstanding one is this session's. */
  ghost predicate PullsOk(s: State) {
    && (s.p.session.Some? ==> s.h.pulls == s.h.settled + Outstanding(s.p.session))
    && (Outstanding(s.p.session) == 1 ==>
          var t := s.p.session.value.outstandingPull.value;
          t in s.h.issuedIn && s.h.issuedIn[t] == s.h.epoch)
  }

  lemma {:induction false} PullsKept(s: State, m: Micro, s': State)
    requires PullsOk(s) && Next(s, m, s')
    ensures PullsOk(s')
  {
  }

  /** The step is no pull under a transaction id an earlier pull of the run was made under. */
  ghost predicate FreshPull(s: State, m: Micro) {
    m.Pull? && WantsPull(s.p) ==> PullTid(s.p) !in s.h.issuedIn
  }

  ghost predicate PrintedOk(h: History) {
    forall i :: 0 <= i < |h.printed| ==>
      h.printed[i].0 in h.issuedIn && h.issuedIn[h.printed[i].0] == h.printed[i].1
  }

  lemma {:induction false} PrintedKept(s: State, m: Micro, s': State)
    requires PullsOk(s) && PrintedOk(s.h) && Next(s, m, s') && FreshPull(s, m)
    ensures PrintedOk(s'.h)
  {
  }

  // ---- the reverse stream -----------------------------------------------------------------------------

  /** The sequence number of the i-th sequenced answer of a session. */
  function SeqAt(i: nat): u16 {
    i % 0xFFFF + 1
  }

  lemma {:induction false} SeqSteps(i: nat)
    ensures NextPapSeq(SeqAt(i)) == SeqAt(i + 1)
  {
  }

  /** Sequence numbers come round only after 65535 answers. */
  lemma {:induction false} SeqDistinct(i: nat, j: nat)
    requires i < j < i + 0xFFFF
    ensures SeqAt(i) != SeqAt(j)
  {
  }

  function LastEight(answers: seq<Given>): seq<Given> {
    if |answers| <= READ_REPLY_CACHE_LEN then answers else answers[|answers| - READ_REPLY_CACHE_LEN..]
  }

  predicate SameReply(c: CachedRead, g: Given) {
    c.seqNum == g.seqNum && c.userBytes == g.userBytes && c.data == g.data
  }

  predicate CacheIs(cache: seq<CachedRead>, last: seq<Given>) {
    && |cache| == |last|
    && forall i :: 0 <= i < |cache| ==> SameReply(cache[i], last[i])
  }

  predicate NumberedInTurn(answers: seq<Given>) {
    forall i :: 0 <= i < |answers| ==> answers[i].seqNum == SeqAt(i)
  }

  /** Everything queued was delivered or still waits; the kept replies are the last eight answers;
      a waiting read is unsequenced or next in turn; and an answer announced the end of the output
      exactly when it left nothing waiting and the end was still to be announced. */
  predicate StreamOk(s: Session, h: History) {
    && h.delivered + s.stdout == h.output
    && CacheIs(s.readCache, LastEight(h.answers))
    && NumberedInTurn(h.answers) && s.readSeq == SeqAt(|h.answers|)
    && (s.pendingRead.Some? ==> s.pendingRead.value.seqNum == 0 || s.pendingRead.value.seqNum == s.readSeq)
    && h.owed == s.eofQueued
    && (forall i :: 0 <= i < |h.closes| ==> (h.closes[i].eof <==> h.closes[i].emptied && h.closes[i].owed))
  }

  lemma {:induction false} CacheShifts(cache: seq<CachedRead>, answers: seq<Given>, c: CachedRead, g: Given)
    requires CacheIs(cache, LastEight(answers)) && SameReply(c, g)
    ensures var room := if |cache| == READ_REPLY_CACHE_LEN then cache[1..] else cache;
            CacheIs(room + [c], LastEight(answers + [g]))
  {
  }

  lemma {:induction false} MovedOver(delivered: seq<byte>, waiting: seq<byte>, k: nat)
    requires k <= |waiting|
    ensures delivered + waiting[..k] + waiting[k..] == delivered + waiting
  {
    assert waiting == waiting[..k] + waiting[k..];
  }

  lemma {:induction false} NumberedOneMore(answers: seq<Given>, g: Given)
    requires NumberedInTurn(answers) && g.seqNum == SeqAt(|answers|)
    ensures NumberedInTurn(answers + [g]) && NextPapSeq(g.seqNum) == SeqAt(|answers + [g]|)
  {
    SeqSteps(|answers|);
  }

  lemma {:induction false} AnswerKeepsStream(s: Session, h: History)
    requires StreamOk(s, h) && s.pendingRead.Some?
    ensures StreamOk(Answered(s), RecordAnswer(h, s))
  {
    var chunk := ReadChunk(s);
    MovedOver(h.delivered, s.stdout, |chunk|);
    if s.pendingRead.value.seqNum != 0 {
      var g := Given(s.pendingRead.value.seqNum, UserBytesOf(ReadReply(s)), chunk);
      CacheShifts(s.readCache, h.answers, CachedRead(g.seqNum, g.userBytes, g.data), g);
      NumberedOneMore(h.answers, g);
    }
  }

  /** A session that is not answered keeps its reverse stream as it is. */
  predicate SameStream(s: Session, t: Session) {
    && t.stdout == s.stdout && t.readCache == s.readCache && t.readSeq == s.readSeq
    && t.eofQueued == s.eofQueued
    && (t.pendingRead == s.pendingRead
        || (t.pendingRead.Some? && (t.pendingRead.value.seqNum == 0 || t.pendingRead.value.seqNum == s.readSeq)))
  }

  lemma {:induction false} ConnKeepsStream(p: PapServer, ev: AtpEvent, now: Micros)
    requires p.session.Some? && HandleConnEvent(p, ev, now).session.Some?
    ensures SameStream(p.session.value, HandleConnEvent(p, ev, now).session.value)
  {
  }

  /** The histories the reverse stream is judged by. */
  predicate SameHistory(h: History, h': History) {
    && h'.delivered == h.delivered && h'.output == h.output && h'.answers == h.answers
    && h'.owed == h.owed && h'.closes == h.closes
  }

  lemma {:induction false} StreamStays(s: Session, h: History, t: Session, h': History)
    requires StreamOk(s, h) && SameStream(s, t) && SameHistory(h, h')
    ensures StreamOk(t, h')
  {
  }

  lemma {:induction false} OthersKeepStream(s: State, m: Micro, s': State)
    requires Next(s, m, s') && s.p.session.Some? && s'.p.session.Some?
    requires !m.OnConn? && !m.Answer? && !m.Output? && !m.End?
    ensures SameStream(s.p.session.value, s'.p.session.value) && SameHistory(s.h, s'.h)
  {
  }

  lemma {:induction false} NewStream(s: State, m: Micro, s': State)
    requires Next(s, m, s') && s.p.session.None? && s'.p.session.Some?
    ensures StreamOk(s'.p.session.value, s'.h)
  {
  }

  lemma {:induction false} OutputKeepsStream(s: Session, h: History, data: seq<byte>)
    requires StreamOk(s, h)
    ensures StreamOk(s.(stdout := s.stdout + data), h.(output := h.output + data))
  {
    assert h.delivered + (s.stdout + data) == h.delivered + s.stdout + data;
  }

  lemma {:induction false} EndKeepsStream(s: Session, h: History)
    requires StreamOk(s, h)
    ensures StreamOk(s.(eofQueued := true), h.(owed := true))
  {
  }

  lemma {:induction false} StreamKept(s: State, m: Micro, s': State)
    requires s.p.session.Some? ==> StreamOk(s.p.session.value, s.h)
    requires Next(s, m, s') && s'.p.session.Some?
    ensures StreamOk(s'.p.session.value, s'.h)
  {
    if s.p.session.None? {
      NewStream(s, m, s');
    } else if m.OnConn? {
      ConnKeepsStream(s.p, m.ev, m.now);
      StreamStays(s.p.session.value, s.h, s'.p.session.value, s'.h);
    } else if m.Answer? {
      if Answers(s.p, m.now) {
        AnswerKeepsStream(s.p.session.value, s.h);
        StreamStays(s'.p.session.value, RecordAnswer(s.h, s.p.session.value), s'.p.session.value, s'.h);
      } else {
        StreamStays(s.p.session.value, s.h, s'.p.session.value, s'.h);
      }
    } else if m.Output? {
      OutputKeepsStream(s.p.session.value, s.h, m.data);
      StreamStays(s'.p.session.value, s.h.(output := s.h.output + m.data), s'.p.session.value, s'.h);
    } else if m.End? {
      EndKeepsStream(s.p.session.value, s.h);
      StreamStays(s'.p.session.value, s.h.(owed := true), s'.p.session.value, s'.h);
    } else {
      OthersKeepStream(s, m, s');
      StreamStays(s.p.session.value, s.h, s'.p.session.value, s'.h);
    }
  }

  // ---- the theorems -----------------------------------------------------------------------------------

  ghost predicate Inv(s: State) {
    && Grammatical(s) && PullsOk(s)
    && (s.p.session.Some? ==> StreamOk(s.p.session.value, s.h))
  }

  lemma {:induction false} RunKeepsInv(states: seq<State>, micros: seq<Micro>, n: nat)
    requires IsRun(states, micros) && n <= |micros|
    ensures Inv(states[n])
  {
    if n > 0 {
      RunKeepsInv(states, micros, n - 1);
      var s, m, s' := states[n - 1], micros[n - 1], states[n];
      assert Next(s, m, s');
      GrammarKept(s, m, s');
      PullsKept(s, m, s');
      if s'.p.session.Some? { StreamKept(s, m, s'); }
    }
  }

  /** Every trace is a prefix of a word of the grammar, and stands where the session does. */
  lemma {:induction false} TraceIsGrammatical(states: seq<State>, micros: seq<Micro>, n: nat)
    requires IsRun(states, micros) && n <= |micros|
    ensures Walk(states[n].h.trace) == Some(ModeOf(states[n].p.session))
  {
    RunKeepsInv(states, micros, n);
  }

  /** At most one pull of a session is ever outstanding. */
  lemma {:induction false} OnePullAtATime(states: seq<State>, micros: seq<Micro>, n: nat)
    requires IsRun(states, micros) && n <= |micros| && states[n].p.session.Some?
    ensures states[n].h.settled <= states[n].h.pulls <= states[n].h.settled + 1
  {
    RunKeepsInv(states, micros, n);
  }

  lemma {:induction false} RunKeepsPrinted(states: seq<State>, micros: seq<Micro>, n: nat)
    requires IsRun(states, micros) && n <= |micros|
    requires forall i :: 0 <= i < n ==> FreshPull(states[i], micros[i])
    ensures PrintedOk(states[n].h)
  {
    if n > 0 {
      RunKeepsPrinted(states, micros, n - 1);
      RunKeepsInv(states, micros, n - 1);
      PrintedKept(states[n - 1], micros[n - 1], states[n]);
    }
  }

  /** Sessions are isolated: while no transaction id serves two pulls, everything sent to the
      printer came in reply to a pull issued in the very session it was printed in. */
  lemma {:induction false} SessionsAreIsolated(states: seq<State>, micros: seq<Micro>, n: nat, i: nat)
    requires IsRun(states, micros) && n <= |micros| && i < |states[n].h.printed|
    requires forall j :: 0 <= j < n ==> FreshPull(states[j], micros[j])
    ensures var (pull, session) := states[n].h.printed[i];
            pull in states[n].h.issuedIn && states[n].h.issuedIn[pull] == session
  {
    RunKeepsPrinted(states, micros, n);
  }

  /** The reverse stream: first answers are exactly the output queued, in order, the rest still
      waiting. A first answer carries eof if and only if it leaves nothing waiting and the output
      was ended with no eof answer since. */
  lemma {:induction false} OutputArrivesInOrder(states: seq<State>, micros: seq<Micro>, n: nat)
    requires IsRun(states, micros) && n <= |micros| && states[n].p.session.Some?
    ensures states[n].h.delivered + states[n].p.session.value.stdout == states[n].h.output
    ensures forall i :: 0 <= i < |states[n].h.closes| ==>
              var close := states[n].h.closes[i];
              close.eof <==> close.emptied && close.owed
  {
    RunKeepsInv(states, micros, n);
  }

  lemma {:induction false} FindInTurn(cache: seq<CachedRead>, base: nat, k: nat)
    requires |cache| <= READ_REPLY_CACHE_LEN && k < |cache|
    requires forall i :: 0 <= i < |cache| ==> cache[i].seqNum == SeqAt(base + i)
    ensures FindRead(cache, SeqAt(base + k)) == Some(cache[k])
    decreases |cache|
  {
    if k > 0 {
      SeqDistinct(base, base + k);
      var rest := cache[1..];
      assert forall i :: 0 <= i < |rest| ==> rest[i].seqNum == SeqAt(base + 1 + i);
      FindInTurn(rest, base + 1, k - 1);
    }
  }

  lemma {:induction false} FindNone(cache: seq<CachedRead>, q: u16)
    requires forall i :: 0 <= i < |cache| ==> cache[i].seqNum != q
    ensures FindRead(cache, q) == None
  {
    if cache != [] { FindNone(cache[1..], q); }
  }

  /** The first of the answers still kept. */
  function Kept(answers: seq<Given>): nat {
    if |answers| <= READ_REPLY_CACHE_LEN then 0 else |answers| - READ_REPLY_CACHE_LEN
  }

  lemma {:induction false} CacheAt(cache: seq<CachedRead>, answers: seq<Given>, i: nat)
    requires CacheIs(cache, LastEight(answers)) && NumberedInTurn(answers) && i < |cache|
    ensures |cache| == |answers| - Kept(answers) && SameReply(cache[i], answers[Kept(answers) + i])
    ensures cache[i].seqNum == SeqAt(Kept(answers) + i)
  {
    assert SameReply(cache[i], LastEight(answers)[i]);
    assert LastEight(answers)[i] == answers[Kept(answers) + i];
  }

  lemma {:induction false} CacheHolds(cache: seq<CachedRead>, answers: seq<Given>, j: nat)
    requires CacheIs(cache, LastEight(answers)) && NumberedInTurn(answers)
    requires j < |answers| <= j + READ_REPLY_CACHE_LEN
    ensures FindRead(cache, SeqAt(j)).Some? && SameReply(FindRead(cache, SeqAt(j)).value, answers[j])
  {
    var base := Kept(answers);
    CacheNumbered(cache, answers);
    HeldAt(cache, answers, base, j - base);
  }

  /** The kept replies carry the numbers from the first one kept on. */
  lemma {:induction false} CacheNumbered(cache: seq<CachedRead>, answers: seq<Given>)
    requires CacheIs(cache, LastEight(answers)) && NumberedInTurn(answers)
    ensures |cache| == |answers| - Kept(answers) <= READ_REPLY_CACHE_LEN
    ensures forall i :: 0 <= i < |cache| ==> cache[i].seqNum == SeqAt(Kept(answers) + i)
  {
    forall i | 0 <= i < |cache| ensures cache[i].seqNum == SeqAt(Kept(answers) + i) { CacheAt(cache, answers, i); }
  }

  lemma {:induction false} HeldAt(cache: seq<CachedRead>, answers: seq<Given>, base: nat, k: nat)
    requires CacheIs(cache, LastEight(answers)) && NumberedInTurn(answers) && base == Kept(answers)
    requires k < |cache| <= READ_REPLY_CACHE_LEN && base + k < |answers|
    requires forall i :: 0 <= i < |cache| ==> cache[i].seqNum == SeqAt(base + i)
    ensures FindRead(cache, SeqAt(base + k)).Some?
    ensures SameReply(FindRead(cache, SeqAt(base + k)).value, answers[base + k])
  {
    FindInTurn(cache, base, k);
    CacheAt(cache, answers, k);
  }

  lemma {:induction false} CacheMisses(cache: seq<CachedRead>, answers: seq<Given>, q: u16)
    requires CacheIs(cache, LastEight(answers)) && NumberedInTurn(answers)
    requires forall j :: 0 <= j < |answers| <= j + READ_REPLY_CACHE_LEN ==> SeqAt(j) != q
    ensures FindRead(cache, q) == None
  {
    forall i | 0 <= i < |cache| ensures cache[i].seqNum != q {
      CacheAt(cache, answers, i);
      assert SeqAt(Kept(answers) + i) != q;
    }
    FindNone(cache, q);
  }

  /** A read that repeats one of the last eight answered sequence numbers gets the same bytes and
      the same user bytes again, from 65535 round to 1 included, and changes nothing else. */
  lemma {:induction false} RepeatIsAnsweredAlike(
      states: seq<State>, micros: seq<Micro>, n: nat, ev: AtpEvent, now: Micros, j: nat)
    requires IsRun(states, micros) && n <= |micros| && states[n].p.session.Some?
    requires var answers := states[n].h.answers; j < |answers| <= j + READ_REPLY_CACHE_LEN
    requires ev.RequestEvent?
    requires ev.userBytes == UserBytesOf(PapPacket(states[n].p.session.value.connId, SendData, SeqAt(j), false, []))
    ensures var p := states[n].p;
            var g := states[n].h.answers[j];
            HandleConnEvent(p, ev, now) == p.(
              session := Some(p.session.value.(lastActivity := now)),
              conn := Respond(p.conn, ev.source, ev.tid, g.userBytes, g.data, PAP_MAX_DATA_PER_PACKET, now))
  {
    RunKeepsInv(states, micros, n);
    var s := states[n].p.session.value;
    CacheHolds(s.readCache, states[n].h.answers, j);
    SeqDistinct(j, |states[n].h.answers|);
    assert Parse(ev.userBytes, ev.data) == Some(PapPacket(s.connId, SendData, SeqAt(j), false, ev.data));
  }

  /** A sequence number that is neither next nor among the last eight gets no answer at all. */
  lemma {:induction false} StaleReadIsIgnored(
      states: seq<State>, micros: seq<Micro>, n: nat, ev: AtpEvent, now: Micros, q: u16)
    requires IsRun(states, micros) && n <= |micros| && states[n].p.session.Some?
    requires q != 0 && q != states[n].p.session.value.readSeq
    requires forall j :: 0 <= j < |states[n].h.answers| <= j + READ_REPLY_CACHE_LEN ==> SeqAt(j) != q
    requires ev.RequestEvent?
    requires ev.userBytes == UserBytesOf(PapPacket(states[n].p.session.value.connId, SendData, q, false, []))
    ensures HandleConnEvent(states[n].p, ev, now) ==
              states[n].p.(session := Some(states[n].p.session.value.(lastActivity := now)))
  {
    RunKeepsInv(states, micros, n);
    var s, h := states[n].p.session.value, states[n].h;
    CacheMisses(s.readCache, h.answers, q);
    assert Parse(ev.userBytes, ev.data) == Some(PapPacket(s.connId, SendData, q, false, ev.data));
  }

  lemma {:induction false} ChunkNeeds(n: nat, packets: nat)
    requires n <= packets * PAP_MAX_DATA_PER_PACKET && packets >= 1
    ensures CeilDiv(n, PAP_MAX_DATA_PER_PACKET) <= packets
  {
  }

  /** An answer uses no more packets than the read has bits, so it reaches the client whole: in
      whatever order its packets arrive, the client's request ends in one response with the bytes
      and the user bytes of the answer. */
  lemma {:induction false} AnswerReachesClient(
      s: Session, bitmap: u8, client: Atp, src: Address, order: seq<u8>)
    requires s.pendingRead.Some? && s.pendingRead.value.bitmap == WidenedBitmap(bitmap)
    requires AtpReassembly.Untouched(client, s.pendingRead.value.tid)
    requires client.pending[s.pendingRead.value.tid].requestedBitmap == bitmap
    requires var needed := AtpReassembly.Needed(ReadChunk(s), PAP_MAX_DATA_PER_PACKET);
             AtpReassembly.Within(order, needed) && AtpReassembly.Covers(order, needed)
    ensures var tid, u := s.pendingRead.value.tid, UserBytesOf(ReadReply(s));
            var packets := Framed(tid, ReplyChunks(u, ReadChunk(s), PAP_MAX_DATA_PER_PACKET));
            && |packets| == AtpReassembly.Needed(ReadChunk(s), PAP_MAX_DATA_PER_PACKET) <= MaxPackets(WidenedBitmap(bitmap))
            && AtpReassembly.Feed(client, src, packets, order).events
               == client.events + [ResponseEvent(tid, u, ReadChunk(s))]
  {
    var chunk, tid, u := ReadChunk(s), s.pendingRead.value.tid, UserBytesOf(ReadReply(s));
    AtpReassembly.OnesZero(WidenedBitmap(bitmap));
    AtpReassembly.NeededPositive(chunk, PAP_MAX_DATA_PER_PACKET);
    ChunkNeeds(|chunk|, MaxPackets(WidenedBitmap(bitmap)));
    assert AtpReassembly.Needed(chunk, PAP_MAX_DATA_PER_PACKET) <= MaxPackets(WidenedBitmap(bitmap));
    AtpReassembly.RoundTrip(client, src, tid, u, chunk, PAP_MAX_DATA_PER_PACKET, order);
  }

  // ---- timers ---------------------------------------------------------------------------------------

  lemma {:induction false} AnswerAndPullKeepTimers(p: PapServer, now: Micros)
    ensures var p' := MaybePull(AnswerRead(p, now), now);
            && p'.session.Some? == p.session.Some?
            && (p.session.Some? ==>
                  var s, s' := p.session.value, p'.session.value;
                  && s'.nextTickle == s.nextTickle && s'.lastActivity == s.lastActivity
                  && (s'.pendingRead.Some? ==> now < s'.lastClientWrite + READ_IDLE_ANSWER))
  {
  }

  lemma {:induction false} KeepAliveTimers(p: PapServer, now: Micros)
    requires AtpSpec.HasFreeTid(p.conn.pending)
    ensures var p' := KeepAlive(p, now);
            p'.session.Some? ==>
              && p'.session.value.nextTickle > now && !Abandoned(p'.session.value, now)
              && p.session.Some? && p'.session.value.lastActivity == p.session.value.lastActivity
  {
  }

  /** What the session timers of a tick are given: the events of both endpoints have been taken. */
  ghost function Ticked(p: PapServer, now: Micros): PapServer {
    Drain(p.(listener := AtpSpec.Poll(p.listener, now), conn := AtpSpec.Poll(p.conn, now)), now)
  }

  /** After a tick every timer of the session lies ahead, the inactivity timeout if and only if it
      does not fall on the very tick: the session closes only once it has passed. */
  lemma {:induction false} SessionTimersMoveOn(p: PapServer, now: Micros)
    requires AtpSpec.HasFreeTid(Ticked(p, now).conn.pending)
    ensures var p' := PapSpec.Poll(p, now);
            p'.session.Some? ==>
              var s := p'.session.value;
              && s.nextTickle > now
              && (s.pendingRead.Some? ==> s.lastClientWrite + READ_IDLE_ANSWER > now)
              && Ticked(p, now).session.Some?
              && (s.lastActivity + INACTIVITY_TIMEOUT > now <==>
                    now != Ticked(p, now).session.value.lastActivity + INACTIVITY_TIMEOUT)
  {
    var p1 := Ticked(p, now);
    KeepAliveTimers(p1, now);
    AnswerAndPullKeepTimers(KeepAlive(p1, now), now);
  }

  // ---- the public operations are made of these steps ----------------------------------------------------

  ghost function ApplyAll(p: PapServer, ms: seq<Micro>): PapServer {
    if ms == [] then p else Apply(ApplyAll(p, ms[..|ms| - 1]), ms[|ms| - 1])
  }

  lemma {:induction false} ApplyMore(p: PapServer, ms: seq<Micro>, more: seq<Micro>)
    ensures ApplyAll(p, ms + more) == ApplyAll(ApplyAll(p, ms), more)
    decreases |more|
  {
    if more == [] {
      assert ms + more == ms;
    } else {
      ApplyMore(p, ms, more[..|more| - 1]);
      assert (ms + more)[..|ms + more| - 1] == ms + more[..|more| - 1];
    }
  }

  lemma {:induction false} ApplyOne(p: PapServer, m: Micro)
    ensures ApplyAll(p, [m]) == Apply(p, m)
  {
    assert [m][..0] == [];
  }

  lemma {:induction false} ApplyLast(p: PapServer, ms: seq<Micro>, m: Micro)
    ensures ApplyAll(p, ms + [m]) == Apply(ApplyAll(p, ms), m)
  {
    assert (ms + [m])[..|ms|] == ms;
  }

  lemma {:induction false} ApplyTwo(p: PapServer, m: Micro, n: Micro)
    ensures ApplyAll(p, [m, n]) == Apply(Apply(p, m), n)
  {
    ApplyOne(p, m);
    ApplyLast(p, [m], n);
    assert [m, n] == [m] + [n];
  }

  /** A run goes on with any steps, so every theorem about runs is about servers driven through the
      public operations below. */
  lemma {:induction false} StepsExtendRuns(states: seq<State>, micros: seq<Micro>, ms: seq<Micro>)
      returns (all: seq<State>)
    requires IsRun(states, micros)
    ensures IsRun(all, micros + ms) && |all| == |micros| + |ms| + 1
    ensures all[..|states|] == states && all[|micros| + |ms|].p == ApplyAll(states[|micros|].p, ms)
    decreases |ms|
  {
    if ms == [] {
      all := states;
      assert micros + ms == micros;
    } else {
      var front, last := ms[..|ms| - 1], ms[|ms| - 1];
      var before := StepsExtendRuns(states, micros, front);
      var s := before[|micros| + |front|];
      RunGoesOn(before, micros + front, last);
      all := before + [Step(s, last)];
      assert micros + ms == micros + front + [last];
    }
  }

  lemma {:induction false} RunGoesOn(states: seq<State>, micros: seq<Micro>, m: Micro)
    requires IsRun(states, micros)
    ensures IsRun(states + [Step(states[|micros|], m)], micros + [m])
  {
    var all, steps := states + [Step(states[|micros|], m)], micros + [m];
    forall i | 0 <= i < |steps| ensures Next(all[i], steps[i], all[i + 1]) {
      if i < |micros| { assert Next(states[i], micros[i], states[i + 1]); }
    }
  }

  function ListenerSteps(evs: seq<AtpEvent>, now: Micros): seq<Micro> {
    seq(|evs|, i requires 0 <= i < |evs| => OnListener(evs[i], now))
  }

  function ConnSteps(evs: seq<AtpEvent>, now: Micros): seq<Micro> {
    seq(|evs|, i requires 0 <= i < |evs| => OnConn(evs[i], now))
  }

  lemma {:induction false} ListenerEventsApply(p: PapServer, evs: seq<AtpEvent>, now: Micros)
    ensures ApplyAll(p, ListenerSteps(evs, now)) == ListenerEvents(p, evs, now)
  {
    if evs != [] {
      var front := evs[..|evs| - 1];
      ListenerEventsApply(p, front, now);
      assert ListenerSteps(evs, now)[..|evs| - 1] == ListenerSteps(front, now);
    }
  }

  lemma {:induction false} ConnEventsApply(p: PapServer, evs: seq<AtpEvent>, now: Micros)
    ensures ApplyAll(p, ConnSteps(evs, now)) == ConnEvents(p, evs, now)
  {
    if evs != [] {
      var front := evs[..|evs| - 1];
      ConnEventsApply(p, front, now);
      assert ConnSteps(evs, now)[..|evs| - 1] == ConnSteps(front, now);
    }
  }

  /** Draining is a sequence of the steps above. */
  lemma {:induction false} DrainIsSteps(p: PapServer, now: Micros) returns (ms: seq<Micro>)
    ensures ApplyAll(p, ms) == Drain(p, now)
  {
    var quiet := Endpoints(p.listener.(events := []), p.conn);
    var p0 := Apply(p, quiet);
    var ls := ListenerSteps(p.listener.events, now);
    ListenerEventsApply(p0, p.listener.events, now);
    ApplyOne(p, quiet);
    ApplyMore(p, [quiet], ls);
    var p1 := ListenerEvents(p0, p.listener.events, now);
    var quieter := Endpoints(p1.listener, p1.conn.(events := []));
    var ms1 := [quiet] + ls;
    ApplyLast(p, ms1, quieter);
    var cs := ConnSteps(p1.conn.events, now);
    ConnEventsApply(Apply(p1, quieter), p1.conn.events, now);
    ApplyMore(p, ms1 + [quieter], cs);
    var ms2 := ms1 + [quieter] + cs;
    ApplyLast(p, ms2, Answer(now));
    ApplyLast(p, ms2 + [Answer(now)], Pull(now));
    ms := ms2 + [Answer(now)] + [Pull(now)];
  }

  /** A datagram is handled by a sequence of the steps above. */
  lemma {:induction false} DatagramIsSteps(p: PapServer, socket: u8, src: Address, q: AtpPacket, now: Micros)
      returns (ms: seq<Micro>)
    ensures ApplyAll(p, ms) == PapSpec.HandleDatagram(p, socket, src, q, now)
  {
    var fed := Fed(p, socket, src, q);
    var first := Endpoints(fed.listener, fed.conn);
    ApplyOne(p, first);
    var rest := DrainIsSteps(fed, now);
    ApplyMore(p, [first], rest);
    ms := [first] + rest;
  }

  /** So is a timer tick. */
  lemma {:induction false} PollIsSteps(p: PapServer, now: Micros) returns (ms: seq<Micro>)
    ensures ApplyAll(p, ms) == PapSpec.Poll(p, now)
  {
    var ticked := p.(listener := AtpSpec.Poll(p.listener, now), conn := AtpSpec.Poll(p.conn, now));
    var first := Endpoints(ticked.listener, ticked.conn);
    ApplyOne(p, first);
    var rest := DrainIsSteps(ticked, now);
    ApplyMore(p, [first], rest);
    var ms1 := [first] + rest;
    ApplyLast(p, ms1, Alive(now));
    ApplyLast(p, ms1 + [Alive(now)], Answer(now));
    ApplyLast(p, ms1 + [Alive(now)] + [Answer(now)], Pull(now));
    ms := ms1 + [Alive(now)] + [Answer(now)] + [Pull(now)];
  }

  /** And queueing output, ending it and reporting room. */
  lemma {:induction false} CallsAreSteps(p: PapServer, data: seq<byte>, bytes: nat, now: Micros)
    ensures ApplyAll(p, [Output(data), Answer(now)]) == QueueOutput(p, data, now)
    ensures ApplyAll(p, [End, Answer(now)]) == EndOutput(p, now)
    ensures ApplyAll(p, [Credit(bytes), Pull(now)]) == SetSinkCredit(p, bytes, now)
  {
    ApplyTwo(p, Output(data), Answer(now));
    ApplyTwo(p, End, Answer(now));
    ApplyTwo(p, Credit(bytes), Pull(now));
  }
}
