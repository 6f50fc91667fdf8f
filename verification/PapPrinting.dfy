/** What a PAP server prints over whole runs: everything its clients answer its pulls with, in order,
    and nothing else; its pulls are numbered by the answers, and its clocks tell when its client was last
    heard. */
module PapPrinting {
  import opened Words
  import opened AtpSpec
  import opened PapSpec
  import opened PapRuns

  /** Whether a step takes a client's answer, in the form of data, to the outstanding pull. */
  predicate TakesData(p: PapServer, m: Micro) {
    && m.OnConn? && m.ev.ResponseEvent?
    && p.session.Some? && p.session.value.outstandingPull == Some(m.ev.handle)
    && Parse(m.ev.userBytes, m.ev.data).Some? && Parse(m.ev.userBytes, m.ev.data).value.function_ == Data
  }

  /** The data of every such answer so far, end to end. */
  ghost function Answered(states: seq<State>, micros: seq<Micro>, n: nat): seq<byte>
    requires IsRun(states, micros) && n <= |micros|
  {
    if n == 0 then [] else
    Answered(states, micros, n - 1) + (if TakesData(states[n - 1].p, micros[n - 1]) then micros[n - 1].ev.data else [])
  }

  /** How many there were since the session was opened. */
  ghost function Answers(states: seq<State>, micros: seq<Micro>, n: nat): nat
    requires IsRun(states, micros) && n <= |micros|
  {
    if n == 0 || states[n - 1].p.session.None? then 0 else
    Answers(states, micros, n - 1) + (if TakesData(states[n - 1].p, micros[n - 1]) then 1 else 0)
  }

  function Printed(trace: seq<PapEvent>): seq<byte> {
    if trace == [] then [] else
    Printed(trace[..|trace| - 1]) + (if trace[|trace| - 1].ToPrinter? then trace[|trace| - 1].bytes else [])
  }

  lemma {:induction false} PrintedOne(trace: seq<PapEvent>, ev: PapEvent)
    ensures Printed(trace + [ev]) == Printed(trace) + (if ev.ToPrinter? then ev.bytes else [])
  {
    assert (trace + [ev])[..|trace|] == trace;
  }

  /** What a step adds to what was said. */
  ghost function Says(p: PapServer, m: Micro): seq<PapEvent> {
    Apply(p, m).events[|p.events|..]
  }

  /** The bytes of an answer and the end of a job, as printed. */
  lemma {:induction false} SaidPrints(trace: seq<PapEvent>, data: seq<byte>, ends: bool)
    ensures Printed(trace + ((if data != [] then [ToPrinter(data)] else []) + (if ends then [JobEof] else [])))
              == Printed(trace) + data
  {
    var first := if data != [] then [ToPrinter(data)] else [];
    if data != [] { PrintedOne(trace, ToPrinter(data)); } else { assert trace + first == trace; }
    if ends {
      PrintedOne(trace + first, JobEof);
      assert trace + (first + [JobEof]) == trace + first + [JobEof];
    } else {
      assert first + [] == first;
    }
  }

  lemma {:induction false} DataSays(trace: seq<PapEvent>, p: PapServer, m: Micro)
    requires TakesData(p, m)
    ensures Printed(trace + Says(p, m)) == Printed(trace) + m.ev.data
  {
    var s, data := p.session.value, m.ev.data;
    PulledSays(s, m.ev.userBytes, data, m.now);
    assert Says(p, m) == TakePulled(s, m.ev.userBytes, data, m.now).1;
    SaidPrints(trace, data, Parse(m.ev.userBytes, data).value.eof && (s.jobBytes > 0 || data != []));
  }

  lemma {:induction false} OthersSay(trace: seq<PapEvent>, p: PapServer, m: Micro)
    requires !TakesData(p, m)
    ensures Printed(trace + Says(p, m)) == Printed(trace)
  {
    var said := Says(p, m);
    assert |said| <= 1;
    if said != [] {
      assert said == [said[0]] && !said[0].ToPrinter?;
      PrintedOne(trace, said[0]);
    } else {
      assert trace + said == trace;
    }
  }

  lemma {:induction false} StepSays(s: State, m: Micro)
    ensures Step(s, m).h.trace == s.h.trace + Says(s.p, m)
  {
  }

  lemma {:induction false} StepPrints(s: State, m: Micro, s': State)
    requires Next(s, m, s')
    ensures Printed(s'.h.trace) == Printed(s.h.trace) + (if TakesData(s.p, m) then m.ev.data else [])
  {
    StepSays(s, m);
    if TakesData(s.p, m) { DataSays(s.h.trace, s.p, m); } else { OthersSay(s.h.trace, s.p, m); }
  }

  lemma {:induction false} RunPrints(states: seq<State>, micros: seq<Micro>, n: nat)
    requires IsRun(states, micros) && n < |micros|
    ensures Printed(states[n + 1].h.trace)
              == Printed(states[n].h.trace) + (if TakesData(states[n].p, micros[n]) then micros[n].ev.data else [])
  {
    assert Next(states[n], micros[n], states[n + 1]);
    StepPrints(states[n], micros[n], states[n + 1]);
  }

  /** Everything is printed: at every moment the bytes sent to the printer are exactly the bytes clients
      answered pulls with, in order. */
  lemma {:induction false} AnswersArePrinted(states: seq<State>, micros: seq<Micro>, n: nat)
    requires IsRun(states, micros) && n <= |micros|
    ensures Printed(states[n].h.trace) == Answered(states, micros, n)
  {
    if n > 0 {
      AnswersArePrinted(states, micros, n - 1);
      RunPrints(states, micros, n - 1);
    }
  }

  /** The status always fits the Pascal string it is told as. */
  lemma {:induction false} StatusStaysShort(states: seq<State>, micros: seq<Micro>, n: nat)
    requires IsRun(states, micros) && n <= |micros| && |states[0].p.status| <= MAX_STATUS
    ensures |states[n].p.status| <= MAX_STATUS
  {
    if n > 0 {
      StatusStaysShort(states, micros, n - 1);
      assert Next(states[n - 1], micros[n - 1], states[n]);
      StatusStepsShort(states[n - 1].p, micros[n - 1]);
    }
  }

  lemma {:induction false} StatusStepsShort(p: PapServer, m: Micro)
    requires |p.status| <= MAX_STATUS
    ensures |Apply(p, m).status| <= MAX_STATUS
  {
  }

  lemma {:induction false} PullNumberMoves(p: PapServer, m: Micro)
    requires p.session.Some? && Apply(p, m).session.Some?
    ensures Apply(p, m).session.value.pullSeq
              == if TakesData(p, m) then NextPapSeq(p.session.value.pullSeq) else p.session.value.pullSeq
  {
  }

  lemma {:induction false} NewSessionPulls(p: PapServer, m: Micro)
    requires p.session.None? && Apply(p, m).session.Some?
    ensures Apply(p, m).session.value.pullSeq == SeqAt(0)
  {
  }

  /** A session numbers its pulls by the answers it has had, from 1 on and round from 65535 to 1: a pull
      whose answer never came is made again under the same number. */
  lemma {:induction false} PullsAreNumbered(states: seq<State>, micros: seq<Micro>, n: nat)
    requires IsRun(states, micros) && n <= |micros| && states[n].p.session.Some?
    ensures states[n].p.session.value.pullSeq == SeqAt(Answers(states, micros, n))
  {
    if n > 0 {
      var s, m := states[n - 1], micros[n - 1];
      assert Next(s, m, states[n]);
      if s.p.session.Some? {
        PullsAreNumbered(states, micros, n - 1);
        PullNumberMoves(s.p, m);
        SeqSteps(Answers(states, micros, n - 1));
      } else {
        NewSessionPulls(s.p, m);
      }
    }
  }

  // ---- the session's clocks -------------------------------------------------------------------------------------

  /** When a session's client last wrote and was last heard, and when the client was last tickled; at
      first the time of opening. */
  datatype Times = Times(wrote: Micros, heard: Micros, tickled: Micros)

  predicate HearsClient(p: PapServer, m: Micro) {
    TakesData(p, m) || (m.OnConn? && m.ev.RequestEvent? && Parse(m.ev.userBytes, m.ev.data).Some?
                        && p.session.Some? && Parse(m.ev.userBytes, m.ev.data).value.connId == p.session.value.connId)
  }

  ghost predicate Tickles(p: PapServer, m: Micro) {
    m.Alive? && |KeepAlive(p, m.now).conn.outbox| > |p.conn.outbox|
  }

  ghost function TimesAfter(p: PapServer, m: Micro, before: Times): Times {
    if p.session.None? then if m.OnListener? then Times(m.now, m.now, m.now) else before
    else Times(if TakesData(p, m) then m.now else before.wrote, if HearsClient(p, m) then m.now else before.heard,
               if Tickles(p, m) then m.now else before.tickled)
  }

  ghost function TimesAt(states: seq<State>, micros: seq<Micro>, n: nat): Times
    requires IsRun(states, micros) && n <= |micros|
  {
    if n == 0 then Times(0, 0, 0) else TimesAfter(states[n - 1].p, micros[n - 1], TimesAt(states, micros, n - 1))
  }

  /** The session's clocks tell these times. */
  predicate Shows(s: Session, t: Times) {
    s.lastClientWrite == t.wrote && s.lastActivity == t.heard && s.nextTickle == t.tickled + TICKLE_INTERVAL
  }

  predicate Right(p: PapServer, t: Times) {
    p.session.Some? ==> Shows(p.session.value, t)
  }

  lemma {:induction false} ClocksMove(p: PapServer, m: Micro, before: Times)
    requires Right(p, before)
    ensures Right(Apply(p, m), TimesAfter(p, m, before))
  {
  }

  /** In every state of every run the clocks are right. So a session is closed for silence exactly when
      its client has not been heard of for more than the timeout, tickled at every interval, and a waiting
      read given up on once the client has written nothing for the idle time. */
  lemma {:induction false} SessionClocks(states: seq<State>, micros: seq<Micro>, n: nat, now: Micros)
    requires IsRun(states, micros) && n <= |micros| && states[n].p.session.Some?
    ensures var s, t := states[n].p.session.value, TimesAt(states, micros, n);
            && Shows(s, t)
            && (KeepAlive(states[n].p, now).session.None? <==> now > t.heard + INACTIVITY_TIMEOUT)
            && (ReadReady(s, now) <==>
                  s.pendingRead.Some? && (s.stdout != [] || s.eofQueued || now >= t.wrote + READ_IDLE_ANSWER))
  {
    ClocksAt(states, micros, n);
  }

  ghost predicate RightAt(states: seq<State>, micros: seq<Micro>, n: nat)
    requires IsRun(states, micros) && n <= |micros|
  {
    Right(states[n].p, TimesAt(states, micros, n))
  }

  lemma {:induction false} ClocksAt(states: seq<State>, micros: seq<Micro>, n: nat)
    requires IsRun(states, micros) && n <= |micros|
    ensures RightAt(states, micros, n)
  {
    if n > 0 {
      ClocksAt(states, micros, n - 1);
      StepKeepsRight(states, micros, n - 1);
    }
  }

  lemma {:induction false} StepKeepsRight(states: seq<State>, micros: seq<Micro>, n: nat)
    requires IsRun(states, micros) && n < |micros| && RightAt(states, micros, n)
    ensures RightAt(states, micros, n + 1)
  {
    RunClocks(states, micros, n, TimesAt(states, micros, n));
  }

  lemma {:induction false} RunClocks(states: seq<State>, micros: seq<Micro>, n: nat, before: Times)
    requires IsRun(states, micros) && n < |micros|
    requires Right(states[n].p, before)
    ensures Right(states[n + 1].p, TimesAfter(states[n].p, micros[n], before))
  {
    assert Next(states[n], micros[n], states[n + 1]);
    NextClocks(states[n], micros[n], states[n + 1], before);
  }

  lemma {:induction false} NextClocks(s: State, m: Micro, s': State, before: Times)
    requires Next(s, m, s') && Right(s.p, before)
    ensures Right(s'.p, TimesAfter(s.p, m, before))
  {
    ClocksMove(s.p, m, before);
  }
}
