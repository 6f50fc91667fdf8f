/** Runs of a StyleWriter role. */
module StyleWriterRuns {
  import opened Words
  import opened StyleWriterSpec
  import AdspSpec

  /** What can happen to a role: an event of its connections, a timer tick, or a report on the printer.
      Where an event's connection leads is left open, so whatever the connections do is covered. */
  datatype Input =
    | Adsp(ev: AdspSpec.AdspEvent, remote: Option<Address>, now: Micros, drawn: u16)
    | Timer(now: Micros)
    | Drained(drained: bool)

  function After(c: Core, i: Input): Outcome {
    match i
    case Adsp(ev, remote, now, drawn) => CoreAfter(c, ev, remote, now, drawn)
    case Timer(now) => Expire(c, now)
    case Drained(drained) => Quiet(c.(printerDrained := drained))
  }

  /** A role and everything it has said. */
  datatype Told = Told(core: Core, trace: seq<StyleWriterEvent>)

  function Next(t: Told, i: Input): Told {
    Told(After(t.core, i).core, t.trace + After(t.core, i).said)
  }

  predicate Fresh(t: Told) {
    t.core.state == Idle && t.core.pendingName == None && !t.core.fastClockOn && t.trace == []
  }

  ghost predicate IsRun(ts: seq<Told>, inputs: seq<Input>) {
    && |ts| == |inputs| + 1 && Fresh(ts[0])
    && forall i :: 0 <= i < |inputs| ==> IsStep(ts[i], inputs[i], ts[i + 1])
  }

  predicate IsStep(t: Told, i: Input, t': Told) {
    t' == Next(t, i)
  }

  /** The whole role takes these steps, with the remote its connections give. */
  lemma {:induction false} RoleTakesTheseSteps(r: Role, ev: AdspSpec.AdspEvent, now: Micros, drawn: u16)
    ensures var r' := HandleAdspEvent(r, ev, now, drawn);
            Told(r'.core, r'.events)
              == Next(Told(r.core, r.events), Adsp(ev, RemoteOf(r.endpoint, ev.conn), now, drawn))
    ensures var r' := ExpireStalled(r, now);
            Told(r'.core, r'.events) == Next(Told(r.core, r.events), Timer(now)) && r'.endpoint == r.endpoint
  {
  }

  // ---- what a step can say --------------------------------------------------------------------------

  /** Everything a step can say, and what becomes of the job and the clock with it. */
  datatype Turn =
    | Silent                       // a job in hand stays in hand, or is dropped unsaid
    | Starts(user: seq<byte>)
    | Ends(clean: bool)            // a handshake ends
    | Prints(bytes: seq<byte>)
    | Names(name: seq<byte>)
    | Clocks(on: bool)
    | Hangs(clean: bool, clock: bool)   // a pipe ends

  function Said(t: Turn): seq<StyleWriterEvent> {
    match t
    case Silent => []
    case Starts(user) => [JobStarted(user)]
    case Ends(clean) => [JobEnded(clean)]
    case Prints(bytes) => [ToPrinter(bytes)]
    case Names(name) => [Rename(name)]
    case Clocks(on) => [if on then FastClockEnable else FastClockDisable]
    case Hangs(clean, clock) =>
      (if clean then [] else [ToPrinter(PRINTER_RESET)]) + (if clock then [FastClockDisable] else []) + [JobEnded(clean)]
  }

  /** A turn that fits the state before and after. */
  predicate Fits(c: Core, t: Turn, c': Core) {
    && c'.fastClockSupported == c.fastClockSupported
    && match t
       case Silent => (Busy(c') ==> Busy(c)) && c'.fastClockOn == c.fastClockOn
       case Starts(_) => !Busy(c) && Busy(c') && c'.fastClockOn == c.fastClockOn
       case Ends(_) => Busy(c) && !Busy(c') && c'.fastClockOn == c.fastClockOn
       case Prints(_) => c'.state == c.state && c'.fastClockOn == c.fastClockOn
       case Names(_) => c'.state == c.state && c'.fastClockOn == c.fastClockOn
       case Clocks(on) =>
         c'.state == c.state && c.fastClockOn == !on && c'.fastClockOn == on && (on ==> c.fastClockSupported)
       case Hangs(clean, clock) => Busy(c) && !Busy(c') && clock == c.fastClockOn && !c'.fastClockOn
  }

  /** The turn that says `said`, for an attention, which says one thing at most. */
  function TurnIn(said: seq<StyleWriterEvent>): Turn {
    if said == [] then Silent
    else match said[0]
      case JobStarted(user) => Starts(user)
      case JobEnded(clean) => Ends(clean)
      case ToPrinter(bytes) => Prints(bytes)
      case Rename(name) => Names(name)
      case FastClockEnable => Clocks(true)
      case FastClockDisable => Clocks(false)
  }

  function EffectsTurn(c: Core, remote: Option<Address>, conn: u16, code: u16, data: seq<byte>, now: Micros): Turn {
    TurnIn(Effects(c, remote, conn, code, data, now).said)
  }

  function TurnOf(c: Core, i: Input): Turn {
    match i
    case Adsp(Attention(conn, code, data), remote, now, _) => EffectsTurn(c, remote, conn, code, data, now)
    case Adsp(Data(conn, data, eom), _, _, _) => if TakeData(c, conn, data, eom).said == [] then Silent else Prints(data)
    case Adsp(Closed(conn), _, _, _) => if OnPipe(c, conn) then Hangs(c.state.killSeen, c.fastClockOn) else Silent
    case Timer(now) => if Stalled(c, now) then Ends(false) else Silent
    case _ => Silent
  }

  lemma {:induction false} ClockTurn(c: Core, on: bool)
    ensures var o := FollowClock(c, on);
            && (o.said == [] ==> o.core == c)
            && (o.said != [] ==> o.said == Said(Clocks(on)) && o.core == c.(fastClockOn := on) && c.fastClockOn == !on)
  {
  }

  lemma {:induction false} StartTurn(c: Core, remote: Address, conn: u16, data: seq<byte>, now: Micros)
    requires |data| >= 5 && !Busy(c)
    ensures var o := StartJob(c, remote, conn, data, now);
            o.said == Said(TurnIn(o.said)) && Fits(c, TurnIn(o.said), o.core)
  {
  }

  lemma {:induction false} EndTurn(c: Core, conn: u16, now: Micros)
    ensures var o := EndSession(c, conn, now);
            o.said == Said(TurnIn(o.said)) && Fits(c, TurnIn(o.said), o.core)
  {
  }

  lemma {:induction false} JobTurn(c: Core, remote: Option<Address>, conn: u16, code: u16, data: seq<byte>, now: Micros)
    requires code == ATTN_PRINT_REQUEST || code == ATTN_WITHDRAW || code == ATTN_END_SESSION
    ensures var t := EffectsTurn(c, remote, conn, code, data, now);
            var o := Effects(c, remote, conn, code, data, now);
            o.said == Said(t) && Fits(c, t, o.core)
  {
    if code == ATTN_PRINT_REQUEST {
      if TakesJob(c, remote, data) {
        StartTurn(c, remote.value, conn, data, now);
      }
    } else if code == ATTN_END_SESSION {
      EndTurn(c, conn, now);
    }
  }

  lemma {:induction false} AttentionTurn(c: Core, remote: Option<Address>, conn: u16, code: u16, data: seq<byte>,
      now: Micros)
    ensures var t := EffectsTurn(c, remote, conn, code, data, now);
            var o := Effects(c, remote, conn, code, data, now);
            o.said == Said(t) && Fits(c, t, o.core)
  {
    if code == ATTN_PRINT_REQUEST || code == ATTN_WITHDRAW || code == ATTN_END_SESSION {
      JobTurn(c, remote, conn, code, data, now);
    } else {
      ClockTurn(c, true);
      ClockTurn(c, false);
    }
  }

  /** Every step is one of these turns. */
  lemma {:induction false} StepIsATurn(c: Core, i: Input)
    ensures After(c, i).said == Said(TurnOf(c, i)) && Fits(c, TurnOf(c, i), After(c, i).core)
  {
    match i
    case Adsp(Attention(conn, code, data), remote, now, _) => AttentionTurn(c, remote, conn, code, data, now);
    case Adsp(Closed(conn), _, now, drawn) => ClosedTurn(c, conn, now, drawn);
    case _ =>
  }

  lemma {:induction false} ClosedTurn(c: Core, conn: u16, now: Micros, drawn: u16)
    ensures var t := if OnPipe(c, conn) then Hangs(c.state.killSeen, c.fastClockOn) else Silent;
            var o := TakeClosed(c, conn, now, drawn);
            o.said == Said(t) && Fits(c, t, o.core)
  {
    ClockTurn(c.(pendingName := None), false);
    ClockTurn(c, false);
  }

  // ---- jobs and clock -------------------------------------------------------------------------------

  /** Where a trace stands: whether a job has started and not ended, and whether the port follows the
      printer's clock. */
  datatype Mode = Mode(job: bool, clock: bool)

  /** A job ends only if one has started since the last end; the clock is switched on and off by turns. */
  function Advance(m: Mode, ev: StyleWriterEvent): Option<Mode> {
    match ev
    case JobStarted(_) => Some(m.(job := true))
    case JobEnded(_) => if m.job then Some(m.(job := false)) else None
    case FastClockEnable => if m.clock then None else Some(m.(clock := true))
    case FastClockDisable => if m.clock then Some(m.(clock := false)) else None
    case _ => Some(m)
  }

  function Walk(trace: seq<StyleWriterEvent>): Option<Mode> {
    if trace == [] then Some(Mode(false, false)) else
    match Walk(trace[..|trace| - 1])
    case None => None
    case Some(m) => Advance(m, trace[|trace| - 1])
  }

  lemma {:induction false} WalkOne(trace: seq<StyleWriterEvent>, ev: StyleWriterEvent)
    requires Walk(trace).Some?
    ensures Walk(trace + [ev]) == Advance(Walk(trace).value, ev)
  {
    assert (trace + [ev])[..|trace|] == trace;
  }

  /** Several events, one after another. */
  function AdvanceAll(m: Mode, evs: seq<StyleWriterEvent>): Option<Mode> {
    if evs == [] then Some(m) else
    match AdvanceAll(m, evs[..|evs| - 1])
    case None => None
    case Some(n) => Advance(n, evs[|evs| - 1])
  }

  lemma {:induction false} WalkAll(trace: seq<StyleWriterEvent>, evs: seq<StyleWriterEvent>)
    requires Walk(trace).Some? && AdvanceAll(Walk(trace).value, evs).Some?
    ensures Walk(trace + evs) == AdvanceAll(Walk(trace).value, evs)
    decreases |evs|
  {
    if evs == [] {
      assert trace + evs == trace;
    } else {
      var front := evs[..|evs| - 1];
      WalkAll(trace, front);
      WalkOne(trace + front, evs[|evs| - 1]);
      assert trace + front + [evs[|evs| - 1]] == trace + evs;
    }
  }

  lemma {:induction false} AdvanceOne(m: Mode, evs: seq<StyleWriterEvent>, ev: StyleWriterEvent)
    ensures AdvanceAll(m, evs + [ev]) == if AdvanceAll(m, evs).None? then None else Advance(AdvanceAll(m, evs).value, ev)
    ensures AdvanceAll(m, [ev]) == Advance(m, ev)
  {
    assert (evs + [ev])[..|evs|] == evs && [ev][..0] == [];
  }

  /** A job in hand is a job started, and the clock is where the role thinks. */
  predicate InStep(m: Mode, c: Core) {
    (Busy(c) ==> m.job) && m.clock == c.fastClockOn && (c.fastClockOn ==> c.fastClockSupported)
  }

  lemma {:induction false} WordAdvances(m: Mode, c: Core, t: Turn, c': Core)
    requires InStep(m, c) && Fits(c, t, c') && !t.Silent? && !t.Hangs?
    ensures |Said(t)| == 1 && Advance(m, Said(t)[0]).Some? && InStep(Advance(m, Said(t)[0]).value, c')
    ensures !c.fastClockSupported ==> Said(t)[0] != FastClockEnable && Said(t)[0] != FastClockDisable
  {
  }

  lemma {:induction false} TurnAdvances(m: Mode, c: Core, t: Turn, c': Core)
    requires InStep(m, c) && Fits(c, t, c')
    ensures AdvanceAll(m, Said(t)).Some? && InStep(AdvanceAll(m, Said(t)).value, c')
    ensures !c.fastClockSupported ==> FastClockEnable !in Said(t) && FastClockDisable !in Said(t)
  {
    if t.Silent? {
    } else if t.Hangs? {
      HangUpAdvances(m, t.clean, t.clock);
    } else {
      WordAdvances(m, c, t, c');
      AdvanceOne(m, [], Said(t)[0]);
      assert Said(t) == [Said(t)[0]];
    }
  }

  lemma {:induction false} HangUpAdvances(m: Mode, clean: bool, clock: bool)
    requires m.job && m.clock == clock
    ensures AdvanceAll(m, Said(Hangs(clean, clock))) == Some(Mode(false, false))
    ensures FastClockEnable !in Said(Hangs(clean, clock))
    ensures !clock ==> FastClockDisable !in Said(Hangs(clean, clock))
  {
    var first := if clean then [] else [ToPrinter(PRINTER_RESET)];
    var second := if clock then [FastClockDisable] else [];
    AdvanceOne(m, [], ToPrinter(PRINTER_RESET));
    assert AdvanceAll(m, first) == Some(m);
    AdvanceOne(m, first, FastClockDisable);
    assert first + [] == first;
    assert AdvanceAll(m, first + second) == Some(m.(clock := false));
    AdvanceOne(m, first + second, JobEnded(clean));
    assert Said(Hangs(clean, clock)) == first + second + [JobEnded(clean)];
  }

  predicate Orderly(t: Told) {
    && Walk(t.trace).Some? && InStep(Walk(t.trace).value, t.core)
    && (!t.core.fastClockSupported ==> FastClockEnable !in t.trace && FastClockDisable !in t.trace)
  }

  lemma {:induction false} StepKeepsOrder(t: Told, i: Input)
    requires Orderly(t)
    ensures Orderly(Next(t, i))
  {
    StepIsATurn(t.core, i);
    TurnAdvances(Walk(t.trace).value, t.core, TurnOf(t.core, i), After(t.core, i).core);
    WalkAll(t.trace, Said(TurnOf(t.core, i)));
  }

  lemma {:induction false} RunIsOrderly(ts: seq<Told>, inputs: seq<Input>, n: nat)
    requires IsRun(ts, inputs) && n <= |inputs|
    ensures Orderly(ts[n])
  {
    if n > 0 {
      RunIsOrderly(ts, inputs, n - 1);
      assert IsStep(ts[n - 1], inputs[n - 1], ts[n]);
      StepKeepsOrder(ts[n - 1], inputs[n - 1]);
    }
  }

  /** Every event trace: no job ends before one has started or twice for one start, the clock is switched
      on and off by turns, and never at all where the port cannot follow it. */
  lemma {:induction false} JobsAndClockTakeTurns(ts: seq<Told>, inputs: seq<Input>, n: nat)
    requires IsRun(ts, inputs) && n <= |inputs|
    ensures Walk(ts[n].trace).Some?
    ensures Busy(ts[n].core) ==> Walk(ts[n].trace).value.job
    ensures Walk(ts[n].trace).value.clock == ts[n].core.fastClockOn
    ensures !ts[n].core.fastClockSupported ==> FastClockEnable !in ts[n].trace && FastClockDisable !in ts[n].trace
  {
    RunIsOrderly(ts, inputs, n);
  }

  // ---- every job is accounted for ---------------------------------------------------------------------

  /** Starts less ends. */
  function Pending(evs: seq<StyleWriterEvent>): int {
    if evs == [] then 0 else
    Pending(evs[..|evs| - 1])
    + (if evs[|evs| - 1].JobStarted? then 1 else if evs[|evs| - 1].JobEnded? then -1 else 0)
  }

  lemma {:induction false} PendingOne(evs: seq<StyleWriterEvent>, ev: StyleWriterEvent)
    ensures Pending(evs + [ev]) == Pending(evs) + (if ev.JobStarted? then 1 else if ev.JobEnded? then -1 else 0)
  {
    assert (evs + [ev])[..|evs|] == evs;
  }

  lemma {:induction false} PendingTurn(trace: seq<StyleWriterEvent>, t: Turn)
    ensures Pending(trace + Said(t)) == Pending(trace)
              + (if t.Starts? then 1 else if t.Ends? || t.Hangs? then -1 else 0)
  {
    match t
    case Silent => assert trace + [] == trace;
    case Hangs(clean, clock) => PendingHangUp(trace, clean, clock);
    case _ => PendingOne(trace, Said(t)[0]);
  }

  lemma {:induction false} PendingHangUp(trace: seq<StyleWriterEvent>, clean: bool, clock: bool)
    ensures Pending(trace + Said(Hangs(clean, clock))) == Pending(trace) - 1
  {
    var first := if clean then [] else [ToPrinter(PRINTER_RESET)];
    var second := if clock then [FastClockDisable] else [];
    PendingOne(trace, ToPrinter(PRINTER_RESET));
    assert trace + [] == trace;
    assert Pending(trace + first) == Pending(trace);
    PendingOne(trace + first, FastClockDisable);
    assert trace + first + [] == trace + first;
    assert Pending(trace + first + second) == Pending(trace);
    PendingOne(trace + first + second, JobEnded(clean));
    assert trace + Said(Hangs(clean, clock)) == trace + first + second + [JobEnded(clean)];
  }

  /** A call-back that could not be opened. */
  predicate CallFailed(c: Core, i: Input) {
    i.Adsp? && i.ev.OpenFailed? && c.state == Connecting(i.ev.conn)
  }

  function FailedCalls(ts: seq<Told>, inputs: seq<Input>, n: nat): nat
    requires |ts| == |inputs| + 1 && n <= |inputs|
  {
    if n == 0 then 0
    else FailedCalls(ts, inputs, n - 1) + (if CallFailed(ts[n - 1].core, inputs[n - 1]) then 1 else 0)
  }

  function Working(c: Core): nat {
    if Busy(c) then 1 else 0
  }

  lemma {:induction false} EffectsKeepJob(c: Core, remote: Option<Address>, conn: u16, code: u16, data: seq<byte>,
      now: Micros)
    requires EffectsTurn(c, remote, conn, code, data, now).Silent?
    ensures Busy(Effects(c, remote, conn, code, data, now).core) == Busy(c)
  {
  }

  /** The one way a job is dropped unsaid is a call-back that fails. */
  lemma {:induction false} SilentKeepsJob(c: Core, i: Input)
    requires TurnOf(c, i).Silent?
    ensures Working(After(c, i).core) == Working(c) - (if CallFailed(c, i) then 1 else 0)
  {
    match i
    case Adsp(Attention(conn, code, data), remote, now, _) => EffectsKeepJob(c, remote, conn, code, data, now);
    case _ =>
  }

  lemma {:induction false} StepBalances(t: Told, i: Input)
    ensures Pending(Next(t, i).trace) - Working(Next(t, i).core)
         == Pending(t.trace) - Working(t.core) + (if CallFailed(t.core, i) then 1 else 0)
  {
    StepIsATurn(t.core, i);
    PendingTurn(t.trace, TurnOf(t.core, i));
    if TurnOf(t.core, i).Silent? { SilentKeepsJob(t.core, i); }
  }

  /** Every job started has ended, is in hand, or could not be called back: a call-back that fails ends
      the job without an event. */
  lemma {:induction false} JobsBalance(ts: seq<Told>, inputs: seq<Input>, n: nat)
    requires IsRun(ts, inputs) && n <= |inputs|
    ensures Pending(ts[n].trace) == Working(ts[n].core) + FailedCalls(ts, inputs, n)
  {
    if n > 0 {
      JobsBalance(ts, inputs, n - 1);
      assert IsStep(ts[n - 1], inputs[n - 1], ts[n]);
      StepBalances(ts[n - 1], inputs[n - 1]);
    }
  }

  // ---- a client that vanishes -------------------------------------------------------------------------

  predicate KillsPipe(i: Input, pipe: u16) {
    i.Adsp? && i.ev.Attention? && i.ev.code == ATTN_END_SESSION && i.ev.conn == pipe
  }

  predicate ClosesConn(i: Input, conn: u16) {
    i.Adsp? && i.ev == AdspSpec.Closed(conn)
  }

  /** END_SESSION came on the pipe while it was the pipe, and it has been since. */
  predicate EndedSince(ts: seq<Told>, inputs: seq<Input>, n: nat, pipe: u16)
    requires |ts| == |inputs| + 1 && n <= |inputs|
  {
    exists j :: 0 <= j < n && KillsPipe(inputs[j], pipe) && forall k :: j <= k <= n ==> OnPipe(ts[k].core, pipe)
  }

  lemma {:induction false} KilledBy(c: Core, i: Input)
    requires After(c, i).core.state.Piping? && After(c, i).core.state.killSeen
    ensures OnPipe(c, After(c, i).core.state.pipe)
    ensures c.state.killSeen || KillsPipe(i, c.state.pipe)
  {
    match i
    case Adsp(Attention(conn, code, data), remote, now, _) => KilledByAttention(c, remote, conn, code, data, now);
    case _ =>
  }

  lemma {:induction false} KilledByAttention(c: Core, remote: Option<Address>, conn: u16, code: u16, data: seq<byte>,
      now: Micros)
    ensures var s := Effects(c, remote, conn, code, data, now).core.state;
            s.Piping? ==> s == c.state || (code == ATTN_END_SESSION && OnPipe(c, conn) && s.pipe == conn)
  {
  }

  lemma {:induction false} KillSeenMeansEnded(ts: seq<Told>, inputs: seq<Input>, n: nat)
    requires IsRun(ts, inputs) && n <= |inputs| && ts[n].core.state.Piping? && ts[n].core.state.killSeen
    ensures EndedSince(ts, inputs, n, ts[n].core.state.pipe)
  {
    var pipe := ts[n].core.state.pipe;
    if n > 0 {
      assert IsStep(ts[n - 1], inputs[n - 1], ts[n]);
      KilledBy(ts[n - 1].core, inputs[n - 1]);
      if ts[n - 1].core.state.killSeen {
        KillSeenMeansEnded(ts, inputs, n - 1);
        var j :| 0 <= j < n - 1 && KillsPipe(inputs[j], pipe) && forall k :: j <= k <= n - 1 ==> OnPipe(ts[k].core, pipe);
        assert forall k :: j <= k <= n ==> OnPipe(ts[k].core, pipe);
      } else {
        assert KillsPipe(inputs[n - 1], pipe);
      }
    }
  }

  lemma {:induction false} ClosedSays(t: Told, i: Input)
    requires t.core.state.Piping? && ClosesConn(i, t.core.state.pipe)
    ensures Next(t, i).core.state == Idle
    ensures Next(t, i).trace == t.trace + Said(Hangs(t.core.state.killSeen, t.core.fastClockOn))
  {
    ClosedTurn(t.core, t.core.state.pipe, i.now, i.drawn);
  }

  lemma {:induction false} HangUpSays(trace: seq<StyleWriterEvent>, clean: bool, clock: bool)
    ensures var after := trace + Said(Hangs(clean, clock));
            && after[|after| - 1] == JobEnded(clean)
            && (!clean ==>
                  after == trace + [ToPrinter(PRINTER_RESET)] + (if clock then [FastClockDisable] else []) + [JobEnded(false)])
  {
  }

  /** A pipe that closes with no END_SESSION on it: the printer is reset, then the clock is switched off
      if it was on, then the job ends, not cleanly, and the role is free. */
  lemma {:induction false} VanishedClientIsCleanedUp(ts: seq<Told>, inputs: seq<Input>, n: nat)
    requires IsRun(ts, inputs) && n < |inputs| && ts[n].core.state.Piping?
    requires ClosesConn(inputs[n], ts[n].core.state.pipe)
    ensures ts[n + 1].core.state == Idle
    ensures !EndedSince(ts, inputs, n, ts[n].core.state.pipe) ==>
              ts[n + 1].trace == ts[n].trace + [ToPrinter(PRINTER_RESET)]
                + (if ts[n].core.fastClockOn then [FastClockDisable] else []) + [JobEnded(false)]
    ensures ts[n + 1].trace[|ts[n + 1].trace| - 1].JobEnded?
    ensures ts[n + 1].trace[|ts[n + 1].trace| - 1].clean ==> EndedSince(ts, inputs, n, ts[n].core.state.pipe)
  {
    var c := ts[n].core;
    assert IsStep(ts[n], inputs[n], ts[n + 1]);
    if c.state.killSeen { KillSeenMeansEnded(ts, inputs, n); }
    ClosedSays(ts[n], inputs[n]);
    HangUpSays(ts[n].trace, c.state.killSeen, c.fastClockOn);
  }

  // ---- names --------------------------------------------------------------------------------------------

  predicate Stages(i: Input, conn: u16, name: seq<byte>) {
    i.Adsp? && i.ev.Attention? && i.ev.code == ATTN_SET_NAME && i.ev.conn == conn && NameIn(i.ev.data) == Some(name)
  }

  /** The name was staged on the connection, which has not closed since. */
  predicate StagedSince(inputs: seq<Input>, n: nat, conn: u16, name: seq<byte>)
    requires n <= |inputs|
  {
    exists j :: 0 <= j < n && Stages(inputs[j], conn, name) && forall k :: j < k < n ==> !ClosesConn(inputs[k], conn)
  }

  lemma {:induction false} StagedStays(inputs: seq<Input>, n: nat, conn: u16, name: seq<byte>)
    requires n < |inputs|
    requires Stages(inputs[n], conn, name) || (StagedSince(inputs, n, conn, name) && !ClosesConn(inputs[n], conn))
    ensures StagedSince(inputs, n + 1, conn, name)
  {
    if !Stages(inputs[n], conn, name) {
      var j :| 0 <= j < n && Stages(inputs[j], conn, name) && forall k :: j < k < n ==> !ClosesConn(inputs[k], conn);
      assert forall k :: j < k < n + 1 ==> !ClosesConn(inputs[k], conn);
    }
  }

  lemma {:induction false} PendingEffects(c: Core, remote: Option<Address>, conn: u16, code: u16, data: seq<byte>,
      now: Micros)
    ensures var p := Effects(c, remote, conn, code, data, now).core.pendingName;
            p == c.pendingName || p == None || (code == ATTN_SET_NAME && NameIn(data).Some? && p == Some((conn, NameIn(data).value)))
  {
  }

  /** A pending name is new from this step, or was pending before and its connection did not close. */
  lemma {:induction false} PendingClosed(c: Core, conn: u16, now: Micros, drawn: u16)
    ensures var p := TakeClosed(c, conn, now, drawn).core.pendingName;
            (p == c.pendingName && (p.Some? ==> p.value.0 != conn)) || p == None
  {
  }

  lemma {:induction false} PendingOthers(c: Core, i: Input)
    requires !(i.Adsp? && i.ev.Attention?)
    ensures var p := After(c, i).core.pendingName;
            (p == c.pendingName && (p.Some? ==> !ClosesConn(i, p.value.0))) || p == None
  {
    if i.Adsp? && i.ev.Closed? { PendingClosed(c, i.ev.conn, i.now, i.drawn); }
  }

  lemma {:induction false} PendingStep(c: Core, i: Input, conn: u16, name: seq<byte>)
    requires After(c, i).core.pendingName == Some((conn, name))
    ensures Stages(i, conn, name) || (c.pendingName == Some((conn, name)) && !ClosesConn(i, conn))
  {
    match i
    case Adsp(Attention(on, code, data), remote, now, _) => PendingEffects(c, remote, on, code, data, now);
    case _ => PendingOthers(c, i);
  }

  lemma {:induction false} PendingWasStaged(ts: seq<Told>, inputs: seq<Input>, n: nat)
    requires IsRun(ts, inputs) && n <= |inputs| && ts[n].core.pendingName.Some?
    ensures StagedSince(inputs, n, ts[n].core.pendingName.value.0, ts[n].core.pendingName.value.1)
  {
    var (conn, name) := ts[n].core.pendingName.value;
    if n > 0 {
      assert IsStep(ts[n - 1], inputs[n - 1], ts[n]);
      PendingStep(ts[n - 1].core, inputs[n - 1], conn, name);
      if !Stages(inputs[n - 1], conn, name) { PendingWasStaged(ts, inputs, n - 1); }
      StagedStays(inputs, n - 1, conn, name);
    }
  }

  lemma {:induction false} RenameStep(c: Core, i: Input, name: seq<byte>)
    requires Rename(name) in After(c, i).said
    ensures c.pendingName.Some? && c.pendingName.value.1 == name
    ensures i.Adsp? && i.ev.Attention? && i.ev.code == ATTN_END_SESSION && i.ev.conn == c.pendingName.value.0
  {
    StepIsATurn(c, i);
    assert TurnOf(c, i) == Names(name);
  }

  /** A rename comes only from END_SESSION, on the connection that staged that very name and has not
      closed since. */
  lemma {:induction false} RenamedAsStaged(ts: seq<Told>, inputs: seq<Input>, n: nat, name: seq<byte>)
    requires IsRun(ts, inputs) && n < |inputs| && Rename(name) in After(ts[n].core, inputs[n]).said
    ensures inputs[n].Adsp? && inputs[n].ev.Attention? && inputs[n].ev.code == ATTN_END_SESSION
    ensures StagedSince(inputs, n, inputs[n].ev.conn, name)
  {
    RenameStep(ts[n].core, inputs[n], name);
    PendingWasStaged(ts, inputs, n);
  }

  // ---- replies and timers ---------------------------------------------------------------------------------

  lemma {:induction false} RepliesAreNotEmpty(c: Core, remote: Option<Address>, conn: u16, code: u16, data: seq<byte>)
    ensures |ReplyTo(c, remote, conn, code, data)| >= 2
  {
  }

  /** Every attention is answered: whatever its code and data, exactly one reply, never empty, is written
      on the connection it came on, and nothing else happens on the wire but a withdrawn call-back. */
  lemma {:induction false} EveryAttentionIsAnswered(r: Role, conn: u16, code: u16, data: seq<byte>, now: Micros,
      drawn: u16)
    ensures exists reply: seq<byte> :: (
              && |reply| >= 2
              && var sent := AdspSpec.Send(r.endpoint, conn, reply, false);
                 var e := HandleAdspEvent(r, AdspSpec.Attention(conn, code, data), now, drawn).endpoint;
                 e == sent || (r.core.state.Connecting? && e == AdspSpec.AbandonOpen(sent, r.core.state.pending)))
  {
    RepliesAreNotEmpty(r.core, RemoteOf(r.endpoint, conn), conn, code, data);
    var reply := ReplyTo(r.core, RemoteOf(r.endpoint, conn), conn, code, data);
    assert AfterReply(r.endpoint, r.core, conn, code, data)
      == HandleAdspEvent(r, AdspSpec.Attention(conn, code, data), now, drawn).endpoint;
  }

  /** A handshake's deadline lies after the tick, except for a tick at the very deadline, which expires
      nothing: then the deadline has come and stays. */
  lemma {:induction false} DeadlineStaysOnlyWhenExact(c: Core, now: Micros)
    requires InHandshake(Expire(c, now).core)
    ensures Expire(c, now).core.stateSince + HANDSHAKE_TIMEOUT > now <==> now != c.stateSince + HANDSHAKE_TIMEOUT
  {
  }
}
