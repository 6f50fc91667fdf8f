/** The StyleWriter role as the source writes it: an object that owns an ADSP endpoint and updates its
    fields in place. Every method is proved to do what `StyleWriterSpec` says. */
module StyleWriterModel {
  import opened Words
  import opened StyleWriterSpec
  import AdspSpec
  import opened AdspEndpointModel

  class StyleWriterRole {
    const endpoint: AdspEndpoint
    const fastClockSupported: bool
    var state: State
    var stateSince: Micros
    var events: seq<StyleWriterEvent>
    var pendingName: Option<(u16, seq<byte>)>
    var jobRequest: seq<byte>
    var jobStatusId: u16
    var jobStatus: seq<byte>
    var printerDrained: bool
    var dataMsgStart: bool
    var fastClockOn: bool

    function CoreState(): Core
      reads this
    {
      Core(state, stateSince, pendingName, jobRequest, jobStatusId, jobStatus, printerDrained, dataMsgStart,
           fastClockSupported, fastClockOn)
    }

    function Whole(): Role
      reads this, endpoint
    {
      Role(endpoint.State(), CoreState(), events)
    }

    constructor (fastClockSupported: bool)
      ensures fresh(endpoint) && endpoint.State() == AdspSpec.Endpoint(true, AdspSpec.DEFAULT_RECV_WINDOW, map[], map[], [], [])
      ensures StyleWriterSpec.Busy(CoreState()) == false && |jobRequest| == PRINT_REQUEST_LEN
      ensures CoreState() == Core(Idle, 0, None, Zeros(PRINT_REQUEST_LEN), 0, [], true, true, fastClockSupported, false)
      ensures events == []
    {
      endpoint := new AdspEndpoint();
      this.fastClockSupported := fastClockSupported;
      state, stateSince, events, pendingName := Idle, 0, [], None;
      jobRequest, jobStatusId, jobStatus := Zeros(PRINT_REQUEST_LEN), 0, [];
      printerDrained, dataMsgStart, fastClockOn := true, true, false;
      new;
      endpoint.SetListening(true);
    }

    method FollowPrinterClock(on: bool)
      modifies this
      ensures var o := FollowClock(old(CoreState()), on); CoreState() == o.core && events == old(events) + o.said
    {
      if on != fastClockOn {
        fastClockOn := on;
        events := events + [if on then FastClockEnable else FastClockDisable];
      }
    }

    method EnterState(s: State, now: Micros)
      modifies this`state, this`stateSince
      ensures CoreState() == Enter(old(CoreState()), s, now)
    {
      state, stateSince := s, now;
    }

    /** Take a print request from a Mac at `remote`. */
    method AcceptJob(conn: u16, remote: Address, data: seq<byte>, now: Micros)
      requires |data| >= 5
      modifies this
      ensures var o := StartJob(old(CoreState()), remote, conn, data, now);
              CoreState() == o.core && events == old(events) + o.said
    {
      var user := data[5..5 + Min(Min(data[4], USER_NAME_MAX), |data| - 5)];
      jobRequest, jobStatusId, jobStatus := RequestBlock(data), 0, [];
      EnterState(AwaitingCtrlClose(conn, remote, data[3]), now);
      events := events + [JobStarted(user)];
    }

    /** A print request: taken, or turned away. */
    method PrintRequest(conn: u16, data: seq<byte>, now: Micros)
      modifies this, endpoint
      ensures Handled(old(Whole()), conn, ATTN_PRINT_REQUEST, data, now)
    {
      var remote := RemoteOf(endpoint.State(), conn);
      var reply := if |data| < 5 then RESULT_REJECTED else if state != Idle then RESULT_BUSY
                   else if remote.None? then RESULT_REJECTED else RESULT_ACCEPTED;
      var taken := |data| >= 5 && state == Idle && remote.Some?;
      var _, _ := endpoint.Send(conn, reply, false);
      if taken { AcceptJob(conn, remote.value, data, now); }
    }

    method Withdraw(conn: u16, data: seq<byte>, now: Micros)
      modifies this, endpoint
      ensures Handled(old(Whole()), conn, ATTN_WITHDRAW, data, now)
    {
      var _, _ := endpoint.Send(conn, RESULT_ACCEPTED, false);
      if state.Idle? || state.Piping? { return; }
      if RequestBlock(data) == jobRequest {
        if state.Connecting? { endpoint.AbandonOpen(state.pending); }
        events := events + [JobEnded(true)];
        EnterState(Idle, now);
      }
    }

    method FinishSession(conn: u16, data: seq<byte>, now: Micros)
      modifies this, endpoint
      ensures Handled(old(Whole()), conn, ATTN_END_SESSION, data, now)
    {
      if state.Piping? && state.pipe == conn {
        var _, _ := endpoint.Send(conn, [0xFF, 0xFF], false);
        EnterState(Piping(conn, true), now);
      } else {
        if pendingName.Some? && pendingName.value.0 == conn {
          events := events + [Rename(pendingName.value.1)];
          pendingName := None;
        }
        var _, _ := endpoint.Send(conn, RESULT_ACCEPTED, false);
      }
    }

    /** The state the specification gives after an attention. */
    ghost predicate Handled(before: Role, conn: u16, code: u16, data: seq<byte>, now: Micros)
      reads this, endpoint
    {
      Whole() == StyleWriterSpec.HandleAdspEvent(before, AdspSpec.Attention(conn, code, data), now, 0)
    }

    method HandleAttention(conn: u16, code: u16, data: seq<byte>, now: Micros)
      modifies this, endpoint
      ensures Handled(old(Whole()), conn, code, data, now)
    {
      if code == ATTN_PRINT_REQUEST {
        PrintRequest(conn, data, now);
      } else if code == ATTN_WITHDRAW {
        Withdraw(conn, data, now);
      } else if code == ATTN_END_SESSION {
        FinishSession(conn, data, now);
      } else {
        SmallAttention(conn, code, data, now);
      }
    }

    predicate IsSmall(code: u16) {
      code != ATTN_PRINT_REQUEST && code != ATTN_WITHDRAW && code != ATTN_END_SESSION
    }

    /** The answer to an attention that asks or sets one thing. */
    method SmallReply(remote: Option<Address>, conn: u16, code: u16, data: seq<byte>) returns (reply: seq<byte>)
      requires IsSmall(code)
      ensures reply == ReplyTo(CoreState(), remote, conn, code, data)
    {
      reply := RESULT_ACCEPTED;
      if code == ATTN_OUTPUT_DRAINED {
        reply := if printerDrained then OUTPUT_DRAINED else OUTPUT_PENDING;
      } else if code == ATTN_JOB_COUNT || code == ATTN_QUEUE_POSITION {
        reply := WriteU16(if state != Idle then 1 else 0);
      } else if code == ATTN_FAST_CLOCK_QUERY {
        reply := if fastClockSupported then RESULT_ACCEPTED else FAST_CLOCK_UNAVAILABLE;
      } else if code == ATTN_JOB_USER {
        reply := JobUserReply(CoreState());
      } else if code == ATTN_JOB_STATUS {
        reply := JobStatusReply(CoreState());
      } else if code == ATTN_SERIAL_CONTROL_JF && !fastClockSupported {
        reply := SERIAL_CONTROL_REFUSED;
      }
    }

    /** What it sets. */
    method SmallEffect(remote: Option<Address>, conn: u16, code: u16, data: seq<byte>, now: Micros)
      requires IsSmall(code)
      modifies this
      ensures var o := Effects(old(CoreState()), remote, conn, code, data, now);
              CoreState() == o.core && events == old(events) + o.said
    {
      if code == ATTN_SERIAL_OPTIONS && fastClockSupported {
        FollowPrinterClock(data != [] && (data[0] / 0x40) % 2 == 1);
      } else if code == ATTN_SET_STATUS && |data| > 2 {
        var len := Min(Min(data[2], |data| - 3), JOB_STATUS_TEXT_LEN - 1);
        jobStatusId, jobStatus := ReadU16(data), data[3..][..len];
      } else if code == ATTN_SET_NAME {
        if data != [] && data[0] > 0 && |data| > data[0] as int {
          pendingName := Some((conn, data[1..1 + data[0] as int]));
        }
      } else if code == ATTN_SERIAL_CONTROL_JF && fastClockSupported {
        FollowPrinterClock(|data| >= 2 && data[..2] != [0, 0]);
      } else if code == ATTN_SERIAL_CONFIG {
        FollowPrinterClock(false);
      }
    }

    method SmallAttention(conn: u16, code: u16, data: seq<byte>, now: Micros)
      requires IsSmall(code)
      modifies this, endpoint
      ensures Handled(old(Whole()), conn, code, data, now)
    {
      var remote := RemoteOf(endpoint.State(), conn);
      var reply := SmallReply(remote, conn, code, data);
      var _, _ := endpoint.Send(conn, reply, false);
      SmallEffect(remote, conn, code, data, now);
    }

    method TakeData(conn: u16, data: seq<byte>, eom: bool)
      modifies this
      ensures var o := StyleWriterSpec.TakeData(old(CoreState()), conn, data, eom);
              CoreState() == o.core && events == old(events) + o.said
    {
      if !(state.Piping? && state.pipe == conn) || data == [] { return; }
      var wholeMessage := dataMsgStart && eom;
      dataMsgStart := eom;
      if wholeMessage && (data == [FAST_CLOCK] || data == [FAST_CLOCK_SW]) && !fastClockSupported { return; }
      events := events + [ToPrinter(data)];
    }

    /** The pipe has closed: reset the printer unless the client said it was done, and end the job. */
    method ClosePipe(now: Micros)
      requires state.Piping?
      modifies this
      ensures var o := PipeClosed(old(CoreState()), now); CoreState() == o.core && events == old(events) + o.said
    {
      var killSeen := state.killSeen;
      if !killSeen { events := events + [ToPrinter(PRINTER_RESET)]; }
      FollowPrinterClock(false);
      events := events + [JobEnded(killSeen)];
      EnterState(Idle, now);
    }

    method TakeClosed(conn: u16, now: Micros, drawn: u16)
      requires drawn != 0 && drawn !in endpoint.pendingOpens
      modifies this, endpoint
      ensures var o := StyleWriterSpec.TakeClosed(old(CoreState()), conn, now, drawn);
              CoreState() == o.core && events == old(events) + o.said
      ensures endpoint.State() == EndpointAfter(old(endpoint.State()), old(CoreState()), AdspSpec.Closed(conn), now, drawn)
    {
      if pendingName.Some? && pendingName.value.0 == conn { pendingName := None; }
      if state.AwaitingCtrlClose? && state.ctrl == conn {
        var dest := Address(state.macNode.network, state.macNode.node, state.dataSocket);
        var pending := endpoint.Connect(dest, now, drawn);
        EnterState(Connecting(pending), now);
      } else if state.Piping? && state.pipe == conn {
        ClosePipe(now);
      }
    }

    /** `drawn` is a random handle, not zero and not in use, for a call-back the event may bring on. */
    method HandleAdspEvent(ev: AdspSpec.AdspEvent, now: Micros, drawn: u16)
      requires drawn != 0 && drawn !in endpoint.pendingOpens
      modifies this, endpoint
      ensures Whole() == StyleWriterSpec.HandleAdspEvent(old(Whole()), ev, now, drawn)
    {
      match ev {
        case Opened(conn, _, inbound, _) =>
          if !inbound && (state.Connecting? || state.Piping?) {
            dataMsgStart := true;
            EnterState(Piping(conn, false), now);
          }
        case Attention(conn, code, data) => HandleAttention(conn, code, data, now);
        case Data(conn, data, eom) => TakeData(conn, data, eom);
        case Closed(conn) => TakeClosed(conn, now, drawn);
        case OpenFailed(conn) => if state.Connecting? && state.pending == conn { EnterState(Idle, now); }
        case AttentionAcked(_) =>
        case AttentionFailed(_) =>
      }
    }

    /** Free the role if a handshake has stalled. */
    method ExpireStalledHandshake(now: Micros)
      modifies this
      ensures Whole() == ExpireStalled(old(Whole()), now)
    {
      if (state.AwaitingCtrlClose? || state.Connecting?) && SaturatingSub(now, stateSince) > HANDSHAKE_TIMEOUT {
        events := events + [JobEnded(false)];
        EnterState(Idle, now);
      }
    }

    method PollEvent() returns (r: Option<StyleWriterEvent>)
      modifies this
      ensures old(events) == [] ==> r == None && Whole() == old(Whole())
      ensures old(events) != [] ==> r == Some(old(events)[0]) && Whole() == old(Whole()).(events := old(events)[1..])
    {
      if events == [] { return None; }
      r, events := Some(events[0]), events[1..];
    }
  }
}
