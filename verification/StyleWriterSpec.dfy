/** What each operation of the StyleWriter role does, as functions on values. */
module StyleWriterSpec {
  import opened Words
  import AdspSpec

  const ATTN_SERIAL_CONFIG: u16 := 0x0003
  const ATTN_SERIAL_OPTIONS: u16 := 0x0004
  const ATTN_FAST_CLOCK_QUERY: u16 := 0x0005
  const ATTN_OUTPUT_DRAINED: u16 := 0x0006
  const ATTN_SERIAL_CONTROL_JF: u16 := 0x0007
  const ATTN_SET_NAME: u16 := 0x0009
  const ATTN_SET_STATUS: u16 := 0x000A
  const ATTN_PRINT_REQUEST: u16 := 0x000B
  const ATTN_WITHDRAW: u16 := 0x000C
  const ATTN_QUEUE_POSITION: u16 := 0x000D
  const ATTN_JOB_USER: u16 := 0x000E
  const ATTN_JOB_STATUS: u16 := 0x0010
  const ATTN_JOB_COUNT: u16 := 0x0011
  const ATTN_END_SESSION: u16 := 0x0012

  const PRINT_REQUEST_LEN: nat := 70
  const USER_NAME_MAX: nat := 32
  const JOB_STATUS_TEXT_LEN: nat := 255
  const HANDSHAKE_TIMEOUT: Micros := 15_000_000

  const RESULT_ACCEPTED: seq<byte> := [0x00, 0x00]
  const RESULT_BUSY: seq<byte> := [0x00, 0x01]
  const RESULT_REJECTED: seq<byte> := [0xFF, 0xFF]
  const OUTPUT_DRAINED: seq<byte> := [0xFF, 0xFF]
  const OUTPUT_PENDING: seq<byte> := [0x00, 0x00]
  const FAST_CLOCK_UNAVAILABLE: seq<byte> := [0x00, 0xEF]
  const SERIAL_CONTROL_REFUSED: seq<byte> := [0xFF, 0xEF]
  const PRINTER_RESET: seq<byte> := [0x00, 0xFF, 0xFF, 0xFF, 0x49]
  const FAST_CLOCK: byte := 0x78
  const FAST_CLOCK_SW: byte := 0x68

  datatype StyleWriterEvent =
    | JobStarted(user: seq<byte>)
    | ToPrinter(bytes: seq<byte>)
    | JobEnded(clean: bool)
    | Rename(name: seq<byte>)
    | FastClockEnable
    | FastClockDisable

  datatype State =
    | Idle
    | AwaitingCtrlClose(ctrl: u16, macNode: Address, dataSocket: u8)
    | Connecting(pending: u16)
    | Piping(pipe: u16, killSeen: bool)

  /** The role's own state, apart from its connections. */
  datatype Core = Core(
    state: State,
    stateSince: Micros,
    pendingName: Option<(u16, seq<byte>)>,
    jobRequest: seq<byte>,
    jobStatusId: u16,
    jobStatus: seq<byte>,
    printerDrained: bool,
    dataMsgStart: bool,
    fastClockSupported: bool,
    fastClockOn: bool)

  datatype Role = Role(endpoint: AdspSpec.Endpoint, core: Core, events: seq<StyleWriterEvent>)

  /** The state after a step, and what the step says to the embedder. */
  datatype Outcome = Outcome(core: Core, said: seq<StyleWriterEvent>)

  predicate Busy(c: Core) {
    c.state != Idle
  }

  /** A handshake begun and not finished. */
  predicate InHandshake(c: Core) {
    c.state.AwaitingCtrlClose? || c.state.Connecting?
  }

  predicate OnPipe(c: Core, conn: u16) {
    c.state.Piping? && c.state.pipe == conn
  }

  function Zeros(n: nat): seq<byte> {
    seq(n, i => 0)
  }

  /** The first 70 bytes of a print request, zero padded. */
  function RequestBlock(data: seq<byte>): (block: seq<byte>)
    ensures |block| == PRINT_REQUEST_LEN
  {
    var n := Min(|data|, PRINT_REQUEST_LEN);
    data[..n] + Zeros(PRINT_REQUEST_LEN - n)
  }

  function Quiet(c: Core): Outcome {
    Outcome(c, [])
  }

  /** Tell the embedder to switch the port's clock, if that changes it. */
  function FollowClock(c: Core, on: bool): Outcome {
    if on == c.fastClockOn then Quiet(c)
    else Outcome(c.(fastClockOn := on), [if on then FastClockEnable else FastClockDisable])
  }

  function Enter(c: Core, s: State, now: Micros): Core {
    c.(state := s, stateSince := now)
  }

  // ---- attentions -----------------------------------------------------------------------------------

  /** A print request that is taken: long enough to name a socket, from a live connection, with no other
      job in hand. */
  predicate TakesJob(c: Core, remote: Option<Address>, data: seq<byte>) {
    |data| >= 5 && !Busy(c) && remote.Some?
  }

  function JobUserReply(c: Core): seq<byte> {
    (if Busy(c) then c.jobRequest else Zeros(PRINT_REQUEST_LEN)) + RESULT_ACCEPTED
  }

  function JobStatusReply(c: Core): seq<byte> {
    var id, text := if Busy(c) then c.jobStatusId else 0, if Busy(c) then c.jobStatus else [];
    var head := WriteU16(id) + [|text| % 0x100] + text;
    (if |head| < 2 + JOB_STATUS_TEXT_LEN then head + Zeros(2 + JOB_STATUS_TEXT_LEN - |head|)
     else head[..2 + JOB_STATUS_TEXT_LEN])
    + RESULT_ACCEPTED
  }

  function PrintReply(c: Core, remote: Option<Address>, data: seq<byte>): seq<byte> {
    if |data| < 5 then RESULT_REJECTED
    else if Busy(c) then RESULT_BUSY
    else if remote.None? then RESULT_REJECTED
    else RESULT_ACCEPTED
  }

  /** The in-band reply to an attention on a connection to `remote`. */
  function ReplyTo(c: Core, remote: Option<Address>, conn: u16, code: u16, data: seq<byte>): seq<byte> {
    if code == ATTN_PRINT_REQUEST then PrintReply(c, remote, data)
    else if code == ATTN_OUTPUT_DRAINED then if c.printerDrained then OUTPUT_DRAINED else OUTPUT_PENDING
    else if code == ATTN_END_SESSION then if OnPipe(c, conn) then [0xFF, 0xFF] else RESULT_ACCEPTED
    else if code == ATTN_JOB_COUNT || code == ATTN_QUEUE_POSITION then WriteU16(if Busy(c) then 1 else 0)
    else if code == ATTN_FAST_CLOCK_QUERY then
      if c.fastClockSupported then RESULT_ACCEPTED else FAST_CLOCK_UNAVAILABLE
    else if code == ATTN_JOB_USER then JobUserReply(c)
    else if code == ATTN_JOB_STATUS then JobStatusReply(c)
    else if code == ATTN_SERIAL_CONTROL_JF then
      if c.fastClockSupported then RESULT_ACCEPTED else SERIAL_CONTROL_REFUSED
    else RESULT_ACCEPTED
  }

  /** The user name in a print request. */
  function UserIn(data: seq<byte>): seq<byte>
    requires |data| >= 5
  {
    data[5..5 + Min(Min(data[4], USER_NAME_MAX), |data| - 5)]
  }

  function StartJob(c: Core, remote: Address, conn: u16, data: seq<byte>, now: Micros): Outcome
    requires |data| >= 5
  {
    Outcome(Enter(c, AwaitingCtrlClose(conn, remote, data[3]), now)
              .(jobRequest := RequestBlock(data), jobStatusId := 0, jobStatus := []),
            [JobStarted(UserIn(data))])
  }

  /** A job not yet called back can be withdrawn by whoever repeats its request. */
  predicate Withdraws(c: Core, data: seq<byte>) {
    InHandshake(c) && RequestBlock(data) == c.jobRequest
  }

  /** A name a SET_NAME attention carries, as a Pascal string; none if it is empty or cut short. */
  function NameIn(data: seq<byte>): Option<seq<byte>> {
    if data != [] && data[0] > 0 && |data| > data[0] as int then Some(data[1..1 + data[0] as int]) else None
  }

  function EndSession(c: Core, conn: u16, now: Micros): Outcome {
    if OnPipe(c, conn) then Quiet(Enter(c, Piping(conn, true), now))
    else if c.pendingName.Some? && c.pendingName.value.0 == conn then
      Outcome(c.(pendingName := None), [Rename(c.pendingName.value.1)])
    else Quiet(c)
  }

  function SetStatus(c: Core, data: seq<byte>): Core {
    if |data| <= 2 then c else
    var text := data[3..];
    var len := Min(Min(data[2], |text|), JOB_STATUS_TEXT_LEN - 1);
    c.(jobStatusId := ReadU16(data), jobStatus := text[..len])
  }

  /** What an attention does to the role itself. */
  function Effects(c: Core, remote: Option<Address>, conn: u16, code: u16, data: seq<byte>, now: Micros): Outcome {
    if code == ATTN_PRINT_REQUEST then
      if TakesJob(c, remote, data) then StartJob(c, remote.value, conn, data, now) else Quiet(c)
    else if code == ATTN_WITHDRAW then
      if Withdraws(c, data) then Outcome(Enter(c, Idle, now), [JobEnded(true)]) else Quiet(c)
    else if code == ATTN_END_SESSION then EndSession(c, conn, now)
    else if code == ATTN_SERIAL_OPTIONS then
      if c.fastClockSupported then FollowClock(c, data != [] && (data[0] / 0x40) % 2 == 1) else Quiet(c)
    else if code == ATTN_SET_STATUS then Quiet(SetStatus(c, data))
    else if code == ATTN_SET_NAME then
      Quiet(if NameIn(data).Some? then c.(pendingName := Some((conn, NameIn(data).value))) else c)
    else if code == ATTN_SERIAL_CONTROL_JF then
      if c.fastClockSupported then FollowClock(c, |data| >= 2 && data[..2] != [0, 0]) else Quiet(c)
    else if code == ATTN_SERIAL_CONFIG then FollowClock(c, false)
    else Quiet(c)
  }

  // ---- connection events ------------------------------------------------------------------------------

  predicate IsSwitch(data: seq<byte>) {
    data == [FAST_CLOCK] || data == [FAST_CLOCK_SW]
  }

  /** Job bytes pass; a switch to fast mode sent as a whole message does not, if the port cannot follow. */
  function TakeData(c: Core, conn: u16, data: seq<byte>, eom: bool): Outcome {
    if !OnPipe(c, conn) || data == [] then Quiet(c)
    else Outcome(c.(dataMsgStart := eom),
                 if c.dataMsgStart && eom && IsSwitch(data) && !c.fastClockSupported then [] else [ToPrinter(data)])
  }

  function PipeClosed(c: Core, now: Micros): Outcome
    requires c.state.Piping?
  {
    var clean := c.state.killSeen;
    var clock := FollowClock(c, false);
    Outcome(Enter(clock.core, Idle, now),
            (if clean then [] else [ToPrinter(PRINTER_RESET)]) + clock.said + [JobEnded(clean)])
  }

  /** The control connection of an accepted request has closed: time to call back. */
  predicate CallsBack(c: Core, conn: u16) {
    c.state.AwaitingCtrlClose? && c.state.ctrl == conn
  }

  /** `drawn` is the handle the call-back takes, if there is one. */
  function TakeClosed(c: Core, conn: u16, now: Micros, drawn: u16): Outcome {
    var t := if c.pendingName.Some? && c.pendingName.value.0 == conn then c.(pendingName := None) else c;
    if CallsBack(t, conn) then Quiet(Enter(t, Connecting(drawn), now))
    else if OnPipe(t, conn) then PipeClosed(t, now)
    else Quiet(t)
  }

  function TakeOpened(c: Core, conn: u16, inbound: bool, now: Micros): Core {
    if !inbound && (c.state.Connecting? || c.state.Piping?)
    then Enter(c.(dataMsgStart := true), Piping(conn, false), now) else c
  }

  /** `remote` is where the event's connection leads, while it lives. */
  function CoreAfter(c: Core, ev: AdspSpec.AdspEvent, remote: Option<Address>, now: Micros, drawn: u16): Outcome {
    match ev
    case Opened(conn, _, inbound, _) => Quiet(TakeOpened(c, conn, inbound, now))
    case Attention(conn, code, data) => Effects(c, remote, conn, code, data, now)
    case Data(conn, data, eom) => TakeData(c, conn, data, eom)
    case Closed(conn) => TakeClosed(c, conn, now, drawn)
    case OpenFailed(conn) => Quiet(if c.state == Connecting(conn) then Enter(c, Idle, now) else c)
    case _ => Quiet(c)
  }

  predicate Stalled(c: Core, now: Micros) {
    InHandshake(c) && SaturatingSub(now, c.stateSince) > HANDSHAKE_TIMEOUT
  }

  function Expire(c: Core, now: Micros): Outcome {
    if Stalled(c, now) then Outcome(Enter(c, Idle, now), [JobEnded(false)]) else Quiet(c)
  }

  // ---- the role with its connections --------------------------------------------------------------------

  function RemoteOf(e: AdspSpec.Endpoint, conn: u16): Option<Address> {
    if conn in e.connections then Some(e.connections[conn].remote) else None
  }

  /** A reply goes out; a call-back withdrawn is abandoned. */
  function AfterReply(e: AdspSpec.Endpoint, c: Core, conn: u16, code: u16, data: seq<byte>): AdspSpec.Endpoint {
    var sent := AdspSpec.Send(e, conn, ReplyTo(c, RemoteOf(e, conn), conn, code, data), false);
    if code == ATTN_WITHDRAW && Withdraws(c, data) && c.state.Connecting?
    then AdspSpec.AbandonOpen(sent, c.state.pending) else sent
  }

  function CallBack(e: AdspSpec.Endpoint, c: Core, now: Micros, drawn: u16): AdspSpec.Endpoint
    requires c.state.AwaitingCtrlClose?
  {
    AdspSpec.Connect(e, Address(c.state.macNode.network, c.state.macNode.node, c.state.dataSocket), now, drawn)
  }

  function EndpointAfter(e: AdspSpec.Endpoint, c: Core, ev: AdspSpec.AdspEvent, now: Micros,
      drawn: u16): AdspSpec.Endpoint {
    match ev
    case Attention(conn, code, data) => AfterReply(e, c, conn, code, data)
    case Closed(conn) => if CallsBack(c, conn) then CallBack(e, c, now, drawn) else e
    case _ => e
  }

  function HandleAdspEvent(r: Role, ev: AdspSpec.AdspEvent, now: Micros, drawn: u16): Role {
    var o := CoreAfter(r.core, ev, RemoteOf(r.endpoint, ev.conn), now, drawn);
    Role(EndpointAfter(r.endpoint, r.core, ev, now, drawn), o.core, r.events + o.said)
  }

  function ExpireStalled(r: Role, now: Micros): Role {
    var o := Expire(r.core, now);
    r.(core := o.core, events := r.events + o.said)
  }
}
