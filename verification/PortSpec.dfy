/** A PAP printer behind its byte port: what may be held in memory, and in what order bytes and
    events come out. */
module PortSpec {
  import opened Words
  import opened PapSpec
  import AtpSpec

  const WINDOW: nat := PULL_CAPACITY
  const WRITE_MAX: nat := 256

  datatype PrinterEvent = JobStarted | EndOfJob | JobEnded(clean: bool)

  datatype Port = Port(
    role: PapServer,
    toPrinter: seq<byte>,
    writing: nat,
    queuedTotal: nat,
    writtenTotal: nat,
    events: seq<(nat, PrinterEvent)>)

  function Announced(ev: PapEvent): PrinterEvent
    requires !ev.ToPrinter?
  {
    match ev
    case ConnectionOpened(_) => JobStarted
    case JobEof => EndOfJob
    case ConnectionClosed => JobEnded(true)
  }

  /** Bytes go to the queue; anything else is an event that follows the bytes queued so far. */
  function SortEvent(s: Port, ev: PapEvent): Port {
    if ev.ToPrinter?
    then s.(queuedTotal := s.queuedTotal + |ev.bytes|, toPrinter := s.toPrinter + ev.bytes)
    else s.(events := s.events + [(s.queuedTotal, Announced(ev))])
  }

  function Sorted(s: Port, evs: seq<PapEvent>): Port {
    if evs == [] then s else SortEvent(Sorted(s, evs[..|evs| - 1]), evs[|evs| - 1])
  }

  function Held(s: Port): nat {
    |s.toPrinter| + s.writing
  }

  /** Sort the role's events, then tell it how much room is left. */
  ghost function Settle(s: Port, now: Micros): Port {
    var t := Sorted(s, s.role.events);
    t.(role := SetSinkCredit(s.role.(events := []), SaturatingSub(WINDOW, Held(t)), now))
  }

  ghost function OnDatagram(s: Port, socket: u8, src: Address, q: AtpSpec.AtpPacket, now: Micros): Port {
    Settle(s.(role := PapSpec.HandleDatagram(s.role, socket, src, q, now)), now)
  }

  ghost function OnTick(s: Port, now: Micros): Port {
    Settle(s.(role := PapSpec.Poll(s.role, now)), now)
  }

  ghost function OnInput(s: Port, data: seq<byte>, now: Micros): Port {
    Settle(s.(role := QueueOutput(s.role, data, now)), now)
  }

  /** The bytes the next write to the port takes. */
  function NextWrite(s: Port): seq<byte> {
    s.toPrinter[..Min(|s.toPrinter|, WRITE_MAX)]
  }

  function TakeWrite(s: Port): Port {
    s.(toPrinter := s.toPrinter[|NextWrite(s)|..], writing := s.writing + |NextWrite(s)|)
  }

  /** A write of `n` bytes is over, however it ended. */
  ghost function WriteOver(s: Port, n: nat, now: Micros): Port
    requires n <= s.writing
  {
    Settle(s.(writing := s.writing - n, writtenTotal := s.writtenTotal + n), now)
  }

  predicate EventReady(s: Port) {
    s.events != [] && s.events[0].0 <= s.writtenTotal
  }

  function TakeEvent(s: Port): Port
    requires EventReady(s)
  {
    s.(events := s.events[1..])
  }
}
