/** The printer port as the source writes it: the byte queue between the role and the port, and the
    synchronous steps of serving it. */
module PrinterPortModel {
  import opened Words
  import PapSpec
  import AtpSpec
  import opened PortSpec
  import opened PapServerModel

  class PortState {
    const role: PapServer
    var toPrinter: seq<byte>
    var writing: nat
    var queuedTotal: nat
    var writtenTotal: nat
    var events: seq<(nat, PrinterEvent)>

    predicate Valid() {
      role.Valid()
    }

    function State(): Port
      reads this, role, role.listener, role.connEp
    {
      Port(role.State(), toPrinter, writing, queuedTotal, writtenTotal, events)
    }

    /** As bound: nothing held, and the first window granted at once. */
    constructor (role: PapServer, now: Micros)
      requires role.Valid() && FreeTids(role.connEp.pending, 1)
      modifies role, role.connEp
      ensures this.role == role && Valid()
      ensures State() == PortSpec.Settle(Port(old(role.State()), [], 0, 0, 0, []), now)
    {
      this.role := role;
      toPrinter, writing, queuedTotal, writtenTotal, events := [], 0, 0, 0, [];
      new;
      Settle(now);
    }

    /** Sort the role's events, then tell it how much room is left. */
    method Settle(now: Micros)
      requires Valid() && FreeTids(role.connEp.pending, 1)
      modifies this, role, role.connEp
      ensures State() == PortSpec.Settle(old(State()), now)
    {
      ghost var all := role.events;
      ghost var s0 := State();
      ghost var i := 0;
      while role.events != []
        invariant i <= |all| && role.events == all[i..]
        invariant role.State() == s0.role.(events := all[i..])
        invariant State().(role := s0.role) == Sorted(s0, all[..i])
        decreases |role.events|
      {
        assert all[..i + 1][..i] == all[..i] && all[..i + 1] == all[..i] + [all[i]];
        var next := role.PollEvent();
        var ev := next.value;
        if ev.ToPrinter? {
          queuedTotal := queuedTotal + |ev.bytes|;
          toPrinter := toPrinter + ev.bytes;
        } else {
          events := events + [(queuedTotal, Announced(ev))];
        }
        i := i + 1;
      }
      assert all[..i] == all;
      var held := |toPrinter| + writing;
      role.SetSinkCredit(SaturatingSub(WINDOW, held), now);
    }

    method HandleDatagram(socket: u8, src: Address, q: AtpSpec.AtpPacket, now: Micros)
      requires Valid() && FreeTids(role.connEp.pending, 2)
      modifies this, role, role.listener, role.connEp
      ensures State() == OnDatagram(old(State()), socket, src, q, now)
    {
      ghost var pending := role.connEp.pending;
      OneMorePending(pending, pending, 1) by { assert pending.Keys <= pending.Keys + {0}; }
      role.HandleDatagram(socket, src, q, now);
      OneMorePending(pending, role.connEp.pending, 1);
      Settle(now);
    }

    method Poll(now: Micros)
      requires Valid() && FreeTids(role.connEp.pending, 3)
      modifies this, role, role.listener, role.connEp
      ensures State() == OnTick(old(State()), now)
    {
      ghost var pending := role.connEp.pending;
      OneMorePending(pending, pending, 2) by { assert pending.Keys <= pending.Keys + {0}; }
      assert FreeTids(pending, 1 + 2);
      role.Poll(now);
      Settle(now);
    }

    method Input(data: seq<byte>, now: Micros)
      requires Valid() && FreeTids(role.connEp.pending, 1)
      modifies this, role, role.connEp
      ensures State() == OnInput(old(State()), data, now)
    {
      role.QueueOutput(data, now);
      Settle(now);
    }

    /** Move up to one buffer of bytes into a write to the port. */
    method TakeWrite() returns (out: seq<byte>)
      modifies this
      ensures out == NextWrite(old(State())) && State() == PortSpec.TakeWrite(old(State()))
    {
      var n := Min(|toPrinter|, WRITE_MAX);
      out, toPrinter := toPrinter[..n], toPrinter[n..];
      writing := writing + n;
    }

    /** A write is over: its bytes go back to the window, whether or not it succeeded. */
    method WriteOver(n: nat, now: Micros)
      requires Valid() && n <= writing && FreeTids(role.connEp.pending, 1)
      modifies this, role, role.connEp
      ensures State() == PortSpec.WriteOver(old(State()), n, now)
    {
      writing := writing - n;
      writtenTotal := writtenTotal + n;
      Settle(now);
    }

    /** The next event whose preceding bytes have all been written. */
    method NextEvent() returns (r: Option<PrinterEvent>)
      modifies this
      ensures !EventReady(old(State())) ==> r == None && State() == old(State())
      ensures EventReady(old(State())) ==> r == Some(old(events)[0].1) && State() == TakeEvent(old(State()))
    {
      if events == [] || events[0].0 > writtenTotal { return None; }
      r, events := Some(events[0].1), events[1..];
    }
  }
}
