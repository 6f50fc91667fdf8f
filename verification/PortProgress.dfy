/** What a port must give back: bytes go out in full buffers until none is left, every event comes out
    once its bytes are written, and a printer with room asks for more. */
module PortProgress {
  import opened Words
  import opened PapSpec
  import opened PortSpec
  import AtpSpec
  import PortRuns

  /** A write takes a full buffer, or all there is. */
  lemma {:induction false} WritesAreFull(s: Port)
    ensures |NextWrite(s)| == WRITE_MAX || NextWrite(s) == s.toPrinter
    ensures |NextWrite(s)| <= WRITE_MAX && NextWrite(s) + TakeWrite(s).toPrinter == s.toPrinter
    ensures Held(TakeWrite(s)) == Held(s)
  {
  }

  /** The port after `n` writes in a row, each over before the next. */
  function AfterWrites(s: Port, n: nat): Port {
    if n == 0 then s else
    var t := TakeWrite(AfterWrites(s, n - 1));
    t.(writing := s.writing, writtenTotal := t.writtenTotal + (t.writing - s.writing))
  }

  lemma {:induction false} OneMoreBuffer(bytes: nat, n: nat)
    requires n > 0
    ensures var left := SaturatingSub(bytes, (n - 1) * WRITE_MAX);
            && SaturatingSub(bytes, n * WRITE_MAX) == left - Min(left, WRITE_MAX)
            && Min(bytes, n * WRITE_MAX) == Min(bytes, (n - 1) * WRITE_MAX) + Min(left, WRITE_MAX)
  {
    assert n * WRITE_MAX == (n - 1) * WRITE_MAX + WRITE_MAX;
  }

  /** Nothing waits for ever: so many writes as there are buffers of bytes empty the queue. */
  lemma {:induction false} WritesEmptyTheQueue(s: Port, n: nat)
    ensures |AfterWrites(s, n).toPrinter| == SaturatingSub(|s.toPrinter|, n * WRITE_MAX)
    ensures AfterWrites(s, n).writtenTotal == s.writtenTotal + Min(|s.toPrinter|, n * WRITE_MAX)
  {
    if n > 0 {
      WritesEmptyTheQueue(s, n - 1);
      WritesAreFull(AfterWrites(s, n - 1));
      OneMoreBuffer(|s.toPrinter|, n);
    }
  }

  /** No event is held back: in every state of every run, an event none of whose bytes is still waiting or
      being written is ready, and with nothing held all of them are. */
  lemma {:induction false} EventsComeOut(states: seq<PortRuns.State>, acts: seq<PortRuns.Action>, now: Micros, n: nat)
    requires PortRuns.IsRun(states, acts, now) && n <= |acts|
    ensures var s := states[n].port;
            && (Held(s) == 0 ==> forall i :: 0 <= i < |s.events| ==> s.events[i].0 <= s.writtenTotal)
            && (Held(s) == 0 && s.events != [] ==> EventReady(s))
            && forall i :: 0 <= i < |s.events| ==> s.events[i].0 <= s.writtenTotal + Held(s)
  {
    PortRuns.RunKeepsInv(states, acts, now, n);
    var s, h := states[n].port, states[n].h;
    MarksBound(h.said);
    forall i | 0 <= i < |s.events| ensures s.events[i].0 <= s.queuedTotal {
      assert PortRuns.Marks(h.said)[|h.reported| + i] == s.events[i];
    }
  }

  lemma {:induction false} MarksBound(said: seq<PapEvent>)
    ensures forall i :: 0 <= i < |PortRuns.Marks(said)| ==> PortRuns.Marks(said)[i].0 <= |PortRuns.Bytes(said)|
  {
    if said != [] { MarksBound(said[..|said| - 1]); }
  }

  /** A printer that holds nothing asks for more: with a session and no pull in flight, settling sends one. */
  lemma {:induction false} EmptyPortPulls(s: Port, now: Micros)
    requires s.role.events == [] && Held(s) == 0 && s.role.session.Some? && s.role.session.value.outstandingPull.None?
    requires AtpSpec.HasFreeTid(s.role.conn.pending)
    ensures var s' := Settle(s, now);
            s'.role.session.Some? && s'.role.session.value.outstandingPull.Some?
            && |s'.role.conn.outbox| == |s.role.conn.outbox| + 1
  {
    assert Sorted(s, []) == s;
  }
}
