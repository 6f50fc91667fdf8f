/** How much a receiver has to hold, across the core endpoint and the queue in front of it.

    The endpoint acknowledges a packet with the window that stood before the packet was counted;
    the queue sets the next window afterwards. So one packet more than the window can arrive, and
    never two. Side `a` of the network writes, messages or plain bytes; side `b` queues the bytes for
    a reader. An end-of-message takes sequence space, and so window, but no memory. */
module AdspMemory {
  import opened Words
  import opened AdspSpec
  import opened AdspStream
  import opened AdspNetwork
  import opened AdspWindow
  import opened AdspOffers

  // ---- the two layers together --------------------------------------------------------------------------

  /** The system, how many bytes `b`'s reader has taken, and whether `b`'s window has been set since
      the last packet was counted. */
  datatype Memory = Memory(sys: System, read: nat, settled: bool)

  /** The bytes handed over and not read. */
  function Held(m: Memory): int {
    ByteCount(m.sys.b.got) - m.read
  }

  datatype Step = AtA(act: Action) | AtB(act: Action) | Read(n: nat)

  /** No acknowledgement reaches side `a` after a later one: the link loses but does not reorder.
      Side `b` sets its window by the bytes it holds (or lower, for the
      sake of another connection) after every packet it takes, before anything else. */
  ghost predicate Moves(m: Memory, step: Step, m': Memory) {
    match step
    case AtA(act) =>
      && StepA(m.sys, m'.sys, act) && m' == m.(sys := m'.sys)
      && (act.Deliver? && IsStream(act.t.p) && Alive(m.sys.a) ==>
            OldestPos(Conn(m.sys.a), m.sys.a.tape) <= act.t.ackAt)
    case AtB(act) =>
      && StepB(m.sys, m'.sys, act) && m' == Memory(m'.sys, m.read, act.SetWindow? || (m.settled && !act.Deliver?))
      && (act.SetWindow? ==> Held(m) >= 0 && act.window <= WindowFor(Held(m)))
      && (!act.SetWindow? ==> m.settled)
    case Read(n) => n <= Held(m) && m' == m.(read := m.read + n)
  }

  ghost predicate IsMemoryRun(ms: seq<Memory>, steps: seq<Step>) {
    && |ms| == |steps| + 1
    && Init(ms[0].sys) && ms[0].read == 0 && ms[0].settled && ms[0].sys.b.ep.recvWindow <= RX_WINDOW
    && forall i :: 0 <= i < |steps| ==> Moves(ms[i], steps[i], ms[i + 1])
  }

  ghost predicate MemoryOk(m: Memory) {
    var k := m.read + LIMIT;
    && 0 <= Held(m) && ByteCount(m.sys.b.got) <= k
    && m.sys.b.ep.recvWindow <= RX_WINDOW
    && (m.settled ==> m.sys.b.ep.recvWindow == 0 || m.sys.b.ep.recvWindow + Held(m) <= RX_WINDOW)
    && SideWithin(m.sys.a, k)
    && (forall t :: t in m.sys.toA ==> OfferOk(t, m.sys.a.tape, k))
    && (forall t :: t in m.sys.toB ==> LoadOk(t, m.sys.a.tape, k))
  }

  lemma {:induction false} SenderSends(s: System, act: Action, k: int)
    requires Inv(s) && SenderReady(s.a, s.b, s.toB, s.toA, act, k)
    ensures SideWithin(Act(s.a, act), k)
    ensures forall t :: t in Sent(s.a, act) ==> LoadOk(t, Act(s.a, act).tape, k)
  {
    SenderBehaves(s.a, s.b, s.toB, s.toA, act, k);
    AllLoad(Act(s.a, act), EpAfter(s.a, act).outbox, k);
  }

  /** What was below a limit stays there as the tape grows. */
  lemma {:induction false} LimitsStay(t: Stamped, tape: seq<Token>, tape': seq<Token>, k: int)
    requires tape <= tape'
    ensures IsStream(t.p) ==> t.ackAt <= |tape| && OfferOk(t, tape, k) ==> OfferOk(t, tape', k)
    ensures !IsStream(t.p) && OfferOk(t, tape, k) ==> OfferOk(t, tape', k)
    ensures LoadOk(t, tape, k) ==> LoadOk(t, tape', k)
  {
    if t.ackAt <= |tape| { BytesBeforeStays(tape, tape', t.ackAt); }
    if First(t) + SeqLen(t.p) <= |tape| { BytesBeforeStays(tape, tape', First(t) + SeqLen(t.p)); }
  }

  /** Only side `a` and the packets on their way to `b` have changed. */
  lemma {:induction false} SenderKeeps(m: Memory, m': Memory, sent: set<Stamped>)
    requires MemoryOk(m) && m' == m.(sys := m.sys.(a := m'.sys.a, toB := m.sys.toB + sent))
    requires SideWithin(m'.sys.a, m.read + LIMIT) && m.sys.a.tape <= m'.sys.a.tape
    requires forall t :: t in m.sys.toA && IsStream(t.p) ==> t.ackAt <= |m.sys.a.tape|
    requires forall t :: t in sent ==> LoadOk(t, m'.sys.a.tape, m.read + LIMIT)
    ensures MemoryOk(m')
  {
    var k, tape, tape' := m.read + LIMIT, m.sys.a.tape, m'.sys.a.tape;
    forall t | t in m.sys.toA ensures OfferOk(t, tape', k) { LimitsStay(t, tape, tape', k); }
    forall t | t in m'.sys.toB ensures LoadOk(t, tape', k) {
      if t in m.sys.toB { LimitsStay(t, tape, tape', k); }
    }
  }

  lemma {:induction false} SenderStep(m: Memory, act: Action, m': Memory)
    requires Inv(m.sys) && MemoryOk(m) && Moves(m, AtA(act), m')
    ensures MemoryOk(m')
  {
    SenderSends(m.sys, act, m.read + LIMIT);
    SenderKeeps(m, m', Sent(m.sys.a, act));
  }

  /** What `b` sends after holding what the step brought: acknowledgement and window together stay
      at or below the limit. */
  lemma {:induction false} OffersStay(m: Memory, act: Action, m': Memory)
    requires Inv(m.sys) && MemoryOk(m) && Moves(m, AtB(act), m')
    ensures forall t :: t in Sent(m.sys.b, act) ==> OfferOk(t, m.sys.a.tape, m.read + LIMIT)
    ensures ByteCount(m'.sys.b.got) <= m.read + LIMIT && Held(m) <= Held(m') <= Held(m) + ADSP_MAX_DATA
    ensures m'.sys.b.ep.recvWindow == if act.SetWindow? then act.window else m.sys.b.ep.recvWindow
    ensures !act.Deliver? ==> Held(m') == Held(m)
  {
    var s, k := m.sys, m.read + LIMIT;
    var w := if act.SetWindow? then act.window else s.b.ep.recvWindow;
    StepAdvertises(s.b, s.a, s.toA, s.toB, act);
    GotGrows(s.b, s.a, s.toA, s.toB, act, k);
    if !act.Deliver? { OtherStepsHandNothing(s.b, s.a, s.toA, s.toB, act); }
    ActAdvances(s.b, s.a, s.toA, s.toB, act);
    WholePrefix(s.a.tape, Act(s.b, act).got);
    forall t | t in Sent(s.b, act) ensures OfferOk(t, s.a.tape, k) {
      var o :| o in EpAfter(s.b, act).outbox && o.0 == s.b.peerAddr && t == Stamp(Act(s.b, act), o.1);
      assert Advertises(o.1, w);
    }
  }

  lemma {:induction false} ReceiverStep(m: Memory, act: Action, m': Memory)
    requires Inv(m.sys) && MemoryOk(m) && Moves(m, AtB(act), m')
    ensures MemoryOk(m')
  {
    OffersStay(m, act, m');
  }

  lemma {:induction false} ReadStep(m: Memory, n: nat, m': Memory)
    requires MemoryOk(m) && Moves(m, Read(n), m')
    ensures MemoryOk(m')
  {
  }

  lemma {:induction false} MovesKeepInv(m: Memory, step: Step, m': Memory)
    requires Inv(m.sys) && Moves(m, step, m')
    ensures Inv(m'.sys)
  {
    if !step.Read? { NextKeepsInv(m.sys, m'.sys); }
  }

  lemma {:induction false} RunKeepsMemory(ms: seq<Memory>, steps: seq<Step>, n: nat)
    requires IsMemoryRun(ms, steps) && n <= |steps|
    ensures Inv(ms[n].sys) && MemoryOk(ms[n])
  {
    if n > 0 {
      RunKeepsMemory(ms, steps, n - 1);
      MovesKeepInv(ms[n - 1], steps[n - 1], ms[n]);
      match steps[n - 1] {
        case AtA(act) => SenderStep(ms[n - 1], act, ms[n]);
        case AtB(act) => ReceiverStep(ms[n - 1], act, ms[n]);
        case Read(k) => ReadStep(ms[n - 1], k, ms[n]);
      }
    }
  }

  /** The receive memory bound: in every state of every such run, the bytes handed over and not yet
      read are at most the window and one packet. */
  lemma {:induction false} ReceiveMemoryBound(ms: seq<Memory>, steps: seq<Step>, n: nat)
    requires IsMemoryRun(ms, steps) && n <= |steps|
    ensures 0 <= ByteCount(ms[n].sys.b.got) - ms[n].read <= RX_WINDOW + ADSP_MAX_DATA
  {
    RunKeepsMemory(ms, steps, n);
  }
}
