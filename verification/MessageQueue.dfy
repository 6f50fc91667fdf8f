/** The receive queue of an ADSP stream: bytes, and offsets at which messages end. */
module MessageQueue {
  import opened Words
  import AdspSpec
  import opened AdspStream

  const RX_WINDOW: nat := 4096
  /** Past this many bytes without an end a message can only be too long: the window has shut. */
  const SHUT: nat := RX_WINDOW - AdspSpec.ADSP_MAX_DATA

  datatype Queue = Queue(rx: seq<byte>, eoms: seq<nat>, skipping: bool, closed: bool)

  datatype MessageResult = Message(data: seq<byte>) | TooLong | ClosedResult

  predicate Offsets(rx: seq<byte>, eoms: seq<nat>) {
    && (forall i :: 0 <= i < |eoms| ==> eoms[i] <= |rx|)
    && (forall i, j :: 0 <= i < j < |eoms| ==> eoms[i] <= eoms[j])
  }

  predicate WellFormed(q: Queue) {
    Offsets(q.rx, q.eoms) && (q.skipping ==> q.rx == [] && q.eoms == [])
  }

  function Shifted(eoms: seq<nat>, n: nat): seq<nat>
    requires forall i :: 0 <= i < |eoms| ==> n <= eoms[i]
  {
    seq(|eoms|, i requires 0 <= i < |eoms| => eoms[i] - n)
  }

  // ---- the operations -----------------------------------------------------------------------------

  /** A Data event. The rest of a message being skipped is dropped; a closed stream takes nothing. */
  function Took(q: Queue, data: seq<byte>, eom: bool): Queue {
    if q.closed then q
    else if q.skipping then q.(skipping := !eom)
    else q.(rx := q.rx + data, eoms := if eom then q.eoms + [|q.rx| + |data|] else q.eoms)
  }

  /** Bytes up to the first end-of-message, or all of them. */
  function ToEnd(q: Queue): nat {
    if q.eoms == [] then |q.rx| else q.eoms[0]
  }

  predicate CanRead(q: Queue) {
    ToEnd(q) > 0 || q.eoms != []
  }

  function ReadBytes(q: Queue, len: nat): seq<byte>
    requires WellFormed(q)
  {
    q.rx[..Min(len, ToEnd(q))]
  }

  predicate ReadsEom(q: Queue, len: nat) {
    q.eoms != [] && q.eoms[0] <= len
  }

  function AfterRead(q: Queue, len: nat): Queue
    requires WellFormed(q)
  {
    var n := Min(len, ToEnd(q));
    var rest := Shifted(q.eoms, n);
    q.(rx := q.rx[n..], eoms := if ReadsEom(q, len) then rest[1..] else rest)
  }

  /** What a reader of whole messages gets now, if anything. */
  function MessageNow(q: Queue, len: nat): Option<MessageResult>
    requires WellFormed(q)
  {
    if q.eoms != [] then Some(if q.eoms[0] > len then TooLong else Message(q.rx[..q.eoms[0]]))
    else if q.closed then Some(ClosedResult)
    else if |q.rx| > len || |q.rx| > SHUT then Some(TooLong)
    else None
  }

  function AfterMessage(q: Queue, len: nat): Queue
    requires WellFormed(q)
  {
    if q.eoms != [] then q.(rx := q.rx[q.eoms[0]..], eoms := Shifted(q.eoms, q.eoms[0])[1..])
    else if q.closed then q
    else if |q.rx| > len || |q.rx| > SHUT then q.(rx := [], skipping := true)
    else q
  }

  // ---- the token stream it stands for ---------------------------------------------------------------

  /** The bytes with each end-of-message in its place. */
  function Stream(rx: seq<byte>, eoms: seq<nat>): seq<Token>
    requires Offsets(rx, eoms)
    decreases |eoms|
  {
    if eoms == [] then Bytes(rx) else
    Bytes(rx[..eoms[0]]) + [Eom] + Stream(rx[eoms[0]..], Shifted(eoms[1..], eoms[0]))
  }

  lemma {:induction false} StreamTakesBytes(rx: seq<byte>, eoms: seq<nat>, data: seq<byte>)
    requires Offsets(rx, eoms)
    ensures Offsets(rx + data, eoms) && Stream(rx + data, eoms) == Stream(rx, eoms) + Bytes(data)
    decreases |eoms|
  {
    if eoms == [] {
      assert Bytes(rx + data) == Bytes(rx) + Bytes(data);
    } else {
      var e := eoms[0];
      var rest := Shifted(eoms[1..], e);
      StreamTakesBytes(rx[e..], rest, data);
      assert (rx + data)[e..] == rx[e..] + data && (rx + data)[..e] == rx[..e];
      StreamUnfolds(rx, eoms, rx[..e], rx[e..], rest);
      StreamUnfolds(rx + data, eoms, rx[..e], rx[e..] + data, rest);
      MovesOut(Bytes(rx[..e]) + [Eom], Stream(rx[e..], rest), Bytes(data));
    }
  }

  lemma {:induction false} ShiftedMore(rx: seq<byte>, eoms: seq<nat>)
    requires Offsets(rx, eoms) && eoms != []
    ensures var e, more := eoms[0], eoms + [|rx|];
            && Offsets(rx, more) && more[0] == e
            && Shifted(more[1..], e) == Shifted(eoms[1..], e) + [|rx[e..]|]
  {
  }

  lemma {:induction false} StreamTakesEom(rx: seq<byte>, eoms: seq<nat>)
    requires Offsets(rx, eoms)
    ensures Offsets(rx, eoms + [|rx|]) && Stream(rx, eoms + [|rx|]) == Stream(rx, eoms) + [Eom]
    decreases |eoms|
  {
    var more := eoms + [|rx|];
    if eoms == [] {
      assert more == [|rx|] && rx[..|rx|] == rx;
      assert Stream(rx[|rx|..], Shifted(more[1..], |rx|)) == [];
    } else {
      var e := eoms[0];
      var rest := Shifted(eoms[1..], e);
      StreamTakesEom(rx[e..], rest);
      ShiftedMore(rx, eoms);
      StreamUnfolds(rx, eoms, rx[..e], rx[e..], rest);
      StreamUnfolds(rx, more, rx[..e], rx[e..], rest + [|rx[e..]|]);
      MovesOut(Bytes(rx[..e]) + [Eom], Stream(rx[e..], rest), [Eom]);
    }
  }

  /** Bytes leave the front of the stream while no end-of-message is passed. */
  lemma {:induction false} StreamGivesBytes(rx: seq<byte>, eoms: seq<nat>, n: nat)
    requires Offsets(rx, eoms) && n <= |rx| && (eoms != [] ==> n <= eoms[0])
    ensures Offsets(rx[n..], Shifted(eoms, n))
    ensures Stream(rx, eoms) == Bytes(rx[..n]) + Stream(rx[n..], Shifted(eoms, n))
  {
    if eoms == [] {
      assert Bytes(rx) == Bytes(rx[..n]) + Bytes(rx[n..]);
    } else {
      var e := eoms[0];
      ShiftTwice(rx, eoms, n);
      SliceTwice(rx, n, e);
      StreamUnfolds(rx, eoms, rx[..e], rx[e..], Shifted(eoms[1..], e));
      StreamUnfolds(rx[n..], Shifted(eoms, n), rx[n..e], rx[e..], Shifted(eoms[1..], e));
      FrontSplits(rx[..n], rx[n..e], Stream(rx[e..], Shifted(eoms[1..], e)));
    }
  }

  lemma {:induction false} ShiftTwice(rx: seq<byte>, eoms: seq<nat>, n: nat)
    requires Offsets(rx, eoms) && eoms != [] && n <= eoms[0]
    ensures var rest := Shifted(eoms, n);
            && Offsets(rx[n..], rest) && rest[0] == eoms[0] - n
            && Shifted(rest[1..], rest[0]) == Shifted(eoms[1..], eoms[0])
  {
  }

  lemma {:induction false} SliceTwice(rx: seq<byte>, n: nat, e: nat)
    requires n <= e <= |rx|
    ensures rx[n..][..e - n] == rx[n..e] && rx[n..][e - n..] == rx[e..] && rx[..e] == rx[..n] + rx[n..e]
  {
  }

  lemma {:induction false} StreamUnfolds(rx: seq<byte>, eoms: seq<nat>, head: seq<byte>, tail: seq<byte>,
      rest: seq<nat>)
    requires Offsets(rx, eoms) && eoms != []
    requires rx[..eoms[0]] == head && rx[eoms[0]..] == tail && Shifted(eoms[1..], eoms[0]) == rest
    ensures Offsets(tail, rest) && Stream(rx, eoms) == Bytes(head) + [Eom] + Stream(tail, rest)
  {
  }

  lemma {:induction false} FrontSplits(a: seq<byte>, b: seq<byte>, more: seq<Token>)
    ensures Bytes(a + b) + [Eom] + more == Bytes(a) + (Bytes(b) + [Eom] + more)
  {
    assert Bytes(a + b) == Bytes(a) + Bytes(b);
  }

  lemma {:induction false} StreamGivesEom(rx: seq<byte>, eoms: seq<nat>)
    requires Offsets(rx, eoms) && eoms != [] && eoms[0] == 0
    ensures Offsets(rx, eoms[1..]) && Stream(rx, eoms) == [Eom] + Stream(rx, eoms[1..])
  {
    assert rx[0..] == rx && Shifted(eoms[1..], 0) == eoms[1..];
    assert Bytes(rx[..0]) == [];
  }

  function StreamOf(q: Queue): seq<Token>
    requires WellFormed(q)
  {
    Stream(q.rx, q.eoms)
  }

  /** A Data event appends its tokens, unless they belong to a message being skipped. */
  lemma {:induction false} TookAppends(q: Queue, data: seq<byte>, eom: bool)
    requires WellFormed(q)
    ensures WellFormed(Took(q, data, eom))
    ensures StreamOf(Took(q, data, eom)) ==
              if q.closed || q.skipping then StreamOf(q) else StreamOf(q) + Tokens(data, eom)
  {
    if !q.closed && !q.skipping {
      StreamTakesBytes(q.rx, q.eoms, data);
      StreamTakesEom(q.rx + data, q.eoms);
    }
  }

  /** A read takes exactly its tokens off the front. */
  lemma {:induction false} ReadTakes(q: Queue, len: nat)
    requires WellFormed(q)
    ensures WellFormed(AfterRead(q, len))
    ensures StreamOf(q) == Tokens(ReadBytes(q, len), ReadsEom(q, len)) + StreamOf(AfterRead(q, len))
  {
    var n := Min(len, ToEnd(q));
    StreamGivesBytes(q.rx, q.eoms, n);
    var rest := Shifted(q.eoms, n);
    if ReadsEom(q, len) {
      StreamGivesEom(q.rx[n..], rest);
      MovesOut(Bytes(q.rx[..n]), [Eom], Stream(q.rx[n..], rest[1..]));
    } else {
      assert Bytes(q.rx[..n]) + [] == Bytes(q.rx[..n]);
    }
  }

  /** What a message read takes off the front: a whole message, or all there is of one too long. */
  function Discards(q: Queue, len: nat): seq<Token>
    requires WellFormed(q)
  {
    if q.eoms != [] then Tokens(q.rx[..q.eoms[0]], true)
    else if !q.closed && (|q.rx| > len || |q.rx| > SHUT) then Bytes(q.rx)
    else []
  }

  lemma {:induction false} MessageTakes(q: Queue, len: nat)
    requires WellFormed(q)
    ensures WellFormed(AfterMessage(q, len))
    ensures StreamOf(q) == Discards(q, len) + StreamOf(AfterMessage(q, len))
  {
    if q.eoms != [] {
      StreamGivesBytes(q.rx, q.eoms, q.eoms[0]);
      StreamGivesEom(q.rx[q.eoms[0]..], Shifted(q.eoms, q.eoms[0]));
    }
  }

  // ---- runs -----------------------------------------------------------------------------------------

  datatype Op = Data(data: seq<byte>, eom: bool) | Close | Read(len: nat) | ReadMessage(len: nat)

  /** A message read that returned: what it returned, and the buffer it was given. */
  datatype Outcome = Outcome(result: MessageResult, len: nat)

  /** `arrived` is what Data events brought, `taken` what `read_with_eom` returned, `gone` everything
      that has left the queue, and `outcomes` what `read_message` returned before the close. */
  datatype Run = Run(q: Queue, arrived: seq<Token>, taken: seq<Token>, gone: seq<Token>, outcomes: seq<Outcome>)

  function Step(r: Run, op: Op): Run
    requires WellFormed(r.q)
  {
    match op
    case Data(data, eom) =>
      if r.q.closed then r else
      var t := r.(q := Took(r.q, data, eom), arrived := r.arrived + Tokens(data, eom));
      if r.q.skipping then t.(gone := r.gone + Tokens(data, eom)) else t
    case Close => r.(q := r.q.(closed := true))
    case Read(len) =>
      if len == 0 || !CanRead(r.q) then r else
      var read := Tokens(ReadBytes(r.q, len), ReadsEom(r.q, len));
      r.(q := AfterRead(r.q, len), taken := r.taken + read, gone := r.gone + read)
    case ReadMessage(len) =>
      var now := MessageNow(r.q, len);
      var t := r.(q := AfterMessage(r.q, len), gone := r.gone + Discards(r.q, len));
      if now.None? || now == Some(ClosedResult) then t
      else t.(outcomes := r.outcomes + [Outcome(now.value, len)])
  }

  lemma {:induction false} StepWellFormed(r: Run, op: Op)
    requires WellFormed(r.q)
    ensures WellFormed(Step(r, op).q)
  {
    match op
    case Data(data, eom) => TookAppends(r.q, data, eom);
    case Read(len) => ReadTakes(r.q, len);
    case ReadMessage(len) => MessageTakes(r.q, len);
    case Close =>
  }

  const Empty: Run := Run(Queue([], [], false, false), [], [], [], [])

  ghost function After(ops: seq<Op>): (r: Run)
    ensures WellFormed(r.q)
  {
    if ops == [] then Empty else
    var before := After(ops[..|ops| - 1]);
    StepWellFormed(before, ops[|ops| - 1]);
    Step(before, ops[|ops| - 1])
  }

  lemma {:induction false} StepConserves(r: Run, op: Op)
    requires WellFormed(r.q) && r.gone + StreamOf(r.q) == r.arrived
    ensures WellFormed(Step(r, op).q)
    ensures var t := Step(r, op); t.gone + StreamOf(t.q) == t.arrived
  {
    match op
    case Data(data, eom) => DataConserves(r, data, eom);
    case Read(len) =>
      ReadTakes(r.q, len);
      MovesOut(r.gone, Tokens(ReadBytes(r.q, len), ReadsEom(r.q, len)), StreamOf(AfterRead(r.q, len)));
    case ReadMessage(len) =>
      MessageTakes(r.q, len);
      MovesOut(r.gone, Discards(r.q, len), StreamOf(AfterMessage(r.q, len)));
    case Close =>
  }

  lemma {:induction false} MovesOut(gone: seq<Token>, front: seq<Token>, rest: seq<Token>)
    ensures gone + (front + rest) == gone + front + rest
  {
  }

  lemma {:induction false} DataConserves(r: Run, data: seq<byte>, eom: bool)
    requires WellFormed(r.q) && r.gone + StreamOf(r.q) == r.arrived
    ensures WellFormed(Step(r, Data(data, eom)).q)
    ensures var t := Step(r, Data(data, eom)); t.gone + StreamOf(t.q) == t.arrived
  {
    TookAppends(r.q, data, eom);
    if r.q.skipping {
      assert r.gone + [] == r.gone;
      assert r.gone + Tokens(data, eom) + [] == r.gone + Tokens(data, eom);
    } else {
      MovesOut(r.gone, StreamOf(r.q), Tokens(data, eom));
    }
  }

  /** Whatever mix of reads: everything that arrived has left the queue or is still in it, in order. */
  lemma {:induction false} QueueConserves(ops: seq<Op>)
    ensures After(ops).gone + StreamOf(After(ops).q) == After(ops).arrived
  {
    if ops != [] {
      QueueConserves(ops[..|ops| - 1]);
      StepConserves(After(ops[..|ops| - 1]), ops[|ops| - 1]);
    }
  }

  predicate OnlyStreamReads(ops: seq<Op>) {
    forall i :: 0 <= i < |ops| ==> !ops[i].ReadMessage?
  }

  predicate OnlyMessageReads(ops: seq<Op>) {
    forall i :: 0 <= i < |ops| ==> !ops[i].Read?
  }

  lemma {:induction false} StreamReadsAreAll(ops: seq<Op>)
    requires OnlyStreamReads(ops)
    ensures After(ops).taken == After(ops).gone && !After(ops).q.skipping
  {
    if ops != [] { StreamReadsAreAll(ops[..|ops| - 1]); }
  }

  /** Reads of any sizes through `read_with_eom` return exactly the stream that arrived, ends of
      messages included; the rest is still queued. */
  lemma {:induction false} StreamReadsAreTheStream(ops: seq<Op>)
    requires OnlyStreamReads(ops)
    ensures After(ops).taken + StreamOf(After(ops).q) == After(ops).arrived
  {
    StreamReadsAreAll(ops);
    QueueConserves(ops);
  }

  // ---- whole messages ---------------------------------------------------------------------------------

  /** The bytes after the last end-of-message. */
  function Partial(ts: seq<Token>): seq<byte> {
    if ts == [] then [] else
    match ts[|ts| - 1]
    case Eom => []
    case Byte(b) => Partial(ts[..|ts| - 1]) + [b]
  }

  /** The complete messages of a stream. */
  function Messages(ts: seq<Token>): seq<seq<byte>> {
    if ts == [] then [] else
    var front := ts[..|ts| - 1];
    if ts[|ts| - 1] == Eom then Messages(front) + [Partial(front)] else Messages(front)
  }

  lemma {:induction false} MoreBytes(ts: seq<Token>, data: seq<byte>)
    ensures Partial(ts + Bytes(data)) == Partial(ts) + data && Messages(ts + Bytes(data)) == Messages(ts)
    decreases |data|
  {
    if data == [] {
      assert ts + Bytes(data) == ts;
    } else {
      var front := data[..|data| - 1];
      MoreBytes(ts, front);
      assert (ts + Bytes(data))[..|ts + Bytes(data)| - 1] == ts + Bytes(front);
      assert data == front + [data[|data| - 1]];
    }
  }

  lemma {:induction false} OneEnd(ts: seq<Token>)
    ensures Partial(ts + [Eom]) == [] && Messages(ts + [Eom]) == Messages(ts) + [Partial(ts)]
  {
    assert (ts + [Eom])[..|ts|] == ts;
  }

  lemma {:induction false} MoreTokens(ts: seq<Token>, data: seq<byte>, eom: bool)
    ensures Messages(ts + Tokens(data, eom)) == Messages(ts) + (if eom then [Partial(ts) + data] else [])
    ensures Partial(ts + Tokens(data, eom)) == if eom then [] else Partial(ts) + data
  {
    MoreBytes(ts, data);
    if eom {
      OneEnd(ts + Bytes(data));
      assert ts + Tokens(data, eom) == ts + Bytes(data) + [Eom];
    } else {
      assert Tokens(data, eom) == Bytes(data);
    }
  }

  /** Messages of a prefix are the first messages of the whole. */
  lemma {:induction false} FirstMessages(ts: seq<Token>, more: seq<Token>)
    ensures Messages(ts) <= Messages(ts + more)
    decreases |more|
  {
    if more == [] {
      assert ts + more == ts;
    } else {
      FirstMessages(ts, more[..|more| - 1]);
      assert (ts + more)[..|ts + more| - 1] == ts + more[..|more| - 1];
    }
  }

  predicate TooLongFor(bytes: nat, len: nat) {
    bytes > len || bytes > SHUT
  }

  /** The outcome is right for the message: exactly it, or that it is too long for the reader. */
  predicate Fair(o: Outcome, message: seq<byte>) {
    match o.result
    case Message(data) => data == message && |data| <= o.len
    case TooLong => TooLongFor(|message|, o.len)
    case ClosedResult => false
  }

  /** One outcome for each message gone, in order; and one already for a message being skipped. */
  predicate Accounted(r: Run) {
    var done := Messages(r.gone);
    && |r.outcomes| == |done| + (if r.q.skipping then 1 else 0)
    && (forall i :: 0 <= i < |done| ==> Fair(r.outcomes[i], done[i]))
    && (if r.q.skipping
        then r.outcomes[|done|].result == TooLong && TooLongFor(|Partial(r.gone)|, r.outcomes[|done|].len)
        else Partial(r.gone) == [])
  }

  lemma {:induction false} SkippingAccounts(r: Run, data: seq<byte>, eom: bool)
    requires WellFormed(r.q) && Accounted(r) && r.q.skipping && !r.q.closed
    ensures Accounted(Step(r, Data(data, eom)))
  {
    MoreTokens(r.gone, data, eom);
  }

  lemma {:induction false} WholeMessageAccounts(r: Run, len: nat)
    requires WellFormed(r.q) && Accounted(r) && r.q.eoms != []
    ensures Accounted(Step(r, ReadMessage(len)))
  {
    MoreTokens(r.gone, r.q.rx[..r.q.eoms[0]], true);
  }

  lemma {:induction false} PartialMessageAccounts(r: Run, len: nat)
    requires WellFormed(r.q) && Accounted(r) && r.q.eoms == [] && !r.q.closed
    requires |r.q.rx| > len || |r.q.rx| > SHUT
    ensures Accounted(Step(r, ReadMessage(len)))
  {
    MoreTokens(r.gone, r.q.rx, false);
    assert Tokens(r.q.rx, false) == Bytes(r.q.rx);
  }

  lemma {:induction false} MessageAccounts(r: Run, len: nat)
    requires WellFormed(r.q) && Accounted(r)
    ensures Accounted(Step(r, ReadMessage(len)))
  {
    if r.q.eoms != [] {
      WholeMessageAccounts(r, len);
    } else if !r.q.closed && (|r.q.rx| > len || |r.q.rx| > SHUT) {
      PartialMessageAccounts(r, len);
    } else {
      assert r.gone + [] == r.gone;
    }
  }

  lemma {:induction false} MessageReadsAccounted(ops: seq<Op>)
    requires OnlyMessageReads(ops)
    ensures Accounted(After(ops))
  {
    if ops != [] {
      var front, op := ops[..|ops| - 1], ops[|ops| - 1];
      MessageReadsAccounted(front);
      var r := After(front);
      match op {
        case Data(data, eom) => if r.q.skipping && !r.q.closed { SkippingAccounts(r, data, eom); }
        case ReadMessage(len) => MessageAccounts(r, len);
        case _ =>
      }
    }
  }

  /** Each end-of-message still queued is one complete message more. */
  lemma {:induction false} QueuedMessages(ts: seq<Token>, rx: seq<byte>, eoms: seq<nat>)
    requires Offsets(rx, eoms)
    ensures |Messages(ts + Stream(rx, eoms))| == |Messages(ts)| + |eoms|
    decreases |eoms|
  {
    if eoms == [] {
      MoreBytes(ts, rx);
    } else {
      var e, rest := eoms[0], Shifted(eoms[1..], eoms[0]);
      StreamUnfolds(rx, eoms, rx[..e], rx[e..], rest);
      MoreTokens(ts, rx[..e], true);
      QueuedMessages(ts + Tokens(rx[..e], true), rx[e..], rest);
      MovesOut(ts, Bytes(rx[..e]) + [Eom], Stream(rx[e..], rest));
    }
  }

  /** A reader of whole messages gets one result for each message that has arrived, but for those
      still queued in full, and in order: the exact message, or too long; and too long only for a
      message longer than its buffer or than the window can hold. The one result there can be beyond
      these is a too long for the message still being thrown away. */
  lemma {:induction false} OneResultPerMessage(ops: seq<Op>)
    requires OnlyMessageReads(ops)
    ensures var r := After(ops);
            var done := |Messages(r.arrived)| - |r.q.eoms|;
            && 0 <= done == |Messages(r.gone)|
            && |r.outcomes| == done + (if r.q.skipping then 1 else 0)
            && (forall i :: 0 <= i < done ==> Fair(r.outcomes[i], Messages(r.arrived)[i]))
            && (r.q.skipping ==>
                  r.outcomes[done].result == TooLong && TooLongFor(|Partial(r.gone)|, r.outcomes[done].len))
  {
    var r := After(ops);
    MessageReadsAccounted(ops);
    QueueConserves(ops);
    FirstMessages(r.gone, StreamOf(r.q));
    QueuedMessages(r.gone, r.q.rx, r.q.eoms);
  }

  // ---- the queue as the source keeps it -------------------------------------------------------------------

  class Conn {
    var rx: seq<byte>
    var eoms: seq<nat>
    var skipping: bool
    var closed: bool

    function State(): Queue
      reads this
    {
      Queue(rx, eoms, skipping, closed)
    }

    ghost predicate Valid()
      reads this
    {
      WellFormed(State())
    }

    constructor ()
      ensures Valid() && State() == Empty.q
    {
      rx, eoms, skipping, closed := [], [], false, false;
    }

    method TakeData(data: seq<byte>, eom: bool)
      requires Valid()
      modifies this
      ensures Valid() && State() == Took(old(State()), data, eom)
    {
      TookAppends(State(), data, eom);
      if closed { return; }
      if skipping {
        skipping := !eom;
      } else {
        rx := rx + data;
        if eom { eoms := eoms + [|rx|]; }
      }
    }

    /** Move every offset back over `n` bytes read. */
    method ShiftOffsets(n: nat)
      requires forall i :: 0 <= i < |eoms| ==> n <= eoms[i]
      modifies this`eoms
      ensures eoms == Shifted(old(eoms), n)
    {
      var i := 0;
      while i < |eoms|
        invariant i <= |eoms| == |old(eoms)|
        invariant forall j :: 0 <= j < i ==> eoms[j] == old(eoms)[j] - n
        invariant forall j :: i <= j < |eoms| ==> eoms[j] == old(eoms)[j]
      {
        eoms := eoms[i := eoms[i] - n];
        i := i + 1;
      }
    }

    static lemma {:induction false} ReadForm(q: Queue, len: nat)
      requires WellFormed(q)
      ensures WellFormed(AfterRead(q, len))
      ensures var rest := Shifted(q.eoms, Min(len, ToEnd(q))); ReadsEom(q, len) <==> rest != [] && rest[0] == 0
    {
    }

    /** `None` means nothing to read yet. */
    method ReadWithEom(len: nat) returns (r: Option<(seq<byte>, bool)>)
      requires Valid()
      modifies this
      ensures Valid()
      ensures len == 0 ==> State() == old(State()) && r == Some(([], false))
      ensures len > 0 && !CanRead(old(State())) ==>
                State() == old(State()) && r == (if old(closed) then Some(([], false)) else None)
      ensures len > 0 && CanRead(old(State())) ==>
                State() == AfterRead(old(State()), len)
                && r == Some((ReadBytes(old(State()), len), ReadsEom(old(State()), len)))
    {
      if len == 0 { return Some(([], false)); }
      ReadForm(State(), len);
      var toEnd := if eoms == [] then |rx| else eoms[0];
      if toEnd == 0 && eoms == [] { return if closed then Some(([], false)) else None; }
      var n := Min(len, toEnd);
      var data := rx[..n];
      rx := rx[n..];
      ShiftOffsets(n);
      var eom := eoms != [] && eoms[0] == 0;
      if eom { eoms := eoms[1..]; }
      r := Some((data, eom));
    }

    static lemma {:induction false} MessageForm(q: Queue, len: nat)
      requires WellFormed(q)
      ensures WellFormed(AfterMessage(q, len))
      ensures q.eoms != [] ==> Shifted(q.eoms, q.eoms[0])[1..] == Shifted(q.eoms[1..], q.eoms[0])
    {
    }

    method ReadMessage(len: nat) returns (r: Option<MessageResult>)
      requires Valid()
      modifies this
      ensures Valid() && r == MessageNow(old(State()), len) && State() == AfterMessage(old(State()), len)
    {
      MessageForm(State(), len);
      if eoms != [] {
        var end := eoms[0];
        eoms := eoms[1..];
        ShiftOffsets(end);
        var message := rx[..end];
        rx := rx[end..];
        return Some(if end > len then TooLong else Message(message));
      }
      if closed { return Some(ClosedResult); }
      if |rx| > len || |rx| > SHUT {
        rx := [];
        skipping := true;
        return Some(TooLong);
      }
      r := None;
    }
  }
}
