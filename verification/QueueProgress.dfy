/** What the receive queue must give a reader: whatever there is, as much as fits; and a reader that
    waits is never one the window has shut out. */
module QueueProgress {
  import opened Words
  import opened AdspStream
  import opened AdspWindow
  import opened MessageQueue
  import AdspSpec

  lemma {:induction false} StreamEmpty(rx: seq<byte>, eoms: seq<nat>)
    requires Offsets(rx, eoms)
    ensures Stream(rx, eoms) == [] <==> rx == [] && eoms == []
  {
    if eoms != [] {
      StreamUnfolds(rx, eoms, rx[..eoms[0]], rx[eoms[0]..], Shifted(eoms[1..], eoms[0]));
    }
  }

  /** What a read leaves when it stops short of its buffer and of a mark. */
  lemma {:induction false} ReadGoesOn(q: Queue, len: nat)
    requires WellFormed(q) && len > 0 && CanRead(q)
    ensures ReadsEom(q, len) || |ReadBytes(q, len)| == len || StreamOf(AfterRead(q, len)) == []
    ensures Tokens(ReadBytes(q, len), ReadsEom(q, len)) != []
  {
    ReadTakes(q, len);
    StreamEmpty(AfterRead(q, len).rx, AfterRead(q, len).eoms);
  }

  /** A stream read finds nothing if and only if nothing is queued; otherwise it gets something, and goes
      on to the end of a message, of its buffer, or of what there is. */
  lemma {:induction false} ReadGetsWhatThereIs(q: Queue, len: nat)
    requires WellFormed(q) && len > 0
    ensures CanRead(q) <==> StreamOf(q) != []
    ensures CanRead(q) ==>
              var data, eom := ReadBytes(q, len), ReadsEom(q, len);
              && Tokens(data, eom) != []
              && (eom || |data| == len || StreamOf(AfterRead(q, len)) == [])
  {
    StreamEmpty(q.rx, q.eoms);
    if CanRead(q) { ReadGoesOn(q, len); }
  }

  lemma {:induction false} OneMessage(data: seq<byte>)
    ensures Messages(Tokens(data, true)) == [data]
  {
    MoreTokens([], data, true);
    assert [] + Tokens(data, true) == Tokens(data, true);
    assert Partial([]) + data == data;
    assert Messages([]) + [data] == [data];
  }

  lemma {:induction false} FirstIsMessage(rx: seq<byte>, eoms: seq<nat>)
    requires Offsets(rx, eoms)
    ensures |Messages(Stream(rx, eoms))| == |eoms|
    ensures eoms != [] ==> Messages(Stream(rx, eoms))[0] == rx[..eoms[0]]
  {
    QueuedMessages([], rx, eoms);
    assert [] + Stream(rx, eoms) == Stream(rx, eoms);
    if eoms != [] {
      var e, rest := eoms[0], Shifted(eoms[1..], eoms[0]);
      StreamUnfolds(rx, eoms, rx[..e], rx[e..], rest);
      OneMessage(rx[..e]);
      FirstMessages(Tokens(rx[..e], true), Stream(rx[e..], rest));
    }
  }

  /** A message read gets the first whole message if there is one and it fits; waits if and only if there
      is none, the stream is open, and what there is of the next may yet be a message that fits. */
  lemma {:induction false} MessageReadIsPrompt(q: Queue, len: nat)
    requires WellFormed(q)
    ensures var ms := Messages(StreamOf(q));
            && (ms != [] && |ms[0]| <= len <==> MessageNow(q, len).Some? && MessageNow(q, len).value.Message?)
            && (ms != [] && |ms[0]| <= len ==> MessageNow(q, len) == Some(Message(ms[0])))
            && (MessageNow(q, len) == Some(ClosedResult) <==> ms == [] && q.closed)
            && (MessageNow(q, len).None? <==> ms == [] && !q.closed && |q.rx| <= len && |q.rx| <= SHUT)
  {
    FirstIsMessage(q.rx, q.eoms);
  }

  /** No deadlock with the window: a reader of whole messages waits only while the window its queue
      advertises is open, so the rest of the message can come. */
  lemma {:induction false} WaitingReaderHasWindow(q: Queue, len: nat)
    requires WellFormed(q) && MessageNow(q, len).None?
    ensures WindowFor(|q.rx|) >= AdspSpec.ADSP_MAX_DATA
    ensures forall held: nat :: WindowFor(held) == 0 <==> held > SHUT
  {
  }
}
