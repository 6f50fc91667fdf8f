/** The page data filters: run-length coding, then hexadecimal text, and the decoders a PostScript
    interpreter applies to undo them (RunLengthDecode and ASCIIHexDecode, section 3.13 of the
    PostScript Language Reference, third edition). */
module PackBits {
  import opened Words

  const EOD: byte := 128
  const LONGEST: nat := 128
  const BYTES_PER_LINE: nat := 38

  function Repeat(b: byte, n: nat): seq<byte> {
    seq(n, i => b)
  }

  // ---- the run-length decoder -----------------------------------------------------------------------

  /** The bytes a length byte below 128 or above it announces: a literal, or copies of one byte. */
  predicate HasGroup(s: seq<byte>) {
    s != [] && s[0] != EOD && |s| >= GroupLength(s[0])
  }

  function GroupLength(l: byte): nat {
    if l < 128 then l + 2 else 2
  }

  function GroupData(s: seq<byte>): seq<byte>
    requires HasGroup(s)
  {
    if s[0] < 128 then s[1..s[0] + 2] else Repeat(s[1], 257 - s[0])
  }

  /** The decoded data and what follows the end-of-data mark; none if the mark is missing. */
  function RunLengthDecode(s: seq<byte>): Option<(seq<byte>, seq<byte>)>
    decreases |s|
  {
    if s == [] then None
    else if s[0] == EOD then Some(([], s[1..]))
    else if !HasGroup(s) then None
    else
      match RunLengthDecode(s[GroupLength(s[0])..])
      case None => None
      case Some((data, rest)) => Some((GroupData(s) + data, rest))
  }

  /** A string of whole groups, with no end-of-data mark among its length bytes, and its data. */
  function Groups(s: seq<byte>): Option<seq<byte>>
    decreases |s|
  {
    if s == [] then Some([])
    else if !HasGroup(s) then None
    else
      match Groups(s[GroupLength(s[0])..])
      case None => None
      case Some(data) => Some(GroupData(s) + data)
  }

  lemma {:induction false} FirstGroupStays(s: seq<byte>, more: seq<byte>)
    requires HasGroup(s)
    ensures HasGroup(s + more) && GroupData(s + more) == GroupData(s)
    ensures (s + more)[GroupLength(s[0])..] == s[GroupLength(s[0])..] + more
  {
    if s[0] < 128 { assert (s + more)[1..s[0] + 2] == s[1..s[0] + 2]; }
  }

  lemma {:induction false} OneGroup(g: seq<byte>)
    requires HasGroup(g) && |g| == GroupLength(g[0])
    ensures Groups(g) == Some(GroupData(g))
  {
    assert g[GroupLength(g[0])..] == [];
    assert GroupData(g) + [] == GroupData(g);
  }

  lemma {:induction false} GroupsAppend(s: seq<byte>, g: seq<byte>)
    requires Groups(s).Some? && HasGroup(g) && |g| == GroupLength(g[0])
    ensures Groups(s + g) == Some(Groups(s).value + GroupData(g))
    decreases |s|
  {
    if s == [] {
      assert s + g == g && [] + GroupData(g) == GroupData(g);
      OneGroup(g);
    } else {
      var rest := s[GroupLength(s[0])..];
      GroupsAppend(rest, g);
      FirstGroupStays(s, g);
      FirstGroupFirst(s + g, rest + g);
      Reassociate(GroupData(s), Groups(rest).value, GroupData(g));
    }
  }

  lemma {:induction false} FirstGroupFirst(s: seq<byte>, rest: seq<byte>)
    requires HasGroup(s) && s[GroupLength(s[0])..] == rest && Groups(rest).Some?
    ensures Groups(s) == Some(GroupData(s) + Groups(rest).value)
  {
  }

  lemma {:induction false} GroupsDecode(s: seq<byte>)
    requires Groups(s).Some?
    ensures RunLengthDecode(s + [EOD]) == Some((Groups(s).value, []))
    decreases |s|
  {
    if s == [] {
      assert s + [EOD] == [EOD] && [EOD][1..] == [];
    } else {
      GroupsDecode(s[GroupLength(s[0])..]);
      FirstGroupStays(s, [EOD]);
    }
  }

  // ---- the run-length encoder -------------------------------------------------------------------------

  predicate AllEqual(data: seq<byte>, i: nat, n: nat) {
    i + n <= |data| && forall j :: i <= j < i + n ==> data[j] == data[i]
  }

  /** The byte at `i` comes at least three times. */
  predicate Triple(data: seq<byte>, i: nat) {
    i + 2 < |data| && data[i + 1] == data[i] && data[i + 2] == data[i]
  }

  /** How far the byte at `i` repeats, up to 128. */
  method RunAt(data: seq<byte>, i: nat) returns (run: nat)
    requires i < |data|
    ensures 1 <= run <= LONGEST && AllEqual(data, i, run)
    ensures run < LONGEST && i + run < |data| ==> data[i + run] != data[i]
    ensures run >= 3 <==> Triple(data, i)
  {
    run := 1;
    while i + run < |data| && data[i + run] == data[i] && run < LONGEST
      invariant 1 <= run <= LONGEST && AllEqual(data, i, run)
    {
      run := run + 1;
    }
  }

  /** The end of the literal that starts at `start`: it stops at 128 bytes, at the end of the data, or
      before a byte that comes at least three times. */
  method LiteralEnd(data: seq<byte>, start: nat) returns (i: nat)
    requires start < |data|
    ensures start < i <= |data| && i - start <= LONGEST
    ensures i - start < LONGEST && i < |data| ==> Triple(data, i)
  {
    i := start + 1;
    while i < |data| && i - start < LONGEST
      invariant start < i <= |data| && i - start <= LONGEST
    {
      var ahead := RunAt(data, i);
      if ahead >= 3 { return; }
      i := i + 1;
    }
  }

  /** What the encoder owes: one byte for a short literal, until a run of three or more repays it. */
  ghost predicate Owes(data: seq<byte>, i: nat, debt: nat) {
    debt == 0 || (debt == 1 && (i == |data| || Triple(data, i)))
  }

  function RunGroup(b: byte, run: nat): seq<byte>
    requires 2 <= run <= LONGEST
  {
    [257 - run, b]
  }

  function LiteralGroup(literal: seq<byte>): seq<byte>
    requires 1 <= |literal| <= LONGEST
  {
    [|literal| - 1] + literal
  }

  lemma {:induction false} RunAppends(out: seq<byte>, data: seq<byte>, i: nat, run: nat)
    requires 2 <= run <= LONGEST && i < |data| && AllEqual(data, i, run) && Groups(out) == Some(data[..i])
    ensures Groups(out + RunGroup(data[i], run)) == Some(data[..i + run])
  {
    GroupsAppend(out, RunGroup(data[i], run));
    assert data[..i + run] == data[..i] + Repeat(data[i], run);
  }

  lemma {:induction false} LiteralAppends(out: seq<byte>, data: seq<byte>, i: nat, end: nat)
    requires i < end <= |data| && end - i <= LONGEST && Groups(out) == Some(data[..i])
    ensures Groups(out + LiteralGroup(data[i..end])) == Some(data[..end])
  {
    var group := LiteralGroup(data[i..end]);
    GroupsAppend(out, group);
    assert group[1..end - i + 1] == data[i..end];
    assert data[..end] == data[..i] + data[i..end];
  }

  /** The size of the output: one byte over for every full literal, and for a short one still owed. */
  ghost predicate Booked(size: nat, data: seq<byte>, i: nat, full: nat, debt: nat) {
    size <= i + full + debt && 128 * full + debt <= i && Owes(data, i, debt)
  }

  /** The books after a run: a run of three or more repays the debt. */
  lemma {:induction false} RunBooks(data: seq<byte>, i: nat, run: nat, size: nat, full: nat, debt: nat)
    requires i < |data| && 2 <= run <= LONGEST && i + run <= |data| && Booked(size, data, i, full, debt)
    requires Triple(data, i) ==> run >= 3
    ensures Booked(size + 2, data, i + run, full, 0)
  {
  }

  /** The books after a literal: nothing was owed before it. */
  lemma {:induction false} LiteralBooks(data: seq<byte>, i: nat, end: nat, size: nat, full: nat, debt: nat)
    requires i < end <= |data| && end - i <= LONGEST && Booked(size, data, i, full, debt) && !Triple(data, i)
    requires end - i < LONGEST && end < |data| ==> Triple(data, end)
    ensures if end - i == LONGEST then Booked(size + 1 + (end - i), data, end, full + 1, 0)
            else Booked(size + 1 + (end - i), data, end, full, 1)
  {
  }

  lemma {:induction false} FullAndDebt(n: nat, full: nat, debt: nat)
    requires 128 * full + debt <= n && debt <= 1
    ensures full + debt <= CeilDiv(n, 128)
  {
  }

  /** Decoding gives the data back; the only end-of-data mark is the last byte; and the output is never
      longer than the data by more than one byte for every 128 begun, and the mark. */
  method EncodeRunLength(data: seq<byte>) returns (out: seq<byte>)
    ensures RunLengthDecode(out) == Some((data, []))
    ensures |out| <= |data| + CeilDiv(|data|, 128) + 1
  {
    out := [];
    var i := 0;
    ghost var full, debt := 0, 0;
    while i < |data|
      invariant i <= |data|
      invariant Groups(out) == Some(data[..i])
      invariant Booked(|out|, data, i, full, debt)
    {
      var run := RunAt(data, i);
      if run >= 2 {
        RunAppends(out, data, i, run);
        RunBooks(data, i, run, |out|, full, debt);
        out := out + RunGroup(data[i], run);
        debt := 0;
        i := i + run;
      } else {
        var end := LiteralEnd(data, i);
        LiteralAppends(out, data, i, end);
        LiteralBooks(data, i, end, |out|, full, debt);
        out := out + LiteralGroup(data[i..end]);
        if end - i == LONGEST { full, debt := full + 1, 0; } else { debt := 1; }
        i := end;
      }
    }
    assert data[..i] == data;
    FullAndDebt(|data|, full, debt);
    GroupsDecode(out);
    out := out + [EOD];
  }

  // ---- hexadecimal text -----------------------------------------------------------------------------------

  const NEWLINE: byte := 10
  const GREATER: byte := 62

  function HexDigit(v: nat): byte
    requires v < 16
  {
    if v < 10 then 48 + v else 65 + v - 10
  }

  function HexValue(c: byte): Option<nat> {
    if 48 <= c <= 57 then Some(c - 48)
    else if 65 <= c <= 70 then Some(c - 55)
    else if 97 <= c <= 102 then Some(c - 87)
    else None
  }

  predicate IsWhite(c: byte) {
    c in {0, 9, 10, 12, 13, 32}
  }

  /** ASCIIHexDecode: white space is skipped, `>` ends the data, an odd last digit counts as followed by
      zero, and any other character is an error. */
  function HexDecode(s: seq<byte>, high: Option<nat>): Option<seq<byte>>
    requires high.Some? ==> high.value < 16
    decreases |s|
  {
    if s == [] then None
    else if IsWhite(s[0]) then HexDecode(s[1..], high)
    else if s[0] == GREATER then Some(if high.Some? then [high.value * 16] else [])
    else
      match HexValue(s[0])
      case None => None
      case Some(v) =>
        if high.None? then HexDecode(s[1..], Some(v))
        else
          match HexDecode(s[1..], None)
          case None => None
          case Some(data) => Some([high.value * 16 + v] + data)
  }

  function HexPair(b: byte): seq<byte> {
    [HexDigit(b / 16), HexDigit(b % 16)]
  }

  /** Text that is pairs of digits and newlines only, and the bytes it stands for. */
  ghost predicate Spells(s: seq<byte>, data: seq<byte>)
    decreases |s|
  {
    if s == [] then data == []
    else if s[|s| - 1] == NEWLINE then Spells(s[..|s| - 1], data)
    else |s| >= 2 && data != [] && s[|s| - 2..] == HexPair(data[|data| - 1])
         && Spells(s[..|s| - 2], data[..|data| - 1])
  }

  function Prepended(data: seq<byte>, tail: Option<seq<byte>>): Option<seq<byte>> {
    if tail.None? then None else Some(data + tail.value)
  }

  lemma {:induction false} PairDecodes(b: byte, tail: seq<byte>)
    ensures HexDecode(HexPair(b) + tail, None) == Prepended([b], HexDecode(tail, None))
  {
    var s := HexPair(b) + tail;
    assert s[1..][1..] == tail;
    assert HexDecode(s, None) == HexDecode(s[1..], Some(b / 16));
  }

  lemma {:induction false} NewlineDecodes(tail: seq<byte>)
    ensures HexDecode([NEWLINE] + tail, None) == HexDecode(tail, None)
  {
    assert ([NEWLINE] + tail)[1..] == tail;
  }

  lemma {:induction false} PrependTwice(front: seq<byte>, b: byte, rest: Option<seq<byte>>)
    ensures Prepended(front, Prepended([b], rest)) == Prepended(front + [b], rest)
  {
    if rest.Some? { assert front + ([b] + rest.value) == front + [b] + rest.value; }
  }

  lemma {:induction false} Reassociate(a: seq<byte>, b: seq<byte>, c: seq<byte>)
    ensures a + b + c == a + (b + c)
  {
  }

  /** What a text spells comes first in the decoding of the text and anything after it. */
  lemma {:induction false} SpelledDecodes(s: seq<byte>, data: seq<byte>, tail: seq<byte>)
    requires Spells(s, data)
    ensures HexDecode(s + tail, None) == Prepended(data, HexDecode(tail, None))
    decreases |s|
  {
    if s == [] {
      assert s + tail == tail && (forall d: seq<byte> :: data + d == d);
    } else if s[|s| - 1] == NEWLINE {
      var front := s[..|s| - 1];
      assert s == front + [NEWLINE];
      Reassociate(front, [NEWLINE], tail);
      SpelledDecodes(front, data, [NEWLINE] + tail);
      NewlineDecodes(tail);
    } else {
      var front, b := s[..|s| - 2], data[|data| - 1];
      assert s == front + HexPair(b) && data == data[..|data| - 1] + [b];
      Reassociate(front, HexPair(b), tail);
      SpelledDecodes(front, data[..|data| - 1], HexPair(b) + tail);
      PairDecodes(b, tail);
      PrependTwice(data[..|data| - 1], b, HexDecode(tail, None));
    }
  }

  /** The first `start` of `n` bytes fill `lines` lines, the last of them perhaps in part. */
  ghost predicate InLines(start: nat, n: nat, lines: nat) {
    start <= n && lines == CeilDiv(start, BYTES_PER_LINE) && (start < n ==> start == lines * BYTES_PER_LINE)
  }

  lemma {:induction false} LineDone(start: nat, n: nat, lines: nat)
    requires InLines(start, n, lines) && start < n
    ensures InLines(Min(start + BYTES_PER_LINE, n), n, lines + 1)
  {
  }

  /** Text is decoded back to the data, whatever follows it; it takes two characters a byte, a newline
      a line of 38 bytes, and two for the end. */
  method EncodeAsciiHex(data: seq<byte>) returns (out: seq<byte>)
    ensures HexDecode(out, None) == Some(data)
    ensures |out| == 2 * |data| + CeilDiv(|data|, BYTES_PER_LINE) + 2
  {
    out := [];
    var start, lines := 0, 0;
    while start < |data|
      invariant InLines(start, |data|, lines)
      invariant Spells(out, data[..start]) && |out| == 2 * start + lines
    {
      var end := Min(start + BYTES_PER_LINE, |data|);
      for k := start to end
        invariant Spells(out, data[..k]) && |out| == 2 * k + lines
      {
        SpellsPair(out, data, k);
        out := out + HexPair(data[k]);
      }
      SpellsNewline(out, data[..end]);
      out := out + [NEWLINE];
      LineDone(start, |data|, lines);
      start, lines := end, lines + 1;
    }
    assert data[..start] == data;
    SpelledDecodes(out, data, [GREATER, NEWLINE]);
    assert HexDecode([GREATER, NEWLINE], None) == Some([]) && data + [] == data;
    out := out + [GREATER, NEWLINE];
  }

  lemma {:induction false} SpellsPair(out: seq<byte>, data: seq<byte>, k: nat)
    requires k < |data| && Spells(out, data[..k])
    ensures Spells(out + HexPair(data[k]), data[..k + 1])
  {
    var more := out + HexPair(data[k]);
    assert more[|more| - 2..] == HexPair(data[k]) && more[..|more| - 2] == out;
    assert data[..k + 1][..k] == data[..k];
  }

  lemma {:induction false} SpellsNewline(out: seq<byte>, data: seq<byte>)
    requires Spells(out, data)
    ensures Spells(out + [NEWLINE], data)
  {
    assert (out + [NEWLINE])[..|out|] == out;
  }

  /** Both filters in turn, as pages are sent: undoing them in turn gives the page back. */
  method EncodePage(data: seq<byte>) returns (out: seq<byte>)
    ensures HexDecode(out, None).Some?
    ensures RunLengthDecode(HexDecode(out, None).value) == Some((data, []))
  {
    var packed := EncodeRunLength(data);
    out := EncodeAsciiHex(packed);
  }
}
