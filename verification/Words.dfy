/** Machine words, bytes and the few shared helpers of the protocol models.

    The source stores sequence numbers in `u32` and lets them wrap; here a word
    is an integer in range and every wrapping operation is written out. */
module Words {
  const MOD32: int := 0x1_0000_0000
  const HALF32: int := 0x8000_0000
  const U16_MAX: int := 0xFFFF

  type byte = x: int | 0 <= x < 0x100
  type u8 = x: int | 0 <= x < 0x100
  type u16 = x: int | 0 <= x < 0x1_0000
  type u32 = x: int | 0 <= x < 0x1_0000_0000

  /** A monotonic timestamp in microseconds. */
  type Micros = nat

  datatype Option<+T> = None | Some(value: T)

  /** The earlier of a deadline, if there is one yet, and another. */
  function Earlier(r: Option<Micros>, d: Micros): Option<Micros> {
    if r.None? || d < r.value then Some(d) else r
  }

  predicate NotAfter(r: Option<Micros>, d: Micros) {
    r.Some? && r.value <= d
  }

  /** An AppleTalk network, node and socket number. */
  datatype Address = Address(network: u16, node: u8, socket: u8)

  function Min(a: int, b: int): int {
    if a < b then a else b
  }

  /** `u64::saturating_sub`. */
  function SaturatingSub(a: nat, b: nat): nat {
    if a > b then a - b else 0
  }

  /** `u32::wrapping_add`. */
  function Add32(a: u32, n: nat): u32 {
    (a + n) % MOD32
  }

  /** `u32::wrapping_sub`. */
  function Sub32(a: u32, b: u32): u32 {
    (a - b) % MOD32
  }

  /** `as i32`. */
  function AsI32(x: u32): int {
    if x < HALF32 then x else x - MOD32
  }

  /** The word that carries an unbounded stream position. */
  function Low32(n: nat): u32 {
    n % MOD32
  }

  /** Advancing a position and wrapping commute. */
  lemma LowAdd(n: nat, k: nat)
    ensures Add32(Low32(n), k) == Low32(n + k)
  {
  }

  /** A wrapped difference is the true one while the positions are within one turn. */
  lemma LowSub(p: nat, q: nat)
    requires 0 <= p - q < MOD32
    ensures Sub32(Low32(p), Low32(q)) == p - q
  {
  }

  /** When `p` has fallen behind `q` the wrapped difference shows up as a huge one. */
  lemma LowSubBehind(p: nat, q: nat)
    requires 0 < q - p < MOD32
    ensures Sub32(Low32(p), Low32(q)) == MOD32 - (q - p)
  {
  }

  /** The signed reading of a wrapped difference is right within half a turn. */
  lemma LowSigned(p: nat, q: nat)
    requires -HALF32 < p - q < HALF32
    ensures AsI32(Sub32(Low32(p), Low32(q))) == p - q
  {
    if p >= q { LowSub(p, q); } else { LowSubBehind(p, q); }
  }

  /** `s` lists the keys of an ordered map in the order a `BTreeMap` iterates over them. */
  ghost predicate AscendingOf(r: seq<u16>, s: set<u16>) {
    && (forall k: u16 :: k in r <==> k in s)
    && (forall i, j :: 0 <= i < j < |r| ==> r[i] < r[j])
  }

  /** A non-empty key set has a largest key. */
  lemma LargestExists(s: set<u16>) returns (m: u16)
    requires s != {}
    ensures m in s && forall k: u16 :: k in s ==> k <= m
  {
    m :| m in s;
    var rest := s - {m};
    while rest != {}
      invariant m in s && rest <= s
      invariant forall k: u16 :: k in s ==> k in rest || k <= m
      decreases |rest|
    {
      var x: u16 :| x in rest;
      if m < x { m := x; }
      rest := rest - {x};
    }
  }

  lemma AscendingExists(s: set<u16>) returns (r: seq<u16>)
    ensures AscendingOf(r, s)
  {
    if s == {} {
      r := [];
    } else {
      var m := LargestExists(s);
      var front := AscendingExists(s - {m});
      assert forall i :: 0 <= i < |front| ==> front[i] in front;
      r := front + [m];
    }
  }

  /** There is only one ascending listing of a set. */
  lemma AscendingUnique(r: seq<u16>, q: seq<u16>, s: set<u16>)
    requires AscendingOf(r, s) && AscendingOf(q, s)
    ensures r == q
  {
    if r == [] {
      assert forall k: u16 :: k !in s;
      assert forall i :: 0 <= i < |q| ==> q[i] in s;
    } else {
      assert r[0] in r && r[0] in s && r[0] in q;
      assert q[0] in q && q[0] in s && q[0] in r;
      var rest := s - {r[0]};
      assert AscendingOf(r[1..], rest);
      assert AscendingOf(q[1..], rest);
      AscendingUnique(r[1..], q[1..], rest);
    }
  }

  lemma AscendingIsTotal(s: set<u16>)
    ensures exists r: seq<u16> :: AscendingOf(r, s)
  {
    var r := AscendingExists(s);
  }

  /** The keys of an ordered map, ascending. */
  ghost function Ascending(s: set<u16>): (r: seq<u16>)
    ensures AscendingOf(r, s)
  {
    AscendingIsTotal(s);
    var r: seq<u16> :| AscendingOf(r, s);
    r
  }

  lemma AscendingSingleton(k: u16)
    ensures Ascending({k}) == [k] && Ascending({}) == []
  {
    assert AscendingOf([k], {k});
    AscendingUnique(Ascending({k}), [k], {k});
    AscendingUnique(Ascending({}), [], {});
  }

  /** The keys of an ordered map, in order. */
  method AscendingKeys(s: set<u16>) returns (r: seq<u16>)
    ensures r == Ascending(s)
  {
    r := [];
    var rest := s;
    while rest != {}
      invariant rest <= s && AscendingOf(r, s - rest)
      invariant forall i, k: u16 :: 0 <= i < |r| && k in rest ==> k < r[i]
      decreases |rest|
    {
      ghost var w := LargestExists(rest);
      var m: u16 :| m in rest && forall k: u16 :: k in rest ==> k <= m;
      ghost var before := r;
      r := [m] + r;
      assert forall i :: 0 <= i < |r| ==> r[i] == (if i == 0 then m else before[i - 1]);
      rest := rest - {m};
    }
    assert s - rest == s;
    AscendingUnique(r, Ascending(s), s);
  }

  /** Reads a big-endian `u16`. */
  function ReadU16(b: seq<byte>): u16
    requires |b| >= 2
  {
    b[0] as int * 256 + b[1] as int
  }

  /** Writes a big-endian `u16`. */
  function WriteU16(v: u16): (b: seq<byte>)
    ensures |b| == 2
  {
    [v / 256, v % 256]
  }

  lemma ReadWriteU16(v: u16, tail: seq<byte>)
    ensures ReadU16(WriteU16(v) + tail) == v
  {
  }

  // ---- division ---------------------------------------------------------------------------------

  function CeilDiv(n: nat, d: nat): nat
    requires d > 0
  {
    (n + d - 1) / d
  }

  lemma {:induction false} Gap(d: nat, low: nat, high: nat)
    requires low < high
    ensures d * high >= d * low + d
  {
    assert d * high == d * low + d * (high - low);
    assert d * (high - low) == d + d * (high - low - 1);
  }

  lemma {:induction false} Quotient(y: nat, d: nat, q: nat, r: nat)
    requires 0 < d && y == d * q + r && r < d
    ensures y / d == q && y % d == r
  {
    var q', r' := y / d, y % d;
    assert y == d * q' + r';
    if q < q' { Gap(d, q, q'); } else if q' < q { Gap(d, q', q); }
  }
}
