/** Reading a fork of an HFS file: which image byte each fork byte is. */
module HfsForks {
  import opened Words

  const SECTOR: nat := 512

  /** Allocation blocks in a row: the first one and how many. */
  datatype Extent = Extent(start: u16, count: u16)

  /** An extent record holds three; an empty slot has count zero. */
  datatype Record = Record(e0: Extent, e1: Extent, e2: Extent)

  /** An overflow record is filed by file, fork and the fork block it starts at, read from 16 bits. */
  datatype Key = Key(cnid: u32, fork: u8, block: u16)

  function Slots(r: Record): seq<Extent> {
    [r.e0, r.e1, r.e2]
  }

  function BlocksIn(r: Record): nat {
    r.e0.count as int + r.e1.count as int + r.e2.count as int
  }

  /** Blocks in all the slots of a list of records. */
  function TotalBlocks(rs: seq<Record>): nat {
    if rs == [] then 0 else TotalBlocks(rs[..|rs| - 1]) + BlocksIn(rs[|rs| - 1])
  }

  // ---- finding the extents ------------------------------------------------------------------------

  function BlocksNeeded(logical: u32, blockSize: u32): nat
    requires blockSize > 0
  {
    CeilDiv(logical, blockSize)
  }

  /** The overflow record for a block; none starts past what 16 bits can name. */
  function Overflow(entries: map<Key, Record>, cnid: u32, fork: u8, block: nat): Option<Record> {
    if block <= U16_MAX && Key(cnid, fork, block) in entries then Some(entries[Key(cnid, fork, block)]) else None
  }

  /** Each record after the first is the overflow record for the block where the ones before it end. */
  predicate IsChain(entries: map<Key, Record>, cnid: u32, fork: u8, first: Record, rs: seq<Record>) {
    && rs != [] && rs[0] == first
    && forall k :: 1 <= k < |rs| ==> Overflow(entries, cnid, fork, TotalBlocks(rs[..k])) == Some(rs[k])
  }

  /** The catalog's record and as many overflow records as it takes to cover the logical size: short
      only when the next one is missing or the last adds nothing, and never one more than needed. */
  predicate ExtentsOf(entries: map<Key, Record>, cnid: u32, fork: u8, first: Record, logical: u32, blockSize: u32,
      rs: seq<Record>)
  {
    && IsChain(entries, cnid, fork, first, rs)
    && (blockSize == 0 ==> rs == [first])
    && (blockSize > 0 ==>
          || TotalBlocks(rs) >= BlocksNeeded(logical, blockSize)
          || Overflow(entries, cnid, fork, TotalBlocks(rs)).None?
          || (|rs| > 1 && BlocksIn(rs[|rs| - 1]) == 0))
    && (blockSize > 0 ==>
          forall k :: 1 <= k < |rs| ==> TotalBlocks(rs[..k]) < BlocksNeeded(logical, blockSize))
  }

  /** The extents of a fork. Since no overflow record starts past block 65535, the count of blocks
      fits 32 bits whatever the records say. */
  method GetExtents(entries: map<Key, Record>, cnid: u32, fork: u8, first: Record, logical: u32, blockSize: u32)
      returns (rs: seq<Record>)
    ensures ExtentsOf(entries, cnid, fork, first, logical, blockSize, rs)
    ensures TotalBlocks(rs) <= 4 * U16_MAX < MOD32
  {
    rs := [first];
    assert rs[..0] == [];
    if blockSize == 0 { return; }
    var needed := BlocksNeeded(logical, blockSize);
    var covered := BlocksIn(first);
    if covered >= needed { return; }
    while Overflow(entries, cnid, fork, covered).Some?
      invariant IsChain(entries, cnid, fork, first, rs)
      invariant covered == TotalBlocks(rs) < needed
      invariant covered <= 4 * U16_MAX
      invariant forall k :: 1 <= k < |rs| ==> TotalBlocks(rs[..k]) < needed
      decreases needed - covered
    {
      var r := Overflow(entries, cnid, fork, covered).value;
      ghost var before := rs;
      rs := rs + [r];
      Extend(before, r);
      var added := BlocksIn(r);
      if added == 0 { return; }
      covered := covered + added;
      if covered >= needed { return; }
    }
  }

  lemma {:induction false} Extend(rs: seq<Record>, r: Record)
    ensures TotalBlocks(rs + [r]) == TotalBlocks(rs) + BlocksIn(r)
    ensures forall k :: 0 <= k <= |rs| ==> (rs + [r])[..k] == rs[..k]
    ensures (rs + [r])[..|rs|] == rs
  {
    assert (rs + [r])[..|rs|] == rs;
  }

  // ---- the block map ------------------------------------------------------------------------------

  /** The slots in order, up to the first empty one: reading stops there. */
  function Flat(rs: seq<Record>): seq<Extent> {
    UpToEmpty(AllSlots(rs))
  }

  function AllSlots(rs: seq<Record>): seq<Extent> {
    if rs == [] then [] else AllSlots(rs[..|rs| - 1]) + Slots(rs[|rs| - 1])
  }

  function UpToEmpty(es: seq<Extent>): seq<Extent> {
    if es == [] || es[0].count == 0 then [] else [es[0]] + UpToEmpty(es[1..])
  }

  function Run(e: Extent): seq<nat> {
    seq(e.count, i requires 0 <= i < e.count => e.start + i)
  }

  /** The allocation block of each fork block. */
  function BlockMap(es: seq<Extent>): seq<nat> {
    if es == [] then [] else BlockMap(es[..|es| - 1]) + Run(es[|es| - 1])
  }

  function ByteOffset(firstSector: u16, blockSize: u32, block: nat): nat {
    firstSector * SECTOR + blockSize * block
  }

  /** The image byte a block map gives to byte `i` of a fork. */
  function ImageByte(firstSector: u16, blockSize: u32, blocks: seq<nat>, i: nat): nat
    requires blockSize > 0 && i / blockSize < |blocks|
  {
    ByteOffset(firstSector, blockSize, blocks[i / blockSize]) + i % blockSize
  }

  predicate InImage(img: seq<byte>, firstSector: u16, blockSize: u32, e: Extent) {
    ByteOffset(firstSector, blockSize, e.start) + blockSize * e.count <= |img|
  }

  /** Byte `i` of the fork is `b`, the image byte the block map gives it. */
  ghost predicate ByteIs(img: seq<byte>, firstSector: u16, blockSize: u32, blocks: seq<nat>, i: nat, b: byte)
    requires blockSize > 0
  {
    && i / blockSize < |blocks|
    && ImageByte(firstSector, blockSize, blocks, i) < |img|
    && b == img[ImageByte(firstSector, blockSize, blocks, i)]
  }

  /** `out` is the fork bytes the block map stands for, as far as it goes. */
  ghost predicate Reads(img: seq<byte>, firstSector: u16, blockSize: u32, blocks: seq<nat>, out: seq<byte>)
    requires blockSize > 0
  {
    forall i :: 0 <= i < |out| ==> ByteIs(img, firstSector, blockSize, blocks, i, out[i])
  }

  // ---- arithmetic ---------------------------------------------------------------------------------

  lemma {:induction false} SmallQuotient(j: nat, n: nat, d: nat)
    requires d > 0 && j < d * n
    ensures j / d < n
  {
    var q := j / d;
    assert j == d * q + j % d;
    if n < q { Gap(d, n, q); }
  }

  /** Byte `j` of the chunk appended after `done` whole blocks. */
  lemma {:induction false} NextChunkByte(done: nat, n: nat, d: nat, j: nat)
    requires d > 0 && j < d * n
    ensures var i := d * done + j;
            i / d == done + j / d && i % d == j % d && j / d < n && j == d * (j / d) + j % d
  {
    SmallQuotient(j, n, d);
    assert j == d * (j / d) + j % d;
    Distribute(d, done, j / d);
    Quotient(d * done + j, d, done + j / d, j % d);
  }

  // ---- reading --------------------------------------------------------------------------------------

  lemma {:induction false} Distribute(d: nat, a: nat, b: nat)
    ensures d * (a + b) == d * a + d * b
  {
  }

  lemma {:induction false} KnownByteStays(
      img: seq<byte>, firstSector: u16, blockSize: u32, blocks: seq<nat>, more: seq<nat>, i: nat, b: byte)
    requires blockSize > 0 && blocks <= more && ByteIs(img, firstSector, blockSize, blocks, i, b)
    ensures ByteIs(img, firstSector, blockSize, more, i, b)
  {
  }

  /** A fork byte `r` into block `n`, at `at` in the image. */
  lemma {:induction false} ByteInBlock(
      img: seq<byte>, firstSector: u16, blockSize: u32, blocks: seq<nat>, i: nat, n: nat, r: nat, at: nat)
    requires blockSize > 0 && i / blockSize == n < |blocks| && i % blockSize == r
    requires ByteOffset(firstSector, blockSize, blocks[n]) + r == at < |img|
    ensures ByteIs(img, firstSector, blockSize, blocks, i, img[at])
  {
  }

  /** Offset `r` into the `q`-th block of an extent. */
  lemma {:induction false} BlockInExtent(firstSector: u16, blockSize: u32, start: nat, q: nat, r: nat, j: nat)
    requires j == blockSize * q + r
    ensures ByteOffset(firstSector, blockSize, start + q) + r == ByteOffset(firstSector, blockSize, start) + j
  {
    Distribute(blockSize, start, q);
  }

  lemma {:induction false} ChunkInImage(img: seq<byte>, firstSector: u16, blockSize: u32, e: Extent, j: nat)
    requires InImage(img, firstSector, blockSize, e) && j < blockSize * e.count
    ensures ByteOffset(firstSector, blockSize, e.start) + j < |img|
  {
  }

  /** Byte `j` of the next extent's chunk. */
  lemma {:induction false} ChunkByte(img: seq<byte>, firstSector: u16, blockSize: u32, blocks: seq<nat>, e: Extent,
      j: nat)
    requires blockSize > 0 && InImage(img, firstSector, blockSize, e) && j < blockSize * e.count
    ensures ByteOffset(firstSector, blockSize, e.start) + j < |img|
    ensures ByteIs(img, firstSector, blockSize, blocks + Run(e), blockSize * |blocks| + j,
                   img[ByteOffset(firstSector, blockSize, e.start) + j])
  {
    ChunkInImage(img, firstSector, blockSize, e, j);
    var q, r, i := j / blockSize, j % blockSize, blockSize * |blocks| + j;
    NextChunkByte(|blocks|, e.count, blockSize, j);
    BlockInExtent(firstSector, blockSize, e.start, q, r, j);
    var n := |blocks| + q;
    assert (blocks + Run(e))[n] == e.start + q;
    ByteInBlock(img, firstSector, blockSize, blocks + Run(e), i, n, r, ByteOffset(firstSector, blockSize, e.start) + j);
  }

  /** The bytes of an extent inside the image. */
  function ChunkOf(img: seq<byte>, firstSector: u16, blockSize: u32, e: Extent): seq<byte>
    requires InImage(img, firstSector, blockSize, e)
  {
    var off := ByteOffset(firstSector, blockSize, e.start);
    img[off..off + blockSize * e.count]
  }

  lemma {:induction false} ChunkReads(
      img: seq<byte>, firstSector: u16, blockSize: u32, es: seq<Extent>, e: Extent, out: seq<byte>)
    requires blockSize > 0 && InImage(img, firstSector, blockSize, e)
    requires Reads(img, firstSector, blockSize, BlockMap(es), out) && |out| == blockSize * |BlockMap(es)|
    ensures var chunk := ChunkOf(img, firstSector, blockSize, e);
            && Reads(img, firstSector, blockSize, BlockMap(es + [e]), out + chunk)
            && |out + chunk| == blockSize * |BlockMap(es + [e])|
  {
    var chunk := ChunkOf(img, firstSector, blockSize, e);
    var blocks, more := BlockMap(es), BlockMap(es + [e]);
    assert (es + [e])[..|es|] == es;
    assert more == blocks + Run(e);
    Distribute(blockSize, |blocks|, e.count);
    forall i | 0 <= i < |out + chunk|
      ensures ByteIs(img, firstSector, blockSize, more, i, (out + chunk)[i])
    {
      if i < |out| {
        KnownByteStays(img, firstSector, blockSize, blocks, more, i, out[i]);
      } else {
        ChunkByte(img, firstSector, blockSize, blocks, e, i - |out|);
      }
    }
  }

  datatype ReadResult = Bytes(data: seq<byte>) | OutOfBounds(e: Extent)

  /** The blocks of the first `k` extents fall short of the logical size. */
  predicate StillNeeded(es: seq<Extent>, k: nat, blockSize: u32, logical: u32)
    requires k <= |es|
  {
    blockSize * |BlockMap(es[..k])| < logical
  }

  /** Every fork byte is the image byte its extents give it; there are as many as the logical size, or as
      the extents have if they fall short. It fails exactly when an extent that is needed is not inside
      the image, and names the first one. */
  ghost predicate IsReading(img: seq<byte>, firstSector: u16, blockSize: u32, es: seq<Extent>, logical: u32,
      r: ReadResult)
    requires blockSize > 0
  {
    && (r.Bytes? ==>
          && Reads(img, firstSector, blockSize, BlockMap(es), r.data)
          && |r.data| == Min(logical, blockSize * |BlockMap(es)|))
    && (r.Bytes? <==> forall k :: 0 <= k < |es| && StillNeeded(es, k, blockSize, logical) ==>
                        InImage(img, firstSector, blockSize, es[k]))
    && (r.OutOfBounds? ==> exists k :: 0 <= k < |es| && StillNeeded(es, k, blockSize, logical)
                             && r.e == es[k] && !InImage(img, firstSector, blockSize, es[k])
                             && forall j :: 0 <= j < k ==> InImage(img, firstSector, blockSize, es[j]))
  }

  /** The first `k` extents are inside the image and `out` is their bytes. */
  ghost predicate ReadSoFar(img: seq<byte>, firstSector: u16, blockSize: u32, es: seq<Extent>, k: nat, out: seq<byte>)
    requires blockSize > 0
  {
    && k <= |es| && Reads(img, firstSector, blockSize, BlockMap(es[..k]), out)
    && |out| == blockSize * |BlockMap(es[..k])|
    && forall j :: 0 <= j < k ==> InImage(img, firstSector, blockSize, es[j])
  }

  lemma {:induction false} ReadOneMore(
      img: seq<byte>, firstSector: u16, blockSize: u32, es: seq<Extent>, k: nat, out: seq<byte>)
    requires blockSize > 0 && k < |es| && InImage(img, firstSector, blockSize, es[k])
    requires ReadSoFar(img, firstSector, blockSize, es, k, out)
    ensures ReadSoFar(img, firstSector, blockSize, es, k + 1, out + ChunkOf(img, firstSector, blockSize, es[k]))
  {
    ChunkReads(img, firstSector, blockSize, es[..k], es[k], out);
    assert es[..k + 1] == es[..k] + [es[k]];
  }

  lemma {:induction false} Missing(
      img: seq<byte>, firstSector: u16, blockSize: u32, es: seq<Extent>, logical: u32, k: nat, out: seq<byte>)
    requires blockSize > 0 && k < |es| && ReadSoFar(img, firstSector, blockSize, es, k, out) && |out| < logical
    requires !InImage(img, firstSector, blockSize, es[k])
    ensures IsReading(img, firstSector, blockSize, es, logical, OutOfBounds(es[k]))
  {
  }

  lemma {:induction false} EnoughRead(
      img: seq<byte>, firstSector: u16, blockSize: u32, es: seq<Extent>, logical: u32, k: nat, out: seq<byte>)
    requires blockSize > 0 && ReadSoFar(img, firstSector, blockSize, es, k, out) && |out| >= logical
    ensures IsReading(img, firstSector, blockSize, es, logical, Bytes(out[..logical]))
  {
    Enough(es, k, blockSize, logical);
    ReadsPrefix(img, firstSector, blockSize, es, k, out, logical);
  }

  lemma {:induction false} AllRead(
      img: seq<byte>, firstSector: u16, blockSize: u32, es: seq<Extent>, logical: u32, out: seq<byte>)
    requires blockSize > 0 && ReadSoFar(img, firstSector, blockSize, es, |es|, out) && |out| < logical
    ensures IsReading(img, firstSector, blockSize, es, logical, Bytes(out))
  {
    assert es[..|es|] == es;
  }

  /** Extent after extent, up to the first empty slot or the logical size. */
  method ReadRaw(img: seq<byte>, firstSector: u16, blockSize: u32, rs: seq<Record>,
      logical: u32) returns (r: ReadResult)
    requires blockSize > 0
    ensures IsReading(img, firstSector, blockSize, Flat(rs), logical, r)
  {
    ghost var es := Flat(rs);
    if logical == 0 {
      Enough(es, 0, blockSize, logical);
      return Bytes([]);
    }
    var out: seq<byte> := [];
    var slots := AllSlots(rs);
    var k := 0;
    while k < |slots|
      invariant k <= |slots| && k <= |es| && es[..k] == slots[..k] && es[k..] == UpToEmpty(slots[k..])
      invariant ReadSoFar(img, firstSector, blockSize, es, k, out) && |out| < logical
    {
      var e := slots[k];
      if e.count == 0 { break; }
      NextSlot(slots, es, k);
      if !InImage(img, firstSector, blockSize, e) {
        Missing(img, firstSector, blockSize, es, logical, k, out);
        return OutOfBounds(e);
      }
      ReadOneMore(img, firstSector, blockSize, es, k, out);
      out := out + ChunkOf(img, firstSector, blockSize, e);
      k := k + 1;
      if |out| >= logical {
        EnoughRead(img, firstSector, blockSize, es, logical, k, out);
        return Bytes(out[..logical]);
      }
    }
    assert UpToEmpty(slots[k..]) == [];
    AllRead(img, firstSector, blockSize, es, logical, out);
    r := Bytes(out);
  }

  /** A slot in use is the next extent read. */
  lemma {:induction false} NextSlot(slots: seq<Extent>, es: seq<Extent>, k: nat)
    requires k < |slots| && k <= |es| && es[..k] == slots[..k] && es[k..] == UpToEmpty(slots[k..])
    requires slots[k].count != 0
    ensures k < |es| && es[k] == slots[k] && es[..k + 1] == slots[..k + 1] == es[..k] + [slots[k]]
    ensures es[k + 1..] == UpToEmpty(slots[k + 1..])
  {
    assert slots[k..][1..] == slots[k + 1..];
    assert es[k] == es[k..][0] && es[k + 1..] == es[k..][1..];
  }

  lemma {:induction false} MapGrows(es: seq<Extent>, k: nat, n: nat)
    requires k <= n <= |es|
    ensures BlockMap(es[..k]) <= BlockMap(es[..n])
    decreases n
  {
    if k < n {
      MapGrows(es, k, n - 1);
      assert es[..n][..n - 1] == es[..n - 1];
    }
  }

  lemma {:induction false} MoreBlocks(a: nat, b: nat, d: nat)
    requires a <= b
    ensures d * a <= d * b
  {
    if a < b { Gap(d, a, b); }
  }

  /** Once the first `k` extents are enough, no later one is needed. */
  lemma {:induction false} Enough(es: seq<Extent>, k: nat, blockSize: u32, logical: u32)
    requires k <= |es| && blockSize * |BlockMap(es[..k])| >= logical
    ensures forall j :: k <= j < |es| ==> !StillNeeded(es, j, blockSize, logical)
    ensures blockSize * |BlockMap(es)| >= logical
  {
    forall j | k <= j <= |es| ensures blockSize * |BlockMap(es[..j])| >= logical {
      MapGrows(es, k, j);
      MoreBlocks(|BlockMap(es[..k])|, |BlockMap(es[..j])|, blockSize);
    }
    assert es[..|es|] == es;
  }

  lemma {:induction false} ReadsPrefix(
      img: seq<byte>, firstSector: u16, blockSize: u32, es: seq<Extent>, k: nat, out: seq<byte>, n: nat)
    requires blockSize > 0 && k <= |es| && n <= |out| && Reads(img, firstSector, blockSize, BlockMap(es[..k]), out)
    ensures Reads(img, firstSector, blockSize, BlockMap(es), out[..n])
  {
    MapGrows(es, k, |es|);
    assert es[..|es|] == es;
    forall i | 0 <= i < n ensures ByteIs(img, firstSector, blockSize, BlockMap(es), i, out[..n][i]) {
      KnownByteStays(img, firstSector, blockSize, BlockMap(es[..k]), BlockMap(es), i, out[i]);
    }
  }

  // ---- when the extents cover the fork ------------------------------------------------------------------

  /** No slot in use follows an empty one. */
  predicate Packed(es: seq<Extent>) {
    forall i, j :: 0 <= i < j < |es| && es[i].count == 0 ==> es[j].count == 0
  }

  function Sum(es: seq<Extent>): nat {
    if es == [] then 0 else es[0].count + Sum(es[1..])
  }

  lemma {:induction false} SumConcat(a: seq<Extent>, b: seq<Extent>)
    ensures Sum(a + b) == Sum(a) + Sum(b)
  {
    if a == [] {
      assert a + b == b;
    } else {
      SumConcat(a[1..], b);
      assert (a + b)[1..] == a[1..] + b;
    }
  }

  lemma {:induction false} MapLength(es: seq<Extent>)
    ensures |BlockMap(es)| == Sum(es)
    decreases |es|
  {
    if es != [] {
      var front, last := es[..|es| - 1], es[|es| - 1];
      MapLength(front);
      SumConcat(front, [last]);
      assert es == front + [last] && [last][1..] == [];
    }
  }

  lemma {:induction false} SlotTotal(rs: seq<Record>)
    ensures Sum(AllSlots(rs)) == TotalBlocks(rs)
  {
    if rs != [] {
      var r := rs[|rs| - 1];
      SlotTotal(rs[..|rs| - 1]);
      SumConcat(AllSlots(rs[..|rs| - 1]), Slots(r));
      assert Slots(r)[1..] == [r.e1, r.e2] && [r.e1, r.e2][1..] == [r.e2] && [r.e2][1..] == [];
      assert Sum([r.e2]) == r.e2.count && Sum([r.e1, r.e2]) == r.e1.count + r.e2.count;
    }
  }

  lemma {:induction false} AllEmpty(es: seq<Extent>)
    requires forall i :: 0 <= i < |es| ==> es[i].count == 0
    ensures Sum(es) == 0
  {
    if es != [] { AllEmpty(es[1..]); }
  }

  lemma {:induction false} SomeUsed(es: seq<Extent>, i: nat)
    requires i < |es| && es[i].count > 0
    ensures Sum(es) > 0
  {
    if i > 0 { SomeUsed(es[1..], i - 1); }
  }

  /** The blocks read are all the blocks listed exactly when no slot in use follows an empty one. */
  lemma {:induction false} FlatKeepsAllIffPacked(es: seq<Extent>)
    ensures Sum(UpToEmpty(es)) <= Sum(es)
    ensures Sum(UpToEmpty(es)) == Sum(es) <==> Packed(es)
    decreases |es|
  {
    if es == [] {
    } else if es[0].count == 0 {
      if forall i :: 0 <= i < |es| ==> es[i].count == 0 {
        AllEmpty(es);
      } else {
        var i :| 0 <= i < |es| && es[i].count > 0;
        SomeUsed(es, i);
      }
    } else {
      var rest := es[1..];
      FlatKeepsAllIffPacked(rest);
      SumConcat([es[0]], UpToEmpty(rest));
      assert Sum([es[0]]) == es[0].count by { assert [es[0]][1..] == []; }
      if Packed(rest) {
        forall i, j | 0 <= i < j < |es| && es[i].count == 0 ensures es[j].count == 0 {
          assert rest[i - 1].count == 0 && es[j] == rest[j - 1];
        }
      }
      if Packed(es) {
        forall i, j | 0 <= i < j < |rest| && rest[i].count == 0 ensures rest[j].count == 0 {
          assert es[i + 1].count == 0 && es[j + 1] == rest[j];
        }
      }
    }
  }

  lemma {:induction false} EnoughBlocks(logical: u32, blockSize: u32, blocks: nat)
    requires blockSize > 0
    ensures blocks >= BlocksNeeded(logical, blockSize) <==> blockSize * blocks >= logical
  {
    var q := BlocksNeeded(logical, blockSize);
    var r := (logical + blockSize - 1) % blockSize;
    assert logical + blockSize - 1 == blockSize * q + r;
    if blocks >= q { MoreBlocks(q, blocks, blockSize); } else { Gap(blockSize, blocks, q); }
  }

  /** A fork whose records list enough blocks is read to its full logical size exactly when reading does
      not stop at an empty slot too soon; records with no slot in use after an empty one never do. */
  lemma {:induction false} WholeFork(rs: seq<Record>, logical: u32, blockSize: u32)
    requires blockSize > 0 && TotalBlocks(rs) >= BlocksNeeded(logical, blockSize)
    ensures Min(logical, blockSize * |BlockMap(Flat(rs))|) == logical
            <==> Sum(Flat(rs)) >= BlocksNeeded(logical, blockSize)
    ensures Packed(AllSlots(rs)) ==> Min(logical, blockSize * |BlockMap(Flat(rs))|) == logical
  {
    MapLength(Flat(rs));
    SlotTotal(rs);
    FlatKeepsAllIffPacked(AllSlots(rs));
    EnoughBlocks(logical, blockSize, Sum(Flat(rs)));
  }

  /** What goes wrong otherwise: the catalog's record lists blocks enough for the fork, but its first
      slot is empty, and whatever the image holds the read succeeds with no bytes. */
  lemma {:induction false} EmptySlotHidesFork(img: seq<byte>, firstSector: u16, blockSize: u32, first: Record,
      logical: u32, r: ReadResult)
    requires blockSize > 0 && logical > 0
    requires IsReading(img, firstSector, blockSize, Flat([first]), logical, r)
    requires first.e0.count == 0 && blockSize * first.e1.count >= logical
    ensures TotalBlocks([first]) >= BlocksNeeded(logical, blockSize)
    ensures r == Bytes([])
  {
    assert [first][..0] == [];
    assert AllSlots([first]) == AllSlots([]) + Slots(first) == Slots(first);
    EnoughBlocks(logical, blockSize, first.e1.count);
  }

  /** A fork found and read, as the volume does for a file. */
  method ReadFork(img: seq<byte>, firstSector: u16, blockSize: u32,
                  entries: map<Key, Record>, cnid: u32, fork: u8, first: Record, logical: u32)
      returns (rs: seq<Record>, r: ReadResult)
    requires blockSize > 0
    ensures ExtentsOf(entries, cnid, fork, first, logical, blockSize, rs)
    ensures IsReading(img, firstSector, blockSize, Flat(rs), logical, r)
    ensures r.Bytes? && TotalBlocks(rs) >= BlocksNeeded(logical, blockSize) ==>
              (|r.data| == logical <==> Sum(Flat(rs)) >= BlocksNeeded(logical, blockSize))
    ensures r.Bytes? && TotalBlocks(rs) >= BlocksNeeded(logical, blockSize) && Packed(AllSlots(rs)) ==>
              |r.data| == logical
  {
    rs := GetExtents(entries, cnid, fork, first, logical, blockSize);
    r := ReadRaw(img, firstSector, blockSize, rs, logical);
    if TotalBlocks(rs) >= BlocksNeeded(logical, blockSize) { WholeFork(rs, logical, blockSize); }
  }
}
