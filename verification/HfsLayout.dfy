/** Reading what was written: nodes and records laid out as the HFS format has them are read back as
    what was put in. */
module HfsLayout {
  import opened Words
  import opened HfsForks
  import opened HfsCatalog

  // ---- words ------------------------------------------------------------------------------------------------

  function WriteU32(v: u32): (b: seq<byte>)
    ensures |b| == 4
  {
    WriteU16(v / 0x1_0000) + WriteU16(v % 0x1_0000)
  }

  /** The bytes `b` stand at `at`. */
  predicate StandsAt(all: seq<byte>, at: nat, b: seq<byte>) {
    at + |b| <= |all| && all[at..at + |b|] == b
  }

  lemma {:induction false} ReadsWord(all: seq<byte>, at: nat, v: u16)
    requires StandsAt(all, at, WriteU16(v))
    ensures ReadU16At(all, at) == v
  {
    ReadWriteU16(v, []);
    assert WriteU16(v) + [] == WriteU16(v);
  }

  lemma {:induction false} ReadsLong(all: seq<byte>, at: nat, v: u32)
    requires StandsAt(all, at, WriteU32(v))
    ensures ReadU32(all, at) == v
  {
    var b := all[at..at + 4];
    assert all[at] == b[0] && all[at + 1] == b[1] && all[at + 2] == b[2] && all[at + 3] == b[3];
  }

  lemma {:induction false} PartStands(all: seq<byte>, at: nat, a: seq<byte>, b: seq<byte>)
    requires StandsAt(all, at, a + b)
    ensures StandsAt(all, at, a) && StandsAt(all, at + |a|, b)
  {
    assert all[at..at + |a|] == all[at..at + |a + b|][..|a|];
    assert all[at + |a|..at + |a + b|] == all[at..at + |a + b|][|a|..];
  }

  // ---- overflow records ---------------------------------------------------------------------------------------

  function ExtentBytes(e: Extent): (b: seq<byte>)
    ensures |b| == 4
  {
    WriteU16(e.start) + WriteU16(e.count)
  }

  /** An overflow record: a key of seven bytes (fork, file, first block), then three extents. */
  function OverflowBytes(key: Key, r: Record): (b: seq<byte>)
    ensures |b| == 20
  {
    [7, key.fork]
    + (WriteU32(key.cnid) + (WriteU16(key.block) + (ExtentBytes(r.e0) + (ExtentBytes(r.e1) + ExtentBytes(r.e2)))))
  }

  lemma {:induction false} ReadsExtent(all: seq<byte>, at: nat, e: Extent)
    requires StandsAt(all, at, ExtentBytes(e))
    ensures ExtentAt(all, at) == e
  {
    PartStands(all, at, WriteU16(e.start), WriteU16(e.count));
    ReadsWord(all, at, e.start);
    ReadsWord(all, at + 2, e.count);
  }

  /** A record that starts with these bytes is read as this entry, whatever follows. */
  lemma {:induction false} ReadsOverflow(rec: seq<byte>, key: Key, r: Record)
    requires StandsAt(rec, 0, OverflowBytes(key, r))
    ensures EntryOf(rec) == Some((key, r))
  {
    var extents := ExtentBytes(r.e0) + (ExtentBytes(r.e1) + ExtentBytes(r.e2));
    PartStands(rec, 0, [7, key.fork], WriteU32(key.cnid) + (WriteU16(key.block) + extents));
    PartStands(rec, 2, WriteU32(key.cnid), WriteU16(key.block) + extents);
    PartStands(rec, 6, WriteU16(key.block), extents);
    PartStands(rec, 8, ExtentBytes(r.e0), ExtentBytes(r.e1) + ExtentBytes(r.e2));
    PartStands(rec, 12, ExtentBytes(r.e1), ExtentBytes(r.e2));
    assert rec[0] == rec[0..2][0] && rec[1] == rec[0..2][1];
    ReadsLong(rec, 2, key.cnid);
    ReadsWord(rec, 6, key.block);
    ReadsExtent(rec, 8, r.e0);
    ReadsExtent(rec, 12, r.e1);
    ReadsExtent(rec, 16, r.e2);
  }

  // ---- index records --------------------------------------------------------------------------------------------

  /** An index record: the length of its key, the key, a byte of padding if that leaves an odd offset,
      and the number of the child. */
  function IndexBytes(key: seq<byte>, child: u32): seq<byte>
    requires |key| < 0x100
  {
    [|key|] + (key + ((if |key| % 2 == 0 then [0] else []) + WriteU32(child)))
  }

  lemma {:induction false} ReadsIndex(rec: seq<byte>, key: seq<byte>, child: u32)
    requires 6 <= |key| < 0x100 && StandsAt(rec, 0, IndexBytes(key, child))
    ensures ChildOf(rec) == Some(child)
  {
    var pad := if |key| % 2 == 0 then [0] else [];
    PartStands(rec, 0, [|key|], key + (pad + WriteU32(child)));
    PartStands(rec, 1, key, pad + WriteU32(child));
    PartStands(rec, 1 + |key|, pad, WriteU32(child));
    assert rec[0] == rec[0..1][0];
    ReadsLong(rec, 1 + |key| + |pad|, child);
  }

  // ---- nodes ------------------------------------------------------------------------------------------------------

  /** Record `i` of the node starts with these bytes: the table at the node's end, filled from behind,
      says where. */
  ghost predicate HasRecord(node: Node, i: nat, b: seq<byte>) {
    && 2 * (i + 1) <= NODE_SIZE
    && exists off: u16 :: StandsAt(node, NODE_SIZE - 2 * (i + 1), WriteU16(off)) && StandsAt(node, off, b)
  }

  lemma {:induction false} FindsRecord(node: Node, i: nat, b: seq<byte>)
    requires HasRecord(node, i, b)
    ensures RecordAt(node, i).Some? && StandsAt(RecordAt(node, i).value, 0, b)
  {
    var off: u16 :| StandsAt(node, NODE_SIZE - 2 * (i + 1), WriteU16(off)) && StandsAt(node, off, b);
    ReadsWord(node, NODE_SIZE - 2 * (i + 1), off);
    assert node[off..][0..|b|] == node[off..off + |b|];
  }

  /** A node of this kind, with this link to the next and this many records. */
  predicate Heads(node: Node, link: u32, kind: byte, count: u16) {
    StandsAt(node, 0, WriteU32(link)) && node[8] == kind && StandsAt(node, 10, WriteU16(count))
  }

  lemma {:induction false} ReadsHead(node: Node, link: u32, kind: byte, count: u16)
    requires Heads(node, link, kind, count)
    ensures FLink(node) == link && RecordCount(node) == count
  {
    ReadsLong(node, 0, link);
    ReadsWord(node, 10, count);
  }

  /** Entries filed one after another, a later one replacing an earlier one of the same key. */
  function Filed(entries: Entries, recs: seq<(Key, Record)>): Entries {
    if recs == [] then entries else
    Filed(entries, recs[..|recs| - 1])[recs[|recs| - 1].0 := recs[|recs| - 1].1]
  }

  ghost predicate HoldsOverflow(node: Node, recs: seq<(Key, Record)>) {
    forall i :: 0 <= i < |recs| ==> HasRecord(node, i, OverflowBytes(recs[i].0, recs[i].1))
  }

  lemma {:induction false} AddsRecord(entries: Entries, node: Node, i: nat, key: Key, r: Record)
    requires HasRecord(node, i, OverflowBytes(key, r))
    ensures Added(entries, node, i) == entries[key := r]
  {
    FindsRecord(node, i, OverflowBytes(key, r));
    ReadsOverflow(RecordAt(node, i).value, key, r);
  }

  lemma {:induction false} ReadsEntries(node: Node, entries: Entries, recs: seq<(Key, Record)>, n: nat)
    requires HoldsOverflow(node, recs) && n <= |recs|
    ensures NodeEntries(entries, node, n) == Filed(entries, recs[..n])
  {
    if n > 0 {
      ReadsEntries(node, entries, recs, n - 1);
      assert recs[..n][..n - 1] == recs[..n - 1];
      AddsRecord(NodeEntries(entries, node, n - 1), node, n - 1, recs[n - 1].0, recs[n - 1].1);
    }
  }

  /** A leaf written with these overflow records is read as exactly these, in order, and does not break
      the parse. */
  lemma {:induction false} LeafReadsBack(node: Node, entries: Entries, recs: seq<(Key, Record)>, link: u32)
    requires |recs| <= NODE_SIZE / 2 && Heads(node, link, LEAF_NODE, |recs|) && HoldsOverflow(node, recs)
    ensures NodeEntries(entries, node, RecordCount(node)) == Filed(entries, recs)
    ensures FLink(node) == link && !Breaks(node)
  {
    ReadsHead(node, link, LEAF_NODE, |recs|);
    ReadsEntries(node, entries, recs, |recs|);
    assert recs[..|recs|] == recs;
    forall i | 0 <= i < RecordCount(node) ensures !IsEmptyRecord(node, i) {
      FindsRecord(node, i, OverflowBytes(recs[i].0, recs[i].1));
    }
  }

  ghost predicate HoldsIndex(node: Node, keys: seq<seq<byte>>, children: seq<u32>)
    requires |keys| == |children|
  {
    forall i :: 0 <= i < |keys| ==> 6 <= |keys[i]| < 0x100 && HasRecord(node, i, IndexBytes(keys[i], children[i]))
  }

  lemma {:induction false} AddsChild(node: Node, i: nat, key: seq<byte>, child: u32)
    requires 6 <= |key| < 0x100 && HasRecord(node, i, IndexBytes(key, child))
    ensures ChildAt(node, i) == [child]
  {
    FindsRecord(node, i, IndexBytes(key, child));
    ReadsIndex(RecordAt(node, i).value, key, child);
  }

  lemma {:induction false} TakeOneMore(s: seq<u32>, n: nat)
    requires n < |s|
    ensures s[..n + 1] == s[..n] + [s[n]]
  {
  }

  /** Record `i` of the node is read as the one child. */
  predicate ReadsAs(node: Node, i: nat, child: u32) {
    ChildAt(node, i) == [child]
  }

  lemma {:induction false} ReadsChildren(node: Node, children: seq<u32>, n: nat)
    requires n <= |children| && forall i :: 0 <= i < |children| ==> ReadsAs(node, i, children[i])
    ensures Children(node, n) == children[..n]
  {
    if n > 0 {
      ReadsChildren(node, children, n - 1);
      TakeOneMore(children, n - 1);
      assert ReadsAs(node, n - 1, children[n - 1]);
    }
  }

  /** An index node written with these children leads to exactly these, in order, and then to the next
      node of its level. */
  lemma {:induction false} IndexReadsBack(node: Node, keys: seq<seq<byte>>, children: seq<u32>, link: u32)
    requires |keys| == |children| <= NODE_SIZE / 2 && Heads(node, link, INDEX_NODE, |keys|)
    requires HoldsIndex(node, keys, children)
    ensures Leads(node) == children + (if link != 0 then [link] else []) && !Breaks(node)
  {
    ReadsHead(node, link, INDEX_NODE, |keys|);
    forall i | 0 <= i < |children| ensures ReadsAs(node, i, children[i]) {
      AddsChild(node, i, keys[i], children[i]);
    }
    ReadsChildren(node, children, |keys|);
    assert children[..|keys|] == children;
    forall i | 0 <= i < RecordCount(node) ensures !IsEmptyRecord(node, i) {
      FindsRecord(node, i, IndexBytes(keys[i], children[i]));
    }
  }
}
