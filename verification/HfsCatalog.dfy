/** Walking the B-trees of an HFS volume, whatever bytes they hold: cycles, dangling pointers and
    nonsense records included. */
module HfsCatalog {
  import opened Words
  import HfsForks

  const NODE_SIZE: nat := 512
  const INDEX_NODE: byte := 0x00
  const LEAF_NODE: byte := 0xFF

  function ReadU32(b: seq<byte>, at: nat): u32
    requires at + 4 <= |b|
  {
    ((b[at] as int * 256 + b[at + 1] as int) * 256 + b[at + 2] as int) * 256 + b[at + 3] as int
  }

  function ReadU16At(b: seq<byte>, at: nat): u16
    requires at + 2 <= |b|
  {
    ReadU16(b[at..at + 2])
  }

  type Node = b: seq<byte> | |b| == NODE_SIZE witness seq(NODE_SIZE, i => 0)

  // ---- nodes and records --------------------------------------------------------------------------

  function NodeAt(tree: seq<byte>, index: u32): Option<Node> {
    var off := index * NODE_SIZE;
    if off + NODE_SIZE <= |tree| then Some(tree[off..off + NODE_SIZE]) else None
  }

  function FLink(node: Node): u32 {
    ReadU32(node, 0)
  }

  function RecordCount(node: Node): u16 {
    ReadU16At(node, 10)
  }

  /** Record offsets are packed at the node's end, the first record's last. A record that starts at the
      very end of the node has no first byte to read. */
  function RecordAt(node: Node, i: nat): Option<seq<byte>> {
    if 2 * (i + 1) > NODE_SIZE then None
    else
      var off := ReadU16At(node, NODE_SIZE - 2 * (i + 1));
      if off > NODE_SIZE then None else Some(node[off..])
  }

  predicate IsEmptyRecord(node: Node, i: nat) {
    RecordAt(node, i) == Some([])
  }

  /** The source indexes past the end of such a record and stops the whole parse. */
  predicate Breaks(node: Node) {
    exists i :: 0 <= i < RecordCount(node) && IsEmptyRecord(node, i)
  }

  /** Where a record's data starts: after the key, on an even boundary. */
  function DataOffset(keyLen: byte): nat {
    1 + keyLen as int + (if keyLen % 2 == 0 then 1 else 0)
  }

  // ---- the catalog --------------------------------------------------------------------------------

  /** The child an index record points to. */
  function ChildOf(rec: seq<byte>): Option<u32> {
    if rec == [] || rec[0] < 6 || |rec| < 1 + rec[0] as int || DataOffset(rec[0]) + 4 > |rec| then None
    else Some(ReadU32(rec, DataOffset(rec[0])))
  }

  function ChildAt(node: Node, i: nat): seq<u32> {
    match RecordAt(node, i)
    case None => []
    case Some(rec) => if ChildOf(rec).Some? then [ChildOf(rec).value] else []
  }

  function Children(node: Node, n: nat): seq<u32> {
    if n == 0 then [] else Children(node, n - 1) + ChildAt(node, n - 1)
  }

  /** What a node leads to: the children of an index node, and the next node of its level. */
  function Leads(node: Node): seq<u32> {
    (if node[8] == INDEX_NODE then Children(node, RecordCount(node)) else [])
    + (if (node[8] == INDEX_NODE || node[8] == LEAF_NODE) && FLink(node) != 0 then [FLink(node)] else [])
  }

  function LeadsFrom(tree: seq<byte>, index: u32): seq<u32> {
    match NodeAt(tree, index)
    case None => []
    case Some(node) => Leads(node)
  }

  predicate LeadsTo(tree: seq<byte>, n: u32, m: u32) {
    m != 0 && m in LeadsFrom(tree, n)
  }

  /** A way through the tree: nonzero node numbers, each leading to the next. */
  predicate IsPath(tree: seq<byte>, p: seq<u32>) {
    && p != [] && p[0] != 0
    && forall k :: 1 <= k < |p| ==> LeadsTo(tree, p[k - 1], p[k])
  }

  ghost predicate Reachable(tree: seq<byte>, root: u32, n: u32) {
    exists p: seq<u32> :: IsPath(tree, p) && p[0] == root && p[|p| - 1] == n
  }

  lemma {:induction false} RootReachable(tree: seq<byte>, root: u32)
    requires root != 0
    ensures Reachable(tree, root, root)
  {
    assert IsPath(tree, [root]);
  }

  lemma {:induction false} NextReachable(tree: seq<byte>, root: u32, n: u32, m: u32)
    requires Reachable(tree, root, n) && LeadsTo(tree, n, m)
    ensures Reachable(tree, root, m)
  {
    var p: seq<u32> :| IsPath(tree, p) && p[0] == root && p[|p| - 1] == n;
    PathGrows(tree, p, m);
    assert (p + [m])[0] == root && (p + [m])[|p + [m]| - 1] == m;
  }

  lemma {:induction false} PathGrows(tree: seq<byte>, p: seq<u32>, m: u32)
    requires IsPath(tree, p) && LeadsTo(tree, p[|p| - 1], m)
    ensures IsPath(tree, p + [m])
  {
    var more := p + [m];
    forall k | 1 <= k < |more| ensures LeadsTo(tree, more[k - 1], more[k]) {
      if k < |p| { assert LeadsTo(tree, p[k - 1], p[k]); }
    }
  }

  /** Whatever a visited node leads to is visited, or waiting. */
  ghost predicate Closed(tree: seq<byte>, visited: set<u32>, waiting: seq<u32>) {
    forall v, w :: v in visited && LeadsTo(tree, v, w) ==> w in visited || w in waiting
  }

  lemma {:induction false} PathStaysInside(tree: seq<byte>, visited: set<u32>, p: seq<u32>, k: nat)
    requires Closed(tree, visited, []) && IsPath(tree, p) && p[0] in visited && k < |p|
    ensures p[k] in visited
  {
    if k > 0 {
      PathStaysInside(tree, visited, p, k - 1);
      assert LeadsTo(tree, p[k - 1], p[k]);
    }
  }

  lemma {:induction false} ClosedIsAll(tree: seq<byte>, visited: set<u32>, root: u32, n: u32)
    requires Closed(tree, visited, []) && root in visited && Reachable(tree, root, n)
    ensures n in visited
  {
    var p: seq<u32> :| IsPath(tree, p) && p[0] == root && p[|p| - 1] == n;
    PathStaysInside(tree, visited, p, |p| - 1);
  }

  /** How many of the first `n` nodes are not visited. */
  function Left(visited: set<u32>, n: nat): nat {
    if n == 0 then 0 else Left(visited, n - 1) + (if n - 1 < MOD32 && n - 1 in visited then 0 else 1)
  }

  lemma {:induction false} LeftDrops(visited: set<u32>, v: u32, n: nat)
    ensures Left(visited + {v}, n) <= Left(visited, n)
    ensures v !in visited && v < n ==> Left(visited + {v}, n) < Left(visited, n)
  {
    if n > 0 { LeftDrops(visited, v, n - 1); }
  }

  /** Nodes that lie inside the tree's bytes. */
  function NodeCount(tree: seq<byte>): nat {
    |tree| / NODE_SIZE
  }

  ghost predicate Breakdown(tree: seq<byte>, root: u32) {
    exists n: u32 :: Reachable(tree, root, n) && NodeAt(tree, n).Some? && Breaks(NodeAt(tree, n).value)
  }

  predicate NoRepeats(order: seq<u32>) {
    forall i, j :: 0 <= i < j < |order| ==> order[i] != order[j]
  }

  /** What the walk keeps: it has been only where the root leads, and whatever a visited node leads to is
      visited or waiting. */
  ghost predicate Underway(tree: seq<byte>, root: u32, order: seq<u32>, visited: set<u32>, stack: seq<u32>) {
    && (forall v :: v in visited <==> v in order) && NoRepeats(order)
    && (forall v :: v in visited ==> v != 0 && Reachable(tree, root, v))
    && (forall v :: v in visited && NodeAt(tree, v).Some? ==> !Breaks(NodeAt(tree, v).value))
    && (forall s :: s in stack ==> s == 0 || Reachable(tree, root, s))
    && (root == 0 || root in visited || root in stack)
    && Closed(tree, visited, stack)
  }

  /** Push the children of an index node; stop at a record with no bytes, in any node. */
  method PushKids(node: Node, stack: seq<u32>) returns (pushed: seq<u32>, broken: bool)
    ensures broken <==> Breaks(node)
    ensures !broken ==> pushed == stack + Kids(node, RecordCount(node))
  {
    pushed, broken := stack, false;
    for i := 0 to RecordCount(node)
      invariant forall j :: 0 <= j < i ==> !IsEmptyRecord(node, j)
      invariant pushed == stack + Kids(node, i)
    {
      if IsEmptyRecord(node, i) { return pushed, true; }
      MoreKids(stack, node, i);
      if node[8] == INDEX_NODE { pushed := pushed + ChildAt(node, i); }
    }
  }

  /** Push the children of an index node and the next node; stop at a record with no bytes. */
  method PushLeads(node: Node, stack: seq<u32>) returns (pushed: seq<u32>, broken: bool)
    ensures broken <==> Breaks(node)
    ensures !broken ==> pushed == stack + Leads(node)
  {
    pushed, broken := PushKids(node, stack);
    if broken { return; }
    MoreLeads(stack, node);
    if (node[8] == INDEX_NODE || node[8] == LEAF_NODE) && FLink(node) != 0 {
      pushed := pushed + [FLink(node)];
    }
  }

  function Kids(node: Node, n: nat): seq<u32> {
    if node[8] == INDEX_NODE then Children(node, n) else []
  }

  lemma {:induction false} MoreKids(stack: seq<u32>, node: Node, i: nat)
    ensures node[8] != INDEX_NODE ==> Kids(node, i) == Kids(node, i + 1) == []
    ensures node[8] == INDEX_NODE ==> stack + Kids(node, i + 1) == stack + Kids(node, i) + ChildAt(node, i)
  {
  }

  lemma {:induction false} MoreLeads(stack: seq<u32>, node: Node)
    ensures var link := if (node[8] == INDEX_NODE || node[8] == LEAF_NODE) && FLink(node) != 0 then [FLink(node)] else [];
            stack + Leads(node) == stack + Kids(node, RecordCount(node)) + link
  {
  }

  /** The walk of the catalog from its root. It ends on any bytes, having visited exactly the nonzero
      nodes the root leads to, each once; it breaks off only if one of them holds a record with no
      bytes, and then it always does. */
  method WalkCatalog(tree: seq<byte>, root: u32) returns (order: seq<u32>, broken: bool)
    ensures broken <==> root != 0 && Breakdown(tree, root)
    ensures NoRepeats(order) && forall n :: n in order ==> n != 0 && Reachable(tree, root, n)
    ensures !broken ==> forall n: u32 :: n in order <==> root != 0 && Reachable(tree, root, n)
  {
    order, broken := [], false;
    var stack: seq<u32> := [root];
    var visited: set<u32> := {};
    if root != 0 { RootReachable(tree, root); }
    while stack != []
      invariant Underway(tree, root, order, visited, stack)
      decreases Left(visited, NodeCount(tree)), |stack|
    {
      var n, rest := stack[|stack| - 1], stack[..|stack| - 1];
      assert stack == rest + [n];
      var node := NodeAt(tree, n);
      if n == 0 || n in visited {
        SkipKeeps(tree, root, order, visited, rest, n);
        stack := rest;
        continue;
      }
      LeftDrops(visited, n, NodeCount(tree));
      if node.None? {
        AbsentKeeps(tree, root, order, visited, rest, n);
        visited, order, stack := visited + {n}, order + [n], rest;
        continue;
      }
      var pushed;
      pushed, broken := PushLeads(node.value, rest);
      if broken {
        BrokenNode(tree, root, order, visited, rest, n);
        order := order + [n];
        return;
      }
      VisitKeeps(tree, root, order, visited, rest, n, node.value);
      visited, order, stack := visited + {n}, order + [n], pushed;
    }
    FinishedIsAll(tree, root, order, visited);
  }

  lemma {:induction false} RootIsNot0(tree: seq<byte>, root: u32, n: u32)
    requires Reachable(tree, root, n)
    ensures root != 0
  {
  }

  lemma {:induction false} NotYet(order: seq<u32>, n: u32)
    requires NoRepeats(order) && n !in order
    ensures NoRepeats(order + [n])
  {
  }

  lemma {:induction false} SkipKeeps(tree: seq<byte>, root: u32, order: seq<u32>, visited: set<u32>, rest: seq<u32>,
      n: u32)
    requires Underway(tree, root, order, visited, rest + [n]) && (n == 0 || n in visited)
    ensures Underway(tree, root, order, visited, rest)
  {
  }

  lemma {:induction false} AbsentKeeps(tree: seq<byte>, root: u32, order: seq<u32>, visited: set<u32>,
      rest: seq<u32>, n: u32)
    requires Underway(tree, root, order, visited, rest + [n])
    requires n != 0 && n !in visited && NodeAt(tree, n).None?
    ensures Underway(tree, root, order + [n], visited + {n}, rest)
  {
    NotYet(order, n);
    assert n in rest + [n];
  }

  lemma {:induction false} BrokenNode(tree: seq<byte>, root: u32, order: seq<u32>, visited: set<u32>, rest: seq<u32>,
      n: u32)
    requires Underway(tree, root, order, visited, rest + [n])
    requires n != 0 && n !in visited && NodeAt(tree, n).Some? && Breaks(NodeAt(tree, n).value)
    ensures NoRepeats(order + [n]) && root != 0 && Breakdown(tree, root) && Reachable(tree, root, n)
  {
    NotYet(order, n);
    assert n in rest + [n];
    RootIsNot0(tree, root, n);
  }

  lemma {:induction false} VisitKeeps(
      tree: seq<byte>, root: u32, order: seq<u32>, visited: set<u32>, rest: seq<u32>, n: u32, node: Node)
    requires Underway(tree, root, order, visited, rest + [n])
    requires n != 0 && n !in visited && NodeAt(tree, n) == Some(node) && !Breaks(node)
    ensures Underway(tree, root, order + [n], visited + {n}, rest + Leads(node))
  {
    NotYet(order, n);
    assert n in rest + [n];
    var waiting := rest + Leads(node);
    VisitCloses(tree, visited, rest, n, node);
    forall s | s in waiting ensures s == 0 || Reachable(tree, root, s) {
      if s in rest {
        assert s in rest + [n];
      } else if s != 0 {
        assert LeadsTo(tree, n, s);
        NextReachable(tree, root, n, s);
      }
    }
  }

  lemma {:induction false} VisitCloses(tree: seq<byte>, visited: set<u32>, rest: seq<u32>, n: u32, node: Node)
    requires Closed(tree, visited, rest + [n]) && NodeAt(tree, n) == Some(node)
    ensures Closed(tree, visited + {n}, rest + Leads(node))
  {
    forall v, w | v in visited + {n} && LeadsTo(tree, v, w)
      ensures w in visited + {n} || w in rest + Leads(node)
    {
      if v in visited && w !in visited { assert w in rest + [n]; }
    }
  }

  lemma {:induction false} FinishedIsAll(tree: seq<byte>, root: u32, order: seq<u32>, visited: set<u32>)
    requires Underway(tree, root, order, visited, [])
    ensures forall n: u32 :: n in order <==> root != 0 && Reachable(tree, root, n)
    ensures !(root != 0 && Breakdown(tree, root))
  {
    forall n: u32 | root != 0 && Reachable(tree, root, n) ensures n in visited {
      ClosedIsAll(tree, visited, root, n);
    }
    forall n: u32 | n in order ensures root != 0 && Reachable(tree, root, n) {
      RootIsNot0(tree, root, n);
    }
  }

  // ---- the extents overflow file ----------------------------------------------------------------------

  function ExtentAt(b: seq<byte>, at: nat): HfsForks.Extent
    requires at + 4 <= |b|
  {
    HfsForks.Extent(ReadU16At(b, at), ReadU16At(b, at + 2))
  }

  /** The entry an overflow record holds, if it is long enough to hold one. */
  function EntryOf(rec: seq<byte>): Option<(HfsForks.Key, HfsForks.Record)> {
    if rec == [] || rec[0] < 7 || |rec| < 1 + rec[0] as int + 12 || DataOffset(rec[0]) + 12 > |rec| then None
    else
      var at := DataOffset(rec[0]);
      Some((HfsForks.Key(ReadU32(rec, 2), rec[1], ReadU16At(rec, 6)),
            HfsForks.Record(ExtentAt(rec, at), ExtentAt(rec, at + 4), ExtentAt(rec, at + 8))))
  }

  type Entries = map<HfsForks.Key, HfsForks.Record>

  function Added(entries: Entries, node: Node, i: nat): Entries {
    match RecordAt(node, i)
    case None => entries
    case Some(rec) => if EntryOf(rec).Some? then entries[EntryOf(rec).value.0 := EntryOf(rec).value.1] else entries
  }

  /** The first `n` records of a node added in order: a later record for the same key replaces an
      earlier one. */
  function NodeEntries(entries: Entries, node: Node, n: nat): Entries {
    if n == 0 then entries else Added(NodeEntries(entries, node, n - 1), node, n - 1)
  }

  function ChainEntries(tree: seq<byte>, chain: seq<u32>): Entries {
    if chain == [] then map[] else
    var before := ChainEntries(tree, chain[..|chain| - 1]);
    match NodeAt(tree, chain[|chain| - 1])
    case None => before
    case Some(node) => NodeEntries(before, node, RecordCount(node))
  }

  /** The leaves met by following the links from `first`: all present, none twice. */
  predicate IsLeafChain(tree: seq<byte>, first: u32, chain: seq<u32>) {
    && NoRepeats(chain)
    && (forall k :: 0 <= k < |chain| ==> chain[k] != 0 && NodeAt(tree, chain[k]).Some?)
    && (chain != [] ==> chain[0] == first)
    && (forall k :: 0 <= k < |chain| - 1 ==> FLink(NodeAt(tree, chain[k]).value) == chain[k + 1])
  }

  function NextLeaf(tree: seq<byte>, first: u32, chain: seq<u32>): u32
    requires IsLeafChain(tree, first, chain)
  {
    if chain == [] then first else FLink(NodeAt(tree, chain[|chain| - 1]).value)
  }

  /** One leaf more. */
  lemma {:induction false} ChainGrows(tree: seq<byte>, first: u32, chain: seq<u32>, node: Node)
    requires IsLeafChain(tree, first, chain)
    requires var next := NextLeaf(tree, first, chain);
             next != 0 && next !in chain && NodeAt(tree, next) == Some(node)
    ensures var more := chain + [NextLeaf(tree, first, chain)];
            && IsLeafChain(tree, first, more) && NextLeaf(tree, first, more) == FLink(node)
            && ChainEntries(tree, more) == NodeEntries(ChainEntries(tree, chain), node, RecordCount(node))
            && more[|more| - 1] == NextLeaf(tree, first, chain)
  {
    var more := chain + [NextLeaf(tree, first, chain)];
    NotYet(chain, NextLeaf(tree, first, chain));
    assert more[..|more| - 1] == chain;
  }

  method AddRecords(node: Node, entries: Entries) returns (more: Entries, broken: bool)
    ensures broken <==> Breaks(node)
    ensures !broken ==> more == NodeEntries(entries, node, RecordCount(node))
  {
    more, broken := entries, false;
    var count := RecordCount(node);
    for i := 0 to count
      invariant forall j :: 0 <= j < i ==> !IsEmptyRecord(node, j)
      invariant more == NodeEntries(entries, node, i)
    {
      if IsEmptyRecord(node, i) { return more, true; }
      var rec := RecordAt(node, i);
      var entry := if rec.Some? then EntryOf(rec.value) else None;
      if entry.Some? { more := more[entry.value.0 := entry.value.1]; }
    }
  }

  /** Read the overflow records of the leaf chain. The chain is followed until a link is zero, leads
      outside the file, or leads back to a leaf already read, so it ends on any bytes. */
  method ParseOverflow(tree: seq<byte>) returns (entries: Entries, chain: seq<u32>, broken: bool)
    ensures |tree| < NODE_SIZE ==> entries == map[] && chain == [] && !broken
    ensures |tree| >= NODE_SIZE && !broken ==>
              var first := ReadU32(tree, 24);
              && IsLeafChain(tree, first, chain) && entries == ChainEntries(tree, chain)
              && (NextLeaf(tree, first, chain) == 0 || NextLeaf(tree, first, chain) in chain
                  || NodeAt(tree, NextLeaf(tree, first, chain)).None?)
    ensures |tree| >= NODE_SIZE && broken ==>
              var first := ReadU32(tree, 24);
              && chain != [] && IsLeafChain(tree, first, chain)
              && Breaks(NodeAt(tree, chain[|chain| - 1]).value)
  {
    entries, chain, broken := map[], [], false;
    if |tree| < NODE_SIZE { return; }
    var first := ReadU32(tree, 24);
    var next := first;
    var visited: set<u32> := {};
    while next != 0 && next !in visited
      invariant IsLeafChain(tree, first, chain) && next == NextLeaf(tree, first, chain)
      invariant forall v :: v in visited <==> v in chain
      invariant entries == ChainEntries(tree, chain)
      decreases Left(visited, NodeCount(tree))
    {
      var node := NodeAt(tree, next);
      if node.None? { return; }
      LeftDrops(visited, next, NodeCount(tree));
      visited := visited + {next};
      ChainGrows(tree, first, chain, node.value);
      chain := chain + [next];
      entries, broken := AddRecords(node.value, entries);
      if broken { return; }
      next := FLink(node.value);
    }
  }
}
