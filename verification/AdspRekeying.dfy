/** Two ends that move connections to new keys for each other, as a game on pairs of ids.

    A third leg of the handshake that finds its connection under another key moves the connection
    and is answered by a third leg for the same pair of ids. The pair travels back and may fire
    at the other end. Here: however the pairs are delivered, no play goes on for ever. */
module AdspRekeying {
  import opened Words

  /** The key a connection is to have at end `A` and the one at end `B`; each is the id the
      other end gave the connection. */
  datatype Pair = Pair(keyA: u16, keyB: u16)

  datatype End = A | B

  /** Keys and the ids kept under them at each end, and the pairs on their way. */
  datatype Game = Game(atA: map<u16, u16>, atB: map<u16, u16>, toA: multiset<Pair>, toB: multiset<Pair>)

  datatype Fire = Fire(end: End, pair: Pair)

  function Other(e: End): End {
    if e.A? then B else A
  }

  function KeyOf(e: End, p: Pair): u16 {
    if e.A? then p.keyA else p.keyB
  }

  function IdOf(e: End, p: Pair): u16 {
    KeyOf(Other(e), p)
  }

  function At(g: Game, e: End): map<u16, u16> {
    if e.A? then g.atA else g.atB
  }

  function To(g: Game, e: End): multiset<Pair> {
    if e.A? then g.toA else g.toB
  }

  /** The pair's key is free, and its id moves there from whatever key it had. */
  ghost predicate Moves(at: map<u16, u16>, key: u16, id: u16, at': map<u16, u16>) {
    key !in at && exists stale: u16 :: stale in at && at[stale] == id && at' == (at - {stale})[key := id]
  }

  ghost predicate Fires(g: Game, f: Fire, g': Game) {
    && f.pair in To(g, f.end)
    && Moves(At(g, f.end), KeyOf(f.end, f.pair), IdOf(f.end, f.pair), At(g', f.end))
    && At(g', Other(f.end)) == At(g, Other(f.end))
    && To(g', f.end) == To(g, f.end) - multiset{f.pair}
    && To(g', Other(f.end)) == To(g, Other(f.end)) + multiset{f.pair}
  }

  ghost predicate IsPlay(gs: seq<Game>, fs: seq<Fire>) {
    && |gs| == |fs| + 1
    && forall i :: 0 <= i < |fs| ==> Fires(gs[i], fs[i], gs[i + 1])
  }

  lemma {:induction false} PlayOneMore(gs: seq<Game>, fs: seq<Fire>, f: Fire, g: Game)
    requires IsPlay(gs, fs) && Fires(gs[|fs|], f, g)
    ensures IsPlay(gs + [g], fs + [f])
  {
  }

  predicate Within(fs: seq<Fire>, ps: set<Pair>) {
    forall i :: 0 <= i < |fs| ==> fs[i].pair in ps
  }

  function Keys(e: End, ps: set<Pair>): set<u16> {
    set p | p in ps :: KeyOf(e, p)
  }

  function FiredAt(fs: seq<Fire>, e: End): set<Pair> {
    set i | 0 <= i < |fs| && fs[i].end == e :: fs[i].pair
  }

  // ---- seats -----------------------------------------------------------------------------------

  ghost predicate Seated(at: map<u16, u16>, id: u16, keys: set<u16>) {
    exists k: u16 :: k in keys && k in at && at[k] == id
  }

  lemma {:induction false} MoveKeepsSeat(at: map<u16, u16>, key: u16, id: u16, at': map<u16, u16>, keys: set<u16>,
      other: u16)
    requires Moves(at, key, id, at') && key in keys
    ensures Seated(at', id, keys)
    ensures Seated(at, other, keys) ==> Seated(at', other, keys)
  {
    assert key in at' && at'[key] == id;
    if Seated(at, other, keys) && other != id {
      var k: u16 :| k in keys && k in at && at[k] == other;
      assert k in at' && at'[k] == other;
    }
  }

  /** An id whose pair has fired at an end sits there under the key of some pair. */
  lemma {:induction false} FiredIsSeated(gs: seq<Game>, fs: seq<Fire>, e: End, ps: set<Pair>, p: Pair)
    requires IsPlay(gs, fs) && Within(fs, ps) && p in FiredAt(fs, e)
    ensures Seated(At(gs[|fs|], e), IdOf(e, p), Keys(e, ps))
    decreases |fs|
  {
    var front, last := fs[..|fs| - 1], fs[|fs| - 1];
    assert IsPlay(gs[..|fs|], front) && Fires(gs[|fs| - 1], last, gs[|fs|]);
    if last.end == e {
      assert KeyOf(e, last.pair) in Keys(e, ps);
      MoveKeepsSeat(At(gs[|fs| - 1], e), KeyOf(e, last.pair), IdOf(e, last.pair), At(gs[|fs|], e), Keys(e, ps),
                    IdOf(e, p));
    }
    if !(last.end == e && last.pair == p) {
      assert p in FiredAt(front, e);
      FiredIsSeated(gs[..|fs|], front, e, ps, p);
    }
  }

  lemma {:induction false} SubsetSize(s: set<u16>, t: set<u16>)
    requires s <= t
    ensures |s| <= |t| && (|s| == |t| ==> s == t)
  {
    assert t == s + (t - s);
    assert |t| == |s| + |t - s|;
  }

  function Image(at: map<u16, u16>, keys: set<u16>): set<u16>
    requires keys <= at.Keys
  {
    set k | k in keys :: at[k]
  }

  lemma {:induction false} ImageSize(at: map<u16, u16>, keys: set<u16>)
    requires keys <= at.Keys
    ensures |Image(at, keys)| <= |keys|
  {
    if keys != {} {
      var k: u16 :| k in keys;
      ImageSize(at, keys - {k});
      assert Image(at, keys) == Image(at, keys - {k}) + {at[k]};
    }
  }

  /** As many ids as keys, each id under one of the keys: no key is free. */
  lemma {:induction false} AllTaken(at: map<u16, u16>, ids: set<u16>, keys: set<u16>)
    requires forall id: u16 :: id in ids ==> Seated(at, id, keys)
    requires |ids| >= |keys|
    ensures keys <= at.Keys
  {
    var taken := keys * at.Keys;
    assert ids <= Image(at, taken);
    SubsetSize(ids, Image(at, taken));
    ImageSize(at, taken);
    SubsetSize(taken, keys);
  }

  // ---- once every pair has fired at both ends ----------------------------------------------------

  ghost predicate Done(fs: seq<Fire>, ps: set<Pair>) {
    ps <= FiredAt(fs, A) && ps <= FiredAt(fs, B)
  }

  /** The end with no more keys than the other. */
  ghost function Fuller(ps: set<Pair>): End {
    if |Keys(B, ps)| >= |Keys(A, ps)| then A else B
  }

  lemma {:induction false} FullerIsFull(gs: seq<Game>, fs: seq<Fire>, ps: set<Pair>)
    requires IsPlay(gs, fs) && Within(fs, ps) && Done(fs, ps)
    ensures Keys(Fuller(ps), ps) <= At(gs[|fs|], Fuller(ps)).Keys
  {
    var e := Fuller(ps);
    forall id: u16 | id in Keys(Other(e), ps)
      ensures Seated(At(gs[|fs|], e), id, Keys(e, ps))
    {
      var p :| p in ps && KeyOf(Other(e), p) == id;
      FiredIsSeated(gs, fs, e, ps, p);
    }
    AllTaken(At(gs[|fs|], e), Keys(Other(e), ps), Keys(e, ps));
  }

  /** From then on nothing fires at the fuller end. */
  lemma {:induction false} OtherEndOnly(gs: seq<Game>, fs: seq<Fire>, ps: set<Pair>, i: nat, j: nat)
    requires IsPlay(gs, fs) && Within(fs, ps) && i <= j < |fs| && Done(fs[..i], ps)
    ensures fs[j].end == Other(Fuller(ps))
  {
    forall p, e | p in FiredAt(fs[..i], e) ensures p in FiredAt(fs[..j], e) {
      var k :| 0 <= k < i && fs[..i][k].end == e && fs[..i][k].pair == p;
      assert fs[..j][k] == fs[..i][k];
    }
    FullerIsFull(gs[..j + 1], fs[..j], ps);
    assert Fires(gs[j], fs[j], gs[j + 1]);
    assert KeyOf(fs[j].end, fs[j].pair) in Keys(fs[j].end, ps);
  }

  lemma {:induction false} OneTaken(m: multiset<Pair>, p: Pair)
    requires p in m
    ensures |m - multiset{p}| == |m| - 1
  {
    assert m == (m - multiset{p}) + multiset{p};
  }

  /** A play at one end only uses up what is on its way there. */
  lemma {:induction false} OneSidedPlay(gs: seq<Game>, fs: seq<Fire>, e: End)
    requires IsPlay(gs, fs) && forall i :: 0 <= i < |fs| ==> fs[i].end == e
    ensures |fs| <= |To(gs[0], e)|
    decreases |fs|
  {
    if fs != [] {
      assert Fires(gs[0], fs[0], gs[1]);
      OneTaken(To(gs[0], e), fs[0].pair);
      RestIsPlay(gs, fs, 1);
      OneSidedPlay(gs[1..], fs[1..], e);
    }
  }

  lemma {:induction false} RestIsPlay(gs: seq<Game>, fs: seq<Fire>, i: nat)
    requires IsPlay(gs, fs) && i <= |fs|
    ensures IsPlay(gs[i..], fs[i..]) && IsPlay(gs[..i + 1], fs[..i])
  {
    forall j | 0 <= j < |fs[i..]| ensures Fires(gs[i..][j], fs[i..][j], gs[i..][j + 1]) {
      assert Fires(gs[i + j], fs[i + j], gs[i + j + 1]);
    }
  }

  ghost function Pairs(g: Game): multiset<Pair> {
    g.toA + g.toB
  }

  /** Pairs are neither made nor lost. */
  lemma {:induction false} PairsStay(gs: seq<Game>, fs: seq<Fire>, i: nat)
    requires IsPlay(gs, fs) && i <= |fs|
    ensures Pairs(gs[i]) == Pairs(gs[0])
  {
    if i > 0 {
      PairsStay(gs, fs, i - 1);
      var f := fs[i - 1];
      assert Fires(gs[i - 1], f, gs[i]);
      assert To(gs[i - 1], f.end) == (To(gs[i - 1], f.end) - multiset{f.pair}) + multiset{f.pair};
    }
  }

  // ---- the bound -----------------------------------------------------------------------------------

  /** `m` fires, with at most `most` others before, between and after them. */
  function Spread(m: nat, most: nat): nat {
    if m == 0 then most else most + 1 + Spread(m - 1, most)
  }

  lemma {:induction false} SpreadGrows(m: nat, n: nat, most: nat)
    requires m <= n
    ensures most <= Spread(m, most) <= Spread(n, most)
    decreases n
  {
    if m < n { SpreadGrows(m, n - 1, most); } else if m > 0 { SpreadGrows(m - 1, m - 1, most); }
  }

  /** How long `n` travelling pairs, `p` of them different, can play. */
  function PlayBound(p: nat, n: nat): nat {
    if p == 0 then 0 else Spread(n, PlayBound(p - 1, n)) + 1 + n
  }

  /** Where the pair fires first. */
  function FirstFire(fs: seq<Fire>, q: Pair): (i: nat)
    ensures i <= |fs| && (i < |fs| ==> fs[i].pair == q)
    ensures Free(fs, q, 0, i)
  {
    if fs == [] || fs[0].pair == q then 0 else
    var rest := FirstFire(fs[1..], q);
    assert forall j :: 1 <= j <= rest ==> fs[j] == fs[1..][j - 1];
    1 + rest
  }

  /** The pair does not fire from `i` to `j`. */
  predicate Free(fs: seq<Fire>, q: Pair, i: nat, j: nat) {
    i <= j <= |fs| && forall k :: i <= k < j ==> fs[k].pair != q
  }

  /** How often the pair fires. */
  function Count(fs: seq<Fire>, q: Pair): nat {
    if fs == [] then 0 else (if fs[0].pair == q then 1 else 0) + Count(fs[1..], q)
  }

  lemma {:induction false} CountAfterFirst(fs: seq<Fire>, q: Pair, i: nat)
    requires i < |fs| && fs[i].pair == q && Free(fs, q, 0, i)
    ensures Count(fs, q) == 1 + Count(fs[i + 1..], q)
  {
    if i > 0 {
      CountAfterFirst(fs[1..], q, i - 1);
      assert fs[1..][i..] == fs[i + 1..];
    }
  }

  /** Few fires of one pair, and few of the others between them. */
  lemma {:induction false} PiecesAddUp(fs: seq<Fire>, q: Pair, m: nat, most: nat)
    requires Count(fs, q) <= m && forall i: nat, j: nat :: Free(fs, q, i, j) ==> j - i <= most
    ensures |fs| <= Spread(m, most)
    decreases |fs|
  {
    var i := FirstFire(fs, q);
    if i < |fs| {
      CountAfterFirst(fs, q, i);
      var rest := fs[i + 1..];
      forall j: nat, k: nat | Free(rest, q, j, k) ensures k - j <= most {
        FreeLater(fs, q, i + 1, j, k);
      }
      PiecesAddUp(rest, q, m - 1, most);
    } else {
      SpreadGrows(0, m, most);
    }
  }

  lemma {:induction false} FreeLater(fs: seq<Fire>, q: Pair, n: nat, i: nat, j: nat)
    requires n <= |fs| && Free(fs[n..], q, i, j)
    ensures Free(fs, q, n + i, n + j)
  {
    assert forall k :: n + i <= k < n + j ==> fs[k] == fs[n..][k - n];
  }

  /** A pair that fires at one end only fires no more often than it is on its way there. */
  lemma {:induction false} OneSidedPair(gs: seq<Game>, fs: seq<Fire>, q: Pair, e: End)
    requires IsPlay(gs, fs) && forall i :: 0 <= i < |fs| && fs[i].pair == q ==> fs[i].end == e
    ensures Count(fs, q) <= To(gs[0], e)[q]
    decreases |fs|
  {
    if fs != [] {
      assert Fires(gs[0], fs[0], gs[1]);
      RestIsPlay(gs, fs, 1);
      OneSidedPair(gs[1..], fs[1..], q, e);
    }
  }

  /** While some pair has not fired at both ends. */
  lemma {:induction false} PlayNotDone(gs: seq<Game>, fs: seq<Fire>, ps: set<Pair>, p: nat, n: nat)
    requires IsPlay(gs, fs) && Within(fs, ps) && |ps| <= p && |Pairs(gs[0])| <= n && !Done(fs, ps)
    ensures p > 0 && |fs| <= Spread(n, PlayBound(p - 1, n))
    decreases p, 1
  {
    var e := if ps <= FiredAt(fs, A) then B else A;
    var q :| q in ps && q !in FiredAt(fs, e);
    forall i | 0 <= i < |fs| && fs[i].pair == q ensures fs[i].end == Other(e) {
      assert fs[i].pair in FiredAt(fs, fs[i].end);
    }
    OneSidedPair(gs, fs, q, Other(e));
    assert To(gs[0], Other(e))[q] <= |To(gs[0], Other(e))|;
    forall i: nat, j: nat | Free(fs, q, i, j) ensures j - i <= PlayBound(p - 1, n) {
      PieceEnds(gs, fs, ps, q, i, j, p, n);
    }
    PiecesAddUp(fs, q, n, PlayBound(p - 1, n));
  }

  /** Between two fires of a pair the others play alone. */
  lemma {:induction false} PieceEnds(gs: seq<Game>, fs: seq<Fire>, ps: set<Pair>, q: Pair, i: nat, j: nat, p: nat,
      n: nat)
    requires IsPlay(gs, fs) && Within(fs, ps) && |ps| <= p && |Pairs(gs[0])| <= n && q in ps && Free(fs, q, i, j)
    ensures p > 0 && j - i <= PlayBound(p - 1, n)
    decreases p, 0
  {
    RestIsPlay(gs, fs, i);
    PairsStay(gs, fs, i);
    var gs1, fs1 := gs[i..], fs[i..];
    RestIsPlay(gs1, fs1, j - i);
    var piece := fs1[..j - i];
    forall k | 0 <= k < |piece| ensures piece[k].pair in ps - {q} {
      assert piece[k] == fs[i + k];
    }
    assert |ps - {q}| == |ps| - 1;
    PlayEnds(gs1[..j - i + 1], piece, ps - {q}, p - 1, n);
  }

  lemma {:induction false} FirstDone(fs: seq<Fire>, ps: set<Pair>) returns (i: nat)
    requires Done(fs, ps) && !Done([], ps)
    ensures 0 < i <= |fs| && Done(fs[..i], ps) && !Done(fs[..i - 1], ps)
    decreases |fs|
  {
    assert fs[..|fs|] == fs;
    var front := fs[..|fs| - 1];
    if Done(front, ps) {
      i := FirstDone(front, ps);
      assert front[..i] == fs[..i] && front[..i - 1] == fs[..i - 1];
    } else {
      i := |fs|;
    }
  }

  lemma {:induction false} NothingDone(ps: set<Pair>)
    requires ps != {}
    ensures !Done([], ps)
  {
    var p :| p in ps;
  }

  /** Once every pair has fired at both ends, only what travels to one end can still fire. */
  lemma {:induction false} PlayAfterDone(gs: seq<Game>, fs: seq<Fire>, ps: set<Pair>, i: nat)
    requires IsPlay(gs, fs) && Within(fs, ps) && i <= |fs| && Done(fs[..i], ps)
    ensures |fs| - i <= |Pairs(gs[0])|
  {
    RestIsPlay(gs, fs, i);
    PairsStay(gs, fs, i);
    forall j | 0 <= j < |fs[i..]| ensures fs[i..][j].end == Other(Fuller(ps)) {
      OtherEndOnly(gs, fs, ps, i, i + j);
    }
    OneSidedPlay(gs[i..], fs[i..], Other(Fuller(ps)));
  }

  lemma {:induction false} SomePair(fs: seq<Fire>, ps: set<Pair>)
    requires Within(fs, ps)
    ensures fs != [] ==> ps != {}
  {
    if fs != [] { assert fs[0].pair in ps; }
  }

  /** Every play ends. */
  lemma {:induction false} PlayEnds(gs: seq<Game>, fs: seq<Fire>, ps: set<Pair>, p: nat, n: nat)
    requires IsPlay(gs, fs) && Within(fs, ps) && |ps| <= p && |Pairs(gs[0])| <= n
    ensures |fs| <= PlayBound(p, n)
    decreases p, 2
  {
    if ps == {} {
      SomePair(fs, ps);
    } else if !Done(fs, ps) {
      PlayNotDone(gs, fs, ps, p, n);
    } else {
      NothingDone(ps);
      var i := FirstDone(fs, ps);
      RestIsPlay(gs, fs, i - 1);
      PlayNotDone(gs[..i], fs[..i - 1], ps, p, n);
      PlayAfterDone(gs, fs, ps, i);
    }
  }

  lemma {:induction false} DistinctFew(ps: set<Pair>, m: multiset<Pair>)
    requires forall p :: p in ps ==> p in m
    ensures |ps| <= |m|
  {
    if ps != {} {
      var p :| p in ps;
      OneTaken(m, p);
      DistinctFew(ps - {p}, m - multiset{p});
    }
  }

  /** However `n` pairs travel, they fire at most so often. */
  lemma {:induction false} PlaysEnd(gs: seq<Game>, fs: seq<Fire>, n: nat)
    requires IsPlay(gs, fs) && |Pairs(gs[0])| <= n
    ensures |fs| <= PlayBound(n, n)
  {
    var ps := set p | p in Pairs(gs[0]);
    DistinctFew(ps, Pairs(gs[0]));
    forall i | 0 <= i < |fs| ensures fs[i].pair in ps {
      PairsStay(gs, fs, i);
      assert Fires(gs[i], fs[i], gs[i + 1]);
      assert fs[i].pair in Pairs(gs[i]);
    }
    PlayEnds(gs, fs, ps, n, n);
  }
}
