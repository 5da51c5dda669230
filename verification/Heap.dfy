/**
  The kernel heap: an address-ordered list of free blocks from which `getmem`
  carves at the low end of the first block that fits, `getstk` at the high end of
  the last block that fits, and to which `freemem` returns blocks, coalescing on
  both sides.

  This module is the value-level specification: free lists are sequences of
  blocks, and what a list stands for is the set of addresses it covers.
*/
module HeapSpec {
  import opened Common

  const UINT32 := 0x1_0000_0000

  datatype Block = Block(addr: int, len: int) {
    function End(): int { addr + len }
    predicate Has(x: int) { addr <= x < End() }
  }

  /** Round up to a multiple of 8 in 32-bit arithmetic: the sum wraps. */
  function RoundMb(x: nat): nat {
    ((x + 7) % UINT32) / 8 * 8
  }

  /** The address `freestk` hands to `freemem` for the pointer `getstk` returned. */
  function FreestkAddress(p: int, n: nat): int {
    p - RoundMb(n) + 4
  }

  // ----- what a free list stands for

  ghost predicate Covers(free: seq<Block>, x: int) {
    exists i :: 0 <= i < |free| && free[i].Has(x)
  }

  /** Ascending maximal runs: every two blocks are separated by at least one byte. */
  ghost predicate Canonical(free: seq<Block>) {
    && (forall i :: 0 <= i < |free| ==> free[i].addr > 0 && free[i].len > 0)
    && (forall i, j :: 0 <= i < j < |free| ==> free[i].End() < free[j].addr)
  }

  /** Every block can hold a list node: addresses and lengths are multiples of 8. */
  ghost predicate Aligned(free: seq<Block>) {
    forall i :: 0 <= i < |free| ==> free[i].addr % 8 == 0 && free[i].len % 8 == 0
  }

  ghost predicate Inside(free: seq<Block>, lo: int, hi: int) {
    forall i :: 0 <= i < |free| ==> lo <= free[i].addr && free[i].End() <= hi
  }

  function Total(free: seq<Block>): int {
    if free == [] then 0 else Total(free[..|free| - 1]) + free[|free| - 1].len
  }

  // ----- the operations on lists

  /** First block that fits, or the length of the list. */
  function FirstFit(free: seq<Block>, n: nat): (i: nat)
    ensures i <= |free|
    ensures forall j :: 0 <= j < i ==> free[j].len < n
    ensures i < |free| ==> free[i].len >= n
  {
    if free == [] then 0
    else if free[0].len >= n then 0
    else 1 + FirstFit(free[1..], n)
  }

  /** Last block that fits, if any. */
  function LastFit(free: seq<Block>, n: nat): (r: Option<nat>)
    ensures r.Some? ==> r.value < |free| && free[r.value].len >= n
    ensures r.Some? ==> forall j :: r.value < j < |free| ==> free[j].len < n
    ensures r.None? ==> forall j :: 0 <= j < |free| ==> free[j].len < n
  {
    if free == [] then None
    else if free[|free| - 1].len >= n then Some(|free| - 1)
    else LastFit(free[..|free| - 1], n)
  }

  /** The blocks l..h replaced by `mid`. */
  function Splice(free: seq<Block>, l: nat, h: nat, mid: seq<Block>): (r: seq<Block>)
    requires l <= h <= |free|
  {
    var n := l + |mid| + |free| - h;
    seq(n, k requires 0 <= k < n =>
      if k < l then free[k] else if k < l + |mid| then mid[k - l] else free[k - l - |mid| + h])
  }

  function LowCarved(b: Block, n: nat): (rest: seq<Block>)
    ensures |rest| <= 1
  {
    if b.len == n then [] else [Block(b.addr + n, b.len - n)]
  }

  function HighCarved(b: Block, n: nat): (rest: seq<Block>)
    ensures |rest| <= 1
  {
    if b.len == n then [] else [Block(b.addr, b.len - n)]
  }

  function CarveLow(free: seq<Block>, i: nat, n: nat): seq<Block>
    requires i < |free|
  {
    Splice(free, i, i + 1, LowCarved(free[i], n))
  }

  function CarveHigh(free: seq<Block>, i: nat, n: nat): seq<Block>
    requires i < |free|
  {
    Splice(free, i, i + 1, HighCarved(free[i], n))
  }

  /** Number of blocks that start below an address. */
  function Position(free: seq<Block>, a: int): (i: nat)
    ensures i <= |free|
    ensures forall j :: 0 <= j < i ==> free[j].addr < a
    ensures i < |free| ==> free[i].addr >= a
  {
    if free == [] then 0
    else if free[0].addr >= a then 0
    else 1 + Position(free[1..], a)
  }

  /** The overlap test of `freemem`: only the two list neighbours are looked at. */
  predicate Accepts(free: seq<Block>, a: int, n: int) {
    var i := Position(free, a);
    && (i > 0 ==> free[i - 1].End() <= a)
    && (i < |free| ==> a + n <= free[i].addr)
  }

  /** First block that the range [a, a+n) merges with, seen from the low side. */
  function LowCut(free: seq<Block>, a: int): (l: nat)
    ensures l <= Position(free, a)
  {
    var i := Position(free, a);
    if i > 0 && free[i - 1].End() == a then i - 1 else i
  }

  /** First block above the range that stays separate. */
  function HighCut(free: seq<Block>, a: int, n: int): (h: nat)
    ensures Position(free, a) <= h <= |free|
  {
    var i := Position(free, a);
    if i < |free| && a + n == free[i].addr then i + 1 else i
  }

  /** The range together with the neighbours it touches. */
  function Merged(free: seq<Block>, a: int, n: int): Block {
    var i := Position(free, a);
    var lo := if LowCut(free, a) < i then free[i - 1].addr else a;
    var hi := if HighCut(free, a, n) > i then free[i].End() else a + n;
    Block(lo, hi - lo)
  }

  function Release(free: seq<Block>, a: int, n: int): seq<Block> {
    Splice(free, LowCut(free, a), HighCut(free, a, n), [Merged(free, a, n)])
  }

  // ----- lemmas about coverage and totals

  lemma CoversConcat(p: seq<Block>, q: seq<Block>, x: int)
    ensures Covers(p + q, x) <==> Covers(p, x) || Covers(q, x)
  {
    if Covers(p, x) {
      var i :| 0 <= i < |p| && p[i].Has(x);
      assert (p + q)[i].Has(x);
    }
    if Covers(q, x) {
      var i :| 0 <= i < |q| && q[i].Has(x);
      assert (p + q)[|p| + i].Has(x);
    }
  }

  lemma CoversOne(b: Block, x: int)
    ensures Covers([b], x) <==> b.Has(x)
  {
    assert [b][0] == b;
  }

  lemma CoversSplit(free: seq<Block>, i: nat, x: int)
    requires i < |free|
    ensures Covers(free, x) <==> Covers(free[..i], x) || free[i].Has(x) || Covers(free[i + 1..], x)
  {
    assert free == free[..i] + [free[i]] + free[i + 1..];
    CoversConcat(free[..i] + [free[i]], free[i + 1..], x);
    CoversConcat(free[..i], [free[i]], x);
    CoversOne(free[i], x);
  }

  lemma {:induction false} TotalConcat(p: seq<Block>, q: seq<Block>)
    ensures Total(p + q) == Total(p) + Total(q)
    decreases |q|
  {
    if q == [] {
      assert p + q == p;
    } else {
      assert (p + q)[..|p + q| - 1] == p + q[..|q| - 1];
      TotalConcat(p, q[..|q| - 1]);
    }
  }

  /** In a canonical list a block covers no address of another block. */
  lemma CanonicalGap(free: seq<Block>, i: nat, x: int)
    requires Canonical(free) && i < |free| && free[i].Has(x)
    ensures !Covers(free[..i], x) && !Covers(free[i + 1..], x)
  {
  }

  // ----- what the operations do to the covered addresses

  lemma SpliceConcat(free: seq<Block>, l: nat, h: nat, mid: seq<Block>)
    requires l <= h <= |free|
    ensures Splice(free, l, h, mid) == free[..l] + mid + free[h..]
    ensures free == free[..l] + free[l..h] + free[h..]
  {
  }

  lemma {:induction false} SpliceTotal(free: seq<Block>, l: nat, h: nat, mid: seq<Block>)
    requires l <= h <= |free|
    ensures Total(Splice(free, l, h, mid)) == Total(free) - Total(free[l..h]) + Total(mid)
  {
    SpliceConcat(free, l, h, mid);
    JoinedTotal(free[..l], mid, free[h..]);
    JoinedTotal(free[..l], free[l..h], free[h..]);
  }

  lemma SpliceCovers(free: seq<Block>, l: nat, h: nat, mid: seq<Block>, x: int)
    requires l <= h <= |free|
    ensures Covers(Splice(free, l, h, mid), x) <==> Covers(free[..l], x) || Covers(mid, x) || Covers(free[h..], x)
    ensures Covers(free, x) <==> Covers(free[..l], x) || Covers(free[l..h], x) || Covers(free[h..], x)
  {
    SpliceConcat(free, l, h, mid);
    JoinedCovers(free[..l], mid, free[h..], x);
    JoinedCovers(free[..l], free[l..h], free[h..], x);
  }

  lemma SpliceCanonical(free: seq<Block>, l: nat, h: nat, mid: seq<Block>)
    requires Canonical(free) && l <= h <= |free| && |mid| <= 1
    requires mid != [] ==> mid[0].addr > 0 && mid[0].len > 0
    requires mid != [] ==> forall j :: 0 <= j < l ==> free[j].End() < mid[0].addr
    requires mid != [] ==> forall j :: h <= j < |free| ==> mid[0].End() < free[j].addr
    ensures Canonical(Splice(free, l, h, mid))
  {
    var r := Splice(free, l, h, mid);
    forall i, j | 0 <= i < j < |r| ensures r[i].End() < r[j].addr { SplicedPair(free, l, h, mid, i, j); }
  }

  lemma SplicedPair(free: seq<Block>, l: nat, h: nat, mid: seq<Block>, i: nat, j: nat)
    requires (forall a, b :: 0 <= a < b < |free| ==> free[a].End() < free[b].addr) && l <= h <= |free| && |mid| <= 1
    requires mid != [] ==> forall a :: 0 <= a < l ==> free[a].End() < mid[0].addr
    requires mid != [] ==> forall a :: h <= a < |free| ==> mid[0].End() < free[a].addr
    requires i < j < |Splice(free, l, h, mid)|
    ensures Splice(free, l, h, mid)[i].End() < Splice(free, l, h, mid)[j].addr
  {
    var d := h - l - |mid|;
    var a, b := if i < l then i else i + d, if j < l then j else j + d;
    if j < l || i >= l + |mid| || (i < l && j >= l + |mid|) { assert free[a].End() < free[b].addr; }
  }

  lemma JoinedCovers(p: seq<Block>, q: seq<Block>, r: seq<Block>, x: int)
    ensures Covers(p + q + r, x) <==> Covers(p, x) || Covers(q, x) || Covers(r, x)
  {
    CoversConcat(p + q, r, x);
    CoversConcat(p, q, x);
  }

  lemma {:induction false} JoinedTotal(p: seq<Block>, q: seq<Block>, r: seq<Block>)
    ensures Total(p + q + r) == Total(p) + Total(q) + Total(r)
  {
    TotalConcat(p + q, r);
    TotalConcat(p, q);
  }

  lemma {:induction false} TotalOne(s: seq<Block>)
    requires |s| <= 1
    ensures Total(s) == if s == [] then 0 else s[0].len
  {
    if s != [] { assert s[..0] == []; }
  }

  /** Both carvings leave a canonical list that is `n` bytes shorter. */
  lemma {:induction false} CarveShape(free: seq<Block>, i: nat, n: nat)
    requires Canonical(free) && i < |free| && n <= free[i].len
    ensures Canonical(CarveLow(free, i, n)) && Total(CarveLow(free, i, n)) == Total(free) - n
    ensures Canonical(CarveHigh(free, i, n)) && Total(CarveHigh(free, i, n)) == Total(free) - n
  {
    CarvedShape(free, i, LowCarved(free[i], n));
    CarvedShape(free, i, HighCarved(free[i], n));
  }

  lemma CarvedShape(free: seq<Block>, i: nat, mid: seq<Block>)
    requires Canonical(free) && i < |free| && |mid| <= 1
    requires mid != [] ==> mid[0].len > 0 && free[i].addr <= mid[0].addr && mid[0].End() <= free[i].End()
    ensures Canonical(Splice(free, i, i + 1, mid))
    ensures Total(Splice(free, i, i + 1, mid)) == Total(free) - free[i].len + if mid == [] then 0 else mid[0].len
  {
    SpliceCanonical(free, i, i + 1, mid);
    SpliceTotal(free, i, i + 1, mid);
    TotalOne(mid);
    TotalOne(free[i..i + 1]);
  }

  lemma CarveLowCovers(free: seq<Block>, i: nat, n: nat, x: int)
    requires Canonical(free) && i < |free| && n <= free[i].len
    ensures Covers(CarveLow(free, i, n), x) <==> Covers(free, x) && !Block(free[i].addr, n).Has(x)
  {
    CarvedCovers(free, i, LowCarved(free[i], n), x);
  }

  lemma CarveHighCovers(free: seq<Block>, i: nat, n: nat, x: int)
    requires Canonical(free) && i < |free| && n <= free[i].len
    ensures Covers(CarveHigh(free, i, n), x) <==> Covers(free, x) && !Block(free[i].End() - n, n).Has(x)
  {
    CarvedCovers(free, i, HighCarved(free[i], n), x);
  }

  lemma CarvedCovers(free: seq<Block>, i: nat, mid: seq<Block>, x: int)
    requires Canonical(free) && i < |free| && |mid| <= 1
    requires mid != [] ==> mid[0].len > 0 && free[i].addr <= mid[0].addr && mid[0].End() <= free[i].End()
    ensures Covers(Splice(free, i, i + 1, mid), x) <==>
            Covers(free, x) && (free[i].Has(x) ==> mid != [] && mid[0].Has(x))
  {
    SpliceCovers(free, i, i + 1, mid, x);
    assert free[i..i + 1] == [free[i]];
    CoversOne(free[i], x);
    if mid != [] { assert mid == [mid[0]]; CoversOne(mid[0], x); }
    if free[i].Has(x) { CanonicalGap(free, i, x); }
  }

  /**
    Checking only the two neighbours is exact: a range is accepted precisely when
    it is disjoint from every free block.
  */
  lemma AcceptsExactly(free: seq<Block>, a: int, n: int)
    requires Canonical(free) && n > 0
    ensures Accepts(free, a, n) <==> forall x :: Block(a, n).Has(x) ==> !Covers(free, x)
  {
    var i := Position(free, a);
    if !Accepts(free, a, n) {
      if i > 0 && free[i - 1].End() > a {
        assert free[i - 1].Has(a) && Block(a, n).Has(a);
      } else {
        assert free[i].Has(free[i].addr) && Block(a, n).Has(free[i].addr);
      }
    }
  }

  lemma MergedBounds(free: seq<Block>, a: int, n: int)
    requires Canonical(free) && Accepts(free, a, n) && a > 0 && n > 0
    ensures Merged(free, a, n).addr > 0 && Merged(free, a, n).len > 0
    ensures forall j :: 0 <= j < LowCut(free, a) ==> free[j].End() < Merged(free, a, n).addr
    ensures forall j :: HighCut(free, a, n) <= j < |free| ==> Merged(free, a, n).End() < free[j].addr
  {
    var i := Position(free, a);
    var m := Merged(free, a, n);
    forall j | HighCut(free, a, n) <= j < |free| ensures m.End() < free[j].addr {
      if j > i { assert free[i].End() < free[j].addr; }
    }
  }

  lemma MergedEffect(free: seq<Block>, a: int, n: int)
    requires Canonical(free) && Accepts(free, a, n) && a > 0 && n > 0
    ensures var cut := free[LowCut(free, a)..HighCut(free, a, n)];
            && Merged(free, a, n).len == n + Total(cut)
            && forall x :: Merged(free, a, n).Has(x) <==> Block(a, n).Has(x) || Covers(cut, x)
  {
    var i := Position(free, a);
    var l, h := LowCut(free, a), HighCut(free, a, n);
    MergedRun(free[l..h], l < i, h > i, Merged(free, a, n), a, n);
  }

  lemma {:induction false} MergedRun(cut: seq<Block>, joinLow: bool, joinHigh: bool, mid: Block, a: int, n: int)
    requires |cut| == (if joinLow then 1 else 0) + if joinHigh then 1 else 0
    requires n > 0 && forall j :: 0 <= j < |cut| ==> cut[j].len > 0
    requires if joinLow then cut[0].addr == mid.addr && cut[0].End() == a else mid.addr == a
    requires if joinHigh then cut[|cut| - 1].addr == a + n && cut[|cut| - 1].End() == mid.End() else mid.End() == a + n
    ensures mid.len == n + Total(cut)
    ensures forall x :: mid.Has(x) <==> Block(a, n).Has(x) || Covers(cut, x)
  {
    if |cut| == 2 {
      assert cut == [cut[0]] + [cut[1]];
      TotalConcat([cut[0]], [cut[1]]);
      TotalOne([cut[0]]);
      TotalOne([cut[1]]);
    } else {
      TotalOne(cut);
    }
    forall x ensures mid.Has(x) <==> Block(a, n).Has(x) || Covers(cut, x) {
      if |cut| > 0 { assert cut[0].Has(x) ==> Covers(cut, x); }
      if |cut| > 1 { assert cut[1].Has(x) ==> Covers(cut, x); }
    }
  }

  lemma {:induction false} ReleaseShape(free: seq<Block>, a: int, n: int)
    requires Canonical(free) && Accepts(free, a, n) && a > 0 && n > 0
    ensures Canonical(Release(free, a, n))
    ensures Total(Release(free, a, n)) == Total(free) + n
  {
    var l, h, m := LowCut(free, a), HighCut(free, a, n), Merged(free, a, n);
    MergedBounds(free, a, n);
    SpliceCanonical(free, l, h, [m]);
    MergedEffect(free, a, n);
    SpliceTotal(free, l, h, [m]);
    TotalOne([m]);
  }

  lemma ReleaseCovers(free: seq<Block>, a: int, n: int, x: int)
    requires Canonical(free) && Accepts(free, a, n) && a > 0 && n > 0
    ensures Covers(Release(free, a, n), x) <==> Covers(free, x) || Block(a, n).Has(x)
  {
    MergedEffect(free, a, n);
    SpliceCovers(free, LowCut(free, a), HighCut(free, a, n), [Merged(free, a, n)], x);
    CoversOne(Merged(free, a, n), x);
  }

  // ----- canonical lists are determined by what they cover

  lemma FirstBlock(f: seq<Block>, x: int)
    requires Canonical(f) && f != []
    ensures Covers(f, x) ==> x >= f[0].addr
    ensures Covers(f, f[0].addr) && !Covers(f, f[0].End())
    ensures f[0].Has(x) ==> Covers(f, x)
    ensures Covers(f[1..], x) <==> Covers(f, x) && x >= f[0].End()
    ensures Canonical(f[1..])
  {
    assert f[0].Has(f[0].addr);
    CoversSplit(f, 0, x);
    assert f[..0] == [];
    if Covers(f[1..], x) {
      var i :| 0 <= i < |f[1..]| && f[1..][i].Has(x);
      assert f[i + 1].Has(x);
    }
  }

  /** Two canonical lists that cover the same addresses are the same list. */
  lemma {:induction false} CanonicalUnique(f: seq<Block>, g: seq<Block>)
    requires Canonical(f) && Canonical(g)
    requires forall x :: Covers(f, x) <==> Covers(g, x)
    ensures f == g
  {
    if f == [] {
      if g != [] { FirstBlock(g, 0); }
    } else if g == [] {
      FirstBlock(f, 0);
    } else {
      FirstBlock(f, f[0].addr);
      FirstBlock(g, g[0].addr);
      FirstBlock(f, g[0].addr);
      FirstBlock(g, f[0].addr);
      assert f[0].addr == g[0].addr;
      FirstBlock(f, g[0].End());
      FirstBlock(g, f[0].End());
      assert f[0] == g[0];
      forall x ensures Covers(f[1..], x) <==> Covers(g[1..], x) {
        FirstBlock(f, x);
        FirstBlock(g, x);
      }
      FirstBlock(f, 0);
      FirstBlock(g, 0);
      CanonicalUnique(f[1..], g[1..]);
      assert f == [f[0]] + f[1..] && g == [g[0]] + g[1..];
    }
  }

  // ----- runs of the allocator

  /** A heap with the blocks its callers hold. */
  datatype State = State(free: seq<Block>, live: seq<Block>)

  /** `Free(i)` returns the i-th block still held. */
  datatype Op = Getmem(n: nat) | Getstk(n: nat) | Free(i: nat)

  /** The empty heap that `meminit` sets up. */
  function Init(lo: int, hi: int): State {
    State([Block(lo, hi - lo)], [])
  }

  /** Requests are 32-bit and do not round to 0; only blocks that are held are freed. */
  predicate Allowed(s: State, op: Op) {
    match op
    case Getmem(n) => 0 < n <= UINT32 - 8
    case Getstk(n) => 0 < n <= UINT32 - 8
    case Free(i) => i < |s.live|
  }

  /** A failing request leaves the state alone. */
  function Step(s: State, op: Op): State {
    match op
    case Getmem(n) =>
      var m := RoundMb(n);
      var i := FirstFit(s.free, m);
      if i < |s.free| then State(CarveLow(s.free, i, m), s.live + [Block(s.free[i].addr, m)]) else s
    case Getstk(n) =>
      var m := RoundMb(n);
      (match LastFit(s.free, m)
       case Some(i) => State(CarveHigh(s.free, i, m), s.live + [Block(s.free[i].End() - m, m)])
       case None => s)
    case Free(i) =>
      if i < |s.live| && Accepts(s.free, s.live[i].addr, s.live[i].len)
      then State(Release(s.free, s.live[i].addr, s.live[i].len), s.live[..i] + s.live[i + 1..])
      else s
  }

  function Run(s: State, ops: seq<Op>): State {
    if ops == [] then s else Step(Run(s, ops[..|ops| - 1]), ops[|ops| - 1])
  }

  ghost predicate AllAllowed(s: State, ops: seq<Op>) {
    forall k :: 0 <= k < |ops| ==> Allowed(Run(s, ops[..k]), ops[k])
  }

  predicate Geometry(lo: int, hi: int) {
    0 < lo < hi < UINT32 && lo % 8 == 0 && hi % 8 == 0
  }

  /** How many held blocks contain an address. */
  function Holders(live: seq<Block>, x: int): nat {
    if live == [] then 0
    else Holders(live[..|live| - 1], x) + if live[|live| - 1].Has(x) then 1 else 0
  }

  /**
    The heap is partitioned: each of its addresses is in the free list or in
    exactly one held block, and nothing outside it is in either.
  */
  ghost predicate Sound(s: State, lo: int, hi: int) {
    && Canonical(s.free)
    && (forall i :: 0 <= i < |s.live| ==> s.live[i].addr > 0 && s.live[i].len > 0)
    && (forall x :: Holders(s.live, x) + (if Covers(s.free, x) then 1 else 0) == if lo <= x < hi then 1 else 0)
  }

  lemma {:induction false} HoldersConcat(p: seq<Block>, q: seq<Block>, x: int)
    ensures Holders(p + q, x) == Holders(p, x) + Holders(q, x)
    decreases |q|
  {
    if q == [] {
      assert p + q == p;
    } else {
      assert (p + q)[..|p + q| - 1] == p + q[..|q| - 1];
      HoldersConcat(p, q[..|q| - 1], x);
    }
  }

  lemma {:induction false} HoldersSplit(live: seq<Block>, i: nat, x: int)
    requires i < |live|
    ensures Holders(live, x) == Holders(live[..i] + live[i + 1..], x) + if live[i].Has(x) then 1 else 0
  {
    assert live == live[..i] + [live[i]] + live[i + 1..];
    HoldersConcat(live[..i] + [live[i]], live[i + 1..], x);
    HoldersConcat(live[..i], [live[i]], x);
    HoldersConcat(live[..i], live[i + 1..], x);
    assert [live[i]][..0] == [];
  }

  lemma {:induction false} HoldersAppend(live: seq<Block>, b: Block, x: int)
    ensures Holders(live + [b], x) == Holders(live, x) + if b.Has(x) then 1 else 0
  {
    assert (live + [b])[..|live|] == live;
  }

  /** Partition implies what the allocator's callers rely on. */
  lemma LiveDisjoint(s: State, lo: int, hi: int, i: nat, j: nat, x: int)
    requires Sound(s, lo, hi) && i < |s.live| && s.live[i].Has(x)
    ensures lo <= x < hi && !Covers(s.free, x)
    ensures j < |s.live| && s.live[j].Has(x) ==> i == j
  {
    HoldersSplit(s.live, i, x);
    if j < |s.live| && s.live[j].Has(x) && j != i {
      var rest := s.live[..i] + s.live[i + 1..];
      var k := if j < i then j else j - 1;
      assert rest[k] == s.live[j];
      HoldersSplit(rest, k, x);
    }
  }

  lemma RoundMbFits(n: nat)
    requires 0 < n < UINT32
    ensures RoundMb(n) % 8 == 0
    ensures RoundMb(n) >= n <==> n <= UINT32 - 8
    ensures n <= UINT32 - 8 ==> n <= RoundMb(n) < n + 8
    ensures n > UINT32 - 8 ==> RoundMb(n) == 0
  {
  }

  /** The block that `freestk` frees is the block that `getstk` carved. */
  lemma FreestkInvertsGetstk(b: Block, n: nat)
    requires b.len == RoundMb(n)
    ensures FreestkAddress(b.addr + b.len - 4, n) == b.addr && RoundMb(RoundMb(n)) == RoundMb(n)
  {
  }

  lemma StepSound(s: State, op: Op, lo: int, hi: int)
    requires Sound(s, lo, hi) && Allowed(s, op)
    ensures Sound(Step(s, op), lo, hi)
    ensures !op.Free? ==> Total(Step(s, op).free) ==
                          Total(s.free) - if |Step(s, op).live| > |s.live| then RoundMb(op.n) else 0
    ensures op.Free? ==> Total(Step(s, op).free) == Total(s.free) + s.live[op.i].len
    ensures op.Free? ==> |Step(s, op).live| == |s.live| - 1
  {
    match op
    case Getmem(n) =>
      RoundMbFits(n);
      var i := FirstFit(s.free, RoundMb(n));
      if i < |s.free| {
        CarveShape(s.free, i, RoundMb(n));
        forall x { CarveLowCovers(s.free, i, RoundMb(n), x); }
        GrantSound(s, Step(s, op), Block(s.free[i].addr, RoundMb(n)), i, lo, hi);
      }
    case Getstk(n) =>
      RoundMbFits(n);
      var r := LastFit(s.free, RoundMb(n));
      if r.Some? {
        CarveShape(s.free, r.value, RoundMb(n));
        forall x { CarveHighCovers(s.free, r.value, RoundMb(n), x); }
        GrantSound(s, Step(s, op), Block(s.free[r.value].End() - RoundMb(n), RoundMb(n)), r.value, lo, hi);
      }
    case Free(i) =>
      ReturnSound(s, i, lo, hi);
  }

  lemma ReturnSound(s: State, i: nat, lo: int, hi: int)
    requires Sound(s, lo, hi) && i < |s.live|
    ensures Accepts(s.free, s.live[i].addr, s.live[i].len)
    ensures Sound(Step(s, Free(i)), lo, hi)
    ensures Total(Step(s, Free(i)).free) == Total(s.free) + s.live[i].len
  {
    var b := s.live[i];
    forall x | b.Has(x) ensures !Covers(s.free, x) {
      LiveDisjoint(s, lo, hi, i, i, x);
    }
    AcceptsExactly(s.free, b.addr, b.len);
    ReleaseShape(s.free, b.addr, b.len);
    var t := Step(s, Free(i));
    forall x ensures Holders(t.live, x) + (if Covers(t.free, x) then 1 else 0) == if lo <= x < hi then 1 else 0 {
      ReturnHolders(s, i, lo, hi, x);
    }
  }

  /** Every address still has one holder. */
  lemma {:induction false} ReturnHolders(s: State, i: nat, lo: int, hi: int, x: int)
    requires Sound(s, lo, hi) && i < |s.live| && Accepts(s.free, s.live[i].addr, s.live[i].len)
    ensures var t := Step(s, Free(i));
            Holders(t.live, x) + (if Covers(t.free, x) then 1 else 0) == if lo <= x < hi then 1 else 0
  {
    HoldersSplit(s.live, i, x);
    ReleaseCovers(s.free, s.live[i].addr, s.live[i].len, x);
  }

  lemma GrantSound(s: State, t: State, b: Block, i: nat, lo: int, hi: int)
    requires Sound(s, lo, hi) && i < |s.free| && b.addr > 0 && b.len > 0
    requires s.free[i].addr <= b.addr && b.End() <= s.free[i].End()
    requires t.live == s.live + [b] && Canonical(t.free)
    requires forall x :: Covers(t.free, x) <==> Covers(s.free, x) && !b.Has(x)
    ensures Sound(t, lo, hi)
  {
    forall x
      ensures Holders(t.live, x) + (if Covers(t.free, x) then 1 else 0) == if lo <= x < hi then 1 else 0
    {
      HoldersAppend(s.live, b, x);
      if b.Has(x) { assert s.free[i].Has(x); }
    }
  }

  lemma InitSound(lo: int, hi: int)
    requires Geometry(lo, hi)
    ensures Sound(Init(lo, hi), lo, hi)
  {
    forall x ensures Covers(Init(lo, hi).free, x) <==> lo <= x < hi {
      CoversOne(Block(lo, hi - lo), x);
    }
  }

  /** Every state of every run that starts at `meminit` is sound. */
  lemma {:induction false} RunSound(lo: int, hi: int, ops: seq<Op>)
    requires Geometry(lo, hi) && AllAllowed(Init(lo, hi), ops)
    ensures Sound(Run(Init(lo, hi), ops), lo, hi)
    decreases |ops|
  {
    if ops == [] {
      InitSound(lo, hi);
    } else {
      var front := ops[..|ops| - 1];
      assert forall k :: 0 <= k < |front| ==> front[..k] == ops[..k] && front[k] == ops[k];
      RunSound(lo, hi, front);
      assert Allowed(Run(Init(lo, hi), ops[..|ops| - 1]), ops[|ops| - 1]);
      StepSound(Run(Init(lo, hi), front), ops[|ops| - 1], lo, hi);
    }
  }

  /**
    Whatever the order in which blocks were taken and returned: once nothing is
    held, the free list is again the single block of `meminit`.
  */
  lemma {:induction false} AllReturnedRestoresInit(lo: int, hi: int, ops: seq<Op>)
    requires Geometry(lo, hi) && AllAllowed(Init(lo, hi), ops)
    requires Run(Init(lo, hi), ops).live == []
    ensures Run(Init(lo, hi), ops) == Init(lo, hi)
  {
    RunSound(lo, hi, ops);
    InitSound(lo, hi);
    CanonicalUnique(Run(Init(lo, hi), ops).free, Init(lo, hi).free);
  }

  /** The free list stays inside the heap exactly when the returned range ends inside it. */
  lemma ReleaseInsideIff(free: seq<Block>, a: int, n: nat, lo: int, hi: int)
    requires Canonical(free) && Inside(free, lo, hi) && a > 0 && n > 0
    requires lo <= a <= hi && Accepts(free, a, n)
    ensures Inside(Release(free, a, n), lo, hi) <==> a + n <= hi
  {
    if a + n <= hi {
      ReleaseInside(free, a, n, lo, hi);
    } else {
      assert Release(free, a, n)[LowCut(free, a)] == Merged(free, a, n);
      assert HighCut(free, a, n) == Position(free, a);
    }
  }

  lemma ReleaseInside(free: seq<Block>, a: int, n: nat, lo: int, hi: int)
    requires Canonical(free) && Inside(free, lo, hi) && a > 0 && n > 0
    requires lo <= a && Accepts(free, a, n) && a + n <= hi
    ensures Inside(Release(free, a, n), lo, hi)
  {
    MergedInside(free, a, n, lo, hi);
    SplicedInside(free, LowCut(free, a), HighCut(free, a, n), [Merged(free, a, n)], Release(free, a, n), lo, hi);
  }

  lemma MergedInside(free: seq<Block>, a: int, n: nat, lo: int, hi: int)
    requires Inside(free, lo, hi) && lo <= a && a + n <= hi
    ensures lo <= Merged(free, a, n).addr && Merged(free, a, n).End() <= hi
  {
  }

  lemma SplicedInside(free: seq<Block>, l: nat, h: nat, mid: seq<Block>, r: seq<Block>, lo: int, hi: int)
    requires l <= h <= |free| && r == Splice(free, l, h, mid) && Inside(free, lo, hi) && Inside(mid, lo, hi)
    ensures Inside(r, lo, hi)
  {
  }

  /** The list covers the returned range as well, and nothing else is new. */
  ghost predicate Grown(free: seq<Block>, f: seq<Block>, a: int, n: int) {
    forall x :: Covers(f, x) <==> Covers(free, x) || Block(a, n).Has(x)
  }

  predicate EndsAt(free: seq<Block>, a: int) {
    exists i :: 0 <= i < |free| && free[i].End() == a
  }

  /** `r` is `free` without the range, which was part of it. */
  ghost predicate Lacks(free: seq<Block>, r: seq<Block>, a: int, n: int) {
    (forall x :: Covers(r, x) <==> Covers(free, x) && !Block(a, n).Has(x)) && (forall x :: Block(a, n).Has(x) ==> Covers(free, x))
  }

  lemma CarveHighLacks(free: seq<Block>, i: nat, n: nat)
    requires Canonical(free) && i < |free| && 0 < n <= free[i].len
    ensures Lacks(free, CarveHigh(free, i, n), free[i].End() - n, n)
  {
    var a, r := free[i].End() - n, CarveHigh(free, i, n);
    forall x ensures Covers(r, x) <==> Covers(free, x) && !Block(a, n).Has(x) { CarveHighCovers(free, i, n, x); }
    forall x | Block(a, n).Has(x) ensures Covers(free, x) { assert free[i].Has(x); }
  }

  /** Giving back what a list lacks restores it. */
  lemma ReleaseRestores(free: seq<Block>, r: seq<Block>, a: int, n: int)
    requires Canonical(free) && Canonical(r) && a > 0 && n > 0 && Lacks(free, r, a, n)
    ensures Accepts(r, a, n) && Release(r, a, n) == free
  {
    AcceptsExactly(r, a, n);
    ReleaseShape(r, a, n);
    forall x ensures Covers(Release(r, a, n), x) <==> Covers(free, x) { ReleaseCovers(r, a, n, x); }
    CanonicalUnique(Release(r, a, n), free);
  }

  lemma {:induction false} EndPosition(free: seq<Block>, a: int)
    requires Canonical(free) && EndsAt(free, a)
    ensures Position(free, a) > 0 && free[Position(free, a) - 1].End() == a
    ensures Position(free, a) < |free| ==> free[Position(free, a)].addr > a
  {
    var j :| 0 <= j < |free| && free[j].End() == a;
    if j + 1 < |free| { assert a < free[j + 1].addr; }
    assert Position(free, a) == j + 1;
  }

  /** Returning nothing at the end of a free block changes nothing. */
  lemma {:induction false} ReleaseNothing(free: seq<Block>, a: int)
    requires Canonical(free) && EndsAt(free, a)
    ensures Position(free, a) > 0 && free[Position(free, a) - 1].End() == a
    ensures Release(free, a, 0) == free && Accepts(free, a, 0)
  {
    EndPosition(free, a);
    var j := Position(free, a) - 1;
    assert LowCut(free, a) == j && HighCut(free, a, 0) == j + 1 && Merged(free, a, 0) == free[j];
  }

  /** Free blocks inside the heap are no longer than the heap. */
  lemma {:induction false} TotalInside(free: seq<Block>, lo: int, hi: int)
    requires Canonical(free) && Inside(free, lo, hi) && lo <= hi
    ensures Total(free) <= hi - lo
    decreases |free|
  {
    if free != [] {
      var k := |free| - 1;
      TotalInside(free[..k], lo, free[k].addr);
    }
  }

  // ----- list nodes fit into free blocks

  lemma StepAligned(s: State, op: Op)
    requires Aligned(s.free) && Aligned(s.live) && Allowed(s, op)
    ensures Aligned(Step(s, op).free) && Aligned(Step(s, op).live)
  {
    match op
    case Getmem(n) =>
      RoundMbFits(n);
      var i := FirstFit(s.free, RoundMb(n));
      if i < |s.free| { GrantAligned(s, i, RoundMb(n), s.free[i].addr, s.free[i].addr + RoundMb(n)); }
    case Getstk(n) =>
      RoundMbFits(n);
      var r := LastFit(s.free, RoundMb(n));
      if r.Some? { GrantAligned(s, r.value, RoundMb(n), s.free[r.value].End() - RoundMb(n), s.free[r.value].addr); }
    case Free(i) => FreeAligned(s, i);
  }

  lemma FreeAligned(s: State, i: nat)
    requires Aligned(s.free) && Aligned(s.live) && Allowed(s, Free(i))
    ensures Aligned(Step(s, Free(i)).free) && Aligned(Step(s, Free(i)).live)
  {
    if Accepts(s.free, s.live[i].addr, s.live[i].len) {
      AlignedRelease(s.free, s.live[i].addr, s.live[i].len);
      AlignedSplice(s.live, i, i + 1, []);
      SpliceConcat(s.live, i, i + 1, []);
      assert s.live[..i] + [] + s.live[i + 1..] == s.live[..i] + s.live[i + 1..];
    }
  }

  lemma GrantAligned(s: State, i: nat, m: nat, granted: int, rest: int)
    requires Aligned(s.free) && Aligned(s.live) && i < |s.free| && m % 8 == 0
    requires granted % 8 == 0 && rest % 8 == 0
    ensures var mid := if s.free[i].len == m then [] else [Block(rest, s.free[i].len - m)];
            Aligned(Splice(s.free, i, i + 1, mid))
    ensures Aligned(s.live + [Block(granted, m)])
  {
    AlignedSplice(s.free, i, i + 1, if s.free[i].len == m then [] else [Block(rest, s.free[i].len - m)]);
  }

  lemma AlignedSplice(free: seq<Block>, l: nat, h: nat, mid: seq<Block>)
    requires l <= h <= |free| && Aligned(free) && Aligned(mid)
    ensures Aligned(Splice(free, l, h, mid))
  {
  }

  lemma AlignedRelease(free: seq<Block>, a: int, n: int)
    requires Aligned(free) && a % 8 == 0 && n % 8 == 0
    ensures Aligned(Release(free, a, n))
  {
    AlignedSplice(free, LowCut(free, a), HighCut(free, a, n), [Merged(free, a, n)]);
  }

  /** In every run each free block has room for the list node stored in it. */
  lemma {:induction false} RunNodesFit(lo: int, hi: int, ops: seq<Op>)
    requires Geometry(lo, hi) && AllAllowed(Init(lo, hi), ops)
    ensures Aligned(Run(Init(lo, hi), ops).free) && Aligned(Run(Init(lo, hi), ops).live)
    ensures forall i :: 0 <= i < |Run(Init(lo, hi), ops).free| ==> Run(Init(lo, hi), ops).free[i].len >= 8
    decreases |ops|
  {
    if ops != [] {
      var front := ops[..|ops| - 1];
      assert forall k :: 0 <= k < |front| ==> front[..k] == ops[..k] && front[k] == ops[k];
      RunNodesFit(lo, hi, front);
      assert Allowed(Run(Init(lo, hi), ops[..|ops| - 1]), ops[|ops| - 1]);
      StepAligned(Run(Init(lo, hi), front), ops[|ops| - 1]);
    }
    RunSound(lo, hi, ops);
    var free := Run(Init(lo, hi), ops).free;
    forall i | 0 <= i < |free| ensures free[i].len >= 8 {
      LengthAtLeast8(free[i].len);
    }
  }

  lemma LengthAtLeast8(n: int)
    requires n > 0 && n % 8 == 0
    ensures n >= 8
  {
  }
}

/**
  The list as it is in memory: a node is stored in the first bytes of each free
  block, and the head `memlist` lies outside the heap.
*/
module HeapMemory {
  import opened Common
  import opened HeapSpec

  const NULL := 0

  datatype MemBlk = MemBlk(mnext: int, mlength: int)

  function NextOf(free: seq<Block>, i: nat): int {
    if i < |free| then free[i].addr else NULL
  }

  /** `mem` holds the list `free`, threaded from `head`, which also holds the total. */
  ghost predicate Represents(mem: map<int, MemBlk>, head: int, free: seq<Block>) {
    && head in mem && mem[head] == MemBlk(NextOf(free, 0), Total(free))
    && (forall i :: 0 <= i < |free| ==> free[i].addr in mem && mem[free[i].addr].mlength == free[i].len)
    && (forall i, j :: 0 <= i < j < |free| && j == i + 1 ==> mem[free[i].addr].mnext == free[j].addr)
    && (free != [] ==> mem[free[|free| - 1].addr].mnext == NULL)
  }

  /** Node `i` of the walk: the head before the first block, then the blocks. */
  function NodeBefore(free: seq<Block>, head: int, i: nat): int
    requires i <= |free|
  {
    if i == 0 then head else free[i - 1].addr
  }

  /** Relinking node l-1 past the blocks l..h, with at most one new node in between. */
  lemma {:induction false} RepresentsSplice(mem: map<int, MemBlk>, mem': map<int, MemBlk>, head: int,
                         free: seq<Block>, l: nat, h: nat, mid: seq<Block>, r: seq<Block>)
    requires Represents(mem, head, free) && l <= h <= |free| && r == Splice(free, l, h, mid) && |mid| <= 1
    requires head in mem' && mem'[head] == MemBlk(NextOf(r, 0), Total(r))
    requires l > 0 ==> free[l - 1].addr in mem' && mem'[free[l - 1].addr] == MemBlk(NextOf(r, l), free[l - 1].len)
    requires mid != [] ==> mid[0].addr in mem' && mem'[mid[0].addr] == MemBlk(NextOf(free, h), mid[0].len)
    requires forall i :: (0 <= i < l - 1 || h <= i < |free|) ==>
               free[i].addr in mem' && mem'[free[i].addr] == mem[free[i].addr]
    ensures Represents(mem', head, r)
  {
    forall i | 0 <= i < |r|
      ensures r[i].addr in mem' && mem'[r[i].addr].mlength == r[i].len
    {
    }
    forall i, j | 0 <= i < j < |r| && j == i + 1
      ensures mem'[r[i].addr].mnext == r[j].addr
    {
    }
  }

  /** What a list operation may write: the head and nodes in free blocks. */
  ghost predicate Confined(mem: map<int, MemBlk>, mem': map<int, MemBlk>, head: int, free: seq<Block>) {
    forall a :: a in mem && a != head && !Covers(free, a) ==> a in mem' && mem'[a] == mem[a]
  }

  ghost predicate Good(mem: map<int, MemBlk>, head: int, free: seq<Block>, lo: int, hi: int) {
    && Geometry(lo, hi) && 0 < head && head + 8 <= lo
    && Canonical(free) && Inside(free, lo, hi)
    && Represents(mem, head, free)
  }

  ghost predicate SameExcept(mem: map<int, MemBlk>, mem': map<int, MemBlk>, s: set<int>) {
    forall a :: a !in s ==> (a in mem' <==> a in mem) && (a in mem ==> mem'[a] == mem[a])
  }

  /** The nodes written when blocks l.. of a list are relinked around `mid`. */
  function Touched(free: seq<Block>, head: int, l: nat, mid: seq<Block>): set<int>
    requires l <= |free| && |mid| <= 1
  {
    {head, NodeBefore(free, head, l)} + if mid == [] then {} else {mid[0].addr}
  }

  /** The writes that put `mid` in the place of the blocks l..h and set the total. */
  ghost predicate Written(mem: map<int, MemBlk>, mem': map<int, MemBlk>, head: int,
                          free: seq<Block>, l: nat, h: nat, mid: seq<Block>, total: int)
    requires l <= h <= |free| && |mid| <= 1
  {
    var after := if mid == [] then NextOf(free, h) else mid[0].addr;
    && SameExcept(mem, mem', Touched(free, head, l, mid))
    && head in mem' && mem'[head] == MemBlk(if l == 0 then after else NextOf(free, 0), total)
    && (l > 0 ==> free[l - 1].addr in mem' && mem'[free[l - 1].addr] == MemBlk(after, free[l - 1].len))
    && (mid != [] ==> mid[0].addr in mem' && mem'[mid[0].addr] == MemBlk(NextOf(free, h), mid[0].len))
  }

  /** The three stores of every list operation: link, new node, total. */
  function Relink(mem: map<int, MemBlk>, head: int, prev: int, after: int,
                  mid: seq<Block>, next: int, total: int): map<int, MemBlk>
    requires head in mem && prev in mem && |mid| <= 1
  {
    var linked := mem[prev := mem[prev].(mnext := after)];
    var placed := if mid == [] then linked else linked[mid[0].addr := MemBlk(next, mid[0].len)];
    placed[head := placed[head].(mlength := total)]
  }

  lemma RelinkWrites(mem: map<int, MemBlk>, mem': map<int, MemBlk>, head: int,
                     free: seq<Block>, l: nat, h: nat, mid: seq<Block>, total: int)
    requires l <= h <= |free| && |mid| <= 1 && head in mem && mem[head].mnext == NextOf(free, 0)
    requires l > 0 ==> free[l - 1].addr in mem && free[l - 1].addr != head && mem[free[l - 1].addr].mlength == free[l - 1].len
    requires mid != [] ==> mid[0].addr != head && (l > 0 ==> mid[0].addr != free[l - 1].addr)
    requires mem' == Relink(mem, head, NodeBefore(free, head, l), if mid == [] then NextOf(free, h) else mid[0].addr,
                            mid, NextOf(free, h), total)
    ensures Written(mem, mem', head, free, l, h, mid, total)
  {
  }

  lemma {:induction false} Relinked(mem: map<int, MemBlk>, mem': map<int, MemBlk>, head: int, free: seq<Block>,
                 lo: int, hi: int, l: nat, h: nat, mid: seq<Block>, r: seq<Block>)
    requires Good(mem, head, free, lo, hi) && l <= h <= |free| && r == Splice(free, l, h, mid) && |mid| <= 1
    requires Canonical(r) && Inside(mid, lo, hi)
    requires Written(mem, mem', head, free, l, h, mid, Total(r))
    ensures Good(mem', head, r, lo, hi)
  {
    SplicedInside(free, l, h, mid, r, lo, hi);
    UntouchedNodes(free, head, lo, hi, l, h, mid, r);
    RepresentsSplice(mem, mem', head, free, l, h, mid, r);
  }

  lemma UntouchedNodes(free: seq<Block>, head: int, lo: int, hi: int, l: nat, h: nat, mid: seq<Block>, r: seq<Block>)
    requires Canonical(free) && Inside(free, lo, hi) && head < lo
    requires l <= h <= |free| && r == Splice(free, l, h, mid) && |mid| <= 1 && Canonical(r)
    ensures forall i :: (0 <= i < l - 1 || h <= i < |free|) ==> free[i].addr !in Touched(free, head, l, mid)
  {
    forall i | 0 <= i < l - 1 || h <= i < |free|
      ensures free[i].addr !in Touched(free, head, l, mid)
    {
      var k := if i < l then i else i + l + |mid| - h;
      assert r[k] == free[i];
      if mid != [] { assert r[l] == mid[0]; }
    }
  }

  /** A carved block leaves its node inside the block it was carved from. */
  lemma CarveConfined(mem: map<int, MemBlk>, mem': map<int, MemBlk>, head: int, free: seq<Block>,
                      i: nat, mid: seq<Block>, total: int)
    requires Canonical(free) && i < |free| && |mid| <= 1 && (mid != [] ==> free[i].Has(mid[0].addr))
    requires Written(mem, mem', head, free, i, i + 1, mid, total)
    ensures Confined(mem, mem', head, free)
  {
    if i > 0 { assert free[i - 1].Has(free[i - 1].addr); }
  }

  /** What the list says about block i and the node before it. */
  lemma {:induction false} TakeFacts(mem: map<int, MemBlk>, head: int, free: seq<Block>, lo: int, hi: int, i: nat)
    requires Good(mem, head, free, lo, hi) && i < |free|
    ensures 0 < head < free[i].addr && head in mem && mem[head] == MemBlk(NextOf(free, 0), Total(free))
    ensures free[i].addr in mem && mem[free[i].addr] == MemBlk(NextOf(free, i + 1), free[i].len)
    ensures i > 0 ==> head < free[i - 1].addr < free[i].addr && free[i - 1].addr in mem
                      && mem[free[i - 1].addr] == MemBlk(free[i].addr, free[i - 1].len)
  {
  }

  /** getmem: block i is unlinked, or its upper part becomes the node. */
  lemma {:induction false} GetmemDone(mem: map<int, MemBlk>, mem': map<int, MemBlk>, head: int, free: seq<Block>,
                   lo: int, hi: int, i: nat, n: nat)
    requires Good(mem, head, free, lo, hi) && i < |free| && n <= free[i].len
    requires Written(mem, mem', head, free, i, i + 1, LowCarved(free[i], n), Total(free) - n)
    ensures Good(mem', head, CarveLow(free, i, n), lo, hi)
  {
    var b := free[i];
    var mid := LowCarved(b, n);
    var r := CarveLow(free, i, n);
    CarveShape(free, i, n);
    Relinked(mem, mem', head, free, lo, hi, i, i + 1, mid, r);
  }

  lemma ShrinkWrites(mem: map<int, MemBlk>, mem': map<int, MemBlk>, head: int, free: seq<Block>, i: nat, n: int, total: int)
    requires i < |free| && head in mem && mem[head] == MemBlk(NextOf(free, 0), total)
    requires head < free[i].addr && free[i].addr in mem && mem[free[i].addr] == MemBlk(NextOf(free, i + 1), free[i].len)
    requires i > 0 ==> head < free[i - 1].addr < free[i].addr && free[i - 1].addr in mem
                       && mem[free[i - 1].addr] == MemBlk(free[i].addr, free[i - 1].len)
    requires mem' == mem[free[i].addr := MemBlk(NextOf(free, i + 1), free[i].len - n)][head := MemBlk(NextOf(free, 0), total - n)]
    ensures Written(mem, mem', head, free, i, i + 1, [Block(free[i].addr, free[i].len - n)], total - n)
  {
  }

  /** getstk: block i is unlinked, or only its length changes. */
  lemma {:induction false} GetstkDone(mem: map<int, MemBlk>, mem': map<int, MemBlk>, head: int, free: seq<Block>,
                   lo: int, hi: int, i: nat, n: nat)
    requires Good(mem, head, free, lo, hi) && i < |free| && n <= free[i].len
    requires Written(mem, mem', head, free, i, i + 1, HighCarved(free[i], n), Total(free) - n)
    ensures Good(mem', head, CarveHigh(free, i, n), lo, hi)
  {
    var b := free[i];
    var mid := HighCarved(b, n);
    var r := CarveHigh(free, i, n);
    CarveShape(free, i, n);
    Relinked(mem, mem', head, free, lo, hi, i, i + 1, mid, r);
  }

  /** freemem: the merged block takes the place of the neighbours it absorbed. */
  lemma {:induction false} FreememDone(mem: map<int, MemBlk>, mem': map<int, MemBlk>, head: int, free: seq<Block>,
                    lo: int, hi: int, a: int, n: int)
    requires Good(mem, head, free, lo, hi) && Accepts(free, a, n) && n > 0 && lo <= a && a + n <= hi
    requires Written(mem, mem', head, free, LowCut(free, a), HighCut(free, a, n), [Merged(free, a, n)], Total(free) + n)
    ensures Good(mem', head, Release(free, a, n), lo, hi)
  {
    var l, h := LowCut(free, a), HighCut(free, a, n);
    var m := Merged(free, a, n);
    ReleaseShape(free, a, n);
    MergedBounds(free, a, n);
    Relinked(mem, mem', head, free, lo, hi, l, h, [m], Release(free, a, n));
  }

  lemma {:induction false} FreememConfined(mem: map<int, MemBlk>, mem': map<int, MemBlk>, head: int, free: seq<Block>, a: int, n: int)
    requires Canonical(free) && Accepts(free, a, n) && n > 0 && a > 0
    requires Written(mem, mem', head, free, LowCut(free, a), HighCut(free, a, n), [Merged(free, a, n)], Total(free) + n)
    ensures Confined(mem, mem', head, Release(free, a, n))
  {
    var l := LowCut(free, a);
    var m := Merged(free, a, n);
    var r := Release(free, a, n);
    MergedBounds(free, a, n);
    assert r[l] == m && m.Has(m.addr);
    if l > 0 { assert r[l - 1] == free[l - 1] && r[l - 1].Has(free[l - 1].addr); }
  }

  /** Sums of addresses and lengths are 32-bit: the remainder, which for most sums is the sum. */
  function Wrap(x: int): int { if 0 <= x < UINT32 then x else x % UINT32 }

  /** The stores of freemem, in program order. */
  function InsertStores(mem: map<int, MemBlk>, head: int, prev: int, next: int, addr: int, n: int,
                        low: bool, high: bool): map<int, MemBlk>
    requires head in mem && prev in mem && (high ==> next in mem)
  {
    var m1 := mem[head := mem[head].(mlength := Wrap(mem[head].mlength + n))];
    var block := if low then prev else addr;
    var m2 := if low then m1[prev := m1[prev].(mlength := Wrap(m1[prev].mlength + n))] else m1[addr := MemBlk(next, n)];
    var m3 := if low then m2 else m2[prev := m2[prev].(mnext := addr)];
    if high then m3[block := MemBlk(m3[next].mnext, Wrap(m3[block].mlength + m3[next].mlength))] else m3
  }

  /** The overlap test with 32-bit sums. */
  predicate Passes(free: seq<Block>, a: int, n: int) {
    var i := Position(free, a);
    && (i > 0 ==> free[i - 1].End() <= a)
    && (i < |free| ==> Wrap(a + n) <= free[i].addr)
  }

  /** The memory after `freemem` has accepted a range. */
  ghost predicate Returned(mem: map<int, MemBlk>, mem': map<int, MemBlk>, head: int, free: seq<Block>, a: int, n: int) {
    var i := Position(free, a);
    var prev, next, low := NodeBefore(free, head, i), NextOf(free, i), i > 0 && free[i - 1].End() == a;
    && head in mem && prev in mem && (next != NULL ==> next in mem)
    && var high := next != NULL && Wrap(if low then prev + Wrap(mem[prev].mlength + n) else a + n) == next;
       mem' == InsertStores(mem, head, prev, next, a, n, low, high)
  }

  lemma InsertWrites(mem: map<int, MemBlk>, mem': map<int, MemBlk>, head: int, free: seq<Block>,
                     i: nat, a: int, n: int, low: bool, high: bool, mid: Block, total: int)
    requires i <= |free| && head < a && head in mem && mem[head] == MemBlk(NextOf(free, 0), total)
    requires i > 0 ==> head < free[i - 1].addr < a && free[i - 1].addr in mem
                       && mem[free[i - 1].addr] == MemBlk(NextOf(free, i), free[i - 1].len)
    requires i < |free| ==> a < free[i].addr && free[i].addr in mem
                            && mem[free[i].addr] == MemBlk(NextOf(free, i + 1), free[i].len)
    requires (low ==> i > 0) && (high ==> i < |free|)
    requires i > 1 ==> head < free[i - 2].addr < free[i - 1].addr && free[i - 2].addr in mem
                       && mem[free[i - 2].addr] == MemBlk(free[i - 1].addr, free[i - 2].len)
    requires mid.addr == if low then free[i - 1].addr else a
    requires 0 <= total + n < UINT32 && 0 <= n <= mid.len < UINT32 && (low ==> 0 <= free[i - 1].len + n < UINT32)
    requires mid.len == n + (if low then free[i - 1].len else 0) + if high then free[i].len else 0
    requires mem' == InsertStores(mem, head, NodeBefore(free, head, i), NextOf(free, i), a, n, low, high)
    ensures Written(mem, mem', head, free, if low then i - 1 else i, if high then i + 1 else i, [mid], total + n)
  {
  }

  lemma {:induction false} InsertFacts(mem: map<int, MemBlk>, head: int, free: seq<Block>, lo: int, hi: int, a: int, n: int, i: nat)
    requires Good(mem, head, free, lo, hi) && lo <= a && a + n <= hi && n > 0
    requires i == Position(free, a) && Accepts(free, a, n)
    ensures 0 < head < a && head in mem && mem[head] == MemBlk(NextOf(free, 0), Total(free)) && Canonical(free)
    ensures i > 0 ==> head < free[i - 1].addr < a && free[i - 1].addr in mem && free[i - 1].len > 0
                      && mem[free[i - 1].addr] == MemBlk(NextOf(free, i), free[i - 1].len)
    ensures i < |free| ==> a < free[i].addr && free[i].addr in mem
                           && mem[free[i].addr] == MemBlk(NextOf(free, i + 1), free[i].len)
    ensures i > 1 ==> head < free[i - 2].addr < free[i - 1].addr && free[i - 2].addr in mem
                      && mem[free[i - 2].addr] == MemBlk(free[i - 1].addr, free[i - 2].len)
  {
  }

  lemma {:induction false} InsertDone(mem: map<int, MemBlk>, mem': map<int, MemBlk>, head: int, free: seq<Block>,
                   lo: int, hi: int, a: int, n: int)
    requires Good(mem, head, free, lo, hi) && lo <= a && a + n <= hi && n > 0
    requires Accepts(free, a, n) && Returned(mem, mem', head, free, a, n)
    ensures Good(mem', head, Release(free, a, n), lo, hi) && Confined(mem, mem', head, Release(free, a, n))
  {
    var i := Position(free, a);
    var low, high := LowCut(free, a) < i, HighCut(free, a, n) > i;
    InsertFacts(mem, head, free, lo, hi, a, n, i);
    NoWrap(free, lo, hi, a, n);
    TotalNotNegative(free);
    InsertWrites(mem, mem', head, free, i, a, n, low, high, Merged(free, a, n), Total(free));
    FreememDone(mem, mem', head, free, lo, hi, a, n);
    FreememConfined(mem, mem', head, free, a, n);
  }

  lemma {:induction false} NoWrap(free: seq<Block>, lo: int, hi: int, a: int, n: int)
    requires Canonical(free) && Inside(free, lo, hi) && Geometry(lo, hi)
    requires Accepts(free, a, n) && n > 0 && lo <= a && a + n <= hi
    ensures Total(free) + n < UINT32 && n <= Merged(free, a, n).len < UINT32
  {
    ReleaseShape(free, a, n);
    ReleaseInside(free, a, n, lo, hi);
    TotalInside(Release(free, a, n), lo, hi);
    MergedBounds(free, a, n);
  }

  // ----- what a return does that no list accounts for

  /** The first `i` nodes are those of `free`, and node `a` comes behind them. */
  ghost predicate Leads(mem: map<int, MemBlk>, head: int, free: seq<Block>, i: int, a: int) {
    && 0 <= i <= |free| && head in mem && mem[head].mnext == (if i == 0 then a else free[0].addr)
    && (forall k :: 0 <= k < i ==> free[k].addr in mem && free[k].addr != NULL)
    && (forall k, j :: 0 <= k < j < i && j == k + 1 ==> mem[free[k].addr].mnext == free[j].addr)
    && (i > 0 ==> mem[free[i - 1].addr].mnext == a)
  }

  lemma {:induction false} LeadsThere(mem: map<int, MemBlk>, head: int, free: seq<Block>, i: nat, a: int, f: seq<Block>, k: nat)
    requires Leads(mem, head, free, i, a) && a != NULL && Represents(mem, head, f) && k <= i
    ensures k < |f| && f[k].addr == if k < i then free[k].addr else a
  {
    if k > 0 {
      LeadsThere(mem, head, free, i, a, f, k - 1);
      assert f[k - 1].addr == free[k - 1].addr;
      assert mem[free[k - 1].addr].mnext == if k < i then free[k].addr else a;
      assert k < |f|;
    }
  }

  /** A length of zero at the end of a free block: every store writes what is there. */
  lemma {:induction false} NothingAtEnd(mem: map<int, MemBlk>, mem': map<int, MemBlk>, head: int, free: seq<Block>,
                                        lo: int, hi: int, a: int)
    requires Good(mem, head, free, lo, hi) && lo <= a <= hi && Returned(mem, mem', head, free, a, 0) && EndsAt(free, a)
    ensures mem' == mem
  {
    var i := Position(free, a);
    ReleaseNothing(free, a);
    TotalInside(free, lo, hi);
    TotalNotNegative(free);
    TakeFacts(mem, head, free, lo, hi, i - 1);
  }

  /** Anywhere else it leaves a node of length zero on the list. */
  lemma {:induction false} NothingElsewhere(mem: map<int, MemBlk>, mem': map<int, MemBlk>, head: int, free: seq<Block>,
                                            lo: int, hi: int, a: int)
    requires Good(mem, head, free, lo, hi) && lo <= a <= hi && Returned(mem, mem', head, free, a, 0) && !EndsAt(free, a)
    ensures a in mem' && mem'[a].mlength == 0 && Leads(mem', head, free, Position(free, a), a)
    ensures Position(free, a) < |free| && free[Position(free, a)].addr == a ==> mem'[a] == MemBlk(a, 0)
  {
    var i := Position(free, a);
    if i > 0 { assert free[i - 1].End() != a; }
    if i < |free| { assert free[i].addr in mem && mem[free[i].addr].mlength == free[i].len; }
  }

  lemma {:induction false} TotalNotNegative(free: seq<Block>)
    requires Canonical(free)
    ensures Total(free) >= 0
    decreases |free|
  {
    if free != [] { TotalNotNegative(free[..|free| - 1]); }
  }

  /**
    At the start of a free block the node written is the node read: it points to
    itself with length zero, and a walk that comes there stays there.
  */
  lemma {:induction false} StartLoops(mem: map<int, MemBlk>, mem': map<int, MemBlk>, head: int, free: seq<Block>,
                                      lo: int, hi: int, j: nat)
    requires Good(mem, head, free, lo, hi) && j < |free| && Returned(mem, mem', head, free, free[j].addr, 0)
    ensures Passes(free, free[j].addr, 0)
    ensures free[j].addr in mem' && mem'[free[j].addr] == MemBlk(free[j].addr, 0)
    ensures Leads(mem', head, free, j, free[j].addr)
  {
    var a := free[j].addr;
    assert Position(free, a) == j;
    forall k | 0 <= k < |free| ensures free[k].End() != a {
      if k < j { assert free[k].End() < free[j].addr; } else if k > j { assert free[j].End() < free[k].addr; }
    }
    NothingElsewhere(mem, mem', head, free, lo, hi, a);
  }

  /** The memory holds a proper free list of the heap that has grown by exactly the range. */
  ghost predicate HasGrown(mem: map<int, MemBlk>, head: int, lo: int, hi: int, free: seq<Block>, a: int, n: int) {
    exists f :: Good(mem, head, f, lo, hi) && Grown(free, f, a, n)
  }

  /** What a caller of `freemem` can look at to know that the range joins the free list. */
  ghost predicate Fits(free: seq<Block>, a: int, n: int, hi: int) {
    if n == 0 then EndsAt(free, a) else a + n <= hi
  }

  /**
    A return that passes the tests of `freemem` leaves in memory a proper free list
    of the heap that has grown by exactly the range, if and only if the range fits.
    With a length that rounds to zero it leaves a proper list only then.
  */
  lemma {:induction false} ReturnIff(mem: map<int, MemBlk>, mem': map<int, MemBlk>, head: int, free: seq<Block>,
                                     lo: int, hi: int, a: int, n: int)
    requires Good(mem, head, free, lo, hi) && lo <= a <= hi && 0 <= n < UINT32
    requires Passes(free, a, n) && Returned(mem, mem', head, free, a, n)
    ensures HasGrown(mem', head, lo, hi, free, a, n) <==> Fits(free, a, n, hi)
    ensures n == 0 ==> ((exists f :: Good(mem', head, f, lo, hi)) <==> Fits(free, a, n, hi))
    ensures Fits(free, a, n, hi) ==> Accepts(free, a, n) && Good(mem', head, Release(free, a, n), lo, hi)
                                     && Confined(mem, mem', head, Release(free, a, n))
  {
    if n == 0 {
      NothingIff(mem, mem', head, free, lo, hi, a);
    } else if a + n <= hi {
      InsertDone(mem, mem', head, free, lo, hi, a, n);
      forall x ensures Covers(Release(free, a, n), x) <==> Covers(free, x) || Block(a, n).Has(x) {
        ReleaseCovers(free, a, n, x);
      }
      assert Grown(free, Release(free, a, n), a, n);
    } else {
      forall f | Good(mem', head, f, lo, hi) ensures !Grown(free, f, a, n) {
        assert Block(a, n).Has(a + n - 1);
        assert !Covers(f, a + n - 1);
      }
    }
  }

  lemma {:induction false} NothingIff(mem: map<int, MemBlk>, mem': map<int, MemBlk>, head: int, free: seq<Block>,
                                      lo: int, hi: int, a: int)
    requires Good(mem, head, free, lo, hi) && lo <= a <= hi && Returned(mem, mem', head, free, a, 0)
    ensures EndsAt(free, a) ==> Good(mem', head, free, lo, hi) && Grown(free, free, a, 0) && Release(free, a, 0) == free
                                && Accepts(free, a, 0) && Confined(mem, mem', head, free)
    ensures !EndsAt(free, a) ==> !exists f :: Good(mem', head, f, lo, hi)
  {
    if EndsAt(free, a) {
      NothingAtEnd(mem, mem', head, free, lo, hi, a);
      ReleaseNothing(free, a);
    } else {
      NothingElsewhere(mem, mem', head, free, lo, hi, a);
      forall f | Good(mem', head, f, lo, hi) ensures false {
        LeadsThere(mem', head, free, Position(free, a), a, f, Position(free, a));
      }
    }
  }

  lemma {:induction false} NodeInMemory(mem: map<int, MemBlk>, head: int, free: seq<Block>, lo: int, hi: int, i: nat)
    requires Good(mem, head, free, lo, hi) && i <= |free|
    ensures head in mem && NodeBefore(free, head, i) in mem && (NextOf(free, i) != NULL ==> NextOf(free, i) in mem)
    ensures i > 0 ==> free[i - 1].addr > head && free[i - 1].End() <= hi
    ensures (NodeBefore(free, head, i) == head) == (i == 0)
  {
  }

  lemma {:induction false} StoresReturn(mem: map<int, MemBlk>, mem': map<int, MemBlk>, head: int, free: seq<Block>,
                                        a: int, n: int, low: bool, high: bool)
    requires var i := Position(free, a);
             && head in mem && NodeBefore(free, head, i) in mem && (NextOf(free, i) != NULL ==> NextOf(free, i) in mem)
             && low == (i > 0 && free[i - 1].End() == a)
             && high == (Wrap(if low then NodeBefore(free, head, i) + Wrap(mem[NodeBefore(free, head, i)].mlength + n) else a + n)
                         == NextOf(free, i) && NextOf(free, i) != NULL)
             && mem' == InsertStores(mem, head, NodeBefore(free, head, i), NextOf(free, i), a, n, low, high)
    ensures Returned(mem, mem', head, free, a, n)
  {
  }

  class Heap {
    const minheap: int
    const maxheap: int
    const head: int                 // address of memlist
    var mem: map<int, MemBlk>
    ghost var free: seq<Block>

    ghost predicate Valid()
      reads this
    {
      Good(mem, head, free, minheap, maxheap)
    }

    /** meminit */
    constructor (lo: int, hi: int, listHead: int)
      requires Geometry(lo, hi) && 0 < listHead && listHead + 8 <= lo
      ensures Valid() && minheap == lo && maxheap == hi && free == Init(lo, hi).free
    {
      minheap, maxheap, head := lo, hi, listHead;
      mem := map[listHead := MemBlk(lo, hi - lo), lo := MemBlk(NULL, hi - lo)];
      free := [Block(lo, hi - lo)];
      assert [Block(lo, hi - lo)][..0] == [];
    }

    method Getmem(nbytes: nat) returns (r: int)
      requires Valid() && nbytes < UINT32
      modifies this
      ensures Valid() && Confined(old(mem), mem, head, old(free))
      ensures nbytes == 0 ==> r == SYSERR && mem == old(mem) && free == old(free)
      ensures nbytes > 0 ==>
                var m := RoundMb(nbytes);
                var i := FirstFit(old(free), m);
                if i < |old(free)| then r == old(free)[i].addr > 0 && free == CarveLow(old(free), i, m)
                else r == SYSERR && mem == old(mem) && free == old(free)
    {
      if nbytes == 0 { return SYSERR; }
      var n := RoundMb(nbytes);
      var prev, curr := head, mem[head].mnext;
      ghost var i := 0;
      while curr != NULL && mem[curr].mlength < n
        invariant 0 <= i <= |free| && prev == NodeBefore(free, head, i) && curr == NextOf(free, i)
        invariant forall j :: 0 <= j < i ==> free[j].len < n
        decreases |free| - i
      {
        prev, curr := curr, mem[curr].mnext;
        i := i + 1;
      }
      if curr == NULL { return SYSERR; }
      TakeLow(prev, curr, n, i);
      return curr;
    }

    method TakeLow(prev: int, curr: int, n: nat, ghost i: nat)
      requires Valid() && i < |free| && n <= free[i].len
      requires prev == NodeBefore(free, head, i) && curr == free[i].addr
      modifies this
      ensures Valid() && Confined(old(mem), mem, head, old(free)) && free == CarveLow(old(free), i, n)
    {
      TakeFacts(mem, head, free, minheap, maxheap, i);
      var next, length := mem[curr].mnext, mem[curr].mlength;
      if length == n {                          // exact match
        mem := mem[prev := mem[prev].(mnext := next)];
        mem := mem[head := mem[head].(mlength := mem[head].mlength - n)];
      } else {                                  // split big block
        var leftover := curr + n;
        mem := mem[prev := mem[prev].(mnext := leftover)];
        mem := mem[leftover := MemBlk(next, length - n)];
        mem := mem[head := mem[head].(mlength := mem[head].mlength - n)];
      }
      RelinkWrites(old(mem), mem, head, free, i, i + 1, LowCarved(free[i], n), Total(free) - n);
      GetmemDone(old(mem), mem, head, free, minheap, maxheap, i, n);
      CarveConfined(old(mem), mem, head, free, i, LowCarved(free[i], n), Total(free) - n);
      free := CarveLow(free, i, n);
    }

    method Getstk(nbytes: nat) returns (r: int)
      requires Valid() && nbytes < UINT32
      modifies this
      ensures Valid() && Confined(old(mem), mem, head, old(free))
      ensures nbytes == 0 ==> r == SYSERR && mem == old(mem) && free == old(free)
      ensures nbytes > 0 ==>
                var m := RoundMb(nbytes);
                match LastFit(old(free), m)
                case Some(i) => r == old(free)[i].End() - 4 > 0 && free == CarveHigh(old(free), i, m)
                case None => r == SYSERR && mem == old(mem) && free == old(free)
    {
      if nbytes == 0 { return SYSERR; }
      var n := RoundMb(nbytes);
      var prev, curr := head, mem[head].mnext;
      var fits, fitsprev := NULL, NULL;
      ghost var i := 0;
      ghost var best := 0;
      while curr != NULL
        invariant 0 <= i <= |free| && prev == NodeBefore(free, head, i) && curr == NextOf(free, i)
        invariant fits == NULL ==> forall j :: 0 <= j < i ==> free[j].len < n
        invariant fits != NULL ==> 0 <= best < i && fits == free[best].addr && fitsprev == NodeBefore(free, head, best)
                                   && free[best].len >= n && forall j :: best < j < i ==> free[j].len < n
        decreases |free| - i
      {
        if mem[curr].mlength >= n {
          fits, fitsprev := curr, prev;
          best := i;
        }
        prev, curr := curr, mem[curr].mnext;
        i := i + 1;
      }
      assert LastFit(free, n) == if fits == NULL then None else Some(best);
      if fits == NULL { return SYSERR; }
      r := TakeHigh(fitsprev, fits, n, best);
    }

    method TakeHigh(fitsprev: int, found: int, n: nat, ghost i: nat) returns (r: int)
      requires Valid() && i < |free| && n <= free[i].len
      requires fitsprev == NodeBefore(free, head, i) && found == free[i].addr
      modifies this
      ensures Valid() && Confined(old(mem), mem, head, old(free)) && free == CarveHigh(old(free), i, n)
      ensures r == old(free)[i].End() - 4
    {
      r := CutHigh(fitsprev, found, n, i);
      GetstkDone(old(mem), mem, head, free, minheap, maxheap, i, n);
      CarveConfined(old(mem), mem, head, free, i, HighCarved(free[i], n), Total(free) - n);
      free := CarveHigh(free, i, n);
    }

    /** The writes that take the top of block `i`. */
    method CutHigh(fitsprev: int, found: int, n: nat, ghost i: nat) returns (r: int)
      requires Valid() && i < |free| && n <= free[i].len
      requires fitsprev == NodeBefore(free, head, i) && found == free[i].addr
      modifies this`mem
      ensures Written(old(mem), mem, head, free, i, i + 1, HighCarved(free[i], n), Total(free) - n) && r == free[i].End() - 4
    {
      TakeFacts(mem, head, free, minheap, maxheap, i);
      if n == mem[found].mlength {              // exact match
        mem := mem[fitsprev := mem[fitsprev].(mnext := mem[found].mnext)];
        mem := mem[head := mem[head].(mlength := mem[head].mlength - n)];
        RelinkWrites(old(mem), mem, head, free, i, i + 1, [], Total(free) - n);
        r := found + n - 4;
      } else {                                  // remove top section
        mem := mem[found := mem[found].(mlength := mem[found].mlength - n)];
        var fits := found + mem[found].mlength;
        mem := mem[head := mem[head].(mlength := mem[head].mlength - n)];
        ShrinkWrites(old(mem), mem, head, free, i, n, Total(free));
        r := fits + n - 4;
      }
    }

    /**
      Neither the alignment of the address nor the end of the range is looked at.
      The free list is proper and has grown by the range iff the range fits.
    */
    method Freemem(blkaddr: nat, nbytes: nat) returns (ok: int)
      requires Valid() && blkaddr < UINT32 && nbytes < UINT32
      modifies this
      ensures ok == OK || ok == SYSERR
      ensures ok == OK <==> nbytes > 0 && minheap <= blkaddr <= maxheap && Passes(old(free), blkaddr, RoundMb(nbytes))
      ensures ok == SYSERR ==> mem == old(mem) && free == old(free)
      ensures ok == OK ==> Returned(old(mem), mem, head, old(free), blkaddr, RoundMb(nbytes))
      ensures ok == OK && Fits(old(free), blkaddr, RoundMb(nbytes), maxheap) ==>
                Valid() && Confined(old(mem), mem, head, free) && free == Release(old(free), blkaddr, RoundMb(nbytes))
      ensures ok == OK ==> (HasGrown(mem, head, minheap, maxheap, old(free), blkaddr, RoundMb(nbytes))
                            <==> Fits(old(free), blkaddr, RoundMb(nbytes), maxheap))
    {
      if nbytes == 0 || blkaddr < minheap || blkaddr > maxheap { return SYSERR; }
      var n := RoundMb(nbytes);
      var prev, next := FindPlace(blkaddr);
      var top := if prev == head then NULL else Wrap(prev + mem[prev].mlength);
      if (prev != head && blkaddr < top) || (next != NULL && Wrap(blkaddr + n) > next) { return SYSERR; }
      Insert(prev, next, top, blkaddr, n);
      return OK;
    }

    /** The nodes between which the address lies. */
    method FindPlace(addr: int) returns (prev: int, next: int)
      requires Valid()
      ensures prev == NodeBefore(free, head, Position(free, addr)) && next == NextOf(free, Position(free, addr))
      ensures prev in mem && (prev == head <==> Position(free, addr) == 0)
      ensures prev != head ==> prev + mem[prev].mlength == free[Position(free, addr) - 1].End() < UINT32
    {
      prev, next := head, mem[head].mnext;
      ghost var i := 0;
      while next != NULL && next < addr
        invariant 0 <= i <= |free| && prev == NodeBefore(free, head, i) && next == NextOf(free, i)
        invariant forall j :: 0 <= j < i ==> free[j].addr < addr
        decreases |free| - i
      {
        prev, next := next, mem[next].mnext;
        i := i + 1;
      }
      assert i == Position(free, addr);
    }

    /** The range is put where the walk has stopped. */
    method Insert(prev: int, next: int, top: int, addr: int, n: nat)
      requires Valid() && minheap <= addr <= maxheap && n < UINT32 && Passes(free, addr, n)
      requires prev == NodeBefore(free, head, Position(free, addr)) && next == NextOf(free, Position(free, addr))
      requires top == if prev == head then NULL else free[Position(free, addr) - 1].End()
      modifies this
      ensures Returned(old(mem), mem, head, old(free), addr, n)
      ensures Fits(old(free), addr, n, maxheap) ==>
                Valid() && Confined(old(mem), mem, head, free) && free == Release(old(free), addr, n)
      ensures HasGrown(mem, head, minheap, maxheap, old(free), addr, n) <==> Fits(old(free), addr, n, maxheap)
    {
      NodeInMemory(mem, head, free, minheap, maxheap, Position(free, addr));
      var low, high := Store(prev, next, top, addr, n);
      StoresReturn(old(mem), mem, head, free, addr, n, low, high);
      ReturnIff(old(mem), mem, head, free, minheap, maxheap, addr, n);
      if Fits(free, addr, n, maxheap) { free := Release(free, addr, n); }
    }

    /** Reports whether the block was coalesced with its lower and upper neighbour. */
    method Store(prev: int, next: int, top: int, addr: int, n: nat) returns (low: bool, high: bool)
      requires head in mem && prev in mem && (next != NULL ==> next in mem) && addr > 0
      requires addr != head && addr != prev && (top == addr ==> prev != head)
      modifies this`mem
      ensures low == (top == addr)
      ensures high == (Wrap(if low then prev + Wrap(old(mem)[prev].mlength + n) else addr + n) == next && next != NULL)
      ensures mem == InsertStores(old(mem), head, prev, next, addr, n, low, high)
    {
      low, high := false, false;
      var block := addr;
      mem := mem[head := mem[head].(mlength := Wrap(mem[head].mlength + n))];
      if top == block {                         // coalesce with previous block
        mem := mem[prev := mem[prev].(mlength := Wrap(mem[prev].mlength + n))];
        block := prev;
        low := true;
      } else {                                  // link into list as new node
        mem := mem[block := MemBlk(next, n)];
        mem := mem[prev := mem[prev].(mnext := block)];
      }
      if Wrap(block + mem[block].mlength) == next && next != NULL {   // coalesce with next block
        mem := mem[block := MemBlk(mem[next].mnext, Wrap(mem[block].mlength + mem[next].mlength))];
        high := true;
      }
    }
  }

  /** `getstk` and then `freestk` with the same length: never refused, and the free list is what it was. */
  method StackRoundTrip(h: Heap, nbytes: nat) returns (p: int, ok: int)
    requires h.Valid() && 0 < nbytes <= UINT32 - 8
    modifies h
    ensures h.Valid() && h.free == old(h.free)
    ensures p == SYSERR <==> LastFit(old(h.free), RoundMb(nbytes)) == None
    ensures p != SYSERR ==> ok == OK
  {
    ok := SYSERR;
    RoundMbFits(nbytes);
    p := h.Getstk(nbytes);
    if p != SYSERR {
      ghost var i := LastFit(old(h.free), RoundMb(nbytes)).value;
      StackBack(old(h.free), i, nbytes, h.minheap, h.maxheap);
      ghost var taken := h.free;
      assert taken == CarveHigh(old(h.free), i, RoundMb(nbytes));
      var a, n := FreestkAddress(p, nbytes), RoundMb(nbytes);
      assert Release(taken, a, n) == old(h.free);
      ok := h.Freemem(a, n);
      assert h.free == Release(taken, a, n);
    }
  }

  /** The arguments of `freemem` in `freestk` name the range that `getstk` took. */
  lemma StackBack(free: seq<Block>, i: nat, nbytes: nat, lo: int, hi: int)
    requires Canonical(free) && Inside(free, lo, hi) && Geometry(lo, hi) && 0 < nbytes <= UINT32 - 8
    requires i < |free| && RoundMb(nbytes) <= free[i].len
    ensures var n, a, r := RoundMb(nbytes), FreestkAddress(free[i].End() - 4, nbytes), CarveHigh(free, i, RoundMb(nbytes));
            0 < n == RoundMb(n) < UINT32 && lo <= a && a + n <= hi && Passes(r, a, n) && Release(r, a, n) == free
  {
    var n := RoundMb(nbytes);
    var a, r := free[i].End() - n, CarveHigh(free, i, n);
    RoundMbFits(nbytes);
    FreestkInvertsGetstk(Block(a, n), nbytes);
    CarveHighLacks(free, i, n);
    CarveShape(free, i, n);
    ReleaseRestores(free, r, a, n);
    PassesWhole(r, a, n);
  }

  lemma PassesWhole(free: seq<Block>, a: int, n: int)
    requires a >= 0 && n >= 0 && a + n < UINT32
    ensures Passes(free, a, n) == Accepts(free, a, n)
  {
  }

  /** A granted request is one step of the specification. */
  method Grant(h: Heap, held: seq<Block>, op: Op) returns (live: seq<Block>)
    requires h.Valid() && !op.Free? && Allowed(State(h.free, held), op)
    modifies h
    ensures h.Valid() && State(h.free, live) == Step(State(old(h.free), held), op)
  {
    if op.Getmem? {
      live := GrantLow(h, held, op.n);
    } else {
      live := GrantHigh(h, held, op.n);
    }
  }

  method GrantLow(h: Heap, held: seq<Block>, n: nat) returns (live: seq<Block>)
    requires h.Valid() && Allowed(State(h.free, held), Getmem(n))
    modifies h
    ensures h.Valid() && State(h.free, live) == Step(State(old(h.free), held), Getmem(n))
  {
    var r := h.Getmem(n);
    live := if r == SYSERR then held else held + [Block(r, RoundMb(n))];
  }

  lemma {:induction false} StepHigh(free: seq<Block>, held: seq<Block>, n: nat)
    ensures Step(State(free, held), Getstk(n))
            == match LastFit(free, RoundMb(n))
               case Some(i) => State(CarveHigh(free, i, RoundMb(n)), held + [Block(FreestkAddress(free[i].End() - 4, n), RoundMb(n))])
               case None => State(free, held)
  {
  }

  method GrantHigh(h: Heap, held: seq<Block>, n: nat) returns (live: seq<Block>)
    requires h.Valid() && Allowed(State(h.free, held), Getstk(n))
    modifies h
    ensures h.Valid() && State(h.free, live) == Step(State(old(h.free), held), Getstk(n))
  {
    StepHigh(h.free, held, n);
    var r := h.Getstk(n);
    live := if r == SYSERR then held else held + [Block(FreestkAddress(r, n), RoundMb(n))];
  }

  /** Returning a held block is one step of the specification: it is never refused. */
  method Return(h: Heap, held: seq<Block>, i: nat) returns (live: seq<Block>)
    requires h.Valid() && i < |held| && Accepts(h.free, held[i].addr, held[i].len)
    requires h.minheap <= held[i].addr && held[i].End() <= h.maxheap && held[i].len > 0 && held[i].len % 8 == 0
    modifies h
    ensures h.Valid() && State(h.free, live) == Step(State(old(h.free), held), Free(i))
  {
    RoundMbAligned(held[i].len);
    var ok := h.Freemem(held[i].addr, held[i].len);
    live := held[..i] + held[i + 1..];
  }

  lemma RoundMbAligned(n: int)
    requires 0 < n < UINT32 && n % 8 == 0
    ensures RoundMb(n) == n
  {
  }

  /** Any run of the allocator code is a run of the specification. */
  method Execute(h: Heap, ops: seq<Op>) returns (live: seq<Block>)
    requires h.Valid() && h.free == Init(h.minheap, h.maxheap).free
    requires AllAllowed(Init(h.minheap, h.maxheap), ops)
    modifies h
    ensures h.Valid() && State(h.free, live) == Run(Init(h.minheap, h.maxheap), ops)
  {
    ghost var init := Init(h.minheap, h.maxheap);
    live := [];
    for k := 0 to |ops|
      invariant h.Valid() && State(h.free, live) == Run(init, ops[..k])
    {
      assert ops[..k + 1][..k] == ops[..k];
      assert forall j :: 0 <= j < k ==> ops[..k][..j] == ops[..j];
      RunSound(h.minheap, h.maxheap, ops[..k]);
      RunNodesFit(h.minheap, h.maxheap, ops[..k]);
      assert Allowed(Run(init, ops[..k]), ops[k]);
      live := Perform(h, live, ops[k]);
    }
    assert ops[..|ops|] == ops;
  }

  method Perform(h: Heap, held: seq<Block>, op: Op) returns (live: seq<Block>)
    requires h.Valid() && Sound(State(h.free, held), h.minheap, h.maxheap) && Allowed(State(h.free, held), op)
    requires Geometry(h.minheap, h.maxheap) && Aligned(held)
    modifies h
    ensures h.Valid() && State(h.free, live) == Step(State(old(h.free), held), op)
  {
    if op.Free? {
      ReturnSound(State(h.free, held), op.i, h.minheap, h.maxheap);
      LiveInside(State(h.free, held), h.minheap, h.maxheap, op.i);
      live := Return(h, held, op.i);
    } else {
      live := Grant(h, held, op);
    }
  }

  lemma LiveInside(s: State, lo: int, hi: int, i: nat)
    requires Sound(s, lo, hi) && i < |s.live| && Geometry(lo, hi)
    ensures lo <= s.live[i].addr && s.live[i].len > 0 && s.live[i].End() <= hi
  {
    LiveDisjoint(s, lo, hi, i, i, s.live[i].addr);
    LiveDisjoint(s, lo, hi, i, i, s.live[i].End() - 1);
  }
}
