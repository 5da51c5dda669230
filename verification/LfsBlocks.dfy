/** Blocks of the local file system, in memory and on disk. */
module LfsBlocks {
  import opened Common
  const BLKSIZ := 512
  const IBLEN := 16
  const IDATA := 8192
  const PERSECT := 7
  const INULL := -1
  const DNULL := -1
  const NDIRENT := 20
  const NLFL := 6
  const NAMELEN := 16

  const DFILL: Byte := '+' as int

  datatype IBlk = IBlk(next: int, offset: int, dba: seq<int>)

  type IBlock = b: IBlk | |b.dba| == IBLEN
    witness IBlk(-1, 0, [-1, -1, -1, -1, -1, -1, -1, -1, -1, -1, -1, -1, -1, -1, -1, -1])

  datatype DirEntry = DirEntry(size: int, ilist: int, name: string)

  datatype Dir = Dir(dfree: int, ifree: int, files: seq<DirEntry>)

  /** What a sector holds; a data block on the free list holds the link to the next one. */
  datatype Sector = Directory(dir: Dir) | Index(blocks: seq<IBlock>) | FreeData(next: int) | Data(bytes: seq<Byte>)

  type Disk = seq<Sector>

  /** The control block of a pseudo-device. `byte` is the offset of the byte pointer in the data buffer. */
  datatype Control = Control(
    used: bool, file: nat, name: string, pos: int,
    inum: int, iblock: IBlock, dnum: int, dblock: seq<Byte>, byte: int,
    ibdirty: bool, dbdirty: bool)

  function Ib2Sect(n: int): int { n / PERSECT + 1 }

  function Ib2Slot(n: int): int { n % PERSECT }

  function ClearBlock(offset: int): IBlock {
    IBlk(INULL, offset, seq(IBLEN, j => DNULL))
  }

  predicate IndexSector(s: Sector) { s.Index? && |s.blocks| == PERSECT }

  function At(d: Disk, n: int): Sector {
    if 0 <= n < |d| then d[n] else FreeData(DNULL)
  }

  /** The i-block that the disk holds under this number. */
  function GetIb(d: Disk, n: int): IBlock {
    var s := At(d, Ib2Sect(n));
    if IndexSector(s) then s.blocks[Ib2Slot(n)] else ClearBlock(0)
  }

  function PutIb(d: Disk, n: int, b: IBlock): (r: Disk)
    requires 0 <= Ib2Sect(n) < |d| && IndexSector(d[Ib2Sect(n)])
  {
    d[Ib2Sect(n) := Index(d[Ib2Sect(n)].blocks[Ib2Slot(n) := b])]
  }

  /** Writing one of the seven i-blocks of a sector changes no other i-block and no other sector. */
  lemma PutIbGet(d: Disk, n: int, b: IBlock, m: int)
    requires 0 <= n && 0 <= Ib2Sect(n) < |d| && IndexSector(d[Ib2Sect(n)])
    ensures GetIb(PutIb(d, n, b), m) == if m == n then b else GetIb(d, m)
  {
    if m != n && Ib2Sect(m) == Ib2Sect(n) { assert Ib2Slot(m) != Ib2Slot(n); }
  }

  // ----- what a file stands for

  /**
    A file as it is meant: the numbers of its i-blocks and data blocks in order, the
    contents of its data blocks end to end, which of them its control block caches,
    and which control block that is (negative for none). `stale` marks a cached block
    that is newly allocated and not on disk yet.
  */
  datatype Image = Image(chain: seq<int>, blocks: seq<int>, raw: seq<Byte>, at: int, slot: int, stale: bool, opener: int)

  function First(s: seq<int>): int { if s == [] then -1 else s[0] }

  function Top(s: seq<int>): int { if s == [] then -1 else s[|s| - 1] }

  /** The k-th i-block of a file. */
  function Entry(x: Image, k: int): IBlock {
    IBlk(if 0 <= k + 1 < |x.chain| then x.chain[k + 1] else INULL, IDATA * k,
         seq(IBLEN, j => if 0 <= IBLEN * k + j < |x.blocks| then x.blocks[IBLEN * k + j] else DNULL))
  }

  function Chunk(raw: seq<Byte>, y: int): seq<Byte> {
    if 0 <= BLKSIZ * y && BLKSIZ * y + BLKSIZ <= |raw| then raw[BLKSIZ * y..BLKSIZ * y + BLKSIZ] else []
  }

  /** I-block `k` is on disk, unless it is cached and dirty. */
  ghost predicate IbOn(d: Disk, x: Image, cb: Control, k: int)
    requires 0 <= k < |x.chain|
  {
    (cb.ibdirty && k == x.at) || GetIb(d, x.chain[k]) == Entry(x, k)
  }

  ghost predicate DbOn(d: Disk, x: Image, cb: Control, y: int)
    requires 0 <= y < |x.blocks|
  {
    ((cb.dbdirty || x.stale) && y == x.slot) || At(d, x.blocks[y]) == Data(Chunk(x.raw, y))
  }

  ghost predicate Cached(x: Image, cb: Control) {
    && (cb.inum != INULL ==> 0 <= x.at < |x.chain| && cb.inum == x.chain[x.at] && cb.iblock == Entry(x, x.at))
    && (cb.dnum != DNULL ==> 0 <= x.slot < |x.blocks| && cb.dnum == x.blocks[x.slot] && cb.dblock == Chunk(x.raw, x.slot))
    && (cb.ibdirty ==> cb.inum != INULL)
    && (cb.dbdirty || x.stale ==> cb.dnum != DNULL)
    && 0 <= cb.byte <= BLKSIZ && 0 <= cb.pos
    && (cb.byte < BLKSIZ ==> cb.dnum != DNULL && cb.pos == BLKSIZ * x.slot + cb.byte)
  }

  ghost predicate FileOn(d: Disk, x: Image, cb: Control) {
    (&& |x.raw| == BLKSIZ * |x.blocks| && |x.blocks| <= IBLEN * |x.chain|
     && Cached(x, cb)
     && (forall k :: 0 <= k < |x.chain| ==> IbOn(d, x, cb, k))
     && (forall y :: 0 <= y < |x.blocks| ==> DbOn(d, x, cb, y))) == true
  }

  // ----- steps on one file

  /** A file does not notice writes to other blocks. */
  lemma FileFrame(d: Disk, e: Disk, x: Image, cb: Control)
    requires FileOn(d, x, cb)
    requires forall k :: 0 <= k < |x.chain| ==> GetIb(e, x.chain[k]) == GetIb(d, x.chain[k])
    requires forall y :: 0 <= y < |x.blocks| ==> At(e, x.blocks[y]) == At(d, x.blocks[y])
    ensures FileOn(e, x, cb)
  {
    forall k | 0 <= k < |x.chain| ensures IbOn(e, x, cb, k) { assert IbOn(d, x, cb, k); }
    forall y | 0 <= y < |x.blocks| ensures DbOn(e, x, cb, y) { assert DbOn(d, x, cb, y); }
  }

  lemma FlushData(d: Disk, x: Image, cb: Control)
    requires FileOn(d, x, cb) && cb.dnum != DNULL && 0 <= cb.dnum < |d| && Distinct(x.blocks)
    requires forall k :: 0 <= k < |x.chain| ==> Ib2Sect(x.chain[k]) != cb.dnum
    ensures FileOn(d[cb.dnum := Data(cb.dblock)], x.(stale := false), cb.(dbdirty := false))
  {
    var e, x', cb' := d[cb.dnum := Data(cb.dblock)], x.(stale := false), cb.(dbdirty := false);
    forall k | 0 <= k < |x.chain| ensures IbOn(e, x', cb', k) {
      assert IbOn(d, x, cb, k);
      assert Entry(x', k) == Entry(x, k);
    }
    forall y | 0 <= y < |x.blocks| ensures DbOn(e, x', cb', y) { assert DbOn(d, x, cb, y); }
    assert cb'.inum != INULL ==> Entry(x', x.at) == Entry(x, x.at);
  }

  lemma FlushIndex(d: Disk, x: Image, cb: Control)
    requires FileOn(d, x, cb) && 0 <= cb.inum && Distinct(x.chain)
    requires 0 <= Ib2Sect(cb.inum) < |d| && IndexSector(d[Ib2Sect(cb.inum)])
    requires forall y :: 0 <= y < |x.blocks| ==> x.blocks[y] != Ib2Sect(cb.inum)
    ensures FileOn(PutIb(d, cb.inum, cb.iblock), x, cb.(ibdirty := false))
  {
    var e, cb' := PutIb(d, cb.inum, cb.iblock), cb.(ibdirty := false);
    forall k | 0 <= k < |x.chain| ensures IbOn(e, x, cb', k) {
      assert IbOn(d, x, cb, k);
      PutIbGet(d, cb.inum, cb.iblock, x.chain[k]);
    }
    forall y | 0 <= y < |x.blocks| ensures DbOn(e, x, cb', y) { assert DbOn(d, x, cb, y); }
  }

  /** Another i-block of the chain is read into a clean cache. */
  lemma LoadIndex(d: Disk, x: Image, cb: Control, k: int)
    requires FileOn(d, x, cb) && !cb.ibdirty && 0 <= k < |x.chain| && x.chain[k] != INULL
    ensures FileOn(d, x.(at := k), cb.(inum := x.chain[k], iblock := GetIb(d, x.chain[k])))
    ensures GetIb(d, x.chain[k]) == Entry(x, k)
  {
    var x', cb' := x.(at := k), cb.(inum := x.chain[k], iblock := GetIb(d, x.chain[k]));
    assert forall i :: Entry(x', i) == Entry(x, i);
    assert IbOn(d, x, cb, k);
    forall i | 0 <= i < |x.chain| ensures IbOn(d, x', cb', i) { assert IbOn(d, x, cb, i); }
    forall y | 0 <= y < |x.blocks| ensures DbOn(d, x', cb', y) { assert DbOn(d, x, cb, y); }
  }

  /** Another data block is read into a clean cache; the byte pointer is set for position `pos`. */
  lemma LoadData(d: Disk, x: Image, cb: Control, y: int)
    requires FileOn(d, x, cb) && !cb.dbdirty && !x.stale && 0 <= y < |x.blocks| && x.blocks[y] != DNULL
    requires cb.byte == BLKSIZ
    ensures At(d, x.blocks[y]) == Data(Chunk(x.raw, y))
    ensures FileOn(d, x.(slot := y), cb.(dnum := x.blocks[y], dblock := Chunk(x.raw, y)))
  {
    var x', cb' := x.(slot := y), cb.(dnum := x.blocks[y], dblock := Chunk(x.raw, y));
    assert forall i :: Entry(x', i) == Entry(x, i);
    assert DbOn(d, x, cb, y);
    forall i | 0 <= i < |x.chain| ensures IbOn(d, x', cb', i) { assert IbOn(d, x, cb, i); }
    forall i | 0 <= i < |x.blocks| ensures DbOn(d, x', cb', i) { assert DbOn(d, x, cb, i); }
  }

  /** The data cache is dropped. */
  lemma DropData(d: Disk, x: Image, cb: Control)
    requires FileOn(d, x, cb) && !cb.dbdirty && !x.stale && cb.byte == BLKSIZ
    ensures FileOn(d, x, cb.(dnum := DNULL))
  {
    var cb' := cb.(dnum := DNULL);
    forall i | 0 <= i < |x.chain| ensures IbOn(d, x, cb', i) { assert IbOn(d, x, cb, i); }
    forall i | 0 <= i < |x.blocks| ensures DbOn(d, x, cb', i) { assert DbOn(d, x, cb, i); }
  }

  /** The cursor moves; the byte pointer is valid only inside the cached block. */
  lemma MoveCursor(d: Disk, x: Image, cb: Control, pos: int, byte: int)
    requires FileOn(d, x, cb) && 0 <= pos && 0 <= byte <= BLKSIZ
    requires byte < BLKSIZ ==> cb.dnum != DNULL && pos == BLKSIZ * x.slot + byte
    ensures FileOn(d, x, cb.(pos := pos, byte := byte))
  {
    var cb' := cb.(pos := pos, byte := byte);
    forall i | 0 <= i < |x.chain| ensures IbOn(d, x, cb', i) { assert IbOn(d, x, cb, i); }
    forall i | 0 <= i < |x.blocks| ensures DbOn(d, x, cb', i) { assert DbOn(d, x, cb, i); }
  }

  /** A new i-block at the end of the chain: the old last one is linked to it on disk, the new one is cached. */
  lemma ExtendChain(d: Disk, x: Image, cb: Control, n: int, e: Disk)
    requires FileOn(d, x, cb) && !cb.ibdirty && n !in x.chain && 0 <= n && |x.blocks| == IBLEN * |x.chain| && Distinct(x.chain)
    requires if x.chain == [] then e == d
             else (&& x.at == |x.chain| - 1 && cb.inum == x.chain[x.at] && 0 <= cb.inum
                   && 0 <= Ib2Sect(cb.inum) < |d| && IndexSector(d[Ib2Sect(cb.inum)])
                   && (forall y :: 0 <= y < |x.blocks| ==> x.blocks[y] != Ib2Sect(cb.inum))
                   && e == PutIb(d, cb.inum, cb.iblock.(next := n)))
    requires cb.inum == INULL ==> x.chain == []
    ensures FileOn(e, x.(chain := x.chain + [n], at := |x.chain|),
                   cb.(inum := n, iblock := ClearBlock(IDATA * |x.chain|), ibdirty := true))
  {
    var x' := x.(chain := x.chain + [n], at := |x.chain|);
    var cb' := cb.(inum := n, iblock := ClearBlock(IDATA * |x.chain|), ibdirty := true);
    assert cb'.iblock == Entry(x', |x.chain|);
    forall i | 0 <= i < |x'.chain| ensures IbOn(e, x', cb', i) {
      if i < |x.chain| {
        assert IbOn(d, x, cb, i);
        PutIbGet(d, cb.inum, cb.iblock.(next := n), x.chain[i]);
        assert Entry(x', i) == if i == |x.chain| - 1 then Entry(x, i).(next := n) else Entry(x, i);
      }
    }
    forall i | 0 <= i < |x.blocks| ensures DbOn(e, x', cb', i) { assert DbOn(d, x, cb, i); }
  }

  /** A new data block at the end of the file, in the cached i-block. */
  lemma ExtendBlocks(d: Disk, x: Image, cb: Control, n: int, fill: seq<Byte>)
    requires FileOn(d, x, cb) && !cb.dbdirty && !x.stale && cb.byte == BLKSIZ && n != DNULL && |fill| == BLKSIZ
    requires cb.inum != INULL && x.at == |x.chain| - 1 && IBLEN * x.at <= |x.blocks| < IBLEN * x.at + IBLEN
    ensures cb.iblock.dba[|x.blocks| - IBLEN * x.at] == DNULL
    ensures FileOn(d, x.(blocks := x.blocks + [n], raw := x.raw + fill, slot := |x.blocks|, stale := true),
                   cb.(iblock := cb.iblock.(dba := cb.iblock.dba[|x.blocks| - IBLEN * x.at := n]), ibdirty := true,
                       dnum := n, dblock := fill))
  {
    var j := |x.blocks| - IBLEN * x.at;
    var x' := x.(blocks := x.blocks + [n], raw := x.raw + fill, slot := |x.blocks|, stale := true);
    var cb' := cb.(iblock := cb.iblock.(dba := cb.iblock.dba[j := n]), ibdirty := true, dnum := n, dblock := fill);
    assert cb'.iblock.dba == Entry(x', x.at).dba;
    assert Chunk(x'.raw, |x.blocks|) == fill;
    forall i | 0 <= i < |x.chain| ensures IbOn(d, x', cb', i) {
      assert IbOn(d, x, cb, i);
      if i < x.at { assert Entry(x', i).dba == Entry(x, i).dba; }
    }
    forall i | 0 <= i < |x'.blocks| ensures DbOn(d, x', cb', i) {
      if i < |x.blocks| {
        assert DbOn(d, x, cb, i);
        assert Chunk(x'.raw, i) == Chunk(x.raw, i);
      }
    }
  }

  /** A byte is stored at the cursor and marked for writing. */
  lemma StoreByte(d: Disk, x: Image, cb: Control, ch: Byte)
    requires FileOn(d, x, cb) && cb.byte < BLKSIZ
    ensures 0 <= cb.pos < |x.raw| && cb.byte < |cb.dblock|
    ensures FileOn(d, x.(raw := x.raw[cb.pos := ch], stale := false),
                   cb.(dblock := cb.dblock[cb.byte := ch], byte := cb.byte + 1, pos := cb.pos + 1, dbdirty := true))
  {
    assert |Chunk(x.raw, x.slot)| == BLKSIZ;
    var x' := x.(raw := x.raw[cb.pos := ch], stale := false);
    var cb' := cb.(dblock := cb.dblock[cb.byte := ch], byte := cb.byte + 1, pos := cb.pos + 1, dbdirty := true);
    assert Chunk(x'.raw, x.slot) == cb'.dblock;
    forall i | 0 <= i < |x.chain| ensures IbOn(d, x', cb', i) {
      assert IbOn(d, x, cb, i);
      assert Entry(x', i) == Entry(x, i);
    }
    assert cb'.inum != INULL ==> Entry(x', x.at) == Entry(x, x.at);
    forall i | 0 <= i < |x.blocks| ensures DbOn(d, x', cb', i) {
      assert DbOn(d, x, cb, i);
      if i != x.slot { assert Chunk(x'.raw, i) == Chunk(x.raw, i); }
    }
  }

  /** The byte under a valid byte pointer is the byte at the cursor. */
  lemma CachedByte(d: Disk, x: Image, cb: Control)
    requires FileOn(d, x, cb) && cb.byte < BLKSIZ
    ensures 0 <= cb.pos < |x.raw| && cb.byte < |cb.dblock| && cb.dblock[cb.byte] == x.raw[cb.pos]
  {
    assert |Chunk(x.raw, x.slot)| == BLKSIZ;
  }
}
