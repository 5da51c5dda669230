/** Creating an empty file system on a disk: when the result is one, and what happens otherwise. */
module LfsCreation {
  import opened Common
  import opened LfsBlocks
  import opened LfsInvariant

  const UINT32 := 0x1_0000_0000

  type Int32 = n: int | -0x8000_0000 <= n < 0x8000_0000

  /** Sectors for this many i-blocks, seven to a sector, computed in 32 bits without sign. */
  function IbSectors(lfiblks: Int32): nat { (lfiblks + PERSECT - 1) % UINT32 / PERSECT }

  /** How often the loop over data blocks runs; the subtraction wraps around. */
  function DataTurns(ibsectors: nat, sectors: nat): nat { ((sectors - ibsectors - 1) % UINT32 - 1) % UINT32 }

  // ----- i-blocks

  /** Writes one i-block into a sector that may hold anything before. A sector off the disk is not written. */
  method PutRaw(d: Disk, n: int, b: IBlock) returns (e: Disk)
    requires 0 <= n
    ensures |e| == |d|
    ensures Ib2Sect(n) < |d| ==> IndexSector(e[Ib2Sect(n)]) && GetIb(e, n) == b
    ensures forall m :: m != Ib2Sect(n) && 0 <= m < |d| ==> e[m] == d[m]
    ensures Ib2Sect(n) < |d| && IndexSector(d[Ib2Sect(n)]) ==> e == PutIb(d, n, b)
  {
    e := d;
    if Ib2Sect(n) < |d| {
      var dbuff: seq<IBlock>;
      if IndexSector(d[Ib2Sect(n)]) {
        dbuff := d[Ib2Sect(n)].blocks;
      } else {
        assert |seq(PERSECT, j => ClearBlock(0))| == PERSECT;
        dbuff :| |dbuff| == PERSECT;
      }
      e := d[Ib2Sect(n) := Index(dbuff[Ib2Slot(n) := b])];
    }
  }

  lemma PutRawGet(d: Disk, e: Disk, i: int, b: IBlock, n: int)
    requires 0 <= n < i && Ib2Sect(i) < |d| == |e|
    requires forall m :: m != Ib2Sect(i) && 0 <= m < |d| ==> e[m] == d[m]
    requires Ib2Sect(n) == Ib2Sect(i) ==> IndexSector(d[Ib2Sect(i)])
    requires IndexSector(d[Ib2Sect(i)]) ==> e == PutIb(d, i, b)
    ensures GetIb(e, n) == GetIb(d, n)
  {
    if Ib2Sect(n) == Ib2Sect(i) { PutIbGet(d, i, b, n); }
  }

  /** The i-blocks linked in ascending order. With none asked for, i-block 0 is written all the same. */
  method IndexList(d0: Disk, iblks: nat, nibs: nat) returns (d: Disk)
    requires iblks == PERSECT * nibs && 0 < |d0| && nibs < |d0|
    ensures |d| == |d0| && d[0] == d0[0] && forall s :: 1 <= s <= nibs ==> IndexSector(d[s])
    ensures forall n :: 0 <= n < iblks ==> GetIb(d, n).next == if n + 1 < iblks then n + 1 else INULL
    ensures forall s :: nibs < s < |d0| && s != 1 ==> d[s] == d0[s]
  {
    d := d0;
    var iblock: IBlock := ClearBlock(0);
    var i := 0;
    while i < iblks - 1
      invariant 0 <= i && (iblks > 0 ==> i <= iblks - 1) && (iblks == 0 ==> i == 0) && |d| == |d0| && d[0] == d0[0]
      invariant forall s :: 1 <= s <= nibs && PERSECT * (s - 1) < i ==> IndexSector(d[s])
      invariant forall n :: 0 <= n < i ==> GetIb(d, n).next == n + 1
      invariant forall s :: nibs < s < |d0| ==> d[s] == d0[s]
    {
      ghost var e := d;
      iblock := iblock.(next := i + 1);
      d := PutRaw(d, i, iblock);
      forall n | 0 <= n < i ensures GetIb(d, n) == GetIb(e, n) { PutRawGet(e, d, i, iblock, n); }
      i := i + 1;
    }
    ghost var e := d;
    iblock := iblock.(next := INULL);
    d := PutRaw(d, i, iblock);
    forall n | 0 <= n < i ensures GetIb(d, n) == GetIb(e, n) { PutRawGet(e, d, i, iblock, n); }
  }

  // ----- data blocks

  /** Sector `s` after the loop: in reach of it, linked to the next one; the last one ends the list. */
  function DataSector(d0: Disk, first: nat, turns: nat, s: nat): Sector
    requires s < |d0|
  {
    if first <= s < first + turns then FreeData(s + 1) else if s == first + turns then FreeData(DNULL) else d0[s]
  }

  method WriteSector(d: Disk, n: nat, s: Sector) returns (e: Disk)
    ensures e == if n < |d| then d[n := s] else d
  {
    e := d;
    if n < |d| { e := d[n := s]; }
  }

  method DataList(d0: Disk, first: nat, turns: nat) returns (d: Disk)
    ensures |d| == |d0| && forall s :: 0 <= s < |d0| ==> d[s] == DataSector(d0, first, turns, s)
  {
    d := d0;
    var dbindex, i := first, 0;
    while i < turns
      invariant 0 <= i <= turns && dbindex == first + i && |d| == |d0|
      invariant forall s :: 0 <= s < |d0| ==> d[s] == if first <= s < dbindex then FreeData(s + 1) else d0[s]
    {
      d := WriteSector(d, dbindex, FreeData(dbindex + 1));
      dbindex := dbindex + 1;
      i := i + 1;
    }
    d := WriteSector(d, dbindex, FreeData(DNULL));
  }

  // ----- the whole disk

  /** What the call leaves, sector by sector; what it writes off the disk is lost. */
  ghost predicate Created(d0: Disk, lfiblks: Int32, dsiz: nat, r: int, d: Disk) {
    var sectors, nibs := dsiz / BLKSIZ, IbSectors(lfiblks);
    if nibs > sectors / 2 || d0 == [] then r == SYSERR && d == d0
    else
      && r == OK && |d| == |d0| && d[0] == Directory(Dir(nibs + 1, 0, []))
      && (forall s :: 1 <= s <= nibs && s < |d| ==> IndexSector(d[s]))
      && (forall n :: 0 <= n < PERSECT * nibs ==> GetIb(d, n).next == if n + 1 < PERSECT * nibs then n + 1 else INULL)
      && (forall s :: nibs < s < |d| && s <= nibs + 1 + DataTurns(nibs, sectors) ==>
            d[s] == FreeData(if s == nibs + 1 + DataTurns(nibs, sectors) then DNULL else s + 1))
      && (forall s :: nibs + 1 + DataTurns(nibs, sectors) < s < |d| ==> d[s] == d0[s])
  }

  /** The device has at least the sectors that `dsiz` claims. */
  method LfsCreate(d0: Disk, lfiblks: Int32, dsiz: nat) returns (r: int, d: Disk)
    requires dsiz < UINT32 && dsiz / BLKSIZ <= |d0|
    ensures Created(d0, lfiblks, dsiz, r, d)
  {
    var sectors := dsiz / BLKSIZ;
    var ibsectors := IbSectors(lfiblks);
    var iblks := ibsectors * PERSECT;
    if ibsectors > sectors / 2 { return SYSERR, d0; }
    var dbindex := ibsectors + 1;
    if |d0| == 0 { return SYSERR, d0; }
    d := d0[0 := Directory(Dir(dbindex, 0, []))];
    d := IndexList(d, iblks, ibsectors);
    ghost var e := d;
    d := DataList(d, dbindex, DataTurns(ibsectors, sectors));
    assert forall n :: 0 <= n < iblks ==> GetIb(d, n) == GetIb(e, n);
    return OK, d;
  }

  // ----- when it is a file system

  lemma TurnsFit(nibs: nat, sectors: nat)
    requires nibs <= sectors / 2 && 3 <= sectors < UINT32
    ensures nibs + 1 + DataTurns(nibs, sectors) == sectors - 1
  {
  }

  /**
    A call that is not refused leaves a file system, with all blocks on their free
    lists, if and only if at least one i-block is asked for and the disk has at
    least three sectors.
  */
  lemma CreatedIff(d0: Disk, lfiblks: Int32, dsiz: nat, d: Disk)
    requires dsiz < UINT32 && dsiz / BLKSIZ <= |d0| <= 0x8000_0000 && Created(d0, lfiblks, dsiz, OK, d)
    ensures (exists nibs, nsec :: Formatted(d, nibs, nsec)) <==> lfiblks >= 1 && dsiz / BLKSIZ >= 3
    ensures lfiblks >= 1 && dsiz / BLKSIZ >= 3 ==> Formatted(d, IbSectors(lfiblks), dsiz / BLKSIZ)
  {
    var sectors, nibs := dsiz / BLKSIZ, IbSectors(lfiblks);
    if lfiblks >= 1 && sectors >= 3 {
      TurnsFit(nibs, sectors);
      assert Formatted(d, nibs, sectors);
    } else {
      forall m, nsec ensures !Formatted(d, m, nsec) {
        NoLayout(d0, lfiblks, dsiz, d, m, nsec);
      }
    }
  }

  lemma NoLayout(d0: Disk, lfiblks: Int32, dsiz: nat, d: Disk, m: nat, nsec: nat)
    requires dsiz < UINT32 && dsiz / BLKSIZ <= |d0| <= 0x8000_0000 && Created(d0, lfiblks, dsiz, OK, d)
    requires !(lfiblks >= 1 && dsiz / BLKSIZ >= 3)
    ensures !Formatted(d, m, nsec)
  {
    if lfiblks >= 1 {
      assert dsiz / BLKSIZ == 2 && DataTurns(1, 2) == UINT32 - 1;
      if 2 < nsec <= |d| { assert d[nsec - 1] == FreeData(nsec); }
    }
  }

  /** No i-blocks: sector 1 is the first free data block and holds i-block 0, the first free i-block, as well. */
  lemma NoIndexBlocks(d0: Disk, dsiz: nat, r: int, d: Disk)
    requires 1024 <= dsiz < UINT32 && dsiz / BLKSIZ <= |d0| && Created(d0, 0, dsiz, r, d)
    ensures r == OK && d[0].dir.ifree == 0 && Ib2Sect(d[0].dir.ifree) == 1 == d[0].dir.dfree
    ensures d[1].FreeData? && !IndexSector(d[1])
  {
    assert DataTurns(0, dsiz / BLKSIZ) == dsiz / BLKSIZ - 2;
  }

  /** Two sectors: the list of data blocks starts behind the disk's end and overwrites all that lies there. */
  lemma TwoSectors(d0: Disk, r: int, d: Disk)
    requires 2 <= |d0| <= 0x8000_0000 && Created(d0, 1, 1024, r, d)
    ensures r == OK && d[0].dir.dfree == 2 && forall s :: 2 <= s < |d| ==> d[s] == FreeData(s + 1)
  {
    assert DataTurns(1, 2) == UINT32 - 1;
  }
}
