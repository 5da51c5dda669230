/** The operations of the local file system on its disk, directory and control blocks. */
module Lfs {
  import opened Common
  import opened Lists
  import opened LfsBlocks
  import opened Ownership
  import opened LfsSpec
  import opened LfsInvariant
  import LfsHistory

  /** In the middle of a setup: caches written back, byte pointer not set. */
  ghost predicate Between(v: Vol, f: nat, i: nat) {
    (&& Base(v) && i < NLFL && f < |v.dir.files| && v.tab[i].used && v.tab[i].file == f && v.g[f].opener == i
     && !v.tab[i].dbdirty && !v.g[f].stale && v.tab[i].byte == BLKSIZ) == true
  }

  /** What finding the i-block for the position may change: the i-block cache and, for an append, the chain. */
  ghost predicate Walked(v: Vol, w: Vol, f: nat, i: nat) {
    (&& OnlyFile(v, w, f) && i < |v.tab| && f < |v.dir.files|
     && w.tab[i].pos == v.tab[i].pos && w.dir.files[f].size == v.dir.files[f].size
     && w.g[f].raw == v.g[f].raw && w.g[f].blocks == v.g[f].blocks && w.dfree == v.dfree
     && |v.disk| == |w.disk| > 0
     && if w.g[f].chain == v.g[f].chain
        then w.ifree == v.ifree && w.dir == v.dir && w.dirdirty == v.dirdirty && w.disk[0] == v.disk[0]
        else |w.g[f].chain| == |v.g[f].chain| + 1 && v.ifree != []) == true
  }

  /** Between two turns of the walk along the chain from state `v`. */
  ghost predicate OnTheWay(v: Vol, w: Vol, f: nat, i: nat) {
    (&& Between(w, f, i) && Walked(v, w, f, i) && w.tab[i].inum != INULL
     && w.tab[i].iblock.offset == IDATA * w.g[f].at && 0 <= w.g[f].at <= w.tab[i].pos / IDATA
     && (w.tab[i].ibdirty ==> w.g[f].at == w.tab[i].pos / IDATA)
     && (w.g[f].chain == v.g[f].chain
         || (w.g[f].at == w.tab[i].pos / IDATA && |w.g[f].chain| == |v.g[f].chain| + 1 == w.g[f].at + 1))) == true
  }

  lemma WalkedTrans(u: Vol, v: Vol, w: Vol, f: nat, i: nat)
    requires Walked(u, v, f, i) && Walked(v, w, f, i) && (v.g[f].chain == u.g[f].chain || w.g[f].chain == v.g[f].chain)
    ensures Walked(u, w, f, i)
  {
  }

  lemma DataDropped(v: Vol, w: Vol, u: Vol, f: nat, i: nat)
    requires Walked(v, w, f, i) && Between(u, f, i) && u == w.(tab := w.tab[i := w.tab[i].(dnum := DNULL)])
    requires w.tab[i].inum != INULL && 0 <= w.g[f].at <= w.tab[i].pos / IDATA
    requires w.tab[i].ibdirty ==> w.g[f].at == w.tab[i].pos / IDATA
    requires w.g[f].chain == v.g[f].chain
             || (w.g[f].at == w.tab[i].pos / IDATA && |w.g[f].chain| == |v.g[f].chain| + 1 == w.g[f].at + 1)
    ensures OnTheWay(v, u, f, i)
  {
    BaseFile(u, f);
  }

  lemma GrownWalked(v: Vol, v1: Vol, w: Vol, f: nat, i: nat)
    requires Between(v, f, i) && |v1.disk| == |v.disk| && v1 == v.(disk := v1.disk, dirdirty := false)
    requires ChainGrown(v1, w, f, i) && Base(w)
    ensures Between(w, f, i) && Walked(v, w, f, i) && |w.g[f].chain| == |v.g[f].chain| + 1
    ensures w.tab[i].inum != INULL && w.g[f].at == |v.g[f].chain|
  {
    FreeIsListed(v);
    assert Unfold(Goals, true);
  }

  /** The data blocks set aside are free up to position `m` of `blocks`; the i-blocks are as they were. */
  ghost predicate Freeing(v: Vol, w: Vol, blocks: seq<int>, m: nat) {
    (&& Base(w) && w == v.(disk := w.disk, dir := v.dir.(dfree := w.dir.dfree), dfree := w.dfree, ddet := w.ddet)
     && w.ddet == Tail(blocks, m) && w.dfree + w.ddet == v.dfree + v.ddet
     && forall n :: 0 <= n < PERSECT * v.nibs ==> GetIb(w.disk, n) == GetIb(v.disk, n)) == true
  }

  /** The walk along the chain set aside has done its first `k` i-blocks; the others are as in file `all`. */
  ghost predicate Unchained(v: Vol, w: Vol, all: Image, k: nat) {
    (&& Base(w) && w == v.(disk := w.disk, dir := v.dir.(dfree := w.dir.dfree), dfree := w.dfree, ddet := w.ddet)
     && w.idet == all.chain && w.ddet == Tail(all.blocks, IBLEN * k) && w.dfree + w.ddet == v.dfree + v.ddet
     && (forall j :: k <= j < |w.idet| ==> GetIb(w.disk, w.idet[j]) == Entry(all, j))
     && Relinked(w, k)) == true
  }

  lemma PutChained(v0: Vol, u: Vol, v: Vol, w: Vol, all: Image, k: nat, b: IBlock)
    requires Unchained(v0, u, all, k) && k < |u.idet| && Freeing(u, v, all.blocks, IBLEN * k + IBLEN)
    requires IndexPlace(v, v.idet[k]) && w == v.(disk := PutIb(v.disk, v.idet[k], b)) && Base(w)
    requires b.next == if k + 1 < |u.idet| then u.idet[k + 1] else Top(u.ifree)
    ensures Unchained(v0, w, all, k + 1)
  {
    AsideBlocks(v);
    forall j | 0 <= j < |w.idet| ensures GetIb(w.disk, w.idet[j]) == if j == k then b else GetIb(u.disk, w.idet[j]) {
      PutIbGet(v.disk, v.idet[k], b, w.idet[j]);
    }
    forall j | 0 <= j < k + 1 ensures DetLinked(w, j) {
      if j < k { assert DetLinked(u, j); }
    }
  }

  class Volume {
    var disk: Disk
    var dir: Dir
    var dirpresent: bool
    var dirdirty: bool
    var tab: seq<Control>
    ghost var g: seq<Image>
    ghost var ifree: seq<int>
    ghost var dfree: seq<int>
    ghost var idet: seq<int>
    ghost var ddet: seq<int>
    ghost const nibs: nat
    ghost const nsec: nat

    /** A newly created file system, mounted by nobody yet. */
    constructor (d: Disk, ghost ibsectors: nat, ghost sectors: nat)
      requires Formatted(d, ibsectors, sectors)
      ensures Valid() && Abs(V()) == Store([], seq(NLFL, i => Closed), PERSECT * ibsectors, sectors - ibsectors - 1)
      ensures !dirdirty
    {
      disk, dir, dirpresent, dirdirty := d, Dir(DNULL, INULL, []), false, false;
      tab := seq(NLFL, i => NoDevice());
      g := NewVol(d, ibsectors, sectors).g;
      ifree, dfree, idet, ddet := Countdown(0, PERSECT * ibsectors), Countdown(ibsectors + 1, sectors), [], [];
      nibs, nsec := ibsectors, sectors;
      new;
      NewInv(d, ibsectors, sectors);
      assert V() == NewVol(d, ibsectors, sectors);
    }

    /** The whole state, with the directory that a first open would read. */
    ghost function V(): Vol
      reads this
    {
      Vol(disk, if dirpresent || |disk| == 0 || !disk[0].Directory? then dir else disk[0].dir, dirdirty, tab,
          g, ifree, dfree, idet, ddet, nibs, nsec)
    }

    // ----- index blocks

    method LfIbGet(n: int) returns (b: IBlock)
      requires 0 <= Ib2Sect(n) < |disk| && IndexSector(disk[Ib2Sect(n)])
      ensures b == GetIb(disk, n)
    {
      var dbuff := disk[Ib2Sect(n)];
      b := dbuff.blocks[Ib2Slot(n)];
    }

    /** Reads the sector, replaces one i-block, writes the sector back. */
    method LfIbPut(n: int, b: IBlock)
      requires 0 <= Ib2Sect(n) < |disk| && IndexSector(disk[Ib2Sect(n)])
      modifies this`disk
      ensures disk == PutIb(old(disk), n, b)
    {
      var dbuff := disk[Ib2Sect(n)].blocks;
      dbuff := dbuff[Ib2Slot(n) := b];
      disk := disk[Ib2Sect(n) := Index(dbuff)];
    }

    method LfIbClear(b: IBlock, offset: int) returns (r: IBlock)
      ensures r == ClearBlock(offset)
    {
      r := b.(offset := offset);
      var i := 0;
      while i < IBLEN
        invariant 0 <= i <= IBLEN && |r.dba| == IBLEN && r.offset == offset
        invariant forall j :: 0 <= j < i ==> r.dba[j] == DNULL
      {
        r := r.(dba := r.dba[i := DNULL]);
        i := i + 1;
      }
      r := r.(next := INULL);
      assert r.dba == ClearBlock(offset).dba;
    }

    /** Takes the first free i-block and writes the directory; false if there is none. */
    method LfIbAlloc() returns (ok: bool, n: int)
      requires dirpresent && Base(V())
      modifies this`disk, this`dir, this`dirdirty
      ensures ok == (ifree != [])
      ensures ok ==> n == Top(ifree) && !dirdirty && dir == old(dir).(ifree := Top(Popped(ifree)))
      ensures ok ==> disk == old(disk)[0 := Directory(dir)]
    {
      BaseFree(V());
      n := dir.ifree;
      if n == INULL {
        FreeIsListed(V());
        return false, n;
      }
      FreeIsListed(V());
      var iblock := LfIbGet(n);
      dir := dir.(ifree := iblock.next);
      disk := disk[0 := Directory(dir)];
      dirdirty := false;
      return true, n;
    }

    /** Takes the first free data block, writes the directory and fills the buffer; false if there is none. */
    method LfDbAlloc() returns (ok: bool, n: int, buf: seq<Byte>)
      requires dirpresent && Base(V())
      modifies this`disk, this`dir, this`dirdirty
      ensures ok == (dfree != [])
      ensures ok ==> n == Top(dfree) && !dirdirty && dir == old(dir).(dfree := Top(Popped(dfree))) && buf == Filled()
      ensures ok ==> disk == old(disk)[0 := Directory(dir)]
    {
      BaseFree(V());
      FreeIsListed(V());
      n, buf := dir.dfree, [];
      if n == DNULL { return false, n, buf; }
      var dbuff := disk[n];
      dir := dir.(dfree := dbuff.next);
      disk := disk[0 := Directory(dir)];
      dirdirty := false;
      buf := Filled();
      return true, n, buf;
    }

    // ----- writing back

    method LfFlush(i: nat) returns (r: int)
      requires dirpresent && Base(V()) && i < NLFL && (tab[i].file < |g| ==> !g[tab[i].file].stale)
      modifies this
      ensures dirpresent && Base(V())
      ensures r == if old(tab)[i].used then OK else SYSERR
      ensures !old(tab)[i].used ==> V() == old(V())
      ensures old(tab)[i].used ==> Flushed(old(V()), V(), i)
    {
      if !tab[i].used { return SYSERR; }
      ghost var f := tab[i].file;
      DeviceFile(V(), i);
      if dirdirty {
        disk := disk[0 := Directory(dir)];
        dirdirty := false;
        DirStep(old(V()), V(), dir);
      }
      ghost var v := V();
      FileBlocks(v, f);
      if tab[i].dbdirty {
        disk := disk[tab[i].dnum := Data(tab[i].dblock)];
        tab := tab[i := tab[i].(dbdirty := false)];
        DataStep(v, V(), f, i);
      }
      ghost var w := V();
      FileBlocks(w, f);
      if tab[i].ibdirty {
        LfIbPut(tab[i].inum, tab[i].iblock);
        tab := tab[i := tab[i].(ibdirty := false)];
        IndexStep(w, V(), f, i);
      }
      assert tab[i] == old(tab)[i].(ibdirty := false, dbdirty := false);
      return OK;
    }

    // ----- the block for the file position

    /** Makes `n`, the k-th i-block of the file, the cached one. */
    method LoadIb(i: nat, n: int, ghost f: nat, ghost k: nat)
      requires dirpresent && Between(V(), f, i) && !tab[i].ibdirty && k < |g[f].chain| && n == g[f].chain[k]
      modifies this`tab, this`g
      ensures Between(V(), f, i) && Walked(old(V()), V(), f, i) && g[f].chain == old(g[f].chain)
      ensures tab[i].inum != INULL && g[f].at == k && !tab[i].ibdirty && tab[i].iblock == Entry(g[f], k)
    {
      FileBlocks(V(), f);
      LoadIndex(disk, g[f], tab[i], k);
      var b := LfIbGet(n);
      tab := tab[i := tab[i].(inum := n, iblock := b)];
      g := g[f := g[f].(at := k)];
      CacheStep(old(V()), V(), f, i);
    }

    /** The first i-block of an empty file, or one more at the end of the chain. */
    method GrowChain(i: nat, ghost f: nat) returns (ok: bool)
      requires dirpresent && Between(V(), f, i) && MayGrow(V(), f, i)
      requires tab[i].inum == INULL || tab[i].iblock.offset + IDATA == IDATA * |g[f].chain|
      modifies this
      ensures dirpresent && ok == (old(ifree) != [])
      ensures ok ==> Between(V(), f, i) && Walked(old(V()), V(), f, i) && |g[f].chain| == old(|g[f].chain|) + 1
      ensures ok ==> tab[i].inum != INULL && g[f].at == old(|g[f].chain|)
    {
      ghost var v := V();
      FreeIsListed(v);
      var n;
      ok, n := LfIbAlloc();
      if !ok { return; }
      ghost var v1 := v.(disk := disk, dirdirty := false);
      DirStep(v, v1, dir);
      Extend(i, n, f, v1);
      GrownWalked(v, v1, V(), f, i);
    }

    /** The newly allocated i-block becomes the last of the chain and the cached one. */
    method Extend(i: nat, n: int, ghost f: nat, ghost v: Vol)
      requires dirpresent && v.ifree != [] && n == Top(v.ifree) && V() == v.(dir := dir) && dir == v.dir.(ifree := Top(Popped(v.ifree)))
      requires f < |dir.files| && i < NLFL && MayGrow(v, f, i) && tab[i].file == f
      requires tab[i].inum == INULL || tab[i].iblock.offset + IDATA == IDATA * |g[f].chain|
      modifies this
      ensures dirpresent && ChainGrown(v, V(), f, i) && Base(V())
    {
      FileBlocks(v, f);
      if tab[i].inum == INULL {
        var b := LfIbClear(tab[i].iblock, 0);
        dir := dir.(files := dir.files[tab[i].file := dir.files[tab[i].file].(ilist := n)]);
        tab := tab[i := tab[i].(inum := n, iblock := b, ibdirty := true)];
      } else {
        LfIbPut(tab[i].inum, tab[i].iblock.(next := n));
        var b := LfIbClear(tab[i].iblock, tab[i].iblock.offset + IDATA);
        tab := tab[i := tab[i].(inum := n, iblock := b, ibdirty := true)];
      }
      ifree := Popped(ifree);
      g := g[f := g[f].(chain := g[f].chain + [n], at := |g[f].chain|)];
      ChainStep(v, V(), f, i);
    }

    /** An i-block at or before the position is in the cache. */
    method SetupIndex(i: nat, ghost f: nat) returns (ok: bool)
      requires dirpresent && Between(V(), f, i) && !tab[i].ibdirty && Placed(g[f], tab[i].pos)
      modifies this
      ensures dirpresent && ok == (old(g[f].chain) != [] || old(ifree) != [])
      ensures ok ==> Between(V(), f, i) && Walked(old(V()), V(), f, i) && tab[i].inum != INULL
      ensures ok ==> 0 <= IDATA * g[f].at <= tab[i].pos
      ensures ok ==> if old(g[f].chain) == [] then g[f].at == 0 else g[f].chain == old(g[f].chain) && !tab[i].ibdirty
    {
      FileBlocks(V(), f);
      if tab[i].inum == INULL {
        var n := dir.files[tab[i].file].ilist;
        if n == INULL {
          ok := GrowChain(i, f);
        } else {
          LoadIb(i, n, f, 0);
          ok := true;
        }
      } else {
        if tab[i].pos < tab[i].iblock.offset {
          LoadIb(i, dir.files[tab[i].file].ilist, f, 0);
        }
        ok := true;
      }
    }

    /** Follows the chain to the i-block that covers the position, extending it by one if need be. */
    method SetupWalk(i: nat, ghost f: nat) returns (ok: bool)
      requires dirpresent && Between(V(), f, i) && tab[i].inum != INULL && 0 <= IDATA * g[f].at <= tab[i].pos
      requires tab[i].ibdirty ==> g[f].at == tab[i].pos / IDATA
      requires tab[i].pos <= |g[f].raw| && (tab[i].pos == IDATA * |g[f].chain| ==> |g[f].blocks| == IBLEN * |g[f].chain|)
      modifies this
      ensures dirpresent && ok == (old(tab[i].pos / IDATA < |g[f].chain|) || old(ifree) != [])
      ensures ok ==> Between(V(), f, i) && Walked(old(V()), V(), f, i) && tab[i].inum != INULL
      ensures ok ==> g[f].at == tab[i].pos / IDATA
      ensures ok ==> if old(tab[i].pos / IDATA < |g[f].chain|) then g[f].chain == old(g[f].chain)
                     else |g[f].chain| == old(|g[f].chain|) + 1 == tab[i].pos / IDATA + 1
    {
      ghost var v := V();
      BaseFile(v, f);
      ok := true;
      while tab[i].pos - tab[i].pos % IDATA > tab[i].iblock.offset
        invariant dirpresent && ok && OnTheWay(v, V(), f, i)
        decreases tab[i].pos / IDATA - g[f].at
      {
        ok := WalkOn(i, f, v);
        if !ok { return; }
      }
      BaseFile(V(), f);
    }

    /** One turn: the next i-block of the chain, and no data block. */
    method WalkOn(i: nat, ghost f: nat, ghost v: Vol) returns (ok: bool)
      requires dirpresent && OnTheWay(v, V(), f, i) && g[f].at < tab[i].pos / IDATA
      requires v.tab[i].pos <= |v.g[f].raw| && (v.tab[i].pos == IDATA * |v.g[f].chain| ==> |v.g[f].blocks| == IBLEN * |v.g[f].chain|)
      modifies this
      ensures dirpresent && (!ok ==> v.tab[i].pos / IDATA >= |v.g[f].chain| && v.ifree == [])
      ensures ok ==> OnTheWay(v, V(), f, i) && g[f].at == old(g[f].at) + 1 && tab[i].pos == v.tab[i].pos
    {
      FileBlocks(V(), f);
      ghost var u := V();
      var n := tab[i].iblock.next;
      if n == INULL {
        ok := GrowChain(i, f);
        if !ok { return; }
      } else {
        LoadIb(i, n, f, g[f].at + 1);
        ok := true;
      }
      WalkedTrans(v, u, V(), f, i);
      ghost var w := V();
      InvalidateData(i, f);
      DataDropped(v, w, V(), f, i);
    }

    /** The data block for the position is in the cache, newly allocated at the end of the file. */
    method SetupData(i: nat, ghost f: nat) returns (ok: bool)
      requires dirpresent && Between(V(), f, i) && tab[i].inum != INULL && g[f].at == tab[i].pos / IDATA
      requires tab[i].pos <= |g[f].raw| && (tab[i].pos == |g[f].raw| ==> g[f].at == |g[f].chain| - 1)
      modifies this
      ensures dirpresent && ok == (old(tab[i].pos < |g[f].raw|) || old(dfree) != [])
      ensures ok ==> Loaded(old(V()), V(), f, i)
    {
      ghost var v := V();
      FileBlocks(v, f);
      FreeIsListed(v);
      var dindex := tab[i].pos % IDATA / BLKSIZ;
      ghost var y := tab[i].pos / BLKSIZ;
      assert y == IBLEN * g[f].at + dindex;
      var dnum := tab[i].iblock.dba[dindex];
      ok := true;
      if dnum == DNULL {
        ok := AddBlock(i, dindex, f);
        if !ok { return; }
      } else if dnum != tab[i].dnum {
        LoadDb(i, dnum, f, y);
      }
      SetPointer(i, f);
      assert Unfold(Goals, true);
    }

    /** Makes `n`, the y-th data block of the file, the cached one. */
    method LoadDb(i: nat, n: int, ghost f: nat, ghost y: nat)
      requires dirpresent && Between(V(), f, i) && y < |g[f].blocks| && n == g[f].blocks[y]
      requires tab[i].inum != INULL && g[f].at == y / IBLEN
      modifies this`tab, this`g
      ensures Base(V()) && g == old(g)[f := old(g)[f].(slot := y)]
      ensures exists b :: tab == old(tab)[i := old(tab)[i].(dnum := n, dblock := b, dbdirty := false)]
    {
      FileBlocks(V(), f);
      LoadData(disk, g[f], tab[i], y);
      tab := tab[i := tab[i].(dnum := n, dblock := disk[n].bytes, dbdirty := false)];
      g := g[f := g[f].(slot := y)];
      CacheStep(old(V()), V(), f, i);
    }

    /** A new data block at the end of the file, entered in the cached i-block. */
    method AddBlock(i: nat, dindex: int, ghost f: nat) returns (ok: bool)
      requires dirpresent && Between(V(), f, i) && tab[i].inum != INULL && dindex == |g[f].blocks| - IBLEN * g[f].at
      requires 0 <= dindex < IBLEN && g[f].at == |g[f].chain| - 1
      modifies this
      ensures dirpresent && ok == (old(dfree) != [])
      ensures ok ==> !dirdirty && |disk| == old(|disk|) > 0 && disk[0] == Directory(dir)
      ensures ok ==> BlocksGrown(old(V()).(disk := disk, dirdirty := false), V(), f, i) && Base(V())
    {
      ghost var v := V();
      FreeIsListed(v);
      BaseFile(v, f);
      var dnum, buf;
      ok, dnum, buf := LfDbAlloc();
      if !ok { return; }
      ghost var v1 := v.(disk := disk, dirdirty := false);
      DirStep(v, v1, dir);
      tab := tab[i := tab[i].(iblock := tab[i].iblock.(dba := tab[i].iblock.dba[dindex := dnum]), ibdirty := true,
                              dnum := dnum, dblock := buf)];
      dfree := Popped(dfree);
      g := g[f := g[f].(blocks := g[f].blocks + [dnum], raw := g[f].raw + buf, slot := |g[f].blocks|, stale := true)];
      BlocksStep(v1, V(), f, i);
    }

    method SetPointer(i: nat, ghost f: nat)
      requires Base(V()) && i < NLFL && f < NDIRENT && g[f].opener == i && tab[i].dnum != DNULL && 0 <= tab[i].pos
      requires g[f].slot == tab[i].pos / BLKSIZ
      modifies this`tab
      ensures Base(V()) && tab == old(tab)[i := old(tab)[i].(byte := old(tab)[i].pos % BLKSIZ)]
    {
      BaseFile(V(), f);
      MoveCursor(disk, g[f], tab[i], tab[i].pos, tab[i].pos % BLKSIZ);
      tab := tab[i := tab[i].(byte := tab[i].pos % BLKSIZ)];
      CacheStep(old(V()), V(), f, i);
    }

    /** The i-block that covers the position is in the cache. */
    method FindIndex(i: nat, ghost f: nat) returns (ok: bool)
      requires dirpresent && Between(V(), f, i) && !tab[i].ibdirty && Placed(g[f], tab[i].pos)
      modifies this
      ensures dirpresent && ok == (old(tab[i].pos / IDATA < |g[f].chain|) || old(ifree) != [])
      ensures ok ==> Between(V(), f, i) && Walked(old(V()), V(), f, i) && tab[i].inum != INULL
      ensures ok ==> g[f].at == tab[i].pos / IDATA
      ensures ok ==> if old(tab[i].pos / IDATA < |g[f].chain|) then g[f].chain == old(g[f].chain)
                     else |g[f].chain| == old(|g[f].chain|) + 1 == tab[i].pos / IDATA + 1
    {
      ghost var v := V();
      ok := SetupIndex(i, f);
      if !ok { return; }
      ghost var w := V();
      BaseFile(w, f);
      ok := SetupWalk(i, f);
      if ok { WalkedTrans(v, w, V(), f, i); }
    }

    /** The block for the position is in the cache, and the byte pointer is set. */
    method Locate(i: nat, ghost f: nat) returns (ok: bool)
      requires dirpresent && Between(V(), f, i) && !tab[i].ibdirty && Placed(g[f], tab[i].pos) && DirOK(V())
      modifies this
      ensures dirpresent
      ensures ok == ((old(tab[i].pos / IDATA < |g[f].chain|) || old(ifree) != [])
                     && (old(tab[i].pos < |g[f].raw|) || old(dfree) != []))
      ensures ok ==> SetUp(old(V()), V(), f, i)
    {
      ghost var v := V();
      FileBlocks(v, f);
      ok := FindIndex(i, f);
      if !ok { return; }
      ghost var w := V();
      FileBlocks(w, f);
      ok := SetupData(i, f);
      if ok {
        LocateDone(v, w, V(), f, i);
      }
    }

    method LfSetup(i: nat) returns (ok: bool)
      requires dirpresent && Inv(V()) && i < NLFL && tab[i].used && tab[i].byte == BLKSIZ
      modifies this
      ensures dirpresent && ok == Room(old(V()), i)
      ensures ok ==> SetUp(old(V()), V(), old(tab[i].file), i)
    {
      ghost var v, f := V(), tab[i].file;
      DeviceFile(v, i);
      RestFacts(v, f);
      FileBlocks(v, f);
      RestPlaced(v.g[f], v.tab[i], v.dir.files[f].size);
      if tab[i].ibdirty || tab[i].dbdirty {
        var _ := LfFlush(i);
      }
      ghost var v1 := V();
      assert OnlyFile(v, v1, f) && DirOK(v1);
      ok := Locate(i, f);
      if ok { OnlyFileTrans(v, v1, V(), f); }
    }

    method InvalidateData(i: nat, ghost f: nat)
      requires dirpresent && Between(V(), f, i)
      modifies this`tab
      ensures Between(V(), f, i) && tab == old(tab)[i := old(tab)[i].(dnum := DNULL)]
    {
      BaseFile(V(), f);
      DropData(disk, g[f], tab[i]);
      tab := tab[i := tab[i].(dnum := DNULL)];
      CacheStep(old(V()), V(), f, i);
    }

    // ----- the calls

    ghost predicate Valid()
      reads this
    {
      && Inv(V())
      && (!dirpresent ==> !dirdirty && forall i :: 0 <= i < NLFL ==> !tab[i].used)
    }

    lemma Running(i: nat)
      requires Valid() && i < NLFL && tab[i].used
      ensures dirpresent && V().dir == dir
    {
    }

    /** The byte goes into the buffer at the byte pointer; an append makes the file longer. */
    method StoreAt(i: nat, ch: Byte, ghost v: Vol)
      requires dirpresent && Inv(v) && i < NLFL && v.tab[i].used && SetUp(v, V(), v.tab[i].file, i) && Cb(v, v.tab[i].file) == v.tab[i]
      modifies this
      ensures Valid() && dirpresent && Abs(V()) == Stored(Abs(v), i, ch)
    {
      ghost var f, w := v.tab[i].file, V();
      DeviceFile(v, i);
      BaseFile(w, f);
      ghost var x, cb := w.g[f], w.tab[i];
      StoreByte(disk, x, cb, ch);
      PutByte(i, ch, f);
      StoreDone(v, w, V(), f, i, ch);
    }

    method PutByte(i: nat, ch: Byte, ghost f: nat)
      requires dirpresent && i < |tab| && tab[i].file == f < |dir.files| && f < |g|
      requires 0 <= tab[i].byte < |tab[i].dblock| && 0 <= tab[i].pos < |g[f].raw|
      modifies this`dir, this`dirdirty, this`tab, this`g
      ensures dirpresent && ByteStored(old(V()), V(), f, i, ch)
    {
      if tab[i].pos >= dir.files[tab[i].file].size {
        dir := dir.(files := dir.files[tab[i].file := dir.files[tab[i].file].(size := dir.files[tab[i].file].size + 1)]);
        dirdirty := true;
      }
      g := g[f := g[f].(raw := g[f].raw[tab[i].pos := ch], stale := false)];
      tab := tab[i := tab[i].(dblock := tab[i].dblock[tab[i].byte := ch], byte := tab[i].byte + 1,
                              pos := tab[i].pos + 1, dbdirty := true)];
    }

    method LflPutc(i: nat, ch: Byte) returns (out: Out)
      requires Valid() && i < NLFL
      modifies this
      ensures Fine(Abs(old(V()))) && out == DoPutc(Abs(old(V())), i, ch).out
      ensures out != Panic ==> Valid() && Abs(V()) == DoPutc(Abs(old(V())), i, ch).s
    {
      ghost var v := V();
      AbsFine(v);
      if !tab[i].used { return Ret(SYSERR); }
      Running(i);
      DeviceFile(v, i);
      RestFacts(v, tab[i].file);
      BaseFile(v, tab[i].file);
      if tab[i].pos > dir.files[tab[i].file].size { return Ret(SYSERR); }
      FreeCounts(v);
      FullRoom(v, i);
      if tab[i].byte >= BLKSIZ {
        var ok := LfSetup(i);
        if !ok { return Panic; }
      } else {
        AlreadySet(v, i);
      }
      StoreAt(i, ch, v);
      return Ret(OK);
    }

    /** The byte under the byte pointer is read and the cursor advances. */
    method FetchAt(i: nat, ghost v: Vol) returns (b: Byte)
      requires dirpresent && Inv(v) && i < NLFL && v.tab[i].used && v.tab[i].file < |v.dir.files|
      requires v.tab[i].pos < v.dir.files[v.tab[i].file].size && SetUp(v, V(), v.tab[i].file, i)
      modifies this`tab
      ensures Valid() && Abs(V()).devs == Abs(v).devs[i := Opened(v.tab[i].file, v.tab[i].pos + 1)]
      ensures Abs(V()) == Abs(v).(devs := Abs(V()).devs)
      ensures v.tab[i].pos < |Abs(v).files[v.tab[i].file].data| && b == Abs(v).files[v.tab[i].file].data[v.tab[i].pos]
    {
      ghost var f, w := v.tab[i].file, V();
      FetchByte(v, w, f, i);
      b := tab[i].dblock[tab[i].byte];
      tab := tab[i := tab[i].(pos := tab[i].pos + 1, byte := tab[i].byte + 1)];
      FetchDone(v, w, V(), f, i);
    }

    method LflGetc(i: nat) returns (out: Out)
      requires Valid() && i < NLFL
      modifies this
      ensures Valid() && Fine(Abs(old(V()))) && Result(Abs(V()), out) == DoGetc(Abs(old(V())), i)
    {
      ghost var v := V();
      AbsFine(v);
      if !tab[i].used { return Ret(SYSERR); }
      Running(i);
      DeviceFile(v, i);
      RestFacts(v, tab[i].file);
      BaseFile(v, tab[i].file);
      if tab[i].pos >= dir.files[tab[i].file].size { return Ret(EOF); }
      if tab[i].byte >= BLKSIZ {
        var _ := LfSetup(i);
      } else {
        AlreadySet(v, i);
      }
      var b := FetchAt(i, v);
      return Ret(b);
    }

    method LflSeek(i: nat, offset: nat) returns (out: Out)
      requires Valid() && i < NLFL
      modifies this
      ensures Valid() && Fine(Abs(old(V()))) && Result(Abs(V()), out) == DoSeek(Abs(old(V())), i, offset)
    {
      ghost var v := V();
      AbsFine(v);
      if !tab[i].used { return Ret(SYSERR); }
      Running(i);
      DeviceFile(v, i);
      ghost var f := tab[i].file;
      RestFacts(v, f);
      BaseFile(v, f);
      if offset > dir.files[tab[i].file].size { return Ret(SYSERR); }
      MoveCursor(disk, g[f], tab[i], offset, BLKSIZ);
      tab := tab[i := tab[i].(pos := offset, byte := BLKSIZ)];
      CacheStep(v, V(), f, i);
      InvStep(v, V(), f);
      AbsStep(v, V(), f, i);
      assert Abs(V()).files == Abs(v).files;
      return Ret(OK);
    }

    /** After a close the directory on disk is current and no block of the file is only in memory. */
    method LflClose(i: nat) returns (out: Out)
      requires Valid() && i < NLFL
      modifies this
      ensures Valid() && Fine(Abs(old(V()))) && Result(Abs(V()), out) == DoClose(Abs(old(V())), i)
      ensures out == Ret(OK) ==> !dirdirty && old(tab)[i].file < |g| && g[old(tab)[i].file].opener == -1
      ensures out == Ret(OK) ==> (OnDisk(V(), old(tab)[i].file) <==> OnDisk(old(V()), old(tab)[i].file) || old(dirdirty))
    {
      ghost var v, f := V(), tab[i].file;
      AbsFine(v);
      if !tab[i].used { return Ret(SYSERR); }
      Running(i);
      DeviceFile(v, i);
      RestFacts(v, f);
      WriteBack(i, f);
      ghost var w := V();
      Release(i, f);
      ClosedAbs(v, w, V(), f, i);
      return Ret(OK);
    }

    /** What is only in memory goes to the disk. */
    method WriteBack(i: nat, ghost f: nat)
      requires Valid() && dirpresent && i < NLFL && tab[i].used && tab[i].file == f < |dir.files| && g[f].opener == i
      modifies this
      ensures Inv(V()) && dirpresent && Flushed(old(V()), V(), i)
    {
      ghost var v := V();
      RestFacts(v, f);
      if dirdirty || tab[i].dbdirty || tab[i].ibdirty {
        var _ := LfFlush(i);
        assert OnlyFile(v, V(), f) && DirOK(V());
        InvStep(v, V(), f);
      }
    }

    /** The device no longer has the file. */
    method Release(i: nat, ghost f: nat)
      requires Inv(V()) && dirpresent && i < NLFL && tab[i].used && tab[i].file == f < |dir.files| && g[f].opener == i
      requires !dirdirty && !tab[i].dbdirty && !tab[i].ibdirty
      modifies this`tab, this`g
      ensures Inv(V()) && tab == old(tab)[i := old(tab)[i].(used := false)] && g == old(g)[f := old(g)[f].(opener := -1)]
    {
      ghost var w := V();
      BaseFile(w, f);
      Unloaded(disk, g[f], tab[i], g[f].(opener := -1), NoDevice());
      tab := tab[i := tab[i].(used := false)];
      g := g[f := g[f].(opener := -1)];
      DeviceStep(w, V(), f, i);
      DeviceInv(w, V(), f, i);
    }

    // ----- truncation

    /** Pushes a data block on the free list; the rest of the block is left over from the buffer. */
    method LfDbFree(n: int)
      requires dirpresent && Base(V()) && ddet != [] && n == ddet[0]
      modifies this`disk, this`dir, this`dfree, this`ddet
      ensures Base(V()) && DataFreed(old(V()), V())
      ensures forall k :: 0 <= k < PERSECT * nibs ==> GetIb(disk, k) == GetIb(old(disk), k)
    {
      AsideBlocks(V());
      var next := dir.dfree;
      dir := dir.(dfree := n);
      disk := disk[n := FreeData(next)];
      disk := disk[0 := Directory(dir)];
      dfree := dfree + [n];
      ddet := ddet[1..];
      FreedStep(old(V()), V());
    }

    /** Frees the data blocks of the k-th i-block set aside and clears its pointers. */
    method FreeEntries(b: IBlock, ghost k: nat, ghost all: Image) returns (r: IBlock)
      requires dirpresent && Base(V()) && b == Entry(all, k) && ddet == Tail(all.blocks, IBLEN * k)
      modifies this`disk, this`dir, this`dfree, this`ddet
      ensures Freeing(old(V()), V(), all.blocks, IBLEN * k + IBLEN) && r.next == b.next
    {
      r := b;
      var j := 0;
      while j < IBLEN
        invariant 0 <= j <= IBLEN && |r.dba| == IBLEN && r.next == b.next && dirpresent
        invariant forall m :: j <= m < IBLEN ==> r.dba[m] == b.dba[m]
        invariant Freeing(old(V()), V(), all.blocks, IBLEN * k + j)
      {
        FreeSlot(r.dba[j], IBLEN * k + j, all.blocks, old(V()));
        r := r.(dba := r.dba[j := DNULL]);
        j := j + 1;
      }
    }

    /** Frees one entry of an i-block, if it names a block. */
    method FreeSlot(n: int, ghost m: nat, ghost blocks: seq<int>, ghost v: Vol)
      requires dirpresent && Freeing(v, V(), blocks, m) && n == if m < |blocks| then blocks[m] else DNULL
      modifies this`disk, this`dir, this`dfree, this`ddet
      ensures Freeing(v, V(), blocks, m + 1)
    {
      AsideBlocks(V());
      if n != DNULL {
        LfDbFree(n);
      }
    }

    /** Walks the chain set aside, freeing data blocks and leading its end to the free list. */
    method FreeChain(firstib: int, top: int, ghost all: Image)
      requires dirpresent && Base(V()) && idet == all.chain != [] && ddet == all.blocks && |all.blocks| <= IBLEN * |all.chain|
      requires firstib == idet[0] && top == dir.ifree
      requires forall k :: 0 <= k < |idet| ==> GetIb(disk, idet[k]) == Entry(all, k)
      modifies this`disk, this`dir, this`dfree, this`ddet
      ensures dirpresent && Base(V()) && Relinked(V(), |idet|) && ddet == [] && dfree == old(dfree + ddet)
      ensures V() == old(V()).(disk := disk, dir := old(dir).(dfree := dir.dfree), dfree := dfree, ddet := ddet)
    {
      AsideBlocks(V());
      FreeIsListed(V());
      var nextib := firstib;
      ghost var k := 0;
      while nextib != top
        invariant dirpresent && 0 <= k <= |idet| && nextib == (if k < |idet| then idet[k] else top)
        invariant Unchained(old(V()), V(), all, k)
        decreases |idet| - k
      {
        nextib := FreeOne(nextib, top, k, all, old(V()));
        k := k + 1;
      }
      AsideBlocks(V());
      assert k == |idet|;
    }

    /** One turn of that walk. */
    method FreeOne(nextib: int, top: int, ghost k: nat, ghost all: Image, ghost v0: Vol) returns (n: int)
      requires dirpresent && Unchained(v0, V(), all, k) && k < |idet| && nextib == idet[k] && top == Top(ifree)
      modifies this`disk, this`dir, this`dfree, this`ddet
      ensures dirpresent && Unchained(v0, V(), all, k + 1) && n == if k + 1 < |idet| then idet[k + 1] else top
    {
      AsideBlocks(V());
      var iblock := LfIbGet(nextib);
      assert iblock == Entry(all, k);
      iblock := FreeEntries(iblock, k, all);
      iblock := iblock.(offset := 0);
      if iblock.next == INULL {
        iblock := iblock.(next := top);
      }
      ghost var v := V();
      AsideBlocks(v);
      LfIbPut(nextib, iblock);
      PutAside(v, V(), k, iblock);
      PutChained(v0, old(V()), v, V(), all, k, iblock);
      n := iblock.next;
    }

    /** The file becomes empty; its first i-block and the start of the free list are kept for the walk. */
    method Detach(i: nat, ghost f: nat) returns (firstib: int, top: int)
      requires dirpresent && Base(V()) && idet == [] && ddet == [] && i < NLFL && tab[i].file == f < |dir.files| && g[f].opener == i
      requires !tab[i].ibdirty && !tab[i].dbdirty && !g[f].stale
      modifies this
      ensures dirpresent && Base(V()) && SetAside(old(V()), V(), f, i) && top == dir.ifree && firstib == First(idet)
      ensures forall k :: 0 <= k < |idet| ==> GetIb(disk, idet[k]) == Entry(old(g[f]), k)
    {
      ghost var v, all := V(), g[f];
      BaseFile(v, f);
      tab := tab[i := tab[i].(pos := 0, inum := INULL, dnum := DNULL, byte := BLKSIZ)];
      top := dir.ifree;
      firstib := dir.files[tab[i].file].ilist;
      dir := dir.(files := dir.files[tab[i].file := dir.files[tab[i].file].(ilist := INULL, size := 0)]);
      dirdirty := true;
      idet, ddet := g[f].chain, g[f].blocks;
      g := g[f := g[f].(chain := [], blocks := [], raw := [])];
      AsideStep(v, V(), f, i);
      forall k | 0 <= k < |idet| ensures GetIb(disk, idet[k]) == Entry(all, k) { assert IbOn(v.disk, all, v.tab[i], k); }
    }

    /** Every block of the file goes back to its free list. */
    method LfTruncate(i: nat) returns (r: int)
      requires Valid() && i < NLFL && tab[i].used
      modifies this
      ensures Valid() && r == OK && Truncated(old(V()), V(), old(tab)[i].file)
      ensures Fine(Abs(old(V()))) && Abs(V()) == DoTruncate(Abs(old(V())), i).s
    {
      ghost var v, f := V(), tab[i].file;
      AbsFine(v);
      Running(i);
      DeviceFile(v, i);
      RestFacts(v, f);
      BaseFile(v, f);
      if dir.files[tab[i].file].size == 0 {
        EmptyTruncated(v, f, i);
        return OK;
      }
      if tab[i].ibdirty || tab[i].dbdirty {
        var _ := LfFlush(i);
      }
      ghost var v1 := V();
      BaseFile(v1, f);
      ghost var v2, v3 := GiveBack(i, f);
      TruncateDone(v, v1, v2, v3, V(), f, i);
      return OK;
    }

    /** The file becomes empty, its blocks are walked and the chain joins the free list. */
    method GiveBack(i: nat, ghost f: nat) returns (ghost v2: Vol, ghost v3: Vol)
      requires dirpresent && Base(V()) && idet == [] && ddet == [] && i < NLFL && tab[i].file == f < |dir.files| && g[f].opener == i
      requires !tab[i].ibdirty && !tab[i].dbdirty && !g[f].stale && g[f].chain != [] && |g[f].blocks| <= IBLEN * |g[f].chain|
      modifies this
      ensures dirpresent && Base(V()) && SetAside(old(V()), v2, f, i)
      ensures v3 == v2.(disk := v3.disk, dir := v2.dir.(dfree := v3.dir.dfree), dfree := v2.dfree + v2.ddet, ddet := [])
      ensures V() == v3.(dir := v3.dir.(ifree := V().dir.ifree), dirdirty := true, ifree := v3.ifree + Reversed(v3.idet), idet := [])
    {
      ghost var all := g[f];
      var firstib, top := Detach(i, f);
      v2 := V();
      FreeChain(firstib, top, all);
      v3 := V();
      Join(firstib);
    }

    method Join(firstib: int)
      requires dirpresent && Base(V()) && idet != [] && Relinked(V(), |idet|) && firstib == idet[0]
      modifies this`dir, this`dirdirty, this`ifree, this`idet
      ensures Base(V()) && dir == old(dir).(ifree := firstib) && dirdirty && idet == [] && ifree == old(ifree + Reversed(idet))
    {
      ghost var v := V();
      dir := dir.(ifree := firstib);
      dirdirty := true;
      ifree, idet := ifree + Reversed(idet), [];
      JoinStep(v, V());
    }

    /** The control call; truncation is the only function it knows. */
    method LflControl(i: nat, truncate: bool) returns (out: Out)
      requires Valid() && i < NLFL
      modifies this
      ensures Valid() && Fine(Abs(old(V())))
      ensures Result(Abs(V()), out) == if truncate then DoTruncate(Abs(old(V())), i) else Result(Abs(old(V())), Ret(SYSERR))
    {
      AbsFine(V());
      if !tab[i].used { return Ret(SYSERR); }
      if truncate {
        var r := LfTruncate(i);
        return Ret(r);
      }
      return Ret(SYSERR);
    }

    // ----- opening a file

    /** Searches the pseudo-devices: is the file open, and which device is the first free one? */
    method FindDevice(name: string) returns (open: bool, d: int)
      requires Valid()
      ensures Fine(Abs(V())) && open == IsOpen(Abs(V()), name)
      ensures !open ==> d == if FreeDev(Abs(V()).devs) == NLFL then SYSERR else FreeDev(Abs(V()).devs)
    {
      AbsFine(V());
      open, d := SearchTab(name);
      Searched(V(), name, open, d);
    }

    method SearchTab(name: string) returns (open: bool, d: int)
      requires |tab| == NLFL
      ensures open == exists j :: 0 <= j < NLFL && tab[j].used && tab[j].name == name
      ensures !open ==> FirstUnused(tab, d, NLFL)
    {
      d := SYSERR;
      var i := 0;
      while i < NLFL
        invariant 0 <= i <= NLFL && FirstUnused(tab, d, i)
        invariant forall j :: 0 <= j < i && tab[j].used ==> tab[j].name != name
      {
        if !tab[i].used {
          if d == SYSERR { d := i; }
        } else if tab[i].name == name {
          return true, d;
        }
        i := i + 1;
      }
      return false, d;
    }

    /** Searches the directory. */
    method FindFile(name: string) returns (f: nat)
      requires Valid() && dirpresent
      ensures f == Find(Abs(V()).files, name)
    {
      f := 0;
      while f < |dir.files| && dir.files[f].name != name
        invariant 0 <= f <= |dir.files| && forall j :: 0 <= j < f ==> dir.files[j].name != name
      {
        f := f + 1;
      }
      assert forall j :: 0 <= j < |dir.files| ==> Abs(V()).files[j].name == dir.files[j].name;
    }

    /** The control block of device `d` is set up for file `f`. */
    method Attach(d: nat, f: nat, name: string, ghost v: Vol)
      requires dirpresent && Inv(v) && V() == v.(dir := dir) && d < NLFL && !tab[d].used && f < |dir.files| <= NDIRENT
      requires dir == v.dir.(files := dir.files) && dir.files[f].name == name && v.g[f].opener == -1
      requires dir.files == v.dir.files || (f == |v.dir.files| && dir.files == v.dir.files + [DirEntry(0, INULL, name)])
      requires NamesDiffer(dir.files)
      modifies this`tab, this`g
      ensures Valid() && Abs(V()) == Abs(v).(files := Abs(V()).files, devs := Abs(v).devs[d := Opened(f, 0)])
      ensures Abs(V()).files == if f < |v.dir.files| then Abs(v).files else Abs(v).files + [File(name, [])]
      ensures tab[d].used && tab[d].file == f
    {
      BaseFile(v, f);
      if f < |v.dir.files| { RestFacts(v, f); }
      tab := tab[d := tab[d].(used := true, file := f, pos := 0, name := name, inum := INULL, dnum := DNULL,
                              byte := BLKSIZ, ibdirty := false, dbdirty := false)];
      g := g[f := g[f].(opener := d)];
      Unloaded(disk, v.g[f], NoDevice(), g[f], tab[d]);
      DeviceStep(v, V(), f, d);
      DeviceInv(v, V(), f, d);
      AttachedAbs(v, V(), f, d, name);
    }

    method LfsOpen(name: string, mode: Mode) returns (out: Out)
      requires Valid()
      modifies this
      ensures Valid() && Fine(Abs(old(V()))) && Result(Abs(V()), out) == DoOpen(Abs(old(V())), name, mode)
      ensures disk == old(disk) && dirdirty == old(dirdirty)
      ensures out != Ret(SYSERR) ==> 0 <= out.v < NLFL && tab[out.v].used && tab[out.v].file == Find(Abs(old(V())).files, name)
    {
      ghost var v := V();
      AbsFine(v);
      if |name| >= NAMELEN { return Ret(SYSERR); }
      if mode == BadMode { return Ret(SYSERR); }
      var open, d := FindDevice(name);
      if open || d == SYSERR { return Ret(SYSERR); }
      if !dirpresent {
        if !disk[0].Directory? { return Ret(SYSERR); }
        dir := disk[0].dir;
        dirpresent := true;
      }
      assert V() == v;
      out := OpenOn(d, name, mode, v);
    }

    /** The file is looked for in the directory, added if it may be, and opened on device `d`. */
    method OpenOn(d: nat, name: string, mode: Mode, ghost v: Vol) returns (out: Out)
      requires Valid() && dirpresent && v == V() && Fine(Abs(v)) && !IsOpen(Abs(v), name) && |name| < NAMELEN && mode != BadMode
      requires d == FreeDev(Abs(v).devs) < NLFL
      modifies this`dir, this`tab, this`g
      ensures Valid() && Result(Abs(V()), out) == DoOpen(Abs(v), name, mode)
      ensures out == Ret(SYSERR) || (out == Ret(d) && tab[d].used && tab[d].file == Find(Abs(v).files, name))
    {
      var f := FindFile(name);
      NotOpened(v, name, f);
      if f == |dir.files| {
        if mode == OldFile { return Ret(SYSERR); }
        if |dir.files| >= NDIRENT { return Ret(SYSERR); }
        BaseFile(v, f);
        dir := dir.(files := dir.files + [DirEntry(0, INULL, name)]);
      } else if mode == NewFile {
        return Ret(SYSERR);
      }
      assert Abs(v).devs[d] == DevOf(tab[d]);
      Attach(d, f, name, v);
      return Ret(d);
    }

    // ----- whole runs

    method Perform(op: Op) returns (out: Out)
      requires Valid() && DeviceExists(op)
      modifies this
      ensures Fine(Abs(old(V()))) && out == Do(Abs(old(V())), op).out
      ensures out != Panic ==> Valid() && Abs(V()) == Do(Abs(old(V())), op).s
    {
      match op
      case Open(name, mode) => out := LfsOpen(name, mode);
      case Seek(d, offset) => out := LflSeek(d, offset);
      case Putc(d, ch) => out := LflPutc(d, ch);
      case Getc(d) => out := LflGetc(d);
      case Truncate(d) => out := LflControl(d, true);
      case Close(d) => out := LflClose(d);
    }

    /** One call of a run: what the run gives is what has been given, the result of this call, and the rest. */
    method OneCall(op: Op, outs: seq<Out>, ghost s: Store, ghost ops: seq<Op>, ghost rest: seq<Op>) returns (out: Out)
      requires Valid() && DeviceExists(op) && rest != [] && rest[0] == op && Continues(s, ops, outs, Abs(V()), rest)
      modifies this
      ensures out != Panic ==> Valid() && Continues(s, ops, outs + [out], Abs(V()), rest[1..])
      ensures out == Panic ==> Gives(s, ops, outs + [out])
    {
      ghost var t := Abs(V());
      out := Perform(op);
      RunStep(s, ops, outs, out, t, rest, Do(t, op));
    }

    /**
      Any sequence of calls gives the results that byte sequences with cursors give,
      and each of them is the answer that the calls and results before it ask for.
    */
    method Execute(ops: seq<Op>) returns (outs: seq<Out>)
      requires Valid() && forall k :: 0 <= k < |ops| ==> DeviceExists(ops[k])
      modifies this
      ensures Fine(Abs(old(V()))) && outs == Run(Abs(old(V())), ops)
      ensures Panic !in outs ==> Valid() && Abs(V()) == After(Abs(old(V())), ops)
      ensures LfsHistory.Answered(Abs(old(V())), ops, outs)
    {
      ghost var s := Abs(V());
      AbsFine(V());
      NamesUnique(V());
      LfsHistory.AllFollow(s, ops);
      outs := ExecuteFrom(ops, s);
    }

    method ExecuteFrom(ops: seq<Op>, ghost s: Store) returns (outs: seq<Out>)
      requires Valid() && (forall k :: 0 <= k < |ops| ==> DeviceExists(ops[k])) && s == Abs(V())
      modifies this
      ensures Fine(s) && outs == Run(s, ops) && (Panic !in outs ==> Valid() && Abs(V()) == After(s, ops))
    {
      AbsFine(V());
      RunBegins(s, ops);
      outs := [];
      for k := 0 to |ops|
        invariant Valid() && Panic !in outs && Continues(s, ops, outs, Abs(V()), ops[k..])
      {
        assert ops[k..][1..] == ops[k + 1..];
        var out := OneCall(ops[k], outs, s, ops, ops[k..]);
        outs := outs + [out];
        if out == Panic {
          RunEnds(s, ops, outs);
          return;
        }
      }
      RunDone(s, ops, outs, Abs(V()));
    }
  }

  lemma NamesUnique(v: Vol)
    requires Inv(v)
    ensures LfsHistory.Unique(Abs(v).files)
  {
    forall f, h | 0 <= f < h < |v.dir.files| ensures Abs(v).files[f].name != Abs(v).files[h].name {
      assert v.dir.files[f].name != v.dir.files[h].name;
    }
  }

  /**
    A new file that is closed without having been written is on the disk if and only
    if the directory was waiting to be written when the file was opened.
  */
  method OpenThenClose(v: Volume, name: string, mode: Mode) returns (made: bool)
    requires v.Valid() && Find(Abs(v.V()).files, name) == |Abs(v.V()).files|
    modifies v
    ensures v.Valid() && Fine(Abs(old(v.V()))) && made == (DoOpen(Abs(old(v.V())), name, mode).out != Ret(SYSERR))
    ensures made ==> Abs(v.V()).files == Abs(old(v.V())).files + [File(name, [])]
    ensures made ==> (OnDisk(v.V(), |Abs(old(v.V())).files|) <==> old(v.dirdirty))
    ensures made && !old(v.dirdirty) ==> Lost(v.V(), name)
  {
    ghost var before := v.V();
    AbsFine(before);
    NewOpened(Abs(before), name, mode);
    var out := v.LfsOpen(name, mode);
    made := out != Ret(SYSERR);
    if made { CloseNew(v, out.v, name, before); }
  }

  /** What the store says about opening a new file and closing it. */
  lemma {:induction false} NewOpened(s: Store, name: string, mode: Mode)
    requires Fine(s) && Find(s.files, name) == |s.files|
    ensures var r := DoOpen(s, name, mode);
            r.out != Ret(SYSERR) ==>
            && r.out.Ret? && 0 <= r.out.v < NLFL && r.s.files == s.files + [File(name, [])]
            && DoClose(r.s, r.out.v) == Result(r.s.(devs := r.s.devs[r.out.v := Closed]), Ret(OK))
  {
  }

  method CloseNew(v: Volume, d: nat, name: string, ghost before: Vol)
    requires v.Valid() && Inv(before) && v.disk == before.disk && v.dirdirty == before.dirdirty && d < NLFL
    requires Fine(Abs(v.V())) && DoClose(Abs(v.V()), d) == Result(Abs(v.V()).(devs := Abs(v.V()).devs[d := Closed]), Ret(OK))
    requires Abs(v.V()).files == Abs(before).files + [File(name, [])] && v.tab[d].file == |Abs(before).files|
    modifies v
    ensures v.Valid() && Abs(v.V()).files == Abs(before).files + [File(name, [])]
    ensures OnDisk(v.V(), |Abs(before).files|) <==> before.dirdirty
    ensures !before.dirdirty ==> Lost(v.V(), name)
  {
    if !before.dirdirty { NotOnDisk(before); }
    var _ := v.LflClose(d);
    if !before.dirdirty { MissingIsLost(v.V(), name); }
  }

  /** From `s` the calls `ops` give `outs` and then what `rest` gives from `t`. */
  ghost predicate Continues(s: Store, ops: seq<Op>, outs: seq<Out>, t: Store, rest: seq<Op>) {
    forall w :: Unfold(Goals, w) ==>
      Fine(s) && Fine(t) && Run(s, ops) == outs + Run(t, rest) && After(s, ops) == After(t, rest)
  }

  /** From `s` the calls `ops` give `outs`, where the system stops. */
  ghost predicate Gives(s: Store, ops: seq<Op>, outs: seq<Out>) {
    forall w :: Unfold(Goals, w) ==> Fine(s) && Run(s, ops) == outs
  }

  lemma RunBegins(s: Store, ops: seq<Op>)
    requires Fine(s)
    ensures Continues(s, ops, [], s, ops[0..])
  {
    assert ops[0..] == ops;
  }

  lemma {:induction false} RunEnds(s: Store, ops: seq<Op>, outs: seq<Out>)
    requires Gives(s, ops, outs)
    ensures Fine(s) && outs == Run(s, ops)
  {
    assert Unfold(Goals, true);
  }

  lemma {:induction false} RunDone(s: Store, ops: seq<Op>, outs: seq<Out>, t: Store)
    requires Continues(s, ops, outs, t, ops[|ops|..])
    ensures Fine(s) && outs == Run(s, ops) && t == After(s, ops)
  {
    assert Unfold(Goals, true);
  }

  lemma {:induction false} RunOne(t: Store, rest: seq<Op>, r: Result)
    requires Fine(t) && rest != [] && r == Do(t, rest[0])
    ensures Fine(r.s) && After(t, rest) == After(r.s, rest[1..])
    ensures Run(t, rest) == [r.out] + if r.out == Panic then [] else Run(r.s, rest[1..])
  {
  }

  lemma {:induction false} RunStep(s: Store, ops: seq<Op>, outs: seq<Out>, out: Out, t: Store, rest: seq<Op>, r: Result)
    requires Fine(t) && rest != [] && Continues(s, ops, outs, t, rest) && r == Do(t, rest[0]) && out == r.out
    ensures out == Panic ==> Gives(s, ops, outs + [out])
    ensures out != Panic ==> Continues(s, ops, outs + [out], r.s, rest[1..])
  {
    assert Unfold(Goals, true);
    RunOne(t, rest, r);
    var more := if out == Panic then [] else Run(r.s, rest[1..]);
    assert outs + ([out] + more) == outs + [out] + more;
  }

  /** Which of the first `n` control blocks is the first that is not in use. */
  predicate FirstUnused(tab: seq<Control>, d: int, n: int) {
    if d == SYSERR then forall j :: 0 <= j < n && j < |tab| ==> tab[j].used
    else 0 <= d < n && d < |tab| && !tab[d].used && forall j :: 0 <= j < d ==> tab[j].used
  }

  lemma Searched(v: Vol, name: string, open: bool, d: int)
    requires Inv(v) && Fine(Abs(v)) && open == exists j :: 0 <= j < NLFL && v.tab[j].used && v.tab[j].name == name
    requires !open ==> FirstUnused(v.tab, d, NLFL)
    ensures open == IsOpen(Abs(v), name)
    ensures !open ==> d == if FreeDev(Abs(v).devs) == NLFL then SYSERR else FreeDev(Abs(v).devs)
  {
    var s := Abs(v);
    forall j | 0 <= j < NLFL && v.tab[j].used
      ensures s.devs[j].Opened? && s.files[s.devs[j].file].name == v.tab[j].name
    {
      DeviceFile(v, j);
    }
    forall j | 0 <= j < NLFL ensures s.devs[j].Opened? == v.tab[j].used { assert s.devs[j] == DevOf(v.tab[j]); }
    FirstFree(v.tab, s.devs, d);
  }

  lemma {:induction false} FirstFree(tab: seq<Control>, devs: seq<Device>, d: int)
    requires |tab| == |devs| == NLFL && forall j :: 0 <= j < NLFL ==> devs[j].Opened? == tab[j].used
    ensures FirstUnused(tab, d, NLFL) ==> d == if FreeDev(devs) == NLFL then SYSERR else FreeDev(devs)
  {
  }

  predicate DeviceExists(op: Op) {
    op.Open? || op.dev < NLFL
  }

  /** No block is needed for the position of device `i`, or it can be had. */
  ghost predicate Room(v: Vol, i: nat) {
    && i < |v.tab| && v.tab[i].file < |v.dir.files|
    && var size := v.dir.files[v.tab[i].file].size;
       v.tab[i].pos < size || ((size % IDATA != 0 || v.ifree != []) && (size % BLKSIZ != 0 || v.dfree != []))
  }

  /** The file has a block for its position, and the byte pointer is set to it. */
  ghost predicate SetUp(v: Vol, w: Vol, f: nat, i: nat) {
    (&& OnlyFile(v, w, f) && i < |v.tab| && f < |v.dir.files| && Base(w) && DirOK(w)
     && var p := v.tab[i].pos;
        && w.tab[i].pos == p && p >= 0 && w.tab[i].byte == p % BLKSIZ && w.dir.files[f].size == v.dir.files[f].size
        && w.g[f].raw == (if p < |v.g[f].raw| then v.g[f].raw else v.g[f].raw + Filled())
        && |w.g[f].blocks| == (if p / BLKSIZ < |v.g[f].blocks| then |v.g[f].blocks| else p / BLKSIZ + 1)
        && |w.g[f].chain| == (if p / IDATA < |v.g[f].chain| then |v.g[f].chain| else p / IDATA + 1)
        && (p < |v.g[f].raw| ==> !w.g[f].stale)) == true
  }

  /** The byte pointer is set; at the end of the file there is one more block. */
  ghost predicate Loaded(v: Vol, w: Vol, f: nat, i: nat) {
    (&& OnlyFile(v, w, f) && i < |v.tab| && f < |v.dir.files| && Base(w) && |v.disk| == |w.disk| > 0
     && w.tab[i].pos == v.tab[i].pos && w.tab[i].byte == v.tab[i].pos % BLKSIZ && w.dir.files[f] == v.dir.files[f]
     && w.g[f].chain == v.g[f].chain && w.ifree == v.ifree
     && if v.tab[i].pos < |v.g[f].raw|
        then (&& w.g[f].raw == v.g[f].raw && w.g[f].blocks == v.g[f].blocks && !w.g[f].stale && w.dfree == v.dfree
              && w.dir == v.dir && w.dirdirty == v.dirdirty && w.disk[0] == v.disk[0])
        else (&& w.g[f].raw == v.g[f].raw + Filled() && |w.g[f].blocks| == |v.g[f].blocks| + 1 && v.dfree != []
              && !w.dirdirty && w.disk[0] == Directory(w.dir))) == true
  }

  /** The position lies inside the blocks or just behind them, where the chain is full. */
  ghost predicate Placed(x: Image, pos: int) {
    && 0 <= pos <= |x.raw| && (x.chain == [] ==> pos == 0) && |x.blocks| <= IBLEN * |x.chain| < |x.blocks| + IBLEN
    && (pos == IDATA * |x.chain| ==> |x.blocks| == IBLEN * |x.chain|)
  }

  /** Where the position of a file at rest can be, and what it needs. */
  lemma RestPlaced(x: Image, cb: Control, size: int)
    requires AtRest(x, cb, size) && 0 <= cb.pos && |x.raw| == BLKSIZ * |x.blocks|
    ensures Placed(x, cb.pos) && size <= |x.raw|
    ensures cb.pos / IDATA < |x.chain| <==> !(cb.pos == size && size % IDATA == 0)
    ensures cb.pos < |x.raw| <==> !(cb.pos == size && size % BLKSIZ == 0)
  {
  }

  lemma LocateDone(u: Vol, v: Vol, w: Vol, f: nat, i: nat)
    requires DirOK(u) && f < |u.g| && i < |u.tab| && Placed(u.g[f], u.tab[i].pos) && |u.g[f].raw| == BLKSIZ * |u.g[f].blocks|
    requires Walked(u, v, f, i) && Loaded(v, w, f, i) && v.g[f].at == v.tab[i].pos / IDATA
    requires if u.tab[i].pos / IDATA < |u.g[f].chain| then v.g[f].chain == u.g[f].chain
             else |v.g[f].chain| == |u.g[f].chain| + 1 == u.tab[i].pos / IDATA + 1
    ensures SetUp(u, w, f, i)
  {
    OnlyFileTrans(u, v, w, f);
  }

  ghost predicate Flushed(v: Vol, w: Vol, i: int) {
    && 0 <= i < |v.tab| && |v.disk| == |w.disk| > 0
    && w == v.(disk := w.disk, dirdirty := false, tab := v.tab[i := v.tab[i].(ibdirty := false, dbdirty := false)])
    && w.disk[0] == (if v.dirdirty then Directory(v.dir) else v.disk[0])
  }

  /** The store with a byte put at the position of device `i`. */
  function Stored(s: Store, i: nat, ch: Byte): Store
    requires i < |s.devs| && s.devs[i].Opened? && s.devs[i].file < |s.files|
  {
    var f, p := s.devs[i].file, s.devs[i].pos;
    var data := s.files[f].data;
    s.(files := s.files[f := s.files[f].(data := if p < |data| then data[p := ch] else data + [ch])],
       devs := s.devs[i := Opened(f, p + 1)])
  }

  /** A call finds room exactly where the store is not full. */
  lemma FullRoom(v: Vol, i: nat)
    requires Inv(v) && i < NLFL && v.tab[i].used
    ensures var s := Abs(v);
            && Fine(s) && s.devs[i].Opened? && s.devs[i].file == v.tab[i].file && s.devs[i].pos == v.tab[i].pos
            && Room(v, i) == !(s.devs[i].pos == |s.files[s.devs[i].file].data| && Full(s, s.files[s.devs[i].file].data))
  {
    AbsFine(v);
    DeviceFile(v, i);
    RestFacts(v, v.tab[i].file);
    BaseFile(v, v.tab[i].file);
    FreeCounts(v);
  }

  /** With a valid byte pointer the position has its block already. */
  lemma AlreadySet(v: Vol, i: nat)
    requires Inv(v) && i < NLFL && v.tab[i].used && v.tab[i].byte < BLKSIZ
    ensures SetUp(v, v, v.tab[i].file, i) && Room(v, i)
  {
    DeviceFile(v, i);
    RestFacts(v, v.tab[i].file);
    BaseFile(v, v.tab[i].file);
    CachedByte(v.disk, v.g[v.tab[i].file], v.tab[i]);
    RestPlaced(v.g[v.tab[i].file], v.tab[i], v.dir.files[v.tab[i].file].size);
  }

  /** From a set-up file `w` to the state with the byte in the buffer. */
  ghost predicate ByteStored(w: Vol, u: Vol, f: nat, i: nat, ch: Byte) {
    && i < |w.tab| && f < |w.g| && f < |w.dir.files|
    && 0 <= w.tab[i].byte < |w.tab[i].dblock| && 0 <= w.tab[i].pos < |w.g[f].raw|
    && var cb, x, e := w.tab[i], w.g[f], w.dir.files[f];
       var grow := cb.pos >= e.size;
       u == w.(tab := w.tab[i := cb.(dblock := cb.dblock[cb.byte := ch], byte := cb.byte + 1, pos := cb.pos + 1, dbdirty := true)],
               g := w.g[f := x.(raw := x.raw[cb.pos := ch], stale := false)],
               dirdirty := grow || w.dirdirty,
               dir := if grow then w.dir.(files := w.dir.files[f := e.(size := e.size + 1)]) else w.dir)
  }

  lemma StoreMid(w: Vol, u: Vol, f: nat, i: nat, ch: Byte)
    requires Base(w) && f < |w.dir.files| && i < NLFL && w.g[f].opener == i && w.tab[i].used
    requires ByteStored(w, u, f, i, ch) && w.tab[i].byte < BLKSIZ
    ensures Base(u) && OnlyFile(w, u, f) && Cb(u, f) == u.tab[i]
  {
    BaseFile(w, f);
    StoreByte(w.disk, w.g[f], w.tab[i], ch);
    StoreBase(w, u, f, i);
  }

  lemma StoreInv(v: Vol, w: Vol, u: Vol, f: nat, i: nat, ch: Byte)
    requires Inv(v) && i < NLFL && v.tab[i].used && v.tab[i].file == f && SetUp(v, w, f, i) && ByteStored(w, u, f, i, ch)
    ensures Inv(u) && OnlyFile(v, u, f) && u.g[f].raw == w.g[f].raw[v.tab[i].pos := ch] && u.tab[i].pos == v.tab[i].pos + 1
  {
    assert Unfold(Goals, true);
    DeviceFile(v, i);
    RestFacts(v, f);
    StoreMid(w, u, f, i, ch);
    OnlyFileTrans(v, w, u, f);
    StoreRest(v.g[f], v.tab[i], v.dir.files[f].size, u.g[f], u.tab[i]);
    InvStep(v, u, f);
  }

  lemma StoreDone(v: Vol, w: Vol, u: Vol, f: nat, i: nat, ch: Byte)
    requires Inv(v) && i < NLFL && v.tab[i].used && v.tab[i].file == f && SetUp(v, w, f, i) && ByteStored(w, u, f, i, ch)
    ensures Inv(u) && f < |Abs(v).files| && i < |Abs(v).devs| && Abs(v).devs[i] == Opened(f, v.tab[i].pos)
    ensures Abs(u) == Stored(Abs(v), i, ch)
  {
    StoreInv(v, w, u, f, i, ch);
    DeviceFile(v, i);
    RestFacts(v, f);
    assert v.g[f].raw <= w.g[f].raw;
    StoredAbs(v, u, w.g[f].raw, f, i, ch);
  }

  lemma StoredAbs(v: Vol, u: Vol, raw: seq<Byte>, f: nat, i: nat, ch: Byte)
    requires Inv(v) && OnlyFile(v, u, f) && f < |v.dir.files| && i < NLFL && v.g[f].opener == i && v.tab[i].used && v.tab[i].file == f
    requires v.g[f].raw <= raw && 0 <= v.tab[i].pos <= v.dir.files[f].size && v.tab[i].pos < |raw|
    requires u.g[f].raw == raw[v.tab[i].pos := ch] && u.tab[i].pos == v.tab[i].pos + 1
    requires u.dir.files[f].size == if v.tab[i].pos >= v.dir.files[f].size then v.dir.files[f].size + 1 else v.dir.files[f].size
    ensures f < |Abs(v).files| && i < |Abs(v).devs| && Abs(v).devs[i] == Opened(f, v.tab[i].pos)
    ensures Abs(u) == Stored(Abs(v), i, ch)
  {
    RestFacts(v, f);
    AbsStep(v, u, f, i);
    StoredContent(v.g[f].raw, raw, v.dir.files[f].size, v.tab[i].pos, ch);
  }

  /** A file at rest is at rest again with the block for one more byte. */
  lemma StoreRest(x: Image, cb: Control, size: int, x': Image, cb': Control)
    requires AtRest(x, cb, size) && 0 <= cb.pos && cb'.pos == cb.pos + 1 && !x'.stale
    requires |x'.blocks| == (if cb.pos / BLKSIZ < |x.blocks| then |x.blocks| else cb.pos / BLKSIZ + 1)
    requires |x'.chain| == (if cb.pos / IDATA < |x.chain| then |x.chain| else cb.pos / IDATA + 1)
    ensures AtRest(x', cb', if cb.pos >= size then size + 1 else size)
  {
  }

  /** Storing a byte in the buffer changes one byte of the file or adds one. */
  lemma StoredContent(raw: seq<Byte>, raw': seq<Byte>, size: int, p: int, ch: Byte)
    requires 0 <= p <= size <= |raw| && p < |raw'| && raw <= raw'
    ensures var size' := if p >= size then size + 1 else size;
            size' <= |raw'| && raw'[p := ch][..size'] == if p < size then raw[..size][p := ch] else raw[..size] + [ch]
  {
  }

  lemma StoreBase(w: Vol, u: Vol, f: nat, i: nat)
    requires Base(w) && f < |w.dir.files| && i < NLFL && w.g[f].opener == i && w.tab[i].used
    requires |u.tab| == NLFL && |u.g| == NDIRENT && |u.dir.files| == |w.dir.files|
    requires u == w.(tab := w.tab[i := u.tab[i]], g := w.g[f := u.g[f]], dirdirty := u.dirdirty, dir := u.dir)
    requires u.tab[i].used && u.tab[i].file == w.tab[i].file && u.tab[i].name == w.tab[i].name
    requires u.g[f].chain == w.g[f].chain && u.g[f].blocks == w.g[f].blocks && u.g[f].opener == i
    requires u.dir == w.dir.(files := w.dir.files[f := w.dir.files[f].(size := u.dir.files[f].size)])
    requires FileOn(u.disk, u.g[f], u.tab[i])
    ensures Base(u)
  {
    ListsSame(w, u);
    BaseOwned(w);
    BaseFree(w);
    BaseFile(w, f);
    FileStep(w, u, f);
  }

  /** The byte under the pointer is the byte of the file at the position. */
  lemma FetchByte(v: Vol, w: Vol, f: nat, i: nat)
    requires Inv(v) && i < NLFL && v.tab[i].used && v.tab[i].file == f < |v.dir.files|
    requires v.tab[i].pos < v.dir.files[f].size && SetUp(v, w, f, i)
    ensures 0 <= w.tab[i].byte < |w.tab[i].dblock| && v.tab[i].pos < |Abs(v).files[f].data|
    ensures w.tab[i].dblock[w.tab[i].byte] == Abs(v).files[f].data[v.tab[i].pos]
  {
    DeviceFile(v, i);
    RestFacts(v, f);
    BaseFile(w, f);
    CachedByte(w.disk, w.g[f], w.tab[i]);
  }

  lemma FetchMid(w: Vol, u: Vol, f: nat, i: nat)
    requires Base(w) && f < |w.dir.files| && i < NLFL && w.g[f].opener == i && w.tab[i].byte < BLKSIZ
    requires u == w.(tab := w.tab[i := w.tab[i].(pos := w.tab[i].pos + 1, byte := w.tab[i].byte + 1)])
    ensures Base(u) && OnlyFile(w, u, f) && Cb(u, f) == u.tab[i]
  {
    BaseFile(w, f);
    MoveCursor(w.disk, w.g[f], w.tab[i], w.tab[i].pos + 1, w.tab[i].byte + 1);
    CacheStep(w, u, f, i);
  }

  lemma FetchInv(v: Vol, w: Vol, u: Vol, f: nat, i: nat)
    requires Inv(v) && i < NLFL && v.tab[i].used && v.tab[i].file == f < |v.dir.files|
    requires 0 <= v.tab[i].pos < v.dir.files[f].size && SetUp(v, w, f, i)
    requires u == w.(tab := w.tab[i := w.tab[i].(pos := w.tab[i].pos + 1, byte := w.tab[i].byte + 1)])
    ensures Inv(u) && OnlyFile(v, u, f)
  {
    DeviceFile(v, i);
    RestFacts(v, f);
    RestPlaced(v.g[f], v.tab[i], v.dir.files[f].size) by { BaseFile(v, f); }
    FetchMid(w, u, f, i);
    OnlyFileTrans(v, w, u, f);
    FetchRest(v.g[f], v.tab[i], v.dir.files[f].size, u.g[f], u.tab[i]);
    InvStep(v, u, f);
  }

  lemma FetchDone(v: Vol, w: Vol, u: Vol, f: nat, i: nat)
    requires Inv(v) && i < NLFL && v.tab[i].used && v.tab[i].file == f < |v.dir.files|
    requires 0 <= v.tab[i].pos < v.dir.files[f].size && SetUp(v, w, f, i)
    requires u == w.(tab := w.tab[i := w.tab[i].(pos := w.tab[i].pos + 1, byte := w.tab[i].byte + 1)])
    ensures Inv(u) && Abs(u) == Abs(v).(devs := Abs(v).devs[i := Opened(f, v.tab[i].pos + 1)])
  {
    FetchInv(v, w, u, f, i);
    DeviceFile(v, i);
    RestFacts(v, f);
    AbsStep(v, u, f, i);
    assert Abs(u).files == Abs(v).files;
  }

  lemma FetchRest(x: Image, cb: Control, size: int, x': Image, cb': Control)
    requires AtRest(x, cb, size) && 0 <= cb.pos < size && cb'.pos == cb.pos + 1 && !x'.stale
    requires |x'.blocks| == (if cb.pos / BLKSIZ < |x.blocks| then |x.blocks| else cb.pos / BLKSIZ + 1)
    requires |x'.chain| == (if cb.pos / IDATA < |x.chain| then |x.chain| else cb.pos / IDATA + 1)
    ensures AtRest(x', cb', size)
  {
  }

  lemma ClosedAbs(v: Vol, w: Vol, u: Vol, f: nat, i: nat)
    requires |v.g| == |w.g| == |u.g| == NDIRENT && |v.dir.files| <= NDIRENT && |w.tab| == |v.tab| == |u.tab| && i < |v.tab| && f < NDIRENT
    requires w.dir == v.dir && w.nibs == v.nibs && w.nsec == v.nsec && w.g == v.g
    requires forall j :: 0 <= j < |v.tab| ==> DevOf(w.tab[j]) == DevOf(v.tab[j])
    requires u == w.(tab := w.tab[i := w.tab[i].(used := false)], g := w.g[f := w.g[f].(opener := -1)])
    ensures Abs(u) == Abs(v).(devs := Abs(v).devs[i := Closed])
  {
    assert Abs(u).files == Abs(v).files;
    assert Abs(u).devs == Abs(v).devs[i := Closed];
  }

  function Tail(s: seq<int>, n: nat): seq<int> { if n <= |s| then s[n..] else [] }

  /** File `f` has no blocks, and each free list has got exactly the blocks that the file had. */
  ghost predicate Truncated(v: Vol, w: Vol, f: nat) {
    && f < |v.g| && f < |w.g| && w.g[f].chain == [] && w.g[f].blocks == []
    && w.dfree == v.dfree + v.g[f].blocks && w.ifree == v.ifree + Reversed(v.g[f].chain)
    && forall h :: 0 <= h < |v.g| && h < |w.g| && h != f ==> w.g[h] == v.g[h]
  }

  lemma EmptyTruncated(v: Vol, f: nat, i: nat)
    requires Inv(v) && i < NLFL && v.tab[i].used && v.tab[i].file == f < |v.dir.files| && v.dir.files[f].size == 0
    ensures Truncated(v, v, f) && Fine(Abs(v)) && Abs(v) == DoTruncate(Abs(v), i).s
  {
    AbsFine(v);
    RestFacts(v, f);
    DeviceFile(v, i);
    BaseFile(v, f);
    assert Reversed([]) == [];
    assert v.ifree + Reversed(v.g[f].chain) == v.ifree && v.dfree + v.g[f].blocks == v.dfree;
    assert Abs(v).files[f].data == [] && Abs(v).devs[i] == Opened(f, 0);
    assert Abs(v).files[f := Abs(v).files[f].(data := [])] == Abs(v).files;
  }

  lemma TruncateDone(v: Vol, v1: Vol, v2: Vol, v3: Vol, w: Vol, f: nat, i: nat)
    requires Inv(v) && i < NLFL && v.tab[i].used && v.tab[i].file == f < |v.dir.files| && v.g[f].opener == i
    requires v1 == v.(disk := v1.disk, dirdirty := v1.dirdirty, tab := v.tab[i := v.tab[i].(ibdirty := false, dbdirty := false)])
    requires SetAside(v1, v2, f, i)
    requires v3 == v2.(disk := v3.disk, dir := v2.dir.(dfree := v3.dir.dfree), dfree := v2.dfree + v2.ddet, ddet := [])
    requires w == v3.(dir := v3.dir.(ifree := w.dir.ifree), dirdirty := true, ifree := v3.ifree + Reversed(v3.idet), idet := [])
    requires Base(w)
    ensures Inv(w) && Truncated(v, w, f) && Fine(Abs(v)) && Abs(w) == DoTruncate(Abs(v), i).s
  {
    RestFacts(v, f);
    AbsFine(v);
    assert OnlyFile(v, w, f);
    InvStep(v, w, f);
    AbsStep(v, w, f, i);
    DeviceFile(v, i);
    BaseFile(v, f);
  }

  lemma AttachedAbs(v: Vol, w: Vol, f: nat, d: nat, name: string)
    requires Inv(v) && f < NDIRENT && d < NLFL && f < |w.dir.files| <= NDIRENT && w.dir.files[f].name == name
    requires |w.tab| == NLFL && w == v.(dir := w.dir, tab := v.tab[d := w.tab[d]], g := v.g[f := v.g[f].(opener := d)])
    requires w.dir.files == v.dir.files || (f == |v.dir.files| && w.dir.files == v.dir.files + [DirEntry(0, INULL, name)])
    requires DevOf(w.tab[d]) == Opened(f, 0)
    ensures Abs(w) == Abs(v).(files := Abs(w).files, devs := Abs(v).devs[d := Opened(f, 0)])
    ensures Abs(w).files == if f < |v.dir.files| then Abs(v).files else Abs(v).files + [File(name, [])]
  {
    assert Abs(w).devs == Abs(v).devs[d := Opened(f, 0)];
  }

  lemma OpenerOpens(v: Vol, f: nat)
    requires Inv(v) && Fine(Abs(v)) && f < |v.dir.files| && v.g[f].opener != -1
    ensures IsOpen(Abs(v), v.dir.files[f].name)
  {
    BaseFile(v, f);
    var o := v.g[f].opener;
    assert Abs(v).devs[o].Opened? && Abs(v).files[Abs(v).devs[o].file].name == v.dir.files[f].name;
  }

  /** A file whose name is not open on any device has no opener. */
  lemma {:induction false} NotOpened(v: Vol, name: string, f: nat)
    requires Inv(v) && Fine(Abs(v)) && !IsOpen(Abs(v), name) && f <= |v.dir.files| && f == Find(Abs(v).files, name)
    ensures f < |v.dir.files| ==> v.dir.files[f].name == name && v.g[f].opener == -1
    ensures f == |v.dir.files| ==> NamesDiffer(v.dir.files + [DirEntry(0, INULL, name)])
  {
    if f < |v.dir.files| {
      if v.g[f].opener != -1 { OpenerOpens(v, f); }
    } else {
      assert forall j :: 0 <= j < |v.dir.files| ==> Abs(v).files[j].name == v.dir.files[j].name;
    }
  }
}
