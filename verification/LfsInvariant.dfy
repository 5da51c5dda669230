/** The invariant of a mounted file system: disk, directory, free lists and cached blocks together. */
module LfsInvariant {
  import opened Common
  import opened Lists
  import opened LfsBlocks
  import opened Ownership
  import opened LfsSpec

  /**
    All of the state. `g` says what each file stands for; `ifree` and `dfree` are
    the free lists, first block last; `idet` and `ddet` hold blocks that are on their
    way from a file to a free list.
  */
  datatype Vol = Vol(
    disk: Disk, dir: Dir, dirdirty: bool, tab: seq<Control>,
    g: seq<Image>, ifree: seq<int>, dfree: seq<int>, idet: seq<int>, ddet: seq<int>, nibs: nat, nsec: nat)

  ghost predicate Shape(v: Vol) {
    && |v.g| == NDIRENT && |v.tab| == NLFL && |v.dir.files| <= NDIRENT && v.nibs + 1 <= v.nsec <= |v.disk|
    && v.disk[0].Directory? && forall s :: 1 <= s <= v.nibs ==> IndexSector(v.disk[s])
  }

  const NLISTS := NDIRENT + 2
  const DET := NDIRENT + 1

  /** The owners of i-blocks: the free list, one list per directory entry, and the blocks on their way. */
  function ILists(v: Vol): Owners
    requires |v.g| == NDIRENT
  {
    seq(NLISTS, k requires 0 <= k < NLISTS => if k == 0 then v.ifree else if k == DET then v.idet else v.g[k - 1].chain)
  }

  function DLists(v: Vol): Owners
    requires |v.g| == NDIRENT
  {
    seq(NLISTS, k requires 0 <= k < NLISTS => if k == 0 then v.dfree else if k == DET then v.ddet else v.g[k - 1].blocks)
  }

  function NoDevice(): Control {
    Control(false, 0, "", 0, INULL, ClearBlock(0), DNULL, [], BLKSIZ, false, false)
  }

  /** The control block of the device that has file `f` open. */
  function Cb(v: Vol, f: int): Control
    requires 0 <= f < |v.g|
  {
    if 0 <= v.g[f].opener < |v.tab| then v.tab[v.g[f].opener] else NoDevice()
  }

  ghost predicate FreeIbOn(d: Disk, s: seq<int>, k: int)
    requires 0 <= k < |s|
  {
    GetIb(d, s[k]).next == if k == 0 then INULL else s[k - 1]
  }

  ghost predicate FreeDbOn(d: Disk, s: seq<int>, k: int)
    requires 0 <= k < |s|
  {
    At(d, s[k]) == FreeData(if k == 0 then DNULL else s[k - 1])
  }

  ghost predicate FreeLists(v: Vol) {
    && v.dir.ifree == Top(v.ifree) && (forall k :: 0 <= k < |v.ifree| ==> FreeIbOn(v.disk, v.ifree, k))
    && v.dir.dfree == Top(v.dfree) && (forall k :: 0 <= k < |v.dfree| ==> FreeDbOn(v.disk, v.dfree, k))
  }

  /** The directory entry of a file is the same on disk, or missing there if the file was never written. */
  ghost predicate Current(v: Vol, f: int)
    requires 0 <= f < |v.dir.files|
  {
    && |v.disk| > 0 && v.disk[0].Directory?
    && if f < |v.disk[0].dir.files| then v.disk[0].dir.files[f] == v.dir.files[f] else v.dir.files[f].size == 0
  }

  ghost predicate EntryOK(v: Vol, f: int)
    requires 0 <= f < |v.g|
  {
    if f < |v.dir.files| then v.dir.files[f].ilist == First(v.g[f].chain) && (v.g[f].opener == -1 ==> Current(v, f))
    else v.g[f].chain == [] && v.g[f].blocks == [] && v.g[f].opener == -1
  }

  ghost predicate DeviceOK(v: Vol, i: int)
    requires 0 <= i < |v.tab|
  {
    v.tab[i].used ==>
      (&& v.tab[i].file < |v.dir.files| && v.tab[i].file < |v.g| && v.g[v.tab[i].file].opener == i
       && v.tab[i].name == v.dir.files[v.tab[i].file].name)
  }

  ghost predicate OpenerOK(v: Vol, f: int)
    requires 0 <= f < |v.g|
  {
    v.g[f].opener != -1 ==> 0 <= v.g[f].opener < |v.tab| && v.tab[v.g[f].opener].used && v.tab[v.g[f].opener].file == f
  }

  ghost predicate Files(v: Vol)
    requires |v.g| == NDIRENT
  {
    && (forall f :: 0 <= f < NDIRENT ==> FileOn(v.disk, v.g[f], Cb(v, f)) && EntryOK(v, f) && OpenerOK(v, f))
    && (forall i :: 0 <= i < |v.tab| ==> DeviceOK(v, i))
  }

  /** What every step keeps, also in the middle of a call. */
  ghost predicate Base(v: Vol) {
    (&& Shape(v)
     && forall w :: Unfold(Volume, w) ==>
          && Owned(ILists(v), 0, PERSECT * v.nibs) && Owned(DLists(v), v.nibs + 1, v.nsec)
          && FreeLists(v) && Files(v)) == true
  }

  /** A file between two calls: it has the blocks that its size needs, and no others. */
  ghost predicate AtRest(x: Image, cb: Control, size: int) {
    && 0 <= size && |x.blocks| == Blocks(size, ByData) && |x.chain| == Blocks(size, ByIndex) && !x.stale && cb.pos <= size
  }

  /** The directory on disk is current, but may lack files that have never been written. */
  ghost predicate Agrees(d: Dir, m: Dir) {
    && d.dfree == m.dfree && d.ifree == m.ifree && |d.files| <= |m.files|
    && (forall f :: 0 <= f < |d.files| ==> d.files[f] == m.files[f])
    && (forall f :: |d.files| <= f < |m.files| ==> m.files[f].size == 0)
  }

  ghost predicate NamesDiffer(files: seq<DirEntry>) {
    forall f, h :: 0 <= f < h < |files| ==> files[f].name != files[h].name
  }

  /** Between two calls. */
  ghost predicate Inv(v: Vol) {
    (&& Base(v) && v.idet == [] && v.ddet == [] && NamesDiffer(v.dir.files)
     && (!v.dirdirty ==> Agrees(v.disk[0].dir, v.dir))
     && forall f :: 0 <= f < |v.dir.files| ==> AtRest(v.g[f], Cb(v, f), v.dir.files[f].size)) == true
  }

  lemma BaseOwned(v: Vol)
    requires Base(v)
    ensures Owned(ILists(v), 0, PERSECT * v.nibs) && Owned(DLists(v), v.nibs + 1, v.nsec)
  {
    assert Unfold(Volume, true);
  }

  lemma BaseFree(v: Vol)
    requires Base(v)
    ensures FreeLists(v)
  {
    assert Unfold(Volume, true);
  }

  lemma BaseFile(v: Vol, f: nat)
    requires Base(v) && f < NDIRENT
    ensures FileOn(v.disk, v.g[f], Cb(v, f)) && EntryOK(v, f) && OpenerOK(v, f)
  {
    assert Unfold(Volume, true);
  }

  // ----- one file changes, the rest does not

  /** The disk holds the same i-blocks on all lists but list `a` and the blocks on their way. */
  ghost predicate IbsSame(d: Disk, e: Disk, ls: Owners, a: int) {
    forall k, i :: 0 <= k < |ls| && k != a && k != DET && 0 <= i < |ls[k]| ==> GetIb(e, ls[k][i]) == GetIb(d, ls[k][i])
  }

  ghost predicate DbsSame(d: Disk, e: Disk, ls: Owners, a: int) {
    forall k, i :: 0 <= k < |ls| && k != a && k != DET && 0 <= i < |ls[k]| ==> At(e, ls[k][i]) == At(d, ls[k][i])
  }

  /** Writing an i-block of owner `a` changes no other owner's i-block. */
  lemma IbsAfterPut(d: Disk, e: Disk, b: IBlock, ls: Owners, hi: int, a: nat, k: nat)
    requires Owned(ls, 0, hi) && a < |ls| && k < |ls[a]|
    requires 0 <= Ib2Sect(ls[a][k]) < |d| && IndexSector(d[Ib2Sect(ls[a][k])]) && e == PutIb(d, ls[a][k], b)
    ensures IbsSame(d, e, ls, a)
  {
    InArea(ls, 0, hi, a, k);
    forall l, i | 0 <= l < |ls| && l != a && l != DET && 0 <= i < |ls[l]| ensures GetIb(e, ls[l][i]) == GetIb(d, ls[l][i]) {
      Apart(ls, 0, hi, l, i, a, k);
      PutIbGet(d, ls[a][k], b, ls[l][i]);
    }
  }

  /** A write outside the index area changes no i-block. */
  lemma IbsAfterWrite(d: Disk, e: Disk, ls: Owners, nibs: nat, a: int)
    requires Owned(ls, 0, PERSECT * nibs) && forall n :: 1 <= n <= nibs ==> At(e, n) == At(d, n)
    ensures IbsSame(d, e, ls, a)
  {
    forall l, i | 0 <= l < |ls| && l != a && l != DET && 0 <= i < |ls[l]| ensures GetIb(e, ls[l][i]) == GetIb(d, ls[l][i]) {
      InArea(ls, 0, PERSECT * nibs, l, i);
    }
  }

  /** A write that stays outside the data area, or in the block at `a`, `y`, changes no other owner's data block. */
  lemma DbsAfterWrite(d: Disk, e: Disk, ls: Owners, lo: int, hi: int, a: int, y: int)
    requires Owned(ls, lo, hi)
    requires forall n :: lo <= n < hi && (0 <= a < |ls| && 0 <= y < |ls[a]| ==> n != ls[a][y]) ==> At(e, n) == At(d, n)
    ensures DbsSame(d, e, ls, a)
  {
    forall l, i | 0 <= l < |ls| && l != a && l != DET && 0 <= i < |ls[l]| ensures At(e, ls[l][i]) == At(d, ls[l][i]) {
      InArea(ls, lo, hi, l, i);
      if 0 <= a < |ls| && 0 <= y < |ls[a]| { Apart(ls, lo, hi, l, i, a, y); }
    }
  }

  /** Nothing changes in what belongs to files other than `f`. */
  ghost predicate Outside(v: Vol, w: Vol, f: int) {
    (&& 0 <= f < |v.g| == |w.g| == NDIRENT && |w.tab| == |v.tab| && w.nibs == v.nibs && w.nsec == v.nsec
     && w.g[f].opener == v.g[f].opener && |w.dir.files| == |v.dir.files|
     && (f < |v.dir.files| ==> w.dir.files[f].name == v.dir.files[f].name)
     && forall u :: Unfold(Goals, u) ==>
          && (forall h :: 0 <= h < NDIRENT && h != f ==> w.g[h] == v.g[h])
          && (forall i :: 0 <= i < |v.tab| && i != v.g[f].opener ==> w.tab[i] == v.tab[i])
          && (forall i :: 0 <= i < |v.tab| ==>
                w.tab[i].used == v.tab[i].used && w.tab[i].file == v.tab[i].file && w.tab[i].name == v.tab[i].name)
          && (forall h :: 0 <= h < |v.dir.files| && h != f ==> w.dir.files[h] == v.dir.files[h])) == true
  }

  /** The directory sector is as before, or newly written with the entries of all files but `f` as they are. */
  ghost predicate DirKept(v: Vol, w: Vol, f: int) {
    && |v.disk| > 0 && |w.disk| > 0
    && (|| w.disk[0] == v.disk[0]
        || (&& w.disk[0].Directory? && |w.disk[0].dir.files| == |w.dir.files|
            && forall h :: 0 <= h < |w.dir.files| && h != f ==> w.disk[0].dir.files[h] == w.dir.files[h]))
  }

  ghost predicate OnlyFile(v: Vol, w: Vol, f: int) {
    Outside(v, w, f) && w.idet == v.idet && w.ddet == v.ddet
  }

  lemma FreeListsKept(v: Vol, w: Vol, f: nat)
    requires Base(v) && Shape(w) && Outside(v, w, f)
    requires w.ifree <= v.ifree && w.dir.ifree == Top(w.ifree) && w.dfree <= v.dfree && w.dir.dfree == Top(w.dfree)
    requires IbsSame(v.disk, w.disk, ILists(w), f + 1) && DbsSame(v.disk, w.disk, DLists(w), f + 1)
    ensures FreeLists(w)
  {
    BaseFree(v);
    forall k | 0 <= k < |w.ifree| ensures FreeIbOn(w.disk, w.ifree, k) {
      assert FreeIbOn(v.disk, v.ifree, k);
      assert ILists(w)[0][k] == v.ifree[k];
    }
    forall k | 0 <= k < |w.dfree| ensures FreeDbOn(w.disk, w.dfree, k) {
      assert FreeDbOn(v.disk, v.dfree, k);
      assert DLists(w)[0][k] == v.dfree[k];
    }
  }

  /** The other files have the same blocks on disk. */
  lemma OtherFile(v: Vol, w: Vol, f: nat, h: nat)
    requires Base(v) && Shape(w) && Outside(v, w, f) && h < NDIRENT && h != f && Cb(w, h) == Cb(v, h)
    requires IbsSame(v.disk, w.disk, ILists(w), f + 1) && DbsSame(v.disk, w.disk, DLists(w), f + 1)
    ensures FileOn(w.disk, w.g[h], Cb(w, h))
  {
    assert w.g[h] == v.g[h] by { assert Unfold(Goals, true); }
    BaseFile(v, h);
    forall k | 0 <= k < |v.g[h].chain| ensures GetIb(w.disk, v.g[h].chain[k]) == GetIb(v.disk, v.g[h].chain[k]) {
      assert ILists(w)[h + 1][k] == v.g[h].chain[k];
    }
    forall y | 0 <= y < |v.g[h].blocks| ensures At(w.disk, v.g[h].blocks[y]) == At(v.disk, v.g[h].blocks[y]) {
      assert DLists(w)[h + 1][y] == v.g[h].blocks[y];
    }
    FileFrame(v.disk, w.disk, v.g[h], Cb(v, h));
  }

  lemma OtherEntry(v: Vol, w: Vol, f: nat, h: nat)
    requires Base(v) && Shape(w) && Outside(v, w, f) && DirKept(v, w, f) && f < NDIRENT && h < NDIRENT && h != f
    ensures EntryOK(w, h) && OpenerOK(w, h) && Cb(w, h) == Cb(v, h)
  {
    assert Unfold(Goals, true);
    BaseFile(v, h);
    BaseFile(v, f);
  }

  lemma FilesKept(v: Vol, w: Vol, f: nat)
    requires Base(v) && Shape(w) && Outside(v, w, f) && DirKept(v, w, f)
    requires FileOn(w.disk, w.g[f], Cb(w, f)) && EntryOK(w, f)
    requires IbsSame(v.disk, w.disk, ILists(w), f + 1) && DbsSame(v.disk, w.disk, DLists(w), f + 1)
    ensures Files(w)
  {
    forall h | 0 <= h < NDIRENT ensures FileOn(w.disk, w.g[h], Cb(w, h)) && EntryOK(w, h) && OpenerOK(w, h) {
      if h != f {
        OtherEntry(v, w, f, h);
        OtherFile(v, w, f, h);
      } else {
        OwnOpener(v, w, f);
      }
    }
    DevicesKept(v, w, f);
  }

  lemma OwnOpener(v: Vol, w: Vol, f: nat)
    requires Base(v) && Shape(w) && Outside(v, w, f) && f < NDIRENT
    ensures OpenerOK(w, f)
  {
    assert Unfold(Goals, true);
    BaseFile(v, f);
  }

  lemma DevicesKept(v: Vol, w: Vol, f: nat)
    requires Base(v) && Shape(w) && Outside(v, w, f)
    ensures forall i :: 0 <= i < |w.tab| ==> DeviceOK(w, i)
  {
    assert Unfold(Goals, true);
    assert Unfold(Volume, true);
    forall i | 0 <= i < |w.tab| ensures DeviceOK(w, i) { assert DeviceOK(v, i); }
  }

  lemma FileStep(v: Vol, w: Vol, f: nat)
    requires Base(v) && Shape(w) && Outside(v, w, f) && DirKept(v, w, f)
    requires Owned(ILists(w), 0, PERSECT * w.nibs) && Owned(DLists(w), w.nibs + 1, w.nsec)
    requires w.ifree <= v.ifree && w.dir.ifree == Top(w.ifree) && w.dfree <= v.dfree && w.dir.dfree == Top(w.dfree)
    requires FileOn(w.disk, w.g[f], Cb(w, f)) && EntryOK(w, f)
    requires IbsSame(v.disk, w.disk, ILists(w), f + 1) && DbsSame(v.disk, w.disk, DLists(w), f + 1)
    ensures Base(w)
  {
    FreeListsKept(v, w, f);
    FilesKept(v, w, f);
  }

  // ----- where blocks are

  /** The blocks of a file are different blocks of the right areas. */
  lemma FileBlocks(v: Vol, f: nat)
    requires Base(v) && f < NDIRENT
    ensures Distinct(v.g[f].chain) && Distinct(v.g[f].blocks)
    ensures forall k :: 0 <= k < |v.g[f].chain| ==> IndexPlace(v, v.g[f].chain[k])
    ensures forall y :: 0 <= y < |v.g[f].blocks| ==> v.nibs < v.g[f].blocks[y] < v.nsec
    ensures FileOn(v.disk, v.g[f], Cb(v, f)) && EntryOK(v, f) && OpenerOK(v, f)
  {
    BaseFile(v, f);
    FileIndexBlocks(v, f);
    FileDataBlocks(v, f);
  }

  lemma FileIndexBlocks(v: Vol, f: nat)
    requires Base(v) && f < NDIRENT
    ensures Distinct(v.g[f].chain) && forall k :: 0 <= k < |v.g[f].chain| ==> IndexPlace(v, v.g[f].chain[k])
  {
    BaseOwned(v);
    var ls := ILists(v);
    assert ls[f + 1] == v.g[f].chain;
    forall k | 0 <= k < |v.g[f].chain| ensures IndexPlace(v, v.g[f].chain[k]) { InArea(ls, 0, PERSECT * v.nibs, f + 1, k); }
    ListDistinct(ls, 0, PERSECT * v.nibs, f + 1);
  }

  lemma FileDataBlocks(v: Vol, f: nat)
    requires Base(v) && f < NDIRENT
    ensures Distinct(v.g[f].blocks) && forall y :: 0 <= y < |v.g[f].blocks| ==> v.nibs < v.g[f].blocks[y] < v.nsec
  {
    BaseOwned(v);
    var ls := DLists(v);
    assert ls[f + 1] == v.g[f].blocks;
    forall y | 0 <= y < |v.g[f].blocks| ensures v.nibs < v.g[f].blocks[y] < v.nsec { InArea(ls, v.nibs + 1, v.nsec, f + 1, y); }
    ListDistinct(ls, v.nibs + 1, v.nsec, f + 1);
  }

  ghost predicate IndexPlace(v: Vol, n: int) {
    0 <= n < PERSECT * v.nibs && 1 <= Ib2Sect(n) <= v.nibs
  }

  /** The file that device `i` has open. */
  lemma DeviceFile(v: Vol, i: nat)
    requires Base(v) && i < NLFL && v.tab[i].used
    ensures var f := v.tab[i].file;
            f < |v.dir.files| && v.g[f].opener == i && Cb(v, f) == v.tab[i] && v.tab[i].name == v.dir.files[f].name
  {
    assert Unfold(Volume, true);
    assert DeviceOK(v, i);
  }

  lemma ListsSame(v: Vol, w: Vol)
    requires |v.g| == |w.g| == NDIRENT && w.ifree == v.ifree && w.dfree == v.dfree && w.idet == v.idet && w.ddet == v.ddet
    requires forall f :: 0 <= f < NDIRENT ==> w.g[f].chain == v.g[f].chain && w.g[f].blocks == v.g[f].blocks
    ensures ILists(w) == ILists(v) && DLists(w) == DLists(v)
  {
  }

  /** The directory sector holds none of the blocks. */
  lemma DirSector(v: Vol, d: Dir, e: Disk)
    requires Base(v) && e == v.disk[0 := Directory(d)]
    ensures IbsSame(v.disk, e, ILists(v), -1) && DbsSame(v.disk, e, DLists(v), -1)
  {
    BaseOwned(v);
    IbsAfterWrite(v.disk, e, ILists(v), v.nibs, -1);
    DbsAfterWrite(v.disk, e, DLists(v), v.nibs + 1, v.nsec, -1, 0);
  }

  lemma DirStep(v: Vol, w: Vol, d: Dir)
    requires Base(v) && w == v.(disk := v.disk[0 := Directory(d)], dirdirty := w.dirdirty) && d.files == v.dir.files
    ensures Base(w)
  {
    BaseOwned(v);
    BaseFree(v);
    DirSector(v, d, w.disk);
    FileBlocks(v, 0);
    ListsSame(v, w);
    FileFrame(v.disk, w.disk, v.g[0], Cb(v, 0));
    FileStep(v, w, 0);
  }

  /** Only the caches of file `f` change. */
  lemma CacheStep(v: Vol, w: Vol, f: nat, i: nat)
    requires Base(v) && f < NDIRENT && i < NLFL && v.g[f].opener == i
    requires |w.tab| == |v.tab| && |w.g| == |v.g| && w == v.(tab := v.tab[i := w.tab[i]], g := v.g[f := w.g[f]])
    requires w.tab[i].used == v.tab[i].used && w.tab[i].file == v.tab[i].file && w.tab[i].name == v.tab[i].name
    requires w.g[f].chain == v.g[f].chain && w.g[f].blocks == v.g[f].blocks && w.g[f].opener == i
    requires FileOn(w.disk, w.g[f], w.tab[i])
    ensures Base(w)
  {
    BaseOwned(v);
    BaseFree(v);
    BaseFile(v, f);
    ListsSame(v, w);
    assert EntryOK(v, f);
    FileStep(v, w, f);
  }

  /** Only a data block of file `f` is written. */
  lemma DataSector(v: Vol, f: nat, y: nat, s: Sector, e: Disk)
    requires Base(v) && f < NDIRENT && y < |v.g[f].blocks|
    requires 0 <= v.g[f].blocks[y] < |v.disk| && e == v.disk[v.g[f].blocks[y] := s]
    ensures IbsSame(v.disk, e, ILists(v), f + 1) && DbsSame(v.disk, e, DLists(v), f + 1)
  {
    BaseOwned(v);
    assert DLists(v)[f + 1][y] == v.g[f].blocks[y];
    InArea(DLists(v), v.nibs + 1, v.nsec, f + 1, y);
    IbsAfterWrite(v.disk, e, ILists(v), v.nibs, f + 1);
    DbsAfterWrite(v.disk, e, DLists(v), v.nibs + 1, v.nsec, f + 1, y);
  }

  lemma DataStep(v: Vol, w: Vol, f: nat, i: nat)
    requires Base(v) && f < NDIRENT && i < NLFL && v.g[f].opener == i && !v.g[f].stale
    requires v.tab[i].dnum != DNULL && 0 <= v.tab[i].dnum < |v.disk|
    requires w == v.(disk := v.disk[v.tab[i].dnum := Data(v.tab[i].dblock)], tab := v.tab[i := v.tab[i].(dbdirty := false)])
    ensures Base(w)
  {
    FileBlocks(v, f);
    var x, cb := v.g[f], v.tab[i];
    FlushData(v.disk, x, cb);
    assert x.(stale := false) == x;
    DataSector(v, f, x.slot, Data(cb.dblock), w.disk);
    ListsSame(v, w);
    BaseOwned(v);
    BaseFree(v);
    FileStep(v, w, f);
  }

  /** Only an i-block of file `f` is written. */
  lemma IndexBlock(v: Vol, f: nat, k: nat, b: IBlock, e: Disk)
    requires Base(v) && f < NDIRENT && k < |v.g[f].chain| && IndexPlace(v, v.g[f].chain[k])
    requires e == PutIb(v.disk, v.g[f].chain[k], b)
    ensures IbsSame(v.disk, e, ILists(v), f + 1) && DbsSame(v.disk, e, DLists(v), f + 1)
  {
    BaseOwned(v);
    assert ILists(v)[f + 1][k] == v.g[f].chain[k];
    IbsAfterPut(v.disk, e, b, ILists(v), PERSECT * v.nibs, f + 1, k);
    DbsAfterWrite(v.disk, e, DLists(v), v.nibs + 1, v.nsec, f + 1, -1);
  }

  lemma IndexStep(v: Vol, w: Vol, f: nat, i: nat)
    requires Base(v) && f < NDIRENT && i < NLFL && v.g[f].opener == i
    requires v.tab[i].inum != INULL && IndexPlace(v, v.tab[i].inum)
    requires w == v.(disk := PutIb(v.disk, v.tab[i].inum, v.tab[i].iblock), tab := v.tab[i := v.tab[i].(ibdirty := false)])
    ensures Base(w)
  {
    FileBlocks(v, f);
    var x, cb := v.g[f], v.tab[i];
    FlushIndex(v.disk, x, cb);
    IndexBlock(v, f, x.at, cb.iblock, w.disk);
    ListsSame(v, w);
    BaseOwned(v);
    BaseFree(v);
    FileStep(v, w, f);
  }

  // ----- allocation

  function Popped(s: seq<int>): seq<int> { if s == [] then [] else s[..|s| - 1] }

  /** A free list is empty exactly when the directory says so, and else starts with a proper block. */
  lemma FreeIsListed(v: Vol)
    requires Base(v)
    ensures v.dir.ifree == Top(v.ifree) && v.dir.dfree == Top(v.dfree)
    ensures v.dir.ifree == INULL <==> v.ifree == []
    ensures v.dir.dfree == DNULL <==> v.dfree == []
    ensures v.ifree != [] ==> IndexPlace(v, v.dir.ifree) && GetIb(v.disk, v.dir.ifree).next == Top(Popped(v.ifree))
    ensures v.dfree != [] ==> v.nibs < v.dir.dfree < v.nsec && v.disk[v.dir.dfree] == FreeData(Top(Popped(v.dfree)))
  {
    BaseFree(v);
    BaseOwned(v);
    if v.ifree != [] {
      InArea(ILists(v), 0, PERSECT * v.nibs, 0, |v.ifree| - 1);
      assert FreeIbOn(v.disk, v.ifree, |v.ifree| - 1);
    }
    if v.dfree != [] {
      InArea(DLists(v), v.nibs + 1, v.nsec, 0, |v.dfree| - 1);
      assert FreeDbOn(v.disk, v.dfree, |v.dfree| - 1);
    }
  }

  /** The first free i-block becomes the last one of a file. */
  lemma TakeIndex(v: Vol, w: Vol, f: nat)
    requires Base(v) && f < NDIRENT && v.ifree != []
    requires |w.g| == NDIRENT && w.g[f].chain == v.g[f].chain + [Top(v.ifree)] && w.ifree == Popped(v.ifree) && w.idet == v.idet
    requires forall h :: 0 <= h < NDIRENT && h != f ==> w.g[h] == v.g[h]
    ensures Owned(ILists(w), 0, PERSECT * v.nibs) && Top(v.ifree) !in v.g[f].chain && IndexPlace(v, Top(v.ifree))
  {
    BaseOwned(v);
    var ls, ms := ILists(v), ILists(w);
    assert ms[f + 1] == w.g[f].chain && ls[f + 1] == v.g[f].chain;
    forall k | 0 < k < NLISTS && k != f + 1 ensures ms[k] == ls[k] {}
    TopMoved(ls, ms, f + 1, 0, PERSECT * v.nibs);
  }

  lemma TakeData(v: Vol, w: Vol, f: nat)
    requires Base(v) && f < NDIRENT && v.dfree != []
    requires |w.g| == NDIRENT && w.g[f].blocks == v.g[f].blocks + [Top(v.dfree)] && w.dfree == Popped(v.dfree) && w.ddet == v.ddet
    requires forall h :: 0 <= h < NDIRENT && h != f ==> w.g[h] == v.g[h]
    ensures Owned(DLists(w), v.nibs + 1, v.nsec) && v.nibs < Top(v.dfree) < v.nsec
  {
    BaseOwned(v);
    var ls, ms := DLists(v), DLists(w);
    assert ms[f + 1] == w.g[f].blocks && ls[f + 1] == v.g[f].blocks;
    forall k | 0 < k < NLISTS && k != f + 1 ensures ms[k] == ls[k] {}
    TopMoved(ls, ms, f + 1, v.nibs + 1, v.nsec);
  }

  /** The state after the first free i-block was put at the end of file `f`. */
  ghost predicate ChainGrown(v: Vol, w: Vol, f: int, i: int) {
    && 0 <= f < |v.g| && 0 <= i < |v.tab| && v.ifree != [] && f < |v.dir.files|
    && var n, x, cb := Top(v.ifree), v.g[f], v.tab[i];
       var dir := v.dir.(ifree := Top(Popped(v.ifree)));
       && w.disk == (if x.chain == [] then v.disk
                     else if 0 <= Ib2Sect(cb.inum) < |v.disk| && IndexSector(v.disk[Ib2Sect(cb.inum)])
                     then PutIb(v.disk, cb.inum, cb.iblock.(next := n)) else v.disk)
       && w == v.(disk := w.disk, ifree := Popped(v.ifree),
                  dir := if x.chain == [] then dir.(files := dir.files[f := dir.files[f].(ilist := n)]) else dir,
                  tab := v.tab[i := cb.(inum := n, iblock := ClearBlock(IDATA * |x.chain|), ibdirty := true)],
                  g := v.g[f := x.(chain := x.chain + [n], at := |x.chain|)])
  }

  ghost predicate MayGrow(v: Vol, f: int, i: int) {
    && 0 <= f < NDIRENT && 0 <= i < NLFL && Base(v) && v.g[f].opener == i && !v.tab[i].ibdirty
    && |v.g[f].blocks| == IBLEN * |v.g[f].chain|
    && if v.g[f].chain == [] then v.tab[i].inum == INULL else v.tab[i].inum != INULL && v.g[f].at == |v.g[f].chain| - 1
  }

  lemma ChainFile(v: Vol, w: Vol, f: nat, i: nat)
    requires MayGrow(v, f, i) && ChainGrown(v, w, f, i)
    ensures FileOn(w.disk, w.g[f], w.tab[i]) && Owned(ILists(w), 0, PERSECT * v.nibs)
  {
    FileBlocks(v, f);
    TakeIndex(v, w, f);
    ExtendChain(v.disk, v.g[f], v.tab[i], Top(v.ifree), w.disk);
  }

  lemma ChainSame(v: Vol, w: Vol, f: nat, i: nat)
    requires MayGrow(v, f, i) && ChainGrown(v, w, f, i)
    ensures DLists(w) == DLists(v)
    ensures IbsSame(v.disk, w.disk, ILists(w), f + 1) && DbsSame(v.disk, w.disk, DLists(w), f + 1)
  {
    FileBlocks(v, f);
    var x, cb := v.g[f], v.tab[i];
    if x.chain != [] {
      IndexBlock(v, f, x.at, cb.iblock.(next := Top(v.ifree)), w.disk);
    }
    assert DLists(w) == DLists(v);
    forall k, j | 0 <= k < NLISTS && k != f + 1 && k != DET && 0 <= j < |ILists(w)[k]|
      ensures GetIb(w.disk, ILists(w)[k][j]) == GetIb(v.disk, ILists(w)[k][j])
    {
      assert ILists(w)[k][j] == ILists(v)[k][j];
    }
  }

  /** Nothing but the file and the free list of i-blocks has changed. */
  lemma ChainFrame(v: Vol, w: Vol, f: nat, i: nat)
    requires MayGrow(v, f, i) && ChainGrown(v, w, f, i)
    ensures Shape(w) && Outside(v, w, f) && DirKept(v, w, f) && EntryOK(w, f) && Cb(w, f) == w.tab[i]
    ensures w.nibs == v.nibs && w.nsec == v.nsec
    ensures w.ifree <= v.ifree && w.dir.ifree == Top(w.ifree) && w.dfree <= v.dfree && w.dir.dfree == Top(w.dfree)
  {
    BaseFree(v);
    BaseFile(v, f);
  }

  lemma ChainStep(v: Vol, w: Vol, f: nat, i: nat)
    requires MayGrow(v, f, i) && ChainGrown(v, w, f, i)
    ensures Base(w)
  {
    ChainFile(v, w, f, i);
    ChainSame(v, w, f, i);
    ChainFrame(v, w, f, i);
    BaseOwned(v);
    FileStep(v, w, f);
  }

  function Filled(): seq<Byte> { seq(BLKSIZ, j => DFILL) }

  /** The state after the first free data block was put at the end of file `f`. */
  ghost predicate BlocksGrown(v: Vol, w: Vol, f: int, i: int) {
    && 0 <= f < |v.g| && 0 <= i < |v.tab| && v.dfree != []
    && var n, x, cb := Top(v.dfree), v.g[f], v.tab[i];
       var j := |x.blocks| - IBLEN * x.at;
       && 0 <= j < IBLEN
       && w == v.(dir := v.dir.(dfree := Top(Popped(v.dfree))), dfree := Popped(v.dfree),
                  tab := v.tab[i := cb.(iblock := cb.iblock.(dba := cb.iblock.dba[j := n]), ibdirty := true,
                                        dnum := n, dblock := Filled())],
                  g := v.g[f := x.(blocks := x.blocks + [n], raw := x.raw + Filled(), slot := |x.blocks|, stale := true)])
  }

  lemma BlocksStep(v: Vol, w: Vol, f: nat, i: nat)
    requires Base(v) && f < NDIRENT && i < NLFL && v.g[f].opener == i && BlocksGrown(v, w, f, i)
    requires !v.tab[i].dbdirty && !v.g[f].stale && v.tab[i].byte == BLKSIZ
    requires v.tab[i].inum != INULL && v.g[f].at == |v.g[f].chain| - 1
    ensures Base(w)
  {
    TakeData(v, w, f);
    BaseFile(v, f);
    ExtendBlocks(v.disk, v.g[f], v.tab[i], Top(v.dfree), Filled());
    assert ILists(w) == ILists(v);
    BaseOwned(v);
    BaseFree(v);
    FileStep(v, w, f);
  }

  // ----- what the state stands for

  ghost predicate DirOK(v: Vol) {
    |v.disk| > 0 && v.disk[0].Directory? && (!v.dirdirty ==> Agrees(v.disk[0].dir, v.dir))
  }

  lemma OnlyFileTrans(u: Vol, v: Vol, w: Vol, f: int)
    requires OnlyFile(u, v, f) && OnlyFile(v, w, f)
    ensures OnlyFile(u, w, f)
  {
  }

  /** A step on one file that leaves it at rest keeps the invariant. */
  lemma InvStep(v: Vol, w: Vol, f: nat)
    requires Inv(v) && OnlyFile(v, w, f) && Base(w) && f < |v.dir.files| && DirOK(w)
    requires AtRest(w.g[f], Cb(w, f), w.dir.files[f].size)
    ensures Inv(w)
  {
    assert Unfold(Goals, true);
    forall h | 0 <= h < |w.dir.files| ensures AtRest(w.g[h], Cb(w, h), w.dir.files[h].size) {
      BaseFile(v, h);
      BaseFile(v, f);
      if h != f { assert AtRest(v.g[h], Cb(v, h), v.dir.files[h].size) && Cb(w, h) == Cb(v, h); }
    }
  }

  function Content(x: Image, size: int): seq<Byte> {
    if 0 <= size <= |x.raw| then x.raw[..size] else []
  }

  function Abs(v: Vol): (s: Store)
    requires |v.g| == NDIRENT && |v.dir.files| <= NDIRENT
  {
    Store(seq(|v.dir.files|, f requires 0 <= f < |v.dir.files| => File(v.dir.files[f].name, Content(v.g[f], v.dir.files[f].size))),
          seq(|v.tab|, i requires 0 <= i < |v.tab| => DevOf(v.tab[i])),
          PERSECT * v.nibs, if v.nsec > v.nibs then v.nsec - v.nibs - 1 else 0)
  }

  function DevOf(cb: Control): Device {
    if cb.used then Opened(cb.file, if cb.pos >= 0 then cb.pos else 0) else Closed
  }

  lemma BlocksCover(n: nat)
    ensures n <= BLKSIZ * Blocks(n, ByData) < n + BLKSIZ
  {
  }

  lemma RestFacts(v: Vol, f: nat)
    requires Inv(v) && f < |v.dir.files|
    ensures AtRest(v.g[f], Cb(v, f), v.dir.files[f].size) && v.dir.files[f].size <= |v.g[f].raw|
    ensures |Abs(v).files[f].data| == v.dir.files[f].size && Abs(v).files[f].data == v.g[f].raw[..v.dir.files[f].size]
  {
    BaseFile(v, f);
    assert AtRest(v.g[f], Cb(v, f), v.dir.files[f].size);
    BlocksCover(v.dir.files[f].size);
  }

  lemma AbsFine(v: Vol)
    requires Inv(v)
    ensures Fine(Abs(v))
  {
    forall i | 0 <= i < NLFL && v.tab[i].used
      ensures v.tab[i].file < |v.dir.files| && 0 <= v.tab[i].pos <= |Abs(v).files[v.tab[i].file].data|
    {
      DeviceFile(v, i);
      RestFacts(v, v.tab[i].file);
      BaseFile(v, v.tab[i].file);
    }
    forall i, j | 0 <= i < j < NLFL && v.tab[i].used && v.tab[j].used ensures v.tab[i].file != v.tab[j].file {
      DeviceFile(v, i);
      DeviceFile(v, j);
    }
  }

  lemma AbsStep(v: Vol, w: Vol, f: nat, i: nat)
    requires Inv(v) && OnlyFile(v, w, f) && f < |v.dir.files| && i < NLFL && v.g[f].opener == i && v.tab[i].used && v.tab[i].file == f
    requires w.tab[i].pos >= 0
    ensures var s := Abs(v);
            Abs(w) == s.(files := s.files[f := File(s.files[f].name, Content(w.g[f], w.dir.files[f].size))],
                         devs := s.devs[i := Opened(f, w.tab[i].pos)])
  {
    assert Unfold(Goals, true);
    var s := Abs(v);
    assert Abs(w).files == s.files[f := File(s.files[f].name, Content(w.g[f], w.dir.files[f].size))];
    assert Abs(w).devs == s.devs[i := Opened(f, w.tab[i].pos)];
  }

  // ----- counting blocks

  lemma {:induction false} TotalPrefix(ls: Owners, n: nat)
    requires n < |ls|
    ensures Total(ls[..n + 1]) == Total(ls[..n]) + |ls[n]|
  {
    if n > 0 {
      assert ls[..n + 1][1..] == ls[1..][..n] && ls[..n][1..] == ls[1..][..n - 1];
      TotalPrefix(ls[1..], n - 1);
    } else {
      assert ls[..1][1..] == [];
    }
  }

  /** List `k` has the blocks that file `k - 1` takes. */
  ghost predicate ListPerFile(ls: Owners, files: seq<File>, u: Unit) {
    && |ls| == NLISTS
    && forall k :: 1 <= k <= NDIRENT ==> |ls[k]| == if k - 1 < |files| then Blocks(|files[k - 1].data|, u) else 0
  }

  lemma {:induction false} TotalInUse(ls: Owners, files: seq<File>, u: Unit, n: nat)
    requires ListPerFile(ls, files, u) && n <= NDIRENT
    ensures Total(ls[..n + 1]) == |ls[0]| + InUse(if n <= |files| then files[..n] else files, u)
  {
    TotalPrefix(ls, n);
    if n > 0 {
      TotalInUse(ls, files, u, n - 1);
      if n <= |files| {
        assert files[..n][..n - 1] == files[..n - 1];
      } else {
        assert files[..|files|] == files;
      }
    }
  }

  lemma {:induction false} TotalAll(ls: Owners, files: seq<File>, u: Unit)
    requires ListPerFile(ls, files, u) && |files| <= NDIRENT && ls[DET] == []
    ensures Total(ls) == |ls[0]| + InUse(files, u)
  {
    TotalInUse(ls, files, u, NDIRENT);
    TotalPrefix(ls, DET);
    assert ls[..NLISTS] == ls && files[..|files|] == files;
  }

  lemma ListsPerFile(v: Vol)
    requires Inv(v)
    ensures ListPerFile(ILists(v), Abs(v).files, ByIndex) && ListPerFile(DLists(v), Abs(v).files, ByData)
  {
    forall f | 0 <= f < |v.dir.files|
      ensures |v.g[f].chain| == Blocks(|Abs(v).files[f].data|, ByIndex)
      ensures |v.g[f].blocks| == Blocks(|Abs(v).files[f].data|, ByData)
    {
      RestFacts(v, f);
    }
    forall f | |v.dir.files| <= f < NDIRENT ensures v.g[f].chain == [] && v.g[f].blocks == [] { BaseFile(v, f); }
  }

  /** The free lists hold what the files do not use. */
  lemma FreeCounts(v: Vol)
    requires Inv(v)
    ensures |v.ifree| + InUse(Abs(v).files, ByIndex) == PERSECT * v.nibs
    ensures |v.dfree| + InUse(Abs(v).files, ByData) == v.nsec - v.nibs - 1
  {
    BaseOwned(v);
    ListsPerFile(v);
    TotalAll(ILists(v), Abs(v).files, ByIndex);
    TotalAll(DLists(v), Abs(v).files, ByData);
  }

  // ----- opening and closing

  /** A clean file needs no control block. */
  lemma Unloaded(d: Disk, x: Image, cb: Control, y: Image, cc: Control)
    requires FileOn(d, x, cb) && !cb.ibdirty && !cb.dbdirty && !x.stale && !y.stale
    requires y.chain == x.chain && y.blocks == x.blocks && y.raw == x.raw
    requires cc.inum == INULL && cc.dnum == DNULL && cc.byte == BLKSIZ && cc.pos >= 0 && !cc.ibdirty && !cc.dbdirty
    ensures FileOn(d, y, cc)
  {
    forall k | 0 <= k < |x.chain| ensures IbOn(d, y, cc, k) {
      assert IbOn(d, x, cb, k);
      assert Entry(y, k) == Entry(x, k);
    }
    forall k | 0 <= k < |x.blocks| ensures DbOn(d, y, cc, k) { assert DbOn(d, x, cb, k); }
  }

  /** Device `i` takes or gives up file `f`, which may be new in the directory. */
  ghost predicate Handed(v: Vol, w: Vol, f: nat, i: nat) {
    && f < |v.g| == |w.g| == NDIRENT && i < |v.tab| == |w.tab| == NLFL
    && w == v.(dir := w.dir, tab := v.tab[i := w.tab[i]], g := v.g[f := w.g[f]])
    && w.g[f].chain == v.g[f].chain && w.g[f].blocks == v.g[f].blocks
    && w.dir == v.dir.(files := w.dir.files) && v.dir.files <= w.dir.files && |w.dir.files| <= NDIRENT
    && (|w.dir.files| == |v.dir.files| || |w.dir.files| == |v.dir.files| + 1 == f + 1)
    && (v.g[f].opener == -1 || v.g[f].opener == i)
    && (v.tab[i].used ==> v.tab[i].file == f)
    && (w.tab[i].used ==> w.tab[i].file == f && f < |w.dir.files| && w.tab[i].name == w.dir.files[f].name)
    && w.g[f].opener == if w.tab[i].used then i else -1
  }

  lemma DeviceStep(v: Vol, w: Vol, f: nat, i: nat)
    requires Base(v) && Handed(v, w, f, i) && FileOn(w.disk, w.g[f], Cb(w, f)) && EntryOK(w, f)
    ensures Base(w)
  {
    ListsSame(v, w);
    BaseOwned(v);
    BaseFree(v);
    DeviceFiles(v, w, f, i);
  }

  lemma DeviceFiles(v: Vol, w: Vol, f: nat, i: nat)
    requires Base(v) && Handed(v, w, f, i) && FileOn(w.disk, w.g[f], Cb(w, f)) && EntryOK(w, f)
    ensures Files(w)
  {
    assert Unfold(Volume, true);
    forall h | 0 <= h < NDIRENT ensures FileOn(w.disk, w.g[h], Cb(w, h)) && EntryOK(w, h) && OpenerOK(w, h) {
      assert FileOn(v.disk, v.g[h], Cb(v, h)) && EntryOK(v, h) && OpenerOK(v, h);
      if h != f { assert Cb(w, h) == Cb(v, h) by { OthersDevice(v, f, i, h); } }
    }
    forall j | 0 <= j < NLFL ensures DeviceOK(w, j) {
      assert DeviceOK(v, j);
      if j != i && v.tab[j].used { assert v.tab[j].file != f; }
    }
  }

  /** No other file is open on the device. */
  lemma OthersDevice(v: Vol, f: nat, i: nat, h: nat)
    requires Base(v) && i < NLFL && h < NDIRENT && h != f && (v.tab[i].used ==> v.tab[i].file == f)
    ensures v.g[h].opener != i
  {
    BaseFile(v, h);
  }

  /** The same with every file at rest. */
  lemma DeviceInv(v: Vol, w: Vol, f: nat, i: nat)
    requires Inv(v) && Base(w) && Handed(v, w, f, i) && f < |w.dir.files|
    requires NamesDiffer(w.dir.files) && DirOK(w) && AtRest(w.g[f], Cb(w, f), w.dir.files[f].size)
    ensures Inv(w)
  {
    forall h | 0 <= h < |w.dir.files| ensures AtRest(w.g[h], Cb(w, h), w.dir.files[h].size) {
      if h != f {
        OthersDevice(v, f, i, h);
        assert AtRest(v.g[h], Cb(v, h), v.dir.files[h].size);
        assert Cb(w, h) == Cb(v, h);
      }
    }
  }

  // ----- giving blocks back

  /** A file's blocks are set aside, and the file is empty. */
  ghost predicate SetAside(v: Vol, w: Vol, f: nat, i: nat) {
    && f < |v.g| && i < |v.tab| && f < |v.dir.files|
    && w == v.(dir := v.dir.(files := v.dir.files[f := v.dir.files[f].(size := 0, ilist := INULL)]), dirdirty := true,
               tab := v.tab[i := v.tab[i].(pos := 0, inum := INULL, dnum := DNULL, byte := BLKSIZ)],
               g := v.g[f := v.g[f].(chain := [], blocks := [], raw := [])],
               idet := v.g[f].chain, ddet := v.g[f].blocks)
  }

  lemma AsideStep(v: Vol, w: Vol, f: nat, i: nat)
    requires Base(v) && SetAside(v, w, f, i) && v.idet == [] && v.ddet == [] && v.g[f].opener == i
    requires !v.tab[i].ibdirty && !v.tab[i].dbdirty && !v.g[f].stale
    ensures Base(w)
  {
    BaseFree(v);
    BaseFile(v, f);
    AsideOwned(v, w, f, i);
    FileStep(v, w, f);
  }

  lemma AsideOwned(v: Vol, w: Vol, f: nat, i: nat)
    requires Base(v) && SetAside(v, w, f, i) && v.idet == [] && v.ddet == []
    ensures Owned(ILists(w), 0, PERSECT * v.nibs) && Owned(DLists(w), v.nibs + 1, v.nsec)
  {
    BaseOwned(v);
    assert ILists(w) == ILists(v)[DET := ILists(v)[f + 1]][f + 1 := []];
    HandOver(ILists(v), f + 1, DET, ILists(w), 0, PERSECT * v.nibs);
    assert DLists(w) == DLists(v)[DET := DLists(v)[f + 1]][f + 1 := []];
    HandOver(DLists(v), f + 1, DET, DLists(w), v.nibs + 1, v.nsec);
  }

  /** Writes that touch no listed block but those on their way. */
  lemma DetStep(v: Vol, w: Vol)
    requires Base(v) && w == v.(disk := w.disk) && Shape(w)
    requires w.disk[0] == v.disk[0] || w.disk[0].dir.files == v.dir.files
    requires IbsSame(v.disk, w.disk, ILists(v), DET) && DbsSame(v.disk, w.disk, DLists(v), DET)
    ensures Base(w)
  {
    BaseOwned(v);
    BaseFree(v);
    BaseFile(v, 0);
    forall k | 0 <= k < |v.g[0].chain| ensures GetIb(w.disk, v.g[0].chain[k]) == GetIb(v.disk, v.g[0].chain[k]) {
      assert ILists(v)[1][k] == v.g[0].chain[k];
    }
    forall y | 0 <= y < |v.g[0].blocks| ensures At(w.disk, v.g[0].blocks[y]) == At(v.disk, v.g[0].blocks[y]) {
      assert DLists(v)[1][y] == v.g[0].blocks[y];
    }
    FileFrame(v.disk, w.disk, v.g[0], Cb(v, 0));
    ListsSame(v, w);
    FileStep(v, w, 0);
  }

  lemma PutAside(v: Vol, w: Vol, k: nat, b: IBlock)
    requires Base(v) && k < |v.idet| && IndexPlace(v, v.idet[k]) && w == v.(disk := PutIb(v.disk, v.idet[k], b))
    ensures Base(w)
  {
    BaseOwned(v);
    assert ILists(v)[DET][k] == v.idet[k];
    IbsAfterPut(v.disk, w.disk, b, ILists(v), PERSECT * v.nibs, DET, k);
    DbsAfterWrite(v.disk, w.disk, DLists(v), v.nibs + 1, v.nsec, DET, -1);
    DetStep(v, w);
  }

  /** The first data block set aside becomes the first free one. */
  ghost predicate DataFreed(v: Vol, w: Vol) {
    && v.ddet != [] && |v.disk| > 0 && 0 <= v.ddet[0] < |v.disk|
    && var dir := v.dir.(dfree := v.ddet[0]);
       w == v.(disk := v.disk[v.ddet[0] := FreeData(v.dir.dfree)][0 := Directory(dir)], dir := dir,
               dfree := v.dfree + [v.ddet[0]], ddet := v.ddet[1..])
  }

  lemma FreedOwned(v: Vol, w: Vol)
    requires Base(v) && DataFreed(v, w)
    ensures Owned(DLists(w), v.nibs + 1, v.nsec) && ILists(w) == ILists(v) && v.nibs < v.ddet[0] < v.nsec
  {
    BaseOwned(v);
    assert DLists(w) == DLists(v)[DET := v.ddet[1..]][0 := v.dfree + [v.ddet[0]]];
    FrontMoved(DLists(v), DLists(w), DET, v.nibs + 1, v.nsec);
  }

  lemma FreedStep(v: Vol, w: Vol)
    requires Base(v) && DataFreed(v, w)
    ensures Base(w)
    ensures forall n :: 0 <= n < PERSECT * v.nibs ==> GetIb(w.disk, n) == GetIb(v.disk, n)
  {
    var d := v.ddet[0];
    FreedOwned(v, w);
    BaseOwned(v);
    var u := v.(disk := w.disk);
    assert DLists(v)[DET][0] == d;
    DbsAfterWrite(v.disk, w.disk, DLists(v), v.nibs + 1, v.nsec, DET, 0);
    IbsAfterWrite(v.disk, w.disk, ILists(v), v.nibs, DET);
    DetStep(v, u);
    FreedFiles(u, w);
  }

  lemma FreedFiles(u: Vol, w: Vol)
    requires Base(u) && u.ddet != [] && At(w.disk, u.ddet[0]) == FreeData(u.dir.dfree)
    requires w == u.(dir := u.dir.(dfree := u.ddet[0]), dfree := u.dfree + [u.ddet[0]], ddet := u.ddet[1..])
    requires Owned(DLists(w), u.nibs + 1, u.nsec) && ILists(w) == ILists(u)
    ensures Base(w)
  {
    BaseOwned(u);
    BaseFree(u);
    BaseFile(u, 0);
    FilesKept(u, w, 0);
    forall k | 0 <= k < |w.dfree| ensures FreeDbOn(w.disk, w.dfree, k) {
      if k < |u.dfree| { assert FreeDbOn(u.disk, u.dfree, k); }
    }
    assert forall k :: 0 <= k < |w.ifree| ==> FreeIbOn(u.disk, u.ifree, k);
  }

  /** How far the blocks set aside have been relinked: the first `k` lead to the next and the last to the free list. */
  ghost predicate Relinked(v: Vol, k: int) {
    forall j :: 0 <= j < k && j < |v.idet| ==> DetLinked(v, j)
  }

  ghost predicate DetLinked(v: Vol, j: int)
    requires 0 <= j < |v.idet|
  {
    GetIb(v.disk, v.idet[j]).next == if j + 1 < |v.idet| then v.idet[j + 1] else Top(v.ifree)
  }

  /** The relinked i-blocks join the free list. */
  lemma JoinStep(v: Vol, w: Vol)
    requires Base(v) && v.idet != [] && Relinked(v, |v.idet|)
    requires w == v.(dir := v.dir.(ifree := v.idet[0]), ifree := v.ifree + Reversed(v.idet), idet := [], dirdirty := w.dirdirty)
    ensures Base(w)
  {
    BaseOwned(v);
    BaseFree(v);
    BaseFile(v, 0);
    assert ILists(w) == ILists(v)[0 := ILists(v)[0] + Reversed(ILists(v)[DET])][DET := []];
    Emptied(ILists(v), DET, 0, ILists(w), 0, PERSECT * v.nibs);
    assert DLists(w) == DLists(v);
    JoinedFree(v, w);
    FilesKept(v, w, 0);
  }

  lemma JoinedFree(v: Vol, w: Vol)
    requires FreeLists(v) && v.idet != [] && Relinked(v, |v.idet|)
    requires w == v.(dir := v.dir.(ifree := v.idet[0]), ifree := v.ifree + Reversed(v.idet), idet := [], dirdirty := w.dirdirty)
    ensures FreeLists(w)
  {
    var n := |v.idet|;
    forall k | 0 <= k < |w.ifree| ensures FreeIbOn(w.disk, w.ifree, k) {
      if k < |v.ifree| {
        assert FreeIbOn(v.disk, v.ifree, k);
      } else {
        var j := n - 1 - (k - |v.ifree|);
        assert DetLinked(v, j) && w.ifree[k] == v.idet[j];
        assert k > |v.ifree| ==> w.ifree[k - 1] == v.idet[j + 1];
      }
    }
    forall k | 0 <= k < |w.dfree| ensures FreeDbOn(w.disk, w.dfree, k) { assert FreeDbOn(v.disk, v.dfree, k); }
  }

  /** The blocks set aside, and that they are not free. */
  lemma AsideBlocks(v: Vol)
    requires Base(v)
    ensures forall k :: 0 <= k < |v.idet| ==> IndexPlace(v, v.idet[k]) && v.idet[k] != Top(v.ifree)
    ensures forall k, j :: 0 <= k < j < |v.idet| ==> v.idet[k] != v.idet[j]
    ensures forall y :: 0 <= y < |v.ddet| ==> v.nibs < v.ddet[y] < v.nsec
  {
    BaseOwned(v);
    forall k | 0 <= k < |v.idet| ensures IndexPlace(v, v.idet[k]) && v.idet[k] != Top(v.ifree) {
      InArea(ILists(v), 0, PERSECT * v.nibs, DET, k);
      if v.ifree != [] { Apart(ILists(v), 0, PERSECT * v.nibs, DET, k, 0, |v.ifree| - 1); }
    }
    forall y | 0 <= y < |v.ddet| ensures v.nibs < v.ddet[y] < v.nsec { InArea(DLists(v), v.nibs + 1, v.nsec, DET, y); }
    assert ILists(v)[DET] == v.idet;
    ListDistinct(ILists(v), 0, PERSECT * v.nibs, DET);
  }

  lemma {:induction false} InUseAtLeast(files: seq<File>, f: nat, u: Unit)
    requires f < |files|
    ensures InUse(files, u) >= Blocks(|files[f].data|, u)
  {
    var n := |files| - 1;
    if f < n { InUseAtLeast(files[..n], f, u); }
  }

  /** A file is never longer than the data area, so on a disk of less than 4 Gbyte its size fits 32 bits. */
  lemma SizeFits(v: Vol, f: nat)
    requires Inv(v) && f < |v.dir.files|
    ensures v.dir.files[f].size <= BLKSIZ * (v.nsec - v.nibs - 1)
    ensures v.nsec <= 0x80_0000 ==> v.dir.files[f].size < 0x1_0000_0000
  {
    FreeCounts(v);
    RestFacts(v, f);
    InUseAtLeast(Abs(v).files, f, ByData);
    BlocksCover(v.dir.files[f].size);
  }

  /** An i-block is on the free list or in exactly one file's chain, once. */
  lemma IndexOwner(v: Vol, n: int)
    requires Inv(v) && 0 <= n < PERSECT * v.nibs
    ensures n in v.ifree || exists f :: 0 <= f < |v.dir.files| && n in v.g[f].chain
    ensures forall f :: 0 <= f < NDIRENT && n in v.g[f].chain ==> n !in v.ifree
    ensures forall f, h :: 0 <= f < h < NDIRENT && n in v.g[f].chain ==> n !in v.g[h].chain
    ensures forall f :: 0 <= f < NDIRENT ==> Distinct(v.g[f].chain)
  {
    BaseOwned(v);
    var ls := ILists(v);
    var lists := seq(NDIRENT, f requires 0 <= f < NDIRENT => v.g[f].chain);
    forall f | 0 <= f < NDIRENT
      ensures lists[f] == v.g[f].chain == ls[f + 1] && Distinct(v.g[f].chain) && (f >= |v.dir.files| ==> lists[f] == [])
    {
      FileBlocks(v, f);
    }
    OneOwner(ls, v.ifree, lists, |v.dir.files|, 0, PERSECT * v.nibs, n);
  }

  /** With nothing set aside, a block is either free or on one file's list. */
  lemma OneOwner(ls: Owners, free: seq<int>, lists: seq<seq<int>>, files: nat, lo: int, hi: int, n: int)
    requires |ls| == NLISTS && |lists| == NDIRENT >= files && ls[0] == free && ls[DET] == []
    requires forall f :: 0 <= f < NDIRENT ==> lists[f] == ls[f + 1] && (f >= files ==> lists[f] == [])
    requires Owned(ls, lo, hi) && lo <= n < hi
    ensures n in free || exists f :: 0 <= f < files && n in lists[f]
    ensures forall f :: 0 <= f < NDIRENT && n in lists[f] ==> n !in free
    ensures forall f, h :: 0 <= f < h < NDIRENT && n in lists[f] ==> n !in lists[h]
  {
    OnOneList(ls, lo, hi, n);
    var k :| 0 <= k < NLISTS && n in ls[k];
    if k > 0 { assert lists[k - 1] == ls[k]; }
    forall f | 0 <= f < NDIRENT && n in lists[f] ensures n !in free { assert n in ls[f + 1]; }
    forall f, h | 0 <= f < h < NDIRENT && n in lists[f] ensures n !in lists[h] { assert n in ls[f + 1]; }
  }

  /** A data block is on the free list or in exactly one slot of one file. */
  lemma DataOwner(v: Vol, n: int)
    requires Inv(v) && v.nibs < n < v.nsec
    ensures n in v.dfree || exists f :: 0 <= f < |v.dir.files| && n in v.g[f].blocks
    ensures forall f :: 0 <= f < NDIRENT && n in v.g[f].blocks ==> n !in v.dfree
    ensures forall f, h :: 0 <= f < h < NDIRENT && n in v.g[f].blocks ==> n !in v.g[h].blocks
    ensures forall f :: 0 <= f < NDIRENT ==> Distinct(v.g[f].blocks)
  {
    BaseOwned(v);
    var ls := DLists(v);
    var lists := seq(NDIRENT, f requires 0 <= f < NDIRENT => v.g[f].blocks);
    forall f | 0 <= f < NDIRENT
      ensures lists[f] == v.g[f].blocks == ls[f + 1] && Distinct(v.g[f].blocks) && (f >= |v.dir.files| ==> lists[f] == [])
    {
      FileBlocks(v, f);
    }
    OneOwner(ls, v.dfree, lists, |v.dir.files|, v.nibs + 1, v.nsec, n);
  }

  // ----- what the disk alone says

  /** The i-block reached from `n` by following `k` links on disk. */
  function Follow(d: Disk, n: int, k: nat): int
    decreases k
  {
    if k == 0 then n else Follow(d, GetIb(d, n).next, k - 1)
  }

  /** The byte at position `p` of the file with this directory entry, read from the disk. */
  function DiskByte(d: Disk, e: DirEntry, p: nat): Byte {
    var b := GetIb(d, Follow(d, e.ilist, p / IDATA));
    var s := At(d, b.dba[p % IDATA / BLKSIZ]);
    if s.Data? && p % BLKSIZ < |s.bytes| then s.bytes[p % BLKSIZ] else 0
  }

  lemma {:induction false} FollowChain(d: Disk, x: Image, k: nat, j: nat)
    requires FileOn(d, x, NoDevice()) && j + k < |x.chain|
    ensures Follow(d, x.chain[j], k) == x.chain[j + k]
    decreases k
  {
    if k > 0 {
      assert IbOn(d, x, NoDevice(), j);
      FollowChain(d, x, k - 1, j + 1);
    }
  }

  lemma DiskByteAt(d: Disk, x: Image, e: DirEntry, p: nat)
    requires FileOn(d, x, NoDevice()) && p < |x.raw| && e.ilist == First(x.chain)
    ensures DiskByte(d, e, p) == x.raw[p]
  {
    var k, y := p / IDATA, p / BLKSIZ;
    FollowChain(d, x, k, 0);
    assert IbOn(d, x, NoDevice(), k);
    assert y == IBLEN * k + p % IDATA / BLKSIZ;
    assert DbOn(d, x, NoDevice(), y);
    assert Chunk(x.raw, y)[p % BLKSIZ] == x.raw[p];
  }

  /** The directory on disk has an entry for file `f`. */
  predicate OnDisk(v: Vol, f: nat) {
    |v.disk| > 0 && v.disk[0].Directory? && f < |v.disk[0].dir.files|
  }

  /** After the system stops there is no such file. */
  ghost predicate Lost(v: Vol, name: string) {
    |v.disk| > 0 && v.disk[0].Directory? && forall h :: 0 <= h < |v.disk[0].dir.files| ==> v.disk[0].dir.files[h].name != name
  }

  /** A clean directory on disk has no entries that the directory in memory lacks. */
  lemma NotOnDisk(v: Vol)
    requires Inv(v) && !v.dirdirty
    ensures !OnDisk(v, |v.dir.files|) && |Abs(v).files| == |v.dir.files|
  {
  }

  lemma MissingIsLost(v: Vol, name: string)
    requires Inv(v) && !v.dirdirty && |v.dir.files| > 0 && !OnDisk(v, |v.dir.files| - 1)
    requires v.dir.files[|v.dir.files| - 1].name == name || Abs(v).files[|v.dir.files| - 1].name == name
    ensures Lost(v, name)
  {
    assert Abs(v).files[|v.dir.files| - 1].name == v.dir.files[|v.dir.files| - 1].name;
  }

  /**
    Durability: while a file is closed, whatever is done to other files, the disk
    alone gives its size and every byte; only a file that was never written may be
    missing there.
  */
  lemma Durable(v: Vol, f: nat)
    requires Inv(v) && f < |v.dir.files| && v.g[f].opener == -1
    ensures var d, data := v.disk[0].dir, Abs(v).files[f].data;
            && (data != [] ==> OnDisk(v, f))
            && (OnDisk(v, f) ==> d.files[f].name == Abs(v).files[f].name && d.files[f].size == |data|
                                  && forall p :: 0 <= p < |data| ==> DiskByte(v.disk, d.files[f], p) == data[p])
  {
    RestFacts(v, f);
    BaseFile(v, f);
    var d := v.disk[0].dir;
    if f < |d.files| {
      forall p | 0 <= p < |Abs(v).files[f].data| ensures DiskByte(v.disk, d.files[f], p) == Abs(v).files[f].data[p] {
        DiskByteAt(v.disk, v.g[f], d.files[f], p);
      }
    }
  }

  /**
    After the last close, mounting the disk again gives back exactly the files that
    are in the directory on disk, with the same names and bytes; the others are empty.
  */
  lemma Remount(v: Vol)
    requires Inv(v) && !v.dirdirty && forall i :: 0 <= i < NLFL ==> !v.tab[i].used
    ensures var w := v.(dir := v.disk[0].dir);
            && Inv(w) && |Abs(w).files| <= |Abs(v).files|
            && (forall f :: 0 <= f < |Abs(w).files| ==> Abs(w).files[f] == Abs(v).files[f])
            && (forall f :: 0 <= f < |Abs(v).files| ==> (f < |Abs(w).files| <==> OnDisk(v, f)))
            && (forall f :: |Abs(w).files| <= f < |Abs(v).files| ==> Abs(v).files[f].data == [])
  {
    var w := v.(dir := v.disk[0].dir);
    BaseOwned(v);
    BaseFree(v);
    ListsSame(v, w);
    forall f | 0 <= f < NDIRENT ensures FileOn(w.disk, w.g[f], Cb(w, f)) && EntryOK(w, f) && OpenerOK(w, f) {
      BaseFile(v, f);
      if |w.dir.files| <= f < |v.dir.files| { RestFacts(v, f); }
    }
    assert Files(w);
    assert Base(w);
    forall f | 0 <= f < |w.dir.files| ensures AtRest(w.g[f], Cb(w, f), w.dir.files[f].size) { RestFacts(v, f); }
    forall f | |w.dir.files| <= f < |v.dir.files| ensures Abs(v).files[f].data == [] { RestFacts(v, f); }
  }

  // ----- a new file system

  /** What creating a file system leaves on disk: every i-block and data block is free, in ascending order. */
  ghost predicate Formatted(d: Disk, nibs: nat, nsec: nat) {
    && 1 <= nibs && nibs + 1 < nsec <= |d| && d[0] == Directory(Dir(nibs + 1, 0, []))
    && (forall s :: 1 <= s <= nibs ==> IndexSector(d[s]))
    && (forall n :: 0 <= n < PERSECT * nibs ==> GetIb(d, n).next == if n + 1 < PERSECT * nibs then n + 1 else INULL)
    && (forall s :: nibs < s < nsec ==> d[s] == FreeData(if s + 1 < nsec then s + 1 else DNULL))
  }

  function NewVol(d: Disk, nibs: nat, nsec: nat): Vol
    requires nibs + 1 <= nsec
  {
    Vol(d, Dir(nibs + 1, 0, []), false, seq(NLFL, i => NoDevice()), seq(NDIRENT, f => Image([], [], [], 0, 0, false, -1)),
        Countdown(0, PERSECT * nibs), Countdown(nibs + 1, nsec), [], [], nibs, nsec)
  }

  lemma NewInv(d: Disk, nibs: nat, nsec: nat)
    requires Formatted(d, nibs, nsec)
    ensures Inv(NewVol(d, nibs, nsec))
    ensures Abs(NewVol(d, nibs, nsec)) == Store([], seq(NLFL, i => Closed), PERSECT * nibs, nsec - nibs - 1)
  {
    var v := NewVol(d, nibs, nsec);
    CountdownOwned(ILists(v), 0, PERSECT * nibs);
    CountdownOwned(DLists(v), nibs + 1, nsec);
    forall k | 0 <= k < |v.ifree| ensures FreeIbOn(v.disk, v.ifree, k) {}
    forall k | 0 <= k < |v.dfree| ensures FreeDbOn(v.disk, v.dfree, k) {}
    assert forall f :: 0 <= f < NDIRENT ==> FileOn(d, v.g[f], NoDevice());
    assert Base(v);
  }
}
