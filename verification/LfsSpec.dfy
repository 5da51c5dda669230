/**
  What a local file system is for: named byte sequences, and pseudo-devices that
  each hold one open file and a position in it. Index and data blocks appear only
  as two totals, because running out of either stops the system.
*/
module LfsSpec {
  import opened Common
  import opened LfsBlocks


  datatype File = File(name: string, data: seq<Byte>)

  datatype Device = Closed | Opened(file: nat, pos: nat)

  datatype Store = Store(files: seq<File>, devs: seq<Device>, iblocks: nat, dblocks: nat)

  datatype Mode = BadMode | AnyFile | OldFile | NewFile

  datatype Op =
    | Open(name: string, mode: Mode) | Seek(dev: nat, offset: nat) | Putc(dev: nat, ch: Byte)
    | Getc(dev: nat) | Truncate(dev: nat) | Close(dev: nat)

  datatype Out = Ret(v: int) | Panic

  datatype Result = Result(s: Store, out: Out)

  /** Positions lie inside their files or at the end, and no file is open twice. */
  ghost predicate Fine(s: Store) {
    && |s.devs| == NLFL
    && (forall d :: 0 <= d < NLFL && s.devs[d].Opened? ==>
          s.devs[d].file < |s.files| && s.devs[d].pos <= |s.files[s.devs[d].file].data|)
    && (forall d, e :: 0 <= d < e < NLFL && s.devs[d].Opened? && s.devs[e].Opened? ==> s.devs[d].file != s.devs[e].file)
  }

  datatype Unit = ByData | ByIndex

  /** Blocks that this many bytes take: data blocks, or index blocks. */
  function Blocks(n: nat, u: Unit): nat {
    match u
    case ByData => (n + BLKSIZ - 1) / BLKSIZ
    case ByIndex => (n + IDATA - 1) / IDATA
  }

  /** Blocks that all the files take. */
  function InUse(files: seq<File>, u: Unit): nat {
    if files == [] then 0 else InUse(files[..|files| - 1], u) + Blocks(|files[|files| - 1].data|, u)
  }

  function Find(files: seq<File>, name: string): (f: nat)
    ensures f <= |files| && (f < |files| ==> files[f].name == name)
    ensures forall i :: 0 <= i < f ==> files[i].name != name
  {
    if files == [] then 0 else if files[0].name == name then 0 else 1 + Find(files[1..], name)
  }

  /** The first pseudo-device that is not in use, or the number of them. */
  function FreeDev(devs: seq<Device>): (d: nat)
    ensures d <= |devs| && (d < |devs| ==> devs[d].Closed?)
    ensures forall i :: 0 <= i < d ==> devs[i].Opened?
  {
    if devs == [] then 0 else if devs[0].Closed? then 0 else 1 + FreeDev(devs[1..])
  }

  ghost predicate IsOpen(s: Store, name: string)
    requires Fine(s)
  {
    exists d :: 0 <= d < NLFL && s.devs[d].Opened? && s.files[s.devs[d].file].name == name
  }

  ghost function DoOpen(s: Store, name: string, mode: Mode): (r: Result)
    requires Fine(s)
    ensures Fine(r.s)
  {
    var d, f := FreeDev(s.devs), Find(s.files, name);
    if |name| >= NAMELEN || mode == BadMode || IsOpen(s, name) || d == NLFL then Result(s, Ret(SYSERR))
    else if f < |s.files| then
      if mode == NewFile then Result(s, Ret(SYSERR)) else Result(s.(devs := s.devs[d := Opened(f, 0)]), Ret(d))
    else if mode == OldFile || f >= NDIRENT then Result(s, Ret(SYSERR))
    else Result(s.(files := s.files + [File(name, [])], devs := s.devs[d := Opened(f, 0)]), Ret(d))
  }

  predicate BadDev(s: Store, d: nat) { d >= |s.devs| || s.devs[d].Closed? }

  function DoSeek(s: Store, d: nat, offset: nat): (r: Result)
    requires Fine(s)
    ensures Fine(r.s)
  {
    if BadDev(s, d) || offset > |s.files[s.devs[d].file].data| then Result(s, Ret(SYSERR))
    else Result(s.(devs := s.devs[d := s.devs[d].(pos := offset)]), Ret(OK))
  }

  /** The next byte starts a new data block or index block, and none is left. */
  predicate Full(s: Store, data: seq<Byte>) {
    || (|data| % IDATA == 0 && InUse(s.files, ByIndex) >= s.iblocks)
    || (|data| % BLKSIZ == 0 && InUse(s.files, ByData) >= s.dblocks)
  }

  /** The byte at the position is replaced, or the file grows by one. */
  function DoPutc(s: Store, d: nat, ch: Byte): (r: Result)
    requires Fine(s)
    ensures Fine(r.s)
  {
    if BadDev(s, d) then Result(s, Ret(SYSERR))
    else
      var f, p := s.devs[d].file, s.devs[d].pos;
      var data := s.files[f].data;
      if p == |data| && Full(s, data) then Result(s, Panic)
      else
        var data' := if p < |data| then data[p := ch] else data + [ch];
        Result(s.(files := s.files[f := s.files[f].(data := data')], devs := s.devs[d := Opened(f, p + 1)]), Ret(OK))
  }

  function DoGetc(s: Store, d: nat): (r: Result)
    requires Fine(s)
    ensures Fine(r.s)
  {
    if BadDev(s, d) then Result(s, Ret(SYSERR))
    else
      var f, p := s.devs[d].file, s.devs[d].pos;
      if p >= |s.files[f].data| then Result(s, Ret(EOF))
      else Result(s.(devs := s.devs[d := Opened(f, p + 1)]), Ret(s.files[f].data[p]))
  }

  function DoTruncate(s: Store, d: nat): (r: Result)
    requires Fine(s)
    ensures Fine(r.s)
  {
    if BadDev(s, d) then Result(s, Ret(SYSERR))
    else
      var f := s.devs[d].file;
      Result(s.(files := s.files[f := s.files[f].(data := [])], devs := s.devs[d := Opened(f, 0)]), Ret(OK))
  }

  function DoClose(s: Store, d: nat): (r: Result)
    requires Fine(s)
    ensures Fine(r.s)
  {
    if BadDev(s, d) then Result(s, Ret(SYSERR)) else Result(s.(devs := s.devs[d := Closed]), Ret(OK))
  }

  ghost function Do(s: Store, op: Op): (r: Result)
    requires Fine(s)
    ensures Fine(r.s)
  {
    match op
    case Open(name, mode) => DoOpen(s, name, mode)
    case Seek(d, offset) => DoSeek(s, d, offset)
    case Putc(d, ch) => DoPutc(s, d, ch)
    case Getc(d) => DoGetc(s, d)
    case Truncate(d) => DoTruncate(s, d)
    case Close(d) => DoClose(s, d)
  }

  /** The results of a sequence of calls; nothing follows a panic. */
  ghost function Run(s: Store, ops: seq<Op>): seq<Out>
    requires Fine(s)
    decreases |ops|
  {
    if ops == [] then []
    else
      var r := Do(s, ops[0]);
      if r.out == Panic then [Panic] else [r.out] + Run(r.s, ops[1..])
  }

  /** The store after a sequence of calls. */
  ghost function After(s: Store, ops: seq<Op>): (r: Store)
    requires Fine(s)
    ensures Fine(r)
    decreases |ops|
  {
    if ops == [] then s else After(Do(s, ops[0]).s, ops[1..])
  }

  // ----- what a file remembers

  ghost predicate Puts(s: Store, op: Op, f: nat, p: nat) {
    op.Putc? && op.dev < |s.devs| && s.devs[op.dev] == Opened(f, p)
  }

  ghost predicate Truncates(s: Store, op: Op, f: nat) {
    op.Truncate? && op.dev < |s.devs| && s.devs[op.dev].Opened? && s.devs[op.dev].file == f
  }

  /** The byte last put at position `p` of file `f` in a run, or else `b`. */
  ghost function LastPut(s: Store, ops: seq<Op>, f: nat, p: nat, b: Byte): Byte
    requires Fine(s)
    decreases |ops|
  {
    if ops == [] then b
    else LastPut(Do(s, ops[0]).s, ops[1..], f, p, if Puts(s, ops[0], f, p) then ops[0].ch else b)
  }

  ghost predicate NeverCut(s: Store, ops: seq<Op>, f: nat)
    requires Fine(s)
    decreases |ops|
  {
    ops != [] ==> !Truncates(s, ops[0], f) && NeverCut(Do(s, ops[0]).s, ops[1..], f)
  }

  lemma DoRemembers(s: Store, op: Op, f: nat, p: nat)
    requires Fine(s) && f < |s.files| && p < |s.files[f].data| && !Truncates(s, op, f)
    ensures var r := Do(s, op).s;
            && f < |r.files| && p < |r.files[f].data|
            && r.files[f].data[p] == if Puts(s, op, f, p) then op.ch else s.files[f].data[p]
  {
  }

  /** A byte of a file is the byte last put there, whatever else was read, written, opened or closed. */
  lemma {:induction false} Remembers(s: Store, ops: seq<Op>, f: nat, p: nat)
    requires Fine(s) && f < |s.files| && p < |s.files[f].data| && NeverCut(s, ops, f)
    ensures var r := After(s, ops);
            && f < |r.files| && p < |r.files[f].data|
            && r.files[f].data[p] == LastPut(s, ops, f, p, s.files[f].data[p])
    decreases |ops|
  {
    if ops != [] {
      DoRemembers(s, ops[0], f, p);
      Remembers(Do(s, ops[0]).s, ops[1..], f, p);
    }
  }
}
