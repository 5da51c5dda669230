/**
  What the results of calls are, told from the calls and results before them alone:
  which file a device has open, where its cursor is, how long a file is and which
  byte was last put at a position.
*/
module LfsHistory {
  import opened Common
  import opened LfsBlocks
  import opened LfsSpec

  datatype Call = Call(op: Op, out: Out)

  type History = seq<Call>

  // ----- reading a history from its end

  ghost predicate Done(c: Call, op: Op) { c.op == op && c.out == Ret(OK) }

  /** The name of the file that device `d` has open. */
  ghost function Session(s: Store, h: History, d: nat): Option<string>
    requires Fine(s)
  {
    if h == [] then
      if d < NLFL && s.devs[d].Opened? then Some(s.files[s.devs[d].file].name) else None
    else
      var c := h[|h| - 1];
      if c.op.Open? && c.out == Ret(d) then Some(c.op.name)
      else if Done(c, Close(d)) then None
      else Session(s, h[..|h| - 1], d)
  }

  /** How many bytes behind the start of the file device `d` is. */
  ghost function Cursor(s: Store, h: History, d: nat): nat
    requires Fine(s)
  {
    if h == [] then
      if d < NLFL && s.devs[d].Opened? then s.devs[d].pos else 0
    else
      var c, before := h[|h| - 1], Cursor(s, h[..|h| - 1], d);
      if c.op.Open? && c.out == Ret(d) then 0
      else if c.op.Seek? && Done(c, Seek(d, c.op.offset)) then c.op.offset
      else if Done(c, Truncate(d)) then 0
      else if c.op.Putc? && Done(c, Putc(d, c.op.ch)) then before + 1
      else if c.op == Getc(d) && c.out.Ret? && c.out.v >= 0 then before + 1
      else before
  }

  /** The names of the files, in the order in which they were created. */
  ghost function Names(s: Store, h: History): seq<string> {
    if h == [] then seq(|s.files|, f requires 0 <= f < |s.files| => s.files[f].name)
    else
      var c, before := h[|h| - 1], Names(s, h[..|h| - 1]);
      if c.op.Open? && c.out.Ret? && c.out.v >= 0 && c.op.name !in before then before + [c.op.name] else before
  }

  ghost predicate Exists(s: Store, h: History, name: string) { name in Names(s, h) }

  ghost function Size(s: Store, h: History, name: string): nat
    requires Fine(s)
  {
    if h == [] then
      var f := Find(s.files, name);
      if f < |s.files| then |s.files[f].data| else 0
    else
      var c, old_ := h[|h| - 1], h[..|h| - 1];
      var n := Size(s, old_, name);
      if c.op.Truncate? && c.out == Ret(OK) && Session(s, old_, c.op.dev) == Some(name) then 0
      else if c.op.Putc? && c.out == Ret(OK) && Session(s, old_, c.op.dev) == Some(name) && Cursor(s, old_, c.op.dev) >= n
      then Cursor(s, old_, c.op.dev) + 1
      else n
  }

  /** The byte last put at position `p` of a file. */
  ghost function ByteAt(s: Store, h: History, name: string, p: nat): Byte
    requires Fine(s)
  {
    if h == [] then
      var f := Find(s.files, name);
      if f < |s.files| && p < |s.files[f].data| then s.files[f].data[p] else 0
    else
      var c, old_ := h[|h| - 1], h[..|h| - 1];
      if c.op.Putc? && c.out == Ret(OK) && Session(s, old_, c.op.dev) == Some(name) && Cursor(s, old_, c.op.dev) == p
      then c.op.ch
      else ByteAt(s, old_, name, p)
  }

  /** Blocks that all files take. */
  ghost function Used(s: Store, h: History, names: seq<string>, u: Unit): nat
    requires Fine(s)
  {
    if names == [] then 0
    else Used(s, h, names[..|names| - 1], u) + Blocks(Size(s, h, names[|names| - 1]), u)
  }

  /** A byte behind the last one of a file of this size needs a block, and none is left. */
  ghost predicate NoBlock(s: Store, h: History, size: nat)
    requires Fine(s)
  {
    || (size % IDATA == 0 && Used(s, h, Names(s, h), ByIndex) >= s.iblocks)
    || (size % BLKSIZ == 0 && Used(s, h, Names(s, h), ByData) >= s.dblocks)
  }

  ghost predicate OpenSomewhere(s: Store, h: History, name: string)
    requires Fine(s)
  {
    exists d :: 0 <= d < NLFL && Session(s, h, d) == Some(name)
  }

  /** The first device without a file, or the number of devices. */
  ghost predicate FirstIdle(s: Store, h: History, d: nat)
    requires Fine(s)
  {
    && d <= NLFL && (forall e :: 0 <= e < d ==> Session(s, h, e) != None)
    && (d < NLFL ==> Session(s, h, d) == None)
  }

  /** `open` of this name in this mode is refused. */
  ghost predicate Refused(s: Store, h: History, name: string, mode: Mode)
    requires Fine(s)
  {
    || |name| >= NAMELEN || mode == BadMode || OpenSomewhere(s, h, name) || FirstIdle(s, h, NLFL)
    || (Exists(s, h, name) && mode == NewFile)
    || (!Exists(s, h, name) && (mode == OldFile || |Names(s, h)| >= NDIRENT))
  }

  /** What a call must return after this history. */
  ghost predicate Answer(s: Store, h: History, op: Op, out: Out)
    requires Fine(s)
  {
    match op
    case Open(name, mode) =>
      if Refused(s, h, name, mode) then out == Ret(SYSERR) else out.Ret? && out.v >= 0 && FirstIdle(s, h, out.v)
    case Getc(d) =>
      (match Session(s, h, d)
       case None => out == Ret(SYSERR)
       case Some(name) =>
         out == if Cursor(s, h, d) >= Size(s, h, name) then Ret(EOF) else Ret(ByteAt(s, h, name, Cursor(s, h, d))))
    case Putc(d, ch) =>
      (match Session(s, h, d)
       case None => out == Ret(SYSERR)
       case Some(name) =>
         out == if Cursor(s, h, d) == Size(s, h, name) && NoBlock(s, h, Size(s, h, name)) then Panic else Ret(OK))
    case Seek(d, offset) =>
      (match Session(s, h, d)
       case None => out == Ret(SYSERR)
       case Some(name) => out == if offset <= Size(s, h, name) then Ret(OK) else Ret(SYSERR))
    case Truncate(d) => out == if Session(s, h, d) == None then Ret(SYSERR) else Ret(OK)
    case Close(d) => out == if Session(s, h, d) == None then Ret(SYSERR) else Ret(OK)
  }

  // ----- the store agrees with the history

  ghost predicate Unique(files: seq<File>) {
    forall f, g :: 0 <= f < g < |files| ==> files[f].name != files[g].name
  }

  ghost predicate DeviceAgrees(s: Store, h: History, t: Store, d: nat)
    requires Fine(s) && Fine(t) && d < NLFL
  {
    if t.devs[d].Opened?
    then Session(s, h, d) == Some(t.files[t.devs[d].file].name) && Cursor(s, h, d) == t.devs[d].pos
    else Session(s, h, d) == None
  }

  ghost predicate FileAgrees(s: Store, h: History, file: File)
    requires Fine(s)
  {
    && Size(s, h, file.name) == |file.data|
    && forall p :: 0 <= p < |file.data| ==> ByteAt(s, h, file.name, p) == file.data[p]
  }

  ghost predicate NamesAgree(s: Store, h: History, files: seq<File>) {
    |Names(s, h)| == |files| && forall f :: 0 <= f < |files| ==> Names(s, h)[f] == files[f].name
  }

  /** `t` is what the history leaves of `s`. */
  ghost predicate Agrees(s: Store, h: History, t: Store) {
    (&& Fine(s) && Fine(t) && Unique(t.files) && NamesAgree(s, h, t.files)
     && t.iblocks == s.iblocks && t.dblocks == s.dblocks
     && (forall d: nat :: if d < NLFL then DeviceAgrees(s, h, t, d) else Session(s, h, d) == None)
     && (forall f :: 0 <= f < |t.files| ==> FileAgrees(s, h, t.files[f]))
     && forall name :: !Exists(s, h, name) ==> Size(s, h, name) == 0) == true
  }

  // ----- one more call

  /** A call that is refused, or finds the end of a file, changes nothing. */
  lemma Quiet(s: Store, h: History, c: Call, t: Store)
    requires Agrees(s, h, t) && (c.out == Ret(SYSERR) || (c.op.Getc? && c.out == Ret(EOF)))
    ensures Agrees(s, h + [c], t)
  {
    var g := h + [c];
    assert g[..|g| - 1] == h;
    forall d: nat ensures Session(s, g, d) == Session(s, h, d) && Cursor(s, g, d) == Cursor(s, h, d) {}
    forall name ensures Size(s, g, name) == Size(s, h, name) {}
    assert Names(s, g) == Names(s, h);
    forall name, p: nat ensures ByteAt(s, g, name, p) == ByteAt(s, h, name, p) {}
  }

  /** A call that only moves the cursor of an open device. */
  lemma Moved(s: Store, h: History, c: Call, t: Store, d: nat, pos: nat, u: Store)
    requires Agrees(s, h, t) && d < NLFL && t.devs[d].Opened? && pos <= |t.files[t.devs[d].file].data|
    requires u == t.(devs := t.devs[d := t.devs[d].(pos := pos)])
    requires (c == Call(Seek(d, pos), Ret(OK))) || (c.op == Getc(d) && c.out.Ret? && c.out.v >= 0 && pos == t.devs[d].pos + 1)
    ensures Agrees(s, h + [c], u)
  {
    var g := h + [c];
    assert g[..|g| - 1] == h;
    forall e: nat ensures Session(s, g, e) == Session(s, h, e) && Cursor(s, g, e) == if e == d then pos else Cursor(s, h, e) {
      assert e == d ==> DeviceAgrees(s, h, t, e);
    }
    forall name ensures Size(s, g, name) == Size(s, h, name) {}
    assert Names(s, g) == Names(s, h);
    forall name, p: nat ensures ByteAt(s, g, name, p) == ByteAt(s, h, name, p) {}
    forall e | 0 <= e < NLFL ensures DeviceAgrees(s, g, u, e) { assert DeviceAgrees(s, h, t, e); }
    forall f | 0 <= f < |u.files| ensures FileAgrees(s, g, u.files[f]) { assert FileAgrees(s, h, t.files[f]); }
  }

  lemma Shut(s: Store, h: History, t: Store, d: nat, u: Store)
    requires Agrees(s, h, t) && d < NLFL && t.devs[d].Opened? && u == t.(devs := t.devs[d := Closed])
    ensures Agrees(s, h + [Call(Close(d), Ret(OK))], u)
  {
    var g := h + [Call(Close(d), Ret(OK))];
    assert g[..|g| - 1] == h;
    forall e: nat ensures Session(s, g, e) == (if e == d then None else Session(s, h, e)) && Cursor(s, g, e) == Cursor(s, h, e) {}
    forall name ensures Size(s, g, name) == Size(s, h, name) {}
    assert Names(s, g) == Names(s, h);
    forall name, p: nat ensures ByteAt(s, g, name, p) == ByteAt(s, h, name, p) {}
    forall e | 0 <= e < NLFL ensures DeviceAgrees(s, g, u, e) { assert DeviceAgrees(s, h, t, e); }
    forall f | 0 <= f < |u.files| ensures FileAgrees(s, g, u.files[f]) { assert FileAgrees(s, h, t.files[f]); }
  }

  lemma Emptied(s: Store, h: History, t: Store, d: nat, u: Store)
    requires Agrees(s, h, t) && d < NLFL && t.devs[d].Opened?
    requires var f := t.devs[d].file; u == t.(files := t.files[f := t.files[f].(data := [])], devs := t.devs[d := Opened(f, 0)])
    requires Fine(u)
    ensures Agrees(s, h + [Call(Truncate(d), Ret(OK))], u)
  {
    var g, f := h + [Call(Truncate(d), Ret(OK))], t.devs[d].file;
    var n := t.files[f].name;
    assert g[..|g| - 1] == h;
    assert DeviceAgrees(s, h, t, d) && FileAgrees(s, h, t.files[f]);
    forall e: nat ensures Session(s, g, e) == Session(s, h, e) && Cursor(s, g, e) == if e == d then 0 else Cursor(s, h, e) {}
    forall name ensures Size(s, g, name) == if name == n then 0 else Size(s, h, name) {}
    assert Names(s, g) == Names(s, h);
    forall name, p: nat ensures ByteAt(s, g, name, p) == ByteAt(s, h, name, p) {}
    forall e | 0 <= e < NLFL ensures DeviceAgrees(s, g, u, e) { assert DeviceAgrees(s, h, t, e); }
    forall k | 0 <= k < |u.files| ensures FileAgrees(s, g, u.files[k]) { assert FileAgrees(s, h, t.files[k]); }
    assert Names(s, g) == Names(s, h);
  }

  lemma ByteWritten(s: Store, h: History, t: Store, d: nat, ch: Byte, u: Store)
    requires Agrees(s, h, t) && d < NLFL && t.devs[d].Opened? && Fine(u)
    requires var f, p := t.devs[d].file, t.devs[d].pos;
             var data := t.files[f].data;
             u == t.(files := t.files[f := t.files[f].(data := if p < |data| then data[p := ch] else data + [ch])],
                     devs := t.devs[d := Opened(f, p + 1)])
    ensures Agrees(s, h + [Call(Putc(d, ch), Ret(OK))], u)
  {
    var g, f, p := h + [Call(Putc(d, ch), Ret(OK))], t.devs[d].file, t.devs[d].pos;
    var n := t.files[f].name;
    assert g[..|g| - 1] == h;
    assert DeviceAgrees(s, h, t, d) && FileAgrees(s, h, t.files[f]);
    forall e: nat ensures Session(s, g, e) == Session(s, h, e) && Cursor(s, g, e) == if e == d then p + 1 else Cursor(s, h, e) {}
    forall name
      ensures Size(s, g, name) == if name == n && p >= |t.files[f].data| then p + 1 else Size(s, h, name)
    {
    }
    forall name, q: nat ensures ByteAt(s, g, name, q) == if name == n && q == p then ch else ByteAt(s, h, name, q) {}
    forall e | 0 <= e < NLFL ensures DeviceAgrees(s, g, u, e) { assert DeviceAgrees(s, h, t, e); }
    forall k | 0 <= k < |u.files| ensures FileAgrees(s, g, u.files[k]) {
      assert FileAgrees(s, h, t.files[k]);
      if k != f { assert t.files[k].name != n; }
    }
    assert Names(s, g) == Names(s, h);
  }

  /** What the history says after a successful open. */
  ghost predicate SaysOpened(s: Store, h: History, g: History, name: string, d: nat)
    requires Fine(s)
  {
    (&& (forall e: nat :: Session(s, g, e) == (if e == d then Some(name) else Session(s, h, e))
                          && Cursor(s, g, e) == if e == d then 0 else Cursor(s, h, e))
     && (forall n :: Size(s, g, n) == Size(s, h, n))
     && (forall n, p: nat :: ByteAt(s, g, n, p) == ByteAt(s, h, n, p))
     && Names(s, g) == if Exists(s, h, name) then Names(s, h) else Names(s, h) + [name]) == true
  }

  lemma OpenIsSaid(s: Store, h: History, name: string, mode: Mode, d: nat)
    requires Fine(s)
    ensures SaysOpened(s, h, h + [Call(Open(name, mode), Ret(d))], name, d)
  {
    var g := h + [Call(Open(name, mode), Ret(d))];
    assert g[..|g| - 1] == h;
  }

  lemma {:induction false} OpenedDevices(s: Store, h: History, g: History, t: Store, name: string, d: nat, f: nat, u: Store)
    requires Agrees(s, h, t) && SaysOpened(s, h, g, name, d) && d < NLFL && t.devs[d].Closed? && Fine(u)
    requires |t.files| <= |u.files| && (forall k :: 0 <= k < |t.files| ==> u.files[k] == t.files[k])
    requires f < |u.files| && u.files[f].name == name && u.devs == t.devs[d := Opened(f, 0)]
    ensures forall e: nat :: if e < NLFL then DeviceAgrees(s, g, u, e) else Session(s, g, e) == None
  {
    forall e | 0 <= e < NLFL ensures DeviceAgrees(s, g, u, e) { assert DeviceAgrees(s, h, t, e); }
  }

  lemma {:induction false} OpenedNames(s: Store, h: History, g: History, t: Store, name: string, d: nat, files: seq<File>)
    requires Agrees(s, h, t) && SaysOpened(s, h, g, name, d)
    requires files == if Find(t.files, name) < |t.files| then t.files else t.files + [File(name, [])]
    ensures Unique(files) && NamesAgree(s, g, files)
  {
    Known(s, h, t, name);
    assert NamesAgree(s, h, t.files);
  }

  lemma {:induction false} OpenedContents(s: Store, h: History, g: History, t: Store, name: string, d: nat, files: seq<File>)
    requires Agrees(s, h, t) && SaysOpened(s, h, g, name, d)
    requires files == if Find(t.files, name) < |t.files| then t.files else t.files + [File(name, [])]
    ensures forall f :: 0 <= f < |files| ==> FileAgrees(s, g, files[f])
  {
    Known(s, h, t, name);
    forall k | 0 <= k < |files| ensures FileAgrees(s, g, files[k]) {
      if k < |t.files| { assert FileAgrees(s, h, t.files[k]); }
    }
  }

  lemma {:induction false} OpenedSizes(s: Store, h: History, g: History, t: Store, name: string, d: nat)
    requires Agrees(s, h, t) && SaysOpened(s, h, g, name, d)
    ensures forall n :: !Exists(s, g, n) ==> Size(s, g, n) == 0
  {
    forall n | !Exists(s, g, n) ensures Size(s, g, n) == 0 {
      assert Names(s, h) <= Names(s, g);
      assert !Exists(s, h, n);
    }
  }

  /** A file is opened at its start; a new one is empty. */
  lemma {:induction false} OpenedFile(s: Store, h: History, t: Store, name: string, mode: Mode, d: nat, f: nat, u: Store)
    requires Agrees(s, h, t) && d < NLFL && t.devs[d].Closed? && f == Find(t.files, name) && Fine(u)
    requires u == t.(files := if f < |t.files| then t.files else t.files + [File(name, [])], devs := t.devs[d := Opened(f, 0)])
    ensures Agrees(s, h + [Call(Open(name, mode), Ret(d))], u)
  {
    var g := h + [Call(Open(name, mode), Ret(d))];
    OpenIsSaid(s, h, name, mode, d);
    OpenedDevices(s, h, g, t, name, d, f, u);
    OpenedNames(s, h, g, t, name, d, u.files);
    OpenedContents(s, h, g, t, name, d, u.files);
    OpenedSizes(s, h, g, t, name, d);
  }

  /** The directory search finds a file exactly if it exists. */
  lemma {:induction false} Known(s: Store, h: History, t: Store, name: string)
    requires Agrees(s, h, t)
    ensures Find(t.files, name) < |t.files| <==> Exists(s, h, name)
  {
    var f := Find(t.files, name);
    if f < |t.files| { assert Names(s, h)[f] == name; }
    if Exists(s, h, name) {
      var k :| 0 <= k < |Names(s, h)| && Names(s, h)[k] == name;
      assert t.files[k].name == name;
    }
  }

  lemma {:induction false} DeviceFacts(s: Store, h: History, t: Store, d: nat)
    requires Agrees(s, h, t)
    ensures BadDev(t, d) <==> Session(s, h, d) == None
    ensures !BadDev(t, d) ==> d < NLFL && t.devs[d].file < |t.files| && Session(s, h, d) == Some(t.files[t.devs[d].file].name)
                              && Cursor(s, h, d) == t.devs[d].pos && FileAgrees(s, h, t.files[t.devs[d].file])
  {
    if d < NLFL { assert DeviceAgrees(s, h, t, d); }
  }

  lemma GetcStep(s: Store, h: History, t: Store, d: nat, r: Result)
    requires Agrees(s, h, t) && r == DoGetc(t, d)
    ensures Answer(s, h, Getc(d), r.out) && Agrees(s, h + [Call(Getc(d), r.out)], r.s)
  {
    DeviceFacts(s, h, t, d);
    if BadDev(t, d) || t.devs[d].pos >= |t.files[t.devs[d].file].data| {
      Quiet(s, h, Call(Getc(d), r.out), t);
    } else {
      Moved(s, h, Call(Getc(d), r.out), t, d, t.devs[d].pos + 1, r.s);
    }
  }

  lemma {:induction false} UsedIs(s: Store, h: History, files: seq<File>, names: seq<string>, u: Unit)
    requires Fine(s) && |names| == |files| && forall f :: 0 <= f < |files| ==> names[f] == files[f].name && FileAgrees(s, h, files[f])
    ensures Used(s, h, names, u) == InUse(files, u)
    decreases |files|
  {
    if files != [] {
      var n := |files| - 1;
      assert FileAgrees(s, h, files[n]);
      UsedIs(s, h, files[..n], names[..n], u);
    }
  }

  lemma PutcStep(s: Store, h: History, t: Store, d: nat, ch: Byte, r: Result)
    requires Agrees(s, h, t) && r == DoPutc(t, d, ch)
    ensures Answer(s, h, Putc(d, ch), r.out) && (r.out != Panic ==> Agrees(s, h + [Call(Putc(d, ch), r.out)], r.s))
  {
    DeviceFacts(s, h, t, d);
    UsedIs(s, h, t.files, Names(s, h), ByIndex);
    UsedIs(s, h, t.files, Names(s, h), ByData);
    if BadDev(t, d) {
      Quiet(s, h, Call(Putc(d, ch), r.out), t);
    } else if r.out != Panic {
      ByteWritten(s, h, t, d, ch, r.s);
    }
  }

  lemma SeekStep(s: Store, h: History, t: Store, d: nat, offset: nat, r: Result)
    requires Agrees(s, h, t) && r == DoSeek(t, d, offset)
    ensures Answer(s, h, Seek(d, offset), r.out) && Agrees(s, h + [Call(Seek(d, offset), r.out)], r.s)
  {
    DeviceFacts(s, h, t, d);
    if r.out == Ret(SYSERR) {
      Quiet(s, h, Call(Seek(d, offset), r.out), t);
    } else {
      Moved(s, h, Call(Seek(d, offset), r.out), t, d, offset, r.s);
    }
  }

  lemma EndStep(s: Store, h: History, t: Store, op: Op, r: Result)
    requires Agrees(s, h, t) && ((op.Truncate? && r == DoTruncate(t, op.dev)) || (op.Close? && r == DoClose(t, op.dev)))
    ensures Answer(s, h, op, r.out) && Agrees(s, h + [Call(op, r.out)], r.s)
  {
    DeviceFacts(s, h, t, op.dev);
    if BadDev(t, op.dev) {
      Quiet(s, h, Call(op, r.out), t);
    } else if op.Truncate? {
      Emptied(s, h, t, op.dev, r.s);
    } else {
      Shut(s, h, t, op.dev, r.s);
    }
  }

  lemma OpenStep(s: Store, h: History, t: Store, name: string, mode: Mode, r: Result)
    requires Agrees(s, h, t) && r == DoOpen(t, name, mode)
    ensures Answer(s, h, Open(name, mode), r.out) && Agrees(s, h + [Call(Open(name, mode), r.out)], r.s)
  {
    Known(s, h, t, name);
    OpenKnown(s, h, t, name);
    IdleKnown(s, h, t);
    if r.out == Ret(SYSERR) {
      Quiet(s, h, Call(Open(name, mode), r.out), t);
    } else {
      OpenedFile(s, h, t, name, mode, FreeDev(t.devs), Find(t.files, name), r.s);
    }
  }

  lemma OpenKnown(s: Store, h: History, t: Store, name: string)
    requires Agrees(s, h, t)
    ensures IsOpen(t, name) <==> OpenSomewhere(s, h, name)
  {
    forall d | 0 <= d < NLFL
      ensures (Session(s, h, d) == Some(name)) <==> (t.devs[d].Opened? && t.files[t.devs[d].file].name == name)
    {
      assert DeviceAgrees(s, h, t, d);
    }
  }

  lemma IdleKnown(s: Store, h: History, t: Store)
    requires Agrees(s, h, t)
    ensures FirstIdle(s, h, FreeDev(t.devs)) && forall d: nat :: FirstIdle(s, h, d) ==> d == FreeDev(t.devs)
  {
    forall d | 0 <= d < NLFL ensures t.devs[d].Opened? <==> Session(s, h, d) != None { assert DeviceAgrees(s, h, t, d); }
    forall d: nat | FirstIdle(s, h, d) ensures d == FreeDev(t.devs) {
    }
  }

  /** Every call gives the answer that the history asks for, and the history goes on to describe the store. */
  lemma Step(s: Store, h: History, t: Store, op: Op, r: Result)
    requires Agrees(s, h, t) && r == Do(t, op)
    ensures Answer(s, h, op, r.out) && (r.out != Panic ==> Agrees(s, h + [Call(op, r.out)], r.s))
  {
    match op
    case Open(name, mode) => OpenStep(s, h, t, name, mode, r);
    case Seek(d, offset) => SeekStep(s, h, t, d, offset, r);
    case Putc(d, ch) => PutcStep(s, h, t, d, ch, r);
    case Getc(d) => GetcStep(s, h, t, d, r);
    case Truncate(d) => EndStep(s, h, t, op, r);
    case Close(d) => EndStep(s, h, t, op, r);
  }

  // ----- whole runs

  /** The first `k` calls of a run with their results. */
  function Told(ops: seq<Op>, outs: seq<Out>, k: nat): History
    requires k <= |ops| && k <= |outs|
  {
    if k == 0 then [] else Told(ops, outs, k - 1) + [Call(ops[k - 1], outs[k - 1])]
  }

  lemma {:induction false} NamedAtFirst(s: Store, name: string)
    ensures Find(s.files, name) < |s.files| ==> Exists(s, [], name)
  {
    var k := Find(s.files, name);
    if k < |s.files| { assert Names(s, [])[k] == name; }
  }

  lemma {:induction false} Begins(s: Store)
    requires Fine(s) && Unique(s.files)
    ensures Agrees(s, [], s)
  {
    forall f | 0 <= f < |s.files| ensures FileAgrees(s, [], s.files[f]) && Find(s.files, s.files[f].name) == f {
      var k := Find(s.files, s.files[f].name);
      assert k <= f && s.files[k].name == s.files[f].name;
    }
    forall name | !Exists(s, [], name) ensures Size(s, [], name) == 0 {
      NamedAtFirst(s, name);
    }
  }

  /** The k-th result is that of the k-th call in the store after the calls before it. */
  lemma {:induction false} ResultAt(s: Store, ops: seq<Op>, k: nat)
    requires Fine(s) && k < |Run(s, ops)|
    ensures |Run(s, ops)| <= |ops| && Run(s, ops)[k] == Do(After(s, ops[..k]), ops[k]).out
    ensures After(s, ops[..k + 1]) == Do(After(s, ops[..k]), ops[k]).s
    ensures k + 1 < |Run(s, ops)| ==> Run(s, ops)[k] != Panic
    decreases k
  {
    RunNoLonger(s, ops);
    var r := Do(s, ops[0]);
    if k == 0 {
      assert ops[..1][1..] == [];
    } else {
      ResultAt(r.s, ops[1..], k - 1);
      assert ops[..k][1..] == ops[1..][..k - 1] && ops[..k + 1][1..] == ops[1..][..k];
    }
  }

  lemma {:induction false} RunNoLonger(s: Store, ops: seq<Op>)
    requires Fine(s)
    ensures |Run(s, ops)| <= |ops|
    decreases |ops|
  {
    if ops != [] { RunNoLonger(Do(s, ops[0]).s, ops[1..]); }
  }

  lemma {:induction false} Follows(s: Store, ops: seq<Op>, k: nat)
    requires Fine(s) && Unique(s.files) && k < |Run(s, ops)|
    ensures |Run(s, ops)| <= |ops| && Agrees(s, Told(ops, Run(s, ops), k), After(s, ops[..k]))
    decreases k
  {
    RunNoLonger(s, ops);
    if k == 0 {
      Begins(s);
    } else {
      Follows(s, ops, k - 1);
      ResultAt(s, ops, k - 1);
      var t := After(s, ops[..k - 1]);
      Step(s, Told(ops, Run(s, ops), k - 1), t, ops[k - 1], Do(t, ops[k - 1]));
    }
  }

  /**
    Every result of every run is determined by the calls and results before it: what
    is read is the byte last put there, the end of a file is where its last byte is,
    and calls are refused exactly when no file is open, the position lies outside, or
    a file may not be opened.
  */
  lemma {:induction false} ResultsFollow(s: Store, ops: seq<Op>, k: nat)
    requires Fine(s) && Unique(s.files) && k < |Run(s, ops)|
    ensures |Run(s, ops)| <= |ops| && Answer(s, Told(ops, Run(s, ops), k), ops[k], Run(s, ops)[k])
  {
    Follows(s, ops, k);
    ResultAt(s, ops, k);
    var t := After(s, ops[..k]);
    Step(s, Told(ops, Run(s, ops), k), t, ops[k], Do(t, ops[k]));
  }

  /** Each of the results is the one that the calls and results before it ask for. */
  ghost predicate Answered(s: Store, ops: seq<Op>, outs: seq<Out>)
    requires Fine(s)
  {
    |outs| <= |ops| && forall k :: 0 <= k < |outs| ==> Answer(s, Told(ops, outs, k), ops[k], outs[k])
  }

  lemma {:induction false} AllFollow(s: Store, ops: seq<Op>)
    requires Fine(s) && Unique(s.files)
    ensures Answered(s, ops, Run(s, ops))
  {
    RunNoLonger(s, ops);
    forall k | 0 <= k < |Run(s, ops)| ensures Answer(s, Told(ops, Run(s, ops), k), ops[k], Run(s, ops)[k]) {
      ResultsFollow(s, ops, k);
    }
  }
}
