/**
  The TFTP client's receiver (sections 2 and 6 of RFC 1350) over a network that may
  lose, duplicate and reorder packets, storing into several buffers in turn.
*/
module Tftp {
  import opened Common
  const MAXDATA := 512
  const MAXRETRIES := 3
  const MAXNAM := 64
  const DATA := 3
  const ERROR := 5

  /** What one receive call comes back with. */
  datatype Arrival = Packet(bytes: seq<Byte>) | NoPacket | BadReceive

  /** The next expected block, or why there is none; `Waiting` if nothing more has arrived so far. */
  datatype Reply = Block(bytes: seq<Byte>) | TimedOut | Failed | Waiting

  datatype Outcome = Returned(v: int) | StillWaiting

  // ----- packets, byte by byte

  /** A data packet with block number `b`: 3 and the number, both in two bytes, high byte first. */
  predicate IsBlock(a: Arrival, b: int) {
    && a.Packet? && |a.bytes| >= 4 && b >= 0
    && a.bytes[0] == 0 && a.bytes[1] == 3 && a.bytes[2] == b / 256 && a.bytes[3] == b % 256
  }

  predicate IsError(a: Arrival) { a.Packet? && |a.bytes| >= 4 && a.bytes[0] == 0 && a.bytes[1] == 5 }

  // ----- what the program makes of them

  function Word(hi: Byte, lo: Byte): int { 256 * hi + lo }

  function Opcode(p: seq<Byte>): int
    requires |p| >= 4
  {
    Word(p[0], p[1])
  }

  function BlockNo(p: seq<Byte>): int
    requires |p| >= 4
  {
    Word(p[2], p[3])
  }

  lemma HeaderBytes(p: seq<Byte>, b: int)
    requires |p| >= 4
    ensures Opcode(p) == DATA && BlockNo(p) == b <==> IsBlock(Packet(p), b)
    ensures Opcode(p) == ERROR <==> IsError(Packet(p))
  {
  }

  // ----- the file and the server

  /** The last block is shorter than 512 bytes, and empty if the length is a multiple of 512. */
  function Blocks(file: seq<Byte>): nat { |file| / 512 + 1 }

  function Piece(file: seq<Byte>, b: int): seq<Byte>
    requires 1 <= b <= Blocks(file)
  {
    file[512 * (b - 1)..if 512 * b <= |file| then 512 * b else |file|]
  }

  /** Data packets carry the piece of the file that their number names; other packets may hold anything. */
  ghost predicate Honest(file: seq<Byte>, a: Arrival) {
    a.Packet? && |a.bytes| >= 4 && a.bytes[0] == 0 && a.bytes[1] == 3 ==>
      exists b :: 1 <= b <= Blocks(file) && a.bytes[2] == b / 256 % 256 && a.bytes[3] == b % 256 && a.bytes[4..] == Piece(file, b)
  }

  ghost predicate HonestNet(file: seq<Byte>, net: seq<Arrival>) {
    Blocks(file) < 0x1_0000 && forall w :: Unfold(Goals, w) ==> forall i :: 0 <= i < |net| ==> Honest(file, net[i])
  }

  lemma ExpectedPiece(file: seq<Byte>, net: seq<Arrival>, i: nat, expected: int)
    requires HonestNet(file, net) && i < |net| && IsBlock(net[i], expected)
    ensures 1 <= expected <= Blocks(file) && net[i].bytes[4..] == Piece(file, expected)
  {
    assert Unfold(Goals, true);
    PieceOf(file, net[i], expected);
  }

  lemma PieceOf(file: seq<Byte>, a: Arrival, expected: int)
    requires Blocks(file) < 0x1_0000 && Honest(file, a) && IsBlock(a, expected)
    ensures 1 <= expected <= Blocks(file) && a.bytes[4..] == Piece(file, expected)
  {
    var b :| 1 <= b <= Blocks(file) && a.bytes[2] == b / 256 % 256 && a.bytes[3] == b % 256 && a.bytes[4..] == Piece(file, b);
    SameNumber(b, expected);
  }

  lemma SameNumber(b: int, e: int)
    requires 0 <= b < 0x1_0000 && 0 <= e && b / 256 % 256 == e / 256 && b % 256 == e % 256
    ensures b == e
  {
    assert b / 256 < 256;
    assert b == 256 * (b / 256) + b % 256 && e == 256 * (e / 256) + e % 256;
  }

  /** A failure to receive, an error packet, or one timeout too many for this block. */
  predicate Fatal(a: Arrival, tries: nat) {
    a == BadReceive || IsError(a) || (a == NoPacket && tries + 1 >= 3)
  }

  /**
    How many blocks, from number `b` on, can be picked in order from the arrivals
    before a fatal one, where `tries` requests for block `b` have timed out.
  */
  function Matched(net: seq<Arrival>, at: nat, b: int, tries: nat): nat
    requires at <= |net|
    decreases |net| - at
  {
    if at == |net| || Fatal(net[at], tries) then 0
    else if IsBlock(net[at], b) then 1 + Matched(net, at + 1, b + 1, 0)
    else Matched(net, at + 1, b, if net[at] == NoPacket then tries + 1 else tries)
  }

  /** There is a fatal arrival. */
  predicate Breaks(net: seq<Arrival>, at: nat, b: int, tries: nat)
    requires at <= |net|
    decreases |net| - at
  {
    at < |net|
    && (|| Fatal(net[at], tries)
        || if IsBlock(net[at], b) then Breaks(net, at + 1, b + 1, 0)
           else Breaks(net, at + 1, b, if net[at] == NoPacket then tries + 1 else tries))
  }

  /** From here on both are the same as from there. */
  ghost predicate SameFate(net: seq<Arrival>, at: nat, b: int, tries: nat, at': nat, b': int, tries': nat, blocks: nat)
    requires at <= |net| && at' <= |net|
  {
    (&& Matched(net, at, b, tries) == blocks + Matched(net, at', b', tries')
     && Breaks(net, at, b, tries) == Breaks(net, at', b', tries')) == true
  }

  /** What a request must come back with. */
  ghost predicate Picked(net: seq<Arrival>, at: nat, b: int, tries: nat, r: Reply, next: nat)
    requires at <= |net| && next <= |net|
  {
    match r
    case Block(_) => SameFate(net, at, b, tries, next, b + 1, 0, 1)
    case Waiting => Matched(net, at, b, tries) == 0 && !Breaks(net, at, b, tries)
    case Failed => Matched(net, at, b, tries) == 0 && Breaks(net, at, b, tries)
    case TimedOut =>
      if tries + 1 >= 3 then Matched(net, at, b, tries) == 0 && Breaks(net, at, b, tries)
      else SameFate(net, at, b, tries, next, b, tries + 1, 0)
  }

  // ----- the buffers

  function Concat(bufs: seq<seq<Byte>>, n: nat): seq<Byte>
    requires n <= |bufs|
  {
    if n == 0 then [] else Concat(bufs, n - 1) + bufs[n - 1]
  }

  function Total(sizes: seq<nat>, n: nat): nat
    requires n <= |sizes|
  {
    if n == 0 then 0 else Total(sizes, n - 1) + sizes[n - 1]
  }

  ghost predicate Sized(bufs: seq<seq<Byte>>, sizes: seq<nat>) {
    |bufs| == |sizes| && forall i :: 0 <= i < |bufs| ==> |bufs[i]| == sizes[i] > 0
  }

  /** The bytes stored so far: all buffers before `ind`, then the used part of that one. */
  function Laid(bufs: seq<seq<Byte>>, ind: nat, used: nat): seq<Byte>
    requires ind < |bufs| && used <= |bufs[ind]|
  {
    Concat(bufs, ind) + bufs[ind][..used]
  }

  lemma {:induction false} ConcatSame(bufs: seq<seq<Byte>>, other: seq<seq<Byte>>, n: nat)
    requires n <= |bufs| == |other| && forall i :: 0 <= i < n ==> bufs[i] == other[i]
    ensures Concat(bufs, n) == Concat(other, n)
  {
    if n > 0 { ConcatSame(bufs, other, n - 1); }
  }

  lemma {:induction false} ConcatLength(bufs: seq<seq<Byte>>, sizes: seq<nat>, n: nat)
    requires Sized(bufs, sizes) && n <= |bufs|
    ensures |Concat(bufs, n)| == Total(sizes, n)
  {
    if n > 0 { ConcatLength(bufs, sizes, n - 1); }
  }

  lemma {:induction false} TotalGrows(sizes: seq<nat>, i: nat, j: nat)
    requires i <= j <= |sizes|
    ensures Total(sizes, i) <= Total(sizes, j)
    decreases j
  {
    if i < j { TotalGrows(sizes, i, j - 1); }
  }

  lemma LaidMore(bufs: seq<seq<Byte>>, ind: nat, used: nat, b: Byte, buf: seq<Byte>)
    requires ind < |bufs| && used < |bufs[ind]| && buf == bufs[ind][used := b]
    ensures Laid(bufs[ind := buf], ind, used + 1) == Laid(bufs, ind, used) + [b]
  {
    ConcatSame(bufs, bufs[ind := buf], ind);
    assert buf[..used + 1] == bufs[ind][..used] + [b];
  }

  // ----- one request

  /**
    Discards everything but the expected block. `sent` is whether the request could be
    sent, and `tries` how many requests for this block have timed out before.
  */
  method Send1(net: seq<Arrival>, at: nat, sent: bool, expected: int, ghost tries: nat) returns (r: Reply, next: nat)
    requires at <= |net|
    ensures at <= next <= |net|
    ensures r.Block? ==> at < next && net[next - 1] == Packet(r.bytes) && IsBlock(net[next - 1], expected)
    ensures if sent then Picked(net, at, expected, tries, r, next) else r == Failed
  {
    next := at;
    if !sent { return Failed, next; }
    while next < |net|
      invariant at <= next <= |net| && SameFate(net, at, expected, tries, next, expected, tries, 0)
    {
      var a := net[next];
      next := next + 1;
      if a == BadReceive { return Failed, next; }
      if a == NoPacket { return TimedOut, next; }
      if |a.bytes| < 4 { continue; }
      HeaderBytes(a.bytes, expected);
      if Opcode(a.bytes) == ERROR { return Failed, next; }
      if Opcode(a.bytes) == DATA && BlockNo(a.bytes) == expected { return Block(a.bytes), next; }
    }
    return Waiting, next;
  }

  /** Retransmits the request up to three times; `sends(k)` says whether the k-th transmission succeeds. */
  method Request(net: seq<Arrival>, at: nat, sends: nat -> bool, k: nat, expected: int)
    returns (r: Reply, next: nat, k': nat)
    requires at <= |net|
    ensures at <= next <= |net| && !r.TimedOut?
    ensures r.Block? ==> at < next && net[next - 1] == Packet(r.bytes) && IsBlock(net[next - 1], expected)
    ensures (forall n :: sends(n)) ==> Picked(net, at, expected, 0, r, next)
  {
    next, k' := at, k;
    var i := 0;
    while i < MAXRETRIES
      invariant 0 <= i <= MAXRETRIES && at <= next <= |net|
      invariant (forall n :: sends(n)) ==>
                  if i < MAXRETRIES then SameFate(net, at, expected, 0, next, expected, i, 0) else Picked(net, at, expected, 0, Failed, next)
    {
      r, next := Send1(net, next, sends(k'), expected, i);
      k' := k' + 1;
      if r != TimedOut { return; }
      i := i + 1;
    }
    return Failed, next, k';
  }

  // ----- storing a block

  /** Byte by byte into the buffers; stops when a byte must be stored and no buffer is left. */
  method Store(data: seq<Byte>, bufs0: seq<seq<Byte>>, sizes: seq<nat>, ind0: nat, used0: nat)
    returns (full: bool, bufs: seq<seq<Byte>>, ind: nat, used: nat, stored: nat)
    requires Sized(bufs0, sizes) && ind0 < |sizes| && used0 <= sizes[ind0]
    ensures Sized(bufs, sizes) && ind < |sizes| && used <= sizes[ind] && stored <= |data|
    ensures Laid(bufs, ind, used) == Laid(bufs0, ind0, used0) + data[..stored]
    ensures if full then stored < |data| && |Laid(bufs, ind, used)| == Total(sizes, |sizes|) else stored == |data|
  {
    bufs, ind, used, full, stored := bufs0, ind0, used0, false, 0;
    while stored < |data|
      invariant Sized(bufs, sizes) && ind < |sizes| && used <= sizes[ind] && stored <= |data| && !full
      invariant Laid(bufs, ind, used) == Laid(bufs0, ind0, used0) + data[..stored]
    {
      if used >= sizes[ind] {
        if ind + 1 >= |sizes| {
          ConcatLength(bufs, sizes, ind);
          full := true;
          return;
        }
        assert Laid(bufs, ind + 1, 0) == Laid(bufs, ind, used);
        ind, used := ind + 1, 0;
      }
      var buf: seq<Byte> := bufs[ind][used := data[stored]];
      LaidMore(bufs, ind, used, data[stored], buf);
      bufs := bufs[ind := buf];
      used, stored := used + 1, stored + 1;
    }
  }

  // ----- the whole transfer

  /** The first `k` blocks of the file are stored, and they are full. */
  ghost predicate Progress(file: seq<Byte>, bufs: seq<seq<Byte>>, sizes: seq<nat>, ind: nat, used: nat, k: nat) {
    (&& Sized(bufs, sizes) && ind < |sizes| && used <= sizes[ind]
     && MAXDATA * k <= |file| && Laid(bufs, ind, used) == file[..MAXDATA * k]) == true
  }

  lemma NextPiece(file: seq<Byte>, k: nat, data: seq<Byte>, n: nat)
    requires MAXDATA * k <= |file| && k + 1 <= Blocks(file) && data == Piece(file, k + 1) && n <= |data|
    ensures MAXDATA * k + n <= |file| && file[..MAXDATA * k] + data[..n] == file[..MAXDATA * k + n]
    ensures |data| == MAXDATA ==> MAXDATA * (k + 1) <= |file|
    ensures |data| < MAXDATA ==> MAXDATA * k + |data| == |file|
    ensures |data| <= MAXDATA
  {
  }

  lemma {:induction false} LaidFits(bufs: seq<seq<Byte>>, sizes: seq<nat>, ind: nat, used: nat)
    requires Sized(bufs, sizes) && ind < |sizes| && used <= sizes[ind]
    ensures |Laid(bufs, ind, used)| <= Total(sizes, |sizes|)
  {
    ConcatLength(bufs, sizes, ind);
    TotalGrows(sizes, ind + 1, |sizes|);
  }

  function AtMost(m: nat, n: nat): nat { if n <= m then n else m }

  predicate GoodArguments(name: string, serverip: int, sizes: seq<nat>) {
    serverip != 0 && |sizes| > 0 && 0 < |name| <= 64 && forall i :: 0 <= i < |sizes| ==> sizes[i] > 0
  }

  /**
    `net` is what has arrived so far. At any time the bytes stored are a prefix of
    the file; a return without error means the whole file, or as much of a longer
    file as the buffers hold. If every transmission succeeds it stores every block
    that can be picked in order before a fatal arrival, which is a failure, an error
    packet or the third timeout for one block; it returns an error exactly if such an
    arrival comes before all is stored, and otherwise waits exactly for what is missing.
  */
  method TftpGet(name: string, serverip: int, net: seq<Arrival>, registered: bool, sends: nat -> bool,
                 bufs0: seq<seq<Byte>>, sizes: seq<nat>, ghost file: seq<Byte>)
    returns (out: Outcome, bufs: seq<seq<Byte>>, filesiz: nat)
    requires |bufs0| == |sizes| && (forall i :: 0 <= i < |sizes| ==> |bufs0[i]| == sizes[i]) && HonestNet(file, net)
    ensures |bufs| == |sizes| && filesiz <= |file| && filesiz <= |Concat(bufs, |bufs|)|
    ensures Concat(bufs, |bufs|)[..filesiz] == file[..filesiz]
    ensures out.Returned? && out.v != SYSERR ==> out.v == filesiz
    ensures out.Returned? && out.v != SYSERR ==>
              filesiz == if |file| <= Total(sizes, |sizes|) then |file| else Total(sizes, |sizes|)
    ensures !(GoodArguments(name, serverip, sizes) && registered) ==> out == Returned(SYSERR)
    ensures GoodArguments(name, serverip, sizes) && registered && (forall n :: sends(n)) ==>
              var m, total := Matched(net, 0, 1, 0), Total(sizes, |sizes|);
              && filesiz == AtMost(total, AtMost(|file|, MAXDATA * m))
              && out == (if m >= Blocks(file) || MAXDATA * m > total then Returned(filesiz)
                         else if Breaks(net, 0, 1, 0) then Returned(SYSERR) else StillWaiting)
  {
    bufs, filesiz := bufs0, 0;
    var i := 0;
    if serverip == 0 || |sizes| == 0 { return Returned(SYSERR), bufs, filesiz; }
    while i < |sizes|
      invariant 0 <= i <= |sizes| && forall j :: 0 <= j < i ==> sizes[j] > 0
    {
      if sizes[i] == 0 { return Returned(SYSERR), bufs, filesiz; }
      i := i + 1;
    }
    if |name| <= 0 || |name| > MAXNAM { return Returned(SYSERR), bufs, filesiz; }
    if !registered { return Returned(SYSERR), bufs, filesiz; }
    out, bufs, filesiz := Transfer(net, sends, bufs, sizes, file);
  }

  /** The buffers laid end to end begin with the first `n` bytes of the file. */
  ghost predicate HoldsPrefix(file: seq<Byte>, bufs: seq<seq<Byte>>, n: nat) {
    (n <= |file| && n <= |Concat(bufs, |bufs|)| && Concat(bufs, |bufs|)[..n] == file[..n]) == true
  }

  /**
    How a transfer of a file of `size` bytes into `total` bytes of buffers can stand:
    a return without error has stored all that fits, and if nothing goes wrong (`calm`)
    everything is stored that the first `m` blocks give; `ends` says that a failure
    comes behind them.
  */
  ghost predicate Settles(calm: bool, ends: bool, m: nat, size: nat, total: nat, out: Outcome, filesiz: nat) {
    (&& (out.Returned? && out.v != SYSERR ==> out.v == filesiz == AtMost(total, size))
     && (calm ==> filesiz == AtMost(total, AtMost(size, MAXDATA * m)))
     && (calm ==> out == if m >= size / MAXDATA + 1 || MAXDATA * m > total then Returned(filesiz)
                         else if ends then Returned(SYSERR) else StillWaiting)) == true
  }

  lemma SettlesWaiting(calm: bool, ends: bool, m: nat, size: nat, total: nat, n: nat)
    requires (calm ==> m == n && !ends) && MAXDATA * n <= size && MAXDATA * n <= total
    ensures Settles(calm, ends, m, size, total, StillWaiting, MAXDATA * n)
  {
  }

  lemma SettlesFailed(calm: bool, ends: bool, m: nat, size: nat, total: nat, n: nat, filesiz: nat)
    requires calm ==> m == n && ends && filesiz == MAXDATA * n && MAXDATA * n <= size && MAXDATA * n <= total
    ensures Settles(calm, ends, m, size, total, Returned(SYSERR), filesiz)
  {
  }

  lemma SettlesDone(calm: bool, ends: bool, m: nat, size: nat, total: nat, n: nat, filesiz: nat)
    requires (calm ==> m > n) && filesiz == AtMost(total, size) && MAXDATA * n <= filesiz < MAXDATA * n + MAXDATA
    ensures Settles(calm, ends, m, size, total, Returned(filesiz), filesiz)
  {
  }

  method Transfer(net: seq<Arrival>, sends: nat -> bool, bufs0: seq<seq<Byte>>, sizes: seq<nat>, ghost file: seq<Byte>)
    returns (out: Outcome, bufs: seq<seq<Byte>>, filesiz: nat)
    requires Sized(bufs0, sizes) && |sizes| > 0 && HonestNet(file, net)
    ensures Sized(bufs, sizes) && HoldsPrefix(file, bufs, filesiz)
    ensures Settles(forall n :: sends(n), Breaks(net, 0, 1, 0), Matched(net, 0, 1, 0), |file|, Total(sizes, |sizes|), out, filesiz)
  {
    out := StillWaiting;
    var t := Session(bufs0, 0, 0, 0, 0, 1, 0);
    var done := false;
    ghost var blocks := 0;
    ghost var calm, ends, m := forall n :: sends(n), Breaks(net, 0, 1, 0), Matched(net, 0, 1, 0);
    while !done
      invariant done ==> Sized(t.bufs, sizes) && HoldsPrefix(file, t.bufs, t.filesiz)
      invariant done ==> Settles(calm, ends, m, |file|, Total(sizes, |sizes|), out, t.filesiz)
      invariant !done ==> Underway(t, net, sizes, file, blocks, calm, ends, m)
      decreases |net| - t.at, !done
    {
      done, out, t := Round(t, net, sends, sizes, file, blocks, calm, ends, m);
      blocks := blocks + 1;
    }
    bufs, filesiz := t.bufs, t.filesiz;
  }

  /** The variables of the transfer loop; `at` counts arrivals and `k` transmissions. */
  datatype Session = Session(bufs: seq<seq<Byte>>, ind: nat, used: nat, at: nat, k: nat, expected: int, filesiz: nat)

  ghost predicate Underway(t: Session, net: seq<Arrival>, sizes: seq<nat>, file: seq<Byte>, blocks: nat, calm: bool, ends: bool,
                           m: nat) {
    && t.at <= |net| && t.expected == blocks + 1 && t.filesiz == MAXDATA * blocks
    && Progress(file, t.bufs, sizes, t.ind, t.used, blocks)
    && (calm ==> m == blocks + Matched(net, t.at, t.expected, 0) && ends == Breaks(net, t.at, t.expected, 0))
  }

  /** One turn of the loop: request, wait for the expected block, store it. */
  method Round(t: Session, net: seq<Arrival>, sends: nat -> bool, sizes: seq<nat>, ghost file: seq<Byte>, ghost blocks: nat,
               ghost calm: bool, ghost ends: bool, ghost m: nat)
    returns (done: bool, out: Outcome, u: Session)
    requires HonestNet(file, net) && calm == (forall n :: sends(n)) && Underway(t, net, sizes, file, blocks, calm, ends, m)
    ensures t.at <= u.at <= |net| && (!done ==> t.at < u.at)
    ensures done ==> Sized(u.bufs, sizes) && HoldsPrefix(file, u.bufs, u.filesiz)
    ensures done ==> Settles(calm, ends, m, |file|, Total(sizes, |sizes|), out, u.filesiz)
    ensures !done ==> Underway(u, net, sizes, file, blocks + 1, calm, ends, m)
  {
    ghost var total := Total(sizes, |sizes|);
    var r, at, k := Request(net, t.at, sends, t.k, t.expected);
    Prefix(file, t.bufs, sizes, t.ind, t.used, blocks);
    u := t.(at := at, k := k);
    if r == Waiting {
      SettlesWaiting(calm, ends, m, |file|, total, blocks);
      return true, StillWaiting, u;
    }
    if r == Failed {
      SettlesFailed(calm, ends, m, |file|, total, blocks, t.filesiz);
      return true, Returned(SYSERR), u;
    }
    ExpectedPiece(file, net, at - 1, t.expected);
    var more, bufs, ind, used, filesiz := TakeBlock(r.bytes[4..], t.bufs, sizes, t.ind, t.used, t.filesiz, file, blocks);
    u := Session(bufs, ind, used, at, k, (t.expected + 1) % 0x1_0000, filesiz);
    if more == More { return false, StillWaiting, u; }
    SettlesDone(calm, ends, m, |file|, total, blocks, filesiz);
    if more == Last && !sends(k) {
      SettlesFailed(false, ends, m, |file|, total, blocks, filesiz);
      return true, Returned(SYSERR), u;
    }
    return true, Returned(filesiz), u;
  }

  /** What follows a block: no room is left, or it was the last one, or more blocks come. */
  datatype Follows = NoRoom | Last | More

  /** Stores the next block: the buffers are full, or more blocks follow, or the file is complete. */
  method TakeBlock(data: seq<Byte>, bufs0: seq<seq<Byte>>, sizes: seq<nat>, ind0: nat, used0: nat, size0: nat,
                   ghost file: seq<Byte>, ghost blocks: nat)
    returns (more: Follows, bufs: seq<seq<Byte>>, ind: nat, used: nat, filesiz: nat)
    requires Progress(file, bufs0, sizes, ind0, used0, blocks) && blocks < Blocks(file) && data == Piece(file, blocks + 1)
    requires size0 == MAXDATA * blocks
    ensures Sized(bufs, sizes) && HoldsPrefix(file, bufs, filesiz)
    ensures more != More ==> filesiz == AtMost(Total(sizes, |sizes|), |file|) && size0 <= filesiz < size0 + MAXDATA
    ensures more == NoRoom ==> filesiz < |file|
    ensures more == More ==> Progress(file, bufs, sizes, ind, used, blocks + 1) && filesiz == MAXDATA * (blocks + 1)
  {
    var full, stored;
    full, bufs, ind, used, stored := Store(data, bufs0, sizes, ind0, used0);
    filesiz := size0 + stored;
    more := if full then NoRoom else if |data| < MAXDATA then Last else More;
    NextPiece(file, blocks, data, stored);
    LaidPrefix(bufs, sizes, ind, used);
    LaidFits(bufs, sizes, ind, used);
  }

  lemma {:induction false} Prefix(file: seq<Byte>, bufs: seq<seq<Byte>>, sizes: seq<nat>, ind: nat, used: nat, k: nat)
    requires Progress(file, bufs, sizes, ind, used, k)
    ensures HoldsPrefix(file, bufs, MAXDATA * k) && MAXDATA * k <= Total(sizes, |sizes|) && k < Blocks(file)
  {
    LaidPrefix(bufs, sizes, ind, used);
    LaidFits(bufs, sizes, ind, used);
  }

  /** What is laid out so far is a prefix of all the buffers end to end. */
  lemma {:induction false} LaidPrefix(bufs: seq<seq<Byte>>, sizes: seq<nat>, ind: nat, used: nat)
    requires Sized(bufs, sizes) && ind < |sizes| && used <= sizes[ind]
    ensures Laid(bufs, ind, used) <= Concat(bufs, |bufs|)
  {
    ConcatPrefix(bufs, ind + 1, |bufs|);
    assert Laid(bufs, ind, used) <= Concat(bufs, ind + 1);
  }

  lemma {:induction false} ConcatPrefix(bufs: seq<seq<Byte>>, i: nat, j: nat)
    requires i <= j <= |bufs|
    ensures Concat(bufs, i) <= Concat(bufs, j)
    decreases j
  {
    if i < j { ConcatPrefix(bufs, i, j - 1); }
  }

  // ----- given packets

  /** The first `n` blocks of the file as they come from a server, one after another. */
  function InOrder(file: seq<Byte>, n: nat): (net: seq<Arrival>)
    requires n <= Blocks(file) < 0x1_0000
    ensures |net| == n
  {
    seq(n, i requires 0 <= i < n => Packet([0, 3, (i + 1) / 256, (i + 1) % 256] + Piece(file, i + 1)))
  }

  lemma InOrderAt(file: seq<Byte>, n: nat, i: nat)
    requires i < n <= Blocks(file) < 0x1_0000
    ensures var a := InOrder(file, n)[i]; IsBlock(a, i + 1) && !Fatal(a, 0) && Honest(file, a)
  {
    var a, b := InOrder(file, n)[i], i + 1;
    assert a.bytes[4..] == Piece(file, b);
  }

  lemma {:induction false} InOrderFate(file: seq<Byte>, n: nat, net: seq<Arrival>, at: nat)
    requires at <= n <= Blocks(file) < 0x1_0000 && n <= |net| && net[..n] == InOrder(file, n)
    ensures SameFate(net, at, at + 1, 0, n, n + 1, 0, n - at)
    ensures forall i :: at <= i < n ==> Honest(file, net[i])
    decreases n - at
  {
    if at < n {
      InOrderAt(file, n, at);
      assert net[at] == net[..n][at];
      InOrderFate(file, n, net, at + 1);
    }
  }

  /** A server that sends every block once and in order: the file is stored, and its length returned. */
  method ReceiveAll(name: string, serverip: int, file: seq<Byte>, bufs0: seq<seq<Byte>>, sizes: seq<nat>)
    returns (out: Outcome, bufs: seq<seq<Byte>>)
    requires |bufs0| == |sizes| && (forall i :: 0 <= i < |sizes| ==> |bufs0[i]| == sizes[i])
    requires GoodArguments(name, serverip, sizes) && Blocks(file) < 0x1_0000 && |file| <= Total(sizes, |sizes|)
    ensures out == Returned(|file|) && file <= Concat(bufs, |bufs|)
  {
    var net, n := InOrder(file, Blocks(file)), Blocks(file);
    assert net[..n] == net;
    InOrderFate(file, n, net, 0);
    var filesiz;
    out, bufs, filesiz := TftpGet(name, serverip, net, true, _ => true, bufs0, sizes, file);
    assert file[..filesiz] == file;
  }

  /** An error packet, whatever it says and whatever follows, ends the transfer with an error. */
  method ReceiveError(name: string, serverip: int, file: seq<Byte>, n: nat, text: seq<Byte>, later: seq<Arrival>,
                      bufs0: seq<seq<Byte>>, sizes: seq<nat>)
    returns (out: Outcome, bufs: seq<seq<Byte>>, filesiz: nat)
    requires |bufs0| == |sizes| && (forall i :: 0 <= i < |sizes| ==> |bufs0[i]| == sizes[i])
    requires GoodArguments(name, serverip, sizes) && n < Blocks(file) < 0x1_0000 && MAXDATA * n <= Total(sizes, |sizes|)
    requires |text| >= 2 && forall i :: 0 <= i < |later| ==> Honest(file, later[i])
    ensures out == Returned(SYSERR) && filesiz == MAXDATA * n <= |file| && file[..MAXDATA * n] <= Concat(bufs, |bufs|)
  {
    var net := InOrder(file, n) + [Packet([0, 5] + text)] + later;
    assert net[..n] == InOrder(file, n) && IsError(net[n]);
    InOrderFate(file, n, net, 0);
    assert forall i :: n < i < |net| ==> net[i] == later[i - n - 1];
    out, bufs, filesiz := TftpGet(name, serverip, net, true, _ => true, bufs0, sizes, file);
  }
}
