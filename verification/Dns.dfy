/** Domain names in DNS messages (sections 3.1 and 4.1.4 of RFC 1035): building a question and reading a name. */
module Dns {
  import opened Common
  const DATASIZ := 500
  const HEADER := 12            // bytes of a packet before the data area
  const SYSERR := 0xffff_ffff   // as an unsigned result
  const MAXLABEL := 63

  const DOT: Byte := '.' as int

  type Label = seq<Byte>

  // ----- names and labels

  /** The labels of a dotted name; the last one is what follows the last dot. */
  function Split(name: seq<Byte>): (ls: seq<Label>)
    ensures ls != []
  {
    if name == [] then [[]]
    else
      var n := |name| - 1;
      var ls := Split(name[..n]);
      if name[n] == DOT then ls + [[]] else ls[|ls| - 1 := ls[|ls| - 1] + [name[n]]]
  }

  /** Every label followed by a dot. */
  function Dotted(ls: seq<Label>): seq<Byte> {
    if ls == [] then [] else Dotted(ls[..|ls| - 1]) + ls[|ls| - 1] + [DOT]
  }

  /** Every label preceded by its length, which is kept in one byte. */
  function Encoded(ls: seq<Label>): seq<Byte> {
    if ls == [] then [] else Encoded(ls[..|ls| - 1]) + [|ls[|ls| - 1]| % 256] + ls[|ls| - 1]
  }

  lemma {:induction false} DottedMore(ls: seq<Label>, l: Label)
    ensures Dotted(ls + [l]) == Dotted(ls) + l + [DOT]
  {
    assert (ls + [l])[..|ls|] == ls;
  }

  lemma {:induction false} EncodedMore(ls: seq<Label>, l: Label)
    ensures Encoded(ls + [l]) == Encoded(ls) + [|l| % 256] + l
  {
    assert (ls + [l])[..|ls|] == ls;
  }

  lemma SameButLast(a: seq<Byte>, b: seq<Byte>, c: Byte)
    requires a + [c] == b + [c]
    ensures a == b
  {
    assert (a + [c])[..|a|] == a && (b + [c])[..|b|] == b;
  }

  lemma EmptyName()
    ensures Dotted(Split([])) == [DOT] && Encoded(Split([])) == [0] && |Split([])| == 1
  {
    var none: Label := [];
    DottedMore([], none);
    EncodedMore([], none);
    assert [] + [none] == Split([]);
  }

  /** How the labels of a name with one more character differ from before. */
  lemma {:induction false} SplitMore(name: seq<Byte>, c: Byte)
    ensures var ls, ms := Split(name), Split(name + [c]);
            var m := |ls| - 1;
            ls == ls[..m] + [ls[m]] && ms == if c == DOT then ls + [[]] else ls[..m] + [ls[m] + [c]]
  {
    assert (name + [c])[..|name|] == name;
  }

  lemma {:induction false} DottedSplit(name: seq<Byte>)
    ensures Dotted(Split(name)) == name + [DOT]
  {
    if name == [] {
      EmptyName();
    } else {
      var n := |name| - 1;
      var ls := Split(name[..n]);
      DottedSplit(name[..n]);
      var m := |ls| - 1;
      assert name == name[..n] + [name[n]];
      SplitMore(name[..n], name[n]);
      DottedMore(ls[..m], ls[m]);
      if name[n] == DOT {
        DottedMore(ls, []);
      } else {
        DottedMore(ls[..m], ls[m] + [name[n]]);
        SameButLast(Dotted(ls[..m]) + ls[m], name[..n], DOT);
        assert Dotted(ls[..m]) + (ls[m] + [name[n]]) == name;
      }
    }
  }

  /** A dot per label in the name, a length per label in the packet. */
  lemma {:induction false} EncodedLength(ls: seq<Label>)
    ensures |Encoded(ls)| == |Dotted(ls)|
  {
    if ls != [] { EncodedLength(ls[..|ls| - 1]); }
  }

  lemma {:induction false} DottedJoin(a: seq<Label>, b: seq<Label>)
    ensures Dotted(a + b) == Dotted(a) + Dotted(b)
    decreases |b|
  {
    if b == [] {
      assert a + b == a;
    } else {
      var n := |b| - 1;
      assert a + b == (a + b[..n]) + [b[n]];
      DottedMore(a + b[..n], b[n]);
      DottedJoin(a, b[..n]);
    }
  }

  // ----- building a question

  /** What has been built for a part of the name: complete labels, and the label in progress at `ll`. */
  ghost predicate Built(name: seq<Byte>, data: seq<Byte>, ll: nat) {
    (&& |data| == |name| + 1 && ll < |data|
     && forall w :: Unfold(Labels, w) ==> var ls := Split(name); data == Encoded(ls) && ll == |Encoded(ls[..|ls| - 1])|) == true
  }

  lemma BuiltStart()
    ensures Built([], [0], 0)
  {
    EmptyName();
    assert Split([])[..0] == [];
  }

  lemma {:induction false} BuiltDone(name: seq<Byte>, data: seq<Byte>, ll: nat, end: seq<Byte>)
    requires Built(name, data, ll)
    ensures data + [0] + end == Encoded(Split(name)) + [0] + end
  {
    assert Unfold(Labels, true);
  }

  lemma BuiltDot(name: seq<Byte>, data: seq<Byte>, ll: nat)
    requires Built(name, data, ll)
    ensures Built(name + [DOT], data + [0], |data|)
  {
    assert Unfold(Labels, true);
    var ls := Split(name);
    var none: Label := [];
    SplitMore(name, DOT);
    assert Split(name + [DOT]) == ls + [none] && (ls + [none])[..|ls|] == ls;
    EncodedMore(ls, none);
    assert data + [0] + none == data + [0];
  }

  lemma BuiltChar(name: seq<Byte>, data: seq<Byte>, ll: nat, c: Byte, count: int)
    requires Built(name, data, ll) && c != DOT && count == (data[ll] as int + 1) % 256
    ensures Built(name + [c], (data + [c])[ll := count], ll)
  {
    assert Unfold(Labels, true);
    var ls := Split(name);
    var m := |ls| - 1;
    SplitMore(name, c);
    LabelGrows(ls[..m], ls[m], c, data, ll, count);
    assert Split(name + [c])[..m] == ls[..m];
  }

  lemma NextCount(n: nat)
    ensures (n % 256 + 1) % 256 == (n + 1) % 256
  {
  }

  lemma {:induction false} LabelGrows(front: seq<Label>, l: Label, c: Byte, data: seq<Byte>, ll: nat, count: int)
    requires data == Encoded(front + [l]) && ll == |Encoded(front)| < |data| && count == (data[ll] as int + 1) % 256
    ensures (data + [c])[ll := count] == Encoded(front + [l + [c]])
  {
    EncodedMore(front, l);
    EncodedMore(front, l + [c]);
    var e, x := Encoded(front), |l| % 256;
    NextCount(|l|);
    assert data == e + [x] + l && data[ll] == x && count == |l + [c]| % 256;
    Bump(e, x, l, c, count);
  }

  lemma Bump(a: seq<Byte>, x: Byte, l: seq<Byte>, c: Byte, y: Byte)
    ensures (a + [x] + l + [c])[|a| := y] == a + [y] + (l + [c])
  {
  }

  /** A character goes into the label in progress; a dot starts a new one. */
  method AddChar(name: seq<Byte>, i: nat, data0: seq<Byte>, ll0: nat) returns (data: seq<Byte>, ll: nat)
    requires i < |name| && Built(name[..i], data0, ll0)
    ensures Built(name[..i + 1], data, ll)
  {
    data, ll := data0, ll0;
    assert name[..i + 1] == name[..i] + [name[i]];
    if name[i] != DOT {
      var count: int := (data[ll] as int + 1) % 256;
      BuiltChar(name[..i], data, ll, name[i], count);
      data := data + [name[i]];
      data := data[ll := count];
    } else {
      BuiltDot(name[..i], data, ll);
      ll := |data|;
      data := data + [0];
    }
  }

  /** The question section for a name: the encoded name, an end mark, type A and class IN. */
  method BuildQuestion(name: seq<Byte>) returns (qlen: int, data: seq<Byte>)
    ensures |name| >= DATASIZ ==> qlen == SYSERR
    ensures |name| < DATASIZ ==> data == Encoded(Split(name)) + [0] + [0, 1, 0, 1] && qlen == HEADER + |data|
    ensures |name| < DATASIZ ==> |data| == |name| + 6
  {
    var ll: nat := 0;
    data := [0];
    var len := 1;
    BuiltStart();
    assert name[..0] == [];
    var i := 0;
    while i < |name|
      invariant 0 <= i <= |name| && len == i + 1 && i < DATASIZ && Built(name[..i], data, ll)
    {
      if len >= DATASIZ { return SYSERR, data; }
      data, ll := AddChar(name, i, data, ll);
      len := len + 1;
      i := i + 1;
    }
    assert name[..|name|] == name;
    BuiltDone(name, data, ll, [0, 1, 0, 1]);
    data := data + [0];
    data := data + [0, 1];
    data := data + [0, 1];
    qlen := HEADER + len + 5;
  }

  /** The question fits the data area exactly for names of up to 494 characters, though up to 499 are accepted. */
  lemma {:induction false} QuestionFits(name: seq<Byte>)
    ensures |Encoded(Split(name)) + [0] + [0, 1, 0, 1]| <= DATASIZ <==> |name| <= 494
  {
    DottedSplit(name);
    EncodedLength(Split(name));
  }

  // ----- reading a name

  function Offset(hi: Byte, lo: Byte): int { (256 * hi + lo) % 0x4000 }

  /** Where the labels from `pos` on stop: at a zero length, at a pointer, or behind the packet. */
  function StopAt(pkt: seq<Byte>, pos: nat): (s: nat)
    ensures s >= pos
    decreases |pkt| - pos
  {
    if pos < |pkt| && 0 < pkt[pos] <= MAXLABEL then StopAt(pkt, pos + 1 + pkt[pos]) else pos
  }

  predicate EndsAt(pkt: seq<Byte>, s: nat) { s < |pkt| && pkt[s] == 0 }

  predicate PointsAt(pkt: seq<Byte>, s: nat) { s + 1 < |pkt| && pkt[s] > MAXLABEL }

  function Target(pkt: seq<Byte>, s: nat): nat
    requires PointsAt(pkt, s)
  {
    Offset(pkt[s], pkt[s + 1])
  }

  /** The labels from `pos` on, up to where they stop. */
  function Segment(pkt: seq<Byte>, pos: nat): seq<Label>
    requires StopAt(pkt, pos) < |pkt|
    decreases |pkt| - pos
  {
    if 0 < pkt[pos] <= MAXLABEL then [pkt[pos + 1..pos + 1 + pkt[pos]]] + Segment(pkt, pos + 1 + pkt[pos]) else []
  }

  /** Behind at most `n` pointers the name comes to its end, inside the packet. */
  ghost predicate NameFrom(pkt: seq<Byte>, s: nat, n: nat)
    decreases n
  {
    EndsAt(pkt, s) || (n > 0 && PointsAt(pkt, s) && NameFrom(pkt, StopAt(pkt, Target(pkt, s)), n - 1))
  }

  ghost predicate NameIn(pkt: seq<Byte>, pos: nat, n: nat) { NameFrom(pkt, StopAt(pkt, pos), n) }

  ghost predicate HasName(pkt: seq<Byte>, pos: nat) { exists n: nat :: NameIn(pkt, pos, n) }

  /** All labels of the name, also those behind pointers. */
  ghost function LabelsIn(pkt: seq<Byte>, pos: nat, n: nat): seq<Label>
    requires NameIn(pkt, pos, n)
    decreases n
  {
    Segment(pkt, pos) + Behind(pkt, StopAt(pkt, pos), n)
  }

  /** The labels behind the pointer at `s`, if there is one. */
  ghost function Behind(pkt: seq<Byte>, s: nat, n: nat): seq<Label>
    requires NameFrom(pkt, s, n)
    decreases n, 0
  {
    if EndsAt(pkt, s) then [] else LabelsIn(pkt, Target(pkt, s), n - 1)
  }

  /** How far the reader moves: over the labels and the end mark or the pointer. */
  function Length(pkt: seq<Byte>, pos: nat): nat {
    StopAt(pkt, pos) - pos + if PointsAt(pkt, StopAt(pkt, pos)) then 2 else 1
  }

  /**
    `dst0` is what has been written before. The last dot is replaced by a null byte;
    `under` says that there was no dot, so that a byte before the buffer was hit.
    `n` bounds the depth of the recursion.
  */
  method GetRName(pkt: seq<Byte>, son0: nat, dst0: seq<Byte>, ghost n: nat) returns (consumed: nat, dst: seq<Byte>, under: bool)
    requires NameIn(pkt, son0, n)
    ensures consumed == Length(pkt, son0)
    ensures Ended(dst0 + Dotted(LabelsIn(pkt, son0, n)), dst, under)
    decreases n
  {
    var son := son0;
    dst := dst0;
    var llen := pkt[son];
    ghost var all := dst0 + Dotted(LabelsIn(pkt, son0, n));
    while llen != 0
      invariant son0 <= son < |pkt| && llen == pkt[son] && StopAt(pkt, son) == StopAt(pkt, son0)
      invariant ToWrite(pkt, son, n, dst, all)
      decreases |pkt| - son
    {
      if llen <= MAXLABEL {
        dst, son := TakeLabel(pkt, son, dst, n, all);
        llen := pkt[son];
      } else {
        NoLabelRead(pkt, son, n);
        var offset := Offset(pkt[son], pkt[son + 1]);
        consumed, dst, under := GetRName(pkt, offset, dst, n - 1);
        consumed := son + 2 - son0;
        return;
      }
    }
    NoLabelRead(pkt, son, n);
    assert dst + Dotted([]) == dst;
    under := dst == [];
    if !under {
      dst := dst[..|dst| - 1] + [0];
    }
    consumed := son + 1 - son0;
  }

  /** `dst` and the labels still to be read make up `all`. */
  ghost predicate ToWrite(pkt: seq<Byte>, son: nat, n: nat, dst: seq<Byte>, all: seq<Byte>) {
    (NameIn(pkt, son, n) && dst + Dotted(LabelsIn(pkt, son, n)) == all) == true
  }

  /** Copies the label at `son0`, with a dot. */
  method TakeLabel(pkt: seq<Byte>, son0: nat, dst0: seq<Byte>, ghost n: nat, ghost all: seq<Byte>) returns (dst: seq<Byte>, son: nat)
    requires son0 < |pkt| && 0 < pkt[son0] <= MAXLABEL && ToWrite(pkt, son0, n, dst0, all)
    ensures son0 < son < |pkt| && StopAt(pkt, son) == StopAt(pkt, son0) && ToWrite(pkt, son, n, dst, all)
  {
    LabelRead(pkt, son0, n, dst0);
    dst := CopyLabel(pkt, son0 + 1, pkt[son0], dst0);
    dst := dst + [DOT];
    son := son0 + 1 + pkt[son0];
  }

  /** The last dot of `all` is replaced by a null byte, if there is one. */
  ghost predicate Ended(all: seq<Byte>, dst: seq<Byte>, under: bool) {
    under == (all == []) && dst == if under then [] else all[..|all| - 1] + [0]
  }

  method CopyLabel(pkt: seq<Byte>, from: nat, llen: nat, dst0: seq<Byte>) returns (dst: seq<Byte>)
    requires from + llen <= |pkt|
    ensures dst == dst0 + pkt[from..from + llen]
  {
    dst := dst0;
    var i := 0;
    while i < llen
      invariant 0 <= i <= llen && dst == dst0 + pkt[from..from + i]
    {
      dst := dst + [pkt[from + i]];
      i := i + 1;
    }
  }

  /** Reading one label moves it, with a dot, from what is to come to what is written. */
  lemma LabelRead(pkt: seq<Byte>, pos: nat, n: nat, dst: seq<Byte>)
    requires NameIn(pkt, pos, n) && 0 < pkt[pos] <= MAXLABEL
    ensures var next := pos + 1 + pkt[pos];
            && next < |pkt| && StopAt(pkt, next) == StopAt(pkt, pos)
            && dst + pkt[pos + 1..next] + [DOT] + Dotted(LabelsIn(pkt, next, n)) == dst + Dotted(LabelsIn(pkt, pos, n))
  {
    var next := pos + 1 + pkt[pos];
    var l: Label := pkt[pos + 1..next];
    var rest := LabelsIn(pkt, next, n);
    assert LabelsIn(pkt, pos, n) == [l] + rest;
    DottedJoin([l], rest);
    DottedMore([], l);
    assert [] + [l] == [l] && Dotted([l]) == l + [DOT];
  }

  lemma NoLabelRead(pkt: seq<Byte>, pos: nat, n: nat)
    requires NameIn(pkt, pos, n) && !(0 < pkt[pos] <= MAXLABEL)
    ensures LabelsIn(pkt, pos, n) == if pkt[pos] == 0 then [] else LabelsIn(pkt, Offset(pkt[pos], pkt[pos + 1]), n - 1)
  {
    assert Segment(pkt, pos) == [];
  }

  // ----- pointers

  /** Where the k-th nested call starts, or the last one if there are fewer. */
  function Follow(pkt: seq<Byte>, pos: nat, k: nat): nat
    decreases k
  {
    if k == 0 || !PointsAt(pkt, StopAt(pkt, pos)) then pos else Follow(pkt, Target(pkt, StopAt(pkt, pos)), k - 1)
  }

  predicate Points(pkt: seq<Byte>, pos: nat) { PointsAt(pkt, StopAt(pkt, pos)) }

  predicate Ends(pkt: seq<Byte>, pos: nat) { EndsAt(pkt, StopAt(pkt, pos)) }

  /** No call reads behind the packet. */
  ghost predicate StaysInside(pkt: seq<Byte>, pos: nat) {
    forall k: nat :: Points(pkt, Follow(pkt, pos, k)) || Ends(pkt, Follow(pkt, pos, k))
  }

  /** A nested call starts where an earlier one started. */
  ghost predicate Cyclic(pkt: seq<Byte>, pos: nat) {
    exists i: nat, j: nat :: i < j && Follow(pkt, pos, i) == Follow(pkt, pos, j) && Points(pkt, Follow(pkt, pos, i))
  }

  lemma {:induction false} FollowMore(pkt: seq<Byte>, pos: nat, i: nat, j: nat)
    ensures Follow(pkt, Follow(pkt, pos, i), j) == Follow(pkt, pos, i + j)
    decreases i
  {
    if i > 0 && Points(pkt, pos) { FollowMore(pkt, Target(pkt, StopAt(pkt, pos)), i - 1, j); }
  }

  lemma {:induction false} NameAfter(pkt: seq<Byte>, pos: nat, n: nat, k: nat)
    requires NameIn(pkt, pos, n)
    ensures NameIn(pkt, Follow(pkt, pos, k), if n >= k then n - k else 0)
    decreases k
  {
    if k > 0 && Points(pkt, pos) { NameAfter(pkt, Target(pkt, StopAt(pkt, pos)), n - 1, k - 1); }
  }

  /** A name that comes to an end does not come back to where it was. */
  lemma {:induction false} NoWayBack(pkt: seq<Byte>, pos: nat, n: nat, c: nat)
    requires NameIn(pkt, pos, n) && Points(pkt, pos) && c > 0
    ensures Follow(pkt, pos, c) != pos
    decreases n
  {
    if Follow(pkt, pos, c) == pos {
      NameAfter(pkt, pos, n, c);
      NoWayBack(pkt, pos, if n >= c then n - c else 0, c);
    }
  }

  /** Without an end within `n` pointers, there are `n` more of them. */
  lemma {:induction false} StillPoints(pkt: seq<Byte>, pos: nat, n: nat, k: nat)
    requires StaysInside(pkt, pos) && !NameIn(pkt, pos, n) && k <= n
    ensures Points(pkt, Follow(pkt, pos, k)) && Follow(pkt, pos, k) < |pkt|
    decreases k
  {
    assert Follow(pkt, pos, 0) == pos;
    if k > 0 {
      var t := Target(pkt, StopAt(pkt, pos));
      forall m: nat ensures Points(pkt, Follow(pkt, t, m)) || Ends(pkt, Follow(pkt, t, m)) {
        assert Follow(pkt, pos, m + 1) == Follow(pkt, t, m);
      }
      StillPoints(pkt, t, n - 1, k - 1);
    }
  }

  /** More numbers than there are values: two are the same. */
  lemma {:induction false} Pigeonhole(a: seq<nat>, m: nat)
    requires |a| > m && forall i :: 0 <= i < |a| ==> a[i] < m
    ensures exists i, j :: 0 <= i < j < |a| && a[i] == a[j]
    decreases m
  {
    var last := |a| - 1;
    if forall i :: 0 <= i < last ==> a[i] != a[last] {
      assert a[last] < m;
      var b := seq(last, i requires 0 <= i < last => if a[i] == m - 1 then a[last] else a[i]);
      Pigeonhole(b, m - 1);
      var i, j :| 0 <= i < j < |b| && b[i] == b[j];
      assert a[i] == a[j];
    }
  }

  /**
    As long as no call reads behind the packet: the recursion comes to an end if and
    only if no call starts where an earlier one did, whether pointers lead back or
    forward; it is then no deeper than the packet is long. Otherwise every call
    makes another one.
  */
  lemma {:induction false} TerminatesIff(pkt: seq<Byte>, pos: nat)
    requires StaysInside(pkt, pos)
    ensures HasName(pkt, pos) <==> !Cyclic(pkt, pos)
    ensures HasName(pkt, pos) ==> NameIn(pkt, pos, |pkt|)
    ensures Cyclic(pkt, pos) ==> forall k: nat :: Points(pkt, Follow(pkt, pos, k))
  {
    if HasName(pkt, pos) {
      var n: nat :| NameIn(pkt, pos, n);
      forall i: nat, j: nat | i < j && Points(pkt, Follow(pkt, pos, i)) ensures Follow(pkt, pos, i) != Follow(pkt, pos, j) {
        NameAfter(pkt, pos, n, i);
        NoWayBack(pkt, Follow(pkt, pos, i), if n >= i then n - i else 0, j - i);
        FollowMore(pkt, pos, i, j - i);
      }
    }
    if !NameIn(pkt, pos, |pkt|) {
      var a := seq(|pkt| + 1, k requires 0 <= k <= |pkt| => Follow(pkt, pos, k));
      forall k | 0 <= k <= |pkt| ensures a[k] < |pkt| && Points(pkt, a[k]) { StillPoints(pkt, pos, |pkt|, k); }
      Pigeonhole(a, |pkt|);
      var i, j :| 0 <= i < j < |a| && a[i] == a[j];
      assert Follow(pkt, pos, i) == Follow(pkt, pos, j);
    }
    if !HasName(pkt, pos) {
      forall k: nat ensures Points(pkt, Follow(pkt, pos, k)) { StillPoints(pkt, pos, k, k); }
    }
  }

  // ----- round trip

  ghost predicate Proper(ls: seq<Label>) {
    forall i :: 0 <= i < |ls| ==> 1 <= |ls[i]| <= 63
  }

  /** The packet holds these bytes at offset `o`. */
  ghost predicate Holds(pkt: seq<Byte>, o: nat, s: seq<Byte>) {
    o + |s| <= |pkt| && pkt[o..o + |s|] == s
  }

  lemma {:induction false} EncodedPrefix(ls: seq<Label>, j: nat)
    requires j <= |ls|
    ensures Encoded(ls[..j]) <= Encoded(ls)
    decreases |ls|
  {
    if j < |ls| {
      var n := |ls| - 1;
      assert ls[..n][..j] == ls[..j];
      EncodedPrefix(ls[..n], j);
    } else {
      assert ls[..j] == ls;
    }
  }

  lemma HoldsPart(pkt: seq<Byte>, o: nat, s: seq<Byte>, i: nat, j: nat)
    requires Holds(pkt, o, s) && i <= j <= |s|
    ensures pkt[o + i..o + j] == s[i..j]
  {
    var t := pkt[o..o + |s|];
    forall k | 0 <= k < j - i ensures pkt[o + i..o + j][k] == s[i..j][k] { assert t[i + k] == pkt[o + i + k]; }
  }

  /** The label stands at `p`, and is not the last thing in the packet. */
  ghost predicate LabelAt(pkt: seq<Byte>, p: nat, l: Label) {
    (p + 1 + |l| < |pkt| && pkt[p] == |l| && pkt[p + 1..p + 1 + |l|] == l) == true
  }

  lemma LabelStands(ls: seq<Label>, j: nat, tail: seq<Byte>, pkt: seq<Byte>, o: nat)
    requires Proper(ls) && j < |ls| && tail != [] && Holds(pkt, o, Encoded(ls) + tail)
    ensures var p := o + |Encoded(ls[..j])|;
            && p + 1 + |ls[j]| == o + |Encoded(ls[..j + 1])| <= o + |Encoded(ls)|
            && LabelAt(pkt, p, ls[j])
  {
    var e, f, q := Encoded(ls) + tail, Encoded(ls[..j + 1]), |Encoded(ls[..j])|;
    assert ls[..j + 1] == ls[..j] + [ls[j]];
    EncodedMore(ls[..j], ls[j]);
    EncodedPrefix(ls, j + 1);
    assert e[..|f|] == f;
    HoldsPart(pkt, o, e, q, q + 1);
    assert pkt[o + q] == pkt[o + q..o + q + 1][0] == e[q..q + 1][0] == f[q];
    HoldsPart(pkt, o, e, q + 1, |f|);
    assert e[q + 1..|f|] == f[q + 1..] == ls[j];
  }

  /** From `p` on there are these labels, and then, at `stop`, no more. */
  ghost predicate Reads(pkt: seq<Byte>, p: nat, ls: seq<Label>, stop: nat) {
    (stop < |pkt| && StopAt(pkt, p) == stop && Segment(pkt, p) == ls) == true
  }

  lemma ReadLabel(pkt: seq<Byte>, p: nat, l: Label, rest: seq<Label>, all: seq<Label>, stop: nat)
    requires 1 <= |l| <= 63 && LabelAt(pkt, p, l)
    requires Reads(pkt, p + 1 + |l|, rest, stop) && all == [l] + rest
    ensures Reads(pkt, p, all, stop)
  {
  }

  lemma TailStands(e: seq<Byte>, tail: seq<Byte>, pkt: seq<Byte>, o: nat)
    requires Holds(pkt, o, e + tail)
    ensures o + |e| + |tail| <= |pkt| && forall i :: 0 <= i < |tail| ==> pkt[o + |e| + i] == tail[i]
  {
    forall i | 0 <= i < |tail| ensures pkt[o + |e| + i] == tail[i] {
      assert pkt[o..o + |e + tail|][|e| + i] == (e + tail)[|e| + i];
    }
  }

  /** From the j-th label on, the packet holds the rest of the labels. */
  lemma {:induction false} ReadBack(ls: seq<Label>, j: nat, tail: seq<Byte>, pkt: seq<Byte>, o: nat, p: nat)
    requires Proper(ls) && j <= |ls| && tail != [] && !(0 < tail[0] <= 63)
    requires Holds(pkt, o, Encoded(ls) + tail) && p == o + |Encoded(ls[..j])|
    ensures Reads(pkt, p, ls[j..], o + |Encoded(ls)|)
    decreases |ls| - j
  {
    if j == |ls| {
      assert ls[..j] == ls && ls[j..] == [];
      TailStands(Encoded(ls), tail, pkt, o);
    } else {
      LabelStands(ls, j, tail, pkt, o);
      ReadBack(ls, j + 1, tail, pkt, o, p + 1 + |ls[j]|);
      ReadOne(ls, j, pkt, p, o + |Encoded(ls)|);
    }
  }

  lemma ReadOne(ls: seq<Label>, j: nat, pkt: seq<Byte>, p: nat, stop: nat)
    requires j < |ls| && 1 <= |ls[j]| <= 63 && LabelAt(pkt, p, ls[j]) && Reads(pkt, p + 1 + |ls[j]|, ls[j + 1..], stop)
    ensures Reads(pkt, p, ls[j..], stop)
  {
    ReadLabel(pkt, p, ls[j], ls[j + 1..], ls[j..], stop);
  }

  lemma {:induction false} ReadsFrom(ls: seq<Label>, tail: seq<Byte>, pkt: seq<Byte>, o: nat)
    requires Proper(ls) && tail != [] && !(0 < tail[0] <= 63) && Holds(pkt, o, Encoded(ls) + tail)
    ensures StopAt(pkt, o) == o + |Encoded(ls)| < |pkt| && Segment(pkt, o) == ls
    ensures o + |Encoded(ls)| + |tail| <= |pkt| && forall i :: 0 <= i < |tail| ==> pkt[o + |Encoded(ls)| + i] == tail[i]
  {
    ReadBack(ls, 0, tail, pkt, o, o);
    TailStands(Encoded(ls), tail, pkt, o);
    assert ls[..0] == [] && ls[0..] == ls;
  }

  // ----- given names

  /** Labels and an end mark are read as those labels. */
  lemma {:induction false} PlainName(ls: seq<Label>, pkt: seq<Byte>, o: nat)
    requires Proper(ls) && Holds(pkt, o, Encoded(ls) + [0])
    ensures NameIn(pkt, o, 0) && LabelsIn(pkt, o, 0) == ls && Length(pkt, o) == |Encoded(ls)| + 1
  {
    ReadsFrom(ls, [0], pkt, o);
  }

  /**
    Labels and the two bytes of a pointer, 192 plus the high six bits of the offset
    and the low eight, are read as those labels and then the name at the offset.
  */
  lemma PointerName(ls: seq<Label>, o: nat, pkt: seq<Byte>, son: nat, n: nat)
    requires Proper(ls) && o < 0x4000 && Holds(pkt, son, Encoded(ls) + [192 + o / 256, o % 256]) && NameIn(pkt, o, n)
    ensures NameIn(pkt, son, n + 1) && LabelsIn(pkt, son, n + 1) == ls + LabelsIn(pkt, o, n)
    ensures Length(pkt, son) == |Encoded(ls)| + 2
  {
    var tail: seq<Byte> := [192 + o / 256, o % 256];
    ReadsFrom(ls, tail, pkt, son);
    var s := StopAt(pkt, son);
    assert pkt[s] == tail[0] && pkt[s + 1] == tail[1];
    OffsetBack(o);
    assert Target(pkt, s) == o;
  }

  lemma OffsetBack(o: nat)
    requires o < 0x4000
    ensures Offset(192 + o / 256, o % 256) == o
  {
  }

  /** A compressed name: the labels `ls`, and a pointer to where the labels `ts` stand. */
  method ReadCompressed(ls: seq<Label>, ts: seq<Label>, o: nat, pkt: seq<Byte>, son: nat) returns (consumed: nat, dst: seq<Byte>)
    requires Proper(ls) && Proper(ts) && ls + ts != [] && o < 0x4000
    requires Holds(pkt, son, Encoded(ls) + [192 + o / 256, o % 256]) && Holds(pkt, o, Encoded(ts) + [0])
    ensures consumed == |Encoded(ls)| + 2 && Dotted(ls + ts) != [] && dst == Dotted(ls + ts)[..|Dotted(ls + ts)| - 1] + [0]
  {
    PlainName(ts, pkt, o);
    PointerName(ls, o, pkt, son, 0);
    DottedNotEmpty(ls + ts);
    var under;
    consumed, dst, under := GetRName(pkt, son, [], 1);
    assert [] + Dotted(ls + ts) == Dotted(ls + ts);
  }

  lemma {:induction false} DottedNotEmpty(ls: seq<Label>)
    requires ls != []
    ensures Dotted(ls) != []
  {
  }

  /**
    Reading back a question that was built: for a name with labels of 1 to 63
    characters, wherever it stands in a packet, the same name comes back, ended by a
    null byte, and the reader moves on by its length plus two.
  */
  method RoundTrip(name: seq<Byte>, before: seq<Byte>, after: seq<Byte>) returns (consumed: nat, dst: seq<Byte>)
    requires Proper(Split(name)) && |name| < DATASIZ
    ensures consumed == |name| + 2 && dst == name + [0]
  {
    var qlen, data := BuildQuestion(name);
    var pkt, o := before + data + after, |before|;
    ghost var ls := Split(name);
    DottedSplit(name);
    EncodedLength(ls);
    assert Holds(pkt, o, Encoded(ls) + [0]) by {
      assert pkt[o..o + |data|] == data;
      assert pkt[o..o + |Encoded(ls)| + 1] == data[..|Encoded(ls)| + 1];
    }
    PlainName(ls, pkt, o);
    var under;
    consumed, dst, under := GetRName(pkt, o, [], 0);
    assert [] + Dotted(ls) == name + [DOT];
    assert (name + [DOT])[..|name|] == name;
  }
}
