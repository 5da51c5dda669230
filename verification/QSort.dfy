/**
  The library `qsort`: an in-place quicksort that gathers a fat pivot in the
  middle, works inwards from both ends, recurses on the smaller part only and
  loops on the larger one.
*/
module QSort {
  import opened Common

  // ----- the comparison function

  /** What the callers promise about the comparison: a total preorder. */
  ghost predicate TotalPreorder<T(!new)>(cmp: (T, T) -> int) {
    && (forall x, y :: cmp(x, y) < 0 <==> cmp(y, x) > 0)
    && (forall x, y, z :: cmp(x, y) <= 0 && cmp(y, z) <= 0 ==> cmp(x, z) <= 0)
  }

  ghost predicate Sorted<T>(s: seq<T>, cmp: (T, T) -> int) {
    forall i, j :: 0 <= i <= j < |s| ==> cmp(s[i], s[j]) <= 0
  }

  /** Recursion depth allowed for n elements. */
  function Log2(n: nat): nat {
    if n < 2 then 0 else 1 + Log2(n / 2)
  }

  lemma {:induction false} Log2Monotonic(m: nat, n: nat)
    requires m <= n
    ensures Log2(m) <= Log2(n)
  {
    if m >= 2 { Log2Monotonic(m / 2, n / 2); }
  }

  // ----- comparisons against the pivot

  /** Comparing with an element that equals the pivot is comparing with the pivot. */
  lemma AgainstPivot<T(!new)>(cmp: (T, T) -> int, x: T, q: T, p: T)
    requires TotalPreorder(cmp) && cmp(q, p) == 0
    ensures cmp(x, q) < 0 <==> cmp(x, p) < 0
    ensures cmp(x, q) > 0 <==> cmp(x, p) > 0
    ensures cmp(q, x) > 0 <==> cmp(x, p) < 0
    ensures cmp(q, x) < 0 <==> cmp(x, p) > 0
  {
    assert cmp(p, q) == 0;
    if cmp(x, q) <= 0 { assert cmp(x, p) <= 0; }
    if cmp(x, p) <= 0 { assert cmp(x, q) <= 0; }
    if cmp(q, x) <= 0 { assert cmp(p, x) <= 0; }
    if cmp(p, x) <= 0 { assert cmp(q, x) <= 0; }
  }

  /** Elements on the two sides of the pivot are ordered. */
  lemma AcrossPivot<T(!new)>(cmp: (T, T) -> int, x: T, y: T, p: T)
    requires TotalPreorder(cmp) && cmp(x, p) <= 0 && cmp(y, p) >= 0
    ensures cmp(x, y) <= 0
  {
    assert cmp(p, y) <= 0;
  }

  // ----- exchanges

  function Swapped<T>(s: seq<T>, i: nat, j: nat): (r: seq<T>)
    requires i < |s| && j < |s|
  {
    s[i := s[j]][j := s[i]]
  }

  lemma SwappedPermutes<T>(s: seq<T>, i: nat, j: nat)
    requires i < |s| && j < |s|
    ensures multiset(Swapped(s, i, j)) == multiset(s)
  {
  }

  method Exchange<T>(arr: array<T>, i: nat, j: nat)
    requires i < arr.Length && j < arr.Length
    modifies arr
    ensures arr[..] == Swapped(old(arr[..]), i, j)
  {
    arr[i], arr[j] := arr[j], arr[i];
  }

  /** Element i goes to j, j to k and k to i; j and k may be the same place. */
  function Rotated<T>(s: seq<T>, i: nat, j: nat, k: nat): (r: seq<T>)
    requires i < |s| && j < |s| && k < |s|
  {
    s[i := s[k]][k := s[j]][j := s[i]]
  }

  lemma RotatedPermutes<T>(s: seq<T>, i: nat, j: nat, k: nat)
    requires i < |s| && j < |s| && k < |s| && i != j && i != k
    ensures multiset(Rotated(s, i, j, k)) == multiset(s)
  {
    SwappedPermutes(s, i, k);
    SwappedPermutes(Swapped(s, i, k), k, j);
    assert Rotated(s, i, j, k) == Swapped(Swapped(s, i, k), k, j);
  }

  method Rotate<T>(arr: array<T>, i: nat, j: nat, k: nat)
    requires i < arr.Length && j < arr.Length && k < arr.Length && i != j && i != k
    modifies arr
    ensures arr[..] == Rotated(old(arr[..]), i, j, k)
  {
    var c := arr[i];
    arr[i] := arr[k];
    arr[k] := arr[j];
    arr[j] := c;
  }

  // ----- the partition

  /** Comparing with an element equal to `p` is comparing with `p`. */
  ghost predicate AgreesAt<T(!new)>(cmp: (T, T) -> int, p: T) {
    forall x, q :: cmp(q, p) == 0 ==>
      && (cmp(x, q) < 0 <==> cmp(x, p) < 0) && (cmp(x, q) > 0 <==> cmp(x, p) > 0)
      && (cmp(q, x) > 0 <==> cmp(x, p) < 0) && (cmp(q, x) < 0 <==> cmp(x, p) > 0)
  }

  lemma PreorderAgrees<T(!new)>(cmp: (T, T) -> int, p: T)
    requires TotalPreorder(cmp)
    ensures AgreesAt(cmp, p) && cmp(p, p) == 0
  {
    forall x, q | cmp(q, p) == 0
      ensures (cmp(x, q) < 0 <==> cmp(x, p) < 0) && (cmp(x, q) > 0 <==> cmp(x, p) > 0)
      ensures (cmp(q, x) > 0 <==> cmp(x, p) < 0) && (cmp(q, x) < 0 <==> cmp(x, p) > 0)
    {
      AgainstPivot(cmp, x, q, p);
    }
  }

  /** Less-than part [a, i), equal part [lp, hp] and greater-than part (j, l) found so far. */
  ghost predicate Split<T>(s: seq<T>, a: int, i: int, lp: int, hp: int, j: int, l: int, p: T, cmp: (T, T) -> int) {
    && 0 <= a <= i <= lp <= hp <= j < l <= |s|
    && (forall k :: a <= k < i ==> cmp(s[k], p) < 0)
    && (forall k :: lp <= k <= hp ==> cmp(s[k], p) == 0)
    && (forall k :: j < k < l ==> cmp(s[k], p) > 0)
  }

  /** `t` rearranges the segment [a, l) of `s`. */
  ghost predicate Rearranged<T>(s: seq<T>, t: seq<T>, a: int, l: int) {
    && |s| == |t| && 0 <= a <= l <= |s|
    && (forall k :: 0 <= k < |s| && !(a <= k < l) ==> s[k] == t[k])
    && multiset(s) == multiset(t)
  }

  lemma SwapRearranges<T>(s0: seq<T>, s: seq<T>, a: int, l: int, i: nat, j: nat)
    requires Rearranged(s0, s, a, l) && a <= i < l && a <= j < l
    ensures Rearranged(s0, Swapped(s, i, j), a, l)
  {
    SwappedPermutes(s, i, j);
  }

  lemma RotationRearranges<T>(s0: seq<T>, s: seq<T>, a: int, l: int, i: nat, j: nat, k: nat)
    requires Rearranged(s0, s, a, l) && a <= i < l && a <= j < l && a <= k < l && i != j && i != k
    ensures Rearranged(s0, Rotated(s, i, j, k), a, l)
  {
    RotatedPermutes(s, i, j, k);
  }

  lemma GrowLow<T>(s: seq<T>, a: int, i: int, lp: int, hp: int, j: int, l: int, p: T, cmp: (T, T) -> int)
    requires Split(s, a, i, lp, hp, j, l, p, cmp) && i < lp && cmp(s[i], p) == 0
    ensures Split(Swapped(s, i, lp - 1), a, i, lp - 1, hp, j, l, p, cmp)
  {
  }

  lemma GrowHigh<T>(s: seq<T>, a: int, i: int, lp: int, hp: int, j: int, l: int, p: T, cmp: (T, T) -> int)
    requires Split(s, a, i, lp, hp, j, l, p, cmp) && hp < j && cmp(s[j], p) == 0
    ensures Split(Swapped(s, hp + 1, j), a, i, lp, hp + 1, j, l, p, cmp)
    ensures i < lp ==> Swapped(s, hp + 1, j)[i] == s[i]
  {
  }

  lemma TradeEnds<T>(s: seq<T>, a: int, i: int, lp: int, hp: int, j: int, l: int, p: T, cmp: (T, T) -> int)
    requires Split(s, a, i, lp, hp, j, l, p, cmp) && i < lp && hp < j && cmp(s[i], p) > 0 && cmp(s[j], p) < 0
    ensures Split(Swapped(s, i, j), a, i + 1, lp, hp, j - 1, l, p, cmp)
  {
  }

  lemma ShiftUp<T>(s: seq<T>, a: int, i: int, lp: int, hp: int, j: int, l: int, p: T, cmp: (T, T) -> int)
    requires Split(s, a, i, lp, hp, j, l, p, cmp) && i == lp && hp < j && cmp(s[j], p) < 0
    ensures Split(Rotated(s, i, hp + 1, j), a, i + 1, lp + 1, hp + 1, j, l, p, cmp)
  {
  }

  lemma ShiftDown<T>(s: seq<T>, a: int, i: int, lp: int, hp: int, j: int, l: int, p: T, cmp: (T, T) -> int)
    requires Split(s, a, i, lp, hp, j, l, p, cmp) && i < lp && hp == j && cmp(s[i], p) > 0
    ensures Split(Rotated(s, j, lp - 1, i), a, i, lp - 1, hp - 1, hp - 1, l, p, cmp)
  {
  }

  lemma AdvanceLow<T>(s: seq<T>, a: int, i: int, lp: int, hp: int, j: int, l: int, p: T, cmp: (T, T) -> int)
    requires Split(s, a, i, lp, hp, j, l, p, cmp) && i < lp && cmp(s[i], p) < 0
    ensures Split(s, a, i + 1, lp, hp, j, l, p, cmp)
  {
  }

  lemma AdvanceHigh<T>(s: seq<T>, a: int, i: int, lp: int, hp: int, j: int, l: int, p: T, cmp: (T, T) -> int)
    requires Split(s, a, i, lp, hp, j, l, p, cmp) && hp < j && cmp(s[j], p) > 0
    ensures Split(s, a, i, lp, hp, j - 1, l, p, cmp)
  {
  }

  /** Works up from the low end until everything below the pivots is placed or too large. */
  method ScanLow<T(!new)>(arr: array<T>, ghost a: nat, i0: nat, lp0: nat, ghost hp: nat, ghost j: nat, ghost l: nat,
                          cmp: (T, T) -> int, ghost p: T)
    returns (i: nat, lp: nat)
    requires AgreesAt(cmp, p) && Split(arr[..], a, i0, lp0, hp, j, l, p, cmp)
    modifies arr
    ensures Split(arr[..], a, i, lp, hp, j, l, p, cmp) && Rearranged(old(arr[..]), arr[..], a, l)
    ensures i < lp ==> cmp(arr[i], p) > 0
    ensures lp - i <= lp0 - i0
  {
    i, lp := i0, lp0;
    while i < lp
      invariant Split(arr[..], a, i, lp, hp, j, l, p, cmp) && Rearranged(old(arr[..]), arr[..], a, l)
      invariant lp - i <= lp0 - i0
    {
      ghost var s := arr[..];
      assert cmp(s[lp], p) == 0;
      var c := cmp(arr[i], arr[lp]);
      if c == 0 {
        GrowLow(s, a, i, lp, hp, j, l, p, cmp);
        lp := lp - 1;
        SwapRearranges(old(arr[..]), s, a, l, i, lp);
        Exchange(arr, i, lp);
      } else if c < 0 {
        AdvanceLow(s, a, i, lp, hp, j, l, p, cmp);
        i := i + 1;
      } else {
        return;
      }
    }
  }

  /** A small element is above and there is no room below: the pivots move up. */
  method PivotsUp<T(!new)>(arr: array<T>, ghost a: nat, lp0: nat, hp0: nat, j: nat, ghost l: nat,
                           cmp: (T, T) -> int, ghost p: T)
    returns (i: nat, lp: nat, hp: nat)
    requires Split(arr[..], a, lp0, lp0, hp0, j, l, p, cmp) && hp0 < j && cmp(arr[j], p) < 0
    modifies arr
    ensures i == lp == lp0 + 1 && hp == hp0 + 1
    ensures Split(arr[..], a, i, lp, hp, j, l, p, cmp) && Rearranged(old(arr[..]), arr[..], a, l)
  {
    ghost var s := arr[..];
    ShiftUp(s, a, lp0, lp0, hp0, j, l, p, cmp);
    hp := hp0 + 1;
    RotationRearranges(s, s, a, l, lp0, hp, j);
    Rotate(arr, lp0, hp, j);
    lp := lp0 + 1;
    i := lp;
  }

  /** Places the element at j, or exchanges it for the large element at i and reports `again`. */
  method PlaceHigh<T(!new)>(arr: array<T>, ghost a: nat, i0: nat, lp0: nat, hp0: nat, j0: nat, ghost l: nat,
                            cmp: (T, T) -> int, ghost p: T)
    returns (i: nat, lp: nat, hp: nat, j: nat, again: bool)
    requires AgreesAt(cmp, p) && Split(arr[..], a, i0, lp0, hp0, j0, l, p, cmp) && hp0 < j0
    requires i0 < lp0 ==> cmp(arr[i0], p) > 0
    modifies arr
    ensures Split(arr[..], a, i, lp, hp, j, l, p, cmp) && Rearranged(old(arr[..]), arr[..], a, l)
    ensures lp - i <= lp0 - i0 && j - hp < j0 - hp0
    ensures !again && i < lp ==> cmp(arr[i], p) > 0
  {
    ghost var s := arr[..];
    assert cmp(s[hp0], p) == 0;
    i, lp, hp, j, again := i0, lp0, hp0, j0, false;
    var c := cmp(arr[hp], arr[j]);
    if c == 0 {
      GrowHigh(s, a, i, lp, hp, j, l, p, cmp);
      hp := hp + 1;
      SwapRearranges(s, s, a, l, hp, j);
      Exchange(arr, hp, j);
    } else if c > 0 && i == lp {
      i, lp, hp := PivotsUp(arr, a, lp, hp, j, l, cmp, p);
    } else if c > 0 {
      TradeEnds(s, a, i, lp, hp, j, l, p, cmp);
      SwapRearranges(s, s, a, l, i, j);
      Exchange(arr, i, j);
      j := j - 1;
      i := i + 1;
      again := true;
    } else {
      AdvanceHigh(s, a, i, lp, hp, j, l, p, cmp);
      j := j - 1;
    }
  }

  /**
    Works down from the high end. Stops early, with `again`, after exchanging a
    large element of the low end for a small one of the high end.
  */
  method ScanHigh<T(!new)>(arr: array<T>, ghost a: nat, i0: nat, lp0: nat, hp0: nat, j0: nat, ghost l: nat,
                           cmp: (T, T) -> int, ghost p: T)
    returns (i: nat, lp: nat, hp: nat, j: nat, again: bool)
    requires AgreesAt(cmp, p) && Split(arr[..], a, i0, lp0, hp0, j0, l, p, cmp)
    requires i0 < lp0 ==> cmp(arr[i0], p) > 0
    modifies arr
    ensures Split(arr[..], a, i, lp, hp, j, l, p, cmp) && Rearranged(old(arr[..]), arr[..], a, l)
    ensures lp - i + j - hp <= lp0 - i0 + j0 - hp0
    ensures again ==> lp - i + j - hp < lp0 - i0 + j0 - hp0
    ensures !again ==> j == hp && (i < lp ==> cmp(arr[i], p) > 0)
  {
    i, lp, hp, j, again := i0, lp0, hp0, j0, false;
    while j > hp && !again
      invariant Split(arr[..], a, i, lp, hp, j, l, p, cmp) && Rearranged(old(arr[..]), arr[..], a, l)
      invariant !again && i < lp ==> cmp(arr[i], p) > 0
      invariant lp - i <= lp0 - i0 && j - hp <= j0 - hp0 && (again ==> j - hp < j0 - hp0)
      decreases j - hp
    {
      ghost var s := arr[..];
      i, lp, hp, j, again := PlaceHigh(arr, a, i, lp, hp, j, l, cmp, p);
      RearrangedTrans(old(arr[..]), s, arr[..], a, l);
    }
  }

  lemma RearrangedTrans<T>(s: seq<T>, t: seq<T>, u: seq<T>, a: int, l: int)
    requires Rearranged(s, t, a, l) && Rearranged(t, u, a, l)
    ensures Rearranged(s, u, a, l)
  {
  }

  /** Both sides are exhausted but a large element is left below: the pivots move down. */
  method PivotsDown<T(!new)>(arr: array<T>, ghost a: nat, i: nat, lp0: nat, hp0: nat, ghost l: nat,
                             cmp: (T, T) -> int, ghost p: T)
    returns (lp: nat, hp: nat)
    requires Split(arr[..], a, i, lp0, hp0, hp0, l, p, cmp) && i < lp0 && cmp(arr[i], p) > 0
    modifies arr
    ensures lp == lp0 - 1 && hp == hp0 - 1
    ensures Split(arr[..], a, i, lp, hp, hp, l, p, cmp) && Rearranged(old(arr[..]), arr[..], a, l)
  {
    ghost var s := arr[..];
    ShiftDown(s, a, i, lp0, hp0, hp0, l, p, cmp);
    lp, hp := lp0 - 1, hp0 - 1;
    RotationRearranges(s, s, a, l, hp0, lp, i);
    Rotate(arr, hp0, lp, i);
  }

  /** One round of the main loop. */
  method Sweep<T(!new)>(arr: array<T>, ghost a: nat, i0: nat, lp0: nat, hp0: nat, j0: nat, ghost l: nat,
                        cmp: (T, T) -> int, ghost p: T)
    returns (i: nat, lp: nat, hp: nat, j: nat)
    requires AgreesAt(cmp, p) && Split(arr[..], a, i0, lp0, hp0, j0, l, p, cmp)
    modifies arr
    ensures Split(arr[..], a, i, lp, hp, j, l, p, cmp) && Rearranged(old(arr[..]), arr[..], a, l)
    ensures (i == lp && j == hp) || lp - i + j - hp < lp0 - i0 + j0 - hp0
  {
    i, lp := ScanLow(arr, a, i0, lp0, hp0, j0, l, cmp, p);
    ghost var s1 := arr[..];
    var again;
    i, lp, hp, j, again := ScanHigh(arr, a, i, lp, hp0, j0, l, cmp, p);
    ghost var s2 := arr[..];
    RearrangedTrans(old(arr[..]), s1, s2, a, l);
    if !again && i != lp {
      lp, hp := PivotsDown(arr, a, i, lp, hp, l, cmp, p);
      j := hp;
      RearrangedTrans(old(arr[..]), s2, arr[..], a, l);
    }
  }

  method Partition<T(!new)>(arr: array<T>, a: nat, l: nat, cmp: (T, T) -> int, ghost p: T) returns (lp: nat, hp: nat)
    requires a + 1 < l <= arr.Length && p == arr[a + (l - a) / 2]
    requires AgreesAt(cmp, p) && cmp(p, p) == 0
    modifies arr
    ensures Split(arr[..], a, lp, lp, hp, hp, l, p, cmp)
    ensures Rearranged(old(arr[..]), arr[..], a, l)
  {
    lp := a + (l - a) / 2;
    hp := lp;
    var i, j := a, l - 1;
    while i != lp || j != hp
      invariant Split(arr[..], a, i, lp, hp, j, l, p, cmp) && Rearranged(old(arr[..]), arr[..], a, l)
      decreases lp - i + j - hp
    {
      ghost var s := arr[..];
      i, lp, hp, j := Sweep(arr, a, i, lp, hp, j, l, cmp, p);
      RearrangedTrans(old(arr[..]), s, arr[..], a, l);
    }
  }

  // ----- the sort

  /** Within [a0, l0), every pair not wholly inside [a, l) is in order. */
  ghost predicate Settled<T>(s: seq<T>, a0: int, a: int, l: int, l0: int, cmp: (T, T) -> int) {
    && 0 <= a0 <= a <= l <= l0 <= |s|
    && forall x, y :: a0 <= x <= y < l0 && (x < a || l <= y) ==> cmp(s[x], s[y]) <= 0
  }

  ghost predicate InOrder<T>(s: seq<T>, a: int, l: int, cmp: (T, T) -> int) {
    && 0 <= a <= l <= |s|
    && forall x, y :: a <= x <= y < l ==> cmp(s[x], s[y]) <= 0
  }

  lemma MultisetParts<T>(s: seq<T>, a: int, l: int)
    requires 0 <= a <= l <= |s|
    ensures multiset(s) == multiset(s[..a]) + multiset(s[a..l]) + multiset(s[l..])
  {
    assert s == s[..a] + s[a..l] + s[l..];
  }

  lemma SegmentPermuted<T>(s: seq<T>, t: seq<T>, a: int, l: int)
    requires Rearranged(s, t, a, l)
    ensures multiset(s[a..l]) == multiset(t[a..l])
  {
    MultisetParts(s, a, l);
    MultisetParts(t, a, l);
    assert s[..a] == t[..a] && s[l..] == t[l..];
    MultisetCancel(multiset(s[..a]), multiset(s[a..l]), multiset(t[a..l]), multiset(s[l..]));
  }

  lemma MultisetCancel<T>(p: multiset<T>, q: multiset<T>, q': multiset<T>, r: multiset<T>)
    requires p + q + r == p + q' + r
    ensures q == q'
  {
    assert q == (p + q + r) - p - r;
    assert q' == (p + q' + r) - p - r;
  }

  /** Where an element of a rearranged segment came from. */
  lemma Origin<T>(s: seq<T>, t: seq<T>, a: int, l: int, y: int) returns (y': int)
    requires Rearranged(s, t, a, l) && a <= y < l
    ensures a <= y' < l && s[y'] == t[y]
  {
    SegmentPermuted(s, t, a, l);
    assert t[a..l][y - a] in multiset(t[a..l]);
    assert t[y] in s[a..l];
    var k :| 0 <= k < l - a && s[a..l][k] == t[y];
    y' := a + k;
  }

  lemma RearrangedWider<T>(s: seq<T>, t: seq<T>, a: int, l: int, b: int, m: int)
    requires Rearranged(s, t, b, m) && 0 <= a <= b && m <= l <= |s|
    ensures Rearranged(s, t, a, l)
  {
  }

  lemma SettledKept<T>(s: seq<T>, t: seq<T>, a0: int, a: int, l: int, l0: int, cmp: (T, T) -> int)
    requires Settled(s, a0, a, l, l0, cmp) && Rearranged(s, t, a, l)
    ensures Settled(t, a0, a, l, l0, cmp)
  {
    forall x, y | a0 <= x <= y < l0 && (x < a || l <= y)
      ensures cmp(t[x], t[y]) <= 0
    {
      var x', y' := x, y;
      if a <= x < l { x' := Origin(s, t, a, l, x); }
      if a <= y < l { y' := Origin(s, t, a, l, y); }
      assert cmp(s[x'], s[y']) <= 0;
    }
  }

  lemma SplitKept<T>(s: seq<T>, t: seq<T>, a: int, lp: int, hp: int, l: int, b: int, m: int, p: T, cmp: (T, T) -> int)
    requires Split(s, a, lp, lp, hp, hp, l, p, cmp) && Rearranged(s, t, b, m)
    requires (b == a && m == lp) || (b == hp + 1 && m == l)
    ensures Split(t, a, lp, lp, hp, hp, l, p, cmp)
  {
    forall k | b <= k < m ensures b == a ==> cmp(t[k], p) < 0
                          ensures b != a ==> cmp(t[k], p) > 0 {
      var k' := Origin(s, t, b, m, k);
    }
  }

  /** Once one side of the pivots is in order only the other side is left. */
  lemma SideDone<T(!new)>(s: seq<T>, a0: int, a: int, lp: int, hp: int, l: int, l0: int, p: T, cmp: (T, T) -> int)
    requires TotalPreorder(cmp) && Settled(s, a0, a, l, l0, cmp) && Split(s, a, lp, lp, hp, hp, l, p, cmp)
    ensures InOrder(s, hp + 1, l, cmp) ==> Settled(s, a0, a, lp, l0, cmp)
    ensures InOrder(s, a, lp, cmp) ==> Settled(s, a0, hp + 1, l, l0, cmp)
  {
    forall x, y | a <= x <= y < l && !(y < lp) && !(x > hp)
      ensures cmp(s[x], s[y]) <= 0
    {
      AcrossPivot(cmp, s[x], s[y], p);
    }
  }

  /** Only the smaller part is recursed on: the depth is logarithmic. */
  lemma {:induction false} DepthBound(n: nat, m: nat, depth: nat)
    requires n >= 2 && 2 * m < n && depth <= 1 + Log2(m)
    ensures depth + 1 <= 1 + Log2(n)
  {
    Log2Monotonic(m, n / 2);
  }

  method Qs1<T(!new)>(arr: array<T>, a0: nat, l0: nat, cmp: (T, T) -> int) returns (ghost depth: nat)
    requires TotalPreorder(cmp) && a0 <= l0 <= arr.Length
    modifies arr
    ensures InOrder(arr[..], a0, l0, cmp)
    ensures Rearranged(old(arr[..]), arr[..], a0, l0)
    ensures 1 <= depth <= 1 + Log2(l0 - a0)
    decreases l0 - a0, 3
  {
    var a, l := a0, l0;
    depth := 1;
    ghost var s0 := arr[..];
    while l - a > 1
      invariant a0 <= a && l <= l0 && Settled(arr[..], a0, a, l, l0, cmp)
      invariant Rearranged(s0, arr[..], a0, l0)
      invariant 1 <= depth <= 1 + Log2(l0 - a0)
      decreases l - a
    {
      a, l, depth := Turn(arr, a0, a, l, l0, cmp, s0, depth);
    }
    SettledDone(arr[..], a0, a, l, l0, cmp);
  }

  /** One pass of the loop, added to what happened before. */
  method Turn<T(!new)>(arr: array<T>, ghost a0: nat, a: nat, l: nat, ghost l0: nat, cmp: (T, T) -> int,
                       ghost s0: seq<T>, ghost d0: nat)
    returns (b: nat, m: nat, ghost depth: nat)
    requires TotalPreorder(cmp) && a + 1 < l && l0 <= arr.Length && Settled(arr[..], a0, a, l, l0, cmp)
    requires Rearranged(s0, arr[..], a0, l0) && 1 <= d0 <= 1 + Log2(l0 - a0)
    modifies arr
    ensures a <= b && m <= l && m - b < l - a && Settled(arr[..], a0, b, m, l0, cmp)
    ensures Rearranged(s0, arr[..], a0, l0) && 1 <= depth <= 1 + Log2(l0 - a0)
    decreases l0 - a0, 2
  {
    ghost var s := arr[..];
    ghost var d;
    b, m, d := Narrow(arr, a0, a, l, l0, cmp);
    depth := if d > d0 then d else d0;
    RearrangedTrans(s0, s, arr[..], a0, l0);
  }

  /** With at most one element left in the middle everything is in order. */
  lemma SettledDone<T(!new)>(s: seq<T>, a0: int, a: int, l: int, l0: int, cmp: (T, T) -> int)
    requires TotalPreorder(cmp) && Settled(s, a0, a, l, l0, cmp) && l - a <= 1
    ensures InOrder(s, a0, l0, cmp)
  {
    PreorderReflexive(cmp);
  }

  lemma PreorderReflexive<T(!new)>(cmp: (T, T) -> int)
    requires TotalPreorder(cmp)
    ensures forall x :: cmp(x, x) == 0
  {
  }

  /** One pass of the loop at `start`: partition, sort the smaller part, keep the larger. */
  method Narrow<T(!new)>(arr: array<T>, ghost a0: nat, a: nat, l: nat, ghost l0: nat, cmp: (T, T) -> int)
    returns (b: nat, m: nat, ghost depth: nat)
    requires TotalPreorder(cmp) && a + 1 < l && l0 <= arr.Length && Settled(arr[..], a0, a, l, l0, cmp)
    modifies arr
    ensures a <= b && m <= l && m - b < l - a && Settled(arr[..], a0, b, m, l0, cmp)
    ensures Rearranged(old(arr[..]), arr[..], a0, l0)
    ensures 1 <= depth <= 1 + Log2(l0 - a0)
    decreases l0 - a0, 1
  {
    ghost var s := arr[..];
    ghost var p := arr[a + (l - a) / 2];
    PreorderAgrees(cmp, p);
    var lp, hp := Partition(arr, a, l, cmp, p);
    SettledKept(s, arr[..], a0, a, l, l0, cmp);
    RearrangedWider(s, arr[..], a0, l0, a, l);
    if lp - a >= l - hp {
      depth := SortSide(arr, a0, a, lp, hp, l, l0, hp + 1, l, cmp, p, s);
      b, m := a, lp;
    } else {
      depth := SortSide(arr, a0, a, lp, hp, l, l0, a, lp, cmp, p, s);
      b, m := hp + 1, l;
    }
  }

  method SortSide<T(!new)>(arr: array<T>, ghost a0: nat, ghost a: nat, ghost lp: nat, ghost hp: nat, ghost l: nat,
                           ghost l0: nat, b: nat, m: nat, cmp: (T, T) -> int, ghost p: T, ghost s0: seq<T>)
    returns (ghost depth: nat)
    requires TotalPreorder(cmp) && Settled(arr[..], a0, a, l, l0, cmp) && Split(arr[..], a, lp, lp, hp, hp, l, p, cmp)
    requires (b == a && m == lp) || (b == hp + 1 && m == l)
    requires l0 - a0 >= 2 && 2 * (m - b) < l0 - a0 && Rearranged(s0, arr[..], a0, l0)
    modifies arr
    ensures Rearranged(s0, arr[..], a0, l0)
    ensures b == a ==> Settled(arr[..], a0, hp + 1, l, l0, cmp)
    ensures b != a ==> Settled(arr[..], a0, a, lp, l0, cmp)
    ensures 1 <= depth <= 1 + Log2(l0 - a0)
    decreases l0 - a0, 0
  {
    ghost var s := arr[..];
    depth := Qs1(arr, b, m, cmp);
    SideSorted(s, arr[..], a0, a, lp, hp, l, l0, b, m, p, cmp);
    RearrangedTrans(s0, s, arr[..], a0, l0);
    DepthBound(l0 - a0, m - b, depth);
    depth := depth + 1;
  }

  lemma SideSorted<T(!new)>(s: seq<T>, t: seq<T>, a0: int, a: int, lp: int, hp: int, l: int, l0: int,
                            b: int, m: int, p: T, cmp: (T, T) -> int)
    requires TotalPreorder(cmp) && Settled(s, a0, a, l, l0, cmp) && Split(s, a, lp, lp, hp, hp, l, p, cmp)
    requires (b == a && m == lp) || (b == hp + 1 && m == l)
    requires Rearranged(s, t, b, m) && InOrder(t, b, m, cmp)
    ensures Rearranged(s, t, a0, l0)
    ensures b == a ==> Settled(t, a0, hp + 1, l, l0, cmp)
    ensures b != a ==> Settled(t, a0, a, lp, l0, cmp)
  {
    SplitKept(s, t, a, lp, hp, l, b, m, p, cmp);
    RearrangedWider(s, t, a, l, b, m);
    SettledKept(s, t, a0, a, l, l0, cmp);
    SideDone(t, a0, a, lp, hp, l, l0, p, cmp);
    RearrangedWider(s, t, a0, l0, a, l);
  }

  /** Sorted, a permutation, and logarithmic depth, for every array and every total preorder. */
  method Sort<T(!new)>(arr: array<T>, cmp: (T, T) -> int) returns (ghost depth: nat)
    requires TotalPreorder(cmp)
    modifies arr
    ensures Sorted(arr[..], cmp) && multiset(arr[..]) == old(multiset(arr[..]))
    ensures depth <= 1 + Log2(arr.Length)
  {
    depth := Qs1(arr, 0, arr.Length, cmp);
  }
}
