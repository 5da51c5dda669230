/** Numbered blocks or nodes that lie on exactly one of several lists. */
module Ownership {
  import opened Common
  import opened Lists

  type Owners = seq<seq<int>>

  ghost predicate Within(ls: Owners, lo: int, hi: int) {
    forall k, i :: 0 <= k < |ls| && 0 <= i < |ls[k]| ==> lo <= ls[k][i] < hi
  }

  ghost predicate Listed(ls: Owners, n: int) {
    exists k, i :: 0 <= k < |ls| && 0 <= i < |ls[k]| && ls[k][i] == n
  }

  function Total(ls: Owners): nat {
    if ls == [] then 0 else |ls[0]| + Total(ls[1..])
  }

  /** Every block from `lo` up to `hi` is on exactly one list, once, and nothing else is. */
  ghost predicate Owned(ls: Owners, lo: int, hi: int) {
    (&& Total(ls) == hi - lo
     && forall w :: Unfold(Topic.Ownership, w) ==>
          Disjoint(ls) && Within(ls, lo, hi) && forall n :: lo <= n < hi ==> Listed(ls, n)) == true
  }

  lemma InArea(ls: Owners, lo: int, hi: int, k: nat, i: nat)
    requires Owned(ls, lo, hi) && k < |ls| && i < |ls[k]|
    ensures lo <= ls[k][i] < hi
  {
    assert Unfold(Topic.Ownership, true);
  }

  lemma Apart(ls: Owners, lo: int, hi: int, k: nat, i: nat, l: nat, j: nat)
    requires Owned(ls, lo, hi) && k < |ls| && i < |ls[k]| && l < |ls| && j < |ls[l]| && (k != l || i != j)
    ensures ls[k][i] != ls[l][j]
  {
    assert Unfold(Topic.Ownership, true);
  }

  lemma ListDistinct(ls: Owners, lo: int, hi: int, k: nat)
    requires Owned(ls, lo, hi) && k < |ls|
    ensures forall i, j :: 0 <= i < j < |ls[k]| ==> ls[k][i] != ls[k][j]
  {
    assert Unfold(Topic.Ownership, true);
  }

  lemma {:induction false} TotalUpdate(ls: Owners, a: nat, s: seq<int>)
    requires a < |ls|
    ensures Total(ls[a := s]) == Total(ls) - |ls[a]| + |s|
  {
    if a == 0 {
      assert ls[0 := s][1..] == ls[1..];
    } else {
      assert ls[a := s][1..] == ls[1..][a - 1 := s];
      TotalUpdate(ls[1..], a - 1, s);
    }
  }

  /** One block moves from position `i` of a list to the end of another. */
  function Moved(ls: Owners, a: nat, i: nat, b: nat): (r: Owners)
    requires a < |ls| && b < |ls| && i < |ls[a]|
  {
    ls[a := RemoveAt(ls[a], i)][b := ls[b] + [ls[a][i]]]
  }

  lemma MovedDisjoint(ls: Owners, a: nat, i: nat, b: nat, ms: Owners)
    requires a < |ls| && b < |ls| && a != b && i < |ls[a]| && ms == Moved(ls, a, i, b) && Disjoint(ls)
    ensures Disjoint(ms)
  {
    var p := (k: int, j: int) => if k == b && j == |ls[b]| then (a, i) else if k == a && j >= i then (k, j + 1) else (k, j);
    forall k, j | 0 <= k < |ms| && 0 <= j < |ms[k]|
      ensures var (k', j') := p(k, j); 0 <= k' < |ls| && 0 <= j' < |ls[k']| && ms[k][j] == ls[k'][j']
    {
    }
  }

  lemma MovedListed(ls: Owners, a: nat, i: nat, b: nat, ms: Owners, n: int)
    requires a < |ls| && b < |ls| && a != b && i < |ls[a]| && ms == Moved(ls, a, i, b)
    ensures Listed(ls, n) ==> Listed(ms, n)
  {
    if Listed(ls, n) {
      var k, j :| 0 <= k < |ls| && 0 <= j < |ls[k]| && ls[k][j] == n;
      if k == a && j == i {
        assert ms[b][|ls[b]|] == n;
      } else if k == a && j > i {
        assert ms[a][j - 1] == n;
      } else {
        assert ms[k][j] == n;
      }
    }
  }

  lemma MovedOwned(ls: Owners, a: nat, i: nat, b: nat, ms: Owners, lo: int, hi: int)
    requires a < |ls| && b < |ls| && a != b && i < |ls[a]| && ms == Moved(ls, a, i, b) && Owned(ls, lo, hi)
    ensures Owned(ms, lo, hi)
  {
    assert Unfold(Topic.Ownership, true);
    MovedDisjoint(ls, a, i, b, ms);
    forall n | lo <= n < hi ensures Listed(ms, n) {
      assert Listed(ls, n);
      MovedListed(ls, a, i, b, ms, n);
    }
    TotalUpdate(ls, a, RemoveAt(ls[a], i));
    TotalUpdate(ls[a := RemoveAt(ls[a], i)], b, ls[b] + [ls[a][i]]);
  }

  /** The last block of the first list moves to the end of list `a`. */
  lemma TopMoved(ls: Owners, ms: Owners, a: nat, lo: int, hi: int)
    requires Owned(ls, lo, hi) && 0 < a < |ls| == |ms| && ls[0] != []
    requires ms[0] == ls[0][..|ls[0]| - 1] && ms[a] == ls[a] + [ls[0][|ls[0]| - 1]]
    requires forall k :: 0 < k < |ls| && k != a ==> ms[k] == ls[k]
    ensures Owned(ms, lo, hi) && lo <= ls[0][|ls[0]| - 1] < hi && ls[0][|ls[0]| - 1] !in ls[a]
  {
    var n := |ls[0]| - 1;
    assert RemoveAt(ls[0], n) == ls[0][..n];
    assert ms == Moved(ls, 0, n, a);
    MovedOwned(ls, 0, n, a, ms, lo, hi);
    InArea(ls, lo, hi, 0, n);
    forall i | 0 <= i < |ls[a]| ensures ls[a][i] != ls[0][n] { Apart(ls, lo, hi, a, i, 0, n); }
  }

  /** The first block of list `a` moves to the end of the first list. */
  lemma FrontMoved(ls: Owners, ms: Owners, a: nat, lo: int, hi: int)
    requires Owned(ls, lo, hi) && 0 < a < |ls| && ls[a] != []
    requires ms == ls[a := ls[a][1..]][0 := ls[0] + [ls[a][0]]]
    ensures Owned(ms, lo, hi) && lo <= ls[a][0] < hi
  {
    assert RemoveAt(ls[a], 0) == ls[a][1..];
    MovedOwned(ls, a, 0, 0, ms, lo, hi);
    InArea(ls, lo, hi, a, 0);
  }

  /** A block of the area is on one list and on no second one. */
  lemma OnOneList(ls: Owners, lo: int, hi: int, n: int)
    requires Owned(ls, lo, hi) && lo <= n < hi
    ensures exists k :: 0 <= k < |ls| && n in ls[k]
    ensures forall k, l :: 0 <= k < l < |ls| && n in ls[k] ==> n !in ls[l]
  {
    assert Unfold(Topic.Ownership, true);
    assert Listed(ls, n);
    var k, i :| 0 <= k < |ls| && 0 <= i < |ls[k]| && ls[k][i] == n;
    assert n in ls[k];
  }

  /** A whole list is handed over to an empty one. */
  lemma HandOver(ls: Owners, a: nat, b: nat, ms: Owners, lo: int, hi: int)
    requires a < |ls| && b < |ls| && a != b && ls[b] == [] && ms == ls[b := ls[a]][a := []] && Owned(ls, lo, hi)
    ensures Owned(ms, lo, hi)
  {
    assert Unfold(Topic.Ownership, true);
    forall n | lo <= n < hi ensures Listed(ms, n) {
      assert Listed(ls, n);
      var k, j :| 0 <= k < |ls| && 0 <= j < |ls[k]| && ls[k][j] == n;
      assert ms[if k == a then b else k][j] == n;
    }
    TotalUpdate(ls, b, ls[a]);
    TotalUpdate(ls[b := ls[a]], a, []);
    HandOverDisjoint(ls, a, b, ms);
  }

  lemma HandOverDisjoint(ls: Owners, a: nat, b: nat, ms: Owners)
    requires a < |ls| && b < |ls| && a != b && ls[b] == [] && ms == ls[b := ls[a]][a := []] && Disjoint(ls)
    ensures Disjoint(ms)
  {
    forall k, i, l, j | 0 <= k < |ms| && 0 <= i < |ms[k]| && 0 <= l < |ms| && 0 <= j < |ms[l]| && ms[k][i] == ms[l][j]
      ensures k == l && i == j
    {
      var k', l' := if k == b then a else k, if l == b then a else l;
      assert ls[k'][i] == ls[l'][j];
    }
  }

  function Reversed(s: seq<int>): (r: seq<int>)
    ensures |r| == |s| && forall i :: 0 <= i < |s| ==> r[i] == s[|s| - 1 - i]
  {
    if s == [] then [] else [s[|s| - 1]] + Reversed(s[..|s| - 1])
  }

  /** A list is emptied onto another, last block first. */
  lemma {:induction false} Emptied(ls: Owners, a: nat, b: nat, ms: Owners, lo: int, hi: int)
    requires a < |ls| && b < |ls| && a != b && Owned(ls, lo, hi)
    requires ms == ls[b := ls[b] + Reversed(ls[a])][a := []]
    ensures Owned(ms, lo, hi)
    decreases |ls[a]|
  {
    if ls[a] == [] {
      assert ls[b] + Reversed(ls[a]) == ls[b];
      assert ms == ls;
    } else {
      var n := |ls[a]| - 1;
      var m := Moved(ls, a, n, b);
      MovedOwned(ls, a, n, b, m, lo, hi);
      assert RemoveAt(ls[a], n) == ls[a][..n];
      assert m[a] == ls[a][..n] && m[b] == ls[b] + [ls[a][n]];
      assert m[b] + Reversed(m[a]) == ls[b] + Reversed(ls[a]);
      assert ms == m[b := m[b] + Reversed(m[a])][a := []];
      Emptied(m, a, b, ms, lo, hi);
    }
  }

  /** All numbers of an area on one list, the last one first. */
  function Countdown(lo: int, hi: int): (s: seq<int>)
    requires lo <= hi
  {
    seq(hi - lo, k => hi - 1 - k)
  }

  lemma CountdownOwned(ls: Owners, lo: int, hi: int)
    requires lo <= hi && ls != [] && ls[0] == Countdown(lo, hi) && forall k :: 1 <= k < |ls| ==> ls[k] == []
    ensures Owned(ls, lo, hi)
  {
    assert Unfold(Topic.Ownership, true);
    forall n | lo <= n < hi ensures Listed(ls, n) { assert ls[0][hi - 1 - n] == n; }
    EmptyTotal(ls[1..]);
  }

  lemma {:induction false} EmptyTotal(ls: Owners)
    requires forall k :: 0 <= k < |ls| ==> ls[k] == []
    ensures Total(ls) == 0
  {
    if ls != [] { EmptyTotal(ls[1..]); }
  }
}
