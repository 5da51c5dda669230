/**
  The table that holds every process queue as a doubly linked list. Entries below
  NPROC belong to processes; queue number `k` has its head at `NPROC + 2k` and its
  tail in the entry after it.
*/
module QueueLinks {
  import opened Common
  import opened Lists
  import opened KernelSpec

  const NQENT := NPROC + 4 + NSEM + NSEM
  const EMPTY := -1

  datatype QEntry = QEntry(qkey: int, qnext: int, qprev: int)

  type Table = t: seq<QEntry> | |t| == NQENT witness seq(NQENT, i => QEntry(0, 0, 0))

  function Head(k: nat): nat { NPROC + 2 * k }

  function Tail(k: nat): nat { Head(k) + 1 }

  /** The i-th entry of queue `k`, counting the head as entry 0 and the tail as the last. */
  function Node(q: seq<Pid>, k: nat, i: nat): (n: nat)
    ensures n < Head(k) ==> n < NPROC
  {
    if i == 0 then Head(k) else if i <= |q| then q[i - 1] else Tail(k)
  }

  ghost predicate Linked(t: seq<QEntry>, k: nat, q: seq<Pid>, i: nat, j: nat) {
    && Node(q, k, i) < |t| && t[Node(q, k, i)].qnext == Node(q, k, j)
    && Node(q, k, j) < |t| && t[Node(q, k, j)].qprev == Node(q, k, i)
  }

  ghost predicate Chain(t: seq<QEntry>, k: nat, q: seq<Pid>) {
    forall i, j :: 0 <= i < j <= |q| + 1 && j == i + 1 ==> Linked(t, k, q, i, j)
  }

  ghost predicate Absent(qs: seq<seq<Pid>>, p: int) {
    forall k, i :: 0 <= k < |qs| && 0 <= i < |qs[k]| ==> qs[k][i] != p
  }

  ghost predicate Sentinels(t: seq<QEntry>, n: nat) {
    forall k :: 0 <= k < n ==> Tail(k) < |t| && t[Head(k)].qkey == MAXKEY && t[Tail(k)].qkey == MINKEY
  }

  /** The table holds exactly these queues. */
  ghost predicate Represents(t: seq<QEntry>, qs: seq<seq<Pid>>) {
    (&& |t| == NQENT && |qs| <= NQUEUES && Disjoint(qs) && Sentinels(t, |qs|)
     && forall k :: 0 <= k < |qs| ==> Chain(t, k, qs[k])) == true
  }

  function Keys(t: seq<QEntry>): (r: seq<int>)
    requires |t| == NQENT
  {
    seq(NPROC, p requires 0 <= p < NPROC => t[p].qkey)
  }

  // ----- the two list edits

  /** Entry `p` is put between two neighbours. */
  function LinkIn(t: Table, p: Pid, prev: nat, next: nat): (r: Table)
    requires prev < NQENT && next < NQENT
  {
    var t1 := t[p := QEntry(t[p].qkey, next, prev)];
    var t2 := t1[prev := t1[prev].(qnext := p)];
    t2[next := t2[next].(qprev := p)]
  }

  /** The two neighbours of an entry are joined. */
  function LinkOut(t: Table, prev: nat, next: nat): (r: Table)
    requires prev < NQENT && next < NQENT
  {
    var t1 := t[prev := t[prev].(qnext := next)];
    t1[next := t1[next].(qprev := prev)]
  }

  lemma LinkInKeeps(t: Table, qs: seq<seq<Pid>>, k: nat, i: nat, p: Pid, r: Table)
    requires Represents(t, qs) && k < |qs| && i <= |qs[k]| && Absent(qs, p)
    requires Node(qs[k], k, i) < NQENT && Node(qs[k], k, i + 1) < NQENT
    requires r == LinkIn(t, p, Node(qs[k], k, i), Node(qs[k], k, i + 1))
    ensures Represents(r, qs[k := InsertAt(qs[k], i, p)])
    ensures Keys(r) == Keys(t)
  {
    var qs' := qs[k := InsertAt(qs[k], i, p)];
    forall l | 0 <= l < |qs| ensures Chain(r, l, qs'[l]) {
      assert Chain(t, l, qs[l]);
      if l == k {
        LinkInChain(t, qs, k, i, p, r);
      } else {
        LinkInOther(t, qs, k, i, p, r, l);
      }
    }
    InsertDisjoint(qs, k, i, p);
  }

  lemma InsertDisjoint(qs: seq<seq<Pid>>, k: nat, i: nat, p: Pid)
    requires Disjoint(qs) && k < |qs| && i <= |qs[k]| && Absent(qs, p)
    ensures Disjoint(qs[k := InsertAt(qs[k], i, p)])
  {
  }

  lemma LinkInChain(t: Table, qs: seq<seq<Pid>>, k: nat, i: nat, p: Pid, r: Table)
    requires Represents(t, qs) && k < |qs| && i <= |qs[k]| && Absent(qs, p)
    requires Node(qs[k], k, i) < NQENT && Node(qs[k], k, i + 1) < NQENT
    requires r == LinkIn(t, p, Node(qs[k], k, i), Node(qs[k], k, i + 1))
    ensures Chain(r, k, InsertAt(qs[k], i, p))
  {
    var q, q' := qs[k], InsertAt(qs[k], i, p);
    forall a, b | 0 <= a < b <= |q'| + 1 && b == a + 1 ensures Linked(r, k, q', a, b) {
      InsertedNode(q, k, i, p, a);
      InsertedNode(q, k, i, p, b);
      assert Chain(t, k, q);
      if a < i {
        assert Linked(t, k, q, a, b);
        NodesDiffer(qs, k, a, k, i);
        NodesDiffer(qs, k, b, k, i + 1);
      } else if a > i + 1 {
        assert Linked(t, k, q, a - 1, b - 1);
        NodesDiffer(qs, k, a - 1, k, i);
        NodesDiffer(qs, k, b - 1, k, i + 1);
      }
      assert Linked(t, k, q, i, i + 1);
      NodesDiffer(qs, k, i, k, i + 1);
    }
  }

  lemma InsertedNode(q: seq<Pid>, k: nat, i: nat, p: Pid, a: nat)
    requires i <= |q| && a <= |q| + 2
    ensures Node(InsertAt(q, i, p), k, a) == if a <= i then Node(q, k, a) else if a == i + 1 then p else Node(q, k, a - 1)
  {
  }

  lemma NodesDiffer(qs: seq<seq<Pid>>, k: nat, i: nat, l: nat, j: nat)
    requires Disjoint(qs) && k < |qs| && l < |qs| && i <= |qs[k]| + 1 && j <= |qs[l]| + 1
    requires k != l || i != j
    ensures Node(qs[k], k, i) != Node(qs[l], l, j)
  {
  }

  lemma LinkInOther(t: Table, qs: seq<seq<Pid>>, k: nat, i: nat, p: Pid, r: Table, l: nat)
    requires Represents(t, qs) && k < |qs| && i <= |qs[k]| && Absent(qs, p) && l < |qs| && l != k
    requires Node(qs[k], k, i) < NQENT && Node(qs[k], k, i + 1) < NQENT
    requires r == LinkIn(t, p, Node(qs[k], k, i), Node(qs[k], k, i + 1))
    ensures Chain(r, l, qs[l])
  {
    assert Chain(t, l, qs[l]);
    forall a, b | 0 <= a < b <= |qs[l]| + 1 && b == a + 1 ensures Linked(r, l, qs[l], a, b) {
      assert Linked(t, l, qs[l], a, b);
      NodesDiffer(qs, l, a, k, i);
      NodesDiffer(qs, l, b, k, i + 1);
    }
  }

  lemma LinkOutKeeps(t: Table, qs: seq<seq<Pid>>, k: nat, i: nat, r: Table)
    requires Represents(t, qs) && k < |qs| && i < |qs[k]|
    requires Node(qs[k], k, i) < NQENT && Node(qs[k], k, i + 2) < NQENT
    requires r == LinkOut(t, Node(qs[k], k, i), Node(qs[k], k, i + 2))
    ensures Represents(r, qs[k := RemoveAt(qs[k], i)])
    ensures Keys(r) == Keys(t)
    ensures Absent(qs[k := RemoveAt(qs[k], i)], qs[k][i])
  {
    var qs' := qs[k := RemoveAt(qs[k], i)];
    forall l | 0 <= l < |qs| ensures Chain(r, l, qs'[l]) {
      assert Chain(t, l, qs[l]);
      if l == k {
        LinkOutChain(t, qs, k, i, r);
      } else {
        forall a, b | 0 <= a < b <= |qs[l]| + 1 && b == a + 1 ensures Linked(r, l, qs[l], a, b) {
          assert Linked(t, l, qs[l], a, b);
          NodesDiffer(qs, l, a, k, i);
          NodesDiffer(qs, l, b, k, i + 2);
        }
      }
    }
    RemoveDisjoint(qs, k, i);
  }

  lemma RemoveDisjoint(qs: seq<seq<Pid>>, k: nat, i: nat)
    requires Disjoint(qs) && k < |qs| && i < |qs[k]|
    ensures Disjoint(qs[k := RemoveAt(qs[k], i)])
    ensures Absent(qs[k := RemoveAt(qs[k], i)], qs[k][i])
  {
  }

  lemma RemovedNode(q: seq<Pid>, k: nat, i: nat, a: nat)
    requires i < |q| && a <= |q|
    ensures Node(RemoveAt(q, i), k, a) == if a <= i then Node(q, k, a) else Node(q, k, a + 1)
  {
  }

  lemma LinkOutChain(t: Table, qs: seq<seq<Pid>>, k: nat, i: nat, r: Table)
    requires Represents(t, qs) && k < |qs| && i < |qs[k]|
    requires Node(qs[k], k, i) < NQENT && Node(qs[k], k, i + 2) < NQENT
    requires r == LinkOut(t, Node(qs[k], k, i), Node(qs[k], k, i + 2))
    ensures Chain(r, k, RemoveAt(qs[k], i))
  {
    var q, q' := qs[k], RemoveAt(qs[k], i);
    assert Chain(t, k, q);
    forall a, b | 0 <= a < b <= |q'| + 1 && b == a + 1 ensures Linked(r, k, q', a, b) {
      RemovedNode(q, k, i, a);
      RemovedNode(q, k, i, b);
      NodesDiffer(qs, k, i, k, i + 2);
      if a < i {
        assert Linked(t, k, q, a, b);
        NodesDiffer(qs, k, a, k, i);
        NodesDiffer(qs, k, b, k, i + 2);
      } else if a > i {
        assert Linked(t, k, q, a + 1, b + 1);
        NodesDiffer(qs, k, a + 1, k, i);
        NodesDiffer(qs, k, b + 1, k, i + 2);
      }
    }
  }

  /** An entry off every queue may change altogether, a queued one in its key. */
  lemma EntryEditKeeps(t: Table, qs: seq<seq<Pid>>, p: Pid, e: QEntry, r: Table)
    requires Represents(t, qs) && r == t[p := e]
    requires Absent(qs, p) || (e.qnext == t[p].qnext && e.qprev == t[p].qprev)
    ensures Represents(r, qs)
    ensures Keys(r) == Keys(t)[p := e.qkey]
  {
    forall k | 0 <= k < |qs| ensures Chain(r, k, qs[k]) {
      assert Chain(t, k, qs[k]);
      forall a, b | 0 <= a < b <= |qs[k]| + 1 && b == a + 1 ensures Linked(r, k, qs[k], a, b) {
        assert Linked(t, k, qs[k], a, b);
      }
    }
  }

  /** The first unused pair of sentinels becomes an empty queue. */
  lemma NewKeeps(t: Table, qs: seq<seq<Pid>>, r: Table)
    requires Represents(t, qs) && |qs| < NQUEUES
    requires r == t[Head(|qs|) := QEntry(MAXKEY, Tail(|qs|), EMPTY)][Tail(|qs|) := QEntry(MINKEY, EMPTY, Head(|qs|))]
    ensures Represents(r, qs + [[]])
    ensures Keys(r) == Keys(t)
  {
    var qs' := qs + [[]];
    forall k | 0 <= k < |qs'| ensures Chain(r, k, qs'[k]) {
      if k < |qs| {
        assert Chain(t, k, qs[k]);
        forall a, b | 0 <= a < b <= |qs[k]| + 1 && b == a + 1 ensures Linked(r, k, qs[k], a, b) {
          assert Linked(t, k, qs[k], a, b);
        }
      }
    }
  }

  /** What the table says about the entry at position `i` of a queue. */
  lemma NodeAt(t: Table, qs: seq<seq<Pid>>, k: nat, i: nat)
    requires Represents(t, qs) && k < |qs| && i <= |qs[k]|
    ensures Node(qs[k], k, i) < NQENT && Node(qs[k], k, i + 1) < NQENT
    ensures t[Node(qs[k], k, i)].qnext == Node(qs[k], k, i + 1)
    ensures t[Node(qs[k], k, i + 1)].qprev == Node(qs[k], k, i)
    ensures Node(qs[k], k, i + 1) < NPROC <==> i < |qs[k]|
    ensures i == |qs[k]| ==> Node(qs[k], k, i + 1) == Tail(k) && t[Tail(k)].qkey == MINKEY
  {
    assert Chain(t, k, qs[k]);
    assert Linked(t, k, qs[k], i, i + 1);
  }
}

/** `queuetab` and the operations on it. */
module Queues {
  import opened Common
  import opened Lists
  import opened KernelSpec
  import opened QueueLinks

  class QueueTable {
    const tab: array<QEntry>
    const proctab: array<Proc>
    var nextqid: int
    ghost var queues: seq<seq<Pid>>   // the contents, front first

    ghost predicate Valid()
      reads this, tab
    {
      && tab.Length == NQENT && proctab.Length == NPROC
      && nextqid == Head(|queues|)
      && Represents(tab[..], queues)
    }

    constructor (procs: array<Proc>)
      requires procs.Length == NPROC
      ensures Valid() && queues == [] && proctab == procs && fresh(tab)
      ensures Keys(tab[..]) == seq(NPROC, p => 0)
    {
      proctab := procs;
      nextqid := NPROC;
      queues := [];
      tab := new QEntry[NQENT](_ => QEntry(0, 0, 0));
    }

    predicate BadPid(p: int)
      reads proctab
      requires proctab.Length == NPROC
    {
      !(0 <= p < NPROC) || proctab[p].st == Free
    }

    static predicate BadQid(q: int) { q < NPROC || q >= NQENT - 1 }

    /** `q` is the identifier of queue number `k`. */
    ghost predicate Names(q: int, k: nat)
      reads this
    {
      k < |queues| && q == Head(k)
    }

    method NewQueue() returns (q: int)
      requires Valid()
      modifies this, tab
      ensures Valid() && Keys(tab[..]) == old(Keys(tab[..]))
      ensures if old(|queues|) == NQUEUES then q == SYSERR && queues == old(queues)
              else q == Head(old(|queues|)) && queues == old(queues) + [[]]
    {
      q := nextqid;
      if q >= NQENT { return SYSERR; }
      nextqid := nextqid + 2;
      tab[q] := QEntry(MAXKEY, q + 1, EMPTY);
      tab[q + 1] := QEntry(MINKEY, EMPTY, q);
      NewKeeps(old(tab[..]), queues, tab[..]);
      queues := queues + [[]];
    }

    /** A process entry is put between entry `i` of queue `k` and the next one. */
    method Splice(pid: Pid, prev: nat, next: nat, key: int, ghost k: nat, ghost i: nat)
      requires Valid() && k < |queues| && i <= |queues[k]| && Absent(queues, pid)
      requires prev == Node(queues[k], k, i) && next == Node(queues[k], k, i + 1)
      modifies this`queues, tab
      ensures Valid() && queues == old(queues)[k := InsertAt<Pid>(old(queues[k]), i, pid)]
      ensures Keys(tab[..]) == old(Keys(tab[..]))[pid := key]
    {
      NodeAt(tab[..], queues, k, i);
      tab[pid] := QEntry(key, next, prev);
      EntryEditKeeps(old(tab[..]), queues, pid, QEntry(key, next, prev), tab[..]);
      ghost var t := tab[..];
      tab[prev] := tab[prev].(qnext := pid);
      tab[next] := tab[next].(qprev := pid);
      assert tab[..] == LinkIn(t, pid, prev, next);
      LinkInKeeps(t, queues, k, i, pid, tab[..]);
      queues := queues[k := InsertAt(queues[k], i, pid)];
    }

    method Enqueue(pid: int, q: int, ghost k: nat) returns (r: int)
      requires Valid() && (BadQid(q) || Names(q, k))
      requires BadPid(pid) || Absent(queues, pid)
      modifies this`queues, tab
      ensures Valid()
      ensures if BadQid(q) || BadPid(pid) then r == SYSERR && queues == old(queues) && tab[..] == old(tab[..])
              else (&& r == pid && Keys(tab[..]) == old(Keys(tab[..]))
                    && queues == old(queues)[k := InsertAt<Pid>(old(queues[k]), old(|queues[k]|), pid)])
    {
      if BadQid(q) || BadPid(pid) { return SYSERR; }
      var tail := q + 1;
      NodeAt(tab[..], queues, k, |queues[k]|);
      var prev := tab[tail].qprev;
      Splice(pid, prev, tail, tab[pid].qkey, k, |queues[k]|);
      assert Keys(tab[..]) == old(Keys(tab[..]));
      return pid;
    }

    predicate IsEmpty(q: nat)
      reads tab
      requires q < tab.Length
    {
      tab[q].qnext >= NPROC
    }

    lemma FirstEntry(k: nat)
      requires Valid() && k < |queues|
      ensures IsEmpty(Head(k)) <==> queues[k] == []
      ensures tab[Head(k)].qnext == Node(queues[k], k, 1) < NQENT
      ensures tab[Node(queues[k], k, 1)].qkey ==
              if queues[k] == [] then MINKEY else Keys(tab[..])[queues[k][0]]
    {
      NodeAt(tab[..], queues, k, 0);
    }

    /** Removes the entry at position `i` of queue `k`. */
    method GetItem(pid: Pid, ghost k: nat, ghost i: nat) returns (r: Pid)
      requires Valid() && k < |queues| && i < |queues[k]| && queues[k][i] == pid
      modifies this`queues, tab
      ensures Valid() && r == pid && queues == old(queues)[k := RemoveAt(old(queues[k]), i)]
      ensures Absent(queues, pid) && Keys(tab[..]) == old(Keys(tab[..]))
    {
      NodeAt(tab[..], queues, k, i);
      NodeAt(tab[..], queues, k, i + 1);
      var next, prev := tab[pid].qnext, tab[pid].qprev;
      tab[prev] := tab[prev].(qnext := next);
      tab[next] := tab[next].(qprev := prev);
      assert tab[..] == LinkOut(old(tab[..]), prev, next);
      LinkOutKeeps(old(tab[..]), queues, k, i, tab[..]);
      queues := queues[k := RemoveAt(queues[k], i)];
      return pid;
    }

    method GetFirst(q: int, ghost k: nat) returns (r: int)
      requires Valid() && Names(q, k)
      modifies this`queues, tab
      ensures Valid() && Keys(tab[..]) == old(Keys(tab[..]))
      ensures if old(queues[k]) == [] then r == EMPTY && queues == old(queues)
              else r == old(queues[k][0]) && queues == old(queues)[k := RemoveAt(old(queues[k]), 0)] && Absent(queues, r)
    {
      FirstEntry(k);
      if IsEmpty(q) { return EMPTY; }
      r := GetItem(tab[q].qnext, k, 0);
    }

    method GetLast(q: int, ghost k: nat) returns (r: int)
      requires Valid() && Names(q, k)
      modifies this`queues, tab
      ensures Valid() && Keys(tab[..]) == old(Keys(tab[..]))
      ensures if old(queues[k]) == [] then r == EMPTY && queues == old(queues)
              else var n := old(|queues[k]|) - 1;
                r == old(queues[k])[n] && queues == old(queues)[k := RemoveAt(old(queues[k]), n)] && Absent(queues, r)
    {
      FirstEntry(k);
      if IsEmpty(q) { return EMPTY; }
      NodeAt(tab[..], queues, k, |queues[k]|);
      r := GetItem(tab[q + 1].qprev, k, |queues[k]| - 1);
    }

    method Dequeue(q: int, ghost k: nat) returns (r: int)
      requires Valid() && (BadQid(q) || Names(q, k))
      modifies this`queues, tab
      ensures Valid()
      ensures if BadQid(q) then r == SYSERR && queues == old(queues) && tab[..] == old(tab[..])
              else if old(queues[k]) == [] then r == EMPTY && queues == old(queues) && tab[..] == old(tab[..])
              else (&& r == old(queues[k][0]) && queues == old(queues)[k := RemoveAt(old(queues[k]), 0)]
                    && Absent(queues, r) && Keys(tab[..]) == old(Keys(tab[..])))
    {
      if BadQid(q) { return SYSERR; }
      FirstEntry(k);
      if IsEmpty(q) { return EMPTY; }
      r := GetFirst(q, k);
      ghost var t := tab[..];
      tab[r] := tab[r].(qnext := EMPTY, qprev := EMPTY);
      EntryEditKeeps(t, queues, r, QEntry(t[r].qkey, EMPTY, EMPTY), tab[..]);
    }

    /** Behind every entry with a key at least `key`; the walk ends at the tail's least key. */
    method Insert(pid: int, q: int, key: int, ghost k: nat) returns (r: int)
      requires Valid() && (BadQid(q) || Names(q, k)) && MINKEY < key
      requires BadPid(pid) || Absent(queues, pid)
      modifies this`queues, tab
      ensures Valid()
      ensures if BadQid(q) || BadPid(pid) then r == SYSERR && queues == old(queues) && tab[..] == old(tab[..])
              else (&& r == OK && Keys(tab[..]) == old(Keys(tab[..]))[pid := key]
                    && queues == old(queues)[k := InsertAt<Pid>(old(queues[k]), PrioPos(old(queues[k]), old(Keys(tab[..])), key), pid)])
    {
      if BadQid(q) || BadPid(pid) { return SYSERR; }
      ghost var i: nat, keys := 0, Keys(tab[..]);
      NodeAt(tab[..], queues, k, 0);
      var curr := tab[q].qnext;
      while tab[curr].qkey >= key
        invariant queues == old(queues) && tab[..] == old(tab[..])
        invariant i <= |queues[k]| && curr == Node(queues[k], k, i + 1) < NQENT
        invariant curr < NPROC <==> i < |queues[k]|
        invariant curr >= NPROC ==> tab[curr].qkey == MINKEY
        invariant forall j :: 0 <= j < i ==> keys[queues[k][j]] >= key
        decreases |queues[k]| - i
      {
        NodeAt(tab[..], queues, k, i + 1);
        curr := tab[curr].qnext;
        i := i + 1;
      }
      NodeAt(tab[..], queues, k, i);
      var prev := tab[curr].qprev;
      assert i == PrioPos(queues[k], keys, key);
      Splice(pid, prev, curr, key, k, i);
      return OK;
    }

    /** Delta-list insertion: the new entry's delta is what is left of the delay. */
    method InsertD(pid: int, q: int, delay: int, ghost k: nat) returns (r: int)
      requires Valid() && (BadQid(q) || Names(q, k))
      requires BadPid(pid) || Absent(queues, pid)
      modifies this`queues, tab
      ensures Valid()
      ensures if BadQid(q) || BadPid(pid) then r == SYSERR && queues == old(queues) && tab[..] == old(tab[..])
              else r == OK && Inserted(old(queues), old(Keys(tab[..])), queues, Keys(tab[..]), pid, k, delay)
    {
      if BadQid(q) || BadPid(pid) { return SYSERR; }
      var key := delay;
      ghost var i: nat, keys := 0, Keys(tab[..]);
      NodeAt(tab[..], queues, k, 0);
      var prev, next := q, tab[q].qnext;
      while next != q + 1 && tab[next].qkey <= key
        invariant queues == old(queues) && tab[..] == old(tab[..])
        invariant i <= |queues[k]| && prev == Node(queues[k], k, i) < NQENT && next == Node(queues[k], k, i + 1) < NQENT
        invariant next != q + 1 <==> i < |queues[k]|
        invariant key == delay - KeySum(queues[k], keys, i)
        invariant DeltaPos(queues[k], keys, delay, 0) == DeltaPos(queues[k], keys, delay, i)
        decreases |queues[k]| - i
      {
        NodeAt(tab[..], queues, k, i + 1);
        key := key - tab[next].qkey;
        prev, next := next, tab[next].qnext;
        i := i + 1;
      }
      Splice(pid, prev, next, key, k, i);
      if next != q + 1 {
        ghost var t := tab[..];
        assert Keys(t)[next] == keys[next];
        tab[next] := tab[next].(qkey := tab[next].qkey - key);
        EntryEditKeeps(t, queues, next, t[next].(qkey := t[next].qkey - key), tab[..]);
      }
      return OK;
    }

    /** What `InsertD` leaves: the entry behind the new one has its delta reduced. */
    static ghost predicate Inserted(qs: seq<seq<Pid>>, keys: seq<int>, qs': seq<seq<Pid>>, keys': seq<int>,
                                    pid: Pid, k: nat, d: int)
      requires k < |qs| && |keys| == NPROC
    {
      var i := DeltaPos(qs[k], keys, d, 0);
      var rest := d - KeySum(qs[k], keys, i);
      && qs' == qs[k := InsertAt<Pid>(qs[k], i, pid)]
      && keys' == if i < |qs[k]| then keys[pid := rest][qs[k][i] := keys[qs[k][i]] - rest] else keys[pid := rest]
    }
  }
}
