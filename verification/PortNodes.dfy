/** The message nodes that all ports share: a free list and one list per port, linked by index. */
module PortLinks {
  import opened Common
  import opened Ownership
  import opened PortSpec

  const NULL := -1

  datatype Node = Node(msg: int, next: int)

  function First(s: seq<int>): int { if s == [] then NULL else s[0] }

  function Last(s: seq<int>): int { if s == [] then NULL else s[|s| - 1] }

  /** Node `i` of a port's list leads to the next one. */
  ghost predicate QueueLink(t: seq<Node>, l: seq<int>, i: int)
    requires 0 <= i < |l|
  {
    0 <= l[i] < |t| && t[l[i]].next == if i + 1 < |l| then l[i + 1] else NULL
  }

  /** The free list, first node last. */
  ghost predicate FreeLink(t: seq<Node>, l: seq<int>, i: int)
    requires 0 <= i < |l|
  {
    0 <= l[i] < |t| && t[l[i]].next == if i == 0 then NULL else l[i - 1]
  }

  ghost predicate QueueLinked(t: seq<Node>, l: seq<int>) {
    forall i :: 0 <= i < |l| ==> QueueLink(t, l, i)
  }

  ghost predicate FreeLinked(t: seq<Node>, l: seq<int>) {
    forall i :: 0 <= i < |l| ==> FreeLink(t, l, i)
  }

  /** List 0 is the free list; port `k` has list `k + 1`. */
  ghost predicate Linked(t: seq<Node>, ls: Owners) {
    && |ls| == NPORTS + 1 && Owned(ls, 0, |t|) && FreeLinked(t, ls[0])
    && forall k :: 1 <= k <= NPORTS ==> QueueLinked(t, ls[k])
  }

  /** Head and tail of every port in use are the ends of its list; others have no list. */
  ghost predicate EndsOK(head: seq<int>, tail: seq<int>, live: seq<bool>, ls: Owners) {
    && |head| == |tail| == |live| == NPORTS && |ls| == NPORTS + 1
    && forall k :: 0 <= k < NPORTS ==>
         if live[k] then head[k] == First(ls[k + 1]) && tail[k] == Last(ls[k + 1]) else ls[k + 1] == []
  }

  /** The messages on a list, in order. */
  function Messages(t: seq<Node>, l: seq<int>): (r: seq<int>)
    ensures |r| == |l|
  {
    seq(|l|, i requires 0 <= i < |l| => if 0 <= l[i] < |t| then t[l[i]].msg else 0)
  }

  /** The messages on the lists of all ports. */
  function QueuesOf(t: seq<Node>, ls: Owners): (r: seq<seq<int>>)
    ensures |r| == NPORTS
  {
    seq(NPORTS, k requires 0 <= k < NPORTS => if k + 1 < |ls| then Messages(t, ls[k + 1]) else [])
  }

  /** Writes to nodes of one list leave the other lists alone. */
  lemma OtherList(t: seq<Node>, u: seq<Node>, ls: Owners, ms: Owners, a: nat)
    requires Linked(t, ls) && |u| == |t| && |ms| == |ls| && 1 <= a <= NPORTS
    requires forall n :: 0 <= n < |t| && u[n] != t[n] ==> n in ms[a] || n in ms[0]
    requires Owned(ms, 0, |t|) && forall k :: 1 <= k <= NPORTS && k != a ==> ms[k] == ls[k]
    ensures forall k :: 1 <= k <= NPORTS && k != a ==> QueueLinked(u, ms[k]) && Messages(u, ms[k]) == Messages(t, ls[k])
  {
    forall k | 1 <= k <= NPORTS && k != a ensures QueueLinked(u, ms[k]) && Messages(u, ms[k]) == Messages(t, ls[k]) {
      forall i | 0 <= i < |ms[k]| ensures QueueLink(u, ms[k], i) && u[ms[k][i]] == t[ms[k][i]] {
        assert QueueLink(t, ls[k], i);
        NotOn(ms, k, i, a, |t|);
        NotOn(ms, k, i, 0, |t|);
      }
    }
  }

  lemma NotOn(ls: Owners, k: nat, i: nat, a: nat, n: nat)
    requires Owned(ls, 0, n) && k < |ls| && i < |ls[k]| && a < |ls| && a != k
    ensures ls[k][i] !in ls[a]
  {
    forall j | 0 <= j < |ls[a]| ensures ls[a][j] != ls[k][i] { Apart(ls, 0, n, k, i, a, j); }
  }

  // ----- the three list edits

  /** The first free node is filled and linked behind the last node of list `a`. */
  ghost predicate PutNode(t: seq<Node>, ls: Owners, a: nat, m: int, u: seq<Node>) {
    && 0 < a < |ls| && ls[0] != [] && 0 <= Last(ls[0]) < |t| && (ls[a] != [] ==> 0 <= Last(ls[a]) < |t|)
    && var v := t[Last(ls[0]) := Node(m, NULL)];
       u == if ls[a] == [] then v else v[Last(ls[a]) := v[Last(ls[a])].(next := Last(ls[0]))]
  }

  lemma PutFree(t: seq<Node>, ls: Owners, a: nat, m: int, u: seq<Node>)
    requires Linked(t, ls) && PutNode(t, ls, a, m, u)
    ensures FreeLinked(u, ls[0][..|ls[0]| - 1])
  {
    var n := |ls[0]| - 1;
    var l := ls[0][..n];
    forall i | 0 <= i < n ensures FreeLink(u, l, i) {
      assert FreeLink(t, ls[0], i);
      Apart(ls, 0, |t|, 0, i, 0, n);
      if ls[a] != [] { Apart(ls, 0, |t|, 0, i, a, |ls[a]| - 1); }
    }
  }

  lemma PutQueue(t: seq<Node>, ls: Owners, a: nat, m: int, u: seq<Node>)
    requires Linked(t, ls) && PutNode(t, ls, a, m, u)
    ensures QueueLinked(u, ls[a] + [Last(ls[0])]) && Messages(u, ls[a] + [Last(ls[0])]) == Messages(t, ls[a]) + [m]
  {
    var n, l := |ls[0]| - 1, ls[a] + [Last(ls[0])];
    assert QueueLinked(t, ls[a]);
    if ls[a] != [] { Apart(ls, 0, |t|, a, |ls[a]| - 1, 0, n); }
    forall i | 0 <= i < |l| ensures QueueLink(u, l, i) && u[l[i]].msg == if i < |ls[a]| then t[ls[a][i]].msg else m {
      if i < |ls[a]| {
        assert QueueLink(t, ls[a], i);
        Apart(ls, 0, |t|, a, i, 0, n);
        if i + 1 < |ls[a]| { Apart(ls, 0, |t|, a, i, a, |ls[a]| - 1); }
      }
    }
  }

  /** The first free node becomes the last of list `a`. */
  lemma PutLinks(t: seq<Node>, ls: Owners, a: nat, m: int, u: seq<Node>, ms: Owners)
    requires Linked(t, ls) && PutNode(t, ls, a, m, u)
    requires ms == ls[0 := ls[0][..|ls[0]| - 1]][a := ls[a] + [Last(ls[0])]]
    ensures Linked(u, ms) && Messages(u, ms[a]) == Messages(t, ls[a]) + [m]
    ensures forall k :: 1 <= k <= NPORTS && k != a ==> Messages(u, ms[k]) == Messages(t, ls[k])
  {
    TopMoved(ls, ms, a, 0, |t|);
    OtherList(t, u, ls, ms, a);
    PutFree(t, ls, a, m, u);
    PutQueue(t, ls, a, m, u);
  }

  /** The first node of list `a` becomes the first free one. */
  lemma TakeLinks(t: seq<Node>, ls: Owners, a: nat, u: seq<Node>, ms: Owners)
    requires Linked(t, ls) && 1 <= a <= NPORTS && ls[a] != [] && 0 <= ls[a][0] < |t|
    requires ms == ls[a := ls[a][1..]][0 := ls[0] + [ls[a][0]]]
    requires u == t[ls[a][0] := t[ls[a][0]].(next := Last(ls[0]))]
    ensures Linked(u, ms) && Messages(t, ls[a])[0] == t[ls[a][0]].msg && Messages(u, ms[a]) == Messages(t, ls[a])[1..]
    ensures forall k :: 1 <= k <= NPORTS && k != a ==> Messages(u, ms[k]) == Messages(t, ls[k])
  {
    FrontMoved(ls, ms, a, 0, |t|);
    OtherList(t, u, ls, ms, a);
    forall i | 0 <= i < |ms[0]| ensures FreeLink(u, ms[0], i) {
      InArea(ms, 0, |t|, 0, i);
      if i < |ls[0]| {
        assert FreeLink(t, ls[0], i);
        Apart(ls, 0, |t|, 0, i, a, 0);
      }
    }
    forall i | 0 <= i < |ms[a]| ensures QueueLink(u, ms[a], i) && u[ms[a][i]] == t[ls[a][i + 1]] {
      assert QueueLink(t, ls[a], i + 1);
      Apart(ls, 0, |t|, a, i + 1, a, 0);
    }
  }

  /** List `a` goes to the free list as a whole: its last node leads to the first free one. */
  lemma SpliceLinks(t: seq<Node>, ls: Owners, a: nat, u: seq<Node>, ms: Owners)
    requires Linked(t, ls) && 1 <= a <= NPORTS && ls[a] != [] && 0 <= Last(ls[a]) < |t|
    requires ms == ls[0 := ls[0] + Reversed(ls[a])][a := []]
    requires u == t[Last(ls[a]) := t[Last(ls[a])].(next := Last(ls[0]))]
    ensures Linked(u, ms) && forall k :: 1 <= k <= NPORTS && k != a ==> Messages(u, ms[k]) == Messages(t, ls[k])
  {
    Emptied(ls, a, 0, ms, 0, |t|);
    var n := |ls[a]|;
    assert ms[0][|ls[0]|] == Last(ls[a]);
    OtherList(t, u, ls, ms, a);
    forall i | 0 <= i < |ms[0]| ensures FreeLink(u, ms[0], i) {
      if i < |ls[0]| {
        assert FreeLink(t, ls[0], i);
        Apart(ls, 0, |t|, 0, i, a, n - 1);
      } else {
        var j := n - 1 - (i - |ls[0]|);
        assert QueueLink(t, ls[a], j) && ms[0][i] == ls[a][j];
        if j < n - 1 {
          Apart(ls, 0, |t|, a, j, a, n - 1);
          assert ms[0][i - 1] == ls[a][j + 1];
        }
      }
    }
  }
}

module PortNodes {
  import opened Common
  import opened Ownership
  import opened PortSpec
  import opened PortLinks

  lemma EndsMoved(head: seq<int>, tail: seq<int>, live: seq<bool>, ls: Owners, ms: Owners, k: nat)
    requires |head| == |tail| == |live| == NPORTS && |ls| == |ms| == NPORTS + 1 && k < NPORTS && live[k]
    requires EndsOK(head, tail, live, ls)
    requires forall a :: 1 <= a <= NPORTS && a != k + 1 ==> ms[a] == ls[a]
    ensures EndsOK(head[k := First(ms[k + 1])], tail[k := Last(ms[k + 1])], live, ms)
  {
    forall h | 0 <= h < NPORTS && h != k
      ensures if live[h] then head[h] == First(ms[h + 1]) && tail[h] == Last(ms[h + 1]) else ms[h + 1] == []
    {
      var a := h + 1;
      assert ms[a] == ls[a];
    }
  }

  class Pool {
    const nodes: array<Node>
    var ptfree: int
    var head: seq<int>
    var tail: seq<int>
    ghost var lists: Owners        // the free list, then one list per port
    ghost var live: seq<bool>      // ports whose head and tail are in use

    ghost predicate Valid()
      reads this, nodes
    {
      && |lists| == NPORTS + 1 && |head| == |tail| == |live| == NPORTS
      && Linked(nodes[..], lists) && ptfree == Last(lists[0]) && EndsOK(head, tail, live, lists)
    }

    ghost function Queues(): (r: seq<seq<int>>)
      reads this, nodes
      ensures |r| == NPORTS
    {
      QueuesOf(nodes[..], lists)
    }

    /** Links all nodes into the free list, in ascending order. */
    constructor (maxmsgs: nat)
      requires maxmsgs >= 1
      ensures Valid() && fresh(nodes) && nodes.Length == maxmsgs && |lists[0]| == maxmsgs
      ensures live == seq(NPORTS, k => false) && Queues() == seq(NPORTS, k => [])
    {
      nodes := new Node[maxmsgs](_ => Node(0, NULL));
      ptfree := 0;
      head, tail := seq(NPORTS, k => NULL), seq(NPORTS, k => NULL);
      lists := [Countdown(0, maxmsgs)] + seq(NPORTS, k => []);
      live := seq(NPORTS, k => false);
      new;
      var left, curr, next := maxmsgs - 1, 0, 0;
      while left > 0
        invariant 0 <= left < maxmsgs && curr == next == maxmsgs - 1 - left
        invariant forall n :: 0 <= n < curr ==> nodes[n].next == n + 1
        modifies nodes
      {
        next := next + 1;
        nodes[curr] := nodes[curr].(next := next);
        curr := next;
        left := left - 1;
      }
      nodes[curr] := nodes[curr].(next := NULL);
      CountdownOwned(lists, 0, maxmsgs);
      assert FreeLinked(nodes[..], lists[0]);
    }

    /** A port gets an empty list. */
    method OpenPort(k: nat)
      requires Valid() && k < NPORTS && !live[k]
      modifies this`head, this`tail, this`live
      ensures Valid() && live == old(live)[k := true] && Queues() == old(Queues())
    {
      head, tail := head[k := NULL], tail[k := NULL];
      live := live[k := true];
    }

    /** Appends a message; false if no node is left. */
    method Put(k: nat, msg: int) returns (ok: bool)
      requires Valid() && k < NPORTS && live[k]
      modifies this, nodes
      ensures Valid() && live == old(live) && ok == (old(|lists[0]|) > 0)
      ensures |lists[0]| == old(|lists[0]|) - if ok then 1 else 0
      ensures Queues() == if ok then old(Queues())[k := old(Queues())[k] + [msg]] else old(Queues())
    {
      EndsInside(k);
      if ptfree == NULL { return false; }
      ghost var t, ls := nodes[..], lists;
      var node := ptfree;
      ptfree := nodes[node].next;
      nodes[node] := Node(msg, NULL);
      var last := tail[k];
      if last == NULL {
        head, tail := head[k := node], tail[k := node];
      } else {
        nodes[last] := nodes[last].(next := node);
        tail := tail[k := node];
      }
      lists := lists[0 := lists[0][..|lists[0]| - 1]][k + 1 := lists[k + 1] + [node]];
      PutLinks(t, ls, k + 1, msg, nodes[..], lists);
      OthersKept(t, ls, k);
      return true;
    }

    /** Takes the first message and frees its node. */
    method Take(k: nat) returns (msg: int)
      requires Valid() && k < NPORTS && live[k] && Queues()[k] != []
      modifies this, nodes
      ensures Valid() && live == old(live) && |lists[0]| == old(|lists[0]|) + 1
      ensures msg == old(Queues())[k][0] && Queues() == old(Queues())[k := old(Queues())[k][1..]]
    {
      EndsInside(k);
      ghost var t, ls := nodes[..], lists;
      var node := head[k];
      msg := nodes[node].msg;
      Unhook(k, node);
      nodes[node] := nodes[node].(next := ptfree);
      ptfree := node;
      lists := lists[k + 1 := lists[k + 1][1..]][0 := lists[0] + [node]];
      TakeLinks(t, ls, k + 1, nodes[..], lists);
      EndsMoved(old(head), old(tail), live, ls, lists, k);
      OthersKept(t, ls, k);
    }

    /** Head and tail without the first node. */
    method Unhook(k: nat, node: nat)
      requires Valid() && k < NPORTS && live[k] && lists[k + 1] != [] && node == head[k] < nodes.Length
      modifies this`head, this`tail
      ensures head == old(head)[k := First(lists[k + 1][1..])] && tail == old(tail)[k := Last(lists[k + 1][1..])]
    {
      EndsInside(k);
      OneNode(k);
      if head[k] == tail[k] {
        head, tail := head[k := NULL], tail[k := NULL];
      } else {
        head := head[k := nodes[node].next];
        assert tail == tail[k := Last(lists[k + 1][1..])];
      }
    }

    /** Disposes of every message in order and gives all nodes of the port back at once. */
    method Clear(k: nat, alloc: bool) returns (disposed: seq<int>)
      requires Valid() && k < NPORTS && live[k]
      modifies this, nodes
      ensures Valid() && live == old(live)[k := alloc] && disposed == old(Queues())[k]
      ensures |lists[0]| == old(|lists[0]|) + |disposed| && Queues() == old(Queues())[k := []]
    {
      EndsInside(k);
      ghost var t, ls := nodes[..], lists;
      disposed := Walk(k);
      if head[k] != NULL {
        nodes[tail[k]] := nodes[tail[k]].(next := ptfree);
        ptfree := head[k];
        lists := lists[0 := lists[0] + Reversed(lists[k + 1])][k + 1 := []];
        SpliceLinks(t, ls, k + 1, nodes[..], lists);
        OthersKept(t, ls, k);
      }
      if alloc {
        head, tail := head[k := NULL], tail[k := NULL];
      }
      live := live[k := alloc];
    }

    method Walk(k: nat) returns (disposed: seq<int>)
      requires Valid() && k < NPORTS && live[k]
      ensures disposed == Queues()[k]
    {
      ghost var l := lists[k + 1];
      EndsInside(k);
      disposed := [];
      var walk := head[k];
      ghost var i := 0;
      while walk != NULL
        invariant 0 <= i <= |l| && walk == (if i < |l| then l[i] else NULL) && disposed == Queues()[k][..i]
        invariant walk == NULL <==> i == |l|
        decreases |l| - i
      {
        var msg;
        msg, walk := Visit(k, walk, i);
        disposed := disposed + [msg];
        i := i + 1;
      }
    }

    /** The message of a node and the node behind it. */
    method Visit(k: nat, walk: int, ghost i: nat) returns (msg: int, next: int)
      requires Valid() && k < NPORTS && live[k] && i < |lists[k + 1]| && walk == lists[k + 1][i]
      ensures var l := lists[k + 1];
              && i < |Queues()[k]| && msg == Queues()[k][i] && next == (if i + 1 < |l| then l[i + 1] else NULL)
              && (next == NULL <==> i + 1 == |l|)
    {
      assert QueueLinked(nodes[..], lists[k + 1]);
      assert QueueLink(nodes[..], lists[k + 1], i);
      assert i + 1 < |lists[k + 1]| ==> QueueLink(nodes[..], lists[k + 1], i + 1);
      return nodes[walk].msg, nodes[walk].next;
    }

    /** Heads, tails and the free list start inside the pool. */
    lemma EndsInside(k: nat)
      requires Valid() && k < NPORTS && live[k]
      ensures lists[0] == [] <==> ptfree == NULL
      ensures lists[0] != [] ==> 0 <= ptfree < nodes.Length && FreeLink(nodes[..], lists[0], |lists[0]| - 1)
      ensures lists[k + 1] == [] <==> head[k] == NULL
      ensures lists[k + 1] == [] <==> tail[k] == NULL
      ensures lists[k + 1] != [] ==> 0 <= head[k] < nodes.Length && 0 <= tail[k] < nodes.Length && QueueLink(nodes[..], lists[k + 1], 0)
      ensures lists[k + 1] != [] ==> QueueLink(nodes[..], lists[k + 1], |lists[k + 1]| - 1)
    {
      var a := k + 1;
      assert QueueLinked(nodes[..], lists[a]);
      if lists[0] != [] { assert FreeLink(nodes[..], lists[0], |lists[0]| - 1); }
      if lists[a] != [] { assert QueueLink(nodes[..], lists[a], 0) && QueueLink(nodes[..], lists[a], |lists[a]| - 1); }
    }

    /** Head and tail are the same node exactly if there is one node. */
    lemma OneNode(k: nat)
      requires Valid() && k < NPORTS && live[k] && lists[k + 1] != []
      ensures head[k] == tail[k] <==> |lists[k + 1]| == 1
    {
      if |lists[k + 1]| > 1 { Apart(lists, 0, nodes.Length, k + 1, 0, k + 1, |lists[k + 1]| - 1); }
    }

    /** Queues other than that of port `k` hold what they held. */
    lemma OthersKept(t: seq<Node>, ls: Owners, k: nat)
      requires |ls| == |lists| == NPORTS + 1 && k < NPORTS
      requires forall a :: 1 <= a <= NPORTS && a != k + 1 ==> Messages(nodes[..], lists[a]) == Messages(t, ls[a])
      ensures Queues() == QueuesOf(t, ls)[k := Messages(nodes[..], lists[k + 1])]
    {
      forall h | 0 <= h < NPORTS && h != k ensures Queues()[h] == QueuesOf(t, ls)[h] {
        var a := h + 1;
        assert Messages(nodes[..], lists[a]) == Messages(t, ls[a]);
      }
    }
  }
}
