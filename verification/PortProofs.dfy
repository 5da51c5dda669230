/** Every step of every run keeps the port invariant, and what follows from it. */
module PortProofs {
  import opened Common
  import opened Lists
  import opened PortSpec
  import opened PortInvariant

  // ----- counting

  lemma {:induction false} TallyUpdate(procs: seq<Phase>, p: nat, x: Phase, k: int, sending: bool, num: int)
    requires p < |procs|
    ensures Tally(procs[p := x], k, sending, num) ==
            Tally(procs, k, sending, num) - (if Granted(procs[p], k, sending, num) then 1 else 0) + (if Granted(x, k, sending, num) then 1 else 0)
    decreases |procs|
  {
    var n := |procs| - 1;
    if p == n {
      assert procs[p := x][..n] == procs[..n];
    } else {
      assert procs[p := x][..n] == procs[..n][p := x];
      TallyUpdate(procs[..n], p, x, k, sending, num);
    }
  }

  lemma {:induction false} TallySame(procs: seq<Phase>, other: seq<Phase>, k: int, sending: bool, num: int)
    requires |procs| == |other|
    requires forall p :: 0 <= p < |procs| ==> Granted(procs[p], k, sending, num) == Granted(other[p], k, sending, num)
    ensures Tally(procs, k, sending, num) == Tally(other, k, sending, num)
    decreases |procs|
  {
    if procs != [] { TallySame(procs[..|procs| - 1], other[..|procs| - 1], k, sending, num); }
  }

  lemma {:induction false} TallyZero(procs: seq<Phase>, k: int, sending: bool, num: int)
    requires forall p :: 0 <= p < |procs| ==> !Granted(procs[p], k, sending, num)
    ensures Tally(procs, k, sending, num) == 0
    decreases |procs|
  {
    if procs != [] { TallyZero(procs[..|procs| - 1], k, sending, num); }
  }

  lemma {:induction false} QueuedUpdate(ports: seq<Port>, k: nat, t: Port)
    requires k < |ports|
    ensures Queued(ports[k := t]) == Queued(ports) - |ports[k].q| + |t.q|
    decreases |ports|
  {
    var n := |ports| - 1;
    if k == n {
      assert ports[k := t][..n] == ports[..n];
    } else {
      assert ports[k := t][..n] == ports[..n][k := t];
      QueuedUpdate(ports[..n], k, t);
    }
  }

  // ----- one port at a time

  predicate About(x: Phase, k: int) { x != Out && x.port == k }

  /** A port does not notice what processes do at other ports. */
  lemma OtherPort(t: Port, k: int, procs: seq<Phase>, other: seq<Phase>)
    requires PortOK(t, k, procs, 0, 0) && |procs| == |other|
    requires forall p :: 0 <= p < |procs| ==> other[p] == procs[p] || (!About(procs[p], k) && !About(other[p], k))
    ensures PortOK(t, k, other, 0, 0)
  {
    TallySame(procs, other, k, true, t.num);
    TallySame(procs, other, k, false, t.num);
  }

  /** A step at one port keeps the invariant if it keeps that port in order and loses no node. */
  lemma StepInv(s: State, r: State, k: nat)
    requires Inv(s) && k < NPORTS && |r.ports| == NPORTS && |r.procs| == |s.procs| && r.maxmsgs == s.maxmsgs
    requires r.ports == s.ports[k := r.ports[k]] && r.free + |r.ports[k].q| == s.free + |s.ports[k].q|
    requires PortOK(r.ports[k], k, r.procs, 0, 0)
    requires forall p :: 0 <= p < |s.procs| ==>
               r.procs[p] == s.procs[p] || ((s.procs[p] == Out || s.procs[p].port == k) && (r.procs[p] == Out || r.procs[p].port == k))
    ensures Inv(r)
  {
    QueuedUpdate(s.ports, k, r.ports[k]);
    forall h | 0 <= h < NPORTS ensures PortOK(r.ports[h], h, r.procs, 0, 0) {
      if h != k { OtherPort(s.ports[h], h, s.procs, r.procs); }
    }
  }

  /** The part of `PortOK` about processes, by itself. */
  ghost predicate Callers(t: Port, k: int, procs: seq<Phase>) {
    (&& QueueOK(t.ssem, k, true, procs) && QueueOK(t.rsem, k, false, procs)
     && NumsOK(t, k, procs) && ClearOK(t, k, procs)) == true
  }

  lemma PortCallers(t: Port, k: int, procs: seq<Phase>, a: int, b: int)
    requires PortOK(t, k, procs, a, b)
    ensures Callers(t, k, procs)
  {
    assert Unfold(PortState, true);
  }

  /** What makes a port proper. */
  lemma PortFrom(u: Port, k: int, after: seq<Phase>)
    requires Callers(u, k, after) && u.put == u.got + u.q
    requires u.st != PtFree ==> u.maxcnt == u.cap % 0x1_0000
    requires u.st == PtAlloc ==> CountsOK(u, k, after, 0, 0)
    requires u.st == PtLimbo ==> u.ssem == Semaphore(u.maxcnt, []) && u.cap == u.maxcnt && u.q == []
    requires u.st == PtFree ==> u.ssem.waiting == [] && u.rsem.waiting == [] && u.q == []
    ensures PortOK(u, k, after, 0, 0)
  {
  }

  // ----- semaphores

  lemma RestOf(w: seq<Pid>)
    requires Distinct(w) && w != []
    ensures Distinct(w[1..]) && forall p :: p in w[1..] <==> p in w && p != w[0]
  {
    forall p | p in w && p != w[0] ensures p in w[1..] {
      var i :| 0 <= i < |w| && w[i] == p;
      assert w[1..][i - 1] == p;
    }
  }

  lemma WithoutOne(w: seq<Pid>, p: Pid)
    requires Distinct(w) && p in w
    ensures Distinct(Without(w, p)) && |Without(w, p)| == |w| - 1
    ensures forall o :: o in Without(w, p) <==> o in w && o != p
  {
    var i, r := IndexOf(w, p), Without(w, p);
    forall o | o in w && o != p ensures o in r {
      var j :| 0 <= j < |w| && w[j] == o;
      assert r[if j < i then j else j - 1] == o;
    }
  }

  /** A signal moves the first waiter, if any, from waiting to released. */
  lemma SignalQueue(e: Semaphore, k: int, sending: bool, procs: seq<Phase>, after: seq<Phase>)
    requires QueueOK(e, k, sending, procs) && SemOK(e) && after == SignalProcs(e, procs)
    ensures QueueOK(Up(e), k, sending, after) && SemOK(Up(e))
  {
    if e.waiting != [] {
      assert e.waiting[0] in e.waiting;
      RestOf(e.waiting);
    }
  }

  /** The other side does not notice, and no recorded number changes. */
  lemma SignalOther(e: Semaphore, o: Semaphore, k: int, sending: bool, procs: seq<Phase>, after: seq<Phase>)
    requires QueueOK(e, k, sending, procs) && QueueOK(o, k, !sending, procs) && after == SignalProcs(e, procs)
    ensures QueueOK(o, k, !sending, after)
    ensures forall p :: 0 <= p < |procs| ==>
              after[p] == procs[p] || (after[p] == procs[p].(released := true) && Waits(procs[p], k, sending))
  {
    if e.waiting != [] { assert e.waiting[0] in e.waiting; }
  }

  lemma SignalTally(e: Semaphore, k: int, sending: bool, procs: seq<Phase>, after: seq<Phase>, num: int)
    requires QueueOK(e, k, sending, procs) && SemOK(e) && after == SignalProcs(e, procs)
    requires e.waiting != [] ==> e.waiting[0] < |procs| && procs[e.waiting[0]].InCall? && procs[e.waiting[0]].num == num
    ensures Tally(after, k, sending, num) == Tally(procs, k, sending, num) + (if e.waiting == [] then 0 else 1)
    ensures Tally(after, k, !sending, num) == Tally(procs, k, !sending, num)
  {
    if e.waiting != [] {
      var w := e.waiting[0];
      assert w in e.waiting;
      TallyUpdate(procs, w, procs[w].(released := true), k, sending, num);
      TallyUpdate(procs, w, procs[w].(released := true), k, !sending, num);
    }
  }

  // ----- sending

  /** With a slot in hand: the message is queued and a receiver is signalled. */
  lemma DeliverPort(t: Port, k: int, procs: seq<Phase>, m: int, t': Port, after: seq<Phase>)
    requires t.st == PtAlloc && PortOK(t, k, procs, 1, 0)
    requires t' == t.(q := t.q + [m], put := t.put + [m], rsem := Up(t.rsem)) && after == SignalProcs(t.rsem, procs)
    ensures PortOK(t', k, after, 0, 0)
  {
    assert Unfold(PortState, true);
    SignalQueue(t.rsem, k, false, procs, after);
    SignalOther(t.rsem, t.ssem, k, false, procs, after);
    if t.rsem.waiting != [] { assert t.rsem.waiting[0] in t.rsem.waiting; }
    SignalTally(t.rsem, k, false, procs, after, t.num);
    assert t'.put == t'.got + t'.q;
  }

  lemma FetchPort(t: Port, k: int, procs: seq<Phase>, t': Port, after: seq<Phase>)
    requires t.st == PtAlloc && PortOK(t, k, procs, 0, 1) && t.q != []
    requires t' == t.(q := t.q[1..], got := t.got + [t.q[0]], ssem := Up(t.ssem)) && after == SignalProcs(t.ssem, procs)
    ensures PortOK(t', k, after, 0, 0)
  {
    assert Unfold(PortState, true);
    SignalQueue(t.ssem, k, true, procs, after);
    SignalOther(t.ssem, t.rsem, k, true, procs, after);
    if t.ssem.waiting != [] { assert t.ssem.waiting[0] in t.ssem.waiting; }
    SignalTally(t.ssem, k, true, procs, after, t.num);
    assert t'.put == t'.got + t'.q;
  }

  /** A process that is in no call, or leaves one in which it did not wait, is no concern of the queues. */
  lemma PhaseEdit(t: Port, k: int, procs: seq<Phase>, p: nat, a: int, b: int, a': int, b': int)
    requires PortOK(t, k, procs, a, b) && p < |procs| && (procs[p].InCall? ==> procs[p].released)
    requires t.st == PtAlloc ==>
               && a' == a + (if Granted(procs[p], k, true, t.num) then 1 else 0)
               && b' == b + (if Granted(procs[p], k, false, t.num) then 1 else 0)
    ensures PortOK(t, k, procs[p := Out], a', b')
  {
    TallyUpdate(procs, p, Out, k, true, t.num);
    TallyUpdate(procs, p, Out, k, false, t.num);
  }

  /** A process joins the queue of one side. */
  lemma EnqueuePort(t: Port, k: int, procs: seq<Phase>, p: nat, x: Phase, t': Port)
    requires t.st == PtAlloc && PortOK(t, k, procs, 0, 0) && p < |procs| && procs[p] == Out
    requires x.InCall? && Waits(x, k, x.sending) && x.num == t.num
    requires var e := if x.sending then t.ssem else t.rsem;
             var e' := Semaphore(e.count - 1, e.waiting + [p]);
             e.count <= 0 && t' == if x.sending then t.(ssem := e') else t.(rsem := e')
    ensures PortOK(t', k, procs[p := x], 0, 0)
  {
    assert Unfold(PortState, true);
    var e := if x.sending then t.ssem else t.rsem;
    TallyUpdate(procs, p, x, k, true, t.num);
    TallyUpdate(procs, p, x, k, false, t.num);
    JoinQueue(e, k, procs, p, x);
  }

  lemma JoinQueue(e: Semaphore, k: int, procs: seq<Phase>, p: nat, x: Phase)
    requires p < |procs| && procs[p] == Out && x.InCall? && Waits(x, k, x.sending) && QueueOK(e, k, x.sending, procs)
    ensures QueueOK(Semaphore(e.count - 1, e.waiting + [p]), k, x.sending, procs[p := x])
  {
  }

  lemma DeliverInv(s: State, s1: State, p: Pid, k: nat, m: int)
    requires Inv(s) && k < NPORTS && p < |s.procs| && s1.procs == s.procs && s1.free == s.free && s1.maxmsgs == s.maxmsgs
    requires |s1.ports| == NPORTS && s1.ports == s.ports[k := s1.ports[k]] && s1.ports[k].q == s.ports[k].q
    requires s1.ports[k].st == PtAlloc && PortOK(s1.ports[k], k, s.procs[p := Out], 1, 0)
    requires s.procs[p] == Out || s.procs[p].port == k
    ensures Deliver(s1, p, k, m).r != Panic ==> Inv(Deliver(s1, p, k, m).s)
  {
    assert Unfold(PortState, true);
    var t, r := s1.ports[k], Deliver(s1, p, k, m);
    if r.r != Panic {
      DeliverPort(t, k, s.procs[p := Out], m, r.s.ports[k], r.s.procs);
      SignalOther(t.rsem, t.ssem, k, false, s.procs[p := Out], r.s.procs);
      StepInv(s, r.s, k);
    }
  }

  lemma SendKeeps(s: State, p: Pid, k: int, m: int, r: Step)
    requires Inv(s) && Enabled(s, DoSend(p, k, m)) && r == Send(s, p, k, m) && r.r != Panic
    ensures Inv(r.s)
  {
    if !BadPort(s, k) {
      var t := s.ports[k];
      assert PortOK(t, k, s.procs, 0, 0);
      if t.ssem.count > 0 {
        assert s.procs[p := Out] == s.procs;
        DeliverInv(s, SetPort(s, k, t.(ssem := t.ssem.(count := t.ssem.count - 1))), p, k, m);
      } else {
        EnqueuePort(t, k, s.procs, p, InCall(k, true, t.num, m, false), r.s.ports[k]);
        StepInv(s, r.s, k);
      }
    }
  }

  lemma SendOnKeeps(s: State, p: Pid, r: Step)
    requires Inv(s) && Enabled(s, DoSendOn(p)) && s.procs[p].port < |s.ports| && r == SendOn(s, p) && r.r != Panic
    ensures Inv(r.s)
  {
    var k, t := s.procs[p].port, s.ports[s.procs[p].port];
    assert PortOK(t, k, s.procs, 0, 0);
    if t.st != PtAlloc || t.num != s.procs[p].num {
      PhaseEdit(t, k, s.procs, p, 0, 0, 0, 0);
      StepInv(s, r.s, k);
    } else {
      PhaseEdit(t, k, s.procs, p, 0, 0, 1, 0);
      DeliverInv(s, s, p, k, s.procs[p].msg);
    }
  }

  // ----- receiving

  lemma FetchInv(s: State, s1: State, p: Pid, k: nat)
    requires Inv(s) && k < NPORTS && p < |s.procs| && s1.procs == s.procs && s1.free == s.free && s1.maxmsgs == s.maxmsgs
    requires |s1.ports| == NPORTS && s1.ports == s.ports[k := s1.ports[k]] && s1.ports[k].q == s.ports[k].q
    requires s1.ports[k].st == PtAlloc && PortOK(s1.ports[k], k, s.procs[p := Out], 0, 1)
    requires s.procs[p] == Out || s.procs[p].port == k
    ensures s1.ports[k].q != [] && Inv(Fetch(s1, p, k).s)
  {
    assert Unfold(PortState, true);
    var t := s1.ports[k];
    assert t.q != [];
    var r := Fetch(s1, p, k);
    FetchPort(t, k, s.procs[p := Out], r.s.ports[k], r.s.procs);
    SignalOther(t.ssem, t.rsem, k, true, s.procs[p := Out], r.s.procs);
    StepInv(s, r.s, k);
  }

  /** A receiver that passes the semaphore finds a message. */
  lemma RecvKeeps(s: State, p: Pid, k: int, r: Step)
    requires Inv(s) && Enabled(s, DoRecv(p, k)) && r == Recv(s, p, k)
    ensures Inv(r.s) && r.r != Fault && r.r != Panic
  {
    if !BadPort(s, k) {
      var t := s.ports[k];
      assert PortOK(t, k, s.procs, 0, 0);
      if t.rsem.count > 0 {
        assert s.procs[p := Out] == s.procs;
        FetchInv(s, SetPort(s, k, t.(rsem := t.rsem.(count := t.rsem.count - 1))), p, k);
      } else {
        EnqueuePort(t, k, s.procs, p, InCall(k, false, t.num, 0, false), r.s.ports[k]);
        StepInv(s, r.s, k);
      }
    }
  }

  /** A released receiver that passes its checks finds a message. */
  lemma RecvOnKeeps(s: State, p: Pid, r: Step)
    requires Inv(s) && Enabled(s, DoRecvOn(p)) && s.procs[p].port < |s.ports| && r == RecvOn(s, p)
    ensures Inv(r.s) && r.r != Fault && r.r != Panic
  {
    var k, t := s.procs[p].port, s.ports[s.procs[p].port];
    assert PortOK(t, k, s.procs, 0, 0);
    if t.st != PtAlloc || t.num != s.procs[p].num {
      PhaseEdit(t, k, s.procs, p, 0, 0, 0, 0);
      StepInv(s, r.s, k);
    } else {
      PhaseEdit(t, k, s.procs, p, 0, 0, 0, 1);
      FetchInv(s, s, p, k);
    }
  }

  // ----- clearing

  lemma {:induction false} ReleasedAll(procs: seq<Phase>, w: seq<Pid>, r: seq<Phase>)
    requires r == ReleaseAll(procs, w)
    ensures forall p :: 0 <= p < |procs| ==> r[p] == if p in w && procs[p].InCall? then procs[p].(released := true) else procs[p]
    decreases |w|
  {
    if w != [] { ReleasedAll(Release(procs, w[0]), w[1..], r); }
  }

  /** All waiters of one side are released, in a port that no longer answers to their number. */
  lemma {:induction false} ClearedSide(e: Semaphore, o: Semaphore, k: int, sending: bool, procs: seq<Phase>, after: seq<Phase>, c: int)
    requires QueueOK(e, k, sending, procs) && QueueOK(o, k, !sending, procs) && after == ReleaseAll(procs, e.waiting)
    ensures QueueOK(Semaphore(c, []), k, sending, after) && QueueOK(o, k, !sending, after)
    ensures forall p :: 0 <= p < |procs| ==> after[p] == procs[p] || (Waits(procs[p], k, sending) && after[p] == procs[p].(released := true))
  {
    ReleasedAll(procs, e.waiting, after);
  }

  lemma {:induction false} SendersCleared(t: Port, k: nat, procs: seq<Phase>, p: Pid, alloc: bool, after: seq<Phase>)
    requires PortOK(t, k, procs, 0, 0) && t.st == PtAlloc && p < |procs| && procs[p] == Out
    requires after == ReleaseAll(procs, t.ssem.waiting)
    ensures |after| == |procs| && PortOK(Vacated(t), k, after[p := InClear(k, alloc, 1)], 0, 0)
    ensures forall o :: 0 <= o < |procs| ==> after[o] == procs[o] || (Waits(procs[o], k, true) && after[o] == procs[o].(released := true))
  {
    PortCallers(t, k, procs, 0, 0);
    ClearedSide(t.ssem, t.rsem, k, true, procs, after, t.maxcnt);
    var u, last := Vacated(t), after[p := InClear(k, alloc, 1)];
    NotWaiting(u.ssem, k, true, after, p, last[p]);
    NotWaiting(u.rsem, k, false, after, p, last[p]);
    assert NumsOK(u, k, last) && ClearOK(u, k, last);
    KeptCount(t.cap);
    PortFrom(u, k, last);
  }

  lemma KeptCount(count: int)
    ensures count % 0x1_0000 == count % 0x1_0000 % 0x1_0000
  {
  }

  lemma NotWaiting(e: Semaphore, k: int, sending: bool, procs: seq<Phase>, p: Pid, x: Phase)
    requires QueueOK(e, k, sending, procs) && p < |procs| && !Waits(procs[p], k, sending) && !Waits(x, k, sending)
    ensures QueueOK(e, k, sending, procs[p := x])
  {
  }

  lemma ClearSendersKeeps(s: State, p: Pid, k: int, alloc: bool, r: Step)
    requires Inv(s) && Enabled(s, DoClear(p, k, alloc)) && r == ClearSenders(s, p, k, alloc)
    ensures Inv(r.s)
  {
    if !BadPort(s, k) {
      var t := s.ports[k];
      SendersCleared(t, k, s.procs, p, alloc, ReleaseAll(s.procs, t.ssem.waiting));
      StepInv(s, r.s, k);
    }
  }

  lemma ClearReceiversKeeps(s: State, p: Pid, r: Step)
    requires Inv(s) && Enabled(s, DoClearReceivers(p)) && s.procs[p].port < |s.ports| && r == ClearReceivers(s, p)
    ensures Inv(r.s)
  {
    assert Unfold(PortState, true);
    var k, t := s.procs[p].port, s.ports[s.procs[p].port];
    assert PortOK(t, k, s.procs, 0, 0);
    var mid := ReleaseAll(s.procs, t.rsem.waiting);
    ClearedSide(t.rsem, t.ssem, k, false, s.procs, mid, 0);
    StepInv(s, r.s, k);
  }

  lemma ClearDoneKeeps(s: State, p: Pid, r: Step)
    requires Inv(s) && Enabled(s, DoClearDone(p)) && s.procs[p].port < |s.ports| && r == ClearDone(s, p)
    ensures Inv(r.s)
  {
    assert Unfold(PortState, true);
    var k, t := s.procs[p].port, s.ports[s.procs[p].port];
    assert PortOK(t, k, s.procs, 0, 0);
    TallyZero(r.s.procs, k, true, t.num);
    TallyZero(r.s.procs, k, false, t.num);
    StepInv(s, r.s, k);
  }

  lemma CreateKeeps(s: State, k: int, count: int, r: Step)
    requires Inv(s) && r == Create(s, k, count)
    ensures Inv(r.s)
  {
    assert Unfold(PortState, true);
    if r.r == Ret(k) && count >= 0 && 0 <= k < NPORTS && s.ports[k].st == PtFree {
      var t := s.ports[k];
      assert PortOK(t, k, s.procs, 0, 0);
      TallyZero(s.procs, k, true, t.num + 1);
      TallyZero(s.procs, k, false, t.num + 1);
      StepInv(s, r.s, k);
    }
  }

  // ----- killing

  lemma LeaveQueue(e: Semaphore, k: int, sending: bool, procs: seq<Phase>, p: nat)
    requires p < |procs| && Waits(procs[p], k, sending) && QueueOK(e, k, sending, procs)
    ensures p in e.waiting && QueueOK(Semaphore(e.count + 1, Without(e.waiting, p)), k, sending, procs[p := Out])
  {
    assert p in e.waiting;
    WithoutOne(e.waiting, p);
  }

  /** A waiter leaves: its place counts for the others again. */
  lemma WaiterLeft(t: Port, k: int, procs: seq<Phase>, p: Pid, u: Port)
    requires PortOK(t, k, procs, 0, 0) && p < |procs| && procs[p].InCall? && procs[p].port == k && !procs[p].released
    requires u == if procs[p].sending then t.(ssem := Semaphore(t.ssem.count + 1, Without(t.ssem.waiting, p)))
                  else t.(rsem := Semaphore(t.rsem.count + 1, Without(t.rsem.waiting, p)))
    ensures PortOK(u, k, procs[p := Out], 0, 0)
  {
    PortCallers(t, k, procs, 0, 0);
    var sending := procs[p].sending;
    TallyUpdate(procs, p, Out, k, true, t.num);
    TallyUpdate(procs, p, Out, k, false, t.num);
    LeaveQueue(if sending then t.ssem else t.rsem, k, sending, procs, p);
    if sending { WithoutOne(t.ssem.waiting, p); } else { WithoutOne(t.rsem.waiting, p); }
    PortFrom(u, k, procs[p := Out]);
  }

  lemma KillWaiter(s: State, p: Pid, r: Step)
    requires Inv(s) && p < |s.procs| && s.procs[p].InCall? && !s.procs[p].released && r == Kill(s, p)
    ensures Inv(r.s)
  {
    var k := s.procs[p].port;
    WaiterLeft(s.ports[k], k, s.procs, p, r.s.ports[k]);
    StepInv(s, r.s, k);
  }

  /** Killing keeps the accounts straight exactly when the victim holds no grant. */
  lemma KillKeeps(s: State, p: Pid, r: Step)
    requires Inv(s) && p < |s.procs| && r == Kill(s, p)
    ensures Inv(r.s) <==> !HoldsGrant(s, p)
  {
    var x := s.procs[p];
    if x == Out {
      assert r.s == s;
    } else if x.InCall? && !x.released {
      KillWaiter(s, p, r);
    } else {
      var k, t := x.port, s.ports[x.port];
      assert PortOK(t, k, s.procs, 0, 0);
      TallyUpdate(s.procs, p, Out, k, true, t.num);
      TallyUpdate(s.procs, p, Out, k, false, t.num);
      if HoldsGrant(s, p) {
        assert !PortOK(r.s.ports[k], k, r.s.procs, 0, 0);
      } else {
        PhaseEdit(t, k, s.procs, p, 0, 0, 0, 0);
        StepInv(s, r.s, k);
      }
    }
  }

  // ----- every step, every run

  lemma NextKeeps(s: State, op: Op, r: Step)
    requires Inv(s) && Enabled(s, op) && Next(s, op, r)
    ensures r.r != Fault && (r.r != Panic ==> Inv(r.s))
  {
    match op
    case DoSend(p, k, m) => if r.r != Panic { SendKeeps(s, p, k, m, r); }
    case DoSendOn(p) => if r.r != Panic { SendOnKeeps(s, p, r); }
    case DoRecv(p, k) => RecvKeeps(s, p, k, r);
    case DoRecvOn(p) => RecvOnKeeps(s, p, r);
    case DoClear(p, k, alloc) => ClearSendersKeeps(s, p, k, alloc, r);
    case DoClearReceivers(p) => ClearReceiversKeeps(s, p, r);
    case DoClearDone(p) => ClearDoneKeeps(s, p, r);
    case DoCreate(k, count) => CreateKeeps(s, k, count, r);
    case DoKill(p) => KillKeeps(s, p, r);
  }

  lemma {:induction false} FreshQueues(n: nat, t: Port)
    requires t.q == []
    ensures Queued(seq(n, k => t)) == 0
  {
    if n > 0 {
      assert seq(n, k => t)[..n - 1] == seq(n - 1, k => t);
      FreshQueues(n - 1, t);
    }
  }

  lemma BootInv(nprocs: nat, maxmsgs: int)
    ensures Inv(Boot(nprocs, maxmsgs))
  {
    var s := Boot(nprocs, maxmsgs);
    var t := Port(PtFree, 0, 0, 0, [], Semaphore(0, []), Semaphore(0, []), [], []);
    FreshQueues(NPORTS, t);
    assert s.ports == seq(NPORTS, k => t);
    assert forall k :: 0 <= k < NPORTS ==> PortOK(t, k, s.procs, 0, 0);
  }

  /** In every run the invariant holds before each step, and no step follows a null pointer. */
  lemma {:induction false} RunKeeps(s: State, run: seq<Event>, i: nat)
    requires Inv(s) && IsRun(s, run) && i < |run|
    ensures Inv(run[i].before) && run[i].r.r != Fault && (run[i].r.r != Panic ==> Inv(run[i].r.s))
  {
    if i > 0 { RunKeeps(s, run, i - 1); }
    NextKeeps(run[i].before, run[i].op, run[i].r);
  }

  /** From initialisation on, every reachable state is in order and no null pointer is ever followed. */
  lemma ReachableOK(nprocs: nat, maxmsgs: int, run: seq<Event>, i: nat)
    requires IsRun(Boot(nprocs, maxmsgs), run) && i < |run|
    ensures Inv(run[i].before) && run[i].r.r != Fault && (run[i].r.r != Panic ==> Inv(run[i].r.s))
  {
    BootInv(nprocs, maxmsgs);
    RunKeeps(Boot(nprocs, maxmsgs), run, i);
  }

  // ----- what the invariant gives

  /** What was taken is a prefix of what was put, and the port never holds more than it may. */
  lemma Fifo(s: State, k: nat)
    requires Inv(s) && k < NPORTS
    ensures s.ports[k].got <= s.ports[k].put && s.ports[k].put == s.ports[k].got + s.ports[k].q
    ensures s.ports[k].st != PtFree ==> |s.ports[k].q| <= s.ports[k].cap
    ensures s.ports[k].st != PtFree && s.ports[k].cap < 0x1_0000 ==> |s.ports[k].q| <= s.ports[k].maxcnt
  {
    assert PortOK(s.ports[k], k, s.procs, 0, 0);
  }

  // ----- the 16-bit field for the count

  /** Nobody creates a port anew under this number. */
  ghost predicate NotCreated(run: seq<Event>, k: int) {
    forall i :: 0 <= i < |run| ==> !(run[i].op.DoCreate? && run[i].op.k == k)
  }

  /** The port never holds more messages than its stored maximum. */
  ghost predicate WithinMax(run: seq<Event>, k: nat) {
    forall i :: 0 <= i < |run| ==> |run[i].r.s.ports| == NPORTS && k < NPORTS && |run[i].r.s.ports[k].q| <= run[i].r.s.ports[k].maxcnt
  }

  /** That holds in every run from `s` in which the port is not created anew. */
  ghost predicate KeepsMax(s: State, k: nat) {
    forall run :: IsRun(s, run) && NotCreated(run, k) ==> WithinMax(run, k)
  }

  /** The capacity stays below the limit: only `ptcreate` sets a larger one. */
  lemma CapStays(s: State, op: Op, r: Step, k: nat)
    requires Inv(s) && Enabled(s, op) && Next(s, op, r) && k < NPORTS && !(op.DoCreate? && op.k == k)
    requires s.ports[k].cap < 0x1_0000
    ensures |r.s.ports| == NPORTS && r.s.ports[k].cap < 0x1_0000
  {
    assert PortOK(s.ports[k], k, s.procs, 0, 0);
  }

  lemma {:induction false} CapStaysOver(s: State, run: seq<Event>, k: nat, i: nat)
    requires Inv(s) && IsRun(s, run) && k < NPORTS && NotCreated(run, k) && i < |run|
    requires s.ports[k].cap < 0x1_0000
    ensures |run[i].before.ports| == NPORTS && run[i].before.ports[k].cap < 0x1_0000
  {
    if i > 0 {
      CapStaysOver(s, run, k, i - 1);
      RunKeeps(s, run, i - 1);
      CapStays(run[i - 1].before, run[i - 1].op, run[i - 1].r, k);
    }
  }

  lemma SmallStaysWithin(s: State, run: seq<Event>, k: nat)
    requires Inv(s) && k < NPORTS && s.ports[k].cap < 0x1_0000 && IsRun(s, run) && NotCreated(run, k)
    ensures WithinMax(run, k)
  {
    forall i | 0 <= i < |run|
      ensures |run[i].r.s.ports| == NPORTS && |run[i].r.s.ports[k].q| <= run[i].r.s.ports[k].maxcnt
    {
      CapStaysOver(s, run, k, i);
      RunKeeps(s, run, i);
      var e := run[i];
      CapStays(e.before, e.op, e.r, k);
      Fifo(e.before, k);
      if e.r.r == Panic {
        PanicKeeps(e.before, e.op, e.r, k);
      } else {
        FreeIsEmpty(e.r.s, k);
        Fifo(e.r.s, k);
      }
    }
  }

  lemma FreeIsEmpty(s: State, k: nat)
    requires Inv(s) && k < NPORTS
    ensures s.ports[k].st == PtFree ==> s.ports[k].q == []
  {
    assert PortOK(s.ports[k], k, s.procs, 0, 0);
  }

  /** A panic leaves the messages where they are. */
  lemma PanicKeeps(s: State, op: Op, r: Step, k: nat)
    requires Inv(s) && Enabled(s, op) && Next(s, op, r) && r.r == Panic && k < NPORTS && s.ports[k].cap < 0x1_0000
    ensures |r.s.ports| == NPORTS && |r.s.ports[k].q| <= r.s.ports[k].maxcnt
  {
    FreeIsEmpty(s, k);
    Fifo(s, k);
    assert op.DoSend? || op.DoSendOn?;
  }

  /** `n` sends by process `p`, one after another. */
  ghost function Sends(s: State, p: Pid, k: nat, n: nat): seq<Event>
    requires p < |s.procs|
    decreases n
  {
    if n == 0 then []
    else
      var run := Sends(s, p, k, n - 1);
      var before := LastOf(s, run);
      if p < |before.procs| then run + [Event(before, DoSend(p, k, 0), Send(before, p, k, 0))] else run
  }

  lemma RunExtended(s: State, run: seq<Event>, e: Event, k: int)
    requires IsRun(s, run) && NotCreated(run, k) && !e.op.DoCreate? && Enabled(e.before, e.op) && Next(e.before, e.op, e.r)
    requires e.before == LastOf(s, run)
    requires run != [] ==> run[|run| - 1].r.r != Panic && run[|run| - 1].r.r != Fault
    ensures IsRun(s, run + [e]) && NotCreated(run + [e], k)
  {
  }

  function LastOf(s: State, run: seq<Event>): State {
    if run == [] then s else run[|run| - 1].r.s
  }

  /** While there is room in the semaphore and in the pool, every one of them succeeds. */
  lemma {:induction false} SendsFill(s: State, p: Pid, k: nat, n: nat)
    requires |s.ports| == NPORTS && k < NPORTS && p < |s.procs| && s.procs[p] == Out
    requires s.ports[k].st == PtAlloc && s.ports[k].q == [] && s.ports[k].rsem == Semaphore(0, [])
    requires n <= s.ports[k].ssem.count && n <= s.free
    ensures var run := Sends(s, p, k, n);
            && |run| == n && IsRun(s, run) && NotCreated(run, k) && Filled(s, LastOf(s, run), p, k, n)
            && (n > 0 ==> run[n - 1].r.r == Ret(OK))
  {
    if n > 0 {
      SendsFill(s, p, k, n - 1);
      var run := Sends(s, p, k, n - 1);
      var z := LastOf(s, run);
      SendOne(s, z, p, k, n - 1);
      var e := Event(z, DoSend(p, k, 0), Send(z, p, k, 0));
      RunExtended(s, run, e, k);
      assert Sends(s, p, k, n) == run + [e];
    }
  }

  /** After `n` sends to an empty port. */
  ghost predicate Filled(s: State, z: State, p: Pid, k: nat, n: nat) {
    && |z.ports| == |s.ports| == NPORTS && k < NPORTS && p < |s.procs| && z.procs == s.procs
    && z.ports[k].st == PtAlloc && |z.ports[k].q| == n && z.free == s.free - n
    && z.ports[k].ssem.count == s.ports[k].ssem.count - n && z.ports[k].rsem == Semaphore(n, [])
    && z.ports[k].maxcnt == s.ports[k].maxcnt
  }

  lemma SendOne(s: State, z: State, p: Pid, k: nat, n: nat)
    requires Filled(s, z, p, k, n) && s.procs[p] == Out && n < s.ports[k].ssem.count && n < s.free
    ensures Send(z, p, k, 0).r == Ret(OK) && Filled(s, Send(z, p, k, 0).s, p, k, n + 1)
  {
    assert z.procs[p := Out] == z.procs;
  }

  /**
    Exactly the counts that fit 16 bits are kept: for a port created with `count` in
    any reachable state, every run keeps the queue within the stored maximum if and
    only if the count is below 65536. (The pool must be large enough to show it.)
  */
  lemma CountFits(s: State, k: nat, count: nat, p: Pid)
    requires Inv(s) && k < NPORTS && s.ports[k].st == PtFree && p < |s.procs| && s.procs[p] == Out
    requires s.free > count % 0x1_0000
    ensures KeepsMax(Create(s, k, count).s, k) <==> count < 0x1_0000
  {
    var c := Create(s, k, count).s;
    CreateKeeps(s, k, count, Create(s, k, count));
    if count < 0x1_0000 {
      forall run | IsRun(c, run) && NotCreated(run, k) ensures WithinMax(run, k) { SmallStaysWithin(c, run, k); }
    } else {
      var n := count % 0x1_0000 + 1;
      SendsFill(c, p, k, n);
      var run := Sends(c, p, k, n);
      assert !WithinMax(run, k) by { assert |run[n - 1].r.s.ports[k].q| == n; }
    }
  }

  function TotalCap(ports: seq<Port>): nat {
    if ports == [] then 0
    else TotalCap(ports[..|ports| - 1]) + if ports[|ports| - 1].st == PtFree then 0 else ports[|ports| - 1].cap
  }

  lemma {:induction false} QueuedBelowCap(ports: seq<Port>, k: int)
    requires forall h :: 0 <= h < |ports| ==> |ports[h].q| <= if ports[h].st == PtFree then 0 else ports[h].cap
    requires 0 <= k < |ports| ==> ports[k].st != PtFree && |ports[k].q| < ports[k].cap
    ensures Queued(ports) <= TotalCap(ports) - (if 0 <= k < |ports| then 1 else 0)
    decreases |ports|
  {
    var n := |ports| - 1;
    if ports != [] { QueuedBelowCap(ports[..n], if k == n then -1 else k); }
  }

  /** A sender that may put a message finds a node if the ports together are not larger than the pool. */
  lemma NodeLeft(s: State, k: nat)
    requires Inv(s) && k < NPORTS && TotalCap(s.ports) <= s.maxmsgs
    requires s.ports[k].st == PtAlloc && |s.ports[k].q| < s.ports[k].cap
    ensures s.free > 0
  {
    forall h | 0 <= h < NPORTS ensures |s.ports[h].q| <= if s.ports[h].st == PtFree then 0 else s.ports[h].cap {
      assert PortOK(s.ports[h], h, s.procs, 0, 0);
    }
    QueuedBelowCap(s.ports, k);
  }

  lemma NoPanic(s: State, op: Op, r: Step)
    requires Inv(s) && Enabled(s, op) && Next(s, op, r) && TotalCap(s.ports) <= s.maxmsgs
    ensures r.r != Panic
  {
    if op.DoSend? && !BadPort(s, op.k) && s.ports[op.k].ssem.count > 0 {
      assert PortOK(s.ports[op.k], op.k, s.procs, 0, 0);
      NodeLeft(s, op.k);
    } else if op.DoSendOn? {
      var k, t := s.procs[op.p].port, s.ports[s.procs[op.p].port];
      assert PortOK(t, k, s.procs, 0, 0);
      if t.st == PtAlloc && t.num == s.procs[op.p].num {
        PhaseEdit(t, k, s.procs, op.p, 0, 0, 1, 0);
        NodeLeft(s, k);
      }
    } else {
      NextKeeps(s, op, r);
    }
  }

  // ----- processes from an earlier life of the port

  /** Sequence numbers never go back. */
  lemma NumsGrow(s: State, op: Op, r: Step, k: nat)
    requires Inv(s) && Enabled(s, op) && Next(s, op, r) && k < NPORTS
    ensures |r.s.ports| == NPORTS && r.s.ports[k].num >= s.ports[k].num
    ensures op.DoClear? && op.k == k && !BadPort(s, k) ==> r.s.ports[k].num > s.ports[k].num
  {
  }

  lemma EventGrows(s: State, run: seq<Event>, i: nat, k: nat)
    requires Inv(s) && IsRun(s, run) && i < |run| && k < NPORTS
    ensures Grows(run[i], k)
  {
    RunKeeps(s, run, i);
    NumsGrow(run[i].before, run[i].op, run[i].r, k);
  }

  ghost predicate Grows(e: Event, k: nat) {
    k < |e.before.ports| == |e.r.s.ports| == NPORTS && e.r.s.ports[k].num >= e.before.ports[k].num
  }

  lemma NumsGrowOver(s: State, run: seq<Event>, i: nat, j: nat, k: nat)
    requires Inv(s) && IsRun(s, run) && i < j < |run| && k < NPORTS
    ensures |run[j].before.ports| == NPORTS == |run[i].r.s.ports| && run[j].before.ports[k].num >= run[i].r.s.ports[k].num
  {
    forall h | 0 <= h < |run| ensures Grows(run[h], k) { EventGrows(s, run, h, k); }
    GrowsOn(run, i, j, k);
  }

  lemma {:induction false} GrowsOn(run: seq<Event>, i: nat, j: nat, k: nat)
    requires i < j < |run| && k < NPORTS && forall h :: 0 <= h < |run| ==> Grows(run[h], k)
    requires forall h, l :: 0 <= h < l < |run| && l == h + 1 ==> run[l].before == run[h].r.s
    ensures k < |run[j].before.ports| && k < |run[i].r.s.ports| && run[j].before.ports[k].num >= run[i].r.s.ports[k].num
    decreases j
  {
    if i + 1 < j { GrowsOn(run, i, j - 1, k); }
  }

  /** The event is a step of process `p`, or its end. */
  predicate Acts(op: Op, p: Pid) { !op.DoCreate? && op.p == p }

  /** The same call on the same port, perhaps released since. */
  predicate SameCall(x: Phase, y: Phase) { x.InCall? && (y == x || y == x.(released := true)) }

  lemma OthersLeaveCall(s: State, op: Op, r: Step, p: Pid)
    requires Inv(s) && Enabled(s, op) && Next(s, op, r) && p < |s.procs| && s.procs[p].InCall? && !Acts(op, p)
    ensures p < |r.s.procs| && SameCall(s.procs[p], r.s.procs[p])
  {
    match op
    case DoSend(q, k, m) =>
    case DoSendOn(q) =>
    case DoRecv(q, k) =>
    case DoRecvOn(q) =>
    case DoClear(q, k, alloc) =>
      if !BadPort(s, k) { ReleasedAll(s.procs, s.ports[k].ssem.waiting, ReleaseAll(s.procs, s.ports[k].ssem.waiting)); }
    case DoClearReceivers(q) =>
      var w := s.ports[s.procs[q].port].rsem.waiting;
      ReleasedAll(s.procs, w, ReleaseAll(s.procs, w));
    case DoClearDone(q) =>
    case DoCreate(k, count) =>
    case DoKill(q) =>
  }

  lemma {:induction false} StaysInCall(s: State, run: seq<Event>, i: nat, j: nat, p: Pid)
    requires Inv(s) && IsRun(s, run) && i <= j < |run| && p < |run[i].before.procs| && run[i].before.procs[p].InCall?
    requires forall h :: i <= h < j ==> !Acts(run[h].op, p)
    ensures p < |run[j].before.procs| && SameCall(run[i].before.procs[p], run[j].before.procs[p])
    decreases j
  {
    if i < j {
      StaysInCall(s, run, i, j - 1, p);
      RunKeeps(s, run, j - 1);
      OthersLeaveCall(run[j - 1].before, run[j - 1].op, run[j - 1].r, p);
    }
  }

  lemma CallNumber(s: State, p: Pid)
    requires Inv(s) && p < |s.procs| && s.procs[p].InCall?
    ensures s.procs[p].port < NPORTS && s.procs[p].num <= s.ports[s.procs[p].port].num
  {
    assert Unfold(PortState, true);
    assert PortOK(s.ports[s.procs[p].port], s.procs[p].port, s.procs, 0, 0);
  }

  /**
    A process that was inside a call on a port when it was reset or deleted never acts
    on it afterwards, not even if the port was created anew: its call fails and
    nothing but its own state changes.
  */
  lemma StaleNeverActs(s: State, run: seq<Event>, i: nat, j: nat, p: Pid)
    requires Inv(s) && IsRun(s, run) && i < j < |run| && run[i].op.DoClear? && !BadPort(run[i].before, run[i].op.k)
    requires p < |run[i].before.procs| && run[i].before.procs[p].InCall? && run[i].before.procs[p].port == run[i].op.k
    requires (forall h :: i < h < j ==> !Acts(run[h].op, p)) && (run[j].op == DoSendOn(p) || run[j].op == DoRecvOn(p))
    ensures p < |run[j].before.procs|
    ensures run[j].r == Step(run[j].before.(procs := run[j].before.procs[p := Out]), Ret(SYSERR))
  {
    var k := run[i].op.k;
    assert !Acts(run[i].op, p);
    StaysInCall(s, run, i, j, p);
    RunKeeps(s, run, i);
    CallNumber(run[i].before, p);
    NumsGrow(run[i].before, run[i].op, run[i].r, k);
    NumsGrowOver(s, run, i, j, k);
  }

  lemma RunAppend(s: State, run: seq<Event>, e: Event)
    requires IsRun(s, run) && Enabled(e.before, e.op) && Next(e.before, e.op, e.r) && e.before == LastOf(s, run)
    requires run != [] ==> run[|run| - 1].r.r != Panic && run[|run| - 1].r.r != Fault
    ensures IsRun(s, run + [e]) && LastOf(s, run + [e]) == e.r.s
  {
  }
}
