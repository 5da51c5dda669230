/**
  Time slices. A tick that ends a slice, and a process that gives up the processor,
  send the running process behind the ready ones of its priority, so that equals
  take turns.
*/
module KernelTurns {
  import opened Common
  import opened Lists
  import opened KernelSpec
  import opened KernelInvariant
  import opened KernelProofs

  // ----- who is next

  /** The processes of priority `x`, in their order. */
  function OfPrio(q: seq<Pid>, procs: seq<Proc>, x: int): seq<Pid>
    requires |procs| == NPROC
  {
    if q == [] then []
    else OfPrio(q[..|q| - 1], procs, x) + if procs[q[|q| - 1]].prio == x then [q[|q| - 1]] else []
  }

  /** The running process and the ready ones of its priority, in the order in which they will run. */
  function Turns(k: State): (r: seq<Pid>)
    requires Shape(k)
    ensures r != [] && r[0] == k.curr
  {
    [k.curr] + OfPrio(k.queue[READYQ], k.proc, k.proc[k.curr].prio)
  }

  function Rotated(s: seq<Pid>): seq<Pid>
    requires s != []
  {
    s[1..] + [s[0]]
  }

  /** No sleeper wakes within the next `n` ticks. */
  predicate NobodyDue(k: State, n: nat)
    requires Shape(k)
  {
    k.queue[SLEEPQ] != [] ==> k.key[k.queue[SLEEPQ][0]] > n
  }

  /** The next one of the running process's priority runs; nothing changes for the other priorities. */
  ghost predicate TurnPassed(k: State, r: State) {
    (&& Shape(k) && Shape(r) && Turns(r) == Rotated(Turns(k)) && r.proc[r.curr].prio == k.proc[k.curr].prio
     && (forall y :: y != k.proc[k.curr].prio ==> OfPrio(r.queue[READYQ], r.proc, y) == OfPrio(k.queue[READYQ], k.proc, y))
     && forall p: Pid :: r.proc[p].prio == k.proc[p].prio) == true
  }

  // ----- filtering

  lemma {:induction false} OfPrioConcat(q: seq<Pid>, s: seq<Pid>, procs: seq<Proc>, x: int)
    requires |procs| == NPROC
    ensures OfPrio(q + s, procs, x) == OfPrio(q, procs, x) + OfPrio(s, procs, x)
    decreases |s|
  {
    if s == [] {
      assert q + s == q;
    } else {
      assert (q + s)[..|q + s| - 1] == q + s[..|s| - 1];
      OfPrioConcat(q, s[..|s| - 1], procs, x);
    }
  }

  lemma {:induction false} OfPrioAll(q: seq<Pid>, procs: seq<Proc>, x: int)
    requires |procs| == NPROC
    ensures (forall i :: 0 <= i < |q| ==> procs[q[i]].prio == x) ==> OfPrio(q, procs, x) == q
    ensures (forall i :: 0 <= i < |q| ==> procs[q[i]].prio != x) ==> OfPrio(q, procs, x) == []
  {
    if q != [] { OfPrioAll(q[..|q| - 1], procs, x); }
  }

  lemma {:induction false} OfPrioSame(q: seq<Pid>, procs: seq<Proc>, other: seq<Proc>, x: int)
    requires |procs| == |other| == NPROC && forall p: Pid :: other[p].prio == procs[p].prio
    ensures OfPrio(q, other, x) == OfPrio(q, procs, x)
  {
    if q != [] { OfPrioSame(q[..|q| - 1], procs, other, x); }
  }

  // ----- one call of the scheduler

  /** The ready list is the equals of the running process and then lower priorities. */
  lemma EqualsFirst(k: State)
    requires Inv(k) && k.ndefers == 0
    ensures var q, x := k.queue[READYQ], k.proc[k.curr].prio;
            var a := PrioPos(q, k.key, x);
            && (forall i :: 0 <= i < a ==> k.proc[q[i]].prio == x) && (forall i :: a <= i < |q| ==> k.proc[q[i]].prio < x)
            && (a > 0 <==> x <= FirstKey(k, READYQ)) && k.proc[k.curr].st == Curr
  {
    assert Unfold(Processes, true);
    var q, x := k.queue[READYQ], k.proc[k.curr].prio;
    var a := PrioPos(q, k.key, x);
    forall i | 0 <= i < a ensures k.proc[q[i]].prio == x {
      if i > 0 { assert k.key[q[0]] >= k.key[q[i]]; }
    }
    forall i | a <= i < |q| ensures k.proc[q[i]].prio < x {
      if i > a { assert k.key[q[a]] >= k.key[q[i]]; }
    }
    assert x > MINKEY by { assert ProcOK(k.proc[k.curr], k.cont[k.curr], k.curr, k.curr); }
  }

  lemma ReschedPasses(k: State, r: State)
    requires Inv(k) && k.ndefers == 0 && r == Resched(k)
    ensures TurnPassed(k, r) && (r.curr != k.curr ==> r.preempt == QUANTUM)
    ensures Turns(k) != [k.curr] ==> r.proc[k.curr].st == PState.Ready && r.curr != k.curr
  {
    var q, x := k.queue[READYQ], k.proc[k.curr].prio;
    var a := PrioPos(q, k.key, x);
    EqualsFirst(k);
    assert q == q[..a] + q[a..];
    SplitByPrio(q[..a], q[a..], k.proc, x);
    if a > 0 {
      Switched(k, r, a);
      Passed(k, r, q[..a], q[a..]);
    } else {
      Alone(k, r);
    }
  }

  lemma Alone(k: State, r: State)
    requires Shape(k) && OfPrio(k.queue[READYQ], k.proc, k.proc[k.curr].prio) == [] && r == k
    ensures TurnPassed(k, r) && Turns(k) == [k.curr]
  {
    assert Rotated([k.curr]) == [k.curr];
  }

  lemma Switched(k: State, r: State, a: nat)
    requires Inv(k) && k.ndefers == 0 && r == Resched(k) && k.proc[k.curr].st == Curr && k.proc[k.curr].prio <= FirstKey(k, READYQ)
    requires 0 < a == PrioPos(k.queue[READYQ], k.key, k.proc[k.curr].prio)
    ensures var q := k.queue[READYQ];
            && k.curr !in q && r.queue[READYQ] == q[..a][1..] + [k.curr] + q[a..] && r.curr == q[0] && r.preempt == QUANTUM
            && (forall p: Pid :: r.proc[p].prio == k.proc[p].prio) && r.proc[k.curr].st == PState.Ready
  {
    var q := k.queue[READYQ];
    NotQueued(k, k.curr, READYQ);
    var m := MakeReady(k, k.curr);
    assert m.queue[READYQ] == InsertAt(q, a, k.curr) && m.queue[READYQ][0] == q[0];
    assert RemoveAt(InsertAt(q, a, k.curr), 0) == q[..a][1..] + [k.curr] + q[a..];
  }

  lemma {:induction false} SplitByPrio(es: seq<Pid>, ls: seq<Pid>, procs: seq<Proc>, x: int)
    requires |procs| == NPROC && (forall i :: 0 <= i < |es| ==> procs[es[i]].prio == x)
    requires forall i :: 0 <= i < |ls| ==> procs[ls[i]].prio < x
    ensures OfPrio(es + ls, procs, x) == es && forall y :: y != x ==> OfPrio(es + ls, procs, y) == OfPrio(ls, procs, y)
  {
    OfPrioConcat(es, ls, procs, x);
    OfPrioAll(es, procs, x);
    OfPrioAll(ls, procs, x);
    forall y | y != x ensures OfPrio(es + ls, procs, y) == OfPrio(ls, procs, y) {
      OfPrioConcat(es, ls, procs, y);
      OfPrioAll(es, procs, y);
    }
  }

  lemma Passed(k: State, r: State, es: seq<Pid>, ls: seq<Pid>)
    requires Shape(k) && Shape(r) && k.queue[READYQ] == es + ls && es != [] && k.curr !in k.queue[READYQ]
    requires r.queue[READYQ] == es[1..] + [k.curr] + ls && r.curr == es[0] && forall p: Pid :: r.proc[p].prio == k.proc[p].prio
    requires forall i :: 0 <= i < |es| ==> k.proc[es[i]].prio == k.proc[k.curr].prio
    requires forall i :: 0 <= i < |ls| ==> k.proc[ls[i]].prio < k.proc[k.curr].prio
    ensures TurnPassed(k, r)
  {
    var x, after := k.proc[k.curr].prio, es[1..] + [k.curr];
    SplitByPrio(es, ls, k.proc, x);
    SplitByPrio(after, ls, k.proc, x);
    forall y ensures OfPrio(after + ls, r.proc, y) == OfPrio(after + ls, k.proc, y) { OfPrioSame(after + ls, k.proc, r.proc, y); }
    assert k.proc[es[0]].prio == x;
    assert Turns(k) == [k.curr] + es && Turns(r) == [es[0]] + after;
    assert Rotated(Turns(k)) == es + [k.curr];
  }

  // ----- the events

  /** Nobody wakes: a tick that does not end the slice changes neither who runs nor who is next. */
  lemma SliceGoesOn(e: Event)
    requires Inv(e.before) && IsStep(e) && e.op == Tick && NobodyDue(e.before, 1) && e.before.preempt > 1
    ensures Shape(e.r.k) && e.r.k.curr == e.before.curr && e.r.k.preempt == e.before.preempt - 1
    ensures e.r.k.queue[READYQ] == e.before.queue[READYQ] && e.r.k.proc == e.before.proc
  {
  }

  /** A tick that ends the slice passes the turn on, and a new slice begins. */
  lemma SliceEnds(e: Event)
    requires Inv(e.before) && IsStep(e) && e.op == Tick && NobodyDue(e.before, 1) && e.before.preempt == 1 && e.before.ndefers == 0
    ensures TurnPassed(e.before, e.r.k) && e.r.k.preempt == QUANTUM
    ensures Turns(e.before) != [e.before.curr] ==> e.r.k.proc[e.before.curr].st == PState.Ready
  {
    var k := e.before;
    TickCounts(k);
    var k1 := AddDelta(k, 0, -1);
    SetPreempt(k1, QUANTUM);
    ReschedPasses(k1.(preempt := QUANTUM), e.r.k);
  }

  /** With nobody due only the first delta is counted down. */
  lemma TickCounts(k: State)
    requires Inv(k) && NobodyDue(k, 1)
    ensures CountSleep(k) == AddDelta(k, 0, -1) && Inv(AddDelta(k, 0, -1))
    ensures AddDelta(k, 0, -1) == k.(key := AddDelta(k, 0, -1).key)
  {
    CountSleepKeeps(k);
  }

  /** Giving up the processor, by `yield` or by sleeping for no time, passes the turn on. */
  lemma YieldPasses(e: Event)
    requires Inv(e.before) && IsStep(e) && (e.op == Yield || e.op == Op.SleepMs(0)) && e.before.ndefers == 0
    ensures TurnPassed(e.before, e.r.k) && e.r.out == Ret(OK)
    ensures Turns(e.before) != [e.before.curr] ==> e.r.k.proc[e.before.curr].st == PState.Ready
  {
    ReschedPasses(e.before, e.r.k);
  }

  // ----- runs of ticks

  lemma StillNobodyDue(e: Event, n: nat)
    requires Inv(e.before) && IsStep(e) && e.op == Tick && NobodyDue(e.before, n + 1)
    ensures Shape(e.r.k) && NobodyDue(e.r.k, n) && e.r.k.ndefers == e.before.ndefers
  {
    var k := e.before;
    TickCounts(k);
    var k1 := AddDelta(k, 0, -1);
    NotQueued(k1, k1.curr, SLEEPQ);
    if k1.preempt == 1 { ReschedSame(k1.(preempt := QUANTUM), e.r.k); }
  }

  ghost predicate OnlyTicks(run: seq<Event>) {
    forall i :: 0 <= i < |run| ==> run[i].op == Tick
  }

  /** Within a slice. */
  lemma {:induction false} WithinSlice(k: State, run: seq<Event>, n: nat)
    requires Inv(k) && k.ndefers == 0 && IsRun(k, run) && OnlyTicks(run) && |run| < k.preempt && NobodyDue(k, |run| + n)
    ensures var z := LastState(k, run);
            && Inv(z) && z.ndefers == 0 && z.curr == k.curr && z.queue[READYQ] == k.queue[READYQ] && z.proc == k.proc
            && z.preempt == k.preempt - |run| && NobodyDue(z, n)
    decreases |run|
  {
    if run != [] {
      var e := run[|run| - 1];
      RunPrefix(k, run);
      WithinSlice(k, run[..|run| - 1], n + 1);
      SliceGoesOn(e);
      StillNobodyDue(e, n);
      EventKeeps(e);
    }
  }

  /** A whole slice: after `QUANTUM` ticks the turn has passed on. */
  lemma OneSlice(k: State, run: seq<Event>, n: nat)
    requires Inv(k) && k.ndefers == 0 && k.preempt == QUANTUM && IsRun(k, run) && OnlyTicks(run) && |run| == QUANTUM
    requires NobodyDue(k, |run| + n)
    ensures var z := LastState(k, run); TurnPassed(k, z) && Inv(z) && z.ndefers == 0 && z.preempt == QUANTUM && NobodyDue(z, n)
  {
    var e := run[|run| - 1];
    RunPrefix(k, run);
    WithinSlice(k, run[..|run| - 1], n + 1);
    SliceEnds(e);
    StillNobodyDue(e, n);
    EventKeeps(e);
  }

  function RotatedBy(s: seq<Pid>, j: nat): (r: seq<Pid>)
    requires s != []
    ensures |r| == |s|
  {
    if j == 0 then s else Rotated(RotatedBy(s, j - 1))
  }

  lemma {:induction false} RotatedAt(s: seq<Pid>, j: nat)
    requires s != [] && j <= |s|
    ensures RotatedBy(s, j) == s[j..] + s[..j]
  {
    if j > 0 { RotatedAt(s, j - 1); }
  }

  /** A run in which only the clock ticks. */
  ghost predicate TickRun(k: State, run: seq<Event>) {
    (IsRun(k, run) && OnlyTicks(run)) == true
  }

  lemma RunFront(k: State, run: seq<Event>, n: nat)
    requires TickRun(k, run) && n <= |run|
    ensures TickRun(k, run[..n])
  {
    var a := run[..n];
    forall i | 0 <= i < |a| ensures IsStep(a[i]) && a[i].op == Tick { assert a[i] == run[i]; }
  }

  lemma RunBack(k: State, run: seq<Event>, n: nat)
    requires TickRun(k, run) && n < |run|
    ensures TickRun(LastState(k, run[..n]), run[n..]) && LastState(k, run) == LastState(LastState(k, run[..n]), run[n..])
  {
    var b := run[n..];
    if n > 0 { assert run[n].before == run[n - 1].r.k; }
    forall i | 0 <= i < |b| ensures IsStep(b[i]) && b[i].op == Tick { assert b[i] == run[n + i]; }
    forall i, j | 0 <= i < j < |b| && j == i + 1 ensures b[j].before == b[i].r.k { assert run[n + j].before == run[n + i].r.k; }
  }

  /** `j` slices after `k`, at the start of a new one. */
  ghost predicate SlicesOn(k: State, z: State, j: nat, n: nat) {
    (&& Shape(k) && Inv(z) && z.ndefers == 0 && z.preempt == QUANTUM && NobodyDue(z, n) && Turns(z) == RotatedBy(Turns(k), j)) == true
  }

  lemma {:induction false} Slices(k: State, run: seq<Event>, j: nat, n: nat) returns (z: State)
    requires Inv(k) && k.ndefers == 0 && k.preempt == QUANTUM && TickRun(k, run) && |run| == j * QUANTUM
    requires NobodyDue(k, |run| + n)
    ensures z == LastState(k, run) && SlicesOn(k, z, j, n)
    decreases j
  {
    z := LastState(k, run);
    if j > 0 {
      var m := (j - 1) * QUANTUM;
      RunFront(k, run, m);
      RunBack(k, run, m);
      var y := Slices(k, run[..m], j - 1, QUANTUM + n);
      NextSlice(k, y, run[m..], z, j, n);
    } else {
      NoSlice(k, n);
    }
  }

  lemma NoSlice(k: State, n: nat)
    requires Inv(k) && k.ndefers == 0 && k.preempt == QUANTUM && NobodyDue(k, n)
    ensures SlicesOn(k, k, 0, n)
  {
  }

  lemma NextSlice(k: State, z: State, run: seq<Event>, last: State, j: nat, n: nat)
    requires j > 0 && SlicesOn(k, z, j - 1, QUANTUM + n) && TickRun(z, run) && |run| == QUANTUM && last == LastState(z, run)
    ensures SlicesOn(k, last, j, n)
  {
    OneSlice(z, run, n);
  }

  /**
    Equals take turns: while nothing but the clock happens and nobody wakes, the i-th
    process of the running one's priority runs after i slices, and after as many
    slices as there are such processes each has had one and the order is the same.
  */
  lemma EqualsShare(k: State, run: seq<Event>, i: nat)
    requires Inv(k) && k.ndefers == 0 && k.preempt == QUANTUM && IsRun(k, run) && OnlyTicks(run)
    requires |run| == i * QUANTUM && i <= |Turns(k)| && NobodyDue(k, |run|)
    ensures Shape(LastState(k, run)) && LastState(k, run).curr == Turns(k)[if i < |Turns(k)| then i else 0]
    ensures i == |Turns(k)| ==> Turns(LastState(k, run)) == Turns(k)
  {
    var z := Slices(k, run, i, 0);
    RotatedAt(Turns(k), i);
  }
}
