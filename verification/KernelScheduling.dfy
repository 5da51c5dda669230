/**
  What the invariant says about scheduling: the running process is among the most
  urgent, equal priorities take turns, and while rescheduling is deferred nobody
  else gets the processor.
*/
module KernelScheduling {
  import opened Common
  import opened Lists
  import opened KernelSpec
  import opened KernelInvariant
  import opened KernelProofs

  /** With no deferral outstanding the running process has the highest priority of all eligible ones. */
  lemma RunsHighest(k: State, p: Pid)
    requires Inv(k) && k.ndefers == 0 && k.proc[p].st == Ready
    ensures k.proc[p].prio <= k.proc[k.curr].prio
  {
    assert Unfold(Processes, true);
    QueuedSomewhere(k, p);
    var r := k.queue[READYQ];
    var i := IndexOf(r, p);
    if i > 0 { assert k.key[r[0]] >= k.key[r[i]]; }
  }

  /** The null process is always running or ready, so that a switch never finds an empty ready list. */
  lemma NullEligible(k: State)
    requires Inv(k)
    ensures k.curr == NULLPROC || NULLPROC in k.queue[READYQ]
  {
    QueuedSomewhere(k, NULLPROC);
  }

  /**
    Equal priorities take turns: a running process that lets others of its
    priority run goes behind all of them, and the one that waited longest runs.
  */
  lemma EqualsTakeTurns(k: State, r: State)
    requires Inv(k) && k.ndefers == 0 && k.queue[READYQ] != [] && r == Resched(k)
    requires k.key[k.queue[READYQ][0]] == k.proc[k.curr].prio
    ensures r.curr == k.queue[READYQ][0]
    ensures exists i :: 0 <= i < |k.queue[READYQ]| &&
              r.queue[READYQ] == InsertAt(k.queue[READYQ][1..], i, k.curr) &&
              (forall j :: 0 <= j <= i ==> k.proc[k.queue[READYQ][j]].prio == k.proc[k.curr].prio) &&
              (forall j :: i < j < |k.queue[READYQ]| ==> k.proc[k.queue[READYQ][j]].prio < k.proc[k.curr].prio)
  {
    assert Unfold(Processes, true);
    var q, x := k.queue[READYQ], k.proc[k.curr].prio;
    var i := PrioPos(q, k.key, x);
    assert i > 0;
    forall j | 0 <= j < i ensures k.proc[q[j]].prio == x {
      if j > 0 { assert k.key[q[0]] >= k.key[q[j]]; }
    }
    forall j | i <= j < |q| ensures k.proc[q[j]].prio < x {
      if j > i { assert k.key[q[i]] >= k.key[q[j]]; }
    }
    assert RemoveAt(InsertAt(q, i, k.curr), 0) == InsertAt(q[1..], i - 1, k.curr);
  }

  // ----- deferral

  /** The same process runs, in the same nesting of deferrals. */
  ghost predicate SameRunner(k: State, r: State) {
    (Shape(k) && Shape(r) && r.curr == k.curr && r.ndefers == k.ndefers) == true
  }

  lemma DoReadyDeferred(k: State, x: Pid, r: State)
    requires Shape(k) && k.ndefers > 0 && r == DoReady(k, x)
    ensures SameRunner(k, r)
  {
  }

  lemma ReleaseFirstDeferred(k: State, s: nat, r: State)
    requires Shape(k) && k.ndefers > 0 && s < NSEM && r == ReleaseFirst(k, s)
    ensures SameRunner(k, r)
  {
    if k.queue[s] != [] {
      var p := k.queue[s][0];
      DoReadyDeferred(Take(k, s, 0, k.proc[p]), p, r);
    }
  }

  lemma {:induction false} ReleaseManyDeferred(k: State, s: nat, n: nat, r: State)
    requires Shape(k) && k.ndefers > 0 && s < NSEM && r == ReleaseMany(k, s, n)
    ensures SameRunner(k, r)
    decreases n
  {
    if n > 0 {
      var m := ReleaseFirst(k, s);
      ReleaseFirstDeferred(k, s, m);
      ReleaseManyDeferred(m, s, n - 1, r);
    }
  }

  lemma SignalOnceDeferred(k: State, s: nat, r: State)
    requires Shape(k) && k.ndefers > 0 && s < NSEM && r == SignalOnce(k, s)
    ensures SameRunner(k, r)
  {
    if k.sem[s].count < 0 { ReleaseFirstDeferred(SetCount(k, s, k.sem[s].count + 1), s, r); }
  }

  lemma {:induction false} SignalTimesDeferred(k: State, s: nat, n: nat, r: State)
    requires Shape(k) && k.ndefers > 0 && s < NSEM && r == SignalTimes(k, s, n)
    ensures SameRunner(k, r)
    decreases n
  {
    if n > 0 {
      var m := SignalOnce(k, s);
      SignalOnceDeferred(k, s, m);
      SignalTimesDeferred(m, s, n - 1, r);
    }
  }

  lemma {:induction false} WakeAllDeferred(k: State, r: State)
    requires Shape(k) && k.ndefers > 0 && r == WakeAll(k)
    ensures SameRunner(k, r)
    decreases |k.queue[SLEEPQ]|
  {
    if !(k.queue[SLEEPQ] == [] || FirstKey(k, SLEEPQ) > 0) {
      var p := k.queue[SLEEPQ][0];
      var k1 := Take(k, SLEEPQ, 0, k.proc[p]);
      var m := DoReady(k1, p);
      DoReadyDeferred(k1, p, m);
      WakeAllDeferred(m, r);
    }
  }

  lemma ReleaseAllDeferred(k: State, s: nat, c: int, r: State)
    requires Shape(k) && k.ndefers > 0 && s < NSEM && r == ReleaseAll(k, s, c)
    ensures SameRunner(k, r)
  {
    ReleaseManyDeferred(DeferStart(k), s, |k.queue[s]|, ReleaseMany(DeferStart(k), s, |k.queue[s]|));
  }

  lemma TickDeferred(k: State, r: State)
    requires Shape(k) && k.ndefers > 0 && r == DoTick(k).k
    ensures SameRunner(k, r)
  {
    if k.queue[SLEEPQ] != [] {
      var k1 := AddDelta(k, 0, -1);
      WakeAllDeferred(DeferStart(k1), WakeAll(DeferStart(k1)));
    }
  }

  lemma SemCallDeferred(k: State, op: Op, r: Result)
    requires Inv(k) && Enabled(k, op) && Next(k, op, r) && k.ndefers > 0
    requires op.WaitOn? || op.Signal? || op.SignalN? || op.SemCreate? || op.SemDelete? || op.SemReset?
    ensures SameRunner(k, r.k)
  {
    if BadSem(op.s) || (!k.sem[op.s].used && !op.SemCreate?) { return; }
    var s := op.s;
    match op
    case WaitOn(_) =>
    case Signal(_) => SignalOnceDeferred(k, s, r.k);
    case SignalN(_, n) => if n >= 0 { SignalTimesDeferred(DeferStart(k), s, n, SignalTimes(DeferStart(k), s, n)); }
    case SemCreate(_, n) =>
    case SemDelete(_) => ReleaseAllDeferred(SetSem(k, s, Sem(false, k.sem[s].count)), s, k.sem[s].count + |k.queue[s]| + 1, r.k);
    case SemReset(_, n) => if n >= 0 { ReleaseAllDeferred(k, s, n, r.k); }
  }

  lemma ExtractRunner(k: State, p: Pid, pr: Proc)
    requires Shape(k)
    ensures SameRunner(k, Extract(k, p, pr))
  {
  }

  lemma OtherCallDeferred(k: State, op: Op, r: Result)
    requires Inv(k) && Enabled(k, op) && Next(k, op, r) && k.ndefers > 0
    requires op.Create? || op.Kill? || op.Suspend? || op.Resume? || op.Send?
    ensures SameRunner(k, r.k)
  {
    if !(0 <= op.p < NPROC) { return; }
    var p: Pid := op.p;
    QueuedSomewhere(k, p);
    match op
    case Create(_, prio) =>
    case Kill(_) => ExtractRunner(k, p, k.proc[p].(st := Free));
    case Suspend(_) => ExtractRunner(k, p, k.proc[p].(st := Susp));
    case Resume(_) => if k.proc[p].st == Susp { DoReadyDeferred(k, p, r.k); }
    case Send(_, m) =>
      var pr := k.proc[p].(hasmsg := true, msg := m);
      ExtractRunner(k, p, pr);
      if (pr.st == Recv || pr.st == RecTim) && !k.proc[p].hasmsg { DoReadyDeferred(Extract(k, p, pr), p, r.k); }
  }

  /** Between the outermost start and stop of a deferral no step changes who is running. */
  lemma NoSwitchWhileDeferred(e: Event)
    requires Inv(e.before) && IsStep(e) && e.before.ndefers > 0
    ensures Shape(e.r.k) && (e.r.k.ndefers > 0 ==> e.r.k.curr == e.before.curr)
    ensures !e.op.Defer? ==> e.r.k.ndefers == e.before.ndefers
  {
    var k, op, r := e.before, e.op, e.r;
    if op.WaitOn? || op.Signal? || op.SignalN? || op.SemCreate? || op.SemDelete? || op.SemReset? {
      SemCallDeferred(k, op, r);
    } else if op.Create? || op.Kill? || op.Suspend? || op.Resume? || op.Send? {
      OtherCallDeferred(k, op, r);
    } else if op.Tick? {
      TickDeferred(k, r.k);
    }
  }

  /** The same over a whole run: as long as the deferral lasts, the process that began it keeps the processor. */
  lemma {:induction false} NoSwitchDuringDeferral(k: State, run: seq<Event>)
    requires Inv(k) && IsRun(k, run) && k.ndefers > 0
    requires forall i :: 0 <= i < |run| ==> run[i].r.k.ndefers > 0
    ensures Inv(LastState(k, run)) && LastState(k, run).ndefers > 0 && LastState(k, run).curr == k.curr
    decreases |run|
  {
    if run != [] {
      var n := |run| - 1;
      RunPrefix(k, run);
      NoSwitchDuringDeferral(k, run[..n]);
      NoSwitchWhileDeferred(run[n]);
      EventKeeps(run[n]);
    }
  }

  /** After the outermost stop the running process is again among the most urgent. */
  lemma StopRestoresPriority(e: Event, p: Pid)
    requires Inv(e.before) && IsStep(e) && e.op == Defer(false) && e.before.ndefers == 1
    ensures Shape(e.r.k) && e.r.k.ndefers == 0
    ensures e.r.k.proc[p].st == Ready ==> e.r.k.proc[p].prio <= e.r.k.proc[e.r.k.curr].prio
    ensures !e.before.attempt ==> e.r.k.curr == e.before.curr
  {
    EventKeeps(e);
    if e.r.k.proc[p].st == Ready { RunsHighest(e.r.k, p); }
  }

  // ----- who may block

  /** The caller's state after a call that blocks, if nobody else gets the processor. */
  lemma BlockedState(k: State, op: Op, r: Result)
    requires Inv(k) && k.cont[k.curr] == Idle && Blocks(k, op) && Next(k, op, r)
    requires (op.RecvTime? ==> op.d >= 1) && (op.Kill? || op.Suspend? ==> k.curr != NULLPROC)
    ensures k.ndefers > 0 ==> r.k.curr == k.curr && r.k.proc[k.curr].st != Curr
    ensures k.curr == NULLPROC ==> r.k.proc[NULLPROC].st != Curr && r.k.proc[NULLPROC].st != Ready
  {
    NowhereQueued(k, k.curr);
    if op.WaitOn? || op.RecvTime? || op.SleepMs? { SleptState(k, op, r); }
  }

  lemma SleptState(k: State, op: Op, r: Result)
    requires Shape(k) && k.proc[k.curr].st == Curr && Blocks(k, op) && Next(k, op, r)
    requires forall q, i :: 0 <= q < NQUEUES && 0 <= i < |k.queue[q]| ==> k.queue[q][i] != k.curr
    requires (op.RecvTime? && op.d >= 1) || op.WaitOn? || op.SleepMs?
    ensures k.ndefers > 0 ==> r.k.curr == k.curr && r.k.proc[k.curr].st != Curr
    ensures k.curr == NULLPROC ==> r.k.proc[NULLPROC].st != Curr && r.k.proc[NULLPROC].st != Ready
  {
  }

  lemma NowhereQueued(k: State, c: Pid)
    requires Inv(k) && k.proc[c].st == Curr
    ensures k.proc[k.curr].st == Curr
    ensures forall q, i :: 0 <= q < NQUEUES && 0 <= i < |k.queue[q]| ==> k.queue[q][i] != c
  {
    assert Unfold(Processes, true);
  }

  /**
    A call that has to wait, or that ends or suspends the caller, leaves a proper
    state if and only if the caller is not the null process and no deferral is
    active: there would be nobody else to run, or nobody else would be let run.
  */
  lemma MayBlockIff(k: State, op: Op, r: Result)
    requires Inv(k) && k.cont[k.curr] == Idle && Blocks(k, op) && Next(k, op, r)
    requires (op.RecvTime? ==> op.d >= 1) && (op.Kill? || op.Suspend? ==> k.curr != NULLPROC)
    ensures Inv(r.k) <==> k.curr != NULLPROC && k.ndefers == 0
  {
    if k.curr != NULLPROC && k.ndefers == 0 {
      NextKeeps(k, op, r);
    } else {
      BlockedState(k, op, r);
      if Inv(r.k) { NullState(r.k); }
    }
  }

  lemma NullState(k: State)
    requires Inv(k)
    ensures k.proc[k.curr].st == Curr && (k.proc[NULLPROC].st == Curr || k.proc[NULLPROC].st == Ready)
  {
    assert Unfold(Processes, true);
    assert ProcOK(k.proc[NULLPROC], k.cont[NULLPROC], NULLPROC, k.curr);
  }
}
