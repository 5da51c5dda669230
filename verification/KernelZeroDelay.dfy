/**
  The timed receive with a delay of zero: the call accepts it, but it puts a zero
  at the head of the delta list, and the tick tests for exactly zero after
  decrementing, so the caller and every sleeper behind it stay where they are.
*/
module KernelZeroDelay {
  import opened Common
  import opened Lists
  import opened KernelSpec
  import opened KernelInvariant
  import opened KernelProofs

  /**
    Process `p` stands at the head of the sleepers, in state `st`, with no time left,
    and nowhere else; `y` is one of the sleepers, `p` itself or one behind it.
  */
  ghost predicate Stuck(k: State, p: Pid, y: Pid, st: PState) {
    (&& Shape(k) && k.queue[SLEEPQ] != [] && k.queue[SLEEPQ][0] == p && k.key[p] <= 0
     && k.proc[p].st == st && (st == RecTim || st == Sleep) && k.curr != p && y in k.queue[SLEEPQ]
     && (forall i :: 0 < i < |k.queue[SLEEPQ]| ==> k.queue[SLEEPQ][i] != p)
     && (forall q, i :: 0 <= q < NQUEUES && q != SLEEPQ && 0 <= i < |k.queue[q]| ==> k.queue[q][i] != p)) == true
  }

  /** A message for `p`, or its end. */
  predicate Frees(op: Op, p: Pid) {
    (op.Kill? || op.Send?) && op.p == p
  }

  // ----- what moves other processes leaves it stuck

  lemma PutStuck(k: State, p: Pid, y: Pid, st: PState, x: Pid, pr: Proc, q: nat, i: nat, key: int)
    requires Stuck(k, p, y, st) && x != p && q < NQUEUES && q != SLEEPQ && i <= |k.queue[q]|
    ensures Stuck(Put(k, x, pr, q, i, key), p, y, st)
  {
  }

  lemma TakeStuck(k: State, p: Pid, y: Pid, st: PState, q: nat, i: nat, pr: Proc)
    requires Stuck(k, p, y, st) && q < NQUEUES && i < |k.queue[q]| && (q == SLEEPQ ==> i > 0 && k.queue[q][i] != y)
    ensures Stuck(Take(k, q, i, pr), p, y, st) && k.queue[q][i] != p
  {
    if q == SLEEPQ { KeptIn(k.queue[q], i, y); }
  }

  lemma KeptIn(s: seq<Pid>, i: nat, y: Pid)
    requires i < |s| && y in s && y != s[i]
    ensures y in RemoveAt(s, i)
  {
    var j := IndexOf(s, y);
    assert RemoveAt(s, i)[if j < i then j else j - 1] == y;
  }

  lemma AlterStuck(k: State, p: Pid, y: Pid, st: PState, x: Pid, pr: Proc)
    requires Stuck(k, p, y, st) && x != p
    ensures Stuck(Alter(k, x, pr), p, y, st)
  {
  }

  lemma MakeReadyStuck(k: State, p: Pid, y: Pid, st: PState, x: Pid)
    requires Stuck(k, p, y, st) && x != p
    ensures Stuck(MakeReady(k, x), p, y, st)
  {
    var pr := k.proc[x];
    PutStuck(k, p, y, st, x, pr.(st := PState.Ready), READYQ, PrioPos(k.queue[READYQ], k.key, pr.prio), pr.prio);
  }

  lemma SwitchStuck(k: State, p: Pid, y: Pid, st: PState)
    requires Stuck(k, p, y, st)
    ensures Stuck(Switch(k), p, y, st)
  {
    if k.queue[READYQ] != [] {
      var x := k.queue[READYQ][0];
      TakeStuck(k, p, y, st, READYQ, 0, k.proc[x].(st := Curr));
    }
  }

  lemma ReschedStuck(k: State, p: Pid, y: Pid, st: PState, r: State)
    requires Stuck(k, p, y, st) && r == Resched(k)
    ensures Stuck(r, p, y, st)
  {
    SwitchStuck(k, p, y, st);
    MakeReadyStuck(k, p, y, st, k.curr);
    SwitchStuck(MakeReady(k, k.curr), p, y, st);
  }

  lemma DoReadyStuck(k: State, p: Pid, y: Pid, st: PState, x: Pid, r: State)
    requires Stuck(k, p, y, st) && x != p && r == DoReady(k, x)
    ensures Stuck(r, p, y, st)
  {
    MakeReadyStuck(k, p, y, st, x);
    ReschedStuck(MakeReady(k, x), p, y, st, r);
  }

  lemma DeferStopStuck(k: State, p: Pid, y: Pid, st: PState, r: State)
    requires Stuck(k, p, y, st) && r == DeferStop(k)
    ensures Stuck(r, p, y, st)
  {
    if k.ndefers == 1 && k.attempt { ReschedStuck(k.(ndefers := 0), p, y, st, r); }
  }

  lemma ReleaseFirstStuck(k: State, p: Pid, y: Pid, st: PState, s: nat, r: State)
    requires Stuck(k, p, y, st) && s < NSEM && r == ReleaseFirst(k, s)
    ensures Stuck(r, p, y, st)
  {
    if k.queue[s] != [] {
      var x := k.queue[s][0];
      TakeStuck(k, p, y, st, s, 0, k.proc[x]);
      DoReadyStuck(Take(k, s, 0, k.proc[x]), p, y, st, x, r);
    }
  }

  lemma {:induction false} ReleaseManyStuck(k: State, p: Pid, y: Pid, st: PState, s: nat, n: nat, r: State)
    requires Stuck(k, p, y, st) && s < NSEM && r == ReleaseMany(k, s, n)
    ensures Stuck(r, p, y, st)
    decreases n
  {
    if n > 0 {
      var m := ReleaseFirst(k, s);
      ReleaseFirstStuck(k, p, y, st, s, m);
      ReleaseManyStuck(m, p, y, st, s, n - 1, r);
    }
  }

  lemma ReleaseAllStuck(k: State, p: Pid, y: Pid, st: PState, s: nat, c: int, r: State)
    requires Stuck(k, p, y, st) && s < NSEM && r == ReleaseAll(k, s, c)
    ensures Stuck(r, p, y, st)
  {
    var k1 := ReleaseMany(DeferStart(k), s, |k.queue[s]|);
    ReleaseManyStuck(DeferStart(k), p, y, st, s, |k.queue[s]|, k1);
    DeferStopStuck(SetCount(k1, s, c), p, y, st, r);
  }

  lemma SignalOnceStuck(k: State, p: Pid, y: Pid, st: PState, s: nat, r: State)
    requires Stuck(k, p, y, st) && s < NSEM && r == SignalOnce(k, s)
    ensures Stuck(r, p, y, st)
  {
    if k.sem[s].count < 0 { ReleaseFirstStuck(SetCount(k, s, k.sem[s].count + 1), p, y, st, s, r); }
  }

  lemma {:induction false} SignalTimesStuck(k: State, p: Pid, y: Pid, st: PState, s: nat, n: nat, r: State)
    requires Stuck(k, p, y, st) && s < NSEM && r == SignalTimes(k, s, n)
    ensures Stuck(r, p, y, st)
    decreases n
  {
    if n > 0 {
      var m := SignalOnce(k, s);
      SignalOnceStuck(k, p, y, st, s, m);
      SignalTimesStuck(m, p, y, st, s, n - 1, r);
    }
  }

  // ----- the delta list

  /** A newcomer goes behind it, because its delta does not exceed any delay. */
  lemma PutDeltaStuck(k: State, p: Pid, y: Pid, st: PState, x: Pid, pr: Proc, d: int)
    requires Stuck(k, p, y, st) && x != p && d >= 0
    ensures Stuck(PutDelta(k, x, pr, d), p, y, st)
  {
    var q := k.queue[SLEEPQ];
    var i := DeltaPos(q, k.key, d, 0);
    assert KeySum(q, k.key, 0) == 0;
    assert i >= 1;
    var rest := d - KeySum(q, k.key, i);
    var k1 := Put(k, x, pr, SLEEPQ, i, rest);
    InsertAtHas(q, i, x, y);
    assert Stuck(k1, p, y, st);
    AddDeltaStuck(k1, p, y, st, i + 1, -rest);
  }

  lemma AddDeltaStuck(k: State, p: Pid, y: Pid, st: PState, i: nat, d: int)
    requires Stuck(k, p, y, st) && (i > 0 || d <= 0)
    ensures Stuck(AddDelta(k, i, d), p, y, st)
  {
  }

  /** Another process leaves whatever queue it is on. */
  lemma ExtractStuck(k: State, p: Pid, y: Pid, st: PState, x: Pid, pr: Proc)
    requires Stuck(k, p, y, st) && x != p && (x == y ==> k.proc[x].st != Sleep && k.proc[x].st != RecTim)
    ensures Stuck(Extract(k, x, pr), p, y, st)
  {
    var t, s := k.proc[x].st, k.proc[x].sem;
    if (t == Sleep || t == RecTim) && x in k.queue[SLEEPQ] {
      var i := IndexOf(k.queue[SLEEPQ], x);
      var k1 := AddDelta(k, i + 1, k.key[x]);
      AddDeltaStuck(k, p, y, st, i + 1, k.key[x]);
      TakeStuck(k1, p, y, st, SLEEPQ, i, pr);
    } else if t == Wait && !BadSem(s) && x in k.queue[s] {
      TakeStuck(SetCount(k, s, k.sem[s].count + 1), p, y, st, s, IndexOf(k.queue[s], x), pr);
    } else if t == PState.Ready && x in k.queue[READYQ] {
      TakeStuck(k, p, y, st, READYQ, IndexOf(k.queue[READYQ], x), pr);
    } else {
      AlterStuck(k, p, y, st, x, pr);
    }
  }

  lemma CountSliceStuck(k: State, p: Pid, y: Pid, st: PState, r: State)
    requires Stuck(k, p, y, st) && r == CountSlice(k)
    ensures Stuck(r, p, y, st)
  {
    if k.preempt - 1 == 0 {
      ReschedStuck(k.(preempt := QUANTUM), p, y, st, r);
    } else {
      assert Stuck(k.(preempt := k.preempt - 1), p, y, st);
    }
  }

  /** The tick decrements the delta past zero and wakes nobody. */
  lemma TickStuck(k: State, p: Pid, y: Pid, st: PState, r: State)
    requires Stuck(k, p, y, st) && r == DoTick(k).k
    ensures Stuck(r, p, y, st)
  {
    AddDeltaStuck(k, p, y, st, 0, -1);
    var k1 := AddDelta(k, 0, -1);
    assert CountSleep(k) == k1;
    CountSliceStuck(k1, p, y, st, r);
  }

  // ----- every call

  lemma WaitStuck(k: State, p: Pid, y: Pid, st: PState, s: nat, r: State)
    requires Stuck(k, p, y, st) && s < NSEM && r == DoWait(k, s).k
    ensures Stuck(r, p, y, st)
  {
    if k.sem[s].used && k.sem[s].count <= 0 {
      var k1 := SetCount(k, s, k.sem[s].count - 1);
      var pr := k1.proc[k1.curr].(st := Wait, sem := s);
      PutStuck(k1, p, y, st, k1.curr, pr, s, |k1.queue[s]|, k1.key[k1.curr]);
      ReschedStuck(Put(k1, k1.curr, pr, s, |k1.queue[s]|, k1.key[k1.curr]), p, y, st, r);
    }
  }

  lemma {:induction false} SignalNStuck(k: State, p: Pid, y: Pid, st: PState, s: nat, n: nat, r: State)
    requires Stuck(k, p, y, st) && s < NSEM && r == DeferStop(SignalTimes(DeferStart(k), s, n))
    ensures Stuck(r, p, y, st)
  {
    var k1 := SignalTimes(DeferStart(k), s, n);
    SignalTimesStuck(DeferStart(k), p, y, st, s, n, k1);
    DeferStopStuck(k1, p, y, st, r);
  }

  lemma SemDeleteStuck(k: State, p: Pid, y: Pid, st: PState, s: nat, r: State)
    requires Stuck(k, p, y, st) && s < NSEM && r == DoSemDelete(k, s).k
    ensures Stuck(r, p, y, st)
  {
    DeletedSem(k, s);
    if k.sem[s].used {
      var k1 := SetSem(k, s, Sem(false, k.sem[s].count));
      SetSemStuck(k, p, y, st, s, Sem(false, k.sem[s].count));
      ReleaseAllStuck(k1, p, y, st, s, k.sem[s].count + |k.queue[s]| + 1, r);
    }
  }

  lemma SetSemStuck(k: State, p: Pid, y: Pid, st: PState, s: nat, e: Sem)
    requires Stuck(k, p, y, st) && s < NSEM
    ensures Stuck(SetSem(k, s, e), p, y, st)
  {
  }

  lemma DeletedSem(k: State, s: nat)
    requires Shape(k) && s < NSEM
    ensures DoSemDelete(k, s).k == if k.sem[s].used then ReleaseAll(SetSem(k, s, Sem(false, k.sem[s].count)), s, k.sem[s].count + |k.queue[s]| + 1) else k
  {
  }

  lemma SemStuck(k: State, p: Pid, y: Pid, st: PState, op: Op, r: Result)
    requires Stuck(k, p, y, st) && Next(k, op, r)
    requires op.WaitOn? || op.Signal? || op.SignalN? || op.SemCreate? || op.SemDelete? || op.SemReset?
    ensures Stuck(r.k, p, y, st)
  {
    var s := op.s;
    if !BadSem(s) {
      if op.WaitOn? {
        WaitStuck(k, p, y, st, s, r.k);
      } else if op.Signal? {
        SignalOnceStuck(k, p, y, st, s, SignalOnce(k, s));
      } else if op.SignalN? && op.n >= 0 && k.sem[s].used {
        SignalNStuck(k, p, y, st, s, op.n, r.k);
      } else if op.SemDelete? {
        SemDeleteStuck(k, p, y, st, s, r.k);
      } else if op.SemReset? {
        ReleaseAllStuck(k, p, y, st, s, op.n, ReleaseAll(k, s, op.n));
      }
    }
  }

  lemma ProcStuck(k: State, p: Pid, y: Pid, st: PState, op: Op, r: Result)
    requires Stuck(k, p, y, st) && Next(k, op, r) && (op.Create? || op.Kill? || op.Suspend? || op.Resume? || op.Send?)
    requires !Frees(op, p) && !Frees(op, y)
    ensures Stuck(r.k, p, y, st)
  {
    var x := op.p;
    if 0 <= x < NPROC && x != p {
      if op.Create? {
        AlterStuck(k, p, y, st, x, Proc(Susp, op.prio, -1, false, k.proc[x].msg));
      } else if op.Kill? {
        ExtractStuck(k, p, y, st, x, k.proc[x].(st := Free));
        var k1 := SetCont(Extract(k, x, k.proc[x].(st := Free)), x, Idle);
        ReschedStuck(k1, p, y, st, Resched(k1));
      } else if op.Suspend? && (k.proc[x].st == PState.Ready || k.proc[x].st == Curr) {
        ExtractStuck(k, p, y, st, x, k.proc[x].(st := Susp));
        var k1 := Extract(k, x, k.proc[x].(st := Susp));
        ReschedStuck(k1, p, y, st, Resched(k1));
      } else if op.Suspend? {
        assert r.k == k;
      } else if op.Resume? {
        DoReadyStuck(k, p, y, st, x, DoReady(k, x));
      } else {
        var pr := k.proc[x].(hasmsg := true, msg := op.m);
        ExtractStuck(k, p, y, st, x, pr);
        AlterStuck(k, p, y, st, x, pr);
        DoReadyStuck(Extract(k, x, pr), p, y, st, x, DoReady(Extract(k, x, pr), x));
      }
    }
  }

  lemma SelfStuck(k: State, p: Pid, y: Pid, st: PState, op: Op, r: Result)
    requires Stuck(k, p, y, st) && Next(k, op, r) && (op.Receive? || op.RecvTime? || op.RecvClr? || op.SleepMs?)
    ensures Stuck(r.k, p, y, st)
  {
    var c := k.curr;
    var pr := k.proc[c];
    AlterStuck(k, p, y, st, c, pr.(hasmsg := false));
    if op.Receive? {
      AlterStuck(k, p, y, st, c, pr.(st := Recv));
      var k1 := SetCont(Alter(k, c, pr.(st := Recv)), c, InReceive);
      ReschedStuck(k1, p, y, st, Resched(k1));
    } else if op.RecvTime? && op.d >= 0 {
      PutDeltaStuck(SetCont(k, c, InRecvTime), p, y, st, c, pr.(st := RecTim), op.d);
      var k1 := PutDelta(SetCont(k, c, InRecvTime), c, pr.(st := RecTim), op.d);
      ReschedStuck(k1, p, y, st, Resched(k1));
    } else if op.SleepMs? && op.d >= 0 {
      ReschedStuck(k, p, y, st, Resched(k));
      PutDeltaStuck(k, p, y, st, c, pr.(st := Sleep), op.d);
      ReschedStuck(PutDelta(k, c, pr.(st := Sleep), op.d), p, y, st, Resched(PutDelta(k, c, pr.(st := Sleep), op.d)));
    }
  }

  lemma FinishStuck(k: State, p: Pid, y: Pid, st: PState, r: Result)
    requires Stuck(k, p, y, st) && r == DoFinish(k)
    ensures Stuck(r.k, p, y, st)
  {
    var k0, c := SetCont(k, k.curr, Idle), k.curr;
    AlterStuck(k0, p, y, st, c, k0.proc[c].(hasmsg := false));
    CountSliceStuck(k0, p, y, st, CountSlice(k0));
  }

  /** No call and no tick moves it, except a message for it or its end. */
  lemma StepStuck(k: State, p: Pid, y: Pid, st: PState, op: Op, r: Result)
    requires Stuck(k, p, y, st) && Next(k, op, r) && !Frees(op, p) && !Frees(op, y)
    ensures Stuck(r.k, p, y, st)
  {
    if op.WaitOn? || op.Signal? || op.SignalN? || op.SemCreate? || op.SemDelete? || op.SemReset? {
      SemStuck(k, p, y, st, op, r);
    } else if op.Create? || op.Kill? || op.Suspend? || op.Resume? || op.Send? {
      ProcStuck(k, p, y, st, op, r);
    } else if op.Receive? || op.RecvTime? || op.RecvClr? || op.SleepMs? {
      SelfStuck(k, p, y, st, op, r);
    } else if op.Yield? {
      ReschedStuck(k, p, y, st, r.k);
    } else if op.Tick? {
      TickStuck(k, p, y, st, r.k);
    } else if op.Defer? {
      DeferStopStuck(k, p, y, st, DeferStop(k));
    } else {
      FinishStuck(k, p, y, st, r);
    }
  }

  /**
    In every run after the call, however many ticks it holds, the process stays
    where it is: nothing wakes it but a message, and nothing removes it but `kill`.
  */
  lemma {:induction false} NeverWakes(k: State, run: seq<Event>, p: Pid, y: Pid, st: PState)
    requires Stuck(k, p, y, st) && IsRun(k, run)
    requires forall i :: 0 <= i < |run| ==> !Frees(run[i].op, p) && !Frees(run[i].op, y)
    ensures Stuck(LastState(k, run), p, y, st)
    decreases |run|
  {
    if run != [] {
      var n := |run| - 1;
      RunPrefix(k, run);
      NeverWakes(k, run[..n], p, y, st);
      StepStuck(run[n].before, p, y, st, run[n].op, run[n].r);
    }
  }

  // ----- exactly when the call is sound

  /** The state that a timed receive without a message leaves; a zero puts the caller at the head. */
  lemma ZeroStuck(k: State, r: State, y: Pid)
    requires Inv(k) && !k.proc[k.curr].hasmsg && k.ndefers == 0 && k.curr != NULLPROC && r == DoRecvTime(k, 0).k
    requires y == k.curr || y in k.queue[SLEEPQ]
    ensures Stuck(r, k.curr, y, RecTim)
  {
    var c := k.curr;
    var k0, pr := SetCont(k, c, InRecvTime), k.proc[c].(st := RecTim);
    var k1 := PutDelta(k0, c, pr, 0);
    ZeroHead(k, k0, c, pr, k1);
    NullReady(k);
    assert y in [c] + k.queue[SLEEPQ];
    NullFirst(k1, r, c, y);
  }

  lemma NullReady(k: State)
    requires Inv(k) && k.curr != NULLPROC
    ensures k.queue[READYQ] != [] && forall q, i :: 0 <= q < NQUEUES && 0 <= i < |k.queue[q]| ==> k.queue[q][i] != k.curr
  {
    assert Unfold(Processes, true);
    QueuedSomewhere(k, NULLPROC);
  }

  lemma ZeroHead(k: State, k0: State, c: Pid, pr: Proc, r: State)
    requires Inv(k) && c == k.curr && k0 == SetCont(k, c, InRecvTime) && r == PutDelta(k0, c, pr, 0)
    ensures r.queue == k.queue[SLEEPQ := [c] + k.queue[SLEEPQ]] && r.key[c] == 0 && r.proc == k.proc[c := pr]
    ensures r.curr == c && r.ndefers == k.ndefers
  {
    assert Unfold(Processes, true);
    var q := k.queue[SLEEPQ];
    NotQueued(k, c, SLEEPQ);
    assert DeltaPos(q, k.key, 0, 0) == 0;
    assert InsertAt(q, 0, c) == [c] + q;
  }

  lemma NullFirst(k: State, r: State, c: Pid, y: Pid)
    requires Shape(k) && k.curr == c && k.proc[c].st == RecTim && k.ndefers == 0 && r == Resched(k)
    requires k.queue[SLEEPQ] != [] && k.queue[SLEEPQ][0] == c && k.key[c] == 0 && k.queue[READYQ] != [] && y in k.queue[SLEEPQ]
    requires forall i :: 0 < i < |k.queue[SLEEPQ]| ==> k.queue[SLEEPQ][i] != c
    requires forall q, i :: 0 <= q < NQUEUES && q != SLEEPQ && 0 <= i < |k.queue[q]| ==> k.queue[q][i] != c
    ensures Stuck(r, c, y, RecTim)
  {
    var x := k.queue[READYQ][0];
    assert r == Take(k, READYQ, 0, k.proc[x].(st := Curr)).(curr := x, preempt := QUANTUM);
  }

  /** A stuck head breaks the invariant. */
  lemma StuckBreaks(k: State, p: Pid, y: Pid, st: PState)
    requires Stuck(k, p, y, st)
    ensures !Inv(k)
  {
  }

  /**
    A timed receive that has to wait keeps the invariant exactly when its delay is
    at least one tick.
  */
  lemma RecvTimeIff(k: State, d: int)
    requires Inv(k) && k.cont[k.curr] == Idle && !k.proc[k.curr].hasmsg && k.ndefers == 0 && k.curr != NULLPROC && d >= 0
    ensures Inv(DoRecvTime(k, d).k) <==> d >= 1
  {
    if d >= 1 {
      RecvTimeKeeps(k, d);
    } else {
      ZeroStuck(k, DoRecvTime(k, 0).k, k.curr);
      StuckBreaks(DoRecvTime(k, 0).k, k.curr, k.curr, RecTim);
    }
  }

  /**
    After a delay of zero, in every run without a message for the caller or its end the
    caller stays at the head, and neither it nor any sleeper behind it, `y`, is woken
    by the clock: `y` sleeps until it is itself sent a message or killed.
  */
  lemma ZeroDelayJams(k: State, run: seq<Event>, y: Pid)
    requires Inv(k) && !k.proc[k.curr].hasmsg && k.ndefers == 0 && k.curr != NULLPROC
    requires IsRun(DoRecvTime(k, 0).k, run) && (y == k.curr || y in k.queue[SLEEPQ])
    requires forall i :: 0 <= i < |run| ==> !Frees(run[i].op, k.curr) && !Frees(run[i].op, y)
    ensures var z := LastState(DoRecvTime(k, 0).k, run);
            Shape(z) && z.proc[k.curr].st == RecTim && z.queue[SLEEPQ] != [] && z.queue[SLEEPQ][0] == k.curr
            && y in z.queue[SLEEPQ]
  {
    ZeroStuck(k, DoRecvTime(k, 0).k, y);
    NeverWakes(DoRecvTime(k, 0).k, run, k.curr, y, RecTim);
  }

  /**
    A message for the stuck head hands its delta, zero less the ticks that have passed,
    to the next sleeper. If that leaves the next one nothing, it is stuck in turn.
  */
  lemma RescueHandsOn(k: State, p: Pid, n: Pid, m: int)
    requires Stuck(k, p, n, RecTim) && n != p && !k.proc[p].hasmsg && |k.queue[SLEEPQ]| > 1 && k.queue[SLEEPQ][1] == n
    requires (k.proc[n].st == RecTim || k.proc[n].st == Sleep) && k.curr != n && k.curr !in k.queue[SLEEPQ]
    requires forall q, i :: 0 <= q < NQUEUES && 0 <= i < |k.queue[q]| && k.queue[q][i] == n ==> q == SLEEPQ && i == 1
    ensures var r := DoSend(k, p, m).k;
            && r.queue[SLEEPQ] == k.queue[SLEEPQ][1..] && r.key[n] == k.key[n] + k.key[p]
            && (Stuck(r, n, n, k.proc[n].st) <==> k.key[n] + k.key[p] <= 0)
  {
    var q, pr := k.queue[SLEEPQ], k.proc[p].(hasmsg := true, msg := m);
    var k1 := Extract(k, p, pr);
    assert IndexOf(q, p) == 0;
    assert k1 == TakeDelta(k, 0, pr) && RemoveAt(q, 0) == q[1..];
    assert k1.key == k.key[n := k.key[n] + k.key[p]];
    RescueReadies(k1, p, n, DoReady(k1, p));
  }

  lemma RescueReadies(k: State, p: Pid, n: Pid, r: State)
    requires Shape(k) && n != p && k.queue[SLEEPQ] != [] && k.queue[SLEEPQ][0] == n && k.curr != n && r == DoReady(k, p)
    requires k.proc[n].st == RecTim || k.proc[n].st == Sleep
    requires forall q, i :: 0 <= q < NQUEUES && 0 <= i < |k.queue[q]| && k.queue[q][i] == n ==> q == SLEEPQ && i == 0
    ensures r.queue[SLEEPQ] == k.queue[SLEEPQ] && r.key[n] == k.key[n]
    ensures Stuck(r, n, n, k.proc[n].st) <==> k.key[n] <= 0
  {
    MakeReadyOthers(k, p, n, r);
    if k.key[n] <= 0 { DoReadyStuck(k, n, n, k.proc[n].st, p, r); }
  }

  lemma MakeReadyOthers(k: State, p: Pid, n: Pid, r: State)
    requires Shape(k) && n != p && k.curr != n && r == DoReady(k, p)
    ensures r.key[n] == k.key[n]
  {
  }
}
