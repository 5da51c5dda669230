/**
  Sleepers that are due on the same tick: with equal priorities they get the
  processor in the order in which they went to sleep.
*/
module KernelTies {
  import opened Common
  import opened Lists
  import opened KernelSpec
  import opened KernelInvariant
  import opened KernelProofs
  import opened KernelSleep

  // ----- order on a queue

  ghost predicate Before(s: seq<Pid>, p: Pid, q: Pid) {
    exists i, j :: 0 <= i < j < |s| && s[i] == p && s[j] == q
  }

  lemma BeforeInsert(s: seq<Pid>, i: nat, x: Pid, p: Pid, q: Pid)
    requires Before(s, p, q) && i <= |s|
    ensures Before(InsertAt(s, i, x), p, q)
  {
    var a, b :| 0 <= a < b < |s| && s[a] == p && s[b] == q;
    var t := InsertAt(s, i, x);
    assert t[if a < i then a else a + 1] == p && t[if b < i then b else b + 1] == q;
  }

  lemma BeforeRemove(s: seq<Pid>, i: nat, p: Pid, q: Pid)
    requires Before(s, p, q) && i < |s| && s[i] != p && s[i] != q
    ensures Before(RemoveAt(s, i), p, q)
  {
    var a, b :| 0 <= a < b < |s| && s[a] == p && s[b] == q;
    var t := RemoveAt(s, i);
    assert t[if a < i then a else a - 1] == p && t[if b < i then b else b - 1] == q;
  }

  lemma BeforeTail(s: seq<Pid>, p: Pid, q: Pid)
    requires Before(s, p, q) && s[0] != p
    ensures Before(s[1..], p, q)
  {
    var a, b :| 0 <= a < b < |s| && s[a] == p && s[b] == q;
    assert s[1..][a - 1] == p && s[1..][b - 1] == q;
  }

  /** `p` runs and `q` is ready, or both are ready and `p` comes first. */
  ghost predicate Goes(k: State, p: Pid, q: Pid) {
    (Shape(k) && (Before(k.queue[READYQ], p, q) || (k.curr == p && q in k.queue[READYQ]))) == true
  }

  // ----- the ready list

  /** A process that becomes ready stands behind those of its priority. */
  lemma BehindEquals(k: State, x: Pid, p: Pid)
    requires Core(k, x) && p in k.queue[READYQ] && k.proc[p].prio == k.proc[x].prio
    ensures Before(MakeReady(k, x).queue[READYQ], p, x)
  {
    assert Unfold(Processes, true);
    var s, i := k.queue[READYQ], IndexOf(k.queue[READYQ], p);
    var a := PrioPos(s, k.key, k.proc[x].prio);
    assert i < a;
    assert InsertAt(s, a, x)[i] == p && InsertAt(s, a, x)[a] == x;
  }

  lemma ReadyKeepsOrder(k: State, x: Pid, p: Pid, q: Pid)
    requires Shape(k) && Before(k.queue[READYQ], p, q)
    ensures Before(MakeReady(k, x).queue[READYQ], p, q)
  {
    BeforeInsert(k.queue[READYQ], PrioPos(k.queue[READYQ], k.key, k.proc[x].prio), x, p, q);
  }

  lemma SwitchOrder(k: State, r: State, p: Pid, q: Pid)
    requires Shape(k) && Before(k.queue[READYQ], p, q) && r == Switch(k)
    ensures Goes(r, p, q)
  {
    var s := k.queue[READYQ];
    assert r.queue[READYQ] == s[1..];
    if s[0] == p {
      var a, b :| 0 <= a < b < |s| && s[a] == p && s[b] == q;
      assert s[1..][b - 1] == q;
    } else {
      BeforeTail(s, p, q);
    }
  }

  lemma ReschedOrder(k: State, r: State, p: Pid, q: Pid)
    requires Running(k) && Before(k.queue[READYQ], p, q) && r == Resched(k)
    ensures Goes(r, p, q)
  {
    if k.ndefers == 0 && k.proc[k.curr].prio <= FirstKey(k, READYQ) {
      ReadyKeepsOrder(k, k.curr, p, q);
      SwitchOrder(MakeReady(k, k.curr), r, p, q);
    }
  }

  lemma StopOrder(k: State, r: State, p: Pid, q: Pid)
    requires Running(k) && Before(k.queue[READYQ], p, q) && r == DeferStop(k)
    ensures Goes(r, p, q)
  {
    var k1 := k.(ndefers := k.ndefers - 1);
    if k1.ndefers == 0 && k.attempt {
      assert Core(k1, NOBODY);
      if k.proc[k.curr].prio <= FirstKey(k, READYQ) {
        ReadyKeepsOrder(k1, k.curr, p, q);
        SwitchOrder(MakeReady(k1, k.curr), r, p, q);
      }
    }
  }

  // ----- the tick

  /** In the middle of waking: `q` is still to come, and `p` has woken or comes before. */
  ghost predicate Due(k: State, p: Pid, q: Pid) {
    && Shape(k) && q in k.queue[SLEEPQ] && Left(k, q) <= 0
    && (p in k.queue[READYQ] || Before(k.queue[SLEEPQ], p, q))
  }

  lemma WakeFirstOrder(k: State, m: State, p: Pid, q: Pid)
    requires Running(k) && k.ndefers > 0 && k.queue[SLEEPQ] != [] && m == WakeFirst(k)
    ensures Before(k.queue[READYQ], p, q) ==> Before(m.queue[READYQ], p, q)
    ensures p in k.queue[READYQ] || p == k.queue[SLEEPQ][0] ==> p in m.queue[READYQ]
    ensures p in k.queue[READYQ] && q == k.queue[SLEEPQ][0] && k.proc[p].prio == k.proc[q].prio ==> Before(m.queue[READYQ], p, q)
    ensures forall x: Pid :: m.proc[x].prio == k.proc[x].prio
  {
    var h := k.queue[SLEEPQ][0];
    var k1 := Take(k, SLEEPQ, 0, k.proc[h]);
    HeadFacts(k, SLEEPQ);
    TakeCore(k, SLEEPQ, 0, k.proc[h]);
    var s, a := k.queue[READYQ], PrioPos(k.queue[READYQ], k.key, k.proc[h].prio);
    assert m.queue[READYQ] == InsertAt(s, a, h) && InsertAt(s, a, h)[a] == h;
    if Before(s, p, q) { BeforeInsert(s, a, h, p, q); }
    if p in s {
      var i := IndexOf(s, p);
      assert InsertAt(s, a, h)[if i < a then i else i + 1] == p;
      if q == h && k.proc[p].prio == k.proc[q].prio { BehindEquals(k1, h, p); }
    }
  }

  /** One turn of the waking loop. */
  lemma WakeFirstDue(k: State, m: State, p: Pid, q: Pid)
    requires Running(k) && k.ndefers > 0 && Due(k, p, q) && k.proc[p].prio == k.proc[q].prio
    requires k.queue[SLEEPQ] != [] && FirstKey(k, SLEEPQ) == 0 && m == WakeFirst(k)
    ensures Before(m.queue[READYQ], p, q) || Due(m, p, q)
  {
    var s := k.queue[SLEEPQ];
    WakeFirstRuns(k, m);
    WakeFirstOrder(k, m, p, q);
    QueueDistinct(k, SLEEPQ);
    if q != s[0] {
      WakeFirstLeft(k, m, q);
      if p !in m.queue[READYQ] { BeforeTail(s, p, q); }
    }
  }

  lemma {:induction false} WakeAllOrder(k: State, r: State, p: Pid, q: Pid)
    requires Running(k) && k.ndefers > 0 && k.proc[p].prio == k.proc[q].prio && r == WakeAll(k)
    requires Before(k.queue[READYQ], p, q) || Due(k, p, q)
    ensures Before(r.queue[READYQ], p, q)
    decreases |k.queue[SLEEPQ]|
  {
    var s := k.queue[SLEEPQ];
    if s == [] || FirstKey(k, SLEEPQ) > 0 {
      if q in s { LeftAtLeastFirst(k, q); }
    } else {
      var m := WakeFirst(k);
      FirstNotNegative(k);
      WakeFirstRuns(k, m);
      WakeFirstOrder(k, m, p, q);
      if Due(k, p, q) { WakeFirstDue(k, m, p, q); }
      WakeAllOrder(m, r, p, q);
    }
  }

  lemma LeftAtLeastFirst(k: State, q: Pid)
    requires Running(k) && q in k.queue[SLEEPQ]
    ensures Left(k, q) >= FirstKey(k, SLEEPQ)
  {
    assert Unfold(Processes, true);
    SumsGrow(k.queue[SLEEPQ], k.key, IndexOf(k.queue[SLEEPQ], q) + 1);
  }

  lemma FirstNotNegative(k: State)
    requires Running(k) && k.queue[SLEEPQ] != []
    ensures FirstKey(k, SLEEPQ) >= 0
  {
    assert Unfold(Processes, true);
  }

  /** The first delta is counted down; nothing else changes. */
  lemma CountedDown(k: State, k1: State)
    requires Inv(k) && k.queue[SLEEPQ] != [] && k1 == AddDelta(k, 0, -1)
    ensures Running(k1) && k1 == k.(key := k1.key)
    ensures forall p: Pid :: p in k.queue[SLEEPQ] ==> Left(k1, p) == Left(k, p) - 1
  {
    assert Unfold(Processes, true);
    var s := k.queue[SLEEPQ];
    AddDeltaCore(k, 0, -1);
    DescendingKept(k, k1);
    forall p: Pid | p in s ensures Left(k1, p) == Left(k, p) - 1 { HeadDecrement(s, k.key, IndexOf(s, p) + 1); }
  }

  lemma CountSleepOrder(k: State, r: State, p: Pid, q: Pid)
    requires Inv(k) && r == CountSleep(k) && Before(k.queue[SLEEPQ], p, q) && Left(k, q) == 1
    requires k.proc[p].prio == k.proc[q].prio
    ensures Goes(r, p, q)
  {
    var k1 := AddDelta(k, 0, -1);
    CountedDown(k, k1);
    LeftAtLeastFirst(k1, q);
    FirstNotNegative(k1);
    DeferStartRuns(k1);
    var k2 := DeferStart(k1);
    assert Due(k2, p, q);
    WakeAllRuns(k2);
    WakeAllOrder(k2, WakeAll(k2), p, q);
    StopOrder(WakeAll(k2), r, p, q);
  }

  /** The tick on which both are due makes `p` run, or leaves both ready with `p` first. */
  lemma TickOrder(k: State, r: State, p: Pid, q: Pid)
    requires Inv(k) && r == DoTick(k).k && Before(k.queue[SLEEPQ], p, q) && Left(k, q) == 1
    requires k.proc[p].prio == k.proc[q].prio
    ensures Goes(r, p, q)
  {
    var k1 := CountSleep(k);
    CountSleepOrder(k, k1, p, q);
    if k1.curr == k.curr {
      NotQueued(k, k.curr, SLEEPQ);
      CountSleepKeeps(k);
      if k1.preempt == 1 {
        SetPreempt(k1, QUANTUM);
        ReschedOrder(k1.(preempt := QUANTUM), r, p, q);
      }
    }
  }

  // ----- asleep together

  lemma {:induction false} WakeAllKeepsOrder(k: State, r: State, p: Pid, q: Pid)
    requires Running(k) && k.ndefers > 0 && Before(k.queue[SLEEPQ], p, q) && Left(k, p) > 0 && r == WakeAll(k)
    ensures Before(r.queue[SLEEPQ], p, q)
    decreases |k.queue[SLEEPQ]|
  {
    var s := k.queue[SLEEPQ];
    if FirstKey(k, SLEEPQ) <= 0 {
      var m := WakeFirst(k);
      FirstNotNegative(k);
      QueueDistinct(k, SLEEPQ);
      if p == s[0] {
        IndexUnique(s, 0);
        assert KeySum(s, k.key, 1) == k.key[s[0]];
      }
      WakeFirstRuns(k, m);
      WakeFirstLeft(k, m, p);
      BeforeTail(s, p, q);
      WakeAllKeepsOrder(m, r, p, q);
    }
  }

  lemma TickKeepsOrder(k: State, r: State, p: Pid, q: Pid)
    requires Inv(k) && r == DoTick(k).k && Before(k.queue[SLEEPQ], p, q) && Left(k, p) > 1
    ensures Shape(r) && Before(r.queue[SLEEPQ], p, q)
  {
    var k1, k4 := AddDelta(k, 0, -1), CountSleep(k);
    CountedDown(k, k1);
    if FirstKey(k1, SLEEPQ) == 0 {
      DeferStartRuns(k1);
      var k2 := DeferStart(k1);
      WakeAllRuns(k2);
      assert Left(k2, p) == Left(k1, p);
      WakeAllKeepsOrder(k2, WakeAll(k2), p, q);
      DeferStopSame(WakeAll(k2), k4);
    }
    CountSleepKeeps(k);
    NotQueued(k4, k4.curr, SLEEPQ);
    if k4.curr == k.curr { CountSliceSame(k4, r); }
  }

  /** A newcomer stands behind every sleeper that wakes no later, and before the others. */
  lemma StandsBehind(s: seq<Pid>, key: seq<int>, d: int, j: nat)
    requires |key| == NPROC && d >= 0 && j < |s| && forall i :: 0 <= i < |s| ==> key[s[i]] >= 0
    ensures j < DeltaPos(s, key, d, 0) <==> KeySum(s, key, j + 1) <= d
  {
    var r := DeltaPos(s, key, d, 0);
    DeltaPosFacts(s, key, d, 0);
    if j >= r { SumsMonotonic(s, key, r + 1, j + 1); }
  }

  lemma {:induction false} SumsMonotonic(q: seq<Pid>, key: seq<int>, m: nat, n: nat)
    requires |key| == NPROC && m <= n <= |q| && forall i :: 0 <= i < |q| ==> key[q[i]] >= 0
    ensures KeySum(q, key, m) <= KeySum(q, key, n)
  {
    if m < n { SumsMonotonic(q, key, m, n - 1); }
  }

  /** The state in which a call that sleeps puts the caller on the delta list. */
  ghost function Entering(e: Event): State
    requires Shape(e.before)
  {
    if e.op.RecvTime? then SetCont(e.before, e.before.curr, InRecvTime) else e.before
  }

  lemma SleepInserts(e: Event, i: nat)
    requires Inv(e.before) && IsStep(e) && (e.op.RecvTime? || e.op.SleepMs?) && e.r.out == Blocked
    requires i == DeltaPos(e.before.queue[SLEEPQ], e.before.key, e.op.d, 0)
    ensures Shape(e.r.k) && e.r.k.queue[SLEEPQ] == InsertAt(e.before.queue[SLEEPQ], i, e.before.curr)
  {
    var k, c := Entering(e), e.before.curr;
    var pr := k.proc[c].(st := if e.op.RecvTime? then RecTim else Sleep);
    NotQueued(e.before, c, SLEEPQ);
    ReschedSame(PutDelta(k, c, pr, e.op.d), e.r.k);
  }

  /** Who goes to sleep later, for a time that ends no earlier, stands behind. */
  lemma SleepsBehind(e: Event, p: Pid)
    requires Inv(e.before) && IsStep(e) && (e.op.RecvTime? || e.op.SleepMs?) && e.r.out == Blocked
    requires p in e.before.queue[SLEEPQ] && Left(e.before, p) <= e.op.d
    ensures Shape(e.r.k) && Before(e.r.k.queue[SLEEPQ], p, e.before.curr)
  {
    assert Unfold(Processes, true);
    var k := e.before;
    var s, j := k.queue[SLEEPQ], IndexOf(k.queue[SLEEPQ], p);
    var i := DeltaPos(s, k.key, e.op.d, 0);
    LeftPositive(k, p);
    StandsBehind(s, k.key, e.op.d, j);
    SleepInserts(e, i);
    assert InsertAt(s, i, k.curr)[j] == p && InsertAt(s, i, k.curr)[i] == k.curr;
  }

  lemma RemovedInOrder(e: Event, p: Pid, q: Pid)
    requires Inv(e.before) && IsStep(e) && Before(e.before.queue[SLEEPQ], p, q) && !Disturbs(e.op, p) && !Disturbs(e.op, q)
    requires (e.op.Kill? || e.op.Send?) && 0 <= e.op.p < NPROC && Place(e.before.proc[e.op.p]) == SLEEPQ
    ensures Shape(e.r.k) && Before(e.r.k.queue[SLEEPQ], p, q)
  {
    var k := e.before;
    var x: Pid := e.op.p;
    QueuedSomewhere(k, x);
    var s := k.queue[SLEEPQ];
    BeforeRemove(s, IndexOf(s, x), p, q);
  }

  /** Nothing changes the order of two sleepers, short of taking one off the list. */
  lemma EventOrder(e: Event, p: Pid, q: Pid)
    requires Inv(e.before) && IsStep(e) && Before(e.before.queue[SLEEPQ], p, q) && !Disturbs(e.op, p) && !Disturbs(e.op, q)
    requires e.op == Tick ==> Left(e.before, p) > 1
    ensures Shape(e.r.k) && Before(e.r.k.queue[SLEEPQ], p, q)
  {
    var k, op, r := e.before, e.op, e.r;
    if op == Tick {
      TickKeepsOrder(k, r.k, p, q);
    } else if op.WaitOn? || op.Signal? || op.SignalN? || op.SemCreate? || op.SemDelete? || op.SemReset? {
      SemCallSame(k, op, r);
    } else if (op.RecvTime? || op.SleepMs?) && r.out == Blocked {
      var i := DeltaPos(k.queue[SLEEPQ], k.key, op.d, 0);
      SleepInserts(e, i);
      BeforeInsert(k.queue[SLEEPQ], i, k.curr, p, q);
    } else if (op.Kill? || op.Send?) && 0 <= op.p < NPROC && Place(k.proc[op.p]) == SLEEPQ {
      RemovedInOrder(e, p, q);
    } else if op.Create? || op.Kill? || op.Suspend? || op.Resume? || op.Send? {
      ProcCallSame(k, op, r);
    } else {
      SelfCallSame(k, op, r);
    }
  }

  /** `p` is asleep with `d` ticks left when the running process `q` goes to sleep for `d` ticks; nobody disturbs them. */
  ghost predicate SameTime(k: State, run: seq<Event>, p: Pid, q: Pid, d: int) {
    && Inv(k) && IsRun(k, run) && run != [] && q == k.curr && p in k.queue[SLEEPQ] && Left(k, p) == d
    && (run[0].op == Op.SleepMs(d) || run[0].op == Op.RecvTime(d)) && run[0].r.out == Blocked
    && forall i :: 0 <= i < |run| ==> !Disturbs(run[i].op, p) && !Disturbs(run[i].op, q)
  }

  lemma {:induction false} AsleepTogether(k: State, run: seq<Event>, p: Pid, q: Pid, d: int)
    requires SameTime(k, run, p, q, d) && Ticks(run) < d
    ensures Inv(LastState(k, run)) && Before(LastState(k, run).queue[SLEEPQ], p, q)
    ensures Left(LastState(k, run), p) == Left(LastState(k, run), q) == d - Ticks(run)
    decreases |run|
  {
    var n := |run| - 1;
    var e := run[n];
    RunPrefix(k, run);
    if n == 0 {
      SleepsForDelay(e);
      SleepsBehind(e, p);
    } else {
      AsleepTogether(k, run[..n], p, q, d);
      EventLeft(e, p);
      EventLeft(e, q);
      EventOrder(e, p, q);
    }
    EventKeeps(e);
  }

  /**
    Two sleepers of equal priority that are due on the same tick: after that tick the
    one that went to sleep first runs, or both are ready and it stands before the other.
  */
  lemma {:induction false} TiesInArrivalOrder(k: State, run: seq<Event>, p: Pid, q: Pid, d: int)
    requires SameTime(k, run, p, q, d) && Ticks(run) == d && run[|run| - 1].op == Tick
    requires Shape(run[|run| - 1].before) && run[|run| - 1].before.proc[p].prio == run[|run| - 1].before.proc[q].prio
    ensures Goes(LastState(k, run), p, q)
  {
    var n := |run| - 1;
    RunPrefix(k, run);
    AsleepTogether(k, run[..n], p, q, d);
    TickOrder(run[n].before, run[n].r.k, p, q);
  }
}
