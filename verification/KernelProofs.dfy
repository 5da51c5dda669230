/**
  Every step keeps the global invariant: first moves of single processes between
  queues, then scheduling, then the system calls one by one, then whole runs.
*/
module KernelProofs {
  import opened Common
  import opened Lists
  import opened KernelSpec
  import opened KernelInvariant

  // ----- queue edits keep the agreement

  lemma InsertAtHas<T>(s: seq<T>, i: nat, x: T, y: T)
    requires i <= |s|
    ensures y in InsertAt(s, i, x) <==> y in s || y == x
  {
    var r := InsertAt(s, i, x);
    assert r[i] == x;
    if y in s {
      var j :| 0 <= j < |s| && s[j] == y;
      assert r[if j < i then j else j + 1] == y;
    }
  }

  lemma RemoveAtHas<T>(s: seq<T>, i: nat, y: T)
    requires i < |s| && forall a, b :: 0 <= a < b < |s| ==> s[a] != s[b]
    ensures y in RemoveAt(s, i) <==> y in s && y != s[i]
  {
    var r := RemoveAt(s, i);
    if y in s && y != s[i] {
      var j :| 0 <= j < |s| && s[j] == y;
      assert r[if j < i then j else j - 1] == y;
    }
  }

  lemma PutAgree(k: State, p: Pid, pr: Proc, q: nat, i: nat, key: int)
    requires Shape(k) && Agree(k, p) && q < NQUEUES && i <= |k.queue[q]| && Place(pr) == q
    ensures Agree(Put(k, p, pr, q, i, key), NOBODY)
  {
    var r := Put(k, p, pr, q, i, key);
    forall x: Pid | Place(r.proc[x]) >= 0 ensures x in r.queue[Place(r.proc[x])] {
      InsertAtHas(k.queue[q], i, p, x);
    }
  }

  lemma TakeAgree(k: State, q: nat, i: nat, pr: Proc)
    requires Shape(k) && Agree(k, NOBODY) && q < NQUEUES && i < |k.queue[q]|
    ensures Agree(Take(k, q, i, pr), k.queue[q][i])
  {
    var r := Take(k, q, i, pr);
    forall x: Pid | x != k.queue[q][i] && Place(r.proc[x]) >= 0 ensures x in r.queue[Place(r.proc[x])] {
      RemoveAtHas(k.queue[q], i, x);
    }
  }

  // ----- moves of one process keep the core

  /** A process on no queue may be put in transit. */
  lemma Detach(k: State, p: Pid)
    requires Core(k, NOBODY) && Place(k.proc[p]) < 0
    ensures Core(k, p)
  {
  }

  /** The process in transit may change freely. */
  lemma AlterCore(k: State, x: Pid, pr: Proc)
    requires Core(k, x)
    ensures Core(Alter(k, x, pr), x)
  {
  }

  /** A process in transit arrives in a state without a queue. */
  lemma Arrive(k: State, x: Pid)
    requires Core(k, x) && Place(k.proc[x]) < 0 && ProcOK(k.proc[x], k.cont[x], x, k.curr)
    ensures Core(k, NOBODY)
  {
  }

  lemma TakeCore(k: State, q: nat, i: nat, pr: Proc)
    requires Core(k, NOBODY) && q < NQUEUES && i < |k.queue[q]|
    ensures Core(Take(k, q, i, pr), k.queue[q][i])
  {
    assert Unfold(Processes, true);
    TakeAgree(k, q, i, pr);
    RemoveDescending(k.queue[READYQ], k.key, i);
  }

  lemma RemoveDescending(q: seq<Pid>, key: seq<int>, i: nat)
    requires |key| == NPROC && Descending(q, key)
    ensures i < |q| ==> Descending(RemoveAt(q, i), key)
  {
  }

  lemma PutSemCore(k: State, x: Pid, pr: Proc, s: nat)
    requires Core(k, x) && s < NSEM && Place(pr) == s && ProcOK(pr, k.cont[x], x, k.curr)
    ensures Core(Put(k, x, pr, s, |k.queue[s]|, k.key[x]), NOBODY)
  {
    assert Unfold(Processes, true);
    PutAgree(k, x, pr, s, |k.queue[s]|, k.key[x]);
  }

  lemma MakeReadyCore(k: State, x: Pid)
    requires Core(k, x) && ProcOK(k.proc[x].(st := Ready), k.cont[x], x, k.curr)
    ensures Core(MakeReady(k, x), NOBODY)
    ensures forall p: Pid :: p != x ==> MakeReady(k, x).key[p] == k.key[p] && MakeReady(k, x).proc[p] == k.proc[p]
  {
    assert Unfold(Processes, true);
    var pr := k.proc[x].(st := Ready);
    PutAgree(k, x, pr, READYQ, PrioPos(k.queue[READYQ], k.key, pr.prio), pr.prio);
    InsertDescending(k.queue[READYQ], k.key, x, pr.prio);
  }

  /** `insert` keeps the list in descending order. */
  lemma {:induction false} InsertDescending(q: seq<Pid>, key: seq<int>, p: Pid, x: int)
    requires |key| == NPROC && Descending(q, key) && p !in q
    ensures Descending(InsertAt(q, PrioPos(q, key, x), p), key[p := x])
  {
    var i := PrioPos(q, key, x);
    var r, key' := InsertAt(q, i, p), key[p := x];
    forall a, b | 0 <= a < b < |r| ensures key'[r[a]] >= key'[r[b]] {
      if i < |q| && b > i { assert key[q[i]] >= key[q[b - 1]]; }
    }
  }

  // ----- scheduling

  /** The null process is ready whenever another process gives up the processor. */
  lemma NullIsReady(k: State)
    requires Core(k, NOBODY) && k.proc[k.curr].st != Curr
    ensures k.queue[READYQ] != []
  {
    assert Unfold(Processes, true);
    var pr := k.proc[NULLPROC];
    assert ProcOK(pr, k.cont[NULLPROC], NULLPROC, k.curr);
    assert Place(pr) == READYQ;
  }

  lemma SwitchRuns(k: State)
    requires Core(k, NOBODY) && k.proc[k.curr].st != Curr
    ensures Running(Switch(k)) && Switch(k).key == k.key
    ensures k.queue[READYQ] != [] && Switch(k).curr == k.queue[READYQ][0]
  {
    assert Unfold(Processes, true);
    NullIsReady(k);
    var p := k.queue[READYQ][0];
    var pr := k.proc[p].(st := Curr);
    TakeCore(k, READYQ, 0, pr);
    var k1 := Take(k, READYQ, 0, pr);
    assert ProcOK(k.proc[p], k.cont[p], p, k.curr) && Place(k.proc[p]) == READYQ;
    assert forall x: Pid :: x != p ==> k1.proc[x] == k.proc[x] && k1.proc[x].st != Curr;
    RetargetCore(k1, p);
    Arrive(k1.(curr := p, preempt := QUANTUM), p);
  }

  lemma RetargetCore(k: State, p: Pid)
    requires Core(k, p) && forall x: Pid :: x != p ==> k.proc[x].st != Curr
    ensures Core(k.(curr := p, preempt := QUANTUM), p)
  {
    assert Unfold(Processes, true);
    var r := k.(curr := p, preempt := QUANTUM);
    forall x: Pid | x != p ensures ProcOK(r.proc[x], r.cont[x], x, r.curr) {
      assert ProcOK(k.proc[x], k.cont[x], x, k.curr);
    }
  }

  /** Rescheduling restores the scheduling invariant from any consistent state. */
  lemma ReschedRuns(k: State)
    requires Core(k, NOBODY)
    requires k.proc[k.curr].st == Curr || k.ndefers == 0
    ensures Running(Resched(k))
  {
    assert Unfold(Processes, true);
    if k.ndefers > 0 {
    } else if k.proc[k.curr].st != Curr {
      SwitchRuns(k);
    } else if k.proc[k.curr].prio <= FirstKey(k, READYQ) {
      assert ProcOK(k.proc[k.curr], k.cont[k.curr], k.curr, k.curr);
      Detach(k, k.curr);
      MakeReadyCore(k, k.curr);
      SwitchRuns(MakeReady(k, k.curr));
    }
  }

  lemma DoReadyRuns(k: State, x: Pid)
    requires Core(k, x) && x != k.curr && k.proc[k.curr].st == Curr
    requires ProcOK(k.proc[x].(st := Ready), k.cont[x], x, k.curr)
    ensures Running(DoReady(k, x))
    ensures forall p: Pid :: p != x && p != k.curr ==> DoReady(k, x).key[p] == k.key[p]
  {
    MakeReadyCore(k, x);
    ReschedRuns(MakeReady(k, x));
  }

  // ----- the delta list stays as it is

  lemma MakeReadySame(k: State, x: Pid)
    requires Shape(k) && x !in k.queue[SLEEPQ]
    ensures SleepSame(k, MakeReady(k, x))
  {
  }

  lemma SameTrans(a: State, b: State, c: State)
    requires SleepSame(a, b) && SleepSame(b, c)
    ensures SleepSame(a, c)
  {
  }

  lemma SameHead(k: State, r: State)
    requires SleepSame(k, r) && HeadWaits(k)
    ensures HeadWaits(r)
  {
  }

  lemma ReschedSame(k: State, r: State)
    requires Shape(k) && r == Resched(k)
    requires k.proc[k.curr].st == Curr ==> k.curr !in k.queue[SLEEPQ]
    ensures SleepSame(k, r)
  {
  }

  lemma DoReadySame(k: State, x: Pid, r: State)
    requires Shape(k) && x !in k.queue[SLEEPQ] && k.curr !in k.queue[SLEEPQ] && r == DoReady(k, x)
    ensures SleepSame(k, r)
  {
    MakeReadySame(k, x);
    ReschedSame(MakeReady(k, x), r);
    SameTrans(k, MakeReady(k, x), r);
  }

  lemma DeferStopSame(k: State, r: State)
    requires Running(k) && r == DeferStop(k)
    ensures SleepSame(k, r)
  {
    NotQueued(k, k.curr, SLEEPQ);
    if k.ndefers == 1 && k.attempt { ReschedSame(k.(ndefers := 0), r); }
  }

  lemma NotQueued(k: State, p: Pid, q: nat)
    requires Core(k, NOBODY) && q < NQUEUES && Place(k.proc[p]) != q
    ensures p !in k.queue[q]
  {
    assert Unfold(Processes, true);
  }

  lemma DeferStartRuns(k: State)
    requires Running(k)
    ensures Running(DeferStart(k))
  {
  }

  lemma DeferStopRuns(k: State)
    requires Running(k)
    ensures Running(DeferStop(k))
  {
    if k.ndefers > 0 {
      var k1 := k.(ndefers := k.ndefers - 1);
      assert Core(k1, NOBODY);
      if k1.ndefers == 0 && k1.attempt { ReschedRuns(k1); }
    }
  }

  /** The first process of a queue is in the state that belongs there. */
  lemma HeadFacts(k: State, q: nat)
    requires Core(k, NOBODY) && q < NQUEUES && k.queue[q] != []
    ensures var p := k.queue[q][0]; Place(k.proc[p]) == q && ProcOK(k.proc[p], k.cont[p], p, k.curr)
  {
    assert Unfold(Processes, true);
  }

  lemma QueueDistinct(k: State, q: nat)
    requires Core(k, NOBODY) && q < NQUEUES
    ensures Distinct(k.queue[q])
  {
    assert Unfold(Processes, true);
  }

  // ----- semaphores

  lemma ReleaseFirstKeeps(k: State, s: nat, r: State)
    requires InvBut(k, s) && s < NSEM && k.queue[s] != [] && r == ReleaseFirst(k, s)
    ensures InvBut(r, s) && SleepSame(k, r)
    ensures r.queue[s] == Dropped(k.queue[s], 1) && r.sem == k.sem && r.ndefers == k.ndefers
  {
    var p := k.queue[s][0];
    var k1 := Take(k, s, 0, k.proc[p]);
    HeadFacts(k, s);
    NotQueued(k, p, SLEEPQ);
    NotQueued(k, k.curr, SLEEPQ);
    TakeCore(k, s, 0, k.proc[p]);
    DoReadyRuns(k1, p);
    DoReadySame(k1, p, r);
    SameHead(k1, r);
    assert RemoveAt(k.queue[s], 0) == k.queue[s][1..];
  }

  /** Releasing `n` waiters ends in `goal`. */
  ghost predicate ReleasesTo(k: State, s: nat, n: nat, goal: State) {
    (Shape(k) && s < NSEM && forall w :: Unfold(Goals, w) ==> ReleaseMany(k, s, n) == goal) == true
  }

  lemma ReleasesStep(k: State, s: nat, n: nat, goal: State, m: State)
    requires ReleasesTo(k, s, n, goal) && n > 0 && m == ReleaseFirst(k, s)
    ensures ReleasesTo(m, s, n - 1, goal)
  {
    assert Unfold(Goals, true);
  }

  lemma ReleasesDone(k: State, s: nat, goal: State)
    requires ReleasesTo(k, s, 0, goal)
    ensures k == goal
  {
    assert Unfold(Goals, true);
  }

  lemma ReleaseNext(k: State, s: nat, n: nat, goal: State) returns (m: State)
    requires InvBut(k, s) && s < NSEM && 0 < n <= |k.queue[s]| && ReleasesTo(k, s, n, goal)
    ensures InvBut(m, s) && SleepSame(k, m) && ReleasesTo(m, s, n - 1, goal)
    ensures m.queue[s] == Dropped(k.queue[s], 1) && m.sem == k.sem && m.ndefers == k.ndefers
  {
    m := ReleaseFirst(k, s);
    ReleaseFirstKeeps(k, s, m);
    ReleasesStep(k, s, n, goal, m);
  }

  lemma {:induction false} ReleaseManyKeeps(k: State, s: nat, n: nat, r: State)
    requires InvBut(k, s) && s < NSEM && n <= |k.queue[s]| && ReleasesTo(k, s, n, r)
    ensures InvBut(r, s) && SleepSame(k, r)
    ensures r.queue[s] == Dropped(k.queue[s], n) && r.sem == k.sem && r.ndefers == k.ndefers
    decreases n
  {
    if n > 0 {
      var m := ReleaseNext(k, s, n, r);
      ReleaseManyKeeps(m, s, n - 1, r);
      DroppedOnce(k, m, r, s, n);
    } else {
      ReleasesDone(k, s, r);
    }
  }

  /** Changing a count or a use flag touches nothing else. */
  lemma SemEditKeeps(k: State, s: nat, e: Sem)
    requires InvBut(k, s) && s < NSEM
    ensures InvBut(SetSem(k, s, e), s)
    ensures |k.queue[s]| == Waiters(e) ==> Inv(SetSem(k, s, e))
  {
    var r := SetSem(k, s, e);
    assert Core(r, NOBODY);
  }

  lemma SignalOnceKeeps(k: State, s: nat, r: State)
    requires Inv(k) && s < NSEM && k.sem[s].used && r == SignalOnce(k, s)
    ensures Inv(r) && r.sem[s] == Sem(true, k.sem[s].count + 1) && r.ndefers == k.ndefers
    ensures SleepSame(k, r) && r.queue[s] == Dropped(k.queue[s], 1)
  {
    var e := k.sem[s].(count := k.sem[s].count + 1);
    SemEditKeeps(k, s, e);
    if k.sem[s].count < 0 {
      ReleaseFirstKeeps(SetCount(k, s, e.count), s, r);
    }
  }

  /** Signalling `n` times ends in `goal`. */
  ghost predicate SignalsTo(k: State, s: nat, n: nat, goal: State) {
    (Shape(k) && s < NSEM && forall w :: Unfold(Goals, w) ==> SignalTimes(k, s, n) == goal) == true
  }

  lemma SignalsStep(k: State, s: nat, n: nat, goal: State, m: State)
    requires SignalsTo(k, s, n, goal) && n > 0 && m == SignalOnce(k, s)
    ensures SignalsTo(m, s, n - 1, goal)
  {
    assert Unfold(Goals, true);
  }

  lemma SignalsDone(k: State, s: nat, goal: State)
    requires SignalsTo(k, s, 0, goal)
    ensures k == goal
  {
    assert Unfold(Goals, true);
  }

  /** The state after the first of several signals. */
  lemma SignalNext(k: State, s: nat, n: nat, goal: State) returns (m: State)
    requires Inv(k) && s < NSEM && k.sem[s].used && n > 0 && SignalsTo(k, s, n, goal)
    ensures Inv(m) && m.sem[s] == Sem(true, k.sem[s].count + 1) && m.ndefers == k.ndefers && SignalsTo(m, s, n - 1, goal)
    ensures SleepSame(k, m) && m.queue[s] == Dropped(k.queue[s], 1)
  {
    m := SignalOnce(k, s);
    SignalOnceKeeps(k, s, m);
    SignalsStep(k, s, n, goal, m);
  }

  lemma {:induction false} SignalTimesKeeps(k: State, s: nat, n: nat, r: State)
    requires Inv(k) && s < NSEM && k.sem[s].used && SignalsTo(k, s, n, r)
    ensures Inv(r) && r.sem[s] == Sem(true, k.sem[s].count + n) && r.ndefers == k.ndefers
    ensures SleepSame(k, r) && r.queue[s] == Dropped(k.queue[s], n)
    decreases n
  {
    if n > 0 {
      var m := SignalNext(k, s, n, r);
      SignalTimesKeeps(m, s, n - 1, r);
      DroppedOnce(k, m, r, s, n);
    } else {
      SignalsDone(k, s, r);
    }
  }

  /** One release and then `n - 1` more. */
  lemma DroppedOnce(k: State, m: State, r: State, s: nat, n: nat)
    requires s < NSEM && n > 0 && SleepSame(k, m) && SleepSame(m, r)
    requires m.queue[s] == Dropped(k.queue[s], 1) && r.queue[s] == Dropped(m.queue[s], n - 1)
    ensures SleepSame(k, r) && r.queue[s] == Dropped(k.queue[s], n)
  {
    SameTrans(k, m, r);
    DroppedTwice(k.queue[s], n - 1);
  }

  lemma DroppedTwice<T>(q: seq<T>, n: nat)
    ensures Dropped(Dropped(q, 1), n) == Dropped(q, n + 1)
  {
  }

  lemma DeferStartKeeps(k: State, s: int)
    requires InvBut(k, s)
    ensures InvBut(DeferStart(k), s) && (Inv(k) ==> Inv(DeferStart(k)))
  {
    DeferStartRuns(k);
  }

  lemma DeferStopKeeps(k: State)
    requires Inv(k)
    ensures Inv(DeferStop(k))
  {
    DeferStopRuns(k);
    DeferStopSame(k, DeferStop(k));
    SameHead(k, DeferStop(k));
  }

  lemma SignalNEffect(k: State, s: nat, n: nat, r: State)
    requires Inv(k) && s < NSEM && k.sem[s].used && r == DoSignalN(k, s, n).k
    ensures Inv(r) && SleepSame(k, r)
    ensures r.sem[s] == Sem(true, k.sem[s].count + n) && r.queue[s] == Dropped(k.queue[s], n)
  {
    DeferStartKeeps(k, NOBODY);
    var k1 := SignalTimes(DeferStart(k), s, n);
    SignalTimesKeeps(DeferStart(k), s, n, k1);
    DeferStopKeeps(k1);
    DeferStopSame(k1, r);
    SameTrans(DeferStart(k), k1, r);
  }

  lemma SignalNKeeps(k: State, s: int, n: int)
    requires Inv(k)
    ensures Inv(DoSignalN(k, s, n).k)
  {
    if !(BadSem(s) || n < 0 || !k.sem[s].used) {
      SignalNEffect(k, s, n, DoSignalN(k, s, n).k);
    }
  }

  /** Releasing all waiters under deferral and then setting the count. */
  lemma ReleaseAllKeeps(k: State, s: nat, c: int, r: State)
    requires InvBut(k, s) && s < NSEM && Waiters(k.sem[s].(count := c)) == 0 && r == ReleaseAll(k, s, c)
    ensures Inv(r) && SleepSame(k, r)
  {
    DeferStartKeeps(k, s);
    var k1 := ReleaseMany(DeferStart(k), s, |k.queue[s]|);
    ReleaseManyKeeps(DeferStart(k), s, |k.queue[s]|, k1);
    SemEditKeeps(k1, s, k1.sem[s].(count := c));
    DeferStopKeeps(SetCount(k1, s, c));
    DeferStopSame(SetCount(k1, s, c), r);
  }

  lemma SemDeleteKeeps(k: State, s: int)
    requires Inv(k)
    ensures Inv(DoSemDelete(k, s).k)
  {
    if !BadSem(s) && k.sem[s].used {
      var e := Sem(false, k.sem[s].count);
      SemEditKeeps(k, s, e);
      ReleaseAllKeeps(SetSem(k, s, e), s, e.count + |k.queue[s]| + 1, DoSemDelete(k, s).k);
    }
  }

  lemma SemResetKeeps(k: State, s: int, n: int)
    requires Inv(k)
    ensures Inv(DoSemReset(k, s, n).k)
  {
    if !(n < 0 || BadSem(s) || !k.sem[s].used) {
      ReleaseAllKeeps(k, s, n, DoSemReset(k, s, n).k);
    }
  }

  lemma WaitKeeps(k: State, s: int)
    requires Inv(k) && Enabled(k, WaitOn(s))
    ensures Inv(DoWait(k, s).k)
  {
    if !BadSem(s) && k.sem[s].used {
      var e := k.sem[s].(count := k.sem[s].count - 1);
      SemEditKeeps(k, s, e);
      if e.count < 0 {
        var k1 := SetCount(k, s, e.count);
        var c := k1.curr;
        var pr := k1.proc[c].(st := Wait, sem := s);
        assert ProcOK(k1.proc[c], k1.cont[c], c, c) && k.proc[c].st == Curr by { assert Unfold(Processes, true); }
        NotQueued(k1, c, SLEEPQ);
        Detach(k1, c);
        PutSemCore(k1, c, pr, s);
        var k2 := Put(k1, c, pr, s, |k1.queue[s]|, k1.key[c]);
        ReschedRuns(k2);
        ReschedSame(k2, Resched(k2));
        SameHead(k2, Resched(k2));
      }
    }
  }

  // ----- the delta list

  lemma {:induction false} DeltaPosFacts(q: seq<Pid>, key: seq<int>, d: int, i: nat)
    requires |key| == NPROC && i <= |q| && KeySum(q, key, i) <= d
    ensures var r := DeltaPos(q, key, d, i);
            && KeySum(q, key, r) <= d
            && (r < |q| ==> key[q[r]] > d - KeySum(q, key, r))
            && (forall j :: i <= j <= r ==> KeySum(q, key, j) <= d)
    decreases |q| - i
  {
    if i < |q| && key[q[i]] <= d - KeySum(q, key, i) {
      DeltaPosFacts(q, key, d, i + 1);
    }
  }

  lemma PutSleepCore(k: State, x: Pid, pr: Proc, i: nat, key: int)
    requires Core(k, x) && Place(pr) == SLEEPQ && ProcOK(pr, k.cont[x], x, k.curr)
    requires i <= |k.queue[SLEEPQ]| && key >= 0
    ensures Core(Put(k, x, pr, SLEEPQ, i, key), NOBODY)
  {
    assert Unfold(Processes, true);
    PutAgree(k, x, pr, SLEEPQ, i, key);
    DescendingKept(k, Put(k, x, pr, SLEEPQ, i, key));
  }

  lemma PutDeltaAt(k: State, x: Pid, pr: Proc, i: nat, rest: int, r: State)
    requires Core(k, x) && Place(pr) == SLEEPQ && ProcOK(pr, k.cont[x], x, k.curr)
    requires i <= |k.queue[SLEEPQ]| && rest >= 0
    requires i < |k.queue[SLEEPQ]| ==> k.key[k.queue[SLEEPQ][i]] >= rest
    requires r == AddDelta(Put(k, x, pr, SLEEPQ, i, rest), i + 1, -rest)
    ensures Core(r, NOBODY)
  {
    PutSleepCore(k, x, pr, i, rest);
    AddDeltaCore(Put(k, x, pr, SLEEPQ, i, rest), i + 1, -rest);
  }

  lemma PutDeltaCore(k: State, x: Pid, pr: Proc, d: int)
    requires Core(k, x) && Place(pr) == SLEEPQ && ProcOK(pr, k.cont[x], x, k.curr) && d >= 0
    ensures Core(PutDelta(k, x, pr, d), NOBODY)
  {
    var i := DeltaPos(k.queue[SLEEPQ], k.key, d, 0);
    DeltaPosFacts(k.queue[SLEEPQ], k.key, d, 0);
    PutDeltaAt(k, x, pr, i, d - KeySum(k.queue[SLEEPQ], k.key, i), PutDelta(k, x, pr, d));
  }

  lemma PutDeltaHead(k: State, x: Pid, pr: Proc, d: int)
    requires Core(k, x) && HeadWaits(k) && d >= 1
    ensures HeadWaits(PutDelta(k, x, pr, d))
    ensures forall s :: 0 <= s < NSEM ==> PutDelta(k, x, pr, d).queue[s] == k.queue[s]
  {
    assert Unfold(Processes, true);
    DeltaPosFacts(k.queue[SLEEPQ], k.key, d, 0);
  }

  /** The ready list does not notice key changes of processes that are not on it. */
  lemma DescendingKept(k: State, r: State)
    requires Shape(k) && Shape(r) && ReadySorted(k) && r.queue[READYQ] == k.queue[READYQ]
    requires forall i :: 0 <= i < |k.queue[READYQ]| ==>
               r.key[k.queue[READYQ][i]] == k.key[k.queue[READYQ][i]]
               && r.proc[k.queue[READYQ][i]].prio == k.proc[k.queue[READYQ][i]].prio
    ensures ReadySorted(r)
  {
  }

  lemma AddDeltaCore(k: State, i: nat, d: int)
    requires Core(k, NOBODY)
    requires i < |k.queue[SLEEPQ]| ==> k.key[k.queue[SLEEPQ][i]] + d >= 0
    ensures Core(AddDelta(k, i, d), NOBODY)
  {
    assert Unfold(Processes, true);
    DescendingKept(k, AddDelta(k, i, d));
  }

  lemma TakeDeltaCore(k: State, i: nat, pr: Proc)
    requires Core(k, NOBODY) && i < |k.queue[SLEEPQ]|
    ensures Core(TakeDelta(k, i, pr), k.queue[SLEEPQ][i])
  {
    assert Unfold(Processes, true);
    AddDeltaCore(k, i + 1, k.key[k.queue[SLEEPQ][i]]);
    TakeCore(AddDelta(k, i + 1, k.key[k.queue[SLEEPQ][i]]), SLEEPQ, i, pr);
  }

  lemma TakeDeltaHead(k: State, i: nat, pr: Proc)
    requires Core(k, NOBODY) && i < |k.queue[SLEEPQ]| && HeadWaits(k)
    ensures HeadWaits(TakeDelta(k, i, pr))
    ensures forall s :: 0 <= s < NSEM ==> TakeDelta(k, i, pr).queue[s] == k.queue[s]
  {
    assert Unfold(Processes, true);
    var q := k.queue[SLEEPQ];
    var r := TakeDelta(k, i, pr);
    assert |q| > 1 ==> r.queue[SLEEPQ][0] == q[if i == 0 then 1 else 0];
  }

  // ----- calls of the running process that give up the processor

  lemma SetContCore(k: State, x: Pid, c: Cont)
    requires Core(k, x)
    ensures Core(SetCont(k, x, c), x)
  {
  }

  /** The caller is in transit, then blocked, then another process runs. */
  lemma BlockRuns(k: State, r: State)
    requires Inv(k) && k.ndefers == 0 && r.ndefers == 0 && r.curr == k.curr
    requires Core(r, NOBODY) && r.proc[r.curr].st != Curr && HeadWaits(r)
    requires r.sem == k.sem && forall s :: 0 <= s < NSEM ==> r.queue[s] == k.queue[s]
    requires r.curr !in r.queue[SLEEPQ]
    ensures Inv(Resched(r))
  {
    ReschedRuns(r);
    ReschedSame(r, Resched(r));
    SameHead(r, Resched(r));
  }

  /** As above for a caller that is on the sleep queue: a switch changes no key. */
  lemma SleepRuns(k: State, r: State)
    requires Inv(k) && k.ndefers == 0 && r.ndefers == 0 && r.curr == k.curr
    requires Core(r, NOBODY) && r.proc[r.curr].st != Curr && HeadWaits(r)
    requires r.sem == k.sem && forall s :: 0 <= s < NSEM ==> r.queue[s] == k.queue[s]
    ensures Inv(Resched(r))
  {
    SwitchRuns(r);
  }

  lemma TimedKeeps(k: State, st: PState, c: Cont, d: int)
    requires Inv(k) && k.ndefers == 0 && k.curr != NULLPROC && k.cont[k.curr] == Idle && d >= 1
    requires (st == Sleep && c == Idle) || (st == RecTim && c == InRecvTime && !k.proc[k.curr].hasmsg)
    ensures Inv(Resched(PutDelta(SetCont(k, k.curr, c), k.curr, k.proc[k.curr].(st := st), d)))
  {
    assert Unfold(Processes, true);
    var x := k.curr;
    var pr := k.proc[x].(st := st);
    assert ProcOK(k.proc[x], k.cont[x], x, x);
    Detach(k, x);
    SetContCore(k, x, c);
    var k1 := SetCont(k, x, c);
    PutDeltaCore(k1, x, pr, d);
    PutDeltaHead(k1, x, pr, d);
    SleepRuns(k, PutDelta(k1, x, pr, d));
  }

  lemma ReceiveKeeps(k: State)
    requires Inv(k) && Enabled(k, Receive)
    ensures Inv(DoReceive(k).k)
  {
    assert Unfold(Processes, true);
    var x := k.curr;
    assert ProcOK(k.proc[x], k.cont[x], x, x);
    if k.proc[x].hasmsg {
      TakeMessageKeeps(k);
    } else {
      Detach(k, x);
      AlterCore(k, x, k.proc[x].(st := Recv));
      var k1 := Alter(k, x, k.proc[x].(st := Recv));
      SetContCore(k1, x, InReceive);
      Arrive(SetCont(k1, x, InReceive), x);
      NotQueued(SetCont(k1, x, InReceive), x, SLEEPQ);
      BlockRuns(k, SetCont(k1, x, InReceive));
    }
  }

  lemma TakeMessageKeeps(k: State)
    requires Inv(k) && k.cont[k.curr] != InReceive
    ensures Inv(TakeMessage(k).k)
  {
    assert Unfold(Processes, true);
    var x := k.curr;
    var pr := k.proc[x].(hasmsg := false);
    assert ProcOK(k.proc[x], k.cont[x], x, x);
    Detach(k, x);
    AlterCore(k, x, pr);
    Arrive(Alter(k, x, pr), x);
  }

  lemma SetIdleKeeps(k: State)
    requires Inv(k)
    ensures Inv(SetCont(k, k.curr, Idle))
  {
    assert Unfold(Processes, true);
    var x := k.curr;
    assert ProcOK(k.proc[x], k.cont[x], x, x);
    Detach(k, x);
    SetContCore(k, x, Idle);
    Arrive(SetCont(k, x, Idle), x);
  }

  lemma ReschedKeeps(k: State, r: State)
    requires Inv(k) && r == Resched(k)
    ensures Inv(r)
  {
    ReschedRuns(k);
    NotQueued(k, k.curr, SLEEPQ);
    ReschedSame(k, r);
    SameHead(k, r);
  }

  // ----- the clock

  /** One sleeper whose time has come moves to the ready list. */
  function WakeFirst(k: State): (r: State)
    requires Shape(k) && k.queue[SLEEPQ] != []
    ensures Shape(r)
  {
    var p := k.queue[SLEEPQ][0];
    DoReady(Take(k, SLEEPQ, 0, k.proc[p]), p)
  }

  lemma WakeFirstRuns(k: State, r: State)
    requires Running(k) && k.queue[SLEEPQ] != [] && r == WakeFirst(k)
    ensures Running(r) && r.sem == k.sem && r.ndefers == k.ndefers && r.queue[SLEEPQ] == k.queue[SLEEPQ][1..]
    ensures forall s :: 0 <= s < NSEM ==> r.queue[s] == k.queue[s]
  {
    var p := k.queue[SLEEPQ][0];
    HeadFacts(k, SLEEPQ);
    TakeCore(k, SLEEPQ, 0, k.proc[p]);
    DoReadyRuns(Take(k, SLEEPQ, 0, k.proc[p]), p);
    assert RemoveAt(k.queue[SLEEPQ], 0) == k.queue[SLEEPQ][1..];
  }

  lemma {:induction false} WakeAllRuns(k: State)
    requires Running(k)
    ensures Running(WakeAll(k)) && HeadWaits(WakeAll(k)) && WakeAll(k).sem == k.sem && WakeAll(k).ndefers == k.ndefers
    ensures forall s :: 0 <= s < NSEM ==> WakeAll(k).queue[s] == k.queue[s]
    decreases |k.queue[SLEEPQ]|
  {
    if !(k.queue[SLEEPQ] == [] || FirstKey(k, SLEEPQ) > 0) {
      WakeFirstRuns(k, WakeFirst(k));
      WakeAllRuns(WakeFirst(k));
    }
  }

  lemma CountSleepKeeps(k: State)
    requires Inv(k)
    ensures Inv(CountSleep(k))
  {
    assert Unfold(Processes, true);
    if k.queue[SLEEPQ] != [] {
      var p := k.queue[SLEEPQ][0];
      AddDeltaCore(k, 0, -1);
      var k1 := AddDelta(k, 0, -1);
      assert k1 == k.(key := k.key[p := k.key[p] - 1]);
      DescendingKept(k, k1);
      assert Running(k1);
      if k1.key[p] == 0 {
        DeferStartRuns(k1);
        WakeAllRuns(DeferStart(k1));
        DeferStopKeeps(WakeAll(DeferStart(k1)));
      }
    }
  }

  lemma SetPreempt(k: State, n: int)
    requires Inv(k) && 1 <= n <= QUANTUM
    ensures Inv(k.(preempt := n))
  {
    assert Core(k.(preempt := n), NOBODY);
  }

  lemma CountSliceKeeps(k: State)
    requires Inv(k)
    ensures Inv(CountSlice(k))
  {
    if k.preempt == 1 {
      SetPreempt(k, QUANTUM);
      ReschedKeeps(k.(preempt := QUANTUM), CountSlice(k));
    } else {
      SetPreempt(k, k.preempt - 1);
    }
  }

  lemma TickKeeps(k: State)
    requires Inv(k) && k.cont[k.curr] == Idle
    ensures Inv(DoTick(k).k)
  {
    CountSleepKeeps(k);
    var k1 := CountSleep(k);
    if k1.curr == k.curr {
      CountSliceKeeps(k1);
    } else {
      CountSleepCont(k);
      InTickKeeps(k1, k.curr, DoTick(k).k);
    }
  }

  /** Counting down sleepers leaves all continuations alone and the interrupted process eligible. */
  lemma CountSleepCont(k: State)
    requires Inv(k) && CountSleep(k).curr != k.curr
    ensures CountSleep(k).cont == k.cont && CountSleep(k).proc[k.curr].st == Ready
  {
    assert Unfold(Processes, true);
    var k1 := AddDelta(k, 0, -1);
    AddDeltaCore(k, 0, -1);
    assert Running(k1) by { DescendingKept(k, k1); }
    DeferStartRuns(k1);
    var k2 := DeferStart(k1);
    WakeAllCurr(k2);
    WakeAllRuns(k2);
    var k3 := WakeAll(k2);
    StopPreempts(k3, DeferStop(k3));
  }

  lemma {:induction false} WakeAllCurr(k: State)
    requires Running(k) && k.ndefers > 0
    ensures WakeAll(k).curr == k.curr && WakeAll(k).cont == k.cont && WakeAll(k).proc[k.curr] == k.proc[k.curr]
    decreases |k.queue[SLEEPQ]|
  {
    assert Unfold(Processes, true);
    if !(k.queue[SLEEPQ] == [] || FirstKey(k, SLEEPQ) > 0) {
      assert Place(k.proc[k.queue[SLEEPQ][0]]) == SLEEPQ;
      WakeFirstRuns(k, WakeFirst(k));
      WakeAllCurr(WakeFirst(k));
    }
  }

  /** If the outermost stop switches, the process that ran becomes ready. */
  lemma StopPreempts(k: State, r: State)
    requires Running(k) && r == DeferStop(k) && r.curr != k.curr
    ensures r.proc[k.curr].st == Ready
  {
    var k1 := k.(ndefers := 0);
    assert r == Resched(k1) == Switch(MakeReady(k1, k.curr));
    Detach(k, k.curr);
  }

  lemma InTickKeeps(k: State, p: Pid, r: State)
    requires Inv(k) && p != k.curr && k.proc[p].st == Ready && k.cont[p] == Idle && r == SetCont(k, p, InTick)
    ensures Inv(r)
  {
    assert Unfold(Processes, true);
    ContEditKeeps(k, p, InTick);
  }

  /** A continuation may change where the state of the process allows it. */
  lemma ContEditKeeps(k: State, p: Pid, c: Cont)
    requires Inv(k) && ProcOK(k.proc[p], c, p, k.curr)
    ensures Inv(SetCont(k, p, c))
  {
    assert Unfold(Processes, true);
    var r := SetCont(k, p, c);
    assert ProcsOK(r, NOBODY);
    assert Core(r, NOBODY);
  }

  lemma FinishKeeps(k: State)
    requires Inv(k)
    ensures Inv(DoFinish(k).k)
  {
    SetIdleKeeps(k);
    var k0 := SetCont(k, k.curr, Idle);
    match k.cont[k.curr]
    case Idle =>
    case InReceive => TakeMessageKeeps(k0);
    case InRecvTime => TakeMessageKeeps(k0);
    case InTick => CountSliceKeeps(k0);
  }

  // ----- calls about another process

  /** Process `x` is in transit; everything else is in order. */
  ghost predicate Transit(k: State, r: State, x: Pid) {
    (&& Inv(k) && Core(r, x) && x != k.curr && r.curr == k.curr && r.proc[k.curr] == k.proc[k.curr]
     && r.ndefers == k.ndefers && r.attempt == k.attempt && FirstKey(r, READYQ) <= FirstKey(k, READYQ)
     && HeadWaits(r) && SemsAgree(r)) == true
  }

  lemma TransitDone(k: State, r: State, x: Pid)
    requires Transit(k, r, x) && Place(r.proc[x]) < 0 && ProcOK(r.proc[x], r.cont[x], x, r.curr)
    ensures Inv(r)
  {
    Arrive(r, x);
  }

  lemma TransitReady(k: State, r: State, x: Pid, t: State)
    requires Transit(k, r, x) && ProcOK(r.proc[x].(st := Ready), r.cont[x], x, r.curr) && t == DoReady(r, x)
    ensures Inv(t)
  {
    assert Unfold(Processes, true);
    DoReadyRuns(r, x);
    assert r.curr !in r.queue[SLEEPQ] by { assert Place(r.proc[r.curr]) < 0; }
    DoReadySame(r, x, t);
    SameHead(r, t);
  }

  /** A process on no queue goes into transit as `pr`. */
  lemma TransitFromNowhere(k: State, x: Pid, pr: Proc, r: State)
    requires Inv(k) && x != k.curr && Place(k.proc[x]) < 0 && r == Alter(k, x, pr)
    ensures Transit(k, r, x)
  {
    Detach(k, x);
    AlterCore(k, x, pr);
  }

  lemma {:induction false} TransitFromReady(k: State, x: Pid, pr: Proc, r: State)
    requires Inv(k) && k.proc[x].st == Ready
    requires x in k.queue[READYQ] && r == Take(k, READYQ, IndexOf(k.queue[READYQ], x), pr)
    ensures Transit(k, r, x)
  {
    assert Unfold(Processes, true);
    TakeCore(k, READYQ, IndexOf(k.queue[READYQ], x), pr);
    NotQueued(k, x, SLEEPQ);
  }

  lemma {:induction false} TransitFromSleep(k: State, x: Pid, pr: Proc, r: State)
    requires Inv(k) && Place(k.proc[x]) == SLEEPQ
    requires x in k.queue[SLEEPQ] && r == TakeDelta(k, IndexOf(k.queue[SLEEPQ], x), pr)
    ensures Transit(k, r, x)
  {
    var i := IndexOf(k.queue[SLEEPQ], x);
    TakeDeltaCore(k, i, pr);
    TakeDeltaHead(k, i, pr);
    TakeDeltaFrame(k, i, pr, r);
  }

  /** Sleepers are not on the ready list, nor is the running process. */
  lemma TakeDeltaFrame(k: State, i: nat, pr: Proc, r: State)
    requires Inv(k) && i < |k.queue[SLEEPQ]| && r == TakeDelta(k, i, pr)
    ensures FirstKey(r, READYQ) == FirstKey(k, READYQ) && r.curr == k.curr && r.proc[k.curr] == k.proc[k.curr]
    ensures r.ndefers == k.ndefers && r.attempt == k.attempt && SemsAgree(r) && k.queue[SLEEPQ][i] != k.curr
  {
    assert Unfold(Processes, true);
    assert Place(k.proc[k.queue[SLEEPQ][i]]) == SLEEPQ;
    if k.queue[READYQ] != [] { assert Place(k.proc[k.queue[READYQ][0]]) == READYQ; }
  }

  lemma {:induction false} TransitFromWait(k: State, x: Pid, pr: Proc, r: State)
    requires Inv(k) && k.proc[x].st == Wait && !BadSem(k.proc[x].sem) && x in k.queue[k.proc[x].sem]
    requires var s := k.proc[x].sem;
             r == Take(SetCount(k, s, k.sem[s].count + 1), s, IndexOf(k.queue[s], x), pr)
    ensures Transit(k, r, x)
  {
    var s := k.proc[x].sem;
    var e := k.sem[s].(count := k.sem[s].count + 1);
    SemEditKeeps(k, s, e);
    TakeCore(SetSem(k, s, e), s, IndexOf(k.queue[s], x), pr);
    NotQueued(k, x, SLEEPQ);
  }

  lemma TransitCont(k: State, r: State, x: Pid, c: Cont)
    requires Transit(k, r, x)
    ensures Transit(k, SetCont(r, x, c), x)
  {
    SetContCore(r, x, c);
  }

  lemma QueuedSomewhere(k: State, x: Pid)
    requires Core(k, NOBODY)
    ensures Place(k.proc[x]) >= 0 ==> x in k.queue[Place(k.proc[x])]
    ensures ProcOK(k.proc[x], k.cont[x], x, k.curr)
  {
    assert Unfold(Processes, true);
  }

  lemma ExtractTransit(k: State, x: Pid, pr: Proc)
    requires Inv(k) && x != k.curr
    ensures Transit(k, Extract(k, x, pr), x)
  {
    QueuedSomewhere(k, x);
    var st := k.proc[x].st;
    if st == Sleep || st == RecTim {
      TransitFromSleep(k, x, pr, Extract(k, x, pr));
    } else if st == Wait {
      TransitFromWait(k, x, pr, Extract(k, x, pr));
    } else if st == Ready {
      TransitFromReady(k, x, pr, Extract(k, x, pr));
    } else {
      TransitFromNowhere(k, x, pr, Extract(k, x, pr));
    }
  }

  lemma ExtractProc(k: State, x: Pid, pr: Proc)
    requires Shape(k)
    ensures Extract(k, x, pr).proc[x] == pr && Extract(k, x, pr).cont == k.cont && Extract(k, x, pr).curr == k.curr
  {
  }

  lemma ResumeKeeps(k: State, p: int)
    requires Inv(k)
    ensures Inv(DoResume(k, p).k)
  {
    if !(BadPid(k, p) || k.proc[p].st != Susp) {
      QueuedSomewhere(k, p);
      TransitFromNowhere(k, p, k.proc[p], k);
      TransitReady(k, k, p, DoResume(k, p).k);
    }
  }

  /** The running process leaves: it is suspended or it ends. */
  lemma LeaveKeeps(k: State, pr: Proc, c: Cont, r: State)
    requires Inv(k) && k.curr != NULLPROC && k.ndefers == 0
    requires Place(pr) < 0 && pr.st != Curr && ProcOK(pr, c, k.curr, k.curr)
    requires r == Resched(SetCont(Alter(k, k.curr, pr), k.curr, c))
    ensures Inv(r)
  {
    var x := k.curr;
    Detach(k, x);
    AlterCore(k, x, pr);
    SetContCore(Alter(k, x, pr), x, c);
    var k1 := SetCont(Alter(k, x, pr), x, c);
    Arrive(k1, x);
    NotQueued(k1, x, SLEEPQ);
    BlockRuns(k, k1);
  }

  lemma SuspendKeeps(k: State, p: int)
    requires Inv(k) && Enabled(k, Suspend(p))
    ensures Inv(DoSuspend(k, p).k)
  {
    if !BadPid(k, p) && p != NULLPROC {
      var pr := k.proc[p].(st := Susp);
      QueuedSomewhere(k, p);
      if k.proc[p].st == Ready {
        ExtractTransit(k, p, pr);
        ExtractProc(k, p, pr);
        TransitDone(k, Extract(k, p, pr), p);
      } else if k.proc[p].st == Curr {
        assert SetCont(Alter(k, p, pr), p, k.cont[p]) == Alter(k, p, pr);
        LeaveKeeps(k, pr, k.cont[p], DoSuspend(k, p).k);
      }
    }
  }

  lemma SendKeeps(k: State, p: int, m: int)
    requires Inv(k)
    ensures Inv(DoSend(k, p, m).k)
  {
    if !BadPid(k, p) && !k.proc[p].hasmsg {
      var pr := k.proc[p].(hasmsg := true, msg := m);
      QueuedSomewhere(k, p);
      if pr.st == Recv || pr.st == RecTim {
        ExtractTransit(k, p, pr);
        ExtractProc(k, p, pr);
        TransitReady(k, Extract(k, p, pr), p, DoSend(k, p, m).k);
      } else {
        MessageKeeps(k, p, pr);
      }
    }
  }

  /** A message for a process that is not receiving changes only its slot. */
  lemma MessageKeeps(k: State, p: Pid, pr: Proc)
    requires Inv(k) && pr == k.proc[p].(hasmsg := true, msg := pr.msg) && pr.st != Recv && pr.st != RecTim
    ensures Inv(Alter(k, p, pr))
  {
    assert Unfold(Processes, true);
    var r := Alter(k, p, pr);
    assert ProcsOK(r, NOBODY);
    assert Core(r, NOBODY);
  }

  lemma CreateKeeps(k: State, p: int, prio: int)
    requires Inv(k)
    ensures Inv(DoCreate(k, p, prio).k)
  {
    if !(prio < 1 || !(0 <= p < NPROC) || k.proc[p].st != Free) {
      QueuedSomewhere(k, p);
      var pr := Proc(Susp, prio, -1, false, k.proc[p].msg);
      TransitFromNowhere(k, p, pr, Alter(k, p, pr));
      TransitCont(k, Alter(k, p, pr), p, Idle);
      TransitDone(k, SetCont(Alter(k, p, pr), p, Idle), p);
    }
  }

  /** Also a killed waiter keeps its semaphore's count and queue in step. */
  lemma KillKeeps(k: State, p: int)
    requires Inv(k) && Enabled(k, Kill(p))
    ensures Inv(DoKill(k, p).k)
  {
    if 0 <= p < NPROC && p != NULLPROC && k.proc[p].st != Free {
      var pr := k.proc[p].(st := Free);
      QueuedSomewhere(k, p);
      if k.proc[p].st == Curr {
        LeaveKeeps(k, pr, Idle, DoKill(k, p).k);
      } else {
        ExtractTransit(k, p, pr);
        ExtractProc(k, p, pr);
        TransitCont(k, Extract(k, p, pr), p, Idle);
        TransitDone(k, DoKill(k, p).k, p);
      }
    }
  }

  lemma SemCreateKeeps(k: State, s: int, n: int)
    requires Inv(k)
    ensures Inv(DoSemCreate(k, s, n).k)
  {
    if !(n < 0 || BadSem(s) || k.sem[s].used) {
      SemEditKeeps(k, s, Sem(true, n));
    }
  }

  // ----- every step, every run

  /** Every system call, the clock tick and every continuation keep the invariant. */
  lemma NextKeeps(k: State, op: Op, r: Result)
    requires Inv(k) && Enabled(k, op) && Next(k, op, r)
    ensures Inv(r.k)
  {
    match op
    case WaitOn(s) => WaitKeeps(k, s);
    case Signal(s) => if !BadSem(s) && k.sem[s].used { SignalOnceKeeps(k, s, r.k); }
    case SignalN(s, n) => SignalNKeeps(k, s, n);
    case SemCreate(s, n) => SemCreateKeeps(k, s, n);
    case SemDelete(s) => SemDeleteKeeps(k, s);
    case SemReset(s, n) => SemResetKeeps(k, s, n);
    case Create(p, prio) => CreateKeeps(k, p, prio);
    case Kill(p) => KillKeeps(k, p);
    case Suspend(p) => SuspendKeeps(k, p);
    case Resume(p) => ResumeKeeps(k, p);
    case Send(p, m) => SendKeeps(k, p, m);
    case Receive => ReceiveKeeps(k);
    case RecvTime(d) => RecvTimeKeeps(k, d);
    case RecvClr => if k.proc[k.curr].hasmsg { TakeMessageKeeps(k); }
    case SleepMs(d) => SleepMsKeeps(k, d);
    case Yield => ReschedKeeps(k, r.k);
    case Tick => TickKeeps(k);
    case Defer(start) => DeferKeeps(k, start);
    case Finish => FinishKeeps(k);
  }

  lemma RecvTimeKeeps(k: State, d: int)
    requires Inv(k) && Enabled(k, RecvTime(d))
    ensures Inv(DoRecvTime(k, d).k)
  {
    if d >= 0 {
      if k.proc[k.curr].hasmsg { TakeMessageKeeps(k); } else { TimedKeeps(k, RecTim, InRecvTime, d); }
    }
  }

  lemma SleepMsKeeps(k: State, d: int)
    requires Inv(k) && Enabled(k, SleepMs(d))
    ensures Inv(DoSleepMs(k, d).k)
  {
    if d == 0 {
      ReschedKeeps(k, DoSleepMs(k, d).k);
    } else if d > 0 {
      TimedKeeps(k, Sleep, Idle, d);
      assert SetCont(k, k.curr, Idle) == k;
    }
  }

  lemma DeferKeeps(k: State, start: bool)
    requires Inv(k)
    ensures Inv(DeferStart(k)) && Inv(DeferStop(k))
  {
    DeferStartKeeps(k, NOBODY);
    DeferStopKeeps(k);
  }

  lemma BootInv()
    ensures Inv(Boot())
  {
    var k := Boot();
    assert Agree(k, NOBODY);
    assert ProcsOK(k, NOBODY);
    assert Core(k, NOBODY);
  }

  lemma EventKeeps(e: Event)
    requires Inv(e.before) && IsStep(e)
    ensures Inv(e.r.k)
  {
    NextKeeps(e.before, e.op, e.r);
  }

  /** The invariant holds before and after every step of every run. */
  lemma {:induction false} RunKeeps(k: State, run: seq<Event>, i: nat)
    requires Inv(k) && IsRun(k, run) && i < |run|
    ensures Inv(run[i].before) && Inv(run[i].r.k)
  {
    if i > 0 { RunKeeps(k, run, i - 1); }
    EventKeeps(run[i]);
  }

  /** From system initialisation on, every reachable state satisfies the invariant. */
  lemma ReachableInv(run: seq<Event>, i: nat)
    requires IsRun(Boot(), run) && i < |run|
    ensures Inv(run[i].before) && Inv(run[i].r.k)
  {
    BootInv();
    RunKeeps(Boot(), run, i);
  }

  /** The state after a run. */
  function LastState(k: State, run: seq<Event>): State {
    if run == [] then k else run[|run| - 1].r.k
  }

  lemma RunPrefix(k: State, run: seq<Event>)
    requires IsRun(k, run) && run != []
    ensures IsRun(k, run[..|run| - 1]) && run[|run| - 1].before == LastState(k, run[..|run| - 1])
  {
    var front := run[..|run| - 1];
    assert forall i :: 0 <= i < |front| ==> front[i] == run[i];
    if |run| > 1 { assert front[|front| - 1] == run[|run| - 2]; }
  }

  lemma RunAppend(k: State, run: seq<Event>, e: Event)
    requires IsRun(k, run) && IsStep(e) && e.before == LastState(k, run)
    ensures IsRun(k, run + [e]) && LastState(k, run + [e]) == e.r.k
  {
  }
}
