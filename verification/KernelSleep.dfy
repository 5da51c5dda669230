/**
  Sleep deadlines over whole runs. The time a sleeper has left is the sum of the
  deltas up to and including its own.
*/
module KernelSleep {
  import opened Common
  import opened Lists
  import opened KernelSpec
  import opened KernelInvariant
  import opened KernelProofs

  // ----- time left

  /** Ticks until `p` wakes. */
  function Left(k: State, p: Pid): int
    requires Shape(k) && p in k.queue[SLEEPQ]
  {
    KeySum(k.queue[SLEEPQ], k.key, IndexOf(k.queue[SLEEPQ], p) + 1)
  }

  lemma {:induction false} SumSame(q: seq<Pid>, key: seq<int>, key': seq<int>, n: nat)
    requires |key| == |key'| == NPROC && n <= |q|
    requires forall i :: 0 <= i < n ==> key[q[i]] == key'[q[i]]
    ensures KeySum(q, key, n) == KeySum(q, key', n)
  {
    if n > 0 { SumSame(q, key, key', n - 1); }
  }

  lemma SameLeft(k: State, r: State, p: Pid)
    requires SleepSame(k, r) && p in k.queue[SLEEPQ]
    ensures p in r.queue[SLEEPQ] && Left(r, p) == Left(k, p)
  {
    SumSame(k.queue[SLEEPQ], k.key, r.key, IndexOf(k.queue[SLEEPQ], p) + 1);
  }

  // ----- calls that leave the delta list alone

  lemma SemCallSame(k: State, op: Op, r: Result)
    requires Inv(k) && Enabled(k, op) && Next(k, op, r)
    requires op.WaitOn? || op.Signal? || op.SignalN? || op.SemCreate? || op.SemDelete? || op.SemReset?
    ensures SleepSame(k, r.k)
  {
    NotQueued(k, k.curr, SLEEPQ);
    if BadSem(op.s) { return; }
    var s := op.s;
    if op.WaitOn? {
      WaitSame(k, s, r);
    } else if op.Signal? {
      if k.sem[s].used { SignalOnceKeeps(k, s, SignalOnce(k, s)); }
    } else if op.SignalN? {
      if k.sem[s].used && op.n >= 0 { SignalNEffect(k, s, op.n, r.k); }
    } else if op.SemDelete? {
      if k.sem[s].used {
        var e := Sem(false, k.sem[s].count);
        SemEditKeeps(k, s, e);
        ReleaseAllKeeps(SetSem(k, s, e), s, e.count + |k.queue[s]| + 1, r.k);
      }
    } else if op.SemReset? {
      if k.sem[s].used && op.n >= 0 { ReleaseAllKeeps(k, s, op.n, r.k); }
    }
  }

  lemma WaitSame(k: State, s: nat, r: Result)
    requires Inv(k) && s < NSEM && r == DoWait(k, s)
    ensures SleepSame(k, r.k)
  {
    if k.sem[s].used && k.sem[s].count <= 0 {
      var k1 := SetCount(k, s, k.sem[s].count - 1);
      var pr := k1.proc[k1.curr].(st := Wait, sem := s);
      ReschedSame(Put(k1, k1.curr, pr, s, |k1.queue[s]|, k1.key[k1.curr]), r.k);
    }
  }

  /** Calls about processes, other than those that take a process off the delta list or put one on. */
  lemma ProcCallSame(k: State, op: Op, r: Result)
    requires Inv(k) && Enabled(k, op) && Next(k, op, r)
    requires op.Create? || op.Kill? || op.Suspend? || op.Resume? || op.Send?
    requires (op.Kill? || op.Send?) && 0 <= op.p < NPROC ==> Place(k.proc[op.p]) != SLEEPQ
    ensures SleepSame(k, r.k)
  {
    NotQueued(k, k.curr, SLEEPQ);
    if !(0 <= op.p < NPROC) { return; }
    var p: Pid := op.p;
    if Place(k.proc[p]) != SLEEPQ { NotQueued(k, p, SLEEPQ); }
    match op
    case Create(_, prio) =>
    case Kill(_) =>
      if p != NULLPROC && k.proc[p].st != Free {
        var k1 := SetCont(Extract(k, p, k.proc[p].(st := Free)), p, Idle);
        ExtractSame(k, p, k.proc[p].(st := Free), k1);
        if k.proc[p].st == Curr { ReschedSame(k1, r.k); SameTrans(k, k1, r.k); }
      }
    case Suspend(_) =>
      if p != NULLPROC && (k.proc[p].st == Ready || k.proc[p].st == Curr) {
        var k1 := Extract(k, p, k.proc[p].(st := Susp));
        ExtractSame(k, p, k.proc[p].(st := Susp), k1);
        if k.proc[p].st == Curr { ReschedSame(k1, r.k); SameTrans(k, k1, r.k); }
      }
    case Resume(_) =>
      if k.proc[p].st == Susp { DoReadySame(k, p, r.k); }
    case Send(_, m) =>
      if k.proc[p].st == Recv && !k.proc[p].hasmsg {
        var pr := k.proc[p].(hasmsg := true, msg := m);
        ExtractSame(k, p, pr, Extract(k, p, pr));
        DoReadySame(Extract(k, p, pr), p, r.k);
        SameTrans(k, Extract(k, p, pr), r.k);
      }
  }

  lemma ExtractSame(k: State, p: Pid, pr: Proc, r: State)
    requires Shape(k) && Place(k.proc[p]) != SLEEPQ
    requires r == Extract(k, p, pr) || r == SetCont(Extract(k, p, pr), p, Idle)
    ensures SleepSame(k, r) && r.curr == k.curr && r.proc[p] == pr
  {
  }

  /** Calls of the running process about itself that do not sleep. */
  lemma SelfCallSame(k: State, op: Op, r: Result)
    requires Inv(k) && Enabled(k, op) && Next(k, op, r)
    requires op.Receive? || op.RecvClr? || op.Yield? || op.Defer? || op.Finish?
             || (op.RecvTime? && r.out != Blocked) || (op.SleepMs? && r.out != Blocked)
    ensures SleepSame(k, r.k)
  {
    NotQueued(k, k.curr, SLEEPQ);
    match op
    case Receive =>
      if !k.proc[k.curr].hasmsg {
        ReschedSame(SetCont(Alter(k, k.curr, k.proc[k.curr].(st := Recv)), k.curr, InReceive), r.k);
      }
    case RecvTime(d) =>
    case RecvClr =>
    case SleepMs(d) => if d == 0 { ReschedSame(k, r.k); }
    case Yield => ReschedSame(k, r.k);
    case Defer(start) => if !start { DeferStopSame(k, r.k); }
    case Finish => FinishSame(k, r);
  }

  lemma FinishSame(k: State, r: Result)
    requires Inv(k) && r == DoFinish(k)
    ensures SleepSame(k, r.k)
  {
    assert Unfold(Processes, true);
    if k.cont[k.curr] == InTick { CountSliceSame(SetCont(k, k.curr, Idle), r.k); }
  }

  lemma CountSliceSame(k: State, r: State)
    requires Shape(k) && k.curr !in k.queue[SLEEPQ] && r == CountSlice(k)
    ensures SleepSame(k, r)
  {
    if k.preempt == 1 { ReschedSame(k.(preempt := QUANTUM), r); }
  }

  // ----- insertion and removal change no other deadline

  lemma {:induction false} IndexUnique(q: seq<Pid>, i: nat)
    requires Distinct(q) && i < |q|
    ensures IndexOf(q, q[i]) == i
  {
  }

  lemma {:induction false} InsertSums(q: seq<Pid>, key: seq<int>, x: Pid, i: nat, rest: int, key': seq<int>, n: nat)
    requires |key| == |key'| == NPROC && Distinct(q) && x !in q && i <= |q| && n <= |q|
    requires key' == (if i < |q| then key[x := rest][q[i] := key[q[i]] - rest] else key[x := rest])
    ensures n <= i ==> KeySum(InsertAt(q, i, x), key', n) == KeySum(q, key, n)
    ensures n >= i ==> KeySum(InsertAt(q, i, x), key', n + 1) == KeySum(q, key, n) + if n == i then rest else 0
  {
    var q' := InsertAt(q, i, x);
    if n > 0 { InsertSums(q, key, x, i, rest, key', n - 1); }
    assert q'[i] == x;
    if n > i { assert q'[n] == q[n - 1]; }
    if n <= i && n > 0 { assert q'[n - 1] == q[n - 1]; }
  }

  /** `insertd`: the new sleeper wakes after exactly `d` ticks ... */
  lemma PutDeltaOwn(k: State, x: Pid, pr: Proc, d: int, r: State)
    requires Shape(k) && Distinct(k.queue[SLEEPQ]) && x !in k.queue[SLEEPQ] && r == PutDelta(k, x, pr, d)
    ensures x in r.queue[SLEEPQ] && Left(r, x) == d
  {
    var q := k.queue[SLEEPQ];
    var i := DeltaPos(q, k.key, d, 0);
    InsertDistinct(q, i, x);
    PutDeltaKeys(k, x, pr, d, r);
    IndexUnique(InsertAt(q, i, x), i);
    InsertSums(q, k.key, x, i, d - KeySum(q, k.key, i), r.key, i);
  }

  /** ... and everybody else when they would have. */
  lemma PutDeltaOthers(k: State, x: Pid, pr: Proc, d: int, r: State, p: Pid)
    requires Shape(k) && Distinct(k.queue[SLEEPQ]) && x !in k.queue[SLEEPQ] && r == PutDelta(k, x, pr, d)
    requires p in k.queue[SLEEPQ]
    ensures p in r.queue[SLEEPQ] && Left(r, p) == Left(k, p)
  {
    var q := k.queue[SLEEPQ];
    var i := DeltaPos(q, k.key, d, 0);
    var j := IndexOf(q, p);
    var j' := if j < i then j else j + 1;
    InsertDistinct(q, i, x);
    PutDeltaKeys(k, x, pr, d, r);
    InsertSums(q, k.key, x, i, d - KeySum(q, k.key, i), r.key, j + 1);
    assert InsertAt(q, i, x)[j'] == p;
    IndexUnique(InsertAt(q, i, x), j');
  }

  lemma InsertDistinct(q: seq<Pid>, i: nat, x: Pid)
    requires Distinct(q) && x !in q && i <= |q|
    ensures Distinct(InsertAt(q, i, x)) && InsertAt(q, i, x)[i] == x
  {
  }

  lemma {:induction false} PutDeltaKeys(k: State, x: Pid, pr: Proc, d: int, r: State)
    requires Shape(k) && x !in k.queue[SLEEPQ] && r == PutDelta(k, x, pr, d)
    ensures var q := k.queue[SLEEPQ];
            var i := DeltaPos(q, k.key, d, 0);
            var rest := d - KeySum(q, k.key, i);
            r.key == if i < |q| then k.key[x := rest][q[i] := k.key[q[i]] - rest] else k.key[x := rest]
  {
    var q := k.queue[SLEEPQ];
    var i := DeltaPos(q, k.key, d, 0);
    if i < |q| { assert InsertAt(q, i, x)[i + 1] == q[i]; }
  }

  lemma {:induction false} RemoveSums(q: seq<Pid>, key: seq<int>, i: nat, key': seq<int>, n: nat)
    requires |key| == |key'| == NPROC && Distinct(q) && i < |q| && n <= |q|
    requires key' == (if i + 1 < |q| then key[q[i + 1] := key[q[i + 1]] + key[q[i]]] else key)
    ensures n <= i ==> KeySum(RemoveAt(q, i), key', n) == KeySum(q, key, n)
    ensures n > i + 1 ==> KeySum(RemoveAt(q, i), key', n - 1) == KeySum(q, key, n)
  {
    var q' := RemoveAt(q, i);
    if n > 0 { RemoveSums(q, key, i, key', n - 1); }
    if n <= i && n > 0 { assert q'[n - 1] == q[n - 1]; }
    if n > i + 1 {
      assert q'[n - 2] == q[n - 1];
      if n == i + 2 { RemoveSums(q, key, i, key', i); }
    }
  }

  /** `unsleep`: early removal changes no other deadline. */
  lemma TakeDeltaLeft(k: State, i: nat, pr: Proc, r: State, p: Pid)
    requires Shape(k) && Distinct(k.queue[SLEEPQ]) && i < |k.queue[SLEEPQ]| && r == TakeDelta(k, i, pr)
    requires p in k.queue[SLEEPQ] && p != k.queue[SLEEPQ][i]
    ensures p in r.queue[SLEEPQ] && Left(r, p) == Left(k, p)
  {
    var q := k.queue[SLEEPQ];
    var j := IndexOf(q, p);
    var q' := RemoveAt(q, i);
    assert r.queue[SLEEPQ] == q';
    RemoveSums(q, k.key, i, r.key, j + 1);
    var j' := if j < i then j else j - 1;
    assert q'[j'] == p && Distinct(q');
    IndexUnique(q', j');
  }

  // ----- the tick

  /** Ready to run or running. */
  predicate Awake(pr: Proc) { pr.st == Ready || pr.st == Curr }

  lemma {:induction false} HeadDecrement(q: seq<Pid>, key: seq<int>, n: nat)
    requires |key| == NPROC && Distinct(q) && 1 <= n <= |q|
    ensures KeySum(q, key[q[0] := key[q[0]] - 1], n) == KeySum(q, key, n) - 1
  {
    if n > 1 { HeadDecrement(q, key, n - 1); }
  }

  lemma {:induction false} TailSums(q: seq<Pid>, key: seq<int>, n: nat)
    requires |key| == NPROC && n < |q|
    ensures KeySum(q[1..], key, n) == KeySum(q, key, n + 1) - key[q[0]]
  {
    if n > 0 { TailSums(q, key, n - 1); }
  }

  lemma {:induction false} SumsGrow(q: seq<Pid>, key: seq<int>, n: nat)
    requires |key| == NPROC && 1 <= n <= |q| && forall i :: 0 <= i < |q| ==> key[q[i]] >= 0
    ensures KeySum(q, key, n) >= key[q[0]]
  {
    if n > 1 { SumsGrow(q, key, n - 1); }
  }

  /** One sleeper leaves at the head with nothing left: nobody else's time changes. */
  lemma WakeFirstLeft(k: State, m: State, p: Pid)
    requires Running(k) && k.queue[SLEEPQ] != [] && m == WakeFirst(k) && FirstKey(k, SLEEPQ) == 0
    requires p in k.queue[SLEEPQ] && p != k.queue[SLEEPQ][0]
    ensures Running(m) && p in m.queue[SLEEPQ] && Left(m, p) == Left(k, p)
  {
    WakeFirstRuns(k, m);
    WakeFirstSame(k, m);
    QueueDistinct(k, SLEEPQ);
    RestLeft(k.queue[SLEEPQ], k.key, m.key, p);
  }

  /** The sleepers behind the first one keep their deltas. */
  lemma WakeFirstSame(k: State, m: State)
    requires Running(k) && k.queue[SLEEPQ] != [] && m == WakeFirst(k)
    ensures forall i :: 0 <= i < |k.queue[SLEEPQ][1..]| ==> m.key[k.queue[SLEEPQ][1..][i]] == k.key[k.queue[SLEEPQ][1..][i]]
  {
    var q, h := k.queue[SLEEPQ], k.queue[SLEEPQ][0];
    HeadFacts(k, SLEEPQ);
    QueueDistinct(k, SLEEPQ);
    NotQueued(k, k.curr, SLEEPQ);
    var k1 := Take(k, SLEEPQ, 0, k.proc[h]);
    assert k1.queue[SLEEPQ] == q[1..];
    assert h !in q[1..] && k.curr !in q[1..];
    DoReadySame(k1, h, m);
  }

  /** A first delta of zero can be left out of the sums. */
  lemma {:induction false} RestLeft(q: seq<Pid>, key: seq<int>, key': seq<int>, p: Pid)
    requires |key| == |key'| == NPROC && Distinct(q) && q != [] && p in q && p != q[0] && key[q[0]] == 0
    requires forall i :: 0 <= i < |q[1..]| ==> key'[q[1..][i]] == key[q[1..][i]]
    ensures p in q[1..] && KeySum(q[1..], key', IndexOf(q[1..], p) + 1) == KeySum(q, key, IndexOf(q, p) + 1)
  {
    var j := IndexOf(q, p);
    assert q[1..][j - 1] == p && Distinct(q[1..]);
    IndexUnique(q[1..], j - 1);
    SumSame(q[1..], key, key', j);
    TailSums(q, key, j);
  }

  lemma WakeFirstReadies(k: State, m: State)
    requires Running(k) && k.ndefers > 0 && k.queue[SLEEPQ] != [] && m == WakeFirst(k)
    ensures Running(m) && m.ndefers > 0 && m.proc[k.queue[SLEEPQ][0]].st == Ready
    ensures forall x: Pid :: x != k.queue[SLEEPQ][0] ==> m.proc[x] == k.proc[x]
  {
    WakeFirstRuns(k, m);
    HeadFacts(k, SLEEPQ);
  }

  lemma {:induction false} WakeAllLeft(k: State, p: Pid) returns (r: State)
    requires Running(k) && k.ndefers > 0
    requires p in k.queue[SLEEPQ] || k.proc[p].st == Ready
    ensures r == WakeAll(k) && Running(r)
    ensures k.proc[p].st == Ready ==> r.proc[p].st == Ready
    ensures p in k.queue[SLEEPQ] && Left(k, p) <= 0 ==> r.proc[p].st == Ready
    ensures p in k.queue[SLEEPQ] && Left(k, p) > 0 ==> p in r.queue[SLEEPQ] && Left(r, p) == Left(k, p)
    decreases |k.queue[SLEEPQ]|
  {
    assert Unfold(Processes, true);
    var q := k.queue[SLEEPQ];
    r := k;
    if q == [] || FirstKey(k, SLEEPQ) > 0 {
      if p in q { SumsGrow(q, k.key, IndexOf(q, p) + 1); }
    } else {
      assert FirstKey(k, SLEEPQ) == 0;
      var m := WakeFirst(k);
      WakeFirstReadies(k, m);
      if p in q && p != q[0] { WakeFirstLeft(k, m, p); }
      if p in q && p == q[0] { IndexUnique(q, 0); assert KeySum(q, k.key, 1) == k.key[q[0]]; }
      if p !in q { assert p != q[0]; }
      r := WakeAllLeft(m, p);
    }
  }

  lemma StopAwake(k: State, r: State, p: Pid)
    requires Running(k) && Awake(k.proc[p]) && (r == DeferStop(k) || r == Resched(k))
    ensures Awake(r.proc[p])
  {
  }

  /** One tick: every deadline comes one nearer, and exactly the sleepers with one tick left wake. */
  lemma CountSleepLeft(k: State, r: State, p: Pid)
    requires Inv(k) && r == CountSleep(k) && p in k.queue[SLEEPQ]
    ensures Shape(r) && Left(k, p) >= 1
    ensures Left(k, p) > 1 ==> p in r.queue[SLEEPQ] && Left(r, p) == Left(k, p) - 1
    ensures Left(k, p) == 1 ==> Awake(r.proc[p])
  {
    assert Unfold(Processes, true);
    var q := k.queue[SLEEPQ];
    var n := IndexOf(q, p) + 1;
    var k1 := AddDelta(k, 0, -1);
    AddDeltaCore(k, 0, -1);
    assert Running(k1) by { DescendingKept(k, k1); }
    SumsGrow(q, k.key, n);
    HeadDecrement(q, k.key, n);
    assert Left(k1, p) == Left(k, p) - 1;
    if FirstKey(k1, SLEEPQ) == 0 {
      DeferStartRuns(k1);
      var k3 := WakeAllLeft(DeferStart(k1), p);
      DeferStopSame(k3, r);
      if Left(k, p) > 1 { SameLeft(k3, r, p); } else { StopAwake(k3, r, p); }
    } else {
      SumsGrow(q, k1.key, n);
    }
  }

  lemma TickLeft(k: State, r: State, p: Pid)
    requires Inv(k) && k.cont[k.curr] == Idle && r == DoTick(k).k && p in k.queue[SLEEPQ]
    ensures Shape(r) && Left(k, p) >= 1
    ensures Left(k, p) > 1 ==> p in r.queue[SLEEPQ] && Left(r, p) == Left(k, p) - 1
    ensures Left(k, p) == 1 ==> Awake(r.proc[p])
  {
    var k1 := CountSleep(k);
    CountSleepLeft(k, k1, p);
    CountSleepKeeps(k);
    NotQueued(k1, k1.curr, SLEEPQ);
    if k1.curr == k.curr {
      CountSliceSame(k1, r);
      if Left(k, p) > 1 { SameLeft(k1, r, p); } else { SliceAwake(k1, r, p); }
    } else {
      assert SleepSame(k1, r);
      if Left(k, p) > 1 { SameLeft(k1, r, p); }
    }
  }

  lemma SliceAwake(k: State, r: State, p: Pid)
    requires Inv(k) && r == CountSlice(k) && Awake(k.proc[p])
    ensures Awake(r.proc[p])
  {
    if k.preempt == 1 {
      SetPreempt(k, QUANTUM);
      StopAwake(k.(preempt := QUANTUM), r, p);
    }
  }

  // ----- events and runs

  /** Every sleeper of the delta list (q, key) is still on the list of `r`, with the same time left. */
  ghost predicate DeadlinesKept(q: seq<Pid>, key: seq<int>, r: State) {
    (&& |key| == NPROC && Shape(r)
     && forall p: Pid :: p in q ==> p in r.queue[SLEEPQ] && Left(r, p) == KeySum(q, key, IndexOf(q, p) + 1)) == true
  }

  /** The event takes `p` off the delta list before its time. */
  predicate Disturbs(op: Op, p: Pid) {
    (op.Kill? && op.p == p) || (op.Send? && op.p == p)
  }

  /** The caller of `c` goes to sleep for `d` ticks and another process runs. */
  lemma SleepCall(k: State, c: Pid, pr: Proc, d: int, r: State)
    requires Shape(k) && Distinct(k.queue[SLEEPQ]) && c !in k.queue[SLEEPQ] && c == k.curr && pr.st != Curr
    requires r == Resched(PutDelta(k, c, pr, d))
    ensures c in r.queue[SLEEPQ] && Left(r, c) == d && DeadlinesKept(k.queue[SLEEPQ], k.key, r)
  {
    var k1 := PutDelta(k, c, pr, d);
    PutDeltaOwn(k, c, pr, d, k1);
    assert k1.proc[k1.curr] == pr;
    ReschedSame(k1, r);
    SameLeft(k1, r, c);
    forall p: Pid | p in k.queue[SLEEPQ] ensures p in r.queue[SLEEPQ] && Left(r, p) == Left(k, p) {
      PutDeltaOthers(k, c, pr, d, k1, p);
      SameLeft(k1, r, p);
    }
  }

  /** A call that puts the caller to sleep gives it exactly its delay and changes no other deadline. */
  lemma SleepsForDelay(e: Event)
    requires Inv(e.before) && IsStep(e) && (e.op.RecvTime? || e.op.SleepMs?) && e.r.out == Blocked
    ensures Shape(e.r.k) && e.before.curr in e.r.k.queue[SLEEPQ] && Left(e.r.k, e.before.curr) == e.op.d
    ensures DeadlinesKept(e.before.queue[SLEEPQ], e.before.key, e.r.k)
  {
    var k, c := e.before, e.before.curr;
    QueueDistinct(k, SLEEPQ);
    NotQueued(k, c, SLEEPQ);
    if e.op.RecvTime? {
      SleepCall(SetCont(k, c, InRecvTime), c, k.proc[c].(st := RecTim), e.op.d, e.r.k);
    } else {
      SleepCall(k, c, k.proc[c].(st := Sleep), e.op.d, e.r.k);
    }
  }

  lemma KillLeft(e: Event, p: Pid)
    requires Inv(e.before) && IsStep(e) && p in e.before.queue[SLEEPQ] && !Disturbs(e.op, p)
    requires e.op.Kill? && 0 <= e.op.p < NPROC && Place(e.before.proc[e.op.p]) == SLEEPQ
    ensures Shape(e.r.k) && p in e.r.k.queue[SLEEPQ] && Left(e.r.k, p) == Left(e.before, p)
  {
    var k := e.before;
    var x: Pid := e.op.p;
    QueuedSomewhere(k, x);
    QueueDistinct(k, SLEEPQ);
    var i, pr := IndexOf(k.queue[SLEEPQ], x), k.proc[x].(st := Free);
    TakeDeltaLeft(k, i, pr, TakeDelta(k, i, pr), p);
    assert SleepSame(TakeDelta(k, i, pr), e.r.k);
  }

  lemma SendLeft(e: Event, p: Pid)
    requires Inv(e.before) && IsStep(e) && p in e.before.queue[SLEEPQ] && !Disturbs(e.op, p)
    requires e.op.Send? && 0 <= e.op.p < NPROC && Place(e.before.proc[e.op.p]) == SLEEPQ
    ensures Shape(e.r.k) && p in e.r.k.queue[SLEEPQ] && Left(e.r.k, p) == Left(e.before, p)
  {
    var k := e.before;
    var x: Pid := e.op.p;
    QueuedSomewhere(k, x);
    QueueDistinct(k, SLEEPQ);
    var i := IndexOf(k.queue[SLEEPQ], x);
    if k.proc[x].hasmsg || k.proc[x].st != RecTim {
      assert SleepSame(k, e.r.k);
      SameLeft(k, e.r.k, p);
    } else {
      var pr := k.proc[x].(hasmsg := true, msg := e.op.m);
      TakeDeltaLeft(k, i, pr, TakeDelta(k, i, pr), p);
      SendRectimLeft(k, x, i, pr, e.r.k, p);
    }
  }

  lemma SendRectimLeft(k: State, x: Pid, i: nat, pr: Proc, r: State, p: Pid)
    requires Inv(k) && i < |k.queue[SLEEPQ]| && k.queue[SLEEPQ][i] == x && r == DoReady(TakeDelta(k, i, pr), x)
    requires p in TakeDelta(k, i, pr).queue[SLEEPQ]
    ensures p in r.queue[SLEEPQ] && Left(r, p) == Left(TakeDelta(k, i, pr), p)
  {
    assert Unfold(Processes, true);
    var k1 := TakeDelta(k, i, pr);
    TakeDeltaCore(k, i, pr);
    NotQueued(k, k.curr, SLEEPQ);
    assert k.curr !in k1.queue[SLEEPQ] && x !in k1.queue[SLEEPQ];
    DoReadySame(k1, x, r);
    SameLeft(k1, r, p);
  }

  lemma LeftPositive(k: State, p: Pid)
    requires Inv(k) && p in k.queue[SLEEPQ]
    ensures Left(k, p) >= 1
  {
    assert Unfold(Processes, true);
    SumsGrow(k.queue[SLEEPQ], k.key, IndexOf(k.queue[SLEEPQ], p) + 1);
  }

  /** Nothing but a tick changes the time a sleeper has left, short of taking it off the list. */
  lemma EventLeft(e: Event, p: Pid)
    requires Inv(e.before) && IsStep(e) && p in e.before.queue[SLEEPQ] && !Disturbs(e.op, p)
    ensures Shape(e.r.k) && Left(e.before, p) >= 1
    ensures e.op != Tick ==> p in e.r.k.queue[SLEEPQ] && Left(e.r.k, p) == Left(e.before, p)
    ensures e.op == Tick && Left(e.before, p) > 1 ==> p in e.r.k.queue[SLEEPQ] && Left(e.r.k, p) == Left(e.before, p) - 1
    ensures e.op == Tick && Left(e.before, p) == 1 ==> Awake(e.r.k.proc[p])
  {
    var k, op, r := e.before, e.op, e.r;
    LeftPositive(k, p);
    EventKeeps(e);
    if op == Tick {
      TickLeft(k, r.k, p);
    } else if op.WaitOn? || op.Signal? || op.SignalN? || op.SemCreate? || op.SemDelete? || op.SemReset? {
      SemCallSame(k, op, r);
      SameLeft(k, r.k, p);
    } else if (op.RecvTime? || op.SleepMs?) && r.out == Blocked {
      SleepsForDelay(e);
    } else if (op.Kill? || op.Send?) && 0 <= op.p < NPROC && Place(k.proc[op.p]) == SLEEPQ {
      if op.Kill? { KillLeft(e, p); } else { SendLeft(e, p); }
    } else if op.Create? || op.Kill? || op.Suspend? || op.Resume? || op.Send? {
      ProcCallSame(k, op, r);
      SameLeft(k, r.k, p);
    } else {
      SelfCallSame(k, op, r);
      SameLeft(k, r.k, p);
    }
  }

  function Ticks(run: seq<Event>): nat {
    if run == [] then 0 else Ticks(run[..|run| - 1]) + if run[|run| - 1].op == Tick then 1 else 0
  }

  /** While fewer than `d` ticks have passed, a sleeper with `d` left is still asleep with the rest left. */
  lemma {:induction false} StillAsleep(k: State, run: seq<Event>, p: Pid, d: int)
    requires Inv(k) && IsRun(k, run) && p in k.queue[SLEEPQ] && Left(k, p) == d && Ticks(run) < d
    requires forall i :: 0 <= i < |run| ==> !Disturbs(run[i].op, p)
    ensures Inv(LastState(k, run)) && p in LastState(k, run).queue[SLEEPQ]
    ensures Left(LastState(k, run), p) == d - Ticks(run)
    decreases |run|
  {
    if run != [] {
      RunPrefix(k, run);
      StillAsleep(k, run[..|run| - 1], p, d);
      EventLeft(run[|run| - 1], p);
      EventKeeps(run[|run| - 1]);
    }
  }

  /** A sleeper that nobody disturbs becomes ready on exactly the d-th tick. */
  lemma {:induction false} WakesOnTime(k: State, run: seq<Event>, p: Pid, d: int)
    requires Inv(k) && IsRun(k, run) && p in k.queue[SLEEPQ] && Left(k, p) == d
    requires forall i :: 0 <= i < |run| ==> !Disturbs(run[i].op, p)
    requires run != [] && run[|run| - 1].op == Tick && Ticks(run) == d
    ensures Shape(LastState(k, run)) && Awake(LastState(k, run).proc[p])
  {
    RunPrefix(k, run);
    StillAsleep(k, run[..|run| - 1], p, d);
    EventLeft(run[|run| - 1], p);
  }
}
