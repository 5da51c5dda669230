/**
  Semaphores over whole runs: permits are neither lost nor invented, waiters are
  served in the order they came, and an initial count of one excludes.
*/
module KernelSemaphores {
  import opened Common
  import opened Lists
  import opened KernelSpec
  import opened KernelInvariant
  import opened KernelProofs

  // ----- what an event does to semaphore s

  /** The event gives semaphore `s` a new life: its history starts over. */
  predicate Restarts(op: Op, s: int) {
    op == SemDelete(s) || (op.SemReset? && op.s == s) || (op.SemCreate? && op.s == s)
  }

  function Signals(e: Event, s: int): nat {
    if e.op == Signal(s) && e.r.out == Ret(OK) then 1
    else if e.op.SignalN? && e.op.s == s && e.r.out == Ret(OK) && e.op.n >= 0 then e.op.n
    else 0
  }

  /** Processes that get past their `wait` on `s`: at once, or released by a signal. */
  ghost function Passes(e: Event, s: nat): int {
    if !Shape(e.before) || !Shape(e.r.k) || s >= NSEM then 0
    else if e.op == WaitOn(s) then (if e.r.out == Ret(OK) then 1 else 0)
    else if e.op == Signal(s) || (e.op.SignalN? && e.op.s == s) then |e.before.queue[s]| - |e.r.k.queue[s]|
    else 0
  }

  /** Permits that a `wait` could take without blocking. */
  function Permits(m: Sem): nat {
    if m.count > 0 then m.count else 0
  }

  // ----- frames

  lemma {:induction false} WakeAllSem(k: State)
    requires Shape(k)
    ensures WakeAll(k).sem == k.sem && forall s :: 0 <= s < NSEM ==> WakeAll(k).queue[s] == k.queue[s]
    decreases |k.queue[SLEEPQ]|
  {
    if !(k.queue[SLEEPQ] == [] || FirstKey(k, SLEEPQ) > 0) {
      var p := k.queue[SLEEPQ][0];
      WakeAllSem(DoReady(Take(k, SLEEPQ, 0, k.proc[p]), p));
    }
  }

  lemma CountSleepSem(k: State)
    requires Shape(k)
    ensures CountSleep(k).sem == k.sem && forall s :: 0 <= s < NSEM ==> CountSleep(k).queue[s] == k.queue[s]
  {
    if k.queue[SLEEPQ] != [] {
      WakeAllSem(DeferStart(AddDelta(k, 0, -1)));
    }
  }

  lemma TickSem(k: State)
    requires Shape(k)
    ensures DoTick(k).k.sem == k.sem && forall s :: 0 <= s < NSEM ==> DoTick(k).k.queue[s] == k.queue[s]
  {
    CountSleepSem(k);
  }

  /** Calls that are not about semaphores leave the table alone, except that `kill` may end a wait. */
  lemma OtherSem(k: State, op: Op, r: Result)
    requires Shape(k) && Next(k, op, r)
    requires !op.WaitOn? && !op.Signal? && !op.SignalN? && !op.SemCreate? && !op.SemDelete? && !op.SemReset? && !op.Kill?
    ensures r.k.sem == k.sem && forall s :: 0 <= s < NSEM ==> r.k.queue[s] == k.queue[s]
  {
    match op
    case Create(p, prio) =>
    case Suspend(p) => if !BadPid(k, p) && p != NULLPROC { ExtractSem(k, p, k.proc[p].(st := Susp)); }
    case Resume(p) =>
    case Send(p, m) => if !BadPid(k, p) { ExtractSem(k, p, k.proc[p].(hasmsg := true, msg := m)); }
    case Receive =>
    case RecvTime(d) =>
    case RecvClr =>
    case SleepMs(d) =>
    case Yield =>
    case Tick => TickSem(k);
    case Defer(start) =>
    case Finish =>
  }

  lemma ExtractSem(k: State, p: Pid, pr: Proc)
    requires Shape(k)
    ensures k.proc[p].st != Wait ==> Extract(k, p, pr).sem == k.sem
    ensures k.proc[p].st != Wait ==> forall s :: 0 <= s < NSEM ==> Extract(k, p, pr).queue[s] == k.queue[s]
    ensures forall s :: 0 <= s < NSEM && !(k.proc[p].st == Wait && k.proc[p].sem == s && p in k.queue[s]) ==>
              Extract(k, p, pr).sem[s] == k.sem[s]
    ensures k.proc[p].st == Wait && !BadSem(k.proc[p].sem) && p in k.queue[k.proc[p].sem] ==>
              Extract(k, p, pr).sem[k.proc[p].sem] == k.sem[k.proc[p].sem].(count := k.sem[k.proc[p].sem].count + 1)
  {
  }

  lemma {:induction false} SignalTimesOther(k: State, s: nat, n: nat, t: nat)
    requires Shape(k) && s < NSEM && t < NSEM && t != s
    ensures SignalTimes(k, s, n).sem[t] == k.sem[t] && SignalTimes(k, s, n).queue[t] == k.queue[t]
    decreases n
  {
    if n > 0 { SignalTimesOther(SignalOnce(k, s), s, n - 1, t); }
  }

  lemma {:induction false} ReleaseManySem(k: State, s: nat, n: nat)
    requires Shape(k) && s < NSEM
    ensures ReleaseMany(k, s, n).sem == k.sem
    ensures forall t :: 0 <= t < NSEM && t != s ==> ReleaseMany(k, s, n).queue[t] == k.queue[t]
    decreases n
  {
    if n > 0 { ReleaseManySem(ReleaseFirst(k, s), s, n - 1); }
  }

  /** A call about another semaphore does not touch `s`. */
  lemma ForeignSem(k: State, op: Op, r: Result, s: nat)
    requires Shape(k) && Next(k, op, r) && s < NSEM
    requires op.WaitOn? || op.Signal? || op.SignalN? || op.SemCreate? || op.SemDelete? || op.SemReset?
    requires op.s != s
    ensures r.k.sem[s] == k.sem[s] && r.k.queue[s] == k.queue[s]
  {
    match op
    case WaitOn(t) =>
    case Signal(t) =>
    case SignalN(t, n) => if !BadSem(t) && n >= 0 { SignalTimesOther(DeferStart(k), t, n, s); }
    case SemCreate(t, n) =>
    case SemDelete(t) => if !BadSem(t) { ReleaseManySem(DeferStart(SetSem(k, t, Sem(false, k.sem[t].count))), t, |k.queue[t]|); }
    case SemReset(t, n) => if !BadSem(t) { ReleaseManySem(DeferStart(k), t, |k.queue[t]|); }
  }

  // ----- one event

  lemma WaitConserves(e: Event, s: nat)
    requires Inv(e.before) && IsStep(e) && Inv(e.r.k) && s < NSEM && e.before.sem[s].used && e.op == WaitOn(s)
    ensures e.r.k.sem[s].used && Permits(e.r.k.sem[s]) == Permits(e.before.sem[s]) - Passes(e, s)
  {
  }

  lemma SignalConserves(e: Event, s: nat)
    requires Inv(e.before) && IsStep(e) && Inv(e.r.k) && s < NSEM && e.before.sem[s].used && e.op == Signal(s)
    ensures e.r.k.sem[s].used && Permits(e.r.k.sem[s]) == Permits(e.before.sem[s]) + Signals(e, s) - Passes(e, s)
  {
    SignalCounts(e.before, s, e.r.k);
  }

  lemma SignalCounts(k: State, s: nat, r: State)
    requires Inv(k) && s < NSEM && k.sem[s].used && r == SignalOnce(k, s)
    ensures Shape(r) && r.sem[s].used
    ensures Permits(r.sem[s]) == Permits(k.sem[s]) + 1 - (|k.queue[s]| - |r.queue[s]|)
  {
    SignalOnceKeeps(k, s, SignalOnce(k, s));
    assert |k.queue[s]| == Waiters(k.sem[s]);
  }

  lemma SignalNConserves(e: Event, s: nat)
    requires Inv(e.before) && IsStep(e) && Inv(e.r.k) && s < NSEM && e.before.sem[s].used
    requires e.op.SignalN? && e.op.s == s
    ensures e.r.k.sem[s].used && Permits(e.r.k.sem[s]) == Permits(e.before.sem[s]) + Signals(e, s) - Passes(e, s)
  {
    if e.op.n >= 0 {
      SignalNEffect(e.before, s, e.op.n, e.r.k);
      DroppedPermits(e.before.sem[s], e.op.n, e.before.queue[s]);
      assert |e.before.queue[s]| == Waiters(e.before.sem[s]);
    }
  }

  lemma DroppedPermits<T>(m: Sem, n: nat, q: seq<T>)
    requires m.used && |q| == Waiters(m)
    ensures Permits(Sem(true, m.count + n)) == Permits(m) + n - (|q| - |Dropped(q, n)|)
  {
  }

  lemma KillConserves(e: Event, s: nat)
    requires Inv(e.before) && IsStep(e) && Inv(e.r.k) && s < NSEM && e.before.sem[s].used && e.op.Kill?
    ensures e.r.k.sem[s].used && Permits(e.r.k.sem[s]) == Permits(e.before.sem[s])
  {
    var k, p := e.before, e.op.p;
    if 0 <= p < NPROC && p != NULLPROC && k.proc[p].st != Free {
      ExtractSem(k, p, k.proc[p].(st := Free));
      if k.proc[p].st == Wait && k.proc[p].sem == s {
        QueuedSomewhere(k, p);
        assert |k.queue[s]| == Waiters(k.sem[s]);
      }
    }
  }

  /** Conservation in one step: permits change by signals minus passes. */
  lemma EventConserves(e: Event, s: nat)
    requires Inv(e.before) && IsStep(e) && s < NSEM && e.before.sem[s].used && !Restarts(e.op, s)
    ensures Inv(e.r.k) && e.r.k.sem[s].used
    ensures Permits(e.r.k.sem[s]) == Permits(e.before.sem[s]) + Signals(e, s) - Passes(e, s)
  {
    EventKeeps(e);
    var op := e.op;
    if op == WaitOn(s) {
      WaitConserves(e, s);
    } else if op == Signal(s) {
      SignalConserves(e, s);
    } else if op.SignalN? && op.s == s {
      SignalNConserves(e, s);
    } else if op.WaitOn? || op.Signal? || op.SignalN? || op.SemCreate? || op.SemDelete? || op.SemReset? {
      ForeignSem(e.before, op, e.r, s);
    } else if op.Kill? {
      KillConserves(e, s);
    } else {
      OtherSem(e.before, op, e.r);
    }
  }

  /** First come, first served: waiters enter at the back, are released from the front, and a killed one just leaves. */
  ghost predicate OrderKept(e: Event, s: nat)
    requires Shape(e.before) && Shape(e.r.k) && s < NSEM
  {
    var q, q' := e.before.queue[s], e.r.k.queue[s];
    (if e.op == WaitOn(s) then q' == if e.r.out == Blocked then q + [e.before.curr] else q
     else if e.op == Signal(s) || (e.op.SignalN? && e.op.s == s) then
       0 <= Passes(e, s) <= Signals(e, s) && Passes(e, s) <= |q| && q' == q[Passes(e, s)..]
     else if e.op.Kill? && e.op.p in q then q' == RemoveAt(q, IndexOf(q, e.op.p))
     else q' == q) == true
  }

  lemma ServedInOrder(e: Event, s: nat)
    requires Inv(e.before) && IsStep(e) && s < NSEM && e.before.sem[s].used && !Restarts(e.op, s)
    ensures Shape(e.r.k) && OrderKept(e, s)
  {
    var k, op := e.before, e.op;
    EventKeeps(e);
    if op == WaitOn(s) {
      WaitAppends(e, s);
    } else if op == Signal(s) || (op.SignalN? && op.s == s) {
      SignalDrops(e, s);
    } else if op.WaitOn? || op.Signal? || op.SignalN? || op.SemCreate? || op.SemDelete? || op.SemReset? {
      ForeignSem(k, op, e.r, s);
    } else if op.Kill? {
      KillRemoves(e, s);
    } else {
      OtherSem(k, op, e.r);
    }
  }

  lemma WaitAppends(e: Event, s: nat)
    requires Inv(e.before) && IsStep(e) && s < NSEM && e.before.sem[s].used && e.op == WaitOn(s)
    ensures Shape(e.r.k) && e.r.k.queue[s] == if e.r.out == Blocked then e.before.queue[s] + [e.before.curr] else e.before.queue[s]
  {
    var q, c := e.before.queue[s], e.before.curr;
    assert InsertAt(q, |q|, c) == q + [c];
  }

  lemma SignalDrops(e: Event, s: nat)
    requires Inv(e.before) && IsStep(e) && s < NSEM && e.before.sem[s].used
    requires e.op == Signal(s) || (e.op.SignalN? && e.op.s == s)
    ensures Shape(e.r.k) && 0 <= Passes(e, s) <= |e.before.queue[s]|
    ensures e.r.k.queue[s] == e.before.queue[s][Passes(e, s)..] && Passes(e, s) <= Signals(e, s)
  {
    var k := e.before;
    if e.op.Signal? {
      SignalOnceKeeps(k, s, SignalOnce(k, s));
    } else if e.op.n >= 0 {
      SignalNEffect(k, s, e.op.n, e.r.k);
    }
  }

  lemma KillRemoves(e: Event, s: nat)
    requires Inv(e.before) && IsStep(e) && s < NSEM && e.op.Kill? && e.before.sem[s].used
    ensures Shape(e.r.k)
    ensures e.r.k.queue[s] == if e.op.p in e.before.queue[s]
                              then RemoveAt(e.before.queue[s], IndexOf(e.before.queue[s], e.op.p)) else e.before.queue[s]
  {
    assert Unfold(Processes, true);
    var k, p := e.before, e.op.p;
    if p in k.queue[s] {
      var i := IndexOf(k.queue[s], p);
      assert Place(k.proc[p]) == s && k.proc[p].st == Wait;
      QueuedSomewhere(k, p);
    }
    if 0 <= p < NPROC && p != NULLPROC && k.proc[p].st != Free {
      ExtractSem(k, p, k.proc[p].(st := Free));
    }
  }

  // ----- whole runs

  function TotalSignals(run: seq<Event>, s: int): nat {
    if run == [] then 0 else TotalSignals(run[..|run| - 1], s) + Signals(run[|run| - 1], s)
  }

  ghost function TotalPasses(run: seq<Event>, s: nat): int {
    if run == [] then 0 else TotalPasses(run[..|run| - 1], s) + Passes(run[|run| - 1], s)
  }

  /**
    Over any run in which semaphore `s` is not deleted, reset or re-created:
    passed waits equal the initial permits plus all signals minus what is still
    available, also when waiting processes are killed.
  */
  lemma {:induction false} Conservation(k: State, run: seq<Event>, s: nat)
    requires Inv(k) && IsRun(k, run) && s < NSEM && k.sem[s].used
    requires forall i :: 0 <= i < |run| ==> !Restarts(run[i].op, s)
    ensures Inv(LastState(k, run)) && LastState(k, run).sem[s].used
    ensures TotalPasses(run, s) == Permits(k.sem[s]) + TotalSignals(run, s) - Permits(LastState(k, run).sem[s])
    decreases |run|
  {
    if run != [] {
      var front, e := run[..|run| - 1], run[|run| - 1];
      RunPrefix(k, run);
      Conservation(k, front, s);
      EventConserves(e, s);
    }
  }

  /** Passed waits never exceed initial permits plus signals, and a process waits only when they are equal. */
  lemma {:induction false} WaitOnlyWhenExhausted(k: State, run: seq<Event>, s: nat)
    requires Inv(k) && IsRun(k, run) && s < NSEM && k.sem[s].used
    requires forall i :: 0 <= i < |run| ==> !Restarts(run[i].op, s)
    ensures Shape(LastState(k, run))
    ensures TotalPasses(run, s) <= Permits(k.sem[s]) + TotalSignals(run, s)
    ensures LastState(k, run).queue[s] != [] ==> TotalPasses(run, s) == Permits(k.sem[s]) + TotalSignals(run, s)
  {
    Conservation(k, run, s);
    var z := LastState(k, run);
    assert |z.queue[s]| == Waiters(z.sem[s]);
  }

  // ----- mutual exclusion

  /** The processes that the event lets past their `wait` on `s`. */
  ghost function Entered(e: Event, s: nat): set<Pid> {
    if !Shape(e.before) || s >= NSEM then {}
    else if e.op == WaitOn(s) then (if e.r.out == Ret(OK) then {e.before.curr} else {})
    else if 0 <= Passes(e, s) <= |e.before.queue[s]| then FirstOf(e.before.queue[s], Passes(e, s))
    else {}
  }

  function FirstOf(q: seq<Pid>, n: nat): set<Pid>
    requires n <= |q|
  {
    set p | p in q[..n]
  }

  /** A holder that signals has left; a killed one is gone. */
  ghost function Leavers(e: Event, s: nat): set<Pid> {
    if !Shape(e.before) || s >= NSEM then {}
    else if Signals(e, s) > 0 then {e.before.curr}
    else if e.op.Kill? && 0 <= e.op.p < NPROC then {e.op.p}
    else {}
  }

  /** The processes that passed their `wait` on `s` during the run and have not signalled since. */
  ghost function Holders(run: seq<Event>, s: nat): set<Pid> {
    if run == [] then {} else Holders(run[..|run| - 1], s) - Leavers(run[|run| - 1], s) + Entered(run[|run| - 1], s)
  }

  /** What `s` protects is used properly: only a holder signals, and only once for its own wait. */
  ghost predicate Disciplined(run: seq<Event>, s: nat) {
    forall i :: 0 <= i < |run| && Signals(run[i], s) > 0 ==>
      Signals(run[i], s) == 1 && run[i].before.curr in Holders(run[..i], s)
  }

  ghost predicate HolderKilled(run: seq<Event>, s: nat) {
    exists i :: 0 <= i < |run| && run[i].op.Kill? && run[i].op.p in Holders(run[..i], s)
  }

  lemma DisciplinedPrefix(run: seq<Event>, s: nat, i: nat)
    requires Disciplined(run, s) && i <= |run|
    ensures Disciplined(run[..i], s) && (HolderKilled(run[..i], s) ==> HolderKilled(run, s))
  {
    assert forall j :: 0 <= j < i ==> run[..i][..j] == run[..j];
  }

  lemma AtMostOne(q: seq<Pid>)
    ensures |q| <= 1 ==> |FirstOf(q, |q|)| == |q|
  {
    if |q| == 1 { assert FirstOf(q, 1) == {q[0]}; }
  }

  /** One event trades permits for holders. */
  lemma TradesPermits(e: Event, s: nat, h: set<Pid>)
    requires Inv(e.before) && IsStep(e) && s < NSEM && e.before.sem[s].used && !Restarts(e.op, s)
    requires |h| + Permits(e.before.sem[s]) <= 1 && Signals(e, s) <= 1
    requires Signals(e, s) == 1 ==> e.before.curr in h
    ensures Shape(e.r.k)
    ensures var h' := h - Leavers(e, s) + Entered(e, s);
            && |h'| + Permits(e.r.k.sem[s]) <= 1
            && (!(e.op.Kill? && e.op.p in h) ==> |h'| + Permits(e.r.k.sem[s]) == |h| + Permits(e.before.sem[s]))
  {
    EventConserves(e, s);
    ServedInOrder(e, s);
    var n := Passes(e, s);
    if Signals(e, s) == 1 {
      assert h == {e.before.curr} by { SingleHolder(h, e.before.curr); }
      AtMostOne(e.before.queue[s][..n]);
      assert e.before.queue[s][..n][..n] == e.before.queue[s][..n];
    } else if e.op == WaitOn(s) {
      if e.r.out == Ret(OK) { assert h == {}; }
    } else {
      assert Entered(e, s) == {};
      if e.op.Kill? && e.op.p in h { SingleHolder(h, e.op.p); } else { assert h - Leavers(e, s) == h; }
    }
  }

  lemma SingleHolder(h: set<Pid>, p: Pid)
    requires |h| <= 1 && p in h
    ensures h == {p}
  {
    assert |h - {p}| == 0;
  }

  lemma {:induction false} HoldersAndPermits(k: State, run: seq<Event>, s: nat)
    requires Inv(k) && IsRun(k, run) && s < NSEM && k.sem[s] == Sem(true, 1) && Disciplined(run, s)
    requires forall i :: 0 <= i < |run| ==> !Restarts(run[i].op, s)
    ensures Inv(LastState(k, run)) && LastState(k, run).sem[s].used
    ensures |Holders(run, s)| + Permits(LastState(k, run).sem[s]) <= 1
    ensures !HolderKilled(run, s) ==> |Holders(run, s)| + Permits(LastState(k, run).sem[s]) == 1
    decreases |run|
  {
    if run != [] {
      var n := |run| - 1;
      RunPrefix(k, run);
      DisciplinedPrefix(run, s, n);
      HoldersAndPermits(k, run[..n], s);
      TradesPermits(run[n], s, Holders(run[..n], s));
      EventConserves(run[n], s);
    }
  }

  /**
    Mutual exclusion: if only holders signal, a semaphore created with count one
    has at most one holder after every prefix of every run, also when waiting
    processes are killed; and unless a holder was killed, it is free whenever there is none.
  */
  lemma {:induction false} MutualExclusion(k: State, run: seq<Event>, s: nat, i: nat)
    requires Inv(k) && IsRun(k, run) && s < NSEM && k.sem[s] == Sem(true, 1) && Disciplined(run, s)
    requires (forall j :: 0 <= j < |run| ==> !Restarts(run[j].op, s)) && i <= |run|
    ensures |Holders(run[..i], s)| <= 1
    ensures Shape(LastState(k, run[..i]))
    ensures !HolderKilled(run, s) && Holders(run[..i], s) == {} ==> LastState(k, run[..i]).sem[s].count == 1
  {
    DisciplinedPrefix(run, s, i);
    var front := run[..i];
    assert forall j :: 0 <= j < |front| ==> front[j] == run[j];
    HoldersAndPermits(k, front, s);
  }
}
