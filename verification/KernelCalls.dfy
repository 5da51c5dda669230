/**
  What single calls promise their callers, told from the arguments, the results and
  the tables alone.
*/
module KernelCalls {
  import opened Common
  import opened Lists
  import opened KernelSpec
  import opened KernelInvariant
  import opened KernelProofs
  import opened KernelSemaphores

  ghost predicate OnNoQueue(k: State, p: Pid)
    requires Shape(k)
  {
    forall q, i :: 0 <= q < NQUEUES && 0 <= i < |k.queue[q]| ==> k.queue[q][i] != p
  }

  predicate RunsOrReady(pr: Proc) { pr.st == Ready || pr.st == Curr }

  lemma NowherePlaced(k: State, p: Pid)
    requires Inv(k) && Place(k.proc[p]) < 0
    ensures OnNoQueue(k, p)
  {
    assert Unfold(Processes, true);
  }

  // ----- processes

  /**
    A new process has the slot that is returned, is suspended, has the priority asked
    for and no message; nobody else is concerned. Only a priority below one or a slot
    that is not free is refused.
  */
  lemma CreateGives(e: Event)
    requires Inv(e.before) && IsStep(e) && e.op.Create?
    ensures Shape(e.r.k)
    ensures e.r.out == Ret(SYSERR) <==> e.op.prio < 1 || !(0 <= e.op.p < NPROC) || e.before.proc[e.op.p].st != Free
    ensures e.r.out == Ret(SYSERR) ==> e.r.k == e.before
    ensures e.r.out != Ret(SYSERR) ==>
              && e.r.out == Ret(e.op.p)
              && var pr := e.r.k.proc[e.op.p];
                 && pr.st == Susp && pr.prio == e.op.prio && !pr.hasmsg && e.r.k.cont[e.op.p] == Idle && OnNoQueue(e.r.k, e.op.p)
                 && e.r.k == e.before.(proc := e.before.proc[e.op.p := pr], cont := e.before.cont[e.op.p := Idle])
  {
    EventKeeps(e);
    if e.r.out != Ret(SYSERR) { NowherePlaced(e.r.k, e.op.p); }
  }

  /**
    A ready or running process is suspended and on no queue; if it was ready, its
    priority is returned and the others keep their order. All others are refused.
  */
  lemma SuspendGives(e: Event)
    requires Inv(e.before) && IsStep(e) && e.op.Suspend? && 0 <= e.op.p < NPROC
    ensures var p, st := e.op.p, e.before.proc[e.op.p].st;
            && Shape(e.r.k)
            && (p == NULLPROC || !(st == PState.Ready || st == Curr) ==> e.r.out == Ret(SYSERR) && e.r.k == e.before)
            && (p != NULLPROC && st == PState.Ready ==>
                  e.r.out == Ret(e.before.proc[p].prio) && p in e.before.queue[READYQ]
                  && e.r.k.queue[READYQ] == RemoveAt(e.before.queue[READYQ], IndexOf(e.before.queue[READYQ], p)))
            && (p != NULLPROC && st == Curr ==> e.r.out == Blocked && e.r.k.curr != p)
            && (p != NULLPROC && (st == PState.Ready || st == Curr) ==>
                  e.r.k.proc[p].st == Susp && e.r.k.proc[p].prio == e.before.proc[p].prio && OnNoQueue(e.r.k, p))
  {
    var p: Pid := e.op.p;
    EventKeeps(e);
    QueuedSomewhere(e.before, p);
    if e.before.proc[p].st == Curr {
      NowherePlaced(e.before, p);
      SelfSuspended(e, p);
    }
    if e.r.k.proc[p].st == Susp { NowherePlaced(e.r.k, p); }
  }

  lemma SelfSuspended(e: Event, p: Pid)
    requires Inv(e.before) && IsStep(e) && e.op == Op.Suspend(p) && p != NULLPROC && e.before.proc[p].st == Curr && OnNoQueue(e.before, p)
    ensures e.r.out == Blocked && Shape(e.r.k) && e.r.k.proc[p].st == Susp && e.r.k.proc[p].prio == e.before.proc[p].prio
    ensures e.r.k.curr != p
  {
    CurrIs(e.before, p);
    QueuedSomewhere(e.before, NULLPROC);
  }

  lemma CurrIs(k: State, p: Pid)
    requires Inv(k) && k.proc[p].st == Curr
    ensures p == k.curr
  {
    QueuedSomewhere(k, p);
  }

  /** Exactly a suspended process becomes ready or runs at once; its priority is returned. */
  lemma ResumeGives(e: Event)
    requires Inv(e.before) && IsStep(e) && e.op.Resume? && 0 <= e.op.p < NPROC
    ensures var p := e.op.p;
            && Shape(e.r.k)
            && (e.before.proc[p].st != Susp ==> e.r.out == Ret(SYSERR) && e.r.k == e.before)
            && (e.before.proc[p].st == Susp ==>
                  e.r.out == Ret(e.before.proc[p].prio) && e.r.k.proc[p].prio == e.before.proc[p].prio
                  && (if e.r.k.curr == p then e.r.k.proc[p].st == Curr else e.r.k.proc[p].st == PState.Ready && p in e.r.k.queue[READYQ]))
  {
    var p: Pid := e.op.p;
    EventKeeps(e);
    if e.before.proc[p].st == Susp {
      ReadiedRuns(e.before, p, e.r.k);
      QueuedSomewhere(e.r.k, p);
      RunnerRuns(e.r.k);
      if e.r.k.proc[p].st == Curr { CurrIs(e.r.k, p); }
    }
  }

  lemma RunnerRuns(k: State)
    requires Inv(k)
    ensures k.proc[k.curr].st == Curr
  {
  }

  lemma ReadiedRuns(k: State, p: Pid, r: State)
    requires Shape(k) && r == DoReady(k, p)
    ensures RunsOrReady(r.proc[p]) && r.proc[p].prio == k.proc[p].prio
  {
  }

  /** Exactly a process in use, other than the null process, ends: its slot is free and it is on no queue. */
  lemma KillGives(e: Event)
    requires Inv(e.before) && IsStep(e) && e.op.Kill? && 0 <= e.op.p < NPROC
    ensures var p := e.op.p;
            && Shape(e.r.k)
            && (p == NULLPROC || e.before.proc[p].st == Free ==> e.r.out == Ret(SYSERR) && e.r.k == e.before)
            && (p != NULLPROC && e.before.proc[p].st != Free ==>
                  (e.r.out == if e.before.proc[p].st == Curr then Blocked else Ret(OK))
                  && e.r.k.proc[p].st == Free && OnNoQueue(e.r.k, p))
  {
    var p: Pid := e.op.p;
    EventKeeps(e);
    QueuedSomewhere(e.before, p);
    if p != NULLPROC && e.before.proc[p].st != Free {
      if e.before.proc[p].st == Curr {
        CurrIs(e.before, p);
        NowherePlaced(e.before, p);
        SelfKilled(e, p);
      }
      NowherePlaced(e.r.k, p);
    }
  }

  lemma SelfKilled(e: Event, p: Pid)
    requires IsStep(e) && e.op == Op.Kill(p) && p != NULLPROC && e.before.proc[p].st == Curr && p == e.before.curr
    requires OnNoQueue(e.before, p)
    ensures Shape(e.r.k) && e.r.k.proc[p].st == Free && e.r.out == Blocked
  {
  }

  // ----- messages

  /** A message is refused exactly by a free slot and by a process that holds one; who waits for one wakes up. */
  lemma SendGives(e: Event)
    requires Inv(e.before) && IsStep(e) && e.op.Send? && 0 <= e.op.p < NPROC
    ensures var p, pr := e.op.p, e.before.proc[e.op.p];
            && Shape(e.r.k)
            && (pr.st == Free || pr.hasmsg ==> e.r.out == Ret(SYSERR) && e.r.k == e.before)
            && (pr.st != Free && !pr.hasmsg ==> e.r.out == Ret(OK) && e.r.k.proc[p].hasmsg && e.r.k.proc[p].msg == e.op.m)
            && (pr.st != Free && !pr.hasmsg && (pr.st == Recv || pr.st == RecTim) ==> RunsOrReady(e.r.k.proc[p]))
  {
    var k, p: Pid := e.before, e.op.p;
    var pr := k.proc[p].(hasmsg := true, msg := e.op.m);
    if k.proc[p].st != Free && !k.proc[p].hasmsg && (k.proc[p].st == Recv || k.proc[p].st == RecTim) {
      ExtractedIs(k, p, pr);
      ReadiedHolds(Extract(k, p, pr), p, e.r.k);
    }
  }

  lemma ExtractedIs(k: State, p: Pid, pr: Proc)
    requires Inv(k)
    ensures Extract(k, p, pr).proc[p] == pr
  {
  }

  lemma ReadiedHolds(k: State, p: Pid, r: State)
    requires Shape(k) && r == DoReady(k, p)
    ensures RunsOrReady(r.proc[p]) && r.proc[p].hasmsg == k.proc[p].hasmsg && r.proc[p].msg == k.proc[p].msg
  {
  }

  /** `recvclr` takes a message that is there, and waits for none. */
  lemma RecvClrGives(e: Event)
    requires Inv(e.before) && IsStep(e) && e.op == RecvClr
    ensures var pr := e.before.proc[e.before.curr];
            && e.r.out == (if pr.hasmsg then Ret(pr.msg) else Ret(OK))
            && e.r.k == e.before.(proc := e.before.proc[e.before.curr := pr.(hasmsg := false)])
  {
    var pr := e.before.proc[e.before.curr];
    if !pr.hasmsg { assert e.before.proc[e.before.curr := pr.(hasmsg := false)] == e.before.proc; }
  }

  // ----- semaphores

  /** A new semaphore has the count asked for and nobody waits; no other changes. */
  lemma SemCreateGives(e: Event)
    requires Inv(e.before) && IsStep(e) && e.op.SemCreate?
    ensures e.r.out == Ret(SYSERR) <==> e.op.n < 0 || !(0 <= e.op.s < NSEM) || e.before.sem[e.op.s].used
    ensures e.r.out == Ret(SYSERR) ==> e.r.k == e.before
    ensures e.r.out != Ret(SYSERR) ==>
              e.r.out == Ret(e.op.s) && e.r.k == e.before.(sem := e.before.sem[e.op.s := Sem(true, e.op.n)])
              && e.before.queue[e.op.s] == []
  {
    if e.r.out != Ret(SYSERR) { assert |e.before.queue[e.op.s]| == Waiters(e.before.sem[e.op.s]); }
  }

  lemma {:induction false} ManyReady(k: State, s: nat, n: nat, r: State, x: Pid)
    requires Shape(k) && k.ndefers > 0 && s < NSEM && r == ReleaseMany(k, s, n)
    requires k.proc[x].st == PState.Ready || (n >= |k.queue[s]| && x in k.queue[s])
    ensures r.proc[x].st == PState.Ready
    decreases n
  {
    if n > 0 {
      var m := ReleaseFirst(k, s);
      if k.queue[s] != [] { FirstReady(k, s, m, x); }
      ManyReady(m, s, n - 1, r, x);
    }
  }

  lemma FirstReady(k: State, s: nat, m: State, x: Pid)
    requires Shape(k) && k.ndefers > 0 && s < NSEM && k.queue[s] != [] && m == ReleaseFirst(k, s)
    ensures m.ndefers > 0 && m.queue[s] == k.queue[s][1..] && m.proc[k.queue[s][0]].st == PState.Ready
    ensures k.proc[x].st == PState.Ready ==> m.proc[x].st == PState.Ready
  {
    assert RemoveAt(k.queue[s], 0) == k.queue[s][1..];
  }

  lemma StopKeepsReady(k: State, r: State, x: Pid)
    requires Shape(k) && k.proc[x].st == PState.Ready && r == DeferStop(k)
    ensures RunsOrReady(r.proc[x])
  {
  }

  lemma AllReleased(k: State, s: nat, c: int, r: State)
    requires Shape(k) && s < NSEM && k.ndefers >= 0 && r == ReleaseAll(k, s, c)
    ensures forall x: Pid :: x in k.queue[s] ==> RunsOrReady(r.proc[x])
  {
    forall x: Pid | x in k.queue[s] ensures RunsOrReady(r.proc[x]) {
      var m := ReleaseMany(DeferStart(k), s, |k.queue[s]|);
      ManyReady(DeferStart(k), s, |k.queue[s]|, m, x);
      StopKeepsReady(SetCount(m, s, c), r, x);
    }
  }

  /** After a reset the semaphore has the count asked for, nobody waits, and all who did are ready. */
  lemma SemResetGives(e: Event)
    requires Inv(e.before) && IsStep(e) && e.op.SemReset? && 0 <= e.op.s < NSEM
    ensures Shape(e.r.k)
    ensures e.op.n < 0 || !e.before.sem[e.op.s].used ==> e.r.out == Ret(SYSERR) && e.r.k == e.before
    ensures e.op.n >= 0 && e.before.sem[e.op.s].used ==>
              && e.r.out == Ret(OK) && e.r.k.sem == e.before.sem[e.op.s := Sem(true, e.op.n)] && e.r.k.queue[e.op.s] == []
              && forall x: Pid :: x in e.before.queue[e.op.s] ==> RunsOrReady(e.r.k.proc[x])
  {
    var s := e.op.s;
    if e.op.n >= 0 && e.before.sem[s].used {
      AllReleased(e.before, s, e.op.n, e.r.k);
      ReleaseManySem(DeferStart(e.before), s, |e.before.queue[s]|);
      EventKeeps(e);
      NobodyWaits(e.r.k, s);
    }
  }

  /** A deleted semaphore is free, and all who waited are ready. */
  lemma SemDeleteGives(e: Event)
    requires Inv(e.before) && IsStep(e) && e.op.SemDelete? && 0 <= e.op.s < NSEM
    ensures Shape(e.r.k)
    ensures !e.before.sem[e.op.s].used ==> e.r.out == Ret(SYSERR) && e.r.k == e.before
    ensures e.before.sem[e.op.s].used ==>
              && e.r.out == Ret(OK) && !e.r.k.sem[e.op.s].used && e.r.k.queue[e.op.s] == []
              && forall x: Pid :: x in e.before.queue[e.op.s] ==> RunsOrReady(e.r.k.proc[x])
  {
    var k, s := e.before, e.op.s;
    if k.sem[s].used {
      var k1 := SetSem(k, s, Sem(false, k.sem[s].count));
      AllReleased(k1, s, k.sem[s].count + |k.queue[s]| + 1, e.r.k);
      ReleaseManySem(DeferStart(k1), s, |k.queue[s]|);
      EventKeeps(e);
      NobodyWaits(e.r.k, s);
    }
  }

  lemma NobodyWaits(k: State, s: nat)
    requires Inv(k) && s < NSEM && (!k.sem[s].used || k.sem[s].count >= 0)
    ensures k.queue[s] == []
  {
    assert |k.queue[s]| == Waiters(k.sem[s]);
  }

  /** A run that starts with the creation of the semaphore with count 1 and uses it properly from then on. */
  ghost predicate Created(k: State, run: seq<Event>, s: nat) {
    (run != [] && IsRun(k, run) && run[0].op == SemCreate(s, 1) && run[0].r.out == Ret(s)
     && Disciplined(run[1..], s) && forall j :: 1 <= j < |run| ==> !Restarts(run[j].op, s)) == true
  }

  /** Mutual exclusion from the call that creates the semaphore on. */
  lemma {:induction false} ExclusionFromCreate(k: State, run: seq<Event>, s: nat, i: nat)
    requires Inv(k) && s < NSEM && Created(k, run, s) && 1 <= i <= |run|
    ensures |Holders(run[1..i], s)| <= 1
  {
    NewSem(k, run, s);
    TailInUse(k, run, s);
    ExclusionInUse(run[0].r.k, run[1..], s, i - 1);
    assert run[1..][..i - 1] == run[1..i];
  }

  /** A run in which the semaphore is used properly and stays what it is. */
  ghost predicate InUse(k: State, run: seq<Event>, s: nat) {
    (IsRun(k, run) && Disciplined(run, s) && forall j :: 0 <= j < |run| ==> !Restarts(run[j].op, s)) == true
  }

  lemma TailInUse(k: State, run: seq<Event>, s: nat)
    requires Created(k, run, s)
    ensures run != [] && InUse(run[0].r.k, run[1..], s)
  {
    TailRuns(k, run);
  }

  lemma {:induction false} ExclusionInUse(k: State, run: seq<Event>, s: nat, i: nat)
    requires Inv(k) && s < NSEM && k.sem[s] == Sem(true, 1) && InUse(k, run, s) && i <= |run|
    ensures |Holders(run[..i], s)| <= 1
  {
    MutualExclusion(k, run, s, i);
  }

  lemma NewSem(k: State, run: seq<Event>, s: nat)
    requires Inv(k) && s < NSEM && Created(k, run, s)
    ensures run != [] && Inv(run[0].r.k) && run[0].r.k.sem[s] == Sem(true, 1)
  {
    SemCreateGives(run[0]);
    EventKeeps(run[0]);
  }

  lemma TailRuns(k: State, run: seq<Event>)
    requires IsRun(k, run) && run != []
    ensures IsRun(run[0].r.k, run[1..])
  {
    var rest := run[1..];
    forall a | 0 <= a < |rest| ensures IsStep(rest[a]) { assert rest[a] == run[a + 1]; }
    forall a, b | 0 <= a < b < |rest| && b == a + 1 ensures rest[b].before == rest[a].r.k { assert run[b + 1].before == run[a + 1].r.k; }
    if rest != [] { assert run[1].before == run[0].r.k; }
  }
}
