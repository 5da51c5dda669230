/** The process manager over its tables, each call proved to take the step that the transition system describes. */
module Kernel {
  import opened Common
  import opened Lists
  import opened KernelSpec
  import opened KernelInvariant
  import opened KernelProofs
  import opened QueueLinks
  import opened Queues

  /** What `resched` relies on: the caller is on no queue, or somebody else is ready. */
  ghost predicate CanSwitch(k: State)
    requires Shape(k)
  {
    k.ndefers > 0 || if k.proc[k.curr].st == Curr then Absent(k.queue, k.curr) && k.proc[k.curr].prio > MINKEY
                     else k.queue[READYQ] != []
  }

  lemma CoreSwitches(k: State)
    requires Core(k, NOBODY)
    ensures CanSwitch(k)
  {
    assert Unfold(Processes, true);
    if k.proc[k.curr].st == Curr {
      assert ProcOK(k.proc[k.curr], k.cont[k.curr], k.curr, k.curr);
      NowhereAbsent(k, k.curr);
    } else {
      NullIsReady(k);
    }
  }

  lemma NowhereAbsent(k: State, p: Pid)
    requires Core(k, NOBODY) && Place(k.proc[p]) < 0
    ensures Absent(k.queue, p)
  {
    assert Unfold(Processes, true);
  }

  /** The running process is on no queue, and the null process can take over from any other. */
  lemma CallerIs(k: State, p: Pid)
    requires Inv(k) && k.proc[p].st == Curr
    ensures p == k.curr
  {
    assert Unfold(Processes, true);
    assert ProcOK(k.proc[p], k.cont[p], p, k.curr);
  }

  lemma CallerMayBlock(k: State)
    requires Inv(k)
    ensures Absent(k.queue, k.curr) && k.proc[k.curr].st == Curr
    ensures k.curr != NULLPROC ==> k.queue[READYQ] != []
  {
    NowhereAbsent(k, k.curr);
    QueuedSomewhere(k, NULLPROC);
  }

  lemma TransitAbsent(k: State, p: Pid)
    requires Core(k, p)
    ensures Absent(k.queue, p)
  {
    assert Unfold(Processes, true);
  }

  ghost predicate ReadyTo(k: State, p: Pid)
    requires Shape(k)
  {
    Core(k, p) && ProcOK(k.proc[p].(st := PState.Ready), k.cont[p], p, k.curr)
  }

  /** A waiter at the head of its queue may be readied. */
  lemma HeadReadies(k: State, q: nat)
    requires Running(k) && q < NQUEUES && q != READYQ && k.queue[q] != []
    ensures var p := k.queue[q][0];
            !BadPid(k, p) && ReadyTo(Take(k, q, 0, k.proc[p]), p)
  {
    assert Unfold(Processes, true);
    var p := k.queue[q][0];
    assert Place(k.proc[p]) == q && ProcOK(k.proc[p], k.cont[p], p, k.curr);
    TakeCore(k, q, 0, k.proc[p]);
  }

  /** Taking a process out and changing it afterwards is one edit. */
  lemma ExtractAlter(k: State, p: Pid, pr: Proc)
    requires Shape(k)
    ensures Alter(Extract(k, p, k.proc[p]), p, pr) == Extract(k, p, pr)
  {
  }

  /** Filling the slot before or after leaving the sleep queue is the same. */
  lemma {:induction false} SlotThenQueue(k: State, p: Pid, pr: Proc, r: State)
    requires Shape(k) && k.proc[p].st == RecTim && p in k.queue[SLEEPQ]
    requires r == TakeDelta(Alter(k, p, pr), IndexOf(k.queue[SLEEPQ], p), pr)
    ensures r == Extract(k, p, pr)
  {
    var i := IndexOf(k.queue[SLEEPQ], p);
    assert Alter(k, p, pr).proc[p := pr] == k.proc[p := pr];
  }

  /** A receiver that gets its message may be readied. */
  lemma SendReady(k: State, p: Pid, pr: Proc)
    requires Inv(k) && !k.proc[p].hasmsg && pr.hasmsg && pr == k.proc[p].(hasmsg := true, msg := pr.msg)
    ensures pr.st == Recv || pr.st == RecTim ==> ReadyTo(Extract(k, p, pr), p)
  {
    QueuedSomewhere(k, p);
    if pr.st == Recv || pr.st == RecTim {
      ExtractTransit(k, p, pr);
      ExtractProc(k, p, pr);
    }
  }

  lemma TickedRuns(k: State)
    requires Inv(k) && k.queue[SLEEPQ] != []
    ensures Running(AddDelta(k, 0, -1))
  {
    AddDeltaCore(k, 0, -1);
    assert Unfold(Processes, true);
  }

  lemma InsertedIsPut(k: State, p: Pid, pr: Proc, d: int, r: State)
    requires Shape(k) && Shape(r) && !BadPid(k, p) && Absent(k.queue, p) && r == k.(proc := k.proc[p := pr], queue := r.queue, key := r.key)
    requires QueueTable.Inserted(k.queue, k.key, r.queue, r.key, p, SLEEPQ, d)
    ensures r == PutDelta(k, p, pr, d)
  {
  }

  /** Releasing `n` waiters and then setting the count ends in `goal`. */
  ghost predicate DrainsTo(k: State, s: nat, n: nat, top: int, goal: State) {
    (Shape(k) && s < NSEM && forall w :: Unfold(Goals, w) ==> SetCount(ReleaseMany(k, s, n), s, top) == goal) == true
  }

  /** Between two turns: the count is one ahead of the waiters left. */
  ghost predicate Draining(k: State, s: nat, c: int, top: int, goal: State) {
    (&& Shape(k) && s < NSEM && InvBut(k, s) && k.sem[s].count == c + 1 && |k.queue[s]| == (if c < 0 then -c else 0)
     && c + |k.queue[s]| + 1 == top && DrainsTo(k, s, |k.queue[s]|, top, goal)) == true
  }

  lemma DrainOnce(k: State, s: nat, n: nat, top: int, goal: State, m: State)
    requires DrainsTo(k, s, n, top, goal) && n > 0 && m == ReleaseFirst(k, s)
    ensures DrainsTo(m, s, n - 1, top, goal)
  {
    assert Unfold(Goals, true);
  }

  lemma DrainStep(k: State, s: nat, n: nat, top: int, goal: State, m: State, r: State)
    requires DrainsTo(k, s, n, top, goal) && n > 0 && m == ReleaseFirst(k, s)
    requires Shape(r) && r == SetSem(m, s, r.sem[s]) && r.sem[s] == m.sem[s].(count := r.sem[s].count)
    ensures DrainsTo(r, s, n - 1, top, goal)
  {
    DrainOnce(k, s, n, top, goal, m);
    DrainsEdit(m, s, n - 1, top, goal, r);
  }

  lemma DrainsEdit(k: State, s: nat, n: nat, top: int, goal: State, r: State)
    requires DrainsTo(k, s, n, top, goal)
    requires Shape(r) && r == SetSem(k, s, r.sem[s]) && r.sem[s] == k.sem[s].(count := r.sem[s].count)
    ensures DrainsTo(r, s, n, top, goal)
  {
    assert Unfold(Goals, true);
    DrainEdit(k, r, s, n, top);
  }

  lemma DrainDone(k: State, s: nat, top: int, goal: State)
    requires DrainsTo(k, s, 0, top, goal) && k.sem[s].count == top
    ensures k == goal
  {
    assert Unfold(Goals, true);
    assert SetCount(k, s, top) == k;
  }

  lemma SameSems(k: State, s: nat)
    requires Shape(k) && s < NSEM
    ensures ReleaseFirst(k, s).sem == k.sem
  {
  }

  lemma SemCore(k: State, s: nat, e: Sem)
    requires Core(k, NOBODY) && s < NSEM
    ensures Core(SetSem(k, s, e), NOBODY)
  {
  }

  /** A count that will be overwritten does not matter. */
  lemma {:induction false} DrainEdit(k: State, r: State, s: nat, n: nat, top: int)
    requires Shape(k) && Shape(r) && s < NSEM && r == SetSem(k, s, r.sem[s]) && r.sem[s] == k.sem[s].(count := r.sem[s].count)
    ensures SetCount(ReleaseMany(r, s, n), s, top) == SetCount(ReleaseMany(k, s, n), s, top)
  {
    ReleaseManySems(k, s, n, r.sem);
    ReleaseManySems(k, s, n, k.sem);
    assert k.(sem := k.sem) == k;
  }

  lemma {:induction false} ReleaseManySems(k: State, s: nat, n: nat, e: seq<Sem>)
    requires Shape(k) && s < NSEM && |e| == NSEM
    ensures ReleaseMany(k.(sem := e), s, n) == ReleaseMany(k, s, n).(sem := e)
    decreases n
  {
    if n > 0 {
      ReleaseFirstSems(k, s, e);
      ReleaseManySems(ReleaseFirst(k, s), s, n - 1, e);
    }
  }

  /** Moving waiters does not look at the counts. */
  lemma ReleaseFirstSems(k: State, s: nat, e: seq<Sem>)
    requires Shape(k) && s < NSEM && |e| == NSEM
    ensures ReleaseFirst(k.(sem := e), s) == ReleaseFirst(k, s).(sem := e)
  {
    if k.queue[s] != [] {
      var p := k.queue[s][0];
      var k1 := MakeReady(Take(k, s, 0, k.proc[p]), p);
      ReschedSems(k1, e);
    }
  }

  lemma ReschedSems(k: State, e: seq<Sem>)
    requires Shape(k) && |e| == NSEM
    ensures KernelSpec.Resched(k.(sem := e)) == KernelSpec.Resched(k).(sem := e)
  {
  }

  class System {
    const qt: QueueTable
    const proctab: array<Proc>
    const semtab: array<Sem>       // the queue of semaphore `s` is queue number `s`
    var currpid: Pid
    var ndefers: int
    var attempt: bool
    var preempt: int
    var nextsem: nat
    var nextpid: nat
    var cont: seq<Cont>            // where each switched-out process continues

    ghost predicate Valid()
      reads this, qt, qt.tab, proctab, semtab
    {
      && proctab.Length == NPROC && semtab.Length == NSEM && |cont| == NPROC && nextsem < NSEM
      && qt.proctab == proctab && qt.Valid() && |qt.queues| == NQUEUES
    }

    ghost function Abs(): (k: State)
      requires Valid()
      reads this, qt, qt.tab, proctab, semtab
      ensures Shape(k)
    {
      State(proctab[..], qt.queues, Keys(qt.tab[..]), semtab[..], currpid, ndefers, attempt, preempt, cont)
    }

    /** The table set-up of system initialisation: all queues are created here. */
    constructor ()
      ensures Valid() && Abs() == Boot()
    {
      var procs := new Proc[NPROC](i => if i == 0 then Proc(Curr, 0, -1, false, 0) else Proc(Free, 0, -1, false, 0));
      semtab := new Sem[NSEM](i => Sem(false, 0));
      currpid, ndefers, attempt, preempt, nextsem, nextpid := NULLPROC, 0, false, QUANTUM, 0, 1;
      cont := seq(NPROC, i => Idle);
      proctab := procs;
      qt := new QueueTable(procs);
      new;
      var i := 0;
      while i < NQUEUES
        invariant 0 <= i <= NQUEUES && qt.Valid() && qt.proctab == proctab && |qt.queues| == i
        invariant forall k :: 0 <= k < i ==> qt.queues[k] == []
        invariant Keys(qt.tab[..]) == seq(NPROC, i => 0)
        invariant proctab[..] == Boot().proc && semtab[..] == Boot().sem
        invariant currpid == NULLPROC && ndefers == 0 && !attempt && preempt == QUANTUM && nextsem == 0
        invariant cont == Boot().cont
        invariant fresh(qt) && fresh(qt.tab) && fresh(proctab) && fresh(semtab)
        modifies qt, qt.tab
      {
        var q := qt.NewQueue();
        i := i + 1;
      }
      assert qt.queues == Boot().queue;
    }

    method Resched()
      requires Valid() && CanSwitch(Abs())
      modifies this, qt, qt.tab, proctab
      ensures Valid() && Abs() == KernelSpec.Resched(old(Abs()))
    {
      if ndefers > 0 {
        attempt := true;
        return;
      }
      var old_ := proctab[currpid];
      if old_.st == Curr {
        qt.FirstEntry(READYQ);
        var first := qt.tab[Head(READYQ)].qnext;
        if old_.prio > qt.tab[first].qkey { return; }
        proctab[currpid] := old_.(st := PState.Ready);
        var _ := qt.Insert(currpid, Head(READYQ), old_.prio, READYQ);
        assert Abs() == MakeReady(old(Abs()), currpid);
      }
      SwitchTo();
    }

    method SwitchTo()
      requires Valid() && qt.queues[READYQ] != []
      modifies this, qt, qt.tab, proctab
      ensures Valid() && Abs() == Switch(old(Abs()))
    {
      currpid := qt.Dequeue(Head(READYQ), READYQ);
      proctab[currpid] := proctab[currpid].(st := Curr);
      preempt := QUANTUM;
    }

    method ReschedCntl(start: bool) returns (r: int)
      requires Valid() && Core(Abs(), NOBODY)
      modifies this, qt, qt.tab, proctab
      ensures Valid() && Abs() == if start then DeferStart(old(Abs())) else DeferStop(old(Abs()))
      ensures r == if !start && old(ndefers) <= 0 then SYSERR else OK
    {
      if start {
        if ndefers == 0 { attempt := false; }
        ndefers := ndefers + 1;
        return OK;
      }
      if ndefers <= 0 { return SYSERR; }
      ndefers := ndefers - 1;
      if ndefers == 0 && attempt {
        assert Core(Abs(), NOBODY);
        CoreSwitches(Abs());
        Resched();
      }
      return OK;
    }

    /** `p` has been taken off its queue and still has its old state. */
    method Ready(p: int) returns (r: int)
      requires Valid() && (BadPid(Abs(), p) || ReadyTo(Abs(), p))
      modifies this, qt, qt.tab, proctab
      ensures Valid()
      ensures if BadPid(old(Abs()), p) then r == SYSERR && Abs() == old(Abs()) else r == OK && Abs() == DoReady(old(Abs()), p)
    {
      if qt.BadPid(p) { return SYSERR; }
      TransitAbsent(Abs(), p);
      MakeReadyCore(Abs(), p);
      CoreSwitches(MakeReady(Abs(), p));
      proctab[p] := proctab[p].(st := PState.Ready);
      var _ := qt.Insert(p, Head(READYQ), proctab[p].prio, READYQ);
      assert Abs() == MakeReady(old(Abs()), p);
      Resched();
      return OK;
    }

    /** One `signal`: the count goes up and the first waiter, if any, is readied. */
    method Post(s: nat)
      requires Valid() && s < NSEM && Inv(Abs()) && semtab[s].used
      modifies this, qt, qt.tab, proctab, semtab
      ensures Valid() && Abs() == SignalOnce(old(Abs()), s) && Inv(Abs()) && semtab[s].used
    {
      SignalOnceKeeps(Abs(), s, SignalOnce(Abs(), s));
      var c := semtab[s].count;
      semtab[s] := semtab[s].(count := c + 1);
      SemEditKeeps(old(Abs()), s, semtab[s]);
      if c < 0 { Release(s); }
    }

    /** Takes the first waiter off its queue and readies it. */
    method Release(s: nat)
      requires Valid() && s < NSEM && InvBut(Abs(), s) && qt.queues[s] != []
      modifies this, qt, qt.tab, proctab
      ensures Valid() && Abs() == ReleaseFirst(old(Abs()), s)
    {
      HeadReadies(Abs(), s);
      var p := qt.Dequeue(Head(s), s);
      assert Abs() == Take(old(Abs()), s, 0, proctab[p]);
      var _ := Ready(p);
    }

    method Signal(s: int) returns (out: Out)
      requires Valid() && Inv(Abs())
      modifies this, qt, qt.tab, proctab, semtab
      ensures Valid() && Result(Abs(), out) == DoSignal(old(Abs()), s) && Inv(Abs())
    {
      if BadSem(s) { return Ret(SYSERR); }
      if !semtab[s].used { return Ret(SYSERR); }
      Post(s);
      return Ret(OK);
    }

    method SignalN(s: int, n: int) returns (out: Out)
      requires Valid() && Inv(Abs())
      modifies this, qt, qt.tab, proctab, semtab
      ensures Valid() && Result(Abs(), out) == DoSignalN(old(Abs()), s, n) && Inv(Abs())
    {
      if BadSem(s) || n < 0 { return Ret(SYSERR); }
      if !semtab[s].used { return Ret(SYSERR); }
      SignalNKeeps(Abs(), s, n);
      DeferStartKeeps(Abs(), NOBODY);
      var _ := ReschedCntl(true);
      ghost var k := Abs();
      PostMany(s, n, SignalTimes(k, s, n));
      var _ := ReschedCntl(false);
      return Ret(OK);
    }

    method PostMany(s: nat, n: nat, ghost goal: State)
      requires Valid() && s < NSEM && Inv(Abs()) && semtab[s].used && SignalsTo(Abs(), s, n, goal)
      modifies this, qt, qt.tab, proctab, semtab
      ensures Valid() && Abs() == goal && Inv(Abs())
    {
      var count := n;
      ghost var k := Abs();
      while count > 0
        invariant 0 <= count <= n && Valid() && k == Abs() && Inv(k) && semtab[s].used && SignalsTo(k, s, count, goal)
      {
        k := PostOne(s, count, goal);
        count := count - 1;
      }
      SignalsDone(k, s, goal);
    }

    /** One turn of that loop. */
    method PostOne(s: nat, ghost n: nat, ghost goal: State) returns (ghost k: State)
      requires Valid() && s < NSEM && Inv(Abs()) && semtab[s].used && n > 0 && SignalsTo(Abs(), s, n, goal)
      modifies this, qt, qt.tab, proctab, semtab
      ensures Valid() && k == Abs() && Inv(k) && semtab[s].used && SignalsTo(k, s, n - 1, goal)
    {
      ghost var k0 := Abs();
      Post(s);
      k := Abs();
      SignalsStep(k0, s, n, goal, k);
    }

    method Wait(s: int) returns (out: Out)
      requires Valid() && Inv(Abs()) && Enabled(Abs(), WaitOn(s))
      modifies this, qt, qt.tab, proctab, semtab
      ensures Valid() && Result(Abs(), out) == DoWait(old(Abs()), s) && Inv(Abs())
    {
      WaitKeeps(Abs(), s);
      if BadSem(s) { return Ret(SYSERR); }
      if !semtab[s].used { return Ret(SYSERR); }
      semtab[s] := semtab[s].(count := semtab[s].count - 1);
      if semtab[s].count >= 0 { return Ret(OK); }
      ghost var k := Abs();
      CallerMayBlock(old(Abs()));
      proctab[currpid] := proctab[currpid].(st := PState.Wait, sem := s);
      var _ := qt.Enqueue(currpid, Head(s), s);
      assert Abs() == Put(k, currpid, proctab[currpid], s, |k.queue[s]|, k.key[currpid]);
      Resched();
      return Blocked;
    }

    /** The round-robin scan for a free table entry. */
    method NewSem() returns (s: int)
      requires Valid()
      modifies this`nextsem, semtab
      ensures Valid()
      ensures if s == SYSERR then semtab[..] == old(semtab[..]) && forall i :: 0 <= i < NSEM ==> semtab[i].used
              else 0 <= s < NSEM && !old(semtab[..])[s].used && semtab[..] == old(semtab[..])[s := old(semtab[..])[s].(used := true)]
    {
      var i := 0;
      ghost var start := nextsem;
      while i < NSEM
        invariant 0 <= i <= NSEM && Valid() && semtab[..] == old(semtab[..])
        invariant nextsem == if start + i < NSEM then start + i else start + i - NSEM
        invariant forall j :: start <= j < start + i && j < NSEM ==> semtab[j].used
        invariant forall j :: 0 <= j < start + i - NSEM ==> semtab[j].used
      {
        s := nextsem;
        nextsem := nextsem + 1;
        if nextsem >= NSEM { nextsem := 0; }
        if !semtab[s].used {
          semtab[s] := semtab[s].(used := true);
          return;
        }
        i := i + 1;
      }
      return SYSERR;
    }

    /** `s` tells which free entry was found, or is out of range if there is none. */
    method SemCreate(n: int) returns (out: Out, ghost s: int)
      requires Valid() && Inv(Abs())
      modifies this`nextsem, semtab
      ensures Valid() && Result(Abs(), out) == DoSemCreate(old(Abs()), s, n) && Inv(Abs())
      ensures n >= 0 && (exists i :: 0 <= i < NSEM && !old(semtab[..])[i].used) ==> out != Ret(SYSERR)
    {
      if n < 0 { return Ret(SYSERR), -1; }
      var e := NewSem();
      s := e;
      if e == SYSERR { return Ret(SYSERR), s; }
      SemCreateKeeps(old(Abs()), s, n);
      semtab[e] := semtab[e].(count := n);
      return Ret(e), s;
    }

    /** The count goes up by one. */
    method CountUp(s: nat) returns (c: int, ghost k: State)
      requires Valid() && s < NSEM && InvBut(Abs(), s)
      modifies semtab
      ensures Valid() && c == old(semtab[s].count) && semtab[s].count == c + 1 && k == Abs()
      ensures k == SetSem(old(Abs()), s, old(semtab[s]).(count := c + 1)) && InvBut(k, s)
    {
      c := semtab[s].count;
      semtab[s] := semtab[s].(count := c + 1);
      k := Abs();
      SemEditKeeps(old(Abs()), s, semtab[s]);
    }

    /** Counts up to one past zero, readying a waiter for every step from below zero. */
    method Drain(s: nat, ghost top: int, ghost goal: State)
      requires Valid() && s < NSEM && InvBut(Abs(), s)
      requires |qt.queues[s]| == if semtab[s].count < 0 then -semtab[s].count else 0
      requires top == semtab[s].count + |qt.queues[s]| + 1 && DrainsTo(Abs(), s, |qt.queues[s]|, top, goal)
      modifies this, qt, qt.tab, proctab, semtab
      ensures Valid() && Abs() == goal && Core(Abs(), NOBODY)
    {
      ghost var k0 := Abs();
      var c;
      ghost var k;
      c, k := CountUp(s);
      DrainsEdit(k0, s, |k0.queue[s]|, top, goal, k);
      while c < 0
        invariant Valid() && k == Abs() && Draining(k, s, c, top, goal)
        decreases -c
      {
        c, k := DrainOne(s, c, top, goal);
      }
      DrainDone(k, s, top, goal);
    }

    /** One turn of that loop. */
    method DrainOne(s: nat, c: int, ghost top: int, ghost goal: State) returns (c': int, ghost k: State)
      requires Valid() && Draining(Abs(), s, c, top, goal) && c < 0
      modifies this, qt, qt.tab, proctab, semtab
      ensures Valid() && k == Abs() && c' == c + 1 && Draining(k, s, c', top, goal)
    {
      ghost var k0 := Abs();
      var _ := ReadyFirst(s);
      ghost var k1 := Abs();
      SameSems(k0, s);
      c', k := CountUp(s);
      DrainStep(k0, s, |k0.queue[s]|, top, goal, k1, k);
    }

    /** The entry is free, and rescheduling is put off. */
    method Unmark(s: nat)
      requires Valid() && Inv(Abs()) && s < NSEM
      modifies this, qt, qt.tab, proctab, semtab
      ensures Valid() && Abs() == DeferStart(SetSem(old(Abs()), s, Sem(false, old(semtab[s].count)))) && InvBut(Abs(), s)
    {
      semtab[s] := semtab[s].(used := false);
      SemEditKeeps(old(Abs()), s, semtab[s]);
      DeferStartKeeps(Abs(), s);
      var _ := ReschedCntl(true);
    }

    method SemDelete(s: int) returns (out: Out)
      requires Valid() && Inv(Abs())
      modifies this, qt, qt.tab, proctab, semtab
      ensures Valid() && Result(Abs(), out) == DoSemDelete(old(Abs()), s) && Inv(Abs())
    {
      if BadSem(s) { return Ret(SYSERR); }
      if !semtab[s].used { return Ret(SYSERR); }
      SemDeleteKeeps(Abs(), s);
      Unmark(s);
      ghost var k := Abs();
      ghost var top := k.sem[s].count + |k.queue[s]| + 1;
      Drain(s, top, SetCount(ReleaseMany(k, s, |k.queue[s]|), s, top));
      var _ := ReschedCntl(false);
      return Ret(OK);
    }

    method SemReset(s: int, n: int) returns (out: Out)
      requires Valid() && Inv(Abs())
      modifies this, qt, qt.tab, proctab, semtab
      ensures Valid() && Result(Abs(), out) == DoSemReset(old(Abs()), s, n) && Inv(Abs())
    {
      if n < 0 || BadSem(s) || !semtab[s].used { return Ret(SYSERR); }
      SemResetKeeps(Abs(), s, n);
      DeferStartKeeps(Abs(), s);
      var _ := ReschedCntl(true);
      ghost var k0 := Abs();
      ReadyAll(s, ReleaseMany(k0, s, |k0.queue[s]|));
      ghost var k := Abs();
      semtab[s] := semtab[s].(count := n);
      SemCore(k, s, semtab[s]);
      var _ := ReschedCntl(false);
      return Ret(OK);
    }

    method ReadyAll(s: nat, ghost goal: State)
      requires Valid() && s < NSEM && InvBut(Abs(), s) && ReleasesTo(Abs(), s, |qt.queues[s]|, goal)
      modifies this, qt, qt.tab, proctab
      ensures Valid() && Abs() == goal && Core(Abs(), NOBODY)
    {
      ghost var left := |qt.queues[s]|;
      ghost var k := Abs();
      var more := true;
      while more
        invariant Valid() && k == Abs() && InvBut(k, s) && left == |qt.queues[s]| && (!more ==> left == 0)
        invariant ReleasesTo(k, s, left, goal)
        decreases left, more
      {
        more, k := ReadyNext(s, left, goal);
        left := if more then left - 1 else 0;
      }
      ReleasesDone(k, s, goal);
    }

    /** One turn of the loop that takes waiters until there is none. */
    method ReadyNext(s: nat, ghost left: nat, ghost goal: State) returns (more: bool, ghost k: State)
      requires Valid() && s < NSEM && InvBut(Abs(), s) && left == |qt.queues[s]| && ReleasesTo(Abs(), s, left, goal)
      modifies this, qt, qt.tab, proctab
      ensures Valid() && k == Abs() && InvBut(k, s) && more == (left > 0)
      ensures |qt.queues[s]| == (if more then left - 1 else 0) && ReleasesTo(k, s, |qt.queues[s]|, goal)
    {
      ghost var k0 := Abs();
      more := ReadyFirst(s);
      k := Abs();
      if more { ReleasesStep(k0, s, left, goal, k); }
    }

    /** Takes the first waiter, if there is one, and readies it. */
    method ReadyFirst(s: nat) returns (more: bool)
      requires Valid() && s < NSEM && InvBut(Abs(), s)
      modifies this, qt, qt.tab, proctab
      ensures Valid() && Abs() == ReleaseFirst(old(Abs()), s) && more == (old(qt.queues[s]) != [])
      ensures InvBut(Abs(), s) && |qt.queues[s]| == old(|qt.queues[s]|) - if more then 1 else 0
    {
      ghost var k := Abs();
      if k.queue[s] != [] {
        HeadReadies(k, s);
        ReleaseFirstKeeps(k, s, ReleaseFirst(k, s));
      }
      var p := qt.GetFirst(Head(s), s);
      more := p != EMPTY;
      if more {
        assert Abs() == Take(k, s, 0, proctab[p]);
        var _ := Ready(p);
      }
    }

    // ----- processes

    /** The round-robin scan for a free process slot. */
    method NewPid() returns (p: int)
      requires Valid()
      modifies this`nextpid
      ensures if p == SYSERR then forall i :: 0 <= i < NPROC ==> proctab[i].st != Free
              else 0 <= p < NPROC && proctab[p].st == Free
    {
      var i := 0;
      nextpid := nextpid % NPROC;
      ghost var start := nextpid;
      while i < NPROC
        invariant 0 <= i <= NPROC && start < NPROC
        invariant nextpid == if start + i <= NPROC then start + i else start + i - NPROC
        invariant forall j :: start <= j < start + i && j < NPROC ==> proctab[j].st != Free
        invariant forall j :: 0 <= j < start + i - NPROC ==> proctab[j].st != Free
      {
        nextpid := nextpid % NPROC;
        if proctab[nextpid].st == Free {
          p := nextpid;
          nextpid := nextpid + 1;
          return;
        }
        nextpid := nextpid + 1;
        i := i + 1;
      }
      return SYSERR;
    }

    /** `p` tells which slot was found; `stack` is whether there was memory for the stack. */
    method Create(prio: int, stack: bool) returns (out: Out, ghost p: int)
      requires Valid() && Inv(Abs())
      modifies this, proctab
      ensures Valid() && Result(Abs(), out) == DoCreate(old(Abs()), p, prio) && Inv(Abs())
      ensures stack && prio >= 1 && (exists i :: 0 <= i < NPROC && old(proctab[..])[i].st == Free) ==> out != Ret(SYSERR)
    {
      if !stack { return Ret(SYSERR), -1; }
      var q := NewPid();
      p := q;
      if q == SYSERR || prio < 1 { return Ret(SYSERR), -1; }
      CreateKeeps(Abs(), q, prio);
      proctab[q] := Proc(Susp, prio, -1, false, proctab[q].msg);
      cont := cont[q := Idle];
      return Ret(q), p;
    }

    /** Takes a process off the sleep queue early; the next sleeper inherits its delta. */
    method Unsleep(p: int) returns (r: int)
      requires Valid()
      requires !BadPid(Abs(), p) && Place(proctab[p]) == SLEEPQ ==> p in qt.queues[SLEEPQ]
      modifies qt, qt.tab
      ensures Valid()
      ensures var k := old(Abs());
              if BadPid(k, p) || !(k.proc[p].st == PState.Sleep || k.proc[p].st == RecTim) then r == SYSERR && Abs() == k
              else r == OK && p in k.queue[SLEEPQ] && Abs() == TakeDelta(k, IndexOf(k.queue[SLEEPQ], p as Pid), k.proc[p])
    {
      if qt.BadPid(p) { return SYSERR; }
      if proctab[p].st != PState.Sleep && proctab[p].st != RecTim { return SYSERR; }
      ghost var i := IndexOf(qt.queues[SLEEPQ], p as Pid);
      NodeAt(qt.tab[..], qt.queues, SLEEPQ, i);
      NodeAt(qt.tab[..], qt.queues, SLEEPQ, i + 1);
      ghost var t := qt.tab[..];
      var next := qt.tab[p].qnext;
      if next < NPROC {
        qt.tab[next] := qt.tab[next].(qkey := qt.tab[next].qkey + qt.tab[p].qkey);
        EntryEditKeeps(t, qt.queues, next, qt.tab[next], qt.tab[..]);
      }
      assert Abs() == AddDelta(old(Abs()), i + 1, Keys(t)[p]);
      var _ := qt.GetItem(p, SLEEPQ, i);
      return OK;
    }

    /** Takes a queued process off the ready list or its semaphore's queue. */
    method Unqueue(p: Pid, ghost q: nat)
      requires Valid() && q < NQUEUES && p in qt.queues[q]
      modifies qt, qt.tab
      ensures Valid() && Abs() == Take(old(Abs()), q, IndexOf(old(qt.queues[q]), p), proctab[p])
    {
      var _ := qt.GetItem(p, q, IndexOf(qt.queues[q], p));
    }

    method Kill(p: int) returns (out: Out)
      requires Valid() && Inv(Abs()) && Enabled(Abs(), Op.Kill(p))
      modifies this, qt, qt.tab, proctab, semtab
      ensures Valid() && Result(Abs(), out) == DoKill(old(Abs()), p) && Inv(Abs())
    {
      KillKeeps(Abs(), p);
      if qt.BadPid(p) || p == NULLPROC || proctab[p].st == Free { return Ret(SYSERR); }
      QueuedSomewhere(Abs(), p);
      var st := proctab[p].st;
      if st == Curr {
        EndSelf(p);
        return Blocked;
      }
      Dequeued(p);
      proctab[p] := proctab[p].(st := Free);
      cont := cont[p := Idle];
      ExtractAlter(old(Abs()), p, proctab[p]);
      return Ret(OK);
    }

    /** The caller ends itself. */
    method EndSelf(p: Pid)
      requires Valid() && Inv(Abs()) && Enabled(Abs(), Op.Kill(p)) && p != NULLPROC && proctab[p].st == Curr
      modifies this, qt, qt.tab, proctab
      ensures Valid() && Result(Abs(), Blocked) == DoKill(old(Abs()), p)
    {
      CallerIs(Abs(), p);
      CallerMayBlock(Abs());
      proctab[p] := proctab[p].(st := Free);
      cont := cont[p := Idle];
      Resched();
    }

    /** The switch on the victim's state. */
    method Dequeued(p: Pid)
      requires Valid() && Inv(Abs()) && !BadPid(Abs(), p)
      modifies this, qt, qt.tab, semtab
      ensures Valid() && Abs() == Extract(old(Abs()), p, old(proctab[p]))
    {
      QueuedSomewhere(Abs(), p);
      var st := proctab[p].st;
      if st == PState.Sleep || st == RecTim {
        var _ := Unsleep(p);
      } else if st == PState.Wait {
        var s := proctab[p].sem;
        semtab[s] := semtab[s].(count := semtab[s].count + 1);
        Unqueue(p, s);
      } else if st == PState.Ready {
        Unqueue(p, READYQ);
      } else {
        assert Abs() == Alter(Abs(), p, proctab[p]);
      }
    }

    method Suspend(p: int) returns (out: Out)
      requires Valid() && Inv(Abs()) && Enabled(Abs(), Op.Suspend(p))
      modifies this, qt, qt.tab, proctab, semtab
      ensures Valid() && Result(Abs(), out) == DoSuspend(old(Abs()), p) && Inv(Abs())
    {
      SuspendKeeps(Abs(), p);
      if qt.BadPid(p) || p == NULLPROC { return Ret(SYSERR); }
      QueuedSomewhere(Abs(), p);
      if proctab[p].st != Curr && proctab[p].st != PState.Ready { return Ret(SYSERR); }
      if proctab[p].st == PState.Ready {
        Unqueue(p, READYQ);
        proctab[p] := proctab[p].(st := Susp);
        return Ret(proctab[p].prio);
      } else {
        CallerMayBlock(Abs());
        proctab[p] := proctab[p].(st := Susp);
        Resched();
        return Blocked;
      }
    }

    method Resume(p: int) returns (out: Out)
      requires Valid() && Inv(Abs())
      modifies this, qt, qt.tab, proctab, semtab
      ensures Valid() && Result(Abs(), out) == DoResume(old(Abs()), p) && Inv(Abs())
    {
      ResumeKeeps(Abs(), p);
      if qt.BadPid(p) { return Ret(SYSERR); }
      if proctab[p].st != Susp { return Ret(SYSERR); }
      QueuedSomewhere(Abs(), p);
      Detach(Abs(), p);
      var prio := proctab[p].prio;
      var _ := Ready(p);
      return Ret(prio);
    }

    // ----- messages

    method Send(p: int, m: int) returns (out: Out)
      requires Valid() && Inv(Abs())
      modifies this, qt, qt.tab, proctab, semtab
      ensures Valid() && Result(Abs(), out) == DoSend(old(Abs()), p, m) && Inv(Abs())
    {
      SendKeeps(Abs(), p, m);
      if qt.BadPid(p) { return Ret(SYSERR); }
      if proctab[p].hasmsg { return Ret(SYSERR); }
      ghost var k, pr := Abs(), proctab[p].(hasmsg := true, msg := m);
      SendReady(k, p, pr);
      QueuedSomewhere(k, p);
      proctab[p] := proctab[p].(hasmsg := true, msg := m);
      if proctab[p].st == Recv {
        var _ := Ready(p);
      } else if proctab[p].st == RecTim {
        var _ := Unsleep(p);
        SlotThenQueue(k, p, pr, Abs());
        var _ := Ready(p);
      }
      return Ret(OK);
    }

    /** The caller takes its message out of the slot. */
    method Collect() returns (m: int)
      requires Valid()
      modifies proctab
      ensures Valid() && Result(Abs(), Ret(m)) == TakeMessage(old(Abs()))
    {
      m := proctab[currpid].msg;
      proctab[currpid] := proctab[currpid].(hasmsg := false);
    }

    method Receive() returns (out: Out)
      requires Valid() && Inv(Abs()) && Enabled(Abs(), Op.Receive)
      modifies this, qt, qt.tab, proctab
      ensures Valid() && Result(Abs(), out) == DoReceive(old(Abs())) && Inv(Abs())
    {
      ReceiveKeeps(Abs());
      if !proctab[currpid].hasmsg {
        CallerMayBlock(Abs());
        proctab[currpid] := proctab[currpid].(st := Recv);
        cont := cont[currpid := InReceive];
        Resched();
        return Blocked;
      }
      var m := Collect();
      return Ret(m);
    }

    /** Puts the caller on the sleep queue in state `st`. */
    method Delay(d: int, st: PState)
      requires Valid() && !BadPid(Abs(), currpid) && Absent(qt.queues, currpid)
      modifies qt, qt.tab, proctab
      ensures Valid() && Abs() == PutDelta(old(Abs()), currpid, old(proctab[currpid]).(st := st), d)
    {
      var _ := qt.InsertD(currpid, Head(SLEEPQ), d, SLEEPQ);
      proctab[currpid] := proctab[currpid].(st := st);
      InsertedIsPut(old(Abs()), currpid, proctab[currpid], d, Abs());
    }

    method RecvTime(d: int) returns (out: Out)
      requires Valid() && Inv(Abs()) && Enabled(Abs(), Op.RecvTime(d))
      modifies this, qt, qt.tab, proctab
      ensures Valid() && Result(Abs(), out) == DoRecvTime(old(Abs()), d) && Inv(Abs())
    {
      RecvTimeKeeps(Abs(), d);
      if d < 0 { return Ret(SYSERR); }
      if !proctab[currpid].hasmsg {
        CallerMayBlock(Abs());
        cont := cont[currpid := InRecvTime];
        Delay(d, RecTim);
        Resched();
        return Blocked;
      }
      var m := Collect();
      return Ret(m);
    }

    method RecvClr() returns (out: Out)
      requires Valid() && Inv(Abs()) && Enabled(Abs(), Op.RecvClr)
      modifies this, proctab
      ensures Valid() && Result(Abs(), out) == DoRecvClr(old(Abs())) && Inv(Abs())
    {
      if !proctab[currpid].hasmsg { return Ret(OK); }
      TakeMessageKeeps(Abs());
      var m := Collect();
      return Ret(m);
    }

    method SleepMs(d: int) returns (out: Out)
      requires Valid() && Inv(Abs()) && Enabled(Abs(), Op.SleepMs(d))
      modifies this, qt, qt.tab, proctab
      ensures Valid() && Result(Abs(), out) == DoSleepMs(old(Abs()), d) && Inv(Abs())
    {
      SleepMsKeeps(Abs(), d);
      if d < 0 { return Ret(SYSERR); }
      if d == 0 {
        CoreSwitches(Abs());
        Resched();
        return Ret(OK);
      }
      CallerMayBlock(Abs());
      Delay(d, PState.Sleep);
      Resched();
      return Blocked;
    }

    // ----- the clock

    /** Readies every sleeper whose time has come. */
    method WakeUp()
      requires Valid() && Running(Abs())
      modifies this, qt, qt.tab, proctab
      ensures Valid() && Abs() == DeferStop(WakeAll(DeferStart(old(Abs()))))
    {
      DeferStartRuns(Abs());
      var _ := ReschedCntl(true);
      WakeExpired();
      var _ := ReschedCntl(false);
    }

    predicate Expired()
      requires Valid()
      reads this, qt, qt.tab, proctab, semtab
      ensures Expired() <==> qt.queues[SLEEPQ] != [] && FirstKey(Abs(), SLEEPQ) <= 0
    {
      qt.FirstEntry(SLEEPQ);
      !qt.IsEmpty(Head(SLEEPQ)) && qt.tab[qt.tab[Head(SLEEPQ)].qnext].qkey <= 0
    }

    method WakeExpired()
      requires Valid() && Running(Abs())
      modifies this, qt, qt.tab, proctab
      ensures Valid() && Running(Abs()) && Abs() == WakeAll(old(Abs()))
    {
      while Expired()
        invariant Valid() && Running(Abs()) && WakeAll(Abs()) == WakeAll(old(Abs()))
        decreases |qt.queues[SLEEPQ]|
      {
        WakeOne();
      }
    }

    method WakeOne()
      requires Valid() && Running(Abs()) && qt.queues[SLEEPQ] != [] && FirstKey(Abs(), SLEEPQ) <= 0
      modifies this, qt, qt.tab, proctab
      ensures Valid() && Running(Abs()) && |qt.queues[SLEEPQ]| < old(|qt.queues[SLEEPQ]|)
      ensures WakeAll(Abs()) == WakeAll(old(Abs()))
    {
      WakeFirstRuns(Abs(), WakeFirst(Abs()));
      HeadReadies(Abs(), SLEEPQ);
      var p := qt.Dequeue(Head(SLEEPQ), SLEEPQ);
      assert Abs() == Take(old(Abs()), SLEEPQ, 0, proctab[p]);
      var _ := Ready(p);
    }

    /** One tick: the first sleeper's delta counts down, then the time slice. */
    method ClkHandler() returns (out: Out)
      requires Valid() && Inv(Abs()) && Enabled(Abs(), Tick)
      modifies this, qt, qt.tab, proctab
      ensures Valid() && Result(Abs(), out) == DoTick(old(Abs())) && Inv(Abs())
    {
      TickKeeps(Abs());
      CountSleepKeeps(Abs());
      var caller := currpid;
      TickSleepers();
      if currpid != caller {
        cont := cont[caller := InTick];
        return Ret(OK);
      }
      TickSlice();
      return Ret(OK);
    }

    method TickSleepers()
      requires Valid() && Inv(Abs())
      modifies this, qt, qt.tab, proctab
      ensures Valid() && Abs() == CountSleep(old(Abs()))
    {
      qt.FirstEntry(SLEEPQ);
      if !qt.IsEmpty(Head(SLEEPQ)) {
        ghost var t := qt.tab[..];
        var first := qt.tab[Head(SLEEPQ)].qnext;
        qt.tab[first] := qt.tab[first].(qkey := qt.tab[first].qkey - 1);
        EntryEditKeeps(t, qt.queues, first, qt.tab[first], qt.tab[..]);
        assert Abs() == AddDelta(old(Abs()), 0, -1);
        TickedRuns(old(Abs()));
        if qt.tab[first].qkey == 0 { WakeUp(); }
      }
    }

    method TickSlice()
      requires Valid() && Inv(Abs())
      modifies this, qt, qt.tab, proctab
      ensures Valid() && Abs() == CountSlice(old(Abs()))
    {
      preempt := preempt - 1;
      if preempt == 0 {
        preempt := QUANTUM;
        SetPreempt(old(Abs()), QUANTUM);
        CoreSwitches(Abs());
        Resched();
      }
    }

    /** A process that was switched out inside a call goes on from there. */
    method Finish() returns (out: Out)
      requires Valid() && Inv(Abs())
      modifies this, qt, qt.tab, proctab
      ensures Valid() && Result(Abs(), out) == DoFinish(old(Abs())) && Inv(Abs())
    {
      FinishKeeps(Abs());
      SetIdleKeeps(Abs());
      var c := cont[currpid];
      if c == Idle { return Ret(OK); }
      cont := cont[currpid := Idle];
      if c == InTick {
        TickSlice();
        return Ret(OK);
      }
      if c == InRecvTime && !proctab[currpid].hasmsg { return Ret(TIMEOUT); }
      var m := Collect();
      return Ret(m);
    }

    method Yield() returns (out: Out)
      requires Valid() && Inv(Abs())
      modifies this, qt, qt.tab, proctab
      ensures Valid() && Result(Abs(), out) == Result(KernelSpec.Resched(old(Abs())), Ret(OK)) && Inv(Abs())
    {
      ReschedKeeps(Abs(), KernelSpec.Resched(Abs()));
      CoreSwitches(Abs());
      Resched();
      return Ret(OK);
    }

    // ----- whole runs

    predicate GivesUp(op: Op)
      requires Valid()
      reads this, qt, qt.tab, proctab, semtab
      ensures GivesUp(op) == Blocks(Abs(), op)
    {
      match op
      case WaitOn(s) => !BadSem(s) && semtab[s].used && semtab[s].count <= 0
      case Receive => !proctab[currpid].hasmsg
      case RecvTime(d) => !proctab[currpid].hasmsg
      case SleepMs(d) => d > 0
      case Kill(p) => p == currpid
      case Suspend(p) => p == currpid
      case _ => false
    }

    /** Whether the call may be made now. */
    predicate Allows(op: Op)
      requires Valid()
      reads this, qt, qt.tab, proctab, semtab
      ensures Allows(op) == Enabled(Abs(), op)
    {
      && (op.Finish? <==> cont[currpid] != Idle)
      && (GivesUp(op) ==> currpid != NULLPROC && ndefers == 0)
      && (op == Op.RecvTime(0) ==> proctab[currpid].hasmsg)
    }

    /** `made` is the call as made, with the table entry that a scan found. */
    method PerformSem(op: Op) returns (out: Out, ghost made: Op)
      requires Valid() && Inv(Abs()) && Enabled(Abs(), op)
      requires op.WaitOn? || op.Signal? || op.SignalN? || op.SemCreate? || op.SemDelete? || op.SemReset?
      modifies this, qt, qt.tab, proctab, semtab
      ensures Valid() && SameCall(op, made) && Next(old(Abs()), made, Result(Abs(), out)) && Inv(Abs())
    {
      made := op;
      match op
      case WaitOn(s) => out := Wait(s);
      case Signal(s) => out := Signal(s);
      case SignalN(s, n) => out := SignalN(s, n);
      case SemCreate(_, n) =>
        ghost var s;
        out, s := SemCreate(n);
        made := Op.SemCreate(s, n);
      case SemDelete(s) => out := SemDelete(s);
      case SemReset(s, n) => out := SemReset(s, n);
    }

    method PerformProc(op: Op) returns (out: Out, ghost made: Op)
      requires Valid() && Inv(Abs()) && Enabled(Abs(), op)
      requires op.Create? || op.Kill? || op.Suspend? || op.Resume? || op.Send?
      modifies this, qt, qt.tab, proctab, semtab
      ensures Valid() && SameCall(op, made) && Next(old(Abs()), made, Result(Abs(), out)) && Inv(Abs())
    {
      made := op;
      match op
      case Create(_, prio) =>
        ghost var p;
        out, p := Create(prio, true);
        made := Op.Create(p, prio);
      case Kill(p) => out := Kill(p);
      case Suspend(p) => out := Suspend(p);
      case Resume(p) => out := Resume(p);
      case Send(p, m) => out := Send(p, m);
    }

    method PerformReceive(op: Op) returns (out: Out)
      requires Valid() && Inv(Abs()) && Enabled(Abs(), op) && (op.Receive? || op.RecvTime? || op.RecvClr?)
      modifies this, qt, qt.tab, proctab, semtab
      ensures Valid() && Next(old(Abs()), op, Result(Abs(), out)) && Inv(Abs())
    {
      match op
      case Receive => out := Receive();
      case RecvTime(d) => out := RecvTime(d);
      case RecvClr => out := RecvClr();
    }

    method PerformTime(op: Op) returns (out: Out)
      requires Valid() && Inv(Abs()) && Enabled(Abs(), op) && (op.SleepMs? || op.Yield? || op.Tick? || op.Finish?)
      modifies this, qt, qt.tab, proctab, semtab
      ensures Valid() && Next(old(Abs()), op, Result(Abs(), out)) && Inv(Abs())
    {
      match op
      case SleepMs(d) => out := SleepMs(d);
      case Yield => out := Yield();
      case Tick => out := ClkHandler();
      case Finish => out := Finish();
    }

    method PerformDefer(start: bool) returns (out: Out)
      requires Valid() && Inv(Abs())
      modifies this, qt, qt.tab, proctab
      ensures Valid() && Result(Abs(), out) == DoDefer(old(Abs()), start) && Inv(Abs())
    {
      DeferKeeps(Abs(), start);
      var r := ReschedCntl(start);
      return Ret(r);
    }

    method Perform(op: Op) returns (out: Out, ghost made: Op)
      requires Valid() && Inv(Abs()) && Enabled(Abs(), op)
      modifies this, qt, qt.tab, proctab, semtab
      ensures Valid() && SameCall(op, made) && Next(old(Abs()), made, Result(Abs(), out)) && Inv(Abs())
    {
      made := op;
      if op.WaitOn? || op.Signal? || op.SignalN? || op.SemCreate? || op.SemDelete? || op.SemReset? {
        out, made := PerformSem(op);
      } else if op.Create? || op.Kill? || op.Suspend? || op.Resume? || op.Send? {
        out, made := PerformProc(op);
      } else if op.Defer? {
        out := PerformDefer(op.start);
      } else {
        if op.Receive? || op.RecvTime? || op.RecvClr? { out := PerformReceive(op); } else { out := PerformTime(op); }
      }
    }

    /**
      Makes the calls one after another, up to one that may not be made in its
      state. What happened is a run of the transition system.
    */
    method Execute(ops: seq<Op>) returns (done: nat, outs: seq<Out>, ghost run: seq<Event>)
      requires Valid() && Inv(Abs())
      modifies this, qt, qt.tab, proctab, semtab
      ensures Valid() && Inv(Abs()) && done <= |ops| && (done < |ops| ==> !Enabled(Abs(), ops[done]))
      ensures IsRun(old(Abs()), run) && Abs() == LastState(old(Abs()), run) && Made(ops, run, outs, done)
    {
      done, outs, run := 0, [], [];
      ghost var k := Abs();
      while done < |ops|
        invariant done <= |ops| && Valid() && Inv(Abs()) && Abs() == LastState(k, run)
        invariant IsRun(k, run) && Made(ops, run, outs, done)
      {
        if !Allows(ops[done]) { return; }
        ghost var before := Abs();
        ghost var made;
        var out;
        out, made := Perform(ops[done]);
        ghost var e := Event(before, made, Result(Abs(), out));
        MadeMore(ops, run, outs, done, e);
        RunAppend(k, run, e);
        outs, run, done := outs + [out], run + [e], done + 1;
      }
    }
  }

  /** The same call, except for the entry that a table scan finds. */
  ghost predicate SameCall(op: Op, made: Op) {
    || made == op
    || (op.SemCreate? && made.SemCreate? && made.n == op.n)
    || (op.Create? && made.Create? && made.prio == op.prio)
  }

  /** The run consists of the first `n` calls with their results. */
  ghost predicate Made(ops: seq<Op>, run: seq<Event>, outs: seq<Out>, n: nat) {
    && |run| == |outs| == n <= |ops|
    && forall i :: 0 <= i < n ==> SameCall(ops[i], run[i].op) && run[i].r.out == outs[i]
  }

  lemma MadeMore(ops: seq<Op>, run: seq<Event>, outs: seq<Out>, n: nat, e: Event)
    requires Made(ops, run, outs, n) && n < |ops| && SameCall(ops[n], e.op) && Shape(e.before) && Enabled(e.before, ops[n])
    requires Next(e.before, e.op, e.r)
    ensures Made(ops, run + [e], outs + [e.r.out], n + 1) && IsStep(e)
  {
  }
}
