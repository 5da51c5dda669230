/**
  One-slot messages over whole runs: every message that `send` accepted is handed
  to its process exactly once and in order, and `receive` never returns without one.
*/
module KernelMessages {
  import opened Common
  import opened Lists
  import opened KernelSpec
  import opened KernelInvariant
  import opened KernelProofs

  /** The unread message of a process, if any. */
  function Slot(pr: Proc): seq<int> {
    if pr.hasmsg then [pr.msg] else []
  }

  ghost predicate SlotsSame(k: State, r: State) {
    (Shape(k) && Shape(r) && forall p: Pid :: Slot(r.proc[p]) == Slot(k.proc[p])) == true
  }

  lemma SlotsTrans(a: State, b: State, c: State)
    requires SlotsSame(a, b) && SlotsSame(b, c)
    ensures SlotsSame(a, c)
  {
  }

  // ----- what leaves all slots alone

  lemma MakeReadySlots(k: State, x: Pid)
    requires Shape(k)
    ensures SlotsSame(k, MakeReady(k, x))
  {
  }

  lemma SwitchSlots(k: State)
    requires Shape(k)
    ensures SlotsSame(k, Switch(k))
  {
  }

  lemma ReschedSlots(k: State, r: State)
    requires Shape(k) && r == Resched(k)
    ensures SlotsSame(k, r)
  {
    SwitchSlots(k);
    MakeReadySlots(k, k.curr);
    SwitchSlots(MakeReady(k, k.curr));
  }

  lemma DoReadySlots(k: State, x: Pid, r: State)
    requires Shape(k) && r == DoReady(k, x)
    ensures SlotsSame(k, r)
  {
    MakeReadySlots(k, x);
    ReschedSlots(MakeReady(k, x), r);
    SlotsTrans(k, MakeReady(k, x), r);
  }

  lemma DeferStopSlots(k: State, r: State)
    requires Shape(k) && r == DeferStop(k)
    ensures SlotsSame(k, r)
  {
    if k.ndefers == 1 && k.attempt { ReschedSlots(k.(ndefers := 0), r); }
  }

  lemma ReleaseFirstSlots(k: State, s: nat, r: State)
    requires Shape(k) && s < NSEM && r == ReleaseFirst(k, s)
    ensures SlotsSame(k, r)
  {
    if k.queue[s] != [] {
      var p := k.queue[s][0];
      DoReadySlots(Take(k, s, 0, k.proc[p]), p, r);
    }
  }

  lemma {:induction false} ReleaseManySlots(k: State, s: nat, n: nat, r: State)
    requires Shape(k) && s < NSEM && r == ReleaseMany(k, s, n)
    ensures SlotsSame(k, r)
    decreases n
  {
    if n > 0 {
      var m := ReleaseFirst(k, s);
      ReleaseFirstSlots(k, s, m);
      ReleaseManySlots(m, s, n - 1, r);
      SlotsTrans(k, m, r);
    }
  }

  lemma SignalOnceSlots(k: State, s: nat, r: State)
    requires Shape(k) && s < NSEM && r == SignalOnce(k, s)
    ensures SlotsSame(k, r)
  {
    if k.sem[s].count < 0 { ReleaseFirstSlots(SetCount(k, s, k.sem[s].count + 1), s, r); }
  }

  lemma {:induction false} SignalTimesSlots(k: State, s: nat, n: nat, r: State)
    requires Shape(k) && s < NSEM && r == SignalTimes(k, s, n)
    ensures SlotsSame(k, r)
    decreases n
  {
    if n > 0 {
      var m := SignalOnce(k, s);
      SignalOnceSlots(k, s, m);
      SignalTimesSlots(m, s, n - 1, r);
      SlotsTrans(k, m, r);
    }
  }

  lemma ReleaseAllSlots(k: State, s: nat, c: int, r: State)
    requires Shape(k) && s < NSEM && r == ReleaseAll(k, s, c)
    ensures SlotsSame(k, r)
  {
    var k1 := ReleaseMany(DeferStart(k), s, |k.queue[s]|);
    ReleaseManySlots(DeferStart(k), s, |k.queue[s]|, k1);
    DeferStopSlots(SetCount(k1, s, c), r);
  }

  lemma {:induction false} WakeAllSlots(k: State, r: State)
    requires Shape(k) && r == WakeAll(k)
    ensures SlotsSame(k, r)
    decreases |k.queue[SLEEPQ]|
  {
    if !(k.queue[SLEEPQ] == [] || FirstKey(k, SLEEPQ) > 0) {
      var p := k.queue[SLEEPQ][0];
      var k1 := Take(k, SLEEPQ, 0, k.proc[p]);
      var m := DoReady(k1, p);
      DoReadySlots(k1, p, m);
      WakeAllSlots(m, r);
      SlotsTrans(k, m, r);
    }
  }

  lemma CountSleepSlots(k: State, r: State)
    requires Shape(k) && r == CountSleep(k)
    ensures SlotsSame(k, r)
  {
    if k.queue[SLEEPQ] != [] {
      var k1 := AddDelta(k, 0, -1);
      if FirstKey(k1, SLEEPQ) == 0 {
        var k2 := WakeAll(DeferStart(k1));
        WakeAllSlots(DeferStart(k1), k2);
        DeferStopSlots(k2, r);
        SlotsTrans(DeferStart(k1), k2, r);
      }
    }
  }

  lemma CountSliceSlots(k: State, r: State)
    requires Shape(k) && r == CountSlice(k)
    ensures SlotsSame(k, r)
  {
    if k.preempt == 1 { ReschedSlots(k.(preempt := QUANTUM), r); }
  }

  lemma TickSlots(k: State, r: State)
    requires Shape(k) && r == DoTick(k).k
    ensures SlotsSame(k, r)
  {
    var k1 := CountSleep(k);
    CountSleepSlots(k, k1);
    if k1.curr == k.curr {
      CountSliceSlots(k1, r);
      SlotsTrans(k, k1, r);
    }
  }

  lemma WaitSlots(k: State, s: nat, r: State)
    requires Shape(k) && s < NSEM && r == DoWait(k, s).k
    ensures SlotsSame(k, r)
  {
    if k.sem[s].used && k.sem[s].count <= 0 {
      var k1 := SetCount(k, s, k.sem[s].count - 1);
      ReschedSlots(Put(k1, k1.curr, k1.proc[k1.curr].(st := Wait, sem := s), s, |k1.queue[s]|, k1.key[k1.curr]), r);
    }
  }

  lemma {:induction false} SignalNSlots(k: State, s: nat, n: nat, r: State)
    requires Shape(k) && s < NSEM && r == DeferStop(SignalTimes(DeferStart(k), s, n))
    ensures SlotsSame(k, r)
  {
    var k1 := SignalTimes(DeferStart(k), s, n);
    SignalTimesSlots(DeferStart(k), s, n, k1);
    DeferStopSlots(k1, r);
    SlotsTrans(DeferStart(k), k1, r);
  }

  lemma SemCallSlots(k: State, op: Op, r: Result)
    requires Shape(k) && Next(k, op, r)
    requires op.WaitOn? || op.Signal? || op.SignalN? || op.SemCreate? || op.SemDelete? || op.SemReset?
    ensures SlotsSame(k, r.k)
  {
    if BadSem(op.s) || (!k.sem[op.s].used && !op.SemCreate?) { return; }
    var s := op.s;
    match op
    case WaitOn(_) => WaitSlots(k, s, r.k);
    case Signal(_) => SignalOnceSlots(k, s, r.k);
    case SignalN(_, n) => if n >= 0 { SignalNSlots(k, s, n, r.k); }
    case SemCreate(_, n) =>
    case SemDelete(_) => ReleaseAllSlots(SetSem(k, s, Sem(false, k.sem[s].count)), s, k.sem[s].count + |k.queue[s]| + 1, r.k);
    case SemReset(_, n) => if n >= 0 { ReleaseAllSlots(k, s, n, r.k); }
  }

  lemma ExtractSlots(k: State, p: Pid, pr: Proc, r: State)
    requires Shape(k) && (r == Extract(k, p, pr) || r == SetCont(Extract(k, p, pr), p, Idle))
    ensures Shape(r) && r.proc[p] == pr && forall x: Pid :: x != p ==> Slot(r.proc[x]) == Slot(k.proc[x])
  {
  }

  lemma KillSlots(k: State, p: int, r: Result)
    requires Shape(k) && r == DoKill(k, p)
    ensures SlotsSame(k, r.k)
  {
    if 0 <= p < NPROC && p != NULLPROC && k.proc[p].st != Free {
      var k1 := SetCont(Extract(k, p, k.proc[p].(st := Free)), p, Idle);
      ExtractSlots(k, p, k.proc[p].(st := Free), k1);
      assert SlotsSame(k, k1);
      if k.proc[p].st == Curr { ReschedSlots(k1, r.k); SlotsTrans(k, k1, r.k); }
    }
  }

  lemma SuspendSlots(k: State, p: int, r: Result)
    requires Shape(k) && r == DoSuspend(k, p)
    ensures SlotsSame(k, r.k)
  {
    if !BadPid(k, p) && p != NULLPROC {
      var k1 := Extract(k, p, k.proc[p].(st := Susp));
      ExtractSlots(k, p, k.proc[p].(st := Susp), k1);
      assert SlotsSame(k, k1);
      if k.proc[p].st == Curr { ReschedSlots(k1, r.k); SlotsTrans(k, k1, r.k); }
    }
  }

  lemma OtherCallSlots(k: State, op: Op, r: Result)
    requires Shape(k) && Next(k, op, r)
    requires op.Kill? || op.Suspend? || op.Resume? || op.SleepMs? || op.Yield? || op.Tick? || op.Defer?
    ensures SlotsSame(k, r.k)
  {
    match op
    case Kill(p) => KillSlots(k, p, r);
    case Suspend(p) => SuspendSlots(k, p, r);
    case Resume(p) => if !(BadPid(k, p) || k.proc[p].st != Susp) { DoReadySlots(k, p, r.k); }
    case SleepMs(d) =>
      if d == 0 { ReschedSlots(k, r.k); }
      if d > 0 { ReschedSlots(PutDelta(k, k.curr, k.proc[k.curr].(st := Sleep), d), r.k); }
    case Yield => ReschedSlots(k, r.k);
    case Tick => TickSlots(k, r.k);
    case Defer(start) => if !start { DeferStopSlots(k, r.k); }
  }

  // ----- one event

  /** The message that the event puts into the slot of `p`. */
  function Delivered(e: Event, p: Pid): seq<int> {
    if e.op.Send? && e.op.p == p && e.r.out == Ret(OK) then [e.op.m] else []
  }

  /** The event hands a message to the running process. */
  ghost predicate Hands(e: Event) {
    Shape(e.before) &&
    match e.op
    case Receive => e.before.proc[e.before.curr].hasmsg
    case RecvTime(d) => d >= 0 && e.before.proc[e.before.curr].hasmsg
    case RecvClr => e.before.proc[e.before.curr].hasmsg
    case Finish => e.before.cont[e.before.curr] == InReceive ||
                   (e.before.cont[e.before.curr] == InRecvTime && e.before.proc[e.before.curr].hasmsg)
    case _ => false
  }

  /** The message that process `p` gets back from the event. */
  ghost function Returned(e: Event, p: Pid): seq<int> {
    if e.before.curr == p && Hands(e) && e.r.out.Ret? then [e.r.out.v] else []
  }

  /** `receive` never returns without a message. */
  lemma ReceiveHasMessage(e: Event)
    requires Inv(e.before) && IsStep(e) && (e.op == Receive || (e.op == Finish && e.before.cont[e.before.curr] == InReceive))
    ensures e.r.out.Ret? <==> e.before.proc[e.before.curr].hasmsg
    ensures e.r.out.Ret? ==> e.r.out.v == e.before.proc[e.before.curr].msg
    ensures e.op == Finish ==> e.r.out.Ret?
  {
    assert Unfold(Processes, true);
    var k := e.before;
    assert ProcOK(k.proc[k.curr], k.cont[k.curr], k.curr, k.curr);
  }

  /** `recvtime` reports a timeout only if no message is there. */
  lemma TimeoutMeansNone(e: Event)
    requires Inv(e.before) && IsStep(e) && e.op == Finish && e.before.cont[e.before.curr] == InRecvTime
    ensures e.before.proc[e.before.curr].hasmsg ==> e.r.out == Ret(e.before.proc[e.before.curr].msg)
    ensures !e.before.proc[e.before.curr].hasmsg ==> e.r.out == Ret(TIMEOUT)
  {
  }

  /** A process that waits for a message holds none. */
  lemma WaitingHoldsNone(k: State, p: Pid)
    requires Inv(k) && (k.proc[p].st == Recv || k.proc[p].st == RecTim)
    ensures Slot(k.proc[p]) == []
  {
    assert Unfold(Processes, true);
    assert ProcOK(k.proc[p], k.cont[p], p, k.curr);
  }

  lemma SendBalances(e: Event, p: Pid)
    requires Inv(e.before) && IsStep(e) && e.op.Send?
    ensures Shape(e.r.k) && Slot(e.before.proc[p]) + Delivered(e, p) == Slot(e.r.k.proc[p])
  {
    var k, x := e.before, e.op.p;
    if !BadPid(k, x) && !k.proc[x].hasmsg {
      SendFills(k, x, e.op.m, e.r, p);
    }
  }

  lemma SendFills(k: State, x: Pid, m: int, r: Result, p: Pid)
    requires Shape(k) && r == DoSend(k, x, m) && k.proc[x].st != Free && !k.proc[x].hasmsg
    ensures r.out == Ret(OK) && Slot(r.k.proc[p]) == if p == x then [m] else Slot(k.proc[p])
  {
    var pr := k.proc[x].(hasmsg := true, msg := m);
    if pr.st == Recv || pr.st == RecTim {
      ExtractSlots(k, x, pr, Extract(k, x, pr));
      DoReadySlots(Extract(k, x, pr), x, r.k);
    }
  }

  /** Handing over the message of the running process empties its slot. */
  lemma TakeBalances(k: State, r: Result, p: Pid)
    requires Shape(k) && r == TakeMessage(k) && k.proc[k.curr].hasmsg
    ensures Slot(k.proc[p]) == (if p == k.curr then [r.out.v] else []) + Slot(r.k.proc[p])
  {
  }

  lemma ReceiveBalances(e: Event, p: Pid)
    requires Inv(e.before) && IsStep(e) && (e.op.Receive? || e.op.RecvTime? || e.op.RecvClr?)
    ensures Shape(e.r.k) && Slot(e.before.proc[p]) == Returned(e, p) + Slot(e.r.k.proc[p])
  {
    var k, c := e.before, e.before.curr;
    if e.op.RecvTime? && e.op.d < 0 { return; }
    if k.proc[c].hasmsg {
      TakeBalances(k, e.r, p);
    } else if e.op.Receive? {
      ReceiveBlocks(k, e.r);
    } else if e.op.RecvTime? {
      RecvTimeBlocks(k, e.op.d, e.r);
    }
  }

  lemma ReceiveBlocks(k: State, r: Result)
    requires Shape(k) && r == DoReceive(k) && !k.proc[k.curr].hasmsg
    ensures SlotsSame(k, r.k) && r.out == Blocked
  {
    var k1 := SetCont(Alter(k, k.curr, k.proc[k.curr].(st := Recv)), k.curr, InReceive);
    ReschedSlots(k1, r.k);
    SlotsTrans(k, k1, r.k);
  }

  lemma RecvTimeBlocks(k: State, d: int, r: Result)
    requires Shape(k) && r == DoRecvTime(k, d) && d >= 0 && !k.proc[k.curr].hasmsg
    ensures SlotsSame(k, r.k) && r.out == Blocked
  {
    var k1 := PutDelta(SetCont(k, k.curr, InRecvTime), k.curr, k.proc[k.curr].(st := RecTim), d);
    ReschedSlots(k1, r.k);
    SlotsTrans(k, k1, r.k);
  }

  lemma FinishBalances(e: Event, p: Pid)
    requires Inv(e.before) && IsStep(e) && e.op.Finish?
    ensures Shape(e.r.k) && Slot(e.before.proc[p]) == Returned(e, p) + Slot(e.r.k.proc[p])
  {
    assert Unfold(Processes, true);
    var k, c := e.before, e.before.curr;
    assert ProcOK(k.proc[c], k.cont[c], c, c);
    var k0 := SetCont(k, c, Idle);
    if k.cont[c] == InTick {
      CountSliceSlots(k0, e.r.k);
    } else if k.proc[c].hasmsg {
      TakeBalances(k0, e.r, p);
    }
  }

  /** In one event: what was in the slot and what arrives is what is handed over and what stays. */
  lemma EventBalances(e: Event, p: Pid)
    requires Inv(e.before) && IsStep(e) && !(e.op.Create? && e.op.p == p)
    ensures Shape(e.r.k) && Slot(e.before.proc[p]) + Delivered(e, p) == Returned(e, p) + Slot(e.r.k.proc[p])
  {
    var k, op, r := e.before, e.op, e.r;
    if op.Send? {
      SendBalances(e, p);
    } else if op.Receive? || op.RecvTime? || op.RecvClr? {
      ReceiveBalances(e, p);
    } else if op.Finish? {
      FinishBalances(e, p);
    } else if op.Create? {
    } else if op.WaitOn? || op.Signal? || op.SignalN? || op.SemCreate? || op.SemDelete? || op.SemReset? {
      SemCallSlots(k, op, r);
    } else {
      OtherCallSlots(k, op, r);
    }
  }

  // ----- whole runs

  function AllDelivered(run: seq<Event>, p: Pid): seq<int> {
    if run == [] then [] else AllDelivered(run[..|run| - 1], p) + Delivered(run[|run| - 1], p)
  }

  ghost function AllReturned(run: seq<Event>, p: Pid): seq<int> {
    if run == [] then [] else AllReturned(run[..|run| - 1], p) + Returned(run[|run| - 1], p)
  }

  /**
    Exactly once and in order: over any run in which process `p` is not created
    anew, the messages accepted for it are the messages handed to it, followed by
    the one still waiting, if any.
  */
  lemma {:induction false} ExactlyOnce(k: State, run: seq<Event>, p: Pid)
    requires Inv(k) && IsRun(k, run)
    requires forall i :: 0 <= i < |run| ==> !(run[i].op.Create? && run[i].op.p == p)
    ensures Inv(LastState(k, run))
    ensures Slot(k.proc[p]) + AllDelivered(run, p) == AllReturned(run, p) + Slot(LastState(k, run).proc[p])
    decreases |run|
  {
    if run != [] {
      var front, e := run[..|run| - 1], run[|run| - 1];
      RunPrefix(k, run);
      ExactlyOnce(k, front, p);
      EventKeeps(e);
      EventBalances(e, p);
      Chained(Slot(k.proc[p]), AllDelivered(front, p), AllReturned(front, p), Slot(e.before.proc[p]),
              Delivered(e, p), Returned(e, p), Slot(e.r.k.proc[p]));
    }
  }

  lemma Chained<T>(a: seq<T>, b: seq<T>, c: seq<T>, d: seq<T>, x: seq<T>, y: seq<T>, z: seq<T>)
    requires a + b == c + d && d + x == y + z
    ensures a + (b + x) == (c + y) + z
  {
    assert a + (b + x) == (a + b) + x;
    assert (c + d) + x == c + (d + x);
    assert c + (y + z) == (c + y) + z;
  }
}
