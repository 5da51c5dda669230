/**
  The process manager as a transition system: process states, the ready list,
  semaphore queues, the delta list of sleepers, one-slot messages and deferred
  rescheduling. Interrupts are off inside every call, so each call up to the point
  where it may switch to another process is one step.
*/
module KernelSpec {
  import opened Common
  import opened Lists

  const NPROC := 100
  const NSEM := 100
  const QUANTUM := 2
  const MINKEY := -0x8000_0000
  const MAXKEY := 0x7fff_ffff


  /** Queue numbers: one per semaphore, then the ready list and the sleep queue. */
  const READYQ := NSEM
  const SLEEPQ := NSEM + 1
  const NQUEUES := NSEM + 2

  type Pid = p: nat | p < NPROC
  const NULLPROC: Pid := 0

  datatype PState = Free | Curr | Ready | Recv | Sleep | Susp | Wait | RecTim

  datatype Proc = Proc(st: PState, prio: int, sem: int, hasmsg: bool, msg: int)

  datatype Sem = Sem(used: bool, count: int)

  /** What a process still has to do inside the kernel when it next runs. */
  datatype Cont = Idle | InReceive | InRecvTime | InTick

  datatype State = State(
    proc: seq<Proc>,
    queue: seq<seq<Pid>>,
    key: seq<int>,           // qkey of each process entry
    sem: seq<Sem>,
    curr: Pid,
    ndefers: int,
    attempt: bool,
    preempt: int,
    cont: seq<Cont>)

  ghost predicate Shape(k: State) {
    |k.proc| == NPROC && |k.queue| == NQUEUES && |k.key| == NPROC && |k.sem| == NSEM && |k.cont| == NPROC
  }

  predicate BadPid(k: State, p: int)
    requires Shape(k)
  {
    !(0 <= p < NPROC) || k.proc[p].st == Free
  }

  predicate BadSem(s: int) { !(0 <= s < NSEM) }

  // ----- queue edits

  /** Process `p` becomes `pr` and enters queue `q` at position `i`. */
  function Put(k: State, p: Pid, pr: Proc, q: nat, i: nat, key: int): (r: State)
    requires Shape(k) && q < NQUEUES && i <= |k.queue[q]|
    ensures Shape(r)
  {
    k.(proc := k.proc[p := pr], queue := k.queue[q := InsertAt(k.queue[q], i, p)], key := k.key[p := key])
  }

  /** The process at position `i` of queue `q` leaves it and becomes `pr`. */
  function Take(k: State, q: nat, i: nat, pr: Proc): (r: State)
    requires Shape(k) && q < NQUEUES && i < |k.queue[q]|
    ensures Shape(r)
  {
    k.(proc := k.proc[k.queue[q][i] := pr], queue := k.queue[q := RemoveAt(k.queue[q], i)])
  }

  function Alter(k: State, p: Pid, pr: Proc): (r: State)
    requires Shape(k)
    ensures Shape(r)
  {
    k.(proc := k.proc[p := pr])
  }

  /** Behind every entry with a key at least `key`: where `insert` puts a process. */
  function PrioPos(q: seq<Pid>, key: seq<int>, x: int): (i: nat)
    requires |key| == NPROC
    ensures i <= |q|
    ensures forall j :: 0 <= j < i ==> key[q[j]] >= x
    ensures i < |q| ==> key[q[i]] < x
  {
    if q == [] then 0 else if key[q[0]] >= x then 1 + PrioPos(q[1..], key, x) else 0
  }

  /** Sum of the keys of the first `i` entries. */
  function KeySum(q: seq<Pid>, key: seq<int>, i: nat): int
    requires |key| == NPROC && i <= |q|
  {
    if i == 0 then 0 else KeySum(q, key, i - 1) + key[q[i - 1]]
  }

  /** The first position from `i` on whose delta exceeds what is left of the delay: where `insertd` stops. */
  function DeltaPos(q: seq<Pid>, key: seq<int>, d: int, i: nat): (r: nat)
    requires |key| == NPROC && i <= |q|
    ensures i <= r <= |q|
    decreases |q| - i
  {
    if i < |q| && key[q[i]] <= d - KeySum(q, key, i) then DeltaPos(q, key, d, i + 1) else i
  }

  /** Adds to the delta of the sleeper at position `i`, if there is one. */
  function AddDelta(k: State, i: nat, d: int): (r: State)
    requires Shape(k)
    ensures Shape(r)
  {
    var q := k.queue[SLEEPQ];
    if i < |q| then k.(key := k.key[q[i] := k.key[q[i]] + d]) else k
  }

  /** Delta-list insertion: the next entry's delta is reduced by the new one. */
  function PutDelta(k: State, p: Pid, pr: Proc, d: int): (r: State)
    requires Shape(k)
    ensures Shape(r)
  {
    var q := k.queue[SLEEPQ];
    var i := DeltaPos(q, k.key, d, 0);
    var rest := d - KeySum(q, k.key, i);
    AddDelta(Put(k, p, pr, SLEEPQ, i, rest), i + 1, -rest)
  }

  /** Early removal from the delta list: the next entry inherits the delta. */
  function TakeDelta(k: State, i: nat, pr: Proc): (r: State)
    requires Shape(k) && i < |k.queue[SLEEPQ]|
    ensures Shape(r)
  {
    Take(AddDelta(k, i + 1, k.key[k.queue[SLEEPQ][i]]), SLEEPQ, i, pr)
  }

  // ----- scheduling

  function FirstKey(k: State, q: nat): int
    requires Shape(k) && q < NQUEUES
  {
    if k.queue[q] == [] then MINKEY else k.key[k.queue[q][0]]
  }

  /** The state and ready-list part of `ready`. */
  function MakeReady(k: State, p: Pid): (r: State)
    requires Shape(k)
    ensures Shape(r) && r.sem == k.sem && r.cont == k.cont && r.ndefers == k.ndefers
    ensures forall q :: 0 <= q < NQUEUES && q != READYQ ==> r.queue[q] == k.queue[q]
  {
    var pr := k.proc[p];
    Put(k, p, pr.(st := Ready), READYQ, PrioPos(k.queue[READYQ], k.key, pr.prio), pr.prio)
  }

  /** The head of the ready list becomes the current process. */
  function Switch(k: State): (r: State)
    requires Shape(k)
    ensures Shape(r) && r.sem == k.sem && r.cont == k.cont && r.ndefers == k.ndefers
    ensures forall q :: 0 <= q < NQUEUES && q != READYQ ==> r.queue[q] == k.queue[q]
  {
    if k.queue[READYQ] == [] then k
    else
      var p := k.queue[READYQ][0];
      Take(k, READYQ, 0, k.proc[p].(st := Curr)).(curr := p, preempt := QUANTUM)
  }

  function Resched(k: State): (r: State)
    requires Shape(k)
    ensures Shape(r) && r.sem == k.sem && r.cont == k.cont && r.ndefers == k.ndefers
    ensures forall q :: 0 <= q < NQUEUES && q != READYQ ==> r.queue[q] == k.queue[q]
  {
    if k.ndefers > 0 then k.(attempt := true)
    else if k.proc[k.curr].st != Curr then Switch(k)
    else if k.proc[k.curr].prio > FirstKey(k, READYQ) then k
    else Switch(MakeReady(k, k.curr))
  }

  function DoReady(k: State, p: Pid): (r: State)
    requires Shape(k)
    ensures Shape(r) && r.sem == k.sem && r.cont == k.cont && r.ndefers == k.ndefers
    ensures forall q :: 0 <= q < NQUEUES && q != READYQ ==> r.queue[q] == k.queue[q]
  {
    Resched(MakeReady(k, p))
  }

  function DeferStart(k: State): (r: State)
    requires Shape(k)
    ensures Shape(r)
  {
    k.(ndefers := k.ndefers + 1, attempt := if k.ndefers == 0 then false else k.attempt)
  }

  function DeferStop(k: State): (r: State)
    requires Shape(k)
    ensures Shape(r) && r.sem == k.sem && r.cont == k.cont
    ensures forall q :: 0 <= q < NQUEUES && q != READYQ ==> r.queue[q] == k.queue[q]
  {
    if k.ndefers <= 0 then k
    else
      var k1 := k.(ndefers := k.ndefers - 1);
      if k1.ndefers == 0 && k1.attempt then Resched(k1) else k1
  }

  // ----- releasing waiters

  /** Takes the first process off a semaphore queue and readies it. */
  function ReleaseFirst(k: State, s: nat): (r: State)
    requires Shape(k) && s < NSEM
    ensures Shape(r)
  {
    if k.queue[s] == [] then k
    else
      var p := k.queue[s][0];
      DoReady(Take(k, s, 0, k.proc[p]), p)
  }

  function SetSem(k: State, s: nat, e: Sem): (r: State)
    requires Shape(k) && s < NSEM
    ensures Shape(r)
  {
    k.(sem := k.sem[s := e])
  }

  function SetCount(k: State, s: nat, c: int): (r: State)
    requires Shape(k) && s < NSEM
    ensures Shape(r)
  {
    SetSem(k, s, k.sem[s].(count := c))
  }

  /** One iteration of `signal`. */
  function SignalOnce(k: State, s: nat): (r: State)
    requires Shape(k) && s < NSEM
    ensures Shape(r)
  {
    var k1 := SetCount(k, s, k.sem[s].count + 1);
    if k.sem[s].count < 0 then ReleaseFirst(k1, s) else k1
  }

  function SignalTimes(k: State, s: nat, n: nat): (r: State)
    requires Shape(k) && s < NSEM
    ensures Shape(r)
    decreases n
  {
    if n == 0 then k else SignalTimes(SignalOnce(k, s), s, n - 1)
  }

  /** Releases the first `n` waiters, or all. */
  function ReleaseMany(k: State, s: nat, n: nat): (r: State)
    requires Shape(k) && s < NSEM
    ensures Shape(r)
    decreases n
  {
    if n == 0 then k else ReleaseMany(ReleaseFirst(k, s), s, n - 1)
  }

  /** Releases all waiters with rescheduling deferred, then sets the count. */
  function ReleaseAll(k: State, s: nat, c: int): (r: State)
    requires Shape(k) && s < NSEM
    ensures Shape(r)
  {
    DeferStop(SetCount(ReleaseMany(DeferStart(k), s, |k.queue[s]|), s, c))
  }

  // ----- the clock

  /** Readies every sleeper at the head whose delta has run out. */
  function WakeAll(k: State): (r: State)
    requires Shape(k)
    ensures Shape(r)
    decreases |k.queue[SLEEPQ]|
  {
    if k.queue[SLEEPQ] == [] || FirstKey(k, SLEEPQ) > 0 then k
    else
      var p := k.queue[SLEEPQ][0];
      WakeAll(DoReady(Take(k, SLEEPQ, 0, k.proc[p]), p))
  }

  /** The part of the tick that counts down the time slice. */
  function CountSlice(k: State): (r: State)
    requires Shape(k)
    ensures Shape(r)
  {
    if k.preempt - 1 == 0 then Resched(k.(preempt := QUANTUM)) else k.(preempt := k.preempt - 1)
  }

  /** The part of the tick that counts down the sleepers. */
  function CountSleep(k: State): (r: State)
    requires Shape(k)
    ensures Shape(r)
  {
    if k.queue[SLEEPQ] == [] then k
    else
      var k1 := AddDelta(k, 0, -1);
      if FirstKey(k1, SLEEPQ) == 0 then DeferStop(WakeAll(DeferStart(k1))) else k1
  }

  // ----- the system calls

  datatype Op =
    | WaitOn(s: int) | Signal(s: int) | SignalN(s: int, n: int)
    | SemCreate(s: int, n: int) | SemDelete(s: int) | SemReset(s: int, n: int)
    | Create(p: int, prio: int) | Kill(p: int) | Suspend(p: int) | Resume(p: int)
    | Send(p: int, m: int) | Receive | RecvTime(d: int) | RecvClr
    | SleepMs(d: int) | Yield | Tick | Defer(start: bool) | Finish

  /** `Blocked`: the caller no longer runs; its result comes with its `Finish`. */
  datatype Out = Ret(v: int) | Blocked

  datatype Result = Result(k: State, out: Out)

  function SetCont(k: State, p: Pid, c: Cont): (r: State)
    requires Shape(k)
    ensures Shape(r)
  {
    k.(cont := k.cont[p := c])
  }

  function DoWait(k: State, s: int): (r: Result)
    requires Shape(k)
    ensures Shape(r.k)
  {
    if BadSem(s) || !k.sem[s].used then Result(k, Ret(SYSERR))
    else
      var k1 := SetCount(k, s, k.sem[s].count - 1);
      if k1.sem[s].count >= 0 then Result(k1, Ret(OK))
      else
        var pr := k1.proc[k1.curr].(st := Wait, sem := s);
        Result(Resched(Put(k1, k1.curr, pr, s, |k1.queue[s]|, k1.key[k1.curr])), Blocked)
  }

  function DoSignal(k: State, s: int): (r: Result)
    requires Shape(k)
    ensures Shape(r.k)
  {
    if BadSem(s) || !k.sem[s].used then Result(k, Ret(SYSERR))
    else Result(SignalOnce(k, s), Ret(OK))
  }

  function DoSignalN(k: State, s: int, n: int): (r: Result)
    requires Shape(k)
    ensures Shape(r.k)
  {
    if BadSem(s) || n < 0 || !k.sem[s].used then Result(k, Ret(SYSERR))
    else Result(DeferStop(SignalTimes(DeferStart(k), s, n)), Ret(OK))
  }

  /** `s` is the free entry that the table scan found. */
  function DoSemCreate(k: State, s: int, n: int): (r: Result)
    requires Shape(k)
    ensures Shape(r.k)
  {
    if n < 0 || BadSem(s) || k.sem[s].used then Result(k, Ret(SYSERR))
    else Result(SetSem(k, s, Sem(true, n)), Ret(s))
  }

  function DoSemDelete(k: State, s: int): (r: Result)
    requires Shape(k)
    ensures Shape(r.k)
  {
    if BadSem(s) || !k.sem[s].used then Result(k, Ret(SYSERR))
    else
      var c := k.sem[s].count;
      Result(ReleaseAll(SetSem(k, s, Sem(false, c)), s, c + |k.queue[s]| + 1), Ret(OK))
  }

  function DoSemReset(k: State, s: int, n: int): (r: Result)
    requires Shape(k)
    ensures Shape(r.k)
  {
    if n < 0 || BadSem(s) || !k.sem[s].used then Result(k, Ret(SYSERR))
    else Result(ReleaseAll(k, s, n), Ret(OK))
  }

  /** `p` is the free slot that the table scan found. */
  function DoCreate(k: State, p: int, prio: int): (r: Result)
    requires Shape(k)
    ensures Shape(r.k)
  {
    if prio < 1 || !(0 <= p < NPROC) || k.proc[p].st != Free then Result(k, Ret(SYSERR))
    else Result(SetCont(Alter(k, p, Proc(Susp, prio, -1, false, k.proc[p].msg)), p, Idle), Ret(p))
  }

  /** Process `p`, wherever it is queued, leaves its queue and becomes `pr`. */
  function Extract(k: State, p: Pid, pr: Proc): (r: State)
    requires Shape(k)
    ensures Shape(r)
  {
    var st, s := k.proc[p].st, k.proc[p].sem;
    if (st == Sleep || st == RecTim) && p in k.queue[SLEEPQ] then TakeDelta(k, IndexOf(k.queue[SLEEPQ], p), pr)
    else if st == Wait && !BadSem(s) && p in k.queue[s] then
      Take(SetCount(k, s, k.sem[s].count + 1), s, IndexOf(k.queue[s], p), pr)
    else if st == Ready && p in k.queue[READYQ] then Take(k, READYQ, IndexOf(k.queue[READYQ], p), pr)
    else Alter(k, p, pr)
  }

  /** The queue-removal switch of `kill`. */
  function DoKill(k: State, p: int): (r: Result)
    requires Shape(k)
    ensures Shape(r.k)
  {
    if !(0 <= p < NPROC) || p == NULLPROC || k.proc[p].st == Free then Result(k, Ret(SYSERR))
    else
      var k1 := SetCont(Extract(k, p, k.proc[p].(st := Free)), p, Idle);
      if k.proc[p].st == Curr then Result(Resched(k1), Blocked) else Result(k1, Ret(OK))
  }

  function DoSuspend(k: State, p: int): (r: Result)
    requires Shape(k)
    ensures Shape(r.k)
  {
    if BadPid(k, p) || p == NULLPROC then Result(k, Ret(SYSERR))
    else
      var k1 := Extract(k, p, k.proc[p].(st := Susp));
      if k.proc[p].st == Ready then Result(k1, Ret(k.proc[p].prio))
      else if k.proc[p].st == Curr then Result(Resched(k1), Blocked)
      else Result(k, Ret(SYSERR))
  }

  function DoResume(k: State, p: int): (r: Result)
    requires Shape(k)
    ensures Shape(r.k)
  {
    if BadPid(k, p) || k.proc[p].st != Susp then Result(k, Ret(SYSERR))
    else Result(DoReady(k, p), Ret(k.proc[p].prio))
  }

  function DoSend(k: State, p: int, m: int): (r: Result)
    requires Shape(k)
    ensures Shape(r.k)
  {
    if BadPid(k, p) || k.proc[p].hasmsg then Result(k, Ret(SYSERR))
    else
      var pr := k.proc[p].(hasmsg := true, msg := m);
      if pr.st == Recv || pr.st == RecTim then Result(DoReady(Extract(k, p, pr), p), Ret(OK))
      else Result(Alter(k, p, pr), Ret(OK))
  }

  /** The message is handed over and the slot is free again. */
  function TakeMessage(k: State): (r: Result)
    requires Shape(k)
    ensures Shape(r.k)
  {
    var pr := k.proc[k.curr];
    Result(Alter(k, k.curr, pr.(hasmsg := false)), Ret(pr.msg))
  }

  function DoReceive(k: State): (r: Result)
    requires Shape(k)
    ensures Shape(r.k)
  {
    var pr := k.proc[k.curr];
    if pr.hasmsg then TakeMessage(k)
    else Result(Resched(SetCont(Alter(k, k.curr, pr.(st := Recv)), k.curr, InReceive)), Blocked)
  }

  function DoRecvTime(k: State, d: int): (r: Result)
    requires Shape(k)
    ensures Shape(r.k)
  {
    var pr := k.proc[k.curr];
    if d < 0 then Result(k, Ret(SYSERR))
    else if pr.hasmsg then TakeMessage(k)
    else Result(Resched(PutDelta(SetCont(k, k.curr, InRecvTime), k.curr, pr.(st := RecTim), d)), Blocked)
  }

  function DoRecvClr(k: State): (r: Result)
    requires Shape(k)
    ensures Shape(r.k)
  {
    if k.proc[k.curr].hasmsg then TakeMessage(k) else Result(k, Ret(OK))
  }

  function DoSleepMs(k: State, d: int): (r: Result)
    requires Shape(k)
    ensures Shape(r.k)
  {
    if d < 0 then Result(k, Ret(SYSERR))
    else if d == 0 then Result(Resched(k), Ret(OK))
    else Result(Resched(PutDelta(k, k.curr, k.proc[k.curr].(st := Sleep), d)), Blocked)
  }

  /** If waking sleepers switches away, the rest of the handler runs when the process is resumed. */
  function DoTick(k: State): (r: Result)
    requires Shape(k)
    ensures Shape(r.k)
  {
    var k1 := CountSleep(k);
    if k1.curr != k.curr then Result(SetCont(k1, k.curr, InTick), Ret(OK))
    else Result(CountSlice(k1), Ret(OK))
  }

  /** A stop without a start is an error. */
  function DoDefer(k: State, start: bool): (r: Result)
    requires Shape(k)
    ensures Shape(r.k)
  {
    if start then Result(DeferStart(k), Ret(OK))
    else Result(DeferStop(k), Ret(if k.ndefers <= 0 then SYSERR else OK))
  }

  function DoFinish(k: State): (r: Result)
    requires Shape(k)
    ensures Shape(r.k)
  {
    var k0 := SetCont(k, k.curr, Idle);
    match k.cont[k.curr]
    case Idle => Result(k, Ret(OK))
    case InReceive => TakeMessage(k0)
    case InRecvTime => if k.proc[k.curr].hasmsg then TakeMessage(k0) else Result(k0, Ret(TIMEOUT))
    case InTick => Result(CountSlice(k0), Ret(OK))
  }

  /** One step: what the call does and what it reports. */
  ghost predicate Next(k: State, op: Op, r: Result)
    requires Shape(k)
  {
    match op
    case WaitOn(s) => r == DoWait(k, s)
    case Signal(s) => r == DoSignal(k, s)
    case SignalN(s, n) => r == DoSignalN(k, s, n)
    case SemCreate(s, n) => r == DoSemCreate(k, s, n)
    case SemDelete(s) => r == DoSemDelete(k, s)
    case SemReset(s, n) => r == DoSemReset(k, s, n)
    case Create(p, prio) => r == DoCreate(k, p, prio)
    case Kill(p) => r == DoKill(k, p)
    case Suspend(p) => r == DoSuspend(k, p)
    case Resume(p) => r == DoResume(k, p)
    case Send(p, m) => r == DoSend(k, p, m)
    case Receive => r == DoReceive(k)
    case RecvTime(d) => r == DoRecvTime(k, d)
    case RecvClr => r == DoRecvClr(k)
    case SleepMs(d) => r == DoSleepMs(k, d)
    case Yield => r == Result(Resched(k), Ret(OK))
    case Tick => r == DoTick(k)
    case Defer(start) => r == DoDefer(k, start)
    case Finish => r == DoFinish(k)
  }

  /**
    When a step can be taken. A process that was switched out inside a call first
    finishes it, with interrupts still off. The null process never blocks, and
    nobody blocks while rescheduling is deferred. A timed receive waits at least
    one tick.
  */
  predicate Enabled(k: State, op: Op)
    requires Shape(k)
  {
    && (op.Finish? <==> k.cont[k.curr] != Idle)
    && (Blocks(k, op) ==> k.curr != NULLPROC && k.ndefers == 0)
    && (op == RecvTime(0) ==> k.proc[k.curr].hasmsg)
  }

  /** The step takes the processor away from the caller. */
  predicate Blocks(k: State, op: Op)
    requires Shape(k)
  {
    match op
    case WaitOn(s) => !BadSem(s) && k.sem[s].used && k.sem[s].count <= 0
    case Receive => !k.proc[k.curr].hasmsg
    case RecvTime(d) => !k.proc[k.curr].hasmsg
    case SleepMs(d) => d > 0
    case Kill(p) => p == k.curr
    case Suspend(p) => p == k.curr
    case _ => false
  }

  /** The state that system initialisation leaves: only the null process, no semaphores. */
  function Boot(): (k: State)
    ensures Shape(k)
  {
    State(seq(NPROC, i => if i == 0 then Proc(Curr, 0, -1, false, 0) else Proc(Free, 0, -1, false, 0)),
          seq(NQUEUES, i => []), seq(NPROC, i => 0), seq(NSEM, i => Sem(false, 0)),
          0, 0, false, QUANTUM, seq(NPROC, i => Idle))
  }

  /** One step of a run: the state it was taken in, the call, its effect and its result. */
  datatype Event = Event(before: State, op: Op, r: Result)

  ghost predicate IsStep(e: Event) {
    Shape(e.before) && Enabled(e.before, e.op) && Next(e.before, e.op, e.r)
  }

  /** A run from `k`: every event is an enabled step of the state the previous one left. */
  ghost predicate IsRun(k: State, run: seq<Event>) {
    && (run != [] ==> run[0].before == k)
    && (forall i :: 0 <= i < |run| ==> IsStep(run[i]))
    && (forall i, j :: 0 <= i < j < |run| && j == i + 1 ==> run[j].before == run[i].r.k)
  }
}
