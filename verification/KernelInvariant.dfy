/**
  The global invariant of the process manager, kept by every step of every run
  from system initialisation on.
*/
module KernelInvariant {
  import opened Common
  import opened Lists
  import opened KernelSpec

  // ----- the invariant

  /** Stands for "no process" where a process in transit may be named. */
  const NOBODY := -1

  /** The queue on which a process in this state must be found; negative for none. */
  function Place(pr: Proc): int {
    match pr.st
    case Ready => READYQ
    case Wait => if BadSem(pr.sem) then -1 else pr.sem
    case Sleep => SLEEPQ
    case RecTim => SLEEPQ
    case _ => -1
  }

  /**
    A process is on the queue its state calls for and on no other, once:
    READY iff on the ready list, WAIT iff on the queue of its semaphore, SLEEP or
    RECTIM iff on the sleep queue. Process `x` is in transit and on no queue.
  */
  ghost predicate Agree(k: State, x: int)
    requires Shape(k)
  {
    && (forall q, i :: 0 <= q < NQUEUES && 0 <= i < |k.queue[q]| ==>
          k.queue[q][i] != x && Place(k.proc[k.queue[q][i]]) == q)
    && (forall q, i, j :: 0 <= q < NQUEUES && 0 <= i < j < |k.queue[q]| ==> k.queue[q][i] != k.queue[q][j])
    && (forall p: Pid :: p != x && Place(k.proc[p]) >= 0 ==> p in k.queue[Place(k.proc[p])])
  }

  /** What holds of each process by itself. */
  ghost predicate ProcOK(pr: Proc, c: Cont, p: Pid, curr: Pid) {
    && (p == NULLPROC ==> (pr.st == Curr || pr.st == Ready) && pr.prio == 0)
    && (p != NULLPROC && pr.st != Free ==> pr.prio >= 1)
    && (pr.st == Curr ==> p == curr)
    && (pr.st == Wait ==> !BadSem(pr.sem))
    && (pr.st == Recv ==> !pr.hasmsg && c == InReceive)
    && (pr.st == RecTim ==> !pr.hasmsg && c == InRecvTime)
    && (pr.st == Free || pr.st == Sleep || pr.st == Wait ==> c == Idle)
    && (c == InReceive ==> pr.st == Recv || pr.hasmsg)
  }

  ghost predicate ProcsOK(k: State, x: int)
    requires Shape(k)
  {
    forall p: Pid :: p != x ==> ProcOK(k.proc[p], k.cont[p], p, k.curr)
  }

  ghost predicate Descending(q: seq<Pid>, key: seq<int>)
    requires |key| == NPROC
  {
    forall i, j :: 0 <= i < j < |q| ==> key[q[i]] >= key[q[j]]
  }

  /** The ready list holds priorities in descending order. */
  ghost predicate ReadySorted(k: State)
    requires Shape(k)
  {
    && Descending(k.queue[READYQ], k.key)
    && forall i :: 0 <= i < |k.queue[READYQ]| ==> k.key[k.queue[READYQ][i]] == k.proc[k.queue[READYQ][i]].prio
  }

  /** Deltas are never negative. */
  ghost predicate DeltasOK(k: State)
    requires Shape(k)
  {
    forall i :: 0 <= i < |k.queue[SLEEPQ]| ==> k.key[k.queue[SLEEPQ][i]] >= 0
  }

  /**
    The parts that moves of single processes keep. (The guard and the comparison
    with `true` only keep proofs about whole states from unfolding this predicate.)
  */
  ghost predicate Core(k: State, x: int) {
    (&& Shape(k) && 1 <= k.preempt <= QUANTUM && k.ndefers >= 0
     && forall w :: Unfold(Processes, w) ==> Agree(k, x) && ProcsOK(k, x) && ReadySorted(k) && DeltasOK(k)) == true
  }

  /** The running process has at least the priority of every ready one, unless a switch is pending. */
  ghost predicate Scheduled(k: State)
    requires Shape(k)
  {
    k.ndefers == 0 || !k.attempt ==> k.proc[k.curr].prio >= FirstKey(k, READYQ)
  }

  /** The first sleeper has at least one tick to go. */
  ghost predicate HeadWaits(k: State)
    requires Shape(k)
  {
    k.queue[SLEEPQ] != [] ==> FirstKey(k, SLEEPQ) >= 1
  }

  /** In-use semaphores have as many waiters as their count is below zero; others have none. */
  ghost predicate SemsAgree(k: State)
    requires Shape(k)
  {
    forall s :: 0 <= s < NSEM ==> |k.queue[s]| == Waiters(k.sem[s])
  }

  function Waiters(s: Sem): nat {
    if s.used && s.count < 0 then -s.count else 0
  }

  /** Between two calls. */
  ghost predicate Running(k: State) {
    (Core(k, NOBODY) && k.proc[k.curr].st == Curr && Scheduled(k)) == true
  }

  ghost predicate Inv(k: State) {
    (Running(k) && SemsAgree(k) && HeadWaits(k)) == true
  }

  /** The delta list is the same, entry by entry. */
  ghost predicate SleepSame(k: State, r: State) {
    (&& Shape(k) && Shape(r) && r.queue[SLEEPQ] == k.queue[SLEEPQ]
     && forall i :: 0 <= i < |k.queue[SLEEPQ]| ==> r.key[k.queue[SLEEPQ][i]] == k.key[k.queue[SLEEPQ][i]]) == true
  }

  /** Everything but the waiters of semaphore `s` and its count. */
  ghost predicate InvBut(k: State, s: int) {
    (&& Running(k) && HeadWaits(k)
     && forall t :: 0 <= t < NSEM && t != s ==> |k.queue[t]| == Waiters(k.sem[t])) == true
  }

  /** A queue without its first `n` entries. */
  function Dropped<T>(q: seq<T>, n: nat): seq<T> {
    if n <= |q| then q[n..] else []
  }
}
