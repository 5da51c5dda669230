/**
  The two semaphores of a port are semaphores of the process manager: what the port
  calls assume of `wait`, `signal`, `semreset`, `semdelete` and `kill` is what those
  calls do to the count and the queue.
*/
module PortSemaphores {
  import opened Common
  import opened Lists
  import opened KernelSpec
  import opened KernelInvariant
  import opened KernelProofs
  import KernelSemaphores
  import PortSpec

  /** Semaphore `s` as the port calls see it. */
  function SemOf(k: State, s: nat): PortSpec.Semaphore
    requires Shape(k) && s < NSEM
  {
    PortSpec.Semaphore(k.sem[s].count, k.queue[s])
  }

  lemma SignalIsUp(k: State, s: nat)
    requires Inv(k) && s < NSEM && k.sem[s].used
    ensures SemOf(SignalOnce(k, s), s) == PortSpec.Up(SemOf(k, s))
  {
    SignalOnceKeeps(k, s, SignalOnce(k, s));
    assert |k.queue[s]| == Waiters(k.sem[s]);
  }

  /** A wait passes at a positive count, and joins the queue at its end otherwise. */
  lemma WaitIsDown(k: State, s: nat)
    requires Inv(k) && s < NSEM && k.sem[s].used && Enabled(k, WaitOn(s))
    ensures var e, r := SemOf(k, s), DoWait(k, s);
            if e.count > 0 then r.out == Ret(OK) && SemOf(r.k, s) == e.(count := e.count - 1)
            else r.out == Blocked && SemOf(r.k, s) == PortSpec.Semaphore(e.count - 1, e.waiting + [k.curr])
  {
    assert InsertAt(k.queue[s], |k.queue[s]|, k.curr) == k.queue[s] + [k.curr];
  }

  /** A reset leaves the new count and nobody waiting. */
  lemma ResetEmpties(k: State, s: nat, n: nat)
    requires Inv(k) && s < NSEM && k.sem[s].used
    ensures SemOf(DoSemReset(k, s, n).k, s) == PortSpec.Semaphore(n, [])
  {
    SemResetKeeps(k, s, n);
    var r := DoSemReset(k, s, n).k;
    assert |r.queue[s]| == Waiters(r.sem[s]);
    ResetCount(k, s, n);
  }

  lemma ResetCount(k: State, s: nat, n: nat)
    requires Shape(k) && s < NSEM && k.sem[s].used
    ensures DoSemReset(k, s, n).k.sem[s] == Sem(true, n)
  {
    KernelSemaphores.ReleaseManySem(DeferStart(k), s, |k.queue[s]|);
  }

  lemma DeleteEmpties(k: State, s: nat)
    requires Inv(k) && s < NSEM && k.sem[s].used
    ensures SemOf(DoSemDelete(k, s).k, s).waiting == [] && !DoSemDelete(k, s).k.sem[s].used
  {
    SemDeleteKeeps(k, s);
    var r := DoSemDelete(k, s).k;
    assert |r.queue[s]| == Waiters(r.sem[s]);
    KernelSemaphores.ReleaseManySem(DeferStart(SetSem(k, s, Sem(false, k.sem[s].count))), s, |k.queue[s]|);
  }

  /** A new semaphore has its count and nobody waiting. */
  lemma CreateIsEmpty(k: State, s: nat, n: nat)
    requires Inv(k) && s < NSEM && !k.sem[s].used
    ensures DoSemCreate(k, s, n).out == Ret(s) && SemOf(DoSemCreate(k, s, n).k, s) == PortSpec.Semaphore(n, [])
  {
    assert |k.queue[s]| == Waiters(k.sem[s]);
  }

  /** A killed waiter leaves the queue and gives its place back. */
  lemma KillLeaves(k: State, p: Pid, s: nat)
    requires Inv(k) && p != NULLPROC && k.proc[p].st == Wait && k.proc[p].sem == s && s < NSEM
    ensures var e := SemOf(k, s);
            SemOf(DoKill(k, p).k, s) == PortSpec.Semaphore(e.count + 1, PortSpec.Without(e.waiting, p))
  {
    QueuedSomewhere(k, p);
    SameRemoval(k.queue[s], p);
  }

  lemma {:induction false} SameRemoval(q: seq<Pid>, p: Pid)
    requires p in q
    ensures RemoveAt(q, IndexOf(q, p)) == PortSpec.Without(q, p)
  {
    var w: seq<nat> := q;
    assert forall i :: 0 <= i < IndexOf(w, p) ==> q[i] != p;
    assert IndexOf(w, p) == IndexOf(q, p);
  }
}
