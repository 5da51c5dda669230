/**
  What receivers get. Over whole runs, with resets, deletions and kills, the values
  that the receives on a port return are the messages of the sends that succeeded on
  it, in their order.
*/
module PortValues {
  import opened Common
  import opened Lists
  import opened PortSpec
  import opened PortInvariant
  import opened PortProofs

  // ----- reading a run from its end

  /** The call that process `p` made last. */
  ghost function CallOf(run: seq<Event>, p: Pid): Option<Op> {
    if run == [] then None
    else
      var op := run[|run| - 1].op;
      if (op.DoSend? || op.DoRecv? || op.DoClear?) && op.p == p then Some(op) else CallOf(run[..|run| - 1], p)
  }

  /** From here on the port is a new one: it was created, reset or deleted. */
  ghost predicate Renews(e: Event, k: nat) {
    || (e.op.DoCreate? && e.op.k == k && e.r.r == Ret(k))
    || (e.op.DoClear? && e.op.k == k && !BadPort(e.before, k))
  }

  /** The message that the event has sent to port `k`, if any: the argument of the sender's own call. */
  ghost function SentBy(run: seq<Event>, e: Event, k: nat): seq<int> {
    if e.r.r != Ret(OK) then []
    else if e.op.DoSend? && e.op.k == k then [e.op.m]
    else if e.op.DoSendOn? then
      (match CallOf(run, e.op.p)
       case Some(DoSend(p, h, m)) => if h == k then [m] else []
       case _ => [])
    else []
  }

  /** The value that the event has returned to a receiver of port `k`, if any. */
  ghost function ReturnedBy(run: seq<Event>, e: Event, k: nat): seq<int> {
    if !e.r.r.Ret? then []
    else if e.op.DoRecv? && e.op.k == k && !BadPort(e.before, k) then [e.r.r.v]
    else if e.op.DoRecvOn? && e.op.p < |e.before.procs| && HoldsGrant(e.before, e.op.p) then
      (match CallOf(run, e.op.p)
       case Some(DoRecv(p, h)) => if h == k then [e.r.r.v] else []
       case _ => [])
    else []
  }

  /** The messages sent to port `k` since it is the port it is. */
  ghost function Sent(run: seq<Event>, k: nat): seq<int> {
    if run == [] then []
    else
      var e, before := run[|run| - 1], run[..|run| - 1];
      if Renews(e, k) then [] else Sent(before, k) + SentBy(before, e, k)
  }

  /** The values returned to its receivers since then. */
  ghost function Returned(run: seq<Event>, k: nat): seq<int> {
    if run == [] then []
    else
      var e, before := run[|run| - 1], run[..|run| - 1];
      if Renews(e, k) then [] else Returned(before, k) + ReturnedBy(before, e, k)
  }

  // ----- the run describes the state

  ghost predicate CallerAgrees(run: seq<Event>, s: State, p: Pid)
    requires p < |s.procs|
  {
    var x := s.procs[p];
    x.InCall? ==> CallOf(run, p) == Some(if x.sending then DoSend(p, x.port, x.msg) else DoRecv(p, x.port))
  }

  ghost predicate PortAgrees(run: seq<Event>, s: State, k: nat)
    requires k < |s.ports|
  {
    Sent(run, k) == Returned(run, k) + s.ports[k].q
  }

  ghost predicate Agrees(run: seq<Event>, s: State) {
    (&& |s.ports| == NPORTS && (forall p :: 0 <= p < |s.procs| ==> CallerAgrees(run, s, p))
     && forall k :: 0 <= k < NPORTS ==> PortAgrees(run, s, k)) == true
  }

  lemma Snoc(run: seq<Event>, e: Event)
    ensures (run + [e])[..|run + [e]| - 1] == run && (run + [e])[|run + [e]| - 1] == e
  {
  }

  /** Nobody gets into a call but by making it. */
  lemma OnlyOwnCall(s: State, op: Op, r: Step, p: Pid)
    requires Inv(s) && Enabled(s, op) && Next(s, op, r) && !Acts(op, p) && p < |r.s.procs| && r.s.procs[p].InCall?
    ensures p < |s.procs| && SameCall(s.procs[p], r.s.procs[p])
  {
    if op.DoSend? || op.DoSendOn? {
      SendSignals(s, op, r, p);
    } else if op.DoRecv? || op.DoRecvOn? {
      ReceiveSignals(s, op, r, p);
    } else if op.DoClear? && !BadPort(s, op.k) {
      ReleasedAll(s.procs, s.ports[op.k].ssem.waiting, ReleaseAll(s.procs, s.ports[op.k].ssem.waiting));
    } else if op.DoClearReceivers? {
      var w := s.ports[s.procs[op.p].port].rsem.waiting;
      ReleasedAll(s.procs, w, ReleaseAll(s.procs, w));
    }
  }

  lemma SendSignals(s: State, op: Op, r: Step, p: Pid)
    requires Inv(s) && Enabled(s, op) && Next(s, op, r) && !Acts(op, p) && p < |r.s.procs| && r.s.procs[p].InCall?
    requires op.DoSend? || op.DoSendOn?
    ensures p < |s.procs| && SameCall(s.procs[p], r.s.procs[p])
  {
  }

  lemma ReceiveSignals(s: State, op: Op, r: Step, p: Pid)
    requires Inv(s) && Enabled(s, op) && Next(s, op, r) && !Acts(op, p) && p < |r.s.procs| && r.s.procs[p].InCall?
    requires op.DoRecv? || op.DoRecvOn?
    ensures p < |s.procs| && SameCall(s.procs[p], r.s.procs[p])
  {
  }

  /** What the process's own step leaves it in. */
  lemma OwnCall(s: State, op: Op, r: Step, p: Pid)
    requires Inv(s) && Enabled(s, op) && Next(s, op, r) && Acts(op, p) && p < |r.s.procs| && r.s.procs[p].InCall?
    ensures op.DoSend? ==> r.s.procs[p].sending && r.s.procs[p].port == op.k && r.s.procs[p].msg == op.m
    ensures op.DoRecv? ==> !r.s.procs[p].sending && r.s.procs[p].port == op.k
    ensures op.DoSend? || op.DoRecv? || (op.DoSendOn? && r.r == Panic && r.s.procs == s.procs)
  {
    NextKeeps(s, op, r);
  }

  lemma CallersStep(run: seq<Event>, e: Event)
    requires Agrees(run, e.before) && Inv(e.before) && Enabled(e.before, e.op) && Next(e.before, e.op, e.r)
    ensures forall p :: 0 <= p < |e.r.s.procs| ==> CallerAgrees(run + [e], e.r.s, p)
  {
    Snoc(run, e);
    forall p | 0 <= p < |e.r.s.procs| ensures CallerAgrees(run + [e], e.r.s, p) {
      if e.r.s.procs[p].InCall? {
        if Acts(e.op, p) {
          OwnCall(e.before, e.op, e.r, p);
          if e.op.DoSendOn? { assert CallerAgrees(run, e.before, p); }
        } else {
          OnlyOwnCall(e.before, e.op, e.r, p);
          assert CallerAgrees(run, e.before, p);
        }
      }
    }
  }

  /** A send that succeeds puts its message at the end of the queue. */
  lemma SendMoves(s: State, op: Op, r: Step, k: nat)
    requires Inv(s) && Enabled(s, op) && Next(s, op, r) && k < NPORTS && |r.s.ports| == NPORTS && (op.DoSend? || op.DoSendOn?)
    ensures r.s.ports[k].q == if r.r != Ret(OK) then s.ports[k].q
                              else if op.DoSend? && op.k == k then s.ports[k].q + [op.m]
                              else if op.DoSendOn? && s.procs[op.p].port == k then s.ports[k].q + [s.procs[op.p].msg]
                              else s.ports[k].q
  {
  }

  /** A receive that succeeds takes the first message and returns it. */
  lemma ReceiveMoves(s: State, op: Op, r: Step, k: nat)
    requires Inv(s) && Enabled(s, op) && Next(s, op, r) && k < NPORTS && |r.s.ports| == NPORTS && (op.DoRecv? || op.DoRecvOn?)
    ensures if r.r.Ret? && ((op.DoRecv? && op.k == k && !BadPort(s, k)) || (op.DoRecvOn? && HoldsGrant(s, op.p) && s.procs[op.p].port == k))
            then s.ports[k].q == [r.r.v] + r.s.ports[k].q
            else r.s.ports[k].q == s.ports[k].q
  {
    NextKeeps(s, op, r);
  }

  lemma OthersMove(s: State, op: Op, r: Step, k: nat)
    requires Inv(s) && Enabled(s, op) && Next(s, op, r) && k < NPORTS && |r.s.ports| == NPORTS
    requires !(op.DoSend? || op.DoSendOn? || op.DoRecv? || op.DoRecvOn?)
    ensures r.s.ports[k].q == if Renews(Event(s, op, r), k) then [] else s.ports[k].q
  {
    FreeIsEmpty(s, k);
  }

  lemma EventMoves(run: seq<Event>, e: Event, k: nat)
    requires Agrees(run, e.before) && Inv(e.before) && Enabled(e.before, e.op) && Next(e.before, e.op, e.r) && k < NPORTS
    requires |e.r.s.ports| == NPORTS
    ensures if Renews(e, k) then e.r.s.ports[k].q == []
            else e.before.ports[k].q + SentBy(run, e, k) == ReturnedBy(run, e, k) + e.r.s.ports[k].q
  {
    if e.op.DoSendOn? || e.op.DoRecvOn? { assert CallerAgrees(run, e.before, e.op.p); }
    if e.op.DoSend? || e.op.DoSendOn? {
      SendMoves(e.before, e.op, e.r, k);
    } else if e.op.DoRecv? || e.op.DoRecvOn? {
      ReceiveMoves(e.before, e.op, e.r, k);
      NoneSent(run, e, k);
    } else {
      OthersMove(e.before, e.op, e.r, k);
    }
  }

  /** A receive sends nothing, whatever it returns. */
  lemma NoneSent(run: seq<Event>, e: Event, k: nat)
    requires e.op.DoRecv? || e.op.DoRecvOn?
    ensures SentBy(run, e, k) == []
  {
  }

  lemma PortStep(run: seq<Event>, e: Event, k: nat)
    requires Agrees(run, e.before) && Inv(e.before) && Enabled(e.before, e.op) && Next(e.before, e.op, e.r) && k < NPORTS
    requires |e.r.s.ports| == NPORTS
    ensures PortAgrees(run + [e], e.r.s, k)
  {
    Snoc(run, e);
    assert PortAgrees(run, e.before, k);
    EventMoves(run, e, k);
    if !Renews(e, k) {
      Regrouped(Sent(run, k), Returned(run, k), e.before.ports[k].q, SentBy(run, e, k), ReturnedBy(run, e, k), e.r.s.ports[k].q);
    }
  }

  lemma Regrouped(a: seq<int>, b: seq<int>, q: seq<int>, x: seq<int>, y: seq<int>, t: seq<int>)
    requires a == b + q && q + x == y + t
    ensures a + x == b + y + t
  {
    assert b + q + x == b + (q + x);
    assert b + (y + t) == b + y + t;
  }

  lemma {:induction false} RunAgrees(nprocs: nat, maxmsgs: int, run: seq<Event>)
    requires IsRun(Boot(nprocs, maxmsgs), run)
    ensures Agrees(run, LastOf(Boot(nprocs, maxmsgs), run))
    decreases |run|
  {
    if run != [] {
      var n := |run| - 1;
      var e, before := run[n], run[..n];
      RunFront(Boot(nprocs, maxmsgs), run);
      RunAgrees(nprocs, maxmsgs, before);
      ReachableOK(nprocs, maxmsgs, run, n);
      PortsStay(e.before, e.op, e.r);
      assert before + [e] == run;
      CallersStep(before, e);
      forall k | 0 <= k < NPORTS ensures PortAgrees(run, e.r.s, k) { PortStep(before, e, k); }
    }
  }

  lemma RunFront(s: State, run: seq<Event>)
    requires IsRun(s, run) && run != []
    ensures IsRun(s, run[..|run| - 1]) && run[|run| - 1].before == LastOf(s, run[..|run| - 1])
  {
    var n := |run| - 1;
    var front := run[..n];
    forall i | 0 <= i < |front| ensures Enabled(front[i].before, front[i].op) && Next(front[i].before, front[i].op, front[i].r) {
      assert front[i] == run[i];
    }
    forall i, j | 0 <= i < j < |front| && j == i + 1
      ensures front[j].before == front[i].r.s && front[i].r.r != Panic && front[i].r.r != Fault
    {
      assert front[i] == run[i] && front[j] == run[j];
    }
    if n > 0 { assert run[n].before == run[n - 1].r.s && front[n - 1] == run[n - 1] && front[0] == run[0]; }
  }

  lemma PortsStay(s: State, op: Op, r: Step)
    requires Inv(s) && Enabled(s, op) && Next(s, op, r)
    ensures |r.s.ports| == NPORTS
  {
  }

  /**
    In every run from initialisation: since a port was created or last cleared, the
    values returned to its receivers are the messages of the sends that succeeded on
    it, in their order, up to the ones still queued.
  */
  lemma {:induction false} ReceivedAsSent(nprocs: nat, maxmsgs: int, run: seq<Event>, k: nat)
    requires IsRun(Boot(nprocs, maxmsgs), run) && k < NPORTS
    ensures var z := LastOf(Boot(nprocs, maxmsgs), run);
            && |z.ports| == NPORTS && Sent(run, k) == Returned(run, k) + z.ports[k].q
            && Returned(run, k) <= Sent(run, k)
  {
    RunAgrees(nprocs, maxmsgs, run);
    var z := LastOf(Boot(nprocs, maxmsgs), run);
    assert PortAgrees(run, z, k);
  }

  /**
    A clearing that nobody disturbs: the messages are gone and their nodes free, all
    who waited are released, and the port is as new, with its stored maximum, or free.
  */
  lemma ClearingCompletes(s: State, p: Pid, k: nat, alloc: bool)
    requires Inv(s) && Enabled(s, DoClear(p, k, alloc)) && !BadPort(s, k)
    ensures var r1 := ClearSenders(s, p, k, alloc);
            p < |r1.s.procs| && r1.s.procs[p] == InClear(k, alloc, 1) && k < |r1.s.ports| &&
            var r2 := ClearReceivers(r1.s, p);
            p < |r2.s.procs| && r2.s.procs[p] == InClear(k, alloc, 2) && k < |r2.s.ports| &&
            var r3 := ClearDone(r2.s, p);
            var t := s.ports[k];
            && r3.r == Ret(OK) && r3.s.free == s.free + |t.q| && p < |r3.s.procs| == |s.procs| && r3.s.procs[p] == Out
            && r3.s.ports == s.ports[k := Port(if alloc then PtAlloc else PtFree, t.num + 1, t.maxcnt, t.maxcnt, [],
                                               Semaphore(t.maxcnt, []), Semaphore(0, []), [], [])]
            && forall o :: 0 <= o < |s.procs| && (o in t.ssem.waiting || o in t.rsem.waiting) ==>
                 r3.s.procs[o].InCall? && r3.s.procs[o].released
  {
    var t := s.ports[k];
    var r1 := ClearSenders(s, p, k, alloc);
    ReleasedAll(s.procs, t.ssem.waiting, ReleaseAll(s.procs, t.ssem.waiting));
    ReleasedAll(r1.s.procs, t.rsem.waiting, ReleaseAll(r1.s.procs, t.rsem.waiting));
    WaitersCall(s, k);
  }

  lemma WaitersCall(s: State, k: nat)
    requires Inv(s) && k < NPORTS
    ensures forall o: Pid :: o in s.ports[k].ssem.waiting || o in s.ports[k].rsem.waiting ==> o < |s.procs| && s.procs[o].InCall?
  {
    assert Unfold(PortState, true);
    assert PortOK(s.ports[k], k, s.procs, 0, 0);
  }
}
