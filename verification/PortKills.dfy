/**
  What a kill can do to a port: a process that was granted a slot or a message takes
  it along, and a process that is clearing a port leaves it in limbo.
*/
module PortKills {
  import opened Common
  import opened Lists
  import opened PortSpec
  import opened PortInvariant
  import opened PortProofs

  // ----- a granted process is killed

  /** The port is created for one message, `p` sends, `q` has to wait, and `r` receives, which releases `q`. */
  ghost function GrantRun(s: State, p: Pid, q: Pid, r: Pid): seq<Event>
    requires Shape(s) && p < |s.procs| && q < |s.procs| && r < |s.procs|
  {
    var e1 := Event(s, DoCreate(0, 1), Create(s, 0, 1));
    var e2 := Event(e1.r.s, DoSend(p, 0, 1), Send(e1.r.s, p, 0, 1));
    if q >= |e2.r.s.procs| then [] else
    var e3 := Event(e2.r.s, DoSend(q, 0, 2), Send(e2.r.s, q, 0, 2));
    if r >= |e3.r.s.procs| then [] else
    var e4 := Event(e3.r.s, DoRecv(r, 0), Recv(e3.r.s, r, 0));
    [e1, e2, e3, e4]
  }

  /** Nobody is in a call, the port is in use and empty, and yet the next send has to wait. */
  ghost predicate SlotLost(s: State, k: nat, p: Pid) {
    && k < |s.ports| && s.ports[k].st == PtAlloc && s.ports[k].cap == 1 && s.ports[k].q == []
    && (forall o :: 0 <= o < |s.procs| ==> s.procs[o] == Out)
    && p < |s.procs| && Send(s, p, k, 1).r == Blocked
  }

  /** From initialisation a run leads to a granted process; killing it loses the slot. */
  lemma GrantLost(nprocs: nat, maxmsgs: int, p: Pid, q: Pid, r: Pid)
    requires maxmsgs >= 1 && p < nprocs && q < nprocs && r < nprocs && p != q && q != r && r != p
    ensures var run := GrantRun(Boot(nprocs, maxmsgs), p, q, r);
            && IsRun(Boot(nprocs, maxmsgs), run) && |run| == 4 && q < |run[3].r.s.procs|
            && Inv(run[3].r.s) && HoldsGrant(run[3].r.s, q)
            && !Inv(Kill(run[3].r.s, q).s) && SlotLost(Kill(run[3].r.s, q).s, 0, p)
  {
    var s := Boot(nprocs, maxmsgs);
    var run := GrantRun(s, p, q, r);
    GrantPorts(s, p, q, r);
    BootInv(nprocs, maxmsgs);
    RunKeeps(s, run, 3);
    KillKeeps(run[3].r.s, q, Kill(run[3].r.s, q));
    NobodyIn(run[3].r.s, q, p, nprocs);
  }

  /** Where that run leads. */
  lemma GrantPorts(s: State, p: Pid, q: Pid, r: Pid)
    requires Shape(s) && s.ports[0] == Port(PtFree, 0, 0, 0, [], Semaphore(0, []), Semaphore(0, []), [], []) && s.free >= 1
    requires p < |s.procs| && q < |s.procs| && r < |s.procs| && p != q && q != r && r != p
    requires s.procs == seq(|s.procs|, o => Out)
    ensures var run := GrantRun(s, p, q, r);
            && |run| == 4 && IsRun(s, run) && var z := run[3].r.s;
               && |z.ports| == NPORTS && z.ports[0].st == PtAlloc && z.ports[0].cap == 1 && z.ports[0].num == 1 && z.ports[0].q == []
               && z.ports[0].ssem == Semaphore(0, []) && z.procs == s.procs[q := InCall(0, true, 1, 2, true)]
  {
    var run := GrantRun(s, p, q, r);
    assert s.procs[p := Out] == s.procs;
    assert run[1].r.s.ports[0].ssem == Semaphore(0, []) && run[1].r.s.ports[0].rsem == Semaphore(1, []);
    assert run[1].r.s.procs == s.procs && run[1].r.r == Ret(OK);
    var x := InCall(0, true, 1, 2, false);
    assert run[2].r.s.ports[0].ssem == Semaphore(-1, [q]) && run[2].r.s.procs == s.procs[q := x];
    assert s.procs[q := x][r := Out] == s.procs[q := x];
  }

  lemma NobodyIn(z: State, q: Pid, p: Pid, nprocs: nat)
    requires |z.ports| == NPORTS && z.ports[0].st == PtAlloc && z.ports[0].cap == 1 && z.ports[0].q == []
    requires z.ports[0].ssem == Semaphore(0, []) && p < nprocs && q < nprocs
    requires z.procs == seq(nprocs, o => Out)[q := InCall(0, true, 1, 2, true)]
    ensures SlotLost(Kill(z, q).s, 0, p)
  {
  }

  // ----- a clearing process is killed

  /** In limbo, and nobody is there to end it. */
  ghost predicate Abandoned(s: State, k: nat) {
    (&& k < |s.ports| && s.ports[k].st == PtLimbo
     && forall p :: 0 <= p < |s.procs| && s.procs[p].InClear? ==> s.procs[p].port != k) == true
  }

  lemma SendAbandoned(s: State, op: Op, r: Step, k: nat)
    requires Inv(s) && Abandoned(s, k) && Enabled(s, op) && Next(s, op, r) && (op.DoSend? || op.DoSendOn?)
    ensures Abandoned(r.s, k)
  {
  }

  lemma RecvAbandoned(s: State, op: Op, r: Step, k: nat)
    requires Inv(s) && Abandoned(s, k) && Enabled(s, op) && Next(s, op, r) && (op.DoRecv? || op.DoRecvOn?)
    ensures Abandoned(r.s, k)
  {
  }

  lemma StepAbandoned(s: State, op: Op, r: Step, k: nat)
    requires Inv(s) && Abandoned(s, k) && Enabled(s, op) && Next(s, op, r)
    ensures Abandoned(r.s, k)
  {
    if op.DoClear? && !BadPort(s, op.k) {
      ReleasedAll(s.procs, s.ports[op.k].ssem.waiting, ReleaseAll(s.procs, s.ports[op.k].ssem.waiting));
    } else if op.DoClearReceivers? {
      var w := s.ports[s.procs[op.p].port].rsem.waiting;
      ReleasedAll(s.procs, w, ReleaseAll(s.procs, w));
    } else if op.DoSend? || op.DoSendOn? {
      SendAbandoned(s, op, r, k);
    } else if op.DoRecv? || op.DoRecvOn? {
      RecvAbandoned(s, op, r, k);
    }
  }

  lemma {:induction false} StaysAbandoned(s: State, run: seq<Event>, k: nat, i: nat)
    requires Inv(s) && Abandoned(s, k) && IsRun(s, run) && i < |run|
    ensures Abandoned(run[i].before, k) && Abandoned(run[i].r.s, k)
  {
    RunKeeps(s, run, i);
    if i > 0 { StaysAbandoned(s, run, k, i - 1); }
    StepAbandoned(run[i].before, run[i].op, run[i].r, k);
  }

  /**
    If the process that is clearing a port is killed, the port is in limbo for ever:
    in no run can it be used, cleared or created again.
  */
  lemma ClearerKilled(s: State, p: Pid, run: seq<Event>, i: nat)
    requires Inv(s) && p < |s.procs| && s.procs[p].InClear? && IsRun(Kill(s, p).s, run) && i < |run|
    ensures Enabled(s, DoKill(p)) && Inv(Kill(s, p).s)
    ensures s.procs[p].port < |run[i].r.s.ports| && run[i].r.s.ports[s.procs[p].port].st == PtLimbo
  {
    var k := s.procs[p].port;
    KillKeeps(s, p, Kill(s, p));
    OnlyClearer(s, p);
    assert Abandoned(Kill(s, p).s, k);
    StaysAbandoned(Kill(s, p).s, run, k, i);
  }

  lemma OnlyClearer(s: State, p: Pid)
    requires Inv(s) && p < |s.procs| && s.procs[p].InClear?
    ensures s.procs[p].port < NPORTS && s.ports[s.procs[p].port].st == PtLimbo
    ensures forall o :: 0 <= o < |s.procs| && s.procs[o].InClear? && s.procs[o].port == s.procs[p].port ==> o == p
  {
    assert Unfold(PortState, true);
    var k := s.procs[p].port;
    assert PortOK(s.ports[k], k, s.procs, 0, 0);
  }
}
