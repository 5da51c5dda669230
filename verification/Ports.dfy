/**
  Ports under every interleaving of senders, receivers, resets, deletes and
  re-creates. A step is what a process does between two points where another
  process may run: a call that does not block is one step, a call that blocks is
  one step up to the wait and one from there on, and clearing a port is three steps,
  because releasing the waiters of either semaphore may switch processes.
*/
module PortSpec {
  import opened Common
  import opened Lists

  const NPORTS := 30

  type Pid = nat

  datatype PState = PtFree | PtLimbo | PtAlloc

  datatype Semaphore = Semaphore(count: int, waiting: seq<Pid>)

  /**
    `cap` is the number of messages the sender semaphore admits; `put` and `got` are
    the messages put in and taken out since the port was created or last cleared.
  */
  datatype Port = Port(st: PState, num: int, maxcnt: nat, cap: nat, q: seq<int>,
                       ssem: Semaphore, rsem: Semaphore, put: seq<int>, got: seq<int>)

  /**
    What a process is in the middle of: nothing, a send or receive that had to wait
    after recording the sequence number `num`, or a reset or delete.
  */
  datatype Phase =
    | Out
    | InCall(port: nat, sending: bool, num: int, msg: int, released: bool)
    | InClear(port: nat, alloc: bool, stage: nat)

  datatype State = State(ports: seq<Port>, free: int, maxmsgs: int, procs: seq<Phase>)

  /** `Panic`: out of message nodes. `Fault`: a null pointer would be followed. */
  datatype Result = Ret(v: int) | Blocked | Panic | Fault

  datatype Step = Step(s: State, r: Result)

  ghost predicate Shape(s: State) { |s.ports| == NPORTS }

  predicate BadPort(s: State, k: int) { !(0 <= k < |s.ports|) || s.ports[k].st != PtAlloc }

  // ----- semaphores

  function Release(procs: seq<Phase>, p: Pid): (r: seq<Phase>)
    ensures |r| == |procs|
  {
    if p < |procs| && procs[p].InCall? then procs[p := procs[p].(released := true)] else procs
  }

  function ReleaseAll(procs: seq<Phase>, w: seq<Pid>): (r: seq<Phase>)
    ensures |r| == |procs|
    decreases |w|
  {
    if w == [] then procs else ReleaseAll(Release(procs, w[0]), w[1..])
  }

  function Up(e: Semaphore): Semaphore {
    Semaphore(e.count + 1, if e.count < 0 && e.waiting != [] then e.waiting[1..] else e.waiting)
  }

  function SignalProcs(e: Semaphore, procs: seq<Phase>): (r: seq<Phase>)
    ensures |r| == |procs|
  {
    if e.count < 0 && e.waiting != [] then Release(procs, e.waiting[0]) else procs
  }

  function SetPort(s: State, k: nat, t: Port): State
    requires k < |s.ports|
  {
    s.(ports := s.ports[k := t])
  }

  // ----- sending

  /** With the right to send: a node is filled and queued, and a receiver is signalled. */
  function Deliver(s: State, p: Pid, k: nat, m: int): Step
    requires k < |s.ports| && p < |s.procs|
  {
    var t := s.ports[k];
    if s.free <= 0 then Step(s, Panic)
    else
      var t' := t.(q := t.q + [m], put := t.put + [m], rsem := Up(t.rsem));
      Step(SetPort(s, k, t').(free := s.free - 1, procs := SignalProcs(t.rsem, s.procs[p := Out])), Ret(OK))
  }

  function Send(s: State, p: Pid, k: int, m: int): Step
    requires p < |s.procs|
  {
    if BadPort(s, k) then Step(s, Ret(SYSERR))
    else
      var t := s.ports[k];
      var c := t.ssem.count - 1;
      var s1 := SetPort(s, k, t.(ssem := t.ssem.(count := c)));
      if c >= 0 then Deliver(s1, p, k, m)
      else
        Step(SetPort(s, k, t.(ssem := Semaphore(c, t.ssem.waiting + [p]))).(procs := s.procs[p := InCall(k, true, t.num, m, false)]), Blocked)
  }

  /** A released sender first verifies that the port was not cleared meanwhile. */
  function SendOn(s: State, p: Pid): Step
    requires p < |s.procs| && s.procs[p].InCall? && s.procs[p].port < |s.ports|
  {
    var x := s.procs[p];
    var t := s.ports[x.port];
    if t.st != PtAlloc || t.num != x.num then Step(s.(procs := s.procs[p := Out]), Ret(SYSERR))
    else Deliver(s, p, x.port, x.msg)
  }

  // ----- receiving

  /** With the right to receive: the first node is unlinked and freed, and a sender is signalled. */
  function Fetch(s: State, p: Pid, k: nat): Step
    requires k < |s.ports| && p < |s.procs|
  {
    var t := s.ports[k];
    if t.q == [] then Step(s, Fault)
    else
      var t' := t.(q := t.q[1..], got := t.got + [t.q[0]], ssem := Up(t.ssem));
      Step(SetPort(s, k, t').(free := s.free + 1, procs := SignalProcs(t.ssem, s.procs[p := Out])), Ret(t.q[0]))
  }

  function Recv(s: State, p: Pid, k: int): Step
    requires p < |s.procs|
  {
    if BadPort(s, k) then Step(s, Ret(SYSERR))
    else
      var t := s.ports[k];
      var c := t.rsem.count - 1;
      if c >= 0 then Fetch(SetPort(s, k, t.(rsem := t.rsem.(count := c))), p, k)
      else
        Step(SetPort(s, k, t.(rsem := Semaphore(c, t.rsem.waiting + [p]))).(procs := s.procs[p := InCall(k, false, t.num, 0, false)]), Blocked)
  }

  /** A released receiver first verifies that the port was not cleared meanwhile. */
  function RecvOn(s: State, p: Pid): Step
    requires p < |s.procs| && s.procs[p].InCall? && s.procs[p].port < |s.ports|
  {
    var x := s.procs[p];
    var t := s.ports[x.port];
    if t.st != PtAlloc || t.num != x.num then Step(s.(procs := s.procs[p := Out]), Ret(SYSERR))
    else Fetch(s, p, x.port)
  }

  // ----- clearing, creating, killing

  /** A port in limbo: a new sequence number, no messages, all senders let go. */
  function Vacated(t: Port): Port {
    t.(st := PtLimbo, num := t.num + 1, q := [], put := [], got := [], cap := t.maxcnt, ssem := Semaphore(t.maxcnt, []))
  }

  /** First part of a reset or delete, up to the release of the waiting senders. */
  function ClearSenders(s: State, p: Pid, k: int, alloc: bool): Step
    requires p < |s.procs|
  {
    if BadPort(s, k) then Step(s, Ret(SYSERR))
    else
      var t := s.ports[k];
      Step(SetPort(s, k, Vacated(t)).(free := s.free + |t.q|,
                              procs := ReleaseAll(s.procs, t.ssem.waiting)[p := InClear(k, alloc, 1)]), Blocked)
  }

  /** Second part: the release of the waiting receivers. */
  function ClearReceivers(s: State, p: Pid): Step
    requires p < |s.procs| && s.procs[p].InClear? && s.procs[p].port < |s.ports|
  {
    var x := s.procs[p];
    var t := s.ports[x.port];
    Step(SetPort(s, x.port, t.(rsem := Semaphore(0, []))).(procs := ReleaseAll(s.procs, t.rsem.waiting)[p := x.(stage := 2)]), Blocked)
  }

  /** Last part: the port is usable again, or free. */
  function ClearDone(s: State, p: Pid): Step
    requires p < |s.procs| && s.procs[p].InClear? && s.procs[p].port < |s.ports|
  {
    var x := s.procs[p];
    Step(SetPort(s, x.port, s.ports[x.port].(st := if x.alloc then PtAlloc else PtFree)).(procs := s.procs[p := Out]), Ret(OK))
  }

  /** `k` is the free entry that the table scan found. The count is stored in 16 bits. */
  function Create(s: State, k: int, count: int): Step {
    if count < 0 || !(0 <= k < |s.ports|) || s.ports[k].st != PtFree then Step(s, Ret(SYSERR))
    else
      var t := s.ports[k];
      Step(SetPort(s, k, Port(PtAlloc, t.num + 1, count % 0x1_0000, count, [], Semaphore(count, []), Semaphore(0, []), [], [])), Ret(k))
  }

  function Without(w: seq<Pid>, p: Pid): seq<Pid> {
    if p in w then RemoveAt(w, IndexOf(w, p)) else w
  }

  /** A process that waits on a semaphore leaves its queue; the count goes up by one. */
  function Kill(s: State, p: Pid): Step
    requires p < |s.procs|
  {
    var x := s.procs[p];
    var s1 := s.(procs := s.procs[p := Out]);
    if x.InCall? && x.sending && !x.released && x.port < |s.ports| then
      var t := s.ports[x.port];
      Step(SetPort(s1, x.port, t.(ssem := Semaphore(t.ssem.count + 1, Without(t.ssem.waiting, p)))), Ret(OK))
    else if x.InCall? && !x.sending && !x.released && x.port < |s.ports| then
      var t := s.ports[x.port];
      Step(SetPort(s1, x.port, t.(rsem := Semaphore(t.rsem.count + 1, Without(t.rsem.waiting, p)))), Ret(OK))
    else Step(s1, Ret(OK))
  }

  // ----- runs

  datatype Op =
    | DoSend(p: Pid, k: int, m: int) | DoSendOn(p: Pid) | DoRecv(p: Pid, k: int) | DoRecvOn(p: Pid)
    | DoClear(p: Pid, k: int, alloc: bool) | DoClearReceivers(p: Pid) | DoClearDone(p: Pid)
    | DoCreate(k: int, count: int) | DoKill(p: Pid)

  /** A released process whose port has not been cleared since: the next slot or message is its own. */
  predicate HoldsGrant(s: State, p: Pid)
    requires p < |s.procs|
  {
    var x := s.procs[p];
    x.InCall? && x.released && x.port < |s.ports| && s.ports[x.port].st == PtAlloc && s.ports[x.port].num == x.num
  }

  /**
    A process starts a call when it is in none, and goes on when it has been
    released. A process that was granted a slot or a message and has not run yet is
    not killed, because nobody would pass the grant on.
  */
  predicate Enabled(s: State, op: Op) {
    match op
    case DoSend(p, k, m) => p < |s.procs| && s.procs[p] == Out
    case DoSendOn(p) => p < |s.procs| && s.procs[p].InCall? && s.procs[p].sending && s.procs[p].released
    case DoRecv(p, k) => p < |s.procs| && s.procs[p] == Out
    case DoRecvOn(p) => p < |s.procs| && s.procs[p].InCall? && !s.procs[p].sending && s.procs[p].released
    case DoClear(p, k, alloc) => p < |s.procs| && s.procs[p] == Out
    case DoClearReceivers(p) => p < |s.procs| && s.procs[p].InClear? && s.procs[p].stage == 1
    case DoClearDone(p) => p < |s.procs| && s.procs[p].InClear? && s.procs[p].stage == 2
    case DoCreate(k, count) => true
    case DoKill(p) => p < |s.procs| && !HoldsGrant(s, p)
  }

  ghost predicate Next(s: State, op: Op, r: Step) {
    match op
    case DoSend(p, k, m) => p < |s.procs| && r == Send(s, p, k, m)
    case DoSendOn(p) => p < |s.procs| && s.procs[p].InCall? && s.procs[p].port < |s.ports| && r == SendOn(s, p)
    case DoRecv(p, k) => p < |s.procs| && r == Recv(s, p, k)
    case DoRecvOn(p) => p < |s.procs| && s.procs[p].InCall? && s.procs[p].port < |s.ports| && r == RecvOn(s, p)
    case DoClear(p, k, alloc) => p < |s.procs| && r == ClearSenders(s, p, k, alloc)
    case DoClearReceivers(p) => p < |s.procs| && s.procs[p].InClear? && s.procs[p].port < |s.ports| && r == ClearReceivers(s, p)
    case DoClearDone(p) => p < |s.procs| && s.procs[p].InClear? && s.procs[p].port < |s.ports| && r == ClearDone(s, p)
    case DoCreate(k, count) => r == Create(s, k, count)
    case DoKill(p) => p < |s.procs| && r == Kill(s, p)
  }

  datatype Event = Event(before: State, op: Op, r: Step)

  /** A run from `s`; nothing follows a panic or a fault. */
  ghost predicate IsRun(s: State, run: seq<Event>) {
    && (run != [] ==> run[0].before == s)
    && (forall i :: 0 <= i < |run| ==> Enabled(run[i].before, run[i].op) && Next(run[i].before, run[i].op, run[i].r))
    && (forall i, j :: 0 <= i < j < |run| && j == i + 1 ==>
          run[j].before == run[i].r.s && run[i].r.r != Panic && run[i].r.r != Fault)
  }

  /** All ports free, as initialisation leaves them. */
  function Boot(nprocs: nat, maxmsgs: int): State {
    State(seq(NPORTS, k => Port(PtFree, 0, 0, 0, [], Semaphore(0, []), Semaphore(0, []), [], [])),
          maxmsgs, maxmsgs, seq(nprocs, p => Out))
  }
}

module PortInvariant {
  import opened Common
  import opened Lists
  import opened PortSpec

  /** A process waits on this side of port `k`. */
  predicate Waits(x: Phase, k: int, sending: bool) {
    x.InCall? && x.port == k && x.sending == sending && !x.released
  }

  /** A process was released on this side of port `k` in the current life of the port and has not run yet. */
  predicate Granted(x: Phase, k: int, sending: bool, num: int) {
    x.InCall? && x.port == k && x.sending == sending && x.released && x.num == num
  }

  function Tally(procs: seq<Phase>, k: int, sending: bool, num: int): nat {
    if procs == [] then 0
    else Tally(procs[..|procs| - 1], k, sending, num) + if Granted(procs[|procs| - 1], k, sending, num) then 1 else 0
  }

  /** The queue of a semaphore holds exactly the processes that wait on it, each once. */
  ghost predicate QueueOK(e: Semaphore, k: int, sending: bool, procs: seq<Phase>) {
    && Distinct(e.waiting)
    && (forall p: Pid :: p in e.waiting <==> p < |procs| && Waits(procs[p], k, sending))
  }

  ghost predicate SemOK(e: Semaphore) {
    |e.waiting| == if e.count < 0 then -e.count else 0
  }

  /** Sequence numbers that processes hold are never ahead, and are behind while the port is being cleared. */
  ghost predicate NumsOK(t: Port, k: int, procs: seq<Phase>) {
    forall p :: 0 <= p < |procs| && procs[p].InCall? && procs[p].port == k ==>
      && procs[p].num <= t.num && (t.st == PtLimbo ==> procs[p].num < t.num)
      && (t.st == PtAlloc && !procs[p].released ==> procs[p].num == t.num)
  }

  /**
    The counts account for every slot and every message: queued, granted to a
    released process, or waited for. `a` and `b` are grants in the hands of the
    process that takes the step.
  */
  ghost predicate CountsOK(t: Port, k: int, procs: seq<Phase>, a: int, b: int) {
    && SemOK(t.ssem) && SemOK(t.rsem)
    && t.ssem.count == t.cap - |t.q| - Tally(procs, k, true, t.num) - |t.ssem.waiting| - a
    && t.rsem.count == |t.q| - Tally(procs, k, false, t.num) - |t.rsem.waiting| - b
  }

  ghost predicate ClearOK(t: Port, k: int, procs: seq<Phase>) {
    forall p :: 0 <= p < |procs| && procs[p].InClear? && procs[p].port == k ==>
      && t.st == PtLimbo && 1 <= procs[p].stage <= 2 && (procs[p].stage == 2 ==> t.rsem == Semaphore(0, []))
      && forall o :: 0 <= o < |procs| && procs[o].InClear? && procs[o].port == k ==> o == p
  }

  ghost predicate PortOK(t: Port, k: int, procs: seq<Phase>, a: int, b: int) {
    (&& (forall w :: Unfold(PortState, w) ==>
           && QueueOK(t.ssem, k, true, procs) && QueueOK(t.rsem, k, false, procs)
           && NumsOK(t, k, procs) && ClearOK(t, k, procs))
     && t.put == t.got + t.q && (t.st != PtFree ==> t.maxcnt == t.cap % 0x1_0000)
     && (t.st == PtAlloc ==> CountsOK(t, k, procs, a, b))
     && (t.st == PtLimbo ==> t.ssem == Semaphore(t.maxcnt, []) && t.cap == t.maxcnt && t.q == [])
     && (t.st == PtFree ==> t.ssem.waiting == [] && t.rsem.waiting == [] && t.q == [])) == true
  }

  /** Message nodes in use. */
  function Queued(ports: seq<Port>): nat {
    if ports == [] then 0 else Queued(ports[..|ports| - 1]) + |ports[|ports| - 1].q|
  }

  ghost predicate Inv(s: State) {
    (&& Shape(s) && s.free + Queued(s.ports) == s.maxmsgs
     && (forall p :: 0 <= p < |s.procs| && s.procs[p] != Out ==> s.procs[p].port < NPORTS)
     && forall k :: 0 <= k < NPORTS ==> PortOK(s.ports[k], k, s.procs, 0, 0)) == true
  }
}
