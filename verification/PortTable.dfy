/**
  The port calls over the port table and the pool of message nodes, each part of a
  call proved to take the step that the transition system describes.
*/
module PortTable {
  import opened Common
  import opened PortSpec
  import opened PortInvariant
  import opened PortProofs
  import opened PortNodes

  datatype PtEntry = PtEntry(st: PState, num: int, maxcnt: nat, ssem: Semaphore, rsem: Semaphore)

  /** What specifications remember of a port besides its table entry. */
  datatype Past = Past(cap: nat, put: seq<int>, got: seq<int>)

  function PortOf(e: PtEntry, h: Past, q: seq<int>): Port {
    Port(e.st, e.num, e.maxcnt, h.cap, q, e.ssem, e.rsem, h.put, h.got)
  }

  function PortsOf(tab: seq<PtEntry>, past: seq<Past>, qs: seq<seq<int>>): (r: seq<Port>)
    requires |tab| == |past| == |qs| == NPORTS
    ensures |r| == NPORTS
  {
    seq(NPORTS, k requires 0 <= k < NPORTS => PortOf(tab[k], past[k], qs[k]))
  }

  /** The list pointers of a port are in use while it is allocated, and not while it is free. */
  ghost predicate PointersOK(tab: seq<PtEntry>, live: seq<bool>) {
    (|tab| == |live| == NPORTS && forall k :: 0 <= k < NPORTS ==>
       (tab[k].st == PtAlloc ==> live[k]) && (tab[k].st == PtFree ==> !live[k])) == true
  }

  /** A port that is being reset keeps them, one that is being deleted does not. */
  ghost predicate ClearingOK(tab: seq<PtEntry>, live: seq<bool>, procs: seq<Phase>) {
    (|tab| == |live| == NPORTS && forall p :: 0 <= p < |procs| && procs[p].InClear? && procs[p].port < NPORTS ==>
       (tab[procs[p].port].st == PtLimbo ==> live[procs[p].port] == procs[p].alloc)) == true
  }

  /** One entry changes. */
  lemma EntryChanged(tab: seq<PtEntry>, past: seq<Past>, qs: seq<seq<int>>, k: nat, e: PtEntry, h: Past, q: seq<int>)
    requires |tab| == |past| == |qs| == NPORTS && k < NPORTS
    ensures PortsOf(tab[k := e], past[k := h], qs[k := q]) == PortsOf(tab, past, qs)[k := PortOf(e, h, q)]
  {
  }

  lemma EntryPut(tab: seq<PtEntry>, past: seq<Past>, qs: seq<seq<int>>, k: nat, m: int, free: int, n: int, procs: seq<Phase>)
    requires |tab| == |past| == |qs| == NPORTS && k < NPORTS
    ensures var s := State(PortsOf(tab, past, qs), free, n, procs);
            State(PortsOf(tab, past[k := past[k].(put := past[k].put + [m])], qs[k := qs[k] + [m]]), free - 1, n, procs)
            == Appended(s, k, m)
  {
  }

  lemma EntryVacated(tab: seq<PtEntry>, past: seq<Past>, qs: seq<seq<int>>, k: nat, e: PtEntry, free: int, n: int, procs: seq<Phase>)
    requires |tab| == |past| == |qs| == NPORTS && k < NPORTS
    requires e == tab[k].(st := PtLimbo, num := tab[k].num + 1, ssem := Semaphore(tab[k].maxcnt, []))
    ensures var s := State(PortsOf(tab, past, qs), free, n, procs);
            State(PortsOf(tab[k := e], past[k := Past(e.maxcnt, [], [])], qs[k := []]), free + |qs[k]|, n, procs)
            == SetPort(s, k, Vacated(s.ports[k])).(free := free + |s.ports[k].q|)
  {
  }

  /** A node with the message has moved from the free list to the end of the port's list. */
  function Appended(s: State, k: nat, m: int): State
    requires k < |s.ports|
  {
    SetPort(s, k, s.ports[k].(q := s.ports[k].q + [m], put := s.ports[k].put + [m])).(free := s.free - 1)
  }

  /** A waiter is no longer on its queue. */
  function Unqueued(s: State, p: Pid): State
    requires p < |s.procs|
  {
    var x := s.procs[p];
    if x.InCall? && !x.released && x.port < |s.ports| then
      var t := s.ports[x.port];
      SetPort(s, x.port, if x.sending then t.(ssem := Semaphore(t.ssem.count + 1, Without(t.ssem.waiting, p)))
                         else t.(rsem := Semaphore(t.rsem.count + 1, Without(t.rsem.waiting, p))))
    else s
  }

  lemma KillUnqueues(s: State, p: Pid)
    requires p < |s.procs|
    ensures Kill(s, p) == Step(Unqueued(s, p).(procs := s.procs[p := Out]), Ret(OK))
  {
  }

  class Table {
    const pool: Pool
    var tab: seq<PtEntry>
    var ptnextid: nat
    var procs: seq<Phase>          // where each process is inside a port call
    ghost var past: seq<Past>

    ghost predicate Valid()
      reads this, pool, pool.nodes
    {
      && pool.Valid() && |tab| == |past| == NPORTS && ptnextid < NPORTS
      && PointersOK(tab, pool.live) && ClearingOK(tab, pool.live, procs)
    }

    ghost function Abs(): State
      requires |tab| == |past| == NPORTS
      reads this, pool, pool.nodes
    {
      State(PortsOf(tab, past, pool.Queues()), if |pool.lists| > 0 then |pool.lists[0]| else 0, pool.nodes.Length, procs)
    }

    /** All ports free, all nodes on the free list. */
    constructor (nprocs: nat, maxmsgs: nat)
      requires maxmsgs >= 1
      ensures Valid() && Abs() == Boot(nprocs, maxmsgs) && Inv(Abs())
    {
      pool := new Pool(maxmsgs);
      tab := seq(NPORTS, k => PtEntry(PtFree, 0, 0, Semaphore(0, []), Semaphore(0, [])));
      past := seq(NPORTS, k => Past(0, [], []));
      ptnextid := 0;
      procs := seq(nprocs, p => Out);
      new;
      assert Abs().ports == Boot(nprocs, maxmsgs).ports;
      BootInv(nprocs, maxmsgs);
    }

    predicate BadId(k: int)
      requires |tab| == NPORTS
      reads this
    {
      !(0 <= k < NPORTS) || tab[k].st != PtAlloc
    }

    // ----- creating a port

    /** `k` is the entry that the scan found, or negative. */
    method PtCreate(count: int) returns (r: Result, ghost k: int)
      requires Valid() && Inv(Abs())
      modifies this, pool
      ensures Valid() && Step(Abs(), r) == Create(old(Abs()), k, count) && Inv(Abs())
      ensures count >= 0 && (exists h :: 0 <= h < NPORTS && old(tab)[h].st == PtFree) ==> r != Ret(SYSERR)
    {
      if count < 0 { return Ret(SYSERR), -1; }
      var ptnum := FindFree();
      k := ptnum;
      if ptnum < 0 { return Ret(SYSERR), k; }
      Allocate(ptnum, count);
      return Ret(ptnum), k;
    }

    /** The round-robin scan for a free entry; negative if there is none. */
    method FindFree() returns (ptnum: int)
      requires Valid()
      modifies this`ptnextid
      ensures ptnextid < NPORTS
      ensures if ptnum < 0 then forall k :: 0 <= k < NPORTS ==> tab[k].st != PtFree
              else ptnum < NPORTS && tab[ptnum].st == PtFree
    {
      var i := 0;
      ghost var start := ptnextid;
      while i < NPORTS
        invariant 0 <= i <= NPORTS && ptnextid < NPORTS
        invariant ptnextid == if start + i < NPORTS then start + i else start + i - NPORTS
        invariant forall j :: start <= j < start + i && j < NPORTS ==> tab[j].st != PtFree
        invariant forall j :: 0 <= j < start + i - NPORTS ==> tab[j].st != PtFree
      {
        ptnum := ptnextid;
        ptnextid := ptnextid + 1;
        if ptnextid >= NPORTS { ptnextid := 0; }
        if tab[ptnum].st == PtFree { return; }
        i := i + 1;
      }
      return -1;
    }

    method Allocate(k: nat, count: nat)
      requires Valid() && Inv(Abs()) && k < NPORTS && tab[k].st == PtFree
      modifies this`tab, this`past, pool
      ensures Valid() && Step(Abs(), Ret(k)) == Create(old(Abs()), k, count) && Inv(Abs())
    {
      ghost var s, qs := Abs(), pool.Queues();
      FreeIsEmpty(s, k);
      ClearingElsewhere(s, k);
      pool.OpenPort(k);
      var e := PtEntry(PtAlloc, tab[k].num + 1, count % 0x1_0000, Semaphore(count, []), Semaphore(0, []));
      EntryChanged(tab, past, qs, k, e, Past(count, [], []), []);
      assert qs[k := []] == qs;
      tab := tab[k := e];
      past := past[k := Past(count, [], [])];
      CreateKeeps(s, k, count, Create(s, k, count));
    }

    /** Nobody is clearing a port that is free or allocated. */
    lemma ClearingElsewhere(s: State, k: nat)
      requires Inv(s) && k < NPORTS && s.ports[k].st != PtLimbo
      ensures forall p :: 0 <= p < |s.procs| && s.procs[p].InClear? ==> s.procs[p].port != k
    {
      assert PortOK(s.ports[k], k, s.procs, 0, 0);
      assert Unfold(PortState, true);
    }

    // ----- sending

    method PtSend(p: Pid, k: int, m: int) returns (r: Result)
      requires Valid() && Inv(Abs()) && Enabled(Abs(), DoSend(p, k, m))
      modifies this, pool, pool.nodes
      ensures Valid() && Step(Abs(), r) == Send(old(Abs()), p, k, m) && (r != Panic ==> Inv(Abs()))
    {
      ghost var s := Abs();
      if BadId(k) { return Ret(SYSERR); }
      NextKeeps(s, DoSend(p, k, m), Send(s, p, k, m));
      var c := tab[k].ssem.count - 1;
      if c < 0 {
        Block(p, k, tab[k].(ssem := Semaphore(c, tab[k].ssem.waiting + [p])), true, m);
        return Blocked;
      }
      SetEntry(k, tab[k].(ssem := tab[k].ssem.(count := c)));
      r := Enqueue(p, k, m);
    }

    /** The table entry changes, not the list. */
    method SetEntry(k: nat, e: PtEntry)
      requires Valid() && k < NPORTS && e.st == tab[k].st
      modifies this`tab
      ensures Valid() && tab == old(tab)[k := e]
      ensures Abs() == SetPort(old(Abs()), k, PortOf(e, past[k], old(Abs()).ports[k].q))
    {
      EntryChanged(tab, past, pool.Queues(), k, e, past[k], pool.Queues()[k]);
      assert past[k := past[k]] == past && pool.Queues()[k := pool.Queues()[k]] == pool.Queues();
      tab := tab[k := e];
    }

    /** The caller joins a queue and records the sequence number. */
    method Block(p: Pid, k: nat, e: PtEntry, sending: bool, m: int)
      requires Valid() && k < NPORTS && e.st == tab[k].st && e.num == tab[k].num && p < |procs|
      modifies this`tab, this`procs
      ensures Valid()
      ensures Abs() == SetPort(old(Abs()), k, PortOf(e, past[k], old(Abs()).ports[k].q))
                       .(procs := old(procs)[p := InCall(k, sending, e.num, m, false)])
    {
      SetEntry(k, e);
      procs := procs[p := InCall(k, sending, e.num, m, false)];
    }

    /** A released sender goes on. */
    method PtSendOn(p: Pid) returns (r: Result)
      requires Valid() && Inv(Abs()) && Enabled(Abs(), DoSendOn(p)) && procs[p].port < NPORTS
      modifies this, pool, pool.nodes
      ensures Valid() && Step(Abs(), r) == SendOn(old(Abs()), p) && (r != Panic ==> Inv(Abs()))
    {
      ghost var s := Abs();
      var x := procs[p];
      SendOnKept(s, p);
      if tab[x.port].st != PtAlloc || tab[x.port].num != x.num {
        procs := procs[p := Out];
        return Ret(SYSERR);
      }
      r := Enqueue(p, x.port, x.msg);
    }

    lemma SendOnKept(s: State, p: Pid)
      requires Inv(s) && Enabled(s, DoSendOn(p)) && s.procs[p].port < NPORTS
      ensures SendOn(s, p).r != Panic ==> Inv(SendOn(s, p).s)
    {
      if SendOn(s, p).r != Panic { SendOnKeeps(s, p, SendOn(s, p)); }
    }

    /** Takes a node, links it at the tail and signals the receivers. */
    method Enqueue(p: Pid, k: nat, m: int) returns (r: Result)
      requires Valid() && k < NPORTS && tab[k].st == PtAlloc && p < |procs|
      modifies this, pool, pool.nodes
      ensures Valid() && Step(Abs(), r) == Deliver(old(Abs()), p, k, m)
    {
      var ok := LinkTail(k, m);
      if !ok { return Panic; }
      var e := tab[k].rsem;
      SetEntry(k, tab[k].(rsem := Up(e)));
      Signalled(p, e);
      return Ret(OK);
    }

    method LinkTail(k: nat, m: int) returns (ok: bool)
      requires Valid() && k < NPORTS && tab[k].st == PtAlloc
      modifies this`past, pool, pool.nodes
      ensures Valid() && ok == (old(Abs()).free > 0)
      ensures !ok ==> Abs() == old(Abs())
      ensures ok ==> Abs() == Appended(old(Abs()), k, m)
    {
      EntryPut(tab, past, pool.Queues(), k, m, |pool.lists[0]|, pool.nodes.Length, procs);
      ok := TakeNode(k, m);
      if !ok { return; }
      past := past[k := past[k].(put := past[k].put + [m])];
    }

    method TakeNode(k: nat, m: int) returns (ok: bool)
      requires Valid() && k < NPORTS && tab[k].st == PtAlloc
      modifies pool, pool.nodes
      ensures Valid() && ok == (old(|pool.lists[0]|) > 0) && |pool.lists| == old(|pool.lists|) > 0
      ensures |pool.lists[0]| == old(|pool.lists[0]|) - if ok then 1 else 0
      ensures pool.Queues() == if ok then old(pool.Queues())[k := old(pool.Queues())[k] + [m]] else old(pool.Queues())
    {
      ok := pool.Put(k, m);
    }

    /** The caller leaves its call, and the first waiter of the semaphore, if any, is released. */
    method Signalled(p: Pid, e: Semaphore)
      requires Valid() && p < |procs|
      modifies this`procs
      ensures Valid() && Abs() == old(Abs()).(procs := SignalProcs(e, old(procs)[p := Out]))
    {
      procs := procs[p := Out];
      NoNewClearing(procs, SignalProcs(e, procs));
      procs := SignalProcs(e, procs);
    }

    /** Releasing a waiter makes nobody clear a port. */
    lemma NoNewClearing(procs: seq<Phase>, after: seq<Phase>)
      requires |after| == |procs| && forall p :: 0 <= p < |procs| ==> after[p] == procs[p] || after[p].InCall?
      ensures forall live, t :: ClearingOK(t, live, procs) ==> ClearingOK(t, live, after)
    {
    }

    // ----- receiving

    method PtRecv(p: Pid, k: int) returns (r: Result)
      requires Valid() && Inv(Abs()) && Enabled(Abs(), DoRecv(p, k))
      modifies this, pool, pool.nodes
      ensures Valid() && Step(Abs(), r) == Recv(old(Abs()), p, k) && Inv(Abs())
    {
      ghost var s := Abs();
      RecvKeeps(s, p, k, Recv(s, p, k));
      if BadId(k) { return Ret(SYSERR); }
      var c := tab[k].rsem.count - 1;
      if c < 0 {
        Block(p, k, tab[k].(rsem := Semaphore(c, tab[k].rsem.waiting + [p])), false, 0);
        return Blocked;
      }
      SetEntry(k, tab[k].(rsem := tab[k].rsem.(count := c)));
      r := Unlink(p, k);
    }

    /** A released receiver goes on; the list it finds is not empty. */
    method PtRecvOn(p: Pid) returns (r: Result)
      requires Valid() && Inv(Abs()) && Enabled(Abs(), DoRecvOn(p)) && procs[p].port < NPORTS
      modifies this, pool, pool.nodes
      ensures Valid() && Step(Abs(), r) == RecvOn(old(Abs()), p) && Inv(Abs())
    {
      ghost var s := Abs();
      var x := procs[p];
      RecvOnKeeps(s, p, RecvOn(s, p));
      if tab[x.port].st != PtAlloc || tab[x.port].num != x.num {
        procs := procs[p := Out];
        return Ret(SYSERR);
      }
      r := Unlink(p, x.port);
    }

    /** Follows the head pointer, which must not be null, frees the node and signals the senders. */
    method Unlink(p: Pid, k: nat) returns (r: Result)
      requires Valid() && k < NPORTS && tab[k].st == PtAlloc && p < |procs| && pool.Queues()[k] != []
      modifies this, pool, pool.nodes
      ensures Valid() && Step(Abs(), r) == Fetch(old(Abs()), p, k)
    {
      var msg := UnlinkHead(k);
      var e := tab[k].ssem;
      SetEntry(k, tab[k].(ssem := Up(e)));
      Signalled(p, e);
      return Ret(msg);
    }

    method UnlinkHead(k: nat) returns (msg: int)
      requires Valid() && k < NPORTS && tab[k].st == PtAlloc && pool.Queues()[k] != []
      modifies this`past, pool, pool.nodes
      ensures Valid() && msg == old(pool.Queues()[k])[0]
      ensures var t := old(Abs()).ports[k];
              Abs() == SetPort(old(Abs()), k, t.(q := t.q[1..], got := t.got + [msg])).(free := old(Abs()).free + 1)
    {
      ghost var qs := pool.Queues();
      msg := pool.Take(k);
      EntryChanged(tab, past, qs, k, tab[k], past[k].(got := past[k].got + [msg]), qs[k][1..]);
      assert tab[k := tab[k]] == tab;
      past := past[k := past[k].(got := past[k].got + [msg])];
    }

    // ----- clearing

    /** The first part of a reset (`alloc`) or delete: dispose, splice, release the senders. */
    method PtClear(p: Pid, k: int, alloc: bool) returns (r: Result, disposed: seq<int>)
      requires Valid() && Inv(Abs()) && Enabled(Abs(), DoClear(p, k, alloc))
      modifies this, pool, pool.nodes
      ensures Valid() && Step(Abs(), r) == ClearSenders(old(Abs()), p, k, alloc) && Inv(Abs())
      ensures disposed == if BadPort(old(Abs()), k) then [] else old(Abs()).ports[k].q
    {
      ghost var s := Abs();
      disposed := [];
      ClearSendersKeeps(s, p, k, alloc, ClearSenders(s, p, k, alloc));
      if BadId(k) { return Ret(SYSERR), disposed; }
      var w := tab[k].ssem.waiting;
      disposed := Vacate(k, alloc);
      Released(p, w, InClear(k, alloc, 1));
      return Blocked, disposed;
    }

    /** Everybody waiting is released, and the caller goes on to the next part. */
    method Released(p: Pid, w: seq<Pid>, x: Phase)
      requires Valid() && p < |procs| && procs[p].Out? && x.InClear? && x.stage == 1 && x.port < NPORTS
      requires tab[x.port].st == PtLimbo && pool.live[x.port] == x.alloc
      modifies this`procs
      ensures Valid() && Abs() == old(Abs()).(procs := ReleaseAll(old(procs), w)[p := x])
    {
      ReleasedPhases(procs, w);
      procs := ReleaseAll(procs, w)[p := x];
    }

    /** The port is in limbo, its messages are disposed of and its nodes are free. */
    method Vacate(k: nat, alloc: bool) returns (disposed: seq<int>)
      requires Valid() && Inv(Abs()) && k < NPORTS && tab[k].st == PtAlloc
      modifies this`tab, this`past, pool, pool.nodes
      ensures Valid() && tab[k].st == PtLimbo && pool.live[k] == alloc && disposed == old(Abs()).ports[k].q
      ensures var t := old(Abs()).ports[k];
              Abs() == SetPort(old(Abs()), k, Vacated(t)).(free := old(Abs()).free + |t.q|)
    {
      ClearingElsewhere(Abs(), k);
      var e := tab[k].(st := PtLimbo, num := tab[k].num + 1, ssem := Semaphore(tab[k].maxcnt, []));
      EntryVacated(tab, past, pool.Queues(), k, e, |pool.lists[0]|, pool.nodes.Length, procs);
      disposed := pool.Clear(k, alloc);
      past := past[k := Past(e.maxcnt, [], [])];
      tab := tab[k := e];
    }

    lemma {:induction false} ReleasedPhases(procs: seq<Phase>, w: seq<Pid>)
      ensures |ReleaseAll(procs, w)| == |procs|
      ensures forall p :: 0 <= p < |procs| ==> ReleaseAll(procs, w)[p] == procs[p] || ReleaseAll(procs, w)[p].InCall?
    {
      ReleasedAll(procs, w, ReleaseAll(procs, w));
    }

    /** The second part: release the receivers. */
    method PtClearReceivers(p: Pid) returns (r: Result)
      requires Valid() && Inv(Abs()) && Enabled(Abs(), DoClearReceivers(p)) && procs[p].port < NPORTS
      modifies this`tab, this`procs
      ensures Valid() && Step(Abs(), r) == ClearReceivers(old(Abs()), p) && Inv(Abs())
    {
      ghost var s := Abs();
      var x := procs[p];
      ClearReceiversKeeps(s, p, ClearReceivers(s, p));
      var w := tab[x.port].rsem.waiting;
      SetEntry(x.port, tab[x.port].(rsem := Semaphore(0, [])));
      Advance(p, w);
      return Blocked;
    }

    /** The receivers are released, and the caller goes on to the last part. */
    method Advance(p: Pid, w: seq<Pid>)
      requires Valid() && p < |procs| && procs[p].InClear?
      modifies this`procs
      ensures Valid() && Abs() == old(Abs()).(procs := ReleaseAll(old(procs), w)[p := old(procs)[p].(stage := 2)])
    {
      ReleasedPhases(procs, w);
      procs := ReleaseAll(procs, w)[p := procs[p].(stage := 2)];
    }

    /** The last part; a deleted port is the next to be tried for a new one. */
    method PtClearDone(p: Pid) returns (r: Result)
      requires Valid() && Inv(Abs()) && Enabled(Abs(), DoClearDone(p)) && procs[p].port < NPORTS
      modifies this`tab, this`procs, this`ptnextid
      ensures Valid() && Step(Abs(), r) == ClearDone(old(Abs()), p) && Inv(Abs())
      ensures ptnextid == if old(procs)[p].alloc then old(ptnextid) else old(procs)[p].port
    {
      ghost var s := Abs();
      var x := procs[p];
      ClearDoneKeeps(s, p, ClearDone(s, p));
      OneClearing(s, p);
      var e := tab[x.port].(st := if x.alloc then PtAlloc else PtFree);
      EntryChanged(tab, past, pool.Queues(), x.port, e, past[x.port], pool.Queues()[x.port]);
      assert past[x.port := past[x.port]] == past && pool.Queues()[x.port := pool.Queues()[x.port]] == pool.Queues();
      tab := tab[x.port := e];
      procs := procs[p := Out];
      if !x.alloc { ptnextid := x.port; }
      return Ret(OK);
    }

    // ----- killing

    /** A waiter leaves its queue, and anybody else just its call. */
    method PtKill(p: Pid) returns (r: Result)
      requires Valid() && Inv(Abs()) && Enabled(Abs(), DoKill(p))
      modifies this`tab, this`procs
      ensures Valid() && Step(Abs(), r) == Kill(old(Abs()), p) && Inv(Abs())
    {
      ghost var s := Abs();
      var x := procs[p];
      KillKeeps(s, p, Kill(s, p));
      KillUnqueues(s, p);
      if x.InCall? && !x.released && x.port < NPORTS { LeaveQueue(p); }
      Leave(p);
      return Ret(OK);
    }

    method Leave(p: Pid)
      requires Valid() && p < |procs|
      modifies this`procs
      ensures Valid() && Abs() == old(Abs()).(procs := old(procs)[p := Out])
    {
      procs := procs[p := Out];
    }

    method LeaveQueue(p: Pid)
      requires Valid() && p < |procs| && procs[p].InCall? && !procs[p].released && procs[p].port < NPORTS
      modifies this`tab
      ensures Valid() && Abs() == Unqueued(old(Abs()), p)
    {
      var k := procs[p].port;
      var e := tab[k];
      if procs[p].sending {
        SetEntry(k, e.(ssem := Semaphore(e.ssem.count + 1, Without(e.ssem.waiting, p))));
      } else {
        SetEntry(k, e.(rsem := Semaphore(e.rsem.count + 1, Without(e.rsem.waiting, p))));
      }
    }

    // ----- whole runs

    method PerformCall(op: Op) returns (r: Result)
      requires Valid() && Inv(Abs()) && Enabled(Abs(), op) && (op.DoSend? || op.DoSendOn? || op.DoRecv? || op.DoRecvOn?)
      modifies this, pool, pool.nodes
      ensures Valid() && Next(old(Abs()), op, Step(Abs(), r)) && (r != Panic ==> Inv(Abs()))
    {
      match op
      case DoSend(p, k, m) => r := PtSend(p, k, m);
      case DoSendOn(p) => CallNumber(Abs(), p); r := PtSendOn(p);
      case DoRecv(p, k) => r := PtRecv(p, k);
      case DoRecvOn(p) => CallNumber(Abs(), p); r := PtRecvOn(p);
    }

    method PerformClear(op: Op) returns (r: Result)
      requires Valid() && Inv(Abs()) && Enabled(Abs(), op) && (op.DoClear? || op.DoClearReceivers? || op.DoClearDone?)
      modifies this, pool, pool.nodes
      ensures Valid() && Next(old(Abs()), op, Step(Abs(), r)) && Inv(Abs())
    {
      match op
      case DoClear(p, k, alloc) => var disposed; r, disposed := PtClear(p, k, alloc);
      case DoClearReceivers(p) => ClearPort(Abs(), p); r := PtClearReceivers(p);
      case DoClearDone(p) => ClearPort(Abs(), p); r := PtClearDone(p);
    }

    /** One step of the specification; `made` is the call with the entry that a table scan found. */
    method Perform(op: Op) returns (r: Result, ghost made: Op)
      requires Valid() && Inv(Abs()) && Enabled(Abs(), op)
      modifies this, pool, pool.nodes
      ensures Valid() && Next(old(Abs()), made, Step(Abs(), r)) && Enabled(old(Abs()), made) && SameOp(op, made)
      ensures r != Panic ==> Inv(Abs())
    {
      made := op;
      if op.DoCreate? {
        ghost var k;
        r, k := PtCreate(op.count);
        made := DoCreate(k, op.count);
      } else if op.DoKill? {
        r := PtKill(op.p);
      } else if op.DoClear? || op.DoClearReceivers? || op.DoClearDone? {
        r := PerformClear(op);
      } else {
        r := PerformCall(op);
      }
    }

    predicate Allows(op: Op)
      reads this
    {
      if |tab| != NPORTS then false else
      match op
      case DoSend(p, k, m) => p < |procs| && procs[p] == Out
      case DoSendOn(p) => p < |procs| && procs[p].InCall? && procs[p].sending && procs[p].released
      case DoRecv(p, k) => p < |procs| && procs[p] == Out
      case DoRecvOn(p) => p < |procs| && procs[p].InCall? && !procs[p].sending && procs[p].released
      case DoClear(p, k, alloc) => p < |procs| && procs[p] == Out
      case DoClearReceivers(p) => p < |procs| && procs[p].InClear? && procs[p].stage == 1
      case DoClearDone(p) => p < |procs| && procs[p].InClear? && procs[p].stage == 2
      case DoCreate(k, count) => true
      case DoKill(p) =>
        p < |procs| && !(procs[p].InCall? && procs[p].released && procs[p].port < NPORTS
                         && tab[procs[p].port].st == PtAlloc && tab[procs[p].port].num == procs[p].num)
    }

    /**
      Makes the steps one after another, up to one that may not be made in its state
      or a panic. What happened is a run of the specification.
    */
    method Execute(ops: seq<Op>) returns (done: nat, results: seq<Result>, ghost run: seq<Event>)
      requires Valid() && Inv(Abs())
      modifies this, pool, pool.nodes
      ensures Valid() && done <= |ops| && IsRun(old(Abs()), run) && Abs() == LastOf(old(Abs()), run) && Made(ops, run, results, done)
      ensures Panic !in results ==> Inv(Abs()) && (done < |ops| ==> !Enabled(Abs(), ops[done]))
    {
      ghost var s := Abs();
      done, results, run := 0, [], [];
      while done < |ops|
        invariant done <= |ops| && Valid() && Inv(Abs()) && Panic !in results && Ran(s, ops, run, results, done, Abs())
      {
        if !Allows(ops[done]) {
          AllowsEnabled(ops[done]);
          break;
        }
        var r;
        r, run := PerformNext(ops, done, results, s, run);
        results, done := results + [r], done + 1;
        if r == Panic { break; }
      }
      RanDone(s, ops, run, results, done, Abs());
    }

    method PerformNext(ops: seq<Op>, n: nat, results: seq<Result>, ghost s: State, ghost run: seq<Event>)
      returns (r: Result, ghost more: seq<Event>)
      requires Valid() && Inv(Abs()) && n < |ops| && Allows(ops[n]) && Ran(s, ops, run, results, n, Abs())
      requires Panic !in results
      modifies this, pool, pool.nodes
      ensures Valid() && Ran(s, ops, more, results + [r], n + 1, Abs()) && (r != Panic ==> Inv(Abs()))
    {
      ghost var before := Abs();
      AllowsEnabled(ops[n]);
      ghost var made;
      r, made := Perform(ops[n]);
      ghost var e := Event(before, made, Step(Abs(), r));
      RanMore(s, ops, run, results, n, e);
      more := run + [e];
    }

    lemma AllowsEnabled(op: Op)
      requires Valid()
      ensures Allows(op) == Enabled(Abs(), op)
    {
    }

    lemma ClearPort(s: State, p: Pid)
      requires Inv(s) && p < |s.procs| && s.procs[p].InClear?
      ensures s.procs[p].port < NPORTS
    {
    }

    lemma OneClearing(s: State, p: Pid)
      requires Inv(s) && p < |s.procs| && s.procs[p].InClear? && s.procs[p].port < NPORTS
      ensures s.ports[s.procs[p].port].st == PtLimbo
      ensures forall o :: 0 <= o < |s.procs| && s.procs[o].InClear? && s.procs[o].port == s.procs[p].port ==> o == p
    {
      assert PortOK(s.ports[s.procs[p].port], s.procs[p].port, s.procs, 0, 0);
      assert Unfold(PortState, true);
    }
  }

  /** The same call, except for the entry that a table scan finds. */
  ghost predicate SameOp(op: Op, made: Op) {
    made == op || (op.DoCreate? && made.DoCreate? && made.count == op.count)
  }

  /** The run consists of the first `n` calls with their results. */
  ghost predicate Made(ops: seq<Op>, run: seq<Event>, results: seq<Result>, n: nat) {
    && |run| == |results| == n <= |ops|
    && forall i :: 0 <= i < n ==> SameOp(ops[i], run[i].op) && run[i].r.r == results[i]
  }

  /** What `Execute` has done so far; nothing comes after a panic. */
  ghost predicate Ran(s: State, ops: seq<Op>, run: seq<Event>, results: seq<Result>, n: nat, z: State) {
    forall w :: Unfold(Goals, w) ==>
      && IsRun(s, run) && LastOf(s, run) == z && Made(ops, run, results, n)
      && (forall i :: 0 <= i < |run| ==> run[i].r.r != Fault)
  }

  lemma RanDone(s: State, ops: seq<Op>, run: seq<Event>, results: seq<Result>, n: nat, z: State)
    requires Ran(s, ops, run, results, n, z)
    ensures IsRun(s, run) && z == LastOf(s, run) && Made(ops, run, results, n)
  {
    assert Unfold(Goals, true);
  }

  lemma RanMore(s: State, ops: seq<Op>, run: seq<Event>, results: seq<Result>, n: nat, e: Event)
    requires Ran(s, ops, run, results, n, e.before) && n < |ops| && SameOp(ops[n], e.op) && Panic !in results
    requires Inv(e.before) && Enabled(e.before, e.op) && Next(e.before, e.op, e.r)
    ensures Ran(s, ops, run + [e], results + [e.r.r], n + 1, e.r.s)
  {
    assert Unfold(Goals, true);
    NextKeeps(e.before, e.op, e.r);
    if run != [] { assert results[n - 1] != Panic && run[n - 1].r.r == results[n - 1]; }
    RunAppend(s, run, e);
    MadeMore(ops, run, results, n, e);
  }

  lemma MadeMore(ops: seq<Op>, run: seq<Event>, results: seq<Result>, n: nat, e: Event)
    requires Made(ops, run, results, n) && n < |ops| && SameOp(ops[n], e.op)
    ensures Made(ops, run + [e], results + [e.r.r], n + 1)
  {
  }
}
