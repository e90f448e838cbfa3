/**
 What the other semaphores of the process table are for (userprog/ptable.cc, userprog/pcb.cc): bmsem and each
 block's multex let one process in at a time.
 */
module ProcessLocks {
  import opened Kernel
  import opened KernelInvariant
  import opened KernelRuns
  import opened ProcessTable

  datatype Lock = TableLock | BlockLock(pid: Pid)

  /** Between its P and its V on bmsem, or on the multex of that block. */
  predicate Holds(pcb: Pcbs, p: Process, lock: Lock) {
    match lock
    case TableLock => p.point.ExecSlot? || p.point.Execing? || p.point.ExecFail? || p.point == Exiting(RemoveSlot)
    case BlockLock(x) =>
      || (p.point.Execing? && (p.point.exec == ExecFork || p.point.exec == ExecLeave) && p.point.child == x)
      || (p.point.Joining? && p.point.join == JoinLeave && p.pid == x)
      || (p.point == Exiting(ExitLeave) && p.pid in pcb && pcb[p.pid].parent == x)
  }

  ghost function Holders(pcb: Pcbs, procs: map<Tid, Process>, lock: Lock): set<Tid> {
    set t | t in procs && Holds(pcb, procs[t], lock)
  }

  predicate HasLock(pcb: Pcbs, lock: Lock) {
    lock.BlockLock? ==> lock.pid in pcb
  }

  function LockSem(pcb: Pcbs, bmsem: Sid, lock: Lock): Sid
    requires HasLock(pcb, lock)
  {
    if lock.TableLock? then bmsem else pcb[lock.pid].base + 2
  }

  /** The semaphore is one, less those that are in. */
  ghost predicate LockSound(tab: Table, values: seq<int>, lock: Lock)
    requires HasLock(tab.pcb, lock)
  {
    var s := LockSem(tab.pcb, tab.bmsem, lock);
    s < |values| && 0 <= values[s] && values[s] + |Holders(tab.pcb, tab.procs, lock)| == 1
  }

  ghost predicate Locks(tab: Table, values: seq<int>) {
    forall lock :: HasLock(tab.pcb, lock) ==> LockSound(tab, values, lock)
  }

  lemma {:induction false} Without(s: set<Tid>, t: Tid)
    ensures |s| == |s - {t}| + Flag(t in s)
  {
    if t in s {
      assert s == (s - {t}) + {t};
    } else {
      assert s == s - {t};
    }
  }

  /** Only `t` comes in or goes out. */
  lemma HoldersMove(pcb: Pcbs, procs: map<Tid, Process>, next: Pcbs, nextProcs: map<Tid, Process>, t: Tid, lock: Lock)
    requires t in procs && t in nextProcs
    requires forall u :: u != t ==>
      (u in procs && Holds(pcb, procs[u], lock) <==> u in nextProcs && Holds(next, nextProcs[u], lock))
    ensures |Holders(next, nextProcs, lock)| + Flag(Holds(pcb, procs[t], lock))
         == |Holders(pcb, procs, lock)| + Flag(Holds(next, nextProcs[t], lock))
  {
    hide Holds;
    var a, b := Holders(pcb, procs, lock), Holders(next, nextProcs, lock);
    assert a - {t} == b - {t};
    Without(a, t);
    Without(b, t);
  }

  // ---- which lock a P takes and a V gives back ----

  function Takes(pcb: Pcbs, p: Process): Option<Lock> {
    match p.point
    case ExecLock => Some(TableLock)
    case Execing(ExecEnter, c, _) => Some(BlockLock(c))
    case Joining(JoinEnter, _, _) => Some(BlockLock(p.pid))
    case Exiting(ExitEnter) => if p.pid in pcb then Some(BlockLock(pcb[p.pid].parent)) else None
    case Exiting(RemoveLock) => Some(TableLock)
    case _ => None
  }

  function Gives(pcb: Pcbs, p: Process): Option<Lock> {
    match p.point
    case Execing(ExecLeave, c, _) => Some(BlockLock(c))
    case Execing(ExecDone, _, _) => Some(TableLock)
    case ExecFail => Some(TableLock)
    case Joining(JoinLeave, _, _) => Some(BlockLock(p.pid))
    case Exiting(ExitLeave) => if p.pid in pcb then Some(BlockLock(pcb[p.pid].parent)) else None
    case Exiting(RemoveSlot) => Some(TableLock)
    case _ => None
  }

  /** A block keeps its parent and its semaphores. */
  predicate SameBlock(pcb: Pcbs, next: Pcbs, x: Pid) {
    x in pcb && x in next ==> next[x].parent == pcb[x].parent && next[x].base == pcb[x].base
  }

  lemma BlockAfterP(pcb: Pcbs, p: Process, x: Pid)
    ensures x in BlocksAfterP(pcb, p) <==> x in pcb
    ensures SameBlock(pcb, BlocksAfterP(pcb, p), x)
  {}

  lemma BlockAfterV(pcb: Pcbs, p: Process, x: Pid)
    ensures x in BlocksAfterV(pcb, p) <==> x in pcb && !(p.point == Exiting(RemoveSlot) && p.pid == x)
    ensures SameBlock(pcb, BlocksAfterV(pcb, p), x)
  {}

  lemma TakesOne(pcb: Pcbs, p: Process, lock: Lock)
    ensures Flag(Holds(pcb, p.(point := AfterP(p.point)), lock))
         == Flag(Holds(pcb, p, lock)) + Flag(Takes(pcb, p) == Some(lock))
  {}

  lemma GivesOne(pcb: Pcbs, p: Process, lock: Lock)
    ensures Flag(Holds(pcb, p, lock))
         == Flag(Holds(pcb, p.(point := AfterV(p.point)), lock)) + Flag(Gives(pcb, p) == Some(lock))
  {}

  lemma SemOfP(tab: Table, values: seq<int>, t: Tid, s: Sid, lock: Lock)
    requires t in tab.procs && NextP(tab, tab.procs[t]) == Some(s) && HasLock(tab.pcb, lock) && Sound(tab, values)
    ensures Takes(tab.pcb, tab.procs[t]) == Some(lock) <==> LockSem(tab.pcb, tab.bmsem, lock) == s
  {
    hide Histories;
    hide Parents;
    hide Processes;
    hide Records;
    hide Numbered;
    hide Returned;
    PlaceSound(tab, values, t);
    BlockSound(tab, values, tab.procs[t].pid);
  }

  lemma SemOfV(tab: Table, values: seq<int>, t: Tid, s: Sid, lock: Lock)
    requires t in tab.procs && NextV(tab, tab.procs[t]) == Some(s) && HasLock(tab.pcb, lock) && Sound(tab, values)
    ensures Gives(tab.pcb, tab.procs[t]) == Some(lock) <==> LockSem(tab.pcb, tab.bmsem, lock) == s
  {
    hide Histories;
    hide Parents;
    hide Processes;
    hide Records;
    hide Numbered;
    hide Returned;
    PlaceSound(tab, values, t);
    BlockSound(tab, values, tab.procs[t].pid);
  }

  /** Whether a process is in depends on the blocks only through its parent. */
  lemma HoldsFrame(pcb: Pcbs, next: Pcbs, p: Process, lock: Lock)
    requires SameBlock(pcb, next, p.pid) && (p.point == Exiting(ExitLeave) ==> p.pid in pcb && p.pid in next)
    ensures Holds(next, p, lock) == Holds(pcb, p, lock)
  {}

  lemma LockTook(tab: Table, values: seq<int>, t: Tid, s: Sid, lock: Lock)
    requires t in tab.procs && NextP(tab, tab.procs[t]) == Some(s) && HasLock(tab.pcb, lock)
    requires s < |values| && values[s] > 0 && LockSound(tab, values, lock) && Sound(tab, values)
    ensures HasLock(CameThrough(tab, t).pcb, lock)
    ensures LockSound(CameThrough(tab, t), values[s := values[s] - 1], lock)
  {
    hide Sound;
    hide Holds;
    hide NextP;
    hide Takes;
    hide BlocksAfterP;
    hide AfterP;
    hide Holders;
    var p, n := tab.procs[t], CameThrough(tab, t);
    SemOfP(tab, values, t, s, lock);
    TakesOne(tab.pcb, p, lock);
    forall u | u in n.procs
      ensures Holds(n.pcb, n.procs[u], lock) == Holds(tab.pcb, n.procs[u], lock)
    {
      PlaceSound(tab, values, u);
      BlockAfterP(tab.pcb, p, n.procs[u].pid);
      LeavingThere(tab, t, u);
      HoldsFrame(tab.pcb, n.pcb, n.procs[u], lock);
    }
    if lock.BlockLock? {
      BlockAfterP(tab.pcb, p, lock.pid);
    }
    HoldersMove(tab.pcb, tab.procs, n.pcb, n.procs, t, lock);
  }

  /** A process leaving its parent's multex, before or after its P, has a block. */
  lemma LeavingThere(tab: Table, t: Tid, u: Tid)
    requires t in tab.procs && u in tab.procs && ProcSound(tab.pcb, tab.procs[u], u)
    ensures CameThrough(tab, t).procs[u].point == Exiting(ExitLeave) ==> tab.procs[u].pid in tab.pcb
    ensures CameThrough(tab, t).procs[u].pid == tab.procs[u].pid
  {}

  lemma LockGave(tab: Table, values: seq<int>, t: Tid, s: Sid, lock: Lock)
    requires t in tab.procs && NextV(tab, tab.procs[t]) == Some(s)
    requires HasLock(tab.pcb, lock) && HasLock(Signalled(tab, t).pcb, lock)
    requires s < |values| && LockSound(tab, values, lock) && Sound(tab, values)
    ensures LockSound(Signalled(tab, t), values[s := values[s] + 1], lock)
  {
    hide Sound;
    hide Holds;
    hide NextV;
    hide Gives;
    hide BlocksAfterV;
    hide AfterV;
    hide Holders;
    hide ResultsAfterV;
    hide NumwaitAfterV;
    var p, n := tab.procs[t], Signalled(tab, t);
    SemOfV(tab, values, t, s, lock);
    GivesOne(tab.pcb, p, lock);
    PlaceSound(tab, values, t);
    forall u | u in n.procs
      ensures Holds(n.pcb, n.procs[u], lock) == Holds(tab.pcb, n.procs[u], lock)
    {
      PlaceSound(tab, values, u);
      BlockAfterV(tab.pcb, p, n.procs[u].pid);
      StillThere(tab, t, u);
      HoldsFrame(tab.pcb, n.pcb, n.procs[u], lock);
    }
    if lock.BlockLock? {
      BlockAfterV(tab.pcb, p, lock.pid);
    }
    HoldersMove(tab.pcb, tab.procs, n.pcb, n.procs, t, lock);
  }

  /** Whoever is removed, a process leaving its parent's multex still has its block. */
  lemma StillThere(tab: Table, t: Tid, u: Tid)
    requires t in tab.procs && u in tab.procs
    requires ProcSound(tab.pcb, tab.procs[t], t) && ProcSound(tab.pcb, tab.procs[u], u)
    ensures Signalled(tab, t).procs[u].pid == tab.procs[u].pid
    ensures Signalled(tab, t).procs[u].point == Exiting(ExitLeave) ==>
      && tab.procs[u].pid in tab.pcb
      && !(tab.procs[t].point == Exiting(RemoveSlot) && tab.procs[t].pid == tab.procs[u].pid)
  {}

  // ---- steps between semaphores ----

  lemma LocalHolds(tab: Table, step: Step, lock: Lock)
    requires !step.Do? && CanStep(tab, step)
    ensures tab.k.current in Next(tab, step).procs && Next(tab, step).bmsem == tab.bmsem
    ensures Holds(tab.pcb, Next(tab, step).procs[tab.k.current], lock) == Holds(tab.pcb, Me(tab), lock)
    ensures Next(tab, step).procs[tab.k.current].pid == Me(tab).pid
    ensures Next(tab, step).procs[tab.k.current].point != Exiting(ExitLeave)
  {
    hide Started;
    hide ThreeSemaphores;
  }

  lemma LocalBlock(tab: Table, step: Step, x: Pid)
    requires !step.Do? && CanStep(tab, step)
    ensures x in Next(tab, step).pcb <==> x in tab.pcb || (step.MakePcb? && step.pid == x)
    ensures SameBlock(tab.pcb, Next(tab, step).pcb, x)
  {
    hide Started;
    hide ThreeSemaphores;
  }

  lemma LocalOther(tab: Table, step: Step, u: Tid)
    requires !step.Do? && CanStep(tab, step) && u != tab.k.current
    ensures u in tab.procs ==> u in Next(tab, step).procs && Next(tab, step).procs[u] == tab.procs[u]
    ensures u !in tab.procs && u in Next(tab, step).procs ==> Next(tab, step).procs[u].point == User
  {
    hide Started;
    hide ThreeSemaphores;
  }

  lemma LockLocal(tab: Table, values: seq<int>, step: Step, after: seq<int>, lock: Lock)
    requires !step.Do? && CanStep(tab, step) && HasLock(tab.pcb, lock) && values <= after
    requires LockSound(tab, values, lock) && Sound(tab, values)
    ensures HasLock(Next(tab, step).pcb, lock) && LockSound(Next(tab, step), after, lock)
  {
    hide Sound;
    hide CanStep;
    hide Next;
    hide Holders;
    var t, n := tab.k.current, Next(tab, step);
    CurrentThere(tab, step);
    LocalHolds(tab, step, lock);
    if lock.BlockLock? {
      LocalBlock(tab, step, lock.pid);
    }
    forall u | u in n.procs
      ensures Holds(n.pcb, n.procs[u], lock) == Holds(tab.pcb, n.procs[u], lock)
      ensures u != t && u !in tab.procs ==> !Holds(n.pcb, n.procs[u], lock)
    {
      LocalBlock(tab, step, n.procs[u].pid);
      if u != t {
        LocalOther(tab, step, u);
      }
      if u in tab.procs {
        PlaceSound(tab, values, u);
      }
    }
    forall u | u != t
      ensures u in tab.procs && Holds(tab.pcb, tab.procs[u], lock) <==> u in n.procs && Holds(n.pcb, n.procs[u], lock)
    {
      LocalOther(tab, step, u);
    }
    hide Holds;
    HoldersMove(tab.pcb, tab.procs, n.pcb, n.procs, t, lock);
  }

  lemma CurrentThere(tab: Table, step: Step)
    requires !step.Do? && CanStep(tab, step)
    ensures tab.k.current in tab.procs
  {}

  /** Nobody is in a block that is not there. */
  lemma NobodyIn(tab: Table, values: seq<int>, u: Tid, x: Pid)
    requires u in tab.procs && x !in tab.pcb && Sound(tab, values)
    ensures !Holds(tab.pcb, tab.procs[u], BlockLock(x))
  {
    hide Sound;
    PlaceSound(tab, values, u);
    if tab.procs[u].pid in tab.pcb {
      BlockSound(tab, values, tab.procs[u].pid);
    }
  }

  lemma MadeBlock(tab: Table, x: Pid)
    requires CanStep(tab, MakePcb(x))
    ensures var n := Next(tab, MakePcb(x));
      x !in tab.pcb && x in n.pcb && n.pcb[x].base == |tab.k.sems| && n.procs.Keys == tab.procs.Keys
  {
    hide ThreeSemaphores;
  }

  /** Nobody is in a block that has just been made. */
  lemma LockMade(tab: Table, values: seq<int>, x: Pid)
    requires CanStep(tab, MakePcb(x)) && |values| == |tab.k.sems| && Sound(tab, values)
    ensures x in Next(tab, MakePcb(x)).pcb
    ensures LockSound(Next(tab, MakePcb(x)), values + [0, 0, 1], BlockLock(x))
  {
    hide Sound;
    hide CanStep;
    hide Next;
    var n := Next(tab, MakePcb(x));
    MadeBlock(tab, x);
    CurrentThere(tab, MakePcb(x));
    LocalHolds(tab, MakePcb(x), BlockLock(x));
    forall u | u in n.procs
      ensures !Holds(n.pcb, n.procs[u], BlockLock(x))
    {
      NobodyIn(tab, values, u, x);
      PlaceSound(tab, values, u);
      LocalBlock(tab, MakePcb(x), n.procs[u].pid);
      if u != tab.k.current {
        LocalOther(tab, MakePcb(x), u);
      }
    }
    assert Holders(n.pcb, n.procs, BlockLock(x)) == {};
  }

  // ---- every step, every run ----

  ghost predicate LocksInv(tab: Table) {
    TableInv(tab) && Locks(tab, Values(tab.k))
  }

  lemma LocksTook(tab: Table, values: seq<int>, t: Tid, s: Sid)
    requires t in tab.procs && NextP(tab, tab.procs[t]) == Some(s) && s < |values| && values[s] > 0
    requires Sound(tab, values) && Locks(tab, values)
    ensures Locks(CameThrough(tab, t), values[s := values[s] - 1])
  {
    hide Sound;
    hide LockSound;
    var n := CameThrough(tab, t);
    forall lock | HasLock(n.pcb, lock)
      ensures LockSound(n, values[s := values[s] - 1], lock)
    {
      if lock.BlockLock? {
        BlockAfterP(tab.pcb, tab.procs[t], lock.pid);
      }
      LockTook(tab, values, t, s, lock);
    }
  }

  lemma LocksGave(tab: Table, values: seq<int>, t: Tid, s: Sid)
    requires t in tab.procs && NextV(tab, tab.procs[t]) == Some(s) && s < |values|
    requires Sound(tab, values) && Locks(tab, values)
    ensures Locks(Signalled(tab, t), values[s := values[s] + 1])
  {
    hide Sound;
    hide LockSound;
    var n := Signalled(tab, t);
    forall lock | HasLock(n.pcb, lock)
      ensures LockSound(n, values[s := values[s] + 1], lock)
    {
      if lock.BlockLock? {
        BlockAfterV(tab.pcb, tab.procs[t], lock.pid);
      }
      LockGave(tab, values, t, s, lock);
    }
  }

  lemma LockSemOwned(tab: Table, values: seq<int>, lock: Lock)
    requires Sound(tab, values) && HasLock(tab.pcb, lock)
    ensures LockSem(tab.pcb, tab.bmsem, lock) in tab.owned
  {
    hide Histories;
    hide Parents;
    hide Processes;
    hide Records;
    hide Numbered;
    hide Returned;
    hide Apart;
  }

  lemma LocksOther(tab: Table, values: seq<int>, e: Event, after: seq<int>)
    requires Counts(values, e, after) && (e.DidP? ==> e.sem !in tab.owned) && (e.DidV? ==> e.sem !in tab.owned)
    requires Sound(tab, values) && Locks(tab, values)
    ensures Locks(tab, after)
  {
    hide Sound;
    forall lock | HasLock(tab.pcb, lock)
      ensures LockSound(tab, after, lock)
    {
      assert LockSound(tab, values, lock);
      LockSemOwned(tab, values, lock);
    }
  }

  lemma LocksEvent(tab: Table, values: seq<int>, e: Event, after: seq<int>)
    requires Counts(values, e, after)
    requires e.DidP? && e.sem in tab.owned ==> e.thread in tab.procs && NextP(tab, tab.procs[e.thread]) == Some(e.sem)
    requires e.DidV? && e.sem in tab.owned ==> tab.k.current in tab.procs && NextV(tab, Me(tab)) == Some(e.sem)
    requires Sound(tab, values) && Locks(tab, values)
    ensures Locks(AfterEvent(tab, e), after)
  {
    hide Sound;
    hide Locks;
    if e.DidP? && e.sem in tab.owned {
      LocksTook(tab, values, e.thread, e.sem);
    } else if e.DidV? && e.sem in tab.owned {
      LocksGave(tab, values, tab.k.current, e.sem);
    } else {
      LocksOther(tab, values, e, after);
    }
  }

  lemma LocksAnyKernel(tab: Table, values: seq<int>, k: State)
    requires Locks(tab, values)
    ensures Locks(tab.(k := k), values)
  {
    var n := tab.(k := k);
    forall lock | HasLock(n.pcb, lock)
      ensures LockSound(n, values, lock)
    {
      assert LockSound(tab, values, lock);
    }
  }

  lemma LocksDo(tab: Table, a: Action)
    requires CanStep(tab, Do(a)) && LocksInv(tab)
    ensures Locks(Next(tab, Do(a)), Values(Next(tab, Do(a)).k))
  {
    hide Inv;
    hide Values;
    hide Apply;
    hide Counts;
    hide Sound;
    hide Locks;
    hide AfterEvent;
    hide EventOf;
    hide NextP;
    hide NextV;
    hide Enabled;
    StepValues(tab.k, a);
    LocksEvent(tab, Values(tab.k), EventOf(tab.k, a), Values(Apply(tab.k, a)));
    LocksAnyKernel(AfterEvent(tab, EventOf(tab.k, a)), Values(Apply(tab.k, a)), Apply(tab.k, a));
  }

  lemma LocksLocal(tab: Table, step: Step)
    requires !step.Do? && CanStep(tab, step) && LocksInv(tab)
    ensures Locks(Next(tab, step), Values(Next(tab, step).k))
  {
    hide Inv;
    hide Sound;
    hide Values;
    hide CanStep;
    hide Next;
    hide LockSound;
    var n, values := Next(tab, step), Values(tab.k);
    LocalValues(tab, step);
    forall lock | HasLock(n.pcb, lock)
      ensures LockSound(n, Values(n.k), lock)
    {
      if lock.BlockLock? {
        LocalBlock(tab, step, lock.pid);
      }
      if HasLock(tab.pcb, lock) {
        LockLocal(tab, values, step, Values(n.k), lock);
      } else {
        LockMade(tab, values, step.pid);
      }
    }
  }

  lemma LocalValues(tab: Table, step: Step)
    requires !step.Do? && CanStep(tab, step) && Inv(tab.k)
    ensures |Values(tab.k)| == |tab.k.sems|
    ensures Values(Next(tab, step).k) == if step.MakePcb? then Values(tab.k) + [0, 0, 1] else Values(tab.k)
  {
    hide Inv;
    if step.MakePcb? {
      NewSemaphores(tab.k);
    } else if step.Spawn? {
      StartThread(tab.k, step.thread);
    }
  }

  lemma StepLocks(tab: Table, step: Step)
    requires CanStep(tab, step) && LocksInv(tab)
    ensures LocksInv(Next(tab, step))
  {
    hide TableInv;
    hide Locks;
    hide CanStep;
    hide Next;
    StepKeeps(tab, step);
    if step.Do? {
      LocksDo(tab, step.action);
    } else {
      LocksLocal(tab, step);
    }
  }

  lemma StartLocks(tab: Table, main: Tid, base: Sid)
    requires Start(tab, main, base)
    ensures LocksInv(tab)
  {
    hide Inv;
    hide Values;
    StartSound(tab, main, base);
    hide TableInv;
    var v := Values(tab.k)[base..base + 3];
    assert v[2] == Values(tab.k)[base + 2];
    forall lock | HasLock(tab.pcb, lock)
      ensures LockSound(tab, Values(tab.k), lock)
    {
      assert Holders(tab.pcb, tab.procs, lock) == {};
    }
  }

  lemma {:induction false} RunLocks(tabs: seq<Table>, steps: seq<Step>, i: nat)
    requires ProcessTable.Run(tabs, steps) && i < |tabs|
    ensures LocksInv(tabs[i])
  {
    hide LocksInv;
    hide Next;
    hide CanStep;
    hide Start;
    if i == 0 {
      var main, base :| Start(tabs[0], main, base);
      StartLocks(tabs[0], main, base);
    } else {
      RunLocks(tabs, steps, i - 1);
      StepLocks(tabs[i - 1], steps[i - 1]);
    }
  }

  lemma OneMember(s: set<Tid>, t: Tid, u: Tid)
    requires t in s && u in s && |s| <= 1
    ensures t == u
  {
    if t != u {
      Without(s, t);
      Without(s - {t}, u);
    }
  }

  /**
   In every run at most one process at a time is between its P and its V on bmsem, and on each block's multex: the
   table is changed, and a count of waiting children is changed, by one process at a time.
   */
  lemma Exclusion(tabs: seq<Table>, steps: seq<Step>, i: nat, t: Tid, u: Tid, lock: Lock)
    requires ProcessTable.Run(tabs, steps) && i < |tabs| && HasLock(tabs[i].pcb, lock)
    requires t in tabs[i].procs && u in tabs[i].procs
    requires Holds(tabs[i].pcb, tabs[i].procs[t], lock) && Holds(tabs[i].pcb, tabs[i].procs[u], lock)
    ensures t == u
  {
    hide ProcessTable.Run;
    RunLocks(tabs, steps, i);
    hide TableInv;
    hide Values;
    assert LockSound(tabs[i], Values(tabs[i].k), lock);
    hide Locks;
    OneMember(Holders(tabs[i].pcb, tabs[i].procs, lock), t, u);
  }
}
