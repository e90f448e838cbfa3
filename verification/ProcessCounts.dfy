/**
 What Exec, Join and Exit leave behind (userprog/ptable.cc, userprog/pcb.cc): the thread of each process, the
 counts of waiting children, and what a process that is gone has been through.
 */
module ProcessCounts {
  import opened Kernel
  import opened KernelInvariant
  import opened KernelRuns
  import opened ProcessTable
  import opened ProcessLocks

  // ---- what is kept ----

  /** A block that has a thread belongs to a live process, run by that thread. */
  ghost predicate ThreadSound(pcb: Pcbs, procs: map<Tid, Process>, c: Pid)
    requires c in pcb
  {
    pcb[c].thread.Some? ==>
      var x := pcb[c].thread.value;
      x in procs && procs[x].pid == c && procs[x].number == pcb[c].number && !procs[x].point.Gone?
  }

  /** A child that has been let go has had its code returned. */
  ghost predicate GrantSound(pcb: Pcbs, results: seq<Result>, c: Pid)
    requires c in pcb
  {
    pcb[c].granted ==> Result(pcb[c].number, pcb[c].exitcode) in results
  }

  /** Its parent has raised the count before coming through JoinWait, and it has lowered it before releasing. */
  ghost predicate StageSound(pcb: Pcbs, counted: set<nat>, uncounted: set<nat>, c: Pid)
    requires c in pcb
  {
    var q := pcb[c];
    && (q.joined ==> q.number in counted) && (q.number in counted ==> q.asked)
    && (q.released ==> q.number in uncounted) && (q.number in uncounted ==> q.exiting)
  }

  ghost predicate PointStage(p: Process, counted: set<nat>, uncounted: set<nat>) {
    && (p.point.Joining? ==> (p.point.number in counted <==> p.point.join == JoinWait || p.point.join == JoinRead))
    && (p.point.Exiting? ==> (p.number in uncounted <==> p.point.exit != ExitEnter && p.point.exit != ExitLeave))
  }

  /** The children of `x` in the table whose number is in a set. */
  ghost function Kids(pcb: Pcbs, x: Pid, numbers: set<nat>): set<Pid> {
    set c | c in pcb && c != 0 && pcb[c].parent == x && pcb[c].number in numbers
  }

  /** numwait is the number of children being joined, less those that have exited. */
  ghost predicate WaitSound(pcb: Pcbs, numwait: map<Pid, int>, counted: set<nat>, uncounted: set<nat>, x: Pid) {
    x in numwait && numwait[x] == |Kids(pcb, x, counted)| - |Kids(pcb, x, uncounted)|
  }

  ghost predicate Below(numbers: set<nat>, next: nat) {
    forall n :: n in numbers ==> n < next
  }

  ghost predicate BlockCounted(tab: Table, c: Pid)
    requires c in tab.pcb
  {
    && c < MAX_PROCESS && ThreadSound(tab.pcb, tab.procs, c) && GrantSound(tab.pcb, tab.results, c)
    && StageSound(tab.pcb, tab.counted, tab.uncounted, c)
    && WaitSound(tab.pcb, tab.numwait, tab.counted, tab.uncounted, c)
  }

  ghost predicate Counted(tab: Table) {
    && (forall c :: c in tab.pcb ==> BlockCounted(tab, c))
    && (forall t :: t in tab.procs ==> PointStage(tab.procs[t], tab.counted, tab.uncounted))
    && Below(tab.counted, tab.next) && Below(tab.uncounted, tab.next)
  }

  // ---- coming through a P ----

  lemma TookThread(tab: Table, t: Tid, c: Pid)
    requires t in tab.procs && c in tab.pcb && ThreadSound(tab.pcb, tab.procs, c)
    ensures c in CameThrough(tab, t).pcb && ThreadSound(CameThrough(tab, t).pcb, CameThrough(tab, t).procs, c)
  {}

  lemma TookStage(tab: Table, values: seq<int>, t: Tid, c: Pid)
    requires t in tab.procs && c in tab.pcb && StageSound(tab.pcb, tab.counted, tab.uncounted, c)
    requires PointStage(tab.procs[t], tab.counted, tab.uncounted) && ProcSound(tab.pcb, tab.procs[t], t)
    requires GrantSound(tab.pcb, tab.results, c)
    ensures c in BlocksAfterP(tab.pcb, tab.procs[t])
    ensures StageSound(BlocksAfterP(tab.pcb, tab.procs[t]), tab.counted, tab.uncounted, c)
    ensures GrantSound(BlocksAfterP(tab.pcb, tab.procs[t]), tab.results, c)
  {}

  lemma TookPoint(p: Process, counted: set<nat>, uncounted: set<nat>)
    requires PointStage(p, counted, uncounted)
    ensures PointStage(p.(point := AfterP(p.point)), counted, uncounted)
  {}

  /** Two tables with the same children, under the same numbers. */
  lemma SameKids(pcb: Pcbs, next: Pcbs, x: Pid, numbers: set<nat>)
    requires pcb.Keys == next.Keys
    requires forall c :: c in pcb ==> next[c].parent == pcb[c].parent && next[c].number == pcb[c].number
    ensures Kids(next, x, numbers) == Kids(pcb, x, numbers)
  {}

  lemma TookKids(pcb: Pcbs, p: Process, x: Pid, numbers: set<nat>)
    ensures Kids(BlocksAfterP(pcb, p), x, numbers) == Kids(pcb, x, numbers)
  {
    hide Kids;
    SameKids(pcb, BlocksAfterP(pcb, p), x, numbers);
  }

  lemma CountedTook(tab: Table, values: seq<int>, t: Tid)
    requires t in tab.procs && Sound(tab, values) && Counted(tab)
    ensures Counted(CameThrough(tab, t))
  {
    hide Sound;
    hide ThreadSound;
    hide GrantSound;
    hide StageSound;
    hide PointStage;
    hide Kids;
    hide BlocksAfterP;
    hide AfterP;
    var n, p := CameThrough(tab, t), tab.procs[t];
    PlaceSound(tab, values, t);
    forall c | c in n.pcb
      ensures BlockCounted(n, c)
    {
      BlockAfterP(tab.pcb, p, c);
      assert BlockCounted(tab, c);
      TookThread(tab, t, c);
      TookStage(tab, values, t, c);
      TookKids(tab.pcb, p, c, tab.counted);
      TookKids(tab.pcb, p, c, tab.uncounted);
    }
    forall u | u in n.procs
      ensures PointStage(n.procs[u], n.counted, n.uncounted)
    {
      assert PointStage(tab.procs[u], tab.counted, tab.uncounted);
      TookPoint(p, tab.counted, tab.uncounted);
    }
  }

  // ---- doing a V ----

  lemma GaveThread(tab: Table, t: Tid, c: Pid)
    requires t in tab.procs && c in tab.pcb && c in BlocksAfterV(tab.pcb, tab.procs[t])
    requires ThreadSound(tab.pcb, tab.procs, c)
    ensures ThreadSound(Signalled(tab, t).pcb, Signalled(tab, t).procs, c)
  {}

  lemma GaveGrant(tab: Table, t: Tid, c: Pid)
    requires t in tab.procs && c in tab.pcb && c in BlocksAfterV(tab.pcb, tab.procs[t])
    requires GrantSound(tab.pcb, tab.results, c) && ProcSound(tab.pcb, tab.procs[t], t)
    ensures GrantSound(BlocksAfterV(tab.pcb, tab.procs[t]), ResultsAfterV(tab.pcb, tab.results, tab.procs[t]), c)
  {}

  lemma GaveStage(pcb: Pcbs, p: Process, t: Tid, counted: set<nat>, uncounted: set<nat>, c: Pid)
    requires c in pcb && c in BlocksAfterV(pcb, p) && Apart(pcb) && ProcSound(pcb, p, t)
    requires StageSound(pcb, counted, uncounted, c) && PointStage(p, counted, uncounted)
    ensures StageSound(BlocksAfterV(pcb, p), CountedAfterV(counted, p), UncountedAfterV(uncounted, p), c)
  {}

  lemma GavePoint(p: Process, counted: set<nat>, uncounted: set<nat>)
    requires PointStage(p, counted, uncounted)
    ensures PointStage(p.(point := AfterV(p.point)), CountedAfterV(counted, p), UncountedAfterV(uncounted, p))
  {}

  lemma GavePointOther(pcb: Pcbs, p: Process, t: Tid, q: Process, u: Tid, counted: set<nat>, uncounted: set<nat>)
    requires Apart(pcb) && ProcSound(pcb, p, t) && ProcSound(pcb, q, u) && t != u && PointStage(q, counted, uncounted)
    ensures PointStage(q, CountedAfterV(counted, p), UncountedAfterV(uncounted, p))
  {}

  /** One more number counts one more child of the one parent. */
  lemma KidsPlus(pcb: Pcbs, c: Pid, x: Pid, numbers: set<nat>)
    requires c in pcb && c != 0 && pcb[c].number !in numbers && Apart(pcb)
    ensures |Kids(pcb, x, numbers + {pcb[c].number})| == |Kids(pcb, x, numbers)| + Flag(pcb[c].parent == x)
  {
    var a, b := Kids(pcb, x, numbers), Kids(pcb, x, numbers + {pcb[c].number});
    if pcb[c].parent == x {
      assert b == a + {c};
    } else {
      assert b == a;
    }
  }

  /** A child that is deleted is counted no longer. */
  lemma KidsMinus(pcb: Pcbs, c: Pid, x: Pid, numbers: set<nat>)
    requires c in pcb && c != 0 && pcb[c].number in numbers
    ensures |Kids(pcb - {c}, x, numbers)| == |Kids(pcb, x, numbers)| - Flag(pcb[c].parent == x)
  {
    var a, b := Kids(pcb, x, numbers), Kids(pcb - {c}, x, numbers);
    assert b == a - {c};
    Without(a, c);
  }

  lemma GaveWait(pcb: Pcbs, p: Process, t: Tid, numwait: map<Pid, int>, counted: set<nat>, uncounted: set<nat>, x: Pid)
    requires x in BlocksAfterV(pcb, p) && WaitSound(pcb, numwait, counted, uncounted, x)
    requires Apart(pcb) && ProcSound(pcb, p, t) && PointStage(p, counted, uncounted)
    requires p.point == Exiting(RemoveSlot) ==>
      p.pid in pcb && StageSound(pcb, counted, uncounted, p.pid) && pcb[p.pid].joined
    ensures WaitSound(BlocksAfterV(pcb, p), NumwaitAfterV(pcb, numwait, p),
                      CountedAfterV(counted, p), UncountedAfterV(uncounted, p), x)
  {
    hide Apart;
    match p.point
    case Joining(JoinLeave, c, n) =>
      hide Kids;
      KidsPlus(pcb, c, x, counted);
    case Exiting(ExitLeave) =>
      hide Kids;
      KidsPlus(pcb, p.pid, x, uncounted);
    case Exiting(RemoveSlot) =>
      hide Kids;
      KidsMinus(pcb, p.pid, x, counted);
      KidsMinus(pcb, p.pid, x, uncounted);
    case _ =>
      hide Kids;
      GaveKids(pcb, p, x, counted);
      GaveKids(pcb, p, x, uncounted);
  }

  lemma GaveKids(pcb: Pcbs, p: Process, x: Pid, numbers: set<nat>)
    requires p.point != Exiting(RemoveSlot)
    ensures Kids(BlocksAfterV(pcb, p), x, numbers) == Kids(pcb, x, numbers)
  {
    hide Kids;
    SameKids(pcb, BlocksAfterV(pcb, p), x, numbers);
  }

  lemma SoundPieces(tab: Table, values: seq<int>)
    requires Sound(tab, values)
    ensures Apart(tab.pcb) && Parents(tab.pcb) && Numbered(tab.pcb, tab.exits, tab.next)
  {}

  lemma GaveNumbers(tab: Table, t: Tid)
    requires t in tab.procs && ProcSound(tab.pcb, tab.procs[t], t) && Numbered(tab.pcb, tab.exits, tab.next)
    requires Below(tab.counted, tab.next) && Below(tab.uncounted, tab.next)
    ensures Below(CountedAfterV(tab.counted, tab.procs[t]), tab.next)
    ensures Below(UncountedAfterV(tab.uncounted, tab.procs[t]), tab.next)
  {}

  lemma CountedGave(tab: Table, values: seq<int>, t: Tid)
    requires t in tab.procs && Sound(tab, values) && Counted(tab)
    ensures Counted(Signalled(tab, t))
  {
    hide Sound;
    hide Apart;
    hide Parents;
    hide Numbered;
    hide ThreadSound;
    hide GrantSound;
    hide PointStage;
    hide WaitSound;
    hide BlocksAfterV;
    hide ResultsAfterV;
    hide NumwaitAfterV;
    hide CountedAfterV;
    hide UncountedAfterV;
    hide AfterV;
    var n, p := Signalled(tab, t), tab.procs[t];
    SoundPieces(tab, values);
    PlaceSound(tab, values, t);
    assert PointStage(p, tab.counted, tab.uncounted);
    forall c | c in n.pcb
      ensures BlockCounted(n, c)
    {
      BlockAfterV(tab.pcb, p, c);
      assert BlockCounted(tab, c);
      GaveThread(tab, t, c);
      GaveGrant(tab, t, c);
      GaveStage(tab.pcb, p, t, tab.counted, tab.uncounted, c);
      if p.point == Exiting(RemoveSlot) {
        assert BlockCounted(tab, p.pid);
        BlockSound(tab, values, p.pid);
      }
      GaveWait(tab.pcb, p, t, tab.numwait, tab.counted, tab.uncounted, c);
    }
    forall u | u in n.procs
      ensures PointStage(n.procs[u], n.counted, n.uncounted)
    {
      assert PointStage(tab.procs[u], tab.counted, tab.uncounted);
      if u == t {
        GavePoint(p, tab.counted, tab.uncounted);
      } else {
        PlaceSound(tab, values, u);
        GavePointOther(tab.pcb, p, t, tab.procs[u], u, tab.counted, tab.uncounted);
      }
    }
    GaveNumbers(tab, t);
  }

  // ---- steps between semaphores ----

  lemma LocalThread(tab: Table, values: seq<int>, step: Step, c: Pid)
    requires !step.Do? && CanStep(tab, step) && c in Next(tab, step).pcb && Sound(tab, values)
    requires c in tab.pcb ==> ThreadSound(tab.pcb, tab.procs, c)
    ensures ThreadSound(Next(tab, step).pcb, Next(tab, step).procs, c)
  {
    hide Sound;
    hide Started;
    hide ThreeSemaphores;
    PlaceSound(tab, values, tab.k.current);
  }

  lemma LocalGrant(tab: Table, values: seq<int>, step: Step, c: Pid)
    requires !step.Do? && CanStep(tab, step) && c in Next(tab, step).pcb && Sound(tab, values)
    requires c in tab.pcb ==> GrantSound(tab.pcb, tab.results, c)
    ensures GrantSound(Next(tab, step).pcb, Next(tab, step).results, c) && (c !in tab.pcb ==> c < MAX_PROCESS)
  {
    hide Sound;
    hide Started;
    hide ThreeSemaphores;
    PlaceSound(tab, values, tab.k.current);
    if c in tab.pcb {
      BlockSound(tab, values, c);
    }
  }

  lemma LocalStage(tab: Table, step: Step, c: Pid)
    requires !step.Do? && CanStep(tab, step) && c in Next(tab, step).pcb
    requires c in tab.pcb ==> StageSound(tab.pcb, tab.counted, tab.uncounted, c)
    requires Below(tab.counted, tab.next) && Below(tab.uncounted, tab.next)
    ensures StageSound(Next(tab, step).pcb, Next(tab, step).counted, Next(tab, step).uncounted, c)
  {
    hide Started;
    hide ThreeSemaphores;
  }

  lemma LocalPoint(tab: Table, values: seq<int>, step: Step)
    requires !step.Do? && CanStep(tab, step) && Sound(tab, values)
    requires forall c :: c in tab.pcb ==> StageSound(tab.pcb, tab.counted, tab.uncounted, c)
    ensures tab.k.current in Next(tab, step).procs
    ensures PointStage(Next(tab, step).procs[tab.k.current], Next(tab, step).counted, Next(tab, step).uncounted)
  {
    hide Sound;
    hide Started;
    hide ThreeSemaphores;
    PlaceSound(tab, values, tab.k.current);
  }

  lemma LocalSame(tab: Table, step: Step)
    requires !step.Do? && CanStep(tab, step)
    ensures var n := Next(tab, step);
      && n.counted == tab.counted && n.uncounted == tab.uncounted && tab.next <= n.next
      && n.numwait == if step.MakePcb? then tab.numwait[step.pid := 0] else tab.numwait
  {
    hide Started;
    hide ThreeSemaphores;
  }

  lemma LocalFamily(tab: Table, step: Step, c: Pid)
    requires !step.Do? && CanStep(tab, step) && c in tab.pcb
    ensures c in Next(tab, step).pcb && Next(tab, step).pcb[c].parent == tab.pcb[c].parent
    ensures Next(tab, step).pcb[c].number == tab.pcb[c].number
  {
    hide Started;
    hide ThreeSemaphores;
  }

  lemma MadeFamily(tab: Table, x: Pid)
    requires CanStep(tab, MakePcb(x))
    ensures x in Next(tab, MakePcb(x)).pcb && x !in tab.pcb
    ensures Next(tab, MakePcb(x)).pcb[x].number == tab.next && Next(tab, MakePcb(x)).pcb[x].parent == Me(tab).pid
  {
    hide ThreeSemaphores;
  }

  /** A new child has a new number, so it is in no count. */
  lemma LocalKids(tab: Table, step: Step, x: Pid, numbers: set<nat>)
    requires !step.Do? && CanStep(tab, step) && Below(numbers, tab.next)
    ensures Kids(Next(tab, step).pcb, x, numbers) == Kids(tab.pcb, x, numbers)
  {
    hide CanStep;
    hide Next;
    var n := Next(tab, step);
    forall c
      ensures c in Kids(n.pcb, x, numbers) <==> c in Kids(tab.pcb, x, numbers)
    {
      LocalBlock(tab, step, c);
      if c in tab.pcb {
        LocalFamily(tab, step, c);
      } else if step.MakePcb? {
        MadeFamily(tab, step.pid);
      }
    }
  }

  /** Nobody is the child of a process that is not there. */
  lemma NoKids(pcb: Pcbs, x: Pid, numbers: set<nat>)
    requires Parents(pcb) && x !in pcb
    ensures Kids(pcb, x, numbers) == {}
  {
    forall c | c in pcb && c != 0
      ensures pcb[c].parent != x
    {
      assert ParentSound(pcb, c);
    }
  }

  lemma LocalWait(tab: Table, values: seq<int>, step: Step, x: Pid)
    requires !step.Do? && CanStep(tab, step) && x in Next(tab, step).pcb && Sound(tab, values)
    requires x in tab.pcb ==> WaitSound(tab.pcb, tab.numwait, tab.counted, tab.uncounted, x)
    requires Below(tab.counted, tab.next) && Below(tab.uncounted, tab.next)
    ensures var n := Next(tab, step); WaitSound(n.pcb, n.numwait, n.counted, n.uncounted, x)
  {
    hide Sound;
    hide CanStep;
    hide Next;
    hide Kids;
    LocalSame(tab, step);
    LocalBlock(tab, step, x);
    LocalKids(tab, step, x, tab.counted);
    LocalKids(tab, step, x, tab.uncounted);
    if x !in tab.pcb {
      SoundPieces(tab, values);
      hide Apart;
      hide Parents;
      hide Numbered;
      NoKids(tab.pcb, x, tab.counted);
      NoKids(tab.pcb, x, tab.uncounted);
    } else if step.MakePcb? {
      MadeFamily(tab, step.pid);
    }
  }

  lemma CountedLocal(tab: Table, values: seq<int>, step: Step)
    requires !step.Do? && CanStep(tab, step) && Sound(tab, values) && Counted(tab)
    ensures Counted(Next(tab, step))
  {
    hide Sound;
    hide CanStep;
    hide Next;
    hide ThreadSound;
    hide GrantSound;
    hide StageSound;
    hide PointStage;
    hide WaitSound;
    var n := Next(tab, step);
    LocalSame(tab, step);
    forall c | c in n.pcb
      ensures BlockCounted(n, c)
    {
      assert c in tab.pcb ==> BlockCounted(tab, c);
      LocalThread(tab, values, step, c);
      LocalGrant(tab, values, step, c);
      LocalStage(tab, step, c);
      LocalWait(tab, values, step, c);
    }
    assert forall c :: c in tab.pcb ==> BlockCounted(tab, c);
    LocalPoint(tab, values, step);
    forall u | u in n.procs
      ensures PointStage(n.procs[u], n.counted, n.uncounted)
    {
      if u != tab.k.current {
        LocalOther(tab, step, u);
        NewPoint(n.procs[u], n.counted, n.uncounted);
      }
    }
  }

  lemma NewPoint(p: Process, counted: set<nat>, uncounted: set<nat>)
    ensures p.point == User ==> PointStage(p, counted, uncounted)
  {}

  // ---- every step, every run ----

  ghost predicate CountsInv(tab: Table) {
    TableInv(tab) && Counted(tab)
  }

  lemma CountedEvent(tab: Table, values: seq<int>, e: Event)
    requires Sound(tab, values) && Counted(tab)
    ensures Counted(AfterEvent(tab, e))
  {
    hide Sound;
    hide Counted;
    hide CameThrough;
    hide Signalled;
    hide NextP;
    hide NextV;
    if AfterEvent(tab, e) != tab {
      if e.DidP? {
        CountedTook(tab, values, e.thread);
      } else {
        CountedGave(tab, values, tab.k.current);
      }
    }
  }

  lemma CountedAnyKernel(tab: Table, k: State)
    requires Counted(tab)
    ensures Counted(tab.(k := k))
  {
    var n := tab.(k := k);
    forall c | c in n.pcb
      ensures BlockCounted(n, c)
    {
      assert BlockCounted(tab, c);
    }
  }

  lemma StepCounts(tab: Table, step: Step)
    requires CanStep(tab, step) && CountsInv(tab)
    ensures CountsInv(Next(tab, step))
  {
    hide Inv;
    hide Sound;
    hide Values;
    hide Counted;
    hide AfterEvent;
    hide EventOf;
    hide Apply;
    hide MayDo;
    hide Enabled;
    hide Started;
    hide ThreeSemaphores;
    if step.Do? {
      CountedEvent(tab, Values(tab.k), EventOf(tab.k, step.action));
      CountedAnyKernel(AfterEvent(tab, EventOf(tab.k, step.action)), Apply(tab.k, step.action));
      StepKeeps(tab, step);
    } else {
      hide Next;
      StepKeeps(tab, step);
      CountedLocal(tab, Values(tab.k), step);
    }
  }

  lemma StartCounts(tab: Table, main: Tid, base: Sid)
    requires Start(tab, main, base)
    ensures CountsInv(tab)
  {
    hide Inv;
    hide Values;
    StartSound(tab, main, base);
    hide TableInv;
    assert Kids(tab.pcb, 0, {}) == {};
  }

  lemma {:induction false} RunCounts(tabs: seq<Table>, steps: seq<Step>, i: nat)
    requires ProcessTable.Run(tabs, steps) && i < |tabs|
    ensures CountsInv(tabs[i])
  {
    hide CountsInv;
    hide Next;
    hide CanStep;
    hide Start;
    if i == 0 {
      var main, base :| Start(tabs[0], main, base);
      StartCounts(tabs[0], main, base);
    } else {
      RunCounts(tabs, steps, i - 1);
      StepCounts(tabs[i - 1], steps[i - 1]);
    }
  }

  lemma RunStep(tabs: seq<Table>, steps: seq<Step>, i: nat)
    requires ProcessTable.Run(tabs, steps) && i < |steps|
    ensures |tabs| == |steps| + 1 && CanStep(tabs[i], steps[i]) && tabs[i + 1] == Next(tabs[i], steps[i])
    ensures CountsInv(tabs[i]) && TableInv(tabs[i])
  {
    hide Next;
    hide CanStep;
    hide Start;
    hide TableInv;
    hide Counted;
    RunCounts(tabs, steps, i);
  }

  lemma RunLength(tabs: seq<Table>, steps: seq<Step>)
    requires ProcessTable.Run(tabs, steps)
    ensures |tabs| == |steps| + 1
  {}

  /**
   In every run numwait of a process is the number of its children it has gone to wait for less the number of those
   that have exited. A child it has come through JoinWait for is among the first, one that has released it among the
   second, and one that has called neither Join nor Exit is in neither.
   */
  lemma WaitCounts(tabs: seq<Table>, steps: seq<Step>, i: nat, x: Pid, c: Pid)
    requires ProcessTable.Run(tabs, steps) && i < |tabs| && x in tabs[i].pcb
    ensures var tab := tabs[i];
      x in tab.numwait && tab.numwait[x] == |Kids(tab.pcb, x, tab.counted)| - |Kids(tab.pcb, x, tab.uncounted)|
    ensures var tab := tabs[i];
      c in tab.pcb ==>
        var q := tab.pcb[c];
        && (q.joined ==> q.number in tab.counted) && (q.number in tab.counted ==> q.asked)
        && (q.released ==> q.number in tab.uncounted) && (q.number in tab.uncounted ==> q.exiting)
  {
    hide ProcessTable.Run;
    hide TableInv;
    RunCounts(tabs, steps, i);
    assert BlockCounted(tabs[i], x);
    assert c in tabs[i].pcb ==> BlockCounted(tabs[i], c);
  }

  // ---- the whole of Exec ----

  predicate InExec(point: Point) {
    point.ExecLock? || point.ExecSlot? || point.Execing? || point.ExecFail?
  }

  /** Exec goes on, with the process it has made; or it returns, from where its result is decided. */
  ghost predicate ExecGoesOn(before: Point, after: Point, next: nat) {
    && (InExec(after) || (after == User && (before.ExecFail? || (before.Execing? && before.exec == ExecDone))))
    && (after.Execing? ==>
          (before.Execing? && before.child == after.child && before.number == after.number)
          || (before.ExecSlot? && after.number == next))
  }

  lemma ExecBegins(tab: Table)
    requires CanStep(tab, BeginExec)
    ensures tab.k.current in tab.procs && Next(tab, BeginExec).procs[tab.k.current].point == ExecLock
  {}

  lemma ExecEvent(tab: Table, e: Event, t: Tid)
    requires t in tab.procs && InExec(tab.procs[t].point)
    ensures t in AfterEvent(tab, e).procs
    ensures ExecGoesOn(tab.procs[t].point, AfterEvent(tab, e).procs[t].point, tab.next)
    ensures AfterEvent(tab, e).next == tab.next
  {
    hide BlocksAfterP;
    hide BlocksAfterV;
    hide ResultsAfterV;
    hide NumwaitAfterV;
  }

  lemma ExecLocal(tab: Table, step: Step, t: Tid)
    requires !step.Do? && CanStep(tab, step) && t in tab.procs && InExec(tab.procs[t].point)
    ensures t in Next(tab, step).procs
    ensures ExecGoesOn(tab.procs[t].point, Next(tab, step).procs[t].point, tab.next)
  {
    hide Started;
    hide ThreeSemaphores;
  }

  lemma NextGrows(tab: Table, step: Step)
    requires CanStep(tab, step)
    ensures tab.next <= Next(tab, step).next
  {
    hide Started;
    hide ThreeSemaphores;
    hide Apply;
    hide EventOf;
    hide Enabled;
  }

  lemma ExecStep(tab: Table, step: Step, t: Tid)
    requires CanStep(tab, step) && t in tab.procs && InExec(tab.procs[t].point)
    ensures t in Next(tab, step).procs
    ensures ExecGoesOn(tab.procs[t].point, Next(tab, step).procs[t].point, tab.next)
  {
    hide ExecGoesOn;
    hide InExec;
    hide AfterEvent;
    hide EventOf;
    hide Apply;
    hide Enabled;
    hide MayDo;
    if step.Do? {
      ExecEvent(tab, EventOf(tab.k, step.action), t);
    } else {
      hide Next;
      ExecLocal(tab, step, t);
    }
  }

  lemma {:induction false} RunExec(tabs: seq<Table>, steps: seq<Step>, i: nat, j: nat, t: Tid)
    requires ProcessTable.Run(tabs, steps) && i < j < |tabs| && steps[i] == BeginExec && t == tabs[i].k.current
    requires forall m :: i < m <= j ==> t in tabs[m].procs && InExec(tabs[m].procs[t].point)
    ensures tabs[i].next <= tabs[j].next
    ensures tabs[j].procs[t].point.Execing? ==> tabs[i].next <= tabs[j].procs[t].point.number
    decreases j
  {
    hide ProcessTable.Run;
    hide TableInv;
    hide CountsInv;
    hide Next;
    hide CanStep;
    RunLength(tabs, steps);
    RunStep(tabs, steps, j - 1);
    NextGrows(tabs[j - 1], steps[j - 1]);
    if j == i + 1 {
      ExecBegins(tabs[i]);
    } else {
      RunExec(tabs, steps, i, j - 1, t);
      ExecStep(tabs[j - 1], steps[j - 1], t);
    }
  }

  /** A child that has been forked: its block, its parent, and the thread that runs it. */
  ghost predicate IsStarted(tab: Table, c: Pid, n: nat, parent: Pid) {
    && c in tab.pcb && c < MAX_PROCESS && tab.pcb[c].number == n && tab.pcb[c].parent == parent
    && tab.pcb[c].thread.Some?
    && var x := tab.pcb[c].thread.value;
       x in tab.procs && tab.procs[x].pid == c && tab.procs[x].number == n && !tab.procs[x].point.Gone?
  }

  lemma ChildStarted(tab: Table, t: Tid, c: Pid, n: nat)
    requires t in tab.procs && tab.procs[t].point == Execing(ExecDone, c, n) && CountsInv(tab)
    ensures IsStarted(tab, c, n, tab.procs[t].pid)
  {
    hide Inv;
    hide Values;
    hide Sound;
    PlaceSound(tab, Values(tab.k), t);
    assert BlockCounted(tab, c);
  }

  /**
   Exec, called at step i by thread t and returning at j, comes from where it has failed, or from where it has the
   pid of a process that is new, is its child, is in the table, and has a thread of its own.
   */
  lemma ExecReturns(tabs: seq<Table>, steps: seq<Step>, i: nat, j: nat)
    requires ProcessTable.Run(tabs, steps) && i < j < |tabs| && steps[i] == BeginExec
    requires var t := tabs[i].k.current;
      && (forall m :: i < m < j ==> t in tabs[m].procs && InExec(tabs[m].procs[t].point))
      && t in tabs[j].procs && !InExec(tabs[j].procs[t].point)
    ensures tabs[j].procs[tabs[i].k.current].point == User
    ensures j > i + 1
    ensures var p := tabs[j - 1].procs[tabs[i].k.current];
      p.point.ExecFail?
      || (p.point.Execing? && tabs[i].next <= p.point.number
          && IsStarted(tabs[j - 1], p.point.child, p.point.number, p.pid))
  {
    hide ProcessTable.Run;
    hide TableInv;
    hide CountsInv;
    hide Next;
    hide CanStep;
    hide IsStarted;
    RunLength(tabs, steps);
    var t := tabs[i].k.current;
    RunStep(tabs, steps, i);
    ExecBegins(tabs[i]);
    assert j > i + 1;
    RunStep(tabs, steps, j - 1);
    RunExec(tabs, steps, i, j - 1, t);
    ExecStep(tabs[j - 1], steps[j - 1], t);
    var p := tabs[j - 1].procs[t];
    if p.point.Execing? {
      ChildStarted(tabs[j - 1], t, p.point.child, p.point.number);
    }
  }

  // ---- the whole of Exit ----

  ghost predicate InExit(tab: Table, t: Tid, x: Pid, n: nat) {
    t in tab.procs && tab.procs[t].pid == x && tab.procs[t].number == n && tab.procs[t].point.Exiting?
  }

  ghost predicate ExitGoesOn(tab: Table, next: Table, t: Tid, x: Pid, n: nat) {
    || InExit(next, t, x, n)
    || (t in tab.procs && tab.procs[t].point == Exiting(RemoveSlot)
        && t in next.procs && next.procs[t].point == Gone && x !in next.pcb)
  }

  lemma ExitEvent(tab: Table, e: Event, t: Tid, x: Pid, n: nat)
    requires InExit(tab, t, x, n)
    ensures ExitGoesOn(tab, AfterEvent(tab, e), t, x, n)
  {
    hide BlocksAfterP;
    hide ResultsAfterV;
    hide NumwaitAfterV;
  }

  lemma ExitLocal(tab: Table, step: Step, t: Tid, x: Pid, n: nat)
    requires !step.Do? && CanStep(tab, step) && InExit(tab, t, x, n)
    ensures InExit(Next(tab, step), t, x, n)
  {
    hide Started;
    hide ThreeSemaphores;
  }

  lemma ExitGoes(tab: Table, step: Step, t: Tid, x: Pid, n: nat)
    requires CanStep(tab, step) && InExit(tab, t, x, n)
    ensures ExitGoesOn(tab, Next(tab, step), t, x, n)
  {
    hide InExit;
    hide AfterEvent;
    hide EventOf;
    hide Apply;
    hide Enabled;
    hide MayDo;
    if step.Do? {
      ExitEvent(tab, EventOf(tab.k, step.action), t, x, n);
      ExitAnyKernel(AfterEvent(tab, EventOf(tab.k, step.action)), t, x, n, Apply(tab.k, step.action));
    } else {
      hide Next;
      ExitLocal(tab, step, t, x, n);
    }
  }

  lemma ExitAnyKernel(tab: Table, t: Tid, x: Pid, n: nat, k: State)
    ensures InExit(tab, t, x, n) ==> InExit(tab.(k := k), t, x, n)
  {}

  /** The block of a process in Exit is there, with its code; past ExitWait its parent has had the code. */
  lemma ExitThere(tab: Table, t: Tid, x: Pid, n: nat)
    requires InExit(tab, t, x, n) && CountsInv(tab)
    ensures x in tab.pcb && tab.pcb[x].number == n && n in tab.exits && tab.pcb[x].exitcode == tab.exits[n]
    ensures tab.procs[t].point == Exiting(RemoveSlot) ==> Result(n, tab.exits[n]) in tab.results
  {
    hide Inv;
    hide Values;
    hide Sound;
    PlaceSound(tab, Values(tab.k), t);
    BlockSound(tab, Values(tab.k), x);
    assert BlockCounted(tab, x);
  }

  lemma {:induction false} RunExit(tabs: seq<Table>, steps: seq<Step>, i: nat, j: nat,
                                   t: Tid, x: Pid, n: nat, code: int)
    requires ProcessTable.Run(tabs, steps) && i <= j < |tabs| && InExit(tabs[i], t, x, n)
    requires n in tabs[i].exits && tabs[i].exits[n] == code
    requires forall m :: i <= m <= j ==> t in tabs[m].procs && !tabs[m].procs[t].point.Gone?
    ensures InExit(tabs[j], t, x, n) && n in tabs[j].exits && tabs[j].exits[n] == code
    ensures x in tabs[j].pcb && tabs[j].pcb[x].number == n && tabs[j].pcb[x].exitcode == code
    decreases j
  {
    hide ProcessTable.Run;
    hide TableInv;
    hide Counted;
    hide Next;
    hide CanStep;
    RunLength(tabs, steps);
    if i < j {
      RunExit(tabs, steps, i, j - 1, t, x, n, code);
      RunStep(tabs, steps, j - 1);
      ExitGoes(tabs[j - 1], steps[j - 1], t, x, n);
      ExitsKept(tabs[j - 1], steps[j - 1], n);
    }
    RunCounts(tabs, steps, j);
    ExitThere(tabs[j], t, x, n);
  }

  lemma ExitsKept(tab: Table, step: Step, n: nat)
    requires CanStep(tab, step) && TableInv(tab) && n in tab.exits
    ensures n in Next(tab, step).exits && Next(tab, step).exits[n] == tab.exits[n]
  {
    hide TableInv;
    if step.BeginExit? {
      ExitBegins(tab, step.code);
    } else {
      hide Next;
      OtherExits(tab, step);
    }
  }

  /**
   Exit, called with a code at step i by thread t: until the process is gone at j its block is there with the code,
   and then the block is deleted, its pid is free, and a Join has returned the code.
   */
  lemma ExitReturns(tabs: seq<Table>, steps: seq<Step>, i: nat, j: nat)
    requires ProcessTable.Run(tabs, steps) && i < j < |tabs| && steps[i].BeginExit?
    requires var t := tabs[i].k.current;
      && (forall m :: i < m < j ==> t in tabs[m].procs && !tabs[m].procs[t].point.Gone?)
      && t in tabs[j].procs && tabs[j].procs[t].point.Gone?
    ensures var p, code := Me(tabs[i]), steps[i].code;
      && (forall m :: i < m < j ==>
            p.pid in tabs[m].pcb && tabs[m].pcb[p.pid].number == p.number && tabs[m].pcb[p.pid].exitcode == code)
      && p.pid !in tabs[j].pcb && Result(p.number, code) in tabs[j - 1].results
  {
    hide ProcessTable.Run;
    hide TableInv;
    hide Counted;
    hide Next;
    hide CanStep;
    RunLength(tabs, steps);
    RunStep(tabs, steps, i);
    CurrentThere(tabs[i], steps[i]);
    var t, p, code := tabs[i].k.current, Me(tabs[i]), steps[i].code;
    ExitBegins(tabs[i], code);
    assert j > i + 1;
    forall m | i < m < j
      ensures p.pid in tabs[m].pcb && tabs[m].pcb[p.pid].number == p.number && tabs[m].pcb[p.pid].exitcode == code
    {
      RunExit(tabs, steps, i + 1, m, t, p.pid, p.number, code);
    }
    RunExit(tabs, steps, i + 1, j - 1, t, p.pid, p.number, code);
    RunStep(tabs, steps, j - 1);
    ExitGoes(tabs[j - 1], steps[j - 1], t, p.pid, p.number);
    ExitThere(tabs[j - 1], t, p.pid, p.number);
  }
}
