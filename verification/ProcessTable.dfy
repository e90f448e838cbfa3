/**
 Exec, Join and Exit over the process table (userprog/ptable.cc, userprog/pcb.h, userprog/pcb.cc), as threads of
 the kernel taking turns. Each process is one thread; a process control block has three semaphores of its own.
 */
module ProcessTable {
  import opened Kernel
  import opened KernelInvariant
  import opened KernelRuns

  const MAX_PROCESS := 10

  type Pid = nat

  /**
   A process control block. Its semaphores joinsem, exitsem and multex are numbered base, base + 1 and base + 2.
   `number` tells apart the processes that have had the same pid. The last fields record what has happened:
   the parent has asked to join, the child has called Exit, the child has released the parent, the parent has
   come through JoinWait, the parent has let the child go, the child has come through ExitWait.
   */
  datatype Pcb = Pcb(number: nat, parent: Pid, parentNumber: nat, base: Sid, exitcode: int, thread: Option<Tid>,
                     asked: bool, exiting: bool, released: bool, joined: bool, granted: bool, left: bool)

  type Pcbs = map<Pid, Pcb>

  /** Where a process is. */
  datatype Point =
    | User
    | ExecLock                                          // ExecUpdate: bmsem->P()
    | ExecSlot                                          // GetFreeSlot and new PCB
    | Execing(exec: ExecPoint, child: Pid, number: nat)
    | ExecFail                                          // bmsem->V(), and return -1
    | Joining(join: JoinPoint, child: Pid, number: nat)
    | Exiting(exit: ExitPoint)
    | Gone

  datatype ExecPoint =
    | ExecEnter     // the child's multex->P()
    | ExecFork      // new Thread and Fork
    | ExecLeave     // the child's multex->V()
    | ExecDone      // bmsem->V(), and return the child's pid

  datatype JoinPoint =
    | JoinEnter     // IncNumWait: its own multex->P()
    | JoinLeave     // its own multex->V()
    | JoinWait      // the child's joinsem->P()
    | JoinRead      // GetExitCode, then the child's exitsem->V()

  datatype ExitPoint =
    | ExitEnter     // DecNumWait: the parent's multex->P()
    | ExitLeave     // the parent's multex->V()
    | ExitRelease   // its own joinsem->V()
    | ExitWait      // its own exitsem->P()
    | RemoveLock    // bmsem->P()
    | RemoveSlot    // bm->Clear, delete pcb, bmsem->V()

  datatype Process = Process(pid: Pid, number: nat, point: Point)

  /** What a Join returned, and for which process. */
  datatype Result = Result(number: nat, code: int)

  /**
   The table, with what has happened: the codes passed to Exit, the results of Join, and for which processes
   numwait has been raised and lowered, all by process number.
   */
  datatype Table = Table(k: State, bmsem: Sid, owned: set<Sid>, pcb: map<Pid, Pcb>, procs: map<Tid, Process>,
                         exits: map<nat, int>, results: seq<Result>, next: nat,
                         numwait: map<Pid, int>, counted: set<nat>, uncounted: set<nat>)

  // ---- which semaphore comes next ----

  function Sem(tab: Table, pid: Pid, offset: nat): Option<Sid> {
    if pid in tab.pcb then Some(tab.pcb[pid].base + offset) else None
  }

  function ParentOf(tab: Table, pid: Pid): Pid {
    if pid in tab.pcb then tab.pcb[pid].parent else 0
  }

  /** The semaphore a process is about to wait on; nothing if it is not, or if the block is not there. */
  function NextP(tab: Table, p: Process): Option<Sid> {
    match p.point
    case ExecLock => Some(tab.bmsem)
    case Execing(ExecEnter, c, _) => Sem(tab, c, 2)
    case Joining(JoinEnter, _, _) => Sem(tab, p.pid, 2)
    case Joining(JoinWait, c, _) => Sem(tab, c, 0)
    case Exiting(ExitEnter) => Sem(tab, ParentOf(tab, p.pid), 2)
    case Exiting(ExitWait) => Sem(tab, p.pid, 1)
    case Exiting(RemoveLock) => Some(tab.bmsem)
    case _ => None
  }

  /** The semaphore a process is about to signal. */
  function NextV(tab: Table, p: Process): Option<Sid> {
    match p.point
    case Execing(ExecLeave, c, _) => Sem(tab, c, 2)
    case Execing(ExecDone, _, _) => Some(tab.bmsem)
    case ExecFail => Some(tab.bmsem)
    case Joining(JoinLeave, _, _) => Sem(tab, p.pid, 2)
    case Joining(JoinRead, c, _) => Sem(tab, c, 1)
    case Exiting(ExitLeave) => Sem(tab, ParentOf(tab, p.pid), 2)
    case Exiting(ExitRelease) => Sem(tab, p.pid, 0)
    case Exiting(RemoveSlot) => Some(tab.bmsem)
    case _ => None
  }

  function MoveTo(tab: Table, t: Tid, point: Point): Table
    requires t in tab.procs
  {
    tab.(procs := tab.procs[t := tab.procs[t].(point := point)])
  }

  function SetPcb(tab: Table, pid: Pid, q: Pcb): Table {
    tab.(pcb := tab.pcb[pid := q])
  }

  /** The point after a P. */
  function AfterP(point: Point): Point {
    match point
    case ExecLock => ExecSlot
    case Execing(ExecEnter, c, n) => Execing(ExecFork, c, n)
    case Joining(JoinEnter, c, n) => Joining(JoinLeave, c, n)
    case Joining(JoinWait, c, n) => Joining(JoinRead, c, n)
    case Exiting(ExitEnter) => Exiting(ExitLeave)
    case Exiting(ExitWait) => Exiting(RemoveLock)
    case Exiting(RemoveLock) => Exiting(RemoveSlot)
    case _ => point
  }

  /** The point after a V. */
  function AfterV(point: Point): Point {
    match point
    case Execing(ExecLeave, c, n) => Execing(ExecDone, c, n)
    case Execing(ExecDone, _, _) => User
    case ExecFail => User
    case Joining(JoinLeave, c, n) => Joining(JoinWait, c, n)
    case Joining(JoinRead, _, _) => User
    case Exiting(ExitLeave) => Exiting(ExitRelease)
    case Exiting(ExitRelease) => Exiting(ExitWait)
    case Exiting(RemoveSlot) => Gone
    case _ => point
  }

  /** The blocks after a P and after a V: the two sides of the handshake are recorded, and Remove deletes a block. */
  function BlocksAfterP(pcb: Pcbs, p: Process): Pcbs {
    match p.point
    case Joining(JoinWait, c, _) => if c in pcb then pcb[c := pcb[c].(joined := true)] else pcb
    case Exiting(ExitWait) => if p.pid in pcb then pcb[p.pid := pcb[p.pid].(left := true)] else pcb
    case _ => pcb
  }

  function BlocksAfterV(pcb: Pcbs, p: Process): Pcbs {
    match p.point
    case Joining(JoinRead, c, _) => if c in pcb then pcb[c := pcb[c].(granted := true)] else pcb
    case Exiting(ExitRelease) => if p.pid in pcb then pcb[p.pid := pcb[p.pid].(released := true)] else pcb
    case Exiting(RemoveSlot) => pcb - {p.pid}
    case _ => pcb
  }

  /** GetExitCode comes before the V that lets the child go. */
  function ResultsAfterV(pcb: Pcbs, results: seq<Result>, p: Process): seq<Result> {
    match p.point
    case Joining(JoinRead, c, n) => if c in pcb then results + [Result(n, pcb[c].exitcode)] else results
    case _ => results
  }

  function Plus(numwait: map<Pid, int>, pid: Pid, d: int): map<Pid, int> {
    if pid in numwait then numwait[pid := numwait[pid] + d] else numwait
  }

  /** IncNumWait and DecNumWait change the count before the V; deleting a block deletes its count. */
  function NumwaitAfterV(pcb: Pcbs, numwait: map<Pid, int>, p: Process): map<Pid, int> {
    match p.point
    case Joining(JoinLeave, _, _) => Plus(numwait, p.pid, 1)
    case Exiting(ExitLeave) => if p.pid in pcb then Plus(numwait, pcb[p.pid].parent, -1) else numwait
    case Exiting(RemoveSlot) => numwait - {p.pid}
    case _ => numwait
  }

  function CountedAfterV(counted: set<nat>, p: Process): set<nat> {
    if p.point.Joining? && p.point.join == JoinLeave then counted + {p.point.number} else counted
  }

  function UncountedAfterV(uncounted: set<nat>, p: Process): set<nat> {
    if p.point == Exiting(ExitLeave) then uncounted + {p.number} else uncounted
  }

  /** A process has come through its P. */
  function CameThrough(tab: Table, t: Tid): Table
    requires t in tab.procs
  {
    var p := tab.procs[t];
    tab.(procs := tab.procs[t := p.(point := AfterP(p.point))], pcb := BlocksAfterP(tab.pcb, p))
  }

  /** A process does its V, and what comes just before it. */
  function Signalled(tab: Table, t: Tid): Table
    requires t in tab.procs
  {
    var p := tab.procs[t];
    tab.(procs := tab.procs[t := p.(point := AfterV(p.point))], pcb := BlocksAfterV(tab.pcb, p),
         results := ResultsAfterV(tab.pcb, tab.results, p), numwait := NumwaitAfterV(tab.pcb, tab.numwait, p),
         counted := CountedAfterV(tab.counted, p), uncounted := UncountedAfterV(tab.uncounted, p))
  }

  // ---- the steps ----

  datatype Step =
    | BeginExec
    | NoSlot                     // the table is full, or the file cannot be run
    | MakePcb(pid: Pid)          // the smallest free pid
    | Spawn(thread: Tid)         // new Thread and Fork
    | BeginJoin(child: Pid)
    | BeginExit(code: int)
    | Do(action: Action)         // a step of the kernel

  function Me(tab: Table): Process
    requires tab.k.current in tab.procs
  {
    tab.procs[tab.k.current]
  }

  predicate MayDo(tab: Table, a: Action)
    requires Enabled(tab.k, a)
  {
    match EventOf(tab.k, a)
    case DidP(t, s) => s in tab.owned ==> t in tab.procs && NextP(tab, tab.procs[t]) == Some(s)
    case DidV(s) => s in tab.owned ==> a.V? && tab.k.current in tab.procs && NextV(tab, Me(tab)) == Some(s)
    case _ => true
  }

  /** A parent joins each child at most once, and exits only when no child of its own is left in the table. */
  predicate CanStep(tab: Table, step: Step) {
    && (!step.Do? ==> tab.k.mode == Executing && tab.k.current in tab.procs && tab.k.current in tab.k.threads)
    && match step
       case BeginExec => Me(tab).point == User
       case NoSlot => Me(tab).point == ExecSlot
       case MakePcb(pid) =>
         Me(tab).point == ExecSlot && pid < MAX_PROCESS && pid !in tab.pcb && forall i: nat :: i < pid ==> i in tab.pcb
       case Spawn(t) =>
         && Me(tab).point.Execing? && Me(tab).point.exec == ExecFork && Me(tab).point.child in tab.pcb
         && t !in tab.k.threads && t !in tab.procs
       case BeginJoin(c) => Me(tab).point == User && c < MAX_PROCESS && (IsChild(tab, c) ==> !tab.pcb[c].asked)
       case BeginExit(_) =>
         && Me(tab).point == User && Me(tab).pid != 0
         && forall c :: c in tab.pcb ==> tab.pcb[c].parent != Me(tab).pid || c == 0
       case Do(a) => Enabled(tab.k, a) && MayDo(tab, a)
  }

  /** The checks of JoinUpdate: the process exists, and the caller is its parent. */
  predicate IsChild(tab: Table, c: Pid)
    requires tab.k.current in tab.procs
  {
    c in tab.pcb && c != 0 && tab.pcb[c].parent == Me(tab).pid
  }

  /** The constructor of a process control block makes joinsem, exitsem and multex. */
  function ThreeSemaphores(k: State): State
    requires k.mode == Executing && k.current in k.threads
  {
    Apply(Apply(Apply(k, NewSemaphore(0)), NewSemaphore(0)), NewSemaphore(1))
  }

  function Started(k: State, x: Tid): State
    requires k.mode == Executing && k.current in k.threads && x !in k.threads
  {
    Apply(Apply(k, Create(x)), Fork(x))
  }

  function AfterEvent(tab: Table, e: Event): Table {
    match e
    case DidP(t, s) =>
      if s in tab.owned && t in tab.procs && NextP(tab, tab.procs[t]) == Some(s) then CameThrough(tab, t)
      else tab
    case DidV(s) =>
      if s in tab.owned && tab.k.current in tab.procs && NextV(tab, Me(tab)) == Some(s) then
        Signalled(tab, tab.k.current)
      else tab
    case _ => tab
  }

  /** A new block: nothing has happened yet. */
  function NewPcb(number: nat, parent: Pid, parentNumber: nat, base: Sid, thread: Option<Tid>): Pcb {
    Pcb(number, parent, parentNumber, base, 0, thread, false, false, false, false, false, false)
  }

  function Next(tab: Table, step: Step): Table
    requires CanStep(tab, step)
  {
    var t := tab.k.current;
    match step
    case BeginExec => MoveTo(tab, t, ExecLock)
    case NoSlot => MoveTo(tab, t, ExecFail)
    case MakePcb(pid) =>
      var q := NewPcb(tab.next, Me(tab).pid, Me(tab).number, |tab.k.sems|, None);
      SetPcb(MoveTo(tab, t, Execing(ExecEnter, pid, tab.next)), pid, q)
      .(next := tab.next + 1, owned := tab.owned + {q.base, q.base + 1, q.base + 2}, k := ThreeSemaphores(tab.k),
        numwait := tab.numwait[pid := 0])
    case Spawn(x) =>
      var c := Me(tab).point.child;
      var n := Me(tab).point.number;
      SetPcb(MoveTo(tab, t, Execing(ExecLeave, c, n)), c, tab.pcb[c].(thread := Some(x)))
      .(procs := tab.procs[t := Me(tab).(point := Execing(ExecLeave, c, n))][x := Process(c, n, User)],
        k := Started(tab.k, x))
    case BeginJoin(c) =>
      if IsChild(tab, c) then
        SetPcb(MoveTo(tab, t, Joining(JoinEnter, c, tab.pcb[c].number)), c, tab.pcb[c].(asked := true))
      else tab
    case BeginExit(code) =>
      var pid := Me(tab).pid;
      if pid in tab.pcb then
        SetPcb(MoveTo(tab, t, Exiting(ExitEnter)), pid, tab.pcb[pid].(exitcode := code, exiting := true))
        .(exits := tab.exits[tab.pcb[pid].number := code])
      else tab
    case Do(a) => AfterEvent(tab, EventOf(tab.k, a)).(k := Apply(tab.k, a))
  }

  // ---- the invariant ----

  ghost predicate IsChildOf(pcb: Pcbs, p: Process, c: Pid, n: nat) {
    && c in pcb && c != 0 && pcb[c].number == n && pcb[c].parent == p.pid && pcb[c].parentNumber == p.number
  }

  /** The semaphores count what has happened, and each thing happens in its turn. */
  ghost predicate HistorySound(q: Pcb, values: seq<int>) {
    && q.base + 2 < |values|
    && values[q.base] == Flag(q.released) - Flag(q.joined) && values[q.base + 1] == Flag(q.granted) - Flag(q.left)
    && (q.joined ==> q.asked && q.released) && (q.granted ==> q.joined) && (q.left ==> q.granted)
    && (q.released ==> q.exiting)
    && (q.exiting ==> q.thread.Some?)
  }

  ghost predicate Histories(pcb: Pcbs, values: seq<int>) {
    forall pid :: pid in pcb ==> HistorySound(pcb[pid], values)
  }

  /** The parent is there, and is not exiting. Process 0 has none. */
  ghost predicate ParentSound(pcb: Pcbs, pid: Pid)
    requires pid in pcb
  {
    var q := pcb[pid];
    if pid == 0 then !q.exiting
    else q.parent in pcb && q.parent != pid && pcb[q.parent].number == q.parentNumber && !pcb[q.parent].exiting
  }

  ghost predicate Parents(pcb: Pcbs) {
    forall pid :: pid in pcb ==> ParentSound(pcb, pid)
  }

  /** What an exiting process passed to Exit is in its block. */
  ghost predicate Records(pcb: Pcbs, exits: map<nat, int>) {
    forall pid :: pid in pcb ==>
      && (pcb[pid].exiting <==> pcb[pid].number in exits)
      && (pcb[pid].exiting ==> exits[pcb[pid].number] == pcb[pid].exitcode)
  }

  ghost predicate Apart(pcb: Pcbs) {
    forall p, q :: p in pcb && q in pcb && p != q ==>
      && pcb[p].number != pcb[q].number
      && (pcb[p].base + 3 <= pcb[q].base || pcb[q].base + 3 <= pcb[p].base)
  }

  ghost predicate Owned(pcb: Pcbs, owned: set<Sid>, bmsem: Sid) {
    && bmsem in owned
    && forall pid :: pid in pcb ==>
         var b := pcb[pid].base;
         bmsem < b && b in owned && b + 1 in owned && b + 2 in owned
  }

  ghost predicate PointSound(pcb: Pcbs, p: Process)
    requires p.pid in pcb
  {
    var q := pcb[p.pid];
    match p.point
    case Execing(at, c, n) =>
      && !q.exiting && IsChildOf(pcb, p, c, n) && !pcb[c].asked
      && (pcb[c].thread.None? <==> at == ExecEnter || at == ExecFork)
    case Joining(at, c, n) =>
      && !q.exiting && IsChildOf(pcb, p, c, n) && pcb[c].asked
      && (if at == JoinRead then pcb[c].joined && !pcb[c].granted else !pcb[c].joined)
    case Exiting(at) =>
      && p.pid != 0 && q.exiting
      && (q.released <==> at == ExitWait || at == RemoveLock || at == RemoveSlot)
      && (q.left <==> at == RemoveLock || at == RemoveSlot)
    case _ => !q.exiting
  }

  /** A process that is not gone has its own block, which belongs to no other thread. */
  ghost predicate ProcSound(pcb: Pcbs, p: Process, t: Tid) {
    p.point.Gone?
    || (p.pid in pcb && pcb[p.pid].number == p.number && pcb[p.pid].thread == Some(t) && PointSound(pcb, p))
  }

  ghost predicate Processes(pcb: Pcbs, procs: map<Tid, Process>) {
    forall t :: t in procs ==> ProcSound(pcb, procs[t], t)
  }

  ghost predicate Returned(exits: map<nat, int>, results: seq<Result>) {
    forall i :: 0 <= i < |results| ==> results[i].number in exits && exits[results[i].number] == results[i].code
  }

  ghost predicate Numbered(pcb: Pcbs, exits: map<nat, int>, next: nat) {
    && (forall pid :: pid in pcb ==> pcb[pid].number < next)
    && (forall n :: n in exits ==> n < next)
  }

  ghost predicate Sound(tab: Table, values: seq<int>) {
    && Histories(tab.pcb, values) && Parents(tab.pcb) && Apart(tab.pcb)
    && Processes(tab.pcb, tab.procs)
    && Records(tab.pcb, tab.exits) && Returned(tab.exits, tab.results) && Numbered(tab.pcb, tab.exits, tab.next)
    && Owned(tab.pcb, tab.owned, tab.bmsem) && tab.bmsem < |values| && 0 in tab.pcb
  }

  ghost predicate TableInv(tab: Table) {
    Inv(tab.k) && Sound(tab, Values(tab.k))
  }

  // ---- how the pieces are kept ----

  /** Two blocks of one process that differ only in what has happened since. */
  predicate Later(q: Pcb, r: Pcb) {
    && r.number == q.number && r.parent == q.parent && r.parentNumber == q.parentNumber && r.base == q.base
    && r.exitcode == q.exitcode && r.exiting == q.exiting
  }

  /** A change to one block, together with a change to one of its three semaphores. */
  lemma HistoriesChange(pcb: Pcbs, values: seq<int>, x: Pid, r: Pcb, s: Sid, v: int)
    requires Histories(pcb, values) && Apart(pcb)
    requires x in pcb && r.base == pcb[x].base && r.base <= s <= r.base + 2 && s < |values|
    requires HistorySound(r, values[s := v])
    ensures Histories(pcb[x := r], values[s := v])
  {}

  lemma ParentsLater(pcb: Pcbs, x: Pid, r: Pcb)
    requires x in pcb && Later(pcb[x], r) && Parents(pcb)
    ensures Parents(pcb[x := r])
  {
    var next := pcb[x := r];
    forall pid | pid in next
      ensures ParentSound(next, pid)
    {
      assert ParentSound(pcb, pid);
    }
  }

  lemma ApartLater(pcb: Pcbs, x: Pid, r: Pcb)
    requires x in pcb && Later(pcb[x], r) && Apart(pcb)
    ensures Apart(pcb[x := r])
  {}

  lemma RecordsLater(pcb: Pcbs, exits: map<nat, int>, next: nat, owned: set<Sid>, bmsem: Sid, x: Pid, r: Pcb)
    requires x in pcb && Later(pcb[x], r)
    requires Records(pcb, exits) && Numbered(pcb, exits, next) && Owned(pcb, owned, bmsem)
    ensures Records(pcb[x := r], exits) && Numbered(pcb[x := r], exits, next) && Owned(pcb[x := r], owned, bmsem)
  {}

  /** A semaphore that no block has. */
  lemma HistoriesUnowned(pcb: Pcbs, owned: set<Sid>, bmsem: Sid, values: seq<int>, s: Sid, v: int)
    requires Histories(pcb, values) && Owned(pcb, owned, bmsem) && s < |values| && (s !in owned || s == bmsem)
    ensures Histories(pcb, values[s := v])
  {}

  /** What does not depend on how far a handshake has got. */
  lemma LaterKeeps(tab: Table, values: seq<int>, after: seq<int>, x: Pid, r: Pcb, procs: map<Tid, Process>)
    requires Sound(tab, values) && x in tab.pcb && Later(tab.pcb[x], r)
    requires Histories(tab.pcb[x := r], after) && Processes(tab.pcb[x := r], procs) && |values| <= |after|
    ensures Sound(tab.(pcb := tab.pcb[x := r], procs := procs), after)
  {
    ParentsLater(tab.pcb, x, r);
    ApartLater(tab.pcb, x, r);
    RecordsLater(tab.pcb, tab.exits, tab.next, tab.owned, tab.bmsem, x, r);
    hide Parents;
    hide Apart;
    hide Records;
    hide Numbered;
    hide Owned;
    hide Processes;
    hide Histories;
  }

  /** A process moves on without touching any block. */
  lemma MoveProcesses(pcb: Pcbs, procs: map<Tid, Process>, t: Tid, point: Point)
    requires Processes(pcb, procs) && t in procs && !procs[t].point.Gone?
    requires procs[t].pid in pcb && PointSound(pcb, procs[t].(point := point))
    ensures Processes(pcb, procs[t := procs[t].(point := point)])
  {
    hide PointSound;
  }

  /** The parent, in the middle of Exec or Join with a child, is the only process that refers to it but the child. */
  lemma OneParent(pcb: Pcbs, procs: map<Tid, Process>, t: Tid, u: Tid, x: Pid)
    requires t in procs && u in procs && ProcSound(pcb, procs[t], t) && ProcSound(pcb, procs[u], u)
    requires x in pcb && !procs[t].point.Gone? && pcb[x].parent == procs[t].pid
    requires (procs[u].point.Execing? || procs[u].point.Joining?) && procs[u].point.child == x
    ensures t == u
  {}

  /** The parent moves on and records it in its child's block. */
  lemma ParentMoves(pcb: Pcbs, procs: map<Tid, Process>, t: Tid, x: Pid, r: Pcb, point: Point)
    requires Processes(pcb, procs) && t in procs && !procs[t].point.Gone? && !point.Gone?
    requires x in pcb && pcb[x].parent == procs[t].pid && procs[t].pid != x
    requires Later(pcb[x], r) && r.released == pcb[x].released && r.left == pcb[x].left && r.thread == pcb[x].thread
    requires procs[t].pid in pcb && PointSound(pcb[x := r], procs[t].(point := point))
    ensures Processes(pcb[x := r], procs[t := procs[t].(point := point)])
  {
    var next := procs[t := procs[t].(point := point)];
    assert ProcSound(pcb, procs[t], t);
    forall u | u in next && u != t
      ensures ProcSound(pcb[x := r], next[u], u)
    {
      assert ProcSound(pcb, procs[u], u);
      if (procs[u].point.Execing? || procs[u].point.Joining?) && procs[u].point.child == x {
        OneParent(pcb, procs, t, u, x);
      }
    }
  }

  /** A process moves on and records it in its own block. */
  lemma ChildMoves(pcb: Pcbs, procs: map<Tid, Process>, t: Tid, r: Pcb, point: Point)
    requires Processes(pcb, procs) && t in procs && !procs[t].point.Gone? && !point.Gone?
    requires var x := procs[t].pid;
      && x in pcb && Later(pcb[x], r)
      && r.asked == pcb[x].asked && r.joined == pcb[x].joined && r.granted == pcb[x].granted
      && r.thread == pcb[x].thread
      && PointSound(pcb[x := r], procs[t].(point := point))
    ensures Processes(pcb[procs[t].pid := r], procs[t := procs[t].(point := point)])
  {
    var next := procs[t := procs[t].(point := point)];
    assert ProcSound(pcb, procs[t], t);
    forall u | u in next && u != t
      ensures ProcSound(pcb[procs[t].pid := r], next[u], u)
    {
      assert ProcSound(pcb, procs[u], u);
    }
  }

  // ---- the handshake ----

  lemma BlockSound(tab: Table, values: seq<int>, x: Pid)
    requires Sound(tab, values) && x in tab.pcb
    ensures HistorySound(tab.pcb[x], values) && ParentSound(tab.pcb, x)
    ensures tab.pcb[x].exiting <==> tab.pcb[x].number in tab.exits
    ensures tab.pcb[x].exiting ==> tab.exits[tab.pcb[x].number] == tab.pcb[x].exitcode
  {}

  lemma PlaceSound(tab: Table, values: seq<int>, t: Tid)
    requires Sound(tab, values) && t in tab.procs
    ensures ProcSound(tab.pcb, tab.procs[t], t)
  {}

  lemma ReturnOne(exits: map<nat, int>, results: seq<Result>, n: nat, code: int)
    requires Returned(exits, results) && n in exits && exits[n] == code
    ensures Returned(exits, results + [Result(n, code)])
  {}

  /** The parent comes through JoinWait: the child has released it, so the child has called Exit. */
  lemma JoinWaitKeeps(tab: Table, values: seq<int>, t: Tid, c: Pid, n: nat, next: Table, after: seq<int>)
    requires t in tab.procs && tab.procs[t].point == Joining(JoinWait, c, n) && c in tab.pcb
    requires next == CameThrough(tab, t)
    requires tab.pcb[c].base < |values| && values[tab.pcb[c].base] > 0
    requires after == values[tab.pcb[c].base := values[tab.pcb[c].base] - 1]
    requires Sound(tab, values)
    ensures Sound(next, after)
  {
    hide Histories;
    hide Parents;
    hide Processes;
    hide Apart;
    hide Records;
    hide Numbered;
    hide Owned;
    hide Returned;
    var q := tab.pcb[c];
    var r := q.(joined := true);
    PlaceSound(tab, values, t);
    BlockSound(tab, values, c);
    HistoriesChange(tab.pcb, values, c, r, q.base, values[q.base] - 1);
    ParentMoves(tab.pcb, tab.procs, t, c, r, Joining(JoinRead, c, n));
    LaterKeeps(tab, values, after, c, r, MoveTo(tab, t, Joining(JoinRead, c, n)).procs);
  }

  /** The parent reads the exit code, which is what the child passed to Exit, and lets the child go. */
  lemma JoinReadKeeps(tab: Table, values: seq<int>, t: Tid, c: Pid, n: nat, next: Table, after: seq<int>)
    requires t in tab.procs && tab.procs[t].point == Joining(JoinRead, c, n) && c in tab.pcb
    requires next == Signalled(tab, t)
    requires tab.pcb[c].base + 1 < |values| && after == values[tab.pcb[c].base + 1 := values[tab.pcb[c].base + 1] + 1]
    requires Sound(tab, values)
    ensures Sound(next, after)
  {
    hide Histories;
    hide Parents;
    hide Processes;
    hide Apart;
    hide Records;
    hide Numbered;
    hide Owned;
    hide Returned;
    var q := tab.pcb[c];
    var r := q.(granted := true);
    PlaceSound(tab, values, t);
    BlockSound(tab, values, c);
    HistoriesChange(tab.pcb, values, c, r, q.base + 1, values[q.base + 1] + 1);
    ParentMoves(tab.pcb, tab.procs, t, c, r, User);
    LaterKeeps(tab, values, after, c, r, MoveTo(tab, t, User).procs);
    ReturnOne(tab.exits, tab.results, n, q.exitcode);
  }

  /** The child releases its parent. */
  lemma ReleaseKeeps(tab: Table, values: seq<int>, t: Tid, x: Pid, next: Table, after: seq<int>)
    requires t in tab.procs && tab.procs[t].point == Exiting(ExitRelease) && x == tab.procs[t].pid
    requires x in tab.pcb && next == Signalled(tab, t)
    requires tab.pcb[x].base < |values| && after == values[tab.pcb[x].base := values[tab.pcb[x].base] + 1]
    requires Sound(tab, values)
    ensures Sound(next, after)
  {
    hide Histories;
    hide Parents;
    hide Processes;
    hide Apart;
    hide Records;
    hide Numbered;
    hide Owned;
    hide Returned;
    var q := tab.pcb[x];
    var r := q.(released := true);
    PlaceSound(tab, values, t);
    BlockSound(tab, values, x);
    HistoriesChange(tab.pcb, values, x, r, q.base, values[q.base] + 1);
    ChildMoves(tab.pcb, tab.procs, t, r, Exiting(ExitWait));
    LaterKeeps(tab, values, after, x, r, MoveTo(tab, t, Exiting(ExitWait)).procs);
  }

  /** The child comes through ExitWait: the parent has read the exit code. */
  lemma ExitWaitKeeps(tab: Table, values: seq<int>, t: Tid, x: Pid, next: Table, after: seq<int>)
    requires t in tab.procs && tab.procs[t].point == Exiting(ExitWait) && x == tab.procs[t].pid
    requires x in tab.pcb && next == CameThrough(tab, t)
    requires tab.pcb[x].base + 1 < |values| && values[tab.pcb[x].base + 1] > 0
    requires after == values[tab.pcb[x].base + 1 := values[tab.pcb[x].base + 1] - 1]
    requires Sound(tab, values)
    ensures Sound(next, after)
  {
    hide Histories;
    hide Parents;
    hide Processes;
    hide Apart;
    hide Records;
    hide Numbered;
    hide Owned;
    hide Returned;
    var q := tab.pcb[x];
    var r := q.(left := true);
    PlaceSound(tab, values, t);
    BlockSound(tab, values, x);
    HistoriesChange(tab.pcb, values, x, r, q.base + 1, values[q.base + 1] - 1);
    ChildMoves(tab.pcb, tab.procs, t, r, Exiting(RemoveLock));
    LaterKeeps(tab, values, after, x, r, MoveTo(tab, t, Exiting(RemoveLock)).procs);
  }

  /** A parent asks to join a child it has not asked for before. */
  lemma BeginJoinKeeps(tab: Table, values: seq<int>, c: Pid)
    requires Sound(tab, values) && CanStep(tab, BeginJoin(c))
    ensures Sound(Next(tab, BeginJoin(c)), values)
  {
    hide Histories;
    hide Parents;
    hide Processes;
    hide Apart;
    hide Records;
    hide Numbered;
    hide Owned;
    hide Returned;
    var t := tab.k.current;
    PlaceSound(tab, values, t);
    if IsChild(tab, c) {
      var q := tab.pcb[c];
      var r := q.(asked := true);
      BlockSound(tab, values, c);
      assert values == values[q.base := values[q.base]];
      HistoriesChange(tab.pcb, values, c, r, q.base, values[q.base]);
      ParentMoves(tab.pcb, tab.procs, t, c, r, Joining(JoinEnter, c, q.number));
      LaterKeeps(tab, values, values, c, r, MoveTo(tab, t, Joining(JoinEnter, c, q.number)).procs);
    }
  }

  // ---- Exit begins, and a process is removed ----

  lemma ExitParents(pcb: Pcbs, x: Pid, r: Pcb)
    requires x in pcb && x != 0 && Parents(pcb) && forall c :: c in pcb && c != 0 ==> pcb[c].parent != x
    requires r.number == pcb[x].number && r.parent == pcb[x].parent && r.parentNumber == pcb[x].parentNumber
    ensures Parents(pcb[x := r])
  {
    var next := pcb[x := r];
    forall pid | pid in next
      ensures ParentSound(next, pid)
    {
      assert ParentSound(pcb, pid);
    }
  }

  lemma ExitRecords(pcb: Pcbs, exits: map<nat, int>, next: nat, x: Pid, r: Pcb, code: int)
    requires x in pcb && Records(pcb, exits) && Apart(pcb) && Numbered(pcb, exits, next)
    requires r == pcb[x].(exitcode := code, exiting := true)
    ensures Records(pcb[x := r], exits[r.number := code]) && Apart(pcb[x := r])
    ensures Numbered(pcb[x := r], exits[r.number := code], next)
  {}

  lemma ExitReturned(exits: map<nat, int>, results: seq<Result>, n: nat, code: int)
    requires Returned(exits, results) && n !in exits
    ensures Returned(exits[n := code], results)
  {}

  lemma ExitProcesses(pcb: Pcbs, procs: map<Tid, Process>, values: seq<int>, t: Tid, r: Pcb, code: int)
    requires Processes(pcb, procs) && t in procs && procs[t].point == User && procs[t].pid in pcb && procs[t].pid != 0
    requires r == pcb[procs[t].pid].(exitcode := code, exiting := true) && HistorySound(pcb[procs[t].pid], values)
    ensures Processes(pcb[procs[t].pid := r], procs[t := procs[t].(point := Exiting(ExitEnter))])
  {
    var next := procs[t := procs[t].(point := Exiting(ExitEnter))];
    assert ProcSound(pcb, procs[t], t);
    forall u | u in next && u != t
      ensures ProcSound(pcb[procs[t].pid := r], next[u], u)
    {
      assert ProcSound(pcb, procs[u], u);
    }
  }

  lemma OwnedChange(pcb: Pcbs, owned: set<Sid>, bmsem: Sid, x: Pid, r: Pcb)
    requires x in pcb && r.base == pcb[x].base && Owned(pcb, owned, bmsem)
    ensures Owned(pcb[x := r], owned, bmsem)
  {}

  lemma BeginExitKeeps(tab: Table, values: seq<int>, code: int, next: Table)
    requires CanStep(tab, BeginExit(code)) && next == Next(tab, BeginExit(code))
    requires Sound(tab, values)
    ensures Sound(next, values)
  {
    hide Histories;
    hide Parents;
    hide Processes;
    hide Apart;
    hide Records;
    hide Numbered;
    hide Owned;
    hide Returned;
    var t := tab.k.current;
    var x := tab.procs[t].pid;
    PlaceSound(tab, values, t);
    BlockSound(tab, values, x);
    var q := tab.pcb[x];
    var r := q.(exitcode := code, exiting := true);
    assert values == values[q.base := values[q.base]];
    HistoriesChange(tab.pcb, values, x, r, q.base, values[q.base]);
    ExitParents(tab.pcb, x, r);
    ExitRecords(tab.pcb, tab.exits, tab.next, x, r, code);
    ExitReturned(tab.exits, tab.results, q.number, code);
    ExitProcesses(tab.pcb, tab.procs, values, t, r, code);
    OwnedChange(tab.pcb, tab.owned, tab.bmsem, x, r);
  }

  /** Nobody refers to the block of a process that has come through ExitWait. */
  lemma RemoveProcesses(pcb: Pcbs, procs: map<Tid, Process>, values: seq<int>, t: Tid, x: Pid)
    requires Processes(pcb, procs) && t in procs && x == procs[t].pid && x in pcb
    requires procs[t].point == Exiting(RemoveSlot) && HistorySound(pcb[x], values)
    ensures Processes(pcb - {x}, procs[t := procs[t].(point := Gone)])
  {
    var next := procs[t := procs[t].(point := Gone)];
    assert ProcSound(pcb, procs[t], t);
    forall u | u in next && u != t
      ensures ProcSound(pcb - {x}, next[u], u)
    {
      assert ProcSound(pcb, procs[u], u);
    }
  }

  lemma RemoveParents(pcb: Pcbs, x: Pid)
    requires Parents(pcb) && x in pcb && pcb[x].exiting
    ensures Parents(pcb - {x})
  {
    var next := pcb - {x};
    forall pid | pid in next
      ensures ParentSound(next, pid)
    {
      assert ParentSound(pcb, pid);
    }
  }

  lemma RemoveRest(pcb: Pcbs, exits: map<nat, int>, number: nat, owned: set<Sid>, bmsem: Sid, values: seq<int>, x: Pid)
    requires Apart(pcb) && Records(pcb, exits) && Numbered(pcb, exits, number) && Owned(pcb, owned, bmsem)
    requires Histories(pcb, values)
    ensures Apart(pcb - {x}) && Records(pcb - {x}, exits) && Numbered(pcb - {x}, exits, number)
    ensures Owned(pcb - {x}, owned, bmsem) && Histories(pcb - {x}, values)
  {}

  lemma RemoveKeeps(tab: Table, values: seq<int>, t: Tid, x: Pid, next: Table, v: int)
    requires t in tab.procs && tab.procs[t].point == Exiting(RemoveSlot) && x == tab.procs[t].pid
    requires next == Signalled(tab, t) && tab.bmsem < |values|
    requires Sound(tab, values)
    ensures Sound(next, values[tab.bmsem := v])
  {
    hide Histories;
    hide Parents;
    hide Processes;
    hide Apart;
    hide Records;
    hide Numbered;
    hide Owned;
    hide Returned;
    PlaceSound(tab, values, t);
    BlockSound(tab, values, x);
    RemoveProcesses(tab.pcb, tab.procs, values, t, x);
    RemoveParents(tab.pcb, x);
    HistoriesUnowned(tab.pcb, tab.owned, tab.bmsem, values, tab.bmsem, v);
    RemoveRest(tab.pcb, tab.exits, tab.next, tab.owned, tab.bmsem, values[tab.bmsem := v], x);
  }

  // ---- a process is made ----

  lemma MakeRest(pcb: Pcbs, exits: map<nat, int>, next: nat, owned: set<Sid>, bmsem: Sid, values: seq<int>,
                 x: Pid, r: Pcb)
    requires Apart(pcb) && Records(pcb, exits) && Numbered(pcb, exits, next) && Owned(pcb, owned, bmsem)
    requires Histories(pcb, values) && x !in pcb && bmsem < |values|
    requires r.number == next && r.base == |values| && !r.exiting
    ensures Apart(pcb[x := r]) && Records(pcb[x := r], exits) && Numbered(pcb[x := r], exits, next + 1)
    ensures Owned(pcb[x := r], owned + {r.base, r.base + 1, r.base + 2}, bmsem)
  {
    assert next !in exits;
    forall pid | pid in pcb
      ensures pcb[pid].base + 2 < |values|
    {
      assert HistorySound(pcb[pid], values);
    }
  }

  lemma MakeHistories(pcb: Pcbs, values: seq<int>, x: Pid, r: Pcb)
    requires Histories(pcb, values) && r.base == |values|
    requires !r.asked && !r.exiting && !r.released && !r.joined && !r.granted && !r.left
    ensures Histories(pcb[x := r], values + [0, 0, 1])
  {
    var next := pcb[x := r];
    forall pid | pid in next
      ensures HistorySound(next[pid], values + [0, 0, 1])
    {
      if pid != x {
        assert HistorySound(pcb[pid], values);
      }
    }
  }

  lemma MakeParents(pcb: Pcbs, x: Pid, r: Pcb)
    requires Parents(pcb) && x !in pcb && x != 0
    requires r.parent in pcb && pcb[r.parent].number == r.parentNumber && !pcb[r.parent].exiting
    ensures Parents(pcb[x := r])
  {
    var next := pcb[x := r];
    forall pid | pid in next
      ensures ParentSound(next, pid)
    {
      if pid != x {
        assert ParentSound(pcb, pid);
      }
    }
  }

  lemma MakeProcesses(pcb: Pcbs, procs: map<Tid, Process>, t: Tid, x: Pid, r: Pcb)
    requires Processes(pcb, procs) && t in procs && procs[t].point == ExecSlot && x !in pcb && x != 0
    requires r.parent == procs[t].pid && r.parentNumber == procs[t].number && !r.asked && r.thread.None?
    ensures Processes(pcb[x := r], procs[t := procs[t].(point := Execing(ExecEnter, x, r.number))])
  {
    var next := procs[t := procs[t].(point := Execing(ExecEnter, x, r.number))];
    assert ProcSound(pcb, procs[t], t);
    forall u | u in next && u != t
      ensures ProcSound(pcb[x := r], next[u], u)
    {
      assert ProcSound(pcb, procs[u], u);
    }
  }

  /** A slot is taken only when it is free: no process has that pid, and none refers to it. */
  lemma MakePcbKeeps(tab: Table, values: seq<int>, x: Pid, next: Table)
    requires CanStep(tab, MakePcb(x)) && next == Next(tab, MakePcb(x)) && |values| == |tab.k.sems|
    requires Sound(tab, values)
    ensures Sound(next, values + [0, 0, 1])
  {
    hide Histories;
    hide Parents;
    hide Processes;
    hide Apart;
    hide Records;
    hide Numbered;
    hide Owned;
    hide Returned;
    hide ThreeSemaphores;
    var t := tab.k.current;
    var p := tab.procs[t];
    PlaceSound(tab, values, t);
    var r := NewPcb(tab.next, p.pid, p.number, |values|, None);
    MakeHistories(tab.pcb, values, x, r);
    MakeParents(tab.pcb, x, r);
    MakeProcesses(tab.pcb, tab.procs, t, x, r);
    MakeRest(tab.pcb, tab.exits, tab.next, tab.owned, tab.bmsem, values, x, r);
  }

  lemma SpawnProcesses(pcb: Pcbs, procs: map<Tid, Process>, t: Tid, x: Tid, c: Pid, n: nat, r: Pcb)
    requires Processes(pcb, procs) && t in procs && x !in procs && procs[t].point == Execing(ExecFork, c, n)
    requires procs[t].pid in pcb && c in pcb && r == pcb[c].(thread := Some(x)) && !r.exiting && procs[t].pid != c
    ensures Processes(pcb[c := r], procs[t := procs[t].(point := Execing(ExecLeave, c, n))][x := Process(c, n, User)])
  {
    var next := procs[t := procs[t].(point := Execing(ExecLeave, c, n))][x := Process(c, n, User)];
    assert ProcSound(pcb, procs[t], t);
    forall u | u in next && u != t && u != x
      ensures ProcSound(pcb[c := r], next[u], u)
    {
      assert ProcSound(pcb, procs[u], u);
      if (procs[u].point.Execing? || procs[u].point.Joining?) && procs[u].point.child == c {
        OneParent(pcb, procs, t, u, c);
      }
    }
  }

  lemma SpawnKeeps(tab: Table, values: seq<int>, x: Tid, c: Pid, n: nat, next: Table)
    requires CanStep(tab, Spawn(x)) && Me(tab).point == Execing(ExecFork, c, n) && next == Next(tab, Spawn(x))
    requires Sound(tab, values)
    ensures Sound(next, values)
  {
    hide Histories;
    hide Parents;
    hide Processes;
    hide Apart;
    hide Records;
    hide Numbered;
    hide Owned;
    hide Returned;
    hide Started;
    var t := tab.k.current;
    var q := tab.pcb[c];
    var r := q.(thread := Some(x));
    PlaceSound(tab, values, t);
    BlockSound(tab, values, c);
    assert values == values[q.base := values[q.base]];
    HistoriesChange(tab.pcb, values, c, r, q.base, values[q.base]);
    SpawnProcesses(tab.pcb, tab.procs, t, x, c, n, r);
    LaterKeeps(tab, values, values, c, r, next.procs);
  }

  // ---- steps that touch no block ----

  lemma MoveKeeps(tab: Table, values: seq<int>, after: seq<int>, t: Tid, point: Point)
    requires t in tab.procs && !tab.procs[t].point.Gone?
    requires tab.procs[t].pid in tab.pcb && PointSound(tab.pcb, tab.procs[t].(point := point))
    requires Histories(tab.pcb, after) && |values| <= |after|
    requires Sound(tab, values)
    ensures Sound(MoveTo(tab, t, point), after)
  {
    MoveProcesses(tab.pcb, tab.procs, t, point);
    hide Histories;
    hide Parents;
    hide Processes;
    hide Apart;
    hide Records;
    hide Numbered;
    hide Owned;
    hide Returned;
  }

  lemma MultexHistories(pcb: Pcbs, values: seq<int>, x: Pid, v: int)
    requires Histories(pcb, values) && Apart(pcb) && x in pcb
    ensures pcb[x].base + 2 < |values| && Histories(pcb, values[pcb[x].base + 2 := v])
  {
    assert pcb == pcb[x := pcb[x]];
    assert HistorySound(pcb[x], values);
    HistoriesChange(pcb, values, x, pcb[x], pcb[x].base + 2, v);
  }

  /** A process comes through a P on bmsem or on some multex. */
  lemma LockKeeps(tab: Table, values: seq<int>, t: Tid, s: Sid, next: Table, v: int)
    requires t in tab.procs && NextP(tab, tab.procs[t]) == Some(s) && s < |values| && next == CameThrough(tab, t)
    requires var point := tab.procs[t].point;
      !(point.Joining? && point.join == JoinWait) && !(point.Exiting? && point.exit == ExitWait)
    requires Sound(tab, values)
    ensures Sound(next, values[s := v])
  {
    hide Histories;
    hide Parents;
    hide Processes;
    hide Apart;
    hide Records;
    hide Numbered;
    hide Owned;
    hide Returned;
    PlaceSound(tab, values, t);
    var p := tab.procs[t];
    BlockSound(tab, values, p.pid);
    if p.point.ExecLock? || (p.point.Exiting? && p.point.exit == RemoveLock) {
      HistoriesUnowned(tab.pcb, tab.owned, tab.bmsem, values, s, v);
    } else {
      var x := if p.point.Execing? then p.point.child else if p.point.Joining? then p.pid else tab.pcb[p.pid].parent;
      MultexHistories(tab.pcb, values, x, v);
    }
    MoveKeeps(tab, values, values[s := v], t, next.procs[t].point);
  }

  /** A process does a V on bmsem or on some multex, and removes nothing. */
  lemma UnlockKeeps(tab: Table, values: seq<int>, t: Tid, s: Sid, next: Table, v: int)
    requires t in tab.procs && NextV(tab, tab.procs[t]) == Some(s) && s < |values| && next == Signalled(tab, t)
    requires var point := tab.procs[t].point;
      && !(point.Joining? && point.join == JoinRead)
      && !(point.Exiting? && (point.exit == ExitRelease || point.exit == RemoveSlot))
    requires Sound(tab, values)
    ensures Sound(next, values[s := v])
  {
    hide Histories;
    hide Parents;
    hide Processes;
    hide Apart;
    hide Records;
    hide Numbered;
    hide Owned;
    hide Returned;
    PlaceSound(tab, values, t);
    var p := tab.procs[t];
    BlockSound(tab, values, p.pid);
    if p.point.ExecFail? || (p.point.Execing? && p.point.exec == ExecDone) {
      HistoriesUnowned(tab.pcb, tab.owned, tab.bmsem, values, s, v);
    } else {
      var x := if p.point.Execing? then p.point.child else if p.point.Joining? then p.pid else tab.pcb[p.pid].parent;
      MultexHistories(tab.pcb, values, x, v);
    }
    MoveKeeps(tab, values, values[s := v], t, next.procs[t].point);
  }

  lemma TookKeeps(tab: Table, values: seq<int>, t: Tid, s: Sid, next: Table)
    requires t in tab.procs && NextP(tab, tab.procs[t]) == Some(s) && s < |values| && values[s] > 0
    requires next == CameThrough(tab, t)
    requires Sound(tab, values)
    ensures Sound(next, values[s := values[s] - 1])
  {
    hide Sound;
    var v := values[s] - 1;
    match tab.procs[t].point
    case Joining(JoinWait, c, n) => JoinWaitKeeps(tab, values, t, c, n, next, values[s := v]);
    case Exiting(ExitWait) => ExitWaitKeeps(tab, values, t, tab.procs[t].pid, next, values[s := v]);
    case _ => LockKeeps(tab, values, t, s, next, v);
  }

  lemma GaveKeeps(tab: Table, values: seq<int>, t: Tid, s: Sid, next: Table)
    requires t in tab.procs && NextV(tab, tab.procs[t]) == Some(s) && s < |values| && next == Signalled(tab, t)
    requires Sound(tab, values)
    ensures Sound(next, values[s := values[s] + 1])
  {
    hide Sound;
    var v := values[s] + 1;
    match tab.procs[t].point
    case Joining(JoinRead, c, n) => JoinReadKeeps(tab, values, t, c, n, next, values[s := v]);
    case Exiting(ExitRelease) => ReleaseKeeps(tab, values, t, tab.procs[t].pid, next, values[s := v]);
    case Exiting(RemoveSlot) => RemoveKeeps(tab, values, t, tab.procs[t].pid, next, v);
    case _ => UnlockKeeps(tab, values, t, s, next, v);
  }

  /** Semaphores of other parts of the system change, or are made. */
  lemma OthersKeep(tab: Table, values: seq<int>, e: Event, after: seq<int>)
    requires Counts(values, e, after) && (e.DidP? ==> e.sem !in tab.owned) && (e.DidV? ==> e.sem !in tab.owned)
    requires Sound(tab, values)
    ensures Sound(tab, after)
  {
    hide Parents;
    hide Processes;
    hide Apart;
    hide Records;
    hide Numbered;
    hide Returned;
    if e.DidP? || e.DidV? {
      hide Histories;
      HistoriesUnowned(tab.pcb, tab.owned, tab.bmsem, values, e.sem, after[e.sem]);
    }
  }

  lemma EventKeeps(tab: Table, values: seq<int>, e: Event, after: seq<int>)
    requires Counts(values, e, after)
    requires e.DidP? && e.sem in tab.owned ==> e.thread in tab.procs && NextP(tab, tab.procs[e.thread]) == Some(e.sem)
    requires e.DidV? && e.sem in tab.owned ==> tab.k.current in tab.procs && NextV(tab, Me(tab)) == Some(e.sem)
    requires Sound(tab, values)
    ensures Sound(AfterEvent(tab, e), after)
  {
    hide Sound;
    if e.DidP? && e.sem in tab.owned {
      TookKeeps(tab, values, e.thread, e.sem, CameThrough(tab, e.thread));
    } else if e.DidV? && e.sem in tab.owned {
      GaveKeeps(tab, values, tab.k.current, e.sem, Signalled(tab, tab.k.current));
    } else {
      OthersKeep(tab, values, e, after);
    }
  }

  lemma DoKeeps(tab: Table, a: Action)
    requires CanStep(tab, Do(a)) && TableInv(tab)
    ensures TableInv(Next(tab, Do(a)))
  {
    hide Inv;
    hide Values;
    hide Apply;
    hide Counts;
    hide Sound;
    hide AfterEvent;
    hide EventOf;
    hide NextP;
    hide NextV;
    hide Enabled;
    StepValues(tab.k, a);
    StepInv(tab.k, a);
    EventKeeps(tab, Values(tab.k), EventOf(tab.k, a), Values(Apply(tab.k, a)));
    SoundAnyKernel(AfterEvent(tab, EventOf(tab.k, a)), Values(Apply(tab.k, a)), Apply(tab.k, a));
  }

  /** What is said of the table depends on the kernel only through the values of the semaphores. */
  lemma SoundAnyKernel(tab: Table, values: seq<int>, k: State)
    requires Sound(tab, values)
    ensures Sound(tab.(k := k), values)
  {}

  lemma OneMore(k: State, v: nat)
    requires k.mode == Executing && k.current in k.threads && Inv(k)
    ensures var n := Apply(k, NewSemaphore(v));
      n.mode == Executing && n.current in n.threads && Inv(n) && Values(n) == Values(k) + [v]
  {
    hide Inv;
    StepInv(k, NewSemaphore(v));
    OtherValues(k, NewSemaphore(v));
  }

  lemma NewSemaphores(k: State)
    requires k.mode == Executing && k.current in k.threads && Inv(k)
    ensures Inv(ThreeSemaphores(k)) && Values(ThreeSemaphores(k)) == Values(k) + [0, 0, 1]
  {
    hide Inv;
    hide Values;
    hide Apply;
    OneMore(k, 0);
    OneMore(Apply(k, NewSemaphore(0)), 0);
    OneMore(Apply(Apply(k, NewSemaphore(0)), NewSemaphore(0)), 1);
    assert Values(k) + [0] + [0] + [1] == Values(k) + [0, 0, 1];
  }

  lemma StartThread(k: State, x: Tid)
    requires k.mode == Executing && k.current in k.threads && x !in k.threads && Inv(k)
    ensures Inv(Started(k, x)) && Values(Started(k, x)) == Values(k)
  {
    StepInv(k, Create(x));
    StepInv(Apply(k, Create(x)), Fork(x));
    hide Inv;
  }

  lemma BeginKeeps(tab: Table, step: Step)
    requires TableInv(tab) && CanStep(tab, step) && (step.BeginExec? || step.NoSlot?)
    ensures TableInv(Next(tab, step))
  {
    hide Inv;
    hide Values;
    var t := tab.k.current;
    PlaceSound(tab, Values(tab.k), t);
    assert Histories(tab.pcb, Values(tab.k));
    hide Sound;
    MoveKeeps(tab, Values(tab.k), Values(tab.k), t, if step.BeginExec? then ExecLock else ExecFail);
  }

  lemma MakePcbKernel(tab: Table, x: Pid)
    requires CanStep(tab, MakePcb(x))
    ensures tab.k.mode == Executing && tab.k.current in tab.k.threads
    ensures Next(tab, MakePcb(x)).k == ThreeSemaphores(tab.k)
    ensures |Values(tab.k)| == |tab.k.sems|
  {
    hide ThreeSemaphores;
  }

  lemma MakeStepKeeps(tab: Table, x: Pid)
    requires CanStep(tab, MakePcb(x)) && TableInv(tab)
    ensures TableInv(Next(tab, MakePcb(x)))
  {
    hide Inv;
    hide Sound;
    hide Values;
    hide ThreeSemaphores;
    hide CanStep;
    MakePcbKernel(tab, x);
    hide Next;
    NewSemaphores(tab.k);
    MakePcbKeeps(tab, Values(tab.k), x, Next(tab, MakePcb(x)));
  }

  lemma SpawnStepKeeps(tab: Table, x: Tid)
    requires CanStep(tab, Spawn(x)) && TableInv(tab)
    ensures TableInv(Next(tab, Spawn(x)))
  {
    hide Inv;
    hide Sound;
    hide Values;
    hide Started;
    StartThread(tab.k, x);
    SpawnKeeps(tab, Values(tab.k), x, Me(tab).point.child, Me(tab).point.number, Next(tab, Spawn(x)));
  }

  lemma CallKeeps(tab: Table, step: Step)
    requires CanStep(tab, step) && (step.BeginJoin? || step.BeginExit?) && TableInv(tab)
    ensures TableInv(Next(tab, step))
  {
    hide Inv;
    hide Sound;
    hide Values;
    if step.BeginJoin? {
      BeginJoinKeeps(tab, Values(tab.k), step.child);
    } else {
      BeginExitKeeps(tab, Values(tab.k), step.code, Next(tab, step));
    }
  }

  lemma StepKeeps(tab: Table, step: Step)
    requires CanStep(tab, step) && TableInv(tab)
    ensures TableInv(Next(tab, step))
  {
    hide TableInv;
    hide Next;
    hide CanStep;
    match step
    case MakePcb(x) => MakeStepKeeps(tab, x);
    case Spawn(x) => SpawnStepKeeps(tab, x);
    case BeginJoin(_) => CallKeeps(tab, step);
    case BeginExit(_) => CallKeeps(tab, step);
    case Do(a) => DoKeeps(tab, a);
    case _ => BeginKeeps(tab, step);
  }

  // ---- runs ----

  /** As PTable's constructor leaves it: one process, with pid 0, run by the main thread. */
  ghost predicate Start(tab: Table, main: Tid, base: Sid) {
    && Inv(tab.k) && tab.bmsem < base && base + 2 < |Values(tab.k)|
    && Values(tab.k)[tab.bmsem] == 1 && Values(tab.k)[base..base + 3] == [0, 0, 1]
    && tab.owned == {tab.bmsem, base, base + 1, base + 2}
    && tab.pcb == map[0 := NewPcb(0, 0, 0, base, Some(main))]
    && tab.procs == map[main := Process(0, 0, User)]
    && tab.exits == map[] && tab.results == [] && tab.next == 1
    && tab.numwait == map[0 := 0] && tab.counted == {} && tab.uncounted == {}
  }

  lemma StartSound(tab: Table, main: Tid, base: Sid)
    requires Start(tab, main, base)
    ensures TableInv(tab)
  {
    hide Inv;
    hide Values;
    var v := Values(tab.k)[base..base + 3];
    assert v[0] == Values(tab.k)[base] && v[1] == Values(tab.k)[base + 1];
  }

  /** PTable's constructor, run by the thread that will be process 0. */
  function NewTable(k: State): Table
    requires k.mode == Executing && k.current in k.threads
  {
    var base := |k.sems| + 1;
    var with := Apply(k, NewSemaphore(1));
    Table(ThreeSemaphores(with), |k.sems|, {|k.sems|, base, base + 1, base + 2},
          map[0 := NewPcb(0, 0, 0, base, Some(k.current))],
          map[k.current := Process(0, 0, User)], map[], [], 1, map[0 := 0], {}, {})
  }

  lemma NewTableStarts(k: State)
    requires k.mode == Executing && k.current in k.threads && Inv(k)
    ensures Start(NewTable(k), k.current, |k.sems| + 1)
  {
    hide Inv;
    hide ThreeSemaphores;
    var with := Apply(k, NewSemaphore(1));
    var base := |k.sems| + 1;
    OneMore(k, 1);
    NewSemaphores(with);
    assert |Values(with)| == base && |Values(k)| == |k.sems|;
    hide Values;
    var v := Values(ThreeSemaphores(with));
    assert v == Values(k) + [1] + [0, 0, 1];
    assert v[base..base + 3] == [0, 0, 1];
  }

  ghost predicate Run(tabs: seq<Table>, steps: seq<Step>) {
    && |tabs| == |steps| + 1 && (exists main, base :: Start(tabs[0], main, base))
    && forall i :: 0 <= i < |steps| ==> CanStep(tabs[i], steps[i]) && tabs[i + 1] == Next(tabs[i], steps[i])
  }

  lemma {:induction false} RunKeeps(tabs: seq<Table>, steps: seq<Step>, i: nat)
    requires Run(tabs, steps) && i < |tabs|
    ensures TableInv(tabs[i])
  {
    hide TableInv;
    hide Next;
    hide CanStep;
    if i == 0 {
      var main, base :| Start(tabs[0], main, base);
      StartSound(tabs[0], main, base);
    } else {
      RunKeeps(tabs, steps, i - 1);
      StepKeeps(tabs[i - 1], steps[i - 1]);
    }
  }

  /**
   Every block a process uses is there: its own, its parent's unless it is process 0, and that of the child it is
   starting or joining, which is still the block of the process it was when the call began.
   */
  lemma BlocksThere(tab: Table, t: Tid)
    requires TableInv(tab) && t in tab.procs && !tab.procs[t].point.Gone?
    ensures var p := tab.procs[t];
      && p.pid in tab.pcb && tab.pcb[p.pid].number == p.number && tab.pcb[p.pid].thread == Some(t)
      && (p.pid != 0 ==>
            var q := tab.pcb[p.pid];
            q.parent in tab.pcb && tab.pcb[q.parent].number == q.parentNumber)
      && (p.point.Execing? || p.point.Joining? ==>
            p.point.child in tab.pcb && tab.pcb[p.point.child].number == p.point.number)
  {
    hide Inv;
    hide Values;
    hide Sound;
    PlaceSound(tab, Values(tab.k), t);
    BlockSound(tab, Values(tab.k), tab.procs[t].pid);
  }

  /** Two processes never have the same pid. */
  lemma PidsDistinct(tab: Table, t: Tid, u: Tid)
    requires TableInv(tab) && t in tab.procs && u in tab.procs && t != u
    requires !tab.procs[t].point.Gone? && !tab.procs[u].point.Gone?
    ensures tab.procs[t].pid != tab.procs[u].pid
  {
    hide TableInv;
    BlocksThere(tab, t);
    BlocksThere(tab, u);
  }

  ghost predicate InJoin(tab: Table, t: Tid, c: Pid, n: nat) {
    t in tab.procs && tab.procs[t].point.Joining? && tab.procs[t].point.child == c && tab.procs[t].point.number == n
  }

  /** A Join under way stays with the same child, or returns with the code of that child's Exit. */
  ghost predicate StaysOrReturns(tab: Table, next: Table, t: Tid, c: Pid, n: nat) {
    || InJoin(next, t, c, n)
    || (t in next.procs && next.procs[t].point == User
        && n in tab.exits && next.results == tab.results + [Result(n, tab.exits[n])])
  }

  /** A parent about to read the exit code finds what the child passed to Exit. */
  lemma CodeThere(tab: Table, t: Tid, c: Pid, n: nat)
    requires InJoin(tab, t, c, n) && TableInv(tab)
    ensures c in tab.pcb && tab.pcb[c].number == n && tab.pcb[c].asked
    ensures tab.procs[t].point.join == JoinRead ==> n in tab.exits && tab.exits[n] == tab.pcb[c].exitcode
  {
    hide Inv;
    hide Values;
    hide Sound;
    PlaceSound(tab, Values(tab.k), t);
    BlockSound(tab, Values(tab.k), c);
  }

  lemma JoinTook(tab: Table, u: Tid, t: Tid, c: Pid, n: nat)
    requires u in tab.procs && NextP(tab, tab.procs[u]).Some? && InJoin(tab, t, c, n)
    ensures InJoin(CameThrough(tab, u), t, c, n)
  {}

  lemma JoinGave(tab: Table, u: Tid, t: Tid, c: Pid, n: nat)
    requires u in tab.procs && NextV(tab, tab.procs[u]).Some? && InJoin(tab, t, c, n) && c in tab.pcb
    requires tab.procs[t].point.join == JoinRead ==> n in tab.exits && tab.exits[n] == tab.pcb[c].exitcode
    ensures StaysOrReturns(tab, Signalled(tab, u), t, c, n)
  {}

  lemma JoinEvent(tab: Table, e: Event, t: Tid, c: Pid, n: nat)
    requires InJoin(tab, t, c, n) && c in tab.pcb
    requires tab.procs[t].point.join == JoinRead ==> n in tab.exits && tab.exits[n] == tab.pcb[c].exitcode
    ensures StaysOrReturns(tab, AfterEvent(tab, e), t, c, n)
  {
    hide CameThrough;
    hide Signalled;
    hide NextP;
    hide NextV;
    if AfterEvent(tab, e) != tab {
      if e.DidP? {
        JoinTook(tab, e.thread, t, c, n);
      } else {
        JoinGave(tab, tab.k.current, t, c, n);
      }
    }
  }

  lemma JoinLocal(tab: Table, step: Step, t: Tid, c: Pid, n: nat)
    requires CanStep(tab, step) && !step.Do? && InJoin(tab, t, c, n)
    ensures InJoin(Next(tab, step), t, c, n)
  {
    hide Started;
    hide ThreeSemaphores;
  }

  lemma JoinStep(tab: Table, step: Step, t: Tid, c: Pid, n: nat)
    requires CanStep(tab, step) && InJoin(tab, t, c, n) && TableInv(tab)
    ensures StaysOrReturns(tab, Next(tab, step), t, c, n)
  {
    hide TableInv;
    hide AfterEvent;
    hide EventOf;
    hide Apply;
    hide MayDo;
    hide NextP;
    hide NextV;
    hide Enabled;
    hide Started;
    hide ThreeSemaphores;
    CodeThere(tab, t, c, n);
    if step.Do? {
      JoinEvent(tab, EventOf(tab.k, step.action), t, c, n);
    } else {
      hide Next;
      JoinLocal(tab, step, t, c, n);
    }
  }

  lemma EventExits(tab: Table, e: Event)
    ensures AfterEvent(tab, e).exits == tab.exits
  {}

  lemma OtherExits(tab: Table, step: Step)
    requires CanStep(tab, step) && !step.BeginExit?
    ensures Next(tab, step).exits == tab.exits
  {
    hide Apply;
    hide EventOf;
    hide AfterEvent;
    hide Started;
    hide ThreeSemaphores;
    if step.Do? {
      EventExits(tab, EventOf(tab.k, step.action));
    }
  }

  /** Who called Exit: a code is recorded once, by the process itself, and then kept. */
  lemma ExitStep(tab: Table, step: Step, n: nat)
    requires CanStep(tab, step) && n in Next(tab, step).exits && TableInv(tab)
    ensures if n in tab.exits then Next(tab, step).exits[n] == tab.exits[n]
            else step.BeginExit? && Me(tab).number == n && Next(tab, step).exits[n] == step.code
  {
    hide Inv;
    hide Values;
    hide Sound;
    if step.BeginExit? {
      PlaceSound(tab, Values(tab.k), tab.k.current);
      BlockSound(tab, Values(tab.k), Me(tab).pid);
    } else {
      hide Next;
      OtherExits(tab, step);
    }
  }

  lemma {:induction false} WhoExited(tabs: seq<Table>, steps: seq<Step>, j: nat, n: nat) returns (e: nat)
    requires Run(tabs, steps) && j < |tabs| && n in tabs[j].exits
    ensures e < j && steps[e].BeginExit? && tabs[e].k.current in tabs[e].procs
    ensures Me(tabs[e]).number == n && tabs[j].exits[n] == steps[e].code
  {
    hide TableInv;
    hide Next;
    if j == 0 {
      assert false;
    }
    RunKeeps(tabs, steps, j - 1);
    ExitStep(tabs[j - 1], steps[j - 1], n);
    if n in tabs[j - 1].exits {
      e := WhoExited(tabs, steps, j - 1, n);
    } else {
      e := j - 1;
    }
  }

  /** Join waits for a child of the caller's own, whatever that child is doing, and otherwise does nothing. */
  lemma JoinBegins(tab: Table, c: Pid)
    requires CanStep(tab, BeginJoin(c)) && TableInv(tab)
    ensures if c in tab.pcb && c != 0 && tab.pcb[c].parent == Me(tab).pid then
        InJoin(Next(tab, BeginJoin(c)), tab.k.current, c, tab.pcb[c].number)
      else Next(tab, BeginJoin(c)) == tab
  {
    hide TableInv;
  }

  /** Exit by any process but process 0 records its code and gets under way. */
  lemma ExitBegins(tab: Table, code: int)
    requires CanStep(tab, BeginExit(code)) && TableInv(tab)
    ensures var p, n := Me(tab), Next(tab, BeginExit(code));
      && n.procs == tab.procs[tab.k.current := p.(point := Exiting(ExitEnter))]
      && p.number !in tab.exits && n.exits == tab.exits[p.number := code]
      && p.pid in n.pcb && n.pcb[p.pid].number == p.number && n.pcb[p.pid].exitcode == code
  {
    hide Inv;
    hide Values;
    hide Sound;
    PlaceSound(tab, Values(tab.k), tab.k.current);
    BlockSound(tab, Values(tab.k), Me(tab).pid);
  }

  lemma {:induction false} RunJoin(tabs: seq<Table>, steps: seq<Step>, i: nat, j: nat, t: Tid, c: Pid, n: nat)
    requires Run(tabs, steps) && i <= j < |tabs| && InJoin(tabs[i], t, c, n)
    requires forall m :: i <= m <= j ==> t in tabs[m].procs && tabs[m].procs[t].point.Joining?
    ensures InJoin(tabs[j], t, c, n) && c in tabs[j].pcb && tabs[j].pcb[c].number == n
    decreases j
  {
    hide TableInv;
    hide Next;
    hide CanStep;
    if i < j {
      RunJoin(tabs, steps, i, j - 1, t, c, n);
      RunKeeps(tabs, steps, j - 1);
      JoinStep(tabs[j - 1], steps[j - 1], t, c, n);
    }
    RunKeeps(tabs, steps, j);
    CodeThere(tabs[j], t, c, n);
  }

  /**
   Join of an own child c, called at step i by thread t and returning at j: all the while c is the pid of that same
   process, whose block is there, and the result is what that process passed to Exit at some step e.
   */
  lemma JoinReturns(tabs: seq<Table>, steps: seq<Step>, i: nat, j: nat, c: Pid) returns (e: nat)
    requires Run(tabs, steps) && i < j < |tabs| && steps[i] == BeginJoin(c)
    requires c in tabs[i].pcb && c != 0 && tabs[i].pcb[c].parent == Me(tabs[i]).pid
    requires var t := tabs[i].k.current;
      && (forall m :: i < m < j ==> t in tabs[m].procs && tabs[m].procs[t].point.Joining?)
      && t in tabs[j].procs && !tabs[j].procs[t].point.Joining?
    ensures var n := tabs[i].pcb[c].number;
      && (forall m :: i < m < j ==> c in tabs[m].pcb && tabs[m].pcb[c].number == n)
      && e < j && steps[e].BeginExit? && tabs[e].k.current in tabs[e].procs && Me(tabs[e]).number == n
      && tabs[j].procs[tabs[i].k.current].point == User
      && tabs[j].results == tabs[j - 1].results + [Result(n, steps[e].code)]
  {
    hide TableInv;
    hide Next;
    hide CanStep;
    var t, n := tabs[i].k.current, tabs[i].pcb[c].number;
    RunKeeps(tabs, steps, i);
    JoinBegins(tabs[i], c);
    assert j > i + 1;
    forall m | i < m < j
      ensures c in tabs[m].pcb && tabs[m].pcb[c].number == n
    {
      RunJoin(tabs, steps, i + 1, m, t, c, n);
    }
    RunJoin(tabs, steps, i + 1, j - 1, t, c, n);
    RunKeeps(tabs, steps, j - 1);
    JoinStep(tabs[j - 1], steps[j - 1], t, c, n);
    e := WhoExited(tabs, steps, j - 1, n);
  }

  // ---- nothing is held back ----

  lemma CurrentRuns(tab: Table)
    requires TableInv(tab)
    ensures tab.k.current in tab.k.threads && |Values(tab.k)| == |tab.k.sems|
  {
    hide Sound;
  }

  /** A running process can call Exec, Join and Exit, but for the two promises that parents make. */
  lemma CallsOpen(tab: Table, c: Pid, code: int)
    requires TableInv(tab) && tab.k.mode == Executing && tab.k.current in tab.procs && Me(tab).point == User
    ensures CanStep(tab, BeginExec)
    ensures c < 10 && !(c in tab.pcb && c != 0 && tab.pcb[c].parent == Me(tab).pid && tab.pcb[c].asked) ==>
      CanStep(tab, BeginJoin(c))
    ensures Me(tab).pid != 0 && (forall x :: x in tab.pcb && x != 0 ==> tab.pcb[x].parent != Me(tab).pid) ==>
      CanStep(tab, BeginExit(code))
  {
    hide TableInv;
    hide Enabled;
    hide MayDo;
    CurrentRuns(tab);
  }

  /** The step a running process is about to take inside Exec, Join or Exit; `x` is a new thread. */
  function Continuation(tab: Table, p: Process, x: Tid): Step {
    if p.point.ExecSlot? then NoSlot
    else if p.point.Execing? && p.point.exec == ExecFork then Spawn(x)
    else if NextP(tab, p).Some? then Do(P(NextP(tab, p).value))
    else if NextV(tab, p).Some? then Do(V(NextV(tab, p).value))
    else BeginExec
  }

  /** The semaphore a process comes to is there: at every point inside the calls there is exactly one. */
  lemma NextThere(tab: Table, t: Tid)
    requires TableInv(tab) && t in tab.procs && !tab.procs[t].point.Gone?
    ensures var p := tab.procs[t];
      || p.point.User? || p.point.ExecSlot? || (p.point.Execing? && p.point.exec == ExecFork)
      || (NextP(tab, p).Some? && NextV(tab, p).None?) || (NextV(tab, p).Some? && NextP(tab, p).None?)
  {
    hide TableInv;
    BlocksThere(tab, t);
    if tab.procs[t].point.Exiting? {
      ExitingParent(tab, t);
    }
  }

  lemma ExitingParent(tab: Table, t: Tid)
    requires TableInv(tab) && t in tab.procs && tab.procs[t].point.Exiting?
    ensures tab.procs[t].pid != 0
  {
    hide Inv;
    hide Values;
    hide Sound;
    PlaceSound(tab, Values(tab.k), t);
  }

  lemma BaseInRange(tab: Table, pid: Pid)
    requires TableInv(tab) && pid in tab.pcb
    ensures tab.pcb[pid].base + 2 < |tab.k.sems|
  {
    hide Inv;
    hide Values;
    hide Sound;
    CurrentRuns(tab);
    BlockSound(tab, Values(tab.k), pid);
  }

  lemma SemInRange(tab: Table, pid: Pid, offset: nat)
    requires TableInv(tab) && offset <= 2
    ensures Sem(tab, pid, offset).Some? ==> Sem(tab, pid, offset).value < |tab.k.sems|
  {
    hide TableInv;
    if pid in tab.pcb {
      BaseInRange(tab, pid);
    }
  }

  lemma LockInRange(tab: Table)
    requires TableInv(tab)
    ensures tab.bmsem < |tab.k.sems|
  {
    hide Inv;
    hide Values;
    CurrentRuns(tab);
  }

  lemma NextInRange(tab: Table, p: Process)
    requires TableInv(tab)
    ensures NextP(tab, p).Some? ==> NextP(tab, p).value < |tab.k.sems|
    ensures NextV(tab, p).Some? ==> NextV(tab, p).value < |tab.k.sems|
  {
    hide TableInv;
    hide Sem;
    LockInRange(tab);
    SemInRange(tab, p.pid, 0);
    SemInRange(tab, p.pid, 1);
    SemInRange(tab, p.pid, 2);
    SemInRange(tab, ParentOf(tab, p.pid), 2);
    if p.point.Execing? || p.point.Joining? {
      SemInRange(tab, p.point.child, 0);
      SemInRange(tab, p.point.child, 1);
      SemInRange(tab, p.point.child, 2);
    }
  }

  /** A semaphore operation that comes next is allowed: nothing but the semaphore itself makes a process wait. */
  lemma OperationOpen(tab: Table, s: Sid)
    requires tab.k.mode == Executing && tab.k.current in tab.procs && tab.k.current in tab.k.threads
    requires s < |tab.k.sems|
    ensures NextP(tab, Me(tab)) == Some(s) ==> CanStep(tab, Do(P(s)))
    ensures NextV(tab, Me(tab)) == Some(s) ==> CanStep(tab, Do(V(s)))
  {
    hide NextP;
    hide NextV;
    hide Apply;
  }

  /** A running process inside Exec, Join or Exit can always take its next step, into a free slot if there is one. */
  lemma CallsGoOn(tab: Table, x: Tid, pid: Pid)
    requires TableInv(tab) && tab.k.mode == Executing && tab.k.current in tab.procs
    requires !Me(tab).point.User? && !Me(tab).point.Gone?
    requires x !in tab.k.threads && x !in tab.procs
    ensures CanStep(tab, Continuation(tab, Me(tab), x))
    ensures Me(tab).point.ExecSlot? && pid < 10 && pid !in tab.pcb && (forall i: nat :: i < pid ==> i in tab.pcb) ==>
      CanStep(tab, MakePcb(pid))
  {
    hide TableInv;
    hide NextP;
    hide NextV;
    hide Enabled;
    hide MayDo;
    var p := Me(tab);
    CurrentRuns(tab);
    NextThere(tab, tab.k.current);
    NextInRange(tab, p);
    if NextP(tab, p).Some? {
      OperationOpen(tab, NextP(tab, p).value);
    } else if NextV(tab, p).Some? {
      OperationOpen(tab, NextV(tab, p).value);
    }
    if p.point.Execing? {
      BlocksThere(tab, tab.k.current);
    }
  }
}
