/**
 The kernel as a step machine: threads, the ready list, semaphores, interrupt levels and context switches
 (threads/thread.cc, threads/scheduler.cc, threads/synch.cc). A step runs from one point where another thread
 or a handler could come in to the next.
 */
module Kernel {
  import opened Levels

  type Tid = nat
  type Sid = nat

  datatype Option<T> = None | Some(value: T)
  datatype Status = JustCreated | Running | Ready | Blocked

  /** Where a thread goes on when it is next dispatched. */
  datatype Resumption =
    | Fresh                          // into ThreadRoot, which enables interrupts
    | InYield(level: IntStatus)          // out of Yield, which restores the level
    | InP(sem: Sid, level: IntStatus)    // round the loop of P, to test the value again

  type Registers = seq<int>

  /** A thread control block. */
  datatype Thread = Thread(status: Status, resumption: Resumption, userRegisters: Registers, space: Option<nat>)

  /** What the processor is doing on behalf of the current thread. */
  datatype Mode =
    | Executing   // its own code
    | Sleeping    // the loop in Sleep: no thread chosen yet, perhaps idling
    | Returning   // just switched to, on the way out of Run

  /** A semaphore, with the V operations and the completed P operations counted. */
  datatype Semaphore = Semaphore(value: int, queue: seq<Tid>, initial: nat, vs: nat, ps: nat)

  /** A dispatch, and the interrupt level it happened at. */
  datatype Switch = Switch(to: Tid, level: IntStatus)

  datatype Machine = Machine(registers: Registers, pageTable: Option<nat>)

  datatype State = State(
    current: Tid, mode: Mode, level: IntStatus, ready: seq<Tid>, sems: seq<Semaphore>, threads: map<Tid, Thread>,
    unforked: set<Tid>, finished: set<Tid>, switches: seq<Switch>, machine: Machine)

  // ---- the pieces of code ----

  function WithStatus(threads: map<Tid, Thread>, t: Tid, status: Status): (r: map<Tid, Thread>)
    ensures r.Keys == threads.Keys
  {
    if t in threads then threads[t := threads[t].(status := status)] else threads
  }

  function WithResumption(threads: map<Tid, Thread>, t: Tid, resumption: Resumption): (r: map<Tid, Thread>)
    ensures r.Keys == threads.Keys
  {
    if t in threads then threads[t := threads[t].(resumption := resumption)] else threads
  }

  /** SaveUserState, for a thread that has an address space. */
  function SaveUser(threads: map<Tid, Thread>, t: Tid, registers: Registers): (r: map<Tid, Thread>)
    ensures r.Keys == threads.Keys
  {
    if t in threads && threads[t].space.Some? then threads[t := threads[t].(userRegisters := registers)] else threads
  }

  function ReadyToRun(k: State, t: Tid): State {
    k.(threads := WithStatus(k.threads, t, Ready), ready := k.ready + [t])
  }

  /** FindNextToRun and Run, up to and including SWITCH. */
  function SwitchToNext(k: State): State
    requires k.ready != []
  {
    var next := k.ready[0];
    k.(threads := WithStatus(SaveUser(k.threads, k.current, k.machine.registers), next, Running),
       ready := k.ready[1..], current := next, mode := Returning, switches := k.switches + [Switch(next, k.level)])
  }

  /** The start of Sleep. */
  function Sleep(k: State): State {
    k.(threads := WithStatus(k.threads, k.current, Blocked), mode := Sleeping)
  }

  /** P finds the value zero: queue up and sleep. Interrupts are off. */
  function Wait(k: State, s: Sid, level: IntStatus): State
    requires s < |k.sems|
  {
    var sem := k.sems[s];
    Sleep(k.(sems := k.sems[s := sem.(queue := sem.queue + [k.current])],
             threads := WithResumption(k.threads, k.current, InP(s, level)), level := IntOff))
  }

  /** P finds the value positive. */
  function Take(k: State, s: Sid, level: IntStatus): State
    requires s < |k.sems|
  {
    var sem := k.sems[s];
    k.(sems := k.sems[s := sem.(value := sem.value - 1, ps := sem.ps + 1)], level := level, mode := Executing)
  }

  /** The loop of P, once round. */
  function TestP(k: State, s: Sid, level: IntStatus): State
    requires s < |k.sems|
  {
    if k.sems[s].value == 0 then Wait(k, s, level) else Take(k, s, level)
  }

  function DoV(k: State, s: Sid): State
    requires s < |k.sems|
  {
    var sem := k.sems[s];
    var up := sem.(value := sem.value + 1, vs := sem.vs + 1);
    if sem.queue == [] then k.(sems := k.sems[s := up])
    else ReadyToRun(k.(sems := k.sems[s := up.(queue := sem.queue[1..])]), sem.queue[0])
  }

  function DoYield(k: State): State {
    if k.ready == [] then k
    else
      var off := k.(level := IntOff, threads := WithResumption(k.threads, k.current, InYield(k.level)));
      SwitchToNext(ReadyToRun(off, k.current))
  }

  /** The tail of Run: a user thread gets its registers and its page table back. */
  function RestoreUser(k: State): State {
    if k.current in k.threads && k.threads[k.current].space.Some? then
      k.(machine := Machine(k.threads[k.current].userRegisters, k.threads[k.current].space))
    else k
  }

  /** A thread just switched to goes on. A new one starts in ThreadRoot and never sees the tail of Run. */
  function GoOn(k: State): State
    requires k.current in k.threads
  {
    match k.threads[k.current].resumption
    case Fresh => k.(level := IntOn, mode := Executing)
    case InYield(l) => RestoreUser(k).(level := l, mode := Executing)
    case InP(s, l) => if s < |k.sems| then TestP(RestoreUser(k), s, l) else k
  }

  // ---- the steps ----

  datatype Action =
    | Create(thread: Tid)            // new Thread
    | Fork(thread: Tid)
    | NewSemaphore(initial: nat)
    | P(sem: Sid)
    | V(sem: Sid)
    | HandlerV(sem: Sid)             // V from an interrupt handler
    | Yield                          // called, or forced when a time slice ends
    | Finish
    | SetLevel(level: IntStatus)
    | Dispatch                       // the loop in Sleep finds a ready thread
    | Resume                         // the thread switched to goes on
    | Compute(registers: Registers)  // user instructions and anything else that writes machine registers
    | StartProcess(space: nat, registers: Registers)

  predicate Enabled(k: State, a: Action) {
    && k.current in k.threads
    && match a
       case Create(t) => k.mode == Executing && t !in k.threads
       case Fork(t) => k.mode == Executing && t in k.unforked
       case P(s) => k.mode == Executing && s < |k.sems|
       case V(s) => k.mode == Executing && s < |k.sems|
       case HandlerV(s) => s < |k.sems| && (k.mode == Sleeping || (k.mode == Executing && k.level == IntOn))
       case Dispatch => k.mode == Sleeping && k.ready != []
       case Resume => k.mode == Returning
       case Compute(_) => k.mode != Returning
       case StartProcess(_, _) => k.mode == Executing && k.threads[k.current].space.None?
       case _ => k.mode == Executing
  }

  function Apply(k: State, a: Action): State
    requires Enabled(k, a)
  {
    match a
    case Create(t) =>
      k.(threads := k.threads[t := Thread(JustCreated, Fresh, [], None)], unforked := k.unforked + {t})
    case Fork(t) => ReadyToRun(k.(unforked := k.unforked - {t}), t)
    case NewSemaphore(v) => k.(sems := k.sems + [Semaphore(v, [], v, 0, 0)])
    case P(s) => TestP(k, s, k.level)
    case V(s) => DoV(k, s)
    case HandlerV(s) => DoV(k, s)
    case Yield => DoYield(k)
    case Finish => Sleep(k.(level := IntOff, finished := k.finished + {k.current}))
    case SetLevel(l) => k.(level := l)
    case Dispatch => SwitchToNext(k)
    case Resume => GoOn(k)
    case Compute(r) => k.(machine := k.machine.(registers := r))
    case StartProcess(p, r) =>
      k.(threads := k.threads[k.current := k.threads[k.current].(space := Some(p))], machine := Machine(r, Some(p)))
  }

  // ---- every thread is in exactly one place ----

  ghost function Queued(sems: seq<Semaphore>): multiset<Tid> {
    if sems == [] then multiset{} else Queued(sems[..|sems| - 1]) + multiset(sems[|sems| - 1].queue)
  }

  function Flag(b: bool): nat {
    if b then 1 else 0
  }

  /** In how many places a thread is: running, ready, waiting, not yet forked, finished. */
  ghost function Places(k: State, t: Tid): nat {
    Flag(k.mode != Sleeping && t == k.current) + multiset(k.ready)[t] + Queued(k.sems)[t]
    + Flag(t in k.unforked) + Flag(t in k.finished)
  }

  ghost predicate OnePlace(k: State) {
    forall t: Tid :: Places(k, t) == Flag(t in k.threads)
  }

  lemma {:induction false} QueuedUpdate(sems: seq<Semaphore>, s: Sid, sem: Semaphore, t: Tid)
    requires s < |sems|
    ensures Queued(sems[s := sem])[t] + multiset(sems[s].queue)[t] == Queued(sems)[t] + multiset(sem.queue)[t]
  {
    var n := |sems| - 1;
    if s == n {
      assert sems[s := sem][..n] == sems[..n];
    } else {
      QueuedUpdate(sems[..n], s, sem, t);
      assert sems[s := sem][..n] == sems[..n][s := sem];
    }
  }

  lemma {:induction false} QueuedMember(sems: seq<Semaphore>, s: Sid, t: Tid)
    requires s < |sems| && t in sems[s].queue
    ensures Queued(sems)[t] >= 1
  {
    var n := |sems| - 1;
    if s == n {
      assert t in multiset(sems[s].queue);
    } else {
      QueuedMember(sems[..n], s, t);
    }
  }

  lemma PopFront(q: seq<Tid>, t: Tid)
    requires q != []
    ensures multiset(q)[t] == multiset(q[1..])[t] + Flag(t == q[0])
  {
    assert q == [q[0]] + q[1..];
  }

  lemma PushBack(q: seq<Tid>, x: Tid, t: Tid)
    ensures multiset(q + [x])[t] == multiset(q)[t] + Flag(t == x)
  {}

  lemma VPlaces(k: State, s: Sid, t: Tid)
    requires s < |k.sems|
    ensures Places(DoV(k, s), t) == Places(k, t)
  {
    hide Queued;
    var sem := k.sems[s];
    var after := DoV(k, s).sems[s];
    QueuedUpdate(k.sems, s, after, t);
    assert DoV(k, s).sems == k.sems[s := after];
    if sem.queue != [] {
      PopFront(sem.queue, t);
      PushBack(k.ready, sem.queue[0], t);
    }
  }

  lemma WaitPlaces(k: State, s: Sid, level: IntStatus, t: Tid)
    requires s < |k.sems| && k.mode != Sleeping
    ensures Places(Wait(k, s, level), t) == Places(k, t)
  {
    hide Queued;
    var sem := k.sems[s];
    QueuedUpdate(k.sems, s, sem.(queue := sem.queue + [k.current]), t);
    PushBack(sem.queue, k.current, t);
  }

  lemma TakePlaces(k: State, s: Sid, level: IntStatus, t: Tid)
    requires s < |k.sems| && k.mode != Sleeping
    ensures Places(Take(k, s, level), t) == Places(k, t)
  {
    hide Queued;
    var sem := k.sems[s];
    QueuedUpdate(k.sems, s, sem.(value := sem.value - 1, ps := sem.ps + 1), t);
  }

  lemma TestPPlaces(k: State, s: Sid, level: IntStatus, t: Tid)
    requires s < |k.sems| && k.mode != Sleeping
    ensures Places(TestP(k, s, level), t) == Places(k, t)
  {
    hide Places;
    WaitPlaces(k, s, level, t);
    TakePlaces(k, s, level, t);
  }

  lemma SwitchPlaces(k: State, t: Tid)
    requires k.ready != [] && k.mode == Sleeping
    ensures Places(SwitchToNext(k), t) == Places(k, t)
  {
    hide Queued;
    PopFront(k.ready, t);
  }

  lemma YieldPlaces(k: State, t: Tid)
    requires k.mode == Executing
    ensures Places(DoYield(k), t) == Places(k, t)
  {
    hide Queued;
    if k.ready != [] {
      PushBack(k.ready, k.current, t);
      PopFront(k.ready + [k.current], t);
    }
  }

  lemma ResumePlaces(k: State, t: Tid)
    requires k.mode == Returning && k.current in k.threads
    ensures Places(GoOn(k), t) == Places(k, t)
  {
    hide Queued;
    match k.threads[k.current].resumption
    case Fresh =>
    case InYield(l) =>
    case InP(s, l) =>
      if s < |k.sems| {
        TestPPlaces(RestoreUser(k), s, l, t);
      }
  }

  lemma NewSemaphorePlaces(k: State, v: nat, t: Tid)
    requires Enabled(k, NewSemaphore(v))
    ensures Places(Apply(k, NewSemaphore(v)), t) == Places(k, t)
  {
    var sems := Apply(k, NewSemaphore(v)).sems;
    assert sems[..|sems| - 1] == k.sems;
  }

  lemma ForkPlaces(k: State, x: Tid, t: Tid)
    requires Enabled(k, Fork(x))
    ensures Places(Apply(k, Fork(x)), t) == Places(k, t)
  {
    hide Queued;
    PushBack(k.ready, x, t);
  }

  lemma CreateFinishPlaces(k: State, a: Action, t: Tid)
    requires OnePlace(k) && Enabled(k, a) && (a.Create? || a.Finish?)
    ensures Places(Apply(k, a), t) == Flag(t in Apply(k, a).threads)
  {
    hide Queued;
    assert Places(k, t) == Flag(t in k.threads);
    if a.Create? {
      assert Places(k, a.thread) == 0;
    } else {
      assert Places(k, k.current) == 1;
    }
  }

  /** Which threads exist changes only when one is created. */
  lemma StepThreads(k: State, a: Action)
    requires Enabled(k, a) && !a.Create?
    ensures Apply(k, a).threads.Keys == k.threads.Keys
  {}

  lemma StepPlaces(k: State, a: Action)
    requires OnePlace(k) && Enabled(k, a)
    ensures OnePlace(Apply(k, a))
  {
    forall t: Tid
      ensures Places(Apply(k, a), t) == Flag(t in Apply(k, a).threads)
    {
      assert Places(k, t) == Flag(t in k.threads);
      StepPlace(k, a, t);
      if !a.Create? {
        StepThreads(k, a);
      }
    }
  }

  lemma StepPlace(k: State, a: Action, t: Tid)
    requires OnePlace(k) && Enabled(k, a)
    ensures Places(Apply(k, a), t) == if a.Create? then Flag(t in Apply(k, a).threads) else Places(k, t)
  {
    hide Places;
    match a
    case Create(_) => CreateFinishPlaces(k, a, t);
    case Fork(x) => ForkPlaces(k, x, t);
    case NewSemaphore(v) => NewSemaphorePlaces(k, v, t);
    case P(s) => TestPPlaces(k, s, k.level, t);
    case V(s) => VPlaces(k, s, t);
    case HandlerV(s) => VPlaces(k, s, t);
    case Yield => YieldPlaces(k, t);
    case Finish => CreateFinishPlaces(k, a, t); StepThreads(k, a); assert Places(k, t) == Flag(t in k.threads);
    case Dispatch => SwitchPlaces(k, t);
    case Resume => ResumePlaces(k, t);
    case _ => QuietPlaces(k, a, t);
  }

  lemma QuietPlaces(k: State, a: Action, t: Tid)
    requires Enabled(k, a) && (a.SetLevel? || a.Compute? || a.StartProcess?)
    ensures Places(Apply(k, a), t) == Places(k, t)
  {}
}
