/** What every step of the kernel keeps, and what follows for whole runs. */
module KernelInvariant {
  import opened Kernel
  import opened Levels

  // ---- woken waiters ----

  predicate WaitsOn(threads: map<Tid, Thread>, t: Tid, s: Sid) {
    t in threads && threads[t].resumption.InP? && threads[t].resumption.sem == s
  }

  function CountWaking(ready: seq<Tid>, threads: map<Tid, Thread>, s: Sid): nat {
    if ready == [] then 0
    else CountWaking(ready[..|ready| - 1], threads, s) + Flag(WaitsOn(threads, ready[|ready| - 1], s))
  }

  /** The threads V has made ready that have not yet tested the value again. */
  function Woken(k: State, s: Sid): nat {
    CountWaking(k.ready, k.threads, s) + Flag(k.mode == Returning && WaitsOn(k.threads, k.current, s))
  }

  lemma {:induction false} CountPop(ready: seq<Tid>, threads: map<Tid, Thread>, s: Sid)
    requires ready != []
    ensures CountWaking(ready, threads, s) == CountWaking(ready[1..], threads, s) + Flag(WaitsOn(threads, ready[0], s))
  {
    var n := |ready| - 1;
    if n > 0 {
      CountPop(ready[..n], threads, s);
      assert ready[..n][1..] == ready[1..][..n - 1];
    }
  }

  lemma CountPush(ready: seq<Tid>, t: Tid, threads: map<Tid, Thread>, s: Sid)
    ensures CountWaking(ready + [t], threads, s) == CountWaking(ready, threads, s) + Flag(WaitsOn(threads, t, s))
  {
    assert (ready + [t])[..|ready|] == ready;
  }

  /** Only the resumptions of ready threads matter. */
  lemma {:induction false} CountFrame(ready: seq<Tid>, threads: map<Tid, Thread>, after: map<Tid, Thread>, s: Sid)
    requires forall t :: t in ready ==> WaitsOn(after, t, s) == WaitsOn(threads, t, s)
    ensures CountWaking(ready, after, s) == CountWaking(ready, threads, s)
  {
    if ready != [] {
      CountFrame(ready[..|ready| - 1], threads, after, s);
    }
  }

  // ---- the semaphore invariant ----

  /** The count is right, and no wakeup is lost: a positive value that waiters could use is owed to woken ones. */
  ghost predicate SemSound(k: State, s: Sid)
    requires s < |k.sems|
  {
    var sem := k.sems[s];
    && 0 <= sem.value == sem.initial + sem.vs - sem.ps
    && (sem.queue != [] ==> sem.value <= Woken(k, s))
  }

  ghost predicate SemsSound(k: State) {
    forall s: nat :: s < |k.sems| ==> SemSound(k, s)
  }

  /** Threads in a semaphore's queue will test that semaphore, and no thread waits on a semaphore that is not there. */
  ghost predicate WaitersSound(k: State) {
    && (forall s, i :: 0 <= s < |k.sems| && 0 <= i < |k.sems[s].queue| ==> WaitsOn(k.threads, k.sems[s].queue[i], s))
    && (forall t :: t in k.threads && k.threads[t].resumption.InP? ==> k.threads[t].resumption.sem < |k.sems|)
  }

  ghost predicate LevelsSound(k: State) {
    && (k.mode != Executing ==> k.level == IntOff)
    && (forall i :: 0 <= i < |k.switches| ==> k.switches[i].level == IntOff)
  }

  ghost predicate StatusSound(k: State) {
    forall t :: t in k.threads ==> k.threads[t].status == StatusOf(k, t)
  }

  ghost function StatusOf(k: State, t: Tid): Status {
    if t in k.unforked then JustCreated
    else if t in k.ready then Ready
    else if k.mode != Sleeping && t == k.current then Running
    else Blocked
  }

  /** A thread gets its address space by running, so one that has never run has none. */
  ghost predicate SpacesSound(k: State) {
    && (forall t :: t in k.threads && t in k.unforked ==> k.threads[t].resumption.Fresh?)
    && (forall t :: t in k.threads && k.threads[t].resumption.Fresh? && NeverRan(k, t) ==> k.threads[t].space.None?)
    && (k.mode != Returning && k.current in k.threads && k.threads[k.current].space.Some? ==>
          k.machine.pageTable == k.threads[k.current].space)
  }

  ghost predicate NeverRan(k: State, t: Tid) {
    t in k.unforked || t in k.ready || (t == k.current && k.mode == Returning)
  }

  ghost predicate Inv(k: State) {
    && k.current in k.threads
    && OnePlace(k) && LevelsSound(k) && StatusSound(k) && WaitersSound(k) && SemsSound(k) && SpacesSound(k)
  }

  // ---- consequences of being in one place ----

  lemma ReadyOnce(k: State, t: Tid)
    requires OnePlace(k) && t in k.ready
    ensures t in k.threads && t !in k.unforked && t !in k.finished && (k.mode != Sleeping ==> t != k.current)
    ensures multiset(k.ready)[t] == 1 && forall s :: 0 <= s < |k.sems| ==> t !in k.sems[s].queue
  {
    assert Places(k, t) == Flag(t in k.threads);
    assert t in multiset(k.ready);
    forall s | 0 <= s < |k.sems|
      ensures t !in k.sems[s].queue
    {
      if t in k.sems[s].queue {
        QueuedMember(k.sems, s, t);
      }
    }
  }

  lemma RunningOnce(k: State)
    requires OnePlace(k) && k.mode != Sleeping
    ensures k.current in k.threads && k.current !in k.ready && k.current !in k.unforked && k.current !in k.finished
    ensures forall s :: 0 <= s < |k.sems| ==> k.current !in k.sems[s].queue
  {
    var t := k.current;
    assert Places(k, t) == Flag(t in k.threads);
    assert t in k.ready ==> t in multiset(k.ready);
    forall s | 0 <= s < |k.sems|
      ensures t !in k.sems[s].queue
    {
      if t in k.sems[s].queue {
        QueuedMember(k.sems, s, t);
      }
    }
  }

  lemma QueuedOnce(k: State, s: Sid, t: Tid)
    requires OnePlace(k) && s < |k.sems| && t in k.sems[s].queue
    ensures t in k.threads && t !in k.ready && t !in k.unforked && t !in k.finished
    ensures k.mode != Sleeping ==> t != k.current
  {
    assert Places(k, t) == Flag(t in k.threads);
    QueuedMember(k.sems, s, t);
    assert t in k.ready ==> t in multiset(k.ready);
  }

  lemma UnforkedOnce(k: State, t: Tid)
    requires OnePlace(k) && t in k.unforked
    ensures t in k.threads && t !in k.ready && t !in k.finished && (k.mode != Sleeping ==> t != k.current)
    ensures forall s :: 0 <= s < |k.sems| ==> t !in k.sems[s].queue
  {
    assert Places(k, t) == Flag(t in k.threads);
    assert t in k.ready ==> t in multiset(k.ready);
    forall s | 0 <= s < |k.sems|
      ensures t !in k.sems[s].queue
    {
      if t in k.sems[s].queue {
        QueuedMember(k.sems, s, t);
      }
    }
  }

  // ---- semaphores, piece by piece ----

  /** P runs in a thread that is executing, or that this semaphore has woken. */
  ghost predicate MayTest(k: State, s: Sid) {
    && s < |k.sems| && k.current in k.threads
    && (k.mode == Executing || (k.mode == Returning && WaitsOn(k.threads, k.current, s)))
  }

  lemma WaitSems(k: State, s: Sid, level: IntStatus)
    requires OnePlace(k) && SemsSound(k) && MayTest(k, s) && k.sems[s].value == 0
    ensures SemsSound(Wait(k, s, level))
  {
    var n := Wait(k, s, level);
    RunningOnce(k);
    forall r: nat | r < |n.sems|
      ensures SemSound(n, r)
    {
      assert SemSound(k, r);
      CountFrame(k.ready, k.threads, n.threads, r);
    }
  }

  lemma TakeSems(k: State, s: Sid, level: IntStatus)
    requires SemsSound(k) && MayTest(k, s) && k.sems[s].value != 0
    ensures SemsSound(Take(k, s, level))
  {
    var n := Take(k, s, level);
    forall r: nat | r < |n.sems|
      ensures SemSound(n, r)
    {
      assert SemSound(k, r);
    }
  }

  lemma TestPSems(k: State, s: Sid, level: IntStatus)
    requires OnePlace(k) && SemsSound(k) && MayTest(k, s)
    ensures SemsSound(TestP(k, s, level))
  {
    hide SemsSound;
    if k.sems[s].value == 0 {
      WaitSems(k, s, level);
    } else {
      TakeSems(k, s, level);
    }
  }

  /** V hands its increment to the thread it wakes. */
  lemma VSems(k: State, s: Sid)
    requires OnePlace(k) && SemsSound(k) && WaitersSound(k) && s < |k.sems|
    ensures SemsSound(DoV(k, s))
  {
    var n := DoV(k, s);
    forall r: nat | r < |n.sems|
      ensures SemSound(n, r)
    {
      assert SemSound(k, r) && SemSound(k, s);
      if k.sems[s].queue != [] {
        var t := k.sems[s].queue[0];
        assert WaitsOn(k.threads, t, s);
        CountFrame(k.ready, k.threads, n.threads, r);
        CountPush(k.ready, t, n.threads, r);
      }
    }
  }

  lemma SwitchSems(k: State)
    requires SemsSound(k) && k.mode == Sleeping && k.ready != []
    ensures SemsSound(SwitchToNext(k))
  {
    var n := SwitchToNext(k);
    forall r: nat | r < |n.sems|
      ensures SemSound(n, r)
    {
      assert SemSound(k, r);
      CountPop(k.ready, k.threads, r);
      CountFrame(k.ready[1..], k.threads, n.threads, r);
    }
  }

  lemma YieldSems(k: State)
    requires OnePlace(k) && SemsSound(k) && k.mode == Executing && k.current in k.threads
    ensures SemsSound(DoYield(k))
  {
    if k.ready != [] {
      var off := k.(level := IntOff, threads := WithResumption(k.threads, k.current, InYield(k.level)));
      var m := ReadyToRun(off, k.current).(mode := Sleeping);
      RunningOnce(k);
      forall r: nat | r < |m.sems|
        ensures SemSound(m, r)
      {
        assert SemSound(k, r);
        CountFrame(k.ready, k.threads, m.threads, r);
        CountPush(k.ready, k.current, m.threads, r);
      }
      SwitchSems(m);
      assert SwitchToNext(m) == DoYield(k);
    }
  }

  lemma ForkCreateSems(k: State, a: Action)
    requires OnePlace(k) && SemsSound(k) && WaitersSound(k) && SpacesSound(k) && Enabled(k, a) && (a.Fork? || a.Create?)
    requires a.Fork? ==> k.threads[a.thread].resumption.Fresh?
    ensures SemsSound(Apply(k, a))
  {
    var n := Apply(k, a);
    forall r: nat | r < |n.sems|
      ensures SemSound(n, r)
    {
      assert SemSound(k, r);
      if a.Create? {
        forall t | t in k.ready
          ensures t != a.thread
        {
          ReadyOnce(k, t);
        }
      }
      CountFrame(k.ready, k.threads, n.threads, r);
      CountPush(k.ready, a.thread, n.threads, r);
    }
  }

  lemma QuietSems(k: State, a: Action)
    requires OnePlace(k) && SemsSound(k) && WaitersSound(k) && Enabled(k, a)
    requires a.NewSemaphore? || a.Finish? || a.SetLevel? || a.Compute? || a.StartProcess?
    ensures SemsSound(Apply(k, a))
  {
    var n := Apply(k, a);
    forall r: nat | r < |n.sems|
      ensures SemSound(n, r)
    {
      if r < |k.sems| {
        assert SemSound(k, r);
        CountFrame(k.ready, k.threads, n.threads, r);
      }
    }
  }

  lemma ResumeSems(k: State)
    requires OnePlace(k) && SemsSound(k) && WaitersSound(k) && Enabled(k, Resume)
    ensures SemsSound(GoOn(k))
  {
    hide OnePlace;
    hide SemsSound;
    hide WaitersSound;
    match k.threads[k.current].resumption
    case Fresh => ResumeOthers(k);
    case InYield(l) => ResumeOthers(k);
    case InP(s, l) =>
      RestoreKeeps(k);
      ResumeMayTest(k, s);
      TestPSems(RestoreUser(k), s, l);
  }

  lemma ResumeMayTest(k: State, s: Sid)
    requires Enabled(k, Resume) && WaitersSound(k)
    requires k.threads[k.current].resumption.InP? && k.threads[k.current].resumption.sem == s
    ensures MayTest(RestoreUser(k), s)
  {}

  lemma ResumeOthers(k: State)
    requires SemsSound(k) && Enabled(k, Resume) && !k.threads[k.current].resumption.InP?
    ensures SemsSound(GoOn(k))
  {
    var n := GoOn(k);
    forall r: nat | r < |n.sems|
      ensures SemSound(n, r)
    {
      assert SemSound(k, r);
    }
  }

  lemma StepSems(k: State, a: Action)
    requires Inv(k) && Enabled(k, a)
    ensures SemsSound(Apply(k, a))
  {
    hide SemsSound;
    hide OnePlace;
    hide WaitersSound;
    hide StatusSound;
    match a
    case Create(_) => ForkCreateSems(k, a);
    case Fork(t) =>
      UnforkedOnce(k, t);
      ForkCreateSems(k, a);
    case P(s) => TestPSems(k, s, k.level);
    case V(s) => VSems(k, s);
    case HandlerV(s) => VSems(k, s);
    case Yield => YieldSems(k);
    case Dispatch => SwitchSems(k);
    case Resume => ResumeSems(k);
    case _ => QuietSems(k, a);
  }

  // ---- levels, waiters, status, spaces ----

  /** A switch is only ever made with interrupts off. */
  lemma StepLevels(k: State, a: Action)
    requires LevelsSound(k) && Enabled(k, a)
    ensures LevelsSound(Apply(k, a))
  {}

  lemma WaitersFrame(k: State, n: State)
    requires WaitersSound(k) && n.sems == k.sems
    requires forall t :: t in n.threads ==>
      if t in k.threads then
        n.threads[t].resumption == k.threads[t].resumption ||
        (!n.threads[t].resumption.InP? && forall s :: 0 <= s < |k.sems| ==> t !in k.sems[s].queue)
      else !n.threads[t].resumption.InP?
    requires k.threads.Keys <= n.threads.Keys
    ensures WaitersSound(n)
  {
    forall s, i | 0 <= s < |n.sems| && 0 <= i < |n.sems[s].queue|
      ensures WaitsOn(n.threads, n.sems[s].queue[i], s)
    {
      assert WaitsOn(k.threads, k.sems[s].queue[i], s);
      assert k.sems[s].queue[i] in k.sems[s].queue;
    }
  }

  lemma TestPWaiters(k: State, s: Sid, level: IntStatus)
    requires WaitersSound(k) && OnePlace(k) && k.mode != Sleeping && s < |k.sems| && k.current in k.threads
    ensures WaitersSound(TestP(k, s, level))
  {
    RunningOnce(k);
    var n := TestP(k, s, level);
    forall r, i | 0 <= r < |n.sems| && 0 <= i < |n.sems[r].queue|
      ensures WaitsOn(n.threads, n.sems[r].queue[i], r)
    {
      if i < |k.sems[r].queue| {
        assert WaitsOn(k.threads, k.sems[r].queue[i], r);
        assert k.sems[r].queue[i] in k.sems[r].queue;
      }
    }
  }

  lemma VWaiters(k: State, s: Sid)
    requires WaitersSound(k) && s < |k.sems|
    ensures WaitersSound(DoV(k, s))
  {
    var n := DoV(k, s);
    forall r, i | 0 <= r < |n.sems| && 0 <= i < |n.sems[r].queue|
      ensures WaitsOn(n.threads, n.sems[r].queue[i], r)
    {
      if r == s && k.sems[s].queue != [] {
        assert n.sems[r].queue[i] == k.sems[r].queue[i + 1];
      }
      assert WaitsOn(k.threads, n.sems[r].queue[i], r);
    }
  }

  lemma RestorePlaces(k: State)
    requires OnePlace(k)
    ensures OnePlace(RestoreUser(k))
  {
    var m := RestoreUser(k);
    forall t: Tid
      ensures Places(m, t) == Flag(t in m.threads)
    {
      assert Places(k, t) == Flag(t in k.threads);
    }
  }

  lemma RestoreSems(k: State)
    requires SemsSound(k)
    ensures SemsSound(RestoreUser(k))
  {
    var m := RestoreUser(k);
    forall r: nat | r < |m.sems|
      ensures SemSound(m, r)
    {
      assert SemSound(k, r);
    }
  }

  lemma RestoreWaiters(k: State)
    requires WaitersSound(k)
    ensures WaitersSound(RestoreUser(k))
  {}

  lemma RestoreKeeps(k: State)
    ensures RestoreUser(k) == k.(machine := RestoreUser(k).machine)
    ensures OnePlace(k) ==> OnePlace(RestoreUser(k))
    ensures SemsSound(k) ==> SemsSound(RestoreUser(k))
    ensures WaitersSound(k) ==> WaitersSound(RestoreUser(k))
  {
    hide OnePlace;
    hide SemsSound;
    hide WaitersSound;
    if OnePlace(k) {
      RestorePlaces(k);
    }
    if SemsSound(k) {
      RestoreSems(k);
    }
    if WaitersSound(k) {
      RestoreWaiters(k);
    }
  }

  lemma SwitchWaiters(k: State)
    requires WaitersSound(k) && k.ready != []
    ensures WaitersSound(SwitchToNext(k))
  {
    hide WaitersSound;
    WaitersFrame(k, SwitchToNext(k));
  }

  lemma YieldWaiters(k: State)
    requires OnePlace(k) && WaitersSound(k) && k.mode == Executing
    ensures WaitersSound(DoYield(k))
  {
    if k.ready != [] {
      RunningOnce(k);
      hide WaitersSound;
      hide OnePlace;
      var off := k.(level := IntOff, threads := WithResumption(k.threads, k.current, InYield(k.level)));
      WaitersFrame(k, ReadyToRun(off, k.current));
      SwitchWaiters(ReadyToRun(off, k.current));
    }
  }

  lemma QuietWaiters(k: State, a: Action)
    requires OnePlace(k) && WaitersSound(k) && Enabled(k, a)
    requires a.Create? || a.Fork? || a.Finish? || a.SetLevel? || a.Compute? || a.StartProcess?
    ensures WaitersSound(Apply(k, a))
  {
    hide WaitersSound;
    hide OnePlace;
    if k.mode != Sleeping {
      RunningOnce(k);
    }
    WaitersFrame(k, Apply(k, a));
  }

  lemma ResumeWaiters(k: State)
    requires OnePlace(k) && WaitersSound(k) && Enabled(k, Resume)
    ensures WaitersSound(GoOn(k))
  {
    var r := k.threads[k.current].resumption;
    RestoreKeeps(k);
    if r.InP? {
      TestPWaiters(RestoreUser(k), r.sem, r.level);
    } else {
      hide WaitersSound;
      WaitersFrame(k, GoOn(k));
    }
  }

  lemma NewSemaphoreWaiters(k: State, v: nat)
    requires WaitersSound(k) && Enabled(k, NewSemaphore(v))
    ensures WaitersSound(Apply(k, NewSemaphore(v)))
  {}

  lemma StepWaiters(k: State, a: Action)
    requires Inv(k) && Enabled(k, a)
    ensures WaitersSound(Apply(k, a))
  {
    hide SemsSound;
    hide StatusSound;
    hide SpacesSound;
    hide OnePlace;
    hide WaitersSound;
    match a
    case P(s) => TestPWaiters(k, s, k.level);
    case V(s) => VWaiters(k, s);
    case HandlerV(s) => VWaiters(k, s);
    case Resume => ResumeWaiters(k);
    case NewSemaphore(v) => NewSemaphoreWaiters(k, v);
    case Yield => YieldWaiters(k);
    case Dispatch => SwitchWaiters(k);
    case _ => QuietWaiters(k, a);
  }

  /** Each thread's status says where it is. */
  lemma StepStatusOf(k: State, a: Action, t: Tid)
    requires OnePlace(k) && StatusSound(k) && Enabled(k, a) && t in Apply(k, a).threads
    ensures Apply(k, a).threads[t].status == StatusOf(Apply(k, a), t)
  {
    hide OnePlace;
    hide StatusSound;
    hide StatusOf;
    match a
    case P(s) => StatusTestP(k, s, k.level, t);
    case V(s) => StatusV(k, s, t);
    case HandlerV(s) => StatusV(k, s, t);
    case Yield => StatusYield(k, t);
    case Dispatch => StatusSwitch(k, t);
    case Resume => StatusResume(k, t);
    case _ => StatusOthers(k, a, t);
  }

  lemma StatusTestP(k: State, s: Sid, level: IntStatus, t: Tid)
    requires OnePlace(k) && StatusSound(k) && s < |k.sems| && k.mode != Sleeping && t in k.threads
    ensures t in TestP(k, s, level).threads && TestP(k, s, level).threads[t].status == StatusOf(TestP(k, s, level), t)
  {
    hide OnePlace;
    RunningOnce(k);
  }

  lemma StatusSwitch(k: State, t: Tid)
    requires OnePlace(k) && StatusSound(k) && k.mode == Sleeping && k.ready != [] && t in k.threads
    ensures t in SwitchToNext(k).threads && SwitchToNext(k).threads[t].status == StatusOf(SwitchToNext(k), t)
  {
    hide OnePlace;
    ReadyOnce(k, k.ready[0]);
    ReadyTail(k.ready, t);
  }

  /** With the head in the list once, the tail holds the others. */
  lemma ReadyTail(q: seq<Tid>, t: Tid)
    requires q != [] && multiset(q)[q[0]] == 1
    ensures t in q[1..] <==> t in q && t != q[0]
  {
    PopFront(q, t);
    PopFront(q, q[0]);
    assert t in q[1..] <==> t in multiset(q[1..]);
    assert t in q <==> t in multiset(q);
  }

  lemma StatusYield(k: State, t: Tid)
    requires OnePlace(k) && StatusSound(k) && k.mode == Executing && t in k.threads
    ensures t in DoYield(k).threads && DoYield(k).threads[t].status == StatusOf(DoYield(k), t)
  {
    hide OnePlace;
    if k.ready != [] {
      RunningOnce(k);
      ReadyOnce(k, k.ready[0]);
      ReadyTail(k.ready, t);
      assert (k.ready + [k.current])[1..] == k.ready[1..] + [k.current];
    }
  }

  lemma StatusResume(k: State, t: Tid)
    requires OnePlace(k) && StatusSound(k) && Enabled(k, Resume) && t in k.threads
    ensures t in GoOn(k).threads && GoOn(k).threads[t].status == StatusOf(GoOn(k), t)
  {
    hide OnePlace;
    var r := k.threads[k.current].resumption;
    RestoreKeeps(k);
    if r.InP? && r.sem < |k.sems| {
      StatusTestP(RestoreUser(k), r.sem, r.level, t);
    }
  }

  lemma StatusOthers(k: State, a: Action, t: Tid)
    requires OnePlace(k) && StatusSound(k) && Enabled(k, a) && t in Apply(k, a).threads
    requires a.Create? || a.Fork? || a.NewSemaphore? || a.Finish? || a.SetLevel? || a.Compute? || a.StartProcess?
    ensures Apply(k, a).threads[t].status == StatusOf(Apply(k, a), t)
  {
    hide OnePlace;
    if k.mode != Sleeping {
      RunningOnce(k);
    }
    if a.Fork? {
      UnforkedOnce(k, a.thread);
    }
    if a.Create? {
      NotYetReady(k, a.thread);
    }
  }

  lemma NotYetReady(k: State, t: Tid)
    requires OnePlace(k) && t !in k.threads
    ensures t !in k.ready
  {
    assert Places(k, t) == 0;
    assert t !in multiset(k.ready);
  }

  lemma StatusV(k: State, s: Sid, t: Tid)
    requires OnePlace(k) && StatusSound(k) && s < |k.sems| && t in k.threads
    ensures t in DoV(k, s).threads && DoV(k, s).threads[t].status == StatusOf(DoV(k, s), t)
  {
    if k.sems[s].queue != [] {
      var x := k.sems[s].queue[0];
      assert x in k.sems[s].queue;
      QueuedOnce(k, s, x);
    }
  }

  lemma StepStatus(k: State, a: Action)
    requires Inv(k) && Enabled(k, a)
    ensures StatusSound(Apply(k, a))
  {
    hide SemsSound;
    hide SpacesSound;
    hide OnePlace;
    hide WaitersSound;
    hide StatusOf;
    forall t | t in Apply(k, a).threads
      ensures Apply(k, a).threads[t].status == StatusOf(Apply(k, a), t)
    {
      StepStatusOf(k, a, t);
    }
  }

  lemma SpacesV(k: State, s: Sid)
    requires OnePlace(k) && SpacesSound(k) && WaitersSound(k) && s < |k.sems|
    ensures SpacesSound(DoV(k, s))
  {
    if k.sems[s].queue != [] {
      var x := k.sems[s].queue[0];
      assert WaitsOn(k.threads, x, s);
    }
  }

  lemma SpacesTestP(k: State, s: Sid, level: IntStatus)
    requires OnePlace(k) && SpacesSound(k) && s < |k.sems| && k.mode != Sleeping && k.current in k.threads
    requires k.threads[k.current].space.Some? ==> k.machine.pageTable == k.threads[k.current].space
    ensures SpacesSound(TestP(k, s, level))
  {
    hide OnePlace;
    RunningOnce(k);
  }

  lemma SpacesResume(k: State)
    requires OnePlace(k) && SpacesSound(k) && Enabled(k, Resume)
    ensures SpacesSound(GoOn(k))
  {
    var r := k.threads[k.current].resumption;
    RunningOnce(k);
    RestoreKeeps(k);
    if r.InP? && r.sem < |k.sems| {
      SpacesTestP(RestoreUser(k), r.sem, r.level);
    }
  }

  lemma SpacesSwitch(k: State)
    requires SpacesSound(k) && k.ready != []
    ensures SpacesSound(SwitchToNext(k))
  {}

  lemma SpacesYield(k: State)
    requires SpacesSound(k) && k.mode == Executing && k.current in k.threads && OnePlace(k)
    ensures SpacesSound(DoYield(k))
  {
    if k.ready != [] {
      RunningOnce(k);
      hide OnePlace;
      var off := k.(level := IntOff, threads := WithResumption(k.threads, k.current, InYield(k.level)));
      assert SpacesSound(ReadyToRun(off, k.current));
      SpacesSwitch(ReadyToRun(off, k.current));
    }
  }

  lemma SpacesOthers(k: State, a: Action)
    requires OnePlace(k) && SpacesSound(k) && Enabled(k, a)
    requires a.NewSemaphore? || a.Finish? || a.SetLevel? || a.Compute? || a.StartProcess?
    ensures SpacesSound(Apply(k, a))
  {
    hide OnePlace;
    if k.mode != Sleeping {
      RunningOnce(k);
    }
  }

  lemma SpacesThread(k: State, a: Action)
    requires OnePlace(k) && SpacesSound(k) && Enabled(k, a) && (a.Create? || a.Fork?)
    ensures SpacesSound(Apply(k, a))
  {
    hide OnePlace;
    RunningOnce(k);
  }

  lemma StepSpaces(k: State, a: Action)
    requires Inv(k) && Enabled(k, a)
    ensures SpacesSound(Apply(k, a))
  {
    match a
    case P(s) => SpacesTestP(k, s, k.level);
    case V(s) => SpacesV(k, s);
    case HandlerV(s) => SpacesV(k, s);
    case Yield => SpacesYield(k);
    case Dispatch => SpacesSwitch(k);
    case Resume => SpacesResume(k);
    case Create(_) => SpacesThread(k, a);
    case Fork(_) => SpacesThread(k, a);
    case _ => SpacesOthers(k, a);
  }

  lemma CurrentExists(k: State, a: Action)
    requires OnePlace(k) && Enabled(k, a)
    ensures Apply(k, a).current in Apply(k, a).threads
  {
    if a.Dispatch? || (a.Yield? && k.ready != []) {
      ReadyOnce(k, k.ready[0]);
    }
  }

  lemma StepInv(k: State, a: Action)
    requires Inv(k) && Enabled(k, a)
    ensures Inv(Apply(k, a))
  {
    hide SemsSound;
    hide SpacesSound;
    hide OnePlace;
    hide WaitersSound;
    hide StatusSound;
    hide LevelsSound;
    CurrentExists(k, a);
    StepPlaces(k, a);
    StepLevels(k, a);
    StepStatus(k, a);
    StepWaiters(k, a);
    StepSems(k, a);
    StepSpaces(k, a);
  }
}
