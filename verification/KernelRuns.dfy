/** Whole runs of the kernel: exclusion of places, lost wakeups, first-in first-out dispatch, context switches. */
module KernelRuns {
  import opened Kernel
  import opened Levels
  import opened KernelInvariant

  /** The machine as it starts: the main thread runs, with interrupts still off. */
  function Initial(machine: Machine): State {
    State(0, Executing, IntOff, [], [], map[0 := Thread(Running, Fresh, [], None)], {}, {}, [], machine)
  }

  lemma InitialInv(machine: Machine)
    ensures Inv(Initial(machine))
  {}

  ghost predicate Run(ks: seq<State>, actions: seq<Action>) {
    && |ks| == |actions| + 1
    && ks[0] == Initial(ks[0].machine)
    && forall i :: 0 <= i < |actions| ==> Enabled(ks[i], actions[i]) && ks[i + 1] == Apply(ks[i], actions[i])
  }

  /** In every reachable state each thread is in exactly one place, with the status to match, and so on. */
  lemma {:induction false} RunInv(ks: seq<State>, actions: seq<Action>, i: nat)
    requires Run(ks, actions) && i < |ks|
    ensures Inv(ks[i])
  {
    hide Inv;
    if i == 0 {
      InitialInv(ks[0].machine);
    } else {
      RunInv(ks, actions, i - 1);
      StepInv(ks[i - 1], actions[i - 1]);
    }
  }

  /** Spelled out: a thread in two places at once, or twice in one list, or in none, is unreachable. */
  lemma RunOnePlace(ks: seq<State>, actions: seq<Action>, i: nat, t: Tid)
    requires Run(ks, actions) && i < |ks| && t in ks[i].threads
    ensures var k := ks[i];
      Flag(k.mode != Sleeping && t == k.current) + multiset(k.ready)[t] + Queued(k.sems)[t]
      + Flag(t in k.unforked) + Flag(t in k.finished) == 1
    ensures ks[i].threads[t].status == StatusOf(ks[i], t)
  {
    RunInv(ks, actions, i);
    assert Places(ks[i], t) == Flag(t in ks[i].threads);
  }

  /** Every switch of every run happens with interrupts off. */
  lemma RunSwitchesOff(ks: seq<State>, actions: seq<Action>, i: nat)
    requires Run(ks, actions) && i < |ks|
    ensures forall n :: 0 <= n < |ks[i].switches| ==> ks[i].switches[n].level == IntOff
  {
    RunInv(ks, actions, i);
  }

  /** What may come next: any operation of a thread that runs, handlers while one sleeps, nothing during a switch. */
  lemma WhatMayHappen(k: State)
    requires Inv(k)
    ensures k.mode == Executing ==> Enabled(k, Yield) && Enabled(k, Finish)
    ensures k.mode == Executing ==> forall s: nat :: s < |k.sems| ==> Enabled(k, P(s)) && Enabled(k, V(s))
    ensures k.mode == Sleeping ==> (Enabled(k, Dispatch) <==> k.ready != [])
    ensures k.mode == Sleeping || (k.mode == Executing && k.level == IntOn) ==>
      forall s: nat :: s < |k.sems| ==> Enabled(k, HandlerV(s))
    ensures k.mode == Returning ==> forall a :: Enabled(k, a) <==> a == Resume
  {
    hide OnePlace;
    hide SemsSound;
    hide StatusSound;
    hide WaitersSound;
    hide SpacesSound;
  }

  // ---- semaphores ----

  /** The value never goes below zero, and is what V and completed P operations make it. */
  lemma RunSemaphores(ks: seq<State>, actions: seq<Action>, i: nat, s: Sid)
    requires Run(ks, actions) && i < |ks| && s < |ks[i].sems|
    ensures var sem := ks[i].sems[s];
      && 0 <= sem.value == sem.initial + sem.vs - sem.ps
      && (sem.queue != [] ==> sem.value <= Woken(ks[i], s))
  {
    RunInv(ks, actions, i);
    assert SemSound(ks[i], s);
  }

  /** When the machine idles with nobody ready, nobody waits on a semaphore whose value is positive. */
  lemma IdleLosesNoWakeup(k: State, s: Sid)
    requires Inv(k) && k.mode == Sleeping && k.ready == [] && s < |k.sems| && k.sems[s].queue != []
    ensures k.sems[s].value == 0
  {
    assert SemSound(k, s);
  }

  /** What a step does to the semaphores, as its clients see it. */
  datatype Event = Quiet | DidP(thread: Tid, sem: Sid) | DidV(sem: Sid) | Made(initial: nat)

  function EventOf(k: State, a: Action): Event
    requires Enabled(k, a)
  {
    match a
    case P(s) => if k.sems[s].value == 0 then Quiet else DidP(k.current, s)
    case V(s) => DidV(s)
    case HandlerV(s) => DidV(s)
    case NewSemaphore(v) => Made(v)
    case Resume =>
      var r := k.threads[k.current].resumption;
      if r.InP? && r.sem < |k.sems| && k.sems[r.sem].value != 0 then DidP(k.current, r.sem) else Quiet
    case _ => Quiet
  }

  ghost function Values(k: State): seq<int> {
    seq(|k.sems|, s requires 0 <= s < |k.sems| => k.sems[s].value)
  }

  ghost predicate Counts(before: seq<int>, e: Event, after: seq<int>) {
    match e
    case Quiet => after == before
    case DidP(t, s) => s < |before| && before[s] > 0 && after == before[s := before[s] - 1]
    case DidV(s) => s < |before| && after == before[s := before[s] + 1]
    case Made(v) => after == before + [v]
  }

  lemma TestPValues(k: State, s: Sid, level: IntStatus)
    requires s < |k.sems| && k.sems[s].value >= 0
    ensures Counts(Values(k), if k.sems[s].value == 0 then Quiet else DidP(k.current, s), Values(TestP(k, s, level)))
  {}

  lemma VValues(k: State, s: Sid)
    requires s < |k.sems|
    ensures Counts(Values(k), DidV(s), Values(DoV(k, s)))
  {}

  lemma OtherValues(k: State, a: Action)
    requires Enabled(k, a) && !a.P? && !a.V? && !a.HandlerV? && !a.Resume?
    ensures Counts(Values(k), EventOf(k, a), Values(Apply(k, a)))
  {}

  /** To its clients the kernel is a set of counters: V adds one, and P completes by taking one that is there. */
  lemma StepValues(k: State, a: Action)
    requires Inv(k) && Enabled(k, a)
    ensures Counts(Values(k), EventOf(k, a), Values(Apply(k, a)))
  {
    forall s: nat | s < |k.sems|
      ensures k.sems[s].value >= 0
    {
      assert SemSound(k, s);
    }
    hide Inv;
    hide Values;
    hide Counts;
    match a
    case P(s) => TestPValues(k, s, k.level);
    case V(s) => VValues(k, s);
    case HandlerV(s) => VValues(k, s);
    case Resume => ResumeValues(k);
    case _ => OtherValues(k, a);
  }

  lemma ResumeValues(k: State)
    requires Enabled(k, Resume) && forall s: nat :: s < |k.sems| ==> k.sems[s].value >= 0
    ensures Counts(Values(k), EventOf(k, Resume), Values(GoOn(k)))
  {
    var r := k.threads[k.current].resumption;
    if r.InP? && r.sem < |k.sems| {
      TestPValues(RestoreUser(k), r.sem, r.level);
      assert Values(RestoreUser(k)) == Values(k);
    }
  }

  /** A thread in the loop of P, asleep or about to test the value again. */
  ghost predicate InLoop(k: State, t: Tid, s: Sid, level: IntStatus) {
    && t in k.threads && k.threads[t].resumption == InP(s, level) && s < |k.sems|
    && (k.current == t ==> k.mode != Executing)
  }

  /** The P of `t` on `s` completes in this step, and `n` is the state after it. */
  ghost predicate Takes(k: State, a: Action, n: State, t: Tid, s: Sid, level: IntStatus)
    requires Enabled(k, a)
  {
    && EventOf(k, a) == DidP(t, s) && n.current == t && n.mode == Executing && n.level == level
    && s < |k.sems| && s < |n.sems| && n.sems[s].value == k.sems[s].value - 1 && k.sems[s].value != 0
  }

  lemma PStep(k: State, s: Sid)
    requires Enabled(k, P(s))
    ensures if k.sems[s].value == 0 then
        EventOf(k, P(s)) == Quiet && InLoop(Apply(k, P(s)), k.current, s, k.level)
      else Takes(k, P(s), Apply(k, P(s)), k.current, s, k.level)
  {}

  lemma ResumeInLoop(k: State, t: Tid, s: Sid, level: IntStatus)
    requires InLoop(k, t, s, level) && Enabled(k, Resume)
    ensures if k.current == t && k.sems[s].value != 0 then Takes(k, Resume, GoOn(k), t, s, level)
      else InLoop(GoOn(k), t, s, level) && EventOf(k, Resume) != DidP(t, s)
  {}

  lemma OthersInLoop(k: State, a: Action, t: Tid, s: Sid, level: IntStatus)
    requires InLoop(k, t, s, level) && Enabled(k, a) && !a.Resume?
    ensures InLoop(Apply(k, a), t, s, level) && EventOf(k, a) != DidP(t, s)
  {}

  /** It stays in the loop until, dispatched, it finds the value positive and takes one; then the level is restored. */
  lemma LoopStep(k: State, a: Action, t: Tid, s: Sid, level: IntStatus)
    requires InLoop(k, t, s, level) && Enabled(k, a)
    ensures Takes(k, a, Apply(k, a), t, s, level)
         || (InLoop(Apply(k, a), t, s, level) && EventOf(k, a) != DidP(t, s))
  {
    hide InLoop;
    hide EventOf;
    hide Takes;
    if a.Resume? {
      ResumeInLoop(k, t, s, level);
    } else {
      OthersInLoop(k, a, t, s, level);
    }
  }

  lemma {:induction false} RunInLoop(ks: seq<State>, actions: seq<Action>, i: nat, j: nat,
                                     t: Tid, s: Sid, level: IntStatus)
    requires Run(ks, actions) && i <= j < |ks| && InLoop(ks[i], t, s, level)
    requires forall n :: i <= n <= j ==> !(ks[n].current == t && ks[n].mode == Executing)
    ensures InLoop(ks[j], t, s, level)
    decreases j
  {
    hide Apply;
    hide Enabled;
    hide EventOf;
    if i < j {
      RunInLoop(ks, actions, i, j - 1, t, s, level);
      LoopStep(ks[j - 1], actions[j - 1], t, s, level);
    }
  }

  /**
   The whole of P: called at step i, it returns at j, when its thread first goes on with its own code. However
   often it was woken and went back to sleep, it has taken one from a positive value, once, in its last step,
   and the interrupt level is that of the call.
   */
  lemma PReturns(ks: seq<State>, actions: seq<Action>, i: nat, j: nat, s: Sid)
    requires Run(ks, actions) && i < j < |ks| && actions[i] == P(s)
    requires ks[j].current == ks[i].current && ks[j].mode == Executing
    requires forall n :: i < n < j ==> !(ks[n].current == ks[i].current && ks[n].mode == Executing)
    ensures Takes(ks[j - 1], actions[j - 1], ks[j], ks[i].current, s, ks[i].level) && ks[j - 1].sems[s].value > 0
    ensures forall n :: i <= n < j - 1 ==> EventOf(ks[n], actions[n]) != DidP(ks[i].current, s)
  {
    hide Apply;
    hide Enabled;
    hide EventOf;
    var t, level := ks[i].current, ks[i].level;
    PCalled(ks, actions, i, s);
    if j > i + 1 {
      forall n | i < n < j
        ensures InLoop(ks[n], t, s, level)
        ensures n < j - 1 ==> EventOf(ks[n], actions[n]) != DidP(t, s)
      {
        RunInLoop(ks, actions, i + 1, n, t, s, level);
        LoopStep(ks[n], actions[n], t, s, level);
        assert n < j - 1 ==> !(ks[n + 1].current == t && ks[n + 1].mode == Executing);
      }
      LoopStep(ks[j - 1], actions[j - 1], t, s, level);
    }
    NotNegative(ks, actions, j - 1, s);
  }

  lemma PCalled(ks: seq<State>, actions: seq<Action>, i: nat, s: Sid)
    requires Run(ks, actions) && i < |actions| && actions[i] == P(s)
    ensures Takes(ks[i], actions[i], ks[i + 1], ks[i].current, s, ks[i].level)
         || (InLoop(ks[i + 1], ks[i].current, s, ks[i].level) && EventOf(ks[i], actions[i]) == Quiet)
  {
    PStep(ks[i], s);
  }

  lemma NotNegative(ks: seq<State>, actions: seq<Action>, i: nat, s: Sid)
    requires Run(ks, actions) && i < |ks| && s < |ks[i].sems|
    ensures ks[i].sems[s].value >= 0
  {
    hide Run;
    RunInv(ks, actions, i);
    assert SemSound(ks[i], s);
  }

  // ---- the queues of semaphores ----

  /** A V on this semaphore, by a thread or by a handler. */
  predicate IsV(a: Action, s: Sid) {
    a == V(s) || a == HandlerV(s)
  }

  /** The current thread finds the value zero: it has called P, or it has been dispatched inside P. */
  predicate FindsZero(k: State, a: Action, s: Sid)
    requires Enabled(k, a) && s < |k.sems|
  {
    k.sems[s].value == 0 && (a == P(s) || (a.Resume? && ResumesP(k, s)))
  }

  predicate ResumesP(k: State, s: Sid)
    requires k.current in k.threads
  {
    k.threads[k.current].resumption.InP? && k.threads[k.current].resumption.sem == s
  }

  /**
   In every step a queue gains the thread that goes to sleep, at its end; or loses its first thread, which is then
   last in the ready list; or stays as it is.
   */
  lemma QueueStep(k: State, a: Action, s: Sid)
    requires Enabled(k, a) && s < |k.sems|
    ensures s < |Apply(k, a).sems|
    ensures var q, n := k.sems[s].queue, Apply(k, a);
      if FindsZero(k, a, s) then n.sems[s].queue == q + [k.current] && n.mode == Sleeping && n.ready == k.ready
      else if IsV(a, s) && q != [] then n.sems[s].queue == q[1..] && n.ready == k.ready + [q[0]]
      else n.sems[s].queue == q
  {
    hide SaveUser;
    match a
    case P(r) =>
    case V(r) =>
    case HandlerV(r) =>
    case Resume => QueueResume(k, s);
    case _ => QueueOther(k, a, s);
  }

  lemma QueueResume(k: State, s: Sid)
    requires Enabled(k, Resume) && s < |k.sems|
    ensures s < |GoOn(k).sems|
    ensures if FindsZero(k, Resume, s) then
        GoOn(k).sems[s].queue == k.sems[s].queue + [k.current] && GoOn(k).mode == Sleeping && GoOn(k).ready == k.ready
      else GoOn(k).sems[s].queue == k.sems[s].queue
  {}

  lemma QueueOther(k: State, a: Action, s: Sid)
    requires Enabled(k, a) && s < |k.sems| && !a.P? && !a.V? && !a.HandlerV? && !a.Resume?
    ensures s < |Apply(k, a).sems| && Apply(k, a).sems[s].queue == k.sems[s].queue
  {}

  /** How many Vs there are on this semaphore from step i up to step j. */
  function VsBetween(actions: seq<Action>, i: nat, j: nat, s: Sid): (n: nat)
    requires i <= j <= |actions|
    ensures n <= j - i
  {
    if i == j then 0 else VsBetween(actions, i, j - 1, s) + Flag(IsV(actions[j - 1], s))
  }

  /** A waiting thread moves up one place with each V. */
  lemma {:induction false} RunQueue(ks: seq<State>, actions: seq<Action>, i: nat, j: nat, s: Sid, p: nat)
    requires Run(ks, actions) && i <= j <= |actions| && s < |ks[i].sems| && p < |ks[i].sems[s].queue|
    requires VsBetween(actions, i, j, s) <= p
    ensures s < |ks[j].sems| && p - VsBetween(actions, i, j, s) < |ks[j].sems[s].queue|
    ensures ks[j].sems[s].queue[p - VsBetween(actions, i, j, s)] == ks[i].sems[s].queue[p]
    decreases j
  {
    hide Apply;
    hide Enabled;
    if i < j {
      RunQueue(ks, actions, i, j - 1, s, p);
      QueueStep(ks[j - 1], actions[j - 1], s);
    }
  }

  /** A thread at position p of a semaphore's queue is readied by exactly the (p+1)th V from then on. */
  lemma FifoWakeup(ks: seq<State>, actions: seq<Action>, i: nat, j: nat, s: Sid, p: nat)
    requires Run(ks, actions) && i <= j < |actions| && s < |ks[i].sems| && p < |ks[i].sems[s].queue|
    ensures VsBetween(actions, i, j, s) < p || (VsBetween(actions, i, j, s) == p && !IsV(actions[j], s)) ==>
      s < |ks[j + 1].sems| && ks[i].sems[s].queue[p] in ks[j + 1].sems[s].queue
    ensures VsBetween(actions, i, j, s) == p && IsV(actions[j], s) ==>
      && ks[j + 1].ready == ks[j].ready + [ks[i].sems[s].queue[p]]
      && s < |ks[j + 1].sems| && ks[j + 1].sems[s].queue == ks[j].sems[s].queue[1..]
  {
    hide Apply;
    hide Enabled;
    var n := VsBetween(actions, i, j, s);
    if n <= p {
      RunQueue(ks, actions, i, j, s, p);
      QueueStep(ks[j], actions[j], s);
      if n < p || !IsV(actions[j], s) {
        RunQueue(ks, actions, i, j + 1, s, p);
      }
    }
  }

  // ---- coming back from Yield, and starting ----

  /** A thread that has yielded, or has not run yet, and goes on with `r`. */
  ghost predicate Away(k: State, t: Tid, r: Resumption) {
    && !r.InP? && t in k.threads && k.threads[t].resumption == r
    && (k.current == t ==> k.mode == Returning)
  }

  function LevelOf(r: Resumption): IntStatus {
    if r.InYield? then r.level else IntOn
  }

  lemma AwayStep(k: State, a: Action, t: Tid, r: Resumption)
    requires Away(k, t, r) && Enabled(k, a)
    ensures var n := Apply(k, a);
      if a.Resume? && k.current == t then n.current == t && n.mode == Executing && n.level == LevelOf(r)
      else Away(n, t, r)
  {}

  lemma {:induction false} RunAway(ks: seq<State>, actions: seq<Action>, i: nat, j: nat, t: Tid, r: Resumption)
    requires Run(ks, actions) && i < j < |ks| && Away(ks[i], t, r)
    requires ks[j].current == t && ks[j].mode == Executing
    requires forall n :: i < n < j ==> !(ks[n].current == t && ks[n].mode == Executing)
    ensures actions[j - 1] == Resume && ks[j].level == LevelOf(r)
    decreases j - i
  {
    hide Apply;
    hide Enabled;
    AwayStep(ks[i], actions[i], t, r);
    if j > i + 1 {
      RunAway(ks, actions, i + 1, j, t, r);
    }
  }

  lemma YieldLeaves(k: State)
    requires Inv(k) && Enabled(k, Yield)
    ensures if k.ready == [] then Apply(k, Yield) == k else Away(Apply(k, Yield), k.current, InYield(k.level))
  {
    hide StatusSound;
    hide SemsSound;
    hide WaitersSound;
    hide SpacesSound;
    if k.ready != [] {
      ReadyOnce(k, k.ready[0]);
    }
  }

  /** The whole of Yield: at once if nobody is ready, else when next dispatched, at the interrupt level of the call. */
  lemma YieldReturns(ks: seq<State>, actions: seq<Action>, i: nat, j: nat)
    requires Run(ks, actions) && i < j < |ks| && actions[i] == Yield
    requires ks[j].current == ks[i].current && ks[j].mode == Executing
    requires forall n :: i < n < j ==> !(ks[n].current == ks[i].current && ks[n].mode == Executing)
    ensures ks[j].level == ks[i].level
    ensures if ks[i].ready == [] then j == i + 1 && ks[j] == ks[i] else actions[j - 1] == Resume
  {
    hide Inv;
    RunInv(ks, actions, i);
    YieldLeaves(ks[i]);
    if ks[i].ready != [] {
      RunAway(ks, actions, i + 1, j, ks[i].current, InYield(ks[i].level));
    } else {
      assert ks[i + 1] == ks[i];
    }
  }

  lemma ForkedAway(k: State, t: Tid)
    requires Inv(k) && Enabled(k, Fork(t))
    ensures Away(Apply(k, Fork(t)), t, Fresh)
  {
    hide StatusSound;
    hide SemsSound;
    hide WaitersSound;
    UnforkedOnce(k, t);
  }

  /** A forked thread starts when it is first dispatched, with interrupts on. */
  lemma ForkStarts(ks: seq<State>, actions: seq<Action>, i: nat, j: nat, t: Tid)
    requires Run(ks, actions) && i < j < |ks| && actions[i] == Fork(t)
    requires ks[j].current == t && ks[j].mode == Executing
    requires forall n :: i < n < j ==> !(ks[n].current == t && ks[n].mode == Executing)
    ensures actions[j - 1] == Resume && ks[j].level == IntOn
  {
    hide Inv;
    RunInv(ks, actions, i);
    ForkedAway(ks[i], t);
    RunAway(ks, actions, i + 1, j, t, Fresh);
  }

  // ---- first in, first out ----

  function Dispatched(switches: seq<Switch>): (r: seq<Tid>)
    ensures |r| == |switches|
  {
    if switches == [] then [] else Dispatched(switches[..|switches| - 1]) + [switches[|switches| - 1].to]
  }

  /** The dispatches made, then the threads in line. */
  function Line(k: State): seq<Tid> {
    Dispatched(k.switches) + k.ready
  }

  lemma SwitchLine(k: State)
    requires k.ready != []
    ensures Line(SwitchToNext(k)) == Line(k)
  {
    var n := SwitchToNext(k);
    assert n.switches[..|n.switches| - 1] == k.switches;
    assert k.ready == [k.ready[0]] + k.ready[1..];
  }

  /** The threads a step makes ready: one that is forked, the first one a V finds waiting, or one that yields. */
  function Newcomers(k: State, a: Action): seq<Tid>
    requires Enabled(k, a)
  {
    match a
    case Fork(t) => [t]
    case V(s) => if k.sems[s].queue == [] then [] else [k.sems[s].queue[0]]
    case HandlerV(s) => if k.sems[s].queue == [] then [] else [k.sems[s].queue[0]]
    case Yield => if k.ready == [] then [] else [k.current]
    case _ => []
  }

  /** The line grows at its end, by just these: nobody is passed over and nobody pushes in. */
  lemma StepLine(k: State, a: Action)
    requires Enabled(k, a)
    ensures Line(Apply(k, a)) == Line(k) + Newcomers(k, a)
  {
    hide Dispatched;
    if a.Dispatch? {
      SwitchLine(k);
    } else if a.Yield? && k.ready != [] {
      var off := k.(level := IntOff, threads := WithResumption(k.threads, k.current, InYield(k.level)));
      SwitchLine(ReadyToRun(off, k.current));
      assert Line(ReadyToRun(off, k.current)) == Line(k) + [k.current];
    }
  }

  lemma {:induction false} RunLine(ks: seq<State>, actions: seq<Action>, i: nat, j: nat)
    requires Run(ks, actions) && i <= j < |ks|
    ensures Line(ks[i]) <= Line(ks[j])
    decreases j
  {
    hide Line;
    if i < j {
      RunLine(ks, actions, i, j - 1);
      StepLine(ks[j - 1], actions[j - 1]);
    }
  }

  /** A thread at position p of the ready list is the (p+1)th to be dispatched from then on. */
  lemma FifoDispatch(ks: seq<State>, actions: seq<Action>, i: nat, j: nat, p: nat)
    requires Run(ks, actions) && i <= j < |ks| && p < |ks[i].ready|
    requires |ks[j].switches| > |ks[i].switches| + p
    ensures Dispatched(ks[j].switches)[|ks[i].switches| + p] == ks[i].ready[p]
  {
    RunLine(ks, actions, i, j);
    var at := |ks[i].switches| + p;
    assert Line(ks[i])[at] == ks[i].ready[p];
    assert Line(ks[j])[at] == Line(ks[i])[at];
  }

  // ---- the interrupt level, and the machine registers ----

  /**
   Only SetLevel changes the level a thread runs at: every other operation leaves it as it was, or leaves with
   interrupts off and another thread to go on.
   */
  lemma StepLevel(k: State, a: Action)
    requires Inv(k) && Enabled(k, a)
    ensures a.SetLevel? ==> Apply(k, a) == k.(level := a.level)
    ensures !a.SetLevel? && !a.Resume? ==>
      var n := Apply(k, a);
      if n.mode == Executing then n.level == k.level && n.current == k.current && k.mode == Executing
      else n.level == IntOff && (n.mode == Sleeping ==> n.current == k.current)
  {
    hide OnePlace;
    hide SemsSound;
    hide StatusSound;
    hide WaitersSound;
    hide SpacesSound;
    hide SaveUser;
    hide WithStatus;
    hide WithResumption;
  }

  /**
   The machine changes only when the thread that runs computes or becomes a user process, and when a user thread
   comes back: that one gets its own saved registers and page table.
   */
  lemma StepMachine(k: State, a: Action)
    requires Enabled(k, a)
    ensures var m := Apply(k, a).machine;
      match a
      case Compute(r) => m.registers == r && m.pageTable == k.machine.pageTable
      case StartProcess(p, r) => m.registers == r && m.pageTable == Some(p)
      case Resume =>
        var t := k.threads[k.current];
        if t.space.Some? && (t.resumption.InYield? || (t.resumption.InP? && t.resumption.sem < |k.sems|)) then
          m.registers == t.userRegisters && m.pageTable == t.space
        else m == k.machine
      case _ => m == k.machine
  {
    hide SaveUser;
    hide WithStatus;
    hide WithResumption;
  }

  // ---- context switches ----

  /** The step takes the processor away from the current thread. */
  predicate SwitchesOut(k: State, a: Action) {
    k.ready != [] && (a.Dispatch? || a.Yield?)
  }

  /** While a thread is out, its saved registers and its address space stay as they are, and it cannot run. */
  ghost predicate Out(k: State, t: Tid, registers: Registers, space: nat) {
    && t in k.threads && k.threads[t].userRegisters == registers && k.threads[t].space == Some(space)
    && (k.current == t ==> k.mode == Returning)
  }

  lemma SwitchOut(k: State, a: Action)
    requires Inv(k) && Enabled(k, a) && SwitchesOut(k, a) && k.threads[k.current].space.Some?
    ensures Out(Apply(k, a), k.current, k.machine.registers, k.threads[k.current].space.value)
    ensures k.machine.pageTable == k.threads[k.current].space
  {
    hide OnePlace;
    hide SemsSound;
    hide WaitersSound;
    hide StatusSound;
  }

  lemma StaysOut(k: State, a: Action, t: Tid, registers: Registers, space: nat)
    requires Inv(k) && Enabled(k, a) && Out(k, t, registers, space)
    requires !(a.Resume? && k.current == t)
    ensures Out(Apply(k, a), t, registers, space)
  {
    hide OnePlace;
    hide SemsSound;
    hide WaitersSound;
    hide StatusSound;
    hide SpacesSound;
  }

  lemma ComesBack(k: State, t: Tid, registers: Registers, space: nat)
    requires Inv(k) && k.mode == Returning && k.current == t && Out(k, t, registers, space)
    ensures GoOn(k).machine == Machine(registers, Some(space))
  {
    hide OnePlace;
    hide SemsSound;
    hide StatusSound;
  }

  lemma {:induction false} RunStaysOut(ks: seq<State>, actions: seq<Action>, i: nat, j: nat, t: Tid)
    requires Run(ks, actions) && i < j < |ks| && t == ks[i].current
    requires SwitchesOut(ks[i], actions[i]) && ks[i].threads[t].space.Some?
    requires forall n :: i < n < j && ks[n].current == t ==> !actions[n].Resume?
    ensures Out(ks[j], t, ks[i].machine.registers, ks[i].threads[t].space.value)
    decreases j
  {
    hide Inv;
    hide Out;
    RunInv(ks, actions, j - 1);
    if j == i + 1 {
      SwitchOut(ks[i], actions[i]);
    } else {
      RunStaysOut(ks, actions, i, j - 1, t);
      StaysOut(ks[j - 1], actions[j - 1], t, ks[i].machine.registers, ks[i].threads[t].space.value);
    }
  }

  /**
   Whatever runs in between, a user thread that was switched out at step i and next goes on at step j finds the
   machine registers and the page table it left.
   */
  lemma ContextPreserved(ks: seq<State>, actions: seq<Action>, i: nat, j: nat)
    requires Run(ks, actions) && i < j < |actions|
    requires SwitchesOut(ks[i], actions[i])
    requires ks[i].current in ks[i].threads && ks[i].threads[ks[i].current].space.Some?
    requires ks[j].current == ks[i].current && actions[j].Resume?
    requires forall n :: i < n < j && ks[n].current == ks[i].current ==> !actions[n].Resume?
    ensures ks[j + 1].machine == ks[i].machine
  {
    var t := ks[i].current;
    RunInv(ks, actions, i);
    RunInv(ks, actions, j);
    SwitchOut(ks[i], actions[i]);
    RunStaysOut(ks, actions, i, j, t);
    ComesBack(ks[j], t, ks[i].machine.registers, ks[i].threads[t].space.value);
  }
}
