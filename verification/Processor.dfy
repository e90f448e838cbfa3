/**
 The processor, the scheduler and the semaphores as objects that their operations update in place
 (threads/thread.cc, threads/scheduler.cc, threads/synch.cc). Each operation, statement by statement, does what
 the step of the kernel says, up to the SWITCH that gives the processor to another thread.
 */
module Processors {
  import opened Kernel
  import opened Levels
  import opened KernelInvariant

  lemma ReadyThere(k: State)
    requires Inv(k)
    ensures k.ready != [] ==> k.ready[0] in k.threads
  {
    if k.ready != [] {
      ReadyOnce(k, k.ready[0]);
    }
  }

  lemma QueuedThere(k: State, s: Sid)
    requires Inv(k) && s < |k.sems|
    ensures k.sems[s].queue != [] ==> k.sems[s].queue[0] in k.threads
  {
    if k.sems[s].queue != [] {
      assert WaitsOn(k.threads, k.sems[s].queue[0], s);
    }
  }

  lemma UnforkedThere(k: State, t: Tid)
    requires Inv(k) && t in k.unforked
    ensures t in k.threads
  {
    assert Places(k, t) == Flag(t in k.threads);
  }

  lemma ResumingOff(k: State)
    requires Inv(k) && k.mode == Returning
    ensures k.level == IntOff
    ensures k.threads[k.current].resumption.InP? ==> k.threads[k.current].resumption.sem < |k.sems|
  {}

  class Processor {
    var currentThread: Tid
    var level: IntStatus
    var readyList: seq<Tid>
    var semaphores: seq<Semaphore>
    var threads: map<Tid, Thread>
    var machine: Machine
    // Not in the source: what the current thread is in the middle of, and what has happened.
    ghost var mode: Mode
    ghost var unforked: set<Tid>
    ghost var finished: set<Tid>
    ghost var switches: seq<Switch>

    ghost function View(): State
      reads this
    {
      State(currentThread, mode, level, readyList, semaphores, threads, unforked, finished, switches, machine)
    }

    method SetLevel(now: IntStatus) returns (was: IntStatus)
      modifies this`level
      ensures was == old(level) && level == now
    {
      was := level;
      level := now;
    }

    method SetStatus(t: Tid, status: Status)
      requires t in threads
      modifies this`threads
      ensures threads == WithStatus(old(threads), t, status)
    {
      threads := threads[t := threads[t].(status := status)];
    }

    method ReadyToRun(t: Tid)
      requires t in threads
      modifies this`threads, this`readyList
      ensures View() == Kernel.ReadyToRun(old(View()), t)
    {
      SetStatus(t, Ready);
      readyList := readyList + [t];
    }

    method FindNextToRun() returns (next: Option<Tid>)
      modifies this`readyList
      ensures if old(readyList) == [] then next == None && readyList == []
              else next == Some(old(readyList)[0]) && readyList == old(readyList)[1..]
    {
      if readyList == [] {
        return None;
      }
      next := Some(readyList[0]);
      readyList := readyList[1..];
    }

    method SaveUserState()
      requires currentThread in threads
      modifies this`threads
      ensures threads == old(threads)[currentThread := old(threads)[currentThread].(userRegisters := machine.registers)]
    {
      threads := threads[currentThread := threads[currentThread].(userRegisters := machine.registers)];
    }

    /** The thread chosen has left the ready list already; putting it back in front gives the state before. */
    method Run(next: Tid)
      requires currentThread in threads && next in threads
      modifies this`threads, this`currentThread, this`mode, this`switches
      ensures View() == SwitchToNext(old(View().(ready := [next] + readyList)))
    {
      if threads[currentThread].space.Some? {
        SaveUserState();
      }
      currentThread := next;
      SetStatus(currentThread, Running);
      mode := Returning;
      switches := switches + [Switch(next, level)];
    }

    method Fork(t: Tid)
      requires Inv(View()) && Enabled(View(), Kernel.Fork(t))
      modifies this
      ensures Inv(View()) && View() == Apply(old(View()), Kernel.Fork(t))
    {
      hide Inv;
      StepInv(View(), Kernel.Fork(t));
      UnforkedThere(View(), t);
      var oldLevel := SetLevel(IntOff);
      unforked := unforked - {t};
      ReadyToRun(t);
      var _ := SetLevel(oldLevel);
    }

    /** Nothing happens if nobody is ready; otherwise the rest of Yield runs when this thread is dispatched again. */
    method Yield()
      requires Inv(View()) && Enabled(View(), Kernel.Yield)
      modifies this
      ensures Inv(View()) && View() == Apply(old(View()), Kernel.Yield)
    {
      hide Inv;
      StepInv(View(), Kernel.Yield);
      ReadyThere(View());
      var oldLevel := SetLevel(IntOff);
      var next := FindNextToRun();
      if next.Some? {
        threads := WithResumption(threads, currentThread, InYield(oldLevel));
        ReadyToRun(currentThread);
        assert [next.value] + readyList == old(readyList) + [currentThread];
        Run(next.value);
      } else {
        var _ := SetLevel(oldLevel);
      }
    }

    /** Sleep, up to its loop. */
    method Sleep()
      requires currentThread in threads && level == IntOff
      modifies this`threads, this`mode
      ensures View() == Kernel.Sleep(old(View()))
    {
      SetStatus(currentThread, Blocked);
      mode := Sleeping;
    }

    /** The loop of Sleep, once round: run the first ready thread, or else idle. */
    method SleepLoop() returns (idle: bool)
      requires Inv(View()) && currentThread in threads && mode == Sleeping
      modifies this
      ensures Inv(View())
      ensures idle == (old(readyList) == [])
      ensures View() == if idle then old(View()) else Apply(old(View()), Dispatch)
    {
      hide Inv;
      if readyList != [] {
        StepInv(View(), Dispatch);
        ReadyThere(View());
      }
      var next := FindNextToRun();
      if next.None? {
        return true;
      }
      assert [next.value] + readyList == old(readyList);
      Run(next.value);
      idle := false;
    }

    method Finish()
      requires Inv(View()) && Enabled(View(), Kernel.Finish)
      modifies this
      ensures Inv(View()) && View() == Apply(old(View()), Kernel.Finish)
    {
      hide Inv;
      StepInv(View(), Kernel.Finish);
      var _ := SetLevel(IntOff);
      finished := finished + {currentThread};
      Sleep();
    }

    /** The loop of P, once round, with interrupts off; the level is restored only on the way out. */
    method TestValue(s: Sid, oldLevel: IntStatus)
      requires s < |semaphores| && currentThread in threads && level == IntOff
      modifies this
      ensures View() == TestP(old(View()), s, oldLevel)
    {
      var sem := semaphores[s];
      if sem.value == 0 {
        semaphores := semaphores[s := sem.(queue := sem.queue + [currentThread])];
        threads := WithResumption(threads, currentThread, InP(s, oldLevel));
        Sleep();
      } else {
        semaphores := semaphores[s := sem.(value := sem.value - 1, ps := sem.ps + 1)];
        mode := Executing;
        var _ := SetLevel(oldLevel);
      }
    }

    method P(s: Sid)
      requires Inv(View()) && Enabled(View(), Kernel.P(s))
      modifies this
      ensures Inv(View()) && View() == Apply(old(View()), Kernel.P(s))
    {
      hide Inv;
      StepInv(View(), Kernel.P(s));
      var oldLevel := SetLevel(IntOff);
      TestValue(s, oldLevel);
    }

    method V(s: Sid)
      requires Inv(View()) && Enabled(View(), Kernel.V(s))
      modifies this
      ensures Inv(View()) && View() == Apply(old(View()), Kernel.V(s))
    {
      hide Inv;
      StepInv(View(), Kernel.V(s));
      QueuedThere(View(), s);
      var oldLevel := SetLevel(IntOff);
      var sem := semaphores[s];
      if sem.queue != [] {
        var thread := sem.queue[0];
        sem := sem.(queue := sem.queue[1..]);
        ReadyToRun(thread);
      }
      semaphores := semaphores[s := sem.(value := sem.value + 1, vs := sem.vs + 1)];
      var _ := SetLevel(oldLevel);
    }

    /** What comes after SWITCH: the tail of Run and of the operation that had switched, or ThreadRoot. */
    method Resume()
      requires Inv(View()) && Enabled(View(), Kernel.Resume)
      modifies this
      ensures Inv(View()) && View() == Apply(old(View()), Kernel.Resume)
    {
      hide Inv;
      StepInv(View(), Kernel.Resume);
      ResumingOff(View());
      var resumption := threads[currentThread].resumption;
      if resumption.Fresh? {
        var _ := SetLevel(IntOn);
        mode := Executing;
        return;
      }
      if threads[currentThread].space.Some? {
        machine := Machine(threads[currentThread].userRegisters, threads[currentThread].space);
      }
      match resumption {
        case InYield(oldLevel) =>
          var _ := SetLevel(oldLevel);
          mode := Executing;
        case InP(s, oldLevel) =>
          TestValue(s, oldLevel);
      }
    }
  }
}
