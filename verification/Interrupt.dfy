/** Simulated time and the queue of pending interrupts (machine/interrupt.cc). */
module Interrupts {
  import opened Levels
  import opened Lists

  const SYSTEM_TICK := 10
  const USER_TICK := 1

  datatype MachineStatus = IdleMode | SystemMode | UserMode
  datatype IntType = TimerInt | DiskInt | ConsoleWriteInt | ConsoleReadInt | NetworkSendInt | NetworkRecvInt

  /** One call of Schedule: the calls are numbered, so that no two are the same. */
  datatype PendingInterrupt = PendingInterrupt(number: nat, when: int, kind: IntType)

  /** An interrupt, and the time its handler was called. */
  datatype Firing = Firing(interrupt: PendingInterrupt, at: int)

  /** All a handler can do to this module: schedule further interrupts, and ask for a context switch. */
  datatype Effect = Effect(requests: seq<(int, IntType)>, preempts: bool)

  type Queue = seq<(PendingInterrupt, int)>

  /** How far the clock goes in one tick of the kernel or of a user program. */
  function Tick(status: MachineStatus): int {
    if status == SystemMode then SYSTEM_TICK else USER_TICK
  }

  // ---- the queue ----

  /** Sorted by due time, and nothing due before `floor`. */
  ghost predicate InOrder(q: Queue, floor: int) {
    Sorted(q) && forall x :: x in q ==> x.1 == x.0.when && floor <= x.1
  }

  ghost function Items(q: Queue): multiset<PendingInterrupt> {
    if q == [] then multiset{} else multiset{q[0].0} + Items(q[1..])
  }

  /** How many entries are due. */
  ghost function Due(q: Queue, now: int): nat {
    if q == [] then 0 else (if q[0].1 <= now then 1 else 0) + Due(q[1..], now)
  }

  lemma {:induction false} InsertCounts(q: Queue, p: PendingInterrupt, key: int, now: int)
    ensures Items(Insert(q, p, key)) == Items(q) + multiset{p}
    ensures Due(Insert(q, p, key), now) == Due(q, now) + if key <= now then 1 else 0
  {
    var r := Insert(q, p, key);
    if q == [] || key < q[0].1 {
      assert r[1..] == q;
    } else {
      InsertCounts(q[1..], p, key, now);
      assert r[1..] == Insert(q[1..], p, key);
    }
  }

  lemma InsertInOrder(q: Queue, p: PendingInterrupt, floor: int)
    requires InOrder(q, floor) && floor <= p.when
    ensures InOrder(Insert(q, p, p.when), floor)
  {
    InsertSorted(q, p, p.when);
    InsertMultiset(q, p, p.when);
    forall x | x in Insert(q, p, p.when)
      ensures x in q || x == (p, p.when)
    {
      assert x in multiset(Insert(q, p, p.when));
    }
  }

  /** The head is the earliest, so when it is not due nothing is. */
  lemma {:induction false} NothingDue(q: Queue, now: int)
    requires Sorted(q) && (q == [] || now < q[0].1)
    ensures Due(q, now) == 0
  {
    if q != [] {
      NothingDue(q[1..], now);
    }
  }

  lemma {:induction false} NothingDueIff(q: Queue, now: int)
    ensures Due(q, now) == 0 <==> forall x :: x in q ==> now < x.1
  {
    if q != [] {
      NothingDueIff(q[1..], now);
      assert forall x :: x in q <==> x == q[0] || x in q[1..];
    }
  }

  // ---- what has fired ----

  ghost function FiredItems(fired: seq<Firing>): multiset<PendingInterrupt> {
    if fired == [] then multiset{} else FiredItems(fired[..|fired| - 1]) + multiset{fired[|fired| - 1].interrupt}
  }

  ghost function LastDue(fired: seq<Firing>): int {
    if fired == [] then 0 else fired[|fired| - 1].interrupt.when
  }

  /** No handler ran early, and due times never go down. */
  ghost predicate FiredInOrder(fired: seq<Firing>, now: int) {
    && (forall i :: 0 <= i < |fired| ==> 0 <= fired[i].interrupt.when <= fired[i].at <= now)
    && (forall i, j :: 0 <= i < j < |fired| ==>
          fired[i].interrupt.when <= fired[j].interrupt.when && fired[i].at <= fired[j].at)
  }

  lemma FiredOneMore(fired: seq<Firing>, p: PendingInterrupt, before: int, now: int)
    requires FiredInOrder(fired, before) && before <= now
    requires 0 <= p.when <= now && LastDue(fired) <= p.when
    ensures FiredInOrder(fired + [Firing(p, now)], now)
    ensures LastDue(fired + [Firing(p, now)]) == p.when
    ensures FiredItems(fired + [Firing(p, now)]) == FiredItems(fired) + multiset{p}
  {
    assert (fired + [Firing(p, now)])[..|fired|] == fired;
  }

  ghost predicate Numbered(scheduled: seq<PendingInterrupt>) {
    forall i :: 0 <= i < |scheduled| ==> scheduled[i].number == i
  }

  /** Every interrupt ever scheduled is pending or has fired, and not both, and not twice. */
  ghost predicate Conserved(scheduled: seq<PendingInterrupt>, q: Queue, fired: seq<Firing>) {
    Items(q) + FiredItems(fired) == multiset(scheduled)
  }

  /** With the calls numbered, conservation means exactly once. */
  lemma ExactlyOnce(scheduled: seq<PendingInterrupt>, q: Queue, fired: seq<Firing>, p: PendingInterrupt)
    requires Numbered(scheduled) && Conserved(scheduled, q, fired)
    ensures Items(q)[p] + FiredItems(fired)[p] == if p in scheduled then 1 else 0
  {
    NumberedOnce(scheduled, p);
    assert (Items(q) + FiredItems(fired))[p] == multiset(scheduled)[p];
  }

  lemma {:induction false} NumberedOnce(scheduled: seq<PendingInterrupt>, p: PendingInterrupt)
    requires Numbered(scheduled)
    ensures multiset(scheduled)[p] == if p in scheduled then 1 else 0
  {
    if scheduled != [] {
      var init := scheduled[..|scheduled| - 1];
      NumberedOnce(init, p);
      assert scheduled == init + [scheduled[|scheduled| - 1]];
    }
  }

  /** `q` is in order, and together with what has fired it is everything that was scheduled. */
  ghost predicate Accounted(scheduled: seq<PendingInterrupt>, q: Queue, fired: seq<Firing>, now: int) {
    && InOrder(q, LastDue(fired))
    && FiredInOrder(fired, now)
    && Numbered(scheduled)
    && Conserved(scheduled, q, fired)
    && 0 <= LastDue(fired) <= now
  }

  lemma AccountedLater(scheduled: seq<PendingInterrupt>, q: Queue, fired: seq<Firing>, now: int, later: int)
    requires Accounted(scheduled, q, fired, now) && now <= later
    ensures Accounted(scheduled, q, fired, later)
  {}

  lemma {:induction false} AccountedSchedule(scheduled: seq<PendingInterrupt>, q: Queue, fired: seq<Firing>, now: int,
                                             p: PendingInterrupt)
    requires Accounted(scheduled, q, fired, now) && p.number == |scheduled| && p.when > now
    ensures Accounted(scheduled + [p], Insert(q, p, p.when), fired, now)
    ensures Due(Insert(q, p, p.when), now) == Due(q, now)
  {
    InsertInOrder(q, p, LastDue(fired));
    InsertCounts(q, p, p.when, now);
  }

  /** Taking the first entry off and putting it back keeps everything but the order among equal times. */
  lemma AccountedPutBack(scheduled: seq<PendingInterrupt>, q: Queue, fired: seq<Firing>, now: int)
    requires Accounted(scheduled, q, fired, now) && q != []
    ensures var r := Insert(q[1..], q[0].0, q[0].1);
      Accounted(scheduled, r, fired, now) && Due(r, now) == Due(q, now)
  {
    var rest := q[1..];
    assert q[0] in q;
    InsertInOrder(rest, q[0].0, LastDue(fired));
    InsertCounts(rest, q[0].0, q[0].1, now);
  }

  lemma TailInOrder(q: Queue, floor: int)
    requires InOrder(q, floor) && q != []
    ensures InOrder(q[1..], q[0].0.when) && floor <= q[0].0.when == q[0].1
  {
    assert q[0] in q;
    forall x | x in q[1..]
      ensures q[0].0.when <= x.1
    {
      var i :| 0 <= i < |q[1..]| && q[1..][i] == x;
      assert q[i + 1] == x;
    }
  }

  lemma FireConserved(scheduled: seq<PendingInterrupt>, q: Queue, fired: seq<Firing>, now: int)
    requires Conserved(scheduled, q, fired) && q != []
    ensures Conserved(scheduled, q[1..], fired + [Firing(q[0].0, now)])
  {
    assert (fired + [Firing(q[0].0, now)])[..|fired|] == fired;
  }

  lemma AccountedFire(scheduled: seq<PendingInterrupt>, q: Queue, fired: seq<Firing>, now: int)
    requires Accounted(scheduled, q, fired, now) && q != [] && q[0].1 <= now
    ensures Accounted(scheduled, q[1..], fired + [Firing(q[0].0, now)], now)
    ensures Due(q[1..], now) == Due(q, now) - 1
  {
    hide Conserved;
    hide InOrder;
    hide FiredInOrder;
    hide LastDue;
    hide FiredItems;
    TailInOrder(q, LastDue(fired));
    FiredOneMore(fired, q[0].0, now, now);
    FireConserved(scheduled, q, fired, now);
  }

  lemma AccountedFirst(scheduled: seq<PendingInterrupt>, q: Queue, fired: seq<Firing>, now: int)
    requires Accounted(scheduled, q, fired, now)
    ensures q == [] || now < q[0].1 ==> Due(q, now) == 0
    ensures Due(q, now) == 0 ==> forall x :: x in q ==> now < x.0.when
  {
    if q == [] || now < q[0].1 {
      NothingDue(q, now);
    }
    NothingDueIff(q, now);
  }

  /** What has been scheduled after a handler, called at `now`, has made its requests. */
  function WithRequests(scheduled: seq<PendingInterrupt>, requests: seq<(int, IntType)>, now: int)
    : (r: seq<PendingInterrupt>)
    ensures scheduled <= r
  {
    if requests == [] then scheduled
    else
      var n, last := |requests| - 1, requests[|requests| - 1];
      var most := WithRequests(scheduled, requests[..n], now);
      most + [PendingInterrupt(|most|, now + last.0, last.1)]
  }

  /** The interrupt hardware. Its pending list is the sorted list of Lists.List, as a sequence. */
  class Interrupt {
    var level: IntStatus
    var pending: Queue
    var inHandler: bool
    var yieldOnReturn: bool
    var status: MachineStatus

    var totalTicks: int
    var idleTicks: int
    var systemTicks: int
    var userTicks: int

    /** What the handlers do, in the order in which they are called. */
    const script: nat -> Effect
    var handled: nat
    /** How often Schedule has been called. */
    var calls: nat

    ghost var scheduled: seq<PendingInterrupt>
    ghost var fired: seq<Firing>

    ghost predicate Valid()
      reads this
    {
      && Accounted(scheduled, pending, fired, totalTicks)
      && handled == |fired| && calls == |scheduled|
      && totalTicks == idleTicks + systemTicks + userTicks
      && (forall n: nat, i :: 0 <= i < |script(n).requests| ==> script(n).requests[i].0 > 0)
    }

    constructor (script: nat -> Effect)
      requires forall n: nat, i :: 0 <= i < |script(n).requests| ==> script(n).requests[i].0 > 0
      ensures Valid() && pending == [] && level == IntOff && status == SystemMode && !inHandler && !yieldOnReturn
      ensures totalTicks == 0 && idleTicks == 0 && systemTicks == 0 && userTicks == 0 && fired == [] && scheduled == []
      ensures this.script == script
    {
      level, inHandler, yieldOnReturn, status := IntOff, false, false, SystemMode;
      totalTicks, idleTicks, systemTicks, userTicks := 0, 0, 0, 0;
      pending := [];
      this.script := script;
      handled, calls, scheduled, fired := 0, 0, [], [];
    }

    method Schedule(fromNow: int, kind: IntType)
      requires Valid() && fromNow > 0
      modifies this`pending, this`scheduled, this`calls
      ensures Valid()
      ensures scheduled == old(scheduled) + [PendingInterrupt(|old(scheduled)|, totalTicks + fromNow, kind)]
      ensures Due(pending, totalTicks) == Due(old(pending), totalTicks)
    {
      hide Accounted;
      hide Due;
      var toOccur := PendingInterrupt(calls, totalTicks + fromNow, kind);
      AccountedSchedule(scheduled, pending, fired, totalTicks, toOccur);
      pending := Insert(pending, toOccur, toOccur.when);
      scheduled := scheduled + [toOccur];
      calls := calls + 1;
    }

    /** A handler: interrupts stay off, and time stands still. */
    method CallHandler()
      requires Valid() && level == IntOff && inHandler && status == SystemMode && handled > 0
      modifies this`pending, this`scheduled, this`calls, this`yieldOnReturn
      ensures Valid()
      ensures scheduled == WithRequests(old(scheduled), script(handled - 1).requests, totalTicks)
      ensures yieldOnReturn == (old(yieldOnReturn) || script(handled - 1).preempts)
      ensures Due(pending, totalTicks) == Due(old(pending), totalTicks)
    {
      hide Accounted;
      hide Due;
      var effect := script(handled - 1);
      assert effect.requests[..|effect.requests|] == effect.requests;
      for i := 0 to |effect.requests|
        invariant Valid() && yieldOnReturn == old(yieldOnReturn)
        invariant scheduled == WithRequests(old(scheduled), effect.requests[..i], totalTicks)
        invariant Due(pending, totalTicks) == Due(old(pending), totalTicks)
      {
        assert effect.requests[..i + 1][..i] == effect.requests[..i];
        Schedule(effect.requests[i].0, effect.requests[i].1);
      }
      if effect.preempts {
        yieldOnReturn := true;
      }
    }

    /** One of the handlers called since `from` had been called asked for a context switch. */
    ghost predicate Preempted(from: nat)
      reads this
    {
      exists n :: from <= n < |fired| && script(n).preempts
    }

    /** Only the timer is left, while idling: not worth firing. */
    ghost predicate OnlyTimer()
      reads this
    {
      status == IdleMode && |pending| == 1 && pending[0].0.kind == TimerInt
    }

    /** Fires the earliest interrupt if it is due, or if the clock may be advanced to it. */
    method CheckIfDue(advanceClock: bool) returns (any: bool)
      requires Valid() && level == IntOff && !inHandler
      modifies this
      ensures Valid() && level == IntOff && !inHandler && status == old(status)
      ensures systemTicks == old(systemTicks) && userTicks == old(userTicks)
      ensures totalTicks ==
        if advanceClock && old(pending) != [] && old(pending)[0].1 > old(totalTicks) then old(pending)[0].1
        else old(totalTicks)
      ensures any ==>
        && old(pending) != [] && fired == old(fired) + [Firing(old(pending)[0].0, totalTicks)]
        && scheduled == WithRequests(old(scheduled), script(|old(fired)|).requests, totalTicks)
        && yieldOnReturn == (old(yieldOnReturn) || script(|old(fired)|).preempts)
      ensures any && !advanceClock ==> Due(pending, totalTicks) < Due(old(pending), totalTicks)
      ensures !any ==> fired == old(fired) && scheduled == old(scheduled) && yieldOnReturn == old(yieldOnReturn)
      ensures !any && !advanceClock ==> Due(pending, totalTicks) == 0 || OnlyTimer()
      ensures advanceClock ==> (any <==> old(pending) != [] && !old(OnlyTimer()))
    {
      hide Accounted;
      hide Due;
      AccountedFirst(scheduled, pending, fired, totalTicks);
      if pending == [] {
        return false;
      }
      var toOccur, when := pending[0].0, pending[0].1;
      if when > totalTicks {
        if !advanceClock {
          AccountedPutBack(scheduled, pending, fired, totalTicks);
          pending := Insert(pending[1..], toOccur, when);
          return false;
        }
        AccountedLater(scheduled, pending, fired, totalTicks, when);
        idleTicks := idleTicks + (when - totalTicks);
        totalTicks := when;
      }
      if status == IdleMode && toOccur.kind == TimerInt && pending[1..] == [] {
        AccountedPutBack(scheduled, pending, fired, totalTicks);
        pending := Insert(pending[1..], toOccur, when);
        return false;
      }
      Fire();
      return true;
    }

    /** Takes the earliest interrupt off the list and calls its handler. */
    method Fire()
      requires Valid() && level == IntOff && !inHandler
      requires pending != [] && pending[0].1 <= totalTicks
      modifies this
      ensures Valid() && !inHandler && level == IntOff && status == old(status)
      ensures totalTicks == old(totalTicks) && systemTicks == old(systemTicks) && userTicks == old(userTicks)
      ensures fired == old(fired) + [Firing(old(pending[0].0), totalTicks)]
      ensures scheduled == WithRequests(old(scheduled), script(|old(fired)|).requests, totalTicks)
      ensures yieldOnReturn == (old(yieldOnReturn) || script(|old(fired)|).preempts)
      ensures Due(pending, totalTicks) == Due(old(pending), totalTicks) - 1
    {
      hide Accounted;
      hide Due;
      AccountedFire(scheduled, pending, fired, totalTicks);
      var oldStatus := status;
      fired := fired + [Firing(pending[0].0, totalTicks)];
      pending := pending[1..];
      handled := handled + 1;
      inHandler := true;
      status := SystemMode;
      CallHandler();
      status := oldStatus;
      inHandler := false;
    }

    /** Fires everything that is due: it ends, because handlers schedule only later and time stands still. */
    method Drain()
      requires Valid() && level == IntOff && !inHandler
      modifies this
      ensures Valid() && level == IntOff && !inHandler && status == old(status) && totalTicks == old(totalTicks)
      ensures systemTicks == old(systemTicks) && userTicks == old(userTicks) && old(fired) <= fired
      ensures old(scheduled) <= scheduled && forall n :: |old(fired)| <= n < |fired| ==> fired[n].at == totalTicks
      ensures yieldOnReturn == (old(yieldOnReturn) || Preempted(|old(fired)|))
      ensures Due(pending, totalTicks) == 0 || OnlyTimer()
    {
      hide Accounted;
      hide Due;
      var any := CheckIfDue(false);
      while any
        invariant Valid() && level == IntOff && !inHandler && status == old(status) && totalTicks == old(totalTicks)
        invariant systemTicks == old(systemTicks) && userTicks == old(userTicks) && old(fired) <= fired
        invariant old(scheduled) <= scheduled && forall n :: |old(fired)| <= n < |fired| ==> fired[n].at == totalTicks
        invariant yieldOnReturn == (old(yieldOnReturn) || Preempted(|old(fired)|))
        invariant !any ==> Due(pending, totalTicks) == 0 || OnlyTimer()
        decreases any, Due(pending, totalTicks)
      {
        any := CheckIfDue(false);
      }
    }

    /** Advances simulated time by one tick; returns whether the current thread is to yield. */
    method OneTick() returns (toYield: bool)
      requires Valid() && level == IntOn && !inHandler && status != IdleMode
      modifies this
      ensures Valid() && level == IntOn && !inHandler && status == old(status) && !yieldOnReturn
      ensures totalTicks == old(totalTicks) + Tick(status) && idleTicks == old(idleTicks)
      ensures systemTicks == old(systemTicks) + (if status == SystemMode then 10 else 0)
      ensures userTicks == old(userTicks) + (if status == SystemMode then 0 else 1)
      ensures old(fired) <= fired
      ensures toYield == (old(yieldOnReturn) || Preempted(|old(fired)|))
      ensures forall x :: x in pending ==> totalTicks < x.0.when
    {
      hide Accounted;
      hide Due;
      AccountedLater(scheduled, pending, fired, totalTicks, totalTicks + Tick(status));
      if status == SystemMode {
        totalTicks := totalTicks + SYSTEM_TICK;
        systemTicks := systemTicks + SYSTEM_TICK;
      } else {
        totalTicks := totalTicks + USER_TICK;
        userTicks := userTicks + USER_TICK;
      }
      level := IntOff;
      Drain();
      level := IntOn;
      AccountedFirst(scheduled, pending, fired, totalTicks);
      toYield := yieldOnReturn;
      yieldOnReturn := false;
    }

    method SetLevel(now: IntStatus) returns (oldLevel: IntStatus, toYield: bool)
      requires Valid() && (now == IntOff || !inHandler) && status != IdleMode
      modifies this
      ensures Valid() && level == now && oldLevel == old(level) && inHandler == old(inHandler) && status == old(status)
      ensures now == IntOff || oldLevel == IntOn ==>
        totalTicks == old(totalTicks) && pending == old(pending) && !toYield
      ensures now == IntOff || oldLevel == IntOn ==>
        && systemTicks == old(systemTicks) && userTicks == old(userTicks) && idleTicks == old(idleTicks)
        && fired == old(fired) && scheduled == old(scheduled) && yieldOnReturn == old(yieldOnReturn)
      ensures now == IntOn && oldLevel == IntOff ==>
        && totalTicks == old(totalTicks) + Tick(status) && idleTicks == old(idleTicks)
        && systemTicks == old(systemTicks) + (if status == SystemMode then 10 else 0)
        && userTicks == old(userTicks) + (if status == SystemMode then 0 else 1)
        && old(fired) <= fired && (forall x :: x in pending ==> totalTicks < x.0.when)
        && toYield == (old(yieldOnReturn) || Preempted(|old(fired)|)) && !yieldOnReturn
    {
      oldLevel, toYield := level, false;
      level := now;
      if now == IntOn && oldLevel == IntOff {
        toYield := OneTick();
      }
    }

    /** Nothing to run: on to the next interrupt. Halts exactly when only time slices are left to wait for. */
    method Idle() returns (halts: bool)
      requires Valid() && level == IntOff && !inHandler
      modifies this
      ensures Valid() && level == IntOff && !inHandler
      ensures halts <==>
        |old(pending)| == 0 || (|old(pending)| == 1 && old(pending)[0].0.kind == TimerInt)
      ensures totalTicks ==
        if old(pending) != [] && old(pending)[0].1 > old(totalTicks) then old(pending)[0].1 else old(totalTicks)
      ensures halts ==> fired == old(fired)
      ensures !halts ==> old(fired) + [Firing(old(pending)[0].0, totalTicks)] <= fired
      ensures !halts ==>
        && status == SystemMode && !yieldOnReturn && |fired| > |old(fired)|
        && (Due(pending, totalTicks) == 0 || (|pending| == 1 && pending[0].0.kind == TimerInt))
      ensures systemTicks == old(systemTicks) && userTicks == old(userTicks)
    {
      hide Accounted;
      hide Due;
      status := IdleMode;
      var any := CheckIfDue(true);
      if any {
        Drain();
        yieldOnReturn := false;
        status := SystemMode;
        return false;
      }
      return true;
    }
  }
}
