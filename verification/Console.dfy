/** Writing whole lines to the console from many threads (threads/synchcons.cc, machine/console.cc). */
module Consoles {
  import opened Kernel
  import opened Levels
  import opened KernelInvariant
  import opened KernelRuns

  /** Where a thread is inside SynchConsole::Write. */
  datatype Point =
    | AtLine      // WLineBlock->P()
    | AtLoop      // the test of the loop, then PutChar
    | AtAvail     // synchWriteAvail->P()
    | AtRelease   // WLineBlock->V()

  datatype Writer = Writer(text: seq<char>, point: Point, sent: nat)

  /** The console device, the two semaphores (by number), and the threads inside Write. */
  datatype Console = Console(
    k: State, line: Sid, avail: Sid,
    putBusy: bool, donePending: bool, output: seq<char>,
    writers: map<Tid, Writer>, holder: Option<Tid>, completed: seq<seq<char>>)

  datatype Step =
    | Begin(text: seq<char>)   // the current thread calls Write
    | Put                      // PutChar, and the completion interrupt is scheduled
    | EndLoop
    | Do(action: Action)       // a step of the kernel

  function At(c: Console, p: Point): bool {
    c.k.current in c.writers && c.writers[c.k.current].point == p
  }

  /** The two semaphores are used by Write and by the write-done handler only, each at its place. */
  predicate MayDo(c: Console, a: Action)
    requires Enabled(c.k, a)
  {
    match EventOf(c.k, a)
    case DidP(t, s) =>
      && (s == c.line ==> t in c.writers && c.writers[t].point == AtLine)
      && (s == c.avail ==> t in c.writers && c.writers[t].point == AtAvail)
    case DidV(s) =>
      && (s == c.line ==> a.V? && At(c, AtRelease))
      && (s == c.avail ==> a.HandlerV? && c.donePending)
    case _ => true
  }

  predicate AllSent(w: Writer) {
    w.sent >= |w.text|
  }

  predicate CanStep(c: Console, step: Step) {
    match step
    case Begin(text) => c.k.mode == Executing && c.k.current !in c.writers
    case Put => c.k.mode == Executing && At(c, AtLoop) && !AllSent(c.writers[c.k.current])
    case EndLoop => c.k.mode == Executing && At(c, AtLoop) && AllSent(c.writers[c.k.current])
    case Do(a) => Enabled(c.k, a) && MayDo(c, a)
  }

  function Move(c: Console, t: Tid, p: Point): map<Tid, Writer>
    requires t in c.writers
  {
    c.writers[t := c.writers[t].(point := p)]
  }

  /** What the event of a kernel step means for the console. */
  function After(c: Console, e: Event): Console {
    match e
    case DidP(t, s) =>
      if t !in c.writers then c
      else if s == c.line then c.(writers := Move(c, t, AtLoop), holder := Some(t))
      else if s == c.avail then c.(writers := c.writers[t := Writer(c.writers[t].text, AtLoop, c.writers[t].sent + 1)])
      else c
    case DidV(s) =>
      if s == c.line && c.k.current in c.writers then
        c.(writers := c.writers - {c.k.current}, holder := None,
           completed := c.completed + [c.writers[c.k.current].text])
      else if s == c.avail then c.(putBusy := false, donePending := false)
      else c
    case _ => c
  }

  function Next(c: Console, step: Step): Console
    requires CanStep(c, step)
  {
    match step
    case Begin(text) => c.(writers := c.writers[c.k.current := Writer(text, AtLine, 0)])
    case Put =>
      var w := c.writers[c.k.current];
      c.(output := c.output + [w.text[w.sent]], putBusy := true, donePending := true,
         writers := Move(c, c.k.current, AtAvail))
    case EndLoop => c.(writers := Move(c, c.k.current, AtRelease))
    case Do(a) => After(c, EventOf(c.k, a)).(k := Apply(c.k, a))
  }

  // ---- the invariant ----

  function Joined(texts: seq<seq<char>>): seq<char> {
    if texts == [] then [] else Joined(texts[..|texts| - 1]) + texts[|texts| - 1]
  }

  /** What the writer holding the line has put so far. */
  function Partial(writers: map<Tid, Writer>, holder: Option<Tid>): seq<char> {
    if holder.Some? && holder.value in writers then
      var w := writers[holder.value];
      var n := w.sent + Flag(w.point == AtAvail);
      if n <= |w.text| then w.text[..n] else w.text
    else []
  }

  /** A writer is past its P exactly if it holds the line, and it has not sent more than there is. */
  ghost predicate WriterSound(w: Writer, holds: bool) {
    && (w.point != AtLine <==> holds)
    && w.sent + Flag(w.point == AtAvail) <= |w.text|
    && (w.point == AtLine ==> w.sent == 0)
    && (w.point == AtRelease ==> w.sent == |w.text|)
  }

  ghost predicate HolderSound(writers: map<Tid, Writer>, holder: Option<Tid>) {
    && (holder.Some? ==> holder.value in writers)
    && (forall t :: t in writers ==> WriterSound(writers[t], holder == Some(t)))
  }

  ghost predicate Waiting(writers: map<Tid, Writer>, holder: Option<Tid>) {
    holder.Some? && holder.value in writers && writers[holder.value].point == AtAvail
  }

  /** The semaphore values and the device agree with who holds the line and what it is doing. */
  ghost predicate CountsSound(c: Console, values: seq<int>) {
    && c.line < |values| && c.avail < |values| && c.line != c.avail
    && values[c.line] == Flag(c.holder.None?)
    && c.donePending == c.putBusy
    && 0 <= values[c.avail] && values[c.avail] + Flag(c.putBusy) == Flag(Waiting(c.writers, c.holder))
  }

  ghost predicate ConsoleSound(c: Console, values: seq<int>) {
    && HolderSound(c.writers, c.holder) && CountsSound(c, values)
    && c.output == Joined(c.completed) + Partial(c.writers, c.holder)
  }

  ghost predicate ConsoleInv(c: Console) {
    Inv(c.k) && ConsoleSound(c, Values(c.k))
  }

  /** The writer holding the line moves on; the others are still waiting for it. */
  lemma HolderMoves(writers: map<Tid, Writer>, t: Tid, w: Writer)
    requires HolderSound(writers, Some(t)) && WriterSound(w, true)
    ensures HolderSound(writers[t := w], Some(t))
  {}

  lemma HolderLeaves(writers: map<Tid, Writer>, t: Tid)
    requires HolderSound(writers, Some(t))
    ensures HolderSound(writers - {t}, None)
  {
    hide WriterSound;
    forall u | u in writers - {t}
      ensures WriterSound(writers[u], false)
    {
      assert WriterSound(writers[u], Some(t) == Some(u));
    }
  }

  lemma JoinedSnoc(texts: seq<seq<char>>, text: seq<char>)
    ensures Joined(texts + [text]) == Joined(texts) + text
  {
    assert (texts + [text])[..|texts|] == texts;
  }

  lemma BeginKeeps(c: Console, values: seq<int>, text: seq<char>)
    requires CanStep(c, Begin(text)) && ConsoleSound(c, values)
    ensures ConsoleSound(Next(c, Begin(text)), values)
  {
    assert WriterSound(Writer(text, AtLine, 0), false);
    hide WriterSound;
    hide Joined;
  }

  /** PutChar's assertion holds, and the character goes to the end of this writer's part. */
  lemma PutKeeps(c: Console, values: seq<int>)
    requires CanStep(c, Put) && ConsoleSound(c, values)
    ensures !c.putBusy && ConsoleSound(Next(c, Put), values)
  {
    hide Joined;
    var t := c.k.current;
    var w := c.writers[t];
    assert WriterSound(w, c.holder == Some(t));
    HolderMoves(c.writers, t, w.(point := AtAvail));
    hide HolderSound;
    assert w.text[..w.sent + 1] == w.text[..w.sent] + [w.text[w.sent]];
    assert c.output + [w.text[w.sent]] == Joined(c.completed) + w.text[..w.sent + 1];
  }

  lemma EndLoopKeeps(c: Console, values: seq<int>)
    requires CanStep(c, EndLoop) && ConsoleSound(c, values)
    ensures ConsoleSound(Next(c, EndLoop), values)
  {
    hide Joined;
    var t := c.k.current;
    var w := c.writers[t];
    assert WriterSound(w, c.holder == Some(t));
    HolderMoves(c.writers, t, w.(point := AtRelease));
    hide HolderSound;
  }

  /** A completed P on the line: nobody held it. */
  lemma TookLine(c: Console, values: seq<int>, t: Tid)
    requires t in c.writers && c.writers[t].point == AtLine && c.line < |values| && values[c.line] > 0
    requires ConsoleSound(c, values)
    ensures ConsoleSound(After(c, DidP(t, c.line)), values[c.line := values[c.line] - 1])
  {
    hide Joined;
    assert WriterSound(c.writers[t], c.holder == Some(t));
    assert c.writers[t].text[..0] == [];
  }

  /** A completed P on the device: the character has gone out. */
  lemma TookAvail(c: Console, values: seq<int>, t: Tid)
    requires t in c.writers && c.writers[t].point == AtAvail && c.avail < |values| && values[c.avail] > 0
    requires ConsoleSound(c, values)
    ensures ConsoleSound(After(c, DidP(t, c.avail)), values[c.avail := values[c.avail] - 1])
  {
    hide Joined;
    var w := c.writers[t];
    assert WriterSound(w, c.holder == Some(t));
    HolderMoves(c.writers, t, Writer(w.text, AtLoop, w.sent + 1));
    hide HolderSound;
  }

  /** The line is released, after the last character. */
  lemma GaveLine(c: Console, values: seq<int>)
    requires At(c, AtRelease) && c.line < |values|
    requires ConsoleSound(c, values)
    ensures ConsoleSound(After(c, DidV(c.line)), values[c.line := values[c.line] + 1])
  {
    hide Joined;
    var t := c.k.current;
    var text := c.writers[t].text;
    assert WriterSound(c.writers[t], c.holder == Some(t));
    HolderLeaves(c.writers, t);
    hide HolderSound;
    JoinedSnoc(c.completed, text);
    assert text[..|text|] == text;
    assert Joined(c.completed) + text == Joined(c.completed) + text + [];
  }

  /** The device has finished a character. */
  lemma GaveAvail(c: Console, values: seq<int>)
    requires c.donePending && c.avail < |values|
    requires ConsoleSound(c, values)
    ensures ConsoleSound(After(c, DidV(c.avail)), values[c.avail := values[c.avail] + 1])
  {
    hide Joined;
    hide HolderSound;
  }

  lemma OthersKeep(c: Console, values: seq<int>, after: seq<int>)
    requires |values| <= |after| && (c.line < |values| ==> after[c.line] == values[c.line])
    requires c.avail < |values| ==> after[c.avail] == values[c.avail]
    requires ConsoleSound(c, values)
    ensures ConsoleSound(c, after)
  {
    hide Joined;
    hide HolderSound;
  }

  lemma EventKeeps(c: Console, a: Action)
    requires CanStep(c, Do(a)) && ConsoleInv(c)
    ensures ConsoleInv(Next(c, Do(a)))
  {
    hide Inv;
    hide Apply;
    hide EventOf;
    hide Enabled;
    hide After;
    hide Values;
    hide ConsoleSound;
    StepValues(c.k, a);
    StepInv(c.k, a);
    var values, after := Values(c.k), Values(Apply(c.k, a));
    LineApart(c, values);
    var e := EventOf(c.k, a);
    if e.DidP? && e.sem == c.line {
      TookLine(c, values, e.thread);
    } else if e.DidP? && e.sem == c.avail {
      TookAvail(c, values, e.thread);
    } else if e.DidV? && e.sem == c.line {
      GaveLine(c, values);
    } else if e.DidV? && e.sem == c.avail {
      GaveAvail(c, values);
    } else {
      AfterOther(c, e);
      OthersKeep(c, values, after);
    }
    SoundAnyKernel(After(c, EventOf(c.k, a)), after, Apply(c.k, a));
  }

  lemma AfterOther(c: Console, e: Event)
    requires e.DidP? || e.DidV? ==> e.sem != c.line && e.sem != c.avail
    ensures After(c, e) == c
  {}

  lemma LineApart(c: Console, values: seq<int>)
    requires ConsoleSound(c, values)
    ensures c.line != c.avail
  {}

  lemma SoundAnyKernel(c: Console, values: seq<int>, k: State)
    requires ConsoleSound(c, values)
    ensures ConsoleSound(c.(k := k), values)
  {}

  lemma StepKeeps(c: Console, step: Step)
    requires CanStep(c, step) && ConsoleInv(c)
    ensures ConsoleInv(Next(c, step))
    ensures step.Put? ==> !c.putBusy
  {
    hide Inv;
    hide Values;
    hide ConsoleSound;
    match step
    case Begin(text) => BeginKeeps(c, Values(c.k), text);
    case Put => PutKeeps(c, Values(c.k));
    case EndLoop => EndLoopKeeps(c, Values(c.k));
    case Do(a) => EventKeeps(c, a);
  }

  // ---- runs ----

  /** As SynchConsole's constructor leaves it: the line free, nothing done yet, nobody writing. */
  ghost predicate Ready(c: Console) {
    && Inv(c.k) && c.line < |Values(c.k)| && c.avail < |Values(c.k)| && c.line != c.avail
    && Values(c.k)[c.line] == 1 && Values(c.k)[c.avail] == 0
    && !c.putBusy && !c.donePending && c.output == [] && c.completed == []
    && c.writers == map[] && c.holder == None
  }

  lemma ReadySound(c: Console)
    requires Ready(c)
    ensures ConsoleInv(c)
  {
    hide Inv;
    hide Values;
    assert Joined([]) == [];
  }

  /** SynchConsole's constructor: synchReadAvail, synchWriteAvail, RLineBlock and WLineBlock, in this order. */
  function NewConsole(k: State): Console
    requires k.mode == Executing && k.current in k.threads
  {
    var n := Apply(Apply(Apply(Apply(k, NewSemaphore(0)), NewSemaphore(0)), NewSemaphore(1)), NewSemaphore(1));
    Console(n, |k.sems| + 3, |k.sems| + 1, false, false, [], map[], None, [])
  }

  lemma NewConsoleReady(k: State)
    requires k.mode == Executing && k.current in k.threads && Inv(k)
    ensures Ready(NewConsole(k))
  {
    hide Inv;
    StepInv(k, NewSemaphore(0));
    var k1 := Apply(k, NewSemaphore(0));
    StepInv(k1, NewSemaphore(0));
    var k2 := Apply(k1, NewSemaphore(0));
    StepInv(k2, NewSemaphore(1));
    StepInv(Apply(k2, NewSemaphore(1)), NewSemaphore(1));
  }

  ghost predicate Run(cs: seq<Console>, steps: seq<Step>) {
    && |cs| == |steps| + 1 && Ready(cs[0])
    && forall i :: 0 <= i < |steps| ==> CanStep(cs[i], steps[i]) && cs[i + 1] == Next(cs[i], steps[i])
  }

  lemma {:induction false} RunKeeps(cs: seq<Console>, steps: seq<Step>, i: nat)
    requires Run(cs, steps) && i < |cs|
    ensures ConsoleInv(cs[i])
  {
    hide ConsoleInv;
    hide Ready;
    hide Next;
    hide CanStep;
    if i == 0 {
      ReadySound(cs[0]);
    } else {
      RunKeeps(cs, steps, i - 1);
      StepKeeps(cs[i - 1], steps[i - 1]);
    }
  }

  /**
   With any threads writing and completion interrupts at any time, PutChar never finds the device busy, and the
   output is whole texts one after another, then the part of one text that its writer has reached.
   */
  lemma WholeWrites(cs: seq<Console>, steps: seq<Step>, i: nat)
    requires Run(cs, steps) && i < |cs|
    ensures i < |steps| && steps[i].Put? ==> !cs[i].putBusy
    ensures cs[i].output == Joined(cs[i].completed) + Partial(cs[i].writers, cs[i].holder)
    ensures cs[i].holder.None? ==> cs[i].output == Joined(cs[i].completed)
  {
    RunKeeps(cs, steps, i);
    if i < |steps| {
      StepKeeps(cs[i], steps[i]);
    }
  }

  /** A text is complete exactly when its writer gives the line back: all of it, once. */
  lemma CompletedGrows(c: Console, step: Step)
    requires CanStep(c, step) && ConsoleInv(c)
    ensures var d := Next(c, step);
      if step.Do? && EventOf(c.k, step.action) == DidV(c.line) then
        && c.k.current in c.writers && d.writers == c.writers - {c.k.current}
        && d.completed == c.completed + [c.writers[c.k.current].text]
      else d.completed == c.completed && c.writers.Keys <= d.writers.Keys
  {
    hide Inv;
    hide Values;
    hide Apply;
    hide HolderSound;
    hide Joined;
    hide Partial;
  }

  /** While a thread is inside Write its text is the one it called Write with. */
  lemma TextsKept(c: Console, step: Step, t: Tid)
    requires CanStep(c, step) && t in Next(c, step).writers
    ensures if t in c.writers then Next(c, step).writers[t].text == c.writers[t].text
            else t == c.k.current && step == Begin(Next(c, step).writers[t].text)
  {
    hide Apply;
  }

  lemma RunStep(cs: seq<Console>, steps: seq<Step>, i: nat)
    requires Run(cs, steps) && i < |steps|
    ensures CanStep(cs[i], steps[i]) && cs[i + 1] == Next(cs[i], steps[i]) && ConsoleInv(cs[i])
  {
    hide ConsoleInv;
    hide Next;
    hide CanStep;
    RunKeeps(cs, steps, i);
  }

  lemma RunStarts(cs: seq<Console>, steps: seq<Step>)
    requires Run(cs, steps)
    ensures |cs| == |steps| + 1 && cs[0].writers == map[] && cs[0].completed == []
  {}

  /** A thread inside Write is there because of an earlier call with this very text. */
  lemma {:induction false} WhoBegan(cs: seq<Console>, steps: seq<Step>, i: nat, t: Tid) returns (b: nat)
    requires Run(cs, steps) && i < |cs| && t in cs[i].writers
    ensures b < i && steps[b] == Begin(cs[i].writers[t].text) && cs[b].k.current == t
    ensures forall j :: b < j <= i ==> t in cs[j].writers
  {
    hide Run;
    hide ConsoleInv;
    hide Next;
    hide CanStep;
    RunStarts(cs, steps);
    if i == 0 {
      assert false;
    }
    RunStep(cs, steps, i - 1);
    TextsKept(cs[i - 1], steps[i - 1], t);
    if t in cs[i - 1].writers {
      b := WhoBegan(cs, steps, i - 1, t);
    } else {
      b := i - 1;
    }
  }

  /**
   Every completed text is that of a call: begun at step b and returned at step e by the same thread, which was
   in no other call in between.
   */
  lemma {:induction false} WhoWrote(cs: seq<Console>, steps: seq<Step>, i: nat, n: nat) returns (b: nat, e: nat)
    requires Run(cs, steps) && i < |cs| && n < |cs[i].completed|
    ensures b < e < i && steps[b] == Begin(cs[i].completed[n]) && |cs[e].completed| == n < |cs[e + 1].completed|
    ensures cs[e].k.current == cs[b].k.current && cs[b].k.current !in cs[e + 1].writers
    ensures forall j :: b < j <= e ==> cs[b].k.current in cs[j].writers
  {
    hide Run;
    hide ConsoleInv;
    hide Next;
    hide CanStep;
    hide EventOf;
    RunStarts(cs, steps);
    if i == 0 {
      assert false;
    }
    RunStep(cs, steps, i - 1);
    CompletedGrows(cs[i - 1], steps[i - 1]);
    if n < |cs[i - 1].completed| {
      b, e := WhoWrote(cs, steps, i - 1, n);
    } else {
      e := i - 1;
      b := WhoBegan(cs, steps, e, cs[e].k.current);
    }
  }

  // ---- nothing is held back ----

  /**
   A running thread can always call Write with any text, or take its next step inside it; inside the loop that is
   PutChar exactly while there are characters left. The handler can come in whenever a character is on its way.
   */
  lemma StepsOpen(c: Console, text: seq<char>)
    requires ConsoleInv(c) && c.k.mode == Executing
    ensures c.k.current !in c.writers ==> CanStep(c, Begin(text))
    ensures c.k.current in c.writers ==>
      var w := c.writers[c.k.current];
      match w.point
      case AtLine => CanStep(c, Do(P(c.line)))
      case AtLoop => CanStep(c, if w.sent < |w.text| then Put else EndLoop)
      case AtAvail => CanStep(c, Do(P(c.avail)))
      case AtRelease => CanStep(c, Do(V(c.line)))
    ensures c.donePending && c.k.level == IntOn ==> CanStep(c, Do(HandlerV(c.avail)))
  {
    assert c.k.current in c.k.threads && |Values(c.k)| == |c.k.sems|;
    hide Inv;
    hide Values;
    hide HolderSound;
    hide Joined;
    hide Partial;
  }
}
