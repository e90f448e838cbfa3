/**
 How long a disk request takes (machine/disk.cc): seek, rotation and transfer, with a track buffer that holds
 what has passed under the head since it reached the track.
 */
module DiskTiming {
  import opened DiskGeometry

  const ROTATION_TIME := 500
  const SEEK_TIME := 500
  /** 31 tracks to cross, just missing a sector boundary, then just missing the sector. */
  const MAX_LATENCY := 31 * SEEK_TIME + (ROTATION_TIME - 1) + 31 * ROTATION_TIME + ROTATION_TIME

  // ---- the disk turning, independently of the code ----

  /** During ticks 500k up to 500(k+1) the sectors at offset k mod 32 of every track pass under the head. */
  ghost predicate PassesAt(sector: nat, k: nat, from: nat, to: nat) {
    from <= ROTATION_TIME * k && ROTATION_TIME * (k + 1) <= to && k % SECTORS_PER_TRACK == sector % SECTORS_PER_TRACK
  }

  /** The sector passes completely under the head between the two times. */
  ghost predicate Passes(sector: nat, from: nat, to: nat) {
    exists k: nat :: PassesAt(sector, k, from, to)
  }

  datatype Request = Request(at: nat, sector: nat, writing: bool)

  function Track(sector: nat): nat {
    sector / 32
  }

  /** The track a run of requests leaves the head on; it starts on track 0. */
  function TrackAfter(rs: seq<Request>): nat {
    if rs == [] then 0 else Track(rs[|rs| - 1].sector)
  }

  function Distance(a: nat, b: nat): nat {
    if a < b then b - a else a - b
  }

  /** When the head is on the track of a request made after the run `rs`: crossing takes 500 ticks a track. */
  function Reached(rs: seq<Request>, r: Request): nat {
    r.at + 500 * Distance(TrackAfter(rs), Track(r.sector))
  }

  /** When the head reached the track it is on: at the last request that went to another track. */
  function ReachedAt(rs: seq<Request>): nat {
    if rs == [] then 0
    else
      var init, r := rs[..|rs| - 1], rs[|rs| - 1];
      if TrackAfter(init) == Track(r.sector) then ReachedAt(init) else Reached(init, r)
  }

  /** The next sector boundary. */
  function RoundUp(t: nat): nat {
    500 * ((t + 499) / 500)
  }

  /** The track buffer has the sector: it has passed since the head reached the track, by the next boundary. */
  ghost predicate InBuffer(rs: seq<Request>, r: Request) {
    !r.writing && Track(r.sector) == TrackAfter(rs) && Passes(r.sector, ReachedAt(rs), RoundUp(r.at))
  }

  /**
   How long a request takes: one sector from the buffer, or until the sector has passed completely for the first
   time since the head is on its track, which is a sector boundary.
   */
  ghost predicate Timed(rs: seq<Request>, r: Request, ticks: nat) {
    && 500 <= ticks <= MAX_LATENCY
    && if InBuffer(rs, r) then ticks == 500
       else (r.at + ticks) % 500 == 0 && forall t: nat :: Passes(r.sector, Reached(rs, r), t) <==> r.at + ticks <= t
  }

  // ---- the code ----

  /** Seek time, and the wait for the next sector boundary after it. */
  function TimeToSeek(lastSector: nat, newSector: nat, now: nat): (r: (nat, nat)) {
    var seek := Distance(newSector / SECTORS_PER_TRACK, lastSector / SECTORS_PER_TRACK) * SEEK_TIME;
    var over := (now + seek) % ROTATION_TIME;
    (seek, if over > 0 then ROTATION_TIME - over else 0)
  }

  function ModuloDiff(to: nat, from: nat): nat {
    ((to % SECTORS_PER_TRACK - from % SECTORS_PER_TRACK) + SECTORS_PER_TRACK) % SECTORS_PER_TRACK
  }

  datatype Head = Head(lastSector: nat, bufferInit: nat)

  function BoundaryAfter(d: Head, sector: nat, now: nat): nat {
    var (seek, rotation) := TimeToSeek(d.lastSector, sector, now);
    now + seek + rotation
  }

  /** C division, which truncates towards zero. */
  function Quotient(a: int, b: nat): int
    requires b > 0
  {
    if a >= 0 then a / b else -((-a) / b)
  }

  /** The track-buffer test. */
  predicate Hit(d: Head, sector: nat, writing: bool, now: nat) {
    && !writing
    && TimeToSeek(d.lastSector, sector, now).0 == 0
    && Quotient(BoundaryAfter(d, sector, now) - d.bufferInit, ROTATION_TIME)
       > ModuloDiff(sector, d.bufferInit / ROTATION_TIME)
  }

  function ComputeLatency(d: Head, sector: nat, writing: bool, now: nat): (ticks: nat) {
    var (seek, rotation) := TimeToSeek(d.lastSector, sector, now);
    if Hit(d, sector, writing, now) then ROTATION_TIME
    else
      seek + (rotation + ModuloDiff(sector, (now + seek + rotation) / ROTATION_TIME) * ROTATION_TIME) + ROTATION_TIME
  }

  function UpdateLast(d: Head, sector: nat, now: nat): Head {
    var (seek, rotation) := TimeToSeek(d.lastSector, sector, now);
    Head(sector, if seek != 0 then now + seek + rotation else d.bufferInit)
  }

  /** When the head reaches the requested track. */
  function Arrival(d: Head, sector: nat, now: nat): nat {
    now + TimeToSeek(d.lastSector, sector, now).0
  }

  // ---- one request ----

  lemma FirstPass(sector: nat, j: nat)
    ensures var d := ModuloDiff(sector, j);
      && d < SECTORS_PER_TRACK && (j + d) % SECTORS_PER_TRACK == sector % SECTORS_PER_TRACK
      && forall k :: j <= k < j + d ==> k % SECTORS_PER_TRACK != sector % SECTORS_PER_TRACK
  {
    var d := ModuloDiff(sector, j);
    ModSum(j, d);
    forall k | j <= k < j + d
      ensures k % SECTORS_PER_TRACK != sector % SECTORS_PER_TRACK
    {
      ModSum(j, k - j);
    }
  }

  lemma ModSum(j: nat, e: nat)
    requires e < SECTORS_PER_TRACK
    ensures var r := j % SECTORS_PER_TRACK;
      (j + e) % SECTORS_PER_TRACK == if r + e < SECTORS_PER_TRACK then r + e else r + e - SECTORS_PER_TRACK
  {}

  /** Rounding up to a sector boundary loses no complete pass. */
  lemma PassesFromBoundary(sector: nat, from: nat, boundary: nat, to: nat)
    requires boundary % ROTATION_TIME == 0 && from <= boundary < from + ROTATION_TIME
    ensures Passes(sector, from, to) <==> Passes(sector, boundary, to)
  {
    if Passes(sector, from, to) {
      var k: nat :| PassesAt(sector, k, from, to);
      assert ROTATION_TIME * k >= boundary;
      assert PassesAt(sector, k, boundary, to);
    }
    if Passes(sector, boundary, to) {
      var k: nat :| PassesAt(sector, k, boundary, to);
      assert PassesAt(sector, k, from, to);
    }
  }

  /** From a boundary on, the first complete pass ends ModuloDiff + 1 sectors later. */
  lemma PassesIff(sector: nat, boundary: nat, to: nat)
    requires boundary % ROTATION_TIME == 0
    ensures Passes(sector, boundary, to) <==>
      boundary + (ModuloDiff(sector, boundary / ROTATION_TIME) + 1) * ROTATION_TIME <= to
  {
    var j := boundary / ROTATION_TIME;
    var d := ModuloDiff(sector, j);
    FirstPass(sector, j);
    assert boundary == ROTATION_TIME * j;
    if boundary + (d + 1) * ROTATION_TIME <= to {
      assert PassesAt(sector, j + d, boundary, to);
    }
    if Passes(sector, boundary, to) {
      var k: nat :| PassesAt(sector, k, boundary, to);
      assert k >= j + d;
    }
  }

  lemma Boundary(d: Head, sector: nat, now: nat)
    ensures var (seek, rotation) := TimeToSeek(d.lastSector, sector, now);
      BoundaryAfter(d, sector, now) % ROTATION_TIME == 0 && rotation < ROTATION_TIME
  {
    RoundedUp(now + TimeToSeek(d.lastSector, sector, now).0);
  }

  lemma RoundedUp(t: nat)
    ensures var over := t % ROTATION_TIME;
      (t + if over > 0 then ROTATION_TIME - over else 0) % ROTATION_TIME == 0
  {
    var q, over := t / ROTATION_TIME, t % ROTATION_TIME;
    if over > 0 {
      Multiple(q + 1);
      assert t + (ROTATION_TIME - over) == ROTATION_TIME * (q + 1);
    }
  }

  lemma Multiple(q: nat)
    ensures ROTATION_TIME * q % ROTATION_TIME == 0
  {}

  /**
   An unbuffered request ends on a sector boundary, when the sector has just passed completely for the first
   time since the head reached the track.
   */
  lemma UnbufferedFinish(d: Head, sector: nat, writing: bool, now: nat)
    requires !Hit(d, sector, writing, now)
    ensures (now + ComputeLatency(d, sector, writing, now)) % ROTATION_TIME == 0
    ensures forall t: nat ::
      Passes(sector, Arrival(d, sector, now), t) <==> now + ComputeLatency(d, sector, writing, now) <= t
  {
    var (seek, rotation) := TimeToSeek(d.lastSector, sector, now);
    var boundary, arrival := BoundaryAfter(d, sector, now), Arrival(d, sector, now);
    var m := ModuloDiff(sector, boundary / ROTATION_TIME);
    Boundary(d, sector, now);
    var finish := now + ComputeLatency(d, sector, writing, now);
    assert finish == boundary + (m + 1) * ROTATION_TIME;
    assert finish % ROTATION_TIME == 0 by {
      Multiple(boundary / ROTATION_TIME + m + 1);
    }
    hide Hit;
    hide ComputeLatency;
    hide ModuloDiff;
    hide Passes;
    forall t: nat
      ensures Passes(sector, arrival, t) <==> finish <= t
    {
      PassesFromBoundary(sector, arrival, boundary, t);
      PassesIff(sector, boundary, t);
    }
  }

  /** The hit test says exactly that the sector has passed completely since the head reached the track. */
  lemma HitIff(d: Head, sector: nat, now: nat, arrival: nat)
    requires d.bufferInit <= now && d.bufferInit % ROTATION_TIME == 0
    requires arrival <= d.bufferInit < arrival + ROTATION_TIME
    requires TimeToSeek(d.lastSector, sector, now).0 == 0
    ensures Hit(d, sector, false, now) <==> Passes(sector, arrival, BoundaryAfter(d, sector, now))
    ensures BoundaryAfter(d, sector, now) < now + ROTATION_TIME
  {
    var boundary := BoundaryAfter(d, sector, now);
    var m := ModuloDiff(sector, d.bufferInit / ROTATION_TIME);
    Boundary(d, sector, now);
    PassesFromBoundary(sector, arrival, d.bufferInit, boundary);
    PassesIff(sector, d.bufferInit, boundary);
  }

  /** What a hit needs, and what it costs. */
  lemma HitMeans(d: Head, sector: nat, writing: bool, now: nat)
    ensures TimeToSeek(d.lastSector, sector, now).0 == 0 <==>
      sector / SECTORS_PER_TRACK == d.lastSector / SECTORS_PER_TRACK
    ensures Hit(d, sector, writing, now) <==>
      !writing && TimeToSeek(d.lastSector, sector, now).0 == 0 && Hit(d, sector, false, now)
    ensures Hit(d, sector, writing, now) ==> ComputeLatency(d, sector, writing, now) == ROTATION_TIME
  {}

  lemma LatencyBounds(d: Head, sector: nat, writing: bool, now: nat)
    requires sector < NUM_SECTORS && d.lastSector < NUM_SECTORS
    ensures ROTATION_TIME <= ComputeLatency(d, sector, writing, now) <= MAX_LATENCY
  {
    var (seek, rotation) := TimeToSeek(d.lastSector, sector, now);
    Boundary(d, sector, now);
    FirstPass(sector, (now + seek + rotation) / ROTATION_TIME);
    assert Distance(sector / SECTORS_PER_TRACK, d.lastSector / SECTORS_PER_TRACK) <= 31;
  }

  /** The bound is reached. */
  lemma MaxLatencyReached()
    ensures ComputeLatency(Head(0, 0), 1023, false, 1) == MAX_LATENCY
  {}

  /**
   Has the sector of a hit passed completely already when the request is made? Not while it is under the head
   for the first time: the code then counts the rest of that sector, which passes before the transfer ends.
   */
  lemma HitAlreadyPassed(d: Head, sector: nat, now: nat, arrival: nat)
    requires d.bufferInit <= now && d.bufferInit % ROTATION_TIME == 0
    requires arrival <= d.bufferInit < arrival + ROTATION_TIME
    requires Hit(d, sector, false, now)
    ensures Passes(sector, arrival, now) <==>
      || now % ROTATION_TIME == 0
      || now / ROTATION_TIME % SECTORS_PER_TRACK != sector % SECTORS_PER_TRACK
      || now / ROTATION_TIME - d.bufferInit / ROTATION_TIME >= SECTORS_PER_TRACK
  {
    var j, n := d.bufferInit / ROTATION_TIME, now / ROTATION_TIME;
    Boundary(d, sector, now);
    PassesFromBoundary(sector, arrival, d.bufferInit, now);
    PassesIff(sector, d.bufferInit, now);
    UnderHead(sector, j, n);
    hide ModuloDiff;
    hide Passes;
    var m := ModuloDiff(sector, j);
    assert d.bufferInit == ROTATION_TIME * j && now == ROTATION_TIME * n + now % ROTATION_TIME;
    assert Passes(sector, arrival, now) <==> m + 1 <= n - j;
    assert m < (if now % ROTATION_TIME == 0 then n else n + 1) - j;
  }

  /** After n - j sectors the wanted one is under the head for the first time. */
  lemma UnderHead(sector: nat, j: nat, n: nat)
    requires j <= n
    ensures ModuloDiff(sector, j) == n - j <==>
      n - j < SECTORS_PER_TRACK && n % SECTORS_PER_TRACK == sector % SECTORS_PER_TRACK
  {
    FirstPass(sector, j);
    if n - j < SECTORS_PER_TRACK {
      ModSum(j, n - j);
    }
  }

  lemma HitBeforePassed()
    ensures Hit(Head(0, 0), 0, false, 1) && !Passes(0, 0, 1)
  {}

  // ---- runs of requests, one at a time ----

  function HeadAfter(rs: seq<Request>): Head {
    if rs == [] then Head(0, 0)
    else var r := rs[|rs| - 1]; UpdateLast(HeadAfter(rs[..|rs| - 1]), r.sector, r.at)
  }

  function FinishOf(rs: seq<Request>): nat {
    if rs == [] then 0
    else
      var r := rs[|rs| - 1];
      r.at + ComputeLatency(HeadAfter(rs[..|rs| - 1]), r.sector, r.writing, r.at)
  }

  /** Each request is made after the one before it has finished. */
  ghost predicate OneAtATime(rs: seq<Request>) {
    rs == [] ||
    var init, r := rs[..|rs| - 1], rs[|rs| - 1];
    OneAtATime(init) && r.sector < NUM_SECTORS && FinishOf(init) <= r.at
  }

  lemma LastRequest(rs: seq<Request>, r: Request)
    requires OneAtATime(rs + [r])
    ensures OneAtATime(rs) && r.sector < NUM_SECTORS && FinishOf(rs) <= r.at
  {
    assert (rs + [r])[..|rs + [r]| - 1] == rs;
  }

  lemma SeekIs(d: Head, rs: seq<Request>, r: Request)
    requires Track(d.lastSector) == TrackAfter(rs)
    ensures Arrival(d, r.sector, r.at) == Reached(rs, r)
    ensures BoundaryAfter(d, r.sector, r.at) == RoundUp(Reached(rs, r))
    ensures TimeToSeek(d.lastSector, r.sector, r.at).0 == 0 <==> Track(r.sector) == TrackAfter(rs)
  {
    Boundary(d, r.sector, r.at);
    IsRoundUp(Arrival(d, r.sector, r.at), BoundaryAfter(d, r.sector, r.at));
  }

  lemma IsRoundUp(t: nat, b: nat)
    requires t <= b < t + 500 && b % 500 == 0
    ensures b == RoundUp(t)
  {}

  /** The head is where the last request left it, and bufferInit is the first boundary since it is on that track. */
  lemma {:induction false} HeadInvariant(rs: seq<Request>)
    requires OneAtATime(rs)
    ensures var d := HeadAfter(rs);
      && d.lastSector == (if rs == [] then 0 else rs[|rs| - 1].sector) < NUM_SECTORS
      && d.bufferInit == RoundUp(ReachedAt(rs)) <= FinishOf(rs)
  {
    if rs != [] {
      var init, r := rs[..|rs| - 1], rs[|rs| - 1];
      HeadInvariant(init);
      hide RoundUp;
      SeekIs(HeadAfter(init), init, r);
    }
  }

  lemma RoundUpIs(t: nat)
    ensures RoundUp(t) % 500 == 0 && t <= RoundUp(t) < t + 500
  {}

  /**
   Over any run of requests, told from the requests alone: the next one hits the track buffer exactly when it is a
   read of a sector in the buffer, and takes exactly as long as it should.
   */
  lemma RunTiming(rs: seq<Request>, r: Request)
    requires OneAtATime(rs + [r])
    ensures Hit(HeadAfter(rs), r.sector, r.writing, r.at) <==> InBuffer(rs, r)
    ensures Timed(rs, r, ComputeLatency(HeadAfter(rs), r.sector, r.writing, r.at))
  {
    hide Hit;
    hide ComputeLatency;
    hide Passes;
    hide BoundaryAfter;
    hide Arrival;
    hide TimeToSeek;
    hide HeadAfter;
    hide ReachedAt;
    hide FinishOf;
    hide OneAtATime;
    hide RoundUp;
    var d := HeadAfter(rs);
    LastRequest(rs, r);
    HeadInvariant(rs);
    RoundUpIs(ReachedAt(rs));
    SeekIs(d, rs, r);
    HitMeans(d, r.sector, r.writing, r.at);
    LatencyBounds(d, r.sector, r.writing, r.at);
    if TimeToSeek(d.lastSector, r.sector, r.at).0 == 0 {
      HitIff(d, r.sector, r.at, ReachedAt(rs));
    }
    if !Hit(d, r.sector, r.writing, r.at) {
      UnbufferedFinish(d, r.sector, r.writing, r.at);
    }
  }

  /** The device: its two fields, and the request that moves them. */
  class Disk {
    var lastSector: nat
    var bufferInit: nat
    var active: bool

    ghost function State(): Head
      reads this
    {
      Head(lastSector, bufferInit)
    }

    constructor ()
      ensures State() == HeadAfter([]) && !active
    {
      lastSector, bufferInit, active := 0, 0, false;
    }

    /** ReadRequest and WriteRequest: the delay after which the completion interrupt is scheduled. */
    method Start(sector: nat, writing: bool, totalTicks: nat, ghost history: seq<Request>) returns (ticks: nat)
      requires !active && sector < NUM_SECTORS && State() == HeadAfter(history)
      modifies this
      ensures active && ticks == ComputeLatency(old(State()), sector, writing, totalTicks)
      ensures State() == HeadAfter(history + [Request(totalTicks, sector, writing)]) && lastSector == sector
      ensures OneAtATime(history + [Request(totalTicks, sector, writing)]) ==>
        Timed(history, Request(totalTicks, sector, writing), ticks)
    {
      ticks := ComputeLatency(Head(lastSector, bufferInit), sector, writing, totalTicks);
      active := true;
      var (seek, rotate) := TimeToSeek(lastSector, sector, totalTicks);
      if seek != 0 {
        bufferInit := totalTicks + seek + rotate;
      }
      lastSector := sector;
      assert (history + [Request(totalTicks, sector, writing)])[..|history|] == history;
      if OneAtATime(history + [Request(totalTicks, sector, writing)]) {
        RunTiming(history, Request(totalTicks, sector, writing));
      }
    }

    method HandleInterrupt()
      modifies this`active
      ensures !active
    {
      active := false;
    }
  }
}
