/** The leg pulser: arming, the timer interrupt, and whole legs (src/node/types/stepper/leg.cpp). */
module LegPulser {
  import opened LegRamps

  const LIMIT_SAMPLES: nat := 3
  const TICKS_PER_US: nat := 3   // a 24 MHz part, divided by 8

  datatype Mode = Seek | Retract | Sweep | Park

  datatype Leg = Leg(interval: nat, floor: nat, rampStep: nat, start: nat, up: nat, remaining: nat, dir: bool, mode: Mode,
                     limitRun: nat, active: bool, hitLimit: bool, ended: bool, position: int)

  datatype Nak = Armed | Busy | BadArg

  /** Refuses rather than clamps; otherwise microseconds become ticks and the leg starts. */
  function Arm(l: Leg, mode: Mode, dir: bool, startUs: nat, floorUs: nat, rampSteps: nat, maxSteps: nat): (Leg, Nak) {
    var start, floor := startUs * TICKS_PER_US, floorUs * TICKS_PER_US;
    if l.active then (l, Busy)
    else if startUs == 0 || floorUs == 0 || floorUs > startUs || maxSteps == 0 then (l, BadArg)
    else if start > 0xffff || start == 0 || floor == 0 then (l, BadArg)
    else (Leg(if rampSteps > 0 then start else floor, floor, if rampSteps > 0 then (start - floor) / rampSteps else 0,
              start, 0, maxSteps, dir, mode, 0, true, false, l.ended, l.position),
          Nak.Armed)
  }

  function Halt(l: Leg): Leg { l.(active := false, ended := true) }

  /** 16-bit wrap-around. */
  function W16(x: int): nat { x % U16 }

  lemma W16Is(x: int)
    ensures 0 <= x < U16 ==> W16(x) == x
    ensures U16 <= x < 2 * U16 ==> W16(x) == x - U16
    ensures -U16 <= x < 0 ==> W16(x) == x + U16
  {
  }

  /** The next interval, in 16-bit arithmetic. */
  function Ramped(l: Leg): Leg {
    if l.mode.Park? && l.remaining <= l.up then
      if l.rampStep == 0 then l else
        var next := W16(l.interval + l.rampStep);
        l.(interval := if next > l.start then l.start else next)
    else if l.rampStep > 0 && l.interval > l.floor then
      var next := W16(l.interval - l.rampStep);
      l.(interval := if next < l.floor then l.floor else next, up := if l.mode.Park? then W16(l.up + 1) else l.up)
    else l
  }

  function Stepped(l: Leg): Leg
    requires l.remaining > 0
  {
    l.(position := l.position + (if l.dir then 1 else -1), remaining := l.remaining - 1)
  }

  predicate Watches(m: Mode) { m.Seek? || m.Park? }

  /** One timer overflow: the stop conditions, then the step, then the ramp. */
  function Interrupt(l: Leg, asserted: bool, answered: bool): Leg {
    if !l.active then l
    else if Watches(l.mode) && asserted && l.limitRun + 1 >= LIMIT_SAMPLES then
      Halt(l.(limitRun := l.limitRun + 1, hitLimit := true))
    else
      var l1 := if Watches(l.mode) then l.(limitRun := if asserted then l.limitRun + 1 else 0) else l;
      if l1.remaining == 0 then Halt(l1)
      else if l.mode.Sweep? && answered then Halt(Stepped(l1))
      else Ramped(Stepped(l1))
  }

  // ─── The ramp over a whole leg ─────────────────────────────────────────────

  function RampOf(l: Leg): Ramp { Ramp(l.start, l.floor, l.rampStep, l.remaining) }

  /** A leg at its arming. */
  predicate Started(l: Leg) { l.active && l.up == 0 && l.limitRun == 0 && !l.hitLimit }

  /** One that ramps from its start interval. */
  predicate Ready(l: Leg) { Started(l) && LegRamps.Armed(RampOf(l)) && l.interval == l.start }

  /** The leg after i steps, nothing stopping it. */
  function After(l: Leg, i: nat): (m: Leg)
    requires i <= l.remaining
    ensures m.remaining == l.remaining - i
  {
    if i == 0 then l else Ramped(Stepped(After(l, i - 1)))
  }

  /** Some 16-bit sum or difference of the park wraps: its last climbing step passes zero, or its last step up passes
      65535. */
  predicate ParkWraps(p: Ramp)
    requires LegRamps.Armed(p)
  {
    p.r > 0 && ((Up(p) == Climb(p) && Ticks(Climb(p), p.r) > p.s) || ParkProfile(p, p.n - 1) + p.r >= U16)
  }

  predicate Tracks(l: Leg, m: Leg, i: nat)
    requires LegRamps.Armed(RampOf(l)) && i <= l.remaining
  {
    && m == l.(interval := m.interval, up := m.up, remaining := l.remaining - i, position := m.position)
    && m.interval == ParkProfile(RampOf(l), i) && m.up == Min(i, Up(RampOf(l)))
  }

  /** The last step up is the highest. */
  lemma LastIsHighest(p: Ramp, i: nat)
    requires LegRamps.Armed(p) && Up(p) <= i < p.n && p.n - i - 1 <= Up(p)
    ensures ParkProfile(p, i) <= ParkProfile(p, p.n - 1)
    decreases p.n - i
  {
    hide ParkProfile, Up;
    if i < p.n - 1 {
      ProfileStep(p, i);
      ProfileRange(p, i);
      LastIsHighest(p, i + 1);
    }
  }

  lemma LastClimb(p: Ramp, i: nat)
    requires LegRamps.Armed(p) && i < Up(p) && !ParkWraps(p)
    ensures ParkProfile(p, i) >= p.r
  {
    hide Ticks, Climb;
    ProfileStep(p, i);
    StepDown(p, i);
    ClimbIs(p);
    TicksNext(i, p.r);
    TicksGrow(i + 1, Up(p), p.r);
    if Up(p) < Climb(p) { TicksGrow(i + 1, Climb(p) - 1, p.r); }
  }

  /** One step along the profile, if its own sum does not wrap. */
  lemma TracksNext(l: Leg, m: Leg, i: nat)
    requires Ready(l) && l.mode.Park? && i < l.remaining && Tracks(l, m, i)
    requires var p := RampOf(l);
      && (i < Up(p) ==> ParkProfile(p, i) >= p.r)
      && (p.r > 0 && i >= Up(p) && p.n - i - 1 <= Up(p) ==> ParkProfile(p, i) + p.r < U16)
    ensures Tracks(l, Ramped(Stepped(m)), i + 1)
  {
    hide ParkProfile, Up, W16;
    var p := RampOf(l);
    ProfileStep(p, i);
    ProfileRange(p, i);
    UpFits(p);
    W16Is(m.interval + p.r);
    W16Is(m.interval - p.r);
    W16Is(m.up + 1);
  }

  lemma UpFits(p: Ramp)
    requires LegRamps.Armed(p)
    ensures Up(p) < U16 - 1 && (p.r == 0 ==> Up(p) == 0)
  {
    hide Climb;
    if p.r > 0 { ClimbIs(p); } else { NoRamp(p); }
  }

  lemma {:induction false} ParkTracks(l: Leg, i: nat)
    requires Ready(l) && l.mode.Park? && i <= l.remaining && !ParkWraps(RampOf(l))
    ensures Tracks(l, After(l, i), i)
  {
    hide ParkProfile, Up, Ramped, Stepped, Climb;
    var p := RampOf(l);
    if i == 0 {
      ProfileEnds(p);
      UpFits(p);
    } else {
      ParkTracks(l, i - 1);
      if i - 1 < Up(p) { LastClimb(p, i - 1); }
      if i - 1 >= Up(p) && p.n - i <= Up(p) { LastIsHighest(p, i - 1); }
      TracksNext(l, After(l, i - 1), i - 1);
    }
  }

  // ─── And exactly then ──────────────────────────────────────────────────────

  ghost predicate Follows(l: Leg, n: nat)
    requires LegRamps.Armed(RampOf(l)) && n <= l.remaining
  {
    forall i: nat :: i <= n ==> After(l, i).interval == ParkProfile(RampOf(l), i)
  }

  /** Whatever wraps, the climbing count goes by the profile while the interval does. */
  lemma UpNext(l: Leg, m: Leg, i: nat)
    requires Ready(l) && l.mode.Park? && i < l.remaining && Tracks(l, m, i)
    ensures var m1 := Ramped(Stepped(m));
      m1.up == Min(i + 1, Up(RampOf(l))) && m1 == m.(interval := m1.interval, up := m1.up, remaining := m.remaining - 1,
                                                     position := m1.position)
  {
    hide ParkProfile, Up, W16;
    var p := RampOf(l);
    ProfileStep(p, i);
    ProfileRange(p, i);
    UpFits(p);
    W16Is(m.up + 1);
  }

  lemma {:induction false} FollowsTracks(l: Leg, i: nat)
    requires Ready(l) && l.mode.Park? && i <= l.remaining && Follows(l, i)
    ensures Tracks(l, After(l, i), i)
  {
    hide ParkProfile, Up, Ramped, Stepped, Climb;
    if i == 0 {
      ProfileEnds(RampOf(l));
      UpFits(RampOf(l));
    } else {
      FollowsTracks(l, i - 1);
      UpNext(l, After(l, i - 1), i - 1);
      assert After(l, i).interval == ParkProfile(RampOf(l), i);
    }
  }

  /** The last climbing step, if it passes zero, leaves a slow interval instead of the floor. */
  lemma ClimbBreaks(l: Leg, m: Leg)
    requires Ready(l) && l.mode.Park? && l.rampStep > 0
    requires var p := RampOf(l); Up(p) == Climb(p) >= 1 && Ticks(Climb(p), p.r) > p.s
    requires Climb(RampOf(l)) <= l.remaining && Tracks(l, m, Climb(RampOf(l)) - 1)
    ensures Ramped(Stepped(m)).interval != ParkProfile(RampOf(l), Climb(RampOf(l)))
  {
    hide ParkProfile, Up, W16, Climb, Ticks;
    var p := RampOf(l);
    var i := Climb(p) - 1;
    ProfileStep(p, i);
    StepDown(p, i);
    TicksNext(i, p.r);
    W16Is(m.interval - p.r);
  }

  lemma LastBreaks(l: Leg, m: Leg)
    requires Ready(l) && l.mode.Park? && l.rampStep > 0 && Tracks(l, m, l.remaining - 1)
    requires ParkProfile(RampOf(l), l.remaining - 1) + l.rampStep >= U16
    ensures Ramped(Stepped(m)).interval != ParkProfile(RampOf(l), l.remaining)
  {
    hide ParkProfile, Up, W16, Climb, Ticks;
    var p := RampOf(l);
    ProfileRange(p, p.n - 1);
    ProfileEnds(p);
    W16Is(m.interval + p.r);
  }

  /** A park follows its profile from the first step to the last if and only if none of its 16-bit sums wraps. */
  lemma ParkExact(l: Leg)
    requires Ready(l) && l.mode.Park?
    ensures Follows(l, l.remaining) <==> !ParkWraps(RampOf(l))
  {
    hide ParkProfile, Up, Climb, Ramped, Stepped, Ticks, Tracks;
    var p := RampOf(l);
    if !ParkWraps(p) {
      forall i: nat | i <= l.remaining
        ensures After(l, i).interval == ParkProfile(p, i)
      {
        ParkTracks(l, i);
        TracksInterval(l, After(l, i), i);
      }
    } else if Follows(l, l.remaining) {
      if ParkProfile(p, p.n - 1) + p.r >= U16 {
        FollowsTracks(l, p.n - 1);
        LastBreaks(l, After(l, p.n - 1));
      } else {
        ClimbIs(p);
        UpIs(p);
        FollowsTracks(l, Climb(p) - 1);
        ClimbBreaks(l, After(l, Climb(p) - 1));
      }
      assert false;
    }
  }

  lemma TracksInterval(l: Leg, m: Leg, i: nat)
    requires LegRamps.Armed(RampOf(l)) && i <= l.remaining && Tracks(l, m, i)
    ensures m.interval == ParkProfile(RampOf(l), i)
  {
  }

  lemma UpIs(p: Ramp)
    requires LegRamps.Armed(p)
    ensures Up(p) <= p.n
  {
  }

  /** No ramp step over the floor, and none that carries the start interval past 65535, is enough. */
  lemma SmallRampFits(p: Ramp)
    requires LegRamps.Armed(p) && p.r <= p.f && p.s + p.r < U16
    ensures !ParkWraps(p)
  {
    hide ParkProfile, Climb, Ticks;
    ProfileRange(p, p.n - 1);
    if p.r > 0 {
      ClimbIs(p);
      TicksNext(Climb(p) - 1, p.r);
    }
  }

  function Idle(): Leg { Leg(0, 0, 0, 0, 0, 0, false, Seek, 0, false, false, false, 0) }

  /** It does happen: 110 us down to 10 us in 7 ramp steps is 330 ticks less 42 a step, and the eighth step of a long
      park takes 36 ticks to 65530. */
  lemma WrapsSometimes()
    ensures var l := Arm(Idle(), Park, true, 110, 10, 7, 1000).0;
      Ready(l) && ParkWraps(RampOf(l)) && !Follows(l, 1000)
  {
    hide Ramped, Stepped, ParkProfile, Follows;
    var p := Ramp(330, 30, 42, 1000);
    assert Climb(p) == 8 && Up(p) == 8 && Ticks(8, 42) == 336;
    ParkExact(Arm(Idle(), Park, true, 110, 10, 7, 1000).0);
  }

  // ─── Legs that only climb ──────────────────────────────────────────────────

  predicate SeekWraps(p: Ramp)
    requires LegRamps.Armed(p)
  {
    p.r > 0 && p.n >= Climb(p) && Ticks(Climb(p), p.r) > p.s
  }

  predicate Climbs(l: Leg, m: Leg, i: nat)
    requires LegRamps.Armed(RampOf(l)) && i <= l.remaining
  {
    && m == l.(interval := m.interval, remaining := l.remaining - i, position := m.position)
    && m.interval == SeekProfile(RampOf(l), i)
  }

  lemma ClimbsNext(l: Leg, m: Leg, i: nat)
    requires Ready(l) && !l.mode.Park? && i < l.remaining && Climbs(l, m, i)
    ensures var p, m1 := RampOf(l), Ramped(Stepped(m));
      && m1 == m.(interval := m1.interval, remaining := m.remaining - 1, position := m1.position)
      && (m.interval <= p.f || p.r <= m.interval ==> Climbs(l, m1, i + 1))
      && (m.interval > p.f && m.interval < p.r ==> m1.interval > p.f == SeekProfile(p, i + 1))
  {
    hide W16, Ticks;
    W16Is(m.interval - l.rampStep);
    TicksNext(i, l.rampStep);
    TicksPositive(i, l.rampStep);
  }

  /** Only the step that reaches the floor can pass zero. */
  lemma ClimbSafe(p: Ramp, i: nat)
    requires LegRamps.Armed(p) && i < p.n
    ensures var v := SeekProfile(p, i);
      v > p.f && v < p.r ==> i + 1 == Climb(p) && Ticks(Climb(p), p.r) > p.s
    ensures p.r > 0 && i + 1 == Climb(p) && Ticks(Climb(p), p.r) > p.s ==> p.f < SeekProfile(p, i) < p.r
  {
    hide Ticks, Climb;
    TicksPositive(i, p.r);
    if p.r > 0 {
      ClimbIs(p);
      TicksNext(Climb(p) - 1, p.r);
      TicksNext(i, p.r);
      if i + 1 < Climb(p) { TicksGrow(i + 1, Climb(p) - 1, p.r); }
      if i >= Climb(p) { TicksGrow(Climb(p), i, p.r); }
    }
  }

  lemma {:induction false} SeekTracks(l: Leg, i: nat)
    requires Ready(l) && !l.mode.Park? && i <= l.remaining
    requires !SeekWraps(RampOf(l)) || (forall j: nat :: j <= i ==> After(l, j).interval == SeekProfile(RampOf(l), j))
    ensures Climbs(l, After(l, i), i)
  {
    hide SeekProfile, Ramped, Stepped, Climb, Ticks;
    var p := RampOf(l);
    if i == 0 {
      SeekStarts(p);
    } else {
      SeekTracks(l, i - 1);
      ClimbsNext(l, After(l, i - 1), i - 1);
      ClimbSafe(p, i - 1);
      assert !SeekWraps(p) || After(l, i).interval == SeekProfile(p, i);
    }
  }

  lemma SeekStarts(p: Ramp)
    requires LegRamps.Armed(p)
    ensures SeekProfile(p, 0) == p.s
  {
  }

  /** A seek, retract or sweep follows its profile down to the floor if and only if the last climbing step is not
      reached or does not wrap. */
  lemma SeekExact(l: Leg)
    requires Ready(l) && !l.mode.Park?
    ensures (forall i: nat :: i <= l.remaining ==> After(l, i).interval == SeekProfile(RampOf(l), i))
       <==> !SeekWraps(RampOf(l))
  {
    hide SeekProfile, Climb, Ramped, Stepped, Ticks;
    var p := RampOf(l);
    if !SeekWraps(p) {
      forall i: nat | i <= l.remaining
        ensures After(l, i).interval == SeekProfile(p, i)
      {
        SeekTracks(l, i);
      }
    } else if forall i: nat :: i <= l.remaining ==> After(l, i).interval == SeekProfile(p, i) {
      ClimbIs(p);
      var i := Climb(p) - 1;
      assert After(l, i + 1).interval == SeekProfile(p, i + 1);
      SeekTracks(l, i);
      ClimbSafe(p, i);
      ClimbsNext(l, After(l, i), i);
      assert false;
    }
  }

  // ─── Whole legs under the interrupt ────────────────────────────────────────

  /** What one overflow finds: the switch's reading and, of a sweep, the Hall detector's answer. */
  datatype Found = Found(asserted: bool, answered: bool)

  /** The leg after the first n overflows. */
  function Overflows(l: Leg, found: seq<Found>, n: nat): Leg
    requires n <= |found|
  {
    if n == 0 then l else Interrupt(Overflows(l, found, n - 1), found[n - 1].asserted, found[n - 1].answered)
  }

  /** Overflows depend only on what they find. */
  lemma {:induction false} OverflowsKept(l: Leg, found: seq<Found>, more: seq<Found>, n: nat)
    requires n <= |found| <= |more| && found == more[..|found|]
    ensures Overflows(l, found, n) == Overflows(l, more, n)
  {
    hide Interrupt;
    if n > 0 { OverflowsKept(l, found, more, n - 1); }
  }

  /** The switch read asserted three times running, ending at overflow i. */
  predicate TripAt(found: seq<Found>, i: nat)
    requires i < |found|
  {
    i >= 2 && found[i].asserted && found[i - 1].asserted && found[i - 2].asserted
  }

  predicate Clear(found: seq<Found>, n: nat)
    requires n <= |found|
  {
    forall i: nat :: i < n ==> !TripAt(found, i)
  }

  predicate Unanswered(found: seq<Found>, n: nat)
    requires n <= |found|
  {
    forall i: nat :: i < n ==> !found[i].answered
  }

  /** Nothing among the first n overflows stops the leg but its budget. */
  predicate Quiet(l: Leg, found: seq<Found>, n: nat)
    requires n <= |found|
  {
    (Watches(l.mode) ==> Clear(found, n)) && (l.mode.Sweep? ==> Unanswered(found, n))
  }

  /** Asserted samples in a row, up to two, just before n. */
  function RunBefore(found: seq<Found>, n: nat): nat
    requires n <= |found|
  {
    if n >= 1 && found[n - 1].asserted then (if n >= 2 && found[n - 2].asserted then 2 else 1) else 0
  }

  function Sign(l: Leg): int { if l.dir then 1 else -1 }

  /** Every overflow so far has stepped, and the ramp is the unwatched leg's. */
  predicate Running(l: Leg, m: Leg, found: seq<Found>, n: nat)
    requires n <= |found| && n <= l.remaining
  {
    && m == After(l, n).(limitRun := if Watches(l.mode) then RunBefore(found, n) else 0)
    && m.active && m.position == l.position + n * Sign(l) && m.mode == l.mode && m.dir == l.dir && !m.hitLimit
  }

  lemma RampedKeeps(m: Leg, run: nat)
    requires m.remaining > 0
    ensures var a := Ramped(Stepped(m));
      && a.active == m.active && a.hitLimit == m.hitLimit && a.mode == m.mode && a.dir == m.dir && a.limitRun == m.limitRun
      && a.position == m.position + Sign(m)
      && Ramped(Stepped(m.(limitRun := run))) == a.(limitRun := run)
  {
    hide W16;
  }

  lemma RunsOn(l: Leg, m: Leg, found: seq<Found>, n: nat)
    requires Started(l) && n < |found| && n < l.remaining && Running(l, m, found, n) && Quiet(l, found, n + 1)
    ensures Running(l, Interrupt(m, found[n].asserted, found[n].answered), found, n + 1)
  {
    hide Ramped, Stepped;
    RampedKeeps(After(l, n), if Watches(l.mode) then RunBefore(found, n + 1) else 0);
    assert Watches(l.mode) ==> !TripAt(found, n);
  }

  lemma {:induction false} KeepsRunning(l: Leg, found: seq<Found>, n: nat)
    requires Started(l) && n <= |found| && n <= l.remaining && Quiet(l, found, n)
    ensures Running(l, Overflows(l, found, n), found, n)
  {
    hide Interrupt;
    if n > 0 {
      KeepsRunning(l, found, n - 1);
      RunsOn(l, Overflows(l, found, n - 1), found, n - 1);
    }
  }

  lemma {:induction false} StaysHalted(l: Leg, found: seq<Found>, k: nat, n: nat)
    requires k <= n <= |found| && !Overflows(l, found, k).active
    ensures Overflows(l, found, n) == Overflows(l, found, k)
  {
    if k < n { StaysHalted(l, found, k, n - 1); }
  }

  /** With nothing else to stop it the leg spends exactly its budget and stops on the overflow after. */
  lemma SpendsBudget(l: Leg, found: seq<Found>)
    requires Started(l) && |found| > l.remaining && Quiet(l, found, l.remaining)
    requires Watches(l.mode) ==> Clear(found, l.remaining + 1)
    ensures var m := Overflows(l, found, |found|);
      !m.active && !m.hitLimit && m.ended && m.remaining == 0 && m.position == l.position + l.remaining * Sign(l)
  {
    hide Ramped, Stepped;
    var n := l.remaining;
    KeepsRunning(l, found, n);
    assert Watches(l.mode) ==> !TripAt(found, n);
    StaysHalted(l, found, n + 1, |found|);
  }

  /** A tripped switch stops a seek or a park on the third asserted sample, before that overflow's step. */
  lemma StopsOnTrip(l: Leg, found: seq<Found>, i: nat)
    requires Started(l) && Watches(l.mode) && i < |found| && i <= l.remaining && Clear(found, i) && TripAt(found, i)
    ensures var m := Overflows(l, found, |found|);
      !m.active && m.hitLimit && m.ended && m.remaining == l.remaining - i && m.position == l.position + i * Sign(l)
  {
    hide Ramped, Stepped;
    KeepsRunning(l, found, i);
    StaysHalted(l, found, i + 1, |found|);
  }

  /** A sweep stops on the step whose sample completes the answer, taking that step. */
  lemma StopsOnAnswer(l: Leg, found: seq<Found>, i: nat)
    requires Started(l) && l.mode.Sweep? && i < |found| && i < l.remaining && Unanswered(found, i) && found[i].answered
    ensures var m := Overflows(l, found, |found|);
      && !m.active && !m.hitLimit && m.ended
      && m.remaining == l.remaining - i - 1 && m.position == l.position + (i + 1) * Sign(l)
  {
    hide Ramped;
    KeepsRunning(l, found, i);
    StaysHalted(l, found, i + 1, |found|);
  }

  lemma {:induction false} FirstTrip(found: seq<Found>, n: nat) returns (i: nat)
    requires n <= |found| && !Clear(found, n)
    ensures i < n && TripAt(found, i) && Clear(found, i)
  {
    if n > 0 && !Clear(found, n - 1) {
      i := FirstTrip(found, n - 1);
    } else {
      i := n - 1;
    }
  }

  /** Spent to the last step, with no switch met. */
  predicate RanOut(l: Leg, m: Leg) { m.remaining == 0 && m.position == l.position + l.remaining * Sign(l) && !m.hitLimit }

  /** Stopped by its switch after n steps. */
  predicate Tripped(l: Leg, m: Leg, n: nat) {
    n <= l.remaining && m.remaining == l.remaining - n && m.position == l.position + n * Sign(l) && m.hitLimit
  }

  /** How every leg ends, once its budget and one overflow have gone by: a retract takes its whole budget whatever the switch
      and the detector read; a seek or a park does unless the switch reads asserted three times running, and then stops where
      it first has; a sweep, whatever the switch reads, unless it is answered, and then stops on that step. */
  lemma LegEnds(l: Leg, found: seq<Found>)
    requires Started(l) && |found| > l.remaining
    ensures var m := Overflows(l, found, |found|);
      && !m.active && m.ended
      && (l.mode.Retract? ==> RanOut(l, m))
      && (l.mode.Seek? || l.mode.Park? ==>
            && (RanOut(l, m) <==> Clear(found, l.remaining + 1))
            && forall i: nat :: i <= l.remaining && TripAt(found, i) && Clear(found, i) ==> Tripped(l, m, i))
      && (l.mode.Sweep? ==>
            && !m.hitLimit
            && (Unanswered(found, l.remaining) ==> RanOut(l, m))
            && forall i: nat :: i < l.remaining && found[i].answered && Unanswered(found, i) ==>
                 m.remaining == l.remaining - i - 1 && m.position == l.position + (i + 1) * Sign(l))
  {
    hide Overflows, Clear, Unanswered;
    match l.mode
    case Retract => SpendsBudget(l, found);
    case Sweep => SweepEnds(l, found);
    case _ => WatchedEnds(l, found);
  }

  lemma WatchedEnds(l: Leg, found: seq<Found>)
    requires Started(l) && |found| > l.remaining && (l.mode.Seek? || l.mode.Park?)
    ensures var m := Overflows(l, found, |found|);
      && !m.active && m.ended && (RanOut(l, m) <==> Clear(found, l.remaining + 1))
      && forall i: nat :: i <= l.remaining && TripAt(found, i) && Clear(found, i) ==> Tripped(l, m, i)
  {
    hide Overflows, TripAt;
    var n := l.remaining + 1;
    if Clear(found, n) {
      SpendsBudget(l, found);
    } else {
      var j := FirstTrip(found, n);
      StopsOnTrip(l, found, j);
      forall i: nat | i <= l.remaining && TripAt(found, i) && Clear(found, i)
        ensures i == j
      {
      }
    }
  }

  lemma SweepEnds(l: Leg, found: seq<Found>)
    requires Started(l) && |found| > l.remaining && l.mode.Sweep?
    ensures var m := Overflows(l, found, |found|);
      && !m.active && m.ended && !m.hitLimit && (Unanswered(found, l.remaining) ==> RanOut(l, m))
      && forall i: nat :: i < l.remaining && found[i].answered && Unanswered(found, i) ==>
           m.remaining == l.remaining - i - 1 && m.position == l.position + (i + 1) * Sign(l)
  {
    hide Overflows;
    if Unanswered(found, l.remaining) {
      SpendsBudget(l, found);
    } else {
      var j := FirstAnswer(found, l.remaining);
      StopsOnAnswer(l, found, j);
      forall i: nat | i < l.remaining && found[i].answered && Unanswered(found, i)
        ensures i == j
      {
      }
    }
  }

  lemma {:induction false} FirstAnswer(found: seq<Found>, n: nat) returns (i: nat)
    requires n <= |found| && !Unanswered(found, n)
    ensures i < n && found[i].answered && Unanswered(found, i)
  {
    if n > 0 && !Unanswered(found, n - 1) {
      i := FirstAnswer(found, n - 1);
    } else {
      i := n - 1;
    }
  }

  /** What may be armed: an idle pulser, a budget, and a cruise rate no slower than the start rate, which fits 16 bits in
      ticks; anything else changes nothing, and only a moving pulser is busy. An armed leg starts at the start rate if it
      ramps and else at its cruise rate, and its ramp takes no more than the steps it was given off the start. */
  lemma ArmsExactly(l: Leg, mode: Mode, dir: bool, startUs: nat, floorUs: nat, rampSteps: nat, maxSteps: nat)
    ensures var (m, why) := Arm(l, mode, dir, startUs, floorUs, rampSteps, maxSteps);
      && (why == Nak.Armed <==> !l.active && 1 <= floorUs <= startUs && startUs * TICKS_PER_US < U16 && maxSteps >= 1)
      && (why == Busy <==> l.active) && (why != Nak.Armed ==> m == l)
      && (why == Nak.Armed ==>
            && Started(m) && m.mode == mode && m.dir == dir && m.remaining == maxSteps && m.position == l.position
            && m.start == startUs * TICKS_PER_US && m.floor == floorUs * TICKS_PER_US
            && m.interval == (if rampSteps == 0 then m.floor else m.start)
            && (rampSteps == 0 ==> m.rampStep == 0)
            && (rampSteps > 0 ==> m.rampStep * rampSteps <= m.start - m.floor < (m.rampStep + 1) * rampSteps))
  {
    if rampSteps > 0 && startUs >= floorUs { DivBounds(startUs * TICKS_PER_US - floorUs * TICKS_PER_US, rampSteps); }
  }

  lemma DivBounds(d: nat, n: nat)
    requires n > 0
    ensures d / n * n <= d < (d / n + 1) * n
  {
  }

  /** What CMD_PARK_LEG arms. */
  function ParkTo(l: Leg, target: int, startUs: nat, floorUs: nat, rampSteps: nat): (Leg, Nak)
    requires target != l.position
  {
    var dir := target > l.position;
    Arm(l, Park, dir, startUs, floorUs, rampSteps, if dir then target - l.position else l.position - target)
  }

  /** A park takes exactly |target - position| steps and ends on target, unless and only unless its switch trips first. */
  lemma ParkArrives(l0: Leg, target: int, startUs: nat, floorUs: nat, rampSteps: nat, found: seq<Found>)
    requires target != l0.position
    requires ParkTo(l0, target, startUs, floorUs, rampSteps).1 == Nak.Armed
    requires |found| > ParkTo(l0, target, startUs, floorUs, rampSteps).0.remaining
    ensures var l := ParkTo(l0, target, startUs, floorUs, rampSteps).0;
      var m := Overflows(l, found, |found|);
      && !m.active
      && (m.position == target && !m.hitLimit <==> Clear(found, l.remaining + 1))
      && (m.hitLimit <==> !Clear(found, l.remaining + 1))
  {
    hide Ramped, Stepped, Interrupt;
    var l := ParkTo(l0, target, startUs, floorUs, rampSteps).0;
    if Clear(found, l.remaining + 1) {
      SpendsBudget(l, found);
    } else {
      var i := FirstTrip(found, l.remaining + 1);
      StopsOnTrip(l, found, i);
    }
  }

  /** Every armed leg with a ramp is within the 16-bit range the profile needs. */
  lemma ArmReady(l: Leg, mode: Mode, dir: bool, startUs: nat, floorUs: nat, rampSteps: nat, maxSteps: nat)
    requires Arm(l, mode, dir, startUs, floorUs, rampSteps, maxSteps).1 == Nak.Armed && rampSteps > 0
    ensures Ready(Arm(l, mode, dir, startUs, floorUs, rampSteps, maxSteps).0)
  {
    var d := (startUs - floorUs) * TICKS_PER_US;
    DivIs(d, rampSteps);
    TicksAtLeast(d / rampSteps, rampSteps);
  }
}
