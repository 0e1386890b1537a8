/** The leg pulser's state and interrupt, in place (src/node/types/stepper/leg.cpp). */
module LegIsr {
  import opened LegRamps
  import opened LegPulser

  class Pulser {
    var interval: nat
    var floorTicks: nat
    var rampStep: nat
    var startTicks: nat
    var upSteps: nat
    var remaining: nat
    var dir: bool
    var mode: Mode
    var limitRun: nat
    var legActive: bool
    var legHitLimit: bool
    var legFinished: bool
    var absolutePosition: int
    ghost var armed: Leg            // as last armed
    ghost var found: seq<Found>     // what every overflow since has found

    ghost function View(): (l: Leg)
      reads this`interval, this`floorTicks, this`rampStep, this`startTicks, this`upSteps, this`remaining, this`dir
      reads this`mode, this`limitRun, this`legActive, this`legHitLimit, this`legFinished, this`absolutePosition
      ensures l.active == legActive && l.remaining == remaining && l.mode == mode && l.limitRun == limitRun
      ensures l.ended == legFinished && l.position == absolutePosition && l.hitLimit == legHitLimit
    {
      Leg(interval, floorTicks, rampStep, startTicks, upSteps, remaining, dir, mode, limitRun, legActive, legHitLimit,
          legFinished, absolutePosition)
    }

    /** The object is the leg armed last, after the overflows since. */
    ghost predicate Valid()
      reads this
    {
      View() == Overflows(armed, found, |found|)
    }

    constructor ()
      ensures Valid() && View() == Idle()
    {
      interval, floorTicks, rampStep, startTicks, upSteps, remaining := 0, 0, 0, 0, 0, 0;
      dir, mode, limitRun := false, Seek, 0;
      legActive, legHitLimit, legFinished, absolutePosition := false, false, false, 0;
      armed, found := Idle(), [];
    }

    method Arm(mode: Mode, dir: bool, startUs: nat, floorUs: nat, rampSteps: nat, maxSteps: nat) returns (why: Nak)
      requires Valid()
      modifies this
      ensures Valid()
      ensures (View(), why) == LegPulser.Arm(old(View()), mode, dir, startUs, floorUs, rampSteps, maxSteps)
      ensures why == Nak.Armed ==> armed == View() && found == []
      ensures why != Nak.Armed ==> armed == old(armed) && found == old(found)
    {
      hide View;
      if legActive { return Busy; }
      if startUs == 0 || floorUs == 0 { return BadArg; }
      if floorUs > startUs { return BadArg; }
      if maxSteps == 0 { return BadArg; }
      var start, floor := startUs * TICKS_PER_US, floorUs * TICKS_PER_US;
      if start > 0xffff || start == 0 { return BadArg; }
      if floor == 0 { return BadArg; }
      var first := if rampSteps > 0 then start else floor;
      var shave := if rampSteps > 0 then (start - floor) / rampSteps else 0;
      Load(first, floor, shave, start, maxSteps, dir, mode);
      armed, found := View(), [];
      return Nak.Armed;
    }

    method Load(first: nat, floor: nat, shave: nat, start: nat, budget: nat, dir: bool, mode: Mode)
      modifies this`dir, this`mode, this`interval, this`floorTicks, this`rampStep, this`startTicks, this`upSteps
      modifies this`remaining, this`limitRun, this`legActive, this`legHitLimit
      ensures View() == Leg(first, floor, shave, start, 0, budget, dir, mode, 0, true, false, old(legFinished),
                            old(absolutePosition))
    {
      this.dir, this.mode := dir, mode;
      interval, floorTicks, rampStep, startTicks := first, floor, shave, start;
      upSteps, remaining, limitRun := 0, budget, 0;
      legActive, legHitLimit := true, false;
    }

    method Halt()
      modifies this`legActive, this`legFinished
      ensures View() == LegPulser.Halt(old(View()))
    {
      legActive, legFinished := false, true;
    }

    /** The ramp: down towards the floor, and up again over the last steps of a park. */
    method NextInterval()
      modifies this`interval, this`upSteps
      ensures View() == Ramped(old(View()))
    {
      if mode == Park && remaining <= upSteps {
        if rampStep > 0 {
          var next := (interval + rampStep) % U16;
          if next > startTicks { next := startTicks; }
          interval := next;
        }
      } else if rampStep > 0 && interval > floorTicks {
        var next := (interval - rampStep) % U16;
        if next < floorTicks { next := floorTicks; }
        interval := next;
        if mode == Park { upSteps := (upSteps + 1) % U16; }
      }
    }

    /** Counts an asserted sample, or starts the count again. */
    method SampleLimit(asserted: bool) returns (tripped: bool)
      modifies this`limitRun, this`legHitLimit, this`legActive, this`legFinished
      ensures tripped == (asserted && old(limitRun) + 1 >= LIMIT_SAMPLES)
      ensures View() == if tripped then LegPulser.Halt(old(View()).(limitRun := old(limitRun) + 1, hitLimit := true))
                        else old(View()).(limitRun := if asserted then old(limitRun) + 1 else 0)
    {
      if asserted {
        limitRun := limitRun + 1;
        if limitRun >= LIMIT_SAMPLES {
          legHitLimit := true;
          Halt();
          return true;
        }
      } else {
        limitRun := 0;
      }
      return false;
    }

    method Step()
      requires remaining > 0
      modifies this`absolutePosition, this`remaining
      ensures View() == Stepped(old(View()))
    {
      absolutePosition := absolutePosition + (if dir then 1 else -1);
      remaining := remaining - 1;
    }

    method Overflow(asserted: bool, answered: bool)
      modifies this`interval, this`upSteps, this`remaining, this`limitRun, this`legActive, this`legHitLimit
      modifies this`legFinished, this`absolutePosition
      ensures View() == LegPulser.Interrupt(old(View()), asserted, answered)
    {
      hide Ramped, View;
      if !legActive { return; }
      if mode == Seek || mode == Park {
        var tripped := SampleLimit(asserted);
        if tripped { return; }
      }
      if remaining == 0 {
        Halt();
        return;
      }
      Step();
      if mode == Sweep && answered {
        Halt();
        return;
      }
      NextInterval();
    }

    /** One timer overflow, given the switch's level and what the Hall detector answers of the step. */
    method Interrupt(asserted: bool, answered: bool)
      requires Valid()
      modifies this
      ensures Valid() && armed == old(armed) && found == old(found) + [Found(asserted, answered)]
      ensures View() == LegPulser.Interrupt(old(View()), asserted, answered)
    {
      hide LegPulser.Interrupt, View;
      OverflowsKept(armed, found, found + [Found(asserted, answered)], |found|);
      Overflow(asserted, answered);
      found := found + [Found(asserted, answered)];
    }
  }

  /** The pulser itself: armed by a park to `target`, once its budget and one overflow have gone by it has stopped; on
      target and off its switch if and only if that never read asserted three times running. */
  lemma Parked(p: Pulser, l0: Leg, target: int, startUs: nat, floorUs: nat, rampSteps: nat)
    requires p.Valid() && target != l0.position
    requires (p.armed, Nak.Armed) == ParkTo(l0, target, startUs, floorUs, rampSteps) && |p.found| > p.armed.remaining
    ensures !p.legActive
    ensures p.absolutePosition == target && !p.legHitLimit <==> Clear(p.found, p.armed.remaining + 1)
    ensures p.legHitLimit <==> !Clear(p.found, p.armed.remaining + 1)
  {
    hide Overflows, ParkTo, Clear;
    ParkArrives(l0, target, startUs, floorUs, rampSteps, p.found);
  }
}
