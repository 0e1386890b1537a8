/** What ends up in the ring: an abort empties it, an event goes once it has run, and nothing else is lost
    (lib/planner/executor.cpp). */
module Aborts {
  import opened Arithmetic
  import opened Trapezoids
  import opened Kinematics
  import opened Paths
  import opened LookAhead
  import opened PlanStates
  import opened ExecStates
  import opened ExecSafety
  import opened RingLock
  import opened Holds
  import opened Systems
  import opened MotionTheorems
  import opened QueueOrder

  // ─── An abort ──────────────────────────────────────────────────────────────

  /** Aborting, and stopping for it. */
  predicate InAbort(m: Machine) { m.e.aborting && !m.e.mode.Running? }

  /** As after a reset: nothing queued, claimed, offered or planned, at rest and ready to run. */
  predicate Emptied(m: Machine) {
    && m.p.q == [] && !m.p.claimed && m.p.offer.None? && m.p.staged.None? && m.p.plan.None? && m.p.pinned == 0.0
    && m.e.mode.Running? && !m.e.aborting && !m.e.cur && m.e.next.None? && !m.e.eventDone
    && m.e.v == 0.0 && m.e.t == 0.0 && m.e.s == 0.0 && m.e.clock == 0.0
  }

  /** In every reachable state a tick that finds or brings an aborting machine to a halt empties it; any other leaves the
      abort standing. */
  lemma AbortEmpties(sq: real -> real, y: System, dt: real)
    requires IsSqrt(sq) && Reached(sq, y) && !y.dirty && y.m.e.aborting
    ensures Shape(y.m)
    ensures Advance(sq, y.m, dt).e.mode.Held? ==> Emptied(Tick(sq, y.m, dt))
    ensures !Advance(sq, y.m, dt).e.mode.Held? ==>
      Tick(sq, y.m, dt).e.aborting && Tick(sq, y.m, dt).e.mode == Advance(sq, y.m, dt).e.mode
  {
    hide Reached, SystemInv, Advance;
    ReachedSafe(sq, y);
    AdvanceAborting(sq, y.m, dt);
  }

  /** So an aborted hold, given the time to shed its speed at the slowest queued acceleration, ends with the ring empty. */
  lemma AbortCompletes(sq: real -> real, y: System, dt: real, aMin: real)
    requires IsSqrt(sq) && Reached(sq, y) && !y.dirty && dt > 0.0
    ensures Shape(y.m)
    ensures InAbort(y.m) && BrakesAt(y.m.p.q, aMin) && y.m.e.v <= Prod(aMin, dt) ==> Emptied(Tick(sq, y.m, dt))
    ensures Shape(Abort(y.m))
    ensures BrakesAt(y.m.p.q, aMin) && y.m.e.v <= Prod(aMin, dt) ==> Emptied(Tick(sq, Abort(y.m), dt))
  {
    hide Reached, SystemInv, Advance, BrakesAt, Prod, Bounded, InHold, Emptied;
    ReachedSafe(sq, y);
    TickRoute(sq, y);
    var a, vCap := SomeBound(y.m.p.q);
    AbortingGood(sq, y);
    if BrakesAt(y.m.p.q, aMin) && y.m.e.v <= Prod(aMin, dt) {
      HoldCompletes(sq, Abort(y.m), dt, aMin, a, vCap);
      HeldEmpties(sq, Abort(y.m), dt);
      if InAbort(y.m) {
        HoldCompletes(sq, y.m, dt, aMin, a, vCap);
        HeldEmpties(sq, y.m, dt);
      }
    }
  }

  lemma HeldEmpties(sq: real -> real, m: Machine, dt: real)
    requires Shape(m) && m.e.aborting && Advance(sq, m, dt).e.mode.Held?
    ensures Emptied(Tick(sq, m, dt))
  {
    hide Advance;
    AdvanceAborting(sq, m, dt);
  }

  lemma AbortingGood(sq: real -> real, y: System)
    requires SystemInv(sq, y) && !y.dirty
    ensures InHold(sq, Abort(y.m)) && Shape(Abort(y.m))
    ensures InAbort(y.m) ==> InHold(sq, y.m)
  {
    hide PlanInv, ExecInv;
    HoldKeepsExec(y.m, true);
    HasShape(Abort(y.m));
  }

  /** Only leaving the finished hold calls an abort off: everything else leaves it standing, or the ring empty. */
  lemma AbortStandsExactly(sq: real -> real, y: System, a: Action)
    requires IsSqrt(sq) && SystemInv(sq, y) && Shape(y.m) && Enabled(y, a) && InAbort(y.m)
    ensures var z := Perform(sq, y, a).m;
      InAbort(z) || Emptied(z) <==> !(y.m.e.mode.Held? && (a.DoRelease? || a.DoResume?))
  {
    hide SystemInv, PushItem, PushAll, EndFront, Replan, Commit, Restart, Advance, NeedsRing;
    match a
    case DoTick(dt) =>
      AdvanceAborting(sq, y.m, dt);
      StaysInHold(sq, y.m, dt);
    case DoReset => Resets(y.m);
    case _ =>
  }

  lemma Resets(m: Machine)
    ensures Emptied(Machine(Reset(m.p), ExecReset(m.e)))
  {
  }

  lemma {:induction false} StaysInHold(sq: real -> real, m: Machine, dt: real)
    requires Shape(m) && !m.e.mode.Running?
    ensures !Advance(sq, m, dt).e.mode.Running?
    decreases |m.p.q|, Pending(m), if dt > 0.0 then 1 else 0
  {
    hide TurnOnce;
    if dt > 0.0 && !m.e.mode.Held? {
      var turn := TurnOnce(sq, m, dt);
      TurnShrinks(sq, m, dt);
      TurnInHold(sq, m, dt);
      if turn.again { StaysInHold(sq, turn.m, turn.left); }
    }
  }

  lemma TurnInHold(sq: real -> real, m: Machine, dt: real)
    requires Shape(m) && !m.e.mode.Running?
    ensures !TurnOnce(sq, m, dt).m.e.mode.Running?
  {
    hide StopDistance, StopTime, EndSpeed, EndTime, Speed, Travel, Piece.At, Piece.SpeedAt, Piece.End;
  }

  /** Somewhere along the run the ring is emptied. */
  predicate EmptiedOn(sq: real -> real, y: System, acts: seq<Action>)
    requires Shape(y.m) && ValidRun(sq, y, acts)
    decreases |acts|
  {
    Emptied(y.m) || (acts != [] && EmptiedOn(sq, Perform(sq, y, acts[0]), acts[1..]))
  }

  predicate LeavesNoHold(acts: seq<Action>) { forall i :: 0 <= i < |acts| ==> !acts[i].DoRelease? && !acts[i].DoResume? }

  /** Over any run that does not leave the hold the abort stands until the ring has been emptied. */
  lemma {:induction false} AbortStands(sq: real -> real, y: System, acts: seq<Action>)
    requires IsSqrt(sq) && SystemInv(sq, y) && Shape(y.m) && ValidRun(sq, y, acts) && LeavesNoHold(acts) && InAbort(y.m)
    ensures InAbort(Final(sq, y, acts).m) || EmptiedOn(sq, y, acts)
    decreases |acts|
  {
    hide SystemInv, Enabled, Perform, Shape, InAbort, Emptied;
    if acts != [] {
      var z := Perform(sq, y, acts[0]);
      PerformKeeps(sq, y, acts[0]);
      AbortStandsExactly(sq, y, acts[0]);
      if InAbort(z.m) {
        AbortStands(sq, z, acts[1..]);
      } else {
        assert EmptiedOn(sq, z, acts[1..]);
      }
    }
  }

  // ─── Without one ───────────────────────────────────────────────────────────

  /** Of the blocks a tick drops, an event is the one it was stopped at, run. */
  predicate OnlyRanEvents(m: Machine, k: nat) {
    k <= |m.p.q| && forall i :: 0 <= i < k && m.p.q[i].kind.Event? ==> i == 0 && m.e.cur && m.e.eventDone
  }

  lemma {:induction false} EventsStay(sq: real -> real, m: Machine, dt: real)
    requires Shape(m)
    ensures |Advance(sq, m, dt).p.q| <= |m.p.q| && OnlyRanEvents(m, |m.p.q| - |Advance(sq, m, dt).p.q|)
    decreases |m.p.q|, Pending(m), if dt > 0.0 then 1 else 0
  {
    hide TurnOnce;
    if dt > 0.0 && !m.e.mode.Held? {
      var turn := TurnOnce(sq, m, dt);
      TurnShrinks(sq, m, dt);
      TurnEvents(sq, m, dt);
      if turn.again {
        EventsStay(sq, turn.m, turn.left);
        if m.p.q != [] && turn.m.p.q == m.p.q[1..] {
          forall i | 0 < i < |m.p.q|
            ensures m.p.q[i] == turn.m.p.q[i - 1]
          {
          }
        }
      }
    }
  }

  lemma TurnEvents(sq: real -> real, m: Machine, dt: real)
    requires Shape(m)
    ensures var r := TurnOnce(sq, m, dt).m;
      || (r.p.q == m.p.q && (r.e.cur && r.e.eventDone ==> m.e.cur && m.e.eventDone))
      || (m.p.q != [] && r.p.q == m.p.q[1..] && !r.e.cur && (m.p.q[0].kind.Event? ==> m.e.cur && m.e.eventDone))
  {
    hide StopDistance, StopTime, EndSpeed, EndTime, Speed, Travel, Piece.At, Piece.SpeedAt, Piece.End;
  }

  /** Without an abort a tick drops no block it has not run: what goes, goes from the front; all of its length but what was
      run before is path this tick moved over; and an event goes only if it was stopped at and has run. */
  lemma DropsWhatRan(sq: real -> real, y: System, dt: real, vCap: real, a: real)
    requires IsSqrt(sq) && Reached(sq, y) && !y.m.e.aborting
    ensures Shape(y.m)
    ensures Enabled(y, DoTick(dt)) && Bounded(y.m.p.q, a, vCap) ==>
      var z, k := Perform(sq, y, DoTick(dt)).m, |y.m.p.q| - |Perform(sq, y, DoTick(dt)).m.p.q|;
      && k >= 0 && z.p.q == y.m.p.q[k..] && OnlyRanEvents(y.m, k)
      && TotalLength(y.m.p.q[..k]) - (if y.m.e.cur then y.m.e.s else 0.0) <= Prod(vCap, dt)
  {
    hide Reached, SystemInv, Bounded, Advance, Prod, NeedsRing, Enabled, ExecInv, OnlyRanEvents;
    ReachedSafe(sq, y);
    if Enabled(y, DoTick(dt)) && Bounded(y.m.p.q, a, vCap) {
      SpeedNeverJumps(sq, y, dt, a, vCap);
      EventsStay(sq, y.m, dt);
      TickDrops(sq, y.m, dt);
      AdvanceAborting(sq, y.m, dt);
      var r := Advance(sq, y.m, dt);
      PerformKeeps(sq, y, DoTick(dt));
      AtPlace(sq, Perform(sq, y, DoTick(dt)));
      var k := |y.m.p.q| - |r.p.q|;
      LengthSplits(y.m.p.q, k);
    }
  }

  lemma AtPlace(sq: real -> real, y: System)
    requires SystemInv(sq, y)
    ensures y.m.e.s >= 0.0
  {
    hide PlanInv, OnPiece, CanBrake;
  }

  lemma {:induction false} LengthSplits(q: seq<Block>, k: nat)
    requires k <= |q|
    ensures TotalLength(q) == TotalLength(q[..k]) + TotalLength(q[k..])
  {
    if k == 0 {
      assert q[0..] == q;
    } else {
      LengthSplits(q[1..], k - 1);
      assert q[1..][..k - 1] == q[..k][1..] && q[1..][k - 1..] == q[k..];
    }
  }

  /** Stopped at an event, a tick waits there until the event has run and then goes past it. */
  lemma EventGoesOnceRun(sq: real -> real, y: System, dt: real)
    requires IsSqrt(sq) && Reached(sq, y) && !y.dirty && dt > 0.0
    ensures Shape(y.m)
    ensures y.m.e.cur && y.m.p.q[0].kind.Event? && !y.m.e.mode.Held? && !y.m.e.aborting ==>
      && (!y.m.e.eventDone ==> Tick(sq, y.m, dt).p == y.m.p && Tick(sq, y.m, dt).e.cur && Tick(sq, y.m, dt).e.v == 0.0)
      && Shape(Perform(sq, y, RanEvent).m)
      && |Tick(sq, Perform(sq, y, RanEvent).m, dt).p.q| < |y.m.p.q|
  {
    hide Reached, SystemInv, Advance, NeedsRing;
    ReachedSafe(sq, y);
    var m := y.m;
    if m.e.cur && m.p.q[0].kind.Event? && !m.e.mode.Held? && !m.e.aborting {
      var z := Perform(sq, y, RanEvent);
      PerformKeeps(sq, y, RanEvent);
      RanIs(sq, y, dt);
      RunIsGood(sq, z);
      NeededRingReleases(sq, z.m, dt);
      AdvanceAborting(sq, z.m, dt);
      if !m.e.eventDone { WaitsThere(sq, m, dt); }
    }
  }

  lemma RanIs(sq: real -> real, y: System, dt: real)
    requires SystemInv(sq, y) && Shape(y.m) && y.m.e.cur && y.m.p.q[0].kind.Event?
    ensures var z := Perform(sq, y, RanEvent);
      && z.m.p == y.m.p && z.dirty == y.dirty && z.m.e.cur && z.m.e.mode == y.m.e.mode && z.m.e.aborting == y.m.e.aborting
      && (!y.m.e.aborting ==> NeedsRing(sq, z.m, dt)) && z.m.e.eventDone
  {
    hide SystemInv;
  }

  lemma WaitsThere(sq: real -> real, m: Machine, dt: real)
    requires Shape(m) && dt > 0.0 && m.e.cur && m.p.q[0].kind.Event? && !m.e.mode.Held? && !m.e.aborting && !m.e.eventDone
    ensures Tick(sq, m, dt).p == m.p && Tick(sq, m, dt).e.cur && Tick(sq, m, dt).e.v == 0.0
  {
  }

  // ─── A piece found late ────────────────────────────────────────────────────

  /** Should a piece be found late all the same, the machine holds where it is and never runs it; in a hold, and between
      blocks, it is dropped. */
  lemma LateNeverRuns(m: Machine)
    requires m.p.staged.Some?
    ensures var x, r := m.p.staged.value, Adopt(m);
      && r.p == m.p.(staged := None)
      && (r.e.next == Some(x) && m.e.next != Some(x) ==> m.e.cur && m.e.mode.Running? && m.e.t < x.t0)
      && (m.e.cur && m.e.mode.Running? && m.e.t >= x.t0 ==> r.e == m.e.(mode := Holding, late := m.e.late + 1))
      && (!m.e.cur || !m.e.mode.Running? ==> r.e == m.e)
  {
  }
}
