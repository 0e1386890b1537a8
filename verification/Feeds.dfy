/** A move pushed with no feed (lib/planner/planner.cpp, lib/planner/trapezoid.cpp): the planner takes it, and it is run
    in no time. */
module Feeds {
  import opened Arithmetic
  import opened Trapezoids
  import opened Kinematics
  import opened Paths
  import opened LookAhead
  import opened PlanStates
  import opened ExecStates
  import opened ExecSafety
  import opened RingLock
  import opened HoldRises

  /** A path that is limited by its axes, with whatever feed it was asked for. */
  predicate Limited(p: Path) { p.length > 0.0 && p.accel > 0.0 && p.vMaxSqr >= 0.0 }

  lemma FedProfile(sq: real -> real, p: Path)
    requires IsSqrt(sq) && Limited(p) && p.vMaxSqr > 0.0
    ensures Sound(ProfileOf(sq, p, 0.0, 0.0)) && ProfileOf(sq, p, 0.0, 0.0).Duration() > 0.0
  {
    hide Make, Sound;
    Monotone(2.0 * p.accel, 2.0 * p.accel, 0.0, p.length);
    MakeExact(sq, p.length, p.accel, 0.0, p.vMaxSqr, 0.0);
    Ends(ProfileOf(sq, p, 0.0, 0.0));
  }

  lemma UnfedPhases(length: real, accel: real)
    requires length > 0.0 && accel > 0.0
    ensures var tr := Phases(length, accel, 0.0, 0.0, 0.0, 0.0, 0.0, 0.0);
      tr == Trapezoid(length, accel, 0.0, 0.0, 0.0, 0.0, 0.0, 0.0, 0.0, 0.0)
  {
  }

  lemma UnfedUnsound(length: real, accel: real)
    requires length > 0.0
    ensures !Sound(Trapezoid(length, accel, 0.0, 0.0, 0.0, 0.0, 0.0, 0.0, 0.0, 0.0))
  {
  }

  lemma UnfedProfile(sq: real -> real, p: Path)
    requires IsSqrt(sq) && Limited(p) && p.vMaxSqr == 0.0
    ensures var tr := ProfileOf(sq, p, 0.0, 0.0);
      !Sound(tr) && tr.length == p.length && tr.Duration() == 0.0 && tr.vExit == 0.0
  {
    hide Phases, Sound;
    SqrtOfSquare(sq, 0.0);
    SignOf(p.accel, p.length);
    UnfedPhases(p.length, p.accel);
    UnfedUnsound(p.length, p.accel);
  }

  /** The move alone on the ring, planned and committed. */
  function Alone(sq: real -> real, p: Path): Machine
    requires Limited(p)
  {
    Machine(Commit(Replan(sq, PushLine(sq, Ring([], 0.0), 0, p, 0.0).0, 0.0), 0.0), Standing())
  }

  lemma AloneIs(sq: real -> real, p: Path)
    requires IsSqrt(sq) && Limited(p)
    ensures var m := Alone(sq, p);
      && Shape(m) && m == Machine(Ring(m.p.q, 0.0), Standing()) && |m.p.q| == 1 && m.p.q[0].kind.Line? && m.p.q[0].path == p
      && m.p.q[0].profile == ProfileOf(sq, p, 0.0, 0.0) && TotalLength(m.p.q) == p.length
  {
    hide ProfileOf;
    var q := PushLine(sq, Ring([], 0.0), 0, p, 0.0).0.q;
    assert q[1..] == [];
    AloneReach(p);
  }

  lemma AloneReach(p: Path)
    requires Limited(p)
    ensures Reach(0.0, p.accel, p.length) >= 0.0
  {
    Monotone(2.0 * p.accel, 2.0 * p.accel, 0.0, p.length);
  }

  /** Without a feed any tick, however short, runs the whole length. */
  lemma UnfedJumps(sq: real -> real, p: Path, dt: real)
    requires IsSqrt(sq) && Limited(p) && p.vMaxSqr == 0.0 && dt > 0.0
    ensures Shape(Alone(sq, p)) && Remaining(Alone(sq, p)) == p.length
    ensures Advance(sq, Alone(sq, p), dt).p.q == [] && Remaining(Advance(sq, Alone(sq, p), dt)) == 0.0
  {
    hide ProfileOf, Alone, Trapezoid.Position, Trapezoid.Velocity;
    AloneIs(sq, p);
    UnfedProfile(sq, p);
    var m := Alone(sq, p);
    TurnShrinks(sq, m, dt);
    var k := TurnOnce(sq, m, dt).m;
    TurnShrinks(sq, k, dt);
    assert k.p.q == [] && !k.e.cur && TurnOnce(sq, m, dt).left == dt;
    StopsHere(sq, k, dt);
  }

  lemma FedWaits(sq: real -> real, p: Path) returns (dt: real)
    requires IsSqrt(sq) && Limited(p) && p.vMaxSqr > 0.0
    ensures dt > 0.0 && Shape(Alone(sq, p)) && Advance(sq, Alone(sq, p), dt).p.q != []
  {
    hide ProfileOf, Alone, Trapezoid.Position, Trapezoid.Velocity;
    AloneIs(sq, p);
    FedProfile(sq, p);
    dt := ProfileOf(sq, p, 0.0, 0.0).Duration() / 2.0;
    StopsHere(sq, Alone(sq, p), dt);
  }

  /** The move is run in no time at all, and its profile unsound, if and only if its feed is nothing. */
  lemma FeedExactly(sq: real -> real, p: Path)
    requires IsSqrt(sq) && Limited(p)
    ensures Shape(Alone(sq, p))
    ensures Sound(ProfileOf(sq, p, 0.0, 0.0)) <==> p.vMaxSqr > 0.0
    ensures (forall dt: real :: dt > 0.0 ==> Advance(sq, Alone(sq, p), dt).p.q == []) <==> p.vMaxSqr == 0.0
  {
    hide ProfileOf, Alone, Advance, Sound;
    AloneIs(sq, p);
    if p.vMaxSqr > 0.0 {
      FedProfile(sq, p);
      var dt := FedWaits(sq, p);
    } else {
      UnfedProfile(sq, p);
      forall dt: real | dt > 0.0
        ensures Advance(sq, Alone(sq, p), dt).p.q == []
      {
        UnfedJumps(sq, p, dt);
      }
    }
  }
}
