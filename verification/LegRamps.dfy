/** The leg pulser's interval ramp, in 16-bit ticks, against the profile it is meant to draw
    (src/node/types/stepper/leg.cpp). */
module LegRamps {

  const U16: int := 0x1_0000

  function Min(a: int, b: int): int { if a < b then a else b }
  function Max(a: int, b: int): int { if a > b then a else b }

  predicate Near(a: int, b: int, r: int) { a - b <= r && b - a <= r }

  /** n ramp steps, in ticks. */
  function Ticks(n: int, r: int): int { n * r }

  lemma TicksNext(n: int, r: int)
    ensures Ticks(n + 1, r) == Ticks(n, r) + r && Ticks(0, r) == 0
  {
  }

  lemma TicksGrow(m: int, n: int, r: int)
    requires r >= 0 && m <= n
    ensures Ticks(m, r) <= Ticks(n, r)
  {
    assert (n - m) * r >= 0;
  }

  /** A leg as armed: start interval s, floor f, r ticks of change a step, n steps. */
  datatype Ramp = Ramp(s: nat, f: nat, r: nat, n: nat)

  /** What arming guarantees. */
  predicate Armed(p: Ramp) { 1 <= p.f <= p.s < U16 && p.r <= p.s - p.f && p.n >= 1 }

  /** Steps from the start interval to the floor. */
  function Climb(p: Ramp): nat
    requires Armed(p)
  {
    if p.r == 0 then 0 else (p.s - p.f + p.r - 1) / p.r
  }

  lemma DivIs(t: nat, r: nat)
    requires r > 0
    ensures Ticks(t / r, r) <= t < Ticks(t / r, r) + r
  {
  }

  lemma TicksAtLeast(n: nat, r: nat)
    requires r > 0
    ensures Ticks(n, r) >= n
  {
    assert n * r - n == n * (r - 1) >= 0;
  }

  lemma ClimbIs(p: Ramp)
    requires Armed(p) && p.r > 0
    ensures 1 <= Climb(p) <= p.s - p.f
    ensures Ticks(Climb(p), p.r) >= p.s - p.f && Ticks(Climb(p) - 1, p.r) < p.s - p.f
  {
    hide Ticks;
    var k, d := Climb(p), p.s - p.f;
    DivIs(d + p.r - 1, p.r);
    TicksNext(0, p.r);
    TicksNext(k - 1, p.r);
    TicksNext(d, p.r);
    TicksAtLeast(d, p.r);
    if k > d { TicksGrow(d + 1, k, p.r); }
  }

  // ─── The profile meant ─────────────────────────────────────────────────────

  /** Steps a park climbs: to the floor, or half way. */
  function Up(p: Ramp): nat
    requires Armed(p)
  {
    Min(Climb(p), p.n / 2)
  }

  function Bottom(p: Ramp): int
    requires Armed(p)
  {
    Max(p.f, p.s - Ticks(Up(p), p.r))
  }

  /** The interval after step i of a leg that only climbs. */
  function SeekProfile(p: Ramp, i: nat): int { Max(p.f, p.s - Ticks(i, p.r)) }

  /** The interval after step i of a park: down to the bottom, along it, and back up over the last steps. A park that
      is not exactly a full even triangle starts back one step early. */
  function ParkProfile(p: Ramp, i: nat): int
    requires Armed(p) && i <= p.n
  {
    if i <= Up(p) then SeekProfile(p, i)
    else if p.n - i > Up(p) then Bottom(p)
    else Min(p.s, Bottom(p) + Ticks(Up(p) - (p.n - i) + (if p.n == 2 * Up(p) then 0 else 1), p.r))
  }

  lemma TicksPositive(n: int, r: int)
    requires n >= 0 && r >= 0
    ensures Ticks(n, r) >= 0
  {
  }

  lemma Bottoms(p: Ramp)
    requires Armed(p)
    ensures p.f <= Bottom(p) <= p.s && p.s <= Bottom(p) + Ticks(Up(p), p.r)
    ensures p.r > 0 ==> Up(p) <= Climb(p)
  {
    hide Ticks, Climb;
    TicksPositive(Up(p), p.r);
  }

  lemma ProfileRange(p: Ramp, i: nat)
    requires Armed(p) && i <= p.n
    ensures p.f <= ParkProfile(p, i) <= p.s && p.f <= SeekProfile(p, i) <= p.s
  {
    hide Ticks, Climb;
    Bottoms(p);
    TicksPositive(i, p.r);
    var j := Up(p) - (p.n - i) + (if p.n == 2 * Up(p) then 0 else 1);
    if j >= 0 { TicksPositive(j, p.r); }
  }

  /** The profile meant is a proper one: inside [floor, start], at most one ramp step of change per step, starting and
      ending at the start interval; it touches the floor exactly when there is room to. */
  lemma ProfileProper(p: Ramp)
    requires Armed(p)
    ensures forall i: nat :: i <= p.n ==> p.f <= ParkProfile(p, i) <= p.s
    ensures forall i: nat :: i < p.n ==> Near(ParkProfile(p, i + 1), ParkProfile(p, i), p.r)
    ensures ParkProfile(p, 0) == p.s == ParkProfile(p, p.n)
    ensures p.r > 0 && p.n >= 2 * Climb(p) ==> ParkProfile(p, Climb(p)) == p.f
  {
    hide ParkProfile, Ticks, Climb;
    forall i: nat | i <= p.n
      ensures p.f <= ParkProfile(p, i) <= p.s
    {
      ProfileRange(p, i);
    }
    forall i: nat | i < p.n
      ensures Near(ParkProfile(p, i + 1), ParkProfile(p, i), p.r)
    {
      ProfileStep(p, i);
    }
    ProfileEnds(p);
  }

  lemma ProfileEnds(p: Ramp)
    requires Armed(p)
    ensures ParkProfile(p, 0) == p.s == ParkProfile(p, p.n)
    ensures p.r > 0 && p.n >= 2 * Climb(p) ==> ParkProfile(p, Climb(p)) == p.f
  {
    hide Ticks, Climb;
    Bottoms(p);
    TicksNext(0, p.r);
    TicksNext(Up(p), p.r);
    if p.r > 0 { ClimbIs(p); }
  }

  /** Where the ramp stands between two steps of the profile. */
  lemma ProfileStep(p: Ramp, i: nat)
    requires Armed(p) && i < p.n
    ensures Near(ParkProfile(p, i + 1), ParkProfile(p, i), p.r)
    ensures i < Up(p) ==> ParkProfile(p, i + 1) == Max(p.f, ParkProfile(p, i) - p.r) && 2 * i + 1 < p.n
    ensures i < Up(p) ==> ParkProfile(p, i) == p.s - Ticks(i, p.r) > p.f
    ensures i >= Up(p) && p.n - i - 1 > Up(p) ==> ParkProfile(p, i + 1) == ParkProfile(p, i)
    ensures p.r > 0 && i >= Up(p) && p.n - i - 1 > Up(p) ==> ParkProfile(p, i) == p.f
    ensures i >= Up(p) && p.n - i - 1 <= Up(p) ==> ParkProfile(p, i + 1) == Min(p.s, ParkProfile(p, i) + p.r)
  {
    hide Ticks, Climb;
    Bottoms(p);
    if p.r > 0 { ClimbIs(p); }
    if i < Up(p) {
      StepDown(p, i);
    } else {
      StepBack(p, i);
    }
  }

  lemma StepDown(p: Ramp, i: nat)
    requires Armed(p) && i < Up(p)
    ensures 2 * i + 1 < p.n && p.r > 0
    ensures ParkProfile(p, i) == p.s - Ticks(i, p.r) > p.f
    ensures ParkProfile(p, i + 1) == Max(p.f, p.s - Ticks(i, p.r) - p.r)
  {
    hide Ticks, Climb;
    assert p.r > 0 by { NoRamp(p); }
    ClimbIs(p);
    TicksGrow(i, Climb(p) - 1, p.r);
    TicksNext(i, p.r);
  }

  lemma NoRamp(p: Ramp)
    requires Armed(p)
    ensures p.r == 0 ==> Up(p) == 0
  {
  }

  lemma StepBack(p: Ramp, i: nat)
    requires Armed(p) && Up(p) <= i < p.n
    ensures p.n - i - 1 > Up(p) ==> ParkProfile(p, i + 1) == ParkProfile(p, i)
    ensures p.r > 0 && p.n - i - 1 > Up(p) ==> ParkProfile(p, i) == p.f
    ensures p.n - i - 1 <= Up(p) ==> ParkProfile(p, i + 1) == Min(p.s, ParkProfile(p, i) + p.r)
  {
    hide Ticks, Climb;
    Bottoms(p);
    if p.r > 0 { ClimbIs(p); }
    TicksNext(0, p.r);
    TicksNext(Up(p) - (p.n - i) + (if p.n == 2 * Up(p) then 0 else 1), p.r);
  }
}
