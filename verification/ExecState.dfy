/** The executor as a value, and one pass of its loop (lib/planner/executor.cpp). */
module ExecStates {
  import opened Arithmetic
  import opened Trapezoids
  import opened Kinematics
  import opened Paths
  import opened LookAhead
  import opened PlanStates

  datatype Mode = Running | Holding | Held

  datatype ExecState = ExecState(
    mode: Mode, aborting: bool, cur: bool, piece: Piece, next: Option<Piece>, eventDone: bool,
    t: real, s: real, v: real, clock: real, late: nat)

  datatype Machine = Machine(p: PlanState, e: ExecState)

  /** The executor holds a block exactly while the planner has one claimed. */
  predicate Shape(m: Machine) {
    && m.e.cur == m.p.claimed && (m.p.claimed ==> m.p.q != [])
    && (!m.e.cur ==> m.e.next.None?)
    && forall i :: 0 <= i < |m.p.q| ==> m.p.q[i].path.accel > 0.0
  }

  function ExecReset(e: ExecState): ExecState {
    e.(mode := Running, aborting := false, cur := false, next := None, eventDone := false,
       t := 0.0, s := 0.0, v := 0.0, clock := 0.0)
  }

  function HoldExec(e: ExecState): ExecState {
    if e.mode.Running? then e.(mode := Holding) else e
  }

  function EventDone(m: Machine): Machine {
    if m.e.cur && m.p.q != [] && m.p.q[0].kind.Event? then m.(e := m.e.(eventDone := true)) else m
  }

  function Adopt(m: Machine): Machine {
    if m.p.staged.None? then m
    else
      var p, e, piece := TakeStaged(m.p), m.e, m.p.staged.value;
      if !e.cur || !e.mode.Running? then Machine(p, e)
      else if e.t >= piece.t0 then Machine(p, HoldExec(e.(late := e.late + 1)))
      else Machine(p, e.(next := Some(piece)))
  }

  function BeginBlock(m: Machine): Machine
    requires m.p.q != []
  {
    Machine(Claim(m.p), m.e.(cur := true, piece := Piece(0.0, 0.0, m.p.q[0].profile), next := None,
                             eventDone := false, t := 0.0, s := 0.0))
  }

  function FinishBlock(m: Machine, v: real): Machine {
    Machine(Release(m.p), m.e.(cur := false, next := None, t := 0.0, s := 0.0, v := v))
  }

  function StopDistance(v: real, a: real): real
    requires a > 0.0
  { v * v / (2.0 * a) }

  function StopTime(v: real, a: real): real
    requires a > 0.0
  { v / a }

  /** Speed left after braking over `rem`. */
  function EndSpeed(sq: real -> real, v: real, a: real, rem: real): real {
    sq(Max(0.0, v * v - 2.0 * a * rem))
  }

  function EndTime(v: real, vEnd: real, a: real): real
    requires a > 0.0
  { (v - vEnd) / a }

  /** One pass of tick()'s loop: the machine, the time left, and whether the loop goes on. */
  datatype Turn = Turn(m: Machine, left: real, again: bool)

  function TurnOnce(sq: real -> real, m: Machine, dt: real): Turn
    requires Shape(m)
  {
    var e := m.e;
    if e.cur then TurnInBlock(sq, m, dt)
    else if e.mode.Holding? && e.v <= 0.0 then Turn(m.(e := e.(mode := Held)), 0.0, false)
    else if m.p.q == [] then
      Turn(m.(e := e.(v := 0.0, mode := if e.mode.Holding? then Held else e.mode)), 0.0, false)
    else TurnInBlock(sq, BeginBlock(m), dt)
  }

  function TurnInBlock(sq: real -> real, m: Machine, dt: real): Turn
    requires Shape(m) && m.e.cur
  {
    if m.p.q[0].kind.Event? then TurnAtEvent(m, dt)
    else if m.e.mode.Running? then TurnRunning(m, dt)
    else TurnHolding(sq, m, dt)
  }

  function TurnAtEvent(m: Machine, dt: real): Turn {
    if m.e.eventDone then Turn(FinishBlock(m, 0.0), dt, true)
    else Turn(m.(e := m.e.(v := 0.0, mode := if m.e.mode.Holding? then Held else m.e.mode)), 0.0, false)
  }

  function TurnRunning(m: Machine, dt: real): Turn {
    var e := m.e;
    if e.next.Some? && e.t + dt >= e.next.value.t0 then
      var x := e.next.value;
      Turn(m.(e := e.(t := x.t0, piece := x, next := None, s := x.s0, v := x.profile.vEntry)), dt - (x.t0 - e.t), true)
    else
      var rem := e.piece.End() - e.t;
      if dt < rem then
        var t := e.t + dt;
        Turn(m.(e := e.(t := t, s := e.piece.At(t), v := e.piece.SpeedAt(t))), 0.0, true)
      else Turn(FinishBlock(m, e.piece.profile.vExit), dt - rem, true)
  }

  function Brake(m: Machine, a: real, dt: real): Turn {
    Turn(m.(e := m.e.(s := m.e.s + Travel(m.e.v, -a, dt), v := Speed(m.e.v, -a, dt))), 0.0, true)
  }

  function TurnHolding(sq: real -> real, m: Machine, dt: real): Turn
    requires Shape(m) && m.e.cur
  {
    var e, a := m.e, m.p.q[0].path.accel;
    var rem := m.p.q[0].path.length - e.s;
    if StopDistance(e.v, a) <= rem then
      if StopTime(e.v, a) <= dt then Turn(m.(e := e.(s := e.s + StopDistance(e.v, a), v := 0.0, mode := Held)), 0.0, false)
      else Brake(m, a, dt)
    else
      var vEnd := EndSpeed(sq, e.v, a, rem);
      if EndTime(e.v, vEnd, a) <= dt then Turn(FinishBlock(m, vEnd), dt - EndTime(e.v, vEnd, a), true)
      else Brake(m, a, dt)
  }

  function Pending(m: Machine): nat { if m.e.next.Some? then 1 else 0 }

  /** Each pass keeps the link and uses up a block, a pending piece or the time. */
  lemma TurnShrinks(sq: real -> real, m: Machine, dt: real)
    requires Shape(m) && dt > 0.0 && !m.e.mode.Held?
    ensures var r := TurnOnce(sq, m, dt);
      && Shape(r.m) && |r.m.p.q| <= |m.p.q|
      && (r.again ==> |r.m.p.q| < |m.p.q| || Pending(r.m) < Pending(m) || (Pending(r.m) == Pending(m) && r.left <= 0.0))
  {
    hide Travel, Speed, StopDistance, StopTime, EndSpeed, EndTime, Trapezoid.Position, Trapezoid.Velocity;
  }

  /** tick()'s loop. It ends: the measure is (blocks queued, pending piece, time left). */
  function Advance(sq: real -> real, m: Machine, dt: real): (r: Machine)
    requires Shape(m)
    ensures Shape(r)
    decreases |m.p.q|, Pending(m), if dt > 0.0 then 1 else 0
  {
    if dt <= 0.0 || m.e.mode.Held? then m
    else
      var turn := TurnOnce(sq, m, dt);
      TurnShrinks(sq, m, dt);
      if turn.again then Advance(sq, turn.m, turn.left) else turn.m
  }

  /** After the loop: a finished abort empties the ring, and the clock is published. */
  function Settle(m: Machine): Machine {
    if m.e.mode.Held? && m.e.aborting then Machine(Reset(m.p), ExecReset(m.e))
    else m.(e := m.e.(clock := if m.e.cur then m.e.t else 0.0))
  }

  function Tick(sq: real -> real, m: Machine, dt: real): Machine
    requires Shape(m)
  {
    Settle(Advance(sq, m, dt))
  }

  function NeedsRing(sq: real -> real, m: Machine, dt: real): bool
    requires Shape(m)
  {
    var e := m.e;
    if e.aborting then true
    else if !e.cur then !e.mode.Held?
    else if m.p.q[0].kind.Event? then e.eventDone
    else if e.mode.Running? then
      dt >= (if e.next.Some? then e.next.value.End() else e.piece.End()) - e.t
    else if e.mode.Held? then false
    else
      var a := m.p.q[0].path.accel;
      var rem := m.p.q[0].path.length - e.s;
      if StopDistance(e.v, a) <= rem then false
      else EndTime(e.v, EndSpeed(sq, e.v, a, rem), a) <= dt
  }

  function ReleaseExec(sq: real -> real, m: Machine): Machine
    requires Shape(m)
  {
    if !m.e.mode.Held? then m
    else Machine(Restart(sq, m.p, if m.e.cur then m.e.s else 0.0),
                 m.e.(mode := Running, cur := false, next := None, t := 0.0, s := 0.0, v := 0.0, clock := 0.0))
  }

  function Resume(sq: real -> real, m: Machine): Machine
    requires Shape(m)
  {
    if !m.e.mode.Held? then m
    else
      var r := ReleaseExec(sq, m);
      r.(p := Commit(Replan(sq, r.p, 0.0), 0.0))
  }

  function Abort(m: Machine): Machine { m.(e := HoldExec(m.e.(aborting := true))) }
}
