/** The executor, its fields updated in place (lib/planner/executor.cpp), proved against ExecStates. */
module ExecutorLoop {
  import opened Trapezoids
  import opened Kinematics
  import opened Paths
  import opened LookAhead
  import opened PlanStates
  import opened PlannerRing
  import opened ExecStates

  /** `cur` is the ring slot of the claimed block, -1 between blocks. */
  class Executor {
    var mode: Mode
    var aborting: bool
    var cur: int
    var piece: Piece
    var next: Piece
    var hasNext: bool
    var eventDone: bool
    var t: real
    var s: real
    var v: real
    var clock: real
    var late: nat

    ghost function ExecView(): ExecState
      reads this
    {
      ExecState(mode, aborting, cur >= 0, piece, if hasNext then Some(next) else None, eventDone, t, s, v, clock, late)
    }

    ghost function View(p: Planner): Machine
      requires p.Valid()
      reads this, p, p.ring, p.planEntry, p.planExit, p.planProfile
    {
      Machine(p.View(), ExecView())
    }

    /** The claimed block is the planner's oldest. */
    ghost predicate Linked(p: Planner)
      reads this, p, p.ring, p.planEntry, p.planExit, p.planProfile
    {
      p.Valid() && Shape(View(p)) && (cur >= 0 ==> cur == p.tail)
    }

    constructor (idle: Piece)
      ensures ExecView() == ExecState(Running, false, false, idle, None, false, 0.0, 0.0, 0.0, 0.0, 0)
    {
      mode, aborting, cur := Running, false, -1;
      piece, next, hasNext, eventDone := idle, idle, false, false;
      t, s, v, clock, late := 0.0, 0.0, 0.0, 0.0, 0;
    }

    lemma Current(p: Planner)
      requires Linked(p) && cur >= 0
      ensures cur < p.ring.Length && p.ring[cur] == p.View().q[0] && p.ring[cur].path.accel > 0.0
    {
      hide Unrolled, ReadPlan;
      p.FirstIsOldest();
    }

    method Reset()
      modifies this
      ensures ExecView() == ExecReset(old(ExecView()))
    {
      mode := Running;
      aborting := false;
      cur := -1;
      hasNext := false;
      eventDone := false;
      t := 0.0;
      s := 0.0;
      v := 0.0;
      clock := 0.0;
    }

    method Hold()
      modifies this`mode
      ensures ExecView() == HoldExec(old(ExecView()))
    {
      if mode.Running? { mode := Holding; }
    }

    method Abort()
      modifies this`mode, this`aborting
      ensures ExecView() == HoldExec(old(ExecView()).(aborting := true))
    {
      aborting := true;
      Hold();
    }

    method Adopt(p: Planner)
      requires Linked(p)
      modifies this, p`stagedFlag
      ensures Linked(p) && View(p) == ExecStates.Adopt(old(View(p)))
    {
      hide Unrolled, ReadPlan, Slot;
      var found, piece' := p.TakeStaged();
      if !found { return; }
      if cur < 0 || !mode.Running? { return; }
      if t >= piece'.t0 {
        late := late + 1;
        Hold();
        return;
      }
      next := piece';
      hasNext := true;
    }

    method RanEvent(p: Planner)
      requires Linked(p)
      modifies this`eventDone
      ensures Linked(p) && View(p) == EventDone(old(View(p)))
    {
      hide Unrolled, ReadPlan, Slot;
      if cur >= 0 { Current(p); }
      if cur >= 0 && p.ring[cur].kind.Event? && !eventDone { eventDone := true; }
    }

    method FinishBlock(p: Planner)
      requires Linked(p) && cur >= 0
      modifies this, p
      ensures Linked(p) && View(p) == ExecStates.FinishBlock(old(View(p)), old(v))
    {
      hide Unrolled, ReadPlan, Slot;
      ghost var q := p.Queue();
      p.Release();
      TailAccel(q);
      cur := -1;
      hasNext := false;
      t := 0.0;
      s := 0.0;
    }

    method BeginBlock(p: Planner) returns (ok: bool)
      requires Linked(p) && cur < 0
      modifies this, p
      ensures Linked(p) && ok == (old(p.View()).q != []) && (ok ==> cur >= 0)
      ensures View(p) == if ok then ExecStates.BeginBlock(old(View(p))) else old(View(p))
    {
      hide Unrolled, ReadPlan, Slot, Planner.Queue, Planner.PlanView, Planner.Valid, Planner.View;
      ClaimFacts(p);
      cur := p.Claim();
      if cur < 0 { return false; }
      Claimed(p);
      piece := Piece(0.0, 0.0, p.ring[cur].profile);
      hasNext := false;
      eventDone := false;
      t := 0.0;
      s := 0.0;
      return true;
    }

    lemma ClaimFacts(p: Planner)
      requires Linked(p)
      ensures |p.View().q| == p.count && p.View().claimed == p.claimed
    {
      hide Unrolled, ReadPlan, Slot, Planner.PlanView;
    }

    lemma Claimed(p: Planner)
      requires p.Valid() && p.View().q != []
      ensures p.tail < p.ring.Length && p.ring[p.tail].profile == p.View().q[0].profile
    {
      hide Unrolled, ReadPlan, Slot, Planner.PlanView;
      p.FirstIsOldest();
    }

    /** A pass in a running block: switch to the pending piece, coast on, or finish. */
    method RunTurn(p: Planner, dt: real) returns (left: real)
      requires Linked(p) && cur >= 0
      modifies this, p
      ensures Linked(p) && Turn(View(p), left, true) == TurnRunning(old(View(p)), dt)
    {
      hide Unrolled, ReadPlan, Slot, Piece.At, Piece.SpeedAt, Piece.End, Planner.Queue, Planner.PlanView, Planner.Valid;
      if hasNext && t + dt >= next.t0 {
        left := dt - (next.t0 - t);
        t := next.t0;
        piece := next;
        hasNext := false;
        s := piece.s0;
        v := piece.profile.vEntry;
        return;
      }
      var rem := piece.End() - t;
      if dt < rem {
        t := t + dt;
        s := piece.At(t);
        v := piece.SpeedAt(t);
        left := 0.0;
      } else {
        left := dt - rem;
        v := piece.profile.vExit;
        FinishBlock(p);
      }
    }

    /** A pass in a held block: stop in it, cross its end, or brake on. */
    method HoldTurn(p: Planner, dt: real) returns (left: real, again: bool)
      requires Linked(p) && cur >= 0
      modifies this, p
      ensures Linked(p) && Turn(View(p), left, again) == TurnHolding(p.sq, old(View(p)), dt)
    {
      hide Unrolled, ReadPlan, Slot, StopDistance, StopTime, EndSpeed, EndTime, Travel, Speed, Planner.Queue, Planner.PlanView, Planner.Valid;
      Current(p);
      var a := p.ring[cur].path.accel;
      var rem := p.ring[cur].path.length - s;
      if StopDistance(v, a) <= rem {
        if StopTime(v, a) <= dt {
          s := s + StopDistance(v, a);
          v := 0.0;
          mode := Held;
          return 0.0, false;
        }
      } else {
        var vEnd := EndSpeed(p.sq, v, a, rem);
        if EndTime(v, vEnd, a) <= dt {
          left := dt - EndTime(v, vEnd, a);
          v := vEnd;
          FinishBlock(p);
          return left, true;
        }
      }
      s := s + Travel(v, -a, dt);
      v := Speed(v, -a, dt);
      return 0.0, true;
    }

    /** A pass at an event: done with if it has been run; otherwise it ends a hold and keeps a running machine waiting. */
    method EventTurn(p: Planner, dt: real) returns (left: real, again: bool)
      requires Linked(p) && cur >= 0
      modifies this, p
      ensures Linked(p) && Turn(View(p), left, again) == TurnAtEvent(old(View(p)), dt)
    {
      hide Unrolled, ReadPlan, Slot, Planner.Queue, Planner.PlanView, Planner.Valid;
      v := 0.0;
      if eventDone {
        FinishBlock(p);
        return dt, true;
      }
      if mode.Holding? { mode := Held; }
      return 0.0, false;
    }

    method BlockTurn(p: Planner, dt: real) returns (left: real, again: bool)
      requires Linked(p) && cur >= 0
      modifies this, p
      ensures Linked(p) && Turn(View(p), left, again) == TurnInBlock(p.sq, old(View(p)), dt)
    {
      hide Unrolled, ReadPlan, Slot, TurnRunning, TurnHolding, TurnAtEvent, Planner.Queue, Planner.PlanView, Planner.Valid, Planner.View;
      Current(p);
      if p.ring[cur].kind.Event? {
        left, again := EventTurn(p, dt);
      } else if mode.Running? {
        left := RunTurn(p, dt);
        again := true;
      } else {
        left, again := HoldTurn(p, dt);
      }
    }

    /** One pass of the loop; `again` is false where the source breaks out. */
    method OnePass(p: Planner, dt: real) returns (left: real, again: bool)
      requires Linked(p)
      modifies this, p
      ensures Linked(p) && Turn(View(p), left, again) == TurnOnce(p.sq, old(View(p)), dt)
    {
      hide Unrolled, ReadPlan, Slot, TurnInBlock, Planner.Queue, Planner.PlanView, Planner.Valid, Planner.View;
      if cur < 0 {
        if mode.Holding? && v <= 0.0 {
          mode := Held;
          return 0.0, false;
        }
        var ok := BeginBlock(p);
        if !ok {
          v := 0.0;
          if mode.Holding? { mode := Held; }
          return 0.0, false;
        }
      }
      left, again := BlockTurn(p, dt);
    }

    /** `dt0` seconds of the queue, pass by pass. */
    method Tick(p: Planner, dt0: real)
      requires Linked(p)
      modifies this, p
      ensures Linked(p) && View(p) == ExecStates.Tick(p.sq, old(View(p)), dt0)
    {
      hide Unrolled, ReadPlan, Slot, TurnOnce, Planner.Queue, Planner.PlanView, Planner.Valid, Planner.View;
      var dt := dt0;
      ghost var goal := Advance(p.sq, View(p), dt0);
      while dt > 0.0 && !mode.Held?
        invariant Linked(p) && Advance(p.sq, View(p), dt) == goal
        decreases |View(p).p.q|, Pending(View(p)), if dt > 0.0 then 1 else 0
      {
        TurnShrinks(p.sq, View(p), dt);
        var left, again := OnePass(p, dt);
        dt := left;
        if !again { break; }
      }
      assert View(p) == goal;
      Settle(p);
    }

    /** A finished abort empties the ring; the clock is published. */
    method Settle(p: Planner)
      requires Linked(p)
      modifies this, p
      ensures Linked(p) && View(p) == ExecStates.Settle(old(View(p)))
    {
      hide Unrolled, ReadPlan, Slot, Planner.Queue, Planner.PlanView;
      if mode.Held? && aborting {
        p.Reset();
        Reset();
      } else {
        clock := if cur >= 0 then t else 0.0;
      }
    }

    method NeedsRing(p: Planner, dt: real) returns (needs: bool)
      requires Linked(p)
      ensures needs == ExecStates.NeedsRing(p.sq, View(p), dt)
    {
      hide Unrolled, ReadPlan, Slot, StopDistance, EndSpeed, EndTime, Planner.Queue, Planner.PlanView, Planner.Valid;
      if aborting { return true; }
      if cur < 0 { return !mode.Held?; }
      Current(p);
      if p.ring[cur].kind.Event? { return eventDone; }
      if mode.Running? { return dt >= (if hasNext then next.End() else piece.End()) - t; }
      if mode.Held? { return false; }
      var a := p.ring[cur].path.accel;
      var rem := p.ring[cur].path.length - s;
      if StopDistance(v, a) <= rem { return false; }
      var vEnd := EndSpeed(p.sq, v, a, rem);
      return EndTime(v, vEnd, a) <= dt;
    }

    /** Out of a hold, the ring trimmed to where the machine stands; nothing is planned. */
    method Release(p: Planner)
      requires Linked(p)
      modifies this, p, p.ring
      ensures Linked(p) && View(p) == ReleaseExec(p.sq, old(View(p)))
    {
      hide Unrolled, ReadPlan, Slot, Planner.Queue, Planner.PlanView, Planner.Valid, Planner.View, PlanStates.Restart;
      if !mode.Held? { return; }
      ghost var was := p.View();
      p.RestartFrom(if cur >= 0 then s else 0.0);
      RestartAccel(p.sq, was, if cur >= 0 then s else 0.0);
      cur := -1;
      hasNext := false;
      t := 0.0;
      s := 0.0;
      v := 0.0;
      clock := 0.0;
      mode := Running;
    }

    /** Out of a hold and running: trims the ring, plans from standstill and commits. */
    method Resume(p: Planner)
      requires Linked(p)
      modifies this, p, p.ring, p.planEntry, p.planExit, p.planProfile
      ensures p.Valid() && View(p) == ExecStates.Resume(p.sq, old(View(p)))
    {
      hide Unrolled, ReadPlan, Slot, Planner.Queue, Planner.PlanView, ReleaseExec, PlanStates.Replan, PlanStates.Commit;
      if !mode.Held? { return; }
      Release(p);
      p.Replan(0.0);
      var _ := p.Commit(0.0);
    }
  }

  lemma RestartAccel(sq: real -> real, p: PlanState, s: real)
    requires forall i :: 0 <= i < |p.q| ==> p.q[i].path.accel > 0.0
    ensures forall i :: 0 <= i < |Restart(sq, p, s).q| ==> Restart(sq, p, s).q[i].path.accel > 0.0
    ensures !Restart(sq, p, s).claimed
  {
    hide ProfileOf;
  }

  lemma TailAccel(q: seq<Block>)
    requires forall i :: 0 <= i < |q| ==> q[i].path.accel > 0.0
    ensures q != [] ==> forall i :: 0 <= i < |q[1..]| ==> q[1..][i].path.accel > 0.0
  {
  }
}
