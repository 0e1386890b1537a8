/** The Hall detector as the pulser interrupt runs it: one buffer and one ring, written in place
    (src/node/types/stepper/hall_index.cpp). */
module HallSampler {
  import opened HallConstants
  import opened HallSweep
  import opened HallSampling
  import R = HallResolver

  class Sampler {
    const win: array<int>
    const ring: array<int>
    var seeded: bool
    var baseline: int
    var clearRun: nat
    var inDip: bool
    var crossed: seq<R.Crossing>
    var enterPos: int
    var minPos: int
    var minVal: int
    var sign: int
    var capturing: bool
    var decim: nat
    var dcnt: nat
    var nwin: nat
    var preN: nat
    var post: nat
    var exiting: bool
    var overflow: bool
    var winStart: int
    var rn: nat
    var rhead: nat
    ghost var trace: seq<int>    // every sample since arming
    ghost var origin: int        // the position of the first
    ghost var blank: seq<int>    // what the ring held at arming
    ghost var over: bool

    ghost predicate Shape()
      reads this`nwin, this`rhead, this`rn
    {
      win.Length == HOME_WIN && ring.Length == HOME_PRE && win != ring && nwin <= HOME_WIN && rhead < HOME_PRE && rn <= HOME_PRE
    }

    ghost function Det(): (d: Detector)
      ensures d.inDip == inDip && d.baseline == baseline && d.clearRun == clearRun && d.crossed == crossed && d.sign == sign
      reads this`seeded, this`baseline, this`clearRun, this`inDip, this`crossed, this`enterPos, this`minPos, this`minVal
      reads this`sign
    {
      Detector(seeded, baseline, clearRun, inDip, crossed, enterPos, minPos, minVal, sign)
    }

    ghost function Cap(): (c: Capture)
      ensures c.exiting == exiting && c.capturing == capturing
      reads this`capturing, this`decim, this`dcnt, this`preN, this`post, this`exiting, this`overflow, this`winStart
      reads this`rn, this`rhead, this`nwin, win, ring
      requires Shape()
    {
      Capture(capturing, decim, dcnt, preN, post, exiting, overflow, winStart, rn, rhead, ring[..], win[..nwin])
    }

    ghost function View(): State
      reads this`seeded, this`baseline, this`clearRun, this`inDip, this`crossed, this`enterPos, this`minPos, this`minVal
      reads this`sign, this`capturing, this`decim, this`dcnt, this`preN, this`post, this`exiting, this`overflow
      reads this`winStart, this`rn, this`rhead, this`nwin, win, ring
      requires Shape()
    {
      State(Det(), Cap())
    }

    /** The object is the sweep over its trace. */
    ghost predicate Valid()
      reads this, win, ring
    {
      Shape() && |blank| == HOME_PRE && (View(), over) == Run(sign, origin, blank, trace)
    }

    constructor ()
      ensures Shape() && fresh(win) && fresh(ring)
    {
      win, ring := new int[HOME_WIN], new int[HOME_PRE];
      nwin, rn, rhead := 0, 0, 0;
    }

    method ArmDetector(sign: int)
      modifies this`seeded, this`baseline, this`clearRun, this`inDip, this`crossed, this`enterPos, this`minPos, this`minVal
      modifies this`sign
      ensures Det() == Detector(false, 0, 0, false, [], 0, 0, 0, sign)
    {
      seeded, baseline, clearRun, inDip, crossed := false, 0, 0, false, [];
      enterPos, minPos, minVal := 0, 0, 0;
      this.sign := sign;
    }

    method ResetCapture()
      requires Shape()
      modifies this`capturing, this`decim, this`dcnt, this`preN, this`post, this`exiting, this`overflow, this`winStart
      modifies this`rn, this`rhead, this`nwin
      ensures Shape() && Cap() == Capture(false, 1, 0, 0, 0, false, false, 0, 0, 0, ring[..], [])
    {
      capturing, decim, dcnt := false, 1, 0;
      nwin, preN, post := 0, 0, 0;
      exiting, overflow, winStart := false, false, 0;
      rn, rhead := 0, 0;
    }

    method Reset(sign: int)
      requires Shape()
      modifies this`seeded, this`baseline, this`clearRun, this`inDip, this`crossed, this`enterPos, this`minPos, this`minVal
      modifies this`sign, this`capturing, this`decim, this`dcnt, this`preN, this`post, this`exiting, this`overflow
      modifies this`winStart, this`rn, this`rhead, this`nwin
      ensures Shape() && this.sign == sign && View() == Armed(sign, ring[..])
    {
      hide Det, Cap;
      ArmDetector(sign);
      ResetCapture();
    }

    /** Every variable cleared; the buffers keep what they held. */
    method Arm(sign: int, posNow: int)
      requires Shape()
      modifies this
      ensures Valid() && trace == [] && !over && origin == posNow && this.sign == sign
    {
      hide Det, Cap, Run, Armed, View;
      Reset(sign);
      RunNone(sign, posNow, ring[..]);
      trace, origin, blank, over := [], posNow, ring[..], false;
    }

    /** Counts one sample against the decimation. */
    method Tick() returns (due: bool)
      requires Shape()
      modifies this`dcnt
      ensures due == HallSampling.Due(old(Cap())) && Cap() == old(Cap()).(dcnt := if due then 0 else old(dcnt) + 1)
    {
      dcnt := dcnt + 1;
      due := dcnt >= decim;
      if due { dcnt := 0; }
    }

    /** Appends to the window, or reports it full. */
    method Keep(v: int) returns (full: bool)
      requires Shape()
      modifies this`overflow, this`nwin, win
      ensures Shape() && full == (old(nwin) >= HOME_WIN)
      ensures Cap() == if full then old(Cap()).(overflow := true) else old(Cap()).(w := old(Cap()).w + [v])
    {
      if nwin >= HOME_WIN {
        overflow := true;
        return true;
      }
      win[nwin] := v;
      nwin := nwin + 1;
      assert win[..nwin] == old(win[..nwin]) + [v];
      return false;
    }

    method PostRoll(v: int) returns (done: bool)
      requires Shape()
      modifies this`dcnt, this`overflow, this`nwin, this`post, win
      ensures Shape() && (Cap(), done) == HallSampling.PostRoll(old(Cap()), v)
    {
      var due := Tick();
      if due {
        var full := Keep(v);
        if full { return true; }
        post := post + 1;
        if post >= preN { return true; }
      }
      return false;
    }

    method DipCapture(v: int) returns (full: bool)
      requires Shape()
      modifies this`dcnt, this`overflow, this`nwin, win
      ensures Shape() && (Cap(), full) == HallSampling.DipCapture(old(Cap()), v)
    {
      if capturing {
        var due := Tick();
        if due {
          full := Keep(v);
          return full;
        }
      }
      return false;
    }

    static method Decimation(width: nat) returns (d: nat)
      ensures d == DecimOf(width)
    {
      d := ((width + ROOM - 1) / ROOM) % WORD;
      if d < 1 { d := 1; }
    }

    method Restart(d: nat)
      requires Shape()
      modifies this`decim, this`dcnt, this`rn, this`rhead, this`nwin, this`preN, this`post, this`exiting, this`capturing
      ensures Shape() && Cap() == old(Cap()).(decim := d, dcnt := 0, rn := 0, rhead := 0, w := [], preN := 0, post := 0,
                                              exiting := false, capturing := true)
    {
      decim, dcnt, rn, rhead := d, 0, 0, 0;
      nwin, preN, post := 0, 0, 0;
      exiting, capturing := false, true;
    }

    /** The decimation is set by the width of the last dip completed. */
    method ArmCapture()
      requires Shape() && |crossed| >= 1
      modifies this`decim, this`dcnt, this`rn, this`rhead, this`nwin, this`preN, this`post, this`exiting, this`capturing
      ensures Shape() && Cap() == HallSampling.Arm(old(Cap()), crossed[|crossed| - 1])
    {
      hide DecimOf, Cap;
      var w := crossed[|crossed| - 1].exitPos - crossed[|crossed| - 1].enterPos;
      if w < 0 { w := -w; }
      var d := Decimation(w);
      Restart(d);
    }

    method Leave(posNow: int)
      modifies this`crossed, this`inDip, this`clearRun
      ensures Det() == HallSampling.Leave(old(Det()), posNow)
    {
      crossed := crossed + [R.Crossing(enterPos, posNow, minPos)];
      inDip, clearRun := false, 0;
    }

    method Closed() returns (done: bool)
      requires Shape()
      modifies this`exiting, this`post, this`dcnt, this`decim, this`rn, this`rhead, this`nwin, this`preN, this`capturing
      ensures Shape() && (Cap(), done) == HallSampling.Closed(old(Cap()), crossed)
    {
      hide HallSampling.Arm;
      if capturing {
        exiting, post, dcnt := true, 0, 0;
        return false;
      }
      if |crossed| >= CROSSINGS { return true; }
      if |crossed| == CROSSINGS - 1 { ArmCapture(); }
      return false;
    }

    method RingPush(v: int)
      requires Shape()
      modifies this`dcnt, this`rhead, this`rn, ring
      ensures Shape() && Cap() == HallSampling.RingPush(old(Cap()), v)
    {
      if capturing {
        var due := Tick();
        if due {
          ring[rhead] := v;
          rhead := (rhead + 1) % HOME_PRE;
          if rn < HOME_PRE { rn := rn + 1; }
        }
      }
    }

    /** The ring, oldest first, becomes the window's head. */
    method Unroll()
      requires Shape() && nwin == 0
      modifies this`nwin, win
      ensures Shape() && nwin == rn && win[..nwin] == Unrolled(ring[..], rhead, rn)
    {
      for k := 0 to rn
        invariant Shape() && nwin == k && win[..nwin] == Unrolled(ring[..], rhead, rn)[..k]
      {
        win[nwin] := ring[(rhead + HOME_PRE - rn + k) % HOME_PRE];
        nwin := nwin + 1;
      }
    }

    method Freeze(posNow: int)
      requires Shape()
      modifies this`nwin, this`preN, this`winStart, this`dcnt, win
      ensures Shape() && Cap() == HallSampling.Freeze(old(Cap()), posNow, sign)
    {
      hide Unrolled;
      if capturing {
        nwin, preN := 0, rn;
        winStart := posNow - rn * decim * sign;
        Unroll();
        dcnt := 0;
      }
    }

    method Track(v: int)
      modifies this`seeded, this`baseline
      ensures Det() == HallSampling.Track(old(Det()), v)
    {
      if !seeded {
        baseline, seeded := v, true;
      } else if v > baseline {
        baseline := v;
      }
    }

    method Lower(v: int, posNow: int)
      modifies this`minVal, this`minPos
      ensures Det() == Lowered(old(Det()), v, posNow)
    {
      if v < minVal { minVal, minPos := v, posNow; }
    }

    method Clears(v: int)
      modifies this`clearRun
      ensures Det() == Cleared(old(Det()), v)
    {
      if baseline - v < HOME_EXIT && clearRun < 0xffff { clearRun := clearRun + 1; }
    }

    method Open(v: int, posNow: int)
      modifies this`inDip, this`enterPos, this`minVal, this`minPos
      ensures Det() == old(Det()).(inDip := true, enterPos := posNow, minVal := v, minPos := posNow)
    {
      inDip, enterPos, minVal, minPos := true, posNow, v, posNow;
    }

    method InsideDip(v: int, posNow: int) returns (done: bool)
      requires Shape()
      modifies this`minVal, this`minPos, this`crossed, this`inDip, this`clearRun
      modifies this`overflow, this`exiting, this`post, this`dcnt, this`decim, this`rn, this`rhead, this`nwin, this`preN
      modifies this`capturing, win
      ensures Shape() && (View(), done) == HallSampling.InDip(old(View()), v, posNow)
    {
      hide HallSampling.Closed, HallSampling.DipCapture, HallSampling.Leave, Lowered, Det, Cap;
      Lower(v, posNow);
      var full := DipCapture(v);
      if full { return true; }
      if baseline - v < HOME_EXIT {
        Leave(posNow);
        done := Closed();
        return done;
      }
      return false;
    }

    method OutsideDip(v: int, posNow: int)
      requires Shape()
      modifies this`clearRun, this`inDip, this`enterPos, this`minVal, this`minPos
      modifies this`dcnt, this`rhead, this`rn, this`nwin, this`preN, this`winStart, ring, win
      ensures Shape() && View() == HallSampling.Clear(old(View()), v, posNow)
    {
      hide HallSampling.RingPush, HallSampling.Freeze, Cleared, Det, Cap;
      Clears(v);
      RingPush(v);
      if baseline - v > HOME_ENTER && clearRun >= CLEAR_MIN {
        Open(v, posNow);
        Freeze(posNow);
      }
    }

    method Step(v: int, posNow: int) returns (done: bool)
      requires Shape()
      modifies this`seeded, this`baseline, this`clearRun, this`inDip, this`enterPos, this`minVal, this`minPos, this`crossed
      modifies this`overflow, this`exiting, this`post, this`dcnt, this`decim, this`rn, this`rhead, this`nwin, this`preN
      modifies this`capturing, this`winStart, win, ring
      ensures Shape() && (View(), done) == HallSampling.Sample(old(View()), v, posNow)
    {
      hide HallSampling.InDip, HallSampling.Clear, HallSampling.PostRoll, HallSampling.Track, Det, Cap;
      Track(v);
      if exiting {
        done := PostRoll(v);
      } else if inDip {
        done := InsideDip(v, posNow);
      } else {
        OutsideDip(v, posNow);
        done := false;
      }
    }

    /** The sample of one step. The answer comes with a full window, or with a complete one and its tail. */
    method Sample(v: int, posNow: int) returns (done: bool)
      requires Valid() && !over && posNow == PosAt(origin, sign, |trace|)
      modifies this, win, ring
      ensures Valid() && trace == old(trace) + [v] && done == over && sign == old(sign) && origin == old(origin)
      ensures (View(), done) == HallSampling.Sample(old(View()), v, posNow)
    {
      hide HallSampling.Sample, Run, PosAt, View;
      RunNext(sign, origin, blank, trace, v);
      done := Step(v, posNow);
      trace, over := trace + [v], done;
    }
  }
}
