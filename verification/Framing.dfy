/** The 9-bit bus framing: frames cut from each run of command bytes (src/node/rs485/frame.h, src/node/main.cpp). */
module Framing {

  const MAX_COMMANDS: nat := 4
  const MAX_PACKET_LEN: nat := 32
  const BROADCAST: nat := 0xff

  // ─── The reference parser ──────────────────────────────────────────────────

  /** A frame is [id][cmd][len][len bytes][crc]. */
  function Total(bytes: seq<nat>): nat
    requires |bytes| >= 3
  {
    3 + bytes[2] + 1
  }

  predicate Complete(bytes: seq<nat>) { |bytes| >= 4 && |bytes| == Total(bytes) }

  predicate Partial(bytes: seq<nat>) { |bytes| < 4 || |bytes| < Total(bytes) }

  /** The complete frames of a run of command bytes, cut one after the other from its start. */
  function Frames(bytes: seq<nat>): seq<seq<nat>>
    decreases |bytes|
  {
    if Partial(bytes) then [] else [bytes[..Total(bytes)]] + Frames(bytes[Total(bytes)..])
  }

  /** What reaches the framer: a command byte; a stream or damaged byte, which ends the run; the main loop taking the
      oldest queued frame. */
  datatype Event = Command(b: nat) | Break | Loop

  /** The command bytes before the first break. */
  function Leading(es: seq<Event>): seq<nat>
    decreases |es|
  {
    if es == [] || es[0].Break? then []
    else if es[0].Command? then [es[0].b] + Leading(es[1..])
    else Leading(es[1..])
  }

  /** The events after it. */
  function Following(es: seq<Event>): (r: seq<Event>)
    ensures |r| <= |es| && (es != [] ==> |r| < |es|)
    decreases |es|
  {
    if es == [] then [] else if es[0].Break? then es[1..] else Following(es[1..])
  }

  /** Every frame of every run. */
  function AllFrames(es: seq<Event>): seq<seq<nat>>
    decreases |es|
  {
    if es == [] then [] else Frames(Leading(es)) + AllFrames(Following(es))
  }

  /** For this node, or for every node, and short enough to store. */
  predicate Wanted(id: nat, frame: seq<nat>) {
    |frame| >= 1 && (frame[0] == id || frame[0] == BROADCAST) && |frame| <= MAX_PACKET_LEN
  }

  // ─── The framer, as values ─────────────────────────────────────────────────

  /** A completed frame and whether the ring had room for it. */
  datatype Entry = Entry(frame: seq<nat>, room: bool)

  datatype Framer = Framer(partial: seq<nat>, queue: seq<seq<nat>>, taken: seq<seq<nat>>, log: seq<Entry>)

  function OnByte(id: nat, f: Framer, b: nat): Framer {
    var p := f.partial + [b];
    if !Complete(p) then f.(partial := p) else
      var room := |f.queue| < MAX_COMMANDS - 1;
      f.(partial := [], log := f.log + [Entry(p, room)],
         queue := if Wanted(id, p) && room then f.queue + [p] else f.queue)
  }

  function OnLoop(f: Framer): Framer {
    if f.queue == [] then f else f.(queue := f.queue[1..], taken := f.taken + [f.queue[0]])
  }

  function OnEvent(id: nat, f: Framer, e: Event): Framer {
    match e
    case Command(b) => OnByte(id, f, b)
    case Break => f.(partial := [])
    case Loop => OnLoop(f)
  }

  function Run(id: nat, f: Framer, es: seq<Event>): Framer
    decreases |es|
  {
    if es == [] then f else Run(id, OnEvent(id, f, es[0]), es[1..])
  }

  function LogFrames(log: seq<Entry>): seq<seq<nat>> { seq(|log|, i requires 0 <= i < |log| => log[i].frame) }

  /** The entries kept: wanted, with room. */
  function Kept(id: nat, log: seq<Entry>): seq<seq<nat>>
    decreases |log|
  {
    if log == [] then [] else
      var e := log[|log| - 1];
      Kept(id, log[..|log| - 1]) + (if Wanted(id, e.frame) && e.room then [e.frame] else [])
  }

  // ─── The framer is the parser ──────────────────────────────────────────────

  lemma LogGrows(log: seq<Entry>, e: Entry, id: nat)
    ensures LogFrames(log + [e]) == LogFrames(log) + [e.frame]
    ensures Kept(id, log + [e]) == Kept(id, log) + (if Wanted(id, e.frame) && e.room then [e.frame] else [])
  {
    assert (log + [e])[..|log|] == log;
  }

  /** A frame completed byte by byte is the one the parser would cut. */
  lemma CutsFirst(frame: seq<nat>, rest: seq<nat>)
    requires Complete(frame)
    ensures Frames(frame + rest) == [frame] + Frames(rest)
  {
    assert (frame + rest)[..|frame|] == frame && (frame + rest)[|frame|..] == rest;
  }

  /** One command byte moves the boundary between what is logged and what is still to be cut. */
  lemma ByteCuts(id: nat, f: Framer, b: nat, rest: seq<nat>, more: seq<seq<nat>>)
    requires Partial(f.partial)
    ensures var f1 := OnByte(id, f, b);
      && Partial(f1.partial)
      && LogFrames(f1.log) + (Frames(f1.partial + rest) + more)
         == LogFrames(f.log) + (Frames(f.partial + ([b] + rest)) + more)
  {
    hide Wanted, Kept, Frames, LogFrames;
    var p := f.partial + [b];
    assert f.partial + ([b] + rest) == p + rest;
    if Complete(p) {
      var e := Entry(p, |f.queue| < MAX_COMMANDS - 1);
      LogGrows(f.log, e, id);
      CutsFirst(p, rest);
      assert [] + rest == rest;
    }
  }

  lemma NothingToCut(p: seq<nat>)
    requires Partial(p)
    ensures Frames(p) == []
  {
  }

  /** From a partial frame p: the frames completed are those of p and the leading bytes, then of the later runs. */
  lemma {:induction false} RunCuts(id: nat, f: Framer, es: seq<Event>)
    requires Partial(f.partial)
    ensures var g := Run(id, f, es);
      && Partial(g.partial)
      && LogFrames(g.log) == LogFrames(f.log) + (Frames(f.partial + Leading(es)) + AllFrames(Following(es)))
    decreases |es|
  {
    hide Partial, Frames, LogFrames, OnByte;
    NothingToCut(f.partial);
    if es == [] {
      assert f.partial + [] == f.partial;
    } else {
      if es[0].Command? { ByteCuts(id, f, es[0].b, Leading(es[1..]), AllFrames(Following(es[1..]))); }
      if es[0].Break? {
        EmptyPartial();
        BreakSplits(es[1..]);
        assert [] + Leading(es[1..]) == Leading(es[1..]) && f.partial + [] == f.partial;
      }
      RunCuts(id, OnEvent(id, f, es[0]), es[1..]);
    }
  }

  lemma EmptyPartial()
    ensures Partial([])
  {
  }

  lemma BreakSplits(es: seq<Event>)
    ensures Frames(Leading(es)) + AllFrames(Following(es)) == AllFrames(es)
  {
  }

  lemma {:induction false} RunKeeps(id: nat, f: Framer, es: seq<Event>)
    requires f.taken + f.queue == Kept(id, f.log) && |f.queue| < MAX_COMMANDS
    ensures var g := Run(id, f, es); g.taken + g.queue == Kept(id, g.log) && |g.queue| < MAX_COMMANDS
    decreases |es|
  {
    hide Wanted, Complete, Kept;
    if es != [] {
      if es[0].Command? && Complete(f.partial + [es[0].b]) {
        var e := Entry(f.partial + [es[0].b], |f.queue| < MAX_COMMANDS - 1);
        LogGrows(f.log, e, id);
        assert f.taken + (f.queue + [e.frame]) == (f.taken + f.queue) + [e.frame];
      }
      if es[0].Loop? && f.queue != [] { assert f.taken + f.queue == (f.taken + [f.queue[0]]) + f.queue[1..]; }
      RunKeeps(id, OnEvent(id, f, es[0]), es[1..]);
    }
  }

  function Empty(): Framer { Framer([], [], [], []) }

  /** For any stream of events: the frames completed are exactly those the parser cuts from each run, whatever is done
      with them, and the frames taken and queued are, in order, those wanted that found room. */
  lemma FramesExactly(id: nat, es: seq<Event>)
    ensures var g := Run(id, Empty(), es);
      && LogFrames(g.log) == AllFrames(es)
      && g.taken + g.queue == Kept(id, g.log)
      && |g.queue| < MAX_COMMANDS
  {
    RunCuts(id, Empty(), es);
    RunKeeps(id, Empty(), es);
    assert [] + Leading(es) == Leading(es);
    BreakSplits(es);
    assert LogFrames([]) == [];
  }

  // ─── What a sender may rely on ─────────────────────────────────────────────

  /** An id, a command, a length n, n bytes and a checksum. */
  predicate IsFrame(f: seq<nat>) { |f| >= 4 && |f| == 4 + f[2] }

  function Sent(fs: seq<seq<nat>>): seq<nat> { if fs == [] then [] else fs[0] + Sent(fs[1..]) }

  /** Frames sent back to back are cut as they were sent, whatever part of another follows them. */
  lemma {:induction false} CutAsSent(fs: seq<seq<nat>>, tail: seq<nat>)
    requires (forall i :: 0 <= i < |fs| ==> IsFrame(fs[i])) && (|tail| < 4 || |tail| < 4 + tail[2])
    ensures Frames(Sent(fs) + tail) == fs
    decreases |fs|
  {
    hide Frames;
    if fs == [] {
      assert Sent(fs) + tail == tail;
      NothingToCut(tail);
    } else {
      CutAsSent(fs[1..], tail);
      assert Sent(fs) + tail == fs[0] + (Sent(fs[1..]) + tail);
      CutsFirst(fs[0], Sent(fs[1..]) + tail);
    }
  }

  /** A byte that completes a frame queues it if and only if it is for this node or for all, no longer than 32 bytes, and
      fewer than three are queued; any other byte only joins the frame under way. */
  lemma QueuedExactly(id: nat, f: Framer, b: nat)
    requires |f.queue| < MAX_COMMANDS
    ensures var p, g := f.partial + [b], OnByte(id, f, b);
      && (!IsFrame(p) ==> g == f.(partial := p))
      && (IsFrame(p) ==>
            && g.partial == [] && g.taken == f.taken && g.log == f.log + [Entry(p, |f.queue| < 3)]
            && g.queue == f.queue + if (p[0] == id || p[0] == 0xff) && |p| <= 32 && |f.queue| < 3 then [p] else [])
  {
  }
}
