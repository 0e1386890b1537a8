/** The receive interrupt's framer and the main loop's end of its ring, in place (src/node/rs485/frame.h,
    src/node/main.cpp). */
module FrameQueue {
  import opened Framing

  datatype CommandPacket = CommandPacket(data: seq<nat>, length: nat)

  function Stored(p: CommandPacket): seq<nat> { if p.length <= |p.data| then p.data[..p.length] else [] }

  /** Slot i places after slot tail. */
  function Cell(tail: nat, i: nat): nat { (tail + i) % MAX_COMMANDS }

  lemma Cells(tail: nat, i: nat, count: nat)
    requires tail < MAX_COMMANDS && i <= MAX_COMMANDS
    ensures Cell(tail, i) < MAX_COMMANDS
    ensures i < count < MAX_COMMANDS ==> Cell(tail, i) != Cell(tail, count)
    ensures Cell(Cell(tail, 1), i) == Cell(tail, i + 1)
  {
  }

  /** `count` frames of the ring, from slot `tail` on. */
  function Contents(ring: seq<CommandPacket>, tail: nat, count: nat): (q: seq<seq<nat>>)
    ensures |q| == count
  {
    seq(count, i requires 0 <= i < count => if Cell(tail, i) < |ring| then Stored(ring[Cell(tail, i)]) else [])
  }

  /** A write to the head slot, which lies past the queued ones, is not seen. */
  lemma ContentsKept(ring: seq<CommandPacket>, ring': seq<CommandPacket>, tail: nat, count: nat)
    requires |ring| == |ring'| == MAX_COMMANDS && tail < MAX_COMMANDS && count < MAX_COMMANDS
    requires forall i :: 0 <= i < MAX_COMMANDS && i != Cell(tail, count) ==> ring[i] == ring'[i]
    ensures Contents(ring', tail, count) == Contents(ring, tail, count)
  {
    hide Cell, Stored;
    var q, q' := Contents(ring, tail, count), Contents(ring', tail, count);
    forall i | 0 <= i < count
      ensures q[i] == q'[i]
    {
      Cells(tail, i, count);
    }
  }

  lemma ContentsPush(ring: seq<CommandPacket>, tail: nat, count: nat)
    requires |ring| == MAX_COMMANDS
    ensures Contents(ring, tail, count + 1)
         == Contents(ring, tail, count) + (if Cell(tail, count) < |ring| then [Stored(ring[Cell(tail, count)])] else [[]])
  {
    hide Cell, Stored;
  }

  lemma ContentsPop(ring: seq<CommandPacket>, tail: nat, count: nat)
    requires |ring| == MAX_COMMANDS && tail < MAX_COMMANDS && 1 <= count <= MAX_COMMANDS
    ensures Contents(ring, Cell(tail, 1), count - 1) == Contents(ring, tail, count)[1..]
  {
    hide Cell, Stored;
    var q, q' := Contents(ring, tail, count)[1..], Contents(ring, Cell(tail, 1), count - 1);
    forall i | 0 <= i < count - 1
      ensures q[i] == q'[i]
    {
      Cells(tail, i, count);
    }
  }

  lemma HeadCell(head: nat, tail: nat)
    requires head < MAX_COMMANDS && tail < MAX_COMMANDS
    ensures Cell(tail, Queued(head, tail)) == head && Queued(head, tail) < MAX_COMMANDS
    ensures Queued(head, tail) == 0 <==> head == tail
    ensures Cell(head, 1) != tail ==> Queued(Cell(head, 1), tail) == Queued(head, tail) + 1 < MAX_COMMANDS
    ensures Cell(head, 1) == tail <==> Queued(head, tail) == MAX_COMMANDS - 1
    ensures head != tail ==> Queued(head, Cell(tail, 1)) == Queued(head, tail) - 1
    ensures Cell(tail, 0) == tail
  {
    hide Queued, Cell;
    QueuedIs(head, tail);
    CellIs(head);
    CellIs(tail);
    CellAt(tail, Queued(head, tail));
    QueuedIs(Cell(head, 1), tail);
    QueuedIs(head, Cell(tail, 1));
  }

  lemma QueuedIs(head: nat, tail: nat)
    requires head < MAX_COMMANDS && tail < MAX_COMMANDS
    ensures Queued(head, tail) == if head >= tail then head - tail else head + MAX_COMMANDS - tail
  {
  }

  lemma CellIs(i: nat)
    requires i < MAX_COMMANDS
    ensures Cell(i, 0) == i && Cell(i, 1) == if i == MAX_COMMANDS - 1 then 0 else i + 1
  {
  }

  lemma CellAt(tail: nat, n: nat)
    requires tail < MAX_COMMANDS && n < MAX_COMMANDS
    ensures Cell(tail, n) == if tail + n < MAX_COMMANDS then tail + n else tail + n - MAX_COMMANDS
  {
  }

  function Queued(head: nat, tail: nat): nat
    requires tail < MAX_COMMANDS
  {
    (head + MAX_COMMANDS - tail) % MAX_COMMANDS
  }

  class Bus {
    const nodeId: nat
    const cmdQueue: array<CommandPacket>
    var cmdHead: nat
    var cmdTail: nat
    var inCommand: bool
    var rxIdx: nat
    var discardCmd: bool
    ghost var partial: seq<nat>        // the command bytes of the frame under way
    ghost var taken: seq<seq<nat>>     // what the loop has consumed
    ghost var log: seq<Entry>          // every completed frame

    ghost predicate Shape()
      reads this`cmdHead, this`cmdTail, cmdQueue
    {
      && cmdQueue.Length == MAX_COMMANDS && cmdHead < MAX_COMMANDS && cmdTail < MAX_COMMANDS
      && forall i :: 0 <= i < MAX_COMMANDS ==>
                       |cmdQueue[i].data| == MAX_PACKET_LEN && cmdQueue[i].length <= MAX_PACKET_LEN
    }

    /** The queued frames, from tail to head. */
    ghost function Queue(): seq<seq<nat>>
      reads this`cmdHead, this`cmdTail, cmdQueue
    {
      if cmdTail < MAX_COMMANDS then Contents(cmdQueue[..], cmdTail, Queued(cmdHead, cmdTail)) else []
    }

    ghost predicate Assembling()
      reads this`inCommand, this`rxIdx, this`discardCmd, this`partial, this`cmdHead, this`cmdTail, cmdQueue
      requires Shape()
    {
      && inCommand == (partial != [])
      && (inCommand ==>
            && rxIdx == |partial|
            && (forall k :: 0 <= k < rxIdx && k < MAX_PACKET_LEN ==> cmdQueue[cmdHead].data[k] == partial[k])
            && (discardCmd <==> (partial[0] != nodeId && partial[0] != BROADCAST) || rxIdx > MAX_PACKET_LEN))
    }

    ghost predicate Valid()
      reads this, cmdQueue
    {
      Shape() && Assembling() && Partial(partial)
    }

    ghost function View(): Framer
      reads this, cmdQueue
      requires Shape()
    {
      Framer(partial, Queue(), taken, log)
    }

    constructor (nodeId: nat)
      ensures Valid() && View() == Empty() && this.nodeId == nodeId
    {
      this.nodeId := nodeId;
      cmdQueue := new CommandPacket[MAX_COMMANDS](_ => CommandPacket(seq(MAX_PACKET_LEN, _ => 0), 0));
      cmdHead, cmdTail, inCommand, rxIdx, discardCmd := 0, 0, false, 0, false;
      partial, taken, log := [], [], [];
    }

    /** Writes one byte of the frame under way; only the free head slot changes. */
    method StoreByte(b: nat)
      requires Valid()
      modifies this`inCommand, this`rxIdx, this`discardCmd, this`partial, cmdQueue
      ensures Shape() && Assembling() && partial == old(partial) + [b] && inCommand
      ensures Queue() == old(Queue())
      ensures forall i :: 0 <= i < MAX_COMMANDS && i != cmdHead ==> cmdQueue[i] == old(cmdQueue[i])
    {
      hide Contents, Queued, Cell;
      if !inCommand {
        inCommand, rxIdx, discardCmd := true, 0, false;
      }
      if rxIdx < MAX_PACKET_LEN {
        var p := cmdQueue[cmdHead];
        cmdQueue[cmdHead] := p.(data := p.data[rxIdx := b]);
      } else {
        discardCmd := true;
      }
      rxIdx := rxIdx + 1;
      if rxIdx == 1 && b != nodeId && b != BROADCAST { discardCmd := true; }
      partial := partial + [b];
      HeadCell(cmdHead, cmdTail);
      ContentsKept(old(cmdQueue[..]), cmdQueue[..], cmdTail, Queued(cmdHead, cmdTail));
    }

    /** Commits the head slot, unless the ring is full. */
    method Commit(ghost frame: seq<nat>)
      requires Shape() && rxIdx <= MAX_PACKET_LEN && cmdQueue[cmdHead].data[..rxIdx] == frame
      modifies this`cmdHead, cmdQueue
      ensures Shape()
      ensures Queue() == if |old(Queue())| < MAX_COMMANDS - 1 then old(Queue()) + [frame] else old(Queue())
      ensures forall i :: 0 <= i < MAX_COMMANDS && i != old(cmdHead) ==> cmdQueue[i] == old(cmdQueue[i])
    {
      hide Contents, Queued;
      HeadCell(cmdHead, cmdTail);
      var nextHead := (cmdHead + 1) % MAX_COMMANDS;
      if nextHead == cmdTail { return; }
      ghost var count := Queued(cmdHead, cmdTail);
      cmdQueue[cmdHead] := cmdQueue[cmdHead].(length := rxIdx);
      ContentsKept(old(cmdQueue[..]), cmdQueue[..], cmdTail, count);
      ContentsPush(cmdQueue[..], cmdTail, count);
      cmdHead := nextHead;
    }

    /** The frame ends: dropped, or committed if there is room. */
    method EndFrame()
      requires Shape() && Assembling() && inCommand && Complete(partial)
      modifies this`inCommand, this`cmdHead, this`partial, this`log, cmdQueue
      ensures Valid() && partial == [] && log == old(log) + [Entry(old(partial), |old(Queue())| < MAX_COMMANDS - 1)]
      ensures Queue() == if Wanted(nodeId, old(partial)) && |old(Queue())| < MAX_COMMANDS - 1
                         then old(Queue()) + [old(partial)] else old(Queue())
      ensures forall i :: 0 <= i < MAX_COMMANDS && i != old(cmdHead) ==> cmdQueue[i] == old(cmdQueue[i])
    {
      hide Contents, Queued, Cell, Queue;
      ghost var frame, queue := partial, Queue();
      inCommand, partial := false, [];
      log := log + [Entry(frame, |queue| < MAX_COMMANDS - 1)];
      if discardCmd { return; }
      assert cmdQueue[cmdHead].data[..rxIdx] == frame;
      Commit(frame);
    }

    /** One command byte. The slots already queued, and the one the loop may be reading, do not change. */
    method CommandByte(b: nat)
      requires Valid()
      modifies this`inCommand, this`rxIdx, this`discardCmd, this`cmdHead, this`partial, this`log, cmdQueue
      ensures Valid() && View() == OnByte(nodeId, old(View()), b)
      ensures forall i :: 0 <= i < MAX_COMMANDS && i != old(cmdHead) ==> cmdQueue[i] == old(cmdQueue[i])
    {
      hide Queue, Wanted;
      StoreByte(b);
      if rxIdx < 4 || rxIdx != 3 + cmdQueue[cmdHead].data[2] + 1 { return; }
      EndFrame();
    }

    /** A stream byte, or a byte that failed its framing. */
    method StreamReset()
      requires Valid()
      modifies this`inCommand, this`discardCmd, this`partial
      ensures Valid() && View() == OnEvent(nodeId, old(View()), Break)
    {
      hide Queue;
      inCommand, discardCmd := false, false;
      partial := [];
    }

    /** The loop's read of the oldest frame; the interrupt may run any number of times before Finish. */
    method Peek() returns (frame: seq<nat>)
      requires Valid() && cmdHead != cmdTail
      ensures Queue() != [] && frame == Queue()[0]
    {
      hide Queued;
      HeadCell(cmdHead, cmdTail);
      frame := cmdQueue[cmdTail].data[..cmdQueue[cmdTail].length];
      assert Queue()[0] == Stored(cmdQueue[Cell(cmdTail, 0)]);
    }

    method Finish()
      requires Valid() && cmdHead != cmdTail
      modifies this`cmdTail, this`taken
      ensures Valid() && View() == OnEvent(nodeId, old(View()), Loop)
    {
      hide Contents, Queued, Partial;
      HeadCell(cmdHead, cmdTail);
      ContentsPop(cmdQueue[..], cmdTail, Queued(cmdHead, cmdTail));
      taken := taken + [Queue()[0]];
      cmdTail := (cmdTail + 1) % MAX_COMMANDS;
    }
  }
}
