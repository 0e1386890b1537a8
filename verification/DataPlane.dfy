/** The receiver byte by byte: packets assembled in place, acknowledged as the protocol says
    (src/rp2350/core0/data_plane.cpp). */
module DataPlane {
  import opened GoBackN

  const BEZIER: nat := 0xad
  const LAYER_HDR: nat := 0xa1
  const JOB_HDR: nat := 0xb8
  const TOOL_HDR: nat := 0xb9
  const CJOG: nat := 0xaf
  const SEQRESET: nat := 0xa8
  const CFG_SET: nat := 0xb0
  const CFG_GET: nat := 0xb1
  const ABORT: nat := 0xa9
  const CJOG_STOP: nat := 0xb3
  const MAX_PACKET: nat := 62
  const SEQ_OFFSET: nat := 2
  const CFG_HEADER: nat := 8
  const CFG_MAX: nat := 32768

  /** Packet length by its first byte; 0 for a byte that starts none. */
  function SizeOf(magic: nat): (n: nat)
    ensures n == 0 || SEQ_OFFSET < n <= MAX_PACKET
  {
    if magic == BEZIER then 62 else if magic == LAYER_HDR then 20 else if magic == JOB_HDR then 17
    else if magic == TOOL_HDR then 21 else if magic == CJOG then 7 else 0
  }

  datatype Kind = Idle | Packet | Config

  /** Replies to a configuration transfer. */
  datatype CfgReply = Ready | Stored | TooBig | BadState | Denied | TimedOut

  /** Replies to a continuous jog. */
  datatype JogReply = JogAck | JogNack(reason: nat)

  const NACK_CRC: nat := 0x01

  /** What the byte receivers hold, and what has been written: stream, configuration and jog replies. */
  datatype Intake = Intake(kind: Kind, buf: seq<nat>, size: nat, hdr: seq<nat>, len: nat, blob: seq<nat>,
                           rx: Receiver, out: seq<Reply>, cfg: seq<CfgReply>, jog: seq<JogReply>)

  /** What the rest of the machine would say: to a packet complete with this byte, or, if it is a jog, what the jog
      replies; to a configuration header; to a configuration (its CRC, schema and store). */
  datatype Says = Says(packet: Verdict, jog: seq<JogReply>, atRest: bool, stored: bool)

  function LittleEndian(h: seq<nat>): nat
    requires |h| >= 4
  {
    h[0] + 0x100 * h[1] + 0x1_0000 * h[2] + 0x100_0000 * h[3]
  }

  predicate Whole(s: Intake) {
    && (s.kind.Packet? ==> 1 <= |s.buf| < s.size <= MAX_PACKET && s.size == SizeOf(s.buf[0]))
    && (s.kind.Config? ==>
          && |s.hdr| <= CFG_HEADER
          && (|s.hdr| == CFG_HEADER ==> |s.blob| < s.len <= CFG_MAX && s.len == LittleEndian(s.hdr)))
  }

  /** What a jog packet is answered: its damage, or whatever the jog says. */
  function JogAnswer(says: Says): seq<JogReply> { if says.packet.Corrupt? then [JogNack(NACK_CRC)] else says.jog }

  /** A complete packet: a jog goes by the sequence numbers and their replies, any other is the stream's. */
  function Complete(s: Intake, packet: seq<nat>, says: Says): Intake
    requires |packet| > SEQ_OFFSET
  {
    var s1 := s.(kind := Idle, buf := []);
    if packet[0] == CJOG then s1.(jog := s.jog + JogAnswer(says)) else
      var (r, o) := OnPacket(s.rx, packet[SEQ_OFFSET], says.packet);
      s1.(rx := r, out := s.out + o)
  }

  /** Out of a configuration transfer, with its last reply. */
  function EndConfig(s: Intake, reply: CfgReply): Intake {
    s.(kind := Idle, hdr := [], len := 0, blob := [], cfg := s.cfg + [reply])
  }

  function Header(s: Intake, h: seq<nat>, atRest: bool): Intake
    requires |h| == CFG_HEADER
  {
    var n := LittleEndian(h);
    if n == 0 || n > CFG_MAX then EndConfig(s, TooBig)
    else if !atRest then EndConfig(s, BadState)
    else s.(hdr := h, len := n, blob := [], cfg := s.cfg + [Ready])
  }

  function FeedConfig(s: Intake, b: nat, says: Says): (t: Intake)
    requires Whole(s) && s.kind.Config?
    ensures Whole(t)
  {
    if |s.hdr| < CFG_HEADER then
      if |s.hdr| + 1 < CFG_HEADER then s.(hdr := s.hdr + [b]) else Header(s, s.hdr + [b], says.atRest)
    else if |s.blob| + 1 < s.len then s.(blob := s.blob + [b])
    else EndConfig(s, if says.stored then Stored else Denied)
  }

  /** One byte. */
  function Consume(s: Intake, b: nat, says: Says): (t: Intake)
    requires Whole(s)
    ensures Whole(t)
  {
    match s.kind
    case Packet => if |s.buf| + 1 < s.size then s.(buf := s.buf + [b]) else Complete(s, s.buf + [b], says)
    case Config => FeedConfig(s, b, says)
    case Idle =>
      if SizeOf(b) > 0 then s.(kind := Packet, buf := [b], size := SizeOf(b))
      else if b == CFG_SET then s.(kind := Config, hdr := [])
      else if b == SEQRESET then
        var (r, o) := FlushAck(Receiver(0, 0));
        s.(rx := r, out := s.out + o)
      else s
  }

  /** Whether the byte belongs to the data plane, or is a character of a text command. */
  predicate Mine(s: Intake, b: nat) {
    !s.kind.Idle? || SizeOf(b) > 0 || b in {CFG_SET, CFG_GET, ABORT, CJOG_STOP, SEQRESET}
  }

  function ConsumeAll(s: Intake, bytes: seq<nat>, says: Says): (t: Intake)
    requires Whole(s)
    ensures Whole(t)
    decreases |bytes|
  {
    if bytes == [] then s else Consume(ConsumeAll(s, bytes[..|bytes| - 1], says), bytes[|bytes| - 1], says)
  }

  /** The loop's pass: nothing left unacknowledged, the jog's own reply, whatever has stalled given up. */
  function Drained(s: Intake, stalled: bool, jog: seq<JogReply>): Intake {
    var (r, o) := OnTick(s.rx);
    var s1 := s.(rx := r, out := s.out + o, jog := s.jog + jog);
    if !stalled then s1
    else match s.kind
      case Packet => s1.(kind := Idle, buf := [])
      case Config => EndConfig(s1, TimedOut)
      case Idle => s1
  }

  lemma Append(s: Intake, bytes: seq<nat>, b: nat, says: Says)
    requires Whole(s)
    ensures ConsumeAll(s, bytes + [b], says) == Consume(ConsumeAll(s, bytes, says), b, says)
  {
    hide Consume;
    assert (bytes + [b])[..|bytes|] == bytes;
  }

  lemma {:induction false} PartOf(s: Intake, p: seq<nat>, n: nat, says: Says)
    requires Whole(s) && s.kind.Idle? && |p| > 0 && |p| == SizeOf(p[0]) && 1 <= n < |p|
    ensures ConsumeAll(s, p[..n], says) == s.(kind := Packet, buf := p[..n], size := |p|)
  {
    assert p[..n - 1] + [p[n - 1]] == p[..n];
    Append(s, p[..n - 1], p[n - 1], says);
    if n > 1 { PartOf(s, p, n - 1, says); }
  }

  /** A whole packet fed to an idle receiver is judged once, as one packet, and leaves the receiver idle. */
  lemma WholePacket(s: Intake, p: seq<nat>, says: Says)
    requires Whole(s) && s.kind.Idle? && |p| > 0 && |p| == SizeOf(p[0])
    ensures var t := ConsumeAll(s, p, says);
      && t.kind.Idle? && t.cfg == s.cfg
      && (p[0] != CJOG ==>
            && t.rx == OnPacket(s.rx, p[SEQ_OFFSET], says.packet).0
            && t.out == s.out + OnPacket(s.rx, p[SEQ_OFFSET], says.packet).1)
      && (p[0] != CJOG ==> t.jog == s.jog)
      && (p[0] == CJOG ==>
            t.rx == s.rx && t.out == s.out && t.jog == s.jog + if says.packet.Corrupt? then [JogNack(NACK_CRC)] else says.jog)
  {
    hide OnPacket, ConsumeAll;
    PartOf(s, p, |p| - 1, says);
    assert p[..|p| - 1] + [p[|p| - 1]] == p;
    Append(s, p[..|p| - 1], p[|p| - 1], says);
  }

  /** And answered as the protocol says: of its replies, the new ones are `Answered`. */
  lemma PacketAnswered(s: Intake, p: seq<nat>, says: Says)
    requires Whole(s) && s.kind.Idle? && |p| > 0 && |p| == SizeOf(p[0]) && p[0] != CJOG && s.rx.pending < COALESCE
    ensures var t := ConsumeAll(s, p, says);
      s.out <= t.out && Answered(s.rx, p[SEQ_OFFSET], says.packet, t.rx, t.out[|s.out|..])
  {
    hide ConsumeAll;
    WholePacket(s, p, says);
    assert (s.out + OnPacket(s.rx, p[SEQ_OFFSET], says.packet).1)[|s.out|..] == OnPacket(s.rx, p[SEQ_OFFSET], says.packet).1;
  }

  predicate Fresh(s: Intake) { s.kind.Idle? && s.hdr == [] && s.len == 0 && s.blob == [] }

  lemma HeaderByte(s: Intake, hdr: seq<nat>, b: nat, says: Says)
    requires Whole(s) && Fresh(s) && |hdr| < CFG_HEADER - 1
    ensures Consume(s.(kind := Config, hdr := hdr), b, says) == s.(kind := Config, hdr := hdr + [b])
  {
  }

  lemma HeaderStarts(s: Intake, says: Says)
    requires Whole(s) && Fresh(s)
    ensures ConsumeAll(s, [CFG_SET], says) == s.(kind := Config, hdr := [])
  {
    assert [CFG_SET] == [] + [CFG_SET];
    Append(s, [], CFG_SET, says);
  }

  lemma {:induction false} HeaderPart(s: Intake, h: seq<nat>, n: nat, says: Says)
    requires Whole(s) && Fresh(s) && |h| == CFG_HEADER && n < CFG_HEADER
    ensures ConsumeAll(s, [CFG_SET] + h[..n], says) == s.(kind := Config, hdr := h[..n])
  {
    hide Consume, ConsumeAll, Whole, Fresh, LittleEndian;
    var start := [CFG_SET];
    if n == 0 {
      HeaderStarts(s, says);
      assert start + h[..0] == start;
    } else {
      HeaderPart(s, h, n - 1, says);
      HeaderByte(s, h[..n - 1], h[n - 1], says);
      Append(s, start + h[..n - 1], h[n - 1], says);
      assert h[..n - 1] + [h[n - 1]] == h[..n];
      assert (start + h[..n - 1]) + [h[n - 1]] == start + h[..n];
    }
  }

  /** A configuration header is answered at its eighth byte: refused and done with, or `Ready`. */
  lemma HeaderAnswered(s: Intake, h: seq<nat>, says: Says)
    requires Whole(s) && Fresh(s) && |h| == CFG_HEADER
    ensures var t := ConsumeAll(s, [CFG_SET] + h, says);
      && (LittleEndian(h) == 0 || LittleEndian(h) > CFG_MAX ==> t == s.(cfg := s.cfg + [TooBig]))
      && (1 <= LittleEndian(h) <= CFG_MAX && !says.atRest ==> t == s.(cfg := s.cfg + [BadState]))
      && (1 <= LittleEndian(h) <= CFG_MAX && says.atRest ==>
            t == s.(kind := Config, hdr := h, len := LittleEndian(h), cfg := s.cfg + [Ready]))
  {
    hide ConsumeAll, LittleEndian, Consume, Whole, Fresh;
    var n, start := CFG_HEADER - 1, [CFG_SET];
    HeaderPart(s, h, n, says);
    Append(s, start + h[..n], h[n], says);
    AllButOne(start, h);
    HeaderLast(s, h, says);
  }

  lemma HeaderLast(s: Intake, h: seq<nat>, says: Says)
    requires Whole(s) && Fresh(s) && |h| == CFG_HEADER
    ensures Whole(s.(kind := Config, hdr := h[..CFG_HEADER - 1]))
    ensures var t := Consume(s.(kind := Config, hdr := h[..CFG_HEADER - 1]), h[CFG_HEADER - 1], says);
      && (LittleEndian(h) == 0 || LittleEndian(h) > CFG_MAX ==> t == s.(cfg := s.cfg + [TooBig]))
      && (1 <= LittleEndian(h) <= CFG_MAX && !says.atRest ==> t == s.(cfg := s.cfg + [BadState]))
      && (1 <= LittleEndian(h) <= CFG_MAX && says.atRest ==>
            t == s.(kind := Config, hdr := h, len := LittleEndian(h), cfg := s.cfg + [Ready]))
  {
    hide LittleEndian;
    assert h[..CFG_HEADER - 1] + [h[CFG_HEADER - 1]] == h;
  }

  lemma {:induction false} BlobPart(s: Intake, h: seq<nat>, p: seq<nat>, n: nat, says: Says)
    requires Whole(s) && Fresh(s) && |h| == CFG_HEADER && says.atRest
    requires 1 <= LittleEndian(h) == |p| <= CFG_MAX && n < |p|
    ensures ConsumeAll(s, [CFG_SET] + h + p[..n], says)
         == s.(kind := Config, hdr := h, len := |p|, blob := p[..n], cfg := s.cfg + [Ready])
  {
    hide ConsumeAll;
    if n == 0 {
      HeaderAnswered(s, h, says);
      assert [CFG_SET] + h + p[..0] == [CFG_SET] + h;
    } else {
      BlobPart(s, h, p, n - 1, says);
      Append(s, [CFG_SET] + h + p[..n - 1], p[n - 1], says);
      assert ([CFG_SET] + h + p[..n - 1]) + [p[n - 1]] == [CFG_SET] + h + p[..n];
      assert p[..n - 1] + [p[n - 1]] == p[..n];
    }
  }

  lemma LastByte(s: Intake, h: seq<nat>, p: seq<nat>, says: Says)
    requires Whole(s) && Fresh(s) && |h| == CFG_HEADER && 1 <= LittleEndian(h) == |p| <= CFG_MAX
    ensures var t := s.(kind := Config, hdr := h, len := |p|, blob := p[..|p| - 1], cfg := s.cfg + [Ready]);
      Consume(t, p[|p| - 1], says) == s.(cfg := s.cfg + [Ready] + [if says.stored then Stored else Denied])
  {
    hide LittleEndian;
  }

  lemma AllButOne(before: seq<nat>, p: seq<nat>)
    requires p != []
    ensures (before + p[..|p| - 1]) + [p[|p| - 1]] == before + p
  {
  }

  /** A configuration goes by the stream protocol: whatever bytes it holds, packets and resets among them, the stream
      state and its replies are what they were, and the receiver is idle again after exactly its last byte. */
  lemma ConfigPassesBy(s: Intake, h: seq<nat>, p: seq<nat>, says: Says)
    requires Whole(s) && Fresh(s) && |h| == CFG_HEADER && says.atRest && 1 <= LittleEndian(h) == |p| <= CFG_MAX
    ensures ConsumeAll(s, [CFG_SET] + h + p, says)
         == s.(cfg := s.cfg + [Ready] + [if says.stored then Stored else Denied])
  {
    hide ConsumeAll, Consume, LittleEndian, Whole, Fresh;
    var n, before := |p| - 1, [CFG_SET] + h;
    BlobPart(s, h, p, n, says);
    LastByte(s, h, p, says);
    Append(s, before + p[..n], p[n], says);
    AllButOne(before, p);
  }

  // ─── Between packets ───────────────────────────────────────────────────────

  /** A reset, of an idle receiver, starts the stream at 0, with nothing due, and is answered by the ACK of 0. Of a packet or
      configuration under way it is a byte like any other. */
  lemma ResetAnswered(s: Intake, says: Says)
    requires Whole(s)
    ensures var t := Consume(s, SEQRESET, says);
      && (s.kind.Idle? ==> t == s.(rx := Receiver(0, 0), out := s.out + [Ack(0)]))
      && (s.kind.Packet? && |s.buf| + 1 < s.size ==> t == s.(buf := s.buf + [SEQRESET]))
      && (s.kind.Config? ==> t.rx == s.rx && t.out == s.out)
  {
    hide LittleEndian;
  }

  /** A byte left to the text commands changes nothing; an idle receiver leaves exactly those that start no packet, no
      transfer and no command of the plane's own. */
  lemma TextPassesBy(s: Intake, b: nat, says: Says)
    requires Whole(s)
    ensures !Mine(s, b) ==> Consume(s, b, says) == s
    ensures !Mine(s, b) <==> s.kind.Idle? && b !in {BEZIER, LAYER_HDR, JOB_HDR, TOOL_HDR, CJOG, CFG_SET, CFG_GET, ABORT, CJOG_STOP, SEQRESET}
  {
  }

  /** A pass with nothing stalled keeps whatever is under way; one that finds it stalled leaves the receiver idle, and
      answers a configuration and not a packet. Either way what is due is acknowledged, once, and nothing else. */
  lemma PassSettles(s: Intake, stalled: bool, jog: seq<JogReply>)
    requires Whole(s)
    ensures var t := Drained(s, stalled, jog);
      && Whole(t) && t.rx == s.rx.(pending := 0) && t.out == s.out + (if s.rx.pending > 0 then [Ack(s.rx.expected)] else [])
      && t.jog == s.jog + jog
      && (!stalled || s.kind.Idle? ==> t == s.(rx := t.rx, out := t.out, jog := t.jog))
      && (stalled ==> t.kind.Idle? && t.cfg == s.cfg + (if s.kind.Config? then [TimedOut] else []))
      && (stalled && s.kind.Packet? ==> t.buf == [])
      && (stalled && s.kind.Config? ==> t.hdr == [] && t.len == 0 && t.blob == [])
  {
    hide LittleEndian;
  }

  class Plane {
    const pktBuf: array<nat>
    const cfgHdr: array<nat>
    const stage: array<nat>
    var rxKind: Kind
    var pktIdx: nat
    var pktSize: nat
    var cfgHdrIdx: nat
    var cfgLen: nat
    var cfgRxCnt: nat
    var expectedSeq: nat
    var pendingAcks: nat
    var out: seq<Reply>       // what the serial port has been given
    var cfgOut: seq<CfgReply>
    var jogOut: seq<JogReply>

    ghost predicate Shape()
      reads this
    {
      && pktBuf.Length == MAX_PACKET && cfgHdr.Length == CFG_HEADER && stage.Length == CFG_MAX
      && pktBuf != cfgHdr && pktBuf != stage && cfgHdr != stage
      && (rxKind.Packet? ==> 1 <= pktIdx < pktSize <= MAX_PACKET)
      && (rxKind.Config? ==> cfgHdrIdx <= CFG_HEADER && (cfgHdrIdx == CFG_HEADER ==> cfgRxCnt < cfgLen <= CFG_MAX))
    }

    ghost function Rx(): Receiver
      reads this`expectedSeq, this`pendingAcks
    {
      Receiver(expectedSeq, pendingAcks)
    }

    ghost function View(): Intake
      reads this, pktBuf, cfgHdr, stage
      requires Shape()
    {
      var filling := rxKind.Config? && cfgHdrIdx == CFG_HEADER;
      Intake(rxKind, if rxKind.Packet? then pktBuf[..pktIdx] else [], pktSize,
             if rxKind.Config? then cfgHdr[..cfgHdrIdx] else [], if filling then cfgLen else 0,
             if filling then stage[..cfgRxCnt] else [], Rx(), out, cfgOut, jogOut)
    }

    ghost predicate Valid()
      reads this, pktBuf, cfgHdr, stage
    {
      Shape() && Whole(View())
    }

    constructor ()
      ensures Valid() && fresh(pktBuf) && fresh(cfgHdr) && fresh(stage)
      ensures View() == Intake(Idle, [], 0, [], 0, [], Receiver(0, 0), [], [], [])
    {
      pktBuf, cfgHdr, stage := new nat[MAX_PACKET], new nat[CFG_HEADER], new nat[CFG_MAX];
      rxKind, pktIdx, pktSize := Idle, 0, 0;
      cfgHdrIdx, cfgLen, cfgRxCnt := 0, 0, 0;
      expectedSeq, pendingAcks, out, cfgOut, jogOut := 0, 0, [], [], [];
    }

    method FlushAck()
      modifies this`pendingAcks, this`out
      ensures Rx() == GoBackN.FlushAck(old(Rx())).0 && out == old(out) + GoBackN.FlushAck(old(Rx())).1
    {
      pendingAcks := 0;
      out := out + [Ack(expectedSeq)];
    }

    method MarkAck()
      modifies this`pendingAcks, this`out
      ensures Rx() == GoBackN.MarkAck(old(Rx())).0 && out == old(out) + GoBackN.MarkAck(old(Rx())).1
    {
      pendingAcks := pendingAcks + 1;
      if pendingAcks >= COALESCE { FlushAck(); }
    }

    /** A NACK never overtakes an ACK that is due. */
    method SendNack()
      modifies this`pendingAcks, this`out
      ensures Rx() == GoBackN.SendNack(old(Rx())).0 && out == old(out) + GoBackN.SendNack(old(Rx())).1
    {
      if pendingAcks > 0 { FlushAck(); }
      out := out + [Nack];
    }

    method Judge(seqNo: nat, v: Verdict)
      modifies this`expectedSeq, this`pendingAcks, this`out
      ensures Rx() == OnPacket(old(Rx()), seqNo, v).0 && out == old(out) + OnPacket(old(Rx()), seqNo, v).1
    {
      if v.Corrupt? || v.Barred? {
        SendNack();
        return;
      }
      if seqNo != expectedSeq {
        FlushAck();
        return;
      }
      if v.Refused? {
        SendNack();
        return;
      }
      expectedSeq := (expectedSeq + 1) % 256;
      MarkAck();
    }

    method FeedPacket(b: nat, says: Says)
      requires Valid() && rxKind.Packet?
      modifies this`pktIdx, this`rxKind, this`expectedSeq, this`pendingAcks, this`out, this`jogOut, pktBuf
      ensures Valid() && View() == Consume(old(View()), b, says)
    {
      hide OnPacket;
      ghost var packet := pktBuf[..pktIdx] + [b];
      pktBuf[pktIdx] := b;
      pktIdx := pktIdx + 1;
      assert pktBuf[..pktIdx] == packet;
      if pktIdx < pktSize { return; }
      rxKind := Idle;
      pktIdx := 0;
      if pktBuf[0] == CJOG {
        jogOut := jogOut + if says.packet.Corrupt? then [JogNack(NACK_CRC)] else says.jog;
        return;
      }
      Judge(pktBuf[SEQ_OFFSET], says.packet);
    }

    /** The header's bytes, and the answer to it. */
    method FeedHeader(b: nat, says: Says)
      requires Valid() && rxKind.Config? && cfgHdrIdx < CFG_HEADER
      modifies this`cfgHdrIdx, this`cfgLen, this`cfgRxCnt, this`rxKind, this`cfgOut, cfgHdr
      ensures Valid() && View() == FeedConfig(old(View()), b, says)
    {
      ghost var h := cfgHdr[..cfgHdrIdx] + [b];
      cfgHdr[cfgHdrIdx] := b;
      cfgHdrIdx := cfgHdrIdx + 1;
      assert cfgHdr[..cfgHdrIdx] == h;
      if cfgHdrIdx < CFG_HEADER { return; }
      cfgLen := cfgHdr[0] + 0x100 * cfgHdr[1] + 0x1_0000 * cfgHdr[2] + 0x100_0000 * cfgHdr[3];
      if cfgLen == 0 || cfgLen > CFG_MAX {
        cfgOut, rxKind := cfgOut + [TooBig], Idle;
        return;
      }
      if !says.atRest {
        cfgOut, rxKind := cfgOut + [BadState], Idle;
        return;
      }
      cfgRxCnt := 0;
      cfgOut := cfgOut + [Ready];
    }

    /** The payload, staged byte by byte: never past the buffer. */
    method FeedBlob(b: nat, says: Says)
      requires Valid() && rxKind.Config? && cfgHdrIdx == CFG_HEADER
      modifies this`cfgRxCnt, this`rxKind, this`cfgOut, stage
      ensures Valid() && View() == FeedConfig(old(View()), b, says)
    {
      ghost var blob := stage[..cfgRxCnt] + [b];
      stage[cfgRxCnt] := b;
      cfgRxCnt := cfgRxCnt + 1;
      assert stage[..cfgRxCnt] == blob;
      if cfgRxCnt < cfgLen { return; }
      rxKind := Idle;
      cfgOut := cfgOut + [if says.stored then Stored else Denied];
    }

    /** One byte from the host; false where it belongs to a text command. */
    method Take(b: nat, says: Says) returns (mine: bool)
      requires Valid()
      modifies this, pktBuf, cfgHdr, stage
      ensures Valid() && View() == Consume(old(View()), b, says) && mine == Mine(old(View()), b)
    {
      hide OnPacket, Complete, FeedConfig;
      match rxKind {
        case Packet =>
          FeedPacket(b, says);
          return true;
        case Config =>
          if cfgHdrIdx < CFG_HEADER { FeedHeader(b, says); } else { FeedBlob(b, says); }
          return true;
        case Idle =>
      }
      if SizeOf(b) > 0 {
        pktBuf[0] := b;
        pktIdx, pktSize, rxKind := 1, SizeOf(b), Packet;
        assert pktBuf[..1] == [b];
        return true;
      }
      if b == CFG_SET {
        cfgHdrIdx, rxKind := 0, Config;
        return true;
      }
      if b == SEQRESET {
        expectedSeq, pendingAcks := 0, 0;
        FlushAck();
        return true;
      }
      return b == CFG_GET || b == ABORT || b == CJOG_STOP;
    }

    /** Once the input has drained: acknowledges what is due, gives up what has stalled. */
    method Pass(stalled: bool, jog: seq<JogReply>)
      requires Valid()
      modifies this
      ensures Valid() && View() == Drained(old(View()), stalled, jog) && pendingAcks == 0
    {
      hide LittleEndian, SizeOf;
      if pendingAcks > 0 { FlushAck(); }
      jogOut := jogOut + jog;
      if rxKind == Config && stalled {
        rxKind := Idle;
        cfgOut := cfgOut + [TimedOut];
      }
      if rxKind == Packet && stalled {
        rxKind := Idle;
        pktIdx := 0;
      }
    }
  }
}
