/** The stream protocol: an 8-bit Go-Back-N receiver with coalesced cumulative ACKs (src/rp2350/core0/data_plane.cpp)
    against the host's windowed session (web/src/wire/link/session.ts), over FIFO channels that lose and corrupt. */
module GoBackN {

  const COALESCE: nat := 8

  // ─── The receiver ──────────────────────────────────────────────────────────

  datatype Reply = Ack(seqNo: nat) | Nack

  datatype Receiver = Receiver(expected: nat, pending: nat)

  /** What becomes of a complete packet: a bad CRC, a gate that refuses before the sequence guard, or the packet's own
      handler taking or refusing it. */
  datatype Verdict = Corrupt | Barred | Taken | Refused

  function FlushAck(r: Receiver): (Receiver, seq<Reply>) { (r.(pending := 0), [Ack(r.expected)]) }

  function SendNack(r: Receiver): (Receiver, seq<Reply>) {
    if r.pending > 0 then (r.(pending := 0), [Ack(r.expected), Nack]) else (r, [Nack])
  }

  function MarkAck(r: Receiver): (Receiver, seq<Reply>) {
    var r1 := r.(pending := r.pending + 1);
    if r1.pending >= COALESCE then FlushAck(r1) else (r1, [])
  }

  function OnPacket(r: Receiver, seqNo: nat, v: Verdict): (Receiver, seq<Reply>) {
    if v.Corrupt? || v.Barred? then SendNack(r)
    else if seqNo != r.expected then FlushAck(r)
    else if v.Taken? then MarkAck(r.(expected := (r.expected + 1) % 256))
    else SendNack(r)
  }

  function OnTick(r: Receiver): (Receiver, seq<Reply>) { if r.pending > 0 then FlushAck(r) else (r, []) }

  predicate Executes(r: Receiver, seqNo: nat, v: Verdict) { v.Taken? && seqNo == r.expected }

  // ─── Host, links and receiver together ─────────────────────────────────────

  /** A packet on the wire: its index in the stream, and how many packets had been sent when it left. */
  datatype Flight = Flight(idx: nat, sent: nat)

  /** A reply on the wire, with how many packets had been executed when it left, and how many the ACKs up to and
      including it had confirmed. */
  datatype Echo = Echo(reply: Reply, count: nat, confirmed: nat)

  /** The host counts in absolute indices and stamps index mod 256; `sent` is one more than the highest index ever
      sent, `confirmed` the count of the last ACK to leave the receiver. */
  datatype Net = Net(window: nat, base: nat, next: nat, emitted: nat, sent: nat, wire: seq<Flight>, rx: Receiver,
                     executed: seq<nat>, confirmed: nat, echoes: seq<Echo>)

  datatype Action =
    | Pull(n: nat)            // the host's source yields more packets
    | Send                    // the host writes its next packet
    | GoBack                  // silence or a NACK rewinds the host
    | Drop(i: nat)            // the link loses a packet
    | Deliver(v: Verdict)     // the oldest packet arrives
    | Tick                    // the receiver's input has drained
    | Lose(i: nat)            // the link loses a reply
    | Hear                    // the oldest reply reaches the host

  predicate Enabled(s: Net, a: Action) {
    match a
    case Pull(_) => true
    case Send => s.next < s.emitted && s.next - s.base < s.window
    case GoBack => true
    case Drop(i) => i < |s.wire|
    case Deliver(_) => |s.wire| > 0
    case Tick => true
    case Lose(i) => i < |s.echoes|
    case Hear => |s.echoes| > 0
  }

  predicate Acks(out: seq<Reply>) { exists i :: 0 <= i < |out| && out[i].Ack? }

  function Echoes(out: seq<Reply>, count: nat, confirmed: nat): seq<Echo> {
    seq(|out|, i requires 0 <= i < |out| => Echo(out[i], count, if Acks(out[..i + 1]) then count else confirmed))
  }

  function RemoveAt<T>(q: seq<T>, i: nat): seq<T>
    requires i < |q|
  {
    q[..i] + q[i + 1..]
  }

  function Answer(s: Net, r: (Receiver, seq<Reply>), executed: seq<nat>): Net {
    s.(rx := r.0, executed := executed, confirmed := if Acks(r.1) then |executed| else s.confirmed,
       echoes := s.echoes + Echoes(r.1, |executed|, s.confirmed))
  }

  /** What an ACK byte releases: the count it is ahead of the base mod 256, if no more than is outstanding. */
  function ApplyAck(s: Net, seqNo: nat): Net {
    var delta := (seqNo - s.base) % 256;
    if 0 < delta <= s.next - s.base then s.(base := s.base + delta) else s
  }

  function Perform(s: Net, a: Action): Net
    requires Enabled(s, a)
  {
    match a
    case Pull(n) => s.(emitted := s.emitted + n)
    case Send =>
      var sent := if s.next + 1 > s.sent then s.next + 1 else s.sent;
      s.(next := s.next + 1, sent := sent, wire := s.wire + [Flight(s.next, sent)])
    case GoBack => s.(next := s.base)
    case Drop(i) => s.(wire := RemoveAt(s.wire, i))
    case Deliver(v) =>
      var f := s.wire[0];
      var s1 := s.(wire := s.wire[1..]);
      Answer(s1, OnPacket(s.rx, f.idx % 256, v), if Executes(s.rx, f.idx % 256, v) then s.executed + [f.idx] else s.executed)
    case Tick => Answer(s, OnTick(s.rx), s.executed)
    case Lose(i) => s.(echoes := RemoveAt(s.echoes, i))
    case Hear =>
      var s1 := s.(echoes := s.echoes[1..]);
      if s.echoes[0].reply.Ack? then ApplyAck(s1, s.echoes[0].reply.seqNo) else s1
  }

  function Start(window: nat): Net { Net(window, 0, 0, 0, 0, [], Receiver(0, 0), [], 0, []) }

  // ─── What every action keeps ───────────────────────────────────────────────

  ghost predicate InOrder(executed: seq<nat>) { forall i :: 0 <= i < |executed| ==> executed[i] == i }

  ghost predicate WireOk(s: Net) {
    && (forall i :: 0 <= i < |s.wire| ==>
          && s.wire[i].idx < s.wire[i].sent <= s.wire[i].idx + s.window && s.wire[i].sent <= s.sent
          && |s.executed| <= s.wire[i].sent)
    && (forall i, j :: 0 <= i < j < |s.wire| ==> s.wire[i].sent <= s.wire[j].sent)
  }

  /** Every ACK byte is the count of packets executed when it left, and a NACK leaves with nothing unconfirmed. */
  ghost predicate EchoOk(s: Net) {
    && (forall i :: 0 <= i < |s.echoes| ==>
          && (s.echoes[i].reply.Ack? ==> s.echoes[i].reply.seqNo == s.echoes[i].count % 256)
          && s.echoes[i].confirmed == s.echoes[i].count
          && s.base <= s.echoes[i].count <= |s.executed|)
    && (forall i, j :: 0 <= i < j < |s.echoes| ==> s.echoes[i].count <= s.echoes[j].count)
  }

  ghost predicate Inv(s: Net) {
    && InOrder(s.executed) && s.rx.expected == |s.executed| % 256
    && s.rx.pending < COALESCE && s.confirmed + s.rx.pending == |s.executed|
    && s.base <= |s.executed| <= s.sent <= s.base + s.window && s.sent <= s.emitted
    && s.base <= s.next <= s.sent
    && WireOk(s) && EchoOk(s)
  }

  lemma SameIndex(idx: nat, count: nat)
    requires idx % 256 == count % 256 && idx < count + 256 && count < idx + 256
    ensures idx == count
  {
  }

  /** A packet is executed only if it is the next one. */
  lemma DeliverIsNext(s: Net)
    requires Inv(s) && s.window <= 255 && |s.wire| > 0 && s.wire[0].idx % 256 == s.rx.expected
    ensures s.wire[0].idx == |s.executed|
  {
    SameIndex(s.wire[0].idx, |s.executed|);
  }

  lemma EchoesAre(out: seq<Reply>, count: nat, confirmed: nat)
    requires out == [] || out[0].Ack? || (out == [Nack] && confirmed == count)
    ensures forall i :: 0 <= i < |out| ==>
      Echoes(out, count, confirmed)[i].count == count == Echoes(out, count, confirmed)[i].confirmed
  {
    forall i | 0 <= i < |out|
      ensures Echoes(out, count, confirmed)[i].confirmed == count
    {
      if out[0].Ack? { assert out[..i + 1][0].Ack?; }
    }
  }

  lemma AnswerKeeps(s: Net, r: (Receiver, seq<Reply>), executed: seq<nat>)
    requires InOrder(executed) && |s.executed| <= |executed| && r.0.expected == |executed| % 256
    requires r.1 == [] || r.1[0].Ack? || (r.1 == [Nack] && s.confirmed == |executed|)
    requires forall i :: 0 <= i < |r.1| && r.1[i].Ack? ==> r.1[i].seqNo == |executed| % 256
    requires r.0.pending < COALESCE && (if Acks(r.1) then r.0.pending == 0 else s.confirmed + r.0.pending == |executed|)
    requires s.base <= |executed| <= s.sent <= s.base + s.window && s.sent <= s.emitted && s.base <= s.next <= s.sent
    requires WireOk(s.(executed := executed)) && EchoOk(s)
    ensures Inv(Answer(s, r, executed))
  {
    EchoesAre(r.1, |executed|, s.confirmed);
  }

  /** What any packet's answer looks like, whoever it is from and whatever becomes of it. */
  lemma OnPacketFacts(r: Receiver, idx: nat, v: Verdict, count: nat)
    requires r.expected == count % 256 && r.pending < COALESCE && (idx % 256 == r.expected ==> idx == count)
    ensures var a := OnPacket(r, idx % 256, v);
      var now := if Executes(r, idx % 256, v) then count + 1 else count;
      && a.0.expected == now % 256 && a.0.pending < COALESCE
      && (a.1 == [] || a.1[0].Ack? || (a.1 == [Nack] && r.pending == 0 && now == count))
      && (forall i :: 0 <= i < |a.1| && a.1[i].Ack? ==> a.1[i].seqNo == now % 256)
      && (if Acks(a.1) then a.0.pending == 0 else a.0.pending - r.pending == now - count)
  {
    var a := OnPacket(r, idx % 256, v);
    assert a.1 != [] && a.1[0].Ack? ==> Acks(a.1);
  }

  // ─── What a packet is answered ─────────────────────────────────────────────

  /** A packet that is not taken for what is wrong with it: damaged, turned away before the sequence guard, or next and
      refused by its handler. */
  predicate TurnedAway(r: Receiver, seqNo: nat, v: Verdict) {
    v.Corrupt? || v.Barred? || (seqNo == r.expected && v.Refused?)
  }

  predicate EndsInNack(out: seq<Reply>) { out != [] && out[|out| - 1].Nack? }

  /** The replies `out`, and the receiver `now`, that a packet leaves behind: a NACK, behind the ACK that is due, exactly
      if it is turned away; one ACK of the count if it is out of sequence; and silence exactly if it is executed and leaves
      fewer than eight unconfirmed. */
  predicate Answered(r: Receiver, seqNo: nat, v: Verdict, now: Receiver, out: seq<Reply>) {
    && (EndsInNack(out) <==> TurnedAway(r, seqNo, v))
    && (TurnedAway(r, seqNo, v) ==> out == (if r.pending > 0 then [Ack(r.expected), Nack] else [Nack]) && now == r.(pending := 0))
    && (!TurnedAway(r, seqNo, v) && seqNo != r.expected ==> out == [Ack(r.expected)] && now == r.(pending := 0))
    && (out == [] <==> Executes(r, seqNo, v) && 1 <= now.pending < COALESCE)
    && (Executes(r, seqNo, v) ==> now.expected == (r.expected + 1) % 256 && (out == [] || (out == [Ack(now.expected)] && now.pending == 0)))
    && (out == [] ==> now.pending == r.pending + 1)
  }

  /** What a packet in flight is answered, in any state the invariant allows. */
  lemma DeliverAnswers(s: Net, v: Verdict)
    requires Inv(s) && |s.wire| > 0
    ensures var t := Perform(s, Deliver(v));
      && |s.echoes| <= |t.echoes|
      && Answered(s.rx, s.wire[0].idx % 256, v, t.rx, RepliesFrom(t, |s.echoes|))
  {
    hide WireOk, EchoOk;
    var r := OnPacket(s.rx, s.wire[0].idx % 256, v);
    assert RepliesFrom(Perform(s, Deliver(v)), |s.echoes|) == r.1;
  }

  /** And a drained input: one ACK of the count if anything was unconfirmed, and nothing if not. */
  lemma TickAnswers(s: Net)
    ensures var t := Perform(s, Tick);
      && |s.echoes| <= |t.echoes| && t.rx == s.rx.(pending := 0)
      && RepliesFrom(t, |s.echoes|) == if s.rx.pending > 0 then [Ack(s.rx.expected)] else []
  {
    assert RepliesFrom(Perform(s, Tick), |s.echoes|) == OnTick(s.rx).1;
  }

  function RepliesFrom(s: Net, n: nat): (out: seq<Reply>)
    requires n <= |s.echoes|
  {
    seq(|s.echoes| - n, i requires 0 <= i < |s.echoes| - n => s.echoes[n + i].reply)
  }

  lemma WireTail(s: Net, executed: seq<nat>)
    requires WireOk(s) && |s.wire| > 0
    requires executed == s.executed || (executed == s.executed + [s.wire[0].idx] && s.wire[0].idx == |s.executed|)
    ensures WireOk(s.(wire := s.wire[1..], executed := executed))
  {
  }

  lemma DeliverKeeps(s: Net, v: Verdict)
    requires Inv(s) && s.window <= 255 && |s.wire| > 0
    ensures Inv(Perform(s, Deliver(v)))
  {
    hide EchoOk, WireOk, OnPacket;
    var f, r := s.wire[0], OnPacket(s.rx, s.wire[0].idx % 256, v);
    var s1 := s.(wire := s.wire[1..]);
    if f.idx % 256 == s.rx.expected { DeliverIsNext(s); }
    var executed := if Executes(s.rx, f.idx % 256, v) then s.executed + [f.idx] else s.executed;
    OnPacketFacts(s.rx, f.idx, v, |s.executed|);
    WireTail(s, executed);
    WireHead(s);
    EchoFrame(s, s1);
    AnswerKeeps(s1, r, executed);
  }

  lemma WireHead(s: Net)
    requires WireOk(s) && |s.wire| > 0
    ensures s.wire[0].idx < s.wire[0].sent <= s.sent
  {
  }

  lemma EchoFrame(s: Net, s1: Net)
    requires EchoOk(s) && s1.echoes == s.echoes && s1.base <= s.base && s1.executed == s.executed
    ensures EchoOk(s1)
  {
  }

  /** The 8-bit, clamped advance is exact: to the count the ACK left with, if that many are in flight. */
  lemma HearKeeps(s: Net)
    requires Inv(s) && s.window <= 255 && |s.echoes| > 0
    ensures Inv(Perform(s, Hear))
    ensures s.echoes[0].reply.Ack? ==>
      Perform(s, Hear).base == if s.echoes[0].count <= s.next then s.echoes[0].count else s.base
  {
    var e := s.echoes[0];
    if e.reply.Ack? { assert (e.reply.seqNo - s.base) % 256 == e.count - s.base by { DeltaIs(e.count, s.base); } }
  }

  lemma DeltaIs(count: nat, base: nat)
    requires base <= count <= base + 255
    ensures (count % 256 - base) % 256 == count - base
  {
  }

  lemma SendKeeps(s: Net)
    requires Inv(s) && Enabled(s, Send)
    ensures Inv(Perform(s, Send))
  {
  }

  lemma TickKeeps(s: Net)
    requires Inv(s)
    ensures Inv(Perform(s, Tick)) && Perform(s, Tick).rx.pending == 0
    ensures Perform(s, Tick).confirmed == |s.executed|
  {
    hide WireOk, EchoOk;
    var r := OnTick(s.rx);
    assert WireOk(s.(executed := s.executed)) by { assert s.(executed := s.executed) == s; }
    assert s.rx.pending > 0 ==> r.1[0].Ack?;
    AnswerKeeps(s, r, s.executed);
  }

  lemma LossKeeps(s: Net, a: Action)
    requires Inv(s) && Enabled(s, a) && (a.Drop? || a.Lose? || a.Pull? || a.GoBack?)
    ensures Inv(Perform(s, a))
  {
  }

  lemma PerformKeeps(s: Net, a: Action)
    requires Inv(s) && s.window <= 255 && Enabled(s, a)
    ensures Inv(Perform(s, a)) && Perform(s, a).window == s.window
  {
    hide Inv;
    match a
    case Deliver(v) => DeliverKeeps(s, v);
    case Hear => HearKeeps(s);
    case Send => SendKeeps(s);
    case Tick => TickKeeps(s);
    case _ => LossKeeps(s, a);
  }

  // ─── Runs ──────────────────────────────────────────────────────────────────

  predicate ValidRun(s: Net, run: seq<Action>)
    decreases |run|
  {
    run == [] || (Enabled(s, run[0]) && ValidRun(Perform(s, run[0]), run[1..]))
  }

  function Final(s: Net, run: seq<Action>): Net
    requires ValidRun(s, run)
    decreases |run|
  {
    if run == [] then s else Final(Perform(s, run[0]), run[1..])
  }

  lemma {:induction false} RunKeeps(s: Net, run: seq<Action>)
    requires Inv(s) && s.window <= 255 && ValidRun(s, run)
    ensures Inv(Final(s, run)) && Final(s, run).window == s.window
    decreases |run|
  {
    hide Inv, Perform, Enabled;
    if run != [] {
      PerformKeeps(s, run[0]);
      RunKeeps(Perform(s, run[0]), run[1..]);
    }
  }

  lemma StartsWell(window: nat)
    ensures Inv(Start(window))
  {
  }

  /** Whatever is lost, corrupted, refused or resent, with at most 255 packets outstanding the executed packets are
      0, 1, 2, ... each once and in order; every ACK byte is the count executed when it left, mod 256; every NACK left
      with all of them confirmed; and what the host has been told is never more than what was executed. */
  lemma ExactlyOnce(window: nat, run: seq<Action>)
    requires window <= 255 && ValidRun(Start(window), run)
    ensures var s := Final(Start(window), run);
      && (forall i :: 0 <= i < |s.executed| ==> s.executed[i] == i)
      && (forall e :: e in s.echoes && e.reply.Ack? ==> e.reply.seqNo == e.count % 256)
      && (forall e :: e in s.echoes ==> e.confirmed == e.count)
      && s.base <= |s.executed| <= s.emitted && s.confirmed + s.rx.pending == |s.executed| && s.rx.pending < COALESCE
  {
    StartsWell(window);
    RunKeeps(Start(window), run);
  }

  /** Nothing stays unconfirmed once the input has drained. */
  lemma TickConfirms(window: nat, run: seq<Action>)
    requires window <= 255 && ValidRun(Start(window), run)
    ensures var s := Perform(Final(Start(window), run), Tick);
      s.rx.pending == 0 && s.confirmed == |s.executed|
  {
    hide Inv;
    StartsWell(window);
    RunKeeps(Start(window), run);
    TickKeeps(Final(Start(window), run));
  }

  lemma {:induction false} RunJoins(s: Net, a: seq<Action>, b: seq<Action>)
    requires ValidRun(s, a) && ValidRun(Final(s, a), b)
    ensures ValidRun(s, a + b) && Final(s, a + b) == Final(Final(s, a), b)
    decreases |a|
  {
    hide Perform, Enabled;
    if a == [] {
      assert a + b == b;
    } else {
      assert (a + b)[0] == a[0] && (a + b)[1..] == a[1..] + b;
      RunJoins(Perform(s, a[0]), a[1..], b);
    }
  }

  // ─── No state is stuck ─────────────────────────────────────────────────────

  lemma OneAction(s: Net, a: Action)
    requires Enabled(s, a)
    ensures ValidRun(s, [a]) && Final(s, [a]) == Perform(s, a)
  {
  }

  /** Everything in flight may be lost. */
  lemma {:induction false} Quieten(s: Net) returns (run: seq<Action>)
    ensures ValidRun(s, run) && Final(s, run) == s.(wire := [], echoes := [])
    decreases |s.wire| + |s.echoes|
  {
    if s.wire == [] && s.echoes == [] {
      run := [];
    } else {
      var a := if s.wire != [] then Drop(0) else Lose(0);
      run := Quieten(Perform(s, a));
      OneAction(s, a);
      RunJoins(s, [a], run);
      run := [a] + run;
    }
  }

  /** The host resends from its base, up to n packets; all but the last are lost. */
  lemma {:induction false} Resend(s: Net, n: nat) returns (run: seq<Action>)
    requires 1 <= n <= s.sent - s.base && s.sent <= s.emitted && s.sent <= s.base + s.window && s.wire == [] && s.next == s.base
    ensures ValidRun(s, run)
    ensures Final(s, run) == s.(next := s.base + n, wire := [Flight(s.base + n - 1, s.sent)])
    decreases n
  {
    if n == 1 {
      run := [Send];
      OneAction(s, Send);
    } else {
      var r := Resend(s, n - 1);
      var s1 := Final(s, r);
      OneAction(s1, Drop(0));
      var s2 := Perform(s1, Drop(0));
      OneAction(s2, Send);
      RunJoins(s1, [Drop(0)], [Send]);
      RunJoins(s, r, [Drop(0)] + [Send]);
      run := r + ([Drop(0)] + [Send]);
    }
  }

  /** The host learns everything executed so far. */
  lemma Resync(s: Net) returns (run: seq<Action>)
    requires Inv(s) && s.window <= 255 && s.wire == [] && s.echoes == []
    ensures ValidRun(s, run)
    ensures var t := Final(s, run);
      Inv(t) && t.window == s.window && t.executed == s.executed && t.base == t.next == |t.executed| && t.wire == []
  {
    var n := |s.executed| - s.base;
    OneAction(s, GoBack);
    var s0 := Perform(s, GoBack);
    PerformKeeps(s, GoBack);
    if n == 0 {
      run := [GoBack];
    } else {
      var r := Resend(s0, n);
      var s1 := Final(s0, r);
      RunKeeps(s0, r);
      OneAction(s1, Deliver(Taken));
      var s2 := Perform(s1, Deliver(Taken));
      StaleIsAcked(s1);
      OneAction(s2, Hear);
      RunJoins(s1, [Deliver(Taken)], [Hear]);
      RunJoins(s0, r, [Deliver(Taken)] + [Hear]);
      RunJoins(s, [GoBack], r + ([Deliver(Taken)] + [Hear]));
      run := [GoBack] + (r + ([Deliver(Taken)] + [Hear]));
      RunKeeps(s, run);
    }
  }

  /** A packet already executed only brings an ACK of everything. */
  lemma StaleIsAcked(s: Net)
    requires Inv(s) && s.window <= 255 && s.echoes == [] && |s.wire| == 1 && s.wire[0].idx < |s.executed| == s.next
    ensures var t := Perform(s, Deliver(Taken));
      && t.executed == s.executed && t.wire == [] && |t.echoes| == 1
      && Perform(t, Hear).base == Perform(t, Hear).next == |s.executed| && Perform(t, Hear).executed == s.executed
      && Perform(t, Hear).wire == []
  {
    var f := s.wire[0];
    if f.idx % 256 == s.rx.expected { SameIndex(f.idx, |s.executed|); }
    DeltaIs(|s.executed|, s.base);
  }

  /** From every reachable state some schedule executes the next packet: the protocol never deadlocks. */
  lemma NeverStuck(window: nat, before: seq<Action>) returns (run: seq<Action>)
    requires 1 <= window <= 255 && ValidRun(Start(window), before)
    ensures var s := Final(Start(window), before);
      ValidRun(s, run) && |Final(s, run).executed| == |s.executed| + 1
  {
    hide Inv, Perform, Enabled;
    StartsWell(window);
    RunKeeps(Start(window), before);
    var s := Final(Start(window), before);
    var r1 := Quieten(s);
    RunKeeps(s, r1);
    var s1 := Final(s, r1);
    var r2 := Resync(s1);
    var s2 := Final(s1, r2);
    var r3 := ExecuteNext(s2);
    RunJoins(s1, r2, r3);
    RunJoins(s, r1, r2 + r3);
    run := r1 + (r2 + r3);
  }

  lemma ExecuteNext(s: Net) returns (run: seq<Action>)
    requires Inv(s) && 1 <= s.window <= 255 && s.base == s.next == |s.executed| && s.wire == []
    ensures ValidRun(s, run) && |Final(s, run).executed| == |s.executed| + 1
  {
    var s1 := Perform(s, Pull(1));
    var s2 := Perform(s1, Send);
    OneAction(s, Pull(1));
    OneAction(s1, Send);
    OneAction(s2, Deliver(Taken));
    RunJoins(s1, [Send], [Deliver(Taken)]);
    RunJoins(s, [Pull(1)], [Send] + [Deliver(Taken)]);
    run := [Pull(1)] + ([Send] + [Deliver(Taken)]);
  }

  // ─── One more would be too many ────────────────────────────────────────────

  /** n packets sent and taken, no reply heard. */
  lemma {:induction false} Stream(window: nat, n: nat) returns (run: seq<Action>)
    requires n <= 256 <= window
    ensures ValidRun(Start(window), run)
    ensures var s := Final(Start(window), run);
      && s.window == window && s.base == 0 && s.next == n && s.emitted == 256 && s.wire == []
      && s.rx.expected == n % 256 && |s.executed| == n && (n > 0 ==> s.executed[0] == 0)
    decreases n
  {
    if n == 0 {
      run := [Pull(256)];
      OneAction(Start(window), Pull(256));
    } else {
      var r := Stream(window, n - 1);
      var s := Final(Start(window), r);
      OneAction(s, Send);
      var s1 := Perform(s, Send);
      OneAction(s1, Deliver(Taken));
      RunJoins(s, [Send], [Deliver(Taken)]);
      RunJoins(Start(window), r, [Send] + [Deliver(Taken)]);
      run := r + ([Send] + [Deliver(Taken)]);
    }
  }

  /** With 256 outstanding and every ACK lost, the go-back executes packet 0 a second time. */
  lemma Repeats(window: nat) returns (run: seq<Action>)
    requires window >= 256
    ensures ValidRun(Start(window), run)
    ensures var e := Final(Start(window), run).executed;
      |e| == 257 && e[0] == 0 == e[256]
  {
    var r1 := Stream(window, 256);
    var s1 := Final(Start(window), r1);
    OneAction(s1, GoBack);
    var s2 := Perform(s1, GoBack);
    OneAction(s2, Send);
    var s3 := Perform(s2, Send);
    OneAction(s3, Deliver(Taken));
    RunJoins(s2, [Send], [Deliver(Taken)]);
    RunJoins(s1, [GoBack], [Send] + [Deliver(Taken)]);
    RunJoins(Start(window), r1, [GoBack] + ([Send] + [Deliver(Taken)]));
    run := r1 + ([GoBack] + ([Send] + [Deliver(Taken)]));
  }

  /** Every run executes its packets in order, each once, if and only if the host's window is at most 255. */
  lemma WindowExact(window: nat)
    ensures (forall run :: ValidRun(Start(window), run) ==> InOrder(Final(Start(window), run).executed)) <==> window <= 255
  {
    hide ValidRun, Final;
    if window <= 255 {
      forall run | ValidRun(Start(window), run)
        ensures InOrder(Final(Start(window), run).executed)
      {
        ExactlyOnce(window, run);
      }
    } else {
      var run := Repeats(window);
      assert !InOrder(Final(Start(window), run).executed);
    }
  }
}
