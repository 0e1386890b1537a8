/** A new stream behind a sequence reset (src/rp2350/core0/data_plane.cpp, web/src/wire/link/session.ts and link.ts).
    The reset byte follows the old stream's packets down the same link, so they are past before it; their replies may not
    be. */
module SeqReset {
  import opened GoBackN

  /** An acknowledgement of the old stream that the new one would take for its own. */
  predicate Misleads(r: Reply, window: nat) { r.Ack? && 1 <= r.seqNo <= window }

  function Stale(r: Reply): Echo { Echo(r, 0, 0) }

  /** The new stream as it starts, with replies still to be heard from before. */
  function Behind(window: nat, replies: seq<Reply>): Net {
    Start(window).(echoes := seq(|replies|, i requires 0 <= i < |replies| => Stale(replies[i])))
  }

  /** Without the first m replies. */
  function Rest(s: Net, m: nat): Net
    requires m <= |s.echoes|
  {
    s.(echoes := s.echoes[m..])
  }

  /** While stale replies lead, the host has not moved; behind them all is as it should be. */
  ghost predicate Kept(s: Net, m: nat) {
    && m <= |s.echoes| && Inv(Rest(s, m)) && (m > 0 ==> s.base == 0)
    && forall i :: 0 <= i < m ==> !Misleads(s.echoes[i].reply, s.window) && (s.echoes[i].reply.Ack? ==> s.echoes[i].reply.seqNo < 256)
  }

  /** Anything but hearing and losing replies goes on behind the stale ones. */
  lemma GoesBehind(s: Net, m: nat, a: Action)
    requires m <= |s.echoes| && Enabled(s, a) && !a.Hear? && !a.Lose?
    ensures Enabled(Rest(s, m), a)
    ensures var t := Perform(s, a); m <= |t.echoes| && t.echoes[..m] == s.echoes[..m] && Rest(t, m) == Perform(Rest(s, m), a)
    ensures Perform(s, a).base == s.base && Perform(s, a).window == s.window
  {
    hide OnPacket, OnTick, Echoes, Acks;
  }

  /** A stale reply that does not mislead changes nothing. */
  lemma HearsStale(s: Net, m: nat)
    requires Kept(s, m) && m > 0 && s.window <= 255
    ensures Kept(Perform(s, Hear), m - 1) && Perform(s, Hear).window == s.window
  {
    var t := Perform(s, Hear);
    InFlight(Rest(s, m));
    assert t == s.(echoes := s.echoes[1..]);
    assert t.echoes[m - 1..] == s.echoes[m..];
    assert Rest(t, m - 1) == Rest(s, m);
  }

  lemma InFlight(s: Net)
    requires Inv(s)
    ensures s.next - s.base <= s.window && s.base <= s.next && InOrder(s.executed) && s.base <= |s.executed|
  {
    hide WireOk, EchoOk;
  }

  lemma LosesStale(s: Net, m: nat, i: nat)
    requires Kept(s, m) && i < m
    ensures Kept(Perform(s, Lose(i)), m - 1)
  {
    hide Inv;
    var t := Perform(s, Lose(i));
    assert t.echoes[m - 1..] == s.echoes[m..];
    assert Rest(t, m - 1) == Rest(s, m);
  }

  lemma LosesBehind(s: Net, m: nat, i: nat)
    requires Kept(s, m) && s.window <= 255 && m <= i < |s.echoes|
    ensures Kept(Perform(s, Lose(i)), m)
  {
    hide Inv;
    var t := Perform(s, Lose(i));
    PerformKeeps(Rest(s, m), Lose(i - m));
    assert t.echoes[m..] == RemoveAt(s.echoes[m..], i - m);
    assert Rest(t, m) == Perform(Rest(s, m), Lose(i - m));
  }

  lemma HearsOwn(s: Net)
    requires Kept(s, 0) && s.window <= 255 && s.echoes != []
    ensures Kept(Perform(s, Hear), 0) && Perform(s, Hear).window == s.window
  {
    hide Inv;
    assert Rest(s, 0) == s && Rest(Perform(s, Hear), 0) == Perform(s, Hear);
    PerformKeeps(s, Hear);
  }

  lemma KeptBehind(s: Net, m: nat, a: Action)
    requires Kept(s, m) && s.window <= 255 && Enabled(s, a) && !a.Hear? && !a.Lose?
    ensures Kept(Perform(s, a), m) && Perform(s, a).window == s.window
  {
    hide Inv, Perform, Enabled;
    GoesBehind(s, m, a);
    PerformKeeps(Rest(s, m), a);
    forall i | 0 <= i < m
      ensures Perform(s, a).echoes[i] == s.echoes[i]
    {
      assert Perform(s, a).echoes[..m][i] == s.echoes[..m][i];
    }
  }

  lemma KeptStep(s: Net, m: nat, a: Action) returns (n: nat)
    requires Kept(s, m) && s.window <= 255 && Enabled(s, a)
    ensures Kept(Perform(s, a), n) && Perform(s, a).window == s.window
  {
    hide Inv, Rest, Kept;
    n := if m > 0 && (a.Hear? || (a.Lose? && a.i < m)) then m - 1 else m;
    match a
    case Hear => if m > 0 { HearsStale(s, m); } else { HearsOwn(s); }
    case Lose(i) => if i < m { LosesStale(s, m, i); } else { LosesBehind(s, m, i); }
    case _ => KeptBehind(s, m, a);
  }

  lemma {:induction false} KeptRun(s: Net, m: nat, run: seq<Action>)
    requires Kept(s, m) && s.window <= 255 && ValidRun(s, run)
    ensures InOrder(Final(s, run).executed) && Final(s, run).base <= |Final(s, run).executed|
    decreases |run|
  {
    hide Inv, Perform, Enabled, Kept;
    if run == [] {
      KeptSafe(s, m);
    } else {
      var n := KeptStep(s, m, run[0]);
      KeptRun(Perform(s, run[0]), n, run[1..]);
    }
  }

  lemma KeptSafe(s: Net, m: nat)
    requires Kept(s, m)
    ensures InOrder(s.executed) && s.base <= |s.executed|
  {
    hide Inv;
    InFlight(Rest(s, m));
  }

  // ─── A misleading reply does mislead ───────────────────────────────────────

  lemma {:induction false} LoseFirst(s: Net, n: nat) returns (run: seq<Action>)
    requires n <= |s.echoes|
    ensures ValidRun(s, run) && Final(s, run) == s.(echoes := s.echoes[n..])
    decreases n
  {
    if n == 0 {
      run := [];
      assert s.echoes[0..] == s.echoes;
    } else {
      var t := Perform(s, Lose(0));
      OneAction(s, Lose(0));
      assert t.echoes[n - 1..] == s.echoes[n..];
      var r := LoseFirst(t, n - 1);
      RunJoins(s, [Lose(0)], r);
      run := [Lose(0)] + r;
    }
  }

  /** n packets sent and lost. */
  lemma {:induction false} SendInVain(s: Net, n: nat) returns (run: seq<Action>)
    requires s.wire == [] && s.next == s.base == 0 && n <= s.emitted && n <= s.window
    ensures ValidRun(s, run)
    ensures var t := Final(s, run);
      && t.next == n && t.base == 0 && t.wire == [] && t.echoes == s.echoes && t.executed == s.executed
      && t.emitted == s.emitted && t.window == s.window
    decreases n
  {
    if n == 0 {
      run := [];
    } else {
      var r := SendInVain(s, n - 1);
      var t := Final(s, r);
      OneAction(t, Send);
      OneAction(Perform(t, Send), Drop(0));
      RunJoins(t, [Send], [Drop(0)]);
      RunJoins(s, r, [Send] + [Drop(0)]);
      run := r + ([Send] + [Drop(0)]);
    }
  }

  /** The host hears it with as many packets out, and releases them all unexecuted. */
  lemma Misled(window: nat, replies: seq<Reply>, k: nat) returns (run: seq<Action>)
    requires window <= 255 && k < |replies| && Misleads(replies[k], window)
    ensures ValidRun(Behind(window, replies), run)
    ensures var s := Final(Behind(window, replies), run); s.executed == [] && s.base > 0
  {
    var s0, n := Behind(window, replies), replies[k].seqNo;
    var r1 := LoseFirst(s0, k);
    var s1 := Final(s0, r1);
    OneAction(s1, Pull(n));
    var s2 := Perform(s1, Pull(n));
    var r2 := SendInVain(s2, n);
    var s3 := Final(s2, r2);
    OneAction(s3, Hear);
    RunJoins(s2, r2, [Hear]);
    RunJoins(s1, [Pull(n)], r2 + [Hear]);
    RunJoins(s0, r1, [Pull(n)] + (r2 + [Hear]));
    run := r1 + ([Pull(n)] + (r2 + [Hear]));
  }

  lemma StartsKept(window: nat, replies: seq<Reply>)
    requires forall i :: 0 <= i < |replies| ==> !Misleads(replies[i], window) && (replies[i].Ack? ==> replies[i].seqNo < 256)
    ensures Kept(Behind(window, replies), |replies|)
  {
    var s := Behind(window, replies);
    assert s.echoes[|replies|..] == [];
    assert Rest(s, |replies|) == Start(window);
    StartsWell(window);
  }

  /** In order, each once, and the host told of no more than was executed. */
  ghost predicate Faithful(window: nat, replies: seq<Reply>) {
    forall run :: ValidRun(Behind(window, replies), run) ==>
                    var s := Final(Behind(window, replies), run); InOrder(s.executed) && s.base <= |s.executed|
  }

  /** The new stream is faithful in every run if and only if no reply left over from the old one misleads. */
  lemma FaithfulExactly(window: nat, replies: seq<Reply>)
    requires window <= 255 && forall i :: 0 <= i < |replies| && replies[i].Ack? ==> replies[i].seqNo < 256
    ensures Faithful(window, replies) <==> forall i :: 0 <= i < |replies| ==> !Misleads(replies[i], window)
  {
    hide ValidRun, Final, Behind, Misleads;
    if k :| 0 <= k < |replies| && Misleads(replies[k], window) {
      var run := Misled(window, replies, k);
    } else {
      forall run | ValidRun(Behind(window, replies), run)
        ensures InOrder(Final(Behind(window, replies), run).executed)
        ensures Final(Behind(window, replies), run).base <= |Final(Behind(window, replies), run).executed|
      {
        StartsKept(window, replies);
        BehindWindow(window, replies);
        KeptRun(Behind(window, replies), |replies|, run);
      }
    }
  }

  lemma BehindWindow(window: nat, replies: seq<Reply>)
    ensures Behind(window, replies).window == window
  {
  }

  // ─── The go-ahead ──────────────────────────────────────────────────────────

  /** The host goes ahead on reply j of those to come, the reset's own last: a job's restart only on an ACK of 0, a new
      stream on any. */
  predicate GoesAhead(left: seq<Reply>, j: nat, restart: bool) {
    j <= |left| && (restart ==> (left + [Ack(0)])[j] == Ack(0))
  }

  lemma Tail(window: nat, left: seq<Reply>, j: nat)
    requires window <= 255 && (forall i :: 0 <= i < |left| && left[i].Ack? ==> left[i].seqNo < 256) && j <= |left|
    ensures Faithful(window, (left + [Ack(0)])[j + 1..]) <==> forall k: nat :: j < k < |left| ==> !Misleads(left[k], window)
  {
    hide Faithful;
    var r := (left + [Ack(0)])[j + 1..];
    forall i | 0 <= i < |r|
      ensures j + 1 + i < |left| ==> r[i] == left[j + 1 + i]
      ensures j + 1 + i == |left| ==> r[i] == Ack(0)
    {
    }
    FaithfulExactly(window, r);
    if k: nat :| j < k < |left| && Misleads(left[k], window) { assert r[k - j - 1] == left[k]; }
  }

  /** Every way the host may go ahead leaves it a faithful stream if and only if no misleading reply follows one it may
      take for its go-ahead; so with the link drained, always. */
  lemma ResetExactly(window: nat, left: seq<Reply>, restart: bool)
    requires window <= 255 && forall i :: 0 <= i < |left| && left[i].Ack? ==> left[i].seqNo < 256
    ensures (forall j: nat :: GoesAhead(left, j, restart) ==> Faithful(window, (left + [Ack(0)])[j + 1..]))
       <==> (forall j: nat, k: nat :: GoesAhead(left, j, restart) && j < k < |left| ==> !Misleads(left[k], window))
  {
    hide Faithful, Misleads;
    forall j: nat | GoesAhead(left, j, restart)
      ensures Faithful(window, (left + [Ack(0)])[j + 1..]) <==> forall k: nat :: j < k < |left| ==> !Misleads(left[k], window)
    {
      Tail(window, left, j);
    }
  }
}
