/** The lock-free ring between the cores, one memory access at a time (src/rp2350/ipc/core1_facts.cpp). */
module FactRing {

  const SLOTS: nat := 8

  // ─── Push and pop, whole ───────────────────────────────────────────────────

  class Ring {
    const ring: array<nat>
    var head: nat
    var tail: nat
    var lost: bool
    ghost var pushed: seq<nat>   // every fact accepted
    ghost var popped: nat        // how many of them have been handed out

    ghost predicate Valid()
      reads this, ring
    {
      && ring.Length == SLOTS && popped <= |pushed| <= popped + SLOTS
      && head == |pushed| % 256 && tail == popped % 256
      && forall i :: popped <= i < |pushed| ==> ring[i % SLOTS] == pushed[i]
    }

    ghost function Queue(): seq<nat>
      reads this
      requires popped <= |pushed|
    {
      pushed[popped..]
    }

    constructor ()
      ensures Valid() && Queue() == [] && !lost && fresh(ring)
    {
      ring := new nat[SLOTS];
      head, tail, lost := 0, 0, false;
      pushed, popped := [], 0;
    }

    method Push(f: nat) returns (ok: bool)
      requires Valid()
      modifies this`head, this`lost, this`pushed, ring
      ensures Valid() && ok == (|old(Queue())| < SLOTS)
      ensures Queue() == if ok then old(Queue()) + [f] else old(Queue())
      ensures lost == (old(lost) || !ok)
    {
      Gap(|pushed|, popped);
      var h := head;
      if (h - tail) % 256 == SLOTS {
        lost := true;
        return false;
      }
      SlotIs(|pushed|);
      forall i | popped <= i < |pushed|
        ensures i % SLOTS != |pushed| % SLOTS
      {
        Apart(i, |pushed|);
      }
      ring[h % SLOTS] := f;
      pushed := pushed + [f];
      head := (h + 1) % 256;
      return true;
    }

    /** 0 when empty; a fact is never 0. */
    method Pop() returns (f: nat)
      requires Valid()
      modifies this`tail, this`popped
      ensures Valid()
      ensures old(Queue()) == [] ==> f == 0 && Queue() == []
      ensures old(Queue()) != [] ==> f == old(Queue())[0] && Queue() == old(Queue())[1..]
    {
      Gap(|pushed|, popped);
      var t := tail;
      if t == head { return 0; }
      SlotIs(popped);
      f := ring[t % SLOTS];
      tail := (t + 1) % 256;
      popped := popped + 1;
    }
  }

  /** The byte-wide difference of two counts at most 8 apart is their difference. */
  lemma Gap(h: nat, t: nat)
    requires t <= h <= t + SLOTS
    ensures (h % 256 - t % 256) % 256 == h - t
    ensures h % 256 == t % 256 <==> h == t
  {
  }

  /** 8 divides 256: the wrapped index names the same slot. */
  lemma SlotIs(n: nat)
    ensures (n % 256) % SLOTS == n % SLOTS
    ensures (n % 256 + 1) % 256 == (n + 1) % 256
  {
  }

  lemma Apart(i: nat, j: nat)
    requires i < j < i + SLOTS
    ensures i % SLOTS != j % SLOTS
  {
  }

  // ─── The two cores, interleaved ────────────────────────────────────────────

  /** Where Core 1 is inside a push: its head read, the tail checked, the slot written. */
  datatype Producer = Away | GotHead(h: nat, f: nat) | Refusing | Storing(h: nat, f: nat) | Publishing(h: nat, f: nat)

  /** Where Core 0 is inside a pop. */
  datatype Consumer = Elsewhere | GotTail(t: nat) | Reading(t: nat) | Freeing(t: nat, f: nat)

  datatype Cores = Cores(ring: seq<nat>, head: nat, tail: nat, lost: bool, p: Producer, c: Consumer,
                         pushed: seq<nat>, popped: seq<nat>, refused: nat)

  /** One access by one core. */
  datatype Access =
    | ReadOwnHead(f: nat) | CheckTail | RaiseLost | WriteSlot | WriteHead
    | ReadOwnTail | CheckHead | ReadSlot | WriteTail
    | ClearLost

  predicate Enabled(s: Cores, a: Access) {
    match a
    case ReadOwnHead(_) => s.p.Away?
    case CheckTail => s.p.GotHead?
    case RaiseLost => s.p.Refusing?
    case WriteSlot => s.p.Storing? && |s.ring| == SLOTS
    case WriteHead => s.p.Publishing?
    case ReadOwnTail => s.c.Elsewhere?
    case CheckHead => s.c.GotTail?
    case ReadSlot => s.c.Reading? && |s.ring| == SLOTS
    case WriteTail => s.c.Freeing?
    case ClearLost => s.c.Elsewhere?
  }

  function Perform(s: Cores, a: Access): Cores
    requires Enabled(s, a)
  {
    match a
    case ReadOwnHead(f) => s.(p := GotHead(s.head, f))
    case CheckTail => s.(p := if (s.p.h - s.tail) % 256 == SLOTS then Refusing else Storing(s.p.h, s.p.f))
    case RaiseLost => s.(lost := true, refused := s.refused + 1, p := Away)
    case WriteSlot => s.(ring := s.ring[s.p.h % SLOTS := s.p.f], p := Publishing(s.p.h, s.p.f))
    case WriteHead => s.(head := (s.p.h + 1) % 256, pushed := s.pushed + [s.p.f], p := Away)
    case ReadOwnTail => s.(c := GotTail(s.tail))
    case CheckHead => s.(c := if s.c.t == s.head then Elsewhere else Reading(s.c.t))
    case ReadSlot => s.(c := Freeing(s.c.t, s.ring[s.c.t % SLOTS]))
    case WriteTail => s.(tail := (s.c.t + 1) % 256, popped := s.popped + [s.c.f], c := Elsewhere)
    case ClearLost => s.(lost := false, refused := 0)
  }

  ghost predicate ProducerOk(s: Cores) {
    && (s.p.GotHead? || s.p.Storing? || s.p.Publishing? ==> s.p.h == s.head)
    && (s.p.Storing? || s.p.Publishing? ==> |s.pushed| < |s.popped| + SLOTS)
    && (s.p.Publishing? ==> |s.ring| == SLOTS && s.ring[|s.pushed| % SLOTS] == s.p.f)
  }

  ghost predicate ConsumerOk(s: Cores) {
    && (!s.c.Elsewhere? ==> s.c.t == s.tail)
    && (s.c.Reading? || s.c.Freeing? ==> |s.popped| < |s.pushed|)
    && (s.c.Freeing? ==> |s.popped| < |s.pushed| && s.c.f == s.pushed[|s.popped|])
  }

  ghost predicate Inv(s: Cores) {
    && |s.ring| == SLOTS && |s.popped| <= |s.pushed| <= |s.popped| + SLOTS
    && s.head == |s.pushed| % 256 && s.tail == |s.popped| % 256
    && (forall i :: |s.popped| <= i < |s.pushed| ==> s.ring[i % SLOTS] == s.pushed[i])
    && s.popped <= s.pushed
    && s.lost == (s.refused > 0)
    && ProducerOk(s) && ConsumerOk(s)
  }

  /** The slot a store writes is neither queued nor being read. */
  lemma StoresFree(s: Cores)
    requires Inv(s) && s.p.Storing?
    ensures s.p.h % SLOTS == |s.pushed| % SLOTS
    ensures forall i :: |s.popped| <= i < |s.pushed| ==> i % SLOTS != s.p.h % SLOTS
    ensures s.c.Reading? ==> s.c.t % SLOTS != s.p.h % SLOTS
  {
    SlotIs(|s.pushed|);
    SlotIs(|s.popped|);
    forall i | |s.popped| <= i < |s.pushed|
      ensures i % SLOTS != |s.pushed| % SLOTS
    {
      Apart(i, |s.pushed|);
    }
  }

  /** The slot a pop reads has been published, and holds the oldest fact not yet popped. */
  lemma ReadsPublished(s: Cores)
    requires Inv(s) && s.c.Reading?
    ensures |s.popped| < |s.pushed| && s.ring[s.c.t % SLOTS] == s.pushed[|s.popped|]
  {
    SlotIs(|s.popped|);
  }

  lemma StoreKeeps(s: Cores)
    requires Inv(s) && Enabled(s, WriteSlot)
    ensures Inv(Perform(s, WriteSlot))
  {
    StoresFree(s);
  }

  /** A push is refused only on a full ring, and a pop is empty-handed only on an empty one. */
  lemma ChecksExact(s: Cores)
    requires Inv(s)
    ensures Enabled(s, CheckTail) ==> (Perform(s, CheckTail).p.Refusing? <==> |s.pushed| - |s.popped| == SLOTS)
    ensures Enabled(s, CheckHead) ==> (Perform(s, CheckHead).c.Elsewhere? <==> |s.pushed| == |s.popped|)
  {
    Gap(|s.pushed|, |s.popped|);
  }

  lemma PerformKeeps(s: Cores, a: Access)
    requires Inv(s) && Enabled(s, a)
    ensures Inv(Perform(s, a))
  {
    SlotIs(|s.pushed|);
    SlotIs(|s.popped|);
    ChecksExact(s);
    if a.WriteSlot? { StoreKeeps(s); }
    if a.ReadSlot? { ReadsPublished(s); }
  }

  predicate ValidRun(s: Cores, run: seq<Access>)
    decreases |run|
  {
    run == [] || (Enabled(s, run[0]) && ValidRun(Perform(s, run[0]), run[1..]))
  }

  function Final(s: Cores, run: seq<Access>): Cores
    requires ValidRun(s, run)
    decreases |run|
  {
    if run == [] then s else Final(Perform(s, run[0]), run[1..])
  }

  lemma {:induction false} RunKeeps(s: Cores, run: seq<Access>)
    requires Inv(s) && ValidRun(s, run)
    ensures Inv(Final(s, run))
    decreases |run|
  {
    hide Inv, Perform, Enabled;
    if run != [] {
      PerformKeeps(s, run[0]);
      RunKeeps(Perform(s, run[0]), run[1..]);
    }
  }

  predicate Fresh(s: Cores) {
    |s.ring| == SLOTS && s.head == 0 == s.tail && !s.lost && s.p.Away? && s.c.Elsewhere? && s.pushed == [] == s.popped
    && s.refused == 0
  }

  /** Under every interleaving of single accesses: what is popped is a prefix of what was pushed, the byte indices always
      differ by the number queued, at most 8, and `lost` is up exactly when a push was refused since it was cleared. */
  lemma FirstInFirstOut(s: Cores, run: seq<Access>)
    requires Fresh(s) && ValidRun(s, run)
    ensures var t := Final(s, run);
      && t.popped <= t.pushed
      && 0 <= (t.head - t.tail) % 256 == |t.pushed| - |t.popped| <= SLOTS
      && t.lost == (t.refused > 0)
      && (t.c.Reading? ==>
            && |t.ring| == SLOTS && |t.popped| < |t.pushed|
            && t.ring[t.c.t % SLOTS] == t.pushed[|t.popped|])
      && (t.c.Reading? && t.p.Storing? ==> t.c.t % SLOTS != t.p.h % SLOTS)
  {
    RunKeeps(s, run);
    var t := Final(s, run);
    Gap(|t.pushed|, |t.popped|);
    if t.c.Reading? { ReadsPublished(t); }
    if t.p.Storing? { StoresFree(t); }
  }
}
