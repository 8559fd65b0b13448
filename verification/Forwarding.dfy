/**
 * What a receiver gets, over whole runs of packets written to a down track: told from the packets
 * and their flags alone, in unbounded numbers, without the table.
 */
module Forwarding {
  import opened Seqno
  import opened PacketMap
  import opened PacketMapSpec
  import opened Renumbering
  import opened PacketCache
  import opened NackAnswers

  /** A packet that reaches the track: its true number, and what is found of it. */
  datatype Incoming = Incoming(s: int, data: seq<u8>, flags: Flags)

  function Arrived(p: Incoming): Packet { Packet(U16(p.s), 0, false, p.data) }

  function WriteAll(t: Track, ps: seq<Incoming>): (t': Track)
    requires WellFormed(t.table)
    ensures WellFormed(t'.table)
  {
    if ps == [] then t else
    var before := WriteAll(t, ps[..|ps| - 1]);
    WriteWellFormed(before, Arrived(ps[|ps| - 1]), ps[|ps| - 1].flags);
    WritePacket(before, Arrived(ps[|ps| - 1]), ps[|ps| - 1].flags).0
  }

  lemma WriteWellFormed(t: Track, p: Packet, f: Flags)
    requires WellFormed(t.table)
    ensures WellFormed(WritePacket(t, p, f).0.table)
  {
    hide WellFormed;
  }

  // Told from the packets

  predicate Read(p: Incoming) { !p.flags.ending.NotParsed? }

  /** The number expected next: one more than the highest so far. */
  function NextAfter(next: int, ps: seq<Incoming>): int {
    if ps == [] then next else
    var n, p := NextAfter(next, ps[..|ps| - 1]), ps[|ps| - 1];
    if Read(p) && p.s >= n then p.s + 1 else n
  }

  /** After the packets before it, p has a number that none of them had or skipped. */
  predicate IsFresh(next: int, before: seq<Incoming>, p: Incoming) { Read(p) && p.s >= NextAfter(next, before) }

  /** An unwanted packet with the very number expected next. */
  predicate IsDropped(next: int, before: seq<Incoming>, p: Incoming) {
    Read(p) && p.flags.unwanted && p.s == NextAfter(next, before)
  }

  /** The numbers of the dropped packets. */
  function DropsOf(next: int, ps: seq<Incoming>): seq<int> {
    if ps == [] then [] else
    var before, p := ps[..|ps| - 1], ps[|ps| - 1];
    DropsOf(next, before) + if IsDropped(next, before, p) then [p.s] else []
  }

  /** The picture id of the newest packet. */
  function LastPid(next: int, pid: u16, ps: seq<Incoming>): u16 {
    if ps == [] then pid else
    var before, p := ps[..|ps| - 1], ps[|ps| - 1];
    if IsFresh(next, before, p) then p.flags.pid else LastPid(next, pid, before)
  }

  /** How far each dropped packet moved the picture id on from the packet before it. */
  function StepsOf(next: int, pid: u16, ps: seq<Incoming>): seq<int> {
    if ps == [] then [] else
    var before, p := ps[..|ps| - 1], ps[|ps| - 1];
    StepsOf(next, pid, before) + if IsDropped(next, before, p) then [p.flags.pid - LastPid(next, pid, before)] else []
  }

  function Sum(xs: seq<int>): int {
    if xs == [] then 0 else Sum(xs[..|xs| - 1]) + xs[|xs| - 1]
  }

  /** Where a run starts: the truth of the table, how far each of its drops moved the picture id on, and the newest picture id. */
  datatype Begin = Begin(g: Truth, steps: seq<int>, pid: u16)

  function AllDrops(b: Begin, ps: seq<Incoming>): seq<int> { b.g.drops + DropsOf(b.g.next, ps) }

  function AllSteps(b: Begin, ps: seq<Incoming>): seq<int> { b.steps + StepsOf(b.g.next, b.pid, ps) }

  /** The truth after the packets. */
  function TruthAfter(b: Begin, ps: seq<Incoming>): Truth {
    if ps == [] then b.g else
    var before, p := ps[..|ps| - 1], ps[|ps| - 1];
    var g := TruthAfter(b, before);
    if !Read(p) then g
    else if IsDropped(b.g.next, before, p) then TrueDrop(g, U16(g.pidDelta + (p.flags.pid - LastPid(b.g.next, b.pid, before))))
    else TrueMap(g, p.s).0
  }

  /** No packet is more than 8192 away from the number expected next, and the window holds all the way. */
  ghost predicate Steady(b: Begin, ps: seq<Incoming>) {
    forall k :: 0 <= k < |ps| ==> SteadyAt(b, ps[..k], ps[k])
  }

  predicate SteadyAt(b: Begin, before: seq<Incoming>, p: Incoming) {
    && -MAX_JUMP <= p.s - NextAfter(b.g.next, before) <= MAX_JUMP
    && Window(TruthAfter(b, before + [p]))
  }

  /** Before the first drop every number is known, and afterwards those of the kept intervals. */
  ghost predicate StillKnown(g: Truth, s: int) { g.kept == [] || Covered(g.kept, s) }

  /** What goes out of number s: its image, the picture-id steps of the drops below it, and the data. */
  function Image(ds: seq<int>, steps: seq<int>, p: Incoming): Outgoing
    requires |ds| == |steps|
  {
    Outgoing(U16(Target(ds, p.s)), U16(Sum(steps[..DropsBelow(ds, p.s)])), p.data)
  }

  /**
   * What the receiver gets of a packet: nothing if it was dropped, or is late and no longer known, or
   * cannot be written; else its image.
   */
  ghost function Sends(b: Begin, before: seq<Incoming>, p: Incoming): seq<Outgoing>
    requires |AllDrops(b, before)| == |AllSteps(b, before)|
  {
    var next := b.g.next;
    if !p.flags.ending.Goes? || IsDropped(next, before, p) then []
    else if IsFresh(next, before, p) || StillKnown(TruthAfter(b, before), p.s) then [Image(AllDrops(b, before), AllSteps(b, before), p)]
    else []
  }

  lemma {:induction false} AsManySteps(b: Begin, ps: seq<Incoming>)
    requires |b.g.drops| == |b.steps|
    ensures |AllDrops(b, ps)| == |AllSteps(b, ps)|
  {
    if ps != [] {
      AsManySteps(b, ps[..|ps| - 1]);
    }
  }

  ghost function AllSent(b: Begin, ps: seq<Incoming>): seq<Outgoing>
    requires |b.g.drops| == |b.steps|
  {
    if ps == [] then [] else
    var before, p := ps[..|ps| - 1], ps[|ps| - 1];
    AsManySteps(b, before);
    AllSent(b, before) + Sends(b, before, p)
  }

  // Picture ids

  /** The delta of every interval, and the current one, is the sum of the steps of the drops before it. */
  ghost predicate DeltasOK(g: Truth, steps: seq<int>) {
    && |steps| == |g.drops| && g.pidDelta == U16(Sum(steps))
    && (forall i :: 0 <= i < |g.kept| ==> DeltaOK(g.kept[i], steps))
  }

  predicate DeltaOK(v: Interval, steps: seq<int>) { 0 <= v.drops <= |steps| && v.pidDelta == U16(Sum(steps[..v.drops])) }

  lemma DropDeltas(g: Truth, steps: seq<int>, step: int)
    requires DeltasOK(g, steps) && (g.kept == [] ==> g.drops == [])
    ensures DeltasOK(TrueDrop(g, U16(g.pidDelta + step)), steps + [step])
  {
    hide U16;
    var more := steps + [step];
    assert more[..|steps|] == steps;
    U16Shift(Sum(steps), step);
    var g' := TrueDrop(g, U16(g.pidDelta + step));
    forall i | 0 <= i < |g'.kept| ensures DeltaOK(g'.kept[i], more) {
      if g.kept == [] {
        assert more[..0] == [] && U16(0) == 0 by { NoShift(); }
      } else {
        assert DeltaOK(g.kept[i], steps);
        assert more[..g.kept[i].drops] == steps[..g.kept[i].drops];
      }
    }
  }

  lemma NoShift()
    ensures U16(0) == 0
  {
  }

  lemma MapDeltas(g: Truth, s: int, steps: seq<int>)
    requires DeltasOK(g, steps) && Coherent(g) && -MAX_JUMP <= s - g.next <= MAX_JUMP
    ensures DeltasOK(TrueMap(g, s).0, steps)
  {
    hide U16, Coherent;
    var g' := TrueMap(g, s).0;
    CoherentEmpty(g);
    NoShift();
    assert steps[..|steps|] == steps;
    forall i | 0 <= i < |g'.kept| ensures DeltaOK(g'.kept[i], steps) {
      if g.kept != [] {
        assert forall j :: 0 <= j < |g.kept| ==> DeltaOK(g.kept[j], steps);
      }
    }
  }

  lemma CoherentEmpty(g: Truth)
    requires Coherent(g)
    ensures g.kept == [] ==> g.drops == []
  {
  }

  /** A lookup ends in the interval that its number is in, and that has the drops below the number before it. */
  lemma {:induction false} FindDeltaWhere(kept: seq<Interval>, s: int) returns (i: nat)
    ensures Find(kept, s).Some? ==>
              i < |kept| && kept[i].first <= s < kept[i].end && FindDelta(kept, s) == kept[i].pidDelta
  {
    i := 0;
    if kept != [] {
      var n := |kept| - 1;
      if s < kept[n].first {
        i := FindDeltaWhere(kept[..n], s);
      } else {
        i := n;
      }
    }
  }

  /** The delta that goes with a number is the sum of the steps of the drops below it. */
  lemma DeltaIs(g: Truth, steps: seq<int>, s: int)
    requires DeltasOK(g, steps) && Coherent(g) && -MAX_JUMP <= s - g.next <= MAX_JUMP
    requires TrueMap(g, s).1.Some?
    ensures DropsBelow(g.drops, s) <= |steps| && TrueDelta(g, s) == U16(Sum(steps[..DropsBelow(g.drops, s)]))
    ensures TrueMap(g, s).1.value == Target(g.drops, s)
  {
    hide U16, Coherent, Find, FindDelta, DropsBelow, Target;
    CoherentEmpty(g);
    NoShift();
    if g.kept == [] {
      NoDrops(s);
      NoneBelow(s);
    } else if s >= g.next {
      NextBelow(g, s);
      assert steps[..|steps|] == steps;
    } else {
      FindsTarget(g, s);
      var i := FindDeltaWhere(g.kept, s);
      InIntervalTarget(g, i, s);
      TargetIs(g, s);
      assert DeltaOK(g.kept[i], steps);
    }
  }

  lemma NoneBelow(s: int)
    ensures DropsBelow([], s) == 0
  {
  }

  lemma TargetIs(g: Truth, s: int)
    ensures Target(g.drops, s) == s - DropsBelow(g.drops, s)
  {
  }

  lemma NextBelow(g: Truth, s: int)
    requires Coherent(g) && s >= g.next
    ensures DropsBelow(g.drops, s) == |g.drops| && Target(g.drops, s) == s - |g.drops|
  {
    DropsBelowIs(g.drops, s, |g.drops|);
  }

  // One packet

  /** What holds of the table after the packets. */
  ghost predicate Holds(b: Begin, ps: seq<Incoming>, m: Table) {
    var g := TruthAfter(b, ps);
    && Represents(m, g) && Coherent(g) && Window(g) && DeltasOK(g, AllSteps(b, ps))
    && g.next == NextAfter(b.g.next, ps) && g.drops == AllDrops(b, ps) && m.nextPid == LastPid(b.g.next, b.pid, ps)
  }

  /** A packet that is not dropped, nor has a number from far away. */
  lemma MappedIs(m: Table, g: Truth, steps: seq<int>, p: Incoming)
    requires Represents(m, g) && Coherent(g) && Window(g) && DeltasOK(g, steps)
    requires -MAX_JUMP <= p.s - g.next <= MAX_JUMP
    ensures var (m', r), (g', t) := MapSeqno(m, U16(p.s), p.flags.pid), TrueMap(g, p.s);
            && Represents(m', g') && Coherent(g') && DeltasOK(g', steps)
            && g'.next == (if p.s >= g.next then p.s + 1 else g.next) && g'.drops == g.drops
            && m'.nextPid == (if p.s >= g.next then p.flags.pid else m.nextPid)
            && (r.ok <==> t.Some?)
            && (t.Some? ==> Outgoing(r.seqno, r.pidDelta, p.data) == Image(g.drops, steps, p))
  {
    hide U16, Compare, Direct, Find, FindDelta, DropsBelow, Target, DeltasOK, Chron, Sum;
    UnwrapUnique(p.s, g.next);
    MapRefines(m, g, U16(p.s), p.flags.pid);
    MapCoherent(g, p.s);
    MapDeltas(g, p.s, steps);
    Branches(g.next, p.s);
    CoherentEmpty(g);
    MapNext(m, g, p.s, p.flags.pid);
    if TrueMap(g, p.s).1.Some? {
      DeltaIs(g, steps, p.s);
    }
  }

  lemma MapNext(m: Table, g: Truth, s: int, pid: u16)
    requires Represents(m, g) && Coherent(g) && -MAX_JUMP <= s - g.next <= MAX_JUMP
    ensures MapSeqno(m, U16(s), pid).0.nextPid == if s >= g.next then pid else m.nextPid
    ensures var g' := TrueMap(g, s).0; g'.drops == g.drops && g'.next == if s >= g.next then s + 1 else g.next
  {
    hide U16, Compare, Direct, Find, AddMapping;
    Branches(g.next, s);
    CoherentEmpty(g);
  }

  /** An unwanted packet is dropped exactly if it has the number expected next. */
  lemma DroppedIs(m: Table, g: Truth, steps: seq<int>, p: Incoming)
    requires Represents(m, g) && Coherent(g) && DeltasOK(g, steps)
    requires -MAX_JUMP <= p.s - g.next <= MAX_JUMP
    ensures var (m', ok) := DropSeqno(m, U16(p.s), p.flags.pid); var step := p.flags.pid - m.nextPid;
            && (ok <==> p.s == g.next)
            && (!ok ==> m' == m)
            && (ok ==> && Represents(m', TrueDrop(g, U16(g.pidDelta + step))) && Coherent(TrueDrop(g, U16(g.pidDelta + step)))
                       && DeltasOK(TrueDrop(g, U16(g.pidDelta + step)), steps + [step])
                       && TrueDrop(g, U16(g.pidDelta + step)).next == p.s + 1
                       && TrueDrop(g, U16(g.pidDelta + step)).drops == g.drops + [p.s]
                       && m'.nextPid == p.flags.pid)
  {
    hide U16, Coherent, Stands, Chron, DeltasOK;
    UnwrapUnique(p.s, g.next);
    DropRefines(m, g, U16(p.s), p.flags.pid);
    CoherentEmpty(g);
    var step := p.flags.pid - m.nextPid;
    DropDeltas(g, steps, step);
    DropCoherent(g, U16(g.pidDelta + step));
  }

  lemma UnfoldTruth(b: Begin, before: seq<Incoming>, p: Incoming)
    ensures TruthAfter(b, before + [p]) ==
              if !Read(p) then TruthAfter(b, before)
              else if IsDropped(b.g.next, before, p)
              then TrueDrop(TruthAfter(b, before), U16(TruthAfter(b, before).pidDelta + (p.flags.pid - LastPid(b.g.next, b.pid, before))))
              else TrueMap(TruthAfter(b, before), p.s).0
  {
    hide TrueMap, TrueDrop, U16, LastPid;
    assert (before + [p])[..|before|] == before;
  }

  lemma UnfoldNumbers(next: int, pid: u16, before: seq<Incoming>, p: Incoming)
    ensures var ps := before + [p];
            && NextAfter(next, ps) == (if IsFresh(next, before, p) then p.s + 1 else NextAfter(next, before))
            && LastPid(next, pid, ps) == (if IsFresh(next, before, p) then p.flags.pid else LastPid(next, pid, before))
            && DropsOf(next, ps) == DropsOf(next, before) + (if IsDropped(next, before, p) then [p.s] else [])
            && StepsOf(next, pid, ps) ==
               StepsOf(next, pid, before) + (if IsDropped(next, before, p) then [p.flags.pid - LastPid(next, pid, before)] else [])
  {
    assert (before + [p])[..|before|] == before;
  }

  lemma Regroup<T>(a: seq<T>, b: seq<T>, c: seq<T>)
    ensures a + (b + c) == (a + b) + c
  {
  }

  lemma Unfold(b: Begin, before: seq<Incoming>, p: Incoming)
    ensures (before + [p])[..|before|] == before
    ensures NextAfter(b.g.next, before + [p]) ==
              if IsFresh(b.g.next, before, p) then p.s + 1 else NextAfter(b.g.next, before)
    ensures LastPid(b.g.next, b.pid, before + [p]) ==
              if IsFresh(b.g.next, before, p) then p.flags.pid else LastPid(b.g.next, b.pid, before)
    ensures var dropped := IsDropped(b.g.next, before, p);
            && AllDrops(b, before + [p]) == AllDrops(b, before) + (if dropped then [p.s] else [])
            && AllSteps(b, before + [p]) ==
               AllSteps(b, before) + (if dropped then [p.flags.pid - LastPid(b.g.next, b.pid, before)] else [])
  {
    hide NextAfter, LastPid, DropsOf, StepsOf, IsFresh, IsDropped;
    UnfoldNumbers(b.g.next, b.pid, before, p);
    var dropped := IsDropped(b.g.next, before, p);
    Regroup(b.g.drops, DropsOf(b.g.next, before), if dropped then [p.s] else []);
    Regroup(b.steps, StepsOf(b.g.next, b.pid, before), if dropped then [p.flags.pid - LastPid(b.g.next, b.pid, before)] else []);
  }

  /**
   * One packet: what goes out of it, what the table stands for afterwards, and that an error comes back
   * exactly if its flags cannot be read or there is something to send that cannot be written.
   */
  lemma PacketWritten(b: Begin, before: seq<Incoming>, p: Incoming, t: Track)
    requires Holds(b, before, t.table) && SteadyAt(b, before, p)
    ensures var t' := WritePacket(t, Arrived(p), p.flags).0;
            && Holds(b, before + [p], t'.table)
            && |AllDrops(b, before)| == |AllSteps(b, before)|
            && t'.sent == t.sent + Sends(b, before, p)
    ensures WritePacket(t, Arrived(p), p.flags).1 <==>
              Read(p) && (p.flags.ending.NotWritten? ==>
                            IsDropped(b.g.next, before, p)
                            || !(IsFresh(b.g.next, before, p) || StillKnown(TruthAfter(b, before), p.s)))
  {
    hide Represents, Coherent, Window, U16, MapSeqno, DropSeqno, TrueMap, TrueDrop, AllDrops, AllSteps, NextAfter, LastPid, TruthAfter, Image;
    Unfold(b, before, p);
    UnfoldTruth(b, before, p);
    var g, steps := TruthAfter(b, before), AllSteps(b, before);
    assert |AllDrops(b, before)| == |steps| by { assert DeltasOK(g, steps); }
    hide DeltasOK;
    assert t.sent + [] == t.sent && steps + [] == steps && g.drops + [] == g.drops;
    if Read(p) {
      DroppedIs(t.table, g, steps, p);
      MappedIs(t.table, g, steps, p);
      KnownIs(g, p.s);
    }
  }

  lemma KnownIs(g: Truth, s: int)
    requires Coherent(g) && -MAX_JUMP <= s - g.next <= MAX_JUMP
    ensures TrueMap(g, s).1.Some? <==> s >= g.next || StillKnown(g, s)
  {
    hide Coherent, Find, Covered, Target;
    FindsTarget(g, s);
  }

  // Runs

  /**
   * What a down track puts out, over every run inside the window: each packet that is not dropped --
   * unwanted, with the very number expected next -- under its number less the dropped ones below it, with
   * the picture id moved back by what those drops moved it on.
   */
  lemma {:induction false} ReceiverGets(b: Begin, ps: seq<Incoming>, t: Track)
    requires Holds(b, [], t.table) && |b.g.drops| == |b.steps| && Steady(b, ps)
    ensures WellFormed(t.table)
    ensures Holds(b, ps, WriteAll(t, ps).table)
    ensures WriteAll(t, ps).sent == t.sent + AllSent(b, ps)
  {
    hide Holds, Sends, WritePacket, SteadyAt;
    HoldsWellFormed(b, [], t.table);
    if ps == [] {
      assert t.sent + [] == t.sent;
    } else {
      var before, p := ps[..|ps| - 1], ps[|ps| - 1];
      assert Steady(b, before) by { SteadyEarlier(b, ps); }
      assert SteadyAt(b, ps[..|before|], ps[|before|]);
      ReceiverGets(b, before, t);
      PacketWritten(b, before, p, WriteAll(t, before));
      assert before + [p] == ps;
      AsManySteps(b, before);
      assert t.sent + (AllSent(b, before) + Sends(b, before, p)) == (t.sent + AllSent(b, before)) + Sends(b, before, p);
    }
  }

  lemma SteadyEarlier(b: Begin, ps: seq<Incoming>)
    requires Steady(b, ps) && ps != []
    ensures Steady(b, ps[..|ps| - 1])
  {
    hide SteadyAt;
    var before := ps[..|ps| - 1];
    forall k | 0 <= k < |before| ensures SteadyAt(b, before[..k], before[k]) {
      assert before[..k] == ps[..k] && before[k] == ps[k];
      assert SteadyAt(b, ps[..k], ps[k]);
    }
  }

  lemma HoldsWellFormed(b: Begin, ps: seq<Incoming>, m: Table)
    requires Holds(b, ps, m)
    ensures WellFormed(m)
  {
  }

  /** A new track can start so. */
  lemma NewHolds()
    ensures Holds(Begin(Truth(0, [], [], 0), [], 0), [], EMPTY)
  {
    NoShift();
  }

  // What that comes to

  /** A drop of a number at or above s changes nothing for s. */
  lemma OneDropMore(ds: seq<int>, steps: seq<int>, d: int, step: int, p: Incoming)
    requires |ds| == |steps| && p.s <= d
    ensures Image(ds + [d], steps + [step], p) == Image(ds, steps, p)
  {
    hide U16;
    assert (ds + [d])[..|ds|] == ds;
    var n := DropsBelow(ds, p.s);
    assert (steps + [step])[..n] == steps[..n];
  }

  lemma {:induction false} ImageStays(b: Begin, ps: seq<Incoming>, i: nat, p: Incoming)
    requires |b.g.drops| == |b.steps| && i <= |ps| && p.s <= NextAfter(b.g.next, ps[..i])
    ensures |AllDrops(b, ps[..i])| == |AllSteps(b, ps[..i])| && |AllDrops(b, ps)| == |AllSteps(b, ps)|
    ensures Image(AllDrops(b, ps), AllSteps(b, ps), p) == Image(AllDrops(b, ps[..i]), AllSteps(b, ps[..i]), p)
    ensures NextAfter(b.g.next, ps[..i]) <= NextAfter(b.g.next, ps)
  {
    hide Image, AllDrops, AllSteps, LastPid;
    AsManySteps(b, ps);
    AsManySteps(b, ps[..i]);
    if i == |ps| {
      assert ps[..i] == ps;
    } else {
      var before, q := ps[..|ps| - 1], ps[|ps| - 1];
      assert before[..i] == ps[..i] && before + [q] == ps;
      ImageStays(b, before, i, p);
      Unfold(b, before, q);
      AsManySteps(b, before);
      if IsDropped(b.g.next, before, q) {
        OneDropMore(AllDrops(b, before), AllSteps(b, before), q.s, q.flags.pid - LastPid(b.g.next, b.pid, before), p);
      } else {
        assert AllDrops(b, before) + [] == AllDrops(b, before) && AllSteps(b, before) + [] == AllSteps(b, before);
      }
    }
  }

  /** What a packet goes out as depends on all the drops of the run, before and after it, and on nothing else. */
  lemma ImageIsFinal(b: Begin, ps: seq<Incoming>, i: nat)
    requires |b.g.drops| == |b.steps| && i < |ps| && !IsDropped(b.g.next, ps[..i], ps[i])
    requires Read(ps[i])
    ensures |AllDrops(b, ps[..i])| == |AllSteps(b, ps[..i])| && |AllDrops(b, ps)| == |AllSteps(b, ps)|
    ensures Image(AllDrops(b, ps[..i]), AllSteps(b, ps[..i]), ps[i]) == Image(AllDrops(b, ps), AllSteps(b, ps), ps[i])
  {
    hide Image, AllDrops, AllSteps, LastPid;
    var before, p := ps[..i], ps[i];
    assert before + [p] == ps[..i + 1];
    Unfold(b, before, p);
    AsManySteps(b, before);
    assert AllDrops(b, before) + [] == AllDrops(b, before) && AllSteps(b, before) + [] == AllSteps(b, before);
    ImageStays(b, ps, i + 1, p);
  }

  predicate OnlyDropsBetween(ds: seq<int>, s: int, s': int) {
    s < s' && s !in ds && forall x :: s < x < s' ==> x in ds
  }

  /**
   * Between resets the same packet, sent again, goes out under the same number with the same delta; and
   * of two packets with nothing but dropped numbers between them, the second goes out right after the first.
   */
  lemma NoGapSeen(b: Begin, ps: seq<Incoming>, t: Track, i: nat, j: nat)
    requires Holds(b, [], t.table) && |b.g.drops| == |b.steps| && Steady(b, ps)
    requires i < |ps| && j < |ps| && Read(ps[i]) && Read(ps[j])
    requires !IsDropped(b.g.next, ps[..i], ps[i]) && !IsDropped(b.g.next, ps[..j], ps[j])
    ensures |AllDrops(b, ps[..i])| == |AllSteps(b, ps[..i])| && |AllDrops(b, ps[..j])| == |AllSteps(b, ps[..j])|
    ensures var x, y := Image(AllDrops(b, ps[..i]), AllSteps(b, ps[..i]), ps[i]), Image(AllDrops(b, ps[..j]), AllSteps(b, ps[..j]), ps[j]);
            && (ps[i].s == ps[j].s ==> x.seqno == y.seqno && x.pidDelta == y.pidDelta)
            && (OnlyDropsBetween(AllDrops(b, ps), ps[i].s, ps[j].s) ==> y.seqno == U16(x.seqno + 1))
  {
    hide Steady, Represents, AllDrops, AllSteps, U16, DropsBelow, Sum, NextAfter;
    ReceiverGets(b, ps, t);
    ImageIsFinal(b, ps, i);
    ImageIsFinal(b, ps, j);
    if OnlyDropsBetween(AllDrops(b, ps), ps[i].s, ps[j].s) {
      TargetsWithoutGap(AllDrops(b, ps), ps[i].s, ps[j].s);
      U16Shift(Target(AllDrops(b, ps), ps[i].s), 1);
    }
  }
}
