/**
 * The promises of the renumbering: Reverse inverts Map, a NACK is answered with
 * the packet that the receiver misses under the number it misses, nothing but
 * drops is left out, and over every run the images keep the order.
 */
module Renumbering {
  import opened Common
  import opened Seqno
  import opened PacketMap
  import opened PacketMapSpec

  // Reverse

  function FindBack(kept: seq<Interval>, t: int): Option<int> {
    if kept == [] then None else
    var v := kept[|kept| - 1];
    if t < v.first - v.drops then FindBack(kept[..|kept| - 1], t)
    else if t < v.end - v.drops then Some(t + v.drops) else None
  }

  lemma ImageCompares(e: Entry, v: Interval, t: int)
    requires Stands(e, v)
    requires -0x8000 < t - (v.first - v.drops) < 0x8000 && -0x8000 < t - (v.end - v.drops) < 0x8000
    ensures var f := U16(e.first + e.delta);
            && (Compare(U16(t), f) < 0 <==> t < v.first - v.drops)
            && (Compare(U16(t), U16(f + e.count)) < 0 <==> t < v.end - v.drops)
            && U16(U16(t) - e.delta) == U16(t + v.drops)
  {
    U16Both(v.first, -v.drops);
    U16Both(v.first - v.drops, v.end - v.first);
    U16Back(t, v.drops);
    CompareNear(t, v.first - v.drops);
    CompareNear(t, v.end - v.drops);
  }

  lemma {:induction false} ReverseFinds(es: seq<Entry>, kept: seq<Interval>, t: int)
    requires |es| == |kept| && forall i :: 0 <= i < |kept| ==> Stands(es[i], kept[i])
    requires forall i :: 0 <= i < |kept| ==>
               -0x8000 < t - (kept[i].first - kept[i].drops) < 0x8000 && -0x8000 < t - (kept[i].end - kept[i].drops) < 0x8000
    ensures var r, s := ReverseIn(es, U16(t)), FindBack(kept, t);
            (r.ok <==> s.Some?) && (s.Some? ==> r.seqno == U16(s.value))
  {
    hide U16, Compare, Stands;
    if kept != [] {
      var n := |kept| - 1;
      ImageCompares(es[n], kept[n], t);
      ReverseFinds(es[..n], kept[..n], t);
    }
  }

  lemma U16Back(t: int, d: int)
    ensures U16(U16(t) - U16(-d)) == U16(t + d)
  {
    U16Both(t, -d);
  }

  lemma {:induction false} FindBackWhere(kept: seq<Interval>, t: int) returns (i: nat)
    ensures FindBack(kept, t).Some? ==>
              i < |kept| && kept[i].first <= FindBack(kept, t).value < kept[i].end &&
              FindBack(kept, t).value == t + kept[i].drops
  {
    i := 0;
    if kept != [] {
      var n := |kept| - 1;
      if t < kept[n].first - kept[n].drops {
        i := FindBackWhere(kept[..n], t);
      } else {
        i := n;
      }
    }
  }

  lemma {:induction false} FindBackThere(kept: seq<Interval>, s: int, i: nat)
    requires Ordered(kept) && i < |kept| && kept[i].first <= s < kept[i].end
    ensures FindBack(kept, s - kept[i].drops) == Some(s)
  {
    var n := |kept| - 1;
    if i < n {
      assert kept[i].end + (kept[n].drops - kept[i].drops) <= kept[n].first;
      FindBackThere(kept[..n], s, i);
    }
  }

  lemma ImagesNear(g: Truth, t: int)
    requires Coherent(g) && Window(g)
    requires g.next - |g.drops| - 0x8000 < t < g.next - |g.drops|
    ensures forall i :: 0 <= i < |g.kept| ==>
              -0x8000 < t - (g.kept[i].first - g.kept[i].drops) < 0x8000 &&
              -0x8000 < t - (g.kept[i].end - g.kept[i].drops) < 0x8000
  {
    forall i | 0 <= i < |g.kept|
      ensures -0x8000 < t - (g.kept[i].first - g.kept[i].drops) < 0x8000 &&
              -0x8000 < t - (g.kept[i].end - g.kept[i].drops) < 0x8000
    {
      var n := |g.kept| - 1;
      assert IntervalOK(g, g.kept[i]) && IntervalOK(g, g.kept[0]) && IntervalOK(g, g.kept[n]);
      assert TailOK(g);
      if i > 0 {
        assert g.kept[0].end + (g.kept[i].drops - g.kept[0].drops) <= g.kept[i].first;
      }
      if i < n {
        assert g.kept[i].end + (g.kept[n].drops - g.kept[i].drops) <= g.kept[n].first;
      }
    }
  }

  /** Among covered numbers an image belongs to one number only. */
  lemma OneNumberPerImage(g: Truth, s: int, s': int)
    requires Coherent(g) && s !in g.drops && s' !in g.drops && Target(g.drops, s) == Target(g.drops, s')
    ensures s == s'
  {
    if s < s' {
      TargetsInOrder(g.drops, s, s');
    } else if s' < s {
      TargetsInOrder(g.drops, s', s);
    }
  }

  /**
   * Reverse inverts Map: inside the window, an outgoing number already used is mapped back exactly
   * if a kept number has it as its image, and then to that number.
   */
  lemma ReverseInverts(m: Table, g: Truth, t: int, s: int)
    requires Represents(m, g) && Coherent(g) && Window(g)
    requires g.next - |g.drops| - 0x8000 < t < g.next - |g.drops|
    ensures g.kept == [] ==> Reverse(m, U16(t)) == Mapped(true, U16(t), 0)
    ensures g.kept != [] && Covered(g.kept, s) && Target(g.drops, s) == t ==>
              Reverse(m, U16(t)).ok && Reverse(m, U16(t)).seqno == U16(s)
    ensures g.kept != [] && Reverse(m, U16(t)).ok ==>
              exists s' {:trigger Covered(g.kept, s')} :: Covered(g.kept, s') && Target(g.drops, s') == t && Reverse(m, U16(t)).seqno == U16(s')
  {
    hide Coherent, Window, Stands, Ring, ReverseIn, U16, FindBack, Target, Covered;
    if g.kept != [] {
      ImagesNear(g, t);
      ReverseFinds(Chron(m), g.kept, t);
      FindBackInverts(g, t, s);
    }
  }

  lemma FindBackInverts(g: Truth, t: int, s: int)
    requires Coherent(g)
    ensures Covered(g.kept, s) && Target(g.drops, s) == t ==> FindBack(g.kept, t) == Some(s)
    ensures var b := FindBack(g.kept, t); b.Some? ==> Covered(g.kept, b.value) && Target(g.drops, b.value) == t
  {
    hide Coherent, Target, FindBack;
    if Covered(g.kept, s) && Target(g.drops, s) == t {
      var i :| 0 <= i < |g.kept| && g.kept[i].first <= s < g.kept[i].end;
      InIntervalTarget(g, i, s);
      CoherentOrdered(g);
      FindBackThere(g.kept, s, i);
    }
    var j := FindBackWhere(g.kept, t);
    if FindBack(g.kept, t).Some? {
      InIntervalTarget(g, j, FindBack(g.kept, t).value);
    }
  }

  lemma CoherentOrdered(g: Truth)
    requires Coherent(g)
    ensures Ordered(g.kept)
  {
  }

  // Answering a NACK

  /** rtpDownTrack.Write up to the renumbering: an unwanted packet is dropped if that is safe. */
  function Write(m: Table, unwanted: bool, seqno: u16, pid: u16): (Table, Mapped)
    requires WellFormed(m)
  {
    if unwanted && DropSeqno(m, seqno, pid).1 then (DropSeqno(m, seqno, pid).0, UNMAPPED)
    else MapSeqno(m, seqno, pid)
  }

  /** The table still knows number s: it is in a kept interval or, before the first drop, less than 2^15 behind. */
  ghost predicate Known(g: Truth, s: int) {
    if g.kept == [] then g.next - 0x8000 < s < g.next else Covered(g.kept, s)
  }

  /**
   * A NACK for the outgoing number t is answered with the original packet under t again, whatever
   * layer it belongs to, and the table stays as it is -- exactly if the packet is no more than 8192
   * behind.  An older one resets the table, although Reverse still finds it.
   */
  lemma NackAnsweredWithSameNumber(m: Table, g: Truth, t: int, s: int, unwanted: bool, pid: u16)
    requires Represents(m, g) && Coherent(g) && Window(g)
    requires Known(g, s) && Target(g.drops, s) == t
    ensures var back := Reverse(m, U16(t));
            var (m', r) := Write(m, unwanted, back.seqno, pid);
            && back.ok && back.seqno == U16(s)
            && (m' == m <==> g.next - s <= MAX_JUMP)
            && (m' == m ==> r == Mapped(true, U16(t), TrueDelta(g, s)))
            && (m' != m ==> m' == EMPTY.(next := U16(s + 1), nextPid := pid) && r == Mapped(true, U16(s), 0))
  {
    hide Represents, Coherent, Window, Write, Reverse, Target;
    if g.kept == [] {
      NackBeforeDrops(m, g, t, s, unwanted, pid);
    } else {
      NackAfterDrops(m, g, t, s, unwanted, pid);
    }
  }

  /** Before the first drop, numbers are their own images. */
  lemma NackBeforeDrops(m: Table, g: Truth, t: int, s: int, unwanted: bool, pid: u16)
    requires Represents(m, g) && Coherent(g) && g.kept == []
    requires g.next - 0x8000 < s < g.next && Target(g.drops, s) == t
    ensures var back := Reverse(m, U16(t));
            var (m', r) := Write(m, unwanted, back.seqno, pid);
            && back.ok && back.seqno == U16(s)
            && (m' == m <==> g.next - s <= MAX_JUMP)
            && (m' == m ==> r == Mapped(true, U16(t), TrueDelta(g, s)))
            && (m' != m ==> m' == EMPTY.(next := U16(s + 1), nextPid := pid) && r == Mapped(true, U16(s), 0))
  {
    assert t == s;
    UnwrapUnique(s, g.next);
    DropRefines(m, g, U16(s), pid);
    Branches(g.next, s);
    U16Shift(s, 1);
    if s + 1 < g.next {
      U16Apart(s + 1, g.next);
    }
    hide Coherent, U16, Unwrap, Compare, DropSeqno;
  }

  lemma U16Apart(a: int, b: int)
    requires 0 < b - a < 0x1_0000
    ensures U16(a) != U16(b)
  {
  }

  lemma NackAfterDrops(m: Table, g: Truth, t: int, s: int, unwanted: bool, pid: u16)
    requires Represents(m, g) && Coherent(g) && Window(g) && g.kept != []
    requires Covered(g.kept, s) && Target(g.drops, s) == t
    ensures var back := Reverse(m, U16(t));
            var (m', r) := Write(m, unwanted, back.seqno, pid);
            && back.ok && back.seqno == U16(s)
            && (m' == m <==> g.next - s <= MAX_JUMP)
            && (m' == m ==> r == Mapped(true, U16(t), TrueDelta(g, s)))
            && (m' != m ==> m' == EMPTY.(next := U16(s + 1), nextPid := pid) && r == Mapped(true, U16(s), 0))
  {
    hide Coherent, U16, Unwrap, Compare, Reverse, Direct, Chron, Target, Find, FindDelta, DropSeqno, Window;
    FindsTarget(g, s);
    var i :| 0 <= i < |g.kept| && g.kept[i].first <= s < g.kept[i].end;
    InIntervalTarget(g, i, s);
    BehindNext(g, i, s);
    ReverseInverts(m, g, t, s);
    UnwrapUnique(s, g.next);
    DropRefines(m, g, U16(s), pid);
    MapRefines(m, g, U16(s), pid);
    Branches(g.next, s);
    U16Shift(s, 1);
    CoherentOrdered(g);
    FindThere(g.kept, s, i);
    assert m.entries != [];
    assert !DropSeqno(m, U16(s), pid).1;
  }

  /** A covered number is before the next one, by less than 2^15, and so is its image. */
  lemma BehindNext(g: Truth, i: nat, s: int)
    requires Coherent(g) && Window(g) && i < |g.kept| && g.kept[i].first <= s < g.kept[i].end
    ensures 0 < g.next - s < 0x8000
    ensures g.next - |g.drops| - 0x8000 < s - g.kept[i].drops < g.next - |g.drops|
  {
    var n := |g.kept| - 1;
    assert IntervalOK(g, g.kept[i]) && IntervalOK(g, g.kept[0]) && TailOK(g);
    if i > 0 {
      assert g.kept[0].end + (g.kept[i].drops - g.kept[0].drops) <= g.kept[i].first;
    }
    if i < n {
      assert IntervalOK(g, g.kept[n]);
      assert g.kept[i].end + (g.kept[n].drops - g.kept[i].drops) <= g.kept[n].first;
    }
  }

  // Nothing but drops is left out

  /** Each kept interval starts right after the drops that follow the one before. */
  ghost predicate Seamless(kept: seq<Interval>) {
    forall i :: 0 < i < |kept| ==> kept[i].first == kept[i - 1].end + (kept[i].drops - kept[i - 1].drops)
  }

  /** As many distinct drops as there is room for fill the room. */
  lemma {:induction false} DropsFill(ds: seq<int>, a: nat, b: nat, from: int, x: int)
    requires Increasing(ds) && a < b <= |ds| && ds[a] >= from && ds[b - 1] < from + (b - a)
    requires from <= x < from + (b - a)
    ensures x in ds
    decreases b - a
  {
    if a + 1 < b {
      assert ds[b - 2] < ds[b - 1];
      if x == from + (b - a) - 1 {
        DropsSpread(ds, a, b - 1);
      } else {
        DropsFill(ds, a, b - 1, from, x);
      }
    }
  }

  lemma {:induction false} DropsSpread(ds: seq<int>, a: nat, b: nat)
    requires Increasing(ds) && a <= b < |ds|
    ensures ds[b] >= ds[a] + (b - a)
    decreases b
  {
    if a < b {
      DropsSpread(ds, a, b - 1);
      assert ds[b - 1] < ds[b];
    }
  }

  lemma TailDropped(g: Truth, s: int)
    requires Coherent(g) && g.kept != [] && g.kept[|g.kept| - 1].end <= s < g.next
    ensures s in g.drops
  {
    var l := g.kept[|g.kept| - 1];
    assert g.drops[l.drops + (s - l.end)] == s;
  }

  /** Every number that was not dropped, from the first kept interval up to the next number, is mapped. */
  lemma {:induction false} NothingLeftOut(g: Truth, s: int, n: nat)
    requires Coherent(g) && Seamless(g.kept) && 0 < n <= |g.kept|
    requires g.kept[0].first <= s < (if n == |g.kept| then g.next else g.kept[n].first)
    requires s !in g.drops
    ensures Covered(g.kept, s)
  {
    var l := g.kept[n - 1];
    assert IntervalOK(g, l);
    if s < l.first {
      NothingLeftOut(g, s, n - 1);
    } else if s >= l.end {
      if n == |g.kept| {
        TailDropped(g, s);
      } else {
        assert IntervalOK(g, g.kept[n]) && Ordered(g.kept);
        DropsFill(g.drops, l.drops, g.kept[n].drops, l.end, s);
      }
    }
  }

  /** The number of drops since the last forwarded number. */
  function Burst(g: Truth): int
    requires g.kept != []
  {
    |g.drops| - g.kept[|g.kept| - 1].drops
  }

  /**
   * Forwarding keeps the intervals seamless, and so leaves nothing out, exactly if fewer than 8192
   * drops came before it or it is the very next number.  Otherwise what was skipped is never mapped.
   */
  lemma ForwardSeamless(g: Truth, s: int)
    requires Coherent(g) && g.kept != [] && g.next <= s
    ensures Burst(g) < MAX_JUMP || s == g.next <==> forall x :: g.next <= x <= s ==> Covered(Forward(g, s).kept, x)
    ensures Seamless(g.kept) && (Burst(g) < MAX_JUMP || s == g.next) ==> Seamless(Forward(g, s).kept)
  {
    hide Coherent, Forward, Seamless, Covered;
    if Burst(g) < MAX_JUMP || s == g.next {
      ForwardCovers(g, s);
      if Seamless(g.kept) {
        StaysSeamless(g, s);
      }
    } else {
      ForwardSkips(g, s);
    }
  }

  lemma StaysSeamless(g: Truth, s: int)
    requires Coherent(g) && g.kept != [] && g.next <= s
    requires Seamless(g.kept) && (Burst(g) < MAX_JUMP || s == g.next)
    ensures Seamless(Forward(g, s).kept)
  {
    LastEnds(g);
    hide Coherent;
  }

  lemma LastEnds(g: Truth)
    requires Coherent(g) && g.kept != []
    ensures var l := g.kept[|g.kept| - 1]; l.first < l.end && l.end + Burst(g) == g.next && 0 <= Burst(g)
  {
    assert IntervalOK(g, g.kept[|g.kept| - 1]) && TailOK(g);
  }

  lemma ForwardCovers(g: Truth, s: int)
    requires Coherent(g) && g.kept != [] && g.next <= s
    requires Burst(g) < MAX_JUMP || s == g.next
    ensures forall x :: g.next <= x <= s ==> Covered(Forward(g, s).kept, x)
  {
    LastEnds(g);
    hide Coherent;
    var g' := Forward(g, s);
    var v := g'.kept[|g'.kept| - 1];
    forall x | g.next <= x <= s ensures Covered(g'.kept, x) {
      assert v.first <= x < v.end;
    }
  }

  lemma ForwardSkips(g: Truth, s: int)
    requires Coherent(g) && g.kept != [] && g.next < s && Burst(g) >= MAX_JUMP
    ensures !Covered(Forward(g, s).kept, g.next)
  {
    var g' := Forward(g, s);
    forall i | 0 <= i < |g'.kept| ensures !(g'.kept[i].first <= g.next < g'.kept[i].end) {
      if i < |g'.kept| - 1 {
        var j := i + |g.kept| + 1 - |g'.kept|;
        assert g'.kept[i] == g.kept[j] && IntervalOK(g, g.kept[j]);
      }
    }
  }

  /** A drop leaves the next outgoing number alone, and takes the dropped number out for good. */
  lemma DropOpensNoGap(g: Truth, pidDelta: u16)
    requires Coherent(g)
    ensures var g' := TrueDrop(g, pidDelta);
            && g'.next - |g'.drops| == g.next - |g.drops|
            && Target(g'.drops, g'.next) == Target(g.drops, g.next)
            && !Covered(g'.kept, g.next)
            && (Seamless(g.kept) ==> Seamless(g'.kept))
  {
    var g' := TrueDrop(g, pidDelta);
    DropCoherent(g, pidDelta);
    DropsBelowIs(g.drops, g.next, |g.drops|);
    DropsBelowIs(g'.drops, g'.next, |g'.drops|);
    assert g'.drops[|g.drops|] == g.next;
    FindsTarget(g', g.next);
  }

  // Runs

  datatype Op = MapOp(seqno: u16, pid: u16) | DropOp(seqno: u16, pid: u16)

  /** A number that was mapped, its image, and the 16 bits that were sent. */
  datatype Sent = Sent(s: int, t: int, out: u16)

  /**
   * A run: the table, the truth beside it, and what was mapped since the last reset.  `fits` tells
   * that the window condition has held ever since; a table that empties starts afresh.
   */
  datatype Run = Run(table: Table, truth: Truth, sent: seq<Sent>, fits: bool)

  function Start(): Run { Run(EMPTY, Truth(0, [], [], 0), [], true) }

  function Restarts(g: Truth, g': Truth): bool {
    g'.kept == [] && (g.kept != [] || g'.next < g.next)
  }

  function Step(r: Run, op: Op): Run
    requires WellFormed(r.table)
  {
    match op
    case MapOp(seqno, pid) =>
      var (m', res) := MapSeqno(r.table, seqno, pid);
      var s := Unwrap(seqno, r.truth.next);
      var (g', t) := TrueMap(r.truth, s);
      if !r.fits then
        if m'.entries == [] then Run(m', Restarted(seqno), [Sent(seqno, seqno, res.seqno)], true) else r.(table := m')
      else
        var sent := if Restarts(r.truth, g') then [] else r.sent;
        Run(m', g', if t.Some? then sent + [Sent(s, t.value, res.seqno)] else sent, Window(g'))
    case DropOp(seqno, pid) =>
      var (m', ok) := DropSeqno(r.table, seqno, pid);
      if r.fits && ok then
        var g' := TrueDrop(r.truth, m'.pidDelta);
        Run(m', g', r.sent, Window(g'))
      else
        r.(table := m')
  }

  function Exec(ops: seq<Op>): (r: Run)
    ensures WellFormed(r.table)
  {
    if ops == [] then Start()
    else
      var r := Exec(ops[..|ops| - 1]);
      assert forall op {:trigger Step(r, op)} :: WellFormed(Step(r, op).table);
      Step(r, ops[|ops| - 1])
  }

  /** Every number mapped since the last reset was given its image, which later drops do not change. */
  ghost predicate SentOK(g: Truth, sent: seq<Sent>) {
    forall i :: 0 <= i < |sent| ==>
      var e := sent[i];
      e.s < g.next && e.s !in g.drops && e.t == Target(g.drops, e.s) && e.out == U16(e.t)
  }

  ghost predicate RunOK(r: Run) {
    if r.fits then Represents(r.table, r.truth) && Coherent(r.truth) && Window(r.truth) && SentOK(r.truth, r.sent)
    else r.table.entries != []
  }

  lemma DropSentOK(g: Truth, pidDelta: u16, sent: seq<Sent>)
    requires SentOK(g, sent)
    ensures SentOK(TrueDrop(g, pidDelta), sent)
  {
    forall i | 0 <= i < |sent| ensures
        var e := sent[i];
        e.s !in g.drops + [g.next] && e.t == Target(g.drops + [g.next], e.s) {
      TargetStable(g.drops, g.next, sent[i].s);
    }
  }

  ghost predicate SentOne(g: Truth, e: Sent) {
    e.s < g.next && e.s !in g.drops && e.t == Target(g.drops, e.s) && e.out == U16(e.t)
  }

  lemma SentMore(g: Truth, g': Truth, sent: seq<Sent>, e: Sent)
    requires SentOK(g, sent) && g'.drops == g.drops && g'.next >= g.next
    ensures SentOK(g', sent) && (SentOne(g', e) ==> SentOK(g', sent + [e]))
  {
    hide Target, U16;
  }

  /** What one Map gives out is the image. */
  lemma MapSentOne(g: Truth, s: int, out: u16)
    requires Coherent(g)
    requires var t := TrueMap(g, s).1; t.Some? && out == U16(t.value)
    ensures SentOne(TrueMap(g, s).0, Sent(s, TrueMap(g, s).1.value, out))
  {
    hide U16, Find, Target;
    NoDrops(s);
    if g.kept != [] && s >= g.next {
      AllBelow(g.drops, g.next, s);
    } else if g.kept != [] {
      FindsTarget(g, s);
    }
  }

  lemma NoDrops(s: int)
    ensures Target([], s) == s
  {
  }

  lemma AllBelow(ds: seq<int>, next: int, s: int)
    requires Increasing(ds) && next <= s && forall k :: 0 <= k < |ds| ==> ds[k] < next
    ensures Target(ds, s) == s - |ds| && s !in ds
  {
    DropsBelowIs(ds, s, |ds|);
  }

  /** What one Map adds to the record. */
  lemma MapSentOK(g: Truth, s: int, sent: seq<Sent>, out: u16)
    requires Coherent(g) && SentOK(g, sent)
    requires var t := TrueMap(g, s).1; t.Some? ==> out == U16(t.value)
    ensures var (g', t) := TrueMap(g, s);
            var kept := if Restarts(g, g') then [] else sent;
            SentOK(g', if t.Some? then kept + [Sent(s, t.value, out)] else kept)
  {
    hide Coherent, SentOK, SentOne, U16, Find;
    var (g', t) := TrueMap(g, s);
    if t.Some? {
      MapSentOne(g, s, out);
      var e := Sent(s, t.value, out);
      EmptySentOK(g');
      SentMore(g', g', [], e);
      if !Restarts(g, g') {
        MapDrops(g, s);
        SentMore(g, g', sent, e);
      }
    }
  }

  lemma EmptySentOK(g: Truth)
    ensures SentOK(g, [])
  {
  }

  lemma MapDrops(g: Truth, s: int)
    requires Coherent(g)
    ensures var g' := TrueMap(g, s).0; !Restarts(g, g') ==> g'.drops == g.drops && g'.next >= g.next
  {
    hide Find, IntervalOK, Ordered, TailOK, Increasing;
  }

  lemma StepOK(r: Run, op: Op)
    requires WellFormed(r.table) && RunOK(r)
    ensures RunOK(Step(r, op))
  {
    hide Coherent, SentOK, Unwrap, U16, Stands, Ring, MapSeqno, TrueMap;
    match op {
      case MapOp(seqno, pid) =>
        if r.fits {
          MapRefines(r.table, r.truth, seqno, pid);
          MapCoherent(r.truth, Unwrap(seqno, r.truth.next));
          MapSentOK(r.truth, Unwrap(seqno, r.truth.next), r.sent, MapSeqno(r.table, seqno, pid).1.seqno);
        } else {
          FreshStart(r.table, seqno, pid);
        }
      case DropOp(seqno, pid) =>
        if r.fits {
          DropRefines(r.table, r.truth, seqno, pid);
          DropCoherent(r.truth, DropSeqno(r.table, seqno, pid).0.pidDelta);
          DropSentOK(r.truth, DropSeqno(r.table, seqno, pid).0.pidDelta, r.sent);
        }
    }
  }

  /** A table that empties has been reset. */
  lemma EmptiesByReset(m: Table, seqno: u16, pid: u16)
    requires WellFormed(m) && m.entries != []
    ensures var (m', res) := MapSeqno(m, seqno, pid);
            m'.entries == [] ==> m' == EMPTY.(next := U16(seqno + 1), nextPid := pid) && res == Mapped(true, seqno, 0)
  {
    hide Compare, U16, Direct, Chron, NewEntry;
  }

  lemma FreshStart(m: Table, seqno: u16, pid: u16)
    requires WellFormed(m) && m.entries != []
    ensures var (m', res) := MapSeqno(m, seqno, pid);
            m'.entries == [] ==>
              Represents(m', Restarted(seqno)) && Coherent(Restarted(seqno)) &&
              SentOK(Restarted(seqno), [Sent(seqno, seqno, res.seqno)])
  {
    hide MapSeqno, Represents, Coherent, U16, SentOK, Target;
    EmptiesByReset(m, seqno, pid);
    ResetRepresents(seqno, pid);
    NoDrops(seqno);
    U16Same(seqno);
    var g := Restarted(seqno);
    EmptySentOK(g);
    SentMore(g, g, [], Sent(seqno, seqno, seqno));
    assert [] + [Sent(seqno, seqno, seqno)] == [Sent(seqno, seqno, seqno)];
  }

  lemma U16Same(s: u16)
    ensures U16(s) == s
  {
  }

  lemma {:induction false} RunsOK(ops: seq<Op>)
    ensures RunOK(Exec(ops))
  {
    hide RunOK, Step;
    if ops == [] {
      StartOK();
    } else {
      RunsOK(ops[..|ops| - 1]);
      StepOK(Exec(ops[..|ops| - 1]), ops[|ops| - 1]);
    }
  }

  lemma StartOK()
    ensures RunOK(Start())
  {
  }

  /**
   * Over every run, between resets and inside the window: a number mapped twice gets the same image,
   * different numbers get different images, in the same order, and no dropped number is mapped.
   */
  lemma ImagesKeepTheOrder(ops: seq<Op>, i: nat, j: nat)
    requires var r := Exec(ops); r.fits && i < |r.sent| && j < |r.sent|
    ensures var r := Exec(ops);
            var (a, b) := (r.sent[i], r.sent[j]);
            && (a.s < b.s <==> a.t < b.t)
            && (a.s == b.s <==> a.t == b.t)
            && a.s !in r.truth.drops
            && a.out == U16(a.t)
  {
    RunsOK(ops);
    var r := Exec(ops);
    hide Exec, Represents;
    var a, b := r.sent[i], r.sent[j];
    if a.s < b.s {
      TargetsInOrder(r.truth.drops, a.s, b.s);
    } else if b.s < a.s {
      TargetsInOrder(r.truth.drops, b.s, a.s);
    }
  }

  /**
   * Over every run: a packet that went out and is still known goes out again under the very number
   * it had, when the receiver asks for that number, and the table does not change.
   */
  lemma LostPacketComesBack(ops: seq<Op>, i: nat, unwanted: bool, pid: u16)
    requires var r := Exec(ops);
             && r.fits && i < |r.sent| && Known(r.truth, r.sent[i].s)
             && r.truth.next - r.sent[i].s <= MAX_JUMP
    ensures var r := Exec(ops);
            var back := Reverse(r.table, r.sent[i].out);
            && back.ok
            && Write(r.table, unwanted, back.seqno, pid).0 == r.table
            && Write(r.table, unwanted, back.seqno, pid).1.ok
            && Write(r.table, unwanted, back.seqno, pid).1.seqno == r.sent[i].out
  {
    RunsOK(ops);
    var r := Exec(ops);
    hide Exec, Represents, Coherent, Window, Write, Reverse, U16, Known;
    var e := r.sent[i];
    NackAnsweredWithSameNumber(r.table, r.truth, e.t, e.s, unwanted, pid);
  }
}
