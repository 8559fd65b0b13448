/**
 * What the renumbering table means.  Beside the 16-bit table stands the truth in
 * unbounded numbers: the number expected next, every number dropped since the
 * last reset, and the intervals that the kept entries stand for.  The image of a
 * number is defined without the table, by counting: it is the number itself less
 * the dropped numbers below it.
 */
module PacketMapSpec {
  import opened Common
  import opened Seqno
  import opened PacketMap

  // Counting drops

  predicate Increasing(ds: seq<int>) {
    forall i, j :: 0 <= i < j < |ds| ==> ds[i] < ds[j]
  }

  function DropsBelow(ds: seq<int>, s: int): (n: nat)
    ensures n <= |ds|
  {
    if ds == [] then 0
    else DropsBelow(ds[..|ds| - 1], s) + if ds[|ds| - 1] < s then 1 else 0
  }

  /** The image of s once the numbers ds are dropped. */
  function Target(ds: seq<int>, s: int): int { s - DropsBelow(ds, s) }

  lemma {:induction false} DropsBelowIs(ds: seq<int>, s: int, n: nat)
    requires Increasing(ds) && n <= |ds|
    requires n == 0 || ds[n - 1] < s
    requires n == |ds| || ds[n] >= s
    ensures DropsBelow(ds, s) == n
  {
    if ds != [] {
      var l := |ds| - 1;
      if n == |ds| {
        forall i | 0 <= i < |ds| ensures ds[i] < s {
          assert i == n - 1 || ds[i] < ds[n - 1];
        }
        DropsBelowIs(ds[..l], s, l);
      } else {
        assert n == l || ds[n] < ds[l];
        DropsBelowIs(ds[..l], s, n);
      }
    }
  }

  /** Renumbering keeps the order, and leaves no two numbers one image unless the first was dropped. */
  lemma {:induction false} TargetsInOrder(ds: seq<int>, a: int, b: int)
    requires Increasing(ds) && a < b
    ensures Target(ds, a) <= Target(ds, b)
    ensures a !in ds ==> Target(ds, a) < Target(ds, b)
    ensures DropsBelow(ds, a) <= DropsBelow(ds, b)
    ensures DropsBelow(ds, b) - DropsBelow(ds, a) <= |ds|
  {
    if ds != [] {
      var rest, d := ds[..|ds| - 1], ds[|ds| - 1];
      TargetsInOrder(rest, a, b);
      if a <= d < b {
        // all other drops are below d
        if a < d {
          TargetsInOrder(rest, a, d);
        }
        DropsBelowIs(rest, d, |rest|);
        DropsBelowIs(rest, b, |rest|);
      }
    }
  }

  /** ... and it leaves no gap: the next number that is not dropped gets the next image. */
  lemma {:induction false} TargetsWithoutGap(ds: seq<int>, a: int, b: int)
    requires Increasing(ds) && a < b && a !in ds
    requires forall x :: a < x < b ==> x in ds
    ensures Target(ds, b) == Target(ds, a) + 1
    decreases b - a
  {
    TargetsInOrder(ds, a, a + 1);
    if a + 1 < b {
      DroppedStays(ds, b - 1);
      if a + 1 == b - 1 {
      } else {
        TargetsWithoutGap(ds, a, b - 1);
      }
    }
    TargetStep(ds, a);
  }

  lemma {:induction false} TargetStep(ds: seq<int>, a: int)
    requires Increasing(ds)
    ensures Target(ds, a + 1) == Target(ds, a) + if a in ds then 0 else 1
  {
    hide Increasing;
    if ds != [] {
      var rest, d := ds[..|ds| - 1], ds[|ds| - 1];
      InRest(ds, a);
      TargetStep(rest, a);
    }
  }

  /** The last drop is above the others. */
  lemma InRest(ds: seq<int>, a: int)
    requires Increasing(ds) && ds != []
    ensures var rest, d := ds[..|ds| - 1], ds[|ds| - 1];
            && Increasing(rest) && (a in ds <==> a in rest || a == d) && !(a in rest && a == d)
  {
    assert ds == ds[..|ds| - 1] + [ds[|ds| - 1]];
  }

  lemma DroppedStays(ds: seq<int>, x: int)
    requires Increasing(ds) && x in ds
    ensures Target(ds, x + 1) == Target(ds, x)
  {
    TargetStep(ds, x);
  }

  /** Later drops do not change the image of an earlier number. */
  lemma TargetStable(ds: seq<int>, d: int, s: int)
    requires s <= d
    ensures Target(ds + [d], s) == Target(ds, s)
  {
    assert (ds + [d])[..|ds|] == ds;
  }

  // The truth

  datatype Interval = Interval(first: int, end: int, drops: int, pidDelta: u16)

  datatype Truth = Truth(next: int, drops: seq<int>, kept: seq<Interval>, pidDelta: u16)

  /** An interval holds no dropped number, and `drops` of them come before it. */
  ghost predicate IntervalOK(g: Truth, v: Interval) {
    && v.first < v.end <= g.next
    && 0 <= v.drops <= |g.drops|
    && (v.drops == 0 || g.drops[v.drops - 1] < v.first)
    && (v.drops == |g.drops| || v.end <= g.drops[v.drops])
  }

  ghost predicate Ordered(kept: seq<Interval>) {
    forall i, j :: 0 <= i < j < |kept| ==>
      kept[i].drops < kept[j].drops && kept[i].end + (kept[j].drops - kept[i].drops) <= kept[j].first
  }

  /** After the last interval there is nothing but drops. */
  ghost predicate TailOK(g: Truth) {
    g.kept != [] ==>
      var l := g.kept[|g.kept| - 1];
      && 0 <= l.drops <= |g.drops|
      && l.end + (|g.drops| - l.drops) == g.next
      && (forall k :: l.drops <= k < |g.drops| ==> g.drops[k] == l.end + (k - l.drops))
      && (l.drops == |g.drops| ==> l.pidDelta == g.pidDelta)
  }

  ghost predicate Coherent(g: Truth) {
    && Increasing(g.drops)
    && (forall k :: 0 <= k < |g.drops| ==> g.drops[k] < g.next)
    && (g.kept == [] ==> g.drops == [])
    && (forall i :: 0 <= i < |g.kept| ==> IntervalOK(g, g.kept[i]))
    && Ordered(g.kept)
    && TailOK(g)
  }

  /** All kept intervals start less than 2^15 behind the next number. */
  predicate Window(g: Truth) {
    g.kept != [] ==> g.next - g.kept[0].first < 0x8000
  }

  predicate Stands(e: Entry, v: Interval) {
    e.first == U16(v.first) && e.count == U16(v.end - v.first) && e.delta == U16(-v.drops) && e.pidDelta == v.pidDelta
  }

  ghost predicate Represents(m: Table, g: Truth) {
    && WellFormed(m)
    && m.next == U16(g.next) && m.delta == U16(-|g.drops|)
    && m.pidDelta == g.pidDelta
    && |m.entries| == |g.kept|
    && (forall i :: 0 <= i < |g.kept| ==> Stands(Chron(m)[i], g.kept[i]))
  }

  /** What an operation means: the lookup among the intervals. */
  function Find(kept: seq<Interval>, s: int): Option<int> {
    if kept == [] then None else
    var v := kept[|kept| - 1];
    if s < v.first then Find(kept[..|kept| - 1], s) else if s < v.end then Some(s - v.drops) else None
  }

  /** The picture-id delta of the interval that a lookup ends in. */
  function FindDelta(kept: seq<Interval>, s: int): u16 {
    if kept == [] then 0 else
    var v := kept[|kept| - 1];
    if s < v.first then FindDelta(kept[..|kept| - 1], s) else v.pidDelta
  }

  function Restarted(s: int): Truth { Truth(s + 1, [], [], 0) }

  function Keep(kept: seq<Interval>, v: Interval): seq<Interval> {
    if |kept| < MAX_ENTRIES then kept + [v] else kept[1..] + [v]
  }

  /** A number at or after the next one is forwarded: the last interval grows, or a new one follows the drops. */
  function Forward(g: Truth, s: int): Truth
    requires g.kept != []
  {
    var l := g.kept[|g.kept| - 1];
    if l.drops == |g.drops| then
      g.(next := s + 1, kept := g.kept[|g.kept| - 1 := l.(end := s + 1)])
    else
      var f := if |g.drops| - l.drops < MAX_JUMP then g.next else s;
      g.(next := s + 1, kept := Keep(g.kept, Interval(f, s + 1, |g.drops|, g.pidDelta)))
  }

  function TrueMap(g: Truth, s: int): (Truth, Option<int>) {
    if g.kept == [] then
      (if s >= g.next || g.next - s > MAX_JUMP then Restarted(s) else g, Some(s))
    else if s - g.next > MAX_JUMP || g.next - s > MAX_JUMP then
      (Restarted(s), Some(s))
    else if s >= g.next then
      (Forward(g, s), Some(s - |g.drops|))
    else
      (g, Find(g.kept, s))
  }

  /** The picture-id delta that goes with it. */
  function TrueDelta(g: Truth, s: int): u16 {
    if g.kept == [] || s - g.next > MAX_JUMP || g.next - s > MAX_JUMP then 0
    else if s >= g.next then g.pidDelta
    else FindDelta(g.kept, s)
  }

  function TrueDrop(g: Truth, pidDelta: u16): Truth {
    g.(next := g.next + 1, drops := g.drops + [g.next], pidDelta := pidDelta,
       kept := if g.kept == [] then [Interval(g.next - 8192, g.next, 0, 0)] else g.kept)
  }

  // The table does what the truth does

  lemma {:induction false} DirectFinds(es: seq<Entry>, kept: seq<Interval>, s: int)
    requires |es| == |kept| && forall i :: 0 <= i < |kept| ==> Stands(es[i], kept[i])
    requires forall i :: 0 <= i < |kept| ==> -0x8000 < s - kept[i].first < 0x8000 && -0x8000 < s - kept[i].end < 0x8000
    ensures var r, t := Direct(es, U16(s)), Find(kept, s);
            (r.ok <==> t.Some?) && (t.Some? ==> r.seqno == U16(t.value) && r.pidDelta == FindDelta(kept, s))
  {
    if kept != [] {
      var n := |kept| - 1;
      var v := kept[n];
      assert Stands(es[n], v);
      CompareNear(s, v.first);
      U16Both(v.first, v.end - v.first);
      CompareNear(s, v.end);
      U16Both(s, -v.drops);
      DirectFinds(es[..n], kept[..n], s);
    }
  }

  // The ring in order, after the last entry grew or another one was made

  lemma RingLast(es: seq<Entry>, l: nat, e: Entry)
    requires l < |es|
    ensures Ring(es, l)[|es| - 1] == es[l]
    ensures Ring(es[l := e], l) == Ring(es, l)[|es| - 1 := e]
  {
  }

  lemma RingGrow(es: seq<Entry>, e: Entry)
    requires es != []
    ensures Ring(es + [e], |es|) == Ring(es, |es| - 1) + [e]
  {
    assert es[|es|..] == [] && es[..|es|] == es;
  }

  lemma RingReplaceOldest(es: seq<Entry>, l: nat, e: Entry)
    requires l < |es|
    ensures var j := if l + 1 == |es| then 0 else l + 1;
            Ring(es[j := e], j) == Ring(es, l)[1..] + [e]
  {
    if l + 1 < |es| {
      RingReplaceNext(es, l, e);
    } else {
      assert es[l + 1..] == [] && Ring(es, l) == es;
      assert es[0 := e][1..] == es[1..] && es[0 := e][..1] == [e];
    }
  }

  lemma RingReplaceNext(es: seq<Entry>, l: nat, e: Entry)
    requires l + 1 < |es|
    ensures Ring(es[l + 1 := e], l + 1) == Ring(es, l)[1..] + [e]
  {
    var es' := es[l + 1 := e];
    assert es'[l + 2..] == es[l + 2..] && es'[..l + 2] == es[..l + 1] + [e];
    assert Ring(es, l)[1..] == es[l + 2..] + es[..l + 1];
  }

  /** The 16-bit computation of where a fresh interval starts. */
  lemma AfterDrops(first: int, count: int, before: int, now: int)
    requires 0 <= now - before < 0x1_0000
    ensures U16(U16(-before) - U16(-now)) == now - before
    ensures U16(U16(first) + U16(count) + (now - before)) == U16(first + count + (now - before))
  {
    U16Both(-before, -now);
    U16Shift(first, U16(count) + (now - before));
    U16Shift(count, first + (now - before));
  }

  lemma CountIs(first: int, s: int)
    ensures U16(U16(s) - U16(first) + 1) == U16(s + 1 - first)
  {
    U16Shift(s, 1 - U16(first));
    U16Shift(first, s + 1);
  }

  lemma LastStart(g: Truth)
    requires Coherent(g) && Window(g) && g.kept != []
    ensures var l := g.kept[|g.kept| - 1];
            && g.kept[0].first <= l.first < l.end && g.next - l.first < 0x8000
            && 0 <= |g.drops| - l.drops < 0x8000 && l.end + (|g.drops| - l.drops) == g.next
  {
    var n := |g.kept| - 1;
    assert IntervalOK(g, g.kept[0]) && IntervalOK(g, g.kept[n]);
    if n > 0 {
      assert g.kept[0].end + (g.kept[n].drops - g.kept[0].drops) <= g.kept[n].first;
    }
  }

  /** Where a fresh interval starts: right after the drops, unless they are too many to tell. */
  lemma NewEntryStands(g: Truth, last: Entry, s: int)
    requires Coherent(g) && Window(g) && g.kept != []
    requires Stands(last, g.kept[|g.kept| - 1])
    requires g.next <= s <= g.next + MAX_JUMP
    ensures var l := g.kept[|g.kept| - 1];
            var d := |g.drops| - l.drops;
            && (U16(-|g.drops|) == last.delta <==> d == 0)
            && Stands(NewEntry(last, U16(s), U16(-|g.drops|), g.pidDelta),
                      Interval(if d < MAX_JUMP then g.next else s, s + 1, |g.drops|, g.pidDelta))
  {
    hide Coherent, Window, U16, Compare;
    LastStart(g);
    var l := g.kept[|g.kept| - 1];
    AfterDrops(l.first, l.end - l.first, l.drops, |g.drops|);
    U16Zero(last.delta, U16(-|g.drops|));
    CompareNear(g.next, s);
    CountIs(g.next, s);
    CountIs(s, s);
  }

  lemma U16Zero(a: u16, b: u16)
    ensures U16(a - b) == 0 <==> a == b
  {
  }

  lemma ForwardRefines(m: Table, g: Truth, s: int, pid: u16)
    requires Represents(m, g) && Coherent(g) && Window(g) && g.kept != []
    requires g.next <= s <= g.next + MAX_JUMP
    ensures Represents(AddMapping(m, U16(s)).(next := U16(U16(s) + 1), nextPid := pid), Forward(g, s))
    ensures U16(U16(s) + m.delta) == U16(s - |g.drops|)
  {
    hide Ring, U16, Compare, NewEntry, Coherent, Window, AddMapping, Forward;
    LastEntryStands(m, g);
    LastStart(g);
    NewEntryStands(g, m.entries[m.lastEntry], s);
    U16Shift(s, 1);
    U16Both(s, -|g.drops|);
    CountIs(g.kept[|g.kept| - 1].first, s);
    LastPid(g);
    ForwardStands(m, g, s, pid);
  }

  lemma LastEntryStands(m: Table, g: Truth)
    requires Represents(m, g) && g.kept != []
    ensures Stands(m.entries[m.lastEntry], g.kept[|g.kept| - 1])
  {
    RingLast(m.entries, m.lastEntry, m.entries[m.lastEntry]);
    hide Stands, Ring;
    assert Stands(Chron(m)[|g.kept| - 1], g.kept[|g.kept| - 1]);
  }

  lemma LastPid(g: Truth)
    requires Coherent(g) && g.kept != []
    ensures var l := g.kept[|g.kept| - 1]; l.drops == |g.drops| ==> l.pidDelta == g.pidDelta
  {
  }

  lemma ForwardStands(m: Table, g: Truth, s: int, pid: u16)
    requires Represents(m, g) && g.kept != []
    requires var last, l := m.entries[m.lastEntry], g.kept[|g.kept| - 1];
             var e := NewEntry(last, U16(s), m.delta, m.pidDelta);
             && (m.delta == last.delta <==> l.drops == |g.drops|)
             && (l.drops == |g.drops| ==> m.pidDelta == last.pidDelta)
             && U16(U16(s) + 1) == U16(s + 1)
             && Stands(last.(count := U16(U16(s) - last.first + 1)), l.(end := s + 1))
             && Stands(e, Interval(if |g.drops| - l.drops < MAX_JUMP then g.next else s, s + 1, |g.drops|, g.pidDelta))
    ensures Represents(AddMapping(m, U16(s)).(next := U16(U16(s) + 1), nextPid := pid), Forward(g, s))
  {
    hide U16, Compare, NewEntry, Stands, Ring;
    var last := m.entries[m.lastEntry];
    RingLast(m.entries, m.lastEntry, last.(count := U16(U16(s) - last.first + 1)));
    if m.delta != last.delta {
      var e := NewEntry(last, U16(s), m.delta, m.pidDelta);
      if |m.entries| < MAX_ENTRIES {
        RingGrow(m.entries, e);
      } else {
        RingReplaceOldest(m.entries, m.lastEntry, e);
      }
    }
  }

  lemma ResetRepresents(s: int, pid: u16)
    ensures Represents(EMPTY.(next := U16(U16(s) + 1), nextPid := pid), Restarted(s))
    ensures Coherent(Restarted(s))
  {
    U16Shift(s, 1);
  }

  /** The 16-bit tests of Map say where the true number lies. */
  lemma Branches(next: int, s: int)
    requires next - 0x8000 <= s < next + 0x8000
    ensures Compare(U16(next), U16(s)) <= 0 <==> s >= next
    ensures s >= next ==> U16(U16(s) - U16(next)) == s - next
    ensures s < next ==> U16(U16(next) - U16(s)) == next - s
  {
    U16Both(s, next);
    U16Both(next, s);
    if s == next - 0x8000 {
      CompareOpposite(next, s);
    } else {
      CompareNear(next, s);
    }
  }

  /** Map on the table is Map on the truth: the same number, modulo 2^16, and delta, or none on both sides. */
  lemma MapRefines(m: Table, g: Truth, seqno: u16, pid: u16)
    requires Represents(m, g) && Coherent(g) && Window(g)
    ensures var (m', r), (g', t) := MapSeqno(m, seqno, pid), TrueMap(g, Unwrap(seqno, g.next));
            && Represents(m', g')
            && (r.ok <==> t.Some?)
            && (t.Some? ==> r.seqno == U16(t.value) && r.pidDelta == TrueDelta(g, Unwrap(seqno, g.next)))
  {
    hide U16, Compare, Unwrap, Coherent, Window, Ring, Stands, Direct, Find, FindDelta, AddMapping, Forward;
    var s := Unwrap(seqno, g.next);
    ResetRepresents(s, pid);
    Branches(g.next, s);
    if g.kept != [] && 0 <= s - g.next <= MAX_JUMP {
      ForwardRefines(m, g, s, pid);
    } else if g.kept != [] && 0 < g.next - s <= MAX_JUMP {
      IntervalsNear(g, s);
      DirectFinds(Chron(m), g.kept, s);
    }
  }

  /** Inside the window, every kept interval is close enough to compare. */
  lemma IntervalsNear(g: Truth, s: int)
    requires Coherent(g) && Window(g) && g.next - MAX_JUMP <= s <= g.next
    ensures forall i :: 0 <= i < |g.kept| ==>
              -0x8000 < s - g.kept[i].first < 0x8000 && -0x8000 < s - g.kept[i].end < 0x8000
  {
    forall i | 0 <= i < |g.kept|
      ensures -0x8000 < s - g.kept[i].first < 0x8000 && -0x8000 < s - g.kept[i].end < 0x8000
    {
      assert IntervalOK(g, g.kept[0]) && IntervalOK(g, g.kept[i]);
      if i > 0 {
        assert g.kept[0].end + (g.kept[i].drops - g.kept[0].drops) <= g.kept[i].first;
      }
    }
  }

  /** Drop on the table is a drop of the very next number, and refuses any other. */
  lemma DropRefines(m: Table, g: Truth, seqno: u16, pid: u16)
    requires Represents(m, g) && Coherent(g)
    ensures var (m', ok) := DropSeqno(m, seqno, pid);
            && (ok <==> Unwrap(seqno, g.next) == g.next)
            && (ok ==> Represents(m', TrueDrop(g, m'.pidDelta)))
            && (!ok ==> m' == m)
  {
    UnwrapUnique(g.next, g.next);
    var (m', ok) := DropSeqno(m, seqno, pid);
    if ok {
      U16Shift(g.next, 1);
      U16Shift(-|g.drops|, -1);
      if g.kept == [] {
        U16Shift(g.next, -8192);
        RingLast(m'.entries, 0, m'.entries[0]);
      }
    }
  }

  // The truth stays coherent

  lemma DropCoherent(g: Truth, pidDelta: u16)
    requires Coherent(g)
    ensures Coherent(TrueDrop(g, pidDelta))
  {
    hide IntervalOK, TailOK;
    DropIntervals(g, pidDelta);
    DropTail(g, pidDelta);
  }

  lemma DropIntervals(g: Truth, pidDelta: u16)
    requires Coherent(g)
    ensures var g' := TrueDrop(g, pidDelta); forall i :: 0 <= i < |g'.kept| ==> IntervalOK(g', g'.kept[i])
  {
    hide Increasing, TailOK, Ordered;
    var g' := TrueDrop(g, pidDelta);
    forall i | 0 <= i < |g'.kept| ensures IntervalOK(g', g'.kept[i]) {
      if g.kept != [] {
        assert IntervalOK(g, g.kept[i]);
      }
    }
  }

  lemma DropTail(g: Truth, pidDelta: u16)
    requires TailOK(g) && (g.kept == [] ==> g.drops == [])
    ensures TailOK(TrueDrop(g, pidDelta))
  {
  }

  lemma ForwardCoherent(g: Truth, s: int)
    requires Coherent(g) && g.kept != [] && g.next <= s
    ensures Coherent(Forward(g, s))
  {
    hide Increasing, Ordered, IntervalOK, TailOK;
    if g.kept[|g.kept| - 1].drops == |g.drops| {
      GrowCoherent(g, s);
    } else {
      NewCoherent(g, s);
    }
  }

  lemma GrowCoherent(g: Truth, s: int)
    requires Coherent(g) && g.kept != [] && g.next <= s && g.kept[|g.kept| - 1].drops == |g.drops|
    ensures Coherent(Forward(g, s))
  {
    hide Increasing;
    var g' := Forward(g, s);
    forall i | 0 <= i < |g'.kept| ensures IntervalOK(g', g'.kept[i]) {
      assert IntervalOK(g, g.kept[i]);
    }
  }

  lemma NewCoherent(g: Truth, s: int)
    requires Coherent(g) && g.kept != [] && g.next <= s && g.kept[|g.kept| - 1].drops != |g.drops|
    ensures Coherent(Forward(g, s))
  {
    hide Increasing, Ordered;
    var g', l := Forward(g, s), g.kept[|g.kept| - 1];
    var v := Interval(if |g.drops| - l.drops < MAX_JUMP then g.next else s, s + 1, |g.drops|, g.pidDelta);
    assert IntervalOK(g, l) && IntervalOK(g', v);
    KeepOrdered(g, v);
    forall i | 0 <= i < |g'.kept| ensures IntervalOK(g', g'.kept[i]) {
      if i < |g'.kept| - 1 {
        var j := i + |g.kept| + 1 - |g'.kept|;
        assert IntervalOK(g, g.kept[j]) && g'.kept[i] == g.kept[j];
      }
    }
  }

  lemma OrderedAppend(kept: seq<Interval>, v: Interval)
    requires Ordered(kept) && kept != []
    requires var l := kept[|kept| - 1]; l.drops < v.drops && l.first < l.end && l.end + (v.drops - l.drops) <= v.first
    ensures Ordered(kept + [v])
  {
    var l := kept[|kept| - 1];
    forall i | 0 <= i < |kept| ensures kept[i].drops < v.drops && kept[i].end + (v.drops - kept[i].drops) <= v.first {
      assert i == |kept| - 1 ||
             (kept[i].drops < l.drops && kept[i].end + (l.drops - kept[i].drops) <= l.first);
    }
  }

  lemma KeepOrdered(g: Truth, v: Interval)
    requires Coherent(g) && g.kept != []
    requires v.first >= g.next && v.drops == |g.drops| > g.kept[|g.kept| - 1].drops
    ensures Ordered(Keep(g.kept, v))
  {
    hide Increasing, Ordered;
    assert IntervalOK(g, g.kept[|g.kept| - 1]);
    OrderedAppend(g.kept, v);
    OrderedTail(g.kept + [v]);
    assert (g.kept + [v])[1..] == g.kept[1..] + [v];
  }

  lemma OrderedTail(kept: seq<Interval>)
    requires Ordered(kept) && kept != []
    ensures Ordered(kept[1..])
  {
    forall i, j | 0 <= i < j < |kept[1..]|
      ensures kept[1..][i].drops < kept[1..][j].drops &&
              kept[1..][i].end + (kept[1..][j].drops - kept[1..][i].drops) <= kept[1..][j].first {
      assert kept[1..][i] == kept[i + 1] && kept[1..][j] == kept[j + 1];
    }
  }

  lemma MapCoherent(g: Truth, s: int)
    requires Coherent(g)
    ensures Coherent(TrueMap(g, s).0)
  {
    if g.kept != [] && g.next <= s {
      ForwardCoherent(g, s);
    }
  }

  // What lookups find

  ghost predicate Covered(kept: seq<Interval>, s: int) {
    exists i :: 0 <= i < |kept| && kept[i].first <= s < kept[i].end
  }

  lemma InIntervalTarget(g: Truth, i: nat, s: int)
    requires Coherent(g) && i < |g.kept| && g.kept[i].first <= s < g.kept[i].end
    ensures s - g.kept[i].drops == Target(g.drops, s) && s !in g.drops && s < g.next
  {
    var v := g.kept[i];
    assert IntervalOK(g, v);
    DropsBelowIs(g.drops, s, v.drops);
    forall k | 0 <= k < |g.drops| ensures g.drops[k] != s {
      if k < v.drops {
        assert k == v.drops - 1 || g.drops[k] < g.drops[v.drops - 1];
      } else {
        assert k == v.drops || g.drops[v.drops] < g.drops[k];
      }
    }
  }

  lemma {:induction false} FindWhere(kept: seq<Interval>, s: int) returns (i: nat)
    ensures Find(kept, s).Some? ==>
              i < |kept| && kept[i].first <= s < kept[i].end && Find(kept, s).value == s - kept[i].drops
  {
    i := 0;
    if kept != [] {
      var n := |kept| - 1;
      if s < kept[n].first {
        i := FindWhere(kept[..n], s);
      } else {
        i := n;
      }
    }
  }

  lemma {:induction false} FindThere(kept: seq<Interval>, s: int, i: nat)
    requires Ordered(kept) && i < |kept| && kept[i].first <= s < kept[i].end
    ensures Find(kept, s) == Some(s - kept[i].drops)
  {
    var n := |kept| - 1;
    if i < n {
      assert kept[i].end + (kept[n].drops - kept[i].drops) <= kept[n].first;
      FindThere(kept[..n], s, i);
    }
  }

  /** A lookup finds exactly the covered numbers, and gives each its image. */
  lemma FindsTarget(g: Truth, s: int)
    requires Coherent(g)
    ensures Find(g.kept, s).Some? <==> Covered(g.kept, s)
    ensures Find(g.kept, s).Some? ==> Find(g.kept, s).value == Target(g.drops, s) && s !in g.drops && s < g.next
  {
    var i := FindWhere(g.kept, s);
    if Find(g.kept, s).Some? {
      InIntervalTarget(g, i, s);
    }
    if Covered(g.kept, s) {
      var j :| 0 <= j < |g.kept| && g.kept[j].first <= s < g.kept[j].end;
      FindThere(g.kept, s, j);
    }
  }
}
