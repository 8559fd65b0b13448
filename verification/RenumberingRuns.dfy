/**
 * What the renumbering leaves out, over whole runs: nothing while bursts of drops stay
 * short and the window condition holds; and what happens when either does not.
 */
module RenumberingRuns {
  import opened Seqno
  import opened PacketMap
  import opened PacketMapSpec
  import opened Renumbering

  /** The operation forwards a new number, after fewer than 8192 drops or right after the last number. */
  predicate SmallStep(r: Run, op: Op) {
    r.fits && op.MapOp? && r.truth.kept != [] ==>
      var s := Unwrap(op.seqno, r.truth.next);
      0 <= s - r.truth.next <= MAX_JUMP ==> Burst(r.truth) < MAX_JUMP || s == r.truth.next
  }

  /** Every packet forwarded in the run meets that. */
  predicate SmallBursts(ops: seq<Op>) {
    forall i {:trigger ops[i]} :: 0 <= i < |ops| ==> SmallStep(Exec(ops[..i]), ops[i])
  }

  lemma StepSeamless(r: Run, op: Op)
    requires RunOK(r) && WellFormed(r.table) && SmallStep(r, op)
    requires r.fits ==> Seamless(r.truth.kept)
    ensures Step(r, op).fits ==> Seamless(Step(r, op).truth.kept)
  {
    hide Represents, Coherent, Window, SentOK, Seamless, MapSeqno, DropSeqno, Forward, Unwrap;
    NoneSeamless();
    if r.fits {
      match op {
        case MapOp(seqno, _) =>
          var s := Unwrap(seqno, r.truth.next);
          if r.truth.kept != [] && 0 <= s - r.truth.next <= MAX_JUMP {
            ForwardSeamless(r.truth, s);
          }
        case DropOp(seqno, pid) =>
          DropOpensNoGap(r.truth, DropSeqno(r.table, seqno, pid).0.pidDelta);
      }
    }
  }

  lemma NoneSeamless()
    ensures Seamless([])
  {
  }

  lemma {:induction false} RunsSeamless(ops: seq<Op>)
    requires SmallBursts(ops)
    ensures Exec(ops).fits ==> Seamless(Exec(ops).truth.kept)
  {
    hide RunOK, Step, SmallStep, Seamless;
    if ops == [] {
      NoneSeamless();
    } else {
      var before := ops[..|ops| - 1];
      forall i | 0 <= i < |before| ensures SmallStep(Exec(before[..i]), before[i]) {
        assert before[..i] == ops[..i] && before[i] == ops[i];
      }
      RunsSeamless(before);
      RunsOK(before);
      StepSeamless(Exec(before), ops[|ops| - 1]);
    }
  }

  /**
   * Over every run inside the window whose bursts of drops before a forwarded packet stay below 8192:
   * every number that was not dropped, from the first kept interval up to the next number, is mapped
   * to its image, forwarded before or not, and asking leaves the table as it is.
   */
  lemma EveryUndroppedNumberIsMapped(ops: seq<Op>, s: int, pid: u16)
    requires SmallBursts(ops)
    requires var r := Exec(ops);
             && r.fits && r.truth.kept != [] && s !in r.truth.drops
             && r.truth.kept[0].first <= s < r.truth.next && r.truth.next - s <= MAX_JUMP
    ensures var r := Exec(ops);
            var (m', answer) := MapSeqno(r.table, U16(s), pid);
            m' == r.table && answer.ok && answer.seqno == U16(Target(r.truth.drops, s))
  {
    hide Exec, SmallBursts, SentOK, Coherent, Represents, Window, U16, MapSeqno, Seamless, Covered, Target, Find;
    var r := Exec(ops);
    RunsOK(ops);
    RunsSeamless(ops);
    NothingLeftOut(r.truth, s, |r.truth.kept|);
    FindsTarget(r.truth, s);
    UnwrapUnique(s, r.truth.next);
    MapRefines(r.table, r.truth, U16(s), pid);
    LookupKeepsTable(r.table, r.truth, s, pid);
  }

  /** A number at most 8192 behind is looked up, and the table stays as it is. */
  lemma LookupKeepsTable(m: Table, g: Truth, s: int, pid: u16)
    requires Represents(m, g) && g.kept != [] && 0 < g.next - s <= MAX_JUMP
    ensures MapSeqno(m, U16(s), pid) == (m, Direct(Chron(m), U16(s)))
  {
    hide U16, Compare, Direct, Stands, Ring;
    Branches(g.next, s);
  }

  // Beyond the window

  /**
   * Within the last interval the lookup does not need the window: a number at most 8192 behind is
   * answered with its image exactly if it lies at most 2^15, modulo 2^16, after the start of the interval.
   */
  lemma LastIntervalIff(m: Table, g: Truth, s: int, pid: u16)
    requires Represents(m, g) && Coherent(g) && g.kept != []
    requires var l := g.kept[|g.kept| - 1];
             l.first <= s < l.end && g.next - s <= MAX_JUMP && l.drops - g.kept[0].drops < 0x1_0000
    ensures var (m', r) := MapSeqno(m, U16(s), pid);
            && m' == m
            && (r.ok && r.seqno == U16(Target(g.drops, s)) <==> U16(s - g.kept[|g.kept| - 1].first) <= 0x8000)
  {
    hide Compare, Stands, Ring, Coherent, Direct, Target;
    var n := |g.kept| - 1;
    var l := g.kept[n];
    InIntervalTarget(g, n, s);
    LookupKeepsTable(m, g, s, pid);
    LastEnds(g);
    CoherentOrdered(g);
    LastAnswer(Chron(m), g, s);
  }

  lemma CompareFar(a: int, b: int)
    ensures Compare(U16(a), U16(b)) >= 0 <==> U16(a - b) <= 0x8000
  {
    U16Both(b, a);
    U16Both(a, b);
    Opposite(a - b);
  }

  lemma Opposite(d: int)
    ensures U16(-d) == if U16(d) == 0 then 0 else 0x1_0000 - U16(d)
  {
  }

  lemma LastAnswer(es: seq<Entry>, g: Truth, s: int)
    requires |es| == |g.kept| && forall i :: 0 <= i < |g.kept| ==> Stands(es[i], g.kept[i])
    requires Ordered(g.kept) && g.kept != []
    requires var l := g.kept[|g.kept| - 1];
             l.first <= s < l.end && l.end - s <= MAX_JUMP && l.drops - g.kept[0].drops < 0x1_0000
    ensures var r, l := Direct(es, U16(s)), g.kept[|g.kept| - 1];
            r.ok && r.seqno == U16(s - l.drops) <==> U16(s - l.first) <= 0x8000
  {
    hide U16, Compare, Ordered;
    var n := |g.kept| - 1;
    var l := g.kept[n];
    assert Stands(es[n], l);
    CompareFar(s, l.first);
    U16Both(l.first, l.end - l.first);
    CompareNear(s, l.end);
    U16Both(s, -l.drops);
    if U16(s - l.first) > 0x8000 {
      var j := OlderAnswer(es[..n], g.kept[..n], s);
      if Direct(es[..n], U16(s)).ok {
        OlderDiffers(g, s, j);
      }
    }
  }

  /** What an older interval answers is off by the drops in between. */
  lemma {:induction false} OlderAnswer(es: seq<Entry>, kept: seq<Interval>, s: int) returns (j: nat)
    requires |es| == |kept| && forall i :: 0 <= i < |kept| ==> Stands(es[i], kept[i])
    ensures Direct(es, U16(s)).ok ==> j < |kept| && Direct(es, U16(s)).seqno == U16(s - kept[j].drops)
  {
    hide Compare, U16;
    j := 0;
    if kept != [] {
      var n := |kept| - 1;
      assert Stands(es[n], kept[n]);
      U16Both(s, -kept[n].drops);
      if Compare(U16(s), es[n].first) >= 0 {
        j := n;
      } else {
        j := OlderAnswer(es[..n], kept[..n], s);
      }
    }
  }

  lemma OlderDiffers(g: Truth, s: int, j: nat)
    requires Ordered(g.kept) && j < |g.kept| - 1
    requires g.kept[|g.kept| - 1].drops - g.kept[0].drops < 0x1_0000
    ensures U16(s - g.kept[j].drops) != U16(s - g.kept[|g.kept| - 1].drops)
  {
    assert j == 0 || g.kept[0].drops < g.kept[j].drops;
    U16Apart(s - g.kept[|g.kept| - 1].drops, s - g.kept[j].drops);
  }

  /** One packet, a drop, and then packets in order up to number n. */
  function DropAndOn(n: nat): seq<Op>
    requires 1 <= n < 0x1_0000
  {
    if n == 1 then [MapOp(0, 0), DropOp(1, 0)] else DropAndOn(n - 1) + [MapOp(n, 0)]
  }

  /** The table then: the last interval starts at 2 and has grown up to n. */
  function LongTable(n: nat): Table
    requires 2 <= n < 0xffff
  {
    Table(n + 1, 0, 0xffff, 0, 1, [Entry(57345, 8192, 0, 0), Entry(2, n - 1, 0xffff, 0)])
  }

  lemma LongStart()
    ensures Exec(DropAndOn(1)).table == Table(2, 0, 0xffff, 0, 0, [Entry(57345, 8192, 0, 0)])
  {
    var ops := DropAndOn(1);
    assert ops[..1] == [MapOp(0, 0)] && [MapOp(0, 0)][..0] == [];
    assert Exec([MapOp(0, 0)]).table == Table(1, 0, 0, 0, 0, []);
    assert Exec(ops) == Renumbering.Step(Exec([MapOp(0, 0)]), DropOp(1, 0));
  }

  lemma StepTable(r: Run, seqno: u16)
    requires WellFormed(r.table)
    ensures Renumbering.Step(r, MapOp(seqno, 0)).table == MapSeqno(r.table, seqno, 0).0
  {
    hide TrueMap, Unwrap, Window, MapSeqno, WellFormed, Restarts;
  }

  lemma LongStep(n: nat)
    requires 2 <= n < 0xffff
    ensures n == 2 ==> MapSeqno(Table(2, 0, 0xffff, 0, 0, [Entry(57345, 8192, 0, 0)]), 2, 0) == (LongTable(2), Mapped(true, 1, 0))
    ensures n > 2 ==> MapSeqno(LongTable(n - 1), n, 0) == (LongTable(n), Mapped(true, n - 1, 0))
  {
    hide Ring;
    if n == 2 {
      assert NewEntry(Entry(57345, 8192, 0, 0), 2, 0xffff, 0) == Entry(2, 1, 0xffff, 0);
      assert [Entry(57345, 8192, 0, 0)] + [Entry(2, 1, 0xffff, 0)] == LongTable(2).entries;
    } else {
      var m := LongTable(n - 1);
      assert U16(n + 0xffff) == n - 1 && U16(n - 2 + 1) == n - 1 && U16(n + 1) == n + 1;
      assert m.entries[1 := m.entries[1].(count := n - 1)] == LongTable(n).entries;
      assert AddMapping(m, n) == m.(entries := LongTable(n).entries);
    }
  }

  lemma {:induction false} LongRun(n: nat)
    requires 2 <= n < 0xffff
    ensures Exec(DropAndOn(n)).table == LongTable(n)
  {
    hide Renumbering.Step, MapSeqno, LongTable, WellFormed;
    var before := DropAndOn(n - 1);
    assert (before + [MapOp(n, 0)])[..|before|] == before;
    if n == 2 {
      LongStart();
    } else {
      LongRun(n - 1);
    }
    StepTable(Exec(before), n);
    LongStep(n);
  }

  /** What that table stands for, inside the window and beyond it. */
  function LongTruth(n: nat): Truth {
    Truth(n + 1, [1], [Interval(-8191, 1, 0, 0), Interval(2, n + 1, 1, 0)], 0)
  }

  lemma LongRepresents(n: nat)
    requires 2 <= n < 0xffff
    ensures Represents(LongTable(n), LongTruth(n)) && Coherent(LongTruth(n))
  {
    assert Ring(LongTable(n).entries, 1) == LongTable(n).entries;
  }

  /** So on that run the last number is still found exactly up to 32770. */
  lemma LastFoundIff(n: nat)
    requires 2 <= n < 0xffff
    ensures var m := Exec(DropAndOn(n)).table;
            MapSeqno(m, n, 0).1.ok && MapSeqno(m, n, 0).1.seqno == n - 1 <==> n <= 32770
  {
    hide Exec, DropAndOn, MapSeqno, LongTable, Represents, Coherent;
    LongRun(n);
    LongRepresents(n);
    LastIntervalIff(LongTable(n), LongTruth(n), n, 0);
    DropsBelowIs([1], n, 1);
  }

  /**
   * On that run number 40000 is forwarded under 39999, and is then not found any more, although it
   * was the last one; 32770 was the last to be found.
   */
  lemma BeyondTheWindow()
    ensures MapSeqno(Exec(DropAndOn(39999)).table, 40000, 0).1 == Mapped(true, 39999, 0)
    ensures var m := Exec(DropAndOn(40000)).table; MapSeqno(m, 40000, 0) == (m, UNMAPPED)
    ensures var m := Exec(DropAndOn(32770)).table; MapSeqno(m, 32770, 0) == (m, Mapped(true, 32769, 0))
  {
    hide DropAndOn, Exec, MapSeqno, LongTable, WellFormed;
    LongRun(40000);
    LongRun(39999);
    LongRun(32770);
    LongStep(40000);
    LongLookup(40000);
    LongLookup(32770);
  }

  lemma LongLookup(n: nat)
    requires 32770 <= n < 0xe000
    ensures MapSeqno(LongTable(n), n, 0) == (LongTable(n), if n == 32770 then Mapped(true, n - 1, 0) else UNMAPPED)
  {
    var es := LongTable(n).entries;
    assert Ring(es, 1) == es;
    assert es[..1] == [es[0]] && [es[0]][..0] == [];
    assert Direct([es[0]], n) == UNMAPPED;
  }

  /** A NACK for a packet more than 8192 behind: Reverse finds it, and answering it resets the table. */
  lemma OldNackResets()
    ensures var m := Exec([MapOp(8191, 0), DropOp(8192, 0)]).table;
            && m.entries != []
            && Reverse(m, 0).ok && Reverse(m, 0).seqno == 0
            && Write(m, false, 0, 0) == (EMPTY.(next := 1), Mapped(true, 0, 0))
  {
    var a: seq<Op> := [MapOp(8191, 0)];
    var ops: seq<Op> := [MapOp(8191, 0), DropOp(8192, 0)];
    assert ops[..1] == a && a[..0] == [];
    assert Exec(a).table == Table(8192, 0, 0, 0, 0, []);
    assert Exec(ops) == Renumbering.Step(Exec(a), DropOp(8192, 0));
    var m := Exec(ops).table;
    assert m == Table(8193, 0, 0xffff, 0, 0, [Entry(0, 8192, 0, 0)]);
    assert Ring(m.entries, 0) == m.entries;
  }
}
