/**
 * The reception statistics of a packet cache (packetcache/packetcache.go): the
 * extended highest sequence number (section 6.4.1 of RFC 3550), and how many
 * packets were expected and received, in 32-bit counters.
 */
module ReceiveStats {
  import opened Seqno
  import LossBitmap

  const WRAP32: int := 0x1_0000_0000

  type u32 = x: int | 0 <= x < WRAP32

  function U32(x: int): u32 { x % WRAP32 }

  datatype Stats = Stats(
    last: u16, cycle: u16, lastValid: bool,
    expected: u32, totalExpected: u32, received: u32, totalReceived: u32
  )

  const FRESH: Stats := Stats(0, 0, false, 0, 0, 0, 0)

  /** What Store does to the statistics. */
  function Stored(st: Stats, seqno: u16): Stats {
    if !st.lastValid || LossBitmap.SeqnoInvalid(seqno, st.last) then
      st.(last := seqno, lastValid := true, expected := U32(st.expected + 1), received := U32(st.received + 1))
    else if Compare(st.last, seqno) < 0 then
      st.(received := U32(st.received + 1), expected := U32(st.expected + U16(seqno - st.last)),
          cycle := if seqno < st.last then U16(st.cycle + 1) else st.cycle, last := seqno)
    else if Compare(st.last, seqno) > 0 && st.received < st.expected then
      st.(received := U32(st.received + 1))
    else
      st
  }

  function Expect(st: Stats, n: int): Stats {
    if n <= 0 then st else st.(expected := U32(st.expected + n))
  }

  datatype Report = Report(received: u32, totalReceived: u32, expected: u32, totalExpected: u32, eseqno: u32)

  function GetStats(st: Stats, reset: bool): (Stats, Report) {
    (if reset then
       st.(totalExpected := U32(st.totalExpected + st.expected), expected := 0,
           totalReceived := U32(st.totalReceived + st.received), received := 0)
     else st,
     Report(st.received, U32(st.totalReceived + st.received), st.expected, U32(st.totalExpected + st.expected),
            st.cycle * 0x1_0000 + st.last))
  }

  // Runs

  datatype Op = StoreOp(seqno: u16) | ExpectOp(n: int) | StatsOp(reset: bool)

  /**
   * The statistics beside unbounded ones: the highest number received, and the counters of the
   * current interval and of those before it.  `steady` says that no packet came from far behind
   * across a cycle boundary, `fits` that no counter has passed 32 bits.
   */
  datatype Run = Run(
    st: Stats, highest: int, expected: nat, received: nat, pastExpected: nat, pastReceived: nat,
    steady: bool, fits: bool
  )

  function Start(): Run { Run(FRESH, 0, 0, 0, 0, 0, true, true) }

  predicate FarBack(r: Run, s: int) {
    r.highest - s > 0x100
  }

  function Fit(r: Run): Run {
    r.(fits := r.fits && r.expected + r.pastExpected < WRAP32)
  }

  function StoreStep(r: Run, seqno: u16): Run {
    var st := Stored(r.st, seqno);
    var s := Unwrap(seqno, r.highest);
    if !r.st.lastValid then
      r.(st := st, highest := seqno, expected := r.expected + 1, received := r.received + 1)
    else if FarBack(r, s) then
      r.(st := st, highest := s, expected := r.expected + 1, received := r.received + 1,
         steady := r.steady && seqno < r.st.last)
    else if s > r.highest then
      r.(st := st, highest := s, expected := r.expected + (s - r.highest), received := r.received + 1)
    else if s < r.highest && r.received < r.expected then
      r.(st := st, received := r.received + 1)
    else
      r.(st := st)
  }

  function Step(r: Run, op: Op): Run {
    match op
    case StoreOp(seqno) => Fit(StoreStep(r, seqno))
    case ExpectOp(n) => Fit(r.(st := Expect(r.st, n), expected := if n <= 0 then r.expected else r.expected + n))
    case StatsOp(reset) =>
      if reset then
        r.(st := GetStats(r.st, reset).0, expected := 0, received := 0,
           pastExpected := r.pastExpected + r.expected, pastReceived := r.pastReceived + r.received)
      else r
  }

  function Exec(ops: seq<Op>): Run {
    if ops == [] then Start() else Step(Exec(ops[..|ops| - 1]), ops[|ops| - 1])
  }

  ghost predicate SeqnoOK(r: Run) {
    && r.st.last == U16(r.highest)
    && (r.steady ==> U32(r.st.cycle * 0x1_0000 + r.st.last) == U32(r.highest))
  }

  ghost predicate CountsOK(r: Run) {
    && r.received <= r.expected && r.pastReceived <= r.pastExpected
    && (r.fits ==>
          && r.expected + r.pastExpected < WRAP32
          && r.st.expected == r.expected && r.st.received == r.received
          && r.st.totalExpected == r.pastExpected && r.st.totalReceived == r.pastReceived)
  }

  lemma U32Same(a: int, b: int, d: int)
    requires U32(a) == U32(b)
    ensures U32(a + d) == U32(b + d)
  {
    var k := (a - b) / WRAP32;
    assert a == b + WRAP32 * k;
    U32Period(b + d, k);
  }

  lemma U32Period(x: int, k: int)
    ensures U32(x + WRAP32 * k) == U32(x)
  {
  }

  /** Moving forward by less than 2^15: the cycle counts the wraps. */
  lemma CycleForward(cycle: u16, highest: int, s: int)
    requires highest < s < highest + 0x8000
    requires U32(cycle * 0x1_0000 + U16(highest)) == U32(highest)
    ensures var cycle' := if U16(s) < U16(highest) then U16(cycle + 1) else cycle;
            U32(cycle' * 0x1_0000 + U16(s)) == U32(s)
  {
    var a := cycle * 0x1_0000 + U16(highest);
    var d := s - highest;
    U32Same(a, highest, d);
    SplitForward(highest, s);
    if U16(s) < U16(highest) {
      assert (cycle + 1) * 0x1_0000 + U16(s) == a + d;
      if cycle == 0xffff {
        U32Period(U16(s), 1);
      }
    } else {
      assert cycle * 0x1_0000 + U16(s) == a + d;
    }
  }

  lemma SplitForward(x: int, y: int)
    requires x < y < x + 0x8000
    ensures U16(y) == U16(x) + (y - x) - if U16(y) < U16(x) then 0x1_0000 else 0
  {
    U16Shift(x, y - x);
  }

  lemma SplitBack(x: int, y: int)
    requires x - 0x8000 <= y < x
    ensures U16(y) == U16(x) + (y - x) + if U16(y) > U16(x) then 0x1_0000 else 0
  {
    U16Shift(x, y - x);
  }

  lemma StoreSeqno(r: Run, seqno: u16)
    requires SeqnoOK(r) && (!r.st.lastValid ==> r.st.cycle == 0)
    ensures SeqnoOK(StoreStep(r, seqno))
    ensures !StoreStep(r, seqno).st.lastValid ==> StoreStep(r, seqno).st.cycle == 0
  {
    hide LossBitmap.SeqnoInvalid, Compare, U32;
    var s := Unwrap(seqno, r.highest);
    StoreCases(r, seqno);
    if r.st.lastValid && r.steady && FarBack(r, s) {
      SplitBack(r.highest, s);
      U32Same(r.st.cycle * 0x1_0000 + r.st.last, r.highest, s - r.highest);
    } else if r.st.lastValid && s > r.highest && r.steady {
      CycleForward(r.st.cycle, r.highest, s);
    }
  }

  /** The 16-bit tests of Store say where the true number lies. */
  lemma StoreCases(r: Run, seqno: u16)
    requires r.st.last == U16(r.highest)
    ensures var s := Unwrap(seqno, r.highest);
            && (LossBitmap.SeqnoInvalid(seqno, r.st.last) <==> FarBack(r, s))
            && (!FarBack(r, s) ==>
                  && (Compare(r.st.last, seqno) < 0 <==> s > r.highest)
                  && (Compare(r.st.last, seqno) > 0 <==> s < r.highest)
                  && (s > r.highest ==> U16(seqno - r.st.last) == s - r.highest))
  {
    var s := Unwrap(seqno, r.highest);
    LossBitmap.FarBehind(r.highest, s);
    if !FarBack(r, s) {
      CompareNear(r.highest, s);
    }
  }

  /** The extended number after a packet from far behind is right exactly if no cycle boundary was crossed. */
  lemma JumpExact(r: Run, seqno: u16)
    requires SeqnoOK(r) && r.steady && r.st.lastValid && FarBack(r, Unwrap(seqno, r.highest))
    ensures var r' := StoreStep(r, seqno);
            U32(r'.st.cycle * 0x1_0000 + r'.st.last) == U32(r'.highest) <==> seqno < r.st.last
  {
    var s := Unwrap(seqno, r.highest);
    StoreCases(r, seqno);
    SplitBack(r.highest, s);
    U32Same(r.st.cycle * 0x1_0000 + r.st.last, r.highest, s - r.highest);
    if seqno > r.st.last {
      assert r.st.cycle * 0x1_0000 + seqno == r.st.cycle * 0x1_0000 + r.st.last + (s - r.highest) + 0x1_0000;
      U32Apart(r.st.cycle * 0x1_0000 + r.st.last + (s - r.highest), 0x1_0000);
    }
  }

  /** Such a run: the stream goes back by 4096 across the boundary of a cycle. */
  lemma JumpShows()
    ensures var r := Exec([StoreOp(0), StoreOp(0xf000)]);
            !r.steady && r.highest == -0x1000 && GetStats(r.st, false).1.eseqno == 0xf000 && U32(r.highest) == 0xffff_f000
  {
    var ops: seq<Op> := [StoreOp(0), StoreOp(0xf000)];
    assert ops[..1] == [StoreOp(0)] && [StoreOp(0)][..0] == [];
    assert Exec([StoreOp(0)]) == Step(Start(), StoreOp(0));
    assert Exec(ops) == Step(Step(Start(), StoreOp(0)), StoreOp(0xf000));
    assert Unwrap(0xf000, 0) == -0x1000;
  }

  lemma U32Apart(x: int, d: int)
    requires 0 < d < WRAP32
    ensures U32(x + d) != U32(x)
  {
  }

  lemma StoreCounts(r: Run, seqno: u16)
    requires CountsOK(r) && r.st.last == U16(r.highest)
    ensures CountsOK(Fit(StoreStep(r, seqno)))
  {
    hide LossBitmap.SeqnoInvalid, Compare, U16, Unwrap;
    StoreCases(r, seqno);
  }

  ghost predicate RunOK(r: Run) {
    SeqnoOK(r) && CountsOK(r) && (!r.st.lastValid ==> r.st.cycle == 0)
  }

  lemma StepOK(r: Run, op: Op)
    requires RunOK(r)
    ensures RunOK(Step(r, op))
  {
    hide Stored, StoreStep, U16, U32;
    if op.StoreOp? {
      StoreSeqno(r, op.seqno);
      StoreCounts(r, op.seqno);
    } else {
      CountStep(r, op);
    }
  }

  /** What Expect and GetStats do to the counters. */
  lemma CountStep(r: Run, op: Op)
    requires RunOK(r) && !op.StoreOp?
    ensures RunOK(Step(r, op))
  {
    hide U16;
  }

  lemma {:induction false} RunsOK(ops: seq<Op>)
    ensures RunOK(Exec(ops))
  {
    hide RunOK, Step;
    if ops == [] {
      StartOK();
    } else {
      RunsOK(ops[..|ops| - 1]);
      StepOK(Exec(ops[..|ops| - 1]), ops[|ops| - 1]);
    }
  }

  lemma StartOK()
    ensures RunOK(Start())
  {
  }

  lemma EseqnoFits(st: Stats)
    ensures U32(st.cycle * 0x1_0000 + st.last) == st.cycle * 0x1_0000 + st.last
  {
  }

  /**
   * On every run without a packet from far behind across a cycle boundary, the reported extended
   * sequence number is the true highest number received, modulo 2^32.
   */
  lemma ExtendedSeqnoTrue(ops: seq<Op>, reset: bool)
    requires Exec(ops).steady
    ensures GetStats(Exec(ops).st, reset).1.eseqno == U32(Exec(ops).highest)
  {
    hide Exec, CountsOK;
    RunsOK(ops);
    EseqnoFits(Exec(ops).st);
  }

  /**
   * On every run whose counters stay below 2^32, no more packets are reported received than expected,
   * in the current interval and in total, so that the loss computed from them never wraps.
   */
  lemma ReceivedWithinExpected(ops: seq<Op>, reset: bool)
    requires Exec(ops).fits
    ensures var (st', rep) := GetStats(Exec(ops).st, reset);
            && rep.received <= rep.expected
            && rep.totalReceived <= rep.totalExpected
            && rep.received == Exec(ops).received && rep.expected == Exec(ops).expected
            && rep.totalReceived == Exec(ops).received + Exec(ops).pastReceived
            && rep.totalExpected == Exec(ops).expected + Exec(ops).pastExpected
            && U32(rep.expected - rep.received) == rep.expected - rep.received
  {
    hide Exec, SeqnoOK;
    RunsOK(ops);
  }
}
