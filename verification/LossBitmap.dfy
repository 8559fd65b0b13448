/**
 * The loss bitmap of packetcache/packetcache.go: a 32-bit window on which of the
 * recent sequence numbers were received.  A word is its 32 bits, least
 * significant first.
 */
module LossBitmap {
  import opened Seqno

  const WIDTH: nat := 32

  type Word = w: seq<bool> | |w| == WIDTH witness Zeros(WIDTH)

  function Zeros(n: nat): (z: seq<bool>)
    ensures |z| == n && forall i :: 0 <= i < n ==> !z[i]
  {
    seq(n, _ => false)
  }

  const ONE: Word := [true] + Zeros(WIDTH - 1)

  /** w >> n, for any n. */
  function Shr(w: Word, n: nat): (r: Word)
    ensures forall i :: 0 <= i < WIDTH ==> r[i] == (i + n < WIDTH && w[i + n])
  {
    seq(WIDTH, i requires 0 <= i < WIDTH => i + n < WIDTH && w[i + n])
  }

  /** w | 1 << n; a shift by the width or more gives 0. */
  function SetBit(w: Word, n: nat): Word {
    if n < WIDTH then w[n := true] else w
  }

  /** bits.TrailingZeros32(^w): how many ones w ends in. */
  function TrailingOnes(w: seq<bool>): (n: nat)
    ensures n <= |w|
    ensures forall i :: 0 <= i < n ==> w[i]
    ensures n < |w| ==> !w[n]
  {
    if w == [] || !w[0] then 0 else 1 + TrailingOnes(w[1..])
  }

  /** Whether seqno is unreasonably far in the past. */
  predicate SeqnoInvalid(seqno: u16, reference: u16) {
    Compare(reference, seqno) >= 0 && U16(reference - seqno) > 0x100
  }

  datatype Bitmap = Bitmap(valid: bool, first: u16, bits: Word)

  const EMPTY: Bitmap := Bitmap(false, 0, Zeros(WIDTH))

  /** What get returns: whether any number is missing, the first one, and which of the next 16 are too. */
  datatype Losses = Losses(found: bool, first: u16, rest: seq<bool>)

  function Shift(b: Bitmap, n: nat): Bitmap {
    b.(bits := Shr(b.bits, n), first := U16(b.first + n))
  }

  function MakeRoom(b: Bitmap, seqno: u16): Bitmap {
    if U16(seqno - b.first) >= 32 then Shift(b, U16(U16(seqno - b.first) - 31)) else b
  }

  function SkipReceived(b: Bitmap): Bitmap {
    if b.bits[0] then Shift(b, TrailingOnes(b.bits)) else b
  }

  function Set(b: Bitmap, seqno: u16): Bitmap {
    if !b.valid || SeqnoInvalid(seqno, b.first) then Bitmap(true, seqno, ONE)
    else if Compare(b.first, seqno) > 0 then b
    else
      var b := SkipReceived(MakeRoom(b, seqno));
      b.(bits := SetBit(b.bits, U16(seqno - b.first)))
  }

  /** The complement of the low bits, up to count of them. */
  function Missing(w: Word, count: nat): (bm: seq<bool>)
    requires count <= 17
    ensures |bm| == 17
    ensures forall i :: 0 <= i < 17 ==> bm[i] == (i < count && !w[i])
  {
    seq(17, i requires 0 <= i < 17 => i < count && !w[i])
  }

  /** How many zeros a bitmap starts with: bits.TrailingZeros32. */
  function LeadingFalse(bm: seq<bool>): (n: nat)
    ensures n <= |bm|
    ensures forall i :: 0 <= i < n ==> !bm[i]
    ensures n < |bm| ==> bm[n]
  {
    if bm == [] || bm[0] then 0 else 1 + LeadingFalse(bm[1..])
  }

  /** bm >> (z + 1), as 16 bits. */
  function After(bm: seq<bool>, z: nat): (r: seq<bool>)
    requires |bm| == 17
    ensures |r| == 16
    ensures forall i :: 0 <= i < 16 ==> r[i] == (z + 1 + i < 17 && bm[z + 1 + i])
  {
    seq(16, i requires 0 <= i < 16 => z + 1 + i < 17 && bm[z + 1 + i])
  }

  function SliceLength(b: Bitmap, next: u16): nat {
    if U16(next - b.first) > 17 then 17 else U16(next - b.first)
  }

  function Get(b: Bitmap, next: u16): (Bitmap, Losses) {
    if Compare(b.first, next) >= 0 then
      (b, Losses(false, b.first, Zeros(16)))
    else
      var count := SliceLength(b, next);
      var bm := Missing(b.bits, count);
      var z := LeadingFalse(bm);
      if z == 17 then
        (Shift(b, count), Losses(false, b.first, Zeros(16)))
      else
        (Shift(b, count),
         Losses(true, U16(b.first + z), After(bm, z)))
  }

  /** The bitmap as the source updates it in place. */
  class LossMap {
    var valid: bool
    var first: u16
    var bits: Word

    ghost function View(): Bitmap
      reads this
    {
      Bitmap(valid, first, bits)
    }

    constructor ()
      ensures View() == EMPTY
    {
      valid, first, bits := false, 0, Zeros(WIDTH);
    }

    method Record(seqno: u16)
      modifies this
      ensures View() == Set(old(View()), seqno)
    {
      hide Shr, SetBit, TrailingOnes, SeqnoInvalid, Compare, U16, Zeros;
      if !valid || SeqnoInvalid(seqno, first) {
        first, bits, valid := seqno, ONE, true;
        return;
      }
      if Compare(first, seqno) > 0 {
        return;
      }
      var f, w := Advance(first, bits, seqno);
      first, bits := f, SetBit(w, U16(seqno - f));
    }

    /** The two shifts of set: to make room for seqno, and past what is complete. */
    static method Advance(first: u16, bits: Word, seqno: u16) returns (f: u16, w: Word)
      ensures Bitmap(true, f, w) == SkipReceived(MakeRoom(Bitmap(true, first, bits), seqno))
    {
      hide Shr, TrailingOnes, U16, Zeros;
      f, w := first, bits;
      if U16(seqno - f) >= 32 {
        var shift: nat := U16(U16(seqno - f) - 31);
        w := Shr(w, shift);
        f := U16(f + shift);
      }
      if w[0] {
        var ones := TrailingOnes(w);
        w := Shr(w, ones);
        f := U16(f + ones);
      }
    }

    method Take(next: u16) returns (r: Losses)
      modifies this
      ensures (View(), r) == Get(old(View()), next)
    {
      hide Shr, Missing, After, LeadingFalse, Compare, U16, Zeros;
      var f := first;
      if Compare(f, next) >= 0 {
        return Losses(false, f, Zeros(16));
      }
      var count := U16(next - f);
      if count > 17 {
        count := 17;
      }
      var bm := Missing(bits, count);
      bits := Shr(bits, count);
      first := U16(first + count);
      var z := LeadingFalse(bm);
      if z == 17 {
        return Losses(false, f, Zeros(16));
      }
      return Losses(true, U16(f + z), After(bm, z));
    }
  }

  // What the bitmap means

  /** The numbers received since the last restart, and the true number of the first bit. */
  datatype Truth = Truth(first: int, received: set<int>)

  /** The window says of each of its 32 numbers whether it was received; nothing was received beyond it. */
  ghost predicate Agrees(b: Bitmap, g: Truth) {
    && b.first == U16(g.first)
    && (forall i :: 0 <= i < WIDTH ==> (b.bits[i] <==> g.first + i in g.received))
    && (forall x :: x in g.received ==> x < g.first + WIDTH)
  }

  predicate Restarts(valid: bool, g: Truth, s: int) {
    !valid || g.first - s > 0x100
  }

  lemma ShiftAgrees(b: Bitmap, g: Truth, n: nat)
    requires Agrees(b, g)
    ensures Agrees(Shift(b, n), Truth(g.first + n, g.received))
  {
    U16Shift(g.first, n);
    forall i | 0 <= i < WIDTH ensures Shr(b.bits, n)[i] <==> g.first + n + i in g.received {
      if i + n < WIDTH {
        assert b.bits[i + n] <==> g.first + (n + i) in g.received;
      }
    }
  }

  /** The least number from x on that was not received. */
  function FirstMissing(x: int, received: set<int>): (y: int)
    ensures y >= x && y !in received && forall z :: x <= z < y ==> z in received
    decreases received
  {
    if x in received then
      assert forall z :: x < z && z in received <==> x < z && z in received - {x};
      FirstMissing(x + 1, received - {x})
    else x
  }

  /**
   * What recording a number does to the truth: the window moves on just as far as it takes to have the
   * number within its 32, and then past what has been received.
   */
  function TrueSet(valid: bool, g: Truth, s: int): Truth {
    if Restarts(valid, g, s) then Truth(s, {s})
    else if s < g.first then g
    else Truth(FirstMissing(if s - 31 > g.first then s - 31 else g.first, g.received), g.received + {s})
  }

  /** Recording a number: the window moves forward over it if need be, and over what is complete. */
  lemma SetAgrees(b: Bitmap, g: Truth, seqno: u16)
    requires Agrees(b, g)
    ensures var s := Unwrap(seqno, g.first); Set(b, seqno).valid && Agrees(Set(b, seqno), TrueSet(b.valid, g, s))
  {
    hide MakeRoom, SkipReceived, SetBit, U16, Compare, SeqnoInvalid, Agrees, Unwrap;
    var s := Unwrap(seqno, g.first);
    FarBehind(g.first, s);
    FirstOf(b, g);
    if Restarts(b.valid, g, s) {
      OneAgrees(seqno, s);
    } else if s >= g.first {
      var g1 := RoomAgrees(b, g, seqno, s);
      var g2 := SkipAgrees(MakeRoom(b, seqno), g1);
      SetBitAgrees(SkipReceived(MakeRoom(b, seqno)), g2, s);
      FirstOf(SkipReceived(MakeRoom(b, seqno)), g2);
    }
  }

  /** No number leaves the window unless it has been received, or is 32 or more behind. */
  lemma LeavesForAReason(valid: bool, g: Truth, s: int, x: int)
    requires !Restarts(valid, g, s) && g.first <= x < TrueSet(valid, g, s).first
    ensures x in g.received || s - x >= WIDTH
  {
  }

  lemma FirstOf(b: Bitmap, g: Truth)
    requires Agrees(b, g)
    ensures b.first == U16(g.first)
  {
  }

  lemma OneAgrees(seqno: u16, s: int)
    requires seqno == U16(s)
    ensures Agrees(Bitmap(true, seqno, ONE), Truth(s, {s}))
  {
  }

  lemma RoomAgrees(b: Bitmap, g: Truth, seqno: u16, s: int) returns (g': Truth)
    requires Agrees(b, g) && seqno == U16(s) && g.first <= s < g.first + 0x8000
    ensures Agrees(MakeRoom(b, seqno), g')
    ensures MakeRoom(b, seqno).valid == b.valid
    ensures g'.received == g.received && g'.first == (if s - 31 > g.first then s - 31 else g.first)
    ensures s < g'.first + WIDTH
  {
    FarBehind(g.first, s);
    ShiftByNothing(b);
    var room := if s - g.first >= 32 then s - g.first - 31 else 0;
    ShiftAgrees(b, g, room);
    hide Agrees;
    g' := Truth(g.first + room, g.received);
  }

  lemma SkipAgrees(b: Bitmap, g: Truth) returns (g': Truth)
    requires Agrees(b, g)
    ensures Agrees(SkipReceived(b), g') && SkipReceived(b).valid == b.valid
    ensures g'.received == g.received && g'.first == FirstMissing(g.first, g.received) <= g.first + WIDTH
  {
    SkipsToMissing(b, g);
    var ones := if b.bits[0] then TrailingOnes(b.bits) else 0;
    ShiftAgrees(b, g, ones);
    ShiftByNothing(b);
    hide Agrees;
    g' := Truth(g.first + ones, g.received);
  }

  /** The ones that the window starts with end at the first number missing. */
  lemma SkipsToMissing(b: Bitmap, g: Truth)
    requires Agrees(b, g)
    ensures FirstMissing(g.first, g.received) == g.first + TrailingOnes(b.bits)
  {
    var ones := TrailingOnes(b.bits);
    forall z | g.first <= z < g.first + ones ensures z in g.received {
      assert b.bits[z - g.first];
    }
    MissingIs(g.first, g.received, g.first + ones);
  }

  lemma MissingIs(x: int, received: set<int>, y: int)
    requires x <= y && y !in received && forall z :: x <= z < y ==> z in received
    ensures FirstMissing(x, received) == y
  {
  }

  /** The bit of s, which may be behind the window after skipping, never beyond it. */
  lemma SetBitAgrees(b: Bitmap, g: Truth, s: int)
    requires Agrees(b, g) && g.first - WIDTH <= s < g.first + WIDTH
    ensures Agrees(b.(bits := SetBit(b.bits, U16(U16(s) - b.first))), Truth(g.first, g.received + {s}))
  {
    U16Both(s, g.first);
    if s >= g.first {
      assert U16(s - g.first) == s - g.first;
    } else {
      assert U16(s - g.first) >= WIDTH;
    }
  }

  lemma ShiftByNothing(b: Bitmap)
    ensures Shift(b, 0) == b
  {
    assert Shr(b.bits, 0) == b.bits;
  }

  lemma FarBehind(first: int, s: int)
    requires first - 0x8000 <= s < first + 0x8000
    ensures SeqnoInvalid(U16(s), U16(first)) <==> first - s > 0x100
    ensures first - s <= 0x100 ==> (Compare(U16(first), U16(s)) > 0 <==> s < first)
    ensures s >= first ==> U16(U16(s) - U16(first)) == s - first
  {
    hide Compare;
    Ahead(first, s);
    if first - s == 0x8000 {
      CompareOpposite(first, s);
    } else {
      CompareNear(first, s);
    }
  }

  lemma Ahead(first: int, s: int)
    requires first - 0x8000 <= s < first + 0x8000
    ensures U16(U16(s) - U16(first)) == if s >= first then s - first else s - first + 0x1_0000
    ensures U16(U16(first) - U16(s)) == if first >= s then first - s else first - s + 0x1_0000
  {
    U16Both(first, s);
    U16Both(s, first);
  }

  // Reporting losses

  /** The numbers a report names. */
  function Named(first: int, r: Losses): set<int>
    requires |r.rest| == 16
  {
    if r.found then {first} + set j | 0 <= j < 16 && r.rest[j] :: first + 1 + j else {}
  }

  /**
   * Taking a slice off the window: what is named is exactly what is missing among the numbers of the
   * slice, and the window goes on right after it.
   */
  lemma GetNamesTheMissing(b: Bitmap, g: Truth, next: u16) returns (count: nat, first: int)
    requires Agrees(b, g)
    ensures var (b', r) := Get(b, next);
            && count == SliceCount(g, next)
            && Agrees(b', Truth(g.first + count, g.received)) && b'.valid == b.valid
            && |r.rest| == 16 && r.first == U16(first)
            && Named(first, r) == set x | g.first <= x < g.first + count && x !in g.received
  {
    var s := Unwrap(next, g.first);
    SliceAhead(g.first, s);
    first, count := g.first, 0;
    if s > g.first {
      count := SliceLength(b, next);
      ShiftAgrees(b, g, count);
      var bm := Missing(b.bits, count);
      var z := LeadingFalse(bm);
      MissingNumbers(b, g, count);
      if z < 17 {
        first := g.first + z;
        U16Shift(g.first, z);
        NamedBy(bm, g.first, z);
      }
    }
  }

  lemma SliceAhead(first: int, s: int)
    requires first - 0x8000 <= s < first + 0x8000
    ensures Compare(U16(first), U16(s)) >= 0 <==> s <= first
    ensures s > first ==> U16(U16(s) - U16(first)) == s - first
  {
    U16Both(s, first);
    if first - s == 0x8000 {
      CompareOpposite(first, s);
    } else {
      CompareNear(first, s);
    }
  }

  lemma MissingNumbers(b: Bitmap, g: Truth, count: nat)
    requires Agrees(b, g) && count <= 17
    ensures (set i | 0 <= i < 17 && Missing(b.bits, count)[i] :: g.first + i) ==
            set x | g.first <= x < g.first + count && x !in g.received
  {
    MissingBits(b, g, count);
    MissingSet(Missing(b.bits, count), g.first, count, g.received);
  }

  lemma MissingBits(b: Bitmap, g: Truth, count: nat)
    requires Agrees(b, g) && count <= 17
    ensures forall i :: 0 <= i < 17 ==> Missing(b.bits, count)[i] == (i < count && g.first + i !in g.received)
  {
  }

  lemma MissingSet(bm: seq<bool>, first: int, count: nat, received: set<int>)
    requires |bm| == 17 && count <= 17
    requires forall i :: 0 <= i < 17 ==> bm[i] == (i < count && first + i !in received)
    ensures (set i | 0 <= i < 17 && bm[i] :: first + i) == set x | first <= x < first + count && x !in received
  {
    forall x | first <= x < first + count && x !in received
      ensures x in set i | 0 <= i < 17 && bm[i] :: first + i {
      assert bm[x - first] == (x - first < count && first + (x - first) !in received);
    }
  }

  lemma NamedBy(bm: seq<bool>, first: int, z: nat)
    requires |bm| == 17 && z < 17 && bm[z] && forall i :: 0 <= i < z ==> !bm[i]
    ensures Named(first + z, Losses(true, U16(first + z), After(bm, z))) == set i | 0 <= i < 17 && bm[i] :: first + i
  {
    var named := Named(first + z, Losses(true, U16(first + z), After(bm, z)));
    var wanted := set i | 0 <= i < 17 && bm[i] :: first + i;
    forall x | x in wanted ensures x in named {
      var i := x - first;
      assert bm[i] && z <= i;
      if i > z {
        assert After(bm, z)[i - z - 1];
      }
    }
    forall x | x in named ensures x in wanted {
      var i := x - first;
      assert bm[i];
    }
  }

  // Runs

  datatype Op = Received(seqno: u16) | Ask(next: u16)

  /** The bitmap; since the last restart, where it began, what was received, and what was reported missing. */
  datatype Run = Run(b: Bitmap, g: Truth, from: int, reported: seq<int>)

  predicate Ascending(xs: seq<int>) {
    forall i, j :: 0 <= i < j < |xs| ==> xs[i] < xs[j]
  }

  /** The missing numbers of a slice, lowest first. */
  function Listed(first: int, count: nat, received: set<int>): (xs: seq<int>)
    ensures forall x :: x in xs <==> first <= x < first + count && x !in received
  {
    if count == 0 then []
    else Listed(first, count - 1, received) + if first + count - 1 in received then [] else [first + count - 1]
  }

  function SliceCount(g: Truth, next: u16): nat {
    var s := Unwrap(next, g.first);
    if s <= g.first then 0 else if s - g.first > 17 then 17 else s - g.first
  }

  function Step(r: Run, op: Op): Run {
    match op
    case Received(seqno) =>
      var s := Unwrap(seqno, r.g.first);
      if Restarts(r.b.valid, r.g, s) then Run(Set(r.b, seqno), TrueSet(r.b.valid, r.g, s), s, [])
      else r.(b := Set(r.b, seqno), g := TrueSet(r.b.valid, r.g, s))
    case Ask(next) =>
      var n := SliceCount(r.g, next);
      r.(b := Get(r.b, next).0, g := Truth(r.g.first + n, r.g.received),
         reported := r.reported + Listed(r.g.first, n, r.g.received))
  }

  function Exec(ops: seq<Op>): Run {
    if ops == [] then Run(EMPTY, Truth(0, {}), 0, []) else Step(Exec(ops[..|ops| - 1]), ops[|ops| - 1])
  }

  /** Some number at least 32 above x was received. */
  predicate Passed(received: set<int>, x: int) { exists y :: y in received && y - x >= WIDTH }

  /** Whatever the window has left behind was received, reported, or passed by far. */
  ghost predicate Accounted(r: Run) {
    forall x :: r.from <= x < r.g.first ==> x in r.g.received || x in r.reported || Passed(r.g.received, x)
  }

  /** Reports go forward only, and stay behind the window. */
  ghost predicate RunOK(r: Run) {
    && Agrees(r.b, r.g)
    && Accounted(r)
    && Ascending(r.reported)
    && (forall x :: x in r.reported ==> x < r.g.first)
  }

  lemma {:induction false} ListedAscending(first: int, count: nat, received: set<int>)
    ensures Ascending(Listed(first, count, received))
  {
    if count > 0 {
      ListedAscending(first, count - 1, received);
      var xs, x := Listed(first, count - 1, received), first + count - 1;
      assert forall y :: y in xs ==> y < x;
      AscendingOne(xs, x);
    }
  }

  lemma AscendingOne(xs: seq<int>, x: int)
    requires Ascending(xs) && forall y :: y in xs ==> y < x
    ensures Ascending(xs + [x])
  {
    var ys := xs + [x];
    forall i, j | 0 <= i < j < |ys| ensures ys[i] < ys[j] {
      assert xs[i] in xs;
    }
  }

  lemma AscendingAppend(a: seq<int>, b: seq<int>, bound: int)
    requires Ascending(a) && Ascending(b)
    requires (forall x :: x in a ==> x < bound) && (forall x :: x in b ==> bound <= x)
    ensures Ascending(a + b)
  {
    var c := a + b;
    forall i, j | 0 <= i < j < |c| ensures c[i] < c[j] {
      if i < |a| <= j {
        assert a[i] in a && b[j - |a|] in b;
      }
    }
  }

  lemma SetForward(valid: bool, g: Truth, s: int)
    ensures !Restarts(valid, g, s) ==> g.first <= TrueSet(valid, g, s).first
  {
  }

  lemma ReceivedAccounted(r: Run, seqno: u16)
    requires Accounted(r)
    ensures Accounted(Step(r, Received(seqno)))
  {
    hide Set, Unwrap;
    var s, r' := Unwrap(seqno, r.g.first), Step(r, Received(seqno));
    forall x | r'.from <= x < r'.g.first ensures x in r'.g.received || x in r'.reported || Passed(r'.g.received, x) {
      if !Restarts(r.b.valid, r.g, s) {
        if x < r.g.first {
          if Passed(r.g.received, x) {
            var y :| y in r.g.received && y - x >= WIDTH;
            assert y in r'.g.received;
          }
        } else {
          LeavesForAReason(r.b.valid, r.g, s, x);
          assert s in r'.g.received;
        }
      }
    }
  }

  lemma StepOK(r: Run, op: Op)
    requires RunOK(r)
    ensures RunOK(Step(r, op))
  {
    hide Agrees, Set, Get, TrueSet, SliceCount, Passed, Unwrap;
    match op {
      case Received(seqno) =>
        SetAgrees(r.b, r.g, seqno);
        ReceivedAccounted(r, seqno);
        SetForward(r.b.valid, r.g, Unwrap(seqno, r.g.first));
      case Ask(next) =>
        var n := SliceCount(r.g, next);
        var _, _ := GetNamesTheMissing(r.b, r.g, next);
        ListedAscending(r.g.first, n, r.g.received);
        AscendingAppend(r.reported, Listed(r.g.first, n, r.g.received), r.g.first);
    }
  }

  lemma {:induction false} RunsOK(ops: seq<Op>)
    ensures RunOK(Exec(ops))
  {
    hide RunOK, Step;
    if ops == [] {
      EmptyOK();
    } else {
      RunsOK(ops[..|ops| - 1]);
      StepOK(Exec(ops[..|ops| - 1]), ops[|ops| - 1]);
    }
  }

  lemma EmptyOK()
    ensures RunOK(Run(EMPTY, Truth(0, {}), 0, []))
  {
  }

  /** After any run of recording and asking, the window agrees with what was received since the restart. */
  lemma WindowAgrees(ops: seq<Op>, i: nat)
    requires i < WIDTH
    ensures var r := Exec(ops);
            && r.b.first == U16(r.g.first)
            && (r.b.bits[i] <==> r.g.first + i in r.g.received)
  {
    hide Exec;
    RunsOK(ops);
  }

  /**
   * After any run: of the numbers from the first one since the restart on, each has been received, has
   * been reported missing, is still to be reported as it is in the window or beyond it, or has been
   * passed by a number at least 32 above.
   */
  lemma NoLossForgotten(ops: seq<Op>, x: int)
    requires Exec(ops).from <= x
    ensures var r := Exec(ops); x in r.g.received || x in r.reported || x >= r.g.first || Passed(r.g.received, x)
  {
    hide Exec, Passed;
    RunsOK(ops);
  }

  /**
   * Between restarts no number is reported twice, and the report that a further question adds names
   * exactly the numbers of its slice that were not received.
   */
  lemma ReportedOnce(ops: seq<Op>, next: u16) returns (first: int)
    ensures var r, r' := Exec(ops), Step(Exec(ops), Ask(next));
            var answer := Get(r.b, next).1;
            && (forall i, j :: 0 <= i < j < |r'.reported| ==> r'.reported[i] != r'.reported[j])
            && |answer.rest| == 16 && answer.first == U16(first)
            && (forall x :: x in Named(first, answer) <==> x in r'.reported[|r.reported|..])
            && r'.reported[..|r.reported|] == r.reported
  {
    RunsOK(ops);
    StepOK(Exec(ops), Ask(next));
    var r := Exec(ops);
    var n;
    n, first := GetNamesTheMissing(r.b, r.g, next);
    assert Step(r, Ask(next)).reported[|r.reported|..] == Listed(r.g.first, n, r.g.received);
  }
}
