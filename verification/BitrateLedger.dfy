/**
 * The registry of caps over whole runs: forgetting lazily cannot be told from
 * never forgetting and looking at the age of each request, and a cap that its
 * receiver keeps asking for is not forgotten.
 */
module BitrateLedger {
  import opened Common
  import opened BitrateCaps
  import B = BitrateController
  import R = BitrateRuns

  datatype Op =
    | Set(stream: string, from: string, cap: Option<real>, now: int)
    | Get(stream: string, now: int)
    | Forget(from: string)

  /** The ledger: the last request of every receiver for every stream, however old. */
  type Ledger = map<(string, string), Entry>

  function Apply(reg: Registry, op: Op): Registry {
    match op
    case Set(s, f, cap, now) => AfterSet(reg, s, f, B.SanitizeCap(cap), now)
    case Get(s, now) => AfterGet(reg, s, now)
    case Forget(f) => AfterForget(reg, f)
  }

  function Note(led: Ledger, op: Op): Ledger {
    match op
    case Set(s, f, cap, now) =>
      var valid := B.SanitizeCap(cap);
      if valid.Some? then led[(s, f) := Entry(valid.value, now)] else led - {(s, f)}
    case Get(_, _) => led
    case Forget(f) => map k | k in led && k.1 != f :: led[k]
  }

  function Exec(ops: seq<Op>): Registry {
    if ops == [] then map[] else Apply(Exec(ops[..|ops| - 1]), ops[|ops| - 1])
  }

  function Book(ops: seq<Op>): Ledger {
    if ops == [] then map[] else Note(Book(ops[..|ops| - 1]), ops[|ops| - 1])
  }

  predicate Timed(op: Op) { !op.Forget? }

  predicate TimeForward(ops: seq<Op>) {
    forall i, j :: 0 <= i < j < |ops| && Timed(ops[i]) && Timed(ops[j]) ==> ops[i].now <= ops[j].now
  }

  predicate NotAfter(ops: seq<Op>, now: int) {
    forall i :: 0 <= i < |ops| && Timed(ops[i]) ==> ops[i].now <= now
  }

  /** The requests for one stream that are at most 35 seconds old. */
  function Standing(led: Ledger, stream: string, now: int): Requests {
    map k | k in led && k.0 == stream && now - led[k].at <= 35000 :: k.1 := led[k]
  }

  predicate Holds(reg: Registry, stream: string, from: string) { stream in reg && from in reg[stream] }

  /** The registry is the ledger without some entries that were already too old by that time. */
  ghost predicate Follows(reg: Registry, led: Ledger, now: int) {
    && (forall s, f :: Holds(reg, s, f) ==> (s, f) in led && led[(s, f)] == reg[s][f])
    && (forall k {:trigger led[k]} :: k in led && IsFresh(led[k], now) ==> Holds(reg, k.0, k.1))
  }

  lemma SameStanding(reg: Registry, led: Ledger, stream: string, now: int)
    requires Follows(reg, led, now)
    ensures Fresh(Of(reg, stream), now) == Standing(led, stream, now)
  {
    var a, b := Fresh(Of(reg, stream), now), Standing(led, stream, now);
    forall f | f in a ensures f in b && a[f] == b[f] {
      assert Holds(reg, stream, f);
      assert (stream, f) in led;
    }
    forall f | f in b ensures f in a {
      assert IsFresh(led[(stream, f)], now);
      assert Holds(reg, stream, f);
    }
  }

  lemma GetHolds(reg: Registry, stream: string, now: int, s: string, f: string)
    ensures Holds(AfterGet(reg, stream, now), s, f) <==> Holds(reg, s, f) && (s == stream ==> IsFresh(reg[s][f], now))
    ensures Holds(AfterGet(reg, stream, now), s, f) ==> AfterGet(reg, stream, now)[s][f] == reg[s][f]
  {
    if s == stream && stream in reg && f in reg[s] && IsFresh(reg[s][f], now) {
      assert f in Fresh(reg[stream], now);
    }
  }

  lemma GetFollows(reg: Registry, led: Ledger, stream: string, now: int)
    requires Follows(reg, led, now)
    ensures Follows(AfterGet(reg, stream, now), led, now)
  {
    hide AfterGet, IsFresh;
    forall s, f | Holds(AfterGet(reg, stream, now), s, f)
      ensures (s, f) in led && led[(s, f)] == AfterGet(reg, stream, now)[s][f] {
      GetHolds(reg, stream, now, s, f);
    }
    forall k | k in led && IsFresh(led[k], now) ensures Holds(AfterGet(reg, stream, now), k.0, k.1) {
      GetHolds(reg, stream, now, k.0, k.1);
      assert k == (k.0, k.1);
    }
  }

  lemma SetHolds(r: Registry, stream: string, from: string, cap: Option<int>, now: int, s: string, f: string)
    ensures var t := if cap.Some? then r[stream := Of(r, stream)[from := Entry(cap.value, now)]]
                     else if stream in r then Put(r, stream, r[stream] - {from}) else r;
            && (Holds(t, s, f) <==> if (s, f) == (stream, from) then cap.Some? else Holds(r, s, f))
            && (Holds(t, s, f) ==> t[s][f] == if (s, f) == (stream, from) then Entry(cap.value, now) else r[s][f])
  {
    if cap.None? && s == stream && stream in r && f in r[s] && f != from {
      assert f in r[stream] - {from};
    }
  }

  lemma SetFollows(reg: Registry, led: Ledger, stream: string, from: string, cap: Option<real>, now: int)
    requires Follows(reg, led, now)
    ensures Follows(Apply(reg, Set(stream, from, cap, now)), Note(led, Set(stream, from, cap, now)), now)
  {
    hide AfterGet, B.SanitizeCap, IsFresh, Put, Of;
    var r := AfterGet(reg, stream, now);
    GetFollows(reg, led, stream, now);
    var valid := B.SanitizeCap(cap);
    var t, n := Apply(reg, Set(stream, from, cap, now)), Note(led, Set(stream, from, cap, now));
    forall s, f | Holds(t, s, f) ensures (s, f) in n && n[(s, f)] == t[s][f] {
      SetHolds(r, stream, from, valid, now, s, f);
    }
    forall k | k in n && IsFresh(n[k], now) ensures Holds(t, k.0, k.1) {
      SetHolds(r, stream, from, valid, now, k.0, k.1);
      assert k == (k.0, k.1);
    }
  }

  lemma ForgetHolds(reg: Registry, from: string, s: string, f: string)
    ensures var t := AfterForget(reg, from);
            && (Holds(t, s, f) <==> Holds(reg, s, f) && f != from)
            && (Holds(t, s, f) ==> t[s][f] == reg[s][f])
  {
    if Holds(reg, s, f) && f != from {
      assert f in reg[s] - {from};
    }
  }

  lemma ForgetFollows(reg: Registry, led: Ledger, from: string, now: int)
    requires Follows(reg, led, now)
    ensures Follows(Apply(reg, Forget(from)), Note(led, Forget(from)), now)
  {
    hide AfterForget, IsFresh;
    var t, n := Apply(reg, Forget(from)), Note(led, Forget(from));
    forall s, f | Holds(t, s, f) ensures (s, f) in n && n[(s, f)] == t[s][f] {
      ForgetHolds(reg, from, s, f);
    }
    forall k | k in n && IsFresh(n[k], now) ensures Holds(t, k.0, k.1) {
      ForgetHolds(reg, from, k.0, k.1);
    }
  }

  lemma Later(reg: Registry, led: Ledger, now: int, then_: int)
    requires Follows(reg, led, now) && now <= then_
    ensures Follows(reg, led, then_)
  {
  }

  /** On every run with time going forward. */
  lemma {:induction false} RunFollows(ops: seq<Op>, now: int)
    requires TimeForward(ops) && NotAfter(ops, now)
    ensures Follows(Exec(ops), Book(ops), now)
  {
    hide Follows, Apply, Note;
    if ops == [] {
      Empty(now);
    } else {
      var before, op := ops[..|ops| - 1], ops[|ops| - 1];
      match op {
        case Set(s, f, cap, at) =>
          RunFollows(before, at);
          SetFollows(Exec(before), Book(before), s, f, cap, at);
          Later(Exec(ops), Book(ops), at, now);
        case Get(s, at) =>
          RunFollows(before, at);
          GetStep(Exec(before), Book(before), s, at);
          Later(Exec(ops), Book(ops), at, now);
        case Forget(f) =>
          RunFollows(before, now);
          ForgetFollows(Exec(before), Book(before), f, now);
      }
    }
  }

  lemma GetStep(reg: Registry, led: Ledger, stream: string, now: int)
    requires Follows(reg, led, now)
    ensures Follows(Apply(reg, Get(stream, now)), Note(led, Get(stream, now)), now)
  {
    hide Follows;
    GetFollows(reg, led, stream, now);
  }

  lemma Empty(now: int)
    ensures Follows(map[], map[], now)
  {
  }

  /**
   * Lazy forgetting cannot be seen: after any run, what get looks at for any stream at
   * any later time are exactly the requests that are at most TTL old, so that it
   * answers with the least of those, and so does each of the two looks of a set.
   */
  lemma LazyForgettingInvisible(ops: seq<Op>, stream: string, now: int)
    requires TimeForward(ops) && NotAfter(ops, now)
    ensures Fresh(Of(Exec(ops), stream), now) == Standing(Book(ops), stream, now)
    ensures forall from: string, cap: Option<real> :: var more := ops + [Set(stream, from, cap, now)];
              Fresh(Of(Exec(more), stream), now) == Standing(Book(more), stream, now)
  {
    hide Exec, Book, Standing, Fresh;
    RunFollows(ops, now);
    SameStanding(Exec(ops), Book(ops), stream, now);
    forall from: string, cap: Option<real>
      ensures var more := ops + [Set(stream, from, cap, now)];
              Fresh(Of(Exec(more), stream), now) == Standing(Book(more), stream, now) {
      var more := ops + [Set(stream, from, cap, now)];
      RunFollows(more, now);
      SameStanding(Exec(more), Book(more), stream, now);
    }
  }

  /** A clock that goes back shows it: the request that somebody looked past is gone, though it would count again. */
  lemma ClockGoingBackShows()
    ensures var ops := [Set("s", "f", Some(200000.0), 0), Get("s", 40000)];
            Of(Exec(ops), "s") == map[] && Standing(Book(ops), "s", 10000) == map["f" := Entry(200000, 0)]
  {
    var set0, get0 := Set("s", "f", Some(200000.0), 0), Get("s", 40000);
    var ops := [set0, get0];
    assert ops[..1] == [set0] && [set0][..0] == [];
    assert Exec([set0]) == map["s" := map["f" := Entry(200000, 0)]];
    assert Fresh(map["f" := Entry(200000, 0)], 40000) == map[];
    assert Book([set0]) == map[("s", "f") := Entry(200000, 0)];
    assert Exec(ops) == Apply(Exec([set0]), get0);
    assert Book(ops) == Note(Book([set0]), get0);
    assert ("s", "f") in Book(ops);
  }

  /** What forget reports has every stream where the receiver had a request standing, and none where it never had one. */
  lemma ForgetReports(ops: seq<Op>, from: string, now: int)
    requires TimeForward(ops) && NotAfter(ops, now)
    ensures forall s: string :: from in Standing(Book(ops), s, now) ==> Holds(Exec(ops), s, from)
    ensures forall s: string :: Holds(Exec(ops), s, from) ==> (s, from) in Book(ops)
  {
    hide Exec, Book;
    RunFollows(ops, now);
    forall s: string | from in Standing(Book(ops), s, now) ensures Holds(Exec(ops), s, from) {
      assert IsFresh(Book(ops)[(s, from)], now);
    }
  }

  // A cap that its receiver keeps asking for

  predicate About(op: Op, stream: string, from: string) {
    match op
    case Set(s, f, _, _) => s == stream && f == from
    case Get(_, _) => false
    case Forget(f) => f == from
  }

  /** The last request that a receiver made for a stream. */
  ghost predicate LastAbout(ops: seq<Op>, x: int, stream: string, from: string) {
    && 0 <= x < |ops| && ops[x].Set? && About(ops[x], stream, from)
    && forall y :: x < y < |ops| ==> !About(ops[y], stream, from)
  }

  lemma {:induction false} LastRequestStands(ops: seq<Op>, x: int, stream: string, from: string)
    requires LastAbout(ops, x, stream, from) && B.SanitizeCap(ops[x].cap).Some?
    ensures (stream, from) in Book(ops) && Book(ops)[(stream, from)] == Entry(B.SanitizeCap(ops[x].cap).value, ops[x].now)
  {
    hide B.SanitizeCap;
    if x < |ops| - 1 {
      LastRequestStands(ops[..|ops| - 1], x, stream, from);
    }
  }

  predicate Sent(n: B.Control, ps: seq<B.Poll>, i: int) { 0 <= i < |ps| && R.ReplyAt(n, ps, i).send }

  predicate LastSend(n: B.Control, ps: seq<B.Poll>, k: int, i: int) {
    0 <= k <= i < |ps| && Sent(n, ps, k) && forall m :: k < m <= i ==> !Sent(n, ps, m)
  }

  /** While a cap stands, it was last sent less than REFRESH ago. */
  lemma {:induction false} SentLately(n: B.Control, ps: seq<B.Poll>, i: nat) returns (k: nat)
    requires i < |ps| && R.ReplyAt(n, ps, i).cap.Some? && n.cap.None?
    ensures LastSend(n, ps, k, i) && R.ReplyAt(n, ps, k).cap == R.ReplyAt(n, ps, i).cap && ps[i].now - ps[k].now < B.REFRESH
    ensures B.Exec(n, ps[..i + 1]).sentAt == Some(ps[k].now)
  {
    hide B.Update;
    R.StandingCapIsRepeated(B.Exec(n, ps[..i]), ps[i]);
    R.ExecStep(n, ps, i);
    if R.ReplyAt(n, ps, i).send {
      k := i;
    } else {
      k := i;
      if i > 0 {
        R.StandingCapIsRepeated(B.Exec(n, ps[..i - 1]), ps[i - 1]);
        R.ExecStep(n, ps, i - 1);
        k := SentLately(n, ps, i - 1);
      }
    }
  }

  /** Polls at most P apart, the last at most P before t. */
  predicate PolledEvery(ps: seq<B.Poll>, period: int, t: int) {
    && R.TimeForward(ps) && ps != [] && ps[|ps| - 1].now <= t <= ps[|ps| - 1].now + period
    && forall i :: 0 < i < |ps| ==> ps[i].now - ps[i - 1].now <= period
  }

  /** What is sent arrives within the delay, in order. */
  ghost predicate Delivers(n: B.Control, ps: seq<B.Poll>, at: seq<int>, delay: int) {
    && |at| == |ps|
    && (forall i :: Sent(n, ps, i) ==> ps[i].now <= at[i] <= ps[i].now + delay)
    && (forall i, j :: i < j && Sent(n, ps, i) && Sent(n, ps, j) ==> at[i] <= at[j])
  }

  /** The last message that has arrived by t. */
  ghost predicate LastArrived(n: B.Control, ps: seq<B.Poll>, at: seq<int>, t: int, m: int) {
    && |at| == |ps| && Sent(n, ps, m) && at[m] <= t
    && forall x :: m < x < |ps| && Sent(n, ps, x) ==> at[x] > t
  }

  lemma {:induction false} FindArrived(n: B.Control, ps: seq<B.Poll>, at: seq<int>, t: int, k: nat, i: nat) returns (m: nat)
    requires |at| == |ps| && k <= i < |ps| && Sent(n, ps, k) && at[k] <= t
    ensures k <= m <= i && Sent(n, ps, m) && at[m] <= t && forall x :: m < x <= i && Sent(n, ps, x) ==> at[x] > t
  {
    hide Sent;
    if Sent(n, ps, i) && at[i] <= t {
      m := i;
    } else {
      m := FindArrived(n, ps, at, t, k, i - 1);
    }
  }

  /** A cap has stood since a poll that is at least the delay old. */
  predicate Stands(n: B.Control, ps: seq<B.Poll>, a: nat, t: int, delay: int) {
    a < |ps| && ps[a].now <= t - delay && forall i: nat :: a <= i < |ps| ==> R.ReplyAt(n, ps, i).cap.Some?
  }

  /** The last message to arrive carries a cap, and arrived less than REFRESH + period + delay ago. */
  lemma ArrivedLately(n: B.Control, ps: seq<B.Poll>, at: seq<int>, period: nat, delay: nat, t: int, a: nat) returns (m: nat)
    requires n.cap.None? && PolledEvery(ps, period, t) && Delivers(n, ps, at, delay) && Stands(n, ps, a, t, delay)
    ensures LastArrived(n, ps, at, t, m) && R.ReplyAt(n, ps, m).cap.Some? && t - at[m] < B.REFRESH + period + delay
  {
    hide R.ReplyAt, Sent;
    var k := SentLately(n, ps, a);
    assert ps[k].now <= ps[a].now;
    m := FindArrived(n, ps, at, t, k, |ps| - 1);
    assert m > a || m == k;
    var last := SentLately(n, ps, |ps| - 1);
    if last > m {
      var x := NextSend(n, ps, m, last);
      assert x > a;
      var y := SentLately(n, ps, x - 1);
      assert y == m;
    } else {
      assert last == m;
    }
  }

  lemma {:induction false} NextSend(n: B.Control, ps: seq<B.Poll>, m: nat, last: nat) returns (x: nat)
    requires m < last < |ps| && Sent(n, ps, last)
    ensures m < x <= last && Sent(n, ps, x) && forall y :: m < y < x ==> !Sent(n, ps, y)
    decreases last
  {
    hide Sent;
    if earlier: nat :| m < earlier < last && Sent(n, ps, earlier) {
      x := NextSend(n, ps, m, earlier);
    } else {
      x := last;
    }
  }

  /** The registry's last operation about this receiver and stream is the last message to arrive. */
  ghost predicate Fed(ops: seq<Op>, stream: string, from: string, n: B.Control, ps: seq<B.Poll>, at: seq<int>, t: int) {
    forall m :: LastArrived(n, ps, at, t, m) && R.ReplyAt(n, ps, m).cap.Some? ==>
      exists x ::
        LastAbout(ops, x, stream, from) && ops[x] == Set(stream, from, Some(R.ReplyAt(n, ps, m).cap.value as real), at[m])
  }

  /** A cap that a controller gives is one that set takes as it is. */
  lemma {:induction false} CapsAreValid(startCap: Option<real>, camera: bool, ps: seq<B.Poll>)
    ensures var c := B.Exec(B.NewControl(startCap, camera), ps);
            && (c.startCap.Some? ==> B.MIN_CAP <= c.startCap.value <= B.MAX_CAP)
            && (c.cap.Some? ==> B.MIN_CAP <= c.cap.value <= B.MAX_CAP)
  {
    hide B.Update;
    if ps != [] {
      CapsAreValid(startCap, camera, ps[..|ps| - 1]);
      CapStaysValid(B.Exec(B.NewControl(startCap, camera), ps[..|ps| - 1]), ps[|ps| - 1]);
    }
  }

  lemma CapStaysValid(c: B.Control, p: B.Poll)
    requires c.startCap.Some? ==> B.MIN_CAP <= c.startCap.value <= B.MAX_CAP
    requires c.cap.Some? ==> B.MIN_CAP <= c.cap.value <= B.MAX_CAP
    ensures var d := B.Update(c, p).0; d.startCap == c.startCap && (d.cap.Some? ==> B.MIN_CAP <= d.cap.value <= B.MAX_CAP)
  {
    hide B.Lines, B.Count, B.Decide;
    if p.video {
      var b := B.Begin(B.Look(c, p), p.now);
      R.CountKeeps(b, p, B.Warming(B.Look(c, p), p.now));
      DecisionIsValid(B.Count(b, p, B.Warming(B.Look(c, p), p.now)), p.now);
    }
  }

  lemma DecisionIsValid(c: B.Control, now: int)
    requires c.cap.Some? ==> B.MIN_CAP <= c.cap.value <= B.MAX_CAP
    ensures var d := B.Decide(c, now); d.startCap == c.startCap && (d.cap.Some? ==> B.MIN_CAP <= d.cap.value <= B.MAX_CAP)
  {
    hide B.Highest, B.Round;
  }

  lemma TakenAsItIs(cap: int)
    requires B.MIN_CAP <= cap <= B.MAX_CAP
    ensures B.SanitizeCap(Some(cap as real)) == Some(cap)
  {
    assert B.Round(cap as real) == cap;
  }

  /**
   * A receiver that polls at most a period apart keeps its cap in force at a sender
   * that its messages reach within the delay, as long as REFRESH, the period and the
   * delay together are within TTL: whenever the sender looks, its answer is that cap
   * or a tighter one.
   */
  lemma StandingCapNotForgotten(startCap: Option<real>, camera: bool, ps: seq<B.Poll>, at: seq<int>, period: nat, delay: nat,
                                t: int, a: nat, ops: seq<Op>, stream: string, from: string) returns (m: nat)
    requires B.REFRESH + period + delay <= TTL
    requires var n := B.NewControl(startCap, camera);
             && PolledEvery(ps, period, t) && Delivers(n, ps, at, delay) && Stands(n, ps, a, t, delay)
             && Fed(ops, stream, from, n, ps, at, t)
    requires TimeForward(ops) && NotAfter(ops, t)
    ensures var n := B.NewControl(startCap, camera);
            && LastArrived(n, ps, at, t, m) && R.ReplyAt(n, ps, m).cap.Some?
            && forall least :: IsLeast(Fresh(Of(Exec(ops), stream), t), least) ==>
                 least.Some? && least.value <= R.ReplyAt(n, ps, m).cap.value
  {
    hide Exec, Book, B.NewControl, B.SanitizeCap, R.ReplyAt, Sent, Delivers, PolledEvery, Stands, LastArrived, Fresh;
    var n := B.NewControl(startCap, camera);
    NewHasNoCap(startCap, camera);
    m := ArrivedLately(n, ps, at, period, delay, t, a);
    ArrivedIndex(n, ps, at, t, m);
    var cap := R.ReplyAt(n, ps, m).cap.value;
    ReplyIsValid(startCap, camera, ps, m);
    TakenAsItIs(cap);
    var x :| LastAbout(ops, x, stream, from) && ops[x] == Set(stream, from, Some(cap as real), at[m]);
    LastRequestStands(ops, x, stream, from);
    LazyForgettingInvisible(ops, stream, t);
    assert from in Standing(Book(ops), stream, t) && Standing(Book(ops), stream, t)[from].cap == cap by {
      StandingHas(Book(ops), stream, from, t);
    }
  }

  lemma NewHasNoCap(startCap: Option<real>, camera: bool)
    ensures B.NewControl(startCap, camera).cap.None?
  {
  }

  lemma ArrivedIndex(n: B.Control, ps: seq<B.Poll>, at: seq<int>, t: int, m: int)
    requires LastArrived(n, ps, at, t, m)
    ensures 0 <= m < |ps| && |at| == |ps|
  {
  }

  lemma ReplyIsValid(startCap: Option<real>, camera: bool, ps: seq<B.Poll>, m: nat)
    requires m < |ps|
    ensures var cap := R.ReplyAt(B.NewControl(startCap, camera), ps, m).cap; cap.Some? ==> B.MIN_CAP <= cap.value <= B.MAX_CAP
  {
    hide B.Update, B.NewControl, B.Exec;
    var n := B.NewControl(startCap, camera);
    CapsAreValid(startCap, camera, ps[..m + 1]);
    R.ExecStep(n, ps, m);
    R.StandingCapIsRepeated(B.Exec(n, ps[..m]), ps[m]);
  }

  lemma StandingHas(led: Ledger, stream: string, from: string, now: int)
    requires (stream, from) in led && IsFresh(led[(stream, from)], now)
    ensures from in Standing(led, stream, now) && Standing(led, stream, now)[from] == led[(stream, from)]
  {
  }
}
