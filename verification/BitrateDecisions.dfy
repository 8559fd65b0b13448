/**
 * When the bitrate controller changes the cap, and to what: both told from the polls so far
 * and the caps that were asked for, without its counters.
 */
module BitrateDecisions {
  import opened Common
  import opened BitrateController
  import opened BitrateRuns

  // Told from the polls

  /** Ten seconds have passed since the first poll that said anything. */
  ghost predicate WarmedUp(ps: seq<Poll>, j: int) {
    0 <= j < |ps| && exists k :: k <= j && StartsAt(ps, k) && ps[j].now - ps[k].now >= 10000
  }

  /** A poll that counts against the sender. */
  ghost predicate BadPoll(ps: seq<Poll>, j: int) { WarmedUp(ps, j) && ps[j].state.Bad? }

  /** The rates measured since video last began to arrive. */
  function Heard(ps: seq<Poll>): seq<real> {
    if ps == [] then [] else
    var p := ps[|ps| - 1];
    if !p.video then []
    else Heard(ps[..|ps| - 1]) + if !p.state.Unknown? && p.videoBps.Some? then [p.videoBps.value] else []
  }

  function LastThree(xs: seq<real>): seq<real> { if |xs| <= 3 then xs else xs[|xs| - 3..] }

  /** What arrives: the highest of the last three rates. */
  function ArrivingAt(ps: seq<Poll>, j: nat): real
    requires j < |ps|
  {
    var rates := LastThree(Heard(ps[..j + 1])); if rates == [] then 0.0 else Highest(rates)
  }

  /** Two polls have counted against the sender, with no good or other poll and no spent decision since the first. */
  ghost predicate BadTwice(n: Control, ps: seq<Poll>, j: nat)
    requires j < |ps|
    decreases j, 1
  {
    exists a, b :: 0 <= a < b <= j && BadPoll(ps, a) && BadPoll(ps, b) && OnlyBad(n, ps, a, j)
  }

  ghost predicate OnlyBad(n: Control, ps: seq<Poll>, a: int, j: nat)
    requires j < |ps|
    decreases j, 0
  {
    0 <= a && forall m :: a <= m <= j ==> MayBeBad(ps, m) && (m < j ==> !SpendsBad(n, ps, m))
  }

  predicate MayBeBad(ps: seq<Poll>, m: int) { 0 <= m < |ps| && ps[m].video && (ps[m].state.Bad? || ps[m].state.Unknown?) }

  /** The decision to lower is taken, whether or not that lowers the cap. */
  ghost predicate SpendsBad(n: Control, ps: seq<Poll>, j: nat)
    requires j < |ps|
    decreases j, 2
  {
    BadTwice(n, ps, j) && ArrivingAt(ps, j) > 0.0 && LongSinceChange(n, ps, j, 6000)
  }

  /** How many of the polls from a to before b were good. */
  function Goods(ps: seq<Poll>, a: int, b: nat): nat
    requires b <= |ps|
  {
    if b <= a || b == 0 then 0 else Goods(ps, a, b - 1) + if ps[b - 1].state.Good? then 1 else 0
  }

  /** Eight good polls have come, with no bad or other poll and no spent decision since the first. */
  ghost predicate GoodEight(n: Control, ps: seq<Poll>, j: nat)
    requires j < |ps|
    decreases j, 1
  {
    exists a :: 0 <= a <= j && Goods(ps, a, j + 1) >= 8 && OnlyGood(n, ps, a, j)
  }

  ghost predicate OnlyGood(n: Control, ps: seq<Poll>, a: int, j: nat)
    requires j < |ps|
    decreases j, 0
  {
    0 <= a && forall m :: a <= m <= j ==> MayBeGood(ps, m) && (m < j ==> !SpendsGood(n, ps, m))
  }

  predicate MayBeGood(ps: seq<Poll>, m: int) { 0 <= m < |ps| && ps[m].video && (ps[m].state.Good? || ps[m].state.Unknown?) }

  /** The decision to raise is taken, whether or not the cap can go any higher. */
  ghost predicate SpendsGood(n: Control, ps: seq<Poll>, j: nat)
    requires j < |ps|
    decreases j, 2
  {
    GoodEight(n, ps, j) && CapAt(n, ps, j).Some? && LongSinceChange(n, ps, j, 15000)
  }

  // The counters, step by step

  /** The count against the sender that a decision at poll j looks at. */
  ghost function BadCount(n: Control, ps: seq<Poll>, j: nat): nat
    requires j < |ps|
  {
    var before := if j == 0 || SpendsBad(n, ps, j - 1) then 0 else BadCount(n, ps, j - 1);
    if !MayBeBad(ps, j) then 0
    else if ps[j].state.Unknown? then before
    else if WarmedUp(ps, j) then before + 1 else 0
  }

  ghost predicate BadOnce(n: Control, ps: seq<Poll>, j: nat)
    requires j < |ps|
  {
    exists a :: 0 <= a <= j && BadPoll(ps, a) && OnlyBad(n, ps, a, j)
  }

  lemma OnlyBadStep(n: Control, ps: seq<Poll>, a: int, j: nat)
    requires j < |ps| && 0 <= a < j
    ensures OnlyBad(n, ps, a, j) <==> OnlyBad(n, ps, a, j - 1) && !SpendsBad(n, ps, j - 1) && MayBeBad(ps, j)
  {
    hide SpendsBad, MayBeBad;
  }

  lemma OnlyBadHere(n: Control, ps: seq<Poll>, j: nat)
    requires j < |ps|
    ensures OnlyBad(n, ps, j, j) <==> MayBeBad(ps, j)
  {
    hide SpendsBad, MayBeBad;
  }

  lemma WarmStays(ps: seq<Poll>, a: nat, j: nat)
    requires TimeForward(ps) && a <= j < |ps| && WarmedUp(ps, a)
    ensures WarmedUp(ps, j)
  {
    var k :| k <= a && StartsAt(ps, k) && ps[a].now - ps[k].now >= 10000;
    assert ps[a].now <= ps[j].now;
  }

  lemma {:induction false} BadCountIs(n: Control, ps: seq<Poll>, j: nat)
    requires TimeForward(ps) && j < |ps|
    ensures BadCount(n, ps, j) >= 1 <==> BadOnce(n, ps, j)
    ensures BadCount(n, ps, j) >= 2 <==> BadTwice(n, ps, j)
  {
    hide SpendsBad, WarmedUp, MayBeBad, OnlyBad;
    OnlyBadHere(n, ps, j);
    BadKinds(ps, j);
    if j == 0 {
      BadAtFirst(n, ps);
    } else {
      BadCountIs(n, ps, j - 1);
      BadOnceStep(n, ps, j);
      BadTwiceStep(n, ps, j);
      if MayBeBad(ps, j) && !ps[j].state.Unknown? && BadOnce(n, ps, j - 1) {
        var a :| 0 <= a <= j - 1 && BadPoll(ps, a) && OnlyBad(n, ps, a, j - 1);
        WarmStays(ps, a, j);
      }
      if BadTwice(n, ps, j - 1) {
        TwiceIsOnce(n, ps, j - 1);
      }
    }
  }

  lemma BadKinds(ps: seq<Poll>, j: nat)
    ensures MayBeBad(ps, j) ==> ps[j].state.Bad? || ps[j].state.Unknown?
  {
  }

  lemma TwiceIsOnce(n: Control, ps: seq<Poll>, j: nat)
    requires j < |ps| && BadTwice(n, ps, j)
    ensures BadOnce(n, ps, j)
  {
  }

  lemma BadAtFirst(n: Control, ps: seq<Poll>)
    requires ps != []
    ensures BadOnce(n, ps, 0) <==> BadPoll(ps, 0) && MayBeBad(ps, 0)
    ensures !BadTwice(n, ps, 0)
  {
    hide WarmedUp, MayBeBad;
    OnlyBadHere(n, ps, 0);
  }

  lemma BadOnceStep(n: Control, ps: seq<Poll>, j: nat)
    requires 0 < j < |ps|
    ensures BadOnce(n, ps, j) <==>
              MayBeBad(ps, j) && (BadPoll(ps, j) || (!SpendsBad(n, ps, j - 1) && BadOnce(n, ps, j - 1)))
  {
    hide SpendsBad, BadPoll, MayBeBad, OnlyBad;
    OnlyBadHere(n, ps, j);
    forall a | 0 <= a < j
      ensures OnlyBad(n, ps, a, j) <==> OnlyBad(n, ps, a, j - 1) && !SpendsBad(n, ps, j - 1) && MayBeBad(ps, j) {
      OnlyBadStep(n, ps, a, j);
    }
  }

  lemma BadTwiceStep(n: Control, ps: seq<Poll>, j: nat)
    requires 0 < j < |ps|
    ensures BadTwice(n, ps, j) <==>
              MayBeBad(ps, j) && !SpendsBad(n, ps, j - 1) && (BadTwice(n, ps, j - 1) || (BadPoll(ps, j) && BadOnce(n, ps, j - 1)))
  {
    hide SpendsBad, BadPoll, MayBeBad, OnlyBad;
    forall a | 0 <= a < j
      ensures OnlyBad(n, ps, a, j) <==> OnlyBad(n, ps, a, j - 1) && !SpendsBad(n, ps, j - 1) && MayBeBad(ps, j) {
      OnlyBadStep(n, ps, a, j);
    }
  }

  /** The count for the sender. */
  ghost function GoodCount(n: Control, ps: seq<Poll>, j: nat): nat
    requires j < |ps|
  {
    var before := if j == 0 || SpendsGood(n, ps, j - 1) then 0 else GoodCount(n, ps, j - 1);
    if !MayBeGood(ps, j) then 0 else before + if ps[j].state.Good? then 1 else 0
  }

  lemma OnlyGoodStep(n: Control, ps: seq<Poll>, a: int, j: nat)
    requires j < |ps| && 0 <= a < j
    ensures OnlyGood(n, ps, a, j) <==> OnlyGood(n, ps, a, j - 1) && !SpendsGood(n, ps, j - 1) && MayBeGood(ps, j)
  {
    hide SpendsGood, MayBeGood;
  }

  /** The count is what has come in the longest stretch that nothing has spoilt. */
  lemma {:induction false} GoodCountIs(n: Control, ps: seq<Poll>, j: nat)
    requires j < |ps|
    ensures forall a :: 0 <= a <= j && OnlyGood(n, ps, a, j) ==> Goods(ps, a, j + 1) <= GoodCount(n, ps, j)
    ensures GoodCount(n, ps, j) > 0 ==>
              exists a :: 0 <= a <= j && OnlyGood(n, ps, a, j) && Goods(ps, a, j + 1) == GoodCount(n, ps, j)
  {
    hide SpendsGood, MayBeGood, OnlyGood;
    OnlyGoodHere(n, ps, j);
    if j > 0 {
      GoodCountIs(n, ps, j - 1);
      forall a | 0 <= a < j
        ensures OnlyGood(n, ps, a, j) <==> OnlyGood(n, ps, a, j - 1) && !SpendsGood(n, ps, j - 1) && MayBeGood(ps, j) {
        OnlyGoodStep(n, ps, a, j);
      }
    }
    var d := if ps[j].state.Good? then 1 else 0;
    assert forall a :: 0 <= a <= j ==> Goods(ps, a, j + 1) == Goods(ps, a, j) + d;
    if GoodCount(n, ps, j) > 0 {
      if j == 0 || SpendsGood(n, ps, j - 1) || GoodCount(n, ps, j - 1) == 0 {
        assert OnlyGood(n, ps, j, j) && Goods(ps, j, j + 1) == Goods(ps, j, j) + d;
      } else {
        var a :| 0 <= a <= j - 1 && OnlyGood(n, ps, a, j - 1) && Goods(ps, a, j) == GoodCount(n, ps, j - 1);
        assert OnlyGood(n, ps, a, j);
      }
    }
  }

  lemma OnlyGoodHere(n: Control, ps: seq<Poll>, j: nat)
    requires j < |ps|
    ensures OnlyGood(n, ps, j, j) <==> MayBeGood(ps, j)
  {
    hide SpendsGood, MayBeGood;
  }

  lemma GoodEightIs(n: Control, ps: seq<Poll>, j: nat)
    requires j < |ps|
    ensures GoodEight(n, ps, j) <==> GoodCount(n, ps, j) >= 8
  {
    hide OnlyGood;
    GoodCountIs(n, ps, j);
  }

  // What the controller remembers

  /** A poll changes the cap exactly if it leaves its time behind. */
  lemma ChangeLeavesTime(c: Control, p: Poll)
    requires CapsOK(c)
    ensures var d := Update(c, p).0;
            if d.cap != c.cap then d.changedAt == Some(p.now) else d.changedAt == c.changedAt
  {
    hide Count, Decide, Lines;
    StepChanges(c, p);
    if p.video {
      var b := Begin(Look(c, p), p.now);
      CountKeeps(b, p, Warming(Look(c, p), p.now));
      DecidePace(Count(b, p, Warming(Look(c, p), p.now)), p.now);
    }
  }

  /** The last change before poll j is remembered, and nothing else. */
  ghost predicate LastChange(n: Control, ps: seq<Poll>, j: nat)
    requires j <= |ps|
  {
    var at := Exec(n, ps[..j]).changedAt;
    && (at.Some? ==> exists i :: i < j && Changes(n, ps, i) && ps[i].now == at.value)
    && (forall i :: i < j && Changes(n, ps, i) ==> at.Some? && at.value >= ps[i].now)
  }

  /** The tallest picture so far. */
  function Tallest(ps: seq<Poll>): nat {
    if ps == [] then 0 else Max(Tallest(ps[..|ps| - 1]), Lines(ps[|ps| - 1]))
  }

  /** What the controller has in its fields before poll j. */
  ghost predicate Fields(n: Control, ps: seq<Poll>, j: nat)
    requires j <= |ps|
  {
    var c := Exec(n, ps[..j]);
    && CapsOK(c) && c.camera == n.camera && c.startCap == n.startCap
    && c.maxLines == Tallest(ps[..j]) && c.rates == LastThree(Heard(ps[..j]))
    && (c.started <==> j > 0 && ps[j - 1].video)
    && LastChange(n, ps, j)
    && (forall t :: c.startedAt == Some(t) ==> exists k :: k < j && StartsAt(ps, k) && t == ps[k].now)
    && (c.startedAt.None? ==> forall k :: k < j ==> !StartsAt(ps, k))
    && c.bad == (if j == 0 || SpendsBad(n, ps, j - 1) then 0 else BadCount(n, ps, j - 1))
    && c.good == (if j == 0 || SpendsGood(n, ps, j - 1) then 0 else GoodCount(n, ps, j - 1))
  }

  lemma LastThreeMore(xs: seq<real>, x: real)
    ensures var l := LastThree(xs); LastThree(xs + [x]) == if |l| < 3 then l + [x] else l[1..] + [x]
  {
    if |xs| >= 3 {
      assert (xs + [x])[|xs| - 2..] == xs[|xs| - 2..] + [x];
    }
  }

  lemma HeardMore(ps: seq<Poll>, p: Poll)
    requires p.video
    ensures Heard(ps + [p]) == Heard(ps) + if !p.state.Unknown? && p.videoBps.Some? then [p.videoBps.value] else []
  {
    assert (ps + [p])[..|ps|] == ps;
  }

  lemma RatesGoOn(ps: seq<Poll>, c: Control, p: Poll, warming: bool)
    requires p.video && c.rates == LastThree(Heard(ps))
    ensures Count(c, p, warming).rates == LastThree(Heard(ps + [p]))
  {
    hide Heard, LastThree;
    HeardMore(ps, p);
    if !p.state.Unknown? && p.videoBps.Some? {
      LastThreeMore(Heard(ps), p.videoBps.value);
    } else {
      assert Heard(ps) + [] == Heard(ps);
    }
  }

  lemma LongSinceIs(n: Control, ps: seq<Poll>, j: nat, gap: int)
    requires j < |ps| && LastChange(n, ps, j)
    ensures Since(ps[j].now, Exec(n, ps[..j]).changedAt, gap) <==> LongSinceChange(n, ps, j, gap)
  {
    hide Exec, Changes;
  }

  lemma LastChangeStep(n: Control, ps: seq<Poll>, j: nat)
    requires TimeForward(ps) && j < |ps| && LastChange(n, ps, j) && CapsOK(Exec(n, ps[..j]))
    ensures LastChange(n, ps, j + 1)
  {
    hide Update, CapsOK;
    ExecStep(n, ps, j);
    ChangeLeavesTime(Exec(n, ps[..j]), ps[j]);
    var c, d := Exec(n, ps[..j]), Exec(n, ps[..j + 1]);
    if d.cap != c.cap {
      assert Changes(n, ps, j);
    }
  }

  lemma WarmedUpIs(n: Control, ps: seq<Poll>, j: nat)
    requires j < |ps|
    requires var c := Exec(n, ps[..j]);
             && (forall t :: c.startedAt == Some(t) ==> exists k :: k < j && StartsAt(ps, k) && t == ps[k].now)
             && (c.startedAt.None? ==> forall k :: k < j ==> !StartsAt(ps, k))
    ensures var d := Look(Exec(n, ps[..j]), ps[j]);
            && (WarmedUp(ps, j) <==> !Warming(d, ps[j].now))
            && (forall t :: d.startedAt == Some(t) ==> exists k :: k < j + 1 && StartsAt(ps, k) && t == ps[k].now)
            && (d.startedAt.None? ==> forall k :: k < j + 1 ==> !StartsAt(ps, k))
  {
    hide Exec, Lines;
    FirstIsFirst(ps);
    var c := Exec(n, ps[..j]);
    if c.startedAt.None? && !ps[j].state.Unknown? {
      NoneBefore(ps, j);
    }
  }

  lemma FirstIsFirst(ps: seq<Poll>)
    ensures forall k, l :: StartsAt(ps, k) && StartsAt(ps, l) ==> k == l
  {
  }

  lemma {:induction false} NoneBefore(ps: seq<Poll>, j: nat)
    requires j < |ps| && (forall k :: k < j ==> !StartsAt(ps, k))
    ensures !ps[j].state.Unknown? ==> StartsAt(ps, j)
    decreases j
  {
    if j > 0 {
      NoneBefore(ps, j - 1);
    }
    forall i | 0 <= i < j ensures ps[i].state.Unknown? {
      NoneBefore(ps, i);
    }
  }

  // What a decision looks at

  /** The controller at poll j when it decides: looked, begun and counted. */
  function Deciding(n: Control, ps: seq<Poll>, j: nat): Control
    requires j < |ps|
  {
    var d := Look(Exec(n, ps[..j]), ps[j]);
    Count(Begin(d, ps[j].now), ps[j], Warming(d, ps[j].now))
  }

  /** The counts as they are at the decision. */
  lemma DecidingCounts(n: Control, ps: seq<Poll>, j: nat)
    requires j < |ps| && ps[j].video && Fields(n, ps, j)
    ensures var e := Deciding(n, ps, j); e.bad == BadCount(n, ps, j) && e.good == GoodCount(n, ps, j)
  {
    hide Exec, SpendsBad, SpendsGood, WarmedUp, LastChange, Heard, LastThree, StartsAt, Lines, CapsOK;
    WarmedUpIs(n, ps, j);
  }

  lemma DecidingRates(n: Control, ps: seq<Poll>, j: nat)
    requires j < |ps| && ps[j].video && Fields(n, ps, j)
    ensures var e := Deciding(n, ps, j); e.rates == LastThree(Heard(ps[..j + 1])) && Arriving(e.rates) == ArrivingAt(ps, j)
  {
    hide Exec, SpendsBad, SpendsGood, WarmedUp, LastChange, Heard, LastThree, StartsAt, Lines, CapsOK, BadCount, GoodCount;
    assert ps[..j] + [ps[j]] == ps[..j + 1];
    var d := Look(Exec(n, ps[..j]), ps[j]);
    var b := Begin(d, ps[j].now);
    assert b.rates == LastThree(Heard(ps[..j]));
    RatesGoOn(ps[..j], b, ps[j], Warming(d, ps[j].now));
  }

  lemma DecidingIs(n: Control, ps: seq<Poll>, j: nat)
    requires TimeForward(ps) && j < |ps| && ps[j].video && Fields(n, ps, j)
    ensures var c, e := Exec(n, ps[..j]), Deciding(n, ps, j);
            && e.bad == BadCount(n, ps, j) && e.good == GoodCount(n, ps, j)
            && e.rates == LastThree(Heard(ps[..j + 1])) && Arriving(e.rates) == ArrivingAt(ps, j)
            && e.maxLines == Tallest(ps[..j + 1]) && e.camera == n.camera && e.started && e.startCap == n.startCap
            && (c.started ==> e.cap == c.cap && e.changedAt == c.changedAt)
            && (!c.started ==> e.cap == n.startCap && (n.startCap.Some? ==> e.changedAt == Some(ps[j].now)))
            && (!c.started ==> e.bad <= 1 && e.good <= 1)
  {
    hide Exec, SpendsBad, SpendsGood, WarmedUp, LastChange, Heard, LastThree, StartsAt, Lines, Count, ArrivingAt, Arriving;
    assert ps[..j + 1][..j] == ps[..j];
    DecidingCounts(n, ps, j);
    DecidingRates(n, ps, j);
    var d := Look(Exec(n, ps[..j]), ps[j]);
    CountKeeps(Begin(d, ps[j].now), ps[j], Warming(d, ps[j].now));
    if !Exec(n, ps[..j]).started && j > 0 {
      NoCountYet(n, ps, j);
    }
  }

  lemma NoCountYet(n: Control, ps: seq<Poll>, j: nat)
    requires 0 < j < |ps| && !ps[j - 1].video
    ensures BadCount(n, ps, j - 1) == 0 && GoodCount(n, ps, j - 1) == 0
  {
  }

  lemma {:induction false} NotBoth(n: Control, ps: seq<Poll>, j: nat)
    requires j < |ps|
    ensures BadCount(n, ps, j) == 0 || GoodCount(n, ps, j) == 0
  {
    hide SpendsBad, SpendsGood, WarmedUp;
    if j > 0 {
      NotBoth(n, ps, j - 1);
    }
  }

  /** The two tests of the controller are those told from the polls. */
  lemma DecidesWhen(n: Control, ps: seq<Poll>, j: nat)
    requires TimeForward(ps) && j < |ps| && ps[j].video && Fields(n, ps, j)
    ensures var e, now := Deciding(n, ps, j), ps[j].now;
            && (SpendsBad(n, ps, j) <==> e.bad >= BAD_TO_DECREASE && Arriving(e.rates) > 0.0 && Since(now, e.changedAt, MIN_DECREASE_GAP))
            && (SpendsGood(n, ps, j) <==> e.cap.Some? && e.good >= GOOD_TO_INCREASE && Since(now, e.changedAt, MIN_INCREASE_GAP))
            && !(SpendsBad(n, ps, j) && SpendsGood(n, ps, j))
  {
    hide BadTwice, GoodEight, Exec, Deciding, ArrivingAt, BadCount, GoodCount, LongSinceChange, LastChange, Heard, LastThree, StartsAt;
    DecidingIs(n, ps, j);
    BadCountIs(n, ps, j);
    GoodEightIs(n, ps, j);
    NotBoth(n, ps, j);
    LongSinceIs(n, ps, j, 6000);
    LongSinceIs(n, ps, j, 15000);
  }

  /** What a decision leaves in the counters. */
  lemma DecideSpends(e: Control, now: int)
    ensures var d := Decide(e, now);
            var low := e.bad >= BAD_TO_DECREASE && Arriving(e.rates) > 0.0 && Since(now, e.changedAt, MIN_DECREASE_GAP);
            var high := e.cap.Some? && e.good >= GOOD_TO_INCREASE && Since(now, e.changedAt, MIN_INCREASE_GAP);
            && d == e.(bad := d.bad, good := d.good, cap := d.cap, changedAt := d.changedAt)
            && d.bad == (if low then 0 else e.bad) && d.good == (if high && !low then 0 else e.good)
  {
    hide Lowered, Raised, Arriving;
  }

  lemma FieldsStart(startCap: Option<real>, camera: bool, ps: seq<Poll>)
    ensures Fields(NewControl(startCap, camera), ps, 0)
  {
    assert ps[..0] == [];
  }

  lemma FieldsVideo(n: Control, ps: seq<Poll>, j: nat)
    requires TimeForward(ps) && j < |ps| && ps[j].video && Fields(n, ps, j)
    ensures Fields(n, ps, j + 1)
  {
    hide BadTwice, GoodEight, Count, Decide, BadCount, GoodCount, SpendsBad, SpendsGood;
    hide Heard, LastThree, StartsAt, Lines, LastChange, CapsOK;
    ExecStep(n, ps, j);
    var c, p, e := Exec(n, ps[..j]), ps[j], Deciding(n, ps, j);
    DecidingIs(n, ps, j);
    DecidesWhen(n, ps, j);
    DecideSpends(e, p.now);
    StepChanges(c, p);
    LastChangeStep(n, ps, j);
    WarmedUpIs(n, ps, j);
  }

  lemma FieldsStopped(n: Control, ps: seq<Poll>, j: nat)
    requires TimeForward(ps) && j < |ps| && !ps[j].video && Fields(n, ps, j)
    ensures Fields(n, ps, j + 1)
  {
    hide BadTwice, GoodEight, Heard, StartsAt, SpendsBad, SpendsGood, Lines, LastChange, CapsOK;
    ExecStep(n, ps, j);
    assert ps[..j + 1][..j] == ps[..j];
    HeardStops(ps, j);
    StepChanges(Exec(n, ps[..j]), ps[j]);
    LastChangeStep(n, ps, j);
    WarmedUpIs(n, ps, j);
  }

  lemma HeardStops(ps: seq<Poll>, j: nat)
    requires j < |ps| && !ps[j].video
    ensures Heard(ps[..j + 1]) == []
  {
  }

  lemma {:induction false} FieldsAre(startCap: Option<real>, camera: bool, ps: seq<Poll>, j: nat)
    requires TimeForward(ps) && j <= |ps|
    ensures Fields(NewControl(startCap, camera), ps, j)
  {
    hide Fields, NewControl;
    var n := NewControl(startCap, camera);
    if j == 0 {
      FieldsStart(startCap, camera, ps);
    } else {
      FieldsAre(startCap, camera, ps, j - 1);
      if ps[j - 1].video {
        FieldsVideo(n, ps, j - 1);
      } else {
        FieldsStopped(n, ps, j - 1);
      }
    }
  }

  // The cap

  /** 60% of what arrives or of the cap, whichever is less, but 150000 at least; and only if that is lower. */
  function LowerTo(was: Option<int>, arriving: real): Option<int> {
    var x := 0.6 * if was.None? || arriving < was.value as real then arriving else was.value as real;
    var v := if (x + 0.5).Floor < 150000 then 150000 else (x + 0.5).Floor;
    if x <= 100000000.0 && (was.None? || v < was.value) then Some(v) else was
  }

  /**
   * Twice the cap if less than 70% of it arrives, else 30% more; a camera stops at its ceiling, and
   * anything else is free from 3000000 on.
   */
  function RaiseTo(camera: bool, tallest: nat, was: int, arriving: real): Option<int> {
    var x := was as real * if 0.0 < arriving < 0.7 * was as real then 2.0 else 1.3;
    var v := if (x + 0.5).Floor < 150000 then 150000 else (x + 0.5).Floor;
    var ceiling := if tallest <= 540 then 2500000 else if tallest <= 800 then 4000000 else 6000000;
    if camera then Some(if was >= ceiling then was else if x > 100000000.0 || v > ceiling then ceiling else v)
    else if x > 100000000.0 || v >= 3000000 then None
    else Some(v)
  }

  /** A valid cap is rounded, and 150000 at least. */
  lemma Sanitized(x: real)
    requires x > 0.0
    ensures var v := if (x + 0.5).Floor < 150000 then 150000 else (x + 0.5).Floor;
            SanitizeCap(Some(x)) == if x <= 100000000.0 then Some(v) else None
  {
  }

  lemma LoweredIs(e: Control, arriving: real)
    requires arriving > 0.0 && (e.cap.Some? ==> e.cap.value >= MIN_CAP)
    ensures var l := Lowered(e.cap, arriving);
            LowerTo(e.cap, arriving) == if l.Some? && (e.cap.None? || l.value < e.cap.value) then l else e.cap
  {
    hide SanitizeCap;
    Sanitized(0.6 * if e.cap.None? || arriving < e.cap.value as real then arriving else e.cap.value as real);
  }

  lemma RaisedIs(camera: bool, tallest: nat, was: int, arriving: real)
    requires was >= MIN_CAP
    ensures var r, ceiling := Raised(was, arriving), CameraCeiling(tallest);
            RaiseTo(camera, tallest, was, arriving) ==
              if camera then Some(if was >= ceiling then was else if r.None? then ceiling else MinOf(r.value, ceiling))
              else if r.None? || r.value >= RELEASE_AT then None else r
  {
    hide SanitizeCap;
    Sanitized(was as real * if 0.0 < arriving < 0.7 * was as real then 2.0 else 1.3);
  }

  lemma DecidesWhat(e: Control, now: int)
    requires e.cap.Some? ==> e.cap.value >= MIN_CAP
    ensures var d := Decide(e, now); var arriving := Arriving(e.rates);
            var low := e.bad >= BAD_TO_DECREASE && arriving > 0.0 && Since(now, e.changedAt, MIN_DECREASE_GAP);
            var high := e.cap.Some? && e.good >= GOOD_TO_INCREASE && Since(now, e.changedAt, MIN_INCREASE_GAP);
            d.cap == if low then LowerTo(e.cap, arriving)
                     else if high then RaiseTo(e.camera, e.maxLines, e.cap.value, arriving) else e.cap
  {
    hide Arriving, Lowered, Raised, LowerTo, RaiseTo, CameraCeiling;
    if Arriving(e.rates) > 0.0 {
      LoweredIs(e, Arriving(e.rates));
    }
    if e.cap.Some? {
      RaisedIs(e.camera, e.maxLines, e.cap.value, Arriving(e.rates));
    }
  }

  /**
   * The cap after each poll, over every run with time going forward: none without video; the start cap
   * when video begins; lower or higher when, and only when, the polls so far demand it; else as before.
   */
  lemma CapIs(startCap: Option<real>, camera: bool, ps: seq<Poll>, j: nat)
    requires TimeForward(ps) && j < |ps|
    ensures var n := NewControl(startCap, camera); var was, cap := CapAt(n, ps, j), CapAt(n, ps, j + 1);
            if !ps[j].video then cap == None
            else if j == 0 || !ps[j - 1].video then cap == SanitizeCap(startCap)
            else if SpendsBad(n, ps, j) then cap == LowerTo(was, ArrivingAt(ps, j))
            else if SpendsGood(n, ps, j) then cap == RaiseTo(camera, Tallest(ps[..j + 1]), was.value, ArrivingAt(ps, j))
            else cap == was
  {
    var n := NewControl(startCap, camera);
    hide SpendsBad, SpendsGood, Decide, Count, ArrivingAt, LowerTo, RaiseTo, SanitizeCap, BadCount, GoodCount;
    hide Lines, LastChange, Heard, LastThree, StartsAt;
    FieldsAre(startCap, camera, ps, j);
    ExecStep(n, ps, j);
    if ps[j].video {
      var e := Deciding(n, ps, j);
      DecidingIs(n, ps, j);
      DecidesWhen(n, ps, j);
      DecidesWhat(e, ps[j].now);
    }
  }

  // What is sent

  /** The last message before poll j is remembered, and nothing else. */
  ghost predicate LastSend(n: Control, ps: seq<Poll>, j: nat)
    requires j <= |ps|
  {
    var at := Exec(n, ps[..j]).sentAt;
    && (at.Some? ==> exists i :: 0 <= i < j && ReplyAt(n, ps, i).send && ps[i].now == at.value)
    && (forall i :: 0 <= i < j && ReplyAt(n, ps, i).send ==> at.Some? && at.value >= ps[i].now)
  }

  lemma {:induction false} LastSendIs(startCap: Option<real>, camera: bool, ps: seq<Poll>, j: nat)
    requires TimeForward(ps) && j <= |ps|
    ensures LastSend(NewControl(startCap, camera), ps, j)
  {
    hide Update, NewControl;
    var n := NewControl(startCap, camera);
    if j == 0 {
      NothingSent(startCap, camera, ps);
    } else {
      LastSendIs(startCap, camera, ps, j - 1);
      ExecStep(n, ps, j - 1);
      SendLeavesTime(Exec(n, ps[..j - 1]), ps[j - 1]);
    }
  }

  lemma NothingSent(startCap: Option<real>, camera: bool, ps: seq<Poll>)
    ensures LastSend(NewControl(startCap, camera), ps, 0)
  {
    assert ps[..0] == [];
  }

  lemma SendLeavesTime(c: Control, p: Poll)
    ensures var (d, r) := Update(c, p);
            && d.sentAt == (if r.send then Some(p.now) else c.sentAt)
            && r.cap == d.cap && (r.changed <==> d.cap != c.cap)
            && (r.send <==> r.changed || (d.cap.Some? && Since(p.now, c.sentAt, REFRESH)))
  {
    hide Lines, Decide, Count, Begin;
    NotSentYet(Look(c, p), p);
  }

  /**
   * On every run with time going forward: a message goes to the sender with a poll exactly if the cap has
   * changed, or a cap stands and none has gone out for ten seconds.
   */
  lemma SentWhen(startCap: Option<real>, camera: bool, ps: seq<Poll>, j: nat)
    requires TimeForward(ps) && j < |ps|
    ensures var n := NewControl(startCap, camera); var r := ReplyAt(n, ps, j);
            && r.cap == CapAt(n, ps, j + 1) && (r.changed <==> Changes(n, ps, j))
            && (r.send <==> || Changes(n, ps, j)
                            || (r.cap.Some? && forall i :: 0 <= i < j && ReplyAt(n, ps, i).send ==> ps[j].now - ps[i].now >= 10000))
  {
    hide Update, NewControl, Exec;
    var n := NewControl(startCap, camera);
    LastSendIs(startCap, camera, ps, j);
    ExecStep(n, ps, j);
    SendLeavesTime(Exec(n, ps[..j]), ps[j]);
  }
}
