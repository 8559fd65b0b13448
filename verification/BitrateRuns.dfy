/** What the bitrate controller promises over whole runs of polls. */
module BitrateRuns {
  import opened Common
  import opened BitrateController

  predicate TimeForward(ps: seq<Poll>) {
    forall i, j :: 0 <= i < j < |ps| ==> ps[i].now <= ps[j].now
  }

  /** The cap asked for after the first i polls. */
  function CapAt(c: Control, ps: seq<Poll>, i: nat): Option<int>
    requires i <= |ps|
  {
    Exec(c, ps[..i]).cap
  }

  /** The answer to the i-th poll. */
  function ReplyAt(c: Control, ps: seq<Poll>, i: nat): Reply
    requires i < |ps|
  {
    Update(Exec(c, ps[..i]), ps[i]).1
  }

  /** The poll changes the cap. */
  predicate Changes(c: Control, ps: seq<Poll>, i: int) {
    0 <= i < |ps| && CapAt(c, ps, i) != CapAt(c, ps, i + 1)
  }

  /** Every change before a poll is at least so long ago. */
  ghost predicate LongSinceChange(c: Control, ps: seq<Poll>, j: nat, gap: int)
    requires j < |ps|
  {
    forall i :: i < j && Changes(c, ps, i) ==> ps[j].now - ps[i].now >= gap
  }

  lemma ExecStep(c: Control, ps: seq<Poll>, i: nat)
    requires i < |ps|
    ensures Exec(c, ps[..i + 1]) == Update(Exec(c, ps[..i]), ps[i]).0
  {
    assert ps[..i + 1][..i] == ps[..i];
  }

  // The range of a camera's cap

  ghost predicate CameraOK(c: Control) {
    && c.camera && c.startCap.Some? && MIN_CAP <= c.startCap.value <= LOWEST_CEILING
    && (c.started <==> c.cap.Some?)
    && (c.cap.Some? ==> MIN_CAP <= c.cap.value <= CameraCeiling(c.maxLines))
  }

  lemma CameraStep(c: Control, p: Poll)
    requires CameraOK(c)
    ensures CameraOK(Update(c, p).0) && (Update(c, p).0.cap.Some? <==> p.video)
  {
    hide SanitizeCap, Count, Highest, Lines;
    var d := Begin(Look(c, p), p.now);
    var e := Count(d, p, Warming(Look(c, p), p.now));
    CountKeeps(d, p, Warming(Look(c, p), p.now));
    if p.video {
      assert CameraOK(d);
      DecideKeeps(e, p.now);
    }
  }

  lemma CountKeeps(c: Control, p: Poll, warming: bool)
    ensures var d := Count(c, p, warming);
            d == c.(rates := d.rates, bad := d.bad, good := d.good)
  {
  }

  lemma DecideKeeps(c: Control, now: int)
    requires CameraOK(c) && c.cap.Some?
    ensures CameraOK(Decide(c, now)) && Decide(c, now).cap.Some?
  {
    hide SanitizeCap, Highest;
  }

  lemma {:induction false} CameraRun(startCap: Option<real>, ps: seq<Poll>)
    requires var s := SanitizeCap(startCap); s.Some? && s.value <= LOWEST_CEILING
    ensures var c := Exec(NewControl(startCap, true), ps);
            CameraOK(c) && (ps != [] ==> (c.cap.Some? <==> ps[|ps| - 1].video))
  {
    hide Update, SanitizeCap;
    if ps != [] {
      CameraRun(startCap, ps[..|ps| - 1]);
      CameraStep(Exec(NewControl(startCap, true), ps[..|ps| - 1]), ps[|ps| - 1]);
    }
  }

  /** After every poll with video a camera's cap is there, and between the floor and the ceiling of the largest picture. */
  ghost predicate CameraInRange(startCap: Option<real>) {
    forall ps: seq<Poll> {:trigger Exec(NewControl(startCap, true), ps)} :: ps != [] && ps[|ps| - 1].video ==>
      var c := Exec(NewControl(startCap, true), ps);
      c.cap.Some? && MIN_CAP <= c.cap.value <= CameraCeiling(c.maxLines)
  }

  /** That holds on every run exactly if the camera starts with a cap no higher than the lowest ceiling. */
  lemma CameraInRangeIff(startCap: Option<real>)
    ensures CameraInRange(startCap) <==> var s := SanitizeCap(startCap); s.Some? && s.value <= LOWEST_CEILING
  {
    hide SanitizeCap, Update;
    var s := SanitizeCap(startCap);
    if s.Some? && s.value <= LOWEST_CEILING {
      forall ps: seq<Poll> | ps != [] && ps[|ps| - 1].video
        ensures var c := Exec(NewControl(startCap, true), ps);
                c.cap.Some? && MIN_CAP <= c.cap.value <= CameraCeiling(c.maxLines) {
        CameraRun(startCap, ps);
      }
    } else {
      var p := Poll(0, true, Unknown, None, 0, 0);
      FirstPoll(startCap, p);
      assert [p][..0] == [];
      assert Exec(NewControl(startCap, true), [p]) == Update(NewControl(startCap, true), p).0;
    }
  }

  lemma FirstPoll(startCap: Option<real>, p: Poll)
    requires p == Poll(0, true, Unknown, None, 0, 0)
    ensures var c := Update(NewControl(startCap, true), p).0; c.cap == SanitizeCap(startCap) && c.maxLines == 0
  {
    hide SanitizeCap;
  }

  // The pace of changes

  datatype Change = Same | Lower | Higher

  /** A cap where there was none is lower, and lifting it altogether is higher. */
  function Direction(was: Option<int>, cap: Option<int>): Change {
    if was == cap then Same
    else if cap.None? then Higher
    else if was.None? || cap.value < was.value then Lower
    else Higher
  }

  ghost predicate CapsOK(c: Control) {
    && (c.startCap.Some? ==> c.startCap.value >= MIN_CAP)
    && (c.cap.Some? ==> c.cap.value >= MIN_CAP)
    && (!c.started ==> c.cap.None?)
  }

  lemma RaisedIsHigher(cap: int, arriving: real)
    requires cap >= MIN_CAP
    ensures Raised(cap, arriving).Some? ==> Raised(cap, arriving).value > cap
  {
    var r := cap as real;
    assert r * INCREASE >= r + 45000.0 && r * INCREASE_UNUSED >= r + 45000.0;
  }

  /** A decision to change the cap: what it takes, and what it leaves behind. */
  lemma DecidePace(c: Control, now: int)
    requires c.cap.Some? ==> c.cap.value >= MIN_CAP
    ensures var d := Decide(c, now);
            && (d.cap.Some? ==> d.cap.value >= MIN_CAP) && d.bad <= c.bad
            && d.startedAt == c.startedAt && d.startCap == c.startCap && d.started == c.started
            && (match Direction(c.cap, d.cap)
                case Same => d.changedAt == c.changedAt
                case Lower =>
                  Since(now, c.changedAt, MIN_DECREASE_GAP) && d.changedAt == Some(now) && c.bad >= BAD_TO_DECREASE
                case Higher =>
                  Since(now, c.changedAt, MIN_INCREASE_GAP) && d.changedAt == Some(now) && c.good >= GOOD_TO_INCREASE)
  {
    hide Raised, Lowered, Highest, Round;
    if c.cap.Some? {
      RaisedIsHigher(c.cap.value, Arriving(c.rates));
    }
    LoweredInRange(c);
  }

  lemma LoweredInRange(c: Control)
    ensures var l := Lowered(c.cap, Arriving(c.rates)); l.Some? ==> l.value >= MIN_CAP
  {
  }

  /** While video keeps arriving, when a poll may change the cap. */
  lemma StepPace(c: Control, p: Poll)
    requires CapsOK(c) && p.video && c.started
    ensures match Direction(c.cap, Update(c, p).0.cap)
            case Same => true
            case Lower =>
              && Since(p.now, c.changedAt, MIN_DECREASE_GAP)
              && Count(Look(c, p), p, Warming(Look(c, p), p.now)).bad >= BAD_TO_DECREASE
            case Higher => Since(p.now, c.changedAt, MIN_INCREASE_GAP)
  {
    hide Count, Decide, Lines, CapsOK;
    assert c.cap.Some? ==> c.cap.value >= MIN_CAP by { CapsParts(c); }
    var b := Begin(Look(c, p), p.now);
    CountKeeps(b, p, Warming(Look(c, p), p.now));
    SameBegin(Look(c, p), p.now);
    DecidePace(Count(b, p, Warming(Look(c, p), p.now)), p.now);
  }

  lemma CapsParts(c: Control)
    requires CapsOK(c)
    ensures c.cap.Some? ==> c.cap.value >= MIN_CAP
  {
  }

  lemma SameBegin(c: Control, now: int)
    requires c.started
    ensures Begin(c, now) == c
  {
  }

  /** Every change leaves its time behind, and nothing else does. */
  lemma StepChanges(c: Control, p: Poll)
    requires CapsOK(c)
    ensures var d := Update(c, p).0;
            && CapsOK(d) && (d.started <==> p.video)
            && (d.cap != c.cap ==> d.changedAt == Some(p.now))
            && (d.changedAt == c.changedAt || d.changedAt == Some(p.now))
            && d.startedAt == Look(c, p).startedAt
            && d.bad <= (if p.video then Count(Look(c, p), p, Warming(Look(c, p), p.now)).bad else 0)
  {
    hide Count, Decide, Lines;
    if p.video {
      var b := Begin(Look(c, p), p.now);
      CountKeeps(b, p, Warming(Look(c, p), p.now));
      SameCounts(Look(c, p), b, p, Warming(Look(c, p), p.now));
      DecidePace(Count(b, p, Warming(Look(c, p), p.now)), p.now);
    }
  }

  lemma SameCounts(c: Control, b: Control, p: Poll, warming: bool)
    requires c.bad == b.bad
    ensures Count(c, p, warming).bad == Count(b, p, warming).bad
  {
  }

  /** The first poll that says anything starts the clock of the warm-up. */
  predicate StartsAt(ps: seq<Poll>, k: int) {
    0 <= k < |ps| && !ps[k].state.Unknown? && forall j :: 0 <= j < k ==> ps[j].state.Unknown?
  }

  ghost predicate History(startCap: Option<real>, camera: bool, ps: seq<Poll>) {
    var c := Exec(NewControl(startCap, camera), ps);
    && CapsOK(c)
    && (ps != [] ==> (c.started <==> ps[|ps| - 1].video))
    && (forall i :: Changes(NewControl(startCap, camera), ps, i) ==> c.changedAt.Some? && c.changedAt.value >= ps[i].now)
    && (c.startedAt.Some? ==> exists k :: StartsAt(ps, k) && c.startedAt.value == ps[k].now)
    && (c.startedAt.None? ==> forall j :: 0 <= j < |ps| ==> ps[j].state.Unknown?)
    && (c.bad > 0 ==> c.startedAt.Some? && ps != [] && ps[|ps| - 1].now - c.startedAt.value >= WARMUP)
  }

  lemma {:induction false} HistoryHolds(startCap: Option<real>, camera: bool, ps: seq<Poll>)
    requires TimeForward(ps)
    ensures History(startCap, camera, ps)
  {
    hide Update, SanitizeCap, History;
    if ps == [] {
      NoHistory(startCap, camera);
    } else {
      HistoryHolds(startCap, camera, ps[..|ps| - 1]);
      HistoryStep(startCap, camera, ps);
    }
  }

  lemma NoHistory(startCap: Option<real>, camera: bool)
    ensures History(startCap, camera, [])
  {
  }

  lemma HistoryStep(startCap: Option<real>, camera: bool, ps: seq<Poll>)
    requires ps != [] && TimeForward(ps) && History(startCap, camera, ps[..|ps| - 1])
    ensures History(startCap, camera, ps)
  {
    hide Update, SanitizeCap, CapsOK, Count, Changes, StartsAt, NewControl;
    var c, p := Exec(NewControl(startCap, camera), ps[..|ps| - 1]), ps[|ps| - 1];
    StepChanges(c, p);
    ChangedBefore(NewControl(startCap, camera), ps);
    Started(c, p, ps);
    BadLater(c, p, ps);
  }

  /** No change comes after the time that the controller remembers. */
  lemma ChangedBefore(n: Control, ps: seq<Poll>)
    requires ps != [] && TimeForward(ps)
    requires var before := ps[..|ps| - 1]; var c := Exec(n, before);
             && CapsOK(c) && forall i :: Changes(n, before, i) ==> c.changedAt.Some? && c.changedAt.value >= before[i].now
    ensures var d := Exec(n, ps); forall i :: Changes(n, ps, i) ==> d.changedAt.Some? && d.changedAt.value >= ps[i].now
  {
    hide Update, CapsOK, Count;
    var before, p := ps[..|ps| - 1], ps[|ps| - 1];
    var d := Exec(n, ps);
    StepChanges(Exec(n, before), p);
    forall i | Changes(n, ps, i) ensures d.changedAt.Some? && d.changedAt.value >= ps[i].now {
      if i < |before| {
        assert before[..i] == ps[..i] && before[..i + 1] == ps[..i + 1] && before[i] == ps[i];
        assert Changes(n, before, i);
      } else {
        assert ps[..i] == before && ps[..i + 1] == ps;
      }
    }
  }

  lemma Started(c: Control, p: Poll, ps: seq<Poll>)
    requires ps != [] && p == ps[|ps| - 1]
    requires var before := ps[..|ps| - 1];
             && (c.startedAt.Some? ==> exists k :: StartsAt(before, k) && c.startedAt.value == before[k].now)
             && (c.startedAt.None? ==> forall j :: 0 <= j < |before| ==> before[j].state.Unknown?)
    ensures var at := Look(c, p).startedAt;
            && (at.Some? ==> exists k :: StartsAt(ps, k) && at.value == ps[k].now)
            && (at.None? ==> forall j :: 0 <= j < |ps| ==> ps[j].state.Unknown?)
  {
    var before := ps[..|ps| - 1];
    assert forall j :: 0 <= j < |before| ==> before[j] == ps[j];
    if c.startedAt.Some? {
      var k :| StartsAt(before, k) && c.startedAt.value == before[k].now;
      assert StartsAt(ps, k);
    } else if !p.state.Unknown? {
      assert StartsAt(ps, |ps| - 1);
    }
  }

  lemma BadLater(c: Control, p: Poll, ps: seq<Poll>)
    requires ps != [] && p == ps[|ps| - 1] && TimeForward(ps)
    requires var before := ps[..|ps| - 1];
             c.bad > 0 ==> c.startedAt.Some? && before != [] && before[|before| - 1].now - c.startedAt.value >= WARMUP
    ensures Count(Look(c, p), p, Warming(Look(c, p), p.now)).bad > 0 ==>
              Look(c, p).startedAt.Some? && p.now - Look(c, p).startedAt.value >= WARMUP
  {
    if c.bad > 0 {
      assert ps[..|ps| - 1][|ps| - 2] == ps[|ps| - 2];
    }
  }

  /**
   * While video keeps arriving, the cap comes down at least six seconds and goes up at
   * least fifteen seconds after every earlier change, and it does not come down within
   * ten seconds of the first poll that said anything.
   */
  lemma ChangesArePaced(startCap: Option<real>, camera: bool, ps: seq<Poll>, j: nat)
    requires TimeForward(ps) && 0 < j < |ps| && ps[j - 1].video && ps[j].video
    ensures var n := NewControl(startCap, camera);
            match Direction(CapAt(n, ps, j), CapAt(n, ps, j + 1))
            case Same => true
            case Lower =>
              && LongSinceChange(n, ps, j, MIN_DECREASE_GAP)
              && (exists k :: StartsAt(ps, k) && ps[j].now - ps[k].now >= WARMUP)
            case Higher => LongSinceChange(n, ps, j, MIN_INCREASE_GAP)
  {
    hide Update, SanitizeCap, CapsOK, Count, Exec, NewControl;
    var n := NewControl(startCap, camera);
    var before, upTo := ps[..j], ps[..j + 1];
    var c := Exec(n, before);
    HistoryHolds(startCap, camera, before);
    assert before[|before| - 1] == ps[j - 1];
    ExecStep(n, ps, j);
    StepPace(c, ps[j]);
    forall i | i < j && Changes(n, ps, i) ensures c.changedAt.Some? && c.changedAt.value >= ps[i].now {
      assert before[..i] == ps[..i] && before[..i + 1] == ps[..i + 1] && before[i] == ps[i];
      assert Changes(n, before, i);
    }
    if Direction(CapAt(n, ps, j), CapAt(n, ps, j + 1)) == Lower {
      assert upTo[..|upTo| - 1] == before;
      Started(c, ps[j], upTo);
      BadLater(c, ps[j], upTo);
      var k :| StartsAt(upTo, k) && Look(c, ps[j]).startedAt.value == upTo[k].now;
      assert StartsAt(ps, k);
    }
  }

  // The size of changes

  lemma {:induction false} HighestIsMax(rates: seq<real>)
    requires rates != []
    ensures Highest(rates) in rates && forall i :: 0 <= i < |rates| ==> rates[i] <= Highest(rates)
  {
    if |rates| > 1 {
      HighestIsMax(rates[1..]);
      assert forall i :: 0 < i < |rates| ==> rates[i] == rates[1..][i - 1];
    }
  }

  /** The floor, or 60% or less of what arrives and of the old cap, rounded. */
  predicate Small(cap: int, was: Option<int>, arriving: real) {
    || cap == MIN_CAP
    || (cap as real <= arriving * DECREASE + 0.5 && (was.Some? ==> cap as real <= was.value as real * DECREASE + 0.5))
  }

  /**
   * A decrease goes to the floor or to 60% or less of what arrives and of the old cap;
   * an increase of a camera's cap at most doubles it, and makes 30% unless the
   * ceiling stops it; anything else is lifted rather than capped at RELEASE_AT.
   */
  lemma SizeOfChanges(c: Control, now: int)
    requires c.cap.Some? ==> c.cap.value >= MIN_CAP
    ensures var d := Decide(c, now); var arriving := Arriving(c.rates);
            match Direction(c.cap, d.cap)
            case Same => true
            case Lower => arriving > 0.0 && Small(d.cap.value, c.cap, arriving)
            case Higher =>
              if c.camera then
                && d.cap.Some? && d.cap.value <= 2 * c.cap.value && d.cap.value <= CameraCeiling(c.maxLines)
                && (d.cap.value == CameraCeiling(c.maxLines) || d.cap.value as real >= c.cap.value as real * INCREASE - 0.5)
              else
                d.cap.Some? ==> d.cap.value < RELEASE_AT && d.cap.value as real >= c.cap.value as real * INCREASE - 0.5
  {
    hide Highest, Round, Raised, Lowered;
    LoweredSize(c.cap, Arriving(c.rates));
    if c.cap.Some? {
      RaisedSize(c.cap.value, Arriving(c.rates));
    }
  }

  lemma LoweredSize(cap: Option<int>, arriving: real)
    ensures var l := Lowered(cap, arriving); l.Some? ==> Small(l.value, cap, arriving)
  {
  }

  /** None only when doubling would pass MAX_CAP, far above every ceiling. */
  lemma RaisedSize(cap: int, arriving: real)
    requires cap >= MIN_CAP
    ensures var r := Raised(cap, arriving);
            && (r.Some? ==> cap < r.value <= 2 * cap && r.value as real >= cap as real * INCREASE - 0.5)
            && (r.None? ==> cap > MAX_CAP / 2)
  {
    var x := cap as real;
    assert x * INCREASE_UNUSED == (2 * cap) as real;
    assert x * INCREASE <= x * INCREASE_UNUSED - 0.5;
  }

  // Standing caps are repeated

  /** Whenever a cap stands after a poll, it was last sent less than REFRESH before. */
  lemma StandingCapIsRepeated(c: Control, p: Poll)
    ensures var (d, r) := Update(c, p);
            && r.cap == d.cap
            && (d.cap.Some? ==> d.sentAt.Some? && p.now - d.sentAt.value < REFRESH)
            && (r.send ==> d.sentAt == Some(p.now))
            && (!r.send ==> d.sentAt == c.sentAt && d.cap == c.cap)
  {
    hide Lines, Decide, Count, Begin;
    var b := Count(Begin(Look(c, p), p.now), p, Warming(Look(c, p), p.now));
    NotSentYet(Look(c, p), p);
  }

  lemma NotSentYet(c: Control, p: Poll)
    ensures Decide(Count(Begin(c, p.now), p, Warming(c, p.now)), p.now).sentAt == c.sentAt
  {
    hide Raised, Lowered, Highest;
  }
}
