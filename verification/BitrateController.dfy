/**
 * The receiver's bitrate controller of static/bitrate-control.js.  A poll comes in
 * as the judgement on it, whatever that was measured against; caps are whole
 * numbers of bits per second, and times whole milliseconds.
 */
module BitrateController {
  import opened Common

  const MIN_CAP := 150000
  const MAX_CAP := 100000000
  const RELEASE_AT := 3000000
  const DECREASE := 0.6
  const INCREASE := 1.3
  const INCREASE_UNUSED := 2.0
  const UNUSED_BELOW := 0.7
  const BAD_TO_DECREASE := 2
  const GOOD_TO_INCREASE := 8
  const MIN_DECREASE_GAP := 6000
  const MIN_INCREASE_GAP := 15000
  const WARMUP := 10000
  const REFRESH := 10000
  const LOWEST_CEILING := 2500000

  function Round(x: real): int { (x + 0.5).Floor }

  function Max(a: int, b: int): int { if a > b then a else b }

  function MinOf(a: int, b: int): int { if a < b then a else b }

  /** None is anything that is not a finite number. */
  function SanitizeCap(cap: Option<real>): (r: Option<int>)
    ensures r.Some? <==> cap.Some? && 0.0 < cap.value <= MAX_CAP as real
    ensures r.Some? ==> MIN_CAP <= r.value <= MAX_CAP
  {
    if cap.None? || cap.value <= 0.0 || cap.value > MAX_CAP as real then None
    else Some(Max(MIN_CAP, Round(cap.value)))
  }

  datatype Judgement = Unknown | Bad | Hold | Good

  /** One poll: whether there is video at all, and what the interval since the last one looked like. */
  datatype Poll = Poll(now: int, video: bool, state: Judgement, videoBps: Option<real>, width: nat, height: nat)

  datatype Control = Control(
    startCap: Option<int>, camera: bool, maxLines: nat, started: bool, cap: Option<int>,
    bad: nat, good: nat,
    changedAt: Option<int>, sentAt: Option<int>, startedAt: Option<int>,  // None is before all time
    rates: seq<real>
  )

  datatype Reply = Reply(cap: Option<int>, changed: bool, send: bool)

  function NewControl(startCap: Option<real>, camera: bool): Control {
    Control(SanitizeCap(startCap), camera, 0, false, None, 0, 0, None, None, None, [])
  }

  function CameraCeiling(maxLines: nat): int {
    if maxLines <= 540 then LOWEST_CEILING else if maxLines <= 800 then 4000000 else 6000000
  }

  /** At least so long ago. */
  predicate Since(now: int, at: Option<int>, gap: int) { at.None? || now - at.value >= gap }

  /** The lines of the picture, whichever way up it is. */
  function Lines(p: Poll): (r: nat)
    ensures r <= p.height && (p.width > 0 ==> r <= p.width)
    ensures r == p.height || (p.width > 0 && r == p.width)
  {
    if p.width > 0 then MinOf(p.width, p.height) else p.height
  }

  predicate Warming(c: Control, now: int) { c.startedAt.None? || now - c.startedAt.value < WARMUP }

  function Look(c: Control, p: Poll): Control {
    c.(maxLines := Max(c.maxLines, Lines(p)),
       startedAt := if c.startedAt.None? && !p.state.Unknown? then Some(p.now) else c.startedAt)
  }

  /** No video at all: nothing is asked for any more. */
  function Stop(c: Control, now: int): (Control, Reply) {
    var changed := c.cap.Some?;
    var at := if changed then Some(now) else c.changedAt;
    (c.(started := false, rates := [], bad := 0, good := 0, cap := None,
        changedAt := at, sentAt := if changed then Some(now) else c.sentAt),
     Reply(None, changed, changed))
  }

  function Begin(c: Control, now: int): Control {
    if !c.started && c.startCap.Some? && c.cap.None?
    then c.(started := true, cap := c.startCap, changedAt := Some(now))
    else c.(started := true)
  }

  function Count(c: Control, p: Poll, warming: bool): Control {
    var rates := if p.state.Unknown? || p.videoBps.None? then c.rates
                 else if |c.rates| < 3 then c.rates + [p.videoBps.value]
                 else c.rates[1..] + [p.videoBps.value];
    match p.state
    case Unknown => c.(rates := rates)
    case Bad => c.(rates := rates, bad := if warming then 0 else c.bad + 1, good := 0)
    case Good => c.(rates := rates, good := c.good + 1, bad := 0)
    case Hold => c.(rates := rates, bad := 0, good := 0)
  }

  function Highest(rates: seq<real>): real
    requires rates != []
  {
    if |rates| == 1 then rates[0]
    else
      var m := Highest(rates[1..]);
      if rates[0] > m then rates[0] else m
  }

  function Arriving(rates: seq<real>): real { if rates == [] then 0.0 else Highest(rates) }

  function Lowered(cap: Option<int>, arriving: real): Option<int> {
    var base := if cap.None? || arriving < cap.value as real then arriving else cap.value as real;
    SanitizeCap(Some(base * DECREASE))
  }

  function Raised(cap: int, arriving: real): Option<int> {
    var factor := if arriving > 0.0 && arriving < cap as real * UNUSED_BELOW then INCREASE_UNUSED else INCREASE;
    SanitizeCap(Some(cap as real * factor))
  }

  function Decide(c: Control, now: int): Control {
    var arriving := Arriving(c.rates);
    if c.bad >= BAD_TO_DECREASE && arriving > 0.0 && Since(now, c.changedAt, MIN_DECREASE_GAP) then
      var cap := Lowered(c.cap, arriving);
      if cap.Some? && (c.cap.None? || cap.value < c.cap.value)
      then c.(bad := 0, cap := cap, changedAt := Some(now))
      else c.(bad := 0)
    else if c.cap.Some? && c.good >= GOOD_TO_INCREASE && Since(now, c.changedAt, MIN_INCREASE_GAP) then
      var cap := Raised(c.cap.value, arriving);
      if c.camera then
        var ceiling := CameraCeiling(c.maxLines);
        if c.cap.value < ceiling
        then c.(good := 0, changedAt := Some(now), cap := Some(if cap.None? then ceiling else MinOf(cap.value, ceiling)))
        else c.(good := 0)
      else c.(good := 0, changedAt := Some(now), cap := if cap.None? || cap.value >= RELEASE_AT then None else cap)
    else c
  }

  function Resend(c: Control, now: int, was: Option<int>): (Control, Reply) {
    var changed := c.cap != was;
    var send := changed || (c.cap.Some? && Since(now, c.sentAt, REFRESH));
    (c.(sentAt := if send then Some(now) else c.sentAt), Reply(c.cap, changed, send))
  }

  function Update(c: Control, p: Poll): (Control, Reply) {
    var d := Look(c, p);
    if !p.video then Stop(d, p.now)
    else Resend(Decide(Count(Begin(d, p.now), p, Warming(d, p.now)), p.now), p.now, c.cap)
  }

  function Exec(c: Control, ps: seq<Poll>): Control {
    if ps == [] then c else Update(Exec(c, ps[..|ps| - 1]), ps[|ps| - 1]).0
  }

  /** The controller with its fields, as update changes them. */
  class Controller {
    const startCap: Option<int>
    const camera: bool
    var maxLines: nat
    var started: bool
    var cap: Option<int>
    var bad: nat
    var good: nat
    var changedAt: Option<int>
    var sentAt: Option<int>
    var startedAt: Option<int>
    var rates: seq<real>

    ghost function View(): Control
      reads this
    {
      Control(startCap, camera, maxLines, started, cap, bad, good, changedAt, sentAt, startedAt, rates)
    }

    constructor (startCap: Option<real>, camera: bool)
      ensures View() == NewControl(startCap, camera)
    {
      this.startCap, this.camera := SanitizeCap(startCap), camera;
      maxLines, started, cap, bad, good := 0, false, None, 0, 0;
      changedAt, sentAt, startedAt, rates := None, None, None, [];
    }

    method Ceiling() returns (r: Option<int>)
      ensures r == if camera then Some(CameraCeiling(maxLines)) else None
    {
      if !camera {
        return None;
      }
      var table := [(Some(540), 2500000), (Some(800), 4000000), (None, 6000000)];
      var i := 0;
      while i < |table|
        invariant 0 <= i < |table|
        invariant forall k :: 0 <= k < i ==> table[k].0.Some? && maxLines > table[k].0.value
      {
        assert i > 0 ==> maxLines > table[0].0.value;
        assert i > 1 ==> maxLines > table[1].0.value;
        if table[i].0.None? || maxLines <= table[i].0.value {
          return Some(table[i].1);
        }
        i := i + 1;
      }
    }

    method UpdateWith(p: Poll) returns (r: Reply)
      modifies this
      ensures (View(), r) == Update(old(View()), p)
    {
      hide Lines, Highest, Count, Decide, Stop, Resend, Begin, SanitizeCap;
      var was := cap;
      maxLines := Max(maxLines, Lines(p));
      if startedAt.None? && !p.state.Unknown? {
        startedAt := Some(p.now);
      }
      var warming := startedAt.None? || p.now - startedAt.value < WARMUP;
      if !p.video {
        r := Off(p.now);
        return;
      }
      On(p.now);
      Tally(p, warming);
      Adjust(p.now);
      r := Answer(p.now, was);
    }

    method Off(now: int) returns (r: Reply)
      modifies this
      ensures (View(), r) == Stop(old(View()), now)
    {
      started, rates, bad, good := false, [], 0, 0;
      var changed := cap.Some?;
      cap := None;
      if changed {
        changedAt, sentAt := Some(now), Some(now);
      }
      r := Reply(None, changed, changed);
    }

    method On(now: int)
      modifies this
      ensures View() == Begin(old(View()), now)
    {
      if !started {
        started := true;
        if startCap.Some? && cap.None? {
          cap, changedAt := startCap, Some(now);
        }
      }
    }

    method Tally(p: Poll, warming: bool)
      modifies this
      ensures View() == Count(old(View()), p, warming)
    {
      if !p.state.Unknown? && p.videoBps.Some? {
        rates := rates + [p.videoBps.value];
        if |rates| > 3 {
          rates := rates[1..];
        }
      }
      match p.state {
        case Unknown =>
        case Bad => bad, good := if warming then 0 else bad + 1, 0;
        case Good => good, bad := good + 1, 0;
        case Hold => bad, good := 0, 0;
      }
    }

    method Adjust(now: int)
      modifies this
      ensures View() == Decide(old(View()), now)
    {
      hide Highest, SanitizeCap;
      var arriving := Arriving(rates);
      if bad >= BAD_TO_DECREASE && arriving > 0.0 && Since(now, changedAt, MIN_DECREASE_GAP) {
        var lower := Lowered(cap, arriving);
        if lower.Some? && (cap.None? || lower.value < cap.value) {
          cap, changedAt := lower, Some(now);
        }
        bad := 0;
      } else if cap.Some? && good >= GOOD_TO_INCREASE && Since(now, changedAt, MIN_INCREASE_GAP) {
        Raise(now, Raised(cap.value, arriving));
        good := 0;
      }
    }

    method Raise(now: int, higher: Option<int>)
      requires cap.Some?
      modifies `cap, `changedAt
      ensures var ceiling := CameraCeiling(maxLines);
              cap == (if !camera then (if higher.None? || higher.value >= RELEASE_AT then None else higher)
                      else if old(cap).value >= ceiling then old(cap)
                      else Some(if higher.None? then ceiling else MinOf(higher.value, ceiling)))
      ensures changedAt == if camera && old(cap).value >= CameraCeiling(maxLines) then old(changedAt) else Some(now)
    {
      var ceiling := Ceiling();
      if ceiling.Some? {
        if cap.value < ceiling.value {
          cap := Some(if higher.None? then ceiling.value else MinOf(higher.value, ceiling.value));
          changedAt := Some(now);
        }
      } else {
        cap := if higher.None? || higher.value >= RELEASE_AT then None else higher;
        changedAt := Some(now);
      }
    }

    method Answer(now: int, was: Option<int>) returns (r: Reply)
      modifies `sentAt
      ensures (View(), r) == Resend(old(View()), now, was)
    {
      var changed := cap != was;
      var send := changed || (cap.Some? && Since(now, sentAt, REFRESH));
      if send {
        sentAt := Some(now);
      }
      r := Reply(cap, changed, send);
    }
  }
}
