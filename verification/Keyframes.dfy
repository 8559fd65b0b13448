/** Whether the packet cache still knows the last keyframe, over whole runs of stores. */
module Keyframes {
  import opened Common
  import opened Seqno
  import LossBitmap
  import opened ReceiveStats
  import opened PacketCache

  datatype Arrival = Arrival(seqno: u16, isKeyframe: bool)

  /**
   * The statistics with the true highest number beside them, the keyframe as the cache keeps it, the true
   * number of the last keyframe stored, and whether the stream has only gone onward.
   */
  datatype Stream = Stream(r: Run, keyframe: u16, valid: bool, last: Option<int>, onward: bool)

  /** The true number of a packet. */
  function Number(x: Stream, a: Arrival): int { if x.r.st.lastValid then Unwrap(a.seqno, x.r.highest) else a.seqno }

  function Next(x: Stream, a: Arrival): Stream {
    var (keyframe, valid) := KeyframeAfter(x.r.st, x.keyframe, x.valid, a.seqno, a.isKeyframe);
    Stream(StoreStep(x.r, a.seqno), keyframe, valid, if a.isKeyframe then Some(Number(x, a)) else x.last,
           x.onward && (x.r.st.lastValid ==> !FarBack(x.r, Number(x, a))))
  }

  function Arrived(arrivals: seq<Arrival>): Stream {
    if arrivals == [] then Stream(Start(), 0, false, None, true)
    else Next(Arrived(arrivals[..|arrivals| - 1]), arrivals[|arrivals| - 1])
  }

  ghost predicate StreamOK(x: Stream) {
    && x.r.st.last == U16(x.r.highest) && (!x.r.st.lastValid ==> x.last.None?)
    && (x.onward ==>
          && (x.valid <==> x.last.Some? && x.r.highest - x.last.value < 0x8000)
          && (x.valid ==> x.keyframe == U16(x.last.value) && x.last.value <= x.r.highest))
  }

  /** From a keyframe not yet passed, the comparison tells when it lies 2^15 behind. */
  lemma PassedWhen(highest: int, k: int, s: int)
    requires k <= highest < s < highest + 0x8000 && highest - k < 0x8000
    ensures Compare(U16(k), U16(s)) > 0 <==> s - k >= 0x8000
  {
    U16Both(s, k);
    if s - k < 0x8000 {
      CompareNear(k, s);
    }
  }

  lemma NextOK(x: Stream, a: Arrival)
    requires StreamOK(x)
    ensures StreamOK(Next(x, a))
  {
    hide U16, Unwrap, Compare, LossBitmap.SeqnoInvalid, ReceiveStats.Stored;
    StoreKeepsLast(x.r, a.seqno);
    if x.r.st.lastValid && x.onward {
      var s := Unwrap(a.seqno, x.r.highest);
      StoreCases(x.r, a.seqno);
      if x.valid && s > x.r.highest {
        PassedWhen(x.r.highest, x.last.value, s);
      }
    }
  }

  lemma StoreKeepsLast(r: Run, seqno: u16)
    requires r.st.last == U16(r.highest)
    ensures var r' := StoreStep(r, seqno); r'.st.lastValid && r'.st.last == U16(r'.highest)
    ensures U16(seqno) == seqno
  {
    hide LossBitmap.SeqnoInvalid, Compare;
    StoreCases(r, seqno);
  }

  lemma {:induction false} StreamsOK(arrivals: seq<Arrival>)
    ensures StreamOK(Arrived(arrivals))
  {
    hide Next, StreamOK;
    if arrivals == [] {
      NewOK();
    } else {
      StreamsOK(arrivals[..|arrivals| - 1]);
      NextOK(Arrived(arrivals[..|arrivals| - 1]), arrivals[|arrivals| - 1]);
    }
  }

  lemma NewOK()
    ensures StreamOK(Arrived([]))
  {
  }

  /**
   * On every run in which the stream never goes far back: the cache knows a keyframe exactly if one has been
   * stored and the highest number is less than 2^15 beyond the last one; and then it is that one.
   */
  lemma KeyframeKnownIff(arrivals: seq<Arrival>)
    requires Arrived(arrivals).onward
    ensures var x := Arrived(arrivals);
            && (x.valid <==> x.last.Some? && x.r.highest - x.last.value < 0x8000)
            && (x.valid ==> x.keyframe == U16(x.last.value))
  {
    hide Arrived;
    StreamsOK(arrivals);
  }
}
