/**
 * The bounded replay logs of signalling resume: the server's replay ring
 * (rtpconn/resume.go) and the client's sent log (static/signalling-resume.js).
 * Both keep a suffix of everything ever sent.  They are specified by one
 * function of that whole history, `AfterFirst`, which does not mention what is
 * kept.
 */
module ReplayLog {
  import opened Common

  const MAX_MESSAGES: nat := 512
  const MAX_BYTES: nat := 2097152

  function TotalSize(msgs: seq<string>): (size: nat) {
    if msgs == [] then 0 else |msgs[0]| + TotalSize(msgs[1..])
  }

  /** The bounds that both logs put on what they keep: the newest message always stays. */
  predicate Fits(msgs: seq<string>) {
    |msgs| <= MAX_MESSAGES && (|msgs| <= 1 || TotalSize(msgs) <= MAX_BYTES)
  }

  /** What a log answers when asked for the messages after the first n of its history. */
  function AfterFirst(history: seq<string>, n: int): (rest: Option<seq<string>>)
    ensures rest.Some? ==> 0 <= n <= |history| && history == history[..n] + rest.value
  {
    if 0 <= n <= |history| && Fits(history[n..]) then Some(history[n..]) else None
  }

  lemma {:induction false} TotalSizeAppend(a: seq<string>, b: seq<string>)
    ensures TotalSize(a + b) == TotalSize(a) + TotalSize(b)
  {
    if a == [] {
      assert a + b == b;
    } else {
      assert (a + b)[1..] == a[1..] + b;
      TotalSizeAppend(a[1..], b);
    }
  }

  /** A shorter suffix of a fitting suffix fits. */
  lemma FitsSuffix(history: seq<string>, i: nat, j: nat)
    requires i <= j <= |history|
    requires Fits(history[i..])
    ensures Fits(history[j..])
  {
    assert history[i..] == history[i..j] + history[j..];
    TotalSizeAppend(history[i..j], history[j..]);
  }

  /** Once a suffix does not fit, it does not fit with one more message at the end either. */
  lemma FitsShrink(history: seq<string>, i: nat, m: string)
    requires i < |history|
    requires Fits((history + [m])[i..])
    ensures Fits(history[i..])
  {
    assert (history + [m])[i..] == history[i..] + [m];
    TotalSizeAppend(history[i..], [m]);
  }

  /** `kept` is the longest suffix of `history` within the bounds. */
  ghost predicate Keeps(kept: seq<string>, history: seq<string>) {
    && |kept| <= |history|
    && kept == history[|history| - |kept|..]
    && Fits(kept)
    && (|kept| < |history| ==> !Fits(history[|history| - |kept| - 1..]))
  }

  /** Asking a log that keeps the longest fitting suffix is asking the history. */
  lemma KeepsAnswersAfterFirst(kept: seq<string>, history: seq<string>, n: int)
    requires Keeps(kept, history)
    ensures |history| - |kept| <= n <= |history| <==> AfterFirst(history, n).Some?
    ensures |history| - |kept| <= n <= |history| ==>
              AfterFirst(history, n) == Some(kept[n - (|history| - |kept|)..])
  {
    var dropped := |history| - |kept|;
    if dropped <= n <= |history| {
      FitsSuffix(history, dropped, n);
    } else if 0 <= n < dropped && Fits(history[n..]) {
      FitsSuffix(history, n, dropped - 1);
    }
  }

  /** The loop invariant of both push methods: trimming never passes the longest fitting suffix. */
  ghost predicate Trimming(kept: seq<string>, history: seq<string>) {
    && 1 <= |kept| <= |history|
    && kept == history[|history| - |kept|..]
    && (|kept| < |history| ==> !Fits(history[|history| - |kept| - 1..]))
  }

  lemma TotalSizeWith(kept: seq<string>, m: string)
    ensures TotalSize(kept + [m]) == TotalSize(kept) + |m|
  {
    TotalSizeAppend(kept, [m]);
    assert TotalSize([m]) == |m| + TotalSize([]);
  }

  lemma TrimmingStarts(kept: seq<string>, history: seq<string>, m: string)
    requires Keeps(kept, history)
    ensures Trimming(kept + [m], history + [m])
  {
    var k := |history| - |kept|;
    assert (history + [m])[k..] == kept + [m];
    if |kept| < |history| && Fits((history + [m])[k - 1..]) {
      FitsShrink(history, k - 1, m);
    }
  }

  lemma TrimmingContinues(kept: seq<string>, history: seq<string>)
    requires Trimming(kept, history) && |kept| > 1 && !Fits(kept)
    ensures Trimming(kept[1..], history)
    ensures TotalSize(kept) == |kept[0]| + TotalSize(kept[1..])
  {
    var k := |history| - |kept|;
    assert kept[1..] == history[k + 1..];
    assert history[k..] == kept;
  }

  /** The eviction loop that ends both push methods: oldest messages go until the rest fits. */
  method Trim(msgs: seq<string>, bytes: nat, ghost sent: seq<string>) returns (kept: seq<string>, size: nat)
    requires Trimming(msgs, sent) && bytes == TotalSize(msgs)
    ensures Keeps(kept, sent) && size == TotalSize(kept)
  {
    kept, size := msgs, bytes;
    while |kept| > MAX_MESSAGES || (|kept| > 1 && size > MAX_BYTES)
      invariant Trimming(kept, sent)
      invariant size == TotalSize(kept)
      decreases |kept|
    {
      TrimmingContinues(kept, sent);
      size := size - |kept[0]|;
      kept := kept[1..];
    }
  }

  /** The server's replay ring. */
  class ReplayRing {
    var msgs: seq<string>
    var next: nat    // the number the next message will get
    var bytes: nat
    ghost var history: seq<string>

    ghost predicate Valid()
      reads this
    {
      Keeps(msgs, history) && next == |history| + 1 && bytes == TotalSize(msgs)
    }

    constructor ()
      ensures Valid() && history == []
    {
      msgs, next, bytes, history := [], 1, 0, [];
    }

    method Push(b: string) returns (n: nat)
      requires Valid()
      modifies this
      ensures Valid()
      ensures history == old(history) + [b]
      ensures n == |history|
    {
      hide Keeps, Trimming, TotalSize;
      TrimmingStarts(msgs, history, b);
      TotalSizeWith(msgs, b);
      history := history + [b];
      msgs, bytes := Trim(msgs + [b], bytes + |b|, history);
      n := next;
      next := next + 1;
    }

    method After(n: nat) returns (rest: Option<seq<string>>)
      requires Valid()
      ensures rest == AfterFirst(history, n)
      ensures n <= |history| ==>
                (rest.None? <==> |history| - n > MAX_MESSAGES ||
                                 (|history| - n > 1 && TotalSize(history[n..]) > MAX_BYTES))
    {
      KeepsAnswersAfterFirst(msgs, history, n);
      var first := next - |msgs|;
      if n + 1 < first || n >= next {
        return None;
      }
      return Some(msgs[n + 1 - first..]);
    }
  }

  /** The value of an acknowledgement as JSON delivers it. */
  datatype AckValue = Integer(n: int) | NotInteger

  /** The client's log of numbered messages. */
  class SentLog {
    var msgs: seq<string>
    var bytes: nat
    var count: nat   // how many were ever sent
    ghost var history: seq<string>

    ghost predicate Valid()
      reads this
    {
      Keeps(msgs, history) && count == |history| && bytes == TotalSize(msgs)
    }

    constructor ()
      ensures Valid() && history == []
    {
      msgs, bytes, count, history := [], 0, 0, [];
    }

    method Push(s: string)
      requires Valid()
      modifies this
      ensures Valid()
      ensures history == old(history) + [s]
    {
      hide Keeps, Trimming, TotalSize;
      TrimmingStarts(msgs, history, s);
      TotalSizeWith(msgs, s);
      history := history + [s];
      msgs, bytes := Trim(msgs + [s], bytes + |s|, history);
      count := count + 1;
    }

    method After(v: AckValue) returns (rest: Option<seq<string>>)
      requires Valid()
      ensures rest == if v.Integer? then AfterFirst(history, v.n) else None
      ensures v.Integer? && 0 <= v.n <= |history| ==>
                (rest.None? <==> |history| - v.n > MAX_MESSAGES ||
                                 (|history| - v.n > 1 && TotalSize(history[v.n..]) > MAX_BYTES))
    {
      var first := count - |msgs| + 1;
      if v.NotInteger? {
        return None;
      }
      KeepsAnswersAfterFirst(msgs, history, v.n);
      if v.n + 1 < first || v.n > count {
        return None;
      }
      return Some(msgs[v.n + 1 - first..]);
    }
  }
}
