/**
 * The unbounded channel of unbounded/unbounded.go: a queue under a lock, and a
 * one-slot channel that wakes the consumer.  A put is two steps, since it gives the
 * lock back before it triggers; anything may happen in between.
 */
module UnboundedChannel {
  class Channel<T> {
    var queue: seq<T>
    var signalled: bool     // the one slot of Ch is taken

    constructor ()
      ensures queue == [] && !signalled
    {
      queue, signalled := [], false;
    }

    /** The part of Put under the lock; it reports whether it still has to trigger. */
    method Append(v: T) returns (empty: bool)
      modifies `queue
      ensures queue == old(queue) + [v]
      ensures var t := Step(Seen(old(queue), signalled), Action.Append(v));
              queue == t.queue && (empty <==> t.triggering == 1)
    {
      empty := |queue| == 0;
      queue := queue + [v];
    }

    /** Ch takes the signal unless it already holds one. */
    method Trigger()
      modifies `signalled
      ensures signalled == Step(Seen(queue, old(signalled)).(triggering := 1), Action.Trigger).signalled
    {
      if !signalled {
        signalled := true;
      }
    }

    method Get() returns (all: seq<T>)
      modifies `queue
      ensures var t := Step(Seen(old(queue), signalled), Action.Get); queue == t.queue && t.got == [all]
    {
      all := queue;
      queue := [];
    }
  }

  /** The channel, the puts that have yet to trigger, the consumer, and all that was put and got. */
  datatype State<T> = State(
    queue: seq<T>, signalled: bool, triggering: nat, awake: bool, put: seq<T>, got: seq<seq<T>>
  )

  /** A state with the given fields of the channel. */
  function Seen<T>(queue: seq<T>, signalled: bool): State<T> { State(queue, signalled, 0, false, [], []) }

  function Start<T>(): State<T> { State([], false, 0, false, [], []) }

  datatype Action<T> =
    | Append(v: T)      // some Put, in its critical section
    | Trigger           // some Put that found the queue empty, after it
    | Receive           // the consumer takes the signal
    | Get               // the consumer gets, woken or of its own accord

  function Step<T>(s: State<T>, a: Action<T>): State<T> {
    match a
    case Append(v) =>
      s.(queue := s.queue + [v], put := s.put + [v], triggering := s.triggering + if |s.queue| == 0 then 1 else 0)
    case Trigger => if s.triggering > 0 then s.(triggering := s.triggering - 1, signalled := true) else s
    case Receive => if s.signalled && !s.awake then s.(signalled := false, awake := true) else s
    case Get => s.(got := s.got + [s.queue], queue := [], awake := false)
  }

  function Exec<T>(run: seq<Action<T>>): State<T> {
    if run == [] then Start() else Step(Exec(run[..|run| - 1]), run[|run| - 1])
  }

  function Flatten<T>(parts: seq<seq<T>>): seq<T> {
    if parts == [] then [] else Flatten(parts[..|parts| - 1]) + parts[|parts| - 1]
  }

  /** Somebody is going to see to a queue that is not empty. */
  predicate Attended<T>(s: State<T>) { s.queue == [] || s.signalled || s.triggering > 0 || s.awake }

  /** No element is lost, repeated or out of order, and no wake-up is lost, however puts and gets interleave. */
  lemma {:induction false} NothingLost<T>(run: seq<Action<T>>)
    ensures Flatten(Exec(run).got) + Exec(run).queue == Exec(run).put
    ensures Attended(Exec(run))
  {
    if run != [] {
      var s := Exec(run[..|run| - 1]);
      var a := run[|run| - 1];
      NothingLost(run[..|run| - 1]);
      match a {
        case Append(v) => assert Flatten(s.got) + (s.queue + [v]) == (Flatten(s.got) + s.queue) + [v];
        case Get =>
          assert (s.got + [s.queue])[..|s.got|] == s.got;
          assert Flatten(s.got + [s.queue]) == Flatten(s.got) + s.queue;
        case _ =>
      }
    }
  }

  /** What is appended is what puts append, in the order in which they had the lock. */
  function Appended<T>(run: seq<Action<T>>): seq<T> {
    if run == [] then [] else Appended(run[..|run| - 1]) + if run[|run| - 1].Append? then [run[|run| - 1].v] else []
  }

  lemma {:induction false} PutInLockOrder<T>(run: seq<Action<T>>)
    ensures Exec(run).put == Appended(run)
  {
    if run != [] {
      PutInLockOrder(run[..|run| - 1]);
    }
  }

  /** Once every put has done its part, a consumer that waits is woken and then gets everything there is. */
  lemma WokenForAll<T>(run: seq<Action<T>>)
    requires Exec(run).triggering == 0 && Exec(run).queue != []
    ensures var done := Exec(run + (if Exec(run).awake then [Get] else [Receive, Get]));
            done.queue == [] && Flatten(done.got) == Appended(run)
  {
    var s := Exec(run);
    NothingLost(run);
    PutInLockOrder(run);
    var more: seq<Action<T>> := if s.awake then [Get] else [Receive, Get];
    var done := Exec(run + more);
    if s.awake {
      assert (run + more)[..|run + more| - 1] == run;
    } else {
      assert (run + more)[..|run + more| - 1] == run + [Receive];
      assert (run + [Receive])[..|run + [Receive]| - 1] == run;
    }
    NothingLost(run + more);
    PutInLockOrder(run + more);
    assert done.queue == [];
    assert done.put == s.put;
  }

  // Signals, told from what happened

  /** Everything that was appended has been got, so that an append finds the queue empty. */
  predicate AllGot<T>(run: seq<Action<T>>) { |Flatten(Exec(run).got)| == |Appended(run)| }

  /** How many puts have had to trigger, and how many have done so. */
  function Owed<T>(run: seq<Action<T>>): nat {
    if run == [] then 0 else
    var before := run[..|run| - 1];
    Owed(before) + if run[|run| - 1].Append? && AllGot(before) then 1 else 0
  }

  predicate Triggers<T>(run: seq<Action<T>>, k: int) {
    0 <= k < |run| && run[k].Trigger? && Paid(run[..k]) < Owed(run[..k])
  }

  function Paid<T>(run: seq<Action<T>>): nat {
    if run == [] then 0 else
    var before := run[..|run| - 1];
    Paid(before) + if run[|run| - 1].Trigger? && Paid(before) < Owed(before) then 1 else 0
  }

  /** The consumer takes a signal here: there is one, and it has not taken one already. */
  predicate Takes<T>(run: seq<Action<T>>, k: int) {
    0 <= k < |run| && run[k].Receive? && Exec(run[..k]).signalled && !Exec(run[..k]).awake
  }

  lemma QueueIs<T>(run: seq<Action<T>>)
    ensures Exec(run).queue == [] <==> AllGot(run)
  {
    NothingLost(run);
    PutInLockOrder(run);
    var f, q := Flatten(Exec(run).got), Exec(run).queue;
    assert |f + q| == |f| + |q|;
  }

  lemma {:induction false} TriggersOwed<T>(run: seq<Action<T>>)
    ensures Paid(run) <= Owed(run) && Exec(run).triggering == Owed(run) - Paid(run)
  {
    if run != [] {
      TriggersOwed(run[..|run| - 1]);
      QueueIs(run[..|run| - 1]);
    }
  }

  /** It took one here, and has not got since. */
  predicate AwakeSince<T>(run: seq<Action<T>>, k: int) { 0 <= k < |run| && Takes(run, k) && forall m :: k < m < |run| ==> !run[m].Get? }

  /** A put triggered here, and no signal has been taken since. */
  predicate SignalledSince<T>(run: seq<Action<T>>, k: int) { 0 <= k < |run| && Triggers(run, k) && forall m :: k < m < |run| ==> !Takes(run, m) }

  lemma TakesStep<T>(run: seq<Action<T>>)
    requires run != []
    ensures var before, n := run[..|run| - 1], |run| - 1;
            && (forall k :: 0 <= k < n ==> (Takes(run, k) <==> Takes(before, k)) && (Triggers(run, k) <==> Triggers(before, k)))
            && (Takes(run, n) <==> run[n].Receive? && Exec(before).signalled && !Exec(before).awake)
            && (Triggers(run, n) <==> run[n].Trigger? && Exec(before).triggering > 0)
  {
    var before, n := run[..|run| - 1], |run| - 1;
    TriggersOwed(before);
    assert forall k :: 0 <= k <= n ==> run[..k] == before[..k];
    assert before[..n] == before;
  }

  lemma {:induction false} AwakeIff<T>(run: seq<Action<T>>)
    ensures Exec(run).awake <==> exists k :: AwakeSince(run, k)
  {
    hide Takes;
    if run != [] {
      var before, n := run[..|run| - 1], |run| - 1;
      AwakeIff(before);
      TakesStep(run);
      assert forall k :: 0 <= k < n ==> (AwakeSince(run, k) <==> AwakeSince(before, k) && !run[n].Get?);
      assert AwakeSince(run, n) <==> Takes(run, n);
    }
  }

  /**
   * On every run: there is a signal exactly if one was triggered and none taken since, each put that found
   * the queue empty triggering once; and by AwakeIff the consumer is awake exactly if it took one and has not got since.
   */
  lemma {:induction false} SignalledIff<T>(run: seq<Action<T>>)
    ensures Exec(run).signalled <==> exists k :: SignalledSince(run, k)
  {
    hide Takes, Triggers;
    if run != [] {
      var before, n := run[..|run| - 1], |run| - 1;
      SignalledIff(before);
      TakesStep(run);
      assert forall k :: 0 <= k < n ==> (SignalledSince(run, k) <==> SignalledSince(before, k) && !Takes(run, n));
      assert SignalledSince(run, n) <==> Triggers(run, n);
    }
  }
}
