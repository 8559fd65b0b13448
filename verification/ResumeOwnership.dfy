/**
 * Who owns a connection presented for resume.  The goroutine that accepted it
 * (resumeClient in rtpconn/resume.go), the session's loop (resumeSession) and the
 * session's writer pass it along over channels while any of them may end; each
 * step below is one channel operation.
 */
module ResumeOwnership {
  import opened Common

  /** The goroutine of a resume request: waiting for an answer, woken by the session's end, or finished. */
  datatype Requester = Waiting | SawDone | Finished

  datatype Request = Request(
    requester: Requester,
    reply: Option<bool>,   // resumeReply.handed, once the loop has answered
    refused: bool,         // the requester refused and closed the connection
    taken: bool,           // the writer took the connection
    closings: nat          // how many times the connection was closed
  )

  datatype LoopAt = Running | Offering(r: nat) | Awaiting(r: nat) | Returned
  datatype WriterAt = Idle | Serving(r: nat) | Exited
  datatype Attached = Attached(r: nat, ok: bool)

  datatype State = State(
    requests: seq<Request>,
    queue: seq<nat>,            // posted to the loop
    batch: seq<nat>,            // taken from there at once, still to be handled
    loop: LoopAt,
    writer: WriterAt,
    conn: Option<nat>,          // the presented connection that the writer writes to
    answer: Option<Attached>,   // the writer's answer to the loop
    done: bool                  // the session's done channel is closed
  )

  function Init(): State {
    State([], [], [], Running, Idle, None, None, false)
  }

  datatype Action =
    | Present
    | LoopGet
    | LoopOffer
    | LoopWriterDead
    | Rendezvous
    | WriterServe(ok: bool, broken: bool)
    | WriterFail
    | WriterExit
    | LoopReply
    | LoopReturn
    | CloseDone
    | RequesterReply(r: nat)
    | RequesterDone(r: nat)
    | RequesterCheck(r: nat)

  predicate Enabled(s: State, a: Action) {
    match a
    case Present => true
    case LoopGet => s.loop == Running && s.batch == [] && s.queue != []
    case LoopOffer => s.loop == Running && s.batch != []
    case LoopWriterDead => s.loop.Offering? && s.writer == Exited && s.loop.r < |s.requests|
    case Rendezvous => s.loop.Offering? && s.writer == Idle
    case WriterServe(_, _) => s.writer.Serving? && s.writer.r < |s.requests|
    case WriterFail => s.writer == Idle && s.conn.Some?
    case WriterExit => s.writer == Idle
    case LoopReply => s.loop.Awaiting? && s.answer.Some? && s.answer.value.r == s.loop.r && s.loop.r < |s.requests|
    case LoopReturn => s.loop == Running
    case CloseDone => s.loop == Returned && !s.done
    case RequesterReply(r) => r < |s.requests| && s.requests[r].requester == Waiting && s.requests[r].reply.Some?
    case RequesterDone(r) => r < |s.requests| && s.requests[r].requester == Waiting && s.done
    case RequesterCheck(r) => r < |s.requests| && s.requests[r].requester == SawDone
  }

  /** The writer lets go of its connection. */
  function CloseConn(rs: seq<Request>, conn: Option<nat>): seq<Request> {
    if conn.Some? && conn.value < |rs|
    then rs[conn.value := rs[conn.value].(closings := rs[conn.value].closings + 1)] else rs
  }

  function Refuse(q: Request): Request {
    q.(requester := Finished, refused := true, closings := q.closings + 1)
  }

  /** The requester acts on the loop's answer. */
  function ActOnReply(q: Request, handed: bool): Request {
    if handed then q.(requester := Finished) else Refuse(q)
  }

  /** The writer serves an attach request: refusing it for a gap, or taking it over, perhaps to lose it at once. */
  function Serve(s: State, ok: bool, broken: bool): State
    requires s.writer.Serving? && s.writer.r < |s.requests|
  {
    var r := s.writer.r;
    var taken := s.requests[r].(taken := true);
    if !ok then
      s.(requests := s.requests[r := taken.(closings := taken.closings + 1)],
         writer := Idle, answer := Some(Attached(r, false)))
    else
      var rs := CloseConn(s.requests[r := taken], s.conn);
      s.(requests := if broken then CloseConn(rs, Some(r)) else rs,
         conn := if broken then None else Some(r),
         writer := Idle, answer := Some(Attached(r, true)))
  }

  function Apply(s: State, a: Action): State {
    if !Enabled(s, a) then s else
    match a
    case Present =>
      s.(requests := s.requests + [Request(Waiting, None, false, false, 0)], queue := s.queue + [|s.requests|])
    case LoopGet => s.(batch := s.queue, queue := [])
    case LoopOffer => s.(loop := Offering(s.batch[0]), batch := s.batch[1..])
    case LoopWriterDead =>
      s.(requests := s.requests[s.loop.r := s.requests[s.loop.r].(reply := Some(false))], loop := Returned)
    case Rendezvous => s.(loop := Awaiting(s.loop.r), writer := Serving(s.loop.r))
    case WriterServe(ok, broken) => Serve(s, ok, broken)
    case WriterFail => s.(requests := CloseConn(s.requests, s.conn), conn := None)
    case WriterExit => s.(requests := CloseConn(s.requests, s.conn), conn := None, writer := Exited)
    case LoopReply =>
      s.(requests := s.requests[s.loop.r := s.requests[s.loop.r].(reply := Some(true))],
         loop := if s.answer.value.ok then Running else Returned, answer := None)
    case LoopReturn => s.(loop := Returned)
    case CloseDone => s.(done := true)
    case RequesterReply(r) =>
      s.(requests := s.requests[r := ActOnReply(s.requests[r], s.requests[r].reply.value)])
    case RequesterDone(r) => s.(requests := s.requests[r := s.requests[r].(requester := SawDone)])
    case RequesterCheck(r) =>
      var q := s.requests[r];
      s.(requests := s.requests[r := if q.reply.Some? then ActOnReply(q, q.reply.value) else Refuse(q)])
  }

  function Exec(run: seq<Action>): State {
    if run == [] then Init() else Apply(Exec(run[..|run| - 1]), run[|run| - 1])
  }

  /** The request r has not been handled by the loop yet. */
  predicate Pending(s: State, r: nat) {
    r in s.queue || r in s.batch || s.loop == Offering(r)
  }

  predicate Distinct(rs: seq<nat>) {
    forall i, j :: 0 <= i < j < |rs| ==> rs[i] != rs[j]
  }

  /** The requests not handled yet, in order. */
  function Line(s: State): seq<nat> {
    (if s.loop.Offering? then [s.loop.r] else []) + s.batch + s.queue
  }

  ghost predicate RequestOK(s: State, r: nat, q: Request) {
    // the answer says whether the writer has it
    && (q.reply == Some(true) ==> q.taken)
    && (q.reply == Some(false) ==> !q.taken)
    && (q.taken ==> q.reply == Some(true) || s.loop == Awaiting(r))
    && (Pending(s, r) ==> !q.taken && q.reply.None?)
    && (s.writer == Serving(r) ==> !q.taken && q.reply.None?)
    && (s.loop == Awaiting(r) ==> q.reply.None? && !q.refused)
    // every request is somewhere
    && (Pending(s, r) || s.loop == Awaiting(r) || q.reply.Some?)
    // the requester refuses only what is its own
    && (q.refused ==> !q.taken && q.requester == Finished)
    && (q.refused && q.reply.None? ==> s.loop == Returned)
    && (q.requester == Finished ==> q.refused || q.taken)
    && (q.requester == SawDone ==> s.done)
    // each owner closes once
    && q.closings == (if q.refused || (q.taken && s.conn != Some(r)) then 1 else 0)
    && (s.conn == Some(r) ==> q.taken)
  }

  ghost predicate Inv(s: State) {
    && Distinct(Line(s))
    && (forall i :: 0 <= i < |Line(s)| ==> Line(s)[i] < |s.requests|)
    && (s.loop.Awaiting? ==> s.loop.r < |s.requests| && s.loop.r !in Line(s))
    && (s.writer.Serving? ==> s.loop == Awaiting(s.writer.r) && s.answer.None?)
    && (s.loop.Awaiting? && !s.writer.Serving? ==> s.answer.Some? && s.answer.value.r == s.loop.r && s.requests[s.loop.r].taken)
    && (!s.loop.Awaiting? ==> s.answer.None?)
    && (s.conn.Some? ==> s.conn.value < |s.requests|)
    && (s.writer == Exited ==> s.conn.None?)
    && (s.done ==> s.loop == Returned)
    && (forall r :: 0 <= r < |s.requests| ==> RequestOK(s, r, s.requests[r]))
  }

  lemma LineSame(s: State, r: nat)
    ensures Pending(s, r) <==> r in Line(s)
  {
  }

  lemma PresentKeeps(s: State)
    requires Inv(s)
    ensures Inv(Apply(s, Present))
  {
    var t, n := Apply(s, Present), |s.requests|;
    assert Line(t) == Line(s) + [n];
    LineSame(t, n);
    forall r | 0 <= r < |t.requests| ensures RequestOK(t, r, t.requests[r]) {
      LineSame(s, r);
      LineSame(t, r);
      if r < n {
        assert RequestOK(s, r, s.requests[r]);
      }
    }
  }

  /** The loop moves requests along without answering any. */
  lemma LoopMoveKeeps(s: State, a: Action)
    requires Inv(s) && Enabled(s, a)
    requires a.LoopGet? || a.LoopOffer? || a.LoopReturn? || a.CloseDone?
    ensures Inv(Apply(s, a))
  {
    var t := Apply(s, a);
    assert Line(t) == Line(s);
    forall r | 0 <= r < |t.requests| ensures RequestOK(t, r, t.requests[r]) {
      LineSame(s, r);
      LineSame(t, r);
      assert RequestOK(s, r, s.requests[r]);
    }
  }

  lemma TailNotIn(line: seq<nat>)
    requires Distinct(line) && line != []
    ensures line[0] !in line[1..] && Distinct(line[1..])
    ensures forall r :: r in line[1..] <==> r in line && r != line[0]
  {
    assert line == [line[0]] + line[1..];
  }

  lemma LoopAnswerKeeps(s: State, a: Action)
    requires Inv(s) && Enabled(s, a)
    requires a.LoopWriterDead? || a.Rendezvous?
    ensures Inv(Apply(s, a))
  {
    var t := Apply(s, a);
    assert Line(s) == [s.loop.r] + (s.batch + s.queue);
    assert Line(t) == s.batch + s.queue == Line(s)[1..];
    TailNotIn(Line(s));
    LineSame(s, s.loop.r);
    forall r | 0 <= r < |t.requests| ensures RequestOK(t, r, t.requests[r]) {
      LineSame(s, r);
      LineSame(t, r);
      assert RequestOK(s, r, s.requests[r]);
    }
  }

  lemma ServeKeeps(s: State, ok: bool, broken: bool)
    requires Inv(s) && Enabled(s, WriterServe(ok, broken))
    ensures Inv(Apply(s, WriterServe(ok, broken)))
  {
    var t := Apply(s, WriterServe(ok, broken));
    assert Line(t) == Line(s);
    assert RequestOK(s, s.writer.r, s.requests[s.writer.r]);
    forall r | 0 <= r < |t.requests| ensures RequestOK(t, r, t.requests[r]) {
      LineSame(s, r);
      LineSame(t, r);
      assert RequestOK(s, r, s.requests[r]);
    }
  }

  lemma WriterKeeps(s: State, a: Action)
    requires Inv(s) && Enabled(s, a)
    requires a.WriterFail? || a.WriterExit? || a.LoopReply?
    ensures Inv(Apply(s, a))
  {
    var t := Apply(s, a);
    assert Line(t) == Line(s);
    forall r | 0 <= r < |t.requests| ensures RequestOK(t, r, t.requests[r]) {
      LineSame(s, r);
      LineSame(t, r);
      assert RequestOK(s, r, s.requests[r]);
    }
  }

  lemma RequesterKeeps(s: State, a: Action)
    requires Inv(s) && Enabled(s, a)
    requires a.RequesterReply? || a.RequesterDone? || a.RequesterCheck?
    ensures Inv(Apply(s, a))
  {
    var t := Apply(s, a);
    assert Line(t) == Line(s);
    forall r | 0 <= r < |t.requests| ensures RequestOK(t, r, t.requests[r]) {
      assert RequestOK(s, r, s.requests[r]);
    }
  }

  lemma StepKeeps(s: State, a: Action)
    requires Inv(s)
    ensures Inv(Apply(s, a))
  {
    hide Inv;
    if Enabled(s, a) {
      match a {
        case Present => PresentKeeps(s);
        case LoopGet => LoopMoveKeeps(s, a);
        case LoopOffer => LoopMoveKeeps(s, a);
        case LoopReturn => LoopMoveKeeps(s, a);
        case CloseDone => LoopMoveKeeps(s, a);
        case LoopWriterDead => LoopAnswerKeeps(s, a);
        case Rendezvous => LoopAnswerKeeps(s, a);
        case WriterServe(ok, broken) => ServeKeeps(s, ok, broken);
        case WriterFail => WriterKeeps(s, a);
        case WriterExit => WriterKeeps(s, a);
        case LoopReply => WriterKeeps(s, a);
        case RequesterReply(_) => RequesterKeeps(s, a);
        case RequesterDone(_) => RequesterKeeps(s, a);
        case RequesterCheck(_) => RequesterKeeps(s, a);
      }
    }
  }

  lemma {:induction false} RunKeeps(run: seq<Action>)
    ensures Inv(Exec(run))
    decreases |run|
  {
    hide Inv, Apply;
    if run == [] {
      InitKeeps();
    } else {
      RunKeeps(run[..|run| - 1]);
      StepKeeps(Exec(run[..|run| - 1]), run[|run| - 1]);
    }
  }

  lemma InitKeeps()
    ensures Inv(Init())
  {
  }

  /**
   * In every run, a requester that has finished has either handed its connection to the session's
   * writer or refused it, never both and never neither; no connection is ever closed twice, and one
   * handed over is closed by the writer alone, as soon as the writer lets go of it.
   */
  lemma ExactlyOneOwner(run: seq<Action>, r: nat)
    requires r < |Exec(run).requests|
    ensures var q, s := Exec(run).requests[r], Exec(run);
            && (q.requester == Finished ==> (q.taken <==> !q.refused))
            && !(q.taken && q.refused)
            && q.closings <= 1
            && (q.taken ==> (q.closings == 1 <==> s.conn != Some(r)))
            && (q.refused ==> q.closings == 1)
            && (!q.taken && !q.refused ==> q.closings == 0)
  {
    RunKeeps(run);
    assert RequestOK(Exec(run), r, Exec(run).requests[r]);
  }

  /** Once the writer has exited and a requester has finished, its connection is closed, once. */
  lemma ClosedInTheEnd(run: seq<Action>, r: nat)
    requires r < |Exec(run).requests|
    requires Exec(run).writer == Exited && Exec(run).requests[r].requester == Finished
    ensures Exec(run).requests[r].closings == 1
  {
    RunKeeps(run);
    assert RequestOK(Exec(run), r, Exec(run).requests[r]);
  }

  /** No requester waits forever: one still waiting when the session is done can always finish. */
  lemma NoRequesterStuck(run: seq<Action>, r: nat)
    requires r < |Exec(run).requests| && Exec(run).done
    ensures var t := Exec(run + [RequesterDone(r)] + [RequesterCheck(r)]);
            r < |t.requests| && t.requests[r].requester == Finished
  {
    var s := Exec(run);
    assert (run + [RequesterDone(r)])[..|run|] == run;
    assert (run + [RequesterDone(r)] + [RequesterCheck(r)])[..|run| + 1] == run + [RequesterDone(r)];
    var s1 := Exec(run + [RequesterDone(r)]);
    assert s1 == Apply(s, RequesterDone(r));
  }

  // It all comes to an end

  function RequesterWork(q: Request): nat {
    match q.requester
    case Waiting => 2
    case SawDone => 1
    case Finished => 0
  }

  function RequestsWork(rs: seq<Request>): nat {
    if rs == [] then 0 else RequesterWork(rs[0]) + RequestsWork(rs[1..])
  }

  /** What is left to do, if nobody presents another connection. */
  function Work(s: State): nat {
    RequestsWork(s.requests) + 9 * |s.queue| + 8 * |s.batch|
    + (match s.loop case Running => 1 case Offering(_) => 8 case Awaiting(_) => 2 case Returned => 0)
    + (match s.writer case Idle => 2 case Serving(_) => 5 case Exited => 0)
    + (if s.conn.Some? then 1 else 0) + (if s.done then 0 else 1)
  }

  lemma {:induction false} WorkUpdate(rs: seq<Request>, r: nat, q: Request)
    requires r < |rs|
    ensures RequestsWork(rs[r := q]) + RequesterWork(rs[r]) == RequestsWork(rs) + RequesterWork(q)
  {
    hide RequesterWork;
    if r > 0 {
      WorkUpdate(rs[1..], r - 1, q);
      assert rs[r := q][1..] == rs[1..][r - 1 := q];
    }
  }

  lemma CloseWork(rs: seq<Request>, conn: Option<nat>)
    ensures RequestsWork(CloseConn(rs, conn)) == RequestsWork(rs) && |CloseConn(rs, conn)| == |rs|
  {
    if conn.Some? && conn.value < |rs| {
      WorkUpdate(rs, conn.value, rs[conn.value].(closings := rs[conn.value].closings + 1));
    }
  }

  lemma StepWorks(s: State, a: Action)
    requires Inv(s) && Enabled(s, a) && !a.Present?
    ensures Work(Apply(s, a)) < Work(s)
  {
    hide Inv, Work, Apply;
    if a.RequesterReply? || a.RequesterDone? || a.RequesterCheck? {
      RequesterWorks(s, a);
    } else if a.WriterServe? || a.WriterFail? || a.WriterExit? {
      WriterWorks(s, a);
    } else {
      LoopWorks(s, a);
    }
  }

  lemma RequesterWorks(s: State, a: Action)
    requires Enabled(s, a) && (a.RequesterReply? || a.RequesterDone? || a.RequesterCheck?)
    ensures Work(Apply(s, a)) < Work(s)
  {
    hide RequestsWork;
    var t := Apply(s, a);
    WorkUpdate(s.requests, a.r, t.requests[a.r]);
  }

  lemma WriterWorks(s: State, a: Action)
    requires Enabled(s, a) && (a.WriterServe? || a.WriterFail? || a.WriterExit?)
    ensures Work(Apply(s, a)) < Work(s)
  {
    hide RequestsWork, CloseConn, Serve;
    CloseWork(s.requests, s.conn);
    if a.WriterServe? {
      ServeWorks(s, a.ok, a.broken);
    }
  }

  lemma LoopWorks(s: State, a: Action)
    requires Enabled(s, a) && !a.Present? && !a.RequesterReply? && !a.RequesterDone? && !a.RequesterCheck?
    requires !a.WriterServe? && !a.WriterFail? && !a.WriterExit?
    ensures Work(Apply(s, a)) < Work(s)
  {
    hide RequestsWork;
    if a.LoopWriterDead? {
      WorkUpdate(s.requests, s.loop.r, s.requests[s.loop.r].(reply := Some(false)));
    } else if a.LoopReply? {
      WorkUpdate(s.requests, s.loop.r, s.requests[s.loop.r].(reply := Some(true)));
    }
  }

  lemma ServeWorks(s: State, ok: bool, broken: bool)
    requires s.writer.Serving? && s.writer.r < |s.requests|
    ensures var t := Serve(s, ok, broken);
            && RequestsWork(t.requests) == RequestsWork(s.requests) && t.writer == Idle
            && t == s.(requests := t.requests, conn := t.conn, writer := t.writer, answer := t.answer)
  {
    var r := s.writer.r;
    var taken := s.requests[r].(taken := true);
    WorkUpdate(s.requests, r, taken.(closings := taken.closings + 1));
    WorkUpdate(s.requests, r, taken);
    var rs := s.requests[r := taken];
    CloseWork(rs, s.conn);
    CloseWork(CloseConn(rs, s.conn), Some(r));
  }

  /** The run goes on with steps that are possible, and nobody presents another connection. */
  ghost predicate GoesOn(run: seq<Action>, more: seq<Action>) {
    forall k :: 0 <= k < |more| ==> !more[k].Present? && Enabled(Exec(run + more[..k]), more[k])
  }

  lemma {:induction false} RunsEnd(run: seq<Action>, more: seq<Action>)
    requires GoesOn(run, more)
    ensures |more| + Work(Exec(run + more)) <= Work(Exec(run))
  {
    hide Apply, Enabled, Work, Inv;
    if more == [] {
      assert run + more == run;
    } else {
      var before, a := more[..|more| - 1], more[|more| - 1];
      assert forall k :: 0 <= k <= |before| ==> more[..k] == before[..k];
      assert before[..|before|] == before;
      assert Enabled(Exec(run + more[..|before|]), more[|before|]);
      RunsEnd(run, before);
      RunKeeps(run + before);
      StepWorks(Exec(run + before), a);
      assert (run + more)[..|run + more| - 1] == run + before;
    }
  }

  lemma OfferedIs(s: State)
    requires Inv(s)
    ensures s.loop.Offering? ==> s.loop.r < |s.requests|
  {
    if s.loop.Offering? {
      assert Line(s)[0] == s.loop.r;
    }
  }

  /** Where nothing but another presentation is possible, everybody has finished. */
  lemma NothingPossible(s: State)
    requires Inv(s) && forall a :: Enabled(s, a) ==> a.Present?
    ensures s.loop == Returned && s.writer == Exited && s.done && s.conn.None?
    ensures forall r :: 0 <= r < |s.requests| ==> s.requests[r].requester == Finished
  {
    assert !Enabled(s, WriterExit) && !Enabled(s, WriterServe(true, false)) && !Enabled(s, LoopReturn);
    assert !Enabled(s, LoopWriterDead) && !Enabled(s, LoopReply) && !Enabled(s, CloseDone);
    OfferedIs(s);
    forall r | 0 <= r < |s.requests| ensures s.requests[r].requester == Finished {
      assert !Enabled(s, RequesterDone(r)) && !Enabled(s, RequesterCheck(r));
    }
  }

  /**
   * From wherever a run has got to, if nobody presents another connection: whatever happens comes to an end,
   * and when nothing more can happen every requester has finished and every connection is closed, once.
   */
  lemma EverythingEnds(run: seq<Action>, more: seq<Action>)
    requires GoesOn(run, more)
    ensures |more| <= Work(Exec(run))
    ensures var s := Exec(run + more);
            (forall a :: Enabled(s, a) ==> a.Present?) ==>
              && s.loop == Returned && s.writer == Exited && s.done
              && forall r :: 0 <= r < |s.requests| ==> s.requests[r].requester == Finished && s.requests[r].closings == 1
  {
    hide Enabled, Work, Inv, Exec;
    RunsEnd(run, more);
    RunKeeps(run + more);
    var s := Exec(run + more);
    if forall a :: Enabled(s, a) ==> a.Present? {
      NothingPossible(s);
      forall r | 0 <= r < |s.requests| ensures s.requests[r].closings == 1 {
        ClosedInTheEnd(run + more, r);
      }
    }
  }

  // What the writer answers

  /** Whether the last request that the writer served was taken over; a gap in what it keeps is a refusal. */
  function LastServed(run: seq<Action>): Option<bool> {
    if run == [] then None else
    var before, a := run[..|run| - 1], run[|run| - 1];
    if a.WriterServe? && Enabled(Exec(before), a) then Some(a.ok) else LastServed(before)
  }

  lemma {:induction false} AnswerIs(run: seq<Action>)
    ensures Exec(run).answer.Some? ==> LastServed(run) == Some(Exec(run).answer.value.ok)
  {
    if run != [] {
      AnswerIs(run[..|run| - 1]);
    }
  }

  /** The loop ends here: of its own accord, as the writer is gone, or as the writer had a gap. */
  predicate Returns(run: seq<Action>, k: int) {
    && 0 <= k < |run| && Enabled(Exec(run[..k]), run[k])
    && (run[k].LoopReturn? || run[k].LoopWriterDead? || (run[k].LoopReply? && LastServed(run[..k]) == Some(false)))
  }

  lemma {:induction false} ReturnedIff(run: seq<Action>)
    ensures Exec(run).loop == Returned <==> exists k :: Returns(run, k)
  {
    hide Enabled, Apply;
    if run != [] {
      var before, a := run[..|run| - 1], run[|run| - 1];
      ReturnedIff(before);
      AnswerIs(before);
      StepReturns(Exec(before), a);
      assert forall k :: 0 <= k <= |before| ==> run[..k] == before[..k];
      assert before[..|before|] == before;
      assert forall k :: 0 <= k < |before| ==> (Returns(run, k) <==> Returns(before, k));
      assert Returns(run, |before|) <==>
               Enabled(Exec(before), a) && (a.LoopReturn? || a.LoopWriterDead? || (a.LoopReply? && LastServed(before) == Some(false)));
    }
  }

  lemma StepReturns(s: State, a: Action)
    ensures Enabled(s, a) && a.LoopReply? ==> s.answer.Some?
    ensures Apply(s, a).loop == Returned <==>
              || s.loop == Returned
              || (Enabled(s, a) && (a.LoopReturn? || a.LoopWriterDead? || (a.LoopReply? && !s.answer.value.ok)))
  {
    hide CloseConn, ActOnReply, Refuse;
  }

  /** A refusal closes the connection presented and leaves the writer's own; taking over closes the old one, and the new one too if it breaks. */
  lemma ServedIs(run: seq<Action>, ok: bool, broken: bool)
    requires Enabled(Exec(run), WriterServe(ok, broken))
    ensures var s, t := Exec(run), Exec(run + [WriterServe(ok, broken)]); var r := s.writer.r;
            && t.conn == (if !ok then s.conn else if broken then None else Some(r))
            && s.conn != Some(r) && r < |t.requests| == |s.requests| && t.requests[r].taken
            && t.requests[r].closings == (if !ok || broken then 1 else 0)
            && (s.conn.Some? ==> s.conn.value < |s.requests| && t.requests[s.conn.value].closings == if ok then 1 else 0)
  {
    RunKeeps(run);
    var s := Exec(run);
    assert (run + [WriterServe(ok, broken)])[..|run|] == run;
    assert RequestOK(s, s.writer.r, s.requests[s.writer.r]);
    if s.conn.Some? {
      assert RequestOK(s, s.conn.value, s.requests[s.conn.value]);
    }
  }

  lemma OneAfter(run: seq<Action>, a: Action)
    ensures Exec(run + [a]) == Apply(Exec(run), a)
  {
    assert (run + [a])[..|run|] == run;
  }

  /** A session that lives takes over the connection of the first request that waits, and goes on. */
  lemma TakenWhileLive(run: seq<Action>)
    requires var s := Exec(run); s.loop == Running && s.writer == Idle && s.batch == [] && s.queue != []
    ensures var s := Exec(run); var r := s.queue[0];
            var t := Exec(run + [LoopGet] + [LoopOffer] + [Rendezvous] + [WriterServe(true, false)] + [LoopReply]);
            && t.loop == Running && t.writer == Idle && t.conn == Some(r) && t.batch == s.queue[1..]
            && r < |t.requests| && t.requests[r].taken && t.requests[r].reply == Some(true) && t.requests[r].closings == 0
  {
    hide Apply;
    var a, b := run + [LoopGet], run + [LoopGet] + [LoopOffer];
    var d := b + [Rendezvous];
    var e := d + [WriterServe(true, false)];
    OneAfter(run, LoopGet);
    OneAfter(a, LoopOffer);
    OneAfter(b, Rendezvous);
    OneAfter(d, WriterServe(true, false));
    OneAfter(e, LoopReply);
    RunKeeps(run);
    HandlesFirst(Exec(run));
  }

  lemma HandlesFirst(s: State)
    requires Inv(s) && s.loop == Running && s.writer == Idle && s.batch == [] && s.queue != []
    ensures var r := s.queue[0];
            var d := Apply(Apply(Apply(s, LoopGet), LoopOffer), Rendezvous);
            var t := Apply(Apply(d, WriterServe(true, false)), LoopReply);
            && t.loop == Running && t.writer == Idle && t.conn == Some(r) && t.batch == s.queue[1..]
            && r < |t.requests| && t.requests[r].taken && t.requests[r].reply == Some(true) && t.requests[r].closings == 0
  {
    var r := s.queue[0];
    assert Line(s) == s.queue;
    assert RequestOK(s, r, s.requests[r]);
    LineSame(s, r);
    var d := Apply(Apply(Apply(s, LoopGet), LoopOffer), Rendezvous);
    assert d == s.(queue := [], batch := s.queue[1..], loop := Awaiting(r), writer := Serving(r));
  }
}
