/**
 * Once both sides are on the same socket and it stays up, the order in which things
 * happen makes no difference: every schedule of deliveries, reads and writes comes to an
 * end, and then each side has processed all that the other one sent.
 */
module ResumeSchedules {
  import opened Common
  import opened ResumeClient
  import opened ResumeServer
  import opened ResumeProtocol
  import opened ResumeSafety
  import opened ResumeRecovery

  /**
   * What moves messages on: a delivery on any socket, a read of any reader, or the end of an
   * older one, a hand-over, a receive or a write that succeeds.
   */
  predicate Moves(s: State, a: Action) {
    Enabled(s, a) &&
    match a
    case ClientDeliver(_) => true
    case ReadFrame(_) => true
    case ReadError(g, _) => g + 1 < |s.server.readers|
    case HandOver(_) => true
    case LoopReceive(fatal) => !fatal
    case WriterTake(fate) => fate.Written?
    case _ => false
  }

  ghost predicate AllMove(s: State, more: seq<Action>) {
    forall k :: 0 <= k < |more| ==> Moves(Steps(s, more[..k]), more[k])
  }

  /** Both sides are on socket n, and nothing on its way ends the session. */
  ghost predicate Flowing(s: State, n: SocketId) { Inv(s) && Joined(s, n) && Harmless(s.server) }

  // What is left to do

  function SocketWork(k: Socket): nat { 3 * |k.up| + |k.down| }

  function SocketsWork(ss: seq<Socket>): nat {
    if ss == [] then 0 else SocketWork(ss[0]) + SocketsWork(ss[1..])
  }

  function ReaderWork(r: Reader): nat { (if r.held.Some? then 2 else 0) + (if r.stopped then 0 else 3) }

  function ReadersWork(rs: seq<Reader>): nat {
    if rs == [] then 0 else ReaderWork(rs[0]) + ReadersWork(rs[1..])
  }

  function Work(s: State): nat {
    SocketsWork(s.sockets) + ReadersWork(s.server.readers) + (if s.server.chan.Some? then 1 else 0) + 2 * |s.server.queue|
  }

  lemma {:induction false} SocketsWorkUpdate(ss: seq<Socket>, i: nat, k: Socket)
    requires i < |ss|
    ensures SocketsWork(ss[i := k]) + SocketWork(ss[i]) == SocketsWork(ss) + SocketWork(k)
  {
    hide SocketWork;
    if i > 0 {
      SocketsWorkUpdate(ss[1..], i - 1, k);
      assert ss[i := k][1..] == ss[1..][i - 1 := k];
    }
  }

  lemma {:induction false} ReadersWorkUpdate(rs: seq<Reader>, g: nat, r: Reader)
    requires g < |rs|
    ensures ReadersWork(rs[g := r]) + ReaderWork(rs[g]) == ReadersWork(rs) + ReaderWork(r)
  {
    hide ReaderWork;
    if g > 0 {
      ReadersWorkUpdate(rs[1..], g - 1, r);
      assert rs[g := r][1..] == rs[1..][g - 1 := r];
    }
  }

  // One step

  /** What every such step does. */
  ghost predicate Better(s: State, t: State, n: SocketId) {
    Joined(t, n) && Harmless(t.server) && SameSent(s, t) && Work(t) < Work(s)
  }

  lemma DeliverMoves(s: State, n: SocketId, i: SocketId)
    requires Flowing(s, n) && Enabled(s, ClientDeliver(i))
    ensures Better(s, Apply(s, ClientDeliver(i)), n)
  {
    hide Inv, OnMessage;
    var k := s.sockets[i];
    SocketsWorkUpdate(s.sockets, i, k.(down := k.down[1..]));
    ClientEffectsFew(Popped(s, i).sockets, OpenSocket(0), OpenSocket(0));
    if i == n {
      LiveMessage(s.client, n, k.down[0]);
    } else {
      StaleMessage(s.client, i, k.down[0]);
    }
  }

  lemma StaleMessage(c: Client, i: SocketId, f: Frame)
    requires c.current != Some(i)
    ensures OnMessage(c, i, f) == (c, [])
  {
  }

  lemma WriteMoves(s: State, n: SocketId)
    requires Flowing(s, n) && Enabled(s, WriterTake(Written))
    ensures Better(s, Apply(s, WriterTake(Written)), n)
  {
    JoinedParts(s, n);
    assert s.server.queue != [];
    hide Inv, Apply, Joined, Enabled, SocketsWork, ReadersWork, Harmless, SameSent;
    WriteOne(s, n);
    var t, k := Apply(s, WriterTake(Written)), s.sockets[n];
    HarmlessSame(s.server, t.server);
    WriteArrives(s, n);
    SocketsWorkUpdate(s.sockets, n, k.(down := k.down + [s.server.queue[0]]));
  }

  lemma HarmlessSame(v: Server, v': Server)
    requires Harmless(v) && SameReading(v, v')
    ensures Harmless(v')
  {
  }

  /** What is written arrives at the end of the socket's queue. */
  lemma WriteArrives(s: State, n: SocketId)
    requires Joined(s, n) && s.server.queue != []
    ensures n < |s.sockets|
    ensures Apply(s, WriterTake(Written)).sockets == s.sockets[n := s.sockets[n].(down := s.sockets[n].down + [s.server.queue[0]])]
  {
    ServerEffectsOne(s.sockets, Transmit(n, s.server.queue[0]));
  }

  lemma ReadMoves(s: State, n: SocketId, g: nat)
    requires Flowing(s, n) && Enabled(s, ReadFrame(g))
    ensures Better(s, Apply(s, ReadFrame(g)), n)
  {
    hide Inv;
    var r := s.server.readers[g];
    var k := s.sockets[r.sock];
    SocketsWorkUpdate(s.sockets, r.sock, k.(up := k.up[1..]));
    ReadersWorkUpdate(s.server.readers, g, r.(held := Some(Got(k.up[0]))));
  }

  lemma ErrorMoves(s: State, n: SocketId, g: nat, normal: bool)
    requires Flowing(s, n) && Enabled(s, ReadError(g, normal)) && g + 1 < |s.server.readers|
    ensures Better(s, Apply(s, ReadError(g, normal)), n)
  {
    hide Inv;
    var r := s.server.readers[g];
    ReadersWorkUpdate(s.server.readers, g, r.(held := Some(Broken(normal)), stopped := true));
  }

  lemma HandMoves(s: State, n: SocketId, g: nat)
    requires Flowing(s, n) && Enabled(s, HandOver(g))
    ensures Better(s, Apply(s, HandOver(g)), n)
  {
    hide UpInv, DownOK, Requests, ClientShape;
    var r := s.server.readers[g];
    ReadersWorkUpdate(s.server.readers, g, r.(held := None));
  }

  lemma ReceiveMoves(s: State, n: SocketId)
    requires Flowing(s, n) && Enabled(s, LoopReceive(false))
    ensures Better(s, Apply(s, LoopReceive(false)), n)
  {
    hide Inv;
  }

  lemma StepMoves(s: State, n: SocketId, a: Action)
    requires Flowing(s, n) && Moves(s, a)
    ensures Flowing(Apply(s, a), n) && SameSent(s, Apply(s, a)) && Work(Apply(s, a)) < Work(s)
  {
    hide Inv, Apply, Joined, Harmless, Work, Enabled;
    StepKeeps(s, a);
    match a {
      case ClientDeliver(i) => DeliverMoves(s, n, i);
      case ReadFrame(g) => ReadMoves(s, n, g);
      case ReadError(g, normal) => ErrorMoves(s, n, g, normal);
      case HandOver(g) => HandMoves(s, n, g);
      case LoopReceive(_) => ReceiveMoves(s, n);
      case WriterTake(_) => WriteMoves(s, n);
    }
  }

  // Every schedule

  lemma {:induction false} SchedulesEnd(s: State, n: SocketId, more: seq<Action>)
    requires Flowing(s, n) && AllMove(s, more)
    ensures var t := Steps(s, more); Flowing(t, n) && SameSent(s, t) && |more| + Work(t) <= Work(s)
  {
    hide Flowing, Apply, Moves, Work;
    if more != [] {
      var before, a := more[..|more| - 1], more[|more| - 1];
      assert forall k :: 0 <= k <= |before| ==> more[..k] == before[..k];
      assert before[..|before|] == before;
      SchedulesEnd(s, n, before);
      assert Moves(Steps(s, more[..|before|]), more[|before|]);
      StepMoves(Steps(s, before), n, a);
    }
  }

  /** Where nothing moves any more, nothing is on its way. */
  lemma NothingMoves(s: State, n: SocketId)
    requires Flowing(s, n) && forall a :: !Moves(s, a)
    ensures Undelivered(s, n) == 0 && s.sockets[n].down == [] && s.server.queue == []
  {
    hide Inv;
    var g: nat := |s.server.readers| - 1;
    assert !Moves(s, ClientDeliver(n)) && !Moves(s, WriterTake(Written)) && !Moves(s, LoopReceive(false));
    assert !Moves(s, HandOver(g)) && !Moves(s, ReadFrame(g));
  }

  /**
   * From any point of a run at which both sides are on one socket, with nothing on its way that
   * ends the session: whatever moves, in whatever order, there is an end to it, and when nothing
   * moves any more each side has processed all that the other one has sent.
   */
  lemma EveryScheduleDelivers(run: seq<Action>, n: SocketId, more: seq<Action>)
    requires Joined(Exec(run), n) && Harmless(Exec(run).server) && AllMove(Exec(run), more)
    ensures |more| <= Work(Exec(run))
    ensures var s, t := Exec(run), Exec(run + more);
            && SameSent(s, t)
            && ((forall a :: !Moves(t, a)) ==>
                  && t.server.loop.processed == s.client.sent
                  && t.client.processed == s.server.submitted)
  {
    hide Inv, Apply, Exec, Steps, Moves, Work, AllMove;
    RunKeeps(run);
    SchedulesEnd(Exec(run), n, more);
    ExecSteps(run, more);
    var t := Exec(run + more);
    if forall a :: !Moves(t, a) {
      NothingMoves(t, n);
      Drained(t, n);
      NothingMissing(run + more);
    }
  }

  /** And from wherever the session can be resumed, such a point can be reached. */
  lemma ResumeIsCertain(run: seq<Action>) returns (join: seq<Action>)
    requires CanResume(Exec(run))
    ensures SameSent(Exec(run), Exec(run + join))
    ensures forall more :: AllMove(Exec(run + join), more) ==>
              && |more| <= Work(Exec(run + join))
              && var t := Exec(run + join + more);
                 && SameSent(Exec(run), t)
                 && ((forall a :: !Moves(t, a)) ==>
                       && t.server.loop.processed == Exec(run).client.sent
                       && t.client.processed == Exec(run).server.submitted)
  {
    hide Inv, Exec, Steps, Moves, Work, AllMove, CanResume, Joined, Harmless;
    RunKeeps(run);
    var j, n := Join(Exec(run));
    join := j;
    ExecSteps(run, join);
    forall more | AllMove(Exec(run + join), more)
      ensures |more| <= Work(Exec(run + join))
      ensures var t := Exec(run + join + more);
              && SameSent(Exec(run), t)
              && ((forall a :: !Moves(t, a)) ==>
                    && t.server.loop.processed == Exec(run).client.sent
                    && t.client.processed == Exec(run).server.submitted)
    {
      EveryScheduleDelivers(run + join, n, more);
    }
  }
}
