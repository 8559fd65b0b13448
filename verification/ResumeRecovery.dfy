/**
 * Resume works: wherever a run has got to, as long as the session lives and the logs
 * still hold what is missing, some way on leads to both sides having processed
 * everything, over a new socket, however the old ones died.
 */
module ResumeRecovery {
  import opened Common
  import opened ReplayLog
  import opened ResumeClient
  import opened ResumeServer
  import opened ResumeProtocol
  import opened ResumeSafety

  function Steps(s: State, more: seq<Action>): State {
    if more == [] then s else Apply(Steps(s, more[..|more| - 1]), more[|more| - 1])
  }

  lemma {:induction false} ExecSteps(run: seq<Action>, more: seq<Action>)
    ensures Exec(run + more) == Steps(Exec(run), more)
  {
    hide Apply;
    if more == [] {
      assert run + more == run;
    } else {
      ExecSteps(run, more[..|more| - 1]);
      assert (run + more)[..|run + more| - 1] == run + more[..|more| - 1];
    }
  }

  lemma {:induction false} StepsMore(s: State, a: seq<Action>, b: seq<Action>)
    ensures Steps(s, a + b) == Steps(Steps(s, a), b)
  {
    hide Apply;
    if b == [] {
      assert a + b == a;
    } else {
      StepsMore(s, a, b[..|b| - 1]);
      assert (a + b)[..|a + b| - 1] == a + b[..|b| - 1];
    }
  }

  lemma OneStep(s: State, a: Action)
    ensures Steps(s, [a]) == Apply(s, a)
  {
    hide Apply;
    assert [a][..0] == [];
    assert Steps(s, []) == s;
  }

  lemma {:induction false} StepsKeep(s: State, more: seq<Action>)
    requires Inv(s)
    ensures Inv(Steps(s, more))
  {
    hide Inv, Apply;
    if more != [] {
      StepsKeep(s, more[..|more| - 1]);
      StepKeeps(Steps(s, more[..|more| - 1]), more[|more| - 1]);
    }
  }

  /**
   * The session lives on both sides, and both logs reach back far enough: to what the other side has,
   * and, at the server, to the count of every earlier attempt still waiting to be served.
   */
  ghost predicate CanResume(s: State) {
    var c, v := s.client, s.server;
    && !c.closed && c.secret && c.received <= MAX_COUNT
    && v.started && !v.loop.ended && !v.writerDone
    && AfterFirst(v.writer.sent, c.received).Some? && AfterFirst(c.sent, v.loop.received).Some?
    && (forall i :: 0 <= i < |v.actions| ==> Servable(s, v.actions[i]))
  }

  predicate Servable(s: State, i: SocketId) {
    i < |s.sockets| && s.sockets[i].stage.Queued? ==> AfterFirst(s.server.writer.sent, s.sockets[i].stage.n).Some?
  }

  /** Nothing of an earlier attempt is under way at the server. */
  predicate Settled(s: State) { s.server.attaching.None? && s.server.actions == [] }

  /** Both sides are on socket n, which has lost nothing. */
  ghost predicate Joined(s: State, n: SocketId) {
    var c, v := s.client, s.server;
    && !c.closed && !c.resuming && c.version && c.current == Some(n)
    && v.started && !v.loop.ended && !v.writerDone && v.attaching.None? && v.writer.conn == Some(n)
    && v.readers != [] && v.readers[|v.readers| - 1].sock == n && !v.readers[|v.readers| - 1].stopped
    && n < |s.sockets| && s.sockets[n].ready == Open && !s.sockets[n].upCut && !s.sockets[n].downCut
  }

  /** Nothing new is said on either side. */
  predicate SameSent(s: State, t: State) {
    t.client.sent == s.client.sent && t.server.submitted == s.server.submitted
  }

  // Joining, step by step

  lemma StartAgain(s: State, a: Action)
    requires Inv(s) && !s.client.closed && s.client.secret
    requires a == if s.client.resuming then ClientTimer(false) else ClientTick(STALL_AFTER + 1)
    ensures var t, n := Apply(s, a), |s.sockets|;
            && t.client == s.client.(resuming := true, current := Some(n), socket := Some(n), nextSocket := n + 1)
            && t.server == s.server && |t.sockets| == n + 1 && t.sockets[n] == Fresh(Unheard)
  {
    hide UpInv, DownOK, Requests, ServerShape;
    var c, n := s.client, |s.sockets|;
    assert c.nextSocket == n;
    ClientEffectsFew(s.sockets, CloseSocket(c.current.value), OpenSocket(n));
  }

  /** The client's socket opens, and says hello. */
  lemma OpenNew(s: State, n: SocketId)
    requires n < |s.sockets| && s.sockets[n] == Fresh(Unheard)
    requires !s.client.closed && s.client.resuming && s.client.current == Some(n)
    ensures var t := Apply(s, ClientOpen(n));
            && t.client == s.client && t.server == s.server && |t.sockets| == |s.sockets|
            && t.sockets[n] == Socket([Hello(Some(s.client.received))], [], Open, false, false, Unheard)
  {
    ClientEffectsFew(WithReady(s, n, Open).sockets, Transmit(n, Hello(Some(s.client.received))), OpenSocket(0));
  }

  lemma AcceptAndPost(s: State, n: SocketId, count: nat)
    requires n < |s.sockets| && s.sockets[n] == Socket([Hello(Some(count))], [], Open, false, false, Unheard)
    requires s.server.started && count <= MAX_COUNT && s.server.actions == []
    ensures var t := Apply(Apply(s, AcceptResume(n, true, false)), Post(n));
            && t.client == s.client && t.server == s.server.(actions := [n]) && |t.sockets| == |s.sockets|
            && t.sockets[n] == Socket([], [Handshake], Open, false, false, Queued(count))
  {
    var t := Apply(s, AcceptResume(n, true, false));
    assert t.sockets[n] == Socket([], [Handshake], Open, false, false, Accepted(count));
  }

  function AllWritten(n: nat): (fates: seq<Fate>)
    ensures |fates| == n
  {
    seq(n, _ => Written)
  }

  lemma {:induction false} SendAllWritten(w: Writer, frames: seq<Frame>)
    requires w.conn.Some?
    ensures SendAll(w, frames, AllWritten(|frames|)).0 == w
    decreases |frames|
  {
    if frames != [] {
      assert AllWritten(|frames|)[1..] == AllWritten(|frames| - 1);
      SendAllWritten(w, frames[1..]);
    }
  }

  lemma ServeNew(s: State, n: SocketId, rest: seq<string>)
    requires n < |s.sockets| && s.sockets[n] == Socket([], [Handshake], Open, false, false, Queued(s.client.received))
    requires s.server.started && !s.server.loop.ended && !s.server.writerDone
    requires s.server.attaching.None? && s.server.actions == [n]
    requires AfterFirst(s.server.writer.sent, s.client.received) == Some(rest)
    ensures var t := Apply(s, ServeResume(AllWritten(1 + |rest|)));
            && t.client == s.client && |t.sockets| == |s.sockets|
            && t.server == s.server.(actions := [], writer := s.server.writer.(conn := Some(n)), attaching := Some(n))
            && t.sockets[n] == Socket([], [Handshake] + ([Resumed(s.server.loop.received)] + AsFrames(rest)),
                                      Open, false, false, Attached)
  {
    hide SendAll, AfterFirst, Arrive;
    var v := s.server;
    var frames := [Resumed(v.loop.received)] + AsFrames(rest);
    var fates := AllWritten(|frames|);
    assert Replay(v.writer, s.client.received, v.loop.received) == Some(frames);
    assert Enabled(s, ServeResume(fates));
    var ss := s.sockets[n := s.sockets[n].(stage := Attached)];
    var w := v.writer.(conn := Some(n));
    SendAllWritten(w, frames);
    var k := ServerEffectsSendAll(ss, w, frames, fates);
    assert frames[..k] == frames;
    Closing(ss, v.writer, SendAll(w, frames, fates).1);
    ArriveWhole(ss, n, frames);
  }

  lemma Closing(ss: seq<Socket>, w: Writer, es: seq<Effect>)
    ensures ServerEffects(ss, (if w.conn.Some? then [CloseSocket(w.conn.value)] else []) + es) == ServerEffects(ss, es)
  {
    if w.conn.Some? {
      ServerEffectsAppend(ss, [CloseSocket(w.conn.value)], es);
      ServerEffectsOne(ss, CloseSocket(w.conn.value));
    } else {
      assert [] + es == es;
    }
  }

  lemma ArriveWhole(ss: seq<Socket>, n: SocketId, frames: seq<Frame>)
    requires n < |ss| && !ss[n].downCut
    ensures Arrive(ss, n, frames) == ss[n := ss[n].(down := ss[n].down + frames)]
  {
  }

  /** The client hears the greeting and the answer to its request, and sends what the server lacks. */
  lemma HearAnswer(s: State, n: SocketId, ack: nat, more: seq<Frame>)
    requires n < |s.sockets|
    requires s.sockets[n] == Socket([], [Handshake] + ([Resumed(ack)] + more), Open, false, false, Attached)
    requires !s.client.closed && s.client.resuming && s.client.current == Some(n) && AfterFirst(s.client.sent, ack).Some?
    ensures var t := Apply(Apply(s, ClientDeliver(n)), ClientDeliver(n));
            && t.client == s.client.(version := true, resuming := false) && t.server == s.server
            && |t.sockets| == |s.sockets|
            && t.sockets[n].ready == Open && !t.sockets[n].upCut && !t.sockets[n].downCut
  {
    hide AfterFirst;
    var down := [Handshake] + ([Resumed(ack)] + more);
    assert down[0] == Handshake && down[1..] == [Resumed(ack)] + more;
    ClientEffectsFew(Popped(s, n).sockets, OpenSocket(0), OpenSocket(0));
    var t := Apply(s, ClientDeliver(n));
    assert t.client == s.client.(version := true) && t.sockets[n].down == [Resumed(ack)] + more;
    ClientEffectsTransmitAll(Popped(t, n).sockets, n, AfterFirst(s.client.sent, ack).value);
  }

  // Earlier attempts

  /** The loop serves the attempt at the head of its queue. */
  lemma ServeOlder(s: State, i: SocketId, rest: seq<string>)
    requires i < |s.sockets| && s.sockets[i].stage.Queued? && s.server.actions != [] && s.server.actions[0] == i
    requires s.server.started && !s.server.loop.ended && !s.server.writerDone && s.server.attaching.None?
    requires AfterFirst(s.server.writer.sent, s.sockets[i].stage.n) == Some(rest)
    ensures var t := Apply(s, ServeResume(AllWritten(1 + |rest|)));
            && t.client == s.client && |t.sockets| == |s.sockets|
            && t.server == s.server.(actions := s.server.actions[1..], writer := s.server.writer.(conn := Some(i)), attaching := Some(i))
            && forall j :: 0 <= j < |s.sockets| && j != i ==> t.sockets[j] == s.sockets[j]
  {
    hide SendAll, AfterFirst, Arrive;
    var v := s.server;
    var frames := [Resumed(v.loop.received)] + AsFrames(rest);
    var fates := AllWritten(|frames|);
    assert Replay(v.writer, s.sockets[i].stage.n, v.loop.received) == Some(frames);
    assert Enabled(s, ServeResume(fates));
    var ss := s.sockets[i := s.sockets[i].(stage := Attached)];
    var w := v.writer.(conn := Some(i));
    SendAllWritten(w, frames);
    var k := ServerEffectsSendAll(ss, w, frames, fates);
    Closing(ss, v.writer, SendAll(w, frames, fates).1);
    ArriveElsewhere(ss, i, frames[..k]);
  }

  lemma ArriveElsewhere(ss: seq<Socket>, i: SocketId, frames: seq<Frame>)
    requires i < |ss|
    ensures var t := Arrive(ss, i, frames); |t| == |ss| && forall j :: 0 <= j < |ss| && j != i ==> t[j] == ss[j]
  {
  }

  /** A connection that the writer already has gets its reader. */
  lemma {:induction false} Settle(s: State) returns (more: seq<Action>)
    requires Inv(s) && CanResume(s)
    ensures var t := Steps(s, more); CanResume(t) && Settled(t) && SameSent(s, t)
    decreases |s.server.actions|, s.server.attaching.Some?
  {
    hide Inv, Apply, AfterFirst;
    if s.server.attaching.Some? {
      var a := StartReader;
      Reading(s, s.server.attaching.value);
      OneStep(s, a);
      StepKeeps(s, a);
      var rest := Settle(Apply(s, a));
      StepsMore(s, [a], rest);
      more := [a] + rest;
    } else if s.server.actions == [] {
      more := [];
    } else {
      var a := SettleOne(s);
      OneStep(s, a);
      StepKeeps(s, a);
      var rest := Settle(Apply(s, a));
      StepsMore(s, [a], rest);
      more := [a] + rest;
    }
  }

  lemma SettleOne(s: State) returns (a: Action)
    requires Inv(s) && CanResume(s) && s.server.attaching.None? && s.server.actions != []
    ensures CanResume(Apply(s, a)) && SameSent(s, Apply(s, a)) && Apply(s, a).server.actions == s.server.actions[1..]
  {
    hide Apply, AfterFirst, Inv;
    var i := s.server.actions[0];
    QueueShape(s);
    assert Servable(s, i);
    var rest := AfterFirst(s.server.writer.sent, s.sockets[i].stage.n).value;
    a := ServeResume(AllWritten(1 + |rest|));
    ServeOlder(s, i, rest);
    var t := Apply(s, a);
    forall j | 0 <= j < |t.server.actions| ensures Servable(t, t.server.actions[j]) {
      assert t.server.actions[j] == s.server.actions[j + 1];
      assert Servable(s, s.server.actions[j + 1]);
    }
  }

  lemma QueueShape(s: State)
    requires Inv(s)
    ensures forall j :: 0 <= j < |s.server.actions| ==>
              s.server.actions[j] < |s.sockets| && s.sockets[s.server.actions[j]].stage.Queued?
    ensures forall j, k :: 0 <= j < k < |s.server.actions| ==> s.server.actions[j] != s.server.actions[k]
  {
    hide UpInv, DownOK, Requests, ClientShape;
  }

  function JoinRun(s: State, rest: seq<string>): (run: seq<Action>)
    ensures |run| == 8
  {
    var n := |s.sockets|;
    [if s.client.resuming then ClientTimer(false) else ClientTick(STALL_AFTER + 1),
     ClientOpen(n), AcceptResume(n, true, false), Post(n), ServeResume(AllWritten(1 + |rest|)), StartReader, ClientDeliver(n), ClientDeliver(n)]
  }

  lemma TwoSteps(s: State, a: Action, b: Action)
    ensures Steps(s, [a, b]) == Apply(Apply(s, a), b)
  {
    hide Apply;
    assert [a] + [b] == [a, b];
    StepsMore(s, [a], [b]);
    OneStep(s, a);
    OneStep(Steps(s, [a]), b);
  }

  lemma FourSteps(s: State, a: Action, b: Action, c: Action, d: Action)
    ensures Steps(s, [a, b, c, d]) == Apply(Apply(Apply(Apply(s, a), b), c), d)
  {
    hide Apply, Steps;
    assert [a, b] + [c, d] == [a, b, c, d];
    StepsMore(s, [a, b], [c, d]);
    TwoSteps(s, a, b);
    TwoSteps(Steps(s, [a, b]), c, d);
  }

  lemma EightSteps(s: State, a: Action, b: Action, c: Action, d: Action, e: Action, f: Action, g: Action, h: Action)
    ensures Steps(s, [a, b, c, d, e, f, g, h]) == Apply(Apply(Apply(Apply(Apply(Apply(Apply(Apply(s, a), b), c), d), e), f), g), h)
  {
    hide Apply, Steps;
    assert [a, b, c, d] + [e, f, g, h] == [a, b, c, d, e, f, g, h];
    StepsMore(s, [a, b, c, d], [e, f, g, h]);
    FourSteps(s, a, b, c, d);
    FourSteps(Steps(s, [a, b, c, d]), e, f, g, h);
  }

  /** From wherever the session can be resumed, some way on puts both sides on a new socket. */
  lemma Join(s: State) returns (more: seq<Action>, n: SocketId)
    requires Inv(s) && CanResume(s)
    ensures Joined(Steps(s, more), n) && SameSent(s, Steps(s, more)) && Harmless(Steps(s, more).server)
  {
    hide Inv, Apply, Steps, Joined, CanResume, Harmless;
    var settle := Settle(s);
    StepsKeep(s, settle);
    var join, m := JoinSettled(Steps(s, settle));
    StepsMore(s, settle, join);
    more, n := settle + join, m;
  }

  lemma JoinSettled(s: State) returns (more: seq<Action>, n: SocketId)
    requires Inv(s) && CanResume(s) && Settled(s)
    ensures Joined(Steps(s, more), n) && SameSent(s, Steps(s, more)) && Harmless(Steps(s, more).server)
  {
    hide Inv, Apply, AfterFirst, Harmless;
    n := |s.sockets|;
    var rest := AfterFirst(s.server.writer.sent, s.client.received).value;
    more := JoinRun(s, rest);
    EightSteps(s, more[0], more[1], more[2], more[3], more[4], more[5], more[6], more[7]);
    var s1 := Apply(s, more[0]);
    StartAgain(s, more[0]);
    var s2 := Apply(s1, more[1]);
    OpenNew(s1, n);
    var s4 := Apply(Apply(s2, more[2]), more[3]);
    AcceptAndPost(s2, n, s.client.received);
    var s5 := Apply(s4, more[4]);
    ServeNew(s4, n, rest);
    var s6 := Apply(s5, more[5]);
    Reading(s5, n);
    NewReader(s, s6.server, n);
    HearAnswer(s6, n, s.server.loop.received, AsFrames(rest));
  }

  lemma Reading(s: State, n: SocketId)
    requires s.server.attaching == Some(n)
    ensures Apply(s, StartReader) ==
            s.(server := s.server.(readers := s.server.readers + [Reader(n, None, false)], attaching := None,
                                   loop := s.server.loop.(gen := s.server.loop.gen + 1)))
  {
  }

  /** What the old reader left in the channel is of an older generation. */
  lemma NewReader(s: State, v: Server, n: SocketId)
    requires Inv(s) && v.readers == s.server.readers + [Reader(n, None, false)] && v.loop.gen == s.server.loop.gen + 1
    requires v.chan == s.server.chan
    ensures Harmless(v)
  {
    hide UpInv, DownOK, Requests, ClientShape;
  }

  // Draining

  /** One more frame from the socket to the client. */
  lemma DeliverOne(s: State, n: SocketId)
    requires Inv(s) && Joined(s, n) && s.sockets[n].down != []
    ensures var t := Apply(s, ClientDeliver(n));
            && Joined(t, n) && SameSent(s, t) && t.server == s.server
            && |t.sockets[n].down| == |s.sockets[n].down| - 1 && t.sockets[n].up == s.sockets[n].up
  {
    hide Inv, OnMessage;
    ClientEffectsFew(Popped(s, n).sockets, OpenSocket(0), OpenSocket(0));
    LiveMessage(s.client, n, s.sockets[n].down[0]);
  }

  /** Once it has joined, the client sends nothing in answer to a message. */
  lemma LiveMessage(c: Client, n: SocketId, f: Frame)
    requires !c.closed && !c.resuming && c.version && c.current == Some(n)
    ensures var (d, effects) := OnMessage(c, n, f);
            && effects == [] && d.version
            && d == c.(version := d.version, secret := d.secret, received := d.received, processed := d.processed)
  {
    hide AfterFirst, TransmitAll;
  }

  lemma {:induction false} DrainDown(s: State, n: SocketId) returns (more: seq<Action>)
    requires Inv(s) && Joined(s, n)
    ensures var t := Steps(s, more);
            && Joined(t, n) && SameSent(s, t) && t.server == s.server
            && t.sockets[n].down == [] && t.sockets[n].up == s.sockets[n].up
    decreases |s.sockets[n].down|
  {
    hide Inv, Apply;
    if s.sockets[n].down == [] {
      more := [];
    } else {
      var a := ClientDeliver(n);
      DeliverOne(s, n);
      OneStep(s, a);
      StepKeeps(s, a);
      var rest := DrainDown(Apply(s, a), n);
      StepsMore(s, [a], rest);
      more := [a] + rest;
    }
  }

  /** The writer takes one more frame from its queue. */
  lemma WriteOne(s: State, n: SocketId)
    requires Inv(s) && Joined(s, n) && s.server.queue != []
    ensures var t := Apply(s, WriterTake(Written));
            Joined(t, n) && SameSent(s, t) && SameReading(s.server, t.server) && t.server.queue == s.server.queue[1..]
  {
    hide Inv;
    ServerEffectsOne(s.sockets, Transmit(n, s.server.queue[0]));
  }

  lemma {:induction false} DrainQueue(s: State, n: SocketId) returns (more: seq<Action>)
    requires Inv(s) && Joined(s, n)
    ensures var t := Steps(s, more);
            Joined(t, n) && SameSent(s, t) && SameReading(s.server, t.server) && t.server.queue == []
    decreases |s.server.queue|
  {
    hide Inv, Apply;
    if s.server.queue == [] {
      more := [];
    } else {
      var a := WriterTake(Written);
      WriteOne(s, n);
      OneStep(s, a);
      StepKeeps(s, a);
      var rest := DrainQueue(Apply(s, a), n);
      StepsMore(s, [a], rest);
      more := [a] + rest;
    }
  }

  /** The loop takes what its channel holds; only a reader's error could end the session, and there is none. */
  predicate Harmless(v: Server) {
    && (v.chan.Some? ==> v.chan.value.item.Got? || v.chan.value.gen != v.loop.gen)
    && (v.readers != [] ==> var h := v.readers[|v.readers| - 1].held; h.Some? ==> h.value.Got?)
  }

  function Undelivered(s: State, n: SocketId): nat
    requires n < |s.sockets| && s.server.readers != []
  {
    3 * |s.sockets[n].up| + (if s.server.readers[|s.server.readers| - 1].held.Some? then 2 else 0) +
      (if s.server.chan.Some? then 1 else 0)
  }

  /** One more step on the way of the client's messages to the loop. */
  lemma ReadOne(s: State, n: SocketId) returns (a: Action)
    requires Inv(s) && Joined(s, n) && Harmless(s.server) && Undelivered(s, n) > 0
    ensures var t := Apply(s, a);
            && Joined(t, n) && SameSent(s, t) && Harmless(t.server) && t.server.queue == s.server.queue
            && Undelivered(t, n) < Undelivered(s, n) && t.sockets[n].down == s.sockets[n].down
  {
    hide Inv, Apply, Joined, Harmless;
    JoinedParts(s, n);
    var g: nat := |s.server.readers| - 1;
    if s.server.chan.Some? {
      a := LoopReceive(false);
      ReceiveOne(s, n);
    } else if s.server.readers[g].held.Some? {
      a := HandOver(g);
      HandOne(s, n);
    } else {
      a := ReadFrame(g);
      TakeOne(s, n);
    }
  }

  /** What one such step keeps. */
  ghost predicate Nearer(s: State, t: State, n: SocketId)
    requires Joined(s, n)
  {
    && Joined(t, n) && SameSent(s, t) && Harmless(t.server) && t.server.queue == s.server.queue
    && Undelivered(t, n) < Undelivered(s, n) && t.sockets[n].down == s.sockets[n].down
  }

  lemma ReceiveOne(s: State, n: SocketId)
    requires Joined(s, n) && Harmless(s.server) && s.server.chan.Some?
    ensures Nearer(s, Apply(s, LoopReceive(false)), n)
  {
  }

  lemma HandOne(s: State, n: SocketId)
    requires Inv(s) && Joined(s, n) && Harmless(s.server) && s.server.chan.None?
    requires s.server.readers[|s.server.readers| - 1].held.Some?
    ensures Nearer(s, Apply(s, HandOver(|s.server.readers| - 1)), n)
  {
    hide UpInv, DownOK, Requests, ClientShape;
  }

  lemma TakeOne(s: State, n: SocketId)
    requires Joined(s, n) && Harmless(s.server) && s.server.chan.None?
    requires s.server.readers[|s.server.readers| - 1].held.None? && s.sockets[n].up != []
    ensures Nearer(s, Apply(s, ReadFrame(|s.server.readers| - 1)), n)
  {
  }

  lemma {:induction false} DrainUp(s: State, n: SocketId) returns (more: seq<Action>)
    requires Inv(s) && Joined(s, n) && Harmless(s.server)
    ensures var t := Steps(s, more);
            && Joined(t, n) && SameSent(s, t) && t.server.queue == s.server.queue && t.sockets[n].down == s.sockets[n].down
            && Undelivered(t, n) == 0
    decreases Undelivered(s, n)
  {
    hide Inv, Apply, Harmless;
    if Undelivered(s, n) == 0 {
      more := [];
    } else {
      var a := ReadOne(s, n);
      OneStep(s, a);
      StepKeeps(s, a);
      var rest := DrainUp(Apply(s, a), n);
      StepsMore(s, [a], rest);
      more := [a] + rest;
    }
  }

  lemma Drained(s: State, n: SocketId)
    requires Joined(s, n) && Undelivered(s, n) == 0 && s.sockets[n].down == [] && s.server.queue == []
    ensures InPipe(s.server) == [] && ReadingSock(s.server) == n
    ensures Texts(s.sockets[n].up) == [] && Texts(s.sockets[n].down) == [] && Texts(s.server.queue) == []
  {
  }

  lemma JoinAndDrain(s: State) returns (more: seq<Action>, n: SocketId)
    requires Inv(s) && CanResume(s)
    ensures var t := Steps(s, more);
            Joined(t, n) && SameSent(s, t) && Undelivered(t, n) == 0 && t.sockets[n].down == [] && t.server.queue == []
  {
    hide Inv, Apply, Steps, Joined, CanResume;
    var join, m := Join(s);
    n := m;
    StepsKeep(s, join);
    var s1 := Steps(s, join);
    var write := DrainQueue(s1, n);
    StepsKeep(s1, write);
    StepsMore(s, join, write);
    var s2 := Steps(s1, write);
    var read := DrainUp(s2, n);
    StepsKeep(s2, read);
    StepsMore(s, join + write, read);
    var s3 := Steps(s2, read);
    var deliver := DrainDown(s3, n);
    StepsMore(s, join + write + read, deliver);
    more := join + write + read + deliver;
    var s4 := Steps(s3, deliver);
    JoinedParts(s3, n);
    JoinedParts(s4, n);
  }

  lemma JoinedParts(s: State, n: SocketId)
    requires Joined(s, n)
    ensures n < |s.sockets| && s.server.readers != []
  {
  }

  /**
   * From wherever a run has got to, as long as the session lives and both logs reach back
   * to what the other side has, there is a way on -- a new socket, the handshake of a
   * resume, and deliveries -- after which each side has processed all that the other sent.
   */
  lemma ResumeDeliversEverything(run: seq<Action>) returns (more: seq<Action>)
    requires CanResume(Exec(run))
    ensures var s, t := Exec(run), Exec(run + more);
            && SameSent(s, t)
            && t.server.loop.processed == s.client.sent
            && t.client.processed == s.server.submitted
  {
    hide Inv, Apply, Exec, Steps, CanResume;
    RunKeeps(run);
    var all, n := JoinAndDrain(Exec(run));
    more := all;
    ExecSteps(run, more);
    Drained(Exec(run + more), n);
    NothingMissing(run + more);
  }

  /** On the first socket, with no trouble so far. */
  predicate OnItsFirst(c: Client) {
    && c.current == c.socket == Some(0) && c.nextSocket == 1 && !c.resuming && !c.leaving && !c.closed && c.version
    && c.received == 0 && c.sent == [] && c.processed == []
  }

  /** An ordinary start of a session leads there. */
  lemma FirstConnectionCanResume()
    ensures var s := Exec([ClientOpen(0), AcceptNew(false), WriterTake(Written), WriterTake(Written),
                           ClientDeliver(0), ClientDeliver(0)]);
            CanResume(s) && OnItsFirst(s.client)
  {
    hide Apply, CanResume;
    var s0 := Init();
    var a: seq<Action> := [ClientOpen(0), AcceptNew(false), WriterTake(Written), WriterTake(Written),
                           ClientDeliver(0), ClientDeliver(0)];
    assert a[..0] == [] && a[..1] == [a[0]] && a[..2][..1] == a[..1] && a[..3][..2] == a[..2];
    assert a[..4][..3] == a[..3] && a[..5][..4] == a[..4] && a[..6][..5] == a[..5] && a[..6] == a;
    var s2 := Apply(Apply(s0, a[0]), a[1]);
    assert Exec(a[..1]) == Apply(s0, a[0]);
    assert Exec(a[..2]) == s2;
    Greet();
    var s4 := Apply(Apply(s2, a[2]), a[3]);
    assert Exec(a[..3]) == Apply(s2, a[2]);
    assert Exec(a[..4]) == s4;
    GreetingWritten(s2);
    assert Exec(a[..5]) == Apply(s4, a[4]);
    GreetingHeard(s4);
  }

  lemma Greet()
    ensures var s := Apply(Apply(Init(), ClientOpen(0)), AcceptNew(false));
            && s.client == NewClient() && s.sockets == [Socket([], [], Open, false, false, Attached)]
            && s.server == Init().server.(started := true, queue := [Handshake, Session])
  {
    ClientEffectsFew(WithReady(Init(), 0, Open).sockets, Transmit(0, Hello(None)), OpenSocket(0));
    var s := Apply(Init(), ClientOpen(0));
    assert [] + [Hello(None)] == [Hello(None)];
    assert s.sockets[0] == Socket([Hello(None)], [], Open, false, false, Attached);
    assert s.sockets == [Socket([Hello(None)], [], Open, false, false, Attached)];
    assert [Handshake, Session] + [] == [Handshake, Session];
    assert [Hello(None)][1..] == [];
  }

  lemma GreetingWritten(s: State)
    requires s.sockets == [Socket([], [], Open, false, false, Attached)]
    requires s.server == Init().server.(started := true, queue := [Handshake, Session])
    ensures var t := Apply(Apply(s, WriterTake(Written)), WriterTake(Written));
            && t.client == s.client && t.server == s.server.(queue := [])
            && t.sockets == [Socket([], [Handshake, Session], Open, false, false, Attached)]
  {
    ServerEffectsOne(s.sockets, Transmit(0, Handshake));
    var t := Apply(s, WriterTake(Written));
    assert [] + [Handshake] == [Handshake];
    assert t.server == s.server.(queue := [Session]);
    assert t.sockets == [Socket([], [Handshake], Open, false, false, Attached)];
    ServerEffectsOne(t.sockets, Transmit(0, Session));
    assert [Handshake] + [Session] == [Handshake, Session];
  }

  lemma GreetingHeard(s: State)
    requires s.client == NewClient() && s.server == Init().server.(started := true)
    requires s.sockets == [Socket([], [Handshake, Session], Open, false, false, Attached)]
    ensures var t := Apply(Apply(s, ClientDeliver(0)), ClientDeliver(0)); CanResume(t) && OnItsFirst(t.client)
  {
    ClientEffectsFew(Popped(s, 0).sockets, OpenSocket(0), OpenSocket(0));
    var t := Apply(s, ClientDeliver(0));
    assert t.client == s.client.(version := true) && t.sockets[0].down == [Session];
    ClientEffectsFew(Popped(t, 0).sockets, OpenSocket(0), OpenSocket(0));
  }
}
