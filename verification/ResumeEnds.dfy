/**
 * What ends a session, on either side, and what does not: a lost socket never does.
 */
module ResumeEnds {
  import opened Common
  import opened ReplayLog
  import opened ResumeClient
  import opened ResumeServer
  import opened ResumeProtocol
  import opened ResumeSafety
  import opened ResumeRecovery

  // The server

  /**
   * The session expires, a resume is refused because the writer is done or the messages are no longer
   * kept, or the newest reader brings a message whose handling fails or a deliberate close.
   */
  predicate EndsSession(s: State, a: Action) {
    Enabled(s, a) &&
    match a
    case SessionEnd => true
    case ServeResume(_) =>
      s.server.writerDone || AfterFirst(s.server.writer.sent, s.sockets[s.server.actions[0]].stage.n).None?
    case LoopReceive(fatal) =>
      var d := s.server.chan.value;
      d.gen + 1 == |s.server.readers| && (if d.item.Got? then fatal else d.item.normal)
    case _ => false
  }

  lemma StepEnds(s: State, a: Action)
    requires Inv(s)
    ensures Apply(s, a).server.loop.ended <==> s.server.loop.ended || EndsSession(s, a)
  {
    hide UpInv, DownOK, Requests, ClientShape, AfterFirst, SendAll, ClientEffects, ServerEffects;
  }

  predicate SessionEndsAt(run: seq<Action>, k: int) { 0 <= k < |run| && EndsSession(Exec(run[..k]), run[k]) }

  /** On every run: the session has ended exactly if one of these has happened. */
  lemma {:induction false} SessionEndsIff(run: seq<Action>)
    ensures Exec(run).server.loop.ended <==> exists k :: SessionEndsAt(run, k)
  {
    hide Apply, EndsSession, Inv;
    if run != [] {
      var before, a, n := run[..|run| - 1], run[|run| - 1], |run| - 1;
      SessionEndsIff(before);
      RunKeeps(before);
      StepEnds(Exec(before), a);
      Prefixes(run);
      assert forall k :: 0 <= k < n ==> (SessionEndsAt(run, k) <==> SessionEndsAt(before, k));
      assert SessionEndsAt(run, n) <==> EndsSession(Exec(before), a);
    }
  }

  lemma Prefixes(run: seq<Action>)
    requires run != []
    ensures var before := run[..|run| - 1];
            before[..|before|] == before && forall k :: 0 <= k <= |before| ==> run[..k] == before[..k]
  {
  }

  // A failing network

  /** Frames are cut off, and the server's readers deliver what there is, and then their errors. */
  predicate NetworkStep(s: State, a: Action) {
    match a
    case CutUp(_, _) => true
    case CutDown(_, _) => true
    case ReadFrame(_) => true
    case ReadError(_, _) => true
    case HandOver(_) => true
    case StartReader => true
    case LoopReceive(_) => !EndsSession(s, a)
    case _ => false
  }

  /** Whatever the network does, short of a deliberate close, the session can still be resumed. */
  lemma NetworkKeepsResumable(run: seq<Action>, a: Action)
    requires CanResume(Exec(run)) && NetworkStep(Exec(run), a)
    ensures CanResume(Exec(run + [a])) && SameSent(Exec(run), Exec(run + [a]))
  {
    hide Inv, Exec, AfterFirst, EndsSession;
    RunKeeps(run);
    var s := Exec(run);
    StepEnds(s, a);
    ExecSteps(run, [a]);
    OneStep(s, a);
    ExactlyOnceInOrder(run + [a]);
    NetworkOnly(s, a);
    var t := Exec(run + [a]);
    ReachesFurther(s.client.sent, s.server.loop.received, t.server.loop.received);
    forall i | 0 <= i < |t.server.actions| ensures Servable(t, t.server.actions[i]) {
      assert Servable(s, s.server.actions[i]);
    }
  }

  lemma ReachesFurther(history: seq<string>, n: nat, m: nat)
    requires AfterFirst(history, n).Some? && n <= m <= |history|
    ensures AfterFirst(history, m).Some?
  {
    FitsSuffix(history, n, m);
  }

  /** What such a step leaves alone. */
  lemma NetworkOnly(s: State, a: Action)
    requires NetworkStep(s, a)
    ensures var t := Apply(s, a); var v, w := s.server, t.server;
            && t.client == s.client && |t.sockets| == |s.sockets|
            && (forall i :: 0 <= i < |s.sockets| ==> t.sockets[i].stage == s.sockets[i].stage)
            && w.started == v.started && w.writerDone == v.writerDone && w.writer == v.writer && w.actions == v.actions
            && w.submitted == v.submitted && w.loop.received >= v.loop.received
  {
    hide EndsSession;
  }

  /** The newest reader is waiting, and nothing else is on its way to the loop. */
  predicate Waiting(v: Server, g: nat) {
    g + 1 == |v.readers| && v.readers[g].held.None? && !v.readers[g].stopped && v.chan.None? && v.attaching.None?
  }

  /** Its error gets as far as the loop's channel. */
  lemma ErrorArrives(run: seq<Action>, g: nat, normal: bool)
    requires CanResume(Exec(run)) && Waiting(Exec(run).server, g)
    ensures var s, u := Exec(run), Exec(run + [ReadError(g, normal), HandOver(g)]);
            && CanResume(u) && SameSent(s, u)
            && u.server.chan == Some(Delivery(g, Broken(normal))) && u.server.attaching.None?
            && g + 1 == |u.server.readers| && u.server.readers[g].stopped
  {
    hide Exec, CanResume, SameSent;
    var a, b := ReadError(g, normal), HandOver(g);
    ResumableParts(Exec(run));
    OneAfter(run, a);
    OneAfter(run + [a], b);
    assert run + [a] + [b] == run + [a, b];
    NetworkKeepsResumable(run, a);
    NetworkKeepsResumable(run + [a], b);
    SentTwice(Exec(run), Exec(run + [a]), Exec(run + [a, b]));
  }

  /**
   * The connection dies under a session that could be resumed: the newest reader's error reaches the
   * loop, and the session can be resumed as before -- unless it was a deliberate close, which ends it.
   */
  lemma LosingASocket(run: seq<Action>, g: nat, normal: bool, fatal: bool)
    requires CanResume(Exec(run)) && Waiting(Exec(run).server, g)
    ensures var s, t := Exec(run), Exec(run + [ReadError(g, normal), HandOver(g), LoopReceive(fatal)]);
            (CanResume(t) <==> !normal) && SameSent(s, t)
  {
    hide Exec, CanResume, SameSent, Inv, Apply;
    var lost, c := run + [ReadError(g, normal), HandOver(g)], LoopReceive(fatal);
    assert lost + [c] == run + [ReadError(g, normal), HandOver(g), c];
    ErrorArrives(run, g, normal);
    OneAfter(lost, c);
    ResumableParts(Exec(lost));
    assert EndsSession(Exec(lost), c) <==> normal;
    if normal {
      RunKeeps(lost);
      StepEnds(Exec(lost), c);
      ResumableParts(Exec(lost + [c]));
      LoopSends(Exec(lost), fatal);
    } else {
      NetworkKeepsResumable(lost, c);
    }
    SentTwice(Exec(run), Exec(lost), Exec(lost + [c]));
  }

  lemma ResumableParts(s: State)
    ensures CanResume(s) ==> s.server.started && !s.server.loop.ended
  {
  }

  lemma LoopSends(s: State, fatal: bool)
    ensures SameSent(s, Apply(s, LoopReceive(fatal)))
  {
  }

  lemma SentTwice(s: State, t: State, u: State)
    ensures SameSent(s, t) && SameSent(t, u) ==> SameSent(s, u)
  {
  }

  lemma OneAfter(run: seq<Action>, a: Action)
    ensures Exec(run + [a]) == Apply(Exec(run), a)
  {
    assert (run + [a])[..|run|] == run;
  }

  // The client

  /** A close that the client does not try to get over. */
  predicate FinalClose(c: Client, code: int) {
    c.leaving || code == CLOSE_NO_RESUME || (!c.resuming && (!c.secret || code == 1000))
  }

  /**
   * The client's session is over: its socket closed for good, resuming took too long, or the server
   * lacks messages that are no longer kept.
   */
  predicate EndsClient(s: State, a: Action) {
    var c := s.client;
    Enabled(s, a) &&
    match a
    case ClientClose(i, code) => c.current == Some(i) && FinalClose(c, code)
    case ClientTimer(expired) => c.resuming && expired
    case ClientDeliver(i) =>
      var f := s.sockets[i].down[0];
      !c.closed && c.current == Some(i) && c.version && c.resuming && f.Resumed? && AfterFirst(c.sent, f.ack).None?
    case _ => false
  }

  lemma StepEndsClient(s: State, a: Action)
    requires Inv(s)
    ensures Apply(s, a).client.closed <==> s.client.closed || EndsClient(s, a)
  {
    hide UpInv, DownOK, Requests, ServerShape, AfterFirst, ServerEffects, ClientEffects, SendAll;
    hide OnClose, OnTimer, OnMessage, OnTick, Resume, FinalClose, Send, Leave;
    match a {
      case ClientClose(i, code) => CloseEnds(s.client, i, code);
      case ClientTimer(expired) => TimerEnds(s.client, expired);
      case ClientDeliver(i) =>
        if Enabled(s, a) {
          MessageEnds(s.client, i, s.sockets[i].down[0]);
        }
      case ClientTick(silent) => TickEnds(s.client, silent, IsOpen(s, s.client.socket));
      case ClientSend(text) => SendEnds(s.client, IsOpen(s, s.client.socket), text);
      case ClientLeave => LeaveEnds(s.client);
      case _ =>
    }
  }

  lemma CloseEnds(c: Client, i: SocketId, code: int)
    ensures OnClose(c, i, code).0.closed <==> c.closed || (c.current == Some(i) && FinalClose(c, code))
  {
  }

  lemma TimerEnds(c: Client, expired: bool)
    ensures OnTimer(c, expired).0.closed <==> c.closed || (c.resuming && expired)
  {
  }

  lemma MessageEnds(c: Client, i: SocketId, f: Frame)
    ensures OnMessage(c, i, f).0.closed <==>
              || c.closed
              || (c.current == Some(i) && c.version && c.resuming && f.Resumed? && AfterFirst(c.sent, f.ack).None?)
  {
    hide TransmitAll, AfterFirst;
  }

  lemma TickEnds(c: Client, silent: int, open: bool)
    ensures OnTick(c, silent, open).0.closed == c.closed
  {
  }

  lemma SendEnds(c: Client, open: bool, text: string)
    ensures Send(c, open, text).0.closed == c.closed
  {
  }

  lemma LeaveEnds(c: Client)
    ensures Leave(c).0.closed == c.closed
  {
  }

  predicate ClientEndsAt(run: seq<Action>, k: int) { 0 <= k < |run| && EndsClient(Exec(run[..k]), run[k]) }

  /** On every run: the client has given its session up exactly if one of these has happened. */
  lemma {:induction false} ClientEndsIff(run: seq<Action>)
    ensures Exec(run).client.closed <==> exists k :: ClientEndsAt(run, k)
  {
    hide Apply, EndsClient, Inv;
    if run != [] {
      var before, a, n := run[..|run| - 1], run[|run| - 1], |run| - 1;
      ClientEndsIff(before);
      RunKeeps(before);
      StepEndsClient(Exec(before), a);
      Prefixes(run);
      assert forall k :: 0 <= k < n ==> (ClientEndsAt(run, k) <==> ClientEndsAt(before, k));
      assert ClientEndsAt(run, n) <==> EndsClient(Exec(before), a);
    }
  }

  /** Any other close of the current socket is got over. */
  lemma CloseIsGotOver(run: seq<Action>, i: SocketId, code: int)
    requires CanResume(Exec(run)) && Exec(run).client.current == Some(i) && !FinalClose(Exec(run).client, code)
    ensures var s, t := Exec(run), Exec(run + [ClientClose(i, code)]);
            && CanResume(t) && SameSent(s, t) && t.client.resuming && t.client.received == s.client.received
            && (s.client.resuming ==> t.client == s.client)
            && (!s.client.resuming ==> t.client.current == t.client.socket == Some(|s.sockets|) && |t.sockets| == |s.sockets| + 1
                                       && t.sockets[|s.sockets|] == Fresh(Unheard))
  {
    hide Exec, AfterFirst, UpInv, DownOK, Requests, ServerShape;
    var s, a := Exec(run), ClientClose(i, code);
    RunKeeps(run);
    OneAfter(run, a);
    var t := Apply(s, a);
    ClientEffectsFew(WithReady(s, i, Done).sockets, CloseSocket(i), OpenSocket(|s.sockets|));
    forall j | 0 <= j < |t.server.actions| ensures Servable(t, t.server.actions[j]) {
      assert Servable(s, s.server.actions[j]);
    }
  }

  // Attempts

  /** The client gives its socket up and opens a new one. */
  predicate Attempts(s: State, a: Action) {
    var c := s.client;
    && !c.closed
    && match a
       case ClientClose(i, code) => c.current == Some(i) && !c.resuming && !FinalClose(c, code)
       case ClientTimer(expired) => c.resuming && !expired
       case ClientTick(silent) => c.secret && !c.resuming && silent > STALL_AFTER
       case _ => false
  }

  function CountAttempts(run: seq<Action>): nat {
    if run == [] then 0
    else CountAttempts(run[..|run| - 1]) + if Attempts(Exec(run[..|run| - 1]), run[|run| - 1]) then 1 else 0
  }

  lemma StepAttempts(s: State, a: Action)
    requires Inv(s)
    ensures Apply(s, a).client.nextSocket == s.client.nextSocket + if Attempts(s, a) then 1 else 0
    ensures Attempts(s, a) ==> Apply(s, a).client.resuming && Apply(s, a).client.current == Some(s.client.nextSocket)
  {
    hide UpInv, DownOK, Requests, ServerShape, AfterFirst, ServerEffects, ClientEffects, SendAll, TransmitAll;
    if a.ClientDeliver? && Enabled(s, a) {
      MessageOpensNone(s.client, a.sock, s.sockets[a.sock].down[0]);
      hide OnMessage;
    }
  }

  lemma MessageOpensNone(c: Client, i: SocketId, f: Frame)
    ensures OnMessage(c, i, f).0.nextSocket == c.nextSocket
  {
    hide TransmitAll, AfterFirst;
  }

  /**
   * On every run: there is one socket for the start and one for each attempt, and an attempt is made
   * exactly when the current socket closes and that is not final, when nothing has been heard on it
   * for too long, and when an earlier attempt has gone without an answer.
   */
  lemma {:induction false} SocketsAreAttempts(run: seq<Action>)
    ensures |Exec(run).sockets| == 1 + CountAttempts(run)
    ensures Exec(run).client.nextSocket == |Exec(run).sockets|
  {
    hide Apply, Attempts, UpInv, DownOK, Requests, ServerShape;
    RunKeeps(run);
    if run != [] {
      SocketsAreAttempts(run[..|run| - 1]);
      RunKeeps(run[..|run| - 1]);
      StepAttempts(Exec(run[..|run| - 1]), run[|run| - 1]);
    }
  }

  // What the client sends

  /** There is a socket, and it is open or the session can be resumed. */
  predicate Accepts(s: State) {
    s.client.socket.Some? && (s.client.secret || IsOpen(s, s.client.socket))
  }

  /** The client says something: what it is told to, or a ping when nothing has been heard for 8 s, but not for more than 20. */
  function Says(s: State, a: Action): seq<string> {
    var c := s.client;
    match a
    case ClientSend(text) => if Accepts(s) then [text] else []
    case ClientTick(silent) =>
      if Accepts(s) && !c.closed && !c.resuming && c.secret && 8000 <= silent <= 20000 then ["ping"] else []
    case _ => []
  }

  function Said(run: seq<Action>): seq<string> {
    if run == [] then [] else Said(run[..|run| - 1]) + Says(Exec(run[..|run| - 1]), run[|run| - 1])
  }

  lemma StepSays(s: State, a: Action)
    ensures Apply(s, a).client.sent == s.client.sent + Says(s, a)
  {
    hide AfterFirst, ServerEffects, ClientEffects, SendAll, TransmitAll;
    hide OnClose, OnTimer, OnMessage, OnTick, OnTickVerdict, Leave, OnRead, SendOn, Attach, Replay;
    assert s.client.sent + [] == s.client.sent;
    match a {
      case ClientClose(i, code) => CloseSaysNothing(s.client, i, code);
      case ClientTimer(expired) => TimerSaysNothing(s.client, expired);
      case ClientDeliver(i) =>
        if Enabled(s, a) {
          MessageSaysNothing(s.client, i, s.sockets[i].down[0]);
        }
      case ClientTick(silent) => TickSays(s.client, silent, IsOpen(s, s.client.socket));
      case ClientLeave => LeaveSaysNothing(s.client);
      case _ =>
    }
  }

  lemma TickSays(c: Client, silent: int, open: bool)
    ensures OnTick(c, silent, open).0.sent ==
              if c.socket.Some? && !c.closed && !c.resuming && c.secret && 8000 <= silent <= 20000 then c.sent + ["ping"] else c.sent
  {
  }

  lemma LeaveSaysNothing(c: Client)
    ensures Leave(c).0.sent == c.sent
  {
  }

  lemma CloseSaysNothing(c: Client, i: SocketId, code: int)
    ensures OnClose(c, i, code).0.sent == c.sent
  {
  }

  lemma TimerSaysNothing(c: Client, expired: bool)
    ensures OnTimer(c, expired).0.sent == c.sent
  {
  }

  lemma MessageSaysNothing(c: Client, i: SocketId, f: Frame)
    ensures OnMessage(c, i, f).0.sent == c.sent
  {
    hide TransmitAll, AfterFirst;
  }

  /** On every run: the client has sent exactly what it was told to while it had a socket to send on, and its pings. */
  lemma {:induction false} SentIs(run: seq<Action>)
    ensures Exec(run).client.sent == Said(run)
  {
    hide Apply, Says;
    if run != [] {
      SentIs(run[..|run| - 1]);
      StepSays(Exec(run[..|run| - 1]), run[|run| - 1]);
    }
  }

  /** Leaving closes the socket, and nothing more is sent on it. */
  lemma LeavingIsFinal(run: seq<Action>, text: string)
    ensures var s, t := Exec(run), Exec(run + [ClientLeave]);
            && t.client.leaving && t.client.socket.None? && t.client.closed == s.client.closed
            && |t.sockets| == |s.sockets|
            && (s.client.socket.Some? ==> s.client.socket.value < |s.sockets| && t.sockets[s.client.socket.value].ready == Done)
            && Says(t, ClientSend(text)) == []
            && (forall code :: FinalClose(t.client, code))
  {
    hide Exec, UpInv, DownOK, Requests, ServerShape;
    OneAfter(run, ClientLeave);
    RunKeeps(run);
    var s := Exec(run);
    if s.client.socket.Some? {
      ClientEffectsFew(s.sockets, CloseSocket(s.client.socket.value), CloseSocket(s.client.socket.value));
    } else {
      ClientEffectsFew(s.sockets, CloseSocket(0), CloseSocket(0));
    }
  }

  /** Nothing that comes before the server's greeting is acted on. */
  lemma {:induction false} GreetingFirst(run: seq<Action>)
    ensures NotBefore(Exec(run).client)
  {
    hide Apply;
    if run != [] {
      GreetingFirst(run[..|run| - 1]);
      StepGreets(Exec(run[..|run| - 1]), run[|run| - 1]);
    }
  }

  /** Nothing has been heard but, perhaps, the greeting. */
  predicate NotBefore(c: Client) { !c.version ==> !c.secret && c.received == 0 && c.processed == [] }

  lemma StepGreets(s: State, a: Action)
    requires NotBefore(s.client)
    ensures NotBefore(Apply(s, a).client)
  {
    hide AfterFirst, ServerEffects, ClientEffects, SendAll, TransmitAll, OnClose, OnTimer, OnMessage, Send, Resume, NotBefore;
    match a {
      case ClientClose(i, code) => CloseGreets(s.client, i, code);
      case ClientTimer(expired) => TimerGreets(s.client, expired);
      case ClientDeliver(i) =>
        if Enabled(s, a) {
          MessageGreets(s.client, i, s.sockets[i].down[0]);
        }
      case ClientTick(silent) => TickGreets(s.client, silent, IsOpen(s, s.client.socket));
      case ClientSend(text) => SendGreets(s.client, IsOpen(s, s.client.socket), text);
      case ClientLeave => LeaveGreets(s.client);
      case _ =>
    }
  }

  lemma CloseGreets(c: Client, i: SocketId, code: int)
    requires NotBefore(c)
    ensures NotBefore(OnClose(c, i, code).0)
  {
  }

  lemma TimerGreets(c: Client, expired: bool)
    requires NotBefore(c)
    ensures NotBefore(OnTimer(c, expired).0)
  {
  }

  /** A message before the greeting makes the client leave. */
  lemma MessageGreets(c: Client, i: SocketId, f: Frame)
    requires NotBefore(c)
    ensures var (d, effects) := OnMessage(c, i, f);
            && NotBefore(d)
            && (!c.closed && c.current == Some(i) && !c.version && TypeOf(f) != "handshake" ==> d.leaving && d.socket.None?)
  {
    hide TransmitAll, AfterFirst;
  }

  lemma TickGreets(c: Client, silent: int, open: bool)
    requires NotBefore(c)
    ensures NotBefore(OnTick(c, silent, open).0)
  {
  }

  lemma SendGreets(c: Client, open: bool, text: string)
    requires NotBefore(c)
    ensures NotBefore(Send(c, open, text).0)
  {
  }

  lemma LeaveGreets(c: Client)
    requires NotBefore(c)
    ensures NotBefore(Leave(c).0)
  {
  }

  // Whom the server resumes

  lemma {:induction false} ClientEffectsStages(ss: seq<Socket>, es: seq<Effect>)
    ensures var t := ClientEffects(ss, es);
            && |ss| <= |t| && (forall i :: 0 <= i < |ss| ==> t[i].stage == ss[i].stage)
            && (forall i :: |ss| <= i < |t| ==> t[i].stage == Unheard)
    decreases |es|
  {
    if es != [] {
      ClientEffectsStages(ClientEffect(ss, es[0]), es[1..]);
    }
  }

  lemma {:induction false} ServerEffectsStages(ss: seq<Socket>, es: seq<Effect>)
    ensures var t := ServerEffects(ss, es); |t| == |ss| && forall i :: 0 <= i < |ss| ==> t[i].stage == ss[i].stage
    decreases |es|
  {
    if es != [] {
      ServerEffectsStages(ServerEffect(ss, es[0]), es[1..]);
    }
  }

  /** The server goes on with a socket presented for resume. */
  predicate Served(k: Socket) { k.stage.Accepted? || k.stage.Queued? || k.stage.Attached? }

  /** The session that the socket asks for is found, and the count it carries is one. */
  predicate Finds(s: State, a: Action, i: SocketId) {
    a.AcceptResume? && a.sock == i && Enabled(s, a) && a.found && s.sockets[i].up[0].resume.value <= 0x20_0000_0000_0000
  }

  lemma StepServes(s: State, a: Action, i: SocketId)
    ensures |s.sockets| <= |Apply(s, a).sockets|
    ensures Finds(s, a, i) ==> Served(Apply(s, a).sockets[i])
    ensures i < |Apply(s, a).sockets| && Served(Apply(s, a).sockets[i]) ==> (i < |s.sockets| && Served(s.sockets[i])) || Finds(s, a, i)
  {
    hide ClientEffects, ServerEffects, SendAll, Replay, OnRead, SendOn;
    match a {
      case WriterTake(fate) =>
        if Enabled(s, a) {
          ServerEffectsStages(s.sockets, Take(s.server.writer, s.server.queue[0], fate).1);
        }
      case ServeResume(fates) => ServeStages(s, fates, i);
      case ClientSend(_) => ClientServes(s, a, i);
      case ClientLeave => ClientServes(s, a, i);
      case ClientOpen(_) => ClientServes(s, a, i);
      case ClientDeliver(_) => ClientServes(s, a, i);
      case ClientClose(_, _) => ClientServes(s, a, i);
      case ClientTick(_) => ClientServes(s, a, i);
      case ClientTimer(_) => ClientServes(s, a, i);
      case _ =>
    }
  }

  predicate ByClient(a: Action) {
    a.ClientSend? || a.ClientLeave? || a.ClientOpen? || a.ClientDeliver? || a.ClientClose? || a.ClientTick? || a.ClientTimer?
  }

  /** What the client does leaves every socket at its stage. */
  lemma ClientServes(s: State, a: Action, i: SocketId)
    requires ByClient(a)
    ensures var t := Apply(s, a);
            && |s.sockets| <= |t.sockets|
            && (i < |s.sockets| ==> t.sockets[i].stage == s.sockets[i].stage)
            && (|s.sockets| <= i < |t.sockets| ==> t.sockets[i].stage == Unheard)
  {
    hide ClientEffects, OnMessage, OnClose, OnTimer, OnTick, Send, Leave, OnOpen;
    if Enabled(s, a) {
      match a {
        case ClientSend(text) => ClientEffectsStages(s.sockets, Send(s.client, IsOpen(s, s.client.socket), text).1);
        case ClientLeave => ClientEffectsStages(s.sockets, Leave(s.client).1);
        case ClientOpen(j) => ClientEffectsStages(WithReady(s, j, Open).sockets, OnOpen(s.client, j));
        case ClientDeliver(j) => ClientEffectsStages(Popped(s, j).sockets, OnMessage(s.client, j, s.sockets[j].down[0]).1);
        case ClientClose(j, code) => ClientEffectsStages(WithReady(s, j, Done).sockets, OnClose(s.client, j, code).1);
        case ClientTick(silent) => ClientEffectsStages(s.sockets, OnTick(s.client, silent, IsOpen(s, s.client.socket)).1);
        case ClientTimer(expired) => ClientEffectsStages(s.sockets, OnTimer(s.client, expired).1);
      }
    }
  }

  lemma ServeStages(s: State, fates: seq<Fate>, i: SocketId)
    ensures var t := Apply(s, ServeResume(fates));
            |t.sockets| == |s.sockets| && (i < |s.sockets| && Served(t.sockets[i]) ==> Served(s.sockets[i]))
  {
    hide ServerEffects, SendAll, Replay;
    if Enabled(s, ServeResume(fates)) {
      var v, j := s.server, s.server.actions[0];
      var r := Replay(v.writer, s.sockets[j].stage.n, v.loop.received);
      if !v.writerDone && r.Some? {
        ServerEffectsStages(s.sockets[j := s.sockets[j].(stage := Attached)], Attach(v.writer, j, r.value, fates).1);
      }
    }
  }

  /** On every run: the server goes on with a socket only if it was the first one, or its session was found. */
  lemma {:induction false} OnlyFoundAreServed(run: seq<Action>, i: SocketId)
    requires 0 < i < |Exec(run).sockets| && Served(Exec(run).sockets[i])
    ensures exists k :: 0 <= k < |run| && Finds(Exec(run[..k]), run[k], i)
  {
    hide Apply, Finds, Served;
    if run != [] {
      var before, a := run[..|run| - 1], run[|run| - 1];
      StepServes(Exec(before), a, i);
      assert forall k :: 0 <= k <= |before| ==> run[..k] == before[..k];
      assert before[..|before|] == before;
      if i < |Exec(before).sockets| && Served(Exec(before).sockets[i]) {
        OnlyFoundAreServed(before, i);
      } else {
        assert Finds(Exec(run[..|before|]), run[|before|], i);
      }
    }
  }
}
