/**
 * Signalling resume as a whole: one client, one server session (loop, readers and
 * writer) and the sockets between them, as a state machine.  A socket is a pair
 * of FIFOs, each of which may lose its undelivered suffix at any moment.  Sockets
 * that were given up may go on delivering, resume attempts may overlap, and an
 * old attempt may reach the server after a newer one.
 *
 * The theorem: what either side has processed is always a prefix of what the
 * other side sent, and nothing is missing once the current socket has drained.
 */
module ResumeProtocol {
  import opened Common
  import opened ReplayLog
  import opened ResumeClient
  import opened ResumeServer

  datatype Ready = Connecting | Open | Done

  /** How far the server has got with a socket; a resume request carries its count. */
  datatype Stage = Unheard | Accepted(n: nat) | Queued(n: nat) | Attached | Refused

  datatype Socket = Socket(
    up: seq<Frame>,    // in flight from client to server
    down: seq<Frame>,  // in flight from server to client
    ready: Ready,      // as the client sees it
    upCut: bool,       // some of what the client wrote is lost: nothing more arrives
    downCut: bool,
    stage: Stage
  )

  /** A reader goroutine: its connection, and the item it is waiting to hand to the loop. */
  datatype Reader = Reader(sock: SocketId, held: Option<Item>, stopped: bool)

  datatype Delivery = Delivery(gen: nat, item: Item)

  datatype Server = Server(
    started: bool,
    loop: Loop,
    readers: seq<Reader>,          // by generation
    chan: Option<Delivery>,        // the loop's one-slot channel
    actions: seq<SocketId>,        // resume requests waiting for the loop
    attaching: Option<SocketId>,   // the writer has this connection, its reader is not started yet
    writer: Writer,
    writerDone: bool,
    queue: seq<Frame>,             // what the writer has yet to take
    submitted: seq<string>         // every numbered message put in that queue
  )

  datatype State = State(client: Client, server: Server, sockets: seq<Socket>)

  /** A new socket. */
  function Fresh(stage: Stage): Socket {
    Socket([], [], Connecting, false, false, stage)
  }

  /** The first socket is the one the session starts on; it is never presented for resume. */
  function Init(): State {
    State(NewClient(),
          Server(false, Loop(0, 0, false, []), [Reader(0, None, false)], None, [], None,
                 Writer(Some(0), []), false, [], []),
          [Fresh(Attached)])
  }

  // Effects on sockets

  function ClientEffect(ss: seq<Socket>, e: Effect): seq<Socket> {
    match e
    case OpenSocket(id) => ss + [Fresh(Unheard)]
    case CloseSocket(id) => if id < |ss| then ss[id := ss[id].(ready := Done)] else ss
    case Transmit(id, f) =>
      if id < |ss| && ss[id].ready == Open && !ss[id].upCut
      then ss[id := ss[id].(up := ss[id].up + [f])] else ss
  }

  function ClientEffects(ss: seq<Socket>, es: seq<Effect>): seq<Socket>
    decreases |es|
  {
    if es == [] then ss else ClientEffects(ClientEffect(ss, es[0]), es[1..])
  }

  /** A close by the server is seen by the client as a loss and a close event, at any later time. */
  function ServerEffect(ss: seq<Socket>, e: Effect): seq<Socket> {
    match e
    case Transmit(id, f) =>
      if id < |ss| && !ss[id].downCut then ss[id := ss[id].(down := ss[id].down + [f])] else ss
    case _ => ss
  }

  function ServerEffects(ss: seq<Socket>, es: seq<Effect>): seq<Socket>
    decreases |es|
  {
    if es == [] then ss else ServerEffects(ServerEffect(ss, es[0]), es[1..])
  }

  // Steps

  datatype Action =
    // the client
    | ClientSend(text: string)
    | ClientLeave
    | ClientOpen(sock: SocketId)
    | ClientDeliver(sock: SocketId)
    | ClientClose(sock: SocketId, code: int)
    | ClientTick(silent: int)
    | ClientTimer(expired: bool)
    // the network
    | CutUp(sock: SocketId, keep: nat)
    | CutDown(sock: SocketId, keep: nat)
    // the server
    | AcceptNew(network: bool)
    | AcceptResume(sock: SocketId, found: bool, network: bool)
    | Post(sock: SocketId)
    | ServeResume(fates: seq<Fate>)
    | StartReader
    | ReadFrame(gen: nat)
    | ReadError(gen: nat, normal: bool)
    | HandOver(gen: nat)
    | LoopReceive(fatal: bool)
    | Submit(text: string)
    | WriterTake(fate: Fate)
    | WriterStop
    | SessionEnd

  predicate IsOpen(s: State, id: Option<SocketId>) {
    id.Some? && id.value < |s.sockets| && s.sockets[id.value].ready == Open
  }

  function WithClient(s: State, r: (Client, seq<Effect>)): State {
    s.(client := r.0, sockets := ClientEffects(s.sockets, r.1))
  }

  function WithReady(s: State, i: SocketId, r: Ready): State
    requires i < |s.sockets|
  {
    s.(sockets := s.sockets[i := s.sockets[i].(ready := r)])
  }

  const WRITE_CHANNEL := 100
  const MAX_COUNT := 0x20_0000_0000_0000  // 2^53, the largest count a resume may carry

  predicate Enabled(s: State, a: Action) {
    var v := s.server;
    match a
    case ClientSend(_) => true
    case ClientLeave => true
    case ClientOpen(i) => i < |s.sockets| && s.sockets[i].ready == Connecting
    // a socket fires message events only while open; one that was given up is not even held to that
    case ClientDeliver(i) =>
      i < |s.sockets| && s.sockets[i].down != [] && (s.client.current == Some(i) ==> s.sockets[i].ready == Open)
    case ClientClose(i, _) => i < |s.sockets|
    case ClientTick(_) => true
    case ClientTimer(_) => true
    case CutUp(i, k) => i < |s.sockets| && k <= |s.sockets[i].up|
    case CutDown(i, k) => i < |s.sockets| && k <= |s.sockets[i].down|
    case AcceptNew(_) => !v.started && |s.sockets| > 0 && s.sockets[0].up != [] && s.sockets[0].up[0] == Hello(None)
    case AcceptResume(i, found, _) =>
      && i < |s.sockets| && s.sockets[i].stage == Unheard && s.sockets[i].up != []
      && s.sockets[i].up[0].Hello? && s.sockets[i].up[0].resume.Some? && (found ==> v.started)
    case Post(i) => i < |s.sockets| && s.sockets[i].stage.Accepted?
    case ServeResume(fates) =>
      && v.started && !v.loop.ended && v.attaching.None? && v.actions != []
      && v.actions[0] < |s.sockets| && s.sockets[v.actions[0]].stage.Queued?
      && var r := Replay(v.writer, s.sockets[v.actions[0]].stage.n, v.loop.received);
         (r.Some? ==> |fates| == |r.value|)
    case StartReader => v.attaching.Some?
    case ReadFrame(g) =>
      && v.started && g < |v.readers| && v.readers[g].held.None? && !v.readers[g].stopped
      && v.readers[g].sock < |s.sockets| && s.sockets[v.readers[g].sock].up != []
    case ReadError(g, _) => v.started && g < |v.readers| && v.readers[g].held.None? && !v.readers[g].stopped
    case HandOver(g) => g < |v.readers| && v.readers[g].held.Some? && v.chan.None?
    case LoopReceive(_) => v.started && !v.loop.ended && v.attaching.None? && v.chan.Some?
    case Submit(_) => v.started && |v.queue| < WRITE_CHANNEL
    case WriterTake(_) => v.started && !v.writerDone && v.queue != []
    case WriterStop => v.started
    case SessionEnd => v.started
  }

  function Greeting(network: bool): seq<Frame> {
    [Handshake] + if network then [Network] else []
  }

  function DoAcceptNew(s: State, network: bool): State
    requires Enabled(s, AcceptNew(network))
  {
    s.(sockets := s.sockets[0 := s.sockets[0].(up := s.sockets[0].up[1..])],
       server := s.server.(started := true, queue := [Handshake, Session] + if network then [Network] else []))
  }

  /** resumeClient up to the point where it posts its request; the greeting is written directly. */
  function DoAcceptResume(s: State, i: SocketId, found: bool, network: bool): State
    requires Enabled(s, AcceptResume(i, found, network))
  {
    var k := s.sockets[i];
    var n := k.up[0].resume.value;
    var k' := if found && n <= MAX_COUNT
              then k.(up := k.up[1..], down := if k.downCut then k.down else k.down + Greeting(network),
                      stage := Accepted(n))
              else k.(up := k.up[1..], stage := Refused);
    s.(sockets := s.sockets[i := k'])
  }

  function DoPost(s: State, i: SocketId): State
    requires Enabled(s, Post(i))
  {
    s.(sockets := s.sockets[i := s.sockets[i].(stage := Queued(s.sockets[i].stage.n))],
       server := s.server.(actions := s.server.actions + [i]))
  }

  /** The loop takes a resume request and hands its connection to the writer. */
  function DoServeResume(s: State, fates: seq<Fate>): State
    requires Enabled(s, ServeResume(fates))
  {
    var v := s.server;
    var i := v.actions[0];
    var k := s.sockets[i];
    var r := Replay(v.writer, k.stage.n, v.loop.received);
    var v := v.(actions := v.actions[1..]);
    if v.writerDone || r.None? then
      s.(server := v.(loop := v.loop.(ended := true)), sockets := s.sockets[i := k.(stage := Refused)])
    else
      var (w, es) := Attach(v.writer, i, r.value, fates);
      s.(server := v.(writer := w, attaching := Some(i)),
         sockets := ServerEffects(s.sockets[i := k.(stage := Attached)], es))
  }

  function DoStartReader(s: State): State
    requires Enabled(s, StartReader)
  {
    var v := s.server;
    s.(server := v.(readers := v.readers + [Reader(v.attaching.value, None, false)], attaching := None,
                    loop := v.loop.(gen := v.loop.gen + 1)))
  }

  function DoReadFrame(s: State, g: nat): State
    requires Enabled(s, ReadFrame(g))
  {
    var r := s.server.readers[g];
    var k := s.sockets[r.sock];
    s.(sockets := s.sockets[r.sock := k.(up := k.up[1..])],
       server := s.server.(readers := s.server.readers[g := r.(held := Some(Got(k.up[0])))]))
  }

  function DoReadError(s: State, g: nat, normal: bool): State
    requires Enabled(s, ReadError(g, normal))
  {
    var r := s.server.readers[g];
    s.(server := s.server.(readers := s.server.readers[g := r.(held := Some(Broken(normal)), stopped := true)]))
  }

  function DoHandOver(s: State, g: nat): State
    requires Enabled(s, HandOver(g))
  {
    var r := s.server.readers[g];
    s.(server := s.server.(readers := s.server.readers[g := r.(held := None)],
                           chan := Some(Delivery(g, r.held.value))))
  }

  function DoLoopReceive(s: State, fatal: bool): State
    requires Enabled(s, LoopReceive(fatal))
  {
    var d := s.server.chan.value;
    s.(server := s.server.(chan := None, loop := OnRead(s.server.loop, d.gen, d.item, fatal)))
  }

  function DoWriterTake(s: State, fate: Fate): State
    requires Enabled(s, WriterTake(fate))
  {
    var v := s.server;
    var (w, es) := Take(v.writer, v.queue[0], fate);
    s.(server := v.(writer := w, queue := v.queue[1..]), sockets := ServerEffects(s.sockets, es))
  }

  function Popped(s: State, i: SocketId): State
    requires i < |s.sockets| && s.sockets[i].down != []
  {
    s.(sockets := s.sockets[i := s.sockets[i].(down := s.sockets[i].down[1..])])
  }

  /** The client's socket event loop delivers the next frame of a socket. */
  function DoClientDeliver(s: State, i: SocketId): State
    requires i < |s.sockets| && s.sockets[i].down != []
  {
    WithClient(Popped(s, i), OnMessage(s.client, i, s.sockets[i].down[0]))
  }

  function DoClientSend(s: State, text: string): State {
    WithClient(s, Send(s.client, IsOpen(s, s.client.socket), text))
  }

  function DoClientTick(s: State, silent: int): State {
    WithClient(s, OnTick(s.client, silent, IsOpen(s, s.client.socket)))
  }

  function DoClientOpen(s: State, i: SocketId): State
    requires i < |s.sockets|
  {
    WithClient(WithReady(s, i, Open), (s.client, OnOpen(s.client, i)))
  }

  function DoClientClose(s: State, i: SocketId, code: int): State
    requires i < |s.sockets|
  {
    WithClient(WithReady(s, i, Done), OnClose(s.client, i, code))
  }

  function DoCutUp(s: State, i: SocketId, keep: nat): State
    requires i < |s.sockets| && keep <= |s.sockets[i].up|
  {
    s.(sockets := s.sockets[i := s.sockets[i].(up := s.sockets[i].up[..keep], upCut := true)])
  }

  function DoCutDown(s: State, i: SocketId, keep: nat): State
    requires i < |s.sockets| && keep <= |s.sockets[i].down|
  {
    s.(sockets := s.sockets[i := s.sockets[i].(down := s.sockets[i].down[..keep], downCut := true)])
  }

  function Apply(s: State, a: Action): State {
    if !Enabled(s, a) then s else
    match a
    case ClientSend(text) => DoClientSend(s, text)
    case ClientLeave => WithClient(s, Leave(s.client))
    case ClientOpen(i) => DoClientOpen(s, i)
    case ClientDeliver(i) => DoClientDeliver(s, i)
    case ClientClose(i, code) => DoClientClose(s, i, code)
    case ClientTick(silent) => DoClientTick(s, silent)
    case ClientTimer(expired) => WithClient(s, OnTimer(s.client, expired))
    case CutUp(i, k) => DoCutUp(s, i, k)
    case CutDown(i, k) => DoCutDown(s, i, k)
    case AcceptNew(network) => DoAcceptNew(s, network)
    case AcceptResume(i, found, network) => DoAcceptResume(s, i, found, network)
    case Post(i) => DoPost(s, i)
    case ServeResume(fates) => DoServeResume(s, fates)
    case StartReader => DoStartReader(s)
    case ReadFrame(g) => DoReadFrame(s, g)
    case ReadError(g, normal) => DoReadError(s, g, normal)
    case HandOver(g) => DoHandOver(s, g)
    case LoopReceive(fatal) => DoLoopReceive(s, fatal)
    case Submit(text) =>
      s.(server := s.server.(queue := s.server.queue + [Numbered(text)], submitted := s.server.submitted + [text]))
    case WriterTake(fate) => DoWriterTake(s, fate)
    case WriterStop => s.(server := s.server.(writerDone := true, writer := s.server.writer.(conn := None)))
    case SessionEnd => s.(server := s.server.(loop := s.server.loop.(ended := true)))
  }

  /** The state after a run: any sequence of actions, those not enabled being skipped. */
  function Exec(run: seq<Action>): State {
    if run == [] then Init() else Apply(Exec(run[..|run| - 1]), run[|run| - 1])
  }
}
