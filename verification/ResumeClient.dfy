/**
 * The client's half of signalling resume: the event handlers of
 * ServerConnection in static/protocol.js, with the decisions of
 * static/signalling-resume.js.  Each handler is a function from the connection's
 * fields to its new fields and the effects on sockets, in the order they happen;
 * the class at the end is the connection object itself, proved against them.
 */
module ResumeClient {
  import opened Common
  import opened ReplayLog

  type SocketId = nat

  /** What travels on a websocket.  Only Numbered messages are counted and replayed. */
  datatype Frame =
    | Hello(resume: Option<nat>)  // the client's handshake; a resuming one carries its count
    | Handshake                   // the server's answer
    | Session                     // the secret that makes the session resumable
    | Network                     // the tag of the client's network
    | Resumed(ack: nat)           // how many of the client's messages the server has
    | Numbered(text: string)

  function TypeOf(f: Frame): string {
    match f
    case Hello(_) => "handshake"
    case Handshake => "handshake"
    case Session => "sozvon-session"
    case Network => "sozvon-network"
    case Resumed(_) => "sozvon-resumed"
    case Numbered(_) => "application message"
  }

  /** The set of types the client does not number. */
  predicate Counted(kind: string) {
    kind != "handshake" && kind != "sozvon-session" &&
    kind != "sozvon-resumed" && kind != "sozvon-network"
  }

  const PING_AFTER: int := 8000
  const STALL_AFTER: int := 20000
  const CLOSE_NO_RESUME: int := 4001

  datatype CloseVerdict = End | Carry
  datatype TickVerdict = Fine | Ping | Stalled

  function OnCloseVerdict(code: int, resumable: bool, leaving: bool): CloseVerdict {
    if leaving || !resumable then End
    else if code == 1000 || code == CLOSE_NO_RESUME then End
    else Carry
  }

  function OnTickVerdict(silent: int): TickVerdict {
    if silent > STALL_AFTER then Stalled else if silent >= PING_AFTER then Ping else Fine
  }

  datatype Effect =
    | OpenSocket(id: SocketId)
    | CloseSocket(id: SocketId)
    | Transmit(id: SocketId, frame: Frame)

  /**
   * The fields of a connection.  `sent` and `processed` are histories: every numbered
   * message ever pushed to the sent log, and every numbered message acted upon.
   */
  datatype Client = Client(
    current: Option<SocketId>,  // the socket whose events are acted on
    socket: Option<SocketId>,   // the socket to send on; none once close() was called
    closed: bool,
    resuming: bool,
    leaving: bool,
    version: bool,              // the server's handshake was seen
    secret: bool,               // the session can be resumed
    received: nat,
    nextSocket: SocketId,       // the name the next websocket gets
    sent: seq<string>,
    processed: seq<string>
  )

  function NewClient(): Client {
    Client(Some(0), Some(0), false, false, false, false, false, 0, 1, [], [])
  }

  function Gone(c: Client): Client {
    if c.closed then c else c.(closed := true, resuming := false, secret := false)
  }

  /** close(): the socket, if any, is closed for good. */
  function Leave(c: Client): (Client, seq<Effect>) {
    (c.(leaving := true, socket := None),
     if c.socket.Some? then [CloseSocket(c.socket.value)] else [])
  }

  /** send() of a numbered message; open says whether the socket is in state OPEN. */
  function Send(c: Client, open: bool, text: string): (Client, seq<Effect>) {
    if c.socket.None? || (!open && !c.secret) then
      (c, [])  // 'Connection is not open' is thrown
    else
      (c.(sent := c.sent + [text]),
       if c.resuming || !open then [] else [Transmit(c.socket.value, Numbered(text))])
  }

  function CloseCurrent(c: Client): seq<Effect> {
    if c.current.Some? then [CloseSocket(c.current.value)] else []
  }

  /** resume(): give up if it took too long, else replace the socket by a new one. */
  function Resume(c: Client, expired: bool): (Client, seq<Effect>) {
    if c.closed then
      (c, [])
    else if c.resuming && expired then
      (Gone(c.(current := None)), CloseCurrent(c))
    else
      (c.(resuming := true, current := Some(c.nextSocket), socket := Some(c.nextSocket),
          nextSocket := c.nextSocket + 1),
       CloseCurrent(c) + [OpenSocket(c.nextSocket)])
  }

  function OnOpen(c: Client, s: SocketId): seq<Effect> {
    if c.closed || c.current != Some(s) then []
    else [Transmit(s, Hello(if c.resuming then Some(c.received) else None))]
  }

  function OnClose(c: Client, s: SocketId, code: int): (Client, seq<Effect>) {
    if c.current != Some(s) then
      (c, [])
    else if c.resuming && !c.leaving && code != CLOSE_NO_RESUME then
      (c, [])  // retry(): a timer calls resume() again
    else if !c.resuming && OnCloseVerdict(code, c.secret, c.leaving) == Carry then
      Resume(c, false)
    else
      (Gone(c), [])
  }

  function TransmitAll(s: SocketId, texts: seq<string>): (es: seq<Effect>)
    ensures |es| == |texts|
    ensures forall i :: 0 <= i < |texts| ==> es[i] == Transmit(s, Numbered(texts[i]))
  {
    seq(|texts|, i requires 0 <= i < |texts| => Transmit(s, Numbered(texts[i])))
  }

  /** 'sozvon-resumed': send what the server has not received, or end if it is no longer kept. */
  function OnResumed(c: Client, s: SocketId, ack: nat): (Client, seq<Effect>) {
    if !c.resuming then
      (c, [])
    else
      match AfterFirst(c.sent, ack)
      case None => (Gone(c.(current := None)), [CloseSocket(s)])
      case Some(rest) => (c.(resuming := false), TransmitAll(s, rest))
  }

  function OnMessage(c: Client, s: SocketId, f: Frame): (Client, seq<Effect>) {
    if c.closed || c.current != Some(s) then
      (c, [])
    else if !c.version && TypeOf(f) != "handshake" then
      Leave(c)
    else
      var c := if Counted(TypeOf(f)) then c.(received := c.received + 1) else c;
      match f
      case Hello(_) => (c.(version := true), [])
      case Handshake => (c.(version := true), [])
      case Session => (c.(secret := true), [])
      case Network => (c, [])
      case Numbered(text) => (c.(processed := c.processed + [text]), [])
      case Resumed(ack) => OnResumed(c, s, ack)
  }

  function OnTick(c: Client, silent: int, open: bool): (Client, seq<Effect>) {
    if c.closed || c.resuming || !c.secret then
      (c, [])
    else
      match OnTickVerdict(silent)
      case Stalled => Resume(c, false)
      case Ping => Send(c, open, "ping")
      case Fine => (c, [])
  }

  /** The timers armed by resume() and retry(); both are cleared when resuming ends. */
  function OnTimer(c: Client, expired: bool): (Client, seq<Effect>) {
    if c.resuming then Resume(c, expired) else (c, [])
  }

  /** The connection object.  Every handler leaves it in the state its function describes. */
  class ServerConnection {
    var current: Option<SocketId>
    var socket: Option<SocketId>
    var closed: bool
    var resuming: bool
    var leaving: bool
    var version: bool
    var secret: bool
    var received: nat
    var nextSocket: SocketId
    const sentLog: SentLog
    ghost var processed: seq<string>

    ghost predicate Valid()
      reads this, sentLog
    {
      sentLog.Valid()
    }

    ghost function View(): Client
      reads this, sentLog
    {
      Client(current, socket, closed, resuming, leaving, version, secret, received,
             nextSocket, sentLog.history, processed)
    }

    constructor ()
      ensures Valid() && View() == NewClient() && fresh(sentLog)
    {
      current, socket, nextSocket := Some(0), Some(0), 1;
      closed, resuming, leaving, version, secret := false, false, false, false, false;
      received, processed := 0, [];
      sentLog := new SentLog();
    }

    method SendMessage(open: bool, text: string) returns (effects: seq<Effect>)
      requires Valid()
      modifies this, sentLog
      ensures Valid() && (View(), effects) == Send(old(View()), open, text)
    {
      effects := [];
      if socket.Some? && (open || secret) {
        sentLog.Push(text);
        if !resuming && open {
          effects := [Transmit(socket.value, Numbered(text))];
        }
      }
    }

    method Close() returns (effects: seq<Effect>)
      requires Valid()
      modifies this
      ensures Valid() && (View(), effects) == Leave(old(View()))
    {
      effects := if socket.Some? then [CloseSocket(socket.value)] else [];
      leaving, socket := true, None;
    }

    method TearDown()
      requires Valid()
      modifies this
      ensures Valid() && View() == Gone(old(View()))
    {
      if !closed {
        closed, resuming, secret := true, false, false;
      }
    }

    method StartResume(expired: bool) returns (effects: seq<Effect>)
      requires Valid()
      modifies this
      ensures Valid() && (View(), effects) == Resume(old(View()), expired)
    {
      if closed {
        return [];
      }
      effects := if current.Some? then [CloseSocket(current.value)] else [];
      if resuming && expired {
        current := None;
        TearDown();
        return;
      }
      resuming := true;
      current, socket := Some(nextSocket), Some(nextSocket);
      effects := effects + [OpenSocket(nextSocket)];
      nextSocket := nextSocket + 1;
    }

    method HandleClose(s: SocketId, code: int) returns (effects: seq<Effect>)
      requires Valid()
      modifies this
      ensures Valid() && (View(), effects) == OnClose(old(View()), s, code)
    {
      effects := [];
      if current != Some(s) {
        return;
      }
      if resuming && !leaving && code != CLOSE_NO_RESUME {
        return;
      }
      if !resuming && OnCloseVerdict(code, secret, leaving) == Carry {
        effects := StartResume(false);
        return;
      }
      TearDown();
    }

    method HandleResumed(s: SocketId, ack: nat) returns (effects: seq<Effect>)
      requires Valid()
      modifies this
      ensures Valid() && (View(), effects) == OnResumed(old(View()), s, ack)
    {
      if !resuming {
        return [];
      }
      var rest := sentLog.After(Integer(ack));
      if rest.None? {
        current := None;
        TearDown();
        return [CloseSocket(s)];
      }
      resuming := false;
      effects := TransmitAll(s, rest.value);
    }

    method HandleMessage(s: SocketId, f: Frame) returns (effects: seq<Effect>)
      requires Valid()
      modifies this
      ensures Valid() && (View(), effects) == OnMessage(old(View()), s, f)
    {
      effects := [];
      if closed || current != Some(s) {
        return;
      }
      if TypeOf(f) != "handshake" && !version {
        effects := Close();
        return;
      }
      if Counted(TypeOf(f)) {
        received := received + 1;
      }
      match f {
        case Hello(_) => version := true;
        case Handshake => version := true;
        case Session => secret := true;
        case Network =>
        case Numbered(text) => processed := processed + [text];
        case Resumed(ack) => effects := HandleResumed(s, ack);
      }
    }
  }
}
