/**
 * The server's half of signalling resume: the session's writer and its loop
 * (clientWriter, clientLoop and resumeSession in rtpconn/webclient.go).
 * As on the client's side, each event is a function on values and the classes
 * at the end are the goroutines' own state, proved against the functions.
 */
module ResumeServer {
  import opened Common
  import opened ReplayLog
  import opened ResumeClient

  /** The set of types the server does not number. */
  predicate CountedType(kind: string) {
    !(kind == "handshake" || kind == "sozvon-session" ||
      kind == "sozvon-resumed" || kind == "sozvon-network")
  }

  /** How one write to a connection ends.  A write that fails may still get through. */
  datatype Fate = Written | Failed(delivered: bool)

  /** The writer: its connection, and every numbered message it ever put in its ring. */
  datatype Writer = Writer(conn: Option<SocketId>, sent: seq<string>)

  function SendOn(w: Writer, f: Frame, fate: Fate): (Writer, seq<Effect>) {
    if w.conn.None? then
      (w, [])
    else
      var s := w.conn.value;
      match fate
      case Written => (w, [Transmit(s, f)])
      case Failed(delivered) =>
        (w.(conn := None), (if delivered then [Transmit(s, f)] else []) + [CloseSocket(s)])
  }

  function SendAll(w: Writer, frames: seq<Frame>, fates: seq<Fate>): (Writer, seq<Effect>)
    requires |fates| == |frames|
    decreases |frames|
  {
    if frames == [] then
      (w, [])
    else
      var (w1, e1) := SendOn(w, frames[0], fates[0]);
      var (w2, e2) := SendAll(w1, frames[1..], fates[1..]);
      (w2, e1 + e2)
  }

  /** The writer takes a frame from its queue. */
  function Take(w: Writer, f: Frame, fate: Fate): (Writer, seq<Effect>) {
    SendOn(if f.Numbered? then w.(sent := w.sent + [f.text]) else w, f, fate)
  }

  function AsFrames(texts: seq<string>): (fs: seq<Frame>)
    ensures |fs| == |texts|
    ensures forall i :: 0 <= i < |texts| ==> fs[i] == Numbered(texts[i])
  {
    seq(|texts|, i requires 0 <= i < |texts| => Numbered(texts[i]))
  }

  /** What a connection is greeted with when the session carries on over it. */
  function Replay(w: Writer, received: nat, ack: nat): (frames: Option<seq<Frame>>) {
    match AfterFirst(w.sent, received)
    case None => None
    case Some(msgs) => Some([Resumed(ack)] + AsFrames(msgs))
  }

  /** The writer serves an attach request; the old connection, if any, is closed first. */
  function Attach(w: Writer, s: SocketId, frames: seq<Frame>, fates: seq<Fate>): (Writer, seq<Effect>)
    requires |fates| == |frames|
  {
    var (w', es) := SendAll(w.(conn := Some(s)), frames, fates);
    (w', (if w.conn.Some? then [CloseSocket(w.conn.value)] else []) + es)
  }

  /** What a reader delivers: a frame, or the error that ends it. */
  datatype Item = Got(frame: Frame) | Broken(normal: bool)

  /** The loop's own variables; `processed` is the history of numbered messages handled. */
  datatype Loop = Loop(gen: nat, received: nat, ended: bool, processed: seq<string>)

  /** The loop receives from a reader; fatal says that handling the message ends the session. */
  function OnRead(l: Loop, gen: nat, item: Item, fatal: bool): Loop {
    if gen != l.gen then
      l
    else
      match item
      case Broken(normal) => l.(ended := l.ended || normal)
      case Got(f) =>
        var l := if CountedType(TypeOf(f)) then l.(received := l.received + 1) else l;
        var l := if f.Numbered? then l.(processed := l.processed + [f.text]) else l;
        l.(ended := l.ended || fatal)
  }

  lemma NumberedCounts(f: Frame)
    ensures CountedType(TypeOf(f)) <==> f.Numbered?
  {
  }

  /** The writer goroutine of a resumable session. */
  class ClientWriter {
    var conn: Option<SocketId>
    const ring: ReplayRing

    ghost predicate Valid()
      reads this, ring
    {
      ring.Valid()
    }

    ghost function View(): Writer
      reads this, ring
    {
      Writer(conn, ring.history)
    }

    constructor (s: SocketId)
      ensures Valid() && View() == Writer(Some(s), []) && fresh(ring)
    {
      conn := Some(s);
      ring := new ReplayRing();
    }

    method WriteFrame(f: Frame, fate: Fate) returns (effects: seq<Effect>)
      requires Valid()
      modifies this
      ensures Valid() && (View(), effects) == SendOn(old(View()), f, fate)
    {
      effects := [];
      if conn.None? {
        return;
      }
      var s := conn.value;
      if fate.Written? || fate.delivered {
        effects := [Transmit(s, f)];
      }
      if fate.Failed? {
        effects := effects + [CloseSocket(s)];
        conn := None;
      }
    }

    method WriteFrames(frames: seq<Frame>, fates: seq<Fate>) returns (effects: seq<Effect>)
      requires Valid() && |fates| == |frames|
      modifies this
      ensures Valid()
      ensures View() == SendAll(old(View()), frames, fates).0
      ensures effects == SendAll(old(View()), frames, fates).1
    {
      ghost var whole := SendAll(View(), frames, fates);
      effects := [];
      assert frames[0..] == frames && fates[0..] == fates && effects + whole.1 == whole.1;
      for i := 0 to |frames|
        invariant Valid()
        invariant whole.0 == SendAll(View(), frames[i..], fates[i..]).0
        invariant whole.1 == effects + SendAll(View(), frames[i..], fates[i..]).1
      {
        assert frames[i..][1..] == frames[i + 1..] && fates[i..][1..] == fates[i + 1..];
        ghost var before := effects;
        var e := WriteFrame(frames[i], fates[i]);
        effects := effects + e;
        ghost var rest := SendAll(View(), frames[i + 1..], fates[i + 1..]).1;
        assert before + (e + rest) == effects + rest;
      }
      assert SendAll(View(), frames[|frames|..], fates[|frames|..]) == (View(), []);
    }

    method TakeFrame(f: Frame, fate: Fate) returns (effects: seq<Effect>)
      requires Valid()
      modifies this, ring
      ensures Valid() && (View(), effects) == Take(old(View()), f, fate)
    {
      hide SendOn, CountedType, TypeOf;
      NumberedCounts(f);
      if CountedType(TypeOf(f)) {
        var _ := ring.Push(f.text);
      }
      effects := WriteFrame(f, fate);
    }

    /** Serves an attach request; handed tells whether the connection was replayed to. */
    method Serve(s: SocketId, received: nat, ack: nat, fates: seq<Fate>)
      returns (effects: seq<Effect>, handed: bool)
      requires Valid()
      requires Replay(View(), received, ack).Some? ==> |fates| == |Replay(View(), received, ack).value|
      modifies this
      ensures Valid() && ring.history == old(ring.history)
      ensures handed <==> Replay(old(View()), received, ack).Some?
      ensures handed ==>
                && View() == Attach(old(View()), s, Replay(old(View()), received, ack).value, fates).0
                && effects == Attach(old(View()), s, Replay(old(View()), received, ack).value, fates).1
      ensures !handed ==> View() == old(View()) && effects == [CloseSocket(s)]
    {
      var msgs := ring.After(received);
      if msgs.None? {
        return [CloseSocket(s)], false;
      }
      var closing := if conn.Some? then [CloseSocket(conn.value)] else [];
      conn := Some(s);
      effects := WriteFrames([Resumed(ack)] + AsFrames(msgs.value), fates);
      effects := closing + effects;
      handed := true;
    }
  }

  /** The session's own goroutine. */
  class ClientLoop {
    var gen: nat
    var received: nat
    var ended: bool
    ghost var processed: seq<string>

    ghost function View(): Loop
      reads this
    {
      Loop(gen, received, ended, processed)
    }

    constructor ()
      ensures View() == Loop(0, 0, false, [])
    {
      gen, received, ended, processed := 0, 0, false, [];
    }

    method HandleRead(g: nat, item: Item, fatal: bool)
      modifies this
      ensures View() == OnRead(old(View()), g, item, fatal)
    {
      if g != gen {
        return;
      }
      match item {
        case Broken(normal) =>
          ended := ended || normal;
        case Got(f) =>
          NumberedCounts(f);
          if CountedType(TypeOf(f)) {
            received := received + 1;
            processed := processed + [f.text];
          }
          ended := ended || fatal;
      }
    }
  }
}
