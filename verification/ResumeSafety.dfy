/** Exactly-once, in-order delivery over every run of the resume protocol. */
module ResumeSafety {
  import opened Common
  import opened ReplayLog
  import opened ResumeClient
  import opened ResumeServer
  import opened ResumeProtocol

  // Numbered messages in flight

  function Texts(fs: seq<Frame>): seq<string> {
    if fs == [] then []
    else (if fs[0].Numbered? then [fs[0].text] else []) + Texts(fs[1..])
  }

  lemma {:induction false} TextsAppend(a: seq<Frame>, b: seq<Frame>)
    ensures Texts(a + b) == Texts(a) + Texts(b)
  {
    if a == [] {
      assert a + b == b;
    } else {
      assert (a + b)[1..] == a[1..] + b;
      TextsAppend(a[1..], b);
    }
  }

  lemma TextsPrefix(fs: seq<Frame>, k: nat)
    requires k <= |fs|
    ensures Texts(fs[..k]) <= Texts(fs)
  {
    assert fs == fs[..k] + fs[k..];
    TextsAppend(fs[..k], fs[k..]);
  }

  lemma {:induction false} TextsAsFrames(texts: seq<string>)
    ensures Texts(AsFrames(texts)) == texts
  {
    if texts != [] {
      assert AsFrames(texts)[1..] == AsFrames(texts[1..]);
      TextsAsFrames(texts[1..]);
    }
  }

  lemma TextsOne(f: Frame)
    ensures Texts([f]) == if f.Numbered? then [f.text] else []
  {
    assert [f][1..] == [];
  }

  // Effects, summed up

  lemma ClientEffectsFew(ss: seq<Socket>, e: Effect, e': Effect)
    ensures ClientEffects(ss, []) == ss
    ensures ClientEffects(ss, [e]) == ClientEffect(ss, e)
    ensures ClientEffects(ss, [e] + [e']) == ClientEffect(ClientEffect(ss, e), e')
  {
    assert [e][1..] == [] && [e'][1..] == [];
    assert ([e] + [e'])[1..] == [e'];
    assert ClientEffects(ClientEffect(ss, e), [e']) == ClientEffect(ClientEffect(ss, e), e');
  }

  lemma {:induction false} ClientEffectsTransmitAll(ss: seq<Socket>, i: SocketId, texts: seq<string>)
    requires i < |ss| && ss[i].ready == Open
    ensures ClientEffects(ss, TransmitAll(i, texts)) ==
            if ss[i].upCut then ss else ss[i := ss[i].(up := ss[i].up + AsFrames(texts))]
    decreases |texts|
  {
    if texts == [] {
      assert ss[i].up + AsFrames(texts) == ss[i].up;
    } else {
      var es := TransmitAll(i, texts);
      assert es[1..] == TransmitAll(i, texts[1..]);
      var ss' := ClientEffect(ss, es[0]);
      ClientEffectsTransmitAll(ss', i, texts[1..]);
      if !ss[i].upCut {
        assert ss[i].up + [Numbered(texts[0])] + AsFrames(texts[1..]) == ss[i].up + AsFrames(texts);
      }
    }
  }

  /** Frames that reach socket i, unless they are lost. */
  function Arrive(ss: seq<Socket>, i: SocketId, fs: seq<Frame>): seq<Socket>
    requires i < |ss|
  {
    if ss[i].downCut then ss else ss[i := ss[i].(down := ss[i].down + fs)]
  }

  lemma ArriveArrive(ss: seq<Socket>, i: SocketId, a: seq<Frame>, b: seq<Frame>)
    requires i < |ss|
    ensures Arrive(Arrive(ss, i, a), i, b) == Arrive(ss, i, a + b)
    ensures Arrive(ss, i, []) == ss
  {
    assert ss[i].down + a + b == ss[i].down + (a + b);
    assert ss[i].down + [] == ss[i].down;
  }

  lemma {:induction false} ServerEffectsAppend(ss: seq<Socket>, a: seq<Effect>, b: seq<Effect>)
    ensures ServerEffects(ss, a + b) == ServerEffects(ServerEffects(ss, a), b)
    decreases |a|
  {
    if a == [] {
      assert a + b == b;
    } else {
      assert (a + b)[1..] == a[1..] + b;
      ServerEffectsAppend(ServerEffect(ss, a[0]), a[1..], b);
    }
  }

  lemma ServerEffectsOne(ss: seq<Socket>, e: Effect)
    ensures ServerEffects(ss, [e]) == ServerEffect(ss, e)
    ensures ServerEffects(ss, []) == ss
  {
    assert [e][1..] == [];
  }

  lemma SendOnEffects(ss: seq<Socket>, w: Writer, f: Frame, fate: Fate)
    requires w.conn.Some? ==> w.conn.value < |ss|
    ensures ServerEffects(ss, SendOn(w, f, fate).1) ==
            if w.conn.None? then ss
            else Arrive(ss, w.conn.value, if fate.Written? || fate.delivered then [f] else [])
  {
    if w.conn.Some? {
      var i := w.conn.value;
      ServerEffectsOne(ss, Transmit(i, f));
      ServerEffectsOne(ss, CloseSocket(i));
      ServerEffectsOne(ServerEffect(ss, Transmit(i, f)), CloseSocket(i));
      ServerEffectsAppend(ss, [Transmit(i, f)], [CloseSocket(i)]);
      ArriveArrive(ss, i, [], []);
      assert [] + [CloseSocket(i)] == [CloseSocket(i)];
    }
  }

  lemma {:induction false} SendAllUnattached(w: Writer, frames: seq<Frame>, fates: seq<Fate>)
    requires |fates| == |frames| && w.conn.None?
    ensures SendAll(w, frames, fates).0 == w && SendAll(w, frames, fates).1 == []
    decreases |frames|
  {
    if frames != [] {
      SendAllUnattached(w, frames[1..], fates[1..]);
    }
  }

  /** A writer sends a prefix of what it is given, and all of it if its connection is still up. */
  lemma {:induction false} ServerEffectsSendAll(ss: seq<Socket>, w: Writer, frames: seq<Frame>, fates: seq<Fate>)
    returns (k: nat)
    requires |fates| == |frames|
    requires w.conn.Some? && w.conn.value < |ss|
    ensures k <= |frames|
    ensures SendAll(w, frames, fates).0.sent == w.sent
    ensures SendAll(w, frames, fates).0.conn.Some? ==> SendAll(w, frames, fates).0.conn == w.conn && k == |frames|
    ensures ServerEffects(ss, SendAll(w, frames, fates).1) == Arrive(ss, w.conn.value, frames[..k])
    decreases |frames|
  {
    var i := w.conn.value;
    if frames == [] {
      k := 0;
      ArriveArrive(ss, i, [], []);
    } else {
      var (w1, e1) := SendOn(w, frames[0], fates[0]);
      var e2 := SendAll(w1, frames[1..], fates[1..]).1;
      ServerEffectsAppend(ss, e1, e2);
      SendOnEffects(ss, w, frames[0], fates[0]);
      if w1.conn.None? {
        SendAllUnattached(w1, frames[1..], fates[1..]);
        k := if fates[0].delivered then 1 else 0;
        assert frames[..k] == if fates[0].delivered then [frames[0]] else [];
      } else {
        var k1 := ServerEffectsSendAll(ServerEffects(ss, e1), w1, frames[1..], fates[1..]);
        k := k1 + 1;
        assert frames[..k] == [frames[0]] + frames[1..][..k1];
        ArriveArrive(ss, i, [frames[0]], frames[1..][..k1]);
      }
    }
  }

  // The invariant

  /** The client takes part in the session over its current socket: it sends on it as it goes. */
  predicate Live(c: Client) { !c.closed && !c.resuming }

  function ItemTexts(o: Option<Item>): seq<string> {
    if o.Some? && o.value.Got? && o.value.frame.Numbered? then [o.value.frame.text] else []
  }

  /** The socket that the server reads, or is about to read, as the session's. */
  function ReadingSock(v: Server): SocketId
    requires v.readers != []
  {
    if v.attaching.Some? then v.attaching.value else v.readers[|v.readers| - 1].sock
  }

  /** What that socket's reader has taken from it and the loop has not yet processed. */
  function InPipe(v: Server): seq<string>
    requires v.readers != []
  {
    if v.attaching.Some? then [] else
    (if v.chan.Some? && v.chan.value.gen == |v.readers| - 1 then ItemTexts(Some(v.chan.value.item)) else []) +
    ItemTexts(v.readers[|v.readers| - 1].held)
  }

  /** Where the server's references to sockets point. */
  ghost predicate ServerShape(v: Server, ss: seq<Socket>) {
    && v.readers != [] && v.loop.gen == |v.readers| - 1
    && (v.chan.Some? ==> v.chan.value.gen < |v.readers|)
    && (v.attaching.Some? ==> v.attaching.value < |ss| && ss[v.attaching.value].stage == Attached)
    && (v.writer.conn.Some? ==> v.writer.conn.value < |ss| && ss[v.writer.conn.value].stage == Attached)
    && (forall g :: 0 <= g < |v.readers| ==>
          && v.readers[g].sock < |ss| && ss[v.readers[g].sock].stage == Attached
          && v.attaching != Some(v.readers[g].sock))
    && (forall g, h :: 0 <= g < h < |v.readers| ==> v.readers[g].sock != v.readers[h].sock)
    && (forall j :: 0 <= j < |v.actions| ==> v.actions[j] < |ss| && ss[v.actions[j]].stage.Queued?)
    && (forall j, k :: 0 <= j < k < |v.actions| ==> v.actions[j] != v.actions[k])
  }

  ghost predicate ClientShape(c: Client, ss: seq<Socket>) {
    && c.nextSocket == |ss|
    && (c.socket.Some? ==> c.socket.value < |ss|)
    && (c.current.None? ==> c.closed)
    && (c.current.Some? ==> c.current.value < |ss| && (if c.socket.Some? then c.socket == c.current else ss[c.current.value].ready == Done))
    && (c.closed ==> !c.secret && !c.resuming && (c.socket.Some? ==> ss[c.socket.value].ready == Done))
    && (c.current.Some? && Live(c) && ss[c.current.value].ready == Connecting ==> !c.secret)
  }

  function Incoming(v: Server, ss: seq<Socket>): seq<string>
    requires v.readers != [] && ReadingSock(v) < |ss|
  {
    InPipe(v) + Texts(ss[ReadingSock(v)].up)
  }

  predicate NoResumed(fs: seq<Frame>) { forall j :: 0 <= j < |fs| ==> !fs[j].Resumed? }

  /** A request for resume carries the client's count, as long as the client waits for its answer. */
  ghost predicate RequestOK(c: Client, k: Socket, current: bool) {
    && (k.stage != Attached ==> Texts(k.up) == [] && Texts(k.down) == [] && NoResumed(k.down))
    && (forall j, l :: 0 <= j < l < |k.down| ==> !(k.down[j].Resumed? && k.down[l].Resumed?))
    && (current ==>
          && (k.stage == Unheard ==>
                forall j :: 0 <= j < |k.up| && k.up[j].Hello? && k.up[j].resume.Some? ==> k.up[j].resume.value == c.received)
          && (k.stage.Accepted? || k.stage.Queued? ==> k.stage.n == c.received)
          && (Live(c) ==> k.stage == Attached && NoResumed(k.down)))
  }

  /** An acknowledgement in flight on the session's socket is exact, and nothing was read since. */
  ghost predicate AckOK(down: seq<Frame>, processed: nat, incoming: seq<string>) {
    forall j :: 0 <= j < |down| && down[j].Resumed? ==> down[j].ack == processed && incoming == []
  }

  /** From client to server: what was processed and what is on its way is a prefix of what was sent. */
  ghost predicate UpOK(c: Client, l: Loop, k: Socket, incoming: seq<string>, current: bool) {
    && l.received == |l.processed|
    && l.processed + incoming <= c.sent
    && AckOK(k.down, |l.processed|, incoming)
    && (current && Live(c) && k.ready != Done && !k.upCut ==> l.processed + incoming == c.sent)
  }

  /** From server to client, likewise. */
  ghost predicate DownOK(c: Client, v: Server, ss: seq<Socket>) {
    && c.received == |c.processed|
    && c.processed <= v.writer.sent
    && v.writer.sent + Texts(v.queue) == v.submitted
    && (!v.started ==> v.queue == []) && NoResumed(v.queue)
    && (c.current.Some? && c.current.value < |ss| && !c.closed && ss[c.current.value].ready != Done ==>
          var k := ss[c.current.value];
          && c.processed + Texts(k.down) <= v.writer.sent
          && (v.writer.conn == c.current && !k.downCut ==> c.processed + Texts(k.down) == v.writer.sent))
  }

  ghost predicate UpInv(c: Client, v: Server, ss: seq<Socket>) {
    && v.readers != [] && ReadingSock(v) < |ss|
    && UpOK(c, v.loop, ss[ReadingSock(v)], Incoming(v, ss), c.current == Some(ReadingSock(v)))
  }

  ghost predicate Requests(c: Client, ss: seq<Socket>) {
    forall i :: 0 <= i < |ss| ==> RequestOK(c, ss[i], c.current == Some(i))
  }

  ghost predicate Inv(s: State) {
    && ServerShape(s.server, s.sockets)
    && ClientShape(s.client, s.sockets)
    && UpInv(s.client, s.server, s.sockets)
    && DownOK(s.client, s.server, s.sockets)
    && Requests(s.client, s.sockets)
  }

  lemma InitInv()
    ensures Inv(Init())
  {
    hide ServerShape, ClientShape, UpInv, DownOK, Requests;
    InitShapes();
    InitUp();
    InitDown();
  }

  lemma InitShapes()
    ensures ServerShape(Init().server, Init().sockets) && ClientShape(Init().client, Init().sockets)
  {
  }

  lemma InitUp()
    ensures UpInv(Init().client, Init().server, Init().sockets)
  {
  }

  lemma InitDown()
    ensures DownOK(Init().client, Init().server, Init().sockets) && Requests(Init().client, Init().sockets)
  {
  }

  // Two sweeping changes: what the server's references point to, and one socket's bookkeeping

  lemma ServerShapeKeeps(v: Server, ss: seq<Socket>, ss': seq<Socket>)
    requires ServerShape(v, ss)
    requires |ss| <= |ss'| && forall i :: 0 <= i < |ss| ==> ss'[i].stage == ss[i].stage
    ensures ServerShape(v, ss')
  {
  }

  lemma RequestsKeep(c: Client, c': Client, ss: seq<Socket>, i: SocketId, k: Socket)
    requires Requests(c, ss) && i < |ss|
    requires forall j :: 0 <= j < |ss| && j != i && c'.current == Some(j) ==>
                           c.current == Some(j) && c'.received == c.received && (Live(c') ==> Live(c))
    requires RequestOK(c', k, c'.current == Some(i))
    ensures Requests(c', ss[i := k])
  {
    forall j | 0 <= j < |ss| ensures RequestOK(c', ss[i := k][j], c'.current == Some(j)) {
      if j != i {
        assert RequestOK(c, ss[j], c.current == Some(j));
      }
    }
  }

  /** A step of the client alone: its fields change, and what it wrote to its socket i. */
  lemma ClientStepKeeps(s: State, c': Client, i: SocketId, up: seq<Frame>, ready: Ready)
    requires Inv(s) && i < |s.sockets|
    requires c'.received == s.client.received && c'.processed == s.client.processed
    requires c'.current == s.client.current || c'.current.None?
    requires ready == s.sockets[i].ready || s.sockets[i].ready == Connecting || ready == Done
    requires s.client.closed ==> c'.closed
    requires ClientShape(c', s.sockets[i := s.sockets[i].(up := up, ready := ready)])
    requires c'.current.Some? && Live(c') ==> Live(s.client)
    requires RequestOK(c', s.sockets[i].(up := up, ready := ready), c'.current == Some(i))
    requires UpInv(c', s.server, s.sockets[i := s.sockets[i].(up := up, ready := ready)])
    ensures Inv(State(c', s.server, s.sockets[i := s.sockets[i].(up := up, ready := ready)]))
  {
    var k := s.sockets[i].(up := up, ready := ready);
    ServerShapeKeeps(s.server, s.sockets, s.sockets[i := k]);
    RequestsKeep(s.client, c', s.sockets, i, k);
  }

  /** Nothing new reaches the socket the server reads. */
  lemma UpInvIdle(c: Client, c': Client, v: Server, ss: seq<Socket>, i: SocketId, k: Socket)
    requires v.readers != [] && UpInv(c, v, ss) && i < |ss|
    requires i == ReadingSock(v) ==>
               Texts(k.up) == Texts(ss[i].up) && k.down == ss[i].down &&
               (k.ready == Done || ss[i].ready != Done) && (k.upCut || !ss[i].upCut)
    requires c.sent <= c'.sent
    requires var r := ss[i := k][ReadingSock(v)];
             c'.current == Some(ReadingSock(v)) && Live(c') && r.ready != Done && !r.upCut ==>
               c.current == c'.current && Live(c) && c'.sent == c.sent
    ensures UpInv(c', v, ss[i := k])
  {
    assert Incoming(v, ss[i := k]) == Incoming(v, ss);
  }

  /** What was sent is written in full to the socket the server reads. */
  lemma UpInvWritten(c: Client, c': Client, v: Server, ss: seq<Socket>, k: Socket, more: seq<string>)
    requires v.readers != [] && UpInv(c, v, ss)
    requires c.sent == v.loop.processed + Incoming(v, ss) && c'.sent == c.sent + more
    requires Texts(k.up) == Texts(ss[ReadingSock(v)].up) + more && NoResumed(k.down)
    ensures UpInv(c', v, ss[ReadingSock(v) := k])
  {
    hide InPipe, Texts, NoResumed;
    var was, now := Incoming(v, ss), Incoming(v, ss[ReadingSock(v) := k]);
    assert now == was + more;
    assert v.loop.processed + now == c'.sent;
    NoAck(k.down, |v.loop.processed|, now);
  }

  lemma NoAck(down: seq<Frame>, processed: nat, incoming: seq<string>)
    requires NoResumed(down)
    ensures AckOK(down, processed, incoming)
  {
  }

  /** What send() does to its socket. */
  lemma SendOutcome(s: State, text: string) returns (k: Socket)
    requires Inv(s)
    ensures var c, i := s.client, s.client.socket;
            var open := IsOpen(s, i);
            DoClientSend(s, text) ==
            if i.None? || (!open && !c.secret) then s
            else State(c.(sent := c.sent + [text]), s.server, s.sockets[i.value := k])
    ensures s.client.socket.Some? ==>
              var c, was := s.client, s.sockets[s.client.socket.value];
              k == was.(up := if !c.resuming && was.ready == Open && !was.upCut then was.up + [Numbered(text)] else was.up)
  {
    if s.client.socket.Some? {
      var i := s.client.socket.value;
      var e := Transmit(i, Numbered(text));
      ClientEffectsFew(s.sockets, e, e);
      k := if !s.client.resuming then ClientEffect(s.sockets, e)[i] else s.sockets[i];
    } else {
      k := s.sockets[ReadingSock(s.server)];
    }
    ClientEffectsFew(s.sockets, CloseSocket(0), CloseSocket(0));
  }

  /** What the invariant says of the socket that the server reads. */
  lemma ReadingNow(s: State)
    requires Inv(s)
    ensures s.server.readers != [] && ReadingSock(s.server) < |s.sockets|
    ensures var k := s.sockets[ReadingSock(s.server)];
            s.client.current == Some(ReadingSock(s.server)) && Live(s.client) && k.ready != Done && !k.upCut ==>
              s.client.sent == s.server.loop.processed + Incoming(s.server, s.sockets)
  {
    hide ServerShape, ClientShape, DownOK, Requests, InPipe;
  }

  lemma SendKeeps(s: State, text: string)
    requires Inv(s)
    ensures Inv(DoClientSend(s, text))
  {
    hide ServerShape, UpInv, DownOK, Incoming;
    ReadingNow(s);
    var k := SendOutcome(s, text);
    var c := s.client;
    var c' := c.(sent := c.sent + [text]);
    if c.socket.Some? && (IsOpen(s, c.socket) || c.secret) {
      var i := c.socket.value;
      var was := s.sockets[i];
      assert RequestOK(c, was, c.current == Some(i));
      TextsAppend(was.up, [Numbered(text)]);
      TextsOne(Numbered(text));
      if k.up != was.up && i == ReadingSock(s.server) {
        UpInvWritten(c, c', s.server, s.sockets, k, [text]);
      } else {
        UpInvIdle(c, c', s.server, s.sockets, i, k);
      }
      ClientStepKeeps(s, c', i, k.up, k.ready);
    }
  }

  /** The client closes a socket, leaves or tears the session down: it takes part less than before. */
  lemma WithdrawKeeps(s: State, c': Client, i: SocketId, ready: Ready)
    requires Inv(s) && i < |s.sockets|
    requires c'.received == s.client.received && c'.processed == s.client.processed && c'.sent == s.client.sent
    requires c'.current == s.client.current || c'.current.None?
    requires c'.current.Some? && Live(c') ==> Live(s.client)
    requires ready == s.sockets[i].ready || ready == Done
    requires ClientShape(c', s.sockets[i := s.sockets[i].(ready := ready)])
    requires c'.closed || !s.client.closed
    ensures Inv(State(c', s.server, s.sockets[i := s.sockets[i].(ready := ready)]))
  {
    var k := s.sockets[i].(ready := ready);
    assert RequestOK(s.client, s.sockets[i], s.client.current == Some(i));
    UpInvIdle(s.client, c', s.server, s.sockets, i, k);
    ClientStepKeeps(s, c', i, k.up, k.ready);
  }

  lemma LeaveKeeps(s: State)
    requires Inv(s)
    ensures Inv(WithClient(s, Leave(s.client)))
  {
    var c := s.client;
    var i := if c.socket.Some? then c.socket.value else ReadingSock(s.server);
    ClientEffectsFew(s.sockets, CloseSocket(i), CloseSocket(i));
    var k := s.sockets[i];
    assert s.sockets == s.sockets[i := k.(ready := k.ready)];
    WithdrawKeeps(s, c.(leaving := true, socket := None), i, if c.socket.Some? then Done else k.ready);
  }

  lemma ReplaceSocketKeeps(s: State)
    requires Inv(s) && !s.client.closed
    ensures Inv(s.(client := s.client.(resuming := true, current := Some(s.client.nextSocket),
                                       socket := Some(s.client.nextSocket), nextSocket := s.client.nextSocket + 1),
                   sockets := s.sockets + [Fresh(Unheard)]))
  {
    var c, n, ss := s.client, s.client.nextSocket, s.sockets + [Fresh(Unheard)];
    var c' := c.(resuming := true, current := Some(n), socket := Some(n), nextSocket := n + 1);
    ServerShapeKeeps(s.server, s.sockets, ss);
    assert Incoming(s.server, ss) == Incoming(s.server, s.sockets);
    assert UpInv(c', s.server, ss);
    forall i | 0 <= i < |ss| ensures RequestOK(c', ss[i], c'.current == Some(i)) {
      if i < n {
        assert RequestOK(c, s.sockets[i], c.current == Some(i));
      }
    }
  }

  /** What resume() does to the sockets. */
  lemma ResumeOutcome(s: State, expired: bool)
    requires ClientShape(s.client, s.sockets) && !s.client.closed
    ensures var c, i := s.client, s.client.current.value;
            var ss := s.sockets[i := s.sockets[i].(ready := Done)];
            var (c', es) := Resume(c, expired);
            && i < |s.sockets|
            && ClientEffects(s.sockets, es) ==
               if c.resuming && expired then ss else ss + [Fresh(Unheard)]
  {
    var i := s.client.current.value;
    ClientEffectsFew(s.sockets, CloseSocket(i), OpenSocket(s.client.nextSocket));
  }

  lemma ResumeKeeps(s: State, expired: bool)
    requires Inv(s)
    ensures Inv(WithClient(s, Resume(s.client, expired)))
  {
    hide ServerShape, UpInv, DownOK, Requests;
    var c := s.client;
    if c.closed {
      ClientEffectsFew(s.sockets, OpenSocket(0), OpenSocket(0));
    } else {
      ResumeOutcome(s, expired);
      var i := c.current.value;
      if c.resuming && expired {
        WithdrawKeeps(s, Gone(c.(current := None)), i, Done);
      } else {
        WithdrawKeeps(s, c, i, Done);
        ReplaceSocketKeeps(WithReady(s, i, Done));
      }
    }
  }

  /** What opening a socket does to it: the handshake is written if it is the current one. */
  lemma OpenOutcome(s: State, i: SocketId) returns (up: seq<Frame>)
    requires i < |s.sockets|
    ensures DoClientOpen(s, i) ==
            s.(sockets := s.sockets[i := s.sockets[i].(up := up, ready := Open)])
    ensures var k, c := s.sockets[i], s.client;
            up == if c.closed || c.current != Some(i) || k.upCut then k.up
                  else k.up + [Hello(if c.resuming then Some(c.received) else None)]
  {
    var c := s.client;
    var hello := Hello(if c.resuming then Some(c.received) else None);
    ClientEffectsFew(WithReady(s, i, Open).sockets, Transmit(i, hello), Transmit(i, hello));
    up := DoClientOpen(s, i).sockets[i].up;
  }

  lemma HelloKeeps(c: Client, k: Socket, up: seq<Frame>, current: bool)
    requires RequestOK(c, k, current)
    requires up == k.up || up == k.up + [Hello(if c.resuming then Some(c.received) else None)]
    ensures Texts(up) == Texts(k.up) && RequestOK(c, k.(up := up, ready := Open), current)
  {
    var hello := Hello(if c.resuming then Some(c.received) else None);
    TextsAppend(k.up, [hello]);
    TextsOne(hello);
  }

  lemma OpenKeeps(s: State, i: SocketId)
    requires Inv(s) && Enabled(s, ClientOpen(i))
    ensures Inv(DoClientOpen(s, i))
  {
    RequestHere(s, i);
    hide ServerShape, DownOK, Requests, RequestOK, UpOK;
    var up := OpenOutcome(s, i);
    var c, k := s.client, s.sockets[i];
    HelloKeeps(c, k, up, c.current == Some(i));
    UpInvIdle(c, c, s.server, s.sockets, i, k.(up := up, ready := Open));
    ClientStepKeeps(s, c, i, up, Open);
  }

  lemma CloseKeeps(s: State, i: SocketId, code: int)
    requires Inv(s) && i < |s.sockets|
    ensures Inv(DoClientClose(s, i, code))
  {
    hide ServerShape, UpInv, DownOK, Requests;
    var s' := WithReady(s, i, Done);
    ClientEffectsFew(s'.sockets, OpenSocket(0), OpenSocket(0));
    WithdrawKeeps(s, s.client, i, Done);
    ResumeKeeps(s', false);
    if s.client.current == Some(i) {
      WithdrawKeeps(s, Gone(s.client), i, Done);
    }
  }

  lemma TickKeeps(s: State, silent: int)
    requires Inv(s)
    ensures Inv(DoClientTick(s, silent))
  {
    hide ServerShape, UpInv, DownOK, Requests;
    ClientEffectsFew(s.sockets, OpenSocket(0), OpenSocket(0));
    ResumeKeeps(s, false);
    SendKeeps(s, "ping");
  }

  /** The client takes a frame: the next numbered message is the next one processed. */
  lemma PopKeeps(s: State, i: SocketId, c': Client)
    requires Inv(s) && i < |s.sockets| && s.sockets[i].down != []
    requires var c, f := s.client, s.sockets[i].down[0];
             && c' == c.(version := c'.version, secret := c'.secret, received := c'.received, processed := c'.processed)
             && (c'.secret ==> c.secret || (c.current == Some(i) && !c.closed && s.sockets[i].ready == Open))
             && (if c.current == Some(i) && !c.closed && s.sockets[i].ready != Done && f.Numbered?
                 then c'.received == c.received + 1 && c'.processed == c.processed + [f.text]
                 else c'.received == c.received && c'.processed == c.processed)
    ensures Inv(Popped(s, i).(client := c'))
  {
    hide ServerShape, UpInv, DownOK, Requests, Texts;
    var k := s.sockets[i];
    TextsAppend([k.down[0]], k.down[1..]);
    TextsOne(k.down[0]);
    assert k.down == [k.down[0]] + k.down[1..];
    ServerShapeKeeps(s.server, s.sockets, Popped(s, i).sockets);
    PopUp(s, i, c');
    PopRequests(s, i, c');
    PopDown(s, i, c');
  }

  lemma PopRequests(s: State, i: SocketId, c': Client)
    requires Inv(s) && i < |s.sockets| && s.sockets[i].down != []
    requires var c, down := s.client, s.sockets[i].down;
             && Texts(down) == (if down[0].Numbered? then [down[0].text] else []) + Texts(down[1..])
             && c'.current == c.current && (Live(c') ==> Live(c))
             && (c'.received == c.received || (c.current == Some(i) && down[0].Numbered?))
    ensures Requests(c', Popped(s, i).sockets)
  {
    hide ServerShape, ClientShape, UpInv, DownOK, Texts;
    var c, k := s.client, s.sockets[i];
    var k' := k.(down := k.down[1..]);
    assert RequestOK(c, k, c.current == Some(i));
    RequestsKeep(c, c', s.sockets, i, k');
  }

  lemma PopUp(s: State, i: SocketId, c': Client)
    requires Inv(s) && i < |s.sockets| && s.sockets[i].down != []
    requires c'.sent == s.client.sent && c'.current == s.client.current && (Live(c') ==> Live(s.client))
    ensures UpInv(c', s.server, Popped(s, i).sockets)
  {
    hide ServerShape, ClientShape, DownOK, Requests, Texts, InPipe;
    assert Incoming(s.server, Popped(s, i).sockets) == Incoming(s.server, s.sockets);
    forall j | 0 <= j < |s.sockets[i].down[1..]| ensures s.sockets[i].down[1..][j] == s.sockets[i].down[j + 1] {}
  }

  lemma PopDown(s: State, i: SocketId, c': Client)
    requires Inv(s) && i < |s.sockets| && s.sockets[i].down != []
    requires var c, f := s.client, s.sockets[i].down[0];
             && Texts(s.sockets[i].down) == (if f.Numbered? then [f.text] else []) + Texts(s.sockets[i].down[1..])
             && c'.current == c.current && c'.closed == c.closed
             && (if c.current == Some(i) && !c.closed && s.sockets[i].ready != Done && f.Numbered?
                 then c'.received == c.received + 1 && c'.processed == c.processed + [f.text]
                 else c'.received == c.received && c'.processed == c.processed)
    ensures DownOK(c', s.server, Popped(s, i).sockets)
  {
    hide ServerShape, ClientShape, UpInv, Requests, Texts, NoResumed;
    var f, rest := s.sockets[i].down[0], Texts(s.sockets[i].down[1..]);
    if f.Numbered? {
      assert s.client.processed + ([f.text] + rest) == (s.client.processed + [f.text]) + rest;
    } else {
      assert [] + rest == rest;
    }
  }

  /** An exact acknowledgement: what the client sends again is what the server has not received. */
  lemma ResumedUp(s: State, i: SocketId, rest: seq<string>, k: Socket)
    requires Inv(s) && s.client.current == Some(i) && i < |s.sockets|
    requires var was := s.sockets[i];
             && was.down != [] && was.down[0].Resumed?
             && AfterFirst(s.client.sent, was.down[0].ack) == Some(rest)
             && NoResumed(was.down[1..])
             && k == was.(down := was.down[1..], up := if was.upCut then was.up else was.up + AsFrames(rest))
    ensures UpInv(s.client.(resuming := false), s.server, s.sockets[i := k])
  {
    var c, was, v, ss := s.client, s.sockets[i], s.server, s.sockets[i := k];
    TextsAppend(was.up, AsFrames(rest));
    TextsAsFrames(rest);
    if i == ReadingSock(v) {
      assert Incoming(v, s.sockets) == [];
      assert Incoming(v, ss) == if was.upCut then [] else rest;
      assert c.sent[..|v.loop.processed|] == v.loop.processed;
    } else {
      assert Incoming(v, ss) == Incoming(v, s.sockets);
    }
  }

  lemma ResumedKeeps(s: State, i: SocketId)
    requires Inv(s) && i < |s.sockets| && s.client.current == Some(i) && !s.client.closed && s.sockets[i].ready == Open
    requires s.sockets[i].down != [] && s.sockets[i].down[0].Resumed?
    ensures Inv(WithClient(Popped(s, i), OnResumed(s.client, i, s.sockets[i].down[0].ack)))
  {
    hide Inv, AfterFirst, TransmitAll;
    var c, k, s' := s.client, s.sockets[i], Popped(s, i);
    PopKeeps(s, i, c);
    ClientEffectsFew(s'.sockets, CloseSocket(i), CloseSocket(i));
    if c.resuming {
      match AfterFirst(c.sent, k.down[0].ack) {
        case None =>
          GiveUpKeeps(s', i);
        case Some(rest) =>
          ClientEffectsTransmitAll(s'.sockets, i, rest);
          assert s'.sockets[i := s'.sockets[i]] == s'.sockets;
          CarryOn(s, i, rest);
      }
    }
  }

  lemma GiveUpKeeps(s: State, i: SocketId)
    requires Inv(s) && i < |s.sockets| && s.client.current == Some(i) && !s.client.closed
    ensures Inv(WithClient(s, (Gone(s.client.(current := None)), [CloseSocket(i)])))
  {
    ClientEffectsFew(s.sockets, CloseSocket(i), CloseSocket(i));
    WithdrawKeeps(s, Gone(s.client.(current := None)), i, Done);
  }

  /** Once answered, the client goes on sending over its new socket. */
  lemma CarryOn(s: State, i: SocketId, rest: seq<string>)
    requires Inv(s) && i < |s.sockets| && s.client.current == Some(i) && !s.client.closed && s.sockets[i].ready == Open
    requires s.sockets[i].down != [] && s.sockets[i].down[0].Resumed?
    requires Inv(Popped(s, i))
    requires AfterFirst(s.client.sent, s.sockets[i].down[0].ack) == Some(rest)
    ensures var k := Popped(s, i).sockets[i];
            Inv(State(s.client.(resuming := false), s.server,
                      Popped(s, i).sockets[i := if k.upCut then k else k.(up := k.up + AsFrames(rest))]))
  {
    var c, was, s' := s.client, s.sockets[i], Popped(s, i);
    var k := s'.sockets[i].(up := if was.upCut then was.up else was.up + AsFrames(rest));
    assert RequestOK(c, was, true);
    assert k.stage == Attached && NoResumed(k.down);
    ResumedUp(s, i, rest, k);
    assert s.sockets[i := k] == s'.sockets[i := k];
    AnswerKeeps(s', i, k);
  }

  lemma AnswerKeeps(s: State, i: SocketId, k: Socket)
    requires Inv(s) && i < |s.sockets| && s.client.current == Some(i) && !s.client.closed && s.sockets[i].ready == Open
    requires k == s.sockets[i].(up := k.up) && k.stage == Attached && NoResumed(k.down)
    requires UpInv(s.client.(resuming := false), s.server, s.sockets[i := k])
    ensures Inv(State(s.client.(resuming := false), s.server, s.sockets[i := k]))
  {
    assert RequestOK(s.client, s.sockets[i], true);
    ServerShapeKeeps(s.server, s.sockets, s.sockets[i := k]);
    RequestsKeep(s.client, s.client.(resuming := false), s.sockets, i, k);
  }

  /** A message before the server's handshake is an error: the client leaves. */
  lemma ErrorKeeps(s: State, i: SocketId)
    requires Inv(s) && i < |s.sockets| && s.client.current == Some(i) && s.sockets[i].ready == Open
    requires s.sockets[i].down != []
    ensures Inv(WithClient(Popped(s, i), Leave(s.client)))
  {
    hide ServerShape, UpInv, DownOK, Requests;
    var c, k := s.client, s.sockets[i];
    WithdrawKeeps(s, c, i, Done);
    var d := WithReady(s, i, Done);
    PopKeeps(d, i, c);
    LeaveKeeps(Popped(d, i));
    ClientEffectsFew(Popped(s, i).sockets, CloseSocket(i), CloseSocket(i));
    ClientEffectsFew(Popped(d, i).sockets, CloseSocket(i), CloseSocket(i));
    var done := s.sockets[i := k.(down := k.down[1..], ready := Done)];
    assert ClientEffect(Popped(s, i).sockets, CloseSocket(i)) == done;
    assert ClientEffect(Popped(d, i).sockets, CloseSocket(i)) == done;
  }

  lemma DeliverKeeps(s: State, i: SocketId)
    requires Inv(s) && Enabled(s, ClientDeliver(i))
    ensures Inv(DoClientDeliver(s, i))
  {
    hide Inv, OnResumed, CloseCurrent;
    var c, f := s.client, s.sockets[i].down[0];
    ClientEffectsFew(Popped(s, i).sockets, OpenSocket(0), OpenSocket(0));
    if c.closed || c.current != Some(i) {
      PopKeeps(s, i, c);
    } else if !c.version && TypeOf(f) != "handshake" {
      ErrorKeeps(s, i);
    } else if f.Resumed? {
      ResumedKeeps(s, i);
    } else {
      PlainKeeps(s, i);
    }
  }

  /** Any other message changes no more than the counters and flags. */
  lemma PlainKeeps(s: State, i: SocketId)
    requires Inv(s) && Enabled(s, ClientDeliver(i)) && !s.client.closed && s.client.current == Some(i)
    requires var f := s.sockets[i].down[0]; !f.Resumed? && (s.client.version || TypeOf(f) == "handshake")
    ensures Inv(DoClientDeliver(s, i))
  {
    hide Inv, OnMessage;
    ClientEffectsFew(Popped(s, i).sockets, OpenSocket(0), OpenSocket(0));
    PlainMessage(s.client, i, s.sockets[i].down[0]);
    PopKeeps(s, i, OnMessage(s.client, i, s.sockets[i].down[0]).0);
  }

  lemma PlainMessage(c: Client, i: SocketId, f: Frame)
    requires !c.closed && c.current == Some(i) && !f.Resumed? && (c.version || TypeOf(f) == "handshake")
    ensures var (d, effects) := OnMessage(c, i, f);
            && effects == []
            && d == c.(version := d.version, secret := d.secret, received := d.received, processed := d.processed)
            && (if f.Numbered? then d.received == c.received + 1 && d.processed == c.processed + [f.text]
                else d.received == c.received && d.processed == c.processed)
  {
    hide OnResumed;
    BothCountTheSame(f);
  }

  // The network

  lemma CutUpKeeps(s: State, i: SocketId, keep: nat)
    requires Inv(s) && i < |s.sockets| && keep <= |s.sockets[i].up|
    ensures Inv(DoCutUp(s, i, keep))
  {
    var k := s.sockets[i].(up := s.sockets[i].up[..keep], upCut := true);
    var ss := s.sockets[i := k];
    TextsPrefix(s.sockets[i].up, keep);
    assert RequestOK(s.client, s.sockets[i], s.client.current == Some(i));
    ServerShapeKeeps(s.server, s.sockets, ss);
    RequestsKeep(s.client, s.client, s.sockets, i, k);
    CutUpInv(s, i, keep);
  }

  lemma CutUpInv(s: State, i: SocketId, keep: nat)
    requires Inv(s) && i < |s.sockets| && keep <= |s.sockets[i].up|
    requires Texts(s.sockets[i].up[..keep]) <= Texts(s.sockets[i].up)
    ensures UpInv(s.client, s.server, DoCutUp(s, i, keep).sockets)
  {
    var was, now := Incoming(s.server, s.sockets), Incoming(s.server, DoCutUp(s, i, keep).sockets);
    assert now <= was;
    assert s.server.loop.processed + now <= s.server.loop.processed + was;
  }

  lemma CutDownKeeps(s: State, i: SocketId, keep: nat)
    requires Inv(s) && i < |s.sockets| && keep <= |s.sockets[i].down|
    ensures Inv(DoCutDown(s, i, keep))
  {
    var down := s.sockets[i].down;
    var k := s.sockets[i].(down := down[..keep], downCut := true);
    var ss := s.sockets[i := k];
    TextsPrefix(down, keep);
    assert RequestOK(s.client, s.sockets[i], s.client.current == Some(i));
    ServerShapeKeeps(s.server, s.sockets, ss);
    RequestsKeep(s.client, s.client, s.sockets, i, k);
    CutDownInv(s, i, keep);
  }

  lemma CutDownInv(s: State, i: SocketId, keep: nat)
    requires Inv(s) && i < |s.sockets| && keep <= |s.sockets[i].down|
    requires Texts(s.sockets[i].down[..keep]) <= Texts(s.sockets[i].down)
    ensures UpInv(s.client, s.server, DoCutDown(s, i, keep).sockets)
    ensures DownOK(s.client, s.server, DoCutDown(s, i, keep).sockets)
  {
    assert Incoming(s.server, DoCutDown(s, i, keep).sockets) == Incoming(s.server, s.sockets);
    var now, was := Texts(s.sockets[i].down[..keep]), Texts(s.sockets[i].down);
    assert s.client.processed + now <= s.client.processed + was;
  }

  // The server

  /** Only the writer, its queue and the loop's end differ. */
  predicate SameReading(v: Server, v': Server) {
    && v'.readers == v.readers && v'.attaching == v.attaching && v'.chan == v.chan
    && v'.loop == v.loop.(ended := v'.loop.ended)
  }

  lemma UpInvSameReading(c: Client, v: Server, v': Server, ss: seq<Socket>, i: SocketId, k: Socket)
    requires UpInv(c, v, ss) && SameReading(v, v') && i < |ss|
    requires k == ss[i].(up := k.up, down := k.down, stage := k.stage) && Texts(k.up) == Texts(ss[i].up)
    requires NoResumed(k.down) || k.down == ss[i].down
    ensures UpInv(c, v', ss[i := k])
  {
    hide Texts, ItemTexts;
    assert Incoming(v', ss[i := k]) == Incoming(v, ss);
  }

  lemma ServerShapeSameReading(v: Server, v': Server, ss: seq<Socket>)
    requires ServerShape(v, ss) && SameReading(v, v') && v'.actions == v.actions
    requires v'.writer.conn == v.writer.conn || v'.writer.conn.None?
    ensures ServerShape(v', ss)
  {
  }

  /** A step of the server that neither counts nor reads anything. */
  lemma ServerStepKeeps(s: State, v: Server, i: SocketId, k: Socket)
    requires Inv(s) && i < |s.sockets|
    requires SameReading(s.server, v) && ServerShape(v, s.sockets[i := k])
    requires v.writer.sent == s.server.writer.sent
    requires v.writer.conn == s.server.writer.conn || v.writer.conn.None?
    requires v.writer.sent + Texts(v.queue) == v.submitted && (v.started || v.queue == []) && NoResumed(v.queue)
    requires k == s.sockets[i].(up := k.up, down := k.down, stage := k.stage)
    requires Texts(k.up) == Texts(s.sockets[i].up) && Texts(k.down) == Texts(s.sockets[i].down)
    requires NoResumed(k.down) || k.down == s.sockets[i].down
    requires RequestOK(s.client, k, s.client.current == Some(i))
    ensures Inv(State(s.client, v, s.sockets[i := k]))
  {
    hide RequestOK, ServerShape, UpInv, NoResumed, Texts;
    UpInvSameReading(s.client, s.server, v, s.sockets, i, k);
    RequestsKeep(s.client, s.client, s.sockets, i, k);
  }

  /** The same, no socket being touched. */
  lemma QuietStepKeeps(s: State, v: Server)
    requires Inv(s) && SameReading(s.server, v) && v.actions == s.server.actions
    requires v.writer.sent == s.server.writer.sent
    requires v.writer.conn == s.server.writer.conn || v.writer.conn.None?
    requires v.writer.sent + Texts(v.queue) == v.submitted && (v.started || v.queue == []) && NoResumed(v.queue)
    ensures Inv(s.(server := v))
  {
    hide UpInv, DownOK, Requests;
    ServerShapeSameReading(s.server, v, s.sockets);
    var i := ReadingSock(v);
    var k := s.sockets[i];
    assert s.sockets[i := k] == s.sockets;
    RequestHere(s, i);
    ServerStepKeeps(s, v, i, k);
  }

  lemma RequestHere(s: State, i: SocketId)
    requires Inv(s) && i < |s.sockets|
    ensures RequestOK(s.client, s.sockets[i], s.client.current == Some(i))
  {
    hide ServerShape, UpInv, DownOK;
  }

  lemma ServerShapeStage(v: Server, ss: seq<Socket>, i: SocketId, k: Socket)
    requires ServerShape(v, ss) && i < |ss|
    requires ss[i].stage == Unheard || ss[i].stage.Accepted?
    ensures ServerShape(v, ss[i := k])
    ensures k.stage.Queued? ==> ServerShape(v.(actions := v.actions + [i]), ss[i := k])
  {
  }

  lemma GreetingTexts(network: bool)
    ensures Texts(Greeting(network)) == [] && NoResumed(Greeting(network))
    ensures Texts([Handshake, Session] + if network then [Network] else []) == []
  {
    assert Texts([Handshake, Session]) == [] by {
      assert [Handshake, Session][1..] == [Session] && [Session][1..] == [];
    }
    assert [Handshake] + [] == [Handshake] && [Handshake, Session] + [] == [Handshake, Session];
    TextsOne(Handshake);
    TextsOne(Network);
    TextsAppend([Handshake], [Network]);
    TextsAppend([Handshake, Session], [Network]);
  }

  lemma AcceptNewKeeps(s: State, network: bool)
    requires Inv(s) && Enabled(s, AcceptNew(network))
    ensures Inv(DoAcceptNew(s, network))
  {
    hide UpInv, ServerShape, ClientShape;
    var k := s.sockets[0].(up := s.sockets[0].up[1..]);
    var v := DoAcceptNew(s, network).server;
    RequestHere(s, 0);
    GreetingTexts(network);
    assert s.server.writer.sent == s.server.submitted;
    ServerShapeSameReading(s.server, v, s.sockets);
    ServerShapeKeeps(v, s.sockets, s.sockets[0 := k]);
    ServerStepKeeps(s, v, 0, k);
  }

  /** What is written to a socket before it is attached is not counted. */
  lemma GreetingKeeps(c: Client, k: Socket, k': Socket, network: bool, current: bool)
    requires RequestOK(c, k, current) && k.stage == Unheard && k.up != []
    requires k.up[0].Hello? && k.up[0].resume.Some?
    requires k'.up == k.up[1..]
    requires k'.down == k.down || k'.down == k.down + Greeting(network)
    requires k'.stage == Refused || k'.stage == Accepted(k.up[0].resume.value)
    ensures RequestOK(c, k', current) && NoResumed(k'.down)
    ensures Texts(k'.up) == Texts(k.up) && Texts(k'.down) == Texts(k.down)
  {
    hide Greeting;
    GreetingTexts(network);
    TextsAppend(k.down, Greeting(network));
    GreetingUp(k.up);
  }

  lemma GreetingUp(up: seq<Frame>)
    requires up != [] && up[0].Hello?
    ensures Texts(up[1..]) == Texts(up)
  {
  }

  lemma AcceptResumeKeeps(s: State, i: SocketId, found: bool, network: bool)
    requires Inv(s) && Enabled(s, AcceptResume(i, found, network))
    ensures Inv(DoAcceptResume(s, i, found, network))
  {
    hide UpInv, ServerShape, ClientShape, RequestOK;
    var was, k := s.sockets[i], DoAcceptResume(s, i, found, network).sockets[i];
    assert RequestOK(s.client, was, s.client.current == Some(i));
    GreetingKeeps(s.client, was, k, network, s.client.current == Some(i));
    ServerShapeStage(s.server, s.sockets, i, k);
    ServerStepKeeps(s, s.server, i, k);
  }

  lemma PostKeeps(s: State, i: SocketId)
    requires Inv(s) && Enabled(s, Post(i))
    ensures Inv(DoPost(s, i))
  {
    hide UpInv, ServerShape, ClientShape;
    var k := s.sockets[i].(stage := Queued(s.sockets[i].stage.n));
    var v := s.server.(actions := s.server.actions + [i]);
    assert RequestOK(s.client, s.sockets[i], s.client.current == Some(i));
    ServerShapeStage(s.server, s.sockets, i, k);
    ServerStepKeeps(s, v, i, k);
  }

  /** What the invariant says of the writer's queue. */
  lemma QueueNow(s: State)
    requires Inv(s)
    ensures s.server.writer.sent + Texts(s.server.queue) == s.server.submitted && NoResumed(s.server.queue)
    ensures !s.server.started ==> s.server.queue == []
  {
    hide ServerShape, ClientShape, UpInv, Requests, NoResumed;
  }

  lemma SubmitKeeps(s: State, text: string)
    requires Inv(s) && Enabled(s, Submit(text))
    ensures Inv(s.(server := s.server.(queue := s.server.queue + [Numbered(text)],
                                       submitted := s.server.submitted + [text])))
  {
    hide Inv, Texts;
    QueueNow(s);
    var v := s.server.(queue := s.server.queue + [Numbered(text)], submitted := s.server.submitted + [text]);
    TextsAppend(s.server.queue, [Numbered(text)]);
    TextsOne(Numbered(text));
    QuietStepKeeps(s, v);
  }

  /** A reader's or the loop's step, which moves an item along the pipe. */
  lemma ReadingStepKeeps(s: State, v: Server, ss: seq<Socket>)
    requires Inv(s) && ServerShape(v, ss)
    requires v.writer == s.server.writer && v.queue == s.server.queue && v.submitted == s.server.submitted
    requires v.started == s.server.started
    requires |ss| == |s.sockets| && forall j :: 0 <= j < |ss| ==> ss[j] == s.sockets[j].(up := ss[j].up)
    requires forall j :: 0 <= j < |ss| && ss[j].up != s.sockets[j].up ==> s.sockets[j].stage == Attached
    requires ReadingSock(v) == ReadingSock(s.server)
    requires v.loop.processed + Incoming(v, ss) == s.server.loop.processed + Incoming(s.server, s.sockets)
    requires v.loop.received == |v.loop.processed|
    requires |s.server.loop.processed| <= |v.loop.processed|
    ensures Inv(State(s.client, v, ss))
  {
    forall j | 0 <= j < |ss| ensures RequestOK(s.client, ss[j], s.client.current == Some(j)) {
      assert RequestOK(s.client, s.sockets[j], s.client.current == Some(j));
    }
    assert AckOK(ss[ReadingSock(v)].down, |v.loop.processed|, Incoming(v, ss)) by {
      assert Incoming(s.server, s.sockets) == [] ==> v.loop.processed == s.server.loop.processed + [];
    }
  }

  /** The readers' sockets stay as they were. */
  lemma ServerShapeReader(v: Server, ss: seq<Socket>, g: nat, r: Reader)
    requires ServerShape(v, ss) && g < |v.readers| && r.sock == v.readers[g].sock
    ensures ServerShape(v.(readers := v.readers[g := r]), ss)
  {
  }

  lemma ReadFrameKeeps(s: State, g: nat)
    requires Inv(s) && Enabled(s, ReadFrame(g))
    ensures Inv(DoReadFrame(s, g))
  {
    hide UpInv, DownOK, Requests, ClientShape, Incoming;
    var r := s.server.readers[g];
    var k := s.sockets[r.sock];
    var v, ss := DoReadFrame(s, g).server, DoReadFrame(s, g).sockets;
    ServerShapeReader(s.server, s.sockets, g, v.readers[g]);
    ServerShapeKeeps(v, s.sockets, ss);
    ReadFrameIncoming(s, g);
    LoopCounts(s);
    ReadingStepKeeps(s, v, ss);
  }

  lemma Shift(a: seq<string>, b: seq<string>, c: seq<string>)
    ensures (a + []) + (b + c) == (a + b) + c
  {
    assert a + [] == a;
  }

  lemma ReadFrameIncoming(s: State, g: nat)
    requires ServerShape(s.server, s.sockets) && Enabled(s, ReadFrame(g))
    ensures Incoming(DoReadFrame(s, g).server, DoReadFrame(s, g).sockets) == Incoming(s.server, s.sockets)
  {
    hide Texts, ItemTexts, ServerShape, Incoming, DoReadFrame;
    if s.server.attaching.None? && g == |s.server.readers| - 1 {
      ReadNewest(s, g);
    } else {
      OtherSocket(s, g);
      ReadOlder(s, g);
    }
  }

  lemma OtherSocket(s: State, g: nat)
    requires ServerShape(s.server, s.sockets) && g < |s.server.readers|
    requires s.server.attaching.Some? || g != |s.server.readers| - 1
    ensures s.server.readers[g].sock != ReadingSock(s.server) < |s.sockets|
  {
  }

  lemma ReadOlder(s: State, g: nat)
    requires Enabled(s, ReadFrame(g)) && ReadingSock(s.server) < |s.sockets|
    requires s.server.attaching.Some? || g != |s.server.readers| - 1
    requires s.server.readers[g].sock != ReadingSock(s.server)
    ensures Incoming(DoReadFrame(s, g).server, DoReadFrame(s, g).sockets) == Incoming(s.server, s.sockets)
  {
    hide Texts, ItemTexts;
  }

  lemma ReadNewest(s: State, g: nat)
    requires Enabled(s, ReadFrame(g)) && s.server.attaching.None? && g == |s.server.readers| - 1
    ensures Incoming(DoReadFrame(s, g).server, DoReadFrame(s, g).sockets) == Incoming(s.server, s.sockets)
  {
    hide Texts, ItemTexts;
    var r, v := s.server.readers[g], s.server;
    var up := s.sockets[r.sock].up;
    FirstText(up);
    NoItem();
    var first := if v.chan.Some? && v.chan.value.gen == g then ItemTexts(Some(v.chan.value.item)) else [];
    Shift(first, ItemTexts(Some(Got(up[0]))), Texts(up[1..]));
  }

  lemma FirstText(up: seq<Frame>)
    requires up != []
    ensures Texts(up) == ItemTexts(Some(Got(up[0]))) + Texts(up[1..])
  {
  }

  lemma ReadErrorKeeps(s: State, g: nat, normal: bool)
    requires Inv(s) && Enabled(s, ReadError(g, normal))
    ensures Inv(DoReadError(s, g, normal))
  {
    hide UpInv, DownOK, Requests;
    var v := DoReadError(s, g, normal).server;
    ServerShapeReader(s.server, s.sockets, g, v.readers[g]);
    assert InPipe(v) == InPipe(s.server);
    LoopCounts(s);
    ReadingStepKeeps(s, v, s.sockets);
  }

  /** The item stays in the pipe while it moves from the reader to the channel. */
  lemma HandOverPipe(s: State, g: nat)
    requires Enabled(s, HandOver(g)) && s.server.readers != []
    ensures InPipe(DoHandOver(s, g).server) == InPipe(s.server)
  {
    hide ItemTexts;
    assert ItemTexts(None) == [] by { NoItem(); }
    var t := ItemTexts(s.server.readers[g].held);
    assert t + [] == t && [] + t == t;
  }

  lemma NoItem()
    ensures ItemTexts(None) == []
  {
  }

  lemma HandOverKeeps(s: State, g: nat)
    requires Inv(s) && Enabled(s, HandOver(g))
    ensures Inv(DoHandOver(s, g))
  {
    hide UpInv, DownOK, Requests, ClientShape, InPipe;
    var v := DoHandOver(s, g).server;
    ServerShapeReader(s.server, s.sockets, g, v.readers[g]);
    HandOverPipe(s, g);
    LoopCounts(s);
    ReadingStepKeeps(s, v, s.sockets);
  }

  /** Both sides number the same messages, and those only. */
  lemma BothCountTheSame(f: Frame)
    ensures CountedType(TypeOf(f)) == Counted(TypeOf(f)) == f.Numbered?
  {
  }

  lemma OnReadCounts(l: Loop, gen: nat, item: Item, fatal: bool)
    ensures var l' := OnRead(l, gen, item, fatal);
            && l'.processed == l.processed + (if gen == l.gen then ItemTexts(Some(item)) else [])
            && l'.received - l.received == |l'.processed| - |l.processed|
            && l'.gen == l.gen
  {
    if item.Got? {
      BothCountTheSame(item.frame);
    }
    assert l.processed + [] == l.processed;
  }

  lemma Regroup(a: seq<string>, b: seq<string>, c: seq<string>, d: seq<string>)
    ensures a + ((b + c) + d) == (a + b) + (([] + c) + d)
  {
    assert [] + c == c;
    assert a + ((b + c) + d) == a + b + c + d;
    assert (a + b) + (c + d) == a + b + c + d;
  }

  lemma LoopReceiveIncoming(v: Server, ss: seq<Socket>, fatal: bool)
    requires v.readers != [] && ReadingSock(v) < |ss| && v.loop.gen == |v.readers| - 1
    requires v.chan.Some? && v.attaching.None?
    ensures var v' := v.(chan := None, loop := OnRead(v.loop, v.chan.value.gen, v.chan.value.item, fatal));
            && v'.loop.processed + Incoming(v', ss) == v.loop.processed + Incoming(v, ss)
            && |v.loop.processed| <= |v'.loop.processed|
            && (v.loop.received == |v.loop.processed| ==> v'.loop.received == |v'.loop.processed|)
  {
    var d := v.chan.value;
    OnReadCounts(v.loop, d.gen, d.item, fatal);
    hide OnRead, Texts, ItemTexts;
    var l' := OnRead(v.loop, d.gen, d.item, fatal);
    var v' := v.(chan := None, loop := l');
    var taken := if d.gen == v.loop.gen then ItemTexts(Some(d.item)) else [];
    var held, up := ItemTexts(v.readers[|v.readers| - 1].held), Texts(ss[ReadingSock(v)].up);
    assert Incoming(v, ss) == (taken + held) + up;
    assert Incoming(v', ss) == ([] + held) + up;
    Regroup(v.loop.processed, taken, held, up);
  }

  lemma LoopReceiveKeeps(s: State, fatal: bool)
    requires Inv(s) && Enabled(s, LoopReceive(fatal))
    ensures Inv(DoLoopReceive(s, fatal))
  {
    hide UpInv, DownOK, Requests;
    var v := DoLoopReceive(s, fatal).server;
    assert ServerShape(v, s.sockets);
    LoopReceiveIncoming(s.server, s.sockets, fatal);
    LoopCounts(s);
    ReadingStepKeeps(s, v, s.sockets);
  }

  lemma StartReaderKeeps(s: State)
    requires Inv(s) && Enabled(s, StartReader)
    ensures Inv(DoStartReader(s))
  {
    hide UpInv, DownOK, Requests;
    var v := DoStartReader(s).server;
    assert ServerShape(v, s.sockets);
    assert InPipe(v) == InPipe(s.server);
    assert v.loop.processed == s.server.loop.processed;
    LoopCounts(s);
    ReadingStepKeeps(s, v, s.sockets);
  }

  lemma LoopCounts(s: State)
    requires Inv(s)
    ensures s.server.loop.received == |s.server.loop.processed|
  {
    hide ServerShape, DownOK, Requests;
  }

  // The writer

  lemma WriterTakeKeeps(s: State, fate: Fate)
    requires Inv(s) && Enabled(s, WriterTake(fate))
    ensures Inv(DoWriterTake(s, fate))
  {
    hide UpInv, Requests, RequestOK, ServerShape, ClientShape, DownOK, UpOK;
    var was, v := s.server, DoWriterTake(s, fate).server;
    WriterTakeShape(s, fate);
    var i := if was.writer.conn.Some? then was.writer.conn.value else ReadingSock(was);
    var delivered := was.writer.conn.Some? && (fate.Written? || fate.delivered) && !s.sockets[i].downCut;
    WriterTakeQueue(s, fate);
    WriterTakeSockets(s, fate);
    WrittenKeeps(s, v, i, was.queue[0], delivered);
  }

  lemma WriterTakeQueue(s: State, fate: Fate)
    requires Inv(s) && Enabled(s, WriterTake(fate))
    ensures var v, f := DoWriterTake(s, fate).server, s.server.queue[0];
            && v.writer.sent == s.server.writer.sent + (if f.Numbered? then [f.text] else [])
            && v.writer.sent + Texts(v.queue) == v.submitted && v.started && NoResumed(v.queue) && !f.Resumed?
  {
    hide UpInv, Requests, ServerShape, ClientShape;
    var f, rest, sent := s.server.queue[0], s.server.queue[1..], s.server.writer.sent;
    var more := if f.Numbered? then [f.text] else [];
    assert sent + [] == sent;
    assert (sent + more) + Texts(rest) == sent + (more + Texts(rest));
  }

  lemma WriterTakeShape(s: State, fate: Fate)
    requires Inv(s) && Enabled(s, WriterTake(fate))
    ensures var v, w := DoWriterTake(s, fate).server, s.server.writer;
            && SameReading(s.server, v) && ServerShape(v, s.sockets)
            && (v.writer.conn.Some? ==> v.writer.conn == w.conn && fate.Written?)
            && (w.conn.Some? ==> w.conn.value < |s.sockets| && s.sockets[w.conn.value].stage == Attached)
            && s.server.readers != []
            && ReadingSock(s.server) < |s.sockets| && s.sockets[ReadingSock(s.server)].stage == Attached
  {
    hide UpInv, Requests, ClientShape, DownOK;
    ServerShapeSameReading(s.server, DoWriterTake(s, fate).server, s.sockets);
  }

  lemma WriterTakeSockets(s: State, fate: Fate)
    requires s.server.readers != [] && ReadingSock(s.server) < |s.sockets|
    requires s.server.writer.conn.Some? ==> s.server.writer.conn.value < |s.sockets|
    requires Enabled(s, WriterTake(fate))
    ensures var w, f := s.server.writer, s.server.queue[0];
            var i := if w.conn.Some? then w.conn.value else ReadingSock(s.server);
            var delivered := w.conn.Some? && (fate.Written? || fate.delivered) && !s.sockets[i].downCut;
            DoWriterTake(s, fate).sockets ==
            s.sockets[i := s.sockets[i].(down := if delivered then s.sockets[i].down + [f] else s.sockets[i].down)]
  {
    var w, f := s.server.writer, s.server.queue[0];
    var w' := if f.Numbered? then w.(sent := w.sent + [f.text]) else w;
    SendOnEffects(s.sockets, w', f, fate);
    if w.conn.Some? {
      ArriveArrive(s.sockets, w.conn.value, [], []);
    }
  }

  /** The writer counts a frame, and writes it to its connection if there is one that works. */
  lemma WrittenKeeps(s: State, v: Server, i: SocketId, f: Frame, delivered: bool)
    requires Inv(s) && i < |s.sockets| && s.sockets[i].stage == Attached
    requires SameReading(s.server, v) && ServerShape(v, s.sockets)
    requires v.writer.sent == s.server.writer.sent + if f.Numbered? then [f.text] else []
    requires v.writer.sent + Texts(v.queue) == v.submitted && v.started && NoResumed(v.queue)
    requires s.server.writer.conn.Some? ==> s.server.writer.conn == Some(i)
    requires v.writer.conn.Some? ==> v.writer.conn == Some(i) && s.server.writer.conn == Some(i) &&
                                     (delivered || s.sockets[i].downCut)
    requires delivered ==> s.server.writer.conn == Some(i) && !s.sockets[i].downCut
    requires !f.Resumed?
    ensures var k := s.sockets[i].(down := if delivered then s.sockets[i].down + [f] else s.sockets[i].down);
            Inv(State(s.client, v, s.sockets[i := k]))
  {
    hide ServerShape;
    var k := s.sockets[i].(down := if delivered then s.sockets[i].down + [f] else s.sockets[i].down);
    var ss := s.sockets[i := k];
    RequestHere(s, i);
    ServerShapeKeeps(v, s.sockets, ss);
    RequestsKeep(s.client, s.client, s.sockets, i, k);
    WrittenUp(s, v, i, k);
    WrittenDown(s, v, i, f, delivered);
  }

  lemma WrittenUp(s: State, v: Server, i: SocketId, k: Socket)
    requires Inv(s) && i < |s.sockets| && SameReading(s.server, v)
    requires k == s.sockets[i].(down := k.down)
    requires forall j :: 0 <= j < |k.down| && k.down[j].Resumed? ==> j < |s.sockets[i].down| && k.down[j] == s.sockets[i].down[j]
    ensures UpInv(s.client, v, s.sockets[i := k])
  {
    hide DownOK, Requests;
    assert Incoming(v, s.sockets[i := k]) == Incoming(s.server, s.sockets);
  }

  lemma WrittenDown(s: State, v: Server, i: SocketId, f: Frame, delivered: bool)
    requires Inv(s) && i < |s.sockets|
    requires v.writer.sent == s.server.writer.sent + if f.Numbered? then [f.text] else []
    requires v.writer.sent + Texts(v.queue) == v.submitted && v.started && NoResumed(v.queue)
    requires v.writer.conn.Some? ==> v.writer.conn == Some(i) && s.server.writer.conn == Some(i) &&
                                     (delivered || s.sockets[i].downCut)
    requires delivered ==> s.server.writer.conn == Some(i) && !s.sockets[i].downCut
    ensures var k := s.sockets[i].(down := if delivered then s.sockets[i].down + [f] else s.sockets[i].down);
            DownOK(s.client, v, s.sockets[i := k])
  {
    hide ServerShape, UpInv, Requests;
    var was, more := s.sockets[i].down, if f.Numbered? then [f.text] else [];
    TextsAppend(was, [f]);
    TextsOne(f);
    assert s.client.processed + (Texts(was) + more) == (s.client.processed + Texts(was)) + more;
  }

  // Serving a resume request

  lemma RefuseKeeps(s: State)
    requires Inv(s) && s.server.actions != [] && s.server.attaching.None?
    ensures var v, i := s.server, s.server.actions[0];
            && i < |s.sockets|
            && Inv(s.(server := v.(actions := v.actions[1..], loop := v.loop.(ended := true)),
                      sockets := s.sockets[i := s.sockets[i].(stage := Refused)]))
  {
    hide UpInv, Requests;
    var i := s.server.actions[0];
    var v := s.server.(actions := s.server.actions[1..], loop := s.server.loop.(ended := true));
    var k := s.sockets[i].(stage := Refused);
    assert ServerShape(v, s.sockets[i := k]);
    RequestHere(s, i);
    ServerStepKeeps(s, v, i, k);
  }

  /** The connection becomes the session's; it gets the acknowledgement and then what the client missed. */
  lemma AttachKeeps(s: State, frames: seq<Frame>, sent: nat, w: Writer)
    requires Inv(s) && s.server.actions != [] && s.server.attaching.None?
    requires var i := s.server.actions[0];
             && i < |s.sockets| && s.sockets[i].stage.Queued?
             && Replay(s.server.writer, s.sockets[i].stage.n, s.server.loop.received) == Some(frames)
             && sent <= |frames|
             && w.sent == s.server.writer.sent
             && (w.conn.Some? ==> w.conn == Some(i) && sent == |frames|)
    ensures var v, i := s.server, s.server.actions[0];
            var k := s.sockets[i].(stage := Attached);
            Inv(State(s.client, v.(actions := v.actions[1..], writer := w, attaching := Some(i)),
                      s.sockets[i := if k.downCut then k else k.(down := k.down + frames[..sent])]))
  {
    hide UpInv, DownOK, Requests, ServerShape, ClientShape, Replay;
    var i := s.server.actions[0];
    var was := s.sockets[i];
    var v := s.server.(actions := s.server.actions[1..], writer := w, attaching := Some(i));
    var k := was.(stage := Attached, down := if was.downCut then was.down else was.down + frames[..sent]);
    RequestHere(s, i);
    AttachShape(s, w, k);
    TextsAppend(was.down, frames[..sent]);
    ReplayTexts(s.server.writer, was.stage.n, s.server.loop.received, frames, sent);
    assert [] + Texts(frames[..sent]) == Texts(frames[..sent]);
    assert forall j :: 0 <= j < |k.down| && k.down[j].Resumed? ==>
             j == |was.down| && k.down[j].ack == s.server.loop.received;
    RequestsKeep(s.client, s.client, s.sockets, i, k);
    AttachUp(s, v, k);
    AttachDown(s, v, k, sent == |frames|);
  }

  lemma AttachShape(s: State, w: Writer, k: Socket)
    requires Inv(s) && s.server.actions != [] && s.server.attaching.None?
    requires k.stage == Attached
    requires w.conn.Some? ==> w.conn == Some(s.server.actions[0])
    ensures var v, i := s.server, s.server.actions[0];
            && i < |s.sockets|
            && ServerShape(v.(actions := v.actions[1..], writer := w, attaching := Some(i)), s.sockets[i := k])
            && (k.ready == s.sockets[i].ready ==> ClientShape(s.client, s.sockets[i := k]))
  {
    hide UpInv, DownOK, Requests;
  }

  lemma ReplayTexts(w: Writer, n: nat, ack: nat, frames: seq<Frame>, k: nat)
    requires Replay(w, n, ack) == Some(frames) && k <= |frames|
    ensures n <= |w.sent|
    ensures Texts(frames[..k]) <= w.sent[n..]
    ensures k == |frames| ==> Texts(frames[..k]) == w.sent[n..]
    ensures forall j :: 0 <= j < |frames| && frames[j].Resumed? ==> j == 0 && frames[j].ack == ack
  {
    var rest := w.sent[n..];
    assert frames == [Resumed(ack)] + AsFrames(rest);
    TextsAppend([Resumed(ack)], AsFrames(rest));
    TextsOne(Resumed(ack));
    TextsAsFrames(rest);
    assert [] + rest == rest;
    TextsPrefix(frames, k);
    assert frames[..|frames|] == frames;
  }

  lemma AttachUp(s: State, v: Server, k: Socket)
    requires Inv(s) && s.server.actions != []
    requires var i := s.server.actions[0];
             && i < |s.sockets| && s.sockets[i].stage.Queued?
             && k == s.sockets[i].(stage := Attached, down := k.down)
             && v.readers == s.server.readers && v.attaching == Some(i) && v.loop == s.server.loop
    requires forall j :: 0 <= j < |k.down| && k.down[j].Resumed? ==> k.down[j].ack == s.server.loop.received
    ensures UpInv(s.client, v, s.sockets[s.server.actions[0] := k])
  {
    hide DownOK;
    var i := s.server.actions[0];
    RequestHere(s, i);
    assert Incoming(v, s.sockets[i := k]) == [];
    assert v.loop.processed + [] == v.loop.processed;
  }

  lemma AttachDown(s: State, v: Server, k: Socket, all: bool)
    requires Inv(s) && s.server.actions != []
    requires var i := s.server.actions[0];
             && i < |s.sockets| && s.sockets[i].stage.Queued?
             && k == s.sockets[i].(stage := Attached, down := k.down)
             && v.writer.sent == s.server.writer.sent && v.queue == s.server.queue && v.submitted == s.server.submitted
             && v.started == s.server.started
             && (v.writer.conn.Some? ==> v.writer.conn == Some(i) && all)
             && s.sockets[i].stage.n <= |v.writer.sent|
             && (if k.downCut then Texts(k.down) == []
                 else Texts(k.down) <= v.writer.sent[s.sockets[i].stage.n..] &&
                      (all ==> Texts(k.down) == v.writer.sent[s.sockets[i].stage.n..]))
    ensures DownOK(s.client, v, s.sockets[s.server.actions[0] := k])
  {
    hide UpInv, ServerShape;
    var i, c := s.server.actions[0], s.client;
    RequestHere(s, i);
    if c.current == Some(i) {
      assert v.writer.sent == c.processed + v.writer.sent[|c.processed|..];
      assert c.processed + [] == c.processed;
    }
  }

  lemma ServeResumeKeeps(s: State, fates: seq<Fate>)
    requires Inv(s) && Enabled(s, ServeResume(fates))
    ensures Inv(DoServeResume(s, fates))
  {
    hide ServerShape, ClientShape, UpInv, DownOK, Requests;
    var i := s.server.actions[0];
    var k := s.sockets[i];
    var r := Replay(s.server.writer, k.stage.n, s.server.loop.received);
    if s.server.writerDone || r.None? {
      RefuseKeeps(s);
    } else {
      var ss := s.sockets[i := k.(stage := Attached)];
      var w := s.server.writer.(conn := Some(i));
      var (w', es) := SendAll(w, r.value, fates);
      var sent := ServerEffectsSendAll(ss, w, r.value, fates);
      if s.server.writer.conn.Some? {
        ServerEffectsAppend(ss, [CloseSocket(s.server.writer.conn.value)], es);
        ServerEffectsOne(ss, CloseSocket(s.server.writer.conn.value));
      } else {
        assert [] + es == es;
      }
      AttachKeeps(s, r.value, sent, w');
      var k' := k.(stage := Attached);
      assert Arrive(ss, i, r.value[..sent]) ==
             s.sockets[i := if k'.downCut then k' else k'.(down := k'.down + r.value[..sent])];
    }
  }

  // The theorems

  predicate ByServer(a: Action) {
    a.AcceptNew? || a.AcceptResume? || a.Post? || a.ServeResume? || a.StartReader? || a.ReadFrame? || a.ReadError? ||
    a.HandOver? || a.LoopReceive? || a.Submit? || a.WriterTake? || a.WriterStop? || a.SessionEnd?
  }

  lemma StepKeeps(s: State, a: Action)
    requires Inv(s)
    ensures Inv(Apply(s, a))
  {
    hide Inv, Apply;
    if ByServer(a) {
      ServerActionKeeps(s, a);
    } else {
      ClientActionKeeps(s, a);
    }
  }

  lemma ClientActionKeeps(s: State, a: Action)
    requires Inv(s) && !ByServer(a)
    ensures Inv(Apply(s, a))
  {
    hide Inv, DoClientSend, DoClientOpen, DoClientDeliver, DoClientClose, DoClientTick, DoCutUp, DoCutDown,
         WithClient, Leave, OnTimer;
    if Enabled(s, a) {
      match a {
        case ClientSend(text) => SendKeeps(s, text);
        case ClientLeave => LeaveKeeps(s);
        case ClientOpen(i) => OpenKeeps(s, i);
        case ClientDeliver(i) => DeliverKeeps(s, i);
        case ClientClose(i, code) => CloseKeeps(s, i, code);
        case ClientTick(silent) => TickKeeps(s, silent);
        case ClientTimer(expired) => TimerKeeps(s, expired);
        case CutUp(i, k) => CutUpKeeps(s, i, k);
        case CutDown(i, k) => CutDownKeeps(s, i, k);
      }
    }
  }

  lemma ServerActionKeeps(s: State, a: Action)
    requires Inv(s) && ByServer(a)
    ensures Inv(Apply(s, a))
  {
    hide Inv, Enabled, DoAcceptNew, DoAcceptResume, DoPost, DoServeResume, DoStartReader, DoReadFrame,
         DoReadError, DoHandOver, DoLoopReceive, DoWriterTake;
    if Enabled(s, a) {
      match a {
        case AcceptNew(network) => AcceptNewKeeps(s, network);
        case AcceptResume(i, found, network) => AcceptResumeKeeps(s, i, found, network);
        case Post(i) => PostKeeps(s, i);
        case ServeResume(fates) => ServeResumeKeeps(s, fates);
        case StartReader => StartReaderKeeps(s);
        case ReadFrame(g) => ReadFrameKeeps(s, g);
        case ReadError(g, normal) => ReadErrorKeeps(s, g, normal);
        case HandOver(g) => HandOverKeeps(s, g);
        case LoopReceive(fatal) => LoopReceiveKeeps(s, fatal);
        case Submit(text) => SubmitKeeps(s, text);
        case WriterTake(fate) => WriterTakeKeeps(s, fate);
        case WriterStop => StopKeeps(s, true);
        case SessionEnd => StopKeeps(s, false);
      }
    }
  }

  lemma TimerKeeps(s: State, expired: bool)
    requires Inv(s)
    ensures Inv(WithClient(s, OnTimer(s.client, expired)))
  {
    hide ServerShape, ClientShape, UpInv, DownOK, Requests;
    ClientEffectsFew(s.sockets, OpenSocket(0), OpenSocket(0));
    ResumeKeeps(s, expired);
  }

  lemma StopKeeps(s: State, writer: bool)
    requires Inv(s)
    ensures writer ==> Inv(s.(server := s.server.(writerDone := true, writer := s.server.writer.(conn := None))))
    ensures !writer ==> Inv(s.(server := s.server.(loop := s.server.loop.(ended := true))))
  {
    hide ServerShape, ClientShape, UpInv, Requests;
    QuietStepKeeps(s, if writer then s.server.(writerDone := true, writer := s.server.writer.(conn := None))
                      else s.server.(loop := s.server.loop.(ended := true)));
  }

  lemma {:induction false} RunKeeps(run: seq<Action>)
    ensures Inv(Exec(run))
    decreases |run|
  {
    hide Inv, Apply;
    if run == [] {
      InitInv();
    } else {
      RunKeeps(run[..|run| - 1]);
      StepKeeps(Exec(run[..|run| - 1]), run[|run| - 1]);
    }
  }

  /**
   * In every run, whatever is lost, delivered late or retried, what each side has acted upon is a
   * prefix of what the other side sent, in its order, each message once; and each side's count,
   * which is all it tells the other when resuming, is the length of that prefix.
   */
  lemma ExactlyOnceInOrder(run: seq<Action>)
    ensures var s := Exec(run);
            && s.server.loop.processed <= s.client.sent
            && s.client.processed <= s.server.writer.sent <= s.server.submitted
            && s.server.loop.received == |s.server.loop.processed|
            && s.client.received == |s.client.processed|
  {
    RunKeeps(run);
    var s := Exec(run);
    hide ServerShape, ClientShape, Requests, Exec;
    assert s.server.loop.processed <= s.server.loop.processed + Incoming(s.server, s.sockets) <= s.client.sent;
  }

  /**
   * Nothing is missing: once the client carries on over the socket that the session's writer and
   * reader use, whatever it has not processed is in flight on that socket, and so is whatever the
   * server has not; when both have drained, both sides have processed everything.
   */
  lemma NothingMissing(run: seq<Action>)
    requires var s := Exec(run);
             && s.client.current.Some? && s.client.current == s.server.writer.conn
             && s.server.readers != [] && s.client.current.value == ReadingSock(s.server) < |s.sockets|
             && Live(s.client) && s.sockets[s.client.current.value].ready != Done
    ensures var s := Exec(run);
            var k := s.sockets[s.client.current.value];
            && (!k.upCut ==> s.server.loop.processed + (InPipe(s.server) + Texts(k.up)) == s.client.sent)
            && (!k.downCut ==> s.client.processed + (Texts(k.down) + Texts(s.server.queue)) == s.server.submitted)
  {
    RunKeeps(run);
    var s := Exec(run);
    hide ServerShape, ClientShape, Requests, Exec;
    var k := s.sockets[s.client.current.value];
    assert (s.client.processed + Texts(k.down)) + Texts(s.server.queue) ==
           s.client.processed + (Texts(k.down) + Texts(s.server.queue));
  }
}
