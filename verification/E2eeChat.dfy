/**
 * Two-party encrypted chat within one session (static/e2ee.js): one direction of
 * it, from the sender's counter to the receiver's, through a server that may
 * withhold, repeat, reorder and make up whatever it likes.
 */
module E2eeChat {
  import opened Common
  import opened E2eeBytes

  datatype Message = Message(kind: Bytes, text: Bytes)

  /** What the server hands over, as it hands it over. */
  datatype Payload = Payload(
    wellFormed: bool,       // iv and ct are strings
    number: Option<int>,    // seq, if it is a safe integer
    kind: Option<Bytes>,    // kind, if it is a string
    iv: Bytes, ct: Bytes
  )

  /** A message shown to the user; missed is how many before it never came. */
  datatype Shown = Shown(number: int, kind: Bytes, text: Bytes, missed: int)

  /** Opening with the receiving key: initialisation vector, ciphertext, associated data. */
  type Opener = (Bytes, Bytes, Bytes) -> Option<Bytes>

  /** Both counters, and for each end all it has done; message number n is sent[n]. */
  datatype Chat = Chat(sendSeq: nat, sent: seq<Message>, recvSeq: int, shown: seq<Shown>)

  function NewChat(): Chat { Chat(0, [], -1, []) }

  /** Who talks to whom. */
  datatype Ends = Ends(sender: Bytes, recipient: Bytes)

  function Aad(e: Ends, number: nat, kind: Bytes): Bytes { ChatAAD(e.sender, e.recipient, number, kind) }

  /** sendChatNow; the session may be over before its turn or by the time the message is sealed. */
  function Send(c: Chat, m: Message, over: bool): Chat {
    if over then c else c.(sendSeq := c.sendSeq + 1, sent := c.sent + [m])
  }

  predicate Numbered(p: Payload, recvSeq: int) {
    p.number.Some? && recvSeq < p.number.value < POW48
  }

  function KindOf(p: Payload): Bytes { if p.kind.Some? then p.kind.value else [] }

  /** decryptChatNow; from is the sender that the server claims. */
  function Receive(e: Ends, open: Opener, c: Chat, from: Bytes, p: Payload, over: bool): Chat
    requires c.recvSeq >= -1
  {
    if from != e.sender || !p.wellFormed || !Numbered(p, c.recvSeq) then c else
    var n := p.number.value;
    var kind := KindOf(p);
    var text := open(p.iv, p.ct, Aad(e, n, kind));
    if text.None? || over then c
    else c.(recvSeq := n, shown := c.shown + [Shown(n, kind, text.value, n - c.recvSeq - 1)])
  }

  datatype Action =
    | Say(m: Message, sayOver: bool)
    | Deliver(from: Bytes, p: Payload, deliverOver: bool)

  /** The ciphertext opens, with whatever associated data, only to a message that the other end has sent with that data. */
  ghost predicate OpensOnlySent(e: Ends, open: Opener, sent: seq<Message>, p: Payload) {
    forall aad: Bytes {:trigger open(p.iv, p.ct, aad)} :: open(p.iv, p.ct, aad).Some? ==>
      exists i :: SentAs(e, sent, i, aad, open(p.iv, p.ct, aad).value)
  }

  predicate SentAs(e: Ends, sent: seq<Message>, i: int, aad: Bytes, text: Bytes) {
    0 <= i < |sent| && aad == Aad(e, i, sent[i].kind) && text == sent[i].text
  }

  function Step(e: Ends, open: Opener, c: Chat, a: Action): Chat
    requires c.recvSeq >= -1
  {
    match a
    case Say(m, over) => Send(c, m, over)
    case Deliver(from, p, over) => Receive(e, open, c, from, p, over)
  }

  function Exec(e: Ends, open: Opener, run: seq<Action>): (c: Chat)
    ensures c.recvSeq >= -1
  {
    if run == [] then NewChat() else Step(e, open, Exec(e, open, run[..|run| - 1]), run[|run| - 1])
  }

  /** No delivery of the run opens to anything that had not been sent by then. */
  ghost predicate NothingForged(e: Ends, open: Opener, run: seq<Action>) {
    forall k {:trigger run[k]} :: 0 <= k < |run| && run[k].Deliver? ==>
      OpensOnlySent(e, open, Exec(e, open, run[..k]).sent, run[k].p)
  }

  function Missed(shown: seq<Shown>): int {
    if shown == [] then 0 else Missed(shown[..|shown| - 1]) + shown[|shown| - 1].missed
  }

  /** What was shown is a subsequence of what was sent, without repeats, and its gaps are all reported. */
  ghost predicate InOrder(c: Chat) {
    && c.sendSeq == |c.sent| && -1 <= c.recvSeq < |c.sent|
    && c.recvSeq == (if c.shown == [] then -1 else c.shown[|c.shown| - 1].number)
    && (forall k :: 0 <= k < |c.shown| ==>
          0 <= c.shown[k].number < |c.sent| &&
          c.sent[c.shown[k].number] == Message(c.shown[k].kind, c.shown[k].text))
    && (forall j, k :: 0 <= j < k < |c.shown| ==> c.shown[j].number < c.shown[k].number)
    && |c.shown| + Missed(c.shown) == c.recvSeq + 1
  }

  lemma SameNumberAndKind(e: Ends, m: nat, k: Bytes, n: nat, k': Bytes)
    ensures Aad(e, m, k) == Aad(e, n, k') <==> m % POW48 == n % POW48 && k == k'
  {
    hide LengthPrefixed, Uint48;
    var x, y := LengthPrefixed(k), LengthPrefixed(k');
    SameAfter(CHAT_LABEL, LengthPrefixed(e.sender) + (LengthPrefixed(e.recipient) + (Uint48(m) + x)),
              LengthPrefixed(e.sender) + (LengthPrefixed(e.recipient) + (Uint48(n) + y)));
    SameAfter(LengthPrefixed(e.sender), LengthPrefixed(e.recipient) + (Uint48(m) + x),
              LengthPrefixed(e.recipient) + (Uint48(n) + y));
    SameAfter(LengthPrefixed(e.recipient), Uint48(m) + x, Uint48(n) + y);
    assert (Uint48(m) + x)[..6] == Uint48(m) && (Uint48(n) + y)[..6] == Uint48(n);
    assert (Uint48(m) + x)[6..] == x && (Uint48(n) + y)[6..] == y;
    Uint48Same(m, n);
    SameField(k, k');
  }

  lemma SameField(a: Bytes, b: Bytes)
    ensures LengthPrefixed(a) == LengthPrefixed(b) <==> a == b
  {
    assert LengthPrefixed(a)[2..] == a && LengthPrefixed(b)[2..] == b;
  }

  /** Showing a message that was sent, with a number beyond the last one. */
  lemma ShowKeeps(c: Chat, n: nat, kind: Bytes, text: Bytes)
    requires InOrder(c) && c.recvSeq < n < |c.sent| && c.sent[n] == Message(kind, text)
    ensures InOrder(c.(recvSeq := n, shown := c.shown + [Shown(n, kind, text, n - c.recvSeq - 1)]))
  {
    var d := c.(recvSeq := n, shown := c.shown + [Shown(n, kind, text, n - c.recvSeq - 1)]);
    assert d.shown[..|d.shown| - 1] == c.shown;
  }

  /** What opens under a number is the message sent under it. */
  lemma OpenedWasSent(e: Ends, open: Opener, sent: seq<Message>, p: Payload, n: nat, kind: Bytes)
    requires |sent| <= POW48 && n < POW48 && OpensOnlySent(e, open, sent, p) && open(p.iv, p.ct, Aad(e, n, kind)).Some?
    ensures n < |sent| && sent[n] == Message(kind, open(p.iv, p.ct, Aad(e, n, kind)).value)
  {
    hide Aad;
    var aad := Aad(e, n, kind);
    var i :| SentAs(e, sent, i, aad, open(p.iv, p.ct, aad).value);
    SameNumberAndKind(e, n, kind, i, sent[i].kind);
  }

  lemma ReceiveIs(e: Ends, open: Opener, c: Chat, from: Bytes, p: Payload, over: bool)
    requires c.recvSeq >= -1 && Receive(e, open, c, from, p, over) != c
    ensures Numbered(p, c.recvSeq)
    ensures var n := p.number.value; var text := open(p.iv, p.ct, Aad(e, n, KindOf(p)));
            && text.Some?
            && Receive(e, open, c, from, p, over)
               == c.(recvSeq := n, shown := c.shown + [Shown(n, KindOf(p), text.value, n - c.recvSeq - 1)])
  {
    hide Aad;
  }

  lemma ReceiveKeeps(e: Ends, open: Opener, c: Chat, from: Bytes, p: Payload, over: bool)
    requires InOrder(c) && |c.sent| <= POW48 && OpensOnlySent(e, open, c.sent, p)
    ensures InOrder(Receive(e, open, c, from, p, over))
  {
    assert c.recvSeq >= -1;
    hide Aad, InOrder, OpensOnlySent, Receive, KindOf;
    if Receive(e, open, c, from, p, over) != c {
      var n := p.number.value;
      ReceiveIs(e, open, c, from, p, over);
      OpenedWasSent(e, open, c.sent, p, n, KindOf(p));
      ShowKeeps(c, n, KindOf(p), open(p.iv, p.ct, Aad(e, n, KindOf(p))).value);
    }
  }

  /**
   * Whatever the server does: what is shown is a subsequence of what was sent, in
   * order and without repeats, and the messages shown and those reported missing
   * add up to the number of the last one shown.  Up to 2^48 messages in a session.
   */
  lemma {:induction false} ShownInOrder(e: Ends, open: Opener, run: seq<Action>)
    requires NothingForged(e, open, run) && |Exec(e, open, run).sent| <= POW48
    ensures InOrder(Exec(e, open, run))
  {
    if run != [] {
      var before, a := run[..|run| - 1], run[|run| - 1];
      ForgedEarlier(e, open, run);
      ShownInOrder(e, open, before);
      if a.Deliver? {
        assert run[..|run| - 1] == before;
        ReceiveKeeps(e, open, Exec(e, open, before), a.from, a.p, a.deliverOver);
      }
    }
  }

  lemma ForgedEarlier(e: Ends, open: Opener, run: seq<Action>)
    requires run != [] && NothingForged(e, open, run)
    ensures NothingForged(e, open, run[..|run| - 1])
    ensures |Exec(e, open, run[..|run| - 1]).sent| <= |Exec(e, open, run).sent|
  {
    var before := run[..|run| - 1];
    forall k | 0 <= k < |before| && before[k].Deliver?
      ensures OpensOnlySent(e, open, Exec(e, open, before[..k]).sent, before[k].p) {
      assert before[..k] == run[..k] && before[k] == run[k];
    }
  }

  /** Message number 2^48 has the associated data of message number 0. */
  lemma WrapsAround(e: Ends, kind: Bytes)
    ensures Aad(e, POW48, kind) == Aad(e, 0, kind)
  {
    SameNumberAndKind(e, POW48, kind, 0, kind);
  }

  function Repeated(n: nat, m: Message): seq<Action> { seq(n, _ => Say(m, false)) }

  lemma {:induction false} RepeatedSays(e: Ends, open: Opener, n: nat, m: Message)
    ensures Exec(e, open, Repeated(n, m)) == Chat(n, seq(n, _ => m), -1, [])
  {
    if n > 0 {
      assert Repeated(n, m)[..n - 1] == Repeated(n - 1, m);
      RepeatedSays(e, open, n - 1, m);
      assert seq(n - 1, _ => m) + [m] == seq(n, _ => m);
    }
  }

  /** 2^48 messages, one more, and then a delivery of that one under number 0. */
  function TooManySaid(m: Message, last: Message): seq<Action> {
    Repeated(POW48, m) + [Say(last, false)]
  }

  lemma TooManyState(e: Ends, open: Opener, m: Message, last: Message)
    ensures Exec(e, open, TooManySaid(m, last)) == Chat(POW48 + 1, seq(POW48, _ => m) + [last], -1, [])
  {
    RepeatedSays(e, open, POW48, m);
    assert TooManySaid(m, last)[..POW48] == Repeated(POW48, m);
  }

  /**
   * The bound is sharp: on a run of 2^48 + 1 messages nothing is forged, and yet the last one is shown
   * as the first.
   */
  lemma TooManyMessages(e: Ends, open: Opener, m: Message, last: Message, p: Payload)
    requires m.kind == last.kind && m.text != last.text
    requires p.wellFormed && p.number == Some(0) && p.kind == Some(last.kind)
    requires forall aad :: open(p.iv, p.ct, aad) == if aad == Aad(e, POW48, last.kind) then Some(last.text) else None
    ensures var run := TooManySaid(m, last) + [Deliver(e.sender, p, false)];
            NothingForged(e, open, run) && !InOrder(Exec(e, open, run))
  {
    hide Aad;
    var said := TooManySaid(m, last);
    var run := said + [Deliver(e.sender, p, false)];
    var c := Exec(e, open, said);
    TooManyState(e, open, m, last);
    WrapsAround(e, last.kind);
    assert run[..|said|] == said;
    assert SentAs(e, c.sent, POW48, Aad(e, POW48, last.kind), last.text);
    assert forall k :: 0 <= k < |said| ==> run[k] == said[k] && said[k].Say?;
    var d := Exec(e, open, run);
    assert d.shown == [Shown(0, last.kind, last.text, 0)] && d.sent[0] == m;
  }

  /** A delivery that opens under number n, in a session that lasts. */
  predicate OpensAs(e: Ends, open: Opener, a: Action, n: int) {
    && a.Deliver? && !a.deliverOver && a.from == e.sender && a.p.wellFormed && a.p.number == Some(n) && 0 <= n < POW48
    && open(a.p.iv, a.p.ct, Aad(e, n, KindOf(a.p))).Some?
  }

  predicate Showed(c: Chat, n: int) { exists i :: 0 <= i < |c.shown| && c.shown[i].number == n }

  /** It opens there as n before n, or anything later, has been shown. */
  ghost predicate InTime(e: Ends, open: Opener, run: seq<Action>, n: int, k: int) {
    0 <= k < |run| && OpensAs(e, open, run[k], n) && forall m :: Showed(Exec(e, open, run[..k]), m) ==> m < n
  }

  /** The receiving counter is the highest number shown. */
  ghost predicate CounterOK(c: Chat) {
    c.recvSeq >= -1 && (c.recvSeq >= 0 ==> Showed(c, c.recvSeq)) && forall m :: Showed(c, m) ==> 0 <= m <= c.recvSeq
  }

  lemma NothingShown()
    ensures CounterOK(NewChat()) && forall m :: !Showed(NewChat(), m)
  {
  }

  lemma SameShown(c: Chat, d: Chat)
    requires d.shown == c.shown && d.recvSeq == c.recvSeq
    ensures forall m :: Showed(d, m) <==> Showed(c, m)
    ensures CounterOK(c) ==> CounterOK(d)
  {
    assert forall m :: Showed(d, m) <==> Showed(c, m);
  }

  lemma ReceiveShows(e: Ends, open: Opener, c: Chat, a: Action, n: int)
    requires CounterOK(c) && a.Deliver?
    ensures var d := Step(e, open, c, a);
            && CounterOK(d)
            && (Showed(d, n) <==> Showed(c, n) || (OpensAs(e, open, a, n) && forall m :: Showed(c, m) ==> m < n))
  {
    hide Aad;
    var d := Step(e, open, c, a);
    forall i | 0 <= i < |c.shown| ensures Showed(d, c.shown[i].number) {
      assert d.shown[i] == c.shown[i];
    }
    if d != c {
      assert d.shown[|c.shown|].number == d.recvSeq;
      forall m | Showed(d, m) ensures m == d.recvSeq || Showed(c, m) {
        var i :| 0 <= i < |d.shown| && d.shown[i].number == m;
        assert i < |c.shown| ==> c.shown[i].number == m;
      }
    }
  }

  /**
   * Whatever the server does, forged or not: a message is shown exactly if it opens at some
   * delivery before its own number or a higher one has been shown.
   */
  lemma {:induction false} ShownUnlessLate(e: Ends, open: Opener, run: seq<Action>, n: int)
    ensures CounterOK(Exec(e, open, run))
    ensures Showed(Exec(e, open, run), n) <==> exists k :: InTime(e, open, run, n, k)
  {
    hide Receive, Aad, CounterOK, Showed;
    if run == [] {
      NothingShown();
    } else {
      var before, a := run[..|run| - 1], run[|run| - 1];
      ShownUnlessLate(e, open, before, n);
      forall k | 0 <= k < |before| ensures run[..k] == before[..k] {}
      forall k | 0 <= k < |before| ensures InTime(e, open, run, n, k) <==> InTime(e, open, before, n, k) {}
      var c := Exec(e, open, before);
      if a.Deliver? {
        ReceiveShows(e, open, c, a, n);
      } else {
        SameShown(c, Exec(e, open, run));
      }
      assert InTime(e, open, run, n, |before|) <==> OpensAs(e, open, a, n) && forall m :: Showed(c, m) ==> m < n;
    }
  }

  // A server that does its work

  /** The payload that message n goes out as. */
  predicate IsMessage(e: Ends, open: Opener, sent: seq<Message>, n: nat, p: Payload)
    requires n < |sent|
  {
    && p.wellFormed && p.number == Some(n) && p.kind == Some(sent[n].kind)
    && open(p.iv, p.ct, Aad(e, n, sent[n].kind)) == Some(sent[n].text)
  }

  function DeliverAll(e: Ends, open: Opener, c: Chat, ps: seq<Payload>): (d: Chat)
    requires c.recvSeq >= -1
    ensures d.recvSeq >= -1 && d.sent == c.sent
  {
    if ps == [] then c else Receive(e, open, DeliverAll(e, open, c, ps[..|ps| - 1]), e.sender, ps[|ps| - 1], false)
  }

  /** Delivered in order, every message is shown, and none is reported missing. */
  lemma {:induction false} AllShown(e: Ends, open: Opener, c: Chat, ps: seq<Payload>)
    requires c.recvSeq == -1 && c.shown == [] && |ps| <= |c.sent| <= POW48
    requires forall n :: 0 <= n < |ps| ==> IsMessage(e, open, c.sent, n, ps[n])
    ensures var d := DeliverAll(e, open, c, ps);
            && d.recvSeq == |ps| - 1 && |d.shown| == |ps|
            && forall n :: 0 <= n < |ps| ==> d.shown[n] == Shown(n, c.sent[n].kind, c.sent[n].text, 0)
  {
    hide Aad;
    if ps != [] {
      AllShown(e, open, c, ps[..|ps| - 1]);
      assert IsMessage(e, open, c.sent, |ps| - 1, ps[|ps| - 1]);
    }
  }

  // The counters as the E2EE object keeps them

  class ChatEnd {
    const sending: Ends     // this client to its peer
    const receiving: Ends   // the peer to this client
    var chatSendSeq: nat
    var chatRecvSeq: int
    ghost var sent: seq<Message>
    ghost var shown: seq<Shown>

    ghost function Outgoing(): Chat
      reads this
    {
      Chat(chatSendSeq, sent, -1, [])
    }

    ghost function Incoming(): Chat
      reads this
    {
      Chat(0, [], chatRecvSeq, shown)
    }

    constructor (me: Bytes, peer: Bytes)
      ensures Outgoing() == NewChat() && Incoming() == NewChat()
      ensures sending == Ends(me, peer) && receiving == Ends(peer, me)
    {
      sending, receiving := Ends(me, peer), Ends(peer, me);
      chatSendSeq, chatRecvSeq, sent, shown := 0, -1, [], [];
    }

    /** The number and associated data that a message is sealed with, unless the session is over. */
    method SendChatNow(m: Message, over: bool, overWhileSealing: bool) returns (out: Option<(nat, Bytes)>)
      modifies this
      ensures Outgoing() == Send(old(Outgoing()), m, over || overWhileSealing) && Incoming() == old(Incoming())
      ensures out == if over || overWhileSealing then None
                     else Some((old(chatSendSeq), Aad(sending, old(chatSendSeq), m.kind)))
    {
      if over {
        return None;
      }
      var n := chatSendSeq;
      var aad := Aad(sending, n, m.kind);
      if overWhileSealing {
        return None;
      }
      chatSendSeq, sent := n + 1, sent + [m];
      out := Some((n, aad));
    }

    method DecryptChatNow(open: Opener, from: Bytes, p: Payload, over: bool) returns (out: Option<Shown>)
      requires chatRecvSeq >= -1
      modifies this
      ensures chatRecvSeq >= -1 && Outgoing() == old(Outgoing())
      ensures Incoming() == Receive(receiving, open, old(Incoming()), from, p, over)
      ensures shown == old(shown) + (if out.Some? then [out.value] else [])
    {
      hide Aad;
      if from != receiving.sender || !p.wellFormed || p.number.None? {
        return None;
      }
      var n := p.number.value;
      if n <= chatRecvSeq || n >= POW48 {
        return None;
      }
      var kind := KindOf(p);
      var text := open(p.iv, p.ct, Aad(receiving, n, kind));
      if text.None? || over {
        return None;
      }
      out := Some(Shown(n, kind, text.value, n - chatRecvSeq - 1));
      chatRecvSeq, shown := n, shown + [out.value];
    }
  }
}
