/**
 * Chat inside the encryption session (sendChat and decryptChat of static/e2ee.js): both
 * queues, with the awaits of sealing and opening, while anything may happen to the session
 * meanwhile.  What is shown was sealed under the keys of the handshake it is shown in.
 */
module E2eeCalls {
  import opened Common
  import opened E2eeSession
  import opened E2eeRuns
  import E2eeSafety
  import B = E2eeBytes
  import Chat = E2eeChat

  /** Ids as bytes, and the cipher: key, initialisation vector, associated data, and text or ciphertext. */
  datatype Cipher = Cipher(
    utf8: Id -> B.Bytes,
    seal: (Bytes, B.Bytes, B.Bytes, B.Bytes) -> B.Bytes,
    open: (Bytes, B.Bytes, B.Bytes, B.Bytes) -> Option<B.Bytes>
  )

  /** A message waiting its turn, with the session it was written in. */
  datatype Written = Written(m: Chat.Message, gen: nat)

  /** A message being sealed, or sealed and sent. */
  datatype Sealing = Sealing(gen: nat, key: Bytes, to: Id, number: int, m: Chat.Message)

  /** A payload being opened. */
  datatype Opening = Opening(gen: nat, key: Bytes, from: Id, number: nat, p: Chat.Payload)

  /** A message shown to the user. */
  datatype Shown = Shown(o: Opening, text: B.Bytes, missed: int)

  datatype Call = Call(
    s: Session,
    toSeal: seq<Written>, sealing: Option<Sealing>,
    toOpen: seq<(Id, Chat.Payload)>, opening: Option<Opening>,
    sent: seq<Sealing>, shown: seq<Shown>
  )

  function NewCall(id: Id, supported: bool): Call { Call(NewSession(id, supported), [], None, [], None, [], []) }

  function Aad(k: Cipher, from: Id, to: Id, number: nat, kind: B.Bytes): B.Bytes {
    Chat.Aad(Chat.Ends(k.utf8(from), k.utf8(to)), number, kind)
  }

  predicate CanChat(s: Session) { s.phase == Established && s.chatSendKey.Some? && s.peer.Some? }

  datatype Event =
    | InSession(a: Action)                       // whatever happens to the session
    | Write(m: Chat.Message)                     // sendChat
    | Turn                                       // sendChatNow, up to its await
    | Sealed(fails: bool)                        // and from there on
    | Arrives(from: Id, p: Chat.Payload)         // decryptChat
    | Taken                                      // decryptChatNow, up to its await
    | Opened                                     // and from there on

  function TakeTurn(x: Call): Call {
    if x.sealing.Some? || x.toSeal == [] then x else
    var w, y := x.toSeal[0], x.(toSeal := x.toSeal[1..]);
    if w.gen != x.s.generation || !CanChat(x.s) then y
    else y.(sealing := Some(Sealing(x.s.generation, x.s.chatSendKey.value, x.s.peer.value, x.s.chatSendSeq, w.m)))
  }

  function SealDone(x: Call, fails: bool): Call {
    if x.sealing.None? then x else
    var w, y := x.sealing.value, x.(sealing := None);
    if fails || w.gen != x.s.generation || !CanChat(x.s) then y
    else y.(s := x.s.(chatSendSeq := w.number + 1), sent := x.sent + [w])
  }

  function Take(x: Call): Call {
    if x.opening.Some? || x.toOpen == [] then x else
    var (from, p) := x.toOpen[0];
    var s, y := x.s, x.(toOpen := x.toOpen[1..]);
    // the counter is never below -1, and so no number is negative
    if s.phase != Established || s.chatRecvKey.None? || s.peer != Some(from) || !p.wellFormed
       || !Chat.Numbered(p, s.chatRecvSeq) || p.number.value < 0
    then y
    else y.(opening := Some(Opening(s.generation, s.chatRecvKey.value, from, p.number.value, p)))
  }

  function OpenWith(k: Cipher, me: Id, o: Opening): Option<B.Bytes> {
    k.open(o.key, o.p.iv, Aad(k, o.from, me, o.number, Chat.KindOf(o.p)), o.p.ct)
  }

  function OpenDone(k: Cipher, x: Call): Call {
    if x.opening.None? then x else
    var o, y := x.opening.value, x.(opening := None);
    var text := OpenWith(k, x.s.id, o);
    if text.None? || o.gen != x.s.generation then y
    else y.(s := x.s.(chatRecvSeq := o.number), shown := x.shown + [Shown(o, text.value, o.number - x.s.chatRecvSeq - 1)])
  }

  ghost function Step(c: Crypto, k: Cipher, x: Call, e: Event): Call {
    match e
    case InSession(a) => x.(s := Apply(c, x.s, a))
    case Write(m) => if CanChat(x.s) then x.(toSeal := x.toSeal + [Written(m, x.s.generation)]) else x
    case Turn => TakeTurn(x)
    case Sealed(fails) => SealDone(x, fails)
    case Arrives(from, p) => x.(toOpen := x.toOpen + [(from, p)])
    case Taken => Take(x)
    case Opened => OpenDone(k, x)
  }

  ghost function Play(c: Crypto, k: Cipher, start: Call, run: seq<Event>): Call {
    if run == [] then start else Step(c, k, Play(c, k, start, run[..|run| - 1]), run[|run| - 1])
  }

  // What the session does to the chat keys and counters

  predicate Fresh(s: Session) { s.chatSendSeq == 0 && s.chatRecvSeq == -1 }

  predicate SameLine(s: Session, t: Session) {
    && t.generation == s.generation && t.chatSendKey == s.chatSendKey && t.chatRecvKey == s.chatRecvKey
    && t.chatSendSeq == s.chatSendSeq && t.chatRecvSeq == s.chatRecvSeq
  }

  /** Nothing changes, or everything starts anew in a later generation. */
  predicate Moved(s: Session, t: Session) {
    t.id == s.id && (SameLine(s, t) || (t.generation > s.generation && Fresh(t)))
  }

  /** Or the generation gets its keys, which it did not have yet. */
  predicate Carried(s: Session, t: Session) {
    Moved(s, t) || (t.id == s.id && t.generation == s.generation && s.chatSendKey.None? && Fresh(t))
  }

  lemma ResetMoved(s: Session)
    ensures Moved(s, ResetPeer(s)) && Moved(s, Fail(s)) && ResetPeer(s).users == s.users
  {
  }

  lemma MovedOn(s: Session, t: Session, u: Session)
    requires Moved(s, t) && Moved(t, u)
    ensures Moved(s, u)
  {
  }

  lemma DowngradeMoved(s: Session, peer: Id)
    ensures Moved(s, Downgrade(s))
    ensures Moved(s, Downgrade(s.(peer := Some(peer))))
    ensures Moved(s, Downgrade(Announce(s.(peer := Some(peer)))))
    ensures Moved(s, Downgrade(Announce(s.(transformFailed := true))))
  {
  }

  lemma StartMoved(s: Session, peer: Id)
    ensures Moved(s, StartWith(s, peer))
  {
    hide Before;
  }

  lemma RecomputeMoved(s: Session)
    ensures Moved(s, Recompute(s))
  {
    hide StartWith, ResetPeer, Downgrade, Announce, Moved;
    ResetMoved(s);
    var r := ResetPeer(s);
    DowngradeMoved(r, []);
    IdleMoved(r);
    MovedOn(s, r, Downgrade(r));
    MovedOn(s, r, r.(phase := Idle));
    if |s.users| == 1 {
      DowngradeMoved(s, TheOnly(s.users));
      StartMoved(s, TheOnly(s.users));
    }
  }

  lemma IdleMoved(s: Session)
    ensures Moved(s, s.(phase := Idle))
  {
  }

  lemma HandleMoved(s: Session, p: Payload)
    ensures Moved(s, Handle(s, p))
  {
    hide BeginFinalize, Fail, Moved, Answered, StoreKey, StoreCommit, Say;
    ResetMoved(s);
    LoggedMoved(s, s.tasks, s.log);
    match p {
      case NoCrypto =>
      case Hello(_) =>
        if s.myCommit.Some? {
          SayMoved(s, CommitTo(PROTOCOL_VERSION, s.myCommit.value));
        }
      case CommitTo(_, commit) => CommitMoved(s, commit);
      case Dh(_, pub) =>
        KeyMoved(s, pub);
        LoggedMoved(s, s.tasks + [Hash(pub)], s.log);
    }
  }

  lemma LoggedMoved(s: Session, tasks: seq<Task>, log: seq<E2eeSession.Event>)
    ensures Moved(s, s.(tasks := tasks)) && Moved(s, s) && Moved(s, s.(log := log))
  {
  }

  lemma SayMoved(s: Session, p: Payload)
    ensures Moved(s, Say(s, p))
  {
  }

  lemma CommitMoved(s: Session, commit: Bytes)
    ensures Moved(s, Answered(StoreCommit(s, commit)))
  {
  }

  lemma KeyMoved(s: Session, pub: Bytes)
    ensures Moved(s, BeginFinalize(Answered(StoreKey(s, pub)))) && Moved(s, BeginFinalize(StoreKey(s, pub)))
  {
    hide BeginFinalize;
    E2eeSafety.BeginFollows(Answered(StoreKey(s, pub)));
    E2eeSafety.BeginFollows(StoreKey(s, pub));
  }

  lemma MessageMoved(s: Session, from: Id, p: Payload)
    ensures Moved(s, OnMessage(s, from, p))
  {
    hide StartWith, Handle, Downgrade, Announce;
    HandleMoved(s, p);
    StartMoved(s, from);
    DowngradeMoved(s, from);
  }

  lemma HashMoved(c: Crypto, s: Session, pub: Bytes)
    ensures Moved(s, RunHash(c, s, pub))
  {
    hide BeginFinalize, Fail, Moved, StoreKey;
    ResetMoved(s);
    LoggedMoved(s, s.tasks, s.log);
    KeyMoved(s, pub);
  }

  lemma RunStartMoved(c: Crypto, s: Session, t: Task, newKey: Bytes)
    requires t.Start?
    ensures Moved(s, RunStart(c, s, t, newKey))
  {
    hide Introduce, TakeOwnKey, Moved;
    LoggedMoved(s, s.tasks + [t.(at := 1, keyPair := newKey)], s.log);
    LoggedMoved(s, s.tasks + [t.(at := 2)], s.log);
    IntroduceMoved(c, s, t.keyPair);
  }

  lemma IntroduceMoved(c: Crypto, s: Session, keyPair: Bytes)
    ensures Moved(s, Introduce(TakeOwnKey(c, s, keyPair)))
  {
  }

  /** finalize touches the chat keys at one await only. */
  lemma FinalizeCarried(c: Crypto, s: Session, t: Task)
    requires t.Finalize? && (t.step.ChatRecv? && t.m.gen == s.generation ==> s.chatSendKey.None?)
    ensures Carried(s, RunFinalize(c, s, t))
  {
    hide RunFinalize, Carried;
    match t.step {
      case ChatRecv => KeysCarried(c, s, t);
      case KeyFor(_) => StreamCarried(c, s, t);
      case Deriving => StreamCarried(c, s, t);
      case Agreeing => AgreeCarried(c, s, t);
      case _ => WaitCarried(c, s, t);
    }
  }

  lemma KeysCarried(c: Crypto, s: Session, t: Task)
    requires t.Finalize? && t.step.ChatRecv? && (t.m.gen == s.generation ==> s.chatSendKey.None?)
    ensures Carried(s, RunFinalize(c, s, t))
  {
  }

  lemma StreamCarried(c: Crypto, s: Session, t: Task)
    requires t.Finalize? && (t.step.KeyFor? || t.step.Deriving?)
    ensures Carried(s, RunFinalize(c, s, t))
  {
    hide StreamId;
  }

  lemma AgreeCarried(c: Crypto, s: Session, t: Task)
    requires t.Finalize? && t.step.Agreeing?
    ensures Carried(s, RunFinalize(c, s, t))
  {
  }

  lemma WaitCarried(c: Crypto, s: Session, t: Task)
    requires t.Finalize? && (t.step.Importing? || t.step.Transcribing? || t.step.ChatSend?)
    ensures Carried(s, RunFinalize(c, s, t))
  {
    hide Salt;
  }

  lemma TaskCarried(c: Crypto, s: Session, i: nat, newKey: Bytes)
    requires E2eeSafety.Inv(c, s) && i < |s.tasks|
    ensures Carried(s, RunTask(c, s, i, newKey))
  {
    NoKeysYet(c, s, i);
    hide RunStart, RunFinalize, RunHash, Handle, Without, E2eeSafety.Inv;
    var t, s' := s.tasks[i], s.(tasks := Without(s.tasks, i));
    match t {
      case Start(_, _, _, _) => RunStartMoved(c, s', t, newKey);
      case Finalize(_, _, _, _) => FinalizeCarried(c, s', t);
      case Hash(pub) => HashMoved(c, s', pub);
      case Continue(_, p) => HandleMoved(s', p);
    }
  }

  /** A run of this generation that is about to set the chat keys finds none. */
  lemma NoKeysYet(c: Crypto, s: Session, i: nat)
    requires E2eeSafety.Inv(c, s) && i < |s.tasks|
    ensures var t := s.tasks[i]; t.Finalize? && t.step.ChatRecv? && t.m.gen == s.generation ==> s.chatSendKey.None?
  {
    hide E2eeSafety.DerivedOK, E2eeSafety.LogOK, E2eeSafety.PhaseOK, E2eeSafety.PeerOK, E2eeSafety.Honoured;
    assert E2eeSafety.TaskOK(c, s, s.tasks[i]);
  }

  lemma StepCarried(c: Crypto, s: Session, a: Action)
    requires E2eeSafety.Inv(c, s)
    ensures Carried(s, Apply(c, s, a))
  {
    hide E2eeSafety.Inv, Recompute, OnMessage, RunTask, ResetPeer, Downgrade, Announce, Without, SameLine, Fresh;
    match a {
      case AddUser(id) => UsersCarried(s, s.(users := s.users + {id}));
      case DelUser(id) =>
        var s' := s.(users := s.users - {id});
        UsersCarried(s, s');
        ResetMoved(s');
        RecomputeMoved(ResetPeer(s'));
        MovedOn(s', ResetPeer(s'), Recompute(ResetPeer(s')));
        Elsewhere(s, s', Recompute(ResetPeer(s')));
      case SetRequire(b) => UsersCarried(s, s.(require := b));
      case Message(from, p) => MessageMoved(s, from, p);
      case AttachFails => DowngradeMoved(s, []);
      case ContinueInClear => Elsewhere(s, Apply(c, s, a), Apply(c, s, a));
      case Run(i, newKey) =>
        if i < |s.tasks| {
          TaskCarried(c, s, i, newKey);
        }
      case Reject(i) =>
        if i < |s.tasks| {
          LoggedMoved(s, Without(s.tasks, i), s.log);
        }
    }
    LoggedMoved(s, s.tasks, s.log);
  }

  lemma UsersCarried(s: Session, t: Session)
    requires t == s.(users := t.users, require := t.require)
    ensures Moved(s, Recompute(t))
  {
    hide Recompute;
    RecomputeMoved(t);
  }

  lemma Elsewhere(s: Session, t: Session, u: Session)
    requires t == s.(users := t.users, require := t.require, clearAgreed := t.clearAgreed, phase := t.phase)
    ensures Moved(t, u) ==> Moved(s, u)
    ensures Moved(s, t)
  {
  }

  // What holds of a call

  /** How many messages went out in a generation. */
  function Count(sent: seq<Sealing>, gen: nat): nat {
    if sent == [] then 0 else
    var last := sent[|sent| - 1];
    Count(sent[..|sent| - 1], gen) + if last.gen == gen then 1 else 0
  }

  /** The number of the last message shown in a generation. */
  function LastIn(shown: seq<Shown>, gen: nat): int {
    if shown == [] then -1 else
    var last := shown[|shown| - 1];
    if last.o.gen == gen then last.o.number else LastIn(shown[..|shown| - 1], gen)
  }

  predicate SentOK(s: Session, sent: seq<Sealing>, i: nat)
    requires i < |sent|
  {
    && sent[i].gen <= s.generation && sent[i].number == Count(sent[..i], sent[i].gen)
    && (sent[i].gen == s.generation ==> s.chatSendKey == Some(sent[i].key))
  }

  predicate SealingOK(s: Session, w: Sealing) {
    w.gen <= s.generation && (w.gen == s.generation ==> s.chatSendKey == Some(w.key) && w.number == s.chatSendSeq)
  }

  ghost predicate Sends(s: Session, sealing: Option<Sealing>, sent: seq<Sealing>) {
    && (forall i :: 0 <= i < |sent| ==> SentOK(s, sent, i))
    && s.chatSendSeq == Count(sent, s.generation)
    && (sealing.Some? ==> SealingOK(s, sealing.value))
  }

  predicate ShownOK(k: Cipher, s: Session, shown: seq<Shown>, i: nat)
    requires i < |shown|
  {
    var e := shown[i];
    && e.o.gen <= s.generation && e.o.number < B.POW48
    && e.missed == e.o.number - LastIn(shown[..i], e.o.gen) - 1 && e.missed >= 0
    && (e.o.gen == s.generation ==> s.chatRecvKey == Some(e.o.key))
    && OpenWith(k, s.id, e.o) == Some(e.text)
  }

  predicate OpeningOK(s: Session, o: Opening) {
    && o.gen <= s.generation && o.number < B.POW48
    && (o.gen == s.generation ==> s.chatRecvKey == Some(o.key) && s.chatRecvSeq < o.number)
  }

  ghost predicate Shows(k: Cipher, s: Session, opening: Option<Opening>, shown: seq<Shown>) {
    && (forall i :: 0 <= i < |shown| ==> ShownOK(k, s, shown, i))
    && s.chatRecvSeq == LastIn(shown, s.generation)
    && (opening.Some? ==> OpeningOK(s, opening.value))
  }

  ghost predicate CallOK(c: Crypto, k: Cipher, x: Call) {
    && E2eeSafety.Inv(c, x.s) && (x.s.chatSendKey.None? ==> Fresh(x.s))
    && Sends(x.s, x.sealing, x.sent) && Shows(k, x.s, x.opening, x.shown)
  }

  lemma {:induction false} NoneSent(sent: seq<Sealing>, gen: nat)
    requires forall i :: 0 <= i < |sent| ==> sent[i].gen != gen
    ensures Count(sent, gen) == 0
  {
    if sent != [] {
      NoneSent(sent[..|sent| - 1], gen);
    }
  }

  lemma {:induction false} NoneShown(shown: seq<Shown>, gen: nat)
    requires forall i :: 0 <= i < |shown| ==> shown[i].o.gen != gen
    ensures LastIn(shown, gen) == -1
  {
    if shown != [] {
      NoneShown(shown[..|shown| - 1], gen);
    }
  }

  lemma SendsCarried(s: Session, t: Session, sealing: Option<Sealing>, sent: seq<Sealing>)
    requires Sends(s, sealing, sent) && Carried(s, t) && (s.chatSendKey.None? ==> Fresh(s))
    ensures Sends(t, sealing, sent)
  {
    forall i | 0 <= i < |sent| ensures SentOK(t, sent, i) {
      assert SentOK(s, sent, i);
    }
    if t.generation > s.generation {
      forall i | 0 <= i < |sent| ensures sent[i].gen != t.generation {
        assert SentOK(s, sent, i);
      }
      NoneSent(sent, t.generation);
    }
  }

  lemma ShowsCarried(k: Cipher, s: Session, t: Session, opening: Option<Opening>, shown: seq<Shown>)
    requires Shows(k, s, opening, shown) && Carried(s, t)
    requires (s.chatSendKey.None? ==> Fresh(s)) && (s.chatSendKey.None? <==> s.chatRecvKey.None?)
    ensures Shows(k, t, opening, shown)
  {
    hide OpenWith;
    forall i | 0 <= i < |shown| ensures ShownOK(k, t, shown, i) {
      assert ShownOK(k, s, shown, i);
    }
    if t.generation > s.generation {
      forall i | 0 <= i < |shown| ensures shown[i].o.gen != t.generation {
        assert ShownOK(k, s, shown, i);
      }
      NoneShown(shown, t.generation);
    }
  }

  lemma BothKeys(c: Crypto, s: Session)
    requires E2eeSafety.Inv(c, s)
    ensures s.chatSendKey.None? <==> s.chatRecvKey.None?
  {
    hide E2eeSafety.TasksOK, E2eeSafety.LogOK, E2eeSafety.PhaseOK, E2eeSafety.PeerOK;
  }

  /** The counters are no part of what the session's invariant speaks of. */
  lemma CountersFree(c: Crypto, s: Session, t: Session)
    requires E2eeSafety.Inv(c, s) && t == s.(chatSendSeq := t.chatSendSeq, chatRecvSeq := t.chatRecvSeq)
    ensures E2eeSafety.Inv(c, t)
  {
    hide E2eeSafety.Core;
    E2eeSafety.ElsewhereCore(c, s, t);
    if E2eeSafety.CommitLogged(s) {
      var i :| E2eeSafety.CommitLoggedAt(s, i);
      assert E2eeSafety.CommitLoggedAt(t, i);
    }
  }

  lemma SessionKeeps(c: Crypto, k: Cipher, x: Call, a: Action)
    requires CallOK(c, k, x)
    ensures CallOK(c, k, x.(s := Apply(c, x.s, a)))
  {
    hide E2eeSafety.Inv, Apply, Sends, Shows;
    StepCarried(c, x.s, a);
    E2eeSafety.StepInv(c, x.s, a);
    BothKeys(c, x.s);
    SendsCarried(x.s, Apply(c, x.s, a), x.sealing, x.sent);
    ShowsCarried(k, x.s, Apply(c, x.s, a), x.opening, x.shown);
  }

  lemma SealKeeps(c: Crypto, k: Cipher, x: Call, fails: bool)
    requires CallOK(c, k, x)
    ensures CallOK(c, k, SealDone(x, fails))
  {
    hide E2eeSafety.Inv, ShownOK;
    var y := SealDone(x, fails);
    if y.sent != x.sent {
      CountersFree(c, x.s, y.s);
      forall i | 0 <= i < |y.sent| ensures SentOK(y.s, y.sent, i) {
        assert y.sent[..i] == if i < |x.sent| then x.sent[..i] else x.sent;
        assert i < |x.sent| ==> SentOK(x.s, x.sent, i);
      }
      assert y.sent[..|y.sent| - 1] == x.sent;
      ShowsSame(k, x.s, y.s, x.opening, x.shown);
    }
  }

  lemma ShowsSame(k: Cipher, s: Session, t: Session, opening: Option<Opening>, shown: seq<Shown>)
    requires Shows(k, s, opening, shown)
    requires t.id == s.id && t.generation == s.generation && t.chatRecvKey == s.chatRecvKey && t.chatRecvSeq == s.chatRecvSeq
    ensures Shows(k, t, opening, shown)
  {
    hide OpenWith;
    forall i | 0 <= i < |shown| ensures ShownOK(k, t, shown, i) {
      assert ShownOK(k, s, shown, i);
    }
  }

  lemma SendsSame(s: Session, t: Session, sealing: Option<Sealing>, sent: seq<Sealing>)
    requires Sends(s, sealing, sent)
    requires t.generation == s.generation && t.chatSendKey == s.chatSendKey && t.chatSendSeq == s.chatSendSeq
    ensures Sends(t, sealing, sent)
  {
    forall i | 0 <= i < |sent| ensures SentOK(t, sent, i) {
      assert SentOK(s, sent, i);
    }
  }

  lemma OpenKeeps(c: Crypto, k: Cipher, x: Call)
    requires CallOK(c, k, x)
    ensures CallOK(c, k, OpenDone(k, x))
  {
    hide E2eeSafety.Inv, SentOK, OpenWith;
    BothKeys(c, x.s);
    var y := OpenDone(k, x);
    if y.shown != x.shown {
      CountersFree(c, x.s, y.s);
      forall i | 0 <= i < |y.shown| ensures ShownOK(k, y.s, y.shown, i) {
        assert y.shown[..i] == if i < |x.shown| then x.shown[..i] else x.shown;
        assert i < |x.shown| ==> ShownOK(k, x.s, x.shown, i);
      }
      assert y.shown[..|y.shown| - 1] == x.shown;
      SendsSame(x.s, y.s, x.sealing, x.sent);
    }
  }

  lemma CallKeeps(c: Crypto, k: Cipher, x: Call, e: Event)
    requires CallOK(c, k, x)
    ensures CallOK(c, k, Step(c, k, x, e))
  {
    hide E2eeSafety.Inv, SentOK, ShownOK, SealDone, OpenDone;
    match e {
      case InSession(a) => SessionKeeps(c, k, x, a);
      case Sealed(fails) => SealKeeps(c, k, x, fails);
      case Opened => OpenKeeps(c, k, x);
      case _ =>
    }
  }

  // On every run

  lemma {:induction false} RunOK(c: Crypto, k: Cipher, id: Id, supported: bool, run: seq<Event>)
    ensures var x := Play(c, k, NewCall(id, supported), run); CallOK(c, k, x) && x.s.id == id
  {
    hide Step, CallOK;
    if run == [] {
      NewCallOK(c, k, id, supported);
    } else {
      RunOK(c, k, id, supported, run[..|run| - 1]);
      CallKeeps(c, k, Play(c, k, NewCall(id, supported), run[..|run| - 1]), run[|run| - 1]);
      SameId(c, k, Play(c, k, NewCall(id, supported), run[..|run| - 1]), run[|run| - 1]);
    }
  }

  lemma NewCallOK(c: Crypto, k: Cipher, id: Id, supported: bool)
    ensures CallOK(c, k, NewCall(id, supported))
  {
    hide E2eeSafety.Inv;
    NewInv(c, id, supported);
  }

  lemma SameId(c: Crypto, k: Cipher, x: Call, e: Event)
    requires CallOK(c, k, x)
    ensures Step(c, k, x, e).s.id == x.s.id
  {
    hide Apply, E2eeSafety.Inv, Sends, Shows;
    match e {
      case InSession(a) => StepCarried(c, x.s, a);
      case _ =>
    }
  }

  /** The session is encrypted with the sender, and this is its key to open with. */
  ghost predicate Hears(c: Crypto, s: Session, o: Opening) {
    s.phase == Established && SecuredBy(c, s) && s.generation == o.gen && s.peer == Some(o.from) && s.chatRecvKey == Some(o.key)
  }

  /** It is encrypted with the recipient, and this is its key to seal with. */
  ghost predicate Speaks(c: Crypto, s: Session, w: Sealing) {
    s.phase == Established && SecuredBy(c, s) && s.generation == w.gen && s.peer == Some(w.to) && s.chatSendKey == Some(w.key)
  }

  ghost predicate OpensAt(c: Crypto, k: Cipher, start: Call, run: seq<Event>, o: Opening, j: int) {
    0 <= j <= |run| && Hears(c, Play(c, k, start, run[..j]).s, o)
  }

  ghost predicate SealsAt(c: Crypto, k: Cipher, start: Call, run: seq<Event>, w: Sealing, j: int) {
    0 <= j <= |run| && Speaks(c, Play(c, k, start, run[..j]).s, w)
  }

  ghost predicate Opens(c: Crypto, k: Cipher, start: Call, run: seq<Event>, o: Opening) {
    exists j :: OpensAt(c, k, start, run, o, j)
  }

  ghost predicate Seals(c: Crypto, k: Cipher, start: Call, run: seq<Event>, w: Sealing) {
    exists j :: SealsAt(c, k, start, run, w, j)
  }

  lemma StillSo(c: Crypto, k: Cipher, start: Call, run: seq<Event>)
    requires run != []
    ensures forall o :: Opens(c, k, start, run[..|run| - 1], o) ==> Opens(c, k, start, run, o)
    ensures forall w :: Seals(c, k, start, run[..|run| - 1], w) ==> Seals(c, k, start, run, w)
  {
    hide Play, Hears, Speaks;
    var before := run[..|run| - 1];
    assert forall j :: 0 <= j <= |before| ==> run[..j] == before[..j];
    forall o | Opens(c, k, start, before, o) ensures Opens(c, k, start, run, o) {
      var j :| OpensAt(c, k, start, before, o, j);
      assert OpensAt(c, k, start, run, o, j);
    }
    forall w | Seals(c, k, start, before, w) ensures Seals(c, k, start, run, w) {
      var j :| SealsAt(c, k, start, before, w, j);
      assert SealsAt(c, k, start, run, w, j);
    }
  }

  /** Everything that is, or has been, in hand was taken up in an encrypted call under its keys. */
  ghost predicate AllUnder(c: Crypto, k: Cipher, start: Call, run: seq<Event>) {
    var x := Play(c, k, start, run);
    && (forall i :: 0 <= i < |x.shown| ==> Opens(c, k, start, run, x.shown[i].o))
    && (forall i :: 0 <= i < |x.sent| ==> Seals(c, k, start, run, x.sent[i]))
    && (x.opening.Some? ==> Opens(c, k, start, run, x.opening.value))
    && (x.sealing.Some? ==> Seals(c, k, start, run, x.sealing.value))
  }

  /** What one event can put in hand. */
  lemma StepTakesUp(c: Crypto, k: Cipher, x: Call, e: Event)
    requires CallOK(c, k, x)
    ensures var y := Step(c, k, x, e);
            && (y.opening == x.opening || y.opening.None? || Hears(c, x.s, y.opening.value))
            && (y.sealing == x.sealing || y.sealing.None? || Speaks(c, x.s, y.sealing.value))
            && (forall i :: 0 <= i < |y.shown| ==> (i < |x.shown| && y.shown[i] == x.shown[i]) || Some(y.shown[i].o) == x.opening)
            && (forall i :: 0 <= i < |y.sent| ==> (i < |x.sent| && y.sent[i] == x.sent[i]) || Some(y.sent[i]) == x.sealing)
  {
    hide E2eeSafety.Inv, Apply, SecuredBy, Sends, Shows;
    if x.s.phase == Established {
      InvSecures(c, x.s);
    }
  }

  lemma {:induction false} RunUnder(c: Crypto, k: Cipher, id: Id, supported: bool, run: seq<Event>)
    ensures AllUnder(c, k, NewCall(id, supported), run)
  {
    hide Step, Hears, Speaks, CallOK, Opens, Seals;
    if run != [] {
      var start, before, e := NewCall(id, supported), run[..|run| - 1], run[|run| - 1];
      var x, y := Play(c, k, start, before), Play(c, k, start, run);
      RunUnder(c, k, id, supported, before);
      RunOK(c, k, id, supported, before);
      StepTakesUp(c, k, x, e);
      StillSo(c, k, start, run);
      TakenUp(c, k, start, run, y);
    }
  }

  lemma TakenUp(c: Crypto, k: Cipher, start: Call, run: seq<Event>, y: Call)
    requires run != []
    ensures var s := Play(c, k, start, run[..|run| - 1]).s;
            && (y.opening.Some? && Hears(c, s, y.opening.value) ==> Opens(c, k, start, run, y.opening.value))
            && (y.sealing.Some? && Speaks(c, s, y.sealing.value) ==> Seals(c, k, start, run, y.sealing.value))
  {
    hide Hears, Speaks, Play;
    var s := Play(c, k, start, run[..|run| - 1]).s;
    if y.opening.Some? && Hears(c, s, y.opening.value) {
      assert OpensAt(c, k, start, run, y.opening.value, |run| - 1);
    }
    if y.sealing.Some? && Speaks(c, s, y.sealing.value) {
      assert SealsAt(c, k, start, run, y.sealing.value, |run| - 1);
    }
  }

  /**
   * On every run, however sealing and opening interleave with what happens to the session:
   * whatever was shown opens under the receiving key that an encrypted call with its sender
   * had, in the generation it belongs to, and whatever went out was given the sending key.
   */
  lemma ShownUnderItsHandshake(c: Crypto, k: Cipher, id: Id, supported: bool, run: seq<Event>)
    ensures var start := NewCall(id, supported); var x := Play(c, k, start, run);
            && (forall i :: 0 <= i < |x.shown| ==>
                  Opens(c, k, start, run, x.shown[i].o) && OpenWith(k, id, x.shown[i].o) == Some(x.shown[i].text))
            && (forall i :: 0 <= i < |x.sent| ==> Seals(c, k, start, run, x.sent[i]))
  {
    hide Play, Opens, Seals, OpenWith, E2eeSafety.Inv, Sends;
    var x := Play(c, k, NewCall(id, supported), run);
    RunOK(c, k, id, supported, run);
    RunUnder(c, k, id, supported, run);
    forall i | 0 <= i < |x.shown| ensures OpenWith(k, id, x.shown[i].o) == Some(x.shown[i].text) {
      assert ShownOK(k, x.s, x.shown, i);
    }
  }

  /** The user wrote it here, in an encrypted call of that generation. */
  ghost predicate WroteAt(c: Crypto, k: Cipher, start: Call, run: seq<Event>, w: Written, j: int) {
    0 <= j < |run| && run[j] == Write(w.m) && var s := Play(c, k, start, run[..j]).s; CanChat(s) && s.generation == w.gen
  }

  ghost predicate Wrote(c: Crypto, k: Cipher, start: Call, run: seq<Event>, w: Written) {
    exists j :: WroteAt(c, k, start, run, w, j)
  }

  function AsWritten(w: Sealing): Written { Written(w.m, w.gen) }

  ghost predicate AllWrote(c: Crypto, k: Cipher, start: Call, run: seq<Event>) {
    var x := Play(c, k, start, run);
    && (forall i :: 0 <= i < |x.toSeal| ==> Wrote(c, k, start, run, x.toSeal[i]))
    && (x.sealing.Some? ==> Wrote(c, k, start, run, AsWritten(x.sealing.value)))
    && (forall i :: 0 <= i < |x.sent| ==> Wrote(c, k, start, run, AsWritten(x.sent[i])))
  }

  /** What is in hand after an event was in hand before it, or has just been written. */
  lemma StepWrites(c: Crypto, k: Cipher, x: Call, e: Event)
    ensures var y := Step(c, k, x, e);
            && (forall i :: 0 <= i < |y.toSeal| ==>
                  y.toSeal[i] in x.toSeal || (e == Write(y.toSeal[i].m) && CanChat(x.s) && y.toSeal[i].gen == x.s.generation))
            && (y.sealing.Some? ==> y.sealing == x.sealing || AsWritten(y.sealing.value) in x.toSeal)
            && (forall i :: 0 <= i < |y.sent| ==> y.sent[i] in x.sent || Some(y.sent[i]) == x.sealing)
  {
    hide Apply, OpenWith;
  }

  lemma WroteStill(c: Crypto, k: Cipher, start: Call, run: seq<Event>)
    requires run != []
    ensures forall w :: Wrote(c, k, start, run[..|run| - 1], w) ==> Wrote(c, k, start, run, w)
  {
    hide Play;
    var before := run[..|run| - 1];
    assert forall j :: 0 <= j <= |before| ==> run[..j] == before[..j];
    forall w | Wrote(c, k, start, before, w) ensures Wrote(c, k, start, run, w) {
      var j :| WroteAt(c, k, start, before, w, j);
      assert WroteAt(c, k, start, run, w, j);
    }
  }

  /**
   * On every run: whatever goes out was written in that very call; what was written in a call that is
   * over by its turn goes out in no later one.
   */
  lemma {:induction false} SentInItsCall(c: Crypto, k: Cipher, id: Id, supported: bool, run: seq<Event>)
    ensures AllWrote(c, k, NewCall(id, supported), run)
  {
    hide Step, Wrote, CanChat;
    if run != [] {
      var start, before, e := NewCall(id, supported), run[..|run| - 1], run[|run| - 1];
      var x, y := Play(c, k, start, before), Play(c, k, start, run);
      SentInItsCall(c, k, id, supported, before);
      StepWrites(c, k, x, e);
      WroteStill(c, k, start, run);
      forall i | 0 <= i < |y.toSeal| ensures Wrote(c, k, start, run, y.toSeal[i]) {
        if y.toSeal[i] !in x.toSeal {
          WrittenNow(c, k, start, run, y.toSeal[i]);
        }
      }
    }
  }

  lemma WrittenNow(c: Crypto, k: Cipher, start: Call, run: seq<Event>, w: Written)
    requires run != [] && run[|run| - 1] == Write(w.m)
    requires var s := Play(c, k, start, run[..|run| - 1]).s; CanChat(s) && s.generation == w.gen
    ensures Wrote(c, k, start, run, w)
  {
    hide Play;
    assert WroteAt(c, k, start, run, w, |run| - 1);
  }

  /** In a call that goes on, with nothing else in hand: a message that is written goes out, exactly if the call is encrypted. */
  lemma SpokenIff(c: Crypto, k: Cipher, x: Call, m: Chat.Message)
    requires CallOK(c, k, x) && x.toSeal == [] && x.sealing.None?
    ensures var y := Step(c, k, Step(c, k, Step(c, k, x, Write(m)), Turn), Sealed(false)); var s := x.s;
            if s.phase == Established
            then && s.chatSendKey.Some? && s.peer.Some?
                 && y.sent == x.sent + [Sealing(s.generation, s.chatSendKey.value, s.peer.value, s.chatSendSeq, m)]
                 && y.s.chatSendSeq == s.chatSendSeq + 1
            else y.sent == x.sent && y.s == s
  {
    hide E2eeSafety.Inv, SecuredBy, Sends, Shows;
    if x.s.phase == Established {
      InvSecures(c, x.s);
      SecuredKeys(c, x.s);
    }
  }

  lemma SecuredKeys(c: Crypto, s: Session)
    requires SecuredBy(c, s)
    ensures s.chatSendKey.Some? && s.chatRecvKey.Some? && s.peer.Some?
  {
    hide WorkerKeyed, Before, TheOnly, TranscriptOf;
  }

  /**
   * And a message that arrives is shown, under its number and with what is missing before it, exactly if the
   * call is encrypted, it comes from the peer, is well formed, has a number that is new and below 2^48, and opens.
   */
  lemma HeardIff(c: Crypto, k: Cipher, x: Call, from: Id, p: Chat.Payload)
    requires CallOK(c, k, x) && x.toOpen == [] && x.opening.None?
    ensures var y := Step(c, k, Step(c, k, Step(c, k, x, Arrives(from, p)), Taken), Opened); var s := x.s;
            if s.phase == Established && s.peer == Some(from) && p.wellFormed && p.number.Some? && s.chatRecvSeq < p.number.value < B.POW48
               && s.chatRecvKey.Some? && p.number.value >= 0
               && OpenWith(k, s.id, Opening(s.generation, s.chatRecvKey.value, from, p.number.value, p)).Some?
            then |y.shown| == |x.shown| + 1 && y.shown[..|x.shown|] == x.shown && y.s.chatRecvSeq == p.number.value
                 && y.shown[|x.shown|].o.number == p.number.value && y.shown[|x.shown|].missed == p.number.value - s.chatRecvSeq - 1
            else y.shown == x.shown && y.s == s
    ensures x.s.chatRecvSeq >= -1 && (x.s.phase == Established ==> x.s.chatRecvKey.Some?)
  {
    hide E2eeSafety.Inv, SecuredBy, Sends, OpenWith;
    LastAtLeast(x.shown, x.s.generation);
    if x.s.phase == Established {
      InvSecures(c, x.s);
      SecuredKeys(c, x.s);
    }
  }

  lemma {:induction false} LastAtLeast(shown: seq<Shown>, gen: nat)
    ensures LastIn(shown, gen) >= -1
  {
    if shown != [] {
      LastAtLeast(shown[..|shown| - 1], gen);
    }
  }

  // In order, within a generation

  lemma {:induction false} LastReaches(k: Cipher, s: Session, shown: seq<Shown>, i: nat)
    requires i < |shown| && forall j :: 0 <= j < |shown| ==> ShownOK(k, s, shown, j)
    ensures LastIn(shown, shown[i].o.gen) >= shown[i].o.number
  {
    hide OpenWith;
    var before := shown[..|shown| - 1];
    if i < |before| {
      forall j | 0 <= j < |before| ensures ShownOK(k, s, before, j) {
        assert ShownOK(k, s, shown, j) && shown[..j] == before[..j];
      }
      LastReaches(k, s, before, i);
      assert ShownOK(k, s, shown, |before|) && shown[..|before|] == before;
    }
  }

  /** Messages shown in a generation, and those reported missing between them. */
  function Heard(shown: seq<Shown>, gen: nat): int {
    if shown == [] then 0 else
    var last := shown[|shown| - 1];
    Heard(shown[..|shown| - 1], gen) + if last.o.gen == gen then 1 + last.missed else 0
  }

  lemma {:induction false} HeardIsLast(k: Cipher, s: Session, shown: seq<Shown>, gen: nat)
    requires forall j :: 0 <= j < |shown| ==> ShownOK(k, s, shown, j)
    ensures Heard(shown, gen) == LastIn(shown, gen) + 1
  {
    hide OpenWith;
    if shown != [] {
      var before := shown[..|shown| - 1];
      forall j | 0 <= j < |before| ensures ShownOK(k, s, before, j) {
        assert ShownOK(k, s, shown, j) && shown[..j] == before[..j];
      }
      HeardIsLast(k, s, before, gen);
      assert ShownOK(k, s, shown, |before|);
    }
  }

  /**
   * On every run and within each generation: what went out is numbered 0, 1, 2 and on; what was
   * shown has increasing numbers; and shown and missing together come to the last number plus one.
   */
  lemma CallsCount(c: Crypto, k: Cipher, id: Id, supported: bool, run: seq<Event>)
    ensures var x := Play(c, k, NewCall(id, supported), run);
            && (forall i :: 0 <= i < |x.sent| ==> x.sent[i].number == Count(x.sent[..i], x.sent[i].gen))
            && (forall i, j :: 0 <= i < j < |x.shown| && x.shown[i].o.gen == x.shown[j].o.gen ==>
                  x.shown[i].o.number < x.shown[j].o.number)
            && (forall gen :: Heard(x.shown, gen) == LastIn(x.shown, gen) + 1)
  {
    hide Play, OpenWith, E2eeSafety.Inv;
    var x := Play(c, k, NewCall(id, supported), run);
    RunOK(c, k, id, supported, run);
    forall i | 0 <= i < |x.sent| ensures x.sent[i].number == Count(x.sent[..i], x.sent[i].gen) {
      assert SentOK(x.s, x.sent, i);
    }
    forall i, j | 0 <= i < j < |x.shown| && x.shown[i].o.gen == x.shown[j].o.gen
      ensures x.shown[i].o.number < x.shown[j].o.number
    {
      forall l | 0 <= l < j ensures ShownOK(k, x.s, x.shown[..j], l) {
        assert ShownOK(k, x.s, x.shown, l) && x.shown[..j][..l] == x.shown[..l];
      }
      LastReaches(k, x.s, x.shown[..j], i);
      assert ShownOK(k, x.s, x.shown, j);
    }
    forall gen ensures Heard(x.shown, gen) == LastIn(x.shown, gen) + 1 {
      HeardIsLast(k, x.s, x.shown, gen);
    }
  }

  // Two clients

  /** Nothing opens but what was sealed. */
  ghost predicate OnlyGenuine(k: Cipher) {
    forall key: Bytes, iv: B.Bytes, aad: B.Bytes, ct: B.Bytes {:trigger k.open(key, iv, aad, ct)} ::
      k.open(key, iv, aad, ct).Some? ==> ct == k.seal(key, iv, aad, k.open(key, iv, aad, ct).value)
  }

  lemma SameHandshakeKey(c: Crypto, k: Cipher, a: Session, b: Session, me: Id, e: Shown)
    requires OnlyGenuine(k) && OpenWith(k, me, e.o) == Some(e.text) && Hears(c, b, e.o)
    requires BothEncrypted(c, a, b)
    ensures SealedUnder(k, a, me, e)
  {
    hide SecuredBy, Aad;
    BothSidesAgree(c, a, b);
  }

  /** Each is encrypted with the other one, and got its key. */
  ghost predicate BothEncrypted(c: Crypto, a: Session, b: Session) {
    Facing(c, a, b) && KeysArrived(a, b) && AgreeCommutes(c, a.keyPair.value, b.keyPair.value)
  }

  /** It is what the sender's chat key seals it to, under that number. */
  predicate SealedUnder(k: Cipher, a: Session, me: Id, e: Shown) {
    && e.o.from == a.id && a.chatSendKey == Some(e.o.key)
    && e.o.p.ct == k.seal(e.o.key, e.o.p.iv, Aad(k, a.id, me, e.o.number, Chat.KindOf(e.o.p)), e.text)
  }

  /**
   * On every two runs: of each message shown there is a point in its reader's run at which that call was
   * encrypted, and at whatever point of the sender's run the two were encrypted with each other in that
   * handshake, the message was sealed under the sending key that the sender had in it.
   */
  lemma SealedInTheSameHandshake(c: Crypto, k: Cipher, a: Id, ra: seq<Event>, b: Id, rb: seq<Event>, i: nat)
    requires OnlyGenuine(k) && i < |Play(c, k, NewCall(b, true), rb).shown|
    ensures var e := Play(c, k, NewCall(b, true), rb).shown[i];
            exists j :: OpensAt(c, k, NewCall(b, true), rb, e.o, j)
              && var sb := Play(c, k, NewCall(b, true), rb[..j]).s;
                 forall l :: 0 <= l <= |ra| ==>
                   var sa := Play(c, k, NewCall(a, true), ra[..l]).s; BothEncrypted(c, sa, sb) ==> SealedUnder(k, sa, b, e)
  {
    hide Play, Hears, OpenWith, BothEncrypted, SealedUnder;
    var e := Play(c, k, NewCall(b, true), rb).shown[i];
    ShownUnderItsHandshake(c, k, b, true, rb);
    var j :| OpensAt(c, k, NewCall(b, true), rb, e.o, j);
    var sb := Play(c, k, NewCall(b, true), rb[..j]).s;
    forall l | 0 <= l <= |ra|
      ensures var sa := Play(c, k, NewCall(a, true), ra[..l]).s; BothEncrypted(c, sa, sb) ==> SealedUnder(k, sa, b, e)
    {
      var sa := Play(c, k, NewCall(a, true), ra[..l]).s;
      if BothEncrypted(c, sa, sb) {
        SameHandshakeKey(c, k, sa, sb, b, e);
      }
    }
  }

  /** Sealing q of the sender is with the associated data that e opened with, under its key, of its text. */
  predicate OnRecord(k: Cipher, from: Id, sent: seq<Sealing>, me: Id, e: Shown, q: int) {
    && 0 <= q < |sent| && sent[q].key == e.o.key && sent[q].to == me && sent[q].m.text == e.text
    && 0 <= sent[q].number < B.POW48
    && Aad(k, from, me, sent[q].number, sent[q].m.kind) == Aad(k, from, me, e.o.number, Chat.KindOf(e.o.p))
  }

  /** It is the message that the sender gave that number, under the same key. */
  predicate IsThat(sent: seq<Sealing>, e: Shown, q: int) {
    0 <= q < |sent| && sent[q].key == e.o.key && sent[q].number == e.o.number && sent[q].m == Chat.Message(Chat.KindOf(e.o.p), e.text)
  }

  lemma RecordIsThat(k: Cipher, from: Id, sent: seq<Sealing>, me: Id, e: Shown, q: int)
    requires OnRecord(k, from, sent, me, e, q) && e.o.number < B.POW48
    ensures IsThat(sent, e, q)
  {
    hide B.ChatAAD;
    Chat.SameNumberAndKind(Chat.Ends(k.utf8(from), k.utf8(me)), sent[q].number, sent[q].m.kind, e.o.number, Chat.KindOf(e.o.p));
  }

  /**
   * On every two runs: if what is shown in a generation is on its sender's record, however the server
   * delivered it, then it is, message by message, what the sender gave these numbers, in increasing
   * order and without repeats.
   */
  lemma CallsInOrder(c: Crypto, k: Cipher, a: Id, ra: seq<Event>, b: Id, rb: seq<Event>, gen: nat)
    requires var sent, shown := Play(c, k, NewCall(a, true), ra).sent, Play(c, k, NewCall(b, true), rb).shown;
             forall i :: 0 <= i < |shown| && shown[i].o.gen == gen ==> exists q :: OnRecord(k, a, sent, b, shown[i], q)
    ensures var sent, shown := Play(c, k, NewCall(a, true), ra).sent, Play(c, k, NewCall(b, true), rb).shown;
            && (forall i :: 0 <= i < |shown| && shown[i].o.gen == gen ==> exists q :: IsThat(sent, shown[i], q))
            && (forall i, j :: 0 <= i < j < |shown| && shown[i].o.gen == gen && shown[j].o.gen == gen ==>
                  shown[i].o.number < shown[j].o.number)
  {
    hide Play, OpenWith, OnRecord, IsThat, E2eeSafety.Inv;
    var sent, y := Play(c, k, NewCall(a, true), ra).sent, Play(c, k, NewCall(b, true), rb);
    RunOK(c, k, b, true, rb);
    CallsCount(c, k, b, true, rb);
    forall i | 0 <= i < |y.shown| && y.shown[i].o.gen == gen ensures exists q :: IsThat(sent, y.shown[i], q) {
      var q :| OnRecord(k, a, sent, b, y.shown[i], q);
      assert ShownOK(k, y.s, y.shown, i);
      RecordIsThat(k, a, sent, b, y.shown[i], q);
    }
  }
}
