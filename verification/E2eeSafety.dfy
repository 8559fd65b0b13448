/** What holds of the encryption session on every run, however tasks and events interleave. */
module E2eeSafety {
  import opened Common
  import opened E2eeSession

  /** The material of the current session, once there is a key from the peer. */
  function Current(s: Session): Material
    requires s.keyPair.Some? && s.myPub.Some? && s.peerPub.Some? && s.peer.Some?
    requires if s.role == Initiator then s.peerCommit.Some? else s.myCommit.Some?
  {
    Material(s.generation, s.keyPair.value, s.myPub.value, s.peerPub.value, s.peer.value, s.role,
             if s.role == Initiator then s.peerCommit.value else s.myCommit.value)
  }

  /** The fields before any key is derived. */
  ghost predicate FieldsOK(c: Crypto, s: Session) {
    && (s.role != NoRole ==> s.peer.Some? && (s.role == Initiator <==> Before(s.id, s.peer.value)))
    && (s.keyPair.Some? ==>
          && s.role != NoRole
          && s.myPub == Some(c.publicOf(s.keyPair.value)) && s.myCommit == Some(c.commit(c.publicOf(s.keyPair.value))))
    && (s.keyPair.None? ==> s.myPub.None? && s.myCommit.None?)
    && (s.peerCommit.Some? ==> s.role == Initiator && s.keyPair.Some?)
    && (s.peerPub.Some? ==>
          && s.keyPair.Some?
          && (s.role == Initiator ==> s.peerCommit == Some(c.commit(s.peerPub.value))))
  }

  /** What the session has derived, all from its current material. */
  ghost predicate DerivedOK(c: Crypto, s: Session)
    requires FieldsOK(c, s)
  {
    && (s.secret.Some? ==> s.peerPub.Some? && s.secret.value == c.agree(s.keyPair.value, s.peerPub.value))
    && (s.chatSendKey.Some? <==> s.chatRecvKey.Some?)
    && (s.chatSendKey.Some? || s.sas.Some? || s.worker != map[] ==> s.secret.Some?)
    && (s.secret.Some? ==>
          var salt := Salt(c, s.id, Current(s));
          && (s.chatSendKey.Some? ==>
                s.chatSendKey.value == c.chatKey(s.secret.value, salt, s.id) &&
                s.chatRecvKey.value == c.chatKey(s.secret.value, salt, s.peer.value))
          && (s.sas.Some? ==> s.sas.value == c.sas(s.secret.value, salt))
          && (forall stream :: stream in s.worker ==> s.worker[stream] == c.mediaKey(s.secret.value, salt, stream)))
  }

  /** A task that completes something for the given generation. */
  predicate IsCurrent(t: Task, generation: nat) {
    (t.Start? && t.gen == generation) || (t.Finalize? && t.m.gen == generation)
  }

  /** How far a finalize run of the current generation has got. */
  ghost predicate StepOK(c: Crypto, s: Session, t: Task)
    requires t.Finalize?
  {
    && s.sas.None?
    && (t.step.Importing? || t.step.Agreeing? ==> s.secret.None?)
    && (!t.step.Importing? && !t.step.Agreeing? ==> s.secret == Some(t.secret))
    && (!t.step.Importing? && !t.step.Agreeing? && !t.step.Transcribing? ==> t.salt == Salt(c, s.id, t.m))
    && (t.step.KeyFor? ==> t.step.k < 4 && forall i :: 0 <= i < t.step.k ==> StreamId(s.id, t.m.peer, i) in s.worker)
    && (t.step.ChatSend? || t.step.ChatRecv? || t.step.Deriving? ==>
          forall i :: 0 <= i < 4 ==> StreamId(s.id, t.m.peer, i) in s.worker)
    && (t.step.Deriving? <==> s.chatSendKey.Some?)
  }

  /** The commitment was stored before our own key went out, and the key that opens it was stored after. */
  ghost predicate Honoured(c: Crypto, log: seq<Event>, g: nat) {
    exists i, j :: HonouredAt(c, log, g, i, j)
  }

  predicate SentKeyAt(log: seq<Event>, g: nat, i: int)
    requires 0 <= i < |log|
  {
    log[i].Sent? && log[i].gen == g && log[i].payload.Dh?
  }

  ghost predicate HonouredAt(c: Crypto, log: seq<Event>, g: nat, i: int, j: int) {
    && 0 <= i && i + 1 < j < |log|
    && log[i].StoredCommit? && log[i].gen == g && SentKeyAt(log, g, i + 1)
    && log[j].StoredKey? && log[j].gen == g && c.commit(log[j].pub) == log[i].commit
  }

  ghost predicate TaskOK(c: Crypto, s: Session, t: Task)
    requires FieldsOK(c, s)
  {
    && (t.Start? ==> t.gen <= s.generation && (t.gen == s.generation ==> s.keyPair.None? && s.role != NoRole))
    && (t.Finalize? ==> t.m.gen <= s.generation)
    && (t.Finalize? && t.m.gen == s.generation ==>
          && s.peerPub.Some? && t.m == Current(s) && StepOK(c, s, t)
          && (s.role == Initiator ==> Honoured(c, s.log, s.generation)))
  }

  ghost predicate OneCurrent(s: Session) {
    forall i, j :: 0 <= i < j < |s.tasks| ==> !(IsCurrent(s.tasks[i], s.generation) && IsCurrent(s.tasks[j], s.generation))
  }

  /** No run is under way for the current generation. */
  ghost predicate NoneCurrent(s: Session) {
    forall i :: 0 <= i < |s.tasks| ==> !IsCurrent(s.tasks[i], s.generation)
  }

  ghost predicate TasksOK(c: Crypto, s: Session)
    requires FieldsOK(c, s)
  {
    && (forall i :: 0 <= i < |s.tasks| ==> TaskOK(c, s, s.tasks[i]))
    && OneCurrent(s)
  }

  /** Of each generation, the record has at most one commitment, one key and one set of chat keys. */
  ghost predicate LogOK(c: Crypto, s: Session) {
    && (forall i :: 0 <= i < |s.log| ==> s.log[i].gen <= s.generation)
    && (forall i :: 0 <= i < |s.log| && s.log[i].gen == s.generation ==>
          && (s.log[i].StoredCommit? ==> s.peerCommit.Some?)
          && (s.log[i].StoredKey? ==> s.peerPub.Some?)
          && (s.log[i].GotChatKeys? ==> s.chatSendKey.Some?))
    && (forall i, j :: 0 <= i < j < |s.log| && s.log[i].gen == s.log[j].gen ==>
          && !(s.log[i].StoredCommit? && s.log[j].StoredCommit?)
          && !(s.log[i].StoredKey? && s.log[j].StoredKey?)
          && !(s.log[i].GotChatKeys? && s.log[j].GotChatKeys?))
    && (forall k :: 0 <= k < |s.log| && s.log[k].Secured? && s.log[k].role == Initiator ==>
          Honoured(c, s.log[..k], s.log[k].gen))
  }

  ghost predicate Core(c: Crypto, s: Session) {
    FieldsOK(c, s) && DerivedOK(c, s) && TasksOK(c, s) && LogOK(c, s)
  }

  /** The session is secured with everything in place. */
  ghost predicate SecuredOK(s: Session) {
    && s.secret.Some? && s.sas.Some? && s.chatSendKey.Some? && s.peer.Some?
    && (forall i :: 0 <= i < 4 ==> StreamId(s.id, s.peer.value, i) in s.worker)
  }

  /** The commitment that a handshake holds was recorded with it, right before our key went out. */
  ghost predicate CommitLogged(s: Session) {
    exists i :: CommitLoggedAt(s, i)
  }

  ghost predicate CommitLoggedAt(s: Session, i: int) {
    0 <= i && i + 1 < |s.log| && s.peerCommit.Some? &&
    s.log[i] == StoredCommit(s.generation, s.peerCommit.value) && SentKeyAt(s.log, s.generation, i + 1)
  }

  ghost predicate PhaseOK(s: Session) {
    && (s.phase == Established ==> SecuredOK(s))
    && (s.phase == Handshaking && s.peerCommit.Some? ==> CommitLogged(s))
  }

  ghost predicate PeerOK(s: Session) {
    if |s.users| == 1 then s.peer == Some(TheOnly(s.users)) else s.peer.None?
  }

  ghost predicate Inv(c: Crypto, s: Session) {
    Core(c, s) && PhaseOK(s) && PeerOK(s)
  }

  // One step never turns a generation back, nor changes what the peer sent within one

  /** Generations and the record only grow, and within a generation the peer's commitment and key stay once they are set. */
  predicate Follows(s: Session, t: Session) {
    && t.generation >= s.generation
    && s.log <= t.log
    && (t.generation == s.generation ==>
          && (s.peerCommit.Some? ==> t.peerCommit == s.peerCommit)
          && (s.peerPub.Some? ==> t.peerPub == s.peerPub))
  }

  /** The same participants, the same one of them as the peer, and the same means to encrypt. */
  predicate SamePeer(s: Session, t: Session) {
    && t.users == s.users && t.peer == s.peer
    && t.id == s.id && t.supported == s.supported && t.transformFailed == s.transformFailed
  }

  lemma HandleFollows(s: Session, p: Payload)
    ensures Follows(s, Handle(s, p)) && SamePeer(s, Handle(s, p))
  {
    hide BeginFinalize, Fail, Answered, StoreKey, StoreCommit, Say, Follows, SamePeer;
    FailFollows(s);
    SameFollows(s);
    match p {
      case NoCrypto =>
      case Hello(_) =>
        if s.myCommit.Some? {
          SayFollows(s, CommitTo(PROTOCOL_VERSION, s.myCommit.value));
        }
      case CommitTo(_, commit) =>
        if s.peerCommit.None? {
          CommitFollows(s, commit);
        }
      case Dh(_, pub) =>
        HashTaskFollows(s, pub);
        if s.peerPub.None? {
          AnswerFollows(s, pub);
        }
    }
  }

  lemma SameFollows(s: Session)
    ensures Follows(s, s) && SamePeer(s, s)
  {
  }

  lemma HashTaskFollows(s: Session, pub: Bytes)
    ensures var t := s.(tasks := s.tasks + [Hash(pub)]); Follows(s, t) && SamePeer(s, t)
  {
  }

  lemma SayFollows(s: Session, p: Payload)
    ensures Follows(s, Say(s, p)) && SamePeer(s, Say(s, p))
  {
  }

  lemma CommitFollows(s: Session, commit: Bytes)
    requires s.peerCommit.None?
    ensures var t := Answered(StoreCommit(s, commit)); Follows(s, t) && SamePeer(s, t)
  {
  }

  lemma FailFollows(s: Session)
    ensures Follows(s, Fail(s)) && SamePeer(s, Fail(s))
  {
  }

  lemma AnswerFollows(s: Session, pub: Bytes)
    requires s.peerPub.None?
    ensures var t := BeginFinalize(Answered(StoreKey(s, pub))); Follows(s, t) && SamePeer(s, t)
  {
    hide BeginFinalize;
    BeginFollows(Answered(StoreKey(s, pub)));
  }

  lemma BeginFollows(s: Session)
    ensures BeginFinalize(s) == s.(tasks := BeginFinalize(s).tasks)
  {
  }

  lemma HashFollows(c: Crypto, s: Session, pub: Bytes)
    ensures Follows(s, RunHash(c, s, pub)) && SamePeer(s, RunHash(c, s, pub))
  {
    hide BeginFinalize;
    BeginFollows(StoreKey(s, pub));
  }

  lemma FinalizeFollows(c: Crypto, s: Session, t: Task)
    requires t.Finalize?
    ensures Follows(s, RunFinalize(c, s, t)) && SamePeer(s, RunFinalize(c, s, t))
  {
    hide Kept, RunFinalize, Follows, SamePeer;
    FinalizeKeeps(c, s, t);
    KeptFollows(s, RunFinalize(c, s, t));
  }

  ghost predicate Kept(s: Session, u: Session) {
    && u.generation == s.generation && s.log <= u.log
    && u.peerCommit == s.peerCommit && u.peerPub == s.peerPub && u.users == s.users && u.peer == s.peer
    && (u.phase == s.phase || u.phase == Established) 
    && u.id == s.id && u.supported == s.supported && u.transformFailed == s.transformFailed
    && u.keyPair == s.keyPair && u.startingFor == s.startingFor
  }

  /** What a finalize run leaves alone. */
  lemma FinalizeKeeps(c: Crypto, s: Session, t: Task)
    requires t.Finalize?
    ensures Kept(s, RunFinalize(c, s, t))
  {
    hide Kept, RunFinalize;
    if t.step.KeyFor? || t.step.ChatRecv? || t.step.Deriving? {
      LateKeeps(c, s, t);
    } else if t.step.Agreeing? || t.step.Transcribing? {
      EarlyKeeps(c, s, t);
    } else {
      WaitKeeps(c, s, t);
    }
  }

  lemma WaitKeeps(c: Crypto, s: Session, t: Task)
    requires t.Finalize? && (t.step.Importing? || t.step.ChatSend?)
    ensures Kept(s, RunFinalize(c, s, t))
  {
    hide Salt, StreamId;
  }

  lemma LateKeeps(c: Crypto, s: Session, t: Task)
    requires t.Finalize? && (t.step.KeyFor? || t.step.ChatRecv? || t.step.Deriving?)
    ensures Kept(s, RunFinalize(c, s, t))
  {
    hide Salt, StreamId;
  }

  lemma EarlyKeeps(c: Crypto, s: Session, t: Task)
    requires t.Finalize? && (t.step.Agreeing? || t.step.Transcribing?)
    ensures Kept(s, RunFinalize(c, s, t))
  {
    hide Salt, StreamId;
  }

  lemma KeptFollows(s: Session, u: Session)
    requires Kept(s, u)
    ensures Follows(s, u) && SamePeer(s, u)
  {
  }

  /** Which tasks are suspended makes no difference. */
  lemma TasksFollow(s: Session, s': Session, t: Session)
    requires s' == s.(tasks := s'.tasks)
    ensures Follows(s', t) && SamePeer(s', t) ==> Follows(s, t) && SamePeer(s, t)
  {
  }

  lemma StartTaskFollows(c: Crypto, s: Session, t: Task, newKey: Bytes)
    requires t.Start?
    ensures Follows(s, RunStart(c, s, t, newKey)) && SamePeer(s, RunStart(c, s, t, newKey))
  {
    hide TakeOwnKey, Introduce;
    IntroduceFollows(c, s, t.keyPair);
  }

  lemma IntroduceFollows(c: Crypto, s: Session, keyPair: Bytes)
    ensures var t := Introduce(TakeOwnKey(c, s, keyPair)); Follows(s, t) && SamePeer(s, t)
  {
  }

  lemma TaskFollows(c: Crypto, s: Session, i: nat, newKey: Bytes)
    requires i < |s.tasks|
    ensures Follows(s, RunTask(c, s, i, newKey)) && SamePeer(s, RunTask(c, s, i, newKey))
  {
    hide RunStart, RunFinalize, RunHash, Handle, Without, Follows, SamePeer;
    var t, s' := s.tasks[i], s.(tasks := Without(s.tasks, i));
    TasksFollow(s, s', RunTask(c, s, i, newKey));
    match t {
      case Start(_, _, _, _) => StartTaskFollows(c, s', t, newKey);
      case Finalize(_, _, _, _) => FinalizeFollows(c, s', t);
      case Hash(pub) => HashFollows(c, s', pub);
      case Continue(_, p) => HandleFollows(s', p);
    }
  }

  lemma MessageFollows(s: Session, from: Id, p: Payload)
    ensures Follows(s, OnMessage(s, from, p))
  {
    hide Handle, Before, TheOnly, StartWith, Announce;
    HandleFollows(s, p);
    StartFollows(s, from);
    AnnounceFollows(s, from);
  }

  lemma RecomputeFollows(s: Session)
    ensures Follows(s, Recompute(s))
  {
    hide Before, TheOnly, StartWith, Announce, ResetPeer;
    ResetFollows(s);
    if |s.users| == 1 {
      StartFollows(s, TheOnly(s.users));
      AnnounceFollows(s, TheOnly(s.users));
    }
  }

  lemma ResetFollows(s: Session)
    ensures Follows(s, ResetPeer(s)) && ResetPeer(s).generation == s.generation + 1 && ResetPeer(s).users == s.users
  {
  }

  lemma AnnouncedFollows(s: Session)
    ensures Follows(s, Downgrade(Announce(s.(transformFailed := true))))
  {
  }

  lemma AnnounceFollows(s: Session, peer: Id)
    ensures Follows(s, Announce(s.(peer := Some(peer))))
  {
  }

  lemma StartFollows(s: Session, peer: Id)
    ensures Follows(s, StartWith(s, peer))
  {
    hide Before;
  }

  /** The peer's commitment and key are each set at most once in a generation, whatever happens. */
  lemma StepFollows(c: Crypto, s: Session, a: Action)
    ensures Follows(s, Apply(c, s, a))
  {
    hide Recompute, RunTask, OnMessage, Without, Announce;
    match a {
      case AttachFails => AnnouncedFollows(s);
      case AddUser(id) => RecomputeFollows(s.(users := s.users + {id}));
      case DelUser(id) =>
        var s' := s.(users := s.users - {id});
        RecomputeFollows(s');
        RecomputeFollows(ResetPeer(s'));
      case SetRequire(b) => RecomputeFollows(s.(require := b));
      case Message(from, p) => MessageFollows(s, from, p);
      case Run(i, newKey) =>
        if i < |s.tasks| {
          TaskFollows(c, s, i, newKey);
        }
      case _ =>
    }
  }

  // The pieces of the handlers

  /** A new generation, with nothing in it: every suspended task is overtaken. */
  lemma ResetCore(c: Crypto, s: Session)
    requires Core(c, s)
    ensures Core(c, ResetPeer(s)) && NoneCurrent(ResetPeer(s))
  {
    var t := ResetPeer(s);
    forall i | 0 <= i < |t.tasks| ensures TaskOK(c, t, t.tasks[i]) && !IsCurrent(t.tasks[i], t.generation) {
      assert TaskOK(c, s, s.tasks[i]);
    }
  }

  lemma FailInv(c: Crypto, s: Session)
    requires Core(c, s)
    ensures Core(c, Fail(s)) && PhaseOK(Fail(s)) && NoneCurrent(Fail(s))
  {
    var t := Fail(s);
    forall i | 0 <= i < |t.tasks| ensures TaskOK(c, t, t.tasks[i]) && !IsCurrent(t.tasks[i], t.generation) {
      assert TaskOK(c, s, s.tasks[i]);
    }
  }

  /** Changes to the parts that the invariant does not speak of. */
  lemma ElsewhereCore(c: Crypto, s: Session, t: Session)
    requires Core(c, s)
    requires t == s.(users := t.users, require := t.require, transformFailed := t.transformFailed, supported := t.supported,
                     wasEncrypted := t.wasEncrypted, clearAgreed := t.clearAgreed, phase := t.phase,
                     startingFor := t.startingFor, chatSendSeq := t.chatSendSeq, chatRecvSeq := t.chatRecvSeq)
    ensures Core(c, t)
  {
    forall i | 0 <= i < |t.tasks| ensures TaskOK(c, t, t.tasks[i]) {
      assert TaskOK(c, s, s.tasks[i]);
    }
  }

  /** A run that is no longer current promises nothing. */
  lemma OvertakenOK(c: Crypto, s: Session, t: Session)
    requires Core(c, s) && NoneCurrent(s) && FieldsOK(c, t) && t.generation == s.generation && t.tasks == s.tasks
    ensures TasksOK(c, t)
  {
    hide DerivedOK, LogOK, StepOK;
    forall i | 0 <= i < |t.tasks| ensures TaskOK(c, t, t.tasks[i]) {
      assert TaskOK(c, s, s.tasks[i]);
    }
  }

  lemma PushTask(c: Crypto, s: Session, t: Task)
    requires FieldsOK(c, s) && TasksOK(c, s) && TaskOK(c, s, t)
    requires IsCurrent(t, s.generation) ==> NoneCurrent(s)
    ensures TasksOK(c, s.(tasks := s.tasks + [t]))
  {
    hide Honoured;
    var s' := s.(tasks := s.tasks + [t]);
    forall i | 0 <= i < |s'.tasks| ensures TaskOK(c, s', s'.tasks[i]) {
      assert i < |s.tasks| ==> TaskOK(c, s, s.tasks[i]);
    }
  }

  lemma StartCore(c: Crypto, s: Session, peer: Id)
    requires Core(c, s)
    ensures Core(c, StartWith(s, peer))
    ensures s.supported ==> StartWith(s, peer).peer == Some(peer)
    ensures PhaseOK(s) ==> PhaseOK(StartWith(s, peer))
  {
    hide Core, PhaseOK, ResetPeer, Begin, NoneCurrent;
    if s.supported && !(s.peer == Some(peer) && (s.keyPair.Some? || s.startingFor == Some(peer))) {
      ResetCore(c, s);
      ResetBlank(s);
      BeginCore(c, ResetPeer(s), peer);
      BeginPhase(ResetPeer(s), peer);
    }
  }

  /** A session of which nothing is left but its surroundings. */
  predicate Blank(s: Session) {
    && s.peer.None? && s.keyPair.None? && s.peerPub.None? && s.peerCommit.None? && s.secret.None? && s.role == NoRole
  }

  lemma ResetBlank(s: Session)
    ensures Blank(ResetPeer(s)) && ResetPeer(s).users == s.users
  {
  }

  lemma BeginCore(c: Crypto, r: Session, peer: Id)
    requires Core(c, r) && NoneCurrent(r) && Blank(r)
    ensures Core(c, Begin(r, peer))
  {
    hide Before, StepOK, Honoured;
    var t := r.(peer := Some(peer), startingFor := Some(peer),
                role := if Before(r.id, peer) then Initiator else Responder, phase := Handshaking);
    OvertakenOK(c, r, t);
    PushTask(c, t, Start(0, peer, r.generation, []));
  }

  lemma BeginPhase(r: Session, peer: Id)
    requires Blank(r)
    ensures Begin(r, peer).peer == Some(peer) && Begin(r, peer).users == r.users && PhaseOK(Begin(r, peer))
  {
    hide Before;
  }

  /** A phase in which nothing is promised. */
  lemma IdlePhase(s: Session, t: Session)
    requires t == s.(phase := t.phase) && t.phase != Established && t.phase != Handshaking
    ensures PhaseOK(t) && t.users == s.users && t.peer == s.peer
  {
  }

  /** Every change of the users, and of the group's options, ends in a consistent session. */
  lemma RecomputeInv(c: Crypto, s: Session)
    requires Core(c, s)
    requires s.peer.Some? ==> PhaseOK(s)
    requires s.peer.Some? && |s.users| == 1 ==> s.peer == Some(TheOnly(s.users))
    ensures Inv(c, Recompute(s))
  {
    hide Core, PhaseOK, PeerOK, Recompute;
    if |s.users| == 1 {
      PairInv(c, s);
    } else {
      NoPairInv(c, s);
    }
  }

  lemma PairInv(c: Crypto, s: Session)
    requires Core(c, s) && |s.users| == 1
    requires s.peer.Some? ==> PhaseOK(s) && s.peer == Some(TheOnly(s.users))
    ensures Inv(c, Recompute(s))
  {
    hide Core, PhaseOK, TheOnly, StartWith, Announce, Downgrade;
    var p := TheOnly(s.users);
    if CanEncrypt(s) {
      StartPhase(c, s, p);
    } else {
      NamePeerCore(c, s, p);
      AnnounceSame(s.(peer := Some(p)));
    }
  }

  lemma NoPairInv(c: Crypto, s: Session)
    requires Core(c, s) && |s.users| != 1
    ensures Inv(c, Recompute(s))
  {
    hide Core, PhaseOK, ResetPeer, Downgrade;
    var r := ResetPeer(s);
    ResetCore(c, s);
    ResetBlank(s);
    DowngradeCore(c, r);
    AnnounceSame(r);
    IdleCore(c, r);
  }

  lemma IdleCore(c: Crypto, r: Session)
    requires Core(c, r)
    ensures var t := r.(phase := Idle); Core(c, t) && PhaseOK(t)
  {
    hide Core;
    ElsewhereCore(c, r, r.(phase := Idle));
    IdlePhase(r, r.(phase := Idle));
  }

  lemma AnnounceSame(s: Session)
    ensures var t := Downgrade(Announce(s)); t.peer == s.peer && t.users == s.users
    ensures var t := Downgrade(s); t.peer == s.peer && t.users == s.users
  {
  }

  /** Starting with the only peer; a session already under way with it stays as it is. */
  lemma StartPhase(c: Crypto, s: Session, p: Id)
    requires Core(c, s) && s.supported
    ensures Core(c, StartWith(s, p)) && StartWith(s, p).peer == Some(p) && StartWith(s, p).users == s.users
    ensures (s.peer.Some? ==> PhaseOK(s)) ==> PhaseOK(StartWith(s, p))
  {
    hide Core, PhaseOK, ResetPeer, Begin;
    StartCore(c, s, p);
    ResetBlank(s);
    BeginPhase(ResetPeer(s), p);
  }

  /** Naming the peer of a session that has none, without a handshake. */
  lemma NamePeerCore(c: Crypto, s: Session, p: Id)
    requires Core(c, s) && (s.peer.None? || s.peer == Some(p))
    ensures var t := s.(peer := Some(p));
            && Core(c, Downgrade(t)) && PhaseOK(Downgrade(t))
            && Core(c, Downgrade(Announce(t))) && PhaseOK(Downgrade(Announce(t)))
  {
    hide Core, PhaseOK, Downgrade, Announce;
    var t := s.(peer := Some(p));
    NamedCore(c, s, t);
    AnnounceCore(c, t);
    DowngradeCore(c, t);
    DowngradeCore(c, Announce(t));
  }

  lemma NamedCore(c: Crypto, s: Session, t: Session)
    requires Core(c, s) && t == s.(peer := t.peer) && t.peer.Some? && (s.peer.None? || s.peer == t.peer)
    ensures Core(c, t)
  {
    forall i | 0 <= i < |t.tasks| ensures TaskOK(c, t, t.tasks[i]) {
      assert TaskOK(c, s, s.tasks[i]);
    }
  }

  lemma DowngradeCore(c: Crypto, s: Session)
    requires Core(c, s)
    ensures Core(c, Downgrade(s)) && PhaseOK(Downgrade(s))
  {
    hide DerivedOK, TasksOK, LogOK, FieldsOK;
    ElsewhereCore(c, s, Downgrade(s));
  }

  // Tasks and messages

  lemma RemoveCore(c: Crypto, s: Session, i: nat)
    requires Core(c, s) && i < |s.tasks|
    ensures Core(c, s.(tasks := Without(s.tasks, i)))
    ensures IsCurrent(s.tasks[i], s.generation) ==> NoneCurrent(s.(tasks := Without(s.tasks, i)))
    ensures TaskOK(c, s.(tasks := Without(s.tasks, i)), s.tasks[i])
  {
    hide Honoured, LogOK, Without, OneCurrent, Salt, StreamId;
    var t := s.(tasks := Without(s.tasks, i));
    WithoutAt(s.tasks, i);
    assert TaskOK(c, s, s.tasks[i]);
    forall j | 0 <= j < |t.tasks| ensures TaskOK(c, t, t.tasks[j]) {
      assert TaskOK(c, s, s.tasks[if j < i then j else j + 1]);
    }
    SameLog(c, s, t);
    OthersCurrent(s, i);
  }

  lemma WithoutAt(ts: seq<Task>, i: nat)
    requires i < |ts|
    ensures |Without(ts, i)| == |ts| - 1
    ensures forall j :: 0 <= j < |ts| - 1 ==> Without(ts, i)[j] == ts[if j < i then j else j + 1]
  {
  }

  lemma SameLog(c: Crypto, s: Session, t: Session)
    requires LogOK(c, s) && t == s.(tasks := t.tasks)
    ensures LogOK(c, t)
  {
  }

  lemma OthersCurrent(s: Session, i: nat)
    requires OneCurrent(s) && i < |s.tasks|
    ensures var t := s.(tasks := Without(s.tasks, i));
            OneCurrent(t) && (IsCurrent(s.tasks[i], s.generation) ==> NoneCurrent(t))
  {
    hide Without;
    var t := s.(tasks := Without(s.tasks, i));
    WithoutAt(s.tasks, i);
    forall j | 0 <= j < |t.tasks| && IsCurrent(s.tasks[i], s.generation) ensures !IsCurrent(t.tasks[j], t.generation) {
      assert t.tasks[j] == s.tasks[if j < i then j else j + 1];
    }
  }

  lemma HonouredLonger(c: Crypto, log: seq<Event>, more: seq<Event>, g: nat)
    requires Honoured(c, log, g)
    ensures Honoured(c, log + more, g)
  {
    var i, j :| HonouredAt(c, log, g, i, j);
    assert HonouredAt(c, log + more, g, i, j);
  }

  /** Adding to the record what is new of its kind in this generation. */
  lemma LogMore(c: Crypto, s: Session, t: Session, e: Event)
    requires LogOK(c, s) && t.generation == s.generation && t.log == s.log + [e] && e.gen == s.generation
    requires s.peerCommit.Some? ==> t.peerCommit.Some?
    requires s.peerPub.Some? ==> t.peerPub.Some?
    requires s.chatSendKey.Some? ==> t.chatSendKey.Some?
    requires e.StoredCommit? ==> s.peerCommit.None? && t.peerCommit.Some?
    requires e.StoredKey? ==> s.peerPub.None? && t.peerPub.Some?
    requires e.GotChatKeys? ==> s.chatSendKey.None? && t.chatSendKey.Some?
    requires e.Secured? && e.role == Initiator ==> Honoured(c, s.log, e.gen)
    ensures LogOK(c, t)
  {
    hide Honoured;
    forall k | 0 <= k < |t.log| && t.log[k].Secured? && t.log[k].role == Initiator
      ensures Honoured(c, t.log[..k], t.log[k].gen) {
      assert t.log[..k] == if k < |s.log| then s.log[..k] else s.log;
    }
  }

  lemma BeginFinalizeCore(c: Crypto, s: Session)
    requires Core(c, s) && NoneCurrent(s) && s.peerPub.Some? && s.secret.None?
    requires s.role == Initiator ==> Honoured(c, s.log, s.generation)
    ensures Core(c, BeginFinalize(s)) && BeginFinalize(s) == s.(tasks := BeginFinalize(s).tasks)
  {
    hide Honoured;
    var t := Finalize(Current(s), Importing, [], []);
    PushTask(c, s, t);
  }

  /** Storing the peer's key, once per generation. */
  lemma StoreKeyCore(c: Crypto, s: Session, pub: Bytes)
    requires Core(c, s) && s.peerPub.None? && s.keyPair.Some?
    requires s.role == Initiator ==> s.peerCommit == Some(c.commit(pub))
    requires s.phase != Established
    ensures Core(c, StoreKey(s, pub)) && NoneCurrent(StoreKey(s, pub))
  {
    var t := StoreKey(s, pub);
    LogMore(c, s, t, StoredKey(s.generation, pub));
    forall i | 0 <= i < |t.tasks| ensures TaskOK(c, t, t.tasks[i]) && !IsCurrent(t.tasks[i], t.generation) {
      assert TaskOK(c, s, s.tasks[i]);
    }
  }

  lemma SecretLater(c: Crypto, s: Session)
    requires Core(c, s) && s.peerPub.None?
    ensures s.secret.None? && s.sas.None? && s.chatSendKey.None? && s.worker == map[]
  {
  }

  /** The initiator's run: the key opens the commitment that was recorded when ours went out. */
  lemma HashInv(c: Crypto, s: Session, pub: Bytes)
    requires Core(c, s) && PhaseOK(s)
    ensures Core(c, RunHash(c, s, pub)) && PhaseOK(RunHash(c, s, pub))
  {
    if s.peerCommit.None? {
    } else if c.commit(pub) != s.peerCommit.value {
      FailInv(c, s);
    } else if s.peerPub.None? && s.phase == Handshaking {
      StoreKeyCore(c, s, pub);
      SecretLater(c, s);
      var i :| CommitLoggedAt(s, i);
      var t := StoreKey(s, pub);
      assert HonouredAt(c, t.log, s.generation, i, |s.log|);
      assert CommitLoggedAt(t, i);
      BeginFinalizeCore(c, t);
      assert CommitLoggedAt(BeginFinalize(t), i);
    }
  }

  /** Storing the commitment and sending our key, in one step and once per generation. */
  lemma StoreCommitInv(c: Crypto, s: Session, commit: Bytes)
    requires Core(c, s)
    requires s.role == Initiator && s.peerCommit.None? && s.keyPair.Some? && s.phase != Established
    ensures Core(c, Answered(StoreCommit(s, commit))) && PhaseOK(Answered(StoreCommit(s, commit)))
  {
    hide Honoured;
    var t1, t := StoreCommit(s, commit), Answered(StoreCommit(s, commit));
    StoreCommitCore(c, s, commit);
    SayCore(c, t1, Dh(PROTOCOL_VERSION, OwnPub(t1)));
    assert CommitLoggedAt(t, |s.log|);
  }

  lemma StoreCommitCore(c: Crypto, s: Session, commit: Bytes)
    requires Core(c, s) && s.role == Initiator && s.peerCommit.None? && s.keyPair.Some?
    ensures Core(c, StoreCommit(s, commit))
  {
    var t := StoreCommit(s, commit);
    LogMore(c, s, t, StoredCommit(s.generation, commit));
    forall i | 0 <= i < |t.tasks| ensures TaskOK(c, t, t.tasks[i]) {
      assert TaskOK(c, s, s.tasks[i]);
    }
  }

  /** What is said changes nothing but the record. */
  lemma SayCore(c: Crypto, s: Session, p: Payload)
    requires Core(c, s)
    ensures Core(c, Say(s, p))
    ensures PhaseOK(s) ==> PhaseOK(Say(s, p))
  {
    hide Honoured, StepOK, TasksOK, PhaseOK;
    var t := Say(s, p);
    LogMore(c, s, t, Sent(s.generation, p));
    SayTasks(c, s, p);
    if PhaseOK(s) {
      SayPhase(s, p);
    }
  }

  lemma SayTasks(c: Crypto, s: Session, p: Payload)
    requires FieldsOK(c, s) && TasksOK(c, s)
    ensures TasksOK(c, Say(s, p))
  {
    hide Honoured;
    var t := Say(s, p);
    forall i | 0 <= i < |t.tasks| ensures TaskOK(c, t, t.tasks[i]) {
      assert TaskOK(c, s, s.tasks[i]);
      if Honoured(c, s.log, s.generation) {
        HonouredLonger(c, s.log, [Sent(s.generation, p)], s.generation);
      }
    }
  }

  lemma SayPhase(s: Session, p: Payload)
    requires PhaseOK(s)
    ensures PhaseOK(Say(s, p))
  {
    if CommitLogged(s) {
      var i :| CommitLoggedAt(s, i);
      assert CommitLoggedAt(Say(s, p), i);
    }
  }

  lemma AnnounceCore(c: Crypto, s: Session)
    requires Core(c, s)
    ensures Core(c, Announce(s)) && (PhaseOK(s) ==> PhaseOK(Announce(s)))
  {
    hide Core, PhaseOK;
    if s.peer.Some? {
      SayCore(c, s, NoCrypto);
    }
  }

  lemma IntroduceInv(c: Crypto, s: Session)
    requires Core(c, s) && PhaseOK(s)
    ensures Core(c, Introduce(s)) && PhaseOK(Introduce(s))
  {
    hide Core, PhaseOK;
    SayCore(c, s, Hello(PROTOCOL_VERSION));
    if s.role == Responder && s.myCommit.Some? {
      SayCore(c, Say(s, Hello(PROTOCOL_VERSION)), CommitTo(PROTOCOL_VERSION, s.myCommit.value));
    }
  }

  lemma AnswerInv(c: Crypto, s: Session, pub: Bytes)
    requires Core(c, s) && PhaseOK(s)
    requires s.role == Responder && s.peerPub.None? && s.keyPair.Some? && s.phase != Established
    ensures Core(c, BeginFinalize(Answered(StoreKey(s, pub)))) && PhaseOK(BeginFinalize(Answered(StoreKey(s, pub))))
  {
    hide Honoured, StepOK;
    StoreKeyCore(c, s, pub);
    SecretLater(c, s);
    var t := StoreKey(s, pub);
    SayCore(c, t, Dh(PROTOCOL_VERSION, OwnPub(t)));
    BeginFinalizeCore(c, Answered(t));
  }

  lemma HandleInv(c: Crypto, s: Session, p: Payload)
    requires Core(c, s) && PhaseOK(s)
    ensures Core(c, Handle(s, p)) && PhaseOK(Handle(s, p))
  {
    hide DerivedOK, TasksOK, LogOK, PhaseOK;
    if s.phase != Established && s.phase != Failed && s.myCommit.Some? {
      if Version(p) != PROTOCOL_VERSION {
        FailInv(c, s);
      } else if p.Hello? && s.role == Responder {
        SayCore(c, s, CommitTo(PROTOCOL_VERSION, s.myCommit.value));
      } else if p.CommitTo? && s.role == Initiator {
        if s.peerCommit.Some? {
          FailInv(c, s);
        } else {
          StoreCommitInv(c, s, p.commit);
        }
      } else if p.Dh? {
        if s.peerPub.Some? {
          FailInv(c, s);
        } else if s.role == Responder {
          AnswerInv(c, s, p.pub);
        } else {
          PushOther(c, s, Hash(p.pub));
        }
      }
    }
  }

  /** A task that completes nothing by itself. */
  lemma PushOther(c: Crypto, s: Session, t: Task)
    requires Core(c, s) && (t.Hash? || t.Continue?)
    ensures Core(c, s.(tasks := s.tasks + [t]))
    ensures PhaseOK(s) ==> PhaseOK(s.(tasks := s.tasks + [t]))
  {
    hide DerivedOK, TasksOK, LogOK, PhaseOK;
    PushCore(c, s, t);
    if PhaseOK(s) {
      SamePhase(s, s.(tasks := s.tasks + [t]));
    }
  }

  lemma PushCore(c: Crypto, s: Session, t: Task)
    requires Core(c, s) && TaskOK(c, s, t)
    requires IsCurrent(t, s.generation) ==> NoneCurrent(s)
    ensures Core(c, s.(tasks := s.tasks + [t]))
  {
    hide TasksOK, LogOK, TaskOK, NoneCurrent;
    PushTask(c, s, t);
    SameLog(c, s, s.(tasks := s.tasks + [t]));
  }

  lemma StartTaskInv(c: Crypto, s: Session, t: Task, newKey: Bytes)
    requires Core(c, s) && PhaseOK(s) && t.Start? && TaskOK(c, s, t)
    requires IsCurrent(t, s.generation) ==> NoneCurrent(s)
    ensures Core(c, RunStart(c, s, t, newKey)) && PhaseOK(RunStart(c, s, t, newKey))
  {
    if t.at == 0 {
      PushStart(c, s, t.(at := 1, keyPair := newKey));
    } else if t.at == 1 {
      PushStart(c, s, t.(at := 2));
    } else if s.peer == Some(t.peer) && t.gen == s.generation {
      OwnKeyCore(c, s, t.keyPair);
      IntroduceInv(c, TakeOwnKey(c, s, t.keyPair));
    }
  }

  lemma PushStart(c: Crypto, s: Session, t: Task)
    requires Core(c, s) && PhaseOK(s) && t.Start? && TaskOK(c, s, t)
    requires IsCurrent(t, s.generation) ==> NoneCurrent(s)
    ensures Core(c, s.(tasks := s.tasks + [t])) && PhaseOK(s.(tasks := s.tasks + [t]))
  {
    hide DerivedOK, TasksOK, LogOK, PhaseOK, TaskOK;
    PushCore(c, s, t);
    SamePhase(s, s.(tasks := s.tasks + [t]));
  }

  /** Our own key, chosen once per generation. */
  lemma OwnKeyCore(c: Crypto, s: Session, keyPair: Bytes)
    requires Core(c, s) && PhaseOK(s) && NoneCurrent(s) && s.keyPair.None? && s.peer.Some?
    requires s.role != NoRole
    ensures Core(c, TakeOwnKey(c, s, keyPair)) && PhaseOK(TakeOwnKey(c, s, keyPair))
  {
    OvertakenOK(c, s, TakeOwnKey(c, s, keyPair));
  }

  /** finalize moves on: what it adds is derived from the current material. */
  lemma MoveOn(c: Crypto, s: Session, u: Session, t: Task)
    requires Core(c, s) && PhaseOK(s) && NoneCurrent(s)
    requires u == s.(secret := u.secret, worker := u.worker, chatSendKey := u.chatSendKey, chatRecvKey := u.chatRecvKey,
                     chatSendSeq := u.chatSendSeq, chatRecvSeq := u.chatRecvSeq, log := u.log)
    requires s.phase != Established
    requires FieldsOK(c, u) && DerivedOK(c, u) && LogOK(c, u)
    requires s.log <= u.log
    requires t.Finalize? && TaskOK(c, u, t)
    ensures Core(c, u.(tasks := u.tasks + [t])) && PhaseOK(u.(tasks := u.tasks + [t]))
  {
    hide StepOK, DerivedOK, LogOK;
    OvertakenOK(c, s, u);
    PushCore(c, u, t);
    if CommitLogged(s) {
      var i :| CommitLoggedAt(s, i);
      assert CommitLoggedAt(u.(tasks := u.tasks + [t]), i);
    }
  }

  /** A run of the current generation that goes on. */
  ghost predicate Under(c: Crypto, s: Session, t: Task) {
    && Core(c, s) && PhaseOK(s) && NoneCurrent(s)
    && t.Finalize? && t.m.gen == s.generation && TaskOK(c, s, t)
  }

  lemma NotYetEstablished(c: Crypto, s: Session, t: Task)
    requires Under(c, s, t)
    ensures s.phase != Established && s.peerPub.Some? && t.m == Current(s)
  {
  }

  lemma AgreeStep(c: Crypto, s: Session, t: Task)
    requires Under(c, s, t) && t.step.Agreeing?
    ensures Core(c, RunFinalize(c, s, t)) && PhaseOK(RunFinalize(c, s, t))
  {
    hide Honoured, Salt;
    var secret := c.agree(t.m.keyPair, t.m.peerPub);
    MoveOn(c, s, s.(secret := Some(secret)), t.(step := Transcribing, secret := secret));
  }

  lemma TranscribeStep(c: Crypto, s: Session, t: Task)
    requires Under(c, s, t) && (t.step.Transcribing? || t.step.ChatSend? || t.step.Importing?)
    ensures Core(c, RunFinalize(c, s, t)) && PhaseOK(RunFinalize(c, s, t))
  {
    hide Core, PhaseOK, TaskOK, Salt;
    var step := if t.step.Transcribing? then KeyFor(0) else if t.step.ChatSend? then ChatRecv else Agreeing;
    var u := t.(step := step, salt := if t.step.Transcribing? then Salt(c, s.id, t.m) else t.salt);
    TranscribeTask(c, s, t, u);
    NotYetEstablished(c, s, t);
    MoveOn(c, s, s, u);
  }

  lemma TranscribeTask(c: Crypto, s: Session, t: Task, u: Task)
    requires Under(c, s, t) && u.Finalize?
    requires u == t.(step := u.step, salt := u.salt)
    requires (t.step.Transcribing? && u.step == KeyFor(0) && u.salt == Salt(c, s.id, t.m)) ||
             (t.step.ChatSend? && u.step == ChatRecv && u.salt == t.salt) || (t.step.Importing? && u.step == Agreeing)
    ensures FieldsOK(c, s) && DerivedOK(c, s) && LogOK(c, s) && TaskOK(c, s, u)
  {
    hide Honoured, Salt;
  }

  lemma KeyStep(c: Crypto, s: Session, t: Task)
    requires Under(c, s, t) && t.step.KeyFor?
    ensures Core(c, RunFinalize(c, s, t)) && PhaseOK(RunFinalize(c, s, t))
  {
    hide Honoured, Salt, StreamId, TaskOK, Core, PhaseOK;
    var k := t.step.k;
    var stream := StreamId(s.id, t.m.peer, k);
    var u := s.(worker := s.worker[stream := c.mediaKey(t.secret, t.salt, stream)]);
    KeyTask(c, s, u, t);
    NotYetEstablished(c, s, t);
    MoveOn(c, s, u, t.(step := if k < 3 then KeyFor(k + 1) else ChatSend));
  }

  lemma KeyTask(c: Crypto, s: Session, u: Session, t: Task)
    requires Under(c, s, t) && t.step.KeyFor?
    requires var stream := StreamId(s.id, t.m.peer, t.step.k);
             u == s.(worker := s.worker[stream := c.mediaKey(t.secret, t.salt, stream)])
    ensures FieldsOK(c, u) && DerivedOK(c, u) && LogOK(c, u)
    ensures TaskOK(c, u, t.(step := if t.step.k < 3 then KeyFor(t.step.k + 1) else ChatSend))
  {
    hide Honoured, Salt, StreamId;
  }

  lemma ChatStep(c: Crypto, s: Session, t: Task)
    requires Under(c, s, t) && t.step.ChatRecv?
    ensures Core(c, RunFinalize(c, s, t)) && PhaseOK(RunFinalize(c, s, t))
  {
    hide Salt, StreamId, Honoured;
    var u := s.(chatSendKey := Some(c.chatKey(t.secret, t.salt, s.id)),
                chatRecvKey := Some(c.chatKey(t.secret, t.salt, t.m.peer)),
                chatSendSeq := 0, chatRecvSeq := -1, log := s.log + [GotChatKeys(s.generation)]);
    LogMore(c, s, u, GotChatKeys(s.generation));
    ChatTask(c, s, u, t);
    MoveOn(c, s, u, t.(step := Deriving));
  }

  lemma ChatTask(c: Crypto, s: Session, u: Session, t: Task)
    requires Under(c, s, t) && t.step.ChatRecv?
    requires u == s.(chatSendKey := u.chatSendKey, chatRecvKey := u.chatRecvKey,
                     chatSendSeq := u.chatSendSeq, chatRecvSeq := u.chatRecvSeq, log := s.log + [GotChatKeys(s.generation)])
    requires u.chatSendKey.Some?
    ensures TaskOK(c, u, t.(step := Deriving))
  {
    if s.role == Initiator {
      HonouredLonger(c, s.log, [GotChatKeys(s.generation)], s.generation);
    }
    hide Honoured;
  }

  /** The last step: everything is in place, and an initiator's record shows the commitment honoured. */
  lemma SecureStep(c: Crypto, s: Session, t: Task)
    requires Under(c, s, t) && t.step.Deriving?
    ensures Core(c, RunFinalize(c, s, t)) && PhaseOK(RunFinalize(c, s, t))
  {
    hide Honoured, Salt;
    var u := RunFinalize(c, s, t);
    LogMore(c, s, u, Secured(s.generation, t.m.role));
    OvertakenOK(c, s, u);
  }

  lemma FinalizeInv(c: Crypto, s: Session, t: Task)
    requires Core(c, s) && PhaseOK(s) && t.Finalize? && TaskOK(c, s, t)
    requires IsCurrent(t, s.generation) ==> NoneCurrent(s)
    ensures Core(c, RunFinalize(c, s, t)) && PhaseOK(RunFinalize(c, s, t))
  {
    hide Core, PhaseOK, TaskOK;
    if t.m.gen == s.generation {
      match t.step {
        case Agreeing => AgreeStep(c, s, t);
        case KeyFor(k) => KeyStep(c, s, t);
        case ChatRecv => ChatStep(c, s, t);
        case Deriving => SecureStep(c, s, t);
        case Importing => TranscribeStep(c, s, t);
        case Transcribing => TranscribeStep(c, s, t);
        case ChatSend => TranscribeStep(c, s, t);
      }
    } else if t.step.Importing? {
      PushStale(c, s, t.(step := Agreeing), t);
    } else if t.step.ChatSend? {
      PushStale(c, s, t.(step := ChatRecv), t);
    }
  }

  lemma StaleOK(c: Crypto, s: Session, t: Task, was: Task)
    requires FieldsOK(c, s) && was.Finalize? && TaskOK(c, s, was) && was.m.gen != s.generation && t.Finalize? && t.m == was.m
    ensures TaskOK(c, s, t) && !IsCurrent(t, s.generation)
  {
  }

  lemma PushStale(c: Crypto, s: Session, t: Task, was: Task)
    requires Core(c, s) && PhaseOK(s) && was.Finalize? && TaskOK(c, s, was) && was.m.gen != s.generation
    requires t.Finalize? && t.m == was.m
    ensures Core(c, s.(tasks := s.tasks + [t])) && PhaseOK(s.(tasks := s.tasks + [t]))
  {
    hide DerivedOK, TasksOK, LogOK, PhaseOK, TaskOK;
    StaleOK(c, s, t, was);
    PushCore(c, s, t);
    SamePhase(s, s.(tasks := s.tasks + [t]));
  }

  /** An overtaken run writes nothing: no key, no secret, no emoji, no established state, no worker key. */
  lemma OvertakenWritesNothing(c: Crypto, s: Session, i: nat, newKey: Bytes)
    requires i < |s.tasks|
    requires var t := s.tasks[i]; (t.Finalize? && t.m.gen != s.generation) || (t.Start? && t.gen != s.generation)
    ensures RunTask(c, s, i, newKey) == s.(tasks := RunTask(c, s, i, newKey).tasks)
  {
    hide RunStart, RunFinalize, Without;
    var t, s' := s.tasks[i], s.(tasks := Without(s.tasks, i));
    if t.Start? {
      OvertakenStart(c, s', t, newKey);
    } else {
      OvertakenFinalize(c, s', t);
    }
  }

  lemma OvertakenStart(c: Crypto, s: Session, t: Task, newKey: Bytes)
    requires t.Start? && t.gen != s.generation
    ensures RunStart(c, s, t, newKey) == s.(tasks := RunStart(c, s, t, newKey).tasks)
  {
    hide Introduce, TakeOwnKey;
    if t.at >= 2 {
      assert RunStart(c, s, t, newKey) == s;
    }
  }

  lemma OvertakenFinalize(c: Crypto, s: Session, t: Task)
    requires t.Finalize? && t.m.gen != s.generation
    ensures RunFinalize(c, s, t) == s.(tasks := RunFinalize(c, s, t).tasks)
  {
    hide RunFinalize;
    if t.step.Importing? || t.step.ChatSend? {
      OvertakenWaits(c, s, t);
    } else {
      OvertakenStops(c, s, t);
    }
  }

  lemma OvertakenWaits(c: Crypto, s: Session, t: Task)
    requires t.Finalize? && (t.step.Importing? || t.step.ChatSend?)
    ensures RunFinalize(c, s, t) == s.(tasks := RunFinalize(c, s, t).tasks)
  {
  }

  lemma OvertakenStops(c: Crypto, s: Session, t: Task)
    requires t.Finalize? && t.m.gen != s.generation && !t.step.Importing? && !t.step.ChatSend?
    ensures RunFinalize(c, s, t) == s
  {
    hide Salt, StreamId;
  }

  lemma TaskInv(c: Crypto, s: Session, i: nat, newKey: Bytes)
    requires Inv(c, s) && i < |s.tasks|
    ensures Inv(c, RunTask(c, s, i, newKey))
  {
    hide Core, PhaseOK, TaskOK, RunStart, RunFinalize, RunHash, Handle, Without, PeerOK;
    var t, s' := s.tasks[i], s.(tasks := Without(s.tasks, i));
    RemoveCore(c, s, i);
    SamePhase(s, s');
    match t {
      case Start(_, _, _, _) => StartTaskInv(c, s', t, newKey);
      case Finalize(_, _, _, _) => FinalizeInv(c, s', t);
      case Hash(pub) => HashInv(c, s', pub);
      case Continue(_, p) => HandleInv(c, s', p);
    }
    TaskFollows(c, s, i, newKey);
    PeerStays(s, RunTask(c, s, i, newKey));
  }

  lemma SamePhase(s: Session, t: Session)
    requires PhaseOK(s) && t == s.(tasks := t.tasks)
    ensures PhaseOK(t)
  {
    if CommitLogged(s) {
      var i :| CommitLoggedAt(s, i);
      assert CommitLoggedAt(t, i);
    }
  }

  lemma PeerStays(s: Session, t: Session)
    requires PeerOK(s) && SamePeer(s, t)
    ensures PeerOK(t)
  {
  }

  lemma MessageInv(c: Crypto, s: Session, from: Id, p: Payload)
    requires Inv(c, s)
    ensures Inv(c, OnMessage(s, from, p))
  {
    hide Core, PhaseOK, Handle, StartWith, Announce, TheOnly, Downgrade;
    if |s.users| == 1 && from == TheOnly(s.users) {
      if !s.supported || p.NoCrypto? {
        NamePeerCore(c, s, from);
        AnnounceSame(s.(peer := Some(from)));
      } else if s.peer != Some(from) || s.keyPair.None? {
        StartPhase(c, s, from);
        PushOther(c, StartWith(s, from), Continue(from, p));
      } else {
        HandleInv(c, s, p);
        HandleFollows(s, p);
        PeerStays(s, Handle(s, p));
      }
    }
  }

  lemma UsersInv(c: Crypto, s: Session, a: Action)
    requires Inv(c, s) && (a.AddUser? || a.DelUser? || a.SetRequire?)
    ensures Inv(c, Apply(c, s, a))
  {
    hide Core, PhaseOK, Recompute, Inv;
    match a {
      case AddUser(id) => AddInv(c, s, id);
      case DelUser(id) => DelInv(c, s, id);
      case SetRequire(b) =>
        InvParts(c, s);
        ElsewhereCore(c, s, s.(require := b));
        ElsewherePhase(s, s.(require := b));
        RecomputeInv(c, s.(require := b));
    }
  }

  lemma ElsewherePhase(s: Session, t: Session)
    requires PhaseOK(s) && t == s.(users := t.users, require := t.require, transformFailed := t.transformFailed)
    ensures PhaseOK(t)
  {
    if CommitLogged(s) {
      var i :| CommitLoggedAt(s, i);
      assert CommitLoggedAt(t, i);
    }
  }

  lemma OnlyOne(users: set<Id>, id: Id)
    ensures |users| == 1 && |users + {id}| == 1 ==> users + {id} == users
  {
    if id in users {
      assert users + {id} == users;
    } else {
      assert |users + {id}| == |users| + 1;
    }
  }

  lemma LastOne(users: set<Id>, id: Id)
    requires |users| == 1 && TheOnly(users) != id
    ensures users - {id} == users
  {
    var u := TheOnly(users);
    assert users == {u} by {
      assert |users - {u}| == 0;
    }
  }

  lemma AddInv(c: Crypto, s: Session, id: Id)
    requires Inv(c, s)
    ensures Inv(c, Recompute(s.(users := s.users + {id})))
  {
    hide Core, PhaseOK, Recompute, Inv;
    assert Core(c, s) && PhaseOK(s) && PeerOK(s) by { InvParts(c, s); }
    var t := s.(users := s.users + {id});
    ElsewhereCore(c, s, t);
    ElsewherePhase(s, t);
    OnlyOne(s.users, id);
    RecomputeInv(c, t);
  }

  lemma InvParts(c: Crypto, s: Session)
    requires Inv(c, s)
    ensures Core(c, s) && PhaseOK(s) && PeerOK(s)
  {
  }

  lemma DelInv(c: Crypto, s: Session, id: Id)
    requires Inv(c, s)
    ensures Inv(c, Apply(c, s, DelUser(id)))
  {
    hide Core, PhaseOK, Recompute, Inv;
    InvParts(c, s);
    var t := s.(users := s.users - {id});
    ElsewhereCore(c, s, t);
    ElsewherePhase(s, t);
    if s.peer == Some(id) {
      ResetCore(c, t);
      RecomputeInv(c, ResetPeer(t));
    } else {
      if |s.users| == 1 {
        LastOne(s.users, id);
      }
      RecomputeInv(c, t);
    }
  }

  lemma OtherInv(c: Crypto, s: Session, a: Action)
    requires Inv(c, s) && (a.AttachFails? || a.ContinueInClear? || a.Reject?)
    ensures Inv(c, Apply(c, s, a))
  {
    hide DerivedOK, TasksOK, LogOK, FieldsOK, Without;
    match a {
      case AttachFails =>
        if s.supported {
          ElsewhereCore(c, s, s.(transformFailed := true));
          AnnounceCore(c, s.(transformFailed := true));
          DowngradeCore(c, Announce(s.(transformFailed := true)));
        }
      case ContinueInClear =>
        ElsewhereCore(c, s, Apply(c, s, a));
      case Reject(i) =>
        if i < |s.tasks| {
          RemoveCore(c, s, i);
          SamePhase(s, Apply(c, s, a));
        }
    }
  }

  lemma StepInv(c: Crypto, s: Session, a: Action)
    requires Inv(c, s)
    ensures Inv(c, Apply(c, s, a))
  {
    hide Inv, RunTask, OnMessage;
    match a {
      case AddUser(_) => UsersInv(c, s, a);
      case DelUser(_) => UsersInv(c, s, a);
      case SetRequire(_) => UsersInv(c, s, a);
      case Message(from, p) => MessageInv(c, s, from, p);
      case AttachFails => OtherInv(c, s, a);
      case ContinueInClear => OtherInv(c, s, a);
      case Reject(_) => OtherInv(c, s, a);
      case Run(i, newKey) =>
        if i < |s.tasks| {
          TaskInv(c, s, i, newKey);
        }
    }
  }
}
