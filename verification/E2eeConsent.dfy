/**
 * When a call may go on in clear: never while the group requires encryption, and after an
 * encrypted call only once the user has agreed, whatever the server makes up; and what the
 * session knows of who is here and whom it waits for.
 */
module E2eeConsent {
  import opened Common
  import opened E2eeSession
  import opened E2eeSafety
  import opened E2eeRuns

  /** The group does not forbid it and, if this room has had an encrypted call, the user agreed since. */
  predicate ClearAllowed(s: Session) { !s.require && (s.wasEncrypted ==> s.clearAgreed) }

  /** The user is asked, and agrees. */
  predicate Consents(s: Session, a: Action) {
    a.ContinueInClear? && s.phase == Blocked && !s.require && s.wasEncrypted && !s.clearAgreed
  }

  /** How often a call has become encrypted. */
  function Secureds(log: seq<Event>): nat {
    if log == [] then 0 else Secureds(log[..|log| - 1]) + if log[|log| - 1].Secured? then 1 else 0
  }

  lemma OneMore(log: seq<Event>, e: Event)
    ensures Secureds(log + [e]) == Secureds(log) + if e.Secured? then 1 else 0
  {
    assert (log + [e])[..|log|] == log;
  }

  // What a piece of a handler does

  /** It remembers what was encrypted and agreed, and goes to a refusal or to clear only as it may. */
  predicate Sound(s: Session, t: Session) {
    && t.wasEncrypted == s.wasEncrypted && t.clearAgreed == s.clearAgreed && t.require == s.require
    && Secureds(t.log) == Secureds(s.log)
    && (t.phase == s.phase || t.phase in {Idle, Handshaking, Failed} || t.phase == if ClearAllowed(t) then Unencrypted else Blocked)
  }

  lemma SoundOn(s: Session, t: Session, u: Session)
    requires Sound(s, t) && Sound(t, u)
    ensures Sound(s, u)
  {
  }

  lemma ResetSound(s: Session)
    ensures Sound(s, ResetPeer(s)) && Sound(s, Fail(s)) && ResetPeer(s).users == s.users
  {
  }

  lemma DowngradeSound(s: Session)
    ensures Sound(s, Downgrade(s)) && Downgrade(s).phase == if ClearAllowed(s) then Unencrypted else Blocked
  {
  }

  lemma SaySound(s: Session, p: Payload)
    ensures Sound(s, Say(s, p))
  {
    OneMore(s.log, Sent(s.generation, p));
  }

  lemma AnnounceSound(s: Session)
    ensures Sound(s, Announce(s))
  {
    hide Say;
    SaySound(s, NoCrypto);
  }

  lemma NamedSound(s: Session, p: Id)
    ensures Sound(s, s.(peer := Some(p)))
    ensures Sound(s, Downgrade(s.(peer := Some(p)))) && Sound(s, Downgrade(Announce(s.(peer := Some(p)))))
  {
    hide Announce, Downgrade;
    var named := s.(peer := Some(p));
    AnnounceSound(named);
    DowngradeSound(named);
    DowngradeSound(Announce(named));
    SoundOn(s, named, Downgrade(named));
    SoundOn(named, Announce(named), Downgrade(Announce(named)));
    SoundOn(s, named, Downgrade(Announce(named)));
  }

  lemma StartSound(s: Session, p: Id)
    ensures Sound(s, StartWith(s, p))
  {
    hide Before;
  }

  lemma RecomputeSound(s: Session)
    ensures Sound(s, Recompute(s))
  {
    hide StartWith, ResetPeer, Downgrade, Announce, Sound;
    var r := ResetPeer(s);
    ResetSound(s);
    DowngradeSound(r);
    IdleSound(r);
    SoundOn(s, r, Downgrade(r));
    SoundOn(s, r, r.(phase := Idle));
    if |s.users| == 1 {
      NamedSound(s, TheOnly(s.users));
      StartSound(s, TheOnly(s.users));
    }
  }

  lemma IdleSound(s: Session)
    ensures Sound(s, s.(phase := Idle)) && Sound(s, s)
  {
  }

  lemma TasksSound(s: Session, tasks: seq<Task>)
    ensures Sound(s, s.(tasks := tasks)) && Sound(s, s)
  {
  }

  lemma HandleSound(s: Session, p: Payload)
    ensures Sound(s, Handle(s, p))
  {
    hide BeginFinalize, Fail, Sound, Answered, StoreKey, StoreCommit, Say;
    ResetSound(s);
    TasksSound(s, s.tasks);
    match p {
      case NoCrypto =>
      case Hello(_) =>
        if s.myCommit.Some? {
          SaySound(s, CommitTo(PROTOCOL_VERSION, s.myCommit.value));
        }
      case CommitTo(_, commit) => CommitSound(s, commit);
      case Dh(_, pub) =>
        KeySound(s, pub);
        TasksSound(s, s.tasks + [Hash(pub)]);
    }
  }

  lemma CommitSound(s: Session, commit: Bytes)
    ensures Sound(s, Answered(StoreCommit(s, commit)))
  {
    hide Say;
    OneMore(s.log, StoredCommit(s.generation, commit));
    var t := StoreCommit(s, commit);
    SaySound(t, Dh(PROTOCOL_VERSION, OwnPub(t)));
    SoundOn(s, t, Answered(t));
  }

  lemma KeySound(s: Session, pub: Bytes)
    ensures Sound(s, BeginFinalize(Answered(StoreKey(s, pub)))) && Sound(s, BeginFinalize(StoreKey(s, pub)))
  {
    hide Say, BeginFinalize;
    OneMore(s.log, StoredKey(s.generation, pub));
    var t := StoreKey(s, pub);
    SaySound(t, Dh(PROTOCOL_VERSION, OwnPub(t)));
    BeginFollows(t);
    BeginFollows(Answered(t));
    SoundOn(s, t, Answered(t));
  }

  lemma MessageSound(s: Session, from: Id, p: Payload)
    ensures Sound(s, OnMessage(s, from, p))
  {
    hide StartWith, Handle, Downgrade, Announce, Sound;
    HandleSound(s, p);
    StartSound(s, from);
    NamedSound(s, from);
    var t := StartWith(s, from);
    TasksSound(t, t.tasks + [Continue(from, p)]);
    TasksSound(s, s.tasks);
    SoundOn(s, t, t.(tasks := t.tasks + [Continue(from, p)]));
  }

  lemma HashSound(c: Crypto, s: Session, pub: Bytes)
    ensures Sound(s, RunHash(c, s, pub))
  {
    hide BeginFinalize, Fail, Sound, StoreKey;
    ResetSound(s);
    TasksSound(s, s.tasks);
    KeySound(s, pub);
  }

  lemma RunStartSound(c: Crypto, s: Session, t: Task, newKey: Bytes)
    requires t.Start?
    ensures Sound(s, RunStart(c, s, t, newKey))
  {
    hide Introduce, TakeOwnKey, Sound;
    TasksSound(s, s.tasks + [t.(at := 1, keyPair := newKey)]);
    TasksSound(s, s.tasks + [t.(at := 2)]);
    IntroduceSound(c, s, t.keyPair);
  }

  lemma IntroduceSound(c: Crypto, s: Session, keyPair: Bytes)
    ensures Sound(s, Introduce(TakeOwnKey(c, s, keyPair)))
  {
    hide Say;
    var t := TakeOwnKey(c, s, keyPair);
    SaySound(t, Hello(PROTOCOL_VERSION));
    if t.myCommit.Some? {
      SaySound(Say(t, Hello(PROTOCOL_VERSION)), CommitTo(PROTOCOL_VERSION, t.myCommit.value));
    }
  }

  /** A run of finalize that becomes encrypted here. */
  predicate Secures(s: Session, t: Task) { t.Finalize? && t.step.Deriving? && t.m.gen == s.generation }

  /** From then on there is something to lose, and nothing has been agreed. */
  predicate NewlySecured(s: Session, t: Session) {
    t.phase == Established && t.wasEncrypted && !t.clearAgreed && t.require == s.require && Secureds(t.log) == Secureds(s.log) + 1
  }

  lemma FinalizeSound(c: Crypto, s: Session, t: Task)
    requires t.Finalize?
    ensures if Secures(s, t) then NewlySecured(s, RunFinalize(c, s, t)) else Sound(s, RunFinalize(c, s, t))
  {
    hide RunFinalize, Sound, NewlySecured;
    match t.step {
      case Deriving => SecureSound(c, s, t);
      case ChatRecv => KeysSound(c, s, t);
      case KeyFor(_) => StreamSound(c, s, t);
      case Agreeing => AgreeSound(c, s, t);
      case _ => WaitSound(c, s, t);
    }
  }

  lemma SecureSound(c: Crypto, s: Session, t: Task)
    requires t.Finalize? && t.step.Deriving?
    ensures if Secures(s, t) then NewlySecured(s, RunFinalize(c, s, t)) else Sound(s, RunFinalize(c, s, t))
  {
    OneMore(s.log, Secured(s.generation, t.m.role));
  }

  lemma KeysSound(c: Crypto, s: Session, t: Task)
    requires t.Finalize? && t.step.ChatRecv?
    ensures Sound(s, RunFinalize(c, s, t))
  {
    OneMore(s.log, GotChatKeys(s.generation));
  }

  lemma StreamSound(c: Crypto, s: Session, t: Task)
    requires t.Finalize? && t.step.KeyFor?
    ensures Sound(s, RunFinalize(c, s, t))
  {
    hide StreamId;
  }

  lemma AgreeSound(c: Crypto, s: Session, t: Task)
    requires t.Finalize? && t.step.Agreeing?
    ensures Sound(s, RunFinalize(c, s, t))
  {
  }

  lemma WaitSound(c: Crypto, s: Session, t: Task)
    requires t.Finalize? && (t.step.Importing? || t.step.Transcribing? || t.step.ChatSend?)
    ensures Sound(s, RunFinalize(c, s, t))
  {
    hide Salt;
  }

  lemma TaskSound(c: Crypto, s: Session, i: nat, newKey: Bytes)
    requires i < |s.tasks|
    ensures if Secures(s, s.tasks[i]) then NewlySecured(s, RunTask(c, s, i, newKey)) else Sound(s, RunTask(c, s, i, newKey))
  {
    hide RunStart, RunFinalize, RunHash, Handle, Without;
    var t, s' := s.tasks[i], s.(tasks := Without(s.tasks, i));
    match t {
      case Start(_, _, _, _) => RunStartSound(c, s', t, newKey);
      case Finalize(_, _, _, _) => FinalizeSound(c, s', t);
      case Hash(pub) => HashSound(c, s', pub);
      case Continue(_, p) => HandleSound(s', p);
    }
  }

  // One step

  /** The task of this step makes the call encrypted. */
  predicate SecuresNow(s: Session, a: Action) { a.Run? && a.i < |s.tasks| && Secures(s, s.tasks[a.i]) }

  /** What a step goes to, it may go to. */
  predicate RightPhase(s: Session, t: Session) {
    && (t.phase == Unencrypted && s.phase != Unencrypted ==> ClearAllowed(t))
    && (t.phase == Blocked && s.phase != Blocked ==> !ClearAllowed(t))
  }

  lemma LeavingSound(s: Session)
    ensures Sound(s, Recompute(s)) && Sound(s, Recompute(ResetPeer(s)))
  {
    hide Recompute, ResetPeer, Sound;
    ResetSound(s);
    RecomputeSound(s);
    RecomputeSound(ResetPeer(s));
    SoundOn(s, ResetPeer(s), Recompute(ResetPeer(s)));
  }

  lemma AttachSound(s: Session)
    ensures Sound(s, Downgrade(Announce(s)))
  {
    hide Announce, Downgrade, Sound;
    AnnounceSound(s);
    DowngradeSound(Announce(s));
    SoundOn(s, Announce(s), Downgrade(Announce(s)));
  }

  /**
   * Encryption is remembered from the step that brought it, consent from the step that gave it to the next
   * encryption, and clear or a refusal is entered only where it is right.
   */
  predicate Remembered(s: Session, a: Action, t: Session) {
    && RightPhase(s, t)
    && (t.wasEncrypted <==> s.wasEncrypted || SecuresNow(s, a))
    && (t.clearAgreed <==> !SecuresNow(s, a) && (s.clearAgreed || Consents(s, a)))
    && Secureds(t.log) == Secureds(s.log) + if SecuresNow(s, a) then 1 else 0
  }

  lemma SoundRemembers(s: Session, s': Session, a: Action, t: Session)
    requires Sound(s', t) && !SecuresNow(s, a) && !Consents(s, a)
    requires s' == s.(users := s'.users, require := s'.require, transformFailed := s'.transformFailed)
    ensures Remembered(s, a, t)
  {
  }

  /** Every step, whatever happens, remembers what it should. */
  lemma StepRemembers(c: Crypto, s: Session, a: Action)
    ensures Remembered(s, a, Apply(c, s, a))
  {
    hide Recompute, OnMessage, RunTask, ResetPeer, Downgrade, Announce, Without, Secureds, Sound, Remembered;
    var t := Apply(c, s, a);
    TasksSound(s, s.tasks);
    match a {
      case AddUser(id) =>
        var s' := s.(users := s.users + {id});
        RecomputeSound(s');
        SoundRemembers(s, if id == s.id then s else s', a, t);
      case DelUser(id) =>
        LeavingSound(s.(users := s.users - {id}));
        SoundRemembers(s, s.(users := s.users - {id}), a, t);
      case SetRequire(b) =>
        RecomputeSound(s.(require := b));
        SoundRemembers(s, s.(require := b), a, t);
      case Message(from, p) =>
        MessageSound(s, from, p);
        SoundRemembers(s, s, a, t);
      case AttachFails =>
        AttachSound(s.(transformFailed := true));
        SoundRemembers(s, if s.supported then s.(transformFailed := true) else s, a, t);
      case ContinueInClear => ConsentRemembers(c, s);
      case Run(i, newKey) => RunRemembers(c, s, i, newKey);
      case Reject(i) =>
        if i < |s.tasks| {
          TasksSound(s, Without(s.tasks, i));
        }
        SoundRemembers(s, s, a, t);
    }
  }

  lemma ConsentRemembers(c: Crypto, s: Session)
    ensures Remembered(s, ContinueInClear, Apply(c, s, ContinueInClear))
  {
  }

  lemma RunRemembers(c: Crypto, s: Session, i: nat, newKey: Bytes)
    ensures Remembered(s, Run(i, newKey), Apply(c, s, Run(i, newKey)))
  {
    hide RunTask, Secureds;
    if i < |s.tasks| {
      TaskSound(c, s, i, newKey);
    }
  }

  // On every run

  /** The user has agreed, and no call has become encrypted since. */
  ghost predicate AgreedAt(c: Crypto, start: Session, run: seq<Action>, k: int) {
    && 0 <= k < |run| && Consents(Exec(c, start, run[..k]), run[k])
    && Secureds(Exec(c, start, run[..k]).log) == Secureds(Exec(c, start, run).log)
  }

  lemma {:induction false} LogGrows(c: Crypto, start: Session, run: seq<Action>, k: nat)
    requires k <= |run|
    ensures Secureds(Exec(c, start, run[..k]).log) <= Secureds(Exec(c, start, run).log)
  {
    hide Apply, Secureds;
    if k == |run| {
      assert run[..k] == run;
    } else {
      var before := run[..|run| - 1];
      assert run[..k] == before[..k];
      LogGrows(c, start, before, k);
      StepRemembers(c, Exec(c, start, before), run[|before|]);
    }
  }

  /**
   * On every run: the session remembers an encrypted call exactly if there was one, and a consent
   * exactly if the user gave it after the last one.
   */
  lemma {:induction false} RemembersExactly(c: Crypto, id: Id, supported: bool, run: seq<Action>)
    ensures var start := NewSession(id, supported); var s := Exec(c, start, run);
            && (s.wasEncrypted <==> Secureds(s.log) > 0)
            && (s.clearAgreed <==> exists k :: AgreedAt(c, start, run, k))
  {
    hide Apply, Secureds, Consents, SecuresNow, RightPhase;
    var start := NewSession(id, supported);
    if run == [] {
      NothingSecured();
    } else {
      var before, a := run[..|run| - 1], run[|run| - 1];
      RemembersExactly(c, id, supported, before);
      StepRemembers(c, Exec(c, start, before), a);
      AgreedOn(c, start, run);
    }
  }

  lemma NothingSecured()
    ensures Secureds([]) == 0
  {
  }

  /** A consent stands until the next encryption. */
  lemma AgreedOn(c: Crypto, start: Session, run: seq<Action>)
    requires run != []
    ensures var before, a := run[..|run| - 1], run[|run| - 1]; var s := Exec(c, start, before);
            (exists k :: AgreedAt(c, start, run, k)) <==>
              !SecuresNow(s, a) && (Consents(s, a) || exists k :: AgreedAt(c, start, before, k))
  {
    hide Apply, Secureds, Consents, SecuresNow, RightPhase;
    var before, a := run[..|run| - 1], run[|run| - 1];
    var s := Exec(c, start, before);
    StepRemembers(c, s, a);
    assert forall k :: 0 <= k <= |before| ==> run[..k] == before[..k];
    assert before[..|before|] == before;
    if k :| AgreedAt(c, start, run, k) {
      if k < |before| {
        LogGrows(c, start, before, k);
        assert AgreedAt(c, start, before, k);
      }
    }
    if !SecuresNow(s, a) {
      if Consents(s, a) {
        assert AgreedAt(c, start, run, |before|);
      } else if k :| AgreedAt(c, start, before, k) {
        assert AgreedAt(c, start, run, k);
      }
    }
  }

  /**
   * Whatever happens next on any run: the call goes on in clear only if the group does not require
   * encryption and, where a call has been encrypted, the user has agreed since; and it is refused only
   * if one of these is missing.
   */
  lemma ClearOnlyIfAllowed(c: Crypto, id: Id, supported: bool, run: seq<Action>, a: Action)
    ensures var start := NewSession(id, supported); var all := run + [a];
            var s, t := Exec(c, start, run), Exec(c, start, all);
            var agreed := Secureds(t.log) > 0 ==> exists k :: AgreedAt(c, start, all, k);
            && (t.phase == Unencrypted && s.phase != Unencrypted ==> !t.require && agreed)
            && (t.phase == Blocked && s.phase != Blocked ==> t.require || !agreed)
  {
    hide Exec, Apply, Secureds, AgreedAt, SecuresNow, Consents;
    var start := NewSession(id, supported);
    RemembersExactly(c, id, supported, run + [a]);
    StepRemembers(c, Exec(c, start, run), a);
    ExecOne(c, start, run, a);
  }

  lemma ExecOne(c: Crypto, start: Session, run: seq<Action>, a: Action)
    ensures Exec(c, start, run + [a]) == Apply(c, Exec(c, start, run), a)
  {
    hide Apply;
    assert (run + [a])[..|run|] == run;
  }

  // Who is here, and what is asked for

  predicate SameRoom(s: Session, t: Session) {
    t.id == s.id && t.users == s.users && t.supported == s.supported && t.transformFailed == s.transformFailed
  }

  lemma RecomputeRoom(s: Session)
    ensures SameRoom(s, Recompute(s))
  {
    hide Before, TheOnly, Downgrade;
    GivesUp(ResetPeer(s));
    if |s.users| == 1 {
      GivesUp(Announce(s.(peer := Some(TheOnly(s.users)))));
    }
  }

  lemma MessageRoom(s: Session, from: Id, p: Payload)
    ensures SameRoom(s, OnMessage(s, from, p))
  {
    hide Before, TheOnly, Downgrade, Handle, StartWith, Announce;
    HandleFollows(s, p);
    StartRoom(s, from);
    AnnounceRoom(s.(peer := Some(from)));
    GivesUp(s.(peer := Some(from)));
    GivesUp(Announce(s.(peer := Some(from))));
  }

  lemma StartRoom(s: Session, peer: Id)
    ensures SameRoom(s, StartWith(s, peer))
  {
    hide Before;
  }

  lemma AnnounceRoom(s: Session)
    ensures SameRoom(s, Announce(s))
  {
  }

  lemma StepRoom(c: Crypto, s: Session, a: Action)
    ensures var t := Apply(c, s, a);
            && t.users == (if a.AddUser? && a.id != s.id then s.users + {a.id} else if a.DelUser? then s.users - {a.id} else s.users)
            && t.id == s.id && t.supported == s.supported && (t.transformFailed <==> s.transformFailed || (a.AttachFails? && s.supported))
  {
    hide Recompute, OnMessage, RunTask, ResetPeer, Downgrade, Announce, Without;
    match a {
      case AddUser(id) => RecomputeRoom(s.(users := s.users + {id}));
      case DelUser(id) =>
        var s' := s.(users := s.users - {id});
        ResetDecides(s');
        ResetRoom(s');
        RecomputeRoom(s');
        RecomputeRoom(ResetPeer(s'));
      case SetRequire(b) => RecomputeRoom(s.(require := b));
      case Message(from, p) => MessageRoom(s, from, p);
      case AttachFails =>
        AnnounceRoom(s.(transformFailed := true));
        GivesUp(Announce(s.(transformFailed := true)));
      case Run(i, newKey) =>
        if i < |s.tasks| {
          TaskFollows(c, s, i, newKey);
        }
      case _ =>
    }
  }

  lemma ResetRoom(s: Session)
    ensures SameRoom(s, ResetPeer(s))
  {
  }

  lemma StepOption(c: Crypto, s: Session, a: Action)
    ensures Apply(c, s, a).require == if a.SetRequire? then a.require else s.require
  {
    hide Recompute, OnMessage, RunTask, ResetPeer, Downgrade, Announce, Without, Secureds;
    match a {
      case AddUser(id) => RecomputeSound(s.(users := s.users + {id}));
      case DelUser(id) => LeavingSound(s.(users := s.users - {id}));
      case SetRequire(b) => RecomputeSound(s.(require := b));
      case Message(from, p) => MessageSound(s, from, p);
      case AttachFails => AttachSound(s.(transformFailed := true));
      case Run(i, newKey) =>
        if i < |s.tasks| {
          TaskSound(c, s, i, newKey);
        }
      case _ =>
    }
  }

  /** While its key is awaited, the peer is the one that it is awaited for. */
  predicate AwaitsRight(s: Session) { s.startingFor.Some? ==> s.peer == s.startingFor && s.keyPair.None? }

  predicate SameOwn(s: Session, t: Session) { t.peer == s.peer && t.keyPair == s.keyPair && t.startingFor == s.startingFor }

  lemma SayOwn(s: Session, p: Payload)
    ensures SameOwn(s, Say(s, p)) && SameOwn(s, Fail(s)) && SameOwn(s, s)
  {
  }

  lemma CommitOwn(s: Session, commit: Bytes)
    ensures SameOwn(s, Answered(StoreCommit(s, commit)))
  {
  }

  lemma KeyOwn(s: Session, pub: Bytes)
    ensures SameOwn(s, BeginFinalize(Answered(StoreKey(s, pub)))) && SameOwn(s, BeginFinalize(StoreKey(s, pub)))
    ensures SameOwn(s, s.(tasks := s.tasks + [Hash(pub)]))
  {
    hide BeginFinalize;
    BeginFollows(Answered(StoreKey(s, pub)));
    BeginFollows(StoreKey(s, pub));
  }

  lemma HandleOwn(s: Session, p: Payload)
    ensures SameOwn(s, Handle(s, p))
  {
    hide BeginFinalize, Fail, Answered, StoreKey, StoreCommit, Say, SameOwn;
    SayOwn(s, if s.myCommit.Some? then CommitTo(PROTOCOL_VERSION, s.myCommit.value) else p);
    match p {
      case CommitTo(_, commit) => CommitOwn(s, commit);
      case Dh(_, pub) => KeyOwn(s, pub);
      case _ =>
    }
  }

  lemma StartAwaits(s: Session, peer: Id)
    requires AwaitsRight(s)
    ensures AwaitsRight(StartWith(s, peer))
  {
    hide Before;
  }

  lemma AnnounceAwaits(s: Session, only: Id)
    requires AwaitsRight(s) && (s.peer.Some? ==> s.peer == Some(only))
    ensures AwaitsRight(Downgrade(s.(peer := Some(only)))) && AwaitsRight(Downgrade(Announce(s.(peer := Some(only)))))
  {
  }

  lemma RecomputeAwaits(s: Session)
    requires AwaitsRight(s) && (s.peer.Some? && |s.users| == 1 ==> s.peer == Some(TheOnly(s.users)))
    ensures AwaitsRight(Recompute(s))
  {
    hide StartWith, Downgrade, Announce;
    GivesUp(ResetPeer(s));
    if |s.users| == 1 {
      AnnounceAwaits(s, TheOnly(s.users));
      StartAwaits(s, TheOnly(s.users));
    }
  }

  lemma TaskAwaits(c: Crypto, s: Session, i: nat, newKey: Bytes)
    requires AwaitsRight(s) && i < |s.tasks|
    ensures AwaitsRight(RunTask(c, s, i, newKey))
  {
    hide RunStart, RunFinalize, RunHash, Handle, Without;
    var t, s' := s.tasks[i], s.(tasks := Without(s.tasks, i));
    match t {
      case Start(_, _, _, _) => RunStartAwaits(c, s', t, newKey);
      case Finalize(_, _, _, _) => FinalizeKeeps(c, s', t);
      case Hash(pub) => HashOwn(c, s', pub);
      case Continue(_, p) => HandleOwn(s', p);
    }
  }

  lemma RunStartAwaits(c: Crypto, s: Session, t: Task, newKey: Bytes)
    requires t.Start? && AwaitsRight(s)
    ensures AwaitsRight(RunStart(c, s, t, newKey))
  {
    hide Introduce, TakeOwnKey;
    IntroduceAwaits(c, s, t.keyPair);
  }

  lemma IntroduceAwaits(c: Crypto, s: Session, keyPair: Bytes)
    ensures Introduce(TakeOwnKey(c, s, keyPair)).startingFor.None?
  {
  }

  lemma HashOwn(c: Crypto, s: Session, pub: Bytes)
    ensures SameOwn(s, RunHash(c, s, pub))
  {
    hide BeginFinalize, Fail, StoreKey, Say, SameOwn;
    SayOwn(s, NoCrypto);
    KeyOwn(s, pub);
  }

  lemma MessageAwaits(c: Crypto, s: Session, from: Id, p: Payload)
    requires AwaitsRight(s) && (s.peer.Some? && |s.users| == 1 ==> s.peer == Some(TheOnly(s.users)))
    ensures AwaitsRight(OnMessage(s, from, p))
  {
    hide StartWith, Downgrade, Announce, Handle;
    HandleOwn(s, p);
    StartAwaits(s, from);
    if |s.users| == 1 && from == TheOnly(s.users) {
      AnnounceAwaits(s, from);
    }
  }

  /** The peer is the only other participant, after whatever change of the participants too. */
  lemma OnlyPeer(c: Crypto, s: Session, id: Id)
    requires Inv(c, s)
    ensures s.peer.Some? ==> |s.users| == 1 && s.peer == Some(TheOnly(s.users))
    ensures var users := s.users + {id}; s.peer.Some? && |users| == 1 ==> s.peer == Some(TheOnly(users))
    ensures var users := s.users - {id}; s.peer.Some? && s.peer != Some(id) && |users| == 1 ==> s.peer == Some(TheOnly(users))
  {
    hide Core, PhaseOK;
    OnlyOne(s.users, id);
    if |s.users| == 1 && TheOnly(s.users) != id {
      LastOne(s.users, id);
    }
  }

  lemma AttachAwaits(s: Session)
    requires AwaitsRight(s)
    ensures AwaitsRight(Downgrade(Announce(s.(transformFailed := true))))
  {
  }

  lemma ResetAwaits(s: Session)
    ensures AwaitsRight(ResetPeer(s)) && ResetPeer(s).peer.None?
  {
  }

  lemma StepAwaits(c: Crypto, s: Session, a: Action)
    requires Inv(c, s) && AwaitsRight(s)
    ensures AwaitsRight(Apply(c, s, a))
  {
    hide Inv, Recompute, OnMessage, RunTask, ResetPeer, Downgrade, Announce, Without;
    OnlyPeer(c, s, if a.AddUser? || a.DelUser? then a.id else s.id);
    match a {
      case AddUser(id) => RecomputeAwaits(s.(users := s.users + {id}));
      case DelUser(id) =>
        var s' := s.(users := s.users - {id});
        ResetAwaits(s');
        if s.peer == Some(id) {
          RecomputeAwaits(ResetPeer(s'));
        } else {
          RecomputeAwaits(s');
        }
      case SetRequire(b) => RecomputeAwaits(s.(require := b));
      case Message(from, p) => MessageAwaits(c, s, from, p);
      case AttachFails => AttachAwaits(s);
      case Run(i, newKey) =>
        if i < |s.tasks| {
          TaskAwaits(c, s, i, newKey);
        }
      case _ =>
    }
  }

  /** On every run: while a key is awaited for somebody, that one is the peer, and there is no key yet. */
  lemma {:induction false} AwaitedForPeer(c: Crypto, id: Id, supported: bool, run: seq<Action>)
    ensures AwaitsRight(Exec(c, NewSession(id, supported), run))
  {
    hide Apply, Inv;
    if run != [] {
      AwaitedForPeer(c, id, supported, run[..|run| - 1]);
      RunInv(c, id, supported, run[..|run| - 1]);
      StepAwaits(c, Exec(c, NewSession(id, supported), run[..|run| - 1]), run[|run| - 1]);
    }
  }

  /** The id came here and has not gone since. */
  predicate HereSince(own: Id, run: seq<Action>, id: Id, k: int) {
    0 <= k < |run| && run[k] == AddUser(id) && id != own && forall m :: k < m < |run| ==> run[m] != DelUser(id)
  }

  predicate RequiredSince(run: seq<Action>, k: int) {
    0 <= k < |run| && run[k] == SetRequire(true) && forall m :: k < m < |run| ==> run[m] != SetRequire(false)
  }

  /**
   * On every run: the participants are those that came and have not gone, other than this client itself;
   * encryption is required exactly if it was last set so; and a transform has failed exactly if one did.
   */
  lemma {:induction false} RoomIs(c: Crypto, id: Id, supported: bool, run: seq<Action>, u: Id)
    ensures var s := Exec(c, NewSession(id, supported), run);
            && (u in s.users <==> exists k :: HereSince(id, run, u, k))
            && (s.require <==> exists k :: RequiredSince(run, k))
            && s.id == id && s.supported == supported
            && (s.transformFailed <==> supported && exists k :: 0 <= k < |run| && run[k] == AttachFails)
  {
    hide Apply;
    if run != [] {
      var before, a, n := run[..|run| - 1], run[|run| - 1], |run| - 1;
      RoomIs(c, id, supported, before, u);
      StepRoom(c, Exec(c, NewSession(id, supported), before), a);
      StepOption(c, Exec(c, NewSession(id, supported), before), a);
      assert forall k :: 0 <= k < n ==> (HereSince(id, run, u, k) <==> HereSince(id, before, u, k) && a != DelUser(u));
      assert HereSince(id, run, u, n) <==> a == AddUser(u) && u != id;
      assert forall k :: 0 <= k < n ==> (RequiredSince(run, k) <==> RequiredSince(before, k) && a != SetRequire(false));
      assert RequiredSince(run, n) <==> a == SetRequire(true);
      assert forall k :: 0 <= k < n ==> run[k] == before[k];
    }
  }

  // What decides

  /** Refused or in clear, as it may be. */
  predicate GivenUp(t: Session) { t.phase == if ClearAllowed(t) then Unencrypted else Blocked }

  ghost predicate Telling(t: Session) { t.log != [] && t.log[|t.log| - 1] == Sent(t.generation, NoCrypto) }

  /** A handshake with the only other participant: a new one, or the one that was there already. */
  ghost predicate Meeting(s: Session, t: Session)
    requires |t.users| == 1
  {
    && t.peer == Some(TheOnly(t.users))
    && (if t.generation == s.generation
        then t.phase == s.phase && s.peer == t.peer && (t.keyPair.Some? || t.startingFor == t.peer)
        else t.generation == s.generation + 1 && t.phase == Handshaking && t.startingFor == t.peer && t.keyPair.None?)
  }

  /**
   * Who is here decides, whenever that or the option has changed: alone, the session is idle, or refused if
   * it must encrypt and cannot; with two others it is given up; with one other it is given up, and that one
   * told, if this client cannot encrypt, and else a handshake with that one is under way.
   */
  lemma ParticipantsDecide(c: Crypto, s: Session, a: Action)
    requires Inv(c, s) && ((a.AddUser? && a.id != s.id) || a.DelUser? || a.SetRequire?)
    ensures var t := Apply(c, s, a);
            && t.users == (if a.AddUser? then s.users + {a.id} else if a.DelUser? then s.users - {a.id} else s.users)
            && t.require == (if a.SetRequire? then a.require else s.require)
            && (|t.users| == 0 ==> t.phase == (if t.require && !CanEncrypt(t) then Blocked else Idle))
            && (|t.users| >= 2 ==> GivenUp(t))
            && (|t.users| == 1 && !CanEncrypt(t) ==> GivenUp(t) && t.peer == Some(TheOnly(t.users)) && Telling(t))
            && (|t.users| == 1 && CanEncrypt(t) ==> Meeting(s, t))
  {
    hide Inv, Recompute;
    if a.AddUser? {
      RecomputeDecides(s.(users := s.users + {a.id}));
    } else if a.DelUser? {
      if s.peer == Some(a.id) {
        LeavesAlone(c, s, a.id);
        RecomputeDecides(ResetPeer(s.(users := s.users - {a.id})));
      } else {
        RecomputeDecides(s.(users := s.users - {a.id}));
      }
    } else {
      RecomputeDecides(s.(require := a.require));
    }
  }

  lemma LeavesAlone(c: Crypto, s: Session, id: Id)
    requires Inv(c, s) && s.peer == Some(id)
    ensures s.users - {id} == {}
  {
    hide Core, PhaseOK;
    assert |s.users - {id}| == 0;
  }

  lemma RecomputeDecides(s: Session)
    ensures var t := Recompute(s);
            && t.users == s.users && t.require == s.require && CanEncrypt(t) == CanEncrypt(s)
            && (|s.users| == 0 ==> t.phase == (if s.require && !CanEncrypt(s) then Blocked else Idle))
            && (|s.users| >= 2 ==> GivenUp(t))
            && (|s.users| == 1 && !CanEncrypt(s) ==> GivenUp(t) && t.peer == Some(TheOnly(s.users)) && Telling(t))
            && (|s.users| == 1 && CanEncrypt(s) ==> Meeting(s, t))
  {
    hide ResetPeer, Downgrade, Announce, StartWith, GivenUp, Telling, Meeting;
    ResetDecides(s);
    GivesUp(ResetPeer(s));
    if |s.users| == 1 {
      Tells(s, TheOnly(s.users));
      if CanEncrypt(s) {
        Meets(s, TheOnly(s.users));
      }
    }
  }

  lemma ResetDecides(s: Session)
    ensures var r := ResetPeer(s);
            && r.users == s.users && r.require == s.require && CanEncrypt(r) == CanEncrypt(s)
            && r.wasEncrypted == s.wasEncrypted && r.clearAgreed == s.clearAgreed
  {
  }

  lemma GivesUp(s: Session)
    ensures var t := Downgrade(s);
            GivenUp(t) && t == s.(phase := t.phase) && (s.require ==> t.phase == Blocked)
  {
  }

  lemma Tells(s: Session, only: Id)
    ensures var t := Downgrade(Announce(s.(peer := Some(only))));
            && GivenUp(t) && Telling(t) && t.peer == Some(only)
            && t.users == s.users && t.require == s.require && CanEncrypt(t) == CanEncrypt(s)
  {
    hide Downgrade, GivenUp;
    GivesUp(Announce(s.(peer := Some(only))));
  }

  lemma Meets(s: Session, only: Id)
    requires |s.users| == 1 && only == TheOnly(s.users) && CanEncrypt(s)
    ensures var t := StartWith(s, only);
            Meeting(s, t) && t.users == s.users && t.require == s.require && CanEncrypt(t) == CanEncrypt(s)
  {
    hide Before;
  }

  /**
   * The other ways to give up: this client cannot put the transform in place, or the only other
   * participant says that it cannot encrypt, or this client never could.
   */
  lemma OthersDecide(c: Crypto, s: Session, from: Id, p: Payload)
    ensures s.supported ==> GivenUp(Apply(c, s, AttachFails)) && (s.peer.Some? ==> Telling(Apply(c, s, AttachFails)))
    ensures |s.users| == 1 && from == TheOnly(s.users) && (p.NoCrypto? || !s.supported) ==>
              var t := Apply(c, s, Message(from, p)); GivenUp(t) && t.peer == Some(from) && (!s.supported ==> Telling(t))
    ensures |s.users| != 1 || from != TheOnly(s.users) ==> Apply(c, s, Message(from, p)) == s
  {
    hide Downgrade, GivenUp, Recompute, StartWith, Handle;
    GivesUp(Announce(s.(transformFailed := true)));
    GivesUp(s.(peer := Some(from)));
    GivesUp(Announce(s.(peer := Some(from))));
  }
}
