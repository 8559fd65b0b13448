/** What makes the encryption session fail, on every run, and what is left of it then. */
module E2eeFailure {
  import opened Common
  import opened E2eeSession
  import opened E2eeSafety
  import opened E2eeRuns

  /**
   * A message that ends a handshake: of another version, or with a second commitment or a
   * second key that differs from the first.
   */
  predicate Clashes(s: Session, p: Payload) {
    && s.phase != Established && s.phase != Failed && s.myCommit.Some?
    && (|| Version(p) != PROTOCOL_VERSION
        || (p.CommitTo? && s.role == Initiator && s.peerCommit.Some? && s.peerCommit.value != p.commit)
        || (p.Dh? && s.peerPub.Some? && s.peerPub.value != p.pub))
  }

  /** A key that does not open the commitment. */
  predicate BreaksCommitment(c: Crypto, s: Session, pub: Bytes) {
    s.peerCommit.Some? && c.commit(pub) != s.peerCommit.value
  }

  /** The message is from the only other participant, and a session with it is under way. */
  ghost predicate Heeded(s: Session, from: Id, p: Payload) {
    && |s.users| == 1 && from == TheOnly(s.users) && s.supported && !p.NoCrypto? && s.peer == Some(from) && s.keyPair.Some?
  }

  ghost predicate Cause(c: Crypto, s: Session, a: Action) {
    match a
    case Message(from, p) => Heeded(s, from, p) && Clashes(s, p)
    case Run(i, _) => i < |s.tasks| && TaskFails(c, s, s.tasks[i])
    case _ => false
  }

  predicate TaskFails(c: Crypto, s: Session, t: Task) {
    match t
    case Continue(_, p) => Clashes(s, p)
    case Hash(pub) => BreaksCommitment(c, s, pub)
    case _ => false
  }

  lemma HandshakeFailsIff(s: Session, p: Payload)
    requires s.phase != Failed
    ensures Handle(s, p).phase == Failed <==> Clashes(s, p)
    ensures Clashes(s, p) ==> Handle(s, p) == Fail(s)
  {
    hide BeginFinalize;
    match p {
      case Dh(_, key) => BeginSame(Answered(StoreKey(s, key)));
      case _ =>
    }
  }

  lemma BeginSame(s: Session)
    ensures BeginFinalize(s) == s.(tasks := BeginFinalize(s).tasks)
    ensures s.tasks <= BeginFinalize(s).tasks
  {
  }

  lemma KeyFailsIff(c: Crypto, s: Session, pub: Bytes)
    requires s.phase != Failed
    ensures RunHash(c, s, pub).phase == Failed <==> BreaksCommitment(c, s, pub)
    ensures BreaksCommitment(c, s, pub) ==> RunHash(c, s, pub) == Fail(s)
  {
    hide BeginFinalize;
    BeginSame(StoreKey(s, pub));
  }

  // One step

  lemma StartNotFailed(s: Session, p: Id)
    requires s.phase != Failed
    ensures StartWith(s, p).phase != Failed
  {
    hide Before;
  }

  lemma RecomputeNotFailed(s: Session)
    requires s.phase != Failed
    ensures Recompute(s).phase != Failed
  {
    hide StartWith, ResetPeer, Downgrade, Announce;
    ResetNotFailed(s);
    DowngradeNotFailed(ResetPeer(s));
    if |s.users| == 1 {
      StartNotFailed(s, TheOnly(s.users));
      DowngradeNotFailed(Announce(s.(peer := Some(TheOnly(s.users)))));
    }
  }

  lemma MessageFailsIff(s: Session, from: Id, p: Payload)
    requires s.phase != Failed
    ensures OnMessage(s, from, p).phase == Failed <==> Heeded(s, from, p) && Clashes(s, p)
    ensures OnMessage(s, from, p).phase == Failed ==> OnMessage(s, from, p) == Fail(s)
  {
    hide StartWith, Handle, Clashes, Downgrade, Announce;
    HandshakeFailsIff(s, p);
    StartNotFailed(s, from);
    DowngradeNotFailed(s.(peer := Some(from)));
    DowngradeNotFailed(Announce(s.(peer := Some(from))));
  }

  lemma TaskFailsIff(c: Crypto, s: Session, i: nat, newKey: Bytes)
    requires s.phase != Failed && i < |s.tasks|
    ensures RunTask(c, s, i, newKey).phase == Failed <==> TaskFails(c, s, s.tasks[i])
    ensures TaskFails(c, s, s.tasks[i]) ==> RunTask(c, s, i, newKey) == Fail(s.(tasks := Without(s.tasks, i)))
  {
    hide Handle, RunHash, RunStart, RunFinalize, Without;
    var s', t := s.(tasks := Without(s.tasks, i)), s.tasks[i];
    match t {
      case Start(_, _, _, _) => RunStartNotFailed(c, s', t, newKey);
      case Finalize(_, _, _, _) => RunFinalizeNotFailed(c, s', t);
      case Hash(pub) => KeyFailsIff(c, s', pub);
      case Continue(_, p) => HandshakeFailsIff(s', p);
    }
  }

  lemma RunStartNotFailed(c: Crypto, s: Session, t: Task, newKey: Bytes)
    requires t.Start?
    ensures RunStart(c, s, t, newKey).phase == s.phase
  {
    hide Introduce, TakeOwnKey;
    if t.at >= 2 {
      IntroducesOnly(c, s, t.keyPair);
    }
  }

  lemma IntroducesOnly(c: Crypto, s: Session, keyPair: Bytes)
    ensures Introduce(TakeOwnKey(c, s, keyPair)).phase == s.phase
  {
  }

  lemma RunFinalizeNotFailed(c: Crypto, s: Session, t: Task)
    requires t.Finalize? && s.phase != Failed
    ensures RunFinalize(c, s, t).phase != Failed
  {
    hide RunFinalize;
    FinalizeKeeps(c, s, t);
  }

  /** A step makes a session fail exactly for one of these causes, and does nothing else then. */
  lemma StepFailsIff(c: Crypto, s: Session, a: Action)
    requires s.phase != Failed
    ensures Apply(c, s, a).phase == Failed <==> Cause(c, s, a)
    ensures Cause(c, s, a) ==> Apply(c, s, a) == Fail(if a.Run? then s.(tasks := Without(s.tasks, a.i)) else s)
  {
    hide Recompute, OnMessage, RunTask, TaskFails, Clashes, Heeded, ResetPeer, Without;
    match a {
      case AddUser(id) => RecomputeNotFailed(s.(users := s.users + {id}));
      case DelUser(id) =>
        var s' := s.(users := s.users - {id});
        ResetNotFailed(s');
        RecomputeNotFailed(if s'.peer == Some(id) then ResetPeer(s') else s');
      case SetRequire(b) => RecomputeNotFailed(s.(require := b));
      case Message(from, p) => MessageFailsIff(s, from, p);
      case Run(i, newKey) =>
        if i < |s.tasks| {
          TaskFailsIff(c, s, i, newKey);
        }
      case _ =>
    }
  }

  lemma ResetNotFailed(s: Session)
    ensures ResetPeer(s).phase == s.phase
  {
  }

  lemma DowngradeNotFailed(s: Session)
    ensures Downgrade(s).phase in {Blocked, Unencrypted}
  {
  }

  // What is left

  /** Nothing derived is held, and no run is under way that could complete anything. */
  ghost predicate Emptied(s: Session) {
    && s.secret.None? && s.sas.None? && s.chatSendKey.None? && s.chatRecvKey.None? && s.worker == map[]
    && NoneCurrent(s)
  }

  lemma FailEmpties(c: Crypto, s: Session)
    requires Core(c, s)
    ensures Emptied(Fail(s))
  {
    hide Core;
    FailInv(c, s);
  }

  /** The same session but for participants, options and tasks that complete nothing. */
  predicate Beside(s: Session, t: Session) {
    && t.secret == s.secret && t.sas == s.sas && t.chatSendKey == s.chatSendKey && t.chatRecvKey == s.chatRecvKey
    && t.worker == s.worker && t.generation == s.generation
  }

  lemma BesideEmptied(s: Session, t: Session)
    requires Emptied(s) && Beside(s, t) && forall i :: 0 <= i < |t.tasks| ==> t.tasks[i] in s.tasks || !IsCurrent(t.tasks[i], t.generation)
    ensures Emptied(t)
  {
  }

  lemma StartStaysFailed(s: Session, p: Id)
    requires Emptied(s) && StartWith(s, p).phase == Failed
    ensures StartWith(s, p) == s
  {
    hide Before;
  }

  lemma RecomputeStaysFailed(s: Session)
    requires Emptied(s) && Recompute(s).phase == Failed
    ensures Recompute(s) == s
  {
    hide StartWith, ResetPeer, Downgrade, Announce, Emptied;
    DowngradeNotFailed(ResetPeer(s));
    if |s.users| == 1 {
      DowngradeNotFailed(Announce(s.(peer := Some(TheOnly(s.users)))));
      if CanEncrypt(s) {
        StartStaysFailed(s, TheOnly(s.users));
      }
    }
  }

  lemma MessageStaysFailed(s: Session, from: Id, p: Payload)
    requires Emptied(s) && s.phase == Failed && OnMessage(s, from, p).phase == Failed
    ensures Emptied(OnMessage(s, from, p))
  {
    hide StartWith, Downgrade, Announce, Emptied;
    DowngradeNotFailed(s.(peer := Some(from)));
    DowngradeNotFailed(Announce(s.(peer := Some(from))));
    var t := OnMessage(s, from, p);
    if t != s {
      StartStaysFailed(s, from);
      BesideEmptied(s, t);
    }
  }

  /** What a run of the kinds that complete something leaves behind of itself. */
  lemma StartPushes(c: Crypto, s: Session, t: Task, newKey: Bytes)
    requires t.Start? && t.gen != s.generation
    ensures var u := RunStart(c, s, t, newKey);
            u.tasks == s.tasks || (|u.tasks| == |s.tasks| + 1 && u.tasks[..|s.tasks|] == s.tasks
                                   && u.tasks[|s.tasks|].Start? && u.tasks[|s.tasks|].gen == t.gen)
  {
    hide Introduce, TakeOwnKey;
    if t.at >= 2 {
      assert RunStart(c, s, t, newKey) == s;
    }
  }

  lemma FinalizePushes(c: Crypto, s: Session, t: Task)
    requires t.Finalize? && t.m.gen != s.generation
    ensures var u := RunFinalize(c, s, t);
            u.tasks == s.tasks || (|u.tasks| == |s.tasks| + 1 && u.tasks[..|s.tasks|] == s.tasks
                                   && u.tasks[|s.tasks|].Finalize? && u.tasks[|s.tasks|].m.gen == t.m.gen)
  {
    hide RunFinalize;
    if t.step.Importing? || t.step.ChatSend? {
      WaitPushes(c, s, t);
    } else {
      OvertakenStops(c, s, t);
    }
  }

  lemma WaitPushes(c: Crypto, s: Session, t: Task)
    requires t.Finalize? && (t.step.Importing? || t.step.ChatSend?)
    ensures var u := RunFinalize(c, s, t);
            && |u.tasks| == |s.tasks| + 1 && u.tasks[..|s.tasks|] == s.tasks
            && u.tasks[|s.tasks|].Finalize? && u.tasks[|s.tasks|].m.gen == t.m.gen
  {
  }

  lemma OvertakenStays(c: Crypto, s: Session, i: nat, newKey: Bytes)
    requires Emptied(s) && i < |s.tasks| && (s.tasks[i].Start? || s.tasks[i].Finalize?)
    ensures Emptied(RunTask(c, s, i, newKey))
  {
    hide RunStart, RunFinalize, Without;
    var t, s' := s.tasks[i], s.(tasks := Without(s.tasks, i));
    assert !IsCurrent(t, s.generation);
    OvertakenWritesNothing(c, s, i, newKey);
    WithoutAt(s.tasks, i);
    if t.Start? {
      StartPushes(c, s', t, newKey);
    } else {
      FinalizePushes(c, s', t);
    }
    var u := RunTask(c, s, i, newKey);
    forall k | 0 <= k < |u.tasks| ensures !IsCurrent(u.tasks[k], u.generation) {
      if k < |s'.tasks| {
        assert u.tasks[k] == s'.tasks[k] == s.tasks[if k < i then k else k + 1];
      }
    }
  }

  lemma RemovedEmptied(s: Session, i: nat)
    requires Emptied(s) && i < |s.tasks|
    ensures Emptied(s.(tasks := Without(s.tasks, i)))
  {
    hide Without;
    WithoutAt(s.tasks, i);
  }

  lemma TaskStaysFailed(c: Crypto, s: Session, i: nat, newKey: Bytes)
    requires Core(c, s) && Emptied(s) && s.phase == Failed && i < |s.tasks|
    ensures Emptied(RunTask(c, s, i, newKey))
  {
    hide Core, Emptied, RunStart, RunFinalize, Without, Fail;
    var t, s' := s.tasks[i], s.(tasks := Without(s.tasks, i));
    RemoveCore(c, s, i);
    RemovedEmptied(s, i);
    match t {
      case Hash(pub) => FailEmpties(c, s');
      case Continue(_, p) =>
      case _ => OvertakenStays(c, s, i, newKey);
    }
  }

  lemma StepEmpties(c: Crypto, s: Session, a: Action)
    requires Inv(c, s) && (s.phase == Failed ==> Emptied(s)) && Apply(c, s, a).phase == Failed
    ensures Emptied(Apply(c, s, a))
  {
    hide Core, Emptied, Recompute, OnMessage, RunTask, ResetPeer, Without, Fail, Cause;
    if s.phase != Failed {
      StepFailsIff(c, s, a);
      if a.Run? && a.i < |s.tasks| {
        RemoveCore(c, s, a.i);
        FailEmpties(c, s.(tasks := Without(s.tasks, a.i)));
      }
      FailEmpties(c, s);
    } else {
      StepStaysFailed(c, s, a);
    }
  }

  lemma StepStaysFailed(c: Crypto, s: Session, a: Action)
    requires Inv(c, s) && s.phase == Failed && Emptied(s) && Apply(c, s, a).phase == Failed
    ensures Emptied(Apply(c, s, a))
  {
    hide Core, Recompute, OnMessage, RunTask, Without, Emptied, PhaseOK, PeerOK, Announce, Downgrade;
    match a {
      case AddUser(id) => OthersStayFailed(s, s.(users := s.users + {id}));
      case DelUser(id) =>
        var s' := s.(users := s.users - {id});
        ElsewhereCore(c, s, s');
        ResetEmpties(c, s');
        BesideEmptied(s, s');
        RecomputeStaysFailed(if s'.peer == Some(id) then ResetPeer(s') else s');
      case SetRequire(b) => OthersStayFailed(s, s.(require := b));
      case Message(from, p) => MessageStaysFailed(s, from, p);
      case AttachFails => DowngradeNotFailed(Announce(s.(transformFailed := true)));
      case Run(i, newKey) =>
        if i < |s.tasks| {
          TaskStaysFailed(c, s, i, newKey);
        }
      case Reject(i) =>
        if i < |s.tasks| {
          RemovedEmptied(s, i);
        }
      case _ =>
    }
  }

  lemma ResetEmpties(c: Crypto, s: Session)
    requires Core(c, s)
    ensures Emptied(ResetPeer(s))
  {
    hide Core;
    ResetCore(c, s);
  }

  lemma OthersStayFailed(s: Session, t: Session)
    requires Emptied(s) && t == s.(users := t.users, require := t.require)
    ensures Recompute(t).phase == Failed ==> Emptied(Recompute(t))
  {
    hide Recompute;
    BesideEmptied(s, t);
    if Recompute(t).phase == Failed {
      RecomputeStaysFailed(t);
    }
  }

  // On every run

  /** The step that made the session fail, which has stayed so since. */
  ghost predicate FailedAt(c: Crypto, start: Session, run: seq<Action>, k: int) {
    && 0 <= k < |run| && Exec(c, start, run[..k]).phase != Failed && Cause(c, Exec(c, start, run[..k]), run[k])
    && forall m :: k < m <= |run| ==> Exec(c, start, run[..m]).phase == Failed
  }

  /**
   * On every run: a session has failed exactly if some message or key has contradicted what
   * it had before, and it has been in that state ever since; and then nothing derived is left
   * in it, nor any run that could bring something back.
   */
  lemma {:induction false} FailedForACause(c: Crypto, id: Id, supported: bool, run: seq<Action>)
    ensures var start := NewSession(id, supported); var s := Exec(c, start, run);
            && (s.phase == Failed <==> exists k :: FailedAt(c, start, run, k))
            && (s.phase == Failed ==> Emptied(s))
  {
    hide Apply, Inv, Emptied, Cause;
    var start := NewSession(id, supported);
    var s := Exec(c, start, run);
    assert run[..|run|] == run;
    if run != [] && s.phase == Failed {
      var before, a := run[..|run| - 1], run[|run| - 1];
      var r := Exec(c, start, before);
      FailedForACause(c, id, supported, before);
      RunInv(c, id, supported, before);
      StepEmpties(c, r, a);
      assert forall m :: 0 <= m <= |before| ==> run[..m] == before[..m];
      if r.phase != Failed {
        StepFailsIff(c, r, a);
        assert FailedAt(c, start, run, |before|);
      } else {
        var k :| FailedAt(c, start, before, k);
        assert FailedAt(c, start, run, k);
      }
    }
  }
}
