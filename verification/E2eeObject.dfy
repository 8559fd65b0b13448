/**
 * The E2EE object of static/e2ee.js with its own fields: each handler, and each
 * stretch of an asynchronous method between two awaits, changes them in place, is proved
 * against the session's functions, and leaves the object valid: what holds of every
 * session (E2eeSafety) holds of the object between any two events.
 */
module E2eeObject {
  import opened Common
  import opened E2eeSession
  import E2eeSafety
  import E2eeRuns

  /** No suspended run is of a generation that has not begun. */
  predicate TasksKnown(tasks: seq<Task>, generation: nat) {
    forall i :: 0 <= i < |tasks| ==> Overtaken(tasks[i], generation + 1)
  }

  /** Every suspended run of startWith and finalize is of an earlier generation. */
  predicate AllOvertaken(tasks: seq<Task>, generation: nat) {
    forall i :: 0 <= i < |tasks| ==> Overtaken(tasks[i], generation)
  }

  predicate Overtaken(t: Task, generation: nat) {
    (t.Start? ==> t.gen < generation) && (t.Finalize? ==> t.m.gen < generation)
  }

  lemma ValidKnows(c: Crypto, s: Session)
    requires E2eeSafety.Inv(c, s)
    ensures TasksKnown(s.tasks, s.generation)
  {
    hide E2eeSafety.DerivedOK, E2eeSafety.LogOK, E2eeSafety.PhaseOK, E2eeSafety.PeerOK, E2eeSafety.Honoured;
    forall i | 0 <= i < |s.tasks|
      ensures Overtaken(s.tasks[i], s.generation + 1)
    {
      assert E2eeSafety.TaskOK(c, s, s.tasks[i]);
    }
  }

  /** When the peer leaves, every run that was suspended is overtaken. */
  lemma LeavingOvertakes(c: Crypto, s: Session, id: Id)
    requires E2eeSafety.Inv(c, s) && s.peer == Some(id)
    ensures var t := Apply(c, s, DelUser(id)); forall i :: 0 <= i < |s.tasks| ==> Overtaken(s.tasks[i], t.generation)
  {
    hide E2eeSafety.Inv, Recompute;
    ValidKnows(c, s);
    E2eeSafety.RecomputeFollows(ResetPeer(s.(users := s.users - {id})));
  }

  class E2EE {
    const crypto: Crypto
    const id: Id
    const supported: bool
    var transformFailed: bool
    var require: bool
    var wasEncrypted: bool
    var clearAgreed: bool
    var users: set<Id>
    var peer: Option<Id>
    var role: Role
    var startingFor: Option<Id>
    var keyPair: Option<Bytes>
    var myPub: Option<Bytes>
    var myCommit: Option<Bytes>
    var peerPub: Option<Bytes>
    var peerCommit: Option<Bytes>
    var secret: Option<Bytes>
    var sas: Option<Bytes>
    var chatSendKey: Option<Bytes>
    var chatRecvKey: Option<Bytes>
    var chatSendSeq: int
    var chatRecvSeq: int
    var generation: nat
    var state: Phase
    var worker: map<string, Bytes>
    var tasks: seq<Task>
    ghost var log: seq<Event>

    ghost function View(): Session
      reads this
    {
      Session(id, supported, transformFailed, require, wasEncrypted, clearAgreed, users, peer, role, startingFor,
              keyPair, myPub, myCommit, peerPub, peerCommit, secret, sas, chatSendKey, chatRecvKey,
              chatSendSeq, chatRecvSeq, generation, state, worker, tasks, log)
    }

    ghost predicate Valid()
      reads this
    {
      E2eeSafety.Inv(crypto, View())
    }

    constructor (crypto: Crypto, id: Id, supported: bool)
      ensures Valid() && View() == NewSession(id, supported) && this.crypto == crypto
    {
      this.crypto := crypto;
      this.id, this.supported := id, supported;
      transformFailed, require, wasEncrypted, clearAgreed := false, false, false, false;
      users, peer, role, startingFor := {}, None, NoRole, None;
      keyPair, myPub, myCommit, peerPub, peerCommit := None, None, None, None, None;
      secret, sas, chatSendKey, chatRecvKey, chatSendSeq, chatRecvSeq := None, None, None, None, 0, -1;
      generation, state, worker, tasks, log := 0, Idle, map[], [], [];
      new;
      E2eeRuns.NewInv(crypto, id, supported);
    }

    /**
     * canChat: it says yes exactly when the call is encrypted, and everything of that
     * call then comes from the keys of the one handshake with the only other participant.
     */
    method CanChat() returns (r: bool)
      requires Valid()
      ensures r <==> state == Established
      ensures r ==> E2eeRuns.SecuredBy(crypto, View())
    {
      hide E2eeSafety.Inv, E2eeRuns.WorkerKeyed, Before, TheOnly;
      r := state == Established && chatSendKey.Some? && peer.Some?;
      if state == Established {
        E2eeRuns.InvSecures(crypto, View());
      }
    }

    method AwaitsClearConsent() returns (r: bool)
      ensures r <==> state == Blocked && !require && wasEncrypted && !clearAgreed
    {
      r := state == Blocked && !require && wasEncrypted && !clearAgreed;
    }

    method DropChatKeys()
      modifies `chatSendKey, `chatRecvKey, `chatSendSeq, `chatRecvSeq
      ensures chatSendKey.None? && chatRecvKey.None? && chatSendSeq == 0 && chatRecvSeq == -1
    {
      chatSendKey, chatRecvKey := None, None;
      chatSendSeq, chatRecvSeq := 0, -1;
    }

    /** What resetPeer takes back on top: the peer, and what the handshake with it has exchanged. */
    method DropHandshake()
      modifies `peer, `role, `startingFor, `keyPair, `myPub, `myCommit, `peerPub, `peerCommit
      ensures peer.None? && role == NoRole && startingFor.None?
      ensures keyPair.None? && myPub.None? && myCommit.None? && peerPub.None? && peerCommit.None?
    {
      peer, role, startingFor := None, NoRole, None;
      keyPair, myPub, myCommit, peerPub, peerCommit := None, None, None, None, None;
    }

    /** What fail and resetPeer both take back: the secret, the emoji, the chat keys and the worker's keys. */
    method DropSecrets()
      modifies `generation, `secret, `sas, `chatSendKey, `chatRecvKey, `chatSendSeq, `chatRecvSeq, `worker
      ensures generation == old(generation) + 1 && secret.None? && sas.None? && worker == map[]
      ensures chatSendKey.None? && chatRecvKey.None? && chatSendSeq == 0 && chatRecvSeq == -1
      ensures TasksKnown(tasks, old(generation)) ==> AllOvertaken(tasks, generation)
    {
      generation := generation + 1;
      secret, sas, worker := None, None, map[];
      DropChatKeys();
    }

    /** Whatever run is suspended is overtaken by a reset. */
    method ResetPeer()
      modifies this
      ensures View() == E2eeSession.ResetPeer(old(View()))
      ensures TasksKnown(old(tasks), old(generation)) ==> AllOvertaken(tasks, generation)
    {
      hide TasksKnown, AllOvertaken;
      DropSecrets();
      DropHandshake();
    }

    /** Whatever run is suspended is overtaken by a failure. */
    method Fail()
      modifies this
      ensures View() == E2eeSession.Fail(old(View()))
      ensures TasksKnown(old(tasks), old(generation)) ==> AllOvertaken(tasks, generation)
    {
      hide TasksKnown, AllOvertaken;
      DropSecrets();
      state := Failed;
    }

    method Downgrade()
      modifies `state
      ensures View() == E2eeSession.Downgrade(old(View()))
    {
      if require || (wasEncrypted && !clearAgreed) {
        state := Blocked;
      } else {
        state := Unencrypted;
      }
    }

    /** send: the message goes out if there is a peer. */
    method Say(p: Payload)
      modifies `log
      ensures View() == E2eeSession.Say(old(View()), p)
    {
      log := log + [Sent(generation, p)];
    }

    method Announce()
      modifies `log
      ensures View() == E2eeSession.Announce(old(View()))
    {
      if peer.Some? {
        Say(NoCrypto);
      }
    }

    /** startWith up to its first await. */
    method StartWith(peer: Id)
      modifies this
      ensures View() == E2eeSession.StartWith(old(View()), peer)
    {
      if !supported {
        return;
      }
      if this.peer == Some(peer) && (keyPair.Some? || startingFor == Some(peer)) {
        return;
      }
      Restart(peer);
    }

    method Restart(peer: Id)
      requires supported && !(this.peer == Some(peer) && (keyPair.Some? || startingFor == Some(peer)))
      modifies this
      ensures View() == E2eeSession.StartWith(old(View()), peer)
    {
      hide Before;
      ResetPeer();
      Begin(peer);
    }

    method Begin(peer: Id)
      modifies `peer, `startingFor, `role, `state, `tasks
      ensures this.peer == startingFor == Some(peer) && role == (if Before(id, peer) then Initiator else Responder)
      ensures state == Handshaking && tasks == old(tasks) + [Start(0, peer, generation, [])]
    {
      hide Before;
      this.peer, startingFor := Some(peer), Some(peer);
      role := if Before(id, peer) then Initiator else Responder;
      state := Handshaking;
      tasks := tasks + [Start(0, peer, generation, [])];
    }

    method Recompute()
      modifies this
      ensures View() == E2eeSession.Recompute(old(View()))
    {
      hide E2eeSession.StartWith, E2eeSession.ResetPeer, E2eeSession.Downgrade, E2eeSession.Announce;
      if |users| == 0 {
        ResetPeer();
        if require && !(supported && !transformFailed) {
          Downgrade();
        } else {
          state := Idle;
        }
      } else if |users| >= 2 {
        ResetPeer();
        Downgrade();
      } else {
        var only := Only();
        if !(supported && !transformFailed) {
          NameAndTell(only);
        } else {
          StartWith(only);
        }
      }
    }

    method NameAndTell(only: Id)
      modifies `peer, `log, `state
      ensures View() == E2eeSession.Downgrade(E2eeSession.Announce(old(View()).(peer := Some(only))))
    {
      hide E2eeSession.Announce, E2eeSession.Downgrade;
      peer := Some(only);
      Announce();
      Downgrade();
    }

    method Only() returns (u: Id)
      requires |users| == 1
      ensures u == TheOnly(users)
    {
      u :| u in users;
      assert users == {u} by {
        assert |users - {u}| == 0;
      }
    }

    method AddUser(id: Id)
      requires Valid()
      modifies this
      ensures Valid() && View() == Apply(crypto, old(View()), E2eeSession.AddUser(id))
    {
      hide E2eeSession.Recompute, E2eeSafety.Inv;
      E2eeSafety.StepInv(crypto, View(), E2eeSession.AddUser(id));
      if id == this.id {
        return;
      }
      users := users + {id};
      Recompute();
    }

    method DelUser(id: Id)
      requires Valid()
      modifies this
      ensures Valid() && View() == Apply(crypto, old(View()), E2eeSession.DelUser(id))
      ensures old(peer) == Some(id) ==> forall i :: 0 <= i < |old(tasks)| ==> Overtaken(old(tasks)[i], generation)
    {
      hide E2eeSession.Recompute, E2eeSession.ResetPeer, E2eeSafety.Inv, Overtaken;
      if peer == Some(id) {
        LeavingOvertakes(crypto, View(), id);
      }
      E2eeSafety.StepInv(crypto, View(), E2eeSession.DelUser(id));
      users := users - {id};
      if peer == Some(id) {
        ResetPeer();
      }
      Recompute();
    }

    method SetRequire(require: bool)
      requires Valid()
      modifies this
      ensures Valid() && View() == Apply(crypto, old(View()), E2eeSession.SetRequire(require))
    {
      hide E2eeSession.Recompute, E2eeSafety.Inv;
      E2eeSafety.StepInv(crypto, View(), E2eeSession.SetRequire(require));
      this.require := require;
      Recompute();
    }

    method ContinueInClear()
      requires Valid()
      modifies this
      ensures Valid() && View() == Apply(crypto, old(View()), E2eeSession.ContinueInClear)
    {
      hide E2eeSession.Recompute, E2eeSafety.Inv;
      E2eeSafety.StepInv(crypto, View(), E2eeSession.ContinueInClear);
      var asked := AwaitsClearConsent();
      if asked {
        clearAgreed := true;
        state := Unencrypted;
      }
    }

    /** attachSender when the transform cannot be put in place. */
    method AttachFails()
      requires Valid()
      modifies this
      ensures Valid() && View() == Apply(crypto, old(View()), E2eeSession.AttachFails)
    {
      hide E2eeSession.Recompute, E2eeSafety.Inv;
      E2eeSafety.StepInv(crypto, View(), E2eeSession.AttachFails);
      if !supported {
        return;
      }
      transformFailed := true;
      Announce();
      Downgrade();
    }

    /** The rest of onMessage, once there is a session with the sender. */
    method Handle(p: Payload)
      modifies this
      ensures View() == E2eeSession.Handle(old(View()), p)
    {
      hide E2eeSession.BeginFinalize, E2eeSession.Fail;
      if state == Established || state == Failed || myCommit.None? {
        return;
      }
      if Version(p) != PROTOCOL_VERSION {
        Fail();
        return;
      }
      match p {
        case Hello(_) =>
          if role == Responder {
            Say(CommitTo(PROTOCOL_VERSION, myCommit.value));
          }
        case CommitTo(_, commit) => OnCommit(commit);
        case Dh(_, pub) => OnKey(pub);
        case _ =>
      }
    }

    method OnCommit(commit: Bytes)
      requires state != Established && state != Failed && myCommit.Some?
      modifies this
      ensures View() == E2eeSession.Handle(old(View()), CommitTo(PROTOCOL_VERSION, commit))
    {
      if role == Initiator {
        if peerCommit.Some? {
          if commit != peerCommit.value {
            Fail();
          }
          return;
        }
        TakeCommit(commit);
        SendOwnKey();
      }
    }

    method TakeCommit(commit: Bytes)
      modifies `peerCommit, `log
      ensures View() == StoreCommit(old(View()), commit)
    {
      peerCommit, log := Some(commit), log + [StoredCommit(generation, commit)];
    }

    method SendOwnKey()
      modifies `log
      ensures View() == Answered(old(View()))
    {
      Say(Dh(PROTOCOL_VERSION, if myPub.Some? then myPub.value else []));
    }

    method OnKey(pub: Bytes)
      requires state != Established && state != Failed && myCommit.Some?
      modifies this
      ensures View() == E2eeSession.Handle(old(View()), Dh(PROTOCOL_VERSION, pub))
    {
      hide E2eeSession.BeginFinalize;
      if peerPub.Some? {
        if pub != peerPub.value {
          Fail();
        }
        return;
      }
      if role == Responder {
        Answer(pub);
      } else if peerCommit.Some? {
        tasks := tasks + [Hash(pub)];
      }
    }

    /** The responder takes the key, answers with its own, and goes on to finalize. */
    method Answer(pub: Bytes)
      modifies this
      ensures View() == E2eeSession.BeginFinalize(Answered(StoreKey(old(View()), pub)))
    {
      hide E2eeSession.BeginFinalize;
      TakeKey(pub);
      SendOwnKey();
      BeginFinalize();
    }

    method TakeKey(pub: Bytes)
      modifies `peerPub, `log
      ensures View() == StoreKey(old(View()), pub)
    {
      peerPub, log := Some(pub), log + [StoredKey(generation, pub)];
    }

    /** finalize up to its first await. */
    method BeginFinalize()
      modifies `tasks
      ensures View() == E2eeSession.BeginFinalize(old(View()))
    {
      var commit := if role == Initiator then peerCommit else myCommit;
      if keyPair.None? || myPub.None? || peerPub.None? || peer.None? || commit.None? {
        return;
      }
      var m := Material(generation, keyPair.value, myPub.value, peerPub.value, peer.value, role, commit.value);
      tasks := tasks + [Finalize(m, Importing, [], [])];
    }

    method OnMessage(from: Id, p: Payload)
      requires Valid()
      modifies this
      ensures Valid() && View() == Apply(crypto, old(View()), Message(from, p))
    {
      hide E2eeSession.OnMessage, E2eeSession.Recompute, E2eeSafety.Inv;
      E2eeSafety.StepInv(crypto, View(), Message(from, p));
      Receive(from, p);
    }

    method Receive(from: Id, p: Payload)
      modifies this
      ensures View() == E2eeSession.OnMessage(old(View()), from, p)
    {
      hide E2eeSession.Handle, E2eeSession.StartWith, E2eeSession.Downgrade, E2eeSession.Announce;
      if |users| != 1 {
        return;
      }
      var only := Only();
      if from != only {
        return;
      }
      if !supported {
        NameAndTell(from);
      } else if p.NoCrypto? {
        Decline(from);
      } else if peer != Some(from) || keyPair.None? {
        StartWith(from);
        tasks := tasks + [Continue(from, p)];
      } else {
        Handle(p);
      }
    }

    method Decline(from: Id)
      modifies `peer, `state
      ensures View() == E2eeSession.Downgrade(old(View()).(peer := Some(from)))
    {
      hide E2eeSession.Downgrade;
      peer := Some(from);
      Downgrade();
    }

    /** startWith goes on. */
    method ResumeStart(t: Task, newKey: Bytes)
      requires t.Start?
      modifies this
      ensures View() == RunStart(crypto, old(View()), t, newKey)
    {
      if t.at == 0 {
        tasks := tasks + [t.(at := 1, keyPair := newKey)];
      } else if t.at == 1 {
        tasks := tasks + [t.(at := 2)];
      } else {
        if peer != Some(t.peer) || t.gen != generation {
          return;
        }
        OwnKey(t);
      }
    }

    method OwnKey(t: Task)
      requires t.Start? && t.at > 1 && peer == Some(t.peer) && t.gen == generation
      modifies this
      ensures View() == RunStart(crypto, old(View()), t, [])
    {
      hide E2eeSession.Introduce;
      TakeOwnKey(t.keyPair);
      Introduce();
    }

    method TakeOwnKey(pair: Bytes)
      modifies `keyPair, `myPub, `myCommit, `startingFor
      ensures keyPair == Some(pair) && startingFor.None?
      ensures myPub == Some(crypto.publicOf(pair)) && myCommit == Some(crypto.commit(crypto.publicOf(pair)))
    {
      var pub := crypto.publicOf(pair);
      keyPair, myPub, myCommit, startingFor := Some(pair), Some(pub), Some(crypto.commit(pub)), None;
    }

    /** Hello, and from the responder its commitment. */
    method Introduce()
      modifies `log
      ensures View() == E2eeSession.Introduce(old(View()))
    {
      Say(Hello(PROTOCOL_VERSION));
      if role == Responder && myCommit.Some? {
        Say(CommitTo(PROTOCOL_VERSION, myCommit.value));
      }
    }

    /** finalize goes on. */
    method ResumeFinalize(t: Task)
      requires t.Finalize?
      modifies this
      ensures View() == RunFinalize(crypto, old(View()), t)
    {
      hide Salt, StreamId;
      if t.step.KeyFor? || t.step.ChatRecv? || t.step.Deriving? {
        ResumeKeys(t);
        return;
      }
      if t.step.Importing? {
        tasks := tasks + [t.(step := Agreeing)];
      } else if t.step.ChatSend? {
        tasks := tasks + [t.(step := ChatRecv)];
      } else {
        if t.m.gen != generation {
          return;
        }
        if t.step.Agreeing? {
          var z := crypto.agree(t.m.keyPair, t.m.peerPub);
          secret := Some(z);
          tasks := tasks + [t.(step := Transcribing, secret := z)];
        } else {
          tasks := tasks + [t.(step := KeyFor(0), salt := Salt(crypto, id, t.m))];
        }
      }
    }

    /** The part of finalize that hands out keys. */
    method ResumeKeys(t: Task)
      requires t.Finalize? && (t.step.KeyFor? || t.step.ChatRecv? || t.step.Deriving?)
      modifies this
      ensures View() == RunFinalize(crypto, old(View()), t)
    {
      if t.m.gen != generation {
        return;
      }
      hide RunFinalize;
      if t.step.KeyFor? {
        GiveStreamKey(t);
      } else if t.step.ChatRecv? {
        FinishChatKeys(t);
      } else {
        Finish(t);
      }
    }

    method Finish(t: Task)
      requires t.Finalize? && t.step.Deriving? && t.m.gen == generation
      modifies this
      ensures View() == RunFinalize(crypto, old(View()), t)
    {
      Establish(crypto.sas(t.secret, t.salt), t.m.role);
    }

    method GiveStreamKey(t: Task)
      requires t.Finalize? && t.step.KeyFor? && t.m.gen == generation
      modifies this
      ensures View() == RunFinalize(crypto, old(View()), t)
    {
      hide StreamId;
      GiveKey(t);
    }

    method FinishChatKeys(t: Task)
      requires t.Finalize? && t.step.ChatRecv? && t.m.gen == generation
      modifies this
      ensures View() == RunFinalize(crypto, old(View()), t)
    {
      TakeChatKeys(crypto.chatKey(t.secret, t.salt, id), crypto.chatKey(t.secret, t.salt, t.m.peer));
      tasks := tasks + [t.(step := Deriving)];
    }

    method GiveKey(t: Task)
      requires t.Finalize? && t.step.KeyFor?
      modifies `worker, `tasks
      ensures var stream := StreamId(id, t.m.peer, t.step.k);
              worker == old(worker)[stream := crypto.mediaKey(t.secret, t.salt, stream)]
      ensures tasks == old(tasks) + [t.(step := if t.step.k < 3 then KeyFor(t.step.k + 1) else ChatSend)]
    {
      hide StreamId;
      var stream := StreamId(id, t.m.peer, t.step.k);
      worker := worker[stream := crypto.mediaKey(t.secret, t.salt, stream)];
      tasks := tasks + [t.(step := if t.step.k < 3 then KeyFor(t.step.k + 1) else ChatSend)];
    }

    method TakeChatKeys(send: Bytes, recv: Bytes)
      modifies `chatSendKey, `chatRecvKey, `chatSendSeq, `chatRecvSeq, `log
      ensures chatSendKey == Some(send) && chatRecvKey == Some(recv) && chatSendSeq == 0 && chatRecvSeq == -1
      ensures log == old(log) + [GotChatKeys(generation)]
    {
      chatSendKey, chatRecvKey, chatSendSeq, chatRecvSeq := Some(send), Some(recv), 0, -1;
      log := log + [GotChatKeys(generation)];
    }

    method Establish(emoji: Bytes, role: Role)
      modifies `sas, `wasEncrypted, `clearAgreed, `state, `log
      ensures sas == Some(emoji) && wasEncrypted && !clearAgreed && state == Established
      ensures log == old(log) + [Secured(generation, role)]
    {
      sas, wasEncrypted, clearAgreed, state := Some(emoji), true, false, Established;
      log := log + [Secured(generation, role)];
    }

    /** The initiator goes on after hashing a key. */
    method ResumeHash(pub: Bytes)
      modifies this
      ensures View() == RunHash(crypto, old(View()), pub)
    {
      hide E2eeSession.BeginFinalize;
      if peerCommit.None? {
        return;
      }
      if crypto.commit(pub) != peerCommit.value {
        Fail();
        return;
      }
      if peerPub.Some? || state != Handshaking {
        return;
      }
      TakeKey(pub);
      BeginFinalize();
    }

    /**
     * What some await waited for is there: that task goes on to its next one.  An
     * overtaken one changes nothing but the list of the suspended runs.
     */
    method GoOn(i: nat, newKey: Bytes)
      requires Valid() && i < |tasks|
      modifies this
      ensures Valid() && View() == Apply(crypto, old(View()), Run(i, newKey))
      ensures old((tasks[i].Start? || tasks[i].Finalize?) && Overtaken(tasks[i], generation)) ==> View() == old(View()).(tasks := tasks)
    {
      hide E2eeSession.Handle, RunStart, RunFinalize, RunHash, E2eeSafety.Inv;
      E2eeSafety.StepInv(crypto, View(), Run(i, newKey));
      var t := tasks[i];
      if (t.Start? || t.Finalize?) && Overtaken(t, generation) {
        E2eeSafety.OvertakenWritesNothing(crypto, View(), i, newKey);
      }
      Resume(i, newKey);
    }

    method Resume(i: nat, newKey: Bytes)
      requires i < |tasks|
      modifies this
      ensures View() == RunTask(crypto, old(View()), i, newKey)
    {
      hide E2eeSession.Handle, RunStart, RunFinalize, RunHash;
      var t := tasks[i];
      tasks := Without(tasks, i);
      match t {
        case Start(_, _, _, _) => ResumeStart(t, newKey);
        case Finalize(_, _, _, _) => ResumeFinalize(t);
        case Hash(pub) => ResumeHash(pub);
        case Continue(_, p) => Handle(p);
      }
    }

    /** What an await waited for throws: that run is over. */
    method Reject(i: nat)
      requires Valid() && i < |tasks|
      modifies this
      ensures Valid() && View() == Apply(crypto, old(View()), E2eeSession.Reject(i))
    {
      hide E2eeSafety.Inv;
      E2eeSafety.StepInv(crypto, View(), E2eeSession.Reject(i));
      tasks := Without(tasks, i);
    }
  }
}
