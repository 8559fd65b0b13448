/** The end-to-end encryption session over whole runs, and between two clients. */
module E2eeRuns {
  import opened Common
  import opened E2eeSession
  import opened E2eeSafety

  lemma {:induction false} RunInv(c: Crypto, id: Id, supported: bool, run: seq<Action>)
    ensures Inv(c, Exec(c, NewSession(id, supported), run))
  {
    hide Apply, Inv;
    if run == [] {
      NewInv(c, id, supported);
    } else {
      RunInv(c, id, supported, run[..|run| - 1]);
      StepInv(c, Exec(c, NewSession(id, supported), run[..|run| - 1]), run[|run| - 1]);
    }
  }

  lemma NewInv(c: Crypto, id: Id, supported: bool)
    ensures Inv(c, NewSession(id, supported))
  {
  }

  /** Everything of an encrypted call comes from the keys that the two sides sent. */
  ghost predicate SecuredBy(c: Crypto, s: Session) {
    && |s.users| == 1 && s.peer == Some(TheOnly(s.users))
    && s.keyPair.Some? && s.peerPub.Some? && s.secret.Some? && s.sas.Some? && s.chatSendKey.Some? && s.chatRecvKey.Some?
    && s.role == (if Before(s.id, s.peer.value) then Initiator else Responder)
    && s.myPub == Some(c.publicOf(s.keyPair.value))
    && s.myCommit == Some(c.commit(s.myPub.value))
    && (s.role == Initiator ==> s.peerCommit == Some(c.commit(s.peerPub.value)))
    && s.secret.value == c.agree(s.keyPair.value, s.peerPub.value)
    && s.sas.value == c.sas(s.secret.value, SaltOf(c, s))
    && s.chatSendKey.value == c.chatKey(s.secret.value, SaltOf(c, s), s.id)
    && s.chatRecvKey.value == c.chatKey(s.secret.value, SaltOf(c, s), s.peer.value)
    && WorkerKeyed(c, s)
  }

  /** The worker has a key for each of the four streams, and no key of any other session. */
  ghost predicate WorkerKeyed(c: Crypto, s: Session)
    requires s.keyPair.Some? && s.peerPub.Some? && s.secret.Some? && s.peer.Some? && s.myPub.Some? && s.myCommit.Some?
  {
    && (forall k :: 0 <= k < 4 ==> StreamId(s.id, s.peer.value, k) in s.worker)
    && (forall stream :: stream in s.worker ==> s.worker[stream] == c.mediaKey(s.secret.value, SaltOf(c, s), stream))
  }

  /** The transcript of the session's handshake, seen from either side. */
  function TranscriptOf(c: Crypto, s: Session): Transcript
    requires s.myPub.Some? && s.myCommit.Some? && s.peerPub.Some? && s.peer.Some?
  {
    if s.role == Initiator
    then Transcript(s.id, s.peer.value, c.commit(s.peerPub.value), s.myPub.value, s.peerPub.value)
    else Transcript(s.peer.value, s.id, s.myCommit.value, s.peerPub.value, s.myPub.value)
  }

  function SaltOf(c: Crypto, s: Session): Bytes
    requires s.myPub.Some? && s.myCommit.Some? && s.peerPub.Some? && s.peer.Some?
  {
    c.transcript(TranscriptOf(c, s))
  }

  /**
   * On every run, however its tasks interleave with messages and departures: when
   * the session says it is encrypted, it is, with the only other participant, and
   * everything it holds is derived from the keys of this one handshake.
   */
  lemma EstablishedIsSecured(c: Crypto, id: Id, supported: bool, run: seq<Action>)
    ensures var s := Exec(c, NewSession(id, supported), run); s.phase == Established ==> SecuredBy(c, s)
  {
    hide Exec, Inv, SecuredBy;
    var s := Exec(c, NewSession(id, supported), run);
    RunInv(c, id, supported, run);
    if s.phase == Established {
      InvSecures(c, s);
    }
  }

  lemma InvSecures(c: Crypto, s: Session)
    requires Inv(c, s) && s.phase == Established
    ensures SecuredBy(c, s)
  {
    hide TasksOK, LogOK, StreamId, TheOnly, Before;
    assert Salt(c, s.id, Current(s)) == SaltOf(c, s);
  }

  // Once per generation

  lemma {:induction false} RunFollows(c: Crypto, s: Session, run: seq<Action>)
    ensures Follows(s, Exec(c, s, run))
  {
    hide Apply;
    if run != [] {
      RunFollows(c, s, run[..|run| - 1]);
      StepFollows(c, Exec(c, s, run[..|run| - 1]), run[|run| - 1]);
    }
  }

  lemma {:induction false} ExecMore(c: Crypto, s: Session, run: seq<Action>, more: seq<Action>)
    ensures Exec(c, s, run + more) == Exec(c, Exec(c, s, run), more)
  {
    hide Apply;
    if more == [] {
      assert run + more == run;
    } else {
      ExecMore(c, s, run, more[..|more| - 1]);
      assert (run + more)[..|run + more| - 1] == run + more[..|more| - 1];
    }
  }

  /**
   * Within one generation the peer's commitment and key never change once they are
   * set, and the record shows each of them, and the chat keys, set at most once.
   */
  lemma SetAtMostOnce(c: Crypto, id: Id, supported: bool, run: seq<Action>, more: seq<Action>)
    ensures var s, t := Exec(c, NewSession(id, supported), run), Exec(c, NewSession(id, supported), run + more);
            && (t.generation == s.generation && s.peerCommit.Some? ==> t.peerCommit == s.peerCommit)
            && (t.generation == s.generation && s.peerPub.Some? ==> t.peerPub == s.peerPub)
            && s.log <= t.log
            && (forall i, j :: 0 <= i < j < |t.log| && t.log[i].gen == t.log[j].gen ==>
                  && !(t.log[i].StoredCommit? && t.log[j].StoredCommit?)
                  && !(t.log[i].StoredKey? && t.log[j].StoredKey?)
                  && !(t.log[i].GotChatKeys? && t.log[j].GotChatKeys?))
  {
    hide Exec, FieldsOK, DerivedOK, TasksOK, PhaseOK, PeerOK, Honoured;
    ExecMore(c, NewSession(id, supported), run, more);
    RunFollows(c, Exec(c, NewSession(id, supported), run), more);
    RunInv(c, id, supported, run + more);
  }

  /**
   * An initiator that ends up encrypted had stored the other side's commitment before
   * its own key went out, and then took a key that opens that very commitment.
   */
  lemma CommitmentHonoured(c: Crypto, id: Id, supported: bool, run: seq<Action>, k: nat)
    requires var log := Exec(c, NewSession(id, supported), run).log;
             k < |log| && log[k].Secured? && log[k].role == Initiator
    ensures var log := Exec(c, NewSession(id, supported), run).log;
            exists i, j :: 0 <= i && i + 1 < j < k
              && log[i].StoredCommit? && log[i].gen == log[k].gen
              && log[i + 1].Sent? && log[i + 1].gen == log[k].gen && log[i + 1].payload.Dh?
              && log[j].StoredKey? && log[j].gen == log[k].gen && c.commit(log[j].pub) == log[i].commit
  {
    hide Exec, FieldsOK, DerivedOK, TasksOK, PhaseOK, PeerOK;
    var s := Exec(c, NewSession(id, supported), run);
    RunInv(c, id, supported, run);
    var i, j :| HonouredAt(c, s.log[..k], s.log[k].gen, i, j);
    assert s.log[..k][i] == s.log[i] && s.log[..k][i + 1] == s.log[i + 1] && s.log[..k][j] == s.log[j];
  }

  // Overtaken runs

  /** The generation that a task of startWith or finalize belongs to. */
  predicate OfGeneration(t: Task, g: nat) {
    (t.Start? && t.gen == g) || (t.Finalize? && t.m.gen == g)
  }

  /**
   * Once a reset or a failure has overtaken the tasks of a generation, none of them
   * writes anything back, at whichever await it stands and whatever happens before it
   * goes on.
   */
  lemma OvertakenForGood(c: Crypto, s: Session, more: seq<Action>, i: nat, newKey: Bytes, g: nat)
    requires g <= s.generation
    requires var u := Exec(c, Fail(s), more); i < |u.tasks| && OfGeneration(u.tasks[i], g)
    ensures var u := Exec(c, Fail(s), more); RunTask(c, u, i, newKey) == u.(tasks := RunTask(c, u, i, newKey).tasks)
  {
    hide Exec, RunTask;
    RunFollows(c, Fail(s), more);
    OvertakenWritesNothing(c, Exec(c, Fail(s), more), i, newKey);
  }

  /** The same after a reset, as when the peer leaves or somebody else joins. */
  lemma ResetOvertakesForGood(c: Crypto, s: Session, more: seq<Action>, i: nat, newKey: Bytes, g: nat)
    requires g <= s.generation
    requires var u := Exec(c, ResetPeer(s), more); i < |u.tasks| && OfGeneration(u.tasks[i], g)
    ensures var u := Exec(c, ResetPeer(s), more); RunTask(c, u, i, newKey) == u.(tasks := RunTask(c, u, i, newKey).tasks)
  {
    hide Exec, RunTask;
    RunFollows(c, ResetPeer(s), more);
    OvertakenWritesNothing(c, Exec(c, ResetPeer(s), more), i, newKey);
  }

  // Two clients

  lemma {:induction false} OneOfTheTwoInitiates(a: Id, b: Id)
    requires a != b
    ensures Before(a, b) <==> !Before(b, a)
  {
    if a != [] && b != [] && a[0] == b[0] {
      assert a == [a[0]] + a[1..] && b == [b[0]] + b[1..];
      OneOfTheTwoInitiates(a[1..], b[1..]);
    }
  }

  /** Each holds the key that the other one sent. */
  predicate KeysArrived(a: Session, b: Session) {
    a.peerPub == b.myPub && b.peerPub == a.myPub
  }

  /** Each is the other one's only participant. */
  ghost predicate Facing(c: Crypto, a: Session, b: Session) {
    SecuredBy(c, a) && SecuredBy(c, b) && a.id != b.id && a.peer == Some(b.id) && b.peer == Some(a.id)
  }

  lemma TranscriptsAgree(c: Crypto, a: Session, b: Session)
    requires Facing(c, a, b)
    ensures a.role != b.role
    ensures TranscriptOf(c, a) == TranscriptOf(c, b) <==> KeysArrived(a, b)
  {
    hide Before, TheOnly, WorkerKeyed;
    OneOfTheTwoInitiates(a.id, b.id);
  }

  /** The handshake's functions are those of a Diffie-Hellman agreement for these two key pairs. */
  predicate AgreeCommutes(c: Crypto, a: Bytes, b: Bytes) {
    c.agree(a, c.publicOf(b)) == c.agree(b, c.publicOf(a))
  }

  /**
   * Two encrypted clients that got each other's keys show the same emoji, what one seals
   * for chat the other opens, and every media stream has the same key on both sides.
   */
  lemma BothSidesAgree(c: Crypto, a: Session, b: Session)
    requires Facing(c, a, b) && KeysArrived(a, b) && AgreeCommutes(c, a.keyPair.value, b.keyPair.value)
    ensures a.sas == b.sas && a.chatSendKey == b.chatRecvKey && b.chatSendKey == a.chatRecvKey
    ensures forall stream :: stream in a.worker && stream in b.worker ==> a.worker[stream] == b.worker[stream]
    ensures forall k :: 0 <= k < 4 ==> StreamId(a.id, b.id, k) in a.worker && StreamId(a.id, b.id, k) in b.worker
  {
    hide Before, TheOnly, StreamId;
    TranscriptsAgree(c, a, b);
    forall k | 0 <= k < 4 ensures StreamId(a.id, b.id, k) in a.worker && StreamId(a.id, b.id, k) in b.worker {
      SameStreams(a.id, b.id, k);
    }
  }

  lemma SameStreams(a: Id, b: Id, k: nat)
    requires k < 4
    ensures StreamId(a, b, k) == StreamId(b, a, (k + 2) % 4)
  {
  }

  /** Emoji that tell two pairs of secret and salt apart match only if neither key was replaced on its way. */
  lemma MatchingEmojiMeanTheirKeys(c: Crypto, a: Session, b: Session)
    requires Facing(c, a, b) && AgreeCommutes(c, a.keyPair.value, b.keyPair.value)
    requires c.sas(a.secret.value, SaltOf(c, a)) == c.sas(b.secret.value, SaltOf(c, b)) ==> SaltOf(c, a) == SaltOf(c, b)
    requires var ta, tb := TranscriptOf(c, a), TranscriptOf(c, b); c.transcript(ta) == c.transcript(tb) ==> ta == tb
    ensures a.sas == b.sas <==> KeysArrived(a, b)
  {
    hide Before, TheOnly, StreamId, WorkerKeyed;
    TranscriptsAgree(c, a, b);
  }
}
