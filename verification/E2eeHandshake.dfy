/**
 * Two sessions at a handshake together.  Each gets nothing but what the other one has
 * sent, in order and at any pace; each meets the other when it is told to, and its runs
 * go on in any order.  However that goes, both end up encrypted, and soon.
 */
module E2eeHandshake {
  import opened Common
  import opened E2eeSession
  import opened E2eeRuns
  import E2eeSafety
  import J = E2eeJoint

  /** What a session has sent, in order. */
  function Outbox(log: seq<Event>): seq<Payload> {
    if log == [] then [] else
    var last := log[|log| - 1];
    Outbox(log[..|log| - 1]) + if last.Sent? then [last.payload] else []
  }

  /** Two sessions, and how much of what each has sent the other one has got. */
  datatype Pair = Pair(a: Session, b: Session, toB: nat, toA: nat)

  datatype Move =
    | AMeets | ARuns(i: nat, newKey: Bytes) | AGets
    | BMeets | BRuns(i: nat, newKey: Bytes) | BGets

  predicate Can(p: Pair, m: Move) {
    match m
    case AMeets => p.a.users == {}
    case BMeets => p.b.users == {}
    case ARuns(i, _) => i < |p.a.tasks|
    case BRuns(i, _) => i < |p.b.tasks|
    case AGets => p.toA < |Outbox(p.b.log)|
    case BGets => p.toB < |Outbox(p.a.log)|
  }

  ghost function Next(c: Crypto, p: Pair, m: Move): Pair
    requires Can(p, m)
  {
    match m
    case AMeets => p.(a := Apply(c, p.a, AddUser(p.b.id)))
    case BMeets => p.(b := Apply(c, p.b, AddUser(p.a.id)))
    case ARuns(i, newKey) => p.(a := Apply(c, p.a, Run(i, newKey)))
    case BRuns(i, newKey) => p.(b := Apply(c, p.b, Run(i, newKey)))
    case AGets => p.(a := Apply(c, p.a, Message(p.b.id, Outbox(p.b.log)[p.toA])), toA := p.toA + 1)
    case BGets => p.(b := Apply(c, p.b, Message(p.a.id, Outbox(p.a.log)[p.toB])), toB := p.toB + 1)
  }

  ghost predicate Possible(c: Crypto, p: Pair, moves: seq<Move>)
    decreases |moves|
  {
    moves != [] ==> Can(p, moves[0]) && Possible(c, Next(c, p, moves[0]), moves[1..])
  }

  ghost function Play(c: Crypto, p: Pair, moves: seq<Move>): Pair
    requires Possible(c, p, moves)
    decreases |moves|
  {
    if moves == [] then p else Play(c, Next(c, p, moves[0]), moves[1..])
  }

  function Strangers(a: Id, b: Id): Pair { Pair(NewSession(a, true), NewSession(b, true), 0, 0) }

  // One session, as a side of the handshake

  function JobOf(t: Task): J.Job {
    match t
    case Start(at, _, _, keyPair) => J.JStart(at, keyPair)
    case Finalize(_, step, _, _) => J.JFinalize(step)
    case Hash(pub) => J.JHash(pub)
    case Continue(_, p) => J.JContinue(p)
  }

  function JobsOf(tasks: seq<Task>): seq<J.Job> {
    seq(|tasks|, i requires 0 <= i < |tasks| => JobOf(tasks[i]))
  }

  function SideOf(s: Session, role: Role): J.Side {
    J.Side(role, s.keyPair, s.peerCommit, s.peerPub, s.phase == Established,
           if s.users == {} then [J.JMeet] else JobsOf(s.tasks), Outbox(s.log))
  }

  predicate TaskFits(s: Session, t: Task) {
    && (t.Start? ==> s.peer == Some(t.peer) && t.gen == s.generation)
    && (t.Finalize? ==> t.m.gen == s.generation)
  }

  /** A handshake with the peer that nothing has disturbed. */
  predicate Met(c: Crypto, s: Session, peer: Id, role: Role) {
    && s.supported && s.users == {peer} && s.peer == Some(peer) && s.role == role
    && (s.phase == Handshaking || s.phase == Established)
    && (if s.keyPair.None?
        then s.startingFor == Some(peer) && s.myPub.None? && s.myCommit.None? && s.phase == Handshaking
        else s.myPub == Some(c.publicOf(s.keyPair.value)) && s.myCommit == Some(J.Com(c, s.keyPair.value)))
    && forall k :: 0 <= k < |s.tasks| ==> TaskFits(s, s.tasks[k])
  }

  predicate Shape(c: Crypto, s: Session, peer: Id, role: Role) {
    s == NewSession(s.id, true) || Met(c, s, peer, role)
  }

  /** A message or a key that contradicts nothing the side has heard. */
  predicate Fits(x: J.Side, p: Payload) {
    && !p.NoCrypto? && Version(p) == PROTOCOL_VERSION
    && (p.CommitTo? && x.peerCommit.Some? ==> p.commit == x.peerCommit.value)
    && (p.Dh? && x.peerPub.Some? ==> p.pub == x.peerPub.value)
  }

  predicate KeyFits(c: Crypto, x: J.Side, pub: Bytes) {
    x.peerCommit.Some? && c.commit(pub) == x.peerCommit.value
  }

  lemma JobsMore(tasks: seq<Task>, t: Task)
    ensures JobsOf(tasks + [t]) == JobsOf(tasks) + [JobOf(t)]
  {
  }

  lemma JobsWithout(tasks: seq<Task>, i: nat)
    requires i < |tasks|
    ensures JobsOf(Without(tasks, i)) == J.Drop(JobsOf(tasks), i)
  {
  }

  lemma OutboxMore(log: seq<Event>, e: Event)
    ensures Outbox(log + [e]) == Outbox(log) + if e.Sent? then [e.payload] else []
  {
    assert (log + [e])[..|log|] == log;
  }

  lemma OnlyIs(u: Id)
    ensures |{u}| == 1 && TheOnly({u}) == u
  {
    assert TheOnly({u}) in {u};
  }

  lemma MeetStep(c: Crypto, s: Session, peer: Id, role: Role)
    requires s == NewSession(s.id, true) && s.id != peer && role == if Before(s.id, peer) then Initiator else Responder
    ensures var t := Apply(c, s, AddUser(peer));
            t.id == s.id && Met(c, t, peer, role) && SideOf(t, role) == J.GoOn(c, SideOf(s, role), 0, [])
  {
    hide Before;
    OnlyIs(peer);
    assert {} + {peer} == {peer};
    JobsMore([], Start(0, peer, 1, []));
    assert J.Drop([J.JMeet], 0) == [];
  }

  lemma HandleStep(c: Crypto, s: Session, peer: Id, role: Role, p: Payload)
    requires Met(c, s, peer, role) && role != NoRole && Fits(SideOf(s, role), p)
    ensures var t := Handle(s, p); t.id == s.id && Met(c, t, peer, role) && SideOf(t, role) == J.Hear(c, SideOf(s, role), p)
  {
    hide Before, JobsOf, Outbox, Answered, StoreCommit, StoreKey, Say, BeginFinalize;
    if s.phase != Established && s.keyPair.Some? {
      match p {
        case Hello(_) => HelloStep(c, s, peer, role);
        case CommitTo(_, commit) =>
          if role == Initiator && s.peerCommit.None? {
            CommitStep(c, s, peer, commit);
          }
        case Dh(_, pub) =>
          if s.peerPub.None? {
            KeyStep(c, s, peer, role, pub);
          }
      }
    }
  }

  lemma HelloStep(c: Crypto, s: Session, peer: Id, role: Role)
    requires Met(c, s, peer, role) && s.keyPair.Some?
    ensures var p := CommitTo(PROTOCOL_VERSION, s.myCommit.value); var t := Say(s, p);
            t.id == s.id && Met(c, t, peer, role) && SideOf(t, role) == J.Tell(SideOf(s, role), p)
  {
    hide Before, JobsOf, Outbox;
    OutboxMore(s.log, Sent(s.generation, CommitTo(PROTOCOL_VERSION, s.myCommit.value)));
  }

  lemma CommitStep(c: Crypto, s: Session, peer: Id, commit: Bytes)
    requires Met(c, s, peer, Initiator) && s.phase != Established && s.keyPair.Some? && s.peerCommit.None?
    ensures var t := Answered(StoreCommit(s, commit));
            t.id == s.id && Met(c, t, peer, Initiator) && SideOf(t, Initiator) == J.Hear(c, SideOf(s, Initiator), CommitTo(PROTOCOL_VERSION, commit))
  {
    hide Before, JobsOf, Outbox;
    var s' := StoreCommit(s, commit);
    OutboxMore(s.log, StoredCommit(s.generation, commit));
    OutboxMore(s'.log, Sent(s.generation, Dh(PROTOCOL_VERSION, OwnPub(s))));
  }

  lemma KeyStep(c: Crypto, s: Session, peer: Id, role: Role, pub: Bytes)
    requires Met(c, s, peer, role) && s.phase != Established && s.keyPair.Some? && s.peerPub.None? && role != NoRole
    ensures var t, p := Handle(s, Dh(PROTOCOL_VERSION, pub)), Dh(PROTOCOL_VERSION, pub);
            t.id == s.id && Met(c, t, peer, role) && SideOf(t, role) == J.Hear(c, SideOf(s, role), p)
  {
    hide Before, JobsOf, Outbox;
    JobsMore(s.tasks, Hash(pub));
    if role == Responder {
      var s' := StoreKey(s, pub);
      OutboxMore(s.log, StoredKey(s.generation, pub));
      OutboxMore(s'.log, Sent(s.generation, Dh(PROTOCOL_VERSION, OwnPub(s))));
      FinalizeBegins(c, Answered(s'), peer, role);
    }
  }

  lemma FinalizeBegins(c: Crypto, s: Session, peer: Id, role: Role)
    requires Met(c, s, peer, role) && s.keyPair.Some? && s.peerPub.Some? && role != NoRole
    requires role == Initiator ==> s.peerCommit.Some?
    ensures var t := BeginFinalize(s);
            t.id == s.id && Met(c, t, peer, role) && SideOf(t, role) == J.Push(SideOf(s, role), J.JFinalize(Importing))
  {
    hide Before, JobsOf, Outbox;
    var t := BeginFinalize(s);
    JobsMore(s.tasks, t.tasks[|s.tasks|]);
  }

  /** A session that has only let go of a task. */
  lemma LetGo(c: Crypto, s: Session, peer: Id, role: Role, i: nat)
    requires Met(c, s, peer, role) && i < |s.tasks|
    ensures var t := s.(tasks := Without(s.tasks, i));
            && |SideOf(s, role).jobs| == |s.tasks| && SideOf(s, role).jobs[i] == JobOf(s.tasks[i])
            && Met(c, t, peer, role) && SideOf(t, role) == SideOf(s, role).(jobs := J.Drop(SideOf(s, role).jobs, i))
            && SideOf(t, role).keyPair == t.keyPair && t.id == s.id && TaskFits(t, s.tasks[i])
  {
    hide Before, Outbox, J.Drop;
    assert TaskFits(s, s.tasks[i]);
    assert peer in s.users;
    JobsWithout(s.tasks, i);
  }

  lemma StartStep(c: Crypto, s: Session, peer: Id, role: Role, t: Task, newKey: Bytes)
    requires Met(c, s, peer, role) && t.Start? && TaskFits(s, t) && s.keyPair.None? && role != NoRole
    ensures var u := RunStart(c, s, t, newKey);
            && u.id == s.id && Met(c, u, peer, role)
            && SideOf(u, role) == if t.at < 2 then J.Push(SideOf(s, role), J.JStart(t.at + 1, if t.at == 0 then newKey else t.keyPair))
                                  else J.Introduced(c, SideOf(s, role), t.keyPair)
  {
    hide Before, JobsOf, Outbox, Introduce, TakeOwnKey, J.Introduced;
    if t.at < 2 {
      JobsMore(s.tasks, t.(at := 1, keyPair := newKey));
      JobsMore(s.tasks, t.(at := 2));
    } else {
      KeyTaken(c, s, peer, role, t.keyPair);
    }
  }

  lemma KeyTaken(c: Crypto, s: Session, peer: Id, role: Role, keyPair: Bytes)
    requires Met(c, s, peer, role) && s.keyPair.None? && role != NoRole
    ensures var u := Introduce(TakeOwnKey(c, s, keyPair));
            u.id == s.id && Met(c, u, peer, role) && SideOf(u, role) == J.Introduced(c, SideOf(s, role), keyPair)
  {
    hide Before, JobsOf, Outbox;
    var o := TakeOwnKey(c, s, keyPair);
    var hello := Say(o, Hello(PROTOCOL_VERSION));
    OutboxMore(s.log, Sent(s.generation, Hello(PROTOCOL_VERSION)));
    OutboxMore(hello.log, Sent(s.generation, CommitTo(PROTOCOL_VERSION, o.myCommit.value)));
  }

  /** What finalize leaves alone. */
  predicate SameHandshake(s: Session, t: Session) {
    && t.id == s.id && t.supported == s.supported && t.users == s.users && t.peer == s.peer && t.role == s.role
    && t.startingFor == s.startingFor && t.keyPair == s.keyPair && t.myPub == s.myPub && t.myCommit == s.myCommit
    && t.peerPub == s.peerPub && t.peerCommit == s.peerCommit && t.generation == s.generation
  }

  /** A step of finalize that is not its last: it goes on from the next await. */
  predicate WentOn(s: Session, t: Task, u: Session)
    requires t.Finalize?
  {
    && SameHandshake(s, u) && u.phase == s.phase && |u.tasks| == |s.tasks| + 1 && u.tasks[..|s.tasks|] == s.tasks
    && (u.log == s.log || u.log == s.log + [GotChatKeys(s.generation)])
    && var last := u.tasks[|s.tasks|]; last.Finalize? && last.m == t.m && last.step == J.NextStep(t.step)
  }

  lemma FinalizeGoesOn(c: Crypto, s: Session, t: Task)
    requires t.Finalize? && t.m.gen == s.generation && !t.step.Deriving?
    ensures WentOn(s, t, RunFinalize(c, s, t))
  {
    hide RunFinalize, WentOn;
    match t.step {
      case KeyFor(_) => StreamKeyStep(c, s, t);
      case ChatRecv => ChatKeysStep(c, s, t);
      case Agreeing => AgreeStep(c, s, t);
      case _ => PlainStep(c, s, t);
    }
  }

  lemma StreamKeyStep(c: Crypto, s: Session, t: Task)
    requires t.Finalize? && t.m.gen == s.generation && t.step.KeyFor?
    ensures WentOn(s, t, RunFinalize(c, s, t))
  {
    hide StreamId;
  }

  lemma ChatKeysStep(c: Crypto, s: Session, t: Task)
    requires t.Finalize? && t.m.gen == s.generation && t.step.ChatRecv?
    ensures WentOn(s, t, RunFinalize(c, s, t))
  {
  }

  lemma AgreeStep(c: Crypto, s: Session, t: Task)
    requires t.Finalize? && t.m.gen == s.generation && t.step.Agreeing?
    ensures WentOn(s, t, RunFinalize(c, s, t))
  {
  }

  lemma PlainStep(c: Crypto, s: Session, t: Task)
    requires t.Finalize? && t.m.gen == s.generation && (t.step.Importing? || t.step.Transcribing? || t.step.ChatSend?)
    ensures WentOn(s, t, RunFinalize(c, s, t))
  {
    hide Salt;
  }

  lemma FinalizeStep(c: Crypto, s: Session, peer: Id, role: Role, t: Task)
    requires Met(c, s, peer, role) && t.Finalize? && TaskFits(s, t) && s.keyPair.Some? && role != NoRole
    ensures var u, x := RunFinalize(c, s, t), SideOf(s, role);
            && u.id == s.id && Met(c, u, peer, role)
            && SideOf(u, role) == if t.step.Deriving? then x.(established := true) else J.Push(x, J.JFinalize(J.NextStep(t.step)))
  {
    hide Before, JobsOf, Outbox, RunFinalize, Salt, StreamId;
    if t.step.Deriving? {
      FinalizeEnds(c, s, peer, role, t);
    } else {
      FinalizeGoesOn(c, s, t);
      StaysMet(c, s, peer, role, RunFinalize(c, s, t));
    }
  }

  lemma StaysMet(c: Crypto, s: Session, peer: Id, role: Role, u: Session)
    requires Met(c, s, peer, role) && SameHandshake(s, u) && u.phase == s.phase
    requires |u.tasks| == |s.tasks| + 1 && u.tasks[..|s.tasks|] == s.tasks && TaskFits(s, u.tasks[|s.tasks|])
    requires u.log == s.log || u.log == s.log + [GotChatKeys(s.generation)]
    ensures Met(c, u, peer, role) && SideOf(u, role) == J.Push(SideOf(s, role), JobOf(u.tasks[|s.tasks|]))
  {
    hide Before, JobsOf, Outbox, JobOf;
    OutboxMore(s.log, GotChatKeys(s.generation));
    assert u.tasks == s.tasks + [u.tasks[|s.tasks|]];
    JobsMore(s.tasks, u.tasks[|s.tasks|]);
  }

  lemma FinalizeEnds(c: Crypto, s: Session, peer: Id, role: Role, t: Task)
    requires Met(c, s, peer, role) && t.Finalize? && t.step.Deriving? && TaskFits(s, t) && s.keyPair.Some? && role != NoRole
    ensures var u := RunFinalize(c, s, t);
            && u.id == s.id && Met(c, u, peer, role) && SideOf(u, role) == SideOf(s, role).(established := true)
  {
    hide Before, JobsOf, Outbox;
    OutboxMore(s.log, Secured(s.generation, t.m.role));
  }

  lemma HashStep(c: Crypto, s: Session, peer: Id, role: Role, pub: Bytes)
    requires Met(c, s, peer, role) && s.keyPair.Some? && role != NoRole && KeyFits(c, SideOf(s, role), pub)
    ensures var u, x := RunHash(c, s, pub), SideOf(s, role);
            && u.id == s.id && Met(c, u, peer, role)
            && SideOf(u, role) == if x.peerPub.Some? || x.established then x else J.Push(x.(peerPub := Some(pub)), J.JFinalize(Importing))
  {
    hide Before, JobsOf, Outbox;
    if s.peerPub.None? && s.phase == Handshaking {
      OutboxMore(s.log, StoredKey(s.generation, pub));
      FinalizeBegins(c, StoreKey(s, pub), peer, role);
    }
  }

  /** Nothing that is suspended contradicts what the side has heard. */
  predicate RunFits(c: Crypto, x: J.Side, t: Task) {
    match t
    case Start(_, _, _, _) => x.keyPair.None?
    case Finalize(_, _, _, _) => x.keyPair.Some?
    case Hash(pub) => x.keyPair.Some? && KeyFits(c, x, pub)
    case Continue(_, p) => Fits(x, p)
  }

  /** Whatever run goes on, the side that it makes of the session is the one that the side goes on to. */
  lemma RunStep(c: Crypto, s: Session, peer: Id, role: Role, i: nat, newKey: Bytes)
    requires Met(c, s, peer, role) && i < |s.tasks| && role != NoRole && RunFits(c, SideOf(s, role), s.tasks[i])
    ensures var t := Apply(c, s, Run(i, newKey));
            t.id == s.id && Met(c, t, peer, role) && SideOf(t, role) == J.GoOn(c, SideOf(s, role), i, newKey)
  {
    var t, s' := s.tasks[i], s.(tasks := Without(s.tasks, i));
    hide Before, SideOf, RunStart, RunFinalize, RunHash, Handle, Met, TaskFits, Fits, KeyFits, J.Hear, J.Introduced, J.Drop, J.Push;
    LetGo(c, s, peer, role, i);
    SideFits(c, SideOf(s, role), SideOf(s', role), t);
    match t {
      case Start(_, _, _, _) => StartStep(c, s', peer, role, t, newKey);
      case Finalize(_, _, _, _) => FinalizeStep(c, s', peer, role, t);
      case Hash(pub) => HashStep(c, s', peer, role, pub);
      case Continue(_, p) => HandleStep(c, s', peer, role, p);
    }
  }

  lemma SideFits(c: Crypto, x: J.Side, y: J.Side, t: Task)
    requires y == x.(jobs := y.jobs)
    ensures RunFits(c, x, t) <==> RunFits(c, y, t)
  {
  }

  lemma GetStep(c: Crypto, s: Session, peer: Id, role: Role, p: Payload)
    requires Shape(c, s, peer, role) && role != NoRole && Fits(SideOf(s, role), p)
    ensures var t := Apply(c, s, Message(peer, p));
            && t.id == s.id && Shape(c, t, peer, role) && (s.users != {} ==> t.users != {})
            && SideOf(t, role) == J.Deliver(c, SideOf(s, role), p)
  {
    hide Before, Outbox, Handle;
    if Met(c, s, peer, role) {
      OnlyIs(peer);
      MetAll(s);
      if s.keyPair.None? {
        JobsMore(s.tasks, Continue(peer, p));
      } else {
        HandleStep(c, s, peer, role, p);
      }
    }
  }

  lemma MetAll(s: Session)
    ensures J.JMeet !in JobsOf(s.tasks)
  {
  }

  /** A session at an undisturbed handshake, or about to begin it. */
  ghost predicate Fine(c: Crypto, s: Session, peer: Id, role: Role) {
    && s.id != peer && role == (if Before(s.id, peer) then Initiator else Responder)
    && Shape(c, s, peer, role) && E2eeSafety.Inv(c, s)
  }

  ghost predicate Moved(c: Crypto, s: Session, t: Session, peer: Id, role: Role, x: J.Side) {
    t.id == s.id && Fine(c, t, peer, role) && SideOf(t, role) == x
  }

  lemma ShapeIs(c: Crypto, s: Session, peer: Id, role: Role)
    requires Shape(c, s, peer, role)
    ensures s.users == {} ==> s == NewSession(s.id, true)
    ensures s.users != {} ==> Met(c, s, peer, role)
    ensures s.users == {} ==> s.tasks == []
  {
    hide Before;
    if Met(c, s, peer, role) {
      assert peer in s.users;
    }
  }

  lemma MeetMoves(c: Crypto, s: Session, peer: Id, role: Role)
    requires Fine(c, s, peer, role) && s.users == {}
    ensures Moved(c, s, Apply(c, s, AddUser(peer)), peer, role, J.GoOn(c, SideOf(s, role), 0, []))
  {
    hide Apply, Met, E2eeSafety.Inv, Before, SideOf, J.GoOn;
    ShapeIs(c, s, peer, role);
    MeetStep(c, s, peer, role);
    E2eeSafety.StepInv(c, s, AddUser(peer));
    assert SideOf(s, role).jobs == [J.JMeet] by { SideAlone(s, role); }
  }

  lemma SideAlone(s: Session, role: Role)
    requires s.users == {}
    ensures SideOf(s, role).jobs == [J.JMeet]
  {
  }

  lemma RunMoves(c: Crypto, s: Session, peer: Id, role: Role, i: nat, newKey: Bytes)
    requires Fine(c, s, peer, role) && i < |s.tasks| && RunFits(c, SideOf(s, role), s.tasks[i])
    ensures i < |SideOf(s, role).jobs|
    ensures Moved(c, s, Apply(c, s, Run(i, newKey)), peer, role, J.GoOn(c, SideOf(s, role), i, newKey))
  {
    hide Apply, Met, E2eeSafety.Inv, Before, SideOf, J.GoOn, RunFits;
    ShapeIs(c, s, peer, role);
    LetGo(c, s, peer, role, i);
    RunStep(c, s, peer, role, i, newKey);
    E2eeSafety.StepInv(c, s, Run(i, newKey));
  }

  lemma GetMoves(c: Crypto, s: Session, peer: Id, role: Role, p: Payload)
    requires Fine(c, s, peer, role) && Fits(SideOf(s, role), p)
    ensures Moved(c, s, Apply(c, s, Message(peer, p)), peer, role, J.Deliver(c, SideOf(s, role), p))
  {
    hide Apply, Shape, E2eeSafety.Inv, Before, SideOf, J.Deliver, Fits;
    GetStep(c, s, peer, role, p);
    E2eeSafety.StepInv(c, s, Message(peer, p));
  }

  // Both sides

  function Abs(p: Pair): J.Joint { J.Joint(SideOf(p.a, Initiator), SideOf(p.b, Responder), p.toB, p.toA) }

  ghost predicate Joined(c: Crypto, p: Pair) {
    Fine(c, p.a, p.b.id, Initiator) && Fine(c, p.b, p.a.id, Responder) && J.Inv(c, Abs(p))
  }

  function SideMove(m: Move): J.Move {
    match m
    case AMeets => J.XGoesOn(0, [])
    case BMeets => J.YGoesOn(0, [])
    case ARuns(i, newKey) => J.XGoesOn(i, newKey)
    case BRuns(i, newKey) => J.YGoesOn(i, newKey)
    case AGets => J.ToX
    case BGets => J.ToY
  }

  lemma HeardFits(c: Crypto, x: J.Side, y: J.Side, p: Payload)
    requires J.Linked(c, x, y)
    ensures J.FromY(c, y, p) ==> Fits(x, p)
    ensures J.FromX(c, x, p) ==> Fits(y, p)
    ensures p.Dh? && J.FromY(c, y, p) ==> x.keyPair.Some? && KeyFits(c, x, p.pub)
  {
  }

  lemma JobsAre(c: Crypto, s: Session, peer: Id, role: Role, i: nat)
    requires Fine(c, s, peer, role) && i < |s.tasks|
    ensures var x := SideOf(s, role); i < |x.jobs| && x.jobs[i] == JobOf(s.tasks[i])
  {
    hide Apply, Met, E2eeSafety.Inv, Before, Outbox;
    ShapeIs(c, s, peer, role);
  }

  lemma RunFitsA(c: Crypto, p: Pair, i: nat)
    requires Joined(c, p) && i < |p.a.tasks|
    ensures RunFits(c, SideOf(p.a, Initiator), p.a.tasks[i])
  {
    hide Fine, J.OnItsWay, SideOf, Fits, KeyFits, J.FromX, J.FromY;
    var t, j := p.a.tasks[i], Abs(p);
    JobsAre(c, p.a, p.b.id, Initiator, i);
    assert j.x.jobs[i] in j.x.jobs;
    match t {
      case Start(_, _, _, _) => assert J.StartAt(j.x, i);
      case Finalize(_, _, _, _) => assert J.FinalizeAtJob(j.x, i);
      case Hash(pub) => HeardFits(c, j.x, j.y, Dh(J.V, pub));
      case Continue(_, m) => HeardFits(c, j.x, j.y, m);
    }
  }

  lemma RunFitsB(c: Crypto, p: Pair, i: nat)
    requires Joined(c, p) && i < |p.b.tasks|
    ensures RunFits(c, SideOf(p.b, Responder), p.b.tasks[i])
  {
    hide Fine, J.OnItsWay, SideOf, Fits, KeyFits, J.FromX, J.FromY;
    var t, j := p.b.tasks[i], Abs(p);
    JobsAre(c, p.b, p.a.id, Responder, i);
    assert j.y.jobs[i] in j.y.jobs;
    J.NoHashY(c, j, i);
    match t {
      case Start(_, _, _, _) => assert J.StartAt(j.y, i);
      case Finalize(_, _, _, _) => assert J.FinalizeAtJob(j.y, i);
      case Continue(_, m) => HeardFits(c, j.x, j.y, m);
    }
  }

  lemma OutboxFits(c: Crypto, p: Pair, k: nat)
    requires Joined(c, p)
    ensures k < |Outbox(p.b.log)| ==> Fits(SideOf(p.a, Initiator), Outbox(p.b.log)[k])
    ensures k < |Outbox(p.a.log)| ==> Fits(SideOf(p.b, Responder), Outbox(p.a.log)[k])
  {
    hide Fine, J.OnItsWay, Outbox, J.Alone, Fits, J.FromX, J.FromY, J.Linked;
    var j := Abs(p);
    if k < |Outbox(p.b.log)| {
      HeardFits(c, j.x, j.y, j.y.said[k]);
    }
    if k < |Outbox(p.a.log)| {
      HeardFits(c, j.x, j.y, j.x.said[k]);
    }
  }

  lemma NextJoined(c: Crypto, p: Pair, m: Move)
    requires Joined(c, p) && Can(p, m)
    ensures Joined(c, Next(c, p, m))
    ensures J.CanMove(Abs(p), SideMove(m)) && Abs(Next(c, p, m)) == J.Next(c, Abs(p), SideMove(m))
  {
    NextIs(c, p, m);
    hide Apply, Fine, J.Inv, J.Next, SideOf, J.CanMove;
    J.NextKeeps(c, Abs(p), SideMove(m));
  }

  lemma NextIs(c: Crypto, p: Pair, m: Move)
    requires Joined(c, p) && Can(p, m)
    ensures J.CanMove(Abs(p), SideMove(m)) && Abs(Next(c, p, m)) == J.Next(c, Abs(p), SideMove(m))
    ensures var p' := Next(c, p, m); Fine(c, p'.a, p'.b.id, Initiator) && Fine(c, p'.b, p'.a.id, Responder)
  {
    hide Apply, Fine, J.Inv, J.GoOn, J.Deliver, Outbox, Fits, RunFits;
    match m {
      case AMeets => MeetMoves(c, p.a, p.b.id, Initiator);
      case BMeets => MeetMoves(c, p.b, p.a.id, Responder);
      case ARuns(i, newKey) =>
        RunFitsA(c, p, i);
        RunMoves(c, p.a, p.b.id, Initiator, i, newKey);
      case BRuns(i, newKey) =>
        RunFitsB(c, p, i);
        RunMoves(c, p.b, p.a.id, Responder, i, newKey);
      case AGets =>
        OutboxFits(c, p, p.toA);
        GetMoves(c, p.a, p.b.id, Initiator, Outbox(p.b.log)[p.toA]);
      case BGets =>
        OutboxFits(c, p, p.toB);
        GetMoves(c, p.b, p.a.id, Responder, Outbox(p.a.log)[p.toB]);
    }
  }

  lemma StrangersJoined(c: Crypto, a: Id, b: Id)
    requires Before(a, b) && a != b
    ensures var p := Strangers(a, b); Joined(c, p) && J.Sane(Abs(p)) && J.MovesLeft(Abs(p)) == 66
  {
    NewInv(c, a, true);
    NewInv(c, b, true);
    OneOfTheTwoInitiates(a, b);
    J.BeginningInv(c);
    J.BeginningMoves();
    hide J.Inv, E2eeSafety.Inv, Before, J.MovesLeft;
    assert Abs(Strangers(a, b)) == J.Beginning();
  }

  /** A pair of sessions that started as strangers, as far as its moves may have brought it. */
  ghost predicate Underway(c: Crypto, p: Pair, left: int) {
    Joined(c, p) && J.Sane(Abs(p)) && J.MovesLeft(Abs(p)) <= left
  }

  lemma MoveOn(c: Crypto, p: Pair, m: Move, left: int)
    requires Underway(c, p, left) && Can(p, m)
    ensures Underway(c, Next(c, p, m), left - 1) && left > 0
  {
    hide Joined, Next, Abs, J.MovesLeft, J.Next;
    NextJoined(c, p, m);
    J.NextLeavesLess(c, Abs(p), SideMove(m));
  }

  lemma {:induction false} PlayKeeps(c: Crypto, p: Pair, moves: seq<Move>, left: int)
    requires Underway(c, p, left) && Possible(c, p, moves)
    ensures |moves| <= left && Underway(c, Play(c, p, moves), left - |moves|)
    decreases |moves|
  {
    hide Next, Can;
    if moves == [] {
      assert left >= 0 by { assert J.MovesLeft(Abs(p)) >= 0; }
    } else {
      MoveOn(c, p, moves[0], left);
      PlayKeeps(c, Next(c, p, moves[0]), moves[1..], left - 1);
    }
  }

  /** Nobody has anything left to do. */
  predicate Over(p: Pair) {
    p.a.users != {} && p.b.users != {} && p.a.tasks == [] && p.b.tasks == []
    && p.toA >= |Outbox(p.b.log)| && p.toB >= |Outbox(p.a.log)|
  }

  lemma OverIff(p: Pair)
    ensures Over(p) <==> forall m :: !Can(p, m)
  {
    if !Over(p) {
      assert Can(p, AMeets) || Can(p, BMeets) || Can(p, ARuns(0, [])) || Can(p, BRuns(0, [])) || Can(p, AGets) || Can(p, BGets);
    }
  }

  /** Both are encrypted, with keys that come from what each has got from the other. */
  ghost predicate Agreed(c: Crypto, p: Pair) {
    && p.a.phase == Established && p.b.phase == Established && Facing(c, p.a, p.b) && KeysArrived(p.a, p.b)
    && (AgreeCommutes(c, p.a.keyPair.value, p.b.keyPair.value) ==> SameSecrets(p.a, p.b))
  }

  /** The same emoji, chat keys that fit, and one key for each of the four streams. */
  predicate SameSecrets(a: Session, b: Session) {
    && a.sas.Some? && a.sas == b.sas
    && a.chatSendKey.Some? && a.chatSendKey == b.chatRecvKey && b.chatSendKey.Some? && b.chatSendKey == a.chatRecvKey
    && forall k :: 0 <= k < 4 ==> var id := StreamId(a.id, b.id, k);
         id in a.worker && id in b.worker && a.worker[id] == b.worker[id]
  }

  lemma OverIsAgreed(c: Crypto, p: Pair)
    requires Joined(c, p) && Over(p)
    ensures Agreed(c, p)
  {
    BothEstablished(c, p);
    hide Fine, J.Inv, Over, SecuredBy, WorkerKeyed, StreamId;
    if AgreeCommutes(c, p.a.keyPair.value, p.b.keyPair.value) {
      BothSidesAgree(c, p.a, p.b);
      SecuredHasAll(c, p.a);
      SecuredHasAll(c, p.b);
    }
  }

  lemma SecuredHasAll(c: Crypto, s: Session)
    requires SecuredBy(c, s)
    ensures s.sas.Some? && s.chatSendKey.Some? && s.chatRecvKey.Some?
  {
    hide WorkerKeyed, Before, TheOnly, TranscriptOf;
  }

  lemma BothEstablished(c: Crypto, p: Pair)
    requires Joined(c, p) && Over(p)
    ensures p.a.phase == Established && p.b.phase == Established && Facing(c, p.a, p.b) && KeysArrived(p.a, p.b)
  {
    hide E2eeSafety.Inv, SecuredBy, Before, Outbox, J.Inv;
    ShapeIs(c, p.a, p.b.id, Initiator);
    ShapeIs(c, p.b, p.a.id, Responder);
    assert J.Quiet(Abs(p));
    J.QuietIff(Abs(p));
    J.QuietIsDone(c, Abs(p));
    InvSecures(c, p.a);
    InvSecures(c, p.b);
  }

  lemma FineIsCalm(c: Crypto, s: Session, peer: Id, role: Role)
    requires Fine(c, s, peer, role)
    ensures s.phase == Idle || s.phase == Handshaking || s.phase == Established
  {
    hide E2eeSafety.Inv, Before;
  }

  /**
   * Two clients that get what the other one sends, in order, and nothing else: whichever
   * meets the other first, however deliveries and runs interleave, neither of them ever
   * fails or falls back to an unencrypted call; there are at most 66 moves; and when no
   * move is left both are encrypted, with each other's keys and the same secrets.
   */
  lemma UndisturbedHandshake(c: Crypto, a: Id, b: Id, moves: seq<Move>)
    requires Before(a, b) && a != b && Possible(c, Strangers(a, b), moves)
    ensures |moves| <= 66
    ensures var p := Play(c, Strangers(a, b), moves);
            && (p.a.phase == Idle || p.a.phase == Handshaking || p.a.phase == Established)
            && (p.b.phase == Idle || p.b.phase == Handshaking || p.b.phase == Established)
            && ((forall m :: !Can(p, m)) ==> Agreed(c, p))
  {
    hide Fine, J.Inv, Over, Agreed, J.MovesLeft, Before, Can, Possible, Play, Abs;
    var p := Play(c, Strangers(a, b), moves);
    StrangersJoined(c, a, b);
    PlayKeeps(c, Strangers(a, b), moves, 66);
    FineIsCalm(c, p.a, p.b.id, Initiator);
    FineIsCalm(c, p.b, p.a.id, Responder);
    OverIff(p);
    if Over(p) {
      OverIsAgreed(c, p);
    }
  }

  lemma {:induction false} PlayOn(c: Crypto, p: Pair, moves: seq<Move>, m: Move)
    requires Possible(c, p, moves) && Can(Play(c, p, moves), m)
    ensures Possible(c, p, moves + [m])
    decreases |moves|
  {
    hide Next, Can;
    if moves == [] {
      assert (moves + [m])[1..] == [];
    } else {
      PlayOn(c, Next(c, p, moves[0]), moves[1..], m);
      assert (moves + [m])[1..] == moves[1..] + [m];
    }
  }

  /** However far they have got, they can get there. */
  lemma HandshakeCanEnd(c: Crypto, a: Id, b: Id, moves: seq<Move>) returns (all: seq<Move>)
    requires Before(a, b) && a != b && Possible(c, Strangers(a, b), moves)
    ensures moves <= all && Possible(c, Strangers(a, b), all) && Agreed(c, Play(c, Strangers(a, b), all))
    decreases 66 - |moves|
  {
    hide Agreed, Before, Can, Possible, Play;
    var p := Play(c, Strangers(a, b), moves);
    UndisturbedHandshake(c, a, b, moves);
    if m :| Can(p, m) {
      PlayOn(c, Strangers(a, b), moves, m);
      UndisturbedHandshake(c, a, b, moves + [m]);
      all := HandshakeCanEnd(c, a, b, moves + [m]);
    } else {
      all := moves;
    }
  }
}
