/**
 * The end-to-end encryption session (static/e2ee.js): an asynchronous key
 * agreement between this client and the only other participant.  Every await is a
 * point where anything else may happen; what is suspended there is a task, and a
 * step runs one task up to its next await, or one event handler.  Cryptography is
 * a record of functions about which nothing is assumed.
 */
module E2eeSession {
  import opened Common

  type Id = string
  type Bytes = seq<nat>
  const PROTOCOL_VERSION := 2

  datatype Role = NoRole | Initiator | Responder

  /** What both sides take from a handshake. */
  datatype Transcript = Transcript(initiatorId: Id, responderId: Id, commit: Bytes, initiatorPub: Bytes, responderPub: Bytes)

  datatype Crypto = Crypto(
    publicOf: Bytes -> Bytes,
    commit: Bytes -> Bytes,
    agree: (Bytes, Bytes) -> Bytes,
    transcript: Transcript -> Bytes,
    mediaKey: (Bytes, Bytes, string) -> Bytes,
    chatKey: (Bytes, Bytes, Id) -> Bytes,
    sas: (Bytes, Bytes) -> Bytes
  )

  datatype Phase = Idle | Handshaking | Established | Failed | Unencrypted | Blocked

  datatype Payload = NoCrypto | Hello(v: int) | CommitTo(v: int, commit: Bytes) | Dh(v: int, pub: Bytes)

  function Version(p: Payload): int {
    if p.NoCrypto? then 0 else p.v
  }

  /** What a finalize run works from, captured when it started. */
  datatype Material = Material(gen: nat, keyPair: Bytes, myPub: Bytes, peerPub: Bytes, peer: Id, role: Role, commit: Bytes)

  /** Where a finalize run is suspended. */
  datatype FinalizeAt = Importing | Agreeing | Transcribing | KeyFor(k: nat) | ChatSend | ChatRecv | Deriving

  datatype Task =
    | Start(at: nat, peer: Id, gen: nat, keyPair: Bytes)
    | Finalize(m: Material, step: FinalizeAt, secret: Bytes, salt: Bytes)
    | Hash(pub: Bytes)
    | Continue(from: Id, payload: Payload)

  /** What happened that the promises are about, in order. */
  datatype Event =
    | StoredCommit(gen: nat, commit: Bytes)
    | Sent(gen: nat, payload: Payload)
    | StoredKey(gen: nat, pub: Bytes)
    | GotChatKeys(gen: nat)
    | Secured(gen: nat, role: Role)

  datatype Session = Session(
    id: Id, supported: bool, transformFailed: bool, require: bool, wasEncrypted: bool, clearAgreed: bool,
    users: set<Id>,
    peer: Option<Id>, role: Role, startingFor: Option<Id>,
    keyPair: Option<Bytes>, myPub: Option<Bytes>, myCommit: Option<Bytes>,
    peerPub: Option<Bytes>, peerCommit: Option<Bytes>,
    secret: Option<Bytes>, sas: Option<Bytes>,
    chatSendKey: Option<Bytes>, chatRecvKey: Option<Bytes>, chatSendSeq: int, chatRecvSeq: int,
    generation: nat, phase: Phase,
    worker: map<string, Bytes>,  // the keys that the media worker holds
    tasks: seq<Task>,
    log: seq<Event>
  )

  function NewSession(id: Id, supported: bool): Session {
    Session(id, supported, false, false, false, false, {}, None, NoRole, None, None, None, None, None, None, None,
            None, None, None, 0, -1, 0, Idle, map[], [], [])
  }

  /** The order in which JavaScript compares strings. */
  predicate Before(a: Id, b: Id) {
    b != [] && (a == [] || a[0] < b[0] || (a[0] == b[0] && Before(a[1..], b[1..])))
  }

  predicate CanEncrypt(s: Session) { s.supported && !s.transformFailed }

  function DropChatKeys(s: Session): Session {
    s.(chatSendKey := None, chatRecvKey := None, chatSendSeq := 0, chatRecvSeq := -1)
  }

  function ResetPeer(s: Session): Session {
    DropChatKeys(s).(generation := s.generation + 1, peer := None, role := NoRole, startingFor := None,
                     keyPair := None, myPub := None, myCommit := None, peerPub := None, peerCommit := None,
                     secret := None, sas := None, worker := map[])
  }

  function Fail(s: Session): Session {
    DropChatKeys(s).(generation := s.generation + 1, secret := None, sas := None, worker := map[], phase := Failed)
  }

  function Downgrade(s: Session): Session {
    s.(phase := if s.require || (s.wasEncrypted && !s.clearAgreed) then Blocked else Unencrypted)
  }

  /** send: a message to the peer goes out. */
  function Say(s: Session, p: Payload): Session { s.(log := s.log + [Sent(s.generation, p)]) }

  function Announce(s: Session): Session { if s.peer.Some? then Say(s, NoCrypto) else s }

  function OwnPub(s: Session): Bytes { if s.myPub.Some? then s.myPub.value else [] }

  function StartWith(s: Session, peer: Id): Session {
    if !s.supported || (s.peer == Some(peer) && (s.keyPair.Some? || s.startingFor == Some(peer))) then
      s
    else
      Begin(ResetPeer(s), peer)
  }

  /** startWith on a new session, up to its first await. */
  function Begin(s: Session, peer: Id): Session {
    s.(peer := Some(peer), startingFor := Some(peer),
       role := if Before(s.id, peer) then Initiator else Responder,
       phase := Handshaking,
       tasks := s.tasks + [Start(0, peer, s.generation, [])])
  }

  ghost function TheOnly(users: set<Id>): Id
    requires |users| == 1
  {
    var u :| u in users; u
  }

  ghost function Recompute(s: Session): Session {
    if |s.users| == 0 then
      var s := ResetPeer(s);
      if s.require && !CanEncrypt(s) then Downgrade(s) else s.(phase := Idle)
    else if |s.users| >= 2 then
      Downgrade(ResetPeer(s))
    else
      var p := TheOnly(s.users);
      if !CanEncrypt(s) then Downgrade(Announce(s.(peer := Some(p)))) else StartWith(s, p)
  }

  // Messages

  function BeginFinalize(s: Session): Session {
    var commit := if s.role == Initiator then s.peerCommit else s.myCommit;
    if s.keyPair.None? || s.myPub.None? || s.peerPub.None? || s.peer.None? || commit.None? then
      s
    else
      s.(tasks := s.tasks + [Finalize(Material(s.generation, s.keyPair.value, s.myPub.value, s.peerPub.value,
                                               s.peer.value, s.role, commit.value), Importing, [], [])])
  }

  function StoreCommit(s: Session, commit: Bytes): Session {
    s.(peerCommit := Some(commit), log := s.log + [StoredCommit(s.generation, commit)])
  }

  function StoreKey(s: Session, pub: Bytes): Session {
    s.(peerPub := Some(pub), log := s.log + [StoredKey(s.generation, pub)])
  }

  /** Our own key goes out in answer. */
  function Answered(s: Session): Session { Say(s, Dh(PROTOCOL_VERSION, OwnPub(s))) }

  /** onMessage after its first await, or when it has none. */
  function Handle(s: Session, p: Payload): Session {
    if s.phase == Established || s.phase == Failed || s.myCommit.None? then s
    else if Version(p) != PROTOCOL_VERSION then Fail(s)
    else
      match p
      case NoCrypto => s
      case Hello(_) => if s.role == Responder then Say(s, CommitTo(PROTOCOL_VERSION, s.myCommit.value)) else s
      case CommitTo(_, commit) =>
        if s.role != Initiator then s
        else if s.peerCommit.Some? then (if s.peerCommit.value != commit then Fail(s) else s)
        else Answered(StoreCommit(s, commit))
      case Dh(_, pub) =>
        if s.peerPub.Some? then (if s.peerPub.value != pub then Fail(s) else s)
        else if s.role == Responder then
          BeginFinalize(Answered(StoreKey(s, pub)))
        else if s.peerCommit.None? then s
        else s.(tasks := s.tasks + [Hash(pub)])
  }

  ghost function OnMessage(s: Session, from: Id, p: Payload): Session {
    if |s.users| != 1 || from != TheOnly(s.users) then s
    else if !s.supported then Downgrade(Announce(s.(peer := Some(from))))
    else if p.NoCrypto? then Downgrade(s.(peer := Some(from)))
    else if s.peer != Some(from) || s.keyPair.None? then
      var s := StartWith(s, from);
      s.(tasks := s.tasks + [Continue(from, p)])
    else Handle(s, p)
  }

  // Tasks

  function Salt(c: Crypto, id: Id, m: Material): Bytes {
    var me := m.role == Initiator;
    c.transcript(Transcript(if me then id else m.peer, if me then m.peer else id, m.commit,
                            if me then m.myPub else m.peerPub, if me then m.peerPub else m.myPub))
  }

  /** The four media streams, in the order their keys are derived. */
  function StreamId(id: Id, peer: Id, k: nat): string {
    (if k < 2 then id else peer) + if k % 2 == 0 then "|audio" else "|video"
  }

  function TakeOwnKey(c: Crypto, s: Session, keyPair: Bytes): Session {
    var pub := c.publicOf(keyPair);
    s.(keyPair := Some(keyPair), myPub := Some(pub), myCommit := Some(c.commit(pub)), startingFor := None)
  }

  /** What startWith says once it has its key: hello, and the responder its commitment. */
  function Introduce(s: Session): Session {
    var u := Say(s, Hello(PROTOCOL_VERSION));
    if s.role == Responder && s.myCommit.Some? then Say(u, CommitTo(PROTOCOL_VERSION, s.myCommit.value)) else u
  }

  /** startWith goes on after one of its three awaits. */
  function RunStart(c: Crypto, s: Session, t: Task, newKey: Bytes): Session
    requires t.Start?
  {
    if t.at == 0 then s.(tasks := s.tasks + [t.(at := 1, keyPair := newKey)])
    else if t.at == 1 then s.(tasks := s.tasks + [t.(at := 2)])
    else if s.peer != Some(t.peer) || t.gen != s.generation then s
    else
      Introduce(TakeOwnKey(c, s, t.keyPair))
  }

  /** finalize goes on after one of its awaits. */
  function RunFinalize(c: Crypto, s: Session, t: Task): Session
    requires t.Finalize?
  {
    var m := t.m;
    match t.step
    case Importing => s.(tasks := s.tasks + [t.(step := Agreeing)])
    case Agreeing =>
      if m.gen != s.generation then s else
      var secret := c.agree(m.keyPair, m.peerPub);
      s.(secret := Some(secret), tasks := s.tasks + [t.(step := Transcribing, secret := secret)])
    case Transcribing =>
      if m.gen != s.generation then s else
      s.(tasks := s.tasks + [t.(step := KeyFor(0), salt := Salt(c, s.id, m))])
    case KeyFor(k) =>
      if m.gen != s.generation then s else
      var stream := StreamId(s.id, m.peer, k);
      s.(worker := s.worker[stream := c.mediaKey(t.secret, t.salt, stream)],
         tasks := s.tasks + [t.(step := if k < 3 then KeyFor(k + 1) else ChatSend)])
    case ChatSend => s.(tasks := s.tasks + [t.(step := ChatRecv)])
    case ChatRecv =>
      if m.gen != s.generation then s else
      s.(chatSendKey := Some(c.chatKey(t.secret, t.salt, s.id)), chatRecvKey := Some(c.chatKey(t.secret, t.salt, m.peer)),
         chatSendSeq := 0, chatRecvSeq := -1, log := s.log + [GotChatKeys(s.generation)],
         tasks := s.tasks + [t.(step := Deriving)])
    case Deriving =>
      if m.gen != s.generation then s else
      s.(sas := Some(c.sas(t.secret, t.salt)), wasEncrypted := true, clearAgreed := false, phase := Established,
         log := s.log + [Secured(s.generation, m.role)])
  }

  /** The initiator goes on after hashing a key. */
  function RunHash(c: Crypto, s: Session, pub: Bytes): Session {
    if s.peerCommit.None? then s  // comparing with null throws
    else if c.commit(pub) != s.peerCommit.value then Fail(s)
    else if s.peerPub.Some? || s.phase != Handshaking then s
    else BeginFinalize(StoreKey(s, pub))
  }

  function Without(ts: seq<Task>, i: nat): seq<Task>
    requires i < |ts|
  {
    ts[..i] + ts[i + 1..]
  }

  function RunTask(c: Crypto, s: Session, i: nat, newKey: Bytes): Session
    requires i < |s.tasks|
  {
    var t := s.tasks[i];
    var s := s.(tasks := Without(s.tasks, i));
    match t
    case Start(_, _, _, _) => RunStart(c, s, t, newKey)
    case Finalize(_, _, _, _) => RunFinalize(c, s, t)
    case Hash(pub) => RunHash(c, s, pub)
    case Continue(_, p) => Handle(s, p)
  }

  // Runs

  datatype Action =
    | AddUser(id: Id)
    | DelUser(id: Id)
    | SetRequire(require: bool)
    | Message(from: Id, payload: Payload)
    | AttachFails
    | ContinueInClear
    | Run(i: nat, newKey: Bytes)   // a task goes on; newKey is the key pair, if it was waiting for one
    | Reject(i: nat)              // what it waited for throws

  ghost function Apply(c: Crypto, s: Session, a: Action): Session {
    match a
    case AddUser(id) => if id == s.id then s else Recompute(s.(users := s.users + {id}))
    case DelUser(id) =>
      var s' := s.(users := s.users - {id});
      Recompute(if s'.peer == Some(id) then ResetPeer(s') else s')
    case SetRequire(b) => Recompute(s.(require := b))
    case Message(from, p) => OnMessage(s, from, p)
    case AttachFails => if s.supported then Downgrade(Announce(s.(transformFailed := true))) else s
    case ContinueInClear =>
      if s.phase == Blocked && !s.require && s.wasEncrypted && !s.clearAgreed
      then s.(clearAgreed := true, phase := Unencrypted) else s
    case Run(i, newKey) => if i < |s.tasks| then RunTask(c, s, i, newKey) else s
    case Reject(i) => if i < |s.tasks| then s.(tasks := Without(s.tasks, i)) else s
  }

  ghost function Exec(c: Crypto, start: Session, run: seq<Action>): Session {
    if run == [] then start else Apply(c, Exec(c, start, run[..|run| - 1]), run[|run| - 1])
  }
}
