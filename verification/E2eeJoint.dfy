/**
 * Two clients at a handshake together, each reduced to what the handshake is about:
 * its own key, what it has of the other side, its suspended runs and what it has said.
 * What one has said reaches the other in order, when it may; runs go on when they may.
 */
module E2eeJoint {
  import opened Common
  import opened E2eeSession

  /** Seeing the other side for the first time, or a suspended run without the material that it carries along. */
  datatype Job = JMeet | JStart(at: nat, keyPair: Bytes) | JFinalize(step: FinalizeAt) | JHash(pub: Bytes) | JContinue(p: Payload)

  datatype Side = Side(
    role: Role, keyPair: Option<Bytes>, peerCommit: Option<Bytes>, peerPub: Option<Bytes>,
    established: bool, jobs: seq<Job>, said: seq<Payload>
  )

  const V := PROTOCOL_VERSION

  function Com(c: Crypto, keyPair: Bytes): Bytes { c.commit(c.publicOf(keyPair)) }

  function NextStep(step: FinalizeAt): FinalizeAt {
    match step
    case Importing => Agreeing
    case Agreeing => Transcribing
    case Transcribing => KeyFor(0)
    case KeyFor(k) => if k < 3 then KeyFor(k + 1) else ChatSend
    case ChatSend => ChatRecv
    case ChatRecv => Deriving
    case Deriving => Deriving
  }

  function Drop(jobs: seq<Job>, i: nat): seq<Job>
    requires i < |jobs|
  {
    jobs[..i] + jobs[i + 1..]
  }

  function Tell(x: Side, p: Payload): Side { x.(said := x.said + [p]) }

  function Push(x: Side, j: Job): Side { x.(jobs := x.jobs + [j]) }

  /** onMessage, with a message that breaks no rule. */
  function Hear(c: Crypto, x: Side, p: Payload): Side {
    if x.established || x.keyPair.None? then x
    else
      match p
      case NoCrypto => x
      case Hello(_) => if x.role == Responder then Tell(x, CommitTo(V, Com(c, x.keyPair.value))) else x
      case CommitTo(_, commit) =>
        if x.role != Initiator || x.peerCommit.Some? then x
        else Tell(x.(peerCommit := Some(commit)), Dh(V, c.publicOf(x.keyPair.value)))
      case Dh(_, pub) =>
        if x.peerPub.Some? then x
        else if x.role == Responder then
          Push(Tell(x.(peerPub := Some(pub)), Dh(V, c.publicOf(x.keyPair.value))), JFinalize(Importing))
        else if x.peerCommit.None? then x
        else Push(x, JHash(pub))
  }

  /** A message arrives: it is dropped, waits for our key, or is heard. */
  function Deliver(c: Crypto, x: Side, p: Payload): Side {
    if JMeet in x.jobs then x else if x.keyPair.None? then Push(x, JContinue(p)) else Hear(c, x, p)
  }

  /** It has its key, and says so. */
  function Introduced(c: Crypto, x: Side, key: Bytes): Side {
    var z := Tell(x.(keyPair := Some(key)), Hello(V));
    if x.role == Responder then Tell(z, CommitTo(V, Com(c, key))) else z
  }

  function GoOn(c: Crypto, x: Side, i: nat, newKey: Bytes): Side
    requires i < |x.jobs|
  {
    var y := x.(jobs := Drop(x.jobs, i));
    match x.jobs[i]
    case JMeet => Push(y, JStart(0, []))
    case JStart(at, key) =>
      if at == 0 then Push(y, JStart(1, newKey))
      else if at == 1 then Push(y, JStart(2, key))
      else
        Introduced(c, y, key)
    case JFinalize(step) => if step.Deriving? then y.(established := true) else Push(y, JFinalize(NextStep(step)))
    case JHash(pub) =>
      if y.peerPub.Some? || y.established then y else Push(y.(peerPub := Some(pub)), JFinalize(Importing))
    case JContinue(p) => Hear(c, y, p)
  }

  /** x is the initiator, y the responder; toY and toX count what each has been delivered. */
  datatype Joint = Joint(x: Side, y: Side, toY: nat, toX: nat)

  datatype Move =
    | XGoesOn(i: nat, newKey: Bytes)
    | YGoesOn(i: nat, newKey: Bytes)
    | ToX
    | ToY

  predicate CanMove(j: Joint, m: Move) {
    match m
    case XGoesOn(i, _) => i < |j.x.jobs|
    case YGoesOn(i, _) => i < |j.y.jobs|
    case ToX => j.toX < |j.y.said|
    case ToY => j.toY < |j.x.said|
  }

  function Next(c: Crypto, j: Joint, m: Move): Joint
    requires CanMove(j, m)
  {
    match m
    case XGoesOn(i, newKey) => j.(x := GoOn(c, j.x, i, newKey))
    case YGoesOn(i, newKey) => j.(y := GoOn(c, j.y, i, newKey))
    case ToX => j.(x := Deliver(c, j.x, j.y.said[j.toX]), toX := j.toX + 1)
    case ToY => j.(y := Deliver(c, j.y, j.x.said[j.toY]), toY := j.toY + 1)
  }

  function Beginner(role: Role): Side { Side(role, None, None, None, false, [JMeet], []) }

  function Beginning(): Joint { Joint(Beginner(Initiator), Beginner(Responder), 0, 0) }

  // What is on its way

  /** A payload is on its way to x: undelivered, or with a suspended run. */
  predicate PendX(j: Joint, p: Payload) {
    j.toX <= |j.y.said| && (p in j.y.said[j.toX..] || JContinue(p) in j.x.jobs)
  }

  predicate PendY(j: Joint, p: Payload) {
    j.toY <= |j.x.said| && (p in j.x.said[j.toY..] || JContinue(p) in j.y.jobs)
  }

  /** What the initiator may have said. */
  predicate FromX(c: Crypto, x: Side, p: Payload) {
    p == Hello(V) || (x.keyPair.Some? && x.peerCommit.Some? && p == Dh(V, c.publicOf(x.keyPair.value)))
  }

  predicate FromY(c: Crypto, y: Side, p: Payload) {
    || p == Hello(V)
    || (y.keyPair.Some? && p == CommitTo(V, Com(c, y.keyPair.value)))
    || (y.keyPair.Some? && y.peerPub.Some? && p == Dh(V, c.publicOf(y.keyPair.value)))
  }

  /** Each side's own affairs: until it has its key it has nothing else, and one run is fetching it. */
  ghost predicate Alone(x: Side) {
    && (x.keyPair.None? ==> x.peerCommit.None? && x.peerPub.None? && !x.established && exists i :: StartAt(x, i))
    && (x.keyPair.Some? ==> forall i :: !StartAt(x, i))
    && (forall i, k :: StartAt(x, i) && StartAt(x, k) ==> i == k)
    && (x.established ==> x.peerPub.Some?)
    && (forall i :: FinalizeAtJob(x, i) ==> x.peerPub.Some?)
    && (x.peerPub.Some? && !x.established ==> exists i :: FinalizeAtJob(x, i))
  }

  predicate StartAt(x: Side, i: int) { 0 <= i < |x.jobs| && (x.jobs[i].JStart? || x.jobs[i].JMeet?) }

  predicate FinalizeAtJob(x: Side, i: int) { 0 <= i < |x.jobs| && x.jobs[i].JFinalize? }

  /** What one side has of the other is what the other side has. */
  predicate Linked(c: Crypto, x: Side, y: Side) {
    && x.role == Initiator && y.role == Responder && y.peerCommit.None?
    && (x.peerCommit.Some? ==> x.keyPair.Some? && y.keyPair.Some? && x.peerCommit.value == Com(c, y.keyPair.value))
    && (x.peerPub.Some? ==> x.peerCommit.Some? && y.peerPub.Some? && x.peerPub.value == c.publicOf(y.keyPair.value))
    && (y.peerPub.Some? ==> y.keyPair.Some? && x.peerCommit.Some? && y.peerPub.value == c.publicOf(x.keyPair.value))
  }

  ghost predicate Spoken(c: Crypto, j: Joint) {
    && (forall p :: p in j.x.said ==> FromX(c, j.x, p))
    && (forall p :: p in j.y.said ==> FromY(c, j.y, p))
    && (forall p :: JContinue(p) in j.y.jobs ==> FromX(c, j.x, p))
    && (forall p :: JContinue(p) in j.x.jobs ==> FromY(c, j.y, p))
    && (forall pub :: JHash(pub) in j.x.jobs ==> FromY(c, j.y, Dh(V, pub)))
    && (forall pub :: JHash(pub) !in j.y.jobs)
  }

  /** Whatever is still missing is on its way. */
  predicate OnItsWay(c: Crypto, j: Joint)
    requires Linked(c, j.x, j.y)
  {
    var x, y := j.x, j.y;
    && j.toX <= |y.said| && j.toY <= |x.said|
    && (x.keyPair.Some? && y.keyPair.Some? && x.peerCommit.None? ==>
          PendX(j, CommitTo(V, Com(c, y.keyPair.value))) || PendY(j, Hello(V)))
    && (x.peerCommit.Some? && y.peerPub.None? ==> PendY(j, Dh(V, c.publicOf(x.keyPair.value))))
    && (y.peerPub.Some? && x.peerPub.None? ==>
          PendX(j, Dh(V, c.publicOf(y.keyPair.value))) || JHash(c.publicOf(y.keyPair.value)) in x.jobs)
  }

  ghost predicate Inv(c: Crypto, j: Joint) {
    Alone(j.x) && Alone(j.y) && Linked(c, j.x, j.y) && Spoken(c, j) && OnItsWay(c, j)
  }

  lemma BeginningInv(c: Crypto)
    ensures Inv(c, Beginning())
  {
    assert StartAt(Beginner(Initiator), 0) && StartAt(Beginner(Responder), 0);
  }

  // Lists

  lemma DropKeeps(jobs: seq<Job>, i: nat)
    requires i < |jobs|
    ensures forall k :: k in jobs && k != jobs[i] ==> k in Drop(jobs, i)
    ensures forall k :: k in Drop(jobs, i) ==> k in jobs
  {
    assert jobs == jobs[..i] + [jobs[i]] + jobs[i + 1..];
  }

  lemma DropAt(jobs: seq<Job>, i: nat)
    requires i < |jobs|
    ensures |Drop(jobs, i)| == |jobs| - 1
    ensures forall k :: 0 <= k < |jobs| - 1 ==> Drop(jobs, i)[k] == jobs[if k < i then k else k + 1]
  {
  }

  lemma TailMore<T>(s: seq<T>, more: T, n: nat)
    requires n <= |s|
    ensures (s + [more])[n..] == s[n..] + [more]
  {
  }

  lemma TailFirst<T>(s: seq<T>, n: nat)
    requires n < |s|
    ensures s[n..] == [s[n]] + s[n + 1..] && s[n] in s
  {
  }

  // A step takes something off its way, and then acts on it

  /** The invariant when payloads or a key have just been taken up and not yet acted on. */
  predicate OnItsWayBut(c: Crypto, j: Joint, ex: Option<Payload>, ey: Option<Payload>, eh: Option<Bytes>)
    requires Linked(c, j.x, j.y)
  {
    var x, y := j.x, j.y;
    && j.toX <= |y.said| && j.toY <= |x.said|
    && (x.keyPair.Some? && y.keyPair.Some? && x.peerCommit.None? ==>
          var p := CommitTo(V, Com(c, y.keyPair.value));
          PendX(j, p) || ex == Some(p) || PendY(j, Hello(V)) || ey == Some(Hello(V)))
    && (x.peerCommit.Some? && y.peerPub.None? ==>
          var p := Dh(V, c.publicOf(x.keyPair.value)); PendY(j, p) || ey == Some(p))
    && (y.peerPub.Some? && x.peerPub.None? ==>
          var pub := c.publicOf(y.keyPair.value);
          PendX(j, Dh(V, pub)) || ex == Some(Dh(V, pub)) || JHash(pub) in x.jobs || eh == Some(pub))
  }

  ghost predicate InvBut(c: Crypto, j: Joint, ex: Option<Payload>, ey: Option<Payload>, eh: Option<Bytes>) {
    Alone(j.x) && Alone(j.y) && Linked(c, j.x, j.y) && Spoken(c, j) && OnItsWayBut(c, j, ex, ey, eh)
  }

  lemma AloneDrop(x: Side, i: nat)
    requires Alone(x) && i < |x.jobs| && !StartAt(x, i) && !x.jobs[i].JFinalize?
    ensures Alone(x.(jobs := Drop(x.jobs, i)))
  {
    hide Drop;
    var y := x.(jobs := Drop(x.jobs, i));
    DropAt(x.jobs, i);
    forall k | StartAt(y, k) ensures StartAt(x, if k < i then k else k + 1) {}
    forall k | FinalizeAtJob(y, k) ensures FinalizeAtJob(x, if k < i then k else k + 1) {}
    if k :| StartAt(x, k) {
      assert StartAt(y, if k < i then k else k - 1);
    }
    if k :| FinalizeAtJob(x, k) {
      assert FinalizeAtJob(y, if k < i then k else k - 1);
    }
  }

  lemma AlonePush(x: Side, job: Job)
    requires Alone(x) && !job.JStart? && !job.JMeet? && !job.JFinalize?
    ensures Alone(Push(x, job))
  {
    var y := Push(x, job);
    assert forall k :: StartAt(y, k) <==> StartAt(x, k);
    assert forall k :: FinalizeAtJob(y, k) <==> FinalizeAtJob(x, k);
    if k :| FinalizeAtJob(x, k) {
      assert FinalizeAtJob(y, k);
    }
  }

  /** Where the peer's key is stored, a run to finalize starts. */
  lemma AloneStore(x: Side, pub: Bytes)
    requires Alone(x) && x.keyPair.Some?
    ensures Alone(Push(x.(peerPub := Some(pub)), JFinalize(Importing)))
  {
    var y := Push(x.(peerPub := Some(pub)), JFinalize(Importing));
    assert forall k :: StartAt(y, k) <==> StartAt(x, k);
    assert FinalizeAtJob(y, |x.jobs|);
  }

  lemma AloneSame(x: Side, y: Side)
    requires Alone(x) && x.keyPair.Some? && y == x.(peerCommit := y.peerCommit, said := y.said)
    ensures Alone(y)
  {
    assert forall k :: StartAt(y, k) <==> StartAt(x, k);
    assert forall k :: FinalizeAtJob(y, k) <==> FinalizeAtJob(x, k);
    if k :| FinalizeAtJob(x, k) {
      assert FinalizeAtJob(y, k);
    }
  }

  lemma TakeX(c: Crypto, j: Joint)
    requires Inv(c, j) && j.toX < |j.y.said|
    ensures InvBut(c, j.(toX := j.toX + 1), Some(j.y.said[j.toX]), None, None) && FromY(c, j.y, j.y.said[j.toX])
  {
    hide Alone, Linked, FromX, FromY;
    TailFirst(j.y.said, j.toX);
  }

  lemma TakeY(c: Crypto, j: Joint)
    requires Inv(c, j) && j.toY < |j.x.said|
    ensures InvBut(c, j.(toY := j.toY + 1), None, Some(j.x.said[j.toY]), None) && FromX(c, j.x, j.x.said[j.toY])
  {
    hide Alone, Linked, FromX, FromY;
    TailFirst(j.x.said, j.toY);
  }

  /** The initiator takes up a suspended message or key. */
  lemma PickX(c: Crypto, j: Joint, i: nat)
    requires Inv(c, j) && i < |j.x.jobs| && (j.x.jobs[i].JContinue? || j.x.jobs[i].JHash?)
    ensures var job, j' := j.x.jobs[i], j.(x := j.x.(jobs := Drop(j.x.jobs, i)));
            && (job.JContinue? ==> InvBut(c, j', Some(job.p), None, None) && FromY(c, j.y, job.p))
            && (job.JHash? ==> InvBut(c, j', None, None, Some(job.pub)) && FromY(c, j.y, Dh(V, job.pub)))
  {
    hide Alone, Drop;
    AloneDrop(j.x, i);
    DropKeeps(j.x.jobs, i);
    assert j.x.jobs[i] in j.x.jobs;
  }

  lemma PickY(c: Crypto, j: Joint, i: nat)
    requires Inv(c, j) && i < |j.y.jobs| && j.y.jobs[i].JContinue?
    ensures var job, j' := j.y.jobs[i], j.(y := j.y.(jobs := Drop(j.y.jobs, i)));
            InvBut(c, j', None, Some(job.p), None) && FromX(c, j.x, job.p)
  {
    hide Alone, Drop;
    AloneDrop(j.y, i);
    DropKeeps(j.y.jobs, i);
    assert j.y.jobs[i] in j.y.jobs;
  }

  lemma PushXInv(c: Crypto, j: Joint, p: Payload)
    requires InvBut(c, j, Some(p), None, None) && FromY(c, j.y, p)
    ensures Inv(c, j.(x := Push(j.x, JContinue(p))))
  {
    hide Alone;
    AlonePush(j.x, JContinue(p));
  }

  lemma PushYInv(c: Crypto, j: Joint, p: Payload)
    requires InvBut(c, j, None, Some(p), None) && FromX(c, j.x, p)
    ensures Inv(c, j.(y := Push(j.y, JContinue(p))))
  {
    hide Alone;
    AlonePush(j.y, JContinue(p));
  }

  // The initiator hears

  lemma HearX(c: Crypto, j: Joint, p: Payload)
    requires InvBut(c, j, Some(p), None, None) && FromY(c, j.y, p)
    ensures Inv(c, j.(x := Hear(c, j.x, p)))
  {
    hide Alone, Spoken, OnItsWayBut, OnItsWay, Linked;
    RoleOf(c, j.x, j.y);
    if j.x.established || j.x.keyPair.None? || p.Hello? || p.NoCrypto? {
      IgnoredX(c, j, p);
    } else if p.CommitTo? {
      if j.x.peerCommit.Some? {
        IgnoredX(c, j, p);
      } else {
        CommitX(c, j, p);
      }
    } else if j.x.peerPub.Some? || j.x.peerCommit.None? {
      IgnoredX(c, j, p);
    } else {
      KeyX(c, j, p);
    }
  }

  lemma RoleOf(c: Crypto, x: Side, y: Side)
    requires Linked(c, x, y)
    ensures x.role == Initiator && y.role == Responder
  {
  }

  /** What it ignores was not missing. */
  lemma IgnoredX(c: Crypto, j: Joint, p: Payload)
    requires InvBut(c, j, Some(p), None, None) && FromY(c, j.y, p)
    requires || j.x.established || j.x.keyPair.None? || p.Hello? || p.NoCrypto?
             || (p.CommitTo? && j.x.peerCommit.Some?) || (p.Dh? && (j.x.peerPub.Some? || j.x.peerCommit.None?))
    ensures Inv(c, j)
  {
    hide Spoken;
  }

  lemma CommitX(c: Crypto, j: Joint, p: Payload)
    requires InvBut(c, j, Some(p), None, None) && FromY(c, j.y, p)
    requires p.CommitTo? && !j.x.established && j.x.keyPair.Some? && j.x.peerCommit.None?
    ensures Inv(c, j.(x := Tell(j.x.(peerCommit := Some(p.commit)), Dh(V, c.publicOf(j.x.keyPair.value)))))
  {
    hide Alone;
    var said := Dh(V, c.publicOf(j.x.keyPair.value));
    var x := Tell(j.x.(peerCommit := Some(p.commit)), said);
    AloneSame(j.x, x);
    TailMore(j.x.said, said, j.toY);
  }

  lemma KeyX(c: Crypto, j: Joint, p: Payload)
    requires InvBut(c, j, Some(p), None, None) && FromY(c, j.y, p)
    requires p.Dh? && !j.x.established && j.x.keyPair.Some? && j.x.peerPub.None? && j.x.peerCommit.Some?
    ensures Inv(c, j.(x := Push(j.x, JHash(p.pub))))
  {
    hide Alone;
    AlonePush(j.x, JHash(p.pub));
  }

  /** The initiator has hashed a key: it opens the commitment. */
  lemma HashX(c: Crypto, j: Joint, pub: Bytes)
    requires InvBut(c, j, None, None, Some(pub)) && FromY(c, j.y, Dh(V, pub))
    ensures j.x.peerCommit.Some? && c.commit(pub) == j.x.peerCommit.value
    ensures Inv(c, if j.x.peerPub.Some? || j.x.established then j else j.(x := Push(j.x.(peerPub := Some(pub)), JFinalize(Importing))))
  {
    if j.x.peerPub.Some? || j.x.established {
      hide Spoken;
    } else {
      StoreX(c, j, pub);
    }
  }

  lemma StoreX(c: Crypto, j: Joint, pub: Bytes)
    requires InvBut(c, j, None, None, Some(pub)) && FromY(c, j.y, Dh(V, pub))
    requires j.x.peerPub.None?
    ensures Inv(c, j.(x := Push(j.x.(peerPub := Some(pub)), JFinalize(Importing))))
  {
    hide Alone;
    AloneStore(j.x, pub);
  }

  // The responder hears

  lemma HearY(c: Crypto, j: Joint, p: Payload)
    requires InvBut(c, j, None, Some(p), None) && FromX(c, j.x, p)
    ensures Inv(c, j.(y := Hear(c, j.y, p)))
  {
    hide Alone, Spoken, OnItsWayBut, OnItsWay, Linked;
    RoleOf(c, j.x, j.y);
    if j.y.established || j.y.keyPair.None? || (p.Dh? && j.y.peerPub.Some?) {
      IgnoredY(c, j, p);
    } else if p.Hello? {
      HelloY(c, j, p);
    } else {
      KeyY(c, j, p);
    }
  }

  lemma IgnoredY(c: Crypto, j: Joint, p: Payload)
    requires InvBut(c, j, None, Some(p), None) && FromX(c, j.x, p)
    requires j.y.established || j.y.keyPair.None? || (p.Dh? && j.y.peerPub.Some?)
    ensures Inv(c, j)
  {
    hide Spoken;
  }

  lemma HelloY(c: Crypto, j: Joint, p: Payload)
    requires InvBut(c, j, None, Some(p), None) && j.y.keyPair.Some? && p.Hello?
    ensures Inv(c, j.(y := Tell(j.y, CommitTo(V, Com(c, j.y.keyPair.value)))))
  {
    hide Alone;
    var said := CommitTo(V, Com(c, j.y.keyPair.value));
    AloneSame(j.y, Tell(j.y, said));
    TailMore(j.y.said, said, j.toX);
  }

  lemma KeyY(c: Crypto, j: Joint, p: Payload)
    requires InvBut(c, j, None, Some(p), None) && FromX(c, j.x, p)
    requires p.Dh? && !j.y.established && j.y.keyPair.Some? && j.y.peerPub.None?
    ensures Inv(c, j.(y := Push(Tell(j.y.(peerPub := Some(p.pub)), Dh(V, c.publicOf(j.y.keyPair.value))), JFinalize(Importing))))
  {
    hide Alone;
    var said := Dh(V, c.publicOf(j.y.keyPair.value));
    var told := Tell(j.y, said);
    AloneSame(j.y, told);
    AloneStore(told, p.pub);
    TailMore(j.y.said, said, j.toX);
    assert Push(Tell(j.y.(peerPub := Some(p.pub)), said), JFinalize(Importing)) == Push(told.(peerPub := Some(p.pub)), JFinalize(Importing));
  }

  // Runs of one side's own

  lemma FinalizeGoesOn(x: Side, i: nat)
    requires Alone(x) && FinalizeAtJob(x, i)
    ensures x.peerPub.Some?
    ensures Alone(x.(jobs := Drop(x.jobs, i), established := true))
    ensures Alone(Push(x.(jobs := Drop(x.jobs, i)), JFinalize(NextStep(x.jobs[i].step))))
  {
    hide Drop;
    DropAt(x.jobs, i);
    var y := x.(jobs := Drop(x.jobs, i));
    var z := Push(y, JFinalize(NextStep(x.jobs[i].step)));
    var e := y.(established := true);
    forall k | StartAt(y, k) ensures StartAt(x, if k < i then k else k + 1) {}
    forall k | StartAt(z, k) || StartAt(e, k) ensures StartAt(y, k) {}
    assert FinalizeAtJob(z, |y.jobs|);
  }

  lemma StartGoesOn(x: Side, i: nat, at: nat, key: Bytes)
    requires Alone(x) && StartAt(x, i)
    ensures x.keyPair.None?
    ensures Alone(Push(x.(jobs := Drop(x.jobs, i)), JStart(at, key)))
    ensures Alone(x.(jobs := Drop(x.jobs, i), keyPair := Some(key)))
  {
    hide Drop;
    DropAt(x.jobs, i);
    var y := x.(jobs := Drop(x.jobs, i));
    var z := Push(y, JStart(at, key));
    forall k | 0 <= k < |y.jobs| ensures !y.jobs[k].JStart? && !y.jobs[k].JMeet? && !y.jobs[k].JFinalize? {
      var k' := if k < i then k else k + 1;
      assert StartAt(x, i) && (StartAt(x, k') ==> i == k') && (FinalizeAtJob(x, k') ==> x.peerPub.Some?);
    }
    assert StartAt(z, |y.jobs|);
  }

  /** The same messages and keys are with suspended runs. */
  ghost predicate SameHeld(x: Side, y: Side) {
    && (forall p :: JContinue(p) in x.jobs <==> JContinue(p) in y.jobs)
    && (forall pub :: JHash(pub) in x.jobs <==> JHash(pub) in y.jobs)
  }

  lemma HeldBut(x: Side, i: nat, job: Job)
    requires i < |x.jobs| && (StartAt(x, i) || FinalizeAtJob(x, i)) && !job.JContinue? && !job.JHash?
    ensures SameHeld(x, x.(jobs := Drop(x.jobs, i))) && SameHeld(x, Push(x.(jobs := Drop(x.jobs, i)), job))
  {
    hide Drop;
    DropKeeps(x.jobs, i);
  }

  lemma SameInv(c: Crypto, j: Joint, x: Side, y: Side)
    requires Inv(c, j) && Alone(x) && Alone(y) && SameHeld(j.x, x) && SameHeld(j.y, y)
    requires x == j.x.(jobs := x.jobs, established := x.established)
    requires y == j.y.(jobs := y.jobs, established := y.established)
    ensures Inv(c, j.(x := x, y := y))
  {
    hide Alone;
  }

  /** One side has its key now, and says so. */
  lemma OwnKeyX(c: Crypto, j: Joint, x: Side, key: Bytes)
    requires Inv(c, j) && Alone(x.(said := j.x.said)) && SameHeld(j.x, x) && j.x.keyPair.None?
    requires x == j.x.(jobs := x.jobs, keyPair := Some(key), said := j.x.said + [Hello(V)])
    ensures Inv(c, j.(x := x))
  {
    assert j.x.peerCommit.None? && j.x.peerPub.None?;
    hide Alone;
    AloneSame(x.(said := j.x.said), x);
    TailMore(j.x.said, Hello(V), j.toY);
  }

  lemma OwnKeyY(c: Crypto, j: Joint, y: Side, key: Bytes)
    requires Inv(c, j) && Alone(y.(said := j.y.said)) && SameHeld(j.y, y) && j.y.keyPair.None?
    requires y == j.y.(jobs := y.jobs, keyPair := Some(key), said := j.y.said + [Hello(V)] + [CommitTo(V, Com(c, key))])
    ensures Inv(c, j.(y := y))
  {
    assert j.y.peerCommit.None? && j.y.peerPub.None?;
    hide Alone;
    AloneSame(y.(said := j.y.said), y);
    TailMore(j.y.said, Hello(V), j.toX);
    TailMore(j.y.said + [Hello(V)], CommitTo(V, Com(c, key)), j.toX);
  }

  /** Runs on the way to our own key, and finalize: the other side does not notice them. */
  predicate OwnRun(job: Job) { job.JMeet? || (job.JStart? && job.at < 2) || job.JFinalize? }

  lemma OwnRunGoesOn(c: Crypto, x: Side, i: nat, newKey: Bytes)
    requires Alone(x) && i < |x.jobs| && OwnRun(x.jobs[i])
    ensures var y := GoOn(c, x, i, newKey);
            Alone(y) && SameHeld(x, y) && y == x.(jobs := y.jobs, established := y.established)
  {
    hide Alone, Drop, SameHeld;
    match x.jobs[i] {
      case JMeet =>
        StartGoesOn(x, i, 0, []);
        HeldBut(x, i, JStart(0, []));
      case JStart(at, key) =>
        var k := if at == 0 then newKey else key;
        StartGoesOn(x, i, at + 1, k);
        HeldBut(x, i, JStart(at + 1, k));
      case JFinalize(step) =>
        FinalizeGoesOn(x, i);
        HeldBut(x, i, JFinalize(NextStep(step)));
        HeldSame(x, x.(jobs := Drop(x.jobs, i)), x.(jobs := Drop(x.jobs, i), established := true));
    }
  }

  lemma HeldSame(x: Side, y: Side, z: Side)
    requires SameHeld(x, y) && z.jobs == y.jobs
    ensures SameHeld(x, z)
  {
  }

  lemma HeldSelf(x: Side)
    ensures SameHeld(x, x)
  {
  }

  lemma XGoesOnInv(c: Crypto, j: Joint, i: nat, newKey: Bytes)
    requires Inv(c, j) && i < |j.x.jobs|
    ensures Inv(c, j.(x := GoOn(c, j.x, i, newKey)))
  {
    hide Alone, Spoken, OnItsWay, OnItsWayBut, Drop, Hear, SameHeld, Linked;
    var x := j.x;
    RoleOf(c, j.x, j.y);
    var z := GoOn(c, x, i, newKey);
    if OwnRun(x.jobs[i]) {
      OwnRunGoesOn(c, x, i, newKey);
      HeldSelf(j.y);
      SameInv(c, j, z, j.y);
    } else {
      match x.jobs[i] {
        case JStart(_, key) =>
          var y := x.(jobs := Drop(x.jobs, i));
          StartGoesOn(x, i, 0, key);
          HeldBut(x, i, JMeet);
          HeldSame(x, y, z);
          OwnKeyX(c, j, z, key);
        case JHash(pub) =>
          PickX(c, j, i);
          HashX(c, j.(x := x.(jobs := Drop(x.jobs, i))), pub);
        case JContinue(p) =>
          PickX(c, j, i);
          HearX(c, j.(x := x.(jobs := Drop(x.jobs, i))), p);
      }
    }
  }

  lemma YGoesOnInv(c: Crypto, j: Joint, i: nat, newKey: Bytes)
    requires Inv(c, j) && i < |j.y.jobs|
    ensures Inv(c, j.(y := GoOn(c, j.y, i, newKey)))
  {
    NoHashY(c, j, i);
    hide Alone, Spoken, OnItsWay, OnItsWayBut, Drop, Hear, SameHeld, Linked;
    var y := j.y;
    RoleOf(c, j.x, j.y);
    var z := GoOn(c, y, i, newKey);
    if OwnRun(y.jobs[i]) {
      OwnRunGoesOn(c, y, i, newKey);
      HeldSelf(j.x);
      SameInv(c, j, j.x, z);
    } else {
      match y.jobs[i] {
        case JStart(_, key) =>
          var u := y.(jobs := Drop(y.jobs, i));
          StartGoesOn(y, i, 0, key);
          HeldBut(y, i, JMeet);
          HeldSame(y, u, z);
          OwnKeyY(c, j, z, key);
        case JContinue(p) =>
          PickY(c, j, i);
          HearY(c, j.(y := y.(jobs := Drop(y.jobs, i))), p);
      }
    }
  }

  lemma NoHashY(c: Crypto, j: Joint, i: nat)
    requires Inv(c, j) && i < |j.y.jobs|
    ensures !j.y.jobs[i].JHash?
  {
    hide Alone, OnItsWay, Linked;
    assert j.y.jobs[i] in j.y.jobs;
  }

  // Deliveries

  lemma ToXInv(c: Crypto, j: Joint)
    requires Inv(c, j) && j.toX < |j.y.said|
    ensures Inv(c, Next(c, j, ToX))
  {
    var p, j' := j.y.said[j.toX], j.(toX := j.toX + 1);
    TakeX(c, j);
    if JMeet in j.x.jobs {
      NotMet(j.x);
      IgnoredX(c, j', p);
    } else if j.x.keyPair.None? {
      PushXInv(c, j', p);
    } else {
      HearX(c, j', p);
    }
  }

  lemma ToYInv(c: Crypto, j: Joint)
    requires Inv(c, j) && j.toY < |j.x.said|
    ensures Inv(c, Next(c, j, ToY))
  {
    var p, j' := j.x.said[j.toY], j.(toY := j.toY + 1);
    TakeY(c, j);
    if JMeet in j.y.jobs {
      NotMet(j.y);
      IgnoredY(c, j', p);
    } else if j.y.keyPair.None? {
      PushYInv(c, j', p);
    } else {
      HearY(c, j', p);
    }
  }

  lemma NotMet(x: Side)
    requires Alone(x) && JMeet in x.jobs
    ensures x.keyPair.None?
  {
    var i :| 0 <= i < |x.jobs| && x.jobs[i] == JMeet;
    assert StartAt(x, i);
  }

  lemma NextKeeps(c: Crypto, j: Joint, m: Move)
    requires Inv(c, j) && CanMove(j, m)
    ensures Inv(c, Next(c, j, m))
  {
    hide Inv, GoOn, Deliver;
    match m {
      case XGoesOn(i, newKey) => XGoesOnInv(c, j, i, newKey);
      case YGoesOn(i, newKey) => YGoesOnInv(c, j, i, newKey);
      case ToX => ToXInv(c, j);
      case ToY => ToYInv(c, j);
    }
  }

  // Where it ends

  predicate Quiet(j: Joint) { j.x.jobs == [] && j.y.jobs == [] && j.toX >= |j.y.said| && j.toY >= |j.x.said| }

  lemma QuietIff(j: Joint)
    ensures Quiet(j) <==> forall m :: !CanMove(j, m)
  {
    if !Quiet(j) {
      assert CanMove(j, XGoesOn(0, [])) || CanMove(j, YGoesOn(0, [])) || CanMove(j, ToX) || CanMove(j, ToY);
    }
  }

  /** When no move is left, both have got there. */
  lemma QuietIsDone(c: Crypto, j: Joint)
    requires Inv(c, j) && forall m :: !CanMove(j, m)
    ensures j.x.established && j.y.established && j.x.keyPair.Some? && j.y.keyPair.Some?
    ensures j.x.peerPub == Some(c.publicOf(j.y.keyPair.value)) && j.y.peerPub == Some(c.publicOf(j.x.keyPair.value))
  {
    hide Spoken;
    QuietIff(j);
  }

  // How soon it ends

  function StepsLeft(step: FinalizeAt): nat {
    match step
    case Importing => 10
    case Agreeing => 9
    case Transcribing => 8
    case KeyFor(k) => if k < 4 then 7 - k else 4
    case ChatSend => 3
    case ChatRecv => 2
    case Deriving => 1
  }

  /** The moves that hearing a message can still lead to, itself included. */
  function Load(role: Role, p: Payload): nat {
    match p
    case NoCrypto => 1
    case Hello(_) => if role == Responder then 28 else 1
    case CommitTo(_, _) => if role == Initiator then 26 else 1
    case Dh(_, _) => if role == Initiator then 12 else 24
  }

  function Work(role: Role, job: Job): nat {
    match job
    case JMeet => 33
    case JStart(at, _) => if at < 2 then 32 - at else 30
    case JFinalize(step) => StepsLeft(step)
    case JHash(_) => 11
    case JContinue(p) => Load(role, p)
  }

  function JobsWork(role: Role, jobs: seq<Job>): nat {
    if jobs == [] then 0 else Work(role, jobs[0]) + JobsWork(role, jobs[1..])
  }

  function SaidWork(role: Role, said: seq<Payload>): nat {
    if said == [] then 0 else 1 + Load(role, said[0]) + SaidWork(role, said[1..])
  }

  lemma {:induction false} WorkPush(role: Role, jobs: seq<Job>, job: Job)
    ensures JobsWork(role, jobs + [job]) == JobsWork(role, jobs) + Work(role, job)
  {
    if jobs == [] {
      assert jobs + [job] == [job];
    } else {
      WorkPush(role, jobs[1..], job);
      assert (jobs + [job])[1..] == jobs[1..] + [job];
    }
  }

  lemma {:induction false} WorkDrop(role: Role, jobs: seq<Job>, i: nat)
    requires i < |jobs|
    ensures JobsWork(role, Drop(jobs, i)) == JobsWork(role, jobs) - Work(role, jobs[i])
  {
    if i == 0 {
      assert Drop(jobs, 0) == jobs[1..];
    } else {
      WorkDrop(role, jobs[1..], i - 1);
      assert Drop(jobs, i) == [jobs[0]] + Drop(jobs[1..], i - 1);
    }
  }

  lemma {:induction false} SaidMore(role: Role, said: seq<Payload>, p: Payload)
    ensures SaidWork(role, said + [p]) == SaidWork(role, said) + 1 + Load(role, p)
  {
    if said == [] {
      assert said + [p] == [p];
    } else {
      SaidMore(role, said[1..], p);
      assert (said + [p])[1..] == said[1..] + [p];
    }
  }

  function Other(role: Role): Role { if role == Initiator then Responder else Initiator }

  /** What one side has to do and, of what it has said, the other side has still to be told. */
  function SideWork(x: Side, n: nat): nat
    requires n <= |x.said|
  {
    JobsWork(x.role, x.jobs) + SaidWork(Other(x.role), x.said[n..])
  }

  lemma TellWork(x: Side, n: nat, p: Payload)
    requires n <= |x.said|
    ensures SideWork(Tell(x, p), n) == SideWork(x, n) + 1 + Load(Other(x.role), p)
  {
    TailMore(x.said, p, n);
    SaidMore(Other(x.role), x.said[n..], p);
  }

  lemma PushWork(x: Side, n: nat, job: Job)
    requires n <= |x.said|
    ensures SideWork(Push(x, job), n) == SideWork(x, n) + Work(x.role, job)
  {
    WorkPush(x.role, x.jobs, job);
  }

  lemma SameWork(x: Side, y: Side, n: nat)
    requires n <= |x.said| && y.role == x.role && y.jobs == x.jobs && y.said == x.said
    ensures SideWork(y, n) == SideWork(x, n)
  {
  }

  lemma HearWork(c: Crypto, x: Side, n: nat, p: Payload)
    requires n <= |x.said| && x.role != NoRole
    ensures var y := Hear(c, x, p);
            x.said <= y.said && y.role == x.role && SideWork(y, n) < SideWork(x, n) + Load(x.role, p)
  {
    hide SideWork;
    if !x.established && x.keyPair.Some? {
      var commit, dh := CommitTo(V, Com(c, x.keyPair.value)), Dh(V, c.publicOf(x.keyPair.value));
      match p {
        case NoCrypto =>
        case Hello(_) => TellWork(x, n, commit);
        case CommitTo(_, k) =>
          var y := x.(peerCommit := Some(k));
          SameWork(x, y, n);
          TellWork(y, n, dh);
        case Dh(_, pub) =>
          var y := x.(peerPub := Some(pub));
          SameWork(x, y, n);
          PushWork(x, n, JHash(pub));
          TellWork(y, n, dh);
          PushWork(Tell(y, dh), n, JFinalize(Importing));
      }
    }
  }

  lemma DropWork(x: Side, n: nat, i: nat)
    requires n <= |x.said| && i < |x.jobs|
    ensures SideWork(x.(jobs := Drop(x.jobs, i)), n) == SideWork(x, n) - Work(x.role, x.jobs[i])
  {
    WorkDrop(x.role, x.jobs, i);
  }

  lemma GoOnWork(c: Crypto, x: Side, n: nat, i: nat, newKey: Bytes)
    requires n <= |x.said| && i < |x.jobs| && x.role != NoRole
    ensures var y := GoOn(c, x, i, newKey);
            x.said <= y.said && y.role == x.role && SideWork(y, n) < SideWork(x, n)
  {
    hide SideWork, Hear, Drop;
    var y := x.(jobs := Drop(x.jobs, i));
    DropWork(x, n, i);
    match x.jobs[i] {
      case JMeet => PushWork(y, n, JStart(0, []));
      case JStart(at, key) =>
        PushWork(y, n, JStart(at + 1, newKey));
        PushWork(y, n, JStart(at + 1, key));
        var z := y.(keyPair := Some(key));
        SameWork(y, z, n);
        TellWork(z, n, Hello(V));
        TellWork(Tell(z, Hello(V)), n, CommitTo(V, Com(c, key)));
      case JFinalize(step) =>
        SameWork(y, y.(established := true), n);
        PushWork(y, n, JFinalize(NextStep(step)));
      case JHash(pub) =>
        var z := y.(peerPub := Some(pub));
        SameWork(y, z, n);
        PushWork(z, n, JFinalize(Importing));
      case JContinue(p) => HearWork(c, y, n, p);
    }
  }

  lemma DeliverWork(c: Crypto, x: Side, n: nat, p: Payload)
    requires n <= |x.said| && x.role != NoRole
    ensures var y := Deliver(c, x, p);
            x.said <= y.said && y.role == x.role && SideWork(y, n) <= SideWork(x, n) + Load(x.role, p)
  {
    hide SideWork, Hear;
    PushWork(x, n, JContinue(p));
    HearWork(c, x, n, p);
  }

  lemma TakenWork(x: Side, n: nat)
    requires n < |x.said|
    ensures SideWork(x, n + 1) == SideWork(x, n) - 1 - Load(Other(x.role), x.said[n])
  {
    TailFirst(x.said, n);
  }

  /** Roles, and how far each has been delivered. */
  predicate Sane(j: Joint) {
    j.x.role == Initiator && j.y.role == Responder && j.toX <= |j.y.said| && j.toY <= |j.x.said|
  }

  function MovesLeft(j: Joint): nat
    requires Sane(j)
  {
    SideWork(j.x, j.toY) + SideWork(j.y, j.toX)
  }

  /** Whatever happens next, less is left to happen. */
  lemma NextLeavesLess(c: Crypto, j: Joint, m: Move)
    requires Sane(j) && CanMove(j, m)
    ensures Sane(Next(c, j, m)) && MovesLeft(Next(c, j, m)) < MovesLeft(j)
  {
    hide SideWork, GoOn, Deliver;
    match m {
      case XGoesOn(i, newKey) => GoOnWork(c, j.x, j.toY, i, newKey);
      case YGoesOn(i, newKey) => GoOnWork(c, j.y, j.toX, i, newKey);
      case ToX =>
        DeliverWork(c, j.x, j.toY, j.y.said[j.toX]);
        TakenWork(j.y, j.toX);
      case ToY =>
        DeliverWork(c, j.y, j.toX, j.x.said[j.toY]);
        TakenWork(j.x, j.toY);
    }
  }

  lemma BeginningMoves()
    ensures Sane(Beginning()) && MovesLeft(Beginning()) == 66
  {
    assert JobsWork(Initiator, [JMeet]) == 33 && JobsWork(Responder, [JMeet]) == 33;
  }
}
