/**
 * Who gets into a group: its members, its waiting room and its locks
 * (group/group.go), under a description that stays the same.
 */
module Lobby {
  import opened Common

  type Id = string

  datatype Description = Description(
    lobby: bool, operatorRoomChild: bool, operatorRoom: bool, autoSubgroups: bool,
    e2ee: bool, requireE2ee: bool, maxClients: int,
    notBefore: Option<int>, expires: Option<int>, autolock: bool, autokick: bool
  )

  /** The description of a subgroup, from that of the group above it. */
  function ForSubgroup(d: Description): (r: Option<Description>)
    ensures r.None? <==> !d.autoSubgroups && !d.operatorRoom
    ensures d.operatorRoom ==> r.value.operatorRoomChild && r.value.lobby && !r.value.operatorRoom
    ensures r.Some? && !d.operatorRoom ==> r.value == d
  {
    if !d.autoSubgroups && !d.operatorRoom then None
    else if d.operatorRoom then Some(d.(operatorRoomChild := true, lobby := true, operatorRoom := false))
    else Some(d)
  }

  /** A member; two clients with one id are told apart by their handle. */
  datatype Member = Member(handle: nat, system: bool, op: bool)

  datatype Group = Group(
    clients: map<Id, Member>, knocking: map<Id, nat>, admitted: set<Id>, locked: Option<string>, locked1on1: bool
  )

  function NewGroup(): Group { Group(map[], map[], {}, None, false) }

  /** A client that asks to join, with what its credentials give it. */
  datatype Arrival = Arrival(id: Id, handle: nat, system: bool, authorised: bool, op: bool, token: bool)

  datatype Outcome =
    | Joined | Knocking
    | NotAuthorised | IsLocked | InvalidLink | NoHost | NotOpen | Closed | NoOperators
    | GroupFull | OneOnOne | E2eeFull
    | EmptyId | DuplicateId

  predicate HasOp(g: Group) { exists id :: id in g.clients && g.clients[id].op }

  function SeatError(d: Description, g: Group, op: bool): (r: Option<Outcome>)
    ensures r.Some? ==> r.value.GroupFull? || r.value.OneOnOne? || r.value.E2eeFull?
  {
    if !op && d.maxClients > 0 && |g.clients| >= d.maxClients then Some(GroupFull)
    else if !op && g.locked1on1 && |g.clients| >= 2 then Some(OneOnOne)
    else if d.e2ee && d.requireE2ee && !d.operatorRoom && |g.clients| >= 2 then Some(E2eeFull)
    else None
  }

  /** The waiting room and the lock; None lets a client on, maybe at the price of its admission. */
  function AtTheDoor(d: Description, g: Group, a: Arrival): (r: (Group, Option<Outcome>))
    ensures r.0.clients == g.clients && r.1 != Some(Joined)
  {
    if d.lobby then
      if a.id in g.admitted then (g.(admitted := g.admitted - {a.id}), None)
      else if a.token && !d.operatorRoomChild then (g, if g.locked.Some? then Some(IsLocked) else None)
      else if d.operatorRoomChild && !a.token then (g, Some(InvalidLink))
      else if !d.operatorRoomChild && !HasOp(g) then (g, Some(NoHost))
      else
        var full := SeatError(d, g, a.op);
        if full.Some? then (g, full) else (g.(knocking := g.knocking[a.id := a.handle]), Some(Knocking))
    else (g, if g.locked.Some? then Some(IsLocked) else None)
  }

  function OpeningHours(d: Description, now: int): (r: Option<Outcome>)
    ensures r.Some? ==> r.value.NotOpen? || r.value.Closed?
  {
    if d.notBefore.Some? && d.notBefore.value > now then Some(NotOpen)
    else if d.expires.Some? && d.expires.value < now then Some(Closed)
    else None
  }

  function Sit(g: Group, a: Arrival): (Group, Outcome) {
    if a.id == "" then (g, EmptyId)
    else if a.id in g.clients then (g, DuplicateId)
    else (g.(clients := g.clients[a.id := Member(a.handle, a.system, a.op)]), Joined)
  }

  function AddClient(d: Description, g: Group, a: Arrival, now: int): (Group, Outcome) {
    if a.system then Sit(g, a)
    else if !a.authorised then (g, NotAuthorised)
    else
      var (h, refused) := if a.op then (g, None) else AtTheDoor(d, g, a);
      if refused.Some? then (h, refused.value)
      else if !a.op && OpeningHours(d, now).Some? then (h, OpeningHours(d, now).value)
      else if !a.op && d.autokick && !HasOp(h) then (h, NoOperators)
      else
        var full := SeatError(d, h, a.op);
        if full.Some? then (h, full.value) else Sit(h, a)
  }

  function Admit(g: Group, id: Id): Group {
    if id in g.knocking then g.(knocking := g.knocking - {id}, admitted := g.admitted + {id}) else g
  }

  function Deny(g: Group, id: Id): Group {
    if id in g.knocking then g.(knocking := g.knocking - {id}, admitted := g.admitted - {id}) else g
  }

  function RemoveKnock(g: Group, id: Id): Group {
    g.(knocking := g.knocking - {id}, admitted := g.admitted - {id})
  }

  function DelClient(g: Group, id: Id, handle: nat): Group {
    if id in g.clients && g.clients[id].handle == handle then g.(clients := g.clients - {id}) else g
  }

  /** The last operator to leave may lock the group behind them, once the group is free again. */
  function AutoLock(d: Description, g: Group): Group {
    if d.autolock && g.locked.None? && !HasOp(g) then g.(locked := Some("this group is locked")) else g
  }

  function SetOp(g: Group, id: Id, op: bool): Group {
    if id in g.clients then g.(clients := g.clients[id := g.clients[id].(op := op)]) else g
  }

  datatype Op =
    | Arrives(a: Arrival, now: int)
    | Admits(id: Id)
    | Denies(id: Id)
    | Disconnects(id: Id)
    | Leaves(id: Id, handle: nat)
    | LocksItself
    | Locks(locked: Option<string>)
    | LocksOneOnOne(on: bool)
    | Permits(id: Id, op: bool)

  function Apply(d: Description, g: Group, o: Op): Group {
    match o
    case Arrives(a, now) => AddClient(d, g, a, now).0
    case Admits(id) => Admit(g, id)
    case Denies(id) => Deny(g, id)
    case Disconnects(id) => RemoveKnock(g, id)
    case Leaves(id, handle) => DelClient(g, id, handle)
    case LocksItself => AutoLock(d, g)
    case Locks(l) => g.(locked := l)
    case LocksOneOnOne(on) => g.(locked1on1 := on)
    case Permits(id, op) => SetOp(g, id, op)
  }

  function Exec(d: Description, run: seq<Op>): Group {
    if run == [] then NewGroup() else Apply(d, Exec(d, run[..|run| - 1]), run[|run| - 1])
  }

  // Nobody gets past the waiting room unseen

  /** The client joins by way of the waiting room: not as an operator, and not on a token that opens an ordinary lobby. */
  predicate ThroughLobby(d: Description, a: Arrival) {
    !a.system && !a.op && (d.operatorRoomChild || !a.token)
  }

  function Joins(d: Description, run: seq<Op>, id: Id): nat {
    if run == [] then 0 else
    var before, o := run[..|run| - 1], run[|run| - 1];
    Joins(d, before, id) +
      if o.Arrives? && o.a.id == id && ThroughLobby(d, o.a) && AddClient(d, Exec(d, before), o.a, o.now).1 == Joined
      then 1 else 0
  }

  /** How often an operator let the id in, knocking being what there is to answer. */
  function Admissions(d: Description, run: seq<Op>, id: Id): nat {
    if run == [] then 0 else
    var before, o := run[..|run| - 1], run[|run| - 1];
    Admissions(d, before, id) + if o == Admits(id) && id in Exec(d, before).knocking then 1 else 0
  }

  lemma ArrivalSpends(d: Description, g: Group, a: Arrival, now: int)
    requires d.lobby
    ensures var (h, r) := AddClient(d, g, a, now);
            && h.admitted <= g.admitted
            && (r == Joined && ThroughLobby(d, a) ==> a.id in g.admitted && a.id !in h.admitted)
  {
    hide SeatError, OpeningHours, HasOp;
  }

  /**
   * In a lobby group, on every run of arrivals, knocks, answers, disconnects and
   * departures: an id gets in through the waiting room at most as often as an operator
   * let it in.  In an operator's client room that is every join but an operator's own.
   */
  lemma {:induction false} AdmissionsBoundJoins(d: Description, run: seq<Op>, id: Id)
    requires d.lobby
    ensures Joins(d, run, id) + (if id in Exec(d, run).admitted then 1 else 0) <= Admissions(d, run, id)
  {
    hide AddClient, ThroughLobby, SetOp, HasOp;
    if run != [] {
      var before, o := run[..|run| - 1], run[|run| - 1];
      AdmissionsBoundJoins(d, before, id);
      match o {
        case Arrives(a, now) => ArrivalSpends(d, Exec(d, before), a, now);
        case Permits(i, op) => OpKeeps(Exec(d, before), i, op);
        case _ =>
      }
    }
  }

  lemma OpKeeps(g: Group, id: Id, op: bool)
    ensures SetOp(g, id, op).admitted == g.admitted && SetOp(g, id, op).knocking == g.knocking
    ensures SetOp(g, id, op).clients.Keys == g.clients.Keys
    ensures forall i :: i in g.clients ==> SetOp(g, id, op).clients[i].system == g.clients[i].system
  {
  }

  /** The group is open at this time. */
  predicate InHours(d: Description, now: int) {
    (d.notBefore.Some? ==> d.notBefore.value <= now) && (d.expires.Some? ==> now <= d.expires.value)
  }

  /** There is room: below the limit and no third to a call for two, except for operators, and no third where all is encrypted. */
  predicate SeatFree(d: Description, g: Group, op: bool) {
    && (!op && d.maxClients > 0 ==> |g.clients| < d.maxClients)
    && (!op && g.locked1on1 ==> |g.clients| < 2)
    && (d.e2ee && d.requireE2ee && !d.operatorRoom ==> |g.clients| < 2)
  }

  /** Past the waiting room, or the lock where there is none. */
  predicate LetPast(d: Description, g: Group, a: Arrival) {
    if d.lobby then a.id in g.admitted || (a.token && !d.operatorRoomChild && g.locked.None?) else g.locked.None?
  }

  /** What it takes to join, or to be shown to the operators as waiting. */
  lemma JoinsIff(d: Description, g: Group, a: Arrival, now: int)
    ensures AddClient(d, g, a, now).1 == Joined <==>
              && a.id != "" && a.id !in g.clients
              && (a.system || (a.authorised && SeatFree(d, g, a.op)
                               && (a.op || (LetPast(d, g, a) && InHours(d, now) && (d.autokick ==> HasOp(g))))))
    ensures AddClient(d, g, a, now).1 == Knocking <==>
              && d.lobby && !a.system && !a.op && a.authorised && a.id !in g.admitted && SeatFree(d, g, false)
              && (if d.operatorRoomChild then a.token else !a.token && HasOp(g))
  {
    hide OpeningHours, HasOp, SeatError;
    HoursIff(d, now);
    var h := AtTheDoor(d, g, a).0;
    SameOps(g, h);
    SeatIff(d, g, a.op);
    SeatIff(d, h, a.op);
  }

  lemma HoursIff(d: Description, now: int)
    ensures OpeningHours(d, now).None? <==> InHours(d, now)
  {
  }

  lemma SeatIff(d: Description, g: Group, op: bool)
    ensures SeatError(d, g, op).None? <==> SeatFree(d, g, op)
  {
  }

  lemma SameOps(g: Group, h: Group)
    requires h.clients == g.clients
    ensures HasOp(h) == HasOp(g)
  {
    if HasOp(g) {
      var id :| id in g.clients && g.clients[id].op;
      assert id in h.clients && h.clients[id].op;
    }
  }

  // Who gets in, told from what happened

  /** The id knocks here, and is shown to the operators. */
  predicate Knocks(d: Description, run: seq<Op>, id: Id, i: int) {
    0 <= i < |run| && run[i].Arrives? && run[i].a.id == id && AddClient(d, Exec(d, run[..i]), run[i].a, run[i].now).1 == Knocking
  }

  /** It knocked, and nobody has answered, nor has it gone away. */
  predicate Waits(d: Description, run: seq<Op>, id: Id, i: int) {
    Knocks(d, run, id, i) && forall m :: i < m < |run| ==> !Answers(run[m], id)
  }

  predicate Answers(o: Op, id: Id) { o == Admits(id) || o == Denies(id) || o == Disconnects(id) }

  /** An arrival that takes up the admission of the id, whether or not it gets in. */
  predicate Spends(o: Op, id: Id) {
    o.Arrives? && o.a.id == id && !o.a.system && !o.a.op && o.a.authorised
  }

  /** An operator let it in when it was waiting, it has not gone away since, and the admission is unspent. */
  ghost predicate LetIn(d: Description, run: seq<Op>, id: Id, j: int) {
    && 0 <= j < |run| && run[j] == Admits(id) && (exists i :: Waits(d, run[..j], id, i))
    && forall m :: j < m < |run| ==> run[m] != Disconnects(id) && !Spends(run[m], id)
  }

  /** What an arrival does to the two lists. */
  lemma ArrivalLists(d: Description, g: Group, a: Arrival, now: int)
    requires d.lobby && g.knocking.Keys !! g.admitted
    ensures var (h, r) := AddClient(d, g, a, now);
            && h.knocking.Keys == (if r == Knocking then g.knocking.Keys + {a.id} else g.knocking.Keys)
            && h.admitted == (if Spends(Arrives(a, now), a.id) then g.admitted - {a.id} else g.admitted)
            && h.knocking.Keys !! h.admitted
  {
    hide SeatError, OpeningHours, HasOp;
  }

  /** What any step does to them. */
  lemma ListsStep(d: Description, g: Group, o: Op)
    requires d.lobby && g.knocking.Keys !! g.admitted
    ensures var h := Apply(d, g, o);
            && h.knocking.Keys !! h.admitted
            && (forall id :: id in h.knocking <==>
                  || (id in g.knocking && !Answers(o, id))
                  || (o.Arrives? && o.a.id == id && AddClient(d, g, o.a, o.now).1 == Knocking))
            && (forall id :: id in h.admitted <==>
                  || (id in g.admitted && o != Disconnects(id) && !Spends(o, id))
                  || (o == Admits(id) && id in g.knocking))
  {
    hide AddClient, SetOp, HasOp;
    match o {
      case Arrives(a, now) => ArrivalLists(d, g, a, now);
      case Permits(i, op) => OpKeeps(g, i, op);
      case _ =>
    }
  }

  /** Nobody waits who has been let in; so an answer to a knock never takes an admission back. */
  lemma {:induction false} WaitingApart(d: Description, run: seq<Op>)
    requires d.lobby
    ensures Exec(d, run).knocking.Keys !! Exec(d, run).admitted
  {
    hide Apply;
    if run != [] {
      WaitingApart(d, run[..|run| - 1]);
      ListsStep(d, Exec(d, run[..|run| - 1]), run[|run| - 1]);
    }
  }

  lemma {:induction false} WaitingIff(d: Description, run: seq<Op>, id: Id)
    requires d.lobby
    ensures id in Exec(d, run).knocking <==> exists i :: Waits(d, run, id, i)
  {
    hide Apply, AddClient;
    if run != [] {
      var before, o := run[..|run| - 1], run[|run| - 1];
      WaitingIff(d, before, id);
      WaitingApart(d, before);
      ListsStep(d, Exec(d, before), o);
      assert forall i :: 0 <= i <= |before| ==> run[..i] == before[..i];
      assert before[..|before|] == before;
      assert forall i :: 0 <= i < |before| ==> (Waits(d, run, id, i) <==> Waits(d, before, id, i) && !Answers(o, id));
      assert Waits(d, run, id, |before|) <==> Knocks(d, run, id, |before|);
    }
  }

  lemma {:induction false} LetInIff(d: Description, run: seq<Op>, id: Id)
    requires d.lobby
    ensures id in Exec(d, run).admitted <==> exists j :: LetIn(d, run, id, j)
  {
    hide Apply, AddClient, Waits, Spends;
    if run != [] {
      var before, o := run[..|run| - 1], run[|run| - 1];
      LetInIff(d, before, id);
      WaitingApart(d, before);
      WaitingIff(d, before, id);
      ListsStep(d, Exec(d, before), o);
      assert forall j :: 0 <= j <= |before| ==> run[..j] == before[..j];
      assert before[..|before|] == before;
      assert forall j :: 0 <= j < |before| ==>
        (LetIn(d, run, id, j) <==> LetIn(d, before, id, j) && o != Disconnects(id) && !Spends(o, id));
      assert LetIn(d, run, id, |before|) <==> o == Admits(id) && exists i :: Waits(d, before, id, i);
    }
  }

  // Locks

  /** The group is locked here: by an operator, or by itself behind the last of them. */
  predicate Locking(d: Description, g: Group, o: Op) {
    (o.Locks? && o.locked.Some?) || (o.LocksItself? && d.autolock && !HasOp(g))
  }

  /** And has not been unlocked since. */
  predicate LockedAt(d: Description, run: seq<Op>, k: int) {
    0 <= k < |run| && Locking(d, Exec(d, run[..k]), run[k]) && forall m :: k < m < |run| ==> run[m] != Locks(None)
  }

  lemma LockStep(d: Description, g: Group, o: Op)
    ensures Apply(d, g, o).locked.Some? <==> Locking(d, g, o) || (g.locked.Some? && o != Locks(None))
  {
    hide SeatError, OpeningHours, HasOp;
  }

  lemma {:induction false} LockedIff(d: Description, run: seq<Op>)
    ensures Exec(d, run).locked.Some? <==> exists k :: LockedAt(d, run, k)
  {
    hide Apply, Locking;
    if run != [] {
      var before, o := run[..|run| - 1], run[|run| - 1];
      LockedIff(d, before);
      LockStep(d, Exec(d, before), o);
      assert forall k :: 0 <= k <= |before| ==> run[..k] == before[..k];
      assert before[..|before|] == before;
      assert forall k :: 0 <= k < |before| ==> (LockedAt(d, run, k) <==> LockedAt(d, before, k) && o != Locks(None));
      assert LockedAt(d, run, |before|) <==> Locking(d, Exec(d, before), o);
    }
  }

  // Members

  /** The client with this handle joins under the id. */
  predicate JoinsAt(d: Description, run: seq<Op>, id: Id, handle: nat, k: int) {
    && 0 <= k < |run| && run[k].Arrives? && run[k].a.id == id && run[k].a.handle == handle
    && AddClient(d, Exec(d, run[..k]), run[k].a, run[k].now).1 == Joined
  }

  /** And has not left since. */
  predicate StaysFrom(d: Description, run: seq<Op>, id: Id, handle: nat, k: int) {
    JoinsAt(d, run, id, handle, k) && forall m :: k < m < |run| ==> run[m] != Leaves(id, handle)
  }

  lemma MembersStep(d: Description, g: Group, o: Op, id: Id, handle: nat)
    ensures var h := Apply(d, g, o);
            id in h.clients && h.clients[id].handle == handle <==>
              || (o.Arrives? && o.a.id == id && o.a.handle == handle && AddClient(d, g, o.a, o.now).1 == Joined)
              || (id in g.clients && g.clients[id].handle == handle && o != Leaves(id, handle))
  {
    hide AddClient, HasOp;
    if o.Arrives? {
      ArrivalClients(d, g, o.a, o.now);
    }
  }

  /** On every run: a client is a member exactly if it has joined and not left, whatever others with its id have tried. */
  lemma {:induction false} MemberIff(d: Description, run: seq<Op>, id: Id, handle: nat)
    ensures var g := Exec(d, run);
            id in g.clients && g.clients[id].handle == handle <==> exists k :: StaysFrom(d, run, id, handle, k)
  {
    hide Apply, AddClient;
    if run != [] {
      var before, o := run[..|run| - 1], run[|run| - 1];
      MemberIff(d, before, id, handle);
      MembersStep(d, Exec(d, before), o, id, handle);
      assert forall k :: 0 <= k <= |before| ==> run[..k] == before[..k];
      assert before[..|before|] == before;
      assert forall k :: 0 <= k < |before| ==>
        (StaysFrom(d, run, id, handle, k) <==> StaysFrom(d, before, id, handle, k) && o != Leaves(id, handle));
      assert StaysFrom(d, run, id, handle, |before|) <==> JoinsAt(d, run, id, handle, |before|);
    }
  }

  /** It was given operator rights, on joining or later, and they have not been taken back since. */
  predicate OperatorSince(run: seq<Op>, id: Id, k: int, m: int) {
    && 0 <= k <= m < |run| && (if m == k then run[k].Arrives? && run[k].a.op else run[m] == Permits(id, true))
    && forall l :: m < l < |run| ==> run[l] != Permits(id, false)
  }

  lemma RightsStep(d: Description, g: Group, o: Op, id: Id, handle: nat)
    requires id in g.clients && g.clients[id].handle == handle && o != Leaves(id, handle)
    ensures var h := Apply(d, g, o);
            id in h.clients && (h.clients[id].op <==> o == Permits(id, true) || (g.clients[id].op && o != Permits(id, false)))
  {
    hide AddClient, HasOp;
    if o.Arrives? {
      ArrivalClients(d, g, o.a, o.now);
    }
  }

  /** On every run: a member is an operator exactly if it has been made one and that has not been taken back. */
  lemma {:induction false} OperatorIff(d: Description, run: seq<Op>, id: Id, handle: nat, k: nat)
    requires StaysFrom(d, run, id, handle, k)
    ensures id in Exec(d, run).clients
    ensures Exec(d, run).clients[id].op <==> exists m :: OperatorSince(run, id, k, m)
  {
    hide Apply, AddClient;
    MemberIff(d, run, id, handle);
    var before, o := run[..|run| - 1], run[|run| - 1];
    assert run[..|before|] == before;
    if k == |before| {
      JoinedAs(d, Exec(d, before), o);
      assert OperatorSince(run, id, k, k) <==> o.a.op;
    } else {
      assert run[..k] == before[..k];
      OperatorIff(d, before, id, handle, k);
      MemberIff(d, before, id, handle);
      RightsStep(d, Exec(d, before), o, id, handle);
      assert forall m :: 0 <= m < |before| ==> (OperatorSince(run, id, k, m) <==> OperatorSince(before, id, k, m) && o != Permits(id, false));
      assert OperatorSince(run, id, k, |before|) <==> o == Permits(id, true);
    }
  }

  lemma JoinedAs(d: Description, g: Group, o: Op)
    requires o.Arrives? && AddClient(d, g, o.a, o.now).1 == Joined
    ensures var h := Apply(d, g, o); o.a.id in h.clients && h.clients[o.a.id].op == o.a.op
  {
    hide AddClient;
    ArrivalClients(d, g, o.a, o.now);
  }

  // Joining, on every run

  /**
   * It has been let in after a knock and that is unspent; or it holds an invitation that opens the lobby,
   * or there is no lobby, and the group is not locked.
   */
  ghost predicate MayPass(d: Description, run: seq<Op>, a: Arrival) {
    if d.lobby && exists j :: LetIn(d, run, a.id, j) then true
    else (d.lobby ==> a.token && !d.operatorRoomChild) && forall k :: !LockedAt(d, run, k)
  }

  /**
   * On every run and in every kind of group: who joins and who is shown to the operators as waiting, told
   * from the knocks, answers, locks and departures so far.  In an operator's client room a guest gets in
   * exactly by an operator's answer to a knock of its own; in an ordinary lobby an invitation will do, and
   * in an open group nothing is needed, but not past a lock; and the group must be open, and have a seat.
   */
  lemma GuestJoinsIff(d: Description, run: seq<Op>, a: Arrival, now: int)
    ensures var g := Exec(d, run);
            AddClient(d, g, a, now).1 == Joined <==>
              && a.id != "" && a.id !in g.clients
              && (a.system || (a.authorised && SeatFree(d, g, a.op)
                               && (a.op || (MayPass(d, run, a) && InHours(d, now) && (d.autokick ==> HasOp(g))))))
    ensures var g := Exec(d, run);
            AddClient(d, g, a, now).1 == Knocking <==>
              && d.lobby && !a.system && !a.op && a.authorised && (forall j :: !LetIn(d, run, a.id, j)) && SeatFree(d, g, false)
              && (if d.operatorRoomChild then a.token else !a.token && HasOp(g))
  {
    hide Exec, AddClient, LetIn, InHours, SeatFree, HasOp, LockedAt;
    if d.lobby {
      LetInIff(d, run, a.id);
    }
    LockedIff(d, run);
    JoinsIff(d, Exec(d, run), a, now);
  }

  // Those without a say

  lemma SubsetSize<T>(a: set<T>, b: set<T>)
    requires a <= b
    ensures |a| <= |b|
  {
    if a != b {
      var x :| x in b && x !in a;
      SubsetSize(a, b - {x});
    }
  }

  function Guests(clients: map<Id, Member>): set<Id> {
    set id | id in clients && !clients[id].system && !clients[id].op
  }

  /** How often a member that was an operator ceased to be one. */
  function Demotions(d: Description, run: seq<Op>): nat {
    if run == [] then 0 else
    var before, o := run[..|run| - 1], run[|run| - 1];
    Demotions(d, before) + if o.Permits? && Demotes(Exec(d, before), o.id, o.op) then 1 else 0
  }

  predicate Demotes(g: Group, id: Id, op: bool) { !op && id in g.clients && g.clients[id].op }

  /** A guest is let in, or shown to the operators, only if there is a seat. */
  lemma GuestsFindASeat(d: Description, g: Group, a: Arrival, now: int)
    requires !a.system && !a.op && AddClient(d, g, a, now).1 in {Joined, Knocking}
    ensures d.maxClients > 0 ==> |g.clients| < d.maxClients
    ensures g.locked1on1 ==> |g.clients| < 2
  {
    hide OpeningHours, HasOp;
  }

  lemma GuestArrives(d: Description, g: Group, a: Arrival, now: int)
    requires d.maxClients > 0
    ensures var n, m := |Guests(g.clients)|, |Guests(AddClient(d, g, a, now).0.clients)|; m <= n || m <= d.maxClients
  {
    hide AddClient, Guests;
    ArrivalClients(d, g, a, now);
    if AddClient(d, g, a, now).1 == Joined {
      GuestSits(g.clients, a.id, Member(a.handle, a.system, a.op));
      if !a.system && !a.op {
        GuestsFindASeat(d, g, a, now);
      }
    }
  }

  lemma GuestSits(clients: map<Id, Member>, id: Id, m: Member)
    requires id !in clients
    ensures |Guests(clients)| <= |clients|
    ensures |Guests(clients[id := m])| <= |Guests(clients)| + if m.system || m.op then 0 else 1
  {
    SubsetSize(Guests(clients), clients.Keys);
    SubsetSize(Guests(clients[id := m]), if m.system || m.op then Guests(clients) else Guests(clients) + {id});
  }

  lemma ArrivalClients(d: Description, g: Group, a: Arrival, now: int)
    ensures var (h, r) := AddClient(d, g, a, now);
            && h.clients == (if r == Joined then g.clients[a.id := Member(a.handle, a.system, a.op)] else g.clients)
            && (r == Joined ==> a.id !in g.clients)
  {
    hide AtTheDoor, OpeningHours, HasOp, SeatError;
  }

  lemma GuestPermitted(g: Group, id: Id, op: bool)
    ensures |Guests(SetOp(g, id, op).clients)| <= |Guests(g.clients)| + if Demotes(g, id, op) then 1 else 0
  {
    var h := SetOp(g, id, op);
    SubsetSize(Guests(h.clients), if Demotes(g, id, op) then Guests(g.clients) + {id} else Guests(g.clients));
  }

  /**
   * On every run, the members that are no operators keep to the limit of the group, apart from
   * those that came as operators and ceased to be that inside.
   */
  lemma {:induction false} GuestsWithinLimit(d: Description, run: seq<Op>)
    requires d.maxClients > 0
    ensures |Guests(Exec(d, run).clients)| <= d.maxClients + Demotions(d, run)
  {
    hide AddClient, SetOp, HasOp, Guests, Demotes;
    if run == [] {
      assert Guests(map[]) == {} by { NoGuests(); }
    } else {
      var before, o := run[..|run| - 1], run[|run| - 1];
      var g := Exec(d, before);
      GuestsWithinLimit(d, before);
      match o {
        case Arrives(a, now) => GuestArrives(d, g, a, now);
        case Leaves(id, handle) => GuestLeaves(g, id, handle);
        case Permits(i, op) => GuestPermitted(g, i, op);
        case _ =>
      }
    }
  }

  lemma NoGuests()
    ensures Guests(map[]) == {}
  {
  }

  lemma GuestLeaves(g: Group, id: Id, handle: nat)
    ensures |Guests(DelClient(g, id, handle).clients)| <= |Guests(g.clients)|
  {
    SubsetSize(Guests(DelClient(g, id, handle).clients), Guests(g.clients));
  }

  // The two of an encrypted call

  function People(clients: map<Id, Member>): set<Id> {
    set id | id in clients && !clients[id].system
  }

  predicate PairOnly(d: Description) { d.e2ee && d.requireE2ee && !d.operatorRoom }

  lemma OneMoreFits(clients: map<Id, Member>, id: Id, m: Member)
    requires id !in clients && |People(clients)| <= 2 && (m.system || |clients| < 2)
    ensures |People(clients[id := m])| <= 2
  {
    if m.system {
      assert People(clients[id := m]) == People(clients);
    } else {
      assert |clients.Keys| < 2;
      SubsetSize(People(clients), clients.Keys);
      assert People(clients[id := m]) == People(clients) + {id};
    }
  }

  lemma ArrivalFits(d: Description, g: Group, a: Arrival, now: int)
    requires PairOnly(d) && |People(g.clients)| <= 2
    ensures |People(AddClient(d, g, a, now).0.clients)| <= 2
  {
    hide AtTheDoor, OpeningHours, HasOp, People;
    var (h, r) := AddClient(d, g, a, now);
    if r == Joined {
      assert h.clients == g.clients[a.id := Member(a.handle, a.system, a.op)];
      OneMoreFits(g.clients, a.id, Member(a.handle, a.system, a.op));
    } else {
      assert h.clients == g.clients;
    }
  }

  /** A group that requires encryption, and is no hub, never has three people in it, operators included. */
  lemma {:induction false} NeverThreePeople(d: Description, run: seq<Op>)
    requires PairOnly(d)
    ensures |People(Exec(d, run).clients)| <= 2
  {
    hide AddClient, SetOp, HasOp;
    if run != [] {
      var before, o := run[..|run| - 1], run[|run| - 1];
      var g, h := Exec(d, before), Exec(d, run);
      NeverThreePeople(d, before);
      match o {
        case Arrives(a, now) => ArrivalFits(d, g, a, now);
        case Leaves(i, handle) =>
          SubsetSize(People(h.clients), People(g.clients));
        case Permits(i, op) =>
          OpKeeps(g, i, op);
          assert People(h.clients) == People(g.clients);
        case _ =>
      }
    }
  }

  // The group's own fields

  class Room {
    const description: Description
    var clients: map<Id, Member>
    var knocking: map<Id, nat>
    var admitted: map<Id, bool>
    var locked: Option<string>
    var locked1on1: bool

    ghost predicate Valid()
      reads this
    {
      forall id :: id in admitted ==> admitted[id]
    }

    ghost function View(): Group
      reads this
    {
      Group(clients, knocking, admitted.Keys, locked, locked1on1)
    }

    constructor (d: Description)
      ensures Valid() && View() == NewGroup() && description == d
    {
      description := d;
      clients, knocking, admitted, locked, locked1on1 := map[], map[], map[], None, false;
    }

    method SeatErrorUnlocked(op: bool) returns (r: Option<Outcome>)
      ensures r == SeatError(description, View(), op)
    {
      if !op && description.maxClients > 0 && |clients| >= description.maxClients {
        return Some(GroupFull);
      }
      if !op && locked1on1 && |clients| >= 2 {
        return Some(OneOnOne);
      }
      if description.e2ee && description.requireE2ee && !description.operatorRoom && |clients| >= 2 {
        return Some(E2eeFull);
      }
      return None;
    }

    method OpPresent() returns (r: bool)
      ensures r == HasOp(View())
    {
      var todo := clients.Keys;
      while todo != {}
        invariant todo <= clients.Keys
        invariant forall id :: id in clients && id !in todo ==> !clients[id].op
        decreases |todo|
      {
        var id :| id in todo;
        if clients[id].op {
          return true;
        }
        todo := todo - {id};
      }
      return false;
    }

    method Knock(a: Arrival) returns (r: Option<Outcome>)
      requires Valid()
      modifies this
      ensures Valid() && (View(), r) == AtTheDoor(description, old(View()), a)
    {
      hide SeatError, HasOp;
      if !description.lobby {
        return if locked.Some? then Some(IsLocked) else None;
      }
      var child := description.operatorRoomChild;
      if a.id in admitted && admitted[a.id] {
        admitted := admitted - {a.id};
        return None;
      }
      if a.token && !child {
        return if locked.Some? then Some(IsLocked) else None;
      }
      if child && !a.token {
        return Some(InvalidLink);
      }
      if !child {
        var ops := OpPresent();
        if !ops {
          return Some(NoHost);
        }
      }
      var full := SeatErrorUnlocked(a.op);
      if full.Some? {
        return full;
      }
      knocking := knocking[a.id := a.handle];
      return Some(Knocking);
    }

    method Add(a: Arrival, now: int) returns (r: Outcome)
      requires Valid()
      modifies this
      ensures Valid() && (View(), r) == AddClient(description, old(View()), a, now)
    {
      hide SeatError, HasOp, AtTheDoor;
      if !a.system {
        if !a.authorised {
          return NotAuthorised;
        }
        if !a.op {
          var refused := Knock(a);
          if refused.Some? {
            return refused.value;
          }
          if description.notBefore.Some? && description.notBefore.value > now {
            return NotOpen;
          }
          if description.expires.Some? && description.expires.value < now {
            return Closed;
          }
          if description.autokick {
            var ops := OpPresent();
            if !ops {
              return NoOperators;
            }
          }
        }
        var full := SeatErrorUnlocked(a.op);
        if full.Some? {
          return full.value;
        }
      }
      if a.id == "" {
        return EmptyId;
      }
      if a.id in clients {
        return DuplicateId;
      }
      clients := clients[a.id := Member(a.handle, a.system, a.op)];
      return Joined;
    }

    method AdmitKnock(id: Id) returns (found: bool)
      requires Valid()
      modifies this
      ensures Valid() && View() == Admit(old(View()), id) && found == (id in old(knocking))
    {
      if id !in knocking {
        return false;
      }
      knocking, admitted := knocking - {id}, admitted[id := true];
      return true;
    }

    method DenyKnock(id: Id) returns (found: bool)
      requires Valid()
      modifies this
      ensures Valid() && View() == Deny(old(View()), id) && found == (id in old(knocking))
    {
      if id !in knocking {
        return false;
      }
      knocking, admitted := knocking - {id}, admitted - {id};
      return true;
    }

    method DropKnock(id: Id)
      requires Valid()
      modifies this
      ensures Valid() && View() == RemoveKnock(old(View()), id)
    {
      knocking, admitted := knocking - {id}, admitted - {id};
    }

    method Del(id: Id, handle: nat)
      requires Valid()
      modifies this
      ensures Valid() && View() == DelClient(old(View()), id, handle)
    {
      if id in clients && clients[id].handle == handle {
        clients := clients - {id};
      }
    }

    method AutoLockKick()
      requires Valid()
      modifies this
      ensures Valid() && View() == AutoLock(description, old(View()))
    {
      hide HasOp;
      if description.autolock && locked.None? {
        var ops := OpPresent();
        if !ops {
          locked := Some("this group is locked");
        }
      }
    }
  }
}
