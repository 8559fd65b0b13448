/**
 * Answering negative acknowledgements: gotNACK and GetPacket in rtpconn/rtpconn.go,
 * from the renumbering table of the down track and the packet cache of its source.
 */
module NackAnswers {
  import opened Common
  import opened Seqno
  import opened PacketMap
  import opened PacketMapSpec
  import opened Renumbering
  import opened Nack
  import opened PacketCache

  /** How one attempt to write a packet ends: it goes out, its flags cannot be read, or sending fails. */
  datatype Ending = Goes | NotParsed | NotWritten

  /** What is found of a packet at one attempt: whether its layer is unwanted, its picture id, and the ending. */
  datatype Flags = Flags(unwanted: bool, pid: u16, ending: Ending)

  /** By number of the attempt, since layers and connections change. */
  type Codec = (nat, Packet) -> Flags

  /** A packet on its way to the receiver: its number there, what its picture id is moved by, and the rest. */
  datatype Outgoing = Outgoing(seqno: u16, pidDelta: u16, data: seq<u8>)

  /** A down track's renumbering table, its source's list of packets to ask for, and what was sent. */
  datatype Track = Track(table: Table, buffered: seq<u16>, sent: seq<Outgoing>, attempts: nat)

  /** No number twice. */
  predicate Once(xs: seq<u16>) { forall i, j :: 0 <= i < j < |xs| ==> xs[i] != xs[j] }

  /** GetPacket for a retransmission that the cache does not have: ask for it, once. */
  function Buffer(buffered: seq<u16>, seqno: u16): (r: seq<u16>)
    ensures forall x :: x in r <==> x in buffered || x == seqno
    ensures Once(buffered) ==> Once(r)
  {
    if seqno in buffered then buffered else buffered + [seqno]
  }

  /** rtpDownTrack.Write; false is an error. */
  function WritePacket(t: Track, p: Packet, f: Flags): (Track, bool)
    requires WellFormed(t.table)
  {
    var t := t.(attempts := t.attempts + 1);
    if f.ending.NotParsed? then (t, false) else
    var (table, r) := Write(t.table, f.unwanted, p.seqno, f.pid);
    var t := t.(table := table);
    if !r.ok then (t, true)
    else if f.ending.NotWritten? then (t, false)
    else (t.(sent := t.sent + [Outgoing(r.seqno, r.pidDelta, p.data)]), true)
  }

  /** The answer to one number of a NACK, and whether the rest of its pair is gone through. */
  function Answer(t: Track, ring: seq<Packet>, codec: Codec, s: u16): (Track, bool)
    requires WellFormed(t.table)
  {
    var back := Reverse(t.table, s);
    if !back.ok then (t, true) else
    var p := Lookup(ring, back.seqno);
    if p.None? || p.value.data == [] then (t.(buffered := Buffer(t.buffered, back.seqno)), true)
    else WritePacket(t, p.value, codec(t.attempts, p.value))
  }

  lemma AnswerWellFormed(t: Track, ring: seq<Packet>, codec: Codec, s: u16)
    requires WellFormed(t.table)
    ensures WellFormed(Answer(t, ring, codec, s).0.table)
  {
    hide Reverse, Lookup, WellFormed;
  }

  /** The numbers of one pair, up to the first that cannot be written. */
  function AnswerList(t: Track, ring: seq<Packet>, codec: Codec, list: seq<u16>): (t': Track)
    requires WellFormed(t.table)
    ensures WellFormed(t'.table)
    decreases |list|
  {
    if list == [] then t
    else
      AnswerWellFormed(t, ring, codec, list[0]);
      var (t1, goOn) := Answer(t, ring, codec, list[0]);
      if goOn then AnswerList(t1, ring, codec, list[1..]) else t1
  }

  function AnswerPairs(t: Track, ring: seq<Packet>, codec: Codec, pairs: seq<Pair>): (t': Track)
    requires WellFormed(t.table)
    ensures WellFormed(t'.table)
    decreases |pairs|
  {
    if pairs == [] then t else AnswerPairs(AnswerList(t, ring, codec, Numbers(pairs[0])), ring, codec, pairs[1..])
  }

  /** A down track, with the cache of its source. */
  class DownTrack {
    const packetMap: PacketMap.Map
    const cache: Cache
    var buffered: seq<u16>
    var sent: seq<Outgoing>
    var attempts: nat

    ghost predicate Valid()
      reads this, packetMap, cache, cache.entries
    {
      packetMap.Valid() && cache.Valid()
    }

    ghost function View(): Track
      reads this, packetMap
    {
      Track(packetMap.View(), buffered, sent, attempts)
    }

    constructor (packetMap: PacketMap.Map, cache: Cache)
      ensures this.packetMap == packetMap && this.cache == cache && buffered == [] && sent == [] && attempts == 0
    {
      this.packetMap, this.cache, buffered, sent, attempts := packetMap, cache, [], [], 0;
    }

    method WriteOne(p: Packet, f: Flags) returns (ok: bool)
      requires Valid()
      modifies this`sent, this`attempts, packetMap
      ensures Valid() && (View(), ok) == WritePacket(old(View()), p, f)
    {
      hide MapSeqno, DropSeqno;
      attempts := attempts + 1;
      if f.ending.NotParsed? {
        return false;
      }
      if f.unwanted {
        var dropped := packetMap.Drop(p.seqno, f.pid);
        if dropped {
          return true;
        }
        DropRefused(old(packetMap.View()), p.seqno, f.pid);
      }
      var r := packetMap.MapPacket(p.seqno, f.pid);
      if !r.ok {
        return true;
      }
      if f.ending.NotWritten? {
        return false;
      }
      sent := sent + [Outgoing(r.seqno, r.pidDelta, p.data)];
      return true;
    }

    method AnswerOne(s: u16, codec: Codec) returns (goOn: bool)
      requires Valid()
      modifies this, packetMap
      ensures Valid() && (View(), goOn) == Answer(old(View()), cache.entries[..], codec, s)
    {
      hide WritePacket, Reverse, Lookup;
      var back := packetMap.ReversePacket(s);
      if !back.ok {
        return true;
      }
      var p := cache.Get(back.seqno);
      if p.None? || p.value.data == [] {
        if back.seqno !in buffered {
          buffered := buffered + [back.seqno];
        }
        return true;
      }
      goOn := WriteOne(p.value, codec(attempts, p.value));
    }

    /** The numbers of one pair, in order, until one cannot be written. */
    method AnswerPair(p: Pair, codec: Codec)
      requires Valid()
      modifies this, packetMap
      ensures Valid() && View() == AnswerList(old(View()), cache.entries[..], codec, Numbers(p))
    {
      hide Answer, Numbers;
      ghost var ring := cache.entries[..];
      var list := Numbers(p);
      assert list[0..] == list;
      var i, goOn := 0, true;
      while i < |list| && goOn
        invariant 0 <= i <= |list|
        invariant Valid() && cache.entries[..] == ring
        invariant AnswerList(old(View()), ring, codec, list) ==
                  if goOn then AnswerList(View(), ring, codec, list[i..]) else View()
      {
        assert list[i..][1..] == list[i + 1..];
        goOn := AnswerOne(list[i], codec);
        i := i + 1;
      }
    }

    method GotNack(pairs: seq<Pair>, codec: Codec)
      requires Valid()
      modifies this, packetMap
      ensures Valid() && View() == AnswerPairs(old(View()), cache.entries[..], codec, pairs)
    {
      hide Answer, Numbers, AnswerList;
      ghost var ring := cache.entries[..];
      assert pairs[0..] == pairs;
      for i := 0 to |pairs|
        invariant Valid() && cache.entries[..] == ring
        invariant AnswerPairs(old(View()), ring, codec, pairs) == AnswerPairs(View(), ring, codec, pairs[i..])
      {
        assert pairs[i..][1..] == pairs[i + 1..];
        AnswerPair(pairs[i], codec);
      }
    }
  }

  lemma DropRefused(m: Table, seqno: u16, pid: u16)
    requires WellFormed(m)
    ensures !DropSeqno(m, seqno, pid).1 ==> DropSeqno(m, seqno, pid).0 == m
  {
  }

  // What the answers are

  /** The number s went out, as the image of n, and is recent enough to go out again. */
  ghost predicate Answerable(g: Truth, s: u16, n: int) {
    Known(g, n) && s == U16(Target(g.drops, n)) && g.next - n <= MAX_JUMP
  }

  /** The number s is that of an image less than 2^15 behind which no kept number has any more. */
  ghost predicate Forgotten(g: Truth, s: u16) {
    g.kept != [] && exists t :: NoImage(g, s, t)
  }

  ghost predicate NoImage(g: Truth, s: u16, t: int) {
    && s == U16(t) && g.next - |g.drops| - 0x8000 < t < g.next - |g.drops|
    && forall n {:trigger Covered(g.kept, n)} :: Covered(g.kept, n) ==> Target(g.drops, n) != t
  }

  /** What a receiver may ask for: a number that went out for n, or one the table no longer knows. */
  ghost predicate Asked(g: Truth, s: u16, n: Option<int>) {
    if n.Some? then Answerable(g, s, n.value) else Forgotten(g, s)
  }

  /** The packet to send again under s, if its number is still known and it is still cached. */
  function Reply(g: Truth, ring: seq<Packet>, s: u16, n: Option<int>): seq<Outgoing> {
    if n.None? then [] else
    var p := Lookup(ring, U16(n.value));
    if p.Some? && p.value.data != [] then [Outgoing(s, TrueDelta(g, n.value), p.value.data)] else []
  }

  /** The packets that a receiver gets for its list: those still there, each under the number it asked for. */
  function Replies(g: Truth, ring: seq<Packet>, list: seq<u16>, numbers: seq<Option<int>>): seq<Outgoing>
    requires |numbers| == |list|
    decreases |list|
  {
    if list == [] then [] else Reply(g, ring, list[0], numbers[0]) + Replies(g, ring, list[1..], numbers[1..])
  }

  /** Of the first k numbers one stands for x, which is no longer cached, so that the source is asked for it. */
  predicate IsAsked(g: Truth, ring: seq<Packet>, list: seq<u16>, numbers: seq<Option<int>>, k: nat, x: u16)
    requires k <= |list| == |numbers|
  {
    exists i :: 0 <= i < k && AskedAt(g, ring, list[i], numbers[i], x)
  }

  predicate AskedAt(g: Truth, ring: seq<Packet>, s: u16, n: Option<int>, x: u16) {
    n.Some? && x == U16(n.value) && Reply(g, ring, s, n) == []
  }

  lemma AskedFirst(g: Truth, ring: seq<Packet>, list: seq<u16>, numbers: seq<Option<int>>, k: nat, x: u16)
    requires 0 < k <= |list| == |numbers|
    ensures IsAsked(g, ring, list, numbers, k, x) <==>
              AskedAt(g, ring, list[0], numbers[0], x) || IsAsked(g, ring, list[1..], numbers[1..], k - 1, x)
  {
    hide AskedAt;
    if i :| 0 <= i < k && AskedAt(g, ring, list[i], numbers[i], x) {
      if i > 0 {
        assert AskedAt(g, ring, list[1..][i - 1], numbers[1..][i - 1], x);
      }
    }
    if i :| 0 <= i < k - 1 && AskedAt(g, ring, list[1..][i], numbers[1..][i], x) {
      assert AskedAt(g, ring, list[i + 1], numbers[i + 1], x);
    }
  }

  /** Some attempt to write the packet that answers n fails. */
  ghost predicate MayFail(ring: seq<Packet>, codec: Codec, n: Option<int>) {
    exists a :: FailsAt(ring, codec, n, a)
  }

  predicate FailsAt(ring: seq<Packet>, codec: Codec, n: Option<int>, a: nat) {
    n.Some? &&
    var p := Lookup(ring, U16(n.value));
    p.Some? && p.value.data != [] && !codec(a, p.value).ending.Goes?
  }

  lemma ForgottenNotFound(m: Table, g: Truth, s: u16)
    requires Represents(m, g) && Coherent(g) && Window(g) && Forgotten(g, s)
    ensures WellFormed(m) && !Reverse(m, s).ok
  {
    hide Coherent, Window, Stands, Ring, ReverseIn, Target, Covered, U16;
    var t :| NoImage(g, s, t);
    ReverseInverts(m, g, t, t);
  }

  lemma AnswerOneExact(t: Track, g: Truth, ring: seq<Packet>, codec: Codec, s: u16, n: Option<int>)
    requires Represents(t.table, g) && Coherent(g) && Window(g) && Asked(g, s, n)
    ensures var (t', goOn) := Answer(t, ring, codec, s);
            && t'.table == t.table
            && (goOn <==> !FailsAt(ring, codec, n, t.attempts))
            && t'.sent == t.sent + (if goOn then Reply(g, ring, s, n) else [])
            && t'.buffered == if n.Some? && goOn && Reply(g, ring, s, n) == [] then Buffer(t.buffered, U16(n.value)) else t.buffered
  {
    hide Represents, Coherent, Window, Known, Forgotten, Reverse, Write, Lookup, U16, Target, TrueDelta;
    if n.None? {
      ForgottenNotFound(t.table, g, s);
      assert t.sent + [] == t.sent;
    } else {
      var p := Lookup(ring, U16(n.value));
      var f := if p.Some? then codec(t.attempts, p.value) else Flags(false, 0, Goes);
      NackAnsweredWithSameNumber(t.table, g, Target(g.drops, n.value), n.value, f.unwanted, f.pid);
    }
  }

  /**
   * A receiver that asks for numbers it was sent gets, for each of them and in its order, the cached
   * packet under that number again, up to the first that cannot be written; numbers that the table no
   * longer knows are passed over, and the table does not change.  What is no longer cached is asked of the
   * source, each number once.
   */
  lemma {:induction false} PairAnsweredExactly(t: Track, g: Truth, ring: seq<Packet>, codec: Codec,
                                               list: seq<u16>, numbers: seq<Option<int>>) returns (k: nat)
    requires Represents(t.table, g) && Coherent(g) && Window(g)
    requires |numbers| == |list| && forall i :: 0 <= i < |list| ==> Asked(g, list[i], numbers[i])
    ensures WellFormed(t.table) && k <= |list|
    ensures AnswerList(t, ring, codec, list).table == t.table
    ensures AnswerList(t, ring, codec, list).sent == t.sent + Replies(g, ring, list[..k], numbers[..k])
    ensures k < |list| ==> MayFail(ring, codec, numbers[k])
    ensures Once(t.buffered) ==> Once(AnswerList(t, ring, codec, list).buffered)
    ensures forall x :: x in AnswerList(t, ring, codec, list).buffered <==> x in t.buffered || IsAsked(g, ring, list, numbers, k, x)
    decreases |list|
  {
    hide Represents, Coherent, Window, Asked, Answer, Reply, FailsAt, Once;
    TableWellFormed(t.table, g);
    if list == [] {
      k := 0;
      assert t.sent + [] == t.sent;
    } else {
      AnswerOneExact(t, g, ring, codec, list[0], numbers[0]);
      var (t1, goOn) := Answer(t, ring, codec, list[0]);
      if goOn {
        var k1 := PairAnsweredExactly(t1, g, ring, codec, list[1..], numbers[1..]);
        k := k1 + 1;
        assert list[..k][1..] == list[1..][..k1] && numbers[..k][1..] == numbers[1..][..k1];
        var first, rest := Reply(g, ring, list[0], numbers[0]), Replies(g, ring, list[1..][..k1], numbers[1..][..k1]);
        assert (t.sent + first) + rest == t.sent + (first + rest);
        forall x ensures x in AnswerList(t, ring, codec, list).buffered <==> x in t.buffered || IsAsked(g, ring, list, numbers, k, x) {
          AskedFirst(g, ring, list, numbers, k, x);
        }
      } else {
        k := 0;
        assert list[..0] == [] && t.sent + [] == t.sent;
      }
    }
  }

  lemma TableWellFormed(m: Table, g: Truth)
    requires Represents(m, g)
    ensures WellFormed(m)
  {
  }

  lemma {:induction false} RepliesAppend(g: Truth, ring: seq<Packet>, a: seq<u16>, m: seq<Option<int>>, b: seq<u16>, n: seq<Option<int>>)
    requires |a| == |m| && |b| == |n|
    ensures Replies(g, ring, a + b, m + n) == Replies(g, ring, a, m) + Replies(g, ring, b, n)
    decreases |a|
  {
    hide Reply;
    if a == [] {
      assert a + b == b && m + n == n;
    } else {
      assert (a + b)[1..] == a[1..] + b && (m + n)[1..] == m[1..] + n;
      RepliesAppend(g, ring, a[1..], m[1..], b, n);
      var r := Reply(g, ring, a[0], m[0]);
      assert r + (Replies(g, ring, a[1..], m[1..]) + Replies(g, ring, b, n)) == (r + Replies(g, ring, a[1..], m[1..])) + Replies(g, ring, b, n);
    }
  }

  ghost predicate AllAnswerable(g: Truth, list: seq<u16>, numbers: seq<Option<int>>) {
    |numbers| == |list| && forall i :: 0 <= i < |list| ==> Asked(g, list[i], numbers[i])
  }

  lemma AnswerableParts(g: Truth, a: seq<u16>, b: seq<u16>, numbers: seq<Option<int>>)
    requires AllAnswerable(g, a + b, numbers)
    ensures AllAnswerable(g, a, numbers[..|a|]) && AllAnswerable(g, b, numbers[|a|..])
  {
    hide Asked;
    forall i | 0 <= i < |a| ensures Asked(g, a[i], numbers[..|a|][i]) {
      assert Asked(g, (a + b)[i], numbers[i]);
    }
    forall i | 0 <= i < |b| ensures Asked(g, b[i], numbers[|a|..][i]) {
      assert Asked(g, (a + b)[|a| + i], numbers[|a| + i]);
    }
  }

  ghost predicate NoneFails(ring: seq<Packet>, codec: Codec, numbers: seq<Option<int>>) {
    forall n :: n in numbers ==> !MayFail(ring, codec, n)
  }

  lemma PairAnswered(t: Track, g: Truth, ring: seq<Packet>, codec: Codec, list: seq<u16>, numbers: seq<Option<int>>)
    requires Represents(t.table, g) && Coherent(g) && Window(g) && AllAnswerable(g, list, numbers)
    ensures WellFormed(t.table) && AnswerList(t, ring, codec, list).table == t.table
    ensures NoneFails(ring, codec, numbers) ==> AnswerList(t, ring, codec, list).sent == t.sent + Replies(g, ring, list, numbers)
  {
    hide Represents, Coherent, Window, Asked, AnswerList, MayFail;
    var k := PairAnsweredExactly(t, g, ring, codec, list, numbers);
    if k == |list| {
      assert list[..k] == list && numbers[..k] == numbers;
    } else {
      assert numbers[k] in numbers;
    }
  }

  /** Over all pairs of a NACK the table does not change, and if every write succeeds nothing that is cached is missing. */
  lemma {:induction false} NacksAnsweredExactly(t: Track, g: Truth, ring: seq<Packet>, codec: Codec,
                                                pairs: seq<Pair>, numbers: seq<Option<int>>)
    requires Represents(t.table, g) && Coherent(g) && Window(g) && AllAnswerable(g, AllNumbers(pairs), numbers)
    ensures WellFormed(t.table)
    ensures AnswerPairs(t, ring, codec, pairs).table == t.table
    ensures NoneFails(ring, codec, numbers) ==>
              AnswerPairs(t, ring, codec, pairs).sent == t.sent + Replies(g, ring, AllNumbers(pairs), numbers)
    decreases |pairs|
  {
    hide Represents, Coherent, Window, AllAnswerable, Numbers, MayFail, AnswerList, Replies;
    TableWellFormed(t.table, g);
    AnswerableLength(g, AllNumbers(pairs), numbers);
    if pairs == [] {
      NoReplies(g, ring, numbers);
      assert t.sent + [] == t.sent;
    } else {
      var list, rest := Numbers(pairs[0]), AllNumbers(pairs[1..]);
      var m, n := numbers[..|list|], numbers[|list|..];
      assert numbers == m + n;
      AnswerableParts(g, list, rest, numbers);
      PairAnswered(t, g, ring, codec, list, m);
      NacksAnsweredExactly(AnswerList(t, ring, codec, list), g, ring, codec, pairs[1..], n);
      AnswerableLength(g, list, m);
      AnswerableLength(g, rest, n);
      RepliesAppend(g, ring, list, m, rest, n);
      var a, b := Replies(g, ring, list, m), Replies(g, ring, rest, n);
      assert (t.sent + a) + b == t.sent + (a + b);
    }
  }

  lemma AnswerableLength(g: Truth, list: seq<u16>, numbers: seq<Option<int>>)
    requires AllAnswerable(g, list, numbers)
    ensures |numbers| == |list|
  {
  }

  lemma NoReplies(g: Truth, ring: seq<Packet>, numbers: seq<Option<int>>)
    requires numbers == []
    ensures Replies(g, ring, [], numbers) == []
  {
  }

  // The packet is the one that was stored

  /** Packet i of all that were stored stands for number n, and is among the last k. */
  predicate StoredFor(all: seq<Packet>, ns: seq<int>, k: nat, n: int, i: int)
    requires |ns| == |all| && k <= |all|
  {
    |all| - k <= i < |all| && ns[i] == n
  }

  /**
   * Whatever the cache has stored and however often it was resized: if the packets it still holds, none
   * of them empty, lie within 2^15 of n, the reply for n is the packet that was stored for n, and there
   * is none exactly if that one has gone.
   */
  lemma ReplyIsTheOriginal(g: Truth, capacity: nat, ops: seq<PacketCache.Op>, ring: seq<Packet>, tail: nat, ns: seq<int>, s: u16, n: int)
    requires tail <= |ring| && Recent(ring, tail) == ListAfter(capacity, ops)
    requires |ns| == |Stores(ops)| && forall i :: 0 <= i < |ns| ==> Stores(ops)[i].seqno == U16(ns[i])
    requires forall i :: 0 <= i < |ns| && |ns| - Kept(capacity, ops) <= i ==> -0x8000 < ns[i] - n < 0x8000 && Stores(ops)[i].data != []
    ensures Kept(capacity, ops) <= |ns|
    ensures Reply(g, ring, s, Some(n)) == [] <==> forall i :: !StoredFor(Stores(ops), ns, Kept(capacity, ops), n, i)
    ensures Reply(g, ring, s, Some(n)) != [] ==>
              exists i :: StoredFor(Stores(ops), ns, Kept(capacity, ops), n, i)
                && Reply(g, ring, s, Some(n)) == [Outgoing(s, TrueDelta(g, n), Stores(ops)[i].data)]
  {
    hide ListAfter, Stores, Kept, U16, Lookup, HoldsLast, Reply, StoredFor, TrueDelta;
    HoldsLastStores(capacity, ops);
    SameMembers(ring, tail);
    HeldAre(ListAfter(capacity, ops), Kept(capacity, ops), Stores(ops));
    FromTheHeld(g, ring, Stores(ops), Kept(capacity, ops), ns, s, n);
  }

  lemma FromTheHeld(g: Truth, ring: seq<Packet>, all: seq<Packet>, k: nat, ns: seq<int>, s: u16, n: int)
    requires k <= |all| == |ns|
    requires forall p :: p in ring && !Vacant(p) ==> exists i :: |all| - k <= i < |all| && all[i] == p
    requires forall i :: |all| - k <= i < |all| ==> all[i] in ring
    requires forall i :: |all| - k <= i < |all| ==> all[i].seqno == U16(ns[i]) && -0x8000 < ns[i] - n < 0x8000 && all[i].data != []
    ensures Reply(g, ring, s, Some(n)) == [] <==> forall i :: !StoredFor(all, ns, k, n, i)
    ensures Reply(g, ring, s, Some(n)) != [] ==>
              exists i :: StoredFor(all, ns, k, n, i)
                && Reply(g, ring, s, Some(n)) == [Outgoing(s, TrueDelta(g, n), all[i].data)]
  {
    hide U16, TrueDelta;
    forall i | StoredFor(all, ns, k, n, i) ensures Reply(g, ring, s, Some(n)) != [] {
      assert all[i] in ring;
    }
    if Reply(g, ring, s, Some(n)) != [] {
      var p := Lookup(ring, U16(n)).value;
      var i :| |all| - k <= i < |all| && all[i] == p;
      UnwrapUnique(ns[i], n);
      UnwrapUnique(n, n);
      assert StoredFor(all, ns, k, n, i);
    }
  }

  lemma HeldAre(list: seq<Packet>, k: nat, all: seq<Packet>)
    requires HoldsLast(list, k, all)
    ensures k <= |all|
    ensures forall p :: p in list && !Vacant(p) ==> exists i :: |all| - k <= i < |all| && all[i] == p
    ensures forall i :: |all| - k <= i < |all| ==> all[i] in list
  {
    var blank, last := Blank(|list| - k), all[|all| - k..];
    forall p | p in list && !Vacant(p) ensures exists i :: |all| - k <= i < |all| && all[i] == p {
      var j :| 0 <= j < |list| && list[j] == p;
      assert j >= |blank|;
      assert p == last[j - |blank|] == all[|all| - k + (j - |blank|)];
    }
    forall i | |all| - k <= i < |all| ensures all[i] in list {
      assert all[i] == last[i - (|all| - k)] == list[|blank| + (i - (|all| - k))];
    }
  }
}
