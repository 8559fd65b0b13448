/**
 * The packet cache (packetcache/packetcache.go): a ring of the packets stored
 * last, resized while in use, with the statistics and the loss bitmap that every
 * store updates.  The ring is specified by the plain list of its packets, oldest
 * first.
 */
module PacketCache {
  import opened Common
  import opened Seqno
  import LossBitmap
  import ReceiveStats

  const BUF_SIZE: nat := 1504
  const MAX_CAPACITY: nat := 0xffff

  type u8 = x: int | 0 <= x < 256

  /** A cached packet; one without data and marker is an empty slot. */
  datatype Packet = Packet(seqno: u16, timestamp: int, marker: bool, data: seq<u8>)

  const NONE: Packet := Packet(0, 0, false, [])

  predicate Vacant(p: Packet) { p.data == [] && !p.marker }

  function Blank(n: nat): (ps: seq<Packet>)
    ensures |ps| == n && forall i :: 0 <= i < n ==> ps[i] == NONE
  {
    seq(n, _ => NONE)
  }

  /** The list that a ring stands for, given where the next packet goes. */
  function Recent(ring: seq<Packet>, tail: nat): (ps: seq<Packet>)
    requires tail <= |ring|
    ensures |ps| == |ring|
  {
    ring[tail..] + ring[..tail]
  }

  /** A list of the last packets, after the capacity changed: the last ones stay, in order. */
  function Resized(ps: seq<Packet>, capacity: nat): (r: seq<Packet>)
    ensures |r| == capacity
  {
    if capacity >= |ps| then Blank(capacity - |ps|) + ps else ps[|ps| - capacity..]
  }

  /** The first packet of a ring that carries seqno. */
  function Lookup(ring: seq<Packet>, seqno: u16): (p: Option<Packet>)
    ensures p.Some? ==> p.value in ring && !Vacant(p.value) && p.value.seqno == seqno
    ensures p.None? ==> forall q :: q in ring ==> Vacant(q) || q.seqno != seqno
  {
    if ring == [] then None
    else if !Vacant(ring[0]) && ring[0].seqno == seqno then Some(ring[0])
    else Lookup(ring[1..], seqno)
  }

  /** A packet takes the highest number so far forward, from where the keyframe seems to lie ahead. */
  predicate PassesKeyframe(stats: ReceiveStats.Stats, keyframe: u16, seqno: u16) {
    && stats.lastValid && !LossBitmap.SeqnoInvalid(seqno, stats.last)
    && Compare(stats.last, seqno) < 0 && Compare(keyframe, seqno) > 0
  }

  /** The last keyframe, if it is still known, after one more packet. */
  function KeyframeAfter(stats: ReceiveStats.Stats, keyframe: u16, valid: bool, seqno: u16, isKeyframe: bool): (u16, bool) {
    if isKeyframe then (seqno, true) else (keyframe, valid && !PassesKeyframe(stats, keyframe, seqno))
  }

  class Cache {
    var stats: ReceiveStats.Stats
    var keyframe: u16
    var keyframeValid: bool
    const bitmap: LossBitmap.LossMap
    var tail: nat
    var entries: array<Packet>

    ghost predicate Valid()
      reads this, entries
    {
      tail < entries.Length <= MAX_CAPACITY
    }

    /** The packets stored last, oldest first. */
    ghost function List(): seq<Packet>
      requires Valid()
      reads this, entries
    {
      Recent(entries[..], tail)
    }

    constructor (capacity: nat)
      requires 1 <= capacity <= MAX_CAPACITY
      ensures Valid() && List() == Blank(capacity) && fresh(entries) && fresh(bitmap)
      ensures stats == ReceiveStats.FRESH && bitmap.View() == LossBitmap.EMPTY && !keyframeValid
    {
      stats, keyframe, keyframeValid, tail := ReceiveStats.FRESH, 0, false, 0;
      entries := new Packet[capacity](_ => NONE);
      bitmap := new LossBitmap.LossMap();
      new;
      assert entries[..] == Blank(capacity);
    }

    method Store(p: Packet, isKeyframe: bool) returns (first: u16, index: nat)
      requires Valid() && |p.data| <= BUF_SIZE
      modifies this, entries, bitmap
      ensures Valid() && entries == old(entries)
      ensures List() == old(List())[1..] + [p]
      ensures index == old(tail) && entries[index] == p
      ensures stats == ReceiveStats.Stored(old(stats), p.seqno)
      ensures bitmap.View() == LossBitmap.Set(old(bitmap.View()), p.seqno) && first == bitmap.first
      ensures (keyframe, keyframeValid) == KeyframeAfter(old(stats), old(keyframe), old(keyframeValid), p.seqno, isKeyframe)
    {
      if !stats.lastValid || LossBitmap.SeqnoInvalid(p.seqno, stats.last) {
      } else if Compare(stats.last, p.seqno) < 0 {
        if keyframeValid && Compare(keyframe, p.seqno) > 0 {
          keyframeValid := false;
        }
      }
      UpdateStats(p.seqno);
      bitmap.Record(p.seqno);
      if isKeyframe {
        keyframe, keyframeValid := p.seqno, true;
      }
      index := tail;
      ghost var ring := entries[..];
      entries[index] := p;
      tail := (index + 1) % entries.Length;
      first := bitmap.first;
      RingStores(ring, index, p);
      assert entries[..] == ring[index := p];
    }

    method UpdateStats(seqno: u16)
      modifies this`stats
      ensures stats == ReceiveStats.Stored(old(stats), seqno)
    {
      var st := stats;
      if !st.lastValid || LossBitmap.SeqnoInvalid(seqno, st.last) {
        st := st.(last := seqno, lastValid := true);
        st := st.(expected := ReceiveStats.U32(st.expected + 1));
        st := st.(received := ReceiveStats.U32(st.received + 1));
      } else {
        var cmp := Compare(st.last, seqno);
        if cmp < 0 {
          st := st.(received := ReceiveStats.U32(st.received + 1));
          st := st.(expected := ReceiveStats.U32(st.expected + U16(seqno - st.last)));
          if seqno < st.last {
            st := st.(cycle := U16(st.cycle + 1));
          }
          st := st.(last := seqno);
        } else if cmp > 0 {
          if st.received < st.expected {
            st := st.(received := ReceiveStats.U32(st.received + 1));
          }
        }
      }
      stats := st;
    }

    /** The packet with a given number, if the ring still has one. */
    method Get(seqno: u16) returns (p: Option<Packet>)
      requires Valid()
      ensures p == Lookup(entries[..], seqno)
      ensures p.Some? ==> p.value in List() && !Vacant(p.value) && p.value.seqno == seqno
      ensures p.None? ==> forall q :: q in List() ==> Vacant(q) || q.seqno != seqno
    {
      SameMembers(entries[..], tail);
      ghost var ring := entries[..];
      for i := 0 to entries.Length
        invariant Lookup(ring, seqno) == Lookup(ring[i..], seqno)
      {
        assert ring[i] == entries[i] && ring[i..][1..] == ring[i + 1..];
        if !Vacant(entries[i]) && entries[i].seqno == seqno {
          return Some(entries[i]);
        }
      }
      return None;
    }

    /** The data of the packet at an index, if it is the one with the given number. */
    method GetAt(seqno: u16, index: nat) returns (data: seq<u8>)
      requires Valid()
      ensures data == if index < entries.Length && entries[index].seqno == seqno then entries[index].data else []
    {
      if index >= entries.Length {
        return [];
      }
      if entries[index].seqno != seqno {
        return [];
      }
      return entries[index].data;
    }

    method Resize(capacity: nat)
      requires Valid() && 1 <= capacity <= MAX_CAPACITY
      modifies this`tail, this`entries
      ensures Valid() && entries.Length == capacity
      ensures List() == Resized(old(List()), capacity)
      ensures entries == old(entries) || fresh(entries)
      ensures old(tail) <= capacity ==> entries[..old(tail)] == old(entries[..tail])
      ensures old(tail) < capacity ==> tail == old(tail)
    {
      hide Recent;
      if entries.Length == capacity {
        return;
      }
      if capacity > entries.Length {
        entries := Grown(entries, tail, capacity);
      } else if capacity > tail {
        entries := Shrunk(entries, tail, capacity);
      } else {
        entries := Cut(entries, tail, capacity);
        tail := 0;
      }
    }

    /** The first branch of resize: room is made at the tail. */
    static method Grown(entries: array<Packet>, tail: nat, capacity: nat) returns (more: array<Packet>)
      requires tail < entries.Length < capacity
      ensures fresh(more) && more.Length == capacity && more[..tail] == entries[..tail]
      ensures Recent(more[..], tail) == Resized(Recent(entries[..], tail), capacity)
    {
      hide Recent, Resized;
      var gap := capacity - entries.Length;
      more := new Packet[capacity](_ => NONE);
      forall i | 0 <= i < tail {
        more[i] := entries[i];
      }
      forall i | tail + gap <= i < capacity {
        more[i] := entries[i - gap];
      }
      RingGrows(entries[..], more[..], tail);
    }

    /** The second branch: the oldest packets, which follow the tail, go. */
    static method Shrunk(entries: array<Packet>, tail: nat, capacity: nat) returns (fewer: array<Packet>)
      requires tail < capacity < entries.Length
      ensures fresh(fewer) && fewer.Length == capacity && fewer[..tail] == entries[..tail]
      ensures Recent(fewer[..], tail) == Resized(Recent(entries[..], tail), capacity)
    {
      hide Recent, Resized;
      var n := entries.Length;
      fewer := new Packet[capacity](_ => NONE);
      forall i | 0 <= i < tail {
        fewer[i] := entries[i];
      }
      forall i | tail <= i < capacity {
        fewer[i] := entries[i + n - capacity];
      }
      RingShrinks(entries[..], fewer[..], tail);
    }

    /** The third branch: only the newest packets stay, from index 0 on. */
    static method Cut(entries: array<Packet>, tail: nat, capacity: nat) returns (fewer: array<Packet>)
      requires 1 <= capacity <= tail < entries.Length
      ensures fresh(fewer) && fewer.Length == capacity
      ensures Recent(fewer[..], 0) == Resized(Recent(entries[..], tail), capacity)
      ensures capacity == tail ==> fewer[..] == entries[..tail]
    {
      hide Recent, Resized;
      fewer := new Packet[capacity](_ => NONE);
      forall i | 0 <= i < capacity {
        fewer[i] := entries[i + tail - capacity];
      }
      RingCut(entries[..], fewer[..], tail);
    }

    /** Resizes unless the capacity is near enough, or indices of recent packets would be lost. */
    method ResizeCond(capacity: nat) returns (ok: bool)
      requires Valid() && 1 <= capacity <= MAX_CAPACITY
      modifies this`tail, this`entries
      ensures Valid()
      ensures ok <==> !(old(entries.Length) >= capacity * 3 / 4 && old(entries.Length) < capacity * 2) &&
                      (capacity < old(entries.Length) ==> old(tail) <= capacity)
      ensures !ok ==> entries == old(entries) && tail == old(tail)
      ensures ok ==> List() == Resized(old(List()), capacity)
      ensures ok ==> old(tail) <= entries.Length && entries[..old(tail)] == old(entries[..tail])
    {
      var current := entries.Length;
      if current >= capacity * 3 / 4 && current < capacity * 2 {
        return false;
      }
      if capacity < current {
        if tail > capacity {
          return false;
        }
      }
      Resize(capacity);
      return true;
    }
  }

  lemma RingStores(ring: seq<Packet>, index: nat, p: Packet)
    requires index < |ring|
    ensures Recent(ring[index := p], (index + 1) % |ring|) == Recent(ring, index)[1..] + [p]
  {
    var ring' := ring[index := p];
    assert ring'[..index + 1] == ring[..index] + [p];
    assert ring'[index + 1..] == ring[index + 1..];
    assert Recent(ring, index)[1..] == ring[index + 1..] + ring[..index];
    if index + 1 < |ring| {
      assert (index + 1) % |ring| == index + 1;
    } else {
      assert (index + 1) % |ring| == 0;
      assert ring'[index + 1..] == [] && ring'[..index + 1] == ring';
      assert ring'[0..] + ring'[..0] == ring';
    }
  }

  lemma SameMembers(ring: seq<Packet>, tail: nat)
    requires tail <= |ring|
    ensures forall p :: p in Recent(ring, tail) <==> p in ring
  {
    assert ring == ring[..tail] + ring[tail..];
  }

  lemma RingGrows(ring: seq<Packet>, ring': seq<Packet>, tail: nat)
    requires tail < |ring| < |ring'|
    requires forall i :: 0 <= i < tail ==> ring'[i] == ring[i]
    requires forall i :: tail <= i < tail + |ring'| - |ring| ==> ring'[i] == NONE
    requires forall i :: tail + |ring'| - |ring| <= i < |ring'| ==> ring'[i] == ring[i - (|ring'| - |ring|)]
    ensures Recent(ring', tail) == Resized(Recent(ring, tail), |ring'|)
  {
    var gap := |ring'| - |ring|;
    GapVacant(ring', tail, gap);
    MovedUp(ring, ring', tail, gap);
    GrownRing(ring, ring', tail, gap);
  }

  lemma GapVacant(ring': seq<Packet>, tail: nat, gap: nat)
    requires tail + gap <= |ring'|
    requires forall i :: tail <= i < tail + gap ==> ring'[i] == NONE
    ensures ring'[tail..tail + gap] == Blank(gap)
  {
  }

  lemma MovedUp(ring: seq<Packet>, ring': seq<Packet>, tail: nat, gap: nat)
    requires tail < |ring| && |ring'| == |ring| + gap
    requires forall i :: tail + gap <= i < |ring'| ==> ring'[i] == ring[i - gap]
    ensures ring'[tail + gap..] == ring[tail..]
  {
  }

  lemma GrownRing(ring: seq<Packet>, ring': seq<Packet>, tail: nat, gap: nat)
    requires tail < |ring| && |ring'| == |ring| + gap
    requires forall i :: 0 <= i < tail ==> ring'[i] == ring[i]
    requires ring'[tail..tail + gap] == Blank(gap) && ring'[tail + gap..] == ring[tail..]
    ensures Recent(ring', tail) == Resized(Recent(ring, tail), |ring'|)
  {
    hide Blank;
    assert ring'[..tail] == ring[..tail];
    assert ring'[tail..] == ring'[tail..tail + gap] + ring'[tail + gap..];
  }

  lemma RingShrinks(ring: seq<Packet>, ring': seq<Packet>, tail: nat)
    requires tail < |ring'| < |ring|
    requires forall i :: 0 <= i < tail ==> ring'[i] == ring[i]
    requires forall i :: tail <= i < |ring'| ==> ring'[i] == ring[i + |ring| - |ring'|]
    ensures Recent(ring', tail) == Resized(Recent(ring, tail), |ring'|)
  {
    assert ring'[..tail] == ring[..tail];
    assert ring'[tail..] == ring[tail + |ring| - |ring'|..];
  }

  lemma RingCut(ring: seq<Packet>, ring': seq<Packet>, tail: nat)
    requires |ring'| <= tail < |ring|
    requires forall i :: 0 <= i < |ring'| ==> ring'[i] == ring[i + tail - |ring'|]
    ensures Recent(ring', 0) == Resized(Recent(ring, tail), |ring'|)
  {
    assert ring' == ring[tail - |ring'|..tail];
    assert ring'[0..] + ring'[..0] == ring';
  }

  // Runs

  datatype Op = StoreOp(p: Packet) | ResizeOp(capacity: nat)

  /** The list that the methods above maintain, and everything stored since the start. */
  function ListAfter(capacity: nat, ops: seq<Op>): seq<Packet> {
    if ops == [] then Blank(capacity)
    else
      var ps := ListAfter(capacity, ops[..|ops| - 1]);
      match ops[|ops| - 1]
      case StoreOp(p) => if ps == [] then [] else ps[1..] + [p]
      case ResizeOp(c) => Resized(ps, c)
  }

  function Stores(ops: seq<Op>): seq<Packet> {
    if ops == [] then []
    else Stores(ops[..|ops| - 1]) + match ops[|ops| - 1] case StoreOp(p) => [p] case ResizeOp(_) => []
  }

  /** How many packets the smallest capacity since they were stored has left. */
  function Kept(capacity: nat, ops: seq<Op>): nat {
    if ops == [] then 0
    else
      var k, n := Kept(capacity, ops[..|ops| - 1]), |ListAfter(capacity, ops[..|ops| - 1])|;
      match ops[|ops| - 1]
      case StoreOp(_) => if k < n then k + 1 else n
      case ResizeOp(c) => if k < c then k else c
  }

  /** A list holds the last k of all packets stored, in order, and is vacant before them. */
  ghost predicate HoldsLast(ps: seq<Packet>, k: nat, all: seq<Packet>) {
    k <= |ps| && k <= |all| && ps == Blank(|ps| - k) + all[|all| - k..]
  }

  /**
   * Whatever the order of stores and resizes, the cache holds exactly the packets stored last, in
   * order, as many as the smallest capacity since has left, and nothing else.
   */
  lemma {:induction false} HoldsLastStores(capacity: nat, ops: seq<Op>)
    ensures HoldsLast(ListAfter(capacity, ops), Kept(capacity, ops), Stores(ops))
  {
    hide HoldsLast, Blank, Resized;
    if ops == [] {
      StartHolds(capacity);
    } else {
      var before := ops[..|ops| - 1];
      HoldsLastStores(capacity, before);
      var ps, k, all := ListAfter(capacity, before), Kept(capacity, before), Stores(before);
      match ops[|ops| - 1] {
        case StoreOp(p) => StoreHolds(ps, k, all, p);
        case ResizeOp(c) => ResizeHolds(ps, k, all, c);
      }
    }
  }

  lemma StartHolds(capacity: nat)
    ensures HoldsLast(Blank(capacity), 0, [])
  {
    assert Blank(capacity) + [] == Blank(capacity);
  }

  lemma StoreHolds(ps: seq<Packet>, k: nat, all: seq<Packet>, p: Packet)
    requires HoldsLast(ps, k, all)
    ensures HoldsLast(if ps == [] then [] else ps[1..] + [p], if k < |ps| then k + 1 else |ps|, all + [p])
  {
    if ps == [] {
      assert (all + [p])[|all| + 1..] == [];
    } else if k < |ps| {
      assert Blank(|ps| - k)[1..] == Blank(|ps| - k - 1);
      assert ps[1..] == Blank(|ps| - k)[1..] + all[|all| - k..];
      assert (all + [p])[|all| - k..] == all[|all| - k..] + [p];
    } else {
      assert ps == all[|all| - k..];
      assert (all + [p])[|all| + 1 - k..] == all[|all| + 1 - k..] + [p];
    }
  }

  lemma ResizeHolds(ps: seq<Packet>, k: nat, all: seq<Packet>, c: nat)
    requires HoldsLast(ps, k, all)
    ensures HoldsLast(Resized(ps, c), if k < c then k else c, all + [])
  {
    assert all + [] == all;
    if c >= |ps| {
      assert Blank(c - |ps|) + Blank(|ps| - k) == Blank(c - k);
      assert Resized(ps, c) == Blank(c - |ps|) + (Blank(|ps| - k) + all[|all| - k..]);
    }
  }
}
