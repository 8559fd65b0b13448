/**
 * The renumbering table of a down track (packetmap/packetmap.go): packets of
 * unwanted layers are dropped, and what is left is renumbered so that the
 * receiver sees no gap.
 *
 * The first part is the table itself: a value with the fields of the source's
 * Map, one function per operation, and the class whose methods run the
 * source's loops.  PacketMapSpec says what the table means in unbounded numbers.
 */
module PacketMap {
  import opened Seqno

  const MAX_ENTRIES: nat := 128
  const MAX_JUMP: int := 8192

  datatype Entry = Entry(first: u16, count: u16, delta: u16, pidDelta: u16)

  datatype Table = Table(
    next: u16, nextPid: u16, delta: u16, pidDelta: u16,
    lastEntry: nat, entries: seq<Entry>  // no entries stands for the source's nil slice
  )

  /** What a lookup returns: whether the number could be mapped, its image, and the picture-id delta. */
  datatype Mapped = Mapped(ok: bool, seqno: u16, pidDelta: u16)

  const UNMAPPED := Mapped(false, 0, 0)

  const EMPTY := Table(0, 0, 0, 0, 0, [])

  predicate WellFormed(m: Table) {
    && |m.entries| <= MAX_ENTRIES
    && (m.entries == [] ==> m.lastEntry == 0 && m.delta == 0 && m.pidDelta == 0)
    && (m.entries != [] ==> m.lastEntry < |m.entries|)
    && (m.entries != [] && |m.entries| < MAX_ENTRIES ==> m.lastEntry == |m.entries| - 1)
  }

  /** A ring's elements, oldest first, given where the newest is. */
  function Ring(es: seq<Entry>, last: nat): (r: seq<Entry>)
    requires es != [] ==> last < |es|
    ensures |r| == |es|
  {
    if es == [] then [] else es[last + 1..] + es[..last + 1]
  }

  /** The entries in the order they were made: the table is a ring once it is full. */
  function Chron(m: Table): (es: seq<Entry>)
    requires WellFormed(m)
    ensures |es| == |m.entries|
  {
    Ring(m.entries, m.lastEntry)
  }

  /** Where the k-th oldest entry is in the ring. */
  function Slot(m: Table, k: nat): nat {
    if k + m.lastEntry >= |m.entries| then k + m.lastEntry - |m.entries| else k + m.lastEntry
  }

  lemma ChronAt(m: Table, k: nat)
    requires WellFormed(m) && 1 <= k <= |m.entries|
    ensures Slot(m, k) < |m.entries| && Chron(m)[k - 1] == m.entries[Slot(m, k)]
    ensures Chron(m)[..k][..k - 1] == Chron(m)[..k - 1]
  {
  }

  /** direct: the newest entry that starts at or before seqno decides. */
  function Direct(es: seq<Entry>, seqno: u16): Mapped {
    if es == [] then UNMAPPED else
    var e := es[|es| - 1];
    if Compare(seqno, e.first) >= 0 then
      if Compare(seqno, U16(e.first + e.count)) < 0 then Mapped(true, U16(seqno + e.delta), e.pidDelta) else UNMAPPED
    else Direct(es[..|es| - 1], seqno)
  }

  /** Reverse: the same over the images of the entries. */
  function ReverseIn(es: seq<Entry>, seqno: u16): Mapped {
    if es == [] then UNMAPPED else
    var e := es[|es| - 1];
    var f := U16(e.first + e.delta);
    if Compare(seqno, f) >= 0 then
      if Compare(seqno, U16(f + e.count)) < 0 then Mapped(true, U16(seqno - e.delta), e.pidDelta) else UNMAPPED
    else ReverseIn(es[..|es| - 1], seqno)
  }

  lemma LookupStep(m: Table, k: nat, seqno: u16)
    requires WellFormed(m) && 1 <= k <= |m.entries|
    ensures Slot(m, k) < |m.entries|
    ensures var e, older := m.entries[Slot(m, k)], Chron(m)[..k - 1];
            var f := U16(e.first + e.delta);
            && Direct(Chron(m)[..k], seqno) ==
               (if Compare(seqno, e.first) < 0 then Direct(older, seqno)
                else if Compare(seqno, U16(e.first + e.count)) < 0
                then Mapped(true, U16(seqno + e.delta), e.pidDelta) else UNMAPPED)
            && ReverseIn(Chron(m)[..k], seqno) ==
               (if Compare(seqno, f) < 0 then ReverseIn(older, seqno)
                else if Compare(seqno, U16(f + e.count)) < 0
                then Mapped(true, U16(seqno - e.delta), e.pidDelta) else UNMAPPED)
  {
    ChronAt(m, k);
    hide Compare, U16;
  }

  lemma LookupEnds(m: Table, seqno: u16)
    requires WellFormed(m)
    ensures Direct([], seqno) == ReverseIn([], seqno) == UNMAPPED
    ensures m.entries != [] ==> m.lastEntry < |m.entries|
  {
  }

  function Reverse(m: Table, seqno: u16): Mapped
    requires WellFormed(m)
  {
    if m.entries == [] then Mapped(true, seqno, 0) else ReverseIn(Chron(m), seqno)
  }

  /** The entry that addMapping makes after a change of delta. */
  function NewEntry(last: Entry, seqno: u16, delta: u16, pidDelta: u16): Entry {
    var d := U16(last.delta - delta);
    var ff := U16(last.first + last.count + d);
    var f := if d < MAX_JUMP && Compare(ff, seqno) < 0 then ff else seqno;
    Entry(f, U16(seqno - f + 1), delta, pidDelta)
  }

  function AddMapping(m: Table, seqno: u16): (m': Table)
    requires WellFormed(m)
    ensures WellFormed(m')
  {
    if m.entries == [] then m else
    var last := m.entries[m.lastEntry];
    if m.delta == last.delta && m.pidDelta == last.pidDelta then
      m.(entries := m.entries[m.lastEntry := last.(count := U16(seqno - last.first + 1))])
    else
      var e := NewEntry(last, seqno, m.delta, m.pidDelta);
      if |m.entries| < MAX_ENTRIES then
        m.(entries := m.entries + [e], lastEntry := |m.entries|)
      else
        var j := (m.lastEntry + 1) % MAX_ENTRIES;
        m.(entries := m.entries[j := e], lastEntry := j)
  }

  function MapSeqno(m: Table, seqno: u16, pid: u16): (r: (Table, Mapped))
    requires WellFormed(m)
    ensures WellFormed(r.0)
  {
    if m.entries == [] then
      (if Compare(m.next, seqno) <= 0 || U16(m.next - seqno) > MAX_JUMP
       then m.(next := U16(seqno + 1), nextPid := pid) else m,
       Mapped(true, seqno, 0))
    else if Compare(m.next, seqno) <= 0 then
      if U16(seqno - m.next) > MAX_JUMP then
        (EMPTY.(next := U16(seqno + 1), nextPid := pid), Mapped(true, seqno, 0))
      else
        (AddMapping(m, seqno).(next := U16(seqno + 1), nextPid := pid),
         Mapped(true, U16(seqno + m.delta), m.pidDelta))
    else if U16(m.next - seqno) > MAX_JUMP then
      (EMPTY.(next := U16(seqno + 1), nextPid := pid), Mapped(true, seqno, 0))
    else
      (m, Direct(Chron(m), seqno))
  }

  function DropSeqno(m: Table, seqno: u16, pid: u16): (r: (Table, bool))
    requires WellFormed(m)
    ensures WellFormed(r.0)
  {
    if seqno != m.next then
      (m, false)
    else
      (m.(entries := if m.entries == [] then [Entry(U16(seqno - 8192), 8192, 0, 0)] else m.entries,
          pidDelta := U16(m.pidDelta + pid - m.nextPid), nextPid := pid,
          delta := U16(m.delta - 1), next := U16(seqno + 1)),
       true)
  }

  /** The table as the source keeps it. */
  class Map {
    var next: u16
    var nextPid: u16
    var delta: u16
    var pidDelta: u16
    var lastEntry: nat
    var entries: seq<Entry>

    ghost predicate Valid()
      reads this
    {
      WellFormed(View())
    }

    ghost function View(): Table
      reads this
    {
      Table(next, nextPid, delta, pidDelta, lastEntry, entries)
    }

    constructor ()
      ensures Valid() && View() == EMPTY
    {
      next, nextPid, delta, pidDelta, lastEntry, entries := 0, 0, 0, 0, 0, [];
    }

    method MapPacket(seqno: u16, pid: u16) returns (r: Mapped)
      requires Valid()
      modifies this
      ensures Valid() && (View(), r) == MapSeqno(old(View()), seqno, pid)
    {
      if delta == 0 && entries == [] {
        if Compare(next, seqno) <= 0 || U16(next - seqno) > MAX_JUMP {
          next := U16(seqno + 1);
          nextPid := pid;
        }
        return Mapped(true, seqno, 0);
      }
      if Compare(next, seqno) <= 0 {
        if U16(seqno - next) > MAX_JUMP {
          Reset();
          next := U16(seqno + 1);
          nextPid := pid;
          return Mapped(true, seqno, 0);
        }
        Add(seqno);
        next := U16(seqno + 1);
        nextPid := pid;
        return Mapped(true, U16(seqno + delta), pidDelta);
      }
      if U16(next - seqno) > MAX_JUMP {
        Reset();
        next := U16(seqno + 1);
        nextPid := pid;
        return Mapped(true, seqno, 0);
      }
      r := Lookup(seqno);
    }

    method Reset()
      modifies this
      ensures View() == EMPTY
    {
      next, nextPid, delta, pidDelta, lastEntry, entries := 0, 0, 0, 0, 0, [];
    }

    method Add(seqno: u16)
      requires Valid()
      modifies this
      ensures Valid() && View() == AddMapping(old(View()), seqno)
    {
      if entries == [] {
        return;
      }
      var i := lastEntry;
      var last := entries[i];
      if delta == last.delta && pidDelta == last.pidDelta {
        entries := entries[i := last.(count := U16(seqno - last.first + 1))];
        return;
      }
      var f := seqno;
      var d := U16(last.delta - delta);
      if d < MAX_JUMP {
        var ff := U16(last.first + last.count + d);
        if Compare(ff, seqno) < 0 {
          f := ff;
        }
      }
      var e := Entry(f, U16(seqno - f + 1), delta, pidDelta);
      if |entries| < MAX_ENTRIES {
        entries := entries + [e];
        lastEntry := |entries| - 1;
        return;
      }
      var j := (lastEntry + 1) % MAX_ENTRIES;
      entries := entries[j := e];
      lastEntry := j;
    }

    /** The loop of direct: from the newest entry backwards around the ring. */
    method Lookup(seqno: u16) returns (r: Mapped)
      requires Valid()
      ensures r == Direct(Chron(View()), seqno)
    {
      hide Compare, U16, WellFormed, Chron, Direct, ReverseIn;
      ghost var m := View();
      ghost var es := Chron(m);
      LookupEnds(m, seqno);
      if |entries| == 0 {
        return UNMAPPED;
      }
      var i, k := lastEntry, |entries|;
      assert es[..k] == es;
      while true
        invariant 1 <= k <= |entries| && i == Slot(m, k)
        invariant Direct(es, seqno) == Direct(es[..k], seqno)
        decreases k
      {
        LookupStep(m, k, seqno);
        var f := entries[i].first;
        if Compare(seqno, f) >= 0 {
          if Compare(seqno, U16(f + entries[i].count)) < 0 {
            return Mapped(true, U16(seqno + entries[i].delta), entries[i].pidDelta);
          }
          return UNMAPPED;
        }
        i := if i > 0 then i - 1 else |entries| - 1;
        k := k - 1;
        if i == lastEntry {
          break;
        }
      }
      return UNMAPPED;
    }

    method ReversePacket(seqno: u16) returns (r: Mapped)
      requires Valid()
      ensures r == Reverse(View(), seqno)
    {
      hide Compare, U16, WellFormed, Chron, Direct, ReverseIn;
      ghost var m := View();
      ghost var es := Chron(m);
      LookupEnds(m, seqno);
      if entries == [] {
        return Mapped(true, seqno, 0);
      }
      var i, k := lastEntry, |entries|;
      assert es[..k] == es;
      while true
        invariant 1 <= k <= |entries| && i == Slot(m, k)
        invariant ReverseIn(es, seqno) == ReverseIn(es[..k], seqno)
        decreases k
      {
        LookupStep(m, k, seqno);
        var f := U16(entries[i].first + entries[i].delta);
        if Compare(seqno, f) >= 0 {
          if Compare(seqno, U16(f + entries[i].count)) < 0 {
            return Mapped(true, U16(seqno - entries[i].delta), entries[i].pidDelta);
          }
          return UNMAPPED;
        }
        i := if i > 0 then i - 1 else |entries| - 1;
        k := k - 1;
        if i == lastEntry {
          break;
        }
      }
      return UNMAPPED;
    }

    method Drop(seqno: u16, pid: u16) returns (ok: bool)
      requires Valid()
      modifies this
      ensures Valid() && (View(), ok) == DropSeqno(old(View()), seqno, pid)
    {
      if seqno != next {
        return false;
      }
      if |entries| == 0 {
        entries := [Entry(U16(seqno - 8192), 8192, 0, 0)];
      }
      pidDelta := U16(pidDelta + pid - nextPid);
      nextPid := pid;
      delta := U16(delta - 1);
      next := U16(seqno + 1);
      return true;
    }
  }
}
