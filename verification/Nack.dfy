/**
 * Negative acknowledgements (section 6.2.1 of RFC 4585): encoding a list of
 * missing numbers into pairs (ToBitmap in packetcache/packetcache.go and
 * sendNACKs in rtpconn/rtpconn.go).
 */
module Nack {
  import opened Seqno

  const MAX_PAIRS: nat := 240

  type Bits16 = b: seq<bool> | |b| == 16 witness seq(16, _ => false)

  /** A pair names its first number, and the i+1-th number after it for every bit i. */
  datatype Pair = Pair(first: u16, bits: Bits16)

  function NoBits(): Bits16 { seq(16, _ => false) }

  function BitNumbers(p: Pair, n: nat): seq<u16>
    requires n <= 16
  {
    if n == 0 then []
    else BitNumbers(p, n - 1) + if p.bits[n - 1] then [U16(p.first + n)] else []
  }

  /** The numbers of a pair, in the order they are gone through. */
  function Numbers(p: Pair): seq<u16> { [p.first] + BitNumbers(p, 16) }

  function AllNumbers(ps: seq<Pair>): seq<u16> {
    if ps == [] then [] else Numbers(ps[0]) + AllNumbers(ps[1..])
  }

  function Members(s: seq<u16>): set<u16> { set x | x in s }

  lemma {:induction false} BitNumbersAre(p: Pair, n: nat)
    requires n <= 16
    ensures forall x :: x in BitNumbers(p, n) <==> exists i :: 0 <= i < n && p.bits[i] && x == U16(p.first + i + 1)
  {
    if n > 0 {
      BitNumbersAre(p, n - 1);
      forall x | x in BitNumbers(p, n)
        ensures exists i :: 0 <= i < n && p.bits[i] && x == U16(p.first + i + 1) {
        if x !in BitNumbers(p, n - 1) {
          assert p.bits[n - 1] && x == U16(p.first + (n - 1) + 1);
        }
      }
    }
  }

  lemma NumbersAre(p: Pair)
    ensures forall x :: x in Numbers(p) <==>
              x == p.first || exists i :: 0 <= i < 16 && p.bits[i] && x == U16(p.first + i + 1)
  {
    BitNumbersAre(p, 16);
  }

  /** The bit that stands for s in a pair that starts at first. */
  function Offset(first: u16, s: u16): u16 { U16(s - first - 1) }

  lemma OffsetBack(first: u16, s: u16)
    requires Offset(first, s) < 16
    ensures U16(first + Offset(first, s) + 1) == s
  {
    U16Shift(s - first - 1, first + 1);
  }

  lemma SetBitNumbers(p: Pair, s: u16)
    requires Offset(p.first, s) < 16
    ensures Members(Numbers(p.(bits := p.bits[Offset(p.first, s) := true]))) == Members(Numbers(p)) + {s}
  {
    hide U16, Numbers, Offset;
    var d := Offset(p.first, s);
    var p' := p.(bits := p.bits[d := true]);
    OffsetBack(p.first, s);
    NumbersAre(p);
    NumbersAre(p');
    forall x ensures x in Numbers(p') <==> x in Numbers(p) || x == s {
      if x in Numbers(p) && x != p.first {
        var i :| 0 <= i < 16 && p.bits[i] && x == U16(p.first + i + 1);
        assert p'.bits[i];
      }
      if x == s {
        assert p'.bits[d] && x == U16(p.first + d + 1);
      }
      if x in Numbers(p') && x != p.first && x != s {
        var i :| 0 <= i < 16 && p'.bits[i] && x == U16(p.first + i + 1);
        assert i != d && p.bits[i];
      }
    }
  }

  lemma NoBitsNumbers(first: u16)
    ensures Members(Numbers(Pair(first, NoBits()))) == {first}
  {
    NumbersAre(Pair(first, NoBits()));
  }

  lemma MembersMore(s: seq<u16>, k: nat)
    requires k < |s|
    ensures Members(s[..k + 1]) == Members(s[..k]) + {s[k]}
  {
    assert s[..k + 1] == s[..k] + [s[k]];
  }

  /**
   * One pair for as long a prefix of the list as it can name; the list need not be sorted nor free
   * of repetitions.
   */
  method ToBitmap(seqnos: seq<u16>) returns (p: Pair, remain: seq<u16>, ghost taken: nat)
    requires seqnos != []
    ensures 1 <= taken <= |seqnos| && remain == seqnos[taken..]
    ensures p.first == seqnos[0]
    ensures Members(Numbers(p)) == Members(seqnos[..taken])
    ensures remain != [] ==> Offset(p.first, remain[0]) >= 16
  {
    hide Numbers, Members, Offset, NoBits;
    p := Pair(seqnos[0], NoBits());
    remain := seqnos[1..];
    taken := 1;
    NoBitsNumbers(seqnos[0]);
    MembersMore(seqnos, 0);
    EmptyMembers(seqnos[..0]);
    while |remain| > 0
      invariant 1 <= taken <= |seqnos| && remain == seqnos[taken..]
      invariant p.first == seqnos[0]
      invariant Members(Numbers(p)) == Members(seqnos[..taken])
      decreases |remain|
    {
      var delta := Offset(p.first, remain[0]);
      if delta >= 16 {
        break;
      }
      SetBitNumbers(p, remain[0]);
      MembersMore(seqnos, taken);
      p := p.(bits := p.bits[delta := true]);
      remain := remain[1..];
      taken := taken + 1;
    }
  }

  lemma EmptyMembers(s: seq<u16>)
    requires s == []
    ensures Members(s) == {}
  {
  }

  lemma MembersConcat(a: seq<u16>, b: seq<u16>)
    ensures Members(a + b) == Members(a) + Members(b)
  {
  }

  lemma {:induction false} AllNumbersAppend(ps: seq<Pair>, p: Pair)
    ensures Members(AllNumbers(ps + [p])) == Members(AllNumbers(ps)) + Members(Numbers(p))
  {
    hide Members, Numbers;
    if ps == [] {
      assert (ps + [p])[1..] == [];
      assert Numbers(p) + [] == Numbers(p);
      EmptyMembers([]);
    } else {
      assert (ps + [p])[1..] == ps[1..] + [p];
      AllNumbersAppend(ps[1..], p);
      MembersConcat(Numbers(ps[0]), AllNumbers(ps[1..] + [p]));
      MembersConcat(Numbers(ps[0]), AllNumbers(ps[1..]));
    }
  }

  lemma MembersJoin(s: seq<u16>, j: nat, k: nat)
    requires j + k <= |s|
    ensures Members(s[..j + k]) == Members(s[..j]) + Members(s[j..][..k])
  {
    assert s[..j + k] == s[..j] + s[j..][..k];
  }

  /**
   * The pairs of a request name exactly the numbers of the list.  Only a list that needs more than
   * 240 pairs is cut short, after a prefix that is named exactly.
   */
  method EncodeNacks(list: seq<u16>) returns (pairs: seq<Pair>, overflow: bool)
    ensures |pairs| <= MAX_PAIRS
    ensures !overflow ==> Members(AllNumbers(pairs)) == Members(list)
    ensures overflow ==> |pairs| == MAX_PAIRS &&
                         exists k :: MAX_PAIRS <= k < |list| && Members(AllNumbers(pairs)) == Members(list[..k])
    ensures |list| <= MAX_PAIRS ==> !overflow
  {
    hide Numbers, AllNumbers, Members, Offset;
    pairs, overflow := [], false;
    var seqnos := list;
    ghost var done: nat := 0;
    NothingNamed(list);
    while |seqnos| > 0
      invariant done <= |list| && seqnos == list[done..] && |pairs| <= done && |pairs| <= MAX_PAIRS
      invariant Members(AllNumbers(pairs)) == Members(list[..done])
      invariant !overflow
      decreases |seqnos|
    {
      if |pairs| >= MAX_PAIRS {
        overflow := true;
        break;
      }
      ghost var n;
      var p;
      p, seqnos, n := ToBitmap(seqnos);
      AllNumbersAppend(pairs, p);
      MembersJoin(list, done, n);
      pairs := pairs + [p];
      done := done + n;
    }
    assert !overflow ==> list[..done] == list;
  }

  lemma NothingNamed(list: seq<u16>)
    ensures Members(AllNumbers([])) == Members(list[..0])
  {
  }
}
