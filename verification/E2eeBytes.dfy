/**
 * The byte formats of static/e2ee-crypto.js: 48-bit counters, length-prefixed
 * fields, and what is hashed or authenticated.  Texts are their UTF-8 bytes.
 */
module E2eeBytes {
  type Byte = x: int | 0 <= x < 256
  type Bytes = seq<Byte>

  const POW48: nat := 0x1_0000_0000_0000

  /** The operand conversion of JavaScript's unsigned shifts. */
  function ToUint32(n: int): nat { n % 0x1_0000_0000 }

  /** Six big-endian bytes. */
  function Uint48(n: nat): (r: Bytes)
    ensures |r| == 6
  {
    [n / 0x100_0000_0000 % 256, n / 0x1_0000_0000 % 256,
     ToUint32(n) / 0x100_0000 % 256, ToUint32(n) / 0x1_0000 % 256, ToUint32(n) / 0x100 % 256, n % 256]
  }

  function Sum48(b0: nat, b1: nat, b2: nat, b3: nat, b4: nat, b5: nat): nat {
    b0 * 0x100_0000_0000 + b1 * 0x1_0000_0000 + b2 * 0x100_0000 + b3 * 0x1_0000 + b4 * 0x100 + b5
  }

  function Value48(b: Bytes): (n: nat)
    requires |b| == 6
  {
    Sum48(b[0], b[1], b[2], b[3], b[4], b[5])
  }

  lemma Halves(n: nat)
    ensures n == n / 0x1_0000_0000 * 0x1_0000_0000 + ToUint32(n)
    ensures n / 0x100_0000_0000 == n / 0x1_0000_0000 / 256
    ensures n % 256 == ToUint32(n) % 256
  {
  }

  lemma LowWord(w: nat)
    requires w < 0x1_0000_0000
    ensures w == w / 0x100_0000 % 256 * 0x100_0000 + w / 0x1_0000 % 256 * 0x1_0000 + w / 0x100 % 256 * 0x100 + w % 256
  {
    assert w / 0x1_0000 == w / 0x100_0000 * 256 + w / 0x1_0000 % 256;
    assert w / 0x100 == w / 0x1_0000 * 256 + w / 0x100 % 256;
  }

  lemma HighWord(h: nat)
    ensures h % 0x1_0000 == h / 256 % 256 * 256 + h % 256
  {
    var q := h / 256;
    Remainder(h, q / 256, q % 256, h % 256);
  }

  lemma Remainder(h: nat, a: nat, b: nat, c: nat)
    requires b < 256 && c < 256 && h == (a * 256 + b) * 256 + c
    ensures h % 0x1_0000 == b * 256 + c
  {
    assert h == a * 0x1_0000 + (b * 256 + c);
  }

  lemma Modulo48(n: nat, h: nat, w: nat)
    requires w < 0x1_0000_0000 && n == h * 0x1_0000_0000 + w
    ensures n % POW48 == h % 0x1_0000 * 0x1_0000_0000 + w
  {
    assert h == h / 0x1_0000 * 0x1_0000 + h % 0x1_0000;
    assert n == h / 0x1_0000 * POW48 + (h % 0x1_0000 * 0x1_0000_0000 + w);
  }

  /** What is read back is the number that was written, modulo 2^48. */
  lemma Uint48RoundTrip(n: nat)
    ensures Value48(Uint48(n)) == n % POW48
  {
    hide ToUint32;
    var h, w := n / 0x1_0000_0000, ToUint32(n);
    Halves(n);
    LowWord(w);
    HighWord(h);
    Modulo48(n, h, w);
    assert Value48(Uint48(n)) == (h / 256 % 256 * 256 + h % 256) * 0x1_0000_0000 +
      (w / 0x100_0000 % 256 * 0x100_0000 + w / 0x1_0000 % 256 * 0x1_0000 + w / 0x100 % 256 * 0x100 + w % 256);
  }

  /** Two counters have the same bytes exactly if they are congruent modulo 2^48. */
  lemma Uint48Same(m: nat, n: nat)
    ensures Uint48(m) == Uint48(n) <==> m % POW48 == n % POW48
  {
    Uint48RoundTrip(m);
    Uint48RoundTrip(n);
    if m % POW48 == n % POW48 {
      Value48Injective(Uint48(m), Uint48(n));
    }
  }

  lemma LastDigit(x: nat, p: nat, y: nat, q: nat)
    requires p < 256 && q < 256 && x * 256 + p == y * 256 + q
    ensures x == y && p == q
  {
  }

  lemma Value48Injective(a: Bytes, b: Bytes)
    requires |a| == 6 && |b| == 6
    ensures Value48(a) == Value48(b) <==> a == b
    ensures Value48(a) < POW48
  {
    if Value48(a) == Value48(b) {
      var x1: nat, y1: nat := a[0] as int * 256 + a[1], b[0] as int * 256 + b[1];
      var x2, y2 := x1 * 256 + a[2], y1 * 256 + b[2];
      var x3, y3 := x2 * 256 + a[3], y2 * 256 + b[3];
      var x4, y4 := x3 * 256 + a[4], y3 * 256 + b[4];
      LastDigit(x4, a[5], y4, b[5]);
      LastDigit(x3, a[4], y3, b[4]);
      LastDigit(x2, a[3], y2, b[3]);
      LastDigit(x1, a[2], y1, b[2]);
      LastDigit(a[0], a[1], b[0], b[1]);
      assert a == [a[0], a[1], a[2], a[3], a[4], a[5]];
      assert b == [b[0], b[1], b[2], b[3], b[4], b[5]];
    }
  }

  /** Every six bytes are the counter that they read as. */
  lemma Uint48Onto(b: Bytes)
    requires |b| == 6
    ensures Uint48(Value48(b)) == b
  {
    hide Value48, Uint48;
    Uint48RoundTrip(Value48(b));
    Value48Injective(b, b);
    Value48Injective(Uint48(Value48(b)), b);
  }

  method WriteUint48(buf: array<Byte>, off: nat, n: nat)
    requires off + 6 <= buf.Length
    modifies buf
    ensures buf[..] == old(buf[..off]) + Uint48(n) + old(buf[off + 6..])
  {
    buf[off] := n / 0x100_0000_0000 % 256;
    buf[off + 1] := n / 0x1_0000_0000 % 256;
    buf[off + 2] := ToUint32(n) / 0x100_0000 % 256;
    buf[off + 3] := ToUint32(n) / 0x1_0000 % 256;
    buf[off + 4] := ToUint32(n) / 0x100 % 256;
    buf[off + 5] := n % 256;
  }

  /** A field behind its length; only the low sixteen bits of the length are written. */
  function LengthPrefixed(b: Bytes): (r: Bytes)
    ensures |r| == |b| + 2
  {
    [|b| / 256 % 256, |b| % 256] + b
  }

  predicate Short(b: Bytes) { |b| < 0x1_0000 }

  /** Read from the front, a field shorter than 2^16 and what follows it are unambiguous. */
  lemma PrefixedParse(a: Bytes, b: Bytes, x: Bytes, y: Bytes)
    requires Short(a) && Short(b)
    ensures LengthPrefixed(a) + x == LengthPrefixed(b) + y <==> a == b && x == y
  {
    if LengthPrefixed(a) + x == LengthPrefixed(b) + y {
      var l, r := LengthPrefixed(a) + x, LengthPrefixed(b) + y;
      assert l[0] == r[0] && l[1] == r[1];
      assert |a| == |b|;
      assert a == l[2..2 + |a|] && b == r[2..2 + |b|];
      assert x == l[2 + |a|..] && y == r[2 + |b|..];
    }
  }

  // What is hashed and authenticated

  datatype Handshake = Handshake(
    initiatorId: Bytes, responderId: Bytes, commit: Bytes, initiatorPub: Bytes, responderPub: Bytes
  )

  predicate ShortFields(t: Handshake) {
    Short(t.initiatorId) && Short(t.responderId) && Short(t.commit) && Short(t.initiatorPub) && Short(t.responderPub)
  }

  const TRANSCRIPT_LABEL: Bytes := [115, 111, 122, 118, 111, 110, 45, 101, 50, 101, 101, 45, 118, 50]  // sozvon-e2ee-v2
  const CHAT_LABEL: Bytes := [115, 111, 122, 118, 111, 110, 45, 99, 104, 97, 116, 45, 118, 50]        // sozvon-chat-v2

  function TranscriptBytes(t: Handshake): Bytes {
    TRANSCRIPT_LABEL + (LengthPrefixed(t.initiatorId) + (LengthPrefixed(t.responderId) + (LengthPrefixed(t.commit) +
      (LengthPrefixed(t.initiatorPub) + LengthPrefixed(t.responderPub)))))
  }

  lemma SameAfter(tag: Bytes, x: Bytes, y: Bytes)
    ensures tag + x == tag + y <==> x == y
  {
    assert x == (tag + x)[|tag|..] && y == (tag + y)[|tag|..];
  }

  /** Two handshakes are hashed from the same bytes only if they agree on every id, key and commitment. */
  lemma TranscriptInjective(t: Handshake, u: Handshake)
    requires ShortFields(t) && ShortFields(u)
    ensures TranscriptBytes(t) == TranscriptBytes(u) <==> t == u
  {
    hide LengthPrefixed, Short;
    if TranscriptBytes(t) == TranscriptBytes(u) {
      var e: Bytes := [];
      var t5, u5 := LengthPrefixed(t.responderPub), LengthPrefixed(u.responderPub);
      var t4, u4 := LengthPrefixed(t.initiatorPub) + t5, LengthPrefixed(u.initiatorPub) + u5;
      var t3, u3 := LengthPrefixed(t.commit) + t4, LengthPrefixed(u.commit) + u4;
      var t2, u2 := LengthPrefixed(t.responderId) + t3, LengthPrefixed(u.responderId) + u3;
      SameAfter(TRANSCRIPT_LABEL, LengthPrefixed(t.initiatorId) + t2, LengthPrefixed(u.initiatorId) + u2);
      PrefixedParse(t.initiatorId, u.initiatorId, t2, u2);
      PrefixedParse(t.responderId, u.responderId, t3, u3);
      PrefixedParse(t.commit, u.commit, t4, u4);
      PrefixedParse(t.initiatorPub, u.initiatorPub, t5, u5);
      assert t5 + e == t5 && u5 + e == u5;
      PrefixedParse(t.responderPub, u.responderPub, e, e);
    }
  }

  /** The two bytes that a field's length is written as. */
  function LengthBytes(n: nat): Bytes { [n / 256 % 256, n % 256] }

  /**
   * The limit on the lengths is needed, whatever the commitment, the keys and the second id: a first
   * id of 2^16 + n bytes, of which those after the first n are the length of the second id, is hashed
   * like its first n bytes followed by an id made of all the rest.
   */
  lemma LongFieldsCollide(n: nat, x: Bytes, y: Bytes, commit: Bytes, p: Bytes, q: Bytes)
    requires n < 0x1_0000 && |x| == 0x1_0000 + n && x[n..n + 2] == LengthBytes(|y|)
    ensures var t := Handshake(x, y, commit, p, q);
            var u := Handshake(x[..n], x[n + 2..] + LengthPrefixed(y), commit, p, q);
            t != u && TranscriptBytes(t) == TranscriptBytes(u)
  {
    hide LengthPrefixed, LengthBytes;
    var z := x[n + 2..] + LengthPrefixed(y);
    var rest := LengthPrefixed(commit) + (LengthPrefixed(p) + LengthPrefixed(q));
    Prefixed(x);
    Prefixed(x[..n]);
    Prefixed(z);
    SameLengthBytes(n);
    SameLengthBytes(|y|);
    assert |z| == 0x1_0000 + |y|;
    Regrouped(LengthBytes(n), x, n, LengthPrefixed(y), rest);
    assert |x| != |x[..n]|;
  }

  lemma Prefixed(b: Bytes)
    ensures LengthPrefixed(b) == LengthBytes(|b|) + b
  {
  }

  lemma SameLengthBytes(n: nat)
    ensures LengthBytes(0x1_0000 + n) == LengthBytes(n)
  {
    var k, r := n / 256, n % 256;
    Digits(0x1_0000 + n, 256 + k, r);
  }

  lemma Digits(n: nat, k: nat, r: nat)
    requires n == k * 256 + r && r < 256
    ensures n / 256 == k && n % 256 == r
  {
  }

  lemma Regrouped(l: Bytes, x: Bytes, n: nat, y: Bytes, rest: Bytes)
    requires n + 2 <= |x|
    ensures (l + x) + (y + rest) == (l + x[..n]) + ((x[n..n + 2] + (x[n + 2..] + y)) + rest)
  {
    assert x == x[..n] + (x[n..n + 2] + x[n + 2..]);
  }

  function ChatAAD(sender: Bytes, recipient: Bytes, seqno: nat, kind: Bytes): Bytes {
    CHAT_LABEL + (LengthPrefixed(sender) + (LengthPrefixed(recipient) + (Uint48(seqno) + LengthPrefixed(kind))))
  }

  /** What a chat message is authenticated with fixes its sender, recipient, number and kind. */
  lemma ChatAADInjective(s: Bytes, r: Bytes, n: nat, k: Bytes, s': Bytes, r': Bytes, n': nat, k': Bytes)
    requires Short(s) && Short(r) && Short(k) && Short(s') && Short(r') && Short(k')
    ensures ChatAAD(s, r, n, k) == ChatAAD(s', r', n', k') <==> s == s' && r == r' && n % POW48 == n' % POW48 && k == k'
  {
    hide LengthPrefixed, Short, Uint48;
    var e: Bytes := [];
    var x3, y3 := Uint48(n) + LengthPrefixed(k), Uint48(n') + LengthPrefixed(k');
    var x2, y2 := LengthPrefixed(r) + x3, LengthPrefixed(r') + y3;
    SameAfter(CHAT_LABEL, LengthPrefixed(s) + x2, LengthPrefixed(s') + y2);
    PrefixedParse(s, s', x2, y2);
    PrefixedParse(r, r', x3, y3);
    Uint48Same(n, n');
    assert x3[..6] == Uint48(n) && y3[..6] == Uint48(n') && x3[6..] == LengthPrefixed(k) && y3[6..] == LengthPrefixed(k');
    assert LengthPrefixed(k) + e == LengthPrefixed(k) && LengthPrefixed(k') + e == LengthPrefixed(k');
    PrefixedParse(k, k', e, e);
  }
}
