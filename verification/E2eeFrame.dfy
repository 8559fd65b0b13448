/**
 * The sealed media frame of static/e2ee-crypto.js, and the encryptor of
 * static/e2ee-worker.js that numbers its frames.  AES-GCM is a pair of functions
 * of which only the laws below are assumed, where they are needed.
 */
module E2eeFrame {
  import opened Common
  import opened E2eeBytes

  type Key = Bytes

  datatype Aead = Aead(seal: (Key, Bytes, Bytes, Bytes) -> Bytes, open: (Key, Bytes, Bytes, Bytes) -> Option<Bytes>)

  const TAG_BYTES := 16
  const SALT_BYTES := 6
  const TRAILER_BYTES := 13
  const OVERHEAD := 29

  /** What was sealed opens again, with the same key, IV and associated data; the tag adds sixteen bytes. */
  ghost predicate Opens(g: Aead) {
    forall key: Key, iv: Bytes, aad: Bytes, text: Bytes {:trigger g.seal(key, iv, aad, text)} ::
      |g.seal(key, iv, aad, text)| == |text| + TAG_BYTES && g.open(key, iv, aad, g.seal(key, iv, aad, text)) == Some(text)
  }

  /** Nothing opens but what was sealed. */
  ghost predicate OnlyGenuine(g: Aead) {
    forall key: Key, iv: Bytes, aad: Bytes, ct: Bytes {:trigger g.open(key, iv, aad, ct)} ::
      g.open(key, iv, aad, ct).Some? ==> ct == g.seal(key, iv, aad, g.open(key, iv, aad, ct).value)
  }

  /** The bytes that the forwarding server reads, by kind of frame. */
  function ClearPrefixLength(video: bool, keyFrame: bool): nat {
    if !video then 0 else if keyFrame then 10 else 1
  }

  function Min(a: int, b: int): int { if a < b then a else b }

  function Iv(salt: Bytes, counter: nat): Bytes { salt + Uint48(counter) }

  function Trailer(salt: Bytes, counter: nat, keyId: int): (t: Bytes)
    requires |salt| == SALT_BYTES
    ensures |t| == TRAILER_BYTES
  {
    salt + Uint48(counter) + [keyId % 256]
  }

  function EncryptFrame(g: Aead, plain: Bytes, video: bool, keyFrame: bool,
                        key: Key, salt: Bytes, counter: nat, keyId: int): Bytes
    requires |salt| == SALT_BYTES
  {
    var prefix := Min(ClearPrefixLength(video, keyFrame), |plain|);
    plain[..prefix] + g.seal(key, Iv(salt, counter), plain[..prefix], plain[prefix..]) + Trailer(salt, counter, keyId)
  }

  datatype Decrypted = Plain(frame: Bytes) | TooShort | NoKey(keyId: int) | Malformed | NotAuthentic

  function DecryptFrame(g: Aead, data: Bytes, video: bool, keyFrame: bool, resolver: Byte -> Option<Key>): Decrypted {
    if |data| < OVERHEAD then TooShort else
    var salt := data[|data| - TRAILER_BYTES..|data| - 7];
    var counter := Value48(data[|data| - 7..|data| - 1]);
    var keyId := data[|data| - 1];
    var key := resolver(keyId);
    if key.None? then NoKey(keyId) else
    var cipherEnd := |data| - TRAILER_BYTES;
    var prefix := Min(ClearPrefixLength(video, keyFrame), cipherEnd - TAG_BYTES);
    if prefix < 0 then Malformed else
    var body := g.open(key.value, Iv(salt, counter), data[..prefix], data[prefix..cipherEnd]);
    if body.None? then NotAuthentic else Plain(data[..prefix] + body.value)
  }

  /** How a sealed frame is taken apart: prefix, sealed rest, trailer. */
  lemma Parts(head: Bytes, ct: Bytes, salt: Bytes, counter: nat, keyId: int)
    requires |salt| == SALT_BYTES
    ensures var data := head + ct + Trailer(salt, counter, keyId); var n := |data|;
            && n == |head| + |ct| + TRAILER_BYTES
            && data[..|head|] == head && data[|head|..n - TRAILER_BYTES] == ct
            && data[n - TRAILER_BYTES..n - 7] == salt
            && Value48(data[n - 7..n - 1]) == counter % POW48
            && data[n - 1] == keyId % 256
  {
    hide Uint48;
    var data := head + ct + Trailer(salt, counter, keyId);
    var n := |data|;
    assert data[n - 7..n - 1] == Uint48(counter);
    Uint48RoundTrip(counter);
  }

  lemma SameIv(salt: Bytes, m: nat, n: nat)
    ensures Iv(salt, m) == Iv(salt, n) <==> m % POW48 == n % POW48
  {
    hide Uint48;
    Uint48Same(m, n);
    SameAfter(salt, Uint48(m), Uint48(n));
  }

  /** What comes out of a frame whose parts are known. */
  lemma DecryptOf(g: Aead, head: Bytes, ct: Bytes, key: Key, salt: Bytes, counter: nat, keyId: int,
                  video: bool, keyFrame: bool, resolver: Byte -> Option<Key>)
    requires |salt| == SALT_BYTES && resolver(keyId % 256) == Some(key) && |ct| >= TAG_BYTES
    requires |head| == Min(ClearPrefixLength(video, keyFrame), |head| + |ct| - TAG_BYTES)
    ensures var body := g.open(key, Iv(salt, counter), head, ct);
            DecryptFrame(g, head + ct + Trailer(salt, counter, keyId), video, keyFrame, resolver)
            == if body.None? then NotAuthentic else Plain(head + body.value)
  {
    hide Trailer, Iv, Value48;
    Parts(head, ct, salt, counter, keyId);
    SameIv(salt, counter, counter % POW48);
  }

  /**
   * Opening undoes sealing, for frames of every length.  The two sides need not even
   * agree on the kind of frame, as long as they leave the same number of bytes clear.
   */
  lemma DecryptUndoesEncrypt(g: Aead, plain: Bytes, video: bool, keyFrame: bool,
                             key: Key, salt: Bytes, counter: nat, keyId: int,
                             video': bool, keyFrame': bool, resolver: Byte -> Option<Key>)
    requires Opens(g) && |salt| == SALT_BYTES
    requires Min(ClearPrefixLength(video, keyFrame), |plain|) == Min(ClearPrefixLength(video', keyFrame'), |plain|)
    requires resolver(keyId % 256) == Some(key)
    ensures var data := EncryptFrame(g, plain, video, keyFrame, key, salt, counter, keyId);
            DecryptFrame(g, data, video', keyFrame', resolver) == Plain(plain)
  {
    hide DecryptFrame, Trailer, Iv;
    var prefix := Min(ClearPrefixLength(video, keyFrame), |plain|);
    var head, body := plain[..prefix], plain[prefix..];
    DecryptOf(g, head, g.seal(key, Iv(salt, counter), head, body), key, salt, counter, keyId, video', keyFrame', resolver);
    assert head + body == plain;
  }

  /**
   * What the forwarding server sees of a frame: nothing of audio, the first ten bytes of a key frame and the
   * first byte of any other; all the rest is sealed, together with those bytes, and 29 bytes are added.
   */
  lemma ServerSees(g: Aead, plain: Bytes, video: bool, keyFrame: bool, key: Key, salt: Bytes, counter: nat, keyId: int)
    requires Opens(g) && |salt| == SALT_BYTES
    ensures var data := EncryptFrame(g, plain, video, keyFrame, key, salt, counter, keyId);
            var most := if !video then 0 else if keyFrame then 10 else 1;
            var seen := if |plain| < most then |plain| else most;
            && |data| == |plain| + 29 && data[..seen] == plain[..seen]
            && data[seen..|plain| + 16] == g.seal(key, Iv(salt, counter), plain[..seen], plain[seen..])
            && data[|plain| + 16..] == Trailer(salt, counter, keyId)
  {
    hide Iv, Trailer;
    var most := if !video then 0 else if keyFrame then 10 else 1;
    var seen := if |plain| < most then |plain| else most;
    var ct := g.seal(key, Iv(salt, counter), plain[..seen], plain[seen..]);
    assert |ct| == |plain| - seen + TAG_BYTES;
  }

  /** How a frame was sealed. */
  datatype Sealing = Sealing(key: Key, salt: Bytes, counter: nat, keyId: Byte)

  predicate SealedAs(g: Aead, data: Bytes, video: bool, keyFrame: bool, resolver: Byte -> Option<Key>,
                     s: Sealing, plain: Bytes) {
    && |s.salt| == SALT_BYTES && resolver(s.keyId) == Some(s.key)
    && data == EncryptFrame(g, plain, video, keyFrame, s.key, s.salt, s.counter, s.keyId)
  }

  /**
   * What opens was sealed: with a resolver's key, under the salt, counter and key id
   * of its own trailer, from the very frame that comes out.  Every other frame is too
   * short, for want of a key, or not authentic, in this order.
   */
  lemma OnlySealedFramesOpen(g: Aead, data: Bytes, video: bool, keyFrame: bool, resolver: Byte -> Option<Key>)
    requires Opens(g) && OnlyGenuine(g)
    ensures var d := DecryptFrame(g, data, video, keyFrame, resolver);
            && (d.Plain? <==> exists s, plain :: SealedAs(g, data, video, keyFrame, resolver, s, plain))
            && (forall s, plain :: SealedAs(g, data, video, keyFrame, resolver, s, plain) ==> d == Plain(plain))
            && (d.TooShort? <==> |data| < OVERHEAD)
            && (d.NoKey? <==> |data| >= OVERHEAD && resolver(data[|data| - 1]).None?)
            && (d.NotAuthentic? <==>
                  && |data| >= OVERHEAD && resolver(data[|data| - 1]).Some?
                  && forall s, plain :: !SealedAs(g, data, video, keyFrame, resolver, s, plain))
  {
    hide EncryptFrame, DecryptFrame;
    Refusals(g, data, video, keyFrame, resolver);
    var d := DecryptFrame(g, data, video, keyFrame, resolver);
    if d.Plain? {
      var s := OpenedWasSealed(g, data, video, keyFrame, resolver);
    }
    forall s, plain | SealedAs(g, data, video, keyFrame, resolver, s, plain) ensures d == Plain(plain) {
      DecryptUndoesEncrypt(g, plain, video, keyFrame, s.key, s.salt, s.counter, s.keyId, video, keyFrame, resolver);
    }
  }

  lemma OpenedWasSealed(g: Aead, data: Bytes, video: bool, keyFrame: bool, resolver: Byte -> Option<Key>)
    returns (s: Sealing)
    requires Opens(g) && OnlyGenuine(g) && DecryptFrame(g, data, video, keyFrame, resolver).Plain?
    ensures SealedAs(g, data, video, keyFrame, resolver, s, DecryptFrame(g, data, video, keyFrame, resolver).frame)
  {
    hide DecryptFrame, Trailer, Value48, Opens, OnlyGenuine, SealedAs;
    LongEnough(g, data, video, keyFrame, resolver);
    var n := |data|;
    var prefix := Min(ClearPrefixLength(video, keyFrame), n - OVERHEAD);
    TakenApart(data, prefix);
    s := Sealing(resolver(data[n - 1]).value, data[n - TRAILER_BYTES..n - 7], Value48(data[n - 7..n - 1]), data[n - 1]);
    PartsWereSealed(g, data[..prefix], data[prefix..n - TRAILER_BYTES], s, video, keyFrame, resolver);
  }

  /** The same for a frame given by its parts. */
  lemma PartsWereSealed(g: Aead, head: Bytes, ct: Bytes, s: Sealing, video: bool, keyFrame: bool, resolver: Byte -> Option<Key>)
    requires Opens(g) && OnlyGenuine(g) && |s.salt| == SALT_BYTES && resolver(s.keyId) == Some(s.key)
    requires |ct| >= TAG_BYTES && |head| == Min(ClearPrefixLength(video, keyFrame), |head| + |ct| - TAG_BYTES)
    requires DecryptFrame(g, head + ct + Trailer(s.salt, s.counter, s.keyId), video, keyFrame, resolver).Plain?
    ensures var data := head + ct + Trailer(s.salt, s.counter, s.keyId);
            SealedAs(g, data, video, keyFrame, resolver, s, DecryptFrame(g, data, video, keyFrame, resolver).frame)
  {
    hide DecryptFrame, EncryptFrame, Trailer, Iv, Opens, OnlyGenuine;
    DecryptOf(g, head, ct, s.key, s.salt, s.counter, s.keyId, video, keyFrame, resolver);
    Genuine(g, s.key, Iv(s.salt, s.counter), head, ct);
    EncryptOf(g, head, g.open(s.key, Iv(s.salt, s.counter), head, ct).value, video, keyFrame, s);
  }

  lemma LongEnough(g: Aead, data: Bytes, video: bool, keyFrame: bool, resolver: Byte -> Option<Key>)
    requires DecryptFrame(g, data, video, keyFrame, resolver).Plain?
    ensures |data| >= OVERHEAD && resolver(data[|data| - 1]).Some?
  {
  }

  /** A frame is its clear prefix, its sealed rest and its trailer. */
  lemma TakenApart(data: Bytes, prefix: nat)
    requires prefix <= |data| - OVERHEAD
    ensures var n := |data|;
            data == data[..prefix] + data[prefix..n - TRAILER_BYTES]
                    + Trailer(data[n - TRAILER_BYTES..n - 7], Value48(data[n - 7..n - 1]), data[n - 1])
  {
    hide Value48, Uint48;
    var n := |data|;
    Uint48Onto(data[n - 7..n - 1]);
  }

  lemma Genuine(g: Aead, key: Key, iv: Bytes, aad: Bytes, ct: Bytes)
    requires Opens(g) && OnlyGenuine(g) && g.open(key, iv, aad, ct).Some?
    ensures var text := g.open(key, iv, aad, ct).value; ct == g.seal(key, iv, aad, text) && |ct| == |text| + TAG_BYTES
  {
  }

  lemma EncryptOf(g: Aead, head: Bytes, body: Bytes, video: bool, keyFrame: bool, s: Sealing)
    requires |s.salt| == SALT_BYTES && |head| == Min(ClearPrefixLength(video, keyFrame), |head| + |body|)
    ensures EncryptFrame(g, head + body, video, keyFrame, s.key, s.salt, s.counter, s.keyId)
            == head + g.seal(s.key, Iv(s.salt, s.counter), head, body) + Trailer(s.salt, s.counter, s.keyId)
  {
    hide Iv, Trailer;
    assert (head + body)[..|head|] == head && (head + body)[|head|..] == body;
  }

  /** The two refusals that do not depend on the cipher; a frame long enough is never malformed. */
  lemma Refusals(g: Aead, data: Bytes, video: bool, keyFrame: bool, resolver: Byte -> Option<Key>)
    ensures var d := DecryptFrame(g, data, video, keyFrame, resolver);
            && (d.TooShort? <==> |data| < OVERHEAD)
            && (d.NoKey? <==> |data| >= OVERHEAD && resolver(data[|data| - 1]).None?)
            && !d.Malformed?
  {
  }

  /** The trailer as it is written, into a buffer. */
  method BuildTrailer(salt: Bytes, counter: nat, keyId: int) returns (trailer: array<Byte>)
    requires |salt| == SALT_BYTES
    ensures fresh(trailer) && trailer[..] == Trailer(salt, counter, keyId)
  {
    hide Uint48;
    trailer := new Byte[TRAILER_BYTES](_ => 0);
    var i := 0;
    while i < SALT_BYTES
      invariant 0 <= i <= SALT_BYTES
      invariant trailer[..i] == salt[..i]
    {
      trailer[i] := salt[i];
      i := i + 1;
    }
    WriteUint48(trailer, SALT_BYTES, counter);
    assert trailer[..SALT_BYTES + 6] == salt + Uint48(counter);
    trailer[SALT_BYTES + 6] := keyId % 256;
    assert trailer[..SALT_BYTES + 6] == salt + Uint48(counter);
  }

  // The encryptor

  /** One frame reaching the encryptor, with the worker's state at that moment. */
  datatype Input = Input(plain: Bytes, keyFrame: bool, cleartext: bool, key: Option<Key>, keyId: int, sealFails: bool)

  /** A frame uses up a number unless it goes out as it is or is dropped for want of a key. */
  predicate UsesNumber(f: Input) { !f.cleartext && f.key.Some? }

  class Encryptor {
    const cipher: Aead
    const video: bool
    const salt: Bytes
    var counter: nat
    ghost var sealed: seq<(Key, Bytes)>  // every key and IV that the cipher was given

    ghost predicate Valid()
      reads this
    {
      && |salt| == SALT_BYTES && |sealed| == counter
      && forall i :: 0 <= i < |sealed| ==> sealed[i].1 == Iv(salt, i)
    }

    constructor (cipher: Aead, video: bool, salt: Bytes)
      requires |salt| == SALT_BYTES
      ensures Valid() && counter == 0 && this.cipher == cipher && this.video == video && this.salt == salt
    {
      this.cipher, this.video, this.salt := cipher, video, salt;
      counter, sealed := 0, [];
    }

    method Transform(f: Input) returns (out: Option<Bytes>)
      requires Valid()
      modifies this
      ensures Valid()
      ensures counter == old(counter) + (if UsesNumber(f) then 1 else 0)
      ensures sealed == old(sealed) + (if UsesNumber(f) then [(f.key.value, Iv(salt, old(counter)))] else [])
      ensures f.cleartext ==> out == Some(f.plain)
      ensures !f.cleartext ==>
                out == if f.key.None? || f.sealFails then None
                       else Some(EncryptFrame(cipher, f.plain, video, video && f.keyFrame,
                                              f.key.value, salt, old(counter), f.keyId))
    {
      if f.cleartext {
        return Some(f.plain);
      }
      if f.key.None? {
        return None;
      }
      var n := counter;
      counter, sealed := counter + 1, sealed + [(f.key.value, Iv(salt, counter))];
      if f.sealFails {
        return None;
      }
      out := Some(EncryptFrame(cipher, f.plain, video, video && f.keyFrame, f.key.value, salt, n, f.keyId));
    }

    /** Within one transform two frames are sealed under the same IV exactly if they are a multiple of 2^48 apart. */
    lemma IvRepeatsOnlyAfterAll(i: nat, j: nat)
      requires Valid() && i < |sealed| && j < |sealed|
      ensures sealed[i].1 == sealed[j].1 <==> i % POW48 == j % POW48
    {
      SameIv(salt, i, j);
    }

    /** So none repeats over the first 2^48 frames, whatever keys were in use. */
    lemma NoIvRepeats()
      requires Valid() && counter <= POW48
      ensures forall i, j :: 0 <= i < j < |sealed| ==> sealed[i] != sealed[j] && sealed[i].1 != sealed[j].1
    {
      hide Iv;
      forall i, j | 0 <= i < j < |sealed| ensures sealed[i].1 != sealed[j].1 {
        IvRepeatsOnlyAfterAll(i, j);
        Below48(i, j);
      }
    }
  }

  lemma Below48(i: nat, j: nat)
    requires i < j < POW48
    ensures i % POW48 != j % POW48
  {
  }
}
