/**
 * Credential encryption helpers (backend/utils/crypto.ts): the key derived
 * from `CREDENTIALS_SECRET`, the `iv ‖ tag ‖ ciphertext` frame that
 * `encryptJSON` writes and `decryptJSON` splits, and the id and date helpers.
 * AES-256-GCM, UTF-8, base64 and JSON are parameters with stated round-trip
 * properties; randomness (the IV, `Math.random`) is an input.
 */
module Crypto {
  import opened Common
  import opened Js

  newtype byte = x: int | 0 <= x < 256
  type Bytes = seq<byte>

  const DefaultSecret := "dev-secret-32-bytes-placeholder"
  const KeyLength := 32
  const IvLength := 12
  const TagLength := 16

  /** `c` repeated `n` times */
  function Repeat(c: char, n: nat): (r: string)
    ensures |r| == n && forall i :: 0 <= i < n ==> r[i] == c
  {
    if n == 0 then "" else [c] + Repeat(c, n - 1)
  }

  /** `ENC_KEY`: the secret (or the development default) padded with '0' and cut to 32 characters */
  function DeriveKey(secret: Option<string>): (k: string)
    ensures |k| == KeyLength
    ensures var s := OrStr(secret, DefaultSecret);
      (|s| >= KeyLength ==> k == s[..KeyLength]) && (|s| < KeyLength ==> k == s + Repeat('0', KeyLength - |s|))
  {
    var s := OrStr(secret, DefaultSecret);
    var padded := if |s| >= KeyLength then s else s + Repeat('0', KeyLength - |s|);
    padded[..KeyLength]
  }

  /** The development default is one character short and gains a single '0'; an empty secret counts as unset */
  lemma DefaultKeyIsPaddedOnce()
    ensures |DefaultSecret| == 31
    ensures DeriveKey(None) == DefaultSecret + "0"
    ensures DeriveKey(Some("")) == DeriveKey(None)
  {
    assert Repeat('0', 1) == "0";
  }

  /** Two secrets agreeing on their first 32 characters give the same key */
  lemma KeyIgnoresSecretTail(a: string, b: string)
    requires |a| >= KeyLength && |b| >= KeyLength && a[..KeyLength] == b[..KeyLength]
    ensures DeriveKey(Some(a)) == DeriveKey(Some(b))
  {
  }

  /** `Buffer.concat([iv, tag, enc])` */
  function Frame(iv: Bytes, tag: Bytes, enc: Bytes): (buf: Bytes)
    ensures |buf| == |iv| + |tag| + |enc|
  {
    iv + tag + enc
  }

  /** `subarray(0, 12)`, `subarray(12, 28)`, `subarray(28)`: offsets past the end are clamped */
  function Unframe(buf: Bytes): (parts: (Bytes, Bytes, Bytes))
    ensures Frame(parts.0, parts.1, parts.2) == buf
    ensures |buf| >= IvLength + TagLength ==> |parts.0| == IvLength && |parts.1| == TagLength
    ensures |buf| < IvLength + TagLength ==> parts.2 == []
  {
    var a := if |buf| < IvLength then |buf| else IvLength;
    var b := if |buf| < IvLength + TagLength then |buf| else IvLength + TagLength;
    assert buf[..a] + buf[a..b] + buf[b..] == buf;
    (buf[..a], buf[a..b], buf[b..])
  }

  /** Splitting at 12 and 28 recovers exactly the three parts of any frame with a 12-byte IV and 16-byte tag */
  lemma UnframeFrame(iv: Bytes, tag: Bytes, enc: Bytes)
    requires |iv| == IvLength && |tag| == TagLength
    ensures Unframe(Frame(iv, tag, enc)) == (iv, tag, enc)
  {
    var buf := Frame(iv, tag, enc);
    assert buf[..IvLength] == iv;
    assert buf[IvLength..IvLength + TagLength] == tag;
    assert buf[IvLength + TagLength..] == enc;
  }

  /**
   * AES-256-GCM as a pair of functions: encryption of a plaintext under a key
   * and IV gives (ciphertext, tag); decryption gives the plaintext or fails
   * (`decipher.final()` throws on a bad tag, key or IV).
   */
  datatype Cipher = Cipher(
    encrypt: (string, Bytes, Bytes) -> (Bytes, Bytes),
    decrypt: (string, Bytes, Bytes, Bytes) -> Option<Bytes>)

  /** GCM's guarantee: a 16-byte tag, and decryption with the same key, IV and tag returns the plaintext */
  ghost predicate CipherCorrect(c: Cipher) {
    forall key, iv, plain ::
      |c.encrypt(key, iv, plain).1| == TagLength &&
      c.decrypt(key, iv, c.encrypt(key, iv, plain).1, c.encrypt(key, iv, plain).0) == Some(plain)
  }

  /**
   * JSON, UTF-8 and base64. `stringify` is None where `JSON.stringify` gives
   * `undefined` (which the cipher then rejects) and `parse` is None where
   * `JSON.parse` throws.
   */
  datatype Codec = Codec(
    stringify: Value -> Option<string>,
    parse: string -> Option<Value>,
    utf8Encode: string -> Bytes,
    utf8Decode: Bytes -> string,
    base64Encode: Bytes -> string,
    base64Decode: string -> Bytes)

  /** UTF-8 and base64 decoding undo encoding */
  ghost predicate CodecCorrect(c: Codec) {
    (forall s :: c.utf8Decode(c.utf8Encode(s)) == s) &&
    (forall b :: c.base64Decode(c.base64Encode(b)) == b)
  }

  /** `encryptJSON(obj)` with `iv` the 12 random bytes; None where it throws */
  function EncryptJSON(cipher: Cipher, codec: Codec, secret: Option<string>, iv: Bytes, obj: Value): (r: Option<string>)
    requires |iv| == IvLength
    ensures r.Some? <==> codec.stringify(obj).Some?
    ensures r.Some? ==> exists tag, enc :: r.value == codec.base64Encode(Frame(iv, tag, enc))
  {
    match codec.stringify(obj)
    case None => None
    case Some(json) =>
      var sealed := cipher.encrypt(DeriveKey(secret), iv, codec.utf8Encode(json));
      Some(codec.base64Encode(Frame(iv, sealed.1, sealed.0)))
  }

  /** `decryptJSON(data)`: total; every failure (bad frame, tag, key or JSON) gives `null` */
  function DecryptJSON(cipher: Cipher, codec: Codec, secret: Option<string>, data: string): (r: Value)
    ensures var parts := Unframe(codec.base64Decode(data));
      cipher.decrypt(DeriveKey(secret), parts.0, parts.1, parts.2).None? ==> r == Null
    ensures var parts := Unframe(codec.base64Decode(data));
      var plain := cipher.decrypt(DeriveKey(secret), parts.0, parts.1, parts.2);
      plain.Some? ==> r == codec.parse(codec.utf8Decode(plain.value)).GetOr(Null)
  {
    var parts := Unframe(codec.base64Decode(data));
    match cipher.decrypt(DeriveKey(secret), parts.0, parts.1, parts.2)
    case None => Null
    case Some(plain) =>
      match codec.parse(codec.utf8Decode(plain))
      case None => Null
      case Some(v) => v
  }

  /** Decrypting what was encrypted under the same secret gives back `JSON.parse(JSON.stringify(obj))` */
  lemma DecryptEncrypt(cipher: Cipher, codec: Codec, secret: Option<string>, iv: Bytes, obj: Value)
    requires CipherCorrect(cipher) && CodecCorrect(codec)
    requires |iv| == IvLength
    requires codec.stringify(obj).Some?
    ensures DecryptJSON(cipher, codec, secret, EncryptJSON(cipher, codec, secret, iv, obj).value)
         == codec.parse(codec.stringify(obj).value).GetOr(Null)
  {
    var key := DeriveKey(secret);
    var json := codec.stringify(obj).value;
    var plain := codec.utf8Encode(json);
    var sealed := cipher.encrypt(key, iv, plain);
    var buf := Frame(iv, sealed.1, sealed.0);
    assert codec.base64Decode(codec.base64Encode(buf)) == buf;
    UnframeFrame(iv, sealed.1, sealed.0);
    assert cipher.decrypt(key, iv, sealed.1, sealed.0) == Some(plain);
    assert codec.utf8Decode(plain) == json;
  }

  /** Whatever `JSON.stringify` and `JSON.parse` agree on comes back unchanged */
  lemma DecryptEncryptIdentity(cipher: Cipher, codec: Codec, secret: Option<string>, iv: Bytes, obj: Value)
    requires CipherCorrect(cipher) && CodecCorrect(codec)
    requires |iv| == IvLength
    requires codec.stringify(obj).Some? && codec.parse(codec.stringify(obj).value) == Some(obj)
    ensures DecryptJSON(cipher, codec, secret, EncryptJSON(cipher, codec, secret, iv, obj).value) == obj
  {
    DecryptEncrypt(cipher, codec, secret, iv, obj);
  }

  /** `str.substr(start, len)` for a non-negative start: clamped to the string */
  function Substr(s: string, start: nat, len: nat): (r: string)
    ensures start >= |s| ==> r == ""
    ensures start < |s| ==> |r| == (if len <= |s| - start then len else |s| - start) && StartsWith(s[start..], r)
  {
    if start >= |s| then "" else s[start..if start + len <= |s| then start + len else |s|]
  }

  /** `generateUniqueId()`, given `Math.random().toString(36)` */
  function GenerateUniqueId(random36: string): (r: string)
    ensures StartsWith(r, "id-") && |r| <= 3 + 16
  {
    "id-" + Substr(random36, 2, 16)
  }

  /** The id carries up to 16 characters of the fraction after "0." */
  lemma UniqueIdUsesFraction(fraction: string)
    ensures GenerateUniqueId("0." + fraction)[3..] == fraction[..if |fraction| <= 16 then |fraction| else 16]
  {
    var s := "0." + fraction;
    assert s[2..] == fraction;
    if |s| > 2 {
      assert Substr(s, 2, 16) == fraction[..if |fraction| <= 16 then |fraction| else 16];
    }
  }

  /** `s.split('T')[0]`: everything before the first 'T' */
  function BeforeFirstT(s: string): (r: string)
    ensures StartsWith(s, r) && 'T' !in r
    ensures |r| < |s| ==> s[|r|] == 'T'
  {
    if |s| == 0 || s[0] == 'T' then "" else [s[0]] + BeforeFirstT(s[1..])
  }

  /** `formatDate(date)`, given `date.toISOString()` */
  function FormatDate(iso: string): (r: string)
    ensures StartsWith(iso, r) && 'T' !in r
  {
    BeforeFirstT(iso)
  }

  /** The part before a 'T' that the prefix does not contain */
  lemma {:induction false} BeforeFirstTOf(a: string, b: string)
    requires 'T' !in a
    ensures BeforeFirstT(a + "T" + b) == a
  {
    if |a| > 0 {
      assert (a + "T" + b)[1..] == a[1..] + "T" + b;
      BeforeFirstTOf(a[1..], b);
    }
  }

  /** On an ISO timestamp `YYYY-MM-DDTHH:mm:ss.sssZ` the result is its date part */
  lemma FormatDateOfIso(date: string, time: string)
    requires |date| == 10 && 'T' !in date
    ensures FormatDate(date + "T" + time) == date
  {
    BeforeFirstTOf(date, time);
  }
}
