/**
  The library code the repository stands on - SHA-256, the codecs, AES-256-GCM, RSA-OAEP - as one record of
  functions. Every theorem is stated for all records that satisfy the laws in `Lawful`.
 */
module Primitives {
  import opened Outcomes

  newtype byte = x: int | 0 <= x < 256
  type Bytes = seq<byte>

  const AES_256_KEY_SIZE := 32
  const NONCE_SIZE := 12
  const TAG_SIZE := 16

  datatype CompressionType = Uncompressed | Zstd | Lz4 | Xz | Gzip
  datatype Compression = Compression(compType: CompressionType, level: Option<int>)

  /** The two halves of an RSA pair; a pair is recognised by its shared id. */
  datatype PublicKey = PublicKey(id: nat)
  datatype PrivateKey = PrivateKey(id: nat)

  function PublicOf(priv: PrivateKey): PublicKey { PublicKey(priv.id) }

  datatype Primitives = Primitives(
    sha: Bytes -> string,                                  // SHA-256 as lower-case hex text
    encode: (Compression, Bytes) -> Bytes,                 // a whole codec stream
    decode: (CompressionType, Bytes) -> Option<Bytes>,
    seal: (Bytes, Bytes, Bytes) -> Bytes,                  // key, nonce, plaintext
    open: (Bytes, Bytes, Bytes) -> Option<Bytes>,          // key, nonce, ciphertext and tag
    wrap: (PublicKey, Bytes, nat) -> Bytes,                // public key, symmetric key, OAEP seed
    unwrap: (PrivateKey, Bytes) -> Option<Bytes>,
    fingerprint: PublicKey -> string
  )

  predicate IsHexDigit(c: char) { '0' <= c <= '9' || 'a' <= c <= 'f' }

  /** The text of a hash: at least three hex digits. (The length 64 is not used, and an injective hash cannot have
      it.) */
  predicate IsHex(h: string) {
    |h| >= 3 && forall i | 0 <= i < |h| :: IsHexDigit(h[i])
  }

  ghost predicate HashLaw(p: Primitives) {
    && (forall b :: IsHex(p.sha(b)))
    && (forall a, b :: p.sha(a) == p.sha(b) ==> a == b)
  }

  ghost predicate CodecLaw(p: Primitives) {
    forall c: Compression, b :: p.decode(c.compType, p.encode(c, b)) == Some(b)
  }

  /** AES-256-GCM, section 5.2 of RFC 5116: opening inverts sealing, and the tag adds 16 bytes. */
  ghost predicate CipherLaw(p: Primitives) {
    forall key, nonce, plain :: p.open(key, nonce, p.seal(key, nonce, plain)) == Some(plain)
                                && |p.seal(key, nonce, plain)| == |plain| + TAG_SIZE
  }

  /** RSA-OAEP, section 7.1 of RFC 8017: only the matching private key unwraps; fingerprints are hashes. */
  ghost predicate KeyWrapLaw(p: Primitives) {
    && (forall pub, key, seed, priv :: p.unwrap(priv, p.wrap(pub, key, seed)) ==
                                       if pub == PublicOf(priv) then Some(key) else None)
    && (forall a, b :: p.fingerprint(a) == p.fingerprint(b) ==> a == b)
  }

  ghost predicate Lawful(p: Primitives) {
    HashLaw(p) && CodecLaw(p) && CipherLaw(p) && KeyWrapLaw(p)
  }

  // A concrete record that satisfies the laws: nothing below is stated about an empty set of primitives.

  function HexDigit(n: nat): char
    requires n < 16
  {
    if n < 10 then '0' + n as char else 'a' + (n - 10) as char
  }

  function HexPair(b: byte): string { [HexDigit(b as int / 16), HexDigit(b as int % 16)] }

  function HexText(b: Bytes): string {
    if b == [] then "" else HexPair(b[0]) + HexText(b[1..])
  }

  lemma {:induction false} HexTextDigits(b: Bytes)
    ensures forall i | 0 <= i < |HexText(b)| :: IsHexDigit(HexText(b)[i])
  {
    if b != [] { HexTextDigits(b[1..]); }
  }

  lemma HexPairInjective(a: byte, b: byte)
    requires HexPair(a) == HexPair(b)
    ensures a == b
  {
    assert HexPair(a)[0] == HexPair(b)[0] && HexPair(a)[1] == HexPair(b)[1];
  }

  lemma {:induction false} HexTextInjective(a: Bytes, b: Bytes)
    requires HexText(a) == HexText(b)
    ensures a == b
  {
    if a == [] || b == [] {
    } else {
      var s, t := HexText(a), HexText(b);
      assert HexPair(a[0]) == s[..2] && HexPair(b[0]) == t[..2];
      HexPairInjective(a[0], b[0]);
      assert s[2..] == HexText(a[1..]) && t[2..] == HexText(b[1..]);
      HexTextInjective(a[1..], b[1..]);
      assert a == [a[0]] + a[1..] && b == [b[0]] + b[1..];
    }
  }

  function Unary(n: nat): Bytes { seq(n, _ => 1) }

  function Ones(b: Bytes): nat {
    if b != [] && b[0] == 1 then 1 + Ones(b[1..]) else 0
  }

  lemma {:induction false} OnesUnary(n: nat, rest: Bytes)
    ensures Ones(Unary(n) + [0] + rest) == n
  {
    var b := Unary(n) + [0] + rest;
    if n > 0 {
      OnesUnary(n - 1, rest);
      assert b[1..] == Unary(n - 1) + [0] + rest;
    }
  }

  /** A tag by which some keys are told apart: those with different first bytes. */
  function Tag(key: Bytes): Bytes { seq(TAG_SIZE, _ => if key == [] then 0 else key[0]) }

  function Toy(): Primitives {
    Primitives(
      b => "000" + HexText(b),
      (c, b) => b,
      (t, b) => Some(b),
      (key, nonce, plain) => plain + Tag(key),
      (key, nonce, cipher) =>
        if |cipher| < TAG_SIZE || cipher[|cipher| - TAG_SIZE..] != Tag(key) then None
        else Some(cipher[..|cipher| - TAG_SIZE]),
      (pub: PublicKey, key, seed) => Unary(pub.id) + [0] + key,
      (priv: PrivateKey, wrapped) =>
        if Ones(wrapped) == priv.id && priv.id < |wrapped| then Some(wrapped[priv.id + 1..]) else None,
      (pub: PublicKey) => seq(pub.id, _ => 'f'))
  }

  lemma LawfulPrimitivesExist()
    ensures Lawful(Toy())
  {
    var p := Toy();
    forall b ensures IsHex(p.sha(b)) { HexTextDigits(b); }
    forall a, b | p.sha(a) == p.sha(b) ensures a == b {
      assert p.sha(a)[3..] == HexText(a) && p.sha(b)[3..] == HexText(b);
      HexTextInjective(a, b);
    }
    forall key: Bytes, nonce: Bytes, plain: Bytes
      ensures p.open(key, nonce, p.seal(key, nonce, plain)) == Some(plain)
    {
      var c := p.seal(key, nonce, plain);
      assert c[..|c| - TAG_SIZE] == plain && c[|c| - TAG_SIZE..] == Tag(key);
    }
    forall pub, key, seed, priv
      ensures p.unwrap(priv, p.wrap(pub, key, seed)) == if pub == PublicOf(priv) then Some(key) else None
    {
      var w := p.wrap(pub, key, seed);
      OnesUnary(pub.id, key);
      if pub == PublicOf(priv) { assert w[priv.id + 1..] == key; }
    }
    forall a, b | p.fingerprint(a) == p.fingerprint(b) ensures a == b {
      assert |p.fingerprint(a)| == a.id && |p.fingerprint(b)| == b.id;
    }
  }

  /** What opens under one key does not open under a key with another first byte. */
  lemma ToyTellsKeys(key: Bytes, other: Bytes, nonce: Bytes, cipher: Bytes)
    requires key != [] && other != [] && key[0] != other[0] && Toy().open(key, nonce, cipher).Some?
    ensures Toy().open(other, nonce, cipher) == None
  {
    assert Tag(key)[0] == key[0] && Tag(other)[0] == other[0];
  }
}
