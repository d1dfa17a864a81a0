/**
  Encrypted objects: one frame per object, the nonce followed by ciphertext and tag. The encoder buffers
  everything written to it and puts the frame down when it is closed, once.
 */
module AesGcm {
  import opened Outcomes
  import opened Primitives

  function Frame(p: Primitives, key: Bytes, nonce: Bytes, plain: Bytes): Bytes {
    nonce + p.seal(key, nonce, plain)
  }

  /** Key sizes the AES block cipher accepts. */
  predicate IsCipherKey(key: Bytes) { |key| == 16 || |key| == 24 || |key| == 32 }

  function Decode(p: Primitives, source: Bytes, key: Bytes): Result<Bytes> {
    if !IsCipherKey(key) then Err(Rejected)
    else if |source| < NONCE_SIZE then Err(Broken)
    else match p.open(key, source[..NONCE_SIZE], source[NONCE_SIZE..])
      case None => Err(Broken)
      case Some(plain) => Ok(plain)
  }

  /** A whole frame has 12 + |plain| + 16 bytes and decodes to the plaintext it was made of. */
  lemma FrameRoundTrip(p: Primitives, key: Bytes, nonce: Bytes, plain: Bytes)
    requires Lawful(p) && |key| == AES_256_KEY_SIZE && |nonce| == NONCE_SIZE
    ensures Decode(p, Frame(p, key, nonce, plain), key) == Ok(plain)
    ensures |Frame(p, key, nonce, plain)| == NONCE_SIZE + |plain| + TAG_SIZE
    ensures Frame(p, key, nonce, plain)[..12] == nonce
    ensures p.open(key, nonce, Frame(p, key, nonce, plain)[12..]) == Some(plain)
  {
    var frame := Frame(p, key, nonce, plain);
    assert frame[..NONCE_SIZE] == nonce && frame[NONCE_SIZE..] == p.seal(key, nonce, plain);
    assert p.open(key, nonce, p.seal(key, nonce, plain)) == Some(plain);
  }

  /** What decodes, and to what: under an AES key, at least a nonce, and what opens under it. */
  lemma DecodesExactly(p: Primitives, source: Bytes, key: Bytes)
    ensures forall plain :: Decode(p, source, key) == Ok(plain) <==>
              && (|key| == 16 || |key| == 24 || |key| == 32) && |source| >= 12
              && p.open(key, source[..12], source[12..]) == Some(plain)
  {
  }

  /** What the next call of a writer does: take some bytes, or take some bytes and report an error. */
  datatype Reply = Accepts(count: nat) | Fails(count: nat)

  /** A writer with any behaviour the script spells out; past its end it takes everything. */
  class Destination {
    var written: Bytes
    var script: seq<Reply>

    constructor (script: seq<Reply>)
      ensures written == [] && this.script == script
    {
      written := [];
      this.script := script;
    }

    method Write(data: Bytes) returns (n: nat, ok: bool)
      modifies this
      ensures n <= |data| && written == old(written) + data[..n]
      ensures old(script) == [] ==> ok && n == |data| && script == []
    {
      n, ok := |data|, true;
      if script != [] {
        n := if script[0].count < |data| then script[0].count else |data|;
        ok := script[0].Accepts?;
        script := script[1..];
      }
      written := written + data[..n];
    }
  }

  method WriteFull(destination: Destination, data: Bytes) returns (ok: bool)
    modifies destination
    ensures ok ==> destination.written == old(destination.written) + data
    ensures old(destination.written) <= destination.written <= old(destination.written) + data
    ensures old(destination.script) == [] ==> ok && destination.script == []
  {
    var rest := data;
    while |rest| > 0
      invariant destination.written + rest == old(destination.written) + data
      invariant old(destination.written) <= destination.written
      invariant old(destination.script) == [] ==> destination.script == []
    {
      ghost var before := destination.written;
      var n, accepted := destination.Write(rest);
      assert before + rest == destination.written + rest[n..];
      if !accepted || n == 0 {
        return false;
      }
      rest := rest[n..];
    }
    return true;
  }

  class Encoder {
    const p: Primitives
    const destination: Destination
    const key: Bytes
    var buffer: Bytes
    var closed: bool
    var closeErr: Option<Fault>

    constructor (p: Primitives, destination: Destination, key: Bytes)
      requires |key| == AES_256_KEY_SIZE
      ensures this.p == p && this.destination == destination && this.key == key
      ensures buffer == [] && !closed && closeErr == None
    {
      this.p, this.destination, this.key := p, destination, key;
      buffer, closed, closeErr := [], false, None;
    }

    method Write(data: Bytes)
      modifies this
      ensures buffer == old(buffer) + data && closed == old(closed) && closeErr == old(closeErr)
    {
      buffer := buffer + data;
    }

    /** `entropy` is what the random source yields: a nonce, or an error. Only the first call acts. */
    method Close(entropy: Option<Bytes>) returns (err: Option<Fault>)
      modifies this, destination
      ensures closed && err == closeErr && buffer == old(buffer)
      ensures old(closed) ==> err == old(closeErr) && destination.written == old(destination.written)
      ensures !old(closed) && entropy == None ==> err.Some? && destination.written == old(destination.written)
      ensures !old(closed) && entropy.Some? ==>
                var frame := Frame(p, key, entropy.value, old(buffer));
                && (err.None? ==> destination.written == old(destination.written) + frame)
                && old(destination.written) <= destination.written <= old(destination.written) + frame
                && (old(destination.script) == [] ==> err.None?)
    {
      if !closed {
        closed := true;
        if entropy.None? {
          closeErr := Some(Broken);
        } else {
          closeErr := None;
          var nonce, sealed := entropy.value, p.seal(key, entropy.value, buffer);
          ghost var start := destination.written;
          var ok := WriteFull(destination, nonce);
          if ok {
            assert start + (nonce + sealed) == (start + nonce) + sealed;
            ok := WriteFull(destination, sealed);
          } else {
            assert start + nonce <= start + (nonce + sealed);
          }
          if !ok {
            closeErr := Some(Broken);
          }
        }
      }
      return closeErr;
    }
  }

  /** Encoders exist for 32-byte keys only, although `Decode` takes every AES key size. */
  method NewEncoder(p: Primitives, destination: Destination, key: Bytes) returns (encoder: Option<Encoder>)
    ensures encoder.Some? <==> |key| == AES_256_KEY_SIZE
    ensures encoder.Some? ==>
              var e := encoder.value;
              && fresh(e) && e.p == p && e.destination == destination && e.key == key
              && e.buffer == [] && !e.closed && e.closeErr == None
  {
    if |key| != AES_256_KEY_SIZE {
      return None;
    }
    var e := new Encoder(p, destination, key);
    return Some(e);
  }

  /** However often, and with whatever written in between, an encoder is closed, at most one frame goes out. */
  method CloseRepeatedly(encoder: Encoder, first: Bytes, later: seq<(Bytes, Option<Bytes>)>)
    returns (err: Option<Fault>)
    requires !encoder.closed
    modifies encoder, encoder.destination
    ensures err == encoder.closeErr
    ensures var start := old(encoder.destination.written);
            var frame := Frame(encoder.p, encoder.key, first, old(encoder.buffer));
            && start <= encoder.destination.written <= start + frame
            && (err.None? ==> encoder.destination.written == start + frame)
  {
    err := encoder.Close(Some(first));
    ghost var after := encoder.destination.written;
    for i := 0 to |later|
      invariant encoder.closed && encoder.closeErr == err && encoder.destination.written == after
    {
      encoder.Write(later[i].0);
      var again := encoder.Close(later[i].1);
      assert again == err;
    }
  }
}
