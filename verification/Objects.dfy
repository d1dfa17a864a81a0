/**
  The store as a map from (namespace, hash) to stored bytes, and what reading it back means: restoring the parts of a
  file, and verifying them. These are the functions the S3 repository and the worker pools are proved against.
 */
module Objects {
  import opened Outcomes
  import opened Primitives
  import opened Files
  import opened ObjectKeys
  import AesGcm

  type Store = map<ObjectId, Bytes>

  /** An absent key (plain objects) is the empty one, as in the repository's signatures. */
  predicate ValidKey(key: Bytes) { key == [] || |key| == AES_256_KEY_SIZE }

  /** The bytes put into the bucket for an encoded section. */
  function Blob(p: Primitives, key: Bytes, nonce: Bytes, encoded: Bytes): Bytes {
    if key == [] then encoded else AesGcm.Frame(p, key, nonce, encoded)
  }

  function Opened(p: Primitives, key: Bytes, blob: Bytes): Result<Bytes> {
    if key == [] then Ok(blob) else AesGcm.Decode(p, blob, key)
  }

  lemma BlobOpens(p: Primitives, key: Bytes, nonce: Bytes, encoded: Bytes)
    requires Lawful(p) && ValidKey(key) && |nonce| == NONCE_SIZE
    ensures Opened(p, key, Blob(p, key, nonce, encoded)) == Ok(encoded)
  {
    if key != [] { AesGcm.FrameRoundTrip(p, key, nonce, encoded); }
  }

  /** Whether a blob can be made: no key is needed for plain objects, a 32-byte key and entropy for the others. */
  predicate CanSeal(key: Bytes, entropy: Option<Bytes>) { key == [] || (|key| == AES_256_KEY_SIZE && entropy.Some?) }

  function Sealed(p: Primitives, key: Bytes, entropy: Option<Bytes>, encoded: Bytes): Bytes {
    Blob(p, key, if entropy.Some? then entropy.value else [], encoded)
  }

  /** What format one puts: without entropy, nothing of the frame. */
  function WholeBlob(p: Primitives, key: Bytes, entropy: Option<Bytes>, encoded: Bytes): Bytes {
    if key != [] && entropy == None then [] else Sealed(p, key, entropy, encoded)
  }

  /** So what format one puts opens to the encoding exactly when no key is needed, or there was entropy. */
  lemma WholeBlobOpens(p: Primitives, key: Bytes, entropy: Option<Bytes>, encoded: Bytes)
    requires Lawful(p) && ValidKey(key) && (entropy.Some? ==> |entropy.value| == NONCE_SIZE)
    ensures Opened(p, key, WholeBlob(p, key, entropy, encoded)) == Ok(encoded) <==> key == [] || entropy.Some?
  {
    if key != [] && entropy.Some? { BlobOpens(p, key, entropy.value, encoded); }
  }

  /** The stored bytes open to the content the hash names. */
  predicate Names(p: Primitives, key: Bytes, blob: Bytes, hash: string) {
    var plain := Opened(p, key, blob);
    plain.Ok? && p.sha(plain.value) == hash
  }

  predicate Holds(p: Primitives, store: Store, space: Space, key: Bytes, hash: string) {
    ObjectId(space, hash) in store && Names(p, key, store[ObjectId(space, hash)], hash)
  }

  /** Everything in a namespace is readable under its key and named by its own content. */
  ghost predicate Sound(p: Primitives, store: Store, space: Space, key: Bytes) {
    forall hash :: ObjectId(space, hash) in store ==> Names(p, key, store[ObjectId(space, hash)], hash)
  }

  predicate HasParts(store: Store, space: Space, parts: seq<Chunk>) {
    forall k | 0 <= k < |parts| :: ObjectId(space, parts[k].hash) in store
  }

  // Restoring

  function RestorePart(p: Primitives, store: Store, space: Space, key: Bytes, compType: CompressionType,
                       hash: string): Result<Bytes> {
    if |hash| < 3 then Err(Rejected)
    else if ObjectId(space, hash) !in store then Err(NotFound(hash))
    else
      var plain := Opened(p, key, store[ObjectId(space, hash)]);
      if plain.Err? then plain else
      match p.decode(compType, plain.value)
      case None => Err(Broken)
      case Some(data) => Ok(data)
  }

  function RestoreParts(p: Primitives, store: Store, space: Space, key: Bytes, compType: CompressionType,
                        parts: seq<Chunk>): Result<Bytes> {
    if parts == [] then Ok([]) else
    var first := RestorePart(p, store, space, key, compType, parts[0].hash);
    if first.Err? then first else
    var rest := RestoreParts(p, store, space, key, compType, parts[1..]);
    if rest.Err? then rest else Ok(first.value + rest.value)
  }

  /** All hashes are checked before anything is read; the size is checked after everything was. */
  function RestoreFile(p: Primitives, store: Store, space: Space, key: Bytes, compType: CompressionType,
                       record: FileRecord): Result<Bytes> {
    var parts := Parts(record);
    if exists k | 0 <= k < |parts| :: |parts[k].hash| < 3 then Err(Rejected) else
    var restored := RestoreParts(p, store, space, key, compType, parts);
    if restored.Err? then restored
    else if |restored.value| != record.size then Err(Broken)
    else restored
  }

  // Verifying

  datatype Reason =
    | EmptyHash
    | Missing(hash: string)
    | Mismatch(expected: string, calculated: string)
    | InChunk(index: nat, count: nat, reason: Reason)

  /** A reason the object fails, no reason, or an error that stops the verification. */
  function VerifyObject(p: Primitives, store: Store, space: Space, key: Bytes, hash: string): Result<Option<Reason>> {
    if hash == "" then Ok(Some(EmptyHash))
    else if |hash| < 3 then Err(Rejected)
    else if ObjectId(space, hash) !in store then Ok(Some(Missing(hash)))
    else
      var plain := Opened(p, key, store[ObjectId(space, hash)]);
      if plain.Err? then Err(plain.fault) else
      var calculated := p.sha(plain.value);
      if calculated != hash then Ok(Some(Mismatch(hash, calculated))) else Ok(None)
  }

  function VerifyChunks(p: Primitives, store: Store, space: Space, key: Bytes, chunks: seq<Chunk>,
                        index: nat): Result<Option<Reason>>
    requires index <= |chunks|
    decreases |chunks| - index
  {
    if index == |chunks| then Ok(None) else
    var checked := VerifyObject(p, store, space, key, chunks[index].hash);
    if checked.Err? then checked
    else if checked.value.Some? then Ok(Some(InChunk(index + 1, |chunks|, checked.value.value)))
    else VerifyChunks(p, store, space, key, chunks, index + 1)
  }

  function VerifyFile(p: Primitives, store: Store, space: Space, key: Bytes,
                      record: FileRecord): Result<Option<Reason>> {
    if record.chunks == [] then VerifyObject(p, store, space, key, record.hash)
    else VerifyChunks(p, store, space, key, record.chunks, 0)
  }

  // What restoring means

  function Concatenated(pieces: seq<Bytes>): Bytes {
    if pieces == [] then [] else pieces[0] + Concatenated(pieces[1..])
  }

  /** The stored object opens, and what it opens to decodes to the data. */
  predicate PartGives(p: Primitives, store: Store, space: Space, key: Bytes, compType: CompressionType, hash: string,
                      data: Bytes) {
    && |hash| >= 3 && ObjectId(space, hash) in store
    && var plain := Opened(p, key, store[ObjectId(space, hash)]);
       plain.Ok? && p.decode(compType, plain.value) == Some(data)
  }

  ghost predicate PiecesGiven(p: Primitives, store: Store, space: Space, key: Bytes, compType: CompressionType,
                              parts: seq<Chunk>, pieces: seq<Bytes>) {
    && |pieces| == |parts|
    && forall k | 0 <= k < |parts| :: PartGives(p, store, space, key, compType, parts[k].hash, pieces[k])
  }

  /** Every part gives its piece, and the pieces in order are the data. */
  ghost predicate PartsGive(p: Primitives, store: Store, space: Space, key: Bytes, compType: CompressionType,
                            parts: seq<Chunk>, data: Bytes) {
    exists pieces :: PiecesGiven(p, store, space, key, compType, parts, pieces) && Concatenated(pieces) == data
  }

  lemma {:induction false} PiecesRestore(p: Primitives, store: Store, space: Space, key: Bytes,
                                         compType: CompressionType, parts: seq<Chunk>, pieces: seq<Bytes>)
    requires PiecesGiven(p, store, space, key, compType, parts, pieces)
    ensures RestoreParts(p, store, space, key, compType, parts) == Ok(Concatenated(pieces))
  {
    if parts != [] {
      assert PartGives(p, store, space, key, compType, parts[0].hash, pieces[0]);
      PiecesRestore(p, store, space, key, compType, parts[1..], pieces[1..]);
    }
  }

  lemma {:induction false} RestoredInPieces(p: Primitives, store: Store, space: Space, key: Bytes,
                                            compType: CompressionType, parts: seq<Chunk>)
    returns (pieces: seq<Bytes>)
    requires RestoreParts(p, store, space, key, compType, parts).Ok?
    ensures PiecesGiven(p, store, space, key, compType, parts, pieces)
    ensures RestoreParts(p, store, space, key, compType, parts) == Ok(Concatenated(pieces))
  {
    pieces := [];
    if parts != [] {
      var first := RestorePart(p, store, space, key, compType, parts[0].hash);
      var rest := RestoredInPieces(p, store, space, key, compType, parts[1..]);
      pieces := [first.value] + rest;
      assert pieces[1..] == rest;
      forall k | 0 <= k < |parts| ensures PartGives(p, store, space, key, compType, parts[k].hash, pieces[k]) {
        if k > 0 { assert parts[1..][k - 1] == parts[k] && rest[k - 1] == pieces[k]; }
      }
    }
  }

  /** A file restores to some data exactly when every part is there, opens and decodes, the decoded pieces in order are
      the data, and the data has the recorded size. */
  lemma RestoresExactly(p: Primitives, store: Store, space: Space, key: Bytes, compType: CompressionType,
                        record: FileRecord, data: Bytes)
    ensures RestoreFile(p, store, space, key, compType, record) == Ok(data) <==>
              PartsGive(p, store, space, key, compType, Parts(record), data) && |data| == record.size
  {
    var parts := Parts(record);
    if RestoreFile(p, store, space, key, compType, record) == Ok(data) {
      var pieces := RestoredInPieces(p, store, space, key, compType, parts);
    }
    if PartsGive(p, store, space, key, compType, parts, data) {
      var pieces :| PiecesGiven(p, store, space, key, compType, parts, pieces) && Concatenated(pieces) == data;
      PiecesRestore(p, store, space, key, compType, parts, pieces);
      assert forall k | 0 <= k < |parts| :: PartGives(p, store, space, key, compType, parts[k].hash, pieces[k]);
    }
  }

  // What verifying means

  /** A verdict is one of five, by the hash, by whether its object is there and opens, and by what it opens to. */
  lemma VerifyObjectExact(p: Primitives, store: Store, space: Space, key: Bytes, hash: string)
    ensures var id, verdict := ObjectId(space, hash), VerifyObject(p, store, space, key, hash);
            && (verdict == Ok(None) <==> |hash| >= 3 && Holds(p, store, space, key, hash))
            && (verdict == Ok(Some(EmptyHash)) <==> hash == "")
            && (forall h :: verdict == Ok(Some(Missing(h))) <==> h == hash && |hash| >= 3 && id !in store)
            && (forall h, c :: verdict == Ok(Some(Mismatch(h, c))) <==>
                  && h == hash && |hash| >= 3 && id in store && Opened(p, key, store[id]).Ok?
                  && c == p.sha(Opened(p, key, store[id]).value) != hash)
            && (forall i, n, reason :: verdict != Ok(Some(InChunk(i, n, reason))))
            && (verdict.Err? <==> 0 < |hash| < 3 || (|hash| >= 3 && id in store && Opened(p, key, store[id]).Err?))
  {
  }

  predicate AllGood(p: Primitives, store: Store, space: Space, key: Bytes, parts: seq<Chunk>, from: nat) {
    forall k | from <= k < |parts| :: |parts[k].hash| >= 3 && Holds(p, store, space, key, parts[k].hash)
  }

  lemma {:induction false} VerifyChunksExact(p: Primitives, store: Store, space: Space, key: Bytes, chunks: seq<Chunk>,
                                             index: nat)
    requires index <= |chunks|
    ensures VerifyChunks(p, store, space, key, chunks, index) == Ok(None) <==>
              AllGood(p, store, space, key, chunks, index)
    decreases |chunks| - index
  {
    if index < |chunks| {
      VerifyObjectExact(p, store, space, key, chunks[index].hash);
      VerifyChunksExact(p, store, space, key, chunks, index + 1);
    }
  }

  /** A file verifies exactly when every part is in the store and is what its hash names. */
  lemma VerifyFileExact(p: Primitives, store: Store, space: Space, key: Bytes, record: FileRecord)
    ensures VerifyFile(p, store, space, key, record) == Ok(None) <==> AllGood(p, store, space, key, Parts(record), 0)
  {
    if record.chunks == [] {
      assert Parts(record)[0].hash == record.hash;
    } else {
      VerifyChunksExact(p, store, space, key, record.chunks, 0);
    }
  }

  /** The first part that is not good, if there is one. */
  predicate FirstBad(p: Primitives, store: Store, space: Space, key: Bytes, parts: seq<Chunk>, k: nat) {
    && k < |parts| && !(|parts[k].hash| >= 3 && Holds(p, store, space, key, parts[k].hash))
    && forall j | 0 <= j < k :: |parts[j].hash| >= 3 && Holds(p, store, space, key, parts[j].hash)
  }

  /** A chunk's reason says which chunk it is of how many. */
  function PartReason(record: FileRecord, k: nat, reason: Reason): Reason {
    if record.chunks == [] then reason else InChunk(k + 1, |record.chunks|, reason)
  }

  /** What is wrong with a part that is not good: nothing is named, the object is not there, or it is another one. */
  predicate PartFault(p: Primitives, store: Store, space: Space, key: Bytes, hash: string, reason: Reason) {
    var id := ObjectId(space, hash);
    match reason
    case EmptyHash => hash == ""
    case Missing(h) => h == hash && |hash| >= 3 && id !in store
    case Mismatch(h, c) =>
      && h == hash && |hash| >= 3 && id in store && Opened(p, key, store[id]).Ok?
      && c == p.sha(Opened(p, key, store[id]).value) != hash
    case InChunk(_, _, _) => false
  }

  /** A part that cannot be told good or bad: its hash is no key, or its object does not open. */
  predicate PartUnreadable(p: Primitives, store: Store, space: Space, key: Bytes, hash: string) {
    0 < |hash| < 3 || (|hash| >= 3 && ObjectId(space, hash) in store
                       && Opened(p, key, store[ObjectId(space, hash)]).Err?)
  }

  lemma {:induction false} VerifyChunksAtFirstBad(p: Primitives, store: Store, space: Space, key: Bytes,
                                                  chunks: seq<Chunk>, index: nat, k: nat)
    requires index <= k && FirstBad(p, store, space, key, chunks, k)
    ensures var at, verdict := VerifyObject(p, store, space, key, chunks[k].hash),
                               VerifyChunks(p, store, space, key, chunks, index);
            && (at.Err? ==> verdict == at)
            && (at.Ok? ==> at.value.Some? && verdict == Ok(Some(InChunk(k + 1, |chunks|, at.value.value))))
    decreases k - index
  {
    VerifyObjectExact(p, store, space, key, chunks[index].hash);
    if index < k {
      VerifyChunksAtFirstBad(p, store, space, key, chunks, index + 1, k);
    }
  }

  /** A file's verdict is that of its first part that is not good. */
  lemma VerifyFileAtFirstBad(p: Primitives, store: Store, space: Space, key: Bytes, record: FileRecord, k: nat)
    requires FirstBad(p, store, space, key, Parts(record), k)
    ensures var at, verdict := VerifyObject(p, store, space, key, Parts(record)[k].hash),
                               VerifyFile(p, store, space, key, record);
            && (at.Err? ==> verdict == at)
            && (at.Ok? ==> at.value.Some? && verdict == Ok(Some(PartReason(record, k, at.value.value))))
  {
    VerifyObjectExact(p, store, space, key, Parts(record)[k].hash);
    if record.chunks != [] { VerifyChunksAtFirstBad(p, store, space, key, record.chunks, 0, k); }
  }

  lemma {:induction false} FindFirstBad(p: Primitives, store: Store, space: Space, key: Bytes, parts: seq<Chunk>,
                                        from: nat)
    returns (k: nat)
    requires from <= |parts| && !AllGood(p, store, space, key, parts, from)
    requires forall j | 0 <= j < from :: |parts[j].hash| >= 3 && Holds(p, store, space, key, parts[j].hash)
    ensures FirstBad(p, store, space, key, parts, k)
    decreases |parts| - from
  {
    if |parts[from].hash| >= 3 && Holds(p, store, space, key, parts[from].hash) {
      k := FindFirstBad(p, store, space, key, parts, from + 1);
    } else {
      k := from;
    }
  }

  /** The verdict on a file, in terms of the store: no part is bad, or what is wrong with the first bad one. */
  ghost predicate FileVerdict(p: Primitives, store: Store, space: Space, key: Bytes, record: FileRecord,
                              verdict: Option<Reason>) {
    match verdict
    case None => AllGood(p, store, space, key, Parts(record), 0)
    case Some(reason) => exists k: nat, fault :: BadAt(p, store, space, key, record, k, fault, reason)
  }

  predicate BadAt(p: Primitives, store: Store, space: Space, key: Bytes, record: FileRecord, k: nat, fault: Reason,
                  reason: Reason) {
    && FirstBad(p, store, space, key, Parts(record), k)
    && PartFault(p, store, space, key, Parts(record)[k].hash, fault) && reason == PartReason(record, k, fault)
  }

  /** The first part that is not good cannot be told good or bad. */
  ghost predicate FileUnreadable(p: Primitives, store: Store, space: Space, key: Bytes, record: FileRecord) {
    exists k: nat :: FirstBad(p, store, space, key, Parts(record), k)
                     && PartUnreadable(p, store, space, key, Parts(record)[k].hash)
  }

  lemma VerdictAt(p: Primitives, store: Store, space: Space, key: Bytes, record: FileRecord, k: nat)
    requires FirstBad(p, store, space, key, Parts(record), k)
    ensures var verdict := VerifyFile(p, store, space, key, record);
            && (verdict.Err? <==> FileUnreadable(p, store, space, key, record))
            && forall reason :: verdict == Ok(reason) <==> FileVerdict(p, store, space, key, record, reason)
  {
    var verdict, parts := VerifyFile(p, store, space, key, record), Parts(record);
    var at := VerifyObject(p, store, space, key, parts[k].hash);
    VerifyFileAtFirstBad(p, store, space, key, record, k);
    VerifyObjectExact(p, store, space, key, parts[k].hash);
    assert forall j: nat :: FirstBad(p, store, space, key, parts, j) ==> j == k;
    assert forall fault :: at == Ok(Some(fault)) <==> PartFault(p, store, space, key, parts[k].hash, fault);
    if at.Ok? {
      assert BadAt(p, store, space, key, record, k, at.value.value, PartReason(record, k, at.value.value));
    }
  }

  /** A file's verdict, or that there is none, by its first part that is not good. */
  lemma VerifiesExactly(p: Primitives, store: Store, space: Space, key: Bytes, record: FileRecord)
    ensures var verdict := VerifyFile(p, store, space, key, record);
            && (verdict.Err? <==> FileUnreadable(p, store, space, key, record))
            && forall reason :: verdict == Ok(reason) <==> FileVerdict(p, store, space, key, record, reason)
  {
    VerifyFileExact(p, store, space, key, record);
    if VerifyFile(p, store, space, key, record) != Ok(None) {
      var k := FindFirstBad(p, store, space, key, Parts(record), 0);
      VerdictAt(p, store, space, key, record, k);
    }
  }

  lemma PartRestores(p: Primitives, store: Store, space: Space, key: Bytes, comp: Compression, content: Bytes,
                     part: Chunk)
    requires Lawful(p) && IsPartOf(p, comp, content, part) && Holds(p, store, space, key, part.hash)
    ensures RestorePart(p, store, space, key, comp.compType, part.hash) ==
              Ok(content[part.offset..part.offset + part.size])
  {
    var section := content[part.offset..part.offset + part.size];
    var encoded := p.encode(comp, section);
    var plain := Opened(p, key, store[ObjectId(space, part.hash)]).value;
    assert p.sha(plain) == p.sha(encoded);
    assert plain == encoded;
    assert IsHex(p.sha(encoded));
    assert p.decode(comp.compType, encoded) == Some(section);
  }

  ghost predicate AllPartsOf(p: Primitives, comp: Compression, content: Bytes, parts: seq<Chunk>) {
    forall k | 0 <= k < |parts| :: IsPartOf(p, comp, content, parts[k])
  }

  predicate AllHeld(p: Primitives, store: Store, space: Space, key: Bytes, parts: seq<Chunk>) {
    forall k | 0 <= k < |parts| :: Holds(p, store, space, key, parts[k].hash)
  }

  lemma {:induction false} PartsRestore(p: Primitives, store: Store, space: Space, key: Bytes, comp: Compression,
                                        content: Bytes, parts: seq<Chunk>)
    requires Lawful(p) && AllPartsOf(p, comp, content, parts) && AllHeld(p, store, space, key, parts)
    ensures RestoreParts(p, store, space, key, comp.compType, parts) == Ok(Sections(content, parts))
  {
    if parts != [] {
      PartRestores(p, store, space, key, comp, content, parts[0]);
      PartsRestore(p, store, space, key, comp, content, parts[1..]);
    }
  }

  /** When every part of a captured file is held, restoring it in record order gives the captured bytes. */
  lemma HeldFileRestores(p: Primitives, store: Store, space: Space, key: Bytes, format: int, comp: Compression,
                         source: SourceFile)
    requires Lawful(p) && KnownFormat(format)
    requires AllHeld(p, store, space, key, Parts(Calculated(p, format, comp, source)))
    ensures RestoreFile(p, store, space, key, comp.compType, Calculated(p, format, comp, source)) == Ok(source.content)
  {
    var record := Calculated(p, format, comp, source);
    var parts := Parts(record);
    CalculatedParts(p, format, comp, source);
    assert AllPartsOf(p, comp, source.content, parts);
    PartsRestore(p, store, space, key, comp, source.content, parts);
    CalculatedHashes(p, format, comp, source);
  }

  lemma CalculatedHashes(p: Primitives, format: int, comp: Compression, source: SourceFile)
    requires Lawful(p) && KnownFormat(format)
    ensures forall k | 0 <= k < |Parts(Calculated(p, format, comp, source))| ::
              IsHex(Parts(Calculated(p, format, comp, source))[k].hash)
  {
    var parts := Parts(Calculated(p, format, comp, source));
    CalculatedParts(p, format, comp, source);
    forall k | 0 <= k < |parts| ensures IsHex(parts[k].hash) {
      assert IsPartOf(p, comp, source.content, parts[k]);
    }
  }

  /** Whatever the store holds: a captured file that verifies without a reason restores to the captured bytes. */
  lemma VerifyImpliesRestore(p: Primitives, store: Store, space: Space, key: Bytes, format: int, comp: Compression,
                             source: SourceFile)
    requires Lawful(p) && KnownFormat(format)
    requires VerifyFile(p, store, space, key, Calculated(p, format, comp, source)) == Ok(None)
    ensures RestoreFile(p, store, space, key, comp.compType, Calculated(p, format, comp, source)) == Ok(source.content)
  {
    VerifyFileExact(p, store, space, key, Calculated(p, format, comp, source));
    HeldFileRestores(p, store, space, key, format, comp, source);
  }

  /** In a sound namespace that has all its parts, a captured file restores to the captured bytes and verifies. */
  lemma SoundFileRestores(p: Primitives, store: Store, space: Space, key: Bytes, format: int, comp: Compression,
                          source: SourceFile)
    requires Lawful(p) && KnownFormat(format) && Sound(p, store, space, key)
    requires HasParts(store, space, Parts(Calculated(p, format, comp, source)))
    ensures RestoreFile(p, store, space, key, comp.compType, Calculated(p, format, comp, source)) == Ok(source.content)
    ensures VerifyFile(p, store, space, key, Calculated(p, format, comp, source)) == Ok(None)
  {
    var record := Calculated(p, format, comp, source);
    var parts := Parts(record);
    assert forall k | 0 <= k < |parts| :: ObjectId(space, parts[k].hash) in store;
    assert AllHeld(p, store, space, key, parts);
    HeldFileRestores(p, store, space, key, format, comp, source);
    CalculatedHashes(p, format, comp, source);
    VerifyFileExact(p, store, space, key, record);
  }
}
