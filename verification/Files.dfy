/**
  Captured files: how a file is cut into chunks and hashed, the record kept of it, and why its parts, read back in
  record order, are the file again.
 */
module Files {
  import opened Outcomes
  import opened Primitives
  import opened Replacing

  const MAX_INT64 := 0x7fff_ffff_ffff_ffff
  newtype int64 = x: int | -0x8000_0000_0000_0000 <= x <= 0x7fff_ffff_ffff_ffff

  const CHUNK_THRESHOLD := 8 * 1024 * 1024
  const CHUNK_SIZE := 4 * 1024 * 1024

  datatype Chunk = Chunk(hash: string, offset: int, size: int)

  /** The value of a manifest's file entry; `File` below is the mutable object it is read from. */
  datatype FileRecord = FileRecord(path: string, size: int, hash: string, chunks: seq<Chunk>)

  datatype SourceFile = SourceFile(path: string, content: Bytes)

  function HashOf(p: Primitives, comp: Compression, data: Bytes): string {
    p.sha(p.encode(comp, data))
  }

  /** Under one compression, different data has different hashes: nothing is deduplicated that is not the same. */
  lemma HashInjective(p: Primitives, comp: Compression, a: Bytes, b: Bytes)
    requires Lawful(p)
    ensures HashOf(p, comp, a) == HashOf(p, comp, b) ==> a == b
  {
    assert p.decode(comp.compType, p.encode(comp, a)) == Some(a);
    assert p.decode(comp.compType, p.encode(comp, b)) == Some(b);
  }

  // Cutting a file into chunks

  function ChunksFrom(p: Primitives, comp: Compression, content: Bytes, chunkSize: int,
                      offset: int): (chunks: seq<Chunk>)
    requires chunkSize > 0 && offset >= 0
    decreases |content| - offset
  {
    if offset >= |content| then [] else
    var size := if |content| - offset < chunkSize then |content| - offset else chunkSize;
    [Chunk(HashOf(p, comp, content[offset..offset + size]), offset, size)]
    + ChunksFrom(p, comp, content, chunkSize, offset + chunkSize)
  }

  /** Contiguous, non-empty, inside the file, and each named by the hash of its own encoded section. */
  ghost predicate Tiles(p: Primitives, comp: Compression, content: Bytes, chunks: seq<Chunk>, from: int) {
    && 0 <= from <= |content|
    && (chunks == [] <==> from == |content|)
    && (forall k | 0 <= k < |chunks| :: IsPartOf(p, comp, content, chunks[k]) && chunks[k].size > 0)
    && (chunks != [] ==>
        chunks[0].offset == from && chunks[|chunks| - 1].offset + chunks[|chunks| - 1].size == |content|)
    && (forall k | 0 < k < |chunks| :: chunks[k].offset == chunks[k - 1].offset + chunks[k - 1].size)
  }

  ghost predicate IsPartOf(p: Primitives, comp: Compression, content: Bytes, part: Chunk) {
    && 0 <= part.offset && 0 <= part.size && part.offset + part.size <= |content|
    && part.hash == HashOf(p, comp, content[part.offset..part.offset + part.size])
  }

  /** The loop of `CalculateChunks` tiles the rest of the file. */
  lemma {:induction false} ChunksTile(p: Primitives, comp: Compression, content: Bytes, chunkSize: int, offset: int)
    requires chunkSize > 0 && 0 <= offset <= |content|
    ensures Tiles(p, comp, content, ChunksFrom(p, comp, content, chunkSize, offset), offset)
    decreases |content| - offset
  {
    if offset + chunkSize <= |content| {
      var rest := ChunksFrom(p, comp, content, chunkSize, offset + chunkSize);
      ChunksTile(p, comp, content, chunkSize, offset + chunkSize);
      var first := Chunk(HashOf(p, comp, content[offset..offset + chunkSize]), offset, chunkSize);
      TilesPrepend(p, comp, content, first, rest);
      assert ChunksFrom(p, comp, content, chunkSize, offset) == [first] + rest;
    }
  }

  lemma TilesPrepend(p: Primitives, comp: Compression, content: Bytes, first: Chunk, rest: seq<Chunk>)
    requires IsPartOf(p, comp, content, first) && first.size > 0
    requires Tiles(p, comp, content, rest, first.offset + first.size)
    ensures Tiles(p, comp, content, [first] + rest, first.offset)
  {
    var chunks := [first] + rest;
    assert forall k | 0 < k < |chunks| :: chunks[k] == rest[k - 1];
  }

  /** All chunks but the last are full, and the last is no larger. */
  predicate FullButLast(chunks: seq<Chunk>, chunkSize: int) {
    forall k | 0 <= k < |chunks| :: chunks[k].size <= chunkSize && (k < |chunks| - 1 ==> chunks[k].size == chunkSize)
  }

  lemma {:induction false} ChunkSizes(p: Primitives, comp: Compression, content: Bytes, chunkSize: int, offset: int)
    requires chunkSize > 0 && 0 <= offset <= |content|
    ensures FullButLast(ChunksFrom(p, comp, content, chunkSize, offset), chunkSize)
    decreases |content| - offset
  {
    if offset + chunkSize <= |content| {
      ChunkSizes(p, comp, content, chunkSize, offset + chunkSize);
    }
  }

  /** The number of chunks is the file size divided by the chunk size, rounded up. */
  lemma {:induction false} ChunkCount(p: Primitives, comp: Compression, content: Bytes, chunkSize: int, offset: int)
    requires chunkSize > 0 && 0 <= offset <= |content|
    ensures |ChunksFrom(p, comp, content, chunkSize, offset)| == (|content| - offset + chunkSize - 1) / chunkSize
    decreases |content| - offset
  {
    var left := |content| - offset;
    if left > chunkSize {
      ChunkCount(p, comp, content, chunkSize, offset + chunkSize);
      DivisionStep(left - 1, chunkSize);
    } else if left > 0 {
      DivisionBounds(left + chunkSize - 1, 1, chunkSize);
      assert ChunksFrom(p, comp, content, chunkSize, offset + chunkSize) == [];
    } else {
      DivisionBounds(chunkSize - 1, 0, chunkSize);
    }
  }

  lemma DivisionBounds(a: int, q: int, d: int)
    requires d > 0 && q * d <= a < q * d + d
    ensures a / d == q
  {
    var k := a / d;
    assert k * d <= a < k * d + d;
    assert (k - q) * d == k * d - q * d && (q - k) * d == q * d - k * d;
    BelowOne(k - q, d);
    BelowOne(q - k, d);
  }

  lemma BelowOne(n: int, d: int)
    requires n * d < d && d > 0
    ensures n < 1
  {
    assert n * d == (n - 1) * d + d;
    assert n >= 1 ==> (n - 1) * d >= 0;
  }

  lemma DivisionStep(a: int, d: int)
    requires d > 0 && a >= 0
    ensures (a + d) / d == a / d + 1
  {
    var q := a / d;
    assert a == q * d + a % d;
    assert (q + 1) * d == q * d + d;
    DivisionBounds(a + d, q + 1, d);
  }

  /** Two's complement wrap-around of a sum or difference of two 64-bit signed integers. */
  function Wrap(x: int): int64
    requires -0x1_0000_0000_0000_0000 <= x < 0x1_0000_0000_0000_0000
  {
    if x > MAX_INT64 then (x - 0x1_0000_0000_0000_0000) as int64
    else if x < -MAX_INT64 - 1 then (x + 0x1_0000_0000_0000_0000) as int64
    else x as int64
  }

  /** The capacity asked for, with the wrap-around of the machine: the sum may pass the top and come back. */
  function Capacity(fileSize: int64, chunkSize: int64): int64
    requires chunkSize > 0
  {
    Wrap(Wrap(fileSize as int + chunkSize as int) as int - 1) / chunkSize
  }

  lemma CapacityIsCeiling(fileSize: int64, chunkSize: int64)
    requires fileSize >= 0 && chunkSize > 0 && fileSize as int + chunkSize as int - 1 <= MAX_INT64
    ensures Capacity(fileSize, chunkSize) as int == (fileSize as int + chunkSize as int - 1) / chunkSize as int
  {
    assert Wrap(Wrap(fileSize as int + chunkSize as int) as int - 1) as int == fileSize as int + chunkSize as int - 1;
  }

  /** The slice is made with room for exactly the chunks the loop will append. */
  method PlanCapacity(p: Primitives, comp: Compression, content: Bytes, chunkSize: int64) returns (capacity: int64)
    requires chunkSize > 0 && |content| + chunkSize as int - 1 <= MAX_INT64
    ensures capacity as int == |ChunksFrom(p, comp, content, chunkSize as int, 0)|
  {
    capacity := Capacity(|content| as int64, chunkSize);
    CapacityIsCeiling(|content| as int64, chunkSize);
    ChunkCount(p, comp, content, chunkSize as int, 0);
  }

  /** `cancelAt` is the round of the loop at which the context is found done, if it ever is. */
  method CalculateChunks(p: Primitives, content: Bytes, chunkSize: int64, comp: Option<Compression>,
                         cancelAt: Option<nat>)
    returns (r: Result<seq<Chunk>>, capacity: int64)
    requires |content| <= MAX_INT64
    requires chunkSize > 0 ==> |content| + chunkSize as int - 1 <= MAX_INT64
    ensures chunkSize <= 0 || comp == None ==> r == Err(Rejected)
    ensures chunkSize > 0 && comp.Some? ==>
              var chunks := ChunksFrom(p, comp.value, content, chunkSize as int, 0);
              && capacity as int == |chunks|
              && r == if cancelAt.Some? && cancelAt.value < |chunks| then Err(Cancelled) else Ok(chunks)
  {
    capacity := 0;
    if chunkSize <= 0 || comp == None {
      return Err(Rejected), capacity;
    }
    var fileSize := |content| as int64;
    capacity := PlanCapacity(p, comp.value, content, chunkSize);
    var chunks: seq<Chunk> := [];
    ghost var all := ChunksFrom(p, comp.value, content, chunkSize as int, 0);
    ghost var rest := all;
    var offset: int64 := 0;
    while offset < fileSize
      invariant 0 <= offset as int <= |content| + chunkSize as int - 1
      invariant rest == ChunksFrom(p, comp.value, content, chunkSize as int, offset as int)
      invariant chunks + rest == all
      invariant cancelAt.Some? ==> |chunks| <= cancelAt.value
    {
      if cancelAt == Some(|chunks|) {
        return Err(Cancelled), capacity;
      }
      var currentSize := chunkSize;
      var remaining := fileSize - offset;
      if remaining < currentSize {
        currentSize := remaining;
      }
      var end := offset + currentSize;
      var chunk := Chunk(HashOf(p, comp.value, content[offset as int..end as int]), offset as int, currentSize as int);
      assert rest == [chunk] + rest[1..];
      MoveFirst(chunks, chunk, rest);
      chunks, rest := chunks + [chunk], rest[1..];
      offset := offset + chunkSize;
    }
    assert rest == [] && chunks == all;
    return Ok(chunks), capacity;
  }

  lemma MoveFirst(chunks: seq<Chunk>, chunk: Chunk, rest: seq<Chunk>)
    requires rest != [] && rest == [chunk] + rest[1..]
    ensures chunks + rest == (chunks + [chunk]) + rest[1..]
  {
  }

  // Opening the source of a chunk

  /** What `OpenSource` answers for a regular, readable file, in the order of its checks. */
  function OpenSource(content: Bytes, hash: string, offset: int64, size: int64,
                      comp: Option<Compression>): (fault: Option<Fault>)
    requires |content| <= MAX_INT64
  {
    if comp == None then Some(Rejected)
    else if |hash| < 3 then Some(Rejected)
    else if offset < 0 then Some(Rejected)
    else if size <= 0 then Some(Rejected)
    else if offset > |content| as int64 || size > |content| as int64 - offset then Some(Rejected)
    else None
  }

  /** The checks admit exactly the non-empty ranges inside the file, and never overflow deciding it. */
  lemma OpenSourceExact(content: Bytes, hash: string, offset: int64, size: int64, comp: Option<Compression>)
    requires |content| <= MAX_INT64
    ensures OpenSource(content, hash, offset, size, comp) == None <==>
            comp.Some? && |hash| >= 3 && 0 <= offset as int && 0 < size as int
            && offset as int + size as int <= |content|
  {
  }

  /** Every chunk the loop produces is accepted when it is saved; a zero-byte part never is. */
  lemma ChunksOpen(p: Primitives, comp: Compression, content: Bytes, chunkSize: int, k: nat)
    requires Lawful(p) && 0 < chunkSize && |content| <= MAX_INT64
    requires k < |ChunksFrom(p, comp, content, chunkSize, 0)|
    ensures var chunk := ChunksFrom(p, comp, content, chunkSize, 0)[k];
            && 0 <= chunk.offset <= MAX_INT64 && 0 < chunk.size <= MAX_INT64
            && OpenSource(content, chunk.hash, chunk.offset as int64, chunk.size as int64, Some(comp)) == None
  {
    ChunksTile(p, comp, content, chunkSize, 0);
    var chunk := ChunksFrom(p, comp, content, chunkSize, 0)[k];
    assert IsPartOf(p, comp, content, chunk);
    assert IsHex(p.sha(p.encode(comp, content[chunk.offset..chunk.offset + chunk.size])));
  }

  // File records

  class File {
    var path: string
    var size: int
    var hash: string
    var chunks: seq<Chunk>

    constructor (path: string, size: int)
      ensures Record() == FileRecord(path, size, "", [])
    {
      this.path, this.size, this.hash, this.chunks := path, size, "", [];
    }

    function Record(): FileRecord
      reads this
    {
      FileRecord(path, size, hash, chunks)
    }

    method AddHash(hash: string)
      modifies this
      ensures Record() == old(Record()).(hash := hash)
    {
      this.hash := hash;
    }

    method AddChunks(chunks: seq<Chunk>)
      modifies this
      ensures Record() == old(Record()).(chunks := chunks)
    {
      this.chunks := chunks;
    }

    /** Every occurrence of the source in the path is replaced, not only the leading one. */
    method ChangeSourcePath(source: string, destination: string)
      modifies this
      ensures Record() == old(Record()).(path := ReplaceAll(old(path), source, destination))
    {
      path := ReplaceAll(path, source, destination);
    }

    method Hydrate(path: string, hash: string, size: int, chunks: seq<Chunk>)
      modifies this
      ensures Record() == FileRecord(path, size, hash, chunks)
    {
      this.size, this.path, this.hash, this.chunks := size, path, hash, chunks;
    }
  }

  /** The file system a restore writes to. */
  class Disk {
    var files: map<string, Bytes>
    constructor (files: map<string, Bytes>) ensures this.files == files { this.files := files; }
  }

  /** The record a format leaves of a file: one hash, or an ordered list of chunks. */
  function Calculated(p: Primitives, format: int, comp: Compression, source: SourceFile): FileRecord {
    var content := source.content;
    var whole := HashOf(p, comp, content);
    if format == 1 then FileRecord(source.path, |content|, whole, [])
    else if |content| >= CHUNK_THRESHOLD then
      FileRecord(source.path, |content|, "", ChunksFrom(p, comp, content, CHUNK_SIZE, 0))
    else FileRecord(source.path, |content|, whole, [Chunk(whole, 0, |content|)])
  }

  /** What a record of format two looks like: below 8 MiB one chunk, the whole file, under the hash of the file; from
      there on no hash of the file, and chunks of 4 MiB. */
  lemma FormatTwoShape(p: Primitives, comp: Compression, source: SourceFile)
    ensures var f, size := Calculated(p, 2, comp, source), |source.content|;
            && f.path == source.path && f.size == size
            && (size < 8388608 ==> f.hash == HashOf(p, comp, source.content) && f.chunks == [Chunk(f.hash, 0, size)])
            && (size >= 8388608 ==>
                  f.hash == "" && |f.chunks| == (size + 4194303) / 4194304 && FullButLast(f.chunks, 4194304))
  {
    ChunkCount(p, comp, source.content, CHUNK_SIZE, 0);
    ChunkSizes(p, comp, source.content, CHUNK_SIZE, 0);
  }

  predicate KnownFormat(format: int) { format == 1 || format == 2 }

  /** How reading a source file goes: it may not be readable, and the context may be found done, on some round of the
      loop over its chunks. */
  datatype Reading = Reading(readable: bool, doneAt: Option<nat>)

  /** Format one hashes the file as a whole. */
  method CalculateFormatOne(p: Primitives, file: File, comp: Compression, source: SourceFile, reading: Reading)
    returns (fault: Option<Fault>)
    requires file.Record() == FileRecord(source.path, |source.content|, "", [])
    modifies file
    ensures fault == (if !reading.readable then Some(Broken) else if reading.doneAt.Some? then Some(Cancelled)
                      else None)
    ensures file.Record() == if fault == None then Calculated(p, 1, comp, source) else old(file.Record())
  {
    var hash := CalculateHash(p, source.content, comp, reading);
    if hash.Err? {
      return Some(hash.fault);
    }
    file.AddHash(hash.value);
    return None;
  }

  method CalculateHash(p: Primitives, content: Bytes, comp: Compression, reading: Reading) returns (r: Result<string>)
    ensures r == if !reading.readable then Err(Broken) else if reading.doneAt.Some? then Err(Cancelled)
                 else Ok(HashOf(p, comp, content))
  {
    if !reading.readable {
      return Err(Broken);
    }
    if reading.doneAt.Some? {
      return Err(Cancelled);
    }
    return Ok(HashOf(p, comp, content));
  }

  /** Format two cuts files of 8 MiB and more; a smaller file is its own single chunk. A context found done after the
      last chunk does no harm. */
  method CalculateFormatTwo(p: Primitives, file: File, comp: Compression, source: SourceFile, reading: Reading)
    returns (fault: Option<Fault>)
    requires file.Record() == FileRecord(source.path, |source.content|, "", [])
    requires |source.content| + CHUNK_SIZE <= MAX_INT64
    modifies file
    ensures fault == (if !reading.readable then Some(Broken)
                      else if reading.doneAt.Some? && reading.doneAt.value < |Parts(Calculated(p, 2, comp, source))|
                          then Some(Cancelled)
                      else None)
    ensures file.Record() == if fault == None then Calculated(p, 2, comp, source) else old(file.Record())
  {
    var chunks: seq<Chunk>;
    if file.size >= CHUNK_THRESHOLD {
      if !reading.readable {
        return Some(Broken);
      }
      ChunksAreParts(p, comp, source);
      var r, _ := CalculateChunks(p, source.content, CHUNK_SIZE as int64, Some(comp), reading.doneAt);
      if r.Err? {
        return Some(r.fault);
      }
      chunks := r.value;
    } else {
      var hash := CalculateHash(p, source.content, comp,
                                if reading.doneAt == Some(0) then reading else reading.(doneAt := None));
      if hash.Err? {
        return Some(hash.fault);
      }
      chunks := [Chunk(hash.value, 0, file.size)];
      file.AddHash(hash.value);
    }
    file.AddChunks(chunks);
    return None;
  }

  lemma ChunksAreParts(p: Primitives, comp: Compression, source: SourceFile)
    requires |source.content| >= CHUNK_THRESHOLD
    ensures Parts(Calculated(p, 2, comp, source)) == ChunksFrom(p, comp, source.content, CHUNK_SIZE, 0)
  {
  }

  // Parts of a file

  /** What a record stores, in order: its chunks, or the whole file under its hash. */
  function Parts(record: FileRecord): (parts: seq<Chunk>)
    ensures |parts| >= 1
  {
    if record.chunks != [] then record.chunks else [Chunk(record.hash, 0, record.size)]
  }

  function Hashes(parts: seq<Chunk>): (hashes: seq<string>)
    ensures |hashes| == |parts| && forall k | 0 <= k < |parts| :: hashes[k] == parts[k].hash
  {
    seq(|parts|, k requires 0 <= k < |parts| => parts[k].hash)
  }

  /** The loop over the chunks stops at the first hash too short to be a key. */
  method GetHashes(record: FileRecord) returns (r: Result<seq<string>>)
    ensures r == if forall k | 0 <= k < |Parts(record)| :: |Parts(record)[k].hash| >= 3
                 then Ok(Hashes(Parts(record))) else Err(Rejected)
  {
    if |record.chunks| > 0 {
      var hashes: seq<string> := [];
      for index := 0 to |record.chunks|
        invariant hashes == Hashes(record.chunks[..index])
        invariant forall k | 0 <= k < index :: |record.chunks[k].hash| >= 3
      {
        var hash := record.chunks[index].hash;
        if |hash| < 3 {
          return Err(Rejected);
        }
        hashes := hashes + [hash];
      }
      assert record.chunks[..|record.chunks|] == record.chunks;
      return Ok(hashes);
    }
    if |record.hash| < 3 {
      assert |Parts(record)[0].hash| < 3;
      return Err(Rejected);
    }
    assert Hashes(Parts(record)) == [record.hash];
    return Ok([record.hash]);
  }

  function Sections(content: Bytes, parts: seq<Chunk>): Bytes
    requires forall k | 0 <= k < |parts| ::
               0 <= parts[k].offset && 0 <= parts[k].size && parts[k].offset + parts[k].size <= |content|
  {
    if parts == [] then [] else
    content[parts[0].offset..parts[0].offset + parts[0].size] + Sections(content, parts[1..])
  }

  lemma {:induction false} TilesRebuild(p: Primitives, comp: Compression, content: Bytes, parts: seq<Chunk>, from: int)
    requires Tiles(p, comp, content, parts, from)
    ensures Sections(content, parts) == content[from..]
  {
    if parts != [] {
      var end := from + parts[0].size;
      TilesRebuild(p, comp, content, parts[1..], end);
      assert content[from..] == content[from..end] + content[end..];
    }
  }

  /** Each part of a calculated record is a section of the file under its own hash, and the parts in order are the
      file. */
  lemma CalculatedParts(p: Primitives, format: int, comp: Compression, source: SourceFile)
    requires KnownFormat(format)
    ensures var parts := Parts(Calculated(p, format, comp, source));
            && (forall k | 0 <= k < |parts| :: IsPartOf(p, comp, source.content, parts[k]))
            && Sections(source.content, parts) == source.content
  {
    var content := source.content;
    var parts := Parts(Calculated(p, format, comp, source));
    if format == 2 && |content| >= CHUNK_THRESHOLD {
      ChunksTile(p, comp, content, CHUNK_SIZE, 0);
      TilesRebuild(p, comp, content, parts, 0);
    } else {
      assert content[0..|content|] == content;
      assert parts[1..] == [];
      assert Sections(content, parts[1..]) == [];
    }
  }
}
