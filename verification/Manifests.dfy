/**
  Manifests: the list of files a snapshot is, its stored record, and the repository that publishes it.
 */
module Manifests {
  import opened Outcomes
  import opened Primitives
  import opened Files
  import opened Configs
  import opened S3Objects

  /** `createdAt` is an instant; the zone it is written in does not matter. */
  datatype Manifest = Manifest(id: string, files: seq<FileRecord>, createdAt: int, source: string, comp: Compression)

  // The record (model/manifest.go)

  datatype ChunkEntry = ChunkEntry(hash: string, size: int, offset: int)
  datatype FileEntry = FileEntry(path: string, hash: string, size: int, chunks: seq<ChunkEntry>)
  datatype ManifestModel = ManifestModel(id: string, files: seq<FileEntry>, createdAt: int, source: string,
                                         compType: string, level: Option<int>)

  /** What reaches the text: an empty hash or list of chunks is left out. */
  datatype StoredFile = StoredFile(path: string, hash: Option<string>, size: int, chunks: Option<seq<ChunkEntry>>)
  datatype StoredManifest = StoredManifest(id: string, files: seq<StoredFile>, createdAt: int, source: string,
                                           compType: string, level: Option<int>)

  function Omitted<T(==)>(values: seq<T>): Option<seq<T>> { if values == [] then None else Some(values) }
  function Present<T>(values: Option<seq<T>>): seq<T> { if values == None then [] else values.value }

  function StoreFile(f: FileEntry): StoredFile { StoredFile(f.path, Omitted(f.hash), f.size, Omitted(f.chunks)) }
  function LoadFile(f: StoredFile): FileEntry { FileEntry(f.path, Present(f.hash), f.size, Present(f.chunks)) }

  function Marshal(m: ManifestModel): StoredManifest {
    StoredManifest(m.id, seq(|m.files|, i requires 0 <= i < |m.files| => StoreFile(m.files[i])), m.createdAt, m.source,
                   m.compType, m.level)
  }

  function Unmarshal(m: StoredManifest): ManifestModel {
    ManifestModel(m.id, seq(|m.files|, i requires 0 <= i < |m.files| => LoadFile(m.files[i])), m.createdAt, m.source,
                  m.compType, m.level)
  }

  // Both directions, entity by entity

  function EntryOfChunk(c: Chunk): ChunkEntry { ChunkEntry(c.hash, c.size, c.offset) }
  function ChunkOfEntry(c: ChunkEntry): Chunk { Chunk(c.hash, c.offset, c.size) }

  function EntryOf(f: FileRecord): FileEntry {
    FileEntry(f.path, f.hash, f.size, seq(|f.chunks|, j requires 0 <= j < |f.chunks| => EntryOfChunk(f.chunks[j])))
  }

  function RecordOfEntry(f: FileEntry): FileRecord {
    FileRecord(f.path, f.size, f.hash, seq(|f.chunks|, j requires 0 <= j < |f.chunks| => ChunkOfEntry(f.chunks[j])))
  }

  function ModelOf(m: Manifest): ManifestModel {
    ManifestModel(m.id, seq(|m.files|, i requires 0 <= i < |m.files| => EntryOf(m.files[i])), m.createdAt, m.source,
                  TypeText(m.comp.compType), m.comp.level)
  }

  function ManifestOf(m: ManifestModel): Option<Manifest> {
    var compType := ParseCompressionType(m.compType);
    if compType == None then None else
    var comp := Normalised(compType.value, m.level);
    if comp == None then None else
    Some(Manifest(m.id, seq(|m.files|, i requires 0 <= i < |m.files| => RecordOfEntry(m.files[i])), m.createdAt,
                  m.source, comp.value))
  }

  method NewManifest(m: Manifest) returns (man: ManifestModel)
    ensures man == ModelOf(m)
  {
    var files := new FileEntry[|m.files|](_ => FileEntry("", "", 0, []));
    for i := 0 to |m.files|
      invariant forall k | 0 <= k < i :: files[k] == EntryOf(m.files[k])
    {
      var f := m.files[i];
      var chunks := new ChunkEntry[|f.chunks|](_ => ChunkEntry("", 0, 0));
      for j := 0 to |f.chunks|
        invariant forall k | 0 <= k < j :: chunks[k] == EntryOfChunk(f.chunks[k])
        modifies chunks
      {
        chunks[j] := ChunkEntry(f.chunks[j].hash, f.chunks[j].size, f.chunks[j].offset);
      }
      assert chunks[..] == EntryOf(f).chunks;
      files[i] := FileEntry(f.path, f.hash, f.size, chunks[..]);
    }
    assert files[..] == ModelOf(m).files;
    man := ManifestModel(m.id, files[..], m.createdAt, m.source, TypeText(m.comp.compType), m.comp.level);
  }

  method BuildManifestDomain(stored: StoredManifest) returns (man: Option<Manifest>)
    ensures man == ManifestOf(Unmarshal(stored))
  {
    var mo := Unmarshal(stored);
    var files := new FileRecord[|mo.files|](_ => FileRecord("", 0, "", []));
    for i := 0 to |mo.files|
      invariant forall k | 0 <= k < i :: files[k] == RecordOfEntry(mo.files[k])
    {
      var modelFile := mo.files[i];
      var file := new File("", 0);
      var chunks := new Chunk[|modelFile.chunks|](_ => Chunk("", 0, 0));
      for j := 0 to |modelFile.chunks|
        invariant forall k | 0 <= k < j :: chunks[k] == ChunkOfEntry(modelFile.chunks[k])
        modifies chunks
      {
        chunks[j] := Chunk(modelFile.chunks[j].hash, modelFile.chunks[j].offset, modelFile.chunks[j].size);
      }
      assert chunks[..] == RecordOfEntry(modelFile).chunks;
      file.Hydrate(modelFile.path, modelFile.hash, modelFile.size, chunks[..]);
      files[i] := FileRecord(file.path, file.size, file.hash, file.chunks);
    }
    var compType := ParseCompressionType(mo.compType);
    if compType == None {
      return None;
    }
    var comp := NewCompression(compType.value, mo.level);
    if comp == None {
      return None;
    }
    assert files[..] == ManifestOf(mo).value.files;
    return Some(Manifest(mo.id, files[..], mo.createdAt, mo.source, comp.value));
  }

  // Round trips

  lemma FileRoundTrip(f: FileRecord)
    ensures RecordOfEntry(LoadFile(StoreFile(EntryOf(f)))) == f
  {
    assert LoadFile(StoreFile(EntryOf(f))) == EntryOf(f);
    assert RecordOfEntry(EntryOf(f)).chunks == f.chunks;
  }

  lemma UnmarshalMarshal(m: ManifestModel)
    ensures Unmarshal(Marshal(m)) == m
  {
    assert Unmarshal(Marshal(m)).files == m.files;
  }

  /** A manifest is read back unchanged - omitted members, absent levels and level zero included - exactly when its
      compression is one a repository can have. */
  lemma ManifestRoundTrip(m: Manifest)
    ensures ManifestOf(Unmarshal(Marshal(ModelOf(m)))) == Some(m) <==> Normal(m.comp)
  {
    UnmarshalMarshal(ModelOf(m));
    assert ParseCompressionType(TypeText(m.comp.compType)) == Some(m.comp.compType);
    NormalisedIsFixed(m.comp, m.comp.level);
    var back := ManifestOf(ModelOf(m));
    if back.Some? {
      forall i | 0 <= i < |m.files| ensures back.value.files[i] == m.files[i] { FileRoundTrip(m.files[i]); }
      assert back.value.files == m.files;
    }
  }

  /** Where in the record a file is written: an empty hash and an empty list of chunks are left out. */
  predicate StoredAs(f: FileRecord, stored: StoredFile) {
    && stored.path == f.path && stored.size == f.size
    && stored.hash == (if f.hash == "" then None else Some(f.hash))
    && (f.chunks == [] ==> stored.chunks == None)
    && (f.chunks != [] ==>
          && stored.chunks.Some? && |stored.chunks.value| == |f.chunks|
          && forall j | 0 <= j < |f.chunks| ::
               && stored.chunks.value[j].hash == f.chunks[j].hash && stored.chunks.value[j].size == f.chunks[j].size
               && stored.chunks.value[j].offset == f.chunks[j].offset)
  }

  /** Every member of a manifest is written where its record has it. */
  lemma ManifestMembers(m: Manifest)
    ensures var stored := Marshal(ModelOf(m));
            && stored.id == m.id && stored.createdAt == m.createdAt && stored.source == m.source
            && stored.level == m.comp.level
            && stored.compType == match m.comp.compType case Uncompressed => "none" case Zstd => "zstd"
                                  case Lz4 => "lz4" case Xz => "xz" case Gzip => "gzip"
    ensures var stored := Marshal(ModelOf(m));
            |stored.files| == |m.files| && forall i | 0 <= i < |m.files| :: StoredAs(m.files[i], stored.files[i])
  {
    forall i | 0 <= i < |m.files| ensures StoredAs(m.files[i], Marshal(ModelOf(m)).files[i]) {
      var f := m.files[i];
      assert ModelOf(m).files[i] == EntryOf(f);
      assert |EntryOf(f).chunks| == |f.chunks|;
    }
  }

  // Where it is published (s3/manifest_repository.go)

  class ManifestRepository {
    var snapshots: map<string, StoredManifest>

    constructor () ensures snapshots == map[] { snapshots := map[]; }

    /** One put under the snapshot's id, after a last look at the context: nothing is published earlier, or in part. */
    method Save(m: Manifest, cancelled: bool, reply: Reply) returns (fault: Option<Fault>)
      modifies this
      ensures fault == None <==> !cancelled && reply == Done
      ensures snapshots == if cancelled || reply == Refused then old(snapshots)
              else old(snapshots)[m.id := Marshal(ModelOf(m))]
    {
      if cancelled {
        return Some(Cancelled);
      }
      var manifest := NewManifest(m);
      if reply != Refused {
        snapshots := snapshots[m.id := Marshal(manifest)];
      }
      return if reply == Done then None else Some(Broken);
    }

    method Get(snapshotID: string, cancelled: bool, answered: bool) returns (r: Result<Manifest>)
      ensures r.Ok? <==>
                !cancelled && answered && snapshotID in snapshots && ManifestOf(Unmarshal(snapshots[snapshotID])).Some?
      ensures r.Ok? ==> ManifestOf(Unmarshal(snapshots[snapshotID])) == Some(r.value)
    {
      if cancelled {
        return Err(Cancelled);
      }
      if snapshotID !in snapshots {
        return Err(NotFound(snapshotID));
      }
      if !answered {
        return Err(Broken);
      }
      var manifest := BuildManifestDomain(snapshots[snapshotID]);
      return if manifest == None then Err(Broken) else Ok(manifest.value);
    }
  }
}
