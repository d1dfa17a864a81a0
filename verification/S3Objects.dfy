/**
  The object repository over a bucket of text keys. `view` is the store the bucket stands for; every method says what
  it does to the view. What the service and the random source answer are parameters.
 */
module S3Objects {
  import opened Outcomes
  import opened Primitives
  import opened Files
  import opened ObjectKeys
  import opened Objects
  import opened Sorting
  import AesGcm

  /** A put is done, refused, or done with its answer lost. */
  datatype Reply = Done | Refused | ReplyLost

  // Encoding a section (object/encoder.go)

  predicate ValidHash(p: Primitives, data: Bytes, expected: string) { p.sha(data) == expected }

  method Encrypt(p: Primitives, data: Bytes, key: Bytes, entropy: Option<Bytes>) returns (r: Result<Bytes>)
    ensures r == if |key| != AES_256_KEY_SIZE || entropy == None
            then Err(if entropy == None && |key| == AES_256_KEY_SIZE then Broken else Rejected)
                 else Ok(AesGcm.Frame(p, key, entropy.value, data))
  {
    var buffer := new AesGcm.Destination([]);
    var encoder := AesGcm.NewEncoder(p, buffer, key);
    if encoder == None {
      return Err(Rejected);
    }
    encoder.value.Write(data);
    assert [] + data == data;
    var err := encoder.value.Close(entropy);
    assert entropy.Some? ==>
             [] + AesGcm.Frame(p, key, entropy.value, data) == AesGcm.Frame(p, key, entropy.value, data);
    if err.Some? {
      assert entropy == None;
      return Err(Broken);
    }
    return Ok(buffer.written);
  }

  /** Compressing, checking the hash, then encrypting: what is uploaded opens to a section named by its hash. */
  method Encode(p: Primitives, section: Bytes, hash: string, comp: Option<Compression>, key: Bytes,
                entropy: Option<Bytes>, cancelled: bool)
    returns (r: Result<Bytes>)
    ensures r.Ok? ==>
              && comp.Some? && HashOf(p, comp.value, section) == hash
              && (key != [] ==> |key| == AES_256_KEY_SIZE && entropy.Some?)
              && r.value == Blob(p, key, if entropy.Some? then entropy.value else [], p.encode(comp.value, section))
    ensures !cancelled && comp.Some? && HashOf(p, comp.value, section) == hash && CanSeal(key, entropy) ==> r.Ok?
    ensures cancelled ==> r == Err(Cancelled)
  {
    if cancelled {
      return Err(Cancelled);
    }
    if comp == None {
      return Err(Rejected);
    }
    var compressed := p.encode(comp.value, section);
    if !ValidHash(p, compressed, hash) {
      return Err(Broken);
    }
    if |key| == 0 {
      return Ok(compressed);
    }
    r := Encrypt(p, compressed, key, entropy);
  }

  /** The section is inside the file and its encoding has the expected hash. */
  predicate ChunkFits(p: Primitives, content: Bytes, hash: string, offset: int64, size: int64,
                      comp: Option<Compression>)
    requires |content| <= MAX_INT64
  {
    && OpenSource(content, hash, offset, size, comp) == None
    && (OpenSourceExact(content, hash, offset, size, comp);
        HashOf(p, comp.value, content[offset as int..offset as int + size as int]) == hash)
  }

  function EncodedChunk(p: Primitives, content: Bytes, offset: int64, size: int64, comp: Option<Compression>): Bytes
    requires comp.Some? && 0 <= offset as int && 0 <= size as int && offset as int + size as int <= |content|
  {
    p.encode(comp.value, content[offset as int..offset as int + size as int])
  }

  // Collecting the keys of a listing

  /** The hashes of a run of listed keys, in order. */
  function Collect(prefix: string, keys: seq<string>): seq<string> {
    if keys == [] then [] else
    var n := |keys| - 1;
    match ListedHash(prefix, keys[n])
    case None => Collect(prefix, keys[..n])
    case Some(hash) => Collect(prefix, keys[..n]) + [hash]
  }

  lemma {:induction false} CollectMembers(prefix: string, keys: seq<string>, hash: string)
    ensures hash in Collect(prefix, keys) <==> exists i :: 0 <= i < |keys| && ListedHash(prefix, keys[i]) == Some(hash)
  {
    if keys != [] {
      var n := |keys| - 1;
      CollectMembers(prefix, keys[..n], hash);
      if ListedHash(prefix, keys[n]) != Some(hash) {
        forall i | 0 <= i < |keys| && ListedHash(prefix, keys[i]) == Some(hash) ensures keys[..n][i] == keys[i] {}
      }
    }
  }

  lemma {:induction false} CollectDistinct(prefix: string, keys: seq<string>)
    requires Distinct(keys) && forall i | 0 <= i < |keys| :: prefix <= keys[i]
    ensures Distinct(Collect(prefix, keys))
  {
    if keys != [] {
      var n := |keys| - 1;
      CollectDistinct(prefix, keys[..n]);
      match ListedHash(prefix, keys[n])
      case None =>
      case Some(hash) =>
        CollectMembers(prefix, keys[..n], hash);
        forall i | 0 <= i < n ensures ListedHash(prefix, keys[..n][i]) != Some(hash) {
          ListedExact(prefix, keys[n], hash);
          ListedExact(prefix, keys[i], hash);
        }
    }
  }

  function Flatten(pages: seq<seq<string>>): seq<string> {
    if pages == [] then [] else Flatten(pages[..|pages| - 1]) + pages[|pages| - 1]
  }

  lemma {:induction false} FlattenMember(pages: seq<seq<string>>, page: nat, item: nat)
    requires page < |pages| && item < |pages[page]|
    ensures pages[page][item] in Flatten(pages)
  {
    if page < |pages| - 1 {
      FlattenMember(pages[..|pages| - 1], page, item);
    }
  }

  /** The pages of a listing hold every key under the prefix, once. */
  ghost predicate ListsPrefix(bucket: map<string, Bytes>, prefix: string, pages: seq<seq<string>>) {
    var keys := Flatten(pages);
    Distinct(keys) && forall k :: k in keys <==> k in bucket && prefix <= k
  }

  /** The paging loop: the listed hashes of every page, unless one of them cannot be had. */
  method CollectPages(prefix: string, pages: seq<seq<string>>, failAt: Option<nat>) returns (r: Option<seq<string>>)
    ensures r == if failAt.Some? && failAt.value < |pages| then None else Some(Collect(prefix, Flatten(pages)))
  {
    var hashes: seq<string> := [];
    for page := 0 to |pages|
      invariant hashes == Collect(prefix, Flatten(pages[..page]))
      invariant failAt.Some? ==> failAt.value >= page
    {
      if failAt == Some(page) {
        return None;
      }
      hashes := CollectPage(prefix, pages[page], hashes, Flatten(pages[..page]));
      assert pages[..page + 1][..page] == pages[..page];
    }
    assert pages[..|pages|] == pages;
    return Some(hashes);
  }

  lemma CollectOne(prefix: string, seen: seq<string>, key: string)
    ensures Collect(prefix, seen + [key]) == Collect(prefix, seen) + match ListedHash(prefix, key) case None =>
      [] case Some(hash) => [hash]
  {
    assert (seen + [key])[..|seen|] == seen;
  }

  method CollectPage(prefix: string, page: seq<string>, before: seq<string>, ghost seen: seq<string>)
    returns (hashes: seq<string>)
    requires before == Collect(prefix, seen)
    ensures hashes == Collect(prefix, seen + page)
  {
    hashes := before;
    assert seen + page[..0] == seen;
    for item := 0 to |page|
      invariant hashes == Collect(prefix, seen + page[..item])
    {
      var hash := ListedHash(prefix, page[item]);
      CollectOne(prefix, seen + page[..item], page[item]);
      assert seen + page[..item + 1] == (seen + page[..item]) + [page[item]];
      if hash.Some? {
        hashes := hashes + [hash.value];
      }
    }
    assert page[..|page|] == page;
  }

  // Restoring in order

  /** How fetching a part goes. */
  datatype Fetch = Answered | ContextDone | ServiceError

  function PartUnder(p: Primitives, store: Store, space: Space, key: Bytes, compType: CompressionType, hash: string,
                     fetch: Fetch): Result<Bytes> {
    if fetch == ContextDone then Err(Cancelled)
    else if |hash| < 3 then Err(Rejected)
    else if fetch == ServiceError then Err(Broken)
    else RestorePart(p, store, space, key, compType, hash)
  }

  function PartsUnder(p: Primitives, store: Store, space: Space, key: Bytes, compType: CompressionType,
                      parts: seq<Chunk>, env: nat -> Fetch, from: nat): Result<Bytes>
    requires from <= |parts|
    decreases |parts| - from
  {
    if from == |parts| then Ok([]) else
    var first := PartUnder(p, store, space, key, compType, parts[from].hash, env(from));
    if first.Err? then first else
    var rest := PartsUnder(p, store, space, key, compType, parts, env, from + 1);
    if rest.Err? then rest else Ok(first.value + rest.value)
  }

  function FileUnder(p: Primitives, store: Store, space: Space, key: Bytes, compType: CompressionType,
                     record: FileRecord, env: nat -> Fetch): Result<Bytes> {
    var restored := PartsUnder(p, store, space, key, compType, Parts(record), env, 0);
    if restored.Ok? && |restored.value| != record.size then Err(Broken) else restored
  }

  ghost predicate AllAnswered(env: nat -> Fetch) { forall k :: env(k) == Answered }

  lemma {:induction false} PartsUnderAgree(p: Primitives, store: Store, space: Space, key: Bytes,
                                           compType: CompressionType, parts: seq<Chunk>, env: nat -> Fetch, from: nat)
    requires from <= |parts|
    ensures var restored := PartsUnder(p, store, space, key, compType, parts, env, from);
            restored.Ok? || AllAnswered(env) ==> restored == RestoreParts(p, store, space, key, compType, parts[from..])
    decreases |parts| - from
  {
    if from < |parts| {
      PartsUnderAgree(p, store, space, key, compType, parts, env, from + 1);
      assert parts[from..][1..] == parts[from + 1..];
    }
  }

  /** Whatever comes of a restore that the service answers, or that succeeds, is what the store says. */
  lemma FileUnderAgrees(p: Primitives, store: Store, space: Space, key: Bytes, compType: CompressionType,
                        record: FileRecord, env: nat -> Fetch)
    requires UsableHashes(record)
    ensures var restored := FileUnder(p, store, space, key, compType, record, env);
            restored.Ok? || AllAnswered(env) ==> restored == RestoreFile(p, store, space, key, compType, record)
  {
    PartsUnderAgree(p, store, space, key, compType, Parts(record), env, 0);
    assert Parts(record)[0..] == Parts(record);
    RestoreFileCases(p, store, space, key, compType, record);
  }

  /** A part that is fetched, is there, opens and decodes. */
  predicate PartComes(p: Primitives, store: Store, space: Space, key: Bytes, compType: CompressionType, hash: string,
                      fetch: Fetch) {
    var id := ObjectId(space, hash);
    fetch == Answered && |hash| >= 3 && id in store && Opened(p, key, store[id]).Ok?
    && p.decode(compType, Opened(p, key, store[id]).value).Some?
  }

  /** What is reported of a part that does not come, by what is in its way first. */
  predicate PartLost(p: Primitives, store: Store, space: Space, key: Bytes, compType: CompressionType, hash: string,
                     fetch: Fetch, fault: Fault) {
    var id := ObjectId(space, hash);
    match fetch
    case ContextDone => fault == Cancelled
    case ServiceError => fault == if |hash| < 3 then Rejected else Broken
    case Answered =>
      || (|hash| < 3 && fault == Rejected)
      || (|hash| >= 3 && id !in store && fault == NotFound(hash))
      || (|hash| >= 3 && id in store && Opened(p, key, store[id]) == Err(fault))
      || (|hash| >= 3 && id in store && Opened(p, key, store[id]).Ok? && fault == Broken
          && p.decode(compType, Opened(p, key, store[id]).value) == None)
  }

  ghost predicate PartsCome(p: Primitives, store: Store, space: Space, key: Bytes, compType: CompressionType,
                            parts: seq<Chunk>, env: nat -> Fetch, from: nat, to: nat)
    requires to <= |parts|
  {
    forall k: nat | from <= k < to :: PartComes(p, store, space, key, compType, parts[k].hash, env(k))
  }

  /** The first part that does not come, and what is reported of it. */
  ghost predicate FirstLost(p: Primitives, store: Store, space: Space, key: Bytes, compType: CompressionType,
                            parts: seq<Chunk>, env: nat -> Fetch, from: nat, k: nat, fault: Fault) {
    && from <= k < |parts| && PartsCome(p, store, space, key, compType, parts, env, from, k)
    && PartLost(p, store, space, key, compType, parts[k].hash, env(k), fault)
  }

  lemma PartUnderExact(p: Primitives, store: Store, space: Space, key: Bytes, compType: CompressionType, hash: string,
                       fetch: Fetch)
    ensures var part := PartUnder(p, store, space, key, compType, hash, fetch);
            && (part.Ok? <==> PartComes(p, store, space, key, compType, hash, fetch))
            && (part.Err? ==> PartLost(p, store, space, key, compType, hash, fetch, part.fault))
  {
  }

  /** Either all parts come, and then they restore in order, or the first one that does not is what is reported. */
  lemma {:induction false} PartsUnderExact(p: Primitives, store: Store, space: Space, key: Bytes,
                                           compType: CompressionType, parts: seq<Chunk>, env: nat -> Fetch, from: nat)
    requires from <= |parts|
    ensures var all := PartsUnder(p, store, space, key, compType, parts, env, from);
            && (all.Ok? <==> PartsCome(p, store, space, key, compType, parts, env, from, |parts|))
            && (all.Ok? ==> all == RestoreParts(p, store, space, key, compType, parts[from..]))
            && (all.Err? ==> exists k: nat ::
                  FirstLost(p, store, space, key, compType, parts, env, from, k, all.fault))
    decreases |parts| - from
  {
    PartsUnderAgree(p, store, space, key, compType, parts, env, from);
    if from < |parts| {
      PartsUnderExact(p, store, space, key, compType, parts, env, from + 1);
      var first := PartUnder(p, store, space, key, compType, parts[from].hash, env(from));
      var rest := PartsUnder(p, store, space, key, compType, parts, env, from + 1);
      PartUnderExact(p, store, space, key, compType, parts[from].hash, env(from));
      if first.Err? {
        assert FirstLost(p, store, space, key, compType, parts, env, from, from, first.fault);
      } else if rest.Err? {
        var k: nat :| FirstLost(p, store, space, key, compType, parts, env, from + 1, k, rest.fault);
        assert FirstLost(p, store, space, key, compType, parts, env, from, k, rest.fault);
      }
    }
  }

  /** There is one first part that does not come, and one report of it. */
  lemma OneFirstLost(p: Primitives, store: Store, space: Space, key: Bytes, compType: CompressionType,
                     parts: seq<Chunk>, env: nat -> Fetch, j: nat, k: nat, a: Fault, b: Fault)
    requires FirstLost(p, store, space, key, compType, parts, env, 0, j, a)
    requires FirstLost(p, store, space, key, compType, parts, env, 0, k, b)
    ensures j == k && a == b && !PartsCome(p, store, space, key, compType, parts, env, 0, |parts|)
  {
    assert !PartComes(p, store, space, key, compType, parts[j].hash, env(j));
    assert !PartComes(p, store, space, key, compType, parts[k].hash, env(k));
  }

  /** What is written so far and what the remaining parts restore to make up the whole. */
  ghost predicate Restoring(p: Primitives, view: Store, space: Space, key: Bytes, compType: CompressionType,
                            parts: seq<Chunk>, env: nat -> Fetch, index: nat, destination: Bytes)
  {
    && index <= |parts|
    && PartsUnder(p, view, space, key, compType, parts, env, 0) ==
         Prefixed(destination, PartsUnder(p, view, space, key, compType, parts, env, index))
  }

  function Prefixed(destination: Bytes, rest: Result<Bytes>): Result<Bytes> {
    if rest.Err? then rest else Ok(destination + rest.value)
  }

  lemma RestoringStart(all: Result<Bytes>)
    ensures Prefixed([], all) == all
  {
    if all.Ok? { assert [] + all.value == all.value; }
  }

  lemma RestoringStep(p: Primitives, view: Store, space: Space, key: Bytes, compType: CompressionType,
                      parts: seq<Chunk>, env: nat -> Fetch, index: nat, destination: Bytes, part: Result<Bytes>)
    requires index < |parts| && Restoring(p, view, space, key, compType, parts, env, index, destination)
    requires part == PartUnder(p, view, space, key, compType, parts[index].hash, env(index))
    ensures if part.Err? then PartsUnder(p, view, space, key, compType, parts, env, 0) == part
            else Restoring(p, view, space, key, compType, parts, env, index + 1, destination + part.value)
  {
    var rest := PartsUnder(p, view, space, key, compType, parts, env, index + 1);
    if part.Ok? && rest.Ok? {
      assert destination + (part.value + rest.value) == (destination + part.value) + rest.value;
    }
  }

  lemma Overwritten(files: map<string, Bytes>, path: string, first: Bytes, second: Bytes)
    ensures files[path := first][path := second] == files[path := second]
    ensures files[path := second] - {path} == files - {path}
  {
  }

  /** Where a restore leaves the file system once its destination is open. */
  function Filled(files: map<string, Bytes>, path: string, restored: Result<Bytes>): map<string, Bytes> {
    if restored.Ok? then files[path := restored.value] else files - {path}
  }

  lemma RestoreFileCases(p: Primitives, store: Store, space: Space, key: Bytes, compType: CompressionType,
                         record: FileRecord)
    ensures var parts := RestoreParts(p, store, space, key, compType, Parts(record));
            RestoreFile(p, store, space, key, compType, record) ==
              if UsableHashes(record) then (if parts.Ok? && |parts.value| != record.size then Err(Broken) else parts)
                  else Err(Rejected)
  {
  }

  predicate UsableHashes(record: FileRecord) { forall k | 0 <= k < |Parts(record)| :: |Parts(record)[k].hash| >= 3 }

  // The bucket as a store

  ghost predicate IsObjectKey(repositoryPath: string, key: string) {
    exists id: ObjectId :: OrdinaryHash(id.hash) && ObjectKey(repositoryPath, id) == key
  }

  /** The bucket holds the objects of the store under their keys, and nothing else under a generation's prefix. */
  ghost predicate Represents(repositoryPath: string, bucket: map<string, Bytes>, view: Store) {
    SameObjects(repositoryPath, bucket, view) && NothingElse(repositoryPath, bucket)
  }

  ghost predicate SameObjects(repositoryPath: string, bucket: map<string, Bytes>, view: Store) {
    && (forall id :: id in view ==> OrdinaryHash(id.hash))
    && (forall id: ObjectId | OrdinaryHash(id.hash) :: ObjectKey(repositoryPath, id) in bucket <==> id in view)
    && (forall id :: id in view ==> bucket[ObjectKey(repositoryPath, id)] == view[id])
  }

  ghost predicate NothingElse(repositoryPath: string, bucket: map<string, Bytes>) {
    forall g: nat, key :: key in bucket && GenerationPrefix(repositoryPath, g) <= key ==>
        IsObjectKey(repositoryPath, key)
  }

  function Without(view: Store, generation: nat): Store {
    map id | id in view && id.space != Generation(generation) :: view[id]
  }

  lemma RepresentsPut(repositoryPath: string, bucket: map<string, Bytes>, view: Store, id: ObjectId, blob: Bytes)
    requires Represents(repositoryPath, bucket, view) && OrdinaryHash(id.hash)
    ensures Represents(repositoryPath, bucket[ObjectKey(repositoryPath, id) := blob], view[id := blob])
  {
    SameObjectsPut(repositoryPath, bucket, view, id, blob);
    assert IsObjectKey(repositoryPath, ObjectKey(repositoryPath, id));
    NothingElsePut(repositoryPath, bucket, ObjectKey(repositoryPath, id), blob);
  }

  lemma NothingElsePut(repositoryPath: string, bucket: map<string, Bytes>, key: string, blob: Bytes)
    requires NothingElse(repositoryPath, bucket) && IsObjectKey(repositoryPath, key)
    ensures NothingElse(repositoryPath, bucket[key := blob])
  {
  }

  lemma SameObjectsPut(repositoryPath: string, bucket: map<string, Bytes>, view: Store, id: ObjectId, blob: Bytes)
    requires SameObjects(repositoryPath, bucket, view) && OrdinaryHash(id.hash)
    ensures SameObjects(repositoryPath, bucket[ObjectKey(repositoryPath, id) := blob], view[id := blob])
  {
    var key := ObjectKey(repositoryPath, id);
    var bucket', view' := bucket[key := blob], view[id := blob];
    forall other: ObjectId | OrdinaryHash(other.hash)
      ensures ObjectKey(repositoryPath, other) in bucket' <==> other in view'
      ensures other in view' ==> bucket'[ObjectKey(repositoryPath, other)] == view'[other]
    {
      if ObjectKey(repositoryPath, other) == key {
        ObjectKeyInjective(repositoryPath, other, id);
      }
    }
  }

  /** The objects whose keys are still there. */
  function Remaining(repositoryPath: string, view: Store, kept: map<string, Bytes>): Store {
    map id | id in view && |id.hash| >= 2 && ObjectKey(repositoryPath, id) in kept :: view[id]
  }

  /** Removing keys from the bucket removes exactly the objects stored under them. */
  lemma RepresentsRemove(repositoryPath: string, bucket: map<string, Bytes>, view: Store, kept: map<string, Bytes>)
    requires Represents(repositoryPath, bucket, view)
    requires forall k :: k in kept ==> k in bucket && kept[k] == bucket[k]
    ensures Represents(repositoryPath, kept, Remaining(repositoryPath, view, kept))
  {
  }

  lemma OthersRemain(repositoryPath: string, bucket: map<string, Bytes>, view: Store, kept: map<string, Bytes>,
                     generation: nat)
    requires SameObjects(repositoryPath, bucket, view)
    requires forall k :: k in bucket && !(GenerationPrefix(repositoryPath, generation) <= k) ==> k in kept
    ensures forall id :: id in view && id.space != Generation(generation) ==>
              id in Remaining(repositoryPath, view, kept)
  {
    forall id | id in view && id.space != Generation(generation) ensures id in Remaining(repositoryPath, view, kept) {
      PrefixExact(repositoryPath, generation, id);
    }
  }

  lemma GenerationGone(repositoryPath: string, bucket: map<string, Bytes>, view: Store, kept: map<string, Bytes>,
                       generation: nat)
    requires SameObjects(repositoryPath, bucket, view)
    requires forall k :: k in bucket && !(GenerationPrefix(repositoryPath, generation) <= k) ==> k in kept
    requires forall k :: k in kept ==> !(GenerationPrefix(repositoryPath, generation) <= k)
    ensures Remaining(repositoryPath, view, kept) == Without(view, generation)
  {
    OthersRemain(repositoryPath, bucket, view, kept, generation);
    forall id | id in view && id.space == Generation(generation) ensures id !in Remaining(repositoryPath, view, kept) {
      PrefixExact(repositoryPath, generation, id);
    }
  }

  class ObjectRepository {
    const p: Primitives
    const repositoryPath: string
    var bucket: map<string, Bytes>
    ghost var view: Store

    ghost predicate Valid()
      reads this
    {
      Represents(repositoryPath, bucket, view)
    }

    /** Over a bucket that holds nothing of this repository yet; other keys may be there. */
    constructor (p: Primitives, repositoryPath: string, bucket: map<string, Bytes>)
      requires forall id: ObjectId | OrdinaryHash(id.hash) :: ObjectKey(repositoryPath, id) !in bucket
      requires forall g: nat, key | key in bucket :: !(GenerationPrefix(repositoryPath, g) <= key)
      ensures Valid() && view == map[]
      ensures this.p == p && this.repositoryPath == repositoryPath && this.bucket == bucket
    {
      this.p, this.repositoryPath, this.bucket, this.view := p, repositoryPath, bucket, map[];
    }

    method Put(id: ObjectId, key: string, blob: Bytes, reply: Reply) returns (ok: bool)
      requires Valid() && OrdinaryHash(id.hash) && key == ObjectKey(repositoryPath, id)
      modifies this
      ensures Valid() && (ok <==> reply == Done)
      ensures view == (if reply == Refused then old(view) else old(view)[id := blob])
      ensures bucket == (if reply == Refused then old(bucket) else old(bucket)[key := blob])
    {
      if reply != Refused {
        RepresentsPut(repositoryPath, bucket, view, id, blob);
        bucket := bucket[key := blob];
        view := view[id := blob];
      }
      ok := reply == Done;
    }

    /** What a read of an object's key gets; any hash has a key, ordinary or not. */
    ghost function Fetched(id: ObjectId): Option<Bytes>
      requires |id.hash| >= 2
      reads this
    {
      if ObjectKey(repositoryPath, id) in bucket then Some(bucket[ObjectKey(repositoryPath, id)]) else None
    }

    /** The store `seen` has under an id what a read of its key gets. */
    ghost predicate Shows(seen: Store, id: ObjectId)
      reads this
    {
      |id.hash| >= 3 ==> Fetched(id) == if id in seen then Some(seen[id]) else None
    }

    ghost predicate ShowsParts(seen: Store, space: Space, parts: seq<Chunk>)
      reads this
    {
      forall k | 0 <= k < |parts| :: Shows(seen, ObjectId(space, parts[k].hash))
    }

    /** The store as reading some hashes in a namespace shows it. */
    ghost function SeenBy(space: Space, hashes: set<string>): Store
      reads this
    {
      map hash | hash in hashes && |hash| >= 3 && ObjectKey(repositoryPath, ObjectId(space, hash)) in bucket ::
        ObjectId(space, hash) := bucket[ObjectKey(repositoryPath, ObjectId(space, hash))]
    }

    lemma SeenByShows(space: Space, hashes: set<string>, hash: string)
      requires hash in hashes
      ensures Shows(SeenBy(space, hashes), ObjectId(space, hash))
    {
    }

    /** For the hashes objects have, the key shows the object. */
    lemma ViewShows(id: ObjectId)
      requires Valid() && OrdinaryHash(id.hash)
      ensures Shows(view, id) && Fetched(id) == if id in view then Some(view[id]) else None
    {
    }

    /** A chunk is stored, as the blob of its encoding, exactly when it can be opened, its encoding has the expected
        hash, it can be encrypted, and the put is not refused; whatever goes wrong, no other object changes. */
    method SaveChunk(content: Bytes, hash: string, offset: int64, size: int64, comp: Option<Compression>, key: Bytes,
                     generation: nat, entropy: Option<Bytes>, cancelled: bool, reply: Reply)
      returns (fault: Option<Fault>)
      requires Valid() && Lawful(p) && |content| <= MAX_INT64
      modifies this
      ensures Valid()
      ensures var id := ObjectId(SpaceFor(key, generation), hash);
              if !cancelled && ChunkFits(p, content, hash, offset, size, comp) && CanSeal(key, entropy)
              then view == (if reply == Refused then old(view)
                            else old(view)[id := Sealed(p, key, entropy, EncodedChunk(p, content, offset, size, comp))])
                   && (fault == None <==> reply == Done)
              else view == old(view) && fault.Some?
      ensures OpenSource(content, hash, offset, size, comp).Some? ==>
                fault == OpenSource(content, hash, offset, size, comp)
    {
      fault := OpenSource(content, hash, offset, size, comp);
      if fault.Some? {
        return;
      }
      OpenSourceExact(content, hash, offset, size, comp);
      var section := content[offset as int..offset as int + size as int];
      var encoded := Encode(p, section, hash, comp, key, entropy, cancelled);
      if encoded.Err? {
        return Some(encoded.fault);
      }
      var id := ObjectId(SpaceFor(key, generation), hash);
      assert IsHex(p.sha(p.encode(comp.value, section)));
      HexIsOrdinary(hash);
      var ok := Put(id, ObjectKey(repositoryPath, id), encoded.value, reply);
      fault := if ok then None else Some(Broken);
    }

    /** Format one: the whole file, put only where nothing is; losing that race counts as saved. The hash is taken as
        given, and an error of closing the encryption is dropped: without entropy an empty object is put. */
    method Save(content: Bytes, hash: string, comp: Option<Compression>, key: Bytes, generation: nat,
                entropy: Option<Bytes>, cancelled: bool, reply: Reply)
      returns (fault: Option<Fault>)
      requires Valid()
      modifies this
      ensures OrdinaryHash(hash) || bucket == old(bucket) ==> Valid()
      ensures var id := ObjectId(SpaceFor(key, generation), hash);
              if !cancelled && comp.Some? && |hash| >= 3 && ValidKey(key)
              then bucket == (if reply == Refused || ObjectKey(repositoryPath, id) in old(bucket) then old(bucket)
                              else old(bucket)[ObjectKey(repositoryPath, id) :=
                                               WholeBlob(p, key, entropy, p.encode(comp.value, content))])
                   && (fault == None <==> reply == Done)
              else bucket == old(bucket) && fault.Some?
      ensures var id := ObjectId(SpaceFor(key, generation), hash);
              OrdinaryHash(hash) && !cancelled && comp.Some? && ValidKey(key) ==>
                view == if reply == Refused || id in old(view) then old(view)
                        else old(view)[id := WholeBlob(p, key, entropy, p.encode(comp.value, content))]
      ensures bucket == old(bucket) ==> view == old(view)
    {
      if cancelled {
        return Some(Cancelled);
      }
      if comp == None || |hash| < 3 {
        return Some(Rejected);
      }
      var id := ObjectId(SpaceFor(key, generation), hash);
      var temporary := p.encode(comp.value, content);
      if |key| > 0 {
        var output := new AesGcm.Destination([]);
        var encrypted := AesGcm.NewEncoder(p, output, key);
        if encrypted == None {
          return Some(Rejected);
        }
        encrypted.value.Write(temporary);
        assert [] + temporary == temporary;
        var closeErr := encrypted.value.Close(entropy);
        assert entropy.Some? ==>
                 [] + AesGcm.Frame(p, key, entropy.value, temporary) == AesGcm.Frame(p, key, entropy.value, temporary);
        temporary := output.written;
      }
      if ObjectKey(repositoryPath, id) in bucket {
        return if reply == Done then None else Some(Broken);
      }
      var ok := PutAnywhere(id, temporary, reply);
      fault := if ok then None else Some(Broken);
    }

    /** A put where nothing is, under the key of any hash. */
    method PutAnywhere(id: ObjectId, blob: Bytes, reply: Reply) returns (ok: bool)
      requires Valid() && |id.hash| >= 3 && ObjectKey(repositoryPath, id) !in bucket
      modifies this
      ensures OrdinaryHash(id.hash) || reply == Refused ==> Valid()
      ensures ok <==> reply == Done
      ensures bucket == if reply == Refused then old(bucket) else old(bucket)[ObjectKey(repositoryPath, id) := blob]
      ensures OrdinaryHash(id.hash) ==> id !in old(view) && view == if reply == Refused then old(view)
              else old(view)[id := blob]
      ensures reply == Refused ==> view == old(view)
    {
      if OrdinaryHash(id.hash) {
        ok := Put(id, ObjectKey(repositoryPath, id), blob, reply);
      } else {
        if reply != Refused {
          bucket := bucket[ObjectKey(repositoryPath, id) := blob];
        }
        ok := reply == Done;
      }
    }

    method AlreadyExists(hash: string, key: Bytes, generation: nat, cancelled: bool, answered: bool)
      returns (r: Result<bool>)
      ensures r == if cancelled then Err(Cancelled) else if |hash| < 3 then Err(Rejected)
              else if !answered then Err(Broken)
                   else Ok(Fetched(ObjectId(SpaceFor(key, generation), hash)).Some?)
    {
      if cancelled {
        return Err(Cancelled);
      }
      if |hash| < 3 {
        return Err(Rejected);
      }
      if !answered {
        return Err(Broken);
      }
      return Ok(ObjectKey(repositoryPath, ObjectId(SpaceFor(key, generation), hash)) in bucket);
    }

    /** Reading for verification; only a missing key is told apart from other errors. */
    method ReadObject(hash: string, key: Bytes, generation: nat, answered: bool) returns (r: Result<Bytes>)
      ensures r == if |hash| < 3 then Err(Rejected) else if !answered then Err(Broken)
                   else match Fetched(ObjectId(SpaceFor(key, generation), hash))
                        case None => Err(NotFound(hash))
                        case Some(blob) => Opened(p, key, blob)
    {
      if |hash| < 3 {
        return Err(Rejected);
      }
      if !answered {
        return Err(Broken);
      }
      var objectPath := ObjectKey(repositoryPath, ObjectId(SpaceFor(key, generation), hash));
      if objectPath !in bucket {
        return Err(NotFound(hash));
      }
      if |key| == 0 {
        return Ok(bucket[objectPath]);
      }
      return AesGcm.Decode(p, bucket[objectPath], key);
    }

    method ReadEncryptedObject(hash: string, generation: nat, key: Bytes, cancelled: bool, answered: bool)
      returns (r: Result<Bytes>)
      ensures r == if cancelled then Err(Cancelled) else if |hash| < 3 || |key| == 0 then Err(Rejected)
                   else if !answered || RekeyKey(repositoryPath, generation, hash) !in bucket then Err(Broken)
                   else Opened(p, key, bucket[RekeyKey(repositoryPath, generation, hash)])
      ensures var id := ObjectId(Generation(generation), hash);
              Valid() && OrdinaryHash(hash) && !cancelled && |key| > 0 ==>
                r == if !answered || id !in view then Err(Broken) else Opened(p, key, view[id])
    {
      if cancelled {
        return Err(Cancelled);
      }
      if |hash| < 3 || |key| == 0 {
        return Err(Rejected);
      }
      if OrdinaryHash(hash) { RekeyKeyAgrees(repositoryPath, generation, hash); }
      var objectPath := RekeyKey(repositoryPath, generation, hash);
      if !answered || objectPath !in bucket {
        return Err(Broken);
      }
      return AesGcm.Decode(p, bucket[objectPath], key);
    }

    /** The decrypted content is sealed again, under another key and into another generation, and put in one piece or
        not at all. */
    method SaveRekeyedObject(hash: string, source: Result<Bytes>, generation: nat, key: Bytes,
                             entropy: Option<Bytes>, cancelled: bool, reply: Reply)
      returns (fault: Option<Fault>)
      requires Valid()
      modifies this
      ensures OrdinaryHash(hash) || bucket == old(bucket) ==> Valid()
      ensures if source.Ok? && entropy.Some? && !cancelled && |hash| >= 3 && |key| == AES_256_KEY_SIZE
              && reply != Refused
              then bucket == old(bucket)[RekeyKey(repositoryPath, generation, hash) :=
                                         Blob(p, key, entropy.value, source.value)]
                   && (OrdinaryHash(hash) ==>
                         view == old(view)[ObjectId(Generation(generation), hash) :=
                                           Blob(p, key, entropy.value, source.value)])
                   && (fault == None <==> reply == Done)
              else bucket == old(bucket) && view == old(view) && fault.Some?
    {
      if cancelled {
        return Some(Cancelled);
      }
      if |hash| < 3 || |key| == 0 {
        return Some(Rejected);
      }
      if source.Err? {
        return Some(Broken);
      }
      var encoded := Encrypt(p, source.value, key, entropy);
      if encoded.Err? {
        return Some(encoded.fault);
      }
      var ok;
      if OrdinaryHash(hash) {
        RekeyKeyAgrees(repositoryPath, generation, hash);
        ok := Put(ObjectId(Generation(generation), hash), RekeyKey(repositoryPath, generation, hash), encoded.value,
                  reply);
      } else {
        if reply != Refused {
          bucket := bucket[RekeyKey(repositoryPath, generation, hash) := encoded.value];
        }
        ok := reply == Done;
      }
      fault := if ok then None else Some(Broken);
    }

    /** `seen` is what the bucket shows of the part. */
    method RestoreObjectPart(hash: string, compType: CompressionType, key: Bytes, generation: nat, fetch: Fetch,
                             ghost seen: Store)
      returns (r: Result<Bytes>)
      requires Shows(seen, ObjectId(SpaceFor(key, generation), hash))
      ensures r == PartUnder(p, seen, SpaceFor(key, generation), key, compType, hash, fetch)
    {
      if fetch == ContextDone {
        return Err(Cancelled);
      }
      if |hash| < 3 {
        return Err(Rejected);
      }
      if fetch == ServiceError {
        return Err(Broken);
      }
      var objectPath := ObjectKey(repositoryPath, ObjectId(SpaceFor(key, generation), hash));
      if objectPath !in bucket {
        return Err(NotFound(hash));
      }
      var reader := bucket[objectPath];
      if |key| > 0 {
        var decoded := AesGcm.Decode(p, reader, key);
        if decoded.Err? {
          return Err(decoded.fault);
        }
        reader := decoded.value;
      }
      var data := p.decode(compType, reader);
      if data == None {
        return Err(Broken);
      }
      return Ok(data.value);
    }

    /** Parts are appended to the destination in record order. Once the destination is open, anything that goes wrong
        removes it, whatever was there before. `env` is how fetching each part goes, `seen` what the bucket shows. */
    method RestoreObject(comp: Option<Compression>, file: File, key: Bytes, generation: nat, disk: Disk,
                         cancelled: bool, opens: bool, env: nat -> Fetch, ghost seen: Store)
      returns (fault: Option<Fault>)
      requires ShowsParts(seen, SpaceFor(key, generation), Parts(file.Record()))
      modifies disk
      ensures if cancelled then fault == Some(Cancelled) && disk.files == old(disk.files)
              else if comp == None || !UsableHashes(file.Record())
                  then fault == Some(Rejected) && disk.files == old(disk.files)
              else if !opens then fault == Some(Broken) && disk.files == old(disk.files)
              else
                var restored := FileUnder(p, seen, SpaceFor(key, generation), key, comp.value.compType, file.Record(),
                                          env);
                && fault == (if restored.Ok? then None else Some(restored.fault))
                && disk.files == Filled(old(disk.files), file.path, restored)
    {
      if cancelled {
        return Some(Cancelled);
      }
      if comp == None {
        return Some(Rejected);
      }
      ghost var record := file.Record();
      var hashes := GetHashes(FileRecord(file.path, file.size, file.hash, file.chunks));
      if hashes.Err? {
        return Some(Rejected);
      }
      if !opens {
        return Some(Broken);
      }
      fault := FillDestination(hashes.value, Parts(record), comp.value.compType, file.size, key, generation, disk,
                               file.path, env, seen);
    }

    method FillDestination(hashes: seq<string>, ghost parts: seq<Chunk>, compType: CompressionType, size: int,
                           key: Bytes, generation: nat,
                           disk: Disk, path: string, env: nat -> Fetch, ghost seen: Store)
      returns (fault: Option<Fault>)
      requires hashes == Hashes(parts) && ShowsParts(seen, SpaceFor(key, generation), parts)
      modifies disk
      ensures var restored := PartsUnder(p, seen, SpaceFor(key, generation), key, compType, parts, env, 0);
              && fault == (if restored.Err? then Some(restored.fault) else if |restored.value| == size then None
                           else Some(Broken))
              && disk.files == if fault == None then old(disk.files)[path := restored.value]
                   else old(disk.files) - {path}
    {
      ghost var before := disk.files;
      disk.files := disk.files[path := []];
      var restoredSize, destination := RestoreInOrder(hashes, parts, compType, key, generation, disk, path, env, seen);
      Overwritten(before, path, [], destination);
      if restoredSize.Ok? && restoredSize.value == size {
        return None;
      }
      disk.files := disk.files - {path};
      return Some(if restoredSize.Err? then restoredSize.fault else Broken);
    }

    method RestoreInOrder(hashes: seq<string>, ghost parts: seq<Chunk>, compType: CompressionType, key: Bytes,
                          generation: nat, disk: Disk, path: string, env: nat -> Fetch, ghost seen: Store)
      returns (restoredSize: Result<int>, ghost destination: Bytes)
      requires hashes == Hashes(parts) && ShowsParts(seen, SpaceFor(key, generation), parts)
      requires path in disk.files && disk.files[path] == []
      modifies disk
      ensures disk.files == old(disk.files)[path := destination]
      ensures PartsUnder(p, seen, SpaceFor(key, generation), key, compType, parts, env, 0) ==
                if restoredSize.Ok? then Ok(destination) else Err(restoredSize.fault)
      ensures restoredSize.Ok? ==> restoredSize.value == |destination|
    {
      ghost var before := disk.files;
      ghost var space := SpaceFor(key, generation);
      destination := [];
      var size := 0;
      assert before == before[path := []];
      RestoringStart(PartsUnder(p, seen, space, key, compType, parts, env, 0));
      for index := 0 to |hashes|
        invariant disk.files == before[path := destination] && size == |destination|
        invariant Restoring(p, seen, space, key, compType, parts, env, index, destination)
      {
        assert Shows(seen, ObjectId(space, parts[index].hash));
        var written := AppendPart(hashes[index], compType, key, generation, disk, path, env(index), seen, destination,
                                  before);
        RestoringStep(p, seen, space, key, compType, parts, env, index, destination, written);
        if written.Err? {
          restoredSize := Err(written.fault);
          return;
        }
        destination := destination + written.value;
        size := size + |written.value|;
      }
      assert destination + [] == destination;
      restoredSize := Ok(size);
    }

    method AppendPart(hash: string, compType: CompressionType, key: Bytes, generation: nat, disk: Disk, path: string,
                      fetch: Fetch, ghost seen: Store, ghost destination: Bytes, ghost before: map<string, Bytes>)
      returns (written: Result<Bytes>)
      requires Shows(seen, ObjectId(SpaceFor(key, generation), hash)) && disk.files == before[path := destination]
      modifies disk
      ensures written == PartUnder(p, seen, SpaceFor(key, generation), key, compType, hash, fetch)
      ensures disk.files == before[path := if written.Ok? then destination + written.value else destination]
    {
      written := RestoreObjectPart(hash, compType, key, generation, fetch, seen);
      if written.Ok? {
        Overwritten(before, path, destination, destination + written.value);
        disk.files := disk.files[path := disk.files[path] + written.value];
      }
    }

    /** One of the listings the service may answer with, all on one page. */
    method Pages(prefix: string) returns (pages: seq<seq<string>>)
      ensures ListsPrefix(bucket, prefix, pages) && |pages| == 1
    {
      var left := set k | k in bucket && prefix <= k;
      var page: seq<string> := [];
      while left != {}
        invariant Distinct(page) && forall k :: k in bucket && prefix <= k <==> k in left || k in page
        invariant forall k :: k in left ==> k !in page
        decreases |left|
      {
        var k :| k in left;
        page, left := page + [k], left - {k};
      }
      pages := [page];
      assert pages[..0] == [] && [] + page == page;
      assert Flatten(pages) == page;
    }

    /** `pages` is the service's listing and `failAt` the page it fails to deliver, if any. */
    method ListEncryptedObjects(generation: nat, pages: seq<seq<string>>, failAt: Option<nat>, cancelled: bool)
      returns (r: Result<seq<string>>)
      requires Valid() && ListsPrefix(bucket, GenerationPrefix(repositoryPath, generation), pages)
      ensures r.Ok? <==> !cancelled && (failAt.Some? ==> failAt.value >= |pages|)
      ensures r.Ok? ==> Sorted(r.value) && Distinct(r.value)
      ensures r.Ok? ==> forall hash :: hash in r.value <==> ObjectId(Generation(generation), hash) in view
    {
      if cancelled {
        return Err(Cancelled);
      }
      var prefix := GenerationPrefix(repositoryPath, generation);
      var collected := CollectPages(prefix, pages, failAt);
      if collected == None {
        return Err(Broken);
      }
      var hashes := collected.value;
      ghost var seen := Flatten(pages);
      assert forall i | 0 <= i < |seen| :: seen[i] in seen;
      CollectDistinct(prefix, seen);
      SortKeeps(hashes);
      forall hash ensures hash in Sort(hashes) <==> ObjectId(Generation(generation), hash) in view {
        ListedMeansStored(generation, seen, hash);
      }
      return Ok(Sort(hashes));
    }

    lemma ListedMeansStored(generation: nat, keys: seq<string>, hash: string)
      requires Valid()
      requires forall k :: k in keys <==> k in bucket && GenerationPrefix(repositoryPath, generation) <= k
      ensures hash in Collect(GenerationPrefix(repositoryPath, generation), keys) <==>
                ObjectId(Generation(generation), hash) in view
    {
      var prefix := GenerationPrefix(repositoryPath, generation);
      CollectMembers(prefix, keys, hash);
      if ObjectId(Generation(generation), hash) in view {
        StoredIsListed(generation, keys, hash);
      }
      if i :| 0 <= i < |keys| && ListedHash(prefix, keys[i]) == Some(hash) {
        assert keys[i] in keys;
        ListedIsStored(generation, keys[i], hash);
      }
    }

    lemma StoredIsListed(generation: nat, keys: seq<string>, hash: string)
      requires Valid() && ObjectId(Generation(generation), hash) in view
      requires forall k :: k in keys <==> k in bucket && GenerationPrefix(repositoryPath, generation) <= k
      ensures exists i ::
                0 <= i < |keys| && ListedHash(GenerationPrefix(repositoryPath, generation), keys[i]) == Some(hash)
    {
      var key := ObjectKey(repositoryPath, ObjectId(Generation(generation), hash));
      KeyAfterPrefix(repositoryPath, generation, hash);
      assert key in keys;
      var i :| 0 <= i < |keys| && keys[i] == key;
      ListedExact(GenerationPrefix(repositoryPath, generation), keys[i], hash);
    }

    lemma ListedIsStored(generation: nat, key: string, hash: string)
      requires Valid() && key in bucket && GenerationPrefix(repositoryPath, generation) <= key
      requires ListedHash(GenerationPrefix(repositoryPath, generation), key) == Some(hash)
      ensures ObjectId(Generation(generation), hash) in view
    {
      assert IsObjectKey(repositoryPath, key);
      var id: ObjectId :| OrdinaryHash(id.hash) && ObjectKey(repositoryPath, id) == key;
      PrefixedKey(repositoryPath, generation, id);
      KeyAfterPrefix(repositoryPath, generation, id.hash);
      ListedExact(GenerationPrefix(repositoryPath, generation), key, id.hash);
      assert id.hash == hash;
    }

    method DeletePages(pages: seq<seq<string>>, failAt: Option<nat>)
      returns (fault: Option<Fault>, ghost done: seq<string>)
      modifies this`bucket
      ensures bucket == map k | k in old(bucket) && k !in done :: old(bucket)[k]
      ensures forall k :: k in done ==> k in Flatten(pages)
      ensures fault == None ==> done == Flatten(pages)
      ensures failAt == None ==> fault == None
      ensures fault.Some? ==> failAt == Some(|done|)
      ensures failAt.Some? ==> |done| <= failAt.value
    {
      ghost var keys := Flatten(pages);
      done := [];
      fault := None;
      var deleted := 0;
      label deleting: for page := 0 to |pages|
        invariant fault == None && done == Flatten(pages[..page])
        invariant forall k :: k in done ==> k in keys
        invariant bucket == map k | k in old(bucket) && k !in done :: old(bucket)[k]
        invariant deleted == |done| && (failAt.Some? ==> deleted <= failAt.value)
      {
        ghost var before := done;
        for item := 0 to |pages[page]|
          invariant fault == None && done == before + pages[page][..item]
          invariant forall k :: k in done ==> k in keys
          invariant bucket == map k | k in old(bucket) && k !in done :: old(bucket)[k]
          invariant deleted == |done| && (failAt.Some? ==> deleted <= failAt.value)
        {
          if failAt == Some(deleted) {
            fault := Some(Broken);
            break deleting;
          }
          var objectPath := pages[page][item];
          FlattenMember(pages, page, item);
          bucket := map k | k in bucket && k != objectPath :: bucket[k];
          done := done + [objectPath];
          deleted := deleted + 1;
        }
        assert pages[..page + 1][..page] == pages[..page] && pages[page][..|pages[page]|] == pages[page];
      }
      assert fault == None ==> pages[..|pages|] == pages;
    }

    /** Deletes key after key; `failAt` is the delete, or the page, that fails, if any. Other generations and plain
        objects stay; the generation is untouched exactly when the first delete fails, or when there is nothing in it.
        */
    method DeleteEncryptedGeneration(generation: nat, pages: seq<seq<string>>, failAt: Option<nat>, cancelled: bool)
      returns (fault: Option<Fault>)
      requires Valid() && ListsPrefix(bucket, GenerationPrefix(repositoryPath, generation), pages)
      modifies this
      ensures Valid() && Shrunk(generation, old(view), view)
      ensures forall k | k in old(bucket) && !(GenerationPrefix(repositoryPath, generation) <= k) ::
                k in bucket && bucket[k] == old(bucket)[k]
      ensures fault == None ==> view == Without(old(view), generation)
      ensures !cancelled && failAt == None ==> fault == None
      ensures view == old(view) <==> cancelled || failAt == Some(0) || GenerationEmpty(generation, old(view))
    {
      if cancelled {
        return Some(Cancelled);
      }
      ghost var done;
      fault, done := DeletePages(pages, failAt);
      DeletionShrinks(repositoryPath, generation, view, old(bucket), bucket, done);
      if fault == None {
        GenerationGone(repositoryPath, old(bucket), view, bucket, generation);
      }
      DeletedSomething(repositoryPath, generation, view, old(bucket), bucket, done);
      view := Remaining(repositoryPath, view, bucket);
    }
  }

  /** Objects only disappear, and only from one generation. */
  ghost predicate Shrunk(generation: nat, was: Store, now: Store) {
    && (forall id :: id in now ==> id in was && now[id] == was[id])
    && (forall id :: id in was && id.space != Generation(generation) ==> id in now)
  }

  ghost predicate GenerationEmpty(generation: nat, store: Store) {
    forall hash :: ObjectId(Generation(generation), hash) !in store
  }

  lemma DeletionShrinks(repositoryPath: string, generation: nat, was: Store, before: map<string, Bytes>,
                        bucket: map<string, Bytes>, done: seq<string>)
    requires Represents(repositoryPath, before, was) && bucket == map k | k in before && k !in done :: before[k]
    requires forall k :: k in done ==> k in before && GenerationPrefix(repositoryPath, generation) <= k
    ensures Represents(repositoryPath, bucket, Remaining(repositoryPath, was, bucket))
    ensures Shrunk(generation, was, Remaining(repositoryPath, was, bucket))
  {
    RepresentsRemove(repositoryPath, before, was, bucket);
    OthersRemain(repositoryPath, before, was, bucket, generation);
  }

  /** Every key under a generation's prefix is that of an object of the generation. */
  lemma ObjectUnderKey(repositoryPath: string, generation: nat, was: Store, before: map<string, Bytes>, key: string)
    returns (id: ObjectId)
    requires Represents(repositoryPath, before, was)
    requires key in before && GenerationPrefix(repositoryPath, generation) <= key
    ensures id in was && id == ObjectId(Generation(generation), id.hash) && |id.hash| >= 3
    ensures ObjectKey(repositoryPath, id) == key
  {
    id :| OrdinaryHash(id.hash) && ObjectKey(repositoryPath, id) == key;
    PrefixedKey(repositoryPath, generation, id);
  }

  /** A delete that gets anywhere takes an object. */
  lemma DeletedSomething(repositoryPath: string, generation: nat, was: Store, before: map<string, Bytes>,
                         bucket: map<string, Bytes>, done: seq<string>)
    requires Represents(repositoryPath, before, was) && bucket == map k | k in before && k !in done :: before[k]
    requires forall k :: k in done ==> k in before && GenerationPrefix(repositoryPath, generation) <= k
    ensures Remaining(repositoryPath, was, bucket) == was <==> done == []
    ensures done != [] ==> !GenerationEmpty(generation, was)
  {
    if done != [] {
      assert done[0] in done;
      var id := ObjectUnderKey(repositoryPath, generation, was, before, done[0]);
      assert id !in Remaining(repositoryPath, was, bucket);
    } else {
      assert bucket == before;
    }
  }
}
