/**
  Creating a snapshot: a feeder hands file indexes to workers that hash a file, look for each of its parts in the
  store and save the missing ones; when all went well the manifest is published, last. A run is a sequence of
  actions of the feeder, the workers, the caller and the environment.
 */
module CreatePool {
  import opened Outcomes
  import opened Primitives
  import opened Files
  import opened ObjectKeys
  import opened Objects

  /** What a run is given: the explored files, the repository's format and compression, and where objects go. */
  datatype Backup = Backup(sources: seq<SourceFile>, format: int, comp: Compression, space: Space, key: Bytes)

  datatype Worker =
    | Idle
    | Hashing(file: nat)
    | Checking(file: nat, part: nat, saved: nat)
    | Saving(file: nat, part: nat, saved: nat)
    | Exited

  datatype Phase = Working | Publishing | Ended

  /** `credit` records what each finished file added to the total, `born` the part of each object new to the store,
      once; nothing reads them. */
  datatype Run = Run(store: Store, files: seq<FileRecord>, workers: seq<Worker>, next: nat, feeding: bool, failed: bool,
                     cancelled: bool, total: nat, phase: Phase, published: bool, credit: seq<Option<nat>>,
                     born: seq<Chunk>)

  datatype Action =
    | Deliver(worker: nat)
    | StopFeeding                        // the feeder sees the context done
    | CloseFeed                          // every index was handed out
    | Hash(worker: nat)
    | Hit(worker: nat)                   // the part's object already exists
    | Miss(worker: nat)
    | Put(worker: nat, seal: Option<Bytes>)     // sealed, if a key needs it, with a nonce
    | PutLost(worker: nat, seal: Option<Bytes>) // stored, but reported as failed
    | Fail(worker: nat)
    | Leave(worker: nat)                 // an idle worker sees the closed channel
    | Cancel                             // the caller's context is cancelled
    | ReportError
    | CheckContext                       // saving the manifest looks at the context first
    | Publish
    | PublishRefused
    | PublishLost                        // published, but reported as failed

  function Expected(p: Primitives, b: Backup, i: nat): FileRecord
    requires i < |b.sources|
  {
    Calculated(p, b.format, b.comp, b.sources[i])
  }

  function Place(b: Backup, part: Chunk): ObjectId { ObjectId(b.space, part.hash) }

  function Start(b: Backup, store: Store, workers: nat): Run {
    var n := |b.sources|;
    var most := if workers > n then n else workers;
    Run(store, seq(n, i requires 0 <= i < n => FileRecord(b.sources[i].path, |b.sources[i].content|, "", [])),
        seq(if most < 1 then 1 else most, _ => Idle), 0, true, false, false, 0, Working, false, seq(n, _ => None), [])
  }

  predicate Busy(worker: Worker) { worker.Hashing? || worker.Checking? || worker.Saving? }

  predicate AllExited(run: Run) {
    !run.feeding && forall w | 0 <= w < |run.workers| :: run.workers[w] == Exited
  }

  /** The part a checking or saving worker is at. */
  predicate AtPart(b: Backup, run: Run, w: nat) {
    && w < |run.workers| && (run.workers[w].Checking? || run.workers[w].Saving?)
    && run.workers[w].file < |run.files| && |run.files| == |b.sources|
    && run.workers[w].part < |Parts(run.files[run.workers[w].file])|
  }

  function PartAt(b: Backup, run: Run, w: nat): Chunk
    requires AtPart(b, run, w)
  {
    Parts(run.files[run.workers[w].file])[run.workers[w].part]
  }

  predicate InRange(content: Bytes, part: Chunk) {
    0 <= part.offset && 0 <= part.size && part.offset + part.size <= |content|
  }

  /** Without a nonce nothing can be sealed; format one goes on all the same. */
  predicate SealFits(b: Backup, seal: Option<Bytes>) {
    (seal.Some? ==> |seal.value| == NONCE_SIZE) && (seal == None ==> b.key == [] || b.format == 1)
  }

  predicate IsSealed(b: Backup, seal: Option<Bytes>) { b.key == [] || seal.Some? }

  /** Format two opens a chunk only if it is not empty, checks its hash, and encrypts with a 32-byte key. */
  predicate CanPut(p: Primitives, b: Backup, run: Run, w: nat, seal: Option<Bytes>) {
    && AtPart(b, run, w) && run.workers[w].Saving? && SealFits(b, seal) && ValidKey(b.key)
    && var content := b.sources[run.workers[w].file].content;
       var part := PartAt(b, run, w);
       && InRange(content, part) && (b.format == 1 || part.size > 0)
       && HashOf(p, b.comp, content[part.offset..part.offset + part.size]) == part.hash
  }

  predicate Enabled(p: Primitives, b: Backup, run: Run, a: Action) {
    match a
    case Deliver(w) =>
      run.phase == Working && run.feeding && run.next < |b.sources| && w < |run.workers| && run.workers[w] == Idle
    case StopFeeding => run.phase == Working && run.feeding && run.cancelled
    case CloseFeed => run.phase == Working && run.feeding && run.next == |b.sources|
    case Hash(w) => run.phase == Working && w < |run.workers| && run.workers[w].Hashing?
                    && run.workers[w].file < |run.files| && |run.files| == |b.sources|
    case Hit(w) =>
      run.phase == Working && AtPart(b, run, w) && run.workers[w].Checking? && Place(b, PartAt(b, run, w)) in run.store
    case Miss(w) =>
      run.phase == Working && AtPart(b, run, w) && run.workers[w].Checking? && Place(b, PartAt(b, run, w)) !in run.store
    case Put(w, seal) => run.phase == Working && CanPut(p, b, run, w, seal)
    case PutLost(w, seal) => run.phase == Working && CanPut(p, b, run, w, seal)
    case Fail(w) => run.phase == Working && w < |run.workers| && Busy(run.workers[w])
    case Leave(w) => run.phase == Working && w < |run.workers| && run.workers[w] == Idle && !run.feeding
    case Cancel => !run.cancelled
    case ReportError => run.phase == Working && AllExited(run) && run.failed
    case CheckContext => run.phase == Working && AllExited(run) && !run.failed
    case Publish => run.phase == Publishing
    case PublishRefused => run.phase == Publishing
    case PublishLost => run.phase == Publishing
  }

  /** On to the next part, or done with the file. */
  function Advance(run: Run, w: nat, saved: nat): Run
    requires w < |run.workers| && (run.workers[w].Checking? || run.workers[w].Saving?)
    requires run.workers[w].file < |run.files|
  {
    var i, k := run.workers[w].file, run.workers[w].part;
    if k + 1 < |Parts(run.files[i])| then run.(workers := run.workers[w := Checking(i, k + 1, saved)])
    else run.(workers := run.workers[w := Idle], total := run.total + saved,
              credit := if i < |run.credit| then run.credit[i := Some(saved)] else run.credit)
  }

  function PartBlob(p: Primitives, b: Backup, run: Run, w: nat, seal: Option<Bytes>): Bytes
    requires CanPut(p, b, run, w, seal)
  {
    var part := PartAt(b, run, w);
    WholeBlob(p, b.key, seal,
              p.encode(b.comp, b.sources[run.workers[w].file].content[part.offset..part.offset + part.size]))
  }

  /** Format one puts only where nothing is; a chunk put replaces. */
  function Stored(p: Primitives, b: Backup, run: Run, w: nat, seal: Option<Bytes>): Run
    requires CanPut(p, b, run, w, seal)
  {
    var part, blob := PartAt(b, run, w), PartBlob(p, b, run, w, seal);
    if Place(b, part) !in run.store then run.(store := run.store[Place(b, part) := blob], born := run.born + [part])
    else if b.format == 1 then run
    else run.(store := run.store[Place(b, part) := blob])
  }

  function Failing(run: Run, w: nat): Run
    requires w < |run.workers|
  {
    run.(workers := run.workers[w := Idle], failed := true, cancelled := true)
  }

  function Apply(p: Primitives, b: Backup, run: Run, a: Action): Run
    requires Enabled(p, b, run, a)
  {
    match a
    case Deliver(w) => run.(workers := run.workers[w := Hashing(run.next)], next := run.next + 1)
    case StopFeeding => run.(feeding := false)
    case CloseFeed => run.(feeding := false)
    case Hash(w) =>
      var i := run.workers[w].file;
      run.(files := run.files[i := Expected(p, b, i)], workers := run.workers[w := Checking(i, 0, 0)])
    case Hit(w) => Advance(run, w, run.workers[w].saved)
    case Miss(w) =>
      run.(workers := run.workers[w := Saving(run.workers[w].file, run.workers[w].part, run.workers[w].saved)])
    case Put(w, seal) => Advance(Stored(p, b, run, w, seal), w, run.workers[w].saved + PartAt(b, run, w).size)
    case PutLost(w, seal) => Failing(Stored(p, b, run, w, seal), w)
    case Fail(w) => Failing(run, w)
    case Leave(w) => run.(workers := run.workers[w := Exited])
    case Cancel => run.(cancelled := true)
    case ReportError => run.(phase := Ended)
    case CheckContext => run.(phase := if run.cancelled then Ended else Publishing)
    case Publish => run.(phase := Ended, published := true)
    case PublishRefused => run.(phase := Ended)
    case PublishLost => run.(phase := Ended, published := true)
  }

  function Exec(p: Primitives, b: Backup, run: Run, actions: seq<Action>): Option<Run>
    decreases |actions|
  {
    if actions == [] then Some(run)
    else if !Enabled(p, b, run, actions[0]) then None
    else Exec(p, b, Apply(p, b, run, actions[0]), actions[1..])
  }

  // The store

  predicate Prepared(b: Backup) { KnownFormat(b.format) && ValidKey(b.key) }

  /** What format one leaves when nothing can be sealed; it opens to nothing. */
  predicate Unsealed(b: Backup, blob: Bytes) { b.key != [] && b.format == 1 && blob == [] }

  /** What is new is readable and named by its content, or unsealed; nothing is known of what was there. */
  ghost predicate NewAreNamed(p: Primitives, b: Backup, before: Store, store: Store) {
    forall hash :: ObjectId(b.space, hash) in store && ObjectId(b.space, hash) !in before ==>
                     || Names(p, b.key, store[ObjectId(b.space, hash)], hash)
                     || Unsealed(b, store[ObjectId(b.space, hash)])
  }

  /** Nothing new is unsealed. */
  ghost predicate NewAreSealed(b: Backup, before: Store, store: Store) {
    forall hash :: ObjectId(b.space, hash) in store && ObjectId(b.space, hash) !in before ==>
                     !Unsealed(b, store[ObjectId(b.space, hash)])
  }

  /** Objects only appear, in the run's own namespace, each readable and named by its content, or unsealed. */
  ghost predicate StoreInv(p: Primitives, b: Backup, before: Store, store: Store) {
    && (forall id :: id in before ==> id in store && store[id] == before[id])
    && (forall id :: id in store ==> id in before || id.space == b.space)
    && NewAreNamed(p, b, before, store)
  }

  /** The save of a part is under way only where nothing was when the run started. */
  ghost predicate SavesMissing(b: Backup, before: Store, run: Run) {
    forall w | 0 <= w < |run.workers| :: run.workers[w].Saving? ==>
        AtPart(b, run, w) && Place(b, PartAt(b, run, w)) !in before
  }

  // The pool

  ghost predicate FileOk(p: Primitives, b: Backup, run: Run, i: nat, parts: nat) {
    && i < |b.sources| && i < |run.files| && run.files[i] == Expected(p, b, i)
    && parts <= |Parts(run.files[i])|
    && forall k | 0 <= k < parts :: Place(b, Parts(run.files[i])[k]) in run.store
  }

  ghost predicate WorkerOk(p: Primitives, b: Backup, run: Run, worker: Worker) {
    match worker
    case Hashing(i) => i < run.next
    case Checking(i, k, _) => i < run.next && FileOk(p, b, run, i, k) && k < |Parts(run.files[i])|
    case Saving(i, k, _) => i < run.next && FileOk(p, b, run, i, k) && k < |Parts(run.files[i])|
    case _ => true
  }

  predicate Holding(worker: Worker, i: nat) { Busy(worker) && worker.file == i }

  ghost predicate Covered(run: Run, i: nat) {
    (i < |run.credit| && run.credit[i].Some?) || run.failed || exists w ::
        0 <= w < |run.workers| && Holding(run.workers[w], i)
  }

  ghost predicate Shape(b: Backup, run: Run) {
    && |run.files| == |b.sources| && |run.credit| == |b.sources| && run.next <= |b.sources| && |run.workers| > 0
    && (run.failed ==> run.cancelled)
    && (!run.feeding ==> run.next == |b.sources| || run.cancelled)
    && (run.feeding ==> forall w | 0 <= w < |run.workers| :: run.workers[w] != Exited)
  }

  ghost predicate PoolInv(p: Primitives, b: Backup, run: Run) {
    && Shape(b, run)
    && (forall w | 0 <= w < |run.workers| :: WorkerOk(p, b, run, run.workers[w]))
    && (forall i | 0 <= i < run.next :: Covered(run, i))
    && (forall i | 0 <= i < |run.credit| :: run.credit[i].Some? ==> FileDone(p, b, run, i))
  }

  ghost predicate FileDone(p: Primitives, b: Backup, run: Run, i: nat) {
    && i < |b.sources| && i < |run.files| && run.files[i] == Expected(p, b, i)
    && HasParts(run.store, b.space, Parts(run.files[i]))
  }

  /** No two workers hold the same file, and nobody holds a finished or undelivered one. */
  ghost predicate Exclusive(run: Run) {
    && (forall v, w | 0 <= v < w < |run.workers| && Busy(run.workers[v]) && Busy(run.workers[w]) ::
          run.workers[v].file != run.workers[w].file)
    && (forall w | 0 <= w < |run.workers| && Busy(run.workers[w]) ::
          run.workers[w].file < run.next && run.workers[w].file < |run.credit|
          && run.credit[run.workers[w].file] == None)
    && (forall i | run.next <= i < |run.credit| :: run.credit[i] == None)
  }

  ghost predicate AllDone(p: Primitives, b: Backup, run: Run) {
    |run.files| == |b.sources| && forall i | 0 <= i < |b.sources| :: FileDone(p, b, run, i)
  }

  ghost predicate Inv(p: Primitives, b: Backup, before: Store, run: Run) {
    && StoreInv(p, b, before, run.store)
    && (run.phase == Working ==> PoolInv(p, b, run) && Exclusive(run) && SavesMissing(b, before, run))
    && (run.phase == Publishing || run.published ==> AllDone(p, b, run) && !run.failed)
    && (run.published ==> run.phase == Ended)
  }

  lemma StartInv(p: Primitives, b: Backup, before: Store, workers: nat)
    requires Prepared(b)
    ensures Inv(p, b, before, Start(b, before, workers))
  {
  }

  // Every action keeps the invariant

  lemma StillCovered(run: Run, w: nat, worker: Worker, i: nat)
    requires w < |run.workers| && Covered(run, i)
    requires Holding(run.workers[w], i) ==> Holding(worker, i)
    ensures Covered(run.(workers := run.workers[w := worker]), i)
  {
    if !(i < |run.credit| && run.credit[i].Some?) && !run.failed {
      var v :| 0 <= v < |run.workers| && Holding(run.workers[v], i);
      assert Holding(run.workers[w := worker][v], i);
    }
  }

  /** The pool only looks at which objects are there, and more of them does no harm. */
  lemma MoreObjects(p: Primitives, b: Backup, run: Run, next: Run)
    requires PoolInv(p, b, run)
    requires next == run.(store := next.store, born := next.born) && forall id :: id in run.store ==> id in next.store
    ensures PoolInv(p, b, next)
  {
    forall w | 0 <= w < |next.workers| ensures WorkerOk(p, b, next, next.workers[w]) {
      assert WorkerOk(p, b, run, run.workers[w]);
    }
    forall i | 0 <= i < next.next ensures Covered(next, i) { assert Covered(run, i); }
    forall i | 0 <= i < |next.credit| && next.credit[i].Some?
      ensures FileDone(p, b, next, i)
    {
      assert FileDone(p, b, run, i);
    }
  }

  /** Putting a readable object, or an unsealed one, where nothing was when the run started. */
  lemma PutKeepsStore(p: Primitives, b: Backup, before: Store, store: Store, hash: string, blob: Bytes)
    requires StoreInv(p, b, before, store) && ObjectId(b.space, hash) !in before
    requires Names(p, b.key, blob, hash) || Unsealed(b, blob)
    ensures StoreInv(p, b, before, store[ObjectId(b.space, hash) := blob])
    ensures NewAreSealed(b, before, store) && !Unsealed(b, blob) ==>
              NewAreSealed(b, before, store[ObjectId(b.space, hash) := blob])
  {
  }

  lemma UnsealedIsNameless(p: Primitives, b: Backup, blob: Bytes, hash: string)
    requires Unsealed(b, blob)
    ensures !Names(p, b.key, blob, hash)
  {
  }

  lemma BlobNamesPart(p: Primitives, b: Backup, run: Run, w: nat, seal: Option<Bytes>)
    requires Lawful(p) && CanPut(p, b, run, w, seal)
    ensures if IsSealed(b, seal) then Names(p, b.key, PartBlob(p, b, run, w, seal), PartAt(b, run, w).hash)
            else Unsealed(b, PartBlob(p, b, run, w, seal))
  {
    var part := PartAt(b, run, w);
    var content := b.sources[run.workers[w].file].content;
    WholeBlobOpens(p, b.key, seal, p.encode(b.comp, content[part.offset..part.offset + part.size]));
  }

  lemma StoredKeepsStore(p: Primitives, b: Backup, before: Store, run: Run, w: nat, seal: Option<Bytes>)
    requires Lawful(p) && StoreInv(p, b, before, run.store) && SavesMissing(b, before, run)
             && CanPut(p, b, run, w, seal)
    ensures StoreInv(p, b, before, Stored(p, b, run, w, seal).store)
    ensures NewAreSealed(b, before, run.store) && IsSealed(b, seal) ==>
              NewAreSealed(b, before, Stored(p, b, run, w, seal).store)
  {
    var hash, blob := PartAt(b, run, w).hash, PartBlob(p, b, run, w, seal);
    BlobNamesPart(p, b, run, w, seal);
    if IsSealed(b, seal) && Unsealed(b, blob) { UnsealedIsNameless(p, b, blob, hash); }
    PutKeepsStore(p, b, before, run.store, hash, blob);
  }

  lemma StoredGrows(p: Primitives, b: Backup, run: Run, w: nat, seal: Option<Bytes>)
    requires CanPut(p, b, run, w, seal)
    ensures var next := Stored(p, b, run, w, seal);
            && next == run.(store := next.store, born := next.born)
            && (forall id :: id in run.store ==> id in next.store)
            && Place(b, PartAt(b, run, w)) in next.store
  {
  }

  lemma DeliverInv(p: Primitives, b: Backup, run: Run, w: nat)
    requires PoolInv(p, b, run) && Enabled(p, b, run, Deliver(w))
    ensures PoolInv(p, b, Apply(p, b, run, Deliver(w)))
  {
    var next := Apply(p, b, run, Deliver(w));
    forall v | 0 <= v < |next.workers| ensures WorkerOk(p, b, next, next.workers[v]) {
      assert v != w ==> WorkerOk(p, b, run, run.workers[v]);
    }
    forall i | 0 <= i < next.next ensures Covered(next, i) {
      if i < run.next { StillCovered(run, w, next.workers[w], i); } else { assert Holding(next.workers[w], i); }
    }
    forall i | 0 <= i < |next.credit| && next.credit[i].Some?
      ensures FileDone(p, b, next, i)
    {
      assert FileDone(p, b, run, i);
    }
  }

  /** A worker moves within its file, or an idle one leaves: files, store and credit stay. */
  lemma MoveInv(p: Primitives, b: Backup, run: Run, w: nat, worker: Worker)
    requires PoolInv(p, b, run) && w < |run.workers| && WorkerOk(p, b, run, worker)
    requires worker == Exited ==> !run.feeding
    requires forall i :: Holding(run.workers[w], i) ==> Holding(worker, i)
    ensures PoolInv(p, b, run.(workers := run.workers[w := worker]))
  {
    var next := run.(workers := run.workers[w := worker]);
    forall v | 0 <= v < |next.workers| ensures WorkerOk(p, b, next, next.workers[v]) {
      assert v != w ==> WorkerOk(p, b, run, run.workers[v]);
    }
    forall i | 0 <= i < next.next ensures Covered(next, i) { StillCovered(run, w, worker, i); }
    forall i | 0 <= i < |next.credit| && next.credit[i].Some?
      ensures FileDone(p, b, next, i)
    {
      assert FileDone(p, b, run, i);
    }
  }

  lemma HashInv(p: Primitives, b: Backup, run: Run, w: nat)
    requires PoolInv(p, b, run) && Exclusive(run) && Enabled(p, b, run, Hash(w))
    ensures PoolInv(p, b, Apply(p, b, run, Hash(w)))
  {
    var i := run.workers[w].file;
    var middle := run.(files := run.files[i := Expected(p, b, i)]);
    forall v | 0 <= v < |middle.workers| ensures WorkerOk(p, b, middle, middle.workers[v]) {
      assert WorkerOk(p, b, run, run.workers[v]);
      assert v != w && Busy(run.workers[v]) ==> run.workers[v].file != i;
    }
    forall j | 0 <= j < middle.next ensures Covered(middle, j) { assert Covered(run, j); }
    forall j | 0 <= j < |middle.credit| && middle.credit[j].Some?
      ensures FileDone(p, b, middle, j)
    {
      assert FileDone(p, b, run, j);
    }
    assert WorkerOk(p, b, run, run.workers[w]);
    MoveInv(p, b, middle, w, Checking(i, 0, 0));
  }

  lemma FailInv(p: Primitives, b: Backup, run: Run, w: nat)
    requires PoolInv(p, b, run) && w < |run.workers| && Busy(run.workers[w])
    ensures PoolInv(p, b, Failing(run, w))
  {
    var next := Failing(run, w);
    forall v | 0 <= v < |next.workers| ensures WorkerOk(p, b, next, next.workers[v]) {
      assert v != w ==> WorkerOk(p, b, run, run.workers[v]);
    }
    forall i | 0 <= i < |next.credit| && next.credit[i].Some?
      ensures FileDone(p, b, next, i)
    {
      assert FileDone(p, b, run, i);
    }
  }

  /** With its part in the store, a worker goes on to the next one, or the file is done. */
  lemma AdvanceInv(p: Primitives, b: Backup, run: Run, w: nat, saved: nat)
    requires PoolInv(p, b, run) && AtPart(b, run, w) && Place(b, PartAt(b, run, w)) in run.store
    ensures PoolInv(p, b, Advance(run, w, saved))
  {
    var i, k := run.workers[w].file, run.workers[w].part;
    assert WorkerOk(p, b, run, run.workers[w]);
    if k + 1 < |Parts(run.files[i])| {
      MoveInv(p, b, run, w, Checking(i, k + 1, saved));
    } else {
      var next := Advance(run, w, saved);
      forall v | 0 <= v < |next.workers| ensures WorkerOk(p, b, next, next.workers[v]) {
        assert v != w ==> WorkerOk(p, b, run, run.workers[v]);
      }
      assert FileDone(p, b, next, i);
      forall j | 0 <= j < |next.credit| && next.credit[j].Some? ensures FileDone(p, b, next, j) {
        assert j != i ==> FileDone(p, b, run, j);
      }
      forall j | 0 <= j < next.next ensures Covered(next, j) {
        if j != i { StillCovered(run, w, Idle, j); assert Covered(run.(workers := next.workers), j); }
      }
    }
  }

  lemma FeederInv(p: Primitives, b: Backup, run: Run, a: Action)
    requires PoolInv(p, b, run) && Enabled(p, b, run, a) && (a.StopFeeding? || a.CloseFeed? || a.Cancel?)
    ensures PoolInv(p, b, Apply(p, b, run, a))
  {
    var next := Apply(p, b, run, a);
    forall w | 0 <= w < |next.workers| ensures WorkerOk(p, b, next, next.workers[w]) {
      assert WorkerOk(p, b, run, run.workers[w]);
    }
    forall i | 0 <= i < next.next ensures Covered(next, i) { assert Covered(run, i); }
    forall i | 0 <= i < |next.credit| && next.credit[i].Some?
      ensures FileDone(p, b, next, i)
    {
      assert FileDone(p, b, run, i);
    }
  }

  lemma PutInv(p: Primitives, b: Backup, run: Run, a: Action)
    requires PoolInv(p, b, run) && Enabled(p, b, run, a) && (a.Put? || a.PutLost?)
    ensures PoolInv(p, b, Apply(p, b, run, a))
  {
    var stored := Stored(p, b, run, a.worker, a.seal);
    StoredGrows(p, b, run, a.worker, a.seal);
    MoreObjects(p, b, run, stored);
    if a.Put? {
      AdvanceInv(p, b, stored, a.worker, run.workers[a.worker].saved + PartAt(b, run, a.worker).size);
    } else {
      FailInv(p, b, stored, a.worker);
    }
  }

  lemma PoolStep(p: Primitives, b: Backup, run: Run, a: Action)
    requires PoolInv(p, b, run) && Exclusive(run) && run.phase == Working && Enabled(p, b, run, a)
    requires !a.ReportError? && !a.CheckContext?
    ensures PoolInv(p, b, Apply(p, b, run, a))
  {
    if a.Put? || a.PutLost? {
      PutInv(p, b, run, a);
    } else if a.StopFeeding? || a.CloseFeed? || a.Cancel? {
      FeederInv(p, b, run, a);
    } else if a.Deliver? {
      DeliverInv(p, b, run, a.worker);
    } else if a.Hash? {
      HashInv(p, b, run, a.worker);
    } else if a.Hit? {
      AdvanceInv(p, b, run, a.worker, run.workers[a.worker].saved);
    } else if a.Miss? {
      assert WorkerOk(p, b, run, run.workers[a.worker]);
      MoveInv(p, b, run, a.worker,
              Saving(run.workers[a.worker].file, run.workers[a.worker].part, run.workers[a.worker].saved));
    } else if a.Fail? {
      FailInv(p, b, run, a.worker);
    } else {
      MoveInv(p, b, run, a.worker, Exited);
    }
  }

  predicate IsWorkerAction(a: Action) {
    a.Deliver? || a.Hash? || a.Hit? || a.Miss? || a.Put? || a.PutLost? || a.Fail? || a.Leave?
  }

  /** One worker changes: a busy one keeps its file or got the next one from the feeder, and the credit changes only
      for the file a worker hands in. */
  ghost predicate Moves(run: Run, next: Run, w: nat) {
    && w < |run.workers| && |next.workers| == |run.workers| && next.workers == run.workers[w := next.workers[w]]
    && run.next <= next.next
    && (Busy(next.workers[w]) ==>
          next.credit == run.credit
          && ((run.next == next.workers[w].file < next.next && run.next < |run.credit|)
              || (Busy(run.workers[w]) && next.workers[w].file == run.workers[w].file)))
    && (next.credit == run.credit ||
        (Busy(run.workers[w]) && run.workers[w].file < |run.credit| == |next.credit|
         && next.credit == run.credit[run.workers[w].file := next.credit[run.workers[w].file]]))
  }

  lemma AdvanceMoves(run: Run, w: nat, saved: nat)
    requires w < |run.workers| && (run.workers[w].Checking? || run.workers[w].Saving?)
             && run.workers[w].file < |run.files|
    ensures Moves(run, Advance(run, w, saved), w) && !Advance(run, w, saved).workers[w].Saving?
    ensures var next := Advance(run, w, saved);
            next.store == run.store && next.files == run.files && next.phase == run.phase
            && next.published == run.published
  {
  }

  lemma FailingMoves(run: Run, w: nat)
    requires w < |run.workers|
    ensures Moves(run, Failing(run, w), w) && Failing(run, w).workers[w] == Idle
  {
  }

  lemma PutMoves(p: Primitives, b: Backup, run: Run, a: Action)
    requires Enabled(p, b, run, a) && (a.Put? || a.PutLost?)
    ensures var next := Apply(p, b, run, a);
            && Moves(run, next, a.worker) && !next.workers[a.worker].Saving?
            && next.store == Stored(p, b, run, a.worker, a.seal).store && next.files == run.files
            && next.phase == run.phase && next.published == run.published
  {
    StoredGrows(p, b, run, a.worker, a.seal);
    ApplyPut(p, b, run, a);
    if a.Put? {
      PutDoneMoves(run, Stored(p, b, run, a.worker, a.seal), a.worker,
                   run.workers[a.worker].saved + PartAt(b, run, a.worker).size);
    } else {
      PutLostMoves(run, Stored(p, b, run, a.worker, a.seal), a.worker);
    }
  }

  lemma ApplyPut(p: Primitives, b: Backup, run: Run, a: Action)
    requires Enabled(p, b, run, a) && (a.Put? || a.PutLost?)
    ensures CanPut(p, b, run, a.worker, a.seal)
    ensures Apply(p, b, run, a) ==
              if a.Put? then Advance(Stored(p, b, run, a.worker, a.seal), a.worker,
                                     run.workers[a.worker].saved + PartAt(b, run, a.worker).size)
              else Failing(Stored(p, b, run, a.worker, a.seal), a.worker)
  {
  }

  lemma PutDoneMoves(run: Run, stored: Run, w: nat, saved: nat)
    requires stored == run.(store := stored.store, born := stored.born)
    requires w < |run.workers| && run.workers[w].Saving? && run.workers[w].file < |run.files|
    ensures var next := Advance(stored, w, saved);
            Moves(run, next, w) && !next.workers[w].Saving? && next.store == stored.store && next.files == run.files
            && next.phase == run.phase && next.published == run.published
  {
    AdvanceMoves(stored, w, saved);
    MovesFrom(run, stored, Advance(stored, w, saved), w);
  }

  lemma PutLostMoves(run: Run, stored: Run, w: nat)
    requires stored == run.(store := stored.store, born := stored.born) && w < |run.workers|
    ensures var next := Failing(stored, w);
            Moves(run, next, w) && !next.workers[w].Saving? && next.store == stored.store && next.files == run.files
            && next.phase == run.phase && next.published == run.published
  {
    FailingMoves(stored, w);
    MovesFrom(run, stored, Failing(stored, w), w);
  }

  lemma MovesFrom(run: Run, stored: Run, next: Run, w: nat)
    requires stored.workers == run.workers && stored.next == run.next && stored.credit == run.credit
             && Moves(stored, next, w)
    ensures Moves(run, next, w)
  {
  }

  lemma PlainMoves(p: Primitives, b: Backup, run: Run, a: Action)
    requires Enabled(p, b, run, a) && IsWorkerAction(a) && !a.Put? && !a.PutLost?
    requires Shape(b, run)
    ensures var next := Apply(p, b, run, a);
            && Moves(run, next, a.worker) && (next.workers[a.worker].Saving? <==> a.Miss?)
            && next.store == run.store && (!a.Hash? ==> next.files == run.files)
            && next.phase == run.phase && next.published == run.published
  {
    if a.Hit? {
      AdvanceMoves(run, a.worker, run.workers[a.worker].saved);
    } else if a.Fail? {
      FailingMoves(run, a.worker);
    }
  }

  lemma ActionMoves(p: Primitives, b: Backup, run: Run, a: Action)
    requires Enabled(p, b, run, a) && IsWorkerAction(a) && Shape(b, run)
    ensures Moves(run, Apply(p, b, run, a), a.worker)
    ensures Apply(p, b, run, a).workers[a.worker].Saving? <==> a.Miss?
    ensures !a.Hash? ==> Apply(p, b, run, a).files == run.files
    ensures Apply(p, b, run, a).phase == run.phase && Apply(p, b, run, a).published == run.published
  {
    if a.Put? || a.PutLost? {
      PutMoves(p, b, run, a);
    } else {
      PlainMoves(p, b, run, a);
    }
  }

  lemma OtherActions(p: Primitives, b: Backup, run: Run, a: Action)
    requires Enabled(p, b, run, a) && !IsWorkerAction(a)
    ensures var next := Apply(p, b, run, a);
            next == run.(feeding := next.feeding, cancelled := next.cancelled, phase := next.phase,
                         published := next.published)
    ensures run.phase == Working && !a.ReportError? && !a.CheckContext? ==>
              Apply(p, b, run, a).phase == run.phase && Apply(p, b, run, a).published == run.published
  {
  }

  lemma ExclusiveStep(p: Primitives, b: Backup, run: Run, a: Action)
    requires Shape(b, run) && Exclusive(run) && Enabled(p, b, run, a)
    ensures Exclusive(Apply(p, b, run, a))
  {
    if IsWorkerAction(a) {
      ActionMoves(p, b, run, a);
      ExclusiveMove(run, Apply(p, b, run, a), a.worker);
    } else {
      OtherActions(p, b, run, a);
    }
  }

  lemma ExclusiveMove(run: Run, next: Run, w: nat)
    requires Exclusive(run) && Moves(run, next, w)
    ensures Exclusive(next)
  {
    forall v | 0 <= v < |next.workers| && v != w && Busy(next.workers[v])
      ensures next.workers[v].file < next.next && next.workers[v].file < |next.credit|
              && next.credit[next.workers[v].file] == None
      ensures Busy(next.workers[w]) ==> next.workers[v].file != next.workers[w].file
    {
      assert next.workers[v] == run.workers[v];
      if Busy(run.workers[w]) {
        assert run.workers[v].file != run.workers[w].file;
      }
    }
  }

  lemma SavesMissingStep(p: Primitives, b: Backup, before: Store, run: Run, a: Action)
    requires StoreInv(p, b, before, run.store) && PoolInv(p, b, run) && Exclusive(run) && SavesMissing(b, before, run)
    requires Enabled(p, b, run, a)
    ensures SavesMissing(b, before, Apply(p, b, run, a))
  {
    var next := Apply(p, b, run, a);
    if !IsWorkerAction(a) {
      OtherActions(p, b, run, a);
    } else if a.Hash? {
      ActionMoves(p, b, run, a);
      HashSparesOthers(p, b, run, a.worker);
      KeepsSaving(b, before, run, next, a.worker);
    } else if a.Miss? {
      ActionMoves(p, b, run, a);
      assert PartAt(b, next, a.worker) == PartAt(b, run, a.worker);
      KeepsSaving(b, before, run, next, a.worker);
    } else {
      ActionMoves(p, b, run, a);
      KeepsSaving(b, before, run, next, a.worker);
    }
  }

  lemma KeepsSaving(b: Backup, before: Store, run: Run, next: Run, w: nat)
    requires SavesMissing(b, before, run) && Moves(run, next, w) && |next.files| == |run.files|
    requires forall v | 0 <= v < |run.workers| && v != w && run.workers[v].Saving? ::
               run.workers[v].file < |run.files| && next.files[run.workers[v].file] == run.files[run.workers[v].file]
    requires next.workers[w].Saving? ==> AtPart(b, next, w) && Place(b, PartAt(b, next, w)) !in before
    ensures SavesMissing(b, before, next)
  {
    forall v | 0 <= v < |next.workers| && next.workers[v].Saving?
      ensures AtPart(b, next, v) && Place(b, PartAt(b, next, v)) !in before
    {
      if v != w {
        assert next.workers[v] == run.workers[v];
        assert AtPart(b, run, v) && AtPart(b, next, v) && PartAt(b, next, v) == PartAt(b, run, v);
      }
    }
  }

  /** A record changes only in the hands of its hashing worker. */
  lemma HashSparesOthers(p: Primitives, b: Backup, run: Run, w: nat)
    requires PoolInv(p, b, run) && Exclusive(run) && Enabled(p, b, run, Hash(w))
    ensures var next := Apply(p, b, run, Hash(w));
            |next.files| == |run.files|
            && forall v | 0 <= v < |run.workers| && v != w && Busy(run.workers[v]) ::
                 run.workers[v].file < |run.files| && next.files[run.workers[v].file] == run.files[run.workers[v].file]
  {
    forall v | 0 <= v < |run.workers| && v != w && Busy(run.workers[v])
      ensures run.workers[v].file != run.workers[w].file && run.workers[v].file < |run.files|
    {
      assert v < w || w < v;
    }
  }

  lemma StoreStep(p: Primitives, b: Backup, before: Store, run: Run, a: Action)
    requires Lawful(p) && StoreInv(p, b, before, run.store) && Shape(b, run) && SavesMissing(b, before, run)
    requires Enabled(p, b, run, a)
    ensures StoreInv(p, b, before, Apply(p, b, run, a).store)
  {
    if a.Put? || a.PutLost? {
      StoredKeepsStore(p, b, before, run, a.worker, a.seal);
      PutMoves(p, b, run, a);
    } else if IsWorkerAction(a) {
      PlainMoves(p, b, run, a);
    } else {
      OtherActions(p, b, run, a);
    }
  }

  /** When every worker left, nothing failed and the context is not done, every file is done. */
  lemma ExitedMeansDone(p: Primitives, b: Backup, run: Run)
    requires PoolInv(p, b, run) && AllExited(run) && !run.failed && !run.cancelled
    ensures AllDone(p, b, run)
  {
    forall i | 0 <= i < |b.sources| ensures FileDone(p, b, run, i) {
      assert Covered(run, i);
    }
  }

  /** Past the pool, actions only change the phase and the cancellation. */
  lemma PhaseStep(p: Primitives, b: Backup, before: Store, run: Run, a: Action)
    requires Inv(p, b, before, run) && Enabled(p, b, run, a)
    requires a.ReportError? || a.CheckContext? || run.phase != Working
    ensures Inv(p, b, before, Apply(p, b, run, a))
  {
    var next := Apply(p, b, run, a);
    if a.CheckContext? && !run.cancelled {
      ExitedMeansDone(p, b, run);
    }
    assert next == run.(phase := next.phase, published := next.published, cancelled := next.cancelled);
    if AllDone(p, b, run) {
      forall i | 0 <= i < |b.sources| ensures FileDone(p, b, next, i) { assert FileDone(p, b, run, i); }
    }
  }

  lemma StepInv(p: Primitives, b: Backup, before: Store, run: Run, a: Action)
    requires Lawful(p) && Prepared(b) && Inv(p, b, before, run) && Enabled(p, b, run, a)
    ensures Inv(p, b, before, Apply(p, b, run, a))
  {
    if a.ReportError? || a.CheckContext? || run.phase != Working {
      PhaseStep(p, b, before, run, a);
    } else {
      StoreStep(p, b, before, run, a);
      PoolStep(p, b, run, a);
      ExclusiveStep(p, b, run, a);
      SavesMissingStep(p, b, before, run, a);
      if IsWorkerAction(a) { ActionMoves(p, b, run, a); } else { OtherActions(p, b, run, a); }
    }
  }

  lemma {:induction false} ExecInv(p: Primitives, b: Backup, before: Store, run: Run, actions: seq<Action>)
    requires Lawful(p) && Prepared(b) && Inv(p, b, before, run)
    requires Exec(p, b, run, actions).Some?
    ensures Inv(p, b, before, Exec(p, b, run, actions).value)
    decreases |actions|
  {
    if actions != [] {
      StepInv(p, b, before, run, actions[0]);
      ExecInv(p, b, before, Apply(p, b, run, actions[0]), actions[1..]);
    }
  }

  // What is sealed

  /** Every put has what it needs to seal its object. */
  predicate PutsSealed(b: Backup, actions: seq<Action>) { forall i | 0 <= i < |actions| :: ActionSealed(b, actions[i]) }

  predicate ActionSealed(b: Backup, a: Action) { a.Put? || a.PutLost? ==> IsSealed(b, a.seal) }

  lemma StepSealed(p: Primitives, b: Backup, before: Store, run: Run, a: Action)
    requires Lawful(p) && Inv(p, b, before, run) && Enabled(p, b, run, a) && ActionSealed(b, a)
    requires NewAreSealed(b, before, run.store)
    ensures NewAreSealed(b, before, Apply(p, b, run, a).store)
  {
    if a.Put? || a.PutLost? {
      StoredKeepsStore(p, b, before, run, a.worker, a.seal);
      PutMoves(p, b, run, a);
    } else if IsWorkerAction(a) {
      PlainMoves(p, b, run, a);
    } else {
      OtherActions(p, b, run, a);
    }
  }

  lemma {:induction false} ExecSealed(p: Primitives, b: Backup, before: Store, run: Run, actions: seq<Action>)
    requires Lawful(p) && Prepared(b) && Inv(p, b, before, run) && NewAreSealed(b, before, run.store)
    requires Exec(p, b, run, actions).Some? && PutsSealed(b, actions)
    ensures NewAreSealed(b, before, Exec(p, b, run, actions).value.store)
    decreases |actions|
  {
    if actions != [] {
      assert ActionSealed(b, actions[0]);
      StepInv(p, b, before, run, actions[0]);
      StepSealed(p, b, before, run, actions[0]);
      ExecSealed(p, b, before, Apply(p, b, run, actions[0]), actions[1..]);
    }
  }

  // What a published manifest is worth

  /** Every part of a file whose object was already there when the run started is what its name says, and every other is
      sealed. */
  ghost predicate PartsGood(p: Primitives, b: Backup, before: Store, store: Store, i: nat)
    requires i < |b.sources|
  {
    var parts := Parts(Expected(p, b, i));
    forall k | 0 <= k < |parts| && Place(b, parts[k]) in store ::
      if Place(b, parts[k]) in before then Names(p, b.key, before[Place(b, parts[k])], parts[k].hash)
      else !Unsealed(b, store[Place(b, parts[k])])
  }

  /** In every state of every schedule over any store, a published manifest lists every file with all its hashes, and
      every object it refers to is in the store. A file verifies exactly when those of its objects that were there
      before are what their names say, and the new ones are sealed - in a sound namespace, with nonces at hand, then,
      always - and then it restores to the captured bytes. */
  lemma PublishedRestores(p: Primitives, b: Backup, before: Store, workers: nat, actions: seq<Action>, i: nat)
    requires Lawful(p) && Prepared(b) && i < |b.sources|
    requires Exec(p, b, Start(b, before, workers), actions).Some?
    requires Exec(p, b, Start(b, before, workers), actions).value.published
    ensures var run := Exec(p, b, Start(b, before, workers), actions).value;
            && |run.files| == |b.sources| && run.files[i] == Expected(p, b, i)
            && HasParts(run.store, b.space, Parts(run.files[i]))
            && (VerifyFile(p, run.store, b.space, b.key, run.files[i]) == Ok(None) <==>
                  PartsGood(p, b, before, run.store, i))
            && (PartsGood(p, b, before, run.store, i) ==>
                  RestoreFile(p, run.store, b.space, b.key, b.comp.compType, run.files[i]) == Ok(b.sources[i].content))
            && (Sound(p, before, b.space, b.key) && PutsSealed(b, actions) ==> PartsGood(p, b, before, run.store, i))
  {
    StartInv(p, b, before, workers);
    ExecInv(p, b, before, Start(b, before, workers), actions);
    var run := Exec(p, b, Start(b, before, workers), actions).value;
    assert FileDone(p, b, run, i);
    DoneVerifies(p, b, before, run.store, i);
    if PartsGood(p, b, before, run.store, i) {
      VerifyImpliesRestore(p, run.store, b.space, b.key, b.format, b.comp, b.sources[i]);
    }
    if PutsSealed(b, actions) { ExecSealed(p, b, before, Start(b, before, workers), actions); }
  }

  /** What is new and sealed is named by its content, so only what was there, or is not sealed, can fail. */
  lemma DoneVerifies(p: Primitives, b: Backup, before: Store, store: Store, i: nat)
    requires Lawful(p) && Prepared(b) && i < |b.sources| && StoreInv(p, b, before, store)
    requires HasParts(store, b.space, Parts(Expected(p, b, i)))
    ensures VerifyFile(p, store, b.space, b.key, Expected(p, b, i)) == Ok(None) <==> PartsGood(p, b, before, store, i)
  {
    var parts := Parts(Expected(p, b, i));
    VerifyFileExact(p, store, b.space, b.key, Expected(p, b, i));
    CalculatedHashes(p, b.format, b.comp, b.sources[i]);
    forall k | 0 <= k < |parts|
      ensures Holds(p, store, b.space, b.key, parts[k].hash) <==>
                if Place(b, parts[k]) in before then Names(p, b.key, before[Place(b, parts[k])], parts[k].hash)
                else !Unsealed(b, store[Place(b, parts[k])])
      ensures |parts[k].hash| >= 3
    {
      assert ObjectId(b.space, parts[k].hash) in store && IsHex(parts[k].hash);
      if Unsealed(b, store[Place(b, parts[k])]) { UnsealedIsNameless(p, b, store[Place(b, parts[k])], parts[k].hash); }
    }
  }

  /** In a sound namespace a run that seals what it puts leaves a sound namespace. */
  lemma StaysSound(p: Primitives, b: Backup, before: Store, store: Store)
    requires Sound(p, before, b.space, b.key) && StoreInv(p, b, before, store) && NewAreSealed(b, before, store)
    ensures Sound(p, store, b.space, b.key)
  {
    forall hash | ObjectId(b.space, hash) in store ensures Names(p, b.key, store[ObjectId(b.space, hash)], hash) {
      assert ObjectId(b.space, hash) in before ==> Names(p, b.key, before[ObjectId(b.space, hash)], hash);
    }
  }
}
