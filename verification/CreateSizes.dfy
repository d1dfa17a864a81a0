/** The total size a create reports: bounds that hold for every schedule, and the exact value for one worker. */
module CreateSizes {
  import opened Outcomes
  import opened Primitives
  import opened Sums
  import opened Files
  import opened ObjectKeys
  import opened Objects
  import opened CreatePool

  function SumSizes(parts: seq<Chunk>): int {
    if parts == [] then 0 else SumSizes(parts[..|parts| - 1]) + parts[|parts| - 1].size
  }

  function CreditOf(credit: Option<nat>): nat { if credit.Some? then credit.value else 0 }

  function SavedOf(worker: Worker): nat { if worker.Checking? || worker.Saving? then worker.saved else 0 }

  // The upper bound: parts whose object was not there at the start

  /** The size of the first `count` parts, of those whose object was absent when the run started. */
  function Missing(b: Backup, before: Store, parts: seq<Chunk>, count: nat): int
    requires count <= |parts|
  {
    if count == 0 then 0 else
    Missing(b, before, parts, count - 1) + if Place(b, parts[count - 1]) in before then 0 else parts[count - 1].size
  }

  function MissingInFile(p: Primitives, b: Backup, before: Store, i: nat): int
    requires i < |b.sources|
  {
    var parts := Parts(Expected(p, b, i));
    Missing(b, before, parts, |parts|)
  }

  function MissingFrom(p: Primitives, b: Backup, before: Store, i: nat): int
    requires i <= |b.sources|
    decreases |b.sources| - i
  {
    if i == |b.sources| then 0 else MissingInFile(p, b, before, i) + MissingFrom(p, b, before, i + 1)
  }

  ghost predicate WorkerBound(b: Backup, before: Store, files: seq<FileRecord>, worker: Worker) {
    (worker.Checking? || worker.Saving?) ==>
      && worker.file < |files| && worker.part < |Parts(files[worker.file])|
      && worker.saved <= Missing(b, before, Parts(files[worker.file]), worker.part)
  }

  /** Nothing is counted that was there at the start. */
  ghost predicate Upper(p: Primitives, b: Backup, before: Store, run: Run) {
    UpperBound(p, b, before, run.files, run.workers, run.credit, run.total)
  }

  ghost predicate UpperBound(p: Primitives, b: Backup, before: Store, files: seq<FileRecord>, workers: seq<Worker>,
                             credit: seq<Option<nat>>, total: nat)
  {
    && |credit| == |b.sources| == |files|
    && total == Sum(credit, CreditOf)
    && (forall w | 0 <= w < |workers| :: WorkerBound(b, before, files, workers[w]))
    && (forall i | 0 <= i < |credit| :: credit[i].Some? ==> credit[i].value <= MissingInFile(p, b, before, i))
  }

  lemma MoveBound(p: Primitives, b: Backup, before: Store, files: seq<FileRecord>, workers: seq<Worker>,
                  credit: seq<Option<nat>>, total: nat, w: nat, worker: Worker)
    requires UpperBound(p, b, before, files, workers, credit, total) && w < |workers|
             && WorkerBound(b, before, files, worker)
    ensures UpperBound(p, b, before, files, workers[w := worker], credit, total)
  {
  }

  lemma FinishBound(p: Primitives, b: Backup, before: Store, files: seq<FileRecord>, workers: seq<Worker>,
                    credit: seq<Option<nat>>, total: nat, i: nat, saved: nat)
    requires UpperBound(p, b, before, files, workers, credit, total) && i < |credit| && credit[i] == None
    requires saved <= MissingInFile(p, b, before, i)
    ensures UpperBound(p, b, before, files, workers, credit[i := Some(saved)], total + saved)
  {
    SumUpdate(credit, CreditOf, i, Some(saved));
  }

  lemma {:induction false} CreditBounded(p: Primitives, b: Backup, before: Store, credit: seq<Option<nat>>, i: nat)
    requires i <= |b.sources| && |credit| == |b.sources| - i && KnownFormat(b.format)
    requires forall k | 0 <= k < |credit| :: credit[k].Some? ==> credit[k].value <= MissingInFile(p, b, before, i + k)
    ensures Sum(credit, CreditOf) <= MissingFrom(p, b, before, i)
    decreases |credit|
  {
    if credit != [] {
      CreditBounded(p, b, before, credit[1..], i + 1);
      MissingNonNegative(p, b, before, i);
    }
  }

  lemma MissingNonNegative(p: Primitives, b: Backup, before: Store, i: nat)
    requires i < |b.sources| && KnownFormat(b.format)
    ensures MissingInFile(p, b, before, i) >= 0
  {
    CalculatedParts(p, b.format, b.comp, b.sources[i]);
    var parts := Parts(Expected(p, b, i));
    forall k | 0 <= k < |parts|
      ensures parts[k].size >= 0
    {
      assert IsPartOf(p, b.comp, b.sources[i].content, parts[k]);
    }
    MissingAtLeastZero(b, before, parts, |parts|);
  }

  lemma {:induction false} MissingAtLeastZero(b: Backup, before: Store, parts: seq<Chunk>, count: nat)
    requires count <= |parts| && forall k | 0 <= k < |parts| :: parts[k].size >= 0
    ensures Missing(b, before, parts, count) >= 0
  {
    if count > 0 { MissingAtLeastZero(b, before, parts, count - 1); }
  }

  // The lower bound: objects that are new at the end

  /** A section of one of the files, under the hash of its encoding. */
  ghost predicate RealPart(p: Primitives, b: Backup, part: Chunk) {
    exists i :: 0 <= i < |b.sources| && IsPartOf(p, b.comp, b.sources[i].content, part)
  }

  lemma SameHashSameSize(p: Primitives, b: Backup, x: Chunk, y: Chunk)
    requires Lawful(p) && RealPart(p, b, x) && RealPart(p, b, y) && x.hash == y.hash
    ensures x.size == y.size
  {
    var i :| 0 <= i < |b.sources| && IsPartOf(p, b.comp, b.sources[i].content, x);
    var j :| 0 <= j < |b.sources| && IsPartOf(p, b.comp, b.sources[j].content, y);
    var s := b.sources[i].content[x.offset..x.offset + x.size];
    var t := b.sources[j].content[y.offset..y.offset + y.size];
    HashInjective(p, b.comp, s, t);
  }

  predicate HasHash(parts: seq<Chunk>, hash: string) { exists k :: 0 <= k < |parts| && parts[k].hash == hash }

  predicate DistinctHashes(parts: seq<Chunk>) { forall j, k | 0 <= j < k < |parts| :: parts[j].hash != parts[k].hash }

  ghost predicate RealParts(p: Primitives, b: Backup, parts: seq<Chunk>) {
    forall k | 0 <= k < |parts| :: RealPart(p, b, parts[k]) && parts[k].size >= 0
  }

  /** One part for each object that is in the store and was not there at the start. */
  ghost predicate ListsNew(p: Primitives, b: Backup, before: Store, store: Store, parts: seq<Chunk>) {
    && DistinctHashes(parts) && RealParts(p, b, parts)
    && forall hash :: HasHash(parts, hash) <==> ObjectId(b.space, hash) in store && ObjectId(b.space, hash) !in before
  }

  lemma {:induction false} SumRemove(parts: seq<Chunk>, k: nat)
    requires k < |parts|
    ensures SumSizes(parts) == SumSizes(Removed(parts, k)) + parts[k].size
  {
    var n := |parts| - 1;
    var without := Removed(parts, k);
    if k < n {
      SumRemove(parts[..n], k);
      assert without[..n - 1] == Removed(parts[..n], k);
      assert without[n - 1] == parts[n];
    } else {
      assert without == parts[..n];
    }
  }

  /** Distinct hashes among those of another list weigh no more than that list. */
  lemma {:induction false} SubsetSum(p: Primitives, b: Backup, few: seq<Chunk>, many: seq<Chunk>)
    requires Lawful(p) && DistinctHashes(few) && RealParts(p, b, few) && RealParts(p, b, many)
    requires forall k | 0 <= k < |few| :: HasHash(many, few[k].hash)
    ensures SumSizes(few) <= SumSizes(many)
    decreases |few|
  {
    if few == [] {
      SumNonNegative(many);
    } else {
      var n := |few| - 1;
      assert HasHash(many, few[n].hash);
      var k :| 0 <= k < |many| && many[k].hash == few[n].hash;
      SameHashSameSize(p, b, few[n], many[k]);
      SumRemove(many, k);
      RemoveKeepsOthers(few[..n], few[n].hash, many, k);
      RemoveKeepsReal(p, b, many, k);
      ShorterList(p, b, few);
      SubsetSum(p, b, few[..n], Removed(many, k));
    }
  }

  lemma ShorterList(p: Primitives, b: Backup, few: seq<Chunk>)
    requires few != [] && DistinctHashes(few) && RealParts(p, b, few)
    ensures DistinctHashes(few[..|few| - 1]) && RealParts(p, b, few[..|few| - 1])
  {
  }

  lemma RemoveKeepsReal(p: Primitives, b: Backup, many: seq<Chunk>, k: nat)
    requires k < |many| && RealParts(p, b, many)
    ensures RealParts(p, b, Removed(many, k))
  {
    forall i | 0 <= i < |many| - 1 ensures RealPart(p, b, Removed(many, k)[i]) && Removed(many, k)[i].size >= 0 {
      assert Removed(many, k)[i] == many[if i < k then i else i + 1];
    }
  }

  function Removed(parts: seq<Chunk>, k: nat): (rest: seq<Chunk>)
    requires k < |parts|
    ensures |rest| == |parts| - 1
  {
    parts[..k] + parts[k + 1..]
  }

  lemma RemoveKeepsOthers(few: seq<Chunk>, hash: string, many: seq<Chunk>, k: nat)
    requires k < |many| && many[k].hash == hash
    requires forall i | 0 <= i < |few| :: few[i].hash != hash && HasHash(many, few[i].hash)
    ensures forall i | 0 <= i < |few| :: HasHash(Removed(many, k), few[i].hash)
  {
    forall i | 0 <= i < |few| ensures HasHash(Removed(many, k), few[i].hash) {
      assert HasHash(many, few[i].hash);
      var j :| 0 <= j < |many| && many[j].hash == few[i].hash;
      assert Removed(many, k)[if j < k then j else j - 1] == many[j];
    }
  }

  lemma {:induction false} SumNonNegative(parts: seq<Chunk>)
    requires forall k | 0 <= k < |parts| :: parts[k].size >= 0
    ensures SumSizes(parts) >= 0
  {
    if parts != [] { SumNonNegative(parts[..|parts| - 1]); }
  }

  /** What has been counted: finished files, and what workers have saved of theirs. */
  function Counted(run: Run): nat { run.total + Sum(run.workers, SavedOf) }

  /** Every new object was counted when it was first put; with one worker, nothing else was. */
  ghost predicate Lower(p: Primitives, b: Backup, before: Store, run: Run) {
    && ListsNew(p, b, before, run.store, run.born)
    && CountsNew(run)
    && (|run.workers| == 1 ==> SaverIsFirst(b, run))
    && (run.phase != Working ==> forall w | 0 <= w < |run.workers| :: run.workers[w] == Exited)
  }

  predicate CountsNew(run: Run) {
    !run.failed ==>
      && SumSizes(run.born) <= Counted(run)
      && (|run.workers| == 1 ==> SumSizes(run.born) == Counted(run))
  }

  /** A single worker saves only what is not there. */
  predicate SaverIsFirst(b: Backup, run: Run) {
    forall w | 0 <= w < |run.workers| && run.workers[w].Saving? && AtPart(b, run, w) ::
        Place(b, PartAt(b, run, w)) !in run.store
  }

  // Steps

  lemma AdvanceCounts(run: Run, w: nat, saved: nat)
    requires w < |run.workers| && (run.workers[w].Checking? || run.workers[w].Saving?)
             && run.workers[w].file < |run.files|
    ensures Counted(Advance(run, w, saved)) == Counted(run) - run.workers[w].saved + saved
  {
    SumUpdate(run.workers, SavedOf, w, Advance(run, w, saved).workers[w]);
  }

  lemma AdvanceUpper(p: Primitives, b: Backup, before: Store, run: Run, w: nat, saved: nat)
    requires Exclusive(run) && Upper(p, b, before, run) && AtPart(b, run, w)
    requires run.files[run.workers[w].file] == Expected(p, b, run.workers[w].file)
    requires saved <= Missing(b, before, Parts(run.files[run.workers[w].file]), run.workers[w].part + 1)
    ensures Upper(p, b, before, Advance(run, w, saved))
  {
    var i, k := run.workers[w].file, run.workers[w].part;
    if k + 1 == |Parts(run.files[i])| {
      MoveBound(p, b, before, run.files, run.workers, run.credit, run.total, w, Idle);
      FinishBound(p, b, before, run.files, run.workers[w := Idle], run.credit, run.total, i, saved);
    } else {
      MoveBound(p, b, before, run.files, run.workers, run.credit, run.total, w, Checking(i, k + 1, saved));
    }
  }

  lemma PutUpper(p: Primitives, b: Backup, before: Store, run: Run, w: nat, seal: Option<Bytes>)
    requires PoolInv(p, b, run) && Exclusive(run) && SavesMissing(b, before, run) && Upper(p, b, before, run)
    requires CanPut(p, b, run, w, seal)
    ensures Upper(p, b, before, Advance(Stored(p, b, run, w, seal), w, run.workers[w].saved + PartAt(b, run, w).size))
  {
    SavingIsFirst(p, b, before, run, w, seal);
    PutUpperAt(p, b, before, run, w, seal);
  }

  lemma SavingIsFirst(p: Primitives, b: Backup, before: Store, run: Run, w: nat, seal: Option<Bytes>)
    requires PoolInv(p, b, run) && SavesMissing(b, before, run) && CanPut(p, b, run, w, seal)
    ensures Place(b, PartAt(b, run, w)) !in before
    ensures run.files[run.workers[w].file] == Expected(p, b, run.workers[w].file)
  {
    assert WorkerOk(p, b, run, run.workers[w]);
  }

  lemma PutStepUpper(p: Primitives, b: Backup, before: Store, run: Run, a: Action, next: Run)
    requires PoolInv(p, b, run) && Exclusive(run) && SavesMissing(b, before, run) && Upper(p, b, before, run)
    requires a.Put? && CanPut(p, b, run, a.worker, a.seal) && run.phase == Working && next == Apply(p, b, run, a)
    ensures Upper(p, b, before, next)
  {
    ApplyPut(p, b, run, a);
    PutUpper(p, b, before, run, a.worker, a.seal);
  }

  lemma PutUpperAt(p: Primitives, b: Backup, before: Store, run: Run, w: nat, seal: Option<Bytes>)
    requires Exclusive(run) && Upper(p, b, before, run) && CanPut(p, b, run, w, seal)
    requires Place(b, PartAt(b, run, w)) !in before
             && run.files[run.workers[w].file] == Expected(p, b, run.workers[w].file)
    ensures Upper(p, b, before, Advance(Stored(p, b, run, w, seal), w, run.workers[w].saved + PartAt(b, run, w).size))
  {
    var stored := Stored(p, b, run, w, seal);
    StoredGrows(p, b, run, w, seal);
    SavedWithinMissing(b, before, run, w);
    SameUpper(p, b, before, run, stored);
    AdvanceUpper(p, b, before, stored, w, run.workers[w].saved + PartAt(b, run, w).size);
  }

  lemma SameUpper(p: Primitives, b: Backup, before: Store, run: Run, stored: Run)
    requires stored == run.(store := stored.store, born := stored.born) && Exclusive(run) && Upper(p, b, before, run)
    ensures Exclusive(stored) && Upper(p, b, before, stored)
  {
  }

  lemma SavedWithinMissing(b: Backup, before: Store, run: Run, w: nat)
    requires AtPart(b, run, w)
             && (forall v | 0 <= v < |run.workers| :: WorkerBound(b, before, run.files, run.workers[v]))
             && Place(b, PartAt(b, run, w)) !in before
    ensures run.workers[w].saved + PartAt(b, run, w).size <=
            Missing(b, before, Parts(run.files[run.workers[w].file]), run.workers[w].part + 1)
  {
  }

  lemma HitUpper(p: Primitives, b: Backup, before: Store, run: Run, w: nat)
    requires KnownFormat(b.format) && PoolInv(p, b, run) && Exclusive(run) && Upper(p, b, before, run)
    requires Enabled(p, b, run, Hit(w))
    ensures Upper(p, b, before, Apply(p, b, run, Hit(w)))
  {
    var i := run.workers[w].file;
    assert WorkerOk(p, b, run, run.workers[w]) && WorkerBound(b, before, run.files, run.workers[w]);
    CalculatedParts(p, b.format, b.comp, b.sources[i]);
    assert IsPartOf(p, b.comp, b.sources[i].content, PartAt(b, run, w));
    AdvanceUpper(p, b, before, run, w, run.workers[w].saved);
  }

  lemma OtherUpper(p: Primitives, b: Backup, before: Store, run: Run, a: Action)
    requires PoolInv(p, b, run) && Exclusive(run) && Upper(p, b, before, run)
    requires Enabled(p, b, run, a) && IsWorkerAction(a) && !a.Put? && !a.Hit?
    ensures Upper(p, b, before, Apply(p, b, run, a))
  {
    var next := Apply(p, b, run, a);
    ActionMoves(p, b, run, a);
    PlainTotals(p, b, run, a);
    if a.Hash? { HashSparesOthers(p, b, run, a.worker); }
    forall v | 0 <= v < |next.workers| ensures WorkerBound(b, before, next.files, next.workers[v]) {
      assert WorkerBound(b, before, run.files, run.workers[v]);
      assert v != a.worker ==> next.workers[v] == run.workers[v];
    }
  }

  /** Actions other than finishing a file leave the total and the credit; a worker keeps its count or drops it in
      failing. */
  lemma PlainTotals(p: Primitives, b: Backup, run: Run, a: Action)
    requires Shape(b, run) && Enabled(p, b, run, a) && IsWorkerAction(a) && !a.Put? && !a.Hit?
    ensures var next := Apply(p, b, run, a);
            && next.total == run.total && next.credit == run.credit && |next.files| == |run.files|
            && (a.PutLost? || a.Fail? ==> next.failed && next.workers[a.worker] == Idle)
            && (a.Deliver? || a.Hash? || a.Miss? || a.Leave? ==>
                  next.failed == run.failed && SavedOf(next.workers[a.worker]) == SavedOf(run.workers[a.worker]))
            && (a.Hash? ==> next.workers[a.worker] == Checking(run.workers[a.worker].file, 0, 0))
            && (a.Miss? ==>
                  next.workers[a.worker] ==
                    Saving(run.workers[a.worker].file, run.workers[a.worker].part, run.workers[a.worker].saved))
            && (a.Deliver? ==> next.workers[a.worker].Hashing?) && (a.Leave? ==> next.workers[a.worker] == Exited)
  {
    if a.PutLost? { StoredGrows(p, b, run, a.worker, a.seal); }
  }

  lemma UpperStep(p: Primitives, b: Backup, before: Store, run: Run, a: Action)
    requires Prepared(b) && Inv(p, b, before, run) && Upper(p, b, before, run) && Enabled(p, b, run, a)
    ensures Upper(p, b, before, Apply(p, b, run, a))
  {
    if !IsWorkerAction(a) {
      OtherActions(p, b, run, a);
    } else if a.Put? {
      PutStepUpper(p, b, before, run, a, Apply(p, b, run, a));
    } else if a.Hit? {
      HitUpper(p, b, before, run, a.worker);
    } else {
      OtherUpper(p, b, before, run, a);
    }
  }

  lemma NewPartListed(p: Primitives, b: Backup, before: Store, store: Store, born: seq<Chunk>, part: Chunk, blob: Bytes)
    requires ListsNew(p, b, before, store, born) && RealPart(p, b, part) && part.size >= 0
    requires Place(b, part) !in store && Place(b, part) !in before
    ensures ListsNew(p, b, before, store[Place(b, part) := blob], born + [part])
  {
    var more, next := born + [part], store[Place(b, part) := blob];
    assert !HasHash(born, part.hash);
    forall hash ensures HasHash(more, hash) <==> HasHash(born, hash) || hash == part.hash {
      assert more[|born|] == part;
      if HasHash(born, hash) {
        var k :| 0 <= k < |born| && born[k].hash == hash;
        assert more[k].hash == hash;
      }
    }
  }

  lemma SumAppend(parts: seq<Chunk>, part: Chunk)
    ensures SumSizes(parts + [part]) == SumSizes(parts) + part.size
  {
    assert (parts + [part])[..|parts|] == parts;
  }

  lemma SavedPartIsReal(p: Primitives, b: Backup, run: Run, w: nat, seal: Option<Bytes>)
    requires CanPut(p, b, run, w, seal)
    ensures RealPart(p, b, PartAt(b, run, w)) && PartAt(b, run, w).size >= 0
  {
    assert IsPartOf(p, b.comp, b.sources[run.workers[w].file].content, PartAt(b, run, w));
  }

  /** Storing a part lists it if it is new, and costs its size. */
  lemma StoredLists(p: Primitives, b: Backup, before: Store, run: Run, w: nat, seal: Option<Bytes>)
    requires ListsNew(p, b, before, run.store, run.born) && SavesMissing(b, before, run) && CanPut(p, b, run, w, seal)
    ensures var next, part := Stored(p, b, run, w, seal), PartAt(b, run, w);
            && ListsNew(p, b, before, next.store, next.born)
            && SumSizes(next.born) == SumSizes(run.born) + if Place(b, part) !in run.store then part.size else 0
  {
    var part := PartAt(b, run, w);
    SavedPartIsReal(p, b, run, w, seal);
    SumAppend(run.born, part);
    if Place(b, part) !in run.store {
      NewPartListed(p, b, before, run.store, run.born, part, PartBlob(p, b, run, w, seal));
    }
  }

  lemma PutTotals(p: Primitives, b: Backup, run: Run, w: nat, seal: Option<Bytes>)
    requires Enabled(p, b, run, Put(w, seal))
    ensures var next, stored := Apply(p, b, run, Put(w, seal)), Stored(p, b, run, w, seal);
            && next.store == stored.store && next.born == stored.born && next.failed == run.failed
            && |next.workers| == |run.workers| && Counted(next) == Counted(run) + PartAt(b, run, w).size
  {
    var stored, part := Stored(p, b, run, w, seal), PartAt(b, run, w);
    StoredGrows(p, b, run, w, seal);
    assert Counted(stored) == Counted(run);
    AdvanceCounts(stored, w, run.workers[w].saved + part.size);
  }

  lemma PutCounts(p: Primitives, b: Backup, before: Store, run: Run, w: nat, seal: Option<Bytes>)
    requires Lower(p, b, before, run) && SavesMissing(b, before, run) && Enabled(p, b, run, Put(w, seal))
    ensures ListsNew(p, b, before, Apply(p, b, run, Put(w, seal)).store, Apply(p, b, run, Put(w, seal)).born)
    ensures CountsNew(Apply(p, b, run, Put(w, seal)))
  {
    PutTotals(p, b, run, w, seal);
    StoredLists(p, b, before, run, w, seal);
    SavedPartIsReal(p, b, run, w, seal);
  }

  lemma PutLower(p: Primitives, b: Backup, before: Store, run: Run, a: Action)
    requires Lower(p, b, before, run) && SavesMissing(b, before, run) && Enabled(p, b, run, a) && (a.Put? || a.PutLost?)
    ensures Lower(p, b, before, Apply(p, b, run, a))
  {
    PutMoves(p, b, run, a);
    if a.Put? {
      PutCounts(p, b, before, run, a.worker, a.seal);
    } else {
      StoredGrows(p, b, run, a.worker, a.seal);
      StoredLists(p, b, before, run, a.worker, a.seal);
    }
  }

  lemma PlainLower(p: Primitives, b: Backup, before: Store, run: Run, a: Action)
    requires Shape(b, run) && Lower(p, b, before, run) && Enabled(p, b, run, a)
    requires IsWorkerAction(a) && !a.Put? && !a.PutLost?
    ensures Lower(p, b, before, Apply(p, b, run, a))
  {
    var next := Apply(p, b, run, a);
    PlainMoves(p, b, run, a);
    BornStays(p, b, run, a);
    SumUpdate(run.workers, SavedOf, a.worker, next.workers[a.worker]);
    if a.Hit? {
      AdvanceCounts(run, a.worker, run.workers[a.worker].saved);
    } else {
      PlainTotals(p, b, run, a);
    }
  }

  lemma BornStays(p: Primitives, b: Backup, run: Run, a: Action)
    requires Enabled(p, b, run, a) && IsWorkerAction(a) && !a.Put? && !a.PutLost?
    ensures Apply(p, b, run, a).born == run.born && (!a.Fail? ==> Apply(p, b, run, a).failed == run.failed)
    ensures a.Fail? ==> Apply(p, b, run, a).failed
  {
  }

  lemma LowerStep(p: Primitives, b: Backup, before: Store, run: Run, a: Action)
    requires Inv(p, b, before, run) && Lower(p, b, before, run) && Enabled(p, b, run, a)
    ensures Lower(p, b, before, Apply(p, b, run, a))
  {
    if a.Put? || a.PutLost? {
      PutLower(p, b, before, run, a);
    } else if IsWorkerAction(a) {
      PlainLower(p, b, before, run, a);
    } else {
      OtherActions(p, b, run, a);
    }
  }

  lemma {:induction false} ExecSizes(p: Primitives, b: Backup, before: Store, run: Run, actions: seq<Action>)
    requires Lawful(p) && Prepared(b) && Inv(p, b, before, run)
    requires Upper(p, b, before, run) && Lower(p, b, before, run) && Exec(p, b, run, actions).Some?
    ensures var end := Exec(p, b, run, actions).value;
            Upper(p, b, before, end) && Lower(p, b, before, end) && |end.workers| == |run.workers|
            && (run.failed ==> end.failed)
    decreases |actions|
  {
    if actions != [] {
      var next := Apply(p, b, run, actions[0]);
      StepInv(p, b, before, run, actions[0]);
      UpperStep(p, b, before, run, actions[0]);
      LowerStep(p, b, before, run, actions[0]);
      SameWorkers(p, b, before, run, actions[0]);
      ExecSizes(p, b, before, next, actions[1..]);
    }
  }

  lemma SameWorkers(p: Primitives, b: Backup, before: Store, run: Run, a: Action)
    requires Inv(p, b, before, run) && Enabled(p, b, run, a)
    ensures |Apply(p, b, run, a).workers| == |run.workers| && (run.failed ==> Apply(p, b, run, a).failed)
  {
    if IsWorkerAction(a) { ActionMoves(p, b, run, a); }
  }

  lemma StartSizes(p: Primitives, b: Backup, before: Store, workers: nat)
    ensures Upper(p, b, before, Start(b, before, workers)) && Lower(p, b, before, Start(b, before, workers))
  {
    SumOfNothing(Start(b, before, workers).credit, CreditOf);
    SumOfNothing(Start(b, before, workers).workers, SavedOf);
  }

  /** A published snapshot's total size is at most the size of all parts that were missing at the start, and at least
      that of the distinct objects that are new; a single worker reports the latter exactly. */
  lemma SizeAccounting(p: Primitives, b: Backup, before: Store, workers: nat, actions: seq<Action>, news: seq<Chunk>)
    requires Lawful(p) && Prepared(b)
    requires Exec(p, b, Start(b, before, workers), actions).Some?
    requires var end := Exec(p, b, Start(b, before, workers), actions).value;
             end.published && ListsNew(p, b, before, end.store, news)
    ensures var end := Exec(p, b, Start(b, before, workers), actions).value;
            && SumSizes(news) <= end.total <= MissingFrom(p, b, before, 0)
            && (workers <= 1 ==> end.total == SumSizes(news))
  {
    StartInv(p, b, before, workers);
    StartSizes(p, b, before, workers);
    ExecInv(p, b, before, Start(b, before, workers), actions);
    ExecSizes(p, b, before, Start(b, before, workers), actions);
    var end := Exec(p, b, Start(b, before, workers), actions).value;
    CreditBounded(p, b, before, end.credit, 0);
    SumOfNothing(end.workers, SavedOf);
    SameNews(p, b, before, end.store, news, end.born);
  }

  lemma SameNews(p: Primitives, b: Backup, before: Store, store: Store, x: seq<Chunk>, y: seq<Chunk>)
    requires Lawful(p) && ListsNew(p, b, before, store, x) && ListsNew(p, b, before, store, y)
    ensures SumSizes(x) == SumSizes(y)
  {
    forall k | 0 <= k < |x| ensures HasHash(y, x[k].hash) { assert HasHash(x, x[k].hash); }
    forall k | 0 <= k < |y| ensures HasHash(x, y[k].hash) { assert HasHash(y, y[k].hash); }
    SubsetSum(p, b, x, y);
    SubsetSum(p, b, y, x);
  }
}
