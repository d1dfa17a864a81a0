/** The verify operation: it gets the key and the manifest, lets the workers check the files in whatever order the
    scheduler picks, and reports; and what it reports of a snapshot that is durable. */
module Verifies {
  import opened Outcomes
  import opened Primitives
  import opened Files
  import opened ObjectKeys
  import opened Objects
  import opened S3Objects
  import opened Configs
  import opened Repositories
  import opened Manifests
  import opened Restores
  import opened VerifyPool
  import opened VerifyWorkers
  import P = PlainDurability
  import D = Durability
  import L = Lifetime

  /** What is verified: the manifest's files, in what the bucket shows of their parts. */
  ghost function Verified(objects: ObjectRepository, m: Manifest, e: EncryptionData): Snapshot
    reads objects
  {
    Snapshot(m.files, Visible(objects, m, e.symmetricKey, e.generation).store, SpaceFor(e.symmetricKey, e.generation),
             e.symmetricKey)
  }

  /** Where the pool ends. */
  ghost function PoolEnd(objects: ObjectRepository, m: Manifest, e: EncryptionData, most: nat, schedule: seq<Turn>): Run
    reads objects
  {
    var v := Verified(objects, m, e);
    Follow(objects.p, v, Start(v, most), schedule)
  }

  /** The result is that of the pool: an error if any worker met one. A schedule that ends before everybody left is a
      crash. Nothing is written. A result is a report on the files handed out, all of them unless the caller cancels;
      left alone, there is none exactly when some file's first part that is not good cannot be told to be missing or
      another one. */
  method Verify(folder: FolderRepository, manifests: ManifestRepository, objects: ObjectRepository, snapshotID: string,
                privateKey: Option<Option<PrivateKey>>, cancelled: bool, answered: bool, workers: int,
                defaultWorkers: nat, schedule: seq<Turn>)
    returns (r: Result<Outcome>, crashed: bool)
    ensures var e, m := KeyOf(objects.p, folder.stored, privateKey), ManifestAt(manifests.snapshots, snapshotID);
            if cancelled || !answered || e == None || m == None then r.Err? && !crashed
            else
              var end := PoolEnd(objects, m.value, e.value, if workers <= 0 then defaultWorkers else workers, schedule);
              && (crashed <==> !AllExited(end))
              && r == if crashed || end.failed then Err(Broken) else Ok(Outcome(end.total, end.failures))
    ensures var e, m := KeyOf(objects.p, folder.stored, privateKey), ManifestAt(manifests.snapshots, snapshotID);
            !cancelled && answered && e.Some? && m.Some? ==> Told(objects, m.value, e.value, schedule, r, crashed)
  {
    crashed, r := false, Err(Broken);
    var data := KeyData(objects.p, folder, privateKey, cancelled, answered);
    if data.Err? {
      return;
    }
    var manifest := manifests.Get(snapshotID, cancelled, answered);
    if manifest.Err? {
      return;
    }
    r, crashed := VerifyAll(objects, manifest.value, data.value, if workers <= 0 then defaultWorkers
                            else workers, schedule);
  }

  /** A result is a report on as many files as were handed out, all of them unless the caller cancels. Left alone, there
      is none exactly when some file cannot be told good or bad. */
  ghost predicate Tells(p: Primitives, v: Snapshot, schedule: seq<Turn>, r: Result<Outcome>, crashed: bool) {
    && (r.Ok? ==> !crashed && Reports(p, v, r.value.total, r.value)
                  && (Uncancelled(schedule) ==> r.value.total == |v.files|))
    && (AllCalm(schedule) && !crashed ==> (r.Err? <==> SomeUnreadable(p, v)))
  }

  /** What is told is of any store that shows what there is of a manifest's files. */
  ghost predicate Told(objects: ObjectRepository, m: Manifest, e: EncryptionData, schedule: seq<Turn>,
                       r: Result<Outcome>, crashed: bool)
    reads objects
  {
    forall store :: ShowsAll(objects, m, e, store) ==> Tells(objects.p, Looked(m, e, store), schedule, r, crashed)
  }

  /** A manifest's files, looked for in a store. */
  function Looked(m: Manifest, e: EncryptionData, store: Store): Snapshot {
    Snapshot(m.files, store, SpaceFor(e.symmetricKey, e.generation), e.symmetricKey)
  }

  lemma TellsOfAll(objects: ObjectRepository, m: Manifest, e: EncryptionData, schedule: seq<Turn>, seen: Store,
                   r: Result<Outcome>, crashed: bool)
    requires ShowsAll(objects, m, e, seen) && Tells(objects.p, Looked(m, e, seen), schedule, r, crashed)
    ensures Told(objects, m, e, schedule, r, crashed)
  {
    forall store | ShowsAll(objects, m, e, store) ensures Tells(objects.p, Looked(m, e, store), schedule, r, crashed) {
      var v, w := Looked(m, e, seen), Looked(m, e, store);
      forall i | 0 <= i < |m.files| ensures CheckedFile(objects.p, v, i) == CheckedFile(objects.p, w, i) {
        ShownAlike(objects, seen, store, v.space, Parts(m.files[i]));
        SameVerdict(objects.p, seen, store, v.space, v.key, m.files[i]);
      }
      var report := if r.Ok? then r.value else Outcome(0, []);
      SameReports(objects.p, v, w, report.total, report);
    }
  }

  ghost predicate SomeUnreadable(p: Primitives, v: Snapshot) {
    exists i :: 0 <= i < |v.files| && FileUnreadable(p, v.store, v.space, v.key, v.files[i])
  }

  /** What a pool that let everybody leave comes to, in terms of the store. */
  lemma PoolReports(p: Primitives, v: Snapshot, most: nat, schedule: seq<Turn>)
    requires AllExited(Follow(p, v, Start(v, most), schedule))
    ensures var end := Follow(p, v, Start(v, most), schedule);
            && (!end.failed ==> Reports(p, v, end.total, Outcome(end.total, end.failures))
                                && (Uncancelled(schedule) ==> end.total == |v.files|))
            && (AllCalm(schedule) ==> (end.failed <==> SomeUnreadable(p, v)))
  {
    var end := Follow(p, v, Start(v, most), schedule);
    StartReached(p, v, most);
    FollowIsRun(p, v, most, Start(v, most), schedule);
    var actions :| Exec(p, v, Start(v, most), actions) == Some(end);
    ExecSnoc(p, v, Start(v, most), actions, Finish);
    if !end.failed { ResultReports(p, v, most, actions + [Finish]); }
    if Uncancelled(schedule) { UncancelledRun(p, v, Start(v, most), schedule); }
    if AllCalm(schedule) {
      assert Uncancelled(schedule) by {
        forall i | 0 <= i < |schedule| ensures !schedule[i].CallerCancels? { assert Calm(schedule[i]); }
      }
      if !SomeUnreadable(p, v) {
        ReadableAreChecked(p, v);
        CalmRun(p, v, Start(v, most), schedule);
      }
    }
  }

  lemma ReadableAreChecked(p: Primitives, v: Snapshot)
    requires !SomeUnreadable(p, v)
    ensures AllChecked(p, v, |v.files|)
  {
    forall i | 0 <= i < |v.files| ensures CheckedFile(p, v, i).Ok? {
      VerifiesExactly(p, v.store, v.space, v.key, v.files[i]);
    }
  }

  method VerifyAll(objects: ObjectRepository, m: Manifest, e: EncryptionData, most: nat, schedule: seq<Turn>)
    returns (r: Result<Outcome>, crashed: bool)
    ensures var end := PoolEnd(objects, m, e, most, schedule);
            && (crashed <==> !AllExited(end))
            && r == if crashed || end.failed then Err(Broken) else Ok(Outcome(end.total, end.failures))
    ensures Told(objects, m, e, schedule, r, crashed)
  {
    forall i | 0 <= i < |m.files|
      ensures objects.ShowsParts(Verified(objects, m, e).store, SpaceFor(e.symmetricKey, e.generation),
                                 Parts(m.files[i]))
    {
      ReadingShows(objects, m, e.symmetricKey, e.generation, i);
    }
    var pool := new Pool(objects, m.files, e.symmetricKey, e.generation, most, Verified(objects, m, e).store);
    var finished := pool.VerifyFiles(schedule);
    r := if !finished || pool.failed then Err(Broken) else Ok(Outcome(pool.total, pool.failures));
    crashed := !finished;
    if finished { PoolReports(objects.p, Verified(objects, m, e), most, schedule); }
    TellsOfAll(objects, m, e, schedule, Verified(objects, m, e).store, r, crashed);
  }

  /** Where the verdicts are the same, so are the reports. */
  lemma SameReports(p: Primitives, v: Snapshot, w: Snapshot, n: nat, report: Outcome)
    requires v.files == w.files && forall i | 0 <= i < |v.files| :: CheckedFile(p, v, i) == CheckedFile(p, w, i)
    ensures SomeUnreadable(p, v) <==> SomeUnreadable(p, w)
    ensures Reports(p, v, n, report) ==> Reports(p, w, n, report)
  {
    forall i | 0 <= i < |v.files|
      ensures FileUnreadable(p, v.store, v.space, v.key, v.files[i]) <==>
                FileUnreadable(p, w.store, w.space, w.key, w.files[i])
    {
      SameUnreadable(p, v, w, i);
    }
    if Reports(p, v, n, report) {
      forall path, reason
        ensures multiset(report.failures)[Failure(path, reason)] == FailingFor(p, w, n, path, reason)
      {
        SameFailing(p, v, w, n, path, reason);
      }
    }
  }

  lemma SameUnreadable(p: Primitives, v: Snapshot, w: Snapshot, i: nat)
    requires v.files == w.files && i < |v.files| && CheckedFile(p, v, i) == CheckedFile(p, w, i)
    ensures FileUnreadable(p, v.store, v.space, v.key, v.files[i]) <==>
              FileUnreadable(p, w.store, w.space, w.key, w.files[i])
  {
    VerifiesExactly(p, v.store, v.space, v.key, v.files[i]);
    VerifiesExactly(p, w.store, w.space, w.key, w.files[i]);
  }

  lemma SameFailing(p: Primitives, v: Snapshot, w: Snapshot, n: nat, path: string, reason: Reason)
    requires v.files == w.files && forall i | 0 <= i < |v.files| :: CheckedFile(p, v, i) == CheckedFile(p, w, i)
    requires n <= |v.files|
    ensures FailingFor(p, v, n, path, reason) == FailingFor(p, w, n, path, reason)
  {
    assert Findings(p, v) == Findings(p, w);
    FailuresCounted(p, v, n, path, reason);
    FailuresCounted(p, w, n, path, reason);
  }

  // What it reports of a durable snapshot

  lemma {:induction false} SameChunks(p: Primitives, a: Store, b: Store, space: Space, key: Bytes, chunks: seq<Chunk>,
                                      index: nat)
    requires index <= |chunks| && forall k | 0 <= k < |chunks| :: SameAt(a, b, ObjectId(space, chunks[k].hash))
    ensures VerifyChunks(p, a, space, key, chunks, index) == VerifyChunks(p, b, space, key, chunks, index)
    decreases |chunks| - index
  {
    if index < |chunks| {
      assert SameAt(a, b, ObjectId(space, chunks[index].hash));
      SameChunks(p, a, b, space, key, chunks, index + 1);
    }
  }

  /** A verdict depends only on the objects of the file's parts. */
  lemma SameVerdict(p: Primitives, a: Store, b: Store, space: Space, key: Bytes, record: FileRecord)
    requires forall k | 0 <= k < |Parts(record)| :: SameAt(a, b, ObjectId(space, Parts(record)[k].hash))
    ensures VerifyFile(p, a, space, key, record) == VerifyFile(p, b, space, key, record)
  {
    if record.chunks == [] {
      assert SameAt(a, b, ObjectId(space, Parts(record)[0].hash));
    } else {
      assert Parts(record) == record.chunks;
      SameChunks(p, a, b, space, key, record.chunks, 0);
    }
  }

  lemma {:induction false} NothingToReport(p: Primitives, v: Snapshot, n: nat)
    requires n <= |v.files| && forall i | 0 <= i < |v.files| :: CheckedFile(p, v, i) == Ok(None)
    ensures Failures(p, v, Range(n)) == []
  {
    if n > 0 {
      assert Range(n)[..n - 1] == Range(n - 1);
      NothingToReport(p, v, n - 1);
    }
  }

  /** When every file checks out, and neither the caller nor the service interferes, every schedule that lets everybody
      leave reports every file and no failure. */
  lemma CalmReport(p: Primitives, v: Snapshot, most: nat, schedule: seq<Turn>)
    requires AllCalm(schedule) && forall i | 0 <= i < |v.files| :: CheckedFile(p, v, i) == Ok(None)
    requires AllExited(Follow(p, v, Start(v, most), schedule))
    ensures var end := Follow(p, v, Start(v, most), schedule);
            !end.failed && end.total == |v.files| && end.failures == []
  {
    var end := Follow(p, v, Start(v, most), schedule);
    StartReached(p, v, most);
    FollowIsRun(p, v, most, Start(v, most), schedule);
    CalmRun(p, v, Start(v, most), schedule);
    var actions :| Exec(p, v, Start(v, most), actions) == Some(end);
    ExecSnoc(p, v, Start(v, most), actions, Finish);
    RefinesOneByOne(p, v, most, actions + [Finish]);
    NothingToReport(p, v, |v.files|);
    assert |multiset(end.failures)| == |end.failures|;
  }

  /** A snapshot in the repository of a careful history: the configuration and the objects are those of its state. */
  ghost predicate Stands(objects: ObjectRepository, events: seq<L.Event>, id: string, priv: Option<PrivateKey>)
    reads objects
  {
    && objects.Valid() && Lawful(objects.p) && L.CarefulHistory(objects.p, events)
    && var w := L.State(objects.p, events);
       objects.view == w.vault.store && id in w.published && D.Matches(objects.p, w.vault, w.published[id], priv)
  }

  /** The key and the generation such a snapshot is read with. */
  function StandingData(p: Primitives, w: L.World, priv: Option<PrivateKey>): Option<EncryptionData> {
    KeyOf(p, w.vault.config, if priv == None then None else Some(priv))
  }

  lemma StandingKey(objects: ObjectRepository, events: seq<L.Event>, id: string, priv: Option<PrivateKey>)
    requires Stands(objects, events, id, priv)
    ensures var w := L.State(objects.p, events);
            var s := w.published[id];
            && P.RecordGood(objects.p, s) && L.KeyFor(objects.p, w.vault, priv).Some?
            && StandingData(objects.p, w, priv) ==
                 Some(EncryptionData(L.KeyFor(objects.p, w.vault, priv).value,
                                     if priv == None then 0 else L.GenerationOf(w.vault)))
            && (priv == None ==> L.KeyFor(objects.p, w.vault, priv).value == [])
  {
    D.CarefulIsWhole(objects.p, events);
    D.MatchingKey(objects.p, L.State(objects.p, events), id, priv);
  }

  /** What the bucket shows of a durable snapshot checks out, file by file. */
  lemma DurableChecksOut(objects: ObjectRepository, events: seq<L.Event>, id: string, priv: Option<PrivateKey>, i: nat)
    requires Stands(objects, events, id, priv)
    requires i < |L.State(objects.p, events).published[id].sources|
    ensures var w := L.State(objects.p, events);
            var s, key := w.published[id], L.KeyFor(objects.p, w.vault, priv);
            && P.Read(s).Some? && |P.Read(s).value.files| == |s.sources| && key.Some?
            && var m := P.Read(s).value;
               var e := EncryptionData(key.value, if priv == None then 0 else L.GenerationOf(w.vault));
               CheckedFile(objects.p, Verified(objects, m, e), i) == Ok(None)
  {
    var p, w := objects.p, L.State(objects.p, events);
    D.Durable(p, events, id, i, priv);
    StandingKey(objects, events, id, priv);
    var s, key := w.published[id], L.KeyFor(p, w.vault, priv).value;
    var m, generation := P.Read(s).value, if priv == None then 0 else L.GenerationOf(w.vault);
    assert SpaceFor(key, generation) == SpaceFor(key, L.GenerationOf(w.vault)) by {
      if priv == None { assert key == []; }
    }
    CalculatedHashes(p, s.format, m.comp, s.sources[i]);
    OrdinaryParts(p, Parts(m.files[i]));
    ReadingShows(objects, m, key, generation, i);
    ShownIsStored(objects, Visible(objects, m, key, generation).store, SpaceFor(key, generation), Parts(m.files[i]));
    SameVerdict(p, Visible(objects, m, key, generation).store, objects.view, SpaceFor(key, generation), key,
                m.files[i]);
  }

  lemma OrdinaryParts(p: Primitives, parts: seq<Chunk>)
    requires forall k | 0 <= k < |parts| :: IsHex(parts[k].hash)
    ensures forall k | 0 <= k < |parts| :: OrdinaryHash(parts[k].hash)
  {
    forall k | 0 <= k < |parts| ensures OrdinaryHash(parts[k].hash) { HexIsOrdinary(parts[k].hash); }
  }

  /** After any careful history, verifying a published snapshot with the key it was made with, uncancelled and answered,
      reports every file and no failure, for every number of workers and every schedule that lets them all leave. */
  lemma DurableVerifies(objects: ObjectRepository, events: seq<L.Event>, id: string, priv: Option<PrivateKey>,
                        most: nat, schedule: seq<Turn>)
    requires Stands(objects, events, id, priv) && AllCalm(schedule)
    ensures var w := L.State(objects.p, events);
            var m, e := P.Read(w.published[id]), StandingData(objects.p, w, priv);
            && m.Some? && e.Some?
            && var end := PoolEnd(objects, m.value, e.value, most, schedule);
               AllExited(end) ==>
                 !end.failed && end.total == |w.published[id].sources| && end.failures == []
  {
    StandingKey(objects, events, id, priv);
    var w := L.State(objects.p, events);
    var s := w.published[id];
    var m, e := P.Read(s).value, StandingData(objects.p, w, priv).value;
    forall i | 0 <= i < |m.files| ensures CheckedFile(objects.p, Verified(objects, m, e), i) == Ok(None) {
      DurableChecksOut(objects, events, id, priv, i);
    }
    if AllExited(PoolEnd(objects, m, e, most, schedule)) {
      CalmReport(objects.p, Verified(objects, m, e), most, schedule);
    }
  }
}
