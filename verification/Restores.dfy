/**
  Restoring a snapshot, to where it came from or into another folder: every file of the manifest is tried, failures
  are collected, and each file that restores lands at its own path.
 */
module Restores {
  import opened Outcomes
  import opened Primitives
  import opened Replacing
  import opened Files
  import opened ObjectKeys
  import opened Objects
  import opened S3Objects
  import opened Configs
  import opened Repositories
  import opened Manifests

  datatype FailedResult = FailedResult(path: string, fault: Fault)

  class RestoreResult {
    const snapshotID: string
    var totalFiles: nat
    var failed: seq<FailedResult>

    constructor (snapshotID: string)
      ensures this.snapshotID == snapshotID && totalFiles == 0 && failed == []
    {
      this.snapshotID, this.totalFiles, this.failed := snapshotID, 0, [];
    }

    method AddFailed(failure: FailedResult)
      modifies this
      ensures failed == old(failed) + [failure] && totalFiles == old(totalFiles) + 1
    {
      failed := failed + [failure];
      totalFiles := totalFiles + 1;
    }

    method AddSuccess()
      modifies this`totalFiles
      ensures totalFiles == old(totalFiles) + 1
    {
      totalFiles := totalFiles + 1;
    }
  }

  // What restoring a list of files comes to

  /** The store as restoring sees it. */
  datatype Reader = Reader(p: Primitives, store: Store, space: Space, key: Bytes)

  /** What goes wrong around a restore: the file from which the context is done, destinations that cannot be created,
      and how fetching each part of each file goes. */
  datatype Trouble = Trouble(doneFrom: Option<nat>, unopened: set<string>, env: nat -> nat -> Fetch)

  function NoTrouble(): Trouble { Trouble(None, {}, (i: nat) => (k: nat) => Answered) }

  function Target(m: Manifest, destination: Option<string>, i: nat): FileRecord
    requires i < |m.files|
  {
    var f := m.files[i];
    if destination == None then f else f.(path := ReplaceAll(f.path, m.source, destination.value))
  }

  /** One file of a restore: where it goes, whether that was opened, and what came of it. */
  datatype Attempt = Attempt(target: FileRecord, reached: bool, outcome: Result<Bytes>)

  function AttemptOf(r: Reader, m: Manifest, destination: Option<string>, trouble: Trouble, i: nat): Attempt
    requires i < |m.files|
  {
    var target := Target(m, destination, i);
    if trouble.doneFrom.Some? && trouble.doneFrom.value <= i then Attempt(target, false, Err(Cancelled))
    else if !UsableHashes(target) then Attempt(target, false, Err(Rejected))
    else if target.path in trouble.unopened then Attempt(target, false, Err(Broken))
    else Attempt(target, true, FileUnder(r.p, r.store, r.space, r.key, m.comp.compType, target, trouble.env(i)))
  }

  function AttemptsTo(r: Reader, m: Manifest, destination: Option<string>, trouble: Trouble,
                      n: nat): (attempts: seq<Attempt>)
    requires n <= |m.files|
    ensures |attempts| == n
  {
    if n == 0 then []
    else AttemptsTo(r, m, destination, trouble, n - 1) + [AttemptOf(r, m, destination, trouble, n - 1)]
  }

  function Attempts(r: Reader, m: Manifest, destination: Option<string>, trouble: Trouble): seq<Attempt> {
    AttemptsTo(r, m, destination, trouble, |m.files|)
  }

  lemma {:induction false} AttemptAt(r: Reader, m: Manifest, destination: Option<string>, trouble: Trouble, n: nat,
                                     i: nat)
    requires i < n <= |m.files|
    ensures AttemptsTo(r, m, destination, trouble, n)[i] == AttemptOf(r, m, destination, trouble, i)
  {
    if i < n - 1 { AttemptAt(r, m, destination, trouble, n - 1, i); }
  }

  function AfterAttempt(files: map<string, Bytes>, a: Attempt): map<string, Bytes> {
    if a.reached then Filled(files, a.target.path, a.outcome) else files
  }

  /** The file system after the first `n` attempts. */
  function Landed(attempts: seq<Attempt>, n: nat, files: map<string, Bytes>): map<string, Bytes>
    requires n <= |attempts|
  {
    if n == 0 then files else AfterAttempt(Landed(attempts, n - 1, files), attempts[n - 1])
  }

  function Failed(attempts: seq<Attempt>, n: nat): seq<FailedResult>
    requires n <= |attempts|
  {
    if n == 0 then [] else Failed(attempts, n - 1) + FailureOf(attempts[n - 1])
  }

  function FailureOf(a: Attempt): seq<FailedResult> {
    if a.outcome.Ok? then [] else [FailedResult(a.target.path, a.outcome.fault)]
  }

  // What restoring a file comes to, in terms of the store

  /** The hashes are such as objects have, or no keys at all. */
  predicate OrdinaryFile(f: FileRecord) {
    forall k | 0 <= k < |Parts(f)| :: |Parts(f)[k].hash| >= 3 ==> OrdinaryHash(Parts(f)[k].hash)
  }

  predicate OrdinaryManifest(m: Manifest) { forall i | 0 <= i < |m.files| :: OrdinaryFile(m.files[i]) }

  /** Where a file goes. */
  function PathOf(m: Manifest, destination: Option<string>, i: nat): string
    requires i < |m.files|
  {
    match destination
    case None => m.files[i].path
    case Some(folder) => ReplaceAll(m.files[i].path, m.source, folder)
  }

  predicate DoneBy(trouble: Trouble, i: nat) { trouble.doneFrom.Some? && trouble.doneFrom.value <= i }

  /** The destination of a file is opened: before the context is done, and if every part has a hash that can be a key.
      */
  predicate Opens(m: Manifest, destination: Option<string>, trouble: Trouble, i: nat)
    requires i < |m.files|
  {
    !DoneBy(trouble, i) && UsableHashes(m.files[i]) && PathOf(m, destination, i) !in trouble.unopened
  }

  /** A file restores to some data: its destination opens, every part is fetched and gives its piece, and the pieces in
      order are the data, of the recorded size. */
  ghost predicate RestoresTo(r: Reader, m: Manifest, destination: Option<string>, trouble: Trouble, i: nat, data: Bytes)
    requires i < |m.files|
  {
    var parts := Parts(m.files[i]);
    && Opens(m, destination, trouble, i) && (forall k: nat | k < |parts| :: trouble.env(i)(k) == Answered)
    && PartsGive(r.p, r.store, r.space, r.key, m.comp.compType, parts, data) && |data| == m.files[i].size
  }

  ghost predicate Succeeds(r: Reader, m: Manifest, destination: Option<string>, trouble: Trouble, i: nat)
    requires i < |m.files|
  {
    exists data :: RestoresTo(r, m, destination, trouble, i, data)
  }

  /** What is reported of a file that does not restore: the first thing that goes wrong, up to its size. */
  ghost predicate FailsWith(r: Reader, m: Manifest, destination: Option<string>, trouble: Trouble, i: nat, fault: Fault)
    requires i < |m.files|
  {
    var parts, compType := Parts(m.files[i]), m.comp.compType;
    if DoneBy(trouble, i) then fault == Cancelled
    else if !UsableHashes(m.files[i]) then fault == Rejected
    else if PathOf(m, destination, i) in trouble.unopened then fault == Broken
    else
      || (exists k: nat :: FirstLost(r.p, r.store, r.space, r.key, compType, parts, trouble.env(i), 0, k, fault))
      || (PartsCome(r.p, r.store, r.space, r.key, compType, parts, trouble.env(i), 0, |parts|)
          && fault == Broken && !Succeeds(r, m, destination, trouble, i))
  }

  /** Where a file goes, whether its destination is opened, what it restores to, and what is reported of it if it does
      not. */
  lemma AttemptExact(r: Reader, m: Manifest, destination: Option<string>, trouble: Trouble, i: nat)
    requires i < |m.files|
    ensures var a := AttemptOf(r, m, destination, trouble, i);
            && a.target.path == PathOf(m, destination, i) && (a.reached <==> Opens(m, destination, trouble, i))
            && (forall data :: a.outcome == Ok(data) <==> RestoresTo(r, m, destination, trouble, i, data))
            && (forall fault :: a.outcome == Err(fault) <==> FailsWith(r, m, destination, trouble, i, fault))
  {
    assert Parts(Target(m, destination, i)) == Parts(m.files[i]);
    if Opens(m, destination, trouble, i) {
      OpenedExact(r, m, destination, trouble, i);
    }
  }

  lemma OpenedExact(r: Reader, m: Manifest, destination: Option<string>, trouble: Trouble, i: nat)
    requires i < |m.files| && Opens(m, destination, trouble, i)
    ensures var came := FileUnder(r.p, r.store, r.space, r.key, m.comp.compType, Target(m, destination, i),
                                  trouble.env(i));
            && (forall data :: came == Ok(data) <==> RestoresTo(r, m, destination, trouble, i, data))
            && (forall fault :: came == Err(fault) <==> FailsWith(r, m, destination, trouble, i, fault))
  {
    var parts, compType, env := Parts(m.files[i]), m.comp.compType, trouble.env(i);
    var target := Target(m, destination, i);
    assert Parts(target) == parts;
    var came := FileUnder(r.p, r.store, r.space, r.key, compType, target, env);
    PartsUnderExact(r.p, r.store, r.space, r.key, compType, parts, env, 0);
    forall data ensures came == Ok(data) <==> RestoresTo(r, m, destination, trouble, i, data) {
      OpenedRestores(r, m, destination, trouble, i, data);
    }
    forall fault ensures came == Err(fault) <==> FailsWith(r, m, destination, trouble, i, fault) {
      forall a: nat, b: nat, x, y |
        FirstLost(r.p, r.store, r.space, r.key, compType, parts, env, 0, a, x)
        && FirstLost(r.p, r.store, r.space, r.key, compType, parts, env, 0, b, y)
        ensures x == y && !PartsCome(r.p, r.store, r.space, r.key, compType, parts, env, 0, |parts|)
      {
        OneFirstLost(r.p, r.store, r.space, r.key, compType, parts, env, a, b, x, y);
      }
    }
  }

  lemma OpenedRestores(r: Reader, m: Manifest, destination: Option<string>, trouble: Trouble, i: nat, data: Bytes)
    requires i < |m.files| && Opens(m, destination, trouble, i)
    ensures var came := FileUnder(r.p, r.store, r.space, r.key, m.comp.compType, Target(m, destination, i),
                                  trouble.env(i));
            came == Ok(data) <==> RestoresTo(r, m, destination, trouble, i, data)
  {
    var parts, compType, env := Parts(m.files[i]), m.comp.compType, trouble.env(i);
    var target := Target(m, destination, i);
    assert Parts(target) == parts && parts[0..] == parts;
    PartsUnderExact(r.p, r.store, r.space, r.key, compType, parts, env, 0);
    RestoresExactly(r.p, r.store, r.space, r.key, compType, target, data);
    RestoreFileCases(r.p, r.store, r.space, r.key, compType, target);
    if PartsCome(r.p, r.store, r.space, r.key, compType, parts, env, 0, |parts|) {
      forall k: nat | k < |parts| ensures env(k) == Answered {
        assert PartComes(r.p, r.store, r.space, r.key, compType, parts[k].hash, env(k));
      }
    }
    if RestoresTo(r, m, destination, trouble, i, data) {
      var pieces :| PiecesGiven(r.p, r.store, r.space, r.key, compType, parts, pieces) && Concatenated(pieces) == data;
      forall k: nat | k < |parts| ensures PartComes(r.p, r.store, r.space, r.key, compType, parts[k].hash, env(k)) {
        assert PartGives(r.p, r.store, r.space, r.key, compType, parts[k].hash, pieces[k]);
      }
    }
  }

  // What restoring all files comes to

  ghost predicate Increasing(at: seq<nat>, n: nat) {
    && (forall x | 0 <= x < |at| :: at[x] < n)
    && forall x, y | 0 <= x < y < |at| :: at[x] < at[y]
  }

  /** The entry is that of the i-th file: where it goes, and what is reported of it. */
  ghost predicate Entry(r: Reader, m: Manifest, destination: Option<string>, trouble: Trouble, i: nat,
                        entry: FailedResult)
    requires i < |m.files|
  {
    entry.path == PathOf(m, destination, i) && FailsWith(r, m, destination, trouble, i, entry.fault)
  }

  /** `at` are the files among the first `n` that do not restore, in order, and they are what is reported, each once. */
  ghost predicate ReportedAt(r: Reader, m: Manifest, destination: Option<string>, trouble: Trouble, n: nat,
                             at: seq<nat>, failed: seq<FailedResult>)
  {
    && n <= |m.files| && Increasing(at, n) && |at| == |failed|
    && (forall i: nat | i < n :: i in at <==> !Succeeds(r, m, destination, trouble, i))
    && forall x | 0 <= x < |at| :: Entry(r, m, destination, trouble, at[x], failed[x])
  }

  /** The last of the first `n` files that are opened at a path. */
  predicate LastOpened(m: Manifest, destination: Option<string>, trouble: Trouble, n: nat, path: string, j: nat) {
    && j < n <= |m.files| && Opens(m, destination, trouble, j) && PathOf(m, destination, j) == path
    && forall k: nat | j < k < n :: !(Opens(m, destination, trouble, k) && PathOf(m, destination, k) == path)
  }

  predicate NeverOpened(m: Manifest, destination: Option<string>, trouble: Trouble, n: nat, path: string) {
    && n <= |m.files|
    && forall k: nat | k < n :: !(Opens(m, destination, trouble, k) && PathOf(m, destination, k) == path)
  }

  /** What there is at a path afterwards: what the last file opened there restores to, nothing if that does not restore,
      and what was there before if no file is opened there. */
  ghost predicate LandedAt(r: Reader, m: Manifest, destination: Option<string>, trouble: Trouble, n: nat,
                           before: map<string, Bytes>, after: map<string, Bytes>, path: string)
  {
    && (forall j: nat | LastOpened(m, destination, trouble, n, path, j) ::
          if path in after then RestoresTo(r, m, destination, trouble, j, after[path])
          else !Succeeds(r, m, destination, trouble, j))
    && (NeverOpened(m, destination, trouble, n, path) ==>
          (path in after <==> path in before) && (path in after ==> after[path] == before[path]))
  }

  /** The report and the file system after the first `n` files. */
  ghost predicate RestoredUpTo(r: Reader, m: Manifest, destination: Option<string>, trouble: Trouble, n: nat,
                               before: map<string, Bytes>, after: map<string, Bytes>, failed: seq<FailedResult>)
  {
    && (exists at :: ReportedAt(r, m, destination, trouble, n, at, failed))
    && forall path :: LandedAt(r, m, destination, trouble, n, before, after, path)
  }

  lemma OneMoreReported(r: Reader, m: Manifest, destination: Option<string>, trouble: Trouble, i: nat, at: seq<nat>,
                        failed: seq<FailedResult>, entry: FailedResult)
    requires i < |m.files| && ReportedAt(r, m, destination, trouble, i, at, failed)
    requires !Succeeds(r, m, destination, trouble, i) && Entry(r, m, destination, trouble, i, entry)
    ensures ReportedAt(r, m, destination, trouble, i + 1, at + [i], failed + [entry])
  {
    var next, n := at + [i], i + 1;
    forall k: nat | k < n ensures k in next <==> !Succeeds(r, m, destination, trouble, k) {
      assert k < i ==> (k in at <==> !Succeeds(r, m, destination, trouble, k));
    }
    forall x | 0 <= x < |next| ensures Entry(r, m, destination, trouble, next[x], (failed + [entry])[x]) {
      if x < |at| { assert Entry(r, m, destination, trouble, at[x], failed[x]); }
    }
  }

  lemma NoneMoreReported(r: Reader, m: Manifest, destination: Option<string>, trouble: Trouble, i: nat, at: seq<nat>,
                         failed: seq<FailedResult>)
    requires i < |m.files| && ReportedAt(r, m, destination, trouble, i, at, failed)
    requires Succeeds(r, m, destination, trouble, i)
    ensures ReportedAt(r, m, destination, trouble, i + 1, at, failed)
  {
    assert i !in at;
  }

  lemma ReportNext(r: Reader, m: Manifest, destination: Option<string>, trouble: Trouble, i: nat, at: seq<nat>,
                   failed: seq<FailedResult>)
    returns (next: seq<nat>)
    requires i < |m.files| && ReportedAt(r, m, destination, trouble, i, at, failed)
    ensures ReportedAt(r, m, destination, trouble, i + 1, next,
                       failed + FailureOf(AttemptOf(r, m, destination, trouble, i)))
  {
    var a := AttemptOf(r, m, destination, trouble, i);
    AttemptExact(r, m, destination, trouble, i);
    if a.outcome.Ok? {
      NoneMoreReported(r, m, destination, trouble, i, at, failed);
      assert failed + FailureOf(a) == failed;
      next := at;
    } else {
      OneMoreReported(r, m, destination, trouble, i, at, failed, FailedResult(a.target.path, a.outcome.fault));
      next := at + [i];
    }
  }

  lemma LandNext(r: Reader, m: Manifest, destination: Option<string>, trouble: Trouble, i: nat,
                 before: map<string, Bytes>, was: map<string, Bytes>, path: string)
    requires i < |m.files| && LandedAt(r, m, destination, trouble, i, before, was, path)
    ensures LandedAt(r, m, destination, trouble, i + 1, before,
                     AfterAttempt(was, AttemptOf(r, m, destination, trouble, i)), path)
  {
    AttemptExact(r, m, destination, trouble, i);
    var now, n := AfterAttempt(was, AttemptOf(r, m, destination, trouble, i)), i + 1;
    if Opens(m, destination, trouble, i) && PathOf(m, destination, i) == path {
      assert forall j: nat | LastOpened(m, destination, trouble, n, path, j) :: j == i;
    } else {
      assert path in now <==> path in was;
      assert forall j: nat | LastOpened(m, destination, trouble, n, path, j) ::
          LastOpened(m, destination, trouble, i, path, j);
      assert NeverOpened(m, destination, trouble, n, path) ==> NeverOpened(m, destination, trouble, i, path);
    }
  }

  lemma {:induction false} AttemptsReport(r: Reader, m: Manifest, destination: Option<string>, trouble: Trouble,
                                          attempts: seq<Attempt>, n: nat)
    returns (at: seq<nat>)
    requires n <= |m.files| == |attempts|
    requires forall i | 0 <= i < |m.files| :: attempts[i] == AttemptOf(r, m, destination, trouble, i)
    ensures ReportedAt(r, m, destination, trouble, n, at, Failed(attempts, n))
  {
    if n == 0 {
      at := [];
    } else {
      var i, fewer, more := n - 1, Failed(attempts, n - 1), Failed(attempts, n);
      assert more == fewer + FailureOf(AttemptOf(r, m, destination, trouble, i)) && i + 1 == n;
      var before := AttemptsReport(r, m, destination, trouble, attempts, i);
      at := ReportNext(r, m, destination, trouble, i, before, fewer);
    }
  }

  lemma {:induction false} AttemptsLand(r: Reader, m: Manifest, destination: Option<string>, trouble: Trouble,
                                        attempts: seq<Attempt>, n: nat, files: map<string, Bytes>, path: string)
    requires n <= |m.files| == |attempts|
    requires forall i | 0 <= i < |m.files| :: attempts[i] == AttemptOf(r, m, destination, trouble, i)
    ensures LandedAt(r, m, destination, trouble, n, files, Landed(attempts, n, files), path)
  {
    if n > 0 {
      var i := n - 1;
      assert Landed(attempts, n, files) ==
               AfterAttempt(Landed(attempts, i, files), AttemptOf(r, m, destination, trouble, i));
      AttemptsLand(r, m, destination, trouble, attempts, i, files, path);
      LandNext(r, m, destination, trouble, i, files, Landed(attempts, i, files), path);
    }
  }

  /** The attempts, one after the other, report every file that does not restore, and leave at every path what belongs
      there. */
  lemma AttemptsRestore(r: Reader, m: Manifest, destination: Option<string>, trouble: Trouble, attempts: seq<Attempt>,
                        files: map<string, Bytes>)
    requires |m.files| == |attempts|
    requires forall i | 0 <= i < |m.files| :: attempts[i] == AttemptOf(r, m, destination, trouble, i)
    ensures RestoredUpTo(r, m, destination, trouble, |m.files|, files, Landed(attempts, |m.files|, files),
                         Failed(attempts, |m.files|))
  {
    var at := AttemptsReport(r, m, destination, trouble, attempts, |m.files|);
    forall path
      ensures LandedAt(r, m, destination, trouble, |m.files|, files, Landed(attempts, |m.files|, files), path)
    {
      AttemptsLand(r, m, destination, trouble, attempts, |m.files|, files, path);
    }
  }

  /** Nothing is reported exactly when every file restores; a file that does not has its path in the report, with what
      went wrong. */
  lemma ReportTells(r: Reader, m: Manifest, destination: Option<string>, trouble: Trouble, at: seq<nat>,
                    failed: seq<FailedResult>)
    requires ReportedAt(r, m, destination, trouble, |m.files|, at, failed)
    ensures failed == [] <==> forall i: nat | i < |m.files| :: Succeeds(r, m, destination, trouble, i)
    ensures forall i: nat | i < |m.files| && !Succeeds(r, m, destination, trouble, i) ::
              exists entry :: entry in failed && Entry(r, m, destination, trouble, i, entry)
  {
    forall i: nat | i < |m.files| && !Succeeds(r, m, destination, trouble, i)
      ensures exists entry :: entry in failed && Entry(r, m, destination, trouble, i, entry)
    {
      assert i in at;
      var x :| 0 <= x < |at| && at[x] == i;
      assert failed[x] in failed && Entry(r, m, destination, trouble, i, failed[x]);
    }
    if failed != [] {
      assert at[0] in at;
    }
  }

  /** What is reported, and what is on the disk, is determined by the store, the manifest and what goes wrong. */
  lemma RestoredOnce(r: Reader, m: Manifest, destination: Option<string>, trouble: Trouble,
                     before: map<string, Bytes>, after: map<string, Bytes>, failed: seq<FailedResult>,
                     otherAfter: map<string, Bytes>, otherFailed: seq<FailedResult>)
    requires RestoredUpTo(r, m, destination, trouble, |m.files|, before, after, failed)
    requires RestoredUpTo(r, m, destination, trouble, |m.files|, before, otherAfter, otherFailed)
    ensures after == otherAfter && failed == otherFailed
  {
    var a :| ReportedAt(r, m, destination, trouble, |m.files|, a, failed);
    var b :| ReportedAt(r, m, destination, trouble, |m.files|, b, otherFailed);
    OneReport(r, m, destination, trouble, a, failed, b, otherFailed);
    forall path ensures SameThere(after, otherAfter, path) {
      assert LandedAt(r, m, destination, trouble, |m.files|, before, after, path);
      assert LandedAt(r, m, destination, trouble, |m.files|, before, otherAfter, path);
      LandedOnce(r, m, destination, trouble, before, after, otherAfter, path);
    }
    assert forall path | path in after :: SameThere(after, otherAfter, path);
    assert forall path | path in otherAfter :: SameThere(after, otherAfter, path);
  }

  predicate SameThere(a: map<string, Bytes>, b: map<string, Bytes>, path: string) {
    (path in a <==> path in b) && (path in a ==> a[path] == b[path])
  }

  lemma LandedOnce(r: Reader, m: Manifest, destination: Option<string>, trouble: Trouble, before: map<string, Bytes>,
                   a: map<string, Bytes>, b: map<string, Bytes>, path: string)
    requires LandedAt(r, m, destination, trouble, |m.files|, before, a, path)
    requires LandedAt(r, m, destination, trouble, |m.files|, before, b, path)
    ensures SameThere(a, b, path)
  {
    if !NeverOpened(m, destination, trouble, |m.files|, path) {
      var j := FindLastOpened(m, destination, trouble, |m.files|, path);
      AttemptExact(r, m, destination, trouble, j);
      if path in a { assert Succeeds(r, m, destination, trouble, j); }
      if path in b { assert Succeeds(r, m, destination, trouble, j); }
    }
  }

  lemma {:induction false} FindLastOpened(m: Manifest, destination: Option<string>, trouble: Trouble, n: nat,
                                          path: string)
    returns (j: nat)
    requires n <= |m.files| && !NeverOpened(m, destination, trouble, n, path)
    ensures LastOpened(m, destination, trouble, n, path, j)
  {
    if Opens(m, destination, trouble, n - 1) && PathOf(m, destination, n - 1) == path {
      j := n - 1;
    } else {
      j := FindLastOpened(m, destination, trouble, n - 1, path);
    }
  }

  /** Two increasing lists with the same members are one. */
  lemma {:induction false} SameIncreasing(a: seq<nat>, b: seq<nat>, n: nat)
    requires Increasing(a, n) && Increasing(b, n) && forall i: nat | i < n :: i in a <==> i in b
    ensures a == b
    decreases n
  {
    if n > 0 {
      var i := n - 1;
      LastIncreasing(a, i);
      LastIncreasing(b, i);
      var x, y := if i in a then a[..|a| - 1] else a, if i in b then b[..|b| - 1] else b;
      assert forall k: nat | k < i :: k in x <==> k in a;
      assert forall k: nat | k < i :: k in y <==> k in b;
      SameIncreasing(x, y, i);
      if i in a { assert a == x + [i] && b == y + [i]; }
    }
  }

  /** The largest member an increasing list can have is its last, or not in it. */
  lemma LastIncreasing(at: seq<nat>, i: nat)
    requires Increasing(at, i + 1)
    ensures i in at ==> at != [] && at[|at| - 1] == i
    ensures var fewer := if i in at then at[..|at| - 1] else at;
            Increasing(fewer, i) && forall k: nat | k < i :: k in fewer <==> k in at
  {
    if i in at {
      var x :| 0 <= x < |at| && at[x] == i;
      assert at[x] <= at[|at| - 1] < i + 1;
      assert at == at[..|at| - 1] + [i];
    }
  }

  lemma OneReport(r: Reader, m: Manifest, destination: Option<string>, trouble: Trouble, a: seq<nat>,
                  failed: seq<FailedResult>, b: seq<nat>, otherFailed: seq<FailedResult>)
    requires ReportedAt(r, m, destination, trouble, |m.files|, a, failed)
    requires ReportedAt(r, m, destination, trouble, |m.files|, b, otherFailed)
    ensures failed == otherFailed
  {
    SameIncreasing(a, b, |m.files|);
    forall x | 0 <= x < |a| ensures failed[x] == otherFailed[x] {
      assert Entry(r, m, destination, trouble, a[x], failed[x]);
      assert Entry(r, m, destination, trouble, b[x], otherFailed[x]);
      AttemptExact(r, m, destination, trouble, a[x]);
    }
  }

  /** A part that is not there, or does not open, or does not decode, keeps its file from being restored. */
  lemma LostPartFails(r: Reader, m: Manifest, destination: Option<string>, trouble: Trouble, i: nat, k: nat)
    requires i < |m.files| && k < |Parts(m.files[i])|
    requires var id := ObjectId(r.space, Parts(m.files[i])[k].hash);
             id !in r.store || Opened(r.p, r.key, r.store[id]).Err?
             || r.p.decode(m.comp.compType, Opened(r.p, r.key, r.store[id]).value) == None
    ensures !Succeeds(r, m, destination, trouble, i)
  {
    var parts := Parts(m.files[i]);
    forall pieces ensures !PiecesGiven(r.p, r.store, r.space, r.key, m.comp.compType, parts, pieces) {
      if |pieces| == |parts| {
        assert !PartGives(r.p, r.store, r.space, r.key, m.comp.compType, parts[k].hash, pieces[k]);
      }
    }
  }

  // The restore itself

  function HashesOf(files: seq<FileRecord>): set<string> { set f, c | f in files && c in Parts(f) :: c.hash }

  /** What the bucket shows of the parts of a manifest. */
  ghost function Visible(objects: ObjectRepository, m: Manifest, key: Bytes, generation: nat): Reader
    reads objects
  {
    var space := SpaceFor(key, generation);
    Reader(objects.p, objects.SeenBy(space, HashesOf(m.files)), space, key)
  }

  lemma ReadingShows(objects: ObjectRepository, m: Manifest, key: Bytes, generation: nat, i: nat)
    requires i < |m.files|
    ensures objects.ShowsParts(Visible(objects, m, key, generation).store, SpaceFor(key, generation), Parts(m.files[i]))
  {
    var space := SpaceFor(key, generation);
    forall k | 0 <= k < |Parts(m.files[i])|
      ensures objects.Shows(objects.SeenBy(space, HashesOf(m.files)), ObjectId(space, Parts(m.files[i])[k].hash))
    {
      assert m.files[i] in m.files && Parts(m.files[i])[k] in Parts(m.files[i]);
      objects.SeenByShows(space, HashesOf(m.files), Parts(m.files[i])[k].hash);
    }
  }

  method Located(m: Manifest, i: nat, destination: Option<string>) returns (f: File)
    requires i < |m.files|
    ensures fresh(f) && f.Record() == Target(m, destination, i)
  {
    f := new File("", 0);
    f.Hydrate(m.files[i].path, m.files[i].hash, m.files[i].size, m.files[i].chunks);
    if destination.Some? {
      f.ChangeSourcePath(m.source, destination.value);
    }
  }

  /** `seen` is what the bucket shows of the file's parts. */
  method RestoreOne(objects: ObjectRepository, m: Manifest, i: nat, destination: Option<string>, key: Bytes,
                    generation: nat, disk: Disk, trouble: Trouble, ghost seen: Reader)
    returns (path: string, fault: Option<Fault>)
    requires i < |m.files| && seen == Reader(objects.p, seen.store, SpaceFor(key, generation), key)
    requires objects.ShowsParts(seen.store, seen.space, Parts(m.files[i]))
    modifies disk
    ensures var a := AttemptOf(seen, m, destination, trouble, i);
            && path == a.target.path && fault == (if a.outcome.Ok? then None else Some(a.outcome.fault))
            && disk.files == AfterAttempt(old(disk.files), a)
  {
    var f := Located(m, i, destination);
    assert Parts(Target(m, destination, i)) == Parts(m.files[i]);
    path := f.path;
    var done := trouble.doneFrom.Some? && trouble.doneFrom.value <= i;
    fault := objects.RestoreObject(Some(m.comp), f, key, generation, disk, done, path !in trouble.unopened,
                                   trouble.env(i), seen.store);
  }

  ghost predicate UpTo(attempts: seq<Attempt>, n: nat, start: map<string, Bytes>, files: map<string, Bytes>,
                       failed: seq<FailedResult>) {
    n <= |attempts| && failed == Failed(attempts, n) && files == Landed(attempts, n, start)
  }

  lemma OneFurther(attempts: seq<Attempt>, i: nat, start: map<string, Bytes>, was: map<string, Bytes>,
                   before: seq<FailedResult>)
    requires i < |attempts| && UpTo(attempts, i, start, was, before)
    ensures UpTo(attempts, i + 1, start, AfterAttempt(was, attempts[i]), before + FailureOf(attempts[i]))
  {
  }

  method RestoreNext(objects: ObjectRepository, m: Manifest, i: nat, destination: Option<string>, key: Bytes,
                     generation: nat, disk: Disk, trouble: Trouble, result: RestoreResult, ghost seen: Reader,
                     ghost attempts: seq<Attempt>, ghost start: map<string, Bytes>)
    requires i < |m.files| && result.totalFiles == i
             && seen == Reader(objects.p, seen.store, SpaceFor(key, generation), key)
    requires objects.ShowsParts(seen.store, seen.space, Parts(m.files[i]))
    requires i < |attempts| && attempts[i] == AttemptOf(seen, m, destination, trouble, i)
    requires UpTo(attempts, i, start, disk.files, result.failed)
    modifies disk, result
    ensures result.totalFiles == i + 1
    ensures UpTo(attempts, i + 1, start, disk.files, result.failed)
  {
    OneFurther(attempts, i, start, disk.files, result.failed);
    var path, fault := RestoreOne(objects, m, i, destination, key, generation, disk, trouble, seen);
    if fault.Some? {
      result.AddFailed(FailedResult(path, fault.value));
    } else {
      result.AddSuccess();
    }
  }

  method RestoreAll(objects: ObjectRepository, m: Manifest, destination: Option<string>, key: Bytes, generation: nat,
                    disk: Disk, trouble: Trouble, result: RestoreResult)
    requires result.totalFiles == 0 && result.failed == []
    modifies disk, result
    ensures result.totalFiles == |m.files|
    ensures RestoredAll(objects, m, destination, EncryptionData(key, generation), trouble, old(disk.files), disk.files,
                     result.failed)
  {
    ghost var before := disk.files;
    ghost var seen := Visible(objects, m, key, generation);
    ghost var attempts := Attempts(seen, m, destination, trouble);
    forall i | 0 <= i < |m.files|
      ensures attempts[i] == AttemptOf(seen, m, destination, trouble, i)
      ensures objects.ShowsParts(seen.store, seen.space, Parts(m.files[i]))
    {
      AttemptAt(seen, m, destination, trouble, |m.files|, i);
      ReadingShows(objects, m, key, generation, i);
    }
    RestoreInTurn(objects, m, destination, key, generation, disk, trouble, result, seen, attempts);
    AttemptsAreRestored(objects, m, destination, EncryptionData(key, generation), trouble, seen, attempts, before,
                        disk.files, result.failed);
  }

  function ReaderOf(p: Primitives, store: Store, e: EncryptionData): Reader {
    Reader(p, store, SpaceFor(e.symmetricKey, e.generation), e.symmetricKey)
  }

  /** The store has, of the parts of a manifest, what reading the bucket gets. */
  ghost predicate ShowsAll(objects: ObjectRepository, m: Manifest, e: EncryptionData, store: Store)
    reads objects
  {
    forall i: nat | i < |m.files| ::
      objects.ShowsParts(store, SpaceFor(e.symmetricKey, e.generation), Parts(m.files[i]))
  }

  /** What a restore of all files of a manifest comes to, in terms of any store that shows what there is of them. */
  ghost predicate RestoredAll(objects: ObjectRepository, m: Manifest, destination: Option<string>, e: EncryptionData,
                              trouble: Trouble, before: map<string, Bytes>, after: map<string, Bytes>,
                              failed: seq<FailedResult>)
    reads objects
  {
    forall store :: ShowsAll(objects, m, e, store) ==>
      RestoredUpTo(ReaderOf(objects.p, store, e), m, destination, trouble, |m.files|, before, after, failed)
  }

  /** The loop over the files. */
  method RestoreInTurn(objects: ObjectRepository, m: Manifest, destination: Option<string>, key: Bytes,
                       generation: nat, disk: Disk, trouble: Trouble, result: RestoreResult, ghost seen: Reader,
                       ghost attempts: seq<Attempt>)
    requires result.totalFiles == 0 && result.failed == []
    requires seen == Reader(objects.p, seen.store, SpaceFor(key, generation), key) && |attempts| == |m.files|
    requires forall i | 0 <= i < |m.files| :: attempts[i] == AttemptOf(seen, m, destination, trouble, i)
    requires forall i | 0 <= i < |m.files| :: objects.ShowsParts(seen.store, seen.space, Parts(m.files[i]))
    modifies disk, result
    ensures result.totalFiles == |m.files| && UpTo(attempts, |m.files|, old(disk.files), disk.files, result.failed)
  {
    ghost var start := disk.files;
    for i := 0 to |m.files|
      invariant result.totalFiles == i
      invariant UpTo(attempts, i, start, disk.files, result.failed)
    {
      assert attempts[i] == AttemptOf(seen, m, destination, trouble, i);
      assert objects.ShowsParts(seen.store, seen.space, Parts(m.files[i]));
      RestoreNext(objects, m, i, destination, key, generation, disk, trouble, result, seen, attempts, start);
    }
  }

  /** Only getting the key or the manifest stops a restore; a file that fails is reported and the rest go on. */
  method Restore(folder: FolderRepository, manifests: ManifestRepository, objects: ObjectRepository, disk: Disk,
                 snapshotID: string, destination: Option<string>, privateKey: Option<Option<PrivateKey>>,
                 cancelled: bool, answered: bool, trouble: Trouble)
    returns (r: Result<RestoreResult>)
    modifies disk
    ensures r.Err? ==> disk.files == old(disk.files)
    ensures r.Ok? <==> && !cancelled && answered && KeyOf(objects.p, folder.stored, privateKey).Some?
                       && ManifestAt(manifests.snapshots, snapshotID).Some?
    ensures r.Ok? ==>
              && fresh(r.value) && r.value.snapshotID == snapshotID
              && var m, e := ManifestAt(manifests.snapshots, snapshotID).value,
                   KeyOf(objects.p, folder.stored, privateKey).value;
                 r.value.totalFiles == |m.files|
                 && RestoredAll(objects, m, destination, e, trouble, old(disk.files), disk.files, r.value.failed)
  {
    var data := KeyData(objects.p, folder, privateKey, cancelled, answered);
    if data.Err? {
      return Err(data.fault);
    }
    var man := manifests.Get(snapshotID, cancelled, answered);
    if man.Err? {
      return Err(man.fault);
    }
    var result := new RestoreResult(snapshotID);
    ghost var e := data.value;
    assert disk.files == old(disk.files) && EncryptionData(e.symmetricKey, e.generation) == e;
    assert KeyOf(objects.p, folder.stored, privateKey) == Some(e);
    assert ManifestAt(manifests.snapshots, snapshotID) == Some(man.value);
    RestoreAll(objects, man.value, destination, data.value.symmetricKey, data.value.generation, disk, trouble, result);
    r := Ok(result);
  }

  method KeyData(p: Primitives, folder: FolderRepository, privateKey: Option<Option<PrivateKey>>, cancelled: bool,
                 answered: bool)
    returns (r: Result<EncryptionData>)
    ensures r.Ok? ==> KeyOf(p, folder.stored, privateKey) == Some(r.value)
    ensures !cancelled && answered ==> (r.Ok? <==> KeyOf(p, folder.stored, privateKey).Some?)
  {
    var data := Handle(p, folder, privateKey, cancelled, answered);
    if data.Err? {
      return Err(data.fault);
    }
    return Ok(if data.value.Some? then data.value.value else EncryptionData([], 0));
  }

  function ManifestAt(snapshots: map<string, StoredManifest>, snapshotID: string): Option<Manifest> {
    if snapshotID in snapshots then ManifestOf(Unmarshal(snapshots[snapshotID])) else None
  }

  // Where the files land

  /** Every file lies below the source folder, whose path is not met again further down; no two have the same path. */
  ghost predicate Movable(m: Manifest) {
    && m.source != ""
    && (forall i | 0 <= i < |m.files| ::
        m.source <= m.files[i].path && !Occurs(m.files[i].path[|m.source|..], m.source))
    && (forall i, j | 0 <= i < j < |m.files| :: m.files[i].path != m.files[j].path)
  }

  function Below(m: Manifest, i: nat): string
    requires i < |m.files|
  {
    if m.source <= m.files[i].path then m.files[i].path[|m.source|..] else m.files[i].path
  }

  /** Below a movable source, the files of another folder are the same files, and distinct ones stay distinct. */
  lemma MovesTogether(m: Manifest, destination: string, i: nat, j: nat)
    requires Movable(m) && i < j < |m.files|
    ensures Target(m, Some(destination), i).path == destination + Below(m, i)
    ensures Target(m, Some(destination), j).path == destination + Below(m, j)
    ensures Target(m, Some(destination), i).path != Target(m, Some(destination), j).path
  {
    MovesOne(m, destination, i);
    MovesOne(m, destination, j);
    var a, b := destination + Below(m, i), destination + Below(m, j);
    assert a[|destination|..] == Below(m, i) && b[|destination|..] == Below(m, j);
    assert m.files[i].path == m.source + Below(m, i) && m.files[j].path == m.source + Below(m, j);
  }

  lemma MovesOne(m: Manifest, destination: string, i: nat)
    requires Movable(m) && i < |m.files|
    ensures Target(m, Some(destination), i).path == destination + Below(m, i)
  {
    assert m.files[i].path == m.source + Below(m, i);
    MovesExactly(m.source, Below(m, i), destination);
  }

  /** Otherwise two files can end up in one place: every occurrence of the source is replaced. */
  lemma FilesCanCollide(m: Manifest)
    requires m.source == "/a" && |m.files| == 2 && m.files[0].path == "/a/a/x" && m.files[1].path == "/a/b/x"
    ensures Target(m, Some("/b"), 0).path == Target(m, Some("/b"), 1).path == "/b/b/x"
  {
    CollidingPaths();
  }

  lemma CollidingPaths()
    ensures ReplaceAll("/a/a/x", "/a", "/b") == ReplaceAll("/a/b/x", "/a", "/b") == "/b/b/x"
  {
    assert "/a/a/x"[2..] == "/a/x" && "/a/x"[2..] == "/x" && "/a/b/x"[2..] == "/b/x";
    NothingToReplaceIn("/x");
    assert "/b/x"[1..] == "b/x" && "b/x"[1..] == "/x";
    assert ReplaceAll("b/x", "/a", "/b") == "b/x";
    assert ReplaceAll("/b/x", "/a", "/b") == "/b/x";
    assert ReplaceAll("/a/x", "/a", "/b") == "/b/x";
  }

  lemma NothingToReplaceIn(text: string)
    requires text == "/x"
    ensures ReplaceAll(text, "/a", "/b") == text
  {
    assert text[1..] == "x";
  }

  /** The last of the first `n` attempts that go to a path. */
  predicate LastAmong(attempts: seq<Attempt>, n: nat, path: string, j: nat) {
    j < n <= |attempts| && attempts[j].target.path == path && forall k | j < k < n :: attempts[k].target.path != path
  }

  ghost predicate AllOk(attempts: seq<Attempt>, n: nat) {
    n <= |attempts| && forall i | 0 <= i < n :: attempts[i].reached && attempts[i].outcome.Ok?
  }

  predicate HasBytes(files: map<string, Bytes>, path: string, content: Bytes) {
    path in files && files[path] == content
  }

  /** When every file restores, nothing is reported, and every target holds what the last file that goes there
      restored to. */
  lemma {:induction false} LastLands(attempts: seq<Attempt>, n: nat, files: map<string, Bytes>, i: nat)
    returns (j: nat)
    requires AllOk(attempts, n) && i < n
    ensures LastAmong(attempts, n, attempts[i].target.path, j)
    ensures HasBytes(Landed(attempts, n, files), attempts[i].target.path, attempts[j].outcome.value)
  {
    if attempts[n - 1].target.path == attempts[i].target.path {
      LandsHere(attempts, n, files);
      j := n - 1;
    } else {
      j := LastLands(attempts, n - 1, files, i);
      LandsElsewhere(attempts, n, files, attempts[i].target.path, attempts[j].outcome.value);
    }
  }

  lemma LandsHere(attempts: seq<Attempt>, n: nat, files: map<string, Bytes>)
    requires AllOk(attempts, n) && n > 0
    ensures attempts[n - 1].outcome.Ok?
    ensures HasBytes(Landed(attempts, n, files), attempts[n - 1].target.path, attempts[n - 1].outcome.value)
  {
  }

  lemma LandsElsewhere(attempts: seq<Attempt>, n: nat, files: map<string, Bytes>, path: string, content: Bytes)
    requires 0 < n <= |attempts| && attempts[n - 1].target.path != path
    requires HasBytes(Landed(attempts, n - 1, files), path, content)
    ensures HasBytes(Landed(attempts, n, files), path, content)
  {
  }

  lemma {:induction false} NothingFails(attempts: seq<Attempt>, n: nat)
    requires AllOk(attempts, n)
    ensures Failed(attempts, n) == []
  {
    if n > 0 { NothingFails(attempts, n - 1); }
  }

  ghost predicate IsTarget(attempts: seq<Attempt>, n: nat, path: string)
    requires n <= |attempts|
  {
    exists i :: 0 <= i < n && attempts[i].target.path == path
  }

  ghost predicate OnlyTargets(attempts: seq<Attempt>, n: nat, files: map<string, Bytes>, after: map<string, Bytes>)
    requires n <= |attempts|
  {
    && (forall path | path in after && !IsTarget(attempts, n, path) :: path in files && after[path] == files[path])
    && (forall path | path in files && !IsTarget(attempts, n, path) :: path in after)
  }

  /** Whatever comes of the attempts, nothing but their targets changes. */
  lemma {:induction false} OthersStay(attempts: seq<Attempt>, n: nat, files: map<string, Bytes>)
    requires n <= |attempts|
    ensures OnlyTargets(attempts, n, files, Landed(attempts, n, files))
  {
    if n > 0 {
      OthersStay(attempts, n - 1, files);
      var before, after := Landed(attempts, n - 1, files), Landed(attempts, n, files);
      forall path | !IsTarget(attempts, n, path)
        ensures !IsTarget(attempts, n - 1, path) && (path in after <==> path in before)
                && (path in after ==> after[path] == before[path])
      {
        assert path != attempts[n - 1].target.path;
      }
    }
  }

  /** The last file of a manifest that goes where the i-th goes. */
  predicate LastTo(m: Manifest, destination: Option<string>, i: nat, j: nat) {
    && i < |m.files| && j < |m.files| && Target(m, destination, j).path == Target(m, destination, i).path
    && forall k | j < k < |m.files| :: Target(m, destination, k).path != Target(m, destination, i).path
  }

  lemma MovableLast(m: Manifest, destination: string, i: nat, j: nat)
    requires Movable(m) && LastTo(m, Some(destination), i, j)
    ensures j == i && Target(m, Some(destination), i).path == destination + Below(m, i)
  {
    MovesOne(m, destination, i);
    if i < j { MovesTogether(m, destination, i, j); }
    if j < i { MovesTogether(m, destination, j, i); }
  }

  /** A snapshot made by a create, restored into any folder from a sound store that has its parts: no file fails, only
      targets change, and each target holds the captured bytes of the last file that goes there; below a movable source
      every file is at its own place below the folder, with its own bytes. */
  lemma SnapshotMoves(r: Reader, m: Manifest, sources: seq<SourceFile>, format: int, destination: string,
                      files: map<string, Bytes>, i: nat)
    requires Lawful(r.p) && KnownFormat(format) && |sources| == |m.files| && i < |sources|
    requires forall k | 0 <= k < |sources| :: m.files[k] == Calculated(r.p, format, m.comp, sources[k])
    requires Sound(r.p, r.store, r.space, r.key) && forall k | 0 <= k < |sources| ::
               HasParts(r.store, r.space, Parts(m.files[k]))
    ensures var attempts := Attempts(r, m, Some(destination), NoTrouble());
            var after := Landed(attempts, |m.files|, files);
            && Failed(attempts, |m.files|) == [] && OnlyTargets(attempts, |m.files|, files, after)
            && (exists j: nat ::
                LastTo(m, Some(destination), i, j)
                && HasBytes(after, Target(m, Some(destination), i).path, sources[j].content))
            && (Movable(m) ==> HasBytes(after, destination + Below(m, i), sources[i].content))
  {
    var attempts := Attempts(r, m, Some(destination), NoTrouble());
    forall k | 0 <= k < |m.files|
      ensures attempts[k] == Attempt(Target(m, Some(destination), k), true, Ok(sources[k].content))
    {
      AttemptAt(r, m, Some(destination), NoTrouble(), |m.files|, k);
      CapturedRestores(r, m, sources, format, destination, k);
    }
    NothingFails(attempts, |m.files|);
    OthersStay(attempts, |m.files|, files);
    var j := LastLands(attempts, |m.files|, files, i);
    LastOfTargets(r, m, destination, attempts, i, j);
    if Movable(m) { MovableLast(m, destination, i, j); }
  }

  lemma LastOfTargets(r: Reader, m: Manifest, destination: string, attempts: seq<Attempt>, i: nat, j: nat)
    requires |attempts| == |m.files| && i < |m.files|
    requires forall k | 0 <= k < |m.files| :: attempts[k].target == Target(m, Some(destination), k)
    requires LastAmong(attempts, |m.files|, Target(m, Some(destination), i).path, j)
    ensures LastTo(m, Some(destination), i, j)
  {
    forall k | j < k < |m.files| ensures Target(m, Some(destination), k).path != Target(m, Some(destination), i).path {
      assert attempts[k].target == Target(m, Some(destination), k);
    }
  }

  lemma CapturedRestores(r: Reader, m: Manifest, sources: seq<SourceFile>, format: int, destination: string, k: nat)
    requires Lawful(r.p) && KnownFormat(format) && |sources| == |m.files| && k < |sources|
    requires m.files[k] == Calculated(r.p, format, m.comp, sources[k])
    requires Sound(r.p, r.store, r.space, r.key) && HasParts(r.store, r.space, Parts(m.files[k]))
    ensures AttemptOf(r, m, Some(destination), NoTrouble(), k) ==
              Attempt(Target(m, Some(destination), k), true, Ok(sources[k].content))
  {
    var target := Target(m, Some(destination), k);
    assert Parts(target) == Parts(m.files[k]);
    SoundFileRestores(r.p, r.store, r.space, r.key, format, m.comp, sources[k]);
    CalculatedHashes(r.p, format, m.comp, sources[k]);
    FileUnderAgrees(r.p, r.store, r.space, r.key, m.comp.compType, target, NoTrouble().env(k));
  }

  // What the bucket shows is what is stored

  lemma {:induction false} SamePartsUnder(r: Reader, other: Store, compType: CompressionType, parts: seq<Chunk>,
                                          env: nat -> Fetch, from: nat)
    requires from <= |parts| && forall k | 0 <= k < |parts| :: SameAt(r.store, other, ObjectId(r.space, parts[k].hash))
    ensures PartsUnder(r.p, r.store, r.space, r.key, compType, parts, env, from) ==
            PartsUnder(r.p, other, r.space, r.key, compType, parts, env, from)
    decreases |parts| - from
  {
    if from < |parts| {
      assert SameAt(r.store, other, ObjectId(r.space, parts[from].hash));
      SamePartsUnder(r, other, compType, parts, env, from + 1);
    }
  }

  predicate SameAt(a: Store, b: Store, id: ObjectId) {
    |id.hash| >= 3 ==> (id in a <==> id in b) && (id in a ==> a[id] == b[id])
  }

  /** For a manifest as creates make them, restoring from the bucket is restoring from the store. */
  lemma RestoringReadsTheStore(objects: ObjectRepository, m: Manifest, destination: Option<string>, trouble: Trouble,
                               key: Bytes, generation: nat, i: nat)
    requires objects.Valid() && i < |m.files|
    requires forall k | 0 <= k < |Parts(m.files[i])| :: |Parts(m.files[i])[k].hash| >= 3 ==>
               OrdinaryHash(Parts(m.files[i])[k].hash)
    ensures AttemptOf(Visible(objects, m, key, generation), m, destination, trouble, i) ==
            AttemptOf(Reader(objects.p, objects.view, SpaceFor(key, generation), key), m, destination, trouble, i)
  {
    ReadingShows(objects, m, key, generation, i);
    ShownIsStored(objects, Visible(objects, m, key, generation).store, SpaceFor(key, generation), Parts(m.files[i]));
    SameAttempt(Visible(objects, m, key, generation), objects.view, m, destination, trouble, i);
  }

  /** What the repository's store is to the bucket: for a manifest as creates make them, it shows what there is. */
  lemma StoreShowsAll(objects: ObjectRepository, m: Manifest, e: EncryptionData)
    requires objects.Valid() && OrdinaryManifest(m)
    ensures ShowsAll(objects, m, e, objects.view)
  {
    var space := SpaceFor(e.symmetricKey, e.generation);
    forall i: nat | i < |m.files| ensures objects.ShowsParts(objects.view, space, Parts(m.files[i])) {
      assert OrdinaryFile(m.files[i]);
      forall k | 0 <= k < |Parts(m.files[i])|
        ensures objects.Shows(objects.view, ObjectId(space, Parts(m.files[i])[k].hash))
      {
        if |Parts(m.files[i])[k].hash| >= 3 { objects.ViewShows(ObjectId(space, Parts(m.files[i])[k].hash)); }
      }
    }
  }

  lemma ShownAlike(objects: ObjectRepository, a: Store, b: Store, space: Space, parts: seq<Chunk>)
    requires objects.ShowsParts(a, space, parts) && objects.ShowsParts(b, space, parts)
    ensures forall k | 0 <= k < |parts| :: SameAt(a, b, ObjectId(space, parts[k].hash))
  {
    forall k | 0 <= k < |parts| ensures SameAt(a, b, ObjectId(space, parts[k].hash)) {
      assert objects.Shows(a, ObjectId(space, parts[k].hash)) && objects.Shows(b, ObjectId(space, parts[k].hash));
    }
  }

  lemma AttemptsAreRestored(objects: ObjectRepository, m: Manifest, destination: Option<string>, e: EncryptionData,
                            trouble: Trouble, seen: Reader, attempts: seq<Attempt>, before: map<string, Bytes>,
                            after: map<string, Bytes>, failed: seq<FailedResult>)
    requires ShowsAll(objects, m, e, seen.store) && seen == ReaderOf(objects.p, seen.store, e)
    requires |attempts| == |m.files| && UpTo(attempts, |m.files|, before, after, failed)
    requires forall i | 0 <= i < |m.files| :: attempts[i] == AttemptOf(seen, m, destination, trouble, i)
    ensures RestoredAll(objects, m, destination, e, trouble, before, after, failed)
  {
    forall store | ShowsAll(objects, m, e, store)
      ensures RestoredUpTo(ReaderOf(objects.p, store, e), m, destination, trouble, |m.files|, before, after, failed)
    {
      forall i | 0 <= i < |m.files|
        ensures attempts[i] == AttemptOf(ReaderOf(objects.p, store, e), m, destination, trouble, i)
      {
        ShownAlike(objects, seen.store, store, seen.space, Parts(m.files[i]));
        SameAttempt(seen, store, m, destination, trouble, i);
      }
      AttemptsRestore(ReaderOf(objects.p, store, e), m, destination, trouble, attempts, before);
    }
  }

  lemma SameAttempt(r: Reader, other: Store, m: Manifest, destination: Option<string>, trouble: Trouble, i: nat)
    requires i < |m.files|
    requires forall k | 0 <= k < |Parts(m.files[i])| ::
               SameAt(r.store, other, ObjectId(r.space, Parts(m.files[i])[k].hash))
    ensures AttemptOf(r, m, destination, trouble, i) == AttemptOf(r.(store := other), m, destination, trouble, i)
  {
    assert Parts(Target(m, destination, i)) == Parts(m.files[i]);
    SamePartsUnder(r, other, m.comp.compType, Parts(m.files[i]), trouble.env(i), 0);
  }

  lemma ShownIsStored(objects: ObjectRepository, seen: Store, space: Space, parts: seq<Chunk>)
    requires objects.Valid() && objects.ShowsParts(seen, space, parts)
    requires forall k | 0 <= k < |parts| :: |parts[k].hash| >= 3 ==> OrdinaryHash(parts[k].hash)
    ensures forall k | 0 <= k < |parts| :: SameAt(seen, objects.view, ObjectId(space, parts[k].hash))
  {
    forall k | 0 <= k < |parts| ensures SameAt(seen, objects.view, ObjectId(space, parts[k].hash)) {
      assert objects.Shows(seen, ObjectId(space, parts[k].hash));
      if |parts[k].hash| >= 3 { objects.ViewShows(ObjectId(space, parts[k].hash)); }
    }
  }
}
