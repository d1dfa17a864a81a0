/**
  Verifying a snapshot: a feeder hands files to workers, each file is checked on its own, and results are collected in
  whatever order they come. A run is a sequence of actions; what it reports is compared with checking one by one.
 */
module VerifyPool {
  import opened Outcomes
  import opened Primitives
  import opened Sums
  import opened Files
  import opened ObjectKeys
  import opened Objects
  import opened S3Objects

  // Checking one file against the repository (verifyObject, verifyFile)

  /** How reading an object goes: the service answers and all of it comes, it does not answer, or the stream breaks
      off - because the context is done, for instance. */
  datatype Look = Whole | Unanswered | CutShort

  function ObjectUnder(p: Primitives, store: Store, space: Space, key: Bytes, hash: string,
                       look: Look): Result<Option<Reason>> {
    var id := ObjectId(space, hash);
    if |hash| < 3 || look == Whole then VerifyObject(p, store, space, key, hash)
    else if look == CutShort && (id !in store || Opened(p, key, store[id]).Err?)
        then VerifyObject(p, store, space, key, hash)
    else Err(Broken)
  }

  function ChunksUnder(p: Primitives, store: Store, space: Space, key: Bytes, chunks: seq<Chunk>, looks: nat -> Look,
                       index: nat): Result<Option<Reason>>
    requires index <= |chunks|
    decreases |chunks| - index
  {
    if index == |chunks| then Ok(None) else
    var checked := ObjectUnder(p, store, space, key, chunks[index].hash, looks(index));
    if checked.Err? then checked
    else if checked.value.Some? then Ok(Some(InChunk(index + 1, |chunks|, checked.value.value)))
    else ChunksUnder(p, store, space, key, chunks, looks, index + 1)
  }

  function CheckUnder(p: Primitives, store: Store, space: Space, key: Bytes, record: FileRecord,
                      looks: nat -> Look): Result<Option<Reason>> {
    if record.chunks == [] then ObjectUnder(p, store, space, key, record.hash, looks(0))
    else ChunksUnder(p, store, space, key, record.chunks, looks, 0)
  }

  ghost predicate AllWhole(looks: nat -> Look) { forall k :: looks(k) == Whole }

  lemma {:induction false} ChunksUnderAgree(p: Primitives, store: Store, space: Space, key: Bytes, chunks: seq<Chunk>,
                                            looks: nat -> Look, index: nat)
    requires index <= |chunks|
    ensures var checked := ChunksUnder(p, store, space, key, chunks, looks, index);
            checked.Ok? || AllWhole(looks) ==> checked == VerifyChunks(p, store, space, key, chunks, index)
    decreases |chunks| - index
  {
    if index < |chunks| { ChunksUnderAgree(p, store, space, key, chunks, looks, index + 1); }
  }

  /** Whatever reading does, a check that comes to a verdict comes to the one the store calls for. */
  lemma CheckUnderAgrees(p: Primitives, store: Store, space: Space, key: Bytes, record: FileRecord, looks: nat -> Look)
    ensures var checked := CheckUnder(p, store, space, key, record, looks);
            checked.Ok? || AllWhole(looks) ==> checked == VerifyFile(p, store, space, key, record)
  {
    if record.chunks != [] { ChunksUnderAgree(p, store, space, key, record.chunks, looks, 0); }
  }

  /** An object is what its hash names, or not what it should be, or there is no verdict: because it cannot be read, or
      because reading it went wrong. A stream that breaks off still tells that there is no object. */
  ghost predicate VerdictUnder(p: Primitives, store: Store, space: Space, key: Bytes, hash: string, look: Look,
                               verdict: Result<Option<Reason>>) {
    && (verdict == Ok(None) <==> look == Whole && |hash| >= 3 && Holds(p, store, space, key, hash))
    && (forall reason :: verdict == Ok(Some(reason)) <==>
          PartFault(p, store, space, key, hash, reason)
          && (look == Whole || reason == EmptyHash || (look == CutShort && reason.Missing?)))
    && (verdict.Err? <==>
          || PartUnreadable(p, store, space, key, hash)
          || (|hash| >= 3 && (look == Unanswered || (look == CutShort && ObjectId(space, hash) in store))))
  }

  lemma ObjectUnderExact(p: Primitives, store: Store, space: Space, key: Bytes, hash: string, look: Look)
    ensures VerdictUnder(p, store, space, key, hash, look, ObjectUnder(p, store, space, key, hash, look))
  {
    VerifyObjectExact(p, store, space, key, hash);
  }

  /** `seen` is what the bucket shows of the object. */
  method CheckObject(repository: ObjectRepository, hash: string, key: Bytes, generation: nat, look: Look,
                     ghost seen: Store)
    returns (r: Result<Option<Reason>>)
    requires repository.Shows(seen, ObjectId(SpaceFor(key, generation), hash))
    ensures r == ObjectUnder(repository.p, seen, SpaceFor(key, generation), key, hash, look)
    ensures VerdictUnder(repository.p, seen, SpaceFor(key, generation), key, hash, look, r)
  {
    ObjectUnderExact(repository.p, seen, SpaceFor(key, generation), key, hash, look);
    if hash == "" {
      return Ok(Some(EmptyHash));
    }
    var reader := repository.ReadObject(hash, key, generation, look != Unanswered);
    if reader.Err? {
      if reader.fault.NotFound? {
        return Ok(Some(Missing(reader.fault.hash)));
      }
      return Err(reader.fault);
    }
    if look == CutShort {
      return Err(Broken);
    }
    var calculated := repository.p.sha(reader.value);
    if calculated != hash {
      return Ok(Some(Mismatch(hash, calculated)));
    }
    return Ok(None);
  }

  /** A chunked file stops at its first chunk that does not check out, or cannot be read. */
  method CheckFile(repository: ObjectRepository, record: FileRecord, key: Bytes, generation: nat, looks: nat -> Look,
                   ghost seen: Store)
    returns (r: Result<Option<Reason>>)
    requires repository.ShowsParts(seen, SpaceFor(key, generation), Parts(record))
    ensures r == CheckUnder(repository.p, seen, SpaceFor(key, generation), key, record, looks)
  {
    ghost var space := SpaceFor(key, generation);
    if |record.chunks| == 0 {
      assert Parts(record)[0].hash == record.hash;
      r := CheckObject(repository, record.hash, key, generation, looks(0), seen);
      return;
    }
    for index := 0 to |record.chunks|
      invariant CheckUnder(repository.p, seen, space, key, record, looks) ==
                ChunksUnder(repository.p, seen, space, key, record.chunks, looks, index)
    {
      assert Parts(record)[index] == record.chunks[index];
      var checked := CheckObject(repository, record.chunks[index].hash, key, generation, looks(index), seen);
      if checked.Err? {
        return checked;
      }
      if checked.value.Some? {
        return Ok(Some(InChunk(index + 1, |record.chunks|, checked.value.value)));
      }
    }
    return Ok(None);
  }

  // The pool

  datatype Failure = Failure(path: string, reason: Reason)

  datatype Outcome = Outcome(total: nat, failures: seq<Failure>)

  /** What a run is given: the manifest's files, and the store it reads, which nobody changes. */
  datatype Snapshot = Snapshot(files: seq<FileRecord>, store: Store, space: Space, key: Bytes)

  datatype Worker = Idle | Verifying(file: nat) | Exited

  /** `log` records the files reported, in order; nothing reads it. */
  datatype Run = Run(workers: seq<Worker>, next: nat, feeding: bool, total: nat, failures: seq<Failure>, failed: bool,
                     cancelled: bool, external: bool, ended: bool, log: seq<nat>)

  datatype Action =
    | Deliver(worker: nat)
    | StopFeeding
    | CloseFeed
    | Check(worker: nat)
    | Break(worker: nat)   // reading fails, or sees the context done
    | Leave(worker: nat)
    | Cancel               // the caller's context is cancelled
    | Finish

  function Start(v: Snapshot, workers: nat): Run {
    var most := if workers > |v.files| then |v.files| else workers;
    Run(seq(if most < 1 then 1 else most, _ => Idle), 0, true, 0, [], false, false, false, false, [])
  }

  function CheckedFile(p: Primitives, v: Snapshot, i: nat): Result<Option<Reason>>
    requires i < |v.files|
  {
    VerifyFile(p, v.store, v.space, v.key, v.files[i])
  }

  predicate AllExited(run: Run) {
    !run.feeding && forall w | 0 <= w < |run.workers| :: run.workers[w] == Exited
  }

  predicate Enabled(p: Primitives, v: Snapshot, run: Run, a: Action) {
    !run.ended &&
    match a
    case Deliver(w) => run.feeding && run.next < |v.files| && w < |run.workers| && run.workers[w] == Idle
    case StopFeeding => run.feeding && run.cancelled
    case CloseFeed => run.feeding && run.next == |v.files|
    case Check(w) => w < |run.workers| && run.workers[w].Verifying? && run.workers[w].file < |v.files|
    case Break(w) => w < |run.workers| && run.workers[w].Verifying? && run.workers[w].file < |v.files|
    case Leave(w) => w < |run.workers| && run.workers[w] == Idle && !run.feeding
    case Cancel => !run.external
    case Finish => AllExited(run)
  }

  function Apply(p: Primitives, v: Snapshot, run: Run, a: Action): Run
    requires Enabled(p, v, run, a)
  {
    match a
    case Deliver(w) => run.(workers := run.workers[w := Verifying(run.next)], next := run.next + 1)
    case StopFeeding => run.(feeding := false)
    case CloseFeed => run.(feeding := false)
    case Check(w) => Report(p, v, run.(workers := run.workers[w := Idle]), run.workers[w].file)
    case Break(w) => run.(workers := run.workers[w := Idle], failed := true, cancelled := true)
    case Leave(w) => run.(workers := run.workers[w := Exited])
    case Cancel => run.(cancelled := true, external := true)
    case Finish => run.(ended := true)
  }

  /** An error cancels the rest; a reason is a failed file; anything else is a good one. */
  function Report(p: Primitives, v: Snapshot, run: Run, i: nat): Run
    requires i < |v.files|
  {
    var checked := CheckedFile(p, v, i);
    if checked.Err? then run.(failed := true, cancelled := true)
    else if checked.value.Some? then
      run.(failures := run.failures + [Failure(v.files[i].path, checked.value.value)], total := run.total + 1,
           log := run.log + [i])
    else run.(total := run.total + 1, log := run.log + [i])
  }

  function Exec(p: Primitives, v: Snapshot, run: Run, actions: seq<Action>): Option<Run>
    decreases |actions|
  {
    if actions == [] then Some(run)
    else if !Enabled(p, v, run, actions[0]) then None
    else Exec(p, v, Apply(p, v, run, actions[0]), actions[1..])
  }

  // Checking one by one

  /** What one file adds to the failures. */
  function FailureOf(p: Primitives, v: Snapshot, i: nat): seq<Failure>
    requires i < |v.files|
  {
    var checked := CheckedFile(p, v, i);
    if checked.Ok? && checked.value.Some? then [Failure(v.files[i].path, checked.value.value)] else []
  }

  function Findings(p: Primitives, v: Snapshot): (found: seq<seq<Failure>>)
    ensures |found| == |v.files| && forall i | 0 <= i < |found| :: found[i] == FailureOf(p, v, i)
  {
    seq(|v.files|, i requires 0 <= i < |v.files| => FailureOf(p, v, i))
  }

  predicate AllBelow(order: seq<nat>, n: nat) { forall k | 0 <= k < |order| :: order[k] < n }

  function Gather<T>(found: seq<seq<T>>, order: seq<nat>): seq<T>
    requires AllBelow(order, |found|)
  {
    if order == [] then [] else Gather(found, order[..|order| - 1]) + found[order[|order| - 1]]
  }

  /** The failed files among some, in their order. */
  function Failures(p: Primitives, v: Snapshot, order: seq<nat>): seq<Failure>
    requires AllBelow(order, |v.files|)
  {
    Gather(Findings(p, v), order)
  }

  function Range(n: nat): (r: seq<nat>)
    ensures |r| == n && forall k | 0 <= k < n :: r[k] == k
  {
    seq(n, k => k)
  }

  function Without(order: seq<nat>, k: nat): seq<nat>
    requires k < |order|
  {
    order[..k] + order[k + 1..]
  }

  lemma AppendBoth<T>(a: seq<T>, b: seq<T>, last: seq<T>, removed: multiset<T>)
    requires multiset(a) == multiset(b) + removed
    ensures multiset(a + last) == multiset(b + last) + removed
  {
    assert multiset(a + last) == multiset(a) + multiset(last);
    assert multiset(b + last) == multiset(b) + multiset(last);
  }

  lemma {:induction false} GatherRemoved<T>(found: seq<seq<T>>, order: seq<nat>, k: nat)
    requires k < |order| && AllBelow(order, |found|)
    ensures multiset(Gather(found, order)) == multiset(Gather(found, Without(order, k))) + multiset(found[order[k]])
  {
    var n := |order| - 1;
    GatherSplit(found, order);
    if k < n {
      GatherRemoved(found, order[..n], k);
      GatherWithout(found, order, k);
      AppendBoth(Gather(found, order[..n]), Gather(found, Without(order[..n], k)), found[order[n]],
                 multiset(found[order[k]]));
    } else {
      assert Without(order, k) == order[..n];
    }
  }

  lemma GatherWithout<T>(found: seq<seq<T>>, order: seq<nat>, k: nat)
    requires k < |order| - 1 && AllBelow(order, |found|)
    ensures var n := |order| - 1;
            Gather(found, Without(order, k)) == Gather(found, Without(order[..n], k)) + found[order[n]]
  {
    var n := |order| - 1;
    assert Without(order, k) == Without(order[..n], k) + [order[n]];
    GatherOne(found, Without(order[..n], k), order[n]);
  }

  lemma GatherSplit<T>(found: seq<seq<T>>, order: seq<nat>)
    requires order != [] && AllBelow(order, |found|)
    ensures Gather(found, order) == Gather(found, order[..|order| - 1]) + found[order[|order| - 1]]
  {
  }

  lemma WithoutContents(order: seq<nat>, k: nat)
    requires k < |order|
    ensures multiset(Without(order, k)) == multiset(order) - multiset{order[k]}
  {
    assert order == order[..k] + [order[k]] + order[k + 1..];
  }

  lemma SameRest(a: seq<nat>, b: seq<nat>, j: nat, k: nat)
    requires multiset(a) == multiset(b) && j < |a| && k < |b| && a[j] == b[k]
    ensures multiset(Without(a, j)) == multiset(Without(b, k))
  {
    WithoutContents(a, j);
    WithoutContents(b, k);
  }

  /** The order in which files are checked does not change which failures there are. */
  lemma {:induction false} GatherAnyOrder<T>(found: seq<seq<T>>, a: seq<nat>, b: seq<nat>)
    requires multiset(a) == multiset(b) && AllBelow(a, |found|) && AllBelow(b, |found|)
    ensures multiset(Gather(found, a)) == multiset(Gather(found, b))
    decreases |a|
  {
    if a == [] {
      assert |multiset(b)| == 0;
    } else {
      assert a[0] in multiset(b);
      var k :| 0 <= k < |b| && b[k] == a[0];
      SameRest(a, b, 0, k);
      GatherAnyOrder(found, Without(a, 0), Without(b, k));
      GatherRemoved(found, a, 0);
      GatherRemoved(found, b, k);
    }
  }

  ghost predicate AllRead(p: Primitives, v: Snapshot, looks: nat -> nat -> Look, n: nat)
    requires n <= |v.files|
  {
    forall i | 0 <= i < n :: CheckUnder(p, v.store, v.space, v.key, v.files[i], looks(i)).Ok?
  }

  ghost predicate AllChecked(p: Primitives, v: Snapshot, n: nat)
    requires n <= |v.files|
  {
    forall i | 0 <= i < n :: CheckedFile(p, v, i).Ok?
  }

  ghost predicate NothingLost(looks: nat -> nat -> Look) { forall i :: AllWhole(looks(i)) }

  lemma ReadAreChecked(p: Primitives, v: Snapshot, looks: nat -> nat -> Look, n: nat)
    requires n <= |v.files|
    ensures AllRead(p, v, looks, n) ==> AllChecked(p, v, n)
    ensures NothingLost(looks) && AllChecked(p, v, n) ==> AllRead(p, v, looks, n)
  {
    forall i | 0 <= i < n
      ensures var checked := CheckUnder(p, v.store, v.space, v.key, v.files[i], looks(i));
              checked.Ok? || AllWhole(looks(i)) ==> checked == CheckedFile(p, v, i)
    {
      CheckUnderAgrees(p, v.store, v.space, v.key, v.files[i], looks(i));
    }
  }

  lemma OneMoreRead(p: Primitives, v: Snapshot, looks: nat -> nat -> Look, i: nat)
    requires i < |v.files|
    ensures var checked := CheckUnder(p, v.store, v.space, v.key, v.files[i], looks(i));
            && (checked.Ok? && AllRead(p, v, looks, i) ==> AllRead(p, v, looks, i + 1))
            && (checked.Ok? ==>
                FailureOf(p, v, i) == if checked.value.Some? then [Failure(v.files[i].path, checked.value.value)]
                    else [])
            && Failures(p, v, Range(i + 1)) == Failures(p, v, Range(i)) + FailureOf(p, v, i)
            && (checked.Err? ==> !AllRead(p, v, looks, |v.files|))
  {
    CheckUnderAgrees(p, v.store, v.space, v.key, v.files[i], looks(i));
    assert Range(i + 1) == Range(i) + [i];
    GatherOne(Findings(p, v), Range(i), i);
  }

  /** The loop without a pool, over what the bucket shows: it ends at the first file that cannot be read through. */
  method VerifyOneByOne(repository: ObjectRepository, v: Snapshot, generation: nat, looks: nat -> nat -> Look)
    returns (r: Option<Outcome>)
    requires v.space == SpaceFor(v.key, generation)
    requires forall i | 0 <= i < |v.files| :: repository.ShowsParts(v.store, v.space, Parts(v.files[i]))
    ensures r.Some? <==> AllRead(repository.p, v, looks, |v.files|)
    ensures r.Some? ==> AllChecked(repository.p, v, |v.files|)
    ensures r.Some? ==> r.value == Outcome(|v.files|, Failures(repository.p, v, Range(|v.files|)))
    ensures NothingLost(looks) ==> (r.Some? <==> AllChecked(repository.p, v, |v.files|))
  {
    ReadAreChecked(repository.p, v, looks, |v.files|);
    var total, failures := 0, [];
    for i := 0 to |v.files|
      invariant total == i && failures == Failures(repository.p, v, Range(i)) && AllRead(repository.p, v, looks, i)
    {
      OneMoreRead(repository.p, v, looks, i);
      var checked := CheckFile(repository, v.files[i], v.key, generation, looks(i), v.store);
      if checked.Err? {
        return None;
      }
      if checked.value.Some? {
        failures := failures + [Failure(v.files[i].path, checked.value.value)];
      }
      total := total + 1;
    }
    return Some(Outcome(total, failures));
  }

  // What a run keeps

  function InHand(worker: Worker): multiset<nat> { if worker.Verifying? then multiset{worker.file} else multiset{} }

  function InHands(workers: seq<Worker>): multiset<nat> {
    if workers == [] then multiset{} else InHand(workers[0]) + InHands(workers[1..])
  }

  lemma AddCommon(common: multiset<nat>, a: multiset<nat>, b: multiset<nat>, c: multiset<nat>, d: multiset<nat>)
    requires a + b == c + d
    ensures (common + a) + b == (common + c) + d
  {
    assert (common + a) + b == common + (a + b);
  }

  lemma {:induction false} InHandsUpdate(workers: seq<Worker>, w: nat, worker: Worker)
    requires w < |workers|
    ensures InHands(workers[w := worker]) + InHand(workers[w]) == InHands(workers) + InHand(worker)
  {
    var next := workers[w := worker];
    if w > 0 {
      InHandsUpdate(workers[1..], w - 1, worker);
      assert next[1..] == workers[1..][w - 1 := worker] && next[0] == workers[0];
      AddCommon(InHand(workers[0]), InHands(next[1..]), InHand(workers[w]), InHands(workers[1..]), InHand(worker));
    } else {
      assert next[1..] == workers[1..];
    }
  }

  lemma {:induction false} InHandsUnchanged(workers: seq<Worker>, w: nat, worker: Worker)
    requires w < |workers| && InHand(workers[w]) == InHand(worker)
    ensures InHands(workers[w := worker]) == InHands(workers)
  {
    var next := workers[w := worker];
    if w > 0 {
      InHandsUnchanged(workers[1..], w - 1, worker);
      assert next[1..] == workers[1..][w - 1 := worker];
    } else {
      assert next[1..] == workers[1..];
    }
  }

  lemma {:induction false} NothingInHands(workers: seq<Worker>)
    requires forall w | 0 <= w < |workers| :: !workers[w].Verifying?
    ensures InHands(workers) == multiset{}
  {
    if workers != [] { NothingInHands(workers[1..]); }
  }

  /** What was reported is the checks of the logged files, in the order they were logged. */
  ghost predicate Collected(p: Primitives, v: Snapshot, run: Run) {
    AllBelow(run.log, |v.files|) && run.total == |run.log| && run.failures == Failures(p, v, run.log)
  }

  /** Every file handed out is reported or in some worker's hands, once, unless there was an error. */
  ghost predicate Accounted(run: Run) {
    !run.failed ==> multiset(run.log) + InHands(run.workers) == multiset(Range(run.next))
  }

  ghost predicate Shape(v: Snapshot, run: Run) {
    && run.next <= |v.files| && |run.workers| > 0
    && (forall w | 0 <= w < |run.workers| :: run.workers[w].Verifying? ==> run.workers[w].file < run.next)
    && (!run.feeding ==> run.next == |v.files| || run.cancelled)
    && (run.cancelled <==> run.failed || run.external)
    && (run.feeding ==> forall w | 0 <= w < |run.workers| :: run.workers[w] != Exited)
    && (run.ended ==> AllExited(run))
  }

  ghost predicate Inv(p: Primitives, v: Snapshot, run: Run) {
    Shape(v, run) && Collected(p, v, run) && Accounted(run)
  }

  lemma StartInv(p: Primitives, v: Snapshot, workers: nat)
    ensures Inv(p, v, Start(v, workers))
  {
    NothingInHands(Start(v, workers).workers);
  }

  lemma ShapeStep(p: Primitives, v: Snapshot, run: Run, a: Action)
    requires Shape(v, run) && Enabled(p, v, run, a)
    ensures Shape(v, Apply(p, v, run, a))
  {
  }

  /** A check that is no error logs its file. */
  lemma CheckLogs(p: Primitives, v: Snapshot, run: Run, w: nat)
    requires Enabled(p, v, run, Check(w))
    ensures var i, next := run.workers[w].file, Apply(p, v, run, Check(w));
            && next.workers == run.workers[w := Idle] && next.next == run.next
            && (|| (next.failed && next.log == run.log && next.failures == run.failures && next.total == run.total)
                || (next.failed == run.failed && CheckedFile(p, v, i).Ok? && next.log == run.log + [i]
                    && next.total == run.total + 1 && next.failures == run.failures + FailureOf(p, v, i)))
  {
  }

  lemma CollectedStep(p: Primitives, v: Snapshot, run: Run, a: Action)
    requires Collected(p, v, run) && Enabled(p, v, run, a)
    ensures Collected(p, v, Apply(p, v, run, a))
  {
    if a.Check? {
      CheckLogs(p, v, run, a.worker);
      GatherOne(Findings(p, v), run.log, run.workers[a.worker].file);
    }
  }

  lemma GatherOne<T>(found: seq<seq<T>>, order: seq<nat>, i: nat)
    requires AllBelow(order, |found|) && i < |found|
    ensures AllBelow(order + [i], |found|) && Gather(found, order + [i]) == Gather(found, order) + found[i]
  {
    assert (order + [i])[..|order|] == order;
  }

  lemma Reported(log: seq<nat>, before: multiset<nat>, after: multiset<nat>, all: multiset<nat>, i: nat)
    requires multiset(log) + before == all && after + multiset{i} == before
    ensures multiset(log + [i]) + after == all
  {
  }

  lemma AccountedCheck(p: Primitives, v: Snapshot, run: Run, w: nat)
    requires Accounted(run) && Enabled(p, v, run, Check(w))
    ensures Accounted(Apply(p, v, run, Check(w)))
  {
    CheckLogs(p, v, run, w);
    InHandsUpdate(run.workers, w, Idle);
    if !run.failed {
      Reported(run.log, InHands(run.workers), InHands(run.workers[w := Idle]), multiset(Range(run.next)),
               run.workers[w].file);
    }
  }

  lemma HandedOut(log: seq<nat>, before: multiset<nat>, after: multiset<nat>, n: nat)
    requires multiset(log) + before == multiset(Range(n)) && after == before + multiset{n}
    ensures multiset(log) + after == multiset(Range(n + 1))
  {
    assert Range(n + 1) == Range(n) + [n];
  }

  lemma AccountedDeliver(p: Primitives, v: Snapshot, run: Run, w: nat)
    requires Accounted(run) && Enabled(p, v, run, Deliver(w))
    ensures Accounted(Apply(p, v, run, Deliver(w)))
  {
    InHandsUpdate(run.workers, w, Verifying(run.next));
    if !run.failed {
      HandedOut(run.log, InHands(run.workers), InHands(run.workers[w := Verifying(run.next)]), run.next);
    }
  }

  lemma AccountedLeave(p: Primitives, v: Snapshot, run: Run, w: nat)
    requires Accounted(run) && Enabled(p, v, run, Leave(w))
    ensures Accounted(Apply(p, v, run, Leave(w)))
  {
    InHandsUnchanged(run.workers, w, Exited);
  }

  lemma AccountedOther(p: Primitives, v: Snapshot, run: Run, a: Action)
    requires Accounted(run) && Enabled(p, v, run, a) && !a.Check? && !a.Deliver? && !a.Leave?
    ensures Accounted(Apply(p, v, run, a))
  {
    var next := Apply(p, v, run, a);
    assert next.failed
           || (next.log == run.log && next.workers == run.workers && next.next == run.next
               && next.failed == run.failed);
  }

  lemma AccountedStep(p: Primitives, v: Snapshot, run: Run, a: Action)
    requires Accounted(run) && Enabled(p, v, run, a)
    ensures Accounted(Apply(p, v, run, a))
  {
    if a.Check? {
      AccountedCheck(p, v, run, a.worker);
    } else if a.Deliver? {
      AccountedDeliver(p, v, run, a.worker);
    } else if a.Leave? {
      AccountedLeave(p, v, run, a.worker);
    } else {
      AccountedOther(p, v, run, a);
    }
  }

  lemma StepInv(p: Primitives, v: Snapshot, run: Run, a: Action)
    requires Inv(p, v, run) && Enabled(p, v, run, a)
    ensures Inv(p, v, Apply(p, v, run, a))
  {
    ShapeStep(p, v, run, a);
    CollectedStep(p, v, run, a);
    AccountedStep(p, v, run, a);
  }

  lemma {:induction false} ExecInv(p: Primitives, v: Snapshot, run: Run, actions: seq<Action>)
    requires Inv(p, v, run) && Exec(p, v, run, actions).Some?
    ensures Inv(p, v, Exec(p, v, run, actions).value)
    decreases |actions|
  {
    if actions != [] {
      StepInv(p, v, run, actions[0]);
      ExecInv(p, v, Apply(p, v, run, actions[0]), actions[1..]);
    }
  }

  // What a run reports

  /** The return value of a run that ended: the first error, or the collected result. */
  function Returned(run: Run): Option<Outcome> { if run.failed then None else Some(Outcome(run.total, run.failures)) }

  /** A step on which reading fails, the key does not fit, or a hash is refused. */
  predicate HardError(p: Primitives, v: Snapshot, run: Run, a: Action)
    requires Enabled(p, v, run, a)
  {
    a.Break? || (a.Check? && CheckedFile(p, v, run.workers[a.worker].file).Err?)
  }

  predicate AnyHardError(p: Primitives, v: Snapshot, run: Run, actions: seq<Action>)
    requires Exec(p, v, run, actions).Some?
    decreases |actions|
  {
    actions != [] && (HardError(p, v, run, actions[0])
                      || AnyHardError(p, v, Apply(p, v, run, actions[0]), actions[1..]))
  }

  /** An error is returned in place of a result exactly when some step of the schedule met one. */
  lemma {:induction false} ErrorsAreReturned(p: Primitives, v: Snapshot, run: Run, actions: seq<Action>)
    requires Exec(p, v, run, actions).Some? && !run.failed
    ensures Returned(Exec(p, v, run, actions).value) == None <==> AnyHardError(p, v, run, actions)
    decreases |actions|
  {
    if actions != [] {
      var next := Apply(p, v, run, actions[0]);
      if next.failed { FailedStays(p, v, next, actions[1..]); } else { ErrorsAreReturned(p, v, next, actions[1..]); }
    }
  }

  lemma {:induction false} FailedStays(p: Primitives, v: Snapshot, run: Run, actions: seq<Action>)
    requires Exec(p, v, run, actions).Some? && run.failed
    ensures Exec(p, v, run, actions).value.failed
    decreases |actions|
  {
    if actions != [] { FailedStays(p, v, Apply(p, v, run, actions[0]), actions[1..]); }
  }

  /** Whatever the schedule, a result covers exactly the files handed out, and has their failures; it is complete
      exactly when the last file was handed out, which only a cancellation by the caller can prevent. */
  lemma ReportsHandedOut(p: Primitives, v: Snapshot, workers: nat, actions: seq<Action>)
    requires Exec(p, v, Start(v, workers), actions).Some?
    requires var run := Exec(p, v, Start(v, workers), actions).value; run.ended && Returned(run).Some?
    ensures var run := Exec(p, v, Start(v, workers), actions).value;
            && run.next <= |v.files|
            && run.total == run.next
            && multiset(run.failures) == multiset(Failures(p, v, Range(run.next)))
            && (!run.external ==> run.next == |v.files|)
  {
    StartInv(p, v, workers);
    ExecInv(p, v, Start(v, workers), actions);
    var run := Exec(p, v, Start(v, workers), actions).value;
    NothingInHands(run.workers);
    assert multiset(run.log) == multiset(Range(run.next));
    assert |run.log| == |multiset(run.log)| && |Range(run.next)| == |multiset(Range(run.next))|;
    GatherAnyOrder(Findings(p, v), run.log, Range(run.next));
  }

  /** Uncancelled by its caller, a concurrent verification reports what checking the files one by one reports. */
  lemma RefinesOneByOne(p: Primitives, v: Snapshot, workers: nat, actions: seq<Action>)
    requires Exec(p, v, Start(v, workers), actions).Some?
    requires var run := Exec(p, v, Start(v, workers), actions).value; run.ended && !run.external && Returned(run).Some?
    ensures var report := Returned(Exec(p, v, Start(v, workers), actions).value).value;
            report.total == |v.files| && multiset(report.failures) == multiset(Failures(p, v, Range(|v.files|)))
    ensures forall i | 0 <= i < |v.files| :: CheckedFile(p, v, i).Ok?
  {
    ReportsHandedOut(p, v, workers, actions);
    HandedOutAreChecked(p, v, workers, actions);
  }

  lemma {:induction false} LoggedAreChecked(p: Primitives, v: Snapshot, workers: nat, actions: seq<Action>)
    requires Exec(p, v, Start(v, workers), actions).Some?
    ensures forall i :: i in Exec(p, v, Start(v, workers), actions).value.log ==>
              i < |v.files| && CheckedFile(p, v, i).Ok?
  {
    LogKeepsChecked(p, v, Start(v, workers), actions);
  }

  lemma {:induction false} LogKeepsChecked(p: Primitives, v: Snapshot, run: Run, actions: seq<Action>)
    requires Exec(p, v, run, actions).Some?
    requires forall i :: i in run.log ==> i < |v.files| && CheckedFile(p, v, i).Ok?
    ensures forall i :: i in Exec(p, v, run, actions).value.log ==> i < |v.files| && CheckedFile(p, v, i).Ok?
    decreases |actions|
  {
    if actions != [] {
      LogKeepsChecked(p, v, Apply(p, v, run, actions[0]), actions[1..]);
    }
  }

  // What the report says of the store

  /** How many of the first `n` files have a path and fail for a reason. */
  ghost function FailingFor(p: Primitives, v: Snapshot, n: nat, path: string, reason: Reason): nat
    requires n <= |v.files|
  {
    Count(n, FailsFor(p, v, path, reason))
  }

  ghost function Count(n: nat, such: int -> bool): nat { |set i | 0 <= i < n && such(i)| }

  ghost function FailsFor(p: Primitives, v: Snapshot, path: string, reason: Reason): int -> bool {
    i => && 0 <= i < |v.files| && v.files[i].path == path
         && FileVerdict(p, v.store, v.space, v.key, v.files[i], Some(reason))
  }

  /** A report on the first `n` files: each of them could be told good or bad, each is counted, and each path has a
      failure for as many of them as fail, and with their reasons. */
  ghost predicate Reports(p: Primitives, v: Snapshot, n: nat, report: Outcome) {
    && n <= |v.files| && report.total == n
    && (forall i | 0 <= i < n :: !FileUnreadable(p, v.store, v.space, v.key, v.files[i]))
    && forall path, reason ::
         multiset(report.failures)[Failure(path, reason)] == FailingFor(p, v, n, path, reason)
  }

  lemma CountNext(n: nat, such: int -> bool)
    ensures Count(n + 1, such) == Count(n, such) + if such(n) then 1 else 0
  {
    var fewer, more := set i | 0 <= i < n && such(i), set i | 0 <= i < n + 1 && such(i);
    assert more == if such(n) then fewer + {n} else fewer;
  }

  lemma FindingCounts(p: Primitives, v: Snapshot, i: nat, path: string, reason: Reason)
    requires i < |v.files|
    ensures multiset(FailureOf(p, v, i))[Failure(path, reason)] == if FailsFor(p, v, path, reason)(i) then 1 else 0
  {
    VerifiesExactly(p, v.store, v.space, v.key, v.files[i]);
  }

  lemma FailuresNext(p: Primitives, v: Snapshot, i: nat)
    requires i < |v.files|
    ensures Failures(p, v, Range(i + 1)) == Failures(p, v, Range(i)) + FailureOf(p, v, i)
    ensures multiset(Failures(p, v, Range(i + 1))) == multiset(Failures(p, v, Range(i))) + multiset(FailureOf(p, v, i))
  {
    assert Range(i + 1) == Range(i) + [i];
    GatherOne(Findings(p, v), Range(i), i);
  }

  lemma {:induction false} FailuresCounted(p: Primitives, v: Snapshot, n: nat, path: string, reason: Reason)
    requires n <= |v.files|
    ensures multiset(Failures(p, v, Range(n)))[Failure(path, reason)] == FailingFor(p, v, n, path, reason)
  {
    if n > 0 {
      var i := n - 1;
      FailuresCounted(p, v, i, path, reason);
      CountNext(i, FailsFor(p, v, path, reason));
      FindingCounts(p, v, i, path, reason);
      FailuresNext(p, v, i);
    }
  }

  lemma FailuresReport(p: Primitives, v: Snapshot, n: nat, report: Outcome)
    requires n <= |v.files| && report.total == n && AllChecked(p, v, n)
    requires multiset(report.failures) == multiset(Failures(p, v, Range(n)))
    ensures Reports(p, v, n, report)
  {
    forall path, reason
      ensures multiset(report.failures)[Failure(path, reason)] == FailingFor(p, v, n, path, reason)
    {
      FailuresCounted(p, v, n, path, reason);
    }
    forall i | 0 <= i < n ensures !FileUnreadable(p, v.store, v.space, v.key, v.files[i]) {
      VerifiesExactly(p, v.store, v.space, v.key, v.files[i]);
      assert CheckedFile(p, v, i).Ok?;
    }
  }

  /** Whatever the schedule, a result is a report on the files handed out, which are all of them unless the caller
      cancelled. */
  lemma ResultReports(p: Primitives, v: Snapshot, workers: nat, actions: seq<Action>)
    requires Exec(p, v, Start(v, workers), actions).Some?
    requires var run := Exec(p, v, Start(v, workers), actions).value; run.ended && !run.failed
    ensures var run := Exec(p, v, Start(v, workers), actions).value;
            Reports(p, v, run.next, Outcome(run.total, run.failures)) && (!run.external ==> run.next == |v.files|)
  {
    ReportsHandedOut(p, v, workers, actions);
    HandedOutAreChecked(p, v, workers, actions);
    var run := Exec(p, v, Start(v, workers), actions).value;
    FailuresReport(p, v, run.next, Outcome(run.total, run.failures));
  }

  lemma HandedOutAreChecked(p: Primitives, v: Snapshot, workers: nat, actions: seq<Action>)
    requires Exec(p, v, Start(v, workers), actions).Some?
    requires var run := Exec(p, v, Start(v, workers), actions).value; run.ended && !run.failed
    ensures var run := Exec(p, v, Start(v, workers), actions).value;
            run.next <= |v.files| && AllChecked(p, v, run.next)
  {
    StartInv(p, v, workers);
    LoggedAreChecked(p, v, workers, actions);
    ExecInv(p, v, Start(v, workers), actions);
    var run := Exec(p, v, Start(v, workers), actions).value;
    NothingInHands(run.workers);
    forall i | 0 <= i < run.next ensures CheckedFile(p, v, i).Ok? {
      assert Range(run.next)[i] in multiset(Range(run.next));
      assert i in multiset(run.log);
    }
  }

  /** A successful, uncancelled verification of files captured by a create means that every one of them restores to
      the captured bytes, whatever is in the store. */
  lemma CleanReportMeansRestorable(p: Primitives, v: Snapshot, workers: nat, actions: seq<Action>, format: int,
                                   comp: Compression, sources: seq<SourceFile>, i: nat)
    requires Lawful(p) && KnownFormat(format) && |sources| == |v.files| && i < |sources|
    requires forall k | 0 <= k < |sources| :: v.files[k] == Calculated(p, format, comp, sources[k])
    requires Exec(p, v, Start(v, workers), actions).Some?
    requires var run := Exec(p, v, Start(v, workers), actions).value;
             run.ended && !run.external && Returned(run).Some? && Returned(run).value.failures == []
    ensures RestoreFile(p, v.store, v.space, v.key, comp.compType, v.files[i]) == Ok(sources[i].content)
  {
    RefinesOneByOne(p, v, workers, actions);
    assert multiset(Failures(p, v, Range(|v.files|))) == multiset{};
    NoFailures(p, v, |v.files|, i);
    VerifyImpliesRestore(p, v.store, v.space, v.key, format, comp, sources[i]);
  }

  lemma {:induction false} NoFailures(p: Primitives, v: Snapshot, n: nat, i: nat)
    requires i < n <= |v.files| && multiset(Failures(p, v, Range(n))) == multiset{}
    requires forall k | 0 <= k < |v.files| :: CheckedFile(p, v, k).Ok?
    ensures CheckedFile(p, v, i) == Ok(None)
  {
    assert Range(n)[..n - 1] == Range(n - 1);
    var found := Failures(p, v, Range(n));
    assert |found| == |multiset(found)| == 0;
    if i < n - 1 {
      assert Failures(p, v, Range(n - 1)) == [];
      NoFailures(p, v, n - 1, i);
    }
  }

  /** Cancelled by its caller, a run can report success without having looked at anything. */
  lemma CancelledReportCanBePartial(p: Primitives, v: Snapshot)
    requires v.files != []
    ensures exists actions :: Exec(p, v, Start(v, 1), actions).Some?
              && var run := Exec(p, v, Start(v, 1), actions).value;
                 run.ended && Returned(run) == Some(Outcome(0, []))
  {
    var s0 := Start(v, 1);
    var s1 := Apply(p, v, s0, Cancel);
    var s2 := Apply(p, v, s1, StopFeeding);
    var s3 := Apply(p, v, s2, Leave(0));
    var s4 := Apply(p, v, s3, Finish);
    var actions := [Cancel, StopFeeding, Leave(0), Finish];
    assert Exec(p, v, s4, []) == Some(s4);
    assert Exec(p, v, s3, [Finish]) == Some(s4);
    assert [Leave(0), Finish][1..] == [Finish];
    assert Exec(p, v, s2, [Leave(0), Finish]) == Some(s4);
    assert actions[1..][1..] == [Leave(0), Finish];
    assert Exec(p, v, s1, actions[1..]) == Some(s4);
    assert Exec(p, v, s0, actions) == Some(s4);
  }

  // Runs end

  function Weight(worker: Worker): nat { match worker case Verifying(_) => 2 case Idle => 1 case Exited => 0 }

  function Measure(v: Snapshot, run: Run): nat {
    2 * (if run.next < |v.files| then |v.files| - run.next else 0) + Sum(run.workers, Weight)
    + (if run.feeding then 1 else 0) + (if run.external then 0 else 1) + (if run.ended then 0 else 1)
  }

  lemma StepDecreases(p: Primitives, v: Snapshot, run: Run, a: Action)
    requires Enabled(p, v, run, a)
    ensures Measure(v, Apply(p, v, run, a)) < Measure(v, run)
  {
    if a.Deliver? || a.Check? || a.Break? || a.Leave? {
      WorkerStep(p, v, run, a);
      SumUpdate(run.workers, Weight, a.worker, Apply(p, v, run, a).workers[a.worker]);
    }
  }

  /** A worker's step changes that worker to a lighter state, except that a delivery moves a file into its hands. */
  lemma WorkerStep(p: Primitives, v: Snapshot, run: Run, a: Action)
    requires Enabled(p, v, run, a) && (a.Deliver? || a.Check? || a.Break? || a.Leave?)
    ensures var next := Apply(p, v, run, a);
            && a.worker < |run.workers| == |next.workers|
            && next.workers == run.workers[a.worker := next.workers[a.worker]]
            && Weight(next.workers[a.worker]) == Weight(run.workers[a.worker]) + (if a.Deliver? then 1 else -1)
            && next.next == run.next + (if a.Deliver? then 1 else 0)
            && next.feeding == run.feeding && next.external == run.external && next.ended == run.ended
  {
    if a.Check? { CheckLogs(p, v, run, a.worker); }
  }

  lemma {:induction false} RunsAreBounded(p: Primitives, v: Snapshot, run: Run, actions: seq<Action>)
    requires Exec(p, v, run, actions).Some?
    ensures |actions| <= Measure(v, run)
    decreases |actions|
  {
    if actions != [] {
      StepDecreases(p, v, run, actions[0]);
      RunsAreBounded(p, v, Apply(p, v, run, actions[0]), actions[1..]);
    }
  }

  /** No state but an ended one is stuck, also after an error. */
  lemma Progress(p: Primitives, v: Snapshot, run: Run) returns (a: Action)
    requires Inv(p, v, run) && !run.ended
    ensures Enabled(p, v, run, a) && !a.Cancel? && !a.Break?
  {
    if w :| 0 <= w < |run.workers| && run.workers[w].Verifying? {
      return Check(w);
    }
    if run.feeding {
      assert run.workers[0] == Idle;
      return if run.next == |v.files| then CloseFeed else Deliver(0);
    }
    if w :| 0 <= w < |run.workers| && run.workers[w] == Idle {
      return Leave(w);
    }
    return Finish;
  }
}
