/**
  Rotating the symmetric key: a feeder and up to eight workers copy every object of the current generation into the
  next one under a new key, one config write commits, and the old generation is deleted; a run that does not commit
  deletes the new one. A run is a sequence of actions of the feeder, the workers, the caller and the environment.
 */
module RekeyProtocol {
  import opened Outcomes
  import opened Primitives
  import opened Sums
  import opened ObjectKeys
  import opened Objects

  const MAX_WORKERS := 8

  /** What a run is given: the listed hashes, both generations and both keys. */
  datatype Rotation = Rotation(hashes: seq<string>, current: nat, next: nat, oldKey: Bytes, newKey: Bytes)

  datatype Worker =
    | Waiting
    | Reading(hash: string)
    | Writing(hash: string, content: Bytes)
    | Returned

  datatype Phase = Copying | Committing | Deleting | Aborting | Ended

  /** `copied` records the hashes written without error; nothing reads it. */
  datatype Run = Run(store: Store, workers: seq<Worker>, sent: nat, feeding: bool, failed: bool, cancelled: bool,
                     phase: Phase, committed: bool, copied: set<string>)

  datatype Action =
    | Deliver(worker: nat)                 // the feeder hands the next hash to a waiting worker
    | FeederGivesUp                        // the feeder sees the group's context done
    | CloseJobs                            // everything was sent
    | Read(worker: nat)
    | Write(worker: nat, nonce: Bytes)
    | WriteLost(worker: nat, nonce: Bytes) // written, but reported as failed
    | Fail(worker: nat)                    // reading or writing fails without effect
    | GiveUp(worker: nat)                  // a waiting worker sees the group's context done
    | Drain(worker: nat)                   // a waiting worker sees the closed channel
    | Cancel                               // the caller's context is cancelled
    | JoinFailed                           // the group returns its first error
    | CheckContext                         // the group returned nil; marshalling the config looks at the context
    | Commit
    | CommitRefused
    | CommitReplyLost
    | DeleteOld(hash: string)
    | DeleteNew(hash: string)
    | Finish                               // deleting stops, complete or not

  function Old(r: Rotation, hash: string): ObjectId { ObjectId(Generation(r.current), hash) }
  function New(r: Rotation, hash: string): ObjectId { ObjectId(Generation(r.next), hash) }

  function Start(r: Rotation, store: Store): Run {
    var workers := if |r.hashes| < MAX_WORKERS then |r.hashes| else MAX_WORKERS;
    Run(store, seq(workers, _ => Waiting), 0, r.hashes != [], false, false, Copying, false, {})
  }

  /** The context of the group is done after an error of a worker or a cancellation of the caller's context. */
  predicate GroupDone(run: Run) { run.failed || run.cancelled }

  predicate Joined(run: Run) {
    !run.feeding && forall w | 0 <= w < |run.workers| :: run.workers[w] == Returned
  }

  predicate CanRead(p: Primitives, r: Rotation, run: Run, hash: string) {
    |r.oldKey| > 0 && Old(r, hash) in run.store && Opened(p, r.oldKey, run.store[Old(r, hash)]).Ok?
  }

  predicate CanWrite(r: Rotation, nonce: Bytes) { |nonce| == NONCE_SIZE && |r.newKey| == AES_256_KEY_SIZE }

  predicate Enabled(p: Primitives, r: Rotation, run: Run, a: Action) {
    match a
    case Deliver(w) =>
      run.phase == Copying && run.feeding && run.sent < |r.hashes| && w < |run.workers| && run.workers[w] == Waiting
    case FeederGivesUp => run.phase == Copying && run.feeding && GroupDone(run)
    case CloseJobs => run.phase == Copying && run.feeding && run.sent == |r.hashes|
    case Read(w) =>
      run.phase == Copying && w < |run.workers| && run.workers[w].Reading? && CanRead(p, r, run, run.workers[w].hash)
    case Write(w, nonce) => run.phase == Copying && w < |run.workers| && run.workers[w].Writing? && CanWrite(r, nonce)
    case WriteLost(w, nonce) =>
      run.phase == Copying && w < |run.workers| && run.workers[w].Writing? && CanWrite(r, nonce)
    case Fail(w) => run.phase == Copying && w < |run.workers| && (run.workers[w].Reading? || run.workers[w].Writing?)
    case GiveUp(w) => run.phase == Copying && w < |run.workers| && run.workers[w] == Waiting && GroupDone(run)
    case Drain(w) => run.phase == Copying && w < |run.workers| && run.workers[w] == Waiting && !run.feeding
    case Cancel => !run.cancelled
    case JoinFailed => run.phase == Copying && Joined(run) && run.failed
    case CheckContext => run.phase == Copying && Joined(run) && !run.failed
    case Commit => run.phase == Committing
    case CommitRefused => run.phase == Committing
    case CommitReplyLost => run.phase == Committing
    case DeleteOld(hash) => run.phase == Deleting && Old(r, hash) in run.store
    case DeleteNew(hash) => run.phase == Aborting && New(r, hash) in run.store
    case Finish => run.phase == Deleting || run.phase == Aborting
  }

  function Remove(store: Store, id: ObjectId): Store { map other | other in store && other != id :: store[other] }

  function Rekeyed(p: Primitives, r: Rotation, run: Run, w: nat, nonce: Bytes): Store
    requires w < |run.workers| && run.workers[w].Writing?
  {
    run.store[New(r, run.workers[w].hash) := Blob(p, r.newKey, nonce, run.workers[w].content)]
  }

  function Apply(p: Primitives, r: Rotation, run: Run, a: Action): Run
    requires Enabled(p, r, run, a)
  {
    match a
    case Deliver(w) => run.(workers := run.workers[w := Reading(r.hashes[run.sent])], sent := run.sent + 1)
    case FeederGivesUp => run.(feeding := false)
    case CloseJobs => run.(feeding := false)
    case Read(w) =>
      var hash := run.workers[w].hash;
      run.(workers := run.workers[w := Writing(hash, Opened(p, r.oldKey, run.store[Old(r, hash)]).value)])
    case Write(w, nonce) =>
      run.(store := Rekeyed(p, r, run, w, nonce), workers := run.workers[w := Waiting],
           copied := run.copied + {run.workers[w].hash})
    case WriteLost(w, nonce) =>
      run.(store := Rekeyed(p, r, run, w, nonce), workers := run.workers[w := Returned], failed := true)
    case Fail(w) => run.(workers := run.workers[w := Returned], failed := true)
    case GiveUp(w) => run.(workers := run.workers[w := Returned])
    case Drain(w) => run.(workers := run.workers[w := Returned])
    case Cancel => run.(cancelled := true)
    case JoinFailed => run.(phase := Aborting)
    case CheckContext => run.(phase := if run.cancelled then Aborting else Committing)
    case Commit => run.(committed := true, phase := Deleting)
    case CommitRefused => run.(phase := Aborting)
    case CommitReplyLost => run.(committed := true, phase := Aborting)
    case DeleteOld(hash) => run.(store := Remove(run.store, Old(r, hash)))
    case DeleteNew(hash) => run.(store := Remove(run.store, New(r, hash)))
    case Finish => run.(phase := Ended)
  }

  /** The state after a sequence of actions, if each was possible in its turn. */
  function Exec(p: Primitives, r: Rotation, run: Run, actions: seq<Action>): Option<Run>
    decreases |actions|
  {
    if actions == [] then Some(run)
    else if !Enabled(p, r, run, actions[0]) then None
    else Exec(p, r, Apply(p, r, run, actions[0]), actions[1..])
  }

  // What a run keeps

  /** What a run may rely on when it starts: the current generation is sound and is what was listed; whatever earlier
      runs left in the next generation carries listed hashes. */
  ghost predicate Prepared(p: Primitives, r: Rotation, store: Store) {
    && |r.oldKey| == AES_256_KEY_SIZE && |r.newKey| == AES_256_KEY_SIZE && r.current != r.next
    && Sound(p, store, Generation(r.current), r.oldKey)
    && (forall hash :: Old(r, hash) in store <==> hash in r.hashes)
    && (forall hash :: New(r, hash) in store ==> hash in r.hashes)
  }

  ghost predicate SameSpace(a: Store, b: Store, space: Space) {
    forall id: ObjectId | id.space == space :: (id in a <==> id in b) && (id in a ==> a[id] == b[id])
  }

  /** Only the two generations of the rotation are touched, and the old one not before the commit. */
  ghost predicate Frame(r: Rotation, before: Store, run: Run) {
    && (forall id :: id in run.store && id.space != Generation(r.next) ==> id in before && run.store[id] == before[id])
    && (forall id :: id in before && id.space != Generation(r.current) && id.space != Generation(r.next) ==>
        id in run.store)
    && (!run.committed ==> forall id :: id in before && id.space == Generation(r.current) ==> id in run.store)
    && (forall hash :: New(r, hash) in run.store ==> hash in r.hashes)
  }

  ghost predicate WorkerOk(p: Primitives, r: Rotation, worker: Worker) {
    match worker
    case Reading(hash) => hash in r.hashes
    case Writing(hash, content) => hash in r.hashes && p.sha(content) == hash
    case _ => true
  }

  predicate Holding(worker: Worker, hash: string) {
    (worker.Reading? || worker.Writing?) && worker.hash == hash
  }

  /** A hash that was sent is copied, in some worker's hands, or lost to an error. */
  ghost predicate Accounted(run: Run, hash: string) {
    hash in run.copied || run.failed || exists w :: 0 <= w < |run.workers| && Holding(run.workers[w], hash)
  }

  ghost predicate PoolOk(p: Primitives, r: Rotation, run: Run) {
    && run.sent <= |r.hashes|
    && (r.hashes != [] ==> |run.workers| > 0)
    && (forall w | 0 <= w < |run.workers| :: WorkerOk(p, r, run.workers[w]))
    && (forall i | 0 <= i < run.sent :: Accounted(run, r.hashes[i]))
    && (!run.feeding ==> run.sent == |r.hashes| || GroupDone(run))
    && (run.feeding ==> r.hashes != [])
    && (run.feeding && !GroupDone(run) ==> forall w | 0 <= w < |run.workers| :: run.workers[w] != Returned)
  }

  /** Everything copied is in the new generation and opens, under the new key, to the content its hash names. */
  ghost predicate CopiesOk(p: Primitives, r: Rotation, run: Run) {
    forall hash :: hash in run.copied ==> Holds(p, run.store, Generation(r.next), r.newKey, hash)
  }

  /** What is left of the copies can be read. */
  ghost predicate CopiesReadable(p: Primitives, r: Rotation, run: Run) {
    forall hash :: hash in run.copied && New(r, hash) in run.store ==> Names(p, r.newKey, run.store[New(r, hash)], hash)
  }

  ghost predicate Inv(p: Primitives, r: Rotation, before: Store, run: Run) {
    && Frame(r, before, run)
    && (run.phase == Copying ==> PoolOk(p, r, run))
    && (run.phase == Copying || run.phase == Committing || run.phase == Deleting ==> CopiesOk(p, r, run))
    && (run.committed ==> CopiesReadable(p, r, run))
    && (run.phase == Committing || run.committed ==> !run.failed && forall hash :: hash in r.hashes ==>
        hash in run.copied)
    && (run.committed ==> run.phase == Deleting || run.phase == Aborting || run.phase == Ended)
    && (run.phase == Deleting ==> run.committed)
  }

  /** After the commit no copy is missing. */
  ghost predicate Safe(p: Primitives, r: Rotation, run: Run) { run.committed ==> CopiesOk(p, r, run) }

  /** The one harmful action: an abort deletes from the generation the stored config names. */
  predicate Harmful(run: Run, a: Action) { run.committed && a.DeleteNew? }

  lemma StartInv(p: Primitives, r: Rotation, before: Store)
    requires Prepared(p, r, before)
    ensures Inv(p, r, before, Start(r, before))
  {
  }

  /** A worker that holds nothing may change its state without losing track of any hash. */
  lemma StillAccounted(run: Run, w: nat, worker: Worker, hash: string)
    requires w < |run.workers| && Accounted(run, hash)
    requires Holding(run.workers[w], hash) ==> Holding(worker, hash)
    ensures Accounted(run.(workers := run.workers[w := worker]), hash)
  {
    if hash !in run.copied && !run.failed {
      var v :| 0 <= v < |run.workers| && Holding(run.workers[v], hash);
      assert Holding(run.workers[w := worker][v], hash);
    }
  }

  lemma DeliverKeepsPool(p: Primitives, r: Rotation, run: Run, w: nat)
    requires PoolOk(p, r, run) && Enabled(p, r, run, Deliver(w))
    ensures PoolOk(p, r, Apply(p, r, run, Deliver(w)))
  {
    var next := Apply(p, r, run, Deliver(w));
    forall i | 0 <= i < next.sent ensures Accounted(next, r.hashes[i]) {
      if i < run.sent {
        StillAccounted(run, w, next.workers[w], r.hashes[i]);
      } else {
        assert Holding(next.workers[w], r.hashes[i]);
      }
    }
  }

  lemma ReadKeepsPool(p: Primitives, r: Rotation, before: Store, run: Run, w: nat)
    requires Prepared(p, r, before) && Frame(r, before, run)
    requires PoolOk(p, r, run) && Enabled(p, r, run, Read(w)) && !run.committed
    ensures PoolOk(p, r, Apply(p, r, run, Read(w)))
  {
    var next := Apply(p, r, run, Read(w));
    var hash := run.workers[w].hash;
    assert Names(p, r.oldKey, before[Old(r, hash)], hash);
    forall i | 0 <= i < next.sent ensures Accounted(next, r.hashes[i]) {
      StillAccounted(run, w, next.workers[w], r.hashes[i]);
    }
  }

  lemma WriteKeepsPool(p: Primitives, r: Rotation, run: Run, w: nat, nonce: Bytes)
    requires PoolOk(p, r, run) && Enabled(p, r, run, Write(w, nonce))
    ensures PoolOk(p, r, Apply(p, r, run, Write(w, nonce)))
  {
    var next := Apply(p, r, run, Write(w, nonce));
    forall i | 0 <= i < next.sent ensures Accounted(next, r.hashes[i]) {
      if r.hashes[i] !in next.copied && !run.failed {
        var v :| 0 <= v < |run.workers| && Holding(run.workers[v], r.hashes[i]);
        assert Holding(next.workers[v], r.hashes[i]);
      }
    }
  }

  lemma ReturnKeepsPool(p: Primitives, r: Rotation, run: Run, a: Action)
    requires PoolOk(p, r, run) && Enabled(p, r, run, a)
    requires a.GiveUp? || a.Drain? || a.Fail? || a.WriteLost?
    ensures PoolOk(p, r, Apply(p, r, run, a))
  {
    var next := Apply(p, r, run, a);
    forall i | 0 <= i < next.sent ensures Accounted(next, r.hashes[i]) {
      if a.GiveUp? || a.Drain? {
        StillAccounted(run, a.worker, Returned, r.hashes[i]);
      }
    }
  }

  lemma FeederKeepsPool(p: Primitives, r: Rotation, run: Run, a: Action)
    requires PoolOk(p, r, run) && Enabled(p, r, run, a)
    requires a == FeederGivesUp || a == CloseJobs || a == Cancel
    ensures PoolOk(p, r, Apply(p, r, run, a))
  {
    var next := Apply(p, r, run, a);
    forall i | 0 <= i < next.sent ensures Accounted(next, r.hashes[i]) {
      assert Accounted(run, r.hashes[i]);
    }
  }

  /** When the group returns nil and the context is still not done, no hash was skipped. */
  lemma JoinedMeansCopied(p: Primitives, r: Rotation, run: Run, hash: string)
    requires PoolOk(p, r, run) && Joined(run) && !GroupDone(run) && hash in r.hashes
    ensures hash in run.copied
  {
    var i :| 0 <= i < |r.hashes| && r.hashes[i] == hash;
    assert Accounted(run, r.hashes[i]);
  }

  lemma WriteKeepsStore(p: Primitives, r: Rotation, before: Store, run: Run, w: nat, nonce: Bytes)
    requires Lawful(p) && Prepared(p, r, before) && Frame(r, before, run) && CopiesOk(p, r, run)
    requires w < |run.workers| && run.workers[w].Writing? && WorkerOk(p, r, run.workers[w]) && CanWrite(r, nonce)
    ensures var hash := run.workers[w].hash;
            var next := run.(store := Rekeyed(p, r, run, w, nonce));
            && Frame(r, before, next)
            && CopiesOk(p, r, next.(copied := run.copied + {hash})) && CopiesOk(p, r, next)
  {
    BlobOpens(p, r.newKey, nonce, run.workers[w].content);
  }

  /** Actions of the pool that write nothing. */
  lemma QuietStep(p: Primitives, r: Rotation, before: Store, run: Run, a: Action)
    requires Prepared(p, r, before) && Inv(p, r, before, run) && Enabled(p, r, run, a)
    requires a.Deliver? || a.Read? || a.FeederGivesUp? || a.CloseJobs? || a.Cancel? || a.Fail? || a.GiveUp? || a.Drain?
    ensures Inv(p, r, before, Apply(p, r, run, a))
  {
    var next := Apply(p, r, run, a);
    assert next.store == run.store && next.copied == run.copied && next.phase == run.phase
           && next.committed == run.committed;
    assert Frame(r, before, next) && (CopiesOk(p, r, run) ==> CopiesOk(p, r, next));
    if run.phase == Copying {
      if a.Deliver? {
        DeliverKeepsPool(p, r, run, a.worker);
      } else if a.Read? {
        ReadKeepsPool(p, r, before, run, a.worker);
      } else if a.FeederGivesUp? || a.CloseJobs? || a.Cancel? {
        FeederKeepsPool(p, r, run, a);
      } else {
        ReturnKeepsPool(p, r, run, a);
      }
    }
  }

  lemma WriteStep(p: Primitives, r: Rotation, before: Store, run: Run, a: Action)
    requires Lawful(p) && Prepared(p, r, before) && Inv(p, r, before, run) && Enabled(p, r, run, a)
    requires a.Write? || a.WriteLost?
    ensures Inv(p, r, before, Apply(p, r, run, a))
  {
    WriteKeepsStore(p, r, before, run, a.worker, a.nonce);
    if a.Write? {
      WriteKeepsPool(p, r, run, a.worker, a.nonce);
    } else {
      ReturnKeepsPool(p, r, run, a);
    }
  }

  /** The end of copying, the commit, and deleting. */
  lemma PhaseStep(p: Primitives, r: Rotation, before: Store, run: Run, a: Action)
    requires Prepared(p, r, before) && Inv(p, r, before, run) && Enabled(p, r, run, a) && IsPhaseAction(a)
    ensures Inv(p, r, before, Apply(p, r, run, a))
  {
    if a.DeleteOld? || a.DeleteNew? {
      DeleteStep(p, r, before, run, a);
    } else {
      if a.CheckContext? && !run.cancelled {
        forall hash | hash in r.hashes ensures hash in run.copied { JoinedMeansCopied(p, r, run, hash); }
      }
      TurnStep(p, r, before, run, a);
    }
  }

  /** From phase to phase nothing is stored or deleted. */
  lemma TurnStep(p: Primitives, r: Rotation, before: Store, run: Run, a: Action)
    requires Inv(p, r, before, run) && Enabled(p, r, run, a) && IsPhaseAction(a) && !a.DeleteOld? && !a.DeleteNew?
    requires a.CheckContext? && !run.cancelled ==> forall hash :: hash in r.hashes ==> hash in run.copied
    ensures Inv(p, r, before, Apply(p, r, run, a))
  {
    var next := Apply(p, r, run, a);
    assert next == run.(phase := next.phase, committed := next.committed);
    FrameStays(r, before, run, next);
  }

  lemma FrameStays(r: Rotation, before: Store, run: Run, next: Run)
    requires Frame(r, before, run) && next.store == run.store && (run.committed ==> next.committed)
    ensures Frame(r, before, next)
  {
  }

  lemma DeleteStep(p: Primitives, r: Rotation, before: Store, run: Run, a: Action)
    requires Inv(p, r, before, run) && Enabled(p, r, run, a) && (a.DeleteOld? || a.DeleteNew?) && r.current != r.next
    ensures Inv(p, r, before, Apply(p, r, run, a))
  {
    var next := Apply(p, r, run, a);
    assert next == run.(store := next.store);
    assert Frame(r, before, next);
  }

  predicate IsPhaseAction(a: Action) {
    || a.JoinFailed? || a.CheckContext? || a.Commit? || a.CommitRefused? || a.CommitReplyLost?
    || a.DeleteOld? || a.DeleteNew? || a.Finish?
  }

  /** Every action keeps the invariant. */
  lemma StepInv(p: Primitives, r: Rotation, before: Store, run: Run, a: Action)
    requires Lawful(p) && Prepared(p, r, before) && Inv(p, r, before, run) && Enabled(p, r, run, a)
    ensures Inv(p, r, before, Apply(p, r, run, a))
  {
    if a.Write? || a.WriteLost? {
      WriteStep(p, r, before, run, a);
    } else if IsPhaseAction(a) {
      PhaseStep(p, r, before, run, a);
    } else {
      QuietStep(p, r, before, run, a);
    }
  }

  /** Whatever the schedule, the failures and the point a run is looked at, the invariant holds. */
  lemma {:induction false} ExecInv(p: Primitives, r: Rotation, before: Store, run: Run, actions: seq<Action>)
    requires Lawful(p) && Prepared(p, r, before) && Inv(p, r, before, run)
    requires Exec(p, r, run, actions).Some?
    ensures Inv(p, r, before, Exec(p, r, run, actions).value)
    decreases |actions|
  {
    if actions != [] {
      StepInv(p, r, before, run, actions[0]);
      ExecInv(p, r, before, Apply(p, r, run, actions[0]), actions[1..]);
    }
  }

  // What it means

  /** The generation the stored config names. */
  function Configured(r: Rotation, run: Run): nat { if run.committed then r.next else r.current }
  function ConfiguredKey(r: Rotation, run: Run): Bytes { if run.committed then r.newKey else r.oldKey }

  /** Every action but the harmful one keeps the copies of a committed run. */
  lemma StepSafe(p: Primitives, r: Rotation, before: Store, run: Run, a: Action)
    requires Prepared(p, r, before) && Inv(p, r, before, run) && Safe(p, r, run) && Enabled(p, r, run, a)
             && !Harmful(run, a)
    ensures Safe(p, r, Apply(p, r, run, a))
  {
    var next := Apply(p, r, run, a);
    if next.committed {
      CommittedStoreStays(p, r, before, run, a);
      forall hash | hash in next.copied ensures Holds(p, next.store, Generation(r.next), r.newKey, hash) {
        assert Holds(p, run.store, Generation(r.next), r.newKey, hash);
      }
    }
  }

  /** Once committed, and at the commit, copies are only ever deleted by the harmful action. */
  lemma CommittedStoreStays(p: Primitives, r: Rotation, before: Store, run: Run, a: Action)
    requires Prepared(p, r, before) && Inv(p, r, before, run) && Enabled(p, r, run, a)
    requires Apply(p, r, run, a).committed
    ensures var next := Apply(p, r, run, a);
            next.copied == run.copied && (!Harmful(run, a) ==> SameSpace(run.store, next.store, Generation(r.next)))
  {
    if !a.DeleteOld? && !a.DeleteNew? { CommittedQuietly(p, r, before, run, a); }
  }

  lemma CommittedQuietly(p: Primitives, r: Rotation, before: Store, run: Run, a: Action)
    requires Inv(p, r, before, run) && Enabled(p, r, run, a) && Apply(p, r, run, a).committed
    requires !a.DeleteOld? && !a.DeleteNew?
    ensures Apply(p, r, run, a).store == run.store && Apply(p, r, run, a).copied == run.copied
  {
  }

  /** What holds in every state of every run, also of those that abort a committed rotation: the generation the stored
      config names opens under the stored config's key, it and the next one hold listed hashes only, and no other
      namespace is touched. */
  lemma SoundState(p: Primitives, r: Rotation, before: Store, run: Run)
    requires Prepared(p, r, before) && Inv(p, r, before, run)
    ensures var space := Generation(Configured(r, run));
            && Sound(p, run.store, space, ConfiguredKey(r, run))
            && (forall hash :: ObjectId(space, hash) in run.store ==> hash in r.hashes)
            && (forall hash :: New(r, hash) in run.store ==> hash in r.hashes)
            && (forall other :: other != Generation(r.current) && other != Generation(r.next) ==>
                                  SameSpace(before, run.store, other))
  {
    forall hash | ObjectId(Generation(Configured(r, run)), hash) in run.store
      ensures Names(p, ConfiguredKey(r, run), run.store[ObjectId(Generation(Configured(r, run)), hash)], hash)
    {
      if run.committed {
        assert New(r, hash) in run.store;
      } else {
        assert Names(p, r.oldKey, before[Old(r, hash)], hash);
      }
    }
  }

  /** A safe state also has every listed hash in the generation the stored config names. */
  lemma SafeState(p: Primitives, r: Rotation, before: Store, run: Run)
    requires Prepared(p, r, before) && Inv(p, r, before, run) && Safe(p, r, run)
    ensures var space := Generation(Configured(r, run));
            && Sound(p, run.store, space, ConfiguredKey(r, run))
            && (forall hash :: ObjectId(space, hash) in run.store <==> hash in r.hashes)
            && (forall hash :: New(r, hash) in run.store ==> hash in r.hashes)
            && (forall other :: other != Generation(r.current) && other != Generation(r.next) ==>
                                  SameSpace(before, run.store, other))
  {
    SoundState(p, r, before, run);
    forall hash | hash in r.hashes ensures ObjectId(Generation(Configured(r, run)), hash) in run.store {
      if run.committed {
        assert Holds(p, run.store, Generation(r.next), r.newKey, hash);
      } else {
        assert Old(r, hash) in before;
      }
    }
  }

  /** The generation the stored config names is all there. */
  ghost predicate ConfiguredComplete(r: Rotation, run: Run) {
    forall hash :: hash in r.hashes ==> ObjectId(Generation(Configured(r, run)), hash) in run.store
  }

  // Aborting a committed rotation

  predicate AnyDeleteNew(actions: seq<Action>) {
    actions != [] && (actions[0].DeleteNew? || AnyDeleteNew(actions[1..]))
  }

  /** The config write happened but was reported as failed, and later the abort deleted something. */
  predicate DeletesAfterLoss(actions: seq<Action>) {
    actions != [] && ((actions[0] == CommitReplyLost && AnyDeleteNew(actions[1..])) || DeletesAfterLoss(actions[1..]))
  }

  predicate HarmAlong(p: Primitives, r: Rotation, run: Run, actions: seq<Action>)
    requires Exec(p, r, run, actions).Some?
    decreases |actions|
  {
    actions != [] && (Harmful(run, actions[0]) || HarmAlong(p, r, Apply(p, r, run, actions[0]), actions[1..]))
  }

  predicate Lost(run: Run) { run.committed && run.phase == Aborting }

  lemma {:induction false} DeletesAfterLossDeletes(actions: seq<Action>)
    requires DeletesAfterLoss(actions)
    ensures AnyDeleteNew(actions)
  {
    if DeletesAfterLoss(actions[1..]) { DeletesAfterLossDeletes(actions[1..]); }
  }

  /** After its end a run deletes nothing. */
  lemma {:induction false} EndedDeletesNothing(p: Primitives, r: Rotation, run: Run, actions: seq<Action>)
    requires run.phase == Ended && Exec(p, r, run, actions).Some?
    ensures !AnyDeleteNew(actions)
    decreases |actions|
  {
    if actions != [] { EndedDeletesNothing(p, r, Apply(p, r, run, actions[0]), actions[1..]); }
  }

  /** Only the loss of the reply leads to a state that is both committed and aborting. */
  lemma LossStep(p: Primitives, r: Rotation, run: Run, a: Action)
    requires Enabled(p, r, run, a)
             && (run.committed ==> run.phase == Deleting || run.phase == Aborting || run.phase == Ended)
    ensures var next := Apply(p, r, run, a);
            && (next.committed ==> next.phase == Deleting || next.phase == Aborting || next.phase == Ended)
            && (Lost(next) <==> (Lost(run) && a != Finish) || a == CommitReplyLost)
            && (Lost(run) && a == Finish ==> next.phase == Ended) && (Lost(run) ==> a != CommitReplyLost)
            && (Harmful(run, a) <==> Lost(run) && a.DeleteNew?)
  {
  }

  /** The harmful action is a delete after the loss of the reply, seen in the actions alone. */
  lemma {:induction false} HarmIsDeleteAfterLoss(p: Primitives, r: Rotation, run: Run, actions: seq<Action>)
    requires Exec(p, r, run, actions).Some?
    requires run.committed ==> run.phase == Deleting || run.phase == Aborting || run.phase == Ended
    ensures HarmAlong(p, r, run, actions) <==> if Lost(run) then AnyDeleteNew(actions) else DeletesAfterLoss(actions)
    decreases |actions|
  {
    if actions != [] {
      var a, rest := actions[0], actions[1..];
      var next := Apply(p, r, run, a);
      LossStep(p, r, run, a);
      HarmIsDeleteAfterLoss(p, r, next, rest);
      if DeletesAfterLoss(rest) { DeletesAfterLossDeletes(rest); }
      if Lost(run) && a == Finish { EndedDeletesNothing(p, r, next, rest); }
    }
  }

  ghost predicate MissingCopy(r: Rotation, run: Run, hash: string) {
    && run.committed && (run.phase == Deleting || run.phase == Aborting || run.phase == Ended)
    && hash in r.hashes && New(r, hash) !in run.store
  }

  lemma MissingStep(p: Primitives, r: Rotation, run: Run, a: Action, hash: string)
    requires MissingCopy(r, run, hash) && Enabled(p, r, run, a)
    ensures MissingCopy(r, Apply(p, r, run, a), hash)
  {
  }

  lemma {:induction false} MissingStays(p: Primitives, r: Rotation, run: Run, actions: seq<Action>, hash: string)
    requires MissingCopy(r, run, hash) && Exec(p, r, run, actions).Some?
    ensures MissingCopy(r, Exec(p, r, run, actions).value, hash)
    decreases |actions|
  {
    if actions != [] {
      MissingStep(p, r, run, actions[0], hash);
      MissingStays(p, r, Apply(p, r, run, actions[0]), actions[1..], hash);
    }
  }

  lemma {:induction false} SafeWithoutHarm(p: Primitives, r: Rotation, before: Store, run: Run, actions: seq<Action>)
    requires Lawful(p) && Prepared(p, r, before) && Inv(p, r, before, run) && Safe(p, r, run)
    requires Exec(p, r, run, actions).Some? && !HarmAlong(p, r, run, actions)
    ensures Safe(p, r, Exec(p, r, run, actions).value)
    decreases |actions|
  {
    if actions != [] {
      StepInv(p, r, before, run, actions[0]);
      StepSafe(p, r, before, run, actions[0]);
      SafeWithoutHarm(p, r, before, Apply(p, r, run, actions[0]), actions[1..]);
    }
  }

  lemma {:induction false} HarmLeavesAGap(p: Primitives, r: Rotation, before: Store, run: Run, actions: seq<Action>)
    requires Lawful(p) && Prepared(p, r, before) && Inv(p, r, before, run)
    requires Exec(p, r, run, actions).Some? && HarmAlong(p, r, run, actions)
    ensures !ConfiguredComplete(r, Exec(p, r, run, actions).value)
    decreases |actions|
  {
    var a, next := actions[0], Apply(p, r, run, actions[0]);
    if Harmful(run, a) {
      assert New(r, a.hash) in run.store && MissingCopy(r, next, a.hash);
      MissingStays(p, r, next, actions[1..], a.hash);
    } else {
      StepInv(p, r, before, run, a);
      HarmLeavesAGap(p, r, before, next, actions[1..]);
    }
  }

  /** In every state every run can be left in: the generation the stored config names opens under the stored config's
      key and holds listed hashes only; it holds all of them exactly when no abort deleted anything after a config
      write that happened but was reported as failed. */
  lemma ConfiguredIsComplete(p: Primitives, r: Rotation, before: Store, actions: seq<Action>)
    requires Lawful(p) && Prepared(p, r, before) && Exec(p, r, Start(r, before), actions).Some?
    ensures var run := Exec(p, r, Start(r, before), actions).value;
            var space := Generation(Configured(r, run));
            && Sound(p, run.store, space, ConfiguredKey(r, run))
            && (forall hash :: ObjectId(space, hash) in run.store ==> hash in r.hashes)
            && (forall hash :: New(r, hash) in run.store ==> hash in r.hashes)
            && (forall other :: other != Generation(r.current) && other != Generation(r.next) ==>
                                  SameSpace(before, run.store, other))
            && (ConfiguredComplete(r, run) <==> !DeletesAfterLoss(actions))
  {
    var start := Start(r, before);
    var run := Exec(p, r, start, actions).value;
    StartInv(p, r, before);
    ExecInv(p, r, before, start, actions);
    SoundState(p, r, before, run);
    HarmIsDeleteAfterLoss(p, r, start, actions);
    if HarmAlong(p, r, start, actions) {
      HarmLeavesAGap(p, r, before, start, actions);
    } else {
      SafeWithoutHarm(p, r, before, start, actions);
      SafeState(p, r, before, run);
    }
  }

  /** A rekey commits only when every listed hash was read and written without error by some worker. */
  lemma CommitMeansAllCopied(p: Primitives, r: Rotation, before: Store, actions: seq<Action>)
    requires Lawful(p) && Prepared(p, r, before) && Exec(p, r, Start(r, before), actions).Some?
    ensures var run := Exec(p, r, Start(r, before), actions).value;
            run.committed ==> !run.failed && forall hash :: hash in r.hashes ==> hash in run.copied
  {
    StartInv(p, r, before);
    ExecInv(p, r, before, Start(r, before), actions);
  }

  lemma {:induction false} AllGiveUp(p: Primitives, r: Rotation, run: Run, from: nat) returns (actions: seq<Action>)
    requires run.phase == Copying && !run.feeding && run.cancelled && !run.failed && from <= |run.workers|
    requires (forall w | 0 <= w < from :: run.workers[w] == Returned)
             && (forall w | from <= w < |run.workers| :: run.workers[w] == Waiting)
    ensures Exec(p, r, run, actions).Some?
    ensures var end := Exec(p, r, run, actions).value; end == run.(workers := end.workers) && Joined(end)
    decreases |run.workers| - from
  {
    if from == |run.workers| {
      actions := [];
    } else {
      var rest := AllGiveUp(p, r, Apply(p, r, run, GiveUp(from)), from + 1);
      actions := [GiveUp(from)] + rest;
      assert actions[1..] == rest;
    }
  }

  /** The group alone does not protect the commit: cancelled by the caller, it can return no error with nothing copied.
      What keeps that run from committing is the look at the context inside the config write. */
  lemma GroupCanSkipEverything(p: Primitives, r: Rotation, before: Store) returns (actions: seq<Action>)
    requires r.hashes != []
    ensures Exec(p, r, Start(r, before), actions).Some?
    ensures var run := Exec(p, r, Start(r, before), actions).value;
            && Joined(run) && !run.failed && run.copied == {} && run.store == before
            && Enabled(p, r, run, CheckContext) && Apply(p, r, run, CheckContext).phase == Aborting
  {
    var cancelled := Apply(p, r, Start(r, before), Cancel);
    var stopped := Apply(p, r, cancelled, FeederGivesUp);
    var rest := AllGiveUp(p, r, stopped, 0);
    actions := [Cancel] + ([FeederGivesUp] + rest);
    assert actions[1..] == [FeederGivesUp] + rest && ([FeederGivesUp] + rest)[1..] == rest;
  }

  lemma CommittedContent(p: Primitives, r: Rotation, before: Store, run: Run, hash: string)
    requires Lawful(p) && Prepared(p, r, before) && Inv(p, r, before, run) && run.committed
    requires hash in r.hashes && New(r, hash) in run.store
    ensures Opened(p, r.newKey, run.store[New(r, hash)]) == Opened(p, r.oldKey, before[Old(r, hash)])
  {
    assert Names(p, r.newKey, run.store[New(r, hash)], hash);
    assert Names(p, r.oldKey, before[Old(r, hash)], hash);
    var a := Opened(p, r.newKey, run.store[New(r, hash)]).value;
    var b := Opened(p, r.oldKey, before[Old(r, hash)]).value;
    assert p.sha(a) == p.sha(b);
  }

  /** A committed rekey is the old generation, object by object, under the new key. */
  lemma CommitKeepsContent(p: Primitives, r: Rotation, before: Store, actions: seq<Action>, hash: string)
    requires Lawful(p) && Prepared(p, r, before) && hash in r.hashes
    requires Exec(p, r, Start(r, before), actions).Some? && Exec(p, r, Start(r, before), actions).value.committed
    ensures var run := Exec(p, r, Start(r, before), actions).value;
            && (!DeletesAfterLoss(actions) ==> New(r, hash) in run.store)
            && (New(r, hash) in run.store ==>
                  Opened(p, r.newKey, run.store[New(r, hash)]) == Opened(p, r.oldKey, before[Old(r, hash)]))
  {
    var run := Exec(p, r, Start(r, before), actions).value;
    StartInv(p, r, before);
    ExecInv(p, r, before, Start(r, before), actions);
    ConfiguredIsComplete(p, r, before, actions);
    if New(r, hash) in run.store { CommittedContent(p, r, before, run, hash); }
  }

  // Runs end

  function Weight(worker: Worker): nat {
    match worker
    case Reading(_) => 5
    case Writing(_, _) => 4
    case Waiting => 1
    case Returned => 0
  }

  function PhaseWeight(phase: Phase): nat {
    match phase case Copying => 3 case Committing => 2 case Deleting => 1 case Aborting => 1 case Ended => 0
  }

  /** Work left: hashes to send, work in the workers' hands, and objects that could be deleted. */
  function Measure(r: Rotation, run: Run): nat {
    6 * (if run.sent < |r.hashes| then |r.hashes| - run.sent else 0) + Sum(run.workers, Weight)
    + (if run.feeding then 1 else 0) + (if run.cancelled then 0 else 1) + PhaseWeight(run.phase) + |run.store.Keys|
  }

  predicate IsWorkerAction(a: Action) {
    a.Deliver? || a.Read? || a.Write? || a.WriteLost? || a.Fail? || a.GiveUp? || a.Drain?
  }

  /** What a worker's action does to its own state, to the store and to the rest. */
  lemma WorkerMoves(p: Primitives, r: Rotation, run: Run, a: Action)
    requires Enabled(p, r, run, a) && IsWorkerAction(a)
    ensures var next := Apply(p, r, run, a);
            && a.worker < |run.workers| == |next.workers|
            && next.workers == run.workers[a.worker := next.workers[a.worker]]
            && Weight(next.workers[a.worker]) <= Weight(run.workers[a.worker]) +
                 (if a.Deliver? then 4 else if a.Write? || a.WriteLost? then -3 else -1)
            && next.sent == run.sent + (if a.Deliver? then 1 else 0) && (a.Deliver? ==> run.sent < |r.hashes|)
            && next.feeding == run.feeding && next.cancelled == run.cancelled && next.phase == run.phase
  {
  }

  lemma WorkerStores(p: Primitives, r: Rotation, run: Run, a: Action)
    requires Enabled(p, r, run, a) && IsWorkerAction(a)
    ensures |Apply(p, r, run, a).store.Keys| <= |run.store.Keys| + (if a.Write? || a.WriteLost? then 1 else 0)
  {
    if a.Write? || a.WriteLost? {
      assert Apply(p, r, run, a).store.Keys == run.store.Keys + {New(r, run.workers[a.worker].hash)};
    }
  }

  lemma WorkerDecreases(p: Primitives, r: Rotation, run: Run, a: Action)
    requires Enabled(p, r, run, a) && IsWorkerAction(a)
    ensures Measure(r, Apply(p, r, run, a)) < Measure(r, run)
  {
    WorkerMoves(p, r, run, a);
    WorkerStores(p, r, run, a);
    SumUpdate(run.workers, Weight, a.worker, Apply(p, r, run, a).workers[a.worker]);
  }

  lemma RemoveShrinks(store: Store, id: ObjectId)
    requires id in store
    ensures |Remove(store, id).Keys| < |store.Keys|
  {
    assert Remove(store, id).Keys == store.Keys - {id};
  }

  lemma StepDecreases(p: Primitives, r: Rotation, run: Run, a: Action)
    requires Enabled(p, r, run, a)
    ensures Measure(r, Apply(p, r, run, a)) < Measure(r, run)
  {
    if IsWorkerAction(a) {
      WorkerDecreases(p, r, run, a);
    } else if a.DeleteOld? {
      RemoveShrinks(run.store, Old(r, a.hash));
    } else if a.DeleteNew? {
      RemoveShrinks(run.store, New(r, a.hash));
    }
  }

  /** No schedule goes on for ever, not even one full of failures: its length is bounded when the run starts. */
  lemma {:induction false} RunsAreBounded(p: Primitives, r: Rotation, run: Run, actions: seq<Action>)
    requires Exec(p, r, run, actions).Some?
    ensures |actions| <= Measure(r, run)
    decreases |actions|
  {
    if actions != [] {
      StepDecreases(p, r, run, actions[0]);
      RunsAreBounded(p, r, Apply(p, r, run, actions[0]), actions[1..]);
    }
  }

  predicate IsFault(a: Action) { a.Cancel? || a.Fail? || a.WriteLost? || a.CommitRefused? || a.CommitReplyLost? }

  /** No state is stuck, and none needs a further failure or cancellation to move on. */
  lemma Progress(p: Primitives, r: Rotation, before: Store, run: Run) returns (a: Action)
    requires Prepared(p, r, before) && Inv(p, r, before, run) && run.phase != Ended
    ensures Enabled(p, r, run, a) && !IsFault(a) && !a.DeleteNew?
  {
    if run.phase == Committing {
      return Commit;
    }
    if run.phase != Copying {
      return Finish;
    }
    if w :| 0 <= w < |run.workers| && run.workers[w].Reading? {
      var hash := run.workers[w].hash;
      assert WorkerOk(p, r, run.workers[w]);
      assert Names(p, r.oldKey, before[Old(r, hash)], hash);
      return Read(w);
    }
    if w :| 0 <= w < |run.workers| && run.workers[w].Writing? {
      return Write(w, seq(NONCE_SIZE, _ => 0));
    }
    if run.feeding {
      if run.sent == |r.hashes| {
        return CloseJobs;
      }
      if GroupDone(run) {
        return FeederGivesUp;
      }
      assert run.workers[0] == Waiting;
      return Deliver(0);
    }
    if w :| 0 <= w < |run.workers| && run.workers[w] == Waiting {
      return Drain(w);
    }
    assert Joined(run);
    return if run.failed then JoinFailed else CheckContext;
  }

  lemma {:induction false} ReachesCommitting(p: Primitives, r: Rotation, before: Store, run: Run)
    returns (actions: seq<Action>)
    requires Lawful(p) && Prepared(p, r, before) && Inv(p, r, before, run)
    requires run.phase == Copying && !GroupDone(run) && !run.committed
    ensures Exec(p, r, run, actions).Some?
    ensures var end := Exec(p, r, run, actions).value;
            end.phase == Committing && !end.committed && Inv(p, r, before, end)
    ensures forall i | 0 <= i < |actions| :: !actions[i].DeleteNew?
    decreases Measure(r, run)
  {
    var a := Progress(p, r, before, run);
    var next := Apply(p, r, run, a);
    StepDecreases(p, r, run, a);
    StepInv(p, r, before, run, a);
    if a.CheckContext? {
      assert Exec(p, r, run, [a]) == Some(next) by { assert [a][1..] == []; }
      return [a];
    }
    var rest := ReachesCommitting(p, r, before, next);
    actions := [a] + rest;
    assert actions[1..] == rest;
  }

  /** Some schedule, in which nothing is deleted, commits a run from wherever it is. */
  lemma ReachesCommit(p: Primitives, r: Rotation, before: Store, run: Run) returns (actions: seq<Action>)
    requires Lawful(p) && Prepared(p, r, before) && Inv(p, r, before, run)
    requires run.phase == Copying && !GroupDone(run) && !run.committed
    ensures Exec(p, r, run, actions).Some? && Exec(p, r, run, actions).value.committed
    ensures !AnyDeleteNew(actions) && !DeletesAfterLoss(actions)
  {
    var first := ReachesCommitting(p, r, before, run);
    var end := Exec(p, r, run, first).value;
    ExecAppend(p, r, run, first, [Commit]);
    assert [Commit][1..] == [] && Exec(p, r, end, [Commit]) == Some(Apply(p, r, end, Commit));
    actions := first + [Commit];
    NoneMeansNone(actions);
  }

  lemma {:induction false} NoneMeansNone(actions: seq<Action>)
    requires forall i | 0 <= i < |actions| :: !actions[i].DeleteNew?
    ensures !AnyDeleteNew(actions) && !DeletesAfterLoss(actions)
  {
    if actions != [] { NoneMeansNone(actions[1..]); }
  }

  /** No error and no cancellation so far, and none of their consequences. */
  predicate Undisturbed(run: Run) {
    !GroupDone(run) && run.phase != Aborting && (run.phase == Deleting || run.phase == Ended ==> run.committed)
  }

  predicate Faultless(actions: seq<Action>) { forall i | 0 <= i < |actions| :: !IsFault(actions[i]) }

  /** Left alone - no error, no cancellation - every schedule commits: whatever it is, a run that came to its end has
      committed. (No run is stuck before its end, and none goes on for ever.) */
  lemma {:induction false} UndisturbedCommits(p: Primitives, r: Rotation, run: Run, actions: seq<Action>)
    requires Undisturbed(run) && Exec(p, r, run, actions).Some? && Faultless(actions)
    ensures var end := Exec(p, r, run, actions).value; Undisturbed(end) && (end.phase == Ended ==> end.committed)
    decreases |actions|
  {
    if actions != [] {
      assert !IsFault(actions[0]);
      UndisturbedCommits(p, r, Apply(p, r, run, actions[0]), actions[1..]);
    }
  }

  /** The abort of a committed rotation is no idle worry: every rotation of anything has a run that loses an object. */
  lemma LostReplyCanDelete(p: Primitives, r: Rotation, before: Store)
    requires Lawful(p) && Prepared(p, r, before) && r.hashes != []
    ensures exists actions :: Exec(p, r, Start(r, before), actions).Some?
                              && !ConfiguredComplete(r, Exec(p, r, Start(r, before), actions).value)
  {
    StartInv(p, r, before);
    var actions := ReachesCommitting(p, r, before, Start(r, before));
    LostReplyDeletes(p, r, before, actions);
  }

  lemma LostReplyDeletes(p: Primitives, r: Rotation, before: Store, actions: seq<Action>)
    requires r.hashes != [] && Exec(p, r, Start(r, before), actions).Some?
    requires var end := Exec(p, r, Start(r, before), actions).value;
             end.phase == Committing && Inv(p, r, before, end)
    ensures exists more :: Exec(p, r, Start(r, before), more).Some?
                           && !ConfiguredComplete(r, Exec(p, r, Start(r, before), more).value)
  {
    var end := Exec(p, r, Start(r, before), actions).value;
    var hash := r.hashes[0];
    assert Holds(p, end.store, Generation(r.next), r.newKey, hash);
    var lost := Apply(p, r, end, CommitReplyLost);
    var gone := Apply(p, r, lost, DeleteNew(hash));
    var tail := [CommitReplyLost, DeleteNew(hash)];
    assert tail[1..] == [DeleteNew(hash)] && tail[1..][1..] == [];
    assert Exec(p, r, lost, [DeleteNew(hash)]) == Some(gone);
    assert Exec(p, r, end, tail) == Some(gone);
    ExecAppend(p, r, Start(r, before), actions, tail);
    assert ObjectId(Generation(Configured(r, gone)), hash) !in gone.store;
  }

  lemma {:induction false} ExecAppend(p: Primitives, r: Rotation, run: Run, a: seq<Action>, b: seq<Action>)
    requires Exec(p, r, run, a).Some?
    ensures Exec(p, r, run, a + b) == Exec(p, r, Exec(p, r, run, a).value, b)
    decreases |a|
  {
    if a == [] {
      assert a + b == b;
    } else {
      assert (a + b)[0] == a[0] && (a + b)[1..] == a[1..] + b;
      ExecAppend(p, r, Apply(p, r, run, a[0]), a[1..], b);
    }
  }
}
