/** Creates end: no schedule is stuck or endless, and exactly which backups can be published at all. */
module CreateLiveness {
  import opened Outcomes
  import opened Primitives
  import opened Sums
  import opened Files
  import opened ObjectKeys
  import opened Objects
  import opened CreatePool

  // Runs end

  function PartCount(p: Primitives, b: Backup, i: nat): nat {
    if i < |b.sources| then |Parts(Expected(p, b, i))| else 0
  }

  function Weight(p: Primitives, b: Backup, worker: Worker): nat {
    match worker
    case Exited => 0
    case Idle => 1
    case Hashing(i) => 3 + 3 * PartCount(p, b, i)
    case Checking(i, k, _) => 2 + 3 * (if k < PartCount(p, b, i) then PartCount(p, b, i) - k else 0)
    case Saving(i, k, _) => 1 + 3 * (if k < PartCount(p, b, i) then PartCount(p, b, i) - k else 0)
  }

  function WeightIn(p: Primitives, b: Backup): Worker -> nat { worker => Weight(p, b, worker) }

  /** The work in the files not yet handed out. */
  function Pending(p: Primitives, b: Backup, i: nat): nat
    decreases |b.sources| - i
  {
    if i >= |b.sources| then 0 else 3 + 3 * PartCount(p, b, i) + Pending(p, b, i + 1)
  }

  function PhaseWeight(phase: Phase): nat { match phase case Working => 2 case Publishing => 1 case Ended => 0 }

  function Measure(p: Primitives, b: Backup, run: Run): nat {
    Pending(p, b, run.next) + Sum(run.workers, WeightIn(p, b))
    + (if run.feeding then 1 else 0) + (if run.cancelled then 0 else 1) + PhaseWeight(run.phase)
  }

  lemma AdvanceLighter(p: Primitives, b: Backup, run: Run, w: nat, saved: nat)
    requires AtPart(b, run, w) && run.files[run.workers[w].file] == Expected(p, b, run.workers[w].file)
    ensures Measure(p, b, Advance(run, w, saved)) < Measure(p, b, run)
  {
    SumUpdate(run.workers, WeightIn(p, b), w, Advance(run, w, saved).workers[w]);
  }

  lemma FailingLighter(p: Primitives, b: Backup, run: Run, w: nat)
    requires w < |run.workers| && Busy(run.workers[w])
    requires (run.workers[w].Checking? || run.workers[w].Saving?) ==>
               run.workers[w].part < PartCount(p, b, run.workers[w].file)
    ensures Measure(p, b, Failing(run, w)) < Measure(p, b, run)
  {
    SumUpdate(run.workers, WeightIn(p, b), w, Idle);
  }

  lemma DeliverLighter(p: Primitives, b: Backup, run: Run, w: nat)
    requires Enabled(p, b, run, Deliver(w))
    ensures Measure(p, b, Apply(p, b, run, Deliver(w))) < Measure(p, b, run)
  {
    SumUpdate(run.workers, WeightIn(p, b), w, Hashing(run.next));
  }

  lemma PlainLighter(p: Primitives, b: Backup, run: Run, a: Action)
    requires PoolInv(p, b, run) && Enabled(p, b, run, a)
    requires a.Deliver? || a.Hash? || a.Miss? || a.Leave?
    ensures Measure(p, b, Apply(p, b, run, a)) < Measure(p, b, run)
  {
    if a.Deliver? {
      DeliverLighter(p, b, run, a.worker);
    } else {
      assert WorkerOk(p, b, run, run.workers[a.worker]);
      var worker := match a
        case Hash(w) => Checking(run.workers[w].file, 0, 0)
        case Miss(w) => Saving(run.workers[w].file, run.workers[w].part, run.workers[w].saved)
        case _ => Exited;
      LighterWorker(p, b, run, Apply(p, b, run, a), a.worker, worker);
    }
  }

  lemma LighterWorker(p: Primitives, b: Backup, run: Run, next: Run, w: nat, worker: Worker)
    requires w < |run.workers| && next.workers == run.workers[w := worker]
             && Weight(p, b, worker) < Weight(p, b, run.workers[w])
    requires next.next == run.next && next.feeding == run.feeding && next.cancelled == run.cancelled
             && next.phase == run.phase
    ensures Measure(p, b, next) < Measure(p, b, run)
  {
    SumUpdate(run.workers, WeightIn(p, b), w, worker);
  }

  lemma StoredWeighsTheSame(p: Primitives, b: Backup, run: Run, stored: Run)
    requires stored == run.(store := stored.store, born := stored.born)
    ensures Measure(p, b, stored) == Measure(p, b, run)
  {
  }

  lemma SavingIsCounted(p: Primitives, b: Backup, run: Run, w: nat)
    requires PoolInv(p, b, run) && AtPart(b, run, w)
    ensures run.files[run.workers[w].file] == Expected(p, b, run.workers[w].file)
    ensures run.workers[w].part < PartCount(p, b, run.workers[w].file)
  {
    assert WorkerOk(p, b, run, run.workers[w]);
  }

  lemma PutLighter(p: Primitives, b: Backup, run: Run, a: Action)
    requires PoolInv(p, b, run) && Enabled(p, b, run, a) && (a.Put? || a.PutLost?)
    ensures Measure(p, b, Apply(p, b, run, a)) < Measure(p, b, run)
  {
    ApplyPut(p, b, run, a);
    SavingIsCounted(p, b, run, a.worker);
    SettledLighter(p, b, run, a.worker, a.seal, Apply(p, b, run, a));
  }

  lemma SettledLighter(p: Primitives, b: Backup, run: Run, w: nat, seal: Option<Bytes>, next: Run)
    requires CanPut(p, b, run, w, seal) && run.files[run.workers[w].file] == Expected(p, b, run.workers[w].file)
    requires next == Advance(Stored(p, b, run, w, seal), w, run.workers[w].saved + PartAt(b, run, w).size)
             || next == Failing(Stored(p, b, run, w, seal), w)
    ensures Measure(p, b, next) < Measure(p, b, run)
  {
    var stored := Stored(p, b, run, w, seal);
    StoredGrows(p, b, run, w, seal);
    StoredWeighsTheSame(p, b, run, stored);
    AdvanceLighter(p, b, stored, w, run.workers[w].saved + PartAt(b, run, w).size);
    FailingLighter(p, b, stored, w);
  }

  lemma StepDecreases(p: Primitives, b: Backup, before: Store, run: Run, a: Action)
    requires Inv(p, b, before, run) && Enabled(p, b, run, a)
    ensures Measure(p, b, Apply(p, b, run, a)) < Measure(p, b, run)
  {
    if a.Put? || a.PutLost? {
      PutLighter(p, b, run, a);
    } else if a.Deliver? || a.Hash? || a.Miss? || a.Leave? {
      PlainLighter(p, b, run, a);
    } else if a.Hit? {
      assert WorkerOk(p, b, run, run.workers[a.worker]);
      AdvanceLighter(p, b, run, a.worker, run.workers[a.worker].saved);
    } else if a.Fail? {
      assert WorkerOk(p, b, run, run.workers[a.worker]);
      FailingLighter(p, b, run, a.worker);
    } else {
      OtherActions(p, b, run, a);
    }
  }

  /** No schedule goes on for ever; a bound on its length is known when it starts. */
  lemma {:induction false} RunsAreBounded(p: Primitives, b: Backup, before: Store, run: Run, actions: seq<Action>)
    requires Lawful(p) && Prepared(b) && Inv(p, b, before, run) && Exec(p, b, run, actions).Some?
    ensures |actions| <= Measure(p, b, run)
    decreases |actions|
  {
    if actions != [] {
      StepInv(p, b, before, run, actions[0]);
      StepDecreases(p, b, before, run, actions[0]);
      RunsAreBounded(p, b, before, Apply(p, b, run, actions[0]), actions[1..]);
    }
  }

  // No run is stuck

  predicate IsFault(a: Action) { a.Cancel? || a.Fail? || a.PutLost? || a.PublishRefused? || a.PublishLost? }

  /** Format two cannot store the chunk of an empty file, so its object must already be there. */
  predicate EmptyFilesStored(p: Primitives, b: Backup, before: Store) {
    b.format == 1 || forall i | 0 <= i < |b.sources| :: b.sources[i].content == [] ==>
        ObjectId(b.space, HashOf(p, b.comp, [])) in before
  }

  const SOME_NONCE := Some(seq(NONCE_SIZE, _ => 0 as byte))

  lemma SavingCanPut(p: Primitives, b: Backup, before: Store, run: Run, w: nat, seal: Option<Bytes>)
    requires Prepared(b) && PoolInv(p, b, run) && SavesMissing(b, before, run)
             && EmptyFilesStored(p, b, before)
    requires w < |run.workers| && run.workers[w].Saving? && SealFits(b, seal)
    ensures CanPut(p, b, run, w, seal)
  {
    var i := run.workers[w].file;
    var content, part := b.sources[i].content, PartAt(b, run, w);
    assert WorkerOk(p, b, run, run.workers[w]);
    CalculatedParts(p, b.format, b.comp, b.sources[i]);
    assert IsPartOf(p, b.comp, content, part);
    if b.format == 2 {
      var section := content[part.offset..part.offset + part.size];
      assert |section| == part.size;
      EmptyPartOnlyOfEmptyFile(p, b, i, run.workers[w].part);
    }
  }

  lemma EmptyPartOnlyOfEmptyFile(p: Primitives, b: Backup, i: nat, k: nat)
    requires b.format == 2 && i < |b.sources| && k < |Parts(Expected(p, b, i))|
    ensures Parts(Expected(p, b, i))[k].size == 0 ==> b.sources[i].content == []
  {
    var content := b.sources[i].content;
    if |content| >= CHUNK_THRESHOLD {
      ChunksTile(p, b.comp, content, CHUNK_SIZE, 0);
    }
  }

  lemma WorkerProgress(p: Primitives, b: Backup, before: Store, run: Run, w: nat) returns (a: Action)
    requires Prepared(b) && PoolInv(p, b, run) && SavesMissing(b, before, run)
    requires run.phase == Working && w < |run.workers| && Busy(run.workers[w])
    ensures Enabled(p, b, run, a) && ActionSealed(b, a)
    ensures !IsFault(a) || (a == Fail(w) && !EmptyFilesStored(p, b, before))
  {
    assert WorkerOk(p, b, run, run.workers[w]);
    if run.workers[w].Hashing? {
      return Hash(w);
    }
    if run.workers[w].Checking? {
      return if Place(b, PartAt(b, run, w)) in run.store then Hit(w) else Miss(w);
    }
    if EmptyFilesStored(p, b, before) {
      SavingCanPut(p, b, before, run, w, SOME_NONCE);
      return Put(w, SOME_NONCE);
    }
    return if CanPut(p, b, run, w, SOME_NONCE) then Put(w, SOME_NONCE) else Fail(w);
  }

  /** Every state of every create that is not final has a next step. It is neither a failure nor a cancellation, unless
      a worker has to refuse an empty file in format two. */
  lemma Progress(p: Primitives, b: Backup, before: Store, run: Run) returns (a: Action)
    requires Prepared(b) && Inv(p, b, before, run) && run.phase != Ended
    ensures Enabled(p, b, run, a) && ActionSealed(b, a)
    ensures !IsFault(a) || (a.Fail? && !EmptyFilesStored(p, b, before))
  {
    if run.phase == Publishing {
      return Publish;
    }
    if w :| 0 <= w < |run.workers| && Busy(run.workers[w]) {
      a := WorkerProgress(p, b, before, run, w);
      return;
    }
    if run.feeding {
      if run.next == |b.sources| {
        return CloseFeed;
      }
      assert run.workers[0] == Idle;
      return Deliver(0);
    }
    if w :| 0 <= w < |run.workers| && run.workers[w] == Idle {
      return Leave(w);
    }
    assert AllExited(run);
    return if run.failed then ReportError else CheckContext;
  }

  /** No error and no cancellation so far, and no end but by publishing. */
  predicate Undisturbed(run: Run) { !run.failed && !run.cancelled && (run.phase == Ended ==> run.published) }

  predicate Faultless(actions: seq<Action>) { forall i | 0 <= i < |actions| :: !IsFault(actions[i]) }

  lemma UndisturbedStep(p: Primitives, b: Backup, run: Run, a: Action)
    requires Undisturbed(run) && Enabled(p, b, run, a) && !IsFault(a)
    ensures Undisturbed(Apply(p, b, run, a))
  {
    if a.Put? { ApplyPut(p, b, run, a); StoredGrows(p, b, run, a.worker, a.seal); }
  }

  /** Left alone - no error, no cancellation - every schedule publishes: whatever it is, a run that came to its end has
      published. (No run is stuck before its end, and none goes on for ever.) */
  lemma {:induction false} UndisturbedPublishes(p: Primitives, b: Backup, run: Run, actions: seq<Action>)
    requires Undisturbed(run) && Exec(p, b, run, actions).Some? && Faultless(actions)
    ensures var end := Exec(p, b, run, actions).value; Undisturbed(end) && (end.phase == Ended ==> end.published)
    decreases |actions|
  {
    if actions != [] {
      assert !IsFault(actions[0]);
      UndisturbedStep(p, b, run, actions[0]);
      UndisturbedPublishes(p, b, Apply(p, b, run, actions[0]), actions[1..]);
    }
  }

  /** Some schedule publishes, from wherever the run is. */
  lemma {:induction false} ReachesPublish(p: Primitives, b: Backup, before: Store, run: Run)
    returns (actions: seq<Action>)
    requires Lawful(p) && Prepared(b) && Inv(p, b, before, run) && EmptyFilesStored(p, b, before)
    requires run.phase != Ended && !run.failed && !run.cancelled
    ensures Exec(p, b, run, actions).Some? && Exec(p, b, run, actions).value.published && PutsSealed(b, actions)
    decreases Measure(p, b, run)
  {
    var a := Progress(p, b, before, run);
    var next := Apply(p, b, run, a);
    StepDecreases(p, b, before, run, a);
    StepInv(p, b, before, run, a);
    if a.Publish? {
      assert Exec(p, b, run, [a]) == Some(next) by { assert [a][1..] == []; }
      return [a];
    }
    CleanStep(p, b, run, a);
    var rest := ReachesPublish(p, b, before, next);
    actions := [a] + rest;
    assert actions[1..] == rest;
  }

  lemma CleanStep(p: Primitives, b: Backup, run: Run, a: Action)
    requires Enabled(p, b, run, a) && !IsFault(a) && !a.Publish? && !run.failed && !run.cancelled && run.phase != Ended
    ensures var next := Apply(p, b, run, a); !next.failed && !next.cancelled && next.phase != Ended
  {
    if a.Put? { StoredGrows(p, b, run, a.worker, a.seal); }
  }

  // What cannot be published

  /** The empty section's object is never put by format two. */
  lemma EmptyStaysAbsent(p: Primitives, b: Backup, run: Run, a: Action)
    requires Lawful(p) && b.format == 2 && Enabled(p, b, run, a) && Shape(b, run)
    requires ObjectId(b.space, HashOf(p, b.comp, [])) !in run.store
    ensures ObjectId(b.space, HashOf(p, b.comp, [])) !in Apply(p, b, run, a).store
  {
    if a.Put? || a.PutLost? {
      PutMoves(p, b, run, a);
      NonEmptyHash(p, b, run, a.worker, a.seal);
    } else if IsWorkerAction(a) {
      PlainMoves(p, b, run, a);
    } else {
      OtherActions(p, b, run, a);
    }
  }

  lemma NonEmptyHash(p: Primitives, b: Backup, run: Run, w: nat, seal: Option<Bytes>)
    requires Lawful(p) && b.format == 2 && CanPut(p, b, run, w, seal)
    ensures PartAt(b, run, w).hash != HashOf(p, b.comp, [])
  {
    var part := PartAt(b, run, w);
    HashInjective(p, b.comp, b.sources[run.workers[w].file].content[part.offset..part.offset + part.size], []);
  }

  lemma {:induction false} EmptyNeverStored(p: Primitives, b: Backup, before: Store, run: Run, actions: seq<Action>)
    requires Lawful(p) && Prepared(b) && b.format == 2 && Inv(p, b, before, run)
    requires ObjectId(b.space, HashOf(p, b.comp, [])) !in run.store && Exec(p, b, run, actions).Some?
    ensures ObjectId(b.space, HashOf(p, b.comp, [])) !in Exec(p, b, run, actions).value.store
    decreases |actions|
  {
    if actions != [] {
      StepInv(p, b, before, run, actions[0]);
      var next := Apply(p, b, run, actions[0]);
      if IsWorkerAction(actions[0]) || run.phase == Working {
        EmptyStaysAbsent(p, b, run, actions[0]);
      } else {
        OtherActions(p, b, run, actions[0]);
      }
      EmptyNeverStored(p, b, before, next, actions[1..]);
    }
  }

  /** A backup can be published by some schedule exactly when the format is one, or no file is empty whose object was
      not already stored. */
  lemma PublishableExactly(p: Primitives, b: Backup, before: Store, workers: nat)
    requires Lawful(p) && Prepared(b)
    ensures (exists actions :: Exec(p, b, Start(b, before, workers), actions).Some?
                               && Exec(p, b, Start(b, before, workers), actions).value.published)
            <==> EmptyFilesStored(p, b, before)
  {
    StartInv(p, b, before, workers);
    if EmptyFilesStored(p, b, before) {
      var actions := ReachesPublish(p, b, before, Start(b, before, workers));
    } else {
      forall actions | Exec(p, b, Start(b, before, workers), actions).Some?
        ensures !Exec(p, b, Start(b, before, workers), actions).value.published
      {
        Unpublished(p, b, before, workers, actions);
      }
    }
  }

  lemma Unpublished(p: Primitives, b: Backup, before: Store, workers: nat, actions: seq<Action>)
    requires Lawful(p) && Prepared(b) && !EmptyFilesStored(p, b, before)
    requires Exec(p, b, Start(b, before, workers), actions).Some?
    ensures !Exec(p, b, Start(b, before, workers), actions).value.published
  {
    var i :| 0 <= i < |b.sources| && b.sources[i].content == [] && ObjectId(b.space, HashOf(p, b.comp, [])) !in before;
    StartInv(p, b, before, workers);
    EmptyNeverStored(p, b, before, Start(b, before, workers), actions);
    assert Parts(Expected(p, b, i))[0].hash == HashOf(p, b.comp, []);
    if Exec(p, b, Start(b, before, workers), actions).value.published {
      PublishedRestores(p, b, before, workers, actions, i);
    }
  }
}
