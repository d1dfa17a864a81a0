/**
  Concurrent creates refine the sequential one: whatever the number of workers and their schedule, a published create
  leaves the same manifest and the same objects, with the same content, as the run of a single worker.
 */
module CreateAgreement {
  import opened Outcomes
  import opened Primitives
  import opened Files
  import opened ObjectKeys
  import opened Objects
  import opened CreatePool

  /** The place of some part of some file, as a single worker would calculate it. */
  ghost predicate IsPlace(p: Primitives, b: Backup, id: ObjectId) {
    exists i, k :: IsPlaceOf(p, b, id, i, k)
  }

  predicate IsPlaceOf(p: Primitives, b: Backup, id: ObjectId, i: nat, k: nat) {
    i < |b.sources| && k < |Parts(Expected(p, b, i))| && id == Place(b, Parts(Expected(p, b, i))[k])
  }

  /** Nothing but the files' own parts is ever added. */
  ghost predicate OnlyPlaces(p: Primitives, b: Backup, before: Store, store: Store) {
    forall id :: id in store && id !in before ==> IsPlace(p, b, id)
  }

  lemma PutIsPlace(p: Primitives, b: Backup, run: Run, w: nat, seal: Option<Bytes>)
    requires PoolInv(p, b, run) && CanPut(p, b, run, w, seal)
    ensures IsPlace(p, b, Place(b, PartAt(b, run, w)))
  {
    assert WorkerOk(p, b, run, run.workers[w]);
    assert IsPlaceOf(p, b, Place(b, PartAt(b, run, w)), run.workers[w].file, run.workers[w].part);
  }

  lemma StoredOnlyPlaces(p: Primitives, b: Backup, before: Store, run: Run, w: nat, seal: Option<Bytes>)
    requires PoolInv(p, b, run) && CanPut(p, b, run, w, seal) && OnlyPlaces(p, b, before, run.store)
    ensures OnlyPlaces(p, b, before, Stored(p, b, run, w, seal).store)
  {
    PutIsPlace(p, b, run, w, seal);
  }

  lemma StepPlaces(p: Primitives, b: Backup, before: Store, run: Run, a: Action)
    requires Inv(p, b, before, run) && Enabled(p, b, run, a) && OnlyPlaces(p, b, before, run.store)
    ensures OnlyPlaces(p, b, before, Apply(p, b, run, a).store)
  {
    if a.Put? || a.PutLost? {
      PutMoves(p, b, run, a);
      StoredOnlyPlaces(p, b, before, run, a.worker, a.seal);
    } else if IsWorkerAction(a) {
      PlainMoves(p, b, run, a);
    } else {
      OtherActions(p, b, run, a);
    }
  }

  lemma {:induction false} ExecPlaces(p: Primitives, b: Backup, before: Store, run: Run, actions: seq<Action>)
    requires Lawful(p) && Prepared(b) && Inv(p, b, before, run) && OnlyPlaces(p, b, before, run.store)
    requires Exec(p, b, run, actions).Some?
    ensures OnlyPlaces(p, b, before, Exec(p, b, run, actions).value.store)
    decreases |actions|
  {
    if actions != [] {
      StepInv(p, b, before, run, actions[0]);
      StepPlaces(p, b, before, run, actions[0]);
      ExecPlaces(p, b, before, Apply(p, b, run, actions[0]), actions[1..]);
    }
  }

  /** What a published create leaves, said without its schedule: every file as calculated, every object that was there
      and the places of all parts, and nothing else. */
  ghost predicate IsComplete(p: Primitives, b: Backup, before: Store, end: Run) {
    && (|end.files| == |b.sources| && forall i | 0 <= i < |b.sources| :: end.files[i] == Expected(p, b, i))
    && (forall id :: id in end.store <==> id in before || IsPlace(p, b, id))
    && (forall id :: id in before ==> end.store[id] == before[id])
    && NewAreNamed(p, b, before, end.store)
  }

  lemma PublishedIsComplete(p: Primitives, b: Backup, before: Store, workers: nat, actions: seq<Action>)
    requires Lawful(p) && Prepared(b) && Exec(p, b, Start(b, before, workers), actions).Some?
    requires Exec(p, b, Start(b, before, workers), actions).value.published
    ensures IsComplete(p, b, before, Exec(p, b, Start(b, before, workers), actions).value)
  {
    var end := Exec(p, b, Start(b, before, workers), actions).value;
    StartInv(p, b, before, workers);
    ExecInv(p, b, before, Start(b, before, workers), actions);
    ExecPlaces(p, b, before, Start(b, before, workers), actions);
    forall i | 0 <= i < |b.sources| ensures end.files[i] == Expected(p, b, i) { assert FileDone(p, b, end, i); }
    forall id | IsPlace(p, b, id) ensures id in end.store {
      var i, k :| IsPlaceOf(p, b, id, i, k);
      assert FileDone(p, b, end, i);
    }
  }

  /** Two published creates of the same files over the same store, whatever is in it - with any numbers of workers, in
      any schedules, one of them the sequential one, say - publish the same files and leave the same objects; what was
      there is untouched, and what is new opens to the same content, if both sealed it. */
  lemma SchedulesAgree(p: Primitives, b: Backup, before: Store, workers: nat, actions: seq<Action>, others: nat,
                       schedule: seq<Action>)
    requires Lawful(p) && Prepared(b)
    requires Exec(p, b, Start(b, before, workers), actions).Some?
             && Exec(p, b, Start(b, before, others), schedule).Some?
    requires Exec(p, b, Start(b, before, workers), actions).value.published
    requires Exec(p, b, Start(b, before, others), schedule).value.published
    ensures var x := Exec(p, b, Start(b, before, workers), actions).value;
            var y := Exec(p, b, Start(b, before, others), schedule).value;
            && x.files == y.files
            && x.store.Keys == y.store.Keys
            && (forall id | id in x.store :: id.space != b.space ==> x.store[id] == y.store[id])
            && (forall id | id in before :: id in x.store && x.store[id] == y.store[id] == before[id])
            && (PutsSealed(b, actions) && PutsSealed(b, schedule) ==> SameContents(p, b, x.store, y.store))
  {
    var x := Exec(p, b, Start(b, before, workers), actions).value;
    var y := Exec(p, b, Start(b, before, others), schedule).value;
    PublishedIsComplete(p, b, before, workers, actions);
    PublishedIsComplete(p, b, before, others, schedule);
    CompleteAgree(p, b, before, x, y);
    if PutsSealed(b, actions) && PutsSealed(b, schedule) {
      StartInv(p, b, before, workers);
      StartInv(p, b, before, others);
      ExecSealed(p, b, before, Start(b, before, workers), actions);
      ExecSealed(p, b, before, Start(b, before, others), schedule);
      SealedAgree(p, b, before, x, y);
    }
  }

  ghost predicate SameContents(p: Primitives, b: Backup, x: Store, y: Store) {
    forall id | id in x && id in y && id.space == b.space :: Opened(p, b.key, x[id]) == Opened(p, b.key, y[id])
  }

  lemma CompleteAgree(p: Primitives, b: Backup, before: Store, x: Run, y: Run)
    requires Lawful(p) && IsComplete(p, b, before, x) && IsComplete(p, b, before, y)
    ensures x.files == y.files && x.store.Keys == y.store.Keys
    ensures forall id | id in x.store :: id.space != b.space ==> x.store[id] == y.store[id]
  {
    forall id ensures id in x.store.Keys <==> id in y.store.Keys {}
    forall id | id in x.store && id.space != b.space ensures x.store[id] == y.store[id] { PlaceIsInSpace(p, b, id); }
  }

  lemma SealedAgree(p: Primitives, b: Backup, before: Store, x: Run, y: Run)
    requires Lawful(p) && IsComplete(p, b, before, x) && IsComplete(p, b, before, y)
    requires NewAreSealed(b, before, x.store) && NewAreSealed(b, before, y.store)
    ensures SameContents(p, b, x.store, y.store)
  {
    forall id | id in x.store && id in y.store && id.space == b.space
      ensures Opened(p, b.key, x.store[id]) == Opened(p, b.key, y.store[id])
    {
      assert id == ObjectId(b.space, id.hash);
      assert id !in before ==> Names(p, b.key, x.store[id], id.hash) && Names(p, b.key, y.store[id], id.hash);
    }
  }

  lemma PlaceIsInSpace(p: Primitives, b: Backup, id: ObjectId)
    ensures IsPlace(p, b, id) ==> id.space == b.space
  {
  }
}
