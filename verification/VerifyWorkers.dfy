/**
  The feeder and the workers of a verification over the repository's objects: what VerifyPool's actions do is what these
  methods do, file by file, in whatever order the scheduler picks.
 */
module VerifyWorkers {
  import opened Outcomes
  import opened Primitives
  import opened Files
  import opened ObjectKeys
  import opened Objects
  import opened S3Objects
  import opened VerifyPool

  /** Whose turn it is, and how reading goes for a worker's file. */
  datatype Turn = Send(worker: nat) | FeederLeaves | Work(worker: nat, looks: nat -> Look) | WorkerLeaves(worker: nat)
                | CallerCancels

  /** Nothing is read any more once the context is done. */
  function LooksWhen(cancelled: bool, looks: nat -> Look): nat -> Look {
    if cancelled then (k: nat) => Unanswered else looks
  }

  function CheckedUnder(p: Primitives, v: Snapshot, run: Run, i: nat, looks: nat -> Look): Result<Option<Reason>>
    requires i < |v.files|
  {
    CheckUnder(p, v.store, v.space, v.key, v.files[i], LooksWhen(run.cancelled, looks))
  }

  function ActionOf(p: Primitives, v: Snapshot, run: Run, turn: Turn): Action {
    match turn
    case Send(w) => Deliver(w)
    case FeederLeaves => if run.next == |v.files| then CloseFeed else StopFeeding
    case Work(w, looks) =>
      if w < |run.workers| && run.workers[w].Verifying? && run.workers[w].file < |v.files|
         && CheckedUnder(p, v, run, run.workers[w].file, looks).Err?
      then Break(w) else Check(w)
    case WorkerLeaves(w) => Leave(w)
    case CallerCancels => Cancel
  }

  /** A turn nobody can take passes. */
  function Next(p: Primitives, v: Snapshot, run: Run, turn: Turn): Run {
    var a := ActionOf(p, v, run, turn);
    if Enabled(p, v, run, a) then Apply(p, v, run, a) else run
  }

  /** The turns of a schedule, until everybody left. */
  function Follow(p: Primitives, v: Snapshot, run: Run, schedule: seq<Turn>): Run
    decreases |schedule|
  {
    if schedule == [] || AllExited(run) then run else Follow(p, v, Next(p, v, run, schedule[0]), schedule[1..])
  }

  // Schedules are runs of the protocol

  ghost predicate Reached(p: Primitives, v: Snapshot, most: nat, run: Run) {
    !run.ended && exists actions :: Exec(p, v, Start(v, most), actions) == Some(run)
  }

  lemma StartReached(p: Primitives, v: Snapshot, most: nat)
    ensures Reached(p, v, most, Start(v, most))
  {
    assert Exec(p, v, Start(v, most), []) == Some(Start(v, most));
  }

  lemma {:induction false} ExecSnoc(p: Primitives, v: Snapshot, run: Run, actions: seq<Action>, a: Action)
    requires Exec(p, v, run, actions).Some? && Enabled(p, v, Exec(p, v, run, actions).value, a)
    ensures Exec(p, v, run, actions + [a]) == Some(Apply(p, v, Exec(p, v, run, actions).value, a))
    decreases |actions|
  {
    if actions == [] {
      assert actions + [a] == [a] && [a][1..] == [];
    } else {
      assert (actions + [a])[0] == actions[0] && (actions + [a])[1..] == actions[1..] + [a];
      ExecSnoc(p, v, Apply(p, v, run, actions[0]), actions[1..], a);
    }
  }

  lemma NextReached(p: Primitives, v: Snapshot, most: nat, run: Run, turn: Turn)
    requires Reached(p, v, most, run)
    ensures Reached(p, v, most, Next(p, v, run, turn))
  {
    var a := ActionOf(p, v, run, turn);
    if Enabled(p, v, run, a) {
      var actions :| Exec(p, v, Start(v, most), actions) == Some(run);
      ExecSnoc(p, v, Start(v, most), actions, a);
      assert Exec(p, v, Start(v, most), actions + [a]) == Some(Apply(p, v, run, a));
    }
  }

  /** Whatever the scheduler and the environment do, what the workers do is a run of the protocol. */
  lemma {:induction false} FollowIsRun(p: Primitives, v: Snapshot, most: nat, run: Run, schedule: seq<Turn>)
    requires Reached(p, v, most, run)
    ensures Reached(p, v, most, Follow(p, v, run, schedule))
    decreases |schedule|
  {
    if schedule != [] && !AllExited(run) {
      NextReached(p, v, most, run, schedule[0]);
      FollowIsRun(p, v, most, Next(p, v, run, schedule[0]), schedule[1..]);
    }
  }

  /** The caller does not cancel, and the service answers. */
  ghost predicate Calm(turn: Turn) { (turn.Work? ==> AllWhole(turn.looks)) && !turn.CallerCancels? }

  ghost predicate AllCalm(schedule: seq<Turn>) { forall i | 0 <= i < |schedule| :: Calm(schedule[i]) }

  /** Left alone, and with no file that cannot be checked, no worker fails. */
  lemma {:induction false} CalmRun(p: Primitives, v: Snapshot, run: Run, schedule: seq<Turn>)
    requires AllCalm(schedule) && AllChecked(p, v, |v.files|) && !run.failed && !run.cancelled && !run.external
    ensures var end := Follow(p, v, run, schedule); !end.failed && !end.external
    decreases |schedule|
  {
    if schedule != [] && !AllExited(run) {
      var turn := schedule[0];
      assert Calm(turn);
      CalmStep(p, v, run, turn);
      CalmRun(p, v, Next(p, v, run, turn), schedule[1..]);
    }
  }

  lemma CalmStep(p: Primitives, v: Snapshot, run: Run, turn: Turn)
    requires Calm(turn) && AllChecked(p, v, |v.files|) && !run.failed && !run.cancelled && !run.external
    ensures var next := Next(p, v, run, turn); !next.failed && !next.cancelled && !next.external
  {
    if turn.Work? && turn.worker < |run.workers| && run.workers[turn.worker].Verifying?
       && run.workers[turn.worker].file < |v.files| {
      var i := run.workers[turn.worker].file;
      CheckUnderAgrees(p, v.store, v.space, v.key, v.files[i], turn.looks);
      assert CheckedFile(p, v, i).Ok? && LooksWhen(run.cancelled, turn.looks) == turn.looks;
    }
  }

  ghost predicate Uncancelled(schedule: seq<Turn>) { forall i | 0 <= i < |schedule| :: !schedule[i].CallerCancels? }

  lemma {:induction false} UncancelledRun(p: Primitives, v: Snapshot, run: Run, schedule: seq<Turn>)
    requires Uncancelled(schedule) && !run.external
    ensures !Follow(p, v, run, schedule).external
    decreases |schedule|
  {
    if schedule != [] && !AllExited(run) {
      assert !schedule[0].CallerCancels?;
      UncancelledRun(p, v, Next(p, v, run, schedule[0]), schedule[1..]);
    }
  }

  // Schedules end

  /** The turn an action takes, when the service answers. */
  function TurnOf(v: Snapshot, run: Run, a: Action): Turn {
    match a
    case Deliver(w) => Send(w)
    case StopFeeding => FeederLeaves
    case CloseFeed => FeederLeaves
    case Check(w) => Work(w, (k: nat) => Whole)
    case Break(w) => Work(w, (k: nat) => Whole)
    case Leave(w) => WorkerLeaves(w)
    case Cancel => CallerCancels
    case Finish => FeederLeaves
  }

  /** Before everybody left, there is somebody whose turn brings the run nearer to its end. */
  lemma SomeTurnMoves(p: Primitives, v: Snapshot, run: Run) returns (turn: Turn)
    requires Inv(p, v, run) && !run.ended && !AllExited(run)
    ensures Calm(turn) && Measure(v, Next(p, v, run, turn)) < Measure(v, run)
    ensures Inv(p, v, Next(p, v, run, turn)) && !Next(p, v, run, turn).ended
  {
    var a := Progress(p, v, run);
    turn := TurnOf(v, run, a);
    var taken := ActionOf(p, v, run, turn);
    assert Enabled(p, v, run, taken);
    StepDecreases(p, v, run, taken);
    StepInv(p, v, run, taken);
  }

  /** So from wherever a run is, some calm schedule lets everybody leave; no file, and no verdict on it, holds a worker
      back. */
  lemma {:induction false} SomeScheduleEnds(p: Primitives, v: Snapshot, run: Run) returns (schedule: seq<Turn>)
    requires Inv(p, v, run) && !run.ended
    ensures AllCalm(schedule) && AllExited(Follow(p, v, run, schedule))
    decreases Measure(v, run)
  {
    schedule := [];
    if !AllExited(run) {
      var turn := SomeTurnMoves(p, v, run);
      var rest := SomeScheduleEnds(p, v, Next(p, v, run, turn));
      schedule := [turn] + rest;
      assert schedule[1..] == rest;
    }
  }

  lemma VerdictReported(p: Primitives, v: Snapshot, run: Run, w: nat, looks: nat -> Look)
    requires !run.ended && w < |run.workers| && run.workers[w].Verifying? && run.workers[w].file < |v.files|
    ensures var i := run.workers[w].file;
            var checked, idle := CheckedUnder(p, v, run, i, looks), run.(workers := run.workers[w := Idle]);
            Next(p, v, run, Work(w, looks)) ==
              if checked.Err? then idle.(failed := true, cancelled := true)
              else idle.(total := run.total + 1, log := run.log + [i],
                         failures := if checked.value == None then run.failures
                                     else run.failures + [Failure(v.files[i].path, checked.value.value)])
  {
    CheckUnderAgrees(p, v.store, v.space, v.key, v.files[run.workers[w].file], LooksWhen(run.cancelled, looks));
  }

  /** The channel, the feeder and the workers of one verification. */
  class Pool {
    const p: Primitives
    const repository: ObjectRepository
    const files: seq<FileRecord>
    const key: Bytes
    const generation: nat
    var workers: seq<Worker>
    var sent: nat
    var feeding: bool
    var total: nat
    var failures: seq<Failure>
    var failed: bool
    var cancelled: bool
    var external: bool
    ghost const v: Snapshot
    ghost const most: nat
    ghost var log: seq<nat>

    ghost function Now(): Run
      reads this
    {
      Run(workers, sent, feeding, total, failures, failed, cancelled, external, false, log)
    }

    /** What does not change: `v.store` is what the bucket shows of the files' parts. */
    ghost predicate Given()
      reads repository
    {
      && repository.p == p && v.files == files && v.key == key && v.space == SpaceFor(key, generation)
      && forall i | 0 <= i < |files| :: repository.ShowsParts(v.store, v.space, Parts(files[i]))
    }

    ghost predicate Valid()
      reads this, repository
    {
      Given() && Reached(p, v, most, Now())
    }

    constructor (repository: ObjectRepository, files: seq<FileRecord>, key: Bytes, generation: nat, most: nat,
                 ghost seen: Store)
      requires forall i | 0 <= i < |files| :: repository.ShowsParts(seen, SpaceFor(key, generation), Parts(files[i]))
      ensures Valid() && this.repository == repository && p == repository.p && this.most == most
      ensures v == Snapshot(files, seen, SpaceFor(key, generation), key) && Now() == Start(v, most)
    {
      var width := if most > |files| then |files| else most;
      this.p, this.repository, this.files, this.key, this.generation := repository.p, repository, files, key,
      generation;
      this.workers := seq(if width < 1 then 1 else width, _ => Idle);
      this.sent, this.feeding, this.total, this.failures := 0, true, 0, [];
      this.failed, this.cancelled, this.external, this.log := false, false, false, [];
      this.v, this.most := Snapshot(files, seen, SpaceFor(key, generation), key), most;
      StartReached(repository.p, Snapshot(files, seen, SpaceFor(key, generation), key), most);
    }

    /** The feeder hands the next file to an idle worker. */
    method HandOut(w: nat)
      requires Valid()
      modifies this
      ensures Valid() && Now() == Next(p, v, old(Now()), Send(w))
    {
      NextReached(p, v, most, Now(), Send(w));
      if feeding && sent < |files| && w < |workers| && workers[w] == Idle {
        workers := workers[w := Verifying(sent)];
        sent := sent + 1;
      }
    }

    /** The feeder leaves its loop: every file was handed out, or it saw the context done; the channel is closed. */
    method CloseChannel()
      requires Valid()
      modifies this
      ensures Valid() && Now() == Next(p, v, old(Now()), FeederLeaves)
    {
      NextReached(p, v, most, Now(), FeederLeaves);
      if feeding && (sent == |files| || cancelled) {
        feeding := false;
      }
    }

    method CallerCancels()
      requires Valid()
      modifies this
      ensures Valid() && Now() == Next(p, v, old(Now()), Turn.CallerCancels)
    {
      NextReached(p, v, most, Now(), Turn.CallerCancels);
      if !external {
        cancelled, external := true, true;
      }
    }

    method Return(w: nat)
      requires Valid()
      modifies this
      ensures Valid() && Now() == Next(p, v, old(Now()), WorkerLeaves(w))
    {
      NextReached(p, v, most, Now(), WorkerLeaves(w));
      if !feeding && w < |workers| && workers[w] == Idle {
        workers := workers[w := Exited];
      }
    }

    /** A worker checks its file: an error cancels the rest, a reason is a failed file, anything else a good one. */
    method CheckOne(w: nat, looks: nat -> Look)
      requires Valid() && w < |workers| && workers[w].Verifying? && workers[w].file < |files|
      modifies this
      ensures Valid() && Now() == Next(p, v, old(Now()), Work(w, looks))
    {
      NextReached(p, v, most, Now(), Work(w, looks));
      VerdictReported(p, v, Now(), w, looks);
      var checked := CheckFile(repository, files[workers[w].file], key, generation, LooksWhen(cancelled, looks),
                               v.store);
      ReportOne(w, checked);
    }

    method ReportOne(w: nat, checked: Result<Option<Reason>>)
      requires w < |workers| && workers[w].Verifying? && workers[w].file < |files|
      modifies this
      ensures var i, idle := old(workers[w].file), old(Now().(workers := workers[w := Idle]));
              Now() == if checked.Err? then idle.(failed := true, cancelled := true)
                       else idle.(total := idle.total + 1, log := idle.log + [i],
                                  failures := if checked.value == None then idle.failures
                                              else idle.failures + [Failure(files[i].path, checked.value.value)])
    {
      var i := workers[w].file;
      workers := workers[w := Idle];
      if checked.Err? {
        failed, cancelled := true, true;
      } else {
        total, log := total + 1, log + [i];
        if checked.value.Some? {
          failures := failures + [Failure(files[i].path, checked.value.value)];
        }
      }
    }

    /** One turn of the scheduler; a turn nobody can take passes. */
    method TakeTurn(turn: Turn)
      requires Valid()
      modifies this
      ensures Valid() && Now() == Next(p, v, old(Now()), turn)
    {
      match turn
      case Send(w) => HandOut(w);
      case FeederLeaves => CloseChannel();
      case Work(w, looks) =>
        if w < |workers| && workers[w].Verifying? && workers[w].file < |files| {
          CheckOne(w, looks);
        }
      case WorkerLeaves(w) => Return(w);
      case CallerCancels => CallerCancels();
    }

    predicate AllReturned()
      reads this
    {
      !feeding && forall w | 0 <= w < |workers| :: workers[w] == Exited
    }

    /** Turns are taken until the feeder and all workers returned; a schedule that ends earlier is a crash. */
    method VerifyFiles(schedule: seq<Turn>) returns (finished: bool)
      requires Valid()
      modifies this
      ensures Valid() && Now() == Follow(p, v, old(Now()), schedule) && (finished <==> AllExited(Now()))
    {
      ghost var end := Follow(p, v, Now(), schedule);
      for i := 0 to |schedule|
        invariant Valid() && Follow(p, v, Now(), schedule[i..]) == end
      {
        if AllReturned() {
          return true;
        }
        TakeTurn(schedule[i]);
        assert schedule[i..][1..] == schedule[i + 1..];
      }
      assert schedule[|schedule|..] == [];
      return AllReturned();
    }
  }
}
