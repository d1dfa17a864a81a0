/**
  The feeder and the workers of a create over the repository's objects: what CreatePool's actions do is what these
  methods do, call by call, in whatever order the scheduler picks.
 */
module CreateWorkers {
  import opened Outcomes
  import opened Primitives
  import opened Files
  import opened ObjectKeys
  import opened Objects
  import opened S3Objects
  import opened CreatePool
  import CreateLiveness
  import CreateSizes
  import Sums

  /** What the environment does to a worker's turn. */
  datatype Luck = Luck(reading: Reading, answered: bool, entropy: Option<Bytes>, reply: Reply)

  /** Whose turn it is, and which ready case its select takes. */
  datatype Turn = Send(worker: nat) | FeederLeaves | Work(worker: nat, luck: Luck) | WorkerLeaves(worker: nat)
      | CallerCancels

  /** Entropy comes in nonces, if there is any. */
  predicate Fair(luck: Luck) { luck.entropy.Some? ==> |luck.entropy.value| == NONCE_SIZE }

  predicate AllFair(schedule: seq<Turn>) {
    forall i | 0 <= i < |schedule| :: schedule[i].Work? ==> Fair(schedule[i].luck)
  }

  /** There is entropy whenever format one needs it. */
  predicate SealsAll(b: Backup, schedule: seq<Turn>) {
    b.key == [] || b.format == 2 || forall i | 0 <= i < |schedule| :: TurnSeals(schedule[i])
  }

  predicate TurnSeals(turn: Turn) { turn.Work? ==> turn.luck.entropy.Some? }

  // What a turn comes to

  /** The record of a file cannot be calculated. */
  predicate UnreadableWhen(p: Primitives, b: Backup, i: nat, cancelled: bool, reading: Reading)
    requires i < |b.sources|
  {
    !reading.readable || cancelled
    || (reading.doneAt.Some? && (b.format == 1 || reading.doneAt.value < |Parts(Expected(p, b, i))|))
  }

  function SavingAction(p: Primitives, b: Backup, run: Run, w: nat, luck: Luck): Action {
    if run.cancelled || luck.reply == Refused || !CanPut(p, b, run, w, luck.entropy) then Fail(w)
    else if luck.reply == Done then Put(w, luck.entropy) else PutLost(w, luck.entropy)
  }

  function WorkAction(p: Primitives, b: Backup, run: Run, w: nat, luck: Luck): Action
    requires w < |run.workers|
  {
    match run.workers[w]
    case Hashing(i) =>
      if i < |b.sources| && UnreadableWhen(p, b, i, run.cancelled, luck.reading) then Fail(w) else Hash(w)
    case Checking(_, _, _) =>
      if run.cancelled || !luck.answered then Fail(w)
      else if AtPart(b, run, w) && Place(b, PartAt(b, run, w)) in run.store then Hit(w) else Miss(w)
    case Saving(_, _, _) => SavingAction(p, b, run, w, luck)
    case _ => Fail(w)
  }

  function ActionOf(p: Primitives, b: Backup, run: Run, turn: Turn): Action {
    match turn
    case Send(w) => Deliver(w)
    case FeederLeaves => if run.next == |b.sources| then CloseFeed else StopFeeding
    case Work(w, luck) => if w < |run.workers| then WorkAction(p, b, run, w, luck) else Fail(w)
    case WorkerLeaves(w) => Leave(w)
    case CallerCancels => Cancel
  }

  /** A turn nobody can take passes. */
  function Next(p: Primitives, b: Backup, run: Run, turn: Turn): Run {
    var a := ActionOf(p, b, run, turn);
    if Enabled(p, b, run, a) then Apply(p, b, run, a) else run
  }

  /** The turns of a schedule, until everybody left. */
  function Follow(p: Primitives, b: Backup, run: Run, schedule: seq<Turn>): Run
    decreases |schedule|
  {
    if schedule == [] || AllExited(run) then run else Follow(p, b, Next(p, b, run, schedule[0]), schedule[1..])
  }

  // Schedules are runs of the protocol

  ghost predicate Reached(p: Primitives, b: Backup, before: Store, most: nat, run: Run) {
    run.phase == Working && exists actions :: Exec(p, b, Start(b, before, most), actions) == Some(run)
  }

  lemma StartReached(p: Primitives, b: Backup, before: Store, most: nat)
    ensures Reached(p, b, before, most, Start(b, before, most))
  {
    assert Exec(p, b, Start(b, before, most), []) == Some(Start(b, before, most));
  }

  lemma {:induction false} ExecAppend(p: Primitives, b: Backup, run: Run, x: seq<Action>, y: seq<Action>)
    requires Exec(p, b, run, x).Some?
    ensures Exec(p, b, run, x + y) == Exec(p, b, Exec(p, b, run, x).value, y)
    decreases |x|
  {
    if x == [] {
      assert x + y == y;
    } else {
      assert (x + y)[0] == x[0] && (x + y)[1..] == x[1..] + y;
      ExecAppend(p, b, Apply(p, b, run, x[0]), x[1..], y);
    }
  }

  lemma ExecOne(p: Primitives, b: Backup, run: Run, a: Action)
    requires Enabled(p, b, run, a)
    ensures Exec(p, b, run, [a]) == Some(Apply(p, b, run, a))
  {
    assert [a][1..] == [];
  }

  lemma ReachedStep(p: Primitives, b: Backup, before: Store, most: nat, run: Run, a: Action)
    requires Reached(p, b, before, most, run) && Enabled(p, b, run, a) && Apply(p, b, run, a).phase == Working
    ensures Reached(p, b, before, most, Apply(p, b, run, a))
  {
    var actions :| Exec(p, b, Start(b, before, most), actions) == Some(run);
    ExecOne(p, b, run, a);
    ExecAppend(p, b, Start(b, before, most), actions, [a]);
    assert Exec(p, b, Start(b, before, most), actions + [a]) == Some(Apply(p, b, run, a));
  }

  lemma ReachedInv(p: Primitives, b: Backup, before: Store, most: nat, run: Run)
    requires Lawful(p) && Prepared(b) && Reached(p, b, before, most, run)
    ensures Inv(p, b, before, run)
  {
    var actions :| Exec(p, b, Start(b, before, most), actions) == Some(run);
    StartInv(p, b, before, most);
    ExecInv(p, b, before, Start(b, before, most), actions);
  }

  lemma StaysWorking(p: Primitives, b: Backup, run: Run, a: Action)
    requires run.phase == Working && Enabled(p, b, run, a) && !a.ReportError? && !a.CheckContext?
    ensures Apply(p, b, run, a).phase == Working
  {
    if a.Put? || a.PutLost? {
      PutMoves(p, b, run, a);
    } else if a.Hit? {
      AdvanceMoves(run, a.worker, run.workers[a.worker].saved);
    }
  }

  lemma NextReached(p: Primitives, b: Backup, before: Store, most: nat, run: Run, turn: Turn)
    requires Reached(p, b, before, most, run)
    ensures Reached(p, b, before, most, Next(p, b, run, turn))
  {
    var a := ActionOf(p, b, run, turn);
    if Enabled(p, b, run, a) {
      StaysWorking(p, b, run, a);
      ReachedStep(p, b, before, most, run, a);
    }
  }

  /** Whatever the scheduler and the environment do, what the workers do is a run of the protocol. */
  lemma {:induction false} FollowIsRun(p: Primitives, b: Backup, before: Store, most: nat, run: Run,
                                       schedule: seq<Turn>)
    requires Reached(p, b, before, most, run)
    ensures Reached(p, b, before, most, Follow(p, b, run, schedule))
    decreases |schedule|
  {
    if schedule != [] && !AllExited(run) {
      NextReached(p, b, before, most, run, schedule[0]);
      FollowIsRun(p, b, before, most, Next(p, b, run, schedule[0]), schedule[1..]);
    }
  }

  /** A run in which everything that is put is sealed. */
  ghost predicate ReachedSealed(p: Primitives, b: Backup, before: Store, most: nat, run: Run) {
    && run.phase == Working
    && exists actions :: Exec(p, b, Start(b, before, most), actions) == Some(run) && PutsSealed(b, actions)
  }

  lemma SealedStep(p: Primitives, b: Backup, before: Store, most: nat, run: Run, a: Action)
    requires ReachedSealed(p, b, before, most, run) && Enabled(p, b, run, a) && Apply(p, b, run, a).phase == Working
    requires ActionSealed(b, a)
    ensures ReachedSealed(p, b, before, most, Apply(p, b, run, a))
  {
    var actions :| Exec(p, b, Start(b, before, most), actions) == Some(run) && PutsSealed(b, actions);
    ExecOne(p, b, run, a);
    ExecAppend(p, b, Start(b, before, most), actions, [a]);
    assert Exec(p, b, Start(b, before, most), actions + [a]) == Some(Apply(p, b, run, a))
           && PutsSealed(b, actions + [a]);
  }

  lemma TurnSealed(p: Primitives, b: Backup, run: Run, turn: Turn)
    requires b.key == [] || b.format == 2 || TurnSeals(turn)
    ensures var a := ActionOf(p, b, run, turn); Enabled(p, b, run, a) ==> ActionSealed(b, a)
  {
  }

  /** With entropy at hand, every schedule is a run that seals what it puts. */
  lemma {:induction false} FollowIsSealed(p: Primitives, b: Backup, before: Store, most: nat, run: Run,
                                          schedule: seq<Turn>)
    requires ReachedSealed(p, b, before, most, run) && SealsAll(b, schedule)
    ensures ReachedSealed(p, b, before, most, Follow(p, b, run, schedule))
    decreases |schedule|
  {
    if schedule != [] && !AllExited(run) {
      var a := ActionOf(p, b, run, schedule[0]);
      TurnSealed(p, b, run, schedule[0]);
      if Enabled(p, b, run, a) {
        StaysWorking(p, b, run, a);
        SealedStep(p, b, before, most, run, a);
      }
      assert SealsAll(b, schedule[1..]);
      FollowIsSealed(p, b, before, most, Next(p, b, run, schedule[0]), schedule[1..]);
    }
  }

  /** Nothing goes wrong. */
  predicate Smooth(turn: Turn) {
    match turn
    case Work(_, luck) =>
      luck.reading.readable && luck.reading.doneAt == None && luck.answered && luck.entropy.Some? && luck.reply == Done
    case CallerCancels => false
    case _ => true
  }

  predicate AllSmooth(schedule: seq<Turn>) { forall i | 0 <= i < |schedule| :: Smooth(schedule[i]) }

  lemma SmoothSave(p: Primitives, b: Backup, before: Store, run: Run, w: nat, luck: Luck)
    requires Prepared(b) && PoolInv(p, b, run) && SavesMissing(b, before, run) && !run.cancelled
    requires w < |run.workers| && run.workers[w].Saving? && CreateLiveness.EmptyFilesStored(p, b, before)
    requires luck.entropy.Some? && luck.reply == Done && Fair(luck)
    ensures SavingAction(p, b, run, w, luck).Put?
  {
    CreateLiveness.SavingCanPut(p, b, before, run, w, luck.entropy);
  }

  lemma SmoothAction(p: Primitives, b: Backup, before: Store, most: nat, run: Run, turn: Turn)
    requires Lawful(p) && Prepared(b) && Reached(p, b, before, most, run) && !run.failed && !run.cancelled
    requires Smooth(turn) && CreateLiveness.EmptyFilesStored(p, b, before) && (turn.Work? ==> Fair(turn.luck))
    ensures var a := ActionOf(p, b, run, turn); Enabled(p, b, run, a) ==> !CreateLiveness.IsFault(a)
  {
    var a := ActionOf(p, b, run, turn);
    ReachedInv(p, b, before, most, run);
    if turn.Work? && turn.worker < |run.workers| && run.workers[turn.worker].Saving? {
      SmoothSave(p, b, before, run, turn.worker, turn.luck);
    }
  }

  /** Left alone, and with no empty file that format two would have to store, no worker fails. */
  lemma {:induction false} SmoothRun(p: Primitives, b: Backup, before: Store, most: nat, run: Run, schedule: seq<Turn>)
    requires Lawful(p) && Prepared(b) && Reached(p, b, before, most, run) && !run.failed && !run.cancelled
    requires AllSmooth(schedule) && AllFair(schedule) && CreateLiveness.EmptyFilesStored(p, b, before)
    ensures var end := Follow(p, b, run, schedule); !end.failed && !end.cancelled
    decreases |schedule|
  {
    if schedule != [] && !AllExited(run) {
      var turn := schedule[0];
      assert Smooth(turn) && (turn.Work? ==> Fair(turn.luck));
      SmoothAction(p, b, before, most, run, turn);
      NextReached(p, b, before, most, run, turn);
      if Enabled(p, b, run, ActionOf(p, b, run, turn)) {
        CreateLiveness.UndisturbedStep(p, b, run, ActionOf(p, b, run, turn));
      }
      SmoothRun(p, b, before, most, Next(p, b, run, turn), schedule[1..]);
    }
  }

  // Schedules end

  function SmoothLuck(): Luck { Luck(Reading(true, None), true, Some(seq(NONCE_SIZE, _ => 0)), Done) }

  /** The turn an action of the pool takes, when nothing goes wrong. */
  function TurnOf(a: Action): Turn {
    match a
    case Deliver(w) => Send(w)
    case Leave(w) => WorkerLeaves(w)
    case Hash(w) => Work(w, SmoothLuck())
    case Hit(w) => Work(w, SmoothLuck())
    case Miss(w) => Work(w, SmoothLuck())
    case Put(w, _) => Work(w, SmoothLuck())
    case Fail(w) => Work(w, SmoothLuck())
    case _ => FeederLeaves
  }

  /** A busy worker's turn always does something. */
  lemma WorkIsTaken(p: Primitives, b: Backup, before: Store, run: Run, w: nat, luck: Luck)
    requires Prepared(b) && Inv(p, b, before, run) && run.phase == Working && Fair(luck)
    requires w < |run.workers| && Busy(run.workers[w])
    ensures Enabled(p, b, run, ActionOf(p, b, run, Work(w, luck)))
  {
    assert WorkerOk(p, b, run, run.workers[w]);
  }

  /** Before everybody left, there is somebody whose turn brings the run nearer to its end. */
  lemma SomeTurnMoves(p: Primitives, b: Backup, before: Store, run: Run) returns (turn: Turn)
    requires Lawful(p) && Prepared(b) && Inv(p, b, before, run) && run.phase == Working && !AllExited(run)
    ensures Smooth(turn) && (turn.Work? ==> Fair(turn.luck))
    ensures var next := Next(p, b, run, turn);
            Inv(p, b, before, next) && next.phase == Working
            && CreateLiveness.Measure(p, b, next) < CreateLiveness.Measure(p, b, run)
  {
    var a := CreateLiveness.Progress(p, b, before, run);
    turn := TurnOf(a);
    if turn.Work? { WorkIsTaken(p, b, before, run, turn.worker, turn.luck); }
    var taken := ActionOf(p, b, run, turn);
    assert Enabled(p, b, run, taken);
    CreateLiveness.StepDecreases(p, b, before, run, taken);
    StepInv(p, b, before, run, taken);
    StaysWorking(p, b, run, taken);
  }

  /** So from wherever a run is, some smooth schedule lets everybody leave; no file, and no failure, holds a worker
      back. */
  lemma {:induction false} SomeScheduleEnds(p: Primitives, b: Backup, before: Store, run: Run)
    returns (schedule: seq<Turn>)
    requires Lawful(p) && Prepared(b) && Inv(p, b, before, run) && run.phase == Working
    ensures AllSmooth(schedule) && AllFair(schedule) && AllExited(Follow(p, b, run, schedule))
    decreases CreateLiveness.Measure(p, b, run)
  {
    schedule := [];
    if !AllExited(run) {
      var turn := SomeTurnMoves(p, b, before, run);
      var rest := SomeScheduleEnds(p, b, before, Next(p, b, run, turn));
      schedule := [turn] + rest;
      assert schedule[1..] == rest;
    }
  }

  /** What fails a busy worker: its file cannot be read, a lookup is not answered, a put is not done, or the context is
      done; and what is put must be sealed, and is a section of the file. */
  lemma WorkFailsExactly(p: Primitives, b: Backup, before: Store, run: Run, w: nat, luck: Luck)
    requires Prepared(b) && Inv(p, b, before, run) && run.phase == Working && Fair(luck) && !run.failed
    requires w < |run.workers| && Busy(run.workers[w])
    ensures var worker, next := run.workers[w], Next(p, b, run, Work(w, luck));
            && (worker.Hashing? ==>
                  (next.failed <==> || run.cancelled || !luck.reading.readable
                                    || (luck.reading.doneAt.Some?
                                        && (b.format == 1
                                            || luck.reading.doneAt.value < |Parts(Expected(p, b, worker.file))|))))
            && (worker.Checking? ==> (next.failed <==> run.cancelled || !luck.answered))
            && (worker.Saving? ==>
                  (next.failed <==> || run.cancelled || luck.reply != Done
                                    || (b.key != [] && luck.entropy == None && b.format != 1)
                                    || (b.format != 1 && b.sources[worker.file].content == [])))
  {
    WorkIsTaken(p, b, before, run, w, luck);
    assert WorkerOk(p, b, run, run.workers[w]);
    if run.workers[w].Saving? { SaveFailsExactly(p, b, before, run, w, luck); }
  }

  lemma SaveFailsExactly(p: Primitives, b: Backup, before: Store, run: Run, w: nat, luck: Luck)
    requires Prepared(b) && Inv(p, b, before, run) && run.phase == Working && Fair(luck) && !run.failed
    requires w < |run.workers| && run.workers[w].Saving?
    ensures Next(p, b, run, Work(w, luck)).failed <==>
              || run.cancelled || luck.reply != Done || (b.key != [] && luck.entropy == None && b.format != 1)
              || (b.format != 1 && b.sources[run.workers[w].file].content == [])
  {
    var a := ActionOf(p, b, run, Work(w, luck));
    SavingFits(p, b, before, run, w, luck.entropy);
    WorkIsTaken(p, b, before, run, w, luck);
    if !a.Fail? { PutMoves(p, b, run, a); }
  }

  /** A worker with a part to save can put it if it can be sealed, unless format two has the part of an empty file. */
  lemma SavingFits(p: Primitives, b: Backup, before: Store, run: Run, w: nat, seal: Option<Bytes>)
    requires Prepared(b) && Inv(p, b, before, run) && run.phase == Working
    requires w < |run.workers| && run.workers[w].Saving? && (seal.Some? ==> |seal.value| == NONCE_SIZE)
    ensures CanPut(p, b, run, w, seal) <==>
              (seal == None ==> b.key == [] || b.format == 1)
              && (b.format == 1 || b.sources[run.workers[w].file].content != [])
  {
    var i := run.workers[w].file;
    var content, part := b.sources[i].content, PartAt(b, run, w);
    assert WorkerOk(p, b, run, run.workers[w]);
    CalculatedParts(p, b.format, b.comp, b.sources[i]);
    assert IsPartOf(p, b.comp, content, part);
    if b.format == 2 && part.size == 0 {
      CreateLiveness.EmptyPartOnlyOfEmptyFile(p, b, i, run.workers[w].part);
    }
  }

  // What a worker has in its hands

  predicate SmallFiles(b: Backup) {
    forall i | 0 <= i < |b.sources| :: |b.sources[i].content| + CHUNK_SIZE <= MAX_INT64
  }

  /** The part of a checking or saving worker is a section of its file, under a hash that is an ordinary piece of a
      key. */
  lemma PartInHand(p: Primitives, b: Backup, before: Store, most: nat, run: Run, w: nat)
    requires Lawful(p) && Prepared(b) && Reached(p, b, before, most, run)
    requires w < |run.workers| && (run.workers[w].Checking? || run.workers[w].Saving?)
    ensures AtPart(b, run, w) && run.files[run.workers[w].file] == Expected(p, b, run.workers[w].file)
    ensures IsPartOf(p, b.comp, b.sources[run.workers[w].file].content, PartAt(b, run, w))
            && OrdinaryHash(PartAt(b, run, w).hash)
    ensures run.files[run.workers[w].file].chunks == [] <==> b.format == 1
  {
    var i := run.workers[w].file;
    ReachedInv(p, b, before, most, run);
    assert WorkerOk(p, b, run, run.workers[w]);
    CalculatedParts(p, b.format, b.comp, b.sources[i]);
    var part := PartAt(b, run, w);
    PartIsOrdinary(p, b.comp, b.sources[i].content, part);
    ChunkedInFormatTwo(p, b, i);
  }

  lemma PartIsOrdinary(p: Primitives, comp: Compression, content: Bytes, part: Chunk)
    requires Lawful(p) && IsPartOf(p, comp, content, part)
    ensures OrdinaryHash(part.hash)
  {
    assert IsHex(p.sha(p.encode(comp, content[part.offset..part.offset + part.size])));
    HexIsOrdinary(part.hash);
  }

  lemma ChunkedInFormatTwo(p: Primitives, b: Backup, i: nat)
    requires KnownFormat(b.format) && i < |b.sources|
    ensures Expected(p, b, i).chunks == [] <==> b.format == 1
  {
    var content := b.sources[i].content;
    if |content| >= CHUNK_THRESHOLD { ChunksTile(p, b.comp, content, CHUNK_SIZE, 0); }
  }

  lemma FileInHand(p: Primitives, b: Backup, before: Store, most: nat, run: Run, w: nat)
    requires Lawful(p) && Prepared(b) && Reached(p, b, before, most, run)
    requires w < |run.workers| && run.workers[w].Hashing?
    ensures run.workers[w].file < |b.sources| == |run.files|
  {
    ReachedInv(p, b, before, most, run);
    assert WorkerOk(p, b, run, run.workers[w]);
  }

  /** Whether or not the put is reported as done, what is stored then. */
  function StoredBy(p: Primitives, b: Backup, run: Run, a: Action): Run
    requires Enabled(p, b, run, a) && (a.Put? || a.PutLost? || a.Fail?)
  {
    if a.Fail? then run else Stored(p, b, run, a.worker, a.seal)
  }

  /** On to the next part, or free after an error. */
  function Settled(run: Run, w: nat, saved: nat, ok: bool): Run
    requires w < |run.workers| && (run.workers[w].Checking? || run.workers[w].Saving?)
             && run.workers[w].file < |run.files|
  {
    if ok then Advance(run, w, saved) else Failing(run, w)
  }

  lemma SavingApplies(p: Primitives, b: Backup, run: Run, w: nat, luck: Luck)
    requires run.phase == Working && w < |run.workers| && run.workers[w].Saving? && AtPart(b, run, w)
             && PartAt(b, run, w).size >= 0
    ensures var a := SavingAction(p, b, run, w, luck);
            && IsSave(w, a) && Enabled(p, b, run, a)
            && Apply(p, b, run, a) ==
                 Settled(StoredBy(p, b, run, a), w, run.workers[w].saved + PartAt(b, run, w).size, a.Put?)
            && Next(p, b, run, Work(w, luck)) == Apply(p, b, run, a)
  {
    var a := SavingAction(p, b, run, w, luck);
    if !a.Fail? { ApplyPut(p, b, run, a); }
  }

  lemma CalculationApplies(p: Primitives, b: Backup, run: Run, w: nat, luck: Luck)
    requires run.phase == Working && w < |run.workers| && run.workers[w].Hashing?
    requires run.workers[w].file < |b.sources| == |run.files|
    ensures var i := run.workers[w].file;
            Next(p, b, run, Work(w, luck)) ==
              if UnreadableWhen(p, b, i, run.cancelled, luck.reading) then Failing(run, w)
              else run.(files := run.files[i := Expected(p, b, i)], workers := run.workers[w := Checking(i, 0, 0)])
  {
  }

  lemma LookingApplies(p: Primitives, b: Backup, run: Run, w: nat, luck: Luck)
    requires run.phase == Working && w < |run.workers| && run.workers[w].Checking? && AtPart(b, run, w)
    ensures var found := Place(b, PartAt(b, run, w)) in run.store;
            Next(p, b, run, Work(w, luck)) ==
              if run.cancelled || !luck.answered then Failing(run, w)
              else if found then Advance(run, w, run.workers[w].saved)
              else run.(workers :=
                        run.workers[w := Saving(run.workers[w].file, run.workers[w].part, run.workers[w].saved)])
  {
    CheckingApplies(p, b, run, w, luck);
  }

  lemma CheckingApplies(p: Primitives, b: Backup, run: Run, w: nat, luck: Luck)
    requires run.phase == Working && AtPart(b, run, w) && run.workers[w].Checking?
    ensures var a := WorkAction(p, b, run, w, luck);
            && (a == Hit(w) || a == Miss(w) || a == Fail(w)) && Enabled(p, b, run, a)
            && (Apply(p, b, run, a).workers[w].Saving? <==> a == Miss(w))
            && (a == Miss(w) ==> AtPart(b, Apply(p, b, run, a), w))
            && Next(p, b, run, Work(w, luck)) == Apply(p, b, run, a)
  {
  }

  /** A worker about to put its part, and what is known of it. */
  ghost predicate Storing(p: Primitives, b: Backup, run: Run, w: nat, luck: Luck) {
    && run.phase == Working && KnownFormat(b.format) && ValidKey(b.key) && Fair(luck)
    && AtPart(b, run, w) && run.workers[w].Saving? && OrdinaryHash(PartAt(b, run, w).hash)
    && run.files[run.workers[w].file] == Expected(p, b, run.workers[w].file)
    && (run.files[run.workers[w].file].chunks == [] <==> b.format == 1)
    && var content := b.sources[run.workers[w].file].content;
       |content| <= MAX_INT64 && IsPartOf(p, b.comp, content, PartAt(b, run, w))
  }

  lemma StoringApplies(p: Primitives, b: Backup, before: Store, most: nat, run: Run, w: nat, luck: Luck)
    requires Lawful(p) && Prepared(b) && SmallFiles(b) && Reached(p, b, before, most, run)
    requires Fair(luck) && w < |run.workers| && run.workers[w].Saving?
    ensures Storing(p, b, run, w, luck)
    ensures var a := SavingAction(p, b, run, w, luck);
            && IsSave(w, a) && Enabled(p, b, run, a) && PartAt(b, run, w).size >= 0
            && Next(p, b, run, Work(w, luck)) ==
                 Settled(StoredBy(p, b, run, a), w, run.workers[w].saved + PartAt(b, run, w).size, a.Put?)
    ensures Reached(p, b, before, most, Next(p, b, run, Work(w, luck)))
  {
    NextReached(p, b, before, most, run, Work(w, luck));
    PartInHand(p, b, before, most, run, w);
    SavingApplies(p, b, run, w, luck);
  }

  lemma StoredChanges(p: Primitives, b: Backup, run: Run, a: Action)
    requires Enabled(p, b, run, a) && (a.Put? || a.PutLost? || a.Fail?)
    ensures var stored := StoredBy(p, b, run, a); stored == run.(store := stored.store, born := stored.born)
  {
    if !a.Fail? { StoredGrows(p, b, run, a.worker, a.seal); }
  }

  /** Format one puts the whole file where nothing is. */
  lemma ObjectStored(p: Primitives, b: Backup, run: Run, w: nat, luck: Luck)
    requires run.phase == Working && w < |run.workers| && run.workers[w].Saving? && AtPart(b, run, w)
    requires var a := SavingAction(p, b, run, w, luck); IsSave(w, a) && Enabled(p, b, run, a)
    requires Fair(luck) && ValidKey(b.key) && b.format == 1
             && run.files[run.workers[w].file] == Expected(p, b, run.workers[w].file)
    ensures var a, content := SavingAction(p, b, run, w, luck), b.sources[run.workers[w].file].content;
            var id := Place(b, PartAt(b, run, w));
            && (a.Fail? <==> run.cancelled || luck.reply == Refused) && (a.Put? <==> !a.Fail? && luck.reply == Done)
            && StoredBy(p, b, run, a).store ==
                 if a.Fail? || id in run.store then run.store
                 else run.store[id := WholeBlob(p, b.key, luck.entropy, p.encode(b.comp, content))]
  {
    var content := b.sources[run.workers[w].file].content;
    assert content[0..|content|] == content;
    assert PartAt(b, run, w) == Chunk(HashOf(p, b.comp, content), 0, |content|);
  }

  /** Format two puts a chunk, unless it is empty. */
  lemma ChunkStored(p: Primitives, b: Backup, run: Run, w: nat, luck: Luck)
    requires run.phase == Working && w < |run.workers| && run.workers[w].Saving? && AtPart(b, run, w)
    requires var a := SavingAction(p, b, run, w, luck); IsSave(w, a) && Enabled(p, b, run, a)
    requires Fair(luck) && ValidKey(b.key) && b.format == 2
    requires IsPartOf(p, b.comp, b.sources[run.workers[w].file].content, PartAt(b, run, w))
    ensures var a, content, part := SavingAction(p, b, run, w, luck), b.sources[run.workers[w].file].content,
            PartAt(b, run, w);
            && (a.Fail? <==> run.cancelled || luck.reply == Refused || !CanSeal(b.key, luck.entropy) || part.size == 0)
            && (a.Put? <==> !a.Fail? && luck.reply == Done)
            && StoredBy(p, b, run, a).store ==
                 if a.Fail? then run.store
                 else run.store[Place(b, part) :=
                                Sealed(p, b.key, luck.entropy,
                                       p.encode(b.comp, content[part.offset..part.offset + part.size]))]
  {
  }

  lemma ChunkFitsExactly(p: Primitives, comp: Compression, content: Bytes, part: Chunk)
    requires |content| <= MAX_INT64 && IsPartOf(p, comp, content, part) && |part.hash| >= 3
    ensures ChunkFits(p, content, part.hash, part.offset as int64, part.size as int64, Some(comp)) <==> part.size > 0
    ensures EncodedChunk(p, content, part.offset as int64, part.size as int64, Some(comp)) ==
              p.encode(comp, content[part.offset..part.offset + part.size])
  {
    OpenSourceExact(content, part.hash, part.offset as int64, part.size as int64, Some(comp));
  }

  // One part

  /** What becomes of a part: it is found, or missed and put, or some call on the way fails. */
  predicate PartActions(w: nat, actions: seq<Action>) {
    || actions == [Hit(w)]
    || actions == [Fail(w)]
    || (|actions| == 2 && actions[0] == Miss(w) && IsSave(w, actions[1]))
  }

  predicate IsSave(w: nat, a: Action) { a == Fail(w) || ((a.Put? || a.PutLost?) && a.worker == w) }

  /** Saving a part adds at most its own object, readable and named by its content or unsealed, and only when nothing
      was there; without an error the object is there, and its size is counted exactly when it was not. With an error
      the worker is free, and nothing more of the file is looked at. */
  ghost predicate PartSaved(p: Primitives, b: Backup, run: Run, end: Run, w: nat, succeeds: bool)
    requires AtPart(b, run, w) && w < |end.workers|
  {
    var part, id := PartAt(b, run, w), Place(b, PartAt(b, run, w));
    && (end.store == run.store
        || (id !in run.store && id in end.store && end.store == run.store[id := end.store[id]]
            && (Names(p, b.key, end.store[id], part.hash) || Unsealed(b, end.store[id]))))
    && if succeeds
       then id in end.store && end.failed == run.failed
            && CreateSizes.Counted(end) == CreateSizes.Counted(run) + (if id in run.store then 0 else part.size)
       else end.failed && end.cancelled && end.workers[w] == Idle
  }

  lemma PartOutcome(p: Primitives, b: Backup, run: Run, end: Run, w: nat, actions: seq<Action>)
    requires Lawful(p) && AtPart(b, run, w) && run.workers[w].Checking?
    requires PartActions(w, actions) && Exec(p, b, run, actions) == Some(end)
    ensures w < |end.workers| && PartSaved(p, b, run, end, w, Succeeds(actions))
  {
    if |actions| == 1 {
      ExecOne(p, b, run, actions[0]);
      FirstOutcome(p, b, run, w, actions[0]);
    } else {
      var middle := Apply(p, b, run, actions[0]);
      ExecTwo(p, b, run, actions);
      MissKeeps(p, b, run, w);
      SaveOutcome(p, b, middle, w, actions[1]);
      AfterMiss(p, b, run, middle, end, w, actions[1].Put?);
    }
  }

  lemma AfterMiss(p: Primitives, b: Backup, run: Run, middle: Run, end: Run, w: nat, ok: bool)
    requires AtPart(b, run, w) && AtPart(b, middle, w) && PartAt(b, middle, w) == PartAt(b, run, w) && w < |end.workers|
    requires middle.store == run.store && middle.failed == run.failed
             && CreateSizes.Counted(middle) == CreateSizes.Counted(run)
    requires PartSaved(p, b, middle, end, w, ok)
    ensures PartSaved(p, b, run, end, w, ok)
  {
  }

  lemma ExecTwo(p: Primitives, b: Backup, run: Run, actions: seq<Action>)
    requires |actions| == 2 && Enabled(p, b, run, actions[0])
    ensures Exec(p, b, run, actions) ==
              if Enabled(p, b, Apply(p, b, run, actions[0]), actions[1])
              then Some(Apply(p, b, Apply(p, b, run, actions[0]), actions[1])) else None
  {
    assert actions[1..] == [actions[1]];
    if Enabled(p, b, Apply(p, b, run, actions[0]), actions[1]) {
      ExecOne(p, b, Apply(p, b, run, actions[0]), actions[1]);
    }
  }

  lemma FirstOutcome(p: Primitives, b: Backup, run: Run, w: nat, a: Action)
    requires AtPart(b, run, w) && run.workers[w].Checking? && Enabled(p, b, run, a) && (a == Hit(w) || a == Fail(w))
    ensures w < |Apply(p, b, run, a).workers| && PartSaved(p, b, run, Apply(p, b, run, a), w, a.Hit?)
  {
    if a.Hit? {
      AdvanceMoves(run, w, run.workers[w].saved);
      CreateSizes.AdvanceCounts(run, w, run.workers[w].saved);
    }
  }

  lemma MissKeeps(p: Primitives, b: Backup, run: Run, w: nat)
    requires Enabled(p, b, run, Miss(w))
    ensures var next := Apply(p, b, run, Miss(w));
            && AtPart(b, next, w) && next.workers[w].Saving? && PartAt(b, next, w) == PartAt(b, run, w)
            && next.store == run.store && next.failed == run.failed && next.files == run.files
            && next.credit == run.credit
            && next.workers[w] == Saving(run.workers[w].file, run.workers[w].part, run.workers[w].saved)
            && |next.workers| == |run.workers| && CreateSizes.Counted(next) == CreateSizes.Counted(run)
  {
    Sums.SumUpdate(run.workers, CreateSizes.SavedOf, w, Apply(p, b, run, Miss(w)).workers[w]);
  }

  lemma SaveOutcome(p: Primitives, b: Backup, run: Run, w: nat, a: Action)
    requires Lawful(p) && Enabled(p, b, run, a) && IsSave(w, a) && AtPart(b, run, w) && run.workers[w].Saving?
    requires Place(b, PartAt(b, run, w)) !in run.store
    ensures w < |Apply(p, b, run, a).workers| && PartSaved(p, b, run, Apply(p, b, run, a), w, a.Put?)
  {
    if !a.Fail? {
      ApplyPut(p, b, run, a);
      BlobNamesPart(p, b, run, w, a.seal);
      PutOutcome(p, b, run, Stored(p, b, run, w, a.seal), w, a.Put?, PartBlob(p, b, run, w, a.seal));
    }
  }

  lemma PutOutcome(p: Primitives, b: Backup, run: Run, stored: Run, w: nat, ok: bool, blob: Bytes)
    requires AtPart(b, run, w) && run.workers[w].Saving?
    requires Names(p, b.key, blob, PartAt(b, run, w).hash) || Unsealed(b, blob)
    requires Place(b, PartAt(b, run, w)) !in run.store
    requires stored == run.(store := run.store[Place(b, PartAt(b, run, w)) := blob], born := stored.born)
    requires PartAt(b, run, w).size >= 0
    ensures var end := Settled(stored, w, run.workers[w].saved + PartAt(b, run, w).size, ok);
            w < |end.workers| && PartSaved(p, b, run, end, w, ok)
  {
    if ok {
      AdvanceMoves(stored, w, run.workers[w].saved + PartAt(b, run, w).size);
      CreateSizes.AdvanceCounts(stored, w, run.workers[w].saved + PartAt(b, run, w).size);
    }
  }

  predicate Succeeds(actions: seq<Action>)
    requires actions != []
  {
    !actions[|actions| - 1].Fail? && !actions[|actions| - 1].PutLost?
  }

  /** Where a part leaves its worker: at the next part, done with the file, or free after an error. */
  predicate WorkerAfter(run: Run, end: Run, w: nat, succeeds: bool)
    requires w < |run.workers| && (run.workers[w].Checking? || run.workers[w].Saving?)
             && run.workers[w].file < |run.files|
  {
    var i, k := run.workers[w].file, run.workers[w].part;
    && |end.workers| == |run.workers| && end.files == run.files
    && if !succeeds then end.failed && end.workers[w] == Idle
       else end.failed == run.failed
            && if k + 1 < |Parts(run.files[i])|
                 then end.workers[w].Checking? && end.workers[w].file == i && end.workers[w].part == k + 1
               else end.workers[w] == Idle && (i < |run.credit| ==> i < |end.credit| && end.credit[i].Some?)
  }

  lemma PartLeaves(p: Primitives, b: Backup, run: Run, w: nat, actions: seq<Action>)
    requires AtPart(b, run, w) && run.workers[w].Checking? && PartActions(w, actions) && Exec(p, b, run, actions).Some?
    ensures WorkerAfter(run, Exec(p, b, run, actions).value, w, Succeeds(actions))
  {
    if |actions| == 1 {
      ExecOne(p, b, run, actions[0]);
      FirstLeaves(p, b, run, w, actions[0]);
    } else {
      ExecTwo(p, b, run, actions);
      MissKeeps(p, b, run, w);
      SaveLeaves(p, b, Apply(p, b, run, actions[0]), w, actions[1]);
    }
  }

  lemma FirstLeaves(p: Primitives, b: Backup, run: Run, w: nat, a: Action)
    requires AtPart(b, run, w) && run.workers[w].Checking? && Enabled(p, b, run, a) && (a == Hit(w) || a == Fail(w))
    ensures WorkerAfter(run, Apply(p, b, run, a), w, a.Hit?)
  {
  }

  lemma SaveLeaves(p: Primitives, b: Backup, run: Run, w: nat, a: Action)
    requires Enabled(p, b, run, a) && IsSave(w, a) && AtPart(b, run, w) && run.workers[w].Saving?
    ensures WorkerAfter(run, Apply(p, b, run, a), w, a.Put?)
  {
    if !a.Fail? {
      ApplyPut(p, b, run, a);
      StoredGrows(p, b, run, w, a.seal);
    }
  }

  lemma PartIsActions(p: Primitives, b: Backup, run: Run, w: nat, look: Luck, store: Luck)
    requires run.phase == Working && AtPart(b, run, w) && run.workers[w].Checking? && PartAt(b, run, w).size >= 0
    ensures var first, middle := WorkAction(p, b, run, w, look), Next(p, b, run, Work(w, look));
            && w < |middle.workers|
            && if middle.workers[w].Saving?
               then var actions := [first, SavingAction(p, b, middle, w, store)];
                    PartActions(w, actions) && Exec(p, b, run, actions) == Some(Next(p, b, middle, Work(w, store)))
               else PartActions(w, [first]) && Exec(p, b, run, [first]) == Some(middle)
  {
    var first := WorkAction(p, b, run, w, look);
    CheckingApplies(p, b, run, w, look);
    ExecOne(p, b, run, first);
    var middle := Apply(p, b, run, first);
    if middle.workers[w].Saving? {
      SavingApplies(p, b, middle, w, store);
      ExecTwo(p, b, run, [first, SavingAction(p, b, middle, w, store)]);
    }
  }

  /** The channel, the feeder and the workers of one create. */
  class Pool {
    const p: Primitives
    const b: Backup
    const objects: ObjectRepository
    const generation: nat
    var files: seq<FileRecord>
    var workers: seq<Worker>
    var sent: nat
    var feeding: bool
    var failed: bool
    var cancelled: bool
    var totalSize: nat
    ghost const most: nat
    ghost const before: Store
    ghost var credit: seq<Option<nat>>
    ghost var born: seq<Chunk>

    ghost function Now(): Run
      reads this, objects
    {
      Run(objects.view, files, workers, sent, feeding, failed, cancelled, totalSize, Working, false, credit, born)
    }

    /** What does not change. */
    ghost predicate Given() {
      objects.p == p && b.space == SpaceFor(b.key, generation) && Lawful(p) && Prepared(b) && SmallFiles(b)
    }

    ghost predicate Valid()
      reads this, objects
    {
      Given() && objects.Valid() && Reached(p, b, before, most, Now())
    }

    constructor (objects: ObjectRepository, b: Backup, generation: nat, most: nat)
      requires objects.Valid() && Lawful(objects.p) && Prepared(b) && SmallFiles(b)
      requires b.space == SpaceFor(b.key, generation)
      ensures Valid() && this.objects == objects && this.b == b && p == objects.p && this.most == most
              && before == objects.view
      ensures Now() == Start(b, objects.view, most)
    {
      var n := |b.sources|;
      var width := if most > n then n else most;
      this.p, this.b, this.objects, this.generation := objects.p, b, objects, generation;
      this.files := seq(n, i requires 0 <= i < n => FileRecord(b.sources[i].path, |b.sources[i].content|, "", []));
      this.workers := seq(if width < 1 then 1 else width, _ => Idle);
      this.sent, this.feeding, this.failed, this.cancelled, this.totalSize := 0, true, false, false, 0;
      this.most, this.before, this.credit, this.born := most, objects.view, seq(n, _ => None), [];
      StartReached(objects.p, b, objects.view, most);
    }

    /** The feeder hands the next index to an idle worker. */
    method HandOut(w: nat)
      requires Valid()
      modifies this
      ensures Valid() && Now() == Next(p, b, old(Now()), Send(w))
    {
      NextReached(p, b, before, most, Now(), Send(w));
      if feeding && sent < |b.sources| && w < |workers| && workers[w] == Idle {
        workers := workers[w := Hashing(sent)];
        sent := sent + 1;
      }
    }

    /** The feeder leaves its loop: every index was handed out, or it saw the context done; the channel is closed. */
    method CloseChannel()
      requires Valid()
      modifies this
      ensures Valid() && Now() == Next(p, b, old(Now()), FeederLeaves)
    {
      NextReached(p, b, before, most, Now(), FeederLeaves);
      if feeding && (sent == |b.sources| || cancelled) {
        feeding := false;
      }
    }

    method CallerCancels()
      requires Valid()
      modifies this
      ensures Valid() && Now() == Next(p, b, old(Now()), Turn.CallerCancels)
    {
      NextReached(p, b, before, most, Now(), Turn.CallerCancels);
      cancelled := true;
    }

    /** An idle worker sees the closed channel and returns. */
    method Return(w: nat)
      requires Valid()
      modifies this
      ensures Valid() && Now() == Next(p, b, old(Now()), WorkerLeaves(w))
    {
      NextReached(p, b, before, most, Now(), WorkerLeaves(w));
      if !feeding && w < |workers| && workers[w] == Idle {
        workers := workers[w := Exited];
      }
    }

    /** The worker's error is the first, or one more; either way it takes the next index. */
    method LoseFile(w: nat)
      requires w < |workers|
      modifies this
      ensures Now() == Failing(old(Now()), w)
    {
      workers := workers[w := Idle];
      failed, cancelled := true, true;
    }

    /** On to the next part, or done with the file and its size added to the total. */
    method GoOn(w: nat, saved: nat)
      requires w < |workers| && (workers[w].Checking? || workers[w].Saving?) && workers[w].file < |files|
      modifies this
      ensures Now() == Advance(old(Now()), w, saved)
    {
      var i, k := workers[w].file, workers[w].part;
      if k + 1 < |Parts(files[i])| {
        workers := workers[w := Checking(i, k + 1, saved)];
      } else {
        workers := workers[w := Idle];
        totalSize := totalSize + saved;
        credit := if i < |credit| then credit[i := Some(saved)] else credit;
      }
    }

    /** A worker calculates the record of its file. */
    method Calculate(w: nat, luck: Luck)
      requires Valid() && w < |workers| && workers[w].Hashing?
      modifies this
      ensures Valid() && Now() == Next(p, b, old(Now()), Work(w, luck))
    {
      NextReached(p, b, before, most, Now(), Work(w, luck));
      FileInHand(p, b, before, most, Now(), w);
      CalculationApplies(p, b, Now(), w, luck);
      var i := workers[w].file;
      var record := RecordOf(i, luck);
      if record == None {
        LoseFile(w);
      } else {
        files := files[i := record.value];
        workers := workers[w := Checking(i, 0, 0)];
      }
    }

    /** The calculator of the format, on a file that may not be readable, or whose context may be done. */
    method RecordOf(i: nat, luck: Luck) returns (record: Option<FileRecord>)
      requires KnownFormat(b.format) && i < |b.sources| && |b.sources[i].content| + CHUNK_SIZE <= MAX_INT64
      ensures record == if UnreadableWhen(p, b, i, cancelled, luck.reading) then None else Some(Expected(p, b, i))
    {
      var file := new File(b.sources[i].path, |b.sources[i].content|);
      var reading := if cancelled then luck.reading.(doneAt := Some(0)) else luck.reading;
      var fault;
      if b.format == 1 {
        fault := CalculateFormatOne(p, file, b.comp, b.sources[i], reading);
      } else {
        fault := CalculateFormatTwo(p, file, b.comp, b.sources[i], reading);
      }
      return if fault.Some? then None else Some(FileRecord(file.path, file.size, file.hash, file.chunks));
    }

    /** saveObject and saveChunk, first half: is the object there already? */
    method LookUp(w: nat, luck: Luck)
      requires Valid() && w < |workers| && workers[w].Checking?
      modifies this
      ensures Valid() && Now() == Next(p, b, old(Now()), Work(w, luck))
    {
      NextReached(p, b, before, most, Now(), Work(w, luck));
      PartInHand(p, b, before, most, Now(), w);
      LookingApplies(p, b, Now(), w, luck);
      Look(w, luck);
    }

    method Look(w: nat, luck: Luck)
      requires objects.Valid() && b.space == SpaceFor(b.key, generation)
      requires w < |workers| && workers[w].Checking? && AtPart(b, Now(), w) && OrdinaryHash(PartAt(b, Now(), w).hash)
      modifies this
      ensures Now() == if old(cancelled) || !luck.answered then Failing(old(Now()), w)
                       else if Place(b, PartAt(b, old(Now()), w)) in objects.view
                           then Advance(old(Now()), w, old(workers[w].saved))
                       else old(Now().(workers :=
                                       workers[w := Saving(workers[w].file, workers[w].part, workers[w].saved)]))
    {
      var i, k, saved := workers[w].file, workers[w].part, workers[w].saved;
      var part := Parts(files[i])[k];
      objects.ViewShows(Place(b, part));
      var found := objects.AlreadyExists(part.hash, b.key, generation, cancelled, luck.answered);
      if found.Err? {
        LoseFile(w);
      } else if found.value {
        GoOn(w, saved);
      } else {
        workers := workers[w := Saving(i, k, saved)];
      }
    }

    ghost predicate Connected()
      reads objects
    {
      objects.Valid() && objects.p == p && b.space == SpaceFor(b.key, generation) && Lawful(p)
    }

    /** Format one stores the whole file. */
    method StoreObject(w: nat, luck: Luck, ghost now: Run, ghost a: Action) returns (fault: Option<Fault>)
      requires Connected() && now == Now() && Storing(p, b, now, w, luck) && b.format == 1
               && a == SavingAction(p, b, now, w, luck)
      requires Enabled(p, b, now, a) && IsSave(w, a)
      modifies objects
      ensures objects.Valid()
      ensures objects.view == StoredBy(p, b, now, a).store && (fault == None <==> a.Put?)
    {
      ObjectStored(p, b, now, w, luck);
      var i := workers[w].file;
      fault := objects.Save(b.sources[i].content, files[i].hash, Some(b.comp), b.key, generation, luck.entropy,
                            cancelled, luck.reply);
    }

    /** Format two stores a chunk. */
    method StoreChunk(w: nat, luck: Luck, ghost now: Run, ghost a: Action) returns (fault: Option<Fault>)
      requires Connected() && now == Now() && Storing(p, b, now, w, luck) && b.format == 2
               && a == SavingAction(p, b, now, w, luck)
      requires Enabled(p, b, now, a) && IsSave(w, a)
      modifies objects
      ensures objects.Valid()
      ensures objects.view == StoredBy(p, b, now, a).store && (fault == None <==> a.Put?)
    {
      ChunkStored(p, b, now, w, luck);
      var content, part := b.sources[workers[w].file].content, Parts(files[workers[w].file])[workers[w].part];
      assert part == PartAt(b, now, w);
      fault := PutChunk(content, part, luck);
    }

    method PutChunk(content: Bytes, part: Chunk, luck: Luck) returns (fault: Option<Fault>)
      requires Connected() && |content| <= MAX_INT64 && IsPartOf(p, b.comp, content, part) && OrdinaryHash(part.hash)
      modifies objects
      ensures objects.Valid()
      ensures if cancelled || luck.reply == Refused || !CanSeal(b.key, luck.entropy) || part.size == 0
              then objects.view == old(objects.view) && fault.Some?
              else objects.view == old(objects.view)[Place(b, part) :=
                                     Sealed(p, b.key, luck.entropy,
                                            p.encode(b.comp, content[part.offset..part.offset + part.size]))]
                   && (fault == None <==> luck.reply == Done)
    {
      ChunkFitsExactly(p, b.comp, content, part);
      fault := objects.SaveChunk(content, part.hash, part.offset as int64, part.size as int64, Some(b.comp), b.key,
                                 generation,
                                 luck.entropy, cancelled, luck.reply);
    }

    /** saveObject and saveChunk, second half: the part is put. */
    method Store(w: nat, luck: Luck)
      requires Valid() && Fair(luck) && w < |workers| && workers[w].Saving?
      modifies this, objects
      ensures Valid() && Now() == Next(p, b, old(Now()), Work(w, luck))
    {
      ghost var now, a := Now(), SavingAction(p, b, Now(), w, luck);
      StoringApplies(p, b, before, most, now, w, luck);
      var fault := StorePart(w, luck, now, a);
      Settle(w, now, a, fault);
    }

    method StorePart(w: nat, luck: Luck, ghost now: Run, ghost a: Action) returns (fault: Option<Fault>)
      requires Connected() && now == Now() && Storing(p, b, now, w, luck) && a == SavingAction(p, b, now, w, luck)
      requires Enabled(p, b, now, a) && IsSave(w, a)
      modifies this`born, objects
      ensures objects.Valid()
      ensures Now() == StoredBy(p, b, now, a) && (fault == None <==> a.Put?)
    {
      if |files[workers[w].file].chunks| == 0 {
        fault := StoreObject(w, luck, now, a);
      } else {
        fault := StoreChunk(w, luck, now, a);
      }
      StoredChanges(p, b, now, a);
      born := StoredBy(p, b, now, a).born;
    }

    /** The worker goes on, or takes the next index after an error. */
    method Settle(w: nat, ghost now: Run, ghost a: Action, fault: Option<Fault>)
      requires Enabled(p, b, now, a) && IsSave(w, a) && Now() == StoredBy(p, b, now, a) && (fault == None <==> a.Put?)
      requires AtPart(b, now, w) && now.workers[w].Saving? && PartAt(b, now, w).size >= 0
      modifies this
      ensures Now() == Settled(StoredBy(p, b, now, a), w, now.workers[w].saved + PartAt(b, now, w).size, a.Put?)
    {
      StoredChanges(p, b, now, a);
      if fault.Some? {
        LoseFile(w);
      } else {
        GoOn(w, workers[w].saved + Parts(files[workers[w].file])[workers[w].part].size);
      }
    }

    /** saveObject and saveChunk, left to themselves: the object is found, or missed and put, or some call fails. */
    method SavePart(w: nat, look: Luck, store: Luck) returns (ghost actions: seq<Action>)
      requires Valid() && Fair(store) && w < |workers| && workers[w].Checking?
      modifies this, objects
      ensures Valid() && PartActions(w, actions) && Exec(p, b, old(Now()), actions) == Some(Now())
    {
      ghost var now := Now();
      PartInHand(p, b, before, most, now, w);
      PartIsActions(p, b, now, w, look, store);
      LookUp(w, look);
      actions := [WorkAction(p, b, now, w, look)];
      if workers[w].Saving? {
        actions := [WorkAction(p, b, now, w, look), SavingAction(p, b, Now(), w, store)];
        Store(w, store);
      }
    }

    /** saveFileObjects, left to itself: the parts of a file in order, up to the first that cannot be saved. */
    method SaveFileObjects(w: nat, look: nat -> Luck, store: nat -> Luck)
      returns (saved: bool, ghost actions: seq<Action>)
      requires Valid() && (forall k :: Fair(store(k))) && w < |workers| && workers[w].Checking?
               && workers[w].part == 0
      modifies this, objects
      ensures Valid() && Exec(p, b, old(Now()), actions) == Some(Now())
      ensures w < |workers| && workers[w] == Idle && (if saved then failed == old(failed) else failed)
      ensures saved ==> FileDone(p, b, Now(), old(workers[w].file))
    {
      ghost var start := Now();
      PartInHand(p, b, before, most, start, w);
      ReachedInv(p, b, before, most, start);
      var i, n := workers[w].file, |Parts(files[workers[w].file])|;
      actions := [];
      for k := 0 to n
        invariant Valid() && Exec(p, b, start, actions) == Some(Now())
        invariant w < |workers| && files == start.files && failed == start.failed && i < |credit|
        invariant if k < n then workers[w].Checking? && workers[w].file == i && workers[w].part == k
                  else workers[w] == Idle && credit[i].Some?
      {
        ghost var now := Now();
        PartInHand(p, b, before, most, now, w);
        ghost var more := SavePart(w, look(k), store(k));
        PartLeaves(p, b, now, w, more);
        ExecAppend(p, b, start, actions, more);
        actions := actions + more;
        if workers[w] == Idle && failed {
          return false, actions;
        }
        ReachedInv(p, b, before, most, Now());
      }
      ReachedInv(p, b, before, most, Now());
      return true, actions;
    }

    /** One turn of the scheduler; a turn nobody can take passes. */
    method TakeTurn(turn: Turn)
      requires Valid() && (turn.Work? ==> Fair(turn.luck))
      modifies this, objects
      ensures Valid() && Now() == Next(p, b, old(Now()), turn)
    {
      match turn
      case Send(w) => HandOut(w);
      case FeederLeaves => CloseChannel();
      case Work(w, luck) =>
        if w < |workers| && workers[w].Hashing? {
          Calculate(w, luck);
        } else if w < |workers| && workers[w].Checking? {
          LookUp(w, luck);
        } else if w < |workers| && workers[w].Saving? {
          Store(w, luck);
        }
      case WorkerLeaves(w) => Return(w);
      case CallerCancels => CallerCancels();
    }

    predicate AllReturned()
      reads this
    {
      !feeding && forall w | 0 <= w < |workers| :: workers[w] == Exited
    }

    /** Turns are taken until the feeder and all workers returned; a schedule that ends earlier is a crash. */
    method SaveFiles(schedule: seq<Turn>) returns (finished: bool)
      requires Valid() && AllFair(schedule)
      modifies this, objects
      ensures Valid() && Now() == Follow(p, b, old(Now()), schedule) && (finished <==> AllExited(Now()))
    {
      ghost var end := Follow(p, b, Now(), schedule);
      for i := 0 to |schedule|
        invariant Valid() && Follow(p, b, Now(), schedule[i..]) == end
      {
        if AllReturned() {
          return true;
        }
        TakeTurn(schedule[i]);
        assert schedule[i..][1..] == schedule[i + 1..];
      }
      assert schedule[|schedule|..] == [];
      return AllReturned();
    }
  }
}
