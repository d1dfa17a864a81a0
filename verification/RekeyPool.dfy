/**
  The feeder and the workers of a rotation over the repository's objects: what RekeyProtocol's actions do is what these
  methods do, call by call, in whatever order the scheduler picks.
 */
module RekeyPool {
  import opened Outcomes
  import opened Primitives
  import opened ObjectKeys
  import opened Objects
  import opened S3Objects
  import opened RekeyProtocol

  /** What the environment does to a worker's turn. */
  datatype Luck = Luck(answered: bool, entropy: Option<Bytes>, reply: Reply)

  /** Whose turn it is, and which ready case its select takes. */
  datatype Turn = Send(worker: nat) | FeederLeaves | Work(worker: nat, luck: Luck) | WorkerLeaves(worker: nat)
      | CallerCancels

  predicate Fair(turn: Turn) { turn.Work? && turn.luck.entropy.Some? ==> |turn.luck.entropy.value| == NONCE_SIZE }

  /** What a turn comes to: an action of the protocol, or nothing when it is nobody's to take. */
  function ActionOf(p: Primitives, r: Rotation, run: Run, turn: Turn): Option<Action> {
    match turn
    case Send(w) => if Enabled(p, r, run, Deliver(w)) then Some(Deliver(w)) else None
    case FeederLeaves =>
      if Enabled(p, r, run, CloseJobs) then Some(CloseJobs)
          else if Enabled(p, r, run, FeederGivesUp) then Some(FeederGivesUp) else None
    case Work(w, luck) =>
      if w < |run.workers| && run.workers[w].Reading? then
        Some(if !GroupDone(run) && luck.answered && CanRead(p, r, run, run.workers[w].hash) then Read(w) else Fail(w))
      else if w < |run.workers| && run.workers[w].Writing? then Some(Written(r, run, w, luck))
      else None
    case WorkerLeaves(w) =>
      if Enabled(p, r, run, GiveUp(w)) then Some(GiveUp(w)) else if Enabled(p, r, run, Drain(w)) then Some(Drain(w))
          else None
    case CallerCancels => if run.cancelled then None else Some(Cancel)
  }

  lemma ActionIsEnabled(p: Primitives, r: Rotation, run: Run, turn: Turn)
    requires run.phase == Copying && Fair(turn) && ActionOf(p, r, run, turn).Some?
    ensures Enabled(p, r, run, ActionOf(p, r, run, turn).value)
  {
    if turn.Work? && run.workers[turn.worker].Writing? { WriteApplies(p, r, run, turn.worker, turn.luck); }
  }

  function Next(p: Primitives, r: Rotation, run: Run, turn: Turn): (next: Run)
    requires run.phase == Copying && Fair(turn)
    ensures next.phase == Copying
  {
    match ActionOf(p, r, run, turn)
    case None => run
    case Some(a) => ActionIsEnabled(p, r, run, turn); StaysCopying(p, r, run, a); Apply(p, r, run, a)
  }

  lemma StaysCopying(p: Primitives, r: Rotation, run: Run, a: Action)
    requires run.phase == Copying && Enabled(p, r, run, a) && !a.JoinFailed? && !a.CheckContext?
    ensures Apply(p, r, run, a).phase == Copying
  {
  }

  predicate AllFair(schedule: seq<Turn>) { forall i | 0 <= i < |schedule| :: Fair(schedule[i]) }

  /** The turns of a schedule, until everybody returned. */
  function Follow(p: Primitives, r: Rotation, run: Run, schedule: seq<Turn>): Run
    requires run.phase == Copying && AllFair(schedule)
    decreases |schedule|
  {
    if schedule == [] || Joined(run) then run else Follow(p, r, Next(p, r, run, schedule[0]), schedule[1..])
  }

  lemma ExecSnoc(p: Primitives, r: Rotation, run: Run, taken: seq<Action>, a: Action)
    requires Exec(p, r, run, taken).Some? && Enabled(p, r, Exec(p, r, run, taken).value, a)
    ensures Exec(p, r, run, taken + [a]) == Some(Apply(p, r, Exec(p, r, run, taken).value, a))
  {
    ExecAppend(p, r, run, taken, [a]);
    assert [a][1..] == [];
  }

  lemma ReadApplies(p: Primitives, r: Rotation, run: Run, w: nat, content: Bytes)
    requires run.phase == Copying && w < |run.workers| && run.workers[w].Reading? && |r.oldKey| > 0
    requires var id := Old(r, run.workers[w].hash); id in run.store && Opened(p, r.oldKey, run.store[id]) == Ok(content)
    ensures Enabled(p, r, run, Read(w))
    ensures Apply(p, r, run, Read(w)) == run.(workers := run.workers[w := Writing(run.workers[w].hash, content)])
  {
  }

  lemma FailApplies(p: Primitives, r: Rotation, run: Run, w: nat)
    requires run.phase == Copying && w < |run.workers| && (run.workers[w].Reading? || run.workers[w].Writing?)
    ensures Enabled(p, r, run, Fail(w))
    ensures Apply(p, r, run, Fail(w)) == run.(workers := run.workers[w := Returned], failed := true)
  {
  }

  /** What comes of a write: it happened and was acknowledged, it happened, or it did not happen. */
  function Written(r: Rotation, run: Run, w: nat, luck: Luck): Action {
    if luck.entropy == None || GroupDone(run) || |r.newKey| != AES_256_KEY_SIZE || luck.reply == Refused then Fail(w)
    else if luck.reply == Done then Write(w, luck.entropy.value) else WriteLost(w, luck.entropy.value)
  }

  lemma WriteApplies(p: Primitives, r: Rotation, run: Run, w: nat, luck: Luck)
    requires run.phase == Copying && w < |run.workers| && run.workers[w].Writing?
    requires luck.entropy.Some? ==> |luck.entropy.value| == NONCE_SIZE
    ensures var hash, a := run.workers[w].hash, Written(r, run, w, luck);
            && Enabled(p, r, run, a)
            && var next := Apply(p, r, run, a);
               && next.store ==
                    (if a.Fail? then run.store
                     else run.store[New(r, hash) := Blob(p, r.newKey, luck.entropy.value, run.workers[w].content)])
               && next == run.(store := next.store, workers := run.workers[w := if a.Write? then Waiting else Returned],
                               failed := run.failed || !a.Write?,
                               copied := if a.Write? then run.copied + {hash} else run.copied)
  {
  }

  /** What fails a worker with a hash: the context is done, or its object is not read, or does not open, or it cannot be
      sealed, or the write is not done. */
  lemma WorkFailsExactly(p: Primitives, r: Rotation, run: Run, w: nat, luck: Luck)
    requires run.phase == Copying && !run.failed && w < |run.workers| && Fair(Work(w, luck))
    requires run.workers[w].Reading? || run.workers[w].Writing?
    ensures var id, next := Old(r, run.workers[w].hash), Next(p, r, run, Work(w, luck));
            && (run.workers[w].Reading? ==>
                  (next.failed <==> || run.cancelled || !luck.answered || r.oldKey == [] || id !in run.store
                                    || Opened(p, r.oldKey, run.store[id]).Err?))
            && (run.workers[w].Writing? ==>
                  (next.failed <==> || run.cancelled || luck.entropy == None || |r.newKey| != AES_256_KEY_SIZE
                                    || luck.reply != Done))
            && (next.failed <==> next.workers[w] == Returned)
  {
    ActionIsEnabled(p, r, run, Work(w, luck));
  }

  // Schedules left alone

  /** Nothing goes wrong. */
  predicate Smooth(turn: Turn) {
    !turn.CallerCancels? && (turn.Work? ==> turn.luck.answered && turn.luck.entropy.Some? && turn.luck.reply == Done)
  }

  predicate AllSmooth(schedule: seq<Turn>) { forall i | 0 <= i < |schedule| :: Smooth(schedule[i]) }

  lemma SmoothAction(p: Primitives, r: Rotation, before: Store, run: Run, turn: Turn)
    requires Prepared(p, r, before) && Inv(p, r, before, run) && run.phase == Copying && !GroupDone(run)
             && !run.committed
    requires Smooth(turn) && Fair(turn)
    ensures ActionOf(p, r, run, turn).Some? ==> !IsFault(ActionOf(p, r, run, turn).value)
  {
    if turn.Work? && turn.worker < |run.workers| && run.workers[turn.worker].Reading? {
      var hash := run.workers[turn.worker].hash;
      assert WorkerOk(p, r, run.workers[turn.worker]);
      assert Names(p, r.oldKey, before[Old(r, hash)], hash);
    }
  }

  lemma SmoothStep(p: Primitives, r: Rotation, before: Store, run: Run, turn: Turn)
    requires Lawful(p) && Prepared(p, r, before) && Inv(p, r, before, run) && run.phase == Copying
    requires !GroupDone(run) && !run.committed && Smooth(turn) && Fair(turn)
    ensures var next := Next(p, r, run, turn);
            Inv(p, r, before, next) && next.phase == Copying && !GroupDone(next) && !next.committed
  {
    SmoothAction(p, r, before, run, turn);
    if ActionOf(p, r, run, turn).Some? {
      ActionIsEnabled(p, r, run, turn);
      StepInv(p, r, before, run, ActionOf(p, r, run, turn).value);
    }
  }

  /** Left alone, over a sound generation, no worker fails. */
  lemma {:induction false} SmoothRun(p: Primitives, r: Rotation, before: Store, run: Run, schedule: seq<Turn>)
    requires Lawful(p) && Prepared(p, r, before) && Inv(p, r, before, run) && run.phase == Copying
    requires !GroupDone(run) && !run.committed && AllSmooth(schedule) && AllFair(schedule)
    ensures !GroupDone(Follow(p, r, run, schedule))
    decreases |schedule|
  {
    if schedule != [] && !Joined(run) {
      assert Smooth(schedule[0]) && Fair(schedule[0]);
      SmoothStep(p, r, before, run, schedule[0]);
      SmoothRun(p, r, before, Next(p, r, run, schedule[0]), schedule[1..]);
    }
  }

  /** The turn an action of the pool takes. */
  function TurnOf(a: Action): Turn {
    match a
    case Deliver(w) => Send(w)
    case Read(w) => Work(w, Luck(true, Some(seq(NONCE_SIZE, _ => 0)), Done))
    case Write(w, nonce) => Work(w, Luck(true, Some(nonce), Done))
    case GiveUp(w) => WorkerLeaves(w)
    case Drain(w) => WorkerLeaves(w)
    case _ => FeederLeaves
  }

  /** Before everybody returned, there is somebody whose turn brings a run left alone nearer to its end. */
  lemma SomeTurnMoves(p: Primitives, r: Rotation, before: Store, run: Run) returns (turn: Turn)
    requires Lawful(p) && Prepared(p, r, before) && Inv(p, r, before, run) && run.phase == Copying
    requires !GroupDone(run) && !run.committed && !Joined(run)
    ensures Smooth(turn) && Fair(turn) && Measure(r, Next(p, r, run, turn)) < Measure(r, run)
  {
    var a := Progress(p, r, before, run);
    turn := if a.Write? then TurnOf(Write(a.worker, seq(NONCE_SIZE, _ => 0))) else TurnOf(a);
    var taken := ActionOf(p, r, run, turn);
    assert taken.Some?;
    ActionIsEnabled(p, r, run, turn);
    StepDecreases(p, r, run, taken.value);
  }

  /** So over a sound generation some smooth schedule lets everybody return. */
  lemma {:induction false} SomeScheduleEnds(p: Primitives, r: Rotation, before: Store, run: Run)
    returns (schedule: seq<Turn>)
    requires Lawful(p) && Prepared(p, r, before) && Inv(p, r, before, run) && run.phase == Copying
    requires !GroupDone(run) && !run.committed
    ensures AllSmooth(schedule) && AllFair(schedule) && Joined(Follow(p, r, run, schedule))
    decreases Measure(r, run)
  {
    schedule := [];
    if !Joined(run) {
      var turn := SomeTurnMoves(p, r, before, run);
      SmoothStep(p, r, before, run, turn);
      var rest := SomeScheduleEnds(p, r, before, Next(p, r, run, turn));
      schedule := [turn] + rest;
      assert schedule[1..] == rest;
    }
  }

  /** The channel, the feeder and the workers of one run. */
  class Pool {
    const p: Primitives
    const r: Rotation
    const objects: ObjectRepository
    var workers: seq<Worker>
    var sent: nat
    var feeding: bool
    var failed: bool
    var cancelled: bool
    ghost const before: Store
    ghost var copied: set<string>
    ghost var taken: seq<Action>

    ghost function Now(): Run
      reads this, objects
    {
      Run(objects.view, workers, sent, feeding, failed, cancelled, Copying, false, copied)
    }

    ghost predicate InHand() reads this {
      forall w | 0 <= w < |workers| && (workers[w].Reading? || workers[w].Writing?) :: OrdinaryHash(workers[w].hash)
    }

    ghost predicate Valid()
      reads this, objects
    {
      && objects.Valid() && objects.p == p
      && (forall i | 0 <= i < |r.hashes| :: OrdinaryHash(r.hashes[i])) && InHand()
      && Exec(p, r, Start(r, before), taken) == Some(Now())
    }

    constructor (objects: ObjectRepository, r: Rotation)
      requires objects.Valid() && forall i | 0 <= i < |r.hashes| :: OrdinaryHash(r.hashes[i])
      ensures Valid() && this.objects == objects && this.r == r && before == objects.view && p == objects.p
      ensures Now() == Start(r, objects.view)
    {
      this.p, this.r, this.objects := objects.p, r, objects;
      this.workers := seq(if |r.hashes| < MAX_WORKERS then |r.hashes| else MAX_WORKERS, _ => Waiting);
      this.sent, this.feeding, this.failed, this.cancelled := 0, |r.hashes| > 0, false, false;
      this.before, this.copied, this.taken := objects.view, {}, [];
    }

    ghost method Take(a: Action)
      requires Valid() && Enabled(p, r, Now(), a)
      modifies this`taken
      ensures taken == old(taken) + [a] && Exec(p, r, Start(r, before), taken) == Some(Apply(p, r, old(Now()), a))
    {
      ExecSnoc(p, r, Start(r, before), taken, a);
      taken := taken + [a];
    }

    /** The feeder hands the next hash to a waiting worker. */
    method HandOut(w: nat)
      requires Valid()
      modifies this
      ensures Valid() && Now() == Next(p, r, old(Now()), Send(w))
    {
      if feeding && sent < |r.hashes| && w < |workers| && workers[w] == Waiting {
        Take(Deliver(w));
        workers := workers[w := Reading(r.hashes[sent])];
        sent := sent + 1;
      }
    }

    /** The feeder leaves its loop: everything was sent, or it saw the context done; either way the channel is closed.
        */
    method CloseChannel()
      requires Valid()
      modifies this
      ensures Valid() && Now() == Next(p, r, old(Now()), FeederLeaves)
    {
      if feeding && sent == |r.hashes| {
        Take(CloseJobs);
        feeding := false;
      } else if feeding && (failed || cancelled) {
        Take(FeederGivesUp);
        feeding := false;
      }
    }

    method CallerCancels()
      requires Valid()
      modifies this
      ensures Valid() && Now() == Next(p, r, old(Now()), Turn.CallerCancels)
    {
      if !cancelled {
        Take(Cancel);
        cancelled := true;
      }
    }

    /** A waiting worker returns, on a done context or on a closed channel. */
    method Return(w: nat)
      requires Valid()
      modifies this
      ensures Valid() && Now() == Next(p, r, old(Now()), WorkerLeaves(w))
    {
      if w < |workers| && workers[w] == Waiting && (failed || cancelled) {
        Take(GiveUp(w));
        workers := workers[w := Returned];
      } else if w < |workers| && workers[w] == Waiting && !feeding {
        Take(Drain(w));
        workers := workers[w := Returned];
      }
    }

    method LoseObject(w: nat)
      requires Valid() && w < |workers| && (workers[w].Reading? || workers[w].Writing?)
      modifies this
      ensures Valid() && Enabled(p, r, old(Now()), Fail(w)) && Now() == Apply(p, r, old(Now()), Fail(w))
    {
      FailApplies(p, r, Now(), w);
      Take(Fail(w));
      workers := workers[w := Returned];
      failed := true;
    }

    method HoldContent(w: nat, content: Bytes)
      requires Valid() && w < |workers| && workers[w].Reading? && |r.oldKey| > 0
      requires var id := Old(r, workers[w].hash);
               id in objects.view && Opened(p, r.oldKey, objects.view[id]) == Ok(content)
      modifies this
      ensures Valid() && Enabled(p, r, old(Now()), Read(w)) && Now() == Apply(p, r, old(Now()), Read(w))
    {
      ReadApplies(p, r, Now(), w, content);
      Take(Read(w));
      AfterRead(w, content);
    }

    method AfterRead(w: nat, content: Bytes)
      requires w < |workers| && workers[w].Reading?
      requires objects.Valid() && objects.p == p && (forall i | 0 <= i < |r.hashes| :: OrdinaryHash(r.hashes[i]))
               && InHand()
      requires Exec(p, r, Start(r, before), taken) ==
                 Some(Now().(workers := workers[w := Writing(workers[w].hash, content)]))
      modifies this
      ensures Valid() && Now() == old(Now().(workers := workers[w := Writing(workers[w].hash, content)]))
    {
      workers := workers[w := Writing(workers[w].hash, content)];
    }

    /** rekeyObject, first half: an object of the current generation is read and decrypted. */
    method ReadObject(w: nat, luck: Luck)
      requires Valid() && Fair(Work(w, luck)) && w < |workers| && workers[w].Reading?
      modifies this
      ensures Valid() && Now() == Next(p, r, old(Now()), Work(w, luck))
    {
      var done := failed || cancelled;
      var reader := objects.ReadEncryptedObject(workers[w].hash, r.current, r.oldKey, done, luck.answered);
      assert reader.Ok? <==> !failed && !cancelled && luck.answered && CanRead(p, r, Now(), workers[w].hash);
      if reader.Err? {
        LoseObject(w);
      } else {
        HoldContent(w, reader.value);
      }
    }

    /** rekeyObject, second half: it is sealed under the new key and put into the next generation. */
    method SaveObject(w: nat, luck: Luck)
      requires Valid() && Fair(Work(w, luck)) && w < |workers| && workers[w].Writing?
      modifies this, objects
      ensures Valid() && Now() == Next(p, r, old(Now()), Work(w, luck))
    {
      var hash := workers[w].hash;
      ghost var a, now := Written(r, Now(), w, luck), Now();
      WriteApplies(p, r, now, w, luck);
      ghost var next := Apply(p, r, now, a);
      Take(a);
      var fault := PutCopy(w, luck, now, a);
      AfterWrite(w, hash, fault, next);
    }

    method PutCopy(w: nat, luck: Luck, ghost now: Run, ghost a: Action) returns (fault: Option<Fault>)
      requires objects.Valid() && objects.p == p && now == Now() && w < |workers| && workers[w].Writing?
      requires OrdinaryHash(workers[w].hash) && a == Written(r, now, w, luck)
      modifies objects
      ensures objects.Valid() && (fault == None <==> a.Write?)
      ensures objects.view == if a.Fail? then now.store else
                now.store[New(r, workers[w].hash) := Blob(p, r.newKey, luck.entropy.value, workers[w].content)]
    {
      var hash, content := workers[w].hash, workers[w].content;
      var done := failed || cancelled;
      fault := objects.SaveRekeyedObject(hash, Ok(content), r.next, r.newKey, luck.entropy, done, luck.reply);
    }

    /** The worker waits again, or returns with the error of its write. */
    method AfterWrite(w: nat, hash: string, fault: Option<Fault>, ghost next: Run)
      requires w < |workers| && (fault == None ==> workers[w].Writing?)
      requires objects.Valid() && objects.p == p && (forall i | 0 <= i < |r.hashes| :: OrdinaryHash(r.hashes[i]))
               && InHand()
      requires Exec(p, r, Start(r, before), taken) == Some(next)
      requires next == Now().(workers := workers[w := if fault == None then Waiting else Returned],
                              failed := failed || fault.Some?,
                              copied := if fault == None then copied + {hash} else copied)
      modifies this
      ensures Valid() && Now() == next
    {
      workers := workers[w := if fault.Some? then Returned else Waiting];
      failed := failed || fault.Some?;
      copied := if fault.Some? then copied else copied + {hash};
    }

    /** One turn of the scheduler; a turn nobody can take passes. */
    method TakeTurn(turn: Turn)
      requires Valid() && Fair(turn)
      modifies this, objects
      ensures Valid() && Now() == Next(p, r, old(Now()), turn)
    {
      match turn
      case Send(w) => HandOut(w);
      case FeederLeaves => CloseChannel();
      case Work(w, luck) =>
        if w < |workers| && workers[w].Reading? {
          ReadObject(w, luck);
        } else if w < |workers| && workers[w].Writing? {
          SaveObject(w, luck);
        }
      case WorkerLeaves(w) => Return(w);
      case CallerCancels => CallerCancels();
    }

    predicate AllReturned()
      reads this
    {
      !feeding && forall w | 0 <= w < |workers| :: workers[w] == Returned
    }

    /** rekeyObjects: turns are taken until everybody returned; a schedule that ends earlier is a crash. */
    method RekeyObjects(schedule: seq<Turn>) returns (finished: bool)
      requires Valid() && AllFair(schedule)
      modifies this, objects
      ensures Valid() && Now() == Follow(p, r, old(Now()), schedule) && (finished <==> Joined(Now()))
    {
      ghost var end := Follow(p, r, Now(), schedule);
      for i := 0 to |schedule|
        invariant Valid() && Follow(p, r, Now(), schedule[i..]) == end
      {
        if AllReturned() {
          return true;
        }
        TakeTurn(schedule[i]);
        assert schedule[i..][1..] == schedule[i + 1..];
      }
      assert schedule[|schedule|..] == [];
      return AllReturned();
    }
  }
}
