/**
  The rekey operation: it reads the configuration, runs the pool, commits by one write of the configuration, and deletes
  the generation that is not needed any more - the old one after the commit, the new one without it. What it does is a
  run of RekeyProtocol, from beginning to end.
 */
module ReKeys {
  import opened Outcomes
  import opened Primitives
  import opened ObjectKeys
  import opened Objects
  import opened S3Objects
  import opened Configs
  import opened Repositories
  import opened Lifetime
  import opened Histories
  import opened PlainDurability
  import opened Durability
  import opened RekeyPool
  import P = RekeyProtocol

  /** The environment of a rekey around its pool. */
  datatype Circumstances = Circumstances(
    configAnswered: bool, listAnswered: bool, cancelled: bool,
    schedule: seq<Turn>, commit: Reply, cleanupFailAt: Option<nat>, doneBeforeDelete: bool, deleteFailAt: Option<nat>)

  // What a run leaves

  /** A rotation of what is stored. */
  ghost predicate Begun(p: Primitives, v: Vault, r: P.Rotation, keys: NewKeys) {
    && Enc(v).Some? && r.current == Enc(v).value.generation && r.next == (r.current + 1) % UINT64_LIMIT
    && r.oldKey == v.secret && r.newKey == keys.secret && |keys.secret| == AES_256_KEY_SIZE
    && forall hash :: hash in r.hashes <==> P.Old(r, hash) in v.store
  }

  /** The configuration changes with the commit: next generation and new key, wrapped anew. */
  function LeftBy(p: Primitives, v: Vault, r: P.Rotation, keys: NewKeys, end: P.Run): Vault {
    if end.committed && Conf(v).Some? then
      var next := Wrapped(p, keys.pub, keys.secret, keys.seed, r.next);
      Vault(Some(RecordOf(Conf(v).value.(encryption := Some(next)))), keys.secret, end.store)
    else v.(store := end.store)
  }

  /** The same hash is in both generations or in neither, and stands for the same content. */
  ghost predicate Moved(p: Primitives, r: P.Rotation, before: Store, after: Store, hash: string) {
    && (P.New(r, hash) in after <==> P.Old(r, hash) in before)
    && (P.Old(r, hash) in before ==>
          Opened(p, r.newKey, after[P.New(r, hash)]) == Opened(p, r.oldKey, before[P.Old(r, hash)]))
  }

  ghost predicate AllMoved(p: Primitives, r: P.Rotation, before: Store, after: Store) {
    forall hash :: Moved(p, r, before, after, hash)
  }

  /** A vault as every gentle history has it, short of the last generation number. */
  ghost predicate Sturdy(p: Primitives, v: Vault) {
    && ConfigGood(p, v) && StoreGood(p, Enc(v), v.secret, v.store) && Enc(v).Some?
    && Enc(v).value.generation + 1 < UINT64_LIMIT
  }

  /** All there is to say about what a rotation leaves of a sturdy vault. The configuration is good for the objects;
      without a delete after a lost reply every snapshot is kept, and a committed rotation moved every object. With
      one, something is missing; what is there is as it was, and the plain snapshots are. */
  ghost predicate WellLeft(p: Primitives, r: P.Rotation, before: Vault, after: Vault, committed: bool, harmed: bool) {
    && ConfigGood(p, after) && StoreGood(p, Enc(after), after.secret, after.store)
    && (if harmed then committed && !AllMoved(p, r, before.store, after.store)
        else Kept(p, before, after) && (committed ==> AllMoved(p, r, before.store, after.store)))
    && (committed ==> forall hash | P.New(r, hash) in after.store :: Moved(p, r, before.store, after.store, hash))
    && forall s: Snapshot | !s.keyed && Held(Enc(before), before.store, s) :: Held(Enc(after), after.store, s)
  }

  lemma BegunPrepared(p: Primitives, v: Vault, r: P.Rotation, keys: NewKeys)
    requires Sturdy(p, v) && Begun(p, v, r, keys)
    ensures P.Prepared(p, r, v.store) && r.next == r.current + 1
    ensures Sound(p, v.store, Plain, []) && NothingBeyond(r.next, v.store)
  {
  }

  lemma LeftConfigGood(p: Primitives, v: Vault, r: P.Rotation, keys: NewKeys, end: P.Run)
    requires Lawful(p) && ConfigGood(p, v) && Begun(p, v, r, keys)
    ensures var after := LeftBy(p, v, r, keys, end);
            && ConfigGood(p, after) && Enc(after).Some? && after.store == end.store
            && Enc(after).value.generation == P.Configured(r, end) && after.secret == P.ConfiguredKey(r, end)
  {
    if end.committed {
      WrappedWraps(p, keys.pub, keys.secret, keys.seed, r.next);
      CommittedConfigGood(p, v, LeftBy(p, v, r, keys, end), Wrapped(p, keys.pub, keys.secret, keys.seed, r.next),
                          keys.secret);
    }
  }

  lemma MovedByRun(p: Primitives, r: P.Rotation, before: Store, end: P.Run, hash: string)
    requires Lawful(p) && P.Prepared(p, r, before) && P.Inv(p, r, before, end) && end.committed
    ensures P.New(r, hash) in end.store ==> Moved(p, r, before, end.store, hash)
    ensures P.Safe(p, r, end) ==> Moved(p, r, before, end.store, hash)
  {
    P.SoundState(p, r, before, end);
    assert P.Old(r, hash) in before <==> hash in r.hashes;
    if P.Safe(p, r, end) { P.SafeState(p, r, before, end); }
    if P.New(r, hash) in end.store { P.CommittedContent(p, r, before, end, hash); }
  }

  lemma GapMeansUnmoved(p: Primitives, r: P.Rotation, before: Store, end: P.Run)
    requires P.Prepared(p, r, before) && end.committed && !P.ConfiguredComplete(r, end)
    ensures !AllMoved(p, r, before, end.store)
  {
    var hash :| hash in r.hashes && ObjectId(Generation(P.Configured(r, end)), hash) !in end.store;
    assert P.Old(r, hash) in before && !Moved(p, r, before, end.store, hash);
  }

  lemma LeavesWell(p: Primitives, v: Vault, r: P.Rotation, keys: NewKeys, actions: seq<P.Action>, end: P.Run)
    requires Lawful(p) && Sturdy(p, v) && Begun(p, v, r, keys)
    requires P.Exec(p, r, P.Start(r, v.store), actions) == Some(end)
    ensures WellLeft(p, r, v, LeftBy(p, v, r, keys, end), end.committed, P.DeletesAfterLoss(actions))
  {
    var start := P.Start(r, v.store);
    BegunPrepared(p, v, r, keys);
    P.StartInv(p, r, v.store);
    P.ExecInv(p, r, v.store, start, actions);
    P.HarmIsDeleteAfterLoss(p, r, start, actions);
    if P.DeletesAfterLoss(actions) {
      P.HarmLeavesAGap(p, r, v.store, start, actions);
      HarmMeansCommitted(p, r, start, actions);
      GapMeansUnmoved(p, r, v.store, end);
    } else {
      P.SafeWithoutHarm(p, r, v.store, start, actions);
    }
    LeftIsWell(p, v, r, keys, end, P.DeletesAfterLoss(actions));
  }

  lemma LeftIsWell(p: Primitives, v: Vault, r: P.Rotation, keys: NewKeys, end: P.Run, harmed: bool)
    requires Lawful(p) && Sturdy(p, v) && Begun(p, v, r, keys) && P.Inv(p, r, v.store, end)
    requires if harmed then end.committed && !AllMoved(p, r, v.store, end.store) else P.Safe(p, r, end)
    ensures WellLeft(p, r, v, LeftBy(p, v, r, keys, end), end.committed, harmed)
  {
    var after := LeftBy(p, v, r, keys, end);
    BegunPrepared(p, v, r, keys);
    P.StartInv(p, r, v.store);
    LeftConfigGood(p, v, r, keys, end);
    RotationStoreGood(p, r, v.store, end, Enc(after).value);
    forall s: Snapshot | Held(Enc(v), v.store, s) && (s.keyed ==> !harmed) ensures Held(Enc(after), after.store, s) {
      HeldThroughRotation(p, r, v.store, P.Start(r, v.store), end, Enc(v).value, Enc(after).value, s);
    }
    if end.committed {
      forall hash
        ensures P.New(r, hash) in after.store ==> Moved(p, r, v.store, after.store, hash)
        ensures !harmed ==> Moved(p, r, v.store, after.store, hash)
      {
        MovedByRun(p, r, v.store, end, hash);
      }
    }
  }

  // What a rotation that succeeds comes to

  /** The stored configuration is that of the next generation: it wraps the new secret for the owner of the public key
      and for nobody else, and is the same otherwise. */
  ghost predicate Advanced(p: Primitives, before: Option<ConfigRecord>, after: Option<ConfigRecord>, pub: PublicKey,
                           secret: Bytes) {
    && before.Some? && after.Some? && SettingsOf(before.value).Some? && SettingsOf(after.value).Some?
    && var c, d := SettingsOf(before.value).value, SettingsOf(after.value).value;
       && d.id == c.id && d.format == c.format && d.comp == c.comp && c.encryption.Some? && d.encryption.Some?
       && var e, f := c.encryption.value, d.encryption.value;
          && f.generation == (e.generation + 1) % 0x1_0000_0000_0000_0000 && f.fingerprint == p.fingerprint(pub)
          && forall priv :: p.unwrap(priv, f.encryptedKey) == if PublicOf(priv) == pub then Some(secret) else None
  }

  /** Each object of a generation is in the next one, under the new key, with its content, and nothing else is there; it
      is gone from its own. All other objects are as they were. */
  ghost predicate Carried(p: Primitives, generation: nat, oldKey: Bytes, newKey: Bytes, before: Store, after: Store) {
    && (forall hash :: ObjectId(Generation(generation), hash) !in after)
    && (forall hash :: ObjectId(Generation(generation + 1), hash) in after <==>
                         ObjectId(Generation(generation), hash) in before)
    && (forall hash | ObjectId(Generation(generation), hash) in before ::
          Opened(p, newKey, after[ObjectId(Generation(generation + 1), hash)]) ==
            Opened(p, oldKey, before[ObjectId(Generation(generation), hash)]))
    && forall id: ObjectId | id.space != Generation(generation) && id.space != Generation(generation + 1) ::
         (id in after <==> id in before) && (id in after ==> after[id] == before[id])
  }

  lemma CommittedAdvances(p: Primitives, v: Vault, r: P.Rotation, keys: NewKeys, end: P.Run)
    requires Lawful(p) && ConfigGood(p, v) && Begun(p, v, r, keys) && end.committed
    ensures Advanced(p, v.config, LeftBy(p, v, r, keys, end).config, keys.pub, keys.secret)
  {
    var d := Conf(v).value.(encryption := Some(Wrapped(p, keys.pub, keys.secret, keys.seed, r.next)));
    ConfigRoundTrip(d, v.config.value);
  }

  lemma CommittedCarries(p: Primitives, v: Vault, r: P.Rotation, keys: NewKeys, actions: seq<P.Action>, end: P.Run)
    requires Lawful(p) && Sturdy(p, v) && Begun(p, v, r, keys)
    requires P.Exec(p, r, P.Start(r, v.store), actions) == Some(end) && end.committed && !P.DeletesAfterLoss(actions)
    requires GenerationEmpty(r.current, end.store)
    ensures Carried(p, Enc(v).value.generation, v.secret, keys.secret, v.store, end.store)
  {
    BegunPrepared(p, v, r, keys);
    P.ConfiguredIsComplete(p, r, v.store, actions);
    LeavesWell(p, v, r, keys, actions, end);
    MovedIsCarried(p, r, v.store, end.store);
  }

  lemma MovedIsCarried(p: Primitives, r: P.Rotation, before: Store, after: Store)
    requires AllMoved(p, r, before, after) && GenerationEmpty(r.current, after) && r.next == r.current + 1
    requires forall other :: other != Generation(r.current) && other != Generation(r.next) ==>
               P.SameSpace(before, after, other)
    ensures Carried(p, r.current, r.oldKey, r.newKey, before, after)
  {
    forall hash
      ensures ObjectId(Generation(r.next), hash) in after <==> ObjectId(Generation(r.current), hash) in before
      ensures ObjectId(Generation(r.current), hash) in before ==>
                Opened(p, r.newKey, after[ObjectId(Generation(r.next), hash)]) ==
                  Opened(p, r.oldKey, before[ObjectId(Generation(r.current), hash)])
    {
      assert Moved(p, r, before, after, hash);
    }
    forall id: ObjectId | id.space != Generation(r.current) && id.space != Generation(r.next)
      ensures (id in after <==> id in before) && (id in after ==> after[id] == before[id])
    {
      assert P.SameSpace(before, after, id.space);
    }
  }

  /** Left alone, over a sturdy vault, the pool copies everything unless it crashes. */
  lemma SmoothCopies(p: Primitives, v: Vault, r: P.Rotation, keys: NewKeys, schedule: seq<Turn>)
    requires Lawful(p) && Sturdy(p, v) && Begun(p, v, r, keys) && AllFair(schedule) && AllSmooth(schedule)
    requires P.Joined(PoolEnd(p, r, v.store, schedule))
    ensures CopyingOf(PoolEnd(p, r, v.store, schedule)) == Copied(false)
  {
    BegunPrepared(p, v, r, keys);
    P.StartInv(p, r, v.store);
    SmoothRun(p, r, v.store, P.Start(r, v.store), schedule);
  }

  // The run from its pool to its end

  lemma {:induction false} HarmMeansCommitted(p: Primitives, r: P.Rotation, run: P.Run, actions: seq<P.Action>)
    requires P.Exec(p, r, run, actions).Some? && P.HarmAlong(p, r, run, actions)
    ensures P.Exec(p, r, run, actions).value.committed
    decreases |actions|
  {
    var next := P.Apply(p, r, run, actions[0]);
    if P.Harmful(run, actions[0]) {
      CommittedStays(p, r, next, actions[1..]);
    } else {
      HarmMeansCommitted(p, r, next, actions[1..]);
    }
  }

  lemma {:induction false} CommittedStays(p: Primitives, r: P.Rotation, run: P.Run, actions: seq<P.Action>)
    requires P.Exec(p, r, run, actions).Some? && run.committed
    ensures P.Exec(p, r, run, actions).value.committed
    decreases |actions|
  {
    if actions != [] {
      StaysCommitted(p, r, run, actions[0]);
      CommittedStays(p, r, P.Apply(p, r, run, actions[0]), actions[1..]);
    }
  }

  lemma {:induction false} HarmAppend(p: Primitives, r: P.Rotation, run: P.Run, a: seq<P.Action>, b: seq<P.Action>,
                                      middle: P.Run)
    requires P.Exec(p, r, run, a) == Some(middle) && P.Exec(p, r, middle, b).Some?
    ensures P.Exec(p, r, run, a + b) == P.Exec(p, r, middle, b)
    ensures P.HarmAlong(p, r, run, a + b) <==> P.HarmAlong(p, r, run, a) || P.HarmAlong(p, r, middle, b)
    decreases |a|
  {
    if a == [] {
      assert a + b == b;
    } else {
      assert (a + b)[0] == a[0] && (a + b)[1..] == a[1..] + b;
      HarmAppend(p, r, P.Apply(p, r, run, a[0]), a[1..], b, middle);
    }
  }

  datatype Copying = Crashed | Failed | Copied(cancelled: bool)

  function CopyingOf(end: P.Run): Copying {
    if !P.Joined(end) then Crashed else if end.failed then Failed else Copied(end.cancelled)
  }

  /** How the pool ends under a schedule. */
  function PoolEnd(p: Primitives, r: P.Rotation, store: Store, schedule: seq<Turn>): P.Run
    requires AllFair(schedule)
  {
    Follow(p, r, P.Start(r, store), schedule)
  }

  /** The steps between the pool and the deletes. */
  function Ending(copied: Copying, commit: Reply): seq<P.Action> {
    match copied
    case Crashed => []
    case Failed => [P.JoinFailed]
    case Copied(cancelled) =>
      if cancelled then [P.CheckContext]
      else [P.CheckContext, match commit case Done => P.Commit case Refused => P.CommitRefused case ReplyLost =>
            P.CommitReplyLost]
  }

  function Settled(run: P.Run, commit: Reply): P.Run {
    var happened := CopyingOf(run) == Copied(false) && commit != Refused;
    run.(committed := happened, phase := if happened && commit == Done then P.Deleting else P.Aborting)
  }

  lemma EndingRuns(p: Primitives, r: P.Rotation, run: P.Run, commit: Reply)
    requires run.phase == P.Copying && P.Joined(run) && !run.committed
    ensures var ending := Ending(CopyingOf(run), commit);
            P.Exec(p, r, run, ending) == Some(Settled(run, commit)) && !P.HarmAlong(p, r, run, ending)
  {
    var ending := Ending(CopyingOf(run), commit);
    var next := P.Apply(p, r, run, ending[0]);
    if |ending| == 2 {
      var last := P.Apply(p, r, next, ending[1]);
      assert ending[1..] == [ending[1]] && ending[1..][1..] == [];
      assert P.Exec(p, r, last, []) == Some(last) && !P.HarmAlong(p, r, last, []);
    }
  }

  function Doomed(r: P.Rotation, run: P.Run): nat { if run.phase == P.Deleting then r.current else r.next }

  /** Whatever part of its generation is deleted, some deletes lead there, and harm done is something deleted. */
  lemma {:induction false} DeletesReach(p: Primitives, r: P.Rotation, run: P.Run, store: Store)
    returns (actions: seq<P.Action>)
    requires run.phase == P.Deleting || run.phase == P.Aborting
    requires Shrunk(Doomed(r, run), run.store, store)
    ensures P.Exec(p, r, run, actions) == Some(run.(store := store))
    ensures P.HarmAlong(p, r, run, actions) <==> run.committed && run.phase == P.Aborting && store != run.store
    decreases |run.store.Keys|
  {
    SameIfNothingGone(store, run.store);
    if store == run.store {
      return [];
    }
    var a := DeletesOne(p, r, run, store);
    var rest := DeletesReach(p, r, P.Apply(p, r, run, a), store);
    actions := [a] + rest;
    assert actions[1..] == rest;
  }

  lemma DeletesOne(p: Primitives, r: P.Rotation, run: P.Run, store: Store) returns (a: P.Action)
    requires run.phase == P.Deleting || run.phase == P.Aborting
    requires Shrunk(Doomed(r, run), run.store, store) && exists id :: id in run.store && id !in store
    ensures P.Enabled(p, r, run, a) && if run.phase == P.Deleting then a.DeleteOld? else a.DeleteNew?
    ensures var next := P.Apply(p, r, run, a);
            && next == run.(store := next.store) && |next.store.Keys| < |run.store.Keys|
            && Shrunk(Doomed(r, run), next.store, store)
  {
    var id :| id in run.store && id !in store;
    a := if run.phase == P.Deleting then P.DeleteOld(id.hash) else P.DeleteNew(id.hash);
    assert id == ObjectId(Generation(Doomed(r, run)), id.hash);
    P.RemoveShrinks(run.store, id);
  }

  lemma SameIfNothingGone(less: Store, more: Store)
    requires forall id :: id in less ==> id in more && less[id] == more[id]
    ensures less == more || exists id :: id in more && id !in less
  {
    if forall id :: id in more ==> id in less {
      assert less == more;
    }
  }

  /** Pool, ending and deletes make one run; it does harm exactly when an unacknowledged commit is followed by a
      delete. */
  lemma WholeRun(p: Primitives, r: P.Rotation, before: Store, taken: seq<P.Action>, run: P.Run, commit: Reply,
                 store: Store)
    returns (actions: seq<P.Action>)
    requires P.Exec(p, r, P.Start(r, before), taken) == Some(run)
    requires run.phase == P.Copying && P.Joined(run) && !run.committed
    requires Shrunk(Doomed(r, Settled(run, commit)), run.store, store)
    ensures P.Exec(p, r, P.Start(r, before), actions) == Some(Settled(run, commit).(store := store))
    ensures P.DeletesAfterLoss(actions) <==>
              CopyingOf(run) == Copied(false) && commit == ReplyLost && store != run.store
  {
    var start, settled := P.Start(r, before), Settled(run, commit);
    var ending := Ending(CopyingOf(run), commit);
    EndingRuns(p, r, run, commit);
    var deletes := DeletesReach(p, r, settled, store);
    HarmAppend(p, r, start, taken, ending, run);
    HarmAppend(p, r, start, taken + ending, deletes, settled);
    if P.HarmAlong(p, r, start, taken) { HarmMeansCommitted(p, r, start, taken); }
    actions := taken + ending + deletes;
    P.HarmIsDeleteAfterLoss(p, r, start, actions);
  }

  // The operation

  /** What a rekey cannot begin without. */
  predicate Available(p: Primitives, v: Vault, privateKey: Option<PrivateKey>, publicKey: Option<PublicKey>,
                      newSecret: Option<Bytes>, seed: Option<nat>, c: Circumstances)
  {
    && !c.cancelled && c.configAnswered && c.listAnswered
    && privateKey.Some? && Enc(v).Some? && p.unwrap(privateKey.value, Enc(v).value.encryptedKey).Some?
    && publicKey.Some? && newSecret.Some? && seed.Some?
  }

  /** What deleting a generation leaves. */
  ghost predicate Pruned(generation: nat, was: Store, now: Store, failAt: Option<nat>, done: bool,
                         fault: Option<Fault>) {
    && Shrunk(generation, was, now) && (fault == None ==> GenerationEmpty(generation, now))
    && (!done && failAt == None ==> fault == None)
    && (now == was <==> done || failAt == Some(0) || GenerationEmpty(generation, was))
  }

  /** What comes of a rekey whose pool did not crash. */
  ghost predicate Concluded(p: Primitives, r: P.Rotation, before: Store, run: P.Run, c: Circumstances,
                            fault: Option<Fault>, actions: seq<P.Action>, end: P.Run)
  {
    && P.Exec(p, r, P.Start(r, before), actions) == Some(end)
    && (end.committed <==> CopyingOf(run) == Copied(false) && c.commit != Refused)
    && (P.DeletesAfterLoss(actions) <==> CopyingOf(run) == Copied(false) && c.commit == ReplyLost
                                         && c.cleanupFailAt != Some(0) && !GenerationEmpty(r.next, run.store))
    && (fault == None ==> CopyingOf(run) == Copied(false) && c.commit == Done && GenerationEmpty(r.current, end.store))
    && (CopyingOf(run) == Copied(false) && c.commit == Done && !c.doneBeforeDelete && c.deleteFailAt == None ==>
          fault == None)
  }

  lemma Concludes(p: Primitives, r: P.Rotation, before: Store, taken: seq<P.Action>, run: P.Run, c: Circumstances,
                  store: Store, fault: Option<Fault>, deleting: Option<Fault>)
    returns (actions: seq<P.Action>)
    requires P.Exec(p, r, P.Start(r, before), taken) == Some(run) && run.phase == P.Copying && P.Joined(run)
             && !run.committed
    requires var settled := Settled(run, c.commit);
             if settled.phase == P.Deleting
             then Pruned(r.current, run.store, store, c.deleteFailAt, c.doneBeforeDelete, deleting) && fault == deleting
             else Pruned(r.next, run.store, store, c.cleanupFailAt, false, deleting) && fault.Some?
    ensures Concluded(p, r, before, run, c, fault, actions, Settled(run, c.commit).(store := store))
  {
    actions := WholeRun(p, r, before, taken, run, c.commit, store);
  }

  class ReKey {
    const p: Primitives
    const folder: FolderRepository
    const objects: ObjectRepository

    constructor (folder: FolderRepository, objects: ObjectRepository)
      ensures this.folder == folder && this.objects == objects && this.p == objects.p
    {
      this.p, this.folder, this.objects := objects.p, folder, objects;
    }

    ghost function Here(secret: Bytes): Vault
      reads folder, objects
    {
      Vault(folder.stored, secret, objects.view)
    }

    /** `secret` is the symmetric key the stored configuration wraps. */
    ghost predicate Valid(secret: Bytes)
      reads folder, objects
    {
      objects.Valid() && objects.p == p && ConfigGood(p, Here(secret))
    }

    /** Deletes a generation, as far as it gets. */
    method Prune(generation: nat, failAt: Option<nat>, done: bool) returns (fault: Option<Fault>)
      requires objects.Valid()
      modifies objects
      ensures objects.Valid() && Pruned(generation, old(objects.view), objects.view, failAt, done, fault)
    {
      var pages := objects.Pages(GenerationPrefix(objects.repositoryPath, generation));
      fault := objects.DeleteEncryptedGeneration(generation, pages, failAt, done);
    }

    /** The pool, under its schedule. */
    method Copy(r: P.Rotation, schedule: seq<Turn>) returns (result: Copying, ghost taken: seq<P.Action>)
      requires objects.Valid() && objects.p == p && AllFair(schedule)
      requires forall hash :: hash in r.hashes ==> P.Old(r, hash) in objects.view
      modifies objects
      ensures objects.Valid()
      ensures var end := PoolEnd(p, r, old(objects.view), schedule);
              && objects.view == end.store && result == CopyingOf(end) && end.phase == P.Copying && !end.committed
              && P.Exec(p, r, P.Start(r, old(objects.view)), taken) == Some(end)
    {
      forall i | 0 <= i < |r.hashes| ensures OrdinaryHash(r.hashes[i]) {
        assert P.Old(r, r.hashes[i]) in objects.view;
      }
      var pool := new Pool(objects, r);
      var finished := pool.RekeyObjects(schedule);
      taken := pool.taken;
      if !finished {
        return Crashed, taken;
      }
      return if pool.failed then Failed else Copied(pool.cancelled), taken;
    }

    method ListHashes(generation: nat, c: Circumstances) returns (hashes: Result<seq<string>>)
      requires objects.Valid()
      ensures hashes.Ok? <==> !c.cancelled && c.listAnswered
      ensures hashes.Ok? ==>
                forall hash :: hash in hashes.value <==> ObjectId(Generation(generation), hash) in objects.view
    {
      var pages := objects.Pages(GenerationPrefix(objects.repositoryPath, generation));
      hashes := objects.ListEncryptedObjects(generation, pages, if c.listAnswered then None else Some(0), c.cancelled);
    }

    /** The configuration, and the key it wraps if the private key opens it. */
    method CurrentKey(privateKey: Option<PrivateKey>, c: Circumstances, ghost secret: Bytes)
      returns (conf: Config?, key: Option<Bytes>)
      requires ConfigGood(p, Here(secret))
      ensures key.Some? <==> && !c.cancelled && c.configAnswered && privateKey.Some? && Enc(Here(secret)).Some?
                             && p.unwrap(privateKey.value, Enc(Here(secret)).value.encryptedKey).Some?
      ensures key.Some? ==> key.value == secret && conf != null && Conf(Here(secret)) == Some(conf.Value())
      ensures key.Some? ==> fresh(conf) && conf.encryption != null && fresh(conf.encryption)
    {
      key := None;
      conf := folder.GetConfig(c.cancelled, c.configAnswered);
      if conf != null && conf.encryption != null && privateKey.Some? {
        key := p.unwrap(privateKey.value, conf.encryption.encryptedKey);
      }
    }

    /** Everything a rekey needs before it touches an object; any of it can be missing. */
    method Begin(privateKey: Option<PrivateKey>, publicKey: Option<PublicKey>, newSecret: Option<Bytes>,
                 seed: Option<nat>, c: Circumstances, ghost secret: Bytes)
      returns (fault: Option<Fault>, conf: Config?, r: P.Rotation, keys: NewKeys)
      requires Lawful(p) && Valid(secret)
      requires newSecret.Some? ==> |newSecret.value| == AES_256_KEY_SIZE
      ensures fault == None <==> Available(p, Here(secret), privateKey, publicKey, newSecret, seed, c)
      ensures fault == None ==> conf != null && fresh(conf) && conf.encryption != null && fresh(conf.encryption)
      ensures fault == None ==> Conf(Here(secret)) == Some(conf.Value()) && Begun(p, Here(secret), r, keys)
      ensures fault == None ==> publicKey == Some(keys.pub) && newSecret == Some(keys.secret) && seed == Some(keys.seed)
    {
      r, keys := P.Rotation([], 0, 0, [], []), NewKeys(PublicKey(0), [], 0);
      fault := Some(Broken);
      var oldSymmetricKey;
      conf, oldSymmetricKey := CurrentKey(privateKey, c, secret);
      if oldSymmetricKey == None {
        return;
      }
      var currentGeneration := conf.encryption.generation;
      var newGeneration := (currentGeneration + 1) % UINT64_LIMIT;
      if publicKey == None || newSecret == None || seed == None {
        return;
      }
      var hashes := ListHashes(currentGeneration, c);
      if hashes.Err? {
        return;
      }
      fault := None;
      keys := NewKeys(publicKey.value, newSecret.value, seed.value);
      r := P.Rotation(hashes.value, currentGeneration, newGeneration, oldSymmetricKey.value, newSecret.value);
    }

    /** The commit: one write of the configuration, which looks at the context first; it may have happened although it
        is reported as failed. */
    method Commit(conf: Config, r: P.Rotation, keys: NewKeys, cancelled: bool, reply: Reply, ghost before: Vault)
      returns (committed: bool)
      requires ConfigGood(p, before) && Begun(p, before, r, keys)
      requires conf.encryption != null && Conf(before) == Some(conf.Value())
      modifies conf.encryption, folder
      ensures committed <==> !cancelled && reply == Done
      ensures folder.stored ==
                if cancelled || reply == Refused then old(folder.stored)
                else Some(RecordOf(Conf(before).value.(encryption :=
                       Some(Wrapped(p, keys.pub, keys.secret, keys.seed, r.next)))))
    {
      conf.encryption.ChangeGeneration(r.next);
      conf.encryption.ChangeEncryptedKey(p.wrap(keys.pub, keys.secret, keys.seed));
      conf.encryption.ChangePublicKeyFingerPrint(p.fingerprint(keys.pub));
      assert conf.Value() == Conf(before).value.(encryption :=
                               Some(Wrapped(p, keys.pub, keys.secret, keys.seed, r.next)));
      var fault := folder.CreateConfig(conf, cancelled, reply);
      committed := fault == None;
    }

    /** What follows the pool: the commit if it may be tried, then the delete of the generation that is not needed, or
        of the one taken for not needed. */
    method CommitAndPrune(conf: Config, r: P.Rotation, keys: NewKeys, copied: Copying, c: Circumstances,
                          ghost before: Vault, ghost run: P.Run, ghost taken: seq<P.Action>)
      returns (fault: Option<Fault>, ghost actions: seq<P.Action>, ghost end: P.Run)
      requires objects.Valid() && ConfigGood(p, before) && Begun(p, before, r, keys)
      requires folder.stored == before.config && objects.view == run.store
      requires conf.encryption != null && Conf(before) == Some(conf.Value())
      requires P.Exec(p, r, P.Start(r, before.store), taken) == Some(run) && run.phase == P.Copying && !run.committed
      requires copied == CopyingOf(run) && copied != Crashed
      modifies conf.encryption, folder, objects
      ensures objects.Valid() && Concluded(p, r, before.store, run, c, fault, actions, end)
      ensures Vault(folder.stored, LeftBy(p, before, r, keys, end).secret, objects.view) ==
                LeftBy(p, before, r, keys, end)
    {
      var committed := false;
      if copied != Failed {
        committed := Commit(conf, r, keys, copied.cancelled, c.commit, before);
      }
      var deleting;
      if committed {
        deleting := Prune(r.current, c.deleteFailAt, c.doneBeforeDelete);
        fault := deleting;
      } else {
        deleting := Prune(r.next, c.cleanupFailAt, false);
        fault := Some(Broken);
      }
      end := Settled(run, c.commit).(store := objects.view);
      actions := Concludes(p, r, before.store, taken, run, c, objects.view, fault, deleting);
    }

    /** The whole operation is a run of the protocol, whatever is stored. It commits exactly when it could begin, its
        pool ended without an error and without the context done, and the write of the configuration happened; without
        an error the old generation is gone. Of a sturdy vault it leaves a sturdy one, in which nothing is missing but
        after a write that was not acknowledged and a cleanup that then deletes anything. `after` is the key wrapped
        by the configuration that is left, `r` the rotation if there was one, `actions` its run and `end` where that
        ended.

        When everything is there that it needs, the vault is sturdy, its workers are left alone and let it end, and the
        write and the deletes are answered, it succeeds. Then the configuration is the next generation's, and so are
        the objects. */
    method Do(privateKey: Option<PrivateKey>, publicKey: Option<PublicKey>, newSecret: Option<Bytes>, seed: Option<nat>,
              c: Circumstances, ghost secret: Bytes)
      returns (fault: Option<Fault>, crashed: bool, ghost after: Bytes, ghost r: P.Rotation,
               ghost actions: seq<P.Action>, ghost end: P.Run)
      requires Lawful(p) && Valid(secret) && AllFair(c.schedule)
      requires newSecret.Some? ==> |newSecret.value| == AES_256_KEY_SIZE
      modifies folder, objects
      ensures Valid(after)
      ensures var before, stored := old(Here(secret)), old(folder.stored);
              if || c.cancelled || !c.configAnswered || !c.listAnswered
                 || privateKey == None || publicKey == None || newSecret == None || seed == None
                 || stored == None || SettingsOf(stored.value) == None
                 || SettingsOf(stored.value).value.encryption == None
                 || p.unwrap(privateKey.value, SettingsOf(stored.value).value.encryption.value.encryptedKey) == None
              then fault.Some? && !crashed && Here(after) == before
              else
                var keys := NewKeys(publicKey.value, newSecret.value, seed.value);
                && CameOut(p, before, Here(after), r, keys, c, fault, crashed, actions, end)
                && Achieved(p, before, Here(after), keys, c, fault, crashed)
    {
      fault, crashed, after, r, actions, end := Run(privateKey, publicKey, newSecret, seed, c, secret);
      ghost var before := old(Here(secret));
      if Available(p, before, privateKey, publicKey, newSecret, seed, c) {
        Achieves(p, before, r, NewKeys(publicKey.value, newSecret.value, seed.value), c, fault, crashed, actions, end);
      }
    }

    method Run(privateKey: Option<PrivateKey>, publicKey: Option<PublicKey>, newSecret: Option<Bytes>,
               seed: Option<nat>, c: Circumstances, ghost secret: Bytes)
      returns (fault: Option<Fault>, crashed: bool, ghost after: Bytes, ghost r: P.Rotation,
               ghost actions: seq<P.Action>, ghost end: P.Run)
      requires Lawful(p) && Valid(secret) && AllFair(c.schedule)
      requires newSecret.Some? ==> |newSecret.value| == AES_256_KEY_SIZE
      modifies folder, objects
      ensures Valid(after)
      ensures if !Available(p, old(Here(secret)), privateKey, publicKey, newSecret, seed, c)
              then fault.Some? && !crashed && Here(after) == old(Here(secret))
              else CameOut(p, old(Here(secret)), Here(after), r,
                           NewKeys(publicKey.value, newSecret.value, seed.value), c, fault, crashed, actions, end)
    {
      crashed, after, actions := false, secret, [];
      var conf, rotation, keys;
      fault, conf, rotation, keys := Begin(privateKey, publicKey, newSecret, seed, c, secret);
      r, end := rotation, P.Start(rotation, objects.view);
      if fault.Some? {
        return;
      }
      ghost var before := Here(secret);
      var copied;
      copied, actions := Copy(rotation, c.schedule);
      end := PoolEnd(p, r, before.store, c.schedule);
      if copied == Crashed {
        crashed := true;
        UncommittedIsHarmless(p, r, P.Start(r, before.store), actions);
      } else {
        fault, actions, end := CommitAndPrune(conf, rotation, keys, copied, c, before, end, actions);
      }
      after := LeftBy(p, before, r, keys, end).secret;
      LeftConfigGood(p, before, r, keys, end);
      if Sturdy(p, before) { LeavesWell(p, before, r, keys, actions, end); }
    }
  }

  /** What comes of a rekey that could begin: its run, and what that leaves. */
  ghost predicate CameOut(p: Primitives, before: Vault, now: Vault, r: P.Rotation, keys: NewKeys, c: Circumstances,
                          fault: Option<Fault>, crashed: bool, actions: seq<P.Action>, end: P.Run)
    requires AllFair(c.schedule)
  {
    var pool := PoolEnd(p, r, before.store, c.schedule);
    && Begun(p, before, r, keys) && now == LeftBy(p, before, r, keys, end)
    && (crashed <==> CopyingOf(pool) == Crashed)
    && (if crashed
        then P.Exec(p, r, P.Start(r, before.store), actions) == Some(end) && end == pool
             && !P.DeletesAfterLoss(actions)
        else Concluded(p, r, before.store, pool, c, fault, actions, end))
    && (Sturdy(p, before) ==> WellLeft(p, r, before, now, end.committed, P.DeletesAfterLoss(actions)))
  }

  /** The configuration stays or advances. It advances, and the objects with it, when there is no error; and there is
      none when the workers are left alone over a sturdy vault, and everything after them is answered. */
  ghost predicate Achieved(p: Primitives, before: Vault, now: Vault, keys: NewKeys, c: Circumstances,
                           fault: Option<Fault>, crashed: bool) {
    && (now.config == before.config || Advanced(p, before.config, now.config, keys.pub, keys.secret))
    && (fault == None && !crashed ==>
          && now.secret == keys.secret && Advanced(p, before.config, now.config, keys.pub, keys.secret)
          && (Sturdy(p, before) ==>
                Carried(p, Enc(before).value.generation, before.secret, keys.secret, before.store, now.store)))
    && (Sturdy(p, before) && AllSmooth(c.schedule) && Answered(c) && !crashed ==> fault == None)
  }

  /** The write of the configuration is done, and the deletes are answered. */
  predicate Answered(c: Circumstances) { c.commit == Done && !c.doneBeforeDelete && c.deleteFailAt == None }

  lemma Achieves(p: Primitives, before: Vault, r: P.Rotation, keys: NewKeys, c: Circumstances, fault: Option<Fault>,
                 crashed: bool, actions: seq<P.Action>, end: P.Run)
    requires Lawful(p) && ConfigGood(p, before) && AllFair(c.schedule)
    requires CameOut(p, before, LeftBy(p, before, r, keys, end), r, keys, c, fault, crashed, actions, end)
    ensures Achieved(p, before, LeftBy(p, before, r, keys, end), keys, c, fault, crashed)
  {
    if end.committed { CommittedAdvances(p, before, r, keys, end); }
    if Sturdy(p, before) && !crashed {
      if AllSmooth(c.schedule) { SmoothCopies(p, before, r, keys, c.schedule); }
      if fault == None { CommittedCarries(p, before, r, keys, actions, end); }
    }
  }

  lemma UncommittedIsHarmless(p: Primitives, r: P.Rotation, start: P.Run, actions: seq<P.Action>)
    requires start.phase == P.Copying && !start.committed
    requires P.Exec(p, r, start, actions).Some? && !P.Exec(p, r, start, actions).value.committed
    ensures !P.DeletesAfterLoss(actions)
  {
    P.HarmIsDeleteAfterLoss(p, r, start, actions);
    if P.HarmAlong(p, r, start, actions) { HarmMeansCommitted(p, r, start, actions); }
  }

  /** What a rekey leaves is where its run leads the repository in its life - gently, unless the generation number wraps
      around, and carefully, unless it deletes after a lost reply. */
  lemma RekeyIsHistory(p: Primitives, v: Vault, published: map<string, Snapshot>, priv: PrivateKey, r: P.Rotation,
                       keys: NewKeys, actions: seq<P.Action>, end: P.Run)
    requires ConfigGood(p, v) && Begun(p, v, r, keys) && KeyFor(p, v, Some(priv)).Some?
    requires P.Exec(p, r, P.Start(r, v.store), actions) == Some(end)
    ensures var w, after := World(v, published, Quiet), World(LeftBy(p, v, r, keys, end), published, Quiet);
            && LeadsTo(p, w, after, Whatever)
            && (r.current + 1 < UINT64_LIMIT ==> LeadsTo(p, w, after, Gentle))
            && (r.current + 1 < UINT64_LIMIT && !P.DeletesAfterLoss(actions) ==> LeadsTo(p, w, after, Careful))
  {
    var w, e := World(v, published, Quiet), BeginRekey(priv, keys, r.hashes);
    KeyIsSecret(p, v, Some(priv));
    assert Rotation(p, v, e) == r;
    assert Rotated(After(p, w, e), end).(activity := Quiet) == World(LeftBy(p, v, r, keys, end), published, Quiet);
    RotationIsHistory(p, w, e, actions, end, Whatever);
    if r.current + 1 < UINT64_LIMIT { RotationIsHistory(p, w, e, actions, end, Gentle); }
    if r.current + 1 < UINT64_LIMIT && !P.DeletesAfterLoss(actions) {
      RotationIsHistory(p, w, e, actions, end, Careful);
    }
  }
}
