/**
  The create operation: it reads the configuration, gets the key, lets the workers save the files in whatever order the
  scheduler picks, and publishes the manifest, last.
 */
module Creates {
  import opened Outcomes
  import opened Primitives
  import opened Files
  import opened ObjectKeys
  import opened Objects
  import opened S3Objects
  import opened Configs
  import opened Manifests
  import opened Repositories
  import opened CreatePool
  import opened CreateSizes
  import opened CreateWorkers
  import CreateLiveness
  import P = PlainDurability
  import D = Durability
  import L = Lifetime
  import H = Histories

  datatype CreateResult = CreateResult(snapshotID: string, totalSize: nat)

  /** What a create is given: the explored source, if it could be, the snapshot's id and time, and its environment. */
  datatype Request = Request(sources: Option<seq<SourceFile>>, sourcePath: string, id: string, createdAt: int,
                             privateKey: Option<Option<PrivateKey>>, cancelled: bool, answered: bool,
                             schedule: seq<Turn>, doneAtPublish: bool, publish: Reply)

  /** Files are of a size that 64 bits can cut, and entropy comes in nonces. */
  predicate Sensible(q: Request) {
    && (q.sources.Some? ==> forall i | 0 <= i < |q.sources.value| ::
        |q.sources.value[i].content| + CHUNK_SIZE <= MAX_INT64)
    && AllFair(q.schedule)
  }

  /** What a create cannot begin without: a private key, if given, must fit the encryption there must then be. */
  predicate Available(p: Primitives, v: L.Vault, q: Request) {
    && !q.cancelled && q.answered && L.Conf(v).Some? && q.sources.Some?
    && (q.privateKey.Some? ==> q.privateKey.value.Some? && L.KeyFor(p, v, q.privateKey.value).Some?)
  }

  function PendingOf(q: Request): L.Pending { L.Pending(q.id, q.sourcePath, q.createdAt, q.privateKey.Some?) }

  function PublishedOf(b: Backup, q: Request, run: Run): L.Snapshot { L.Published(b, PendingOf(q), run) }

  /** The backup a create sets out to make: the one of the event in the repository's life. */
  function BackupOf(p: Primitives, v: L.Vault, q: Request): Backup
    requires Available(p, v, q)
  {
    var priv := if q.privateKey == None then None else q.privateKey.value;
    L.Backup(p, v, L.BeginCreate(PendingOf(q), q.sources.value, priv, 0))
  }

  /** Where the pool ends under the request's schedule. */
  function PoolEnd(p: Primitives, v: L.Vault, q: Request, most: nat): Run
    requires Available(p, v, q)
  {
    var b := BackupOf(p, v, q);
    Follow(p, b, Start(b, v.store, most), q.schedule)
  }

  /** Everybody left, without an error, and the context was not done. */
  predicate Clean(run: Run) { AllExited(run) && !run.failed && !run.cancelled }

  /** A snapshot worth publishing: it lists every file as captured, and all its objects are there. */
  ghost predicate Publishable(p: Primitives, v: L.Vault, q: Request, s: L.Snapshot) {
    P.RecordGood(p, s) && P.Held(L.Enc(v), v.store, s) && q.sources == Some(s.sources)
    && (s.keyed <==> q.privateKey.Some?)
  }

  /** A vault as every gentle history has it. */
  ghost predicate Sturdy(p: Primitives, v: L.Vault) {
    P.ConfigGood(p, v) && D.StoreGood(p, L.Enc(v), v.secret, v.store)
  }

  /** The total is between the size of the objects that are new and that of all parts missing at the start, and with one
      worker it is the former. */
  ghost predicate TotalFits(p: Primitives, b: Backup, before: Store, most: nat, end: Run) {
    && ListsNew(p, b, before, end.store, end.born)
    && SumSizes(end.born) <= end.total <= MissingFrom(p, b, before, 0)
    && (most <= 1 ==> end.total == SumSizes(end.born))
  }

  // What the pool leaves

  lemma BackupIsPrepared(p: Primitives, v: L.Vault, q: Request)
    requires P.ConfigGood(p, v) && Available(p, v, q)
    ensures var b := BackupOf(p, v, q);
            && Prepared(b) && Normal(b.comp) && (q.privateKey.Some? ==> L.Enc(v).Some?)
            && b.space == P.ModeSpace(L.Enc(v), q.privateKey.Some?)
            && b.key == P.ModeKey(L.Enc(v), v.secret, q.privateKey.Some?)
  {
    P.KeyIsSecret(p, v, if q.privateKey == None then None else q.privateKey.value);
  }

  lemma PoolEndIsReached(p: Primitives, v: L.Vault, q: Request, most: nat)
    requires Available(p, v, q)
    ensures Reached(p, BackupOf(p, v, q), v.store, most, PoolEnd(p, v, q, most))
  {
    var b := BackupOf(p, v, q);
    StartReached(p, b, v.store, most);
    FollowIsRun(p, b, v.store, most, Start(b, v.store, most), q.schedule);
  }

  /** With entropy at hand, nothing new is unsealed. */
  lemma PoolSeals(p: Primitives, v: L.Vault, q: Request, most: nat)
    requires Lawful(p) && P.ConfigGood(p, v) && Available(p, v, q) && SealsAll(BackupOf(p, v, q), q.schedule)
    ensures var b, end := BackupOf(p, v, q), PoolEnd(p, v, q, most);
            ReachedSealed(p, b, v.store, most, end) && NewAreSealed(b, v.store, end.store)
  {
    var b, end := BackupOf(p, v, q), PoolEnd(p, v, q, most);
    var start := Start(b, v.store, most);
    BackupIsPrepared(p, v, q);
    assert Exec(p, b, start, []) == Some(start) && PutsSealed(b, []);
    FollowIsSealed(p, b, v.store, most, start, q.schedule);
    var actions :| Exec(p, b, start, actions) == Some(end) && PutsSealed(b, actions);
    StartInv(p, b, v.store, most);
    ExecSealed(p, b, v.store, start, actions);
  }

  /** What saving leaves is good for the configuration there is, and takes nothing away from any snapshot. */
  lemma SavingKeeps(p: Primitives, v: L.Vault, b: Backup, keyed: bool, store: Store)
    requires Sturdy(p, v) && StoreInv(p, b, v.store, store) && NewAreSealed(b, v.store, store)
    requires (keyed ==> L.Enc(v).Some?) && b.space == P.ModeSpace(L.Enc(v), keyed)
             && b.key == P.ModeKey(L.Enc(v), v.secret, keyed)
    ensures D.Kept(p, v, v.(store := store))
  {
    D.GrowthKeeps(p, L.Enc(v), v.secret, keyed, b, v.store, store);
    forall s | P.Held(L.Enc(v), v.store, s) ensures P.Held(L.Enc(v), store, s) {
      forall i | 0 <= i < |P.Read(s).value.files|
        ensures HasParts(store, P.ModeSpace(L.Enc(v), s.keyed), Parts(P.Read(s).value.files[i]))
      {
        assert HasParts(v.store, P.ModeSpace(L.Enc(v), s.keyed), Parts(P.Read(s).value.files[i]));
      }
    }
  }

  lemma PoolKeeps(p: Primitives, v: L.Vault, q: Request, most: nat)
    requires Lawful(p) && Sturdy(p, v) && Available(p, v, q) && SealsAll(BackupOf(p, v, q), q.schedule)
    ensures D.Kept(p, v, v.(store := PoolEnd(p, v, q, most).store))
  {
    var b, end := BackupOf(p, v, q), PoolEnd(p, v, q, most);
    BackupIsPrepared(p, v, q);
    PoolEndIsReached(p, v, q, most);
    PoolSeals(p, v, q, most);
    ReachedInv(p, b, v.store, most, end);
    SavingKeeps(p, v, b, q.privateKey.Some?, end.store);
  }

  ghost predicate PublishedRun(p: Primitives, b: Backup, before: Store, most: nat, end: Run) {
    exists actions :: Exec(p, b, Start(b, before, most), actions) == Some(end.(phase := Ended, published := true))
  }

  /** A pool that ended clean goes on to a publication in the protocol. */
  lemma CleanPublishes(p: Primitives, b: Backup, before: Store, most: nat, end: Run)
    requires Reached(p, b, before, most, end) && Clean(end)
    ensures PublishedRun(p, b, before, most, end)
  {
    var actions :| Exec(p, b, Start(b, before, most), actions) == Some(end);
    var tail := [CheckContext, Publish];
    ExecTwo(p, b, end, tail);
    ExecAppend(p, b, Start(b, before, most), actions, tail);
    assert Exec(p, b, Start(b, before, most), actions + tail) == Some(end.(phase := Ended, published := true));
  }

  lemma ReachedSizes(p: Primitives, b: Backup, before: Store, most: nat, end: Run)
    requires Lawful(p) && Prepared(b) && PublishedRun(p, b, before, most, end)
    ensures TotalFits(p, b, before, most, end)
  {
    var done := end.(phase := Ended, published := true);
    var actions :| Exec(p, b, Start(b, before, most), actions) == Some(done);
    StartInv(p, b, before, most);
    StartSizes(p, b, before, most);
    ExecSizes(p, b, before, Start(b, before, most), actions);
    SizeAccounting(p, b, before, most, actions, done.born);
  }

  lemma PublishedIsPublishable(p: Primitives, v: L.Vault, q: Request, most: nat)
    requires Lawful(p) && P.ConfigGood(p, v) && Available(p, v, q)
    requires var b, end := BackupOf(p, v, q), PoolEnd(p, v, q, most); PublishedRun(p, b, v.store, most, end)
    ensures var b, end := BackupOf(p, v, q), PoolEnd(p, v, q, most);
            Publishable(p, v.(store := end.store), q, PublishedOf(b, q, end))
  {
    var b, end := BackupOf(p, v, q), PoolEnd(p, v, q, most);
    var done := end.(phase := Ended, published := true);
    var actions :| Exec(p, b, Start(b, v.store, most), actions) == Some(done);
    BackupIsPrepared(p, v, q);
    StartInv(p, b, v.store, most);
    ExecInv(p, b, v.store, Start(b, v.store, most), actions);
    P.PublishedIsGood(p, L.Enc(v), b, PendingOf(q), v.store, done);
  }

  /** When the pool ends clean, the manifest it fills is worth publishing, by a run of the protocol that publishes it,
      and the total fits. */
  lemma CleanIsComplete(p: Primitives, v: L.Vault, q: Request, most: nat)
    requires Lawful(p) && P.ConfigGood(p, v) && Available(p, v, q) && Clean(PoolEnd(p, v, q, most))
    ensures var b, end := BackupOf(p, v, q), PoolEnd(p, v, q, most);
            && PublishedRun(p, b, v.store, most, end) && TotalFits(p, b, v.store, most, end)
            && Publishable(p, v.(store := end.store), q, PublishedOf(b, q, end))
  {
    var b, end := BackupOf(p, v, q), PoolEnd(p, v, q, most);
    BackupIsPrepared(p, v, q);
    PoolEndIsReached(p, v, q, most);
    CleanPublishes(p, b, v.store, most, end);
    ReachedSizes(p, b, v.store, most, end);
    PublishedIsPublishable(p, v, q, most);
  }

  /** Left alone, and with no empty file that format two would have to store, every schedule that lets everybody leave
      ends clean. */
  lemma UntroubledIsClean(p: Primitives, v: L.Vault, q: Request, most: nat)
    requires Lawful(p) && P.ConfigGood(p, v) && Available(p, v, q) && Sensible(q) && AllSmooth(q.schedule)
    requires CreateLiveness.EmptyFilesStored(p, BackupOf(p, v, q), v.store) && AllExited(PoolEnd(p, v, q, most))
    ensures Clean(PoolEnd(p, v, q, most))
  {
    var b := BackupOf(p, v, q);
    BackupIsPrepared(p, v, q);
    StartReached(p, b, v.store, most);
    SmoothRun(p, b, v.store, most, Start(b, v.store, most), q.schedule);
  }

  /** The manifest is written: the pool ended clean, the context is still not done, and the put is not refused. */
  predicate Written(q: Request, end: Run) { Clean(end) && !q.doneAtPublish && q.publish != Refused }

  /** The repository after a create. */
  function AfterCreate(p: Primitives, v: L.Vault, published: map<string, L.Snapshot>, q: Request, most: nat): L.World
    requires Available(p, v, q)
  {
    var b, end := BackupOf(p, v, q), PoolEnd(p, v, q, most);
    L.World(v.(store := end.store), if Written(q, end) then published[q.id := PublishedOf(b, q, end)] else published,
            L.Quiet)
  }

  /** What a create leaves is where its run leads the repository in its life: carefully, if it seals what it puts. */
  lemma CreateIsHistory(p: Primitives, v: L.Vault, published: map<string, L.Snapshot>, q: Request, most: nat)
    requires Lawful(p) && P.ConfigGood(p, v) && Available(p, v, q)
    ensures H.LeadsTo(p, L.World(v, published, L.Quiet), AfterCreate(p, v, published, q, most), L.Whatever)
    ensures SealsAll(BackupOf(p, v, q), q.schedule) ==>
              H.LeadsTo(p, L.World(v, published, L.Quiet), AfterCreate(p, v, published, q, most), L.Careful)
  {
    var b, end := BackupOf(p, v, q), PoolEnd(p, v, q, most);
    PoolEndIsReached(p, v, q, most);
    var actions :| Exec(p, b, Start(b, v.store, most), actions) == Some(end);
    ReachedUnpublished(p, b, v.store, most, end);
    RunIsHistory(p, v, published, q, most, actions, L.Whatever);
    if SealsAll(b, q.schedule) {
      PoolSeals(p, v, q, most);
      var sealing :| Exec(p, b, Start(b, v.store, most), sealing) == Some(end) && PutsSealed(b, sealing);
      RunIsHistory(p, v, published, q, most, sealing, L.Careful);
    }
  }

  lemma RunIsHistory(p: Primitives, v: L.Vault, published: map<string, L.Snapshot>, q: Request, most: nat,
                     actions: seq<Action>, kind: (L.World, L.Event) -> bool)
    requires Available(p, v, q)
    requires var b, end := BackupOf(p, v, q), PoolEnd(p, v, q, most);
             && Exec(p, b, Start(b, v.store, most), actions) == Some(end) && end.phase == Working && !end.published
             && (kind == L.Whatever || (kind == L.Careful && PutsSealed(b, actions)))
    ensures H.LeadsTo(p, L.World(v, published, L.Quiet), AfterCreate(p, v, published, q, most), kind)
  {
    var b, w := BackupOf(p, v, q), L.World(v, published, L.Quiet);
    var priv := if q.privateKey == None then None else q.privateKey.value;
    var e := L.BeginCreate(PendingOf(q), q.sources.value, priv, most);
    var all, last := WholeRun(p, b, v.store, most, q, PoolEnd(p, v, q, most), actions);
    H.CreateRunsTo(p, w, e, all, last, kind);
    H.StopsAt(p, w, H.Created(L.After(p, w, e), last), kind);
  }

  /** The run of the pool, and the publication if there is one. */
  lemma WholeRun(p: Primitives, b: Backup, before: Store, most: nat, q: Request, end: Run, actions: seq<Action>)
    returns (all: seq<Action>, last: Run)
    requires Exec(p, b, Start(b, before, most), actions) == Some(end) && end.phase == Working && !end.published
    ensures Exec(p, b, Start(b, before, most), all) == Some(last)
    ensures last.store == end.store && last.files == end.files && (last.published <==> Written(q, end))
    ensures PutsSealed(b, actions) ==> PutsSealed(b, all)
  {
    all, last := actions, end;
    if Written(q, end) {
      var tail := [CheckContext, Publish];
      ExecTwo(p, b, end, tail);
      ExecAppend(p, b, Start(b, before, most), actions, tail);
      all, last := actions + tail, end.(phase := Ended, published := true);
    }
  }

  lemma ReachedUnpublished(p: Primitives, b: Backup, before: Store, most: nat, end: Run)
    requires Lawful(p) && Reached(p, b, before, most, end)
    ensures !end.published
  {
    var actions :| Exec(p, b, Start(b, before, most), actions) == Some(end);
    PublishedIsEnded(p, b, Start(b, before, most), actions);
  }

  lemma {:induction false} PublishedIsEnded(p: Primitives, b: Backup, run: Run, actions: seq<Action>)
    requires Exec(p, b, run, actions).Some? && (run.published ==> run.phase == Ended)
    ensures var end := Exec(p, b, run, actions).value; end.published ==> end.phase == Ended
    decreases |actions|
  {
    if actions != [] {
      H.StaysPublished(p, b, run, actions[0]);
      PublishedIsEnded(p, b, Apply(p, b, run, actions[0]), actions[1..]);
    }
  }

  // What a create comes to, in terms of the request and what is stored

  /** The manifest is that of the request: its id, its source and its time, the configuration's compression, and every
      file as the configuration's format records it. */
  ghost predicate Captured(p: Primitives, q: Request, c: Settings, m: Manifest) {
    && m.id == q.id && m.source == q.sourcePath && m.createdAt == q.createdAt && m.comp == c.comp
    && q.sources.Some? && |m.files| == |q.sources.value|
    && forall i: nat | i < |m.files| ::
         && m.files[i].path == q.sources.value[i].path && m.files[i].size == |q.sources.value[i].content|
         && m.files[i] == Calculated(p, c.format, c.comp, q.sources.value[i])
  }

  function ReadBack(snapshots: map<string, StoredManifest>, id: string): Option<Manifest> {
    if id in snapshots then ManifestOf(Unmarshal(snapshots[id])) else None
  }

  /** Under the id is the manifest of the request, all its objects are there, and the other snapshots are as they
      were. */
  ghost predicate Listed(p: Primitives, q: Request, c: Settings, e: EncryptionData, was: map<string, StoredManifest>,
                         now: map<string, StoredManifest>, store: Store) {
    && ReadBack(now, q.id).Some? && Captured(p, q, c, ReadBack(now, q.id).value)
    && (forall i: nat | i < |ReadBack(now, q.id).value.files| ::
          HasParts(store, SpaceFor(e.symmetricKey, e.generation), Parts(ReadBack(now, q.id).value.files[i])))
    && forall id | id != q.id :: (id in now <==> id in was) && (id in now ==> now[id] == was[id])
  }

  /** What a create cannot do without: the sources, the configuration, and, if a private key is given, the key it gets
      out of that. */
  ghost predicate Given(p: Primitives, stored: Option<ConfigRecord>, q: Request) {
    && !q.cancelled && q.answered && q.sources.Some? && stored.Some? && SettingsOf(stored.value).Some?
    && exists e :: Unlocks(p, stored, q.privateKey, e)
  }

  /** Format two cannot put the object of an empty file, so that must be there already. */
  predicate EmptyOnesStored(p: Primitives, q: Request, c: Settings, e: EncryptionData, store: Store)
    requires q.sources.Some?
  {
    c.format != 2 || forall i | 0 <= i < |q.sources.value| && q.sources.value[i].content == [] ::
        ObjectId(SpaceFor(e.symmetricKey, e.generation), HashOf(p, c.comp, [])) in store
  }

  /** No object that was there changes. The manifest is listed if the create succeeds; otherwise nothing is, or all of
      it. Left alone, it succeeds exactly when there is no empty file that cannot be stored. */
  ghost predicate Achieved(p: Primitives, before: L.Vault, store: Store, q: Request, e: EncryptionData,
                           was: map<string, StoredManifest>, now: map<string, StoredManifest>,
                           r: Result<CreateResult>, crashed: bool)
    requires q.sources.Some? && L.Conf(before).Some?
  {
    var c := L.Conf(before).value;
    && (forall id :: id in before.store ==> id in store && store[id] == before.store[id])
    && (now == was || Listed(p, q, c, e, was, now, store))
    && (r.Ok? ==> !crashed && r.value.snapshotID == q.id && Listed(p, q, c, e, was, now, store))
    && (AllSmooth(q.schedule) && !q.doneAtPublish && q.publish == Done && !crashed ==>
          (r.Ok? <==> EmptyOnesStored(p, q, c, e, before.store)))
  }

  lemma GivenIsAvailable(p: Primitives, v: L.Vault, q: Request)
    ensures Given(p, v.config, q) <==> Available(p, v, q)
  {
    if Available(p, v, q) {
      assert KeyOf(p, v.config, q.privateKey).Some?;
      assert Unlocks(p, v.config, q.privateKey, KeyOf(p, v.config, q.privateKey).value);
    }
  }

  lemma GivenBackup(p: Primitives, v: L.Vault, q: Request, e: EncryptionData)
    requires P.ConfigGood(p, v) && Available(p, v, q) && Unlocks(p, v.config, q.privateKey, e)
    ensures var b := BackupOf(p, v, q);
            && b.space == SpaceFor(e.symmetricKey, e.generation) && b.sources == q.sources.value
            && b.format == L.Conf(v).value.format && b.comp == L.Conf(v).value.comp
            && (CreateLiveness.EmptyFilesStored(p, b, v.store) <==>
                  EmptyOnesStored(p, q, L.Conf(v).value, e, v.store))
  {
    BackupIsPrepared(p, v, q);
  }

  lemma WrittenIsListed(p: Primitives, v: L.Vault, q: Request, most: nat, e: EncryptionData,
                        was: map<string, StoredManifest>)
    requires Lawful(p) && P.ConfigGood(p, v) && Available(p, v, q) && Unlocks(p, v.config, q.privateKey, e)
    requires Clean(PoolEnd(p, v, q, most))
    ensures var b, end := BackupOf(p, v, q), PoolEnd(p, v, q, most);
            Listed(p, q, L.Conf(v).value, e, was, was[q.id := PublishedOf(b, q, end).stored], end.store)
  {
    var b, end := BackupOf(p, v, q), PoolEnd(p, v, q, most);
    var m := Manifest(q.id, end.files, q.createdAt, q.sourcePath, b.comp);
    GivenBackup(p, v, q, e);
    FilledIsCaptured(p, v, q, most, m);
    assert ReadBack(was[q.id := PublishedOf(b, q, end).stored], q.id) == Some(m);
  }

  lemma CleanIsPublishable(p: Primitives, v: L.Vault, q: Request, most: nat)
    requires Lawful(p) && P.ConfigGood(p, v) && Available(p, v, q) && Clean(PoolEnd(p, v, q, most))
    ensures var s := PublishedOf(BackupOf(p, v, q), q, PoolEnd(p, v, q, most));
            P.RecordGood(p, s) && P.Held(L.Enc(v), PoolEnd(p, v, q, most).store, s)
  {
    CleanIsComplete(p, v, q, most);
  }

  lemma FilledIsCaptured(p: Primitives, v: L.Vault, q: Request, most: nat, m: Manifest)
    requires Lawful(p) && P.ConfigGood(p, v) && Available(p, v, q) && Clean(PoolEnd(p, v, q, most))
    requires var b, end := BackupOf(p, v, q), PoolEnd(p, v, q, most);
             m == Manifest(q.id, end.files, q.createdAt, q.sourcePath, b.comp)
    ensures var b, end := BackupOf(p, v, q), PoolEnd(p, v, q, most);
            && P.Read(PublishedOf(b, q, end)) == Some(m) && Captured(p, q, L.Conf(v).value, m)
            && forall i: nat | i < |m.files| :: HasParts(end.store, b.space, Parts(m.files[i]))
  {
    BackupIsPrepared(p, v, q);
    CleanIsPublishable(p, v, q, most);
    ManifestRoundTrip(m);
    HeldFiles(p, v.(store := PoolEnd(p, v, q, most).store), PublishedOf(BackupOf(p, v, q), q, PoolEnd(p, v, q, most)),
              m);
  }

  lemma HeldFiles(p: Primitives, v: L.Vault, s: L.Snapshot, m: Manifest)
    requires P.Read(s) == Some(m) && P.RecordGood(p, s) && P.Held(L.Enc(v), v.store, s)
    ensures |m.files| == |s.sources|
    ensures forall i: nat | i < |m.files| :: m.files[i] == Calculated(p, s.format, m.comp, s.sources[i])
    ensures forall i: nat | i < |m.files| :: HasParts(v.store, P.ModeSpace(L.Enc(v), s.keyed), Parts(m.files[i]))
  {
  }

  lemma PoolGrows(p: Primitives, v: L.Vault, q: Request, most: nat)
    requires Lawful(p) && P.ConfigGood(p, v) && Available(p, v, q)
    ensures forall id :: id in v.store ==>
              id in PoolEnd(p, v, q, most).store && PoolEnd(p, v, q, most).store[id] == v.store[id]
  {
    BackupIsPrepared(p, v, q);
    PoolEndIsReached(p, v, q, most);
    ReachedInv(p, BackupOf(p, v, q), v.store, most, PoolEnd(p, v, q, most));
  }

  lemma CleanExactly(p: Primitives, v: L.Vault, q: Request, most: nat)
    requires Lawful(p) && P.ConfigGood(p, v) && Available(p, v, q) && Sensible(q) && AllSmooth(q.schedule)
    requires AllExited(PoolEnd(p, v, q, most))
    ensures Clean(PoolEnd(p, v, q, most)) <==> CreateLiveness.EmptyFilesStored(p, BackupOf(p, v, q), v.store)
  {
    var b, end := BackupOf(p, v, q), PoolEnd(p, v, q, most);
    if CreateLiveness.EmptyFilesStored(p, b, v.store) {
      UntroubledIsClean(p, v, q, most);
    } else if Clean(end) {
      BackupIsPrepared(p, v, q);
      PoolEndIsReached(p, v, q, most);
      CleanPublishes(p, b, v.store, most, end);
      var actions :| Exec(p, b, Start(b, v.store, most), actions) == Some(end.(phase := Ended, published := true));
      CreateLiveness.Unpublished(p, b, v.store, most, actions);
    }
  }

  lemma Achieves(p: Primitives, before: L.Vault, after: L.Vault, q: Request, most: nat, e: EncryptionData,
                 was: map<string, StoredManifest>, now: map<string, StoredManifest>, r: Result<CreateResult>,
                 crashed: bool)
    requires Lawful(p) && P.ConfigGood(p, before) && Sensible(q)
    requires Available(p, before, q) && Unlocks(p, before.config, q.privateKey, e)
    requires CameOut(p, before, after, q, most, was, now, r, crashed)
    ensures Achieved(p, before, after.store, q, e, was, now, r, crashed)
  {
    PoolGrows(p, before, q, most);
    GivenBackup(p, before, q, e);
    if Clean(PoolEnd(p, before, q, most)) { WrittenIsListed(p, before, q, most, e, was); }
    if AllSmooth(q.schedule) && !crashed { CleanExactly(p, before, q, most); }
  }

  // The operation

  class Create {
    const p: Primitives
    const folder: FolderRepository
    const objects: ObjectRepository
    const manifests: ManifestRepository
    const workers: int
    const defaultWorkers: nat

    constructor (folder: FolderRepository, objects: ObjectRepository, manifests: ManifestRepository, workers: int,
                 defaultWorkers: nat)
      ensures this.folder == folder && this.objects == objects && this.manifests == manifests && this.p == objects.p
      ensures this.workers == workers && this.defaultWorkers == defaultWorkers
    {
      this.p, this.folder, this.objects, this.manifests := objects.p, folder, objects, manifests;
      this.workers, this.defaultWorkers := workers, defaultWorkers;
    }

    /** How many workers there may be; there are no more than files, and at least one. */
    function Most(): nat { if workers <= 0 then defaultWorkers else workers }

    ghost function Here(secret: Bytes): L.Vault
      reads folder, objects
    {
      L.Vault(folder.stored, secret, objects.view)
    }

    ghost predicate Valid(secret: Bytes)
      reads folder, objects
    {
      objects.Valid() && objects.p == p && P.ConfigGood(p, Here(secret))
    }

    /** The key, the namespace and the rest of what the files are saved with. */
    method Begin(q: Request, ghost secret: Bytes) returns (fault: Option<Fault>, b: Backup, generation: nat)
      requires Valid(secret)
      ensures fault == None <==> Available(p, Here(secret), q)
      ensures fault == None ==> b == BackupOf(p, Here(secret), q) && b.space == SpaceFor(b.key, generation)
    {
      fault, b, generation := Some(Broken), Backup([], 1, Compression(Uncompressed, None), Plain, []), 0;
      var conf := folder.GetConfig(q.cancelled, q.answered);
      if conf == null || q.sources == None {
        return;
      }
      var data := GetSymmetricKey(p, conf.encryption, q.privateKey);
      if data.Err? {
        return Some(data.fault), b, 0;
      }
      var key: Bytes := [];
      if data.value.Some? {
        key := data.value.value.symmetricKey;
      }
      if |key| != 0 {
        generation := conf.encryption.generation;
      }
      b := Backup(q.sources.value, conf.format, conf.comp, SpaceFor(key, generation), key);
      fault := None;
    }

    /** The pool under the request's schedule. */
    method SaveAll(q: Request, b: Backup, generation: nat, ghost secret: Bytes) returns (finished: bool, pool: Pool)
      requires Lawful(p) && Valid(secret) && Sensible(q) && Available(p, Here(secret), q)
      requires b == BackupOf(p, Here(secret), q) && b.space == SpaceFor(b.key, generation)
      modifies objects
      ensures Valid(secret) && pool.objects == objects
      ensures pool.Now() == PoolEnd(p, old(Here(secret)), q, Most()) && (finished <==> AllExited(pool.Now()))
    {
      BackupIsPrepared(p, Here(secret), q);
      pool := new Pool(objects, b, generation, Most());
      finished := pool.SaveFiles(q.schedule);
    }

    /** What follows the pool: its error, or the manifest, last. */
    method Publish(q: Request, b: Backup, pool: Pool) returns (r: Result<CreateResult>)
      requires pool.objects == objects && AllExited(pool.Now())
      modifies manifests
      ensures r == if Clean(pool.Now()) && !q.doneAtPublish && q.publish == Done
                   then Ok(CreateResult(q.id, pool.totalSize)) else Err(Broken)
      ensures manifests.snapshots == if Written(q, pool.Now())
                                     then old(manifests.snapshots)[q.id := PublishedOf(b, q, pool.Now()).stored]
                                     else old(manifests.snapshots)
    {
      if pool.failed {
        return Err(Broken);
      }
      var manifest := Manifest(q.id, pool.files, q.createdAt, q.sourcePath, b.comp);
      var fault := manifests.Save(manifest, pool.cancelled || q.doneAtPublish, q.publish);
      return if fault == None then Ok(CreateResult(q.id, pool.totalSize)) else Err(Broken);
    }

    /** The pool runs as its schedule says, and the manifest is written exactly when it ended clean and the context is
        still not done; then every file is listed as captured and all its objects are there. Of a sturdy vault nothing
        is lost, whatever happens: every snapshot that could be read before can be read after. A schedule that ends
        before everybody left is a crash. */
    method Do(q: Request, ghost secret: Bytes) returns (r: Result<CreateResult>, crashed: bool)
      requires Lawful(p) && Valid(secret) && Sensible(q)
      modifies objects, manifests
      ensures Valid(secret)
      ensures if !Given(p, folder.stored, q)
              then r.Err? && !crashed && objects.view == old(objects.view)
                   && manifests.snapshots == old(manifests.snapshots)
              else
                && CameOut(p, old(Here(secret)), Here(secret), q, Most(), old(manifests.snapshots), manifests.snapshots,
                           r, crashed)
                && WellCreated(p, old(Here(secret)), q, Most())
                && forall e :: Unlocks(p, folder.stored, q.privateKey, e) ==>
                     Achieved(p, old(Here(secret)), objects.view, q, e, old(manifests.snapshots), manifests.snapshots,
                              r, crashed)
    {
      r, crashed := Run(q, secret);
      ghost var before := old(Here(secret));
      GivenIsAvailable(p, before, q);
      if Available(p, before, q) {
        ComesOut(p, before, q, Most());
        forall e | Unlocks(p, folder.stored, q.privateKey, e)
          ensures Achieved(p, before, objects.view, q, e, old(manifests.snapshots), manifests.snapshots, r, crashed)
        {
          Achieves(p, before, Here(secret), q, Most(), e, old(manifests.snapshots), manifests.snapshots, r, crashed);
        }
      }
    }

    method Run(q: Request, ghost secret: Bytes) returns (r: Result<CreateResult>, crashed: bool)
      requires Lawful(p) && Valid(secret) && Sensible(q)
      modifies objects, manifests
      ensures Valid(secret)
      ensures if !Available(p, old(Here(secret)), q)
              then r.Err? && !crashed && objects.view == old(objects.view)
                   && manifests.snapshots == old(manifests.snapshots)
              else CameOut(p, old(Here(secret)), Here(secret), q, Most(), old(manifests.snapshots), manifests.snapshots,
                           r, crashed)
    {
      crashed, r := false, Err(Broken);
      var fault, b, generation := Begin(q, secret);
      if fault.Some? {
        return;
      }
      var finished, pool := SaveAll(q, b, generation, secret);
      crashed := !finished;
      if finished {
        r := Publish(q, b, pool);
      }
    }
  }

  /** What comes of a create that could begin. */
  ghost predicate CameOut(p: Primitives, before: L.Vault, after: L.Vault, q: Request, most: nat,
                          was: map<string, StoredManifest>, now: map<string, StoredManifest>,
                          r: Result<CreateResult>, crashed: bool)
    requires Available(p, before, q)
  {
    var b, end := BackupOf(p, before, q), PoolEnd(p, before, q, most);
    && after == before.(store := end.store) && (crashed <==> !AllExited(end))
    && (r.Ok? <==> Clean(end) && !q.doneAtPublish && q.publish == Done)
    && (r.Ok? ==> r.value == CreateResult(q.id, end.total))
    && now == (if Written(q, end) then was[q.id := PublishedOf(b, q, end).stored] else was)
  }

  /** What is known of the state the pool ends in. */
  ghost predicate WellCreated(p: Primitives, before: L.Vault, q: Request, most: nat)
    requires Available(p, before, q)
  {
    var b, end := BackupOf(p, before, q), PoolEnd(p, before, q, most);
    && (Sturdy(p, before) && SealsAll(b, q.schedule) ==> D.Kept(p, before, before.(store := end.store)))
    && (Clean(end) ==> && Publishable(p, before.(store := end.store), q, PublishedOf(b, q, end))
                       && PublishedRun(p, b, before.store, most, end)
                       && TotalFits(p, b, before.store, most, end))
  }

  lemma ComesOut(p: Primitives, before: L.Vault, q: Request, most: nat)
    requires Lawful(p) && P.ConfigGood(p, before) && Available(p, before, q)
    ensures WellCreated(p, before, q, most)
  {
    if Sturdy(p, before) && SealsAll(BackupOf(p, before, q), q.schedule) { PoolKeeps(p, before, q, most); }
    if Clean(PoolEnd(p, before, q, most)) { CleanIsComplete(p, before, q, most); }
  }
}
