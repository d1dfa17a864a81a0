/** The operations together: whatever is called on a repository, in whatever order and with whatever comes of it, the
    state it is left in is one of a history of its life. So what Durability says of histories holds of what the
    methods do. */
module Operations {
  import opened Outcomes
  import opened Primitives
  import opened Files
  import opened ObjectKeys
  import opened Objects
  import opened S3Objects
  import opened Configs
  import opened Repositories
  import opened Manifests
  import opened Lifetime
  import opened Histories
  import opened PlainDurability
  import Creates
  import CreateWorkers
  import Verifies
  import VerifyWorkers
  import VerifyPool
  import opened Replacing
  import opened Restores
  import D = Durability
  import ReKeys
  import Rekey = RekeyProtocol
  import RekeyPool

  /** The manifests in the repository are those of the published snapshots. */
  predicate Lists(published: map<string, Snapshot>, snapshots: map<string, StoredManifest>) {
    && (forall id | id in published :: id in snapshots && snapshots[id] == published[id].stored)
    && (forall id | id in snapshots :: id in published)
  }

  /** What a request of an init asks for. */
  datatype Wish = Wish(id: nat, version: int, compType: CompressionType, level: Option<int>, keys: Option<NewKeys>,
                       force: bool)

  function InitEvent(w: Wish): Event { Init(w.id, w.version, w.compType, w.level, w.keys, w.force) }

  /** The settings an init is called with, if the wish can be put into settings at all. */
  method Settle(p: Primitives, wish: Wish) returns (wanted: Config?)
    requires Lawful(p) && (wish.keys.Some? ==> |wish.keys.value.secret| == AES_256_KEY_SIZE)
    ensures wanted != null <==> Wanted(p, InitEvent(wish)).Some?
    ensures wanted != null ==> Some(wanted.Value()) == Wanted(p, InitEvent(wish))
  {
    var comp := NewCompression(wish.compType, wish.level);
    if comp == None {
      return null;
    }
    var encryption: EncryptionConfig? := null;
    if wish.keys.Some? {
      var keys := wish.keys.value;
      encryption := CreateEncryptionConfig(p, Some(keys.pub), Some(keys.secret), Some(keys.seed));
    }
    wanted := new Config(wish.id, ParseFormatVersion(wish.version), comp.value, encryption);
  }

  /** The encryption that was asked for: a new secret in generation one, for the owner of the public key alone. */
  ghost predicate Keyed(p: Primitives, keys: Option<NewKeys>, encryption: Option<Encryption>) {
    match keys
    case None => encryption == None
    case Some(k) =>
      && encryption.Some? && encryption.value.generation == 1 && encryption.value.fingerprint == p.fingerprint(k.pub)
      && forall priv :: p.unwrap(priv, encryption.value.encryptedKey) ==
                        if PublicOf(priv) == k.pub then Some(k.secret) else None
  }

  /** What a wish comes to, read back. Over no configuration it is granted as it is, an unknown version being the
      current one. Over one, id and format stay, and so does the encryption, if there is any, unless its removal is
      forced. */
  ghost predicate Granted(p: Primitives, wish: Wish, before: Option<ConfigRecord>, after: Option<ConfigRecord>) {
    && after.Some? && SettingsOf(after.value).Some? && (before.Some? ==> SettingsOf(before.value).Some?)
    && var now := SettingsOf(after.value).value;
       && now.comp.compType == wish.compType && Leveled(wish.compType, wish.level, now.comp.level)
       && match before
          case None =>
            && now.id == wish.id && now.format == (if 1 <= wish.version <= 2 then wish.version else 2)
            && Keyed(p, wish.keys, now.encryption)
          case Some(record) =>
            var was := SettingsOf(record).value;
            && now.id == was.id && now.format == was.format
            && if was.encryption.Some? && !(wish.force && wish.keys == None) then now.encryption == was.encryption
               else Keyed(p, wish.keys, now.encryption)
  }

  /** A wish without keys over a configuration with some is told what becomes of those. */
  function Warnings(wish: Wish, before: Option<ConfigRecord>): seq<Warning> {
    if wish.keys.Some? || before == None || SettingsOf(before.value) == None
       || SettingsOf(before.value).value.encryption == None
    then [] else if wish.force then [EncryptionRemoved] else [EncryptionPreserved]
  }

  /** A wish can be settled exactly when its level is one there is. */
  lemma SettledIsLeveled(p: Primitives, wish: Wish)
    requires wish.keys.Some? ==> |wish.keys.value.secret| == AES_256_KEY_SIZE
    ensures Wanted(p, InitEvent(wish)).Some? <==> exists level :: Leveled(wish.compType, wish.level, level)
  {
    if Wanted(p, InitEvent(wish)).Some? {
      assert Leveled(wish.compType, wish.level, Wanted(p, InitEvent(wish)).value.comp.level);
    }
  }

  lemma SettledIsGranted(p: Primitives, wish: Wish, before: Option<ConfigRecord>, after: Option<ConfigRecord>)
    requires Lawful(p) && Wanted(p, InitEvent(wish)).Some?
    requires Initialised(before, after, Wanted(p, InitEvent(wish)).value, wish.force)
    ensures Granted(p, wish, before, after)
  {
  }

  method InitAsWished(p: Primitives, folder: FolderRepository, wish: Wish, doneFrom: nat, answered: bool, reply: Reply)
    returns (r: Result<InitResult>)
    requires Lawful(p) && (wish.keys.Some? ==> |wish.keys.value.secret| == AES_256_KEY_SIZE)
    modifies folder
    ensures folder.stored == old(folder.stored) || Granted(p, wish, old(folder.stored), folder.stored)
    ensures r.Ok? ==> Granted(p, wish, old(folder.stored), folder.stored) && folder.stored.value.id == Some(r.value.id)
    ensures r.Ok? <==> && (old(folder.stored).Some? ==> SettingsOf(old(folder.stored).value).Some?)
                       && (exists level :: Leveled(wish.compType, wish.level, level))
                       && doneFrom > 5 && answered && reply == Done
    ensures r.Ok? ==> r.value.warnings == Warnings(wish, old(folder.stored))
    ensures folder.stored != old(folder.stored) ==>
              && Wanted(p, InitEvent(wish)).Some?
              && var after := AfterInit(old(folder.stored), Wanted(p, InitEvent(wish)).value, wish.force);
                 after.Some? && folder.stored == Some(RecordOf(after.value))
  {
    ghost var before := folder.stored;
    var wanted := Settle(p, wish);
    SettledIsLeveled(p, wish);
    if wanted == null {
      return Err(Rejected);
    }
    WantedIsOrdinary(p, InitEvent(wish));
    r := Repositories.Init(folder, wanted, wish.force, doneFrom, answered, reply);
    if folder.stored != before || r.Ok? {
      SettledIsGranted(p, wish, before, folder.stored);
    }
  }

  /** What an init or a rewrap writes is what its event does. */
  lemma InitIsHistory(p: Primitives, w: World, wish: Wish)
    requires w.activity == Quiet && Wanted(p, InitEvent(wish)).Some?
    requires AfterInit(w.vault.config, Wanted(p, InitEvent(wish)).value, wish.force).Some?
    ensures var after := w.(vault := AfterInitEvent(p, w.vault, InitEvent(wish)));
            && LeadsTo(p, w, after, Whatever)
            && (!Removes(w, InitEvent(wish)) ==> LeadsTo(p, w, after, Gentle) && LeadsTo(p, w, after, Careful))
  {
    var e := InitEvent(wish);
    LeadsByOne(p, w, e, Whatever);
    if !Removes(w, e) {
      LeadsByOne(p, w, e, Gentle);
      LeadsByOne(p, w, e, Careful);
    }
  }

  lemma RewrapIsHistory(p: Primitives, w: World, after: Option<ConfigRecord>, priv: Option<PrivateKey>,
                        pub: Option<PublicKey>, seed: Option<nat>)
    requires w.activity == Quiet && Rewrapped(p, w.vault.config, after, priv, pub, seed)
    ensures LeadsTo(p, w, w.(vault := w.vault.(config := after)), Careful)
  {
    var e := Rewrap(priv.value, pub.value, seed.value);
    assert After(p, w, e) == w.(vault := w.vault.(config := after));
    LeadsByOne(p, w, e, Careful);
  }

  lemma ReachableConfigGood(p: Primitives, events: seq<Event>)
    requires Lawful(p) && Reachable(p, events)
    ensures ConfigGood(p, State(p, events).vault)
  {
    ReachableIsPlainGood(p, events);
  }

  /** Every gentle history leaves what a rotation that succeeds starts from, short of the last generation number. */
  lemma GentleIsSturdy(p: Primitives, events: seq<Event>)
    requires Lawful(p) && Reachable(p, events)
    ensures var v := State(p, events).vault;
            GentleHistory(p, events) && Enc(v).Some? && GenerationOf(v) + 1 < UINT64_LIMIT ==> ReKeys.Sturdy(p, v)
  {
    if GentleHistory(p, events) { D.GentleIsGood(p, events); }
  }

  lemma ListsOn(p: Primitives, before: Vault, after: Vault, q: Creates.Request, most: nat,
                was: map<string, StoredManifest>, now: map<string, StoredManifest>, r: Result<Creates.CreateResult>,
                crashed: bool, published: map<string, Snapshot>)
    requires Creates.Available(p, before, q) && Lists(published, was)
    requires Creates.CameOut(p, before, after, q, most, was, now, r, crashed)
    ensures var b, end := Creates.BackupOf(p, before, q), Creates.PoolEnd(p, before, q, most);
            && after == before.(store := end.store) && (r.Ok? ==> Creates.Written(q, end))
            && Lists(Creates.AfterCreate(p, before, published, q, most).published, now)
  {
  }

  class Repository {
    const p: Primitives
    const folder: FolderRepository
    const objects: ObjectRepository
    const manifests: ManifestRepository
    ghost var secret: Bytes
    ghost var published: map<string, Snapshot>
    ghost var events: seq<Event>

    ghost function Here(): Vault
      reads this, folder, objects
    {
      Vault(folder.stored, secret, objects.view)
    }

    ghost function Now(): World
      reads this, folder, objects
    {
      World(Here(), published, Quiet)
    }

    ghost predicate Valid()
      reads this, folder, objects, manifests
    {
      && objects.Valid() && objects.p == p && Lawful(p)
      && Reachable(p, events) && State(p, events) == Now() && Lists(published, manifests.snapshots)
    }

    /** Over a bucket that holds nothing of this repository yet. */
    constructor (p: Primitives, repositoryPath: string, bucket: map<string, Bytes>)
      requires Lawful(p)
      requires forall id: ObjectId | OrdinaryHash(id.hash) :: ObjectKey(repositoryPath, id) !in bucket
      requires forall g: nat, key | key in bucket :: !(GenerationPrefix(repositoryPath, g) <= key)
      ensures Valid() && events == [] && this.p == p
      ensures fresh(folder) && fresh(objects) && fresh(manifests)
    {
      this.p := p;
      this.folder := new FolderRepository();
      this.objects := new ObjectRepository(p, repositoryPath, bucket);
      this.manifests := new ManifestRepository();
      this.secret, this.published, this.events := [], map[], [];
    }

    ghost method Record(was: World, careful: bool, gentle: bool)
      requires objects.Valid() && objects.p == p && Lawful(p) && Lists(published, manifests.snapshots)
      requires Reachable(p, events) && State(p, events) == was && LeadsTo(p, was, Now(), Whatever)
      requires (gentle ==> LeadsTo(p, was, Now(), Gentle)) && (careful ==> LeadsTo(p, was, Now(), Careful))
      modifies this`events
      ensures Valid()
      ensures gentle && GentleHistory(p, old(events)) ==> GentleHistory(p, events)
      ensures careful && CarefulHistory(p, old(events)) ==> CarefulHistory(p, events)
    {
      var more := GoOn(p, events, Now());
      events := events + more;
    }

    method Init(wish: Wish, doneFrom: nat, answered: bool, reply: Reply) returns (r: Result<InitResult>)
      requires Valid() && (wish.keys.Some? ==> |wish.keys.value.secret| == AES_256_KEY_SIZE)
      modifies this, folder
      ensures Valid() && published == old(published)
      ensures GentleHistory(p, old(events)) && !Removes(old(Now()), InitEvent(wish)) ==> GentleHistory(p, events)
      ensures CarefulHistory(p, old(events)) && !Removes(old(Now()), InitEvent(wish)) ==> CarefulHistory(p, events)
      ensures folder.stored == old(folder.stored) || Granted(p, wish, old(folder.stored), folder.stored)
      ensures r.Ok? ==> Granted(p, wish, old(folder.stored), folder.stored)
                        && folder.stored.value.id == Some(r.value.id)
      ensures r.Ok? <==> && (exists level :: Leveled(wish.compType, wish.level, level))
                         && doneFrom > 5 && answered && reply == Done
      ensures r.Ok? ==> r.value.warnings == Warnings(wish, old(folder.stored))
    {
      ghost var was := Now();
      ReachableConfigGood(p, events);
      r := InitAsWished(p, folder, wish, doneFrom, answered, reply);
      if folder.stored != was.vault.config {
        RecordInit(was, wish);
      }
    }

    ghost method RecordInit(was: World, wish: Wish)
      requires objects.Valid() && objects.p == p && Lawful(p) && Lists(published, manifests.snapshots)
      requires Reachable(p, events) && State(p, events) == was && was.activity == Quiet
      requires Wanted(p, InitEvent(wish)).Some?
      requires AfterInit(was.vault.config, Wanted(p, InitEvent(wish)).value, wish.force).Some?
      requires folder.stored == AfterInitEvent(p, was.vault, InitEvent(wish)).config
      requires objects.view == was.vault.store && published == was.published
      modifies this`events, this`secret
      ensures Valid()
      ensures GentleHistory(p, old(events)) && !Removes(was, InitEvent(wish)) ==> GentleHistory(p, events)
      ensures CarefulHistory(p, old(events)) && !Removes(was, InitEvent(wish)) ==> CarefulHistory(p, events)
    {
      secret := AfterInitEvent(p, was.vault, InitEvent(wish)).secret;
      InitIsHistory(p, was, wish);
      Record(was, !Removes(was, InitEvent(wish)), !Removes(was, InitEvent(wish)));
    }

    method Rewrap(oldPrivateKey: Option<PrivateKey>, newPublicKey: Option<PublicKey>, seed: Option<nat>,
                  cancelled: bool, answered: bool, doneAtWrite: bool, reply: Reply)
      returns (fault: Option<Fault>)
      requires Valid()
      modifies this, folder
      ensures Valid() && published == old(published)
      ensures GentleHistory(p, old(events)) ==> GentleHistory(p, events)
      ensures CarefulHistory(p, old(events)) ==> CarefulHistory(p, events)
      ensures folder.stored != old(folder.stored) || fault == None ==>
                oldPrivateKey.Some? && newPublicKey.Some?
                && HandedOver(p, old(folder.stored), folder.stored, oldPrivateKey.value, newPublicKey.value)
      ensures fault == None <==> && !cancelled && answered && !doneAtWrite && reply == Done
                                 && oldPrivateKey.Some? && newPublicKey.Some? && seed.Some?
                                 && old(folder.stored).Some? && SettingsOf(old(folder.stored).value).Some?
                                 && var e := SettingsOf(old(folder.stored).value).value.encryption;
                                    e.Some? && p.unwrap(oldPrivateKey.value, e.value.encryptedKey).Some?
    {
      ghost var was := Now();
      fault := Repositories.Rewrap(p, folder, oldPrivateKey, newPublicKey, seed, cancelled, answered, doneAtWrite,
                                   reply);
      if folder.stored != was.vault.config {
        RewrapIsHistory(p, was, folder.stored, oldPrivateKey, newPublicKey, seed);
        CarefulLeadsGently(p, was, Now());
        CarefulLeadsAnyhow(p, was, Now());
        Record(was, true, true);
      }
    }

    /** Gentle and careful unless format one is left without entropy under a key. */
    method Create(q: Creates.Request, workers: int, defaultWorkers: nat)
      returns (r: Result<Creates.CreateResult>, crashed: bool)
      requires Valid() && Creates.Sensible(q)
      modifies this, objects, manifests
      ensures Valid()
      ensures GentleHistory(p, old(events)) && SealsAll(old(Here()), q) ==> GentleHistory(p, events)
      ensures CarefulHistory(p, old(events)) && SealsAll(old(Here()), q) ==> CarefulHistory(p, events)
      ensures r.Ok? ==> q.id in published && q.sources == Some(published[q.id].sources)
                        && (published[q.id].keyed <==> q.privateKey.Some?)
      ensures if !Creates.Given(p, folder.stored, q)
              then r.Err? && !crashed && objects.view == old(objects.view)
                   && manifests.snapshots == old(manifests.snapshots)
              else forall e :: Unlocks(p, folder.stored, q.privateKey, e) ==>
                Creates.Achieved(p, old(Here()), objects.view, q, e, old(manifests.snapshots), manifests.snapshots, r,
                                 crashed)
    {
      ghost var was := Now();
      ReachableConfigGood(p, events);
      var create := new Creates.Create(folder, objects, manifests, workers, defaultWorkers);
      ghost var listed := manifests.snapshots;
      r, crashed := create.Do(q, secret);
      Creates.GivenIsAvailable(p, was.vault, q);
      if Creates.Available(p, was.vault, q) {
        ListsOn(p, was.vault, Here(), q, create.Most(), listed, manifests.snapshots, r, crashed, published);
        RecordCreate(was, q, create.Most());
      }
    }

    predicate SealsAll(v: Vault, q: Creates.Request) {
      Creates.Available(p, v, q) ==> CreateWorkers.SealsAll(Creates.BackupOf(p, v, q), q.schedule)
    }

    ghost method RecordCreate(was: World, q: Creates.Request, most: nat)
      requires objects.Valid() && objects.p == p && Lawful(p) && ConfigGood(p, was.vault) && was.activity == Quiet
      requires Reachable(p, events) && State(p, events) == was && Creates.Available(p, was.vault, q)
      requires var after := Creates.AfterCreate(p, was.vault, was.published, q, most);
               Here() == after.vault && published == was.published && Lists(after.published, manifests.snapshots)
      modifies this`events, this`published
      ensures Valid() && published == Creates.AfterCreate(p, was.vault, was.published, q, most).published
      ensures GentleHistory(p, old(events)) && SealsAll(was.vault, q) ==> GentleHistory(p, events)
      ensures CarefulHistory(p, old(events)) && SealsAll(was.vault, q) ==> CarefulHistory(p, events)
    {
      published := Creates.AfterCreate(p, was.vault, was.published, q, most).published;
      Creates.CreateIsHistory(p, was.vault, was.published, q, most);
      if SealsAll(was.vault, q) { CarefulLeadsGently(p, was, Now()); }
      Record(was, SealsAll(was.vault, q), SealsAll(was.vault, q));
    }

    /** Gentle but for the last generation number, and careful but for a cleanup that deletes after a lost reply. */
    method ReKey(privateKey: Option<PrivateKey>, publicKey: Option<PublicKey>, newSecret: Option<Bytes>,
                 seed: Option<nat>, c: ReKeys.Circumstances)
      returns (fault: Option<Fault>, crashed: bool)
      requires Valid() && RekeyPool.AllFair(c.schedule) && (newSecret.Some? ==> |newSecret.value| == AES_256_KEY_SIZE)
      modifies this, folder, objects
      ensures Valid() && published == old(published)
      ensures GentleHistory(p, old(events)) && GenerationOf(old(Here())) + 1 < UINT64_LIMIT ==> GentleHistory(p, events)
      ensures (&& CarefulHistory(p, old(events)) && GenerationOf(old(Here())) + 1 < UINT64_LIMIT
               && (c.commit != ReplyLost || c.cleanupFailAt == Some(0))) ==> CarefulHistory(p, events)
      ensures var stored := old(folder.stored);
              if || c.cancelled || !c.configAnswered || !c.listAnswered
                 || privateKey == None || publicKey == None || newSecret == None || seed == None
                 || stored == None || SettingsOf(stored.value) == None
                 || SettingsOf(stored.value).value.encryption == None
                 || p.unwrap(privateKey.value, SettingsOf(stored.value).value.encryption.value.encryptedKey) == None
              then fault.Some? && !crashed && Here() == old(Here())
              else
                && ReKeys.Achieved(p, old(Here()), Here(), NewKeys(publicKey.value, newSecret.value, seed.value), c,
                                   fault, crashed)
                && (GentleHistory(p, old(events)) && GenerationOf(old(Here())) + 1 < UINT64_LIMIT ==>
                      ReKeys.Sturdy(p, old(Here())))
    {
      ghost var was := Now();
      GentleIsSturdy(p, events);
      ReachableConfigGood(p, events);
      var rekey := new ReKeys.ReKey(folder, objects);
      ghost var after, r, actions, end;
      fault, crashed, after, r, actions, end := rekey.Do(privateKey, publicKey, newSecret, seed, c, secret);
      secret := after;
      if ReKeys.Available(p, was.vault, privateKey, publicKey, newSecret, seed, c) {
        ghost var keys := NewKeys(publicKey.value, newSecret.value, seed.value);
        RecordRotation(was, privateKey.value, r, keys, c, fault, crashed, actions, end);
      }
    }

    ghost method RecordRotation(was: World, priv: PrivateKey, r: Rekey.Rotation, keys: NewKeys,
                                c: ReKeys.Circumstances, fault: Option<Fault>, crashed: bool,
                                actions: seq<Rekey.Action>, end: Rekey.Run)
      requires objects.Valid() && objects.p == p && Lawful(p) && Lists(published, manifests.snapshots)
      requires Reachable(p, events) && State(p, events) == was && was.activity == Quiet
      requires ConfigGood(p, was.vault) && KeyFor(p, was.vault, Some(priv)).Some?
      requires RekeyPool.AllFair(c.schedule) && published == was.published
      requires ReKeys.CameOut(p, was.vault, Here(), r, keys, c, fault, crashed, actions, end)
      modifies this`events
      ensures Valid()
      ensures GentleHistory(p, old(events)) && GenerationOf(was.vault) + 1 < UINT64_LIMIT ==> GentleHistory(p, events)
      ensures (&& CarefulHistory(p, old(events)) && GenerationOf(was.vault) + 1 < UINT64_LIMIT
               && (c.commit != ReplyLost || c.cleanupFailAt == Some(0))) ==> CarefulHistory(p, events)
    {
      ghost var fits := GenerationOf(was.vault) + 1 < UINT64_LIMIT;
      ReKeys.RekeyIsHistory(p, was.vault, was.published, priv, r, keys, actions, end);
      Record(was, fits && !Rekey.DeletesAfterLoss(actions), fits);
    }

    /** What stands here can be verified and restored. */
    ghost predicate Standing(snapshotID: string, privateKey: Option<Option<PrivateKey>>)
      reads this, folder, objects
    {
      && CarefulHistory(p, events) && snapshotID in published && (privateKey.Some? ==> privateKey.value.Some?)
      && D.Matches(p, Here(), published[snapshotID], if privateKey == None then None else privateKey.value)
    }

    /** What was just published with a key stands under that key. */
    lemma PublishedStands(q: Creates.Request)
      requires Valid() && CarefulHistory(p, events) && q.id in published && Creates.Given(p, folder.stored, q)
      requires published[q.id].keyed <==> q.privateKey.Some?
      ensures Standing(q.id, q.privateKey) && Conf(Here()).Some?
    {
      ReachableConfigGood(p, events);
      var e :| Unlocks(p, folder.stored, q.privateKey, e);
    }

    /** What there is under a snapshot's id. */
    ghost function Listed(snapshotID: string): Option<Manifest>
      reads manifests
    {
      if snapshotID in manifests.snapshots then ManifestOf(Unmarshal(manifests.snapshots[snapshotID])) else None
    }

    /** Without the key, or without the manifest, there is no result. Otherwise the result is what the store calls for.
        Of a snapshot that stands here, uncancelled and answered, unless it crashes, it reports every file and no
        failure. */
    method Verify(snapshotID: string, privateKey: Option<Option<PrivateKey>>, cancelled: bool, answered: bool,
                  workers: int, defaultWorkers: nat, schedule: seq<VerifyWorkers.Turn>)
      returns (r: Result<VerifyPool.Outcome>, crashed: bool)
      requires Valid()
      ensures (|| cancelled || !answered || Listed(snapshotID) == None
               || forall e :: !Unlocks(p, folder.stored, privateKey, e)) ==> r.Err? && !crashed
      ensures !cancelled && answered && Listed(snapshotID).Some? ==>
                forall e :: Unlocks(p, folder.stored, privateKey, e) ==>
                    Verifies.Told(objects, Listed(snapshotID).value, e, schedule, r, crashed)
      ensures Standing(snapshotID, privateKey) && !cancelled && answered && VerifyWorkers.AllCalm(schedule)
              && !crashed ==>
                r == Ok(VerifyPool.Outcome(|published[snapshotID].sources|, []))
    {
      r, crashed := Verifies.Verify(folder, manifests, objects, snapshotID, privateKey, cancelled, answered, workers,
                                    defaultWorkers, schedule);
      if Standing(snapshotID, privateKey) && !cancelled && answered && VerifyWorkers.AllCalm(schedule) && !crashed {
        Verifies.DurableVerifies(objects, events, snapshotID, if privateKey == None then None else privateKey.value,
                                 if workers <= 0 then defaultWorkers else workers, schedule);
      }
    }

    /** Without the key, or without the manifest, nothing is restored. Otherwise the report and the disk are what the
        store calls for, with every file that does not restore in the report. Of a snapshot that stands here, without
        trouble, no failure is reported, nothing changes but the targets, and at each are the captured bytes of the last
        file that goes there. */
    method Restore(disk: Disk, snapshotID: string, destination: Option<string>, privateKey: Option<Option<PrivateKey>>,
                   cancelled: bool, answered: bool, trouble: Trouble)
      returns (r: Result<RestoreResult>)
      requires Valid()
      modifies disk
      ensures r.Err? <==> cancelled || !answered || Listed(snapshotID) == None
                          || forall e :: !Unlocks(p, folder.stored, privateKey, e)
      ensures r.Err? ==> disk.files == old(disk.files)
      ensures r.Ok? ==>
                && r.value.totalFiles == |Listed(snapshotID).value.files|
                && forall e :: Unlocks(p, folder.stored, privateKey, e) ==>
                     RestoredAll(objects, Listed(snapshotID).value, destination, e, trouble, old(disk.files),
                                 disk.files, r.value.failed)
      ensures Standing(snapshotID, privateKey) && !cancelled && answered && trouble == NoTrouble() ==>
                && r.Ok? && Read(published[snapshotID]) == Listed(snapshotID)
                && r.value.failed == [] && r.value.totalFiles == |published[snapshotID].sources|
                && Restored(Listed(snapshotID).value, published[snapshotID].sources, destination, old(disk.files),
                            disk.files)
    {
      ghost var before, stands := disk.files, Standing(snapshotID, privateKey);
      if stands { StandingIsThere(snapshotID, privateKey); }
      r := Restores.Restore(folder, manifests, objects, disk, snapshotID, destination, privateKey, cancelled, answered,
                            trouble);
      if stands && !cancelled && answered && trouble == NoTrouble() {
        StandingIsRestored(snapshotID, privateKey, destination, before, disk.files, r.value.failed);
      }
    }

    lemma StandingIsThere(snapshotID: string, privateKey: Option<Option<PrivateKey>>)
      requires Valid() && Standing(snapshotID, privateKey)
      ensures Listed(snapshotID).Some? && Read(published[snapshotID]) == Listed(snapshotID)
      ensures |Listed(snapshotID).value.files| == |published[snapshotID].sources|
      ensures KeyOf(p, folder.stored, privateKey).Some?
      ensures KeyOf(p, folder.stored, privateKey) ==
                Verifies.StandingData(p, Now(), if privateKey == None then None else privateKey.value)
    {
      Verifies.StandingKey(objects, events, snapshotID, if privateKey == None then None else privateKey.value);
    }

    lemma StandingIsRestored(snapshotID: string, privateKey: Option<Option<PrivateKey>>, destination: Option<string>,
                             before: map<string, Bytes>, after: map<string, Bytes>, failed: seq<FailedResult>)
      requires Valid() && Standing(snapshotID, privateKey)
      requires Listed(snapshotID).Some? && KeyOf(p, folder.stored, privateKey).Some?
      requires RestoredAll(objects, Listed(snapshotID).value, destination, KeyOf(p, folder.stored, privateKey).value,
                           NoTrouble(), before, after, failed)
      ensures failed == []
      ensures Restored(Listed(snapshotID).value, published[snapshotID].sources, destination, before, after)
    {
      StandingIsThere(snapshotID, privateKey);
      StandingRestores(objects, events, snapshotID, if privateKey == None then None else privateKey.value, destination,
                       before, after, failed);
    }
  }

  // A create, then a restore

  /** The files lie below the folder, whose path is not met again further down; no two have the same path. */
  ghost predicate SourcesMovable(source: string, sources: seq<SourceFile>) {
    && source != ""
    && (forall i: nat | i < |sources| ::
          source <= sources[i].path && !Occurs(sources[i].path[|source|..], source))
    && forall i: nat, j: nat | i < j < |sources| :: sources[i].path != sources[j].path
  }

  lemma CapturedMoves(p: Primitives, q: Creates.Request, c: Settings, m: Manifest)
    requires Creates.Captured(p, q, c, m) && SourcesMovable(q.sourcePath, q.sources.value)
    ensures Movable(m)
    ensures forall i: nat | i < |m.files| :: Below(m, i) == q.sources.value[i].path[|q.sourcePath|..]
  {
  }

  /** What a create published, restored into any folder with the key it was made with: every file below the source lands
      at the rest of its path below the folder, with its bytes. */
  method CreateAndRestore(repository: Repository, q: Creates.Request, workers: int, defaultWorkers: nat, disk: Disk,
                          destination: string)
    returns (created: Result<Creates.CreateResult>, restored: Result<RestoreResult>)
    requires repository.Valid() && Creates.Sensible(q) && CarefulHistory(repository.p, repository.events)
    requires repository.SealsAll(repository.Here(), q)
    modifies repository, repository.objects, repository.manifests, disk
    ensures created.Ok? ==> q.sources.Some? && restored.Ok? && restored.value.failed == []
    ensures created.Ok? && SourcesMovable(q.sourcePath, q.sources.value) ==>
              forall i: nat | i < |q.sources.value| ::
                HasBytes(disk.files, destination + q.sources.value[i].path[|q.sourcePath|..],
                         q.sources.value[i].content)
  {
    restored := Err(Broken);
    var crashed;
    created, crashed := CreateToStand(repository, q, workers, defaultWorkers);
    if created.Ok? {
      ghost var m, before := repository.Listed(q.id).value, disk.files;
      restored := repository.Restore(disk, q.id, Some(destination), q.privateKey, false, true, NoTrouble());
      if SourcesMovable(q.sourcePath, q.sources.value) {
        LandsBelow(repository.p, q, Conf(repository.Here()).value, m, destination, before, disk.files);
      }
    }
  }

  /** A create, with what there is to say of it for the restore. */
  method CreateToStand(repository: Repository, q: Creates.Request, workers: int, defaultWorkers: nat)
    returns (created: Result<Creates.CreateResult>, crashed: bool)
    requires repository.Valid() && Creates.Sensible(q) && CarefulHistory(repository.p, repository.events)
    requires repository.SealsAll(repository.Here(), q)
    modifies repository, repository.objects, repository.manifests
    ensures repository.Valid()
    ensures created.Ok? ==>
              && repository.Standing(q.id, q.privateKey) && q.sources == Some(repository.published[q.id].sources)
              && Conf(repository.Here()).Some? && repository.Listed(q.id).Some?
              && Creates.Captured(repository.p, q, Conf(repository.Here()).value, repository.Listed(q.id).value)
  {
    created, crashed := repository.Create(q, workers, defaultWorkers);
    if created.Ok? {
      repository.PublishedStands(q);
      ghost var e :| Unlocks(repository.p, repository.folder.stored, q.privateKey, e);
    }
  }

  lemma LandsBelow(p: Primitives, q: Creates.Request, c: Settings, m: Manifest, destination: string,
                   before: map<string, Bytes>, after: map<string, Bytes>)
    requires Creates.Captured(p, q, c, m) && SourcesMovable(q.sourcePath, q.sources.value)
    requires Restored(m, q.sources.value, Some(destination), before, after)
    ensures forall i: nat | i < |q.sources.value| ::
              HasBytes(after, destination + q.sources.value[i].path[|q.sourcePath|..], q.sources.value[i].content)
  {
    CapturedMoves(p, q, c, m);
    forall i: nat | i < |q.sources.value|
      ensures HasBytes(after, destination + q.sources.value[i].path[|q.sourcePath|..], q.sources.value[i].content)
    {
      assert destination + Below(m, i) == destination + q.sources.value[i].path[|q.sourcePath|..];
    }
  }

  /** Every path a file goes to holds the captured bytes of the last file that goes there, nothing else changed; and
      below a movable source every file is at its own place in the other folder. */
  ghost predicate Restored(m: Manifest, sources: seq<SourceFile>, destination: Option<string>,
                           before: map<string, Bytes>, after: map<string, Bytes>)
  {
    && |m.files| == |sources|
    && (forall path :: InPlace(m, sources, destination, before, after, path))
    && (destination.Some? && Movable(m) ==>
          forall i: nat | i < |sources| :: HasBytes(after, destination.value + Below(m, i), sources[i].content))
  }

  ghost predicate InPlace(m: Manifest, sources: seq<SourceFile>, destination: Option<string>,
                          before: map<string, Bytes>, after: map<string, Bytes>, path: string)
    requires |m.files| == |sources|
  {
    && (forall j: nat | LastGoing(m, destination, path, j) :: HasBytes(after, path, sources[j].content))
    && ((forall i: nat | i < |m.files| :: PathOf(m, destination, i) != path) ==>
          (path in after <==> path in before) && (path in after ==> after[path] == before[path]))
  }

  /** The last file that goes to a path. */
  predicate LastGoing(m: Manifest, destination: Option<string>, path: string, j: nat) {
    && j < |m.files| && PathOf(m, destination, j) == path
    && forall k: nat | j < k < |m.files| :: PathOf(m, destination, k) != path
  }

  // What stands is restored

  /** The reader of a snapshot that stands. */
  ghost function StandingReader(objects: ObjectRepository, events: seq<Event>, priv: Option<PrivateKey>): Reader
    requires Reachable(objects.p, events)
             && Verifies.StandingData(objects.p, State(objects.p, events), priv).Some?
    reads objects
  {
    ReaderOf(objects.p, objects.view, Verifies.StandingData(objects.p, State(objects.p, events), priv).value)
  }

  /** Without trouble, a file restores to its captured bytes, and to no others. */
  ghost predicate RestoresOnlyTo(r: Reader, m: Manifest, destination: Option<string>, i: nat, content: Bytes)
    requires i < |m.files|
  {
    && Opens(m, destination, NoTrouble(), i)
    && forall data :: RestoresTo(r, m, destination, NoTrouble(), i, data) <==> data == content
  }

  ghost predicate AllRestoreTo(r: Reader, m: Manifest, destination: Option<string>, sources: seq<SourceFile>) {
    |m.files| == |sources|
    && forall i: nat | i < |sources| :: RestoresOnlyTo(r, m, destination, i, sources[i].content)
  }

  lemma RestoresNothingElse(r: Reader, m: Manifest, destination: Option<string>, i: nat, content: Bytes)
    requires i < |m.files| && forall k | 0 <= k < |Parts(m.files[i])| :: OrdinaryHash(Parts(m.files[i])[k].hash)
    requires RestoreFile(r.p, r.store, r.space, r.key, m.comp.compType, m.files[i]) == Ok(content)
    ensures RestoresOnlyTo(r, m, destination, i, content)
  {
    forall data ensures RestoresTo(r, m, destination, NoTrouble(), i, data) <==> data == content {
      RestoresExactly(r.p, r.store, r.space, r.key, m.comp.compType, m.files[i], data);
    }
  }

  lemma StandingFileRestores(objects: ObjectRepository, events: seq<Event>, id: string, priv: Option<PrivateKey>,
                             destination: Option<string>, i: nat)
    requires Verifies.Stands(objects, events, id, priv) && i < |State(objects.p, events).published[id].sources|
    ensures var w := State(objects.p, events);
            var m, s := Read(w.published[id]), w.published[id];
            && m.Some? && |m.value.files| == |s.sources| && OrdinaryFile(m.value.files[i])
            && Verifies.StandingData(objects.p, w, priv).Some?
            && RestoresOnlyTo(StandingReader(objects, events, priv), m.value, destination, i, s.sources[i].content)
  {
    var w := State(objects.p, events);
    var s := w.published[id];
    D.Durable(objects.p, events, id, i, priv);
    Verifies.StandingKey(objects, events, id, priv);
    var m, e := Read(s).value, Verifies.StandingData(objects.p, w, priv).value;
    CalculatedHashes(objects.p, s.format, m.comp, s.sources[i]);
    Verifies.OrdinaryParts(objects.p, Parts(m.files[i]));
    RestoresNothingElse(ReaderOf(objects.p, objects.view, e), m, destination, i, s.sources[i].content);
  }

  lemma StandingAllRestore(objects: ObjectRepository, events: seq<Event>, id: string, priv: Option<PrivateKey>,
                           destination: Option<string>)
    requires Verifies.Stands(objects, events, id, priv)
    ensures var w := State(objects.p, events);
            var m, s := Read(w.published[id]), w.published[id];
            && m.Some? && Verifies.StandingData(objects.p, w, priv).Some? && OrdinaryManifest(m.value)
            && AllRestoreTo(StandingReader(objects, events, priv), m.value, destination, s.sources)
  {
    var s := State(objects.p, events).published[id];
    Verifies.StandingKey(objects, events, id, priv);
    var m := Read(s).value;
    forall i: nat | i < |m.files|
      ensures OrdinaryFile(m.files[i])
      ensures RestoresOnlyTo(StandingReader(objects, events, priv), m, destination, i, s.sources[i].content)
    {
      StandingFileRestores(objects, events, id, priv, destination, i);
    }
  }

  lemma AllRestored(r: Reader, m: Manifest, destination: Option<string>, sources: seq<SourceFile>,
                    before: map<string, Bytes>, after: map<string, Bytes>, failed: seq<FailedResult>)
    requires AllRestoreTo(r, m, destination, sources)
    requires RestoredUpTo(r, m, destination, NoTrouble(), |m.files|, before, after, failed)
    ensures failed == [] && Restored(m, sources, destination, before, after)
  {
    forall i: nat | i < |m.files| ensures Succeeds(r, m, destination, NoTrouble(), i) {
      assert RestoresOnlyTo(r, m, destination, i, sources[i].content);
      assert RestoresTo(r, m, destination, NoTrouble(), i, sources[i].content);
    }
    var at :| ReportedAt(r, m, destination, NoTrouble(), |m.files|, at, failed);
    ReportTells(r, m, destination, NoTrouble(), at, failed);
    forall path ensures InPlace(m, sources, destination, before, after, path) {
      assert LandedAt(r, m, destination, NoTrouble(), |m.files|, before, after, path);
      forall j: nat | LastGoing(m, destination, path, j) ensures HasBytes(after, path, sources[j].content) {
        assert RestoresOnlyTo(r, m, destination, j, sources[j].content);
        assert LastOpened(m, destination, NoTrouble(), |m.files|, path, j);
      }
    }
    if destination.Some? && Movable(m) {
      forall i: nat | i < |sources| ensures HasBytes(after, destination.value + Below(m, i), sources[i].content) {
        MovableIsLast(m, destination.value, i);
        assert InPlace(m, sources, destination, before, after, destination.value + Below(m, i));
      }
    }
  }

  lemma MovableIsLast(m: Manifest, destination: string, i: nat)
    requires Movable(m) && i < |m.files|
    ensures LastGoing(m, Some(destination), destination + Below(m, i), i)
  {
    MovesOne(m, destination, i);
    forall k: nat | i < k < |m.files| ensures PathOf(m, Some(destination), k) != destination + Below(m, i) {
      MovesTogether(m, destination, i, k);
    }
  }

  lemma StandingRestores(objects: ObjectRepository, events: seq<Event>, id: string, priv: Option<PrivateKey>,
                         destination: Option<string>, before: map<string, Bytes>, after: map<string, Bytes>,
                         failed: seq<FailedResult>)
    requires Verifies.Stands(objects, events, id, priv)
    requires var w := State(objects.p, events);
             var m, e := Read(w.published[id]), Verifies.StandingData(objects.p, w, priv);
             m.Some? && e.Some? ==>
               RestoredAll(objects, m.value, destination, e.value, NoTrouble(), before, after, failed)
    ensures var w := State(objects.p, events);
            && Read(w.published[id]).Some? && Verifies.StandingData(objects.p, w, priv).Some? && failed == []
            && Restored(Read(w.published[id]).value, w.published[id].sources, destination, before, after)
  {
    var s := State(objects.p, events).published[id];
    StandingAllRestore(objects, events, id, priv, destination);
    StoreShowsAll(objects, Read(s).value, Verifies.StandingData(objects.p, State(objects.p, events), priv).value);
    AllRestored(StandingReader(objects, events, priv), Read(s).value, destination, s.sources, before, after, failed);
  }
}
