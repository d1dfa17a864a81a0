/**
  What holds in every state of every history whatsoever - also after the encryption was removed by force, and after an
  abort that deleted a committed generation: the configuration can be read and gives its key to the key pair it names,
  and every snapshot made without a key restores to the captured bytes.
 */
module PlainDurability {
  import opened Outcomes
  import opened Primitives
  import opened Files
  import opened ObjectKeys
  import opened Objects
  import opened Configs
  import opened Repositories
  import opened Manifests
  import opened Lifetime
  import Create = CreatePool
  import Rekey = RekeyProtocol

  // The configuration

  ghost predicate EncryptionGood(p: Primitives, encryption: Option<Encryption>, secret: Bytes) {
    encryption.Some? ==>
      |secret| == AES_256_KEY_SIZE && Wraps(p, encryption.value, secret) && encryption.value.generation < UINT64_LIMIT
  }

  ghost predicate ConfigGood(p: Primitives, v: Vault) {
    && (v.config.Some? ==> Conf(v).Some?)
    && (Conf(v).Some? ==> Ordinary(Conf(v).value) && KnownFormat(Conf(v).value.format))
    && EncryptionGood(p, Enc(v), v.secret)
  }

  // The snapshots

  /** Where a snapshot's objects are, and the key they open with: it is read in the mode it was made in. */
  function ModeSpace(encryption: Option<Encryption>, keyed: bool): Space {
    if keyed && encryption.Some? then Generation(encryption.value.generation) else Plain
  }

  function ModeKey(encryption: Option<Encryption>, secret: Bytes, keyed: bool): Bytes {
    if keyed && encryption.Some? then secret else []
  }

  function Read(s: Snapshot): Option<Manifest> { ManifestOf(Unmarshal(s.stored)) }

  ghost predicate RecordGood(p: Primitives, s: Snapshot) {
    && KnownFormat(s.format) && Read(s).Some? && |Read(s).value.files| == |s.sources|
    && forall i | 0 <= i < |s.sources| ::
         Read(s).value.files[i] == Calculated(p, s.format, Read(s).value.comp, s.sources[i])
  }

  predicate Held(encryption: Option<Encryption>, store: Store, s: Snapshot) {
    && Read(s).Some? && (s.keyed && Read(s).value.files != [] ==> encryption.Some?)
    && forall i | 0 <= i < |Read(s).value.files| ::
         HasParts(store, ModeSpace(encryption, s.keyed), Parts(Read(s).value.files[i]))
  }

  /** The snapshots of one mode are recorded and held. */
  ghost predicate RecordsHeld(p: Primitives, keyed: bool, encryption: Option<Encryption>, store: Store,
                              published: map<string, Snapshot>) {
    forall id | id in published && published[id].keyed == keyed ::
      RecordGood(p, published[id]) && Held(encryption, store, published[id])
  }

  lemma MoreHeld(p: Primitives, keyed: bool, encryption: Option<Encryption>, store: Store, more: Store,
                 published: map<string, Snapshot>)
    requires RecordsHeld(p, keyed, encryption, store, published)
    requires forall id | id in store && id.space == ModeSpace(encryption, keyed) :: id in more
    ensures RecordsHeld(p, keyed, encryption, more, published)
  {
    forall id | id in published && published[id].keyed == keyed ensures Held(encryption, more, published[id]) {
      assert Held(encryption, store, published[id]);
    }
  }

  lemma OneMoreHeld(p: Primitives, keyed: bool, encryption: Option<Encryption>, store: Store,
                    published: map<string, Snapshot>, id: string, s: Snapshot)
    requires RecordsHeld(p, keyed, encryption, store, published)
    requires s.keyed == keyed ==> RecordGood(p, s) && Held(encryption, store, s)
    ensures RecordsHeld(p, keyed, encryption, store, published[id := s])
  {
  }

  lemma PlainAnyway(p: Primitives, earlier: Option<Encryption>, later: Option<Encryption>, store: Store,
                    published: map<string, Snapshot>)
    requires RecordsHeld(p, false, earlier, store, published)
    ensures RecordsHeld(p, false, later, store, published)
  {
    forall id | id in published && !published[id].keyed ensures Held(later, store, published[id]) {
      assert Held(earlier, store, published[id]);
    }
  }

  // What is going on

  /** A create over whatever is stored; plain objects were sound when it began. */
  ghost predicate CreatingGood(p: Primitives, b: Create.Backup, run: Create.Run, keyed: bool, before: Store) {
    && Normal(b.comp) && Create.Prepared(b) && Create.Inv(p, b, before, run) && Sound(p, before, Plain, [])
    && if keyed then b.space.Generation? else b.space == Plain && b.key == []
  }

  ghost predicate ActivityPlain(p: Primitives, v: Vault, activity: Activity) {
    match activity
    case Quiet => true
    case Creating(b, run, pending, before) => run.store == v.store && CreatingGood(p, b, run, pending.keyed, before)
    case Rekeying(r, run, next, before) =>
      && run.store == v.store && Enc(v).Some? && |r.newKey| == AES_256_KEY_SIZE && Wraps(p, next, r.newKey)
      && next.generation < UINT64_LIMIT && next == NewEncryption(next.encryptedKey, next.fingerprint, next.generation)
  }

  /** A create that published its snapshot is still the one that is published. */
  predicate Recorded(w: World) {
    w.activity.Creating? && w.activity.creation.published ==>
      var id := w.activity.pending.id;
      id in w.published && w.published[id] == Published(w.activity.b, w.activity.pending, w.activity.creation)
  }

  ghost predicate PlainGood(p: Primitives, w: World) {
    && Recorded(w)
    && ConfigGood(p, w.vault) && Sound(p, w.vault.store, Plain, [])
    && RecordsHeld(p, false, Enc(w.vault), w.vault.store, w.published) && ActivityPlain(p, w.vault, w.activity)
  }

  // Writing the configuration

  lemma WrittenIsRead(c: Settings, v: Vault)
    requires Ordinary(c) && v.config == Some(RecordOf(c))
    ensures Conf(v) == Some(c)
  {
    ConfigRoundTrip(c, RecordOf(c));
  }

  lemma WantedIsOrdinary(p: Primitives, e: Event)
    requires Lawful(p) && e.Init? && Wanted(p, e).Some?
    ensures Ordinary(Wanted(p, e).value) && KnownFormat(Wanted(p, e).value.format)
    ensures EncryptionGood(p, Wanted(p, e).value.encryption, if e.keys.Some? then e.keys.value.secret else [])
  {
    NormalisedIsFixed(Wanted(p, e).value.comp, e.level);
    if e.keys.Some? { WrappedWraps(p, e.keys.value.pub, e.keys.value.secret, e.keys.value.seed, 1); }
  }

  lemma InitConfigGood(p: Primitives, w: World, e: Event)
    requires Lawful(p) && ConfigGood(p, w.vault) && e.Init? && Possible(p, w, e)
    ensures var next := After(p, w, e).vault;
            && ConfigGood(p, next) && next.store == w.vault.store
            && (Enc(w.vault).Some? ==> next.secret == w.vault.secret
                                       && Enc(next) == if e.force && e.keys == None then None else Enc(w.vault))
  {
    WantedIsOrdinary(p, e);
    WrittenIsRead(AfterInit(w.vault.config, Wanted(p, e).value, e.force).value, After(p, w, e).vault);
  }

  lemma RewrapConfigGood(p: Primitives, w: World, e: Event)
    requires Lawful(p) && ConfigGood(p, w.vault) && e.Rewrap? && Possible(p, w, e)
    ensures var next := After(p, w, e).vault;
            && ConfigGood(p, next) && next.store == w.vault.store && next.secret == w.vault.secret
            && Enc(next).Some? && Enc(w.vault).Some? && Enc(next).value.generation == Enc(w.vault).value.generation
  {
    var v, next := w.vault, After(p, w, e).vault;
    assert KeyFor(p, v, Some(e.oldPriv)) == Some(v.secret);
    WrappedWraps(p, e.newPub, v.secret, e.rewrapSeed, Enc(v).value.generation);
    WrittenIsRead(RewrappedSettings(p, v, e.oldPriv, e.newPub, e.rewrapSeed), next);
  }

  lemma CommittedConfigGood(p: Primitives, v: Vault, after: Vault, next: Encryption, secret: Bytes)
    requires ConfigGood(p, v) && Enc(v).Some? && |secret| == AES_256_KEY_SIZE && Wraps(p, next, secret)
    requires next.generation < UINT64_LIMIT
             && next == NewEncryption(next.encryptedKey, next.fingerprint, next.generation)
    requires after.config == Some(RecordOf(Conf(v).value.(encryption := Some(next)))) && after.secret == secret
    ensures ConfigGood(p, after) && Enc(after) == Some(next)
  {
    WrittenIsRead(Conf(v).value.(encryption := Some(next)), after);
  }

  lemma RekeyConfigGood(p: Primitives, w: World, a: Rekey.Action)
    requires ConfigGood(p, w.vault) && ActivityPlain(p, w.vault, w.activity) && Possible(p, w, RekeyStep(a))
    ensures var after := AfterRekeyStep(p, w, a).vault;
            var run, next := w.activity.rotation, Rekey.Apply(p, w.activity.r, w.activity.rotation, a);
            && ConfigGood(p, after) && after.store == next.store
            && (if next.committed && !run.committed
                then Enc(after) == Some(w.activity.nextEncryption) && after.secret == w.activity.r.newKey
                else Enc(after) == Enc(w.vault) && after.secret == w.vault.secret)
  {
    var act := w.activity;
    if Rekey.Apply(p, act.r, act.rotation, a).committed && !act.rotation.committed {
      CommittedConfigGood(p, w.vault, AfterRekeyStep(p, w, a).vault, act.nextEncryption, act.r.newKey);
    }
  }

  // Every event keeps the plain snapshots

  /** The key an operation gets is the secret, or none. */
  lemma KeyIsSecret(p: Primitives, v: Vault, priv: Option<PrivateKey>)
    requires ConfigGood(p, v) && KeyFor(p, v, priv).Some?
    ensures priv.Some? ==> Enc(v).Some?
    ensures KeyFor(p, v, priv).value == ModeKey(Enc(v), v.secret, priv.Some?)
    ensures SpaceFor(KeyFor(p, v, priv).value, GenerationOf(v)) == ModeSpace(Enc(v), priv.Some?)
  {
  }

  lemma BeginCreatePlain(p: Primitives, w: World, e: Event)
    requires PlainGood(p, w) && e.BeginCreate? && Possible(p, w, e)
    ensures PlainGood(p, After(p, w, e))
  {
    KeyIsSecret(p, w.vault, e.priv);
    Create.StartInv(p, Backup(p, w.vault, e), w.vault.store, e.workers);
  }

  lemma BeginRekeyPlain(p: Primitives, w: World, e: Event)
    requires Lawful(p) && PlainGood(p, w) && e.BeginRekey? && Possible(p, w, e)
    ensures PlainGood(p, After(p, w, e))
  {
    KeyIsSecret(p, w.vault, Some(e.currentPriv));
    WrappedWraps(p, e.next.pub, e.next.secret, e.next.seed, Rotation(p, w.vault, e).next);
  }

  lemma RekeyTouchesGenerations(p: Primitives, r: Rekey.Rotation, run: Rekey.Run, a: Rekey.Action)
    requires Rekey.Enabled(p, r, run, a)
    ensures Rekey.SameSpace(run.store, Rekey.Apply(p, r, run, a).store, Plain)
  {
    if !a.Write? && !a.WriteLost? && !a.DeleteOld? && !a.DeleteNew? { RotationStoreStays(p, r, run, a); }
  }

  lemma RotationStoreStays(p: Primitives, r: Rekey.Rotation, run: Rekey.Run, a: Rekey.Action)
    requires Rekey.Enabled(p, r, run, a) && !a.Write? && !a.WriteLost? && !a.DeleteOld? && !a.DeleteNew?
    ensures Rekey.Apply(p, r, run, a).store == run.store
  {
  }

  lemma RekeyStepPlain(p: Primitives, w: World, a: Rekey.Action)
    requires PlainGood(p, w) && Possible(p, w, RekeyStep(a))
    ensures PlainGood(p, AfterRekeyStep(p, w, a))
  {
    var after := AfterRekeyStep(p, w, a);
    RekeyConfigGood(p, w, a);
    RekeyTouchesGenerations(p, w.activity.r, w.activity.rotation, a);
    MoreHeld(p, false, Enc(w.vault), w.vault.store, after.vault.store, w.published);
    PlainAnyway(p, Enc(w.vault), Enc(after.vault), after.vault.store, w.published);
    SamePlainSound(p, w.vault.store, after.vault.store);
  }

  lemma SamePlainSound(p: Primitives, store: Store, next: Store)
    requires Sound(p, store, Plain, []) && Rekey.SameSpace(store, next, Plain)
    ensures Sound(p, next, Plain, [])
  {
    forall hash | ObjectId(Plain, hash) in next ensures Names(p, [], next[ObjectId(Plain, hash)], hash) {
      assert ObjectId(Plain, hash) in store;
    }
  }

  /** A create touches its own namespace only. */
  lemma CreateTouchesItsSpace(p: Primitives, b: Create.Backup, run: Create.Run, a: Create.Action)
    requires Create.Enabled(p, b, run, a) && b.space != Plain
    ensures Rekey.SameSpace(run.store, Create.Apply(p, b, run, a).store, Plain)
  {
    if a.Put? || a.PutLost? {
      Create.ApplyPut(p, b, run, a);
    } else {
      StoreStays(p, b, run, a);
    }
  }

  lemma StoreStays(p: Primitives, b: Create.Backup, run: Create.Run, a: Create.Action)
    requires Create.Enabled(p, b, run, a) && !a.Put? && !a.PutLost?
    ensures Create.Apply(p, b, run, a).store == run.store
  {
    if a.Hit? { Create.AdvanceMoves(run, a.worker, run.workers[a.worker].saved); }
  }

  /** No action of a create removes an object. */
  lemma CreateOnlyAdds(p: Primitives, b: Create.Backup, run: Create.Run, a: Create.Action)
    requires Create.Enabled(p, b, run, a)
    ensures forall id :: id in run.store ==> id in Create.Apply(p, b, run, a).store
  {
    if a.Put? || a.PutLost? {
      Create.ApplyPut(p, b, run, a);
      Create.StoredGrows(p, b, run, a.worker, a.seal);
    } else {
      StoreStays(p, b, run, a);
    }
  }

  lemma PublishedIsGood(p: Primitives, encryption: Option<Encryption>, b: Create.Backup, pending: Pending,
                        before: Store, run: Create.Run)
    requires Create.Prepared(b) && Create.Inv(p, b, before, run) && run.published && Normal(b.comp)
    requires b.space == ModeSpace(encryption, pending.keyed) && (pending.keyed ==> encryption.Some?)
    ensures RecordGood(p, Published(b, pending, run)) && Held(encryption, run.store, Published(b, pending, run))
  {
    var m := Manifest(pending.id, run.files, pending.createdAt, pending.source, b.comp);
    ManifestRoundTrip(m);
    assert Read(Published(b, pending, run)) == Some(m);
    forall i | 0 <= i < |b.sources| ensures run.files[i] == Calculated(p, b.format, b.comp, b.sources[i])
                                            && HasParts(run.store, b.space, Parts(run.files[i]))
    {
      assert Create.FileDone(p, b, run, i);
    }
  }

  lemma PlainStaysSound(p: Primitives, w: World, a: Create.Action)
    requires Lawful(p) && PlainGood(p, w) && Possible(p, w, CreateStep(a))
    ensures Sound(p, AfterCreateStep(p, w, a).vault.store, Plain, [])
  {
    var act := w.activity;
    var next := Create.Apply(p, act.b, act.creation, a);
    Create.StepInv(p, act.b, act.before, act.creation, a);
    if act.b.space == Plain {
      Create.StaysSound(p, act.b, act.before, next.store);
    } else {
      CreateTouchesItsSpace(p, act.b, act.creation, a);
      SamePlainSound(p, w.vault.store, next.store);
    }
  }

  lemma PlainStayHeld(p: Primitives, w: World, a: Create.Action)
    requires Lawful(p) && PlainGood(p, w) && Possible(p, w, CreateStep(a))
    ensures var after := AfterCreateStep(p, w, a);
            RecordsHeld(p, false, Enc(w.vault), after.vault.store, after.published)
  {
    var act, after := w.activity, AfterCreateStep(p, w, a);
    var next := Create.Apply(p, act.b, act.creation, a);
    CreateOnlyAdds(p, act.b, act.creation, a);
    MoreHeld(p, false, Enc(w.vault), w.vault.store, next.store, w.published);
    if next.published && !act.creation.published {
      if !act.pending.keyed {
        Create.StepInv(p, act.b, act.before, act.creation, a);
        PublishedIsGood(p, Enc(w.vault), act.b, act.pending, act.before, next);
      }
      OneMoreHeld(p, false, Enc(w.vault), next.store, w.published, act.pending.id,
                  Published(act.b, act.pending, next));
    }
  }

  /** After the publication nothing of the manifest changes. */
  lemma StaysRecorded(p: Primitives, w: World, a: Create.Action)
    requires PlainGood(p, w) && Possible(p, w, CreateStep(a))
    ensures Recorded(AfterCreateStep(p, w, a))
  {
    if w.activity.creation.published { Create.OtherActions(p, w.activity.b, w.activity.creation, a); }
  }

  lemma CreateStepPlain(p: Primitives, w: World, a: Create.Action)
    requires Lawful(p) && PlainGood(p, w) && Possible(p, w, CreateStep(a))
    ensures PlainGood(p, AfterCreateStep(p, w, a))
  {
    Create.StepInv(p, w.activity.b, w.activity.before, w.activity.creation, a);
    PlainStaysSound(p, w, a);
    PlainStayHeld(p, w, a);
    StaysRecorded(p, w, a);
  }

  lemma ConfigEventPlain(p: Primitives, w: World, e: Event)
    requires Lawful(p) && PlainGood(p, w) && (e.Init? || e.Rewrap?) && Possible(p, w, e)
    ensures PlainGood(p, After(p, w, e))
  {
    if e.Init? { InitConfigGood(p, w, e); } else { RewrapConfigGood(p, w, e); }
    PlainAnyway(p, Enc(w.vault), Enc(After(p, w, e).vault), w.vault.store, w.published);
  }

  /** Every event whatsoever keeps the configuration readable and the plain snapshots. */
  lemma EventKeepsPlain(p: Primitives, w: World, e: Event)
    requires Lawful(p) && PlainGood(p, w) && Possible(p, w, e)
    ensures PlainGood(p, After(p, w, e))
  {
    match e
    case Init(_, _, _, _, _, _) => ConfigEventPlain(p, w, e);
    case Rewrap(_, _, _) => ConfigEventPlain(p, w, e);
    case BeginCreate(_, _, _, _) => BeginCreatePlain(p, w, e);
    case CreateStep(a) => CreateStepPlain(p, w, a);
    case BeginRekey(_, _, _) => BeginRekeyPlain(p, w, e);
    case RekeyStep(a) => RekeyStepPlain(p, w, a);
    case Stop =>
  }

  lemma {:induction false} HistoryKeepsPlain(p: Primitives, w: World, events: seq<Event>)
    requires Lawful(p) && PlainGood(p, w) && Exec(p, w, events).Some?
    ensures PlainGood(p, Exec(p, w, events).value)
    decreases |events|
  {
    if events != [] {
      EventKeepsPlain(p, w, events[0]);
      HistoryKeepsPlain(p, After(p, w, events[0]), events[1..]);
    }
  }

  lemma ReachableIsPlainGood(p: Primitives, events: seq<Event>)
    requires Lawful(p) && Reachable(p, events)
    ensures PlainGood(p, State(p, events))
  {
    HistoryKeepsPlain(p, EMPTY, events);
  }

  /** The configuration gives the secret to the private key it names, and to no other, in every state there is. */
  lemma OnlyTheNamedKey(p: Primitives, events: seq<Event>, priv: PrivateKey)
    requires Lawful(p) && Reachable(p, events) && Enc(State(p, events).vault).Some?
    ensures var v := State(p, events).vault;
            KeyFor(p, v, Some(priv)) ==
              if p.fingerprint(PublicOf(priv)) == Enc(v).value.fingerprint then Some(v.secret) else None
  {
    ReachableIsPlainGood(p, events);
  }

  /** What any create is worth. In any history whatsoever, a create that published its snapshot - under a key or not,
      over whatever was stored when it began, forced removals or not - lists every file as captured, and a file
      verifies exactly when those of its objects that were there already are what their names say, and the new ones
      are sealed; then it restores to the captured bytes. */
  lemma PublishedVerifiesExactly(p: Primitives, events: seq<Event>, i: nat)
    requires Lawful(p) && Reachable(p, events) && State(p, events).activity.Creating?
    requires State(p, events).activity.creation.published && i < |State(p, events).activity.b.sources|
    ensures var w := State(p, events);
            var b, before, id := w.activity.b, w.activity.before, w.activity.pending.id;
            && id in w.published && w.published[id].sources == b.sources
            && Read(w.published[id]).Some? && |Read(w.published[id]).value.files| == |b.sources|
            && var m := Read(w.published[id]).value;
               && m.files[i] == Create.Expected(p, b, i) && m.comp == b.comp
               && (VerifyFile(p, w.vault.store, b.space, b.key, m.files[i]) == Ok(None)
                   <==> Create.PartsGood(p, b, before, w.vault.store, i))
               && (Create.PartsGood(p, b, before, w.vault.store, i) ==>
                     RestoreFile(p, w.vault.store, b.space, b.key, m.comp.compType, m.files[i])
                       == Ok(b.sources[i].content))
  {
    ReachableIsPlainGood(p, events);
    var w := State(p, events);
    var act := w.activity;
    ManifestRoundTrip(Manifest(act.pending.id, act.creation.files, act.pending.createdAt, act.pending.source,
                               act.b.comp));
    assert Create.FileDone(p, act.b, act.creation, i);
    Create.DoneVerifies(p, act.b, act.before, act.creation.store, i);
    if Create.PartsGood(p, act.b, act.before, w.vault.store, i) {
      VerifyImpliesRestore(p, w.vault.store, act.b.space, act.b.key, act.b.format, act.b.comp, act.b.sources[i]);
    }
  }

  /** Durability of plain snapshots. After any history whatsoever - inits with or without force, creates, rewraps and
      rekeys, finished, failed, cancelled or crashed anywhere - every file of every snapshot that was made without a key
      restores to the bytes captured for it, and verifies. */
  lemma PlainDurable(p: Primitives, events: seq<Event>, id: string, i: nat)
    requires Lawful(p) && Reachable(p, events) && id in State(p, events).published
    requires var s := State(p, events).published[id]; !s.keyed && i < |s.sources|
    ensures var w := State(p, events);
            var s := w.published[id];
            && Read(s).Some? && |Read(s).value.files| == |s.sources|
            && var m := Read(s).value;
               && RestoreFile(p, w.vault.store, Plain, [], m.comp.compType, m.files[i]) == Ok(s.sources[i].content)
               && VerifyFile(p, w.vault.store, Plain, [], m.files[i]) == Ok(None)
  {
    ReachableIsPlainGood(p, events);
    var w := State(p, events);
    var s := w.published[id];
    assert RecordGood(p, s) && Held(Enc(w.vault), w.vault.store, s);
    SoundFileRestores(p, w.vault.store, Plain, [], s.format, Read(s).value.comp, s.sources[i]);
  }
}
