/**
  What holds in the states a repository can reach when its encryption is not removed by force: the generation its
  configuration names is readable and leftovers of broken rotations do no harm; and, as long as no abort deletes what
  a rotation has committed, that generation is complete and every published snapshot restores to the captured bytes.
 */
module Durability {
  import opened Outcomes
  import opened Primitives
  import opened Files
  import opened ObjectKeys
  import opened Objects
  import opened Configs
  import opened Restores
  import opened Lifetime
  import opened PlainDurability
  import Create = CreatePool
  import Rekey = RekeyProtocol

  // The objects

  /** Under encryption, generation g is readable under the secret, g + 1 holds no hash that g does not, and nothing lies
      beyond; without encryption there are only plain objects. Plain objects are always readable. */
  ghost predicate StoreGood(p: Primitives, encryption: Option<Encryption>, secret: Bytes, store: Store) {
    && Sound(p, store, Plain, [])
    && match encryption
       case None => OnlyPlain(store)
       case Some(e) => GenerationGood(p, e.generation, secret, store)
  }

  ghost predicate GenerationGood(p: Primitives, g: nat, secret: Bytes, store: Store) {
    && Sound(p, store, Generation(g), secret)
    && (forall hash :: ObjectId(Generation(g + 1), hash) in store ==> ObjectId(Generation(g), hash) in store)
    && NothingBeyond(g + 1, store)
  }

  ghost predicate NothingBeyond(g: nat, store: Store) {
    forall id :: id in store && id.space.Generation? ==> id.space.number <= g
  }

  // What is going on

  ghost predicate ActivityGood(p: Primitives, v: Vault, activity: Activity) {
    match activity
    case Quiet => true
    case Creating(b, run, pending, before) =>
      && StoreGood(p, Enc(v), v.secret, before) && Create.NewAreSealed(b, before, run.store)
      && (pending.keyed ==> Enc(v).Some?)
      && b.space == ModeSpace(Enc(v), pending.keyed) && b.key == ModeKey(Enc(v), v.secret, pending.keyed)
    case Rekeying(r, run, next, before) =>
      && r.next == r.current + 1 < UINT64_LIMIT && Rekey.Prepared(p, r, before) && Rekey.Inv(p, r, before, run)
      && Sound(p, before, Plain, []) && NothingBeyond(r.next, before) && next.generation == r.next
      && Enc(v).Some? && Enc(v).value.generation == Rekey.Configured(r, run) && v.secret == Rekey.ConfiguredKey(r, run)
  }

  /** Readable throughout, in every gentle history. */
  ghost predicate Good(p: Primitives, w: World) {
    PlainGood(p, w) && StoreGood(p, Enc(w.vault), w.vault.secret, w.vault.store) && ActivityGood(p, w.vault, w.activity)
  }

  /** Complete as well, in every careful history. */
  ghost predicate Whole(p: Primitives, w: World) {
    && RecordsHeld(p, true, Enc(w.vault), w.vault.store, w.published)
    && (w.activity.Rekeying? ==> Rekey.Safe(p, w.activity.r, w.activity.rotation))
  }

  /** What an operation keeps, whether it succeeds, fails or crashes: a good configuration over a good store, and every
      snapshot readable in its mode. */
  ghost predicate Kept(p: Primitives, before: Vault, after: Vault) {
    && ConfigGood(p, after) && StoreGood(p, Enc(after), after.secret, after.store)
    && forall s :: Held(Enc(before), before.store, s) ==> Held(Enc(after), after.store, s)
  }

  lemma KeptOn(p: Primitives, a: Vault, b: Vault, c: Vault)
    requires Kept(p, a, b) && Kept(p, b, c)
    ensures Kept(p, a, c)
  {
  }

  // Init and rewrap

  /** A store of plain objects has nothing a new first generation could clash with. */
  lemma NewKeysAreHarmless(p: Primitives, earlier: Option<Encryption>, oldSecret: Bytes, later: Option<Encryption>,
                           newSecret: Bytes, store: Store)
    requires StoreGood(p, earlier, oldSecret, store)
    requires OnlyPlain(store)
             || (earlier.Some? && later.Some? && later.value.generation == earlier.value.generation
                 && newSecret == oldSecret)
    ensures StoreGood(p, later, newSecret, store)
  {
  }

  lemma KeyedStay(p: Primitives, earlier: Option<Encryption>, later: Option<Encryption>, store: Store,
                  published: map<string, Snapshot>)
    requires RecordsHeld(p, true, earlier, store, published)
    requires OnlyPlain(store)
             || (earlier.Some? && later.Some? && later.value.generation == earlier.value.generation)
    ensures RecordsHeld(p, true, later, store, published)
  {
    forall id | id in published && published[id].keyed ensures Held(later, store, published[id]) {
      assert Held(earlier, store, published[id]);
      if Read(published[id]).value.files != [] { HeldMeansStored(earlier, store, published[id]); }
    }
  }

  /** A file of a snapshot made under a key means that there are encrypted objects. */
  lemma HeldMeansStored(encryption: Option<Encryption>, store: Store, s: Snapshot)
    requires Held(encryption, store, s) && s.keyed && Read(s).value.files != []
    ensures !OnlyPlain(store)
  {
    var files := Read(s).value.files;
    assert HasParts(store, ModeSpace(encryption, true), Parts(files[0]));
    assert ObjectId(ModeSpace(encryption, true), Parts(files[0])[0].hash) in store;
  }

  lemma ConfigEventKeeps(p: Primitives, w: World, e: Event)
    requires Lawful(p) && Good(p, w) && (e.Init? || e.Rewrap?) && Possible(p, w, e) && Gentle(w, e)
    ensures Good(p, After(p, w, e)) && (Whole(p, w) ==> Whole(p, After(p, w, e)))
  {
    var v, next := w.vault, After(p, w, e).vault;
    EventKeepsPlain(p, w, e);
    if e.Init? { InitConfigGood(p, w, e); } else { RewrapConfigGood(p, w, e); }
    NewKeysAreHarmless(p, Enc(v), v.secret, Enc(next), next.secret, v.store);
    if Whole(p, w) { KeyedStay(p, Enc(v), Enc(next), v.store, w.published); }
  }

  // Creating

  lemma ModeIsSound(p: Primitives, encryption: Option<Encryption>, secret: Bytes, store: Store, keyed: bool)
    requires StoreGood(p, encryption, secret, store)
    ensures Sound(p, store, ModeSpace(encryption, keyed), ModeKey(encryption, secret, keyed))
  {
  }

  lemma BeginCreateKeeps(p: Primitives, w: World, e: Event)
    requires Lawful(p) && Good(p, w) && e.BeginCreate? && Possible(p, w, e)
    ensures Good(p, After(p, w, e)) && (Whole(p, w) ==> Whole(p, After(p, w, e)))
  {
    var v, b := w.vault, Backup(p, w.vault, e);
    EventKeepsPlain(p, w, e);
    KeyIsSecret(p, v, e.priv);
    ModeIsSound(p, Enc(v), v.secret, v.store, e.priv.Some?);
    Create.StartInv(p, b, v.store, e.workers);
  }

  /** What a create adds keeps the store good. */
  lemma GrowthKeeps(p: Primitives, encryption: Option<Encryption>, secret: Bytes, keyed: bool, b: Create.Backup,
                    before: Store, store: Store)
    requires StoreGood(p, encryption, secret, before) && Create.StoreInv(p, b, before, store)
             && Create.NewAreSealed(b, before, store) && (keyed ==> encryption.Some?)
    requires b.space == ModeSpace(encryption, keyed) && b.key == ModeKey(encryption, secret, keyed)
    ensures StoreGood(p, encryption, secret, store)
  {
    forall hash | b.space != Plain && ObjectId(Plain, hash) in store
      ensures Names(p, [], store[ObjectId(Plain, hash)], hash)
    {
      assert ObjectId(Plain, hash) in before;
    }
    if encryption.Some? {
      GenerationGrows(p, encryption.value.generation, secret, b, before, store);
    }
  }

  lemma GenerationGrows(p: Primitives, g: nat, secret: Bytes, b: Create.Backup, before: Store, store: Store)
    requires GenerationGood(p, g, secret, before) && Create.StoreInv(p, b, before, store)
             && Create.NewAreSealed(b, before, store)
    requires b.space == Plain || (b.space == Generation(g) && b.key == secret)
    ensures GenerationGood(p, g, secret, store)
  {
    forall hash | b.space == Plain && ObjectId(Generation(g), hash) in store
      ensures Names(p, secret, store[ObjectId(Generation(g), hash)], hash)
    {
      assert ObjectId(Generation(g), hash) in before;
    }
    forall hash | ObjectId(Generation(g + 1), hash) in store ensures ObjectId(Generation(g), hash) in store {
      assert ObjectId(Generation(g + 1), hash) in before;
    }
    forall id | id in store && id.space.Generation? ensures id.space.number <= g + 1 {
      assert id in before || id.space == b.space;
    }
  }

  lemma CreateActivityKeeps(p: Primitives, v: Vault, act: Activity, a: Create.Action)
    requires Lawful(p) && act.Creating? && ActivityPlain(p, v, act) && ActivityGood(p, v, act)
    requires Create.Enabled(p, act.b, act.creation, a) && Create.ActionSealed(act.b, a)
    ensures var run := Create.Apply(p, act.b, act.creation, a);
            ActivityGood(p, v.(store := run.store), act.(creation := run)) && StoreGood(p, Enc(v), v.secret, run.store)
  {
    Create.StepInv(p, act.b, act.before, act.creation, a);
    Create.StepSealed(p, act.b, act.before, act.creation, a);
    GrowthKeeps(p, Enc(v), v.secret, act.pending.keyed, act.b, act.before,
                Create.Apply(p, act.b, act.creation, a).store);
  }

  lemma CreateStepKeeps(p: Primitives, w: World, a: Create.Action)
    requires Lawful(p) && Good(p, w) && Possible(p, w, CreateStep(a)) && !Unseals(w, CreateStep(a))
    ensures Good(p, AfterCreateStep(p, w, a))
  {
    EventKeepsPlain(p, w, CreateStep(a));
    CreateActivityKeeps(p, w.vault, w.activity, a);
  }

  lemma CreateStepHolds(p: Primitives, w: World, a: Create.Action)
    requires Lawful(p) && Good(p, w) && Whole(p, w) && Possible(p, w, CreateStep(a))
    ensures Whole(p, AfterCreateStep(p, w, a))
  {
    var act, after := w.activity, AfterCreateStep(p, w, a);
    Create.StepInv(p, act.b, act.before, act.creation, a);
    CreateOnlyAdds(p, act.b, act.creation, a);
    MoreHeld(p, true, Enc(w.vault), w.vault.store, after.vault.store, w.published);
    if after.activity.creation.published {
      PublishedIsGood(p, Enc(w.vault), act.b, act.pending, act.before, after.activity.creation);
      OneMoreHeld(p, true, Enc(w.vault), after.vault.store, w.published, act.pending.id,
                  Published(act.b, act.pending, after.activity.creation));
    }
  }

  // Rekeying

  lemma RotationPrepared(p: Primitives, v: Vault, e: Event)
    requires Lawful(p) && ConfigGood(p, v) && StoreGood(p, Enc(v), v.secret, v.store) && e.BeginRekey?
    requires KeyFor(p, v, Some(e.currentPriv)).Some? && |e.next.secret| == AES_256_KEY_SIZE
             && GenerationOf(v) + 1 < UINT64_LIMIT
    requires forall hash :: hash in e.hashes <==> ObjectId(Generation(GenerationOf(v)), hash) in v.store
    ensures var r := Rotation(p, v, e);
            && Enc(v).Some? && r.current == GenerationOf(v) && r.next == r.current + 1 && r.oldKey == v.secret
            && Rekey.Prepared(p, r, v.store)
            && Sound(p, v.store, Plain, []) && NothingBeyond(r.next, v.store)
  {
    KeyIsSecret(p, v, Some(e.currentPriv));
  }

  lemma BeginRekeyKeeps(p: Primitives, w: World, e: Event)
    requires Lawful(p) && Good(p, w) && e.BeginRekey? && Possible(p, w, e) && Gentle(w, e)
    ensures Good(p, After(p, w, e)) && (Whole(p, w) ==> Whole(p, After(p, w, e)))
  {
    EventKeepsPlain(p, w, e);
    RotationPrepared(p, w.vault, e);
    Rekey.StartInv(p, Rotation(p, w.vault, e), w.vault.store);
  }

  /** In every state of a rotation the store is good for the configuration of that state. */
  lemma RotationStoreGood(p: Primitives, r: Rekey.Rotation, before: Store, run: Rekey.Run, encryption: Encryption)
    requires Rekey.Prepared(p, r, before) && Rekey.Inv(p, r, before, run) && r.next == r.current + 1
    requires Sound(p, before, Plain, []) && NothingBeyond(r.next, before)
             && encryption.generation == Rekey.Configured(r, run)
    ensures StoreGood(p, Some(encryption), Rekey.ConfiguredKey(r, run), run.store)
  {
    Rekey.SoundState(p, r, before, run);
    assert Rekey.SameSpace(before, run.store, Plain);
    SamePlainSound(p, before, run.store);
    RotationNothingBeyond(p, r, before, run);
    NextIsWithin(p, r, before, run);
  }

  lemma NextIsWithin(p: Primitives, r: Rekey.Rotation, before: Store, run: Rekey.Run)
    requires Rekey.Prepared(p, r, before) && Rekey.Inv(p, r, before, run) && r.next == r.current + 1
    requires NothingBeyond(r.next, before)
    ensures var g := Rekey.Configured(r, run);
            forall hash :: ObjectId(Generation(g + 1), hash) in run.store ==> ObjectId(Generation(g), hash) in run.store
  {
    RotationNothingBeyond(p, r, before, run);
    var g := Rekey.Configured(r, run);
    forall hash | ObjectId(Generation(g + 1), hash) in run.store ensures ObjectId(Generation(g), hash) in run.store {
      if !run.committed {
        assert Rekey.New(r, hash) in run.store && Rekey.Old(r, hash) in before;
      }
    }
  }

  lemma RotationNothingBeyond(p: Primitives, r: Rekey.Rotation, before: Store, run: Rekey.Run)
    requires Rekey.Frame(r, before, run) && r.next == r.current + 1 && NothingBeyond(r.next, before)
    ensures NothingBeyond(r.next, run.store)
  {
  }

  /** A snapshot's objects are in the generation the configuration names before and after every step that is safe. */
  lemma HeldThroughRotation(p: Primitives, r: Rekey.Rotation, before: Store, run: Rekey.Run, next: Rekey.Run,
                            earlier: Encryption, later: Encryption, s: Snapshot)
    requires Rekey.Prepared(p, r, before)
    requires Rekey.Inv(p, r, before, run) && Rekey.Inv(p, r, before, next)
    requires s.keyed ==> Rekey.Safe(p, r, next)
    requires earlier.generation == Rekey.Configured(r, run) && later.generation == Rekey.Configured(r, next)
    requires Held(Some(earlier), run.store, s)
    ensures Held(Some(later), next.store, s)
  {
    Rekey.SoundState(p, r, before, run);
    Rekey.SoundState(p, r, before, next);
    if s.keyed { Rekey.SafeState(p, r, before, next); }
    assert Rekey.SameSpace(before, run.store, Plain) && Rekey.SameSpace(before, next.store, Plain);
    forall hash | ObjectId(ModeSpace(Some(earlier), s.keyed), hash) in run.store
      ensures ObjectId(ModeSpace(Some(later), s.keyed), hash) in next.store {}
  }

  lemma KeyedThroughRotation(p: Primitives, r: Rekey.Rotation, before: Store, run: Rekey.Run, next: Rekey.Run,
                             earlier: Encryption, later: Encryption, published: map<string, Snapshot>)
    requires Rekey.Prepared(p, r, before) && Rekey.Safe(p, r, next)
    requires Rekey.Inv(p, r, before, run) && Rekey.Inv(p, r, before, next)
    requires earlier.generation == Rekey.Configured(r, run) && later.generation == Rekey.Configured(r, next)
    requires RecordsHeld(p, true, Some(earlier), run.store, published)
    ensures RecordsHeld(p, true, Some(later), next.store, published)
  {
    forall id | id in published && published[id].keyed ensures Held(Some(later), next.store, published[id]) {
      HeldThroughRotation(p, r, before, run, next, earlier, later, published[id]);
    }
  }

  /** The configuration, the secret and the generation change together, at the commit. */
  lemma RotationVaultGood(p: Primitives, w: World, a: Rekey.Action)
    requires Good(p, w) && Possible(p, w, RekeyStep(a))
    ensures var after := AfterRekeyStep(p, w, a).vault;
            var next := Rekey.Apply(p, w.activity.r, w.activity.rotation, a);
            && after.store == next.store && Enc(after).Some?
            && Enc(after).value.generation == Rekey.Configured(w.activity.r, next)
            && after.secret == Rekey.ConfiguredKey(w.activity.r, next)
  {
    RekeyConfigGood(p, w, a);
    CommittedOnlyByCommit(p, w.activity.r, w.activity.rotation, a);
  }

  lemma CommittedOnlyByCommit(p: Primitives, r: Rekey.Rotation, run: Rekey.Run, a: Rekey.Action)
    requires Rekey.Enabled(p, r, run, a)
    ensures run.committed ==> Rekey.Apply(p, r, run, a).committed
  {
  }

  lemma RekeyStepKeeps(p: Primitives, w: World, a: Rekey.Action)
    requires Lawful(p) && Good(p, w) && Possible(p, w, RekeyStep(a))
    ensures Good(p, AfterRekeyStep(p, w, a))
  {
    var r, run, before := w.activity.r, w.activity.rotation, w.activity.before;
    EventKeepsPlain(p, w, RekeyStep(a));
    Rekey.StepInv(p, r, before, run, a);
    RotationVaultGood(p, w, a);
    RotationStoreGood(p, r, before, Rekey.Apply(p, r, run, a), Enc(AfterRekeyStep(p, w, a).vault).value);
  }

  lemma RekeyStepHolds(p: Primitives, w: World, a: Rekey.Action)
    requires Lawful(p) && Good(p, w) && Whole(p, w) && Possible(p, w, RekeyStep(a)) && !AbortsCommitted(w, RekeyStep(a))
    ensures Whole(p, AfterRekeyStep(p, w, a))
  {
    var r, run, before := w.activity.r, w.activity.rotation, w.activity.before;
    var next, after := Rekey.Apply(p, r, run, a), AfterRekeyStep(p, w, a).vault;
    Rekey.StepInv(p, r, before, run, a);
    Rekey.StepSafe(p, r, before, run, a);
    RotationVaultGood(p, w, a);
    KeyedThroughRotation(p, r, before, run, next, Enc(w.vault).value, Enc(after).value, w.published);
  }

  // Every history

  /** Every gentle event keeps everything readable, and every careful one keeps everything. */
  lemma EventKeeps(p: Primitives, w: World, e: Event)
    requires Lawful(p) && Good(p, w) && Possible(p, w, e) && Gentle(w, e)
    ensures Good(p, After(p, w, e))
    ensures Whole(p, w) && Careful(w, e) ==> Whole(p, After(p, w, e))
  {
    match e
    case Init(_, _, _, _, _, _) => ConfigEventKeeps(p, w, e);
    case Rewrap(_, _, _) => ConfigEventKeeps(p, w, e);
    case BeginCreate(_, _, _, _) => BeginCreateKeeps(p, w, e);
    case CreateStep(a) =>
      CreateStepKeeps(p, w, a);
      if Whole(p, w) { CreateStepHolds(p, w, a); }
    case BeginRekey(_, _, _) => BeginRekeyKeeps(p, w, e);
    case RekeyStep(a) =>
      RekeyStepKeeps(p, w, a);
      if Whole(p, w) && Careful(w, e) { RekeyStepHolds(p, w, a); }
    case Stop =>
  }

  lemma {:induction false} HistoryKeeps(p: Primitives, w: World, events: seq<Event>)
    requires Lawful(p) && Good(p, w) && Exec(p, w, events).Some? && Along(p, w, events, Gentle)
    ensures Good(p, Exec(p, w, events).value)
    decreases |events|
  {
    if events != [] {
      EventKeeps(p, w, events[0]);
      HistoryKeeps(p, After(p, w, events[0]), events[1..]);
    }
  }

  lemma {:induction false} HistoryHolds(p: Primitives, w: World, events: seq<Event>)
    requires Lawful(p) && Good(p, w) && Whole(p, w) && Exec(p, w, events).Some? && Along(p, w, events, Careful)
    ensures Good(p, Exec(p, w, events).value) && Whole(p, Exec(p, w, events).value)
    decreases |events|
  {
    if events != [] {
      EventKeeps(p, w, events[0]);
      HistoryHolds(p, After(p, w, events[0]), events[1..]);
    }
  }

  lemma GentleIsGood(p: Primitives, events: seq<Event>)
    requires Lawful(p) && GentleHistory(p, events)
    ensures Good(p, State(p, events))
  {
    HistoryKeeps(p, EMPTY, events);
  }

  lemma CarefulIsWhole(p: Primitives, events: seq<Event>)
    requires Lawful(p) && CarefulHistory(p, events)
    ensures Good(p, State(p, events)) && Whole(p, State(p, events))
  {
    HistoryHolds(p, EMPTY, events);
  }

  /** In every state of a gentle history, in the middle of a rotation or after a broken one, however it was aborted:
      every object of the generation the configuration names opens under the configuration's key to what its hash
      names; what broken rotations left in the next generation is a subset of its hashes; there is nothing in any
      later one. */
  lemma ConfiguredGenerationIsReadable(p: Primitives, events: seq<Event>, hash: string, later: nat)
    requires Lawful(p) && GentleHistory(p, events) && Enc(State(p, events).vault).Some?
    ensures var v := State(p, events).vault;
            var g := GenerationOf(v);
            && (ObjectId(Generation(g), hash) in v.store ==> Holds(p, v.store, Generation(g), v.secret, hash))
            && (ObjectId(Generation(g + 1), hash) in v.store ==> ObjectId(Generation(g), hash) in v.store)
            && (later > g + 1 ==> ObjectId(Generation(later), hash) !in v.store)
  {
    GentleIsGood(p, events);
  }

  /** A rotation that commits, whatever earlier ones left behind, has only the old generation's hashes in the new one,
      each with the old content under the new key; and all of them, unless it deletes them itself, committed as they
      are. */
  lemma CommittedRotationIsExact(p: Primitives, events: seq<Event>, hash: string)
    requires Lawful(p) && GentleHistory(p, events)
    requires State(p, events).activity.Rekeying? && State(p, events).activity.rotation.committed
    ensures var w := State(p, events);
            var r, before := w.activity.r, w.activity.before;
            && GenerationOf(w.vault) == r.next && w.vault.secret == r.newKey
            && (CarefulHistory(p, events) && Rekey.Old(r, hash) in before ==> Rekey.New(r, hash) in w.vault.store)
            && (Rekey.New(r, hash) in w.vault.store ==>
                  && Rekey.Old(r, hash) in before
                  && Opened(p, r.newKey, w.vault.store[Rekey.New(r, hash)]) ==
                       Opened(p, r.oldKey, before[Rekey.Old(r, hash)]))
  {
    GentleIsGood(p, events);
    var act := State(p, events).activity;
    Rekey.SoundState(p, act.r, act.before, act.rotation);
    if CarefulHistory(p, events) {
      CarefulIsWhole(p, events);
      Rekey.SafeState(p, act.r, act.before, act.rotation);
    }
    if hash in act.r.hashes && Rekey.New(act.r, hash) in act.rotation.store {
      Rekey.CommittedContent(p, act.r, act.before, act.rotation, hash);
    }
  }

  /** How a snapshot is read back: with the private key the configuration names, if it was made with one. */
  predicate Matches(p: Primitives, v: Vault, s: Snapshot, priv: Option<PrivateKey>) {
    if s.keyed then priv.Some? && Enc(v).Some? && p.fingerprint(PublicOf(priv.value)) == Enc(v).value.fingerprint
        else priv == None
  }

  lemma MatchingKey(p: Primitives, w: World, id: string, priv: Option<PrivateKey>)
    requires Good(p, w) && Whole(p, w) && id in w.published && Matches(p, w.vault, w.published[id], priv)
    ensures var v, s := w.vault, w.published[id];
            var key := KeyFor(p, v, priv);
            && RecordGood(p, s) && Held(Enc(v), v.store, s)
            && key == Some(ModeKey(Enc(v), v.secret, s.keyed))
            && SpaceFor(key.value, GenerationOf(v)) == ModeSpace(Enc(v), s.keyed)
            && Sound(p, v.store, ModeSpace(Enc(v), s.keyed), key.value)
  {
    var v, s := w.vault, w.published[id];
    assert RecordGood(p, s) && Held(Enc(v), v.store, s) by {
      assert RecordsHeld(p, s.keyed, Enc(v), v.store, w.published);
    }
    KeyIsSecret(p, v, priv);
    ModeIsSound(p, Enc(v), v.secret, v.store, s.keyed);
  }

  /** Durability. After any careful history of inits, creates, rewraps and rekeys, finished, failed, cancelled or
      crashed anywhere, every file of every published snapshot restores to the bytes captured for it, and verifies. */
  lemma Durable(p: Primitives, events: seq<Event>, id: string, i: nat, priv: Option<PrivateKey>)
    requires Lawful(p) && CarefulHistory(p, events) && id in State(p, events).published
    requires var w := State(p, events); i < |w.published[id].sources| && Matches(p, w.vault, w.published[id], priv)
    ensures var w := State(p, events);
            var v, s := w.vault, w.published[id];
            && Read(s).Some? && |Read(s).value.files| == |s.sources| && KeyFor(p, v, priv).Some?
            && var m, key := Read(s).value, KeyFor(p, v, priv).value;
               var space := SpaceFor(key, GenerationOf(v));
               && RestoreFile(p, v.store, space, key, m.comp.compType, m.files[i]) == Ok(s.sources[i].content)
               && VerifyFile(p, v.store, space, key, m.files[i]) == Ok(None)
  {
    CarefulIsWhole(p, events);
    var w := State(p, events);
    var v, s := w.vault, w.published[id];
    MatchingKey(p, w, id, priv);
    SoundFileRestores(p, v.store, ModeSpace(Enc(v), s.keyed), KeyFor(p, v, priv).value, s.format, Read(s).value.comp,
                      s.sources[i]);
  }

  /** The same for a whole snapshot and any destination folder: no file fails, nothing but the targets changes on the
      disk, and each target holds the captured bytes of the last file that goes there; below a movable source that is
      the file's own place below the folder, and its own bytes. */
  lemma DurableInAnyFolder(p: Primitives, events: seq<Event>, id: string, priv: Option<PrivateKey>, destination: string,
                           files: map<string, Bytes>, i: nat)
    requires Lawful(p) && CarefulHistory(p, events) && id in State(p, events).published
    requires var w := State(p, events); i < |w.published[id].sources| && Matches(p, w.vault, w.published[id], priv)
    ensures var w := State(p, events);
            var s, key := w.published[id], KeyFor(p, w.vault, priv);
            && Read(s).Some? && |Read(s).value.files| == |s.sources| && key.Some?
            && var m := Read(s).value;
               var reader := Reader(p, w.vault.store, SpaceFor(key.value, GenerationOf(w.vault)), key.value);
               var attempts := Attempts(reader, m, Some(destination), NoTrouble());
               var after := Landed(attempts, |m.files|, files);
               && Failed(attempts, |m.files|) == [] && OnlyTargets(attempts, |m.files|, files, after)
               && (exists j: nat ::
                   LastTo(m, Some(destination), i, j)
                   && HasBytes(after, Target(m, Some(destination), i).path, s.sources[j].content))
               && (Movable(m) ==> HasBytes(after, destination + Below(m, i), s.sources[i].content))
  {
    CarefulIsWhole(p, events);
    var w := State(p, events);
    var v, s := w.vault, w.published[id];
    MatchingKey(p, w, id, priv);
    var key := KeyFor(p, v, priv).value;
    SnapshotMoves(Reader(p, v.store, SpaceFor(key, GenerationOf(v)), key), Read(s).value, s.sources, s.format,
                  destination, files, i);
  }
}
