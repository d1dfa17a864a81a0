/**
  The life of a repository: any sequence of inits, creates, rewraps and rekeys, each of which may fail, be cancelled or
  crash between any two of its steps, and be tried again. Durability says what holds in every state it can reach.

  Left to the caller, as the documentation asks: one operation at a time.
 */
module Lifetime {
  import opened Outcomes
  import opened Primitives
  import opened Files
  import opened ObjectKeys
  import opened Objects
  import opened Configs
  import opened Repositories
  import opened Manifests
  import Create = CreatePool
  import Rekey = RekeyProtocol

  // The state

  /** What is stored, and the symmetric key the configuration wraps. */
  datatype Vault = Vault(config: Option<ConfigRecord>, secret: Bytes, store: Store)

  /** A published manifest, and what was captured for it: the files, the format, and whether under a key. */
  datatype Snapshot = Snapshot(stored: StoredManifest, sources: seq<SourceFile>, format: int, keyed: bool)

  datatype Pending = Pending(id: string, source: string, createdAt: int, keyed: bool)

  datatype Activity =
    | Quiet
    | Creating(b: Create.Backup, creation: Create.Run, pending: Pending, before: Store)
    | Rekeying(r: Rekey.Rotation, rotation: Rekey.Run, nextEncryption: Encryption, before: Store)

  datatype World = World(vault: Vault, published: map<string, Snapshot>, activity: Activity)

  const EMPTY := World(Vault(None, [], map[]), map[], Quiet)

  function Conf(v: Vault): Option<Settings> { if v.config == None then None else SettingsOf(v.config.value) }

  function Enc(v: Vault): Option<Encryption> { if Conf(v) == None then None else Conf(v).value.encryption }

  // What can happen

  datatype NewKeys = NewKeys(pub: PublicKey, secret: Bytes, seed: nat)

  datatype Event =
    | Init(id: nat, version: int, compType: CompressionType, level: Option<int>, keys: Option<NewKeys>, force: bool)
    | Rewrap(oldPriv: PrivateKey, newPub: PublicKey, rewrapSeed: nat)
    | BeginCreate(pending: Pending, sources: seq<SourceFile>, priv: Option<PrivateKey>, workers: nat)
    | CreateStep(creating: Create.Action)
    | BeginRekey(currentPriv: PrivateKey, next: NewKeys, hashes: seq<string>)
    | RekeyStep(rekeying: Rekey.Action)
    | Stop   // the operation returned, or crashed

  /** The settings an init asks for; a new secret starts in generation one. */
  function Wanted(p: Primitives, e: Event): Option<Settings>
    requires e.Init?
  {
    var comp := Normalised(e.compType, e.level);
    if comp == None || (e.keys.Some? && |e.keys.value.secret| != AES_256_KEY_SIZE) then None else
    var encryption := if e.keys == None then None
        else Some(Wrapped(p, e.keys.value.pub, e.keys.value.secret, e.keys.value.seed, 1));
    Some(Settings(e.id, ParseFormatVersion(e.version), comp.value, encryption))
  }

  /** The key an operation works with: none, or what its private key gets out of the configuration. */
  function KeyFor(p: Primitives, v: Vault, priv: Option<PrivateKey>): Option<Bytes> {
    if priv == None then Some([]) else if Enc(v) == None then None else p.unwrap(priv.value, Enc(v).value.encryptedKey)
  }

  function GenerationOf(v: Vault): nat { if Enc(v) == None then 0 else Enc(v).value.generation }

  function Backup(p: Primitives, v: Vault, e: Event): Create.Backup
    requires e.BeginCreate? && Conf(v).Some? && KeyFor(p, v, e.priv).Some?
  {
    var c, key := Conf(v).value, KeyFor(p, v, e.priv).value;
    Create.Backup(e.sources, c.format, c.comp, SpaceFor(key, GenerationOf(v)), key)
  }

  function Rotation(p: Primitives, v: Vault, e: Event): Rekey.Rotation
    requires e.BeginRekey? && KeyFor(p, v, Some(e.currentPriv)).Some?
  {
    var g := GenerationOf(v);
    Rekey.Rotation(e.hashes, g, (g + 1) % UINT64_LIMIT, KeyFor(p, v, Some(e.currentPriv)).value, e.next.secret)
  }

  ghost predicate Possible(p: Primitives, w: World, e: Event) {
    var v := w.vault;
    match e
    case Init(_, _, _, _, keys, force) =>
      w.activity == Quiet && Wanted(p, e).Some? && AfterInit(v.config, Wanted(p, e).value, force).Some?
    case Rewrap(oldPriv, _, _) => w.activity == Quiet && KeyFor(p, v, Some(oldPriv)).Some?
    case BeginCreate(pending, _, priv, _) =>
      w.activity == Quiet && Conf(v).Some? && KeyFor(p, v, priv).Some? && (pending.keyed <==> priv.Some?)
    case CreateStep(a) => w.activity.Creating? && Create.Enabled(p, w.activity.b, w.activity.creation, a)
    case BeginRekey(priv, keys, hashes) =>
      && w.activity == Quiet && KeyFor(p, v, Some(priv)).Some? && |keys.secret| == AES_256_KEY_SIZE
      && forall hash :: hash in hashes <==> ObjectId(Generation(GenerationOf(v)), hash) in v.store
    case RekeyStep(a) => w.activity.Rekeying? && Rekey.Enabled(p, w.activity.r, w.activity.rotation, a)
    case Stop => true
  }

  // What loses the objects of encrypted snapshots

  /** Encryption is removed by force while there are encrypted objects. */
  predicate Removes(w: World, e: Event) { e.Init? && e.force && e.keys == None && !OnlyPlain(w.vault.store) }

  predicate OnlyPlain(store: Store) { forall id | id in store :: id.space == Plain }

  /** The write of the configuration took effect but was reported as failed, and now the abort of the rotation deletes
      from the generation the stored configuration names. */
  predicate AbortsCommitted(w: World, e: Event) {
    e.RekeyStep? && w.activity.Rekeying? && Rekey.Harmful(w.activity.rotation, e.rekeying)
  }

  /** The number of the next generation wraps around to zero. */
  predicate WrapsAround(w: World, e: Event) { e.BeginRekey? && GenerationOf(w.vault) + 1 >= UINT64_LIMIT }

  /** Format one puts what it could not seal. */
  predicate Unseals(w: World, e: Event) {
    e.CreateStep? && w.activity.Creating? && !Create.ActionSealed(w.activity.b, e.creating)
  }

  predicate Whatever(w: World, e: Event) { true }

  predicate Gentle(w: World, e: Event) { !Removes(w, e) && !WrapsAround(w, e) && !Unseals(w, e) }

  predicate Careful(w: World, e: Event) { Gentle(w, e) && !AbortsCommitted(w, e) }

  ghost function After(p: Primitives, w: World, e: Event): World
    requires Possible(p, w, e)
  {
    var v := w.vault;
    match e
    case Init(_, _, _, _, keys, force) => w.(vault := AfterInitEvent(p, v, e))
    case Rewrap(oldPriv, newPub, seed) =>
      w.(vault := v.(config := Some(RecordOf(RewrappedSettings(p, v, oldPriv, newPub, seed)))))
    case BeginCreate(pending, _, priv, workers) =>
      var b := Backup(p, v, e);
      w.(activity := Creating(b, Create.Start(b, v.store, workers), pending, v.store))
    case CreateStep(a) => AfterCreateStep(p, w, a)
    case BeginRekey(priv, keys, _) =>
      var r := Rotation(p, v, e);
      w.(activity := Rekeying(r, Rekey.Start(r, v.store), Wrapped(p, keys.pub, keys.secret, keys.seed, r.next),
                              v.store))
    case RekeyStep(a) => AfterRekeyStep(p, w, a)
    case Stop => w.(activity := Quiet)
  }

  ghost function AfterInitEvent(p: Primitives, v: Vault, e: Event): Vault
    requires e.Init? && Wanted(p, e).Some? && AfterInit(v.config, Wanted(p, e).value, e.force).Some?
  {
    var after := AfterInit(v.config, Wanted(p, e).value, e.force).value;
    var secret := if Enc(v) == None && e.keys.Some? then e.keys.value.secret else v.secret;
    v.(config := Some(RecordOf(after)), secret := secret)
  }

  function RewrappedSettings(p: Primitives, v: Vault, oldPriv: PrivateKey, newPub: PublicKey, seed: nat): Settings
    requires KeyFor(p, v, Some(oldPriv)).Some?
  {
    var e := Enc(v).value;
    Conf(v).value.(encryption := Some(Wrapped(p, newPub, KeyFor(p, v, Some(oldPriv)).value, seed, e.generation)))
  }

  ghost function AfterCreateStep(p: Primitives, w: World, a: Create.Action): World
    requires w.activity.Creating? && Create.Enabled(p, w.activity.b, w.activity.creation, a)
  {
    var b, pending := w.activity.b, w.activity.pending;
    var run := Create.Apply(p, b, w.activity.creation, a);
    World(w.vault.(store := run.store),
          if run.published && !w.activity.creation.published then w.published[pending.id := Published(b, pending, run)]
              else w.published,
          w.activity.(creation := run))
  }

  function Published(b: Create.Backup, pending: Pending, run: Create.Run): Snapshot {
    var m := Manifest(pending.id, run.files, pending.createdAt, pending.source, b.comp);
    Snapshot(Marshal(ModelOf(m)), b.sources, b.format, pending.keyed)
  }

  ghost function AfterRekeyStep(p: Primitives, w: World, a: Rekey.Action): World
    requires w.activity.Rekeying? && Rekey.Enabled(p, w.activity.r, w.activity.rotation, a)
  {
    var r, v := w.activity.r, w.vault;
    var run := Rekey.Apply(p, r, w.activity.rotation, a);
    var vault :=
      if run.committed && !w.activity.rotation.committed && Conf(v).Some? then
        Vault(Some(RecordOf(Conf(v).value.(encryption := Some(w.activity.nextEncryption)))), r.newKey, run.store)
      else v.(store := run.store);
    w.(vault := vault, activity := w.activity.(rotation := run))
  }

  ghost function Exec(p: Primitives, w: World, events: seq<Event>): Option<World>
    decreases |events|
  {
    if events == [] then Some(w)
    else if !Possible(p, w, events[0]) then None
    else Exec(p, After(p, w, events[0]), events[1..])
  }

  /** Every event of a history is of some kind, in the state it meets. */
  ghost predicate Along(p: Primitives, w: World, events: seq<Event>, kind: (World, Event) -> bool)
    requires Exec(p, w, events).Some?
    decreases |events|
  {
    events == [] || (kind(w, events[0]) && Along(p, After(p, w, events[0]), events[1..], kind))
  }

  ghost predicate Reachable(p: Primitives, events: seq<Event>) { Exec(p, EMPTY, events).Some? }

  ghost function State(p: Primitives, events: seq<Event>): World
    requires Reachable(p, events)
  {
    Exec(p, EMPTY, events).value
  }

  /** No removal of the encryption by force, and no rotation past the last generation number. */
  ghost predicate GentleHistory(p: Primitives, events: seq<Event>) {
    Reachable(p, events) && Along(p, EMPTY, events, Gentle)
  }

  /** Moreover, no abort that deletes after a write of the configuration that took effect but was reported as failed. */
  ghost predicate CarefulHistory(p: Primitives, events: seq<Event>) {
    Reachable(p, events) && Along(p, EMPTY, events, Careful)
  }
}
