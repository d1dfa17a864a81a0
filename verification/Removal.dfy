/** What is left out of the promise: encryption that is removed by force, over its objects, and set up anew. The
    objects of the old first generation stay where the new first generation is, and a create takes an object for its
    own when the name is right. Its snapshot is good exactly when the object is. */
module Removal {
  import opened Outcomes
  import opened Primitives
  import opened Files
  import opened ObjectKeys
  import opened Objects
  import opened Configs
  import opened Repositories
  import opened Manifests
  import opened Lifetime
  import opened PlainDurability
  import opened Histories
  import opened Recovery
  import CreateWorkers
  import Create = CreatePool
  import D = Durability

  /** The encryption was removed by force and set up anew with other keys; the rest is as it was. */
  ghost predicate StartedOver(p: Primitives, w: World, after: World, keys: NewKeys) {
    && Conf(w.vault).Some? && after.activity == Quiet && after.published == w.published
    && after.vault.store == w.vault.store
    && after.vault.secret == keys.secret
    && Conf(after.vault) ==
         Some(Conf(w.vault).value.(encryption := Some(Wrapped(p, keys.pub, keys.secret, keys.seed, 1))))
  }

  lemma InitAgain(p: Primitives, w: World, keys: Option<NewKeys>, force: bool)
    requires Lawful(p) && ConfigGood(p, w.vault) && Conf(w.vault).Some? && w.activity == Quiet
    requires (keys == None && force) || (keys.Some? && |keys.value.secret| == AES_256_KEY_SIZE && Enc(w.vault) == None)
    ensures var c := Conf(w.vault).value;
            var e := Init(c.id, c.format, c.comp.compType, c.comp.level, keys, force);
            && Possible(p, w, e) && After(p, w, e).published == w.published && After(p, w, e).activity == Quiet
            && ConfigGood(p, After(p, w, e).vault) && After(p, w, e).vault.store == w.vault.store
            && Conf(After(p, w, e).vault) == Some(c.(encryption := Wanted(p, e).value.encryption))
            && (keys.Some? ==> After(p, w, e).vault.secret == keys.value.secret)
  {
    var c := Conf(w.vault).value;
    var e := Init(c.id, c.format, c.comp.compType, c.comp.level, keys, force);
    NormalisedIsFixed(c.comp, c.comp.level);
    InitConfigGood(p, w, e);
    WantedIsOrdinary(p, e);
    WrittenIsRead(AfterInit(w.vault.config, Wanted(p, e).value, force).value, After(p, w, e).vault);
  }

  lemma StartingOverKeepsObjects(p: Primitives, w: World, keys: NewKeys) returns (after: World)
    requires Lawful(p) && PlainGood(p, w) && Conf(w.vault).Some? && |keys.secret| == AES_256_KEY_SIZE
    ensures LeadsTo(p, w, after, Whatever) && StartedOver(p, w, after, keys)
  {
    var c := Conf(w.vault).value;
    var stopped := After(p, w, Stop);
    InitAgain(p, stopped, None, true);
    var removal := Init(c.id, c.format, c.comp.compType, c.comp.level, None, true);
    var removed := After(p, stopped, removal);
    InitAgain(p, removed, Some(keys), false);
    var renewal := Init(c.id, c.format, c.comp.compType, c.comp.level, Some(keys), false);
    after := After(p, removed, renewal);
    LeadsByOne(p, w, Stop, Whatever);
    LeadsByOne(p, stopped, removal, Whatever);
    LeadsByOne(p, removed, renewal, Whatever);
    LeadsOn(p, w, stopped, removed, Whatever);
    LeadsOn(p, w, removed, after, Whatever);
  }

  // A create that finds its object

  lemma Prepend(p: Primitives, b: Create.Backup, run: Create.Run, a: Create.Action, rest: seq<Create.Action>,
                end: Create.Run)
    requires Create.Enabled(p, b, run, a) && Create.Exec(p, b, Create.Apply(p, b, run, a), rest) == Some(end)
    ensures Create.Exec(p, b, run, [a] + rest) == Some(end)
  {
    assert ([a] + rest)[1..] == rest;
  }

  lemma HitRun(p: Primitives, b: Create.Backup, store: Store) returns (actions: seq<Create.Action>, end: Create.Run)
    requires |b.sources| == 1 && |b.sources[0].content| < CHUNK_THRESHOLD && KnownFormat(b.format)
    requires ObjectId(b.space, HashOf(p, b.comp, b.sources[0].content)) in store
    ensures Create.Exec(p, b, Create.Start(b, store, 1), actions) == Some(end) && Create.PutsSealed(b, actions)
    ensures end.phase == Create.Publishing && !end.published && end.store == store
            && end.files == [Create.Expected(p, b, 0)]
  {
    var start := Create.Start(b, store, 1);
    var handed := Create.Apply(p, b, start, Create.Deliver(0));
    var hashed := Create.Apply(p, b, handed, Create.Hash(0));
    OnePart(p, b, hashed);
    var rest;
    rest, end := LeaveRun(p, b, Create.Apply(p, b, hashed, Create.Hit(0)));
    Prepend(p, b, hashed, Create.Hit(0), rest, end);
    Prepend(p, b, handed, Create.Hash(0), [Create.Hit(0)] + rest, end);
    Prepend(p, b, start, Create.Deliver(0), [Create.Hash(0)] + ([Create.Hit(0)] + rest), end);
    actions := [Create.Deliver(0)] + ([Create.Hash(0)] + ([Create.Hit(0)] + rest));
  }

  lemma OnePart(p: Primitives, b: Create.Backup, run: Create.Run)
    requires |b.sources| == 1 && |b.sources[0].content| < CHUNK_THRESHOLD && KnownFormat(b.format)
    requires run.files == [Create.Expected(p, b, 0)] && run.workers == [Create.Checking(0, 0, 0)]
    ensures Create.AtPart(b, run, 0) && Create.PartAt(b, run, 0).hash == HashOf(p, b.comp, b.sources[0].content)
    ensures |Parts(run.files[0])| == 1
  {
  }

  lemma LeaveRun(p: Primitives, b: Create.Backup, run: Create.Run)
    returns (actions: seq<Create.Action>, end: Create.Run)
    requires run.phase == Create.Working && run.feeding && run.next == |b.sources| && run.workers == [Create.Idle]
    requires !run.failed && !run.cancelled
    ensures Create.Exec(p, b, run, actions) == Some(end) && Create.PutsSealed(b, actions)
    ensures end.phase == Create.Publishing && end.published == run.published && end.store == run.store
            && end.files == run.files
  {
    var closed := Create.Apply(p, b, run, Create.CloseFeed);
    var left := Create.Apply(p, b, closed, Create.Leave(0));
    end := Create.Apply(p, b, left, Create.CheckContext);
    Prepend(p, b, left, Create.CheckContext, [], end);
    Prepend(p, b, closed, Create.Leave(0), [Create.CheckContext] + [], end);
    Prepend(p, b, run, Create.CloseFeed, [Create.Leave(0)] + ([Create.CheckContext] + []), end);
    actions := [Create.CloseFeed] + ([Create.Leave(0)] + ([Create.CheckContext] + []));
  }

  lemma HitPublishes(p: Primitives, b: Create.Backup, store: Store)
    returns (actions: seq<Create.Action>, end: Create.Run)
    requires |b.sources| == 1 && |b.sources[0].content| < CHUNK_THRESHOLD && Create.Prepared(b)
    requires ObjectId(b.space, HashOf(p, b.comp, b.sources[0].content)) in store
    ensures Create.Exec(p, b, Create.Start(b, store, 1), actions) == Some(end)
    ensures end.published && end.store == store && end.files == [Create.Expected(p, b, 0)]
    ensures Create.PutsSealed(b, actions)
    ensures Parts(end.files[0]) == [Chunk(HashOf(p, b.comp, b.sources[0].content), 0, |b.sources[0].content|)]
  {
    var first, middle := HitRun(p, b, store);
    CreateWorkers.ExecOne(p, b, middle, Create.Publish);
    CreateWorkers.ExecAppend(p, b, Create.Start(b, store, 1), first, [Create.Publish]);
    actions, end := first + [Create.Publish], Create.Apply(p, b, middle, Create.Publish);
  }

  /** A create of a file whose object's name is taken publishes it without looking at the object, or writing anything.
      */
  lemma NameIsTrusted(p: Primitives, w: World, e: Event) returns (after: World)
    requires Lawful(p) && ConfigGood(p, w.vault) && e.BeginCreate? && Possible(p, w, e) && e.workers == 1
    requires |e.sources| == 1 && |e.sources[0].content| < CHUNK_THRESHOLD
    requires var b := Backup(p, w.vault, e); ObjectId(b.space, HashOf(p, b.comp, e.sources[0].content)) in w.vault.store
    ensures LeadsTo(p, w, after, Careful) && Took(p, w, after, e) && after.vault == w.vault
  {
    var b := Backup(p, w.vault, e);
    KeyIsSecret(p, w.vault, e.priv);
    var actions, end := HitPublishes(p, b, w.vault.store);
    Create.StartInv(p, b, w.vault.store, 1);
    Create.ExecInv(p, b, w.vault.store, Create.Start(b, w.vault.store, 1), actions);
    CreateRunsTo(p, w, e, actions, end, Careful);
    CapturedIsPublished(p, w, e, end);
    after := Created(After(p, w, e), end);
  }

  // What its snapshot is worth

  /** What the holder of the named key finds under a snapshot of one file. */
  ghost predicate Found(p: Primitives, w: World, id: string, priv: PrivateKey, source: SourceFile, verifies: bool) {
    && id in w.published && w.published[id].sources == [source] && D.Matches(p, w.vault, w.published[id], Some(priv))
    && Read(w.published[id]).Some? && |Read(w.published[id]).value.files| == 1
    && KeyFor(p, w.vault, Some(priv)).Some?
    && var m, key := Read(w.published[id]).value, KeyFor(p, w.vault, Some(priv)).value;
       var space := SpaceFor(key, GenerationOf(w.vault));
       && (verifies <==> VerifyFile(p, w.vault.store, space, key, m.files[0]) == Ok(None))
       && (verifies ==> RestoreFile(p, w.vault.store, space, key, m.comp.compType, m.files[0]) == Ok(source.content))
  }

  /** The holder of the named key gets an error where the captured bytes should be. */
  ghost predicate Lost(p: Primitives, w: World, id: string, priv: PrivateKey, source: SourceFile) {
    && Found(p, w, id, priv, source, false)
    && var m, key := Read(w.published[id]).value, KeyFor(p, w.vault, Some(priv)).value;
       RestoreFile(p, w.vault.store, SpaceFor(key, GenerationOf(w.vault)), key, m.comp.compType, m.files[0]).Err?
  }

  /** The object of a small file in the first generation. */
  function Leftover(p: Primitives, v: Vault, source: SourceFile): ObjectId
    requires Conf(v).Some?
  {
    ObjectId(Generation(1), HashOf(p, Conf(v).value.comp, source.content))
  }

  lemma SmallFileFound(p: Primitives, w: World, after: World, e: Event, key: Bytes)
    requires Lawful(p) && ConfigGood(p, w.vault) && e.BeginCreate? && e.priv.Some? && Possible(p, w, e)
    requires KeyFor(p, w.vault, e.priv) == Some(key) && |key| == AES_256_KEY_SIZE && GenerationOf(w.vault) == 1
    requires |e.sources| == 1 && |e.sources[0].content| < CHUNK_THRESHOLD
    requires Took(p, w, after, e) && after.vault == w.vault && Leftover(p, w.vault, e.sources[0]) in w.vault.store
    requires p.fingerprint(PublicOf(e.priv.value)) == Enc(w.vault).value.fingerprint
    ensures var id, source := Leftover(p, w.vault, e.sources[0]), e.sources[0];
            && Found(p, after, e.pending.id, e.priv.value, source, Names(p, key, w.vault.store[id], id.hash))
            && (Opened(p, key, w.vault.store[id]).Err? ==> Lost(p, after, e.pending.id, e.priv.value, source))
  {
    var b, s := Backup(p, w.vault, e), Captured(p, w.vault, e);
    var record := Create.Expected(p, b, 0);
    assert Parts(record) == [Chunk(HashOf(p, b.comp, e.sources[0].content), 0, |e.sources[0].content|)];
    var m := Manifest(e.pending.id, [record], e.pending.createdAt, e.pending.source, b.comp);
    ManifestRoundTrip(m);
    assert CapturedFiles(p, Conf(w.vault).value, e.sources) == [record];
    assert Read(s) == Some(m);
    VerifyFileExact(p, w.vault.store, b.space, key, record);
    CalculatedHashes(p, b.format, b.comp, e.sources[0]);
    if VerifyFile(p, w.vault.store, b.space, key, record) == Ok(None) {
      VerifyImpliesRestore(p, w.vault.store, b.space, key, b.format, b.comp, e.sources[0]);
    }
  }

  /** After any history: when the encryption is removed by force and set up anew, a small file whose object was in the
      first generation can be published in a snapshot that verifies exactly when the object opens, under the new key, to
      what its name says; when it does not open at all, nobody can restore the snapshot. */
  lemma RemovalLoses(p: Primitives, events: seq<Event>, keys: NewKeys, priv: PrivateKey, pending: Pending,
                     source: SourceFile)
    requires Lawful(p) && Reachable(p, events) && |keys.secret| == AES_256_KEY_SIZE && PublicOf(priv) == keys.pub
    requires pending.keyed && |source.content| < CHUNK_THRESHOLD && Conf(State(p, events).vault).Some?
    requires Leftover(p, State(p, events).vault, source) in State(p, events).vault.store
    ensures var v := State(p, events).vault;
            var id := Leftover(p, v, source);
            exists more :: && Reachable(p, events + more)
                           && Found(p, State(p, events + more), pending.id, priv, source,
                                    Names(p, keys.secret, v.store[id], id.hash))
                           && (Opened(p, keys.secret, v.store[id]).Err? ==>
                                 Lost(p, State(p, events + more), pending.id, priv, source))
  {
    var w := State(p, events);
    ReachableIsPlainGood(p, events);
    var over := StartingOverKeepsObjects(p, w, keys);
    var after := LosesAfter(p, over, keys, priv, pending, source);
    CarefulLeadsAnyhow(p, over, after);
    LeadsOn(p, w, over, after, Whatever);
    var more :| Exec(p, w, more) == Some(after) && Along(p, w, more, Whatever);
    ExecAppend(p, EMPTY, events, more);
  }

  lemma LosesAfter(p: Primitives, w: World, keys: NewKeys, priv: PrivateKey, pending: Pending, source: SourceFile)
    returns (after: World)
    requires Lawful(p) && ConfigGood(p, w.vault) && w.activity == Quiet && w.vault.secret == keys.secret
    requires |keys.secret| == AES_256_KEY_SIZE && PublicOf(priv) == keys.pub && pending.keyed
    requires Enc(w.vault) == Some(Wrapped(p, keys.pub, keys.secret, keys.seed, 1))
    requires |source.content| < CHUNK_THRESHOLD && Leftover(p, w.vault, source) in w.vault.store
    ensures LeadsTo(p, w, after, Careful)
    ensures var id := Leftover(p, w.vault, source);
            && Found(p, after, pending.id, priv, source, Names(p, keys.secret, w.vault.store[id], id.hash))
            && (Opened(p, keys.secret, w.vault.store[id]).Err? ==> Lost(p, after, pending.id, priv, source))
  {
    var e := BeginCreate(pending, [source], Some(priv), 1);
    assert KeyFor(p, w.vault, Some(priv)) == Some(keys.secret);
    after := NameIsTrusted(p, w, e);
    SmallFileFound(p, w, after, e, keys.secret);
  }

  // A history that ends so

  const FIRST_KEYS := NewKeys(PublicKey(1), seq(AES_256_KEY_SIZE, _ => 1), 0)
  const SECOND_KEYS := NewKeys(PublicKey(2), seq(AES_256_KEY_SIZE, _ => 2), 0)
  const BEGINNING := [Init(0, 2, Uncompressed, None, Some(FIRST_KEYS), false)]
  const FILE := SourceFile("/a/b", [7])

  lemma Beginning()
    ensures var p := Toy();
            && Lawful(p) && CarefulHistory(p, BEGINNING)
            && var w := State(p, BEGINNING);
               && w.activity == Quiet && w.vault.store == map[] && w.vault.secret == FIRST_KEYS.secret
               && Conf(w.vault).Some? && Conf(w.vault).value.comp == Compression(Uncompressed, None)
               && Conf(w.vault).value.format == 2
               && Enc(w.vault) == Some(Wrapped(p, FIRST_KEYS.pub, FIRST_KEYS.secret, FIRST_KEYS.seed, 1))
               && KeyFor(p, w.vault, Some(PrivateKey(1))) == Some(FIRST_KEYS.secret)
  {
    var p, e := Toy(), BEGINNING[0];
    LawfulPrimitivesExist();
    WantedIsOrdinary(p, e);
    assert BEGINNING == [e] && BEGINNING[1..] == [];
    InitConfigGood(p, EMPTY, e);
    WrittenIsRead(Wanted(p, e).value, After(p, EMPTY, e).vault);
    assert Exec(p, EMPTY, BEGINNING) == Some(After(p, EMPTY, e));
  }

  /** A keyed snapshot of a file after the first init: its object opens under the first key, and so not under the
      second. */
  lemma FirstSnapshot() returns (events: seq<Event>)
    ensures var p := Toy();
            && Lawful(p) && CarefulHistory(p, events) && Conf(State(p, events).vault).Some?
            && var v := State(p, events).vault;
               && Leftover(p, v, FILE) in v.store
               && Opened(p, SECOND_KEYS.secret, v.store[Leftover(p, v, FILE)]).Err?
  {
    var p := Toy();
    var e := BeginCreate(Pending("first", "/a", 0, true), [FILE], Some(PrivateKey(1)), 1);
    Beginning();
    SnapshotCanBeTaken(p, BEGINNING, e);
    var more :| GoesOn(p, BEGINNING, more) && Took(p, State(p, BEGINNING), State(p, BEGINNING + more), e);
    events := BEGINNING + more;
    FirstObject(p, events, State(p, BEGINNING), e);
  }

  lemma FirstObject(p: Primitives, events: seq<Event>, w: World, e: Event)
    requires p == Toy() && Lawful(p) && CarefulHistory(p, events) && e.BeginCreate? && e.sources == [FILE]
    requires Conf(w.vault).Some? && w.vault.secret == FIRST_KEYS.secret && GenerationOf(w.vault) == 1
             && Enc(w.vault).Some?
    requires Conf(w.vault).value.format == 2 && KeyFor(p, w.vault, e.priv) == Some(FIRST_KEYS.secret)
    requires Took(p, w, State(p, events), e)
    ensures Conf(State(p, events).vault) == Conf(w.vault)
    ensures var v := State(p, events).vault;
            Leftover(p, v, FILE) in v.store && Opened(p, SECOND_KEYS.secret, v.store[Leftover(p, v, FILE)]).Err?
  {
    var v, b := State(p, events).vault, Backup(p, w.vault, e);
    var id := Leftover(p, v, FILE);
    assert Parts(Create.Expected(p, b, 0)) == [Chunk(id.hash, 0, 1)];
    assert HasParts(v.store, b.space, Parts(Create.Expected(p, b, 0)));
    assert ObjectId(b.space, Parts(Create.Expected(p, b, 0))[0].hash) == id;
    CarefulIsGentle(p, EMPTY, events);
    D.ConfiguredGenerationIsReadable(p, events, id.hash, 0);
    OpensUnderOne(v.store[id]);
  }

  lemma OpensUnderOne(blob: Bytes)
    requires Opened(Toy(), FIRST_KEYS.secret, blob).Ok?
    ensures Opened(Toy(), SECOND_KEYS.secret, blob).Err?
  {
    ToyTellsKeys(FIRST_KEYS.secret, SECOND_KEYS.secret, blob[..NONCE_SIZE], blob[NONCE_SIZE..]);
  }

  /** An init, a keyed snapshot, a forced removal, an init with other keys, and a second snapshot of the same file: the
      holder of the new key cannot restore it. */
  lemma SomeHistoryLoses()
    ensures Lawful(Toy())
    ensures exists events, id, priv :: Reachable(Toy(), events) && Lost(Toy(), State(Toy(), events), id, priv, FILE)
  {
    var p := Toy();
    var events := FirstSnapshot();
    var pending := Pending("second", "/a", 0, true);
    RemovalLoses(p, events, SECOND_KEYS, PrivateKey(2), pending, FILE);
    var more :| Reachable(p, events + more) && Lost(p, State(p, events + more), pending.id, PrivateKey(2), FILE);
  }
}
