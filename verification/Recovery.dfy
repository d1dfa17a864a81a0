/**
  Starting over: whatever happened to a repository, a rotation can be run again to its commit, and a snapshot can be
  taken and published. Nothing a broken operation leaves behind stands in the way.
 */
module Recovery {
  import opened Outcomes
  import opened Primitives
  import opened Files
  import opened ObjectKeys
  import opened Objects
  import opened Configs
  import opened Repositories
  import opened Manifests
  import opened Lifetime
  import opened Histories
  import opened PlainDurability
  import opened Durability
  import Create = CreatePool
  import CreateLiveness
  import Rekey = RekeyProtocol

  /** The history goes on, and is as gentle and as careful as it was. */
  ghost predicate GoesOn(p: Primitives, events: seq<Event>, more: seq<Event>) {
    && Reachable(p, events + more)
    && (GentleHistory(p, events) ==> GentleHistory(p, events + more))
    && (CarefulHistory(p, events) ==> CarefulHistory(p, events + more))
  }

  /** What the present state leads to, a history can go on to. */
  lemma GoingOn(p: Primitives, events: seq<Event>, after: World) returns (more: seq<Event>)
    requires Reachable(p, events) && LeadsTo(p, State(p, events), after, Careful)
    ensures GoesOn(p, events, more) && State(p, events + more) == after
  {
    var w := State(p, events);
    more :| Exec(p, w, more) == Some(after) && Along(p, w, more, Careful);
    CarefulIsGentle(p, w, more);
    ExecAppend(p, EMPTY, events, more);
    if GentleHistory(p, events) { AlongAppend(p, EMPTY, events, more, Gentle, w); }
    if CarefulHistory(p, events) { AlongAppend(p, EMPTY, events, more, Careful, w); }
  }

  lemma StopFirst(p: Primitives, w: World, after: World)
    requires LeadsTo(p, w.(activity := Quiet), after, Careful)
    ensures LeadsTo(p, w, after, Careful)
  {
    LeadsByOne(p, w, Stop, Careful);
    LeadsOn(p, w, w.(activity := Quiet), after, Careful);
  }

  lemma {:induction false} Enumerate(hashes: set<string>) returns (list: seq<string>)
    ensures forall hash :: hash in list <==> hash in hashes
  {
    list := [];
    if hashes != {} {
      var hash :| hash in hashes;
      var rest := Enumerate(hashes - {hash});
      list := [hash] + rest;
    }
  }

  /** The hashes of a generation, as its listing gives them. */
  lemma ListGeneration(store: Store, g: nat) returns (list: seq<string>)
    ensures forall hash :: hash in list <==> ObjectId(Generation(g), hash) in store
  {
    list := Enumerate(set id | id in store.Keys && id.space == Generation(g) :: id.hash);
    forall hash ensures hash in list <==> ObjectId(Generation(g), hash) in store {
      if ObjectId(Generation(g), hash) in store { assert ObjectId(Generation(g), hash).hash == hash; }
    }
  }

  // A rotation

  /** Every object of the generation is in the next one, with its content under the new key. */
  ghost predicate AllCarried(p: Primitives, r: Rekey.Rotation, before: Store, store: Store) {
    forall hash :: Rekey.Old(r, hash) in before ==>
                     && Rekey.New(r, hash) in store
                     && Opened(p, r.newKey, store[Rekey.New(r, hash)]) ==
                          Opened(p, r.oldKey, before[Rekey.Old(r, hash)])
  }

  lemma CommitPossible(p: Primitives, r: Rekey.Rotation, before: Store)
    returns (actions: seq<Rekey.Action>, end: Rekey.Run)
    requires Lawful(p) && Rekey.Prepared(p, r, before)
    ensures Rekey.Exec(p, r, Rekey.Start(r, before), actions) == Some(end) && end.committed
    ensures !Rekey.DeletesAfterLoss(actions) && AllCarried(p, r, before, end.store)
  {
    Rekey.StartInv(p, r, before);
    actions := Rekey.ReachesCommit(p, r, before, Rekey.Start(r, before));
    end := Rekey.Exec(p, r, Rekey.Start(r, before), actions).value;
    forall hash | Rekey.Old(r, hash) in before
      ensures Rekey.New(r, hash) in end.store
      ensures Opened(p, r.newKey, end.store[Rekey.New(r, hash)]) == Opened(p, r.oldKey, before[Rekey.Old(r, hash)])
    {
      assert hash in r.hashes;
      Rekey.CommitKeepsContent(p, r, before, actions, hash);
    }
  }

  /** A rotation of what was there committed: the configuration names the next generation and wraps the new key, and
      every object is there, with its content. */
  ghost predicate RotatedWith(p: Primitives, w: World, after: World, next: NewKeys) {
    var g, act := GenerationOf(w.vault), after.activity;
    && act.Rekeying? && act.rotation.committed && act.before == w.vault.store && after.published == w.published
    && act.r.current == g && act.r.next == g + 1 && act.r.oldKey == w.vault.secret && act.r.newKey == next.secret
    && after.vault.secret == next.secret
    && Enc(after.vault) == Some(Wrapped(p, next.pub, next.secret, next.seed, g + 1))
    && AllCarried(p, act.r, w.vault.store, after.vault.store)
  }

  lemma CommittedConfig(p: Primitives, w: World, e: Event, end: Rekey.Run)
    requires Lawful(p) && PlainGood(p, w) && e.BeginRekey? && Possible(p, w, e) && !WrapsAround(w, e) && end.committed
    ensures var after := Rotated(After(p, w, e), end);
            && after.vault.secret == e.next.secret && after.vault.store == end.store
            && Enc(after.vault) == Some(Wrapped(p, e.next.pub, e.next.secret, e.next.seed, GenerationOf(w.vault) + 1))
    ensures KeyFor(p, w.vault, Some(e.currentPriv)) == Some(w.vault.secret)
  {
    var g := GenerationOf(w.vault);
    KeyIsSecret(p, w.vault, Some(e.currentPriv));
    WrappedWraps(p, e.next.pub, e.next.secret, e.next.seed, g + 1);
    CommittedConfigGood(p, w.vault, Rotated(After(p, w, e), end).vault,
                        Wrapped(p, e.next.pub, e.next.secret, e.next.seed, g + 1), e.next.secret);
  }

  lemma RotatesTo(p: Primitives, w: World, e: Event) returns (after: World)
    requires Lawful(p) && Good(p, w) && e.BeginRekey? && Possible(p, w, e) && !WrapsAround(w, e)
    ensures LeadsTo(p, w, after, Careful) && RotatedWith(p, w, after, e.next)
  {
    var r := Rotation(p, w.vault, e);
    RotationPrepared(p, w.vault, e);
    var actions, end := CommitPossible(p, r, w.vault.store);
    RotationIsHistory(p, w, e, actions, end, Careful);
    CommittedConfig(p, w, e, end);
    after := Rotated(After(p, w, e), end);
  }

  /** After any gentle history, the holder of the named private key can rotate: the rotation reaches its commit although
      earlier ones may have been broken off at any point, or aborted after their commit. */
  lemma RotationCanBeRetried(p: Primitives, events: seq<Event>, priv: PrivateKey, next: NewKeys)
    requires Lawful(p) && GentleHistory(p, events) && |next.secret| == AES_256_KEY_SIZE
    requires var v := State(p, events).vault;
             && Enc(v).Some? && p.fingerprint(PublicOf(priv)) == Enc(v).value.fingerprint
             && GenerationOf(v) + 1 < UINT64_LIMIT
    ensures exists more :: GoesOn(p, events, more) && RotatedWith(p, State(p, events), State(p, events + more), next)
  {
    var w := State(p, events);
    GentleIsGood(p, events);
    OnlyTheNamedKey(p, events, priv);
    RetriesFrom(p, events, w, priv, next);
  }

  lemma StoppedIsGood(p: Primitives, w: World)
    requires Good(p, w)
    ensures Good(p, w.(activity := Quiet))
  {
  }

  lemma RetriesFrom(p: Primitives, events: seq<Event>, w: World, priv: PrivateKey, next: NewKeys)
    requires Lawful(p) && Reachable(p, events) && w == State(p, events) && Good(p, w)
    requires |next.secret| == AES_256_KEY_SIZE && GenerationOf(w.vault) + 1 < UINT64_LIMIT
    requires KeyFor(p, w.vault, Some(priv)).Some?
    ensures exists more :: GoesOn(p, events, more) && RotatedWith(p, w, State(p, events + more), next)
  {
    var hashes := ListGeneration(w.vault.store, GenerationOf(w.vault));
    StoppedIsGood(p, w);
    var after := RotatesTo(p, w.(activity := Quiet), BeginRekey(priv, next, hashes));
    StopFirst(p, w, after);
    var more := GoingOn(p, events, after);
    SameRotation(p, w, after, next);
  }

  lemma SameRotation(p: Primitives, w: World, after: World, next: NewKeys)
    requires RotatedWith(p, w.(activity := Quiet), after, next)
    ensures RotatedWith(p, w, after, next)
  {
  }

  // A create

  function CapturedFiles(p: Primitives, c: Settings, sources: seq<SourceFile>): (files: seq<FileRecord>)
    ensures |files| == |sources|
    ensures forall i | 0 <= i < |files| :: files[i] == Calculated(p, c.format, c.comp, sources[i])
  {
    seq(|sources|, i requires 0 <= i < |sources| => Calculated(p, c.format, c.comp, sources[i]))
  }

  /** The snapshot a create sets out to take. */
  function Captured(p: Primitives, v: Vault, e: Event): Snapshot
    requires e.BeginCreate? && Conf(v).Some?
  {
    var c := Conf(v).value;
    var m := Manifest(e.pending.id, CapturedFiles(p, c, e.sources), e.pending.createdAt, e.pending.source, c.comp);
    Snapshot(Marshal(ModelOf(m)), e.sources, c.format, e.pending.keyed)
  }

  /** The create ran, over what was there, and published what it captured; all of its objects are in the store. */
  ghost predicate Took(p: Primitives, w: World, after: World, e: Event)
    requires e.BeginCreate? && Conf(w.vault).Some? && KeyFor(p, w.vault, e.priv).Some?
  {
    var act, b := after.activity, Backup(p, w.vault, e);
    && act.Creating? && act.creation.published && act.b == b && act.pending == e.pending && act.before == w.vault.store
    && after.published == w.published[e.pending.id := Captured(p, w.vault, e)]
    && after.vault == w.vault.(store := after.vault.store)
    && forall i | 0 <= i < |e.sources| :: HasParts(after.vault.store, b.space, Parts(Create.Expected(p, b, i)))
  }

  lemma Takes(p: Primitives, w: World, e: Event) returns (after: World)
    requires Lawful(p) && ConfigGood(p, w.vault) && e.BeginCreate? && Possible(p, w, e)
    requires CreateLiveness.EmptyFilesStored(p, Backup(p, w.vault, e), w.vault.store)
    ensures LeadsTo(p, w, after, Careful) && Took(p, w, after, e)
  {
    var b := Backup(p, w.vault, e);
    var start := Create.Start(b, w.vault.store, e.workers);
    KeyIsSecret(p, w.vault, e.priv);
    Create.StartInv(p, b, w.vault.store, e.workers);
    var actions := CreateLiveness.ReachesPublish(p, b, w.vault.store, start);
    var end := Create.Exec(p, b, start, actions).value;
    Create.ExecInv(p, b, w.vault.store, start, actions);
    CreateRunsTo(p, w, e, actions, end, Careful);
    after := Created(After(p, w, e), end);
    CapturedIsPublished(p, w, e, end);
  }

  lemma CapturedIsPublished(p: Primitives, w: World, e: Event, end: Create.Run)
    requires e.BeginCreate? && Conf(w.vault).Some? && KeyFor(p, w.vault, e.priv).Some?
    requires Create.AllDone(p, Backup(p, w.vault, e), end)
    ensures Published(Backup(p, w.vault, e), e.pending, end) == Captured(p, w.vault, e)
    ensures forall i | 0 <= i < |e.sources| ::
              HasParts(end.store, Backup(p, w.vault, e).space, Parts(Create.Expected(p, Backup(p, w.vault, e), i)))
  {
    var b, c, n := Backup(p, w.vault, e), Conf(w.vault).value, |e.sources|;
    forall i | 0 <= i < n
      ensures end.files[i] == Calculated(p, c.format, c.comp, e.sources[i])
              && HasParts(end.store, b.space, Parts(end.files[i]))
    {
      assert Create.FileDone(p, b, end, i);
    }
    assert end.files == CapturedFiles(p, c, e.sources);
  }

  /** After any history whatsoever, a snapshot of any files can be taken and published: in format two, of any files but
      empty ones whose object is not there. */
  lemma SnapshotCanBeTaken(p: Primitives, events: seq<Event>, e: Event)
    requires Lawful(p) && Reachable(p, events) && e.BeginCreate? && (e.pending.keyed <==> e.priv.Some?)
    requires Conf(State(p, events).vault).Some? && KeyFor(p, State(p, events).vault, e.priv).Some?
    requires CreateLiveness.EmptyFilesStored(p, Backup(p, State(p, events).vault, e), State(p, events).vault.store)
    ensures exists more :: GoesOn(p, events, more) && Took(p, State(p, events), State(p, events + more), e)
  {
    var w := State(p, events);
    ReachableIsPlainGood(p, events);
    var after := Takes(p, w.(activity := Quiet), e);
    StopFirst(p, w, after);
    var more := GoingOn(p, events, after);
    assert Took(p, w, State(p, events + more), e);
  }
}
