/**
  Putting histories together: appending them, and the steps of a create or of a rotation as events of the repository's
  life, with the state they lead to.
 */
module Histories {
  import opened Outcomes
  import opened Primitives
  import opened Configs
  import opened Lifetime
  import opened PlainDurability
  import Create = CreatePool
  import Rekey = RekeyProtocol

  lemma {:induction false} ExecAppend(p: Primitives, w: World, a: seq<Event>, b: seq<Event>)
    requires Exec(p, w, a).Some?
    ensures Exec(p, w, a + b) == Exec(p, Exec(p, w, a).value, b)
    decreases |a|
  {
    if a == [] {
      assert a + b == b;
    } else {
      assert (a + b)[0] == a[0] && (a + b)[1..] == a[1..] + b;
      ExecAppend(p, After(p, w, a[0]), a[1..], b);
    }
  }

  lemma AlongFirst(p: Primitives, w: World, events: seq<Event>, kind: (World, Event) -> bool)
    requires events != [] && Exec(p, w, events).Some? && Along(p, w, events, kind)
    ensures Possible(p, w, events[0]) && kind(w, events[0])
    ensures Exec(p, After(p, w, events[0]), events[1..]) == Exec(p, w, events)
    ensures Along(p, After(p, w, events[0]), events[1..], kind)
  {
  }

  lemma {:induction false} AlongAppend(p: Primitives, w: World, a: seq<Event>, b: seq<Event>,
                                       kind: (World, Event) -> bool, end: World)
    requires Exec(p, w, a) == Some(end) && Along(p, w, a, kind)
    requires Exec(p, end, b).Some? && Along(p, end, b, kind)
    ensures Exec(p, w, a + b).Some? && Along(p, w, a + b, kind)
    decreases |a|
  {
    if a == [] {
      assert a + b == b;
    } else {
      AlongFirst(p, w, a, kind);
      var next, rest := After(p, w, a[0]), a[1..];
      AlongAppend(p, next, rest, b, kind, end);
      AlongRest(p, w, a, b, next, kind);
    }
  }

  lemma AlongRest(p: Primitives, w: World, a: seq<Event>, b: seq<Event>, next: World, kind: (World, Event) -> bool)
    requires a != [] && Possible(p, w, a[0]) && kind(w, a[0]) && next == After(p, w, a[0])
    requires Exec(p, next, a[1..] + b).Some? && Along(p, next, a[1..] + b, kind)
    ensures Exec(p, w, a + b).Some? && Along(p, w, a + b, kind)
  {
    assert (a + b)[0] == a[0] && (a + b)[1..] == a[1..] + b;
  }

  lemma {:induction false} CarefulIsGentle(p: Primitives, w: World, events: seq<Event>)
    requires Exec(p, w, events).Some? && Along(p, w, events, Careful)
    ensures Along(p, w, events, Gentle)
    decreases |events|
  {
    if events != [] { CarefulIsGentle(p, After(p, w, events[0]), events[1..]); }
  }

  /** Some events of a kind lead from one state to another. */
  ghost predicate LeadsTo(p: Primitives, w: World, after: World, kind: (World, Event) -> bool) {
    exists events :: Exec(p, w, events) == Some(after) && Along(p, w, events, kind)
  }

  lemma Leads(p: Primitives, w: World, events: seq<Event>, after: World, kind: (World, Event) -> bool)
    requires Exec(p, w, events) == Some(after) && Along(p, w, events, kind)
    ensures LeadsTo(p, w, after, kind)
  {
  }

  lemma LeadsNowhere(p: Primitives, w: World, kind: (World, Event) -> bool)
    ensures LeadsTo(p, w, w, kind)
  {
    assert Exec(p, w, []) == Some(w) && Along(p, w, [], kind);
  }

  lemma LeadsByOne(p: Primitives, w: World, e: Event, kind: (World, Event) -> bool)
    requires Possible(p, w, e) && kind(w, e)
    ensures LeadsTo(p, w, After(p, w, e), kind)
  {
    assert [e][0] == e && [e][1..] == [];
    assert Exec(p, w, [e]) == Some(After(p, w, e)) && Along(p, w, [e], kind);
  }

  lemma LeadsOn(p: Primitives, a: World, b: World, c: World, kind: (World, Event) -> bool)
    requires LeadsTo(p, a, b, kind) && LeadsTo(p, b, c, kind)
    ensures LeadsTo(p, a, c, kind)
  {
    var x :| Exec(p, a, x) == Some(b) && Along(p, a, x, kind);
    var y :| Exec(p, b, y) == Some(c) && Along(p, b, y, kind);
    ExecAppend(p, a, x, y);
    AlongAppend(p, a, x, y, kind, b);
    assert Exec(p, a, x + y) == Some(c);
  }

  lemma CarefulLeadsGently(p: Primitives, a: World, b: World)
    requires LeadsTo(p, a, b, Careful)
    ensures LeadsTo(p, a, b, Gentle)
  {
    var x :| Exec(p, a, x) == Some(b) && Along(p, a, x, Careful);
    CarefulIsGentle(p, a, x);
  }

  lemma CarefulLeadsAnyhow(p: Primitives, a: World, b: World)
    requires LeadsTo(p, a, b, Careful)
    ensures LeadsTo(p, a, b, Whatever)
  {
    var x :| Exec(p, a, x) == Some(b) && Along(p, a, x, Careful);
    AnythingGoes(p, a, x);
  }

  lemma {:induction false} AnythingGoes(p: Primitives, w: World, events: seq<Event>)
    requires Exec(p, w, events).Some?
    ensures Along(p, w, events, Whatever)
    decreases |events|
  {
    if events != [] { AnythingGoes(p, After(p, w, events[0]), events[1..]); }
  }

  /** What the present state leads to, a history can go on to: as gently, and as carefully, as that can be done. */
  lemma GoOn(p: Primitives, events: seq<Event>, after: World) returns (more: seq<Event>)
    requires Reachable(p, events) && LeadsTo(p, State(p, events), after, Whatever)
    ensures Reachable(p, events + more) && State(p, events + more) == after
    ensures LeadsTo(p, State(p, events), after, Gentle) && GentleHistory(p, events) ==> GentleHistory(p, events + more)
    ensures LeadsTo(p, State(p, events), after, Careful) && CarefulHistory(p, events) ==>
              CarefulHistory(p, events + more)
  {
    var w := State(p, events);
    if LeadsTo(p, w, after, Careful) {
      more :| Exec(p, w, more) == Some(after) && Along(p, w, more, Careful);
      CarefulIsGentle(p, w, more);
      if CarefulHistory(p, events) { AlongAppend(p, EMPTY, events, more, Careful, w); }
    } else if LeadsTo(p, w, after, Gentle) {
      more :| Exec(p, w, more) == Some(after) && Along(p, w, more, Gentle);
    } else {
      more :| Exec(p, w, more) == Some(after) && Along(p, w, more, Whatever);
    }
    ExecAppend(p, EMPTY, events, more);
    if GentleHistory(p, events) && Along(p, w, more, Gentle) { AlongAppend(p, EMPTY, events, more, Gentle, w); }
  }

  // The steps of a create

  predicate EndsPublished(w: World) {
    w.activity.Creating? && (w.activity.creation.published ==> w.activity.creation.phase == Create.Ended)
  }

  /** Where a create's run leaves the repository. */
  function Created(w: World, end: Create.Run): World
    requires w.activity.Creating?
  {
    var act := w.activity;
    World(w.vault.(store := end.store),
          if end.published && !act.creation.published
          then w.published[act.pending.id := Published(act.b, act.pending, end)] else w.published,
          act.(creation := end))
  }

  lemma CreatedStep(p: Primitives, w: World, a: Create.Action)
    requires EndsPublished(w) && Recorded(w) && w.vault.store == w.activity.creation.store
    requires Create.Enabled(p, w.activity.b, w.activity.creation, a)
    ensures var next := After(p, w, CreateStep(a));
            && next == Created(w, Create.Apply(p, w.activity.b, w.activity.creation, a))
            && EndsPublished(next) && Recorded(next) && next.vault.store == next.activity.creation.store
            && (w.activity.creation.published ==> next.activity.creation.published)
  {
    if w.activity.creation.published { Create.OtherActions(p, w.activity.b, w.activity.creation, a); }
    StaysPublished(p, w.activity.b, w.activity.creation, a);
  }

  lemma StaysPublished(p: Primitives, b: Create.Backup, run: Create.Run, a: Create.Action)
    requires Create.Enabled(p, b, run, a) && (run.published ==> run.phase == Create.Ended)
    ensures var next := Create.Apply(p, b, run, a);
            (run.published ==> next.published) && (next.published ==> next.phase == Create.Ended)
            && (run.published ==> next == run.(cancelled := next.cancelled))
  {
    if a.Put? || a.PutLost? {
      Create.PutMoves(p, b, run, a);
    } else if a.Hit? {
      Create.AdvanceMoves(run, a.worker, run.workers[a.worker].saved);
    }
  }

  /** Every step of a create that seals what it puts is careful. */
  lemma {:induction false} CreateLeads(p: Primitives, w: World, actions: seq<Create.Action>, end: Create.Run,
                                       kind: (World, Event) -> bool)
    requires kind == Whatever || (kind == Careful && w.activity.Creating? && Create.PutsSealed(w.activity.b, actions))
    requires EndsPublished(w) && Recorded(w) && w.vault.store == w.activity.creation.store
    requires Create.Exec(p, w.activity.b, w.activity.creation, actions) == Some(end)
    ensures LeadsTo(p, w, Created(w, end), kind)
    ensures w.activity.creation.published ==> end.published && end.files == w.activity.creation.files
    decreases |actions|
  {
    if actions == [] {
      LeadsNowhere(p, w, kind);
    } else {
      var run := Create.Apply(p, w.activity.b, w.activity.creation, actions[0]);
      CreatedStep(p, w, actions[0]);
      assert Create.PutsSealed(w.activity.b, actions) ==> Create.ActionSealed(w.activity.b, actions[0]);
      LeadsByOne(p, w, CreateStep(actions[0]), kind);
      CreateLeads(p, Created(w, run), actions[1..], end, kind);
      StaysPublished(p, w.activity.b, w.activity.creation, actions[0]);
      assert Created(Created(w, run), end) == Created(w, end);
      LeadsOn(p, w, Created(w, run), Created(w, end), kind);
    }
  }

  /** A whole create, as far as its run got. */
  lemma CreateRunsTo(p: Primitives, w: World, e: Event, actions: seq<Create.Action>, end: Create.Run,
                     kind: (World, Event) -> bool)
    requires w.activity == Quiet && e.BeginCreate? && Possible(p, w, e)
    requires var b := Backup(p, w.vault, e);
             && Create.Exec(p, b, Create.Start(b, w.vault.store, e.workers), actions) == Some(end)
             && (kind == Whatever || (kind == Careful && Create.PutsSealed(b, actions)))
    ensures LeadsTo(p, w, Created(After(p, w, e), end), kind)
  {
    var begun := After(p, w, e);
    LeadsByOne(p, w, e, kind);
    CreateLeads(p, begun, actions, end, kind);
    LeadsOn(p, w, begun, Created(begun, end), kind);
  }

  lemma StopsAt(p: Primitives, w: World, middle: World, kind: (World, Event) -> bool)
    requires LeadsTo(p, w, middle, kind) && kind(middle, Stop)
    ensures LeadsTo(p, w, middle.(activity := Quiet), kind)
  {
    LeadsByOne(p, middle, Stop, kind);
    LeadsOn(p, w, middle, middle.(activity := Quiet), kind);
  }

  // The steps of a rotation

  /** Where a rotation's run leaves the repository: the configuration changes with the commit. */
  function Rotated(w: World, end: Rekey.Run): World
    requires w.activity.Rekeying?
  {
    var act := w.activity;
    w.(vault := if end.committed && !act.rotation.committed && Conf(w.vault).Some?
                then Vault(Some(RecordOf(Conf(w.vault).value.(encryption := Some(act.nextEncryption)))), act.r.newKey,
                           end.store)
                else w.vault.(store := end.store),
       activity := act.(rotation := end))
  }

  lemma StaysCommitted(p: Primitives, r: Rekey.Rotation, run: Rekey.Run, a: Rekey.Action)
    requires Rekey.Enabled(p, r, run, a)
    ensures run.committed ==> Rekey.Apply(p, r, run, a).committed
  {
  }

  /** Every gentle step of a rotation is careful but the harmful one. */
  lemma {:induction false} RotationLeads(p: Primitives, w: World, actions: seq<Rekey.Action>, end: Rekey.Run,
                                         kind: (World, Event) -> bool)
    requires w.activity.Rekeying? && w.vault.store == w.activity.rotation.store
    requires Rekey.Exec(p, w.activity.r, w.activity.rotation, actions) == Some(end)
    requires kind == Whatever || kind == Gentle
             || (kind == Careful && !Rekey.HarmAlong(p, w.activity.r, w.activity.rotation, actions))
    ensures LeadsTo(p, w, Rotated(w, end), kind)
    ensures w.activity.rotation.committed ==> end.committed
    decreases |actions|
  {
    if actions == [] {
      LeadsNowhere(p, w, kind);
    } else {
      var run := Rekey.Apply(p, w.activity.r, w.activity.rotation, actions[0]);
      StaysCommitted(p, w.activity.r, w.activity.rotation, actions[0]);
      assert After(p, w, RekeyStep(actions[0])) == Rotated(w, run);
      LeadsByOne(p, w, RekeyStep(actions[0]), kind);
      RotationLeads(p, Rotated(w, run), actions[1..], end, kind);
      assert Rotated(Rotated(w, run), end) == Rotated(w, end);
      LeadsOn(p, w, Rotated(w, run), Rotated(w, end), kind);
    }
  }

  /** A whole rotation, as far as its run got. */
  lemma RotationIsHistory(p: Primitives, w: World, e: Event, actions: seq<Rekey.Action>, end: Rekey.Run,
                          kind: (World, Event) -> bool)
    requires w.activity == Quiet && e.BeginRekey? && Possible(p, w, e)
    requires var r := Rotation(p, w.vault, e);
             && Rekey.Exec(p, r, Rekey.Start(r, w.vault.store), actions) == Some(end)
             && (kind == Whatever
                 || (!WrapsAround(w, e) && (kind == Gentle || (kind == Careful && !Rekey.DeletesAfterLoss(actions)))))
    ensures LeadsTo(p, w, Rotated(After(p, w, e), end), kind)
    ensures LeadsTo(p, w, Rotated(After(p, w, e), end).(activity := Quiet), kind)
  {
    var begun, r := After(p, w, e), Rotation(p, w.vault, e);
    Rekey.HarmIsDeleteAfterLoss(p, r, Rekey.Start(r, w.vault.store), actions);
    LeadsByOne(p, w, e, kind);
    RotationLeads(p, begun, actions, end, kind);
    LeadsOn(p, w, begun, Rotated(begun, end), kind);
    StopsAt(p, w, Rotated(begun, end), kind);
  }
}
