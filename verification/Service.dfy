/** The operations of the service loop that keep the engine object: replay, persist, report
    (internal/lifecycle/run.go), as runs of the accounting protocol on engine, store and database. */
module Service {
  import opened Wrappers
  import opened Model
  import opened Accounting
  import opened Database
  import opened Pipeline
  import opened PipelineLoss
  import opened Serving
  import opened OutboxView
  import opened Operations
  import Outbox
  import XrayEngine
  import Depot
  import EngineSteps

  /** All three objects are in the state of the protocol. */
  ghost predicate Connected(
    engine: XrayEngine.XrayEngine, store: Outbox.Store, database: Database, start: Db, w: World)
    reads engine, engine.sessions, store, database
  {
    Healthy(start, w) && EngineSteps.Engaged(engine, w) && Depot.Backed(store, database, w)
  }

  /** Store and database have moved on; the engine has not. */
  lemma StillConnected(
    engine: XrayEngine.XrayEngine, store: Outbox.Store, database: Database, start: Db, w: World, w': World)
    requires EngineSteps.Engaged(engine, w) && w'.engine == w.engine
    requires Healthy(start, w') && Depot.Backed(store, database, w')
    ensures Connected(engine, store, database, start, w')
  {
  }

  /** The engine has moved on; store and database have not. */
  lemma StillBacked(
    engine: XrayEngine.XrayEngine, store: Outbox.Store, database: Database, start: Db, w: World, w': World)
    requires Depot.Backed(store, database, w) && SameFiles(w, w')
    requires Healthy(start, w') && EngineSteps.Engaged(engine, w')
    ensures Connected(engine, store, database, start, w')
  {
  }

  /** Between two operations: nothing in hand, and a closed engine has nothing left to drain. */
  ghost predicate Resting(
    engine: XrayEngine.XrayEngine, store: Outbox.Store, database: Database, start: Db, w: World)
    reads engine, engine.sessions, store, database
  {
    && Connected(engine, store, database, start, w) && w.hand.None?
    && (!engine.running && Bounded(w) ==> Emptied(w.engine))
  }

  /** Clients go on while store and database rest. */
  method Pause(
    engine: XrayEngine.XrayEngine, store: Outbox.Store, database: Database, ghost start: Db, ghost w: World,
    steps: seq<ClientStep>)
    returns (ghost w': World)
    requires Connected(engine, store, database, start, w)
    modifies engine`counters, engine.sessions
    ensures Connected(engine, store, database, start, w') && Calm(w, w')
    ensures engine.snapshot == old(engine.snapshot) && engine.running == old(engine.running)
    ensures old(engine.InStep()) ==> engine.InStep()
  {
    w' := EngineSteps.ServeClients(engine, start, w, steps);
    StillBacked(engine, store, database, start, w, w');
  }

  /** Clients go on between two operations. */
  method Wait(
    engine: XrayEngine.XrayEngine, store: Outbox.Store, database: Database, ghost start: Db, ghost w: World,
    steps: seq<ClientStep>)
    returns (ghost w': World)
    requires Resting(engine, store, database, start, w)
    modifies engine`counters, engine.sessions
    ensures Resting(engine, store, database, start, w') && Calm(w, w')
    ensures engine.snapshot == old(engine.snapshot) && engine.running == old(engine.running)
    ensures old(engine.InStep()) ==> engine.InStep()
  {
    w' := Pause(engine, store, database, start, w, steps);
    if Bounded(w') { BoundedEarlier(w, w'); }
  }

  // ---------------------------------------------------------------- replay

  method ReplayFirst(
    engine: XrayEngine.XrayEngine, store: Outbox.Store, database: Database, ghost start: Db, ghost w: World,
    file: Outbox.BatchFile, o: Outcome, removal: Outbox.RemoveFault)
    returns (ok: bool, ghost w': World)
    requires Connected(engine, store, database, start, w) && !w.tmp && Heads(file, w.order)
    modifies store, database
    ensures Connected(engine, store, database, start, w') && Undisturbed(w, w')
    ensures ok ==> Advances(w.order, w'.order)
    ensures Ready(w) && o == Committed && removal == Outbox.NoRemoveFault ==> ok
  {
    ok, w' := Depot.ReplayFirst(store, database, start, w, file, o, removal);
    StillConnected(engine, store, database, start, w, w');
  }

  /** One file and what clients do meanwhile. */
  method ReplayNext(
    engine: XrayEngine.XrayEngine, store: Outbox.Store, database: Database, ghost start: Db, ghost from: World,
    ghost w: World, files: seq<Outbox.BatchFile>, i: nat, r: Replaying)
    returns (ok: bool, ghost w': World)
    requires Connected(engine, store, database, start, w) && !w.tmp && i < |files| && ListsFrom(files, i, w.order)
    requires Undisturbed(from, w)
    modifies store, database, engine`counters, engine.sessions
    ensures Connected(engine, store, database, start, w') && Undisturbed(from, w')
    ensures ok ==> ListsFrom(files, i + 1, w'.order)
    ensures NoReplayFault(r) && Ready(from) ==> ok
    ensures old(engine.InStep()) ==> engine.InStep()
  {
    ListHeads(files, i, w.order);
    ghost var w1;
    ok, w1 := ReplayFirst(engine, store, database, start, w, files[i], r.outcomes(i), r.removals(i));
    w' := Pause(engine, store, database, start, w1, r.env(i));
    ReplayTurn(from, w, w1, w');
    if ok { ListAdvances(files, i, w.order, w'.order); }
  }

  /** The loop over the listed files. */
  method ReplayListed(
    engine: XrayEngine.XrayEngine, store: Outbox.Store, database: Database, ghost start: Db, ghost w: World,
    files: seq<Outbox.BatchFile>, r: Replaying)
    returns (ok: bool, ghost w': World)
    requires Connected(engine, store, database, start, w) && !w.tmp && ListsFrom(files, 0, w.order)
    modifies store, database, engine`counters, engine.sessions
    ensures Connected(engine, store, database, start, w') && Undisturbed(w, w')
    ensures ok ==> ListsFrom(files, |files|, w'.order)
    ensures NoReplayFault(r) && Ready(w) ==> ok
    ensures old(engine.InStep()) ==> engine.InStep()
  {
    UndisturbedSelf(w);
    ok, w' := true, w;
    var i := 0;
    while i < |files| && ok
      invariant i <= |files| && Connected(engine, store, database, start, w') && Undisturbed(w, w')
      invariant ok ==> ListsFrom(files, i, w'.order)
      invariant NoReplayFault(r) && Ready(w) ==> ok
      invariant old(engine.InStep()) ==> engine.InStep()
      decreases |files| - i
    {
      ok, w' := ReplayNext(engine, store, database, start, w, w', files, i, r);
      i := i + 1;
    }
  }

  method ReplayFiles(
    engine: XrayEngine.XrayEngine, store: Outbox.Store, database: Database, ghost start: Db, ghost w: World,
    files: seq<Outbox.BatchFile>, r: Replaying)
    returns (ok: bool, ghost w': World)
    requires Connected(engine, store, database, start, w) && !w.tmp && Outbox.IsListing(store.dir, files)
    modifies store, database, engine`counters, engine.sessions
    ensures Connected(engine, store, database, start, w') && Undisturbed(w, w')
    ensures ok ==> AllApplied(w')
    ensures NoReplayFault(r) && Ready(w) ==> ok
    ensures old(engine.InStep()) ==> engine.InStep()
  {
    ListedHere(store.dir, w, files);
    ok, w' := ReplayListed(engine, store, database, start, w, files, r);
    if ok { ListedAll(start, w', files); }
  }

  /** replay: list, then apply and remove file by file. An incomplete file stops it before anything is
      applied; success means that every published batch is applied and gone. */
  method Replay(
    engine: XrayEngine.XrayEngine, store: Outbox.Store, database: Database, ghost start: Db, ghost w: World, r: Replaying)
    returns (ok: bool, ghost w': World)
    requires Connected(engine, store, database, start, w)
    modifies store, database, engine`counters, engine.sessions
    ensures Connected(engine, store, database, start, w') && Undisturbed(w, w') && Replays(w, r, ok)
    ensures ok ==> AllApplied(w')
    ensures Incomplete(old(store.dir)) ==> !ok && database.db == old(database.db) && store.dir == old(store.dir)
    ensures old(engine.InStep()) ==> engine.InStep()
  {
    RefusedHere(store.dir, w, store.node);
    var files := store.List();
    if files.None? || r.listFails {
      UndisturbedSelf(w);
      return false, w;
    }
    ok, w' := ReplayFiles(engine, store, database, start, w, files.value, r);
  }

  // ---------------------------------------------------------------- persist and report

  /** Depot.Persist while the engine rests. */
  method Persist(
    engine: XrayEngine.XrayEngine, store: Outbox.Store, database: Database, ghost start: Db, ghost w: World,
    entries: seq<Entry>, node: Node, save: Saving)
    returns (r: Persisted, ghost w': World)
    requires Connected(engine, store, database, start, w) && w.hand == Some(Hand(node, entries)) && Fresh(w, save)
    modifies store
    ensures Connected(engine, store, database, start, w') && Saves(w, w', save, r)
    ensures Saveable(w, save, store.node) ==> r.Stored?
  {
    r, w' := Depot.Persist(store, database, start, w, entries, node, save);
    StillConnected(engine, store, database, start, w, w');
  }

  method PutBack(
    engine: XrayEngine.XrayEngine, store: Outbox.Store, database: Database, ghost start: Db, ghost w: World,
    gap: seq<ClientStep>, entries: seq<Entry>)
    returns (ghost w': World)
    requires Connected(engine, store, database, start, w)
    requires w.hand == Some(Hand(w.engine.node, entries)) && Registered(entries, w.engine.counters)
    modifies engine`counters, engine.sessions
    ensures Connected(engine, store, database, start, w') && Returns(w, w')
    ensures old(engine.InStep()) ==> engine.InStep()
  {
    w' := EngineSteps.ServeAndPutBack(engine, start, w, gap, entries);
    StillBacked(engine, store, database, start, w, w');
  }

  /** Persist; when nothing was published, the entries go back to the counters they came from. */
  method PersistOrPutBack(
    engine: XrayEngine.XrayEngine, store: Outbox.Store, database: Database, ghost start: Db, ghost w: World,
    entries: seq<Entry>, node: Node, save: Saving, gap: seq<ClientStep>)
    returns (r: Persisted, ghost w': World)
    requires Connected(engine, store, database, start, w) && w.hand == Some(Hand(node, entries)) && Fresh(w, save)
    requires node == w.engine.node && Registered(entries, w.engine.counters)
    modifies store, engine`counters, engine.sessions
    ensures Connected(engine, store, database, start, w') && SavesOrReturns(w, w', save, r)
    ensures Saveable(w, save, store.node) ==> r.Stored?
    ensures old(engine.InStep()) ==> engine.InStep()
  {
    r, w' := Persist(engine, store, database, start, w, entries, node, save);
    ghost var w1 := w';
    if r.Unpublished? { w' := PutBack(engine, store, database, start, w1, gap, entries); }
    SaveOrReturn(w, w1, w', save, r);
  }

  method Drain(
    engine: XrayEngine.XrayEngine, store: Outbox.Store, database: Database, ghost start: Db, ghost w: World,
    gap: seq<ClientStep>)
    returns (entries: Option<seq<Entry>>, ghost w': World)
    requires Connected(engine, store, database, start, w) && w.hand.None?
    modifies engine`counters, engine`retired, engine.sessions
    ensures Connected(engine, store, database, start, w') && DrainsAndServes(w, w', entries)
    ensures old(engine.InStep()) ==> engine.InStep()
  {
    entries, w' := EngineSteps.DrainAndServe(engine, start, w, gap);
    StillBacked(engine, store, database, start, w, w');
  }

  /** The head of report and of an incremental reload: drain and persist. */
  method Collect(
    engine: XrayEngine.XrayEngine, store: Outbox.Store, database: Database, ghost start: Db, ghost w: World,
    save: Saving, env: Clients)
    returns (r: Collected, ghost w': World)
    requires Resting(engine, store, database, start, w) && engine.running && Fresh(w, save)
    modifies store, engine`counters, engine`retired, engine.sessions
    ensures Resting(engine, store, database, start, w') && Collects(w, w', save, r)
    ensures Collectable(w, save, store.node) ==> r.AllCollected?
    ensures old(engine.InStep()) ==> engine.InStep()
  {
    var previous := engine.snapshot.node;
    var entries;
    ghost var w1;
    entries, w1 := Drain(engine, store, database, start, w, env(0));
    if entries.None? {
      DrainFailure(w, w1, save);
      return DrainFailed, w1;
    }
    var saved;
    if Collectable(w, save, store.node) { CollectableIsSaveable(start, w, w1, entries.value, save, store.node); }
    saved, w' := PersistOrPutBack(engine, store, database, start, w1, entries.value, previous, save, env(1));
    CollectOutcome(w, w1, w', entries.value, save, saved);
    r := if saved.Stored? then AllCollected else PersistFailed;
  }

  /** report. A deferred replay is not an error; `collected` is the state the replay starts from. */
  method Report(
    engine: XrayEngine.XrayEngine, store: Outbox.Store, database: Database, ghost start: Db, ghost w: World,
    save: Saving, replay: Replaying, env: Clients)
    returns (r: Collected, applied: bool, ghost collected: World, ghost w': World)
    requires Resting(engine, store, database, start, w) && engine.running && Fresh(w, save)
    modifies store, database, engine`counters, engine`retired, engine.sessions
    ensures Resting(engine, store, database, start, w') && engine.running
    ensures Collects(w, collected, save, r) && Reports(w, collected, w', save, replay, r, applied)
    ensures Collectable(w, save, store.node) ==> r.AllCollected?
    ensures old(engine.InStep()) ==> engine.InStep()
  {
    r, collected := Collect(engine, store, database, start, w, save, env);
    applied, w' := false, collected;
    UndisturbedSelf(collected);
    if r.AllCollected? { applied, w' := Replay(engine, store, database, start, collected, replay); }
    ReportOutcome(w, collected, w', save, replay, r, applied);
  }

  // ---------------------------------------------------------------- closing

  method CloseAndDrain(
    engine: XrayEngine.XrayEngine, store: Outbox.Store, database: Database, ghost start: Db, ghost w: World,
    gap: seq<ClientStep>)
    returns (entries: Option<seq<Entry>>, ghost w': World)
    requires Connected(engine, store, database, start, w) && w.hand.None?
    modifies engine`running, engine`counters, engine`retired, engine.sessions
    ensures Connected(engine, store, database, start, w') && ClosesAndDrains(w, w', entries)
    ensures !engine.running && engine.snapshot == old(engine.snapshot)
  {
    entries, w' := EngineSteps.CloseAndDrain(engine, start, w, gap);
    StillBacked(engine, store, database, start, w, w');
  }

  /** Entries that are never handed on. */
  lemma DropConnected(
    engine: XrayEngine.XrayEngine, store: Outbox.Store, database: Database, start: Db, w: World)
    requires Connected(engine, store, database, start, w) && w.hand.Some?
    ensures Connected(engine, store, database, start, Dropped(w)) && Loses(w, Dropped(w), HandOf(w))
  {
    DropStep(start, w);
    StillBacked(engine, store, database, start, w, Dropped(w));
  }

  /** After a failed save without an engine to give the entries back to. */
  lemma GivenUp(
    engine: XrayEngine.XrayEngine, store: Outbox.Store, database: Database, start: Db, w: World, saved: Persisted)
    requires Connected(engine, store, database, start, w) && (saved.Unpublished? <==> w.hand.Some?)
    ensures Connected(engine, store, database, start, Dropped(w)) && Dropped(w).hand.None?
    ensures Recovers(w, Dropped(w), saved, false, {})
  {
    DroppedRecovers(start, w, saved);
    StillBacked(engine, store, database, start, w, Dropped(w));
  }

  /** The first half of shutdown; `None` is a failed drain. A failed save drops the entries, a close
      error alone does not. */
  method Settle(
    engine: XrayEngine.XrayEngine, store: Outbox.Store, database: Database, ghost start: Db, ghost w: World,
    save: Saving, env: Clients)
    returns (saved: Option<Persisted>, ghost w': World)
    requires Resting(engine, store, database, start, w) && engine.running && Fresh(w, save)
    modifies store, engine`running, engine`counters, engine`retired, engine.sessions
    ensures Resting(engine, store, database, start, w') && !engine.running && Settles(w, w', save, saved)
    ensures Collectable(w, save, store.node) ==> saved == Some(Stored)
  {
    var node := engine.snapshot.node;
    var entries;
    ghost var w1, w2;
    entries, w1 := CloseAndDrain(engine, store, database, start, w, env(0));
    if entries.None? {
      UnsettledOutcome(w, w1, save);
      return None, w1;
    }
    var r;
    if Collectable(w, save, store.node) { CollectableIsSaveable(start, w, w1, entries.value, save, store.node); }
    r, w2 := Persist(engine, store, database, start, w1, entries.value, node, save);
    GivenUp(engine, store, database, start, w2, r);
    SettleOutcome(w, w1, w2, Dropped(w2), entries.value, save, r);
    return Some(r), Dropped(w2);
  }

  /** A closed engine has nothing to settle. */
  method SettleOnce(
    engine: XrayEngine.XrayEngine, store: Outbox.Store, database: Database, ghost start: Db, ghost w: World,
    save: Saving, env: Clients)
    returns (saved: Option<Persisted>, ghost w': World)
    requires Resting(engine, store, database, start, w) && Fresh(w, save)
    modifies store, engine`running, engine`counters, engine`retired, engine.sessions
    ensures Resting(engine, store, database, start, w') && !engine.running && Settles(w, w', save, saved)
    ensures Collectable(w, save, store.node) ==> saved == Some(Stored)
  {
    LosesNothing(w);
    if !engine.running { return Some(Stored), w; }
    saved, w' := Settle(engine, store, database, start, w, save, env);
  }

  /** shutdown. Only a failed save loses anything. When no error is reported, all traffic ever produced
      is applied in the database or was lost before. `settled` is the state the replay starts from. */
  method Shutdown(
    engine: XrayEngine.XrayEngine, store: Outbox.Store, database: Database, ghost start: Db, ghost w: World,
    save: Saving, closeFails: bool, replay: Replaying, env: Clients)
    returns (ok: bool, saved: Option<Persisted>, ghost settled: World, ghost w': World)
    requires Resting(engine, store, database, start, w) && Fresh(w, save)
    modifies store, database, engine`running, engine`counters, engine`retired, engine.sessions
    ensures Resting(engine, store, database, start, w') && !engine.running && ShutsDown(w, w', save, ok, saved)
    ensures Unimpeded(w, settled, w', save, closeFails, replay, store.node, ok, saved)
  {
    saved, settled := SettleOnce(engine, store, database, start, w, save, env);
    var applied;
    applied, w' := Replay(engine, store, database, start, settled, replay);
    if Bounded(w') { BoundedEarlier(settled, w'); }
    ok := saved == Some(Stored) && applied && !closeFails;
    ShutdownOutcome(start, w, settled, w', save, ok, saved);
  }
}
