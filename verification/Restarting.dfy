/** The operations of the service loop that may replace the engine object: reload and bootstrap
    (internal/lifecycle/run.go), as runs of the accounting protocol. Each returns the engine that is in
    place afterwards. */
module Restarting {
  import opened Wrappers
  import opened Model
  import opened Accounting
  import opened Database
  import opened EngineState
  import opened Pipeline
  import opened PipelineLoss
  import opened Serving
  import opened Operations
  import opened Courses
  import opened Service
  import Outbox
  import SessionTable
  import UserSync
  import XrayEngine
  import Depot
  import EngineSteps

  /** An engine is in place and serves the users of its snapshot. */
  ghost predicate Alive(
    engine: XrayEngine.XrayEngine, store: Outbox.Store, database: Database, start: Db, w: World)
    reads engine, engine.sessions, store, database
  {
    Resting(engine, store, database, start, w) && engine.running && engine.InStep()
  }

  /** No engine serves, and nothing is left to drain. */
  ghost predicate Idle(
    engine: XrayEngine.XrayEngine, store: Outbox.Store, database: Database, start: Db, w: World)
    reads engine, engine.sessions, store, database
  {
    Resting(engine, store, database, start, w) && !engine.running && Emptied(w.engine)
  }

  /** Start of a new engine in place of one that is closed and drained. */
  method Launch(
    limits: SessionTable.Limits, store: Outbox.Store, database: Database, ghost start: Db, ghost w: World, s: Snapshot)
    returns (e: XrayEngine.XrayEngine, ghost w': World)
    requires Healthy(start, w) && Depot.Backed(store, database, w)
    requires !w.engine.running && Emptied(w.engine) && SnapshotValid(s)
    ensures fresh(e) && fresh(e.sessions) && e.running && e.snapshot == s && e.InStep()
    ensures Connected(e, store, database, start, w') && Replaces(w, w')
  {
    LaunchStep(start, w, s);
    e := new XrayEngine.XrayEngine(limits, s);
    w' := Launched(w, s);
    StillBacked(e, store, database, start, w, w');
  }

  /** A process before its first start. */
  method Absent(
    limits: SessionTable.Limits, store: Outbox.Store, database: Database, ghost start: Db, ghost w: World, node: Node)
    returns (e: XrayEngine.XrayEngine)
    requires Healthy(start, w) && Depot.Backed(store, database, w) && w.hand.None? && w.engine == NoEngine(node)
    ensures fresh(e) && fresh(e.sessions) && Idle(e, store, database, start, w)
  {
    e := new XrayEngine.XrayEngine.Absent(limits, node);
    StillBacked(e, store, database, start, w, w);
  }

  /** The process dies: what the counters hold is lost, files and database stay. */
  method Die(
    limits: SessionTable.Limits, store: Outbox.Store, database: Database, ghost start: Db, ghost w: World, node: Node)
    returns (e: XrayEngine.XrayEngine, ghost w': World)
    requires Healthy(start, w) && Depot.Backed(store, database, w) && w.hand.None? && node == w.engine.node
    ensures fresh(e) && fresh(e.sessions) && Idle(e, store, database, start, w')
    ensures w' == AfterCrash(w, false) && Loses(w, w', CountersOf(w.engine)) && SameFiles(w, w')
  {
    DeathStep(start, w);
    w' := AfterCrash(w, false);
    e := Absent(limits, store, database, start, w', node);
  }

  // ---------------------------------------------------------------- incremental reload

  method TryCommit(
    engine: XrayEngine.XrayEngine, store: Outbox.Store, database: Database, ghost start: Db, ghost w: World,
    next: Snapshot)
    returns (panicked: bool, ghost w': World)
    requires Resting(engine, store, database, start, w) && engine.running && SnapshotValid(next)
    requires engine.users == UserSync.TableOf(next) && OnlyLimitsChange(engine.snapshot.node, next.node)
    modifies engine`retired, engine`snapshot, engine.sessions
    ensures panicked <==> SessionTable.UpdatePanics(old(engine.sessions.table), next)
    ensures panicked ==> w' == w && Depot.Backed(store, database, w)
    ensures !panicked ==> Alive(engine, store, database, start, w') && engine.snapshot == next
    ensures !panicked ==> Lossless(w, w') && SameOutbox(w, w')
  {
    panicked, w' := EngineSteps.TryCommit(engine, start, w, next);
    if !panicked { StillBacked(engine, store, database, start, w, w'); }
  }

  /** The second half of Apply, with the death of the process when it panics. */
  method CommitOrDie(
    limits: SessionTable.Limits, engine: XrayEngine.XrayEngine, store: Outbox.Store, database: Database, ghost start: Db,
    ghost w: World, next: Snapshot)
    returns (r: Reloaded, e: XrayEngine.XrayEngine, ghost w': World)
    requires Resting(engine, store, database, start, w) && engine.running && SnapshotValid(next)
    requires engine.users == UserSync.TableOf(next) && OnlyLimitsChange(engine.snapshot.node, next.node)
    modifies engine`retired, engine`snapshot, engine.sessions
    ensures Commits(w, w', old(engine.sessions.table), next, r)
    ensures r.Panicked? ==> Idle(e, store, database, start, w') && fresh(e) && fresh(e.sessions)
    ensures r.Reloaded? ==> Alive(e, store, database, start, w') && e == engine && e.snapshot == next
  {
    var node := engine.snapshot.node;
    var panicked;
    panicked, w' := TryCommit(engine, store, database, start, w, next);
    if !panicked { return Reloaded, engine, w'; }
    r := Panicked;
    e, w' := Die(limits, store, database, start, w, node);
  }

  /** Apply up to its second half, with what clients do before that. */
  method Prepare(
    engine: XrayEngine.XrayEngine, store: Outbox.Store, database: Database, ghost start: Db, ghost w: World,
    next: Snapshot, fault: nat -> bool, gap: seq<ClientStep>)
    returns (ready: bool, ghost w': World)
    requires Alive(engine, store, database, start, w) && OnlyLimitsChange(engine.snapshot.node, next.node)
    modifies engine`users, engine`counters, engine.sessions
    ensures Resting(engine, store, database, start, w') && Calm(w, w')
    ensures ready ==> engine.users == UserSync.TableOf(next)
    ensures !ready ==> exists n :: fault(n)
    ensures engine.snapshot == old(engine.snapshot) && engine.running
  {
    ready, w' := EngineSteps.PrepareAndServe(engine, start, w, next, fault, gap);
    StillBacked(engine, store, database, start, w, w');
  }

  /** Apply, with what clients do before its second half; `last` and `registry` are the states that half
      meets. */
  method ApplyOrDie(
    limits: SessionTable.Limits, engine: XrayEngine.XrayEngine, store: Outbox.Store, database: Database, ghost start: Db,
    ghost w: World, next: Snapshot, fault: nat -> bool, gap: seq<ClientStep>)
    returns (r: Reloaded, e: XrayEngine.XrayEngine, ghost last: World, ghost registry: SessionTable.Table, ghost w': World)
    requires Alive(engine, store, database, start, w) && SnapshotValid(next)
    requires OnlyLimitsChange(engine.snapshot.node, next.node)
    modifies engine, engine.sessions
    ensures Calm(w, last) && ReloadOutcome(last, w', registry, next, r, fault) && !r.NotCollected?
    ensures r.Panicked? ==> Idle(e, store, database, start, w') && fresh(e) && fresh(e.sessions)
    ensures !r.Panicked? ==> Resting(e, store, database, start, w') && e == engine && e.running
    ensures !r.Panicked? ==> e.snapshot == if r.Reloaded? then next else old(engine.snapshot)
    ensures r.Reloaded? ==> e.InStep()
  {
    var ready;
    ready, last := Prepare(engine, store, database, start, w, next, fault, gap);
    registry := engine.sessions.table;
    if !ready {
      RefusalEnds(last, registry, next, fault);
      return Refused, engine, last, registry, last;
    }
    r, e, w' := CommitOrDie(limits, engine, store, database, start, last, next);
    CommitEnds(last, w', registry, next, r, fault);
  }

  method CollectAndWait(
    engine: XrayEngine.XrayEngine, store: Outbox.Store, database: Database, ghost start: Db, ghost w: World,
    save: Saving, env: Clients)
    returns (r: Collected, ghost w': World)
    requires Alive(engine, store, database, start, w) && Fresh(w, save)
    modifies store, engine`counters, engine`retired, engine.sessions
    ensures Alive(engine, store, database, start, w') && CollectsAndServes(w, w', save, r)
    ensures Collectable(w, save, store.node) ==> r.AllCollected?
    ensures engine.snapshot == old(engine.snapshot)
  {
    ghost var w1;
    r, w1 := Collect(engine, store, database, start, w, save, env);
    w' := Wait(engine, store, database, start, w1, env(2));
    CollectThenServe(w, w1, w', save, r);
  }

  /** reload when the node's data-plane settings stay the same. `last` and `registry` are the states in
      which the session update begins. The process dies exactly when that update panics; otherwise
      nothing is lost, whatever fails. */
  method ReloadUsers(
    limits: SessionTable.Limits, engine: XrayEngine.XrayEngine, store: Outbox.Store, database: Database, ghost start: Db,
    ghost w: World, next: Snapshot, save: Saving, fault: nat -> bool, env: Clients)
    returns (r: Reloaded, e: XrayEngine.XrayEngine, ghost last: World, ghost registry: SessionTable.Table, ghost w': World)
    requires Alive(engine, store, database, start, w) && Fresh(w, save) && SnapshotValid(next)
    requires OnlyLimitsChange(engine.snapshot.node, next.node)
    modifies store, engine, engine.sessions
    ensures Lossless(w, last) && ReloadOutcome(last, w', registry, next, r, fault) && Draws(w, w', save)
    ensures r.Panicked? ==> Idle(e, store, database, start, w') && fresh(e) && fresh(e.sessions)
    ensures !r.Panicked? ==> Resting(e, store, database, start, w') && e == engine && e.running
    ensures !r.Panicked? ==> e.snapshot == if r.Reloaded? then next else old(engine.snapshot)
    ensures r.Reloaded? ==> e.InStep() && FiledAll(w, last)
    ensures Collectable(w, save, store.node) ==> !r.NotCollected?
  {
    var collected;
    ghost var w1;
    collected, w1 := CollectAndWait(engine, store, database, start, w, save, env);
    if !collected.AllCollected? {
      ReachesSelf(w1);
      return NotCollected(collected), engine, w1, engine.sessions.table, w1;
    }
    r, e, last, registry, w' := ApplyOrDie(limits, engine, store, database, start, w1, next, fault, env(3));
    CollectedThen(w, w1, last, w', save);
  }

  // ---------------------------------------------------------------- full restart

  method GiveBack(
    engine: XrayEngine.XrayEngine, store: Outbox.Store, database: Database, ghost start: Db, ghost w: World,
    gap: seq<ClientStep>, entries: seq<Entry>, saved: Persisted)
    returns (ghost existing: set<CounterKey>, ghost w': World)
    requires Connected(engine, store, database, start, w)
    requires w.hand == if saved.Unpublished? then Some(Hand(w.engine.node, entries)) else None
    modifies engine`counters, engine.sessions
    ensures Connected(engine, store, database, start, w') && w'.hand.None? && Recovers(w, w', saved, true, existing)
    ensures engine.snapshot == old(engine.snapshot) && engine.running == old(engine.running)
  {
    w', existing := EngineSteps.GiveBack(engine, start, w, gap, entries, saved);
    StillBacked(engine, store, database, start, w, w');
  }

  method StartAgain(
    limits: SessionTable.Limits, store: Outbox.Store, database: Database, ghost start: Db, ghost w: World,
    s: Snapshot, entries: seq<Entry>, saved: Persisted, gap: seq<ClientStep>)
    returns (e: XrayEngine.XrayEngine, ghost existing: set<CounterKey>, ghost w': World)
    requires Healthy(start, w) && Depot.Backed(store, database, w)
    requires !w.engine.running && Emptied(w.engine) && SnapshotValid(s)
    requires w.hand == if saved.Unpublished? then Some(Hand(s.node, entries)) else None
    ensures fresh(e) && fresh(e.sessions) && e.running && e.snapshot == s
    ensures Resting(e, store, database, start, w') && Recovers(w, w', saved, true, existing)
  {
    ghost var w1;
    e, w1 := Launch(limits, store, database, start, w, s);
    existing, w' := GiveBack(e, store, database, start, w1, gap, entries, saved);
    RecoversAfter(w, w1, w', saved, true, existing);
  }

  /** The rollback of a full restart whose save failed: the previous engine is started again, when that
      works, and gets back what was not published. */
  method Recover(
    limits: SessionTable.Limits, engine: XrayEngine.XrayEngine, store: Outbox.Store, database: Database, ghost start: Db,
    ghost w: World, entries: seq<Entry>, saved: Persisted, back: bool, gap: seq<ClientStep>)
    returns (e: XrayEngine.XrayEngine, ghost existing: set<CounterKey>, ghost w': World)
    requires Connected(engine, store, database, start, w) && !engine.running && Emptied(w.engine)
    requires w.hand == if saved.Unpublished? then Some(Hand(engine.snapshot.node, entries)) else None
    ensures Resting(e, store, database, start, w') && e.snapshot == old(engine.snapshot) && (e.running <==> back)
    ensures if back then fresh(e) && fresh(e.sessions) else e == engine
    ensures Recovers(w, w', saved, back, existing)
  {
    if back {
      e, existing, w' := StartAgain(limits, store, database, start, w, engine.snapshot, entries, saved, gap);
    } else {
      GivenUp(engine, store, database, start, w, saved);
      return engine, {}, Dropped(w);
    }
  }

  /** The end of a full restart: the new engine, or the previous one again. */
  method StartNext(
    limits: SessionTable.Limits, engine: XrayEngine.XrayEngine, store: Outbox.Store, database: Database, ghost start: Db,
    ghost w: World, next: Snapshot, starts: bool, back: bool)
    returns (r: Restarted, e: XrayEngine.XrayEngine, ghost w': World)
    requires Idle(engine, store, database, start, w) && SnapshotValid(next)
    ensures Resting(e, store, database, start, w') && Lossless(w, w') && SameOutbox(w, w')
    ensures r == if starts then Restarted else Rejected(back)
    ensures e.snapshot == if starts then next else old(engine.snapshot)
    ensures e.running <==> starts || back
    ensures if e.running then fresh(e) && fresh(e.sessions) else e == engine
    ensures starts ==> e.InStep()
  {
    r := if starts then Restarted else Rejected(back);
    if starts || back {
      e, w' := Launch(limits, store, database, start, w, if starts then next else engine.snapshot);
    } else {
      ReachesSelf(w);
      e, w' := engine, w;
    }
  }

  /** A full restart after the save. */
  method Proceed(
    limits: SessionTable.Limits, engine: XrayEngine.XrayEngine, store: Outbox.Store, database: Database, ghost start: Db,
    ghost w: World, entries: seq<Entry>, saved: Persisted, next: Snapshot, starts: bool, back: bool, gap: seq<ClientStep>)
    returns (r: Restarted, e: XrayEngine.XrayEngine, ghost existing: set<CounterKey>, ghost w': World)
    requires Connected(engine, store, database, start, w) && !engine.running && Emptied(w.engine) && SnapshotValid(next)
    requires w.hand == if saved.Unpublished? then Some(Hand(engine.snapshot.node, entries)) else None
    ensures Resting(e, store, database, start, w') && e.snapshot == if r.Restarted? then next else old(engine.snapshot)
    ensures if e.running then fresh(e) && fresh(e.sessions) else e == engine
    ensures r.Restarted? ==> e.running && e.InStep()
    ensures Proceeds(w, w', saved, r, existing) && !r.CloseFailed?
    ensures !r.SaveFailed? ==> r == if starts then Restarted else Rejected(back)
  {
    if saved.Stored? {
      existing := {};
      r, e, w' := StartNext(limits, engine, store, database, start, w, next, starts, back);
    } else {
      r := SaveFailed(saved, back);
      e, existing, w' := Recover(limits, engine, store, database, start, w, entries, saved, back, gap);
    }
  }

  method SaveAndStart(
    limits: SessionTable.Limits, engine: XrayEngine.XrayEngine, store: Outbox.Store, database: Database, ghost start: Db,
    ghost w: World, entries: seq<Entry>, next: Snapshot, save: Saving, starts: bool, back: bool, gap: seq<ClientStep>)
    returns (r: Restarted, e: XrayEngine.XrayEngine, ghost existing: set<CounterKey>, ghost w': World)
    requires Connected(engine, store, database, start, w) && !engine.running && Emptied(w.engine)
    requires Fresh(w, save) && SnapshotValid(next) && w.hand == Some(Hand(engine.snapshot.node, entries))
    modifies store
    ensures Resting(e, store, database, start, w') && e.snapshot == if r.Restarted? then next else old(engine.snapshot)
    ensures if e.running then fresh(e) && fresh(e.sessions) else e == engine
    ensures r.Restarted? ==> e.running && e.InStep()
    ensures Loses(w, w', RestartLoss(r, existing, HandOf(w))) && Draws(w, w', save) && !r.CloseFailed?
    ensures Saveable(w, save, store.node) ==> !r.SaveFailed?
    ensures !r.SaveFailed? ==> r == if starts then Restarted else Rejected(back)
  {
    var saved;
    ghost var w1;
    saved, w1 := Persist(engine, store, database, start, w, entries, engine.snapshot.node, save);
    r, e, existing, w' :=
      Proceed(limits, engine, store, database, start, w1, entries, saved, next, starts, back, gap);
    SavedThen(w, w1, w', save, saved, r, existing);
  }

  /** A full restart once the old engine is drained: after a close error the entries go nowhere. */
  method HandOn(
    limits: SessionTable.Limits, engine: XrayEngine.XrayEngine, store: Outbox.Store, database: Database, ghost start: Db,
    ghost w: World, entries: seq<Entry>, next: Snapshot, save: Saving, plan: Plan, gap: seq<ClientStep>)
    returns (r: Restarted, e: XrayEngine.XrayEngine, ghost existing: set<CounterKey>, ghost w': World)
    requires Connected(engine, store, database, start, w) && !engine.running && Emptied(w.engine)
    requires Fresh(w, save) && SnapshotValid(next) && w.hand == Some(Hand(engine.snapshot.node, entries))
    modifies store
    ensures Resting(e, store, database, start, w') && e.snapshot == if r.Restarted? then next else old(engine.snapshot)
    ensures if e.running then fresh(e) && fresh(e.sessions) else e == engine
    ensures r.Restarted? ==> e.running && e.InStep()
    ensures HandsOn(w, w', save, plan, store.node, r, existing)
  {
    if plan.closeFails {
      DropConnected(engine, store, database, start, w);
      return CloseFailed, engine, {}, Dropped(w);
    }
    r, e, existing, w' := SaveAndStart(limits, engine, store, database, start, w, entries, next, save, plan.starts,
                                       plan.back, gap);
  }

  /** reload when the data-plane settings change: close, drain, persist, start again. Its loss is
      exact: everything counted, when closing fails after the drain or when the save fails and no
      engine comes back; what has no counter on the engine that comes back; otherwise nothing. */
  method Restart(
    limits: SessionTable.Limits, engine: XrayEngine.XrayEngine, store: Outbox.Store, database: Database, ghost start: Db,
    ghost w: World, next: Snapshot, save: Saving, plan: Plan, env: Clients)
    returns (r: Restarted, e: XrayEngine.XrayEngine, ghost existing: set<CounterKey>, ghost w': World)
    requires Resting(engine, store, database, start, w) && engine.running && Fresh(w, save) && SnapshotValid(next)
    modifies store, engine`running, engine`counters, engine`retired, engine.sessions
    ensures Resting(e, store, database, start, w') && e.snapshot == if r.Restarted? then next else old(engine.snapshot)
    ensures if e.running then fresh(e) && fresh(e.sessions) else e == engine
    ensures r.Restarted? ==> e.running && e.InStep()
    ensures Restarts(w, w', save, plan, store.node, r, existing)
  {
    var entries;
    ghost var w1;
    entries, w1 := CloseAndDrain(engine, store, database, start, w, env(0));
    if entries.None? {
      UnsettledRestart(w, w1, save, plan, store.node);
      return CloseFailed, engine, {}, w1;
    }
    r, e, existing, w' := HandOn(limits, engine, store, database, start, w1, entries.value, next, save, plan, env(1));
    DrainedRestart(start, w, w1, w', entries.value, save, plan, store.node, r, existing);
  }

  /** What an engine in place shows of its snapshot. */
  lemma AliveDescribes(
    engine: XrayEngine.XrayEngine, store: Outbox.Store, database: Database, start: Db, w: World)
    requires Resting(engine, store, database, start, w)
    ensures w.engine.node == engine.snapshot.node && engine.inbound == InboundOf(engine.snapshot.node)
    ensures engine.running ==> Describes(w.engine, engine.snapshot)
  {
  }

  method ReloadHere(
    limits: SessionTable.Limits, engine: XrayEngine.XrayEngine, store: Outbox.Store, database: Database, ghost start: Db,
    ghost w: World, event: Event)
    returns (turn: Turn, e: XrayEngine.XrayEngine, ghost how: ReloadReport, ghost w': World)
    requires Alive(engine, store, database, start, w) && event.Reloading?
    requires Fresh(w, event.save) && SnapshotValid(event.next)
    requires OnlyLimitsChange(engine.snapshot.node, event.next.node)
    modifies store, engine, engine.sessions
    ensures Resting(e, store, database, start, w') && Reloads(w, w', event, store.node, how) && turn == TurnOf(how)
    ensures turn.GoOn? ==> Alive(e, store, database, start, w') && e.snapshot == event.next
    ensures turn.Dead? ==> Idle(e, store, database, start, w')
    ensures e == engine || (fresh(e) && fresh(e.sessions))
  {
    AliveDescribes(engine, store, database, start, w);
    var r;
    ghost var last, registry;
    r, e, last, registry, w' :=
      ReloadUsers(limits, engine, store, database, start, w, event.next, event.save, event.fault, event.env);
    AliveDescribes(e, store, database, start, w');
    turn := if r.Reloaded? then GoOn else if r.Panicked? then Dead else Failed;
    how := Incremental(r, last, registry);
    IncrementalReloads(w, last, w', registry, event, store.node, r);
  }

  method ReloadByRestart(
    limits: SessionTable.Limits, engine: XrayEngine.XrayEngine, store: Outbox.Store, database: Database, ghost start: Db,
    ghost w: World, event: Event)
    returns (turn: Turn, e: XrayEngine.XrayEngine, ghost how: ReloadReport, ghost w': World)
    requires Alive(engine, store, database, start, w) && event.Reloading?
    requires Fresh(w, event.save) && SnapshotValid(event.next)
    requires !OnlyLimitsChange(engine.snapshot.node, event.next.node)
    modifies store, engine, engine.sessions
    ensures Resting(e, store, database, start, w') && Reloads(w, w', event, store.node, how) && turn == TurnOf(how)
    ensures turn.GoOn? ==> Alive(e, store, database, start, w') && e.snapshot == event.next
    ensures turn.Dead? ==> Idle(e, store, database, start, w')
    ensures e == engine || (fresh(e) && fresh(e.sessions))
  {
    AliveDescribes(engine, store, database, start, w);
    var r;
    ghost var existing;
    r, e, existing, w' :=
      Restart(limits, engine, store, database, start, w, event.next, event.save,
              Plan(event.closeFails, event.starts, event.back), event.env);
    AliveDescribes(e, store, database, start, w');
    turn := if r.Restarted? then GoOn else Failed;
    how := Full(r, existing);
    RestartReloads(w, w', event, store.node, r, existing);
  }

  /** reload: incremental when the data-plane settings allow it, a full restart otherwise. Whatever happens,
      Xray runs, or last ran, with the settings of the snapshot in force. */
  method Reload(
    limits: SessionTable.Limits, engine: XrayEngine.XrayEngine, store: Outbox.Store, database: Database, ghost start: Db,
    ghost w: World, event: Event)
    returns (turn: Turn, e: XrayEngine.XrayEngine, ghost how: ReloadReport, ghost w': World)
    requires Alive(engine, store, database, start, w) && event.Reloading?
    requires Fresh(w, event.save) && SnapshotValid(event.next)
    modifies store, engine, engine.sessions
    ensures Resting(e, store, database, start, w') && Reloads(w, w', event, store.node, how) && turn == TurnOf(how)
    ensures turn.GoOn? ==> Alive(e, store, database, start, w') && e.snapshot == event.next
    ensures turn.Dead? ==> Idle(e, store, database, start, w')
    ensures e.inbound == InboundOf(e.snapshot.node)
    ensures e == engine || (fresh(e) && fresh(e.sessions))
  {
    RestartNeededIff(engine.snapshot.node, event.next.node);
    if DataPlaneNodeEqual(engine.snapshot.node, event.next.node) {
      turn, e, how, w' := ReloadHere(limits, engine, store, database, start, w, event);
    } else {
      turn, e, how, w' := ReloadByRestart(limits, engine, store, database, start, w, event);
    }
    AliveDescribes(e, store, database, start, w');
  }

  // ---------------------------------------------------------------- bootstrap

  /** bootstrap of a new process: the outbox is replayed before any client is served. */
  method Bootstrap(
    limits: SessionTable.Limits, engine: XrayEngine.XrayEngine, store: Outbox.Store, database: Database, ghost start: Db,
    ghost w: World, first: Snapshot, replay: Replaying, starts: bool)
    returns (ok: bool, e: XrayEngine.XrayEngine, ghost w': World)
    requires Idle(engine, store, database, start, w) && SnapshotValid(first)
    modifies store, database, engine`counters, engine.sessions
    ensures Lossless(w, w') && SameOutbox(w, w')
    ensures starts ==> Replays(w, replay, ok)
    ensures !ok ==> Idle(e, store, database, start, w') && e == engine
    ensures ok ==> Alive(e, store, database, start, w') && AllApplied(w') && e.snapshot == first
    ensures ok ==> fresh(e) && fresh(e.sessions)
  {
    ghost var w1;
    ok, w1 := Replay(engine, store, database, start, w, replay);
    SameFiled(w, w1);
    if !ok || !starts { return false, engine, w1; }
    e, w' := Launch(limits, store, database, start, w1, first);
    LosslessThrough(w, w1, w');
  }
}
