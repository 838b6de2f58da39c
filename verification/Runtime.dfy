/** The state of the service (internal/lifecycle/run.go): one object that holds store, database and the
    engine in place, which its operations replace. Failures, times and identifiers come from outside, and so
    does what clients do in each gap between two calls. */
module Runtime {
  import opened Wrappers
  import opened Model
  import opened Database
  import opened Pipeline
  import opened PipelineLoss
  import opened Serving
  import opened Operations
  import opened Courses
  import Outbox
  import SessionTable
  import XrayEngine
  import Depot
  import Service
  import Restarting
  import Lifecycle

  /** `world` is the state of the protocol that the objects are in. */
  class Runtime {
    ghost const start: Db
    const limits: SessionTable.Limits
    const store: Outbox.Store
    const database: Database
    var engine: XrayEngine.XrayEngine
    ghost var world: World

    /** Between two operations. */
    ghost predicate Valid()
      reads this, engine, engine.sessions, store, database
    {
      Service.Resting(engine, store, database, start, world)
    }

    /** An engine serves its users. */
    ghost predicate Alive()
      reads this, engine, engine.sessions, store, database
    {
      Valid() && engine.running && engine.InStep()
    }

    /** No engine serves, and nothing is left to drain. */
    ghost predicate Idle()
      reads this, engine, engine.sessions, store, database
    {
      Valid() && !engine.running && Emptied(world.engine)
    }

    /** A new process over what an earlier one left behind: no engine, no hand. */
    constructor (ghost start: Db, limits: SessionTable.Limits, store: Outbox.Store, database: Database, node: Node,
                 ghost left: World)
      requires Healthy(start, left) && left.hand.None? && left.engine == NoEngine(node)
      requires Depot.Backed(store, database, left)
      ensures Idle() && world == left && this.start == start && this.store == store && this.database == database
      ensures fresh(engine) && fresh(engine.sessions)
    {
      var none := Restarting.Absent(limits, store, database, start, left, node);
      this.start := start;
      this.limits := limits;
      this.store := store;
      this.database := database;
      engine := none;
      world := left;
      new;
      Adopt(none, left);
    }

    /** The state an operation leaves behind. */
    method Adopt(e: XrayEngine.XrayEngine, ghost w: World)
      requires Service.Resting(e, store, database, start, w)
      modifies this`engine, this`world
      ensures Valid() && engine == e && world == w
      ensures e.running == old(e.running) && e.InStep() == old(e.InStep())
      ensures e.snapshot == old(e.snapshot)
    {
      engine, world := e, w;
    }

    /** The same, when the engine object stays. */
    ghost method Advance(w: World)
      requires Service.Resting(engine, store, database, start, w)
      modifies this`world
      ensures Valid() && world == w && engine.InStep() == old(engine.InStep())
    {
      world := w;
    }

    /** report. `collected` is the state its replay starts from. */
    method Report(save: Saving, replay: Replaying, env: Clients)
      returns (r: Collected, applied: bool, ghost collected: World)
      requires Alive() && Fresh(world, save)
      modifies this`world, store, database, engine`counters, engine`retired, engine.sessions
      ensures Alive() && Reports(old(world), collected, world, save, replay, r, applied)
      ensures Collects(old(world), collected, save, r)
      ensures Collectable(old(world), save, store.node) ==> r.AllCollected?
    {
      ghost var w;
      r, applied, collected, w := Service.Report(engine, store, database, start, world, save, replay, env);
      Advance(w);
    }

    /** reload, incremental or by a full restart. */
    method Reload(event: Event) returns (turn: Turn, ghost how: ReloadReport)
      requires Alive() && event.Reloading? && Fresh(world, event.save) && SnapshotValid(event.next)
      modifies this`world, this`engine, store, engine, engine.sessions
      ensures Valid() && Reloads(old(world), world, event, store.node, how) && turn == TurnOf(how)
      ensures turn.GoOn? ==> Alive() && engine.snapshot == event.next
      ensures turn.Dead? ==> Idle()
      ensures engine.inbound == InboundOf(engine.snapshot.node)
      ensures engine == old(engine) || (fresh(engine) && fresh(engine.sessions))
    {
      var e;
      ghost var w;
      turn, e, how, w := Restarting.Reload(limits, engine, store, database, start, world, event);
      Adopt(e, w);
    }

    /** shutdown. `settled` is the state its replay starts from. */
    method Shutdown(save: Saving, closeFails: bool, replay: Replaying, env: Clients)
      returns (ok: bool, saved: Option<Persisted>, ghost settled: World)
      requires Valid() && Fresh(world, save)
      modifies this`world, store, database, engine`running, engine`counters, engine`retired, engine.sessions
      ensures Valid() && !engine.running && ShutsDown(old(world), world, save, ok, saved)
      ensures Unimpeded(old(world), settled, world, save, closeFails, replay, store.node, ok, saved)
    {
      ghost var w;
      ok, saved, settled, w := Service.Shutdown(engine, store, database, start, world, save, closeFails, replay, env);
      Advance(w);
    }

    /** bootstrap. */
    method Bootstrap(first: Snapshot, replay: Replaying, starts: bool) returns (ok: bool)
      requires Idle() && SnapshotValid(first)
      modifies this`world, this`engine, store, database, engine`counters, engine.sessions
      ensures Lossless(old(world), world) && SameOutbox(old(world), world)
      ensures starts ==> Replays(old(world), replay, ok)
      ensures if ok then Alive() && AllApplied(world) && engine.snapshot == first else Idle()
      ensures engine == old(engine) || (fresh(engine) && fresh(engine.sessions))
    {
      var e;
      ghost var w;
      ok, e, w := Restarting.Bootstrap(limits, engine, store, database, start, world, first, replay, starts);
      Adopt(e, w);
    }

    /** Run after bootstrap: the loop, and shutdown unless a panic ended the process. */
    method Live(events: seq<Event>, wait: seq<ClientStep>, save: Saving, closeFails: bool, replay: Replaying, env: Clients)
      returns (ok: bool, ghost report: LifeReport)
      requires Alive() && EventsValid(events) && Scheduled(world, SavesOf(events) + ([save] + []))
      modifies this`world, this`engine, store, database, engine, engine.sessions
      ensures Valid() && !engine.running && LivesThrough(old(world), world, report) && Clean(report) == ok
      ensures Through(events, store.node, report) && EndsWell(save, closeFails, replay, store.node, report)
      ensures engine == old(engine) || (fresh(engine) && fresh(engine.sessions))
    {
      var e;
      ghost var w;
      ok, e, report, w := Lifecycle.Live(limits, engine, store, database, start, world, events, wait, save, closeFails,
                                         replay, env, []);
      Adopt(e, w);
    }

    /** Run, process after process. */
    method Lives(lives: seq<Life>) returns (ghost reports: seq<LifeReport>)
      requires Idle() && Scheduled(world, AllSaves(lives)) && LivesValid(lives)
      modifies this`world, this`engine, store, database, engine`counters, engine.sessions
      ensures Idle() && |reports| == |lives| && LivedAll(lives, store.node, old(world), world, reports)
      ensures Accounted(old(world), world, reports)
      ensures engine == old(engine) || (fresh(engine) && fresh(engine.sessions))
    {
      var e;
      ghost var w;
      e, reports, w := Lifecycle.Lives(limits, engine, store, database, start, world, lives);
      Adopt(e, w);
    }
  }
}
