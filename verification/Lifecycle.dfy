/** The service loop and whole processes (internal/lifecycle/run.go), as runs of the accounting protocol:
    the turns of the loop with the clients' doings in between, the end of a process by shutdown, panic or
    force, and processes one after the other. */
module Lifecycle {
  import opened Wrappers
  import opened Database
  import opened Pipeline
  import opened Serving
  import opened Operations
  import opened Courses
  import opened Service
  import opened Restarting
  import Outbox
  import SessionTable
  import XrayEngine

  // ---------------------------------------------------------------- one turn

  method HandleReport(
    engine: XrayEngine.XrayEngine, store: Outbox.Store, database: Database, ghost start: Db, ghost w: World, event: Event)
    returns (turn: Turn, ghost p: Passed)
    requires Alive(engine, store, database, start, w) && Fresh(w, event.save) && event.Reporting?
    modifies store, database, engine`counters, engine`retired, engine.sessions
    ensures Alive(engine, store, database, start, p.to) && p.at == w && turn == EndOf(p.done) && !turn.Dead?
    ensures HandledAt(event, store.node, p)
  {
    var r, applied;
    ghost var collected, w';
    r, applied, collected, w' := Report(engine, store, database, start, w, event.save, event.replay, event.env);
    return if r.AllCollected? then GoOn else Failed, Passed(w, w', ReportDone(collected, r, applied));
  }

  method HandleReload(
    limits: SessionTable.Limits, engine: XrayEngine.XrayEngine, store: Outbox.Store, database: Database, ghost start: Db,
    ghost w: World, event: Event)
    returns (turn: Turn, e: XrayEngine.XrayEngine, ghost p: Passed)
    requires Alive(engine, store, database, start, w) && Fresh(w, event.save)
    requires event.Reloading? && SnapshotValid(event.next)
    modifies store, engine, engine.sessions
    ensures Resting(e, store, database, start, p.to) && p.at == w && turn == EndOf(p.done)
    ensures HandledAt(event, store.node, p)
    ensures turn.GoOn? ==> Alive(e, store, database, start, p.to)
    ensures turn.Dead? ==> Idle(e, store, database, start, p.to)
    ensures e == engine || (fresh(e) && fresh(e.sessions))
  {
    ghost var how, w';
    turn, e, how, w' := Reload(limits, engine, store, database, start, w, event);
    p := Passed(w, w', ReloadDone(how));
  }

  method HandleNow(
    limits: SessionTable.Limits, engine: XrayEngine.XrayEngine, store: Outbox.Store, database: Database, ghost start: Db,
    ghost w: World, event: Event)
    returns (turn: Turn, e: XrayEngine.XrayEngine, ghost p: Passed)
    requires Alive(engine, store, database, start, w) && Fresh(w, event.save)
    requires event.Reloading? ==> SnapshotValid(event.next)
    modifies store, database, engine, engine.sessions
    ensures Resting(e, store, database, start, p.to) && p.at == w && turn == EndOf(p.done)
    ensures HandledAt(event, store.node, p)
    ensures turn.GoOn? ==> Alive(e, store, database, start, p.to)
    ensures turn.Dead? ==> Idle(e, store, database, start, p.to)
    ensures e == engine || (fresh(e) && fresh(e.sessions))
  {
    if event.Reloading? {
      turn, e, p := HandleReload(limits, engine, store, database, start, w, event);
    } else {
      e := engine;
      turn, p := HandleReport(engine, store, database, start, w, event);
    }
  }

  /** One turn of the loop: clients go on until a ticker fires. */
  method Handle(
    limits: SessionTable.Limits, engine: XrayEngine.XrayEngine, store: Outbox.Store, database: Database, ghost start: Db,
    ghost w: World, event: Event)
    returns (turn: Turn, e: XrayEngine.XrayEngine, ghost p: Passed)
    requires Alive(engine, store, database, start, w) && Fresh(w, event.save)
    requires event.Reloading? ==> SnapshotValid(event.next)
    modifies store, database, engine, engine.sessions
    ensures Resting(e, store, database, start, p.to) && Handled(w, event, store.node, p) && turn == EndOf(p.done)
    ensures turn.GoOn? ==> Alive(e, store, database, start, p.to)
    ensures turn.Dead? ==> Idle(e, store, database, start, p.to)
    ensures e == engine || (fresh(e) && fresh(e.sessions))
  {
    ghost var w1 := Wait(engine, store, database, start, w, event.wait);
    turn, e, p := HandleNow(limits, engine, store, database, start, w1, event);
  }

  /** One more turn of a course that began at `from`; `later` are the saves that follow the course. */
  method HandleNext(
    limits: SessionTable.Limits, engine: XrayEngine.XrayEngine, store: Outbox.Store, database: Database, ghost start: Db,
    ghost from: World, ghost w: World, events: seq<Event>, i: nat, ghost passed: seq<Passed>, ghost later: seq<Saving>)
    returns (turn: Turn, e: XrayEngine.XrayEngine, ghost next: seq<Passed>, ghost w': World)
    requires Alive(engine, store, database, start, w) && EventsValid(events) && i == |passed| < |events|
    requires ServesTo(from, w, events, store.node, passed) && LastTurn(passed).GoOn? && Due(w, events, i, later)
    modifies store, database, engine, engine.sessions
    ensures Resting(e, store, database, start, w') && ServesTo(from, w', events, store.node, next)
    ensures |next| == i + 1 && turn == LastTurn(next) && Due(w', events, i + 1, later)
    ensures turn.GoOn? ==> Alive(e, store, database, start, w')
    ensures turn.Dead? ==> Idle(e, store, database, start, w')
    ensures e == engine || (fresh(e) && fresh(e.sessions))
  {
    DueNow(w, events, i, later);
    ghost var p;
    turn, e, p := Handle(limits, engine, store, database, start, w, events[i]);
    w', next := p.to, passed + [p];
    HandledLoses(w, events[i], store.node, p);
    DueNext(start, w, w', events, i, later);
    OneMoreTurn(from, w, events, store.node, passed, p);
  }

  /** The loop up to the first error. */
  method ServeEach(
    limits: SessionTable.Limits, engine: XrayEngine.XrayEngine, store: Outbox.Store, database: Database, ghost start: Db,
    ghost w: World, events: seq<Event>, ghost later: seq<Saving>)
    returns (turn: Turn, e: XrayEngine.XrayEngine, ghost passed: seq<Passed>, ghost w': World)
    requires Alive(engine, store, database, start, w) && EventsValid(events) && Due(w, events, 0, later)
    modifies store, database, engine, engine.sessions
    ensures Resting(e, store, database, start, w') && ServesTo(w, w', events, store.node, passed)
    ensures turn == LastTurn(passed) && Exhausted(events, passed) && Due(w', events, |passed|, later)
    ensures turn.Dead? ==> Idle(e, store, database, start, w')
    ensures e == engine || (fresh(e) && fresh(e.sessions))
  {
    NothingServed(w, events, store.node);
    turn, e, passed, w' := GoOn, engine, [], w;
    var n := 0;
    while n < |events| && turn.GoOn?
      invariant n == |passed| <= |events| && turn == LastTurn(passed)
      invariant Resting(e, store, database, start, w') && ServesTo(w, w', events, store.node, passed)
      invariant Due(w', events, n, later)
      invariant turn.GoOn? ==> Alive(e, store, database, start, w')
      invariant turn.Dead? ==> Idle(e, store, database, start, w')
      invariant e == engine || (fresh(e) && fresh(e.sessions))
      decreases |events| - n
    {
      turn, e, passed, w' := HandleNext(limits, e, store, database, start, w, w', events, n, passed, later);
      n := n + 1;
    }
  }

  /** The loop, with the saves that follow it in `later`: every event is handled, in order and with any
      client activity before it, until one fails; only that one can lose anything, and the process is dead
      exactly when it was a reload whose session update panicked. */
  method Serve(
    limits: SessionTable.Limits, engine: XrayEngine.XrayEngine, store: Outbox.Store, database: Database, ghost start: Db,
    ghost w: World, events: seq<Event>, ghost later: seq<Saving>)
    returns (turn: Turn, e: XrayEngine.XrayEngine, ghost passed: seq<Passed>, ghost w': World)
    requires Alive(engine, store, database, start, w) && EventsValid(events) && Scheduled(w, SavesOf(events) + later)
    modifies store, database, engine, engine.sessions
    ensures Resting(e, store, database, start, w') && ServesTo(w, w', events, store.node, passed)
    ensures turn == LastTurn(passed) && Exhausted(events, passed) && Scheduled(w', later)
    ensures turn.Dead? ==> Idle(e, store, database, start, w')
    ensures e == engine || (fresh(e) && fresh(e.sessions))
  {
    DueFirst(w, events, later);
    turn, e, passed, w' := ServeEach(limits, engine, store, database, start, w, events, later);
    DueLater(w', events, |passed|, later);
  }

  /** The loop, and what clients do until the process ends. */
  method ServeAndWait(
    limits: SessionTable.Limits, engine: XrayEngine.XrayEngine, store: Outbox.Store, database: Database, ghost start: Db,
    ghost w: World, events: seq<Event>, wait: seq<ClientStep>, ghost later: seq<Saving>)
    returns (turn: Turn, e: XrayEngine.XrayEngine, ghost passed: seq<Passed>, ghost w1: World, ghost w': World)
    requires Alive(engine, store, database, start, w) && EventsValid(events) && Scheduled(w, SavesOf(events) + later)
    modifies store, database, engine, engine.sessions
    ensures Resting(e, store, database, start, w') && ServesTo(w, w1, events, store.node, passed)
    ensures turn == LastTurn(passed) && Exhausted(events, passed) && Scheduled(w', later)
    ensures if turn.Dead? then w' == w1 && Idle(e, store, database, start, w') else Calm(w1, w')
    ensures e == engine || (fresh(e) && fresh(e.sessions))
  {
    turn, e, passed, w1 := Serve(limits, engine, store, database, start, w, events, later);
    w' := w1;
    if turn.Dead? { return; }
    w' := Wait(e, store, database, start, w1, wait);
    ScheduledSame(start, w1, w', later);
  }

  // ---------------------------------------------------------------- one process

  /** shutdown, with the saves that follow in later processes. */
  method ShutdownLast(
    engine: XrayEngine.XrayEngine, store: Outbox.Store, database: Database, ghost start: Db, ghost w: World,
    save: Saving, closeFails: bool, replay: Replaying, env: Clients, ghost later: seq<Saving>)
    returns (ok: bool, saved: Option<Persisted>, ghost settled: World, ghost w': World)
    requires Resting(engine, store, database, start, w) && Scheduled(w, [save] + later)
    modifies store, database, engine`running, engine`counters, engine`retired, engine.sessions
    ensures Resting(engine, store, database, start, w') && !engine.running && ShutsDown(w, w', save, ok, saved)
    ensures Unimpeded(w, settled, w', save, closeFails, replay, store.node, ok, saved)
    ensures Scheduled(w', later)
  {
    assert ([save] + later)[0] == save && ([save] + later)[1..] == later;
    ok, saved, settled, w' := Shutdown(engine, store, database, start, w, save, closeFails, replay, env);
    ScheduleGoesOn(start, w, w', [save] + later);
  }

  /** The end of a process whose loop has ended at `w1`. */
  method EndByShutdown(
    engine: XrayEngine.XrayEngine, store: Outbox.Store, database: Database, ghost start: Db, ghost from: World,
    ghost w1: World, ghost w: World, events: seq<Event>, ghost passed: seq<Passed>, save: Saving, closeFails: bool,
    replay: Replaying, env: Clients, ghost later: seq<Saving>)
    returns (ok: bool, ghost report: LifeReport, ghost w': World)
    requires Resting(engine, store, database, start, w) && Scheduled(w, [save] + later)
    requires ServesTo(from, w1, events, store.node, passed) && Exhausted(events, passed)
    requires Calm(w1, w) && !LastTurn(passed).Dead?
    modifies store, database, engine`running, engine`counters, engine`retired, engine.sessions
    ensures Resting(engine, store, database, start, w') && !engine.running && Scheduled(w', later)
    ensures LivesThrough(from, w', report) && Through(events, store.node, report) && Clean(report) == ok
    ensures EndsWell(save, closeFails, replay, store.node, report)
  {
    var saved;
    ghost var settled;
    ok, saved, settled, w' := ShutdownLast(engine, store, database, start, w, save, closeFails, replay, env, later);
    report := Ended(from, passed, w, saved, settled, ok);
    CourseThenWait(from, w1, w, events, store.node, passed);
    EndedLife(start, from, w, settled, w', passed, save, ok, saved);
  }

  /** A process after bootstrap: the loop up to its first error, then shutdown, unless a panic has ended
      the process. What it loses is what the failed reload and the failed save lose; when shutdown
      reports no error, applied traffic, earlier losses and the loss of the failed reload make up all
      that was produced. */
  method Live(
    limits: SessionTable.Limits, engine: XrayEngine.XrayEngine, store: Outbox.Store, database: Database, ghost start: Db,
    ghost w: World, events: seq<Event>, wait: seq<ClientStep>, save: Saving, closeFails: bool, replay: Replaying,
    env: Clients, ghost later: seq<Saving>)
    returns (ok: bool, e: XrayEngine.XrayEngine, ghost report: LifeReport, ghost w': World)
    requires Alive(engine, store, database, start, w) && EventsValid(events)
    requires Scheduled(w, SavesOf(events) + ([save] + later))
    modifies store, database, engine, engine.sessions
    ensures Resting(e, store, database, start, w') && !e.running && Scheduled(w', later)
    ensures LivesThrough(w, w', report) && Through(events, store.node, report) && Clean(report) == ok
    ensures EndsWell(save, closeFails, replay, store.node, report)
    ensures e == engine || (fresh(e) && fresh(e.sessions))
  {
    var turn;
    ghost var passed, w1, served;
    turn, e, passed, w1, served :=
      ServeAndWait(limits, engine, store, database, start, w, events, wait, [save] + later);
    if turn.Dead? {
      ScheduledTail(served, save, later);
      DeadLife(w, served, events, store.node, passed);
      return false, e, DiedOf(w, passed), served;
    }
    ok, report, w' := EndByShutdown(e, store, database, start, w, w1, served, events, passed, save, closeFails, replay,
                                    env, later);
  }

  // ---------------------------------------------------------------- several processes

  /** A process that is killed while it serves. */
  method LiveKilled(
    limits: SessionTable.Limits, engine: XrayEngine.XrayEngine, store: Outbox.Store, database: Database, ghost start: Db,
    ghost w: World, l: Life, ghost later: seq<Saving>)
    returns (e: XrayEngine.XrayEngine, ghost report: LifeReport, ghost w': World)
    requires Alive(engine, store, database, start, w) && EventsValid(l.events) && l.killed && AllApplied(w)
    requires Scheduled(w, SavesOf(l.events) + ([l.save] + later))
    modifies store, database, engine, engine.sessions
    ensures Idle(e, store, database, start, w') && Served(l, store.node, w, w', report) && Scheduled(w', later)
    ensures fresh(e) && fresh(e.sessions)
  {
    var turn;
    ghost var passed, w1, served;
    turn, e, passed, w1, served :=
      ServeAndWait(limits, engine, store, database, start, w, l.events, l.wait, [l.save] + later);
    ScheduledTail(served, l.save, later);
    e, w' := Die(limits, store, database, start, served, e.snapshot.node);
    ScheduledSame(start, served, w', later);
    report := if turn.Dead? then DiedOf(w, passed) else Killed(w, passed, served);
    KilledLife(l, store.node, w, w1, served, w', passed);
  }

  /** A process that ends by itself; whatever its engine still counts goes with it. */
  method LiveToTheEnd(
    limits: SessionTable.Limits, engine: XrayEngine.XrayEngine, store: Outbox.Store, database: Database, ghost start: Db,
    ghost w: World, l: Life, ghost later: seq<Saving>)
    returns (e: XrayEngine.XrayEngine, ghost report: LifeReport, ghost w': World)
    requires Alive(engine, store, database, start, w) && EventsValid(l.events) && !l.killed && AllApplied(w)
    requires Scheduled(w, SavesOf(l.events) + ([l.save] + later))
    modifies store, database, engine, engine.sessions
    ensures Idle(e, store, database, start, w') && Served(l, store.node, w, w', report) && Scheduled(w', later)
    ensures fresh(e) && fresh(e.sessions)
  {
    var ok;
    ghost var w1;
    ok, e, report, w1 := Live(limits, engine, store, database, start, w, l.events, l.wait, l.save, l.closeFails, l.last,
                              l.env, later);
    e, w' := Die(limits, store, database, start, w1, e.snapshot.node);
    ScheduledSame(start, w1, w', later);
    EndedForGood(l, store.node, w, w1, w', report);
  }

  method LiveOn(
    limits: SessionTable.Limits, engine: XrayEngine.XrayEngine, store: Outbox.Store, database: Database, ghost start: Db,
    ghost w: World, l: Life, ghost later: seq<Saving>)
    returns (e: XrayEngine.XrayEngine, ghost report: LifeReport, ghost w': World)
    requires Alive(engine, store, database, start, w) && EventsValid(l.events) && AllApplied(w)
    requires Scheduled(w, SavesOf(l.events) + ([l.save] + later))
    modifies store, database, engine, engine.sessions
    ensures Idle(e, store, database, start, w') && Served(l, store.node, w, w', report) && Scheduled(w', later)
    ensures fresh(e) && fresh(e.sessions)
  {
    if l.killed {
      e, report, w' := LiveKilled(limits, engine, store, database, start, w, l, later);
    } else {
      e, report, w' := LiveToTheEnd(limits, engine, store, database, start, w, l, later);
    }
  }

  method StartUp(
    limits: SessionTable.Limits, engine: XrayEngine.XrayEngine, store: Outbox.Store, database: Database, ghost start: Db,
    ghost w: World, l: Life, ghost saves: seq<Saving>)
    returns (ok: bool, e: XrayEngine.XrayEngine, ghost w': World)
    requires Idle(engine, store, database, start, w) && LifeValid(l) && Scheduled(w, saves)
    modifies store, database, engine`counters, engine.sessions
    ensures Lossless(w, w') && Scheduled(w', saves) && (Startable(w, l) ==> ok)
    ensures if ok then Alive(e, store, database, start, w') && AllApplied(w') else Idle(e, store, database, start, w')
    ensures if ok then fresh(e) && fresh(e.sessions) else e == engine
  {
    ok, e, w' := Bootstrap(limits, engine, store, database, start, w, l.first, l.replay, l.starts);
    ScheduledSame(start, w, w', saves);
  }

  /** One process from its bootstrap to its end. */
  method OneLife(
    limits: SessionTable.Limits, engine: XrayEngine.XrayEngine, store: Outbox.Store, database: Database, ghost start: Db,
    ghost w: World, l: Life, ghost later: seq<Saving>)
    returns (e: XrayEngine.XrayEngine, ghost report: LifeReport, ghost w': World)
    requires Idle(engine, store, database, start, w) && LifeValid(l)
    requires Scheduled(w, SavesOf(l.events) + ([l.save] + later))
    modifies store, database, engine`counters, engine.sessions
    ensures Idle(e, store, database, start, w') && Lived(l, store.node, w, w', report) && Scheduled(w', later)
    ensures e == engine || (fresh(e) && fresh(e.sessions))
  {
    var ok;
    ghost var w1;
    ok, e, w1 := StartUp(limits, engine, store, database, start, w, l, SavesOf(l.events) + ([l.save] + later));
    if !ok {
      UnstartedLife(l, store.node, w, w1, later);
      return e, NotStarted(w), w1;
    }
    e, report, w' := LiveOn(limits, e, store, database, start, w1, l, later);
    StartedLife(l, store.node, w, w1, w', report);
  }

  method NextLife(
    limits: SessionTable.Limits, engine: XrayEngine.XrayEngine, store: Outbox.Store, database: Database, ghost start: Db,
    ghost from: World, ghost w: World, lives: seq<Life>, i: nat, ghost before: seq<LifeReport>)
    returns (e: XrayEngine.XrayEngine, ghost reports: seq<LifeReport>, ghost w': World)
    requires Idle(engine, store, database, start, w) && LivesValid(lives)
    requires LivesTo(lives, store.node, from, w, i, before) && i < |lives|
    modifies store, database, engine`counters, engine.sessions
    ensures Idle(e, store, database, start, w') && LivesTo(lives, store.node, from, w', i + 1, reports)
    ensures e == engine || (fresh(e) && fresh(e.sessions))
  {
    SavesAt(lives, i);
    ghost var report;
    e, report, w' := OneLife(limits, engine, store, database, start, w, lives[i], AllSaves(lives[i + 1..]));
    OneMoreLife(lives, store.node, from, w, w', before, report);
    reports := before + [report];
  }

  method LiveFrom(
    limits: SessionTable.Limits, engine: XrayEngine.XrayEngine, store: Outbox.Store, database: Database, ghost start: Db,
    ghost from: World, ghost w: World, lives: seq<Life>, i: nat, ghost before: seq<LifeReport>)
    returns (e: XrayEngine.XrayEngine, ghost reports: seq<LifeReport>, ghost w': World)
    requires Idle(engine, store, database, start, w) && LivesValid(lives)
    requires LivesTo(lives, store.node, from, w, i, before) && i <= |lives|
    modifies store, database, engine`counters, engine.sessions
    ensures Idle(e, store, database, start, w') && LivesTo(lives, store.node, from, w', |lives|, reports)
    ensures e == engine || (fresh(e) && fresh(e.sessions))
    decreases |lives| - i
  {
    if i == |lives| { return engine, before, w; }
    ghost var w1, one;
    e, one, w1 := NextLife(limits, engine, store, database, start, from, w, lives, i, before);
    e, reports, w' := LiveFrom(limits, e, store, database, start, from, w1, lives, i + 1, one);
  }

  /** Any number of processes one after the other: applied and outstanding traffic and the sum of the named
      losses are all that was produced, and after a clean end of the last one nothing is outstanding. */
  method Lives(
    limits: SessionTable.Limits, engine: XrayEngine.XrayEngine, store: Outbox.Store, database: Database, ghost start: Db,
    ghost w: World, lives: seq<Life>)
    returns (e: XrayEngine.XrayEngine, ghost reports: seq<LifeReport>, ghost w': World)
    requires Idle(engine, store, database, start, w) && Scheduled(w, AllSaves(lives)) && LivesValid(lives)
    modifies store, database, engine`counters, engine.sessions
    ensures Idle(e, store, database, start, w') && |reports| == |lives|
    ensures LivedAll(lives, store.node, w, w', reports) && Accounted(w, w', reports)
    ensures e == engine || (fresh(e) && fresh(e.sessions))
  {
    NoLives(lives, store.node, w);
    AllAhead(w, lives);
    e, reports, w' := LiveFrom(limits, engine, store, database, start, w, w, lives, 0, []);
    AllAccounted(start, lives, store.node, w, w', reports);
  }
}
