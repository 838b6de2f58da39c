/** Client activity, draining, restoring and applying on the engine object, as steps of the accounting
    protocol (internal/lifecycle/run.go, internal/xrayadapter/engine.go). */
module EngineSteps {
  import opened Wrappers
  import opened Text
  import opened Model
  import opened Accounting
  import opened Database
  import opened EngineState
  import opened Pipeline
  import opened PipelineLoss
  import opened Serving
  import opened Operations
  import SessionTable
  import UserSync
  import XrayEngine

  /** The engine is in the state of the protocol. */
  ghost predicate Engaged(engine: XrayEngine.XrayEngine, w: World)
    reads engine, engine.sessions
  {
    engine.Tied() && w.engine == engine.View() && SnapshotValid(engine.snapshot)
  }

  // ---------------------------------------------------------------- clients

  method ServeSession(engine: XrayEngine.XrayEngine, ghost start: Db, ghost w: World, step: SessionTable.Step)
    returns (ghost w': World)
    requires Healthy(start, w) && Engaged(engine, w)
    modifies engine.sessions
    ensures Healthy(start, w') && Engaged(engine, w') && Calm(w, w')
  {
    engine.ServeClient(step);
    OpenIsCalm(start, w, engine.View().open);
    w' := WithOpen(w, engine.View().open);
  }

  method CauseTraffic(
    engine: XrayEngine.XrayEngine, ghost start: Db, ghost w: World, u: UserId, d: Direction, n: nat)
    returns (ghost w': World)
    requires Healthy(start, w) && Engaged(engine, w) && n <= MAX_INT64
    modifies engine`counters
    ensures Healthy(start, w') && Engaged(engine, w') && Calm(w, w')
  {
    ReachesSelf(w);
    var counted := engine.CountTraffic(u, d, n);
    if !counted { return w; }
    TrafficIsCalm(start, w, u, d, n);
    w' := AfterTraffic(w, u, d, n);
  }

  method ServeClient(engine: XrayEngine.XrayEngine, ghost start: Db, ghost w: World, c: ClientStep)
    returns (ghost w': World)
    requires Healthy(start, w) && Engaged(engine, w)
    modifies engine`counters, engine.sessions
    ensures Healthy(start, w') && Engaged(engine, w') && Calm(w, w')
  {
    ReachesSelf(w);
    w' := w;
    match c
    case Session(step) => w' := ServeSession(engine, start, w, step);
    case Counted(u, d, n) => if n <= MAX_INT64 { w' := CauseTraffic(engine, start, w, u, d, n); }
  }

  /** What clients do between two calls. */
  method ServeClients(engine: XrayEngine.XrayEngine, ghost start: Db, ghost w: World, steps: seq<ClientStep>)
    returns (ghost w': World)
    requires Healthy(start, w) && Engaged(engine, w)
    modifies engine`counters, engine.sessions
    ensures Healthy(start, w') && Engaged(engine, w') && Calm(w, w')
    ensures engine.snapshot == old(engine.snapshot) && engine.running == old(engine.running)
  {
    ReachesSelf(w);
    w' := w;
    for i := 0 to |steps|
      invariant Healthy(start, w') && Engaged(engine, w') && Calm(w, w')
    {
      ghost var before := w';
      w' := ServeClient(engine, start, before, steps[i]);
      CalmThrough(w, before, w');
    }
  }

  // ---------------------------------------------------------------- drain, restore

  /** Drain. It fails only on a negative counter. */
  method Drain(engine: XrayEngine.XrayEngine, ghost start: Db, ghost w: World)
    returns (entries: Option<seq<Entry>>, ghost w': World)
    requires Healthy(start, w) && Engaged(engine, w) && w.hand.None?
    modifies engine`counters, engine`retired
    ensures Healthy(start, w') && Engaged(engine, w') && Drains(w, w', entries)
  {
    ghost var ids;
    entries, ids := engine.Drain();
    DrainOutcome(start, w, ids, entries);
    w' := AfterDrain(w, ids);
  }

  method DrainAndServe(engine: XrayEngine.XrayEngine, ghost start: Db, ghost w: World, gap: seq<ClientStep>)
    returns (entries: Option<seq<Entry>>, ghost w': World)
    requires Healthy(start, w) && Engaged(engine, w) && w.hand.None?
    modifies engine`counters, engine`retired, engine.sessions
    ensures Healthy(start, w') && Engaged(engine, w') && DrainsAndServes(w, w', entries)
  {
    ghost var w1;
    entries, w1 := Drain(engine, start, w);
    w' := ServeClients(engine, start, w1, gap);
    DrainThenServe(w, w1, w', entries);
  }

  /** Restore on counters that still exist. */
  method PutBack(engine: XrayEngine.XrayEngine, ghost start: Db, ghost w: World, entries: seq<Entry>)
    returns (ghost w': World)
    requires Healthy(start, w) && Engaged(engine, w)
    requires w.hand == Some(Hand(w.engine.node, entries)) && Registered(entries, w.engine.counters)
    modifies engine`counters
    ensures Healthy(start, w') && Engaged(engine, w')
    ensures Lossless(w, w') && w'.hand.None? && SameStore(w, w') && SameEngine(w.engine, w'.engine)
  {
    PutBackStep(start, w, entries);
    engine.Restore(entries);
    w' := AfterRestore(w);
  }

  method ServeAndPutBack(
    engine: XrayEngine.XrayEngine, ghost start: Db, ghost w: World, gap: seq<ClientStep>, entries: seq<Entry>)
    returns (ghost w': World)
    requires Healthy(start, w) && Engaged(engine, w)
    requires w.hand == Some(Hand(w.engine.node, entries)) && Registered(entries, w.engine.counters)
    modifies engine`counters, engine.sessions
    ensures Healthy(start, w') && Engaged(engine, w')
    ensures Lossless(w, w') && w'.hand.None? && SameStore(w, w') && SameEngine(w.engine, w'.engine)
  {
    ghost var w1 := ServeClients(engine, start, w, gap);
    w' := PutBack(engine, start, w1, entries);
    LosslessThrough(w, w1, w');
  }

  /** Restore on a new engine: what has no counter there is lost. */
  method PutBackOnNew(engine: XrayEngine.XrayEngine, ghost start: Db, ghost w: World, entries: seq<Entry>)
    returns (ghost w': World)
    requires Healthy(start, w) && Engaged(engine, w) && w.hand == Some(Hand(w.engine.node, entries))
    modifies engine`counters
    ensures Healthy(start, w') && Engaged(engine, w') && w'.hand.None? && SameStore(w, w')
    ensures Loses(w, w', Homeless(true, w.engine.counters.Keys, HandOf(w)))
  {
    PutBackOnNewStep(start, w, entries);
    engine.Restore(entries);
    w' := AfterRestore(w);
  }

  /** What a failed save left in hand, if anything, goes back to the engine that was started again. */
  method GiveBack(
    engine: XrayEngine.XrayEngine, ghost start: Db, ghost w: World, gap: seq<ClientStep>, entries: seq<Entry>,
    saved: Persisted)
    returns (ghost w': World, ghost existing: set<CounterKey>)
    requires Healthy(start, w) && Engaged(engine, w)
    requires w.hand == if saved.Unpublished? then Some(Hand(w.engine.node, entries)) else None
    modifies engine`counters, engine.sessions
    ensures Healthy(start, w') && Engaged(engine, w') && w'.hand.None? && SameStore(w, w')
    ensures Recovers(w, w', saved, true, existing)
    ensures engine.snapshot == old(engine.snapshot) && engine.running == old(engine.running)
  {
    ghost var w1 := ServeClients(engine, start, w, gap);
    existing := w1.engine.counters.Keys;
    if saved.Unpublished? {
      w' := PutBackOnNew(engine, start, w1, entries);
    } else {
      w' := w1;
    }
    GaveBack(w, w1, w', saved, existing);
  }

  // ---------------------------------------------------------------- close

  method Close(engine: XrayEngine.XrayEngine, ghost start: Db, ghost w: World, gap: seq<ClientStep>)
    returns (ghost w': World)
    requires Healthy(start, w) && Engaged(engine, w)
    modifies engine`running, engine`counters, engine.sessions
    ensures Healthy(start, w') && Engaged(engine, w') && Closes(w, w')
  {
    StopStep(start, w);
    engine.Halt();
    ghost var w1 := Stopped(w);
    w' := ServeClients(engine, start, w1, gap);
    StopThenServe(w, w');
  }

  /** CloseAndDrain of a running engine; traffic has ended when the drain begins. */
  method CloseAndDrain(engine: XrayEngine.XrayEngine, ghost start: Db, ghost w: World, gap: seq<ClientStep>)
    returns (entries: Option<seq<Entry>>, ghost w': World)
    requires Healthy(start, w) && Engaged(engine, w) && w.hand.None?
    modifies engine`running, engine`counters, engine`retired, engine.sessions
    ensures Healthy(start, w') && Engaged(engine, w') && ClosesAndDrains(w, w', entries)
    ensures !engine.running && engine.snapshot == old(engine.snapshot)
  {
    ghost var w1 := Close(engine, start, w, gap);
    entries, w' := Drain(engine, start, w1);
    CloseThenDrain(w, w1, w', entries);
  }

  // ---------------------------------------------------------------- apply

  /** The second half of Apply; after a panic the engine is of no use any more. */
  method TryCommit(engine: XrayEngine.XrayEngine, ghost start: Db, ghost w: World, next: Snapshot)
    returns (panicked: bool, ghost w': World)
    requires Healthy(start, w) && Engaged(engine, w) && w.hand.None?
    requires engine.users == UserSync.TableOf(next) && engine.running && SnapshotValid(next)
    requires OnlyLimitsChange(engine.snapshot.node, next.node)
    modifies engine`retired, engine`snapshot, engine.sessions
    ensures panicked <==> SessionTable.UpdatePanics(old(engine.sessions.table), next)
    ensures panicked ==> w' == w
    ensures !panicked ==> Healthy(start, w') && Engaged(engine, w') && Replaces(w, w')
    ensures !panicked ==> engine.running && engine.snapshot == next && engine.InStep()
  {
    RestartNeededIff(engine.snapshot.node, next.node);
    var r := engine.Commit(next);
    if r.Panicked? { return true, w; }
    AdoptStep(start, w, next);
    return false, Adopted(w, next);
  }

  /** Apply up to its second half, with what clients do before that. */
  method PrepareAndServe(
    engine: XrayEngine.XrayEngine, ghost start: Db, ghost w: World, next: Snapshot, fault: nat -> bool, gap: seq<ClientStep>)
    returns (ready: bool, ghost w': World)
    requires Healthy(start, w) && Engaged(engine, w)
    requires engine.InStep() && engine.running && OnlyLimitsChange(engine.snapshot.node, next.node)
    modifies engine`users, engine`counters, engine.sessions
    ensures Healthy(start, w') && Engaged(engine, w') && Calm(w, w')
    ensures ready ==> engine.users == UserSync.TableOf(next)
    ensures !ready ==> exists n :: fault(n)
    ensures engine.snapshot == old(engine.snapshot) && engine.running
  {
    ReachesSelf(w);
    var stop := engine.Prepare(next, fault);
    if stop.Some? { return false, w; }
    ready := true;
    w' := ServeClients(engine, start, w, gap);
  }
}
