/** The service loop and whole processes (internal/lifecycle/run.go), as facts about the protocol's states:
    what one turn of the loop brings about, what a course of turns loses, and what the lives of processes add
    up to. */
module Courses {
  import opened Wrappers
  import opened Model
  import opened Database
  import opened EngineState
  import opened Pipeline
  import opened PipelineSafety
  import opened PipelineLoss
  import opened Serving
  import opened Operations
  import SessionTable

  // ---------------------------------------------------------------- events

  /** What the tickers of the loop bring about; `wait` is what clients do until then. */
  datatype Event =
    | Reporting(wait: seq<ClientStep>, save: Saving, replay: Replaying, env: Clients)
    | Reloading(
        wait: seq<ClientStep>, next: Snapshot, save: Saving, fault: nat -> bool, closeFails: bool, starts: bool, back: bool,
        env: Clients)

  /** The identifiers are new and distinct, and the clock goes on. */
  ghost predicate Scheduled(w: World, saves: seq<Saving>) {
    && (forall i :: 0 <= i < |saves| ==> Fresh(w, saves[i]))
    && (forall i, j :: 0 <= i < j < |saves| ==> saves[i].id != saves[j].id && saves[i].time < saves[j].time)
  }

  function SavesOf(events: seq<Event>): seq<Saving> {
    seq(|events|, i requires 0 <= i < |events| => events[i].save)
  }

  ghost predicate EventsValid(events: seq<Event>) {
    forall i :: 0 <= i < |events| && events[i].Reloading? ==> SnapshotValid(events[i].next)
  }

  lemma ScheduledLater(w: World, saves: seq<Saving>, n: nat)
    requires n <= |saves| && Scheduled(w, saves)
    ensures Scheduled(w, saves[n..])
  {
  }

  lemma ScheduledTail(w: World, save: Saving, later: seq<Saving>)
    requires Scheduled(w, [save] + later)
    ensures Scheduled(w, later)
  {
    ScheduledLater(w, [save] + later, 1);
    assert ([save] + later)[1..] == later;
  }

  lemma ScheduledSame(start: Db, w: World, w': World, saves: seq<Saving>)
    requires OutboxInv(start, w) && OutboxInv(start, w') && Scheduled(w, saves) && SameOutbox(w, w')
    ensures Scheduled(w', saves)
  {
    forall i | 0 <= i < |saves| ensures Fresh(w', saves[i]) { SameFresh(start, w, w', saves[i]); }
  }

  lemma SameFresh(start: Db, w: World, w': World, s: Saving)
    requires OutboxInv(start, w) && OutboxInv(start, w') && Fresh(w, s) && SameOutbox(w, w')
    ensures Fresh(w', s)
  {
    UsedIds(start, w);
    UsedIds(start, w');
    assert s.id !in start.batches by { assert s.id !in w.db.batches; }
    assert forall i :: 0 <= i < |w.order| ==> w.order[i].batch.id in BatchIds(w.order);
    assert forall i :: 0 <= i < |w'.order| ==> w'.order[i].batch.id in BatchIds(w'.order);
  }

  lemma ScheduleGoesOn(start: Db, w: World, w': World, saves: seq<Saving>)
    requires OutboxInv(start, w) && OutboxInv(start, w') && saves != []
    requires Scheduled(w, saves) && Draws(w, w', saves[0])
    ensures Scheduled(w', saves[1..])
  {
    forall i | 0 <= i < |saves| - 1 ensures Fresh(w', saves[1..][i]) {
      StaysFresh(start, w, w', saves[0], saves[i + 1]);
    }
  }

  /** The saves of the events from the i-th on and the `later` ones are still to come. */
  ghost predicate Due(w: World, events: seq<Event>, i: nat, later: seq<Saving>) {
    i <= |events| && Scheduled(w, SavesOf(events[i..]) + later)
  }

  lemma DueFirst(w: World, events: seq<Event>, later: seq<Saving>)
    requires Scheduled(w, SavesOf(events) + later)
    ensures Due(w, events, 0, later)
  {
    assert events[0..] == events;
  }

  lemma DueNow(w: World, events: seq<Event>, i: nat, later: seq<Saving>)
    requires i < |events| && Due(w, events, i, later)
    ensures Fresh(w, events[i].save)
  {
    assert (SavesOf(events[i..]) + later)[0] == events[i].save;
  }

  lemma DueNext(start: Db, w: World, w': World, events: seq<Event>, i: nat, later: seq<Saving>)
    requires OutboxInv(start, w) && OutboxInv(start, w') && i < |events|
    requires Due(w, events, i, later) && Draws(w, w', events[i].save)
    ensures Due(w', events, i + 1, later)
  {
    var saves := SavesOf(events[i..]) + later;
    assert saves[0] == events[i].save;
    ScheduleGoesOn(start, w, w', saves);
    assert saves[1..] == SavesOf(events[i + 1..]) + later;
  }

  lemma DueLater(w: World, events: seq<Event>, i: nat, later: seq<Saving>)
    requires Due(w, events, i, later)
    ensures Scheduled(w, later)
  {
    var saves := SavesOf(events[i..]) + later;
    ScheduledLater(w, saves, |events| - i);
    assert saves[|events| - i..] == later;
  }

  // ---------------------------------------------------------------- reload

  /** How a turn of the loop, or the whole loop, ended. */
  datatype Turn = GoOn | Failed | Dead

  predicate Died(how: ReloadReport) { how.Incremental? && how.result.Panicked? }

  /** The new snapshot is in force. */
  predicate Completed(how: ReloadReport) { if how.Incremental? then how.result.Reloaded? else how.outcome.Restarted? }

  function TurnOf(how: ReloadReport): Turn { if Completed(how) then GoOn else if Died(how) then Dead else Failed }

  /** The engine serves the users of the snapshot under its node's settings. */
  ghost predicate Describes(e: Engine, s: Snapshot) { e.running && e.node == s.node && e.users == IdsOf(s.users) }

  /** What a reload does when nothing stands against draining and saving. */
  ghost predicate Unhindered(event: Event, how: ReloadReport)
    requires event.Reloading?
  {
    match how
    case Incremental(result, _, registry) =>
      (forall n :: !event.fault(n)) ==>
        result == if SessionTable.UpdatePanics(registry, event.next) then Panicked else Reloaded
    case Full(outcome, _) => !event.closeFails ==> outcome == if event.starts then Restarted else Rejected(event.back)
  }

  /** What a reload gives its caller: which way it takes, its exact loss, death exactly by a panic of the
      session update, and success when nothing stands against it. */
  ghost predicate Reloads(w: World, w': World, event: Event, home: NodeId, how: ReloadReport)
    requires event.Reloading?
  {
    && (how.Incremental? <==> OnlyLimitsChange(w.engine.node, event.next.node))
    && Loses(w, w', ReloadLoss(how, CountersOf(w.engine))) && Draws(w, w', event.save)
    && (Died(how) ==> SessionTable.UpdatePanics(how.registry, event.next))
    && (Completed(how) ==> Lossless(w, w') && Describes(w'.engine, event.next))
    && (Collectable(w, event.save, home) ==> Unhindered(event, how))
  }

  lemma IncrementalReloads(
    w: World, last: World, w': World, registry: SessionTable.Table, event: Event, home: NodeId, r: Reloaded)
    requires event.Reloading? && OnlyLimitsChange(w.engine.node, event.next.node)
    requires Lossless(w, last) && ReloadOutcome(last, w', registry, event.next, r, event.fault) && Draws(w, w', event.save)
    requires r.Reloaded? ==> Describes(w'.engine, event.next)
    requires Collectable(w, event.save, home) ==> !r.NotCollected?
    ensures Reloads(w, w', event, home, Incremental(r, last, registry))
  {
    IncrementalLoss(w, last, w', registry, event.next, r, event.fault);
  }

  lemma RestartReloads(w: World, w': World, event: Event, home: NodeId, r: Restarted, existing: set<CounterKey>)
    requires event.Reloading? && !OnlyLimitsChange(w.engine.node, event.next.node)
    requires Restarts(w, w', event.save, Plan(event.closeFails, event.starts, event.back), home, r, existing)
    requires r.Restarted? ==> Describes(w'.engine, event.next)
    ensures Reloads(w, w', event, home, Full(r, existing))
  {
  }

  // ---------------------------------------------------------------- one turn

  datatype Done = ReportDone(collected: World, result: Collected, applied: bool) | ReloadDone(how: ReloadReport)

  /** One turn of the loop: the state the ticker met, the one it left, and what came of it. */
  datatype Passed = Passed(at: World, to: World, done: Done)

  function EndOf(d: Done): Turn {
    match d
    case ReportDone(_, result, _) => if result.AllCollected? then GoOn else Failed
    case ReloadDone(how) => TurnOf(how)
  }

  function LossOf(p: Passed): Key -> int {
    match p.done
    case ReportDone(_, _, _) => Nothing()
    case ReloadDone(how) => ReloadLoss(how, CountersOf(p.at.engine))
  }

  ghost predicate ReportHandled(event: Event, home: NodeId, p: Passed)
    requires event.Reporting? && p.done.ReportDone?
  {
    && Collects(p.at, p.done.collected, event.save, p.done.result)
    && Reports(p.at, p.done.collected, p.to, event.save, event.replay, p.done.result, p.done.applied)
    && (Collectable(p.at, event.save, home) ==> p.done.result.AllCollected?)
  }

  /** A ticker did to the state it met what its event says. */
  ghost predicate HandledAt(event: Event, home: NodeId, p: Passed) {
    if event.Reporting? then p.done.ReportDone? && ReportHandled(event, home, p)
    else p.done.ReloadDone? && Reloads(p.at, p.to, event, home, p.done.how)
  }

  /** Clients went on until the ticker fired. */
  ghost predicate Handled(from: World, event: Event, home: NodeId, p: Passed) {
    Calm(from, p.at) && HandledAt(event, home, p)
  }

  lemma HandledLoses(from: World, event: Event, home: NodeId, p: Passed)
    requires Handled(from, event, home, p)
    ensures Loses(from, p.to, LossOf(p)) && Draws(from, p.to, event.save)
    ensures EndOf(p.done).GoOn? ==> Lossless(from, p.to)
  {
    LosesAfter(from, p.at, p.to, LossOf(p));
    if EndOf(p.done).GoOn? { LosslessThrough(from, p.at, p.to); }
  }

  // ---------------------------------------------------------------- the loop

  function Reached(start: World, ps: seq<Passed>): World { if ps == [] then start else ps[|ps| - 1].to }

  /** Where the i-th turn began. */
  function Before(start: World, ps: seq<Passed>, i: nat): World
    requires i <= |ps|
  {
    if i == 0 then start else ps[i - 1].to
  }

  function LastTurn(ps: seq<Passed>): Turn { if ps == [] then GoOn else EndOf(ps[|ps| - 1].done) }

  /** Only the last turn of a course can lose anything. */
  function CourseLoss(ps: seq<Passed>): Key -> int { if ps == [] then Nothing() else LossOf(ps[|ps| - 1]) }

  ghost predicate HandledIn(start: World, events: seq<Event>, home: NodeId, ps: seq<Passed>, i: nat)
    requires i < |ps| <= |events|
  {
    Handled(Before(start, ps, i), events[i], home, ps[i])
  }

  /** The events are handled one after the other, each from where the one before ended, and only the last
      turn may fail. */
  ghost predicate Course(start: World, events: seq<Event>, home: NodeId, ps: seq<Passed>) {
    && |ps| <= |events|
    && (forall i :: 0 <= i < |ps| ==> HandledIn(start, events, home, ps, i))
    && (forall i :: 0 <= i < |ps| - 1 ==> EndOf(ps[i].done).GoOn?)
  }

  /** No event is left out before the first failure. */
  ghost predicate Exhausted(events: seq<Event>, ps: seq<Passed>) { |ps| == |events| || !LastTurn(ps).GoOn? }

  /** What a course of turns gives its caller. */
  ghost predicate ServesTo(w: World, w': World, events: seq<Event>, home: NodeId, ps: seq<Passed>) {
    && Course(w, events, home, ps) && w' == Reached(w, ps) && Loses(w, w', CourseLoss(ps))
    && (LastTurn(ps).GoOn? ==> Lossless(w, w'))
  }

  lemma NothingServed(w: World, events: seq<Event>, home: NodeId)
    ensures ServesTo(w, w, events, home, []) && LastTurn([]).GoOn?
  {
    LosesNothing(w);
  }

  lemma StillHandled(start: World, events: seq<Event>, home: NodeId, ps: seq<Passed>, p: Passed, i: nat)
    requires i < |ps| < |events| && HandledIn(start, events, home, ps, i)
    ensures HandledIn(start, events, home, ps + [p], i)
  {
    assert Before(start, ps + [p], i) == Before(start, ps, i) && (ps + [p])[i] == ps[i];
  }

  lemma NowHandled(start: World, w: World, events: seq<Event>, home: NodeId, ps: seq<Passed>, p: Passed)
    requires |ps| < |events| && w == Reached(start, ps) && Handled(w, events[|ps|], home, p)
    ensures HandledIn(start, events, home, ps + [p], |ps|)
  {
    assert Before(start, ps + [p], |ps|) == w && (ps + [p])[|ps|] == p;
  }

  lemma OneMoreHandled(start: World, w: World, events: seq<Event>, home: NodeId, ps: seq<Passed>, p: Passed)
    requires Course(start, events, home, ps) && w == Reached(start, ps) && LastTurn(ps).GoOn?
    requires |ps| < |events| && Handled(w, events[|ps|], home, p)
    ensures Course(start, events, home, ps + [p])
  {
    forall i | 0 <= i < |ps| + 1 ensures HandledIn(start, events, home, ps + [p], i) {
      if i < |ps| { StillHandled(start, events, home, ps, p, i); } else { NowHandled(start, w, events, home, ps, p); }
    }
  }

  lemma OneMoreTurn(start: World, w: World, events: seq<Event>, home: NodeId, ps: seq<Passed>, p: Passed)
    requires ServesTo(start, w, events, home, ps) && LastTurn(ps).GoOn?
    requires |ps| < |events| && Handled(w, events[|ps|], home, p)
    ensures ServesTo(start, p.to, events, home, ps + [p]) && LastTurn(ps + [p]) == EndOf(p.done)
  {
    OneMoreHandled(start, w, events, home, ps, p);
    HandledLoses(w, events[|ps|], home, p);
    LosesAfter(start, w, p.to, LossOf(p));
    if EndOf(p.done).GoOn? { LosslessThrough(start, w, p.to); }
  }

  lemma CourseThenWait(w: World, w1: World, w': World, events: seq<Event>, home: NodeId, ps: seq<Passed>)
    requires ServesTo(w, w1, events, home, ps) && Calm(w1, w')
    ensures Loses(w, w', CourseLoss(ps))
  {
    LosesBefore(w, w1, w', CourseLoss(ps));
  }

  // ---------------------------------------------------------------- one process

  /** The life of a process: start, loop, and an end by shutdown or, when `killed`, by force. */
  datatype Life = Life(
    first: Snapshot, replay: Replaying, starts: bool, events: seq<Event>, wait: seq<ClientStep>, killed: bool,
    save: Saving, closeFails: bool, last: Replaying, env: Clients)

  ghost predicate LifeValid(l: Life) { SnapshotValid(l.first) && EventsValid(l.events) }

  ghost predicate LivesValid(lives: seq<Life>) { forall i :: 0 <= i < |lives| ==> LifeValid(lives[i]) }

  function LifeSaves(l: Life): seq<Saving> { SavesOf(l.events) + [l.save] }

  function AllSaves(lives: seq<Life>): seq<Saving> {
    if lives == [] then [] else LifeSaves(lives[0]) + AllSaves(lives[1..])
  }

  lemma SavesAt(lives: seq<Life>, i: nat)
    requires i < |lives|
    ensures AllSaves(lives[i..]) == SavesOf(lives[i].events) + ([lives[i].save] + AllSaves(lives[i + 1..]))
  {
    var l, rest := lives[i], lives[i + 1..];
    assert lives[i..][0] == l && lives[i..][1..] == rest;
    assert LifeSaves(l) + AllSaves(rest) == SavesOf(l.events) + ([l.save] + AllSaves(rest));
  }

  /** The saves of the lives from the i-th on are still to come. */
  ghost predicate Ahead(w: World, lives: seq<Life>, i: nat) { i <= |lives| && Scheduled(w, AllSaves(lives[i..])) }

  lemma AllAhead(w: World, lives: seq<Life>)
    requires Scheduled(w, AllSaves(lives))
    ensures Ahead(w, lives, 0)
  {
    assert lives[0..] == lives;
  }

  /** How a life went: the state `found` in which it could not start; or the state after bootstrap, the turns
      of the loop, the state `served` in which clients had gone on until the end, and for a shutdown the state
      its replay started from. */
  datatype LifeReport =
    | NotStarted(found: World)
    | DiedOf(started: World, passed: seq<Passed>)
    | Killed(started: World, passed: seq<Passed>, served: World)
    | Ended(started: World, passed: seq<Passed>, served: World, saved: Option<Persisted>, settled: World, clean: bool)

  function LifeLoss(r: LifeReport): Key -> int {
    match r
    case NotStarted(_) => Nothing()
    case DiedOf(_, ps) => CourseLoss(ps)
    case Killed(_, ps, served) => Both(CourseLoss(ps), CountersOf(served.engine))
    case Ended(_, ps, served, saved, _, _) => Both(CourseLoss(ps), ShutdownLoss(saved, CountersOf(served.engine)))
  }

  predicate Clean(r: LifeReport) { r.Ended? && r.clean }

  /** Only the panic of a session update ends a process without a shutdown. */
  ghost predicate Through(events: seq<Event>, home: NodeId, r: LifeReport) {
    r.NotStarted? ||
    (&& Course(r.started, events, home, r.passed) && Exhausted(events, r.passed)
     && (r.DiedOf? <==> LastTurn(r.passed).Dead?) && (!r.DiedOf? ==> Calm(Reached(r.started, r.passed), r.served)))
  }

  /** A shutdown that saves and replays without obstacle succeeds. */
  ghost predicate EndsWell(save: Saving, closeFails: bool, replay: Replaying, home: NodeId, r: LifeReport) {
    r.Ended? ==>
      && (Collectable(r.served, save, home) ==> r.saved == Some(Stored))
      && (r.saved == Some(Stored) && !closeFails ==> Replays(r.settled, replay, r.clean))
  }

  /** What a process after bootstrap gives its caller. */
  ghost predicate LivesThrough(w: World, w': World, r: LifeReport) {
    && Loses(w, w', LifeLoss(r)) && (r.DiedOf? || r.Ended?) && r.started == w
    && (Clean(r) ==> r.saved == Some(Stored) && AllApplied(w') && EndedClean(w, w', r.passed))
  }

  /** With bounded production: applied traffic and losses make up all that was produced. */
  ghost predicate EndedClean(w: World, w': World, ps: seq<Passed>)
    requires CommittedCount(w') <= |w'.order|
  {
    Bounded(w') ==> forall k :: Applied(w', k) + Lost(w, k) + CourseLoss(ps)(k) == Produced(w', k)
  }

  lemma DeadLife(w: World, w': World, events: seq<Event>, home: NodeId, ps: seq<Passed>)
    requires ServesTo(w, w', events, home, ps) && LastTurn(ps).Dead?
    ensures LivesThrough(w, w', DiedOf(w, ps)) && Through(events, home, DiedOf(w, ps))
  {
  }

  lemma EndedLife(
    start: Db, w: World, served: World, settled: World, w': World, ps: seq<Passed>, s: Saving, ok: bool,
    saved: Option<Persisted>)
    requires Loses(w, served, CourseLoss(ps)) && ShutsDown(served, w', s, ok, saved) && OutboxInv(start, w')
    ensures LivesThrough(w, w', Ended(w, ps, served, saved, settled, ok))
  {
    LosesBoth(w, served, w', CourseLoss(ps), ShutdownLoss(saved, CountersOf(served.engine)));
    if ok && Bounded(w') { BoundedEarlier(served, w'); }
  }

  /** Nothing stands against the start of a process: no incomplete file, no fault, no batch the database
      refuses, and Xray starts. */
  ghost predicate Startable(w: World, l: Life) { l.starts && !w.tmp && NoReplayFault(l.replay) && Ready(w) }

  /** The report is one of this life. */
  ghost predicate Fits(l: Life, home: NodeId, r: LifeReport) {
    && (r.NotStarted? ==> !Startable(r.found, l)) && (!r.NotStarted? ==> AllApplied(r.started))
    && (r.Killed? ==> l.killed) && (r.Ended? ==> !l.killed)
    && Through(l.events, home, r) && EndsWell(l.save, l.closeFails, l.last, home, r)
  }

  /** What a process that has started gives its caller: its loss, and after a clean end nothing is left to
      apply. */
  ghost predicate Served(l: Life, home: NodeId, w: World, w': World, r: LifeReport) {
    && !r.NotStarted? && r.started == w && Fits(l, home, r) && Loses(w, w', LifeLoss(r))
    && (Clean(r) ==> AllApplied(w'))
  }

  /** The same for a process from its bootstrap on. */
  ghost predicate Lived(l: Life, home: NodeId, w: World, w': World, r: LifeReport) {
    && Fits(l, home, r) && (if r.NotStarted? then r.found == w else Lossless(w, r.started))
    && Loses(w, w', LifeLoss(r)) && (Clean(r) ==> AllApplied(w'))
  }

  lemma KilledLoses(w: World, served: World, w': World, ps: seq<Passed>)
    requires Loses(w, served, CourseLoss(ps)) && Loses(served, w', CountersOf(served.engine))
    requires LastTurn(ps).Dead? ==> Emptied(served.engine)
    ensures Loses(w, w', LifeLoss(if LastTurn(ps).Dead? then DiedOf(w, ps) else Killed(w, ps, served)))
  {
    if LastTurn(ps).Dead? {
      EmptyEnd(w, served, w', CourseLoss(ps));
    } else {
      LosesBoth(w, served, w', CourseLoss(ps), CountersOf(served.engine));
    }
  }

  lemma KilledLife(l: Life, home: NodeId, w: World, w1: World, served: World, w': World, ps: seq<Passed>)
    requires l.killed && AllApplied(w) && ServesTo(w, w1, l.events, home, ps) && Exhausted(l.events, ps)
    requires if LastTurn(ps).Dead? then served == w1 && Emptied(served.engine) else Calm(w1, served)
    requires Loses(served, w', CountersOf(served.engine))
    ensures Served(l, home, w, w', if LastTurn(ps).Dead? then DiedOf(w, ps) else Killed(w, ps, served))
  {
    if !LastTurn(ps).Dead? { CourseThenWait(w, w1, served, l.events, home, ps); }
    KilledLoses(w, served, w', ps);
  }

  /** A process that never got to serve. */
  lemma UnstartedLife(l: Life, home: NodeId, w: World, w': World, later: seq<Saving>)
    requires Lossless(w, w') && !Startable(w, l) && Scheduled(w', SavesOf(l.events) + ([l.save] + later))
    ensures Lived(l, home, w, w', NotStarted(w)) && Scheduled(w', later)
  {
    var saves := SavesOf(l.events) + ([l.save] + later);
    ScheduledLater(w', saves, |l.events| + 1);
    assert saves[|l.events| + 1..] == later;
  }

  lemma StartedLife(l: Life, home: NodeId, w: World, w1: World, w': World, r: LifeReport)
    requires Lossless(w, w1) && Served(l, home, w1, w', r)
    ensures Lived(l, home, w, w', r)
  {
    LosesAfter(w, w1, w', LifeLoss(r));
  }

  lemma EndedForGood(l: Life, home: NodeId, w: World, w1: World, w': World, r: LifeReport)
    requires LivesThrough(w, w1, r) && Fits(l, home, r) && Loses(w1, w', CountersOf(w1.engine)) && SameFiles(w1, w')
    requires Bounded(w1) ==> Emptied(w1.engine)
    ensures Served(l, home, w, w', r)
  {
    if Bounded(w') { BoundedEarlier(w1, w'); }
    EmptyEnd(w, w1, w', LifeLoss(r));
  }

  // ---------------------------------------------------------------- several processes

  function TotalLoss(rs: seq<LifeReport>): Key -> int {
    if rs == [] then Nothing() else Both(TotalLoss(rs[..|rs| - 1]), LifeLoss(rs[|rs| - 1]))
  }

  ghost predicate AllFit(lives: seq<Life>, home: NodeId, rs: seq<LifeReport>) {
    |rs| <= |lives| && forall i :: 0 <= i < |rs| ==> Fits(lives[i], home, rs[i])
  }

  lemma OneMoreFits(lives: seq<Life>, home: NodeId, rs: seq<LifeReport>, r: LifeReport)
    requires AllFit(lives, home, rs) && |rs| < |lives| && Fits(lives[|rs|], home, r)
    ensures AllFit(lives, home, rs + [r])
  {
  }

  lemma OneMoreLoss(w: World, w1: World, w': World, rs: seq<LifeReport>, r: LifeReport)
    requires Loses(w, w1, TotalLoss(rs)) && Loses(w1, w', LifeLoss(r))
    ensures Loses(w, w', TotalLoss(rs + [r]))
  {
    LosesBoth(w, w1, w', TotalLoss(rs), LifeLoss(r));
    assert (rs + [r])[..|rs + [r]| - 1] == rs;
  }

  ghost predicate LivedAll(lives: seq<Life>, home: NodeId, w: World, w': World, rs: seq<LifeReport>) {
    && AllFit(lives, home, rs) && Loses(w, w', TotalLoss(rs)) && (rs != [] && Clean(rs[|rs| - 1]) ==> AllApplied(w'))
  }

  lemma NoLives(lives: seq<Life>, home: NodeId, w: World)
    ensures LivedAll(lives, home, w, w, [])
  {
    LosesNothing(w);
  }

  lemma OneMoreLife(
    lives: seq<Life>, home: NodeId, w: World, w1: World, w': World, rs: seq<LifeReport>, r: LifeReport)
    requires LivedAll(lives, home, w, w1, rs) && |rs| < |lives| && Lived(lives[|rs|], home, w1, w', r)
    ensures LivedAll(lives, home, w, w', rs + [r])
  {
    OneMoreFits(lives, home, rs, r);
    OneMoreLoss(w, w1, w', rs, r);
  }

  /** The first `i` lives are over, and the saves of the others are still to come. */
  ghost predicate LivesTo(lives: seq<Life>, home: NodeId, w: World, w': World, i: nat, rs: seq<LifeReport>) {
    |rs| == i && LivedAll(lives, home, w, w', rs) && Ahead(w', lives, i)
  }

  /** With bounded production: applied and outstanding traffic, what was lost before and the losses of
      these processes are all that was produced, and after a clean end nothing is outstanding. */
  ghost predicate Accounted(w: World, w': World, rs: seq<LifeReport>)
    requires CommittedCount(w') <= |w'.order|
  {
    && (Bounded(w') ==>
          forall k :: Applied(w', k) + Outstanding(w', k) + Lost(w, k) + TotalLoss(rs)(k) == Produced(w', k))
    && (rs != [] && Clean(rs[|rs| - 1]) ==> forall k :: Outstanding(w', k) == 0)
  }

  lemma AllAccounted(start: Db, lives: seq<Life>, home: NodeId, w: World, w': World, rs: seq<LifeReport>)
    requires Inv(start, w') && Emptied(w'.engine) && w'.hand.None? && LivedAll(lives, home, w, w', rs)
    ensures Accounted(w, w', rs)
  {
    if Bounded(w') {
      forall k ensures Applied(w', k) + Outstanding(w', k) + Lost(w, k) + TotalLoss(rs)(k) == Produced(w', k) {
        EmptyHoldsNothing(w'.engine, k);
        PublishedSplit(w', k);
        assert Balanced(w', k) && Lost(w', k) == Lost(w, k) + TotalLoss(rs)(k);
      }
    }
  }
}
