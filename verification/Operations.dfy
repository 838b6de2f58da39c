/** What the operations of the service loop (internal/lifecycle/run.go) achieve and what they can lose,
    as facts about the protocol's states. */
module Operations {
  import opened Wrappers
  import opened Text
  import opened Model
  import opened Accounting
  import opened Database
  import opened EngineState
  import opened Pipeline
  import opened PipelineSafety
  import opened PipelineLoss
  import opened Serving
  import opened OutboxView
  import Outbox
  import SessionTable

  // ---------------------------------------------------------------- inputs and outcomes

  /** What clients do: a call on the session registry, or traffic. */
  datatype ClientStep = Session(step: SessionTable.Step) | Counted(user: UserId, dir: Direction, bytes: nat)

  type Clients = nat -> seq<ClientStep>

  /** What a save needs from outside, and how the file system behaves. */
  datatype Saving = Saving(id: BatchId, createdAt: int, hash: int, time: nat, fault: Outbox.SaveFault)

  datatype Persisted = Stored | Unsynced | Unpublished

  /** How the calls of a replay fare, and what clients do meanwhile. */
  datatype Replaying = Replaying(
    listFails: bool, outcomes: nat -> Outcome, removals: nat -> Outbox.RemoveFault, env: Clients)

  datatype Collected = AllCollected | DrainFailed | PersistFailed

  datatype Reloaded = Reloaded | NotCollected(how: Collected) | Refused | Panicked

  datatype Restarted = Restarted | CloseFailed | SaveFailed(saved: Persisted, back: bool) | Rejected(back: bool)

  ghost predicate SnapshotValid(s: Snapshot) { forall u :: u in IdsOf(s.users) ==> u > 0 }

  ghost predicate Emptied(e: Engine) { forall k :: k in e.counters ==> e.counters[k] == 0 }

  /** Every published batch is committed and gone from the directory. */
  ghost predicate AllApplied(w: World) { CommittedCount(w) == |w.order| && Visible(w.order) == [] }

  ghost predicate SameEngine(e: Engine, f: Engine) {
    f.node == e.node && f.users == e.users && f.running == e.running
  }

  /** The save draws a new identifier and the clock, an int64, has moved on. */
  ghost predicate Fresh(w: World, s: Saving) { FreshId(w, s.id) && w.clock < s.time <= MAX_INT64 }

  function BatchIds(order: seq<Published>): set<BatchId> { set i | 0 <= i < |order| :: order[i].batch.id }

  /** At most the identifier and the time of `s` have been used up. */
  ghost predicate Draws(w: World, w': World, s: Saving) {
    BatchIds(w'.order) <= BatchIds(w.order) + {s.id} && (w'.clock <= w.clock || w'.clock <= s.time)
  }

  /** Directory, clock and database are as they were. */
  ghost predicate SameFiles(w: World, w': World) {
    w'.order == w.order && w'.tmp == w.tmp && w'.clock == w.clock && w'.db == w.db
  }

  /** Directory and database are in the state of the protocol. */
  ghost predicate Sees(dir: Outbox.Directory, node: NodeId, db: Db, w: World) {
    Shows(dir, w.order, w.tmp) && OfNode(w.order, node) && db == w.db && w.clock <= MAX_INT64
  }

  ghost predicate SameOutbox(w: World, w': World) { BatchIds(w'.order) == BatchIds(w.order) && w'.clock == w.clock }

  /** What is fresh now and later than `s` is fresh afterwards too. */
  lemma StaysFresh(start: Db, w: World, w': World, s: Saving, later: Saving)
    requires OutboxInv(start, w) && OutboxInv(start, w') && Draws(w, w', s)
    requires Fresh(w, later) && later.id != s.id && s.time < later.time
    ensures Fresh(w', later)
  {
    UsedIds(start, w);
    UsedIds(start, w');
    assert later.id !in start.batches by { assert later.id !in w.db.batches; }
    assert forall i :: 0 <= i < |w.order| ==> w.order[i].batch.id in BatchIds(w.order);
    assert forall i :: 0 <= i < |w'.order| ==> w'.order[i].batch.id in BatchIds(w'.order);
  }

  /** The identifiers the database knows are the initial ones and some of those published. */
  lemma UsedIds(start: Db, w: World)
    requires OutboxInv(start, w)
    ensures forall id :: id in w.db.batches ==> id in start.batches || id in BatchIds(w.order)
    ensures forall id :: id in start.batches ==> id in w.db.batches
  {
    forall id | id in w.db.batches && id !in start.batches ensures id in BatchIds(w.order) {
      var b :| b in w.db.applied && b.id == id;
      var i :| 0 <= i < |w.db.applied| && w.db.applied[i] == b;
      assert w.order[i].batch == b;
    }
  }

  // ---------------------------------------------------------------- what an operation can lose

  function HandOf(w: World): Key -> int { k => InHand(w, k) }

  function CountersOf(e: Engine): Key -> int { k => InCounters(e, k) }

  /** What finds no counter on the engine that is back: all of it when none is back. */
  function Homeless(back: bool, existing: set<CounterKey>, held: Key -> int): Key -> int {
    (k: Key) => if back && (k.user, k.dir) in existing then 0 else held(k)
  }

  function Nothing(): Key -> int { (_: Key) => 0 }

  /** The loss of a full restart. Only a close error and a failed, unpublished save lose anything. */
  function RestartLoss(r: Restarted, existing: set<CounterKey>, held: Key -> int): Key -> int {
    match r
    case CloseFailed => held
    case SaveFailed(saved, back) => if saved.Unpublished? then Homeless(back, existing, held) else Nothing()
    case _ => Nothing()
  }

  function ShutdownLoss(saved: Option<Persisted>, held: Key -> int): Key -> int {
    if saved == Some(Unpublished) then held else Nothing()
  }

  lemma SameLoss(a: World, b: World, r: Restarted, existing: set<CounterKey>, f: Key -> int, g: Key -> int)
    requires Loses(a, b, RestartLoss(r, existing, f)) && forall k :: f(k) == g(k)
    ensures Loses(a, b, RestartLoss(r, existing, g))
  {
    forall k ensures RestartLoss(r, existing, f)(k) == RestartLoss(r, existing, g)(k) {}
  }

  lemma LosesNothing(w: World)
    ensures Loses(w, w, Nothing())
  {
    ReachesSelf(w);
  }

  /** The loss of the recovery from a failed save. */
  function RecoveryLoss(saved: Persisted, back: bool, existing: set<CounterKey>, w: World): Key -> int {
    RestartLoss(SaveFailed(saved, back), existing, HandOf(w))
  }

  lemma RecoveryLossIs(saved: Persisted, back: bool, existing: set<CounterKey>, w: World)
    ensures saved.Unpublished? ==> RecoveryLoss(saved, back, existing, w) == Homeless(back, existing, HandOf(w))
    ensures !saved.Unpublished? ==> RecoveryLoss(saved, back, existing, w) == Nothing()
  {
  }

  /** What the recovery from a failed save gives its caller. */
  ghost predicate Recovers(w: World, w': World, saved: Persisted, back: bool, existing: set<CounterKey>) {
    Loses(w, w', RecoveryLoss(saved, back, existing, w)) && SameOutbox(w, w')
  }

  lemma RecoversAfter(w: World, w1: World, w': World, saved: Persisted, back: bool, existing: set<CounterKey>)
    requires Lossless(w, w1) && w1.hand == w.hand && SameOutbox(w, w1) && Recovers(w1, w', saved, back, existing)
    ensures Recovers(w, w', saved, back, existing)
  {
    SameHandLoss(w, w1, w', saved, back, existing);
  }

  lemma GaveBack(w: World, w1: World, w': World, saved: Persisted, existing: set<CounterKey>)
    requires Calm(w, w1)
    requires if saved.Unpublished? then Loses(w1, w', Homeless(true, existing, HandOf(w1))) && SameStore(w1, w') else w' == w1
    ensures Recovers(w, w', saved, true, existing) && SameStore(w, w')
  {
    RecoveryLossIs(saved, true, existing, w1);
    if !saved.Unpublished? { LosesNothing(w1); }
    RecoversAfter(w, w1, w', saved, true, existing);
  }

  lemma SameHandLoss(w: World, w1: World, w': World, saved: Persisted, back: bool, existing: set<CounterKey>)
    requires Lossless(w, w1) && w1.hand == w.hand && Loses(w1, w', RecoveryLoss(saved, back, existing, w1))
    ensures Loses(w, w', RecoveryLoss(saved, back, existing, w))
  {
    LosesAfter(w, w1, w', RecoveryLoss(saved, back, existing, w1));
    forall k ensures RecoveryLoss(saved, back, existing, w)(k) == RecoveryLoss(saved, back, existing, w1)(k) {}
  }

  lemma FailedSaveLoss(w: World, w1: World, w': World, s: Saving, saved: Persisted, back: bool, existing: set<CounterKey>)
    requires Saves(w, w1, s, saved) && Loses(w1, w', RecoveryLoss(saved, back, existing, w1))
    ensures Loses(w, w', RecoveryLoss(saved, back, existing, w))
  {
    LosesAfter(w, w1, w', RecoveryLoss(saved, back, existing, w1));
    forall k ensures RecoveryLoss(saved, back, existing, w)(k) == RecoveryLoss(saved, back, existing, w1)(k) {}
  }

  // ---------------------------------------------------------------- what an operation achieves

  /** What of a key has been published, applied or not. */
  function Filed(w: World, k: Key): int { Sum(Parcels(w.order), k) }

  /** Everything that was counted at the start has been published, and nothing else. */
  ghost predicate FiledAll(w: World, w': World) { forall k :: Filed(w', k) == Filed(w, k) + InCounters(w.engine, k) }

  ghost predicate FiledHand(w: World, w': World) { forall k :: Filed(w', k) == Filed(w, k) + InHand(w, k) }

  ghost predicate SameBatches(a: seq<Published>, b: seq<Published>) {
    |a| == |b| && forall i :: 0 <= i < |a| ==> b[i].batch == a[i].batch
  }

  /** The database can take every batch that is still to come. */
  ghost predicate Ready(w: World) {
    forall i :: CommittedCount(w) <= i < |w.order| ==> Acceptable(w.db, w.order[i].batch)
  }

  ghost predicate NoReplayFault(r: Replaying) {
    !r.listFails && forall i :: r.outcomes(i) == Committed && r.removals(i) == Outbox.NoRemoveFault
  }

  /** A replay that meets no fault, no incomplete file and no batch the database refuses succeeds. */
  ghost predicate Replays(w: World, r: Replaying, ok: bool) { !w.tmp && NoReplayFault(r) && Ready(w) ==> ok }

  lemma SaveFiles(w: World, b: Batch, time: nat, synced: bool)
    requires w.hand.Some? && BatchOf(w.hand.value, b)
    ensures FiledHand(w, AfterSave(w, b, time, synced))
  {
    var p := Published(b, time, true, false);
    ParcelsSnoc(w.order, p);
    ParcelsSame(w.order + [p], Synced(w.order + [p]));
    forall k ensures Filed(AfterSave(w, b, time, synced), k) == Filed(w, k) + InHand(w, k) {
      SumSnoc(Parcels(w.order), ParcelOf(b), k);
      SumOne(ParcelOf(b), k);
    }
  }

  lemma NothingFiles(w: World)
    requires w.hand.Some? && w.hand.value.entries == []
    ensures FiledHand(w, w.(hand := None))
  {
    forall k ensures InHand(w, k) == 0 { SumOne(HandParcels(w.hand)[0], k); }
  }

  lemma SameFiled(w: World, w': World)
    requires SameBatches(w.order, w'.order)
    ensures (forall k :: Filed(w', k) == Filed(w, k)) && BatchIds(w'.order) == BatchIds(w.order)
  {
    assert BatchIds(w'.order) == BatchIds(w.order) by {
      assert forall i :: 0 <= i < |w.order| ==> w'.order[i].batch.id == w.order[i].batch.id;
    }
    ParcelsSame(w.order, w'.order);
  }

  // ---------------------------------------------------------------- drain and save

  lemma EmptyHoldsNothing(e: Engine, k: Key)
    requires Emptied(e)
    ensures InCounters(e, k) == 0
  {
  }

  lemma AfterFullDrain(w: World, ids: seq<UserId>)
    requires EngineInv(w) && w.hand.None? && DrainOrder(w.engine, ids) && DrainFrom(w.engine, ids).ok
    ensures var w' := AfterDrain(w, ids);
            && Emptied(w'.engine) && Registered(w'.hand.value.entries, w'.engine.counters)
            && forall k :: InHand(w', k) == InCounters(w.engine, k)
  {
    var w' := AfterDrain(w, ids);
    DrainFrames(w.engine, ids);
    forall c | c in w'.engine.counters ensures w'.engine.counters[c] == 0 {
      DrainLeavesNothing(w.engine, ids, c.0, c.1);
      assert c == (c.0, c.1);
    }
    DrainedAreRegistered(w.engine, ids);
    forall k ensures InHand(w', k) == InCounters(w.engine, k) {
      DrainCounted(w.engine, ids, k);
      EmptyHoldsNothing(w'.engine, k);
      SumOne(HandParcels(w'.hand)[0], k);
    }
  }

  ghost predicate MetNegative(e: Engine) { exists k :: k in e.counters && e.counters[k] < 0 }

  /** A drain step. It fails only on a negative counter, which takes more than 2^63 bytes of a key. */
  lemma DrainStep(start: Db, w: World, ids: seq<UserId>)
    requires Healthy(start, w) && w.hand.None? && DrainOrder(w.engine, ids)
    ensures var w' := AfterDrain(w, ids);
            && Healthy(start, w') && Lossless(w, w') && SameStore(w, w') && SameEngine(w.engine, w'.engine)
            && (!DrainFrom(w.engine, ids).ok ==> MetNegative(w.engine) && !Bounded(w'))
  {
    var w' := AfterDrain(w, ids);
    assert w' == Next(w, Step.Drain(ids));
    TakeQuietStep(start, w, Step.Drain(ids));
    DrainFrames(w.engine, ids);
    if !DrainFrom(w.engine, ids).ok { var k := FailedDrainMetNegative(w.engine, ids); }
    if Bounded(w') {
      BoundedEarlier(w, w');
      DrainOk(w.engine, ids);
    }
  }

  /** Everything a drain step gives its caller. */
  ghost predicate Drains(w: World, w': World, entries: Option<seq<Entry>>) {
    && Lossless(w, w') && SameStore(w, w') && SameEngine(w.engine, w'.engine)
    && (entries.Some? ==> HandsOver(w, w', entries.value))
    && (entries.None? ==> w'.hand.None? && MetNegative(w.engine) && !Bounded(w'))
  }

  /** All that was counted is in hand, and its counters still exist. */
  ghost predicate HandsOver(w: World, w': World, entries: seq<Entry>) {
    && w'.hand == Some(Hand(w.engine.node, entries)) && Emptied(w'.engine)
    && Registered(entries, w'.engine.counters) && forall k :: InHand(w', k) == InCounters(w.engine, k)
  }

  /** All that was counted is still in hand, and its counters still exist, when clients act meanwhile. */
  ghost predicate Holding(w: World, w': World, entries: seq<Entry>) {
    && w'.hand == Some(Hand(w.engine.node, entries)) && Registered(entries, w'.engine.counters)
    && forall k :: InHand(w', k) == InCounters(w.engine, k)
  }

  /** What draining, and serving clients meanwhile, gives its caller. */
  ghost predicate DrainsAndServes(w: World, w': World, entries: Option<seq<Entry>>) {
    && Lossless(w, w') && SameStore(w, w') && SameEngine(w.engine, w'.engine)
    && (entries.Some? ==> Holding(w, w', entries.value))
    && (entries.None? ==> w'.hand.None? && MetNegative(w.engine) && !Bounded(w'))
  }

  lemma DrainThenServe(w: World, w1: World, w': World, entries: Option<seq<Entry>>)
    requires Drains(w, w1, entries) && Calm(w1, w')
    ensures DrainsAndServes(w, w', entries)
  {
    LosslessThrough(w, w1, w');
    if entries.None? && Bounded(w') { BoundedEarlier(w1, w'); }
  }

  lemma DrainOutcome(start: Db, w: World, ids: seq<UserId>, entries: Option<seq<Entry>>)
    requires Healthy(start, w) && w.hand.None? && DrainOrder(w.engine, ids)
    requires var d := DrainFrom(w.engine, ids); entries == if d.ok then Some(d.entries) else None
    ensures Healthy(start, AfterDrain(w, ids)) && Drains(w, AfterDrain(w, ids), entries)
  {
    DrainStep(start, w, ids);
    if entries.Some? { AfterFullDrain(w, ids); }
  }

  /** Restore on the engine the entries were drained from. */
  lemma PutBackStep(start: Db, w: World, entries: seq<Entry>)
    requires Healthy(start, w) && w.hand == Some(Hand(w.engine.node, entries)) && Registered(entries, w.engine.counters)
    ensures Restorable(entries) && Int64Counters(w.engine) && w.hand.Some?
    ensures var w' := AfterRestore(w);
            Healthy(start, w') && Lossless(w, w') && SameStore(w, w') && SameEngine(w.engine, w'.engine)
  {
    ShapeIsRestorable(entries);
    RestoreIsLossless(start, w);
    RestoreFrames(w.engine, entries);
  }

  /** A validated node, a clock after 1970, and no user whose two directions overflow together. */
  ghost predicate Sendable(h: Hand, s: Saving) {
    NodeValidated(h.node) && s.createdAt > 0 && forall e :: e in h.entries ==> !Overflowing(e)
  }

  /** Without a fault a save succeeds for every hand that can be sent, once the store accepts it. */
  ghost predicate Succeeds(w: World, s: Saving, accepted: bool, r: Persisted) {
    s.fault == Outbox.NoFault ==> !r.Unsynced? && (w.hand.Some? && Sendable(w.hand.value, s) && accepted ==> r.Stored?)
  }

  /** Nothing stands against saving what is in hand on the node `home`. */
  ghost predicate Saveable(w: World, s: Saving, home: NodeId) {
    && s.fault == Outbox.NoFault && !w.tmp && w.hand.Some? && w.hand.value.node.id == home
    && Sendable(w.hand.value, s)
  }

  /** Nothing stands against draining and saving what is counted: no negative counter, a validated node, no
      user whose two directions overflow together, no incomplete file and no fault. */
  ghost predicate Collectable(w: World, s: Saving, home: NodeId) {
    && s.fault == Outbox.NoFault && !w.tmp && !MetNegative(w.engine) && s.createdAt > 0
    && NodeValidated(w.engine.node) && w.engine.node.id == home
    && forall u :: Held(w.engine, u, Up) + Held(w.engine, u, Down) <= MAX_INT64
  }

  lemma EntryInHand(w: World, e: Entry, d: Direction)
    requires Sane(w) && w.hand.Some? && e in w.hand.value.entries
    ensures InHand(w, Key(e.user, d, w.hand.value.node.trafficRate)) == Amount(e, d)
  {
    var h := w.hand.value;
    SumOne(HandParcels(w.hand)[0], Key(e.user, d, h.node.trafficRate));
    assert Mentioned(h.entries, e.user);
    var k := PresentUser(h.entries, 1.0, e.user, d);
    var i :| 0 <= i < |h.entries| && h.entries[i] == e;
    SameUserSameEntry(h.entries, i, k, e.user, d);
  }

  lemma SameUserSameEntry(xs: seq<Entry>, i: nat, k: nat, u: UserId, d: Direction)
    requires Rising(xs) && i < |xs| && k < |xs| && xs[i].user == u && RawOf(xs, u, d) == Amount(xs[k], d)
    requires xs[k].user == u
    ensures RawOf(xs, u, d) == Amount(xs[i], d)
  {
  }

  /** What can be collected can be saved once it is drained. */
  lemma CollectableIsSaveable(start: Db, w: World, w1: World, entries: seq<Entry>, s: Saving, home: NodeId)
    requires Collectable(w, s, home) && Inv(start, w1) && Holding(w, w1, entries) && w1.tmp == w.tmp
    ensures Saveable(w1, s, home)
  {
    forall e | e in entries ensures !Overflowing(e) {
      EntryInHand(w1, e, Up);
      EntryInHand(w1, e, Down);
      var rate := w.engine.node.trafficRate;
      assert InHand(w1, Key(e.user, Up, rate)) == InCounters(w.engine, Key(e.user, Up, rate));
      assert InHand(w1, Key(e.user, Down, rate)) == InCounters(w.engine, Key(e.user, Down, rate));
    }
  }

  lemma SendableIsValid(w: World, s: Saving)
    requires Sane(w) && w.hand.Some?
    ensures var b := MakeBatch(w.hand.value.node, s.id, s.createdAt, SortEntries(w.hand.value.entries), s.hash);
            Sendable(w.hand.value, s) ==> HeaderValid(b) && EntriesValid(b.entries)
  {
    var h := w.hand.value;
    if Sendable(h, s) { DrainAcceptedIff(h.node, s.id, s.createdAt, h.entries, s.hash); }
  }

  lemma ValidIsInt64(b: Batch)
    requires EntriesValid(b.entries)
    ensures forall e :: e in b.entries ==> IsInt64(e.up) && IsInt64(e.down)
  {
    forall e | e in b.entries ensures IsInt64(e.up) && IsInt64(e.down) {
      var i :| 0 <= i < |b.entries| && b.entries[i] == e;
      assert EntryValid(b.entries[i]);
    }
  }

  lemma NewBatchIsOfHand(w: World, s: Saving, b: Batch)
    requires Sane(w) && w.hand.Some? && Fresh(w, s)
    requires b == MakeBatch(w.hand.value.node, s.id, s.createdAt, SortEntries(w.hand.value.entries), s.hash)
    requires EntriesValid(b.entries)
    ensures BatchOf(w.hand.value, b) && FreshId(w, b.id)
  {
    SortOfRising(w.hand.value.entries);
  }

  /** Only the outbox and the hand changed. */
  ghost predicate OnlySaved(w: World, w': World) { w'.engine == w.engine && w'.db == w.db && w'.down == w.down }

  /** What the rest of a full restart gives its caller, once the save is done. */
  ghost predicate Proceeds(w: World, w': World, saved: Persisted, r: Restarted, existing: set<CounterKey>) {
    && SameOutbox(w, w')
    && (saved.Stored? ==> Lossless(w, w') && !r.SaveFailed?)
    && (!saved.Stored? ==> r.SaveFailed? && r.saved == saved && Recovers(w, w', saved, r.back, existing))
  }

  lemma SavedThen(
    w: World, w1: World, w': World, s: Saving, saved: Persisted, r: Restarted, existing: set<CounterKey>)
    requires Saves(w, w1, s, saved) && Proceeds(w1, w', saved, r, existing) && !r.CloseFailed?
    ensures Loses(w, w', RestartLoss(r, existing, HandOf(w))) && Draws(w, w', s)
  {
    if saved.Stored? { LosslessThrough(w, w1, w'); } else { FailedSaveLoss(w, w1, w', s, saved, r.back, existing); }
  }

  /** What a save gives its caller: unless nothing was published, exactly what was in hand is. */
  ghost predicate Saves(w: World, w': World, s: Saving, r: Persisted) {
    && Lossless(w, w') && OnlySaved(w, w') && Draws(w, w', s)
    && (r.Unpublished? ==> w'.hand == w.hand && w'.order == w.order)
    && (!r.Unpublished? ==> w'.hand.None? && FiledHand(w, w'))
  }

  lemma SaveDraws(w: World, b: Batch, s: Saving, synced: bool)
    requires b.id == s.id
    ensures Draws(w, AfterSave(w, b, s.time, synced), s)
  {
    var order := w.order + [Published(b, s.time, true, false)];
    assert BatchIds(Synced(order)) <= BatchIds(order);
    assert BatchIds(order) <= BatchIds(w.order) + {s.id};
  }

  lemma SaveIsStep(start: Db, w: World, b: Batch, s: Saving, synced: bool)
    requires Healthy(start, w) && w.hand.Some? && w.hand.value.entries != [] && BatchOf(w.hand.value, b)
    requires b.id == s.id && Fresh(w, s)
    ensures Healthy(start, AfterSave(w, b, s.time, synced)) && Lossless(w, AfterSave(w, b, s.time, synced))
  {
    TakeQuietStep(start, w, Save(b, s.time, synced));
  }

  lemma SaveOutcome(start: Db, w: World, b: Batch, s: Saving, synced: bool)
    requires Healthy(start, w) && w.hand.Some? && w.hand.value.entries != [] && BatchOf(w.hand.value, b)
    requires b.id == s.id && Fresh(w, s)
    ensures var w' := AfterSave(w, b, s.time, synced);
            Healthy(start, w') && Saves(w, w', s, if synced then Stored else Unsynced)
  {
    SaveIsStep(start, w, b, s, synced);
    SaveFiles(w, b, s.time, synced);
    SaveDraws(w, b, s, synced);
  }

  /** The directory a published save leaves. */
  lemma SaveSeen(start: Db, w: World, b: Batch, s: Saving, synced: bool, dir: Outbox.Directory, node: NodeId)
    requires OutboxInv(start, AfterSave(w, b, s.time, synced)) && Sees(dir, node, w.db, w) && Fresh(w, s)
    requires b.id == s.id && b.node == node && Outbox.TempName(s.time, b.id) !in dir
    ensures Sees(Outbox.Renamed(dir, Outbox.TempName(s.time, b.id), Outbox.FileName(s.time, b.id), b), node, w.db,
                 AfterSave(w, b, s.time, synced))
  {
    Rises(AfterSave(w, b, s.time, synced));
    PublishShows(dir, w, b, s.time, synced);
  }

  /** The directory a failed save leaves, with its temporary file. */
  lemma FailedSaveSeen(w: World, s: Saving, dir: Outbox.Directory, dir': Outbox.Directory, node: NodeId)
    requires Distinct(w) && Sees(dir, node, w.db, w)
    requires dir' == dir || dir' == dir[Outbox.TempName(s.time, s.id) := Outbox.Regular(None)]
    ensures Sees(dir', node, w.db, w.(tmp := w.tmp || dir' != dir))
  {
    Rises(w);
    FailedSaveShows(dir, w.order, w.tmp, s.time, s.id);
  }

  lemma NothingOutcome(start: Db, w: World, s: Saving)
    requires Healthy(start, w) && w.hand.Some? && w.hand.value.entries == []
    ensures Healthy(start, w.(hand := None)) && Saves(w, w.(hand := None), s, Stored)
  {
    TakeQuietStep(start, w, NothingToSave);
    NothingFiles(w);
  }

  /** A save that published nothing, with or without a temporary file left behind. */
  lemma FailedSaveOutcome(start: Db, w: World, s: Saving, left: bool)
    requires Healthy(start, w) && w.hand.Some?
    ensures var w' := w.(tmp := w.tmp || left); Healthy(start, w') && Saves(w, w', s, Unpublished)
  {
    TakeQuietStep(start, w, SaveFails(left));
  }

  /** What persisting with the fallback of a restore gives its caller. */
  ghost predicate SavesOrReturns(w: World, w': World, s: Saving, r: Persisted) {
    && Lossless(w, w') && w'.hand.None? && SameEngine(w.engine, w'.engine) && Draws(w, w', s)
    && (r.Unpublished? ==> w'.order == w.order)
    && (!r.Unpublished? ==> FiledHand(w, w'))
  }

  /** What draining and persisting gives its caller: whatever fails, nothing is lost, and either all that
      was counted has been published or the outbox is as it was. */
  ghost predicate Collects(w: World, w': World, s: Saving, r: Collected) {
    && Lossless(w, w') && SameEngine(w.engine, w'.engine) && Draws(w, w', s)
    && (r.DrainFailed? ==> MetNegative(w.engine) && !Bounded(w'))
    && (r.AllCollected? ==> FiledAll(w, w'))
    && (FiledAll(w, w') || w'.order == w.order)
  }

  /** The same, when clients go on afterwards. */
  ghost predicate CollectsAndServes(w: World, w': World, s: Saving, r: Collected) {
    Lossless(w, w') && Draws(w, w', s) && (r.AllCollected? ==> FiledAll(w, w'))
  }

  lemma CollectThenServe(w: World, w1: World, w': World, s: Saving, r: Collected)
    requires Collects(w, w1, s, r) && Calm(w1, w')
    ensures CollectsAndServes(w, w', s, r)
  {
    LosslessThrough(w, w1, w');
  }

  /** What a restore to the same engine gives its caller. */
  ghost predicate Returns(w: World, w': World) {
    Lossless(w, w') && w'.hand.None? && SameStore(w, w') && SameEngine(w.engine, w'.engine)
  }

  lemma SaveOrReturn(w: World, w1: World, w': World, s: Saving, r: Persisted)
    requires Saves(w, w1, s, r) && (if r.Unpublished? then Returns(w1, w') else w' == w1)
    ensures SavesOrReturns(w, w', s, r)
  {
    if r.Unpublished? { LosslessThrough(w, w1, w'); }
  }

  lemma DrainFailure(w: World, w': World, s: Saving)
    requires DrainsAndServes(w, w', None)
    ensures Collects(w, w', s, DrainFailed)
  {
  }

  lemma CollectOutcome(w: World, w1: World, w': World, entries: seq<Entry>, s: Saving, saved: Persisted)
    requires DrainsAndServes(w, w1, Some(entries))
    requires SavesOrReturns(w1, w', s, saved)
    ensures Collects(w, w', s, if saved.Stored? then AllCollected else PersistFailed)
  {
    LosslessThrough(w, w1, w');
    if !saved.Unpublished? {
      forall k ensures Filed(w', k) == Filed(w, k) + InCounters(w.engine, k) {
        assert Filed(w', k) == Filed(w1, k) + InHand(w1, k);
      }
    }
  }

  // ---------------------------------------------------------------- replay

  /** An attempt changes which batches are committed, not which ones the database can take. */
  lemma AttemptKeepsReady(start: Db, w: World, i: nat, o: Outcome)
    requires OutboxInv(start, w) && FirstVisible(w.order, i)
    ensures var w' := AfterReplayApply(w, i, o); CommittedCount(w) <= CommittedCount(w') && (Ready(w) ==> Ready(w'))
  {
    ReplayAdvances(start, w, i, o);
  }

  lemma BatchNonNegative(w: World, i: nat)
    requires i < |w.order| && EntriesValid(w.order[i].batch.entries)
    ensures NonNegative(w.order[i].batch.entries)
  {
    var xs := w.order[i].batch.entries;
    forall e | e in xs ensures 0 <= e.up <= MAX_INT64 && 0 <= e.down <= MAX_INT64 {
      var j :| 0 <= j < |xs| && xs[j] == e;
      assert EntryValid(xs[j]);
    }
  }

  lemma ReadyIsReported(start: Db, w: World, i: nat)
    requires OutboxInv(start, w) && i < |w.order| && Ready(w)
    ensures Reported(w.db, w.order[i].batch, Committed)
  {
    CommittedIff(start, w, i);
    if i < CommittedCount(w) { RepeatIsHarmless(start, w.db, w.order[i].batch, Committed); }
  }

  /** What an attempt on the first file gives its caller. */
  ghost predicate Tries(w: World, i: nat, o: Outcome)
    requires i < |w.order|
  {
    && Lossless(w, AfterReplayApply(w, i, o))
    && (Ready(w) ==> Ready(AfterReplayApply(w, i, o)) && (o == Committed ==> Reported(w.db, w.order[i].batch, o)))
  }

  /** ApplyBatch on the first file. */
  lemma ApplyStep(start: Db, w: World, i: nat, o: Outcome)
    requires Healthy(start, w) && !w.tmp && FirstVisible(w.order, i)
    ensures Healthy(start, AfterReplayApply(w, i, o)) && Tries(w, i, o)
  {
    assert AfterReplayApply(w, i, o) == Next(w, ReplayApply(i, o));
    TakeQuietStep(start, w, ReplayApply(i, o));
    AttemptKeepsReady(start, w, i, o);
    if Ready(w) { ReadyIsReported(start, w, i); }
  }

  lemma RemoveKeepsRest(w: World, synced: bool)
    requires w.acked.Some? && FirstVisible(w.order, w.acked.value)
    ensures SameBatches(w.order, AfterReplayRemove(w, synced).order)
    ensures Visible(w.order) == [PublicationOf(w.order[w.acked.value])] + Visible(AfterReplayRemove(w, synced).order)
  {
    FirstHeads(w.order, w.acked.value);
    VisibleSynced(Hidden(w.order, w.acked.value));
  }

  lemma RemoveIsStep(start: Db, w: World, synced: bool)
    requires Healthy(start, w) && w.acked.Some? && w.acked.value < |w.order|
    ensures Healthy(start, AfterReplayRemove(w, synced)) && Lossless(w, AfterReplayRemove(w, synced))
  {
    assert AfterReplayRemove(w, synced) == Next(w, ReplayRemove(synced));
    TakeQuietStep(start, w, ReplayRemove(synced));
  }

  /** The file of a visible publication is there and can be removed. */
  lemma FileIsThere(dir: Outbox.Directory, order: seq<Published>, tmp: bool, i: nat)
    requires Shows(dir, order, tmp) && FirstVisible(order, i)
    ensures NameAt(order[i]) in dir && Outbox.HasSuffix(NameAt(order[i]), Outbox.JSON)
  {
    Outbox.SuffixOfNames(order[i].time, order[i].batch.id);
    assert Names(order)[i] in dir;
  }

  /** What a removal gives its caller. */
  ghost predicate Removes(w: World, w': World, ok: bool)
    requires w.acked.Some? && w.acked.value < |w.order|
  {
    && Lossless(w, w') && w'.engine == w.engine && w'.hand == w.hand && w'.tmp == w.tmp && w'.db == w.db
    && w'.clock == w.clock && SameBatches(w.order, w'.order)
    && (ok ==> Visible(w.order) == [PublicationOf(w.order[w.acked.value])] + Visible(w'.order))
  }

  lemma SameBatchesSameNode(a: seq<Published>, b: seq<Published>, node: NodeId)
    requires SameBatches(a, b) && OfNode(a, node)
    ensures OfNode(b, node)
  {
  }

  /** Remove of the first file: the other files stay, in their order. */
  lemma RemoveOutcome(start: Db, w: World, synced: bool)
    requires Healthy(start, w) && w.acked.Some? && FirstVisible(w.order, w.acked.value)
    ensures Healthy(start, AfterReplayRemove(w, synced)) && Removes(w, AfterReplayRemove(w, synced), true)
  {
    RemoveIsStep(start, w, synced);
    RemoveKeepsRest(w, synced);
  }

  lemma RemoveSeen(w: World, synced: bool, dir: Outbox.Directory, node: NodeId, db: Db)
    requires Distinct(w) && w.acked.Some? && FirstVisible(w.order, w.acked.value) && Sees(dir, node, db, w)
    ensures Sees(dir - {NameAt(w.order[w.acked.value])}, node, db, AfterReplayRemove(w, synced))
  {
    Rises(w);
    UnlinkShows(dir, w, synced);
    RemoveKeepsRest(w, synced);
    SameBatchesSameNode(w.order, AfterReplayRemove(w, synced).order, node);
  }

  /** The state a removal of the first file leads to. */
  function AfterRemoval(w: World, removal: Outbox.RemoveFault): World
    requires w.acked.Some? && w.acked.value < |w.order|
  {
    if removal == Outbox.UnlinkFails then w else AfterReplayRemove(w, removal == Outbox.NoRemoveFault)
  }

  lemma RemovalOutcome(
    start: Db, w: World, removal: Outbox.RemoveFault, dir: Outbox.Directory, node: NodeId, db: Db)
    requires Healthy(start, w) && w.acked.Some? && FirstVisible(w.order, w.acked.value) && Sees(dir, node, db, w)
    ensures Healthy(start, AfterRemoval(w, removal))
    ensures Removes(w, AfterRemoval(w, removal), removal == Outbox.NoRemoveFault)
    ensures var dir' := if removal == Outbox.UnlinkFails then dir else dir - {NameAt(w.order[w.acked.value])};
            Sees(dir', node, db, AfterRemoval(w, removal))
  {
    if removal == Outbox.UnlinkFails {
      ReachesSelf(w);
    } else {
      RemoveOutcome(start, w, removal == Outbox.NoRemoveFault);
      RemoveSeen(w, removal == Outbox.NoRemoveFault, dir, node, db);
    }
  }

  /** The file is that of the first visible publication. */
  ghost predicate Heads(file: Outbox.BatchFile, order: seq<Published>) {
    Visible(order) != [] && file.name == Outbox.NameOf(Visible(order)[0]) && file.batch == Visible(order)[0].batch
  }

  /** The first visible publication is gone, the others are as they were. */
  ghost predicate Advances(order: seq<Published>, order': seq<Published>) {
    Visible(order) != [] && Visible(order') == Visible(order)[1..]
  }

  /** What one file of a replay gives its caller. */
  ghost predicate ReplaysOne(w: World, w': World, b: Batch, o: Outcome, removal: Outbox.RemoveFault, ok: bool) {
    && w'.engine == w.engine && Undisturbed(w, w') && w'.db == Attempt(w.db, b, o)
    && (ok <==> Reported(w.db, b, o) && removal == Outbox.NoRemoveFault)
    && (ok ==> Advances(w.order, w'.order))
    && (Ready(w) && o == Committed && removal == Outbox.NoRemoveFault ==> ok)
  }

  lemma NotReported(w: World, i: nat, o: Outcome, removal: Outbox.RemoveFault)
    requires i < |w.order| && Tries(w, i, o) && !Reported(w.db, w.order[i].batch, o)
    ensures ReplaysOne(w, AfterReplayApply(w, i, o), w.order[i].batch, o, removal, false)
  {
  }

  lemma ReportedAndRemoved(w: World, i: nat, o: Outcome, removal: Outbox.RemoveFault, w': World)
    requires FirstVisible(w.order, i) && Tries(w, i, o) && Reported(w.db, w.order[i].batch, o)
    requires Removes(AfterReplayApply(w, i, o), w', removal == Outbox.NoRemoveFault)
    ensures ReplaysOne(w, w', w.order[i].batch, o, removal, removal == Outbox.NoRemoveFault)
  {
    LosslessThrough(w, AfterReplayApply(w, i, o), w');
  }

  /** The files from the i-th on are those of the visible publications. */
  ghost predicate ListsFrom(files: seq<Outbox.BatchFile>, i: nat, order: seq<Published>) {
    i <= |files| && Lists(files[i..], Visible(order))
  }

  lemma ListsAll(files: seq<Outbox.BatchFile>, order: seq<Published>)
    requires Lists(files, Visible(order))
    ensures ListsFrom(files, 0, order)
  {
    assert files[0..] == files;
  }

  lemma ListsNone(files: seq<Outbox.BatchFile>, order: seq<Published>)
    requires ListsFrom(files, |files|, order)
    ensures Visible(order) == []
  {
  }

  lemma ListedHere(dir: Outbox.Directory, w: World, files: seq<Outbox.BatchFile>)
    requires Distinct(w) && w.clock <= MAX_INT64 && Shows(dir, w.order, w.tmp) && !w.tmp && Outbox.IsListing(dir, files)
    ensures ListsFrom(files, 0, w.order)
  {
    Rises(w);
    ListShows(dir, w.order, files);
    ListsAll(files, w.order);
  }

  lemma ListedAll(start: Db, w: World, files: seq<Outbox.BatchFile>)
    requires OutboxInv(start, w) && ListsFrom(files, |files|, w.order)
    ensures AllApplied(w)
  {
    ListsNone(files, w.order);
    NoneVisible(start, w);
  }

  lemma RefusedHere(dir: Outbox.Directory, w: World, node: NodeId)
    requires Distinct(w) && w.clock <= MAX_INT64 && Shows(dir, w.order, w.tmp) && OfNode(w.order, node)
    ensures Outbox.AllListable(dir, node) <==> !w.tmp
    ensures w.tmp <==> Incomplete(dir)
  {
    Rises(w);
    ListRefusedIff(dir, w.order, w.tmp, node);
  }

  lemma ListHeads(files: seq<Outbox.BatchFile>, i: nat, order: seq<Published>)
    requires i < |files| && ListsFrom(files, i, order)
    ensures Heads(files[i], order)
  {
    assert files[i..][0] == files[i];
  }

  lemma ListAdvances(files: seq<Outbox.BatchFile>, i: nat, order: seq<Published>, order': seq<Published>)
    requires i < |files| && ListsFrom(files, i, order) && Advances(order, order')
    ensures ListsFrom(files, i + 1, order')
  {
    assert files[i + 1..] == files[i..][1..];
  }

  lemma NextIsVisible(w: World)
    requires Ordered(w) && CommittedCount(w) < |w.order|
    ensures w.order[CommittedCount(w)].visible
  {
  }

  lemma NoneVisible(start: Db, w: World)
    requires OutboxInv(start, w) && Visible(w.order) == []
    ensures AllApplied(w)
  {
    NothingVisible(w.order);
    if CommittedCount(w) < |w.order| { NextIsVisible(w); }
  }

  /** Nothing lost, and the engine only served its clients. */
  ghost predicate Undisturbed(w: World, w': World) {
    && Lossless(w, w') && OnlyServed(w.engine, w'.engine) && w'.hand == w.hand && w'.tmp == w.tmp
    && SameBatches(w.order, w'.order) && w'.clock == w.clock && (Ready(w) ==> Ready(w'))
  }

  lemma UndisturbedSelf(w: World)
    ensures Undisturbed(w, w)
  {
    ReachesSelf(w);
  }

  lemma UndisturbedThrough(a: World, b: World, c: World)
    requires Undisturbed(a, b) && Undisturbed(b, c)
    ensures Undisturbed(a, c)
  {
    LosslessThrough(a, b, c);
  }

  lemma ReplayTurn(from: World, w: World, w1: World, w': World)
    requires Undisturbed(from, w) && Undisturbed(w, w1) && Calm(w1, w')
    ensures Undisturbed(from, w')
  {
    CalmIsUndisturbed(w1, w');
    UndisturbedThrough(from, w, w1);
    UndisturbedThrough(from, w1, w');
  }

  lemma CalmIsUndisturbed(a: World, b: World)
    requires Calm(a, b)
    ensures Undisturbed(a, b)
  {
  }

  /** What the second half of Apply gives its caller, the death of the process included. */
  ghost predicate Commits(w: World, w': World, registry: SessionTable.Table, next: Snapshot, r: Reloaded) {
    && (r.Panicked? || r.Reloaded?) && (r.Panicked? <==> SessionTable.UpdatePanics(registry, next))
    && (r.Panicked? ==> w' == AfterCrash(w, false) && Loses(w, w', CountersOf(w.engine)))
    && (r.Reloaded? ==> Lossless(w, w')) && SameOutbox(w, w')
  }

  /** The end of an incremental reload. The process dies only when the registry's update panics, always
      when nothing else fails first, and then loses what the counters hold; otherwise nothing is lost. */
  ghost predicate ReloadOutcome(
    w: World, w': World, registry: SessionTable.Table, next: Snapshot, r: Reloaded, fault: nat -> bool)
  {
    && (r.Panicked? ==> SessionTable.UpdatePanics(registry, next))
    && (r.Panicked? ==> w' == AfterCrash(w, false) && Loses(w, w', CountersOf(w.engine)))
    && (r.Reloaded? ==> !SessionTable.UpdatePanics(registry, next))
    && (!r.Panicked? ==> Lossless(w, w')) && SameOutbox(w, w')
    && (!r.NotCollected? && (forall n :: !fault(n)) ==>
          r == if SessionTable.UpdatePanics(registry, next) then Panicked else Reloaded)
  }

  function Stopped(w: World): World { w.(engine := w.engine.(running := false)) }

  lemma StopStep(start: Db, w: World)
    requires Healthy(start, w)
    ensures Healthy(start, Stopped(w)) && Lossless(w, Stopped(w))
  {
    TakeQuietStep(start, w, Stop);
  }

  function Dropped(w: World): World { w.(hand := None, lost := w.lost + HandParcels(w.hand)) }

  lemma DropStep(start: Db, w: World)
    requires Healthy(start, w) && w.hand.Some?
    ensures Healthy(start, Dropped(w)) && Loses(w, Dropped(w), HandOf(w))
  {
    TakeStep(start, w, DropHand);
  }

  lemma NothingDropped(w: World)
    requires w.hand.None?
    ensures Dropped(w) == w
  {
    assert w.lost + HandParcels(w.hand) == w.lost;
  }

  lemma DroppedRecovers(start: Db, w: World, saved: Persisted)
    requires Healthy(start, w) && (saved.Unpublished? <==> w.hand.Some?)
    ensures Healthy(start, Dropped(w)) && Recovers(w, Dropped(w), saved, false, {})
  {
    RecoveryLossIs(saved, false, {}, w);
    if saved.Unpublished? {
      DropStep(start, w);
    } else {
      NothingDropped(w);
      LosesNothing(w);
    }
  }

  /** The engine is another one, or has adopted another snapshot; nothing else happened. */
  ghost predicate Replaces(w: World, w': World) {
    Lossless(w, w') && w'.hand == w.hand && SameFiles(w, w')
  }

  function Launched(w: World, s: Snapshot): World { w.(engine := FreshEngine(s, {}), down := false) }

  lemma LaunchStep(start: Db, w: World, s: Snapshot)
    requires Healthy(start, w) && !w.engine.running && Emptied(w.engine) && SnapshotValid(s)
    ensures Healthy(start, Launched(w, s)) && Replaces(w, Launched(w, s))
    ensures Launched(w, s).engine == Engine(s.node, IdsOf(s.users), {}, map[], {}, true)
  {
    TakeQuietStep(start, w, Start(s, {}));
    var none: set<CounterKey> := {};
    assert (map k | k in none :: 0) == map[];
  }

  /** What closing gives its caller. */
  ghost predicate Closes(w: World, w': World) {
    && Lossless(w, w') && SameStore(w, w') && w'.hand == w.hand && !w'.engine.running
    && w'.engine.node == w.engine.node && w'.engine.users == w.engine.users && w'.engine.counters == w.engine.counters
  }

  lemma StopThenServe(w: World, w': World)
    requires Lossless(w, Stopped(w)) && Calm(Stopped(w), w')
    ensures Closes(w, w')
  {
    LosslessThrough(w, Stopped(w), w');
  }

  /** What closing and draining gives its caller. */
  ghost predicate ClosesAndDrains(w: World, w': World, entries: Option<seq<Entry>>) {
    && Lossless(w, w') && SameStore(w, w') && !w'.engine.running
    && (entries.Some? ==> Holding(w, w', entries.value) && Emptied(w'.engine))
    && (entries.None? ==> w'.hand.None? && MetNegative(w.engine) && !Bounded(w'))
  }

  lemma CloseThenDrain(w: World, w1: World, w': World, entries: Option<seq<Entry>>)
    requires Closes(w, w1) && Drains(w1, w', entries)
    ensures ClosesAndDrains(w, w', entries)
  {
    LosslessThrough(w, w1, w');
  }

  lemma PutBackOnNewStep(start: Db, w: World, entries: seq<Entry>)
    requires Healthy(start, w) && w.hand == Some(Hand(w.engine.node, entries))
    ensures Restorable(entries) && Int64Counters(w.engine)
    ensures Healthy(start, AfterRestore(w)) && SameStore(w, AfterRestore(w))
    ensures Loses(w, AfterRestore(w), Homeless(true, w.engine.counters.Keys, HandOf(w)))
  {
    ShapeIsRestorable(entries);
    TakeStep(start, w, Restore);
    RestoreFrames(w.engine, entries);
  }

  /** How a reload went. `last` and `registry` are the states in which Apply began, `existing` the
      counters of the engine that came back. */
  datatype ReloadReport =
    | Incremental(result: Reloaded, last: World, registry: SessionTable.Table)
    | Full(outcome: Restarted, existing: set<CounterKey>)

  function ReloadLoss(how: ReloadReport, held: Key -> int): Key -> int {
    match how
    case Incremental(r, last, _) => if r.Panicked? then CountersOf(last.engine) else Nothing()
    case Full(r, existing) => RestartLoss(r, existing, held)
  }

  lemma IncrementalLoss(
    w: World, last: World, w': World, registry: SessionTable.Table, next: Snapshot, r: Reloaded, fault: nat -> bool)
    requires Lossless(w, last) && ReloadOutcome(last, w', registry, next, r, fault)
    ensures Loses(w, w', if r.Panicked? then CountersOf(last.engine) else Nothing())
  {
    if r.Panicked? { LosesAfter(w, last, w', CountersOf(last.engine)); } else { LosslessThrough(w, last, w'); }
  }

  /** How the events outside decide a full restart once the old engine is drained. */
  datatype Plan = Plan(closeFails: bool, starts: bool, back: bool)

  function Planned(p: Plan): Restarted { if p.starts then Restarted else Rejected(p.back) }

  /** What a full restart from the drain on gives its caller. */
  ghost predicate HandsOn(
    w: World, w': World, s: Saving, p: Plan, home: NodeId, r: Restarted, existing: set<CounterKey>)
  {
    && Loses(w, w', RestartLoss(r, existing, HandOf(w))) && Draws(w, w', s)
    && (r.CloseFailed? <==> p.closeFails) && (Saveable(w, s, home) ==> !r.SaveFailed?)
    && (r.Restarted? || r.Rejected? ==> r == Planned(p))
  }

  /** What a full restart gives its caller: its exact loss in each outcome, and which outcome each failure
      gives. */
  ghost predicate Restarts(
    w: World, w': World, s: Saving, p: Plan, home: NodeId, r: Restarted, existing: set<CounterKey>)
  {
    && Loses(w, w', RestartLoss(r, existing, CountersOf(w.engine))) && Draws(w, w', s)
    && (p.closeFails ==> r.CloseFailed?) && (r.CloseFailed? ==> p.closeFails || (MetNegative(w.engine) && !Bounded(w')))
    && (r.Restarted? || r.Rejected? ==> r == Planned(p))
    && (Collectable(w, s, home) && !p.closeFails ==> r == Planned(p))
  }

  lemma DrainedRestart(
    start: Db, w: World, w1: World, w': World, entries: seq<Entry>, s: Saving, p: Plan, home: NodeId, r: Restarted,
    existing: set<CounterKey>)
    requires ClosesAndDrains(w, w1, Some(entries)) && HandsOn(w1, w', s, p, home, r, existing) && Inv(start, w1)
    ensures Restarts(w, w', s, p, home, r, existing)
  {
    HeldRestartLoss(w, w1, w', r, existing);
    if Collectable(w, s, home) { CollectableIsSaveable(start, w, w1, entries, s, home); }
  }

  /** A full restart that ends with a failed drain. */
  lemma UnsettledRestart(w: World, w': World, s: Saving, p: Plan, home: NodeId)
    requires ClosesAndDrains(w, w', None)
    ensures Restarts(w, w', s, p, home, CloseFailed, {})
  {
  }

  lemma SavedLoss(w: World, w1: World, w': World, s: Saving, saved: Persisted)
    requires Saves(w, w1, s, saved) && Loses(w1, w', RecoveryLoss(saved, false, {}, w1))
    ensures Loses(w, w', ShutdownLoss(Some(saved), HandOf(w)))
  {
    FailedSaveLoss(w, w1, w', s, saved, false, {});
    RecoveryLossIs(saved, false, {}, w);
  }

  lemma HeldRestartLoss(w: World, w1: World, w': World, r: Restarted, existing: set<CounterKey>)
    requires Lossless(w, w1) && Loses(w1, w', RestartLoss(r, existing, HandOf(w1)))
    requires forall k :: InHand(w1, k) == InCounters(w.engine, k)
    ensures Loses(w, w', RestartLoss(r, existing, CountersOf(w.engine)))
  {
    LosesAfter(w, w1, w', RestartLoss(r, existing, HandOf(w1)));
    SameLoss(w, w', r, existing, HandOf(w1), CountersOf(w.engine));
  }

  lemma HeldLoss(w: World, w1: World, w': World, saved: Option<Persisted>)
    requires Lossless(w, w1) && Loses(w1, w', ShutdownLoss(saved, HandOf(w1)))
    requires forall k :: InHand(w1, k) == InCounters(w.engine, k)
    ensures Loses(w, w', ShutdownLoss(saved, CountersOf(w.engine)))
  {
    LosesAfter(w, w1, w', ShutdownLoss(saved, HandOf(w1)));
  }

  lemma ShutdownTotals(start: Db, w: World, w': World)
    requires Inv(start, w') && Emptied(w'.engine) && w'.hand.None? && AllApplied(w')
    requires Bounded(w') && Loses(w, w', Nothing())
    ensures forall k :: Applied(w', k) + Lost(w, k) == Produced(w', k)
  {
    AllSettled(start, w');
    forall k ensures Applied(w', k) + Lost(w, k) == Produced(w', k) {
      assert Lost(w', k) == Lost(w, k) + Nothing()(k);
    }
  }

  /** What a report gives its caller: nothing is lost, whatever fails; on success exactly what was counted
      has been published; and a replay that meets no obstacle applies it all. */
  ghost predicate Reports(
    w: World, collected: World, w': World, s: Saving, replay: Replaying, r: Collected, applied: bool)
  {
    && Lossless(w, w') && Draws(w, w', s) && Reaches(collected, w')
    && (r.DrainFailed? ==> MetNegative(w.engine) && !Bounded(w'))
    && (r.AllCollected? ==> FiledAll(w, w') && Replays(collected, replay, applied))
    && (applied ==> r.AllCollected? && AllApplied(w'))
  }

  lemma ReportOutcome(
    w: World, collected: World, w': World, s: Saving, replay: Replaying, r: Collected, applied: bool)
    requires Collects(w, collected, s, r) && Undisturbed(collected, w')
    requires r.AllCollected? ==> Replays(collected, replay, applied) && (applied ==> AllApplied(w'))
    requires !r.AllCollected? ==> !applied && w' == collected
    ensures Reports(w, collected, w', s, replay, r, applied)
  {
    LosslessThrough(w, collected, w');
    SameFiled(collected, w');
  }

  /** What the first half of shutdown gives its caller. */
  ghost predicate Settles(w: World, w': World, s: Saving, saved: Option<Persisted>) {
    && Loses(w, w', ShutdownLoss(saved, CountersOf(w.engine))) && Draws(w, w', s)
    && (saved.None? ==> !Bounded(w'))
  }

  lemma UnsettledOutcome(w: World, w': World, s: Saving)
    requires ClosesAndDrains(w, w', None)
    ensures Settles(w, w', s, None)
  {
  }

  lemma SettleOutcome(w: World, w1: World, w2: World, w': World, entries: seq<Entry>, s: Saving, saved: Persisted)
    requires ClosesAndDrains(w, w1, Some(entries)) && Saves(w1, w2, s, saved) && Recovers(w2, w', saved, false, {})
    ensures Settles(w, w', s, Some(saved))
  {
    SavedLoss(w1, w2, w', s, saved);
    HeldLoss(w, w1, w', Some(saved));
  }

  /** What shutdown gives its caller: only a failed save loses anything; without an error all that was
      produced is applied or was lost before. */
  ghost predicate ShutsDown(w: World, w': World, s: Saving, ok: bool, saved: Option<Persisted>) {
    && Settles(w, w', s, saved)
    && (ok ==> saved == Some(Stored) && AllApplied(w'))
    && (ok && Bounded(w') ==> forall k :: Applied(w', k) + Lost(w, k) == Produced(w', k))
  }

  /** A shutdown that can save does, and it replays the outbox in any case; `settled` is the state the replay
      starts from. */
  ghost predicate Unimpeded(
    w: World, settled: World, w': World, s: Saving, closeFails: bool, replay: Replaying, home: NodeId, ok: bool,
    saved: Option<Persisted>)
  {
    && (Collectable(w, s, home) ==> saved == Some(Stored))
    && Reaches(settled, w') && (saved == Some(Stored) && !closeFails ==> Replays(settled, replay, ok))
    && (!settled.tmp && NoReplayFault(replay) && Ready(settled) ==> AllApplied(w'))
  }

  lemma ShutdownOutcome(start: Db, w: World, settled: World, w': World, s: Saving, ok: bool, saved: Option<Persisted>)
    requires Settles(w, settled, s, saved) && Undisturbed(settled, w') && Inv(start, w') && w'.hand.None?
    requires ok ==> saved == Some(Stored) && AllApplied(w')
    requires ok && Bounded(w') ==> Emptied(w'.engine)
    ensures ShutsDown(w, w', s, ok, saved)
  {
    SameFiled(settled, w');
    LosesBefore(w, settled, w', ShutdownLoss(saved, CountersOf(w.engine)));
    if Bounded(w') { BoundedEarlier(settled, w'); }
    if ok && Bounded(w') { ShutdownTotals(start, w, w'); }
  }

  function Both(f: Key -> int, g: Key -> int): Key -> int { (k: Key) => f(k) + g(k) }

  lemma LosesBoth(a: World, b: World, c: World, f: Key -> int, g: Key -> int)
    requires Loses(a, b, f) && Loses(b, c, g)
    ensures Loses(a, c, Both(f, g))
  {
    ReachesThrough(a, b, c);
    if Bounded(c) {
      BoundedEarlier(b, c);
      forall k ensures Lost(c, k) == Lost(a, k) + Both(f, g)(k) {
        assert Lost(b, k) == Lost(a, k) + f(k);
        assert Lost(c, k) == Lost(b, k) + g(k);
      }
    }
  }

  /** Nothing stops before the second half of Apply unless an operation on the user table fails. */
  lemma CommitEnds(
    w: World, w': World, registry: SessionTable.Table, next: Snapshot, r: Reloaded, fault: nat -> bool)
    requires Commits(w, w', registry, next, r)
    ensures ReloadOutcome(w, w', registry, next, r, fault)
  {
  }

  lemma RefusalEnds(w: World, registry: SessionTable.Table, next: Snapshot, fault: nat -> bool)
    requires exists n :: fault(n)
    ensures ReloadOutcome(w, w, registry, next, Refused, fault)
  {
    ReachesSelf(w);
  }

  lemma CollectedThen(w: World, w1: World, last: World, w': World, s: Saving)
    requires Lossless(w, w1) && FiledAll(w, w1) && Draws(w, w1, s) && Calm(w1, last) && SameOutbox(last, w')
    ensures Lossless(w, last) && FiledAll(w, last) && Draws(w, w', s)
  {
    LosslessThrough(w, w1, last);
  }

  /** The end of a process with an empty engine loses nothing more. */
  lemma EmptyEnd(w: World, w1: World, w': World, loss: Key -> int)
    requires Loses(w, w1, loss) && Loses(w1, w', CountersOf(w1.engine)) && (Bounded(w') ==> Emptied(w1.engine))
    ensures Loses(w, w', loss)
  {
    LosesBoth(w, w1, w', loss, CountersOf(w1.engine));
    if Bounded(w') {
      forall k ensures Lost(w', k) == Lost(w, k) + loss(k) {
        EmptyHoldsNothing(w1.engine, k);
        assert Lost(w', k) == Lost(w, k) + Both(loss, CountersOf(w1.engine))(k);
      }
    }
  }

  lemma DeathStep(start: Db, w: World)
    requires Healthy(start, w) && w.hand.None?
    ensures Healthy(start, AfterCrash(w, false)) && Loses(w, AfterCrash(w, false), CountersOf(w.engine))
    ensures AfterCrash(w, false).engine == NoEngine(w.engine.node) && AfterCrash(w, false).hand.None?
    ensures SameFiles(w, AfterCrash(w, false))
  {
    TakeStep(start, w, Crash(false));
  }

  function Adopted(w: World, next: Snapshot): World { w.(engine := Adopt(w.engine, next)) }

  lemma AdoptStep(start: Db, w: World, next: Snapshot)
    requires Healthy(start, w) && w.hand.None? && w.engine.running && SnapshotValid(next)
    requires DataPlaneNodeEqual(w.engine.node, next.node)
    ensures Healthy(start, Adopted(w, next)) && Replaces(w, Adopted(w, next))
  {
    TakeQuietStep(start, w, Apply(next));
  }

  /** With nothing counted, in hand or outstanding, the balance leaves only applied and lost traffic. */
  lemma AllSettled(start: Db, w: World)
    requires Inv(start, w) && Emptied(w.engine) && w.hand.None? && AllApplied(w)
    ensures forall k :: Applied(w, k) + Lost(w, k) == Produced(w, k)
  {
    assert w.order[..CommittedCount(w)] == w.order;
    forall k ensures Applied(w, k) + Lost(w, k) == Produced(w, k) {
      EmptyHoldsNothing(w.engine, k);
      assert Balanced(w, k);
    }
  }
}
