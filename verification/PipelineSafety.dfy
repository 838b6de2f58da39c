/** What every run of the accounting protocol keeps: conservation per user, direction and rate,
    prefix commitment, and coverage of every user with traffic. */
module PipelineSafety {
  import opened Wrappers
  import opened Text
  import opened Model
  import opened Accounting
  import opened Database
  import opened EngineState
  import opened Pipeline

  // ---------------------------------------------------------------- conservation

  lemma ParcelsSnoc(order: seq<Published>, p: Published)
    ensures Parcels(order + [p]) == Parcels(order) + [ParcelOf(p.batch)]
  {
  }

  lemma ParcelsSame(a: seq<Published>, b: seq<Published>)
    requires |a| == |b| && forall i :: 0 <= i < |a| ==> a[i].batch == b[i].batch
    ensures Parcels(a) == Parcels(b)
  {
  }

  lemma ParcelsConcat(a: seq<Published>, b: seq<Published>)
    ensures Parcels(a + b) == Parcels(a) + Parcels(b)
  {
  }

  lemma TrafficCounted(e: Engine, u: UserId, d: Direction, n: nat, k: Key)
    requires Int64Counters(e) && n <= MAX_INT64
    ensures var r := AddTo(Register(e, u, d), u, d, n);
            var rate := e.node.trafficRate;
            InCounters(r.engine, k) + In(Parcel(rate, r.lost), k) ==
            InCounters(e, k) + In(Parcel(rate, [LostEntry(u, d, n)]), k)
  {
    var reg := Register(e, u, d);
    AddToConserves(reg, u, d, n, k.user, k.dir);
    RawOfOne(LostEntry(u, d, n), k.user, k.dir);
    assert Held(reg, k.user, k.dir) == Held(e, k.user, k.dir);
  }

  lemma TrafficBalanced(w: World, u: UserId, d: Direction, n: nat, k: Key)
    requires Int64Counters(w.engine) && n <= MAX_INT64 && Balanced(w, k)
    ensures Balanced(AfterTraffic(w, u, d, n), k)
  {
    TrafficCounted(w.engine, u, d, n, k);
    SumSnoc(w.produced, Parcel(Rate(w), [LostEntry(u, d, n)]), k);
    SumSnoc(w.lost, Parcel(Rate(w), AddTo(Register(w.engine, u, d), u, d, n).lost), k);
  }

  lemma DrainCounted(e: Engine, ids: seq<UserId>, k: Key)
    ensures InCounters(DrainFrom(e, ids).engine, k) + In(Parcel(e.node.trafficRate, DrainFrom(e, ids).entries), k) ==
            InCounters(e, k)
  {
    DrainConserves(e, ids, k.user, k.dir);
    DrainKeepsNode(e, ids);
  }

  lemma DrainBalanced(w: World, ids: seq<UserId>, k: Key)
    requires w.hand.None? && Balanced(w, k)
    ensures Balanced(AfterDrain(w, ids), k)
  {
    var r := DrainFrom(w.engine, ids);
    DrainCounted(w.engine, ids, k);
    SumOne(Parcel(Rate(w), r.entries), k);
    SumSnoc(w.lost, Parcel(Rate(w), r.entries), k);
  }

  lemma SaveBalanced(w: World, b: Batch, time: nat, synced: bool, k: Key)
    requires w.hand.Some? && BatchOf(w.hand.value, b) && Balanced(w, k)
    ensures Balanced(AfterSave(w, b, time, synced), k)
  {
    var order := w.order + [Published(b, time, true, false)];
    ParcelsSnoc(w.order, Published(b, time, true, false));
    ParcelsSame(order, Synced(order));
    SumSnoc(Parcels(w.order), ParcelOf(b), k);
    SumOne(ParcelOf(b), k);
  }

  lemma RestoreCounted(e: Engine, xs: seq<Entry>, k: Key)
    requires Int64Counters(e) && Restorable(xs)
    ensures InCounters(RestoreAll(e, xs).engine, k) + In(Parcel(e.node.trafficRate, RestoreAll(e, xs).lost), k) ==
            InCounters(e, k) + In(Parcel(e.node.trafficRate, xs), k)
  {
    RestoreConserves(e, xs, k.user, k.dir);
    RestoreFrames(e, xs);
  }

  lemma RestoreBalanced(w: World, k: Key)
    requires Int64Counters(w.engine) && w.hand.Some? && Restorable(w.hand.value.entries)
    requires w.hand.value.node.trafficRate == Rate(w) && Balanced(w, k)
    ensures Balanced(AfterRestore(w), k)
  {
    var xs := w.hand.value.entries;
    RestoreCounted(w.engine, xs, k);
    SumOne(Parcel(Rate(w), xs), k);
    SumSnoc(w.lost, Parcel(Rate(w), RestoreAll(w.engine, xs).lost), k);
  }

  lemma CrashBalanced(w: World, left: bool, k: Key)
    requires Balanced(w, k)
    ensures Balanced(AfterCrash(w, left), k)
  {
    LeftoverIsHeld(w.engine.counters, k.user, k.dir);
    SumSnoc(w.lost + HandParcels(w.hand), Parcel(Rate(w), Leftover(w.engine.counters)), k);
    SumConcat(w.lost, HandParcels(w.hand), k);
  }

  lemma SumWithout(order: seq<Published>, i: nat, k: Key)
    requires i < |order|
    ensures Sum(Parcels(order), k) ==
            Sum(Parcels(order[..i] + order[i + 1..]), k) + In(ParcelOf(order[i].batch), k)
  {
    assert order == order[..i] + [order[i]] + order[i + 1..];
    ParcelsConcat(order[..i] + [order[i]], order[i + 1..]);
    ParcelsConcat(order[..i], order[i + 1..]);
    ParcelsSnoc(order[..i], order[i]);
    SumConcat(Parcels(order[..i]) + [ParcelOf(order[i].batch)], Parcels(order[i + 1..]), k);
    SumConcat(Parcels(order[..i]), Parcels(order[i + 1..]), k);
    SumSnoc(Parcels(order[..i]), ParcelOf(order[i].batch), k);
  }

  lemma VanishBalanced(w: World, i: nat, k: Key)
    requires i < |w.order| && Balanced(w, k)
    ensures Balanced(AfterVanish(w, i), k)
  {
    if i < CommittedCount(w) {
      ParcelsSame(w.order, Hidden(w.order, i));
    } else {
      SumWithout(w.order, i, k);
      SumSnoc(w.lost, ParcelOf(w.order[i].batch), k);
    }
  }

  lemma RemoveBalanced(w: World, synced: bool, k: Key)
    requires w.acked.Some? && w.acked.value < |w.order| && Balanced(w, k)
    ensures Balanced(AfterReplayRemove(w, synced), k)
  {
    var order := Hidden(w.order, w.acked.value);
    ParcelsSame(w.order, order);
    ParcelsSame(order, Synced(order));
  }

  /** The steps that carry traffic from one place to another. */
  predicate Moves(s: Step) {
    s.Traffic? || s.Drain? || s.Save? || s.Restore? || s.DropHand? || s.Crash? || s.Vanish?
  }

  lemma MovingBalanced(w: World, s: Step, k: Key)
    requires Sane(w) && Enabled(w, s) && Moves(s) && Balanced(w, k)
    ensures Balanced(Next(w, s), k)
  {
    match s
    case Traffic(u, d, n) => TrafficBalanced(w, u, d, n, k);
    case Drain(ids) => DrainBalanced(w, ids, k);
    case Save(b, time, synced) => SaveBalanced(w, b, time, synced, k);
    case Restore => ShapeIsRestorable(w.hand.value.entries); RestoreBalanced(w, k);
    case DropHand => SumConcat(w.lost, HandParcels(w.hand), k);
    case Crash(left) => CrashBalanced(w, left, k);
    case Vanish(i) => VanishBalanced(w, i, k);
  }

  lemma StillBalanced(w: World, s: Step, k: Key)
    requires Sane(w) && Enabled(w, s) && !Moves(s) && Balanced(w, k)
    ensures Balanced(Next(w, s), k)
  {
    match s
    case NothingToSave => SumOne(HandParcels(w.hand)[0], k);
    case ReplayRemove(synced) => RemoveBalanced(w, synced, k);
    case Resurrect(i) => ParcelsSame(w.order, w.order[i := w.order[i].(visible := true)]);
    case _ =>
  }

  /** Every step of the protocol keeps the balance of every key. */
  lemma StepBalanced(w: World, s: Step, k: Key)
    requires Sane(w) && Enabled(w, s) && Balanced(w, k)
    ensures Balanced(Next(w, s), k)
  {
    if Moves(s) { MovingBalanced(w, s, k); } else { StillBalanced(w, s, k); }
  }

  // ---------------------------------------------------------------- engine side

  lemma RestoreCovers(w: World)
    requires EngineInv(w) && w.hand.Some? && Restorable(w.hand.value.entries)
    ensures Covered(RestoreAll(w.engine, w.hand.value.entries).engine)
  {
    RestoreCoversFrom(w.engine, w.hand.value.entries);
  }

  lemma {:induction false} RestoreCoversFrom(e: Engine, xs: seq<Entry>)
    requires Int64Counters(e) && Restorable(xs) && Covered(e)
    requires forall x, d :: x in xs && (x.user, d) in e.counters ==> x.user in e.users || x.user in e.retired
    ensures Covered(RestoreAll(e, xs).engine)
    decreases |xs|
  {
    if xs != [] {
      var x := xs[0];
      assert x in xs;
      var a := AddTo(e, x.user, Up, x.up).engine;
      AddToFrames(e, x.user, Up, x.up);
      AddToCovers(e, x.user, Up, x.up);
      var b := AddTo(a, x.user, Down, x.down).engine;
      AddToFrames(a, x.user, Down, x.down);
      AddToCovers(a, x.user, Down, x.down);
      RestoreCoversFrom(b, xs[1..]);
    }
  }

  lemma AddToCovers(e: Engine, u: UserId, d: Direction, n: nat)
    requires Int64Counters(e) && n <= MAX_INT64 && Covered(e)
    requires (u, d) in e.counters ==> u in e.users || u in e.retired
    ensures Covered(AddTo(e, u, d, n).engine)
  {
  }

  lemma {:induction false} DrainedUsersStay(e: Engine, ids: seq<UserId>, x: Entry)
    requires RisingIds(ids) && x in DrainFrom(e, ids).entries && (x.user in e.users || x.user in e.retired)
    ensures x.user in DrainFrom(e, ids).engine.users || x.user in DrainFrom(e, ids).engine.retired
    decreases |ids|
  {
    var first := DrainUser(e, ids[0]);
    DrainUserFrames(e, ids[0]);
    if first.ok {
      var rest := DrainFrom(first.engine, ids[1..]);
      DrainFrames(first.engine, ids[1..]);
      if x in rest.entries {
        DrainedUserListed(first.engine, ids[1..], x);
        DrainedUsersStay(first.engine, ids[1..], x);
      } else {
        assert x in first.entries && x.user == ids[0];
        UnvisitedStayRetired(first.engine, ids[1..], x.user);
      }
    }
  }

  lemma {:induction false} DrainedUserListed(e: Engine, ids: seq<UserId>, x: Entry)
    requires x in DrainFrom(e, ids).entries
    ensures x.user in ids
    decreases |ids|
  {
    var first := DrainUser(e, ids[0]);
    if first.ok && x !in first.entries { DrainedUserListed(first.engine, ids[1..], x); }
  }

  lemma {:induction false} UnvisitedStayRetired(e: Engine, ids: seq<UserId>, u: UserId)
    requires u !in ids
    ensures u in DrainFrom(e, ids).engine.retired <==> u in e.retired
    decreases |ids|
  {
    if ids != [] {
      assert ids[0] in ids;
      var first := DrainUser(e, ids[0]);
      if first.ok { UnvisitedStayRetired(first.engine, ids[1..], u); }
    }
  }

  lemma DrainEngine(w: World, ids: seq<UserId>)
    requires EngineInv(w) && w.hand.None? && DrainOrder(w.engine, ids)
    ensures EngineInv(AfterDrain(w, ids))
  {
    var r := DrainFrom(w.engine, ids);
    DrainFrames(w.engine, ids);
    DrainShapes(w.engine, ids);
    DrainCovers(w.engine, ids);
    forall x | x in r.entries ensures x.user in r.engine.users || x.user in r.engine.retired {
      DrainedUserListed(w.engine, ids, x);
      DrainedUsersStay(w.engine, ids, x);
    }
  }

  lemma TrafficEngine(w: World, u: UserId, d: Direction, n: nat)
    requires EngineInv(w) && u in w.engine.open && n <= MAX_INT64
    ensures EngineInv(AfterTraffic(w, u, d, n))
  {
    var reg := Register(w.engine, u, d);
    assert u in w.engine.users || u in w.engine.retired;
    assert Covered(reg);
    AddToFrames(reg, u, d, n);
    AddToCovers(reg, u, d, n);
  }

  lemma RestoreEngine(w: World)
    requires EngineInv(w) && w.hand.Some? && Restorable(w.hand.value.entries)
    ensures EngineInv(AfterRestore(w))
  {
    RestoreFrames(w.engine, w.hand.value.entries);
    RestoreCovers(w);
  }

  lemma StartEngine(w: World, s: Snapshot, registered: set<CounterKey>)
    requires EngineInv(w) && (forall k :: k in registered ==> k.0 in IdsOf(s.users))
    requires forall u :: u in IdsOf(s.users) ==> u > 0
    ensures EngineInv(w.(engine := FreshEngine(s, registered), down := false))
  {
    forall u, d ensures Counter(FreshEngine(s, registered), u, d) == 0 {}
  }

  lemma StepEngine(w: World, s: Step)
    requires EngineInv(w) && Enabled(w, s)
    ensures EngineInv(Next(w, s))
  {
    match s
    case Traffic(u, d, n) => TrafficEngine(w, u, d, n);
    case Drain(ids) => DrainEngine(w, ids);
    case Restore => ShapeIsRestorable(w.hand.value.entries); RestoreEngine(w);
    case Apply(next) => AdoptCovers(w.engine, next);
    case Start(snapshot, registered) => StartEngine(w, snapshot, registered);
    case _ =>
  }

  // ---------------------------------------------------------------- outbox and database

  /** The outbox invariant depends only on the outbox, the database and the clock. */
  lemma OutboxFrame(start: Db, w: World, w': World)
    requires OutboxInv(start, w) && w'.order == w.order && w'.db == w.db && w'.clock == w.clock
    requires w'.acked == w.acked || w'.acked.None?
    ensures OutboxInv(start, w')
  {
  }

  /** Changing only what the directory shows of committed batches. */
  lemma OutboxReshown(start: Db, w: World, w': World)
    requires OutboxInv(start, w) && w'.db == w.db && w'.clock == w.clock && |w'.order| == |w.order|
    requires forall i :: 0 <= i < |w.order| ==> w'.order[i].batch == w.order[i].batch && w'.order[i].time == w.order[i].time
    requires forall i :: CommittedCount(w) <= i < |w.order| ==> w'.order[i].visible
    requires w'.acked == w.acked || w'.acked.None?
    ensures OutboxInv(start, w')
  {
  }

  /** A published batch has its row in the database exactly when it lies in the committed prefix. */
  lemma CommittedIff(start: Db, w: World, i: nat)
    requires OutboxInv(start, w) && i < |w.order|
    ensures w.order[i].batch.id in w.db.batches <==> i < CommittedCount(w)
  {
    var b := w.order[i].batch;
    if i < CommittedCount(w) {
      assert w.db.applied[i] == b && b in w.db.applied;
    } else {
      forall x | x in w.db.applied ensures x.id != b.id {
        var j :| 0 <= j < |w.db.applied| && w.db.applied[j] == x;
        assert w.order[j].batch == x;
      }
      assert !Listed(w.db.applied, b.id);
    }
  }

  lemma FirstIsNextOrCommitted(start: Db, w: World, i: nat)
    requires OutboxInv(start, w) && FirstVisible(w.order, i)
    ensures i <= CommittedCount(w)
  {
    if CommittedCount(w) < |w.order| { assert w.order[CommittedCount(w)].visible; }
  }

  /** Replay meets either a committed batch again or the next one in line; only the latter can change
      the database, and success is reported only for a batch that is then committed. */
  lemma ReplayAdvances(start: Db, w: World, i: nat, o: Outcome)
    requires OutboxInv(start, w) && FirstVisible(w.order, i)
    ensures var b := w.order[i].batch;
            var db := Attempt(w.db, b, o);
            && (db.applied == w.db.applied || (i == CommittedCount(w) && db.applied == w.db.applied + [b]))
            && (Reported(w.db, b, o) ==> i < |db.applied|)
  {
    FirstIsNextOrCommitted(start, w, i);
    CommittedIff(start, w, i);
  }

  lemma ApplyOutbox(start: Db, w: World, i: nat, o: Outcome)
    requires OutboxInv(start, w) && FirstVisible(w.order, i)
    ensures OutboxInv(start, AfterReplayApply(w, i, o))
  {
    ReplayAdvances(start, w, i, o);
    AttemptSettles(start, w.db, w.order[i].batch, o);
    ApplyOrdered(w, w.order[i].batch, Attempt(w.db, w.order[i].batch, o), i, AfterReplayApply(w, i, o));
  }

  lemma ApplyOrdered(w: World, b: Batch, db: Db, i: nat, w': World)
    requires Ordered(w) && i < |w.order| && b == w.order[i].batch
    requires db.applied == w.db.applied || (i == CommittedCount(w) && db.applied == w.db.applied + [b])
    requires w'.order == w.order && w'.db == db && (w'.acked.None? || (w'.acked == Some(i) && i < |db.applied|))
    ensures Ordered(w')
  {
  }

  lemma AppendOutbox(start: Db, w: World, b: Batch, time: nat)
    requires OutboxInv(start, w) && FreshId(w, b.id) && w.clock < time && EntriesValid(b.entries)
    ensures OutboxInv(start, AfterSave(w, b, time, false))
  {
    assert b.id !in start.batches;
  }

  lemma SaveOutbox(start: Db, w: World, b: Batch, time: nat, synced: bool)
    requires OutboxInv(start, w) && FreshId(w, b.id) && w.clock < time && EntriesValid(b.entries)
    ensures OutboxInv(start, AfterSave(w, b, time, synced))
  {
    AppendOutbox(start, w, b, time);
    if synced { OutboxReshown(start, AfterSave(w, b, time, false), AfterSave(w, b, time, true)); }
  }

  lemma VanishOrdered(w: World, i: nat)
    requires Ordered(w) && CommittedCount(w) <= i < |w.order|
    ensures Ordered(AfterVanish(w, i))
  {
    var w' := AfterVanish(w, i);
    assert forall j :: 0 <= j < |w'.order| ==> w'.order[j] == w.order[if j < i then j else j + 1];
  }

  lemma VanishDistinct(w: World, i: nat)
    requires Distinct(w) && CommittedCount(w) <= i < |w.order|
    ensures Distinct(AfterVanish(w, i))
  {
    var w' := AfterVanish(w, i);
    assert forall j :: 0 <= j < |w'.order| ==> w'.order[j] == w.order[if j < i then j else j + 1];
  }

  lemma VanishOutbox(start: Db, w: World, i: nat)
    requires OutboxInv(start, w) && CommittedCount(w) <= i < |w.order|
    ensures OutboxInv(start, AfterVanish(w, i))
  {
    VanishOrdered(w, i);
    VanishDistinct(w, i);
    var w' := AfterVanish(w, i);
    forall j | 0 <= j < |w'.order|
      ensures w'.order[j].batch.id !in start.batches && EntriesValid(w'.order[j].batch.entries)
    {
      assert w'.order[j] == w.order[if j < i then j else j + 1];
    }
  }

  predicate TouchesOutbox(s: Step) {
    s.Save? || s.ReplayApply? || s.ReplayRemove? || s.Resurrect? || s.Vanish?
  }

  lemma QuietOutbox(start: Db, w: World, s: Step)
    requires Sane(w) && OutboxInv(start, w) && Enabled(w, s) && !TouchesOutbox(s)
    ensures OutboxInv(start, Next(w, s))
  {
    OutboxFrame(start, w, Next(w, s));
  }

  lemma RemoveOutbox(start: Db, w: World, synced: bool)
    requires OutboxInv(start, w) && w.acked.Some? && w.acked.value < |w.order|
    ensures OutboxInv(start, AfterReplayRemove(w, synced))
  {
    OutboxReshown(start, w, AfterReplayRemove(w, synced));
  }

  lemma ShownOutbox(start: Db, w: World, i: nat, p: Published)
    requires OutboxInv(start, w) && i < |w.order| && (i >= CommittedCount(w) ==> p.visible)
    requires p.batch == w.order[i].batch && p.time == w.order[i].time
    ensures OutboxInv(start, w.(order := w.order[i := p]))
  {
    OutboxReshown(start, w, w.(order := w.order[i := p]));
  }

  lemma StepOutbox(start: Db, w: World, s: Step)
    requires Sane(w) && OutboxInv(start, w) && Enabled(w, s)
    ensures OutboxInv(start, Next(w, s))
  {
    if s.Save? {
      SaveOutbox(start, w, s.batch, s.time, s.synced);
    } else if s.ReplayApply? {
      ApplyOutbox(start, w, s.at, s.outcome);
    } else if s.Vanish? && s.gone >= CommittedCount(w) {
      VanishOutbox(start, w, s.gone);
    } else if s.ReplayRemove? {
      RemoveOutbox(start, w, s.removeSynced);
    } else if s.Vanish? {
      ShownOutbox(start, w, s.gone, w.order[s.gone].(visible := false));
    } else if s.Resurrect? {
      ShownOutbox(start, w, s.back, w.order[s.back].(visible := true));
    } else {
      QuietOutbox(start, w, s);
    }
  }

  // ---------------------------------------------------------------- nothing negative is lost

  lemma LossGrows(a: seq<Parcel>, b: seq<Parcel>)
    requires NonNegativeParcels(a) && NonNegativeParcels(b)
    ensures NonNegativeParcels(a + b)
  {
  }

  lemma StepLoss(w: World, s: Step)
    requires EngineInv(w) && Enabled(w, s) && NonNegativeParcels(w.lost)
    requires forall i :: 0 <= i < |w.order| ==> EntriesValid(w.order[i].batch.entries)
    ensures NonNegativeParcels(Next(w, s).lost)
  {
    if w.hand.Some? { ShapeIsRestorable(w.hand.value.entries); }
    match s
    case Traffic(u, d, n) =>
      LossGrows(w.lost, [Parcel(Rate(w), AddTo(Register(w.engine, u, d), u, d, n).lost)]);
    case Drain(ids) =>
      DrainShapes(w.engine, ids);
      ShapeIsRestorable(DrainFrom(w.engine, ids).entries);
      LossGrows(w.lost, [Parcel(Rate(w), DrainFrom(w.engine, ids).entries)]);
    case Restore =>
      RestoreLossNonNegative(w.engine, w.hand.value.entries);
      LossGrows(w.lost, [Parcel(Rate(w), RestoreAll(w.engine, w.hand.value.entries).lost)]);
    case DropHand => LossGrows(w.lost, HandParcels(w.hand));
    case Crash(_) =>
      LeftoverNonNegative(w.engine.counters);
      LossGrows(w.lost, HandParcels(w.hand));
      LossGrows(w.lost + HandParcels(w.hand), [Parcel(Rate(w), Leftover(w.engine.counters))]);
    case Vanish(i) => LossGrows(w.lost, [ParcelOf(w.order[i].batch)]);
    case _ =>
  }

  lemma {:induction false} RestoreLossNonNegative(e: Engine, xs: seq<Entry>)
    requires Int64Counters(e) && Restorable(xs)
    ensures NonNegativeEntries(RestoreAll(e, xs).lost)
    decreases |xs|
  {
    if xs != [] {
      var x := xs[0];
      assert x in xs;
      var a := AddTo(e, x.user, Up, x.up);
      var b := AddTo(a.engine, x.user, Down, x.down);
      RestoreLossNonNegative(b.engine, xs[1..]);
    }
  }

  lemma {:induction false} LeftoverNonNegative(c: map<CounterKey, int>)
    ensures NonNegativeEntries(Leftover(c))
    decreases |c|
  {
    if c != map[] {
      var k :| k in c && Leftover(c) == Leftover(c - {k}) + [LostEntry(k.0, k.1, Pos(c[k]))];
      LeftoverNonNegative(c - {k});
    }
  }

  // ---------------------------------------------------------------- runs

  lemma StepInv(start: Db, w: World, s: Step)
    requires Inv(start, w) && Enabled(w, s)
    ensures Inv(start, Next(w, s))
  {
    StepEngine(w, s);
    StepOutbox(start, w, s);
    StepLoss(w, s);
    forall k ensures Balanced(Next(w, s), k) { StepBalanced(w, s, k); }
  }

  ghost predicate Run(w: World, steps: seq<Step>, w': World)
    decreases |steps|
  {
    if steps == [] then w == w'
    else Sane(w) && Enabled(w, steps[0]) && Run(Next(w, steps[0]), steps[1..], w')
  }

  lemma {:induction false} RunInv(start: Db, w: World, steps: seq<Step>, w': World)
    requires Inv(start, w) && Run(w, steps, w')
    ensures Inv(start, w')
    decreases |steps|
  {
    if steps != [] {
      StepInv(start, w, steps[0]);
      RunInv(start, Next(w, steps[0]), steps[1..], w');
    }
  }

  /** The service before its first start, with nothing published yet. */
  function Initial(node: Node, db: Db): World {
    World(NoEngine(node), None, [], false, None, 0, true, db, [], [])
  }

  lemma InitialInv(node: Node, db: Db)
    requires db.applied == []
    ensures Inv(db, Initial(node, db))
  {
    var w := Initial(node, db);
    forall k ensures Balanced(w, k) { assert Parcels(w.order) == []; }
  }

  lemma {:induction false} ParcelsNonNegative(ps: seq<Parcel>, k: Key)
    requires NonNegativeParcels(ps)
    ensures Sum(ps, k) >= 0
  {
    if ps != [] {
      assert ps[|ps| - 1] in ps;
      ParcelsNonNegative(ps[..|ps| - 1], k);
      RawNonNegative(ps[|ps| - 1].entries, k.user, k.dir);
    }
  }

  lemma {:induction false} RawNonNegative(xs: seq<Entry>, u: UserId, d: Direction)
    requires NonNegativeEntries(xs)
    ensures RawOf(xs, u, d) >= 0
  {
    if xs != [] {
      assert xs[|xs| - 1] in xs;
      RawNonNegative(xs[..|xs| - 1], u, d);
    }
  }

  lemma PublishedSplit(w: World, k: Key)
    requires CommittedCount(w) <= |w.order|
    ensures Sum(Parcels(w.order), k) == Applied(w, k) + Outstanding(w, k)
  {
    var c := CommittedCount(w);
    assert w.order == w.order[..c] + w.order[c..];
    ParcelsConcat(w.order[..c], w.order[c..]);
    SumConcat(Parcels(w.order[..c]), Parcels(w.order[c..]), k);
  }

  /** Conservation over every run: for each user, direction and rate, what is still counted, in hand,
      published but unapplied, applied, or lost on a named edge adds up to what was produced at that
      rate, so nothing is ever applied twice or at another rate. */
  lemma TrafficConserved(node: Node, db: Db, steps: seq<Step>, w: World, k: Key)
    requires db.applied == [] && Run(Initial(node, db), steps, w)
    ensures CommittedCount(w) <= |w.order|
    ensures InCounters(w.engine, k) + InHand(w, k) + Outstanding(w, k) + Applied(w, k) + Lost(w, k) == Produced(w, k)
    ensures InCounters(w.engine, k) + InHand(w, k) + Outstanding(w, k) + Applied(w, k) <= Produced(w, k)
  {
    InitialInv(node, db);
    RunInv(db, Initial(node, db), steps, w);
    PublishedSplit(w, k);
    assert Balanced(w, k);
    ParcelsNonNegative(w.lost, k);
  }

  /** In every run the committed batches are a prefix of publication order, each committed once; a
      batch is missing from the directory only when it was committed; and the database holds exactly
      the contributions of that prefix. */
  lemma CommittedPrefix(node: Node, db: Db, steps: seq<Step>, w: World)
    requires db.applied == [] && Run(Initial(node, db), steps, w)
    ensures CommittedCount(w) <= |w.order|
    ensures forall i :: 0 <= i < CommittedCount(w) ==> w.db.applied[i] == w.order[i].batch
    ensures forall i :: 0 <= i < |w.order| && !w.order[i].visible ==> i < CommittedCount(w)
    ensures forall i, j :: 0 <= i < j < |w.order| ==> w.order[i].time < w.order[j].time
    ensures Settled(db, w.db)
  {
    InitialInv(node, db);
    RunInv(db, Initial(node, db), steps, w);
  }

  /** In every run every user with an open lease or a nonzero counter is in the snapshot or retired. */
  lemma NobodyOrphaned(node: Node, db: Db, steps: seq<Step>, w: World)
    requires db.applied == [] && Run(Initial(node, db), steps, w)
    ensures Covered(w.engine)
  {
    InitialInv(node, db);
    RunInv(db, Initial(node, db), steps, w);
  }

  /** The user totals after any run: initial value plus the bills of the committed prefix, each within
      half a byte of rate times raw. */
  lemma BilledTotals(node: Node, db: Db, steps: seq<Step>, w: World, u: UserId, d: Direction)
    requires db.applied == [] && Run(Initial(node, db), steps, w) && u in db.users
    ensures u in w.db.users
    ensures Of(w.db.users[u], d) == Of(db.users[u], d) + TotalBilled(w.db.applied, u, d)
    ensures -0.5 * Mentions(w.db.applied, u) as real <=
            (Of(w.db.users[u], d) - Of(db.users[u], d)) as real - Charged(w.db.applied, u, d) <=
            0.5 * Mentions(w.db.applied, u) as real
  {
    InitialInv(node, db);
    RunInv(db, Initial(node, db), steps, w);
    forall b | b in w.db.applied ensures Rising(b.entries) {
      var i :| 0 <= i < |w.db.applied| && w.db.applied[i] == b;
      assert w.order[i].batch == b;
    }
    TotalBilledClose(w.db.applied, u, d);
  }
}
