/** The accounting protocol as a step relation: counters, traffic in hand, outbox, database, and every
    way a step can fail or the process can die (internal/lifecycle/run.go, internal/accounting/outbox.go,
    internal/database/mysql.go, internal/xrayadapter/engine.go). */
module Pipeline {
  import opened Wrappers
  import opened Text
  import opened Model
  import opened Accounting
  import opened Database
  import opened EngineState

  // ---------------------------------------------------------------- parcels

  /** Traffic counted under one rate. */
  datatype Parcel = Parcel(rate: real, entries: seq<Entry>)

  /** What is followed through the system: one user, one direction, one traffic rate. */
  datatype Key = Key(user: UserId, dir: Direction, rate: real)

  function In(p: Parcel, k: Key): int { if p.rate == k.rate then RawOf(p.entries, k.user, k.dir) else 0 }

  function Sum(ps: seq<Parcel>, k: Key): int {
    if ps == [] then 0 else Sum(ps[..|ps| - 1], k) + In(ps[|ps| - 1], k)
  }

  lemma {:induction false} SumConcat(a: seq<Parcel>, b: seq<Parcel>, k: Key)
    ensures Sum(a + b, k) == Sum(a, k) + Sum(b, k)
    decreases |b|
  {
    if b == [] {
      assert a + b == a;
    } else {
      SumConcat(a, b[..|b| - 1], k);
      assert (a + b)[..|a + b| - 1] == a + b[..|b| - 1];
    }
  }

  lemma SumOne(p: Parcel, k: Key)
    ensures Sum([p], k) == In(p, k)
  {
    assert [p][..0] == [];
  }

  lemma SumSnoc(ps: seq<Parcel>, p: Parcel, k: Key)
    ensures Sum(ps + [p], k) == Sum(ps, k) + In(p, k)
  {
    SumConcat(ps, [p], k);
    SumOne(p, k);
  }

  // ---------------------------------------------------------------- state

  /** Drained entries and the node settings in force while they were counted. */
  datatype Hand = Hand(node: Node, entries: seq<Entry>)

  /** A published batch: whether the directory shows it now, and whether it will after a power loss. */
  datatype Published = Published(batch: Batch, time: nat, visible: bool, durable: bool)

  /** `order` lists the published batches by save time. `acked` is the position of the batch the last
      ApplyBatch reported as applied. `produced` and `lost` are history. */
  datatype World = World(
    engine: Engine, hand: Option<Hand>, order: seq<Published>, tmp: bool, acked: Option<nat>,
    clock: nat, down: bool, db: Db, produced: seq<Parcel>, lost: seq<Parcel>)

  function ParcelOf(b: Batch): Parcel { Parcel(b.rate, b.entries) }

  function Parcels(order: seq<Published>): seq<Parcel> { seq(|order|, i requires 0 <= i < |order| => ParcelOf(order[i].batch)) }

  function HandParcels(h: Option<Hand>): seq<Parcel> {
    if h.None? then [] else [Parcel(h.value.node.trafficRate, h.value.entries)]
  }

  function InCounters(e: Engine, k: Key): int { if e.node.trafficRate == k.rate then Held(e, k.user, k.dir) else 0 }

  function Produced(w: World, k: Key): int { Sum(w.produced, k) }
  function Lost(w: World, k: Key): int { Sum(w.lost, k) }
  function InHand(w: World, k: Key): int { Sum(HandParcels(w.hand), k) }
  function CommittedCount(w: World): nat { |w.db.applied| }

  function Applied(w: World, k: Key): int
    requires CommittedCount(w) <= |w.order|
  {
    Sum(Parcels(w.order[..CommittedCount(w)]), k)
  }

  /** Published but not yet applied. */
  function Outstanding(w: World, k: Key): int
    requires CommittedCount(w) <= |w.order|
  {
    Sum(Parcels(w.order[CommittedCount(w)..]), k)
  }

  /** The first batch a replay would meet. */
  predicate FirstVisible(order: seq<Published>, i: nat) {
    i < |order| && order[i].visible && forall j :: 0 <= j < i ==> !order[j].visible
  }

  function Synced(order: seq<Published>): seq<Published> {
    seq(|order|, i requires 0 <= i < |order| => order[i].(durable := order[i].visible))
  }

  predicate NotAfter(a: CounterKey, b: CounterKey) { a.0 < b.0 || (a.0 == b.0 && (a.1 == Up || b.1 == Down)) }

  lemma {:induction false} FirstKeyExists(c: map<CounterKey, int>)
    requires c != map[]
    ensures exists k :: k in c && forall j :: j in c ==> NotAfter(k, j)
    decreases |c|
  {
    var x :| x in c;
    var rest := c - {x};
    assert forall j :: j in c ==> j in rest || j == x;
    if rest == map[] {
      assert forall j :: j in c ==> NotAfter(x, j);
    } else {
      FirstKeyExists(rest);
      var k :| k in rest && forall j :: j in rest ==> NotAfter(k, j);
      var y := if NotAfter(k, x) then k else x;
      assert y in c && forall j :: j in c ==> NotAfter(y, j);
    }
  }

  /** The traffic left in the counters of an engine that goes away. */
  function Leftover(c: map<CounterKey, int>): seq<Entry>
    decreases |c|
  {
    if c == map[] then []
    else
      FirstKeyExists(c);
      var k :| k in c && forall j :: j in c ==> NotAfter(k, j);
      Leftover(c - {k}) + [LostEntry(k.0, k.1, Pos(c[k]))]
  }

  lemma {:induction false} LeftoverIsHeld(c: map<CounterKey, int>, u: UserId, d: Direction)
    ensures RawOf(Leftover(c), u, d) == Pos(if (u, d) in c then c[(u, d)] else 0)
    decreases |c|
  {
    if c != map[] {
      var k :| k in c && Leftover(c) == Leftover(c - {k}) + [LostEntry(k.0, k.1, Pos(c[k]))];
      var x := LostEntry(k.0, k.1, Pos(c[k]));
      LeftoverIsHeld(c - {k}, u, d);
      RawOfConcat(Leftover(c - {k}), [x], u, d);
      RawOfOne(x, u, d);
      assert (k.0, k.1) == k;
    }
  }

  function NoEngine(node: Node): Engine { Engine(node, {}, {}, map[], {}, false) }

  function FreshEngine(s: Snapshot, registered: set<CounterKey>): Engine {
    Engine(s.node, IdsOf(s.users), {}, map k | k in registered :: 0, {}, true)
  }

  lemma ShapeIsRestorable(xs: seq<Entry>)
    requires DrainShape(xs)
    ensures Restorable(xs) && NonNegativeEntries(xs)
  {
  }

  // ---------------------------------------------------------------- steps

  datatype Step =
    | OpenLease(user: UserId)
    | CloseLease(user: UserId)
    | Traffic(user: UserId, dir: Direction, bytes: nat)
    | Drain(ids: seq<UserId>)
    | NothingToSave
    | Save(batch: Batch, time: nat, synced: bool)
    | SaveFails(leftTemp: bool)
    | Restore
    | DropHand
    | Apply(next: Snapshot)
    | Stop
    | Start(snapshot: Snapshot, registered: set<CounterKey>)
    | ReplayApply(at: nat, outcome: Outcome)
    | ReplayRemove(removeSynced: bool)
    | Crash(leftByCrash: bool)
    | Vanish(gone: nat)
    | Resurrect(back: nat)
    | ClearTemp

  ghost predicate FreshId(w: World, id: BatchId) {
    id !in w.db.batches && forall i :: 0 <= i < |w.order| ==> w.order[i].batch.id != id
  }

  /** The batch persist builds from what is in hand. */
  ghost predicate BatchOf(h: Hand, b: Batch) {
    && b.entries == h.entries && b.rate == h.node.trafficRate && b.node == h.node.id
    && EntriesValid(b.entries)
  }

  ghost predicate Enabled(w: World, s: Step) {
    match s
    case OpenLease(u) => w.engine.running && u in w.engine.users
    case CloseLease(u) => true
    case Traffic(u, d, n) => w.engine.running && u in w.engine.open && n <= MAX_INT64
    case Drain(ids) => w.hand.None? && DrainOrder(w.engine, ids)
    case NothingToSave => w.hand.Some? && w.hand.value.entries == []
    case Save(b, time, _) =>
      w.hand.Some? && w.hand.value.entries != [] && BatchOf(w.hand.value, b) && FreshId(w, b.id) && w.clock < time
    case SaveFails(_) => w.hand.Some?
    case Restore => w.hand.Some? && w.hand.value.node.trafficRate == w.engine.node.trafficRate
    case DropHand => w.hand.Some?
    case Apply(next) =>
      && w.hand.None? && w.engine.running && DataPlaneNodeEqual(w.engine.node, next.node)
      && forall u :: u in IdsOf(next.users) ==> u > 0
    case Stop => true
    case Start(s, registered) =>
      && !w.engine.running && (forall k :: k in w.engine.counters ==> w.engine.counters[k] == 0)
      && (forall k :: k in registered ==> k.0 in IdsOf(s.users))
      && forall u :: u in IdsOf(s.users) ==> u > 0
    case ReplayApply(i, _) => !w.tmp && FirstVisible(w.order, i)
    case ReplayRemove(_) => w.acked.Some? && w.acked.value < |w.order|
    case Crash(_) => true
    case Vanish(i) => w.down && i < |w.order| && w.order[i].visible && !w.order[i].durable
    case Resurrect(i) => w.down && i < |w.order| && !w.order[i].visible && w.order[i].durable
    case ClearTemp => true
  }

  function Rate(w: World): real { w.engine.node.trafficRate }

  function AfterTraffic(w: World, u: UserId, d: Direction, n: nat): World
    requires Int64Counters(w.engine) && n <= MAX_INT64
  {
    var r := AddTo(Register(w.engine, u, d), u, d, n);
    w.(engine := r.engine, produced := w.produced + [Parcel(Rate(w), [LostEntry(u, d, n)])],
       lost := w.lost + [Parcel(Rate(w), r.lost)])
  }

  function AfterDrain(w: World, ids: seq<UserId>): World {
    var r := DrainFrom(w.engine, ids);
    if r.ok then w.(engine := r.engine, hand := Some(Hand(w.engine.node, r.entries)))
    else w.(engine := r.engine, lost := w.lost + [Parcel(Rate(w), r.entries)])
  }

  function AfterSave(w: World, b: Batch, time: nat, synced: bool): World {
    var order := w.order + [Published(b, time, true, false)];
    w.(hand := None, order := if synced then Synced(order) else order, clock := time)
  }

  function AfterRestore(w: World): World
    requires Int64Counters(w.engine) && w.hand.Some? && Restorable(w.hand.value.entries)
  {
    var r := RestoreAll(w.engine, w.hand.value.entries);
    w.(engine := r.engine, hand := None, lost := w.lost + [Parcel(Rate(w), r.lost)])
  }

  function AfterReplayApply(w: World, i: nat, o: Outcome): World
    requires i < |w.order|
  {
    var b := w.order[i].batch;
    w.(db := Attempt(w.db, b, o), acked := if Reported(w.db, b, o) then Some(i) else None)
  }

  function Hidden(order: seq<Published>, i: nat): seq<Published>
    requires i < |order|
  {
    order[i := order[i].(visible := false)]
  }

  function AfterReplayRemove(w: World, synced: bool): World
    requires w.acked.Some? && w.acked.value < |w.order|
  {
    var order := Hidden(w.order, w.acked.value);
    w.(order := if synced then Synced(order) else order, acked := None)
  }

  function AfterCrash(w: World, left: bool): World {
    w.(engine := NoEngine(w.engine.node), hand := None, acked := None, tmp := w.tmp || left, down := true,
       lost := w.lost + HandParcels(w.hand) + [Parcel(Rate(w), Leftover(w.engine.counters))])
  }

  /** A power loss takes back a publication that never reached the disk. */
  function AfterVanish(w: World, i: nat): World
    requires i < |w.order|
  {
    if i < CommittedCount(w) then w.(order := Hidden(w.order, i))
    else w.(order := w.order[..i] + w.order[i + 1..], lost := w.lost + [ParcelOf(w.order[i].batch)])
  }

  ghost function Next(w: World, s: Step): World
    requires Sane(w) && Enabled(w, s)
  {
    match s
    case OpenLease(u) => w.(engine := w.engine.(open := w.engine.open + {u}))
    case CloseLease(u) => w.(engine := w.engine.(open := w.engine.open - {u}))
    case Traffic(u, d, n) => AfterTraffic(w, u, d, n)
    case Drain(ids) => AfterDrain(w, ids)
    case NothingToSave => w.(hand := None)
    case Save(b, time, synced) => AfterSave(w, b, time, synced)
    case SaveFails(left) => w.(tmp := w.tmp || left)
    case Restore => ShapeIsRestorable(w.hand.value.entries); AfterRestore(w)
    case DropHand => w.(hand := None, lost := w.lost + HandParcels(w.hand))
    case Apply(next) => w.(engine := Adopt(w.engine, next))
    case Stop => w.(engine := w.engine.(running := false))
    case Start(s, registered) => w.(engine := FreshEngine(s, registered), down := false)
    case ReplayApply(i, o) => AfterReplayApply(w, i, o)
    case ReplayRemove(synced) => AfterReplayRemove(w, synced)
    case Crash(left) => AfterCrash(w, left)
    case Vanish(i) => AfterVanish(w, i)
    case Resurrect(i) => w.(order := w.order[i := w.order[i].(visible := true)])
    case ClearTemp => w.(tmp := false)
  }

  // ---------------------------------------------------------------- invariants

  /** What makes the arithmetic of a step defined. */
  ghost predicate Sane(w: World) {
    Int64Counters(w.engine) && (w.hand.Some? ==> DrainShape(w.hand.value.entries))
  }

  /** Committed batches are a prefix of publication order, and only they may be gone from the directory. */
  ghost predicate Ordered(w: World) {
    && CommittedCount(w) <= |w.order|
    && (forall i :: 0 <= i < CommittedCount(w) ==> w.order[i].batch == w.db.applied[i])
    && (forall i :: CommittedCount(w) <= i < |w.order| ==> w.order[i].visible)
    && (w.acked.Some? ==> w.acked.value < CommittedCount(w))
  }

  /** Batch ids and save times never repeat. */
  ghost predicate Distinct(w: World) {
    && (forall i, j :: 0 <= i < j < |w.order| ==> w.order[i].batch.id != w.order[j].batch.id)
    && (forall i, j :: 0 <= i < j < |w.order| ==> w.order[i].time < w.order[j].time)
    && (forall i :: 0 <= i < |w.order| ==> w.order[i].time <= w.clock)
  }

  /** The database rows of batches not yet committed do not exist. */
  ghost predicate Unclaimed(start: Db, w: World) {
    forall i :: 0 <= i < |w.order| ==> w.order[i].batch.id !in start.batches
  }

  ghost predicate HandCovered(w: World) {
    w.hand.Some? ==> forall x, d :: x in w.hand.value.entries && (x.user, d) in w.engine.counters ==>
      x.user in w.engine.users || x.user in w.engine.retired
  }

  ghost predicate PositiveIds(e: Engine) { forall u :: u in e.users || u in e.retired ==> u > 0 }

  /** For one key: what is counted, held, published or lost is exactly what was produced. */
  ghost predicate Balanced(w: World, k: Key) {
    InCounters(w.engine, k) + InHand(w, k) + Sum(Parcels(w.order), k) + Lost(w, k) == Produced(w, k)
  }

  ghost predicate NonNegativeParcels(ps: seq<Parcel>) { forall p :: p in ps ==> NonNegativeEntries(p.entries) }

  ghost predicate NonNegativeEntries(xs: seq<Entry>) { forall x :: x in xs ==> x.up >= 0 && x.down >= 0 }

  /** The engine side: counters in range, every user with traffic or a lease will be drained, and what
      is in hand has the shape of a drain. */
  ghost predicate EngineInv(w: World) {
    && Int64Counters(w.engine) && PositiveIds(w.engine) && Covered(w.engine)
    && (w.hand.Some? ==> DrainShape(w.hand.value.entries)) && HandCovered(w)
  }

  ghost predicate OutboxInv(start: Db, w: World) {
    && Ordered(w) && Distinct(w) && Unclaimed(start, w) && Settled(start, w.db)
    && (forall i :: 0 <= i < |w.order| ==> EntriesValid(w.order[i].batch.entries))
  }

  ghost predicate Inv(start: Db, w: World) {
    EngineInv(w) && OutboxInv(start, w) && NonNegativeParcels(w.lost) && forall k :: Balanced(w, k)
  }
}
