/** Where traffic can be lost: the exact loss of every step and of every run. While fewer than 2^63
    bytes per user, direction and rate have been produced, no counter wraps, no drain fails, and only
    four edges are left. */
module PipelineLoss {
  import opened Text
  import opened Model
  import opened Accounting
  import opened Database
  import opened EngineState
  import opened Pipeline
  import opened PipelineSafety

  ghost predicate Bounded(w: World) { forall k :: Produced(w, k) <= MAX_INT64 }

  ghost predicate NonNegativeCounters(e: Engine) { forall k :: k in e.counters ==> e.counters[k] >= 0 }

  /** The invariant, and no negative counter as long as production is bounded. */
  ghost predicate Healthy(start: Db, w: World) { Inv(start, w) && (Bounded(w) ==> NonNegativeCounters(w.engine)) }

  /** What a step loses of a key: what a wrapping counter swallows; what a drain had taken when it met a
      negative counter; what a restore cannot put back; what is in hand, when it is dropped; everything
      volatile, in a crash; a publication that a power loss takes back before it was applied. */
  ghost function Shed(w: World, s: Step, k: Key): int
    requires Sane(w) && Enabled(w, s)
  {
    match s
    case Traffic(u, d, n) =>
      if k == Key(u, d, Rate(w)) then Slack(Counter(w.engine, u, d), n) else 0
    case Drain(ids) =>
      if DrainFrom(w.engine, ids).ok then 0 else In(Parcel(Rate(w), DrainFrom(w.engine, ids).entries), k)
    case Restore =>
      ShapeIsRestorable(w.hand.value.entries);
      In(Parcel(Rate(w), RestoreAll(w.engine, w.hand.value.entries).lost), k)
    case DropHand => InHand(w, k)
    case Crash(_) => InHand(w, k) + InCounters(w.engine, k)
    case Vanish(i) => if i < CommittedCount(w) then 0 else In(ParcelOf(w.order[i].batch), k)
    case _ => 0
  }

  /** The same when no counter wraps: traffic and drains lose nothing, and a restore only what has no
      counter. */
  ghost function NamedShed(w: World, s: Step, k: Key): int
    requires Enabled(w, s)
  {
    match s
    case DropHand => InHand(w, k)
    case Restore => if (k.user, k.dir) in w.engine.counters then 0 else InHand(w, k)
    case Crash(_) => InHand(w, k) + InCounters(w.engine, k)
    case Vanish(i) => if i < CommittedCount(w) then 0 else In(ParcelOf(w.order[i].batch), k)
    case _ => 0
  }

  // ---------------------------------------------------------------- room in the counters

  lemma OrderNonNegative(order: seq<Published>)
    requires forall i :: 0 <= i < |order| ==> EntriesValid(order[i].batch.entries)
    ensures NonNegativeParcels(Parcels(order))
  {
  }

  lemma HandNonNegative(w: World)
    requires Sane(w)
    ensures NonNegativeParcels(HandParcels(w.hand))
  {
    if w.hand.Some? { ShapeIsRestorable(w.hand.value.entries); }
  }

  /** What is counted and in hand was produced. */
  lemma HeldIsProduced(start: Db, w: World, k: Key)
    requires Inv(start, w)
    ensures InCounters(w.engine, k) + InHand(w, k) <= Produced(w, k)
    ensures InHand(w, k) >= 0
  {
    OrderNonNegative(w.order);
    HandNonNegative(w);
    ParcelsNonNegative(Parcels(w.order), k);
    ParcelsNonNegative(HandParcels(w.hand), k);
    ParcelsNonNegative(w.lost, k);
    assert Balanced(w, k);
  }

  // ---------------------------------------------------------------- drains

  lemma DrainUserOk(e: Engine, u: UserId)
    requires NonNegativeCounters(e)
    ensures DrainUser(e, u).ok && NonNegativeCounters(DrainUser(e, u).engine)
  {
  }

  /** Without negative counters a drain cannot fail. */
  lemma {:induction false} DrainOk(e: Engine, ids: seq<UserId>)
    requires NonNegativeCounters(e)
    ensures DrainFrom(e, ids).ok && NonNegativeCounters(DrainFrom(e, ids).engine)
    decreases |ids|
  {
    if ids != [] {
      DrainUserOk(e, ids[0]);
      DrainOk(DrainUser(e, ids[0]).engine, ids[1..]);
    }
  }

  /** A drain that fails met a negative counter, of a user it visits. */
  lemma {:induction false} FailedDrainMetNegative(e: Engine, ids: seq<UserId>) returns (k: CounterKey)
    requires !DrainFrom(e, ids).ok
    ensures k in e.counters && e.counters[k] < 0 && k.0 in ids
    decreases |ids|
  {
    var first := DrainUser(e, ids[0]);
    if first.ok {
      k := FailedDrainMetNegative(first.engine, ids[1..]);
    } else {
      k := (ids[0], if Counter(e, ids[0], Up) < 0 then Up else Down);
    }
  }

  // ---------------------------------------------------------------- restores

  function Put(e: Engine, u: UserId, d: Direction, n: nat): int { if (u, d) in e.counters then 0 else n }

  lemma AddToExact(e: Engine, u: UserId, d: Direction, n: nat)
    requires Int64Counters(e) && NonNegativeCounters(e) && Counter(e, u, d) + n <= MAX_INT64
    ensures NonNegativeCounters(AddTo(e, u, d, n).engine)
    ensures AddTo(e, u, d, n).lost == [LostEntry(u, d, Put(e, u, d, n))]
  {
  }

  ghost predicate Room(e: Engine, xs: seq<Entry>) {
    forall u, d :: Held(e, u, d) + RawOf(xs, u, d) <= MAX_INT64
  }

  lemma RawOfHead(xs: seq<Entry>, u: UserId, d: Direction)
    requires xs != []
    ensures RawOf(xs, u, d) == (if xs[0].user == u then Amount(xs[0], d) else 0) + RawOf(xs[1..], u, d)
  {
    assert xs == [xs[0]] + xs[1..];
    RawOfConcat([xs[0]], xs[1..], u, d);
    RawOfOne(xs[0], u, d);
  }

  /** Restoring one entry with room: no wrap, and room for the rest. */
  lemma RestoreFirst(e: Engine, xs: seq<Entry>)
    requires Int64Counters(e) && NonNegativeCounters(e) && xs != [] && Restorable(xs) && Room(e, xs)
    ensures var x := xs[0];
            && Restorable(xs[1..]) && 0 <= x.up <= MAX_INT64 && 0 <= x.down <= MAX_INT64
            && Counter(e, x.user, Up) + x.up <= MAX_INT64
            && Counter(e, x.user, Down) + x.down <= MAX_INT64
  {
    var x := xs[0];
    assert x in xs;
    forall d ensures Counter(e, x.user, d) + Amount(x, d) <= MAX_INT64 {
      RawOfHead(xs, x.user, d);
      RawNonNegative(xs[1..], x.user, d);
      assert Held(e, x.user, d) + RawOf(xs, x.user, d) <= MAX_INT64;
    }
    assert Counter(e, x.user, Up) + Amount(x, Up) <= MAX_INT64;
    assert Counter(e, x.user, Down) + Amount(x, Down) <= MAX_INT64;
  }

  /** With room, a restore loses exactly what has no counter. */
  lemma {:induction false} RestoreExact(e: Engine, xs: seq<Entry>, u: UserId, d: Direction)
    requires Int64Counters(e) && NonNegativeCounters(e) && Restorable(xs) && Room(e, xs)
    ensures NonNegativeCounters(RestoreAll(e, xs).engine)
    ensures RawOf(RestoreAll(e, xs).lost, u, d) == if (u, d) in e.counters then 0 else RawOf(xs, u, d)
    decreases |xs|
  {
    if xs != [] {
      var x := xs[0];
      RestoreFirst(e, xs);
      var a := AddTo(e, x.user, Up, x.up);
      AddToExact(e, x.user, Up, x.up);
      AddToFrames(e, x.user, Up, x.up);
      var b := AddTo(a.engine, x.user, Down, x.down);
      AddToExact(a.engine, x.user, Down, x.down);
      AddToFrames(a.engine, x.user, Down, x.down);
      RoomForRest(e, xs);
      RestoreExact(b.engine, xs[1..], u, d);
      LostOfThree(a.lost, b.lost, RestoreAll(b.engine, xs[1..]).lost, u, d);
      RawOfOne(a.lost[0], u, d);
      RawOfOne(b.lost[0], u, d);
      RawOfHead(xs, u, d);
    }
  }

  lemma LostOfThree(a: seq<Entry>, b: seq<Entry>, c: seq<Entry>, u: UserId, d: Direction)
    ensures RawOf(a + b + c, u, d) == RawOf(a, u, d) + RawOf(b, u, d) + RawOf(c, u, d)
  {
    RawOfConcat(a + b, c, u, d);
    RawOfConcat(a, b, u, d);
  }

  lemma RoomForRest(e: Engine, xs: seq<Entry>)
    requires Int64Counters(e) && NonNegativeCounters(e) && xs != [] && Restorable(xs) && Room(e, xs)
    requires 0 <= xs[0].up <= MAX_INT64 && 0 <= xs[0].down <= MAX_INT64
    requires Int64Counters(AddTo(e, xs[0].user, Up, xs[0].up).engine)
    ensures Room(AddTo(AddTo(e, xs[0].user, Up, xs[0].up).engine, xs[0].user, Down, xs[0].down).engine, xs[1..])
  {
    var x := xs[0];
    var a := AddTo(e, x.user, Up, x.up).engine;
    var b := AddTo(a, x.user, Down, x.down).engine;
    forall u, d ensures Held(b, u, d) + RawOf(xs[1..], u, d) <= MAX_INT64 {
      AddToConserves(e, x.user, Up, x.up, u, d);
      AddToConserves(a, x.user, Down, x.down, u, d);
      AddToLossNonNegative(e, x.user, Up, x.up, u, d);
      AddToLossNonNegative(a, x.user, Down, x.down, u, d);
      RawOfHead(xs, u, d);
      assert Held(e, u, d) + RawOf(xs, u, d) <= MAX_INT64;
    }
  }

  lemma AddToLossNonNegative(e: Engine, x: UserId, f: Direction, n: nat, u: UserId, d: Direction)
    requires n <= MAX_INT64 && Int64Counters(e)
    ensures RawOf(AddTo(e, x, f, n).lost, u, d) >= 0
  {
    RawOfOne(AddTo(e, x, f, n).lost[0], u, d);
    assert AddTo(e, x, f, n).lost == [AddTo(e, x, f, n).lost[0]];
  }

  // ---------------------------------------------------------------- steps

  lemma TrafficRoom(start: Db, w: World, u: UserId, d: Direction, n: nat)
    requires Inv(start, w) && n <= MAX_INT64 && Bounded(AfterTraffic(w, u, d, n)) && NonNegativeCounters(w.engine)
    ensures Counter(w.engine, u, d) + n <= MAX_INT64
  {
    var k := Key(u, d, Rate(w));
    HeldIsProduced(start, w, k);
    SumSnoc(w.produced, Parcel(Rate(w), [LostEntry(u, d, n)]), k);
    RawOfOne(LostEntry(u, d, n), u, d);
    assert Produced(AfterTraffic(w, u, d, n), k) <= MAX_INT64;
  }

  lemma TrafficFits(start: Db, w: World, u: UserId, d: Direction, n: nat)
    requires Inv(start, w) && n <= MAX_INT64 && Bounded(AfterTraffic(w, u, d, n)) && NonNegativeCounters(w.engine)
    ensures var e := Register(w.engine, u, d);
            NonNegativeCounters(AddTo(e, u, d, n).engine) && AddTo(e, u, d, n).lost == [LostEntry(u, d, 0)]
  {
    TrafficRoom(start, w, u, d, n);
    AddToExact(Register(w.engine, u, d), u, d, n);
  }

  lemma RestoreRoom(start: Db, w: World)
    requires Inv(start, w) && Bounded(w) && w.hand.Some? && w.hand.value.node.trafficRate == Rate(w)
    ensures Room(w.engine, w.hand.value.entries)
  {
    forall u, d ensures Held(w.engine, u, d) + RawOf(w.hand.value.entries, u, d) <= MAX_INT64 {
      var k := Key(u, d, Rate(w));
      HeldIsProduced(start, w, k);
      SumOne(HandParcels(w.hand)[0], k);
      assert Produced(w, k) <= MAX_INT64;
    }
  }

  lemma ProducedGrows(w: World, s: Step, k: Key)
    requires Sane(w) && Enabled(w, s)
    ensures Produced(w, k) <= Produced(Next(w, s), k)
  {
    if s.Traffic? {
      SumSnoc(w.produced, Parcel(Rate(w), [LostEntry(s.user, s.dir, s.bytes)]), k);
      RawOfOne(LostEntry(s.user, s.dir, s.bytes), k.user, k.dir);
    }
  }

  lemma CountersStayNonNegative(start: Db, w: World, s: Step)
    requires Inv(start, w) && Enabled(w, s) && NonNegativeCounters(w.engine) && Bounded(Next(w, s)) && Bounded(w)
    ensures NonNegativeCounters(Next(w, s).engine)
  {
    match s
    case Traffic(u, d, n) => TrafficFits(start, w, u, d, n);
    case Drain(ids) => DrainOk(w.engine, ids);
    case Restore => RestoreFits(start, w);
    case _ =>
  }

  lemma RestoreFits(start: Db, w: World)
    requires Inv(start, w) && Enabled(w, Restore) && NonNegativeCounters(w.engine) && Bounded(w)
    ensures NonNegativeCounters(Next(w, Restore).engine)
  {
    ShapeIsRestorable(w.hand.value.entries);
    RestoreRoom(start, w);
    RestoreExact(w.engine, w.hand.value.entries, 0, Up);
  }

  /** Every step keeps the extended invariant. */
  lemma StepHealthy(start: Db, w: World, s: Step)
    requires Healthy(start, w) && Enabled(w, s)
    ensures Healthy(start, Next(w, s))
  {
    StepInv(start, w, s);
    if Bounded(Next(w, s)) {
      BoundedBefore(w, s);
      CountersStayNonNegative(start, w, s);
    }
  }

  lemma BoundedBefore(w: World, s: Step)
    requires Sane(w) && Enabled(w, s) && Bounded(Next(w, s))
    ensures Bounded(w)
  {
    forall k ensures Produced(w, k) <= MAX_INT64 { ProducedGrows(w, s, k); assert Produced(Next(w, s), k) <= MAX_INT64; }
  }

  lemma TrafficSheds(w: World, u: UserId, d: Direction, n: nat, k: Key)
    requires Int64Counters(w.engine) && n <= MAX_INT64
    ensures Lost(AfterTraffic(w, u, d, n), k) ==
            Lost(w, k) + if k == Key(u, d, Rate(w)) then Slack(Counter(w.engine, u, d), n) else 0
  {
    var e := Register(w.engine, u, d);
    SumSnoc(w.lost, Parcel(Rate(w), AddTo(e, u, d, n).lost), k);
    RawOfOne(LostEntry(u, d, Slack(Counter(w.engine, u, d), n)), k.user, k.dir);
  }

  lemma CrashSheds(w: World, left: bool, k: Key)
    ensures Lost(AfterCrash(w, left), k) == Lost(w, k) + InHand(w, k) + InCounters(w.engine, k)
  {
    LeftoverIsHeld(w.engine.counters, k.user, k.dir);
    SumSnoc(w.lost + HandParcels(w.hand), Parcel(Rate(w), Leftover(w.engine.counters)), k);
    SumConcat(w.lost, HandParcels(w.hand), k);
  }

  /** The loss of every step, exactly. */
  lemma StepShed(w: World, s: Step, k: Key)
    requires Sane(w) && Enabled(w, s)
    ensures Lost(Next(w, s), k) == Lost(w, k) + Shed(w, s, k)
  {
    match s
    case Traffic(u, d, n) => TrafficSheds(w, u, d, n, k);
    case Drain(ids) => SumSnoc(w.lost, Parcel(Rate(w), DrainFrom(w.engine, ids).entries), k);
    case Restore =>
      ShapeIsRestorable(w.hand.value.entries);
      SumSnoc(w.lost, Parcel(Rate(w), RestoreAll(w.engine, w.hand.value.entries).lost), k);
    case DropHand => SumConcat(w.lost, HandParcels(w.hand), k);
    case Crash(left) => CrashSheds(w, left, k);
    case Vanish(i) => if i >= CommittedCount(w) { SumSnoc(w.lost, ParcelOf(w.order[i].batch), k); }
    case _ =>
  }

  /** With bounded production only the named edges lose anything. */
  lemma NamedShedExact(start: Db, w: World, s: Step, k: Key)
    requires Healthy(start, w) && Enabled(w, s) && Bounded(Next(w, s))
    ensures Shed(w, s, k) == NamedShed(w, s, k)
  {
    BoundedBefore(w, s);
    match s
    case Traffic(u, d, n) =>
      TrafficFits(start, w, u, d, n);
      assert LostEntry(u, d, Slack(Counter(w.engine, u, d), n)) == LostEntry(u, d, 0);
    case Drain(ids) => DrainOk(w.engine, ids);
    case Restore => RestoreSheds(start, w, k);
    case _ =>
  }

  lemma RestoreSheds(start: Db, w: World, k: Key)
    requires Healthy(start, w) && Enabled(w, Restore) && Bounded(w)
    ensures Shed(w, Restore, k) == NamedShed(w, Restore, k)
  {
    var xs := w.hand.value.entries;
    ShapeIsRestorable(xs);
    RestoreRoom(start, w);
    RestoreExact(w.engine, xs, k.user, k.dir);
    SumOne(HandParcels(w.hand)[0], k);
  }

  // ---------------------------------------------------------------- runs

  ghost function ShedBy(w: World, steps: seq<Step>, w': World, k: Key): int
    requires Run(w, steps, w')
    decreases |steps|
  {
    if steps == [] then 0 else Shed(w, steps[0], k) + ShedBy(Next(w, steps[0]), steps[1..], w', k)
  }

  ghost function NamedShedBy(w: World, steps: seq<Step>, w': World, k: Key): int
    requires Run(w, steps, w')
    decreases |steps|
  {
    if steps == [] then 0 else NamedShed(w, steps[0], k) + NamedShedBy(Next(w, steps[0]), steps[1..], w', k)
  }

  lemma {:induction false} RunGrows(w: World, steps: seq<Step>, w': World, k: Key)
    requires Run(w, steps, w')
    ensures Produced(w, k) <= Produced(w', k)
    decreases |steps|
  {
    if steps != [] {
      ProducedGrows(w, steps[0], k);
      RunGrows(Next(w, steps[0]), steps[1..], w', k);
    }
  }

  lemma {:induction false} RunSheds(w: World, steps: seq<Step>, w': World, k: Key)
    requires Run(w, steps, w')
    ensures Lost(w', k) == Lost(w, k) + ShedBy(w, steps, w', k)
    decreases |steps|
  {
    if steps != [] {
      StepShed(w, steps[0], k);
      RunSheds(Next(w, steps[0]), steps[1..], w', k);
    }
  }

  lemma {:induction false} RunNamedSheds(start: Db, w: World, steps: seq<Step>, w': World, k: Key)
    requires Healthy(start, w) && Run(w, steps, w') && Bounded(w')
    ensures Healthy(start, w') && ShedBy(w, steps, w', k) == NamedShedBy(w, steps, w', k)
    decreases |steps|
  {
    if steps != [] {
      var next := Next(w, steps[0]);
      forall j ensures Produced(next, j) <= MAX_INT64 {
        RunGrows(next, steps[1..], w', j);
        assert Produced(w', j) <= MAX_INT64;
      }
      NamedShedExact(start, w, steps[0], k);
      StepHealthy(start, w, steps[0]);
      RunNamedSheds(start, next, steps[1..], w', k);
    }
  }

  /** Over every run, what is missing of every key is exactly what the lossy edges of that run shed. */
  lemma LossAccounted(node: Node, db: Db, steps: seq<Step>, w: World, k: Key)
    requires db.applied == [] && Run(Initial(node, db), steps, w)
    ensures CommittedCount(w) <= |w.order|
    ensures Produced(w, k) == InCounters(w.engine, k) + InHand(w, k) + Outstanding(w, k) + Applied(w, k) +
                              ShedBy(Initial(node, db), steps, w, k)
  {
    RunSheds(Initial(node, db), steps, w, k);
    TrafficConserved(node, db, steps, w, k);
  }

  /** With bounded production no counter is ever negative, and only the named edges shed. */
  lemma BoundedLoss(node: Node, db: Db, steps: seq<Step>, w: World, k: Key)
    requires db.applied == [] && Run(Initial(node, db), steps, w) && Bounded(w)
    ensures NonNegativeCounters(w.engine)
    ensures ShedBy(Initial(node, db), steps, w, k) == NamedShedBy(Initial(node, db), steps, w, k)
  {
    InitialInv(node, db);
    RunNamedSheds(db, Initial(node, db), steps, w, k);
  }
}
