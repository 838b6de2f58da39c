/** The accounting side of the engine: counters, retired users, drain and restore
    (internal/xrayadapter/engine.go). */
module EngineState {
  import opened Text
  import opened Model
  import opened Accounting
  import opened Database

  type CounterKey = (UserId, Direction)

  /** `users` are the users of the engine's snapshot, `open` those with a lease in the registry;
      `counters` holds the registered Xray counters. */
  datatype Engine = Engine(
    node: Node, users: set<UserId>, retired: set<UserId>,
    counters: map<CounterKey, int>, open: set<UserId>, running: bool)

  function Counter(e: Engine, u: UserId, d: Direction): int {
    if (u, d) in e.counters then e.counters[(u, d)] else 0
  }

  function SetCounter(e: Engine, u: UserId, d: Direction, v: int): Engine {
    if (u, d) in e.counters then e.(counters := e.counters[(u, d) := v]) else e
  }

  /** What a counter holds for accounting: a counter that wrapped below zero holds nothing. */
  function Pos(c: int): nat { if c < 0 then 0 else c }

  function Held(e: Engine, u: UserId, d: Direction): nat { Pos(Counter(e, u, d)) }

  // ---------------------------------------------------------------- drain

  datatype Drained = Drained(engine: Engine, entries: seq<Entry>, ok: bool)

  function TakenEntry(u: UserId, up: int, down: int): seq<Entry> {
    if up != 0 || down != 0 then [Entry(u, up, down)] else []
  }

  /** One user of the drain loop. On a negative counter it stops; `entries` is then what had already
      been taken out of the counters. */
  function DrainUser(e: Engine, u: UserId): Drained {
    var up := Counter(e, u, Up);
    if up < 0 then Drained(e, [], false)
    else
      var e1 := SetCounter(e, u, Up, 0);
      var down := Counter(e1, u, Down);
      if down < 0 then Drained(e1, TakenEntry(u, up, 0), false)
      else
        var e2 := SetCounter(e1, u, Down, 0);
        if up == 0 && down == 0 && u in e.retired && u !in e.open
        then Drained(e2.(retired := e2.retired - {u}), [], true)
        else Drained(e2, TakenEntry(u, up, down), true)
  }

  function DrainFrom(e: Engine, ids: seq<UserId>): Drained
    decreases |ids|
  {
    if ids == [] then Drained(e, [], true)
    else
      var first := DrainUser(e, ids[0]);
      if !first.ok then first
      else
        var rest := DrainFrom(first.engine, ids[1..]);
        Drained(rest.engine, first.entries + rest.entries, rest.ok)
  }

  /** The drain order: snapshot and retired users by rising id. */
  ghost predicate DrainOrder(e: Engine, ids: seq<UserId>) {
    RisingIds(ids) && forall u :: u in ids <==> u in e.users || u in e.retired
  }

  lemma RawOfConcat(a: seq<Entry>, b: seq<Entry>, u: UserId, d: Direction)
    ensures RawOf(a + b, u, d) == RawOf(a, u, d) + RawOf(b, u, d)
    decreases |b|
  {
    if b == [] {
      assert a + b == a;
    } else {
      RawOfConcat(a, b[..|b| - 1], u, d);
      assert (a + b)[..|a + b| - 1] == a + b[..|b| - 1];
    }
  }

  lemma RawOfOne(x: Entry, u: UserId, d: Direction)
    ensures RawOf([x], u, d) == if x.user == u then Amount(x, d) else 0
  {
    assert [x][..0] == [];
  }

  lemma DrainUserConserves(e: Engine, x: UserId, u: UserId, d: Direction)
    ensures Held(DrainUser(e, x).engine, u, d) + RawOf(DrainUser(e, x).entries, u, d) == Held(e, u, d)
  {
    var r := DrainUser(e, x);
    if |r.entries| == 1 {
      RawOfOne(r.entries[0], u, d);
      assert r.entries == [r.entries[0]];
    }
  }

  /** Whatever the drain returns or drops, it took out of the counters, no more and no less. */
  lemma {:induction false} DrainConserves(e: Engine, ids: seq<UserId>, u: UserId, d: Direction)
    ensures Held(DrainFrom(e, ids).engine, u, d) + RawOf(DrainFrom(e, ids).entries, u, d) == Held(e, u, d)
    decreases |ids|
  {
    if ids != [] {
      var first := DrainUser(e, ids[0]);
      DrainUserConserves(e, ids[0], u, d);
      if first.ok {
        DrainConserves(first.engine, ids[1..], u, d);
        RawOfConcat(first.entries, DrainFrom(first.engine, ids[1..]).entries, u, d);
      }
    }
  }

  ghost predicate SameButCounters(e: Engine, f: Engine) {
    && f.node == e.node && f.users == e.users && f.open == e.open && f.running == e.running
    && f.counters.Keys == e.counters.Keys && f.retired <= e.retired
  }

  /** A retired user is forgotten only when it has no lease and its counters are empty. */
  ghost predicate ForgetsSafely(e: Engine, f: Engine) {
    forall u :: u in e.retired && u !in f.retired ==> u !in e.open && Counter(f, u, Up) == 0 && Counter(f, u, Down) == 0
  }

  ghost predicate ZerosStay(e: Engine, f: Engine) {
    forall u, d :: Counter(e, u, d) == 0 ==> Counter(f, u, d) == 0
  }

  lemma DrainUserFrames(e: Engine, x: UserId)
    ensures SameButCounters(e, DrainUser(e, x).engine)
    ensures ForgetsSafely(e, DrainUser(e, x).engine) && ZerosStay(e, DrainUser(e, x).engine)
  {
  }

  /** A drain leaves settings, users, leases and registrations alone, and forgets safely. */
  lemma {:induction false} DrainFrames(e: Engine, ids: seq<UserId>)
    ensures SameButCounters(e, DrainFrom(e, ids).engine)
    ensures ForgetsSafely(e, DrainFrom(e, ids).engine) && ZerosStay(e, DrainFrom(e, ids).engine)
    decreases |ids|
  {
    if ids != [] {
      var first := DrainUser(e, ids[0]);
      DrainUserFrames(e, ids[0]);
      if first.ok {
        DrainFrames(first.engine, ids[1..]);
        FramesCompose(e, first.engine, DrainFrom(first.engine, ids[1..]).engine);
      }
    }
  }

  lemma FramesCompose(e: Engine, f: Engine, g: Engine)
    requires SameButCounters(e, f) && ForgetsSafely(e, f) && ZerosStay(e, f)
    requires SameButCounters(f, g) && ForgetsSafely(f, g) && ZerosStay(f, g)
    ensures SameButCounters(e, g) && ForgetsSafely(e, g) && ZerosStay(e, g)
  {
  }

  lemma DrainKeepsNode(e: Engine, ids: seq<UserId>)
    ensures DrainFrom(e, ids).engine.node == e.node
  {
    DrainFrames(e, ids);
  }

  /** A drain that succeeds empties every counter it visits. */
  lemma {:induction false} DrainEmpties(e: Engine, ids: seq<UserId>, u: UserId, d: Direction)
    requires DrainFrom(e, ids).ok && u in ids
    ensures Counter(DrainFrom(e, ids).engine, u, d) == 0
    decreases |ids|
  {
    var first := DrainUser(e, ids[0]);
    DrainFrames(first.engine, ids[1..]);
    if u != ids[0] {
      assert u in ids[1..];
      DrainEmpties(first.engine, ids[1..], u, d);
    } else {
      assert Counter(first.engine, u, d) == 0;
    }
  }

  lemma DrainUserOther(e: Engine, x: UserId, u: UserId)
    requires x != u
    ensures var f := DrainUser(e, x).engine;
            (u in f.retired <==> u in e.retired) && Counter(f, u, Up) == Counter(e, u, Up) && Counter(f, u, Down) == Counter(e, u, Down)
  {
  }

  lemma {:induction false} DrainOthers(e: Engine, ids: seq<UserId>, u: UserId)
    requires u !in ids
    ensures u in DrainFrom(e, ids).engine.retired <==> u in e.retired
    decreases |ids|
  {
    if ids != [] {
      DrainUserOther(e, ids[0], u);
      if DrainUser(e, ids[0]).ok { DrainOthers(DrainUser(e, ids[0]).engine, ids[1..], u); }
    }
  }

  /** A successful drain forgets a retired user exactly when it had no lease and no traffic. */
  lemma {:induction false} DrainForgetsIff(e: Engine, ids: seq<UserId>, u: UserId)
    requires RisingIds(ids) && DrainFrom(e, ids).ok && u in ids
    ensures u in DrainFrom(e, ids).engine.retired <==>
            u in e.retired && (u in e.open || Counter(e, u, Up) != 0 || Counter(e, u, Down) != 0)
    decreases |ids|
  {
    var first := DrainUser(e, ids[0]);
    DrainUserFrames(e, ids[0]);
    if u == ids[0] {
      DrainOthers(first.engine, ids[1..], u);
    } else {
      assert u in ids[1..];
      DrainUserOther(e, ids[0], u);
      DrainForgetsIff(first.engine, ids[1..], u);
    }
  }

  ghost predicate Int64Counters(e: Engine) {
    forall k :: k in e.counters ==> IsInt64(e.counters[k])
  }

  lemma DrainUserShape(e: Engine, u: UserId)
    requires Int64Counters(e) && u > 0
    ensures var first := DrainUser(e, u);
            && DrainShape(first.entries) && Int64Counters(first.engine) && |first.entries| <= 1
            && forall x :: x in first.entries ==> x.user == u
  {
  }

  /** The entries of a drain have the shape batches need: rising users out of `ids`, non-negative
      amounts, never two zeros. */
  lemma {:induction false} DrainShapes(e: Engine, ids: seq<UserId>)
    requires Int64Counters(e) && RisingIds(ids) && forall u :: u in ids ==> u > 0
    ensures DrainShape(DrainFrom(e, ids).entries) && Int64Counters(DrainFrom(e, ids).engine)
    ensures forall x :: x in DrainFrom(e, ids).entries ==> x.user in ids
    decreases |ids|
  {
    if ids != [] {
      var first := DrainUser(e, ids[0]);
      assert ids[0] in ids;
      DrainUserShape(e, ids[0]);
      if first.ok {
        DrainShapes(first.engine, ids[1..]);
        var rest := DrainFrom(first.engine, ids[1..]).entries;
        forall x | x in rest ensures ids[0] < x.user {
          assert x.user in ids[1..];
        }
        JoinShapes(first.entries, rest, ids[0]);
      }
    }
  }

  lemma JoinShapes(a: seq<Entry>, b: seq<Entry>, u: UserId)
    requires DrainShape(a) && DrainShape(b) && |a| <= 1 && (forall x :: x in a ==> x.user == u)
    requires forall x :: x in b ==> u < x.user
    ensures DrainShape(a + b)
  {
    forall i | 0 <= i < |b| ensures u < b[i].user { assert b[i] in b; }
  }

  // ---------------------------------------------------------------- adding to counters

  /** What one counter addition loses: nothing, unless int64 wraps or the counter was negative. */
  function Slack(c: int, n: nat): nat
    requires n <= MAX_INT64 && IsInt64(c)
  {
    Pos(c) + n - Pos(Wrap64(c + n))
  }

  datatype Added = Added(engine: Engine, lost: seq<Entry>)

  function LostEntry(u: UserId, d: Direction, n: nat): Entry { if d == Up then Entry(u, n, 0) else Entry(u, 0, n) }

  /** counter.Add on one registered counter; on an unregistered one the amount is lost. */
  function AddTo(e: Engine, u: UserId, d: Direction, n: nat): Added
    requires n <= MAX_INT64 && Int64Counters(e)
  {
    if (u, d) in e.counters then
      var c := e.counters[(u, d)];
      Added(e.(counters := e.counters[(u, d) := Wrap64(c + n)]), [LostEntry(u, d, Slack(c, n))])
    else Added(e, [LostEntry(u, d, n)])
  }

  lemma AddToConserves(e: Engine, x: UserId, f: Direction, n: nat, u: UserId, d: Direction)
    requires n <= MAX_INT64 && Int64Counters(e)
    ensures Held(AddTo(e, x, f, n).engine, u, d) + RawOf(AddTo(e, x, f, n).lost, u, d) ==
            Held(e, u, d) + if u == x && d == f then n else 0
  {
    var r := AddTo(e, x, f, n);
    RawOfOne(r.lost[0], u, d);
    assert r.lost == [r.lost[0]];
  }

  lemma AddToFrames(e: Engine, x: UserId, f: Direction, n: nat)
    requires n <= MAX_INT64 && Int64Counters(e)
    ensures Int64Counters(AddTo(e, x, f, n).engine)
    ensures SameButCounters(e, AddTo(e, x, f, n).engine) && AddTo(e, x, f, n).engine.retired == e.retired
  {
  }

  ghost predicate Restorable(entries: seq<Entry>) {
    forall x :: x in entries ==> 0 <= x.up <= MAX_INT64 && 0 <= x.down <= MAX_INT64
  }

  /** Restore: each entry, uplink then downlink. */
  function RestoreAll(e: Engine, entries: seq<Entry>): (r: Added)
    requires Int64Counters(e) && Restorable(entries)
    ensures Int64Counters(r.engine)
    decreases |entries|
  {
    if entries == [] then Added(e, [])
    else
      var x := entries[0];
      assert x in entries;
      var a := AddTo(e, x.user, Up, x.up);
      assert Int64Counters(a.engine);
      var b := AddTo(a.engine, x.user, Down, x.down);
      assert Int64Counters(b.engine);
      var rest := RestoreAll(b.engine, entries[1..]);
      Added(rest.engine, a.lost + b.lost + rest.lost)
  }

  /** Restore puts back what it can; the rest is exactly what it loses. */
  lemma {:induction false} RestoreConserves(e: Engine, entries: seq<Entry>, u: UserId, d: Direction)
    requires Int64Counters(e) && Restorable(entries)
    ensures Held(RestoreAll(e, entries).engine, u, d) + RawOf(RestoreAll(e, entries).lost, u, d) ==
            Held(e, u, d) + RawOf(entries, u, d)
    decreases |entries|
  {
    if entries != [] {
      var x := entries[0];
      assert x in entries;
      var a := AddTo(e, x.user, Up, x.up);
      AddToConserves(e, x.user, Up, x.up, u, d);
      AddToFrames(e, x.user, Up, x.up);
      var b := AddTo(a.engine, x.user, Down, x.down);
      AddToConserves(a.engine, x.user, Down, x.down, u, d);
      AddToFrames(a.engine, x.user, Down, x.down);
      var rest := RestoreAll(b.engine, entries[1..]);
      RestoreConserves(b.engine, entries[1..], u, d);
      RawOfConcat(a.lost + b.lost, rest.lost, u, d);
      RawOfConcat(a.lost, b.lost, u, d);
      RawOfConcat([x], entries[1..], u, d);
      RawOfOne(x, u, d);
      assert entries == [x] + entries[1..];
    }
  }

  lemma {:induction false} RestoreFrames(e: Engine, entries: seq<Entry>)
    requires Int64Counters(e) && Restorable(entries)
    ensures SameButCounters(e, RestoreAll(e, entries).engine)
    ensures RestoreAll(e, entries).engine.retired == e.retired
    decreases |entries|
  {
    if entries != [] {
      var x := entries[0];
      assert x in entries;
      AddToFrames(e, x.user, Up, x.up);
      var a := AddTo(e, x.user, Up, x.up);
      AddToFrames(a.engine, x.user, Down, x.down);
      RestoreFrames(AddTo(a.engine, x.user, Down, x.down).engine, entries[1..]);
    }
  }

  // ---------------------------------------------------------------- traffic and leases

  /** Traffic of a user with a lease; Xray registers the counter on first use. */
  function Register(e: Engine, u: UserId, d: Direction): Engine {
    if (u, d) in e.counters then e else e.(counters := e.counters[(u, d) := 0])
  }

  /** The users with a lease change as clients can make them change. */
  ghost predicate OpenMayBecome(e: Engine, open: set<UserId>) {
    || open == e.open
    || (exists u :: e.running && u in e.users && open == e.open + {u})
    || (exists u :: open == e.open - {u})
  }

  lemma TrafficInto(e: Engine, u: UserId, d: Direction, n: nat)
    requires Int64Counters(e) && n <= MAX_INT64
    ensures AddTo(Register(e, u, d), u, d, n).engine ==
            e.(counters := e.counters[(u, d) := Wrap64(Counter(e, u, d) + n)])
  {
    assert e.counters[(u, d) := 0][(u, d) := Wrap64(Counter(e, u, d) + n)] == e.counters[(u, d) := Wrap64(Counter(e, u, d) + n)];
  }

  // ---------------------------------------------------------------- applying a snapshot

  function IdsOf(users: seq<User>): set<UserId> { UserMap(users).Keys }

  /** The bookkeeping of a successful Apply: dropped users are retired, present ones are not. */
  function Adopt(e: Engine, next: Snapshot): Engine {
    var ids := IdsOf(next.users);
    e.(node := next.node, users := ids, retired := e.retired + (e.users - ids) - ids)
  }

  /** Every user that has an open lease or traffic in a counter will be drained. */
  ghost predicate Covered(e: Engine) {
    forall u :: u in e.open || Counter(e, u, Up) != 0 || Counter(e, u, Down) != 0 ==> u in e.users || u in e.retired
  }

  lemma AdoptCovers(e: Engine, next: Snapshot)
    requires Covered(e)
    ensures Covered(Adopt(e, next))
  {
  }

  /** Retired are exactly those no longer present that were present or retired before; the settings are the
      new ones, and nothing else changes. */
  lemma AdoptExact(e: Engine, next: Snapshot, u: UserId)
    ensures var f := Adopt(e, next);
            && (u in f.users <==> u in UserMap(next.users))
            && (u in f.retired <==> u !in UserMap(next.users) && (u in e.users || u in e.retired))
            && f.node == next.node && f.counters == e.counters && f.open == e.open && f.running == e.running
  {
  }

  lemma DrainCovers(e: Engine, ids: seq<UserId>)
    requires Covered(e)
    ensures Covered(DrainFrom(e, ids).engine)
  {
    DrainFrames(e, ids);
    var f := DrainFrom(e, ids).engine;
    forall u | u in f.open || Counter(f, u, Up) != 0 || Counter(f, u, Down) != 0 ensures u in f.users || u in f.retired {
      assert Counter(e, u, Up) == 0 ==> Counter(f, u, Up) == 0;
      assert Counter(e, u, Down) == 0 ==> Counter(f, u, Down) == 0;
    }
  }

  /** A drain in drain order leaves no traffic behind on a covered engine. */
  lemma DrainLeavesNothing(e: Engine, ids: seq<UserId>, u: UserId, d: Direction)
    requires Covered(e) && DrainOrder(e, ids) && DrainFrom(e, ids).ok
    ensures Counter(DrainFrom(e, ids).engine, u, d) == 0
  {
    DrainFrames(e, ids);
    if u in ids { DrainEmpties(e, ids, u, d); }
  }
}
