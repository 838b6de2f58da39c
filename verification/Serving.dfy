/** How the accounting protocol moves while the service runs: reachability, runs that lose nothing,
    and the clients' steps that fall between two critical sections. */
module Serving {
  import opened Text
  import opened Model
  import opened Accounting
  import opened Database
  import opened EngineState
  import opened Pipeline
  import opened PipelineSafety
  import opened PipelineLoss

  // ---------------------------------------------------------------- reachability

  ghost predicate Reaches(w: World, w': World) { exists steps :: Run(w, steps, w') }

  /** A run that loses nothing, as long as production is bounded. */
  ghost predicate Lossless(w: World, w': World) {
    Reaches(w, w') && (Bounded(w') ==> forall k :: Lost(w', k) == Lost(w, k))
  }

  lemma {:induction false} RunConcat(a: World, s: seq<Step>, b: World, t: seq<Step>, c: World)
    requires Run(a, s, b) && Run(b, t, c)
    ensures Run(a, s + t, c)
    decreases |s|
  {
    if s == [] {
      assert s + t == t;
    } else {
      RunConcat(Next(a, s[0]), s[1..], b, t, c);
      assert (s + t)[0] == s[0] && (s + t)[1..] == s[1..] + t;
    }
  }

  lemma ReachesSelf(w: World)
    ensures Lossless(w, w)
  {
    assert Run(w, [], w);
  }

  lemma ReachesThrough(a: World, b: World, c: World)
    requires Reaches(a, b) && Reaches(b, c)
    ensures Reaches(a, c)
  {
    var s :| Run(a, s, b);
    var t :| Run(b, t, c);
    RunConcat(a, s, b, t, c);
  }

  lemma BoundedEarlier(w: World, w': World)
    requires Reaches(w, w') && Bounded(w')
    ensures Bounded(w)
  {
    var steps :| Run(w, steps, w');
    forall k ensures Produced(w, k) <= MAX_INT64 {
      RunGrows(w, steps, w', k);
      assert Produced(w', k) <= MAX_INT64;
    }
  }

  lemma LosslessThrough(a: World, b: World, c: World)
    requires Lossless(a, b) && Lossless(b, c)
    ensures Lossless(a, c)
  {
    ReachesThrough(a, b, c);
    if Bounded(c) {
      BoundedEarlier(b, c);
      forall k ensures Lost(c, k) == Lost(a, k) { assert Lost(b, k) == Lost(a, k); }
    }
  }

  /** A run that loses exactly `loss`, as long as production is bounded. */
  ghost predicate Loses(w: World, w': World, loss: Key -> int) {
    Reaches(w, w') && (Bounded(w') ==> forall k :: Lost(w', k) == Lost(w, k) + loss(k))
  }

  lemma LosesAfter(a: World, b: World, c: World, loss: Key -> int)
    requires Lossless(a, b) && Loses(b, c, loss)
    ensures Loses(a, c, loss)
  {
    ReachesThrough(a, b, c);
    if Bounded(c) {
      BoundedEarlier(b, c);
      forall k ensures Lost(c, k) == Lost(a, k) + loss(k) { assert Lost(b, k) == Lost(a, k); }
    }
  }

  lemma LosesBefore(a: World, b: World, c: World, loss: Key -> int)
    requires Loses(a, b, loss) && Lossless(b, c)
    ensures Loses(a, c, loss)
  {
    ReachesThrough(a, b, c);
    if Bounded(c) {
      BoundedEarlier(b, c);
      forall k ensures Lost(c, k) == Lost(a, k) + loss(k) { assert Lost(b, k) == Lost(a, k) + loss(k); }
    }
  }

  /** One step, with its exact loss. */
  lemma TakeStep(start: Db, w: World, s: Step)
    requires Healthy(start, w) && Enabled(w, s)
    ensures Healthy(start, Next(w, s)) && Reaches(w, Next(w, s))
    ensures Bounded(Next(w, s)) ==> forall k :: Lost(Next(w, s), k) == Lost(w, k) + NamedShed(w, s, k)
  {
    StepHealthy(start, w, s);
    assert Run(Next(w, s), [], Next(w, s));
    assert [s][1..] == [];
    assert Run(w, [s], Next(w, s));
    if Bounded(Next(w, s)) {
      forall k ensures Lost(Next(w, s), k) == Lost(w, k) + NamedShed(w, s, k) {
        StepShed(w, s, k);
        NamedShedExact(start, w, s, k);
      }
    }
  }

  /** Steps that by their kind lose nothing. */
  predicate Quiet(s: Step) { !s.DropHand? && !s.Restore? && !s.Crash? && !s.Vanish? }

  lemma TakeQuietStep(start: Db, w: World, s: Step)
    requires Healthy(start, w) && Enabled(w, s) && Quiet(s)
    ensures Healthy(start, Next(w, s)) && Lossless(w, Next(w, s))
  {
    TakeStep(start, w, s);
  }

  // ---------------------------------------------------------------- clients

  /** The engine keeps its settings and users; counters may appear and grow, only while it runs. */
  ghost predicate OnlyServed(e: Engine, f: Engine) {
    && f.node == e.node && f.users == e.users && f.retired == e.retired && f.running == e.running
    && e.counters.Keys <= f.counters.Keys && (!e.running ==> f.counters == e.counters)
  }

  ghost predicate SameStore(w: World, w': World) {
    && w'.order == w.order && w'.tmp == w.tmp && w'.acked == w.acked && w'.clock == w.clock
    && w'.down == w.down && w'.db == w.db
  }

  /** Only clients acted, and nothing was lost. */
  ghost predicate Calm(w: World, w': World) {
    Lossless(w, w') && OnlyServed(w.engine, w'.engine) && SameStore(w, w') && w'.hand == w.hand
  }

  lemma CalmThrough(a: World, b: World, c: World)
    requires Calm(a, b) && Calm(b, c)
    ensures Calm(a, c)
  {
    LosslessThrough(a, b, c);
  }

  lemma TrafficIsCalm(start: Db, w: World, u: UserId, d: Direction, n: nat)
    requires Healthy(start, w) && w.engine.running && u in w.engine.open && n <= MAX_INT64
    ensures Healthy(start, AfterTraffic(w, u, d, n)) && Calm(w, AfterTraffic(w, u, d, n))
  {
    TakeQuietStep(start, w, Traffic(u, d, n));
  }

  function WithOpen(w: World, open: set<UserId>): World { w.(engine := w.engine.(open := open)) }

  lemma OpenIsCalm(start: Db, w: World, open: set<UserId>)
    requires Healthy(start, w) && OpenMayBecome(w.engine, open)
    ensures Healthy(start, WithOpen(w, open)) && Calm(w, WithOpen(w, open))
  {
    if open == w.engine.open {
      assert WithOpen(w, open) == w;
      ReachesSelf(w);
    } else if u :| w.engine.running && u in w.engine.users && open == w.engine.open + {u} {
      TakeQuietStep(start, w, OpenLease(u));
    } else {
      var u :| open == w.engine.open - {u};
      TakeQuietStep(start, w, CloseLease(u));
    }
  }

  // ---------------------------------------------------------------- what is in hand

  /** Everything in hand came from counters that still exist. */
  ghost predicate Registered(xs: seq<Entry>, counters: map<CounterKey, int>) {
    forall x, d :: x in xs && Amount(x, d) != 0 ==> (x.user, d) in counters
  }

  lemma {:induction false} RegisteredOrNothing(xs: seq<Entry>, counters: map<CounterKey, int>, u: UserId, d: Direction)
    requires Registered(xs, counters) && (u, d) !in counters
    ensures RawOf(xs, u, d) == 0
  {
    if xs != [] {
      assert xs[|xs| - 1] in xs;
      RegisteredOrNothing(xs[..|xs| - 1], counters, u, d);
    }
  }

  lemma {:induction false} DrainedAreRegistered(e: Engine, ids: seq<UserId>)
    ensures Registered(DrainFrom(e, ids).entries, e.counters)
    decreases |ids|
  {
    if ids != [] {
      var first := DrainUser(e, ids[0]);
      DrainUserFrames(e, ids[0]);
      if first.ok { DrainedAreRegistered(first.engine, ids[1..]); }
    }
  }

  /** Putting what is in hand back on registered counters loses nothing. */
  lemma RestoreIsLossless(start: Db, w: World)
    requires Healthy(start, w) && Enabled(w, Restore) && Registered(w.hand.value.entries, w.engine.counters)
    ensures Healthy(start, Next(w, Restore)) && Lossless(w, Next(w, Restore))
  {
    TakeStep(start, w, Restore);
    forall k ensures NamedShed(w, Restore, k) == 0 {
      SumOne(HandParcels(w.hand)[0], k);
      if (k.user, k.dir) !in w.engine.counters { RegisteredOrNothing(w.hand.value.entries, w.engine.counters, k.user, k.dir); }
    }
  }
}
