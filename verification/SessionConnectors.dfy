/** Connector limits: which sources an update keeps, when the update breaks down instead, and how
    far admission and migration may push the number of sources. */
module SessionConnectors {
  import opened Wrappers
  import opened Model
  import opened IpRules
  import opened SessionTable
  import opened SessionSafety
  import opened Ledger

  // ---------------------------------------------------------------- ranking by age

  ghost predicate DistinctAges(ages: map<Addr, LeaseId>) {
    forall a, b :: a in ages && b in ages && a != b ==> ages[a] != ages[b]
  }

  lemma AgesDistinct(s: Leases, u: UserId)
    ensures DistinctAges(Ages(s, u))
  {
    var ages := Ages(s, u);
    forall a, b | a in ages && b in ages && a != b ensures ages[a] != ages[b] {
      AgeIsLeast(s, u, a);
      AgeIsLeast(s, u, b);
    }
  }

  lemma AgeIsLeast(s: Leases, u: UserId, a: Addr)
    requires a in LiveSources(s, u)
    ensures LiveAt(s, u, a) != {}
    ensures Ages(s, u)[a] == Least(LiveAt(s, u, a))
  {
    var i :| i in s && s[i].user == u && !s[i].revoked && s[i].source == a;
    assert i in LiveAt(s, u, a);
  }

  ghost function Youngest(ages: map<Addr, LeaseId>): (y: Addr)
    requires ages != map[] && DistinctAges(ages)
    ensures y in ages && forall a :: a in ages && a != y ==> ages[a] < ages[y]
  {
    YoungestExists(ages);
    var y :| y in ages && forall a :: a in ages ==> ages[a] <= ages[y];
    y
  }

  lemma {:induction false} YoungestExists(ages: map<Addr, LeaseId>)
    requires ages != map[]
    ensures exists y :: y in ages && forall a :: a in ages ==> ages[a] <= ages[y]
    decreases |ages|
  {
    var x :| x in ages;
    var rest := ages - {x};
    if rest == map[] {
      assert forall a :: a in ages ==> a in rest || a == x;
    } else {
      YoungestExists(rest);
      var y :| y in rest && forall a :: a in rest ==> rest[a] <= rest[y];
      var z := if ages[x] <= ages[y] then y else x;
      assert forall a :: a in ages ==> a in rest || a == x;
      assert z in ages && forall a :: a in ages ==> ages[a] <= ages[z];
    }
  }

  /** Exactly min(limit, number of sources) sources rank among the `limit` oldest. */
  lemma {:induction false} OldestSize(ages: map<Addr, LeaseId>, limit: nat)
    requires DistinctAges(ages)
    ensures |Oldest(ages, limit)| == if limit < |ages| then limit else |ages|
    decreases |ages|
  {
    if ages == map[] {
      assert Oldest(ages, limit) == {};
    } else {
      var y := Youngest(ages);
      var rest := ages - {y};
      assert Older(ages, y) == rest.Keys;
      assert |rest.Keys| == |ages| - 1 by { assert ages.Keys == rest.Keys + {y}; }
      forall a | a in rest ensures Older(ages, a) == Older(rest, a) {}
      OldestSize(rest, limit);
      if limit < |ages| {
        assert Oldest(ages, limit) == Oldest(rest, limit);
      } else {
        assert Oldest(ages, limit) == Oldest(rest, limit) + {y};
      }
    }
  }

  /** A kept source is older than any dropped one. */
  lemma OldestAreOldest(ages: map<Addr, LeaseId>, limit: nat, kept: Addr, dropped: Addr)
    requires DistinctAges(ages)
    requires kept in Oldest(ages, limit) && dropped in ages && dropped !in Oldest(ages, limit)
    ensures ages[kept] < ages[dropped]
  {
    if ages[dropped] < ages[kept] {
      SubsetSize(Older(ages, dropped), Older(ages, kept));
    }
  }

  // ---------------------------------------------------------------- after an update

  ghost function LiveRevised(t: Table, next: Snapshot, u: UserId): set<Addr> { LiveSources(Revised(t, next).sessions, u) }

  ghost function LiveUpdated(t: Table, next: Snapshot, u: UserId): set<Addr> { LiveSources(Update(t, next).sessions, u) }

  function NewLimit(next: Snapshot, u: UserId): int
    requires u in UserMap(next.users)
  {
    EffectiveLimit(UserMap(next.users)[u].connectorLimit, next.node.connectorLimit)
  }

  /** The live sources an update leaves to a limited user: the oldest of those that survived the
      revocation when the counts list more than the limit, otherwise all of them. */
  lemma SourcesAfterUpdate(t: Table, next: Snapshot, u: UserId)
    requires u in UserMap(next.users) && NewLimit(next, u) > 0
    ensures LiveUpdated(t, next, u) ==
            if NewLimit(next, u) < ListedSources(t.sources, u)
            then Oldest(Ages(Revised(t, next).sessions, u), NewLimit(next, u)) else LiveRevised(t, next, u)
  {
    var mid := Revised(t, next);
    assert LimitOf(mid, u) == NewLimit(next, u);
    CutSources(mid, u);
  }

  lemma CutSources(t: Table, u: UserId)
    requires u in t.users && LimitOf(t, u) > 0
    ensures LiveSources(Enforced(t).sessions, u) ==
            if LimitOf(t, u) < ListedSources(t.sources, u) then Oldest(Ages(t.sessions, u), LimitOf(t, u))
            else LiveSources(t.sessions, u)
  {
    var s, r := t.sessions, Enforced(t).sessions;
    var keep := if LimitOf(t, u) < ListedSources(t.sources, u) then Oldest(Ages(s, u), LimitOf(t, u)) else LiveSources(s, u);
    forall a ensures a in LiveSources(r, u) <==> a in keep {
      if i :| i in r && r[i].user == u && !r[i].revoked && r[i].source == a {
        assert i in s && s[i].user == u && s[i].source == a && !s[i].revoked;
        assert i !in OverLimit(t);
      }
      if a in keep {
        var i :| i in s && s[i].user == u && !s[i].revoked && s[i].source == a;
        assert i !in OverLimit(t);
        assert r[i] == s[i];
      }
    }
  }

  lemma OldestFit(s: Leases, u: UserId, limit: nat)
    ensures |Oldest(Ages(s, u), limit)| == if limit < |LiveSources(s, u)| then limit else |LiveSources(s, u)|
    ensures |LiveSources(s, u)| <= limit ==> Oldest(Ages(s, u), limit) == LiveSources(s, u)
  {
    var ages := Ages(s, u);
    AgesDistinct(s, u);
    OldestSize(ages, limit);
    assert |ages| == |ages.Keys| && Oldest(ages, limit) <= ages.Keys;
    if |LiveSources(s, u)| <= limit { EqualWhenSameSize(Oldest(ages, limit), ages.Keys); }
  }

  /** In every state: after an update a limited user is within its limit if and only if the counts
      listed more sources than the limit, so that the cut took place, or what survived fits anyway. */
  lemma LimitAfterUpdateIff(t: Table, next: Snapshot, u: UserId)
    requires u in UserMap(next.users) && NewLimit(next, u) > 0
    ensures |LiveUpdated(t, next, u)| <= NewLimit(next, u) <==>
            NewLimit(next, u) < ListedSources(t.sources, u) || |LiveRevised(t, next, u)| <= NewLimit(next, u)
  {
    SourcesAfterUpdate(t, next, u);
    OldestFit(Revised(t, next).sessions, u, NewLimit(next, u));
  }

  lemma SurvivorsAreListed(t: Table, next: Snapshot, u: UserId)
    requires Exact(t)
    ensures |LiveRevised(t, next, u)| <= ListedSources(t.sources, u) == |SourcesOf(t.sessions, u)|
  {
    InnerKeys(t.sources, t.sessions, u);
    var r := Revised(t, next).sessions;
    RevokeKeepsSources(t.sessions, RevokedByUpdate(t, next), u);
    SubsetSize(LiveSources(r, u), SourcesOf(r, u));
  }

  /** Each of these sources is older than each of those. */
  ghost predicate OlderThan(ages: map<Addr, LeaseId>, these: set<Addr>, those: set<Addr>) {
    forall a, b :: a in these && b in those ==> a in ages && b in ages && ages[a] < ages[b]
  }

  /** With exact counts no authorised user with a positive effective limit has more live sources than
      the limit after an update; those kept are older than those dropped; none is dropped needlessly. */
  lemma UpdateEnforcesLimit(t: Table, next: Snapshot, u: UserId)
    requires Exact(t) && u in UserMap(next.users) && NewLimit(next, u) > 0
    ensures |LiveUpdated(t, next, u)| <= NewLimit(next, u)
    ensures |LiveRevised(t, next, u)| <= NewLimit(next, u) ==> LiveUpdated(t, next, u) == LiveRevised(t, next, u)
    ensures OlderThan(Ages(Revised(t, next).sessions, u), LiveUpdated(t, next, u),
                      LiveRevised(t, next, u) - LiveUpdated(t, next, u))
  {
    var s, limit := Revised(t, next).sessions, NewLimit(next, u);
    var live, left := LiveRevised(t, next, u), LiveUpdated(t, next, u);
    SurvivorsAreListed(t, next, u);
    LimitAfterUpdateIff(t, next, u);
    SourcesAfterUpdate(t, next, u);
    OldestFit(s, u, limit);
    AgesDistinct(s, u);
    forall kept, dropped | kept in left && dropped in live - left
      ensures kept in Ages(s, u) && dropped in Ages(s, u) && Ages(s, u)[kept] < Ages(s, u)[dropped]
    {
      OldestAreOldest(Ages(s, u), limit, kept, dropped);
    }
  }

  lemma EqualWhenSameSize<T>(a: set<T>, b: set<T>)
    requires a <= b && |a| == |b|
    ensures a == b
  {
    assert b == a + (b - a);
  }

  // ---------------------------------------------------------------- when an update breaks down

  /** Lowering a user's own positive limit below the sources it has listed always makes the update
      panic: the policy change revokes all its leases, so none is left to slice. */
  lemma LoweringOwnLimitPanics(t: Table, next: Snapshot, u: UserId)
    requires u in t.users && u in UserMap(next.users)
    requires UserMap(next.users)[u].connectorLimit != t.users[u].connectorLimit
    requires 0 < NewLimit(next, u) < ListedSources(t.sources, u)
    ensures UpdatePanics(t, next)
  {
    var r := Revised(t, next).sessions;
    assert PolicyChanged(t.users[u], UserMap(next.users)[u]) by {
      var a, b := t.users[u].(disconnectIPs := []), UserMap(next.users)[u].(disconnectIPs := []);
      assert a.connectorLimit != b.connectorLimit;
    }
    forall i | i in r && r[i].user == u ensures r[i].revoked {
      assert i in RevokedByUpdate(t, next);
    }
    assert LiveSources(r, u) == {};
    assert SliceFails(t, next, u);
  }

  /** With exact counts: the update panics if and only if some user has more sources in the table than
      its new limit, of which fewer than the limit survive the revocation. */
  lemma PanicsIff(t: Table, next: Snapshot)
    requires Exact(t)
    ensures UpdatePanics(t, next) <==>
            exists u :: OverNewLimit(t, next, u) && |LiveRevised(t, next, u)| < NewLimit(next, u)
  {
    forall u | u in UserMap(next.users)
      ensures SliceFails(t, next, u) <==> OverNewLimit(t, next, u) && |LiveRevised(t, next, u)| < NewLimit(next, u)
    {
      InnerKeys(t.sources, t.sessions, u);
    }
  }

  predicate OverNewLimit(t: Table, next: Snapshot, u: UserId) {
    u in UserMap(next.users) && 0 < NewLimit(next, u) < |SourcesOf(t.sessions, u)|
  }

  /** With exact counts an update does not panic when every lease of a user over its new limit is live
      and untouched by the revocation: those leases still provide the sources the slice skips. */
  lemma UntouchedUsersDoNotPanic(t: Table, next: Snapshot)
    requires Exact(t)
    requires forall i | i in t.sessions && OverNewLimit(t, next, t.sessions[i].user) ::
               !t.sessions[i].revoked && i !in RevokedByUpdate(t, next)
    ensures !UpdatePanics(t, next)
  {
    PanicsIff(t, next);
    var r := Revised(t, next).sessions;
    forall u | OverNewLimit(t, next, u) ensures |LiveRevised(t, next, u)| >= NewLimit(next, u) {
      forall a | a in SourcesOf(t.sessions, u) ensures a in LiveSources(r, u) {
        var i :| i in t.sessions && t.sessions[i].user == u && t.sessions[i].source == a;
        assert r[i] == t.sessions[i];
      }
      SubsetSize(SourcesOf(t.sessions, u), LiveSources(r, u));
    }
  }

  // ---------------------------------------------------------------- growth

  function Max(a: int, b: int): int { if a < b then b else a }

  lemma SourcesAfterAdd(s: Leases, id: LeaseId, l: Lease, u: UserId)
    requires id !in s
    ensures SourcesOf(s[id := l], u) == SourcesOf(s, u) + if u == l.user then {l.source} else {}
  {
    var r := s[id := l];
    forall a ensures a in SourcesOf(r, u) <==> a in SourcesOf(s, u) || (u == l.user && a == l.source) {
      if i :| i in s && s[i].user == u && s[i].source == a { assert i in r && r[i].source == a; }
      if u == l.user && a == l.source { assert id in r && r[id].source == a; }
    }
  }

  /** An admission that brings a new source to a user at its limit, while the counts already list that
      source or list fewer than the limit, and nothing else stands against it. */
  predicate OpenOverruns(t: Table, p: Pending) {
    && !t.closed && p.user in t.users && BringsTooMany(t, p)
    && (CountAt(t.sources, p.user, p.source) > 0 || ListedSources(t.sources, p.user) < LimitOf(t, p.user))
    && PolicyReason(t.users[p.user], p.source, p.port, p.candidates).None? && KindReason(t, p).None?
  }

  /** For a new source of a user at its limit, admission is up to the counts and the other tests. */
  lemma AdmittedIff(t: Table, p: Pending)
    requires p.user in t.users && BringsTooMany(t, p)
    ensures OpenReason(t, p).None? <==> OpenOverruns(t, p)
  {
    if !t.closed && PolicyReason(t.users[p.user], p.source, p.port, p.candidates).None? {
      assert OpenReason(t, p) == CapacityReason(t, p);
    }
  }

  predicate BringsTooMany(t: Table, p: Pending)
    requires p.user in t.users
  {
    && LimitOf(t, p.user) > 0
    && p.source !in SourcesOf(t.sessions, p.user) && |SourcesOf(t.sessions, p.user)| >= LimitOf(t, p.user)
  }

  lemma AddGrowth(s: Leases, id: LeaseId, l: Lease, limit: int)
    requires id !in s
    ensures |SourcesOf(s[id := l], l.user)| <= Max(|SourcesOf(s, l.user)|, limit) <==>
            l.source in SourcesOf(s, l.user) || |SourcesOf(s, l.user)| < limit
  {
    SourcesAfterAdd(s, id, l, l.user);
    if l.source in SourcesOf(s, l.user) {
      assert SourcesOf(s, l.user) + {l.source} == SourcesOf(s, l.user);
    }
  }

  lemma ConcludeGrowth(t: Table, p: Pending, reason: Option<Reason>, u: UserId)
    requires t.nextId + 1 !in t.sessions && u in t.users && LimitOf(t, u) > 0
    ensures |SourcesOf(Conclude(t, p, reason).sessions, u)| <= Max(|SourcesOf(t.sessions, u)|, LimitOf(t, u)) <==>
            !(u == p.user && reason.None? && BringsTooMany(t, p))
    ensures u != p.user ==> SourcesOf(Conclude(t, p, reason).sessions, u) == SourcesOf(t.sessions, u)
  {
    if reason.None? {
      var l := Admitted(t, p);
      if u == p.user {
        AddGrowth(t.sessions, t.nextId + 1, l, LimitOf(t, u));
      } else {
        SourcesAfterAdd(t.sessions, t.nextId + 1, l, u);
      }
    }
  }

  /** In every state: admission takes a limited user above the larger of its previous sources and its
      limit exactly when it overruns, and leaves every other user's sources alone. */
  lemma OpenGrowthIff(t: Table, p: Pending, u: UserId)
    requires t.nextId + 1 !in t.sessions && u in t.users && LimitOf(t, u) > 0
    ensures |SourcesOf(OpenCommit(t, p).sessions, u)| <= Max(|SourcesOf(t.sessions, u)|, LimitOf(t, u)) <==>
            !(u == p.user && OpenOverruns(t, p))
    ensures u != p.user ==> SourcesOf(OpenCommit(t, p).sessions, u) == SourcesOf(t.sessions, u)
  {
    ConcludeGrowth(t, p, OpenReason(t, p), u);
    if u == p.user && BringsTooMany(t, p) { AdmittedIff(t, p); }
  }

  /** Exact counts never let an admission overrun. */
  lemma OpenSourceGrowth(t: Table, p: Pending, u: UserId)
    requires Exact(t) && t.nextId + 1 !in t.sessions && u in t.users && LimitOf(t, u) > 0
    ensures |SourcesOf(OpenCommit(t, p).sessions, u)| <= Max(|SourcesOf(t.sessions, u)|, LimitOf(t, u))
  {
    OpenGrowthIff(t, p, u);
    CountsAgree(t.sources, t.sessions, p.user, p.source);
    if OpenReason(t, p).None? { assert CapacityReason(t, p).None?; }
  }

  lemma SingletonOrMore<T>(s: set<T>, x: T)
    requires x in s
    ensures |s| == 1 ==> s == {x}
    ensures |s| != 1 ==> exists y :: y in s && y != x
  {
    assert s == {x} + (s - {x});
    if |s| != 1 { assert s - {x} != {}; }
  }

  /** The source a move leaves behind, when the moved lease was its last one. */
  function Vacated(s: Leases, i: LeaseId): set<Addr>
    requires i in s
  {
    if |At(s, s[i].user, s[i].source)| == 1 then {s[i].source} else {}
  }

  /** The sources of a user once one of its leases has moved: the old source goes exactly when this
      lease was its last one. */
  lemma SourcesAfterMove(s: Leases, i: LeaseId, a: Addr)
    requires i in s && a != s[i].source
    ensures SourcesOf(s[i := s[i].(source := a)], s[i].user) == SourcesOf(s, s[i].user) - Vacated(s, i) + {a}
  {
    var l := s[i];
    var r := s[i := l.(source := a)];
    var here := At(s, l.user, l.source);
    SingletonOrMore(here, i);
    forall b ensures b in SourcesOf(r, l.user) <==> b in SourcesOf(s, l.user) - Vacated(s, i) + {a} {
      if b in SourcesOf(r, l.user) && b != a {
        var j :| j in r && r[j].user == l.user && r[j].source == b;
        assert s[j].source == b && (b == l.source ==> j in here);
      }
      if b == a {
        assert r[i].source == a;
      } else if b == l.source {
        if |here| != 1 {
          var j :| j in here && j != i;
          assert r[j].source == b;
        }
      } else if j :| j in s && s[j].user == l.user && s[j].source == b {
        assert r[j].source == b;
      }
    }
  }

  lemma OtherSourcesAfterMove(s: Leases, i: LeaseId, l: Lease, u: UserId)
    requires i in s && l.user == s[i].user && (u == l.user ==> l.source == s[i].source)
    ensures SourcesOf(s[i := l], u) == SourcesOf(s, u)
  {
    var r := s[i := l];
    forall b ensures b in SourcesOf(r, u) <==> b in SourcesOf(s, u) {
      if j :| j in s && s[j].user == u && s[j].source == b { assert r[j].source == b; }
      if j :| j in r && r[j].user == u && r[j].source == b { assert s[j].source == b; }
    }
  }

  /** A migration that brings a new source, and vacates none, for a user at its limit, while the counts
      already list that source or, less one for the source left, list fewer than the limit; and nothing
      else stands against it. */
  predicate MoveOverruns(t: Table, i: LeaseId, a: Addr)
    requires i in t.sessions
  {
    var l := t.sessions[i];
    && !t.closed && !l.revoked && l.user in t.users && a !in t.users[l.user].disconnectIPs
    && 0 < LimitOf(t, l.user) <= |SourcesOf(t.sessions, l.user)|
    && a !in SourcesOf(t.sessions, l.user) && Vacated(t.sessions, i) == {}
    && (|| CountAt(t.sources, l.user, a) > 0
        || ListedSources(t.sources, l.user) - (if CountAt(t.sources, l.user, l.source) == 1 then 1 else 0) < LimitOf(t, l.user))
  }

  lemma MoveGrowth(s: Leases, i: LeaseId, a: Addr, limit: int)
    requires i in s && a != s[i].source
    ensures |SourcesOf(s[i := s[i].(source := a)], s[i].user)| <= Max(|SourcesOf(s, s[i].user)|, limit) <==>
            a in SourcesOf(s, s[i].user) || Vacated(s, i) != {} || |SourcesOf(s, s[i].user)| < limit
  {
    var before, gone := SourcesOf(s, s[i].user), Vacated(s, i);
    SourcesAfterMove(s, i, a);
    assert s[i].source in before && gone <= before;
    if a in before {
      SubsetSize(before - gone + {a}, before);
    } else {
      assert |before - gone| == |before| - |gone|;
    }
  }

  /** What a migration of a lease of the table would bring: a new source, none vacated, for a user at its
      limit. */
  predicate MovesTooMany(t: Table, i: LeaseId, a: Addr)
    requires i in t.sessions && t.sessions[i].user in t.users
  {
    var u := t.sessions[i].user;
    && 0 < LimitOf(t, u) <= |SourcesOf(t.sessions, u)|
    && a !in SourcesOf(t.sessions, u) && Vacated(t.sessions, i) == {}
  }

  lemma MovesIff(t: Table, i: LeaseId, a: Addr)
    requires i in t.sessions && t.sessions[i].user in t.users && MovesTooMany(t, i, a)
    ensures Migrates(t, t.sessions[i], a) <==> MoveOverruns(t, i, a)
  {
    var l := t.sessions[i];
    assert l.source in SourcesOf(t.sessions, l.user);
  }

  lemma ConcludeRebindGrowth(t: Table, i: LeaseId, a: Addr, err: Option<Reason>, u: UserId)
    requires i in t.sessions && u in t.users && LimitOf(t, u) > 0
    ensures var t' := ConcludeRebind(t, i, t.sessions[i], a, err);
            && (|SourcesOf(t'.sessions, u)| <= Max(|SourcesOf(t.sessions, u)|, LimitOf(t, u)) <==>
                !(u == t.sessions[i].user && err.None? && a != t.sessions[i].source && MovesTooMany(t, i, a)))
            && (u != t.sessions[i].user ==> SourcesOf(t'.sessions, u) == SourcesOf(t.sessions, u))
  {
    var l := t.sessions[i];
    if err.None? && a != l.source {
      if u == l.user {
        MoveGrowth(t.sessions, i, a, LimitOf(t, u));
      } else {
        OtherSourcesAfterMove(t.sessions, i, l.(source := a), u);
      }
    }
  }

  /** In every state: a migration takes its limited user above the larger of its previous sources and
      its limit exactly when it overruns. */
  lemma RebindGrowthIff(t: Table, i: LeaseId, a: Addr, u: UserId)
    requires i in t.sessions && u in t.users && LimitOf(t, u) > 0
    ensures |SourcesOf(Rebind(t, i, a).sessions, u)| <= Max(|SourcesOf(t.sessions, u)|, LimitOf(t, u)) <==>
            !(u == t.sessions[i].user && MoveOverruns(t, i, a))
    ensures u != t.sessions[i].user ==> SourcesOf(Rebind(t, i, a).sessions, u) == SourcesOf(t.sessions, u)
  {
    ConcludeRebindGrowth(t, i, a, RebindError(t, t.sessions[i], a), u);
    if u == t.sessions[i].user && MovesTooMany(t, i, a) { MovesIff(t, i, a); }
  }

  /** With exact counts the detach arithmetic of Rebind is exact, and no migration overruns. */
  lemma RebindSourceGrowth(t: Table, i: LeaseId, a: Addr, u: UserId)
    requires Exact(t) && i in t.sessions && u in t.users && LimitOf(t, u) > 0
    ensures |SourcesOf(Rebind(t, i, a).sessions, u)| <= Max(|SourcesOf(t.sessions, u)|, LimitOf(t, u))
  {
    RebindGrowthIff(t, i, a, u);
    var l := t.sessions[i];
    CountsAgree(t.sources, t.sessions, l.user, a);
    CountsAgree(t.sources, t.sessions, l.user, l.source);
  }

  /** The user is authorised and has no more sources than its limit, if it has one. */
  ghost predicate WithinLimit(t: Table, u: UserId) {
    u in t.users && (LimitOf(t, u) > 0 ==> |SourcesOf(t.sessions, u)| <= LimitOf(t, u))
  }

  /** The update takes the user's authorisation away, or sets a limit below the one it had. */
  predicate Lowers(t: Table, next: Snapshot, u: UserId)
    requires u in t.users
  {
    u !in UserMap(next.users) || (NewLimit(next, u) > 0 && (LimitOf(t, u) <= 0 || NewLimit(next, u) < LimitOf(t, u)))
  }

  lemma UpdateKeepsSources(t: Table, next: Snapshot, u: UserId)
    ensures SourcesOf(Update(t, next).sessions, u) == SourcesOf(t.sessions, u)
  {
    RevokeKeepsSources(t.sessions, RevokedByUpdate(t, next), u);
    RevokeKeepsSources(Revised(t, next).sessions, OverLimit(Revised(t, next)), u);
  }

  /** After an update a user is within its limit if and only if it is still authorised and the sources it
      had, revoked ones included, fit its new limit. */
  lemma UpdateWithinIff(t: Table, next: Snapshot, u: UserId)
    ensures WithinLimit(Update(t, next), u) <==>
            u in UserMap(next.users) && (NewLimit(next, u) > 0 ==> |SourcesOf(t.sessions, u)| <= NewLimit(next, u))
  {
    UpdateKeepsSources(t, next, u);
    if u in UserMap(next.users) { assert LimitOf(Update(t, next), u) == NewLimit(next, u); }
  }

  lemma SourcesOfFewer(s: Leases, which: set<LeaseId>, u: UserId)
    ensures |SourcesOf(s - which, u)| <= |SourcesOf(s, u)|
  {
    SubsetSize(SourcesOf(s - which, u), SourcesOf(s, u));
  }

  lemma BindKeepsSources(t: Table, i: LeaseId, cb: Option<Callback>, u: UserId)
    requires Has(t, i)
    ensures SourcesOf(Bind(t, i, cb).sessions, u) == SourcesOf(t.sessions, u)
  {
    if i in t.sessions { OtherSourcesAfterMove(t.sessions, i, BindLease(t.sessions[i], cb), u); }
  }

  /** The settings and users of the registry, and whether it is closed, stay the same. */
  ghost predicate SamePolicy(t: Table, t': Table) {
    && t'.users == t.users && t'.nodeConnectors == t.nodeConnectors && t'.closed == t.closed
    && t'.limits == t.limits && t'.nodeId == t.nodeId && t'.nodeSpeed == t.nodeSpeed
    && t'.nodeLimiter == t.nodeLimiter && t'.userLimiters == t.userLimiters
  }

  lemma PutKeepsPolicy(t: Table, i: LeaseId, l: Lease)
    ensures SamePolicy(t, PutLease(t, i, l))
  {
  }

  lemma RebindKeepsPolicy(t: Table, i: LeaseId, l: Lease, a: Addr, err: Option<Reason>)
    ensures SamePolicy(t, ConcludeRebind(t, i, l, a, err))
  {
    PutKeepsPolicy(t.(sources := MoveSource(t.sources, l.user, l.source, a)), i, l.(source := a));
  }

  lemma ConcludeKeepsPolicy(t: Table, p: Pending, reason: Option<Reason>)
    ensures SamePolicy(t, Conclude(t, p, reason))
  {
  }

  lemma CloseKeepsPolicy(t: Table, i: LeaseId)
    ensures SamePolicy(t, CloseLease(t, i))
  {
  }

  lemma RejectKeepsPolicy(t: Table, r: Reason)
    ensures SamePolicy(t, Reject(t, r))
  {
  }

  lemma AcquireKeepsPolicy(t: Table)
    ensures SamePolicy(t, Acquire(t))
  {
    RejectKeepsPolicy(t, HandshakeLimit);
  }

  lemma ReleaseKeepsPolicy(t: Table, ticket: nat)
    ensures SamePolicy(t, Release(t, ticket))
  {
  }

  lemma RevokeKeepsPolicy(t: Table, users: set<UserId>)
    ensures SamePolicy(t, RevokeUsers(t, users))
  {
  }

  lemma StepKeepsPolicy(t: Table, step: Step)
    requires Enabled(t, step) && !step.UpdateStep? && !step.ShutStep?
    ensures SamePolicy(t, After(t, step))
  {
    match step
    case OpenStep(p) => ConcludeKeepsPolicy(t, p, OpenReason(t, p));
    case RebindStep(i, a) => RebindKeepsPolicy(t, i, LeaseOf(t, i), a, RebindError(t, LeaseOf(t, i), a));
    case BindStep(i, cb) => PutKeepsPolicy(t, i, BindLease(LeaseOf(t, i), cb));
    case CloseStep(i) => CloseKeepsPolicy(t, i);
    case RevokeStep(users) => RevokeKeepsPolicy(t, users);
    case AcquireStep => AcquireKeepsPolicy(t);
    case ReleaseStep(ticket) => ReleaseKeepsPolicy(t, ticket);
    case RejectStep(r) => RejectKeepsPolicy(t, r);
  }

  lemma GrowthWithinLimit(t: Table, step: Step, u: UserId)
    requires Exact(t) && t.nextId + 1 !in t.sessions && Enabled(t, step) && !step.UpdateStep?
    requires WithinLimit(t, u) && LimitOf(t, u) > 0
    ensures |SourcesOf(After(t, step).sessions, u)| <= LimitOf(t, u)
  {
    match step
    case OpenStep(p) => OpenSourceGrowth(t, p, u);
    case RebindStep(i, a) => if i in t.sessions { RebindSourceGrowth(t, i, a, u); }
    case CloseStep(i) => SourcesOfFewer(t.sessions, {i}, u);
    case BindStep(i, cb) => BindKeepsSources(t, i, cb, u);
    case RevokeStep(users) => RevokeKeepsSources(t.sessions, IdsOfUsers(t.sessions, users), u);
    case ShutStep => RevokeKeepsSources(t.sessions, IdsOfUsers(t.sessions, t.users.Keys), u);
    case AcquireStep =>
    case ReleaseStep(k) =>
    case RejectStep(r) =>
  }

  /** With exact counts every step keeps a user within its limit, unless it is an update that lowers it. */
  lemma StepWithinLimit(t: Table, step: Step, u: UserId)
    requires Exact(t) && t.nextId + 1 !in t.sessions && Enabled(t, step) && WithinLimit(t, u)
    requires step.UpdateStep? ==> !Lowers(t, step.next, u)
    ensures WithinLimit(After(t, step), u)
  {
    if step.UpdateStep? {
      UpdateWithinIff(t, step.next, u);
    } else {
      if LimitOf(t, u) > 0 { GrowthWithinLimit(t, step, u); }
      if !step.ShutStep? { StepKeepsPolicy(t, step); }
    }
  }

  /** No update of the run lowers the user's limit or takes its authorisation away. */
  ghost predicate NeverLowered(t: Table, steps: seq<Step>, t': Table, u: UserId)
    requires Run(t, steps, t')
    decreases |steps|
  {
    steps != [] ==>
      && u in t.users && (steps[0].UpdateStep? ==> !Lowers(t, steps[0].next, u))
      && NeverLowered(After(t, steps[0]), steps[1..], t', u)
  }

  /** A user within its limit stays within it along every run, any number of updates included, until an
      update lowers the limit; as long as no closed lease moves. */
  lemma {:induction false} RunWithinLimit(t: Table, steps: seq<Step>, t': Table, u: UserId)
    requires Safe(t) && Exact(t) && Run(t, steps, t') && Tidy(t, steps, t')
    requires WithinLimit(t, u) && NeverLowered(t, steps, t', u)
    ensures WithinLimit(t', u)
    decreases |steps|
  {
    if steps != [] {
      StepSafe(t, steps[0]);
      StepWithinLimit(t, steps[0], u);
      StepExactIff(t, steps[0]);
      RunWithinLimit(After(t, steps[0]), steps[1..], t', u);
    }
  }
}
