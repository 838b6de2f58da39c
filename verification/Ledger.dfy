/** The incremental counts of the registry and their tie to the table they count
    (internal/session/registry.go). */
module Ledger {
  import opened Wrappers
  import opened Model
  import opened IpRules
  import opened SessionTable
  import opened SessionSafety

  type UserCounts = map<UserId, nat>

  // ---------------------------------------------------------------- the counts

  function CountOf(m: UserCounts, u: UserId): nat { if u in m then m[u] else 0 }

  function Inc(m: UserCounts, u: UserId): UserCounts { m[u := CountOf(m, u) + 1] }

  function Dec(m: UserCounts, u: UserId): UserCounts {
    if CountOf(m, u) > 1 then m[u := CountOf(m, u) - 1] else m - {u}
  }

  // ---------------------------------------------------------------- the tie

  /** The source counts are those recomputed from the table, with no zero and no empty entry. */
  ghost predicate SourcesMatch(m: SourceCounts, s: Leases) {
    && (forall u, a :: CountAt(m, u, a) == |At(s, u, a)|)
    && (forall u :: u in m ==> m[u] != map[])
    && (forall u, a :: u in m && a in m[u] ==> m[u][a] > 0)
  }

  ghost predicate UsersMatch(m: UserCounts, s: Leases, k: Kind) {
    && (forall u :: CountOf(m, u) == |OfUserKind(s, u, k)|)
    && (forall u :: u in m ==> m[u] > 0)
  }

  /** The tie leaves no freedom: a table has one source ledger. */
  lemma SourceLedgerUnique(m: SourceCounts, n: SourceCounts, s: Leases)
    requires SourcesMatch(m, s) && SourcesMatch(n, s)
    ensures m == n
  {
    forall u ensures Inner(m, u) == Inner(n, u) {
      forall a ensures a in Inner(m, u) <==> a in Inner(n, u) {
        assert CountAt(m, u, a) == CountAt(n, u, a);
      }
      forall a | a in Inner(m, u) ensures Inner(m, u)[a] == Inner(n, u)[a] {
        assert CountAt(m, u, a) == CountAt(n, u, a);
      }
    }
    forall u ensures u in m <==> u in n { assert Inner(m, u) == Inner(n, u); }
    forall u | u in m ensures m[u] == n[u] { assert Inner(m, u) == Inner(n, u); }
  }

  lemma UserLedgerUnique(m: UserCounts, n: UserCounts, s: Leases, k: Kind)
    requires UsersMatch(m, s, k) && UsersMatch(n, s, k)
    ensures m == n
  {
    forall u ensures (u in m <==> u in n) && (u in m ==> m[u] == n[u]) {
      assert CountOf(m, u) == CountOf(n, u);
    }
  }

  lemma ListedSource(s: Leases, u: UserId, a: Addr)
    ensures At(s, u, a) != {} <==> a in SourcesOf(s, u)
  {
    if At(s, u, a) != {} {
      var i :| i in At(s, u, a);
      assert s[i].source in SourcesOf(s, u);
    }
    if i :| i in s && s[i].user == u && s[i].source == a { assert i in At(s, u, a); }
  }

  /** The listed sources of a user are its sources in the table. */
  lemma InnerKeys(m: SourceCounts, s: Leases, u: UserId)
    requires SourcesMatch(m, s)
    ensures Inner(m, u).Keys == SourcesOf(s, u) && ListedSources(m, u) == |SourcesOf(s, u)|
  {
    forall a ensures a in Inner(m, u) <==> a in SourcesOf(s, u) {
      assert CountAt(m, u, a) == |At(s, u, a)|;
      ListedSource(s, u, a);
    }
    assert |Inner(m, u)| == |Inner(m, u).Keys|;
  }

  // ---------------------------------------------------------------- steps

  lemma AtAfterAdd(s: Leases, i: LeaseId, l: Lease, u: UserId, a: Addr)
    requires i !in s
    ensures |At(s[i := l], u, a)| == |At(s, u, a)| + if u == l.user && a == l.source then 1 else 0
  {
    if u == l.user && a == l.source {
      assert At(s[i := l], u, a) == At(s, u, a) + {i};
    } else {
      assert At(s[i := l], u, a) == At(s, u, a);
    }
  }

  lemma AtAfterRemove(s: Leases, i: LeaseId, u: UserId, a: Addr)
    requires i in s
    ensures |At(s - {i}, u, a)| == |At(s, u, a)| - if u == s[i].user && a == s[i].source then 1 else 0
  {
    if u == s[i].user && a == s[i].source {
      assert At(s, u, a) == At(s - {i}, u, a) + {i};
    } else {
      assert At(s - {i}, u, a) == At(s, u, a);
    }
  }

  lemma UserKindAfterRemove(s: Leases, i: LeaseId, u: UserId, k: Kind)
    requires i in s
    ensures |OfUserKind(s - {i}, u, k)| == |OfUserKind(s, u, k)| - if u == s[i].user && k == s[i].kind then 1 else 0
  {
    if u == s[i].user && k == s[i].kind {
      assert OfUserKind(s, u, k) == OfUserKind(s - {i}, u, k) + {i};
    } else {
      assert OfUserKind(s, u, k) == OfUserKind(s - {i}, u, k);
    }
  }

  lemma KindAfterRemove(s: Leases, i: LeaseId, k: Kind)
    requires i in s
    ensures |OfKind(s - {i}, k)| == |OfKind(s, k)| - if k == s[i].kind then 1 else 0
  {
    if k == s[i].kind {
      assert OfKind(s, k) == OfKind(s - {i}, k) + {i};
    } else {
      assert OfKind(s, k) == OfKind(s - {i}, k);
    }
  }

  lemma CountAfterAdd(m: SourceCounts, u: UserId, a: Addr, v: UserId, b: Addr)
    ensures CountAt(AddSource(m, u, a), v, b) == CountAt(m, v, b) + if v == u && b == a then 1 else 0
  {
  }

  lemma CountAfterRemove(m: SourceCounts, u: UserId, a: Addr, v: UserId, b: Addr)
    requires CountAt(m, u, a) > 0
    ensures CountAt(RemoveSource(m, u, a), v, b) == CountAt(m, v, b) - if v == u && b == a then 1 else 0
  {
  }

  lemma AddMatches(m: SourceCounts, s: Leases, i: LeaseId, l: Lease)
    requires SourcesMatch(m, s) && i !in s
    ensures SourcesMatch(AddSource(m, l.user, l.source), s[i := l])
  {
    var n, r := AddSource(m, l.user, l.source), s[i := l];
    forall u, a ensures CountAt(n, u, a) == |At(r, u, a)| {
      CountAfterAdd(m, l.user, l.source, u, a);
      AtAfterAdd(s, i, l, u, a);
    }
    assert forall a :: a in n[l.user] ==> n[l.user][a] > 0 by {
      forall a | a in n[l.user] ensures n[l.user][a] > 0 {
        if a != l.source { assert a in m[l.user]; }
      }
    }
  }

  lemma RemoveMatches(m: SourceCounts, s: Leases, i: LeaseId)
    requires SourcesMatch(m, s) && i in s
    ensures SourcesMatch(RemoveSource(m, s[i].user, s[i].source), s - {i})
  {
    var l := s[i];
    var n, r := RemoveSource(m, l.user, l.source), s - {i};
    assert i in At(s, l.user, l.source);
    assert CountAt(m, l.user, l.source) > 0;
    forall u, a ensures CountAt(n, u, a) == |At(r, u, a)| {
      CountAfterRemove(m, l.user, l.source, u, a);
      AtAfterRemove(s, i, u, a);
    }
  }

  /** Detaching from the old source and attaching to the new one keeps the tie for a lease that is
      in the table. */
  lemma MoveMatches(m: SourceCounts, s: Leases, i: LeaseId, a: Addr)
    requires SourcesMatch(m, s) && i in s
    ensures SourcesMatch(AddSource(RemoveSource(m, s[i].user, s[i].source), s[i].user, a), s[i := s[i].(source := a)])
  {
    RemoveMatches(m, s, i);
    AddMatches(RemoveSource(m, s[i].user, s[i].source), s - {i}, i, s[i].(source := a));
    assert (s - {i})[i := s[i].(source := a)] == s[i := s[i].(source := a)];
  }

  /** For a lease that is no longer in the table the same two updates break the tie. */
  lemma MoveOfClosedLeaseBreaks(m: SourceCounts, s: Leases, u: UserId, from: Addr, to: Addr)
    requires SourcesMatch(m, s) && from != to
    ensures !SourcesMatch(AddSource(RemoveSource(m, u, from), u, to), s)
  {
    var n := RemoveSource(m, u, from);
    assert CountAt(n, u, to) == CountAt(m, u, to);
    CountAfterAdd(n, u, to, u, to);
    assert CountAt(m, u, to) == |At(s, u, to)|;
  }

  lemma IncMatches(m: UserCounts, s: Leases, i: LeaseId, l: Lease, k: Kind)
    requires UsersMatch(m, s, k) && i !in s
    ensures UsersMatch(if l.kind == k then Inc(m, l.user) else m, s[i := l], k)
  {
    var n, r := if l.kind == k then Inc(m, l.user) else m, s[i := l];
    forall u ensures CountOf(n, u) == |OfUserKind(r, u, k)| {
      UserKindAfterAdd(s, i, l, u, k);
      assert CountOf(m, u) == |OfUserKind(s, u, k)|;
    }
  }

  lemma DecMatches(m: UserCounts, s: Leases, i: LeaseId, k: Kind)
    requires UsersMatch(m, s, k) && i in s
    ensures UsersMatch(if s[i].kind == k then Dec(m, s[i].user) else m, s - {i}, k)
    ensures s[i].kind == k ==> CountOf(m, s[i].user) > 0
  {
    if s[i].kind == k { assert i in OfUserKind(s, s[i].user, k); }
    var n, r := if s[i].kind == k then Dec(m, s[i].user) else m, s - {i};
    forall u ensures CountOf(n, u) == |OfUserKind(r, u, k)| {
      UserKindAfterRemove(s, i, u, k);
      assert CountOf(m, u) == |OfUserKind(s, u, k)|;
    }
  }

  // ---------------------------------------------------------------- all counts at once

  datatype Books = Books(sources: SourceCounts, userTCP: UserCounts, userXUDP: UserCounts, tcp: int, xudp: int)

  /** The counts per kind are those of the table. */
  ghost predicate TalliesMatch(b: Books, s: Leases) {
    && UsersMatch(b.userTCP, s, TCP)
    && UsersMatch(b.userXUDP, s, XUDP)
    && b.tcp == |OfKind(s, TCP)|
    && b.xudp == |OfKind(s, XUDP)|
  }

  ghost predicate BooksMatch(b: Books, s: Leases) { SourcesMatch(b.sources, s) && TalliesMatch(b, s) }

  function BookIn(b: Books, l: Lease): Books {
    var sources := AddSource(b.sources, l.user, l.source);
    if l.kind == TCP then Books(sources, Inc(b.userTCP, l.user), b.userXUDP, b.tcp + 1, b.xudp)
    else Books(sources, b.userTCP, Inc(b.userXUDP, l.user), b.tcp, b.xudp + 1)
  }

  function BookOut(b: Books, l: Lease): Books {
    var sources := RemoveSource(b.sources, l.user, l.source);
    if l.kind == TCP then Books(sources, Dec(b.userTCP, l.user), b.userXUDP, b.tcp - 1, b.xudp)
    else Books(sources, b.userTCP, Dec(b.userXUDP, l.user), b.tcp, b.xudp - 1)
  }

  function BookMove(b: Books, l: Lease, to: Addr): Books { b.(sources := MoveSource(b.sources, l.user, l.source, to)) }

  /** Every count recomputed from the table. */
  ghost function BooksOf(s: Leases): Books {
    Books(SourceLedger(s), UserLedger(s, TCP), UserLedger(s, XUDP), |OfKind(s, TCP)|, |OfKind(s, XUDP)|)
  }

  ghost function SourceLedger(s: Leases): SourceCounts {
    map u | u in (set i | i in s :: s[i].user) :: map a | a in SourcesOf(s, u) :: |At(s, u, a)|
  }

  ghost function UserLedger(s: Leases, k: Kind): UserCounts {
    map u | u in (set i | i in s && s[i].kind == k :: s[i].user) :: |OfUserKind(s, u, k)|
  }

  lemma SourceLedgerMatches(s: Leases)
    ensures SourcesMatch(SourceLedger(s), s)
  {
    var m := SourceLedger(s);
    forall u, a ensures CountAt(m, u, a) == |At(s, u, a)| {
      ListedSource(s, u, a);
      if a in SourcesOf(s, u) {
        var i :| i in s && s[i].user == u && s[i].source == a;
        assert u in m;
      } else {
        assert At(s, u, a) == {};
      }
    }
    forall u | u in m ensures m[u] != map[] {
      var i :| i in s && s[i].user == u;
      assert s[i].source in m[u];
    }
    forall u, a | u in m && a in m[u] ensures m[u][a] > 0 { ListedSource(s, u, a); }
  }

  lemma UserLedgerMatches(s: Leases, k: Kind)
    ensures UsersMatch(UserLedger(s, k), s, k)
  {
    var m := UserLedger(s, k);
    forall u ensures u in m <==> OfUserKind(s, u, k) != {} {
      if i :| i in s && s[i].kind == k && s[i].user == u { assert i in OfUserKind(s, u, k); }
      if OfUserKind(s, u, k) != {} { var i :| i in OfUserKind(s, u, k); }
    }
    forall u ensures CountOf(m, u) == |OfUserKind(s, u, k)| {}
  }

  /** The tie leaves no freedom: matching the table is being the recomputed books. */
  lemma BooksExact(b: Books, s: Leases)
    ensures BooksMatch(b, s) <==> b == BooksOf(s)
  {
    SourceLedgerMatches(s);
    UserLedgerMatches(s, TCP);
    UserLedgerMatches(s, XUDP);
    if BooksMatch(b, s) {
      SourceLedgerUnique(b.sources, SourceLedger(s), s);
      UserLedgerUnique(b.userTCP, UserLedger(s, TCP), s, TCP);
      UserLedgerUnique(b.userXUDP, UserLedger(s, XUDP), s, XUDP);
    }
  }

  lemma TallyIn(b: Books, s: Leases, i: LeaseId, l: Lease)
    requires TalliesMatch(b, s) && i !in s
    ensures TalliesMatch(BookIn(b, l), s[i := l])
  {
    IncMatches(b.userTCP, s, i, l, TCP);
    IncMatches(b.userXUDP, s, i, l, XUDP);
    KindAfterAdd(s, i, l, TCP);
    KindAfterAdd(s, i, l, XUDP);
  }

  /** Releasing a lease of the table keeps the counts per kind, and each it lowers was positive. */
  lemma TallyOut(b: Books, s: Leases, i: LeaseId)
    requires TalliesMatch(b, s) && i in s
    ensures TalliesMatch(BookOut(b, s[i]), s - {i})
    ensures s[i].kind == TCP ==> b.tcp > 0 && CountOf(b.userTCP, s[i].user) > 0
    ensures s[i].kind == XUDP ==> b.xudp > 0 && CountOf(b.userXUDP, s[i].user) > 0
  {
    DecMatches(b.userTCP, s, i, TCP);
    DecMatches(b.userXUDP, s, i, XUDP);
    KindAfterRemove(s, i, TCP);
    KindAfterRemove(s, i, XUDP);
    assert i in OfKind(s, s[i].kind);
  }

  /** The two tables hold the same leases up to source, revocation and interruption. */
  ghost predicate SameKinds(s: Leases, r: Leases) {
    s.Keys == r.Keys && forall i :: i in s ==> s[i].user == r[i].user && s[i].kind == r[i].kind
  }

  lemma TallyAfterRelabel(b: Books, s: Leases, r: Leases)
    requires SameKinds(s, r) && TalliesMatch(b, s)
    ensures TalliesMatch(b, r)
  {
    forall u, k ensures OfUserKind(s, u, k) == OfUserKind(r, u, k) {}
    forall k ensures OfKind(s, k) == OfKind(r, k) {}
  }

  lemma SourcesAfterRelabel(m: SourceCounts, s: Leases, r: Leases)
    requires SameKinds(s, r) && forall i :: i in s ==> s[i].source == r[i].source
    ensures SourcesMatch(m, s) <==> SourcesMatch(m, r)
  {
    forall u, a ensures At(s, u, a) == At(r, u, a) {}
  }

  lemma BookInMatches(b: Books, s: Leases, i: LeaseId, l: Lease)
    requires BooksMatch(b, s) && i !in s
    ensures BooksMatch(BookIn(b, l), s[i := l])
  {
    AddMatches(b.sources, s, i, l);
    TallyIn(b, s, i, l);
  }

  /** Releasing a lease of the table keeps the tie, and every count it lowers was positive. */
  lemma BookOutMatches(b: Books, s: Leases, i: LeaseId)
    requires BooksMatch(b, s) && i in s
    ensures BooksMatch(BookOut(b, s[i]), s - {i})
    ensures CountAt(b.sources, s[i].user, s[i].source) > 0
    ensures s[i].kind == TCP ==> b.tcp > 0 && CountOf(b.userTCP, s[i].user) > 0
    ensures s[i].kind == XUDP ==> b.xudp > 0 && CountOf(b.userXUDP, s[i].user) > 0
  {
    RemoveMatches(b.sources, s, i);
    TallyOut(b, s, i);
    assert i in At(s, s[i].user, s[i].source);
  }

  /** Migration keeps the tie for a lease of the table. */
  lemma BookMoveMatches(b: Books, s: Leases, i: LeaseId, to: Addr)
    requires BooksMatch(b, s) && i in s
    ensures BooksMatch(BookMove(b, s[i], to), s[i := s[i].(source := to)])
  {
    MoveMatches(b.sources, s, i, to);
    TallyAfterRelabel(b, s, s[i := s[i].(source := to)]);
  }

  /** Migration of a lease that has left the table always breaks it, and only in the source counts. */
  lemma BookMoveOfClosedBreaks(b: Books, s: Leases, l: Lease, to: Addr)
    requires BooksMatch(b, s) && l.source != to
    ensures !SourcesMatch(BookMove(b, l, to).sources, s) && TalliesMatch(BookMove(b, l, to), s)
  {
    MoveOfClosedLeaseBreaks(b.sources, s, l.user, l.source, to);
  }

  /** Exact counts answer every test as the table would. */
  lemma CountsAgree(m: SourceCounts, s: Leases, u: UserId, a: Addr)
    requires SourcesMatch(m, s)
    ensures CountAt(m, u, a) == |At(s, u, a)|
    ensures CountAt(m, u, a) == 0 <==> a !in SourcesOf(s, u)
    ensures ListedSources(m, u) == |SourcesOf(s, u)|
  {
    InnerKeys(m, s, u);
    ListedSource(s, u, a);
  }

  lemma BooksOfNothing()
    ensures BooksMatch(Books(map[], map[], map[], 0, 0), map[])
  {
    var s: Leases := map[];
    assert OfKind(s, TCP) == {} && OfKind(s, XUDP) == {};
    forall u, k ensures OfUserKind(s, u, k) == {} {}
    forall u, a ensures At(s, u, a) == {} {}
  }

  // ---------------------------------------------------------------- the source counts along runs

  /** The source counts are those of the table. */
  ghost predicate Exact(t: Table) { SourcesMatch(t.sources, t.sessions) }

  /** The step moves a lease that has left the table. */
  ghost predicate MovesClosed(t: Table, step: Step)
    requires Enabled(t, step)
  {
    step.RebindStep? && step.lease !in t.sessions && Migrates(t, LeaseOf(t, step.lease), step.source)
  }

  lemma ExactAfterRevoke(t: Table, which: set<LeaseId>)
    requires Exact(t)
    ensures SourcesMatch(t.sources, RevokeSet(t.sessions, which))
  {
    SourcesAfterRelabel(t.sources, t.sessions, RevokeSet(t.sessions, which));
  }

  lemma ExactAfterRebind(t: Table, i: LeaseId, a: Addr)
    requires Exact(t) && Has(t, i)
    ensures Exact(Rebind(t, i, a)) <==> i in t.sessions || !Migrates(t, LeaseOf(t, i), a)
  {
    var l := LeaseOf(t, i);
    if Migrates(t, l, a) {
      if i in t.sessions {
        MoveMatches(t.sources, t.sessions, i, a);
      } else {
        MoveOfClosedLeaseBreaks(t.sources, t.sessions, l.user, l.source, a);
      }
    }
  }

  lemma ExactAfterOpen(t: Table, p: Pending, reason: Option<Reason>)
    requires Exact(t) && t.nextId + 1 !in t.sessions
    ensures Exact(Conclude(t, p, reason))
  {
    if reason.None? { AddMatches(t.sources, t.sessions, t.nextId + 1, Admitted(t, p)); }
  }

  lemma ExactAfterUpdate(t: Table, next: Snapshot)
    requires Exact(t)
    ensures Exact(Revised(t, next)) && Exact(Update(t, next))
  {
    ExactAfterRevoke(t, RevokedByUpdate(t, next));
    ExactAfterRevoke(Revised(t, next), OverLimit(Revised(t, next)));
  }

  lemma ExactAfterBind(t: Table, i: LeaseId, cb: Option<Callback>)
    requires Exact(t) && Has(t, i)
    ensures Exact(Bind(t, i, cb))
  {
    if i in t.sessions { SourcesAfterRelabel(t.sources, t.sessions, Bind(t, i, cb).sessions); }
  }

  /** A step keeps the source counts exact if and only if it does not move a closed lease. */
  lemma StepExactIff(t: Table, step: Step)
    requires Exact(t) && t.nextId + 1 !in t.sessions && Enabled(t, step)
    ensures Exact(After(t, step)) <==> !MovesClosed(t, step)
  {
    match step
    case OpenStep(p) => ExactAfterOpen(t, p, OpenReason(t, p));
    case RebindStep(i, a) => ExactAfterRebind(t, i, a);
    case CloseStep(i) => if i in t.sessions { RemoveMatches(t.sources, t.sessions, i); }
    case BindStep(i, cb) => ExactAfterBind(t, i, cb);
    case UpdateStep(next) => ExactAfterUpdate(t, next);
    case RevokeStep(users) => ExactAfterRevoke(t, IdsOfUsers(t.sessions, users));
    case ShutStep => ExactAfterRevoke(t, IdsOfUsers(t.sessions, t.users.Keys));
    case _ =>
  }

  /** A run in which no closed lease moves. */
  ghost predicate Tidy(t: Table, steps: seq<Step>, t': Table)
    requires Run(t, steps, t')
    decreases |steps|
  {
    steps != [] ==> !MovesClosed(t, steps[0]) && Tidy(After(t, steps[0]), steps[1..], t')
  }

  lemma {:induction false} RunExact(t: Table, steps: seq<Step>, t': Table)
    requires Safe(t) && Exact(t) && Run(t, steps, t') && Tidy(t, steps, t')
    ensures Exact(t')
    decreases |steps|
  {
    if steps != [] {
      StepSafe(t, steps[0]);
      StepExactIff(t, steps[0]);
      RunExact(After(t, steps[0]), steps[1..], t');
    }
  }

  /** Along every run of a registry in which no closed lease moves, the source counts are exact. */
  lemma EveryTidyRunExact(limits: Limits, first: Snapshot, steps: seq<Step>, t: Table)
    requires Run(Initial(limits, first), steps, t) && Tidy(Initial(limits, first), steps, t)
    ensures Exact(t)
  {
    InitialSafe(limits, first);
    BooksOfNothing();
    RunExact(Initial(limits, first), steps, t);
  }
}
