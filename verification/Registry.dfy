/** The registry object with its incremental counts (internal/session/registry.go). Each method is
    one critical section; map iteration is an arbitrary choice, so that no result can depend on it. */
module Registry {
  import opened Wrappers
  import opened Model
  import opened IpRules
  import opened PortRules
  import opened SessionTable
  import opened SessionSafety
  import opened SessionConnectors
  import opened Ledger

  /** Exactly the callbacks of the leases revoked between two tables, each once. */
  ghost predicate Collected(before: Leases, after: Leases, callbacks: seq<(LeaseId, Callback)>) {
    && before.Keys == after.Keys
    && NoDuplicates(callbacks)
    && forall i, c :: (i, c) in callbacks <==>
         i in before && !before[i].revoked && after[i].revoked && before[i].interrupt == Some(c)
  }

  ghost predicate OnlyRevokes(before: Leases, after: Leases) {
    && before.Keys == after.Keys
    && forall i :: i in before ==> after[i] == before[i] || after[i] == RevokeLease(before[i])
  }

  lemma CollectedInTwo(a: Leases, b: Leases, c: Leases, xs: seq<(LeaseId, Callback)>, ys: seq<(LeaseId, Callback)>)
    requires OnlyRevokes(a, b) && OnlyRevokes(b, c) && Collected(a, b, xs) && Collected(b, c, ys)
    ensures OnlyRevokes(a, c) && Collected(a, c, xs + ys)
  {
    forall i, j | 0 <= i < |xs| && 0 <= j < |ys| ensures xs[i] != ys[j] {
      assert xs[i] in xs && ys[j] in ys;
      assert (xs[i].0, xs[i].1) == xs[i] && (ys[j].0, ys[j].1) == ys[j];
    }
  }

  function Selected(s: Leases, users: set<UserId>, sources: map<UserId, set<Addr>>): set<LeaseId> {
    set i | i in s && (s[i].user in users || (s[i].user in sources && s[i].source in sources[s[i].user]))
  }

  lemma RevokeSetOnlyRevokes(s: Leases, which: set<LeaseId>)
    ensures OnlyRevokes(s, RevokeSet(s, which))
  {
  }

  // ---------------------------------------------------------------- ordering sources by age

  ghost predicate Ordered(ages: map<Addr, LeaseId>, xs: seq<Addr>) {
    && (forall a :: a in xs <==> a in ages)
    && forall i, j :: 0 <= i < j < |xs| ==> ages[xs[i]] < ages[xs[j]]
  }

  /** The sort by first use. */
  method OrderByAge(ages: map<Addr, LeaseId>) returns (ordered: seq<Addr>)
    requires DistinctAges(ages)
    ensures Ordered(ages, ordered)
  {
    ordered := [];
    var todo := ages.Keys;
    while todo != {}
      invariant todo <= ages.Keys
      invariant forall a :: a in ordered <==> a in ages && a !in todo
      invariant forall i, j :: 0 <= i < j < |ordered| ==> ages[ordered[i]] < ages[ordered[j]]
      invariant forall i, b :: 0 <= i < |ordered| && b in todo ==> ages[ordered[i]] < ages[b]
    {
      EldestExists(ages, todo);
      var a :| a in todo && forall b :: b in todo ==> ages[a] <= ages[b];
      ordered := ordered + [a];
      todo := todo - {a};
    }
  }

  lemma EldestExists(ages: map<Addr, LeaseId>, todo: set<Addr>)
    requires todo != {} && todo <= ages.Keys
    ensures exists a :: a in todo && forall b :: b in todo ==> ages[a] <= ages[b]
  {
    var firsts := set a | a in todo :: ages[a];
    var x :| x in todo;
    assert ages[x] in firsts;
    var m := Least(firsts);
    var a :| a in todo && ages[a] == m;
    assert forall b :: b in todo ==> ages[b] in firsts;
  }

  /** In the ordered listing the source at position k has exactly k older sources. */
  lemma PositionIsRank(ages: map<Addr, LeaseId>, ordered: seq<Addr>, k: nat)
    requires Ordered(ages, ordered) && k < |ordered|
    ensures ordered[k] in ages && |Older(ages, ordered[k])| == k
  {
    assert ordered[k] in ordered;
    OrderedNoDuplicates(ages, ordered);
    PrefixSize(ordered, k);
    var firstK := Firsts(ordered, k);
    forall b ensures b in Older(ages, ordered[k]) <==> b in firstK {
      if b in Older(ages, ordered[k]) {
        assert b in ordered;
        var j :| 0 <= j < |ordered| && ordered[j] == b;
        assert j < k;
      }
      if b in firstK { assert b in ordered; }
    }
    assert Older(ages, ordered[k]) == firstK;
  }

  function Firsts(xs: seq<Addr>, k: nat): set<Addr>
    requires k <= |xs|
  {
    set i | 0 <= i < k :: xs[i]
  }

  lemma {:induction false} PrefixSize(xs: seq<Addr>, k: nat)
    requires NoDuplicates(xs) && k <= |xs|
    ensures |Firsts(xs, k)| == k
  {
    if k > 0 {
      PrefixSize(xs, k - 1);
      assert Firsts(xs, k) == Firsts(xs, k - 1) + {xs[k - 1]};
    }
  }

  lemma OrderedNoDuplicates(ages: map<Addr, LeaseId>, xs: seq<Addr>)
    requires Ordered(ages, xs)
    ensures NoDuplicates(xs)
  {
    forall i, j | 0 <= i < j < |xs| ensures xs[i] != xs[j] { assert xs[i] in xs && xs[j] in xs; }
  }

  lemma OrderedSize(ages: map<Addr, LeaseId>, ordered: seq<Addr>)
    requires Ordered(ages, ordered)
    ensures |ordered| == |ages|
  {
    OrderedNoDuplicates(ages, ordered);
    PrefixSize(ordered, |ordered|);
    assert Firsts(ordered, |ordered|) == ages.Keys;
  }

  /** The tail of the ordered listing is what falls outside the oldest `limit`. */
  lemma TailIsNotOldest(ages: map<Addr, LeaseId>, ordered: seq<Addr>, limit: nat, a: Addr)
    requires Ordered(ages, ordered) && limit <= |ordered|
    ensures a in ordered[limit..] <==> a in ages && a !in Oldest(ages, limit)
  {
    if a in ages {
      assert a in ordered;
      var k :| 0 <= k < |ordered| && ordered[k] == a;
      PositionIsRank(ages, ordered, k);
      if a in ordered[limit..] {
        var j :| limit <= j < |ordered| && ordered[j] == a;
        PositionIsRank(ages, ordered, j);
      }
      if k >= limit { assert ordered[limit..][k - limit] == a; }
    } else {
      assert a !in ordered;
    }
  }

  // ---------------------------------------------------------------- ages under partial enforcement

  lemma AgesFrame(s: Leases, r: Leases, u: UserId)
    requires s.Keys == r.Keys
    requires forall i :: i in s ==> s[i].user == r[i].user
    requires forall i :: i in s && s[i].user == u ==> r[i] == s[i]
    ensures LiveSources(r, u) == LiveSources(s, u) && Ages(r, u) == Ages(s, u)
  {
    forall a ensures a in LiveSources(r, u) <==> a in LiveSources(s, u) {
      if i :| i in s && s[i].user == u && !s[i].revoked && s[i].source == a { assert r[i] == s[i]; }
      if i :| i in r && r[i].user == u && !r[i].revoked && r[i].source == a { assert r[i] == s[i]; }
    }
    forall a | a in LiveSources(s, u) ensures Ages(r, u)[a] == Ages(s, u)[a] {
      AgeIsLeast(s, u, a);
      AgeIsLeast(r, u, a);
      assert LiveAt(r, u, a) == LiveAt(s, u, a);
    }
  }

  // ---------------------------------------------------------------- the object

  /** `table` groups the registry's settings, users, leases and source counts; the counts per kind are
      kept beside it, updated by hand at every step. */
  class Registry {
    var table: Table
    var userTCP: UserCounts
    var userXUDP: UserCounts
    var tcp: int
    var xudp: int
    var handshakes: int

    ghost function Counts(): Books
      reads this
    {
      Books(table.sources, userTCP, userXUDP, tcp, xudp)
    }

    /** The counts per user are those of the table. */
    ghost predicate UsersTallied()
      reads this
    {
      UsersMatch(userTCP, table.sessions, TCP) && UsersMatch(userXUDP, table.sessions, XUDP)
    }

    /** The incremental counts per kind are those of the table; about the source counts it says nothing. */
    ghost predicate Tallied()
      reads this
    {
      TalliesMatch(Counts(), table.sessions)
    }

    ghost predicate Valid()
      reads this
    {
      && Tallied()
      && handshakes == |table.tickets|
      && Numbered(table.sessions, table.detached, table.nextId)
      && (forall k :: k in table.tickets ==> k < table.nextTicket)
    }

    constructor (limits: Limits, first: Snapshot)
      ensures Valid() && Exact(table) && table == Initial(limits, first)
    {
      table := Install(Empty(limits), first);
      userTCP, userXUDP := map[], map[];
      tcp, xudp, handshakes := 0, 0, 0;
      new;
      BooksOfNothing();
    }

    // -------------------------------------------------------------- admission

    /** The second critical section of Open. */
    method Open(p: Pending) returns (result: Result<LeaseId, Reason>)
      requires Valid()
      modifies this
      ensures Valid() && table == OpenCommit(old(table), p)
      ensures result.Ok? <==> OpenReason(old(table), p).None?
      ensures result.Ok? ==> result.value == old(table).nextId + 1
      ensures result.Err? ==> OpenReason(old(table), p) == Some(result.error)
    {
      var reason := CheckOpen(p);
      result := Settle(p, reason);
    }

    method Settle(p: Pending, reason: Option<Reason>) returns (result: Result<LeaseId, Reason>)
      requires Valid()
      modifies this
      ensures Valid() && table == Conclude(old(table), p, reason)
      ensures result == if reason.Some? then Err(reason.value) else Ok(old(table).nextId + 1)
    {
      if reason.Some? {
        table := Reject(table, reason.value);
        return Err(reason.value);
      }
      var userRate := if p.user in table.userLimiters then table.userLimiters[p.user] else None;
      var id := Enter(Lease(p.user, p.source, p.kind, userRate, table.nodeLimiter, None, false,
                            p.port, p.candidates, p.pinned, CurrentCredential(table, p.user), 0, []));
      result := Ok(id);
    }

    /** The admission tests in the order of the source, on the incremental counts. */
    method CheckOpen(p: Pending) returns (reason: Option<Reason>)
      requires Tallied()
      ensures reason == OpenReason(table, p)
    {
      if table.closed || p.user !in table.users { return Some(Authorization); }
      var user := table.users[p.user];
      if p.source in user.disconnectIPs { return Some(DisconnectIp); }
      if PortBlocked(user.forbiddenPorts, p.port) { return Some(ForbiddenPort); }
      if exists a :: a in p.candidates && IPBlocked(user.forbiddenIPs, a) { return Some(ForbiddenIp); }
      var limit := EffectiveLimit(user.connectorLimit, table.nodeConnectors);
      if limit > 0 && CountAt(table.sources, p.user, p.source) == 0 && |Inner(table.sources, p.user)| >= limit {
        return Some(ConnectorLimit);
      }
      if p.kind == TCP {
        if tcp >= table.limits.tcpGlobal { return Some(TcpGlobal); }
        if CountOf(userTCP, p.user) >= table.limits.tcpPerUser { return Some(TcpUser); }
        return None;
      }
      if xudp >= table.limits.xudpGlobal { return Some(XudpGlobal); }
      if CountOf(userXUDP, p.user) >= table.limits.xudpPerUser { return Some(XudpUser); }
      return None;
    }

    method CountIn(l: Lease)
      modifies this`userTCP, this`userXUDP, this`tcp, this`xudp
      ensures Counts() == BookIn(old(Counts()), l).(sources := table.sources)
    {
      if l.kind == TCP {
        tcp, userTCP := tcp + 1, Inc(userTCP, l.user);
      } else {
        xudp, userXUDP := xudp + 1, Inc(userXUDP, l.user);
      }
    }

    /** A new lease enters the table and every count. */
    method Enter(l: Lease) returns (id: LeaseId)
      requires Valid()
      modifies this`table, this`userTCP, this`userXUDP, this`tcp, this`xudp
      ensures Valid() && id == old(table).nextId + 1
      ensures table == old(table).(nextId := id, sessions := old(table).sessions[id := l],
                                   sources := AddSource(old(table).sources, l.user, l.source))
    {
      id := table.nextId + 1;
      TallyIn(Counts(), table.sessions, id, l);
      CountIn(l);
      table := table.(nextId := id, sessions := table.sessions[id := l],
                      sources := AddSource(table.sources, l.user, l.source));
    }

    // -------------------------------------------------------------- migration, release

    /** The tests of Rebind on the source counts. */
    method CheckRebind(l: Lease, a: Addr) returns (reason: Option<Reason>)
      ensures reason == RebindReason(table, l, a)
    {
      if l.user !in table.users { return Some(Authorization); }
      if a in table.users[l.user].disconnectIPs { return Some(DisconnectIp); }
      var limit := EffectiveLimit(table.users[l.user].connectorLimit, table.nodeConnectors);
      if limit > 0 && CountAt(table.sources, l.user, a) == 0 {
        var sourcesAfterDetach: int := |Inner(table.sources, l.user)|;
        if CountAt(table.sources, l.user, l.source) == 1 { sourcesAfterDetach := sourcesAfterDetach - 1; }
        if sourcesAfterDetach >= limit { return Some(ConnectorLimit); }
      }
      return None;
    }

    /** Rebind as written, without any test that the lease is still in the table. Exact source counts
        stay exact if and only if the lease is in the table or the call moves nothing. */
    method RebindLease(i: LeaseId, a: Addr) returns (err: Option<Reason>)
      requires Valid() && Has(table, i)
      modifies this`table
      ensures Valid() && table == Rebind(old(table), i, a)
      ensures err == RebindError(old(table), LeaseOf(old(table), i), a)
      ensures Exact(old(table)) ==>
                (Exact(table) <==> i in old(table).sessions || !Migrates(old(table), LeaseOf(old(table), i), a))
    {
      if Exact(table) { ExactAfterRebind(table, i, a); }
      var l := LeaseOf(table, i);
      if table.closed || l.revoked {
        table := Reject(table, Authorization);
        return Some(Authorization);
      }
      if a == l.source { return None; }
      err := CheckRebind(l, a);
      if err.Some? {
        table := Reject(table, err.value);
      } else {
        Migrate(i, l, a);
      }
    }

    method Migrate(i: LeaseId, l: Lease, a: Addr)
      requires Valid() && Has(table, i) && l == LeaseOf(table, i) && a != l.source
      modifies this`table
      ensures Valid() && table == Moved(old(table), i, l, a)
    {
      var moved := l.(source := a);
      if i in table.sessions { TallyAfterRelabel(Counts(), table.sessions, table.sessions[i := moved]); }
      table := table.(sources := AddSource(RemoveSource(table.sources, l.user, l.source), l.user, a));
      table := PutLease(table, i, moved);
    }

    /** Close of a lease, guarded by its once flag: the first call removes it from the table. */
    method CloseOnce(i: LeaseId)
      requires Valid()
      modifies this`table, this`userTCP, this`userXUDP, this`tcp, this`xudp
      ensures Valid() && table == CloseLease(old(table), i)
      ensures Exact(old(table)) ==> Exact(table)
    {
      if i !in table.sessions { return; }
      if Exact(table) { RemoveMatches(table.sources, table.sessions, i); }
      Leave(i);
    }

    method Leave(i: LeaseId)
      requires Valid() && i in table.sessions
      modifies this`table, this`userTCP, this`userXUDP, this`tcp, this`xudp
      ensures Valid() && table == CloseLease(old(table), i)
    {
      var l := table.sessions[i];
      TallyOut(Counts(), table.sessions, i);
      Lower(l);
      table := table.(sessions := table.sessions - {i}, detached := table.detached[i := l],
                      sources := RemoveSource(table.sources, l.user, l.source));
    }

    /** The counts per kind that a lease leaves; the tests for zero never fire. */
    method Lower(l: Lease)
      requires l.kind == TCP ==> tcp > 0 && CountOf(userTCP, l.user) > 0
      requires l.kind == XUDP ==> xudp > 0 && CountOf(userXUDP, l.user) > 0
      modifies this`userTCP, this`userXUDP, this`tcp, this`xudp
      ensures var b := BookOut(old(Counts()), l);
              userTCP == b.userTCP && userXUDP == b.userXUDP && tcp == b.tcp && xudp == b.xudp
    {
      if l.kind == TCP {
        tcp, userTCP := if tcp > 0 then tcp - 1 else tcp, Dec(userTCP, l.user);
      } else {
        xudp, userXUDP := if xudp > 0 then xudp - 1 else xudp, Dec(userXUDP, l.user);
      }
    }

    /** BindInterrupt; `runNow` is the callback the caller runs itself. */
    method BindInterrupt(i: LeaseId, cb: Option<Callback>) returns (runNow: Option<Callback>)
      requires Valid() && Has(table, i)
      modifies this`table
      ensures Valid() && table == Bind(old(table), i, cb)
      ensures runNow == if LeaseOf(old(table), i).revoked then cb else None
    {
      var l := LeaseOf(table, i);
      runNow := if l.revoked then cb else None;
      var bound := l.(interrupt := cb, binds := l.binds + 1,
                      handed := if runNow.Some? then l.handed + [runNow.value] else l.handed);
      if i in table.sessions { TallyAfterRelabel(Counts(), table.sessions, table.sessions[i := bound]); }
      table := PutLease(table, i, bound);
    }

    // -------------------------------------------------------------- handshakes

    method AcquireHandshake() returns (ticket: Option<nat>)
      requires Valid()
      modifies this`table, this`handshakes
      ensures Valid() && table == Acquire(old(table))
      ensures ticket.Some? <==> !old(table).closed && |old(table).tickets| < old(table).limits.handshakes
      ensures ticket.Some? ==> ticket.value !in old(table).tickets && table.tickets == old(table).tickets + {ticket.value}
      ensures ticket.None? ==> table.tickets == old(table).tickets
    {
      if table.closed || handshakes >= table.limits.handshakes {
        table := Reject(table, HandshakeLimit);
        return None;
      }
      handshakes := handshakes + 1;
      ticket := Some(table.nextTicket);
      table := table.(tickets := table.tickets + {table.nextTicket}, nextTicket := table.nextTicket + 1);
    }

    /** The release function of a ticket, guarded by its once flag. */
    method ReleaseOnce(ticket: nat)
      requires Valid()
      modifies this`table, this`handshakes
      ensures Valid() && table == Release(old(table), ticket)
      ensures table.tickets == old(table).tickets - {ticket}
    {
      if ticket in table.tickets {
        assert table.tickets == (table.tickets - {ticket}) + {ticket};
        assert handshakes > 0;
        handshakes := if handshakes > 0 then handshakes - 1 else handshakes;
        table := table.(tickets := table.tickets - {ticket});
      } else {
        assert table.tickets - {ticket} == table.tickets;
      }
    }

    method HasUserSessions(u: UserId) returns (has: bool)
      requires UsersTallied()
      ensures has <==> exists i :: i in table.sessions && table.sessions[i].user == u
    {
      has := CountOf(userTCP, u) > 0 || CountOf(userXUDP, u) > 0;
      UserHasLeases(userTCP, userXUDP, table.sessions, u);
    }

    // -------------------------------------------------------------- revocation

    /** revokeLocked: its loop over the table, in any order. */
    method RevokeLocked(whole: set<UserId>, some: map<UserId, set<Addr>>) returns (callbacks: seq<(LeaseId, Callback)>)
      requires Tallied()
      modifies this`table
      ensures table == old(table).(
                sessions := RevokeSet(old(table).sessions, Selected(old(table).sessions, whole, some)))
      ensures Collected(old(table).sessions, table.sessions, callbacks)
      ensures Tallied()
    {
      var s;
      s, callbacks := RevokeEach(table.sessions, whole, some);
      TallyAfterRelabel(Counts(), table.sessions, s);
      table := table.(sessions := s);
    }

    method RevokeUserIds(ids: set<UserId>) returns (callbacks: seq<(LeaseId, Callback)>)
      requires Valid()
      modifies this`table
      ensures Valid() && table == RevokeUsers(old(table), ids)
      ensures Collected(old(table).sessions, table.sessions, callbacks)
    {
      assert Selected(table.sessions, ids, map[]) == IdsOfUsers(table.sessions, ids);
      callbacks := RevokeLocked(ids, map[]);
    }

    /** Close of the registry. */
    method CloseRegistry() returns (callbacks: seq<(LeaseId, Callback)>)
      requires Valid()
      modifies this`table
      ensures Valid() && table == Shut(old(table))
      ensures Collected(old(table).sessions, table.sessions, callbacks)
    {
      table := table.(closed := true);
      var ids := table.users.Keys;
      assert Selected(table.sessions, ids, map[]) == IdsOfUsers(table.sessions, ids);
      callbacks := RevokeLocked(ids, map[]);
    }

    // -------------------------------------------------------------- update

    /** Update up to the connector loop: compare, install, revoke. */
    method Revise(next: Snapshot)
      returns (whole: set<UserId>, some: map<UserId, set<Addr>>, callbacks: seq<(LeaseId, Callback)>)
      requires Valid()
      modifies this`table
      ensures Valid() && table == Revised(old(table), next)
      ensures Collected(old(table).sessions, table.sessions, callbacks)
      ensures forall u :: u in whole <==> WholeUserRevoked(old(table), next, u)
      ensures forall u :: u in some <==> NewlyDisconnected(old(table), next, u) != {}
    {
      ghost var t := table;
      whole, some := CompareUsers(table, next);
      table := Install(table, next);
      assert Selected(t.sessions, whole, some) == RevokedByUpdate(t, next);
      callbacks := RevokeLocked(whole, some);
    }

    /** Update; the affected users come sorted. It panics exactly when the slice of the connector loop is
        out of range; otherwise the table is the one the update defines, whatever order the maps were
        walked in. */
    method UpdateSnapshot(next: Snapshot)
      returns (panicked: bool, affected: seq<UserId>, callbacks: seq<(LeaseId, Callback)>)
      requires Valid()
      modifies this`table
      ensures panicked <==> UpdatePanics(old(table), next)
      ensures !panicked ==> Valid() && table == Update(old(table), next)
      ensures !panicked ==> Collected(old(table).sessions, table.sessions, callbacks)
      ensures !panicked ==> RisingIds(affected) && forall u :: u in affected <==> Affected(old(table), next, u)
    {
      ghost var t := table;
      PanicsAgree(t, next);
      var whole, some, first := Revise(next);
      var limited, more;
      panicked, limited, more := EnforceConnectors();
      callbacks := first + more;
      affected := SortIds(whole + some.Keys + limited);
      assert forall u :: u in affected <==> u in Ids(affected);
      if !panicked { TwoRevocations(t, next, first, more); }
    }

    method EnforceConnectors()
      returns (panicked: bool, limited: set<UserId>, callbacks: seq<(LeaseId, Callback)>)
      requires Valid()
      modifies this`table
      ensures panicked <==> exists u :: EnforceFails(old(table), u)
      ensures !panicked ==> Valid() && table == Enforced(old(table))
      ensures !panicked ==> Collected(old(table).sessions, table.sessions, callbacks)
      ensures !panicked ==> forall u :: u in limited <==> Cut(old(table), u)
    {
      var s;
      panicked, s, callbacks, limited := EnforceEach(table);
      if panicked { return; }
      TallyAfterRelabel(Counts(), table.sessions, s);
      table := table.(sessions := s);
    }
  }

  /** The users Update reports as affected. */
  ghost predicate Affected(t: Table, next: Snapshot, u: UserId) {
    || WholeUserRevoked(t, next, u)
    || NewlyDisconnected(t, next, u) != {}
    || Cut(Revised(t, next), u)
  }

  lemma TwoRevocations(
    t: Table, next: Snapshot, first: seq<(LeaseId, Callback)>, more: seq<(LeaseId, Callback)>)
    requires Collected(t.sessions, Revised(t, next).sessions, first)
    requires Collected(Revised(t, next).sessions, Update(t, next).sessions, more)
    ensures Collected(t.sessions, Update(t, next).sessions, first + more)
  {
    RevokeSetOnlyRevokes(t.sessions, RevokedByUpdate(t, next));
    RevokeSetOnlyRevokes(Revised(t, next).sessions, OverLimit(Revised(t, next)));
    CollectedInTwo(t.sessions, Revised(t, next).sessions, Update(t, next).sessions, first, more);
  }

  lemma PanicsAgree(t: Table, next: Snapshot)
    ensures UpdatePanics(t, next) <==> exists u :: EnforceFails(Revised(t, next), u)
  {
    forall u ensures u in UserMap(next.users) && SliceFails(t, next, u) <==> EnforceFails(Revised(t, next), u) {}
  }

  // ---------------------------------------------------------------- connector limits

  /** The slice of enforceConnectorsLocked is out of range for user `u`. */
  predicate EnforceFails(t: Table, u: UserId) {
    && u in t.users
    && 0 < LimitOf(t, u) < ListedSources(t.sources, u)
    && |LiveSources(t.sessions, u)| < LimitOf(t, u)
  }

  ghost function OverLimitOf(t: Table, us: set<UserId>): set<LeaseId> {
    set i | i in OverLimit(t) && t.sessions[i].user in us
  }

  /** Some live lease of the user lies outside its oldest sources. */
  ghost predicate Cut(t: Table, u: UserId) { OverLimitOf(t, {u}) != {} }

  /** Enforcing one user after others only revokes that user's leases outside its oldest sources. */
  lemma OneMoreUser(t: Table, us: set<UserId>, u: UserId, blocked: set<Addr>)
    requires u !in us && u in t.users
    requires forall i :: i in t.sessions && t.sessions[i].user == u && !t.sessions[i].revoked ==>
               (i in OverLimit(t) <==> t.sessions[i].source in blocked)
    ensures var s := RevokeSet(t.sessions, OverLimitOf(t, us));
            RevokeSet(s, Selected(s, {}, map[u := blocked])) == RevokeSet(t.sessions, OverLimitOf(t, us + {u}))
  {
    var s := RevokeSet(t.sessions, OverLimitOf(t, us));
    var r := RevokeSet(s, Selected(s, {}, map[u := blocked]));
    var want := RevokeSet(t.sessions, OverLimitOf(t, us + {u}));
    forall i | i in t.sessions ensures r[i] == want[i] {
      if t.sessions[i].user != u { assert i !in Selected(s, {}, map[u := blocked]); }
    }
  }

  lemma SkippedUser(t: Table, u: UserId)
    requires u in t.users && LimitOf(t, u) > 0 ==> ListedSources(t.sources, u) <= LimitOf(t, u)
    ensures !Cut(t, u)
  {
  }

  lemma OverLimitSplit(t: Table, us: set<UserId>, u: UserId)
    ensures OverLimitOf(t, us + {u}) == OverLimitOf(t, us) + OverLimitOf(t, {u})
  {
  }

  /** What the sorted tail blocks are exactly the live leases over the limit. */
  lemma BlockedAreOverLimit(t: Table, u: UserId, ordered: seq<Addr>)
    requires u in t.users && 0 < LimitOf(t, u) <= |ordered| && Ordered(Ages(t.sessions, u), ordered)
    requires LimitOf(t, u) < ListedSources(t.sources, u)
    ensures forall i :: i in t.sessions && t.sessions[i].user == u && !t.sessions[i].revoked ==>
              (i in OverLimit(t) <==> t.sessions[i].source in ordered[LimitOf(t, u)..])
    ensures ordered[LimitOf(t, u)..] != [] <==> Cut(t, u)
  {
    var ages, limit := Ages(t.sessions, u), LimitOf(t, u);
    forall i | i in t.sessions && t.sessions[i].user == u && !t.sessions[i].revoked
      ensures i in OverLimit(t) <==> t.sessions[i].source in ordered[limit..]
    {
      TailIsNotOldest(ages, ordered, limit, t.sessions[i].source);
    }
    if ordered[limit..] != [] {
      var a := ordered[limit..][0];
      TailIsNotOldest(ages, ordered, limit, a);
      var i :| i in t.sessions && t.sessions[i].user == u && !t.sessions[i].revoked && t.sessions[i].source == a;
      assert i in OverLimitOf(t, {u});
    }
    if i :| i in OverLimitOf(t, {u}) { assert t.sessions[i].source in ordered[limit..]; }
  }

  /** One user of enforceConnectorsLocked. `None` is the out-of-range slice; otherwise whether any of
      the user's sources were cut. */
  method EnforceOne(t: Table, s: Leases, u: UserId, ghost done: set<UserId>)
    returns (hit: Option<bool>, r: Leases, more: seq<(LeaseId, Callback)>)
    requires s == RevokeSet(t.sessions, OverLimitOf(t, done)) && u !in done
    ensures hit.None? <==> EnforceFails(t, u)
    ensures hit.Some? ==> r == RevokeSet(t.sessions, OverLimitOf(t, done + {u}))
    ensures hit.Some? ==> OnlyRevokes(s, r) && Collected(s, r, more) && (hit.value <==> Cut(t, u))
  {
    OverLimitSplit(t, done, u);
    r, more := s, [];
    if u !in t.users || LimitOf(t, u) <= 0 || |Inner(t.sources, u)| <= LimitOf(t, u) {
      SkippedUser(t, u);
      return Some(false), r, more;
    }
    var limit := LimitOf(t, u);
    AgesFrame(t.sessions, s, u);
    AgesDistinct(s, u);
    var ages := SourceAges(s, u);
    var ordered := OrderByAge(ages);
    OrderedSize(ages, ordered);
    assert |ages| == |ages.Keys|;
    if |ordered| < limit { return None, r, more; }
    BlockedAreOverLimit(t, u, ordered);
    var tail := ordered[limit..];
    if tail == [] { return Some(false), r, more; }
    var blocked := set a | a in tail;
    OneMoreUser(t, done, u, blocked);
    r, more := RevokeEach(s, {}, map[u := blocked]);
    RevokeSetOnlyRevokes(s, Selected(s, {}, map[u := blocked]));
    return Some(true), r, more;
  }

  /** enforceConnectorsLocked: users in any order; `panicked` is the out-of-range slice. */
  method EnforceEach(t: Table)
    returns (panicked: bool, s: Leases, callbacks: seq<(LeaseId, Callback)>, affected: set<UserId>)
    ensures panicked <==> exists u :: EnforceFails(t, u)
    ensures !panicked ==> s == RevokeSet(t.sessions, OverLimit(t)) && Collected(t.sessions, s, callbacks)
    ensures !panicked ==> forall u :: u in affected <==> Cut(t, u)
  {
    panicked, s, callbacks, affected := false, t.sessions, [], {};
    var todo := t.sources.Keys;
    ghost var done: set<UserId> := {};
    assert OverLimitOf(t, {}) == {};
    while exists u :: u in todo
      decreases todo
      invariant done == t.sources.Keys - todo && todo <= t.sources.Keys
      invariant s == RevokeSet(t.sessions, OverLimitOf(t, done))
      invariant OnlyRevokes(t.sessions, s) && Collected(t.sessions, s, callbacks)
      invariant forall u :: u in affected <==> u in done && Cut(t, u)
      invariant forall u :: u in done ==> !EnforceFails(t, u)
    {
      var u :| u in todo;
      todo := todo - {u};
      var hit, r, more := EnforceOne(t, s, u, done);
      if hit.None? {
        panicked := true;
        return;
      }
      CollectedInTwo(t.sessions, s, r, callbacks, more);
      s, callbacks, affected := r, callbacks + more, if hit.value then affected + {u} else affected;
      done := done + {u};
    }
    AllUsersDone(t);
  }

  lemma AllUsersDone(t: Table)
    ensures OverLimitOf(t, t.sources.Keys) == OverLimit(t)
    ensures forall u :: u !in t.sources ==> !EnforceFails(t, u) && !Cut(t, u)
  {
    forall i | i in OverLimit(t) ensures t.sessions[i].user in t.sources {
      assert ListedSources(t.sources, t.sessions[i].user) > 0;
    }
    forall u | u !in t.sources ensures !EnforceFails(t, u) && !Cut(t, u) { assert ListedSources(t.sources, u) == 0; }
  }

  // ---------------------------------------------------------------- comparing snapshots

  /** The first loop of Update: whose leases go, and which sources of the others. */
  method CompareUsers(t: Table, next: Snapshot) returns (whole: set<UserId>, some: map<UserId, set<Addr>>)
    ensures forall u :: u in whole <==> WholeUserRevoked(t, next, u)
    ensures forall u :: u in some <==> NewlyDisconnected(t, next, u) != {}
    ensures forall u :: u in some ==> some[u] == NewlyDisconnected(t, next, u)
  {
    var users := UserMap(next.users);
    whole, some := {}, map[];
    var todo := t.users.Keys;
    while exists u :: u in todo
      decreases todo
      invariant todo <= t.users.Keys
      invariant forall u :: u in whole <==>
                  u in t.users && u !in todo && (u !in users || PolicyChanged(t.users[u], users[u]))
      invariant forall u :: u in some <==> u !in todo && NewlyDisconnected(t, next, u) != {}
      invariant forall u :: u in some ==> some[u] == NewlyDisconnected(t, next, u)
    {
      var u :| u in todo;
      todo := todo - {u};
      if u !in users || PolicyChanged(t.users[u], users[u]) {
        whole := whole + {u};
      } else {
        var added := set a | a in users[u].disconnectIPs && a !in t.users[u].disconnectIPs;
        if added != {} { some := some[u := added]; }
      }
    }
    if t.nodeSpeed != next.node.speedLimit { whole := whole + t.users.Keys; }
  }

  lemma UserHasLeases(tcp: UserCounts, xudp: UserCounts, s: Leases, u: UserId)
    requires UsersMatch(tcp, s, TCP) && UsersMatch(xudp, s, XUDP)
    ensures CountOf(tcp, u) > 0 || CountOf(xudp, u) > 0 <==> exists i :: i in s && s[i].user == u
  {
    assert CountOf(tcp, u) == |OfUserKind(s, u, TCP)| && CountOf(xudp, u) == |OfUserKind(s, u, XUDP)|;
    if i :| i in s && s[i].user == u { assert i in OfUserKind(s, u, s[i].kind); }
    if OfUserKind(s, u, TCP) != {} { var i :| i in OfUserKind(s, u, TCP); }
    if OfUserKind(s, u, XUDP) != {} { var i :| i in OfUserKind(s, u, XUDP); }
  }

  // ---------------------------------------------------------------- loops over the table

  /** The loop of revokeLocked. */
  method RevokeEach(s: Leases, whole: set<UserId>, some: map<UserId, set<Addr>>)
    returns (r: Leases, callbacks: seq<(LeaseId, Callback)>)
    ensures r == RevokeSet(s, Selected(s, whole, some))
    ensures Collected(s, r, callbacks)
  {
    r, callbacks := s, [];
    var todo := s.Keys;
    while todo != {}
      invariant todo <= s.Keys == r.Keys
      invariant forall i :: i in s ==>
                  r[i] == if i !in todo && i in Selected(s, whole, some) then RevokeLease(s[i]) else s[i]
      invariant Collected(s, r, callbacks)
    {
      var i :| i in todo;
      todo := todo - {i};
      var l := r[i];
      if (l.user in whole || (l.user in some && l.source in some[l.user])) && !l.revoked {
        r := r[i := RevokeLease(l)];
        if l.interrupt.Some? {
          assert forall c :: (i, c) !in callbacks;
          callbacks := callbacks + [(i, l.interrupt.value)];
        }
      }
    }
  }

  /** The loop that dates each live source of a user. */
  method SourceAges(s: Leases, u: UserId) returns (ages: map<Addr, LeaseId>)
    ensures ages == Ages(s, u)
  {
    ages := map[];
    var todo := s.Keys;
    while todo != {}
      invariant todo <= s.Keys
      invariant forall a :: a in ages ==> ages[a] in LiveAt(s, u, a)
      invariant forall i :: i in s && i !in todo && s[i].user == u && !s[i].revoked ==>
                  s[i].source in ages && ages[s[i].source] <= i
    {
      var i :| i in todo;
      todo := todo - {i};
      var l := s[i];
      if l.user == u && !l.revoked {
        if l.source !in ages || i < ages[l.source] { ages := ages[l.source := i]; }
      }
    }
    forall a ensures a in ages <==> a in LiveSources(s, u) {
      if a in ages { assert s[ages[a]].source in LiveSources(s, u); }
    }
    forall a | a in ages ensures ages[a] == Ages(s, u)[a] {
      AgeIsLeast(s, u, a);
    }
  }
}
