/** What Open and Rebind accept, refuse and report, and what they leave behind (internal/session/registry.go),
    stated on the request, the policy and the leases. */
module SessionAdmission {
  import opened Wrappers
  import opened Model
  import opened IpRules
  import opened PortRules
  import opened SessionTable
  import opened SessionSafety
  import opened SessionConnectors
  import opened Ledger

  // ---------------------------------------------------------------- admission

  /** A test of admission the request does not pass. */
  ghost predicate Objects(t: Table, p: Pending, r: Reason) {
    match r
    case Authorization => t.closed || p.user !in t.users
    case DisconnectIp => p.user in t.users && p.source in t.users[p.user].disconnectIPs
    case ForbiddenPort => p.user in t.users && PortBlocked(t.users[p.user].forbiddenPorts, p.port)
    case ForbiddenIp => p.user in t.users && exists a :: a in p.candidates && IPBlocked(t.users[p.user].forbiddenIPs, a)
    case ConnectorLimit =>
      && p.user in t.users && CountAt(t.sources, p.user, p.source) == 0
      && 0 < LimitOf(t, p.user) <= ListedSources(t.sources, p.user)
    case TcpGlobal => p.kind == TCP && |OfKind(t.sessions, TCP)| >= t.limits.tcpGlobal
    case TcpUser => p.kind == TCP && |OfUserKind(t.sessions, p.user, TCP)| >= t.limits.tcpPerUser
    case XudpGlobal => p.kind == XUDP && |OfKind(t.sessions, XUDP)| >= t.limits.xudpGlobal
    case XudpUser => p.kind == XUDP && |OfUserKind(t.sessions, p.user, XUDP)| >= t.limits.xudpPerUser
    case _ => false
  }

  /** The order in which the tests are made. */
  function Rank(r: Reason): nat {
    match r
    case Authorization => 0
    case DisconnectIp => 1
    case ForbiddenPort => 2
    case ForbiddenIp => 3
    case ConnectorLimit => 4
    case TcpGlobal => 5
    case TcpUser => 6
    case XudpGlobal => 7
    case XudpUser => 8
    case _ => 9
  }

  ghost predicate ObjectsFirst(t: Table, p: Pending, r: Reason) {
    Objects(t, p, r) && forall q :: Rank(q) < Rank(r) ==> !Objects(t, p, q)
  }

  lemma PolicyObjects(t: Table, p: Pending)
    requires p.user in t.users
    ensures var r := PolicyReason(t.users[p.user], p.source, p.port, p.candidates);
            if r.None? then forall q :: 1 <= Rank(q) <= 3 ==> !Objects(t, p, q)
            else && Objects(t, p, r.value) && 1 <= Rank(r.value) <= 3
                 && forall q :: 1 <= Rank(q) < Rank(r.value) ==> !Objects(t, p, q)
  {
  }

  lemma KindObjects(t: Table, p: Pending)
    requires KindReason(t, p).Some?
    ensures var r := KindReason(t, p).value;
            && Objects(t, p, r) && 5 <= Rank(r) <= 8 && forall q :: 5 <= Rank(q) < Rank(r) ==> !Objects(t, p, q)
  {
  }

  lemma ReasonObjectsFirst(t: Table, p: Pending)
    requires OpenReason(t, p).Some?
    ensures ObjectsFirst(t, p, OpenReason(t, p).value)
  {
    if !t.closed && p.user in t.users {
      PolicyObjects(t, p);
      if KindReason(t, p).Some? { KindObjects(t, p); }
    }
  }

  /** A request is admitted exactly when no test objects. */
  lemma AdmittedUnlessObjection(t: Table, p: Pending)
    ensures OpenReason(t, p).None? <==> forall r :: !Objects(t, p, r)
  {
    if OpenReason(t, p).Some? { ReasonObjectsFirst(t, p); }
  }

  /** A request is refused with a reason exactly when that test is the first it does not pass. */
  lemma RefusedWithFirst(t: Table, p: Pending, r: Reason)
    ensures OpenReason(t, p) == Some(r) <==> ObjectsFirst(t, p, r)
  {
    AdmittedUnlessObjection(t, p);
    if OpenReason(t, p).Some? {
      ReasonObjectsFirst(t, p);
      var first := OpenReason(t, p).value;
      assert Rank(first) < Rank(r) ==> !ObjectsFirst(t, p, r);
    }
  }

  /** A request is admitted exactly when it passes every test: an open registry, an authorised user, a
      policy that allows source, port and candidates, a free connector, and room for its kind. */
  lemma AdmittedExactlyWhen(t: Table, p: Pending)
    ensures OpenReason(t, p).None? <==>
            && !t.closed && p.user in t.users && p.source !in t.users[p.user].disconnectIPs
            && !PortBlocked(t.users[p.user].forbiddenPorts, p.port)
            && (forall a :: a in p.candidates ==> !IPBlocked(t.users[p.user].forbiddenIPs, a))
            && (LimitOf(t, p.user) > 0 ==>
                  CountAt(t.sources, p.user, p.source) > 0 || ListedSources(t.sources, p.user) < LimitOf(t, p.user))
            && HasRoom(t, p.user, p.kind)
  {
  }

  /** Fewer leases of the kind than the limits allow, over all users and for this one. */
  ghost predicate HasRoom(t: Table, u: UserId, k: Kind) {
    && |OfKind(t.sessions, k)| < (if k == TCP then t.limits.tcpGlobal else t.limits.xudpGlobal)
    && |OfUserKind(t.sessions, u, k)| < (if k == TCP then t.limits.tcpPerUser else t.limits.xudpPerUser)
  }

  /** With exact counts the connector test is about the leases: the source is in use already, or fewer
      than the limit are. */
  lemma AdmittedOnExactCounts(t: Table, p: Pending)
    requires Exact(t) && !t.closed && p.user in t.users && p.source !in t.users[p.user].disconnectIPs
    requires !PortBlocked(t.users[p.user].forbiddenPorts, p.port)
    requires forall a :: a in p.candidates ==> !IPBlocked(t.users[p.user].forbiddenIPs, a)
    ensures OpenReason(t, p).None? <==>
            && HasRoom(t, p.user, p.kind)
            && (LimitOf(t, p.user) <= 0 || p.source in SourcesOf(t.sessions, p.user)
                || |SourcesOf(t.sessions, p.user)| < LimitOf(t, p.user))
  {
    AdmittedExactlyWhen(t, p);
    CountsAgree(t.sources, t.sessions, p.user, p.source);
  }

  /** The lease is what was asked for, under the buckets and the credential in force, without any history. */
  ghost predicate AsAsked(t: Table, p: Pending, l: Lease)
    requires p.user in t.users
  {
    && l.user == p.user && l.source == p.source && l.kind == p.kind
    && l.port == p.port && l.candidates == p.candidates && l.pinned == p.pinned
    && l.credential == t.users[p.user].uuid && l.nodeRate == t.nodeLimiter
    && (p.user in t.userLimiters ==> l.userRate == t.userLimiters[p.user])
    && !l.revoked && l.interrupt.None? && l.binds == 0 && l.handed == []
  }

  lemma ConcludeAdds(t: Table, p: Pending)
    requires p.user in t.users
    ensures var t', i := Conclude(t, p, None), t.nextId + 1;
            && i in t'.sessions && t'.sessions == t.sessions[i := t'.sessions[i]] && t'.nextId == i
            && t'.detached == t.detached && t'.rejected == t.rejected && SameRest(t, t')
    ensures AsAsked(t, p, Conclude(t, p, None).sessions[t.nextId + 1])
  {
  }

  /** An admission adds that lease under the next id; nothing else in the table changes. */
  lemma AdmissionAdds(t: Table, p: Pending)
    requires OpenReason(t, p).None?
    ensures var t', i := OpenCommit(t, p), t.nextId + 1;
            && i in t'.sessions && t'.sessions == t.sessions[i := t'.sessions[i]] && t'.nextId == i
            && t'.detached == t.detached && t'.rejected == t.rejected && SameRest(t, t')
            && p.user in t.users && AsAsked(t, p, t'.sessions[i])
  {
    assert p.user in t.users;
    ConcludeAdds(t, p);
  }

  /** Policy and handshakes stay as they are. */
  ghost predicate SameRest(t: Table, t': Table) {
    SamePolicy(t, t') && t'.tickets == t.tickets && t'.nextTicket == t.nextTicket
  }

  /** A refusal is counted once under its reason, and changes nothing else. */
  ghost predicate OnlyCounts(t: Table, t': Table, r: Reason) {
    && SameRest(t, t') && t'.sessions == t.sessions && t'.detached == t.detached && t'.sources == t.sources
    && t'.nextId == t.nextId
    && forall q :: Count(t'.rejected, q) == Count(t.rejected, q) + if q == r then 1 else 0
  }

  lemma RefusalOnlyCounts(t: Table, p: Pending, r: Reason)
    requires ObjectsFirst(t, p, r)
    ensures OnlyCounts(t, OpenCommit(t, p), r)
  {
    RefusedWithFirst(t, p, r);
  }

  // ---------------------------------------------------------------- migration

  /** A test of Rebind the lease does not pass. The source it vacates counts as free already. */
  ghost predicate Hinders(t: Table, l: Lease, a: Addr, r: Reason) {
    match r
    case Authorization => t.closed || l.revoked || (a != l.source && l.user !in t.users)
    case DisconnectIp => a != l.source && l.user in t.users && a in t.users[l.user].disconnectIPs
    case ConnectorLimit =>
      && a != l.source && l.user in t.users && CountAt(t.sources, l.user, a) == 0
      && LimitOf(t, l.user) > 0
      && (if CountAt(t.sources, l.user, l.source) == 1 then ListedSources(t.sources, l.user) > LimitOf(t, l.user)
          else ListedSources(t.sources, l.user) >= LimitOf(t, l.user))
    case _ => false
  }

  ghost predicate HindersFirst(t: Table, l: Lease, a: Addr, r: Reason) {
    Hinders(t, l, a, r) && forall q :: Rank(q) < Rank(r) ==> !Hinders(t, l, a, q)
  }

  lemma ErrorHindersFirst(t: Table, l: Lease, a: Addr)
    requires RebindError(t, l, a).Some?
    ensures HindersFirst(t, l, a, RebindError(t, l, a).value)
  {
  }

  lemma MovesUnlessHindered(t: Table, l: Lease, a: Addr)
    ensures RebindError(t, l, a).None? <==> forall r :: !Hinders(t, l, a, r)
  {
    if RebindError(t, l, a).Some? { ErrorHindersFirst(t, l, a); }
  }

  /** Rebind reports a reason exactly when that test is the first the lease does not pass. */
  lemma RebindRefusedWithFirst(t: Table, l: Lease, a: Addr, r: Reason)
    ensures RebindError(t, l, a) == Some(r) <==> HindersFirst(t, l, a, r)
  {
    MovesUnlessHindered(t, l, a);
    if RebindError(t, l, a).Some? {
      ErrorHindersFirst(t, l, a);
      var first := RebindError(t, l, a).value;
      assert Rank(first) < Rank(r) ==> !HindersFirst(t, l, a, r);
    }
  }

  lemma PutOnlyThis(t: Table, i: LeaseId, l: Lease)
    requires Has(t, i)
    ensures var t' := PutLease(t, i, l);
            && (i in t.sessions ==> t'.sessions == t.sessions[i := l] && t'.detached == t.detached)
            && (i !in t.sessions ==> t'.sessions == t.sessions && t'.detached == t.detached[i := l])
            && Has(t', i) && LeaseOf(t', i) == l
            && forall j :: Has(t, j) && j != i ==> Has(t', j) && LeaseOf(t', j) == LeaseOf(t, j)
  {
  }

  /** When nothing hinders it, Rebind changes the lease's source and no other lease. */
  lemma RebindMoves(t: Table, i: LeaseId, a: Addr)
    requires Has(t, i) && forall r :: !Hinders(t, LeaseOf(t, i), a, r)
    ensures var t', l := Rebind(t, i, a), LeaseOf(t, i);
            && Has(t', i) && LeaseOf(t', i) == l.(source := a) && t'.rejected == t.rejected
            && forall j :: Has(t, j) && j != i ==> Has(t', j) && LeaseOf(t', j) == LeaseOf(t, j)
  {
    var l := LeaseOf(t, i);
    MovesUnlessHindered(t, l, a);
    PutOnlyThis(t.(sources := MoveSource(t.sources, l.user, l.source, a)), i, l.(source := a));
  }

  /** Otherwise it only counts the refusal. */
  lemma RebindRefusalOnlyCounts(t: Table, i: LeaseId, a: Addr, r: Reason)
    requires Has(t, i) && HindersFirst(t, LeaseOf(t, i), a, r)
    ensures OnlyCounts(t, Rebind(t, i, a), r)
  {
    RebindRefusedWithFirst(t, LeaseOf(t, i), a, r);
  }

  /** With exact counts a live lease of the table may move exactly where its user could open a new lease
      if this one were closed. */
  lemma RebindOnExactCounts(t: Table, i: LeaseId, a: Addr)
    requires Exact(t) && i in t.sessions && !t.closed && !t.sessions[i].revoked && t.sessions[i].user in t.users
    requires a != t.sessions[i].source
    ensures var u, others := t.sessions[i].user, SourcesOf(t.sessions - {i}, t.sessions[i].user);
            RebindError(t, t.sessions[i], a).None? <==>
              a !in t.users[u].disconnectIPs && (LimitOf(t, u) <= 0 || a in others || |others| < LimitOf(t, u))
  {
    var l := t.sessions[i];
    var all, others := SourcesOf(t.sessions, l.user), SourcesOf(t.sessions - {i}, l.user);
    CountsAgree(t.sources, t.sessions, l.user, a);
    CountsAgree(t.sources, t.sessions, l.user, l.source);
    OtherSources(t.sessions, i);
    assert l.source in all;
    if |At(t.sessions, l.user, l.source)| == 1 { assert |others| == |all| - 1; }
  }

  /** What is left of a user's sources without one lease. */
  lemma OtherSources(s: Leases, i: LeaseId)
    requires i in s
    ensures SourcesOf(s - {i}, s[i].user) == SourcesOf(s, s[i].user) - Vacated(s, i)
  {
    var l, r := s[i], s - {i};
    var here := At(s, l.user, l.source);
    SingletonOrMore(here, i);
    forall b ensures b in SourcesOf(r, l.user) <==> b in SourcesOf(s, l.user) - Vacated(s, i) {
      if b in SourcesOf(r, l.user) {
        var j :| j in r && r[j].user == l.user && r[j].source == b;
        assert s[j].source == b && (b == l.source ==> j in here);
      }
      if b in SourcesOf(s, l.user) && b !in Vacated(s, i) {
        if b == l.source {
          var j :| j in here && j != i;
          assert r[j].source == b;
        } else {
          var j :| j in s && s[j].user == l.user && s[j].source == b;
          assert r[j].source == b;
        }
      }
    }
  }

  // ---------------------------------------------------------------- release

  /** Close takes a lease of the table out of it, whatever its kind, and keeps the object; a closed lease
      and every other one stay as they are. */
  lemma CloseReleases(t: Table, i: LeaseId)
    ensures var t' := CloseLease(t, i);
            && i !in t'.sessions && (forall j :: j in t'.sessions <==> j in t.sessions && j != i)
            && (forall j :: j in t'.sessions ==> t'.sessions[j] == t.sessions[j])
            && (i in t.sessions ==> t'.detached == t.detached[i := t.sessions[i]])
            && (i !in t.sessions ==> t' == t)
            && SameRest(t, t') && t'.rejected == t.rejected && t'.nextId == t.nextId
  {
  }
}
