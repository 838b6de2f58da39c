/** What every run of the session registry keeps, whatever the interleaving of its critical
    sections: authorisation, bucket identity, capacity, interruption and sealing. */
module SessionSafety {
  import opened Wrappers
  import opened Model
  import opened IpRules
  import opened PortRules
  import opened SessionTable

  // ---------------------------------------------------------------- invariants

  type Leases = map<LeaseId, Lease>

  /** The lease is allowed by the policy in force now, and its credential is still its user's. */
  ghost predicate Allowed(users: map<UserId, User>, l: Lease) {
    && l.user in users
    && l.credential == users[l.user].uuid
    && l.source !in users[l.user].disconnectIPs
    && !PortBlocked(users[l.user].forbiddenPorts, l.port)
    && (forall a :: a in l.candidates ==> !IPBlocked(users[l.user].forbiddenIPs, a))
    && (l.pinned.Some? ==> l.pinned.value in l.candidates)
  }

  ghost predicate Authorised(users: map<UserId, User>, s: Leases) {
    forall i :: i in s && !s[i].revoked ==> Allowed(users, s[i])
  }

  ghost predicate UserBucketFits(b: Option<Bucket>, u: UserId, speed: real) {
    if speed <= 0.0 then b.None? else b.Some? && b.value.UserBucket? && b.value.user == u && b.value.speed == speed
  }

  ghost predicate NodeBucketFits(b: Option<Bucket>, speed: real) {
    if speed <= 0.0 then b.None? else b.Some? && b.value.NodeBucket? && b.value.speed == speed
  }

  /** One current bucket per user, of the user's current speed, and one for the node. */
  ghost predicate BucketsCurrent(t: Table) {
    && t.userLimiters.Keys == t.users.Keys
    && (forall u :: u in t.users ==> UserBucketFits(t.userLimiters[u], u, t.users[u].speedLimit))
    && NodeBucketFits(t.nodeLimiter, t.nodeSpeed)
  }

  ghost predicate Draws(users: map<UserId, Option<Bucket>>, node: Option<Bucket>, l: Lease) {
    l.user in users && l.userRate == users[l.user] && l.nodeRate == node
  }

  /** Every live lease draws from the current bucket of its user and the current node bucket. */
  ghost predicate Metered(users: map<UserId, Option<Bucket>>, node: Option<Bucket>, s: Leases) {
    forall i :: i in s && !s[i].revoked ==> Draws(users, node, s[i])
  }

  ghost predicate WithinCaps(s: Leases, limits: Limits) {
    && |OfKind(s, TCP)| <= limits.tcpGlobal
    && |OfKind(s, XUDP)| <= limits.xudpGlobal
    && (forall u :: |OfUserKind(s, u, TCP)| <= limits.tcpPerUser)
    && (forall u :: |OfUserKind(s, u, XUDP)| <= limits.xudpPerUser)
  }

  /** Every outstanding handshake ticket is counted once and the count is bounded. */
  ghost predicate Ticketed(tickets: set<nat>, next: nat, limit: nat) {
    |tickets| <= limit && forall k :: k in tickets ==> k < next
  }

  /** The interruption history of one lease: nothing is handed out before revocation, at most one
      callback per BindInterrupt, and the callback in force at or after revocation is handed out. */
  ghost predicate Interrupted(l: Lease) {
    && (!l.revoked ==> l.handed == [])
    && |l.handed| <= l.binds
    && (l.revoked && l.interrupt.Some? ==> l.handed != [] && l.handed[|l.handed| - 1] == l.interrupt.value)
    && (l.interrupt.None? && l.binds <= 1 ==> l.handed == [])
    && (l.binds == 0 ==> l.interrupt.None?)
  }

  ghost predicate AllInterrupted(s: Leases) { forall i :: i in s ==> Interrupted(s[i]) }

  ghost predicate Sealed(closed: bool, s: Leases) { closed ==> forall i :: i in s ==> s[i].revoked }

  ghost predicate Numbered(s: Leases, d: Leases, next: nat) {
    && s.Keys !! d.Keys
    && (forall i :: i in s ==> i <= next)
    && (forall i :: i in d ==> i <= next)
  }

  ghost predicate Safe(t: Table) {
    && Authorised(t.users, t.sessions)
    && BucketsCurrent(t)
    && Metered(t.userLimiters, t.nodeLimiter, t.sessions)
    && WithinCaps(t.sessions, t.limits)
    && Ticketed(t.tickets, t.nextTicket, t.limits.handshakes)
    && AllInterrupted(t.sessions)
    && AllInterrupted(t.detached)
    && Sealed(t.closed, t.sessions)
    && Numbered(t.sessions, t.detached, t.nextId)
  }

  // ---------------------------------------------------------------- counting

  lemma SubsetSize<T>(a: set<T>, b: set<T>)
    requires a <= b
    ensures |a| <= |b|
  {
    assert b == a + (b - a);
  }

  lemma KindAfterAdd(s: Leases, i: LeaseId, l: Lease, k: Kind)
    requires i !in s
    ensures |OfKind(s[i := l], k)| == |OfKind(s, k)| + if k == l.kind then 1 else 0
  {
    if k == l.kind {
      assert OfKind(s[i := l], k) == OfKind(s, k) + {i};
    } else {
      assert OfKind(s[i := l], k) == OfKind(s, k);
    }
  }

  lemma UserKindAfterAdd(s: Leases, i: LeaseId, l: Lease, u: UserId, k: Kind)
    requires i !in s
    ensures |OfUserKind(s[i := l], u, k)| == |OfUserKind(s, u, k)| + if u == l.user && k == l.kind then 1 else 0
  {
    if u == l.user && k == l.kind {
      assert OfUserKind(s[i := l], u, k) == OfUserKind(s, u, k) + {i};
    } else {
      assert OfUserKind(s[i := l], u, k) == OfUserKind(s, u, k);
    }
  }

  lemma CapsAfterAdd(s: Leases, i: LeaseId, l: Lease, limits: Limits)
    requires i !in s && WithinCaps(s, limits)
    requires l.kind == TCP ==>
      |OfKind(s, TCP)| < limits.tcpGlobal && |OfUserKind(s, l.user, TCP)| < limits.tcpPerUser
    requires l.kind == XUDP ==>
      |OfKind(s, XUDP)| < limits.xudpGlobal && |OfUserKind(s, l.user, XUDP)| < limits.xudpPerUser
    ensures WithinCaps(s[i := l], limits)
  {
    KindAfterAdd(s, i, l, TCP);
    KindAfterAdd(s, i, l, XUDP);
    var r := s[i := l];
    forall u ensures |OfUserKind(r, u, TCP)| <= limits.tcpPerUser { UserKindAfterAdd(s, i, l, u, TCP); }
    forall u ensures |OfUserKind(r, u, XUDP)| <= limits.xudpPerUser { UserKindAfterAdd(s, i, l, u, XUDP); }
  }

  /** Leases whose users and kinds stay put leave every cap as it was. */
  lemma CapsAfterChange(s: Leases, r: Leases, limits: Limits)
    requires WithinCaps(s, limits) && r.Keys <= s.Keys
    requires forall i :: i in r ==> r[i].user == s[i].user && r[i].kind == s[i].kind
    ensures WithinCaps(r, limits)
  {
    SubsetSize(OfKind(r, TCP), OfKind(s, TCP));
    SubsetSize(OfKind(r, XUDP), OfKind(s, XUDP));
    forall u ensures |OfUserKind(r, u, TCP)| <= limits.tcpPerUser {
      SubsetSize(OfUserKind(r, u, TCP), OfUserKind(s, u, TCP));
    }
    forall u ensures |OfUserKind(r, u, XUDP)| <= limits.xudpPerUser {
      SubsetSize(OfUserKind(r, u, XUDP), OfUserKind(s, u, XUDP));
    }
  }

  /** Revoking leases changes no source listing. */
  lemma RevokeKeepsSources(s: Leases, which: set<LeaseId>, u: UserId)
    ensures SourcesOf(RevokeSet(s, which), u) == SourcesOf(s, u)
  {
    var r := RevokeSet(s, which);
    forall a ensures a in SourcesOf(r, u) <==> a in SourcesOf(s, u) {
      if i :| i in s && s[i].user == u && s[i].source == a { assert i in r && r[i].source == a; }
      if i :| i in r && r[i].user == u && r[i].source == a { assert i in s && s[i].source == a; }
    }
  }

  // ---------------------------------------------------------------- steps

  lemma RevokeKeepsShape(s: Leases, which: set<LeaseId>, closed: bool, limits: Limits)
    requires WithinCaps(s, limits) && AllInterrupted(s) && Sealed(closed, s)
    ensures WithinCaps(RevokeSet(s, which), limits)
    ensures AllInterrupted(RevokeSet(s, which))
    ensures Sealed(closed, RevokeSet(s, which))
  {
    CapsAfterChange(s, RevokeSet(s, which), limits);
  }

  lemma RevokeSetSafe(t: Table, which: set<LeaseId>)
    requires Safe(t)
    ensures Safe(t.(sessions := RevokeSet(t.sessions, which)))
  {
    RevokeKeepsShape(t.sessions, which, t.closed, t.limits);
  }

  lemma RejectSafe(t: Table, r: Reason)
    requires Safe(t)
    ensures Safe(Reject(t, r))
  {
  }

  ghost predicate RoomFor(s: Leases, limits: Limits, l: Lease) {
    && (l.kind == TCP ==> |OfKind(s, TCP)| < limits.tcpGlobal && |OfUserKind(s, l.user, TCP)| < limits.tcpPerUser)
    && (l.kind == XUDP ==> |OfKind(s, XUDP)| < limits.xudpGlobal && |OfUserKind(s, l.user, XUDP)| < limits.xudpPerUser)
  }

  ghost predicate Fits(t: Table, p: Pending) {
    && !t.closed && Allowed(t.users, Admitted(t, p)) && RoomFor(t.sessions, t.limits, Admitted(t, p))
    && Draws(t.userLimiters, t.nodeLimiter, Admitted(t, p))
  }

  /** What the tests of the second critical section establish about the new lease. */
  lemma AdmittedFits(t: Table, p: Pending)
    requires BucketsCurrent(t) && Pinned(p) && OpenReason(t, p).None?
    ensures Fits(t, p)
  {
    assert CapacityReason(t, p).None?;
  }

  lemma EnterSafe(t: Table, l: Lease, m: SourceCounts)
    requires Safe(t) && !t.closed && Interrupted(l)
    requires Allowed(t.users, l) && Draws(t.userLimiters, t.nodeLimiter, l) && RoomFor(t.sessions, t.limits, l)
    ensures Safe(t.(nextId := t.nextId + 1, sessions := t.sessions[t.nextId + 1 := l], sources := m))
  {
    CapsAfterAdd(t.sessions, t.nextId + 1, l, t.limits);
  }

  lemma ConcludeSafe(t: Table, p: Pending, reason: Option<Reason>)
    requires Safe(t) && (reason.None? ==> Fits(t, p))
    ensures Safe(Conclude(t, p, reason))
  {
    if reason.None? { EnterSafe(t, Admitted(t, p), AddSource(t.sources, p.user, p.source)); }
    else { RejectSafe(t, reason.value); }
  }

  lemma OpenSafe(t: Table, p: Pending)
    requires Safe(t) && Pinned(p)
    ensures Safe(OpenCommit(t, p))
  {
    if OpenReason(t, p).None? { AdmittedFits(t, p); }
    ConcludeSafe(t, p, OpenReason(t, p));
  }

  /** A lease may be replaced by one of the same user, kind and buckets. */
  ghost predicate Replaceable(before: Lease, l: Lease) {
    && Interrupted(l) && l.user == before.user && l.kind == before.kind && l.revoked == before.revoked
    && l.userRate == before.userRate && l.nodeRate == before.nodeRate && l.credential == before.credential
  }

  lemma PutSessionSafe(t: Table, i: LeaseId, l: Lease)
    requires Safe(t) && i in t.sessions && Replaceable(t.sessions[i], l)
    requires !l.revoked ==> Allowed(t.users, l)
    ensures Safe(t.(sessions := t.sessions[i := l]))
  {
    CapsAfterChange(t.sessions, t.sessions[i := l], t.limits);
  }

  lemma PutDetachedSafe(t: Table, i: LeaseId, l: Lease)
    requires Safe(t) && i in t.detached && Interrupted(l)
    ensures Safe(t.(detached := t.detached[i := l]))
  {
  }

  /** Replacing a lease by one the current policy also allows, of the same user, kind and buckets. */
  lemma PutSafe(t: Table, i: LeaseId, l: Lease)
    requires Safe(t) && Has(t, i) && Replaceable(LeaseOf(t, i), l)
    requires i in t.sessions && !l.revoked ==> Allowed(t.users, l)
    ensures Safe(PutLease(t, i, l))
  {
    if i in t.sessions { PutSessionSafe(t, i, l); } else { PutDetachedSafe(t, i, l); }
  }

  /** The invariant does not depend on the source counts. */
  lemma SafeWithSources(t: Table, m: SourceCounts)
    requires Safe(t)
    ensures Safe(t.(sources := m))
  {
  }

  lemma RebindSafe(t: Table, i: LeaseId, a: Addr)
    requires Safe(t) && Has(t, i)
    ensures Safe(Rebind(t, i, a))
  {
    var l := LeaseOf(t, i);
    if Migrates(t, l, a) {
      assert i in t.sessions ==> Allowed(t.users, l);
      var m := MoveSource(t.sources, l.user, l.source, a);
      SafeWithSources(t, m);
      PutSafe(t.(sources := m), i, l.(source := a));
    }
  }

  lemma BindSafe(t: Table, i: LeaseId, cb: Option<Callback>)
    requires Safe(t) && Has(t, i)
    ensures Safe(Bind(t, i, cb))
  {
    var l := LeaseOf(t, i);
    assert Interrupted(BindLease(l, cb));
    assert i in t.sessions && !l.revoked ==> Allowed(t.users, l);
    PutSafe(t, i, BindLease(l, cb));
  }

  lemma CloseSafe(t: Table, i: LeaseId)
    requires Safe(t)
    ensures Safe(CloseLease(t, i))
  {
    CapsAfterChange(t.sessions, t.sessions - {i}, t.limits);
  }

  lemma ShutSafe(t: Table)
    requires Safe(t)
    ensures Safe(Shut(t))
  {
    var which := IdsOfUsers(t.sessions, t.users.Keys);
    RevokeSetSafe(t, which);
    forall i | i in t.sessions ensures RevokeSet(t.sessions, which)[i].revoked {
      if !t.sessions[i].revoked { assert Allowed(t.users, t.sessions[i]); }
    }
  }

  /** A lease that survives the revocation of an update is allowed, and metered, by the new snapshot. */
  lemma SurvivorStillAllowed(t: Table, next: Snapshot, i: LeaseId)
    requires Safe(t) && i in t.sessions
    requires !Revised(t, next).sessions[i].revoked
    ensures Allowed(Revised(t, next).users, t.sessions[i])
    ensures Draws(Revised(t, next).userLimiters, Revised(t, next).nodeLimiter, t.sessions[i])
  {
    var l := t.sessions[i];
    var users := UserMap(next.users);
    assert i !in RevokedByUpdate(t, next) && Allowed(t.users, l);
    assert l.user in users && !PolicyChanged(t.users[l.user], users[l.user]);
    var before, now := t.users[l.user].(disconnectIPs := []), users[l.user].(disconnectIPs := []);
    assert before == now;
    assert before.forbiddenPorts == now.forbiddenPorts && before.forbiddenIPs == now.forbiddenIPs;
    assert before.speedLimit == now.speedLimit && before.uuid == now.uuid;
    assert l.source !in NewlyDisconnected(t, next, l.user);
  }

  lemma InstalledBuckets(t: Table, next: Snapshot)
    requires BucketsCurrent(t)
    ensures BucketsCurrent(Install(t, next))
  {
    var t' := Install(t, next);
    forall u | u in t'.users ensures UserBucketFits(t'.userLimiters[u], u, t'.users[u].speedLimit) {
      assert t'.userLimiters[u] == UserLimiterAfter(t.users, t.userLimiters, t.generation + 1, t'.users[u]);
    }
  }

  lemma RevisedLive(t: Table, next: Snapshot)
    requires Safe(t)
    ensures Authorised(Revised(t, next).users, Revised(t, next).sessions)
    ensures Metered(Revised(t, next).userLimiters, Revised(t, next).nodeLimiter, Revised(t, next).sessions)
  {
    var t' := Revised(t, next);
    forall i | i in t'.sessions && !t'.sessions[i].revoked
      ensures Allowed(t'.users, t'.sessions[i]) && Draws(t'.userLimiters, t'.nodeLimiter, t'.sessions[i])
    {
      SurvivorStillAllowed(t, next, i);
    }
  }

  lemma RevisedSafe(t: Table, next: Snapshot)
    requires Safe(t)
    ensures Safe(Revised(t, next))
  {
    RevisedLive(t, next);
    InstalledBuckets(t, next);
    RevokeKeepsShape(t.sessions, RevokedByUpdate(t, next), t.closed, t.limits);
  }

  lemma UpdateSafe(t: Table, next: Snapshot)
    requires Safe(t)
    ensures Safe(Update(t, next))
  {
    RevisedSafe(t, next);
    RevokeSetSafe(Revised(t, next), OverLimit(Revised(t, next)));
  }

  lemma AcquireSafe(t: Table)
    requires Safe(t)
    ensures Safe(Acquire(t))
  {
    if t.closed || |t.tickets| >= t.limits.handshakes { RejectSafe(t, HandshakeLimit); }
  }

  lemma ReleaseSafe(t: Table, ticket: nat)
    requires Safe(t)
    ensures Safe(Release(t, ticket))
  {
    SubsetSize(t.tickets - {ticket}, t.tickets);
  }

  lemma StepSafe(t: Table, step: Step)
    requires Safe(t) && Enabled(t, step)
    ensures Safe(After(t, step))
  {
    match step
    case OpenStep(p) => OpenSafe(t, p);
    case RebindStep(i, a) => RebindSafe(t, i, a);
    case CloseStep(i) => CloseSafe(t, i);
    case BindStep(i, cb) => BindSafe(t, i, cb);
    case UpdateStep(next) => UpdateSafe(t, next);
    case RevokeStep(users) => RevokeSetSafe(t, IdsOfUsers(t.sessions, users));
    case ShutStep => ShutSafe(t);
    case AcquireStep => AcquireSafe(t);
    case ReleaseStep(k) => ReleaseSafe(t, k);
    case RejectStep(r) => RejectSafe(t, r);
  }

  // ---------------------------------------------------------------- theorems

  lemma InitialSafe(limits: Limits, first: Snapshot)
    ensures Safe(Initial(limits, first))
  {
    var t := Initial(limits, first);
    assert OfKind(t.sessions, TCP) == {} && OfKind(t.sessions, XUDP) == {};
    forall u, k ensures OfUserKind(t.sessions, u, k) == {} {}
    InstalledBuckets(Empty(limits), first);
  }

  lemma {:induction false} RunSafe(t: Table, steps: seq<Step>, t': Table)
    requires Safe(t) && Run(t, steps, t')
    ensures Safe(t')
    decreases |steps|
  {
    if steps != [] {
      StepSafe(t, steps[0]);
      RunSafe(After(t, steps[0]), steps[1..], t');
    }
  }

  /** Every state of every run of a registry is safe. */
  lemma EveryRunSafe(limits: Limits, first: Snapshot, steps: seq<Step>, t: Table)
    requires Run(Initial(limits, first), steps, t)
    ensures Safe(t)
  {
    InitialSafe(limits, first);
    RunSafe(Initial(limits, first), steps, t);
  }

  /** One BindInterrupt, any interleaving: the callback of a revoked lease has been handed out
      exactly once and no other lease hands anything out, closed leases included. */
  lemma InterruptedExactlyOnce(t: Table, i: LeaseId)
    requires Safe(t) && Has(t, i) && LeaseOf(t, i).binds <= 1
    ensures LeaseOf(t, i).handed ==
            if LeaseOf(t, i).revoked && LeaseOf(t, i).interrupt.Some? then [LeaseOf(t, i).interrupt.value] else []
  {
    var l := LeaseOf(t, i);
    assert Interrupted(l);
  }

  lemma ClosedStep(t: Table, step: Step)
    requires t.closed && Enabled(t, step)
    ensures After(t, step).closed && After(t, step).sessions.Keys <= t.sessions.Keys
  {
  }

  /** Once the registry is closed it stays closed, admits nothing, and every lease it still lists
      is revoked. */
  lemma {:induction false} ClosedForGood(t: Table, steps: seq<Step>, t': Table)
    requires Safe(t) && t.closed && Run(t, steps, t')
    ensures t'.closed && t'.sessions.Keys <= t.sessions.Keys
    ensures forall i :: i in t'.sessions ==> t'.sessions[i].revoked
    decreases |steps|
  {
    if steps != [] {
      var mid := After(t, steps[0]);
      StepSafe(t, steps[0]);
      ClosedStep(t, steps[0]);
      ClosedForGood(mid, steps[1..], t');
    }
  }
}
