/** Which leases a revocation takes (internal/session/registry.go), stated field by field on the snapshots,
    and which policy is in force after any run. */
module SessionRevocation {
  import opened Model
  import opened IpRules
  import opened SessionTable
  import opened SessionSafety
  import opened SessionConnectors
  import Registry

  // ---------------------------------------------------------------- update

  /** Nothing that counts for the leases of a user has changed, apart from its disconnected addresses. */
  ghost predicate SameTerms(a: User, b: User) {
    && a.uuid == b.uuid && a.speedLimit == b.speedLimit && a.connectorLimit == b.connectorLimit
    && a.forbiddenIPs == b.forbiddenIPs && a.forbiddenPorts == b.forbiddenPorts
  }

  /** The user stays, under the same terms and at the same node speed. */
  ghost predicate Stays(t: Table, next: Snapshot, u: UserId) {
    && u in t.users && u in UserMap(next.users) && SameTerms(t.users[u], UserMap(next.users)[u])
    && t.nodeSpeed == next.node.speedLimit
  }

  ghost predicate Disconnects(t: Table, next: Snapshot, u: UserId, a: Addr)
    requires Stays(t, next, u)
  {
    a in UserMap(next.users)[u].disconnectIPs && a !in t.users[u].disconnectIPs
  }

  lemma ChangedTerms(t: Table, u: UserId, b: User)
    requires u in t.users && t.users[u].id == b.id
    ensures PolicyChanged(t.users[u], b) <==> !SameTerms(t.users[u], b)
  {
    var a := t.users[u];
    assert a.(disconnectIPs := []).uuid == a.uuid && a.(disconnectIPs := []).connectorLimit == a.connectorLimit;
    assert a.(disconnectIPs := []).speedLimit == a.speedLimit && a.(disconnectIPs := []).forbiddenIPs == a.forbiddenIPs;
    assert a.(disconnectIPs := []).forbiddenPorts == a.forbiddenPorts;
    assert b.(disconnectIPs := []).uuid == b.uuid && b.(disconnectIPs := []).connectorLimit == b.connectorLimit;
    assert b.(disconnectIPs := []).speedLimit == b.speedLimit && b.(disconnectIPs := []).forbiddenIPs == b.forbiddenIPs;
    assert b.(disconnectIPs := []).forbiddenPorts == b.forbiddenPorts;
  }

  /** The users of the table are kept under their own ids. */
  ghost predicate Keyed(t: Table) { forall u :: u in t.users ==> t.users[u].id == u }

  lemma WholeUserRevokedIff(t: Table, next: Snapshot, u: UserId)
    requires Keyed(t) && u in t.users
    ensures WholeUserRevoked(t, next, u) <==> !Stays(t, next, u)
  {
    if u in UserMap(next.users) { ChangedTerms(t, u, UserMap(next.users)[u]); }
  }

  lemma NewlyDisconnectedIff(t: Table, next: Snapshot, u: UserId, a: Addr)
    requires Keyed(t) && Stays(t, next, u)
    ensures a in NewlyDisconnected(t, next, u) <==> Disconnects(t, next, u, a)
  {
    ChangedTerms(t, u, UserMap(next.users)[u]);
  }

  /** A live lease survives the revocation of an update exactly when its user is in both snapshots with the
      same uuid, speed, connector limit, addresses and ports, the node's speed is the same, and its source
      is not newly disconnected. */
  lemma SurvivesRevisionIff(t: Table, next: Snapshot, i: LeaseId)
    requires Safe(t) && Keyed(t) && i in t.sessions && !t.sessions[i].revoked
    ensures var l := t.sessions[i];
            !Revised(t, next).sessions[i].revoked <==> Stays(t, next, l.user) && !Disconnects(t, next, l.user, l.source)
  {
    var l := t.sessions[i];
    assert Allowed(t.users, l);
    WholeUserRevokedIff(t, next, l.user);
    if Stays(t, next, l.user) { NewlyDisconnectedIff(t, next, l.user, l.source); }
  }

  /** It survives the whole update when, besides, its user does not list more sources than its new limit or
      its source is among the oldest that are left. */
  lemma SurvivesUpdateIff(t: Table, next: Snapshot, i: LeaseId)
    requires Safe(t) && Keyed(t) && i in t.sessions && !t.sessions[i].revoked
    ensures var l := t.sessions[i];
            !Update(t, next).sessions[i].revoked <==>
              && Stays(t, next, l.user) && !Disconnects(t, next, l.user, l.source)
              && (0 < NewLimit(next, l.user) < ListedSources(t.sources, l.user) ==>
                    l.source in Oldest(Ages(Revised(t, next).sessions, l.user), NewLimit(next, l.user)))
  {
    SurvivesRevisionIff(t, next, i);
  }

  /** A lease that was revoked before stays so. */
  lemma UpdateKeepsRevoked(t: Table, next: Snapshot, i: LeaseId)
    requires i in t.sessions && t.sessions[i].revoked
    ensures Update(t, next).sessions[i] == t.sessions[i]
  {
  }

  /** The users an update reports: those that leave or change, those with a newly disconnected address, and
      those whose newest sources are cut. */
  lemma AffectedIff(t: Table, next: Snapshot, u: UserId)
    requires Keyed(t)
    ensures Registry.Affected(t, next, u) <==>
            || (u in t.users && !Stays(t, next, u))
            || (Stays(t, next, u) && exists a :: a in UserMap(next.users)[u].disconnectIPs && a !in t.users[u].disconnectIPs)
            || Registry.Cut(Revised(t, next), u)
  {
    if u in t.users { WholeUserRevokedIff(t, next, u); }
    if Stays(t, next, u) { SomeDisconnected(t, next, u); }
  }

  lemma SomeDisconnected(t: Table, next: Snapshot, u: UserId)
    requires Keyed(t) && Stays(t, next, u)
    ensures NewlyDisconnected(t, next, u) != {} <==>
            exists a :: a in UserMap(next.users)[u].disconnectIPs && a !in t.users[u].disconnectIPs
  {
    if a :| a in NewlyDisconnected(t, next, u) { NewlyDisconnectedIff(t, next, u, a); }
    if a :| a in UserMap(next.users)[u].disconnectIPs && a !in t.users[u].disconnectIPs { NewlyDisconnectedIff(t, next, u, a); }
  }

  /** Every user that loses a lease by an update is reported. */
  lemma LosersAreAffected(t: Table, next: Snapshot, i: LeaseId)
    requires i in t.sessions && !t.sessions[i].revoked && Update(t, next).sessions[i].revoked
    ensures Registry.Affected(t, next, t.sessions[i].user)
  {
    var u := t.sessions[i].user;
    if Revised(t, next).sessions[i].revoked {
      assert i in RevokedByUpdate(t, next);
    } else {
      assert i in Registry.OverLimitOf(Revised(t, next), {u});
    }
  }

  // ---------------------------------------------------------------- other revocations

  /** RevokeUsers revokes every lease of these users, whatever its kind, and touches no other. */
  lemma RevokesExactly(t: Table, users: set<UserId>, i: LeaseId)
    requires i in t.sessions
    ensures RevokeUsers(t, users).sessions.Keys == t.sessions.Keys
    ensures var l := RevokeUsers(t, users).sessions[i];
            && (l.revoked <==> t.sessions[i].revoked || t.sessions[i].user in users)
            && (t.sessions[i].user !in users ==> l == t.sessions[i])
    ensures RevokeUsers(t, users).(sessions := t.sessions) == t
  {
  }

  /** Closing the registry revokes every lease of an authorised user, hence every live one. */
  lemma ShutRevokesAll(t: Table, i: LeaseId)
    requires Safe(t) && i in t.sessions
    ensures Shut(t).closed && Shut(t).sessions[i].revoked
  {
    ShutSafe(t);
  }

  // ---------------------------------------------------------------- the policy in force

  /** The snapshot of the last update, or the one before when there is none. */
  function LastSnapshot(s: Snapshot, steps: seq<Step>): Snapshot
    decreases |steps|
  {
    if steps == [] then s else LastSnapshot(if steps[0].UpdateStep? then steps[0].next else s, steps[1..])
  }

  /** Users and node settings are those of the snapshot. */
  ghost predicate Enforces(t: Table, s: Snapshot) {
    && t.users == UserMap(s.users) && t.nodeId == s.node.id && t.nodeSpeed == s.node.speedLimit
    && t.nodeConnectors == s.node.connectorLimit
  }

  lemma EnforcesKeyed(t: Table, s: Snapshot)
    requires Enforces(t, s)
    ensures Keyed(t)
  {
  }

  lemma StepEnforces(t: Table, step: Step, s: Snapshot)
    requires Enabled(t, step) && Enforces(t, s)
    ensures Enforces(After(t, step), if step.UpdateStep? then step.next else s)
  {
    if !step.UpdateStep? && !step.ShutStep? { StepKeepsPolicy(t, step); }
  }

  lemma {:induction false} RunEnforces(t: Table, steps: seq<Step>, t': Table, s: Snapshot)
    requires Run(t, steps, t') && Enforces(t, s)
    ensures Enforces(t', LastSnapshot(s, steps))
    decreases |steps|
  {
    if steps != [] {
      StepEnforces(t, steps[0], s);
      RunEnforces(After(t, steps[0]), steps[1..], t', if steps[0].UpdateStep? then steps[0].next else s);
    }
  }

  /** In every run the policy in force is that of the last snapshot. */
  lemma PolicyInForce(limits: Limits, first: Snapshot, steps: seq<Step>, t: Table)
    requires Run(Initial(limits, first), steps, t)
    ensures Enforces(t, LastSnapshot(first, steps)) && Keyed(t)
  {
    RunEnforces(Initial(limits, first), steps, t, first);
    EnforcesKeyed(t, LastSnapshot(first, steps));
  }

  /** In every run a live lease was admitted under the credential that its user has in the last snapshot. */
  lemma CredentialsCurrent(limits: Limits, first: Snapshot, steps: seq<Step>, t: Table, i: LeaseId)
    requires Run(Initial(limits, first), steps, t) && i in t.sessions && !t.sessions[i].revoked
    ensures var users := UserMap(LastSnapshot(first, steps).users);
            t.sessions[i].user in users && t.sessions[i].credential == users[t.sessions[i].user].uuid
  {
    PolicyInForce(limits, first, steps, t);
    EveryRunSafe(limits, first, steps, t);
    assert Allowed(t.users, t.sessions[i]);
  }
}
