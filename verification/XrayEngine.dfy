/** The engine object: incremental user synchronisation with rollback, drain and restore
    (internal/xrayadapter/engine.go). */
module XrayEngine {
  import opened Wrappers
  import opened Text
  import opened Model
  import opened IpRules
  import opened Accounting
  import opened Database
  import opened EngineState
  import opened UserSync
  import SessionTable
  import SessionSafety
  import SessionConnectors
  import Registry

  // ---------------------------------------------------------------- the object

  function OpenUsers(s: SessionSafety.Leases): set<UserId> { set i | i in s :: s[i].user }

  lemma UpdateKeepsLeases(t: SessionTable.Table, next: Snapshot)
    ensures OpenUsers(SessionTable.Update(t, next).sessions) == OpenUsers(t.sessions)
    ensures SessionTable.Update(t, next).users == UserMap(next.users)
  {
    RevokedSameUsers(t.sessions, SessionTable.RevokedByUpdate(t, next));
    var r := SessionTable.Revised(t, next);
    RevokedSameUsers(r.sessions, SessionTable.OverLimit(r));
  }

  lemma RevokedSameUsers(s: SessionSafety.Leases, which: set<SessionTable.LeaseId>)
    ensures OpenUsers(SessionTable.RevokeSet(s, which)) == OpenUsers(s)
  {
    var r := SessionTable.RevokeSet(s, which);
    forall u ensures u in OpenUsers(r) <==> u in OpenUsers(s) {
      if i :| i in s && s[i].user == u { assert r[i].user == u; }
    }
  }

  predicate Client(step: SessionTable.Step) { !step.UpdateStep? && !step.ShutStep? && !step.RejectStep? }

  /** A client's call on the registry, when it is one and possible. */
  ghost function SessionServed(t: SessionTable.Table, step: SessionTable.Step): SessionTable.Table {
    if Client(step) && SessionTable.Enabled(t, step) then SessionTable.After(t, step) else t
  }

  /** How the users with a lease change: not at all, by one more that is authorised, or by one less. */
  ghost predicate OpenChange(t: SessionTable.Table, before: set<UserId>, after: set<UserId>) {
    || after == before
    || (exists u :: u in t.users && !t.closed && after == before + {u})
    || (exists u :: after == before - {u})
  }

  lemma OpenAfterReplace(s: SessionSafety.Leases, i: SessionTable.LeaseId, l: SessionTable.Lease)
    requires i in s && l.user == s[i].user
    ensures OpenUsers(s[i := l]) == OpenUsers(s)
  {
    var r := s[i := l];
    assert r.Keys == s.Keys && forall j :: j in s ==> r[j].user == s[j].user;
    forall u | u in OpenUsers(s) ensures u in OpenUsers(r) {
      var j :| j in s && s[j].user == u;
      assert r[j].user == u;
    }
  }

  lemma OpenAfterPut(t: SessionTable.Table, i: SessionTable.LeaseId, l: SessionTable.Lease)
    requires SessionTable.Has(t, i) && l.user == SessionTable.LeaseOf(t, i).user
    ensures OpenUsers(SessionTable.PutLease(t, i, l).sessions) == OpenUsers(t.sessions)
  {
    if i in t.sessions { OpenAfterReplace(t.sessions, i, l); }
  }

  lemma OpenAfterAdd(s: SessionSafety.Leases, i: SessionTable.LeaseId, l: SessionTable.Lease)
    requires i !in s
    ensures OpenUsers(s[i := l]) == OpenUsers(s) + {l.user}
  {
    var r := s[i := l];
    forall u | u in OpenUsers(s) ensures u in OpenUsers(r) {
      var j :| j in s && s[j].user == u;
      assert r[j].user == u;
    }
    assert r[i].user in OpenUsers(r);
  }

  lemma OpenAfterRemove(s: SessionSafety.Leases, i: SessionTable.LeaseId)
    requires i in s
    ensures OpenUsers(s - {i}) == OpenUsers(s) || OpenUsers(s - {i}) == OpenUsers(s) - {s[i].user}
  {
    var r := s - {i};
    forall u | u in OpenUsers(s) && u != s[i].user ensures u in OpenUsers(r) {
      var j :| j in s && s[j].user == u;
      assert r[j].user == u;
    }
  }

  lemma OpenAfterRebind(
    t: SessionTable.Table, i: SessionTable.LeaseId, a: Addr, err: Option<SessionTable.Reason>)
    requires SessionTable.Has(t, i)
    ensures OpenUsers(SessionTable.ConcludeRebind(t, i, SessionTable.LeaseOf(t, i), a, err).sessions) == OpenUsers(t.sessions)
  {
    var l := SessionTable.LeaseOf(t, i);
    OpenAfterPut(t.(sources := SessionTable.MoveSource(t.sources, l.user, l.source, a)), i, l.(source := a));
  }

  lemma OpenAfterOpen(t: SessionTable.Table, p: SessionTable.Pending, reason: Option<SessionTable.Reason>)
    requires t.nextId + 1 !in t.sessions && (reason.None? ==> p.user in t.users && !t.closed)
    ensures OpenChange(t, OpenUsers(t.sessions), OpenUsers(SessionTable.Conclude(t, p, reason).sessions))
  {
    if reason.None? { OpenAfterAdd(t.sessions, t.nextId + 1, SessionTable.Admitted(t, p)); }
  }

  lemma OpenAfterClient(t: SessionTable.Table, step: SessionTable.Step)
    requires t.nextId + 1 !in t.sessions
    ensures OpenChange(t, OpenUsers(t.sessions), OpenUsers(SessionServed(t, step).sessions))
  {
    if Client(step) && SessionTable.Enabled(t, step) {
      match step
      case OpenStep(p) => OpenAfterOpen(t, p, SessionTable.OpenReason(t, p));
      case RebindStep(i, a) => OpenAfterRebind(t, i, a, SessionTable.RebindError(t, SessionTable.LeaseOf(t, i), a));
      case CloseStep(i) => if i in t.sessions { OpenAfterRemove(t.sessions, i); }
      case BindStep(i, cb) => OpenAfterPut(t, i, SessionTable.BindLease(SessionTable.LeaseOf(t, i), cb));
      case RevokeStep(users) => RevokedSameUsers(t.sessions, SessionTable.IdsOfUsers(t.sessions, users));
      case AcquireStep =>
      case ReleaseStep(ticket) =>
    }
  }

  lemma SessionStepKeeps(t: SessionTable.Table, step: SessionTable.Step)
    ensures SessionServed(t, step).users == t.users && SessionServed(t, step).closed == t.closed
  {
    if Client(step) && SessionTable.Enabled(t, step) { SessionConnectors.StepKeepsPolicy(t, step); }
  }

  lemma ServedSafe(t: SessionTable.Table, step: SessionTable.Step)
    requires SessionSafety.Safe(t)
    ensures SessionSafety.Safe(SessionServed(t, step))
  {
    if Client(step) && SessionTable.Enabled(t, step) { SessionSafety.StepSafe(t, step); }
  }

  /** Any number of client calls. */
  ghost function ServedAll(t: SessionTable.Table, steps: seq<SessionTable.Step>): SessionTable.Table {
    if steps == [] then t else SessionServed(ServedAll(t, steps[..|steps| - 1]), steps[|steps| - 1])
  }

  datatype ApplyResult = Closed | NeedsRestart | Applied(affected: seq<UserId>) | RolledBack | RollbackFailed | Panicked

  /** Continues a drain that has already collected `entries`. */
  function Continued(entries: seq<Entry>, d: Drained): Drained { Drained(d.engine, entries + d.entries, d.ok) }

  lemma DrainUnfold(whole: Drained, done: seq<Entry>, e: Engine, ids: seq<UserId>, i: nat)
    requires i < |ids| && whole == Continued(done, DrainFrom(e, ids[i..]))
    ensures var first := DrainUser(e, ids[i]);
            if first.ok then whole == Continued(done + first.entries, DrainFrom(first.engine, ids[i + 1..]))
            else whole.engine == first.engine && !whole.ok
  {
    assert ids[i..][0] == ids[i] && ids[i..][1..] == ids[i + 1..];
    var first := DrainUser(e, ids[i]);
    var rest := DrainFrom(first.engine, ids[i + 1..]);
    assert done + (first.entries + rest.entries) == (done + first.entries) + rest.entries;
  }

  function RestoreEntry(e: Engine, x: Entry): (r: Engine)
    requires Int64Counters(e) && Restorable([x])
    ensures Int64Counters(r)
  {
    assert x in [x];
    AddToFrames(e, x.user, Up, x.up);
    var a := AddTo(e, x.user, Up, x.up).engine;
    AddToFrames(a, x.user, Down, x.down);
    AddTo(a, x.user, Down, x.down).engine
  }

  lemma RestoreUnfold(e: Engine, entries: seq<Entry>, i: nat)
    requires i < |entries| && Int64Counters(e) && Restorable(entries)
    ensures Restorable([entries[i]]) && Restorable(entries[i..]) && Restorable(entries[i + 1..])
    ensures RestoreAll(e, entries[i..]).engine == RestoreAll(RestoreEntry(e, entries[i]), entries[i + 1..]).engine
  {
    assert entries[i] in entries && entries[i..][0] == entries[i] && entries[i..][1..] == entries[i + 1..];
  }

  predicate OnLease(step: SessionTable.Step) { step.RebindStep? || step.BindStep? }

  /** The calls clients make on the registry. */
  method Perform(sessions: Registry.Registry, step: SessionTable.Step)
    requires sessions.Valid()
    modifies sessions
    ensures sessions.Valid() && sessions.table == SessionServed(old(sessions.table), step)
  {
    if OnLease(step) {
      PerformOnLease(sessions, step);
    } else if step.OpenStep? {
      if SessionTable.Pinned(step.pending) { var result := sessions.Open(step.pending); }
    } else if step.CloseStep? {
      sessions.CloseOnce(step.lease);
    } else {
      PerformOther(sessions, step);
    }
  }

  method PerformOnLease(sessions: Registry.Registry, step: SessionTable.Step)
    requires sessions.Valid() && OnLease(step)
    modifies sessions
    ensures sessions.Valid() && sessions.table == SessionServed(old(sessions.table), step)
  {
    if !SessionTable.Has(sessions.table, step.lease) { return; }
    match step
    case RebindStep(i, a) => var err := sessions.RebindLease(i, a);
    case BindStep(i, cb) => var now := sessions.BindInterrupt(i, cb);
  }

  method PerformOther(sessions: Registry.Registry, step: SessionTable.Step)
    requires sessions.Valid() && !OnLease(step) && !step.OpenStep? && !step.CloseStep?
    modifies sessions
    ensures sessions.Valid() && sessions.table == SessionServed(old(sessions.table), step)
  {
    match step
    case RevokeStep(ids) => var callbacks := sessions.RevokeUserIds(ids);
    case AcquireStep => var ticket := sessions.AcquireHandshake();
    case ReleaseStep(ticket) => sessions.ReleaseOnce(ticket);
    case _ =>
  }

  /** `inbound` is what Xray was configured with when it started, `users` its user table, `counters` its
      registered traffic counters. */
  class XrayEngine {
    const sessions: Registry.Registry
    const inbound: Inbound
    var snapshot: Snapshot
    var retired: set<UserId>
    var users: UserTable
    var counters: map<CounterKey, int>
    var running: bool

    ghost function View(): Engine
      reads this, sessions
    {
      Engine(snapshot.node, IdsOf(snapshot.users), retired, counters, OpenUsers(sessions.table.sessions), running)
    }

    /** The registry is in order and safe, registry and snapshot describe the same users, Xray runs with the
        settings of the snapshot's node, and a closed engine admits nobody. */
    ghost predicate Tied()
      reads this, sessions
    {
      && sessions.Valid() && SessionSafety.Safe(sessions.table)
      && sessions.table.users == UserMap(snapshot.users)
      && inbound == InboundOf(snapshot.node)
      && (running || sessions.table.closed)
    }

    /** Xray's user table holds the users of the snapshot. */
    ghost predicate InStep()
      reads this`users, this`snapshot
    {
      users == TableOf(snapshot)
    }

    /** User table, session registry and snapshot describe the same users. */
    ghost predicate Valid()
      reads this, sessions
    {
      Tied() && InStep()
    }

    constructor (limits: SessionTable.Limits, first: Snapshot)
      ensures Valid() && snapshot == first && running
      ensures View() == Engine(first.node, IdsOf(first.users), {}, map[], {}, true)
      ensures fresh(sessions)
    {
      SessionSafety.InitialSafe(limits, first);
      sessions := new Registry.Registry(limits, first);
      inbound := InboundOf(first.node);
      snapshot, retired, users, counters, running := first, {}, TableOf(first), map[], true;
    }

    /** No engine: the state of a process before its first start. */
    constructor Absent(limits: SessionTable.Limits, node: Node)
      ensures Valid() && snapshot == Snapshot(node, []) && !running
      ensures View() == Engine(node, {}, {}, map[], {}, false)
      ensures fresh(sessions)
    {
      sessions := new Registry.Registry(limits, Snapshot(node, []));
      inbound := InboundOf(node);
      snapshot, retired, users, counters, running := Snapshot(node, []), {}, map[], map[], false;
      new;
      SessionSafety.InitialSafe(limits, Snapshot(node, []));
      SessionSafety.ShutSafe(sessions.table);
      var callbacks := sessions.CloseRegistry();
    }

    // -------------------------------------------------------------- clients

    /** A client's call on the session registry; a call that is not a client's does nothing. */
    method ServeSession(step: SessionTable.Step)
      requires Tied()
      modifies sessions
      ensures Tied() && sessions.table == SessionServed(old(sessions.table), step)
    {
      SessionStepKeeps(sessions.table, step);
      ServedSafe(sessions.table, step);
      Perform(sessions, step);
    }

    /** The same as far as the accounting is concerned: who has a lease may change by one user. */
    method ServeClient(step: SessionTable.Step)
      requires Tied()
      modifies sessions
      ensures Tied() && View() == old(View()).(open := View().open) && OpenMayBecome(old(View()), View().open)
    {
      OpenAfterClient(sessions.table, step);
      ServeSession(step);
    }

    /** Traffic of a user; Xray registers the counter on first use. Only users with a session on a running
        engine cause any. */
    method CountTraffic(u: UserId, d: Direction, n: nat) returns (counted: bool)
      requires Tied() && Int64Counters(View()) && n <= MAX_INT64
      modifies this`counters
      ensures counted <==> running && u in View().open
      ensures !counted ==> View() == old(View())
      ensures counted ==> View() == AddTo(Register(old(View()), u, d), u, d, n).engine
    {
      var has := sessions.HasUserSessions(u);
      if !running || !has { return false; }
      TrafficInto(View(), u, d, n);
      var c := if (u, d) in counters then counters[(u, d)] else 0;
      counters := counters[(u, d) := Wrap64(c + n)];
      return true;
    }

    // -------------------------------------------------------------- users

    /** Any number of client calls. */
    method ServeSessions(steps: seq<SessionTable.Step>)
      requires Tied()
      modifies sessions
      ensures Tied() && sessions.table == ServedAll(old(sessions.table), steps)
    {
      for i := 0 to |steps|
        invariant Tied() && sessions.table == ServedAll(old(sessions.table), steps[..i])
      {
        assert steps[..i + 1][..i] == steps[..i];
        ServeSession(steps[i]);
      }
      assert steps[..|steps|] == steps;
    }

    /** The first half of Apply: Xray's user table. `None` means that it holds the new users; otherwise
        Apply ends here, and the table is as it was unless an operation of the rollback failed as well. */
    method Prepare(next: Snapshot, fault: nat -> bool) returns (stop: Option<ApplyResult>)
      requires Valid()
      modifies this`users
      ensures stop == Some(Closed) <==> !running
      ensures stop == Some(NeedsRestart) <==> running && !OnlyLimitsChange(snapshot.node, next.node)
      ensures stop.Some? ==> !stop.value.Applied? && !stop.value.Panicked?
      ensures stop.None? ==> users == TableOf(next)
      ensures stop.None? <==>
                && running && OnlyLimitsChange(snapshot.node, next.node)
                && var before, after := UserMap(snapshot.users), UserMap(next.users);
                   forall n :: 0 <= n < |Replaced(before, after)| + |Replaced(after, before)| ==> !fault(n)
      ensures stop.Some? && !stop.value.RollbackFailed? ==> users == old(users)
      ensures stop == Some(RollbackFailed) ==> users != old(users) && !OneFault(fault)
      ensures stop == Some(ApplyResult.RolledBack) || stop == Some(RollbackFailed) ==> exists n :: fault(n)
    {
      if !running { return Some(Closed); }
      RestartNeededIff(snapshot.node, next.node);
      if !DataPlaneNodeEqual(snapshot.node, next.node) { return Some(NeedsRestart); }
      var how;
      users, how := Synchronise(users, UserMap(snapshot.users), UserMap(next.users), snapshot.node.flow, fault);
      match how
      case Done => return None;
      case Undone => return Some(ApplyResult.RolledBack);
      case Broken => return Some(RollbackFailed);
    }

    /** The second half of Apply, once the user table holds the new users: sessions, retired set and
        snapshot. It panics exactly when the registry's update does. */
    method Commit(next: Snapshot) returns (r: ApplyResult)
      requires Tied() && users == TableOf(next) && running && OnlyLimitsChange(snapshot.node, next.node)
      modifies this`retired, this`snapshot, sessions
      ensures r.Applied? || r.Panicked?
      ensures r.Panicked? <==> SessionTable.UpdatePanics(old(sessions.table), next)
      ensures r.Applied? ==> Valid() && snapshot == next && View() == Adopt(old(View()), next)
      ensures r.Applied? ==> sessions.table == SessionTable.Update(old(sessions.table), next)
      ensures r.Applied? ==>
                RisingIds(r.affected) && forall u :: u in r.affected <==> Registry.Affected(old(sessions.table), next, u)
    {
      RestartNeededIff(snapshot.node, next.node);
      SameInbound(snapshot.node, next.node);
      UpdateKeepsLeases(sessions.table, next);
      SessionSafety.UpdateSafe(sessions.table, next);
      var panicked, affected, callbacks := sessions.UpdateSnapshot(next);
      if panicked { return Panicked; }
      var before, after := UserMap(snapshot.users).Keys, UserMap(next.users).Keys;
      retired := retired + (before - after) - after;
      snapshot := next;
      return Applied(affected);
    }

    /** Apply. Only the engine's lock is held, so clients may call the registry before its update; `met`
        is the table the update meets. Apply succeeds or leaves everything as it was, unless an operation of
        the rollback fails as well, which is reported; on success all three descriptions of the users agree. */
    method Apply(next: Snapshot, fault: nat -> bool, gap: seq<SessionTable.Step>)
      returns (r: ApplyResult, ghost met: SessionTable.Table)
      requires Valid()
      modifies this, sessions
      ensures r.Closed? <==> !old(running)
      ensures r.NeedsRestart? <==> old(running) && !OnlyLimitsChange(old(snapshot).node, next.node)
      ensures r.Applied? || r.Panicked? ==> met == ServedAll(old(sessions.table), gap)
      ensures r.Applied? ==> Valid() && snapshot == next && sessions.table == SessionTable.Update(met, next)
      ensures r.Applied? ==> View() == Adopt(old(View()).(open := OpenUsers(met.sessions)), next)
      ensures r.Applied? ==> RisingIds(r.affected) && forall u :: u in r.affected <==> Registry.Affected(met, next, u)
      ensures r.Applied? ==> !SessionTable.UpdatePanics(met, next)
      ensures r.Panicked? ==> SessionTable.UpdatePanics(met, next)
      ensures !r.Applied? && !r.Panicked? ==>
                Tied() && View() == old(View()) && snapshot == old(snapshot) && sessions.table == old(sessions.table)
      ensures r.Closed? || r.NeedsRestart? || r.RolledBack? ==> Valid()
      ensures r.RollbackFailed? ==> users != old(users) && !OneFault(fault)
      ensures r.RolledBack? ==> exists n :: fault(n)
    {
      met := sessions.table;
      var stop := Prepare(next, fault);
      if stop.Some? { return stop.value, met; }
      ServeSessions(gap);
      met := sessions.table;
      r := Commit(next);
    }

    /** takeCounter: the counter read and cleared, or left alone when it is negative. */
    method TakeCounter(u: UserId, d: Direction) returns (value: Option<int>)
      modifies this`counters
      ensures var c := Counter(old(View()), u, d);
              if c < 0 then value.None? && counters == old(counters)
              else value == Some(c) && View() == SetCounter(old(View()), u, d, 0)
    {
      if (u, d) !in counters { return Some(0); }
      var c := counters[(u, d)];
      if c < 0 { return None; }
      counters := counters[(u, d) := 0];
      return Some(c);
    }

    /** One round of the drain loop. */
    method DrainOne(u: UserId) returns (taken: Option<seq<Entry>>)
      requires sessions.UsersTallied()
      modifies this`counters, this`retired
      ensures var d := DrainUser(old(View()), u);
              View() == d.engine && taken == if d.ok then Some(d.entries) else None
    {
      var up := TakeCounter(u, Up);
      if up.None? { return None; }
      var down := TakeCounter(u, Down);
      if down.None? { return None; }
      if up.value != 0 || down.value != 0 { return Some([Entry(u, up.value, down.value)]); }
      var has := sessions.HasUserSessions(u);
      if u in retired && !has { retired := retired - {u}; }
      return Some([]);
    }

    /** The drain loop over the given users. */
    method DrainEach(ordered: seq<UserId>) returns (entries: Option<seq<Entry>>)
      requires sessions.UsersTallied()
      modifies this`counters, this`retired
      ensures var d := DrainFrom(old(View()), ordered);
              View() == d.engine && entries == if d.ok then Some(d.entries) else None
    {
      ghost var whole := DrainFrom(View(), ordered);
      var collected: seq<Entry> := [];
      assert ordered[0..] == ordered && whole == Continued([], whole);
      for i := 0 to |ordered|
        invariant whole == Continued(collected, DrainFrom(View(), ordered[i..]))
      {
        DrainUnfold(whole, collected, View(), ordered, i);
        var taken := DrainOne(ordered[i]);
        if taken.None? { return None; }
        collected := collected + taken.value;
      }
      assert collected + [] == collected;
      return Some(collected);
    }

    /** drainLocked: snapshot and retired users by rising id. On a negative counter it fails, and what
        it had taken by then is dropped. */
    method Drain() returns (entries: Option<seq<Entry>>, ghost ids: seq<UserId>)
      requires sessions.UsersTallied()
      modifies this`counters, this`retired
      ensures DrainOrder(old(View()), ids)
      ensures var d := DrainFrom(old(View()), ids);
              View() == d.engine && entries == if d.ok then Some(d.entries) else None
    {
      var ordered := SortIds(UserMap(snapshot.users).Keys + retired);
      ids := ordered;
      assert forall u :: u in ids <==> u in Ids(ids);
      entries := DrainEach(ordered);
    }

    /** Restore: each entry added to the counters that exist. */
    method Restore(entries: seq<Entry>)
      requires Int64Counters(View()) && Restorable(entries)
      modifies this`counters
      ensures View() == RestoreAll(old(View()), entries).engine
    {
      for i := 0 to |entries|
        invariant Int64Counters(View()) && Restorable(entries[i..])
        invariant RestoreAll(old(View()), entries).engine == RestoreAll(View(), entries[i..]).engine
      {
        RestoreUnfold(View(), entries, i);
        RestoreOne(entries[i]);
      }
    }

    method RestoreOne(x: Entry)
      requires Int64Counters(View()) && Restorable([x])
      modifies this`counters
      ensures View() == RestoreEntry(old(View()), x)
    {
      assert x in [x];
      if (x.user, Up) in counters { counters := counters[(x.user, Up) := Wrap64(counters[(x.user, Up)] + x.up)]; }
      if (x.user, Down) in counters { counters := counters[(x.user, Down) := Wrap64(counters[(x.user, Down)] + x.down)]; }
    }

    /** CloseAndDrain; a second call does nothing. `None` stands for a failed drain; an error of closing
        Xray itself changes nothing here and is the caller's to weigh. */
    method CloseAndDrain() returns (entries: Option<seq<Entry>>, ghost ids: seq<UserId>)
      requires sessions.Valid()
      modifies this`running, this`counters, this`retired, sessions
      ensures sessions.Valid()
      ensures !old(running) ==> entries == Some([]) && View() == old(View())
      ensures old(running) ==> DrainOrder(old(View()), ids) && sessions.table == SessionTable.Shut(old(sessions.table))
      ensures old(running) ==>
                var d := DrainFrom(old(View()).(running := false), ids);
                View() == d.engine && entries == if d.ok then Some(d.entries) else None
    {
      if !running { return Some([]), []; }
      Halt();
      entries, ids := Drain();
    }

    /** The first half of CloseAndDrain: no more sessions, no more traffic. */
    method Halt()
      requires sessions.Valid()
      modifies this`running, sessions
      ensures sessions.Valid() && !running && sessions.table == SessionTable.Shut(old(sessions.table))
      ensures old(Tied()) ==> Tied()
      ensures View() == old(View()).(running := false)
    {
      RevokedSameUsers(sessions.table.sessions,
                       SessionTable.IdsOfUsers(sessions.table.sessions, sessions.table.users.Keys));
      if Tied() { SessionSafety.ShutSafe(sessions.table); }
      var callbacks := sessions.CloseRegistry();
      running := false;
    }
  }
}
