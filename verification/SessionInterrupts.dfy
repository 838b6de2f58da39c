/** When the callback given to BindInterrupt runs (internal/session/registry.go), stated on runs of the
    registry alone: which steps bind, and whether the lease ends up revoked. */
module SessionInterrupts {
  import opened Wrappers
  import opened Model
  import opened IpRules
  import opened SessionTable
  import opened SessionSafety
  import Registry

  predicate Binds(step: Step, i: LeaseId) { step.BindStep? && step.lease == i }

  predicate NeverBinds(steps: seq<Step>, i: LeaseId) { forall k :: 0 <= k < |steps| ==> !Binds(steps[k], i) }

  /** The k-th step binds `c` to the lease, and no other step binds anything to it. */
  predicate BindsOnce(steps: seq<Step>, k: nat, i: LeaseId, c: Callback) {
    k < |steps| && steps[k] == BindStep(i, Some(c)) && NeverBinds(steps[..k], i) && NeverBinds(steps[k + 1..], i)
  }

  // ---------------------------------------------------------------- what every step keeps

  /** Nothing was ever bound to the lease, if it exists. */
  ghost predicate Unbound(t: Table, i: LeaseId) {
    Has(t, i) ==> LeaseOf(t, i).interrupt.None? && LeaseOf(t, i).handed == []
  }

  /** The callback is in force, and has been handed out if and only if the lease is revoked. */
  ghost predicate Armed(t: Table, i: LeaseId, c: Callback) {
    Has(t, i) && LeaseOf(t, i).interrupt == Some(c) && LeaseOf(t, i).handed == if LeaseOf(t, i).revoked then [c] else []
  }

  /** What a step other than a bind may do to a lease: revoke it, with the callback in force handed out, and
      move it. */
  ghost predicate Follows(l: Lease, l': Lease) {
    && l'.user == l.user && l'.kind == l.kind && l'.interrupt == l.interrupt
    && (l'.revoked == l.revoked ==> l'.handed == l.handed)
    && (l'.revoked != l.revoked ==>
          l'.revoked && l'.handed == l.handed + if l.interrupt.Some? then [l.interrupt.value] else [])
  }

  /** A lease that exists goes on in that way, and none comes into being. */
  ghost predicate Carries(t: Table, t': Table, i: LeaseId) {
    if Has(t, i) then Has(t', i) && Follows(LeaseOf(t, i), LeaseOf(t', i)) else !Has(t', i)
  }

  lemma CarriesTwice(a: Table, b: Table, c: Table, i: LeaseId)
    requires Carries(a, b, i) && Carries(b, c, i)
    ensures Carries(a, c, i)
  {
  }

  lemma SameLeasesCarry(t: Table, t': Table, i: LeaseId)
    requires t'.sessions == t.sessions && t'.detached == t.detached
    ensures Carries(t, t', i)
  {
  }

  lemma RevokeCarries(t: Table, which: set<LeaseId>, i: LeaseId)
    ensures Carries(t, t.(sessions := RevokeSet(t.sessions, which)), i)
  {
  }

  lemma PutHere(t: Table, j: LeaseId, l: Lease)
    requires Has(t, j) && Follows(LeaseOf(t, j), l)
    ensures Carries(t, PutLease(t, j, l), j)
  {
  }

  lemma PutElsewhere(t: Table, j: LeaseId, l: Lease, i: LeaseId)
    requires Has(t, j) && i != j
    ensures Carries(t, PutLease(t, j, l), i)
  {
    if Has(t, i) { assert LeaseOf(PutLease(t, j, l), i) == LeaseOf(t, i); }
  }

  lemma PutCarries(t: Table, j: LeaseId, l: Lease, i: LeaseId)
    requires Has(t, j) && (i == j ==> Follows(LeaseOf(t, j), l))
    ensures Carries(t, PutLease(t, j, l), i)
  {
    if i == j { PutHere(t, j, l); } else { PutElsewhere(t, j, l, i); }
  }

  lemma MoveCarries(t: Table, j: LeaseId, a: Addr, i: LeaseId)
    requires Has(t, j)
    ensures Carries(t, Moved(t, j, LeaseOf(t, j), a), i)
  {
    var l := LeaseOf(t, j);
    var t1 := t.(sources := MoveSource(t.sources, l.user, l.source, a));
    SameLeasesCarry(t, t1, i);
    PutCarries(t1, j, l.(source := a), i);
    CarriesTwice(t, t1, Moved(t, j, l, a), i);
  }

  lemma RebindCarries(t: Table, j: LeaseId, a: Addr, err: Option<Reason>, i: LeaseId)
    requires Has(t, j)
    ensures Carries(t, ConcludeRebind(t, j, LeaseOf(t, j), a, err), i)
  {
    if err.Some? {
      SameLeasesCarry(t, Reject(t, err.value), i);
    } else if a == LeaseOf(t, j).source {
      SameLeasesCarry(t, t, i);
    } else {
      MoveCarries(t, j, a, i);
    }
  }

  lemma CloseCarries(t: Table, j: LeaseId, i: LeaseId)
    requires t.sessions.Keys !! t.detached.Keys
    ensures Carries(t, CloseLease(t, j), i)
  {
  }

  lemma UpdateCarries(t: Table, next: Snapshot, i: LeaseId)
    ensures Carries(t, Update(t, next), i)
  {
    var installed, r := Install(t, next), Revised(t, next);
    SameLeasesCarry(t, installed, i);
    RevokeCarries(installed, RevokedByUpdate(t, next), i);
    CarriesTwice(t, installed, r, i);
    RevokeCarries(r, OverLimit(r), i);
    CarriesTwice(t, r, Update(t, next), i);
  }

  lemma ShutCarries(t: Table, i: LeaseId)
    ensures Carries(t, Shut(t), i)
  {
    RevokeCarries(t.(closed := true), IdsOfUsers(t.sessions, t.users.Keys), i);
  }

  predicate OnLease(step: Step) { step.RebindStep? || step.CloseStep? || step.BindStep? }

  lemma LeaseStepCarries(t: Table, step: Step, i: LeaseId)
    requires Safe(t) && Enabled(t, step) && OnLease(step) && !Binds(step, i)
    ensures Carries(t, After(t, step), i)
  {
    match step
    case RebindStep(j, a) => RebindCarries(t, j, a, RebindError(t, LeaseOf(t, j), a), i);
    case CloseStep(j) => CloseCarries(t, j, i);
    case BindStep(j, cb) => PutCarries(t, j, BindLease(LeaseOf(t, j), cb), i);
  }

  lemma TableStepCarries(t: Table, step: Step, i: LeaseId)
    requires Enabled(t, step) && !OnLease(step) && !step.OpenStep?
    ensures Carries(t, After(t, step), i)
  {
    match step
    case UpdateStep(next) => UpdateCarries(t, next, i);
    case RevokeStep(users) => RevokeCarries(t, IdsOfUsers(t.sessions, users), i);
    case ShutStep => ShutCarries(t, i);
    case AcquireStep => SameLeasesCarry(t, Acquire(t), i);
    case ReleaseStep(ticket) => SameLeasesCarry(t, Release(t, ticket), i);
    case RejectStep(r) => SameLeasesCarry(t, Reject(t, r), i);
  }

  /** Every step but an admission and a bind of this lease. */
  lemma StepCarries(t: Table, step: Step, i: LeaseId)
    requires Safe(t) && Enabled(t, step) && !step.OpenStep? && !Binds(step, i)
    ensures Carries(t, After(t, step), i)
  {
    if OnLease(step) { LeaseStepCarries(t, step, i); } else { TableStepCarries(t, step, i); }
  }

  /** An admission leaves other leases alone, and what it brings has nothing bound to it. */
  lemma ConcludeBrings(t: Table, p: Pending, reason: Option<Reason>, i: LeaseId)
    requires t.nextId + 1 !in t.sessions && t.nextId + 1 !in t.detached
    ensures Has(t, i) ==> Carries(t, Conclude(t, p, reason), i)
    ensures !Has(t, i) ==> Unbound(Conclude(t, p, reason), i)
  {
  }

  lemma KeepsUnbound(t: Table, step: Step, i: LeaseId)
    requires Safe(t) && Enabled(t, step) && !Binds(step, i) && Unbound(t, i)
    ensures Unbound(After(t, step), i)
  {
    if step.OpenStep? {
      ConcludeBrings(t, step.pending, OpenReason(t, step.pending), i);
    } else {
      StepCarries(t, step, i);
    }
  }

  lemma KeepsArmed(t: Table, step: Step, i: LeaseId, c: Callback)
    requires Safe(t) && Enabled(t, step) && !Binds(step, i) && Armed(t, i, c)
    ensures Armed(After(t, step), i, c)
  {
    if step.OpenStep? {
      ConcludeBrings(t, step.pending, OpenReason(t, step.pending), i);
    } else {
      StepCarries(t, step, i);
    }
  }

  // ---------------------------------------------------------------- runs

  lemma {:induction false} StaysUnbound(t: Table, steps: seq<Step>, t': Table, i: LeaseId)
    requires Safe(t) && Run(t, steps, t') && NeverBinds(steps, i) && Unbound(t, i)
    ensures Safe(t') && Unbound(t', i)
    decreases |steps|
  {
    if steps != [] {
      StepSafe(t, steps[0]);
      KeepsUnbound(t, steps[0], i);
      StaysUnbound(After(t, steps[0]), steps[1..], t', i);
    }
  }

  lemma {:induction false} StaysArmed(t: Table, steps: seq<Step>, t': Table, i: LeaseId, c: Callback)
    requires Safe(t) && Run(t, steps, t') && NeverBinds(steps, i) && Armed(t, i, c)
    ensures Safe(t') && Armed(t', i, c)
    decreases |steps|
  {
    if steps != [] {
      StepSafe(t, steps[0]);
      KeepsArmed(t, steps[0], i, c);
      StaysArmed(After(t, steps[0]), steps[1..], t', i, c);
    }
  }

  lemma BindArms(t: Table, i: LeaseId, c: Callback)
    requires Has(t, i) && Unbound(t, i)
    ensures Armed(Bind(t, i, Some(c)), i, c)
  {
  }

  ghost function StateAt(t: Table, steps: seq<Step>, t': Table, k: nat): (m: Table)
    requires k <= |steps| && Run(t, steps, t')
    ensures Run(t, steps[..k], m) && Run(m, steps[k..], t')
    decreases k
  {
    if k == 0 then
      assert steps[..0] == [] && steps[0..] == steps;
      t
    else
      var m := StateAt(After(t, steps[0]), steps[1..], t', k - 1);
      assert steps[..k] == [steps[0]] + steps[1..][..k - 1] && steps[k..] == steps[1..][k - 1..];
      m
  }

  /** In every run from a new registry in which one callback is bound to a lease once, with anything
      before, in between and after, the callback is in force, and it has been handed out exactly once if
      the lease is revoked and not at all otherwise; closed leases included. */
  lemma BoundOnce(limits: Limits, first: Snapshot, steps: seq<Step>, t: Table, k: nat, i: LeaseId, c: Callback)
    requires Run(Initial(limits, first), steps, t) && BindsOnce(steps, k, i, c)
    ensures Has(t, i) && LeaseOf(t, i).handed == if LeaseOf(t, i).revoked then [c] else []
    ensures Safe(t) && Armed(t, i, c)
  {
    var start := Initial(limits, first);
    var m := StateAt(start, steps, t, k);
    InitialSafe(limits, first);
    StaysUnbound(start, steps[..k], m, i);
    assert steps[k..][0] == steps[k] && steps[k..][1..] == steps[k + 1..];
    StepSafe(m, steps[k]);
    BindArms(m, i, c);
    StaysArmed(After(m, steps[k]), steps[k + 1..], t, i, c);
  }

  /** Without a bind nothing is ever handed out. */
  lemma NeverBound(limits: Limits, first: Snapshot, steps: seq<Step>, t: Table, i: LeaseId)
    requires Run(Initial(limits, first), steps, t) && NeverBinds(steps, i) && Has(t, i)
    ensures LeaseOf(t, i).handed == []
  {
    InitialSafe(limits, first);
    StaysUnbound(Initial(limits, first), steps, t, i);
  }

  // ---------------------------------------------------------------- who runs the callback

  /** A critical section that revokes such a lease returns its callback to its caller, and nothing else for
      that lease. */
  lemma RevocationReturns(
    limits: Limits, first: Snapshot, steps: seq<Step>, t: Table, k: nat, i: LeaseId, c: Callback, after: Leases,
    callbacks: seq<(LeaseId, Callback)>)
    requires Run(Initial(limits, first), steps, t) && BindsOnce(steps, k, i, c)
    requires i in t.sessions && Registry.Collected(t.sessions, after, callbacks)
    ensures forall d :: (i, d) in callbacks <==> d == c && !t.sessions[i].revoked && after[i].revoked
  {
    BoundOnce(limits, first, steps, t, k, i, c);
  }

  /** A bind of a revoked lease returns the callback to the binder instead. */
  lemma LateBindReturns(limits: Limits, first: Snapshot, steps: seq<Step>, t: Table, i: LeaseId, c: Callback)
    requires Run(Initial(limits, first), steps, t) && NeverBinds(steps, i) && Has(t, i)
    ensures var t' := Bind(t, i, Some(c));
            Has(t', i) && LeaseOf(t', i).handed == if LeaseOf(t, i).revoked then [c] else []
  {
    InitialSafe(limits, first);
    StaysUnbound(Initial(limits, first), steps, t, i);
    BindArms(t, i, c);
  }
}
