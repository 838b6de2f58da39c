/** Incremental synchronisation of Xray's user table, with rollback on the first failure
    (internal/xrayadapter/engine.go). */
module UserSync {
  import opened Model

  /** An entry of Xray's user table, kept under the user's identity. */
  datatype Account = Account(uuid: string, flow: string)

  type UserTable = map<UserId, Account>

  function Accounts(users: map<UserId, User>, flow: string): UserTable {
    map u | u in users :: Account(users[u].uuid, flow)
  }

  function TableOf(s: Snapshot): UserTable { Accounts(UserMap(s.users), s.node.flow) }

  // ---------------------------------------------------------------- user table arithmetic

  function Without(t: UserTable, ids: set<UserId>): UserTable { t - ids }

  function With(t: UserTable, ids: set<UserId>, users: map<UserId, User>, flow: string): UserTable
    requires ids <= users.Keys
  {
    t + map u | u in ids :: Account(users[u].uuid, flow)
  }

  predicate Differs(a: map<UserId, User>, b: map<UserId, User>, u: UserId) {
    u in a && (u !in b || a[u].uuid != b[u].uuid)
  }

  function Changed(a: map<UserId, User>, b: map<UserId, User>): set<UserId> { set u | u in a && Differs(a, b, u) }

  /** The users that are gone or have another UUID. */
  function Replaced(a: map<UserId, User>, b: map<UserId, User>): set<UserId> {
    set u | u in a && !(u in b && b[u].uuid == a[u].uuid)
  }

  lemma ChangedAreReplaced(a: map<UserId, User>, b: map<UserId, User>)
    ensures Changed(a, b) == Replaced(a, b)
  {
  }

  /** The table after all removals and additions is the table of the new users. */
  lemma SynchronisedTable(before: map<UserId, User>, after: map<UserId, User>, flow: string)
    ensures With(Without(Accounts(before, flow), Changed(before, after)), Changed(after, before), after, flow) ==
            Accounts(after, flow)
  {
    var t := With(Without(Accounts(before, flow), Changed(before, after)), Changed(after, before), after, flow);
    forall u ensures u in t <==> u in after {}
    forall u | u in after ensures t[u] == Accounts(after, flow)[u] {}
  }

  // ---------------------------------------------------------------- rollback

  /** A user a rollback got wrong: it still has its new account, or it is missing. */
  ghost predicate Stuck(t: UserTable, start: UserTable, u: UserId) { u in t && (u !in start || start[u] != t[u]) }

  ghost predicate Missing(t: UserTable, start: UserTable, u: UserId) { u in start && u !in t }

  lemma OneLessAdded(t: UserTable, ids: set<UserId>, users: map<UserId, User>, flow: string, u: UserId)
    requires ids <= users.Keys && u in users && u !in ids && u !in t
    ensures With(t, ids + {u}, users, flow) - {u} == With(t, ids, users, flow)
  {
  }

  lemma OneMoreAdded(t: UserTable, ids: set<UserId>, users: map<UserId, User>, flow: string, u: UserId)
    requires ids <= users.Keys && u in users
    ensures With(t, ids + {u}, users, flow) == With(t, ids, users, flow)[u := Account(users[u].uuid, flow)]
  {
  }

  lemma OneLessRemoved(t: UserTable, ids: set<UserId>, u: UserId)
    requires u in t && u !in ids
    ensures Without(t, ids + {u})[u := t[u]] == Without(t, ids)
  {
  }

  /** The first loop of rollbackUsers: take the added users out again. */
  method UndoAdditions(
    ghost rest: UserTable, table: UserTable, added: seq<UserId>, ghost after: map<UserId, User>, ghost flow: string,
    fault: nat -> bool, ops: nat)
    returns (r: UserTable, clean: bool, ghost stuck: UserId)
    requires RisingIds(added) && Ids(added) <= after.Keys && Ids(added) !! rest.Keys
    requires table == With(rest, Ids(added), after, flow)
    ensures clean ==> r == rest
    ensures !clean ==> stuck in added && stuck in r && r[stuck] == Account(after[stuck].uuid, flow)
    ensures (forall n :: n >= ops ==> !fault(n)) ==> clean
  {
    r, clean, stuck := table, true, 0;
    assert added[0..] == added;
    for i := 0 to |added|
      invariant Ids(added[i..]) <= after.Keys
      invariant clean ==> r == With(rest, Ids(added[i..]), after, flow)
      invariant forall u :: u in Ids(added[i..]) ==> u in r && r[u] == Account(after[u].uuid, flow)
      invariant !clean ==> stuck in added && stuck !in Ids(added[i..])
      invariant !clean ==> stuck in r && r[stuck] == Account(after[stuck].uuid, flow)
      invariant (forall n :: n >= ops ==> !fault(n)) ==> clean
    {
      var u := added[i];
      IdsTail(added, i);
      assert u in Ids(added);
      OneLessAdded(rest, Ids(added[i + 1..]), after, flow, u);
      if fault(ops + i) { clean, stuck := false, u; } else { r := r - {u}; }
    }
  }

  /** The second loop of rollbackUsers: put the removed users back; adding a present user fails. */
  method RedoRemovals(
    start: UserTable, table: UserTable, removed: seq<UserId>, fault: nat -> bool, ops: nat, ghost stuck: UserId)
    returns (r: UserTable, clean: bool, ghost wrong: UserId)
    requires RisingIds(removed) && Ids(removed) <= start.Keys
    requires table == Without(start, Ids(removed)) || Stuck(table, start, stuck)
    ensures table == Without(start, Ids(removed)) && clean ==> r == start
    ensures !clean ==> Stuck(r, start, wrong) || Missing(r, start, wrong)
    ensures Stuck(table, start, stuck) ==> Stuck(r, start, stuck)
    ensures table == Without(start, Ids(removed)) && (forall n :: n >= ops ==> !fault(n)) ==> clean
  {
    r, clean, wrong := table, true, 0;
    assert removed[0..] == removed;
    for i := 0 to |removed|
      invariant table == Without(start, Ids(removed)) && clean ==> r == Without(start, Ids(removed[i..]))
      invariant Stuck(table, start, stuck) ==> Stuck(r, start, stuck)
      invariant !clean ==> Stuck(r, start, wrong) || (Missing(r, start, wrong) && wrong !in Ids(removed[i..]))
      invariant table == Without(start, Ids(removed)) && (forall n :: n >= ops ==> !fault(n)) ==> clean
    {
      var u := removed[i];
      IdsTail(removed, i);
      assert u in Ids(removed);
      OneLessRemoved(start, Ids(removed[i + 1..]), u);
      if fault(ops + i) || u in r {
        if clean { wrong := if u in r then stuck else u; }
        clean := false;
      } else {
        r := r[u := start[u]];
      }
    }
    assert Ids(removed[|removed|..]) == {};
  }

  /** rollbackUsers. Every operation may fail, without effect, when `fault` says so. The table is back
      at its start exactly when no error is reported. */
  method RollbackUsers(
    table: UserTable, before: map<UserId, User>, ghost after: map<UserId, User>, flow: string,
    added: seq<UserId>, removed: seq<UserId>, fault: nat -> bool, ops: nat)
    returns (r: UserTable, clean: bool)
    requires RisingIds(added) && RisingIds(removed)
    requires Ids(removed) <= Changed(before, after) && Ids(added) <= Changed(after, before)
    requires forall u :: u in Ids(added) && u in before ==> u in Ids(removed)
    requires table == With(Without(Accounts(before, flow), Ids(removed)), Ids(added), after, flow)
    ensures clean <==> r == Accounts(before, flow)
    ensures (forall n :: n >= ops ==> !fault(n)) ==> clean
  {
    ghost var start := Accounts(before, flow);
    var t, undone, redone;
    ghost var stuck, wrong;
    t, undone, stuck := UndoAdditions(Without(start, Ids(removed)), table, added, after, flow, fault, ops);
    assert !undone ==> stuck in Ids(added) && Stuck(t, start, stuck);
    r, redone, wrong := RedoRemovals(Accounts(before, flow), t, removed, fault, ops + |added|, stuck);
    clean := undone && redone;
  }

  // ---------------------------------------------------------------- synchronisation

  datatype Synchronised = Done | Undone | Broken

  /** At most one operation fails. */
  ghost predicate OneFault(fault: nat -> bool) { forall m, n :: fault(m) && fault(n) ==> m == n }

  lemma LaterSucceed(fault: nat -> bool, k: nat)
    requires fault(k)
    ensures OneFault(fault) ==> forall n :: n >= k + 1 ==> !fault(n)
  {
  }

  /** The rollback after the operation `k` failed. */
  method Abandon(
    table: UserTable, before: map<UserId, User>, ghost after: map<UserId, User>, flow: string,
    added: seq<UserId>, removed: seq<UserId>, fault: nat -> bool, k: nat)
    returns (r: UserTable, how: Synchronised)
    requires RisingIds(added) && RisingIds(removed) && fault(k)
    requires Ids(removed) <= Changed(before, after) && Ids(added) <= Changed(after, before)
    requires forall u :: u in Ids(added) && u in before ==> u in Ids(removed)
    requires table == With(Without(Accounts(before, flow), Ids(removed)), Ids(added), after, flow)
    ensures !how.Done? && (how.Broken? <==> r != Accounts(before, flow))
    ensures OneFault(fault) ==> !how.Broken?
  {
    LaterSucceed(fault, k);
    var clean;
    r, clean := RollbackUsers(table, before, after, flow, added, removed, fault, k + 1);
    how := if clean then Undone else Broken;
  }

  /** One removal. */
  lemma RemoveTurn(t: UserTable, remove: seq<UserId>, i: nat)
    requires RisingIds(remove) && i < |remove|
    ensures Without(t, Ids(remove[..i + 1])) == Without(t, Ids(remove[..i])) - {remove[i]}
    ensures RisingIds(remove[..i]) && Ids(remove[..i]) <= Ids(remove)
  {
    IdsSnoc(remove, i);
  }

  lemma NothingAdded(t: UserTable, after: map<UserId, User>, flow: string)
    ensures With(t, Ids([]), after, flow) == t
  {
  }

  /** The removals of Apply, with rollback on the first failure. */
  method RemoveUsers(
    table: UserTable, before: map<UserId, User>, ghost after: map<UserId, User>, flow: string, remove: seq<UserId>,
    fault: nat -> bool)
    returns (r: UserTable, how: Synchronised)
    requires table == Accounts(before, flow)
    requires RisingIds(remove) && Ids(remove) == Changed(before, after)
    ensures how.Done? <==> forall n :: 0 <= n < |remove| ==> !fault(n)
    ensures how.Done? ==> r == Without(Accounts(before, flow), Changed(before, after))
    ensures how.Broken? <==> !how.Done? && r != Accounts(before, flow)
    ensures OneFault(fault) ==> !how.Broken?
  {
    r := table;
    assert Without(r, Ids(remove[..0])) == r;
    for i := 0 to |remove|
      invariant r == Without(Accounts(before, flow), Ids(remove[..i]))
      invariant forall n :: 0 <= n < i ==> !fault(n)
    {
      RemoveTurn(Accounts(before, flow), remove, i);
      if fault(i) {
        NothingAdded(r, after, flow);
        r, how := Abandon(r, before, after, flow, [], remove[..i], fault, i);
        return;
      }
      r := r - {remove[i]};
    }
    assert remove[..|remove|] == remove;
    return r, Done;
  }

  /** One addition. */
  lemma AddTurn(rest: UserTable, add: seq<UserId>, after: map<UserId, User>, flow: string, i: nat)
    requires RisingIds(add) && i < |add| && Ids(add) <= after.Keys
    ensures add[i] in after && Ids(add[..i]) <= Ids(add) && Ids(add[..i + 1]) <= Ids(add) && RisingIds(add[..i])
    ensures With(rest, Ids(add[..i + 1]), after, flow) ==
            With(rest, Ids(add[..i]), after, flow)[add[i] := Account(after[add[i]].uuid, flow)]
  {
    IdsSnoc(add, i);
    assert add[i] in Ids(add);
    assert Ids(add[..i]) <= Ids(add);
    OneMoreAdded(rest, Ids(add[..i]), after, flow, add[i]);
  }

  /** A user that changed and was there before is also one of the removed. */
  lemma ChangedBothWays(before: map<UserId, User>, after: map<UserId, User>, u: UserId)
    requires u in Changed(after, before) && u in before
    ensures u in Changed(before, after)
  {
  }

  /** The additions of Apply, with rollback on the first failure. */
  method AddUsers(
    table: UserTable, before: map<UserId, User>, after: map<UserId, User>, flow: string, remove: seq<UserId>, add: seq<UserId>,
    fault: nat -> bool)
    returns (r: UserTable, how: Synchronised)
    requires RisingIds(remove) && Ids(remove) == Changed(before, after)
    requires RisingIds(add) && Ids(add) == Changed(after, before)
    requires table == Without(Accounts(before, flow), Ids(remove))
    ensures how.Done? <==> forall n :: |remove| <= n < |remove| + |add| ==> !fault(n)
    ensures how.Done? ==> r == With(table, Ids(add), after, flow)
    ensures how.Broken? <==> !how.Done? && r != Accounts(before, flow)
    ensures OneFault(fault) ==> !how.Broken?
  {
    r := table;
    assert add[..0] == [];
    NothingAdded(table, after, flow);
    for i := 0 to |add|
      invariant Ids(add[..i]) <= after.Keys && r == With(table, Ids(add[..i]), after, flow)
      invariant forall n :: |remove| <= n < |remove| + i ==> !fault(n)
    {
      AddTurn(table, add, after, flow, i);
      if fault(|remove| + i) {
        forall u | u in Ids(add[..i]) && u in before ensures u in Ids(remove) { ChangedBothWays(before, after, u); }
        r, how := Abandon(r, before, after, flow, add[..i], remove, fault, |remove| + i);
        return;
      }
      r := r[add[i] := Account(after[add[i]].uuid, flow)];
    }
    assert add[..|add|] == add;
    return r, Done;
  }

  lemma {:induction false} IdsSize(ids: seq<UserId>)
    requires RisingIds(ids)
    ensures |Ids(ids)| == |ids|
  {
    if ids != [] {
      var n := |ids| - 1;
      IdsSize(ids[..n]);
      IdsSnoc(ids, n);
      assert ids[..n + 1] == ids;
    }
  }

  /** Apply up to the session update: one operation for each user that leaves and each that comes, a new
      UUID being both; a user that stays the same takes none. */
  method Synchronise(
    table: UserTable, before: map<UserId, User>, after: map<UserId, User>, flow: string, fault: nat -> bool)
    returns (r: UserTable, how: Synchronised)
    requires table == Accounts(before, flow)
    ensures how.Done? ==> r == Accounts(after, flow)
    ensures how.Broken? <==> !how.Done? && r != Accounts(before, flow)
    ensures OneFault(fault) ==> !how.Broken?
    ensures how.Done? <==> forall n :: 0 <= n < |Replaced(before, after)| + |Replaced(after, before)| ==> !fault(n)
  {
    ChangedAreReplaced(before, after);
    ChangedAreReplaced(after, before);
    var remove := SortIds(Changed(before, after));
    var add := SortIds(Changed(after, before));
    IdsSize(remove);
    IdsSize(add);
    r, how := RemoveUsers(table, before, after, flow, remove, fault);
    if how.Done? {
      r, how := AddUsers(r, before, after, flow, remove, add, fault);
      SynchronisedTable(before, after, flow);
    }
  }
}
