/** Traffic batches: entries, validation and totals (internal/accounting/outbox.go). */
module Accounting {
  import opened Wrappers
  import opened Text
  import opened Model

  datatype Entry = Entry(user: UserId, up: int, down: int)

  type BatchId = string

  /** A batch as it lies in the outbox. `hash` stands for the digest of the payload. */
  datatype Batch = Batch(
    version: int, id: BatchId, node: NodeId, configVersion: nat, createdAt: int,
    rate: real, entries: seq<Entry>, hash: int)

  const SCHEMA_VERSION := 1

  // ---------------------------------------------------------------- int64

  predicate IsInt64(x: int) { MIN_INT64 <= x <= MAX_INT64 }

  /** Two's complement wrap-around of int64 arithmetic. */
  function Wrap64(x: int): (r: int)
    ensures IsInt64(r)
    ensures IsInt64(x) ==> r == x
  {
    (x - MIN_INT64) % 0x1_0000_0000_0000_0000 + MIN_INT64
  }

  /** Wrapping keeps the residue modulo 2^64, and there is one int64 with it. */
  lemma WrapIsResidue(x: int, y: int)
    requires IsInt64(y)
    ensures Wrap64(x) == y <==> (x - y) % 0x1_0000_0000_0000_0000 == 0
  {
    assert x - y == (x - MIN_INT64) - (y - MIN_INT64);
  }

  // ---------------------------------------------------------------- totals

  function RawSum(entries: seq<Entry>): int {
    if entries == [] then 0
    else RawSum(entries[..|entries| - 1]) + entries[|entries| - 1].up + entries[|entries| - 1].down
  }

  /** The total of one entry is both its directions, and totals add up. */
  lemma {:induction false} RawSumAdds(a: seq<Entry>, b: seq<Entry>)
    ensures RawSum(a + b) == RawSum(a) + RawSum(b)
    ensures |b| == 1 ==> RawSum(b) == b[0].up + b[0].down
    decreases |b|
  {
    if b == [] {
      assert a + b == a;
    } else {
      RawSumAdds(a, b[..|b| - 1]);
      assert (a + b)[..|a + b| - 1] == a + b[..|b| - 1];
    }
  }

  ghost predicate NonNegative(entries: seq<Entry>) {
    forall e :: e in entries ==> 0 <= e.up <= MAX_INT64 && 0 <= e.down <= MAX_INT64
  }

  lemma {:induction false} PrefixSumBounded(entries: seq<Entry>, k: nat)
    requires NonNegative(entries) && k <= |entries|
    ensures 0 <= RawSum(entries[..k]) <= RawSum(entries)
    decreases |entries| - k, k
  {
    if k < |entries| {
      PrefixSumBounded(entries, k + 1);
      assert entries[..k + 1][..k] == entries[..k] && entries[k] in entries;
      SumNonNegative(entries[..k]);
    } else {
      assert entries[..k] == entries;
      SumNonNegative(entries);
    }
  }

  lemma {:induction false} SumNonNegative(entries: seq<Entry>)
    requires NonNegative(entries)
    ensures RawSum(entries) >= 0
  {
    if entries != [] {
      var last := entries[|entries| - 1];
      assert last in entries;
      SumNonNegative(entries[..|entries| - 1]);
    }
  }

  /** The overflow-guarded total of RawTotal and of ApplyBatch, on wrapping int64 arithmetic: the
      true sum, or an error exactly when that sum exceeds the int64 range. */
  method RawTotal(entries: seq<Entry>) returns (total: Option<int>)
    ensures NonNegative(entries) ==>
            (total == if RawSum(entries) <= MAX_INT64 then Some(RawSum(entries)) else None)
  {
    var sum := 0;
    for i := 0 to |entries|
      invariant IsInt64(sum)
      invariant NonNegative(entries) ==> sum == RawSum(entries[..i])
    {
      var e := entries[i];
      ghost var known := NonNegative(entries);
      if known {
        assert e in entries;
        PrefixSumBounded(entries, i);
        PrefixSumBounded(entries, i + 1);
        assert entries[..i + 1][..i] == entries[..i];
      }
      if e.up > Wrap64(MAX_INT64 - e.down) || sum > Wrap64(Wrap64(MAX_INT64 - e.up) - e.down) {
        return None;
      }
      sum := Wrap64(sum + Wrap64(e.up + e.down));
    }
    assert entries[..|entries|] == entries;
    if NonNegative(entries) { PrefixSumBounded(entries, |entries|); }
    return Some(sum);
  }

  // ---------------------------------------------------------------- validation

  ghost predicate HeaderValid(b: Batch) {
    && b.version == SCHEMA_VERSION && b.node > 0 && b.configVersion != 0 && b.createdAt > 0
    && 0.0 < b.rate <= 10000.0
  }

  /** Entries as a valid batch holds them: positive strictly rising users, no negative direction,
      no empty entry, no entry whose two directions overflow together. */
  ghost predicate EntriesValid(entries: seq<Entry>) {
    && (forall i :: 0 <= i < |entries| ==> EntryValid(entries[i]))
    && (forall i, j :: 0 <= i < j < |entries| ==> entries[i].user < entries[j].user)
  }

  ghost predicate EntryValid(e: Entry) {
    e.user > 0 && e.up >= 0 && e.down >= 0 && e.up + e.down <= MAX_INT64 && (e.up != 0 || e.down != 0)
  }

  /** The loop of validate over `lastID`. */
  method ValidateEntries(entries: seq<Entry>) returns (ok: bool)
    requires forall e :: e in entries ==> IsInt64(e.up) && IsInt64(e.down)
    ensures ok <==> EntriesValid(entries)
  {
    var lastId := 0;
    for i := 0 to |entries|
      invariant lastId == if i == 0 then 0 else entries[i - 1].user
      invariant EntriesValid(entries[..i])
    {
      var e := entries[i];
      assert e in entries;
      assert entries[..i + 1] == entries[..i] + [e];
      assert EntriesValid(entries) ==> EntryValid(entries[i]);
      if e.user <= lastId || e.up < 0 || e.down < 0 || e.up > Wrap64(MAX_INT64 - e.down) {
        return false;
      }
      if e.up == 0 && e.down == 0 {
        return false;
      }
      assert EntryValid(e);
      lastId := e.user;
    }
    assert entries[..|entries|] == entries;
    return true;
  }

  // ---------------------------------------------------------------- new batches

  function InsertEntry(xs: seq<Entry>, e: Entry): seq<Entry> {
    if xs == [] || e.user < xs[0].user then [e] + xs else [xs[0]] + InsertEntry(xs[1..], e)
  }

  /** sort.Slice by user id. */
  function SortEntries(xs: seq<Entry>): seq<Entry> {
    if xs == [] then [] else InsertEntry(SortEntries(xs[..|xs| - 1]), xs[|xs| - 1])
  }

  ghost predicate Rising(xs: seq<Entry>) { forall i, j :: 0 <= i < j < |xs| ==> xs[i].user < xs[j].user }

  lemma {:induction false} InsertLast(xs: seq<Entry>, e: Entry)
    requires forall x :: x in xs ==> x.user < e.user
    ensures InsertEntry(xs, e) == xs + [e]
  {
    if xs != [] {
      assert xs[0] in xs;
      InsertLast(xs[1..], e);
      assert xs == [xs[0]] + xs[1..];
    }
  }

  lemma {:induction false} SortOfRising(xs: seq<Entry>)
    requires Rising(xs)
    ensures SortEntries(xs) == xs
  {
    if xs != [] {
      SortOfRising(xs[..|xs| - 1]);
      InsertLast(xs[..|xs| - 1], xs[|xs| - 1]);
      assert xs == xs[..|xs| - 1] + [xs[|xs| - 1]];
    }
  }

  ghost predicate SortedByUser(xs: seq<Entry>) { forall i, j :: 0 <= i < j < |xs| ==> xs[i].user <= xs[j].user }

  lemma {:induction false} InsertKeeps(xs: seq<Entry>, e: Entry)
    ensures multiset(InsertEntry(xs, e)) == multiset(xs) + multiset{e}
  {
    if xs != [] && e.user >= xs[0].user {
      InsertKeeps(xs[1..], e);
      assert xs == [xs[0]] + xs[1..];
    }
  }

  lemma {:induction false} InsertSorts(xs: seq<Entry>, e: Entry)
    requires SortedByUser(xs)
    ensures SortedByUser(InsertEntry(xs, e))
  {
    if xs != [] && e.user >= xs[0].user {
      InsertSorts(xs[1..], e);
      var r := InsertEntry(xs[1..], e);
      forall j | 0 <= j < |r| ensures xs[0].user <= r[j].user {
        InsertKeeps(xs[1..], e);
        assert r[j] in multiset(r);
      }
    }
  }

  /** Sorting keeps the entries and puts their users in order. */
  lemma {:induction false} SortKeeps(xs: seq<Entry>)
    ensures multiset(SortEntries(xs)) == multiset(xs) && SortedByUser(SortEntries(xs))
  {
    if xs != [] {
      var rest := SortEntries(xs[..|xs| - 1]);
      SortKeeps(xs[..|xs| - 1]);
      InsertKeeps(rest, xs[|xs| - 1]);
      InsertSorts(rest, xs[|xs| - 1]);
      assert xs == xs[..|xs| - 1] + [xs[|xs| - 1]];
    }
  }

  function MakeBatch(node: Node, id: BatchId, createdAt: int, entries: seq<Entry>, hash: int): Batch {
    Batch(SCHEMA_VERSION, id, node.id, node.configVersion, createdAt, node.trafficRate, entries, hash)
  }

  /** NewBatch; the identifier, the clock and the digest come from outside. */
  method NewBatch(node: Node, id: BatchId, createdAt: int, entries: seq<Entry>, hash: int) returns (b: Option<Batch>)
    requires forall e :: e in entries ==> IsInt64(e.up) && IsInt64(e.down)
    ensures var made := MakeBatch(node, id, createdAt, SortEntries(entries), hash);
            b == if HeaderValid(made) && EntriesValid(made.entries) then Some(made) else None
    ensures b.Some? ==> var made := b.value;
              && made.node == node.id && made.rate == node.trafficRate && made.configVersion == node.configVersion
              && made.version == SCHEMA_VERSION && made.id == id && made.createdAt == createdAt && made.hash == hash
              && multiset(made.entries) == multiset(entries) && Rising(made.entries)
  {
    SortKeeps(entries);
    var sorted := SortEntries(entries);
    forall e | e in sorted ensures e in entries { assert e in multiset(sorted); }
    var ok := ValidateEntries(sorted);
    if !ok || node.id <= 0 || node.configVersion == 0 || createdAt <= 0 ||
       node.trafficRate <= 0.0 || node.trafficRate > 10000.0 { return None; }
    return Some(MakeBatch(node, id, createdAt, sorted, hash));
  }

  // ---------------------------------------------------------------- what a drain yields

  /** Entries of a drain: rising users, non-negative int64 directions, never both zero. */
  ghost predicate DrainShape(entries: seq<Entry>) {
    && (forall i :: 0 <= i < |entries| ==>
          && entries[i].user > 0 && 0 <= entries[i].up <= MAX_INT64 && 0 <= entries[i].down <= MAX_INT64
          && (entries[i].up != 0 || entries[i].down != 0))
    && Rising(entries)
  }

  predicate Overflowing(e: Entry) { e.up + e.down > MAX_INT64 }

  /** What the validated node settings of a snapshot provide for the header of its batches. */
  predicate NodeValidated(n: Node) { n.id > 0 && n.configVersion != 0 && 0.0 < n.trafficRate <= 10000.0 }

  /** Valid entries are exactly those a drain can yield without an overflow. */
  lemma ValidIsDrainShape(entries: seq<Entry>)
    ensures EntriesValid(entries) <==> DrainShape(entries) && forall e :: e in entries ==> !Overflowing(e)
  {
    if EntriesValid(entries) {
      forall i | 0 <= i < |entries| ensures entries[i].user > 0 && !Overflowing(entries[i]) { assert EntryValid(entries[i]); }
    }
    if DrainShape(entries) && forall e :: e in entries ==> !Overflowing(e) {
      forall i | 0 <= i < |entries| ensures EntryValid(entries[i]) { assert entries[i] in entries; }
    }
  }

  /** A batch has a valid header exactly when its node's settings are validated ones and the clock is past
      1970. */
  lemma HeaderFromNode(node: Node, id: BatchId, createdAt: int, entries: seq<Entry>, hash: int)
    ensures HeaderValid(MakeBatch(node, id, createdAt, entries, hash)) <==>
            node.id > 0 && node.configVersion > 0 && 0.0 < node.trafficRate <= 10000.0 && createdAt > 0
  {
  }

  /** A drain under a validated node makes a valid batch, entries unchanged, unless one user's two
      directions overflow together. */
  lemma DrainAcceptedIff(node: Node, id: BatchId, createdAt: int, entries: seq<Entry>, hash: int)
    requires NodeValidated(node) && createdAt > 0 && DrainShape(entries)
    ensures SortEntries(entries) == entries
    ensures var b := MakeBatch(node, id, createdAt, SortEntries(entries), hash);
            HeaderValid(b) && EntriesValid(b.entries) <==> forall e :: e in entries ==> !Overflowing(e)
  {
    SortOfRising(entries);
    ValidIsDrainShape(entries);
    HeaderFromNode(node, id, createdAt, entries, hash);
  }
}
