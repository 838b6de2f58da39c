/** Applying a batch in one transaction (internal/database/mysql.go). */
module Database {
  import opened Wrappers
  import opened Text
  import opened Model
  import opened Accounting

  datatype Direction = Up | Down

  function Amount(e: Entry, d: Direction): int { if d == Up then e.up else e.down }

  datatype Usage = Usage(u: int, d: int)

  function Of(x: Usage, d: Direction): int { if d == Up then x.u else x.d }

  /** The tables a batch touches. `applied` lists the committed batches in commit order. */
  datatype Db = Db(
    batches: map<BatchId, (NodeId, int)>,
    users: map<UserId, Usage>,
    bandwidth: map<NodeId, int>,
    applied: seq<Batch>)

  /** How the transaction fares: some statement or the commit fails and it is rolled back, it commits,
      or it commits and the reply never arrives. */
  datatype Outcome = RolledBack | Committed | ReplyLost

  // ---------------------------------------------------------------- billing

  /** math.Round over the reals: half away from zero. */
  function Round(x: real): int { if x >= 0.0 then (x + 0.5).Floor else -(-x + 0.5).Floor }

  function Charge(raw: int, rate: real): real { raw as real * rate }

  function BilledAmount(raw: int, rate: real): int { Round(Charge(raw, rate)) }

  /** billed: an error beyond int64, otherwise the rounded product. */
  function Billed(raw: int, rate: real): Option<int> {
    if Charge(raw, rate) > MAX_INT64 as real then None else Some(BilledAmount(raw, rate))
  }

  lemma RoundClose(x: real)
    ensures -0.5 <= Round(x) as real - x <= 0.5
    ensures x >= 0.0 ==> Round(x) as real - x > -0.5
    ensures x < 0.0 ==> Round(x) as real - x < 0.5
    ensures 0.0 <= x <= MAX_INT64 as real ==> 0 <= Round(x) <= MAX_INT64
  {
  }

  /** An amount is billed unless rate times raw exceeds int64; the bill is that product rounded, half a
      byte up, and fits int64 for raw traffic. */
  lemma BilledClose(raw: int, rate: real)
    ensures Billed(raw, rate).Some? <==> raw as real * rate <= MAX_INT64 as real
    ensures Billed(raw, rate).Some? ==> -0.5 <= Billed(raw, rate).value as real - raw as real * rate <= 0.5
    ensures Billed(raw, rate).Some? && raw >= 0 && rate >= 0.0 ==>
              && 0 <= Billed(raw, rate).value <= MAX_INT64
              && Billed(raw, rate).value as real - raw as real * rate > -0.5
  {
    RoundClose(Charge(raw, rate));
    if raw >= 0 && rate >= 0.0 { assert Charge(raw, rate) >= 0.0; }
  }

  predicate Billable(entries: seq<Entry>, rate: real) {
    forall e :: e in entries ==> Billed(e.up, rate).Some? && Billed(e.down, rate).Some?
  }

  function BilledSum(entries: seq<Entry>, rate: real, u: UserId, d: Direction): int {
    if entries == [] then 0
    else
      var last := entries[|entries| - 1];
      BilledSum(entries[..|entries| - 1], rate, u, d) + if last.user == u then BilledAmount(Amount(last, d), rate) else 0
  }

  function RawOf(entries: seq<Entry>, u: UserId, d: Direction): int {
    if entries == [] then 0
    else
      var last := entries[|entries| - 1];
      RawOf(entries[..|entries| - 1], u, d) + if last.user == u then Amount(last, d) else 0
  }

  // ---------------------------------------------------------------- totals by user

  predicate Mentioned(entries: seq<Entry>, u: UserId) { exists e :: e in entries && e.user == u }

  /** Both directions of these users. */
  function TrafficOf(entries: seq<Entry>, ids: seq<UserId>): int {
    if ids == [] then 0
    else
      var u := ids[|ids| - 1];
      TrafficOf(entries, ids[..|ids| - 1]) + RawOf(entries, u, Up) + RawOf(entries, u, Down)
  }

  /** The users of the entries, each once. */
  function UsersOf(entries: seq<Entry>): (ids: seq<UserId>)
    ensures NoDuplicates(ids) && forall u :: u in ids <==> Mentioned(entries, u)
  {
    if entries == [] then []
    else
      var rest, last := entries[..|entries| - 1], entries[|entries| - 1];
      var ids := UsersOf(rest);
      assert entries == rest + [last];
      assert forall u :: Mentioned(entries, u) <==> Mentioned(rest, u) || u == last.user by { LastMentioned(rest, last); }
      if last.user in ids then ids else ids + [last.user]
  }

  lemma LastMentioned(rest: seq<Entry>, last: Entry)
    ensures forall u :: Mentioned(rest + [last], u) <==> Mentioned(rest, u) || u == last.user
  {
    assert last in rest + [last];
    forall u | Mentioned(rest, u) ensures Mentioned(rest + [last], u) {
      var e :| e in rest && e.user == u;
      assert e in rest + [last];
    }
  }

  lemma {:induction false} TrafficOfSnoc(rest: seq<Entry>, last: Entry, ids: seq<UserId>)
    requires NoDuplicates(ids)
    ensures TrafficOf(rest + [last], ids) ==
            TrafficOf(rest, ids) + if last.user in ids then last.up + last.down else 0
  {
    if ids != [] {
      var u, init := ids[|ids| - 1], ids[..|ids| - 1];
      TrafficOfSnoc(rest, last, init);
      assert (rest + [last])[..|rest + [last]| - 1] == rest;
      assert ids == init + [u] && u !in init;
    }
  }

  lemma {:induction false} TrafficOfNothing(ids: seq<UserId>)
    ensures TrafficOf([], ids) == 0
  {
    if ids != [] { TrafficOfNothing(ids[..|ids| - 1]); }
  }

  /** The total of a batch is the sum, over its users and both directions, of what each of them caused. */
  lemma {:induction false} RawSumByUser(entries: seq<Entry>, ids: seq<UserId>)
    requires NoDuplicates(ids) && forall e :: e in entries ==> e.user in ids
    ensures RawSum(entries) == TrafficOf(entries, ids)
  {
    if entries == [] {
      TrafficOfNothing(ids);
    } else {
      var rest, last := entries[..|entries| - 1], entries[|entries| - 1];
      assert entries == rest + [last];
      RawSumByUser(rest, ids);
      TrafficOfSnoc(rest, last, ids);
    }
  }

  lemma BatchTraffic(entries: seq<Entry>)
    ensures RawSum(entries) == TrafficOf(entries, UsersOf(entries))
  {
    forall e | e in entries ensures e.user in UsersOf(entries) { assert Mentioned(entries, e.user); }
    RawSumByUser(entries, UsersOf(entries));
  }

  // ---------------------------------------------------------------- one attempt

  predicate Acceptable(db: Db, b: Batch) {
    Billable(b.entries, b.rate) && RawSum(b.entries) <= MAX_INT64 && b.node in db.bandwidth
  }

  function AddBilled(users: map<UserId, Usage>, entries: seq<Entry>, rate: real): map<UserId, Usage> {
    map u | u in users ::
      Usage(users[u].u + BilledSum(entries, rate, u, Up), users[u].d + BilledSum(entries, rate, u, Down))
  }

  /** The whole effect of a batch: every listed user that has a row, the node and the batch row. */
  function Contribute(db: Db, b: Batch): Db
    requires Acceptable(db, b)
  {
    Db(db.batches[b.id := (b.node, b.hash)],
       AddBilled(db.users, b.entries, b.rate),
       db.bandwidth[b.node := db.bandwidth[b.node] + RawSum(b.entries)],
       db.applied + [b])
  }

  function Attempt(db: Db, b: Batch, o: Outcome): Db {
    if o != RolledBack && b.id !in db.batches && Acceptable(db, b) then Contribute(db, b) else db
  }

  /** Whether the caller sees success: a commit whose reply arrives, or the very same batch found
      already committed. */
  predicate Reported(db: Db, b: Batch, o: Outcome) {
    && o != RolledBack
    && if b.id in db.batches then db.batches[b.id] == (b.node, b.hash)
       else Acceptable(db, b) && o == Committed
  }

  class Database {
    var db: Db

    constructor (db: Db)
      ensures this.db == db
    {
      this.db := db;
    }

    /** ApplyBatch: insert the batch row, bill every entry, add the raw total, commit. The working
        copies are the open transaction; nothing of them survives a return before the commit. */
    method ApplyBatch(b: Batch, o: Outcome) returns (ok: bool)
      requires NonNegative(b.entries)
      modifies this
      ensures db == Attempt(old(db), b, o)
      ensures ok <==> Reported(old(db), b, o)
    {
      if o == RolledBack { return false; }
      if b.id in db.batches {
        return db.batches[b.id] == (b.node, b.hash);
      }
      var billedUsers := BillEntries(db.users, b.entries, b.rate);
      if billedUsers.None? { return false; }
      var total := RawTotal(b.entries);
      if total.None? { return false; }
      if b.node !in db.bandwidth { return false; }
      db := Db(db.batches[b.id := (b.node, b.hash)], billedUsers.value,
               db.bandwidth[b.node := db.bandwidth[b.node] + total.value], db.applied + [b]);
      return o == Committed;
    }
  }

  /** The loop over the entries inside the transaction: both directions billed, an existing row
      updated, a missing row skipped. */
  method BillEntries(users: map<UserId, Usage>, entries: seq<Entry>, rate: real)
    returns (r: Option<map<UserId, Usage>>)
    ensures r.Some? <==> Billable(entries, rate)
    ensures r.Some? ==> r.value == AddBilled(users, entries, rate)
  {
    var rows := users;
    for i := 0 to |entries|
      invariant Billable(entries[..i], rate)
      invariant rows == AddBilled(users, entries[..i], rate)
    {
      var e := entries[i];
      assert e in entries && entries[..i + 1] == entries[..i] + [e] && entries[..i + 1][..i] == entries[..i];
      var up, down := Billed(e.up, rate), Billed(e.down, rate);
      if up.None? || down.None? { return None; }
      if e.user in rows {
        rows := rows[e.user := Usage(rows[e.user].u + up.value, rows[e.user].d + down.value)];
      }
    }
    assert entries[..|entries|] == entries;
    return Some(rows);
  }

  // ---------------------------------------------------------------- any sequence of attempts

  datatype Try = Try(batch: Batch, outcome: Outcome)

  ghost function Attempts(db: Db, tries: seq<Try>): Db
    decreases |tries|
  {
    if tries == [] then db else Attempts(Attempt(db, tries[0].batch, tries[0].outcome), tries[1..])
  }

  function TotalBilled(applied: seq<Batch>, u: UserId, d: Direction): int {
    if applied == [] then 0
    else
      var last := applied[|applied| - 1];
      TotalBilled(applied[..|applied| - 1], u, d) + BilledSum(last.entries, last.rate, u, d)
  }

  /** What the users of the batches of a node caused, in both directions. */
  function TotalRaw(applied: seq<Batch>, node: NodeId): int {
    if applied == [] then 0
    else
      var last := applied[|applied| - 1];
      TotalRaw(applied[..|applied| - 1], node) + if last.node == node then TrafficOf(last.entries, UsersOf(last.entries)) else 0
  }

  ghost predicate Listed(applied: seq<Batch>, id: BatchId) { exists b :: b in applied && b.id == id }

  /** A batch id is committed once, and the batch rows are those of the committed batches. */
  ghost predicate Recorded(start: Db, db: Db) {
    && (forall i, j :: 0 <= i < j < |db.applied| ==> db.applied[i].id != db.applied[j].id)
    && (forall id :: id in db.batches <==> id in start.batches || Listed(db.applied, id))
    && (forall b :: b in db.applied ==> b.id in db.batches && b.id !in start.batches)
    && (forall b :: b in db.applied ==> db.batches[b.id] == (b.node, b.hash))
  }

  /** User totals and node bandwidth are the initial ones plus one whole contribution per committed
      batch; a user without a row still counts in the node's bandwidth. */
  ghost predicate Summed(start: Db, db: Db) {
    && db.users.Keys == start.users.Keys
    && (forall u :: u in db.users ==> db.users[u].u == start.users[u].u + TotalBilled(db.applied, u, Up))
    && (forall u :: u in db.users ==> db.users[u].d == start.users[u].d + TotalBilled(db.applied, u, Down))
    && db.bandwidth.Keys == start.bandwidth.Keys
    && (forall n :: n in db.bandwidth ==> db.bandwidth[n] == start.bandwidth[n] + TotalRaw(db.applied, n))
  }

  ghost predicate Settled(start: Db, db: Db) { Recorded(start, db) && Summed(start, db) }

  lemma AttemptRecorded(start: Db, db: Db, b: Batch)
    requires Recorded(start, db) && b.id !in db.batches && Acceptable(db, b)
    ensures Recorded(start, Contribute(db, b))
  {
    var next := Contribute(db, b);
    assert forall x :: x in next.applied <==> x in db.applied || x == b;
    forall i | 0 <= i < |db.applied| ensures db.applied[i].id != b.id {
      assert db.applied[i] in db.applied;
    }
    forall id ensures Listed(next.applied, id) <==> Listed(db.applied, id) || id == b.id {
      if Listed(db.applied, id) {
        var x :| x in db.applied && x.id == id;
        assert x in next.applied;
      }
      assert b in next.applied;
    }
  }

  lemma AttemptSummed(start: Db, db: Db, b: Batch)
    requires Summed(start, db) && Acceptable(db, b)
    ensures Summed(start, Contribute(db, b))
  {
    var next := Contribute(db, b);
    assert next.applied[..|next.applied| - 1] == db.applied;
    assert forall x :: x in next.applied <==> x in db.applied || x == b;
    forall u | u in next.users
      ensures next.users[u].u == start.users[u].u + TotalBilled(next.applied, u, Up)
      ensures next.users[u].d == start.users[u].d + TotalBilled(next.applied, u, Down)
    {
      assert db.users[u].u == start.users[u].u + TotalBilled(db.applied, u, Up);
    }
    BatchTraffic(b.entries);
    forall n | n in next.bandwidth
      ensures next.bandwidth[n] == start.bandwidth[n] + TotalRaw(next.applied, n)
    {
      assert db.bandwidth[n] == start.bandwidth[n] + TotalRaw(db.applied, n);
    }
  }

  /** Rate times raw stays within int64. */
  predicate Affordable(raw: int, rate: real) { raw as real * rate <= MAX_INT64 as real }

  lemma BillableIff(entries: seq<Entry>, rate: real)
    ensures Billable(entries, rate) <==> forall e :: e in entries ==> Affordable(e.up, rate) && Affordable(e.down, rate)
  {
    forall e | e in entries
      ensures Billed(e.up, rate).Some? <==> Affordable(e.up, rate)
      ensures Billed(e.down, rate).Some? <==> Affordable(e.down, rate)
    {
      BilledClose(e.up, rate);
      BilledClose(e.down, rate);
    }
  }

  lemma LongerByOne(xs: seq<Batch>, b: Batch)
    ensures xs + [b] != xs
  {
    assert |xs + [b]| == |xs| + 1;
  }

  /** An attempt commits exactly when the transaction is not rolled back, the identifier is new, the node
      exists, no amount times the rate and no total exceeds int64; a user without a row does not matter.
      Otherwise it changes nothing. */
  lemma CommitsExactlyWhen(db: Db, b: Batch, o: Outcome)
    ensures Attempt(db, b, o).applied == db.applied + [b] <==>
            && o != RolledBack && b.id !in db.batches && b.node in db.bandwidth
            && (forall e :: e in b.entries ==> Affordable(e.up, b.rate) && Affordable(e.down, b.rate))
            && TrafficOf(b.entries, UsersOf(b.entries)) <= MAX_INT64
    ensures Attempt(db, b, o).applied == db.applied + [b] || Attempt(db, b, o) == db
  {
    BatchTraffic(b.entries);
    BillableIff(b.entries, b.rate);
    LongerByOne(db.applied, b);
  }

  /** A commit raises the node's bandwidth by all its batch's users caused, in both directions, and leaves
      other nodes alone. */
  lemma CommitRaisesBandwidth(db: Db, b: Batch, o: Outcome, ids: seq<UserId>)
    requires Attempt(db, b, o).applied == db.applied + [b]
    requires NoDuplicates(ids) && forall e :: e in b.entries ==> e.user in ids
    ensures var next := Attempt(db, b, o);
            && b.node in db.bandwidth && next.bandwidth.Keys == db.bandwidth.Keys
            && next.bandwidth[b.node] == db.bandwidth[b.node] + TrafficOf(b.entries, ids)
            && forall n :: n in db.bandwidth && n != b.node ==> next.bandwidth[n] == db.bandwidth[n]
  {
    assert |db.applied + [b]| == |db.applied| + 1;
    RawSumByUser(b.entries, ids);
  }

  /** Success is reported exactly when the batch's row, with this node and digest, is there afterwards, and
      either the reply of the commit arrived or the row was there before. */
  lemma ReportedExactlyWhen(db: Db, b: Batch, o: Outcome)
    ensures Reported(db, b, o) <==>
            && o != RolledBack
            && b.id in Attempt(db, b, o).batches && Attempt(db, b, o).batches[b.id] == (b.node, b.hash)
            && (b.id in db.batches || o == Committed)
  {
  }

  lemma AttemptSettles(start: Db, db: Db, b: Batch, o: Outcome)
    requires Settled(start, db)
    ensures Settled(start, Attempt(db, b, o))
  {
    if o != RolledBack && b.id !in db.batches && Acceptable(db, b) {
      AttemptRecorded(start, db, b);
      AttemptSummed(start, db, b);
    }
  }

  /** After any attempts, with any repeats and any outcomes, the database is settled. */
  lemma {:induction false} AttemptsSettle(start: Db, db: Db, tries: seq<Try>)
    requires Settled(start, db)
    ensures Settled(start, Attempts(db, tries))
    decreases |tries|
  {
    if tries != [] {
      AttemptSettles(start, db, tries[0].batch, tries[0].outcome);
      AttemptsSettle(start, Attempt(db, tries[0].batch, tries[0].outcome), tries[1..]);
    }
  }

  /** A repeated attempt of a committed batch changes nothing, and is reported as success. */
  lemma RepeatIsHarmless(start: Db, db: Db, b: Batch, o: Outcome)
    requires Settled(start, db) && b in db.applied
    ensures Attempt(db, b, o) == db
    ensures o != RolledBack ==> Reported(db, b, o)
  {
  }

  // ---------------------------------------------------------------- billing over many batches

  function Charged(applied: seq<Batch>, u: UserId, d: Direction): real {
    if applied == [] then 0.0
    else
      var last := applied[|applied| - 1];
      Charged(applied[..|applied| - 1], u, d) + Charge(RawOf(last.entries, u, d), last.rate)
  }

  /** The number of applied batches that mention the user. */
  function Mentions(applied: seq<Batch>, u: UserId): nat {
    if applied == [] then 0
    else
      var last := applied[|applied| - 1];
      Mentions(applied[..|applied| - 1], u) + if Mentioned(last.entries, u) then 1 else 0
  }

  lemma {:induction false} AbsentUser(entries: seq<Entry>, rate: real, u: UserId, d: Direction)
    requires !Mentioned(entries, u)
    ensures RawOf(entries, u, d) == 0 && BilledSum(entries, rate, u, d) == 0
  {
    if entries != [] {
      assert entries[|entries| - 1] in entries;
      AbsentUser(entries[..|entries| - 1], rate, u, d);
    }
  }

  /** A user mentioned in a batch with distinct users is billed as its one entry. */
  lemma {:induction false} PresentUser(entries: seq<Entry>, rate: real, u: UserId, d: Direction) returns (k: nat)
    requires Rising(entries) && Mentioned(entries, u)
    ensures k < |entries| && entries[k].user == u && RawOf(entries, u, d) == Amount(entries[k], d)
    ensures BilledSum(entries, rate, u, d) == BilledAmount(Amount(entries[k], d), rate)
  {
    var last, rest := entries[|entries| - 1], entries[..|entries| - 1];
    if last.user == u {
      assert !Mentioned(rest, u);
      AbsentUser(rest, rate, u, d);
      k := |rest|;
    } else {
      assert Mentioned(rest, u) by {
        var e :| e in entries && e.user == u;
        assert entries == rest + [last] && e in rest;
      }
      k := PresentUser(rest, rate, u, d);
    }
  }

  function Gap(entries: seq<Entry>, rate: real, u: UserId, d: Direction): real {
    BilledSum(entries, rate, u, d) as real - Charge(RawOf(entries, u, d), rate)
  }

  /** One rounding separates a user's bill in a batch from rate times raw. */
  lemma BatchBilledClose(entries: seq<Entry>, rate: real, u: UserId, d: Direction)
    requires Rising(entries)
    ensures if Mentioned(entries, u) then -0.5 <= Gap(entries, rate, u, d) <= 0.5 else Gap(entries, rate, u, d) == 0.0
  {
    if Mentioned(entries, u) {
      var k := PresentUser(entries, rate, u, d);
      RoundClose(Charge(Amount(entries[k], d), rate));
    } else {
      AbsentUser(entries, rate, u, d);
    }
  }

  function TotalGap(applied: seq<Batch>, u: UserId, d: Direction): real {
    TotalBilled(applied, u, d) as real - Charged(applied, u, d)
  }

  lemma TotalGapStep(applied: seq<Batch>, u: UserId, d: Direction)
    requires applied != []
    ensures var last := applied[|applied| - 1];
            TotalGap(applied, u, d) == TotalGap(applied[..|applied| - 1], u, d) + Gap(last.entries, last.rate, u, d)
  {
  }

  /** A user's billed total stays within half a byte, per direction and per applied batch that
      mentions the user, of the rate times the raw traffic of those batches. */
  lemma {:induction false} TotalBilledClose(applied: seq<Batch>, u: UserId, d: Direction)
    requires forall b :: b in applied ==> Rising(b.entries)
    ensures -0.5 * Mentions(applied, u) as real <= TotalGap(applied, u, d) <= 0.5 * Mentions(applied, u) as real
  {
    if applied != [] {
      var last := applied[|applied| - 1];
      assert last in applied;
      TotalGapStep(applied, u, d);
      TotalBilledClose(applied[..|applied| - 1], u, d);
      BatchBilledClose(last.entries, last.rate, u, d);
    }
  }
}
