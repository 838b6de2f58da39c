/** Saving and replaying on the outbox directory and the database, as steps of the accounting protocol
    (internal/lifecycle/run.go, internal/accounting/outbox.go, internal/database/mysql.go). */
module Depot {
  import opened Wrappers
  import opened Model
  import opened Accounting
  import opened Database
  import opened Pipeline
  import opened PipelineLoss
  import opened OutboxView
  import opened Operations
  import Outbox

  /** Directory and database are in the state of the protocol. */
  ghost predicate Backed(store: Outbox.Store, database: Database, w: World)
    reads store, database
  {
    Sees(store.dir, store.node, database.db, w)
  }

  /** Save, with the state of the protocol it leads to. */
  method SaveBatch(store: Outbox.Store, database: Database, ghost start: Db, ghost w: World, b: Batch, s: Saving)
    returns (r: Persisted, ghost w': World)
    requires Healthy(start, w) && Backed(store, database, w)
    requires w.hand.Some? && w.hand.value.entries != [] && BatchOf(w.hand.value, b)
    requires b.id == s.id && Fresh(w, s) && HeaderValid(b) && EntriesValid(b.entries)
    modifies store
    ensures Healthy(start, w') && Backed(store, database, w') && Saves(w, w', s, r)
    ensures s.fault == Outbox.NoFault ==> !r.Unsynced?
    ensures s.fault == Outbox.NoFault && b.node == store.node && Outbox.TempName(s.time, b.id) !in old(store.dir) ==> r.Stored?
  {
    ghost var dir := store.dir;
    ValidIsInt64(b);
    var result := store.Save(b, true, s.time, s.fault);
    if result.NotPublished? {
      ghost var left := store.dir != dir;
      FailedSaveOutcome(start, w, s, left);
      FailedSaveSeen(w, s, dir, store.dir, store.node);
      return Unpublished, w.(tmp := w.tmp || left);
    }
    SaveOutcome(start, w, b, s, result.Saved?);
    SaveSeen(start, w, b, s, result.Saved?, dir, store.node);
    return if result.Saved? then Stored else Unsynced, AfterSave(w, b, s.time, result.Saved?);
  }

  /** The store takes batches of this node, and the name of the temporary file is free. */
  ghost predicate Accepts(store: Outbox.Store, node: Node, s: Saving, dir: Outbox.Directory) {
    node.id == store.node && Outbox.TempName(s.time, s.id) !in dir
  }

  /** persist: nothing for no entries, otherwise one batch at the rate in force when the entries were
      counted. Unless it reports an unpublished failure, exactly what was in hand has been published;
      without a fault it succeeds for every drain of this node, validated, whose sums fit. */
  method Persist(
    store: Outbox.Store, database: Database, ghost start: Db, ghost w: World, entries: seq<Entry>, node: Node, s: Saving)
    returns (r: Persisted, ghost w': World)
    requires Healthy(start, w) && Backed(store, database, w) && w.hand == Some(Hand(node, entries)) && Fresh(w, s)
    modifies store
    ensures Healthy(start, w') && Backed(store, database, w') && Saves(w, w', s, r)
    ensures Succeeds(w, s, Accepts(store, node, s, old(store.dir)), r)
    ensures Saveable(w, s, store.node) ==> r.Stored?
  {
    if entries == [] {
      NothingOutcome(start, w, s);
      return Stored, w.(hand := None);
    }
    SendableIsValid(w, s);
    var batch := NewBatch(node, s.id, s.createdAt, entries, s.hash);
    if batch.None? {
      FailedSaveOutcome(start, w, s, false);
      return Unpublished, w;
    }
    NewBatchIsOfHand(w, s, batch.value);
    r, w' := SaveBatch(store, database, start, w, batch.value, s);
  }

  /** ApplyBatch on the first file, with the reply the caller gets. */
  method ApplyFile(store: Outbox.Store, database: Database, ghost start: Db, ghost w: World, b: Batch, o: Outcome, ghost i: nat)
    returns (reported: bool)
    requires Healthy(start, w) && Backed(store, database, w)
    requires !w.tmp && FirstVisible(w.order, i) && b == w.order[i].batch
    modifies database
    ensures Healthy(start, AfterReplayApply(w, i, o)) && Backed(store, database, AfterReplayApply(w, i, o))
    ensures Tries(w, i, o) && reported == Reported(w.db, b, o)
  {
    ApplyStep(start, w, i, o);
    BatchNonNegative(w, i);
    reported := database.ApplyBatch(b, o);
  }

  /** Remove of the first file, whose batch was just reported as applied. */
  method RemoveFile(
    store: Outbox.Store, database: Database, ghost start: Db, ghost w: World, name: string, removal: Outbox.RemoveFault)
    returns (ok: bool, ghost w': World)
    requires Healthy(start, w) && Backed(store, database, w)
    requires w.acked.Some? && FirstVisible(w.order, w.acked.value) && name == NameAt(w.order[w.acked.value])
    modifies store
    ensures Healthy(start, w') && Backed(store, database, w') && Removes(w, w', ok)
    ensures ok <==> removal == Outbox.NoRemoveFault
  {
    FileIsThere(store.dir, w.order, w.tmp, w.acked.value);
    RemovalOutcome(start, w, removal, store.dir, store.node, database.db);
    ok := store.Remove(name, removal);
    w' := AfterRemoval(w, removal);
  }

  /** One file: applied, then removed only after the database reported it as applied. */
  method ReplayFile(
    store: Outbox.Store, database: Database, ghost start: Db, ghost w: World,
    file: Outbox.BatchFile, o: Outcome, removal: Outbox.RemoveFault)
    returns (ok: bool, ghost w': World)
    requires Healthy(start, w) && Backed(store, database, w) && !w.tmp && Heads(file, w.order)
    modifies store, database
    ensures Healthy(start, w') && Backed(store, database, w') && ReplaysOne(w, w', file.batch, o, removal, ok)
  {
    ghost var i := FirstExists(w.order);
    var reported := ApplyFile(store, database, start, w, file.batch, o, i);
    if !reported {
      NotReported(w, i, o, removal);
      return false, AfterReplayApply(w, i, o);
    }
    ok, w' := RemoveFile(store, database, start, AfterReplayApply(w, i, o), file.name, removal);
    ReportedAndRemoved(w, i, o, removal, w');
  }

  /** The same, as far as the rest of a replay is concerned. */
  method ReplayFirst(
    store: Outbox.Store, database: Database, ghost start: Db, ghost w: World,
    file: Outbox.BatchFile, o: Outcome, removal: Outbox.RemoveFault)
    returns (ok: bool, ghost w': World)
    requires Healthy(start, w) && Backed(store, database, w) && !w.tmp && Heads(file, w.order)
    modifies store, database
    ensures Healthy(start, w') && Backed(store, database, w') && w'.engine == w.engine && Undisturbed(w, w')
    ensures ok ==> Advances(w.order, w'.order)
    ensures Ready(w) && o == Committed && removal == Outbox.NoRemoveFault ==> ok
  {
    ok, w' := ReplayFile(store, database, start, w, file, o, removal);
  }
}
