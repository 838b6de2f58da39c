/** The outbox directory (internal/accounting/outbox.go). */
module Outbox {
  import opened Wrappers
  import opened Text
  import opened Model
  import opened Accounting

  /** What lies behind a directory entry: a regular file whose content reads as a valid batch or does
      not, or something that is not a regular file. */
  datatype Content = Regular(batch: Option<Batch>) | Irregular

  type Directory = map<string, Content>

  const JSON := ".json"
  const TMP := ".tmp"

  predicate HasSuffix(s: string, suffix: string) { |s| >= |suffix| && s[|s| - |suffix|..] == suffix }

  /** The name a batch is published under: twenty digits of save time, then the batch id. */
  function FileName(time: nat, id: BatchId): string { ZeroPadded(time, 20) + Tail(id) }

  function Tail(id: BatchId): string { "-" + id + JSON }

  function TempName(time: nat, id: BatchId): string { FileName(time, id) + TMP }

  /** Save times are positive int64 nanoseconds, so twenty digits always suffice. */
  lemma TimesFit(time: nat)
    requires time <= MAX_INT64
    ensures time < Pow10(20)
  {
    assert Pow10(5) == 100000;
    assert Pow10(10) == 100000 * Pow10(5);
    assert Pow10(15) == 100000 * Pow10(10);
    assert Pow10(20) == 100000 * Pow10(15);
  }

  /** Earlier saves sort first. */
  lemma NamesFollowTime(t1: nat, id1: BatchId, t2: nat, id2: BatchId)
    requires t1 < t2 <= MAX_INT64
    ensures LexLess(FileName(t1, id1), FileName(t2, id2))
  {
    TimesFit(t2);
    ZeroPaddedOrder(t1, t2, 20, Tail(id1), Tail(id2));
  }

  /** Two batches never share a name, not even when saved at the same time. */
  lemma NamesInjective(t1: nat, id1: BatchId, t2: nat, id2: BatchId)
    requires t1 <= MAX_INT64 && t2 <= MAX_INT64 && FileName(t1, id1) == FileName(t2, id2)
    ensures t1 == t2 && id1 == id2
  {
    LexIrreflexive(FileName(t1, id1));
    if t1 < t2 { NamesFollowTime(t1, id1, t2, id2); }
    if t2 < t1 { NamesFollowTime(t2, id2, t1, id1); }
    var n := |ZeroPadded(t1, 20)|;
    assert FileName(t1, id1)[n..] == Tail(id1) && FileName(t2, id2)[n..] == Tail(id2);
    assert Tail(id1)[1..|Tail(id1)| - |JSON|] == id1 && Tail(id2)[1..|Tail(id2)| - |JSON|] == id2;
  }

  lemma SuffixOfNames(time: nat, id: BatchId)
    ensures HasSuffix(FileName(time, id), JSON) && !HasSuffix(FileName(time, id), TMP)
    ensures HasSuffix(TempName(time, id), TMP)
  {
    var n := FileName(time, id);
    assert n[|n| - 1] == 'n' && TMP[3] == 'p';
    assert n[|n| - 4..][3] == n[|n| - 1];
  }

  lemma NamesApart(time: nat, id: BatchId)
    ensures FileName(time, id) != TempName(time, id)
  {
    SuffixOfNames(time, id);
  }

  // ---------------------------------------------------------------- the store

  datatype SaveFault = NoFault | BeforeTemp | BeforeRename | DirectorySync

  datatype RemoveFault = NoRemoveFault | UnlinkFails | RemoveSync

  ghost predicate Savable(b: Batch, node: NodeId, hashMatches: bool) {
    b.node == node && HeaderValid(b) && EntriesValid(b.entries) && hashMatches
  }

  datatype SaveResult = Saved | NotPublished | PublishedUnsynced

  datatype BatchFile = BatchFile(name: string, batch: Batch)

  /** An entry List accepts. */
  ghost predicate Listable(dir: Directory, node: NodeId, name: string)
    requires name in dir
  {
    && !HasSuffix(name, TMP) && HasSuffix(name, JSON)
    && dir[name].Regular? && dir[name].batch.Some? && dir[name].batch.value.node == node
  }

  ghost predicate AllListable(dir: Directory, node: NodeId) {
    forall name :: name in dir ==> Listable(dir, node, name)
  }

  /** The sorted listing of a directory of batches. */
  ghost predicate IsListing(dir: Directory, files: seq<BatchFile>) {
    && (forall i, j :: 0 <= i < j < |files| ==> LexLess(files[i].name, files[j].name))
    && (forall name :: name in dir <==> exists i :: 0 <= i < |files| && files[i].name == name)
    && (forall i :: 0 <= i < |files| ==> files[i].name in dir && dir[files[i].name] == Regular(Some(files[i].batch)))
  }

  function Renamed(dir: Directory, temp: string, final: string, b: Batch): Directory {
    dir[final := Regular(Some(b))] - {temp}
  }

  class Store {
    const node: NodeId
    var dir: Directory

    constructor (node: NodeId, dir: Directory)
      ensures this.node == node && this.dir == dir
    {
      this.node := node;
      this.dir := dir;
    }

    /** Save: validation, temporary file, rename, directory sync, with the fault the file system
        injects. The batch is visible exactly when there is no error or WasPublished holds; a failure
        after the temporary file was created leaves that file behind; the temporary file must be new. */
    method Save(b: Batch, hashMatches: bool, time: nat, fault: SaveFault) returns (r: SaveResult)
      requires forall e :: e in b.entries ==> IsInt64(e.up) && IsInt64(e.down)
      modifies this
      ensures r == Saved <==> Savable(b, node, hashMatches) && TempName(time, b.id) !in old(dir) && fault == NoFault
      ensures r == PublishedUnsynced <==>
                Savable(b, node, hashMatches) && TempName(time, b.id) !in old(dir) && fault == DirectorySync
      ensures r != NotPublished ==> dir == old(dir)[FileName(time, b.id) := Regular(Some(b))] - {TempName(time, b.id)}
      ensures r == NotPublished ==>
                dir == if Savable(b, node, hashMatches) && TempName(time, b.id) !in old(dir) && fault == BeforeRename
                       then old(dir)[TempName(time, b.id) := Regular(None)] else old(dir)
    {
      if b.node != node || b.version != SCHEMA_VERSION || b.node <= 0 || b.configVersion == 0 || b.createdAt <= 0 ||
         b.rate <= 0.0 || b.rate > 10000.0 { return NotPublished; }
      var ok := ValidateEntries(b.entries);
      if !ok || !hashMatches || fault == BeforeTemp || TempName(time, b.id) in dir { return NotPublished; }
      NamesApart(time, b.id);
      var final, temp := FileName(time, b.id), TempName(time, b.id);
      dir := dir[temp := Regular(None)];
      if fault == BeforeRename { return NotPublished; }
      dir := Renamed(dir, temp, final, b);
      return if fault == DirectorySync then PublishedUnsynced else Saved;
    }

    /** Remove: only published batches of this directory; the entry is gone even when the directory
        sync after it fails. */
    method Remove(name: string, fault: RemoveFault) returns (ok: bool)
      modifies this
      ensures dir == if HasSuffix(name, JSON) && fault != UnlinkFails then old(dir) - {name} else old(dir)
      ensures ok <==> HasSuffix(name, JSON) && name in old(dir) && fault == NoRemoveFault
    {
      if !HasSuffix(name, JSON) { return false; }
      if fault == UnlinkFails || name !in dir {
        assert name !in dir ==> dir - {name} == dir;
        return false;
      }
      dir := dir - {name};
      return fault == NoRemoveFault;
    }

    /** List: the entries in any order, each checked, then the sort by name. */
    method List() returns (files: Option<seq<BatchFile>>)
      ensures files.Some? <==> AllListable(dir, node)
      ensures files.Some? ==> IsListing(dir, files.value)
      ensures files.Some? ==>
                forall f :: f in files.value ==> f.batch.node == node && HasSuffix(f.name, JSON) && !HasSuffix(f.name, TMP)
    {
      var names: seq<string> := [];
      var todo := dir.Keys;
      while todo != {}
        invariant todo <= dir.Keys
        invariant forall n :: n in names <==> n in dir && n !in todo
        invariant forall n :: n in names ==> Listable(dir, node, n)
      {
        var name :| name in todo;
        todo := todo - {name};
        if HasSuffix(name, TMP) || !HasSuffix(name, JSON) { return None; }
        if dir[name].Irregular? || dir[name].batch.None? || dir[name].batch.value.node != node { return None; }
        names := names + [name];
      }
      var listed := ReadFiles(dir, SortStrings(names));
      return Some(listed);
    }
  }

  method ReadFiles(dir: Directory, sorted: seq<string>) returns (listed: seq<BatchFile>)
    requires forall n :: n in sorted <==> n in dir
    requires forall n :: n in dir ==> dir[n].Regular? && dir[n].batch.Some?
    requires StrictlySorted(sorted)
    ensures IsListing(dir, listed)
  {
    listed := [];
    for i := 0 to |sorted|
      invariant |listed| == i
      invariant forall k :: 0 <= k < i ==> listed[k].name == sorted[k]
      invariant forall k :: 0 <= k < i ==> sorted[k] in dir && dir[sorted[k]] == Regular(Some(listed[k].batch))
    {
      assert sorted[i] in sorted;
      listed := listed + [BatchFile(sorted[i], dir[sorted[i]].batch.value)];
    }
    forall name | name in dir ensures exists i :: 0 <= i < |listed| && listed[i].name == name {
      var i :| 0 <= i < |sorted| && sorted[i] == name;
      assert listed[i].name == name;
    }
  }

  // ---------------------------------------------------------------- publication order

  datatype Publication = Publication(time: nat, batch: Batch)

  ghost predicate RisingTimes(pubs: seq<Publication>) {
    && (forall i, j :: 0 <= i < j < |pubs| ==> pubs[i].time < pubs[j].time)
    && (forall i :: 0 <= i < |pubs| ==> pubs[i].time <= MAX_INT64)
  }

  function NameOf(p: Publication): string { FileName(p.time, p.batch.id) }

  /** The directory holds exactly these publications. */
  ghost predicate Holds(dir: Directory, pubs: seq<Publication>) {
    && (forall name :: name in dir <==> exists i :: 0 <= i < |pubs| && NameOf(pubs[i]) == name)
    && (forall i :: 0 <= i < |pubs| ==> dir[NameOf(pubs[i])] == Regular(Some(pubs[i].batch)))
  }

  lemma ListingNames(dir: Directory, files: seq<BatchFile>, names: seq<string>)
    requires IsListing(dir, files) && StrictlySorted(names) && forall n :: n in names <==> n in dir
    ensures |files| == |names| && forall i :: 0 <= i < |names| ==> files[i].name == names[i]
  {
    var b := seq(|files|, i requires 0 <= i < |files| => files[i].name);
    forall name ensures name in names <==> name in b {
      if name in names {
        var j :| 0 <= j < |files| && files[j].name == name;
        assert b[j] == name;
      }
    }
    SortedListingUnique(names, b);
  }

  lemma PublishedNamesSorted(pubs: seq<Publication>, i: nat, j: nat)
    requires RisingTimes(pubs) && i < j < |pubs|
    ensures LexLess(NameOf(pubs[i]), NameOf(pubs[j]))
  {
    NamesFollowTime(pubs[i].time, pubs[i].batch.id, pubs[j].time, pubs[j].batch.id);
  }

  /** With rising save times, replay sees the batches in the order they were published. */
  lemma ListedInPublicationOrder(dir: Directory, pubs: seq<Publication>, files: seq<BatchFile>)
    requires RisingTimes(pubs) && Holds(dir, pubs) && IsListing(dir, files)
    ensures |files| == |pubs|
    ensures forall i :: 0 <= i < |pubs| ==> files[i].name == NameOf(pubs[i]) && files[i].batch == pubs[i].batch
  {
    var names := seq(|pubs|, i requires 0 <= i < |pubs| => NameOf(pubs[i]));
    forall i, j | 0 <= i < j < |names| ensures LexLess(names[i], names[j]) { PublishedNamesSorted(pubs, i, j); }
    forall n ensures n in names <==> n in dir {
      if n in dir {
        var i :| 0 <= i < |pubs| && NameOf(pubs[i]) == n;
        assert names[i] == n;
      }
    }
    ListingNames(dir, files, names);
  }

  /** A leftover temporary file stops every listing, and with it replay and startup. */
  lemma LeftoverStopsListing(dir: Directory, node: NodeId, time: nat, id: BatchId)
    requires TempName(time, id) in dir
    ensures !AllListable(dir, node)
  {
    SuffixOfNames(time, id);
    assert !Listable(dir, node, TempName(time, id));
  }
}
