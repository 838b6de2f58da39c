/** The outbox directory as the accounting protocol sees it: the visible publications in order, and
    whether an incomplete file lies there. Save, Remove and List act on the directory as the protocol's
    steps act on that view. */
module OutboxView {
  import opened Wrappers
  import opened Text
  import opened Model
  import opened Accounting
  import opened Outbox
  import opened Pipeline

  function NameAt(p: Published): string { FileName(p.time, p.batch.id) }

  function PublicationOf(p: Published): Publication { Publication(p.time, p.batch) }

  function Publications(ps: seq<Published>): seq<Publication> {
    seq(|ps|, i requires 0 <= i < |ps| => PublicationOf(ps[i]))
  }

  ghost predicate RisingOrder(order: seq<Published>) { RisingTimes(Publications(order)) }

  /** Save times rise, and fit the names, as long as the clock is an int64. */
  lemma Rises(w: World)
    requires Distinct(w) && w.clock <= MAX_INT64
    ensures RisingOrder(w.order)
  {
    var pubs := Publications(w.order);
    assert forall i :: 0 <= i < |pubs| ==> pubs[i].time == w.order[i].time;
  }

  function Names(order: seq<Published>): seq<string> {
    seq(|order|, i requires 0 <= i < |order| => NameAt(order[i]))
  }

  ghost predicate ShownAs(order: seq<Published>, names: seq<string>, name: string)
    requires |names| == |order|
  {
    exists i :: 0 <= i < |order| && order[i].visible && names[i] == name
  }

  ghost predicate Incomplete(dir: Directory) { exists name :: name in dir && HasSuffix(name, TMP) }

  ghost predicate ShowsAs(dir: Directory, order: seq<Published>, names: seq<string>, tmp: bool)
    requires |names| == |order|
  {
    && (forall name :: name in dir && !HasSuffix(name, TMP) ==> ShownAs(order, names, name))
    && (forall i :: 0 <= i < |order| && order[i].visible ==>
          names[i] in dir && dir[names[i]] == Regular(Some(order[i].batch)))
    && (tmp <==> Incomplete(dir))
  }

  /** The directory holds the visible publications and, when `tmp`, incomplete files. */
  ghost predicate Shows(dir: Directory, order: seq<Published>, tmp: bool) { ShowsAs(dir, order, Names(order), tmp) }

  /** The names of publications are those of complete files and never repeat. */
  ghost predicate Proper(names: seq<string>) {
    && (forall i, j :: 0 <= i < j < |names| ==> names[i] != names[j])
    && (forall i :: 0 <= i < |names| ==> !HasSuffix(names[i], TMP) && HasSuffix(names[i], JSON))
  }

  lemma NamesProper(order: seq<Published>)
    requires RisingOrder(order)
    ensures Proper(Names(order))
  {
    var pubs := Publications(order);
    forall i, j | 0 <= i < j < |order| ensures NameAt(order[i]) != NameAt(order[j]) {
      assert pubs[i].time < pubs[j].time <= MAX_INT64;
      NamesDiffer(order[i], order[j]);
    }
    forall i | 0 <= i < |order| ensures !HasSuffix(NameAt(order[i]), TMP) && HasSuffix(NameAt(order[i]), JSON) {
      SuffixOfNames(order[i].time, order[i].batch.id);
    }
  }

  lemma NamesDiffer(p: Published, q: Published)
    requires p.time < q.time <= MAX_INT64
    ensures NameAt(p) != NameAt(q)
  {
    NamesFollowTime(p.time, p.batch.id, q.time, q.batch.id);
    LexIrreflexive(NameAt(p));
  }

  lemma AddShown(
    dir: Directory, order: seq<Published>, names: seq<string>, tmp: bool, p: Published, name: string, temp: string)
    requires |names| == |order| && ShowsAs(dir, order, names, tmp) && Proper(names + [name]) && p.visible
    requires HasSuffix(temp, TMP) && temp !in dir
    ensures ShowsAs(dir[name := Regular(Some(p.batch))] - {temp}, order + [p], names + [name], tmp)
  {
    var after := dir[name := Regular(Some(p.batch))] - {temp};
    var next, named := order + [p], names + [name];
    assert !HasSuffix(named[|names|], TMP);
    forall i | 0 <= i < |next| && next[i].visible
      ensures named[i] in after && after[named[i]] == Regular(Some(next[i].batch))
    {
      assert !HasSuffix(named[i], TMP);
      assert i < |order| ==> named[i] != named[|order|];
    }
    forall n | n in after && !HasSuffix(n, TMP) ensures ShownAs(next, named, n) {
      if n == name {
        assert next[|order|].visible && named[|order|] == n;
      } else {
        assert ShownAs(order, names, n);
        var i :| 0 <= i < |order| && order[i].visible && names[i] == n;
        assert next[i].visible && named[i] == n;
      }
    }
    SameIncomplete(dir, after, name, temp);
  }

  lemma SameIncomplete(dir: Directory, after: Directory, added: string, removed: string)
    requires !HasSuffix(added, TMP) && removed !in dir
    requires forall name :: name in after <==> (name in dir || name == added) && name != removed
    ensures Incomplete(dir) <==> Incomplete(after)
  {
    if Incomplete(dir) {
      var name :| name in dir && HasSuffix(name, TMP);
      assert name in after;
    }
  }

  /** Save, published: the directory it leaves shows the batch as the newest publication. */
  lemma SaveShows(dir: Directory, order: seq<Published>, tmp: bool, b: Batch, time: nat)
    requires Shows(dir, order, tmp) && RisingOrder(order + [Published(b, time, true, false)])
    requires TempName(time, b.id) !in dir
    ensures Shows(dir[FileName(time, b.id) := Regular(Some(b))] - {TempName(time, b.id)},
                  order + [Published(b, time, true, false)], tmp)
  {
    var p := Published(b, time, true, false);
    NamesProper(order + [p]);
    assert Names(order + [p]) == Names(order) + [NameAt(p)];
    SuffixOfNames(time, b.id);
    AddShown(dir, order, Names(order), tmp, p, NameAt(p), TempName(time, b.id));
  }

  lemma AddIncomplete(dir: Directory, order: seq<Published>, names: seq<string>, tmp: bool, temp: string)
    requires |names| == |order| && ShowsAs(dir, order, names, tmp) && Proper(names) && HasSuffix(temp, TMP)
    ensures ShowsAs(dir[temp := Regular(None)], order, names, true)
  {
    var after := dir[temp := Regular(None)];
    assert temp in after;
    forall i | 0 <= i < |order| && order[i].visible
      ensures names[i] in after && after[names[i]] == Regular(Some(order[i].batch))
    {
      assert !HasSuffix(names[i], TMP);
    }
  }

  /** Save that fails before the rename: the same publications, and an incomplete file. */
  lemma FailedSaveShows(dir: Directory, order: seq<Published>, tmp: bool, time: nat, id: BatchId)
    requires Shows(dir, order, tmp) && RisingOrder(order)
    ensures Shows(dir[TempName(time, id) := Regular(None)], order, true)
  {
    NamesProper(order);
    SuffixOfNames(time, id);
    AddIncomplete(dir, order, Names(order), tmp, TempName(time, id));
  }

  lemma HideShown(dir: Directory, order: seq<Published>, names: seq<string>, tmp: bool, i: nat)
    requires |names| == |order| && ShowsAs(dir, order, names, tmp) && Proper(names) && i < |order|
    ensures ShowsAs(dir - {names[i]}, Hidden(order, i), names, tmp)
  {
    var after, next := dir - {names[i]}, Hidden(order, i);
    forall n | n in after && !HasSuffix(n, TMP) ensures ShownAs(next, names, n) {
      assert ShownAs(order, names, n);
      var j :| 0 <= j < |order| && order[j].visible && names[j] == n;
      assert j != i && next[j] == order[j];
    }
    if Incomplete(dir) {
      var name :| name in dir && HasSuffix(name, TMP);
      assert name in after;
    }
  }

  /** Remove of a publication hides that one and no other. */
  lemma RemoveShows(dir: Directory, order: seq<Published>, tmp: bool, i: nat)
    requires Shows(dir, order, tmp) && RisingOrder(order) && i < |order|
    ensures Shows(dir - {NameAt(order[i])}, Hidden(order, i), tmp)
  {
    NamesProper(order);
    HideShown(dir, order, Names(order), tmp, i);
    assert Names(Hidden(order, i)) == Names(order);
  }

  // ---------------------------------------------------------------- power losses

  function Drop<T>(xs: seq<T>, i: nat): (r: seq<T>)
    requires i < |xs|
    ensures |r| == |xs| - 1 && forall k :: 0 <= k < |r| ==> r[k] == xs[if k < i then k else k + 1]
  {
    xs[..i] + xs[i + 1..]
  }

  lemma DropShownAs(order: seq<Published>, names: seq<string>, i: nat, n: string)
    requires |names| == |order| && i < |order| && !order[i].visible && ShownAs(order, names, n)
    ensures ShownAs(Drop(order, i), Drop(names, i), n)
  {
    var j :| 0 <= j < |order| && order[j].visible && names[j] == n;
    var k := if j < i then j else j - 1;
    assert Drop(order, i)[k] == order[j] && Drop(names, i)[k] == names[j];
  }

  /** An entry that does not show can be left out of the order. */
  lemma DropHidden(dir: Directory, order: seq<Published>, names: seq<string>, tmp: bool, i: nat)
    requires |names| == |order| && ShowsAs(dir, order, names, tmp) && i < |order| && !order[i].visible
    ensures ShowsAs(dir, Drop(order, i), Drop(names, i), tmp)
  {
    forall n | n in dir && !HasSuffix(n, TMP) ensures ShownAs(Drop(order, i), Drop(names, i), n) {
      DropShownAs(order, names, i, n);
    }
  }

  lemma NamesOfDrop(order: seq<Published>, i: nat)
    requires i < |order|
    ensures Names(Drop(order, i)) == Drop(Names(order), i)
  {
  }

  lemma NamesOfHidden(order: seq<Published>, i: nat)
    requires i < |order|
    ensures Names(Hidden(order, i)) == Names(order) && Drop(Hidden(order, i), i) == Drop(order, i)
  {
  }

  lemma TakenBack(dir: Directory, order: seq<Published>, tmp: bool, i: nat)
    requires Shows(dir, order, tmp) && RisingOrder(order) && i < |order|
    ensures Shows(dir - {NameAt(order[i])}, Drop(order, i), tmp)
  {
    RemoveShows(dir, order, tmp, i);
    NamesOfHidden(order, i);
    NamesOfDrop(order, i);
    DropHidden(dir - {NameAt(order[i])}, Hidden(order, i), Names(order), tmp, i);
  }

  /** A power loss takes an entry back. */
  lemma VanishShows(dir: Directory, w: World, i: nat)
    requires Shows(dir, w.order, w.tmp) && RisingOrder(w.order) && i < |w.order|
    ensures Shows(dir - {NameAt(w.order[i])}, AfterVanish(w, i).order, w.tmp)
  {
    if i < CommittedCount(w) { RemoveShows(dir, w.order, w.tmp, i); } else { TakenBack(dir, w.order, w.tmp, i); }
  }

  lemma ShowAgain(dir: Directory, order: seq<Published>, names: seq<string>, tmp: bool, i: nat)
    requires |names| == |order| && ShowsAs(dir, order, names, tmp) && Proper(names) && i < |order|
    ensures ShowsAs(dir[names[i] := Regular(Some(order[i].batch))], order[i := order[i].(visible := true)], names, tmp)
  {
    var after, next := dir[names[i] := Regular(Some(order[i].batch))], order[i := order[i].(visible := true)];
    assert !HasSuffix(names[i], TMP);
    forall n | n in after && !HasSuffix(n, TMP) ensures ShownAs(next, names, n) {
      if n == names[i] {
        assert next[i].visible;
      } else {
        assert ShownAs(order, names, n);
        var j :| 0 <= j < |order| && order[j].visible && names[j] == n;
        assert next[j].visible;
      }
    }
    forall j | 0 <= j < |next| && next[j].visible
      ensures names[j] in after && after[names[j]] == Regular(Some(next[j].batch))
    {
      assert j != i ==> names[j] != names[i] && next[j] == order[j];
    }
    OneMoreName(dir, after, names[i]);
  }

  lemma OneMoreName(dir: Directory, after: Directory, added: string)
    requires !HasSuffix(added, TMP) && forall name :: name in after <==> name in dir || name == added
    ensures Incomplete(dir) <==> Incomplete(after)
  {
    if Incomplete(dir) {
      var name :| name in dir && HasSuffix(name, TMP);
      assert name in after;
    }
  }

  /** A power loss brings back an entry whose removal never reached the disk. */
  lemma ResurrectShows(dir: Directory, order: seq<Published>, tmp: bool, i: nat)
    requires Shows(dir, order, tmp) && RisingOrder(order) && i < |order|
    ensures Shows(dir[NameAt(order[i]) := Regular(Some(order[i].batch))], order[i := order[i].(visible := true)], tmp)
  {
    NamesProper(order);
    ShowAgain(dir, order, Names(order), tmp, i);
    assert Names(order[i := order[i].(visible := true)]) == Names(order);
  }

  function Cleared(dir: Directory): Directory { map name | name in dir && !HasSuffix(name, TMP) :: dir[name] }

  /** An operator clears the incomplete files. */
  lemma ClearShows(dir: Directory, order: seq<Published>, tmp: bool)
    requires Shows(dir, order, tmp) && RisingOrder(order)
    ensures Shows(Cleared(dir), order, false)
  {
    NamesProper(order);
    ClearAll(dir, order, Names(order), tmp);
  }

  lemma ClearAll(dir: Directory, order: seq<Published>, names: seq<string>, tmp: bool)
    requires |names| == |order| && ShowsAs(dir, order, names, tmp) && Proper(names)
    ensures ShowsAs(Cleared(dir), order, names, false)
  {
    forall i | 0 <= i < |order| && order[i].visible
      ensures names[i] in Cleared(dir) && Cleared(dir)[names[i]] == Regular(Some(order[i].batch))
    {
      assert !HasSuffix(names[i], TMP);
    }
  }

  /** Whether an entry would survive a power loss does not show. */
  lemma SyncShows(dir: Directory, order: seq<Published>, tmp: bool)
    requires Shows(dir, order, tmp)
    ensures Shows(dir, Synced(order), tmp)
  {
    assert Names(Synced(order)) == Names(order);
    forall name | name in dir && !HasSuffix(name, TMP) ensures ShownAs(Synced(order), Names(order), name) {
      assert ShownAs(order, Names(order), name);
      var i :| 0 <= i < |order| && order[i].visible && Names(order)[i] == name;
      assert Synced(order)[i].visible;
    }
  }

  // ---------------------------------------------------------------- every step

  ghost predicate TempAppears(dir: Directory, dir': Directory) {
    exists time: nat, id: BatchId :: dir' == dir[TempName(time, id) := Regular(None)]
  }

  /** What a step of the protocol does to the directory. */
  ghost predicate DirectoryStep(dir: Directory, w: World, s: Step, dir': Directory)
    requires Enabled(w, s)
  {
    match s
    case Save(b, time, _) => TempName(time, b.id) !in dir && dir' == Renamed(dir, TempName(time, b.id), FileName(time, b.id), b)
    case SaveFails(left) => if left then TempAppears(dir, dir') else dir' == dir
    case Crash(left) => if left then TempAppears(dir, dir') else dir' == dir
    case ReplayRemove(_) => dir' == dir - {NameAt(w.order[w.acked.value])}
    case Vanish(i) => dir' == dir - {NameAt(w.order[i])}
    case Resurrect(i) => dir' == dir[NameAt(w.order[i]) := Regular(Some(w.order[i].batch))]
    case ClearTemp => dir' == Cleared(dir)
    case _ => dir' == dir
  }

  /** Every step of the protocol keeps the directory and the protocol's view of it together. */
  lemma StepShows(dir: Directory, w: World, s: Step, dir': Directory)
    requires Sane(w) && Shows(dir, w.order, w.tmp) && RisingOrder(w.order)
    requires Enabled(w, s) && DirectoryStep(dir, w, s, dir') && RisingOrder(Next(w, s).order)
    ensures Shows(dir', Next(w, s).order, Next(w, s).tmp)
  {
    match s
    case Save(b, time, synced) => PublishShows(dir, w, b, time, synced);
    case SaveFails(left) => if left { TempShows(dir, w.order, w.tmp, dir'); }
    case Crash(left) => if left { TempShows(dir, w.order, w.tmp, dir'); }
    case ReplayRemove(synced) => UnlinkShows(dir, w, synced);
    case Vanish(i) => VanishShows(dir, w, i);
    case Resurrect(i) => ResurrectShows(dir, w.order, w.tmp, i);
    case ClearTemp => ClearShows(dir, w.order, w.tmp);
    case _ =>
  }

  lemma TempShows(dir: Directory, order: seq<Published>, tmp: bool, dir': Directory)
    requires Shows(dir, order, tmp) && RisingOrder(order) && TempAppears(dir, dir')
    ensures Shows(dir', order, true)
  {
    var time: nat, id: BatchId :| dir' == dir[TempName(time, id) := Regular(None)];
    FailedSaveShows(dir, order, tmp, time, id);
  }

  lemma PublishShows(dir: Directory, w: World, b: Batch, time: nat, synced: bool)
    requires Shows(dir, w.order, w.tmp) && TempName(time, b.id) !in dir
    requires RisingOrder(AfterSave(w, b, time, synced).order)
    ensures Shows(Renamed(dir, TempName(time, b.id), FileName(time, b.id), b), AfterSave(w, b, time, synced).order, w.tmp)
  {
    var order := w.order + [Published(b, time, true, false)];
    assert Publications(Synced(order)) == Publications(order);
    SaveShows(dir, w.order, w.tmp, b, time);
    SyncShows(Renamed(dir, TempName(time, b.id), FileName(time, b.id), b), order, w.tmp);
  }

  lemma UnlinkShows(dir: Directory, w: World, synced: bool)
    requires Shows(dir, w.order, w.tmp) && RisingOrder(w.order) && w.acked.Some? && w.acked.value < |w.order|
    ensures Shows(dir - {NameAt(w.order[w.acked.value])}, AfterReplayRemove(w, synced).order, w.tmp)
  {
    RemoveShows(dir, w.order, w.tmp, w.acked.value);
    SyncShows(dir - {NameAt(w.order[w.acked.value])}, Hidden(w.order, w.acked.value), w.tmp);
  }

  // ---------------------------------------------------------------- listing

  /** The visible publications, oldest first. */
  function Visible(order: seq<Published>): seq<Publication> {
    if order == [] then []
    else
      var last := order[|order| - 1];
      Visible(order[..|order| - 1]) + if last.visible then [PublicationOf(last)] else []
  }

  ghost predicate VisibleIn(order: seq<Published>, q: Publication) {
    exists j :: 0 <= j < |order| && order[j].visible && PublicationOf(order[j]) == q
  }

  lemma {:induction false} VisibleMembers(order: seq<Published>, q: Publication)
    ensures q in Visible(order) <==> VisibleIn(order, q)
  {
    if order != [] {
      var rest, last := order[..|order| - 1], order[|order| - 1];
      VisibleMembers(rest, q);
      if VisibleIn(order, q) {
        var j :| 0 <= j < |order| && order[j].visible && PublicationOf(order[j]) == q;
        if j < |rest| { assert rest[j] == order[j] && VisibleIn(rest, q); }
      }
      if VisibleIn(rest, q) {
        var j :| 0 <= j < |rest| && rest[j].visible && PublicationOf(rest[j]) == q;
        assert order[j] == rest[j];
      }
    }
  }

  lemma {:induction false} VisibleRising(order: seq<Published>)
    requires RisingOrder(order)
    ensures RisingTimes(Visible(order))
  {
    if order != [] {
      var rest, last := order[..|order| - 1], order[|order| - 1];
      var pubs := Publications(order);
      assert forall i :: 0 <= i < |rest| ==> Publications(rest)[i] == pubs[i];
      VisibleRising(rest);
      forall i | 0 <= i < |Visible(rest)| ensures Visible(rest)[i].time < last.time {
        VisibleMembers(rest, Visible(rest)[i]);
        var j :| 0 <= j < |rest| && rest[j].visible && PublicationOf(rest[j]) == Visible(rest)[i];
        assert pubs[j].time < pubs[|rest|].time;
      }
      assert last.time == pubs[|rest|].time <= MAX_INT64;
    }
  }

  lemma EveryFileVisible(dir: Directory, order: seq<Published>, names: seq<string>, name: string) returns (i: nat)
    requires names == Names(order) && ShowsAs(dir, order, names, false) && name in dir
    ensures i < |Visible(order)| && NameOf(Visible(order)[i]) == name
  {
    assert ShownAs(order, names, name);
    var j :| 0 <= j < |order| && order[j].visible && names[j] == name;
    VisibleMembers(order, PublicationOf(order[j]));
    i :| 0 <= i < |Visible(order)| && Visible(order)[i] == PublicationOf(order[j]);
  }

  lemma EveryVisibleFiled(dir: Directory, order: seq<Published>, names: seq<string>, i: nat)
    requires names == Names(order) && ShowsAs(dir, order, names, false) && i < |Visible(order)|
    ensures var p := Visible(order)[i]; NameOf(p) in dir && dir[NameOf(p)] == Regular(Some(p.batch))
  {
    VisibleMembers(order, Visible(order)[i]);
    var j :| 0 <= j < |order| && order[j].visible && PublicationOf(order[j]) == Visible(order)[i];
    assert names[j] in dir;
  }

  lemma DirectoryHoldsVisible(dir: Directory, order: seq<Published>)
    requires Shows(dir, order, false)
    ensures Holds(dir, Visible(order))
  {
    var pubs := Visible(order);
    forall name | name in dir ensures exists i :: 0 <= i < |pubs| && NameOf(pubs[i]) == name {
      var i := EveryFileVisible(dir, order, Names(order), name);
    }
    forall i | 0 <= i < |pubs| ensures NameOf(pubs[i]) in dir && dir[NameOf(pubs[i])] == Regular(Some(pubs[i].batch)) {
      EveryVisibleFiled(dir, order, Names(order), i);
    }
  }

  ghost predicate OfNode(order: seq<Published>, node: NodeId) { forall i :: 0 <= i < |order| ==> order[i].batch.node == node }

  lemma ListableIffComplete(dir: Directory, order: seq<Published>, names: seq<string>, tmp: bool, node: NodeId)
    requires |names| == |order| && ShowsAs(dir, order, names, tmp) && Proper(names) && OfNode(order, node)
    ensures AllListable(dir, node) <==> !tmp
  {
    if tmp {
      var name :| name in dir && HasSuffix(name, TMP);
      assert !Listable(dir, node, name);
    } else {
      forall name | name in dir ensures Listable(dir, node, name) {
        assert ShownAs(order, names, name);
        var i :| 0 <= i < |order| && order[i].visible && names[i] == name;
      }
    }
  }

  /** List refuses such a directory exactly when an incomplete file lies there. */
  lemma ListRefusedIff(dir: Directory, order: seq<Published>, tmp: bool, node: NodeId)
    requires Shows(dir, order, tmp) && RisingOrder(order) && OfNode(order, node)
    ensures AllListable(dir, node) <==> !tmp
  {
    NamesProper(order);
    ListableIffComplete(dir, order, Names(order), tmp, node);
  }

  /** The files of a listing, in order, are these publications. */
  ghost predicate Lists(files: seq<BatchFile>, pubs: seq<Publication>) {
    |files| == |pubs| &&
    forall i :: 0 <= i < |files| ==> files[i].name == NameOf(pubs[i]) && files[i].batch == pubs[i].batch
  }

  /** Otherwise the listing is the visible batches in the order they were published. */
  lemma ListShows(dir: Directory, order: seq<Published>, files: seq<BatchFile>)
    requires Shows(dir, order, false) && RisingOrder(order) && IsListing(dir, files)
    ensures Lists(files, Visible(order))
  {
    DirectoryHoldsVisible(dir, order);
    VisibleRising(order);
    ListedInPublicationOrder(dir, Visible(order), files);
  }

  // ---------------------------------------------------------------- the first file

  lemma {:induction false} NothingVisible(order: seq<Published>)
    ensures Visible(order) == [] <==> forall i :: 0 <= i < |order| ==> !order[i].visible
  {
    if order != [] {
      var rest, last := order[..|order| - 1], order[|order| - 1];
      NothingVisible(rest);
      if Visible(order) == [] {
        forall i | 0 <= i < |order| ensures !order[i].visible { assert i < |rest| ==> rest[i] == order[i]; }
      }
    }
  }

  /** The first visible publication heads the list, and hiding it leaves the rest. */
  lemma {:induction false} FirstHeads(order: seq<Published>, i: nat)
    requires FirstVisible(order, i)
    ensures Visible(order) == [PublicationOf(order[i])] + Visible(Hidden(order, i))
  {
    var rest, last := order[..|order| - 1], order[|order| - 1];
    if i == |rest| {
      NothingVisible(rest);
      assert Hidden(order, i)[..|rest|] == rest;
    } else {
      FirstHeads(rest, i);
      assert Hidden(order, i)[..|rest|] == Hidden(rest, i);
    }
  }

  lemma {:induction false} FirstExists(order: seq<Published>) returns (i: nat)
    requires Visible(order) != []
    ensures FirstVisible(order, i) && Visible(order)[0] == PublicationOf(order[i])
  {
    var rest, last := order[..|order| - 1], order[|order| - 1];
    if Visible(rest) == [] {
      NothingVisible(rest);
      i := |rest|;
      assert forall j :: 0 <= j < i ==> rest[j] == order[j];
    } else {
      i := FirstExists(rest);
      assert rest[i] == order[i] && forall j :: 0 <= j < i ==> rest[j] == order[j];
    }
  }

  lemma {:induction false} VisibleSynced(order: seq<Published>)
    ensures Visible(Synced(order)) == Visible(order)
  {
    if order != [] {
      VisibleSynced(order[..|order| - 1]);
      assert Synced(order)[..|order| - 1] == Synced(order[..|order| - 1]);
    }
  }

  /** The guard of the protocol's replay step is what List decides: a batch is next exactly when the
      directory can be listed and the batch's file comes first. */
  lemma ReplayGuardIsListing(dir: Directory, w: World, node: NodeId, i: nat, files: seq<BatchFile>)
    requires Shows(dir, w.order, w.tmp) && RisingOrder(w.order) && OfNode(w.order, node) && i < |w.order|
    requires AllListable(dir, node) ==> IsListing(dir, files)
    ensures !w.tmp && FirstVisible(w.order, i) <==>
            AllListable(dir, node) && |files| > 0 && files[0].name == NameAt(w.order[i])
  {
    ListRefusedIff(dir, w.order, w.tmp, node);
    if !w.tmp {
      ListShows(dir, w.order, files);
      if FirstVisible(w.order, i) { FirstHeads(w.order, i); }
      if |files| > 0 && files[0].name == NameAt(w.order[i]) {
        var j := FirstExists(w.order);
        SameNameSamePlace(w.order, i, j);
      }
    }
  }

  lemma SameNameSamePlace(order: seq<Published>, i: nat, j: nat)
    requires RisingOrder(order) && i < |order| && j < |order| && NameAt(order[i]) == NameAt(order[j])
    ensures i == j
  {
    NamesProper(order);
    assert Names(order)[i] == NameAt(order[i]) && Names(order)[j] == NameAt(order[j]);
  }
}
