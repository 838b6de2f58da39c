/** Runs of the accounting protocol together with the outbox directory. What replay may do is decided by
    the directory alone: List must accept it, and the file it puts first is the next batch. */
module OutboxRuns {
  import opened Wrappers
  import opened Text
  import opened Model
  import opened Accounting
  import opened Database
  import opened Outbox
  import opened OutboxView
  import opened Pipeline
  import opened PipelineSafety

  /** A step and the directory it leaves. */
  datatype Move = Move(step: Step, dir: Directory)

  /** List accepts the directory and puts the file of this name first. */
  ghost predicate ListsFirst(dir: Directory, node: NodeId, name: string) {
    AllListable(dir, node) && exists files: seq<BatchFile> :: IsListing(dir, files) && |files| > 0 && files[0].name == name
  }

  /** A step is possible. For replay it is the directory that says so; a save is of this node and at an
      int64 time. */
  ghost predicate Possible(dir: Directory, node: NodeId, w: World, s: Step) {
    match s
    case ReplayApply(i, _) => i < |w.order| && ListsFirst(dir, node, NameAt(w.order[i]))
    case Save(b, time, _) => Enabled(w, s) && time <= MAX_INT64 && b.node == node
    case _ => Enabled(w, s)
  }

  /** The directory is the one the protocol sees. */
  ghost predicate Follows(dir: Directory, node: NodeId, w: World) {
    Shows(dir, w.order, w.tmp) && OfNode(w.order, node) && w.clock <= MAX_INT64
  }

  /** What the directory allows, the protocol allows: replay meets the first visible batch, and only when
      no incomplete file lies there. */
  lemma PossibleIsEnabled(dir: Directory, node: NodeId, w: World, s: Step)
    requires Distinct(w) && Follows(dir, node, w) && Possible(dir, node, w, s)
    ensures Enabled(w, s)
  {
    if s.ReplayApply? {
      Rises(w);
      var files: seq<BatchFile> :| IsListing(dir, files) && |files| > 0 && files[0].name == NameAt(w.order[s.at]);
      ReplayGuardIsListing(dir, w, node, s.at, files);
    }
  }

  lemma SavedOfNode(w: World, b: Batch, time: nat, synced: bool, node: NodeId)
    requires OfNode(w.order, node) && b.node == node
    ensures OfNode(AfterSave(w, b, time, synced).order, node)
  {
  }

  lemma VanishedOfNode(w: World, i: nat, node: NodeId)
    requires OfNode(w.order, node) && i < |w.order|
    ensures OfNode(AfterVanish(w, i).order, node)
  {
    var next := AfterVanish(w, i).order;
    forall j | 0 <= j < |next| ensures next[j].batch.node == node {
      if i >= CommittedCount(w) { assert next[j] == w.order[if j < i then j else j + 1]; }
    }
  }

  lemma NextOfNode(dir: Directory, node: NodeId, w: World, s: Step)
    requires Sane(w) && Enabled(w, s) && Possible(dir, node, w, s) && OfNode(w.order, node) && w.clock <= MAX_INT64
    ensures OfNode(Next(w, s).order, node) && Next(w, s).clock <= MAX_INT64
  {
    match s
    case Save(b, time, synced) => SavedOfNode(w, b, time, synced, node);
    case Vanish(i) => VanishedOfNode(w, i, node);
    case _ =>
  }

  /** Every step keeps directory and protocol together. */
  lemma MoveFollows(start: Db, dir: Directory, node: NodeId, w: World, m: Move)
    requires Inv(start, w) && Follows(dir, node, w) && Possible(dir, node, w, m.step)
    requires Enabled(w, m.step) && DirectoryStep(dir, w, m.step, m.dir)
    ensures Inv(start, Next(w, m.step)) && Follows(m.dir, node, Next(w, m.step))
  {
    StepInv(start, w, m.step);
    NextOfNode(dir, node, w, m.step);
    Rises(w);
    Rises(Next(w, m.step));
    StepShows(dir, w, m.step, m.dir);
  }

  /** A run that the directory allows. What a step the protocol forbids would lead to is left open; there
      is none. */
  ghost predicate DirectoryRun(w: World, dir: Directory, node: NodeId, moves: seq<Move>, w': World, dir': Directory)
    decreases |moves|
  {
    if moves == [] then w == w' && dir == dir'
    else
      var m := moves[0];
      && Possible(dir, node, w, m.step)
      && (Sane(w) && Enabled(w, m.step) ==>
            DirectoryStep(dir, w, m.step, m.dir) && DirectoryRun(Next(w, m.step), m.dir, node, moves[1..], w', dir'))
  }

  function Steps(moves: seq<Move>): seq<Step> { seq(|moves|, i requires 0 <= i < |moves| => moves[i].step) }

  /** Such runs are runs of the protocol, and the directory follows them. */
  lemma {:induction false} DirectoryRunIsRun(
    start: Db, w: World, dir: Directory, node: NodeId, moves: seq<Move>, w': World, dir': Directory)
    requires Inv(start, w) && Follows(dir, node, w) && DirectoryRun(w, dir, node, moves, w', dir')
    ensures Run(w, Steps(moves), w') && Follows(dir', node, w')
    decreases |moves|
  {
    if moves != [] {
      var m := moves[0];
      PossibleIsEnabled(dir, node, w, m.step);
      MoveFollows(start, dir, node, w, m);
      DirectoryRunIsRun(start, Next(w, m.step), m.dir, node, moves[1..], w', dir');
      assert Steps(moves)[0] == m.step && Steps(moves)[1..] == Steps(moves[1..]);
    }
  }

  /** In every run that the directory allows, from an empty outbox: the committed batches are a prefix of
      publication order, a file is missing only when its batch is committed, and the database holds
      exactly the contributions of that prefix. */
  lemma ListedPrefix(first: Node, db: Db, node: NodeId, moves: seq<Move>, w: World, dir: Directory)
    requires db.applied == [] && DirectoryRun(Initial(first, db), map[], node, moves, w, dir)
    ensures CommittedCount(w) <= |w.order| && Settled(db, w.db)
    ensures forall i :: 0 <= i < CommittedCount(w) ==> w.db.applied[i] == w.order[i].batch
    ensures forall i :: CommittedCount(w) <= i < |w.order| ==>
              NameAt(w.order[i]) in dir && dir[NameAt(w.order[i])] == Regular(Some(w.order[i].batch))
  {
    InitialInv(first, db);
    DirectoryRunIsRun(db, Initial(first, db), map[], node, moves, w, dir);
    CommittedPrefix(first, db, Steps(moves), w);
    forall i | CommittedCount(w) <= i < |w.order|
      ensures NameAt(w.order[i]) in dir && dir[NameAt(w.order[i])] == Regular(Some(w.order[i].batch))
    {
      assert w.order[i].visible && Names(w.order)[i] == NameAt(w.order[i]);
    }
  }

  lemma IncompleteIsRefused(dir: Directory, node: NodeId)
    requires Incomplete(dir)
    ensures !AllListable(dir, node)
  {
    var name :| name in dir && HasSuffix(name, TMP);
    assert !Listable(dir, node, name);
  }

  /** An incomplete file stops replay: no step the directory allows changes the database. */
  lemma LeftoverFreezesDatabase(dir: Directory, node: NodeId, w: World, s: Step)
    requires Incomplete(dir) && Sane(w) && Possible(dir, node, w, s) && Enabled(w, s)
    ensures Next(w, s).db == w.db
  {
    IncompleteIsRefused(dir, node);
  }
}
