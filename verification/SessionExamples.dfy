/** Concrete runs of the registry that end where the code breaks its own promises: an update that
    panics, source counts that no longer match the table, and what follows from such counts. */
module SessionExamples {
  import opened Wrappers
  import opened Model
  import opened IpRules
  import opened SessionTable
  import opened SessionSafety
  import opened Ledger
  import opened SessionConnectors

  // ---------------------------------------------------------------- one user, limit two

  const LIMITS := Limits(5, 5, 5, 5, 5)

  function PanelNode(connectors: int): Node { Node(15, 1.0, 0.0, connectors, 1, "", "", "", "", "", "", "", "") }

  function PanelUser(limit: int): User { User(42, "", 0.0, limit, [], [], []) }

  function Panel(limit: int, connectors: int): Snapshot { Snapshot(PanelNode(connectors), [PanelUser(limit)]) }

  function Request(n: nat): Pending { Pending(42, V4(n), TCP, 443, [V4(9)], None) }

  function Held(n: nat): Lease { Lease(42, V4(n), TCP, None, None, None, false, 443, [V4(9)], None, "", 0, []) }

  lemma PanelUsers(limit: int, connectors: int)
    ensures UserMap(Panel(limit, connectors).users) == map[42 := PanelUser(limit)]
  {
    assert [PanelUser(limit)][..0] == [];
  }

  function New(): Table { Initial(LIMITS, Panel(2, 0)) }

  /** What the examples use of the new registry. */
  ghost predicate Begins(t: Table) {
    && t.users == map[42 := PanelUser(2)] && t.userLimiters == map[42 := None] && t.nodeLimiter == None
    && t.nodeConnectors == 0 && t.nodeSpeed == 0.0 && !t.closed && t.limits == LIMITS
    && t.sessions == map[] && t.detached == map[] && t.sources == map[] && t.nextId == 0
  }

  lemma NewBegins()
    ensures Begins(New())
  {
    PanelUsers(2, 0);
  }

  /** The registry with these leases and counts. */
  function State(t: Table, s: Leases, d: Leases, m: SourceCounts, next: nat): Table {
    t.(sessions := s, detached := d, sources := m, nextId := next)
  }

  // ---------------------------------------------------------------- steps on such states

  predicate Room(m: SourceCounts, n: nat) { CountAt(m, 42, V4(n)) > 0 || ListedSources(m, 42) < 2 }

  lemma RequestAdmitted(t: Table, s: Leases, d: Leases, m: SourceCounts, next: nat, n: nat)
    requires Begins(t) && |s| <= 3 && Room(m, n)
    ensures OpenReason(State(t, s, d, m, next), Request(n)) == None
    ensures Admitted(State(t, s, d, m, next), Request(n)) == Held(n)
  {
    SubsetSize(OfKind(s, TCP), s.Keys);
    SubsetSize(OfUserKind(s, 42, TCP), s.Keys);
    assert |s| == |s.Keys|;
    assert PolicyReason(PanelUser(2), V4(n), 443, [V4(9)]).None?;
    assert CapacityReason(State(t, s, d, m, next), Request(n)).None?;
  }

  lemma Enters(t: Table, s: Leases, d: Leases, m: SourceCounts, next: nat, n: nat)
    requires Admitted(State(t, s, d, m, next), Request(n)) == Held(n)
    ensures Conclude(State(t, s, d, m, next), Request(n), None) ==
            State(t, s[next + 1 := Held(n)], d, AddSource(m, 42, V4(n)), next + 1)
  {
  }

  lemma Rebinds(t: Table, s: Leases, d: Leases, m: SourceCounts, next: nat, i: LeaseId, from: nat, to: nat)
    requires Begins(t) && i !in s && i in d && d[i] == Held(from) && from != to && Room(m, to)
    ensures Rebind(State(t, s, d, m, next), i, V4(to)) ==
            State(t, s, d[i := Held(to)], MoveSource(m, 42, V4(from), V4(to)), next)
  {
    assert LimitOf(State(t, s, d, m, next), 42) == 2;
    assert RebindReason(State(t, s, d, m, next), Held(from), V4(to)).None?;
  }

  lemma {:induction false} RunSnoc(t: Table, steps: seq<Step>, t': Table, s: Step)
    requires Run(t, steps, t') && Enabled(t', s)
    ensures Run(t, steps + [s], After(t', s))
    decreases |steps|
  {
    if steps == [] {
      assert (steps + [s])[1..] == [];
    } else {
      RunSnoc(After(t, steps[0]), steps[1..], t', s);
      assert (steps + [s])[1..] == steps[1..] + [s];
    }
  }

  ghost predicate Leads(t: Table, t': Table) { exists steps :: Run(t, steps, t') }

  lemma Then(t: Table, t': Table, s: Step)
    requires Leads(t, t') && Enabled(t', s)
    ensures Leads(t, After(t', s))
  {
    var steps :| Run(t, steps, t');
    RunSnoc(t, steps, t', s);
  }

  ghost predicate Reach(t: Table, s: Leases, d: Leases, m: SourceCounts, next: nat) {
    Leads(t, State(t, s, d, m, next))
  }

  lemma ReachStart(t: Table)
    requires Begins(t)
    ensures Reach(t, map[], map[], map[], 0)
  {
    assert Run(t, [], t);
  }

  lemma ReachOpen(
    t: Table, s: Leases, d: Leases, m: SourceCounts, next: nat, n: nat, s': Leases, m': SourceCounts)
    requires Begins(t) && Reach(t, s, d, m, next) && |s| <= 3 && Room(m, n)
    requires s' == s[next + 1 := Held(n)] && m' == AddSource(m, 42, V4(n))
    ensures Reach(t, s', d, m', next + 1)
  {
    RequestAdmitted(t, s, d, m, next, n);
    Enters(t, s, d, m, next, n);
    Then(t, State(t, s, d, m, next), OpenStep(Request(n)));
  }

  lemma ReachClose(
    t: Table, s: Leases, d: Leases, m: SourceCounts, next: nat, i: LeaseId, n: nat,
    s': Leases, d': Leases, m': SourceCounts)
    requires Reach(t, s, d, m, next) && i in s && s[i] == Held(n)
    requires s' == s - {i} && d' == d[i := Held(n)] && m' == RemoveSource(m, 42, V4(n))
    ensures Reach(t, s', d', m', next)
  {
    Then(t, State(t, s, d, m, next), CloseStep(i));
  }

  lemma ReachRebind(
    t: Table, s: Leases, d: Leases, m: SourceCounts, next: nat, i: LeaseId, from: nat, to: nat,
    d': Leases, m': SourceCounts)
    requires Begins(t) && Reach(t, s, d, m, next)
    requires i !in s && i in d && d[i] == Held(from) && from != to && Room(m, to)
    requires d' == d[i := Held(to)] && m' == MoveSource(m, 42, V4(from), V4(to))
    ensures Reach(t, s, d', m', next)
  {
    Rebinds(t, s, d, m, next, i, from, to);
    Then(t, State(t, s, d, m, next), RebindStep(i, V4(to)));
  }

  // ---------------------------------------------------------------- the counts of the examples

  function One(a: nat, x: nat): SourceCounts { map[42 := map[V4(a) := x]] }

  function Two(a: nat, x: nat, b: nat, y: nat): SourceCounts { map[42 := map[V4(a) := x, V4(b) := y]] }

  lemma AddFirst(a: nat, x: nat)
    ensures AddSource(map[], 42, V4(a)) == One(a, 1) && AddSource(One(a, x), 42, V4(a)) == One(a, x + 1)
  {
    assert One(a, x)[42][V4(a) := x + 1] == One(a, x + 1)[42];
  }

  lemma AddSecond(a: nat, x: nat, b: nat, y: nat)
    requires a != b
    ensures AddSource(One(a, x), 42, V4(b)) == Two(a, x, b, 1)
    ensures AddSource(Two(a, x, b, y), 42, V4(a)) == Two(a, x + 1, b, y)
  {
    assert One(a, x)[42][V4(b) := 1] == Two(a, x, b, 1)[42];
    assert Two(a, x, b, y)[42][V4(a) := x + 1] == Two(a, x + 1, b, y)[42];
  }

  lemma RemoveOnly(a: nat, b: nat, y: nat)
    requires a != b
    ensures RemoveSource(map[], 42, V4(a)) == map[] && RemoveSource(One(a, 1), 42, V4(a)) == map[]
    ensures RemoveSource(One(a, 2), 42, V4(a)) == One(a, 1) && RemoveSource(One(b, y), 42, V4(a)) == One(b, y)
  {
    assert One(a, 1)[42] - {V4(a)} == map[] && One(a, 2)[42][V4(a) := 1] == One(a, 1)[42];
    assert One(b, y)[42] - {V4(a)} == One(b, y)[42] && V4(b) in One(b, y)[42];
  }

  lemma RemoveOfTwo(a: nat, b: nat, y: nat)
    requires a != b
    ensures RemoveSource(Two(a, 2, b, y), 42, V4(a)) == Two(a, 1, b, y)
    ensures RemoveSource(Two(a, 1, b, y), 42, V4(a)) == One(b, y)
  {
    assert Two(a, 2, b, y)[42][V4(a) := 1] == Two(a, 1, b, y)[42] && V4(b) in Two(a, 1, b, y)[42];
    assert Two(a, 1, b, y)[42] - {V4(a)} == One(b, y)[42] && V4(b) in One(b, y)[42];
  }

  lemma RoomIn(a: nat, x: nat, b: nat, y: nat, n: nat)
    requires a != b
    ensures Room(map[], n) && Room(One(a, x), n)
    ensures x > 0 ==> Room(Two(a, x, b, y), a)
    ensures y > 0 ==> Room(Two(a, x, b, y), b)
  {
  }

  // ---------------------------------------------------------------- leases of the examples

  function L1(a: nat): Leases { map[1 := Held(a)] }

  function L2(a: nat, b: nat): Leases { map[1 := Held(a), 2 := Held(b)] }

  // ---------------------------------------------------------------- the examples

  lemma OpenFirst(t: Table)
    requires Begins(t)
    ensures Reach(t, L1(1), map[], One(1, 1), 1)
  {
    ReachStart(t);
    AddFirst(1, 1);
    RoomIn(1, 1, 2, 1, 1);
    ReachOpen(t, map[], map[], map[], 0, 1, L1(1), One(1, 1));
  }

  lemma ReachTwoSources(t: Table)
    requires Begins(t)
    ensures Reach(t, L2(1, 2), map[], Two(1, 1, 2, 1), 2)
  {
    OpenFirst(t);
    AddSecond(1, 1, 2, 1);
    RoomIn(1, 1, 2, 1, 2);
    ReachOpen(t, L1(1), map[], One(1, 1), 1, 2, L2(1, 2), Two(1, 1, 2, 1));
  }

  lemma TwoSourcesMatch()
    ensures SourcesMatch(Two(1, 1, 2, 1), L2(1, 2))
  {
    BooksOfNothing();
    AddFirst(1, 1);
    AddSecond(1, 1, 2, 1);
    AddMatches(map[], map[], 1, Held(1));
    AddMatches(One(1, 1), L1(1), 2, Held(2));
    assert L1(1)[2 := Held(2)] == L2(1, 2);
  }

  /** A reachable breakdown with exact counts: one user, two open sources, own limit lowered to one. */
  lemma BreakdownIsReachable() returns (t: Table)
    ensures Leads(New(), t) && Exact(t) && UpdatePanics(t, Panel(1, 0))
  {
    NewBegins();
    t := State(New(), L2(1, 2), map[], Two(1, 1, 2, 1), 2);
    ReachTwoSources(New());
    TwoSourcesMatch();
    TwoSourcesPanic(New());
  }

  lemma TwoSourcesPanic(t: Table)
    requires Begins(t)
    ensures UpdatePanics(State(t, L2(1, 2), map[], Two(1, 1, 2, 1), 2), Panel(1, 0))
  {
    PanelUsers(1, 0);
    assert ListedSources(Two(1, 1, 2, 1), 42) == 2;
    LoweringOwnLimitPanics(State(t, L2(1, 2), map[], Two(1, 1, 2, 1), 2), Panel(1, 0), 42);
  }

  /** Open, Close and Rebind of one lease leave counts that no longer match the empty table. */
  lemma RebindBreaksCounts() returns (t: Table)
    ensures Leads(New(), t) && t.sessions == map[] && !Exact(t)
  {
    NewBegins();
    t := State(New(), map[], L1(2), One(2, 1), 1);
    ReachMovedAfterClose(New());
    assert At(t.sessions, 42, V4(2)) == {} && CountAt(One(2, 1), 42, V4(2)) == 1;
  }

  lemma CloseFirst(t: Table)
    requires Begins(t)
    ensures Reach(t, map[], L1(1), map[], 1)
  {
    OpenFirst(t);
    RemoveOnly(1, 2, 1);
    ReachClose(t, L1(1), map[], One(1, 1), 1, 1, 1, map[], L1(1), map[]);
  }

  lemma MoveFromNothing(a: nat, b: nat)
    requires a != b
    ensures MoveSource(map[], 42, V4(a), V4(b)) == One(b, 1)
  {
    RemoveOnly(a, b, 1);
    AddFirst(b, 1);
  }

  lemma ReachMovedAfterClose(t: Table)
    requires Begins(t)
    ensures Reach(t, map[], L1(2), One(2, 1), 1)
  {
    CloseFirst(t);
    MoveFromNothing(1, 2);
    RoomIn(1, 1, 2, 1, 2);
    ReachRebind(t, map[], L1(1), map[], 1, 1, 1, 2, L1(2), One(2, 1));
  }

  /** Two leases of one source, closed and then moved apart, list two sources for an empty table; an
      update that lowers the node's limit to one then panics without a single lease. */
  lemma EmptyTableCanPanic() returns (t: Table)
    ensures Leads(New(), t) && t.sessions == map[] && UpdatePanics(t, Panel(2, 1))
  {
    NewBegins();
    t := State(New(), map[], L2(2, 3), Two(2, 1, 3, 1), 2);
    ReachTwoClosed(New());
    ReachGhosts(New());
    GhostsPanic(New());
  }

  lemma GhostsPanic(t: Table)
    requires Begins(t)
    ensures UpdatePanics(State(t, map[], L2(2, 3), Two(2, 1, 3, 1), 2), Panel(2, 1))
  {
    var g := State(t, map[], L2(2, 3), Two(2, 1, 3, 1), 2);
    PanelUsers(2, 1);
    assert ListedSources(g.sources, 42) == 2;
    assert LiveSources(Revised(g, Panel(2, 1)).sessions, 42) == {};
    assert SliceFails(g, Panel(2, 1), 42);
  }

  lemma OpenSameTwice(t: Table)
    requires Begins(t)
    ensures Reach(t, L2(1, 1), map[], One(1, 2), 2)
  {
    OpenFirst(t);
    AddFirst(1, 1);
    RoomIn(1, 1, 2, 1, 1);
    ReachOpen(t, L1(1), map[], One(1, 1), 1, 1, L2(1, 1), One(1, 2));
  }

  lemma CloseSecond(t: Table)
    requires Reach(t, L2(1, 1), map[], One(1, 2), 2)
    ensures Reach(t, L1(1), map[2 := Held(1)], One(1, 1), 2)
  {
    RemoveOnly(1, 2, 1);
    ReachClose(t, L2(1, 1), map[], One(1, 2), 2, 2, 1, L1(1), map[2 := Held(1)], One(1, 1));
  }

  lemma ReachTwoClosed(t: Table)
    requires Begins(t)
    ensures Reach(t, map[], L2(1, 1), map[], 2)
  {
    OpenSameTwice(t);
    CloseSecond(t);
    RemoveOnly(1, 2, 1);
    ReachClose(t, L1(1), map[2 := Held(1)], One(1, 1), 2, 1, 1, map[], L2(1, 1), map[]);
  }

  lemma MoveFirstGhost(t: Table)
    requires Begins(t) && Reach(t, map[], L2(1, 1), map[], 2)
    ensures Reach(t, map[], L2(2, 1), One(2, 1), 2)
  {
    MoveFromNothing(1, 2);
    RoomIn(2, 1, 3, 1, 2);
    ReachRebind(t, map[], L2(1, 1), map[], 2, 1, 1, 2, L2(2, 1), One(2, 1));
  }

  lemma MoveFromElsewhere(a: nat, b: nat, c: nat)
    requires a != b && b != c
    ensures MoveSource(One(b, 1), 42, V4(a), V4(c)) == Two(b, 1, c, 1)
  {
    RemoveOnly(a, b, 1);
    AddSecond(b, 1, c, 1);
  }

  lemma ReachGhosts(t: Table)
    requires Begins(t) && Reach(t, map[], L2(1, 1), map[], 2)
    ensures Reach(t, map[], L2(2, 3), Two(2, 1, 3, 1), 2)
  {
    MoveFirstGhost(t);
    MoveFromElsewhere(1, 2, 3);
    RoomIn(2, 1, 3, 1, 3);
    ReachRebind(t, map[], L2(2, 1), One(2, 1), 2, 2, 1, 3, L2(2, 3), Two(2, 1, 3, 1));
  }

  function ThreeOpen(): Leases { L2(1, 2)[4 := Held(4)] }

  /** With a limit of two, moving a closed lease onto another source hides an open one, and a third
      source is admitted. */
  lemma LimitCanBeOverrun() returns (t: Table)
    ensures Leads(New(), t) && 42 in t.users && LimitOf(t, 42) == 2 && |SourcesOf(t.sessions, 42)| == 3
  {
    NewBegins();
    t := State(New(), ThreeOpen(), map[3 := Held(2)], Two(2, 2, 4, 1), 4);
    ReachThree(New());
    ThreeSources();
  }

  lemma ThreeSources()
    ensures |SourcesOf(ThreeOpen(), 42)| == 3
  {
    var s := ThreeOpen();
    assert s[1].source == V4(1) && s[2].source == V4(2) && s[4].source == V4(4);
    assert SourcesOf(s, 42) == {V4(1), V4(2), V4(4)};
  }

  lemma OpenThird(t: Table)
    requires Begins(t) && Reach(t, L2(1, 2), map[], Two(1, 1, 2, 1), 2)
    ensures Reach(t, L2(1, 2)[3 := Held(1)], map[], Two(1, 2, 2, 1), 3)
  {
    AddSecond(1, 1, 2, 1);
    RoomIn(1, 1, 2, 1, 1);
    ReachOpen(t, L2(1, 2), map[], Two(1, 1, 2, 1), 2, 1, L2(1, 2)[3 := Held(1)], Two(1, 2, 2, 1));
  }

  lemma CloseThird(t: Table)
    requires Reach(t, L2(1, 2)[3 := Held(1)], map[], Two(1, 2, 2, 1), 3)
    ensures Reach(t, L2(1, 2), map[3 := Held(1)], Two(1, 1, 2, 1), 3)
  {
    var three := L2(1, 2)[3 := Held(1)];
    RemoveOfTwo(1, 2, 1);
    assert three - {3} == L2(1, 2);
    ReachClose(t, three, map[], Two(1, 2, 2, 1), 3, 3, 1, L2(1, 2), map[3 := Held(1)], Two(1, 1, 2, 1));
  }

  lemma MoveThird(t: Table)
    requires Begins(t) && Reach(t, L2(1, 2), map[3 := Held(1)], Two(1, 1, 2, 1), 3)
    ensures Reach(t, L2(1, 2), map[3 := Held(2)], One(2, 2), 3)
  {
    RemoveOfTwo(1, 2, 1);
    AddFirst(2, 1);
    RoomIn(1, 1, 2, 1, 2);
    ReachRebind(t, L2(1, 2), map[3 := Held(1)], Two(1, 1, 2, 1), 3, 3, 1, 2, map[3 := Held(2)], One(2, 2));
  }

  lemma ReachThree(t: Table)
    requires Begins(t)
    ensures Reach(t, ThreeOpen(), map[3 := Held(2)], Two(2, 2, 4, 1), 4)
  {
    ReachTwoSources(t);
    OpenThird(t);
    CloseThird(t);
    MoveThird(t);
    AddSecond(2, 2, 4, 1);
    RoomIn(2, 2, 4, 1, 4);
    ReachOpen(t, L2(1, 2), map[3 := Held(2)], One(2, 2), 3, 4, ThreeOpen(), Two(2, 2, 4, 1));
  }
}
