/** Panel data: node, user and snapshot (internal/model/model.go). */
module Model {
  import opened Wrappers
  import opened Text
  import opened IpRules

  type UserId = int
  type NodeId = int

  datatype Node = Node(
    id: NodeId,
    trafficRate: real,
    speedLimit: real,
    connectorLimit: int,
    configVersion: nat,
    serverName: string,
    target: string,
    publicKey: string,
    shortId: string,
    fingerprint: string,
    flow: string,
    transport: string,
    minClientVersion: string)

  datatype User = User(
    id: UserId,
    uuid: string,
    speedLimit: real,
    connectorLimit: int,
    forbiddenIPs: seq<Rule>,
    forbiddenPorts: seq<string>,
    disconnectIPs: seq<Addr>)

  datatype Snapshot = Snapshot(node: Node, users: seq<User>)

  /** Users indexed by id; a repeated id keeps its last user. */
  function UserMap(users: seq<User>): (m: map<UserId, User>)
    ensures forall id :: id in m ==> m[id] in users && m[id].id == id
    ensures forall u :: u in users ==> u.id in m
  {
    if users == [] then map[]
    else
      var last := users[|users| - 1];
      var m := UserMap(users[..|users| - 1])[last.id := last];
      assert users == users[..|users| - 1] + [last];
      m
  }

  // ---------------------------------------------------------------- sorted ids

  ghost predicate RisingIds(ids: seq<UserId>) { forall i, j :: 0 <= i < j < |ids| ==> ids[i] < ids[j] }

  function InsertId(xs: seq<UserId>, u: UserId): (r: seq<UserId>)
    requires RisingIds(xs) && u !in xs
    ensures RisingIds(r) && forall v :: v in r <==> v in xs || v == u
  {
    if xs == [] then [u]
    else if u < xs[0] then
      assert forall v :: v in [u] + xs <==> v in xs || v == u;
      [u] + xs
    else
      var rest := InsertId(xs[1..], u);
      assert forall v :: v in xs <==> v == xs[0] || v in xs[1..] by { assert xs == [xs[0]] + xs[1..]; }
      assert forall j :: 0 <= j < |rest| ==> xs[0] < rest[j] by {
        forall j | 0 <= j < |rest| ensures xs[0] < rest[j] { assert rest[j] in rest; }
      }
      [xs[0]] + rest
  }

  function Ids(xs: seq<UserId>): set<UserId> { set u | u in xs }

  /** The ids of a map's keys, sorted. */
  method SortIds(ids: set<UserId>) returns (sorted: seq<UserId>)
    ensures RisingIds(sorted) && Ids(sorted) == ids
  {
    sorted := [];
    var todo := ids;
    while exists u :: u in todo
      decreases todo
      invariant todo <= ids && RisingIds(sorted)
      invariant forall u :: u in sorted <==> u in ids && u !in todo
    {
      var u :| u in todo;
      todo := todo - {u};
      sorted := InsertId(sorted, u);
    }
    assert forall u :: u in Ids(sorted) <==> u in ids;
  }

  lemma IdsSnoc(xs: seq<UserId>, i: nat)
    requires RisingIds(xs) && i < |xs|
    ensures Ids(xs[..i + 1]) == Ids(xs[..i]) + {xs[i]} && xs[i] !in Ids(xs[..i])
  {
    assert xs[..i + 1] == xs[..i] + [xs[i]];
  }

  lemma IdsTail(xs: seq<UserId>, i: nat)
    requires RisingIds(xs) && i < |xs|
    ensures Ids(xs[i..]) == Ids(xs[i + 1..]) + {xs[i]} && xs[i] !in Ids(xs[i + 1..])
  {
    assert xs[i..] == [xs[i]] + xs[i + 1..];
  }

  // ---------------------------------------------------------------- identities

  function EmailPrefix(node: NodeId): string
    requires node >= 0
  {
    "sspanel-node-" + Itoa(node) + "-user-"
  }

  function UserEmail(node: NodeId, user: UserId): string
    requires node >= 0 && user >= 0
  {
    EmailPrefix(node) + Itoa(user)
  }

  function TrimPrefix(s: string, p: string): string {
    if p <= s then s[|p|..] else s
  }

  /** Registry.userID: the user an identity names, with the canonical-form check. */
  function UserIdOf(node: NodeId, email: string): Option<UserId>
    requires node >= 0
  {
    if !(EmailPrefix(node) <= email) then None
    else
      var id := Atoi(TrimPrefix(email, EmailPrefix(node)));
      if id.None? || id.value <= 0 || email != EmailPrefix(node) + Itoa(id.value) then None else id
  }

  /** Identities and user ids correspond one to one on a node. */
  lemma UserIdentityExact(node: NodeId, email: string, user: UserId)
    requires node >= 0
    ensures UserIdOf(node, email) == Some(user) <==> 0 < user <= MAX_INT64 && email == UserEmail(node, user)
  {
    if 0 < user <= MAX_INT64 && email == UserEmail(node, user) {
      assert EmailPrefix(node) <= email;
      assert TrimPrefix(email, EmailPrefix(node)) == Itoa(user);
      AtoiOfItoa(user);
    }
  }

  lemma UserEmailInjective(node: NodeId, a: UserId, b: UserId)
    requires node >= 0 && a >= 0 && b >= 0
    requires UserEmail(node, a) == UserEmail(node, b)
    ensures a == b
  {
    assert UserEmail(node, a)[|EmailPrefix(node)|..] == Itoa(a);
    assert UserEmail(node, b)[|EmailPrefix(node)|..] == Itoa(b);
    ItoaInjective(a, b);
  }

  lemma DigitsEndAtDash(a: string, x: string, b: string, y: string)
    requires AllDigits(a) && AllDigits(b) && a + ("-" + x) == b + ("-" + y)
    ensures a == b
  {
    var s, t := a + ("-" + x), b + ("-" + y);
    assert s[|a|] == '-' && t[|b|] == '-';
    assert forall i :: 0 <= i < |a| ==> IsDigit(s[i]);
    assert forall i :: 0 <= i < |b| ==> IsDigit(t[i]);
    assert s[..|a|] == a && t[..|b|] == b;
  }

  /** Identities of different nodes are different. */
  lemma UserEmailNamesNode(m: NodeId, a: UserId, n: NodeId, b: UserId)
    requires m >= 0 && n >= 0 && a >= 0 && b >= 0 && UserEmail(m, a) == UserEmail(n, b)
    ensures m == n && a == b
  {
    var head := "sspanel-node-";
    assert UserEmail(m, a) == head + (Itoa(m) + ("-" + ("user-" + Itoa(a))));
    assert UserEmail(n, b) == head + (Itoa(n) + ("-" + ("user-" + Itoa(b))));
    assert UserEmail(m, a)[|head|..] == UserEmail(n, b)[|head|..];
    DigitsEndAtDash(Itoa(m), "user-" + Itoa(a), Itoa(n), "user-" + Itoa(b));
    ItoaInjective(m, n);
    UserEmailInjective(m, a, b);
  }

  // ---------------------------------------------------------------- limits

  /** The connector limit in force: the smaller of the positive ones, none when neither is. */
  function EffectiveLimit(user: int, node: int): (r: int)
    ensures r > 0 <==> user > 0 || node > 0
    ensures user > 0 ==> r <= user
    ensures node > 0 ==> r <= node
    ensures r > 0 ==> r == user || r == node
  {
    if user <= 0 then node else if node <= 0 || user < node then user else node
  }

  /** The node settings whose change needs a full restart. */
  predicate DataPlaneNodeEqual(a: Node, b: Node) {
    && a.id == b.id && a.trafficRate == b.trafficRate && a.serverName == b.serverName && a.target == b.target
    && a.publicKey == b.publicKey && a.shortId == b.shortId && a.fingerprint == b.fingerprint
    && a.flow == b.flow && a.transport == b.transport && a.minClientVersion == b.minClientVersion
  }
  /** Nothing but the limits of users and the version of the node's configuration has changed. */
  predicate OnlyLimitsChange(a: Node, b: Node) {
    b == a.(speedLimit := b.speedLimit, connectorLimit := b.connectorLimit, configVersion := b.configVersion)
  }

  /** The comparison ignores exactly speed limit, connector limit and version. */
  lemma RestartNeededIff(a: Node, b: Node)
    ensures DataPlaneNodeEqual(a, b) <==> OnlyLimitsChange(a, b)
  {
  }

  /** The part of the inbound's configuration that comes from the node's settings. The public key stands for
      the private one it must belong to. */
  datatype Inbound = Inbound(
    nodeId: NodeId, flow: string, target: string, serverName: string, publicKey: string, shortId: string,
    minClientVersion: string)

  function InboundOf(n: Node): Inbound {
    Inbound(n.id, n.flow, n.target, n.serverName, n.publicKey, n.shortId, n.minClientVersion)
  }

  /** Without a restart the inbound would be configured the same way. */
  lemma SameInbound(a: Node, b: Node)
    requires DataPlaneNodeEqual(a, b)
    ensures InboundOf(a) == InboundOf(b)
  {
  }

  /** The users of a snapshot: of several with one id the last counts. */
  lemma {:induction false} LastUserCounts(users: seq<User>, i: nat)
    requires i < |users| && forall j :: i < j < |users| ==> users[j].id != users[i].id
    ensures users[i].id in UserMap(users) && UserMap(users)[users[i].id] == users[i]
  {
    if i < |users| - 1 { LastUserCounts(users[..|users| - 1], i); }
  }
}
