/** The session registry as a table of leases with the source counts kept beside it
    (internal/session/registry.go). The counts per kind are recomputed from the table here; the class
    in Registry.dfy keeps them incrementally and is proved against this form. The source counts are
    incremental here too, because a closed lease that migrates makes them differ from the table. */
module SessionTable {
  import opened Wrappers
  import opened Model
  import opened IpRules
  import opened PortRules

  type LeaseId = nat
  type Callback = nat

  datatype Kind = TCP | XUDP

  /** A token bucket. A bucket is named by the installation that created it and by whom it
      serves, so two buckets are equal only when they are the same object. */
  datatype Bucket =
    | UserBucket(user: UserId, generation: nat, speed: real)
    | NodeBucket(generation: nat, speed: real)

  datatype Limits = Limits(
    tcpPerUser: nat, tcpGlobal: nat, handshakes: nat, xudpPerUser: nat, xudpGlobal: nat)

  datatype Reason =
    | Authorization | DisconnectIp | ForbiddenPort | ForbiddenIp | ConnectorLimit
    | TcpGlobal | TcpUser | XudpGlobal | XudpUser | HandshakeLimit | Destination | Dns

  /** A lease object. The last six fields are history: what the lease was admitted for, the credential its
      user had then, how often BindInterrupt ran and which callbacks were handed out to be run. */
  datatype Lease = Lease(
    user: UserId, source: Addr, kind: Kind,
    userRate: Option<Bucket>, nodeRate: Option<Bucket>,
    interrupt: Option<Callback>, revoked: bool,
    port: int, candidates: seq<Addr>, pinned: Option<Addr>, credential: string,
    binds: nat, handed: seq<Callback>)

  type SourceCounts = map<UserId, map<Addr, nat>>

  /** `sessions` is the registry's table; `detached` holds the leases already closed, which their
      holders may still call; `sources` counts leases per user and source. Buckets, tickets and
      callbacks are named by numbers. */
  datatype Table = Table(
    limits: Limits, nodeId: NodeId, nodeSpeed: real, nodeConnectors: int,
    users: map<UserId, User>,
    sessions: map<LeaseId, Lease>, detached: map<LeaseId, Lease>, sources: SourceCounts, nextId: nat,
    rejected: map<Reason, nat>,
    nodeLimiter: Option<Bucket>, userLimiters: map<UserId, Option<Bucket>>, generation: nat,
    closed: bool, tickets: set<nat>, nextTicket: nat)

  // ---------------------------------------------------------------- views

  function At(s: map<LeaseId, Lease>, u: UserId, a: Addr): set<LeaseId> {
    set i | i in s && s[i].user == u && s[i].source == a
  }

  function SourcesOf(s: map<LeaseId, Lease>, u: UserId): set<Addr> {
    set i | i in s && s[i].user == u :: s[i].source
  }

  function OfKind(s: map<LeaseId, Lease>, k: Kind): set<LeaseId> {
    set i | i in s && s[i].kind == k
  }

  function OfUserKind(s: map<LeaseId, Lease>, u: UserId, k: Kind): set<LeaseId> {
    set i | i in s && s[i].user == u && s[i].kind == k
  }

  function LiveAt(s: map<LeaseId, Lease>, u: UserId, a: Addr): set<LeaseId> {
    set i | i in s && s[i].user == u && s[i].source == a && !s[i].revoked
  }

  function LiveSources(s: map<LeaseId, Lease>, u: UserId): set<Addr> {
    set i | i in s && s[i].user == u && !s[i].revoked :: s[i].source
  }

  predicate Has(t: Table, i: LeaseId) { i in t.sessions || i in t.detached }

  function LeaseOf(t: Table, i: LeaseId): Lease
    requires Has(t, i)
  {
    if i in t.sessions then t.sessions[i] else t.detached[i]
  }

  function PutLease(t: Table, i: LeaseId, l: Lease): Table {
    if i in t.sessions then t.(sessions := t.sessions[i := l]) else t.(detached := t.detached[i := l])
  }

  // ---------------------------------------------------------------- source counts

  function Inner(m: SourceCounts, u: UserId): map<Addr, nat> { if u in m then m[u] else map[] }

  function CountAt(m: SourceCounts, u: UserId, a: Addr): nat { if a in Inner(m, u) then Inner(m, u)[a] else 0 }

  /** The number of sources the counts list for a user. */
  function ListedSources(m: SourceCounts, u: UserId): nat { |Inner(m, u)| }

  function AddSource(m: SourceCounts, u: UserId, a: Addr): SourceCounts {
    m[u := Inner(m, u)[a := CountAt(m, u, a) + 1]]
  }

  /** removeSourceLocked: the last count of a source goes with its entry, the last source of a user
      with the user's entry. */
  function RemoveSource(m: SourceCounts, u: UserId, a: Addr): SourceCounts {
    var inner := if CountAt(m, u, a) > 1 then Inner(m, u)[a := CountAt(m, u, a) - 1] else Inner(m, u) - {a};
    if inner == map[] then m - {u} else m[u := inner]
  }

  function MoveSource(m: SourceCounts, u: UserId, from: Addr, to: Addr): SourceCounts {
    AddSource(RemoveSource(m, u, from), u, to)
  }

  // ---------------------------------------------------------------- admission

  function Count(m: map<Reason, nat>, r: Reason): nat { if r in m then m[r] else 0 }

  function Reject(t: Table, r: Reason): Table {
    t.(rejected := t.rejected[r := Count(t.rejected, r) + 1])
  }

  /** What the first critical section and the target check hand to the second one. */
  datatype Pending = Pending(
    user: UserId, source: Addr, kind: Kind, port: int, candidates: seq<Addr>, pinned: Option<Addr>)

  predicate Pinned(p: Pending) { p.pinned.Some? ==> p.pinned.value in p.candidates }

  function LimitOf(t: Table, u: UserId): int
    requires u in t.users
  {
    EffectiveLimit(t.users[u].connectorLimit, t.nodeConnectors)
  }

  function CapacityReason(t: Table, p: Pending): Option<Reason>
    requires p.user in t.users
  {
    var limit := LimitOf(t, p.user);
    if limit > 0 && CountAt(t.sources, p.user, p.source) == 0 && ListedSources(t.sources, p.user) >= limit
    then Some(ConnectorLimit)
    else KindReason(t, p)
  }

  /** The limits per kind. */
  function KindReason(t: Table, p: Pending): Option<Reason> {
    if p.kind == TCP then
      if |OfKind(t.sessions, TCP)| >= t.limits.tcpGlobal then Some(TcpGlobal)
      else if |OfUserKind(t.sessions, p.user, TCP)| >= t.limits.tcpPerUser then Some(TcpUser)
      else None
    else
      if |OfKind(t.sessions, XUDP)| >= t.limits.xudpGlobal then Some(XudpGlobal)
      else if |OfUserKind(t.sessions, p.user, XUDP)| >= t.limits.xudpPerUser then Some(XudpUser)
      else None
  }

  function PolicyReason(u: User, source: Addr, port: int, candidates: seq<Addr>): Option<Reason> {
    if source in u.disconnectIPs then Some(DisconnectIp)
    else if PortBlocked(u.forbiddenPorts, port) then Some(ForbiddenPort)
    else if exists a :: a in candidates && IPBlocked(u.forbiddenIPs, a) then Some(ForbiddenIp)
    else None
  }

  function OpenReason(t: Table, p: Pending): Option<Reason> {
    if t.closed || p.user !in t.users then Some(Authorization)
    else
      var policy := PolicyReason(t.users[p.user], p.source, p.port, p.candidates);
      if policy.Some? then policy else CapacityReason(t, p)
  }

  function CurrentLimiter(t: Table, u: UserId): Option<Bucket> {
    if u in t.userLimiters then t.userLimiters[u] else None
  }

  function CurrentCredential(t: Table, u: UserId): string { if u in t.users then t.users[u].uuid else "" }

  function Admitted(t: Table, p: Pending): Lease {
    Lease(p.user, p.source, p.kind,
          CurrentLimiter(t, p.user), t.nodeLimiter,
          None, false, p.port, p.candidates, p.pinned, CurrentCredential(t, p.user), 0, [])
  }

  function Conclude(t: Table, p: Pending, reason: Option<Reason>): Table {
    if reason.Some? then Reject(t, reason.value)
    else t.(nextId := t.nextId + 1, sessions := t.sessions[t.nextId + 1 := Admitted(t, p)],
            sources := AddSource(t.sources, p.user, p.source))
  }

  /** The second critical section of Open. */
  function OpenCommit(t: Table, p: Pending): Table { Conclude(t, p, OpenReason(t, p)) }

  // ---------------------------------------------------------------- migration, release

  function RebindReason(t: Table, l: Lease, a: Addr): Option<Reason> {
    if l.user !in t.users then Some(Authorization)
    else if a in t.users[l.user].disconnectIPs then Some(DisconnectIp)
    else
      var limit := LimitOf(t, l.user);
      if limit > 0 && CountAt(t.sources, l.user, a) == 0 then
        var others := ListedSources(t.sources, l.user) - (if CountAt(t.sources, l.user, l.source) == 1 then 1 else 0);
        if others >= limit then Some(ConnectorLimit) else None
      else None
  }

  /** Whether Rebind moves the lease to a new source. */
  predicate Migrates(t: Table, l: Lease, a: Addr) {
    a != l.source && RebindError(t, l, a).None?
  }

  /** What Rebind reports to its caller. */
  function RebindError(t: Table, l: Lease, a: Addr): Option<Reason> {
    if t.closed || l.revoked then Some(Authorization)
    else if a == l.source then None
    else RebindReason(t, l, a)
  }

  function ConcludeRebind(t: Table, i: LeaseId, l: Lease, a: Addr, err: Option<Reason>): Table {
    if err.Some? then Reject(t, err.value) else if a == l.source then t else Moved(t, i, l, a)
  }

  function Rebind(t: Table, i: LeaseId, a: Addr): Table
    requires Has(t, i)
  {
    ConcludeRebind(t, i, LeaseOf(t, i), a, RebindError(t, LeaseOf(t, i), a))
  }

  /** The effect of a migration. Nothing tests that the lease is still in the table. */
  function Moved(t: Table, i: LeaseId, l: Lease, a: Addr): Table {
    PutLease(t.(sources := MoveSource(t.sources, l.user, l.source, a)), i, l.(source := a))
  }

  function CloseLease(t: Table, i: LeaseId): Table {
    if i in t.sessions then
      t.(sessions := t.sessions - {i}, detached := t.detached[i := t.sessions[i]],
         sources := RemoveSource(t.sources, t.sessions[i].user, t.sessions[i].source))
    else t
  }

  // ---------------------------------------------------------------- revocation

  function RevokeLease(l: Lease): Lease {
    if l.revoked then l
    else l.(revoked := true, handed := if l.interrupt.Some? then l.handed + [l.interrupt.value] else l.handed)
  }

  function RevokeSet(s: map<LeaseId, Lease>, which: set<LeaseId>): map<LeaseId, Lease> {
    map i | i in s :: if i in which then RevokeLease(s[i]) else s[i]
  }

  function IdsOfUsers(s: map<LeaseId, Lease>, users: set<UserId>): set<LeaseId> {
    set i | i in s && s[i].user in users
  }

  function RevokeUsers(t: Table, users: set<UserId>): Table {
    t.(sessions := RevokeSet(t.sessions, IdsOfUsers(t.sessions, users)))
  }

  function Shut(t: Table): Table {
    t.(closed := true, sessions := RevokeSet(t.sessions, IdsOfUsers(t.sessions, t.users.Keys)))
  }

  function BindLease(l: Lease, cb: Option<Callback>): Lease {
    l.(interrupt := cb, binds := l.binds + 1,
       handed := if l.revoked && cb.Some? then l.handed + [cb.value] else l.handed)
  }

  function Bind(t: Table, i: LeaseId, cb: Option<Callback>): Table
    requires Has(t, i)
  {
    PutLease(t, i, BindLease(LeaseOf(t, i), cb))
  }

  // ---------------------------------------------------------------- update

  function NewLimiter(b: Bucket): Option<Bucket> { if b.speed <= 0.0 then None else Some(b) }

  /** A user keeps its bucket while its speed stays the same. */
  function UserLimiterAfter(
    users: map<UserId, User>, limiters: map<UserId, Option<Bucket>>, generation: nat, u: User): Option<Bucket>
  {
    if u.id in users && users[u.id].speedLimit == u.speedLimit
    then if u.id in limiters then limiters[u.id] else None
    else NewLimiter(UserBucket(u.id, generation, u.speedLimit))
  }

  function LimitersAfter(
    users: map<UserId, User>, limiters: map<UserId, Option<Bucket>>, generation: nat, next: map<UserId, User>)
    : map<UserId, Option<Bucket>>
  {
    map id | id in next :: UserLimiterAfter(users, limiters, generation, next[id])
  }

  function NodeLimiterAfter(t: Table, node: Node): Option<Bucket> {
    if t.nodeLimiter.None? || t.nodeSpeed != node.speedLimit
    then NewLimiter(NodeBucket(t.generation + 1, node.speedLimit))
    else t.nodeLimiter
  }

  function Install(t: Table, next: Snapshot): Table {
    var users := UserMap(next.users);
    t.(nodeId := next.node.id, nodeSpeed := next.node.speedLimit, nodeConnectors := next.node.connectorLimit,
       users := users, nodeLimiter := NodeLimiterAfter(t, next.node),
       userLimiters := LimitersAfter(t.users, t.userLimiters, t.generation + 1, users),
       generation := t.generation + 1)
  }

  /** reflect.DeepEqual with DisconnectIPs cleared on both sides, negated. */
  predicate PolicyChanged(a: User, b: User) { a.(disconnectIPs := []) != b.(disconnectIPs := []) }

  predicate WholeUserRevoked(t: Table, next: Snapshot, u: UserId) {
    var users := UserMap(next.users);
    u in t.users && (u !in users || PolicyChanged(t.users[u], users[u]) || t.nodeSpeed != next.node.speedLimit)
  }

  function NewlyDisconnected(t: Table, next: Snapshot, u: UserId): set<Addr> {
    var users := UserMap(next.users);
    if u in t.users && u in users && !PolicyChanged(t.users[u], users[u])
    then set a | a in users[u].disconnectIPs && a !in t.users[u].disconnectIPs
    else {}
  }

  function RevokedByUpdate(t: Table, next: Snapshot): set<LeaseId> {
    set i | i in t.sessions &&
      (WholeUserRevoked(t, next, t.sessions[i].user) ||
       t.sessions[i].source in NewlyDisconnected(t, next, t.sessions[i].user))
  }

  /** The new snapshot installed and the leases it no longer allows revoked; connector limits come next. */
  function Revised(t: Table, next: Snapshot): Table {
    Install(t, next).(sessions := RevokeSet(t.sessions, RevokedByUpdate(t, next)))
  }

  ghost function Least(s: set<nat>): (m: nat)
    requires s != {}
    ensures m in s && forall x :: x in s ==> m <= x
  {
    LeastExists(s);
    var m :| m in s && forall x :: x in s ==> m <= x;
    m
  }

  lemma {:induction false} LeastExists(s: set<nat>)
    requires s != {}
    ensures exists m :: m in s && forall x :: x in s ==> m <= x
  {
    var y :| y in s;
    var below := set x | x in s && x < y;
    if below != {} {
      assert y in s && y !in below;
      LeastExists(below);
      var m :| m in below && forall x :: x in below ==> m <= x;
      forall x | x in s ensures m <= x {
        if x < y { assert x in below; }
      }
      assert m in s;
    } else {
      assert forall x :: x in s ==> x in below || y <= x;
    }
  }

  /** The age of each source still in use: its smallest live lease id. */
  ghost function Ages(s: map<LeaseId, Lease>, u: UserId): (ages: map<Addr, LeaseId>)
    ensures ages.Keys == LiveSources(s, u)
  {
    map a | a in LiveSources(s, u) ::
      var i :| i in s && s[i].user == u && !s[i].revoked && s[i].source == a;
      assert i in LiveAt(s, u, a);
      Least(LiveAt(s, u, a))
  }

  ghost function Older(ages: map<Addr, LeaseId>, a: Addr): set<Addr>
    requires a in ages
  {
    set b | b in ages && ages[b] < ages[a]
  }

  /** The `limit` oldest sources. */
  ghost function Oldest(ages: map<Addr, LeaseId>, limit: nat): set<Addr> {
    set a | a in ages && |Older(ages, a)| < limit
  }

  /** The live leases the connector loop cuts: those of a user with more listed sources than its limit
      that lie outside its oldest live sources. */
  ghost function OverLimit(t: Table): set<LeaseId> {
    set i | i in t.sessions && !t.sessions[i].revoked && t.sessions[i].user in t.users &&
      0 < LimitOf(t, t.sessions[i].user) < ListedSources(t.sources, t.sessions[i].user) &&
      t.sessions[i].source !in Oldest(Ages(t.sessions, t.sessions[i].user), LimitOf(t, t.sessions[i].user))
  }

  ghost function Enforced(t: Table): Table {
    t.(sessions := RevokeSet(t.sessions, OverLimit(t)))
  }

  ghost function Update(t: Table, next: Snapshot): Table { Enforced(Revised(t, next)) }

  /** The slice `ordered[limit:]` is out of range for user `u`: more sources than the limit are
      listed, but fewer than the limit are still un-revoked. */
  predicate SliceFails(t: Table, next: Snapshot, u: UserId)
    requires u in UserMap(next.users)
  {
    var limit := EffectiveLimit(UserMap(next.users)[u].connectorLimit, next.node.connectorLimit);
    && 0 < limit < ListedSources(t.sources, u)
    && |LiveSources(Revised(t, next).sessions, u)| < limit
  }

  predicate UpdatePanics(t: Table, next: Snapshot) {
    exists u :: u in UserMap(next.users) && SliceFails(t, next, u)
  }

  // ---------------------------------------------------------------- handshakes

  function Acquire(t: Table): Table {
    if t.closed || |t.tickets| >= t.limits.handshakes then Reject(t, HandshakeLimit)
    else t.(tickets := t.tickets + {t.nextTicket}, nextTicket := t.nextTicket + 1)
  }

  function Release(t: Table, ticket: nat): Table { t.(tickets := t.tickets - {ticket}) }

  // ---------------------------------------------------------------- runs

  datatype Step =
    | OpenStep(pending: Pending)
    | RebindStep(lease: LeaseId, source: Addr)
    | CloseStep(lease: LeaseId)
    | BindStep(lease: LeaseId, callback: Option<Callback>)
    | UpdateStep(next: Snapshot)
    | RevokeStep(users: set<UserId>)
    | ShutStep
    | AcquireStep
    | ReleaseStep(ticket: nat)
    | RejectStep(reason: Reason)

  /** What callers can do in a state. A panicking Update ends the process, so it starts no step. */
  ghost predicate Enabled(t: Table, step: Step) {
    match step
    case OpenStep(p) => Pinned(p)
    case RebindStep(i, _) => Has(t, i)
    case BindStep(i, _) => Has(t, i)
    case UpdateStep(next) => !UpdatePanics(t, next)
    case _ => true
  }

  ghost function After(t: Table, step: Step): Table
    requires Enabled(t, step)
  {
    match step
    case OpenStep(p) => OpenCommit(t, p)
    case RebindStep(i, a) => Rebind(t, i, a)
    case CloseStep(i) => CloseLease(t, i)
    case BindStep(i, cb) => Bind(t, i, cb)
    case UpdateStep(next) => Update(t, next)
    case RevokeStep(users) => RevokeUsers(t, users)
    case ShutStep => Shut(t)
    case AcquireStep => Acquire(t)
    case ReleaseStep(ticket) => Release(t, ticket)
    case RejectStep(r) => Reject(t, r)
  }

  ghost predicate Run(t: Table, steps: seq<Step>, t': Table)
    decreases |steps|
  {
    if steps == [] then t == t'
    else Enabled(t, steps[0]) && Run(After(t, steps[0]), steps[1..], t')
  }

  function Empty(limits: Limits): Table {
    Table(limits, 0, 0.0, 0, map[], map[], map[], map[], 0, map[], None, map[], 0, false, {}, 0)
  }

  /** New: an empty registry with its first snapshot installed. */
  function Initial(limits: Limits, first: Snapshot): Table { Install(Empty(limits), first) }
}
