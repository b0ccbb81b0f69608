/** The socket registry: handshake, authentication with its wait in the middle,
    eviction, delivery, liveness and teardown, one event at a time.
 */
module Sockets {
  import opened Schema

  type User = nat

  const NO_EXPIRY_CAP: int := 3600000

  type Positive = n: nat | n > 0 witness 1

  /** Sockets one user may hold, sockets that may wait for authentication, and the
      ping interval in milliseconds. */
  datatype Options = Options(maxPerUser: Positive, maxPending: Positive, pingInterval: Positive)

  const DEFAULTS: Options := Options(5, 200, 25000)

  datatype Ready = Opened | Closing | Shut

  datatype Frame =
    | ReadyFrame
    | Ping
    | Resync
    | CallChanged(event: nat)

  /** A socket and what the server remembers about it. `closed` is set by the close
      event; `ready` leaves Opened as soon as either side starts closing. */
  datatype Conn = Conn(
    ready: Ready,
    user: Option<User>,
    expiresAt: int,
    lastSeen: int,
    authTimer: bool,
    verifying: bool,
    closed: bool,
    sent: seq<Frame>)

  /** A user's sockets are kept oldest first. */
  datatype Registry = Registry(
    conns: seq<Conn>,
    pending: set<nat>,
    byUser: map<User, seq<nat>>,
    healthy: bool,
    enabled: bool,
    attached: bool,
    opts: Options)

  datatype Input = Binary | BadJson | BadFrame | Auth(token: bool) | Pong | Unknown
  datatype Verdict = Valid(user: User, expiresAt: Option<int>) | Invalid

  function Fresh(enabled: bool, opts: Options): Registry {
    Registry([], {}, map[], false, enabled, true, opts)
  }

  // ── One socket ───────────────────────────────────────────────────────────

  /** close() and terminate(): the close event follows later. */
  function Shutting(x: Conn): Conn {
    if x.ready == Opened then x.(ready := Closing) else x
  }

  /** A socket with too much unread output is terminated instead. */
  function Given(x: Conn, frame: Frame, full: bool): Conn {
    if x.ready != Opened then x
    else if full then Shutting(x)
    else x.(sent := x.sent + [frame])
  }

  predicate InSet(g: Registry, u: User, c: nat) {
    u in g.byUser && c in g.byUser[u]
  }

  predicate Registered(g: Registry, c: nat) {
    exists u :: u in g.byUser && c in g.byUser[u]
  }

  function Put(g: Registry, c: nat, x: Conn): Registry
    requires c < |g.conns|
  {
    g.(conns := g.conns[c := x])
  }

  // ── Handshake and authentication ─────────────────────────────────────────

  function Upgrade(g: Registry, now: int): Registry {
    if !g.attached || !g.enabled || !g.healthy || |g.pending| >= g.opts.maxPending then g
    else g.(conns := g.conns + [Conn(Opened, None, 0, now, true, false, false, [])],
            pending := g.pending + {|g.conns|})
  }

  /** Frames can still arrive while a socket is closing, but not after. */
  function OnMessage(g: Registry, c: nat, input: Input, now: int): Registry {
    if c >= |g.conns| || g.conns[c].ready == Shut then g
    else
      var x := g.conns[c].(lastSeen := now);
      match input
      case Binary => Put(g, c, Shutting(x))
      case BadJson => Put(g, c, Shutting(x))
      case BadFrame => Put(g, c, Shutting(x))
      case Auth(token) =>
        if x.user.Some? || x.verifying then Put(g, c, x)
        else if !token then Put(g, c, Shutting(x))
        else Put(g, c, x.(verifying := true))
      case Pong => Put(g, c, x)
      case Unknown => Put(g, c, if x.user.None? then Shutting(x) else x)
  }

  /** How many of a user's sockets go to make room for one more. */
  function Excess(own: seq<nat>, limit: Positive): nat {
    if |own| < limit then 0 else |own| - limit + 1
  }

  /** Close a user's oldest sockets until there is room for one more. */
  function EvictConns(conns: seq<Conn>, own: seq<nat>, limit: Positive): seq<Conn>
    decreases |own|
  {
    if |own| < limit then conns
    else EvictConns(if own[0] < |conns| then conns[own[0] := Shutting(conns[own[0]])] else conns, own[1..], limit)
  }

  function SocketsOf(g: Registry, u: User): seq<nat> {
    if u in g.byUser then g.byUser[u] else []
  }

  /** The rest of authenticate() after the wait: the peer may have gone and the source
      may have failed meanwhile. */
  function OnVerified(g: Registry, c: nat, verdict: Verdict, now: int, full: bool): Registry {
    if c >= |g.conns| || !g.conns[c].verifying then g
    else
      var x := g.conns[c].(verifying := false);
      if verdict.Invalid? then Put(g, c, if x.closed then x else Shutting(x))
      else if x.closed then Put(g, c, x)
      else if !g.healthy then Put(g, c, Shutting(x))
      else
        var u := verdict.user;
        var own := SocketsOf(g, u);
        var expiry := if verdict.expiresAt.Some? then verdict.expiresAt.value else now + NO_EXPIRY_CAP;
        var known := x.(authTimer := false, user := Some(u), expiresAt := expiry);
        g.(conns := EvictConns(g.conns[c := Given(known, ReadyFrame, full)], own, g.opts.maxPerUser), pending := g.pending - {c},
           byUser := g.byUser[u := own[Excess(own, g.opts.maxPerUser)..] + [c]])
  }

  function OnAuthTimeout(g: Registry, c: nat): Registry {
    if c >= |g.conns| || !g.conns[c].authTimer then g
    else
      var x := g.conns[c].(authTimer := false);
      Put(g, c, if x.closed then x else Shutting(x))
  }

  // ── Delivery, liveness, teardown ─────────────────────────────────────────

  /** Only the sockets of the two parties named on the call. */
  function Route(g: Registry, fan: User, partner: User, event: nat, full: set<nat>): Registry {
    g.(conns := seq(|g.conns|, c requires 0 <= c < |g.conns| =>
      if InSet(g, fan, c) || InSet(g, partner, c) then Given(g.conns[c], CallChanged(event), c in full) else g.conns[c]))
  }

  function Broadcast(g: Registry, full: set<nat>): Registry {
    g.(conns := seq(|g.conns|, c requires 0 <= c < |g.conns| =>
      if Registered(g, c) then Given(g.conns[c], Resync, c in full) else g.conns[c]))
  }

  /** Two and a half ping intervals without any frame. */
  predicate Silent(x: Conn, now: int, opts: Options) { 2 * (now - x.lastSeen) > 5 * opts.pingInterval }

  function Ticked(x: Conn, now: int, full: bool, opts: Options): Conn {
    if x.expiresAt <= now then (if x.closed then x else Shutting(x))
    else if Silent(x, now, opts) then Shutting(x)
    else Given(x, Ping, full)
  }

  function Tick(g: Registry, now: int, full: set<nat>): Registry {
    g.(conns := seq(|g.conns|, c requires 0 <= c < |g.conns| =>
      if Registered(g, c) then Ticked(g.conns[c], now, c in full, g.opts) else g.conns[c]))
  }

  function CloseAll(g: Registry): Registry {
    g.(conns := seq(|g.conns|, c requires 0 <= c < |g.conns| =>
      if c in g.pending || Registered(g, c) then Shutting(g.conns[c]) else g.conns[c]))
  }

  function OnHealth(g: Registry, healthy: bool): Registry {
    if healthy == g.healthy then g
    else if healthy then g.(healthy := true)
    else CloseAll(g.(healthy := false))
  }

  /** destroy(): no more upgrades, and every socket is told to go. */
  function Detach(g: Registry): Registry {
    CloseAll(g.(attached := false))
  }

  /** The peer, or a failed send, starts closing the socket. */
  function PeerLeaves(g: Registry, c: nat): Registry {
    if c >= |g.conns| then g else Put(g, c, Shutting(g.conns[c]))
  }

  function Without(own: seq<nat>, c: nat): (rest: seq<nat>)
    ensures forall x :: x in rest <==> x in own && x != c
    ensures |rest| <= |own|
  {
    if |own| == 0 then []
    else
      assert own == own[..|own| - 1] + [own[|own| - 1]];
      if own[|own| - 1] == c then Without(own[..|own| - 1], c)
      else Without(own[..|own| - 1], c) + [own[|own| - 1]]
  }

  /** The close event: forget the socket, and its user once no socket is left. */
  function OnClose(g: Registry, c: nat): Registry {
    if c >= |g.conns| || g.conns[c].closed then g
    else
      var x := g.conns[c].(ready := Shut, closed := true, authTimer := false);
      var shut := Put(g, c, x).(pending := g.pending - {c});
      if x.user.None? || x.user.value !in g.byUser then shut
      else
        var u := x.user.value;
        var rest := Without(g.byUser[u], c);
        shut.(byUser := if rest == [] then g.byUser - {u} else g.byUser[u := rest])
  }

  // ── The registry invariant ───────────────────────────────────────────────

  predicate Distinct(own: seq<nat>) {
    forall i, j :: 0 <= i < j < |own| ==> own[i] != own[j]
  }

  predicate UserSetOk(g: Registry, u: User)
    requires u in g.byUser
  {
    var own := g.byUser[u];
    && 0 < |own| <= g.opts.maxPerUser && Distinct(own)
    && forall c :: c in own ==> c < |g.conns| && !g.conns[c].closed && g.conns[c].user == Some(u)
  }

  predicate ConnOk(g: Registry, c: nat)
    requires c < |g.conns|
  {
    var x := g.conns[c];
    && (x.closed <==> x.ready == Shut)
    && (x.verifying ==> x.user.None?)
    && (!x.closed && x.user.None? ==> c in g.pending)
    && (x.ready == Opened ==> g.healthy && g.attached && g.enabled)
    && (x.ready == Opened && x.user.Some? ==> InSet(g, x.user.value, c))
  }

  predicate RegistryOk(g: Registry) {
    && (forall c :: c in g.pending ==> c < |g.conns| && !g.conns[c].closed && g.conns[c].user.None?)
    && |g.pending| <= g.opts.maxPending
    && (forall u :: u in g.byUser ==> UserSetOk(g, u))
    && (forall c :: 0 <= c < |g.conns| ==> ConnOk(g, c))
  }

  /** Waiting and authenticated sockets are never the same, and none of them is
      closed. */
  lemma PendingAndRegisteredAreDisjoint(g: Registry, c: nat)
    requires RegistryOk(g) && Registered(g, c)
    ensures c !in g.pending && c < |g.conns| && !g.conns[c].closed
    ensures forall u: User :: InSet(g, u, c) <==> g.conns[c].user == Some(u) && u in g.byUser
  {
    var u :| u in g.byUser && c in g.byUser[u];
    assert UserSetOk(g, u);
    forall v: User ensures InSet(g, v, c) <==> g.conns[c].user == Some(v) && v in g.byUser {
      if v in g.byUser { assert UserSetOk(g, v); }
    }
  }

  /** The step relation the registry allows between two states: sockets are only
      added, a user is assigned once and frames are only appended. */
  predicate ConnMoves(x: Conn, y: Conn) {
    && (x.user.Some? ==> y.user == x.user)
    && (x.closed ==> y.closed)
    && (x.ready != Opened ==> y.ready != Opened)
    && x.sent <= y.sent
  }

  ghost predicate RegistryMoves(g: Registry, h: Registry) {
    && |g.conns| <= |h.conns|
    && forall c :: 0 <= c < |g.conns| ==> ConnMoves(g.conns[c], h.conns[c])
  }

  // ── Eviction ─────────────────────────────────────────────────────────────

  lemma {:induction false} EvictFacts(conns: seq<Conn>, own: seq<nat>, limit: Positive)
    ensures |EvictConns(conns, own, limit)| == |conns|
    ensures forall c :: 0 <= c < |conns| ==>
              EvictConns(conns, own, limit)[c] == if c in own[..Excess(own, limit)] then Shutting(conns[c]) else conns[c]
    decreases |own|
  {
    if |own| >= limit {
      var next := if own[0] < |conns| then conns[own[0] := Shutting(conns[own[0]])] else conns;
      EvictFacts(next, own[1..], limit);
      assert own[..Excess(own, limit)] == [own[0]] + own[1..][..Excess(own, limit) - 1];
    }
  }

  // ── Every event keeps the invariant ──────────────────────────────────────

  /** Rewriting sockets in place, none of them reopened or re-identified. */
  predicate SameIdentity(x: Conn, y: Conn) {
    && y.user == x.user && y.closed == x.closed && (y.verifying ==> x.verifying || x.user.None?)
    && (y.ready == x.ready || (x.ready == Opened && y.ready == Closing))
    && x.sent <= y.sent
  }

  lemma RewriteKeeps(g: Registry, h: Registry)
    requires RegistryOk(g) && h == g.(conns := h.conns) && |h.conns| == |g.conns|
    requires forall c :: 0 <= c < |g.conns| ==> SameIdentity(g.conns[c], h.conns[c])
    ensures RegistryOk(h) && RegistryMoves(g, h)
  {
    forall u | u in h.byUser ensures UserSetOk(h, u) { assert UserSetOk(g, u); }
    forall c | 0 <= c < |h.conns| ensures ConnOk(h, c) && ConnMoves(g.conns[c], h.conns[c]) {
      assert ConnOk(g, c) && SameIdentity(g.conns[c], h.conns[c]);
    }
  }

  lemma UpgradeKeeps(g: Registry, now: int)
    requires RegistryOk(g)
    ensures RegistryOk(Upgrade(g, now)) && RegistryMoves(g, Upgrade(g, now))
  {
    var h := Upgrade(g, now);
    forall u | u in h.byUser ensures UserSetOk(h, u) { assert UserSetOk(g, u); }
    forall c | 0 <= c < |h.conns| ensures ConnOk(h, c) {
      if c < |g.conns| { assert ConnOk(g, c); }
    }
  }

  lemma MessageKeeps(g: Registry, c: nat, input: Input, now: int)
    requires RegistryOk(g)
    ensures RegistryOk(OnMessage(g, c, input, now)) && RegistryMoves(g, OnMessage(g, c, input, now))
  {
    if c < |g.conns| { assert ConnOk(g, c); }
    RewriteKeeps(g, OnMessage(g, c, input, now));
  }

  lemma RouteKeeps(g: Registry, fan: User, partner: User, event: nat, full: set<nat>)
    requires RegistryOk(g)
    ensures RegistryOk(Route(g, fan, partner, event, full)) && RegistryMoves(g, Route(g, fan, partner, event, full))
  {
    hide RegistryOk, RegistryMoves, InSet;
    RewriteKeeps(g, Route(g, fan, partner, event, full));
  }

  lemma BroadcastKeeps(g: Registry, full: set<nat>)
    requires RegistryOk(g)
    ensures RegistryOk(Broadcast(g, full)) && RegistryMoves(g, Broadcast(g, full))
  {
    hide RegistryOk, RegistryMoves, Registered;
    RewriteKeeps(g, Broadcast(g, full));
  }

  lemma TickKeeps(g: Registry, now: int, full: set<nat>)
    requires RegistryOk(g)
    ensures RegistryOk(Tick(g, now, full)) && RegistryMoves(g, Tick(g, now, full))
  {
    hide RegistryOk, RegistryMoves, Registered;
    RewriteKeeps(g, Tick(g, now, full));
  }

  /** Closing everything leaves no socket open at all. */
  lemma CloseAllKeeps(g: Registry, h: Registry)
    requires RegistryOk(g) && h in {g.(healthy := false), g.(attached := false)}
    ensures RegistryOk(CloseAll(h)) && RegistryMoves(g, CloseAll(h))
    ensures forall c :: 0 <= c < |g.conns| ==> CloseAll(h).conns[c].ready != Opened
  {
    var k := CloseAll(h);
    forall c | 0 <= c < |g.conns|
      ensures ConnOk(k, c) && k.conns[c].ready != Opened && ConnMoves(g.conns[c], k.conns[c])
    {
      assert ConnOk(g, c);
      var x := g.conns[c];
      if x.ready == Opened && x.user.Some? { assert InSet(h, x.user.value, c); }
    }
    forall u | u in k.byUser ensures UserSetOk(k, u) { assert UserSetOk(g, u); }
  }

  lemma HealthKeeps(g: Registry, healthy: bool)
    requires RegistryOk(g)
    ensures RegistryOk(OnHealth(g, healthy)) && RegistryMoves(g, OnHealth(g, healthy))
    ensures !OnHealth(g, healthy).healthy ==>
              forall c :: 0 <= c < |g.conns| ==> OnHealth(g, healthy).conns[c].ready != Opened
  {
    if healthy != g.healthy {
      if healthy {
        var h := g.(healthy := true);
        forall u | u in h.byUser ensures UserSetOk(h, u) { assert UserSetOk(g, u); }
        forall c | 0 <= c < |h.conns| ensures ConnOk(h, c) { assert ConnOk(g, c); }
      } else {
        CloseAllKeeps(g, g.(healthy := false));
      }
    } else {
      forall c | 0 <= c < |g.conns| ensures !g.healthy ==> g.conns[c].ready != Opened { assert ConnOk(g, c); }
    }
  }

  lemma {:induction false} WithoutKeepsOrder(own: seq<nat>, c: nat)
    requires Distinct(own)
    ensures Distinct(Without(own, c))
  {
    if |own| > 0 {
      var init := own[..|own| - 1];
      WithoutKeepsOrder(init, c);
      assert own[|own| - 1] !in init;
      forall i | 0 <= i < |Without(init, c)| ensures Without(init, c)[i] != own[|own| - 1] {
        assert Without(init, c)[i] in Without(init, c);
      }
    }
  }

  lemma CloseEventKeepsSets(g: Registry, c: nat, u: User)
    requires RegistryOk(g) && c < |g.conns| && !g.conns[c].closed && u in OnClose(g, c).byUser
    ensures UserSetOk(OnClose(g, c), u)
  {
    assert UserSetOk(g, u);
    WithoutKeepsOrder(g.byUser[u], c);
    PendingOrOwn(g, c);
  }

  lemma PendingOrOwn(g: Registry, c: nat)
    requires RegistryOk(g) && c < |g.conns|
    ensures forall u: User :: InSet(g, u, c) ==> g.conns[c].user == Some(u)
  {
    forall u: User | InSet(g, u, c) ensures g.conns[c].user == Some(u) { assert UserSetOk(g, u); }
  }

  lemma CloseEventKeepsConns(g: Registry, c: nat, d: nat)
    requires RegistryOk(g) && c < |g.conns| && !g.conns[c].closed && d < |g.conns|
    ensures ConnOk(OnClose(g, c), d) && ConnMoves(g.conns[d], OnClose(g, c).conns[d])
  {
    assert ConnOk(g, d);
    if g.conns[d].user.Some? && InSet(g, g.conns[d].user.value, d) { assert UserSetOk(g, g.conns[d].user.value); }
  }

  lemma CloseShape(g: Registry, c: nat)
    ensures |OnClose(g, c).conns| == |g.conns| && OnClose(g, c).pending <= g.pending
    ensures c < |g.conns| && !g.conns[c].closed ==>
              OnClose(g, c).pending == g.pending - {c}
              && forall d :: 0 <= d < |g.conns| && d != c ==> OnClose(g, c).conns[d] == g.conns[d]
  {
  }

  lemma CloseEventKeeps(g: Registry, c: nat)
    requires RegistryOk(g)
    ensures RegistryOk(OnClose(g, c)) && RegistryMoves(g, OnClose(g, c))
  {
    hide ConnOk, UserSetOk, ConnMoves, Without;
    var h := OnClose(g, c);
    if c < |g.conns| && !g.conns[c].closed {
      CloseShape(g, c);
      hide OnClose, InSet;
      forall d | d in h.pending ensures d < |h.conns| && !h.conns[d].closed && h.conns[d].user.None? {
        assert d in g.pending && d != c && h.conns[d] == g.conns[d];
      }
      forall u | u in h.byUser ensures UserSetOk(h, u) { CloseEventKeepsSets(g, c, u); }
      forall d | 0 <= d < |g.conns| ensures ConnOk(h, d) && ConnMoves(g.conns[d], h.conns[d]) { CloseEventKeepsConns(g, c, d); }
      SmallerSet(h.pending, g.pending);
    } else {
      forall d | 0 <= d < |g.conns| ensures ConnMoves(g.conns[d], g.conns[d]) { Still(g.conns[d]); }
    }
  }

  lemma Still(x: Conn)
    ensures ConnMoves(x, x)
  {
  }

  lemma SmallerSet(a: set<nat>, b: set<nat>)
    requires a <= b
    ensures |a| <= |b|
  {
    assert b == a + (b - a);
  }

  lemma TimersKeep(g: Registry, c: nat)
    requires RegistryOk(g)
    ensures RegistryOk(OnAuthTimeout(g, c)) && RegistryMoves(g, OnAuthTimeout(g, c))
    ensures RegistryOk(PeerLeaves(g, c)) && RegistryMoves(g, PeerLeaves(g, c))
  {
    if c < |g.conns| { assert ConnOk(g, c); }
    RewriteKeeps(g, OnAuthTimeout(g, c));
    RewriteKeeps(g, PeerLeaves(g, c));
  }

  /** The socket that comes back from the wait with a valid token. */
  ghost predicate Registers(g: Registry, c: nat, verdict: Verdict) {
    && RegistryOk(g) && c < |g.conns| && g.conns[c].verifying && !g.conns[c].closed
    && verdict.Valid? && g.healthy
  }

  lemma RegisterChanges(g: Registry, c: nat, verdict: Verdict, now: int, full: bool)
    requires Registers(g, c, verdict)
    ensures var h := OnVerified(g, c, verdict, now, full); var own := SocketsOf(g, verdict.user);
      && |h.conns| == |g.conns| && c in g.pending && c !in own
      && h == g.(conns := h.conns, pending := g.pending - {c}, byUser := g.byUser[verdict.user := own[Excess(own, g.opts.maxPerUser)..] + [c]])
      && h.conns[c].user == Some(verdict.user) && h.conns[c].closed == g.conns[c].closed && !h.conns[c].verifying
      && (h.conns[c].ready == g.conns[c].ready || h.conns[c].ready == Closing) && g.conns[c].ready != Shut
      && (h.conns[c].ready == Opened ==> h.conns[c].sent == g.conns[c].sent + [ReadyFrame])
      && (h.conns[c].ready != Opened ==> h.conns[c].sent == g.conns[c].sent)
      && g.conns[c].user.None?
      && (forall d :: 0 <= d < |g.conns| && d != c ==>
            h.conns[d] == if d in own[..Excess(own, g.opts.maxPerUser)] then Shutting(g.conns[d]) else g.conns[d])
  {
    var own := SocketsOf(g, verdict.user);
    assert ConnOk(g, c);
    assert verdict.user in g.byUser ==> UserSetOk(g, verdict.user);
    var expiry := if verdict.expiresAt.Some? then verdict.expiresAt.value else now + NO_EXPIRY_CAP;
    var known := g.conns[c].(verifying := false, authTimer := false, user := Some(verdict.user), expiresAt := expiry);
    EvictFacts(g.conns[c := Given(known, ReadyFrame, full)], own, g.opts.maxPerUser);
  }

  /** The new set: the newest ones kept, then the socket itself. */
  lemma RoomMade(g: Registry, h: Registry, c: nat, u: User)
    requires (u in g.byUser ==> UserSetOk(g, u)) && h.opts == g.opts
    requires |h.conns| == |g.conns| && c < |g.conns| && h.conns[c].user == Some(u) && !h.conns[c].closed
    requires forall d :: 0 <= d < |g.conns| && d != c ==> h.conns[d].user == g.conns[d].user && h.conns[d].closed == g.conns[d].closed
    requires var own := SocketsOf(g, u); c !in own && u in h.byUser && h.byUser[u] == own[Excess(own, g.opts.maxPerUser)..] + [c]
    ensures UserSetOk(h, u)
  {
    var own := SocketsOf(g, u);
    forall d | d in h.byUser[u] ensures d < |h.conns| && !h.conns[d].closed && h.conns[d].user == Some(u) {
      if d != c { assert d in own; }
    }
    forall i | 0 <= i < |own| - Excess(own, g.opts.maxPerUser) ensures h.byUser[u][i] != c { assert h.byUser[u][i] in own; }
  }

  lemma RegisterKeepsSets(g: Registry, c: nat, verdict: Verdict, now: int, full: bool, v: User)
    requires Registers(g, c, verdict) && v in OnVerified(g, c, verdict, now, full).byUser
    ensures UserSetOk(OnVerified(g, c, verdict, now, full), v)
  {
    hide OnVerified;
    RegisterChanges(g, c, verdict, now, full);
    assert v in g.byUser ==> UserSetOk(g, v);
    if v == verdict.user {
      hide UserSetOk, RegistryOk, ConnOk;
      RoomMade(g, OnVerified(g, c, verdict, now, full), c, v);
    }
  }

  lemma RegisterKeepsConns(g: Registry, c: nat, verdict: Verdict, now: int, full: bool, d: nat)
    requires Registers(g, c, verdict) && d < |g.conns|
    ensures var h := OnVerified(g, c, verdict, now, full);
      d < |h.conns| && ConnOk(h, d) && ConnMoves(g.conns[d], h.conns[d])
  {
    RegisterChanges(g, c, verdict, now, full);
    assert ConnOk(g, d) && ConnOk(g, c) && g.healthy;
    hide RegistryOk, OnVerified, UserSetOk;
    var h := OnVerified(g, c, verdict, now, full);
    var own := SocketsOf(g, verdict.user);
    if d != c {
      assert h.conns[d] == if d in own[..Excess(own, g.opts.maxPerUser)] then Shutting(g.conns[d]) else g.conns[d];
      if h.conns[d].ready == Opened && h.conns[d].user == Some(verdict.user) {
        assert d in own && d !in own[..Excess(own, g.opts.maxPerUser)];
        assert own == own[..Excess(own, g.opts.maxPerUser)] + own[Excess(own, g.opts.maxPerUser)..];
        assert d in h.byUser[verdict.user];
      }
    }
  }

  lemma RegisterKeeps(g: Registry, c: nat, verdict: Verdict, now: int, full: bool)
    requires Registers(g, c, verdict)
    ensures RegistryOk(OnVerified(g, c, verdict, now, full)) && RegistryMoves(g, OnVerified(g, c, verdict, now, full))
  {
    hide OnVerified, UserSetOk, ConnOk, ConnMoves;
    var h := OnVerified(g, c, verdict, now, full);
    RegisterChanges(g, c, verdict, now, full);
    forall v | v in h.byUser ensures UserSetOk(h, v) { RegisterKeepsSets(g, c, verdict, now, full, v); }
    forall d | 0 <= d < |g.conns| ensures ConnOk(h, d) && ConnMoves(g.conns[d], h.conns[d]) {
      RegisterKeepsConns(g, c, verdict, now, full, d);
    }
    SmallerSet(h.pending, g.pending);
    assert h.conns[c].user.Some?;
  }

  lemma VerifiedKeeps(g: Registry, c: nat, verdict: Verdict, now: int, full: bool)
    requires RegistryOk(g)
    ensures RegistryOk(OnVerified(g, c, verdict, now, full)) && RegistryMoves(g, OnVerified(g, c, verdict, now, full))
  {
    if c < |g.conns| && g.conns[c].verifying && !g.conns[c].closed && verdict.Valid? && g.healthy {
      RegisterKeeps(g, c, verdict, now, full);
    } else {
      if c < |g.conns| { assert ConnOk(g, c); }
      RewriteKeeps(g, OnVerified(g, c, verdict, now, full));
    }
  }
}
