/** What each event promises the sockets, said socket by socket: who is opened, who is
    told what, who starts closing, and that nobody else changes.
 */
module SocketPromises {
  import opened Schema
  import opened Sockets

  /** Only the sockets changed. */
  predicate OnlyConns(g: Registry, h: Registry) {
    h == g.(conns := h.conns) && |h.conns| == |g.conns|
  }

  predicate OnlyConn(g: Registry, h: Registry, c: nat) {
    OnlyConns(g, h) && forall d :: 0 <= d < |g.conns| && d != c ==> h.conns[d] == g.conns[d]
  }

  predicate Open(x: Conn) { x.ready == Opened }

  /** An open socket starts closing; any other one is left as it is. */
  predicate StartsClosing(x: Conn, y: Conn) {
    if Open(x) then y.ready == Closing && y == x.(ready := Closing) else y == x
  }

  /** An open socket gets the frame, or starts closing if it does not keep up. */
  predicate Hears(x: Conn, y: Conn, frame: Frame, full: bool) {
    if Open(x) && !full then y.sent == x.sent + [frame] && y == x.(sent := y.sent) else StartsClosing(x, y)
  }

  // ── Handshake and authentication ─────────────────────────────────────────

  /** A socket is accepted exactly while the gateway is attached, enabled and healthy and
      fewer than the limit are waiting. It then waits, with its timer running. */
  predicate Accepts(g: Registry, h: Registry, now: int) {
    var c := |g.conns|;
    if g.attached && g.enabled && g.healthy && |g.pending| < g.opts.maxPending then
      && h == g.(conns := h.conns, pending := g.pending + {c}) && |h.conns| == c + 1 && g.conns <= h.conns
      && (var x := h.conns[c];
          Open(x) && x.user.None? && x.lastSeen == now && x.authTimer && !x.verifying && !x.closed && x.sent == [])
    else h == g
  }

  lemma UpgradeAccepts(g: Registry, now: int)
    ensures Accepts(g, Upgrade(g, now), now)
  {
  }

  /** A frame this socket may not send: anything unreadable, and before authentication
      anything but a token or a pong. */
  predicate Misbehaves(x: Conn, input: Input) {
    match input
    case Binary => true
    case BadJson => true
    case BadFrame => true
    case Auth(token) => !token && x.user.None? && !x.verifying
    case Pong => false
    case Unknown => x.user.None?
  }

  /** Every frame counts as a sign of life, a first token starts the check, and a socket
      that misbehaves is closed. */
  predicate TakesFrame(g: Registry, h: Registry, c: nat, input: Input, now: int) {
    if c < |g.conns| && g.conns[c].ready != Shut then
      && OnlyConn(g, h, c)
      && (var x, y := g.conns[c], h.conns[c];
          && y == x.(lastSeen := now, ready := y.ready, verifying := y.verifying)
          && (y.verifying <==> x.verifying || (input == Auth(true) && x.user.None?))
          && y.ready == (if Open(x) && Misbehaves(x, input) then Closing else x.ready))
    else h == g
  }

  lemma MessageTakesFrame(g: Registry, c: nat, input: Input, now: int)
    ensures TakesFrame(g, OnMessage(g, c, input, now), c, input, now)
  {
  }

  /** The result of the check. Only a valid token on a healthy gateway registers the
      socket: it is greeted, it no longer waits, and if its user already has the full
      number the oldest of them makes room. Everything else closes it, if it is still
      there to be closed. */
  predicate Decides(g: Registry, h: Registry, c: nat, verdict: Verdict, now: int, full: bool)
    requires c < |g.conns|
  {
    var x := g.conns[c];
    if verdict.Valid? && g.healthy && !x.closed then Registers(g, h, c, verdict, now, full)
    else
      && OnlyConn(g, h, c)
      && (if x.closed then h.conns[c] == x.(verifying := false) else StartsClosing(x.(verifying := false), h.conns[c]))
  }

  predicate Registers(g: Registry, h: Registry, c: nat, verdict: Verdict, now: int, full: bool)
    requires c < |g.conns| && verdict.Valid?
  {
    var own := if verdict.user in g.byUser then g.byUser[verdict.user] else [];
    var evicts := |own| >= g.opts.maxPerUser;
    && h == g.(conns := h.conns, pending := g.pending - {c},
               byUser := g.byUser[verdict.user := (if evicts then own[1..] else own) + [c]])
    && |h.conns| == |g.conns|
    && (forall d :: 0 <= d < |g.conns| && d != c ==>
          if evicts && d == own[0] then StartsClosing(g.conns[d], h.conns[d]) else h.conns[d] == g.conns[d])
    && Greeted(g.conns[c], h.conns[c], verdict, now, full)
  }

  predicate Greeted(x: Conn, y: Conn, verdict: Verdict, now: int, full: bool)
    requires verdict.Valid?
  {
    && y.user == Some(verdict.user) && !y.authTimer && !y.verifying && y.closed == x.closed && y.lastSeen == x.lastSeen
    && y.expiresAt == (if verdict.expiresAt.Some? then verdict.expiresAt.value else now + 3600000)
    && y.ready == (if Open(x) && full then Closing else x.ready)
    && y.sent == x.sent + if Open(x) && !full then [ReadyFrame] else []
  }

  lemma VerifiedDecides(g: Registry, c: nat, verdict: Verdict, now: int, full: bool)
    requires RegistryOk(g) && c < |g.conns| && g.conns[c].verifying
    ensures Decides(g, OnVerified(g, c, verdict, now, full), c, verdict, now, full)
  {
    assert ConnOk(g, c);
    if verdict.Valid? && g.healthy && !g.conns[c].closed {
      var own := SocketsOf(g, verdict.user);
      assert verdict.user in g.byUser ==> UserSetOk(g, verdict.user);
      hide RegistryOk, ConnOk;
      RegisterChanges(g, c, verdict, now, full);
      GreetsTheNewcomer(g, c, verdict, now, full);
      if |own| >= g.opts.maxPerUser { assert own[..1] == [own[0]]; } else { assert own[..0] == [] && own[0..] == own; }
    }
  }

  lemma GreetsTheNewcomer(g: Registry, c: nat, verdict: Verdict, now: int, full: bool)
    requires RegistryOk(g) && c < |g.conns| && g.conns[c].verifying && !g.conns[c].closed && verdict.Valid? && g.healthy
    ensures c < |OnVerified(g, c, verdict, now, full).conns|
    ensures Greeted(g.conns[c], OnVerified(g, c, verdict, now, full).conns[c], verdict, now, full)
  {
    RegisterChanges(g, c, verdict, now, full);
    var own := SocketsOf(g, verdict.user);
    var expiry := if verdict.expiresAt.Some? then verdict.expiresAt.value else now + NO_EXPIRY_CAP;
    var known := g.conns[c].(verifying := false, authTimer := false, user := Some(verdict.user), expiresAt := expiry);
    EvictFacts(g.conns[c := Given(known, ReadyFrame, full)], own, g.opts.maxPerUser);
  }

  /** A socket that waited too long is closed; its timer has run out. */
  predicate TimesOut(g: Registry, h: Registry, c: nat) {
    if c < |g.conns| && g.conns[c].authTimer
    then OnlyConn(g, h, c) && StartsClosing(g.conns[c].(authTimer := false), h.conns[c])
    else h == g
  }

  lemma TimeoutTimesOut(g: Registry, c: nat)
    requires RegistryOk(g)
    ensures TimesOut(g, OnAuthTimeout(g, c), c)
  {
    if c < |g.conns| { assert ConnOk(g, c); }
  }

  // ── Delivery, liveness, teardown ─────────────────────────────────────────

  /** The event reaches every socket of the two parties once, and nobody else. */
  predicate Tells(g: Registry, h: Registry, fan: User, partner: User, event: nat, full: set<nat>) {
    && OnlyConns(g, h)
    && forall c :: 0 <= c < |g.conns| ==>
         if InSet(g, fan, c) || InSet(g, partner, c) then Hears(g.conns[c], h.conns[c], CallChanged(event), c in full)
         else h.conns[c] == g.conns[c]
  }

  lemma RouteTells(g: Registry, fan: User, partner: User, event: nat, full: set<nat>)
    ensures Tells(g, Route(g, fan, partner, event, full), fan, partner, event, full)
  {
    hide InSet;
  }

  predicate TellsEveryone(g: Registry, h: Registry, full: set<nat>) {
    && OnlyConns(g, h)
    && forall c :: 0 <= c < |g.conns| ==>
         if Registered(g, c) then Hears(g.conns[c], h.conns[c], Resync, c in full) else h.conns[c] == g.conns[c]
  }

  lemma BroadcastTellsEveryone(g: Registry, full: set<nat>)
    ensures TellsEveryone(g, Broadcast(g, full), full)
  {
    hide Registered;
  }

  /** The token has run out, or nothing came for two and a half ping intervals. */
  predicate Lapsed(x: Conn, now: int, opts: Options) {
    now >= x.expiresAt || (now - x.lastSeen) + (now - x.lastSeen) > 5 * opts.pingInterval
  }

  /** A tick closes every registered socket that lapsed and pings every other one. */
  predicate Checks(g: Registry, h: Registry, now: int, full: set<nat>) {
    && OnlyConns(g, h)
    && forall c :: 0 <= c < |g.conns| ==>
         if !Registered(g, c) then h.conns[c] == g.conns[c]
         else if Lapsed(g.conns[c], now, g.opts) then StartsClosing(g.conns[c], h.conns[c])
         else Hears(g.conns[c], h.conns[c], Ping, c in full)
  }

  lemma TickChecks(g: Registry, now: int, full: set<nat>)
    requires RegistryOk(g)
    ensures Checks(g, Tick(g, now, full), now, full)
  {
    hide Registered, RegistryOk;
    forall c | 0 <= c < |g.conns| ensures g.conns[c].closed ==> !Open(g.conns[c]) { ClosedIsShut(g, c); }
  }

  lemma ClosedIsShut(g: Registry, c: nat)
    requires RegistryOk(g) && c < |g.conns|
    ensures g.conns[c].closed ==> !Open(g.conns[c])
  {
    assert ConnOk(g, c);
  }

  predicate ClosesEveryone(g: Registry, h: Registry) {
    |h.conns| == |g.conns| && forall c :: 0 <= c < |g.conns| ==> StartsClosing(g.conns[c], h.conns[c])
  }

  /** Every open socket is waiting or registered, so closing those closes all. */
  lemma CloseAllClosesEveryone(g: Registry, h: Registry)
    requires RegistryOk(g) && h in {g.(healthy := false), g.(attached := false)}
    ensures ClosesEveryone(g, CloseAll(h)) && CloseAll(h) == h.(conns := CloseAll(h).conns)
  {
    forall c | 0 <= c < |g.conns| ensures StartsClosing(g.conns[c], CloseAll(h).conns[c]) {
      assert ConnOk(g, c);
      var x := g.conns[c];
      if Open(x) && x.user.Some? { assert InSet(h, x.user.value, c); }
    }
  }

  /** A change to unhealthy closes every socket; a change to healthy, or none, touches no
      socket. */
  predicate FollowsHealth(g: Registry, h: Registry, healthy: bool) {
    && h.healthy == healthy && h == g.(healthy := healthy, conns := h.conns)
    && (if g.healthy && !healthy then ClosesEveryone(g, h) else h.conns == g.conns)
  }

  lemma HealthFollows(g: Registry, healthy: bool)
    requires RegistryOk(g)
    ensures FollowsHealth(g, OnHealth(g, healthy), healthy)
  {
    hide RegistryOk, CloseAll;
    if g.healthy && !healthy { CloseAllClosesEveryone(g, g.(healthy := false)); }
  }

  predicate ShutsDown(g: Registry, h: Registry) {
    !h.attached && h == g.(attached := false, conns := h.conns) && ClosesEveryone(g, h)
  }

  lemma DetachShutsDown(g: Registry)
    requires RegistryOk(g)
    ensures ShutsDown(g, Detach(g))
  {
    hide RegistryOk, CloseAll;
    CloseAllClosesEveryone(g, g.(attached := false));
  }

  predicate Leaving(g: Registry, h: Registry, c: nat) {
    if c < |g.conns| then OnlyConn(g, h, c) && StartsClosing(g.conns[c], h.conns[c]) else h == g
  }

  lemma PeerLeavesLeaving(g: Registry, c: nat)
    ensures Leaving(g, PeerLeaves(g, c), c)
  {
  }

  /** One of a user's sockets taken out, the others in their order. */
  ghost predicate TakenOut(own: seq<nat>, rest: seq<nat>, c: nat) {
    exists k :: 0 <= k < |own| && own[k] == c && rest == own[..k] + own[k + 1..]
  }

  lemma {:induction false} WithoutTakesOut(own: seq<nat>, c: nat)
    requires Distinct(own)
    ensures if c in own then TakenOut(own, Without(own, c), c) else Without(own, c) == own
  {
    hide TakenOut;
    if |own| > 0 {
      var n := |own| - 1;
      var init := own[..n];
      assert own == init + [own[n]];
      WithoutTakesOut(init, c);
      if own[n] == c {
        assert c !in init;
        LastTakenOut(init, c);
      } else if c in init {
        OneMoreBehind(init, Without(init, c), c, own[n]);
      }
    }
  }

  lemma LastTakenOut(init: seq<nat>, c: nat)
    ensures TakenOut(init + [c], init, c)
  {
    var own := init + [c];
    assert own[|init|] == c && init == own[..|init|] + own[|init| + 1..];
  }

  lemma OneMoreBehind(init: seq<nat>, rest: seq<nat>, c: nat, x: nat)
    requires TakenOut(init, rest, c)
    ensures TakenOut(init + [x], rest + [x], c)
  {
    var k :| 0 <= k < |init| && init[k] == c && rest == init[..k] + init[k + 1..];
    var own := init + [x];
    assert own[k] == c && rest + [x] == own[..k] + own[k + 1..];
  }

  /** A closed socket is forgotten: it neither waits nor belongs to anyone, and a user
      whose last socket it was is forgotten with it. No other socket notices. */
  ghost predicate Forgets(g: Registry, h: Registry, c: nat) {
    if c >= |g.conns| || g.conns[c].closed then h == g
    else
      && h == g.(conns := h.conns, pending := g.pending - {c}, byUser := h.byUser) && |h.conns| == |g.conns|
      && h.conns[c] == g.conns[c].(ready := Shut, closed := true, authTimer := false)
      && (forall d :: 0 <= d < |g.conns| && d != c ==> h.conns[d] == g.conns[d])
      && (forall u :: u in h.byUser ==> u in g.byUser)
      && (forall u :: u in g.byUser ==>
            if c !in g.byUser[u] then u in h.byUser && h.byUser[u] == g.byUser[u]
            else if |g.byUser[u]| == 1 then u !in h.byUser
            else u in h.byUser && TakenOut(g.byUser[u], h.byUser[u], c))
  }

  lemma CloseForgets(g: Registry, c: nat)
    requires RegistryOk(g)
    ensures Forgets(g, OnClose(g, c), c)
  {
    hide TakenOut, Without;
    if c < |g.conns| && !g.conns[c].closed {
      CloseShape(g, c);
      var h := OnClose(g, c);
      forall u | u in g.byUser
        ensures if c !in g.byUser[u] then u in h.byUser && h.byUser[u] == g.byUser[u]
                else if |g.byUser[u]| == 1 then u !in h.byUser
                else u in h.byUser && TakenOut(g.byUser[u], h.byUser[u], c)
      {
        assert UserSetOk(g, u);
        WithoutTakesOut(g.byUser[u], c);
        TakenOutLength(g.byUser[u], Without(g.byUser[u], c), c);
      }
    }
  }

  lemma TakenOutLength(own: seq<nat>, rest: seq<nat>, c: nat)
    ensures TakenOut(own, rest, c) ==> |rest| == |own| - 1
  {
  }
}
