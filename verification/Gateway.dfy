/** RealtimeGateway as it runs: sets and maps updated in place, one handler per
    event. Every handler leaves exactly what its specification says.
 */
module Gateway {
  import opened Schema
  import opened Sockets
  import SocketPromises

  /** What a loop over sockets does to each one. */
  datatype Deed = Deliver(frame: Frame) | Heartbeat(now: int, opts: Options) | Shutdown

  function Visited(x: Conn, deed: Deed, full: bool): Conn {
    match deed
    case Deliver(frame) => Given(x, frame, full)
    case Heartbeat(now, opts) => Ticked(x, now, full, opts)
    case Shutdown => Shutting(x)
  }

  /** Evicting others and greeting the newcomer touch different sockets. */
  lemma GreetingCommutes(conns: seq<Conn>, c: nat, known: Conn, full: bool, all: seq<nat>, limit: Positive)
    requires c < |conns| && c !in all
    ensures |EvictConns(conns[c := known], all, limit)| == |conns|
    ensures EvictConns(conns[c := Given(known, ReadyFrame, full)], all, limit)
         == EvictConns(conns[c := known], all, limit)[c := Given(known, ReadyFrame, full)]
    ensures EvictConns(conns[c := known], all, limit)[c] == known
  {
    EvictFacts(conns[c := Given(known, ReadyFrame, full)], all, limit);
    EvictFacts(conns[c := known], all, limit);
    assert forall x :: x in all[..Excess(all, limit)] ==> x in all;
  }

  /** The sets hold live sockets, each in one set. */
  predicate SetsOk(g: Registry) {
    && (forall c :: c in g.pending ==> c < |g.conns| && !g.conns[c].closed)
    && (forall u :: u in g.byUser ==> UserSetOk(g, u))
  }

  class RealtimeGateway {
    var conns: seq<Conn>
    var pending: set<nat>
    var byUser: map<User, seq<nat>>
    var healthy: bool
    var enabled: bool
    var attached: bool
    const opts: Options

    constructor (enabled: bool, opts: Options)
      ensures State() == Fresh(enabled, opts) && RegistryOk(State())
    {
      this.opts := opts;
      conns, pending, byUser := [], {}, map[];
      healthy, attached, this.enabled := false, true, enabled;
    }

    function State(): Registry
      reads this
    {
      Registry(conns, pending, byUser, healthy, enabled, attached, opts)
    }

    method OnUpgrade(now: int) returns (accepted: bool)
      requires RegistryOk(State())
      modifies this
      ensures State() == Upgrade(old(State()), now) && RegistryOk(State())
      ensures accepted <==> |conns| == |old(conns)| + 1
      ensures SocketPromises.Accepts(old(State()), State(), now)
    {
      hide SocketPromises.Accepts;
      SocketPromises.UpgradeAccepts(State(), now);
      UpgradeKeeps(State(), now);
      if !attached || !enabled || !healthy || |pending| >= opts.maxPending { return false; }
      var c := |conns|;
      conns := conns + [Conn(Opened, None, 0, now, true, false, false, [])];
      pending := pending + {c};
      accepted := true;
    }

    method Close(c: nat)
      requires c < |conns|
      modifies this`conns
      ensures conns == old(conns)[c := if old(conns)[c].closed then old(conns)[c] else Shutting(old(conns)[c])]
    {
      if conns[c].closed { return; }
      if conns[c].ready == Opened { conns := conns[c := conns[c].(ready := Closing)]; }
    }

    method Send(c: nat, frame: Frame, full: bool) returns (delivered: bool)
      requires c < |conns|
      modifies this`conns
      ensures conns == old(conns)[c := Given(old(conns)[c], frame, full)]
      ensures delivered <==> old(conns)[c].ready == Opened && !full
    {
      if conns[c].ready != Opened { return false; }
      if full {
        conns := conns[c := conns[c].(ready := Closing)];
        return false;
      }
      conns := conns[c := conns[c].(sent := conns[c].sent + [frame])];
      delivered := true;
    }

    method HandleMessage(c: nat, input: Input, now: int)
      requires RegistryOk(State()) && c < |conns| && conns[c].ready != Shut
      modifies this
      ensures State() == OnMessage(old(State()), c, input, now) && RegistryOk(State())
      ensures SocketPromises.TakesFrame(old(State()), State(), c, input, now)
    {
      hide SocketPromises.TakesFrame;
      SocketPromises.MessageTakesFrame(State(), c, input, now);
      MessageKeeps(State(), c, input, now);
      assert ConnOk(State(), c);
      conns := conns[c := conns[c].(lastSeen := now)];
      match input {
        case Binary => Close(c);
        case BadJson => Close(c);
        case BadFrame => Close(c);
        case Auth(token) =>
          if conns[c].user.Some? || conns[c].verifying { return; }
          if !token { Close(c); }
          else { conns := conns[c := conns[c].(verifying := true)]; }
        case Pong =>
        case Unknown => if conns[c].user.None? { Close(c); }
      }
    }

    /** Close a user's oldest sockets until there is room for one more. */
    method MakeRoom(all: seq<nat>) returns (own: seq<nat>)
      requires forall c :: c in all ==> c < |conns| && !conns[c].closed
      modifies this`conns
      ensures conns == EvictConns(old(conns), all, opts.maxPerUser) && own == all[Excess(all, opts.maxPerUser)..]
    {
      own := all;
      while |own| >= opts.maxPerUser
        invariant |all| - Excess(all, opts.maxPerUser) <= |own| <= |all| && own == all[|all| - |own|..]
        invariant |conns| == |old(conns)| && EvictConns(conns, own, opts.maxPerUser) == EvictConns(old(conns), all, opts.maxPerUser)
        invariant forall c :: 0 <= c < |conns| ==> conns[c].closed == old(conns)[c].closed
      {
        var oldest := own[0];
        assert oldest in all;
        Close(oldest);
        own := own[1..];
      }
    }

    /** After the wait: check again, register, make room, greet. */
    method FinishAuthentication(c: nat, verdict: Verdict, now: int, full: bool)
      requires RegistryOk(State()) && c < |conns| && conns[c].verifying
      modifies this
      ensures State() == OnVerified(old(State()), c, verdict, now, full) && RegistryOk(State())
      ensures SocketPromises.Decides(old(State()), State(), c, verdict, now, full)
    {
      hide SocketPromises.Decides;
      SocketPromises.VerifiedDecides(State(), c, verdict, now, full);
      ghost var g := State();
      VerifiedKeeps(g, c, verdict, now, full);
      assert ConnOk(g, c);
      conns := conns[c := conns[c].(verifying := false)];
      if verdict.Invalid? { Close(c); return; }
      if conns[c].closed { return; }
      if !healthy { Close(c); return; }
      assert Registers(g, c, verdict);
      RegisterChanges(g, c, verdict, now, full);
      assert verdict.user in g.byUser ==> UserSetOk(g, verdict.user);
      hide RegistryOk, UserSetOk, ConnOk;
      var expiry := if verdict.expiresAt.Some? then verdict.expiresAt.value else now + NO_EXPIRY_CAP;
      ghost var known := conns[c].(authTimer := false, user := Some(verdict.user), expiresAt := expiry);
      assert conns[c := Given(known, ReadyFrame, full)] == g.conns[c := Given(known, ReadyFrame, full)];
      Register(c, verdict.user, expiry, full);
    }

    method Register(c: nat, u: User, expiry: int, full: bool)
      requires c < |conns| && c !in SocketsOf(State(), u)
      requires forall d :: d in SocketsOf(State(), u) ==> d < |conns| && !conns[d].closed
      modifies this
      ensures var all := SocketsOf(old(State()), u);
        var known := old(conns)[c].(authTimer := false, user := Some(u), expiresAt := expiry);
        && State() == old(State()).(conns := conns, pending := pending, byUser := byUser)
        && pending == old(pending) - {c} && byUser == old(byUser)[u := all[Excess(all, opts.maxPerUser)..] + [c]]
        && conns == EvictConns(old(conns)[c := Given(known, ReadyFrame, full)], all, opts.maxPerUser)
    {
      pending := pending - {c};
      conns := conns[c := conns[c].(authTimer := false, user := Some(u), expiresAt := expiry)];
      ghost var known := conns[c];
      var all := if u in byUser then byUser[u] else [];
      GreetingCommutes(old(conns), c, known, full, all, opts.maxPerUser);
      var own := MakeRoom(all);
      byUser := byUser[u := own + [c]];
      var greeted := Send(c, ReadyFrame, full);
    }

    method HandleAuthTimeout(c: nat)
      requires RegistryOk(State()) && c < |conns| && conns[c].authTimer
      modifies this
      ensures State() == OnAuthTimeout(old(State()), c) && RegistryOk(State())
      ensures SocketPromises.TimesOut(old(State()), State(), c)
    {
      hide SocketPromises.TimesOut;
      SocketPromises.TimeoutTimesOut(State(), c);
      TimersKeep(State(), c);
      conns := conns[c := conns[c].(authTimer := false)];
      Close(c);
    }

    // ── Loops over sockets ─────────────────────────────────────────────────

    method Visit(own: seq<nat>, deed: Deed, full: set<nat>)
      requires Distinct(own) && forall c :: c in own ==> c < |conns|
      modifies this`conns
      ensures |conns| == |old(conns)|
      ensures forall c :: 0 <= c < |conns| ==>
                conns[c] == if c in own then Visited(old(conns)[c], deed, c in full) else old(conns)[c]
    {
      for i := 0 to |own|
        invariant |conns| == |old(conns)|
        invariant forall c :: 0 <= c < |conns| ==>
                    conns[c] == if c in own[..i] then Visited(old(conns)[c], deed, c in full) else old(conns)[c]
      {
        var c := own[i];
        assert c in own && c !in own[..i];
        assert own[..i + 1] == own[..i] + [c];
        match deed {
          case Deliver(frame) => var sent := Send(c, frame, c in full);
          case Heartbeat(now, opts) =>
            if conns[c].expiresAt <= now { Close(c); }
            else if Silent(conns[c], now, opts) { Terminate(c); }
            else { var sent := Send(c, Ping, c in full); }
          case Shutdown => Terminate(c);
        }
      }
      assert own[..|own|] == own;
    }

    method Terminate(c: nat)
      requires c < |conns|
      modifies this`conns
      ensures conns == old(conns)[c := Shutting(old(conns)[c])]
    {
      if conns[c].ready == Opened { conns := conns[c := conns[c].(ready := Closing)]; }
    }

    /** All sockets of all users, each exactly once. */
    method VisitEveryone(deed: Deed, full: set<nat>)
      requires SetsOk(State())
      modifies this`conns
      ensures |conns| == |old(conns)|
      ensures forall c :: 0 <= c < |conns| ==>
                conns[c] == if Registered(old(State()), c) then Visited(old(conns)[c], deed, c in full) else old(conns)[c]
    {
      ghost var g := State();
      var left := byUser.Keys;
      while left != {}
        invariant left <= byUser.Keys && |conns| == |old(conns)|
        invariant forall c :: 0 <= c < |conns| ==>
                    conns[c] == if exists u :: u in byUser && u !in left && c in byUser[u]
                                then Visited(old(conns)[c], deed, c in full) else old(conns)[c]
        decreases |left|
      {
        var u :| u in left;
        assert UserSetOk(g, u);
        ghost var before := conns;
        forall c | c in byUser[u] ensures !exists v :: v in byUser && v !in left && c in byUser[v] {
          forall v | v in byUser && v !in left ensures c !in byUser[v] { assert UserSetOk(g, v); }
        }
        Visit(byUser[u], deed, full);
        left := left - {u};
      }
    }

    // ── Delivery, liveness, teardown ───────────────────────────────────────

    /** The sockets of the two parties; one round if they are the same user. */
    method HandleCallChanged(fan: User, partner: User, event: nat, full: set<nat>)
      requires RegistryOk(State())
      modifies this
      ensures State() == Route(old(State()), fan, partner, event, full) && RegistryOk(State())
      ensures SocketPromises.Tells(old(State()), State(), fan, partner, event, full)
    {
      hide SocketPromises.Tells;
      SocketPromises.RouteTells(State(), fan, partner, event, full);
      ghost var g := State();
      RouteKeeps(g, fan, partner, event, full);
      if fan in byUser {
        assert UserSetOk(g, fan);
        Visit(byUser[fan], Deliver(CallChanged(event)), full);
      }
      if partner != fan && partner in byUser {
        assert UserSetOk(g, partner);
        assert fan in byUser ==> UserSetOk(g, fan);
        Visit(byUser[partner], Deliver(CallChanged(event)), full);
      }
      assert conns == Route(g, fan, partner, event, full).conns;
    }

    method HandleResync(full: set<nat>)
      requires RegistryOk(State())
      modifies this
      ensures State() == Broadcast(old(State()), full) && RegistryOk(State())
      ensures SocketPromises.TellsEveryone(old(State()), State(), full)
    {
      hide SocketPromises.TellsEveryone;
      SocketPromises.BroadcastTellsEveryone(State(), full);
      ghost var g := State();
      BroadcastKeeps(g, full);
      VisitEveryone(Deliver(Resync), full);
      assert conns == Broadcast(g, full).conns;
    }

    method HandleTick(now: int, full: set<nat>)
      requires RegistryOk(State())
      modifies this
      ensures State() == Tick(old(State()), now, full) && RegistryOk(State())
      ensures SocketPromises.Checks(old(State()), State(), now, full)
    {
      hide SocketPromises.Checks;
      SocketPromises.TickChecks(State(), now, full);
      ghost var g := State();
      TickKeeps(g, now, full);
      VisitEveryone(Heartbeat(now, opts), full);
      assert conns == Tick(g, now, full).conns;
    }

    method ClosePending()
      requires SetsOk(State())
      modifies this`conns
      ensures |conns| == |old(conns)|
      ensures forall c :: 0 <= c < |conns| ==> conns[c] == if c in pending then Shutting(old(conns)[c]) else old(conns)[c]
    {
      var left := pending;
      while left != {}
        invariant left <= pending && |conns| == |old(conns)|
        invariant forall c :: 0 <= c < |conns| ==>
                    conns[c] == if c in pending && c !in left then Shutting(old(conns)[c]) else old(conns)[c]
        decreases |left|
      {
        var c :| c in left;
        Close(c);
        left := left - {c};
      }
    }

    method CloseEveryone()
      requires SetsOk(State())
      modifies this`conns
      ensures State() == CloseAll(old(State()))
    {
      ghost var g := State();
      ClosePending();
      assert SetsOk(State()) by {
        forall u | u in byUser ensures UserSetOk(State(), u) { assert UserSetOk(g, u); }
      }
      VisitEveryone(Shutdown, {});
      assert conns == CloseAll(g).conns;
    }

    method HandleHealthChange(now: bool)
      requires RegistryOk(State())
      modifies this
      ensures State() == OnHealth(old(State()), now) && RegistryOk(State())
      ensures SocketPromises.FollowsHealth(old(State()), State(), now)
    {
      hide SocketPromises.FollowsHealth;
      SocketPromises.HealthFollows(State(), now);
      ghost var g := State();
      HealthKeeps(g, now);
      if now == healthy { return; }
      healthy := now;
      if !now {
        assert forall u :: u in byUser ==> UserSetOk(g, u);
        CloseEveryone();
      }
    }

    method Destroy()
      requires RegistryOk(State())
      modifies this
      ensures State() == Detach(old(State())) && RegistryOk(State())
      ensures SocketPromises.ShutsDown(old(State()), State())
    {
      hide SocketPromises.ShutsDown;
      SocketPromises.DetachShutsDown(State());
      ghost var g := State();
      CloseAllKeeps(g, g.(attached := false));
      attached := false;
      assert forall u :: u in byUser ==> UserSetOk(g, u);
      CloseEveryone();
    }

    method HandleClose(c: nat)
      requires RegistryOk(State()) && c < |conns| && !conns[c].closed
      modifies this
      ensures State() == OnClose(old(State()), c) && RegistryOk(State())
      ensures SocketPromises.Forgets(old(State()), State(), c)
    {
      hide SocketPromises.Forgets;
      SocketPromises.CloseForgets(State(), c);
      CloseEventKeeps(State(), c);
      conns := conns[c := conns[c].(ready := Shut, closed := true, authTimer := false)];
      pending := pending - {c};
      var user := conns[c].user;
      if user.Some? && user.value in byUser {
        var rest := Without(byUser[user.value], c);
        byUser := if rest == [] then byUser - {user.value} else byUser[user.value := rest];
      }
    }
  }
}
