/** The listener and the registry composed with the channel between the database and
    the server: no connected socket is silently deaf.
 */
module Delivery {
  import opened Schema
  import opened Sockets
  import opened Listener

  /** What the database sends on the channel, in the order it is sent. */
  datatype Note = CallEvent(fan: User, partner: User) | ProbeNote(id: nat) | Garbage

  /** The LISTEN session of one client. While it is up, notes queue on it in order;
      while it is down, they are lost, whether or not anyone has noticed. `owed`
      counts re-listens the client has not been called back for yet. */
  datatype Link = Link(up: bool, owed: nat, queue: seq<nat>)

  /** `since` is the point in the log up to which a socket's client has read the state
      itself: when it was told to resync, or when it connected. `began` is the point
      in the log at which each probe was started. */
  datatype System = System(
    src: Source,
    reg: Registry,
    log: seq<Note>,
    links: map<nat, Link>,
    since: map<nat, nat>,
    began: seq<nat>)

  datatype SocketEvent =
    | Arrives(now: int)
    | Says(c: nat, input: Input, now: int)
    | Verified(c: nat, verdict: Verdict, now: int, congested: bool)
    | AuthTimedOut(c: nat)
    | Leaves(c: nat)
    | Closes(c: nat)
    | Ticks(now: int, full: set<nat>)

  datatype Move =
    | Emits(note: Note)
    | LinkUp(gen: nat)
    | LinkDown(gen: nat)
    | CallsBack(gen: nat, full: set<nat>)
    | Delivers(gen: nat, full: set<nat>)
    | SourceRuns(event: Event, full: set<nat>)
    | SocketRuns(socket: SocketEvent)
    | Detaches
    | StopsSource

  function Boot(enabled: bool, opts: Options): System {
    System(IDLE, Fresh(enabled, opts), [], map[], map[], [])
  }

  function LinkOf(sys: System, gen: nat): Link {
    if gen in sys.links then sys.links[gen] else Link(false, 0, [])
  }

  // ── Effects of the source on the gateway ─────────────────────────────────

  function Mark(sys: System): map<nat, nat> {
    sys.since + map c | 0 <= c < |sys.reg.conns| && Registered(sys.reg, c) :: |sys.log|
  }

  function ApplyOne(sys: System, x: Effect, full: set<nat>): System {
    match x
    case Changed(n) =>
      if n < |sys.log| && sys.log[n].CallEvent?
      then sys.(reg := Route(sys.reg, sys.log[n].fan, sys.log[n].partner, n, full))
      else sys
    case ResyncAll => sys.(reg := Broadcast(sys.reg, full), since := Mark(sys))
    case HealthIs(h) => sys.(reg := OnHealth(sys.reg, h))
  }

  function Apply(sys: System, effects: seq<Effect>, full: set<nat>): System
    decreases |effects|
  {
    if |effects| == 0 then sys else Apply(ApplyOne(sys, effects[0], full), effects[1..], full)
  }

  function RunSource(sys: System, e: Event, full: set<nat>): System {
    var act := React(sys.src, e);
    Apply(sys.(src := act.src), act.effects, full)
  }

  // ── Moves ────────────────────────────────────────────────────────────────

  function Queued(links: map<nat, Link>, n: nat): map<nat, Link> {
    map g | g in links :: if links[g].up then links[g].(queue := links[g].queue + [n]) else links[g]
  }

  function PayloadOf(sys: System, n: nat): Payload
    requires n < |sys.log|
  {
    match sys.log[n]
    case CallEvent(_, _) => CallPayload(n)
    case ProbeNote(id) => ProbePayload(id)
    case Garbage => Unreadable
  }

  predicate Verifying(g: Registry, c: nat) { c < |g.conns| && g.conns[c].verifying }

  function RunSocket(sys: System, e: SocketEvent): System {
    match e
    case Arrives(now) => sys.(reg := Upgrade(sys.reg, now))
    case Says(c, input, now) => sys.(reg := OnMessage(sys.reg, c, input, now))
    case Verified(c, verdict, now, full) =>
      sys.(reg := OnVerified(sys.reg, c, verdict, now, full),
           since := if Verifying(sys.reg, c) then sys.since[c := |sys.log|] else sys.since)
    case AuthTimedOut(c) => sys.(reg := OnAuthTimeout(sys.reg, c))
    case Leaves(c) => sys.(reg := PeerLeaves(sys.reg, c))
    case Closes(c) => sys.(reg := OnClose(sys.reg, c))
    case Ticks(now, full) => sys.(reg := Tick(sys.reg, now, full))
  }

  /** A probe's own NOTIFY is sent after the probe has started: its id is random, so
      nobody else sends it. */
  function Make(sys: System, m: Move): System {
    match m
    case Emits(note) =>
      if note.ProbeNote? && note.id >= |sys.src.probes| then sys
      else sys.(log := sys.log + [note], links := Queued(sys.links, |sys.log|))
    case LinkUp(gen) =>
      if gen !in sys.src.clients || LinkOf(sys, gen).up then sys
      else sys.(links := sys.links[gen := Link(true, LinkOf(sys, gen).owed + 1, [])])
    case LinkDown(gen) =>
      if gen !in sys.links then sys else sys.(links := sys.links[gen := Link(false, sys.links[gen].owed, [])])
    case CallsBack(gen, full) =>
      if LinkOf(sys, gen).owed == 0 then sys
      else
        var link := sys.links[gen].(owed := sys.links[gen].owed - 1);
        RunSource(sys.(links := sys.links[gen := link]), Listening(gen), full)
    case Delivers(gen, full) =>
      if LinkOf(sys, gen).queue == [] || LinkOf(sys, gen).queue[0] >= |sys.log| then sys
      else
        var n := sys.links[gen].queue[0];
        var link := sys.links[gen].(queue := sys.links[gen].queue[1..]);
        RunSource(sys.(links := sys.links[gen := link]), Notified(gen, PayloadOf(sys, n)), full)
    case SourceRuns(e, full) =>
      if e.Listening? || e.Notified? || e.Stopping? then sys
      else
        var next := RunSource(sys, e, full);
        next.(began := if |next.src.probes| > |sys.began| then sys.began + [|sys.log|] else sys.began)
    case SocketRuns(e) => RunSocket(sys, e)
    case Detaches => sys.(reg := Detach(sys.reg))
    case StopsSource => if sys.reg.attached then sys else RunSource(sys, Stopping, {})
  }

  function Makes(sys: System, moves: seq<Move>): System
    decreases |moves|
  {
    if |moves| == 0 then sys else Makes(Make(sys, moves[0]), moves[1..])
  }

  // ── The composed invariant ───────────────────────────────────────────────

  predicate Names(note: Note, u: User) {
    note.CallEvent? && (note.fan == u || note.partner == u)
  }

  predicate Got(x: Conn, n: nat) { CallChanged(n) in x.sent }

  /** The current client's LISTEN is up and it knows about it. */
  predicate LinkSound(sys: System) {
    LinkOf(sys, sys.src.generation).up && LinkOf(sys, sys.src.generation).owed == 0
  }

  predicate Connected(sys: System, c: nat) {
    c < |sys.reg.conns| && sys.reg.conns[c].ready == Opened && sys.reg.conns[c].user.Some?
  }

  /** An event the socket's user is named in, not yet covered by a read of its client,
      was delivered or is in flight, unless the link is down or about to be resynced. */
  predicate Hears(sys: System, c: nat)
    requires Connected(sys, c)
  {
    && c in sys.since && sys.since[c] <= |sys.log|
    && (LinkSound(sys) ==>
          forall n :: sys.since[c] <= n < |sys.log| && Names(sys.log[n], sys.reg.conns[c].user.value) ==>
            Got(sys.reg.conns[c], n) || n in LinkOf(sys, sys.src.generation).queue)
  }

  /** Only events naming the socket's own user were ever sent to it. */
  ghost predicate OnlyOwn(sys: System, c: nat)
    requires c < |sys.reg.conns|
  {
    forall n: nat :: Got(sys.reg.conns[c], n) ==>
      n < |sys.log| && sys.reg.conns[c].user.Some? && Names(sys.log[n], sys.reg.conns[c].user.value)
  }

  predicate QueueOk(queue: seq<nat>, length: nat) {
    && (forall i, j :: 0 <= i < j < |queue| ==> queue[i] < queue[j])
    && (forall i :: 0 <= i < |queue| ==> queue[i] < length)
  }

  predicate LinksOk(sys: System) {
    && sys.links.Keys <= sys.src.clients
    && (forall g :: g in sys.links ==> QueueOk(sys.links[g].queue, |sys.log|))
    && (forall g :: g in sys.links && sys.links[g].queue != [] ==> sys.links[g].up)
  }

  predicate HealthLinked(sys: System) {
    && (sys.reg.healthy ==> sys.src.healthy || sys.src.stopped)
    && (sys.src.stopped ==> !sys.reg.attached)
  }

  ghost predicate AllHear(sys: System) { forall c: nat :: Connected(sys, c) ==> Hears(sys, c) }
  ghost predicate AllOwn(sys: System) { forall c :: 0 <= c < |sys.reg.conns| ==> OnlyOwn(sys, c) }

  ghost predicate SystemOk(sys: System) {
    && SourceOk(sys.src) && RegistryOk(sys.reg) && LinksOk(sys) && HealthLinked(sys)
    && AllHear(sys) && AllOwn(sys)
  }

  lemma BootIsOk(enabled: bool, opts: Options)
    ensures SystemOk(Boot(enabled, opts))
  {
    IdleIsOk();
  }

  lemma NobodyOpen(sys: System)
    requires RegistryOk(sys.reg) && (!sys.reg.healthy || !sys.reg.attached)
    ensures forall c: nat :: !Connected(sys, c)
    ensures AllHear(sys)
  {
    forall c: nat ensures !Connected(sys, c) {
      if 0 <= c < |sys.reg.conns| { assert ConnOk(sys.reg, c); }
    }
  }

  /** No frame but pings and greetings is added, and nobody becomes connected. */
  ghost predicate NoNews(g: Registry, h: Registry) {
    && |g.conns| <= |h.conns|
    && (forall c, n: nat :: 0 <= c < |h.conns| && Got(h.conns[c], n) ==> c < |g.conns| && Got(g.conns[c], n))
    && (forall c :: 0 <= c < |h.conns| && h.conns[c].ready == Opened && h.conns[c].user.Some? ==>
          c < |g.conns| && g.conns[c].ready == Opened && g.conns[c].user == h.conns[c].user)
  }

  lemma NoNewsKeepsAll(sys: System, next: System)
    requires AllHear(sys) && AllOwn(sys)
    requires next == sys.(reg := next.reg) && NoNews(sys.reg, next.reg) && RegistryMoves(sys.reg, next.reg)
    ensures AllHear(next) && AllOwn(next)
  {
    forall c: nat | Connected(next, c) ensures Hears(next, c) {
      assert Connected(sys, c) && Hears(sys, c);
      assert ConnMoves(sys.reg.conns[c], next.reg.conns[c]);
    }
    forall c | 0 <= c < |next.reg.conns| ensures OnlyOwn(next, c) {
      if c < |sys.reg.conns| {
        assert OnlyOwn(sys, c);
        assert ConnMoves(sys.reg.conns[c], next.reg.conns[c]);
      }
    }
  }

  // ── Socket events ────────────────────────────────────────────────────────

  lemma SocketRunsOk(sys: System, e: SocketEvent)
    requires SystemOk(sys) && !e.Verified?
    ensures SystemOk(RunSocket(sys, e))
  {
    hide SourceOk, RegistryMoves, AllHear, AllOwn, NoNews;
    SocketKeeps(sys.reg, e);
    var next := RunSocket(sys, e);
    SocketIsQuiet(sys, e);
    NoNewsKeepsAll(sys, next);
  }

  lemma SocketKeeps(g: Registry, e: SocketEvent)
    requires RegistryOk(g) && !e.Verified?
    ensures var h := RunSocket(System(IDLE, g, [], map[], map[], []), e).reg; RegistryOk(h) && RegistryMoves(g, h)
  {
    hide RegistryOk, RegistryMoves, OnMessage, OnAuthTimeout, OnClose, Tick, Upgrade;
    match e {
      case Arrives(now) => UpgradeKeeps(g, now);
      case Says(c, input, now) => MessageKeeps(g, c, input, now);
      case AuthTimedOut(c) => TimersKeep(g, c);
      case Leaves(c) => TimersKeep(g, c);
      case Closes(c) => CloseEventKeeps(g, c);
      case Ticks(now, full) => TickKeeps(g, now, full);
    }
  }

  lemma GivenPing(x: Conn, full: bool)
    ensures forall n: nat :: Got(Given(x, Ping, full), n) <==> Got(x, n)
  {
    assert forall n :: CallChanged(n) in x.sent + [Ping] <==> CallChanged(n) in x.sent;
  }

  lemma TickIsQuiet(g: Registry, now: int, full: set<nat>)
    ensures NoNews(g, Tick(g, now, full))
  {
    forall c | 0 <= c < |g.conns| { GivenPing(g.conns[c], c in full); }
  }

  /** Rewriting sockets without sending anything. */
  lemma SilentIsQuiet(g: Registry, h: Registry)
    requires |g.conns| <= |h.conns|
    requires forall c :: 0 <= c < |g.conns| ==>
               && h.conns[c].sent == g.conns[c].sent && h.conns[c].user == g.conns[c].user
               && (h.conns[c].ready == Opened ==> g.conns[c].ready == Opened)
    requires forall c :: |g.conns| <= c < |h.conns| ==> h.conns[c].sent == [] && h.conns[c].user.None?
    ensures NoNews(g, h)
  {
  }

  lemma MessageIsQuiet(g: Registry, c: nat, input: Input, now: int)
    ensures var h := OnMessage(g, c, input, now);
      NoNews(g, h) && h.healthy == g.healthy && h.attached == g.attached
  {
    hide NoNews;
    SilentIsQuiet(g, OnMessage(g, c, input, now));
  }

  lemma CloseIsQuiet(g: Registry, c: nat)
    ensures var h := OnClose(g, c); NoNews(g, h) && h.healthy == g.healthy && h.attached == g.attached
  {
    hide NoNews, Without;
    SilentIsQuiet(g, OnClose(g, c));
  }

  lemma RestIsQuiet(g: Registry, c: nat, now: int)
    ensures var h := OnAuthTimeout(g, c); NoNews(g, h) && h.healthy == g.healthy && h.attached == g.attached
    ensures var h := PeerLeaves(g, c); NoNews(g, h) && h.healthy == g.healthy && h.attached == g.attached
    ensures var h := Upgrade(g, now); NoNews(g, h) && h.healthy == g.healthy && h.attached == g.attached
  {
    hide NoNews;
    SilentIsQuiet(g, OnAuthTimeout(g, c));
    SilentIsQuiet(g, PeerLeaves(g, c));
    SilentIsQuiet(g, Upgrade(g, now));
  }

  lemma SocketIsQuiet(sys: System, e: SocketEvent)
    requires !e.Verified?
    ensures NoNews(sys.reg, RunSocket(sys, e).reg)
    ensures RunSocket(sys, e) == sys.(reg := RunSocket(sys, e).reg)
    ensures RunSocket(sys, e).reg.healthy == sys.reg.healthy && RunSocket(sys, e).reg.attached == sys.reg.attached
  {
    hide NoNews, Tick, OnMessage, OnClose, OnAuthTimeout, PeerLeaves, Upgrade;
    match e {
      case Ticks(now, full) => TickIsQuiet(sys.reg, now, full); TickFlags(sys.reg, now, full);
      case Says(c, input, now) => MessageIsQuiet(sys.reg, c, input, now);
      case Closes(c) => CloseIsQuiet(sys.reg, c);
      case Arrives(now) => RestIsQuiet(sys.reg, 0, now);
      case AuthTimedOut(c) => RestIsQuiet(sys.reg, c, 0);
      case Leaves(c) => RestIsQuiet(sys.reg, c, 0);
    }
  }

  lemma TickFlags(g: Registry, now: int, full: set<nat>)
    ensures Tick(g, now, full).healthy == g.healthy && Tick(g, now, full).attached == g.attached
  {
  }

  lemma VerifiedOk(sys: System, c: nat, verdict: Verdict, now: int, full: bool)
    requires SystemOk(sys)
    ensures SystemOk(RunSocket(sys, Verified(c, verdict, now, full)))
  {
    hide SourceOk, OnVerified;
    var next := RunSocket(sys, Verified(c, verdict, now, full));
    VerifiedKeeps(sys.reg, c, verdict, now, full);
    VerifiedFrames(sys.reg, c, verdict, now, full);
    hide RegistryOk;
    forall d: nat | Connected(next, d) ensures Hears(next, d) {
      if d != c || !Verifying(sys.reg, c) { StillHears(sys, next, d); }
    }
    forall d | 0 <= d < |next.reg.conns| ensures OnlyOwn(next, d) {
      assert OnlyOwn(sys, d);
      assert ConnMoves(sys.reg.conns[d], next.reg.conns[d]);
    }
  }

  lemma StillHears(sys: System, next: System, d: nat)
    requires AllHear(sys) && Connected(sys, d) && Connected(next, d)
    requires next == sys.(reg := next.reg, since := next.since)
    requires d in sys.since ==> d in next.since && next.since[d] == sys.since[d]
    requires sys.reg.conns[d].sent <= next.reg.conns[d].sent && next.reg.conns[d].user == sys.reg.conns[d].user
    ensures Hears(next, d)
  {
    assert Hears(sys, d);
  }

  lemma VerifiedFrames(g: Registry, c: nat, verdict: Verdict, now: int, full: bool)
    requires RegistryOk(g)
    ensures var h := OnVerified(g, c, verdict, now, full);
      && |h.conns| == |g.conns| && h.healthy == g.healthy && h.attached == g.attached
      && (forall d, n: nat :: 0 <= d < |h.conns| && Got(h.conns[d], n) ==> Got(g.conns[d], n))
      && (forall d :: 0 <= d < |h.conns| && (d != c || !Verifying(g, c)) && h.conns[d].ready == Opened ==>
            g.conns[d].ready == Opened && g.conns[d].user == h.conns[d].user)
  {
    var h := OnVerified(g, c, verdict, now, full);
    if c < |g.conns| && g.conns[c].verifying && !g.conns[c].closed && verdict.Valid? && g.healthy {
      RegisterChanges(g, c, verdict, now, full);
      assert forall n :: CallChanged(n) in g.conns[c].sent + [ReadyFrame] ==> CallChanged(n) in g.conns[c].sent;
    }
  }

  // ── The channel ──────────────────────────────────────────────────────────

  lemma EmitsOk(sys: System, note: Note)
    requires SystemOk(sys)
    ensures SystemOk(Make(sys, Emits(note)))
  {
    hide SourceOk, RegistryOk;
    var next := Make(sys, Emits(note));
    forall c: nat | Connected(next, c) ensures Hears(next, c) { assert Connected(sys, c) && Hears(sys, c); }
    forall c | 0 <= c < |next.reg.conns| ensures OnlyOwn(next, c) { assert OnlyOwn(sys, c); }
  }

  lemma LinkChangesOk(sys: System, m: Move)
    requires SystemOk(sys) && (m.LinkUp? || m.LinkDown?)
    ensures SystemOk(Make(sys, m))
  {
    hide SourceOk, RegistryOk;
    var next := Make(sys, m);
    forall c: nat | Connected(next, c) ensures Hears(next, c) { assert Connected(sys, c) && Hears(sys, c); }
    forall c | 0 <= c < |next.reg.conns| ensures OnlyOwn(next, c) { assert OnlyOwn(sys, c); }
  }

  // ── The source ───────────────────────────────────────────────────────────

  /** Away from the channel, an event of the source has at most a health effect, and
      leaves the generation alone unless health ends or was already off. */
  lemma SourceEffects(s: Source, e: Event)
    requires SourceOk(s) && !e.Listening? && !e.Notified? && !e.Stopping?
    ensures var act := React(s, e);
      && (act.effects == [] || (|act.effects| == 1 && act.effects[0] == HealthIs(act.src.healthy)))
      && (act.effects == [] ==> act.src.healthy == s.healthy)
      && (act.src.generation != s.generation ==> !act.src.healthy)
      && act.src.stopped == s.stopped && s.clients <= act.src.clients
  {
    hide OnProbeResumed, Proven;
    match e {
      case ProbeResumed(id) => ResumeEffects(s, id);
      case _ =>
    }
  }

  lemma ResumeEffects(s: Source, id: nat)
    ensures var act := OnProbeResumed(s, id);
      && (act.effects == [] || (|act.effects| == 1 && act.effects[0] == HealthIs(act.src.healthy)))
      && (act.effects == [] ==> act.src.healthy == s.healthy)
      && (act.src.generation != s.generation ==> !act.src.healthy)
      && act.src.stopped == s.stopped && s.clients <= act.src.clients
  {
  }

  lemma OneEffect(sys: System, x: Effect, full: set<nat>)
    ensures Apply(sys, [x], full) == ApplyOne(sys, x, full) && Apply(sys, [], full) == sys
  {
    assert [x][1..] == [];
  }

  lemma HealthIsQuiet(g: Registry, h: bool)
    ensures NoNews(g, OnHealth(g, h))
  {
  }

  lemma SourceRunsOk(sys: System, e: Event, full: set<nat>)
    requires SystemOk(sys) && !e.Listening? && !e.Notified? && !e.Stopping?
    ensures SystemOk(RunSource(sys, e, full)) && RunSource(sys, e, full).src == React(sys.src, e).src
  {
    var act := React(sys.src, e);
    ReactKeepsSource(sys.src, e);
    SourceEffects(sys.src, e);
    OneEffect(sys.(src := act.src), HealthIs(act.src.healthy), full);
    assert act.effects == [] || act.effects == [HealthIs(act.src.healthy)];
    hide SourceOk, React, Apply, OnHealth, RegistryOk;
    var next := RunSource(sys, e, full);
    HealthKeeps(sys.reg, act.src.healthy);
    HealthFlag(sys.reg, act.src.healthy);
    HealthIsQuiet(sys.reg, act.src.healthy);
    assert next.reg == sys.reg || next.reg == OnHealth(sys.reg, act.src.healthy);
    if act.src.generation == sys.src.generation {
      QuietSource(sys, next);
    } else {
      NobodyOpen(next);
      QuietOwn(sys, next);
    }
  }

  lemma HealthFlag(g: Registry, h: bool)
    ensures OnHealth(g, h).healthy == h && OnHealth(g, h).attached == g.attached
  {
  }

  lemma QuietSource(sys: System, next: System)
    requires AllHear(sys) && AllOwn(sys) && next.src.generation == sys.src.generation
    requires next == sys.(src := next.src, reg := next.reg)
    requires next.reg == sys.reg || (NoNews(sys.reg, next.reg) && RegistryMoves(sys.reg, next.reg))
    ensures AllHear(next) && AllOwn(next)
  {
    forall c: nat | Connected(next, c) ensures Hears(next, c) {
      assert Connected(sys, c) && Hears(sys, c);
      if next.reg != sys.reg { assert ConnMoves(sys.reg.conns[c], next.reg.conns[c]); }
    }
    QuietOwn(sys, next);
  }

  lemma QuietOwn(sys: System, next: System)
    requires AllOwn(sys) && next.log == sys.log
    requires next.reg == sys.reg || (NoNews(sys.reg, next.reg) && RegistryMoves(sys.reg, next.reg))
    ensures AllOwn(next)
  {
    forall c | 0 <= c < |next.reg.conns| ensures OnlyOwn(next, c) {
      if c < |sys.reg.conns| {
        assert OnlyOwn(sys, c);
        if next.reg != sys.reg { assert ConnMoves(sys.reg.conns[c], next.reg.conns[c]); }
      }
    }
  }

  // ── Callbacks of the channel ─────────────────────────────────────────────

  lemma BroadcastFrames(g: Registry, full: set<nat>)
    ensures var h := Broadcast(g, full);
      && |h.conns| == |g.conns| && h.healthy == g.healthy && h.attached == g.attached && h.byUser == g.byUser
      && (forall c :: 0 <= c < |g.conns| ==>
            && h.conns[c].user == g.conns[c].user
            && (h.conns[c].ready == Opened ==> g.conns[c].ready == Opened)
            && forall n: nat :: Got(h.conns[c], n) <==> Got(g.conns[c], n))
  {
    forall c | 0 <= c < |g.conns|
      ensures forall n :: CallChanged(n) in g.conns[c].sent + [Resync] <==> CallChanged(n) in g.conns[c].sent
    {}
  }

  /** The client is told that it listens again: if it listened before, everyone
      connected is told to resync. */
  lemma CallsBackOk(sys: System, gen: nat, full: set<nat>)
    requires SystemOk(sys) && LinkOf(sys, gen).owed > 0
    ensures SystemOk(Make(sys, CallsBack(gen, full)))
  {
    var link := sys.links[gen].(owed := sys.links[gen].owed - 1);
    var mid := sys.(links := sys.links[gen := link]);
    var act := React(sys.src, Listening(gen));
    ReactKeepsSource(sys.src, Listening(gen));
    OneEffect(mid.(src := act.src), ResyncAll, full);
    var next := Make(sys, CallsBack(gen, full));
    if act.effects == [ResyncAll] {
      BroadcastKeeps(sys.reg, full);
      BroadcastFrames(sys.reg, full);
      ResyncedOk(sys, mid, next, full);
    } else {
      assert act.effects == [] && next == mid.(src := act.src);
      UntoldOk(sys, next, gen);
    }
  }

  lemma ResyncedOk(sys: System, mid: System, next: System, full: set<nat>)
    requires SystemOk(sys) && mid == sys.(links := mid.links) && RegistryOk(Broadcast(sys.reg, full))
    requires next == mid.(src := next.src, reg := Broadcast(sys.reg, full), since := Mark(sys)) && SourceOk(next.src)
    requires LinksOk(mid) && sys.src.clients <= next.src.clients
    requires next.src.healthy == sys.src.healthy && next.src.stopped == sys.src.stopped
    ensures SystemOk(next)
  {
    BroadcastFrames(sys.reg, full);
    hide SourceOk, Broadcast;
    forall c: nat | Connected(next, c) ensures Hears(next, c) {
      assert ConnOk(sys.reg, c);
      assert InSet(sys.reg, sys.reg.conns[c].user.value, c);
      assert Registered(sys.reg, c);
      assert next.since[c] == |sys.log|;
    }
    forall c | 0 <= c < |next.reg.conns| ensures OnlyOwn(next, c) { assert OnlyOwn(sys, c); }
  }

  /** A callback that reaches nobody: a stale client, a stopped source, or the first
      LISTEN of all, before any socket was accepted. */
  lemma UntoldOk(sys: System, next: System, gen: nat)
    requires SystemOk(sys) && LinkOf(sys, gen).owed > 0 && gen in sys.links
    requires next == sys.(src := OnListening(sys.src, gen).src, links := next.links) && SourceOk(next.src)
    requires next.links == sys.links[gen := sys.links[gen].(owed := sys.links[gen].owed - 1)]
    requires OnListening(sys.src, gen).effects == []
    ensures SystemOk(next)
  {
    if gen == sys.src.generation {
      assert !sys.reg.healthy || !sys.reg.attached;
      NobodyOpen(sys);
      NobodyOpen(next);
    } else {
      forall c: nat | Connected(next, c) ensures Hears(next, c) { assert Connected(sys, c) && Hears(sys, c); }
    }
    forall c | 0 <= c < |next.reg.conns| ensures OnlyOwn(next, c) { assert OnlyOwn(sys, c); }
  }

  lemma RouteFrames(g: Registry, fan: User, partner: User, event: nat, full: set<nat>)
    ensures var h := Route(g, fan, partner, event, full);
      && |h.conns| == |g.conns| && h.healthy == g.healthy && h.attached == g.attached
      && (forall c :: 0 <= c < |g.conns| ==>
            && h.conns[c].user == g.conns[c].user
            && (h.conns[c].ready == Opened ==> g.conns[c].ready == Opened)
            && (forall n: nat :: Got(h.conns[c], n) ==>
                  Got(g.conns[c], n) || (n == event && (InSet(g, fan, c) || InSet(g, partner, c))))
            && (forall n: nat :: Got(g.conns[c], n) ==> Got(h.conns[c], n))
            && (h.conns[c].ready == Opened && (InSet(g, fan, c) || InSet(g, partner, c)) ==> Got(h.conns[c], event)))
  {
    hide InSet;
    forall c | 0 <= c < |g.conns|
      ensures forall n :: CallChanged(n) in g.conns[c].sent + [CallChanged(event)] <==> CallChanged(n) in g.conns[c].sent || n == event
    {}
  }

  lemma DeliversOk(sys: System, gen: nat, full: set<nat>)
    requires SystemOk(sys)
    ensures SystemOk(Make(sys, Delivers(gen, full)))
  {
    var queue := LinkOf(sys, gen).queue;
    if queue != [] && queue[0] < |sys.log| {
      var n := queue[0];
      var link := sys.links[gen].(queue := queue[1..]);
      var mid := sys.(links := sys.links[gen := link]);
      var e := Notified(gen, PayloadOf(sys, n));
      var act := React(sys.src, e);
      ReactKeepsSource(sys.src, e);
      ReactMoves(sys.src, e);
      OneEffect(mid.(src := act.src), Changed(n), full);
      var next := Make(sys, Delivers(gen, full));
      assert LinksOk(mid);
      if act.effects == [Changed(n)] {
        var note := sys.log[n];
        RouteKeeps(sys.reg, note.fan, note.partner, n, full);
        RoutedOk(sys, next, gen, full);
      } else {
        assert act.effects == [] && next == mid.(src := act.src);
        SkippedOk(sys, next, gen);
      }
    }
  }

  /** The event at the head of the current link's queue, handed to its two parties. */
  ghost predicate Routes(sys: System, next: System, gen: nat, full: set<nat>) {
    && SystemOk(sys) && gen in sys.links && sys.links[gen].queue != [] && gen == sys.src.generation
    && var n := sys.links[gen].queue[0];
       && n < |sys.log| && sys.log[n].CallEvent?
       && next == sys.(reg := Route(sys.reg, sys.log[n].fan, sys.log[n].partner, n, full),
                       links := sys.links[gen := sys.links[gen].(queue := sys.links[gen].queue[1..])])
  }

  lemma RoutedHears(sys: System, next: System, gen: nat, full: set<nat>, c: nat)
    requires Routes(sys, next, gen, full) && Connected(next, c)
    ensures Hears(next, c)
  {
    var n := sys.links[gen].queue[0];
    RouteFrames(sys.reg, sys.log[n].fan, sys.log[n].partner, n, full);
    hide SourceOk, Route;
    assert Connected(sys, c) && Hears(sys, c);
    assert ConnOk(sys.reg, c);
    assert sys.links[gen].queue == [n] + sys.links[gen].queue[1..];
  }

  lemma RoutedOwn(sys: System, next: System, gen: nat, full: set<nat>, c: nat)
    requires Routes(sys, next, gen, full) && c < |next.reg.conns|
    ensures OnlyOwn(next, c)
  {
    var n := sys.links[gen].queue[0];
    var note := sys.log[n];
    RouteFrames(sys.reg, note.fan, note.partner, n, full);
    hide SourceOk, Route, LinksOk, AllHear;
    assert OnlyOwn(sys, c);
    if InSet(sys.reg, note.fan, c) { assert UserSetOk(sys.reg, note.fan); }
    if InSet(sys.reg, note.partner, c) { assert UserSetOk(sys.reg, note.partner); }
  }

  lemma RoutedOk(sys: System, next: System, gen: nat, full: set<nat>)
    requires Routes(sys, next, gen, full) && RegistryOk(next.reg)
    ensures SystemOk(next)
  {
    forall c: nat | Connected(next, c) ensures Hears(next, c) { RoutedHears(sys, next, gen, full, c); }
    forall c | 0 <= c < |next.reg.conns| ensures OnlyOwn(next, c) { RoutedOwn(sys, next, gen, full, c); }
    RouteFrames(sys.reg, sys.log[sys.links[gen].queue[0]].fan, sys.log[sys.links[gen].queue[0]].partner,
                sys.links[gen].queue[0], full);
    hide SourceOk, RegistryOk, Route, Hears, OnlyOwn, Connected;
  }

  /** A probe, an unreadable note, or a note of a discarded client. */
  lemma SkippedOk(sys: System, next: System, gen: nat)
    requires SystemOk(sys) && gen in sys.links && sys.links[gen].queue != [] && SourceOk(next.src)
    requires next == sys.(src := next.src, links := sys.links[gen := sys.links[gen].(queue := sys.links[gen].queue[1..])])
    requires next.src == sys.src.(probes := next.src.probes)
    requires gen != sys.src.generation || !sys.log[sys.links[gen].queue[0]].CallEvent?
    ensures SystemOk(next)
  {
    hide SourceOk, RegistryOk;
    var queue := sys.links[gen].queue;
    assert queue == [queue[0]] + queue[1..];
    forall c: nat | Connected(next, c) ensures Hears(next, c) { assert Connected(sys, c) && Hears(sys, c); }
    forall c | 0 <= c < |next.reg.conns| ensures OnlyOwn(next, c) { assert OnlyOwn(sys, c); }
  }

  // ── Shutting down ────────────────────────────────────────────────────────

  lemma DetachOk(sys: System)
    requires SystemOk(sys)
    ensures SystemOk(Make(sys, Detaches)) && forall c: nat :: !Connected(Make(sys, Detaches), c)
  {
    hide SourceOk;
    var next := Make(sys, Detaches);
    CloseAllKeeps(sys.reg, sys.reg.(attached := false));
    SilentIsQuiet(sys.reg, next.reg);
    NobodyOpen(next);
    forall c | 0 <= c < |next.reg.conns| ensures OnlyOwn(next, c) { assert OnlyOwn(sys, c); }
  }

  lemma StopOk(sys: System)
    requires SystemOk(sys)
    ensures SystemOk(Make(sys, StopsSource))
  {
    if !sys.reg.attached {
      var next := Make(sys, StopsSource);
      ReactKeepsSource(sys.src, Stopping);
      OneEffect(sys.(src := next.src), ResyncAll, {});
      NobodyOpen(next);
      forall c | 0 <= c < |next.reg.conns| ensures OnlyOwn(next, c) { assert OnlyOwn(sys, c); }
    }
  }

  // ── Every run ────────────────────────────────────────────────────────────

  lemma BeganIsFree(sys: System, next: System)
    requires SystemOk(sys) && next == sys.(began := next.began)
    ensures SystemOk(next)
  {
    hide SourceOk, RegistryOk;
    forall c: nat | Connected(next, c) ensures Hears(next, c) { assert Connected(sys, c) && Hears(sys, c); }
    forall c | 0 <= c < |next.reg.conns| ensures OnlyOwn(next, c) { assert OnlyOwn(sys, c); }
  }

  lemma MakeKeepsSystem(sys: System, m: Move)
    requires SystemOk(sys)
    ensures SystemOk(Make(sys, m))
  {
    hide SystemOk, RunSource, RunSocket, Queued;
    match m {
      case Emits(note) => EmitsOk(sys, note);
      case LinkUp(gen) => LinkChangesOk(sys, m);
      case LinkDown(gen) => LinkChangesOk(sys, m);
      case CallsBack(gen, full) => if LinkOf(sys, gen).owed > 0 { CallsBackOk(sys, gen, full); }
      case Delivers(gen, full) => DeliversOk(sys, gen, full);
      case SourceRuns(e, full) =>
        if !e.Listening? && !e.Notified? && !e.Stopping? {
          SourceRunsOk(sys, e, full);
          BeganIsFree(RunSource(sys, e, full), Make(sys, m));
        }
      case SocketRuns(e) =>
        if e.Verified? { VerifiedOk(sys, e.c, e.verdict, e.now, e.congested); } else { SocketRunsOk(sys, e); }
      case Detaches => DetachOk(sys);
      case StopsSource => StopOk(sys);
    }
  }

  lemma {:induction false} MakesKeepSystem(sys: System, moves: seq<Move>)
    requires SystemOk(sys)
    ensures SystemOk(Makes(sys, moves))
    decreases |moves|
  {
    hide SystemOk, Make;
    if |moves| > 0 {
      MakeKeepsSystem(sys, moves[0]);
      MakesKeepSystem(Make(sys, moves[0]), moves[1..]);
    }
  }

  /** No silently deaf socket. After any run from boot: a connected socket lacks an
      event naming its user, since its client last read the state, only while the
      event is in flight, the LISTEN link is down, or the resync for its return is
      about to be sent. The server is then healthy and proven on the current client,
      and no socket was ever sent an event naming only others. */
  lemma NoSilentlyDeafSocket(enabled: bool, opts: Options, moves: seq<Move>, c: nat, n: nat)
    requires var sys := Makes(Boot(enabled, opts), moves); Connected(sys, c)
    ensures var sys := Makes(Boot(enabled, opts), moves); var x := sys.reg.conns[c];
      && sys.reg.healthy && sys.src.healthy && Proven(sys.src, sys.src.generation)
      && c in sys.since && sys.since[c] <= |sys.log|
      && InSet(sys.reg, x.user.value, c)
      && (sys.since[c] <= n < |sys.log| && Names(sys.log[n], x.user.value) && !Got(x, n) ==>
            || n in LinkOf(sys, sys.src.generation).queue
            || !LinkOf(sys, sys.src.generation).up
            || LinkOf(sys, sys.src.generation).owed > 0)
      && (Got(x, n) ==> n < |sys.log| && Names(sys.log[n], x.user.value))
  {
    BootIsOk(enabled, opts);
    MakesKeepSystem(Boot(enabled, opts), moves);
    var sys := Makes(Boot(enabled, opts), moves);
    hide Makes;
    assert Hears(sys, c) && OnlyOwn(sys, c) && ConnOk(sys.reg, c);
  }

  /** When the callback for the returned link comes, every connected socket has just
      been sent a resync or is being dropped. */
  lemma ReturnResyncsEveryone(sys: System, full: set<nat>, c: nat)
    requires SystemOk(sys) && LinkOf(sys, sys.src.generation).owed > 0
    requires var next := Make(sys, CallsBack(sys.src.generation, full)); Connected(next, c)
    ensures var next := Make(sys, CallsBack(sys.src.generation, full));
      c in next.since && next.since[c] == |next.log| && c < |sys.reg.conns| && next.reg.conns[c].sent == sys.reg.conns[c].sent + [Resync]
  {
    var gen := sys.src.generation;
    var link := sys.links[gen].(owed := sys.links[gen].owed - 1);
    var mid := sys.(links := sys.links[gen := link]);
    var act := React(sys.src, Listening(gen));
    OneEffect(mid.(src := act.src), ResyncAll, full);
    if sys.reg.healthy && sys.reg.attached {
      assert act.effects == [ResyncAll];
      assert c < |sys.reg.conns| && ConnOk(sys.reg, c);
      BroadcastFrames(sys.reg, full);
      assert InSet(sys.reg, sys.reg.conns[c].user.value, c);
      assert Registered(sys.reg, c);
    } else {
      CallsBackOk(sys, gen, full);
      NobodyOpen(Make(sys, CallsBack(gen, full)));
    }
  }

  /** A missed probe of the current client leaves no socket open. */
  lemma MissedProbeClosesEveryone(sys: System, id: nat, full: set<nat>)
    requires SystemOk(sys) && !sys.src.stopped && id < |sys.src.probes|
    requires sys.src.probes[id] == Probe(sys.src.generation, Resolved(false))
    ensures var next := Make(sys, SourceRuns(ProbeResumed(id), full));
      !next.src.healthy && !next.reg.healthy && forall c: nat :: !Connected(next, c)
  {
    var next := Make(sys, SourceRuns(ProbeResumed(id), full));
    MakeKeepsSystem(sys, SourceRuns(ProbeResumed(id), full));
    SourceRunsOk(sys, ProbeResumed(id), full);
    MissEndsHealth(sys.src, id);
    NobodyOpen(next);
  }

  lemma MissEndsHealth(s: Source, id: nat)
    requires id < |s.probes| && s.probes[id] == Probe(s.generation, Resolved(false)) && !s.stopped
    ensures !OnProbeResumed(s, id).src.healthy && !OnProbeResumed(s, id).src.stopped
  {
  }

  /** Discarding the client, for whatever reason, leaves no socket open. */
  lemma RecycleClosesEveryone(sys: System, e: Event, full: set<nat>)
    requires SystemOk(sys) && !e.Listening? && !e.Notified? && !e.Stopping?
    requires React(sys.src, e).src.generation != sys.src.generation
    ensures forall c: nat :: !Connected(Make(sys, SourceRuns(e, full)), c)
  {
    var next := Make(sys, SourceRuns(e, full));
    MakeKeepsSystem(sys, SourceRuns(e, full));
    SourceRunsOk(sys, e, full);
    SourceEffects(sys.src, e);
    OneEffect(sys.(src := React(sys.src, e).src), HealthIs(false), full);
    hide React, RegistryOk, SourceOk;
    NobodyOpen(next);
  }

  /** Notes arrive in order, so when our own probe arrives on a sound link, every
      event sent before it has reached every connected socket it names, or was
      covered by that client's own read. */
  lemma ProbeProvesDelivery(sys: System, c: nat, m: nat)
    requires SystemOk(sys) && LinkSound(sys) && Connected(sys, c)
    requires var queue := LinkOf(sys, sys.src.generation).queue;
      queue != [] && queue[0] < |sys.log| && sys.log[queue[0]].ProbeNote? && m < queue[0]
    requires Names(sys.log[m], sys.reg.conns[c].user.value)
    ensures Got(sys.reg.conns[c], m) || m < sys.since[c]
  {
    hide SourceOk, RegistryOk;
    assert Hears(sys, c);
  }

  // ── The claims are about something ───────────────────────────────────────

  lemma {:induction false} MakesSplit(sys: System, xs: seq<Move>, ys: seq<Move>)
    ensures Makes(sys, xs + ys) == Makes(Makes(sys, xs), ys)
    decreases |xs|
  {
    hide Make;
    if |xs| == 0 {
      assert xs + ys == ys;
    } else {
      assert (xs + ys)[1..] == xs[1..] + ys;
      MakesSplit(Make(sys, xs[0]), xs[1..], ys);
    }
  }

  const BOOTING: seq<Move> :=
    [SourceRuns(Starting, {}), LinkUp(1), CallsBack(1, {}), SourceRuns(ProbeTimerFired, {}),
     Emits(ProbeNote(0)), Delivers(1, {}), SourceRuns(ProbeResumed(0), {})]

  const GREETING: seq<Move> :=
    [SocketRuns(Arrives(0)), SocketRuns(Says(0, Auth(true), 1)), SocketRuns(Verified(0, Valid(7, None), 2, false))]

  const PROVEN: Source :=
    Source(1, true, false, true, true, 0, 0, Some(1), {1}, Some(1), false, 0, [Probe(1, Finished(true))])

  const OPENED: Source := Source(1, true, false, false, false, 0, 0, Some(1), {1}, None, false, 0, [])
  const HEARING: Source := OPENED.(everListened := true, probeTimer := Some(1))
  const PROBING: Source := HEARING.(probeTimer := None, probes := [Probe(1, Waiting)])
  const ECHOED: Source := PROBING.(probes := [Probe(1, Resolved(true))])

  lemma SourceBoots()
    ensures React(IDLE, Starting) == Quiet(OPENED)
    ensures React(OPENED, Listening(1)) == Quiet(HEARING)
    ensures React(HEARING, ProbeTimerFired) == Quiet(PROBING)
    ensures React(PROBING, Notified(1, ProbePayload(0))) == Quiet(ECHOED)
    ensures React(ECHOED, ProbeResumed(0)) == Act(PROVEN, [HealthIs(true)])
  {
    assert [Probe(1, Waiting)][0 := Probe(1, Resolved(true))] == [Probe(1, Resolved(true))];
    assert [Probe(1, Resolved(true))][0 := Probe(1, Finished(true))] == [Probe(1, Finished(true))];
  }

  /** From boot, one listen and one answered probe make the server accept sockets. */
  lemma BootReachesHealth()
    ensures var sys := Makes(Boot(true, DEFAULTS), BOOTING);
      sys.reg == Fresh(true, DEFAULTS).(healthy := true) && sys.src == PROVEN && sys.log == [ProbeNote(0)] && LinkSound(sys)
  {
    hide Makes, React;
    SourceBoots();
    var s0 := Boot(true, DEFAULTS);
    var s1 := s0.(src := OPENED);
    var s2 := s1.(links := map[1 := Link(true, 1, [])]);
    var s3 := s1.(src := HEARING, links := map[1 := Link(true, 0, [])]);
    var s4 := s3.(src := PROBING, began := [0]);
    var s5 := s4.(log := [ProbeNote(0)], links := map[1 := Link(true, 0, [0])]);
    var s6 := s5.(src := ECHOED, links := map[1 := Link(true, 0, [])]);
    var s7 := s6.(src := PROVEN, reg := Fresh(true, DEFAULTS).(healthy := true));
    assert Make(s0, BOOTING[0]) == s1;
    assert Make(s1, BOOTING[1]) == s2;
    assert Make(s2, BOOTING[2]) == s3;
    assert Make(s3, BOOTING[3]) == s4;
    assert [] + [0] == [0] && [] + [ProbeNote(0)] == [ProbeNote(0)];
    assert Queued(s4.links, 0) == s5.links;
    assert Make(s4, BOOTING[4]) == s5;
    assert s5.links[1].queue[1..] == [] && PayloadOf(s5, 0) == ProbePayload(0);
    assert s5.links[1 := Link(true, 0, [])] == s6.links;
    assert Make(s5, BOOTING[5]) == s6;
    OneEffect(s6.(src := PROVEN), HealthIs(true), {});
    assert Make(s6, BOOTING[6]) == s7;
    SevenMoves(s0);
  }

  lemma SevenMoves(s0: System)
    ensures Makes(s0, BOOTING) == Make(Make(Make(Make(Make(Make(Make(s0, BOOTING[0]), BOOTING[1]), BOOTING[2]), BOOTING[3]),
                                       BOOTING[4]), BOOTING[5]), BOOTING[6])
  {
    hide Make;
    var s1 := Make(s0, BOOTING[0]);
    var s2 := Make(s1, BOOTING[1]);
    var s3 := Make(s2, BOOTING[2]);
    var s4 := Make(s3, BOOTING[3]);
    var s5 := Make(s4, BOOTING[4]);
    var s6 := Make(s5, BOOTING[5]);
    var s7 := Make(s6, BOOTING[6]);
    assert Makes(s7, BOOTING[7..]) == s7;
    assert Makes(s6, BOOTING[6..]) == s7;
    assert Makes(s5, BOOTING[5..]) == s7;
    assert Makes(s4, BOOTING[4..]) == s7;
    assert Makes(s3, BOOTING[3..]) == s7;
    assert Makes(s2, BOOTING[2..]) == s7;
    assert Makes(s1, BOOTING[1..]) == s7;
  }

  /** There are runs with a connected socket. */
  lemma SomeoneConnects()
    ensures exists moves :: Connected(Makes(Boot(true, DEFAULTS), moves), 0)
  {
    BootReachesHealth();
    var s7 := Makes(Boot(true, DEFAULTS), BOOTING);
    MakesSplit(Boot(true, DEFAULTS), BOOTING, GREETING);
    hide Makes;
    var s8 := Make(s7, GREETING[0]);
    assert |s8.reg.conns| == 1 && s8.reg.pending == {0};
    var s9 := Make(s8, GREETING[1]);
    assert s9.reg.conns[0].verifying && s9.reg.conns[0].ready == Opened;
    var s10 := Make(s9, GREETING[2]);
    assert Connected(s10, 0);
    ThreeMoves(s7);
    assert Connected(Makes(Boot(true, DEFAULTS), BOOTING + GREETING), 0);
  }

  lemma ThreeMoves(s: System)
    ensures Makes(s, GREETING) == Make(Make(Make(s, GREETING[0]), GREETING[1]), GREETING[2])
  {
    hide Make;
    var s1 := Make(s, GREETING[0]);
    var s2 := Make(s1, GREETING[1]);
    var s3 := Make(s2, GREETING[2]);
    assert Makes(s3, GREETING[3..]) == s3;
    assert Makes(s2, GREETING[2..]) == s3;
    assert Makes(s1, GREETING[1..]) == s3;
  }
}
