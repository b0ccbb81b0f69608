/** How long a connected socket can go without an event: no longer than the probes
    that were started after the event take to come to an end.
 */
module Deafness {
  import opened Schema
  import opened Sockets
  import opened Listener
  import opened Delivery

  /** The socket has the event, its client has read the state since, or a resync is
      about to be sent to it. */
  predicate Covered(sys: System, c: nat, n: nat)
    requires c < |sys.reg.conns|
  {
    Got(sys.reg.conns[c], n) || (c in sys.since && n < sys.since[c]) || LinkOf(sys, sys.src.generation).owed > 0
  }

  /** The probe came back, was given up, or belongs to a discarded client. */
  predicate Ended(s: Source, id: nat)
    requires id < |s.probes|
  {
    s.probes[id].gen != s.generation || s.probes[id].state.Finished? || s.probes[id].state == Resolved(true)
  }

  /** Every probe has a starting point, and its note came after it. */
  predicate NotesFollowProbes(sys: System) {
    && |sys.began| == |sys.src.probes|
    && (forall id :: 0 <= id < |sys.began| ==> sys.began[id] <= |sys.log|)
    && (forall p :: 0 <= p < |sys.log| && sys.log[p].ProbeNote? ==>
          sys.log[p].id < |sys.began| && sys.began[sys.log[p].id] <= p)
  }

  predicate NamesHim(sys: System, c: nat, n: nat)
    requires c < |sys.reg.conns| && n < |sys.log|
  {
    sys.reg.conns[c].user.Some? && Names(sys.log[n], sys.reg.conns[c].user.value)
  }

  predicate ProbeCovers(sys: System, id: nat, c: nat)
    requires id < |sys.began| && c < |sys.reg.conns|
  {
    forall n :: 0 <= n < sys.began[id] && n < |sys.log| && NamesHim(sys, c, n) ==> Covered(sys, c, n)
  }

  /** Every ended probe covers all that was sent before it, for everyone connected. */
  ghost predicate EndedProbesCover(sys: System) {
    forall id: nat, c: nat :: id < |sys.began| && id < |sys.src.probes| && Ended(sys.src, id) && Connected(sys, c) ==>
      ProbeCovers(sys, id, c)
  }

  ghost predicate ProbesOk(sys: System) {
    SystemOk(sys) && NotesFollowProbes(sys) && EndedProbesCover(sys)
  }

  lemma BootProbesOk(enabled: bool, opts: Options)
    ensures ProbesOk(Boot(enabled, opts))
  {
    BootIsOk(enabled, opts);
  }

  // ── What a move leaves alone ─────────────────────────────────────────────

  lemma {:induction false} ApplyKeeps(sys: System, effects: seq<Effect>, full: set<nat>)
    ensures var next := Apply(sys, effects, full); next == sys.(reg := next.reg, since := next.since)
    decreases |effects|
  {
    if |effects| > 0 { ApplyKeeps(ApplyOne(sys, effects[0], full), effects[1..], full); }
  }

  lemma RunSourceKeeps(sys: System, e: Event, full: set<nat>)
    ensures var next := RunSource(sys, e, full);
      next == sys.(src := React(sys.src, e).src, reg := next.reg, since := next.since)
  {
    hide React;
    var act := React(sys.src, e);
    ApplyKeeps(sys.(src := act.src), act.effects, full);
  }

  /** Only the probe timer starts a probe, and only one. */
  lemma ProbesGrowByOne(s: Source, e: Event)
    ensures var t := React(s, e).src; |s.probes| <= |t.probes| <= |s.probes| + 1
    ensures !e.ProbeTimerFired? ==> |React(s, e).src.probes| == |s.probes|
  {
    hide OnProbeResumed;
    match e {
      case ProbeResumed(id) => ResumeKeepsCount(s, id);
      case _ =>
    }
  }

  lemma ResumeKeepsCount(s: Source, id: nat)
    ensures |OnProbeResumed(s, id).src.probes| == |s.probes|
    ensures forall x :: 0 <= x < |s.probes| && x != id ==> OnProbeResumed(s, id).src.probes[x] == s.probes[x]
  {
    hide SetHealthy, Recycle;
    if id < |s.probes| && s.probes[id].state.Resolved? {
      var gen, ok := s.probes[id].gen, s.probes[id].state.ok;
      var done := s.(probes := s.probes[id := Probe(gen, Finished(ok))]);
      HealthShape(done.(failures := 0, attempts := 0), true);
      HealthShape(done.(failures := s.failures + 1), false);
      RecycleShape(SetHealthy(done.(failures := s.failures + 1), false).src, gen);
    }
  }

  lemma NotesStayBehind(sys: System, m: Move)
    requires NotesFollowProbes(sys)
    ensures NotesFollowProbes(Make(sys, m))
  {
    hide React, RunSource, RunSocket, Detach, Queued;
    match m {
      case Emits(note) =>
      case CallsBack(gen, full) =>
        if LinkOf(sys, gen).owed > 0 {
          var mid := sys.(links := sys.links[gen := sys.links[gen].(owed := sys.links[gen].owed - 1)]);
          RunSourceKeeps(mid, Listening(gen), full);
          ProbesGrowByOne(sys.src, Listening(gen));
        }
      case Delivers(gen, full) =>
        var queue := LinkOf(sys, gen).queue;
        if queue != [] && queue[0] < |sys.log| {
          var mid := sys.(links := sys.links[gen := sys.links[gen].(queue := queue[1..])]);
          RunSourceKeeps(mid, Notified(gen, PayloadOf(sys, queue[0])), full);
          ProbesGrowByOne(sys.src, Notified(gen, PayloadOf(sys, queue[0])));
        }
      case SourceRuns(e, full) => RunSourceKeeps(sys, e, full); ProbesGrowByOne(sys.src, e);
      case SocketRuns(e) => SocketKeepsRest(sys, e);
      case StopsSource => RunSourceKeeps(sys, Stopping, {}); ProbesGrowByOne(sys.src, Stopping);
      case _ =>
    }
  }

  lemma SocketKeepsRest(sys: System, e: SocketEvent)
    ensures var next := RunSocket(sys, e); next == sys.(reg := next.reg, since := next.since)
  {
  }

  /** No move shortens the log, and the notes in it stay. */
  lemma LogGrows(sys: System, m: Move)
    ensures sys.log <= Make(sys, m).log
    ensures |sys.began| <= |Make(sys, m).began| && forall id :: 0 <= id < |sys.began| ==> Make(sys, m).began[id] == sys.began[id]
  {
    hide React, RunSource, RunSocket, Detach, Queued;
    match m {
      case CallsBack(gen, full) =>
        if LinkOf(sys, gen).owed > 0 {
          RunSourceKeeps(sys.(links := sys.links[gen := sys.links[gen].(owed := sys.links[gen].owed - 1)]), Listening(gen), full);
        }
      case Delivers(gen, full) =>
        var queue := LinkOf(sys, gen).queue;
        if queue != [] && queue[0] < |sys.log| {
          RunSourceKeeps(sys.(links := sys.links[gen := sys.links[gen].(queue := queue[1..])]),
                         Notified(gen, PayloadOf(sys, queue[0])), full);
        }
      case SourceRuns(e, full) => RunSourceKeeps(sys, e, full);
      case SocketRuns(e) => SocketKeepsRest(sys, e);
      case StopsSource => RunSourceKeeps(sys, Stopping, {});
      case _ =>
    }
  }

  // ── Connections across a move ────────────────────────────────────────────

  /** The socket was open for the same user before, and nothing it was sent is lost. */
  predicate Carried(g: Registry, h: Registry, c: nat) {
    && c < |g.conns| && c < |h.conns| && g.conns[c].ready == Opened && g.conns[c].user == h.conns[c].user
    && g.conns[c].sent <= h.conns[c].sent
  }

  predicate OpenFor(h: Registry, c: nat) {
    c < |h.conns| && h.conns[c].ready == Opened && h.conns[c].user.Some?
  }

  lemma HealthCarries(g: Registry, h: bool, c: nat)
    requires RegistryOk(g) && OpenFor(OnHealth(g, h), c)
    ensures Carried(g, OnHealth(g, h), c)
  {
    HealthKeeps(g, h);
    HealthIsQuiet(g, h);
    assert ConnMoves(g.conns[c], OnHealth(g, h).conns[c]);
  }

  lemma BroadcastCarries(g: Registry, full: set<nat>, c: nat)
    requires RegistryOk(g) && OpenFor(Broadcast(g, full), c)
    ensures Carried(g, Broadcast(g, full), c)
  {
    BroadcastKeeps(g, full);
    BroadcastFrames(g, full);
    assert ConnMoves(g.conns[c], Broadcast(g, full).conns[c]);
  }

  lemma RouteCarries(g: Registry, fan: User, partner: User, n: nat, full: set<nat>, c: nat)
    requires RegistryOk(g) && OpenFor(Route(g, fan, partner, n, full), c)
    ensures Carried(g, Route(g, fan, partner, n, full), c)
  {
    RouteKeeps(g, fan, partner, n, full);
    RouteFrames(g, fan, partner, n, full);
    assert ConnMoves(g.conns[c], Route(g, fan, partner, n, full).conns[c]);
  }

  /** A handler call leaves every socket still open as it was, and marks it if it
      resyncs it. */
  lemma EffectCarries(sys: System, x: Effect, full: set<nat>, c: nat)
    requires RegistryOk(sys.reg) && OpenFor(ApplyOne(sys, x, full).reg, c)
    ensures var next := ApplyOne(sys, x, full);
      && Carried(sys.reg, next.reg, c)
      && (c in sys.since ==> c in next.since && (next.since[c] == sys.since[c] || next.since[c] == |sys.log|))
  {
    hide RegistryOk, Route, Broadcast, OnHealth;
    match x {
      case Changed(n) =>
        if n < |sys.log| && sys.log[n].CallEvent? { RouteCarries(sys.reg, sys.log[n].fan, sys.log[n].partner, n, full, c); }
      case ResyncAll => BroadcastCarries(sys.reg, full, c);
      case HealthIs(h) => HealthCarries(sys.reg, h, c);
    }
  }

  lemma RunSourceCarries(sys: System, e: Event, full: set<nat>, c: nat)
    requires SourceOk(sys.src) && RegistryOk(sys.reg) && OpenFor(RunSource(sys, e, full).reg, c)
    ensures var next := RunSource(sys, e, full);
      && Carried(sys.reg, next.reg, c)
      && (c in sys.since ==> c in next.since && (next.since[c] == sys.since[c] || next.since[c] == |sys.log|))
  {
    var act := React(sys.src, e);
    var mid := sys.(src := act.src);
    if e.Stopping? { assert act.effects == []; } else { ReactIsHonest(sys.src, e); }
    hide React, SourceOk, RegistryOk, ApplyOne;
    if act.effects == [] {
      OneEffect(mid, ResyncAll, full);
    } else {
      assert act.effects == [act.effects[0]];
      OneEffect(mid, act.effects[0], full);
      EffectCarries(mid, act.effects[0], full, c);
    }
  }

  /** What a connected socket owes to the state before the move: it was connected for
      the same user, or it has just read the state. */
  predicate CarriedOver(sys: System, next: System, c: nat) {
    || (&& Carried(sys.reg, next.reg, c)
        && (c in sys.since ==> c in next.since && (next.since[c] == sys.since[c] || next.since[c] == |sys.log|)))
    || (c in next.since && next.since[c] == |sys.log|)
  }

  lemma SocketCarries(sys: System, e: SocketEvent, c: nat)
    requires RegistryOk(sys.reg) && OpenFor(RunSocket(sys, e).reg, c)
    ensures CarriedOver(sys, RunSocket(sys, e), c)
  {
    var h := RunSocket(sys, e).reg;
    if e.Verified? {
      VerifiedKeeps(sys.reg, e.c, e.verdict, e.now, e.congested);
      VerifiedFrames(sys.reg, e.c, e.verdict, e.now, e.congested);
      hide RegistryOk, OnVerified;
      assert ConnMoves(sys.reg.conns[c], h.conns[c]);
    } else {
      SocketIsQuiet(sys, e);
      SocketKeeps(sys.reg, e);
      QuietCarries(sys.reg, h, c) by { SameReg(sys, e); }
      SocketKeepsRest(sys, e);
    }
  }

  lemma SameReg(sys: System, e: SocketEvent)
    requires !e.Verified?
    ensures RunSocket(System(IDLE, sys.reg, [], map[], map[], []), e).reg == RunSocket(sys, e).reg
    ensures RunSocket(sys, e).since == sys.since
  {
  }

  lemma QuietCarries(g: Registry, h: Registry, c: nat)
    requires NoNews(g, h) && RegistryMoves(g, h) && OpenFor(h, c)
    ensures Carried(g, h, c)
  {
    assert ConnMoves(g.conns[c], h.conns[c]);
  }

  lemma MoveCarries(sys: System, m: Move, c: nat)
    requires SystemOk(sys) && Connected(Make(sys, m), c)
    ensures CarriedOver(sys, Make(sys, m), c)
  {
    hide React, RunSource, RunSocket, Detach, Queued, AllHear, AllOwn, RegistryOk, SourceOk;
    match m {
      case CallsBack(gen, full) =>
        if LinkOf(sys, gen).owed > 0 {
          RunSourceCarries(sys.(links := sys.links[gen := sys.links[gen].(owed := sys.links[gen].owed - 1)]), Listening(gen), full, c);
        }
      case Delivers(gen, full) =>
        var queue := LinkOf(sys, gen).queue;
        if queue != [] && queue[0] < |sys.log| {
          RunSourceCarries(sys.(links := sys.links[gen := sys.links[gen].(queue := queue[1..])]),
                           Notified(gen, PayloadOf(sys, queue[0])), full, c);
        }
      case SourceRuns(e, full) =>
        if !e.Listening? && !e.Notified? && !e.Stopping? { RunSourceCarries(sys, e, full, c); }
      case SocketRuns(e) => SocketCarries(sys, e, c);
      case Detaches => DetachOk(sys);
      case StopsSource => if !sys.reg.attached { RunSourceCarries(sys, Stopping, {}, c); }
      case _ =>
    }
  }

  // ── Coverage lasts ───────────────────────────────────────────────────────

  lemma GenerationChangeClosesEveryone(sys: System, m: Move)
    requires SystemOk(sys) && Make(sys, m).src.generation != sys.src.generation
    ensures forall c: nat :: !Connected(Make(sys, m), c)
  {
    MakeKeepsSystem(sys, m);
    hide AllHear, AllOwn, RegistryOk, SourceOk, RunSocket, Detach, Queued, RunSource;
    match m {
      case CallsBack(gen, full) =>
        RunSourceKeeps(sys.(links := sys.links[gen := sys.links[gen].(owed := sys.links[gen].owed - 1)]), Listening(gen), full);
        assert false;
      case Delivers(gen, full) =>
        var queue := LinkOf(sys, gen).queue;
        RunSourceKeeps(sys.(links := sys.links[gen := sys.links[gen].(queue := queue[1..])]),
                       Notified(gen, PayloadOf(sys, queue[0])), full);
        assert false;
      case SourceRuns(e, full) => RunSourceKeeps(sys, e, full); RecycleClosesEveryone(sys, e, full);
      case SocketRuns(e) => SocketKeepsRest(sys, e); assert false;
      case StopsSource => RunSourceKeeps(sys, Stopping, {}); NobodyOpen(Make(sys, m));
      case _ => assert false;
    }
  }

  /** The re-listens a client is owed go down only by calling it back. */
  lemma OwedFalls(sys: System, m: Move, gen: nat)
    requires LinkOf(Make(sys, m), gen).owed < LinkOf(sys, gen).owed
    ensures m.CallsBack? && m.gen == gen
  {
    hide React, RunSource, RunSocket, Detach;
    match m {
      case Delivers(g, full) =>
        var queue := LinkOf(sys, g).queue;
        if queue != [] && queue[0] < |sys.log| {
          RunSourceKeeps(sys.(links := sys.links[g := sys.links[g].(queue := queue[1..])]),
                         Notified(g, PayloadOf(sys, queue[0])), full);
        }
      case CallsBack(g, full) =>
        if LinkOf(sys, g).owed > 0 {
          RunSourceKeeps(sys.(links := sys.links[g := sys.links[g].(owed := sys.links[g].owed - 1)]), Listening(g), full);
        }
      case SourceRuns(e, full) => RunSourceKeeps(sys, e, full);
      case SocketRuns(e) => SocketKeepsRest(sys, e);
      case StopsSource => RunSourceKeeps(sys, Stopping, {});
      case _ =>
    }
  }

  /** Once covered, an event stays covered while the socket is connected on the same
      client. */
  lemma CoveredStays(sys: System, m: Move, c: nat, n: nat)
    requires SystemOk(sys) && Connected(Make(sys, m), c) && n < |sys.log|
    requires Make(sys, m).src.generation == sys.src.generation
    requires c < |sys.reg.conns| && Carried(sys.reg, Make(sys, m).reg, c) ==> Covered(sys, c, n)
    ensures Covered(Make(sys, m), c, n)
  {
    hide React, RegistryOk, SourceOk, AllOwn, Make;
    var next := Make(sys, m);
    MoveCarries(sys, m, c);
    if !(c in next.since && next.since[c] == |sys.log|) {
      assert Carried(sys.reg, next.reg, c) && Connected(sys, c) && Hears(sys, c);
      var gen := sys.src.generation;
      if LinkOf(next, gen).owed < LinkOf(sys, gen).owed {
        OwedFalls(sys, m, gen);
        ReturnResyncsEveryone(sys, m.full, c);
        LogKept(sys, gen, m.full);
      }
    }
  }

  lemma LogKept(sys: System, gen: nat, full: set<nat>)
    ensures Make(sys, CallsBack(gen, full)).log == sys.log
  {
    hide React;
    if LinkOf(sys, gen).owed > 0 {
      RunSourceKeeps(sys.(links := sys.links[gen := sys.links[gen].(owed := sys.links[gen].owed - 1)]), Listening(gen), full);
    }
  }

  // ── A probe that ends covers what came before it ─────────────────────────

  /** On one generation a probe ends by its own note, or by resuming unanswered; and a
      probe just started has not ended. */
  lemma HowProbesEnd(s: Source, e: Event, id: nat)
    requires id < |React(s, e).src.probes| && Ended(React(s, e).src, id) && React(s, e).src.generation == s.generation
    requires SourceOk(s) && (id < |s.probes| ==> !Ended(s, id))
    ensures id < |s.probes|
    ensures || (e == Notified(s.generation, ProbePayload(id)) && React(s, e).effects == [])
            || (e == ProbeResumed(id) && s.probes[id] == Probe(s.generation, Resolved(false)))
  {
    hide OnProbeResumed, Proven, Probing;
    match e {
      case ProbeResumed(x) => ResumeEnds(s, x, id);
      case _ =>
    }
  }

  lemma ResumeEnds(s: Source, x: nat, id: nat)
    requires id < |OnProbeResumed(s, x).src.probes| && Ended(OnProbeResumed(s, x).src, id)
    requires OnProbeResumed(s, x).src.generation == s.generation && (id < |s.probes| ==> !Ended(s, id))
    ensures id < |s.probes| && x == id && s.probes[id] == Probe(s.generation, Resolved(false))
  {
    hide Recycle, SetHealthy;
    ResumeMoves(s, x);
    ResumeKeepsCount(s, x);
  }

  /** Notes arrive in order: when the probe's note comes, what was sent before the
      probe has come, or was lost on a link whose return is about to be announced. */
  lemma ArrivedProbeCovers(sys: System, id: nat, c: nat, n: nat)
    requires ProbesOk(sys) && Connected(sys, c) && id < |sys.began| && n < sys.began[id]
    requires n < |sys.log| && NamesHim(sys, c, n)
    requires var queue := LinkOf(sys, sys.src.generation).queue;
      queue != [] && queue[0] < |sys.log| && sys.log[queue[0]] == ProbeNote(id)
    ensures Covered(sys, c, n)
  {
    hide SourceOk, RegistryOk, EndedProbesCover, AllOwn;
    assert Hears(sys, c);
    var link := LinkOf(sys, sys.src.generation);
    assert link.up;
    assert forall i :: 0 <= i < |link.queue| ==> link.queue[0] <= link.queue[i];
  }

  lemma DeliveredProbe(sys: System, gen: nat, full: set<nat>, id: nat, c: nat, n: nat)
    requires ProbesOk(sys) && Connected(Make(sys, Delivers(gen, full)), c) && n < |sys.log|
    requires var queue := LinkOf(sys, gen).queue;
      && gen == sys.src.generation && queue != [] && queue[0] < |sys.log|
      && PayloadOf(sys, queue[0]) == ProbePayload(id)
      && React(sys.src, Notified(gen, ProbePayload(id))).effects == []
    requires id < |sys.began| && n < sys.began[id] && NamesHim(Make(sys, Delivers(gen, full)), c, n)
    ensures Covered(Make(sys, Delivers(gen, full)), c, n)
  {
    hide SourceOk, RegistryOk, AllOwn, AllHear, React;
    var m := Delivers(gen, full);
    var queue := LinkOf(sys, gen).queue;
    var e := Notified(gen, ProbePayload(id));
    var mid := sys.(links := sys.links[gen := sys.links[gen].(queue := queue[1..])]);
    OneEffect(mid.(src := React(sys.src, e).src), ResyncAll, full);
    assert Make(sys, m) == mid.(src := React(sys.src, e).src);
    ArrivedProbeCovers(sys, id, c, n);
    NotifyKeepsGeneration(sys.src, gen, ProbePayload(id));
    CoveredStays(sys, m, c, n);
  }

  lemma NotifyKeepsGeneration(s: Source, gen: nat, payload: Payload)
    ensures React(s, Notified(gen, payload)).src.generation == s.generation
  {
  }

  /** What the source does in a move, if anything. */
  lemma SourceOfMove(sys: System, m: Move) returns (e: Option<Event>)
    ensures e.None? ==> Make(sys, m).src == sys.src
    ensures e.Some? ==> Make(sys, m).src == React(sys.src, e.value).src
    ensures e.Some? && e.value.Notified? ==>
              && m.Delivers? && e.value.gen == m.gen && LinkOf(sys, m.gen).queue != []
              && LinkOf(sys, m.gen).queue[0] < |sys.log| && e.value.payload == PayloadOf(sys, LinkOf(sys, m.gen).queue[0])
    ensures e.Some? && e.value.ProbeResumed? ==> m.SourceRuns? && m.event == e.value
  {
    hide React, RunSource, RunSocket, Detach, Queued;
    e := None;
    match m {
      case CallsBack(gen, full) =>
        if LinkOf(sys, gen).owed > 0 {
          e := Some(Listening(gen));
          RunSourceKeeps(sys.(links := sys.links[gen := sys.links[gen].(owed := sys.links[gen].owed - 1)]), Listening(gen), full);
        }
      case Delivers(gen, full) =>
        var queue := LinkOf(sys, gen).queue;
        if queue != [] && queue[0] < |sys.log| {
          e := Some(Notified(gen, PayloadOf(sys, queue[0])));
          RunSourceKeeps(sys.(links := sys.links[gen := sys.links[gen].(queue := queue[1..])]), e.value, full);
        }
      case SourceRuns(x, full) =>
        if !x.Listening? && !x.Notified? && !x.Stopping? {
          e := Some(x);
          RunSourceKeeps(sys, x, full);
        }
      case SocketRuns(x) => SocketKeepsRest(sys, x);
      case StopsSource =>
        if !sys.reg.attached {
          e := Some(Stopping);
          RunSourceKeeps(sys, Stopping, {});
        }
      case _ =>
    }
  }

  lemma EndingProbeCovers(sys: System, m: Move, id: nat, c: nat, n: nat)
    requires ProbesOk(sys) && Connected(Make(sys, m), c)
    requires Make(sys, m).src.generation == sys.src.generation
    requires id < |Make(sys, m).src.probes| && Ended(Make(sys, m).src, id) && (id < |sys.src.probes| ==> !Ended(sys.src, id))
    requires id < |sys.began| ==> n < sys.began[id]
    requires n < |sys.log| && n < |Make(sys, m).log| && NamesHim(Make(sys, m), c, n)
    ensures Covered(Make(sys, m), c, n)
  {
    hide EndedProbesCover, AllHear, AllOwn, RegistryOk, SourceOk, React, RunSource, RunSocket, Detach, Queued, Make;
    var e := SourceOfMove(sys, m);
    if e.Some? {
      HowProbesEnd(sys.src, e.value, id);
      if e.value.Notified? {
        PayloadIsNote(sys, LinkOf(sys, m.gen).queue[0], id);
        DeliveredProbe(sys, m.gen, m.full, id, c, n);
      } else {
        MakeKeepsSystem(sys, m);
        if sys.src.stopped {
          StoppedStays(sys.src, e.value);
          NobodyOpen(Make(sys, m));
        } else {
          MissedProbeClosesEveryone(sys, id, m.full);
        }
      }
    }
  }

  lemma PayloadIsNote(sys: System, n: nat, id: nat)
    requires n < |sys.log| && PayloadOf(sys, n) == ProbePayload(id)
    ensures sys.log[n] == ProbeNote(id)
  {
  }

  lemma StoppedStays(s: Source, e: Event)
    requires s.stopped
    ensures React(s, e).src.stopped
  {
    ReactMoves(s, e);
  }

  // ── Every run ────────────────────────────────────────────────────────────

  lemma MakeKeepsProbes(sys: System, m: Move)
    requires ProbesOk(sys)
    ensures ProbesOk(Make(sys, m))
  {
    MakeKeepsSystem(sys, m);
    NotesStayBehind(sys, m);
    LogGrows(sys, m);
    var next := Make(sys, m);
    hide SystemOk, Make, Covered;
    forall id: nat, c: nat | id < |next.began| && id < |next.src.probes| && Ended(next.src, id) && Connected(next, c)
      ensures ProbeCovers(next, id, c)
    {
      forall n | 0 <= n < next.began[id] && n < |next.log| && NamesHim(next, c, n) ensures Covered(next, c, n) {
        EndedCoversAfter(sys, m, id, c, n);
      }
    }
  }

  lemma EndedCoversAfter(sys: System, m: Move, id: nat, c: nat, n: nat)
    requires ProbesOk(sys) && NotesFollowProbes(Make(sys, m)) && Connected(Make(sys, m), c)
    requires id < |Make(sys, m).src.probes| && Ended(Make(sys, m).src, id) && n < Make(sys, m).began[id]
    requires n < |Make(sys, m).log| && NamesHim(Make(sys, m), c, n)
    ensures Covered(Make(sys, m), c, n)
  {
    var next := Make(sys, m);
    LogGrows(sys, m);
    if next.src.generation != sys.src.generation { GenerationChangeClosesEveryone(sys, m); }
    else {
      hide Make, SystemOk, RegistryOk, SourceOk;
      StartedBehind(sys, m, id);
      assert next.log[n] == sys.log[n];
      if id < |sys.src.probes| && Ended(sys.src, id) {
        if c < |sys.reg.conns| && Carried(sys.reg, next.reg, c) {
          assert Connected(sys, c) && ProbeCovers(sys, id, c) && NamesHim(sys, c, n);
        }
        CoveredStays(sys, m, c, n);
      } else {
        EndingProbeCovers(sys, m, id, c, n);
      }
    }
  }

  /** A probe starts at the end of the log. */
  lemma StartedBehind(sys: System, m: Move, id: nat)
    requires NotesFollowProbes(sys) && id < |Make(sys, m).began|
    ensures Make(sys, m).began[id] <= |sys.log|
    ensures |Make(sys, m).log| > |sys.log| ==> Make(sys, m).began == sys.began
  {
    LogGrows(sys, m);
    hide React, RunSource, RunSocket, Detach, Queued;
    match m {
      case CallsBack(gen, full) =>
        if LinkOf(sys, gen).owed > 0 {
          RunSourceKeeps(sys.(links := sys.links[gen := sys.links[gen].(owed := sys.links[gen].owed - 1)]), Listening(gen), full);
        }
      case Delivers(gen, full) =>
        var queue := LinkOf(sys, gen).queue;
        if queue != [] && queue[0] < |sys.log| {
          RunSourceKeeps(sys.(links := sys.links[gen := sys.links[gen].(queue := queue[1..])]),
                         Notified(gen, PayloadOf(sys, queue[0])), full);
        }
      case SourceRuns(e, full) => RunSourceKeeps(sys, e, full);
      case SocketRuns(e) => SocketKeepsRest(sys, e);
      case StopsSource => RunSourceKeeps(sys, Stopping, {});
      case _ =>
    }
  }

  lemma {:induction false} MakesKeepProbes(sys: System, moves: seq<Move>)
    requires ProbesOk(sys)
    ensures ProbesOk(Makes(sys, moves))
    decreases |moves|
  {
    hide ProbesOk, Make;
    if |moves| > 0 {
      MakeKeepsProbes(sys, moves[0]);
      MakesKeepProbes(Make(sys, moves[0]), moves[1..]);
    }
  }

  /** Deafness is bounded by probing. After any run from boot: if a connected socket
      has not got an event naming its user, has not read the state since and is owed
      no resync, then every probe started after that event is still out on the current
      client. And the server goes on probing: the next probe is set, or one is out. */
  lemma DeafOnlyWhileProbing(enabled: bool, opts: Options, moves: seq<Move>, c: nat, n: nat, id: nat)
    requires var sys := Makes(Boot(enabled, opts), moves);
      Connected(sys, c) && n < |sys.log| && NamesHim(sys, c, n) && !Covered(sys, c, n)
    ensures var sys := Makes(Boot(enabled, opts), moves);
      && |sys.began| == |sys.src.probes|
      && (sys.src.probeTimer.Some? || Probing(sys.src, sys.src.generation))
      && (id < |sys.began| && n < sys.began[id] ==>
            sys.src.probes[id] == Probe(sys.src.generation, Waiting)
            || sys.src.probes[id] == Probe(sys.src.generation, Resolved(false)))
  {
    hide Makes;
    BootProbesOk(enabled, opts);
    MakesKeepProbes(Boot(enabled, opts), moves);
    var sys := Makes(Boot(enabled, opts), moves);
    hide AllHear, AllOwn, UserSetOk;
    assert ConnOk(sys.reg, c);
    if id < |sys.began| && Ended(sys.src, id) { assert ProbeCovers(sys, id, c); }
  }
}
