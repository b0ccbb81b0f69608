/** The LISTEN client: generations, probes, recycling and health. A handler call is
    an effect; the gateway receives effects in order.
 */
module Listener {
  import opened Schema

  /** What a NOTIFY payload parses to: an event by its position in the channel's
      log, one of our own probes, or something unreadable. */
  datatype Payload = CallPayload(event: nat) | ProbePayload(id: nat) | Unreadable

  datatype Effect = Changed(event: nat) | ResyncAll | HealthIs(healthy: bool)

  /** A probe is waiting, then answered, then its waiting call resumes. */
  datatype ProbeState = Waiting | Resolved(ok: bool) | Finished(ok: bool)
  datatype Probe = Probe(gen: nat, state: ProbeState)

  datatype Source = Source(
    generation: nat,
    started: bool,
    stopped: bool,
    everListened: bool,
    healthy: bool,
    failures: nat,
    attempts: nat,
    client: Option<nat>,       // the generation the current client was built for
    clients: set<nat>,         // every generation that ever had a client
    probeTimer: Option<nat>,
    reconnectTimer: bool,
    ending: nat,               // recycles waiting for their old client to end
    probes: seq<Probe>)

  datatype Act = Act(src: Source, effects: seq<Effect>)

  const IDLE: Source := Source(0, false, false, false, false, 0, 0, None, {}, None, false, 0, [])

  function Quiet(s: Source): Act { Act(s, []) }

  function SetHealthy(s: Source, healthy: bool): Act {
    if s.healthy == healthy then Quiet(s) else Act(s.(healthy := healthy), [HealthIs(healthy)])
  }

  function Connect(s: Source): Source {
    if s.stopped then s
    else
      var gen := s.generation + 1;
      s.(generation := gen, client := Some(gen), clients := s.clients + {gen})
  }

  function Start(s: Source): Act {
    if s.started then Quiet(s) else Quiet(Connect(s.(started := true)))
  }

  /** Discard the current client; a fresh one follows after the backoff. */
  function Recycle(s: Source, gen: nat): Act {
    if gen != s.generation || s.stopped then Quiet(s)
    else
      var act := SetHealthy(s.(generation := s.generation + 1), false);
      Act(act.src.(probeTimer := None, client := None, ending := s.ending + 1), act.effects)
  }

  function OnListenFailed(s: Source, gen: nat): Act {
    if gen !in s.clients then Quiet(s) else Recycle(s, gen)
  }

  /** Runs on the first LISTEN and on every later one. */
  function OnListening(s: Source, gen: nat): Act {
    if gen !in s.clients || gen != s.generation || s.stopped then Quiet(s)
    else Act(s.(everListened := true, probeTimer := Some(gen)), if s.everListened then [ResyncAll] else [])
  }

  function OnNotify(s: Source, gen: nat, payload: Payload): Act {
    if gen !in s.clients || gen != s.generation then Quiet(s)
    else
      match payload
      case Unreadable => Quiet(s)
      case CallPayload(event) => Act(s, [Changed(event)])
      case ProbePayload(id) =>
        if id < |s.probes| && s.probes[id].state == Waiting
        then Quiet(s.(probes := s.probes[id := s.probes[id].(state := Resolved(true))]))
        else Quiet(s)
  }

  /** The timer starts a probe on the client that set it. */
  function OnProbeTimer(s: Source): Act {
    if s.probeTimer.None? then Quiet(s)
    else
      var gen, idle := s.probeTimer.value, s.(probeTimer := None);
      if gen != s.generation || s.stopped || s.client.None? then Quiet(idle)
      else Quiet(idle.(probes := s.probes + [Probe(gen, Waiting)]))
  }

  /** No answer in time, or the NOTIFY could not be sent. */
  function OnProbeTimeout(s: Source, id: nat): Act {
    if id < |s.probes| && s.probes[id].state == Waiting
    then Quiet(s.(probes := s.probes[id := s.probes[id].(state := Resolved(false))]))
    else Quiet(s)
  }

  /** The rest of probe() after the wait. */
  function OnProbeResumed(s: Source, id: nat): Act {
    if id >= |s.probes| || !s.probes[id].state.Resolved? then Quiet(s)
    else
      var gen, ok := s.probes[id].gen, s.probes[id].state.ok;
      var done := s.(probes := s.probes[id := Probe(gen, Finished(ok))]);
      if gen != s.generation || s.stopped then Quiet(done)
      else if ok then
        var act := SetHealthy(done.(failures := 0, attempts := 0), true);
        Act(act.src.(probeTimer := Some(gen)), act.effects)
      else
        var act := SetHealthy(done.(failures := s.failures + 1), false);
        if act.src.failures == 1 then Act(act.src.(probeTimer := Some(gen)), act.effects)
        else
          var gone := Recycle(act.src, gen);
          Act(gone.src, act.effects + gone.effects)
  }

  /** The old client has ended. */
  function OnEnded(s: Source): Act {
    if s.ending == 0 then Quiet(s)
    else if s.stopped then Quiet(s.(ending := s.ending - 1))
    else Quiet(s.(ending := s.ending - 1, attempts := s.attempts + 1, reconnectTimer := true))
  }

  function OnReconnectTimer(s: Source): Act {
    if !s.reconnectTimer then Quiet(s) else Quiet(Connect(s.(reconnectTimer := false)))
  }

  /** Silent: the gateway is already shutting down. */
  function Stop(s: Source): Act {
    Quiet(s.(stopped := true, generation := s.generation + 1, probeTimer := None, reconnectTimer := false,
             healthy := false, client := None))
  }

  datatype Event =
    | Starting
    | ListenFailed(gen: nat)
    | Listening(gen: nat)
    | Notified(gen: nat, payload: Payload)
    | ProbeTimerFired
    | ProbeTimedOut(id: nat)
    | ProbeResumed(id: nat)
    | ClientEnded
    | ReconnectTimerFired
    | Stopping

  function React(s: Source, e: Event): Act {
    match e
    case Starting => Start(s)
    case ListenFailed(gen) => OnListenFailed(s, gen)
    case Listening(gen) => OnListening(s, gen)
    case Notified(gen, payload) => OnNotify(s, gen, payload)
    case ProbeTimerFired => OnProbeTimer(s)
    case ProbeTimedOut(id) => OnProbeTimeout(s, id)
    case ProbeResumed(id) => OnProbeResumed(s, id)
    case ClientEnded => OnEnded(s)
    case ReconnectTimerFired => OnReconnectTimer(s)
    case Stopping => Stop(s)
  }

  // ── The source invariant ─────────────────────────────────────────────────

  predicate Proven(s: Source, gen: nat) {
    exists id :: 0 <= id < |s.probes| && s.probes[id] == Probe(gen, Finished(true))
  }

  /** Some probe of this generation has not come to an end. */
  predicate Probing(s: Source, gen: nat) {
    exists id :: 0 <= id < |s.probes| && s.probes[id].gen == gen && !s.probes[id].state.Finished?
  }

  predicate SourceOk(s: Source) {
    // at most one client, pending rebuild or reconnect
    && (if s.client.Some? then 1 else 0) + (if s.reconnectTimer then 1 else 0) + s.ending <= 1
    && (s.client.Some? ==> s.client == Some(s.generation) && s.generation in s.clients && !s.stopped && s.started)
    && (s.stopped ==> !s.healthy && !s.reconnectTimer)
    && (!s.started && !s.stopped ==> s.generation == 0 && !s.reconnectTimer && s.ending == 0)
    // callbacks of the current generation come from the current client
    && (forall g :: g in s.clients ==> 0 < g <= s.generation && (g == s.generation ==> s.client.Some?))
    && (forall id :: 0 <= id < |s.probes| ==>
          0 < s.probes[id].gen <= s.generation && (s.probes[id].gen == s.generation ==> s.client.Some?))
    && (s.probeTimer.Some? ==> s.probeTimer == s.client && s.everListened)
    && (|s.probes| > 0 ==> s.everListened)
    // healthy means proven: a probe came back on this very generation
    && (s.healthy ==> s.client.Some? && s.everListened && Proven(s, s.generation))
    // never stuck: until it is stopped there is a client, or one is on its way
    && (s.started && !s.stopped ==> s.client.Some? || s.reconnectTimer || s.ending > 0)
    // and probing never stops while healthy
    && (s.healthy ==> s.probeTimer.Some? || Probing(s, s.generation))
  }

  lemma IdleIsOk()
    ensures SourceOk(IDLE)
  {
  }

  lemma StillProven(s: Source, t: Source, gen: nat)
    requires Proven(s, gen) && |s.probes| <= |t.probes|
    requires forall id :: 0 <= id < |s.probes| && s.probes[id].state.Finished? ==> t.probes[id] == s.probes[id]
    ensures Proven(t, gen)
  {
    var id :| 0 <= id < |s.probes| && s.probes[id] == Probe(gen, Finished(true));
    assert t.probes[id] == Probe(gen, Finished(true));
  }

  lemma StillProbing(s: Source, t: Source, gen: nat)
    requires Probing(s, gen) && |s.probes| <= |t.probes|
    requires forall id :: 0 <= id < |s.probes| && s.probes[id].gen == gen ==>
               t.probes[id].gen == gen && (t.probes[id].state.Finished? ==> s.probes[id].state.Finished?)
    ensures Probing(t, gen)
  {
    var id :| 0 <= id < |s.probes| && s.probes[id].gen == gen && !s.probes[id].state.Finished?;
    assert t.probes[id].gen == gen && !t.probes[id].state.Finished?;
  }

  /** Finished probes are never rewritten, generations only grow. */
  ghost predicate SourceMoves(s: Source, t: Source) {
    && s.generation <= t.generation && |s.probes| <= |t.probes| && s.clients <= t.clients
    && (s.everListened ==> t.everListened) && (s.stopped ==> t.stopped)
    && (forall id :: 0 <= id < |s.probes| ==> t.probes[id].gen == s.probes[id].gen)
    && (forall id :: 0 <= id < |s.probes| && s.probes[id].state.Finished? ==> t.probes[id] == s.probes[id])
  }

  lemma ReactMoves(s: Source, e: Event)
    ensures SourceMoves(s, React(s, e).src)
  {
    hide OnProbeResumed, OnListenFailed, OnNotify, OnProbeTimeout, OnProbeTimer, OnListening, SourceMoves;
    match e {
      case ProbeResumed(id) => ResumeMoves(s, id);
      case ListenFailed(gen) => RecycleMoves(s, gen);
      case Notified(gen, payload) => NotifyMoves(s, gen, payload);
      case ProbeTimedOut(id) => TimeoutMoves(s, id);
      case _ => TimerMoves(s, e);
    }
  }

  lemma NotifyMoves(s: Source, gen: nat, payload: Payload)
    ensures SourceMoves(s, OnNotify(s, gen, payload).src)
  {
  }

  lemma TimeoutMoves(s: Source, id: nat)
    ensures SourceMoves(s, OnProbeTimeout(s, id).src)
  {
  }

  lemma TimerMoves(s: Source, e: Event)
    requires !e.ProbeResumed? && !e.ListenFailed? && !e.Notified? && !e.ProbeTimedOut?
    ensures SourceMoves(s, React(s, e).src)
  {
  }

  lemma ResumeMoves(s: Source, id: nat)
    ensures SourceMoves(s, OnProbeResumed(s, id).src)
  {
    hide SetHealthy, Recycle;
    if id < |s.probes| && s.probes[id].state.Resolved? {
      var gen, ok := s.probes[id].gen, s.probes[id].state.ok;
      var done := s.(probes := s.probes[id := Probe(gen, Finished(ok))]);
      HealthShape(done.(failures := 0, attempts := 0), true);
      HealthShape(done.(failures := s.failures + 1), false);
      RecycleShape(SetHealthy(done.(failures := s.failures + 1), false).src, gen);
    }
  }

  lemma HealthShape(s: Source, healthy: bool)
    ensures SetHealthy(s, healthy).src == s.(healthy := healthy)
  {
  }

  lemma RecycleShape(s: Source, gen: nat)
    ensures var t := Recycle(s, gen).src;
      && t == s.(generation := t.generation, healthy := t.healthy, probeTimer := t.probeTimer, client := t.client, ending := t.ending)
      && s.generation <= t.generation
  {
  }

  lemma RecycleMoves(s: Source, gen: nat)
    ensures SourceMoves(s, OnListenFailed(s, gen).src)
  {
  }

  lemma ReactKeepsSource(s: Source, e: Event)
    requires SourceOk(s)
    ensures SourceOk(React(s, e).src)
  {
    hide OnProbeResumed, OnListenFailed, OnNotify, OnProbeTimeout, OnProbeTimer;
    match e {
      case ProbeResumed(id) => ResumeKeepsSource(s, id);
      case ListenFailed(gen) => RecycleKeepsSource(s, gen);
      case Notified(gen, payload) => AnswersKeepSource(s, e);
      case ProbeTimedOut(id) => AnswersKeepSource(s, e);
      case ProbeTimerFired => AnswersKeepSource(s, e);
      case _ => TimersKeepSource(s, e);
    }
  }

  lemma TimersKeepSource(s: Source, e: Event)
    requires SourceOk(s) && (e.Starting? || e.Listening? || e.ClientEnded? || e.ReconnectTimerFired? || e.Stopping?)
    ensures SourceOk(React(s, e).src)
  {
    var t := React(s, e).src;
    if s.healthy { StillProven(s, t, s.generation); }
  }

  lemma AnswersKeepSource(s: Source, e: Event)
    requires SourceOk(s) && (e.Notified? || e.ProbeTimedOut? || e.ProbeTimerFired?)
    ensures SourceOk(React(s, e).src)
  {
    var t := React(s, e).src;
    if s.healthy {
      StillProven(s, t, s.generation);
      if Probing(s, s.generation) { StillProbing(s, t, s.generation); }
      if e.ProbeTimerFired? && s.probeTimer.Some? { assert t.probes[|s.probes|] == Probe(s.generation, Waiting); }
    }
  }

  lemma RecycleKeepsSource(s: Source, gen: nat)
    requires SourceOk(s)
    ensures SourceOk(OnListenFailed(s, gen).src)
  {
  }

  lemma ResumeKeepsSource(s: Source, id: nat)
    requires SourceOk(s)
    ensures SourceOk(OnProbeResumed(s, id).src)
  {
    var t := OnProbeResumed(s, id).src;
    if id < |s.probes| && s.probes[id].state.Resolved? {
      assert t.probes[id] == Probe(s.probes[id].gen, Finished(s.probes[id].state.ok));
      if s.healthy {
        StillProven(s, t, s.generation);
        if s.probes[id].gen != s.generation && Probing(s, s.generation) { StillProbing(s, t, s.generation); }
      }
    }
  }

  // ── What follows ─────────────────────────────────────────────────────────

  /** Callbacks of a discarded client reach no handler and change nothing; a probe of
      a discarded client only finishes itself. */
  lemma StaleCallbacksAreInert(s: Source, gen: nat, payload: Payload, id: nat)
    requires SourceOk(s)
    ensures gen != s.generation ==>
              OnListening(s, gen) == Quiet(s) && OnNotify(s, gen, payload) == Quiet(s) && OnListenFailed(s, gen) == Quiet(s)
    ensures id < |s.probes| && s.probes[id].gen != s.generation ==>
              && OnProbeResumed(s, id).effects == []
              && OnProbeResumed(s, id).src == s.(probes := OnProbeResumed(s, id).src.probes)
  {
  }

  /** The step discards the client of a generation. */
  predicate Discards(s: Source, e: Event, gen: nat) {
    s.client == Some(gen) && React(s, e).src.client != Some(gen)
  }

  function Reacts(s: Source, events: seq<Event>): Source
    decreases |events|
  {
    if |events| == 0 then s else Reacts(React(s, events[0]).src, events[1..])
  }

  /** The health changes the gateway is told of, over a run. */
  function HealthTrace(s: Source, events: seq<Event>): seq<bool>
    decreases |events|
  {
    if |events| == 0 then []
    else Changes(React(s, events[0]).effects) + HealthTrace(React(s, events[0]).src, events[1..])
  }

  function Changes(effects: seq<Effect>): seq<bool> {
    if |effects| == 0 then []
    else (if effects[0].HealthIs? then [effects[0].healthy] else []) + Changes(effects[1..])
  }

  lemma ChangesOfOne(x: Effect)
    ensures Changes([]) == [] && Changes([x]) == if x.HealthIs? then [x.healthy] else []
  {
    assert [x][1..] == [];
  }

  /** At most one effect, and a health effect only when health really changes. */
  predicate Honest(s: Source, act: Act) {
    && |act.effects| <= 1
    && (|act.effects| == 1 && act.effects[0].HealthIs? ==>
          act.effects[0].healthy == act.src.healthy != s.healthy && !act.src.stopped)
    && (act.effects == [] || !act.effects[0].HealthIs? ==> act.src.healthy == s.healthy)
  }

  lemma ReactIsHonest(s: Source, e: Event)
    requires SourceOk(s) && !e.Stopping?
    ensures Honest(s, React(s, e))
  {
    hide SourceOk, OnProbeResumed;
    match e {
      case ProbeResumed(id) => ResumeIsHonest(s, id);
      case _ =>
    }
  }

  lemma ResumeIsHonest(s: Source, id: nat)
    ensures Honest(s, OnProbeResumed(s, id))
  {
  }

  /** One event tells the gateway of at most one health change, and only of a real one. */
  lemma HealthChangesAreReal(s: Source, e: Event)
    requires SourceOk(s)
    ensures var act := React(s, e); var told := Changes(act.effects);
      && |told| <= 1
      && (told == [] ==> act.src.healthy == s.healthy || act.src.stopped)
      && (|told| == 1 ==> told[0] == act.src.healthy != s.healthy && !act.src.stopped)
  {
    var act := React(s, e);
    if e.Stopping? { assert act.effects == []; ChangesOfOne(ResyncAll); return; }
    hide React, SourceOk, Changes;
    ReactIsHonest(s, e);
    ChangesOfOne(if act.effects == [] then ResyncAll else act.effects[0]);
    assert act.effects == [] || act.effects == [act.effects[0]];
  }

  lemma {:induction false} StoppedIsSilent(s: Source, events: seq<Event>)
    requires SourceOk(s) && s.stopped
    ensures HealthTrace(s, events) == []
    decreases |events|
  {
    if |events| > 0 {
      var act := React(s, events[0]);
      ReactKeepsSource(s, events[0]);
      HealthChangesAreReal(s, events[0]);
      ReactMoves(s, events[0]);
      StoppedIsSilent(act.src, events[1..]);
    }
  }

  predicate Alternates(trace: seq<bool>, from: bool) {
    forall i :: 0 <= i < |trace| ==> trace[i] == (if i % 2 == 0 then !from else from)
  }

  /** The gateway sees healthy and unhealthy strictly in turn. */
  lemma {:induction false} HealthAlternates(s: Source, events: seq<Event>)
    requires SourceOk(s)
    ensures Alternates(HealthTrace(s, events), s.healthy)
    decreases |events|
  {
    hide React, SourceOk, Changes;
    if |events| > 0 {
      var act := React(s, events[0]);
      var rest := HealthTrace(act.src, events[1..]);
      var told := Changes(act.effects);
      ReactKeepsSource(s, events[0]);
      HealthChangesAreReal(s, events[0]);
      HealthAlternates(act.src, events[1..]);
      if act.src.stopped { StoppedIsSilent(act.src, events[1..]); }
      else if |told| == 1 {
        forall i | 0 <= i < |told + rest| ensures (told + rest)[i] == (if i % 2 == 0 then !s.healthy else s.healthy) {
          if i > 0 { assert (told + rest)[i] == rest[i - 1]; }
        }
      }
    }
  }

  lemma {:induction false} ReactsKeep(s: Source, events: seq<Event>)
    requires SourceOk(s)
    ensures SourceOk(Reacts(s, events)) && SourceMoves(s, Reacts(s, events))
    decreases |events|
  {
    if |events| > 0 {
      ReactKeepsSource(s, events[0]);
      ReactMoves(s, events[0]);
      ReactsKeep(React(s, events[0]).src, events[1..]);
    }
  }

  lemma DiscardAdvances(s: Source, e: Event, gen: nat)
    requires SourceOk(s) && Discards(s, e, gen)
    ensures React(s, e).src.generation > gen
  {
    hide Proven;
  }

  /** A generation is discarded at most once: it is never current again. */
  lemma DiscardedOnce(s: Source, e: Event, gen: nat, events: seq<Event>, f: Event)
    requires SourceOk(s) && Discards(s, e, gen)
    ensures var later := Reacts(React(s, e).src, events);
      later.generation > gen && later.client != Some(gen) && !Discards(later, f, gen)
  {
    hide React;
    DiscardAdvances(s, e, gen);
    ReactKeepsSource(s, e);
    ReactsKeep(React(s, e).src, events);
  }

  // ── What each event promises ─────────────────────────────────────────────

  /** Of the probes only `id` changed, from waiting to an answer. */
  predicate Answers(s: Source, t: Source, id: nat, ok: bool) {
    && t == s.(probes := t.probes) && |t.probes| == |s.probes|
    && (forall j :: 0 <= j < |s.probes| && j != id ==> t.probes[j] == s.probes[j])
    && (id < |s.probes| ==> t.probes[id] == if s.probes[id].state.Waiting? then Probe(s.probes[id].gen, Resolved(ok)) else s.probes[id])
  }

  /** A new client of a new generation, and nothing else. */
  predicate Opens(s: Source, t: Source) {
    && t.client == Some(t.generation) && t.generation == s.generation + 1 && t.clients == s.clients + {t.generation}
    && t == s.(generation := t.generation, client := t.client, clients := t.clients)
  }

  predicate Obeys(s: Source, e: Event, act: Act) {
    var t := act.src;
    match e
    case Starting => act.effects == [] && if s.started then t == s else t.started && (if s.stopped then t == s.(started := true) else Opens(s.(started := true), t))
    case ListenFailed(gen) =>
      if gen !in s.clients || gen != s.generation || s.stopped then act == Act(s, [])
      else
        && !t.healthy && t.generation == gen + 1 && t.client.None? && t.probeTimer.None? && t.ending == s.ending + 1
        && t.failures == s.failures && t.attempts == s.attempts && t.probes == s.probes && t.clients == s.clients
        && act.effects == if s.healthy then [HealthIs(false)] else []
    case Listening(gen) =>
      if gen !in s.clients || gen != s.generation || s.stopped then act == Act(s, [])
      else
        && t == s.(everListened := true, probeTimer := Some(gen))
        && act.effects == if s.everListened then [ResyncAll] else []
    case Notified(gen, payload) =>
      if gen !in s.clients || gen != s.generation then act == Act(s, [])
      else
        && act.effects == (if payload.CallPayload? then [Changed(payload.event)] else [])
        && (if payload.ProbePayload? then Answers(s, t, payload.id, true) else t == s)
    case ProbeTimerFired =>
      && act.effects == [] && t == s.(probeTimer := None, probes := t.probes)
      && t.probes == s.probes + if s.probeTimer == Some(s.generation) && s.client.Some? && !s.stopped
                                then [Probe(s.generation, Waiting)] else []
    case ProbeTimedOut(id) => act.effects == [] && Answers(s, t, id, false)
    case ProbeResumed(id) => id < |s.probes| && s.probes[id].state.Resolved? ==> Judges(s, act, id)
    case ClientEnded =>
      && act.effects == [] && (s.ending == 0 ==> t == s)
      && (s.ending > 0 ==> t.ending == s.ending - 1 && t.reconnectTimer == (s.reconnectTimer || !s.stopped)
                           && t.attempts == s.attempts + if s.stopped then 0 else 1)
      && t == s.(ending := t.ending, attempts := t.attempts, reconnectTimer := t.reconnectTimer)
    case ReconnectTimerFired =>
      && act.effects == []
      && (if !s.reconnectTimer then t == s
          else if s.stopped then t == s.(reconnectTimer := false)
          else Opens(s.(reconnectTimer := false), t))
    case Stopping =>
      && act.effects == [] && t.stopped && t.client.None? && !t.healthy && t.generation == s.generation + 1
      && t.probeTimer.None? && !t.reconnectTimer && t.probes == s.probes && t.clients == s.clients
  }

  lemma ReactObeys(s: Source, e: Event)
    ensures Obeys(s, e, React(s, e))
  {
    hide OnProbeResumed, Judges, OnListenFailed, OnListening, OnNotify, OnProbeTimer, OnProbeTimeout, OnEnded, Start, Stop,
         OnReconnectTimer, Obeys;
    match e {
      case ProbeResumed(id) => ResumeObeys(s, id);
      case ListenFailed(gen) => FailureObeys(s, gen);
      case Notified(_, _) => AnswerObeys(s, e);
      case ProbeTimedOut(_) => AnswerObeys(s, e);
      case ProbeTimerFired => AnswerObeys(s, e);
      case _ => RestObeys(s, e);
    }
  }

  lemma ResumeObeys(s: Source, id: nat)
    ensures Obeys(s, ProbeResumed(id), React(s, ProbeResumed(id)))
  {
    hide OnProbeResumed, Judges;
    if id < |s.probes| && s.probes[id].state.Resolved? { ResumeJudges(s, id); }
  }

  lemma FailureObeys(s: Source, gen: nat)
    ensures Obeys(s, ListenFailed(gen), React(s, ListenFailed(gen)))
  {
  }

  lemma AnswerObeys(s: Source, e: Event)
    requires e.Notified? || e.ProbeTimedOut? || e.ProbeTimerFired?
    ensures Obeys(s, e, React(s, e))
  {
  }

  lemma RestObeys(s: Source, e: Event)
    requires e.Starting? || e.Listening? || e.ClientEnded? || e.ReconnectTimerFired? || e.Stopping?
    ensures Obeys(s, e, React(s, e))
  {
  }

  // ── Two misses rebuild the client ────────────────────────────────────────

  /** The source is still on the client this probe was sent from, and the answer, or
      its absence, is about to be acted on. */
  predicate Ends(s: Source, id: nat, ok: bool) {
    id < |s.probes| && s.probes[id] == Probe(s.generation, Resolved(ok)) && !s.stopped
  }

  /** An answered probe proves the client and clears the miss count. */
  predicate Proves(s: Source, t: Source, gen: nat) {
    t.healthy && t.failures == 0 && t.attempts == 0 && t.client == s.client && t.generation == gen
    && t.probeTimer == Some(gen)
  }

  /** The first miss keeps the client and tries once more. */
  predicate Retries(s: Source, t: Source, gen: nat) {
    !t.healthy && t.failures == 1 && t.client == s.client && t.generation == gen && t.probeTimer == Some(gen)
    && t.ending == s.ending && t.attempts == s.attempts
  }

  /** A further miss discards the client: its callbacks are stale, no probe is set, and
      its end starts the reconnect. */
  predicate GivesUp(s: Source, t: Source, gen: nat) {
    !t.healthy && t.failures == s.failures + 1 && t.client.None? && t.generation == gen + 1 && t.probeTimer.None?
    && t.ending == s.ending + 1 && t.attempts == s.attempts
  }

  /** What the end of a probe's wait does. Only the health it changes is announced. */
  predicate Judges(s: Source, act: Act, id: nat)
    requires id < |s.probes| && s.probes[id].state.Resolved?
  {
    var gen, ok := s.probes[id].gen, s.probes[id].state.ok;
    var t := act.src;
    && t.probes == s.probes[id := Probe(gen, Finished(ok))]
    && t.started == s.started && t.stopped == s.stopped && t.everListened == s.everListened
    && t.clients == s.clients && t.reconnectTimer == s.reconnectTimer
    && act.effects == (if t.healthy == s.healthy then [] else [HealthIs(t.healthy)])
    && (if gen != s.generation || s.stopped then t == s.(probes := t.probes)
        else if ok then Proves(s, t, gen) && t.ending == s.ending
        else if s.failures == 0 then Retries(s, t, gen)
        else GivesUp(s, t, gen))
  }

  lemma ResumeJudges(s: Source, id: nat)
    requires id < |s.probes| && s.probes[id].state.Resolved?
    ensures Judges(s, OnProbeResumed(s, id), id)
  {
  }

  /** In this run no probe of the client current at the time comes back. */
  predicate NothingComesBack(s: Source, events: seq<Event>)
    decreases |events|
  {
    |events| == 0 ||
    (&& (events[0].ProbeResumed? ==> !Ends(s, events[0].id, true))
     && NothingComesBack(React(s, events[0]).src, events[1..]))
  }

  lemma MissesAreKept(s: Source, e: Event)
    requires s.failures > 0 && (e.ProbeResumed? ==> !Ends(s, e.id, true))
    ensures React(s, e).src.failures > 0
  {
    hide OnProbeResumed;
    if e.ProbeResumed? && e.id < |s.probes| && s.probes[e.id].state.Resolved? { ResumeJudges(s, e.id); }
    else if e.ProbeResumed? { IdleResume(s, e.id); }
  }

  lemma IdleResume(s: Source, id: nat)
    requires id >= |s.probes| || !s.probes[id].state.Resolved?
    ensures OnProbeResumed(s, id) == Quiet(s)
  {
  }

  lemma {:induction false} MissesAreCounted(s: Source, events: seq<Event>)
    requires s.failures > 0 && NothingComesBack(s, events)
    ensures Reacts(s, events).failures > 0
    decreases |events|
  {
    hide React;
    if |events| > 0 {
      MissesAreKept(s, events[0]);
      MissesAreCounted(React(s, events[0]).src, events[1..]);
    }
  }

  /** Two misses on one client with nothing coming back in between always discard it,
      whatever else happens meanwhile, and it is never current again. */
  lemma TwoMissesDiscard(s: Source, a: nat, between: seq<Event>, b: nat, later: seq<Event>)
    requires SourceOk(s) && Ends(s, a, false)
    requires NothingComesBack(React(s, ProbeResumed(a)).src, between)
    requires var t := Reacts(React(s, ProbeResumed(a)).src, between);
      b < |t.probes| && t.probes[b] == Probe(s.generation, Resolved(false))
    ensures var gen := s.generation; var t := Reacts(React(s, ProbeResumed(a)).src, between);
      var u := React(t, ProbeResumed(b)).src;
      && u.client != Some(gen) && Reacts(u, later).client != Some(gen)
      && (t.client == Some(gen) ==> GivesUp(t, u, gen))
  {
    hide OnProbeResumed, SourceOk, Reacts, NothingComesBack;
    var gen := s.generation;
    var s1 := React(s, ProbeResumed(a)).src;
    ResumeJudges(s, a);
    ReactKeepsSource(s, ProbeResumed(a));
    MissesAreCounted(s1, between);
    ReactsKeep(s1, between);
    var t := Reacts(s1, between);
    ReactMoves(s, ProbeResumed(a));
    ResumeJudges(t, b);
    ReactKeepsSource(t, ProbeResumed(b));
    var u := React(t, ProbeResumed(b)).src;
    ReactMoves(t, ProbeResumed(b));
    ReactsKeep(u, later);
    OldClientIsGone(t, gen);
    OldClientIsGone(u, gen);
    OldClientIsGone(Reacts(u, later), gen);
  }

  lemma OldClientIsGone(s: Source, gen: nat)
    requires SourceOk(s)
    ensures s.generation > gen || s.stopped ==> s.client != Some(gen)
    ensures s.client.Some? ==> s.client == Some(s.generation)
  {
  }

  // ── The class ────────────────────────────────────────────────────────────

  class PgNotifySource {
    var generation: nat
    var started: bool
    var stopped: bool
    var everListened: bool
    var healthy: bool
    var failures: nat
    var attempts: nat
    var client: Option<nat>
    var clients: set<nat>
    var probeTimer: Option<nat>
    var reconnectTimer: bool
    var ending: nat
    var probes: seq<Probe>
    /** Every handler call made so far. */
    var calls: seq<Effect>

    constructor ()
      ensures State() == IDLE && calls == []
    {
      generation, started, stopped, everListened, healthy := 0, false, false, false, false;
      failures, attempts, client, clients := 0, 0, None, {};
      probeTimer, reconnectTimer, ending, probes, calls := None, false, 0, [], [];
    }

    function State(): Source
      reads this
    {
      Source(generation, started, stopped, everListened, healthy, failures, attempts, client, clients,
             probeTimer, reconnectTimer, ending, probes)
    }

    twostate predicate Follows(act: Act)
      reads this
    {
      State() == act.src && calls == old(calls) + act.effects
    }

    method Begin()
      modifies this
      ensures Follows(Start(old(State())))
    {
      if started { return; }
      started := true;
      OpenClient();
    }

    method OpenClient()
      modifies this
      ensures State() == Connect(old(State())) && calls == old(calls)
    {
      if stopped { return; }
      generation := generation + 1;
      client := Some(generation);
      clients := clients + {generation};
    }

    method ChangeHealth(now: bool)
      modifies this`healthy, this`calls
      ensures Follows(SetHealthy(old(State()), now))
    {
      if healthy == now { return; }
      healthy := now;
      calls := calls + [HealthIs(now)];
    }

    method Rebuild(gen: nat)
      modifies this
      ensures Follows(Recycle(old(State()), gen))
      ensures gen != old(generation) || old(stopped) ==> State() == old(State()) && calls == old(calls)
      ensures gen == old(generation) && !old(stopped) ==>
                generation == gen + 1 && client.None? && probeTimer.None? && !healthy && ending == old(ending) + 1
                && calls == old(calls) + if old(healthy) then [HealthIs(false)] else []
    {
      if gen != generation || stopped { return; }
      generation := generation + 1;
      ChangeHealth(false);
      probeTimer, client := None, None;
      ending := ending + 1;
    }

    method HandleListenFailed(gen: nat)
      requires gen in clients
      modifies this
      ensures Follows(OnListenFailed(old(State()), gen))
    {
      Rebuild(gen);
    }

    method HandleListening(gen: nat)
      requires gen in clients
      modifies this
      ensures Follows(OnListening(old(State()), gen))
      ensures calls == old(calls) + if gen == old(generation) && !old(stopped) && old(everListened) then [ResyncAll] else []
      ensures gen == old(generation) && !old(stopped) ==> everListened && probeTimer == Some(gen)
      ensures generation == old(generation) && healthy == old(healthy) && client == old(client)
    {
      if gen != generation || stopped { return; }
      if everListened { calls := calls + [ResyncAll]; }
      everListened := true;
      probeTimer := Some(gen);
    }

    method HandleNotify(gen: nat, payload: Payload)
      requires gen in clients
      modifies this
      ensures Follows(OnNotify(old(State()), gen, payload))
      ensures gen != old(generation) ==> State() == old(State()) && calls == old(calls)
      ensures gen == old(generation) && payload.CallPayload? ==> calls == old(calls) + [Changed(payload.event)]
      ensures !payload.CallPayload? ==> calls == old(calls)
      ensures State() == old(State()).(probes := probes) && |probes| == |old(probes)|
    {
      if gen != generation { return; }
      match payload {
        case Unreadable =>
        case ProbePayload(id) =>
          if id < |probes| && probes[id].state == Waiting { probes := probes[id := probes[id].(state := Resolved(true))]; }
        case CallPayload(event) => calls := calls + [Changed(event)];
      }
    }

    method StartProbe()
      requires probeTimer.Some?
      modifies this
      ensures Follows(OnProbeTimer(old(State())))
      ensures probeTimer.None? && calls == old(calls) && generation == old(generation) && old(probes) <= probes
      ensures |probes| > |old(probes)| ==> probes == old(probes) + [Probe(generation, Waiting)] && client.Some? && !stopped
    {
      var gen := probeTimer.value;
      probeTimer := None;
      if gen != generation || stopped || client.None? { return; }
      probes := probes + [Probe(gen, Waiting)];
    }

    /** probe(), after its round trip was answered either way. */
    method FinishProbe(id: nat)
      requires id < |probes| && probes[id].state.Resolved?
      modifies this
      ensures Follows(OnProbeResumed(old(State()), id))
      ensures old(calls) <= calls && Judges(old(State()), Act(State(), calls[|old(calls)|..]), id)
    {
      hide SetHealthy, Recycle, Judges;
      ResumeJudges(State(), id);
      EndProbe(id);
      assert calls[|old(calls)|..] == OnProbeResumed(old(State()), id).effects;
    }

    method EndProbe(id: nat)
      requires id < |probes| && probes[id].state.Resolved?
      modifies this
      ensures Follows(OnProbeResumed(old(State()), id))
    {
      hide SetHealthy, Recycle;
      var gen, ok := probes[id].gen, probes[id].state.ok;
      probes := probes[id := Probe(gen, Finished(ok))];
      if gen != generation || stopped { return; }
      if ok {
        failures, attempts := 0, 0;
        HealthShape(State(), true);
        ChangeHealth(true);
        probeTimer := Some(gen);
        return;
      }
      failures := failures + 1;
      HealthShape(State(), false);
      ChangeHealth(false);
      if failures == 1 {
        probeTimer := Some(gen);
        return;
      }
      Rebuild(gen);
    }

    method FinishRebuild()
      requires ending > 0
      modifies this
      ensures Follows(OnEnded(old(State())))
    {
      ending := ending - 1;
      if stopped { return; }
      attempts := attempts + 1;
      reconnectTimer := true;
    }

    method Reconnect()
      requires reconnectTimer
      modifies this
      ensures Follows(OnReconnectTimer(old(State())))
    {
      reconnectTimer := false;
      OpenClient();
    }

    method End()
      modifies this
      ensures Follows(Stop(old(State())))
    {
      stopped := true;
      generation := generation + 1;
      probeTimer, reconnectTimer, healthy, client := None, false, false, None;
    }
  }
}
