/**
  What can trip the breaker inside the pipeline. The permissions enforcer reports every hard
  denial as "information_boundary" (skill/src/autonomy/permissions-enforcer.ts), and the pipeline
  hands that name to recordViolation (enforcement-pipeline.ts); no check of the breaker counts it.
 */
module TripKinds {
  import opened Common
  import opened ConnectionStores
  import opened CircuitBreakers
  import opened Feed
  import opened Pipeline
  import opened RateBound

  /** The only violation the pipeline records. */
  predicate FromPipeline(e: AgentEvent) {
    e.RecordViolation? ==> e.kind == InformationBoundary
  }

  predicate IsTrip(e: FeedEvent) {
    e.eventType == "circuit_breaker_tripped"
  }

  ghost predicate FloodTrips(feed: seq<FeedEvent>) {
    forall i :: 0 <= i < |feed| && IsTrip(feed[i]) ==>
      feed[i].details.TripDetails? && feed[i].details.trigger == "message_flood"
  }

  /** A run of the agent in which only the pipeline records violations. */
  ghost predicate PipelineRun(cfg: BreakerConfig, w: World, events: seq<AgentEvent>) {
    RunFits(cfg, w, events) && forall i :: 0 <= i < |events| ==> FromPipeline(events[i])
  }

  /** In every run of the pipeline, every trip is a message flood. */
  ghost predicate OnlyFloodsTrip(cfg: BreakerConfig) {
    forall connections, messages, now, events :: PipelineRun(cfg, Start(connections, messages, now), events) ==>
      FloodTrips(WorldRun(cfg, Start(connections, messages, now), events).agent.feed)
  }

  /** The flood check always fires first, or the other checks need at least one event of their own. */
  predicate OthersSilent(cfg: BreakerConfig) {
    cfg.floodThreshold <= 0 || (cfg.violationThreshold > 0 && cfg.boundaryProbeThreshold > 0)
  }

  // ---------- decisions on the pipeline's events ----------

  ghost predicate PipelineKinds(events: seq<EventRecord>) {
    forall i :: 0 <= i < |events| ==> events[i].kind == MessageFlood || events[i].kind == InformationBoundary
  }

  lemma {:induction false} PruneKeepsKinds(events: seq<EventRecord>, cutoff: int)
    requires PipelineKinds(events)
    ensures PipelineKinds(Prune(events, cutoff))
  {
    if events != [] {
      PruneKeepsKinds(events[1..], cutoff);
    }
  }

  lemma {:induction false} OtherKindsUncounted(events: seq<EventRecord>, kind: TriggerType, bound: int)
    requires PipelineKinds(events) && kind != MessageFlood && kind != InformationBoundary
    ensures Count(events, kind, bound) == 0
  {
    if events != [] {
      OtherKindsUncounted(events[1..], kind, bound);
    }
  }

  lemma {:induction false} FloodDecides(cfg: BreakerConfig, events: seq<EventRecord>, now: int)
    requires PipelineKinds(events) && OthersSilent(cfg)
    ensures var d := FirstExceeded(Checks(cfg), events, now);
            d.Some? ==> d.value.kind == MessageFlood
  {
    DecisionMeans(cfg, events, now);
    forall kind: TriggerType, bound: int | kind != MessageFlood && kind != InformationBoundary
      ensures Count(events, kind, bound) == 0
    {
      OtherKindsUncounted(events, kind, bound);
    }
  }

  // ---------- over whole runs ----------

  ghost predicate FloodInv(w: World) {
    FloodTrips(w.agent.feed) && forall addr :: PipelineKinds(EventsOf(w.agent, addr))
  }

  lemma {:induction false} RecordKeepsFloods(cfg: BreakerConfig, w: World, addr: string, kind: TriggerType,
                                             clock: Clock)
    requires FloodInv(w) && OthersSilent(cfg) && (kind == MessageFlood || kind == InformationBoundary)
    ensures var a := RecordEvent(cfg, w.agent, addr, kind, clock);
            FloodTrips(a.feed) && forall peer :: PipelineKinds(EventsOf(a, peer))
  {
    var events := EventsOf(w.agent, addr) + [EventRecord(clock.stamp, kind)];
    assert PipelineKinds(EventsOf(w.agent, addr));
    PruneKeepsKinds(events, clock.prune - LongestWindow(cfg));
    FloodDecides(cfg, Recorded(cfg, EventsOf(w.agent, addr), kind, clock), clock.check);
    var a := RecordEvent(cfg, w.agent, addr, kind, clock);
    forall peer ensures PipelineKinds(EventsOf(a, peer)) {
      assert peer != addr ==> EventsOf(a, peer) == EventsOf(w.agent, peer);
    }
  }

  /** Feed entries other than trips do not matter. */
  lemma {:induction false} OtherEntries(feed: seq<FeedEvent>, e: FeedEvent)
    requires FloodTrips(feed) && !IsTrip(e)
    ensures FloodTrips(feed + [e])
  {
  }

  lemma {:induction false} RouteKeepsFloods(a: Agent, msg: Message, addr: string)
    requires FloodTrips(a.feed)
    ensures var a' := RouteMessage(a, msg, addr).0;
            FloodTrips(a'.feed) && a'.events == a.events
  {
    var e := Feed.Entry(addr, "message_processed_autonomously", Some(msg.id), "processed_autonomously", NoDetails,
                        None);
    assert |e.eventType| == 30;
    OtherEntries(a.feed, e);
  }

  lemma {:induction false} ResolveKeepsFloods(a: Agent, msg: Message, addr: string, answer: Answer)
    requires FloodTrips(a.feed)
    ensures var a' := ResolvePolicy(a, msg, addr, answer).0;
            FloodTrips(a'.feed) && a'.events == a.events
  {
    var d := if answer.Throws? then Decision(Escalate, "low", EVALUATION_ERROR) else answer;
    var e := DecisionEntry(addr, msg, d);
    assert |e.eventType| == 21;
    OtherEntries(a.feed, e);
  }

  lemma {:induction false} KindsCarry(a: Agent, a': Agent)
    requires a'.events == a.events && forall addr :: PipelineKinds(EventsOf(a, addr))
    ensures forall addr :: PipelineKinds(EventsOf(a', addr))
  {
    forall addr ensures PipelineKinds(EventsOf(a', addr)) {
      assert EventsOf(a', addr) == EventsOf(a, addr);
    }
  }

  lemma {:induction false} StepKeepsFloods(cfg: BreakerConfig, w: World, e: AgentEvent)
    requires FloodInv(w) && OthersSilent(cfg) && FromPipeline(e)
    ensures FloodInv(WorldStep(cfg, w, e))
  {
    match e {
      case AdmitMessage(msg, addr, clock) =>
        if addr in w.agent.connections {
          var recorded := RecordEvent(cfg, w.agent, addr, MessageFlood, clock);
          RecordKeepsFloods(cfg, w, addr, MessageFlood, clock);
          RouteKeepsFloods(recorded, msg, addr);
          KindsCarry(recorded, WorldStep(cfg, w, e).agent);
        }
      case ResolveMessage(i, msg, answer) =>
        if i < |w.log| {
          ResolveKeepsFloods(w.agent, msg, w.log[i].addr, answer);
        }
        KindsCarry(w.agent, WorldStep(cfg, w, e).agent);
      case RecordViolation(addr, kind, clock) =>
        RecordKeepsFloods(cfg, w, addr, kind, clock);
      case EditStore(op, time) =>
        KindsCarry(w.agent, WorldStep(cfg, w, e).agent);
    }
  }

  lemma {:induction false} RunKeepsFloods(cfg: BreakerConfig, w: World, events: seq<AgentEvent>)
    requires FloodInv(w) && OthersSilent(cfg) && forall i :: 0 <= i < |events| ==> FromPipeline(events[i])
    ensures FloodInv(WorldRun(cfg, w, events))
  {
    if events != [] {
      RunKeepsFloods(cfg, w, events[..|events| - 1]);
      StepKeepsFloods(cfg, WorldRun(cfg, w, events[..|events| - 1]), events[|events| - 1]);
    }
  }

  lemma {:induction false} RunFloods(cfg: BreakerConfig, connections: Connections, messages: map<string, Stored>,
                                     now: int, events: seq<AgentEvent>)
    requires OthersSilent(cfg) && PipelineRun(cfg, Start(connections, messages, now), events)
    ensures FloodTrips(WorldRun(cfg, Start(connections, messages, now), events).agent.feed)
  {
    RunKeepsFloods(cfg, Start(connections, messages, now), events);
  }

  /** The name under which a single hard denial trips when another check needs no event at all. */
  function SilentName(cfg: BreakerConfig): string {
    if cfg.violationThreshold <= 0 then "permission_violation" else "boundary_probe"
  }

  /** Otherwise one hard denial of an untripped peer trips the breaker, and not as a flood. */
  lemma {:induction false} DenialTripsOtherwise(cfg: BreakerConfig, peer: string, c: Connection)
    requires !OthersSilent(cfg) && !c.circuitBreakerTripped
    ensures var start, e := Start(map[peer := c], map[], 0), RecordViolation(peer, InformationBoundary, Clock(0, 0, 0));
            var w := WorldRun(cfg, start, [e]);
            && RunFits(cfg, start, [e]) && FromPipeline(e)
            && IsTripped(w.agent.connections, peer)
            && |w.agent.feed| == 1 && IsTrip(w.agent.feed[0])
            && w.agent.feed[0].details.TripDetails? && w.agent.feed[0].details.trigger == SilentName(cfg)
            && !FloodTrips(w.agent.feed)
  {
    var start, e := Start(map[peer := c], map[], 0), RecordViolation(peer, InformationBoundary, Clock(0, 0, 0));
    assert [e][..0] == [];
    assert WorldRun(cfg, start, []) == start && RunFits(cfg, start, []);
    assert WorldRun(cfg, start, [e]) == WorldStep(cfg, start, e);
    OneDenialDecides(cfg);
    assert |SilentName(cfg)| != |"message_flood"|;
  }

  lemma {:induction false} OneDenialDecides(cfg: BreakerConfig)
    requires !OthersSilent(cfg)
    ensures var d := FirstExceeded(Checks(cfg), Recorded(cfg, [], InformationBoundary, Clock(0, 0, 0)), 0);
            d.Some? && KindName(d.value.kind) == SilentName(cfg)
  {
    var events: seq<EventRecord> := [EventRecord(0, InformationBoundary)];
    assert [] + events == events && events[1..] == [];
    var c := 0 - LongestWindow(cfg);
    assert Prune(events[1..], c) == [] && [events[0]] + [] == events;
    assert Recorded(cfg, [], InformationBoundary, Clock(0, 0, 0)) == Prune(events, c);
    assert Prune(events, c) == [] || Prune(events, c) == events;
    DenialsOnlyDecide(cfg, events);
    DenialsOnlyDecide(cfg, []);
  }

  /** With nothing but denials on record, the first check that needs no event decides. */
  lemma {:induction false} DenialsOnlyDecide(cfg: BreakerConfig, events: seq<EventRecord>)
    requires !OthersSilent(cfg) && AllProbes(events, 0)
    ensures var d := FirstExceeded(Checks(cfg), events, 0);
            d.Some? && KindName(d.value.kind) == SilentName(cfg)
  {
    forall kind: TriggerType, bound: int | kind != InformationBoundary ensures Count(events, kind, bound) == 0 {
      DenialsUncounted(events, 0, kind, bound);
    }
    var checks := Checks(cfg);
    assert checks[1..][0] == checks[1] && checks[1..][1..] == checks[2..];
    assert checks[2..][0] == checks[2] && checks[2..][1..] == checks[3..];
    assert checks[3..][0] == checks[3];
    assert FirstExceeded(checks, events, 0) == FirstExceeded(checks[1..], events, 0);
    if cfg.violationThreshold > 0 {
      assert FirstExceeded(checks[1..], events, 0) == FirstExceeded(checks[2..], events, 0);
      assert FirstExceeded(checks[2..], events, 0) == FirstExceeded(checks[3..], events, 0);
    }
  }

  /**
    Only message floods trip the breaker, in every run of the pipeline, exactly when the flood
    threshold is not positive or both other thresholds are.
   */
  lemma {:induction false} OnlyFloodsTripExactly(cfg: BreakerConfig)
    ensures OnlyFloodsTrip(cfg) <==> OthersSilent(cfg)
  {
    if OthersSilent(cfg) {
      forall connections, messages, now, events | PipelineRun(cfg, Start(connections, messages, now), events)
        ensures FloodTrips(WorldRun(cfg, Start(connections, messages, now), events).agent.feed)
      {
        RunFloods(cfg, connections, messages, now, events);
      }
    } else {
      var connections, messages, now, events := NotAFlood(cfg);
    }
  }

  lemma {:induction false} NotAFlood(cfg: BreakerConfig)
    returns (connections: Connections, messages: map<string, Stored>, now: int, events: seq<AgentEvent>)
    requires !OthersSilent(cfg)
    ensures PipelineRun(cfg, Start(connections, messages, now), events)
    ensures !FloodTrips(WorldRun(cfg, Start(connections, messages, now), events).agent.feed)
  {
    connections, messages, now := map["p" := ANY_PEER], map[], 0;
    events := [RecordViolation("p", InformationBoundary, Clock(0, 0, 0))];
    DenialTripsOtherwise(cfg, "p", ANY_PEER);
  }

  const ANY_PEER := Connection("p", None, Active, "", FullAuto, None, false,
                               Some(Manifest(["no addresses"], [])), false, false, None, 0, 0, None)

  // ---------- hard denials never add up ----------

  /** Messages of one peer processed one after the other at one moment. */
  function ProcessAll(cfg: BreakerConfig, a: Agent, msgs: seq<Message>, addr: string, ev: Evaluator, t: int): Agent {
    if msgs == [] then a
    else Process(cfg, ProcessAll(cfg, a, msgs[..|msgs| - 1], addr, ev, t), msgs[|msgs| - 1], addr, ev, Clock(t, t, t)).0
  }

  ghost predicate HardDenied(m: Connections, msg: Message, addr: string, ev: Evaluator) {
    var d := CheckMessage(m, msg.body, addr, ev);
    d.Denied? && d.violation && !d.escalate
  }

  ghost predicate AllProbes(events: seq<EventRecord>, t: int) {
    forall i :: 0 <= i < |events| ==> events[i] == EventRecord(t, InformationBoundary)
  }

  lemma {:induction false} ProbesCounted(events: seq<EventRecord>, t: int, bound: int)
    requires AllProbes(events, t) && bound < t
    ensures Prune(events, bound) == events && Count(events, InformationBoundary, bound) == |events|
  {
    if events != [] {
      ProbesCounted(events[1..], t, bound);
      assert events == [events[0]] + events[1..];
    }
  }

  lemma {:induction false} ProbesDecideNothing(cfg: BreakerConfig, events: seq<EventRecord>, t: int)
    requires AllProbes(events, t)
    requires cfg.floodThreshold > 0 && cfg.violationThreshold > 0 && cfg.boundaryProbeThreshold > 0
    ensures FirstExceeded(Checks(cfg), events, t).None?
  {
    DecisionMeans(cfg, events, t);
    forall kind: TriggerType, bound: int | kind != InformationBoundary ensures Count(events, kind, bound) == 0 {
      DenialsUncounted(events, t, kind, bound);
    }
  }

  lemma {:induction false} DenialsUncounted(events: seq<EventRecord>, t: int, kind: TriggerType, bound: int)
    requires AllProbes(events, t) && kind != InformationBoundary
    ensures Count(events, kind, bound) == 0
  {
    if events != [] {
      DenialsUncounted(events[1..], t, kind, bound);
    }
  }

  lemma {:induction false} OneProbe(cfg: BreakerConfig, a: Agent, msg: Message, addr: string, ev: Evaluator, t: int)
    requires addr in a.connections && !a.connections[addr].muted && !a.connections[addr].passthrough
    requires HardDenied(a.connections, msg, addr, ev) && AllProbes(EventsOf(a, addr), t)
    requires cfg.floodThreshold > 0 && cfg.violationThreshold > 0 && cfg.boundaryProbeThreshold > 0
    requires cfg.boundaryProbeWindowMs > 0
    ensures var a' := Process(cfg, a, msg, addr, ev, Clock(t, t, t)).0;
            && a'.connections == a.connections && AllProbes(EventsOf(a', addr), t)
            && |EventsOf(a', addr)| == |EventsOf(a, addr)| + 1
  {
    var events := EventsOf(a, addr) + [EventRecord(t, InformationBoundary)];
    ProbesCounted(events, t, t - LongestWindow(cfg));
    assert Recorded(cfg, EventsOf(a, addr), InformationBoundary, Clock(t, t, t)) == events;
    ProbesDecideNothing(cfg, events, t);
  }

  /** `n` denials are on record, all at time t, and the connections are as before. */
  ghost predicate OnRecord(a: Agent, a': Agent, addr: string, n: nat, t: int) {
    && a'.connections == a.connections
    && AllProbes(EventsOf(a', addr), t) && |EventsOf(a', addr)| == n
  }

  /**
    However many hard denials of one peer fall on one moment, boundaryProbeThreshold of them and
    more, they are all on record and the connection stays as it was.
   */
  lemma {:induction false} DenialsNeverTrip(cfg: BreakerConfig, a: Agent, msgs: seq<Message>, addr: string,
                                            ev: Evaluator, t: int)
    requires addr in a.connections && !a.connections[addr].muted && !a.connections[addr].passthrough
    requires EventsOf(a, addr) == [] && forall i :: 0 <= i < |msgs| ==> HardDenied(a.connections, msgs[i], addr, ev)
    requires cfg.floodThreshold > 0 && cfg.violationThreshold > 0 && cfg.boundaryProbeThreshold > 0
    requires cfg.boundaryProbeWindowMs > 0
    ensures OnRecord(a, ProcessAll(cfg, a, msgs, addr, ev, t), addr, |msgs|, t)
  {
    if msgs != [] {
      var before := msgs[..|msgs| - 1];
      DenialsNeverTrip(cfg, a, before, addr, ev, t);
      OneProbe(cfg, ProcessAll(cfg, a, before, addr, ev, t), msgs[|msgs| - 1], addr, ev, t);
    }
  }

  const DENY_ALL := Evaluator((_, _, _, _) => Decision(Deny, "high", "no"), (_, _, _) => Decision(Deny, "high", "no"))

  lemma {:induction false} DenyAllDenies(msg: Message)
    ensures HardDenied(map["p" := ANY_PEER], msg, "p", DENY_ALL)
  {
  }

  const FRESH_AGENT := Agent(map["p" := ANY_PEER], map[], map[], [])

  /** The documented three boundary probes in ten minutes, on the default configuration: no trip. */
  lemma {:induction false} ThreeProbesPass(msgs: seq<Message>)
    requires |msgs| == DEFAULT_CONFIG.boundaryProbeThreshold
    ensures OnRecord(FRESH_AGENT, ProcessAll(DEFAULT_CONFIG, FRESH_AGENT, msgs, "p", DENY_ALL, 0), "p", |msgs|, 0)
    ensures !IsTripped(FRESH_AGENT.connections, "p")
  {
    forall i | 0 <= i < |msgs| ensures HardDenied(FRESH_AGENT.connections, msgs[i], "p", DENY_ALL) {
      DenyAllDenies(msgs[i]);
    }
    DenialsNeverTrip(DEFAULT_CONFIG, FRESH_AGENT, msgs, "p", DENY_ALL, 0);
  }
}
