/**
  The autonomous-rate bound cannot be improved: one run of the agent attains it on the half-open
  window and exceeds it on the closed one.
 */
module RateTight {
  import opened Common
  import opened ConnectionStores
  import opened CircuitBreakers
  import opened Pipeline
  import opened RateBound

  function At(t: int): Clock {
    Clock(t, t, t)
  }

  function Floods(t: int, k: nat): seq<EventRecord> {
    seq(k, _ => EventRecord(t, MessageFlood))
  }

  /** A trusted peer whose breaker has not tripped. */
  predicate Trusted(c: Connection) {
    c.state == Active && c.autonomyLevel == FullAuto && !c.circuitBreakerTripped
  }

  predicate Ordinary(cfg: BreakerConfig) {
    cfg.floodThreshold >= 2 && cfg.floodWindowMs > 0 && cfg.violationThreshold > 0 && cfg.boundaryProbeThreshold > 0
  }

  /** A message that exceeds no check is read, and nothing but the peer's event list changes. */
  lemma {:induction false} CalmAdmit(cfg: BreakerConfig, w: World, msg: Message, peer: string, t: int)
    requires peer in w.agent.connections && Trusted(w.agent.connections[peer])
    requires FirstExceeded(Checks(cfg), Recorded(cfg, EventsOf(w.agent, peer), MessageFlood, At(t)), t).None?
    ensures var w' := WorldStep(cfg, w, AdmitMessage(msg, peer, At(t)));
            && w'.agent.connections == w.agent.connections && w'.now == t
            && EventsOf(w'.agent, peer) == Recorded(cfg, EventsOf(w.agent, peer), MessageFlood, At(t))
            && w'.log == w.log + [Recording(peer, MessageFlood, At(t))] && w'.outcomes == w.outcomes + [Read]
  {
  }

  lemma {:induction false} BelowThreshold(cfg: BreakerConfig, events: seq<EventRecord>, t: int)
    requires Ordinary(cfg) && FloodsInOrder(events)
    requires |events| < cfg.floodThreshold || events[|events| - cfg.floodThreshold].timestamp <= t - cfg.floodWindowMs
    ensures FirstExceeded(Checks(cfg), Prune(events, t - LongestWindow(cfg)), t).None?
  {
    WindowIsHalfOpen(cfg, events, t);
    DecisionPruned(Checks(cfg), events, t - LongestWindow(cfg), t);
  }

  lemma {:induction false} NothingPruned(t: int, k: nat, cutoff: int)
    requires cutoff < t
    ensures Prune(Floods(t, k), cutoff) == Floods(t, k)
  {
    if k > 0 {
      assert Floods(t, k)[1..] == Floods(t, k - 1);
      NothingPruned(t, k - 1, cutoff);
    }
  }

  /** The state after k messages of a trusted peer at one moment, k below the threshold. */
  ghost predicate AfterBurst(w: World, connections: Connections, peer: string, t: int, k: nat) {
    && w.agent.connections == connections && w.now == t
    && EventsOf(w.agent, peer) == Floods(t, k)
    && w.log == seq(k, _ => Recording(peer, MessageFlood, At(t))) && w.outcomes == seq(k, _ => Read)
  }

  lemma {:induction false} BurstStep(cfg: BreakerConfig, w: World, connections: Connections, msg: Message, peer: string,
                                     t: int, k: nat)
    requires Ordinary(cfg) && peer in connections && Trusted(connections[peer]) && k + 1 < cfg.floodThreshold
    requires AfterBurst(w, connections, peer, t, k)
    ensures AfterBurst(WorldStep(cfg, w, AdmitMessage(msg, peer, At(t))), connections, peer, t, k + 1)
  {
    assert Floods(t, k) + [EventRecord(t, MessageFlood)] == Floods(t, k + 1);
    BelowThreshold(cfg, Floods(t, k + 1), t);
    NothingPruned(t, k + 1, t - LongestWindow(cfg));
    CalmAdmit(cfg, w, msg, peer, t);
  }

  /** k messages at one moment. */
  lemma {:induction false} BurstRun(cfg: BreakerConfig, connections: Connections, messages: map<string, Stored>,
                                    msg: Message, peer: string, t: int, k: nat) returns (events: seq<AgentEvent>)
    requires Ordinary(cfg) && peer in connections && Trusted(connections[peer]) && k < cfg.floodThreshold
    ensures RunFits(cfg, Start(connections, messages, t), events)
    ensures AfterBurst(WorldRun(cfg, Start(connections, messages, t), events), connections, peer, t, k)
  {
    if k == 0 {
      events := [];
    } else {
      var before := BurstRun(cfg, connections, messages, msg, peer, t, k - 1);
      var w := WorldRun(cfg, Start(connections, messages, t), before);
      RunSnoc(cfg, Start(connections, messages, t), before, AdmitMessage(msg, peer, At(t)));
      BurstStep(cfg, w, connections, msg, peer, t, k - 1);
      events := before + [AdmitMessage(msg, peer, At(t))];
    }
  }

  /** One window later the burst no longer counts. */
  lemma {:induction false} LateAdmit(cfg: BreakerConfig, w: World, connections: Connections, msg: Message, peer: string,
                                     t: int)
    requires Ordinary(cfg) && peer in connections && Trusted(connections[peer])
    requires AfterBurst(w, connections, peer, t, cfg.floodThreshold - 1)
    ensures Straddled(cfg, WorldStep(cfg, w, AdmitMessage(msg, peer, At(t + cfg.floodWindowMs))), peer, t)
  {
    var k, u := cfg.floodThreshold - 1, t + cfg.floodWindowMs;
    BelowThreshold(cfg, Floods(t, k) + [EventRecord(u, MessageFlood)], u);
    CalmAdmit(cfg, w, msg, peer, u);
  }

  ghost predicate Straddled(cfg: BreakerConfig, w: World, peer: string, t: int)
    requires cfg.floodThreshold > 0
  {
    var k := cfg.floodThreshold - 1;
    && w.outcomes == seq(k, _ => Read) + [Read]
    && w.log == seq(k, _ => Recording(peer, MessageFlood, At(t)))
                + [Recording(peer, MessageFlood, At(t + cfg.floodWindowMs))]
  }

  lemma {:induction false} RunSnoc(cfg: BreakerConfig, w: World, events: seq<AgentEvent>, e: AgentEvent)
    ensures WorldRun(cfg, w, events + [e]) == WorldStep(cfg, WorldRun(cfg, w, events), e)
    ensures RunFits(cfg, w, events + [e]) <==> RunFits(cfg, w, events) && EventFits(WorldRun(cfg, w, events), e)
  {
    assert (events + [e])[..|events|] == events;
  }

  lemma {:induction false} LateRun(cfg: BreakerConfig, start: World, burst: seq<AgentEvent>, w: World,
                                   connections: Connections, msg: Message, peer: string, t: int)
    requires Ordinary(cfg) && peer in connections && Trusted(connections[peer])
    requires RunFits(cfg, start, burst) && w == WorldRun(cfg, start, burst)
    requires AfterBurst(w, connections, peer, t, cfg.floodThreshold - 1)
    ensures var all := burst + [AdmitMessage(msg, peer, At(t + cfg.floodWindowMs))];
            RunFits(cfg, start, all) && Straddled(cfg, WorldRun(cfg, start, all), peer, t)
  {
    var e := AdmitMessage(msg, peer, At(t + cfg.floodWindowMs));
    RunSnoc(cfg, start, burst, e);
    LateAdmit(cfg, w, connections, msg, peer, t);
  }

  /** As many messages as the threshold, the last exactly one window after the others. */
  lemma {:induction false} StraddlingRun(cfg: BreakerConfig, connections: Connections, messages: map<string, Stored>,
                                         msg: Message, peer: string, t: int) returns (events: seq<AgentEvent>)
    requires Ordinary(cfg) && peer in connections && Trusted(connections[peer])
    ensures RunFits(cfg, Start(connections, messages, t), events)
    ensures Straddled(cfg, WorldRun(cfg, Start(connections, messages, t), events), peer, t)
  {
    var start := Start(connections, messages, t);
    var burst := BurstRun(cfg, connections, messages, msg, peer, t, cfg.floodThreshold - 1);
    LateRun(cfg, start, burst, WorldRun(cfg, start, burst), connections, msg, peer, t);
    events := burst + [AdmitMessage(msg, peer, At(t + cfg.floodWindowMs))];
  }

  /** The messages of ReadIn, with the right end of the interval included. */
  ghost function ReadInClosed(w: World, peer: string, lo: int, window: int): set<nat> {
    set i | 0 <= i < |w.log| && i < |w.outcomes| && w.log[i].addr == peer && w.outcomes[i] == Read &&
            lo <= w.log[i].clock.stamp && w.log[i].clock.check <= lo + window
  }

  ghost function UpTo(n: nat): (s: set<nat>)
    ensures |s| == n && forall i: int :: i in s <==> 0 <= i < n
  {
    if n == 0 then {} else UpTo(n - 1) + {n - 1}
  }

  /**
    For every configuration with a flood threshold of at least two there is a run that reads
    floodThreshold - 1 messages in a half-open window, so the bound is attained, and
    floodThreshold messages in the closed one, so it does not hold there.
   */
  lemma {:induction false} BoundIsTight(cfg: BreakerConfig, connections: Connections, messages: map<string, Stored>,
                                        msg: Message, peer: string, t: int) returns (events: seq<AgentEvent>)
    requires Ordinary(cfg) && peer in connections && Trusted(connections[peer])
    ensures RunFits(cfg, Start(connections, messages, t), events)
    ensures var w := WorldRun(cfg, Start(connections, messages, t), events);
            && |ReadIn(w, peer, t, cfg.floodWindowMs)| == cfg.floodThreshold - 1
            && |ReadInClosed(w, peer, t, cfg.floodWindowMs)| == cfg.floodThreshold
  {
    events := StraddlingRun(cfg, connections, messages, msg, peer, t);
    CountStraddling(cfg, WorldRun(cfg, Start(connections, messages, t), events), peer, t);
  }

  lemma {:induction false} CountStraddling(cfg: BreakerConfig, w: World, peer: string, t: int)
    requires Ordinary(cfg) && Straddled(cfg, w, peer, t)
    ensures |ReadIn(w, peer, t, cfg.floodWindowMs)| == cfg.floodThreshold - 1
    ensures |ReadInClosed(w, peer, t, cfg.floodWindowMs)| == cfg.floodThreshold
  {
    var k := cfg.floodThreshold - 1;
    assert ReadIn(w, peer, t, cfg.floodWindowMs) == UpTo(k);
    assert ReadInClosed(w, peer, t, cfg.floodWindowMs) == UpTo(k + 1);
  }
}
