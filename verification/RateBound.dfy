/**
  How many messages of one peer the agent can read on its own authority in a stretch of time.
  The run interleaves the synchronous segments of any number of concurrent `process` calls,
  policy answers arriving later, violations, and every other edit of the connection store,
  human re-upgrades included.
 */
module RateBound {
  import opened Common
  import opened ConnectionStores
  import opened CircuitBreakers
  import opened Pipeline

  datatype Recording = Recording(addr: string, kind: TriggerType, clock: Clock)

  datatype Outcome = NotMessage | Awaiting | Read | NotRead

  /** `log` lists every recording of the process, `outcomes` what became of each message. */
  datatype World = World(agent: Agent, log: seq<Recording>, outcomes: seq<Outcome>, now: int)

  datatype AgentEvent =
    | AdmitMessage(msg: Message, addr: string, clock: Clock)
    | ResolveMessage(index: nat, msg: Message, answer: Answer)
    | RecordViolation(addr: string, kind: TriggerType, clock: Clock)
    | EditStore(op: StoreOp, time: int)

  function OutcomeOf(state: MessageState): Outcome {
    match state
    case ReadByAgent => Read
    case PendingPolicyEval => Awaiting
    case _ => NotRead
  }

  function WorldStep(cfg: BreakerConfig, w: World, e: AgentEvent): World {
    match e
    case AdmitMessage(msg, addr, clock) =>
      if addr !in w.agent.connections then w
      else
        var (a, r) := RecordAndRoute(cfg, w.agent, msg, addr, clock);
        World(a, w.log + [Recording(addr, MessageFlood, clock)], w.outcomes + [OutcomeOf(r.state)], clock.check)
    case ResolveMessage(i, msg, answer) =>
      if i >= |w.outcomes| || i >= |w.log| || w.outcomes[i] != Awaiting then w
      else
        var (a, r) := ResolvePolicy(w.agent, msg, w.log[i].addr, answer);
        w.(agent := a, outcomes := w.outcomes[i := OutcomeOf(r.state)])
    case RecordViolation(addr, kind, clock) =>
      if addr !in w.agent.connections then w
      else World(RecordEvent(cfg, w.agent, addr, kind, clock), w.log + [Recording(addr, kind, clock)],
                 w.outcomes + [NotMessage], clock.check)
    case EditStore(op, time) =>
      w.(agent := w.agent.(connections := StoreStep(w.agent.connections, op, time)))
  }

  predicate Ticks(now: int, clock: Clock) {
    now <= clock.stamp <= clock.prune <= clock.check
  }

  /** The clock does not run backwards, and the store is edited as the agent's code does. */
  predicate EventFits(w: World, e: AgentEvent) {
    match e
    case AdmitMessage(_, _, clock) => Ticks(w.now, clock)
    case ResolveMessage(_, _, _) => true
    case RecordViolation(_, kind, clock) => kind != MessageFlood && Ticks(w.now, clock)
    case EditStore(op, _) => OpOk(op)
  }

  function Start(connections: Connections, messages: map<string, Stored>, now: int): World {
    World(Agent(connections, map[], messages, []), [], [], now)
  }

  function WorldRun(cfg: BreakerConfig, w: World, events: seq<AgentEvent>): World {
    if events == [] then w else WorldStep(cfg, WorldRun(cfg, w, events[..|events| - 1]), events[|events| - 1])
  }

  predicate RunFits(cfg: BreakerConfig, w: World, events: seq<AgentEvent>) {
    events == [] ||
    (RunFits(cfg, w, events[..|events| - 1]) &&
     EventFits(WorldRun(cfg, w, events[..|events| - 1]), events[|events| - 1]))
  }

  // ---------- one peer's history inside the log ----------

  function History(log: seq<Recording>, addr: string): seq<EventRecord> {
    if log == [] then []
    else
      var last, before := log[|log| - 1], History(log[..|log| - 1], addr);
      if last.addr == addr then before + [EventRecord(last.clock.stamp, last.kind)] else before
  }

  lemma {:induction false} HistorySnoc(log: seq<Recording>, r: Recording, addr: string)
    ensures History(log + [r], addr) ==
            if r.addr == addr then History(log, addr) + [EventRecord(r.clock.stamp, r.kind)] else History(log, addr)
  {
    assert (log + [r])[..|log|] == log;
  }

  lemma {:induction false} CountConcat(a: seq<EventRecord>, b: seq<EventRecord>, kind: TriggerType, bound: int)
    ensures Count(a + b, kind, bound) == Count(a, kind, bound) + Count(b, kind, bound)
  {
    if a == [] {
      assert a + b == b;
    } else {
      CountConcat(a[1..], b, kind, bound);
      assert (a + b)[1..] == a[1..] + b && (a + b)[0] == a[0];
    }
  }

  /** The positions below n that match. */
  ghost function Matching(log: seq<Recording>, n: nat, addr: string, kind: TriggerType, bound: int): (s: set<nat>)
    requires n <= |log|
    ensures forall i: int :: i in s <==> 0 <= i < n && Matches(log[i], addr, kind, bound)
  {
    if n == 0 then {}
    else
      var before := Matching(log, n - 1, addr, kind, bound);
      if Matches(log[n - 1], addr, kind, bound) then before + {n - 1} else before
  }

  predicate Matches(r: Recording, addr: string, kind: TriggerType, bound: int) {
    r.addr == addr && r.kind == kind && r.clock.stamp > bound
  }

  lemma {:induction false} CountSnoc(log: seq<Recording>, r: Recording, addr: string, kind: TriggerType, bound: int)
    ensures Count(History(log + [r], addr), kind, bound) ==
            Count(History(log, addr), kind, bound) + (if Matches(r, addr, kind, bound) then 1 else 0)
  {
    HistorySnoc(log, r, addr);
    var e := EventRecord(r.clock.stamp, r.kind);
    assert [e][1..] == [];
    CountConcat(History(log, addr), [e], kind, bound);
  }

  /** The window count over a history is the number of matching log positions. */
  lemma {:induction false} CountIsCardinality(log: seq<Recording>, n: nat, addr: string, kind: TriggerType, bound: int)
    requires n <= |log|
    ensures Count(History(log[..n], addr), kind, bound) == |Matching(log, n, addr, kind, bound)|
  {
    if n > 0 {
      CountIsCardinality(log, n - 1, addr, kind, bound);
      assert log[..n] == log[..n - 1] + [log[n - 1]];
      CountSnoc(log[..n - 1], log[n - 1], addr, kind, bound);
    }
  }

  // ---------- the invariant ----------

  /** The peer's event list is its full history, pruned no further than any window reaches. */
  ghost predicate Refined(cfg: BreakerConfig, w: World, addr: string) {
    exists c :: c <= w.now - LongestWindow(cfg) && EventsOf(w.agent, addr) == Prune(History(w.log, addr), c)
  }

  /** When message i was let through, the flood window ending there was below the threshold. */
  ghost predicate WithinRate(cfg: BreakerConfig, log: seq<Recording>, i: nat)
    requires i < |log|
  {
    && log[i].kind == MessageFlood
    && Count(History(log[..i + 1], log[i].addr), MessageFlood,
             log[i].clock.check - cfg.floodWindowMs) < cfg.floodThreshold
  }

  ghost predicate WorldInv(cfg: BreakerConfig, w: World) {
    && |w.outcomes| == |w.log|
    && TrippedIsManual(w.agent.connections)
    && (forall addr :: Refined(cfg, w, addr))
    && (forall i :: 0 <= i < |w.log| && (w.outcomes[i] == Read || w.outcomes[i] == Awaiting) ==>
        WithinRate(cfg, w.log, i))
  }

  lemma {:induction false} RecordKeepsTripped(cfg: BreakerConfig, a: Agent, addr: string, kind: TriggerType,
                                              clock: Clock)
    requires TrippedIsManual(a.connections)
    ensures TrippedIsManual(RecordEvent(cfg, a, addr, kind, clock).connections)
  {
    StoreStepKeeps(a.connections, Trip(addr), clock.check);
  }

  /** After recording, a connection above full_manual has not reached the flood threshold. */
  lemma {:induction false} UntrippedIsBelow(cfg: BreakerConfig, a: Agent, addr: string, clock: Clock)
    requires TrippedIsManual(a.connections) && addr in a.connections
    requires var a' := RecordEvent(cfg, a, addr, MessageFlood, clock);
             addr in a'.connections && a'.connections[addr].autonomyLevel != FullManual
    ensures Count(Recorded(cfg, EventsOf(a, addr), MessageFlood, clock), MessageFlood, clock.check - cfg.floodWindowMs)
            < cfg.floodThreshold
  {
    RecordKeepsConnection(cfg, a, addr, MessageFlood, clock);
    DecisionMeans(cfg, Recorded(cfg, EventsOf(a, addr), MessageFlood, clock), clock.check);
    assert Checks(cfg)[0] in Checks(cfg);
  }

  lemma {:induction false} RecordRefines(cfg: BreakerConfig, w: World, addr: string, kind: TriggerType, clock: Clock,
                                         peer: string)
    requires WorldInv(cfg, w) && Ticks(w.now, clock)
    ensures var log := w.log + [Recording(addr, kind, clock)];
            Refined(cfg, World(RecordEvent(cfg, w.agent, addr, kind, clock), log, [], clock.check), peer)
  {
    var log := w.log + [Recording(addr, kind, clock)];
    HistorySnoc(w.log, Recording(addr, kind, clock), peer);
    assert Refined(cfg, w, peer);
    var c :| c <= w.now - LongestWindow(cfg) && EventsOf(w.agent, peer) == Prune(History(w.log, peer), c);
    if peer == addr {
      RecordedRefines(cfg, EventsOf(w.agent, peer), History(w.log, peer), c, kind, clock);
      var c' := clock.prune - LongestWindow(cfg);
      assert c' <= clock.check - LongestWindow(cfg);
      assert EventsOf(RecordEvent(cfg, w.agent, addr, kind, clock), peer) == Prune(History(log, peer), c');
    } else {
      assert c <= clock.check - LongestWindow(cfg);
      assert EventsOf(RecordEvent(cfg, w.agent, addr, kind, clock), peer) == Prune(History(log, peer), c);
    }
  }

  lemma {:induction false} RefinedCarries(cfg: BreakerConfig, w: World, w': World, addr: string)
    requires Refined(cfg, w, addr)
    requires EventsOf(w'.agent, addr) == EventsOf(w.agent, addr) && w'.log == w.log && w'.now == w.now
    ensures Refined(cfg, w', addr)
  {
    var c :| c <= w.now - LongestWindow(cfg) && EventsOf(w.agent, addr) == Prune(History(w.log, addr), c);
    assert c <= w'.now - LongestWindow(cfg);
  }

  lemma {:induction false} RatesCarry(cfg: BreakerConfig, log: seq<Recording>, r: Recording, i: nat)
    requires i < |log| && WithinRate(cfg, log, i)
    ensures WithinRate(cfg, log + [r], i)
  {
    assert (log + [r])[..i + 1] == log[..i + 1];
  }

  /** The full history sees the same window as the pruned list. */
  lemma {:induction false} NewRecordingWithinRate(cfg: BreakerConfig, w: World, addr: string, clock: Clock)
    requires WorldInv(cfg, w) && Ticks(w.now, clock) && addr in w.agent.connections
    requires var a' := RecordEvent(cfg, w.agent, addr, MessageFlood, clock);
             addr in a'.connections && a'.connections[addr].autonomyLevel != FullManual
    ensures WithinRate(cfg, w.log + [Recording(addr, MessageFlood, clock)], |w.log|)
  {
    var r := Recording(addr, MessageFlood, clock);
    var log := w.log + [r];
    assert log[..|w.log| + 1] == log;
    HistorySnoc(w.log, r, addr);
    UntrippedIsBelow(cfg, w.agent, addr, clock);
    assert Refined(cfg, w, addr);
    var c :| c <= w.now - LongestWindow(cfg) && EventsOf(w.agent, addr) == Prune(History(w.log, addr), c);
    RecordedRefines(cfg, EventsOf(w.agent, addr), History(w.log, addr), c, MessageFlood, clock);
    CountPruned(History(log, addr), clock.prune - LongestWindow(cfg), MessageFlood, clock.check - cfg.floodWindowMs);
  }

  lemma {:induction false} AdmitShape(cfg: BreakerConfig, w: World, msg: Message, addr: string, clock: Clock)
    requires addr in w.agent.connections
    ensures var w' := WorldStep(cfg, w, AdmitMessage(msg, addr, clock));
            var a := RecordEvent(cfg, w.agent, addr, MessageFlood, clock);
            && addr in a.connections
            && w'.agent.connections == a.connections && w'.agent.events == a.events && w'.now == clock.check
            && w'.log == w.log + [Recording(addr, MessageFlood, clock)] && |w'.outcomes| == |w.outcomes| + 1
            && w'.outcomes[..|w.outcomes|] == w.outcomes
            && (w'.outcomes[|w.outcomes|] in {Read, Awaiting} ==> a.connections[addr].autonomyLevel != FullManual)
  {
    RecordKeepsConnection(cfg, w.agent, addr, MessageFlood, clock);
  }

  lemma {:induction false} AdmitKeeps(cfg: BreakerConfig, w: World, msg: Message, addr: string, clock: Clock)
    requires WorldInv(cfg, w) && Ticks(w.now, clock) && addr in w.agent.connections
    ensures WorldInv(cfg, WorldStep(cfg, w, AdmitMessage(msg, addr, clock)))
  {
    var w' := WorldStep(cfg, w, AdmitMessage(msg, addr, clock));
    var recorded := RecordEvent(cfg, w.agent, addr, MessageFlood, clock);
    AdmitShape(cfg, w, msg, addr, clock);
    RecordKeepsTripped(cfg, w.agent, addr, MessageFlood, clock);
    forall peer ensures Refined(cfg, w', peer) {
      RecordRefines(cfg, w, addr, MessageFlood, clock, peer);
      RefinedCarries(cfg, World(recorded, w'.log, [], clock.check), w', peer);
    }
    AdmitWithinRate(cfg, w, w', addr, clock);
  }

  lemma {:induction false} AdmitWithinRate(cfg: BreakerConfig, w: World, w': World, addr: string, clock: Clock)
    requires WorldInv(cfg, w) && Ticks(w.now, clock) && addr in w.agent.connections
    requires w'.log == w.log + [Recording(addr, MessageFlood, clock)] && |w'.outcomes| == |w'.log|
    requires w'.outcomes[..|w.outcomes|] == w.outcomes
    requires var a := RecordEvent(cfg, w.agent, addr, MessageFlood, clock);
             && addr in a.connections
             && (w'.outcomes[|w.outcomes|] in {Read, Awaiting} ==> a.connections[addr].autonomyLevel != FullManual)
    ensures forall i :: 0 <= i < |w'.log| && (w'.outcomes[i] == Read || w'.outcomes[i] == Awaiting) ==>
              WithinRate(cfg, w'.log, i)
  {
    forall i | 0 <= i < |w'.log| && (w'.outcomes[i] == Read || w'.outcomes[i] == Awaiting)
      ensures WithinRate(cfg, w'.log, i)
    {
      if i < |w.log| {
        assert w'.outcomes[..|w.outcomes|][i] == w.outcomes[i];
        RatesCarry(cfg, w.log, Recording(addr, MessageFlood, clock), i);
      } else {
        NewRecordingWithinRate(cfg, w, addr, clock);
      }
    }
  }

  lemma {:induction false} ViolationKeeps(cfg: BreakerConfig, w: World, addr: string, kind: TriggerType, clock: Clock)
    requires WorldInv(cfg, w) && Ticks(w.now, clock) && addr in w.agent.connections
    ensures WorldInv(cfg, WorldStep(cfg, w, RecordViolation(addr, kind, clock)))
  {
    var w' := WorldStep(cfg, w, RecordViolation(addr, kind, clock));
    RecordKeepsTripped(cfg, w.agent, addr, kind, clock);
    forall peer ensures Refined(cfg, w', peer) {
      RecordRefines(cfg, w, addr, kind, clock, peer);
      RefinedCarries(cfg, World(w'.agent, w'.log, [], clock.check), w', peer);
    }
    forall i | 0 <= i < |w'.log| && (w'.outcomes[i] == Read || w'.outcomes[i] == Awaiting)
      ensures WithinRate(cfg, w'.log, i)
    {
      RatesCarry(cfg, w.log, Recording(addr, kind, clock), i);
    }
  }

  lemma {:induction false} WorldStepKeeps(cfg: BreakerConfig, w: World, e: AgentEvent)
    requires WorldInv(cfg, w) && EventFits(w, e)
    ensures WorldInv(cfg, WorldStep(cfg, w, e))
  {
    var w' := WorldStep(cfg, w, e);
    match e {
      case AdmitMessage(msg, addr, clock) =>
        if addr in w.agent.connections {
          AdmitKeeps(cfg, w, msg, addr, clock);
        }
      case RecordViolation(addr, kind, clock) =>
        if addr in w.agent.connections {
          ViolationKeeps(cfg, w, addr, kind, clock);
        }
      case ResolveMessage(i, msg, answer) =>
        forall addr ensures Refined(cfg, w', addr) {
          RefinedCarries(cfg, w, w', addr);
        }
      case EditStore(op, time) =>
        StoreStepKeeps(w.agent.connections, op, time);
        forall addr ensures Refined(cfg, w', addr) {
          RefinedCarries(cfg, w, w', addr);
        }
    }
  }

  lemma {:induction false} StartInv(cfg: BreakerConfig, connections: Connections, messages: map<string, Stored>,
                                    now: int)
    requires TrippedIsManual(connections)
    ensures WorldInv(cfg, Start(connections, messages, now))
  {
    var w := Start(connections, messages, now);
    forall addr ensures Refined(cfg, w, addr) {
      assert now - LongestWindow(cfg) <= w.now - LongestWindow(cfg);
      assert EventsOf(w.agent, addr) == Prune(History(w.log, addr), now - LongestWindow(cfg));
    }
  }

  lemma {:induction false} WorldRunInv(cfg: BreakerConfig, w: World, events: seq<AgentEvent>)
    requires WorldInv(cfg, w) && RunFits(cfg, w, events)
    ensures WorldInv(cfg, WorldRun(cfg, w, events))
  {
    if events != [] {
      var before := events[..|events| - 1];
      WorldRunInv(cfg, w, before);
      WorldStepKeeps(cfg, WorldRun(cfg, w, before), events[|events| - 1]);
    }
  }

  // ---------- the bound ----------

  /** Messages of `peer` read autonomously, recorded within [lo, lo + window). */
  ghost function ReadIn(w: World, peer: string, lo: int, window: int): set<nat> {
    set i | 0 <= i < |w.log| && i < |w.outcomes| && w.log[i].addr == peer && w.outcomes[i] == Read &&
            lo <= w.log[i].clock.stamp && w.log[i].clock.check < lo + window
  }

  lemma {:induction false} Largest(s: set<nat>) returns (m: nat)
    requires s != {}
    ensures m in s && forall i :: i in s ==> i <= m
  {
    m :| m in s;
    if s != {m} {
      var rest := s - {m};
      var r := Largest(rest);
      assert forall i :: i in s ==> i == m || i in rest;
      if r > m {
        m := r;
      }
    }
  }

  lemma {:induction false} SubsetSize(a: set<nat>, b: set<nat>)
    requires a <= b
    ensures |a| <= |b|
  {
    if a != {} {
      var x :| x in a;
      SubsetSize(a - {x}, b - {x});
    }
  }

  /**
    The autonomous-rate bound: in every run of one agent process, whatever humans re-upgrade in
    between, at most floodThreshold - 1 messages of one peer are read on the agent's own
    authority among those recorded in any half-open interval of one flood window.
   */
  lemma {:induction false} AutonomousRateBound(cfg: BreakerConfig, connections: Connections,
                                               messages: map<string, Stored>, now: int, events: seq<AgentEvent>,
                                               peer: string, lo: int)
    requires TrippedIsManual(connections) && RunFits(cfg, Start(connections, messages, now), events)
    ensures var w := WorldRun(cfg, Start(connections, messages, now), events);
            |ReadIn(w, peer, lo, cfg.floodWindowMs)| <= Max(0, cfg.floodThreshold - 1)
  {
    StartInv(cfg, connections, messages, now);
    WorldRunInv(cfg, Start(connections, messages, now), events);
    BoundFromInv(cfg, WorldRun(cfg, Start(connections, messages, now), events), peer, lo);
  }

  lemma {:induction false} BoundFromInv(cfg: BreakerConfig, w: World, peer: string, lo: int)
    requires WorldInv(cfg, w)
    ensures |ReadIn(w, peer, lo, cfg.floodWindowMs)| <= Max(0, cfg.floodThreshold - 1)
  {
    var found := ReadIn(w, peer, lo, cfg.floodWindowMs);
    if found != {} {
      var m := Largest(found);
      assert WithinRate(cfg, w.log, m);
      FoundMatch(cfg, w, peer, lo, m);
      FewMatch(cfg, w.log, m, found);
    }
  }

  lemma {:induction false} FewMatch(cfg: BreakerConfig, log: seq<Recording>, m: nat, found: set<nat>)
    requires m < |log| && WithinRate(cfg, log, m)
    requires found <= Matching(log, m + 1, log[m].addr, MessageFlood, log[m].clock.check - cfg.floodWindowMs)
    ensures |found| < cfg.floodThreshold
  {
    var bound := log[m].clock.check - cfg.floodWindowMs;
    SubsetSize(found, Matching(log, m + 1, log[m].addr, MessageFlood, bound));
    CountIsCardinality(log, m + 1, log[m].addr, MessageFlood, bound);
  }

  /** All of them are in the window that ends with the last. */
  lemma {:induction false} FoundMatch(cfg: BreakerConfig, w: World, peer: string, lo: int, m: nat)
    requires WorldInv(cfg, w) && m in ReadIn(w, peer, lo, cfg.floodWindowMs)
    requires forall i :: i in ReadIn(w, peer, lo, cfg.floodWindowMs) ==> i <= m
    ensures ReadIn(w, peer, lo, cfg.floodWindowMs)
         <= Matching(w.log, m + 1, peer, MessageFlood, w.log[m].clock.check - cfg.floodWindowMs)
  {
    forall i | i in ReadIn(w, peer, lo, cfg.floodWindowMs)
      ensures i in Matching(w.log, m + 1, peer, MessageFlood, w.log[m].clock.check - cfg.floodWindowMs)
    {
      assert WithinRate(cfg, w.log, i);
      assert Matches(w.log[i], peer, MessageFlood, w.log[m].clock.check - cfg.floodWindowMs);
    }
  }

  /**
    Every `process` call is such a run: it either leaves counters and connections alone without
    reading, records a violation without reading, or admits and possibly resolves one message.
   */
  lemma {:induction false} ProcessDecomposes(cfg: BreakerConfig, w: World, msg: Message, addr: string, ev: Evaluator,
                                             clock: Clock)
    requires |w.outcomes| == |w.log|
    ensures var (a, r) := Process(cfg, w.agent, msg, addr, ev, clock);
            || (a.connections == w.agent.connections && a.events == w.agent.events && r.state != ReadByAgent)
            || (a.connections
                == WorldStep(cfg, w, RecordViolation(addr, InformationBoundary, clock)).agent.connections &&
                a.events == WorldStep(cfg, w, RecordViolation(addr, InformationBoundary, clock)).agent.events &&
                r.state != ReadByAgent)
            || exists answer ::
                 var w' := WorldStep(cfg, WorldStep(cfg, w, AdmitMessage(msg, addr, clock)),
                                     ResolveMessage(|w.log|, msg, answer));
                 a == w'.agent && |w'.outcomes| == |w.log| + 1 && w'.outcomes[|w.log|] == OutcomeOf(r.state)
  {
    if addr in w.agent.connections && !w.agent.connections[addr].muted && !w.agent.connections[addr].passthrough {
      if CheckMessage(w.agent.connections, msg.body, addr, ev) == Allowed {
        AdmitsAndResolves(cfg, w, msg, addr, ev, clock);
      }
    }
  }

  lemma {:induction false} AdmitsAndResolves(cfg: BreakerConfig, w: World, msg: Message, addr: string, ev: Evaluator,
                                             clock: Clock)
    requires |w.outcomes| == |w.log| && addr in w.agent.connections
    ensures var (a, r) := AfterCheck(cfg, w.agent, msg, addr, ev, clock);
            exists answer ::
              var w' := WorldStep(cfg, WorldStep(cfg, w, AdmitMessage(msg, addr, clock)),
                                  ResolveMessage(|w.log|, msg, answer));
              a == w'.agent && |w'.outcomes| == |w.log| + 1 && w'.outcomes[|w.log|] == OutcomeOf(r.state)
  {
    var (routed, r) := RecordAndRoute(cfg, w.agent, msg, addr, clock);
    var answer := match PolicyOf(routed.connections, addr)
                  case None => Decision(Escalate, "low", NO_POLICY)
                  case Some(policy) =>
                    ev.policy(policy, msg.body, addr, if addr in routed.connections
                              then routed.connections[addr].nickname else "");
    var w1 := WorldStep(cfg, w, AdmitMessage(msg, addr, clock));
    assert w1.agent == routed && w1.outcomes[|w.log|] == OutcomeOf(r.state) && w1.log[|w.log|].addr == addr;
    var w' := WorldStep(cfg, w1, ResolveMessage(|w.log|, msg, answer));
    var (a, r') := AfterCheck(cfg, w.agent, msg, addr, ev, clock);
    assert a == w'.agent && |w'.outcomes| == |w.log| + 1 && w'.outcomes[|w.log|] == OutcomeOf(r'.state);
  }
}
