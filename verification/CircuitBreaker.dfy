/** Sliding-window anomaly detection (skill/src/autonomy/circuit-breaker.ts). */
module CircuitBreakers {
  import opened Common
  import opened ConnectionStores
  import opened Feed

  /** `InformationBoundary` is the type the permissions enforcer reports; no check looks for it. */
  datatype TriggerType = MessageFlood | PermissionViolation | SpendingExceeded | BoundaryProbe | InformationBoundary

  datatype EventRecord = EventRecord(timestamp: int, kind: TriggerType)

  datatype BreakerConfig = BreakerConfig(
    floodThreshold: int, floodWindowMs: int, violationThreshold: int, violationWindowMs: int,
    boundaryProbeThreshold: int, boundaryProbeWindowMs: int)

  const DEFAULT_CONFIG := BreakerConfig(50, 60_000, 5, 300_000, 3, 600_000)

  /** The three clock reads of one recording: the event's stamp, the pruning and the check. */
  datatype Clock = Clock(stamp: int, prune: int, check: int)

  datatype Check = Check(kind: TriggerType, threshold: int, windowMs: int)

  function Checks(cfg: BreakerConfig): seq<Check> {
    [Check(MessageFlood, cfg.floodThreshold, cfg.floodWindowMs),
     Check(PermissionViolation, cfg.violationThreshold, cfg.violationWindowMs),
     Check(SpendingExceeded, cfg.violationThreshold, cfg.violationWindowMs),
     Check(BoundaryProbe, cfg.boundaryProbeThreshold, cfg.boundaryProbeWindowMs)]
  }

  function LongestWindow(cfg: BreakerConfig): int {
    Max(cfg.floodWindowMs, Max(cfg.violationWindowMs, cfg.boundaryProbeWindowMs))
  }

  /** Events of one kind later than `bound`. */
  function Count(events: seq<EventRecord>, kind: TriggerType, bound: int): nat {
    if events == [] then 0
    else (if events[0].kind == kind && events[0].timestamp > bound then 1 else 0) + Count(events[1..], kind, bound)
  }

  function Prune(events: seq<EventRecord>, cutoff: int): seq<EventRecord> {
    if events == [] then []
    else if events[0].timestamp > cutoff then [events[0]] + Prune(events[1..], cutoff)
    else Prune(events[1..], cutoff)
  }

  /** The first check whose count reaches its threshold. */
  function FirstExceeded(checks: seq<Check>, events: seq<EventRecord>, now: int): Option<Check> {
    if checks == [] then None
    else if Count(events, checks[0].kind, now - checks[0].windowMs) >= checks[0].threshold then Some(checks[0])
    else FirstExceeded(checks[1..], events, now)
  }

  function Recorded(cfg: BreakerConfig, events: seq<EventRecord>, kind: TriggerType, clock: Clock): seq<EventRecord> {
    Prune(events + [EventRecord(clock.stamp, kind)], clock.prune - LongestWindow(cfg))
  }

  function KindName(k: TriggerType): string {
    match k
    case MessageFlood => "message_flood"
    case PermissionViolation => "permission_violation"
    case SpendingExceeded => "spending_exceeded"
    case BoundaryProbe => "boundary_probe"
    case InformationBoundary => "information_boundary"
  }

  // ---------- the agent's state ----------

  datatype MessageState = Sent | Delivered | ReadByAgent | EscalatedToHuman | PendingPolicyEval | Failed

  datatype Stored = Stored(state: MessageState, failureReason: Option<string>)

  datatype Agent = Agent(connections: Connections, events: map<string, seq<EventRecord>>,
                         messages: map<string, Stored>, feed: seq<FeedEvent>)

  function EventsOf(a: Agent, addr: string): seq<EventRecord> {
    Lookup(a.events, addr, [])
  }

  predicate IsTripped(m: Connections, addr: string) {
    addr in m && m[addr].circuitBreakerTripped
  }

  function TripEntry(addr: string, c: Check, count: int): FeedEvent {
    Feed.Entry(addr, "circuit_breaker_tripped", None, "circuit_breaker",
               TripDetails(KindName(c.kind), count, c.threshold, c.windowMs), None)
  }

  /** addEvent followed by checkAndTrip, on a connection that exists. */
  function RecordEvent(cfg: BreakerConfig, a: Agent, addr: string, kind: TriggerType, clock: Clock): Agent {
    var events := Recorded(cfg, EventsOf(a, addr), kind, clock);
    var added := a.(events := a.events[addr := events]);
    var exceeded := FirstExceeded(Checks(cfg), events, clock.check);
    if IsTripped(a.connections, addr) || exceeded.None? || addr !in a.connections then added
    else
      var c := exceeded.value;
      added.(connections := Tripped(a.connections, addr, clock.check),
             feed := a.feed + [TripEntry(addr, c, Count(events, c.kind, clock.check - c.windowMs))])
  }

  // ---------- pruning refines the full history ----------

  lemma {:induction false} PruneConcat(a: seq<EventRecord>, b: seq<EventRecord>, cutoff: int)
    ensures Prune(a + b, cutoff) == Prune(a, cutoff) + Prune(b, cutoff)
  {
    if a == [] {
      assert a + b == b;
    } else {
      PruneConcat(a[1..], b, cutoff);
      assert (a + b)[1..] == a[1..] + b && (a + b)[0] == a[0];
    }
  }

  lemma {:induction false} PruneTwice(events: seq<EventRecord>, c1: int, c2: int)
    requires c1 <= c2
    ensures Prune(Prune(events, c1), c2) == Prune(events, c2)
  {
    if events != [] {
      PruneTwice(events[1..], c1, c2);
      var rest := Prune(events[1..], c1);
      assert ([events[0]] + rest)[1..] == rest;
    }
  }

  /** Counts over a window that starts no earlier than the cutoff do not see the pruning. */
  lemma {:induction false} CountPruned(events: seq<EventRecord>, cutoff: int, kind: TriggerType, bound: int)
    requires cutoff <= bound
    ensures Count(Prune(events, cutoff), kind, bound) == Count(events, kind, bound)
  {
    if events != [] {
      CountPruned(events[1..], cutoff, kind, bound);
      var rest := Prune(events[1..], cutoff);
      assert ([events[0]] + rest)[1..] == rest;
    }
  }

  lemma {:induction false} DecisionPruned(checks: seq<Check>, events: seq<EventRecord>, cutoff: int, now: int)
    requires forall i :: 0 <= i < |checks| ==> cutoff <= now - checks[i].windowMs
    ensures FirstExceeded(checks, Prune(events, cutoff), now) == FirstExceeded(checks, events, now)
  {
    if checks != [] {
      CountPruned(events, cutoff, checks[0].kind, now - checks[0].windowMs);
      DecisionPruned(checks[1..], events, cutoff, now);
    }
  }

  /** One recording keeps the list a pruning of the full history, with a cutoff no window reaches behind. */
  lemma {:induction false} RecordedRefines(cfg: BreakerConfig, events: seq<EventRecord>, history: seq<EventRecord>,
                                           cutoff: int, kind: TriggerType, clock: Clock)
    requires events == Prune(history, cutoff) && cutoff <= clock.prune - LongestWindow(cfg) &&
             clock.prune <= clock.check
    ensures var e := EventRecord(clock.stamp, kind);
            && Recorded(cfg, events, kind, clock) == Prune(history + [e], clock.prune - LongestWindow(cfg))
            && FirstExceeded(Checks(cfg), Recorded(cfg, events, kind, clock), clock.check)
               == FirstExceeded(Checks(cfg), history + [e], clock.check)
  {
    var e, c := EventRecord(clock.stamp, kind), clock.prune - LongestWindow(cfg);
    PruneConcat(events, [e], c);
    PruneTwice(history, cutoff, c);
    PruneConcat(history, [e], c);
    DecisionPruned(Checks(cfg), history + [e], c, clock.check);
  }

  /** One recording of a connection's history. */
  datatype Observation = Observation(kind: TriggerType, clock: Clock)

  function PrunedAfter(cfg: BreakerConfig, obs: seq<Observation>): seq<EventRecord> {
    if obs == [] then []
    else Recorded(cfg, PrunedAfter(cfg, obs[..|obs| - 1]), obs[|obs| - 1].kind, obs[|obs| - 1].clock)
  }

  function FullHistory(obs: seq<Observation>): seq<EventRecord> {
    if obs == [] then []
    else FullHistory(obs[..|obs| - 1]) + [EventRecord(obs[|obs| - 1].clock.stamp, obs[|obs| - 1].kind)]
  }

  /** Each recording reads a clock that never runs backwards. */
  ghost predicate Chronological(obs: seq<Observation>) {
    && (forall i :: 0 <= i < |obs| ==> obs[i].clock.stamp <= obs[i].clock.prune <= obs[i].clock.check)
    && (forall i, j :: 0 <= i < j < |obs| ==> obs[i].clock.check <= obs[j].clock.stamp)
  }

  lemma {:induction false} PrunedIsPruning(cfg: BreakerConfig, obs: seq<Observation>)
    requires Chronological(obs) && obs != []
    ensures PrunedAfter(cfg, obs) == Prune(FullHistory(obs), obs[|obs| - 1].clock.prune - LongestWindow(cfg))
  {
    var init, last := obs[..|obs| - 1], obs[|obs| - 1];
    var c := last.clock.prune - LongestWindow(cfg);
    if init == [] {
      RecordedRefines(cfg, [], [], c, last.kind, last.clock);
    } else {
      PrunedIsPruning(cfg, init);
      RecordedRefines(cfg, PrunedAfter(cfg, init), FullHistory(init),
                      init[|init| - 1].clock.prune - LongestWindow(cfg), last.kind, last.clock);
    }
  }

  /**
    Pruning refines the full history: every trip decision on the pruned list is the decision
    that the complete history would give, for any configuration.
   */
  lemma {:induction false} PruningRefinesHistory(cfg: BreakerConfig, obs: seq<Observation>)
    requires Chronological(obs) && obs != []
    ensures var now := obs[|obs| - 1].clock.check;
            FirstExceeded(Checks(cfg), PrunedAfter(cfg, obs), now) == FirstExceeded(Checks(cfg), FullHistory(obs), now)
  {
    PrunedIsPruning(cfg, obs);
    var clock := obs[|obs| - 1].clock;
    DecisionPruned(Checks(cfg), FullHistory(obs), clock.prune - LongestWindow(cfg), clock.check);
  }

  /** A decision names a check of the configuration that is exceeded; no decision means none is. */
  lemma {:induction false} DecisionMeans(cfg: BreakerConfig, events: seq<EventRecord>, now: int)
    ensures var d := FirstExceeded(Checks(cfg), events, now);
            && (d.Some? ==> d.value in Checks(cfg))
            && (d.Some? ==> Count(events, d.value.kind, now - d.value.windowMs) >= d.value.threshold)
            && (d.None? <==> forall c :: c in Checks(cfg) ==> Count(events, c.kind, now - c.windowMs) < c.threshold)
  {
    FirstExceededMeans(Checks(cfg), events, now);
  }

  lemma {:induction false} FirstExceededMeans(checks: seq<Check>, events: seq<EventRecord>, now: int)
    ensures var d := FirstExceeded(checks, events, now);
            && (d.Some? ==>
                d.value in checks && Count(events, d.value.kind, now - d.value.windowMs) >= d.value.threshold)
            && (d.None? <==> forall c :: c in checks ==> Count(events, c.kind, now - c.windowMs) < c.threshold)
  {
    if checks != [] {
      FirstExceededMeans(checks[1..], events, now);
      assert checks == [checks[0]] + checks[1..];
    }
  }

  /** The four limits of a configuration, by name of the trigger. */
  predicate Limit(cfg: BreakerConfig, kind: TriggerType, threshold: int, windowMs: int) {
    match kind
    case MessageFlood => threshold == cfg.floodThreshold && windowMs == cfg.floodWindowMs
    case PermissionViolation => threshold == cfg.violationThreshold && windowMs == cfg.violationWindowMs
    case SpendingExceeded => threshold == cfg.violationThreshold && windowMs == cfg.violationWindowMs
    case BoundaryProbe => threshold == cfg.boundaryProbeThreshold && windowMs == cfg.boundaryProbeWindowMs
    case InformationBoundary => false
  }

  /** `kind` reached its limit at `now`. */
  ghost predicate Reached(cfg: BreakerConfig, events: seq<EventRecord>, kind: TriggerType, now: int) {
    exists threshold, windowMs :: Limit(cfg, kind, threshold, windowMs) &&
                                  Count(events, kind, now - windowMs) >= threshold
  }

  lemma {:induction false} ChecksAreLimits(cfg: BreakerConfig)
    ensures forall c :: c in Checks(cfg) ==> Limit(cfg, c.kind, c.threshold, c.windowMs)
    ensures forall kind, threshold, windowMs ::
              Limit(cfg, kind, threshold, windowMs) ==> Check(kind, threshold, windowMs) in Checks(cfg)
  {
    forall kind, threshold, windowMs | Limit(cfg, kind, threshold, windowMs)
      ensures Check(kind, threshold, windowMs) in Checks(cfg)
    {
      match kind {
        case MessageFlood => assert Checks(cfg)[0] == Check(kind, threshold, windowMs);
        case PermissionViolation => assert Checks(cfg)[1] == Check(kind, threshold, windowMs);
        case SpendingExceeded => assert Checks(cfg)[2] == Check(kind, threshold, windowMs);
        case BoundaryProbe => assert Checks(cfg)[3] == Check(kind, threshold, windowMs);
      }
    }
  }

  /** The triggers in the order in which they are looked at. */
  predicate LookedAtBefore(k: TriggerType, kind: TriggerType) {
    match kind
    case MessageFlood => false
    case PermissionViolation => k == MessageFlood
    case SpendingExceeded => k == MessageFlood || k == PermissionViolation
    case _ => k != BoundaryProbe && k != InformationBoundary
  }

  /** How a trip shows in the feed: the first trigger that reached its limit, how often, and that limit. */
  ghost predicate TripNote(cfg: BreakerConfig, e: FeedEvent, addr: string, events: seq<EventRecord>, now: int) {
    exists kind, threshold, windowMs ::
      && Limit(cfg, kind, threshold, windowMs) && Count(events, kind, now - windowMs) >= threshold
      && (forall k :: LookedAtBefore(k, kind) ==> !Reached(cfg, events, k, now))
      && e == FeedEvent(addr, "circuit_breaker_tripped", None, Some("circuit_breaker"),
                        TripDetails(match kind
                                    case MessageFlood => "message_flood"
                                    case PermissionViolation => "permission_violation"
                                    case SpendingExceeded => "spending_exceeded"
                                    case BoundaryProbe => "boundary_probe"
                                    case InformationBoundary => "information_boundary",
                                    Count(events, kind, now - windowMs), threshold, windowMs), None, None, None)
  }

  /**
    A recording trips a known, untripped connection exactly when some trigger has reached its limit.
    A trip sets full_manual and the flag and adds one note; nothing else ever changes, and nothing
    at all when it does not trip.
   */
  lemma {:induction false} TripsExactly(cfg: BreakerConfig, a: Agent, addr: string, kind: TriggerType, clock: Clock)
    ensures var a', events := RecordEvent(cfg, a, addr, kind, clock), Recorded(cfg, EventsOf(a, addr), kind, clock);
            && a'.events == a.events[addr := events] && a'.messages == a.messages
            && (if addr in a.connections && !a.connections[addr].circuitBreakerTripped &&
                   (exists k :: Reached(cfg, events, k, clock.check))
                then && a'.connections == a.connections[addr := a.connections[addr].(
                          autonomyLevel := FullManual, circuitBreakerTripped := true, lastActivity := clock.check)]
                     && |a'.feed| == |a.feed| + 1 && a'.feed[..|a.feed|] == a.feed
                     && TripNote(cfg, a'.feed[|a.feed|], addr, events, clock.check)
                else a'.connections == a.connections && a'.feed == a.feed)
  {
    var events := Recorded(cfg, EventsOf(a, addr), kind, clock);
    ReachedIsExceeded(cfg, events, clock.check);
    if addr in a.connections && !a.connections[addr].circuitBreakerTripped &&
       FirstExceeded(Checks(cfg), events, clock.check).Some?
    {
      TripIsNoted(cfg, addr, events, clock.check);
      TrippedRecord(a.connections, addr, clock.check);
    }
  }

  lemma {:induction false} TrippedRecord(m: Connections, addr: string, now: int)
    requires addr in m
    ensures Tripped(m, addr, now)
         == m[addr := m[addr].(autonomyLevel := FullManual, circuitBreakerTripped := true, lastActivity := now)]
  {
  }

  lemma {:induction false} TripIsNoted(cfg: BreakerConfig, addr: string, events: seq<EventRecord>, now: int)
    requires FirstExceeded(Checks(cfg), events, now).Some?
    ensures var c := FirstExceeded(Checks(cfg), events, now).value;
            TripNote(cfg, TripEntry(addr, c, Count(events, c.kind, now - c.windowMs)), addr, events, now)
  {
    var c := FirstExceeded(Checks(cfg), events, now).value;
    ChecksAreLimits(cfg);
    DecisionMeans(cfg, events, now);
    assert Limit(cfg, c.kind, c.threshold, c.windowMs);
    FirstIsFirst(cfg, events, now);
  }

  /** The checks before the one that decides are not exceeded. */
  lemma {:induction false} FirstIsFirst(cfg: BreakerConfig, events: seq<EventRecord>, now: int)
    requires FirstExceeded(Checks(cfg), events, now).Some?
    ensures var c := FirstExceeded(Checks(cfg), events, now).value;
            forall k :: LookedAtBefore(k, c.kind) ==> !Reached(cfg, events, k, now)
  {
    var checks := Checks(cfg);
    var c := FirstExceeded(checks, events, now).value;
    var i := FirstExceededAt(checks, events, now);
    forall k | LookedAtBefore(k, c.kind) ensures !Reached(cfg, events, k, now) {
      match k {
        case MessageFlood => assert !Exceeded(checks[0], events, now);
        case PermissionViolation => assert !Exceeded(checks[1], events, now);
        case SpendingExceeded => assert !Exceeded(checks[2], events, now);
      }
    }
  }

  predicate Exceeded(c: Check, events: seq<EventRecord>, now: int) {
    Count(events, c.kind, now - c.windowMs) >= c.threshold
  }

  lemma {:induction false} FirstExceededAt(checks: seq<Check>, events: seq<EventRecord>, now: int) returns (i: nat)
    requires FirstExceeded(checks, events, now).Some?
    ensures i < |checks| && checks[i] == FirstExceeded(checks, events, now).value
    ensures forall j :: 0 <= j < i ==> !Exceeded(checks[j], events, now)
  {
    if Exceeded(checks[0], events, now) {
      i := 0;
    } else {
      var rest := FirstExceededAt(checks[1..], events, now);
      i := rest + 1;
    }
  }

  lemma {:induction false} ReachedIsExceeded(cfg: BreakerConfig, events: seq<EventRecord>, now: int)
    ensures FirstExceeded(Checks(cfg), events, now).Some? <==> exists k :: Reached(cfg, events, k, now)
  {
    ChecksAreLimits(cfg);
    DecisionMeans(cfg, events, now);
    var d := FirstExceeded(Checks(cfg), events, now);
    if d.Some? {
      assert Limit(cfg, d.value.kind, d.value.threshold, d.value.windowMs);
      assert Reached(cfg, events, d.value.kind, now);
    } else {
      forall k, threshold, windowMs | Limit(cfg, k, threshold, windowMs)
        ensures Count(events, k, now - windowMs) < threshold
      {
        assert Check(k, threshold, windowMs) in Checks(cfg);
      }
    }
  }

  /** The documented defaults: 50 in a minute, 5 in five minutes twice, 3 in ten minutes. */
  lemma {:induction false} DefaultLimits(kind: TriggerType, threshold: int, windowMs: int)
    ensures Limit(DEFAULT_CONFIG, kind, threshold, windowMs) <==>
            (kind, threshold, windowMs) in {(MessageFlood, 50, 60 * 1000), (PermissionViolation, 5, 5 * 60 * 1000),
                                            (SpendingExceeded, 5, 5 * 60 * 1000), (BoundaryProbe, 3, 10 * 60 * 1000)}
  {
  }

  /** Counting and recording, event by event: the newest counts exactly within the window. */
  lemma {:induction false} NewestCounts(obs: seq<Observation>, kind: TriggerType, bound: int)
    requires obs != []
    ensures var last := obs[|obs| - 1];
            Count(FullHistory(obs), kind, bound) == Count(FullHistory(obs[..|obs| - 1]), kind, bound)
              + (if last.kind == kind && last.clock.stamp > bound then 1 else 0)
  {
    var last := obs[|obs| - 1];
    CountSnoc(FullHistory(obs[..|obs| - 1]), EventRecord(last.clock.stamp, last.kind), kind, bound);
  }

  lemma {:induction false} CountSnoc(events: seq<EventRecord>, e: EventRecord, kind: TriggerType, bound: int)
    ensures Count(events + [e], kind, bound) == Count(events, kind, bound)
              + (if e.kind == kind && e.timestamp > bound then 1 else 0)
  {
    if events == [] {
      assert events + [e] == [e] && [e][1..] == [];
    } else {
      CountSnoc(events[1..], e, kind, bound);
      assert (events + [e])[1..] == events[1..] + [e] && (events + [e])[0] == events[0];
    }
  }

  /** Messages only, oldest first. */
  ghost predicate FloodsInOrder(events: seq<EventRecord>) {
    && (forall i :: 0 <= i < |events| ==> events[i].kind == MessageFlood)
    && (forall i, j :: 0 <= i < j < |events| ==> events[i].timestamp <= events[j].timestamp)
  }

  lemma {:induction false} AllCounted(events: seq<EventRecord>, bound: int)
    requires forall i :: 0 <= i < |events| ==> events[i].kind == MessageFlood && events[i].timestamp > bound
    ensures Count(events, MessageFlood, bound) == |events|
  {
    if events != [] {
      AllCounted(events[1..], bound);
    }
  }

  /** At least k messages count exactly when the k-th newest does. */
  lemma {:induction false} CountReaches(events: seq<EventRecord>, bound: int, k: int)
    requires FloodsInOrder(events) && k > 0
    ensures Count(events, MessageFlood, bound) >= k <==> |events| >= k && events[|events| - k].timestamp > bound
  {
    if events != [] {
      if events[0].timestamp > bound {
        AllCounted(events, bound);
      } else {
        CountReaches(events[1..], bound, k);
      }
    }
  }

  lemma {:induction false} FloodsOnly(events: seq<EventRecord>, kind: TriggerType, bound: int)
    requires FloodsInOrder(events) && kind != MessageFlood
    ensures Count(events, kind, bound) == 0
  {
    if events != [] {
      FloodsOnly(events[1..], kind, bound);
    }
  }

  /**
    The window is half-open, for every threshold: messages trip the breaker exactly when the
    floodThreshold-th newest of them is less than one window old.
   */
  lemma {:induction false} WindowIsHalfOpen(cfg: BreakerConfig, events: seq<EventRecord>, now: int)
    requires FloodsInOrder(events) && cfg.floodThreshold > 0
    ensures FirstExceeded(Checks(cfg), events, now) == Some(Checks(cfg)[0]) <==>
            |events| >= cfg.floodThreshold && now - events[|events| - cfg.floodThreshold].timestamp < cfg.floodWindowMs
    ensures cfg.violationThreshold > 0 && cfg.boundaryProbeThreshold > 0 ==>
            FirstExceeded(Checks(cfg), events, now) in {None, Some(Checks(cfg)[0])}
  {
    CountReaches(events, now - cfg.floodWindowMs, cfg.floodThreshold);
    DecisionMeans(cfg, events, now);
    forall kind: TriggerType, bound: int | kind != MessageFlood ensures Count(events, kind, bound) == 0 {
      FloodsOnly(events, kind, bound);
    }
  }

  // ---------- the breaker object ----------

  class ActivitySink {
    var entries: seq<FeedEvent>

    constructor ()
      ensures entries == []
    {
      entries := [];
    }

    method Record(e: FeedEvent)
      modifies this
      ensures entries == old(entries) + [e]
    {
      entries := entries + [e];
    }
  }

  class CircuitBreaker {
    const cfg: BreakerConfig
    const store: ConnectionStore
    const feed: ActivitySink
    var events: map<string, seq<EventRecord>>

    constructor (cfg: BreakerConfig, store: ConnectionStore, feed: ActivitySink)
      ensures this.cfg == cfg && this.store == store && this.feed == feed && events == map[]
    {
      this.cfg, this.store, this.feed := cfg, store, feed;
      events := map[];
    }

    /** The agent's state as far as the breaker sees it. */
    ghost function View(messages: map<string, Stored>): Agent
      reads this, store, feed
    {
      Agent(store.connections, events, messages, feed.entries)
    }

    /**
      recordMessage and recordViolation. Tripping an unknown connection throws; on a known one
      the state changes as RecordEvent says.
     */
    method Record(addr: string, kind: TriggerType, clock: Clock, ghost messages: map<string, Stored>)
      returns (threw: bool)
      modifies this, store, feed
      ensures View(messages) == RecordEvent(cfg, old(View(messages)), addr, kind, clock)
      ensures addr in events
      ensures threw <==> addr !in old(store.connections) && FirstExceeded(Checks(cfg), events[addr], clock.check).Some?
    {
      AddEvent(addr, kind, clock);
      threw := CheckAndTrip(addr, clock);
    }

    method AddEvent(addr: string, kind: TriggerType, clock: Clock)
      modifies this
      ensures events == old(events)[addr := Recorded(cfg, Lookup(old(events), addr, []), kind, clock)]
    {
      if addr !in events {
        events := events[addr := []];
      }
      events := events[addr := events[addr] + [EventRecord(clock.stamp, kind)]];
      var longest := Max(cfg.floodWindowMs, Max(cfg.violationWindowMs, cfg.boundaryProbeWindowMs));
      var pruned := Filtered(events[addr], clock.prune - longest);
      events := events[addr := pruned];
    }

    method CheckAndTrip(addr: string, clock: Clock) returns (threw: bool)
      requires addr in events
      modifies store, feed
      ensures var m, exceeded := old(store.connections), FirstExceeded(Checks(cfg), events[addr], clock.check);
              && (threw <==> addr !in m && exceeded.Some?)
              && (if IsTripped(m, addr) || exceeded.None? || addr !in m
                  then store.connections == m && feed.entries == old(feed.entries)
                  else var c := exceeded.value;
                       && store.connections == Tripped(m, addr, clock.check)
                       && feed.entries == old(feed.entries)
                            + [TripEntry(addr, c, Count(events[addr], c.kind, clock.check - c.windowMs))])
    {
      if addr in store.connections && store.connections[addr].circuitBreakerTripped {
        return false;
      }
      var checks := Checks(cfg);
      for i := 0 to |checks|
        invariant FirstExceeded(checks[i..], events[addr], clock.check)
                  == FirstExceeded(checks, events[addr], clock.check)
        invariant store.connections == old(store.connections) && feed.entries == old(feed.entries)
      {
        assert checks[i..][1..] == checks[i + 1..];
        var check := checks[i];
        var count := Counted(events[addr], check.kind, clock.check - check.windowMs);
        if count >= check.threshold {
          threw := DoTrip(addr, check, count, clock.check);
          return;
        }
      }
      return false;
    }

    /** The downgrade, the flag, and the feed entry, in that order; throws on an unknown connection. */
    method DoTrip(addr: string, check: Check, count: int, now: int) returns (threw: bool)
      modifies store, feed
      ensures threw <==> addr !in old(store.connections)
      ensures store.connections == Tripped(old(store.connections), addr, now)
      ensures feed.entries == old(feed.entries) + (if threw then [] else [TripEntry(addr, check, count)])
    {
      var r := store.UpdateConnection(addr, NOTHING.(autonomyLevel := Some(FullManual)), now);
      if r.Err? {
        return true;
      }
      r := store.UpdateConnection(addr, NOTHING.(circuitBreakerTripped := Some(true)), now);
      feed.Record(TripEntry(addr, check, count));
      return false;
    }
  }

  method Filtered(events: seq<EventRecord>, cutoff: int) returns (kept: seq<EventRecord>)
    ensures kept == Prune(events, cutoff)
  {
    kept := [];
    for i := 0 to |events|
      invariant kept + Prune(events[i..], cutoff) == Prune(events, cutoff)
    {
      assert events[i..][1..] == events[i + 1..];
      if events[i].timestamp > cutoff {
        kept := kept + [events[i]];
      }
    }
  }

  method Counted(events: seq<EventRecord>, kind: TriggerType, bound: int) returns (n: nat)
    ensures n == Count(events, kind, bound)
  {
    n := 0;
    for i := 0 to |events|
      invariant n + Count(events[i..], kind, bound) == Count(events, kind, bound)
    {
      assert events[i..][1..] == events[i + 1..];
      if events[i].kind == kind && events[i].timestamp > bound {
        n := n + 1;
      }
    }
  }
}
