/**
  The path of one inbound message through the agent: mute and passthrough, permissions,
  circuit breaker, autonomy routing and policy evaluation
  (skill/src/autonomy/enforcement-pipeline.ts, permissions-enforcer.ts, inbound-router.ts).
  The policy evaluator is an arbitrary function that may answer differently on every call
  and may throw.
 */
module Pipeline {
  import opened Common
  import opened ConnectionStores
  import opened CircuitBreakers
  import opened Feed

  datatype Message = Message(id: string, body: string)

  datatype Action = Allow | Deny | Escalate

  datatype Answer = Decision(action: Action, confidence: string, reasoning: string) | Throws

  /** `boundary` takes the number of the call within one permissions check. */
  datatype Evaluator = Evaluator(policy: (string, string, string, string) -> Answer,
                                 boundary: (nat, seq<string>, string) -> Answer)

  const NO_LLM := "No LLM available -- escalating to human"
  const NO_OP := Evaluator((_, _, _, _) => Decision(Escalate, "low", NO_LLM),
                           (_, _, _) => Decision(Escalate, "low", NO_LLM))

  // ---------- permissions ----------

  datatype Enforcement = Allowed | Denied(reason: string, violation: bool, escalate: bool)

  const UNAVAILABLE := "Policy evaluation unavailable -- escalating to human"

  /** What an answer to a boundary question means for the message; Allowed lets the check go on. */
  function Judge(answer: Answer): Enforcement {
    match answer
    case Throws => Denied(UNAVAILABLE, false, true)
    case Decision(action, _, reasoning) =>
      if action == Allow then Allowed else Denied(reasoning, true, action == Escalate)
  }

  function DeniedCategories(cs: seq<CustomCategory>): seq<CustomCategory> {
    if cs == [] then []
    else if cs[0].allowed then DeniedCategories(cs[1..])
    else [cs[0]] + DeniedCategories(cs[1..])
  }

  function CheckCategories(cs: seq<CustomCategory>, call: nat, body: string, ev: Evaluator): Enforcement
    decreases cs
  {
    if cs == [] then Allowed
    else if Judge(ev.boundary(call, [cs[0].description], body)) != Allowed
    then Judge(ev.boundary(call, [cs[0].description], body))
    else CheckCategories(cs[1..], call + 1, body, ev)
  }

  function CheckManifest(m: Manifest, body: string, ev: Evaluator): Enforcement {
    if m.informationBoundaries != [] && Judge(ev.boundary(0, m.informationBoundaries, body)) != Allowed
    then Judge(ev.boundary(0, m.informationBoundaries, body))
    else CheckCategories(DeniedCategories(m.customCategories), 1, body, ev)
  }

  function CheckMessage(m: Connections, body: string, addr: string, ev: Evaluator): Enforcement {
    if addr !in m || m[addr].state != Active then Denied("unknown sender", false, false)
    else CheckManifest(Or(m[addr].permissionsManifest, DEFAULT_MANIFEST), body, ev)
  }

  // ---------- message states and routing ----------

  function UpdateState(messages: map<string, Stored>, id: string, state: MessageState,
                       reason: Option<string>): map<string, Stored> {
    if id in messages then messages[id := Stored(state, reason)] else messages
  }

  function Put(a: Agent, msg: Message, state: MessageState, reason: Option<string>): (Agent, Stored) {
    (a.(messages := UpdateState(a.messages, msg.id, state, reason)), Stored(state, reason))
  }

  const INACTIVE := "Message from unknown or inactive sender"

  function RouteMessage(a: Agent, msg: Message, addr: string): (Agent, Stored) {
    if addr !in a.connections || a.connections[addr].state != Active then Put(a, msg, Failed, Some(INACTIVE))
    else match a.connections[addr].autonomyLevel
      case FullAuto => Put(a, msg, ReadByAgent, None)
      case Notify =>
        Put(a.(feed := a.feed + [Feed.Entry(addr, "message_processed_autonomously", Some(msg.id),
                                            "processed_autonomously", NoDetails, None)]), msg, ReadByAgent, None)
      case AutoRespond => Put(a, msg, PendingPolicyEval, None)
      case _ => Put(a, msg, EscalatedToHuman, None)
  }

  /** The synchronous middle of `process`: no other task runs between recording and routing. */
  function RecordAndRoute(cfg: BreakerConfig, a: Agent, msg: Message, addr: string, clock: Clock): (Agent, Stored) {
    RouteMessage(RecordEvent(cfg, a, addr, MessageFlood, clock), msg, addr)
  }

  function ActionName(a: Action): string {
    match a
    case Allow => "allow"
    case Deny => "deny"
    case Escalate => "escalate"
  }

  function DecisionEntry(addr: string, msg: Message, d: Answer): FeedEvent
    requires d.Decision?
  {
    Feed.Entry(addr, "auto_respond_decision", Some(msg.id), "auto_respond",
               DecisionDetails(ActionName(d.action), d.confidence, d.reasoning), None)
  }

  const EVALUATION_ERROR := "Policy evaluation error -- escalating to human"
  const NO_POLICY := "No auto-respond policy configured -- escalating to human"

  /** A policy answer settles the message; an exception escalates it. */
  function ResolvePolicy(a: Agent, msg: Message, addr: string, answer: Answer): (Agent, Stored) {
    var d := if answer.Throws? then Decision(Escalate, "low", EVALUATION_ERROR) else answer;
    var logged := a.(feed := a.feed + [DecisionEntry(addr, msg, d)]);
    match d.action
    case Allow => Put(logged, msg, ReadByAgent, None)
    case Deny => Put(logged, msg, Failed, Some(d.reasoning))
    case Escalate => Put(logged, msg, EscalatedToHuman, None)
  }

  /** The policy that will be asked, if any: an empty one counts as none. */
  function PolicyOf(m: Connections, addr: string): Option<string> {
    if addr in m && m[addr].autoRespondPolicy.Some? && m[addr].autoRespondPolicy.value != ""
    then m[addr].autoRespondPolicy else None
  }

  function EvaluateAutoRespond(a: Agent, msg: Message, addr: string, ev: Evaluator): (Agent, Stored) {
    match PolicyOf(a.connections, addr)
    case None => ResolvePolicy(a, msg, addr, Decision(Escalate, "low", NO_POLICY))
    case Some(policy) =>
      ResolvePolicy(a, msg, addr, ev.policy(policy, msg.body, addr,
                                            if addr in a.connections then a.connections[addr].nickname else ""))
  }

  function Process(cfg: BreakerConfig, a: Agent, msg: Message, addr: string, ev: Evaluator,
                   clock: Clock): (Agent, Stored) {
    if addr in a.connections && a.connections[addr].muted then
      Put(a.(feed := a.feed + [Feed.Entry(addr, "message_received_muted", Some(msg.id), "muted", NoDetails,
                                          Some("message_receive_muted"))]), msg, Delivered, None)
    else if addr in a.connections && a.connections[addr].passthrough then
      Put(a.(feed := a.feed + [Feed.Entry(addr, "message_during_intervention", Some(msg.id), "intervention", NoDetails,
                                          Some("message_receive_intervention"))]), msg, EscalatedToHuman, None)
    else match CheckMessage(a.connections, msg.body, addr, ev)
      case Denied(reason, violation, escalate) =>
        if escalate then Put(a, msg, EscalatedToHuman, Some(reason))
        else
          var recorded := if violation then RecordEvent(cfg, a, addr, InformationBoundary, clock) else a;
          Put(recorded, msg, Failed, Some(reason))
      case Allowed =>
        AfterCheck(cfg, a, msg, addr, ev, clock)
  }

  // ---------- recording and routing ----------

  /** The level under which the router sees the message, after the breaker has had its say. */
  function LevelAfterRecording(cfg: BreakerConfig, a: Agent, addr: string, clock: Clock): AutonomyLevel
    requires addr in a.connections
  {
    if !IsTripped(a.connections, addr) &&
       FirstExceeded(Checks(cfg), Recorded(cfg, EventsOf(a, addr), MessageFlood, clock), clock.check).Some?
    then FullManual else a.connections[addr].autonomyLevel
  }

  /** Recording changes at most the level, the flag and the activity time of the connection. */
  lemma {:induction false} RecordKeepsConnection(cfg: BreakerConfig, a: Agent, addr: string, kind: TriggerType,
                                                 clock: Clock)
    requires addr in a.connections
    ensures var m, m' := a.connections, RecordEvent(cfg, a, addr, kind, clock).connections;
            && m'.Keys == m.Keys
            && m'[addr] == m[addr].(autonomyLevel := m'[addr].autonomyLevel,
                                    circuitBreakerTripped := m'[addr].circuitBreakerTripped,
                                    lastActivity := m'[addr].lastActivity)
            && (forall b :: b in m && b != addr ==> m'[b] == m[b])
            && (kind == MessageFlood ==> m'[addr].autonomyLevel == LevelAfterRecording(cfg, a, addr, clock))
            && RecordEvent(cfg, a, addr, kind, clock).messages == a.messages
  {
  }

  /** The part of a message's path after the permissions check has let it through. */
  function AfterCheck(cfg: BreakerConfig, a: Agent, msg: Message, addr: string, ev: Evaluator,
                      clock: Clock): (Agent, Stored) {
    var (routed, r) := RecordAndRoute(cfg, a, msg, addr, clock);
    if r.state == PendingPolicyEval then EvaluateAutoRespond(routed, msg, addr, ev) else (routed, r)
  }

  // ---------- the objects ----------

  class MessageStore {
    var messages: map<string, Stored>

    constructor ()
      ensures messages == map[]
    {
      messages := map[];
    }

    method UpdateMessageState(id: string, state: MessageState, reason: Option<string>)
      modifies this
      ensures messages == UpdateState(old(messages), id, state, reason)
    {
      if id in messages {
        messages := messages[id := Stored(state, reason)];
      }
    }
  }

  class PermissionsEnforcer {
    const store: ConnectionStore
    const evaluator: Evaluator

    constructor (store: ConnectionStore, evaluator: Evaluator)
      ensures this.store == store && this.evaluator == evaluator
    {
      this.store, this.evaluator := store, evaluator;
    }

    method Check(body: string, addr: string) returns (r: Enforcement)
      ensures r == CheckMessage(store.connections, body, addr, evaluator)
    {
      if addr !in store.connections || store.connections[addr].state != Active {
        return Denied("unknown sender", false, false);
      }
      var manifest := Or(store.connections[addr].permissionsManifest, DEFAULT_MANIFEST);
      if |manifest.informationBoundaries| > 0 {
        r := Judge(evaluator.boundary(0, manifest.informationBoundaries, body));
        if r != Allowed {
          return;
        }
      }
      var denied := DeniedCategories(manifest.customCategories);
      for i := 0 to |denied|
        invariant CheckCategories(denied[i..], 1 + i, body, evaluator) == CheckCategories(denied, 1, body, evaluator)
      {
        assert denied[i..][1..] == denied[i + 1..];
        r := Judge(evaluator.boundary(1 + i, [denied[i].description], body));
        if r != Allowed {
          return;
        }
      }
      return Allowed;
    }
  }

  class EnforcementPipeline {
    const enforcer: PermissionsEnforcer
    const breaker: CircuitBreaker
    const store: ConnectionStore
    const messages: MessageStore
    const feed: ActivitySink

    constructor (enforcer: PermissionsEnforcer, breaker: CircuitBreaker, messages: MessageStore)
      requires enforcer.store == breaker.store
      ensures Wired() && this.enforcer == enforcer && this.breaker == breaker && this.messages == messages
    {
      this.enforcer, this.breaker, this.messages := enforcer, breaker, messages;
      this.store, this.feed := breaker.store, breaker.feed;
    }

    /** All components share one connection store and one feed. */
    ghost predicate Wired() {
      enforcer.store == store && breaker.store == store && breaker.feed == feed
    }

    ghost function View(): Agent
      reads breaker, store, messages, feed
    {
      Agent(store.connections, breaker.events, messages.messages, feed.entries)
    }

    method Settle(msg: Message, state: MessageState, reason: Option<string>) returns (r: Stored)
      requires Wired()
      modifies messages
      ensures (View(), r) == Put(old(View()), msg, state, reason)
    {
      messages.UpdateMessageState(msg.id, state, reason);
      r := Stored(state, reason);
    }

    /** InboundRouter.route. */
    method Route(msg: Message, addr: string) returns (r: Stored)
      requires Wired()
      modifies messages, feed
      ensures (View(), r) == RouteMessage(old(View()), msg, addr)
    {
      if addr !in store.connections || store.connections[addr].state != Active {
        r := Settle(msg, Failed, Some(INACTIVE));
        return;
      }
      var state: MessageState;
      match store.connections[addr].autonomyLevel {
        case FullAuto => state := ReadByAgent;
        case Notify =>
          state := ReadByAgent;
          feed.Record(Feed.Entry(addr, "message_processed_autonomously", Some(msg.id), "processed_autonomously",
                                 NoDetails, None));
        case AutoRespond => state := PendingPolicyEval;
        case _ => state := EscalatedToHuman;
      }
      r := Settle(msg, state, None);
    }

    method EvaluateAutoRespondPolicy(msg: Message, addr: string) returns (r: Stored)
      requires Wired()
      modifies messages, feed
      ensures (View(), r) == EvaluateAutoRespond(old(View()), msg, addr, enforcer.evaluator)
    {
      var policy := PolicyOf(store.connections, addr);
      var d := Decision(Escalate, "low", NO_POLICY);
      if policy.Some? {
        d := enforcer.evaluator.policy(policy.value, msg.body, addr,
                                       if addr in store.connections then store.connections[addr].nickname else "");
      }
      if d.Throws? {
        d := Decision(Escalate, "low", EVALUATION_ERROR);
      }
      var state, reason := EscalatedToHuman, None;
      if d.action == Allow {
        state := ReadByAgent;
      } else if d.action == Deny {
        state, reason := Failed, Some(d.reasoning);
      }
      r := Settle(msg, state, reason);
      feed.Record(DecisionEntry(addr, msg, d));
    }

    method ProcessMessage(msg: Message, addr: string, clock: Clock) returns (r: Stored)
      requires Wired()
      modifies breaker, store, messages, feed
      ensures (View(), r) == Process(breaker.cfg, old(View()), msg, addr, enforcer.evaluator, clock)
    {
      if addr in store.connections && store.connections[addr].muted {
        feed.Record(Feed.Entry(addr, "message_received_muted", Some(msg.id), "muted", NoDetails,
                               Some("message_receive_muted")));
        r := Settle(msg, Delivered, None);
        return;
      }
      if addr in store.connections && store.connections[addr].passthrough {
        r := Settle(msg, EscalatedToHuman, None);
        feed.Record(Feed.Entry(addr, "message_during_intervention", Some(msg.id), "intervention", NoDetails,
                               Some("message_receive_intervention")));
        return;
      }
      var enforcement := enforcer.Check(msg.body, addr);
      if enforcement.Denied? {
        r := Refuse(msg, addr, enforcement, clock);
        return;
      }
      var threw := breaker.Record(addr, MessageFlood, clock, messages.messages);
      assert !threw;
      r := Route(msg, addr);
      if r.state == PendingPolicyEval {
        r := EvaluateAutoRespondPolicy(msg, addr);
      }
    }

    /** Uncertain denials go to the human; hard ones are recorded and fail. */
    method Refuse(msg: Message, addr: string, e: Enforcement, clock: Clock) returns (r: Stored)
      requires Wired() && e.Denied? && (e.violation ==> addr in store.connections)
      modifies breaker, store, messages, feed
      ensures (View(), r) ==
              if e.escalate then Put(old(View()), msg, EscalatedToHuman, Some(e.reason))
              else Put(if e.violation then RecordEvent(breaker.cfg, old(View()), addr, InformationBoundary, clock)
                       else old(View()),
                       msg, Failed, Some(e.reason))
    {
      if e.escalate {
        r := Settle(msg, EscalatedToHuman, Some(e.reason));
      } else {
        if e.violation {
          var threw := breaker.Record(addr, InformationBoundary, clock, messages.messages);
          assert !threw;
        }
        r := Settle(msg, Failed, Some(e.reason));
      }
    }
  }
}
