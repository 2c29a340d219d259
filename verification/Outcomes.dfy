/**
  What becomes of a message, as seen from the record of its sender, the answers of the evaluator and
  the level after flood detection (skill/src/autonomy/enforcement-pipeline.ts,
  permissions-enforcer.ts, inbound-router.ts).
 */
module Outcomes {
  import opened Common
  import opened ConnectionStores
  import opened CircuitBreakers
  import opened Feed
  import opened Pipeline

  // ---------- the permissions check ----------

  ghost predicate Allows(a: Answer) {
    a.Decision? && a.action == Allow
  }

  ghost predicate Refuses(a: Answer) {
    a.Decision? && a.action == Deny
  }

  /** Neither a yes nor a no: the evaluator escalates, or fails. */
  ghost predicate Hesitates(a: Answer) {
    a.Throws? || a.action == Escalate
  }

  /** The categories put to the evaluator: those that are not allowed, in order and as often as they occur. */
  lemma {:induction false} DeniedAre(cs: seq<CustomCategory>, c: CustomCategory)
    ensures IsSubsequence(DeniedCategories(cs), cs)
    ensures multiset(DeniedCategories(cs))[c] == if c.allowed then 0 else multiset(cs)[c]
  {
    if cs != [] {
      DeniedAre(cs[1..], c);
      assert cs == [cs[0]] + cs[1..];
      if cs[0].allowed {
        SkipFirst(DeniedCategories(cs[1..]), cs);
      }
    }
  }

  ghost function CategoryAnswers(cs: seq<CustomCategory>, call: nat, body: string, ev: Evaluator): seq<Answer> {
    seq(|cs|, i requires 0 <= i < |cs| => ev.boundary(call + i, [cs[i].description], body))
  }

  /** All answers about a message, in the order of asking: the boundaries at once, then category by category. */
  ghost function Answers(m: Manifest, body: string, ev: Evaluator): seq<Answer> {
    (if m.informationBoundaries == [] then [] else [ev.boundary(0, m.informationBoundaries, body)])
    + CategoryAnswers(DeniedCategories(m.customCategories), 1, body, ev)
  }

  /** The first answer that is not a yes. */
  ghost function Objection(answers: seq<Answer>): (o: Option<Answer>)
    ensures o.None? <==> forall i :: 0 <= i < |answers| ==> Allows(answers[i])
    ensures o.Some? ==> exists k :: 0 <= k < |answers| && answers[k] == o.value && !Allows(answers[k]) &&
                                    forall i :: 0 <= i < k ==> Allows(answers[i])
  {
    if answers == [] then None
    else if !Allows(answers[0]) then Some(answers[0])
    else
      var o := Objection(answers[1..]);
      assert answers == [answers[0]] + answers[1..];
      o
  }

  lemma {:induction false} ObjectionCons(a: Answer, rest: seq<Answer>)
    ensures Objection([a] + rest) == if Allows(a) then Objection(rest) else Some(a)
  {
    assert ([a] + rest)[1..] == rest;
  }

  /** What an objection makes of the message. */
  ghost predicate VerdictIs(v: Enforcement, objection: Option<Answer>) {
    match objection
    case None => v == Allowed
    case Some(Throws) => v == Denied(UNAVAILABLE, false, true)
    case Some(Decision(action, _, reasoning)) => v == Denied(reasoning, true, action == Escalate)
  }

  lemma {:induction false} CategoriesVerdict(cs: seq<CustomCategory>, call: nat, body: string, ev: Evaluator)
    ensures VerdictIs(CheckCategories(cs, call, body, ev), Objection(CategoryAnswers(cs, call, body, ev)))
    decreases cs
  {
    if cs != [] {
      CategoriesVerdict(cs[1..], call + 1, body, ev);
      AnswersCons(cs, call, body, ev);
      ObjectionCons(ev.boundary(call, [cs[0].description], body), CategoryAnswers(cs[1..], call + 1, body, ev));
    }
  }

  lemma {:induction false} AnswersCons(cs: seq<CustomCategory>, call: nat, body: string, ev: Evaluator)
    requires cs != []
    ensures CategoryAnswers(cs, call, body, ev)
         == [ev.boundary(call, [cs[0].description], body)] + CategoryAnswers(cs[1..], call + 1, body, ev)
  {
    var all, rest := CategoryAnswers(cs, call, body, ev), CategoryAnswers(cs[1..], call + 1, body, ev);
    forall i | 0 <= i < |rest| ensures all[i + 1] == rest[i] {
      assert call + (i + 1) == call + 1 + i && cs[1..][i] == cs[i + 1];
    }
  }

  /** The manifest in force: deny-by-default for a record without one. */
  ghost function ManifestOf(c: Connection): Manifest {
    match c.permissionsManifest
    case Some(m) => m
    case None => Manifest([], [])
  }

  /**
    The check, from the answers alone: an unknown or inactive sender is refused without a question,
    and otherwise the first answer that is not a yes decides. An exception escalates and is no
    violation; a no is a violation; an uncertain answer is both a violation and an escalation.
   */
  lemma {:induction false} CheckDecides(m: Connections, body: string, addr: string, ev: Evaluator)
    ensures var v := CheckMessage(m, body, addr, ev);
            if addr in m && m[addr].state == Active then VerdictIs(v, Objection(Answers(ManifestOf(m[addr]), body, ev)))
            else v == Denied("unknown sender", false, false)
  {
    if addr in m {
      var manifest := ManifestOf(m[addr]);
      var rest := CategoryAnswers(DeniedCategories(manifest.customCategories), 1, body, ev);
      CategoriesVerdict(DeniedCategories(manifest.customCategories), 1, body, ev);
      if manifest.informationBoundaries == [] {
        assert Answers(manifest, body, ev) == rest;
      } else {
        ObjectionCons(ev.boundary(0, manifest.informationBoundaries, body), rest);
      }
    }
  }

  // ---------- the final state ----------

  /** The record of a sender whose messages are checked at all. */
  ghost predicate Checked(a: Agent, addr: string) {
    addr in a.connections && !a.connections[addr].muted && !a.connections[addr].passthrough
  }

  ghost function ObjectionTo(a: Agent, msg: Message, addr: string, ev: Evaluator): Option<Answer>
    requires addr in a.connections
  {
    Objection(Answers(ManifestOf(a.connections[addr]), msg.body, ev))
  }

  /** The answer of the auto-respond policy; none without a policy, and an empty policy is none. */
  ghost function PolicyAnswer(c: Connection, msg: Message, addr: string, ev: Evaluator): Option<Answer> {
    match c.autoRespondPolicy
    case None => None
    case Some(policy) => if policy == "" then None else Some(ev.policy(policy, msg.body, addr, c.nickname))
  }

  ghost predicate RoutedToAgent(level: AutonomyLevel, policy: Option<Answer>) {
    level == FullAuto || level == Notify || (level == AutoRespond && policy.Some? && Allows(policy.value))
  }

  ghost predicate RoutedToHuman(level: AutonomyLevel, policy: Option<Answer>) {
    level == FullManual || level == Unrecognized || (level == AutoRespond && (policy.None? || Hesitates(policy.value)))
  }

  /** Read on the agent's own authority. */
  ghost predicate Reads(cfg: BreakerConfig, a: Agent, msg: Message, addr: string, ev: Evaluator, clock: Clock) {
    && Checked(a, addr) && a.connections[addr].state == Active && ObjectionTo(a, msg, addr, ev).None?
    && RoutedToAgent(LevelAfterRecording(cfg, a, addr, clock), PolicyAnswer(a.connections[addr], msg, addr, ev))
  }

  /** Left to the human. */
  ghost predicate Escalates(cfg: BreakerConfig, a: Agent, msg: Message, addr: string, ev: Evaluator, clock: Clock) {
    && addr in a.connections && !a.connections[addr].muted
    && (|| a.connections[addr].passthrough
        || (&& a.connections[addr].state == Active
            && match ObjectionTo(a, msg, addr, ev)
               case Some(objection) => Hesitates(objection)
               case None => RoutedToHuman(LevelAfterRecording(cfg, a, addr, clock),
                                          PolicyAnswer(a.connections[addr], msg, addr, ev))))
  }

  /** Refused for good. */
  ghost predicate Fails(cfg: BreakerConfig, a: Agent, msg: Message, addr: string, ev: Evaluator, clock: Clock) {
    || addr !in a.connections
    || (&& Checked(a, addr)
        && (|| a.connections[addr].state != Active
            || match ObjectionTo(a, msg, addr, ev)
               case Some(objection) => Refuses(objection)
               case None =>
                 && LevelAfterRecording(cfg, a, addr, clock) == AutoRespond
                 && var policy := PolicyAnswer(a.connections[addr], msg, addr, ev);
                    policy.Some? && Refuses(policy.value)))
  }

  /** Why, where the message carries a reason. */
  ghost function Reason(a: Agent, msg: Message, addr: string, ev: Evaluator): Option<string> {
    if addr !in a.connections then Some("unknown sender")
    else if !Checked(a, addr) then None
    else if a.connections[addr].state != Active then Some("unknown sender")
    else match ObjectionTo(a, msg, addr, ev)
      case Some(Throws) => Some("Policy evaluation unavailable -- escalating to human")
      case Some(Decision(_, _, reasoning)) => Some(reasoning)
      case None => None
  }

  /**
    For every message, record and evaluator: the stored state is the returned one and no other
    message changes, and which of the four final states it is, each exactly when.
   */
  lemma {:induction false} ProcessOutcome(cfg: BreakerConfig, a: Agent, msg: Message, addr: string, ev: Evaluator,
                                          clock: Clock)
    ensures var (a', r) := Process(cfg, a, msg, addr, ev, clock);
            && a'.messages == (if msg.id in a.messages then a.messages[msg.id := r] else a.messages)
            && (r.state == Delivered <==> addr in a.connections && a.connections[addr].muted)
            && (r.state == ReadByAgent <==> Reads(cfg, a, msg, addr, ev, clock))
            && (r.state == EscalatedToHuman <==> Escalates(cfg, a, msg, addr, ev, clock))
            && (r.state == Failed <==> Fails(cfg, a, msg, addr, ev, clock))
  {
    CheckDecides(a.connections, msg.body, addr, ev);
    if Checked(a, addr) && a.connections[addr].state == Active {
      if ObjectionTo(a, msg, addr, ev).None? {
        AllowedOutcome(cfg, a, msg, addr, ev, clock);
      } else {
        RecordKeepsConnection(cfg, a, addr, InformationBoundary, clock);
      }
    }
  }

  lemma {:induction false} AllowedOutcome(cfg: BreakerConfig, a: Agent, msg: Message, addr: string, ev: Evaluator,
                                          clock: Clock)
    requires addr in a.connections && a.connections[addr].state == Active
    ensures var (a', r) := AfterCheck(cfg, a, msg, addr, ev, clock);
            var level := LevelAfterRecording(cfg, a, addr, clock);
            var policy := PolicyAnswer(a.connections[addr], msg, addr, ev);
            && a'.messages == UpdateState(a.messages, msg.id, r.state, r.failureReason)
            && r.state in {EscalatedToHuman, Failed, ReadByAgent}
            && (r.state == ReadByAgent <==> RoutedToAgent(level, policy))
            && (r.state == EscalatedToHuman <==> RoutedToHuman(level, policy))
            && r.failureReason == (if r.state == Failed && policy.Some? && policy.value.Decision?
                                   then Some(policy.value.reasoning) else None)
  {
    RecordKeepsConnection(cfg, a, addr, MessageFlood, clock);
    var recorded := RecordEvent(cfg, a, addr, MessageFlood, clock);
    RoutedOutcome(recorded, msg, addr, ev);
    var c, c' := a.connections[addr], recorded.connections[addr];
    assert c'.autoRespondPolicy == c.autoRespondPolicy && c'.nickname == c.nickname;
  }

  /** Routing and, for auto_respond, the policy: from the record as it then is. */
  lemma {:induction false} RoutedOutcome(a: Agent, msg: Message, addr: string, ev: Evaluator)
    requires addr in a.connections && a.connections[addr].state == Active
    ensures var (routed, s) := RouteMessage(a, msg, addr);
            var (a', r) := if s.state == PendingPolicyEval
                           then EvaluateAutoRespond(routed, msg, addr, ev) else (routed, s);
            var level, policy := a.connections[addr].autonomyLevel, PolicyAnswer(a.connections[addr], msg, addr, ev);
            && a'.messages == UpdateState(a.messages, msg.id, r.state, r.failureReason)
            && r.state in {EscalatedToHuman, Failed, ReadByAgent}
            && (r.state == ReadByAgent <==> RoutedToAgent(level, policy))
            && (r.state == EscalatedToHuman <==> RoutedToHuman(level, policy))
            && r.failureReason == (if r.state == Failed && policy.Some? && policy.value.Decision?
                                   then Some(policy.value.reasoning) else None)
  {
    if a.connections[addr].autonomyLevel == AutoRespond {
      PolicyOutcome(RouteMessage(a, msg, addr).0, msg, addr, ev);
    }
  }

  /** A sender that is no longer active when its message is routed: refused, and nothing noted. */
  lemma {:induction false} InactiveOutcome(a: Agent, msg: Message, addr: string)
    requires addr !in a.connections || a.connections[addr].state != Active
    ensures var (a', r) := RouteMessage(a, msg, addr);
            && r == Stored(Failed, Some("Message from unknown or inactive sender"))
            && a' == a.(messages := UpdateState(a.messages, msg.id, r.state, r.failureReason))
  {
  }

  lemma {:induction false} PolicyOutcome(a: Agent, msg: Message, addr: string, ev: Evaluator)
    requires addr in a.connections
    ensures var (a', r) := EvaluateAutoRespond(a, msg, addr, ev);
            var policy := PolicyAnswer(a.connections[addr], msg, addr, ev);
            && a'.messages == UpdateState(a.messages, msg.id, r.state, r.failureReason)
            && r.state in {EscalatedToHuman, Failed, ReadByAgent}
            && (r.state == ReadByAgent <==> policy.Some? && Allows(policy.value))
            && (r.state == EscalatedToHuman <==> policy.None? || Hesitates(policy.value))
            && r.failureReason == (if r.state == Failed && policy.Some? && policy.value.Decision?
                                   then Some(policy.value.reasoning) else None)
  {
  }

  /** The reason given: the objection's own, or that of a policy that said no; none otherwise. */
  lemma {:induction false} ProcessReason(cfg: BreakerConfig, a: Agent, msg: Message, addr: string, ev: Evaluator,
                                         clock: Clock)
    ensures var r := Process(cfg, a, msg, addr, ev, clock).1;
            if r.state == Failed && Reason(a, msg, addr, ev).None?
            then addr in a.connections && var policy := PolicyAnswer(a.connections[addr], msg, addr, ev);
                 policy.Some? && policy.value.Decision? && r.failureReason == Some(policy.value.reasoning)
            else r.failureReason == Reason(a, msg, addr, ev)
  {
    ProcessOutcome(cfg, a, msg, addr, ev, clock);
    CheckDecides(a.connections, msg.body, addr, ev);
    if Checked(a, addr) && a.connections[addr].state == Active && ObjectionTo(a, msg, addr, ev).None? {
      AllowedOutcome(cfg, a, msg, addr, ev, clock);
    }
  }

  // ---------- what it leaves behind ----------

  /** The kind of event that the message adds to its sender's counters, if any. */
  ghost function Counted(a: Agent, msg: Message, addr: string, ev: Evaluator): Option<TriggerType> {
    if !Checked(a, addr) || a.connections[addr].state != Active then None
    else match ObjectionTo(a, msg, addr, ev)
      case None => Some(MessageFlood)
      case Some(objection) => if Refuses(objection) then Some(InformationBoundary) else None
  }

  /**
    One event is counted for a message that passes its checks and one for a hard denial; nothing is
    counted, and no connection changes, for any other message.
   */
  lemma {:induction false} ProcessCounts(cfg: BreakerConfig, a: Agent, msg: Message, addr: string, ev: Evaluator,
                                         clock: Clock)
    ensures var a' := Process(cfg, a, msg, addr, ev, clock).0;
            match Counted(a, msg, addr, ev)
            case None => a'.events == a.events && a'.connections == a.connections
            case Some(kind) =>
              && a'.events == a.events[addr := Recorded(cfg, EventsOf(a, addr), kind, clock)]
              && a'.connections == RecordEvent(cfg, a, addr, kind, clock).connections
  {
    if Checked(a, addr) && a.connections[addr].state == Active {
      if ObjectionTo(a, msg, addr, ev).Some? {
        ObjectionCounts(cfg, a, msg, addr, ev, clock);
      } else {
        CheckDecides(a.connections, msg.body, addr, ev);
        RoutingCountsNothing(cfg, a, msg, addr, ev, clock);
      }
    } else {
      CheckDecides(a.connections, msg.body, addr, ev);
    }
  }

  lemma {:induction false} ObjectionCounts(cfg: BreakerConfig, a: Agent, msg: Message, addr: string, ev: Evaluator,
                                           clock: Clock)
    requires Checked(a, addr) && a.connections[addr].state == Active && ObjectionTo(a, msg, addr, ev).Some?
    ensures var a' := Process(cfg, a, msg, addr, ev, clock).0;
            var recorded := if Refuses(ObjectionTo(a, msg, addr, ev).value)
                            then RecordEvent(cfg, a, addr, InformationBoundary, clock) else a;
            a'.events == recorded.events && a'.connections == recorded.connections
  {
    CheckDecides(a.connections, msg.body, addr, ev);
  }

  lemma {:induction false} RoutingCountsNothing(cfg: BreakerConfig, a: Agent, msg: Message, addr: string, ev: Evaluator,
                                                clock: Clock)
    ensures var a' := AfterCheck(cfg, a, msg, addr, ev, clock).0;
            var recorded := RecordEvent(cfg, a, addr, MessageFlood, clock);
            a'.events == recorded.events && a'.connections == recorded.connections
  {
    var recorded := RecordEvent(cfg, a, addr, MessageFlood, clock);
    RouteCountsNothing(recorded, msg, addr);
    PolicyCountsNothing(RouteMessage(recorded, msg, addr).0, msg, addr, ev);
  }

  lemma {:induction false} RouteCountsNothing(a: Agent, msg: Message, addr: string)
    ensures var a' := RouteMessage(a, msg, addr).0; a'.events == a.events && a'.connections == a.connections
  {
  }

  lemma {:induction false} PolicyCountsNothing(a: Agent, msg: Message, addr: string, ev: Evaluator)
    ensures var a' := EvaluateAutoRespond(a, msg, addr, ev).0; a'.events == a.events && a'.connections == a.connections
  {
  }

  /** The feed entries of a message besides a trip, in words of the feed. */
  ghost function Noted(cfg: BreakerConfig, a: Agent, msg: Message, addr: string, ev: Evaluator,
                       clock: Clock): seq<FeedEvent> {
    if addr !in a.connections then []
    else if a.connections[addr].muted then
      [FeedEvent(addr, "message_received_muted", Some(msg.id), Some("muted"), NoDetails, None,
                 Some("message_receive_muted"), None)]
    else if a.connections[addr].passthrough then
      [FeedEvent(addr, "message_during_intervention", Some(msg.id), Some("intervention"), NoDetails, None,
                 Some("message_receive_intervention"), None)]
    else if a.connections[addr].state != Active || ObjectionTo(a, msg, addr, ev).Some? then []
    else match LevelAfterRecording(cfg, a, addr, clock)
      case Notify =>
        [FeedEvent(addr, "message_processed_autonomously", Some(msg.id), Some("processed_autonomously"), NoDetails,
                   None, None, None)]
      case AutoRespond =>
        [FeedEvent(addr, "auto_respond_decision", Some(msg.id), Some("auto_respond"),
                   PolicyNote(PolicyAnswer(a.connections[addr], msg, addr, ev)), None, None, None)]
      case _ => []
  }

  /** What the feed says of a policy evaluation: every outcome is noted, failures as low-confidence escalations. */
  ghost function PolicyNote(answer: Option<Answer>): Details {
    match answer
    case None => DecisionDetails("escalate", "low", "No auto-respond policy configured -- escalating to human")
    case Some(Throws) => DecisionDetails("escalate", "low", "Policy evaluation error -- escalating to human")
    case Some(Decision(Allow, confidence, reasoning)) => DecisionDetails("allow", confidence, reasoning)
    case Some(Decision(Deny, confidence, reasoning)) => DecisionDetails("deny", confidence, reasoning)
    case Some(Decision(Escalate, confidence, reasoning)) => DecisionDetails("escalate", confidence, reasoning)
  }

  /** The feed after a message: the entry of a trip if it caused one, then at most one entry about the message. */
  lemma {:induction false} ProcessNotes(cfg: BreakerConfig, a: Agent, msg: Message, addr: string, ev: Evaluator,
                                        clock: Clock)
    ensures var a' := Process(cfg, a, msg, addr, ev, clock).0;
            var trip := match Counted(a, msg, addr, ev)
                        case None => []
                        case Some(kind) => RecordEvent(cfg, a, addr, kind, clock).feed[|a.feed|..];
            && a'.feed == a.feed + trip + Noted(cfg, a, msg, addr, ev, clock)
            && (trip != [] <==> !IsTripped(a.connections, addr) && IsTripped(a'.connections, addr))
  {
    CheckDecides(a.connections, msg.body, addr, ev);
    ProcessCounts(cfg, a, msg, addr, ev, clock);
    match Counted(a, msg, addr, ev) {
      case None =>
        assert a.feed + [] == a.feed;
      case Some(kind) =>
        RecordKeepsConnection(cfg, a, addr, kind, clock);
        TripNoted(cfg, a, addr, kind, clock);
        if kind == MessageFlood {
          RouteNotes(cfg, a, msg, addr, ev, clock);
        }
    }
  }

  lemma {:induction false} TripNoted(cfg: BreakerConfig, a: Agent, addr: string, kind: TriggerType, clock: Clock)
    requires addr in a.connections
    ensures var a' := RecordEvent(cfg, a, addr, kind, clock);
            && a.feed <= a'.feed && |a'.feed| <= |a.feed| + 1 && a'.feed == a.feed + a'.feed[|a.feed|..]
            && (a'.feed != a.feed <==> !IsTripped(a.connections, addr) && IsTripped(a'.connections, addr))
  {
  }

  lemma {:induction false} RouteNotes(cfg: BreakerConfig, a: Agent, msg: Message, addr: string, ev: Evaluator,
                                      clock: Clock)
    requires Checked(a, addr) && a.connections[addr].state == Active && ObjectionTo(a, msg, addr, ev).None?
    ensures AfterCheck(cfg, a, msg, addr, ev, clock).0.feed
         == RecordEvent(cfg, a, addr, MessageFlood, clock).feed + Noted(cfg, a, msg, addr, ev, clock)
  {
    RecordKeepsConnection(cfg, a, addr, MessageFlood, clock);
    var recorded := RecordEvent(cfg, a, addr, MessageFlood, clock);
    assert PolicyOf(recorded.connections, addr) == PolicyOf(a.connections, addr);
  }

  // ---------- consequences ----------

  /** Without a language model, an auto_respond sender is never read on the agent's own authority. */
  lemma {:induction false} NoOpNeverAutoResponds(cfg: BreakerConfig, a: Agent, msg: Message, addr: string, clock: Clock)
    requires addr in a.connections && a.connections[addr].autonomyLevel == AutoRespond
    ensures Process(cfg, a, msg, addr, NO_OP, clock).1.state != ReadByAgent
  {
    ProcessOutcome(cfg, a, msg, addr, NO_OP, clock);
  }

  /** Nor does anything pass a boundary or a denied category then: it all goes to the human, uncounted. */
  lemma {:induction false} NoOpEscalates(cfg: BreakerConfig, a: Agent, msg: Message, addr: string, clock: Clock)
    requires Checked(a, addr) && a.connections[addr].state == Active
    requires Answers(ManifestOf(a.connections[addr]), msg.body, NO_OP) != []
    ensures var (a', r) := Process(cfg, a, msg, addr, NO_OP, clock);
            r.state == EscalatedToHuman && a'.events == a.events && a'.connections == a.connections
  {
    ProcessOutcome(cfg, a, msg, addr, NO_OP, clock);
    ProcessCounts(cfg, a, msg, addr, NO_OP, clock);
    assert !Allows(Answers(ManifestOf(a.connections[addr]), msg.body, NO_OP)[0]);
  }

  /** A muted sender, or one in passthrough, feeds no counter and cannot trip the breaker. */
  lemma {:induction false} MutedIsInert(cfg: BreakerConfig, a: Agent, msg: Message, addr: string, ev: Evaluator,
                                        clock: Clock)
    requires addr in a.connections && (a.connections[addr].muted || a.connections[addr].passthrough)
    ensures var (a', r) := Process(cfg, a, msg, addr, ev, clock);
            && a'.events == a.events && a'.connections == a.connections && |a'.feed| == |a.feed| + 1
            && r.state == (if a.connections[addr].muted then Delivered else EscalatedToHuman)
  {
    ProcessNotes(cfg, a, msg, addr, ev, clock);
    ProcessCounts(cfg, a, msg, addr, ev, clock);
  }
}
