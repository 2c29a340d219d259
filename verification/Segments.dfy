/**
  The outcome of a message whose `process` call is interleaved with other work: the checks of its
  beginning hold at their time, and only the record at routing time decides
  (skill/src/autonomy/enforcement-pipeline.ts).
 */
module Segments {
  import opened Common
  import opened ConnectionStores
  import opened CircuitBreakers
  import opened Pipeline
  import opened RateBound
  import opened RateTight

  /**
    What becomes of a message that passed its checks, decided by the record as it is when the message
    is recorded and routed: its state and its level after flood detection, and nothing else.
   */
  lemma {:induction false} RoutedOutcome(cfg: BreakerConfig, w: World, msg: Message, addr: string, clock: Clock)
    requires |w.outcomes| == |w.log| && addr in w.agent.connections
    ensures var w', c := WorldStep(cfg, w, AdmitMessage(msg, addr, clock)), w.agent.connections[addr];
            var level := LevelAfterRecording(cfg, w.agent, addr, clock);
            && |w'.outcomes| == |w'.log| == |w.log| + 1
            && (w'.outcomes[|w.log|] == Read <==> c.state == Active && (level == FullAuto || level == Notify))
            && (w'.outcomes[|w.log|] == Awaiting <==> c.state == Active && level == AutoRespond)
  {
    RecordKeepsConnection(cfg, w.agent, addr, MessageFlood, clock);
  }

  /** A message that waits for the policy is read exactly if the answer allows it, whatever the record is by then. */
  lemma {:induction false} ResolvedOutcome(cfg: BreakerConfig, w: World, i: nat, msg: Message, answer: Answer)
    requires i < |w.outcomes| == |w.log| && w.outcomes[i] == Awaiting
    ensures var w' := WorldStep(cfg, w, ResolveMessage(i, msg, answer));
            && |w'.outcomes| == |w.outcomes|
            && (w'.outcomes[i] == Read <==> answer.Decision? && answer.action == Allow)
            && (forall j :: 0 <= j < |w.outcomes| && j != i ==> w'.outcomes[j] == w.outcomes[j])
  {
  }

  const MUTE := NOTHING.(muted := Some(true))
  const INTERVENE := NOTHING.(passthrough := Some(true))

  /** The owner mutes a peer, or steps in, while the check of one of its messages is under way. */
  function Meanwhile(msg: Message, peer: string, u: Updates, t: int): seq<AgentEvent> {
    [EditStore(Edit(peer, u), t), AdmitMessage(msg, peer, At(t))]
  }

  lemma {:induction false} RunPair(cfg: BreakerConfig, w: World, e1: AgentEvent, e2: AgentEvent)
    ensures WorldRun(cfg, w, [e1, e2]) == WorldStep(cfg, WorldStep(cfg, w, e1), e2)
    ensures RunFits(cfg, w, [e1, e2]) <==> EventFits(w, e1) && EventFits(WorldStep(cfg, w, e1), e2)
  {
    RunSnoc(cfg, w, [], e1);
    RunSnoc(cfg, w, [] + [e1], e2);
    assert [] + [e1] + [e2] == [e1, e2];
  }

  /** Then the message is read all the same, although one that arrives now is only stored or escalated. */
  lemma {:induction false} EditedMeanwhileStillRead(cfg: BreakerConfig, connections: Connections,
                                                    messages: map<string, Stored>, msg: Message, peer: string,
                                                    u: Updates, t: int, ev: Evaluator)
    requires Ordinary(cfg) && peer in connections && Trusted(connections[peer]) && (u == MUTE || u == INTERVENE)
    ensures var start, events := Start(connections, messages, t), Meanwhile(msg, peer, u, t);
            && RunFits(cfg, start, events) && WorldRun(cfg, start, events).outcomes == [Read]
            && Process(cfg, WorldRun(cfg, start, events).agent, msg, peer, ev, At(t)).1.state
               in {Delivered, EscalatedToHuman}
  {
    var start, e1, e2 := Start(connections, messages, t), EditStore(Edit(peer, u), t), AdmitMessage(msg, peer, At(t));
    var edited := WorldStep(cfg, start, e1);
    RunPair(cfg, start, e1, e2);
    assert [] + [EventRecord(t, MessageFlood)] == [EventRecord(t, MessageFlood)];
    BelowThreshold(cfg, [EventRecord(t, MessageFlood)], t);
    CalmAdmit(cfg, edited, msg, peer, t);
    var w := WorldStep(cfg, edited, e2);
    assert w.agent.connections[peer].muted || w.agent.connections[peer].passthrough;
  }
}
