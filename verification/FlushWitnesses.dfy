/**
  Two runs of the relay after which the agent's countdown is wrong although every message it was
  told of was dealt with: one queued message expires before its reader connects, and one queued
  envelope is itself of type QUEUE_STATUS.
 */
module FlushWitnesses {
  import opened Common
  import opened QueueKeys
  import opened Wire
  import opened MessageQueues
  import opened Identity
  import opened Relay
  import opened RelayInvariant
  import opened RelayStreams
  import opened FlushProtocol
  import opened FlushAgreement

  function AddressOf(cfg: Config, key: PublicKey): string {
    GenerateAddress(cfg.sha, key, cfg.host)
  }

  /** A letter from one agent to another that is offline and connects at a later time. */
  datatype Letter = Letter(sender: PublicKey, reader: PublicKey, body: Body, arrival: int64)

  predicate Sendable(cfg: Config, l: Letter) {
    l.sender != l.reader && 0 <= l.arrival && cfg.maxPerAgent > 0
  }

  function Sealed(cfg: Config, l: Letter): Envelope {
    Envelope(0, AddressOf(cfg, l.reader), l.body)
  }

  function Queued(cfg: Config, l: Letter): Entry {
    Entry(EncodeKey(0, 1), Message(0, AddressOf(cfg, l.sender), Sealed(cfg, l)))
  }

  function Posting(cfg: Config, l: Letter): Event {
    RouteMessage(0, false, Deliver(AddressOf(cfg, l.reader), l.body))
  }

  /** The sender online, nothing else. */
  function SenderOnline(cfg: Config, sender: PublicKey): System {
    var a := AddressOf(cfg, sender);
    System(Hub(map[a := 0], map[0 := ClientState(a, sender, [], false, false, false)], map[], {}, 0, false, false),
           Log(0, map[], {}, {0}, {0}))
  }

  /** The letter queued. */
  function Posted(cfg: Config, l: Letter): System {
    var s, b := SenderOnline(cfg, l.sender), AddressOf(cfg, l.reader);
    System(s.hub.(queues := map[b := Bucket(1, [Queued(cfg, l)])]),
           s.log.(serial := 1, lanes := map[b := EMPTY_LANE.(admitted := [Sealed(cfg, l)])]))
  }

  /** The reader's connection made, not yet registered. */
  function ReaderHere(cfg: Config, l: Letter): System {
    var s, b := Posted(cfg, l), AddressOf(cfg, l.reader);
    System(s.hub.(now := l.arrival, clients := s.hub.clients[1 := ClientState(b, l.reader, [], false, false, false)]),
           s.log.(created := {0, 1}))
  }

  lemma {:induction false} AddressesDiffer(cfg: Config, sender: PublicKey, reader: PublicKey)
    requires sender != reader
    ensures AddressOf(cfg, sender) != AddressOf(cfg, reader) && AddressOf(cfg, reader) != ""
  {
    if AddressOf(cfg, sender) == AddressOf(cfg, reader) {
      GenerateInjective(cfg.sha, sender, cfg.host, reader, cfg.host);
    }
  }

  lemma {:induction false} RunSnoc(cfg: Config, s: System, events: seq<Event>, e: Event)
    ensures Run(cfg, s, events + [e]) == Step(cfg, Run(cfg, s, events), e)
    ensures RunOk(cfg, s, events + [e]) <==> RunOk(cfg, s, events) && EventOk(Run(cfg, s, events), e)
  {
    assert (events + [e])[..|events|] == events;
  }

  lemma {:induction false} GetsOnline(cfg: Config, sender: PublicKey) returns (events: seq<Event>)
    ensures RunOk(cfg, INITIAL, events) && Run(cfg, INITIAL, events) == SenderOnline(cfg, sender)
  {
    RunSnoc(cfg, INITIAL, [], NewClient(0, sender));
    assert [] + [NewClient(0, sender)] == [NewClient(0, sender)];
    RunSnoc(cfg, INITIAL, [NewClient(0, sender)], RegisterClient(0));
    events := [NewClient(0, sender)] + [RegisterClient(0)];
  }

  lemma {:induction false} PostingStep(cfg: Config, l: Letter)
    requires Sendable(cfg, l)
    ensures EventOk(SenderOnline(cfg, l.sender), Posting(cfg, l))
    ensures Step(cfg, SenderOnline(cfg, l.sender), Posting(cfg, l)) == Posted(cfg, l)
  {
    var s, a, b := SenderOnline(cfg, l.sender), AddressOf(cfg, l.sender), AddressOf(cfg, l.reader);
    AddressesDiffer(cfg, l.sender, l.reader);
    assert Dispose(s.hub, cfg.maxPerAgent, a, b) == Disposition.Queued;
    FirstOfQueue(a, Sealed(cfg, l));
    assert EMPTY_LANE.admitted + [Sealed(cfg, l)] == [Sealed(cfg, l)];
  }

  /** The first entry of a queue has sequence number one. */
  lemma {:induction false} FirstOfQueue(sender: string, e: Envelope)
    ensures Enqueued(EMPTY_BUCKET, 0, sender, e) == Bucket(1, [Entry(EncodeKey(0, 1), Message(0, sender, e))])
  {
  }

  lemma {:induction false} PostsLetter(cfg: Config, l: Letter) returns (events: seq<Event>)
    requires Sendable(cfg, l)
    ensures RunOk(cfg, INITIAL, events) && Run(cfg, INITIAL, events) == Posted(cfg, l)
  {
    var online := GetsOnline(cfg, l.sender);
    PostingStep(cfg, l);
    RunSnoc(cfg, INITIAL, online, Posting(cfg, l));
    events := online + [Posting(cfg, l)];
  }

  lemma {:induction false} ArrivalSteps(cfg: Config, l: Letter)
    requires Sendable(cfg, l)
    ensures EventOk(Posted(cfg, l), Tick(l.arrival))
    ensures Step(cfg, Step(cfg, Posted(cfg, l), Tick(l.arrival)), NewClient(1, l.reader)) == ReaderHere(cfg, l)
  {
    var s' := Step(cfg, Step(cfg, Posted(cfg, l), Tick(l.arrival)), NewClient(1, l.reader));
    assert s'.log.created == {0, 1};
  }

  /** The whole run up to the reader's registration. */
  lemma {:induction false} ReaderConnects(cfg: Config, l: Letter) returns (before: seq<Event>)
    requires Sendable(cfg, l)
    ensures RunOk(cfg, INITIAL, before) && Run(cfg, INITIAL, before) == ReaderHere(cfg, l)
  {
    var posted := PostsLetter(cfg, l);
    ArrivalSteps(cfg, l);
    RunSnoc(cfg, INITIAL, posted, Tick(l.arrival));
    RunSnoc(cfg, INITIAL, posted + [Tick(l.arrival)], NewClient(1, l.reader));
    before := posted + [Tick(l.arrival)] + [NewClient(1, l.reader)];
  }

  lemma {:induction false} ReaderFacts(cfg: Config, l: Letter)
    requires Sendable(cfg, l)
    ensures var s, b := ReaderHere(cfg, l), AddressOf(cfg, l.reader);
            && Reconnecting(s, 1) && s.hub.clients[1].address == b && BucketOf(s, b).entries == [Queued(cfg, l)]
            && LiveOf(cfg, s, b) == (if l.arrival <= cfg.ttl then [Queued(cfg, l)] else [])
  {
    AddressesDiffer(cfg, l.sender, l.reader);
    OneLive(Queued(cfg, l), l.arrival, cfg.ttl);
  }

  lemma {:induction false} OneLive(q: Entry, now: int, ttl: int)
    ensures LiveEntries([q], now, ttl) == if Live(q, now, ttl) then [q] else []
  {
    assert [q][1..] == [];
  }

  /** Two turns of the flush loop finish a flush of at most one batch. */
  lemma {:induction false} TwoTurns(cfg: Config, s: System, id: ClientId, a: string) returns (events: seq<Event>)
    requires Flushing(s, id, a) && Sorted(BucketOf(s, a).entries) && |LiveOf(cfg, s, a)| <= FLUSH_BATCH_SIZE
    ensures RunOk(cfg, s, events) && (forall i :: 0 <= i < |events| ==> events[i] == FlushBatch(id))
    ensures id in Run(cfg, s, events).hub.clients && !Run(cfg, s, events).hub.clients[id].flushing
  {
    var e := FlushBatch(id);
    DrainOnce(cfg, s, id, a);
    TurnAgain(cfg, Step(cfg, s, e), id, a);
    RunPair(cfg, s, e, e);
    events := [e, e];
  }

  lemma {:induction false} TurnAgain(cfg: Config, s: System, id: ClientId, a: string)
    requires id in s.hub.clients && s.hub.clients[id].address == a && !s.hub.clients[id].cancelled
    requires Sorted(BucketOf(s, a).entries) && LiveOf(cfg, s, a) == []
    ensures var s' := Step(cfg, s, FlushBatch(id)); id in s'.hub.clients && !s'.hub.clients[id].flushing
  {
    if s.hub.clients[id].flushing {
      DrainOnce(cfg, s, id, a);
    }
  }

  lemma {:induction false} RunPair(cfg: Config, s: System, e1: Event, e2: Event)
    ensures Run(cfg, s, [e1, e2]) == Step(cfg, Step(cfg, s, e1), e2)
    ensures RunOk(cfg, s, [e1, e2]) <==> EventOk(s, e1) && EventOk(Step(cfg, s, e1), e2)
  {
    RunSnoc(cfg, s, [], e1);
    RunSnoc(cfg, s, [] + [e1], e2);
    assert [] + [e1] + [e2] == [e1, e2];
  }

  /** The reader of a letter is told of one message; where its countdown ends is for the letter to say. */
  lemma {:induction false} ReaderCounts(cfg: Config, l: Letter, c: Countdown)
    returns (before: seq<Event>, events: seq<Event>)
    requires Sendable(cfg, l)
    ensures RunOk(cfg, INITIAL, before) && Run(cfg, INITIAL, before) == ReaderHere(cfg, l)
    ensures Reconnecting(ReaderHere(cfg, l), 1) && Flushed(cfg, ReaderHere(cfg, l), 1, events)
    ensures ForeseenCount(cfg, ReaderHere(cfg, l), AddressOf(cfg, l.reader),
                          Counted(cfg, ReaderHere(cfg, l), 1, events, c))
  {
    before := ReaderConnects(cfg, l);
    ReaderFacts(cfg, l);
    events := ShortQueueCounts(cfg, before, ReaderHere(cfg, l), 1, AddressOf(cfg, l.reader), c);
  }

  /** After registering in `s`, these turns of the flush loop finish the flush. */
  ghost predicate Flushed(cfg: Config, s: System, id: ClientId, events: seq<Event>) {
    var s1 := Step(cfg, s, RegisterClient(id));
    && RunOk(cfg, s1, events) && (forall i :: 0 <= i < |events| ==> events[i] == FlushBatch(id))
    && id in Run(cfg, s1, events).hub.clients && !Run(cfg, s1, events).hub.clients[id].flushing
  }

  /** The agent's countdown on what has then been written to its socket or waits for it. */
  ghost function Counted(cfg: Config, s: System, id: ClientId, events: seq<Event>, c: Countdown): Countdown
    requires Flushed(cfg, s, id, events)
  {
    var s1 := Step(cfg, s, RegisterClient(id));
    OnFrames(c, Written(cfg, s1, events, id) + Run(cfg, s1, events).hub.clients[id].buffer)
  }

  /** A queue of at most one batch, flushed in two turns. */
  lemma {:induction false} ShortQueueCounts(cfg: Config, before: seq<Event>, s: System, id: ClientId, a: string,
                                            c: Countdown) returns (events: seq<Event>)
    requires RunOk(cfg, INITIAL, before) && s == Run(cfg, INITIAL, before) && Reconnecting(s, id)
    requires s.hub.clients[id].address == a && |LiveOf(cfg, s, a)| <= FLUSH_BATCH_SIZE
    ensures Flushed(cfg, s, id, events) && ForeseenCount(cfg, s, a, Counted(cfg, s, id, events, c))
  {
    RunInv(cfg, before);
    RunUnsent(cfg, before);
    RegisterAnnounces(cfg, s, id, a);
    events := TwoTurns(cfg, Step(cfg, s, RegisterClient(id)), id, a);
    CountAgreement(cfg, before, id, events, c);
  }

  lemma {:induction false} OneEnvelope(cfg: Config, l: Letter)
    ensures EnvelopesOf([Queued(cfg, l)]) == [Sealed(cfg, l)]
    ensures LastStatus([Sealed(cfg, l)]) == (if l.body.Status? then Some(0) else None)
  {
    assert [Queued(cfg, l)][1..] == [];
    assert [Sealed(cfg, l)][..0] == [];
  }

  /** The letter expired before its reader connected: the flush is over and the countdown stays at one. */
  lemma {:induction false} StuckCountdown(cfg: Config, l: Letter, c: Countdown)
    returns (before: seq<Event>, events: seq<Event>)
    requires Sendable(cfg, l) && l.arrival > cfg.ttl
    ensures RunOk(cfg, INITIAL, before) && Reconnecting(Run(cfg, INITIAL, before), 1)
    ensures Flushed(cfg, Run(cfg, INITIAL, before), 1, events)
    ensures Counted(cfg, Run(cfg, INITIAL, before), 1, events, c).remaining == 1
  {
    before, events := ReaderCounts(cfg, l, c);
    ReaderFacts(cfg, l);
  }

  /**
    The letter is of type QUEUE_STATUS with count n: nothing had expired, nothing was dropped, the
    flush is over, and the countdown stands at n.
   */
  lemma {:induction false} RelayedStatusResets(cfg: Config, l: Letter, c: Countdown)
    returns (before: seq<Event>, events: seq<Event>)
    requires Sendable(cfg, l) && l.arrival <= cfg.ttl && l.body.Status?
    ensures RunOk(cfg, INITIAL, before) && Reconnecting(Run(cfg, INITIAL, before), 1)
    ensures BucketOf(Run(cfg, INITIAL, before), AddressOf(cfg, l.reader)).entries == [Queued(cfg, l)]
    ensures Live(Queued(cfg, l), Run(cfg, INITIAL, before).hub.now, cfg.ttl)
    ensures Flushed(cfg, Run(cfg, INITIAL, before), 1, events)
    ensures Counted(cfg, Run(cfg, INITIAL, before), 1, events, c).remaining == l.body.pending
  {
    before, events := ReaderCounts(cfg, l, c);
    ReaderFacts(cfg, l);
    OneEnvelope(cfg, l);
  }
}
