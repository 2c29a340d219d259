/**
  The reconnect flush from registration to the agent: in every reachable state a registration
  announces the queue length, and the agent's countdown follows the very frames that leave the
  client's buffer (relay/internal/hub/hub.go, skill/src/message-manager.ts).
 */
module FlushAgreement {
  import opened Common
  import opened QueueKeys
  import opened Wire
  import opened MessageQueues
  import opened Identity
  import opened Relay
  import opened Lanes
  import opened RelayInvariant
  import opened RelayTheorems
  import opened RelayStreams
  import opened FlushProtocol

  // ---------- a client that never registered has received nothing ----------

  ghost predicate Unsent(s: System) {
    forall id :: id in s.hub.clients && id !in s.log.registered ==> s.hub.clients[id].buffer == []
  }

  /** Nothing is sent to a client outside the table. */
  lemma {:induction false} RouteSpares(s: System, max: int, id: ClientId, limited: bool, request: Request,
                                       other: ClientId)
    requires TableOk(s) && IsLive(s.hub, id) && other in s.hub.clients && !IsLive(s.hub, other)
    ensures var h := Route(s.hub, max, id, limited, request, s.log.serial);
            other in h.clients && h.clients[other].buffer == s.hub.clients[other].buffer
  {
    if !limited && request.Deliver? && request.to in s.hub.table {
      assert EntryLive(s.hub, request.to);
    }
  }

  lemma {:induction false} StepSpares(cfg: Config, s: System, e: Event, i: ClientId)
    requires TableOk(s) && i in s.hub.clients && s.hub.clients[i].buffer == []
    requires !IsLive(s.hub, i) && !s.hub.clients[i].flushing && !e.RegisterClient? && !e.NewClient?
    ensures i in Step(cfg, s, e).hub.clients ==> Step(cfg, s, e).hub.clients[i].buffer == []
  {
    if e.RouteMessage? && IsLive(s.hub, e.id) {
      RouteSpares(s, cfg.maxPerAgent, e.id, e.limited, e.request, i);
    }
  }

  lemma {:induction false} RegisteredGrows(cfg: Config, s: System, e: Event)
    ensures s.log.registered <= Step(cfg, s, e).log.registered
  {
  }

  lemma {:induction false} StepUnsent(cfg: Config, s: System, e: Event)
    requires TableOk(s) && Unsent(s)
    ensures Unsent(Step(cfg, s, e))
  {
    if e.RegisterClient? {
      if !s.hub.stopped && e.id in s.hub.clients {
        forall i | i != e.id ensures i in Register(s.hub, e.id).clients ==>
                                       i in s.hub.clients && Register(s.hub, e.id).clients[i] == s.hub.clients[i] {
          RegisterSpares(s.hub, e.id, i);
        }
      }
    } else if !e.NewClient? {
      OtherUnsent(cfg, s, e);
    }
  }

  lemma {:induction false} OtherUnsent(cfg: Config, s: System, e: Event)
    requires TableOk(s) && Unsent(s) && !e.RegisterClient? && !e.NewClient?
    ensures Unsent(Step(cfg, s, e))
  {
    RegisteredGrows(cfg, s, e);
    StepKeepsIdentities(cfg, s, e);
    var s' := Step(cfg, s, e);
    forall i | i in s'.hub.clients && i !in s'.log.registered ensures s'.hub.clients[i].buffer == [] {
      assert i in s.hub.clients && ClientOk(s, i);
      StepSpares(cfg, s, e, i);
    }
  }

  lemma {:induction false} RunUnsent(cfg: Config, events: seq<Event>)
    requires RunOk(cfg, INITIAL, events)
    ensures Unsent(Run(cfg, INITIAL, events))
  {
    if events != [] {
      var before := events[..|events| - 1];
      RunUnsent(cfg, before);
      RunInv(cfg, before);
      StepUnsent(cfg, Run(cfg, INITIAL, before), events[|events| - 1]);
    }
  }

  // ---------- what the agent receives ----------

  /** The envelopes placed in the recipient's buffers since `s`. */
  function PlacedSince(s: System, end: System, a: string): seq<Envelope>
    requires |LaneOf(s, a).placed| <= |LaneOf(end, a).placed|
  {
    LaneOf(end, a).placed[|LaneOf(s, a).placed|..]
  }

  ghost predicate Followed(cfg: Config, s: System, id: ClientId, a: string) {
    Inv(cfg, s) && Attended(cfg, s, id, a)
  }

  /** One undisturbed step, on the frames: what is placed goes to the end of the buffer. */
  lemma {:induction false} StepStreams(cfg: Config, s: System, e: Event, id: ClientId, a: string)
    requires Followed(cfg, s, id, a) && EventOk(s, e) && Undisturbed(e, id)
    ensures var s' := Step(cfg, s, e);
            && Followed(cfg, s', id, a) && Progress(s, s', a)
            && Out(s.hub, e, id) + s'.hub.clients[id].buffer
               == s.hub.clients[id].buffer + Frames(PlacedSince(s, s', a))
  {
    UndisturbedStep(cfg, s, e, id, a);
    StepInv(cfg, s, e);
    if e.FlushBatch? && s.hub.clients[id].flushing {
      FlushStreams(cfg, s, id, a);
    } else {
      QuietStreams(cfg, s, e, id, a);
    }
  }

  lemma {:induction false} QuietStreams(cfg: Config, s: System, e: Event, id: ClientId, a: string)
    requires Undisturbed(e, id) && id in s.hub.clients && !(e.FlushBatch? && s.hub.clients[id].flushing)
    ensures var s' := Step(cfg, s, e);
            && LaneOf(s', a) == LaneOf(s, a) && id in s'.hub.clients
            && Out(s.hub, e, id) + s'.hub.clients[id].buffer
               == s.hub.clients[id].buffer + Frames(PlacedSince(s, s', a))
  {
    assert PlacedSince(s, Step(cfg, s, e), a) == [];
    assert [] + s.hub.clients[id].buffer == s.hub.clients[id].buffer == s.hub.clients[id].buffer + [];
    if e.WriteFrame? && e.id in s.hub.clients {
      WriteTakes(s.hub, e.id, id);
    }
  }

  lemma {:induction false} FlushStreams(cfg: Config, s: System, id: ClientId, a: string)
    requires Followed(cfg, s, id, a) && s.hub.clients[id].flushing
    requires Progress(s, Step(cfg, s, FlushBatch(id)), a)
    ensures var s' := Step(cfg, s, FlushBatch(id));
            id in s'.hub.clients &&
            s'.hub.clients[id].buffer == s.hub.clients[id].buffer + Frames(PlacedSince(s, s', a))
  {
    assert ClientOk(s, id);
    FlushFillsBuffer(cfg, s, id);
    DrainOnce(cfg, s, id, a);
  }

  /** Over an undisturbed run, written and buffered frames are the old buffer and what was placed. */
  lemma {:induction false} RunStreams(cfg: Config, s: System, events: seq<Event>, id: ClientId, a: string)
    requires Followed(cfg, s, id, a) && RunOk(cfg, s, events)
    requires forall i :: 0 <= i < |events| ==> Undisturbed(events[i], id)
    ensures var end := Run(cfg, s, events);
            && Followed(cfg, end, id, a) && Progress(s, end, a)
            && Written(cfg, s, events, id) + end.hub.clients[id].buffer
               == s.hub.clients[id].buffer + Frames(PlacedSince(s, end, a))
  {
    if events == [] {
      assert PlacedSince(s, s, a) == [];
    } else {
      var before, last := events[..|events| - 1], events[|events| - 1];
      var mid := Run(cfg, s, before);
      RunStreams(cfg, s, before, id, a);
      StepStreams(cfg, mid, last, id, a);
      var end := Step(cfg, mid, last);
      JoinPlaced(s, mid, end, a);
      JoinFrames(s.hub.clients[id].buffer, Written(cfg, s, before, id), mid.hub.clients[id].buffer,
                 Out(mid.hub, last, id), end.hub.clients[id].buffer, PlacedSince(s, mid, a), PlacedSince(mid, end, a));
    }
  }

  lemma {:induction false} JoinPlaced(s: System, mid: System, end: System, a: string)
    requires Progress(s, mid, a) && Progress(mid, end, a)
    ensures Progress(s, end, a) && PlacedSince(s, end, a) == PlacedSince(s, mid, a) + PlacedSince(mid, end, a)
  {
  }

  lemma {:induction false} JoinFrames(start: seq<Frame>, w1: seq<Frame>, b1: seq<Frame>, w2: seq<Frame>, b2: seq<Frame>,
                                      p1: seq<Envelope>, p2: seq<Envelope>)
    requires w1 + b1 == start + Frames(p1) && w2 + b2 == b1 + Frames(p2)
    ensures (w1 + w2) + b2 == start + Frames(p1 + p2)
  {
    var f1, f2 := Frames(p1), Frames(p2);
    FramesConcat(p1, p2);
    assert (w1 + w2) + b2 == w1 + (w2 + b2);
    assert w1 + (b1 + f2) == (w1 + b1) + f2;
    assert start + (f1 + f2) == (start + f1) + f2;
  }

  // ---------- where the countdown ends ----------

  /** The last envelope that itself announces a count. */
  function LastStatus(xs: seq<Envelope>): (k: Option<nat>)
    ensures k.Some? ==> k.value < |xs| && xs[k.value].body.Status?
    ensures k.Some? ==> forall i :: k.value < i < |xs| ==> !xs[i].body.Status?
    ensures k.None? ==> forall i :: 0 <= i < |xs| ==> !xs[i].body.Status?
  {
    if xs == [] then None
    else if xs[|xs| - 1].body.Status? then Some(|xs| - 1)
    else LastStatus(xs[..|xs| - 1])
  }

  /** The count of an agent that was told n and then received these envelopes. */
  function Final(n: nat, xs: seq<Envelope>): int {
    match LastStatus(xs)
    case None => Residue(n, |xs|)
    case Some(k) => Residue(xs[k].body.pending, |xs| - 1 - k)
  }

  /** It is zero, as seen from the envelopes: enough of them came after the last announcement. */
  ghost predicate EndsAtZero(n: nat, xs: seq<Envelope>) {
    match LastStatus(xs)
    case None => n <= |xs|
    case Some(k) => 0 <= xs[k].body.pending <= |xs| - 1 - k
  }

  lemma {:induction false} OneFrame(c: Countdown, f: Frame)
    ensures OnFrames(c, [f]) == OnFrame(c, f)
  {
    assert [f][..0] == [];
  }

  lemma {:induction false} FinalCount(c: Countdown, n: nat, xs: seq<Envelope>)
    ensures var after := OnFrames(c, [QueueStatus(n)] + Frames(xs));
            && after.remaining == Final(n, xs) && after.statusReceived
            && (after.remaining == 0 <==> EndsAtZero(n, xs))
  {
    var fs := Frames(xs);
    OneFrame(c, QueueStatus(n));
    OnFramesConcat(c, [QueueStatus(n)], fs);
    match LastStatus(xs) {
      case None =>
        CountdownFollows(c, QueueStatus(n), fs);
      case Some(k) =>
        LaterStatus(OnFrame(c, QueueStatus(n)), fs, k);
    }
  }

  /** The frames before the last announcement do not matter. */
  lemma {:induction false} LaterStatus(c: Countdown, fs: seq<Frame>, k: nat)
    requires k < |fs| && Announced(fs[k]).Some? && NoStatus(fs[k + 1..])
    ensures var after := OnFrames(c, fs);
            after.remaining == Residue(Announced(fs[k]).value, |fs| - 1 - k) && after.statusReceived
  {
    var before := OnFrames(c, fs[..k]);
    OnFramesConcat(c, fs[..k], fs[k..]);
    assert fs == fs[..k] + fs[k..];
    OnFramesConcat(before, [fs[k]], fs[k + 1..]);
    assert fs[k..] == [fs[k]] + fs[k + 1..];
    OneFrame(before, fs[k]);
    CountdownFollows(before, fs[k], fs[k + 1..]);
  }

  // ---------- from registration to the countdown ----------

  /** A client about to register for the first time under a free address with something queued. */
  ghost predicate Reconnecting(s: System, id: ClientId) {
    && !s.hub.stopped && id in s.hub.clients && id !in s.log.registered
    && s.hub.clients[id].address !in s.hub.table && EntriesOf(s.hub.queues, s.hub.clients[id].address) != []
  }

  /** Registering announces the queue length and nothing else, and starts the flush. */
  lemma {:induction false} RegisterAnnounces(cfg: Config, s: System, id: ClientId, a: string)
    requires Inv(cfg, s) && Unsent(s) && Reconnecting(s, id) && s.hub.clients[id].address == a
    ensures var s' := Step(cfg, s, RegisterClient(id));
            && Followed(cfg, s', id, a)
            && BucketOf(s', a) == BucketOf(s, a) && LaneOf(s', a) == LaneOf(s, a)
            && s'.hub.clients[id].buffer == [QueueStatus(|BucketOf(s, a).entries|)]
            && s'.hub.clients[id].flushing && s'.hub.now == s.hub.now
  {
    assert ClientOk(s, id);
    StepInv(cfg, s, RegisterClient(id));
    RegisterShape(s.hub, id);
    assert LaneInv(cfg, s, a);
  }

  /**
    Count agreement, end to end. Take any reachable state, let a client register and let time pass,
    batches go out and frames be written in any order. On the frames that have left the buffer or
    still wait in it, the agent's countdown, whatever it was before, ends where the last
    announcement among them puts it. If no relayed envelope announces a count, that is the number of
    entries left behind plus those dropped by a full buffer. Once the flush is over, the entries
    left behind have all expired.
   */
  lemma {:induction false} ReconnectCounts(cfg: Config, before: seq<Event>, id: ClientId, events: seq<Event>,
                                           c: Countdown)
    requires RunOk(cfg, INITIAL, before) && Reconnecting(Run(cfg, INITIAL, before), id)
    requires RunOk(cfg, Step(cfg, Run(cfg, INITIAL, before), RegisterClient(id)), events)
    requires forall i :: 0 <= i < |events| ==> Undisturbed(events[i], id)
    ensures var s := Run(cfg, INITIAL, before);
            var a, s1 := s.hub.clients[id].address, Step(cfg, s, RegisterClient(id));
            CountsAgree(cfg, s, s1, Run(cfg, s1, events), id, a, Written(cfg, s1, events, id), c)
  {
    var s := Run(cfg, INITIAL, before);
    var a, s1 := s.hub.clients[id].address, Step(cfg, s, RegisterClient(id));
    RunInv(cfg, before);
    RunUnsent(cfg, before);
    RegisterAnnounces(cfg, s, id, a);
    RunStreams(cfg, s1, events, id, a);
    StreamsCount(cfg, s, s1, Run(cfg, s1, events), id, a, Written(cfg, s1, events, id), c);
  }

  /** `s` is before the registration, `s1` after it, and `written` went out since. */
  ghost predicate CountsAgree(cfg: Config, s: System, s1: System, end: System, id: ClientId, a: string,
                              written: seq<Frame>, c: Countdown) {
    && id in end.hub.clients && |LaneOf(s1, a).placed| <= |LaneOf(end, a).placed|
    && var n, got := |BucketOf(s, a).entries|, PlacedSince(s1, end, a);
       var left, lost := BucketOf(end, a).entries, |LaneOf(end, a).dropped| - |LaneOf(s, a).dropped|;
       var after := OnFrames(c, written + end.hub.clients[id].buffer);
       && lost >= 0 && after.statusReceived
       && after.remaining == Final(n, got)
       && (after.remaining == 0 <==> EndsAtZero(n, got))
       && (LastStatus(got).None? ==>
             after.remaining == |left| + lost && (EndsAtZero(n, got) <==> left == [] && lost == 0))
       && (!end.hub.clients[id].flushing ==> forall e :: e in left ==> !Live(e, end.hub.now, cfg.ttl))
  }

  lemma {:induction false} StreamsCount(cfg: Config, s: System, s1: System, end: System, id: ClientId, a: string,
                                        written: seq<Frame>, c: Countdown)
    requires Followed(cfg, end, id, a) && Progress(s1, end, a)
    requires BucketOf(s1, a) == BucketOf(s, a) && LaneOf(s1, a) == LaneOf(s, a)
    requires written + end.hub.clients[id].buffer
          == [QueueStatus(|BucketOf(s, a).entries|)] + Frames(PlacedSince(s1, end, a))
    ensures CountsAgree(cfg, s, s1, end, id, a, written, c)
  {
    FinalCount(c, |BucketOf(s, a).entries|, PlacedSince(s1, end, a));
    LiveMembers(BucketOf(end, a).entries, end.hub.now, cfg.ttl);
  }

  // ---------- the condition as seen beforehand ----------

  /** The client's buffer has room for everything that is still to come. */
  ghost predicate Roomy(cfg: Config, s: System, id: ClientId, a: string)
    requires id in s.hub.clients
  {
    |s.hub.clients[id].buffer| + |LiveOf(cfg, s, a)| <= SEND_BUFFER_SIZE
  }

  /** The number of queued entries that no batch will take. */
  ghost function Expired(cfg: Config, s: System, a: string): int {
    |BucketOf(s, a).entries| - |LiveOf(cfg, s, a)|
  }

  ghost predicate NothingLost(cfg: Config, s: System, s': System, id: ClientId, a: string) {
    && id in s'.hub.clients && Roomy(cfg, s', id, a)
    && LaneOf(s', a).dropped == LaneOf(s, a).dropped && Expired(cfg, s', a) == Expired(cfg, s, a)
    && LaneOf(s, a).placed <= LaneOf(s', a).placed
    && PlacedSince(s, s', a) + EnvelopesOf(LiveOf(cfg, s', a)) == EnvelopesOf(LiveOf(cfg, s, a))
  }

  lemma {:induction false} FlushLosesNothing(cfg: Config, s: System, id: ClientId, a: string)
    requires Followed(cfg, s, id, a) && s.hub.clients[id].flushing && Roomy(cfg, s, id, a)
    ensures NothingLost(cfg, s, Step(cfg, s, FlushBatch(id)), id, a)
  {
    var es, buffer := BucketOf(s, a).entries, s.hub.clients[id].buffer;
    var batch := Batch(es, s.hub.now, cfg.ttl, FLUSH_BATCH_SIZE);
    assert ClientOk(s, id);
    DrainOnce(cfg, s, id, a);
    BatchEffect(cfg, s, id, a);
    BatchCount(es, s.hub.now, cfg.ttl, FLUSH_BATCH_SIZE);
    BatchMessages(es, s.hub.now, cfg.ttl, FLUSH_BATCH_SIZE);
    assert Take(EnvelopesOf(batch), SEND_BUFFER_SIZE - |buffer|) == EnvelopesOf(batch);
    FlushFillsBuffer(cfg, s, id);
    LiveSplits(LiveOf(cfg, s, a), batch);
  }

  lemma {:induction false} LiveSplits(live: seq<Entry>, batch: seq<Entry>)
    requires batch == Take(live, FLUSH_BATCH_SIZE)
    ensures EnvelopesOf(batch) + EnvelopesOf(live[Min(FLUSH_BATCH_SIZE, |live|)..]) == EnvelopesOf(live)
  {
    var rest := live[Min(FLUSH_BATCH_SIZE, |live|)..];
    assert live == batch + rest;
    EnvelopesConcat(batch, rest);
  }

  lemma {:induction false} StillStep(cfg: Config, s: System, e: Event, id: ClientId, a: string)
    requires Followed(cfg, s, id, a) && Undisturbed(e, id) && !e.Tick? && Roomy(cfg, s, id, a)
    ensures NothingLost(cfg, s, Step(cfg, s, e), id, a)
  {
    if e.FlushBatch? && s.hub.clients[id].flushing {
      FlushLosesNothing(cfg, s, id, a);
    }
  }

  lemma {:induction false} StillRun(cfg: Config, s: System, events: seq<Event>, id: ClientId, a: string)
    requires Followed(cfg, s, id, a) && RunOk(cfg, s, events) && Roomy(cfg, s, id, a)
    requires forall i :: 0 <= i < |events| ==> Undisturbed(events[i], id) && !events[i].Tick?
    ensures NothingLost(cfg, s, Run(cfg, s, events), id, a)
  {
    if events != [] {
      var before := events[..|events| - 1];
      var mid := Run(cfg, s, before);
      StillRun(cfg, s, before, id, a);
      RunStreams(cfg, s, before, id, a);
      StillStep(cfg, mid, events[|events| - 1], id, a);
      NothingLostTwice(cfg, s, mid, Step(cfg, mid, events[|events| - 1]), id, a);
    } else {
      assert PlacedSince(s, s, a) == [];
    }
  }

  lemma {:induction false} NothingLostTwice(cfg: Config, s: System, mid: System, end: System, id: ClientId, a: string)
    requires NothingLost(cfg, s, mid, id, a) && NothingLost(cfg, mid, end, id, a)
    ensures NothingLost(cfg, s, end, id, a)
  {
    JoinRest(LaneOf(s, a).placed, LaneOf(mid, a).placed, LaneOf(end, a).placed, EnvelopesOf(LiveOf(cfg, s, a)),
             EnvelopesOf(LiveOf(cfg, mid, a)), EnvelopesOf(LiveOf(cfg, end, a)));
  }

  lemma {:induction false} JoinRest<T>(p0: seq<T>, p1: seq<T>, p2: seq<T>, l0: seq<T>, l1: seq<T>, l2: seq<T>)
    requires p0 <= p1 <= p2 && p1[|p0|..] + l1 == l0 && p2[|p1|..] + l2 == l1
    ensures p0 <= p2 && p2[|p0|..] + l2 == l0
  {
    var q1, q2 := p1[|p0|..], p2[|p1|..];
    assert p2[|p0|..] == q1 + q2;
    assert (q1 + q2) + l2 == q1 + (q2 + l2);
  }

  /**
    What the countdown ends at, as known before the client registers, while the clock stands still
    and everything fits the buffer: it is determined by the queue length and the live entries. If no
    live entry announces a count itself, it is the number of entries that have already expired, so it
    reaches zero exactly when none has.
   */
  lemma {:induction false} CountAgreement(cfg: Config, before: seq<Event>, id: ClientId, events: seq<Event>,
                                          c: Countdown)
    requires RunOk(cfg, INITIAL, before) && Reconnecting(Run(cfg, INITIAL, before), id)
    requires var s := Run(cfg, INITIAL, before); |LiveOf(cfg, s, s.hub.clients[id].address)| < SEND_BUFFER_SIZE
    requires RunOk(cfg, Step(cfg, Run(cfg, INITIAL, before), RegisterClient(id)), events)
    requires forall i :: 0 <= i < |events| ==> Undisturbed(events[i], id) && !events[i].Tick?
    ensures var s := Run(cfg, INITIAL, before);
            var a, s1 := s.hub.clients[id].address, Step(cfg, s, RegisterClient(id));
            var end := Run(cfg, s1, events);
            && id in end.hub.clients
            && (!end.hub.clients[id].flushing ==>
                  ForeseenCount(cfg, s, a, OnFrames(c, Written(cfg, s1, events, id) + end.hub.clients[id].buffer)))
  {
    var s := Run(cfg, INITIAL, before);
    var a, s1 := s.hub.clients[id].address, Step(cfg, s, RegisterClient(id));
    RunInv(cfg, before);
    RunUnsent(cfg, before);
    RegisterAnnounces(cfg, s, id, a);
    ReconnectCounts(cfg, before, id, events, c);
    RunStreams(cfg, s1, events, id, a);
    StillRun(cfg, s1, events, id, a);
    if !Run(cfg, s1, events).hub.clients[id].flushing {
      EverythingSent(cfg, s, s1, Run(cfg, s1, events), id, a, Written(cfg, s1, events, id), c);
    }
  }

  ghost predicate ForeseenCount(cfg: Config, s: System, a: string, after: Countdown) {
    var es, sent := BucketOf(s, a).entries, EnvelopesOf(LiveOf(cfg, s, a));
    && after.remaining == Final(|es|, sent)
    && (after.remaining == 0 <==> EndsAtZero(|es|, sent))
    && (LastStatus(sent).None? ==>
          && after.remaining == |es| - |LiveOf(cfg, s, a)|
          && (EndsAtZero(|es|, sent) <==> forall e :: e in es ==> Live(e, s.hub.now, cfg.ttl)))
  }

  lemma {:induction false} EverythingSent(cfg: Config, s: System, s1: System, end: System, id: ClientId, a: string,
                                          written: seq<Frame>, c: Countdown)
    requires CountsAgree(cfg, s, s1, end, id, a, written, c) && NothingLost(cfg, s1, end, id, a)
    requires Attended(cfg, end, id, a) && !end.hub.clients[id].flushing
    requires LiveOf(cfg, s1, a) == LiveOf(cfg, s, a)
    ensures ForeseenCount(cfg, s, a, OnFrames(c, written + end.hub.clients[id].buffer))
  {
    var es, live := BucketOf(s, a).entries, LiveOf(cfg, s, a);
    assert PlacedSince(s1, end, a) + [] == EnvelopesOf(live);
    assert PlacedSince(s1, end, a) == EnvelopesOf(live);
    AllLive(es, s.hub.now, cfg.ttl);
    LiveMembers(es, s.hub.now, cfg.ttl);
    AllMessages(live);
  }
}
