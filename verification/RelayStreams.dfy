/** What each client's socket carries over a whole run (relay/internal/hub/client.go). */
module RelayStreams {
  import opened Common
  import opened Wire
  import opened MessageQueues
  import opened Relay
  import opened Lanes
  import opened RelayInvariant
  import opened RelayTheorems

  /** What a step takes from the client's buffer. */
  function Out(h: Hub, e: Event, id: ClientId): seq<Frame> {
    if e == WriteFrame(id) && id in h.clients && h.clients[id].buffer != [] then [h.clients[id].buffer[0]] else []
  }

  /** The frames WritePump takes from a client's buffer during a run, oldest first. */
  function Written(cfg: Config, s: System, events: seq<Event>, id: ClientId): seq<Frame> {
    if events == [] then []
    else
      var before := events[..|events| - 1];
      Written(cfg, s, before, id) + Out(Run(cfg, s, before).hub, events[|events| - 1], id)
  }

  /** The relayed envelopes among some frames. */
  function Relays(fs: seq<Frame>): seq<Envelope> {
    if fs == [] then []
    else if fs[0].Relayed? then [fs[0].envelope] + Relays(fs[1..])
    else Relays(fs[1..])
  }

  lemma {:induction false} FramesConcat(xs: seq<Envelope>, ys: seq<Envelope>)
    ensures Frames(xs + ys) == Frames(xs) + Frames(ys)
  {
  }

  lemma {:induction false} RelaysConcat(fs: seq<Frame>, gs: seq<Frame>)
    ensures Relays(fs + gs) == Relays(fs) + Relays(gs)
  {
    if fs == [] {
      assert fs + gs == gs;
    } else {
      var l, r := Relays(fs[1..]), Relays(gs);
      RelaysConcat(fs[1..], gs);
      assert (fs + gs)[1..] == fs[1..] + gs && (fs + gs)[0] == fs[0];
      assert [fs[0]] + fs[1..] == fs;
      if fs[0].Relayed? {
        assert [fs[0].envelope] + (l + r) == ([fs[0].envelope] + l) + r;
      }
    }
  }

  lemma {:induction false} RelaysOfFrames(xs: seq<Envelope>)
    ensures Relays(Frames(xs)) == xs
  {
    if xs != [] {
      assert Frames(xs)[1..] == Frames(xs[1..]);
      RelaysOfFrames(xs[1..]);
    }
  }

  /** Pushing a frame of the relay's own adds nothing. */
  lemma {:induction false} PushOwn(buffer: seq<Frame>, f: Frame)
    requires !f.Relayed?
    ensures Relays(Push(buffer, f)) == Relays(buffer)
  {
    RelaysConcat(buffer, [f]);
    assert [f][1..] == [];
  }

  // ---------- one step ----------

  /** `added` goes to the end of the client's stream and of what was placed for its address. */
  ghost predicate Extends(s: System, s': System, e: Event, id: ClientId, added: seq<Envelope>) {
    && id in s.hub.clients && id in s'.hub.clients && s'.hub.clients[id].address == s.hub.clients[id].address
    && Relays(Out(s.hub, e, id) + s'.hub.clients[id].buffer) == Relays(s.hub.clients[id].buffer) + added
    && LaneOf(s, s.hub.clients[id].address).placed + added <= LaneOf(s', s.hub.clients[id].address).placed
  }

  lemma {:induction false} PlacedGrows(cfg: Config, s: System, e: Event, a: string)
    ensures LaneOf(s, a).placed <= LaneOf(Step(cfg, s, e), a).placed
  {
    match e {
      case RouteMessage(id, limited, request) =>
        if IsLive(s.hub, id) {
          RoutePlaces(cfg, s, id, limited, request, a);
        }
      case _ =>
    }
  }

  lemma {:induction false} RoutePlaces(cfg: Config, s: System, id: ClientId, limited: bool, request: Request, a: string)
    requires id in s.hub.clients
    ensures LaneOf(s, a).placed <= Lookup(LogRoute(cfg, s, id, limited, request).lanes, a, EMPTY_LANE).placed
  {
  }

  /** The client's buffer is as it was, up to the frame written. */
  lemma {:induction false} SameBuffer(cfg: Config, s: System, e: Event, id: ClientId)
    requires id in s.hub.clients && id in Step(cfg, s, e).hub.clients
    requires Out(s.hub, e, id) + Step(cfg, s, e).hub.clients[id].buffer == s.hub.clients[id].buffer
    requires Step(cfg, s, e).hub.clients[id].address == s.hub.clients[id].address
    ensures Extends(s, Step(cfg, s, e), e, id, [])
  {
    PlacedGrows(cfg, s, e, s.hub.clients[id].address);
    assert Relays(s.hub.clients[id].buffer) + [] == Relays(s.hub.clients[id].buffer);
  }

  /** Steps that send nothing. */
  predicate Silent(e: Event) {
    !e.RegisterClient? && !e.RouteMessage? && !e.FlushBatch?
  }

  lemma {:induction false} SilentBuffer(cfg: Config, s: System, e: Event, id: ClientId)
    requires Silent(e) && TableOk(s) && id in s.hub.clients && id in Step(cfg, s, e).hub.clients
    ensures var c, c' := s.hub.clients[id], Step(cfg, s, e).hub.clients[id];
            c'.address == c.address && Out(s.hub, e, id) + c'.buffer == c.buffer
  {
    if e.WriteFrame? {
      if e.id in s.hub.clients {
        WriteTakes(s.hub, e.id, id);
      }
    } else {
      assert ClientOk(s, id);
      NothingWritten(cfg, s, e, id);
    }
  }

  lemma {:induction false} WriteTakes(h: Hub, w: ClientId, id: ClientId)
    requires w in h.clients && id in h.clients
    ensures var c, c' := h.clients[id], Write(h, w).clients[id];
            c'.address == c.address && Out(h, WriteFrame(w), id) + c'.buffer == c.buffer
  {
    assert [] + h.clients[id].buffer == h.clients[id].buffer;
  }

  lemma {:induction false} NothingWritten(cfg: Config, s: System, e: Event, id: ClientId)
    requires Silent(e) && !e.WriteFrame?
    requires id in s.hub.clients && id in s.log.created && id in Step(cfg, s, e).hub.clients
    ensures var c, c' := s.hub.clients[id], Step(cfg, s, e).hub.clients[id];
            c'.address == c.address && c'.buffer == c.buffer && Out(s.hub, e, id) == []
  {
  }

  lemma {:induction false} RegisterSpares(h: Hub, id: ClientId, other: ClientId)
    requires id in h.clients && other != id
    ensures var h' := Register(h, id);
            && (other in h'.clients <==> other in h.clients)
            && (other in h.clients ==> h'.clients[other] == h.clients[other])
  {
  }

  lemma {:induction false} RegisterPushes(h: Hub, id: ClientId)
    requires id in h.clients && !h.clients[id].closed
    ensures var c, h' := h.clients[id], Register(h, id);
            && id in h'.clients && h'.clients[id].address == c.address
            && (h'.clients[id].buffer == c.buffer ||
                h'.clients[id].buffer == Push(c.buffer, QueueStatus(|EntriesOf(h.queues, c.address)|)))
  {
  }

  lemma {:induction false} RegisterExtends(cfg: Config, s: System, r: ClientId, id: ClientId)
    requires TableOk(s) && id in s.hub.clients && r !in s.log.registered
    ensures Extends(s, Step(cfg, s, RegisterClient(r)), RegisterClient(r), id, [])
  {
    var c, s' := s.hub.clients[id], Step(cfg, s, RegisterClient(r));
    PlacedGrows(cfg, s, RegisterClient(r), c.address);
    if r == id {
      assert ClientOk(s, id);
      RegisterPushes(s.hub, id);
      PushOwn(c.buffer, QueueStatus(|EntriesOf(s.hub.queues, c.address)|));
    } else if r in s.hub.clients {
      RegisterSpares(s.hub, r, id);
    }
    assert [] + s'.hub.clients[id].buffer == s'.hub.clients[id].buffer;
  }

  lemma {:induction false} FlushExtends(cfg: Config, s: System, f: ClientId, id: ClientId)
    returns (added: seq<Envelope>)
    requires TableOk(s) && id in s.hub.clients && f in s.hub.clients
    ensures Extends(s, Step(cfg, s, FlushBatch(f)), FlushBatch(f), id, added)
  {
    var c := s.hub.clients[id];
    if f == id && c.flushing && !c.cancelled {
      added := OwnFlushExtends(cfg, s, id);
    } else {
      added := [];
      FlushSpares(s.hub, cfg.ttl, f, id);
      assert [] + c.buffer == c.buffer;
      SameBuffer(cfg, s, FlushBatch(f), id);
    }
  }

  lemma {:induction false} OwnFlushExtends(cfg: Config, s: System, id: ClientId) returns (added: seq<Envelope>)
    requires TableOk(s) && id in s.hub.clients && s.hub.clients[id].flushing && !s.hub.clients[id].cancelled
    ensures Extends(s, Step(cfg, s, FlushBatch(id)), FlushBatch(id), id, added)
  {
    var c, s' := s.hub.clients[id], Step(cfg, s, FlushBatch(id));
    assert ClientOk(s, id);
    FlushFillsBuffer(cfg, s, id);
    StepKeepsIdentities(cfg, s, FlushBatch(id));
    added := Take(EnvelopesOf(Batch(BucketOf(s, c.address).entries, s.hub.now, cfg.ttl, FLUSH_BATCH_SIZE)),
                  SEND_BUFFER_SIZE - |c.buffer|);
    assert id in s'.hub.clients;
    Appended(s, s', FlushBatch(id), id, added);
  }

  /** Frames of exactly what was placed, at the end of the buffer. */
  lemma {:induction false} Appended(s: System, s': System, e: Event, id: ClientId, added: seq<Envelope>)
    requires id in s.hub.clients && id in s'.hub.clients && !e.WriteFrame?
    requires s'.hub.clients[id].address == s.hub.clients[id].address
    requires s'.hub.clients[id].buffer == s.hub.clients[id].buffer + Frames(added)
    requires var a := s.hub.clients[id].address; LaneOf(s', a).placed == LaneOf(s, a).placed + added
    ensures Extends(s, s', e, id, added)
  {
    RelaysConcat(s.hub.clients[id].buffer, Frames(added));
    RelaysOfFrames(added);
    assert [] + s'.hub.clients[id].buffer == s'.hub.clients[id].buffer;
  }

  lemma {:induction false} FlushSpares(h: Hub, ttl: int, f: ClientId, id: ClientId)
    requires f in h.clients && id in h.clients && !(f == id && h.clients[id].flushing && !h.clients[id].cancelled)
    ensures var h' := Flush(h, ttl, f);
            && id in h'.clients && h'.clients[id].buffer == h.clients[id].buffer
            && h'.clients[id].address == h.clients[id].address
  {
  }

  // ---------- routing ----------

  lemma {:induction false} DirectExtends(cfg: Config, s: System, e: Event, env: Envelope, id: ClientId)
    returns (added: seq<Envelope>)
    requires TableOk(s) && id in s.hub.clients && e.RouteMessage? && DirectStep(s, Step(cfg, s, e), env)
    ensures Extends(s, Step(cfg, s, e), e, id, added)
  {
    var s', r := Step(cfg, s, e), s.hub.table[env.to];
    DirectFillsBuffer(s, s', env);
    StepKeepsIdentities(cfg, s, e);
    if id == r {
      added := Take([env], SEND_BUFFER_SIZE - |s.hub.clients[r].buffer|);
      Appended(s, s', e, id, added);
    } else {
      added := [];
      assert [] + s.hub.clients[id].buffer == s.hub.clients[id].buffer;
      SameBuffer(cfg, s, e, id);
    }
  }

  /** A routing call that is answered with a frame of the relay's own, or not at all. */
  lemma {:induction false} AnsweredExtends(cfg: Config, s: System, e: Event, id: ClientId, f: Frame)
    requires id in s.hub.clients && e.RouteMessage? && !f.Relayed?
    requires e.id in s.hub.clients && !s.hub.clients[e.id].closed
    requires Step(cfg, s, e).hub == Send(s.hub, e.id, f)
    ensures Extends(s, Step(cfg, s, e), e, id, [])
  {
    var s' := Step(cfg, s, e);
    PlacedGrows(cfg, s, e, s.hub.clients[id].address);
    PushOwn(s.hub.clients[id].buffer, f);
    assert [] + s'.hub.clients[id].buffer == s'.hub.clients[id].buffer;
  }

  lemma {:induction false} UnansweredExtends(cfg: Config, s: System, e: Event, id: ClientId)
    requires id in s.hub.clients && e.RouteMessage? && Step(cfg, s, e).hub.clients == s.hub.clients
    ensures Extends(s, Step(cfg, s, e), e, id, [])
  {
    assert [] + s.hub.clients[id].buffer == s.hub.clients[id].buffer;
    SameBuffer(cfg, s, e, id);
  }

  lemma {:induction false} RouteExtends(cfg: Config, s: System, e: Event, id: ClientId) returns (added: seq<Envelope>)
    requires TableOk(s) && id in s.hub.clients && e.RouteMessage?
    ensures Extends(s, Step(cfg, s, e), e, id, added)
  {
    added := [];
    if !IsLive(s.hub, e.id) {
      UnansweredExtends(cfg, s, e, id);
    } else {
      assert EntryLive(s.hub, s.hub.clients[e.id].address);
      if e.limited {
        AnsweredExtends(cfg, s, e, id, RateLimited);
      } else if e.request.Deliver? {
        added := DeliverExtends(cfg, s, e, id);
      } else {
        UnansweredExtends(cfg, s, e, id);
      }
    }
  }

  lemma {:induction false} DeliverExtends(cfg: Config, s: System, e: Event, id: ClientId) returns (added: seq<Envelope>)
    requires TableOk(s) && id in s.hub.clients && e.RouteMessage? && !e.limited && e.request.Deliver?
    requires IsLive(s.hub, e.id) && !s.hub.clients[e.id].closed
    ensures Extends(s, Step(cfg, s, e), e, id, added)
  {
    added := [];
    match Dispose(s.hub, cfg.maxPerAgent, s.hub.clients[e.id].address, e.request.to) {
      case Refused =>
        RefusedShape(cfg, s, e);
        AnsweredExtends(cfg, s, e, id, QueueFull(e.request.to));
      case Direct(_) =>
        DirectShape(cfg, s, e.id, e.request.to, e.request.body);
        added := DirectExtends(cfg, s, e, Envelope(s.log.serial, e.request.to, e.request.body), id);
      case _ =>
        UnansweredShape(cfg, s, e);
        UnansweredExtends(cfg, s, e, id);
    }
  }

  lemma {:induction false} RefusedShape(cfg: Config, s: System, e: Event)
    requires e.RouteMessage? && !e.limited && e.request.Deliver? && IsLive(s.hub, e.id)
    requires Dispose(s.hub, cfg.maxPerAgent, s.hub.clients[e.id].address, e.request.to) == Refused
    ensures Step(cfg, s, e).hub == Send(s.hub, e.id, QueueFull(e.request.to))
  {
  }

  lemma {:induction false} UnansweredShape(cfg: Config, s: System, e: Event)
    requires e.RouteMessage? && !e.limited && e.request.Deliver? && IsLive(s.hub, e.id)
    requires var d := Dispose(s.hub, cfg.maxPerAgent, s.hub.clients[e.id].address, e.request.to);
             d != Refused && !d.Direct?
    ensures Step(cfg, s, e).hub.clients == s.hub.clients
  {
  }

  lemma {:induction false} StepExtends(cfg: Config, s: System, e: Event, id: ClientId) returns (added: seq<Envelope>)
    requires TableOk(s) && EventOk(s, e) && id in s.hub.clients && id in Step(cfg, s, e).hub.clients
    ensures Extends(s, Step(cfg, s, e), e, id, added)
  {
    added := [];
    if Silent(e) {
      SilentBuffer(cfg, s, e, id);
      SameBuffer(cfg, s, e, id);
    } else if e.RegisterClient? {
      RegisterExtends(cfg, s, e.id, id);
    } else if e.RouteMessage? {
      added := RouteExtends(cfg, s, e, id);
    } else if e.id in s.hub.clients {
      added := FlushExtends(cfg, s, e.id, id);
    } else {
      assert [] + s.hub.clients[id].buffer == s.hub.clients[id].buffer;
      SameBuffer(cfg, s, e, id);
    }
  }

  // ---------- whole runs ----------

  /** A client's stream: relayed envelopes written to its socket, then those waiting in its buffer. */
  ghost function Stream(cfg: Config, events: seq<Event>, id: ClientId): seq<Envelope>
    requires id in Run(cfg, INITIAL, events).hub.clients
  {
    Relays(Written(cfg, INITIAL, events, id) + Run(cfg, INITIAL, events).hub.clients[id].buffer)
  }

  /** Nothing was written to a client that does not exist yet. */
  lemma {:induction false} NothingBefore(cfg: Config, events: seq<Event>, id: ClientId)
    requires RunOk(cfg, INITIAL, events) && id !in Run(cfg, INITIAL, events).log.created
    ensures Written(cfg, INITIAL, events, id) == []
  {
    if events != [] {
      var before := events[..|events| - 1];
      var s := Run(cfg, INITIAL, before);
      CreatedGrows(cfg, s, events[|events| - 1]);
      NothingBefore(cfg, before, id);
      RunInv(cfg, before);
      assert id in s.hub.clients ==> ClientOk(s, id);
    }
  }

  lemma {:induction false} CreatedGrows(cfg: Config, s: System, e: Event)
    ensures s.log.created <= Step(cfg, s, e).log.created
  {
  }

  ghost predicate InOrder(stream: seq<Envelope>, placed: seq<Envelope>) {
    Increasing(stream) && forall x :: x in stream ==> x in placed
  }

  lemma {:induction false} OrderExtends(stream: seq<Envelope>, placed: seq<Envelope>, added: seq<Envelope>,
                                        placed': seq<Envelope>)
    requires InOrder(stream, placed) && placed + added <= placed' && Increasing(placed')
    ensures InOrder(stream + added, placed')
  {
    forall x | x in stream + added ensures x in placed' {
      assert x in placed + added;
    }
    forall i, j | 0 <= i < j < |stream + added| ensures (stream + added)[i].serial < (stream + added)[j].serial {
      if i < |stream| <= j {
        assert stream[i] in stream && stream[i] in placed;
        var k :| 0 <= k < |placed| && placed[k] == stream[i];
        assert placed'[k] == stream[i] && placed'[|placed| + (j - |stream|)] == added[j - |stream|];
      } else if |stream| <= i {
        assert placed'[|placed| + (i - |stream|)] == added[i - |stream|];
        assert placed'[|placed| + (j - |stream|)] == added[j - |stream|];
      }
    }
  }

  lemma {:induction false} JoinStream(w: seq<Frame>, o: seq<Frame>, b: seq<Frame>, b': seq<Frame>, added: seq<Envelope>)
    requires Relays(o + b') == Relays(b) + added
    ensures Relays((w + o) + b') == Relays(w + b) + added
  {
    assert (w + o) + b' == w + (o + b');
    RelaysConcat(w, o + b');
    RelaysConcat(w, b);
    assert Relays(w) + (Relays(b) + added) == (Relays(w) + Relays(b)) + added;
  }

  lemma {:induction false} WrittenSnoc(cfg: Config, s: System, before: seq<Event>, e: Event, id: ClientId)
    ensures Written(cfg, s, before + [e], id) == Written(cfg, s, before, id) + Out(Run(cfg, s, before).hub, e, id)
  {
    assert (before + [e])[..|before|] == before;
  }

  lemma {:induction false} StreamExtends(cfg: Config, before: seq<Event>, e: Event, id: ClientId, added: seq<Envelope>)
    requires var s := Run(cfg, INITIAL, before); Extends(s, Step(cfg, s, e), e, id, added)
    requires Run(cfg, INITIAL, before + [e]) == Step(cfg, Run(cfg, INITIAL, before), e)
    ensures Stream(cfg, before + [e], id) == Stream(cfg, before, id) + added
  {
    var s, s' := Run(cfg, INITIAL, before), Run(cfg, INITIAL, before + [e]);
    WrittenSnoc(cfg, INITIAL, before, e, id);
    JoinStream(Written(cfg, INITIAL, before, id), Out(s.hub, e, id), s.hub.clients[id].buffer,
               s'.hub.clients[id].buffer, added);
  }

  lemma {:induction false} StreamOk(cfg: Config, events: seq<Event>, id: ClientId)
    requires RunOk(cfg, INITIAL, events) && id in Run(cfg, INITIAL, events).hub.clients
    ensures var s := Run(cfg, INITIAL, events);
            InOrder(Stream(cfg, events, id), LaneOf(s, s.hub.clients[id].address).placed)
  {
    var before, e := events[..|events| - 1], events[|events| - 1];
    var s, s' := Run(cfg, INITIAL, before), Run(cfg, INITIAL, events);
    assert events == before + [e];
    RunInv(cfg, before);
    RunInv(cfg, events);
    if id in s.hub.clients {
      StreamOk(cfg, before, id);
      var added := StepExtends(cfg, s, e, id);
      StreamExtends(cfg, before, e, id, added);
      var a := s.hub.clients[id].address;
      assert LaneInv(cfg, s', a);
      OrderExtends(Stream(cfg, before, id), LaneOf(s, a).placed, added, LaneOf(s', a).placed);
    } else {
      StreamStarts(cfg, before, e, id);
    }
  }

  lemma {:induction false} StreamStarts(cfg: Config, before: seq<Event>, e: Event, id: ClientId)
    requires RunOk(cfg, INITIAL, before) && Inv(cfg, Run(cfg, INITIAL, before))
    requires id !in Run(cfg, INITIAL, before).hub.clients
    requires Run(cfg, INITIAL, before + [e]) == Step(cfg, Run(cfg, INITIAL, before), e)
    requires id in Run(cfg, INITIAL, before + [e]).hub.clients
    ensures Stream(cfg, before + [e], id) == []
  {
    var s := Run(cfg, INITIAL, before);
    if !e.NewClient? {
      StepKeepsIdentities(cfg, s, e);
    }
    NothingBefore(cfg, before, id);
    assert (before + [e])[..|before|] == before;
  }

  /**
    Order at the socket: in every run, for every client, the relayed envelopes written to its
    socket and waiting in its buffer are in the order of, and among, those admitted for its address.
   */
  lemma {:induction false} SocketOrder(cfg: Config, events: seq<Event>, id: ClientId)
    requires RunOk(cfg, INITIAL, events) && id in Run(cfg, INITIAL, events).hub.clients
    ensures var s := Run(cfg, INITIAL, events);
            IsSubsequence(Stream(cfg, events, id), LaneOf(s, s.hub.clients[id].address).admitted)
  {
    var s := Run(cfg, INITIAL, events);
    var a := s.hub.clients[id].address;
    RunInv(cfg, events);
    StreamOk(cfg, events, id);
    PlacedAdmitted(cfg, s, a);
    SubsequenceOf(Stream(cfg, events, id), LaneOf(s, a).admitted);
  }

  lemma {:induction false} PlacedAdmitted(cfg: Config, s: System, a: string)
    requires LaneInv(cfg, s, a)
    ensures Increasing(LaneOf(s, a).admitted)
    ensures forall x :: x in LaneOf(s, a).placed ==> x in LaneOf(s, a).admitted
  {
    var lane := LaneOf(s, a);
    forall x | x in lane.placed ensures x in lane.admitted {
      assert x in multiset(lane.handed);
      assert x in multiset(lane.admitted);
    }
  }
}
