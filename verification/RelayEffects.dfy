/**
  What each step of the relay does to queues, clients, table and blocks, each change exactly when it
  happens (relay/internal/hub/hub.go, client.go).
 */
module RelayEffects {
  import opened Common
  import opened QueueKeys
  import opened Wire
  import opened MessageQueues
  import opened BlockStores
  import opened Identity
  import opened Relay
  import opened Lanes
  import opened RelayInvariant
  import opened RelayTheorems

  // ---------- routing ----------

  /** The client in the table under an address, if its flush is over. */
  ghost predicate Reachable(h: Hub, a: string) {
    a in h.table && h.table[a] in h.clients && !h.clients[h.table[a]].flushing
  }

  ghost predicate Wanted(h: Hub, sender: string, to: string) {
    to != "" && to + ":" + sender !in h.blocks
  }

  /** A routing call that gets as far as looking for the recipient. */
  ghost predicate Delivers(h: Hub, e: Event) {
    && e.RouteMessage? && IsLive(h, e.id) && !e.limited && e.request.Deliver?
    && Wanted(h, h.clients[e.id].address, e.request.to)
  }

  ghost predicate QueueFullFor(cfg: Config, h: Hub, a: string) {
    |EntriesOf(h.queues, a)| >= cfg.maxPerAgent
  }

  /** The one client that a routing call sends a frame to, and the frame. */
  ghost function Reply(cfg: Config, s: System, e: Event): Option<(ClientId, Frame)> {
    var h := s.hub;
    if e.RouteMessage? && IsLive(h, e.id) && e.limited then Some((e.id, RateLimited))
    else if !Delivers(h, e) then None
    else if Reachable(h, e.request.to) then
      Some((h.table[e.request.to], Relayed(Envelope(s.log.serial, e.request.to, e.request.body))))
    else if QueueFullFor(cfg, h, e.request.to) then Some((e.id, QueueFull(e.request.to)))
    else None
  }

  /** A frame is lost exactly when 256 are waiting. */
  function Queued(buffer: seq<Frame>, f: Frame): seq<Frame> {
    if |buffer| >= 256 then buffer else buffer + [f]
  }

  lemma {:induction false} SendAppends(h: Hub, id: ClientId, f: Frame, c: ClientId)
    requires id in h.clients && !h.clients[id].closed && c in h.clients
    ensures var h' := Send(h, id, f);
            && c in h'.clients
            && h'.clients[c] == if c == id
                                then h.clients[c].(buffer := Queued(h.clients[c].buffer, f))
                                else h.clients[c]
  {
  }

  /** Routing touches one client's buffer at most, with the reply. */
  lemma {:induction false} RouteReplies(cfg: Config, s: System, e: Event, c: ClientId)
    requires TableOk(s) && e.RouteMessage? && c in s.hub.clients
    ensures var s', reply := Step(cfg, s, e), Reply(cfg, s, e);
            && c in s'.hub.clients
            && s'.hub.clients[c] == if reply.Some? && reply.value.0 == c
                                    then s.hub.clients[c].(buffer := Queued(s.hub.clients[c].buffer, reply.value.1))
                                    else s.hub.clients[c]
  {
    var h, reply := s.hub, Reply(cfg, s, e);
    if IsLive(h, e.id) {
      assert EntryLive(h, h.clients[e.id].address);
      if e.limited {
        SendAppends(h, e.id, RateLimited, c);
      } else if e.request.Deliver? {
        DeliverReplies(cfg, s, e, c);
      }
    }
  }

  lemma {:induction false} DeliverReplies(cfg: Config, s: System, e: Event, c: ClientId)
    requires TableOk(s) && c in s.hub.clients
    requires e.RouteMessage? && IsLive(s.hub, e.id) && !e.limited && e.request.Deliver?
    requires !s.hub.clients[e.id].closed
    ensures var h', reply := Step(cfg, s, e).hub, Reply(cfg, s, e);
            && c in h'.clients
            && h'.clients[c] == if reply.Some? && reply.value.0 == c
                                then s.hub.clients[c].(buffer := Queued(s.hub.clients[c].buffer, reply.value.1))
                                else s.hub.clients[c]
  {
    var h, to := s.hub, e.request.to;
    DeliverShape(cfg, s, e);
    match Dispose(h, cfg.maxPerAgent, h.clients[e.id].address, to) {
      case Refused => SendAppends(h, e.id, QueueFull(to), c);
      case Direct(r) =>
        assert EntryLive(h, to);
        SendAppends(h, r, Relayed(Envelope(s.log.serial, to, e.request.body)), c);
      case _ =>
    }
  }

  lemma {:induction false} DeliverShape(cfg: Config, s: System, e: Event)
    requires e.RouteMessage? && IsLive(s.hub, e.id) && !e.limited && e.request.Deliver?
    ensures var env := Envelope(s.log.serial, e.request.to, e.request.body);
            Step(cfg, s, e).hub == RouteEnvelope(s.hub, cfg.maxPerAgent, e.id, env)
  {
  }

  /** An envelope joins the end of the recipient's queue exactly when it is wanted, not reachable, and there is room. */
  ghost predicate Queues(cfg: Config, h: Hub, e: Event, a: string) {
    Delivers(h, e) && e.request.to == a && !Reachable(h, a) && !QueueFullFor(cfg, h, a)
  }

  lemma {:induction false} RouteQueues(cfg: Config, s: System, e: Event, a: string)
    requires Inv(cfg, s) && EventOk(s, e) && e.RouteMessage?
    ensures EntriesOf(Step(cfg, s, e).hub.queues, a) == EntriesOf(s.hub.queues, a)
            + (if Queues(cfg, s.hub, e, a)
               then [NewEntry(BucketOf(s, a), s.hub.now, s.hub.clients[e.id].address,
                              Envelope(s.log.serial, a, e.request.body))]
               else [])
  {
    var h, es := s.hub, EntriesOf(s.hub.queues, a);
    assert es + [] == es;
    if Queues(cfg, h, e, a) {
      assert LaneInv(cfg, s, a);
      RouteEnqueues(cfg, s, e, a);
      NewEntryLast(BucketOf(s, a), h.now, h.clients[e.id].address, Envelope(s.log.serial, a, e.request.body));
    } else {
      RouteLeavesQueue(cfg, s, e, a);
    }
  }

  lemma {:induction false} NewEntryLast(b: Bucket, now: int64, sender: string, env: Envelope)
    requires 0 <= now && b.sequence + 1 < TWO_64
    requires forall x :: x in b.entries ==> Issued(x.key, now, b.sequence)
    ensures Enqueued(b, now, sender, env).entries == b.entries + [NewEntry(b, now, sender, env)]
  {
    EnqueueAppends(b, now, sender, env);
  }

  lemma {:induction false} RouteEnqueues(cfg: Config, s: System, e: Event, a: string)
    requires e.RouteMessage? && Queues(cfg, s.hub, e, a)
    ensures EntriesOf(Step(cfg, s, e).hub.queues, a) ==
            Enqueued(BucketOf(s, a), s.hub.now, s.hub.clients[e.id].address,
                     Envelope(s.log.serial, a, e.request.body)).entries
  {
    DeliverShape(cfg, s, e);
    EnvelopeJoinsQueue(cfg, s.hub, e.id, Envelope(s.log.serial, a, e.request.body));
  }

  lemma {:induction false} EnvelopeJoinsQueue(cfg: Config, h: Hub, id: ClientId, env: Envelope)
    requires id in h.clients && Wanted(h, h.clients[id].address, env.to)
    requires !Reachable(h, env.to) && !QueueFullFor(cfg, h, env.to)
    ensures RouteEnvelope(h, cfg.maxPerAgent, id, env).queues == h.queues[env.to :=
              Enqueued(Lookup(h.queues, env.to, EMPTY_BUCKET), h.now, h.clients[id].address, env)]
  {
    assert BlockKey(env.to, h.clients[id].address) == env.to + ":" + h.clients[id].address;
  }

  lemma {:induction false} RouteLeavesQueue(cfg: Config, s: System, e: Event, a: string)
    requires e.RouteMessage? && !Queues(cfg, s.hub, e, a)
    ensures EntriesOf(Step(cfg, s, e).hub.queues, a) == EntriesOf(s.hub.queues, a)
  {
    if IsLive(s.hub, e.id) && !e.limited && e.request.Deliver? {
      DeliverShape(cfg, s, e);
      EnvelopeLeavesQueue(cfg, s.hub, e.id, Envelope(s.log.serial, e.request.to, e.request.body), a);
    } else {
      OtherLeavesQueues(cfg, s, e);
    }
  }

  lemma {:induction false} EnvelopeLeavesQueue(cfg: Config, h: Hub, id: ClientId, env: Envelope, a: string)
    requires id in h.clients
    requires env.to == a ==> !Wanted(h, h.clients[id].address, a) || Reachable(h, a) || QueueFullFor(cfg, h, a)
    ensures EntriesOf(RouteEnvelope(h, cfg.maxPerAgent, id, env).queues, a) == EntriesOf(h.queues, a)
  {
    var sender := h.clients[id].address;
    assert BlockKey(env.to, sender) == env.to + ":" + sender;
    match Dispose(h, cfg.maxPerAgent, sender, env.to) {
      case Refused => SendKeepsRest(h, id, QueueFull(env.to));
      case Direct(r) => SendKeepsRest(h, r, Relayed(env));
      case Queued => assert env.to != a;
      case _ =>
    }
  }

  lemma {:induction false} SendKeepsRest(h: Hub, id: ClientId, f: Frame)
    requires id in h.clients
    ensures var h' := Send(h, id, f); h'.queues == h.queues && h'.table == h.table && h'.blocks == h.blocks
  {
  }

  lemma {:induction false} OtherLeavesQueues(cfg: Config, s: System, e: Event)
    requires e.RouteMessage? && !(IsLive(s.hub, e.id) && !e.limited && e.request.Deliver?)
    ensures Step(cfg, s, e).hub.queues == s.hub.queues
  {
    if IsLive(s.hub, e.id) {
      if e.limited {
        SendKeepsRest(s.hub, e.id, RateLimited);
      } else {
        CommandKeepsQueues(s.hub, cfg.maxPerAgent, e.id, e.request, s.log.serial);
      }
    }
  }

  lemma {:induction false} CommandKeepsQueues(h: Hub, max: int, id: ClientId, request: Request, serial: nat)
    requires id in h.clients && !request.Deliver?
    ensures Route(h, max, id, false, request, serial).queues == h.queues
  {
  }

  /** A command from a client in the table takes effect at once, on its own row. */
  lemma {:induction false} CommandsTakeEffect(cfg: Config, s: System, e: Event)
    requires e.RouteMessage? && IsLive(s.hub, e.id) && !e.limited
    ensures var row, blocks := s.hub.clients[e.id].address + ":", Step(cfg, s, e).hub.blocks;
            match e.request
            case BlockCommand(Some(x)) => blocks == s.hub.blocks + {row + x}
            case UnblockCommand(Some(x)) => blocks == s.hub.blocks - {row + x}
            case _ => blocks == s.hub.blocks
  {
    if e.request.Deliver? {
      RouteEnvelopeKeepsBlocks(s.hub, cfg.maxPerAgent, e.id, Envelope(s.log.serial, e.request.to, e.request.body));
    }
  }

  // ---------- queues ----------

  /** Durability: a queue changes only by routing to it, by a flush to its own client, or by a sweep. */
  lemma {:induction false} QueueChangesBy(cfg: Config, s: System, e: Event, a: string)
    requires EntriesOf(Step(cfg, s, e).hub.queues, a) != EntriesOf(s.hub.queues, a)
    ensures || Queues(cfg, s.hub, e, a)
            || (e.FlushBatch? && e.id in s.hub.clients && s.hub.clients[e.id].address == a &&
                s.hub.clients[e.id].flushing && !s.hub.clients[e.id].cancelled)
            || e.SweepQueues?
  {
    if e.RouteMessage? && !Queues(cfg, s.hub, e, a) {
      RouteLeavesQueue(cfg, s, e, a);
    }
  }

  /** A flush takes the first fifty deliverable entries, and a sweep all that are not deliverable. */
  lemma {:induction false} QueueLoses(cfg: Config, s: System, e: Event, a: string, x: Entry)
    requires Sorted(EntriesOf(s.hub.queues, a)) && x in EntriesOf(s.hub.queues, a)
    requires e.SweepQueues? || (e.FlushBatch? && Flushes(s.hub, e.id, a))
    ensures x !in EntriesOf(Step(cfg, s, e).hub.queues, a) <==>
            if e.SweepQueues? then x.value == Corrupt || s.hub.now - x.value.enqueuedAt > cfg.ttl
            else x in Batch(EntriesOf(s.hub.queues, a), s.hub.now, cfg.ttl, 50)
  {
    var es := EntriesOf(s.hub.queues, a);
    if e.SweepQueues? {
      LiveMembers(es, s.hub.now, cfg.ttl);
    } else {
      var batch := Batch(es, s.hub.now, cfg.ttl, FLUSH_BATCH_SIZE);
      WithoutMembers(es, KeysOf(batch));
      BatchFacts(es, s.hub.now, cfg.ttl, FLUSH_BATCH_SIZE);
      SameKeySameEntry(es, batch, x);
    }
  }

  /** The log of flushed keys: those of the entries taken, in order, and no others. */
  lemma {:induction false} FlushedKeysAre(cfg: Config, s: System, e: Event, a: string)
    ensures var added := if e.FlushBatch? && Flushes(s.hub, e.id, a)
                         then Batch(EntriesOf(s.hub.queues, a), s.hub.now, cfg.ttl, 50) else [];
            LaneOf(Step(cfg, s, e), a).flushedKeys == LaneOf(s, a).flushedKeys + KeySeq(added)
  {
    assert LaneOf(s, a).flushedKeys + [] == LaneOf(s, a).flushedKeys;
    match e {
      case RouteMessage(id, limited, request) =>
        if IsLive(s.hub, id) {
          RoutingFlushesNothing(cfg, s, id, limited, request, a);
        }
      case FlushBatch(id) =>
        if id in s.hub.clients {
          FlushLogsKeys(cfg, s, id, a);
        }
      case _ =>
    }
  }

  lemma {:induction false} RoutingFlushesNothing(cfg: Config, s: System, id: ClientId, limited: bool, request: Request,
                                                 a: string)
    requires id in s.hub.clients
    ensures LaneOf(System(s.hub, LogRoute(cfg, s, id, limited, request)), a).flushedKeys == LaneOf(s, a).flushedKeys
  {
  }

  lemma {:induction false} FlushLogsKeys(cfg: Config, s: System, id: ClientId, a: string)
    requires id in s.hub.clients
    ensures var added := if Flushes(s.hub, id, a)
                         then Batch(EntriesOf(s.hub.queues, a), s.hub.now, cfg.ttl, 50) else [];
            LaneOf(System(s.hub, LogFlush(cfg, s, id)), a).flushedKeys == LaneOf(s, a).flushedKeys + KeySeq(added)
  {
    assert LaneOf(s, a).flushedKeys + [] == LaneOf(s, a).flushedKeys;
  }

  /** The log of clients: who was made and who asked to be registered, each exactly. */
  lemma {:induction false} ClientsLogged(cfg: Config, s: System, e: Event, id: ClientId)
    ensures var log := Step(cfg, s, e).log;
            && (id in log.created <==> id in s.log.created || (e.NewClient? && e.id == id))
            && (id in log.registered <==>
                id in s.log.registered || (e == RegisterClient(id) && !s.hub.stopped && id in s.hub.clients))
  {
    if e.RouteMessage? && IsLive(s.hub, e.id) {
      RoutingLogsNoClient(cfg, s, e.id, e.limited, e.request);
    }
  }

  lemma {:induction false} RoutingLogsNoClient(cfg: Config, s: System, id: ClientId, limited: bool, request: Request)
    requires id in s.hub.clients
    ensures var log := LogRoute(cfg, s, id, limited, request);
            log.created == s.log.created && log.registered == s.log.registered
  {
  }

  ghost predicate Flushes(h: Hub, id: ClientId, a: string) {
    id in h.clients && h.clients[id].address == a && h.clients[id].flushing && !h.clients[id].cancelled
  }

  lemma {:induction false} SameKeySameEntry(es: seq<Entry>, some: seq<Entry>, x: Entry)
    requires Sorted(es) && x in es && forall e :: e in some ==> e in es
    ensures x.key in KeysOf(some) <==> x in some
  {
    if x.key in KeysOf(some) {
      var e :| e in some && e.key == x.key;
      LessIrreflexive(x.key);
      var i :| 0 <= i < |es| && es[i] == e;
      var j :| 0 <= j < |es| && es[j] == x;
    }
  }

  // ---------- clients and the table ----------

  /** The parts of a client's state that only its lifecycle changes. */
  predicate SamePhase(c: ClientState, c': ClientState) {
    c'.address == c.address && c'.flushing == c.flushing && c'.closed == c.closed && c'.cancelled == c.cancelled
  }

  /** The steps in a client's own life. */
  predicate OwnStep(e: Event, id: ClientId) {
    e == RegisterClient(id) || e == UnregisterClient(id) || e == FlushBatch(id) || e == ShutdownHub || e == RestartRelay
  }

  lemma {:induction false} FlushOfOther(h: Hub, ttl: int, f: ClientId, id: ClientId)
    requires f in h.clients && id in h.clients && f != id
    ensures var h' := Flush(h, ttl, f); id in h'.clients && h'.clients[id] == h.clients[id]
  {
  }

  lemma {:induction false} RegisterOfOther(h: Hub, r: ClientId, id: ClientId)
    requires r in h.clients && id in h.clients && r != id
    ensures var h' := Register(h, r); id in h'.clients && h'.clients[id] == h.clients[id]
  {
  }

  lemma {:induction false} WriteKeepsPhase(h: Hub, w: ClientId, id: ClientId)
    requires w in h.clients && id in h.clients
    ensures var h' := Write(h, w); id in h'.clients && SamePhase(h.clients[id], h'.clients[id]) && h'.table == h.table
  {
  }

  /** No other step changes them. */
  lemma {:induction false} OthersKeepPhase(cfg: Config, s: System, e: Event, id: ClientId)
    requires TableOk(s) && id in s.hub.clients && !OwnStep(e, id)
    ensures var h' := Step(cfg, s, e).hub; id in h'.clients && SamePhase(s.hub.clients[id], h'.clients[id])
  {
    match e {
      case RouteMessage(_, _, _) => RouteReplies(cfg, s, e, id);
      case FlushBatch(f) => if f in s.hub.clients { FlushOfOther(s.hub, cfg.ttl, f, id); }
      case RegisterClient(r) => if r in s.hub.clients { RegisterOfOther(s.hub, r, id); }
      case UnregisterClient(u) => UnregisterTouchesOne(s.hub, u, id);
      case WriteFrame(w) => if w in s.hub.clients { WriteKeepsPhase(s.hub, w, id); }
      case NewClient(_, _) => assert ClientOk(s, id);
      case _ =>
    }
  }

  lemma {:induction false} RouteKeepsTable(h: Hub, max: int, id: ClientId, limited: bool, request: Request, serial: nat)
    requires id in h.clients
    ensures Route(h, max, id, limited, request, serial).table == h.table
  {
    if !limited && request.Deliver? {
      EnvelopeKeepsTable(h, max, id, Envelope(serial, request.to, request.body));
    }
  }

  lemma {:induction false} EnvelopeKeepsTable(h: Hub, max: int, id: ClientId, env: Envelope)
    requires id in h.clients
    ensures RouteEnvelope(h, max, id, env).table == h.table
  {
  }

  /** The table changes by register, unregister, shutdown and restart only. */
  lemma {:induction false} TableKept(cfg: Config, s: System, e: Event)
    requires !e.RegisterClient? && !e.UnregisterClient? && e != ShutdownHub && e != RestartRelay
    ensures Step(cfg, s, e).hub.table == s.hub.table
  {
    match e {
      case RouteMessage(id, limited, request) =>
        if IsLive(s.hub, id) {
          RouteKeepsTable(s.hub, cfg.maxPerAgent, id, limited, request, s.log.serial);
        }
      case _ =>
    }
  }

  lemma {:induction false} OrdinaryKeepsLive(cfg: Config, s: System, e: Event, id: ClientId)
    requires TableOk(s) && id in s.hub.clients
    requires !e.RegisterClient? && !e.UnregisterClient? && e != ShutdownHub && e != RestartRelay
    ensures IsLive(Step(cfg, s, e).hub, id) <==> IsLive(s.hub, id)
  {
    TableKept(cfg, s, e);
    if e == FlushBatch(id) {
      FlushKeepsIdentities(s.hub, cfg.ttl, id);
      OwnFlush(s.hub, cfg.ttl, id);
    } else {
      OthersKeepPhase(cfg, s, e, id);
    }
  }

  lemma {:induction false} RegisterEnters(h: Hub, r: ClientId, id: ClientId)
    requires r in h.clients && id in h.clients && !IsLive(h, id)
    ensures IsLive(Register(h, r), id) <==> r == id && h.clients[id].address !in h.table
  {
    if r != id {
      RegisterOfOther(h, r, id);
    }
  }

  /** A client enters the table exactly by registering under a free address while the hub runs. */
  lemma {:induction false} Enters(cfg: Config, s: System, e: Event, id: ClientId)
    requires TableOk(s) && id in s.hub.clients && !IsLive(s.hub, id)
    ensures IsLive(Step(cfg, s, e).hub, id) <==>
            e == RegisterClient(id) && !s.hub.stopped && s.hub.clients[id].address !in s.hub.table
  {
    match e {
      case RegisterClient(r) =>
        if r in s.hub.clients {
          RegisterEnters(s.hub, r, id);
        }
      case UnregisterClient(u) => UnregisterTouchesOne(s.hub, u, id);
      case ShutdownHub =>
      case RestartRelay =>
      case _ => OrdinaryKeepsLive(cfg, s, e, id);
    }
  }

  lemma {:induction false} RegisterKeepsOthers(h: Hub, id: ClientId, other: ClientId)
    requires id in h.clients && IsLive(h, other)
    ensures IsLive(Register(h, id), other)
  {
    if id != other {
      RegisterOfOther(h, id, other);
    }
  }

  /** It leaves exactly by its own unregister while the hub runs, by shutdown, or by a restart. */
  lemma {:induction false} Leaves(cfg: Config, s: System, e: Event, id: ClientId)
    requires TableOk(s) && IsLive(s.hub, id)
    ensures !IsLive(Step(cfg, s, e).hub, id) <==>
            (e == UnregisterClient(id) && !s.hub.stopped) || (e == ShutdownHub && !s.hub.stopped) || e == RestartRelay
  {
    match e {
      case RegisterClient(r) =>
        if r in s.hub.clients {
          RegisterKeepsOthers(s.hub, r, id);
        }
      case UnregisterClient(u) => UnregisterTouchesOne(s.hub, u, id);
      case ShutdownHub =>
      case RestartRelay =>
      case _ => OrdinaryKeepsLive(cfg, s, e, id);
    }
  }

  lemma {:induction false} OwnFlush(h: Hub, ttl: int, id: ClientId)
    requires id in h.clients
    ensures var c, h' := h.clients[id], Flush(h, ttl, id);
            && id in h'.clients && h'.clients[id].closed == c.closed && h'.clients[id].cancelled == c.cancelled
            && (h'.clients[id].flushing <==>
                c.flushing && !c.cancelled && LiveEntries(EntriesOf(h.queues, c.address), h.now, ttl) != [])
  {
  }

  lemma {:induction false} OwnRegister(h: Hub, id: ClientId)
    requires id in h.clients && !h.clients[id].closed
    ensures var c, h' := h.clients[id], Register(h, id);
            && id in h'.clients && h'.clients[id].closed == c.closed && h'.clients[id].cancelled == c.cancelled
            && (h'.clients[id].flushing <==>
                || c.flushing
                || ((c.address in h.table ==> h.table[c.address] == id) && EntriesOf(h.queues, c.address) != []))
  {
  }

  /** A channel is closed, and its client's context cancelled, exactly when the client leaves the table. */
  lemma {:induction false} ClosesExactly(cfg: Config, s: System, e: Event, id: ClientId)
    requires TableOk(s) && EventOk(s, e) && id in s.hub.clients && e != RestartRelay
    ensures var leaves := IsLive(s.hub, id) && !s.hub.stopped && (e == UnregisterClient(id) || e == ShutdownHub);
            && id in Step(cfg, s, e).hub.clients
            && var c, c' := s.hub.clients[id], Step(cfg, s, e).hub.clients[id];
               && (c'.closed <==> c.closed || leaves)
               && (c'.cancelled <==> c.cancelled || leaves || (e == ShutdownHub && !s.hub.stopped))
  {
    if !OwnStep(e, id) {
      OthersKeepPhase(cfg, s, e, id);
    } else if e.FlushBatch? {
      OwnFlush(s.hub, cfg.ttl, id);
    } else if e.RegisterClient? {
      assert ClientOk(s, id);
      OwnRegister(s.hub, id);
    }
  }

  /** A flush begins exactly with a registration that finds something queued. */
  lemma {:induction false} FlushBegins(cfg: Config, s: System, e: Event, id: ClientId)
    requires TableOk(s) && EventOk(s, e) && id in s.hub.clients && e != RestartRelay
    requires !s.hub.clients[id].flushing
    ensures var a, t := s.hub.clients[id].address, s.hub.table;
            && id in Step(cfg, s, e).hub.clients
            && (Step(cfg, s, e).hub.clients[id].flushing <==>
                && e == RegisterClient(id) && !s.hub.stopped
                && (a in t ==> t[a] == id) && EntriesOf(s.hub.queues, a) != [])
  {
    if !OwnStep(e, id) {
      OthersKeepPhase(cfg, s, e, id);
    } else if e.FlushBatch? {
      OwnFlush(s.hub, cfg.ttl, id);
    } else if e.RegisterClient? {
      assert ClientOk(s, id);
      OwnRegister(s.hub, id);
    }
  }

  lemma {:induction false} FlushingIsRegistered(s: System, id: ClientId)
    requires TableOk(s) && id in s.hub.clients && s.hub.clients[id].flushing
    ensures id in s.log.registered
  {
    assert ClientOk(s, id);
  }

  /** It ends exactly with a turn that finds the client gone or nothing deliverable. */
  lemma {:induction false} FlushEnds(cfg: Config, s: System, e: Event, id: ClientId)
    requires TableOk(s) && EventOk(s, e) && id in s.hub.clients && e != RestartRelay
    requires s.hub.clients[id].flushing
    ensures id in Step(cfg, s, e).hub.clients
    ensures !Step(cfg, s, e).hub.clients[id].flushing <==>
            && e == FlushBatch(id)
            && (s.hub.clients[id].cancelled || NothingDeliverable(cfg, s, s.hub.clients[id].address))
  {
    if OwnStep(e, id) {
      FlushingIsRegistered(s, id);
      OwnStepEnds(cfg, s, e, id);
    } else {
      OthersKeepPhase(cfg, s, e, id);
    }
  }

  lemma {:induction false} OwnStepEnds(cfg: Config, s: System, e: Event, id: ClientId)
    requires OwnStep(e, id) && e != RegisterClient(id) && e != RestartRelay
    requires id in s.hub.clients && s.hub.clients[id].flushing
    ensures id in Step(cfg, s, e).hub.clients
    ensures !Step(cfg, s, e).hub.clients[id].flushing <==>
            && e == FlushBatch(id)
            && (s.hub.clients[id].cancelled || NothingDeliverable(cfg, s, s.hub.clients[id].address))
  {
    if e.FlushBatch? {
      OwnFlushEnds(cfg, s, id);
    } else {
      ClosingKeepsFlush(cfg, s, e, id);
    }
  }

  lemma {:induction false} ClosingKeepsFlush(cfg: Config, s: System, e: Event, id: ClientId)
    requires id in s.hub.clients && (e == UnregisterClient(id) || e == ShutdownHub)
    ensures id in Step(cfg, s, e).hub.clients && Step(cfg, s, e).hub.clients[id].flushing == s.hub.clients[id].flushing
  {
  }

  lemma {:induction false} OwnFlushEnds(cfg: Config, s: System, id: ClientId)
    requires id in s.hub.clients && s.hub.clients[id].flushing
    ensures var c, h' := s.hub.clients[id], Flush(s.hub, cfg.ttl, id);
            && id in h'.clients
            && (!h'.clients[id].flushing <==> c.cancelled || NothingDeliverable(cfg, s, c.address))
  {
    OwnFlush(s.hub, cfg.ttl, id);
    EmptyLive(EntriesOf(s.hub.queues, s.hub.clients[id].address), s.hub.now, cfg.ttl);
  }

  ghost predicate NothingDeliverable(cfg: Config, s: System, a: string) {
    forall x :: x in EntriesOf(s.hub.queues, a) ==> x.value == Corrupt || s.hub.now - x.value.enqueuedAt > cfg.ttl
  }

  lemma {:induction false} EmptyLive(es: seq<Entry>, now: int, ttl: int)
    ensures LiveEntries(es, now, ttl) == [] <==> forall e :: e in es ==> !Live(e, now, ttl)
  {
    LiveMembers(es, now, ttl);
    if LiveEntries(es, now, ttl) != [] {
      assert LiveEntries(es, now, ttl)[0] in LiveEntries(es, now, ttl);
    }
  }

  /** What a new client starts as, and what a restart keeps. */
  lemma {:induction false} FreshStarts(cfg: Config, s: System, id: ClientId, key: PublicKey)
    ensures id !in s.log.created ==>
              var h := Step(cfg, s, NewClient(id, key)).hub;
              h == s.hub.(clients := h.clients) && id in h.clients &&
              h.clients[id] ==
              ClientState(GenerateAddress(cfg.sha, key, cfg.host), key, [], false, false, s.hub.stopped)
    ensures var h := Step(cfg, s, RestartRelay).hub;
            h.queues == s.hub.queues && h.blocks == s.hub.blocks && h.now == s.hub.now && !h.stopped &&
            h.table == map[] && h.clients == map[]
    ensures !s.hub.stopped ==>
              var h := Step(cfg, s, ShutdownHub).hub;
              h.stopped && h.queues == s.hub.queues && h.blocks == s.hub.blocks && h.table == map[]
  {
  }

  /** The fault that the lifecycle theorem excludes: a send on, or a second close of, a closed channel. */
  lemma {:induction false} PanicsExactly(h: Hub, ttl: int, id: ClientId, f: Frame)
    requires id in h.clients
    ensures Send(h, id, f).panicked <==> h.panicked || h.clients[id].closed
    ensures Unregister(h, id).panicked <==> h.panicked || (IsLive(h, id) && h.clients[id].closed)
    ensures Shutdown(h).panicked <==> h.panicked || exists c :: c in h.clients && IsLive(h, c) && h.clients[c].closed
    ensures var c := h.clients[id];
            c.flushing && !c.cancelled && Batch(EntriesOf(h.queues, c.address), h.now, ttl, 50) != [] ==>
              (Flush(h, ttl, id).panicked <==> h.panicked || c.closed)
  {
  }

  // ---------- losses ----------

  /** An envelope is dropped only when 256 frames wait for the client it is handed to. */
  lemma {:induction false} DropsOnlyWhenFull(cfg: Config, s: System, e: Event, a: string)
    requires TableOk(s) && LaneOf(Step(cfg, s, e), a).dropped != LaneOf(s, a).dropped
    ensures var h := Step(cfg, s, e).hub;
            exists id :: id in h.clients && h.clients[id].address == a && |h.clients[id].buffer| >= 256
  {
    if e.RouteMessage? {
      DirectDrops(cfg, s, e, a);
    } else {
      assert e.FlushBatch? && e.id in s.hub.clients && s.hub.clients[e.id].address == a;
      FlushDrops(cfg, s, e.id, a);
    }
  }

  lemma {:induction false} FlushDrops(cfg: Config, s: System, id: ClientId, a: string)
    requires TableOk(s) && id in s.hub.clients && s.hub.clients[id].address == a
    requires LaneOf(Step(cfg, s, FlushBatch(id)), a).dropped != LaneOf(s, a).dropped
    ensures var h := Step(cfg, s, FlushBatch(id)).hub;
            id in h.clients && h.clients[id].address == a && |h.clients[id].buffer| >= 256
  {
    assert ClientOk(s, id);
    FlushFillsBuffer(cfg, s, id);
    FlushKeepsIdentities(s.hub, cfg.ttl, id);
    OwnFlush(s.hub, cfg.ttl, id);
  }

  lemma {:induction false} DirectDrops(cfg: Config, s: System, e: Event, a: string)
    requires TableOk(s) && e.RouteMessage? && LaneOf(Step(cfg, s, e), a).dropped != LaneOf(s, a).dropped
    ensures var h := Step(cfg, s, e).hub;
            exists id :: id in h.clients && h.clients[id].address == a && |h.clients[id].buffer| >= 256
  {
    DropIsDirect(cfg, s, e, a);
    var r := s.hub.table[a];
    assert EntryLive(s.hub, a);
    RouteReplies(cfg, s, e, r);
    assert r in Step(cfg, s, e).hub.clients;
  }

  lemma {:induction false} DropIsDirect(cfg: Config, s: System, e: Event, a: string)
    requires e.RouteMessage? && LaneOf(Step(cfg, s, e), a).dropped != LaneOf(s, a).dropped
    ensures Delivers(s.hub, e) && e.request.to == a && Reachable(s.hub, a)
    ensures |s.hub.clients[s.hub.table[a]].buffer| >= SEND_BUFFER_SIZE
  {
    var sender := s.hub.clients[e.id].address;
    assert BlockKey(e.request.to, sender) == e.request.to + ":" + sender;
    assert Dispose(s.hub, cfg.maxPerAgent, sender, e.request.to).Direct?;
  }
}
