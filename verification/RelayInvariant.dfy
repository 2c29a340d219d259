/** The invariant of the relay, and that every step keeps it. */
module RelayInvariant {
  import opened Common
  import opened QueueKeys
  import opened Wire
  import opened MessageQueues
  import opened Identity
  import opened Relay
  import opened Lanes

  /** A live-routed envelope goes straight to this recipient's buffer. */
  predicate Exposed(h: Hub, a: string) {
    a in h.table && h.table[a] in h.clients && !h.clients[h.table[a]].flushing
  }

  ghost predicate ClientOk(s: System, id: ClientId)
    requires id in s.hub.clients
  {
    var h, c := s.hub, s.hub.clients[id];
    && id in s.log.created
    && |c.buffer| <= SEND_BUFFER_SIZE
    && (c.closed ==> c.cancelled)
    && (c.flushing && !c.cancelled ==> IsLive(h, id))
    && (id !in s.log.registered ==> !c.flushing && !c.closed && !IsLive(h, id) && (c.cancelled ==> h.stopped))
  }

  ghost predicate EntryLive(h: Hub, a: string)
    requires a in h.table
  {
    && h.table[a] in h.clients
    && h.clients[h.table[a]].address == a
    && !h.clients[h.table[a]].cancelled
    && !h.clients[h.table[a]].closed
  }

  ghost predicate TableOk(s: System) {
    && !s.hub.panicked
    && 0 <= s.hub.now
    && (s.hub.stopped ==> s.hub.table == map[])
    && (forall a :: a in s.hub.table ==> EntryLive(s.hub, a))
    && (forall id :: id in s.hub.clients ==> ClientOk(s, id))
  }

  ghost predicate LaneInv(cfg: Config, s: System, a: string) {
    LaneOk(BucketOf(s, a), LaneOf(s, a), cfg.maxPerAgent, cfg.ttl, s.hub.now, s.log.serial, Exposed(s.hub, a))
  }

  ghost predicate Inv(cfg: Config, s: System) {
    TableOk(s) && forall a :: LaneInv(cfg, s, a)
  }

  // ---------- frames ----------

  lemma {:induction false} LaneFrame(cfg: Config, s: System, s': System, a: string)
    requires LaneInv(cfg, s, a)
    requires BucketOf(s', a) == BucketOf(s, a) && LaneOf(s', a) == LaneOf(s, a)
    requires s.hub.now <= s'.hub.now && s.log.serial <= s'.log.serial
    requires Exposed(s'.hub, a) ==> Exposed(s.hub, a) || NothingLive(BucketOf(s, a).entries, s.hub.now, cfg.ttl)
    ensures LaneInv(cfg, s', a)
  {
    LaneAdvances(BucketOf(s, a), LaneOf(s, a), cfg.maxPerAgent, cfg.ttl, s.hub.now, s.log.serial, Exposed(s.hub, a),
                 s'.hub.now, s'.log.serial, Exposed(s'.hub, a));
  }

  /** A step that leaves queues and log lanes alone and exposes nobody new. */
  lemma {:induction false} LanesUntouched(cfg: Config, s: System, s': System)
    requires forall a :: LaneInv(cfg, s, a)
    requires s'.hub.queues == s.hub.queues && s'.log.lanes == s.log.lanes
    requires s.hub.now <= s'.hub.now && s.log.serial <= s'.log.serial
    requires forall a :: Exposed(s'.hub, a) ==> Exposed(s.hub, a) || EntriesOf(s.hub.queues, a) == []
    ensures forall a :: LaneInv(cfg, s', a)
  {
    forall a ensures LaneInv(cfg, s', a) {
      LaneFrame(cfg, s, s', a);
    }
  }

  /** One client changes, keeping its place, its channel and its context. */
  lemma {:induction false} TableUpdate(s: System, s': System, id: ClientId, c': ClientState)
    requires TableOk(s) && id in s.hub.clients
    requires s'.hub == s.hub.(clients := s.hub.clients[id := c'], queues := s'.hub.queues)
    requires s'.log.created == s.log.created && s'.log.registered == s.log.registered
    requires var c := s.hub.clients[id];
             c'.address == c.address && c'.closed == c.closed && c'.cancelled == c.cancelled &&
             |c'.buffer| <= SEND_BUFFER_SIZE && (c'.flushing ==> c.flushing)
    ensures TableOk(s')
    ensures forall a :: Exposed(s'.hub, a) ==> Exposed(s.hub, a) || (a == c'.address && !c'.flushing)
  {
    var h, h' := s.hub, s'.hub;
    forall a | a in h'.table ensures EntryLive(h', a) {
      assert EntryLive(h, a);
    }
    forall i | i in h'.clients ensures ClientOk(s', i) {
      assert ClientOk(s, i);
      assert h'.clients[i].address == h.clients[i].address;
    }
    forall a | Exposed(h', a) ensures Exposed(h, a) || (a == c'.address && !c'.flushing) {
      assert EntryLive(h, a);
    }
  }

  lemma {:induction false} SendShape(h: Hub, id: ClientId, f: Frame)
    requires id in h.clients && !h.clients[id].closed && |h.clients[id].buffer| <= SEND_BUFFER_SIZE
    ensures var c := h.clients[id];
            Send(h, id, f) == h.(clients := h.clients[id := c.(buffer := Push(c.buffer, f))]) &&
            |Push(c.buffer, f)| <= SEND_BUFFER_SIZE
  {
  }

  lemma {:induction false} TableSend(s: System, s': System, id: ClientId, f: Frame)
    requires TableOk(s) && id in s.hub.clients && !s.hub.clients[id].closed
    requires s'.hub == Send(s.hub, id, f)
    requires s'.log.created == s.log.created && s'.log.registered == s.log.registered
    ensures TableOk(s') && s'.hub.queues == s.hub.queues && s'.hub.now == s.hub.now
    ensures forall a :: Exposed(s'.hub, a) ==> Exposed(s.hub, a)
  {
    assert ClientOk(s, id);
    SendShape(s.hub, id, f);
    var c := s.hub.clients[id];
    TableUpdate(s, s', id, c.(buffer := Push(c.buffer, f)));
    forall a | Exposed(s'.hub, a) ensures Exposed(s.hub, a) {
      assert EntryLive(s.hub, a);
    }
  }

  // ---------- one lemma per step ----------

  lemma {:induction false} StepNewClient(cfg: Config, s: System, id: ClientId, key: PublicKey)
    requires Inv(cfg, s)
    ensures Inv(cfg, AddClient(cfg, s, id, key))
  {
    var s' := AddClient(cfg, s, id, key);
    if id !in s.log.created {
      forall i | i in s.hub.clients ensures i in s.log.created {
        assert ClientOk(s, i);
      }
      TableInsert(s, s', id, s'.hub.clients[id]);
      LanesUntouched(cfg, s, s');
    }
  }

  lemma {:induction false} TableInsert(s: System, s': System, id: ClientId, c: ClientState)
    requires TableOk(s) && id !in s.hub.clients && id !in s.log.created
    requires s'.hub == s.hub.(clients := s.hub.clients[id := c])
    requires s'.log.created == s.log.created + {id} && s'.log.registered == s.log.registered
    requires c.buffer == [] && !c.flushing && !c.closed && (c.cancelled <==> s.hub.stopped)
    ensures TableOk(s')
    ensures forall a :: Exposed(s'.hub, a) ==> Exposed(s.hub, a)
  {
    var h, h' := s.hub, s'.hub;
    forall a | a in h'.table ensures EntryLive(h', a) && h'.table[a] != id {
      assert EntryLive(h, a);
    }
    forall i | i in h'.clients ensures ClientOk(s', i) {
      assert i != id ==> ClientOk(s, i);
    }
  }

  lemma {:induction false} StepRegister(cfg: Config, s: System, id: ClientId)
    requires Inv(cfg, s) && !s.hub.stopped && id in s.hub.clients && id !in s.log.registered
    ensures Inv(cfg, Step(cfg, s, RegisterClient(id)))
  {
    var h, c := s.hub, s.hub.clients[id];
    var s' := Step(cfg, s, RegisterClient(id));
    assert ClientOk(s, id);
    if c.address in h.table {
      assert h.table[c.address] != id;
      TableSameHub(s, s');
      LanesUntouched(cfg, s, s');
    } else {
      RegisterShape(h, id);
      var c' := Register(h, id).clients[id];
      RegisterTable(s, s', id, c');
      LanesUntouched(cfg, s, s');
    }
  }

  lemma {:induction false} TableSameHub(s: System, s': System)
    requires TableOk(s) && s'.hub == s.hub
    requires s.log.created <= s'.log.created && s.log.registered <= s'.log.registered
    ensures TableOk(s')
  {
    forall i | i in s'.hub.clients ensures ClientOk(s', i) {
      assert ClientOk(s, i);
    }
  }

  /** A first registration: into the table, flushing and told the count exactly when something is queued. */
  lemma {:induction false} RegisterShape(h: Hub, id: ClientId)
    requires id in h.clients && h.clients[id].address !in h.table
    requires !h.clients[id].closed && !h.clients[id].flushing && |h.clients[id].buffer| <= SEND_BUFFER_SIZE
    ensures var c, r := h.clients[id], Register(h, id);
            && id in r.clients
            && r == h.(table := h.table[c.address := id], clients := h.clients[id := r.clients[id]])
            && |r.clients[id].buffer| <= SEND_BUFFER_SIZE
            && r.clients[id].address == c.address
            && r.clients[id].closed == c.closed && r.clients[id].cancelled == c.cancelled
            && (r.clients[id].flushing <==> EntriesOf(h.queues, c.address) != [])
            && r.clients[id].buffer == (if EntriesOf(h.queues, c.address) == [] then c.buffer
                                        else Push(c.buffer, QueueStatus(|EntriesOf(h.queues, c.address)|)))
  {
    var c := h.clients[id];
    if EntriesOf(h.queues, c.address) == [] {
      assert h.clients[id := c] == h.clients;
    } else {
      var count := |EntriesOf(h.queues, c.address)|;
      SendShape(h.(table := h.table[c.address := id]), id, QueueStatus(count));
      var c' := c.(buffer := Push(c.buffer, QueueStatus(count)), flushing := true);
      assert Register(h, id).clients == h.clients[id := c'];
    }
  }

  lemma {:induction false} RegisterTable(s: System, s': System, id: ClientId, c': ClientState)
    requires TableOk(s) && !s.hub.stopped && id in s.hub.clients && id !in s.log.registered
    requires s.hub.clients[id].address !in s.hub.table
    requires s'.hub == s.hub.(table := s.hub.table[c'.address := id], clients := s.hub.clients[id := c'])
    requires s'.log.created == s.log.created && s'.log.registered == s.log.registered + {id}
    requires var c := s.hub.clients[id];
             c'.address == c.address && c'.closed == c.closed && c'.cancelled == c.cancelled &&
             |c'.buffer| <= SEND_BUFFER_SIZE
    ensures TableOk(s')
    ensures forall a :: Exposed(s'.hub, a) ==> Exposed(s.hub, a) || (a == c'.address && !c'.flushing)
  {
    var h, h' := s.hub, s'.hub;
    assert ClientOk(s, id);
    forall a | a in h'.table && a != c'.address ensures EntryLive(h', a) && h'.table[a] == h.table[a] != id {
      assert EntryLive(h, a);
    }
    assert EntryLive(h', c'.address);
    forall i | i in h'.clients ensures ClientOk(s', i) {
      assert ClientOk(s, i);
      assert h'.clients[i].address == h.clients[i].address;
    }
  }

  lemma {:induction false} StepUnregister(cfg: Config, s: System, id: ClientId)
    requires Inv(cfg, s)
    ensures Inv(cfg, s.(hub := Unregister(s.hub, id)))
  {
    var s' := s.(hub := Unregister(s.hub, id));
    if IsLive(s.hub, id) {
      UnregisterTable(s, s', id);
      LanesUntouched(cfg, s, s');
    }
  }

  lemma {:induction false} UnregisterTable(s: System, s': System, id: ClientId)
    requires TableOk(s) && IsLive(s.hub, id) && s' == s.(hub := Unregister(s.hub, id))
    ensures TableOk(s')
    ensures forall a :: Exposed(s'.hub, a) ==> Exposed(s.hub, a)
  {
    var h, h', c := s.hub, s'.hub, s.hub.clients[id];
    assert EntryLive(h, c.address) && ClientOk(s, id);
    forall a | a in h'.table ensures EntryLive(h', a) && h'.table[a] != id {
      assert EntryLive(h, a);
    }
    forall i | i in h'.clients ensures ClientOk(s', i) {
      assert ClientOk(s, i);
      assert h'.clients[i].address == h.clients[i].address;
    }
  }

  lemma {:induction false} StepShutdown(cfg: Config, s: System)
    requires Inv(cfg, s)
    ensures Inv(cfg, s.(hub := Shutdown(s.hub)))
  {
    var s' := s.(hub := Shutdown(s.hub));
    forall id | id in s.hub.clients && IsLive(s.hub, id) ensures !s.hub.clients[id].closed {
      assert EntryLive(s.hub, s.hub.clients[id].address);
    }
    forall i | i in s'.hub.clients ensures ClientOk(s', i) {
      assert ClientOk(s, i);
    }
    LanesUntouched(cfg, s, s');
  }

  lemma {:induction false} StepWrite(cfg: Config, s: System, id: ClientId)
    requires Inv(cfg, s) && id in s.hub.clients
    ensures Inv(cfg, s.(hub := Write(s.hub, id)))
  {
    var s' := s.(hub := Write(s.hub, id));
    var c := s.hub.clients[id];
    if c.buffer != [] {
      assert ClientOk(s, id);
      TableUpdate(s, s', id, c.(buffer := c.buffer[1..]));
      forall a | Exposed(s'.hub, a) ensures Exposed(s.hub, a) {
        assert EntryLive(s.hub, a);
      }
      LanesUntouched(cfg, s, s');
    }
  }

  lemma {:induction false} StepTick(cfg: Config, s: System, time: int64)
    requires Inv(cfg, s) && s.hub.now <= time
    ensures Inv(cfg, s.(hub := s.hub.(now := time)))
  {
    var s' := s.(hub := s.hub.(now := time));
    forall i | i in s'.hub.clients ensures ClientOk(s', i) {
      assert ClientOk(s, i);
    }
    forall a | a in s'.hub.table ensures EntryLive(s'.hub, a) {
      assert EntryLive(s.hub, a);
    }
    LanesUntouched(cfg, s, s');
  }

  lemma {:induction false} StepRestart(cfg: Config, s: System)
    requires Inv(cfg, s)
    ensures Inv(cfg, s.(hub := Restart(s.hub)))
  {
    LanesUntouched(cfg, s, s.(hub := Restart(s.hub)));
  }

  lemma {:induction false} StepSweep(cfg: Config, s: System)
    requires Inv(cfg, s)
    ensures Inv(cfg, Step(cfg, s, SweepQueues))
  {
    var s' := Step(cfg, s, SweepQueues);
    forall i | i in s'.hub.clients ensures ClientOk(s', i) {
      assert ClientOk(s, i);
    }
    forall a | a in s'.hub.table ensures EntryLive(s'.hub, a) {
      assert EntryLive(s.hub, a);
    }
    forall a ensures LaneInv(cfg, s', a) {
      assert LaneInv(cfg, s, a);
      LaneSweeps(BucketOf(s, a), LaneOf(s, a), cfg.maxPerAgent, cfg.ttl, s.hub.now, s.log.serial, Exposed(s.hub, a));
      SweepShape(cfg, s, a);
    }
  }

  lemma {:induction false} SweepShape(cfg: Config, s: System, a: string)
    ensures var s' := Step(cfg, s, SweepQueues);
            var b, lane := BucketOf(s, a), LaneOf(s, a);
            && BucketOf(s', a) == SweptBucket(b, s.hub.now, cfg.ttl)
            && LaneOf(s', a) == lane.(swept := lane.swept + EnvelopesOf(DeadEntries(b.entries, s.hub.now, cfg.ttl)))
            && (Exposed(s'.hub, a) <==> Exposed(s.hub, a))
  {
    var lane := LaneOf(s, a);
    assert lane.swept + [] == lane.swept;
  }

  lemma {:induction false} PushAllFits(buffer: seq<Frame>, fs: seq<Frame>)
    requires |buffer| <= SEND_BUFFER_SIZE
    ensures PushAll(buffer, fs) == buffer + Take(fs, SEND_BUFFER_SIZE - |buffer|)
    decreases fs
  {
    if fs != [] {
      PushAllFits(Push(buffer, fs[0]), fs[1..]);
      if |buffer| < SEND_BUFFER_SIZE {
        assert Take(fs, SEND_BUFFER_SIZE - |buffer|) == [fs[0]] + Take(fs[1..], SEND_BUFFER_SIZE - |buffer| - 1);
      }
    }
  }

  lemma {:induction false} StepFlush(cfg: Config, s: System, id: ClientId)
    requires Inv(cfg, s) && id in s.hub.clients
    ensures Inv(cfg, Step(cfg, s, FlushBatch(id)))
  {
    var c := s.hub.clients[id];
    assert ClientOk(s, id);
    if c.flushing {
      if c.cancelled {
        FlushAborts(cfg, s, id);
      } else {
        FlushTable(cfg, s, id);
        FlushLanes(cfg, s, id);
      }
    }
  }

  lemma {:induction false} FlushAborts(cfg: Config, s: System, id: ClientId)
    requires Inv(cfg, s) && id in s.hub.clients && s.hub.clients[id].flushing && s.hub.clients[id].cancelled
    ensures Inv(cfg, Step(cfg, s, FlushBatch(id)))
  {
    var s' := Step(cfg, s, FlushBatch(id));
    TableUpdate(s, s', id, s.hub.clients[id].(flushing := false));
    forall a | Exposed(s'.hub, a) ensures Exposed(s.hub, a) {
      assert EntryLive(s.hub, a);
    }
    LanesUntouched(cfg, s, s');
  }

  lemma {:induction false} FlushTable(cfg: Config, s: System, id: ClientId)
    requires TableOk(s) && id in s.hub.clients && s.hub.clients[id].flushing && !s.hub.clients[id].cancelled
    ensures TableOk(Step(cfg, s, FlushBatch(id)))
    ensures var c := s.hub.clients[id];
            forall a :: a != c.address && Exposed(Step(cfg, s, FlushBatch(id)).hub, a) ==> Exposed(s.hub, a)
  {
    var s' := Step(cfg, s, FlushBatch(id));
    var c := s.hub.clients[id];
    var batch := Batch(EntriesOf(s.hub.queues, c.address), s.hub.now, cfg.ttl, FLUSH_BATCH_SIZE);
    assert ClientOk(s, id);
    if batch == [] {
      TableUpdate(s, s', id, c.(flushing := false));
    } else {
      PushAllFits(c.buffer, Frames(EnvelopesOf(batch)));
      TableUpdate(s, s', id, c.(buffer := PushAll(c.buffer, Frames(EnvelopesOf(batch)))));
    }
  }

  lemma {:induction false} EmptyBatch(es: seq<Entry>, now: int, ttl: int)
    requires Batch(es, now, ttl, FLUSH_BATCH_SIZE) == []
    ensures NothingLive(es, now, ttl)
  {
    LiveMembers(es, now, ttl);
  }

  lemma {:induction false} FlushLanes(cfg: Config, s: System, id: ClientId)
    requires Inv(cfg, s) && id in s.hub.clients && s.hub.clients[id].flushing && !s.hub.clients[id].cancelled
    ensures forall a :: LaneInv(cfg, Step(cfg, s, FlushBatch(id)), a)
  {
    var s' := Step(cfg, s, FlushBatch(id));
    FlushTable(cfg, s, id);
    forall a ensures LaneInv(cfg, s', a) {
      assert LaneInv(cfg, s, a);
      if a != s.hub.clients[id].address {
        LaneFrame(cfg, s, s', a);
      } else {
        FlushLane(cfg, s, id);
      }
    }
  }

  lemma {:induction false} FlushLane(cfg: Config, s: System, id: ClientId)
    requires TableOk(s) && id in s.hub.clients && s.hub.clients[id].flushing && !s.hub.clients[id].cancelled
    requires LaneInv(cfg, s, s.hub.clients[id].address)
    ensures LaneInv(cfg, Step(cfg, s, FlushBatch(id)), s.hub.clients[id].address)
  {
    assert ClientOk(s, id) && EntryLive(s.hub, s.hub.clients[id].address);
    FlushShape(cfg, s, id);
    FlushedLane(cfg, s, Step(cfg, s, FlushBatch(id)), s.hub.clients[id].address, |s.hub.clients[id].buffer|);
  }

  /** What one flush iteration changes for its recipient. */
  ghost predicate FlushedStep(cfg: Config, s: System, s': System, a: string, buffered: nat) {
    var b := BucketOf(s, a);
    var batch := Batch(b.entries, s.hub.now, cfg.ttl, FLUSH_BATCH_SIZE);
    var lane := Hand(LaneOf(s, a), EnvelopesOf(batch), buffered);
    && !Exposed(s.hub, a)
    && (Exposed(s'.hub, a) ==> batch == [])
    && s'.hub.now == s.hub.now && s'.log.serial == s.log.serial
    && BucketOf(s', a) == Bucket(b.sequence, Without(b.entries, KeysOf(batch)))
    && LaneOf(s', a) == lane.(flushedKeys := lane.flushedKeys + KeySeq(batch))
  }

  lemma {:induction false} FlushShape(cfg: Config, s: System, id: ClientId)
    requires IsLive(s.hub, id) && s.hub.clients[id].flushing && !s.hub.clients[id].cancelled
    ensures FlushedStep(cfg, s, Step(cfg, s, FlushBatch(id)), s.hub.clients[id].address, |s.hub.clients[id].buffer|)
  {
    var b := BucketOf(s, s.hub.clients[id].address);
    var batch := Batch(b.entries, s.hub.now, cfg.ttl, FLUSH_BATCH_SIZE);
    if batch == [] {
      assert KeysOf(batch) == {};
      WithoutNothing(b.entries);
    }
  }

  lemma {:induction false} FlushedLane(cfg: Config, s: System, s': System, a: string, buffered: nat)
    requires LaneInv(cfg, s, a) && FlushedStep(cfg, s, s', a, buffered)
    ensures LaneInv(cfg, s', a)
  {
    var b := BucketOf(s, a);
    var batch := Batch(b.entries, s.hub.now, cfg.ttl, FLUSH_BATCH_SIZE);
    LaneFlushes(b, LaneOf(s, a), cfg.maxPerAgent, cfg.ttl, s.hub.now, s.log.serial, FLUSH_BATCH_SIZE, buffered);
    if batch == [] {
      EmptyBatch(b.entries, s.hub.now, cfg.ttl);
      assert KeysOf(batch) == {};
      WithoutNothing(b.entries);
    }
  }

  lemma {:induction false} StepRoute(cfg: Config, s: System, id: ClientId, limited: bool, request: Request)
    requires Inv(cfg, s) && IsLive(s.hub, id)
    requires EventOk(s, RouteMessage(id, limited, request))
    ensures Inv(cfg, Step(cfg, s, RouteMessage(id, limited, request)))
  {
    var s' := Step(cfg, s, RouteMessage(id, limited, request));
    assert EntryLive(s.hub, s.hub.clients[id].address);
    if limited {
      TableSend(s, s', id, RateLimited);
      LanesUntouched(cfg, s, s');
    } else if request.Deliver? {
      RouteDeliver(cfg, s, id, request.to, request.body);
    } else {
      BlocksOnly(cfg, s, s');
    }
  }

  lemma {:induction false} BlocksOnly(cfg: Config, s: System, s': System)
    requires Inv(cfg, s)
    requires s'.hub == s.hub.(blocks := s'.hub.blocks) && s'.log == s.log.(pairs := s'.log.pairs)
    ensures Inv(cfg, s')
  {
    forall i | i in s'.hub.clients ensures ClientOk(s', i) {
      assert ClientOk(s, i);
    }
    forall a | a in s'.hub.table ensures EntryLive(s'.hub, a) {
      assert EntryLive(s.hub, a);
    }
    LanesUntouched(cfg, s, s');
  }

  /** Same clients and table: only queues, lanes and the serial differ. */
  lemma {:induction false} TableCarries(s: System, s': System)
    requires TableOk(s)
    requires s'.hub == s.hub.(queues := s'.hub.queues)
    requires s'.log.created == s.log.created && s'.log.registered == s.log.registered
    ensures TableOk(s')
    ensures forall a :: Exposed(s'.hub, a) <==> Exposed(s.hub, a)
  {
    forall i | i in s'.hub.clients ensures ClientOk(s', i) {
      assert ClientOk(s, i);
    }
    forall a | a in s'.hub.table ensures EntryLive(s'.hub, a) {
      assert EntryLive(s.hub, a);
    }
  }

  lemma {:induction false} RouteDeliver(cfg: Config, s: System, id: ClientId, to: string, body: Body)
    requires Inv(cfg, s) && IsLive(s.hub, id) && BucketOf(s, to).sequence + 1 < TWO_64
    ensures Inv(cfg, Step(cfg, s, RouteMessage(id, false, Deliver(to, body))))
  {
    var s' := Step(cfg, s, RouteMessage(id, false, Deliver(to, body)));
    assert EntryLive(s.hub, s.hub.clients[id].address);
    match Dispose(s.hub, cfg.maxPerAgent, s.hub.clients[id].address, to) {
      case Refused => RouteRefused(cfg, s, id, to, body);
      case Queued =>
        QueuedShape(cfg, s, id, to, body);
        RouteQueued(cfg, s, s', s.hub.clients[id].address, Envelope(s.log.serial, to, body));
      case Direct(_) =>
        DirectShape(cfg, s, id, to, body);
        RouteDirect(cfg, s, s', Envelope(s.log.serial, to, body));
      case _ => RouteDropped(cfg, s, id, to, body);
    }
  }

  lemma {:induction false} RouteRefused(cfg: Config, s: System, id: ClientId, to: string, body: Body)
    requires Inv(cfg, s) && IsLive(s.hub, id)
    requires Dispose(s.hub, cfg.maxPerAgent, s.hub.clients[id].address, to) == Refused
    ensures Inv(cfg, Step(cfg, s, RouteMessage(id, false, Deliver(to, body))))
  {
    var s' := Step(cfg, s, RouteMessage(id, false, Deliver(to, body)));
    assert EntryLive(s.hub, s.hub.clients[id].address);
    TableSend(s, s', id, QueueFull(to));
    LanesUntouched(cfg, s, s');
  }

  lemma {:induction false} RouteDropped(cfg: Config, s: System, id: ClientId, to: string, body: Body)
    requires Inv(cfg, s) && IsLive(s.hub, id)
    requires Dispose(s.hub, cfg.maxPerAgent, s.hub.clients[id].address, to) in {Ignored, Blocked}
    ensures Inv(cfg, Step(cfg, s, RouteMessage(id, false, Deliver(to, body))))
  {
    var s' := Step(cfg, s, RouteMessage(id, false, Deliver(to, body)));
    DroppedShape(cfg, s, id, to, body);
    TableSameHub(s, s');
    LanesUntouched(cfg, s, s');
  }

  lemma {:induction false} DroppedShape(cfg: Config, s: System, id: ClientId, to: string, body: Body)
    requires IsLive(s.hub, id)
    requires Dispose(s.hub, cfg.maxPerAgent, s.hub.clients[id].address, to) in {Ignored, Blocked}
    ensures Step(cfg, s, RouteMessage(id, false, Deliver(to, body)))
         == System(s.hub, s.log.(serial := s.log.serial + 1))
  {
  }

  /** Only the lane of `to` differs. */
  lemma {:induction false} LanesExcept(cfg: Config, s: System, s': System, to: string)
    requires forall a :: LaneInv(cfg, s, a)
    requires LaneInv(cfg, s', to)
    requires forall a :: a != to ==> BucketOf(s', a) == BucketOf(s, a) && LaneOf(s', a) == LaneOf(s, a)
    requires s.hub.now == s'.hub.now && s.log.serial <= s'.log.serial
    requires forall a :: Exposed(s'.hub, a) ==> Exposed(s.hub, a)
    ensures forall a :: LaneInv(cfg, s', a)
  {
    forall a ensures LaneInv(cfg, s', a) {
      assert LaneInv(cfg, s, a);
      if a != to {
        LaneFrame(cfg, s, s', a);
      }
    }
  }

  lemma {:induction false} QueuedShape(cfg: Config, s: System, id: ClientId, to: string, body: Body)
    requires IsLive(s.hub, id) && Dispose(s.hub, cfg.maxPerAgent, s.hub.clients[id].address, to) == Queued
    ensures var s' := Step(cfg, s, RouteMessage(id, false, Deliver(to, body)));
            QueuedStep(cfg, s, s', s.hub.clients[id].address, Envelope(s.log.serial, to, body))
  {
  }

  /** What a routing call that ends in the queue changes. */
  ghost predicate QueuedStep(cfg: Config, s: System, s': System, sender: string, env: Envelope) {
    var b, lane := BucketOf(s, env.to), LaneOf(s, env.to);
    && env.serial == s.log.serial
    && !Exposed(s.hub, env.to)
    && |b.entries| < cfg.maxPerAgent
    && s'.hub == s.hub.(queues := s.hub.queues[env.to := Enqueued(b, s.hub.now, sender, env)])
    && s'.log == s.log.(serial := s.log.serial + 1,
                        lanes := s.log.lanes[env.to := lane.(admitted := lane.admitted + [env])])
  }

  lemma {:induction false} RouteQueued(cfg: Config, s: System, s': System, sender: string, env: Envelope)
    requires Inv(cfg, s) && BucketOf(s, env.to).sequence + 1 < TWO_64 && QueuedStep(cfg, s, s', sender, env)
    ensures Inv(cfg, s')
  {
    TableCarries(s, s');
    assert LaneInv(cfg, s, env.to);
    QueuedLane(cfg, s, s', sender, env);
    LanesExcept(cfg, s, s', env.to);
  }

  lemma {:induction false} QueuedLane(cfg: Config, s: System, s': System, sender: string, env: Envelope)
    requires 0 <= s.hub.now && LaneInv(cfg, s, env.to) && BucketOf(s, env.to).sequence + 1 < TWO_64
    requires QueuedStep(cfg, s, s', sender, env)
    ensures LaneInv(cfg, s', env.to)
  {
    LaneEnqueues(BucketOf(s, env.to), LaneOf(s, env.to), cfg.maxPerAgent, cfg.ttl, s.hub.now, s.log.serial, sender,
                 env);
  }

  lemma {:induction false} DirectShape(cfg: Config, s: System, id: ClientId, to: string, body: Body)
    requires IsLive(s.hub, id) && Dispose(s.hub, cfg.maxPerAgent, s.hub.clients[id].address, to).Direct?
    ensures var s' := Step(cfg, s, RouteMessage(id, false, Deliver(to, body)));
            DirectStep(s, s', Envelope(s.log.serial, to, body))
  {
  }

  /** What a routing call that reaches the recipient's buffer changes. */
  ghost predicate DirectStep(s: System, s': System, env: Envelope) {
    && Exposed(s.hub, env.to)
    && env.serial == s.log.serial
    && var r, lane := s.hub.table[env.to], LaneOf(s, env.to);
       && s'.hub == Send(s.hub, r, Relayed(env))
       && s'.log == s.log.(serial := s.log.serial + 1,
                           lanes := s.log.lanes[env.to := Hand(lane.(admitted := lane.admitted + [env]), [env],
                                                               |s.hub.clients[r].buffer|)])
  }

  lemma {:induction false} RouteDirect(cfg: Config, s: System, s': System, env: Envelope)
    requires Inv(cfg, s) && DirectStep(s, s', env)
    ensures Inv(cfg, s')
  {
    DirectTable(s, s', env);
    DirectFrame(s, s', env);
    assert LaneInv(cfg, s, env.to);
    DirectLane(cfg, s, s', env, |s.hub.clients[s.hub.table[env.to]].buffer|);
    LanesExcept(cfg, s, s', env.to);
  }

  lemma {:induction false} DirectTable(s: System, s': System, env: Envelope)
    requires TableOk(s) && DirectStep(s, s', env)
    ensures TableOk(s') && forall a :: Exposed(s'.hub, a) ==> Exposed(s.hub, a)
  {
    assert EntryLive(s.hub, env.to);
    TableSend(s, s', s.hub.table[env.to], Relayed(env));
  }

  lemma {:induction false} DirectFrame(s: System, s': System, env: Envelope)
    requires DirectStep(s, s', env)
    ensures DirectLaneStep(s, s', env, |s.hub.clients[s.hub.table[env.to]].buffer|)
    ensures forall a :: a != env.to ==> BucketOf(s', a) == BucketOf(s, a) && LaneOf(s', a) == LaneOf(s, a)
  {
  }

  ghost predicate DirectLaneStep(s: System, s': System, env: Envelope, buffered: nat) {
    var lane := LaneOf(s, env.to);
    && env.serial == s.log.serial
    && s'.hub.now == s.hub.now && s'.log.serial == s.log.serial + 1
    && Exposed(s.hub, env.to) && Exposed(s'.hub, env.to)
    && BucketOf(s', env.to) == BucketOf(s, env.to)
    && LaneOf(s', env.to) == Hand(lane.(admitted := lane.admitted + [env]), [env], buffered)
  }

  lemma {:induction false} DirectLane(cfg: Config, s: System, s': System, env: Envelope, buffered: nat)
    requires LaneInv(cfg, s, env.to) && DirectLaneStep(s, s', env, buffered)
    ensures LaneInv(cfg, s', env.to)
  {
    LaneDirect(BucketOf(s, env.to), LaneOf(s, env.to), cfg.maxPerAgent, cfg.ttl, s.hub.now, s.log.serial, env,
               buffered);
  }

  // ---------- all runs ----------

  lemma {:induction false} StepInv(cfg: Config, s: System, e: Event)
    requires Inv(cfg, s) && EventOk(s, e)
    ensures Inv(cfg, Step(cfg, s, e))
  {
    match e {
      case NewClient(id, key) => StepNewClient(cfg, s, id, key);
      case RegisterClient(id) => if !s.hub.stopped && id in s.hub.clients { StepRegister(cfg, s, id); }
      case UnregisterClient(id) => StepUnregister(cfg, s, id);
      case RouteMessage(id, limited, request) => if IsLive(s.hub, id) { StepRoute(cfg, s, id, limited, request); }
      case FlushBatch(id) => if id in s.hub.clients { StepFlush(cfg, s, id); }
      case WriteFrame(id) => if id in s.hub.clients { StepWrite(cfg, s, id); }
      case SweepQueues => StepSweep(cfg, s);
      case Tick(time) => StepTick(cfg, s, time);
      case ShutdownHub => StepShutdown(cfg, s);
      case RestartRelay => StepRestart(cfg, s);
    }
  }

  lemma {:induction false} InitialInv(cfg: Config)
    ensures Inv(cfg, INITIAL)
  {
  }

  lemma {:induction false} RunInv(cfg: Config, events: seq<Event>)
    requires RunOk(cfg, INITIAL, events)
    ensures Inv(cfg, Run(cfg, INITIAL, events))
  {
    if events == [] {
      InitialInv(cfg);
    } else {
      var before := events[..|events| - 1];
      RunInv(cfg, before);
      StepInv(cfg, Run(cfg, INITIAL, before), events[|events| - 1]);
    }
  }
}
