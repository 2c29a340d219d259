/** What the relay guarantees in every run (see `EventOk` for the assumptions on runs). */
module RelayTheorems {
  import opened Common
  import opened QueueKeys
  import opened Wire
  import opened MessageQueues
  import opened BlockStores
  import opened Identity
  import opened Relay
  import opened Lanes
  import opened RelayInvariant

  // ---------- order ----------

  lemma {:induction false} SubsequenceOf(xs: seq<Envelope>, ys: seq<Envelope>)
    requires Increasing(xs) && Increasing(ys)
    requires forall x :: x in xs ==> x in ys
    ensures IsSubsequence(xs, ys)
    decreases ys
  {
    if xs != [] {
      assert xs[0] in ys;
      if xs[0] == ys[0] {
        forall x | x in xs[1..] ensures x in ys[1..] {
          assert x in ys && x != ys[0];
        }
        SubsequenceOf(xs[1..], ys[1..]);
      } else {
        assert ys[0] !in xs by {
          var j :| 0 <= j < |ys| && ys[j] == xs[0];
          assert ys[0].serial < xs[0].serial;
        }
        SubsequenceOf(xs, ys[1..]);
      }
    }
  }

  /**
    Order preservation: what is handed to a recipient's clients, by flushing and by live
    routing together, across any number of disconnects, reconnects and restarts, is a
    subsequence of what routing admitted for it, and what reaches the send buffers is a
    subsequence of that.
   */
  lemma {:induction false} OrderPreserved(cfg: Config, events: seq<Event>, a: string)
    requires RunOk(cfg, INITIAL, events)
    ensures var lane := LaneOf(Run(cfg, INITIAL, events), a);
            && IsSubsequence(lane.handed, lane.admitted)
            && IsSubsequence(lane.placed, lane.handed)
            && Increasing(lane.admitted)
  {
    RunInv(cfg, events);
    var s := Run(cfg, INITIAL, events);
    var lane := LaneOf(s, a);
    assert LaneInv(cfg, s, a);
    forall x | x in lane.handed ensures x in lane.admitted {
      assert x in multiset(lane.admitted);
    }
    SubsequenceOf(lane.handed, lane.admitted);
    forall x | x in lane.placed ensures x in lane.handed {
      assert x in multiset(lane.handed);
    }
    SubsequenceOf(lane.placed, lane.handed);
  }

  /** A client in the table that is not flushing has nothing deliverable queued. */
  lemma {:induction false} OnlineMeansDrained(cfg: Config, events: seq<Event>, a: string)
    requires RunOk(cfg, INITIAL, events)
    ensures var h := Run(cfg, INITIAL, events).hub;
            a in h.table && h.table[a] in h.clients && !h.clients[h.table[a]].flushing ==>
            LiveEntries(EntriesOf(h.queues, a), h.now, cfg.ttl) == []
  {
    RunInv(cfg, events);
    var s := Run(cfg, INITIAL, events);
    assert LaneInv(cfg, s, a);
    LiveMembers(EntriesOf(s.hub.queues, a), s.hub.now, cfg.ttl);
    var live := LiveEntries(EntriesOf(s.hub.queues, a), s.hub.now, cfg.ttl);
    assert live != [] ==> live[0] in live;
  }

  /** The keys flushed to a recipient strictly increase over the whole run, so none is flushed twice. */
  lemma {:induction false} FlushedKeysIncrease(cfg: Config, events: seq<Event>, a: string)
    requires RunOk(cfg, INITIAL, events)
    ensures var keys := LaneOf(Run(cfg, INITIAL, events), a).flushedKeys;
            && KeysIncreasing(keys)
            && (forall i, j :: 0 <= i < j < |keys| ==> keys[i] != keys[j])
  {
    RunInv(cfg, events);
    var s := Run(cfg, INITIAL, events);
    assert LaneInv(cfg, s, a);
    var keys := LaneOf(s, a).flushedKeys;
    forall i, j | 0 <= i < j < |keys| ensures keys[i] != keys[j] {
      LessIrreflexive(keys[i]);
    }
  }

  // ---------- who gets what ----------

  /** A routing call admits its envelope to the addressee exactly when this holds. */
  ghost predicate Admissible(cfg: Config, h: Hub, sender: string, to: string) {
    && to != ""
    && BlockKey(to, sender) !in h.blocks
    && (Exposed(h, to) || |EntriesOf(h.queues, to)| < cfg.maxPerAgent)
  }

  lemma {:induction false} RoutingDecides(cfg: Config, s: System, id: ClientId, to: string, body: Body, a: string)
    requires IsLive(s.hub, id)
    ensures var s' := Step(cfg, s, RouteMessage(id, false, Deliver(to, body)));
            LaneOf(s', a).admitted == LaneOf(s, a).admitted
              + (if a == to && Admissible(cfg, s.hub, s.hub.clients[id].address, to)
                 then [Envelope(s.log.serial, to, body)] else [])
  {
    assert LaneOf(s, a).admitted + [] == LaneOf(s, a).admitted;
  }

  /** Every admitted envelope is addressed to the lane's recipient. */
  lemma {:induction false} AdmittedAddressed(cfg: Config, events: seq<Event>, a: string, x: Envelope)
    requires x in LaneOf(Run(cfg, INITIAL, events), a).admitted
    ensures x.to == a
  {
    if events != [] {
      var s, e := Run(cfg, INITIAL, events[..|events| - 1]), events[|events| - 1];
      if x in LaneOf(s, a).admitted {
        AdmittedAddressed(cfg, events[..|events| - 1], a, x);
      } else {
        AdmittedOnlyByRouting(cfg, s, e, a);
        RoutingDecides(cfg, s, e.id, e.request.to, e.request.body, a);
      }
    }
  }

  /** Nothing is handed to a recipient that was not routed to it. */
  lemma {:induction false} HandedAddressed(cfg: Config, events: seq<Event>, a: string, x: Envelope)
    requires RunOk(cfg, INITIAL, events) && x in LaneOf(Run(cfg, INITIAL, events), a).handed
    ensures x.to == a && x in LaneOf(Run(cfg, INITIAL, events), a).admitted
  {
    RunInv(cfg, events);
    var s := Run(cfg, INITIAL, events);
    assert LaneInv(cfg, s, a);
    assert x in multiset(LaneOf(s, a).handed) && x in multiset(LaneOf(s, a).admitted);
    AdmittedAddressed(cfg, events, a, x);
  }

  // ---------- conservation and capacity ----------

  lemma {:induction false} IncreasingOnce(xs: seq<Envelope>, x: Envelope)
    requires Increasing(xs)
    ensures multiset(xs)[x] <= 1
  {
    if xs != [] {
      var rest := xs[1..];
      IncreasingOnce(rest, x);
      assert xs == [xs[0]] + rest;
      if x == xs[0] {
        assert x !in rest;
      }
    }
  }

  /**
    Conservation: every envelope admitted for a recipient is in exactly one of its queue, a
    send buffer, the envelopes a full buffer dropped, and the envelopes swept.
   */
  lemma {:induction false} EnvelopesConserved(cfg: Config, events: seq<Event>, a: string, x: Envelope)
    requires RunOk(cfg, INITIAL, events)
    ensures var s := Run(cfg, INITIAL, events);
            var lane := LaneOf(s, a);
            var where := multiset(EnvelopesOf(BucketOf(s, a).entries))[x] + multiset(lane.placed)[x]
                       + multiset(lane.dropped)[x] + multiset(lane.swept)[x];
            where == (if x in lane.admitted then 1 else 0)
  {
    RunInv(cfg, events);
    var s := Run(cfg, INITIAL, events);
    assert LaneInv(cfg, s, a);
    IncreasingOnce(LaneOf(s, a).admitted, x);
    assert x in LaneOf(s, a).admitted <==> x in multiset(LaneOf(s, a).admitted);
  }

  /** No queue exceeds maxPerAgent and no send buffer 256 frames. */
  lemma {:induction false} CapacitiesHold(cfg: Config, events: seq<Event>, a: string, id: ClientId)
    requires RunOk(cfg, INITIAL, events)
    ensures var h := Run(cfg, INITIAL, events).hub;
            && |EntriesOf(h.queues, a)| <= cfg.maxPerAgent
            && (id in h.clients ==> |h.clients[id].buffer| <= 256)
  {
    RunInv(cfg, events);
    var s := Run(cfg, INITIAL, events);
    assert LaneInv(cfg, s, a);
    assert id in s.hub.clients ==> ClientOk(s, id);
  }

  // ---------- the log speaks about the real buffers ----------

  lemma {:induction false} TakeFrames(xs: seq<Envelope>, n: int)
    ensures Take(Frames(xs), n) == Frames(Take(xs, n))
  {
  }

  /** A batch adds to the client's buffer exactly what the log records as placed. */
  lemma {:induction false} FlushFillsBuffer(cfg: Config, s: System, id: ClientId)
    requires TableOk(s) && IsLive(s.hub, id) && s.hub.clients[id].flushing
    ensures var s', a := Step(cfg, s, FlushBatch(id)), s.hub.clients[id].address;
            var batch := Batch(BucketOf(s, a).entries, s.hub.now, cfg.ttl, FLUSH_BATCH_SIZE);
            var added := Take(EnvelopesOf(batch), SEND_BUFFER_SIZE - |s.hub.clients[id].buffer|);
            && LaneOf(s', a).placed == LaneOf(s, a).placed + added
            && s'.hub.clients[id].buffer == s.hub.clients[id].buffer + Frames(added)
            && (forall other :: other in s.hub.clients && other != id ==>
                  other in s'.hub.clients && s'.hub.clients[other] == s.hub.clients[other])
  {
    var c := s.hub.clients[id];
    assert ClientOk(s, id) && EntryLive(s.hub, c.address);
    FlushShape(cfg, s, id);
    var envs := EnvelopesOf(Batch(BucketOf(s, c.address).entries, s.hub.now, cfg.ttl, FLUSH_BATCH_SIZE));
    FlushPushes(cfg, s, id);
    PushAllFits(c.buffer, Frames(envs));
    TakeFrames(envs, SEND_BUFFER_SIZE - |c.buffer|);
  }

  lemma {:induction false} FlushPushes(cfg: Config, s: System, id: ClientId)
    requires IsLive(s.hub, id) && s.hub.clients[id].flushing && !s.hub.clients[id].cancelled
    ensures var c := s.hub.clients[id];
            var batch := Batch(BucketOf(s, c.address).entries, s.hub.now, cfg.ttl, FLUSH_BATCH_SIZE);
            && Step(cfg, s, FlushBatch(id)).hub.clients[id].buffer == PushAll(c.buffer, Frames(EnvelopesOf(batch)))
            && (forall other :: other in s.hub.clients && other != id ==>
                  other in Step(cfg, s, FlushBatch(id)).hub.clients &&
                  Step(cfg, s, FlushBatch(id)).hub.clients[other] == s.hub.clients[other])
  {
  }

  /** So does a live-routed envelope. */
  lemma {:induction false} DirectFillsBuffer(s: System, s': System, env: Envelope)
    requires TableOk(s) && DirectStep(s, s', env)
    ensures var r := s.hub.table[env.to];
            var added := Take([env], SEND_BUFFER_SIZE - |s.hub.clients[r].buffer|);
            && r in s'.hub.clients
            && LaneOf(s', env.to).placed == LaneOf(s, env.to).placed + added
            && s'.hub.clients[r].buffer == s.hub.clients[r].buffer + Frames(added)
            && s.hub.clients[r].address == env.to
            && (forall other :: other in s.hub.clients && other != r ==>
                  other in s'.hub.clients && s'.hub.clients[other] == s.hub.clients[other])
  {
    var r := s.hub.table[env.to];
    assert EntryLive(s.hub, env.to) && ClientOk(s, r);
    var added := Take([env], SEND_BUFFER_SIZE - |s.hub.clients[r].buffer|);
    assert |s.hub.clients[r].buffer| == SEND_BUFFER_SIZE ==> Frames(added) == [];
  }

  // ---------- routing-table lifecycle ----------

  /**
    The table maps each address to one client stored under its own address, whose channel is
    open; and no channel was ever closed twice or sent to after closing, shutdown included.
   */
  lemma {:induction false} TableLifecycle(cfg: Config, events: seq<Event>, a: string)
    requires RunOk(cfg, INITIAL, events)
    ensures var h := Run(cfg, INITIAL, events).hub;
            && !h.panicked
            && (a in h.table ==> h.table[a] in h.clients && h.clients[h.table[a]].address == a &&
                                 !h.clients[h.table[a]].closed && !h.clients[h.table[a]].cancelled)
  {
    RunInv(cfg, events);
    var s := Run(cfg, INITIAL, events);
    assert a in s.hub.table ==> EntryLive(s.hub, a);
  }

  /** An unregister of a client that is not in the table changes nothing; of one that is, nobody else. */
  lemma {:induction false} UnregisterTouchesOne(h: Hub, id: ClientId, other: ClientId)
    ensures !IsLive(h, id) ==> Unregister(h, id) == h
    ensures !IsLive(Unregister(h, id), id)
    ensures other in h.clients && other != id ==>
              other in Unregister(h, id).clients && Unregister(h, id).clients[other] == h.clients[other]
    ensures other != id ==> (IsLive(Unregister(h, id), other) <==> IsLive(h, other))
  {
  }

  // ---------- blocking ----------

  /** The string store and the relation the commands ask for agree on every derivable blocker. */
  ghost predicate BlocksOk(cfg: Config, s: System) {
    forall k: PublicKey, x: string ::
      BlockKey(GenerateAddress(cfg.sha, k, cfg.host), x) in s.hub.blocks <==>
      (GenerateAddress(cfg.sha, k, cfg.host), x) in s.log.pairs
  }

  ghost predicate Derived(cfg: Config, s: System) {
    forall id :: id in s.hub.clients ==>
      s.hub.clients[id].address == GenerateAddress(cfg.sha, s.hub.clients[id].key, cfg.host)
  }

  /** Block and unblock commands of one authenticated sender, in both representations. */
  lemma {:induction false} CommandKeepsBlocks(cfg: Config, s: System, s': System, key: PublicKey, target: string,
                                              on: bool)
    requires BlocksOk(cfg, s)
    requires var b := GenerateAddress(cfg.sha, key, cfg.host);
             && s'.hub.blocks
                == (if on then s.hub.blocks + {BlockKey(b, target)} else s.hub.blocks - {BlockKey(b, target)})
             && s'.log.pairs == (if on then s.log.pairs + {(b, target)} else s.log.pairs - {(b, target)})
    ensures BlocksOk(cfg, s')
  {
    var b := GenerateAddress(cfg.sha, key, cfg.host);
    forall k: PublicKey, x: string
      ensures BlockKey(GenerateAddress(cfg.sha, k, cfg.host), x) in s'.hub.blocks <==>
              (GenerateAddress(cfg.sha, k, cfg.host), x) in s'.log.pairs
    {
      var a := GenerateAddress(cfg.sha, k, cfg.host);
      assert BlockKey(a, x) in s.hub.blocks <==> (a, x) in s.log.pairs;
      if BlockKey(a, x) == BlockKey(b, target) {
        BlockKeyInjective(cfg.sha, cfg.host, k, x, key, target);
      } else {
        assert (a, x) != (b, target);
      }
    }
  }

  lemma {:induction false} RouteEnvelopeKeepsBlocks(h: Hub, max: int, id: ClientId, env: Envelope)
    requires id in h.clients
    ensures RouteEnvelope(h, max, id, env).blocks == h.blocks
  {
    match Dispose(h, max, h.clients[id].address, env.to) {
      case Refused =>
      case Queued =>
      case Direct(_) =>
      case _ =>
    }
  }

  lemma {:induction false} RouteKeepsBlocks(h: Hub, max: int, id: ClientId, limited: bool, request: Request,
                                            serial: nat)
    requires id in h.clients && !request.BlockCommand? && !request.UnblockCommand?
    ensures Route(h, max, id, limited, request, serial).blocks == h.blocks
  {
    if request.Deliver? {
      RouteEnvelopeKeepsBlocks(h, max, id, Envelope(serial, request.to, request.body));
    }
  }

  lemma {:induction false} RouteKeepsPairs(cfg: Config, s: System, id: ClientId, limited: bool, request: Request)
    requires id in s.hub.clients && !request.BlockCommand? && !request.UnblockCommand?
    ensures LogRoute(cfg, s, id, limited, request).pairs == s.log.pairs
  {
  }

  /** Only a block or unblock command changes blocks. */
  lemma {:induction false} BlocksFrame(cfg: Config, s: System, e: Event)
    requires !(e.RouteMessage? && (e.request.BlockCommand? || e.request.UnblockCommand?))
    ensures Step(cfg, s, e).hub.blocks == s.hub.blocks && Step(cfg, s, e).log.pairs == s.log.pairs
  {
    match e {
      case RouteMessage(id, limited, request) =>
        if IsLive(s.hub, id) {
          RouteKeepsBlocks(s.hub, cfg.maxPerAgent, id, limited, request, s.log.serial);
          RouteKeepsPairs(cfg, s, id, limited, request);
        }
      case FlushBatch(_) =>
      case RegisterClient(_) =>
      case _ =>
    }
  }

  lemma {:induction false} CommandShape(cfg: Config, s: System, id: ClientId, request: Request)
    requires IsLive(s.hub, id) && (request.BlockCommand? || request.UnblockCommand?) && request.target.Some?
    ensures var s' := Step(cfg, s, RouteMessage(id, false, request));
            var b, x := s.hub.clients[id].address, request.target.value;
            && s'.hub.blocks
               == (if request.BlockCommand? then s.hub.blocks + {BlockKey(b, x)} else s.hub.blocks - {BlockKey(b, x)})
            && s'.log.pairs == (if request.BlockCommand? then s.log.pairs + {(b, x)} else s.log.pairs - {(b, x)})
  {
  }

  /** A command that is rate-limited, empty, or not from the table does nothing to blocks. */
  lemma {:induction false} CommandIgnored(cfg: Config, s: System, e: Event)
    requires e.RouteMessage? && (e.request.BlockCommand? || e.request.UnblockCommand?)
    requires !IsLive(s.hub, e.id) || e.limited || e.request.target.None?
    ensures Step(cfg, s, e).hub.blocks == s.hub.blocks && Step(cfg, s, e).log.pairs == s.log.pairs
  {
  }

  lemma {:induction false} StepKeepsBlocks(cfg: Config, s: System, e: Event)
    requires BlocksOk(cfg, s) && Derived(cfg, s)
    ensures BlocksOk(cfg, Step(cfg, s, e))
  {
    var s' := Step(cfg, s, e);
    if e.RouteMessage? && (e.request.BlockCommand? || e.request.UnblockCommand?) {
      if IsLive(s.hub, e.id) && !e.limited && e.request.target.Some? {
        CommandShape(cfg, s, e.id, e.request);
        CommandKeepsBlocks(cfg, s, s', s.hub.clients[e.id].key, e.request.target.value, e.request.BlockCommand?);
      } else {
        CommandIgnored(cfg, s, e);
        BlocksSame(cfg, s, s');
      }
    } else {
      BlocksFrame(cfg, s, e);
      BlocksSame(cfg, s, s');
    }
  }

  lemma {:induction false} BlocksSame(cfg: Config, s: System, s': System)
    requires BlocksOk(cfg, s) && s'.hub.blocks == s.hub.blocks && s'.log.pairs == s.log.pairs
    ensures BlocksOk(cfg, s')
  {
    forall k: PublicKey, x: string
      ensures BlockKey(GenerateAddress(cfg.sha, k, cfg.host), x) in s'.hub.blocks <==>
              (GenerateAddress(cfg.sha, k, cfg.host), x) in s'.log.pairs
    {
      assert BlockKey(GenerateAddress(cfg.sha, k, cfg.host), x) in s.hub.blocks <==>
             (GenerateAddress(cfg.sha, k, cfg.host), x) in s.log.pairs;
    }
  }

  /** Nobody appears, and whoever stays keeps key and address. */
  ghost predicate SameIdentities(h: Hub, h': Hub) {
    forall id :: id in h'.clients ==>
      id in h.clients && h'.clients[id].address == h.clients[id].address && h'.clients[id].key == h.clients[id].key
  }

  lemma {:induction false} RouteKeepsIdentities(h: Hub, max: int, id: ClientId, limited: bool, request: Request,
                                                serial: nat)
    requires id in h.clients
    ensures SameIdentities(h, Route(h, max, id, limited, request, serial))
  {
    if !limited && request.Deliver? {
      DeliveryKeepsIdentities(h, max, id, Envelope(serial, request.to, request.body));
    }
  }

  lemma {:induction false} DeliveryKeepsIdentities(h: Hub, max: int, id: ClientId, env: Envelope)
    requires id in h.clients
    ensures SameIdentities(h, RouteEnvelope(h, max, id, env))
  {
    match Dispose(h, max, h.clients[id].address, env.to) {
      case Refused => SendKeepsIdentities(h, id, QueueFull(env.to));
      case Direct(r) => SendKeepsIdentities(h, r, Relayed(env));
      case _ =>
    }
  }

  lemma {:induction false} SendKeepsIdentities(h: Hub, id: ClientId, f: Frame)
    requires id in h.clients
    ensures SameIdentities(h, Send(h, id, f))
  {
  }

  lemma {:induction false} FlushKeepsIdentities(h: Hub, ttl: int, id: ClientId)
    requires id in h.clients
    ensures SameIdentities(h, Flush(h, ttl, id))
  {
  }

  lemma {:induction false} RegisterKeepsIdentities(h: Hub, id: ClientId)
    requires id in h.clients
    ensures SameIdentities(h, Register(h, id))
  {
  }

  /** No step but NewClient makes a client or changes one's key or address. */
  lemma {:induction false} StepKeepsIdentities(cfg: Config, s: System, e: Event)
    requires !e.NewClient?
    ensures SameIdentities(s.hub, Step(cfg, s, e).hub)
  {
    match e {
      case RegisterClient(id) =>
        if id in s.hub.clients {
          RegisterKeepsIdentities(s.hub, id);
        }
      case RouteMessage(id, limited, request) =>
        if id in s.hub.clients {
          RouteKeepsIdentities(s.hub, cfg.maxPerAgent, id, limited, request, s.log.serial);
        }
      case FlushBatch(id) =>
        if id in s.hub.clients {
          FlushKeepsIdentities(s.hub, cfg.ttl, id);
        }
      case UnregisterClient(id) => UnregisterTouchesOne(s.hub, id, id);
      case WriteFrame(id) =>
        if id in s.hub.clients {
          WriteKeepsIdentities(s.hub, id);
        }
      case _ =>
    }
  }

  lemma {:induction false} WriteKeepsIdentities(h: Hub, id: ClientId)
    requires id in h.clients
    ensures SameIdentities(h, Write(h, id))
  {
  }

  lemma {:induction false} StepKeepsDerived(cfg: Config, s: System, e: Event)
    requires Derived(cfg, s)
    ensures Derived(cfg, Step(cfg, s, e))
  {
    if !e.NewClient? {
      StepKeepsIdentities(cfg, s, e);
    }
  }

  lemma {:induction false} RunBlocks(cfg: Config, events: seq<Event>)
    ensures BlocksOk(cfg, Run(cfg, INITIAL, events)) && Derived(cfg, Run(cfg, INITIAL, events))
  {
    if events != [] {
      var before := events[..|events| - 1];
      RunBlocks(cfg, before);
      StepKeepsBlocks(cfg, Run(cfg, INITIAL, before), events[|events| - 1]);
      StepKeepsDerived(cfg, Run(cfg, INITIAL, before), events[|events| - 1]);
    }
  }

  /**
    In every run the flat store is the block relation: (B, A) is blocked in the store exactly
    when B's own latest command about A was a block.
   */
  lemma {:induction false} BlockStoreRefines(cfg: Config, events: seq<Event>, blocker: PublicKey, x: string)
    ensures var s, b := Run(cfg, INITIAL, events), GenerateAddress(cfg.sha, blocker, cfg.host);
            BlockKey(b, x) in s.hub.blocks <==> (b, x) in s.log.pairs
  {
    RunBlocks(cfg, events);
  }

  /**
    A row of the store changes only by a block or unblock command about that target, not rate-limited,
    from a client in the table that authenticated with the blocker's own key.
   */
  lemma {:induction false} RowOwnership(cfg: Config, events: seq<Event>, e: Event, blocker: PublicKey, x: string)
    requires var s, row := Run(cfg, INITIAL, events), BlockKey(GenerateAddress(cfg.sha, blocker, cfg.host), x);
             row in s.hub.blocks <==> row !in Step(cfg, s, e).hub.blocks
    ensures e.RouteMessage? && !e.limited && (e.request.BlockCommand? || e.request.UnblockCommand?)
    ensures var h := Run(cfg, INITIAL, events).hub;
            IsLive(h, e.id) && h.clients[e.id].key == blocker && e.request.target == Some(x)
  {
    var s := Run(cfg, INITIAL, events);
    RunBlocks(cfg, events);
    if !(e.RouteMessage? && (e.request.BlockCommand? || e.request.UnblockCommand?)) {
      BlocksFrame(cfg, s, e);
    } else if !IsLive(s.hub, e.id) || e.limited || e.request.target.None? {
      CommandIgnored(cfg, s, e);
    } else {
      CommandShape(cfg, s, e.id, e.request);
      BlockKeyInjective(cfg.sha, cfg.host, blocker, x, s.hub.clients[e.id].key, e.request.target.value);
    }
  }

  /**
    An envelope is admitted to a recipient's queue or buffer only by a routing call of a sender
    that the recipient has not blocked.
   */
  lemma {:induction false} AdmissionRespectsBlocks(cfg: Config, events: seq<Event>, e: Event, recipient: PublicKey)
    ensures var s, a := Run(cfg, INITIAL, events), GenerateAddress(cfg.sha, recipient, cfg.host);
            LaneOf(Step(cfg, s, e), a).admitted != LaneOf(s, a).admitted ==>
            && e.RouteMessage? && !e.limited && IsLive(s.hub, e.id) && e.request.Deliver? && e.request.to == a
            && (a, s.hub.clients[e.id].address) !in s.log.pairs
  {
    var s, a := Run(cfg, INITIAL, events), GenerateAddress(cfg.sha, recipient, cfg.host);
    RunBlocks(cfg, events);
    if LaneOf(Step(cfg, s, e), a).admitted != LaneOf(s, a).admitted {
      AdmittedOnlyByRouting(cfg, s, e, a);
    }
  }

  lemma {:induction false} AdmittedOnlyByRouting(cfg: Config, s: System, e: Event, a: string)
    requires LaneOf(Step(cfg, s, e), a).admitted != LaneOf(s, a).admitted
    ensures e.RouteMessage? && !e.limited && IsLive(s.hub, e.id) && e.request.Deliver? && e.request.to == a
    ensures BlockKey(a, s.hub.clients[e.id].address) !in s.hub.blocks
  {
    match e {
      case RouteMessage(id, limited, request) =>
        RoutingAdmits(cfg, s, id, limited, request, a);
      case FlushBatch(id) =>
      case SweepQueues =>
      case _ =>
    }
  }

  lemma {:induction false} RoutingAdmits(cfg: Config, s: System, id: ClientId, limited: bool, request: Request,
                                         a: string)
    requires id in s.hub.clients
    requires Lookup(LogRoute(cfg, s, id, limited, request).lanes, a, EMPTY_LANE).admitted != LaneOf(s, a).admitted
    ensures !limited && request.Deliver? && request.to == a
    ensures BlockKey(a, s.hub.clients[id].address) !in s.hub.blocks
  {
  }
}
