/**
  The relay as a step machine (relay/internal/hub/hub.go, client.go). One step is one of:
  a register with its count and flushing flag, an unregister, one routing call, one flush
  batch (or the empty batch that clears the flag), a sweep, a write of one frame, a clock
  tick, shutdown, and a restart on the same database. A `System` pairs the hub with a log
  of what happened, about which the theorems speak; no step reads the log except to number
  routing calls.
 */
module Relay {
  import opened Common
  import opened QueueKeys
  import opened Wire
  import opened MessageQueues
  import opened BlockStores
  import opened Identity

  const SEND_BUFFER_SIZE := 256
  const FLUSH_BATCH_SIZE := 50

  type ClientId = nat

  datatype Config = Config(sha: Sha256, host: string, maxPerAgent: nat, ttl: int)

  /** `closed` is the send channel, `cancelled` the client's context. */
  datatype ClientState = ClientState(address: string, key: PublicKey, buffer: seq<Frame>,
                                     flushing: bool, closed: bool, cancelled: bool)

  /** `panicked` records a close of, or a send on, a closed channel. */
  datatype Hub = Hub(table: map<string, ClientId>, clients: map<ClientId, ClientState>,
                     queues: Buckets, blocks: set<string>, now: int64, stopped: bool, panicked: bool)

  datatype Request =
    | Oversized
    | Malformed
    | BlockCommand(target: Option<string>)
    | UnblockCommand(target: Option<string>)
    | Deliver(to: string, body: Body)

  // ---------- hub operations ----------

  function Push(buffer: seq<Frame>, f: Frame): seq<Frame> {
    if |buffer| < SEND_BUFFER_SIZE then buffer + [f] else buffer
  }

  function Send(h: Hub, id: ClientId, f: Frame): Hub
    requires id in h.clients
  {
    var c := h.clients[id];
    if c.closed then h.(panicked := true)
    else h.(clients := h.clients[id := c.(buffer := Push(c.buffer, f))])
  }

  predicate IsLive(h: Hub, id: ClientId) {
    id in h.clients && h.clients[id].address in h.table && h.table[h.clients[id].address] == id
  }

  function Register(h: Hub, id: ClientId): Hub
    requires id in h.clients
  {
    var address := h.clients[id].address;
    if address in h.table && h.table[address] != id then h
    else
      var inserted := h.(table := h.table[address := id]);
      var count := |EntriesOf(h.queues, address)|;
      if count == 0 then inserted
      else
        var told := Send(inserted, id, QueueStatus(count));
        told.(clients := told.clients[id := told.clients[id].(flushing := true)])
  }

  function Unregister(h: Hub, id: ClientId): Hub {
    if !IsLive(h, id) then h
    else
      var c := h.clients[id];
      h.(table := h.table - {c.address},
         clients := h.clients[id := c.(closed := true, cancelled := true)],
         panicked := h.panicked || c.closed)
  }

  /** The table's channels are closed; the server context cancels every client. */
  function Shutdown(h: Hub): Hub {
    h.(table := map[],
       clients := map id | id in h.clients ::
                    h.clients[id].(closed := h.clients[id].closed || IsLive(h, id), cancelled := true),
       panicked := h.panicked || (exists id :: id in h.clients && IsLive(h, id) && h.clients[id].closed),
       stopped := true)
  }

  /** A new process on the same database: memory is gone, queues and blocks remain. */
  function Restart(h: Hub): Hub {
    h.(table := map[], clients := map[], stopped := false)
  }

  function EnvelopesOf(es: seq<Entry>): seq<Envelope> {
    if es == [] then []
    else if es[0].value.Message? then [es[0].value.envelope] + EnvelopesOf(es[1..])
    else EnvelopesOf(es[1..])
  }

  function Frames(envelopes: seq<Envelope>): seq<Frame> {
    seq(|envelopes|, i requires 0 <= i < |envelopes| => Relayed(envelopes[i]))
  }

  function PushAll(buffer: seq<Frame>, fs: seq<Frame>): seq<Frame>
    decreases fs
  {
    if fs == [] then buffer else PushAll(Push(buffer, fs[0]), fs[1..])
  }

  /** One iteration of the flush loop. */
  function Flush(h: Hub, ttl: int, id: ClientId): Hub
    requires id in h.clients
  {
    var c := h.clients[id];
    var batch := Batch(EntriesOf(h.queues, c.address), h.now, ttl, FLUSH_BATCH_SIZE);
    if !c.flushing then h
    else if c.cancelled || batch == [] then
      h.(clients := h.clients[id := c.(flushing := false)])
    else
      var b := Lookup(h.queues, c.address, EMPTY_BUCKET);
      h.(clients := h.clients[id := c.(buffer := PushAll(c.buffer, Frames(EnvelopesOf(batch))))],
         queues := h.queues[c.address := Bucket(b.sequence, Without(b.entries, KeysOf(batch)))],
         panicked := h.panicked || c.closed)
  }

  /** WritePump takes the oldest frame. */
  function Write(h: Hub, id: ClientId): Hub
    requires id in h.clients
  {
    var c := h.clients[id];
    if c.buffer == [] then h else h.(clients := h.clients[id := c.(buffer := c.buffer[1..])])
  }

  /** What RouteMessage does with a deliverable envelope. */
  datatype Disposition = Ignored | Blocked | Refused | Queued | Direct(recipient: ClientId)

  function Dispose(h: Hub, maxPerAgent: int, sender: string, to: string): Disposition {
    if to == "" then Ignored
    else if BlockKey(to, sender) in h.blocks then Blocked
    else if to in h.table && h.table[to] in h.clients && !h.clients[h.table[to]].flushing then Direct(h.table[to])
    else if |EntriesOf(h.queues, to)| >= maxPerAgent then Refused
    else Queued
  }

  function RouteEnvelope(h: Hub, maxPerAgent: int, id: ClientId, envelope: Envelope): Hub
    requires id in h.clients
  {
    var sender, to := h.clients[id].address, envelope.to;
    match Dispose(h, maxPerAgent, sender, to)
    case Ignored => h
    case Blocked => h
    case Refused => Send(h, id, QueueFull(to))
    case Queued =>
      h.(queues := h.queues[to := Enqueued(Lookup(h.queues, to, EMPTY_BUCKET), h.now, sender, envelope)])
    case Direct(recipient) => Send(h, recipient, Relayed(envelope))
  }

  function Route(h: Hub, maxPerAgent: int, id: ClientId, limited: bool, request: Request, serial: nat): Hub
    requires id in h.clients
  {
    var sender := h.clients[id].address;
    if limited then Send(h, id, RateLimited)
    else match request
      case Oversized => h
      case Malformed => h
      case BlockCommand(None) => h
      case BlockCommand(Some(target)) => h.(blocks := h.blocks + {BlockKey(sender, target)})
      case UnblockCommand(None) => h
      case UnblockCommand(Some(target)) => h.(blocks := h.blocks - {BlockKey(sender, target)})
      case Deliver(to, body) => RouteEnvelope(h, maxPerAgent, id, Envelope(serial, to, body))
  }

  // ---------- the log ----------

  /**
    What happened to one recipient's envelopes: admitted by routing, handed to Send (in that
    order), of which placed in a buffer or dropped by a full one, or swept from the queue;
    and the keys flushed.
   */
  datatype Lane = Lane(admitted: seq<Envelope>, handed: seq<Envelope>, placed: seq<Envelope>,
                       dropped: seq<Envelope>, swept: seq<Envelope>, flushedKeys: seq<Key>)

  const EMPTY_LANE := Lane([], [], [], [], [], [])

  /** `pairs` is the block relation that block and unblock commands ask for. */
  datatype Log = Log(serial: nat, lanes: map<string, Lane>, pairs: set<(string, string)>,
                     created: set<ClientId>, registered: set<ClientId>)

  datatype System = System(hub: Hub, log: Log)

  function LaneOf(s: System, a: string): Lane {
    Lookup(s.log.lanes, a, EMPTY_LANE)
  }

  function BucketOf(s: System, a: string): Bucket {
    Lookup(s.hub.queues, a, EMPTY_BUCKET)
  }

  function Hand(lane: Lane, envelopes: seq<Envelope>, buffered: nat): Lane {
    var fit := Take(envelopes, SEND_BUFFER_SIZE - buffered);
    lane.(handed := lane.handed + envelopes, placed := lane.placed + fit,
          dropped := lane.dropped + envelopes[|fit|..])
  }

  function KeySeq(es: seq<Entry>): seq<Key> {
    seq(|es|, i requires 0 <= i < |es| => es[i].key)
  }

  function DeadEntries(es: seq<Entry>, now: int, ttl: int): seq<Entry> {
    if es == [] then []
    else if Live(es[0], now, ttl) then DeadEntries(es[1..], now, ttl)
    else [es[0]] + DeadEntries(es[1..], now, ttl)
  }

  function LogRoute(cfg: Config, s: System, id: ClientId, limited: bool, request: Request): Log
    requires id in s.hub.clients
  {
    var h, log, sender := s.hub, s.log, s.hub.clients[id].address;
    if limited then log
    else match request
      case BlockCommand(Some(target)) => log.(pairs := log.pairs + {(sender, target)})
      case UnblockCommand(Some(target)) => log.(pairs := log.pairs - {(sender, target)})
      case Deliver(to, body) =>
        var envelope := Envelope(log.serial, to, body);
        var lane := LaneOf(s, to);
        var admitted := lane.(admitted := lane.admitted + [envelope]);
        var next := log.(serial := log.serial + 1);
        (match Dispose(h, cfg.maxPerAgent, sender, to)
         case Queued => next.(lanes := log.lanes[to := admitted])
         case Direct(r) => next.(lanes := log.lanes[to := Hand(admitted, [envelope], |h.clients[r].buffer|)])
         case _ => next)
      case _ => log
  }

  function LogFlush(cfg: Config, s: System, id: ClientId): Log
    requires id in s.hub.clients
  {
    var c := s.hub.clients[id];
    var batch := Batch(BucketOf(s, c.address).entries, s.hub.now, cfg.ttl, FLUSH_BATCH_SIZE);
    if !c.flushing || c.cancelled then s.log
    else
      var lane := Hand(LaneOf(s, c.address), EnvelopesOf(batch), |c.buffer|);
      s.log.(lanes := s.log.lanes[c.address := lane.(flushedKeys := lane.flushedKeys + KeySeq(batch))])
  }

  function LogSweep(cfg: Config, s: System): Log {
    s.log.(lanes := map a | a in s.log.lanes.Keys + s.hub.queues.Keys ::
             var lane := LaneOf(s, a);
             lane.(swept := lane.swept + EnvelopesOf(DeadEntries(BucketOf(s, a).entries, s.hub.now, cfg.ttl))))
  }

  // ---------- steps and runs ----------

  datatype Event =
    | NewClient(id: ClientId, key: PublicKey)
    | RegisterClient(id: ClientId)
    | UnregisterClient(id: ClientId)
    | RouteMessage(id: ClientId, limited: bool, request: Request)
    | FlushBatch(id: ClientId)
    | WriteFrame(id: ClientId)
    | SweepQueues
    | Tick(time: int64)
    | ShutdownHub
    | RestartRelay

  const INITIAL := System(Hub(map[], map[], map[], {}, 0, false, false), Log(0, map[], {}, {}, {}))

  function AddClient(cfg: Config, s: System, id: ClientId, key: PublicKey): System {
    if id in s.log.created then s
    else
      var c := ClientState(GenerateAddress(cfg.sha, key, cfg.host), key, [], false, false, s.hub.stopped);
      System(s.hub.(clients := s.hub.clients[id := c]), s.log.(created := s.log.created + {id}))
  }

  /**
    Register and unregister are served only while the hub loop runs. A routing call comes
    from the read loop of a client in the table.
   */
  function Step(cfg: Config, s: System, e: Event): System {
    var h := s.hub;
    match e
    case NewClient(id, key) => AddClient(cfg, s, id, key)
    case RegisterClient(id) =>
      if h.stopped || id !in h.clients then s
      else System(Register(h, id), s.log.(registered := s.log.registered + {id}))
    case UnregisterClient(id) =>
      if h.stopped then s else System(Unregister(h, id), s.log)
    case RouteMessage(id, limited, request) =>
      if !IsLive(h, id) then s
      else System(Route(h, cfg.maxPerAgent, id, limited, request, s.log.serial),
                  LogRoute(cfg, s, id, limited, request))
    case FlushBatch(id) =>
      if id !in h.clients then s else System(Flush(h, cfg.ttl, id), LogFlush(cfg, s, id))
    case WriteFrame(id) =>
      if id !in h.clients then s else System(Write(h, id), s.log)
    case SweepQueues => System(h.(queues := Swept(h.queues, h.now, cfg.ttl)), LogSweep(cfg, s))
    case Tick(time) => System(h.(now := time), s.log)
    case ShutdownHub => if h.stopped then s else System(Shutdown(h), s.log)
    case RestartRelay => System(Restart(h), s.log)
  }

  /**
    Assumptions on the environment: the clock does not run backwards, a client object is
    registered at most once, and no bucket has used up its 64-bit sequence.
   */
  predicate EventOk(s: System, e: Event) {
    match e
    case Tick(time) => s.hub.now <= time
    case RegisterClient(id) => id !in s.log.registered
    case RouteMessage(_, _, Deliver(to, _)) => BucketOf(s, to).sequence + 1 < TWO_64
    case _ => true
  }

  function Run(cfg: Config, s: System, events: seq<Event>): System {
    if events == [] then s else Step(cfg, Run(cfg, s, events[..|events| - 1]), events[|events| - 1])
  }

  predicate RunOk(cfg: Config, s: System, events: seq<Event>) {
    events == [] ||
    (RunOk(cfg, s, events[..|events| - 1]) &&
     EventOk(Run(cfg, s, events[..|events| - 1]), events[|events| - 1]))
  }
}
