/**
  The hub and client objects (relay/internal/hub/hub.go, client.go), each method proved to do
  to the heap what the corresponding function of module Relay does to the value `View`.
 */
module HubObjects {
  import opened Common
  import opened QueueKeys
  import opened Wire
  import opened MessageQueues
  import opened BlockStores
  import opened Identity
  import R = Relay
  import L = Lanes

  class Client {
    const id: R.ClientId
    const address: string
    const key: PublicKey
    var send: seq<Frame>
    var flushing: bool
    var closed: bool
    var cancelled: bool

    constructor (id: R.ClientId, address: string, key: PublicKey, cancelled: bool)
      ensures this.id == id && State() == R.ClientState(address, key, [], false, false, cancelled)
    {
      this.id, this.address, this.key := id, address, key;
      send, flushing, closed, this.cancelled := [], false, false, cancelled;
    }

    ghost function State(): R.ClientState
      reads this
    {
      R.ClientState(address, key, send, flushing, closed, cancelled)
    }

    /** A send on a closed channel panics; a full channel drops the frame. */
    method Send(f: Frame)
      requires !closed
      modifies this`send
      ensures send == R.Push(old(send), f)
    {
      if |send| < R.SEND_BUFFER_SIZE {
        send := send + [f];
      }
    }
  }

  class Hub {
    var clients: map<string, Client>
    const mq: MessageQueue
    const blockStore: BlockStore
    var stopped: bool
    /** Every client object made for this hub, in the table or not. */
    ghost var objects: map<R.ClientId, Client>

    ghost predicate Valid()
      reads this, mq, objects.Values
    {
      && mq.Valid()
      && (forall id :: id in objects ==> objects[id].id == id && (objects[id].closed ==> objects[id].cancelled))
      && (forall a :: a in clients ==> Listed(clients[a]) && clients[a].address == a && !clients[a].closed)
    }

    ghost predicate Listed(c: Client)
      reads this
    {
      c.id in objects && objects[c.id] == c
    }

    ghost function Table(): map<string, R.ClientId>
      reads this
    {
      map a | a in clients :: clients[a].id
    }

    ghost function States(): map<R.ClientId, R.ClientState>
      reads this, objects.Values
    {
      map id | id in objects :: objects[id].State()
    }

    ghost function View(now: int64): R.Hub
      reads this, mq, blockStore, objects.Values
    {
      R.Hub(Table(), States(), mq.buckets, blockStore.keys, now, stopped, false)
    }

    /** After a change to one client, the states differ in that client only. */
    twostate lemma {:induction false} OneClient(c: Client)
      requires old(Listed(c)) && objects == old(objects)
      requires forall id :: id in objects ==> objects[id].id == id
      requires forall id :: id in objects && objects[id] != c ==> unchanged(objects[id])
      ensures States() == old(States())[c.id := c.State()]
    {
      assert States().Keys == old(States()).Keys;
      forall id | id in States() ensures States()[id] == old(States())[c.id := c.State()][id] {
        if objects[id] != c {
          assert objects[id].State() == old(objects[id].State());
        }
      }
    }

    lemma {:induction false} InTable(c: Client, now: int64)
      requires Valid() && Listed(c)
      ensures R.IsLive(View(now), c.id) <==> c.address in clients && clients[c.address] == c
    {
      if c.address in clients && clients[c.address].id == c.id {
        assert Listed(clients[c.address]);
      }
    }

    constructor (mq: MessageQueue, blockStore: BlockStore)
      requires mq.Valid()
      ensures Valid() && this.mq == mq && this.blockStore == blockStore
      ensures clients == map[] && objects == map[] && !stopped
    {
      this.mq, this.blockStore := mq, blockStore;
      clients, objects, stopped := map[], map[], false;
    }

    method NewClient(id: R.ClientId, address: string, key: PublicKey) returns (c: Client)
      requires Valid() && id !in objects
      modifies this`objects
      ensures Valid() && fresh(c) && objects == old(objects)[id := c] && c.id == id
      ensures c.State() == R.ClientState(address, key, [], false, false, stopped)
      ensures States() == old(States())[id := c.State()] && Table() == old(Table())
    {
      c := new Client(id, address, key, stopped);
      objects := objects[id := c];
    }

    /** A new connection: make the client, then register it. */
    method Connect(id: R.ClientId, address: string, key: PublicKey, ghost now: int64) returns (inUse: bool)
      requires Valid() && id !in objects
      modifies this`objects, this`clients
      ensures Valid()
      ensures inUse <==> address in old(clients)
      ensures var h, c := old(View(now)), R.ClientState(address, key, [], false, false, old(stopped));
              View(now) == R.Register(h.(clients := h.clients[id := c]), id)
    {
      var c := NewClient(id, address, key);
      assert forall a :: a in clients ==> Listed(clients[a]) && clients[a] != c;
      inUse := Register(c, now);
    }

    /** Rejects an address held by another client; otherwise inserts, counts and flags. */
    method Register(client: Client, ghost now: int64) returns (inUse: bool)
      requires Valid() && Listed(client) && !client.closed
      modifies this`clients, client
      ensures Valid()
      ensures inUse <==> client.address in old(clients) && old(clients)[client.address] != client
      ensures View(now) == R.Register(old(View(now)), client.id)
    {
      inUse := client.address in clients && clients[client.address] != client;
      if inUse {
        assert Listed(clients[client.address]);
      } else {
        RegisterFree(client, now);
      }
    }

    method RegisterFree(client: Client, ghost now: int64)
      requires Valid() && Listed(client) && !client.closed
      requires client.address in clients ==> clients[client.address] == client
      modifies this`clients, client
      ensures Valid() && View(now) == R.Register(old(View(now)), client.id)
    {
      var count := Insert(client);
      OneClient(client);
      assert Table() == old(Table())[client.address := client.id];
      RegisterEffect(old(View(now)), View(now), client.id, count);
    }

    method Insert(client: Client) returns (count: nat)
      requires Valid() && Listed(client) && !client.closed
      modifies this`clients, client
      ensures Valid()
      ensures clients == old(clients)[client.address := client]
      ensures count == |EntriesOf(mq.buckets, client.address)|
      ensures client.State() == if count == 0 then old(client.State())
                                else old(client.State()).(buffer := R.Push(old(client.send), QueueStatus(count)),
                                                          flushing := true)
    {
      clients := clients[client.address := client];
      count := mq.Count(client.address);
      if count > 0 {
        client.Send(QueueStatus(count));
        client.flushing := true;
      }
    }

    method Unregister(client: Client, ghost now: int64)
      requires Valid() && Listed(client)
      modifies this`clients, client
      ensures Valid()
      ensures View(now) == R.Unregister(old(View(now)), client.id)
    {
      InTable(client, now);
      if client.address in clients && clients[client.address] == client {
        clients := clients - {client.address};
        client.closed := true;
        client.cancelled := true;
        OneClient(client);
        assert Table() == old(Table()) - {client.address};
        assert old(View(now)).clients[client.id] == old(client.State());
      }
    }

    /** One turn of the flush loop. */
    method FlushOnce(client: Client, now: int64) returns (done: bool)
      requires Valid() && Listed(client) && client.flushing
      modifies client, mq
      ensures Valid()
      ensures View(now) == R.Flush(old(View(now)), mq.ttl, client.id)
      ensures done <==> !client.flushing
    {
      assert View(now).clients[client.id] == client.State();
      var entries := [];
      if !client.cancelled {
        entries := mq.FlushBatch(client.address, R.FLUSH_BATCH_SIZE, now);
      }
      done := |entries| == 0;
      if done {
        StopFlushing(client, now);
      } else {
        FlushEntries(client, entries, now);
      }
    }

    method StopFlushing(client: Client, ghost now: int64)
      requires Valid() && Listed(client)
      modifies client`flushing
      ensures Valid() && !client.flushing
      ensures View(now)
              == old(View(now)).(clients := old(States())[client.id := old(client.State()).(flushing := false)])
    {
      client.flushing := false;
      OneClient(client);
    }

    method FlushEntries(client: Client, entries: seq<Entry>, ghost now: int64)
      requires Valid() && Listed(client) && client.flushing && !client.cancelled
      requires entries == Batch(EntriesOf(mq.buckets, client.address), now, mq.ttl, R.FLUSH_BATCH_SIZE) && entries != []
      modifies client`send, mq
      ensures Valid()
      ensures View(now) == R.Flush(old(View(now)), mq.ttl, client.id)
    {
      ghost var h := View(now);
      assert h.clients[client.id] == client.State();
      BatchIsMessages(EntriesOf(mq.buckets, client.address), now, mq.ttl);
      SendBatch(client, entries);
      OneClient(client);
      FlushEffect(h, View(now), mq.ttl, client.id, client.State());
    }

    /** Each entry is sent and then removed. */
    method SendBatch(client: Client, entries: seq<Entry>)
      requires mq.Valid() && !client.closed && client.address in mq.buckets
      requires forall e :: e in entries ==> e.value.Message?
      modifies client`send, mq
      ensures mq.Valid()
      ensures client.send == R.PushAll(old(client.send), R.Frames(R.EnvelopesOf(entries)))
      ensures mq.buckets == old(mq.buckets)[client.address :=
                Bucket(old(mq.buckets)[client.address].sequence,
                       Without(old(mq.buckets)[client.address].entries, KeysOf(entries)))]
    {
      var a := client.address;
      ghost var was := mq.buckets[a];
      WithoutNothing(was.entries);
      assert KeysOf(entries[..0]) == {} && R.Frames(R.EnvelopesOf(entries[..0])) == [];
      for i := 0 to |entries|
        invariant mq.Valid()
        invariant client.send == R.PushAll(old(client.send), R.Frames(R.EnvelopesOf(entries[..i])))
        invariant a in mq.buckets && mq.buckets == old(mq.buckets)[a := mq.buckets[a]]
        invariant mq.buckets[a] == Bucket(was.sequence, Without(was.entries, KeysOf(entries[..i])))
      {
        var e := entries[i];
        client.Send(Relayed(e.value.envelope));
        mq.Remove(a, e.key);
        assert entries[..i + 1] == entries[..i] + [e];
        PushOne(old(client.send), entries[..i], e);
        RemoveOne(was.entries, entries[..i], e);
      }
      assert entries[..|entries|] == entries;
    }

    /** The shutdown loop over the table; the server context has cancelled every client. */
    method Shutdown(ghost now: int64)
      requires Valid()
      requires forall id :: id in objects ==> objects[id].cancelled
      modifies this`clients, this`stopped, objects.Values
      ensures Valid() && View(now) == R.Shutdown(old(View(now)))
    {
      ghost var table := clients;
      forall id | id in objects ensures R.IsLive(View(now), id) <==> InOldTable(objects[id], table) {
        InTable(objects[id], now);
      }
      ghost var h := View(now);
      CloseAll();
      stopped := true;
      assert Table() == map[];
      ShutdownEffect(h, View(now));
    }

    method CloseAll()
      requires Valid()
      requires forall id :: id in objects ==> objects[id].cancelled
      modifies this`clients, objects.Values`closed, objects.Values`cancelled
      ensures Valid() && clients == map[]
      ensures forall id :: id in objects ==>
                objects[id].State() == ClosedIf(old(objects[id].State()), InOldTable(objects[id], old(clients)))
    {
      ghost var table := clients;
      while clients != map[]
        invariant Valid() && clients.Keys <= table.Keys
        invariant forall a :: a in clients ==> clients[a] == table[a]
        invariant forall id :: id in objects ==> ClosedSoFar(objects[id], table, old(objects[id].closed))
        decreases clients.Keys
      {
        assert clients.Keys != {};
        var addr :| addr in clients;
        CloseClient(addr, clients[addr]);
      }
    }

    ghost predicate ClosedSoFar(c: Client, table: map<string, Client>, was: bool)
      reads this, c
    {
      c.cancelled && (c.closed <==> was || (InOldTable(c, table) && c.address !in clients))
    }

    method CloseClient(addr: string, client: Client)
      requires Valid() && addr in clients && clients[addr] == client
      modifies this`clients, client`closed, client`cancelled
      ensures Valid() && clients == old(clients) - {addr}
      ensures client.closed && client.cancelled
    {
      client.closed := true;
      client.cancelled := true;
      clients := clients - {addr};
    }

    ghost predicate InOldTable(c: Client, table: map<string, Client>) {
      c.address in table && table[c.address] == c
    }

    ghost function ClosedIf(c: R.ClientState, now: bool): R.ClientState {
      c.(closed := c.closed || now)
    }

    method RouteMessage(from: Client, limited: bool, request: R.Request, serial: nat, now: int64)
      requires Valid() && Listed(from) && from.address in clients && clients[from.address] == from
      modifies objects.Values, mq, blockStore
      ensures Valid()
      ensures View(now) == R.Route(old(View(now)), mq.maxPerAgent, from.id, limited, request, serial)
    {
      assert View(now).clients[from.id] == from.State();
      if limited {
        from.Send(RateLimited);
        OneClient(from);
      } else if request.BlockCommand? {
        if request.target.Some? {
          blockStore.Block(from.address, request.target.value);
          SameStates();
        }
      } else if request.UnblockCommand? {
        if request.target.Some? {
          blockStore.Unblock(from.address, request.target.value);
          SameStates();
        }
      } else if request.Deliver? {
        DeliverEnvelope(from, Envelope(serial, request.to, request.body), now);
      }
    }

    twostate lemma {:induction false} SameStates()
      requires objects == old(objects) && forall id :: id in objects ==> unchanged(objects[id])
      ensures States() == old(States())
    {
      forall id | id in objects ensures States()[id] == old(States())[id] {
        assert objects[id].State() == old(objects[id].State());
      }
    }

    method DeliverEnvelope(from: Client, envelope: Envelope, now: int64)
      requires Valid() && Listed(from) && !from.closed
      modifies objects.Values, mq
      ensures Valid()
      ensures View(now) == R.RouteEnvelope(old(View(now)), mq.maxPerAgent, from.id, envelope)
    {
      ghost var h := View(now);
      var to := envelope.to;
      var blocked := blockStore.IsBlocked(to, from.address);
      assert h.clients[from.id] == from.State();
      RouteCases(h, mq.maxPerAgent, from.id, envelope);
      if to != "" && !blocked {
        assert to in clients ==> Listed(clients[to]) && h.clients[h.table[to]] == clients[to].State();
        if to in clients && !clients[to].flushing {
          SendDirect(clients[to], envelope, now);
        } else {
          EnqueueOrRefuse(from, envelope, now);
        }
      }
    }

    method SendDirect(recipient: Client, envelope: Envelope, ghost now: int64)
      requires Valid() && Listed(recipient) && !recipient.closed
      modifies recipient`send
      ensures Valid()
      ensures View(now) == R.Send(old(View(now)), recipient.id, Relayed(envelope))
    {
      recipient.Send(Relayed(envelope));
      OneClient(recipient);
    }

    method EnqueueOrRefuse(from: Client, envelope: Envelope, now: int64)
      requires Valid() && Listed(from) && !from.closed
      modifies from`send, mq
      ensures Valid()
      ensures var h, to := old(View(now)), envelope.to;
              View(now) == QueuedOrRefused(h, mq.maxPerAgent, from.id, envelope)
    {
      assert View(now).clients[from.id] == from.State();
      var full := mq.Enqueue(envelope.to, from.address, envelope, now);
      if full {
        from.Send(QueueFull(envelope.to));
        OneClient(from);
      } else {
        SameStates();
      }
    }
  }

  /** The outcome for a recipient that is offline or flushing. */
  ghost function QueuedOrRefused(h: R.Hub, max: int, id: R.ClientId, env: Envelope): R.Hub
    requires id in h.clients
  {
    if |EntriesOf(h.queues, env.to)| >= max then R.Send(h, id, QueueFull(env.to))
    else h.(queues := h.queues[env.to :=
              Enqueued(Lookup(h.queues, env.to, EMPTY_BUCKET), h.now, h.clients[id].address, env)])
  }

  lemma {:induction false} RouteCases(h: R.Hub, max: int, id: R.ClientId, env: Envelope)
    requires id in h.clients
    ensures var direct := env.to in h.table && h.table[env.to] in h.clients && !h.clients[h.table[env.to]].flushing;
            R.RouteEnvelope(h, max, id, env) ==
            if env.to == "" || BlockKey(env.to, h.clients[id].address) in h.blocks then h
            else if direct then R.Send(h, h.table[env.to], Relayed(env))
            else QueuedOrRefused(h, max, id, env)
  {
  }

  lemma {:induction false} FlushEffect(h: R.Hub, h': R.Hub, ttl: int, id: R.ClientId, c': R.ClientState)
    requires id in h.clients && h.clients[id].flushing && !h.clients[id].cancelled && !h.clients[id].closed
    requires var c, a := h.clients[id], h.clients[id].address;
             var batch := Batch(EntriesOf(h.queues, a), h.now, ttl, R.FLUSH_BATCH_SIZE);
             && batch != [] && a in h.queues
             && c' == c.(buffer := R.PushAll(c.buffer, R.Frames(R.EnvelopesOf(batch))))
             && h' == h.(clients := h.clients[id := c'],
                         queues := h.queues[a := Bucket(h.queues[a].sequence,
                                                        Without(h.queues[a].entries, KeysOf(batch)))])
    ensures h' == R.Flush(h, ttl, id)
  {
  }

  lemma {:induction false} ShutdownEffect(h: R.Hub, h': R.Hub)
    requires !h.panicked && forall id :: id in h.clients ==> h.clients[id].cancelled
    requires forall id :: id in h.clients && R.IsLive(h, id) ==> !h.clients[id].closed
    requires h'.clients.Keys == h.clients.Keys
    requires forall id :: id in h.clients ==>
               h'.clients[id] == h.clients[id].(closed := h.clients[id].closed || R.IsLive(h, id))
    requires h' == h.(table := map[], clients := h'.clients, stopped := true)
    ensures h' == R.Shutdown(h)
  {
    assert h'.clients == R.Shutdown(h).clients;
  }

  lemma {:induction false} RegisterEffect(h: R.Hub, h': R.Hub, id: R.ClientId, count: nat)
    requires id in h.clients && id in h'.clients && !h.clients[id].closed
    requires var c := h.clients[id];
             && (c.address in h.table ==> h.table[c.address] == id)
             && count == |EntriesOf(h.queues, c.address)|
             && h'.clients[id] == (if count == 0 then c
                                   else c.(buffer := R.Push(c.buffer, QueueStatus(count)), flushing := true))
             && h' == h.(table := h.table[c.address := id], clients := h.clients[id := h'.clients[id]])
    ensures h' == R.Register(h, id)
  {
    var c := h.clients[id];
    if count == 0 {
      assert h.clients[id := c] == h.clients;
    } else {
      var told := R.Send(h.(table := h'.table), id, QueueStatus(count));
      assert told.clients[id := h'.clients[id]] == h'.clients;
    }
  }

  lemma {:induction false} BatchIsMessages(es: seq<Entry>, now: int, ttl: int)
    ensures forall e :: e in Batch(es, now, ttl, R.FLUSH_BATCH_SIZE) ==> e.value.Message?
  {
    LiveMembers(es, now, ttl);
    var live := LiveEntries(es, now, ttl);
    forall e | e in Batch(es, now, ttl, R.FLUSH_BATCH_SIZE) ensures e.value.Message? {
      assert e in live;
    }
  }

  lemma {:induction false} PushAllAppend(buffer: seq<Frame>, fs: seq<Frame>, f: Frame)
    ensures R.PushAll(buffer, fs + [f]) == R.Push(R.PushAll(buffer, fs), f)
    decreases fs
  {
    if fs == [] {
      assert [] + [f] == [f] && [f][1..] == [];
    } else {
      PushAllAppend(R.Push(buffer, fs[0]), fs[1..], f);
      assert (fs + [f])[1..] == fs[1..] + [f];
    }
  }

  lemma {:induction false} RemoveOne(all: seq<Entry>, es: seq<Entry>, e: Entry)
    ensures Without(Without(all, KeysOf(es)), {e.key}) == Without(all, KeysOf(es + [e]))
  {
    WithoutTwice(all, KeysOf(es), {e.key});
    assert KeysOf(es + [e]) == KeysOf(es) + {e.key};
  }

  lemma {:induction false} PushOne(buffer: seq<Frame>, es: seq<Entry>, e: Entry)
    requires e.value.Message?
    ensures R.PushAll(buffer, R.Frames(R.EnvelopesOf(es + [e])))
         == R.Push(R.PushAll(buffer, R.Frames(R.EnvelopesOf(es))), Relayed(e.value.envelope))
  {
    var xs := R.EnvelopesOf(es);
    L.EnvelopesConcat(es, [e]);
    assert [e][1..] == [] && R.EnvelopesOf([e]) == [e.value.envelope];
    assert R.Frames(xs + [e.value.envelope]) == R.Frames(xs) + [Relayed(e.value.envelope)];
    PushAllAppend(buffer, R.Frames(xs), Relayed(e.value.envelope));
  }
}
