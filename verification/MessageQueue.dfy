/**
  The durable per-recipient queue (relay/internal/store/messagequeue.go). A bbolt bucket
  is a sequence of entries in key order together with the bucket's sequence counter.
 */
module MessageQueues {
  import opened Common
  import opened QueueKeys
  import opened Wire

  /** A stored value either unmarshals to a queued message or is corrupt. */
  datatype Stored =
    | Message(enqueuedAt: int64, sender: string, envelope: Envelope)
    | Corrupt

  datatype Entry = Entry(key: Key, value: Stored)

  datatype Bucket = Bucket(sequence: uint64, entries: seq<Entry>)

  const EMPTY_BUCKET := Bucket(0, [])

  type Buckets = map<string, Bucket>

  function EntriesOf(buckets: Buckets, recipient: string): seq<Entry> {
    Lookup(buckets, recipient, EMPTY_BUCKET).entries
  }

  // ---------- bucket primitives ----------

  ghost predicate Sorted(es: seq<Entry>) {
    forall i, j :: 0 <= i < j < |es| ==> Less(es[i].key, es[j].key)
  }

  /** bbolt Put: keeps key order, replaces the value of an existing key. */
  function Put(es: seq<Entry>, e: Entry): seq<Entry> {
    if es == [] then [e]
    else if Less(e.key, es[0].key) then [e] + es
    else if e.key == es[0].key then [e] + es[1..]
    else [es[0]] + Put(es[1..], e)
  }

  /** The entries whose key is not in `keys`, in order. */
  function Without(es: seq<Entry>, keys: set<Key>): seq<Entry> {
    if es == [] then []
    else if es[0].key in keys then Without(es[1..], keys)
    else [es[0]] + Without(es[1..], keys)
  }

  predicate Live(e: Entry, now: int, ttl: int) {
    e.value.Message? && now - e.value.enqueuedAt <= ttl
  }

  function LiveEntries(es: seq<Entry>, now: int, ttl: int): seq<Entry> {
    if es == [] then []
    else if Live(es[0], now, ttl) then [es[0]] + LiveEntries(es[1..], now, ttl)
    else LiveEntries(es[1..], now, ttl)
  }

  function Take<T>(xs: seq<T>, n: int): seq<T> {
    if n <= 0 then [] else xs[..Min(n, |xs|)]
  }

  /** What one FlushBatch call returns: the first `n` live entries. */
  function Batch(es: seq<Entry>, now: int, ttl: int, n: int): seq<Entry> {
    Take(LiveEntries(es, now, ttl), n)
  }

  function KeysOf(es: seq<Entry>): set<Key> {
    set e | e in es :: e.key
  }

  /** The bucket after a successful Enqueue. */
  function Enqueued(b: Bucket, now: int64, sender: string, envelope: Envelope): Bucket {
    var sequence := (b.sequence + 1) % TWO_64;
    Bucket(sequence, Put(b.entries, Entry(EncodeKey(now, sequence), Message(now, sender, envelope))))
  }

  // ---------- properties of the primitives ----------

  lemma {:induction false} PutAtEnd(es: seq<Entry>, e: Entry)
    requires forall x :: x in es ==> Less(x.key, e.key)
    ensures Put(es, e) == es + [e]
  {
    if es != [] {
      assert es[0] in es;
      if Less(e.key, es[0].key) {
        LessTransitive(es[0].key, e.key, es[0].key);
      }
      LessIrreflexive(es[0].key);
      PutAtEnd(es[1..], e);
      assert es + [e] == [es[0]] + (es[1..] + [e]);
    }
  }

  lemma {:induction false} WithoutMembers(es: seq<Entry>, keys: set<Key>)
    ensures forall e :: e in Without(es, keys) <==> e in es && e.key !in keys
    ensures |Without(es, keys)| <= |es|
  {
    if es != [] {
      WithoutMembers(es[1..], keys);
      assert es == [es[0]] + es[1..];
    }
  }

  lemma {:induction false} LiveMembers(es: seq<Entry>, now: int, ttl: int)
    ensures forall e :: e in LiveEntries(es, now, ttl) <==> e in es && Live(e, now, ttl)
    ensures |LiveEntries(es, now, ttl)| <= |es|
  {
    if es != [] {
      LiveMembers(es[1..], now, ttl);
      assert es == [es[0]] + es[1..];
    }
  }

  lemma {:induction false} SortedCons(e: Entry, es: seq<Entry>)
    requires Sorted(es) && forall x :: x in es ==> Less(e.key, x.key)
    ensures Sorted([e] + es)
  {
    var all := [e] + es;
    forall i, j | 0 <= i < j < |all| ensures Less(all[i].key, all[j].key) {
      assert all[j] == es[j - 1] && es[j - 1] in es;
    }
  }

  lemma {:induction false} PutMembers(es: seq<Entry>, e: Entry)
    requires Sorted(es)
    ensures forall x :: x in Put(es, e) <==> x == e || (x in es && x.key != e.key)
  {
    if es != [] {
      SortedTail(es);
      PutMembers(es[1..], e);
      assert es == [es[0]] + es[1..];
      if Less(e.key, es[0].key) {
        forall x | x in es ensures x.key != e.key {
          if x in es[1..] {
            LessTransitive(e.key, es[0].key, x.key);
          }
          LessIrreflexive(e.key);
        }
      }
    }
  }

  lemma {:induction false} PutSorted(es: seq<Entry>, e: Entry)
    requires Sorted(es)
    ensures Sorted(Put(es, e))
  {
    if es != [] {
      SortedTail(es);
      if Less(e.key, es[0].key) {
        forall x | x in es ensures Less(e.key, x.key) {
          assert es == [es[0]] + es[1..];
          if x in es[1..] {
            LessTransitive(e.key, es[0].key, x.key);
          }
        }
        SortedCons(e, es);
      } else if e.key == es[0].key {
        SortedCons(e, es[1..]);
      } else {
        LessTrichotomy(e.key, es[0].key);
        PutSorted(es[1..], e);
        PutMembers(es[1..], e);
        SortedCons(es[0], Put(es[1..], e));
      }
    }
  }

  lemma {:induction false} SortedTail(es: seq<Entry>)
    requires Sorted(es) && es != []
    ensures Sorted(es[1..])
    ensures forall x :: x in es[1..] ==> Less(es[0].key, x.key)
    ensures es[0].key !in KeysOf(es[1..])
  {
    LessIrreflexive(es[0].key);
  }

  lemma {:induction false} WithoutSorted(es: seq<Entry>, keys: set<Key>)
    requires Sorted(es)
    ensures Sorted(Without(es, keys))
  {
    if es != [] {
      SortedTail(es);
      WithoutSorted(es[1..], keys);
      WithoutMembers(es[1..], keys);
      if es[0].key !in keys {
        SortedCons(es[0], Without(es[1..], keys));
      }
    }
  }

  lemma {:induction false} LiveSorted(es: seq<Entry>, now: int, ttl: int)
    requires Sorted(es)
    ensures Sorted(LiveEntries(es, now, ttl))
  {
    if es != [] {
      SortedTail(es);
      LiveSorted(es[1..], now, ttl);
      LiveMembers(es[1..], now, ttl);
      if Live(es[0], now, ttl) {
        SortedCons(es[0], LiveEntries(es[1..], now, ttl));
      }
    }
  }

  lemma {:induction false} LiveConcat(a: seq<Entry>, b: seq<Entry>, now: int, ttl: int)
    ensures LiveEntries(a + b, now, ttl) == LiveEntries(a, now, ttl) + LiveEntries(b, now, ttl)
  {
    if a == [] {
      assert a + b == b;
    } else {
      var l, r := LiveEntries(a[1..], now, ttl), LiveEntries(b, now, ttl);
      LiveConcat(a[1..], b, now, ttl);
      assert (a + b)[1..] == a[1..] + b && (a + b)[0] == a[0];
      assert [a[0]] + (l + r) == ([a[0]] + l) + r;
    }
  }

  /** Only the keys that occur matter. */
  lemma {:induction false} WithoutAgree(es: seq<Entry>, k1: set<Key>, k2: set<Key>)
    requires forall e :: e in es ==> (e.key in k1 <==> e.key in k2)
    ensures Without(es, k1) == Without(es, k2)
  {
    if es != [] {
      assert es[0] in es;
      WithoutAgree(es[1..], k1, k2);
    }
  }

  lemma {:induction false} WithoutTwice(es: seq<Entry>, k1: set<Key>, k2: set<Key>)
    ensures Without(Without(es, k1), k2) == Without(es, k1 + k2)
  {
    if es != [] {
      WithoutTwice(es[1..], k1, k2);
      var rest := Without(es[1..], k1);
      if es[0].key !in k1 {
        assert ([es[0]] + rest)[1..] == rest;
      }
    }
  }

  lemma {:induction false} WithoutNothing(es: seq<Entry>)
    ensures Without(es, {}) == es
  {
    if es != [] {
      WithoutNothing(es[1..]);
    }
  }

  lemma {:induction false} BatchLiveHead(es: seq<Entry>, now: int, ttl: int, n: int)
    requires Sorted(es) && es != [] && Live(es[0], now, ttl) && n > 0
    ensures Batch(es, now, ttl, n) == [es[0]] + Batch(es[1..], now, ttl, n - 1)
    ensures Without(es, KeysOf(Batch(es, now, ttl, n)))
         == Without(es[1..], KeysOf(Batch(es[1..], now, ttl, n - 1)))
  {
    var batch, rest := Batch(es, now, ttl, n), Batch(es[1..], now, ttl, n - 1);
    SortedTail(es);
    assert batch == [es[0]] + rest;
    assert KeysOf(batch) == {es[0].key} + KeysOf(rest);
    WithoutAgree(es[1..], KeysOf(batch), KeysOf(rest));
  }

  lemma {:induction false} BatchDeadHead(es: seq<Entry>, now: int, ttl: int, n: int)
    requires Sorted(es) && es != [] && !Live(es[0], now, ttl)
    ensures Batch(es, now, ttl, n) == Batch(es[1..], now, ttl, n)
    ensures Without(es, KeysOf(Batch(es, now, ttl, n)))
         == [es[0]] + Without(es[1..], KeysOf(Batch(es[1..], now, ttl, n)))
  {
    SortedTail(es);
    LiveMembers(es[1..], now, ttl);
    forall e | e in Batch(es, now, ttl, n) ensures e.key != es[0].key {
      assert e in es[1..] && e.key in KeysOf(es[1..]);
    }
  }

  /** Removing a batch takes exactly the first live entries away and disturbs nothing else. */
  lemma {:induction false} BatchRemoved(es: seq<Entry>, now: int, ttl: int, n: int)
    requires Sorted(es)
    ensures LiveEntries(Without(es, KeysOf(Batch(es, now, ttl, n))), now, ttl)
         == LiveEntries(es, now, ttl)[|Batch(es, now, ttl, n)|..]
  {
    if n <= 0 {
      WithoutNothing(es);
      assert KeysOf(Batch(es, now, ttl, n)) == {};
    } else if es != [] {
      SortedTail(es);
      if Live(es[0], now, ttl) {
        BatchRemoved(es[1..], now, ttl, n - 1);
        BatchLiveHead(es, now, ttl, n);
      } else {
        BatchRemoved(es[1..], now, ttl, n);
        BatchDeadHead(es, now, ttl, n);
        var rest := Without(es[1..], KeysOf(Batch(es[1..], now, ttl, n)));
        assert ([es[0]] + rest)[1..] == rest;
      }
    }
  }

  /** A dead entry never becomes live again. */
  lemma {:induction false} LiveShrinks(es: seq<Entry>, now: int, later: int, ttl: int)
    requires now <= later
    ensures LiveEntries(LiveEntries(es, now, ttl), later, ttl) == LiveEntries(es, later, ttl)
  {
    if es != [] {
      LiveShrinks(es[1..], now, later, ttl);
      var rest := LiveEntries(es[1..], now, ttl);
      if Live(es[0], now, ttl) {
        assert ([es[0]] + rest)[1..] == rest;
      }
    }
  }

  // ---------- sweep ----------

  /** The entries a sweep deletes, as (recipient, key) pairs. */
  ghost function Dead(recipient: string, es: seq<Entry>, now: int, ttl: int): set<(string, Key)> {
    set e | e in es && !Live(e, now, ttl) :: (recipient, e.key)
  }

  ghost function AllDead(buckets: Buckets, over: set<string>, now: int, ttl: int): set<(string, Key)> {
    set a, p | a in over && a in buckets && p in Dead(a, buckets[a].entries, now, ttl) :: p
  }

  function SweptBucket(b: Bucket, now: int, ttl: int): Bucket {
    Bucket(b.sequence, LiveEntries(b.entries, now, ttl))
  }

  function Swept(buckets: Buckets, now: int, ttl: int): Buckets {
    map a | a in buckets :: SweptBucket(buckets[a], now, ttl)
  }

  ghost predicate AllSorted(buckets: Buckets) {
    forall a :: a in buckets ==> Sorted(buckets[a].entries)
  }

  /**
    A sweep removes exactly the expired and corrupt entries, and no later FlushBatch,
    whatever its time and size, can tell that it happened.
   */
  lemma {:induction false} SweepInvisible(buckets: Buckets, now: int, ttl: int, recipient: string, later: int, n: int)
    requires now <= later
    ensures forall e :: e in EntriesOf(Swept(buckets, now, ttl), recipient) <==>
                        e in EntriesOf(buckets, recipient) && Live(e, now, ttl)
    ensures Batch(EntriesOf(Swept(buckets, now, ttl), recipient), later, ttl, n)
         == Batch(EntriesOf(buckets, recipient), later, ttl, n)
  {
    LiveMembers(EntriesOf(buckets, recipient), now, ttl);
    LiveShrinks(EntriesOf(buckets, recipient), now, later, ttl);
  }

  /** The entry an Enqueue at time t puts. */
  function NewEntry(b: Bucket, t: int64, sender: string, envelope: Envelope): Entry {
    Entry(EncodeKey(t, (b.sequence + 1) % TWO_64), Message(t, sender, envelope))
  }

  /**
    Age alone decides: an entry queued at any time t is in a sufficiently large batch d later, and
    survives a sweep d later, exactly while d is at most the time to live.
   */
  lemma {:induction false} AgeDecides(buckets: Buckets, recipient: string, t: int64, sender: string, envelope: Envelope,
                                      d: int, ttl: int, n: int)
    requires AllSorted(buckets) && n > |EntriesOf(buckets, recipient)|
    ensures var b := Lookup(buckets, recipient, EMPTY_BUCKET);
            var after := buckets[recipient := Enqueued(b, t, sender, envelope)];
            var e := NewEntry(b, t, sender, envelope);
            && (e in Batch(EntriesOf(after, recipient), t + d, ttl, n) <==> d <= ttl)
            && (e in EntriesOf(Swept(after, t + d, ttl), recipient) <==> d <= ttl)
  {
    var b := Lookup(buckets, recipient, EMPTY_BUCKET);
    var e, es := NewEntry(b, t, sender, envelope), Enqueued(b, t, sender, envelope).entries;
    PutMembers(b.entries, e);
    PutCount(b.entries, e);
    LiveMembers(es, t + d, ttl);
  }

  /** The rest of the queue by the same rule: corrupt entries never, messages up to their age. */
  lemma {:induction false} BatchMembers(es: seq<Entry>, now: int, ttl: int, n: int, e: Entry)
    requires n >= |es|
    ensures e in Batch(es, now, ttl, n) <==>
            e in es && e.value != Corrupt && now <= e.value.enqueuedAt + ttl
  {
    LiveMembers(es, now, ttl);
    var live := LiveEntries(es, now, ttl);
    assert Take(live, n) == live;
    assert e in live <==> e in es && Live(e, now, ttl);
  }

  lemma {:induction false} PutCount(es: seq<Entry>, e: Entry)
    ensures |es| <= |Put(es, e)| <= |es| + 1
  {
    if es != [] {
      PutCount(es[1..], e);
    }
  }

  /** Deleting the keys of the dead entries is the same as keeping the live ones. */
  lemma {:induction false} DeadRemoved(es: seq<Entry>, now: int, ttl: int, dead: set<Key>)
    requires Sorted(es)
    requires forall e :: e in es ==> (e.key in dead <==> !Live(e, now, ttl))
    ensures Without(es, dead) == LiveEntries(es, now, ttl)
  {
    if es != [] {
      assert es[0] in es;
      SortedTail(es);
      DeadRemoved(es[1..], now, ttl, dead);
    }
  }

  // ---------- the queue object ----------

  class MessageQueue {
    const maxPerAgent: int
    const ttl: int
    var buckets: Buckets

    /** bbolt keeps every bucket in key order. */
    ghost predicate Valid()
      reads this
    {
      AllSorted(buckets)
    }

    constructor (maxPerAgent: int, ttl: int)
      ensures Valid()
      ensures this.maxPerAgent == maxPerAgent && this.ttl == ttl && buckets == map[]
    {
      this.maxPerAgent := maxPerAgent;
      this.ttl := ttl;
      buckets := map[];
    }

    /** Fails, changing nothing, when the recipient's bucket already holds `maxPerAgent` keys. */
    method Enqueue(recipient: string, sender: string, envelope: Envelope, now: int64) returns (full: bool)
      requires Valid()
      modifies this
      ensures Valid()
      ensures full <==> |EntriesOf(old(buckets), recipient)| >= maxPerAgent
      ensures full ==> buckets == old(buckets)
      ensures !full ==> buckets == old(buckets)[recipient :=
                Enqueued(Lookup(old(buckets), recipient, EMPTY_BUCKET), now, sender, envelope)]
    {
      var sub := Lookup(buckets, recipient, EMPTY_BUCKET);
      if |sub.entries| >= maxPerAgent {
        return true;
      }
      var sequence := (sub.sequence + 1) % TWO_64;
      var key := EncodeKey(now, sequence);
      var val := Message(now, sender, envelope);
      PutSorted(sub.entries, Entry(key, val));
      buckets := buckets[recipient := Bucket(sequence, Put(sub.entries, Entry(key, val)))];
      return false;
    }

    /** Up to `batchSize` live entries in key order; dead ones are skipped, not deleted. */
    method FlushBatch(recipient: string, batchSize: int, now: int) returns (entries: seq<Entry>)
      ensures entries == Batch(EntriesOf(buckets, recipient), now, ttl, batchSize)
    {
      entries := [];
      if recipient !in buckets {
        return;
      }
      var es := buckets[recipient].entries;
      var k := 0;
      while k < |es| && |entries| < batchSize
        invariant 0 <= k <= |es|
        invariant entries == LiveEntries(es[..k], now, ttl)
        invariant |entries| <= Max(batchSize, 0)
      {
        assert es[..k + 1] == es[..k] + [es[k]];
        LiveConcat(es[..k], [es[k]], now, ttl);
        if Live(es[k], now, ttl) {
          entries := entries + [es[k]];
        }
        k := k + 1;
      }
      assert es == es[..k] + es[k..];
      LiveConcat(es[..k], es[k..], now, ttl);
      assert k == |es| ==> es[..k] == es;
    }

    method Remove(recipient: string, key: Key)
      requires Valid()
      modifies this
      ensures Valid()
      ensures buckets.Keys == old(buckets.Keys)
      ensures forall a :: a in buckets && a != recipient ==> buckets[a] == old(buckets)[a]
      ensures recipient in buckets ==>
                buckets[recipient] == Bucket(old(buckets)[recipient].sequence,
                                             Without(old(buckets)[recipient].entries, {key}))
    {
      if recipient in buckets {
        var sub := buckets[recipient];
        WithoutSorted(sub.entries, {key});
        buckets := buckets[recipient := sub.(entries := Without(sub.entries, {key}))];
      }
    }

    method Count(recipient: string) returns (count: nat)
      ensures count == |EntriesOf(buckets, recipient)|
    {
      count := |Lookup(buckets, recipient, EMPTY_BUCKET).entries|;
    }

    /** Deletes exactly the dead entries of every recipient and returns how many there were. */
    method Sweep(now: int) returns (total: nat)
      requires Valid()
      modifies this
      ensures Valid()
      ensures buckets == Swept(old(buckets), now, ttl)
      ensures total == |AllDead(old(buckets), old(buckets).Keys, now, ttl)|
    {
      total := 0;
      var todo := buckets.Keys;
      ghost var was, done: set<string> := buckets, {};
      while todo != {}
        invariant buckets.Keys == was.Keys && todo <= was.Keys && done == was.Keys - todo
        invariant forall a :: a in was ==> buckets[a] == if a in todo then was[a] else SweptBucket(was[a], now, ttl)
        invariant total == |AllDead(was, done, now, ttl)|
        invariant AllSorted(buckets)
      {
        var addr :| addr in todo;
        LiveSorted(buckets[addr].entries, now, ttl);
        var kept, cleaned := SweepBucket(buckets[addr].entries, now);
        DeadCount(was, done, addr, now, ttl);
        buckets := buckets[addr := Bucket(buckets[addr].sequence, kept)];
        total := total + cleaned;
        todo, done := todo - {addr}, done + {addr};
      }
      assert done == was.Keys;
    }

    /** Collect, then delete. */
    method SweepBucket(es: seq<Entry>, now: int) returns (kept: seq<Entry>, cleaned: nat)
      requires Sorted(es)
      ensures kept == LiveEntries(es, now, ttl)
      ensures cleaned == |DeadKeys(es, now, ttl)|
    {
      var expired := CollectDead(es, now);
      kept := DeleteKeys(es, expired);
      cleaned := |expired|;
      DeadKeysAre(es, now, ttl);
      DeadRemoved(es, now, ttl, set k | k in expired);
    }

    /** First pass: the keys of expired and corrupt entries. */
    method CollectDead(es: seq<Entry>, now: int) returns (expired: seq<Key>)
      ensures expired == DeadKeys(es, now, ttl)
    {
      expired := [];
      for i := 0 to |es|
        invariant expired + DeadKeys(es[i..], now, ttl) == DeadKeys(es, now, ttl)
      {
        assert es[i..][1..] == es[i + 1..];
        if !Live(es[i], now, ttl) {
          expired := expired + [es[i].key];
        }
      }
    }

    /** Second pass. */
    method DeleteKeys(es: seq<Entry>, expired: seq<Key>) returns (kept: seq<Entry>)
      ensures kept == Without(es, set k | k in expired)
    {
      kept := es;
      WithoutNothing(es);
      ghost var gone: set<Key> := {};
      for i := 0 to |expired|
        invariant gone == set k | k in expired[..i]
        invariant kept == Without(es, gone)
      {
        kept := Without(kept, {expired[i]});
        WithoutTwice(es, gone, {expired[i]});
        gone := gone + {expired[i]};
      }
      assert expired[..|expired|] == expired;
    }
  }

  // ---------- counting what a sweep removes ----------

  function DeadKeys(es: seq<Entry>, now: int, ttl: int): seq<Key> {
    if es == [] then []
    else if Live(es[0], now, ttl) then DeadKeys(es[1..], now, ttl)
    else [es[0].key] + DeadKeys(es[1..], now, ttl)
  }

  lemma {:induction false} DeadKeysAre(es: seq<Entry>, now: int, ttl: int)
    requires Sorted(es)
    ensures forall e :: e in es ==> (e.key in DeadKeys(es, now, ttl) <==> !Live(e, now, ttl))
    ensures forall k :: k in DeadKeys(es, now, ttl) ==> k in KeysOf(es)
  {
    if es != [] {
      SortedTail(es);
      DeadKeysAre(es[1..], now, ttl);
      assert es == [es[0]] + es[1..];
    }
  }

  lemma {:induction false} DeadKeysCount(a: string, es: seq<Entry>, now: int, ttl: int)
    requires Sorted(es)
    ensures |Dead(a, es, now, ttl)| == |DeadKeys(es, now, ttl)|
  {
    if es != [] {
      SortedTail(es);
      DeadKeysCount(a, es[1..], now, ttl);
      assert es == [es[0]] + es[1..];
      var rest := Dead(a, es[1..], now, ttl);
      if Live(es[0], now, ttl) {
        assert Dead(a, es, now, ttl) == rest;
      } else {
        assert Dead(a, es, now, ttl) == rest + {(a, es[0].key)};
        assert (a, es[0].key) !in rest;
      }
    }
  }

  lemma {:induction false} DeadCount(m: Buckets, done: set<string>, addr: string, now: int, ttl: int)
    requires addr in m && addr !in done && Sorted(m[addr].entries)
    ensures |AllDead(m, done + {addr}, now, ttl)|
         == |AllDead(m, done, now, ttl)| + |DeadKeys(m[addr].entries, now, ttl)|
  {
    DeadKeysCount(addr, m[addr].entries, now, ttl);
    var before, here := AllDead(m, done, now, ttl), Dead(addr, m[addr].entries, now, ttl);
    assert AllDead(m, done + {addr}, now, ttl) == before + here;
    assert before !! here;
  }
}
