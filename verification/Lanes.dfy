/**
  The invariant of one recipient: its bucket and its lane of the log. Everything here is
  about values, one recipient at a time; RelayInvariant.dfy lifts it to the whole system.
 */
module Lanes {
  import opened Common
  import opened QueueKeys
  import opened Wire
  import opened MessageQueues
  import opened Relay

  ghost predicate Increasing(xs: seq<Envelope>) {
    forall i, j :: 0 <= i < j < |xs| ==> xs[i].serial < xs[j].serial
  }

  ghost predicate Before(xs: seq<Envelope>, serial: nat) {
    forall x :: x in xs ==> x.serial < serial
  }

  ghost predicate KeysIncreasing(ks: seq<Key>) {
    forall i, j :: 0 <= i < j < |ks| ==> Less(ks[i], ks[j])
  }

  /** A key issued at some time up to `now` with a sequence number up to `sequence`. */
  ghost predicate Issued(k: Key, now: int64, sequence: uint64) {
    exists t: int64, q: uint64 :: 0 <= t <= now && q <= sequence && k == EncodeKey(t, q)
  }

  ghost predicate EntryOk(e: Entry, now: int64, sequence: uint64, next: nat) {
    e.value.Message? && e.value.envelope.serial < next && Issued(e.key, now, sequence)
  }

  /** The queue holds messages in admission order, within its capacity. */
  ghost predicate QueueOk(b: Bucket, max: nat, now: int64, next: nat) {
    && Sorted(b.entries)
    && |b.entries| <= max
    && (forall e :: e in b.entries ==> EntryOk(e, now, b.sequence, next))
    && (forall d, e :: d in b.entries && e in b.entries && d.value.Message? && e.value.Message? ==>
          Less(d.key, e.key) ==> d.value.envelope.serial < e.value.envelope.serial)
  }

  /** What can still be flushed comes after everything handed over or flushed so far. */
  ghost predicate AheadOf(e: Entry, lane: Lane) {
    && e.value.Message?
    && Before(lane.handed, e.value.envelope.serial)
    && (forall k :: k in lane.flushedKeys ==> Less(k, e.key))
  }

  ghost predicate OrderOk(b: Bucket, lane: Lane, ttl: int, now: int64, next: nat) {
    && Increasing(lane.admitted) && Before(lane.admitted, next)
    && Increasing(lane.handed) && Before(lane.handed, next)
    && Increasing(lane.placed)
    && KeysIncreasing(lane.flushedKeys)
    && (forall k :: k in lane.flushedKeys ==> Issued(k, now, b.sequence))
    && (forall e :: e in b.entries && Live(e, now, ttl) ==> AheadOf(e, lane))
  }

  /** Every admitted envelope is in exactly one place. */
  ghost predicate Conserved(es: seq<Entry>, lane: Lane) {
    && multiset(lane.admitted) == multiset(EnvelopesOf(es)) + multiset(lane.handed) + multiset(lane.swept)
    && multiset(lane.handed) == multiset(lane.placed) + multiset(lane.dropped)
  }

  /** Live routing reaches the recipient only when nothing deliverable is queued. */
  ghost predicate NothingLive(es: seq<Entry>, now: int, ttl: int) {
    forall e :: e in es ==> !Live(e, now, ttl)
  }

  ghost predicate LaneOk(b: Bucket, lane: Lane, max: nat, ttl: int, now: int64, next: nat, exposed: bool) {
    && QueueOk(b, max, now, next)
    && OrderOk(b, lane, ttl, now, next)
    && Conserved(b.entries, lane)
    && (exposed ==> NothingLive(b.entries, now, ttl))
  }

  // ---------- small facts ----------

  lemma {:induction false} IncreasingAppend(xs: seq<Envelope>, ys: seq<Envelope>)
    requires Increasing(xs) && Increasing(ys)
    requires forall y :: y in ys ==> Before(xs, y.serial)
    ensures Increasing(xs + ys)
  {
    var all := xs + ys;
    forall i, j | 0 <= i < j < |all| ensures all[i].serial < all[j].serial {
      if i < |xs| <= j {
        assert all[i] in xs && all[j] in ys;
      }
    }
  }

  lemma {:induction false} KeysAppend(xs: seq<Key>, ys: seq<Key>)
    requires KeysIncreasing(xs) && KeysIncreasing(ys)
    requires forall x, y :: x in xs && y in ys ==> Less(x, y)
    ensures KeysIncreasing(xs + ys)
  {
    var all := xs + ys;
    forall i, j | 0 <= i < j < |all| ensures Less(all[i], all[j]) {
      if i < |xs| <= j {
        assert all[i] in xs && all[j] in ys;
      }
    }
  }

  /** A fresh key sorts after every key issued before it. */
  lemma {:induction false} FreshKeyLast(k: Key, now: int64, sequence: uint64)
    requires 0 <= now && sequence + 1 < TWO_64 && Issued(k, now, sequence)
    ensures Less(k, EncodeKey(now, sequence + 1)) && !Less(EncodeKey(now, sequence + 1), k)
  {
    var t: int64, q: uint64 :| 0 <= t <= now && q <= sequence && k == EncodeKey(t, q);
    EncodeKeyOrderUnsigned(t, q, now, sequence + 1);
    EncodeKeyOrderUnsigned(now, sequence + 1, t, q);
  }

  lemma {:induction false} IssuedLater(k: Key, now: int64, sequence: uint64, now': int64, sequence': uint64)
    requires Issued(k, now, sequence) && now <= now' && sequence <= sequence'
    ensures Issued(k, now', sequence')
  {
    var t: int64, q: uint64 :| 0 <= t <= now && q <= sequence && k == EncodeKey(t, q);
  }

  lemma {:induction false} EnvelopesConcat(a: seq<Entry>, b: seq<Entry>)
    ensures EnvelopesOf(a + b) == EnvelopesOf(a) + EnvelopesOf(b)
  {
    if a == [] {
      assert a + b == b;
    } else {
      EnvelopesConcat(a[1..], b);
      assert (a + b)[1..] == a[1..] + b && (a + b)[0] == a[0];
    }
  }

  lemma {:induction false} EnvelopesMembers(es: seq<Entry>)
    ensures forall x :: x in EnvelopesOf(es) <==> exists e :: e in es && e.value.Message? && e.value.envelope == x
  {
    if es != [] {
      EnvelopesMembers(es[1..]);
      assert es == [es[0]] + es[1..];
    }
  }

  lemma {:induction false} EnvelopesIncreasing(es: seq<Entry>)
    requires Sorted(es)
    requires forall d, e :: d in es && e in es && d.value.Message? && e.value.Message? && Less(d.key, e.key) ==>
               d.value.envelope.serial < e.value.envelope.serial
    ensures Increasing(EnvelopesOf(es))
  {
    if es != [] {
      SortedTail(es);
      EnvelopesIncreasing(es[1..]);
      EnvelopesMembers(es[1..]);
      if es[0].value.Message? {
        IncreasingAppend([es[0].value.envelope], EnvelopesOf(es[1..]));
      }
    }
  }

  /** How often `x` is queued. */
  ghost function Occurrences(es: seq<Entry>, x: Envelope): nat {
    if es == [] then 0
    else (if es[0].value.Message? && es[0].value.envelope == x then 1 else 0) + Occurrences(es[1..], x)
  }

  lemma {:induction false} OccurrencesAre(es: seq<Entry>, x: Envelope)
    ensures Occurrences(es, x) == multiset(EnvelopesOf(es))[x]
  {
    if es != [] {
      OccurrencesAre(es[1..], x);
    }
  }

  lemma {:induction false} OccurrencesCons(e: Entry, es: seq<Entry>, x: Envelope)
    ensures Occurrences([e] + es, x) ==
            (if e.value.Message? && e.value.envelope == x then 1 else 0) + Occurrences(es, x)
  {
    assert ([e] + es)[1..] == es;
  }

  /** `x` occurs among the entries a batch leaves and those it takes. */
  ghost function Split(es: seq<Entry>, now: int, ttl: int, n: int, x: Envelope): nat {
    Occurrences(Without(es, KeysOf(Batch(es, now, ttl, n))), x) + Occurrences(Batch(es, now, ttl, n), x)
  }

  lemma {:induction false} LiveHeadConserves(es: seq<Entry>, now: int, ttl: int, n: int, x: Envelope)
    requires Sorted(es) && es != [] && Live(es[0], now, ttl) && n > 0
    requires Occurrences(es[1..], x) == Split(es[1..], now, ttl, n - 1, x)
    ensures Occurrences(es, x) == Split(es, now, ttl, n, x)
  {
    BatchLiveHead(es, now, ttl, n);
    OccurrencesCons(es[0], Batch(es[1..], now, ttl, n - 1), x);
  }

  lemma {:induction false} DeadHeadConserves(es: seq<Entry>, now: int, ttl: int, n: int, x: Envelope)
    requires Sorted(es) && es != [] && !Live(es[0], now, ttl)
    requires Occurrences(es[1..], x) == Split(es[1..], now, ttl, n, x)
    ensures Occurrences(es, x) == Split(es, now, ttl, n, x)
  {
    BatchDeadHead(es, now, ttl, n);
    OccurrencesCons(es[0], Without(es[1..], KeysOf(Batch(es[1..], now, ttl, n))), x);
  }

  lemma {:induction false} BatchConserves(es: seq<Entry>, now: int, ttl: int, n: int, x: Envelope)
    requires Sorted(es)
    ensures Occurrences(es, x) == Split(es, now, ttl, n, x)
  {
    if n <= 0 {
      WithoutNothing(es);
      assert KeysOf(Batch(es, now, ttl, n)) == {};
    } else if es != [] {
      var tail := es[1..];
      SortedTail(es);
      if Live(es[0], now, ttl) {
        BatchConserves(tail, now, ttl, n - 1, x);
        LiveHeadConserves(es, now, ttl, n, x);
      } else {
        BatchConserves(tail, now, ttl, n, x);
        DeadHeadConserves(es, now, ttl, n, x);
      }
    }
  }

  lemma {:induction false} SweepConserves(es: seq<Entry>, now: int, ttl: int, x: Envelope)
    ensures Occurrences(es, x) == Occurrences(LiveEntries(es, now, ttl), x) + Occurrences(DeadEntries(es, now, ttl), x)
  {
    if es != [] {
      SweepConserves(es[1..], now, ttl, x);
      OccurrencesCons(es[0], LiveEntries(es[1..], now, ttl), x);
      OccurrencesCons(es[0], DeadEntries(es[1..], now, ttl), x);
    }
  }

  /** The counting lemmas as equations between multisets. */
  lemma {:induction false} BatchBags(es: seq<Entry>, now: int, ttl: int, n: int)
    requires Sorted(es)
    ensures multiset(EnvelopesOf(es)) == multiset(EnvelopesOf(Without(es, KeysOf(Batch(es, now, ttl, n)))))
                                       + multiset(EnvelopesOf(Batch(es, now, ttl, n)))
  {
    var batch := Batch(es, now, ttl, n);
    var rest := Without(es, KeysOf(batch));
    forall x ensures multiset(EnvelopesOf(es))[x] == multiset(EnvelopesOf(rest))[x] + multiset(EnvelopesOf(batch))[x] {
      BatchConserves(es, now, ttl, n, x);
      OccurrencesAre(es, x);
      OccurrencesAre(rest, x);
      OccurrencesAre(batch, x);
    }
  }

  lemma {:induction false} SweepBags(es: seq<Entry>, now: int, ttl: int)
    ensures multiset(EnvelopesOf(es)) == multiset(EnvelopesOf(LiveEntries(es, now, ttl)))
                                       + multiset(EnvelopesOf(DeadEntries(es, now, ttl)))
  {
    var live, dead := LiveEntries(es, now, ttl), DeadEntries(es, now, ttl);
    forall x ensures multiset(EnvelopesOf(es))[x] == multiset(EnvelopesOf(live))[x] + multiset(EnvelopesOf(dead))[x] {
      SweepConserves(es, now, ttl, x);
      OccurrencesAre(es, x);
      OccurrencesAre(live, x);
      OccurrencesAre(dead, x);
    }
  }

  // ---------- the invariant under each operation on one recipient ----------

  /** Time and other recipients' traffic. */
  lemma {:induction false} LaneAdvances(b: Bucket, lane: Lane, max: nat, ttl: int, now: int64, next: nat, exposed: bool,
                     now': int64, next': nat, exposed': bool)
    requires LaneOk(b, lane, max, ttl, now, next, exposed)
    requires now <= now' && next <= next'
    requires exposed' ==> exposed || NothingLive(b.entries, now, ttl)
    ensures LaneOk(b, lane, max, ttl, now', next', exposed')
  {
    forall k | Issued(k, now, b.sequence) ensures Issued(k, now', b.sequence) {
      IssuedLater(k, now, b.sequence, now', b.sequence);
    }
    forall e | e in b.entries && Live(e, now', ttl) ensures AheadOf(e, lane) {
      assert Live(e, now, ttl);
    }
  }

  lemma {:induction false} FreshKeys(now: int64, sequence: uint64)
    requires 0 <= now && sequence + 1 < TWO_64
    ensures Issued(EncodeKey(now, sequence + 1), now, sequence + 1)
    ensures forall k :: Issued(k, now, sequence) ==>
              Less(k, EncodeKey(now, sequence + 1)) && !Less(EncodeKey(now, sequence + 1), k) &&
              Issued(k, now, sequence + 1)
  {
    forall k | Issued(k, now, sequence)
      ensures Less(k, EncodeKey(now, sequence + 1)) && !Less(EncodeKey(now, sequence + 1), k) &&
              Issued(k, now, sequence + 1)
    {
      FreshKeyLast(k, now, sequence);
      IssuedLater(k, now, sequence, now, sequence + 1);
    }
  }

  /** The new entry is appended. */
  lemma {:induction false} EnqueueAppends(b: Bucket, now: int64, sender: string, env: Envelope)
    requires 0 <= now && b.sequence + 1 < TWO_64
    requires forall e :: e in b.entries ==> Issued(e.key, now, b.sequence)
    ensures Enqueued(b, now, sender, env) ==
            Bucket(b.sequence + 1, b.entries + [Entry(EncodeKey(now, b.sequence + 1), Message(now, sender, env))])
  {
    KeysBelow(b, now);
    PutsLast(b, now, sender, env, EncodeKey(now, b.sequence + 1));
  }

  lemma {:induction false} PutsLast(b: Bucket, now: int64, sender: string, env: Envelope, key: Key)
    requires b.sequence + 1 < TWO_64 && key == EncodeKey(now, b.sequence + 1)
    requires forall e :: e in b.entries ==> Less(e.key, key)
    ensures Enqueued(b, now, sender, env)
         == Bucket(b.sequence + 1, b.entries + [Entry(key, Message(now, sender, env))])
  {
    PutAtEnd(b.entries, Entry(key, Message(now, sender, env)));
  }

  lemma {:induction false} KeysBelow(b: Bucket, now: int64)
    requires 0 <= now && b.sequence + 1 < TWO_64
    requires forall e :: e in b.entries ==> Issued(e.key, now, b.sequence)
    ensures forall e :: e in b.entries ==> Less(e.key, EncodeKey(now, b.sequence + 1))
  {
    forall e | e in b.entries ensures Less(e.key, EncodeKey(now, b.sequence + 1)) {
      FreshKeyLast(e.key, now, b.sequence);
    }
  }

  lemma {:induction false} QueueEnqueues(b: Bucket, max: nat, now: int64, next: nat, sender: string, env: Envelope)
    requires QueueOk(b, max, now, next)
    requires 0 <= now && b.sequence + 1 < TWO_64 && |b.entries| < max && env.serial == next
    ensures QueueOk(Enqueued(b, now, sender, env), max, now, next + 1)
  {
    EnqueueAppends(b, now, sender, env);
    FreshKeys(now, b.sequence);
    LessIrreflexive(EncodeKey(now, b.sequence + 1));
  }

  lemma {:induction false} OrderEnqueues(b: Bucket, lane: Lane, ttl: int, now: int64, next: nat, e: Entry)
    requires OrderOk(b, lane, ttl, now, next)
    requires b.sequence + 1 < TWO_64 && e.value.Message? && e.value.envelope.serial == next
    requires forall k :: Issued(k, now, b.sequence) ==> Less(k, e.key) && Issued(k, now, b.sequence + 1)
    ensures OrderOk(Bucket(b.sequence + 1, b.entries + [e]),
                    lane.(admitted := lane.admitted + [e.value.envelope]), ttl, now, next + 1)
  {
    var lane' := lane.(admitted := lane.admitted + [e.value.envelope]);
    IncreasingAppend(lane.admitted, [e.value.envelope]);
    forall x | x in b.entries + [e] && Live(x, now, ttl) ensures AheadOf(x, lane') {
      if x in b.entries {
        assert AheadOf(x, lane);
      }
    }
  }

  lemma {:induction false} LaneEnqueues(b: Bucket, lane: Lane, max: nat, ttl: int, now: int64, next: nat,
                                        sender: string, env: Envelope)
    requires LaneOk(b, lane, max, ttl, now, next, false)
    requires 0 <= now && b.sequence + 1 < TWO_64 && |b.entries| < max && env.serial == next
    ensures LaneOk(Enqueued(b, now, sender, env), lane.(admitted := lane.admitted + [env]), max, ttl, now, next + 1,
                   false)
  {
    var e := Entry(EncodeKey(now, b.sequence + 1), Message(now, sender, env));
    QueueEnqueues(b, max, now, next, sender, env);
    EnqueueAppends(b, now, sender, env);
    assert OrderOk(Enqueued(b, now, sender, env), lane.(admitted := lane.admitted + [env]), ttl, now, next + 1) by {
      FreshKeys(now, b.sequence);
      OrderEnqueues(b, lane, ttl, now, next, e);
    }
    assert Conserved(b.entries + [e], lane.(admitted := lane.admitted + [env])) by {
      EnvelopesConcat(b.entries, [e]);
      assert EnvelopesOf([e]) == [env];
    }
  }

  lemma {:induction false} TakeSplits<T>(xs: seq<T>, n: int)
    ensures var fit := Take(xs, n); |fit| <= |xs| && xs == fit + xs[|fit|..]
  {
  }

  lemma {:induction false} HandOrders(lane: Lane, envelopes: seq<Envelope>, buffered: nat)
    requires Increasing(lane.handed) && Increasing(lane.placed) && Increasing(envelopes)
    requires forall x :: x in lane.placed ==> x in lane.handed
    requires forall y :: y in envelopes ==> Before(lane.handed, y.serial)
    ensures var l := Hand(lane, envelopes, buffered); Increasing(l.handed) && Increasing(l.placed)
  {
    IncreasingAppend(lane.handed, envelopes);
    var fit := Take(envelopes, SEND_BUFFER_SIZE - buffered);
    TakeSplits(envelopes, SEND_BUFFER_SIZE - buffered);
    assert fit == envelopes[..|fit|];
    IncreasingAppend(lane.placed, fit);
  }

  lemma {:induction false} HandSplits(lane: Lane, envelopes: seq<Envelope>, buffered: nat)
    requires Increasing(lane.handed) && Increasing(lane.placed) && Increasing(envelopes)
    requires multiset(lane.handed) == multiset(lane.placed) + multiset(lane.dropped)
    requires forall y :: y in envelopes ==> Before(lane.handed, y.serial)
    ensures var l := Hand(lane, envelopes, buffered);
            Increasing(l.handed) && Increasing(l.placed) &&
            multiset(l.handed) == multiset(l.placed) + multiset(l.dropped)
  {
    forall x | x in lane.placed ensures x in lane.handed {
      assert x in multiset(lane.handed);
    }
    HandOrders(lane, envelopes, buffered);
    var fit := Take(envelopes, SEND_BUFFER_SIZE - buffered);
    TakeSplits(envelopes, SEND_BUFFER_SIZE - buffered);
    assert multiset(envelopes) == multiset(fit) + multiset(envelopes[|fit|..]);
  }

  lemma {:induction false} LaneDirect(b: Bucket, lane: Lane, max: nat, ttl: int, now: int64, next: nat,
                                      env: Envelope, buffered: nat)
    requires LaneOk(b, lane, max, ttl, now, next, true)
    requires env.serial == next
    ensures LaneOk(b, Hand(lane.(admitted := lane.admitted + [env]), [env], buffered), max, ttl, now, next + 1, true)
  {
    HandSplits(lane.(admitted := lane.admitted + [env]), [env], buffered);
    IncreasingAppend(lane.admitted, [env]);
  }

  lemma {:induction false} LaneFlushes(b: Bucket, lane: Lane, max: nat, ttl: int, now: int64, next: nat, n: int,
                                       buffered: nat)
    requires LaneOk(b, lane, max, ttl, now, next, false)
    ensures var batch := Batch(b.entries, now, ttl, n);
            var l := Hand(lane, EnvelopesOf(batch), buffered);
            LaneOk(Bucket(b.sequence, Without(b.entries, KeysOf(batch))),
                   l.(flushedKeys := l.flushedKeys + KeySeq(batch)), max, ttl, now, next, false)
  {
    var es := b.entries;
    var batch := Batch(es, now, ttl, n);
    var rest := Without(es, KeysOf(batch));
    var l := Hand(lane, EnvelopesOf(batch), buffered);
    var l' := l.(flushedKeys := l.flushedKeys + KeySeq(batch));
    BatchFacts(es, now, ttl, n);
    KeySeqFacts(batch);
    EnvelopesMembers(batch);
    EnvelopesIncreasing(batch);
    HandSplits(lane, EnvelopesOf(batch), buffered);
    KeysAppend(lane.flushedKeys, KeySeq(batch));
    BatchBags(es, now, ttl, n);
    forall e | e in rest && Live(e, now, ttl) ensures AheadOf(e, l') {
      assert AheadOf(e, lane);
    }
  }

  /** The batch is live and sorted, and what stays behind and is live sorts after it. */
  lemma {:induction false} BatchFacts(es: seq<Entry>, now: int, ttl: int, n: int)
    requires Sorted(es)
    ensures var batch := Batch(es, now, ttl, n);
            var rest := Without(es, KeysOf(batch));
            && Sorted(batch) && Sorted(rest) && |rest| <= |es|
            && (forall e :: e in batch ==> e in es && Live(e, now, ttl))
            && (forall e :: e in rest ==> e in es)
            && (forall d, e :: d in batch && e in rest && Live(e, now, ttl) ==> Less(d.key, e.key))
  {
    var live, batch := LiveEntries(es, now, ttl), Batch(es, now, ttl, n);
    var rest := Without(es, KeysOf(batch));
    LiveSorted(es, now, ttl);
    LiveMembers(es, now, ttl);
    WithoutSorted(es, KeysOf(batch));
    WithoutMembers(es, KeysOf(batch));
    BatchRemoved(es, now, ttl, n);
    LiveMembers(rest, now, ttl);
    assert batch == live[..|batch|];
    assert Sorted(batch);
    forall d, e | d in batch && e in rest && Live(e, now, ttl) ensures Less(d.key, e.key) {
      assert e in live[|batch|..];
    }
  }

  lemma {:induction false} KeySeqFacts(es: seq<Entry>)
    requires Sorted(es)
    ensures KeysIncreasing(KeySeq(es))
    ensures forall k :: k in KeySeq(es) ==> exists e :: e in es && e.key == k
  {
    forall k | k in KeySeq(es) ensures exists e :: e in es && e.key == k {
      var i :| 0 <= i < |es| && KeySeq(es)[i] == k;
      assert es[i] in es;
    }
  }

  lemma {:induction false} LaneSweeps(b: Bucket, lane: Lane, max: nat, ttl: int, now: int64, next: nat, exposed: bool)
    requires LaneOk(b, lane, max, ttl, now, next, exposed)
    ensures LaneOk(SweptBucket(b, now, ttl),
                   lane.(swept := lane.swept + EnvelopesOf(DeadEntries(b.entries, now, ttl))),
                   max, ttl, now, next, exposed)
  {
    LiveSorted(b.entries, now, ttl);
    LiveMembers(b.entries, now, ttl);
    SweepBags(b.entries, now, ttl);
  }
}
