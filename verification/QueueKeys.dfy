/**
  Keys of the durable message queue: 16 bytes, a big-endian timestamp followed by
  a big-endian sequence number, ordered bytewise as bbolt orders them
  (relay/internal/store/messagequeue.go).
 */
module QueueKeys {
  import opened Common

  const TWO_63: int := 0x8000_0000_0000_0000
  const TWO_64: int := 0x1_0000_0000_0000_0000

  type int64 = x: int | -TWO_63 <= x < TWO_63
  type uint64 = x: int | 0 <= x < TWO_64
  type Key = seq<byte>

  /** bytes.Compare(a, b) < 0. */
  predicate Less(a: Key, b: Key) {
    if b == [] then false
    else if a == [] then true
    else a[0] < b[0] || (a[0] == b[0] && Less(a[1..], b[1..]))
  }

  function Pow256(k: nat): (p: nat)
    ensures p > 0
  {
    if k == 0 then 1 else 256 * Pow256(k - 1)
  }

  /** The low `width` bytes of `n`, most significant first. */
  function BigEndian(n: nat, width: nat): (bytes: Key)
    ensures |bytes| == width
  {
    if width == 0 then [] else BigEndian(n / 256, width - 1) + [n % 256]
  }

  /** The Go conversion uint64(ts): two's complement. */
  function ToUint64(ts: int64): uint64 {
    if ts < 0 then ts + TWO_64 else ts
  }

  function EncodeKey(ts: int64, sequence: uint64): (key: Key)
    ensures |key| == 16
  {
    BigEndian(ToUint64(ts), 8) + BigEndian(sequence, 8)
  }

  // ---------- bytewise order ----------

  lemma {:induction false} LessTransitive(a: Key, b: Key, c: Key)
    requires Less(a, b) && Less(b, c)
    ensures Less(a, c)
  {
    if a != [] && a[0] == b[0] == c[0] {
      LessTransitive(a[1..], b[1..], c[1..]);
    }
  }

  lemma {:induction false} LessIrreflexive(a: Key)
    ensures !Less(a, a)
  {
    if a != [] {
      LessIrreflexive(a[1..]);
    }
  }

  lemma {:induction false} LessTrichotomy(a: Key, b: Key)
    ensures Less(a, b) || a == b || Less(b, a)
  {
    if a != [] && b != [] && a[0] == b[0] {
      LessTrichotomy(a[1..], b[1..]);
      assert a == [a[0]] + a[1..] && b == [b[0]] + b[1..];
    }
  }

  /** Comparing concatenations with equally long heads is lexicographic in (head, tail). */
  lemma {:induction false} LessConcat(a: Key, b: Key, c: Key, d: Key)
    requires |a| == |b|
    ensures Less(a + c, b + d) <==> Less(a, b) || (a == b && Less(c, d))
  {
    if a == [] {
      assert a + c == c && b + d == d;
    } else {
      LessConcat(a[1..], b[1..], c, d);
      assert (a + c)[1..] == a[1..] + c && (b + d)[1..] == b[1..] + d;
      assert a == [a[0]] + a[1..] && b == [b[0]] + b[1..];
    }
  }

  lemma {:induction false} BigEndianOrder(m: nat, n: nat, width: nat)
    requires m < Pow256(width) && n < Pow256(width)
    ensures Less(BigEndian(m, width), BigEndian(n, width)) <==> m < n
    ensures BigEndian(m, width) == BigEndian(n, width) <==> m == n
  {
    if width > 0 {
      BigEndianOrder(m / 256, n / 256, width - 1);
      var a, b := BigEndian(m / 256, width - 1), BigEndian(n / 256, width - 1);
      LessConcat(a, b, [m % 256], [n % 256]);
      assert (a + [m % 256])[..width - 1] == a && (b + [n % 256])[..width - 1] == b;
      assert (a + [m % 256])[width - 1] == m % 256 && (b + [n % 256])[width - 1] == n % 256;
    }
  }

  lemma {:induction false} EightBytes()
    ensures Pow256(8) == TWO_64
  {
    assert Pow256(1) == 256 && Pow256(2) == 256 * Pow256(1) && Pow256(3) == 256 * Pow256(2);
    assert Pow256(4) == 256 * Pow256(3) && Pow256(5) == 256 * Pow256(4) && Pow256(6) == 256 * Pow256(5);
    assert Pow256(7) == 256 * Pow256(6) && Pow256(8) == 256 * Pow256(7);
  }

  /** Byte order of keys is the order of (uint64 timestamp, sequence), and keys are unique. */
  lemma {:induction false} EncodeKeyOrderUnsigned(t1: int64, s1: uint64, t2: int64, s2: uint64)
    ensures Less(EncodeKey(t1, s1), EncodeKey(t2, s2)) <==>
            ToUint64(t1) < ToUint64(t2) || (t1 == t2 && s1 < s2)
    ensures EncodeKey(t1, s1) == EncodeKey(t2, s2) <==> t1 == t2 && s1 == s2
  {
    EightBytes();
    var (a, b) := (BigEndian(ToUint64(t1), 8), BigEndian(ToUint64(t2), 8));
    var (c, d) := (BigEndian(s1, 8), BigEndian(s2, 8));
    BigEndianOrder(ToUint64(t1), ToUint64(t2), 8);
    BigEndianOrder(s1, s2, 8);
    LessConcat(a, b, c, d);
    assert (a + c)[..8] == a && (b + d)[..8] == b && (a + c)[8..] == c && (b + d)[8..] == d;
  }

  /**
    Keys sort chronologically exactly when the two timestamps lie on the same side of the
    epoch: the unsigned conversion puts every pre-1970 timestamp after every later one.
   */
  lemma {:induction false} EncodeKeyOrder(t1: int64, s1: uint64, t2: int64, s2: uint64)
    ensures (Less(EncodeKey(t1, s1), EncodeKey(t2, s2)) <==> t1 < t2 || (t1 == t2 && s1 < s2))
            <==> (t1 < 0 <==> t2 < 0)
  {
    EncodeKeyOrderUnsigned(t1, s1, t2, s2);
  }

  lemma {:induction false} PreEpochKeySortsLast()
    ensures Less(EncodeKey(0, 1), EncodeKey(-1, 1))
  {
    EncodeKeyOrderUnsigned(0, 1, -1, 1);
  }
}
