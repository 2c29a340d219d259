/**
  Base58 over the alphabet [1-9A-HJ-NP-Za-km-z], with leading zero bytes kept as leading
  '1' characters: the codec under pinch addresses (skill/src/identity.ts,
  relay/internal/identity/identity.go).
 */
module Base58 {
  import opened Common

  // ---------- positional notation ----------

  /** The number denoted by big-endian digits. */
  function NatOf(ds: seq<nat>, base: nat): nat {
    if ds == [] then 0 else NatOf(ds[..|ds| - 1], base) * base + ds[|ds| - 1]
  }

  /** The big-endian digits of `n`, without leading zeros. */
  function DigitsOf(n: nat, base: nat): seq<nat>
    requires base >= 2
  {
    if n == 0 then [] else
      Shrinks(n, base);
      DigitsOf(n / base, base) + [n % base]
  }

  ghost predicate DigitsBelow(ds: seq<nat>, base: nat) {
    forall i :: 0 <= i < |ds| ==> ds[i] < base
  }

  lemma {:induction false} Shrinks(n: nat, base: nat)
    requires n > 0 && base >= 2
    ensures n / base < n
  {
  }

  lemma {:induction false} DivMod(n: nat, base: nat, q: nat, r: nat)
    requires base > 0 && r < base && n == q * base + r
    ensures n / base == q && n % base == r
  {
    var k: int, b: int := n / base - q, base;
    assert k * b == r - n % base;
    assert k >= 1 ==> k * b >= b;
    assert k <= -1 ==> k * b <= 0 - b;
  }

  lemma {:induction false} NatOfSnoc(init: seq<nat>, last: nat, base: nat)
    ensures NatOf(init + [last], base) == NatOf(init, base) * base + last
  {
    assert (init + [last])[..|init|] == init;
  }

  lemma {:induction false} LastDigit(n: nat, base: nat) returns (q: nat, r: nat)
    requires n > 0 && base >= 2
    ensures q < n && r < base && n == q * base + r
    ensures DigitsOf(n, base) == DigitsOf(q, base) + [r]
  {
    q, r := n / base, n % base;
    Shrinks(n, base);
  }

  lemma {:induction false} NatOfDigitsOf(n: nat, base: nat)
    requires base >= 2
    ensures NatOf(DigitsOf(n, base), base) == n
  {
    if n != 0 {
      var q, r := LastDigit(n, base);
      NatOfDigitsOf(q, base);
      NatOfSnoc(DigitsOf(q, base), r, base);
    }
  }

  lemma {:induction false} DigitsOfCanonical(n: nat, base: nat)
    requires base >= 2
    ensures DigitsBelow(DigitsOf(n, base), base)
    ensures n != 0 ==> DigitsOf(n, base) != [] && DigitsOf(n, base)[0] != 0
  {
    if n != 0 {
      var q, r := LastDigit(n, base);
      DigitsOfCanonical(q, base);
    }
  }

  lemma {:induction false} DigitsOfNatOf(ds: seq<nat>, base: nat)
    requires base >= 2 && DigitsBelow(ds, base) && (ds == [] || ds[0] != 0)
    ensures DigitsOf(NatOf(ds, base), base) == ds
    ensures ds != [] ==> NatOf(ds, base) > 0
  {
    if ds != [] {
      var init, last := ds[..|ds| - 1], ds[|ds| - 1];
      DigitsOfNatOf(init, base);
      if init != [] {
        assert NatOf(init, base) * base >= 1;
      }
      DivMod(NatOf(ds, base), base, NatOf(init, base), last);
      assert ds == init + [last];
    }
  }

  // ---------- changing base, keeping leading zeros ----------

  function LeadingZeros(ds: seq<nat>): (k: nat)
    ensures k <= |ds|
    ensures k < |ds| ==> ds[k] != 0
    ensures forall i :: 0 <= i < k ==> ds[i] == 0
  {
    if ds == [] || ds[0] != 0 then 0 else 1 + LeadingZeros(ds[1..])
  }

  function Zeros(k: nat): seq<nat> {
    seq(k, _ => 0)
  }

  function Recode(ds: seq<nat>, from: nat, to: nat): seq<nat>
    requires to >= 2
  {
    var k := LeadingZeros(ds);
    Zeros(k) + DigitsOf(NatOf(ds[k..], from), to)
  }

  lemma {:induction false} LeadingZerosOf(k: nat, ds: seq<nat>)
    requires ds == [] || ds[0] != 0
    ensures LeadingZeros(Zeros(k) + ds) == k
    ensures (Zeros(k) + ds)[k..] == ds
  {
    if k == 0 {
      assert Zeros(0) + ds == ds;
    } else {
      LeadingZerosOf(k - 1, ds);
      assert (Zeros(k) + ds)[1..] == Zeros(k - 1) + ds;
    }
  }

  /** Changing base and back is the identity, so recoding is a bijection on digit strings. */
  lemma {:induction false} RecodeRoundTrip(ds: seq<nat>, b: nat, c: nat)
    requires b >= 2 && c >= 2 && DigitsBelow(ds, b)
    ensures Recode(Recode(ds, b, c), c, b) == ds
    ensures DigitsBelow(Recode(ds, b, c), c)
  {
    var k := LeadingZeros(ds);
    var rest := ds[k..];
    var coded := DigitsOf(NatOf(rest, b), c);
    assert ds == Zeros(k) + rest;
    DigitsOfNatOf(rest, b);
    NatOfDigitsOf(NatOf(rest, b), c);
    DigitsOfCanonical(NatOf(rest, b), c);
    LeadingZerosOf(k, coded);
  }

  // ---------- characters ----------

  predicate InAlphabet(c: char) {
    '1' <= c <= '9' || 'A' <= c <= 'H' || 'J' <= c <= 'N' || 'P' <= c <= 'Z' || 'a' <= c <= 'k' || 'm' <= c <= 'z'
  }

  /** Digits and letters, without the four that are mistaken for one another. */
  lemma {:induction false} AlphabetIs(c: char)
    ensures InAlphabet(c) <==>
            ('0' <= c <= '9' || 'A' <= c <= 'Z' || 'a' <= c <= 'z') && c !in {'0', 'O', 'I', 'l'}
  {
  }

  function CharValue(c: char): (v: nat)
    requires InAlphabet(c)
    ensures v < 58 && ValueChar(v) == c
  {
    if c <= '9' then c as int - '1' as int
    else if c <= 'H' then 9 + (c as int - 'A' as int)
    else if c <= 'N' then 17 + (c as int - 'J' as int)
    else if c <= 'Z' then 22 + (c as int - 'P' as int)
    else if c <= 'k' then 33 + (c as int - 'a' as int)
    else 44 + (c as int - 'm' as int)
  }

  function ValueChar(v: nat): (c: char)
    requires v < 58
    ensures InAlphabet(c)
  {
    if v < 9 then ('1' as int + v) as char
    else if v < 17 then ('A' as int + (v - 9)) as char
    else if v < 22 then ('J' as int + (v - 17)) as char
    else if v < 33 then ('P' as int + (v - 22)) as char
    else if v < 44 then ('a' as int + (v - 33)) as char
    else ('m' as int + (v - 44)) as char
  }

  lemma {:induction false} ValueCharValue(v: nat)
    requires v < 58
    ensures CharValue(ValueChar(v)) == v
  {
  }

  /** Digits and characters are in the same order. */
  lemma {:induction false} ValueCharIncreases(v: nat, w: nat)
    requires v < w < 58
    ensures ValueChar(v) < ValueChar(w)
  {
  }

  /** The characters of the first v digits. */
  ghost function FirstChars(v: nat): (s: set<char>)
    requires v <= 58
    ensures |s| == v && forall c :: c in s <==> InAlphabet(c) && CharValue(c) < v
  {
    if v == 0 then {} else
      ValueCharValue(v - 1);
      FirstChars(v - 1) + {ValueChar(v - 1)}
  }

  /** The digit of a character is its rank: how many characters of the alphabet precede it. */
  ghost function Rank(c: char): nat {
    |set d: char | InAlphabet(d) && d < c|
  }

  lemma {:induction false} ValueIsRank(c: char)
    requires InAlphabet(c)
    ensures CharValue(c) == Rank(c)
  {
    var v := CharValue(c);
    forall d | InAlphabet(d) ensures d < c <==> CharValue(d) < v {
      if CharValue(d) < v {
        ValueCharIncreases(CharValue(d), v);
      } else if v < CharValue(d) {
        ValueCharIncreases(v, CharValue(d));
      }
    }
    assert (set d: char | InAlphabet(d) && d < c) == FirstChars(v);
  }

  predicate AllAlphabet(s: string) {
    forall i :: 0 <= i < |s| ==> InAlphabet(s[i])
  }

  function Values(s: string): (ds: seq<nat>)
    requires AllAlphabet(s)
    ensures |ds| == |s| && DigitsBelow(ds, 58)
  {
    seq(|s|, i requires 0 <= i < |s| => CharValue(s[i]))
  }

  function Chars(ds: seq<nat>): (s: string)
    requires DigitsBelow(ds, 58)
    ensures |s| == |ds| && AllAlphabet(s)
  {
    seq(|ds|, i requires 0 <= i < |ds| => ValueChar(ds[i]))
  }

  // ---------- the codec ----------

  function Encode(bytes: seq<byte>): (s: string)
    ensures AllAlphabet(s)
  {
    RecodeRoundTrip(bytes, 256, 58);
    Chars(Recode(bytes, 256, 58))
  }

  function Decode(s: string): seq<byte>
    requires AllAlphabet(s)
  {
    RecodeRoundTrip(Values(s), 58, 256);
    var ds := Recode(Values(s), 58, 256);
    seq(|ds|, i requires 0 <= i < |ds| => ds[i])
  }

  lemma {:induction false} DecodeEncode(bytes: seq<byte>)
    ensures Decode(Encode(bytes)) == bytes
  {
    RecodeRoundTrip(bytes, 256, 58);
    var ds := Recode(bytes, 256, 58);
    ValuesOfChars(ds);
    assert Decode(Encode(bytes)) == Recode(ds, 58, 256);
  }

  // ---------- what an encoding denotes ----------

  function Pow(base: nat, k: nat): nat {
    if k == 0 then 1 else base * Pow(base, k - 1)
  }

  /** The first digit is the most significant one. */
  lemma {:induction false} NatOfCons(d: nat, ds: seq<nat>, base: nat)
    ensures NatOf([d] + ds, base) == d * Pow(base, |ds|) + NatOf(ds, base)
  {
    if ds == [] {
      assert [d] + ds == [d] && [d][..0] == [];
    } else {
      var init, last := ds[..|ds| - 1], ds[|ds| - 1];
      NatOfCons(d, init, base);
      assert ([d] + ds)[..|ds|] == [d] + init;
      Distribute(d, Pow(base, |init|), NatOf(init, base), base);
    }
  }

  lemma {:induction false} Distribute(d: nat, p: nat, n: nat, base: nat)
    ensures (d * p + n) * base == d * (base * p) + n * base
  {
    assert (d * p) * base == d * (base * p);
  }

  lemma {:induction false} NatOfZeros(k: nat, ds: seq<nat>, base: nat)
    ensures NatOf(Zeros(k) + ds, base) == NatOf(ds, base)
  {
    if k == 0 {
      assert Zeros(0) + ds == ds;
    } else {
      NatOfZeros(k - 1, ds, base);
      assert Zeros(k) + ds == [0] + (Zeros(k - 1) + ds);
      NatOfCons(0, Zeros(k - 1) + ds, base);
    }
  }

  /** The characters of a string by their rank in the alphabet. */
  ghost function Ranks(s: string): seq<nat> {
    seq(|s|, i requires 0 <= i < |s| => Rank(s[i]))
  }

  /** How many '1' a string starts with. */
  function Ones(s: string): nat {
    if s == [] || s[0] != '1' then 0 else 1 + Ones(s[1..])
  }

  lemma {:induction false} OnesAreZeros(s: string)
    requires AllAlphabet(s)
    ensures Ones(s) == LeadingZeros(Values(s))
  {
    if s != [] && s[0] == '1' {
      OnesAreZeros(s[1..]);
      assert Values(s)[1..] == Values(s[1..]);
    }
  }

  lemma {:induction false} ValuesAreRanks(s: string)
    requires AllAlphabet(s)
    ensures Values(s) == Ranks(s)
  {
    forall i | 0 <= i < |s| ensures Values(s)[i] == Ranks(s)[i] {
      ValueIsRank(s[i]);
    }
  }

  lemma {:induction false} RecodeDenotes(ds: seq<nat>, b: nat, c: nat)
    requires b >= 2 && c >= 2
    ensures NatOf(Recode(ds, b, c), c) == NatOf(ds, b)
    ensures LeadingZeros(Recode(ds, b, c)) == LeadingZeros(ds)
  {
    var k := LeadingZeros(ds);
    var n := NatOf(ds[k..], b);
    assert ds == Zeros(k) + ds[k..];
    NatOfZeros(k, ds[k..], b);
    NatOfDigitsOf(n, c);
    DigitsOfCanonical(n, c);
    NatOfZeros(k, DigitsOf(n, c), c);
    LeadingZerosOf(k, DigitsOf(n, c));
  }

  /**
    The meaning of an encoding: it is the one string over the alphabet that starts with as many '1'
    as there are leading zero bytes and whose characters, read by rank in base 58, denote the number
    that the bytes denote in base 256.
   */
  lemma {:induction false} EncodeDenotes(bytes: seq<byte>, s: string)
    ensures s == Encode(bytes) <==>
            AllAlphabet(s) && Ones(s) == LeadingZeros(bytes) && NatOf(Ranks(s), 58) == NatOf(bytes, 256)
  {
    var e, ds := Encode(bytes), Recode(bytes, 256, 58);
    RecodeRoundTrip(bytes, 256, 58);
    RecodeDenotes(bytes, 256, 58);
    ValuesOfChars(ds);
    OnesAreZeros(e);
    ValuesAreRanks(e);
    if AllAlphabet(s) && Ones(s) == LeadingZeros(bytes) && NatOf(Ranks(s), 58) == NatOf(bytes, 256) {
      OnesAreZeros(s);
      ValuesAreRanks(s);
      SameDigits(Values(s), ds, 58);
      assert s == Chars(Values(s)) == Chars(ds);
    }
  }

  lemma {:induction false} ValuesOfChars(ds: seq<nat>)
    requires DigitsBelow(ds, 58)
    ensures Values(Chars(ds)) == ds
  {
    forall i | 0 <= i < |ds| ensures Values(Chars(ds))[i] == ds[i] {
      ValueCharValue(ds[i]);
    }
  }

  lemma {:induction false} DigitsAre(ds: seq<nat>, base: nat)
    requires base >= 2 && DigitsBelow(ds, base)
    ensures ds == Zeros(LeadingZeros(ds)) + DigitsOf(NatOf(ds, base), base)
  {
    var k := LeadingZeros(ds);
    assert ds == Zeros(k) + ds[k..];
    NatOfZeros(k, ds[k..], base);
    DigitsOfNatOf(ds[k..], base);
  }

  /** Leading zeros and value determine a digit string. */
  lemma {:induction false} SameDigits(ds: seq<nat>, es: seq<nat>, base: nat)
    requires base >= 2 && DigitsBelow(ds, base) && DigitsBelow(es, base)
    requires LeadingZeros(ds) == LeadingZeros(es) && NatOf(ds, base) == NatOf(es, base)
    ensures ds == es
  {
    DigitsAre(ds, base);
    DigitsAre(es, base);
  }

  lemma {:induction false} EncodeDecode(s: string)
    requires AllAlphabet(s)
    ensures Encode(Decode(s)) == s
  {
    RecodeRoundTrip(Values(s), 58, 256);
    var bytes: seq<nat> := Decode(s);
    assert bytes == Recode(Values(s), 58, 256);
    assert Recode(bytes, 256, 58) == Values(s);
    assert Chars(Values(s)) == s;
  }
}
