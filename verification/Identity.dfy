/**
  Pinch addresses: pinch:<base58(key + checksum)>@<host>
  (skill/src/identity.ts, relay/internal/identity/identity.go). SHA-256 is a parameter:
  any function with 32-byte results.
 */
module Identity {
  import opened Common
  import opened Base58

  type Sha256 = f: seq<byte> -> seq<byte> | forall x :: |f(x)| == 32
    witness x => seq(32, _ => 0)

  type PublicKey = k: seq<byte> | |k| == 32
    witness seq(32, _ => 0)

  const SCHEME := "pinch:"

  /** The characters `.` does not match in the TypeScript and in the Go pattern. */
  const TS_LINE_BREAKS: set<char> := {'\n', '\r', '\U{2028}', '\U{2029}'}
  const GO_LINE_BREAKS: set<char> := {'\n'}

  predicate HostOk(host: string, breaks: set<char>) {
    host != [] && forall i :: 0 <= i < |host| ==> host[i] !in breaks
  }

  function Payload(sha: Sha256, key: PublicKey): seq<byte> {
    key + sha(key)[..4]
  }

  function GenerateAddress(sha: Sha256, key: PublicKey, host: string): string {
    SCHEME + Encode(Payload(sha, key)) + "@" + host
  }

  /** Length of the longest prefix over the Base58 alphabet. */
  function AlphabetPrefix(s: string): (n: nat)
    ensures n <= |s| && AllAlphabet(s[..n])
    ensures n < |s| ==> !InAlphabet(s[n])
  {
    if s == [] || !InAlphabet(s[0]) then 0
    else
      var n := AlphabetPrefix(s[1..]);
      assert s[..n + 1] == [s[0]] + s[1..][..n];
      n + 1
  }

  /** The match of ^pinch:([alphabet]+)@(.+)$, if there is one. */
  function ParseAddress(addr: string, breaks: set<char>): (r: Option<(string, string)>)
    ensures r.Some? ==> AllAlphabet(r.value.0)
  {
    if !(SCHEME <= addr) then None
    else
      var rest := addr[|SCHEME|..];
      var n := AlphabetPrefix(rest);
      if 0 < n < |rest| && rest[n] == '@' && HostOk(rest[n + 1..], breaks)
      then Some((rest[..n], rest[n + 1..]))
      else None
  }

  datatype Parsed = Accepted(key: PublicKey, host: string) | BadFormat | BadLength | BadChecksum

  function ValidatedAddress(sha: Sha256, addr: string, breaks: set<char>): Parsed {
    match ParseAddress(addr, breaks)
    case None => BadFormat
    case Some((payload, host)) =>
      var decoded := Decode(payload);
      if |decoded| != 36 then BadLength
      else if decoded[32..] != sha(decoded[..32])[..4] then BadChecksum
      else Accepted(decoded[..32], host)
  }

  /** validateAddress, with its byte-by-byte checksum comparison. */
  method ValidateAddress(sha: Sha256, addr: string, breaks: set<char>) returns (r: Parsed)
    ensures r == ValidatedAddress(sha, addr, breaks)
  {
    var parsed := ParseAddress(addr, breaks);
    if parsed.None? {
      return BadFormat;
    }
    var (payload, host) := parsed.value;
    var decoded := Decode(payload);
    if |decoded| != 36 {
      return BadLength;
    }
    var key := decoded[..32];
    var same := ChecksumMatches(decoded[32..], sha(key));
    return if same then Accepted(key, host) else BadChecksum;
  }

  method ChecksumMatches(checksum: seq<byte>, hash: seq<byte>) returns (same: bool)
    requires |checksum| == 4 <= |hash|
    ensures same <==> checksum == hash[..4]
  {
    for i := 0 to 4
      invariant checksum[..i] == hash[..i]
    {
      if checksum[i] != hash[i] {
        return false;
      }
    }
    return true;
  }

  // ---------- the pattern ----------

  /** What the regular expression means, independently of how it is matched. */
  ghost predicate Matches(addr: string, payload: string, host: string, breaks: set<char>) {
    addr == SCHEME + payload + "@" + host && payload != [] && AllAlphabet(payload) && HostOk(host, breaks)
  }

  lemma {:induction false} AlphabetPrefixIs(p: string, rest: string)
    requires AllAlphabet(p) && rest != [] && !InAlphabet(rest[0])
    ensures AlphabetPrefix(p + rest) == |p|
  {
    if p == [] {
      assert p + rest == rest;
    } else {
      AlphabetPrefixIs(p[1..], rest);
      assert (p + rest)[1..] == p[1..] + rest;
    }
  }

  lemma {:induction false} MatchIsParsed(addr: string, payload: string, host: string, breaks: set<char>)
    requires Matches(addr, payload, host, breaks)
    ensures ParseAddress(addr, breaks) == Some((payload, host))
  {
    var rest := addr[|SCHEME|..];
    assert rest == payload + ("@" + host);
    AlphabetPrefixIs(payload, "@" + host);
    assert rest[..|payload|] == payload && rest[|payload| + 1..] == host;
  }

  lemma {:induction false} ParsedMatches(addr: string, breaks: set<char>)
    requires ParseAddress(addr, breaks).Some?
    ensures var (payload, host) := ParseAddress(addr, breaks).value; Matches(addr, payload, host, breaks)
  {
    var rest := addr[|SCHEME|..];
    var n := AlphabetPrefix(rest);
    assert rest == rest[..n] + "@" + rest[n + 1..];
    assert addr == SCHEME + (rest[..n] + "@" + rest[n + 1..]) == SCHEME + rest[..n] + "@" + rest[n + 1..];
  }

  /** The split at '@' is unique, and the parser finds it exactly when it exists. */
  lemma {:induction false} ParseMatches(addr: string, payload: string, host: string, breaks: set<char>)
    ensures ParseAddress(addr, breaks) == Some((payload, host)) <==> Matches(addr, payload, host, breaks)
  {
    if Matches(addr, payload, host, breaks) {
      MatchIsParsed(addr, payload, host, breaks);
    } else if ParseAddress(addr, breaks).Some? {
      ParsedMatches(addr, breaks);
    }
  }

  lemma {:induction false} EncodeNonEmpty(bytes: seq<byte>)
    requires bytes != []
    ensures Encode(bytes) != []
  {
    DecodeEncode(bytes);
    assert Decode("") == [];
  }

  lemma {:induction false} DecodeNonEmpty(s: string)
    requires AllAlphabet(s) && s != []
    ensures Decode(s) != []
  {
    EncodeDecode(s);
    assert Encode([]) == "";
  }

  // ---------- main results ----------

  /** An address validates back to its own key and host exactly when the host matches `.+`. */
  lemma {:induction false} AddressRoundTrip(sha: Sha256, key: PublicKey, host: string, breaks: set<char>)
    ensures ValidatedAddress(sha, GenerateAddress(sha, key, host), breaks) == Accepted(key, host)
            <==> HostOk(host, breaks)
    ensures !HostOk(host, breaks) ==> ValidatedAddress(sha, GenerateAddress(sha, key, host), breaks) == BadFormat
  {
    var addr, payload := GenerateAddress(sha, key, host), Encode(Payload(sha, key));
    EncodeNonEmpty(Payload(sha, key));
    DecodeEncode(Payload(sha, key));
    if HostOk(host, breaks) {
      ParseMatches(addr, payload, host, breaks);
      assert Payload(sha, key)[..32] == key && Payload(sha, key)[32..] == sha(key)[..4];
    } else {
      var parsed := ParseAddress(addr, breaks);
      if parsed.Some? {
        ParseMatches(addr, parsed.value.0, parsed.value.1, breaks);
        SplitUnique(payload, host, parsed.value.0, parsed.value.1);
      }
    }
  }

  /** "pinch:" p "@" h determines p and h when both payloads are over the alphabet. */
  lemma {:induction false} SplitUnique(p1: string, h1: string, p2: string, h2: string)
    requires AllAlphabet(p1) && AllAlphabet(p2)
    requires SCHEME + p1 + "@" + h1 == SCHEME + p2 + "@" + h2
    ensures p1 == p2 && h1 == h2
  {
    var a, b := SCHEME + p1 + "@" + h1, SCHEME + p2 + "@" + h2;
    assert a[|SCHEME|..] == p1 + ("@" + h1) && b[|SCHEME|..] == p2 + ("@" + h2);
    AlphabetPrefixIs(p1, "@" + h1);
    AlphabetPrefixIs(p2, "@" + h2);
    var rest := p1 + ("@" + h1);
    assert rest[..|p1|] == p1 && rest[|p1| + 1..] == h1;
    assert (p2 + ("@" + h2))[..|p2|] == p2 && (p2 + ("@" + h2))[|p2| + 1..] == h2;
  }

  /** Every accepted string is the generated address of what it validates to. */
  lemma {:induction false} AcceptedIsGenerated(sha: Sha256, addr: string, breaks: set<char>)
    requires ValidatedAddress(sha, addr, breaks).Accepted?
    ensures var v := ValidatedAddress(sha, addr, breaks);
            HostOk(v.host, breaks) && addr == GenerateAddress(sha, v.key, v.host)
  {
    var (payload, host) := ParseAddress(addr, breaks).value;
    ParseMatches(addr, payload, host, breaks);
    EncodeDecode(payload);
    var decoded := Decode(payload);
    assert decoded == decoded[..32] + decoded[32..];
  }

  /** The written form: "pinch:", the Base58 of 32 key bytes and the first 4 bytes of their digest, "@" and a host. */
  ghost predicate Spells(sha: Sha256, addr: string, bytes: seq<byte>, host: string, breaks: set<char>) {
    addr == "pinch:" + Encode(bytes) + "@" + host && bytes != [] && HostOk(host, breaks)
  }

  /** What validation makes of every string: each verdict exactly for its strings. */
  lemma {:induction false} VerdictExactly(sha: Sha256, addr: string, breaks: set<char>, bytes: seq<byte>, host: string)
    ensures var v := ValidatedAddress(sha, addr, breaks);
            && (Spells(sha, addr, bytes, host, breaks) ==>
                  v == if |bytes| != 36 then BadLength
                       else if bytes[32..] != sha(bytes[..32])[..4] then BadChecksum
                       else Accepted(bytes[..32], host))
            && (v == BadFormat <==> !exists b, h :: Spells(sha, addr, b, h, breaks))
  {
    if Spells(sha, addr, bytes, host, breaks) {
      SpelledVerdict(sha, addr, breaks, bytes, host);
    }
    forall b, h | Spells(sha, addr, b, h, breaks) ensures ValidatedAddress(sha, addr, breaks) != BadFormat {
      SpelledVerdict(sha, addr, breaks, b, h);
    }
    if ValidatedAddress(sha, addr, breaks) != BadFormat {
      var (payload, h) := ParseAddress(addr, breaks).value;
      ParseMatches(addr, payload, h, breaks);
      EncodeDecode(payload);
      DecodeNonEmpty(payload);
      assert Spells(sha, addr, Decode(payload), h, breaks);
    }
  }

  lemma {:induction false} SpelledVerdict(sha: Sha256, addr: string, breaks: set<char>, bytes: seq<byte>, host: string)
    requires Spells(sha, addr, bytes, host, breaks)
    ensures ValidatedAddress(sha, addr, breaks) ==
            if |bytes| != 36 then BadLength
            else if bytes[32..] != sha(bytes[..32])[..4] then BadChecksum
            else Accepted(bytes[..32], host)
  {
    EncodeNonEmpty(bytes);
    DecodeEncode(bytes);
    ParseMatches(addr, Encode(bytes), host, breaks);
  }

  /** Accepted addresses and (key, host) pairs correspond one to one. */
  lemma {:induction false} AddressBijection(sha: Sha256, a: string, b: string, breaks: set<char>)
    requires ValidatedAddress(sha, a, breaks).Accepted?
    ensures ValidatedAddress(sha, a, breaks) == ValidatedAddress(sha, b, breaks) <==> a == b
  {
    AcceptedIsGenerated(sha, a, breaks);
    if ValidatedAddress(sha, b, breaks).Accepted? {
      AcceptedIsGenerated(sha, b, breaks);
    }
  }

  /**
    The two implementations agree on an address that the relay accepts exactly when its host
    has none of the three characters that only the TypeScript pattern treats as line breaks.
   */
  lemma {:induction false} CrossLanguage(sha: Sha256, addr: string)
    requires ValidatedAddress(sha, addr, GO_LINE_BREAKS).Accepted?
    ensures ValidatedAddress(sha, addr, TS_LINE_BREAKS) == ValidatedAddress(sha, addr, GO_LINE_BREAKS) <==>
            HostOk(ValidatedAddress(sha, addr, GO_LINE_BREAKS).host, {'\r', '\U{2028}', '\U{2029}'})
  {
    AcceptedIsGenerated(sha, addr, GO_LINE_BREAKS);
    var v := ValidatedAddress(sha, addr, GO_LINE_BREAKS);
    AddressRoundTrip(sha, v.key, v.host, TS_LINE_BREAKS);
  }

  /** A host ending in a carriage return: the relay accepts the address, the agent does not. */
  lemma {:induction false} CarriageReturnSplits(sha: Sha256, key: PublicKey)
    ensures var addr := GenerateAddress(sha, key, "a\r");
            && ValidatedAddress(sha, addr, GO_LINE_BREAKS) == Accepted(key, "a\r")
            && ValidatedAddress(sha, addr, TS_LINE_BREAKS) == BadFormat
  {
    AddressRoundTrip(sha, key, "a\r", GO_LINE_BREAKS);
    AddressRoundTrip(sha, key, "a\r", TS_LINE_BREAKS);
    assert "a\r"[1] in TS_LINE_BREAKS;
  }

  /** Distinct keys have distinct addresses, on any host. */
  lemma {:induction false} GenerateInjective(sha: Sha256, k1: PublicKey, h1: string, k2: PublicKey, h2: string)
    requires GenerateAddress(sha, k1, h1) == GenerateAddress(sha, k2, h2)
    ensures k1 == k2 && h1 == h2
  {
    SplitUnique(Encode(Payload(sha, k1)), h1, Encode(Payload(sha, k2)), h2);
    DecodeEncode(Payload(sha, k1));
    DecodeEncode(Payload(sha, k2));
    assert k1 == Payload(sha, k1)[..32] && k2 == Payload(sha, k2)[..32];
  }
}
