/**
  The flat block store: one string key "blocker:blocked" per block
  (relay/internal/store/blockstore.go).
 */
module BlockStores {
  import opened Common
  import opened Identity
  import Base58

  function BlockKey(blocker: string, blocked: string): string {
    blocker + ":" + blocked
  }

  class BlockStore {
    var keys: set<string>

    constructor ()
      ensures keys == {}
    {
      keys := {};
    }

    method Block(blocker: string, blocked: string)
      modifies this
      ensures keys == old(keys) + {BlockKey(blocker, blocked)}
    {
      keys := keys + {blocker + ":" + blocked};
    }

    method Unblock(blocker: string, blocked: string)
      modifies this
      ensures keys == old(keys) - {BlockKey(blocker, blocked)}
    {
      keys := keys - {blocker + ":" + blocked};
    }

    method IsBlocked(blocker: string, sender: string) returns (blocked: bool)
      ensures blocked <==> BlockKey(blocker, sender) in keys
    {
      blocked := blocker + ":" + sender in keys;
    }
  }

  /**
    Two blockers can share a key exactly when one of them, followed by the separator, is a
    prefix of the other followed by it.
   */
  lemma {:induction false} KeysCollide(b1: string, b2: string)
    ensures (exists x1, x2 :: BlockKey(b1, x1) == BlockKey(b2, x2)) <==>
            b1 + ":" <= b2 + ":" || b2 + ":" <= b1 + ":"
  {
    var p1, p2 := b1 + ":", b2 + ":";
    if p1 <= p2 {
      assert BlockKey(b1, p2[|p1|..]) == BlockKey(b2, "");
    } else if p2 <= p1 {
      assert BlockKey(b2, p1[|p2|..]) == BlockKey(b1, "");
    }
    forall x1, x2 | BlockKey(b1, x1) == BlockKey(b2, x2) ensures p1 <= p2 || p2 <= p1 {
      var k := BlockKey(b1, x1);
      assert k[..|p1|] == p1 && k[..|p2|] == p2;
      assert |p1| <= |p2| ==> p2[..|p1|] == p1;
      assert |p2| <= |p1| ==> p1[..|p2|] == p2;
    }
  }

  lemma {:induction false} KeyShape(sha: Sha256, host: string, key: PublicKey, x: string)
    ensures BlockKey(GenerateAddress(sha, key, host), x)
         == SCHEME + Base58.Encode(Payload(sha, key)) + "@" + (host + ":" + x)
  {
    var p := SCHEME + Base58.Encode(Payload(sha, key)) + "@";
    assert (p + host) + ":" + x == p + (host + ":" + x);
  }

  /** Across hosts keys do collide: one key pair on hosts `host` and `host:x`. */
  lemma {:induction false} HostsCollide(sha: Sha256, key: PublicKey, host: string, blocked: string)
    ensures BlockKey(GenerateAddress(sha, key, host), "x:" + blocked)
         == BlockKey(GenerateAddress(sha, key, host + ":x"), blocked)
    ensures GenerateAddress(sha, key, host) != GenerateAddress(sha, key, host + ":x")
  {
    KeyShape(sha, host, key, "x:" + blocked);
    KeyShape(sha, host + ":x", key, blocked);
    assert host + ":" + ("x:" + blocked) == host + ":x" + ":" + blocked;
    assert |GenerateAddress(sha, key, host + ":x")| == |GenerateAddress(sha, key, host)| + 2;
  }

  /** Addresses derived for one relay host never share a key: the store is a set of pairs. */
  lemma {:induction false} BlockKeyInjective(sha: Sha256, host: string, k1: PublicKey, x1: string, k2: PublicKey,
                                             x2: string)
    requires BlockKey(GenerateAddress(sha, k1, host), x1) == BlockKey(GenerateAddress(sha, k2, host), x2)
    ensures k1 == k2 && x1 == x2
  {
    var p1, p2 := Base58.Encode(Payload(sha, k1)), Base58.Encode(Payload(sha, k2));
    var h1, h2 := host + ":" + x1, host + ":" + x2;
    KeyShape(sha, host, k1, x1);
    KeyShape(sha, host, k2, x2);
    SplitUnique(p1, h1, p2, h2);
    assert x1 == h1[|host| + 1..] && x2 == h2[|host| + 1..];
    GenerateInjective(sha, k1, host, k2, host);
  }
}
