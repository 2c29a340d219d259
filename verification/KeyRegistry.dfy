/** Pending and approved agent keys (relay/internal/store/keyregistry.go). */
module KeyRegistries {
  import opened Common

  const MAX_CLAIM_CODE_ATTEMPTS := 8

  datatype PendingValue =
    | Pending(pubKeyB64: string, address: string, registeredAt: int)
    | Malformed

  datatype Registry = Registry(pending: map<string, PendingValue>, approved: map<string, string>)

  /** The first draw that is not a live code; `None` is a failing generator. */
  function FirstFree(pending: map<string, PendingValue>, draws: seq<Option<string>>): Result<string> {
    if draws == [] then Err("failed to generate unique claim code")
    else if draws[0].None? then Err("generator")
    else if draws[0].value in pending then FirstFree(pending, draws[1..])
    else Ok(draws[0].value)
  }

  function Registered(r: Registry, pubKeyB64: string, address: string, now: int, draws: seq<Option<string>>): Registry {
    match FirstFree(r.pending, draws)
    case Ok(code) => r.(pending := r.pending[code := Pending(pubKeyB64, address, now)])
    case Err(_) => r
  }

  function Claimed(r: Registry, code: string): Registry {
    if code in r.pending && r.pending[code].Pending? then
      Registry(r.pending - {code}, r.approved[r.pending[code].pubKeyB64 := r.pending[code].address])
    else r
  }

  predicate Stale(v: PendingValue, cutoff: int) {
    v.Malformed? || v.registeredAt <= cutoff
  }

  function SweptPending(r: Registry, cutoff: int): Registry {
    r.(pending := map code | code in r.pending && !Stale(r.pending[code], cutoff) :: r.pending[code])
  }

  lemma {:induction false} FirstFreeIsFree(pending: map<string, PendingValue>, draws: seq<Option<string>>)
    ensures var r := FirstFree(pending, draws);
            r.Ok? ==> r.value !in pending && Some(r.value) in draws
  {
    if draws != [] {
      FirstFreeIsFree(pending, draws[1..]);
    }
  }

  /** `k` draws are used up: all of them codes that are taken. */
  ghost predicate Wasted(pending: map<string, PendingValue>, draws: seq<Option<string>>, k: nat) {
    k <= |draws| && forall i :: 0 <= i < k ==> draws[i].Some? && draws[i].value in pending
  }

  /**
    Drawing a code: the first draw that is free, if only taken codes came before it. It fails exactly
    when a failing generator comes first, or when every draw is taken.
   */
  lemma {:induction false} FirstFreeExactly(pending: map<string, PendingValue>, draws: seq<Option<string>>,
      code: string)
    ensures FirstFree(pending, draws) == Ok(code) <==>
            code !in pending && exists k :: 0 <= k < |draws| && draws[k] == Some(code) && Wasted(pending, draws, k)
    ensures FirstFree(pending, draws).Err? <==>
            || Wasted(pending, draws, |draws|)
            || exists k :: 0 <= k < |draws| && draws[k].None? && Wasted(pending, draws, k)
  {
    if draws != [] {
      var rest := draws[1..];
      FirstFreeExactly(pending, rest, code);
      if draws[0].Some? && draws[0].value in pending {
        forall k | 0 <= k <= |rest| ensures Wasted(pending, rest, k) <==> Wasted(pending, draws, k + 1) {
          if Wasted(pending, draws, k + 1) {
            forall i | 0 <= i < k ensures rest[i].Some? && rest[i].value in pending {
              assert draws[i + 1] == rest[i];
            }
          }
        }
        forall k | 0 <= k < |rest| ensures rest[k] == draws[k + 1] {
        }
        assert forall k :: 0 < k < |draws| ==> draws[k] == rest[k - 1];
      } else {
        assert Wasted(pending, draws, 0);
        assert forall k :: 0 < k <= |draws| ==> !Wasted(pending, draws, k);
      }
    }
  }

  /**
    The life of a registration: issued under a fresh code it stays exactly until the cutoff passes
    its time, and claiming it approves its key under its address and uses the code up.
   */
  lemma {:induction false} RegistrationLife(r: Registry, key: string, address: string, now: int, code: string,
      cutoff: int)
    requires code !in r.pending
    ensures var issued := Registered(r, key, address, now, [Some(code)]);
            && issued.approved == r.approved && issued.pending == r.pending[code := Pending(key, address, now)]
            && (code in SweptPending(issued, cutoff).pending <==> cutoff < now)
            && SweptPending(issued, cutoff).approved == r.approved
            && Claimed(issued, code) == Registry(r.pending, r.approved[key := address])
  {
    var issued := Registered(r, key, address, now, [Some(code)]);
    assert Claimed(issued, code).pending == r.pending;
  }

  /** A sweep takes malformed registrations too, and leaves everything younger as it is. */
  lemma {:induction false} SweepTakes(r: Registry, cutoff: int, code: string)
    requires code in r.pending
    ensures var swept := SweptPending(r, cutoff).pending;
            && (code in swept <==> r.pending[code] != Malformed && r.pending[code].registeredAt > cutoff)
            && (code in swept ==> swept[code] == r.pending[code])
  {
  }

  /** Claiming an unknown or malformed code changes nothing. */
  lemma {:induction false} ClaimNeedsRegistration(r: Registry, code: string)
    ensures Claimed(r, code) == r <==> code !in r.pending || r.pending[code] == Malformed
  {
    if code in r.pending && r.pending[code] != Malformed {
      assert code !in Claimed(r, code).pending;
    }
  }

  class KeyRegistry {
    var pending: map<string, PendingValue>
    var approved: map<string, string>

    ghost function View(): Registry
      reads this
    {
      Registry(pending, approved)
    }

    constructor ()
      ensures View() == Registry(map[], map[])
    {
      pending, approved := map[], map[];
    }

    /** A collision costs one attempt and overwrites nothing. `draws` are the generator's results. */
    method RegisterPending(pubKeyB64: string, address: string, now: int, draws: seq<Option<string>>)
      returns (r: Result<string>)
      requires |draws| == 8
      modifies this`pending
      ensures View() == Registered(old(View()), pubKeyB64, address, now, draws)
      ensures r == FirstFree(old(pending), draws)
      ensures r.Ok? ==> r.value !in old(pending) && pending == old(pending)[r.value := Pending(pubKeyB64, address, now)]
    {
      FirstFreeIsFree(pending, draws);
      for attempt := 0 to MAX_CLAIM_CODE_ATTEMPTS
        invariant pending == old(pending)
        invariant FirstFree(pending, draws[attempt..]) == FirstFree(pending, draws)
      {
        assert draws[attempt..][1..] == draws[attempt + 1..];
        if draws[attempt].None? {
          return Err("generator");
        }
        var code := draws[attempt].value;
        if code !in pending {
          pending := pending[code := Pending(pubKeyB64, address, now)];
          return Ok(code);
        }
      }
      return Err("failed to generate unique claim code");
    }

    method Claim(code: string) returns (r: Result<string>)
      modifies this
      ensures View() == Claimed(old(View()), code)
      ensures r.Ok? <==> code in old(pending) && old(pending)[code].Pending?
      ensures r.Ok? ==> r.value == old(pending)[code].address
    {
      if code !in pending {
        return Err("claim code not found or expired");
      }
      var entry := pending[code];
      if entry.Malformed? {
        return Err("unmarshal");
      }
      approved := approved[entry.pubKeyB64 := entry.address];
      pending := pending - {code};
      return Ok(entry.address);
    }

    method IsApproved(pubKeyB64: string) returns (found: bool)
      ensures found <==> pubKeyB64 in approved
    {
      found := pubKeyB64 in approved;
    }

    /** Collects the stale codes, then deletes them. */
    method SweepPending(cutoff: int)
      modifies this`pending
      ensures View() == SweptPending(old(View()), cutoff)
    {
      var toDelete := set code | code in pending && Stale(pending[code], cutoff);
      var todo := toDelete;
      while todo != {}
        invariant todo <= toDelete
        invariant pending == old(pending) - (toDelete - todo)
      {
        var code :| code in todo;
        pending := pending - {code};
        todo := todo - {code};
      }
      assert pending == SweptPending(old(View()), cutoff).pending;
    }
  }
}
