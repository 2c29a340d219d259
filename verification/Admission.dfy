/**
  Who gets into the routing table: the key registry in front of the hub, in the order of
  wsHandler (relay/cmd/pinchd/main.go): authenticate, check approval, create, register.
 */
module Admission {
  import opened Common
  import opened Identity
  import opened KeyRegistries
  import opened Relay
  import opened RelayTheorems
  import HubObjects
  import opened QueueKeys

  /** `b64` is the canonical base64 encoding that wsHandler looks keys up by. */
  datatype GateConfig = GateConfig(relay: Config, locked: bool, b64: PublicKey -> string)

  /** What happened to claim codes, oldest first. */
  datatype KeyEvent =
    | Issued(code: string, key: string)
    | Approved(code: string, key: string)
    | Dropped(codes: set<string>)

  predicate About(e: KeyEvent, code: string) {
    match e
    case Issued(c, _) => c == code
    case Approved(c, _) => c == code
    case Dropped(cs) => code in cs
  }

  datatype Gate = Gate(registry: Registry, system: System, history: seq<KeyEvent>)

  const INITIAL_GATE := Gate(Registry(map[], map[]), INITIAL, [])

  datatype GateEvent =
    | RequestCode(pubKeyB64: string, address: string, now: int, draws: seq<Option<string>>)
    | ClaimCode(code: string)
    | SweepCodes(cutoff: int)
    | Connect(id: ClientId, key: PublicKey)
    | InHub(event: Event)

  /** Authenticated connections enter the table only here. */
  function WsConnect(cfg: GateConfig, g: Gate, id: ClientId, key: PublicKey): System {
    if cfg.locked && cfg.b64(key) !in g.registry.approved then g.system
    else Step(cfg.relay, Step(cfg.relay, g.system, NewClient(id, key)), RegisterClient(id))
  }

  /** A fresh client is made and registered, and is in the table unless its address already is. */
  lemma {:induction false} ConnectShape(cfg: GateConfig, g: Gate, id: ClientId, key: PublicKey)
    requires id !in g.system.log.created && !g.system.hub.stopped
    requires forall a :: a in g.system.hub.table ==> g.system.hub.table[a] != id
    requires !(cfg.locked && cfg.b64(key) !in g.registry.approved)
    ensures var h, a := g.system.hub, GenerateAddress(cfg.relay.sha, key, cfg.relay.host);
            var c := ClientState(a, key, [], false, false, false);
            && WsConnect(cfg, g, id, key).hub == Register(h.(clients := h.clients[id := c]), id)
            && (IsLive(WsConnect(cfg, g, id, key).hub, id) <==> a !in h.table)
  {
  }

  /** The last message of the handshake. */
  datatype AuthResult = KeyNotRegistered | AddressInUse | Welcome

  /**
    The handler after authentication, on the objects: it does to the hub what WsConnect says, and
    the answer tells the agent whether it is in the table. `g` is the state the objects represent.
   */
  method WsHandler(cfg: GateConfig, registry: KeyRegistry, hub: HubObjects.Hub, id: ClientId, key: PublicKey,
                   ghost g: Gate)
    returns (r: AuthResult)
    requires hub.Valid() && id !in hub.objects && !hub.stopped && id !in g.system.log.created
    requires g.registry == registry.View() && g.system.hub == hub.View(g.system.hub.now)
    modifies hub`objects, hub`clients
    ensures hub.Valid() && registry.View() == g.registry
    ensures hub.View(g.system.hub.now) == WsConnect(cfg, g, id, key).hub
    ensures r == KeyNotRegistered <==> cfg.locked && cfg.b64(key) !in g.registry.approved
    ensures r == Welcome <==> IsLive(hub.View(g.system.hub.now), id)
  {
    assert hub.Table() == g.system.hub.table;
    assert forall a :: a in hub.clients ==> hub.Listed(hub.clients[a]);
    if cfg.locked {
      var approved := registry.IsApproved(cfg.b64(key));
      if !approved {
        return KeyNotRegistered;
      }
    }
    var inUse := hub.Connect(id, GenerateAddress(cfg.relay.sha, key, cfg.relay.host), key, g.system.hub.now);
    ConnectShape(cfg, g, id, key);
    return if inUse then AddressInUse else Welcome;
  }

  function GateStep(cfg: GateConfig, g: Gate, e: GateEvent): Gate {
    match e
    case RequestCode(key, address, now, draws) =>
      var issued := match FirstFree(g.registry.pending, draws)
                    case Ok(code) => [Issued(code, key)]
                    case Err(_) => [];
      Gate(Registered(g.registry, key, address, now, draws), g.system, g.history + issued)
    case ClaimCode(code) =>
      var claimed := if code in g.registry.pending && g.registry.pending[code].Pending?
                     then [Approved(code, g.registry.pending[code].pubKeyB64)] else [];
      Gate(Claimed(g.registry, code), g.system, g.history + claimed)
    case SweepCodes(cutoff) =>
      var swept := SweptPending(g.registry, cutoff);
      Gate(swept, g.system, g.history + [Dropped(g.registry.pending.Keys - swept.pending.Keys)])
    case Connect(id, key) => g.(system := WsConnect(cfg, g, id, key))
    case InHub(event) =>
      if event.NewClient? || event.RegisterClient? then g
      else g.(system := Step(cfg.relay, g.system, event))
  }

  function GateRun(cfg: GateConfig, events: seq<GateEvent>): Gate {
    if events == [] then INITIAL_GATE
    else GateStep(cfg, GateRun(cfg, events[..|events| - 1]), events[|events| - 1])
  }

  // ---------- what each step changes ----------

  /** A code is live after a step exactly if it is issued in it, or was live and is neither claimed nor overdue. */
  lemma {:induction false} CodeLives(cfg: GateConfig, g: Gate, e: GateEvent, code: string)
    ensures var live := g.registry.pending;
            code in GateStep(cfg, g, e).registry.pending <==>
              match e
              case RequestCode(_, _, _, draws) => code in live || FirstFree(live, draws) == Ok(code)
              case ClaimCode(c) => code in live && (c != code || live[code].Malformed?)
              case SweepCodes(cutoff) => code in live && live[code].Pending? && live[code].registeredAt > cutoff
              case _ => code in live
  {
  }

  /** The history says which codes were issued, claimed and dropped, each exactly when that happens. */
  lemma {:induction false} HistoryIsTrue(cfg: GateConfig, g: Gate, e: GateEvent, code: string, key: string)
    ensures var g', live := GateStep(cfg, g, e), g.registry.pending;
            && g.history <= g'.history && |g'.history| <= |g.history| + 1
            && var news := g'.history[|g.history|..];
               && (Issued(code, key) in news <==>
                   && code !in live && code in g'.registry.pending
                   && g'.registry.pending[code].Pending? && g'.registry.pending[code].pubKeyB64 == key)
               && (Approved(code, key) in news <==>
                   e == ClaimCode(code) && code in live && live[code].Pending? && live[code].pubKeyB64 == key)
               && (forall codes :: Dropped(codes) in news <==>
                   e.SweepCodes? && codes == live.Keys - g'.registry.pending.Keys)
  {
    FirstFreeIsFree(g.registry.pending, if e.RequestCode? then e.draws else []);
  }

  /** A key is approved after a step exactly if it was before, or a code issued for it is claimed. */
  lemma {:induction false} ApprovedExactly(cfg: GateConfig, g: Gate, e: GateEvent, key: string)
    ensures key in GateStep(cfg, g, e).registry.approved <==>
            || key in g.registry.approved
            || (&& e.ClaimCode? && e.code in g.registry.pending
                && g.registry.pending[e.code].Pending? && g.registry.pending[e.code].pubKeyB64 == key)
  {
  }

  /** A connection gets into the table exactly if its key is approved or need not be, and its address is free. */
  lemma {:induction false} ConnectAdmits(cfg: GateConfig, g: Gate, id: ClientId, key: PublicKey)
    requires id !in g.system.log.created && !g.system.hub.stopped
    requires forall a :: a in g.system.hub.table ==> g.system.hub.table[a] != id
    ensures IsLive(GateStep(cfg, g, Connect(id, key)).system.hub, id) <==>
            && (cfg.locked ==> cfg.b64(key) in g.registry.approved)
            && GenerateAddress(cfg.relay.sha, key, cfg.relay.host) !in g.system.hub.table
  {
    if !(cfg.locked && cfg.b64(key) !in g.registry.approved) {
      ConnectShape(cfg, g, id, key);
    }
  }

  // ---------- reading the history ----------

  /** The latest event about a code. */
  function Latest(history: seq<KeyEvent>, code: string): Option<KeyEvent> {
    if history == [] then None
    else if About(history[|history| - 1], code) then Some(history[|history| - 1])
    else Latest(history[..|history| - 1], code)
  }

  lemma {:induction false} LatestAt(history: seq<KeyEvent>, code: string) returns (i: nat)
    requires Latest(history, code).Some?
    ensures i < |history| && history[i] == Latest(history, code).value && About(history[i], code)
    ensures forall m :: i < m < |history| ==> !About(history[m], code)
  {
    if About(history[|history| - 1], code) {
      i := |history| - 1;
    } else {
      i := LatestAt(history[..|history| - 1], code);
    }
  }

  lemma {:induction false} LatestSnoc(history: seq<KeyEvent>, e: KeyEvent, code: string)
    ensures Latest(history + [e], code) == if About(e, code) then Some(e) else Latest(history, code)
  {
    assert (history + [e])[..|history|] == history;
  }

  /** Issue only dead codes, approve only what was issued last for that code. */
  ghost predicate EventSound(history: seq<KeyEvent>, j: nat)
    requires j < |history|
  {
    match history[j]
    case Issued(code, _) => !(Latest(history[..j], code).Some? && Latest(history[..j], code).value.Issued?)
    case Approved(code, key) => Latest(history[..j], code) == Some(Issued(code, key))
    case Dropped(_) => true
  }

  ghost predicate Sound(history: seq<KeyEvent>) {
    forall j :: 0 <= j < |history| ==> EventSound(history, j)
  }

  /** The pending bucket holds exactly the codes whose latest event is their issue. */
  ghost predicate PendingOk(r: Registry, history: seq<KeyEvent>) {
    && (forall code :: code in r.pending ==>
          r.pending[code].Pending? && Latest(history, code) == Some(Issued(code, r.pending[code].pubKeyB64)))
    && (forall code :: Latest(history, code).Some? && Latest(history, code).value.Issued? ==> code in r.pending)
  }

  ghost predicate HasApproval(history: seq<KeyEvent>, key: string) {
    exists j, code :: 0 <= j < |history| && history[j] == Approved(code, key)
  }

  ghost predicate GateInv(cfg: GateConfig, g: Gate) {
    && Sound(g.history)
    && PendingOk(g.registry, g.history)
    && (forall key :: key in g.registry.approved ==> HasApproval(g.history, key))
    && (cfg.locked ==> forall id :: id in g.system.hub.clients ==>
          cfg.b64(g.system.hub.clients[id].key) in g.registry.approved)
  }

  // ---------- every step keeps it ----------

  lemma {:induction false} SoundSnoc(history: seq<KeyEvent>, e: KeyEvent)
    requires Sound(history)
    requires EventSound(history + [e], |history|)
    ensures Sound(history + [e])
  {
    var all := history + [e];
    forall j | 0 <= j < |all| ensures EventSound(all, j) {
      if j < |history| {
        assert EventSound(history, j);
        assert all[..j] == history[..j];
      }
    }
  }

  lemma {:induction false} ApprovalSnoc(history: seq<KeyEvent>, e: KeyEvent, key: string)
    requires HasApproval(history, key)
    ensures HasApproval(history + [e], key)
  {
    var j, code :| 0 <= j < |history| && history[j] == Approved(code, key);
    assert (history + [e])[j] == Approved(code, key);
  }

  lemma {:induction false} RequestKeeps(cfg: GateConfig, g: Gate, e: GateEvent)
    requires GateInv(cfg, g) && e.RequestCode?
    ensures GateInv(cfg, GateStep(cfg, g, e))
  {
    var g' := GateStep(cfg, g, e);
    FirstFreeIsFree(g.registry.pending, e.draws);
    if FirstFree(g.registry.pending, e.draws).Ok? {
      var code := FirstFree(g.registry.pending, e.draws).value;
      var ev := Issued(code, e.pubKeyB64);
      assert (g.history + [ev])[..|g.history|] == g.history;
      SoundSnoc(g.history, ev);
      forall c ensures Latest(g'.history, c) == if c == code then Some(ev) else Latest(g.history, c) {
        LatestSnoc(g.history, ev, c);
      }
      forall key | key in g'.registry.approved ensures HasApproval(g'.history, key) {
        ApprovalSnoc(g.history, ev, key);
      }
    } else {
      assert g'.history == g.history;
    }
  }

  lemma {:induction false} ClaimKeeps(cfg: GateConfig, g: Gate, code: string)
    requires GateInv(cfg, g)
    ensures GateInv(cfg, GateStep(cfg, g, ClaimCode(code)))
  {
    var g' := GateStep(cfg, g, ClaimCode(code));
    if code in g.registry.pending {
      var key := g.registry.pending[code].pubKeyB64;
      var ev := Approved(code, key);
      assert (g.history + [ev])[..|g.history|] == g.history;
      SoundSnoc(g.history, ev);
      forall c ensures Latest(g'.history, c) == if c == code then Some(ev) else Latest(g.history, c) {
        LatestSnoc(g.history, ev, c);
      }
      forall k | k in g'.registry.approved ensures HasApproval(g'.history, k) {
        if k in g.registry.approved {
          ApprovalSnoc(g.history, ev, k);
        } else {
          assert g'.history[|g.history|] == Approved(code, k);
        }
      }
    } else {
      assert g'.history == g.history;
    }
  }

  lemma {:induction false} SweepKeeps(cfg: GateConfig, g: Gate, cutoff: int)
    requires GateInv(cfg, g)
    ensures GateInv(cfg, GateStep(cfg, g, SweepCodes(cutoff)))
  {
    var g' := GateStep(cfg, g, SweepCodes(cutoff));
    var ev := Dropped(g.registry.pending.Keys - g'.registry.pending.Keys);
    SoundSnoc(g.history, ev);
    forall c ensures Latest(g'.history, c) == if c in ev.codes then Some(ev) else Latest(g.history, c) {
      LatestSnoc(g.history, ev, c);
    }
    forall key | key in g'.registry.approved ensures HasApproval(g'.history, key) {
      ApprovalSnoc(g.history, ev, key);
    }
  }

  lemma {:induction false} ConnectKeeps(cfg: GateConfig, g: Gate, id: ClientId, key: PublicKey)
    requires GateInv(cfg, g)
    ensures GateInv(cfg, GateStep(cfg, g, Connect(id, key)))
  {
    if !(cfg.locked && cfg.b64(key) !in g.registry.approved) {
      var added := Step(cfg.relay, g.system, NewClient(id, key));
      assert forall i :: i in added.hub.clients ==>
               added.hub.clients[i].key
                   == key || (i in g.system.hub.clients && added.hub.clients[i] == g.system.hub.clients[i]);
      StepKeepsIdentities(cfg.relay, added, RegisterClient(id));
    }
  }

  lemma {:induction false} HubKeeps(cfg: GateConfig, g: Gate, event: Event)
    requires GateInv(cfg, g)
    ensures GateInv(cfg, GateStep(cfg, g, InHub(event)))
  {
    if !event.NewClient? && !event.RegisterClient? {
      StepKeepsIdentities(cfg.relay, g.system, event);
    }
  }

  lemma {:induction false} GateRunInv(cfg: GateConfig, events: seq<GateEvent>)
    ensures GateInv(cfg, GateRun(cfg, events))
  {
    if events != [] {
      var before := events[..|events| - 1];
      GateRunInv(cfg, before);
      var g := GateRun(cfg, before);
      match events[|events| - 1] {
        case RequestCode(a, b, c, d) => RequestKeeps(cfg, g, RequestCode(a, b, c, d));
        case ClaimCode(code) => ClaimKeeps(cfg, g, code);
        case SweepCodes(cutoff) => SweepKeeps(cfg, g, cutoff);
        case Connect(id, key) => ConnectKeeps(cfg, g, id, key);
        case InHub(event) => HubKeeps(cfg, g, event);
      }
    }
  }

  // ---------- main results ----------

  /**
    In locked mode every client in the routing table holds a key that was approved by claiming a
    code issued for that very key, with nothing happening to the code in between.
   */
  lemma {:induction false} LockedAdmission(cfg: GateConfig, events: seq<GateEvent>, id: ClientId)
    returns (i: nat, j: nat, code: string)
    requires cfg.locked && IsLive(GateRun(cfg, events).system.hub, id)
    ensures var g := GateRun(cfg, events);
            var key := cfg.b64(g.system.hub.clients[id].key);
            && i < j < |g.history|
            && g.history[i] == Issued(code, key)
            && g.history[j] == Approved(code, key)
            && forall m :: i < m < j ==> !About(g.history[m], code)
  {
    GateRunInv(cfg, events);
    var g := GateRun(cfg, events);
    var key := cfg.b64(g.system.hub.clients[id].key);
    assert HasApproval(g.history, key);
    var n, c :| 0 <= n < |g.history| && g.history[n] == Approved(c, key);
    j, code := n, c;
    assert EventSound(g.history, j);
    i := LatestAt(g.history[..j], code);
  }

  /** Between two claims of a code lies a new issue of it: each registration is claimed at most once. */
  lemma {:induction false} ClaimedOnce(cfg: GateConfig, events: seq<GateEvent>, j1: nat, j2: nat) returns (i: nat)
    requires j1 < j2 < |GateRun(cfg, events).history|
    requires var h := GateRun(cfg, events).history; h[j1].Approved? && h[j2].Approved? && h[j1].code == h[j2].code
    ensures j1 < i < j2
    ensures var h := GateRun(cfg, events).history; h[i] == Issued(h[j2].code, h[j2].key)
  {
    GateRunInv(cfg, events);
    var h := GateRun(cfg, events).history;
    assert EventSound(h, j2);
    i := LatestAt(h[..j2], h[j2].code);
    assert h[..j2][j1] == h[j1];
    assert !(i < j1);
  }

  /** A live code keeps its registration until it is claimed or swept. */
  lemma {:induction false} LiveCodeKept(cfg: GateConfig, g: Gate, e: GateEvent, code: string)
    requires code in g.registry.pending
    requires e != ClaimCode(code) && !e.SweepCodes?
    ensures var r := GateStep(cfg, g, e).registry;
            code in r.pending && r.pending[code] == g.registry.pending[code]
  {
    if e.RequestCode? {
      FirstFreeIsFree(g.registry.pending, e.draws);
    }
  }

  /** No step revokes an approval, and a sweep touches no approval at all. */
  lemma {:induction false} ApprovalsStay(cfg: GateConfig, g: Gate, e: GateEvent)
    ensures g.registry.approved.Keys <= GateStep(cfg, g, e).registry.approved.Keys
    ensures e.SweepCodes? ==> GateStep(cfg, g, e).registry.approved == g.registry.approved
  {
  }
}
