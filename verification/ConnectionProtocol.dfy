/**
  Any number of honest connection managers and the messages between them. The network may
  delay, reorder, duplicate and lose: a sent packet can be delivered at any later time, any
  number of times, or never.
 */
module ConnectionProtocol {
  import opened Common
  import opened ConnectionStores
  import opened ConnectionManagers

  /** Successful requests and approvals, oldest first. */
  datatype Deed = Requested(asker: string, asked: string) | Approved(approver: string, asker: string)

  /**
    `stores` maps each agent's address to its connections, `net` holds every packet ever sent,
    and `forced` the (agent, peer) pairs on which block was used on a record that was not
    active or unblock on one that was not blocked.
   */
  datatype Net = Net(stores: map<string, Connections>, net: set<Packet>, history: seq<Deed>,
                     forced: set<(string, string)>)

  const QUIET := Net(map[], {}, [], {})

  datatype NetEvent =
    | Perform(agent: string, action: Action, now: int)
    | Deliver(packet: Packet, now: int)
    | Expire(agent: string, now: int)

  function StoreOf(n: Net, agent: string): Connections {
    Lookup(n.stores, agent, map[])
  }

  predicate IsRecord(n: Net, x: string, y: string) {
    y in StoreOf(n, x)
  }

  function StateOf(n: Net, x: string, y: string): ConnectionState
    requires IsRecord(n, x, y)
  {
    StoreOf(n, x)[y].state
  }

  function Deeds(agent: string, action: Action): seq<Deed> {
    match action
    case SendRequest(peer, _) => [Requested(agent, peer)]
    case ApproveRequest(peer) => [Approved(agent, peer)]
    case _ => []
  }

  /** Block off an active record, unblock off a blocked one. */
  predicate Misused(m: Connections, action: Action) {
    match action
    case BlockConnection(peer) => peer in m && m[peer].state != Active
    case UnblockConnection(peer) => peer in m && m[peer].state != ConnectionState.Blocked
    case _ => false
  }

  /** `keyOf` gives each agent's public key. */
  function NetStep(keyOf: string -> string, n: Net, e: NetEvent): Net {
    match e
    case Perform(agent, action, now) =>
      var effect := Act(StoreOf(n, agent), agent, keyOf(agent), action, now);
      Net(n.stores[agent := effect.connections], n.net + (set p | p in effect.sent),
          n.history + (if effect.threw then [] else Deeds(agent, action)),
          n.forced + (if !effect.threw && Misused(StoreOf(n, agent), action) then {(agent, action.peer)} else {}))
    case Deliver(p, now) =>
      if p !in n.net || p.BlockNotice? || p.UnblockNotice? then n
      else n.(stores := n.stores[p.recipient := Receive(StoreOf(n, p.recipient), p, now).connections])
    case Expire(agent, now) =>
      n.(stores := n.stores[agent := AllExpired(StoreOf(n, agent), now)])
  }

  function NetRun(keyOf: string -> string, events: seq<NetEvent>): Net {
    if events == [] then QUIET
    else NetStep(keyOf, NetRun(keyOf, events[..|events| - 1]), events[|events| - 1])
  }

  // ---------- provenance ----------

  /** `p` asked `q`, and `q` approved afterwards. */
  ghost predicate Agreed(h: seq<Deed>, p: string, q: string) {
    exists i, j :: 0 <= i < j < |h| && h[i] == Requested(p, q) && h[j] == Approved(q, p)
  }

  ghost predicate Asked(h: seq<Deed>, p: string, q: string) {
    Requested(p, q) in h
  }

  ghost predicate Consented(h: seq<Deed>, x: string, y: string) {
    Agreed(h, x, y) || Agreed(h, y, x)
  }

  ghost predicate KeyOk(keyOf: string -> string, c: Connection, y: string) {
    c.peerPublicKey in {None, Some(""), Some(keyOf(y))}
  }

  ghost predicate RecordOk(keyOf: string -> string, n: Net, x: string, y: string)
    requires IsRecord(n, x, y)
  {
    && (StateOf(n, x, y) in {Active, ConnectionState.Blocked} ==> Consented(n.history, x, y) || (x, y) in n.forced)
    && (StateOf(n, x, y) == PendingInbound ==> Asked(n.history, y, x))
    && KeyOk(keyOf, StoreOf(n, x)[y], y)
  }

  ghost predicate PacketOk(keyOf: string -> string, n: Net, p: Packet) {
    match p
    case Request(sender, recipient, _, key, _) => Asked(n.history, sender, recipient) && key == keyOf(sender)
    case Response(sender, recipient, accepted, key) =>
      accepted && Agreed(n.history, recipient, sender) && key == keyOf(sender)
    case _ => true
  }

  ghost predicate NetInv(keyOf: string -> string, n: Net) {
    && (forall x, y :: IsRecord(n, x, y) ==> RecordOk(keyOf, n, x, y))
    && (forall p :: p in n.net ==> PacketOk(keyOf, n, p))
  }

  lemma {:induction false} AgreedGrows(h: seq<Deed>, more: seq<Deed>, p: string, q: string)
    requires Agreed(h, p, q)
    ensures Agreed(h + more, p, q)
  {
    var i, j :| 0 <= i < j < |h| && h[i] == Requested(p, q) && h[j] == Approved(q, p);
    assert (h + more)[i] == Requested(p, q) && (h + more)[j] == Approved(q, p);
  }

  /** Approving what was asked makes an agreement. */
  lemma {:induction false} ApprovalAgrees(h: seq<Deed>, p: string, q: string)
    requires Asked(h, p, q)
    ensures Agreed(h + [Approved(q, p)], p, q)
  {
    var i :| 0 <= i < |h| && h[i] == Requested(p, q);
    var h' := h + [Approved(q, p)];
    assert h'[i] == Requested(p, q) && h'[|h|] == Approved(q, p);
  }

  /** Facts about a pair survive a longer history and more forced pairs. */
  lemma {:induction false} RecordCarries(keyOf: string -> string, n: Net, n': Net, more: seq<Deed>, x: string,
                                         y: string)
    requires IsRecord(n, x, y) && RecordOk(keyOf, n, x, y)
    requires IsRecord(n', x, y) && n'.history == n.history + more && n.forced <= n'.forced
    requires StateOf(n', x, y) == StateOf(n, x, y) || StateOf(n', x, y) == Revoked
    requires StoreOf(n', x)[y].peerPublicKey == StoreOf(n, x)[y].peerPublicKey
    ensures RecordOk(keyOf, n', x, y)
  {
    if Agreed(n.history, x, y) {
      AgreedGrows(n.history, more, x, y);
    }
    if Agreed(n.history, y, x) {
      AgreedGrows(n.history, more, y, x);
    }
  }

  lemma {:induction false} PacketCarries(keyOf: string -> string, n: Net, n': Net, more: seq<Deed>, p: Packet)
    requires PacketOk(keyOf, n, p) && n'.history == n.history + more
    ensures PacketOk(keyOf, n', p)
  {
    if p.Response? {
      AgreedGrows(n.history, more, p.recipient, p.sender);
    }
  }

  /** The record an action of the owner touches. */
  lemma {:induction false} ActedRecord(keyOf: string -> string, n: Net, agent: string, action: Action, now: int)
    requires NetInv(keyOf, n)
    requires !Act(StoreOf(n, agent), agent, keyOf(agent), action, now).threw
    ensures var n' := NetStep(keyOf, n, Perform(agent, action, now));
            IsRecord(n', agent, action.peer) && RecordOk(keyOf, n', agent, action.peer)
  {
    var n' := NetStep(keyOf, n, Perform(agent, action, now));
    var peer, m := action.peer, StoreOf(n, agent);
    if !action.SendRequest? {
      assert IsRecord(n, agent, peer) && RecordOk(keyOf, n, agent, peer);
      var more := Deeds(agent, action);
      if Agreed(n.history, agent, peer) {
        AgreedGrows(n.history, more, agent, peer);
      }
      if Agreed(n.history, peer, agent) {
        AgreedGrows(n.history, more, peer, agent);
      }
      if action.ApproveRequest? {
        ApprovalAgrees(n.history, peer, agent);
      }
    }
  }

  lemma {:induction false} SentPackets(keyOf: string -> string, n: Net, agent: string, action: Action, now: int)
    requires NetInv(keyOf, n)
    ensures var effect, n' := Act(StoreOf(n, agent), agent, keyOf(agent), action, now),
            NetStep(keyOf, n, Perform(agent, action, now));
            forall p :: p in effect.sent ==> PacketOk(keyOf, n', p)
  {
    var n' := NetStep(keyOf, n, Perform(agent, action, now));
    var effect := Act(StoreOf(n, agent), agent, keyOf(agent), action, now);
    if action.ApproveRequest? && !effect.threw {
      assert IsRecord(n, agent, action.peer) && RecordOk(keyOf, n, agent, action.peer);
      ApprovalAgrees(n.history, action.peer, agent);
    }
    if action.SendRequest? && !effect.threw {
      assert n'.history[|n.history|] == Requested(agent, action.peer);
    }
  }

  /** An action touches only the record of its peer. */
  lemma {:induction false} ActFrame(m: Connections, own: string, key: string, action: Action, now: int, y: string)
    requires y != action.peer || Act(m, own, key, action, now).threw
    ensures var m' := Act(m, own, key, action, now).connections;
            (y in m' <==> y in m) && (y in m ==> m'[y] == m[y])
  {
  }

  lemma {:induction false} PerformKeeps(keyOf: string -> string, n: Net, agent: string, action: Action, now: int)
    requires NetInv(keyOf, n)
    ensures NetInv(keyOf, NetStep(keyOf, n, Perform(agent, action, now)))
  {
    var n' := NetStep(keyOf, n, Perform(agent, action, now));
    var effect := Act(StoreOf(n, agent), agent, keyOf(agent), action, now);
    var more := if effect.threw then [] else Deeds(agent, action);
    forall x, y | IsRecord(n', x, y) ensures RecordOk(keyOf, n', x, y) {
      if x == agent && y == action.peer && !effect.threw {
        ActedRecord(keyOf, n, agent, action, now);
      } else {
        if x == agent {
          ActFrame(StoreOf(n, agent), agent, keyOf(agent), action, now, y);
        }
        assert IsRecord(n, x, y);
        RecordCarries(keyOf, n, n', more, x, y);
      }
    }
    SentPackets(keyOf, n, agent, action, now);
    forall p | p in n'.net ensures PacketOk(keyOf, n', p) {
      if p in n.net {
        PacketCarries(keyOf, n, n', more, p);
      }
    }
  }

  lemma {:induction false} DeliverKeeps(keyOf: string -> string, n: Net, p: Packet, now: int)
    requires NetInv(keyOf, n)
    ensures NetInv(keyOf, NetStep(keyOf, n, Deliver(p, now)))
  {
    var n' := NetStep(keyOf, n, Deliver(p, now));
    if p in n.net && !p.BlockNotice? && !p.UnblockNotice? {
      assert PacketOk(keyOf, n, p);
      assert n'.history == n.history + [];
      forall x, y | IsRecord(n', x, y) ensures RecordOk(keyOf, n', x, y) {
        if x == p.recipient && y == p.sender {
          DeliveredRecord(keyOf, n, p, now);
        } else {
          assert IsRecord(n, x, y);
          RecordCarries(keyOf, n, n', [], x, y);
        }
      }
      forall q | q in n'.net ensures PacketOk(keyOf, n', q) {
        PacketCarries(keyOf, n, n', [], q);
      }
    }
  }

  lemma {:induction false} DeliveredRecord(keyOf: string -> string, n: Net, p: Packet, now: int)
    requires NetInv(keyOf, n) && p in n.net && !p.BlockNotice? && !p.UnblockNotice? && PacketOk(keyOf, n, p)
    requires IsRecord(NetStep(keyOf, n, Deliver(p, now)), p.recipient, p.sender)
    ensures RecordOk(keyOf, NetStep(keyOf, n, Deliver(p, now)), p.recipient, p.sender)
  {
    var x, y := p.recipient, p.sender;
    var n' := NetStep(keyOf, n, Deliver(p, now));
    if IsRecord(n, x, y) {
      assert RecordOk(keyOf, n, x, y);
    }
    match p {
      case Request(_, _, _, _, _) =>
      case Response(_, _, _, _) =>
        assert IsRecord(n, x, y);
      case Revocation(_, _) =>
        assert IsRecord(n, x, y);
    }
  }

  lemma {:induction false} ExpireKeeps(keyOf: string -> string, n: Net, agent: string, now: int)
    requires NetInv(keyOf, n)
    ensures NetInv(keyOf, NetStep(keyOf, n, Expire(agent, now)))
  {
    var n' := NetStep(keyOf, n, Expire(agent, now));
    assert n'.history == n.history + [];
    forall x, y | IsRecord(n', x, y) ensures RecordOk(keyOf, n', x, y) {
      assert IsRecord(n, x, y);
      RecordCarries(keyOf, n, n', [], x, y);
    }
    forall q | q in n'.net ensures PacketOk(keyOf, n', q) {
      PacketCarries(keyOf, n, n', [], q);
    }
  }

  lemma {:induction false} NetRunInv(keyOf: string -> string, events: seq<NetEvent>)
    ensures NetInv(keyOf, NetRun(keyOf, events))
  {
    if events != [] {
      var before := events[..|events| - 1];
      NetRunInv(keyOf, before);
      var n := NetRun(keyOf, before);
      match events[|events| - 1] {
        case Perform(agent, action, now) => PerformKeeps(keyOf, n, agent, action, now);
        case Deliver(p, now) => DeliverKeeps(keyOf, n, p, now);
        case Expire(agent, now) => ExpireKeeps(keyOf, n, agent, now);
      }
    }
  }

  // ---------- main results ----------

  /**
    Provenance: in every interleaving, every active record goes back to a request by one side
    followed by an approval on the other, or to a misuse of block or unblock by the record's
    own agent.
   */
  lemma {:induction false} ActiveMeansConsent(keyOf: string -> string, events: seq<NetEvent>, x: string, y: string)
    requires IsRecord(NetRun(keyOf, events), x, y) && StateOf(NetRun(keyOf, events), x, y) == Active
    ensures var n := NetRun(keyOf, events); Consented(n.history, x, y) || (x, y) in n.forced
  {
    NetRunInv(keyOf, events);
    assert RecordOk(keyOf, NetRun(keyOf, events), x, y);
  }

  /** Block only active records and unblock only blocked ones. */
  ghost predicate Disciplined(keyOf: string -> string, events: seq<NetEvent>) {
    forall i :: 0 <= i < |events| && events[i].Perform? ==>
      !Misused(StoreOf(NetRun(keyOf, events[..i]), events[i].agent), events[i].action)
  }

  lemma {:induction false} DisciplineForcesNothing(keyOf: string -> string, events: seq<NetEvent>)
    requires Disciplined(keyOf, events)
    ensures NetRun(keyOf, events).forced == {}
  {
    if events != [] {
      var before, last := events[..|events| - 1], |events| - 1;
      forall i | 0 <= i < |before| && before[i].Perform?
        ensures !Misused(StoreOf(NetRun(keyOf, before[..i]), before[i].agent), before[i].action)
      {
        assert before[..i] == events[..i];
      }
      DisciplineForcesNothing(keyOf, before);
      assert events[..last] == before;
    }
  }

  /** So with disciplined block and unblock, every active record rests on consent. */
  lemma {:induction false} ConsentUnderDiscipline(keyOf: string -> string, events: seq<NetEvent>, x: string, y: string)
    requires Disciplined(keyOf, events)
    requires IsRecord(NetRun(keyOf, events), x, y) && StateOf(NetRun(keyOf, events), x, y) == Active
    ensures Consented(NetRun(keyOf, events).history, x, y)
  {
    ActiveMeansConsent(keyOf, events, x, y);
    DisciplineForcesNothing(keyOf, events);
  }

  /** Without it, it need not: unblocking one's own unanswered request makes it active. */
  lemma {:induction false} UnblockSkipsConsent(keyOf: string -> string, x: string, y: string, now: int)
    requires x != ""
    ensures var n := NetRun(keyOf, [Perform(x, SendRequest(y, ""), now), Perform(x, UnblockConnection(y), now)]);
            IsRecord(n, x, y) && StateOf(n, x, y) == Active && !Consented(n.history, x, y)
  {
    var e1, e2 := Perform(x, SendRequest(y, ""), now), Perform(x, UnblockConnection(y), now);
    assert [e1, e2][..1] == [e1] && [e1][..0] == [];
    assert NetRun(keyOf, [e1]) == NetStep(keyOf, QUIET, e1);
    var n := NetRun(keyOf, [e1, e2]);
    assert n == NetStep(keyOf, NetStep(keyOf, QUIET, e1), e2);
    assert n.history == [Requested(x, y)];
  }

  /**
    What makes a record active: the owner approves a pending request, the owner unblocks any
    record, or an accepting response of the peer is delivered, whatever the record's state.
   */
  ghost predicate Activates(n: Net, e: NetEvent, x: string, y: string) {
    && IsRecord(n, x, y)
    && (|| (e.Perform? && e.agent == x && x != "" && e.action == ApproveRequest(y) && StateOf(n, x, y)
            == PendingInbound)
        || (e.Perform? && e.agent == x && x != "" && e.action == UnblockConnection(y))
        || (e.Deliver? && e.packet in n.net && e.packet.Response? && e.packet.accepted &&
            e.packet.sender == y && e.packet.recipient == x))
  }

  lemma {:induction false} BecomesActive(keyOf: string -> string, n: Net, e: NetEvent, x: string, y: string)
    requires !(IsRecord(n, x, y) && StateOf(n, x, y) == Active)
    ensures var n' := NetStep(keyOf, n, e);
            IsRecord(n', x, y) && StateOf(n', x, y) == Active <==> Activates(n, e, x, y)
  {
    if e.Perform? && e.agent == x && y != e.action.peer {
      ActFrame(StoreOf(n, x), x, keyOf(x), e.action, e.now, y);
    }
  }

  lemma {:induction false} NetRunSnoc(keyOf: string -> string, events: seq<NetEvent>, e: NetEvent)
    ensures NetRun(keyOf, events + [e]) == NetStep(keyOf, NetRun(keyOf, events), e)
  {
    assert (events + [e])[..|events|] == events;
  }

  function NetFrom(keyOf: string -> string, n: Net, events: seq<NetEvent>): Net {
    if events == [] then n else NetStep(keyOf, NetFrom(keyOf, n, events[..|events| - 1]), events[|events| - 1])
  }

  /** Neither side approves the other, and `x` does not unblock. */
  predicate NoNewWord(e: NetEvent, x: string, y: string) {
    e.Perform? ==>
      && !(e.agent == x && (e.action == ApproveRequest(y) || e.action == UnblockConnection(y)))
      && !(e.agent == y && e.action == ApproveRequest(x))
  }

  /** An acceptance that `y` sent earlier may still arrive. */
  ghost predicate LateAcceptance(n: Net, x: string, y: string) {
    exists p :: p in n.net && p.Response? && p.accepted && p.sender == y && p.recipient == x
  }

  ghost predicate IsActive(n: Net, x: string, y: string) {
    IsRecord(n, x, y) && StateOf(n, x, y) == Active
  }

  lemma {:induction false} NoNewAcceptance(keyOf: string -> string, n: Net, e: NetEvent, x: string, y: string)
    requires NoNewWord(e, x, y) && !LateAcceptance(n, x, y)
    ensures !LateAcceptance(NetStep(keyOf, n, e), x, y)
  {
  }

  lemma {:induction false} StaysInactive(keyOf: string -> string, n: Net, events: seq<NetEvent>, x: string, y: string)
    requires !IsActive(n, x, y) && !LateAcceptance(n, x, y)
    requires forall i :: 0 <= i < |events| ==> NoNewWord(events[i], x, y)
    ensures var end := NetFrom(keyOf, n, events); !IsActive(end, x, y) && !LateAcceptance(end, x, y)
  {
    if events != [] {
      var before, e := events[..|events| - 1], events[|events| - 1];
      var mid := NetFrom(keyOf, n, before);
      StaysInactive(keyOf, n, before, x, y);
      NoNewAcceptance(keyOf, mid, e, x, y);
      BecomesActive(keyOf, mid, e, x, y);
    }
  }

  /** `x`'s record of `y` can become active without a new word from either side. */
  ghost predicate Revivable(keyOf: string -> string, n: Net, x: string, y: string) {
    exists events: seq<NetEvent> :: (forall i :: 0 <= i < |events| ==> NoNewWord(events[i], x, y)) &&
                                    IsActive(NetFrom(keyOf, n, events), x, y)
  }

  /**
    How old consent may be: a record that is not active, after a block or a revocation say, can
    become active on old consent alone exactly when an acceptance that the peer sent earlier may
    still arrive.
   */
  lemma {:induction false} OldConsentRevives(keyOf: string -> string, n: Net, x: string, y: string)
    requires IsRecord(n, x, y) && StateOf(n, x, y) != Active
    ensures Revivable(keyOf, n, x, y) <==> LateAcceptance(n, x, y)
  {
    if LateAcceptance(n, x, y) {
      var p :| p in n.net && p.Response? && p.accepted && p.sender == y && p.recipient == x;
      var e := Deliver(p, 0);
      BecomesActive(keyOf, n, e, x, y);
      assert [e][..0] == [];
      assert NetFrom(keyOf, n, [e]) == NetStep(keyOf, n, e);
    } else if Revivable(keyOf, n, x, y) {
      var events :| (forall i :: 0 <= i < |events| ==> NoNewWord(events[i], x, y)) &&
                    IsActive(NetFrom(keyOf, n, events), x, y);
      StaysInactive(keyOf, n, events, x, y);
    }
  }

  // ---------- the same, when no packet is delivered twice ----------

  /** `pool` holds what was sent and not yet delivered, with multiplicity. */
  datatype OnceNet = OnceNet(net: Net, pool: multiset<Packet>)

  function OnceStep(keyOf: string -> string, o: OnceNet, e: NetEvent): OnceNet {
    match e
    case Perform(agent, action, now) =>
      OnceNet(NetStep(keyOf, o.net, e),
              o.pool + multiset(Act(StoreOf(o.net, agent), agent, keyOf(agent), action, now).sent))
    case Deliver(p, _) =>
      if p in o.pool then OnceNet(NetStep(keyOf, o.net, e), o.pool - multiset{p}) else o
    case Expire(_, _) => o.(net := NetStep(keyOf, o.net, e))
  }

  function OnceFrom(keyOf: string -> string, o: OnceNet, events: seq<NetEvent>): OnceNet {
    if events == [] then o else OnceStep(keyOf, OnceFrom(keyOf, o, events[..|events| - 1]), events[|events| - 1])
  }

  const ONCE_QUIET := OnceNet(QUIET, multiset{})

  /** Everything in the pool was sent. */
  ghost predicate PoolOk(o: OnceNet) {
    forall p :: p in o.pool ==> p in o.net.net
  }

  lemma {:induction false} OncePool(keyOf: string -> string, o: OnceNet, events: seq<NetEvent>)
    requires PoolOk(o)
    ensures PoolOk(OnceFrom(keyOf, o, events))
  {
    if events != [] {
      OncePool(keyOf, o, events[..|events| - 1]);
    }
  }

  /** An acceptance by `y` is under way to `x`. */
  ghost predicate UndeliveredAcceptance(o: OnceNet, x: string, y: string) {
    exists p :: p in o.pool && p.Response? && p.accepted && p.sender == y && p.recipient == x
  }

  lemma {:induction false} OnceNoNewAcceptance(keyOf: string -> string, o: OnceNet, e: NetEvent, x: string, y: string)
    requires NoNewWord(e, x, y) && !UndeliveredAcceptance(o, x, y)
    ensures !UndeliveredAcceptance(OnceStep(keyOf, o, e), x, y)
  {
  }

  lemma {:induction false} OnceStaysInactive(keyOf: string -> string, o: OnceNet, events: seq<NetEvent>, x: string,
                                             y: string)
    requires !IsActive(o.net, x, y) && !UndeliveredAcceptance(o, x, y)
    requires forall i :: 0 <= i < |events| ==> NoNewWord(events[i], x, y)
    ensures var end := OnceFrom(keyOf, o, events); !IsActive(end.net, x, y) && !UndeliveredAcceptance(end, x, y)
  {
    if events != [] {
      var before, e := events[..|events| - 1], events[|events| - 1];
      var mid := OnceFrom(keyOf, o, before);
      OnceStaysInactive(keyOf, o, before, x, y);
      OnceNoNewAcceptance(keyOf, mid, e, x, y);
      BecomesActive(keyOf, mid.net, e, x, y);
    }
  }

  ghost predicate OnceRevivable(keyOf: string -> string, o: OnceNet, x: string, y: string) {
    exists events: seq<NetEvent> :: (forall i :: 0 <= i < |events| ==> NoNewWord(events[i], x, y)) &&
                                    IsActive(OnceFrom(keyOf, o, events).net, x, y)
  }

  /**
    Without duplication, in every run: a record that is not active can become active on old consent
    alone exactly when an acceptance of the peer is still undelivered.
   */
  lemma {:induction false} UndeliveredConsentRevives(keyOf: string -> string, events: seq<NetEvent>, x: string,
                                                     y: string)
    requires var n := OnceFrom(keyOf, ONCE_QUIET, events).net; IsRecord(n, x, y) && StateOf(n, x, y) != Active
    ensures var o := OnceFrom(keyOf, ONCE_QUIET, events);
            OnceRevivable(keyOf, o, x, y) <==> UndeliveredAcceptance(o, x, y)
  {
    var o := OnceFrom(keyOf, ONCE_QUIET, events);
    OncePool(keyOf, ONCE_QUIET, events);
    if UndeliveredAcceptance(o, x, y) {
      var p :| p in o.pool && p.Response? && p.accepted && p.sender == y && p.recipient == x;
      AcceptanceArrives(keyOf, o, p);
    } else if OnceRevivable(keyOf, o, x, y) {
      var more :| (forall i :: 0 <= i < |more| ==> NoNewWord(more[i], x, y)) &&
                  IsActive(OnceFrom(keyOf, o, more).net, x, y);
      OnceStaysInactive(keyOf, o, more, x, y);
    }
  }

  lemma {:induction false} AcceptanceArrives(keyOf: string -> string, o: OnceNet, p: Packet)
    requires PoolOk(o) && p in o.pool && p.Response? && p.accepted
    requires IsRecord(o.net, p.recipient, p.sender) && StateOf(o.net, p.recipient, p.sender) != Active
    ensures OnceRevivable(keyOf, o, p.recipient, p.sender)
  {
    var e := Deliver(p, 0);
    BecomesActive(keyOf, o.net, e, p.recipient, p.sender);
    assert [e][..0] == [];
    assert OnceFrom(keyOf, o, [e]) == OnceStep(keyOf, o, e);
    assert NoNewWord(e, p.recipient, p.sender);
  }

  /** What a request puts on its way. */
  lemma {:induction false} RequestSent(keyOf: string -> string, x: string, y: string, now: int)
    returns (events: seq<NetEvent>)
    requires x != ""
    ensures var n := NetRun(keyOf, events);
            && IsRecord(n, x, y) && StateOf(n, x, y) == PendingOutbound
            && Request(x, y, "", keyOf(x), SecondsOf(now) + REQUEST_TTL_SECONDS) in n.net
  {
    var e := Perform(x, SendRequest(y, ""), now);
    NetRunSnoc(keyOf, [], e);
    events := [] + [e];
  }

  lemma {:induction false} RequestReceived(keyOf: string -> string, x: string, y: string, now: int)
    returns (events: seq<NetEvent>)
    requires x != "" && x != y
    ensures var n := NetRun(keyOf, events);
            && IsRecord(n, x, y) && StateOf(n, x, y) == PendingOutbound
            && IsRecord(n, y, x) && StateOf(n, y, x) == PendingInbound
  {
    var sent := RequestSent(keyOf, x, y, now);
    var e := Deliver(Request(x, y, "", keyOf(x), SecondsOf(now) + REQUEST_TTL_SECONDS), now);
    NetRunSnoc(keyOf, sent, e);
    events := sent + [e];
  }

  lemma {:induction false} RequestApproved(keyOf: string -> string, x: string, y: string, now: int)
    returns (events: seq<NetEvent>)
    requires x != "" && y != "" && x != y
    ensures var n := NetRun(keyOf, events);
            && IsRecord(n, x, y) && StateOf(n, x, y) == PendingOutbound
            && Response(y, x, true, keyOf(y)) in n.net
  {
    var received := RequestReceived(keyOf, x, y, now);
    var e := Perform(y, ApproveRequest(x), now);
    NetRunSnoc(keyOf, received, e);
    events := received + [e];
  }

  /** It happens: a request is approved, revoked by its sender, and revived by the late response. */
  lemma {:induction false} LateResponseRevives(keyOf: string -> string, x: string, y: string, now: int)
    returns (events: seq<NetEvent>)
    requires x != "" && y != "" && x != y
    ensures var n := NetRun(keyOf, events);
            && IsRecord(n, x, y) && StateOf(n, x, y) == Revoked
            && IsActive(NetStep(keyOf, n, Deliver(Response(y, x, true, keyOf(y)), now)), x, y)
  {
    var approved := RequestApproved(keyOf, x, y, now);
    var revoke := Perform(x, RevokeConnection(y), now);
    NetRunSnoc(keyOf, approved, revoke);
    events := approved + [revoke];
    BecomesActive(keyOf, NetRun(keyOf, events), Deliver(Response(y, x, true, keyOf(y)), now), x, y);
  }

  /** A stored peer key is never anybody else's. */
  lemma {:induction false} StoredKeysAreGenuine(keyOf: string -> string, events: seq<NetEvent>, x: string, y: string)
    requires IsRecord(NetRun(keyOf, events), x, y)
    ensures var k := StoreOf(NetRun(keyOf, events), x)[y].peerPublicKey;
            k.Some? && k.value != "" ==> k.value == keyOf(y)
  {
    NetRunInv(keyOf, events);
    assert RecordOk(keyOf, NetRun(keyOf, events), x, y);
  }
}
