/**
  Every change of a connection record in the network of agents, each exactly when it happens, and
  what the relay and the peer are told (skill/src/connection.ts, skill/src/connection-store.ts).
 */
module ConnectionChanges {
  import opened Common
  import opened ConnectionStores
  import opened ConnectionManagers
  import opened ConnectionProtocol

  /** `x`, with a relay address, performs this action. */
  predicate Does(e: NetEvent, x: string, action: Action) {
    e.Perform? && e.agent == x && x != "" && e.action == action
  }

  /** A packet from `y` reaches `x`. */
  predicate Arrives(n: Net, e: NetEvent, x: string, y: string) {
    e.Deliver? && e.packet in n.net && !e.packet.BlockNotice? && !e.packet.UnblockNotice? &&
    e.packet.sender == y && e.packet.recipient == x
  }

  predicate Pending(s: ConnectionState) {
    s == PendingInbound || s == PendingOutbound
  }

  predicate InState(n: Net, x: string, y: string, s: ConnectionState) {
    IsRecord(n, x, y) && StateOf(n, x, y) == s
  }

  /** Which steps concern a record at all. */
  predicate Concerns(n: Net, e: NetEvent, x: string, y: string) {
    (e.Perform? && e.agent == x && e.action.peer == y) || Arrives(n, e, x, y) || (e.Expire? && e.agent == x)
  }

  lemma {:induction false} Unconcerned(keyOf: string -> string, n: Net, e: NetEvent, x: string, y: string)
    requires !Concerns(n, e, x, y)
    ensures var n' := NetStep(keyOf, n, e);
            (IsRecord(n', x, y) <==> IsRecord(n, x, y)) && (IsRecord(n, x, y) ==> StoreOf(n', x)[y] == StoreOf(n, x)[y])
  {
    if e.Perform? && e.agent == x {
      ActFrame(StoreOf(n, x), x, keyOf(x), e.action, e.now, y);
    }
  }

  // ---------- the states ----------

  /** A record ends: by its owner's word, by the peer's, or by time. */
  ghost predicate Ends(n: Net, e: NetEvent, x: string, y: string) {
    && IsRecord(n, x, y)
    && (|| Does(e, x, RevokeConnection(y))
        || (e.Perform? && e.agent == x && e.action == RejectRequest(y) && StateOf(n, x, y) == PendingInbound)
        || (Arrives(n, e, x, y) && (e.packet.Revocation? || (e.packet.Response? && !e.packet.accepted)))
        || (&& e.Expire? && e.agent == x && Pending(StateOf(n, x, y))
            && var due := StoreOf(n, x)[y].expiresAt; due.Some? && due.value < e.now))
  }

  lemma {:induction false} BecomesRevoked(keyOf: string -> string, n: Net, e: NetEvent, x: string, y: string)
    requires !InState(n, x, y, Revoked)
    ensures InState(NetStep(keyOf, n, e), x, y, Revoked) <==> Ends(n, e, x, y)
  {
    if !Concerns(n, e, x, y) {
      Unconcerned(keyOf, n, e, x, y);
    }
  }

  /** Only its owner blocks a record, and any record can be blocked. */
  lemma {:induction false} BecomesBlocked(keyOf: string -> string, n: Net, e: NetEvent, x: string, y: string)
    requires !InState(n, x, y, Blocked)
    ensures InState(NetStep(keyOf, n, e), x, y, Blocked) <==> IsRecord(n, x, y) && Does(e, x, BlockConnection(y))
  {
    if !Concerns(n, e, x, y) {
      Unconcerned(keyOf, n, e, x, y);
    }
  }

  /** A request of at most 280 characters arrives, whatever record there was. */
  lemma {:induction false} BecomesPendingInbound(keyOf: string -> string, n: Net, e: NetEvent, x: string, y: string)
    requires !InState(n, x, y, PendingInbound)
    ensures InState(NetStep(keyOf, n, e), x, y, PendingInbound) <==>
            Arrives(n, e, x, y) && e.packet.Request? && |e.packet.message| <= 280
  {
    if !Concerns(n, e, x, y) {
      Unconcerned(keyOf, n, e, x, y);
    }
  }

  /** A request of at most 280 characters is sent, whatever record there was. */
  lemma {:induction false} BecomesPendingOutbound(keyOf: string -> string, n: Net, e: NetEvent, x: string, y: string)
    requires !InState(n, x, y, PendingOutbound)
    ensures InState(NetStep(keyOf, n, e), x, y, PendingOutbound) <==>
            && e.Perform? && e.agent == x && x != ""
            && e.action.SendRequest? && e.action.peer == y && |e.action.message| <= 280
  {
    if !Concerns(n, e, x, y) {
      Unconcerned(keyOf, n, e, x, y);
    }
  }

  // ---------- the record of consent ----------

  /** The history says who asked whom and who approved whom, and nothing else: only what took effect. */
  lemma {:induction false} HistoryIsTrue(keyOf: string -> string, n: Net, e: NetEvent, x: string, y: string)
    ensures var n' := NetStep(keyOf, n, e);
            && n.history <= n'.history && |n'.history| <= |n.history| + 1
            && var news := n'.history[|n.history|..];
            && (news == [Requested(x, y)] <==>
                && e.Perform? && e.agent == x && x != ""
                && e.action.SendRequest? && e.action.peer == y && |e.action.message| <= 280)
            && (news == [Approved(x, y)] <==>
                Does(e, x, ApproveRequest(y)) && InState(n, x, y, PendingInbound))
            && ((x, y) in n'.forced <==>
                || (x, y) in n.forced
                || (Does(e, x, BlockConnection(y)) && IsRecord(n, x, y) && StateOf(n, x, y) != Active)
                || (Does(e, x, UnblockConnection(y)) && IsRecord(n, x, y) && StateOf(n, x, y) != Blocked))
  {
  }

  // ---------- the rest of the record ----------

  /** The steps that replace a record by a new one. */
  ghost predicate Replaces(n: Net, e: NetEvent, x: string, y: string) {
    || (&& e.Perform? && e.agent == x && x != ""
        && e.action.SendRequest? && e.action.peer == y && |e.action.message| <= 280)
    || (Arrives(n, e, x, y) && e.packet.Request? && |e.packet.message| <= 280)
  }

  /**
    A new record trusts nobody: full_manual, no policy, untripped, nothing permitted, visible. It
    carries the peer's key and expiry, or none yet and seven days.
   */
  lemma {:induction false} NewRecord(keyOf: string -> string, n: Net, e: NetEvent, x: string, y: string)
    requires Replaces(n, e, x, y)
    ensures var n' := NetStep(keyOf, n, e);
            && IsRecord(n', x, y)
            && var c := StoreOf(n', x)[y];
               && c.peerAddress == y && c.autonomyLevel == FullManual && c.autoRespondPolicy == None
               && !c.circuitBreakerTripped && c.permissionsManifest == Some(Manifest([], []))
               && !c.muted && !c.passthrough && c.createdAt == c.lastActivity == e.now
               && (e.Perform? ==> && c.peerPublicKey == Some("") && c.shortMessage == Some(e.action.message)
                                  && c.expiresAt == Some((e.now / 1000 + 7 * 24 * 3600) * 1000))
               && (e.Deliver? ==> && c.peerPublicKey == Some(e.packet.key) && c.shortMessage == Some(e.packet.message)
                                  && c.expiresAt == if e.packet.expiresAt == 0 then None
                                                    else Some(e.packet.expiresAt * 1000))
  {
  }

  /** Any other step leaves all but the state, the key and the activity time alone. */
  lemma {:induction false} OtherFieldsKept(keyOf: string -> string, n: Net, e: NetEvent, x: string, y: string)
    requires IsRecord(n, x, y) && !Replaces(n, e, x, y)
    ensures var n' := NetStep(keyOf, n, e);
            && IsRecord(n', x, y)
            && SameBut(StoreOf(n, x)[y], StoreOf(n', x)[y], e.now)
  {
    if !Concerns(n, e, x, y) {
      Unconcerned(keyOf, n, e, x, y);
    } else if e.Perform? {
      ActSameBut(StoreOf(n, x), x, keyOf(x), e.action, e.now);
    } else if e.Deliver? {
      ReceiveSameBut(StoreOf(n, x), e.packet, e.now);
    }
  }

  predicate SameBut(c: Connection, c': Connection, now: int) {
    && c' == c.(state := c'.state, peerPublicKey := c'.peerPublicKey, lastActivity := c'.lastActivity)
    && (c'.state != c.state ==> c'.lastActivity == now)
  }

  lemma {:induction false} UpdateSameBut(m: Connections, y: string, u: Updates, now: int)
    requires y in m && u == NOTHING.(state := u.state, peerPublicKey := u.peerPublicKey)
    ensures var m' := Updated(m, y, u, now); y in m' && SameBut(m[y], m'[y], now)
  {
  }

  lemma {:induction false} ActSameBut(m: Connections, own: string, key: string, action: Action, now: int)
    requires action.peer in m && !(action.SendRequest? && own != "" && |action.message| <= 280)
    ensures var m' := Act(m, own, key, action, now).connections;
            action.peer in m' && SameBut(m[action.peer], m'[action.peer], now)
  {
    UpdateSameBut(m, action.peer, StateUpdate(Active), now);
    UpdateSameBut(m, action.peer, StateUpdate(Revoked), now);
    UpdateSameBut(m, action.peer, StateUpdate(Blocked), now);
  }

  lemma {:induction false} ReceiveSameBut(m: Connections, p: Packet, now: int)
    requires p.sender in m && !(p.Request? && |p.message| <= 280)
    ensures var m' := Receive(m, p, now).connections; p.sender in m' && SameBut(m[p.sender], m'[p.sender], now)
  {
    UpdateSameBut(m, p.sender, StateUpdate(Revoked), now);
    if p.Response? {
      var key := if p.key == "" then None else Some(p.key);
      UpdateSameBut(m, p.sender, StateUpdate(Active).(peerPublicKey := Some(key)), now);
    }
  }

  /** The key changes only when the peer accepts, and then to what it sent. */
  lemma {:induction false} KeyFromAcceptance(keyOf: string -> string, n: Net, e: NetEvent, x: string, y: string)
    requires IsRecord(n, x, y) && !Replaces(n, e, x, y)
    ensures var n' := NetStep(keyOf, n, e);
            && IsRecord(n', x, y)
            && StoreOf(n', x)[y].peerPublicKey ==
               if Arrives(n, e, x, y) && e.packet.Response? && e.packet.accepted
               then (if e.packet.key == "" then None else Some(e.packet.key))
               else StoreOf(n, x)[y].peerPublicKey
  {
    if !Concerns(n, e, x, y) {
      Unconcerned(keyOf, n, e, x, y);
    }
  }

  // ---------- what others are told ----------

  /** What is sent in a step. */
  function Told(keyOf: string -> string, n: Net, e: NetEvent): seq<Packet> {
    match e
    case Perform(agent, action, now) => Act(StoreOf(n, agent), agent, keyOf(agent), action, now).sent
    case _ => []
  }

  /** Everything `x` sent in a run, oldest first. */
  function Letters(keyOf: string -> string, events: seq<NetEvent>, x: string): seq<Packet> {
    if events == [] then []
    else
      var before, e := events[..|events| - 1], events[|events| - 1];
      Letters(keyOf, before, x) + (if e.Perform? && e.agent == x then Told(keyOf, NetRun(keyOf, before), e) else [])
  }

  ghost predicate Speaks(n: Net, x: string, action: Action) {
    match action
    case SendRequest(_, message) => |message| <= 280
    case ApproveRequest(y) => InState(n, x, y, PendingInbound)
    case RejectRequest(_) => false
    case BlockConnection(y) => IsRecord(n, x, y)
    case UnblockConnection(y) => IsRecord(n, x, y)
    case RevokeConnection(_) => true
  }

  /**
    At most one packet per call, each kind exactly for its call: a request for a request, an
    acceptance for an approval of a pending request, a notice to the relay for a block or unblock
    of any record, and a revocation for a revocation, record or not. A rejection is silent.
   */
  lemma {:induction false} ToldExactly(keyOf: string -> string, n: Net, e: NetEvent)
    requires e.Perform?
    ensures var x, y, told := e.agent, e.action.peer, Told(keyOf, n, e);
            && |told| <= 1
            && (told != [] <==> x != "" && Speaks(n, x, e.action))
            && (told != [] ==>
                  match e.action
                  case SendRequest(_, message) =>
                     told[0] == Request(x, y, message, keyOf(x), e.now / 1000 + 7 * 24 * 3600)
                  case ApproveRequest(_) => told[0] == Response(x, y, true, keyOf(x))
                  case BlockConnection(_) => told[0] == BlockNotice(x, y)
                  case UnblockConnection(_) => told[0] == UnblockNotice(x, y)
                  case RevokeConnection(_) => told[0] == Revocation(x, y)
                  case RejectRequest(_) => false)
            && NetStep(keyOf, n, e).net == n.net + (set p | p in told)
  {
  }

  /** The last word of `x` to the relay about `y`: blocked or not. */
  function LastNotice(letters: seq<Packet>, y: string): Option<bool> {
    if letters == [] then None
    else match letters[|letters| - 1]
      case BlockNotice(_, blocked) => if blocked == y then Some(true) else LastNotice(letters[..|letters| - 1], y)
      case UnblockNotice(_, unblocked) =>
        if unblocked == y then Some(false) else LastNotice(letters[..|letters| - 1], y)
      case _ => LastNotice(letters[..|letters| - 1], y)
  }

  lemma {:induction false} LastNoticeSnoc(letters: seq<Packet>, p: Packet, y: string)
    ensures LastNotice(letters + [p], y) ==
            if p.BlockNotice? && p.blocked == y then Some(true)
            else if p.UnblockNotice? && p.unblocked == y then Some(false)
            else LastNotice(letters, y)
  {
    assert (letters + [p])[..|letters|] == letters;
  }

  lemma {:induction false} NoticeStep(keyOf: string -> string, n: Net, e: NetEvent, letters: seq<Packet>, x: string,
                                      y: string)
    ensures LastNotice(letters + (if e.Perform? && e.agent == x then Told(keyOf, n, e) else []), y) ==
            if Does(e, x, BlockConnection(y)) && IsRecord(n, x, y) then Some(true)
            else if Does(e, x, UnblockConnection(y)) && IsRecord(n, x, y) then Some(false)
            else LastNotice(letters, y)
  {
    assert letters + [] == letters;
    if e.Perform? && e.agent == x {
      ToldExactly(keyOf, n, e);
      var told := Told(keyOf, n, e);
      if told != [] {
        assert told == [told[0]];
        LastNoticeSnoc(letters, told[0], y);
      }
    }
  }

  /**
    The relay is never behind the agent: in every run, a record that is blocked was reported to the
    relay as blocked, and that report has not been taken back.
   */
  lemma {:induction false} BlockedIsReported(keyOf: string -> string, events: seq<NetEvent>, x: string, y: string)
    requires InState(NetRun(keyOf, events), x, y, Blocked)
    ensures LastNotice(Letters(keyOf, events, x), y) == Some(true)
  {
    var before, e := events[..|events| - 1], events[|events| - 1];
    var n := NetRun(keyOf, before);
    NoticeStep(keyOf, n, e, Letters(keyOf, before, x), x, y);
    if InState(n, x, y, Blocked) {
      BlockedIsReported(keyOf, before, x, y);
      if Does(e, x, UnblockConnection(y)) {
        LeavesBlocked(keyOf, n, e, x, y);
      }
    } else {
      BecomesBlocked(keyOf, n, e, x, y);
    }
  }

  lemma {:induction false} LeavesBlocked(keyOf: string -> string, n: Net, e: NetEvent, x: string, y: string)
    requires InState(n, x, y, Blocked) && Does(e, x, UnblockConnection(y))
    ensures InState(NetStep(keyOf, n, e), x, y, Active)
  {
  }

  // ---------- failed calls ----------

  /** A call throws exactly without a relay address, on a record it cannot act on, or on a long message. */
  lemma {:induction false} ThrowsExactly(m: Connections, own: string, key: string, action: Action, now: int)
    ensures Act(m, own, key, action, now).threw <==>
            match action
            case SendRequest(_, message) => own == "" || |message| > 280
            case ApproveRequest(y) => own == "" || y !in m || m[y].state != PendingInbound
            case RejectRequest(y) => y !in m || m[y].state != PendingInbound
            case BlockConnection(y) => own == "" || y !in m
            case UnblockConnection(y) => own == "" || y !in m
            case RevokeConnection(y) => own == "" || y !in m
  {
  }

  /** A handler throws exactly on a long request and on a response without a record; it never answers. */
  lemma {:induction false} HandlerThrowsExactly(m: Connections, p: Packet, now: int)
    ensures Receive(m, p, now).sent == []
    ensures Receive(m, p, now).threw <==>
            (p.Request? && |p.message| > 280) || (p.Response? && p.sender !in m)
  {
  }
}
