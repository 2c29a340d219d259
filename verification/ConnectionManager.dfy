/** The connection lifecycle of one agent (skill/src/connection.ts). */
module ConnectionManagers {
  import opened Common
  import opened ConnectionStores

  const MAX_MESSAGE_LENGTH := 280
  const REQUEST_TTL_SECONDS := 604800

  /** What managers put on the wire; `key` is the sender's public key, empty if it has none. */
  datatype Packet =
    | Request(sender: string, recipient: string, message: string, key: string, expiresAt: int)
    | Response(sender: string, recipient: string, accepted: bool, key: string)
    | Revocation(sender: string, recipient: string)
    | BlockNotice(sender: string, blocked: string)
    | UnblockNotice(sender: string, unblocked: string)

  datatype Action =
    | SendRequest(peer: string, message: string)
    | ApproveRequest(peer: string)
    | RejectRequest(peer: string)
    | BlockConnection(peer: string)
    | UnblockConnection(peer: string)
    | RevokeConnection(peer: string)

  /** The store after a call, what it sent, and whether it threw. */
  datatype Effect = Effect(connections: Connections, sent: seq<Packet>, threw: bool)

  function Refuse(m: Connections): Effect {
    Effect(m, [], true)
  }

  function StateUpdate(s: ConnectionState): Updates {
    NOTHING.(state := Some(s))
  }

  function SecondsOf(now: int): int {
    now / 1000
  }

  function OutboundRecord(peer: string, message: string, now: int): NewConnection {
    NewConnection(peer, "", PendingOutbound, "", Some(FullManual), None, false, None, false, false, Some(message),
                  Some((SecondsOf(now) + REQUEST_TTL_SECONDS) * 1000))
  }

  function InboundRecord(p: Packet): NewConnection
    requires p.Request?
  {
    NewConnection(p.sender, p.key, PendingInbound, "", Some(FullManual), None, false, None, false, false,
                  Some(p.message), if p.expiresAt == 0 then None else Some(p.expiresAt * 1000))
  }

  /** A call by the agent's owner; `own` is empty while the agent has no relay address. */
  function Act(m: Connections, own: string, key: string, action: Action, now: int): Effect {
    match action
    case SendRequest(peer, message) =>
      if |message| > MAX_MESSAGE_LENGTH || own == "" then Refuse(m)
      else Effect(m[peer := Created(OutboundRecord(peer, message, now), now)],
                  [Request(own, peer, message, key, SecondsOf(now) + REQUEST_TTL_SECONDS)], false)
    case ApproveRequest(peer) =>
      if peer !in m || m[peer].state != PendingInbound || own == "" then Refuse(m)
      else Effect(Updated(m, peer, StateUpdate(Active), now), [Response(own, peer, true, key)], false)
    case RejectRequest(peer) =>
      if peer !in m || m[peer].state != PendingInbound then Refuse(m)
      else Effect(Updated(m, peer, StateUpdate(Revoked), now), [], false)
    case BlockConnection(peer) =>
      if own == "" || peer !in m then Refuse(m)
      else Effect(Updated(m, peer, StateUpdate(Blocked), now), [BlockNotice(own, peer)], false)
    case UnblockConnection(peer) =>
      if own == "" || peer !in m then Refuse(m)
      else Effect(Updated(m, peer, StateUpdate(Active), now), [UnblockNotice(own, peer)], false)
    case RevokeConnection(peer) =>
      // The notice is sent before the record is looked up.
      if own == "" then Refuse(m)
      else Effect(Updated(m, peer, StateUpdate(Revoked), now), [Revocation(own, peer)], peer !in m)
  }

  /** The handler of an incoming envelope. */
  function Receive(m: Connections, p: Packet, now: int): Effect {
    match p
    case Request(_, _, _, _, _) =>
      var c := InboundRecord(p);
      if TooLong(c) then Refuse(m) else Effect(m[p.sender := Created(c, now)], [], false)
    case Response(sender, _, accepted, key) =>
      var u := if accepted then StateUpdate(Active).(peerPublicKey := Some(if key == "" then None else Some(key)))
               else StateUpdate(Revoked);
      Effect(Updated(m, sender, u, now), [], sender !in m)
    case Revocation(sender, _) => Effect(Updated(m, sender, StateUpdate(Revoked), now), [], false)
    case _ => Effect(m, [], false)
  }

  class ConnectionManager {
    const store: ConnectionStore
    const own: string
    const key: string
    var outbox: seq<Packet>

    constructor (store: ConnectionStore, own: string, key: string)
      ensures this.store == store && this.own == own && this.key == key && outbox == []
    {
      this.store, this.own, this.key := store, own, key;
      outbox := [];
    }

    method Request(peer: string, message: string, now: int) returns (threw: bool)
      modifies this, store
      ensures var e := Act(old(store.connections), own, key, SendRequest(peer, message), now);
              store.connections == e.connections && outbox == old(outbox) + e.sent && threw == e.threw
    {
      if |message| > MAX_MESSAGE_LENGTH || own == "" {
        return true;
      }
      var expires := now / 1000 + REQUEST_TTL_SECONDS;
      outbox := outbox + [Packet.Request(own, peer, message, key, expires)];
      var r := store.AddConnection(OutboundRecord(peer, message, now), now);
      return false;
    }

    method Approve(peer: string, now: int) returns (threw: bool)
      modifies this, store
      ensures var e := Act(old(store.connections), own, key, ApproveRequest(peer), now);
              store.connections == e.connections && outbox == old(outbox) + e.sent && threw == e.threw
    {
      if peer !in store.connections || store.connections[peer].state != PendingInbound || own == "" {
        return true;
      }
      outbox := outbox + [Response(own, peer, true, key)];
      var r := store.UpdateConnection(peer, StateUpdate(Active), now);
      return false;
    }

    /** Silent: nothing is sent on any path. */
    method Reject(peer: string, now: int) returns (threw: bool)
      modifies store
      ensures outbox == old(outbox)
      ensures var e := Act(old(store.connections), own, key, RejectRequest(peer), now);
              store.connections == e.connections && e.sent == [] && threw == e.threw
    {
      if peer !in store.connections || store.connections[peer].state != PendingInbound {
        return true;
      }
      var r := store.UpdateConnection(peer, StateUpdate(Revoked), now);
      return false;
    }

    method Block(peer: string, now: int) returns (threw: bool)
      modifies this, store
      ensures var e := Act(old(store.connections), own, key, BlockConnection(peer), now);
              store.connections == e.connections && outbox == old(outbox) + e.sent && threw == e.threw
    {
      if own == "" {
        return true;
      }
      var r := store.UpdateConnection(peer, StateUpdate(ConnectionState.Blocked), now);
      if r.Err? {
        return true;
      }
      outbox := outbox + [BlockNotice(own, peer)];
      return false;
    }

    method Unblock(peer: string, now: int) returns (threw: bool)
      modifies this, store
      ensures var e := Act(old(store.connections), own, key, UnblockConnection(peer), now);
              store.connections == e.connections && outbox == old(outbox) + e.sent && threw == e.threw
    {
      if own == "" {
        return true;
      }
      var r := store.UpdateConnection(peer, StateUpdate(Active), now);
      if r.Err? {
        return true;
      }
      outbox := outbox + [UnblockNotice(own, peer)];
      return false;
    }

    method Revoke(peer: string, now: int) returns (threw: bool)
      modifies this, store
      ensures var e := Act(old(store.connections), own, key, RevokeConnection(peer), now);
              store.connections == e.connections && outbox == old(outbox) + e.sent && threw == e.threw
    {
      if own == "" {
        return true;
      }
      outbox := outbox + [Revocation(own, peer)];
      var r := store.UpdateConnection(peer, StateUpdate(Revoked), now);
      return r.Err?;
    }

    method HandleEnvelope(p: Packet, now: int) returns (threw: bool)
      modifies store
      ensures var e := Receive(old(store.connections), p, now);
              store.connections == e.connections && e.sent == [] && threw == e.threw
    {
      threw := false;
      if p.Request? {
        var r := store.AddConnection(InboundRecord(p), now);
        threw := r.Err?;
      } else if p.Response? {
        var u := StateUpdate(Revoked);
        if p.accepted {
          u := StateUpdate(Active).(peerPublicKey := Some(if p.key == "" then None else Some(p.key)));
        }
        var r := store.UpdateConnection(p.sender, u, now);
        threw := r.Err?;
      } else if p.Revocation? && p.sender in store.connections {
        var r := store.UpdateConnection(p.sender, StateUpdate(Revoked), now);
      }
    }
  }
}
