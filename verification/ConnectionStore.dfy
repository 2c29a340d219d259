/** Connection records and their updates (skill/src/connection-store.ts). Times are milliseconds. */
module ConnectionStores {
  import opened Common

  datatype ConnectionState = Active | PendingOutbound | PendingInbound | Blocked | Revoked

  /** `Unrecognized` stands for a level read from disk that the router does not know. */
  datatype AutonomyLevel = FullManual | Notify | AutoRespond | FullAuto | Unrecognized

  datatype CustomCategory = CustomCategory(name: string, description: string, allowed: bool)

  /** The parts of a permissions manifest that are enforced at run time. */
  datatype Manifest = Manifest(informationBoundaries: seq<string>, customCategories: seq<CustomCategory>)

  const DEFAULT_MANIFEST := Manifest([], [])

  datatype Connection = Connection(
    peerAddress: string, peerPublicKey: Option<string>, state: ConnectionState, nickname: string,
    autonomyLevel: AutonomyLevel, autoRespondPolicy: Option<string>, circuitBreakerTripped: bool,
    permissionsManifest: Option<Manifest>, muted: bool, passthrough: bool, shortMessage: Option<string>,
    createdAt: int, lastActivity: int, expiresAt: Option<int>)

  type Connections = map<string, Connection>

  const MAX_SHORT_MESSAGE_LENGTH := 280

  /** The argument of addConnection: a record without timestamps, level and manifest optional. */
  datatype NewConnection = NewConnection(
    peerAddress: string, peerPublicKey: string, state: ConnectionState, nickname: string,
    autonomyLevel: Option<AutonomyLevel>, autoRespondPolicy: Option<string>, circuitBreakerTripped: bool,
    permissionsManifest: Option<Manifest>, muted: bool, passthrough: bool,
    shortMessage: Option<string>, expiresAt: Option<int>)

  function Created(c: NewConnection, now: int): Connection {
    Connection(c.peerAddress, Some(c.peerPublicKey), c.state, c.nickname,
               if c.autonomyLevel.Some? then c.autonomyLevel.value else FullManual,
               c.autoRespondPolicy, c.circuitBreakerTripped,
               Some(if c.permissionsManifest.Some? then c.permissionsManifest.value else DEFAULT_MANIFEST),
               c.muted, c.passthrough, c.shortMessage, now, now, c.expiresAt)
  }

  predicate TooLong(c: NewConnection) {
    c.shortMessage.Some? && |c.shortMessage.value| > MAX_SHORT_MESSAGE_LENGTH
  }

  /** A partial record: `None` fields are left alone. */
  datatype Updates = Updates(
    state: Option<ConnectionState>, nickname: Option<string>, autonomyLevel: Option<AutonomyLevel>,
    peerPublicKey: Option<Option<string>>, autoRespondPolicy: Option<string>, circuitBreakerTripped: Option<bool>,
    permissionsManifest: Option<Manifest>, muted: Option<bool>, passthrough: Option<bool>)

  const NOTHING := Updates(None, None, None, None, None, None, None, None, None)

  function Or<T>(o: Option<T>, default: T): T {
    if o.Some? then o.value else default
  }

  function Apply(c: Connection, u: Updates, now: int): Connection {
    c.(state := Or(u.state, c.state), nickname := Or(u.nickname, c.nickname),
       autonomyLevel := Or(u.autonomyLevel, c.autonomyLevel),
       peerPublicKey := Or(u.peerPublicKey, c.peerPublicKey),
       autoRespondPolicy := if u.autoRespondPolicy.Some? then u.autoRespondPolicy else c.autoRespondPolicy,
       circuitBreakerTripped := Or(u.circuitBreakerTripped, c.circuitBreakerTripped),
       permissionsManifest := if u.permissionsManifest.Some? then u.permissionsManifest else c.permissionsManifest,
       muted := Or(u.muted, c.muted), passthrough := Or(u.passthrough, c.passthrough), lastActivity := now)
  }

  function Updated(m: Connections, a: string, u: Updates, now: int): Connections {
    if a in m then m[a := Apply(m[a], u, now)] else m
  }

  /** Upgrading to full_auto from another level without confirmation is refused. */
  predicate AutonomyRefused(m: Connections, a: string, level: AutonomyLevel, confirmed: bool) {
    a !in m || (level == FullAuto && m[a].autonomyLevel != FullAuto && !confirmed)
  }

  function AutonomySet(m: Connections, a: string, level: AutonomyLevel, confirmed: bool, now: int): Connections {
    if AutonomyRefused(m, a, level, confirmed) then m
    else m[a := m[a].(circuitBreakerTripped := false, autonomyLevel := level, lastActivity := now)]
  }

  predicate IsExpired(c: Connection, now: int) {
    (c.state == PendingOutbound || c.state == PendingInbound) && c.expiresAt.Some? && c.expiresAt.value < now
  }

  function Expired(c: Connection, now: int): Connection {
    if IsExpired(c, now) then c.(state := Revoked, lastActivity := now) else c
  }

  function AllExpired(m: Connections, now: int): Connections {
    map a | a in m :: Expired(m[a], now)
  }

  function PassthroughCleared(m: Connections): Connections {
    map a | a in m :: m[a].(passthrough := false)
  }

  /** The two updates of a circuit-breaker trip. */
  function Tripped(m: Connections, a: string, now: int): Connections {
    Updated(Updated(m, a, NOTHING.(autonomyLevel := Some(FullManual)), now), a,
            NOTHING.(circuitBreakerTripped := Some(true)), now)
  }

  /** The two writes of setAutonomy. */
  lemma {:induction false} ClearedThenSet(m: Connections, cleared: Connections, a: string, level: AutonomyLevel,
                                          confirmed: bool, now: int)
    requires !AutonomyRefused(m, a, level, confirmed)
    requires cleared == if m[a].circuitBreakerTripped then m[a := m[a].(circuitBreakerTripped := false)] else m
    ensures var m' := Updated(cleared, a, NOTHING.(autonomyLevel := Some(level)), now);
            m' == AutonomySet(m, a, level, confirmed, now) && a in m' && !m'[a].circuitBreakerTripped &&
            m'[a].autonomyLevel == level
  {
    var u := NOTHING.(autonomyLevel := Some(level));
    assert Apply(cleared[a], u, now)
        == m[a].(circuitBreakerTripped := false, autonomyLevel := level, lastActivity := now);
  }

  /** An edit: given fields take their value, the others keep theirs, and the activity time moves. */
  lemma {:induction false} EditExactly(m: Connections, a: string, u: Updates, now: int, b: string)
    requires b in m
    ensures var m' := Updated(m, a, u, now);
            && m'.Keys == m.Keys
            && (b != a ==> m'[b] == m[b])
            && (b == a ==>
                  && m'[b] == m[b].(state := m'[b].state, nickname := m'[b].nickname, lastActivity := now,
                                    autonomyLevel := m'[b].autonomyLevel, peerPublicKey := m'[b].peerPublicKey,
                                    autoRespondPolicy := m'[b].autoRespondPolicy,
                                    circuitBreakerTripped := m'[b].circuitBreakerTripped,
                                    permissionsManifest := m'[b].permissionsManifest, muted := m'[b].muted,
                                    passthrough := m'[b].passthrough)
                  && Takes(u.state, m[b].state, m'[b].state) && Takes(u.nickname, m[b].nickname, m'[b].nickname)
                  && Takes(u.autonomyLevel, m[b].autonomyLevel, m'[b].autonomyLevel)
                  && Takes(u.peerPublicKey, m[b].peerPublicKey, m'[b].peerPublicKey)
                  && Takes(u.circuitBreakerTripped, m[b].circuitBreakerTripped, m'[b].circuitBreakerTripped)
                  && Takes(u.muted, m[b].muted, m'[b].muted)
                  && Takes(u.passthrough, m[b].passthrough, m'[b].passthrough)
                  && m'[b].autoRespondPolicy in {u.autoRespondPolicy, m[b].autoRespondPolicy}
                  && (u.autoRespondPolicy.Some? ==> m'[b].autoRespondPolicy == u.autoRespondPolicy)
                  && m'[b].permissionsManifest in {u.permissionsManifest, m[b].permissionsManifest}
                  && (u.permissionsManifest.Some? ==> m'[b].permissionsManifest == u.permissionsManifest)
                  && (u.autoRespondPolicy.None? ==> m'[b].autoRespondPolicy == m[b].autoRespondPolicy)
                  && (u.permissionsManifest.None? ==> m'[b].permissionsManifest == m[b].permissionsManifest))
  {
  }

  predicate Takes<T(==)>(given: Option<T>, before: T, after: T) {
    match given
    case None => after == before
    case Some(v) => after == v
  }

  /** A human's word on autonomy: it is what it says, clears the breaker, and touches nothing else. */
  lemma {:induction false} AutonomyExactly(m: Connections, a: string, level: AutonomyLevel, confirmed: bool, now: int,
                                           b: string)
    requires b in m
    ensures var m' := AutonomySet(m, a, level, confirmed, now);
            && m'.Keys == m.Keys
            && (m'[b] == m[b] || (b == a && m'[b].lastActivity == now))
            && m'[b] == m[b].(autonomyLevel := m'[b].autonomyLevel, lastActivity := m'[b].lastActivity,
                              circuitBreakerTripped := m'[b].circuitBreakerTripped)
            && (b == a && (level != FullAuto || confirmed || m[b].autonomyLevel == FullAuto) ==>
                  m'[b].autonomyLevel == level && !m'[b].circuitBreakerTripped && m'[b].lastActivity == now)
            && (b == a && level == FullAuto && !confirmed && m[b].autonomyLevel != FullAuto ==> m'[b] == m[b])
  {
  }

  /** A record added without level or manifest is at full_manual and permits nothing. */
  lemma {:induction false} AddedIsGuarded(c: NewConnection, now: int)
    ensures var r := Created(c, now);
            && r == Connection(c.peerAddress, Some(c.peerPublicKey), c.state, c.nickname, r.autonomyLevel,
                               c.autoRespondPolicy, c.circuitBreakerTripped, r.permissionsManifest, c.muted,
                               c.passthrough, c.shortMessage, now, now, c.expiresAt)
            && Takes(c.autonomyLevel, FullManual, r.autonomyLevel)
            && r.permissionsManifest.Some?
            && Takes(c.permissionsManifest, Manifest([], []), r.permissionsManifest.value)
    ensures TooLong(c) <==> c.shortMessage.Some? && |c.shortMessage.value| > 280
  {
  }

  /** Expiry and the clearing of passthrough, record by record. */
  lemma {:induction false} HousekeepingExactly(m: Connections, now: int, a: string)
    requires a in m
    ensures var expired, cleared := AllExpired(m, now), PassthroughCleared(m);
            && expired.Keys == m.Keys == cleared.Keys
            && cleared[a] == m[a].(passthrough := false)
            && (if (m[a].state == PendingInbound || m[a].state == PendingOutbound) && m[a].expiresAt.Some? &&
                   m[a].expiresAt.value < now
                then expired[a] == m[a].(state := Revoked, lastActivity := now) else expired[a] == m[a])
  {
  }

  class ConnectionStore {
    var connections: Connections

    constructor ()
      ensures connections == map[]
    {
      connections := map[];
    }

    method AddConnection(c: NewConnection, now: int) returns (r: Result<Connection>)
      modifies this
      ensures r.Err? <==> TooLong(c)
      ensures r.Err? ==> connections == old(connections)
      ensures r.Ok? ==> r.value == Created(c, now) && connections == old(connections)[c.peerAddress := r.value]
    {
      if c.shortMessage.Some? && |c.shortMessage.value| > MAX_SHORT_MESSAGE_LENGTH {
        return Err("shortMessage exceeds character limit");
      }
      var connection := Created(c, now);
      connections := connections[connection.peerAddress := connection];
      return Ok(connection);
    }

    method UpdateConnection(a: string, u: Updates, now: int) returns (r: Result<Connection>)
      modifies this
      ensures r.Err? <==> a !in old(connections)
      ensures connections == Updated(old(connections), a, u, now)
      ensures r.Ok? ==> r.value == connections[a]
    {
      if a !in connections {
        return Err("connection not found");
      }
      connections := connections[a := Apply(connections[a], u, now)];
      return Ok(connections[a]);
    }

    /** The gate comes before any change: a refused call leaves the flag and the level alone. */
    method SetAutonomy(a: string, level: AutonomyLevel, confirmed: bool, now: int) returns (r: Result<Connection>)
      modifies this
      ensures r.Err? <==> AutonomyRefused(old(connections), a, level, confirmed)
      ensures connections == AutonomySet(old(connections), a, level, confirmed, now)
      ensures r.Ok? ==> !connections[a].circuitBreakerTripped && connections[a].autonomyLevel == level
    {
      if a !in connections {
        return Err("connection not found");
      }
      var conn := connections[a];
      if level == FullAuto && conn.autonomyLevel != FullAuto && !confirmed {
        return Err("Upgrading to Full Auto requires explicit confirmation");
      }
      if conn.circuitBreakerTripped {
        connections := connections[a := conn.(circuitBreakerTripped := false)];
      }
      ClearedThenSet(old(connections), connections, a, level, confirmed, now);
      r := UpdateConnection(a, NOTHING.(autonomyLevel := Some(level)), now);
    }

    /** Revokes exactly the overdue pending requests and returns their addresses. */
    method ExpirePendingRequests(now: int) returns (expired: set<string>)
      modifies this
      ensures connections == AllExpired(old(connections), now)
      ensures expired == set a | a in old(connections) && IsExpired(old(connections)[a], now)
    {
      expired := {};
      var todo := connections.Keys;
      ghost var was := connections;
      while todo != {}
        invariant todo <= was.Keys == connections.Keys
        invariant forall a :: a in was ==> connections[a] == if a in todo then was[a] else Expired(was[a], now)
        invariant expired == set a | a in was && a !in todo && IsExpired(was[a], now)
      {
        var a :| a in todo;
        var conn := connections[a];
        if (conn.state == PendingOutbound || conn.state == PendingInbound) && conn.expiresAt.Some? &&
            conn.expiresAt.value < now {
          connections := connections[a := conn.(state := Revoked, lastActivity := now)];
          expired := expired + {a};
        }
        todo := todo - {a};
      }
    }

    method ClearPassthroughFlags()
      modifies this
      ensures connections == PassthroughCleared(old(connections))
    {
      var todo := connections.Keys;
      ghost var was := connections;
      while todo != {}
        invariant todo <= was.Keys == connections.Keys
        invariant forall a :: a in was ==> connections[a] == if a in todo then was[a] else was[a].(passthrough := false)
      {
        var a :| a in todo;
        if connections[a].passthrough {
          connections := connections[a := connections[a].(passthrough := false)];
        }
        todo := todo - {a};
      }
    }
  }

  // ---------- runs of the store ----------

  datatype StoreOp =
    | Add(c: NewConnection)
    | Edit(address: string, updates: Updates)
    | SetAutonomy(address: string, level: AutonomyLevel, confirmed: bool)
    | Trip(address: string)
    | ExpirePending
    | ClearPassthrough

  function StoreStep(m: Connections, op: StoreOp, now: int): Connections {
    match op
    case Add(c) => if TooLong(c) then m else m[c.peerAddress := Created(c, now)]
    case Edit(a, u) => Updated(m, a, u, now)
    case SetAutonomy(a, level, confirmed) => AutonomySet(m, a, level, confirmed, now)
    case Trip(a) => Tripped(m, a, now)
    case ExpirePending => AllExpired(m, now)
    case ClearPassthrough => PassthroughCleared(m)
  }

  /**
    How the rest of the agent uses the store: new records start untripped at full_manual, and
    level and flag are edited only by setAutonomy and by the circuit breaker's trip.
   */
  predicate OpOk(op: StoreOp) {
    match op
    case Add(c) => !c.circuitBreakerTripped && (c.autonomyLevel.None? || c.autonomyLevel.value == FullManual)
    case Edit(_, u) => u.autonomyLevel.None? && u.circuitBreakerTripped.None?
    case _ => true
  }

  ghost predicate TrippedIsManual(m: Connections) {
    forall a :: a in m && m[a].circuitBreakerTripped ==> m[a].autonomyLevel == FullManual
  }

  lemma {:induction false} StoreStepKeeps(m: Connections, op: StoreOp, now: int)
    requires TrippedIsManual(m) && OpOk(op)
    ensures TrippedIsManual(StoreStep(m, op, now))
  {
  }

  function StoreRun(ops: seq<(StoreOp, int)>): Connections {
    if ops == [] then map[]
    else StoreStep(StoreRun(ops[..|ops| - 1]), ops[|ops| - 1].0, ops[|ops| - 1].1)
  }

  /** In every reachable store a tripped breaker implies full_manual. */
  lemma {:induction false} TrippedImpliesManual(ops: seq<(StoreOp, int)>)
    requires forall i :: 0 <= i < |ops| ==> OpOk(ops[i].0)
    ensures TrippedIsManual(StoreRun(ops))
  {
    if ops != [] {
      TrippedImpliesManual(ops[..|ops| - 1]);
      StoreStepKeeps(StoreRun(ops[..|ops| - 1]), ops[|ops| - 1].0, ops[|ops| - 1].1);
    }
  }

  /** The flag goes away only by an accepted setAutonomy or a fresh addConnection. */
  lemma {:induction false} FlagClearedOnlyBy(m: Connections, op: StoreOp, now: int, a: string)
    requires OpOk(op) && a in m && m[a].circuitBreakerTripped
    ensures var m' := StoreStep(m, op, now);
            && a in m'
            && (!m'[a].circuitBreakerTripped <==>
                (op.SetAutonomy? && op.address == a && !AutonomyRefused(m, a, op.level, op.confirmed)) ||
                (op.Add? && op.c.peerAddress == a && !TooLong(op.c)))
  {
  }

  /** full_auto is entered only by a confirmed setAutonomy. */
  lemma {:induction false} FullAutoOnlyConfirmed(m: Connections, op: StoreOp, now: int, a: string)
    requires OpOk(op) && (a in m ==> m[a].autonomyLevel != FullAuto)
    ensures var m' := StoreStep(m, op, now);
            a in m' && m'[a].autonomyLevel == FullAuto <==>
            a in m && op.SetAutonomy? && op.address == a && op.level == FullAuto && op.confirmed
  {
  }
}
