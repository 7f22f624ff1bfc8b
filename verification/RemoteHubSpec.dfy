/** What the signaling hub does with one connection or one message, as functions of the hub and the tables. */
module RemoteHubSpec {
  import opened Basics
  import opened RemoteModel
  import Spec = RemoteSpec

  datatype Kind = ClientReady | Offer | Answer | Ice | PeerLeft | OtherKind

  /** A session description: its declared type and the length of its text `sdp`. */
  datatype Description = Description(kind: Kind, length: nat, sdp: Id)

  datatype Candidate = Candidate(text: Id, length: nat, midLength: Option<nat>, fragmentLength: Option<nat>,
                                 lineIndex: Option<int>)

  /** A raw message; Malformed is any text that does not decode or whose session id has the wrong shape. */
  datatype Signal = Malformed | Signal(version: int, kind: Kind, sessionId: Id, revision: int, ticket: Option<Spec.Token>,
                                       description: Option<Description>, candidate: Option<Candidate>)

  datatype Outgoing = Joined | Rejected(error: Error) | Relayed(signal: Signal)

  /** One signaling connection: `authorized` maps a session to the ticket revision it consumed. */
  datatype Conn = Conn(role: Role, endpoint: Id, authorized: map<Id, int>, ice: map<(Id, int), nat>, outbox: seq<Outgoing>)

  datatype Hub = Hub(conns: map<nat, Conn>, clients: map<(Role, Id), set<nat>>)

  const PROTOCOL_VERSION := 1
  const SEND_BUFFER := 32
  const MAX_SDP := 262144
  const MAX_CANDIDATE := 65536
  const MAX_ICE_PER_SESSION := 50

  // ---------- sending ----------

  /** A non-blocking channel send: a full buffer drops the message. */
  function Push(c: Conn, m: Outgoing): Conn
  {
    if |c.outbox| < SEND_BUFFER then c.(outbox := c.outbox + [m]) else c
  }

  function Reply(hub: Hub, c: nat, m: Outgoing): Hub
  {
    if c in hub.conns then hub.(conns := hub.conns[c := Push(hub.conns[c], m)]) else hub
  }

  function Peers(hub: Hub, role: Role, endpoint: Id): set<nat>
  {
    if (role, endpoint) in hub.clients then hub.clients[(role, endpoint)] else {}
  }

  /** The connections `targets` have each been offered the message. */
  function PushAll(conns: map<nat, Conn>, targets: set<nat>, m: Outgoing): map<nat, Conn>
  {
    map c | c in conns :: if c in targets then Push(conns[c], m) else conns[c]
  }

  function Deliver(hub: Hub, role: Role, endpoint: Id, m: Outgoing): Hub
  {
    hub.(conns := PushAll(hub.conns, Peers(hub, role, endpoint), m))
  }

  // ---------- one message ----------

  function AuthorizedAt(c: Conn, sid: Id): int
  {
    if sid in c.authorized then c.authorized[sid] else 0
  }

  function IceCount(c: Conn, sid: Id, revision: int): nat
  {
    if (sid, revision) in c.ice then c.ice[(sid, revision)] else 0
  }

  predicate LengthAtMost(length: Option<nat>, max: nat)
  {
    length.Some? ==> length.value <= max
  }

  predicate ValidCandidate(c: Candidate)
  {
    && c.length <= MAX_CANDIDATE && LengthAtMost(c.midLength, 128) && LengthAtMost(c.fragmentLength, 256)
    && (c.lineIndex.Some? ==> c.lineIndex.value >= 0)
  }

  /** Validation, ticket consumption and the candidate count, up to the point where the message may be forwarded. */
  function Admit(hub: Hub, db: Db, key: Id, c: nat, m: Signal, now: int): (r: (Hub, Db, Result<Signal, Error>))
    requires c in hub.conns
    ensures c in r.0.conns && r.0.clients == hub.clients
    ensures r.2.Success? ==> m.Signal? && r.2.value == m.(ticket := None)
  {
    var conn := hub.conns[c];
    if m.Malformed? || m.version != PROTOCOL_VERSION || m.revision <= 0 then (hub, db, Failure(Invalid))
    else
      match m.kind
      case ClientReady => AdmitReady(hub, db, key, c, m, now)
      case Ice =>
        if AuthorizedAt(conn, m.sessionId) != m.revision || m.ticket.Some? || m.description.Some? || m.candidate.None?
        then (hub, db, Failure(Unauthorized))
        else if !ValidCandidate(m.candidate.value) then (hub, db, Failure(Invalid))
        else
          var n := IceCount(conn, m.sessionId, m.revision) + 1;
          (hub.(conns := hub.conns[c := conn.(ice := conn.ice[(m.sessionId, m.revision) := n])]), db,
           if n > MAX_ICE_PER_SESSION then Failure(Invalid) else Success(m))
      case PeerLeft => (hub, db, Failure(Invalid))
      case OtherKind => (hub, db, Failure(Invalid))
      case _ => (hub, db, AdmitDescription(conn, m))
  }

  function AdmitReady(hub: Hub, db: Db, key: Id, c: nat, m: Signal, now: int): (Hub, Db, Result<Signal, Error>)
    requires c in hub.conns && m.Signal?
  {
    var conn := hub.conns[c];
    if m.ticket.None? || m.description.Some? || m.candidate.Some? then (hub, db, Failure(Invalid))
    else
      var (db', r) := Spec.ConsumeTicket(db, key, m.ticket.value, m.sessionId, conn.endpoint, conn.role, m.revision, now);
      if r.Failure? then (hub, db', Failure(r.error))
      else (hub.(conns := hub.conns[c := conn.(authorized := conn.authorized[m.sessionId := m.revision])]), db',
            Success(m.(ticket := None)))
  }

  function AdmitDescription(conn: Conn, m: Signal): Result<Signal, Error>
    requires m.Signal?
  {
    if AuthorizedAt(conn, m.sessionId) != m.revision || m.ticket.Some? || m.description.None? || m.candidate.Some?
    then Failure(Unauthorized)
    else if m.description.value.kind != m.kind || m.description.value.length == 0 || m.description.value.length > MAX_SDP
    then Failure(Invalid)
    else Success(m)
  }

  function Lookup(db: Db, role: Role, endpoint: Id, sid: Id, now: int): Spec.Outcome<Session>
  {
    if role.Controller? then Spec.GetForController(db, sid, endpoint, now) else Spec.GetForHost(db, sid, endpoint, now)
  }

  /** The revision check of forwardSignal. */
  predicate Current(s: Session, revision: int)
  {
    if IsConnected(s.state) then s.revision == revision + 1
    else (s.state.Negotiating? || s.state.Reconnecting?) && s.revision == revision
  }

  function Check(db: Db, conn: Conn, m: Signal, now: int): Spec.Outcome<Session>
    requires m.Signal?
  {
    var (db', r) := Lookup(db, conn.role, conn.endpoint, m.sessionId, now);
    (db', if r.Success? && !Current(r.value, m.revision) then Failure(Conflict) else r)
  }

  /** The other party of a session. */
  function Target(role: Role, s: Session): (Role, Id)
  {
    if role.Host? then (Controller, s.controllerId) else (Host, s.hostId)
  }

  function SendOn(hub: Hub, role: Role, s: Session, m: Signal): Hub
  {
    var (r, e) := Target(role, s);
    Deliver(hub, r, e, Relayed(m))
  }

  /** One turn of the read loop: admit, check, forward; a refusal is answered with an error. */
  function HandleSignal(hub: Hub, db: Db, key: Id, c: nat, m: Signal, now: int): (Hub, Db)
    requires c in hub.conns
  {
    var (hub1, db1, admitted) := Admit(hub, db, key, c, m, now);
    if admitted.Failure? then (Reply(hub1, c, Rejected(admitted.error)), db1)
    else
      var (db2, checked) := Check(db1, hub.conns[c], admitted.value, now);
      if checked.Failure? then (Reply(hub1, c, Rejected(checked.error)), db2)
      else (SendOn(hub1, hub.conns[c].role, checked.value, admitted.value), db2)
  }

  // ---------- joining and leaving ----------

  /** `identity` is the endpoint the join message authenticated as, if any. */
  function Join(hub: Hub, c: nat, role: Role, identity: Option<Id>): Hub
  {
    if role.OtherRole? || identity.None? || identity.value == NONE then hub
    else
      Hub(hub.conns[c := Conn(role, identity.value, map[], map[], [Joined])],
          hub.clients[(role, identity.value) := Peers(hub, role, identity.value) + {c}])
  }

  /** Take a connection out; the second part tells whether its endpoint went offline. */
  function Drop(hub: Hub, c: nat): (Hub, bool)
    requires c in hub.conns
  {
    var k := (hub.conns[c].role, hub.conns[c].endpoint);
    var rest := Peers(hub, k.0, k.1) - {c};
    (Hub(hub.conns - {c}, if rest == {} then hub.clients - {k} else hub.clients[k := rest]),
     k in hub.clients && rest == {})
  }

  /** What the other party of session `sid` is told when an endpoint goes offline. */
  function Left(hub: Hub, db: Db, conn: Conn, sid: Id, now: int): (Hub, Db)
  {
    var (db1, found) := Lookup(db, conn.role, conn.endpoint, sid, now);
    if found.Failure? || IsTerminal(found.value.state) then (hub, db1)
    else
      var (db2, moved) :=
        if IsConnected(found.value.state)
        then Spec.MarkReconnecting(db1, sid, conn.endpoint, conn.role, found.value.revision, now, now)
        else (db1, found);
      var s := if moved.Success? then moved.value else found.value;
      (SendOn(hub, conn.role, s, Signal(PROTOCOL_VERSION, PeerLeft, sid, s.revision, None, None, None)), db2)
  }

  /** notifyPeerLeft with the sessions in the order the loop meets them. */
  function AllLeft(hub: Hub, db: Db, conn: Conn, sids: seq<Id>, now: int): (Hub, Db)
  {
    if sids == [] then (hub, db)
    else
      var (hub1, db1) := AllLeft(hub, db, conn, sids[..|sids| - 1], now);
      Left(hub1, db1, conn, sids[|sids| - 1], now)
  }
}
