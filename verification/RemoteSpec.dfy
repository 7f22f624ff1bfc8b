/** What each repository, ticket and service operation does to the tables, as functions of the old tables. */
module RemoteSpec {
  import opened Basics
  import opened RemoteModel
  import Text

  type Outcome<T> = (Db, Result<T, Error>)

  // ---------- repository ----------

  /** The row TransitionSession writes; None and "" keep the stored granted list and transport. */
  function Moved(s: Session, next: State, granted: Option<Caps>, transport: Transport, reason: Reason, now: int): Session
  {
    s.(state := next, revision := s.revision + 1,
    granted := if granted.Some? then granted.value else s.granted,
    transport := if transport == NoTransport then s.transport else transport,
    updatedAt := now,
    startedAt := if IsConnected(next) && s.startedAt.None? then Some(now) else s.startedAt,
    endedAt := if IsTerminal(next) then Some(now) else s.endedAt,
    endReason := reason)
  }

  function Transition(db: Db, id: Id, expected: int, allowed: set<State>, next: State,
                      granted: Option<Caps>, transport: Transport, reason: Reason, now: int): Outcome<Session>
  {
    if id !in db.sessions then (db, Failure(NotFound))
    else
      var s := db.sessions[id];
      if (expected > 0 && s.revision != expected) || s.state !in allowed then (db, Failure(Conflict))
      else
        var s' := Moved(s, next, granted, transport, reason, now);
        (db.(sessions := db.sessions[id := s']), Success(s'))
  }

  function Approved(s: Session, now: int): Session
  {
    s.(state := WaitingConsent, primaryApproved := true, revision := s.revision + 1, updatedAt := now)
  }

  function ApprovePrimary(db: Db, id: Id, expected: int, now: int): Outcome<Session>
  {
    if id !in db.sessions then (db, Failure(NotFound))
    else
      var s := db.sessions[id];
      if (expected > 0 && s.revision != expected) || s.state != WaitingPrimary then (db, Failure(Conflict))
      else (db.(sessions := db.sessions[id := Approved(s, now)]), Success(Approved(s, now)))
  }

  /** INSERT into remote_sessions; the id is the primary key. */
  function InsertSession(db: Db, s: Session): Outcome<Session>
  {
    if s.id in db.sessions then (db, Failure(Invalid))
    else (db.(sessions := db.sessions[s.id := s]), Success(s))
  }

  function DeleteExpired(db: Db, now: int): Db
  {
    db.(nonces := map h | h in db.nonces && db.nonces[h].expiresAt > now :: db.nonces[h])
  }

  /** INSERT into remote_ticket_nonces; the hash is the primary key. */
  function CreateNonce(db: Db, hash: NonceHash, row: NonceRow): Outcome<()>
  {
    if hash in db.nonces then (db, Failure(Invalid))
    else (db.(nonces := db.nonces[hash := row]), Success(()))
  }

  function ConsumeNonce(db: Db, hash: NonceHash, sid: Id, endpoint: Id, role: Role, revision: int, now: int): Outcome<()>
  {
    if hash !in db.nonces then (db, Failure(NotFound))
    else
      var row := db.nonces[hash];
      if row.sessionId == sid && row.endpointId == endpoint && row.role == role && row.revision == revision
         && row.consumedAt.None? && row.expiresAt > now
      then (db.(nonces := db.nonces[hash := row.(consumedAt := Some(now))]), Success(()))
      else if row.consumedAt.Some? then (db, Failure(TicketConsumed))
      else if row.expiresAt <= now then (db, Failure(TicketExpired))
      else (db, Failure(Conflict))
  }

  // ---------- tickets ----------

  const AUDIENCE := "serein-remote"
  const TICKET_TTL := 90 * SECOND

  /** time.Time.Unix: whole seconds. */
  function Unix(t: int): int { t / SECOND }

  datatype Claims = Claims(audience: string, sessionId: Id, endpointId: Id, role: Role,
                           capabilities: Caps, revision: int, nonce: Id, issuedAt: int, expiresAt: int)

  /** HMAC-SHA256 as a symbol: equal only for equal key and payload. */
  datatype Mac = Mac(key: Id, payload: Claims)

  /** A presented ticket; Garbled is any string that is too long or does not split and decode. */
  datatype Token = Garbled | Token(payload: Claims, mac: Mac)

  function ClaimsFor(s: Session, endpoint: Id, role: Role, nonce: Id, now: int): Claims
  {
    Claims(AUDIENCE, s.id, endpoint, role, s.granted, s.revision, nonce, Unix(now), Unix(now + TICKET_TTL))
  }

  function Issue(db: Db, key: Id, s: Session, endpoint: Id, role: Role, nonce: Id, now: int): Outcome<Token>
  {
    if endpoint == NONE || role == OtherRole then (db, Failure(Invalid))
    else
      var claims := ClaimsFor(s, endpoint, role, nonce, now);
      var row := NonceRow(s.id, endpoint, role, s.revision, now + TICKET_TTL, None);
      var (db', r) := CreateNonce(DeleteExpired(db, now), NonceHash(nonce), row);
      (db', if r.Success? then Success(Token(claims, Mac(key, claims))) else Failure(r.error))
  }

  function ValidateAndConsume(db: Db, key: Id, token: Token, sid: Id, endpoint: Id, role: Role,
                              revision: int, now: int): Outcome<Claims>
  {
    if token.Garbled? then (db, Failure(Invalid))
    else if token.mac != Mac(key, token.payload) then (db, Failure(Invalid))
    else
      var c := token.payload;
      if c.audience != AUDIENCE || c.sessionId != sid || c.endpointId != endpoint || c.role != role
         || c.revision != revision || c.nonce == NONE
      then (db, Failure(Invalid))
      else if c.expiresAt <= Unix(now) || c.issuedAt > Unix(now + 30 * SECOND) then (db, Failure(TicketExpired))
      else
        var (db', r) := ConsumeNonce(db, NonceHash(c.nonce), sid, endpoint, role, revision, now);
        (db', if r.Success? then Success(c) else Failure(r.error))
  }

  // ---------- service ----------

  function ApplyTimeout(db: Db, s: Session, now: int): Outcome<Session>
  {
    if IsTerminal(s.state) then (db, Success(s))
    else if Ttl(s.state).None? then (db, Success(s))
    else
      var (ttl, reason) := Ttl(s.state).value;
      if s.updatedAt + ttl > now then (db, Success(s))
      else
        var (db', r) := Transition(db, s.id, s.revision, {s.state}, Failed, None, NoTransport, reason, now);
        if r == Failure(Conflict)
        then (db', if s.id in db'.sessions then Success(db'.sessions[s.id]) else Failure(NotFound))
        else (db', r)
  }

  /** The stored row, for a party of it. */
  function LookFor(db: Db, sid: Id, endpoint: Id, role: Role): Result<Session, Error>
  {
    if role.OtherRole? then Failure(Unauthorized)
    else if sid !in db.sessions then Failure(NotFound)
    else
      var s := db.sessions[sid];
      if endpoint == NONE || endpoint != (if role.Controller? then s.controllerId else s.hostId) then Failure(Unauthorized)
      else Success(s)
  }

  function GetForController(db: Db, sid: Id, controller: Id, now: int): Outcome<Session>
  {
    if sid !in db.sessions then (db, Failure(NotFound))
    else if controller == NONE || db.sessions[sid].controllerId != controller then (db, Failure(Unauthorized))
    else ApplyTimeout(db, db.sessions[sid], now)
  }

  function GetForHost(db: Db, sid: Id, host: Id, now: int): Outcome<Session>
  {
    if sid !in db.sessions then (db, Failure(NotFound))
    else if host == NONE || db.sessions[sid].hostId != host then (db, Failure(Unauthorized))
    else ApplyTimeout(db, db.sessions[sid], now)
  }

  function GetForEndpoint(db: Db, sid: Id, endpoint: Id, role: Role, now: int): Outcome<Session>
  {
    match role
    case Controller => GetForController(db, sid, endpoint, now)
    case Host => GetForHost(db, sid, endpoint, now)
    case OtherRole => (db, Failure(Unauthorized))
  }

  /** Rows are stored under their own id, so a lookup returns a row of that id. */
  lemma LookupId(db: Db, sid: Id, endpoint: Id, role: Role, now: int)
    requires forall id :: id in db.sessions ==> db.sessions[id].id == id
    ensures var r := GetForEndpoint(db, sid, endpoint, role, now).1;
            r.Success? ==> r.value.id == sid
  {
  }

  /** An expected revision of zero means "whatever is current". */
  function Expected(expected: int, current: Session): int
  {
    if expected == 0 then current.revision else expected
  }

  predicate ReasonChar(c: char)
  {
    c == '_' || c == '-' || c == '.' || 'a' <= c <= 'z' || 'A' <= c <= 'Z' || '0' <= c <= '9'
  }

  predicate PlainWord(v: string)
  {
    v != "" && forall i :: 0 <= i < |v| ==> ReasonChar(v[i])
  }

  /** A reason is trimmed, cut to 64 bytes and used if it is a plain word; otherwise the fallback is. */
  function NormalizeEndReason(value: string, fallback: Reason): (r: Reason)
    ensures !fallback.NoReason? ==> !r.NoReason?
  {
    var v := Text.Trim(value, Text.GO_SPACE);
    var v := if |v| > 64 then v[..64] else v;
    if PlainWord(v) then Given(v) else fallback
  }

  const VIEW := "view"
  const INPUT := "input"

  /** Every entry of a capability list, trimmed. */
  function TrimAll(values: seq<string>): (r: seq<string>)
    ensures |r| == |values|
    ensures forall i :: 0 <= i < |r| ==> r[i] == Text.Trim(values[i], Text.GO_SPACE)
  {
    if values == [] then [] else [Text.Trim(values[0], Text.GO_SPACE)] + TrimAll(values[1..])
  }

  /** The scan of normalizeRequestedCapabilities: known names only, none twice. */
  function ScanCapabilities(names: seq<string>, seen: set<string>): (r: Option<set<string>>)
    ensures r.Some? ==> seen <= r.value <= seen + {VIEW, INPUT}
  {
    if names == [] then Some(seen)
    else if names[0] !in {VIEW, INPUT} || names[0] in seen then None
    else ScanCapabilities(names[1..], seen + {names[0]})
  }

  function NormalizeCapabilities(values: seq<string>): (r: Result<Caps, Error>)
    ensures r.Success? ==> !r.value.NoCaps?
  {
    if values == [] then Success(ViewOnly)
    else
      var seen := ScanCapabilities(TrimAll(values), {});
      if seen.None? || VIEW !in seen.value then Failure(InvalidCapability)
      else if INPUT in seen.value then Success(ViewAndInput)
      else Success(ViewOnly)
  }

  function RequestSession(db: Db, newId: Id, controller: Id, hostId: Id, caps: seq<string>, primary: bool,
                          now: int): Outcome<Session>
  {
    if controller == NONE then (db, Failure(Unauthorized))
    else if hostId !in db.hosts then (db, Failure(NotFound))
    else
      var host := db.hosts[hostId];
      var requested := NormalizeCapabilities(caps);
      if requested.Failure? then (db, Failure(requested.error))
      else if !host.supportsView then (db, Failure(InvalidCapability))
      else if requested.value.ViewAndInput? && !host.supportsInput then (db, Failure(InvalidCapability))
      else
        var state :=
          if !primary then WaitingPrimary
          else if host.revokedAt.None? && host.lastSeenAt > now - 30 * SECOND then WaitingConsent
          else WaitingHost;
        InsertSession(db, Session(newId, host.id, controller, primary, primary, state, 1, requested.value, NoCaps,
                                  NoTransport, now, now, None, None, NoReason))
  }

  predicate WaitsFor(s: Session, hostId: Id)
  {
    s.hostId == hostId && s.state.WaitingHost?
  }

  /** The given rows replace the stored ones. */
  function Updated(db: Db, rows: map<Id, Session>): Db
  {
    db.(sessions := db.sessions + rows)
  }

  /** The part of `rows` a loop has dealt with when `todo` is left. */
  function Done(rows: map<Id, Session>, todo: set<Id>): map<Id, Session>
  {
    map id | id in rows && id !in todo :: rows[id]
  }

  lemma DoneStep(rows: map<Id, Session>, todo: set<Id>, id: Id)
    ensures Done(rows, todo - {id}) == if id in rows then Done(rows, todo)[id := rows[id]] else Done(rows, todo)
  {
  }

  lemma DoneEnds(rows: map<Id, Session>, todo: set<Id>)
    ensures Done(rows, {}) == rows
    ensures rows.Keys <= todo ==> Done(rows, todo) == map[]
  {
  }

  function Promotions(db: Db, hostId: Id, now: int): map<Id, Session>
  {
    map id | id in db.sessions && WaitsFor(db.sessions[id], hostId)
      :: Moved(db.sessions[id], WaitingConsent, None, NoTransport, NoReason, now)
  }

  /** Every request that waits for this host moves on to waiting_consent. */
  function PromoteWaitingHost(db: Db, hostId: Id, now: int): Db
  {
    Updated(db, Promotions(db, hostId, now))
  }

  /** UpsertHost leaves a stored revocation in place. */
  function UpsertHost(db: Db, host: HostRow): Db
  {
    var revoked := if host.id in db.hosts then db.hosts[host.id].revokedAt else None;
    db.(hosts := db.hosts[host.id := host.(revokedAt := revoked)])
  }

  function RegisterHost(db: Db, host: HostRow, now: int): Db
  {
    PromoteWaitingHost(UpsertHost(db, host.(lastSeenAt := now)), host.id, now)
  }

  /** A heartbeat with capabilities rewrites the row; a plain one only touches a row that is not revoked. */
  function Heartbeat(db: Db, hostId: Id, caps: Option<(bool, bool)>, now: int): Outcome<()>
  {
    if hostId !in db.hosts || (caps.None? && db.hosts[hostId].revokedAt.Some?) then (db, Failure(NotFound))
    else
      var row := db.hosts[hostId].(lastSeenAt := now);
      var row := if caps.Some? then row.(supportsView := caps.value.0, supportsInput := caps.value.1) else row;
      (PromoteWaitingHost(UpsertHost(db, row.(id := hostId)), hostId, now), Success(()))
  }

  predicate Listed(s: Session, hostId: Option<Id>, state: State)
  {
    s.state == state && (hostId.Some? ==> s.hostId == hostId.value)
  }

  /** The rows a list query selects, by id. */
  function Selected(db: Db, hostId: Option<Id>, state: State): map<Id, Session>
  {
    map id | id in db.sessions && Listed(db.sessions[id], hostId, state) :: db.sessions[id]
  }

  function Timeouts(db: Db, hostId: Option<Id>, state: State, now: int): map<Id, Session>
    requires Ttl(state).Some?
  {
    map id | id in db.sessions && Listed(db.sessions[id], hostId, state) && Overdue(db.sessions[id], now)
      :: Moved(db.sessions[id], Failed, None, NoTransport, Ttl(state).value.1, now)
  }

  /** The two list calls: of the rows they select, the overdue ones become failed. */
  function ListAndTimeOut(db: Db, hostId: Option<Id>, state: State, now: int): Db
    requires Ttl(state).Some?
  {
    Updated(db, Timeouts(db, hostId, state, now))
  }

  function ApproveByPrimary(db: Db, sid: Id, device: Id, expected: int, now: int): Outcome<Session>
  {
    if device == NONE then (db, Failure(Unauthorized)) else ApprovePrimary(db, sid, expected, now)
  }

  /** RejectByPrimary reads the row and then moves it; every call below that does so comes in these two parts. */
  function LookForPrimary(db: Db, sid: Id, device: Id): Result<Session, Error>
  {
    if device == NONE then Failure(Unauthorized)
    else if sid !in db.sessions then Failure(NotFound)
    else Success(db.sessions[sid])
  }

  function RefuseMove(db: Db, sid: Id, read: Session, reason: string, expected: int, now: int): Outcome<Session>
  {
    Transition(db, sid, Expected(expected, read), {WaitingPrimary}, Ended, None, NoTransport,
               NormalizeEndReason(reason, Reason.RejectedByPrimary), now)
  }

  function RejectByPrimary(db: Db, sid: Id, device: Id, reason: string, expected: int, now: int): Outcome<Session>
  {
    var current := LookForPrimary(db, sid, device);
    if current.Failure? then (db, current) else RefuseMove(db, sid, current.value, reason, expected, now)
  }

  function AcceptMove(db: Db, sid: Id, read: Session, expected: int, now: int): Outcome<Session>
  {
    Transition(db, sid, Expected(expected, read), {WaitingConsent}, Negotiating, Some(read.requested), WebRtc, NoReason, now)
  }

  /**
   * Accept looks the row up, commits the move and then issues the host's ticket, each at its own reading of the clock;
   * the move stays when issuing fails.
   */
  function Accept(db: Db, key: Id, sid: Id, host: Id, expected: int, nonce: Id, looked: int, moved: int, issued: int)
    : Outcome<(Session, Token)>
  {
    var (db1, current) := GetForHost(db, sid, host, looked);
    if current.Failure? then (db1, Failure(current.error))
    else
      var (db2, updated) := AcceptMove(db1, sid, current.value, expected, moved);
      if updated.Failure? then (db2, Failure(updated.error))
      else
        var (db3, token) := Issue(db2, key, updated.value, host, Host, nonce, issued);
        (db3, if token.Failure? then Failure(token.error) else Success((updated.value, token.value)))
  }

  function RejectMove(db: Db, sid: Id, read: Session, reason: string, expected: int, now: int): Outcome<Session>
  {
    Transition(db, sid, Expected(expected, read), {WaitingHost, WaitingConsent}, Ended, None, NoTransport,
               NormalizeEndReason(reason, Reason.RejectedByHost), now)
  }

  function Reject(db: Db, sid: Id, host: Id, reason: string, expected: int, looked: int, moved: int): Outcome<Session>
  {
    var (db1, current) := GetForHost(db, sid, host, looked);
    if current.Failure? then (db1, current) else RejectMove(db1, sid, current.value, reason, expected, moved)
  }

  const ENDABLE: set<State> := {Requesting, WaitingPrimary, WaitingHost, WaitingConsent, Negotiating,
                                ConnectedView, ConnectedControl, Reconnecting, Ending}

  function EndMove(db: Db, sid: Id, read: Session, reason: string, expected: int, now: int): Outcome<Session>
  {
    Transition(db, sid, Expected(expected, read), ENDABLE, Ended, None, NoTransport,
               NormalizeEndReason(reason, EndedByUser), now)
  }

  function End(db: Db, sid: Id, endpoint: Id, role: Role, reason: string, expected: int, looked: int, moved: int)
    : Outcome<Session>
  {
    var (db1, current) := GetForEndpoint(db, sid, endpoint, role, looked);
    if current.Failure? || IsTerminal(current.value.state) then (db1, current)
    else EndMove(db1, sid, current.value, reason, expected, moved)
  }

  /** The granted list of the row that was read decides the state and is written back. */
  function ConnectMove(db: Db, sid: Id, read: Session, expected: int, now: int): Outcome<Session>
  {
    Transition(db, sid, Expected(expected, read), {Negotiating, Reconnecting},
               if read.granted.ViewAndInput? then ConnectedControl else ConnectedView,
               Some(read.granted), WebRtc, NoReason, now)
  }

  function MarkConnected(db: Db, sid: Id, host: Id, expected: int, looked: int, moved: int): Outcome<Session>
  {
    var (db1, current) := GetForHost(db, sid, host, looked);
    if current.Failure? then (db1, current) else ConnectMove(db1, sid, current.value, expected, moved)
  }

  predicate NothingToLose(s: Session)
  {
    s.state.Reconnecting? || IsTerminal(s.state)
  }

  function LoseMove(db: Db, sid: Id, read: Session, expected: int, now: int): Outcome<Session>
  {
    Transition(db, sid, Expected(expected, read), {ConnectedView, ConnectedControl}, Reconnecting,
               Some(read.granted), read.transport, NoReason, now)
  }

  function MarkReconnecting(db: Db, sid: Id, endpoint: Id, role: Role, expected: int, looked: int, moved: int)
    : Outcome<Session>
  {
    var (db1, current) := GetForEndpoint(db, sid, endpoint, role, looked);
    if current.Failure? || NothingToLose(current.value) then (db1, current)
    else LoseMove(db1, sid, current.value, expected, moved)
  }

  predicate TakesTickets(s: Session)
  {
    s.state.Negotiating? || s.state.Reconnecting?
  }

  function RefreshTicket(db: Db, key: Id, sid: Id, endpoint: Id, role: Role, nonce: Id, looked: int, issued: int)
    : Outcome<Token>
  {
    var (db1, current) := GetForEndpoint(db, sid, endpoint, role, looked);
    if current.Failure? then (db1, Failure(current.error))
    else if !TakesTickets(current.value) then (db1, Failure(Conflict))
    else Issue(db1, key, current.value, endpoint, role, nonce, issued)
  }

  function ConsumeTicket(db: Db, key: Id, token: Token, sid: Id, endpoint: Id, role: Role, revision: int,
                         now: int): Outcome<Claims>
  {
    if sid !in db.sessions then (db, Failure(NotFound))
    else
      var s := db.sessions[sid];
      if s.revision != revision || !TakesTickets(s) then (db, Failure(Conflict))
      else if role.Controller? && s.controllerId != endpoint then (db, Failure(Unauthorized))
      else if role.Host? && s.hostId != endpoint then (db, Failure(Unauthorized))
      else ValidateAndConsume(db, key, token, sid, endpoint, role, revision, now)
  }
}
