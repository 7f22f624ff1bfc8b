/** Which error a refused call, ticket or message is answered with. */
module RemoteErrors {
  import opened Basics
  import opened RemoteModel
  import opened RemoteHubSpec
  import opened RemoteCalls
  import opened RemoteDelivery
  import opened RemoteForwarding
  import Spec = RemoteSpec

  /** The row is for this session, endpoint, role and revision. */
  predicate InScope(r: NonceRow, sid: Id, endpoint: Id, role: Role, revision: int)
  {
    r.sessionId == sid && r.endpointId == endpoint && r.role == role && r.revision == revision
  }

  /** A nonce is taken when it is in scope, unused and not expired; then only its row changes. Otherwise the error tells why. */
  lemma NonceAnswer(db: Db, hash: NonceHash, sid: Id, endpoint: Id, role: Role, revision: int, now: int)
    ensures var (db', r) := Spec.ConsumeNonce(db, hash, sid, endpoint, role, revision, now);
            && (hash !in db.nonces ==> r == Failure(NotFound))
            && (hash in db.nonces ==>
                  var row := db.nonces[hash];
                  if row.consumedAt.None? && now < row.expiresAt && InScope(row, sid, endpoint, role, revision)
                  then r == Success(()) && db' == db.(nonces := db.nonces[hash := row.(consumedAt := Some(now))])
                  else r == Failure(if row.consumedAt.Some? then TicketConsumed
                                    else if row.expiresAt <= now then TicketExpired else Conflict))
            && (r.Failure? ==> db' == db)
  {
  }

  /** The claims of a ticket are for this session, endpoint, role and revision, and name a nonce. */
  predicate ClaimsFit(c: Spec.Claims, sid: Id, endpoint: Id, role: Role, revision: int)
  {
    && c.audience == "serein-remote" && c.sessionId == sid && c.endpointId == endpoint && c.role == role
    && c.revision == revision && c.nonce != NONE
  }

  /** A ticket is invalid when it is not the server's or not for this use, expired by its own dates, and else as its nonce is. */
  lemma TicketAnswer(db: Db, key: Id, t: Spec.Token, sid: Id, endpoint: Id, role: Role, revision: int, now: int)
    ensures var (db', r) := Spec.ValidateAndConsume(db, key, t, sid, endpoint, role, revision, now);
            var genuine := t.Token? && t.mac == Spec.Mac(key, t.payload) && ClaimsFit(t.payload, sid, endpoint, role, revision);
            && (!genuine ==> (db', r) == (db, Failure(Invalid)))
            && (genuine ==>
                  var c := t.payload;
                  if c.expiresAt <= now / SECOND || (now + 30 * SECOND) / SECOND < c.issuedAt
                  then (db', r) == (db, Failure(TicketExpired))
                  else
                    var (db1, taken) := Spec.ConsumeNonce(db, NonceHash(c.nonce), sid, endpoint, role, revision, now);
                    db' == db1 && r == if taken.Success? then Success(c) else Failure(taken.error))
  {
  }

  /** Before a ticket is looked at: an unknown session, one that takes no tickets at this revision, and somebody else's. */
  lemma PresentedAnswer(db: Db, key: Id, t: Spec.Token, sid: Id, endpoint: Id, role: Role, revision: int, now: int)
    ensures var answer := Spec.ConsumeTicket(db, key, t, sid, endpoint, role, revision, now);
            && (sid !in db.sessions ==> answer == (db, Failure(NotFound)))
            && (sid in db.sessions ==>
                  var s := db.sessions[sid];
                  answer ==
                  if s.revision != revision || (s.state != Negotiating && s.state != Reconnecting) then (db, Failure(Conflict))
                  else if (role == Controller && s.controllerId != endpoint) || (role == Host && s.hostId != endpoint)
                  then (db, Failure(Unauthorized))
                  else Spec.ValidateAndConsume(db, key, t, sid, endpoint, role, revision, now))
  {
  }

  /** The primary device must name itself, and the session must be known. */
  lemma PrimaryAnswer(db: Db, sid: Id, device: Id, reason: string, expected: int, now: int)
    requires device == NONE || sid !in db.sessions
    ensures var e := if device == NONE then Unauthorized else NotFound;
            && Spec.ApproveByPrimary(db, sid, device, expected, now) == (db, Failure(e))
            && Spec.RejectByPrimary(db, sid, device, reason, expected, now) == (db, Failure(e))
  {
  }

  /** Requests the primary device cannot decide any more. */
  lemma DecidedAnswer(db: Db, sid: Id, device: Id, reason: string, expected: int, now: int)
    requires device != NONE && sid in db.sessions && db.sessions[sid].id == sid && db.sessions[sid].revision > 0
    requires db.sessions[sid].state != WaitingPrimary || !Meant(expected, db.sessions[sid])
    ensures Spec.ApproveByPrimary(db, sid, device, expected, now) == (db, Failure(Conflict))
    ensures Spec.RejectByPrimary(db, sid, device, reason, expected, now) == (db, Failure(Conflict))
  {
  }

  /** A request is refused for its sender, its host, what it asks for, or an id that is taken. */
  lemma RequestAnswer(db: Db, newId: Id, controller: Id, hostId: Id, caps: seq<string>, primary: bool, now: int)
    ensures var r := Spec.RequestSession(db, newId, controller, hostId, caps, primary, now).1;
            var wanted := Spec.NormalizeCapabilities(caps);
            r.Failure? ==>
              r.error ==
              if controller == NONE then Unauthorized
              else if hostId !in db.hosts then NotFound
              else if wanted.Failure? || !db.hosts[hostId].supportsView
                      || (wanted.value == ViewAndInput && !db.hosts[hostId].supportsInput) then InvalidCapability
              else Invalid
    ensures Spec.NormalizeCapabilities(caps).Failure? ==> Spec.NormalizeCapabilities(caps).error == InvalidCapability
  {
  }

  /** A ticket is refused in a state that takes none, for nobody, and under a nonce that is in use. */
  lemma RefreshAnswer(db: Db, key: Id, sid: Id, endpoint: Id, role: Role, nonce: Id, clock: int, looked: int, issued: int)
    requires Legal(db, clock) && clock <= looked && sid in db.sessions && IsParty(db.sessions[sid], endpoint, role)
    ensures var s := db.sessions[sid];
            var r := Spec.RefreshTicket(db, key, sid, endpoint, role, nonce, looked, issued).1;
            r.Failure? ==>
              r.error == if PastLimit(s, looked) || (s.state != Negotiating && s.state != Reconnecting) then Conflict else Invalid
  {
    LookupExactlyWhen(db, sid, endpoint, role, clock, looked);
  }

  /** A message without rights is told so, and every other one that is not well-formed is called invalid. */
  lemma AdmissionAnswer(hub: Hub, db: Db, key: Id, c: nat, m: Signal, now: int)
    requires c in hub.conns
    ensures var (hub', db', r) := Admit(hub, db, key, c, m, now);
            var conn := hub.conns[c];
            r.Failure? ==>
              && (!m.Signal? || m.version != 1 || m.revision <= 0 || m.kind == PeerLeft || m.kind == OtherKind ==>
                    r.error == Invalid && hub' == hub && db' == db)
              && (m.Signal? && m.version == 1 && m.revision > 0 && (m.kind == Offer || m.kind == Answer) ==>
                    && hub' == hub && db' == db
                    && r.error == if !Authorized(conn, m) || m.ticket.Some? || m.description.None? || m.candidate.Some?
                                  then Unauthorized else Invalid)
              && (m.Signal? && m.version == 1 && m.revision > 0 && m.kind == Ice ==>
                    && db' == db
                    && r.error == if !Authorized(conn, m) || m.ticket.Some? || m.description.Some? || m.candidate.None?
                                  then Unauthorized else Invalid)
              && (m.Signal? && m.version == 1 && m.revision > 0 && m.kind == ClientReady ==>
                    && hub' == hub
                    && if m.ticket.None? || m.description.Some? || m.candidate.Some? then r.error == Invalid
                       else
                         var answer := Spec.ConsumeTicket(db, key, m.ticket.value, m.sessionId, conn.endpoint, conn.role, m.revision, now);
                         db' == answer.0 && answer.1 == Failure(r.error))
  {
  }

  /** The check answers as the lookup does, and with a conflict for a session that is not in the epoch of the message. */
  lemma CheckAnswer(db: Db, conn: Conn, m: Signal, clock: int, now: int)
    requires Legal(db, clock) && clock <= now && m.Signal? && !conn.role.OtherRole?
    ensures var r := Check(db, conn, m, now).1;
            r.Failure? ==>
              r.error == if m.sessionId !in db.sessions then NotFound
                         else if !IsParty(db.sessions[m.sessionId], conn.endpoint, conn.role) then Unauthorized
                         else Conflict
  {
    LookupExactlyWhen(db, m.sessionId, conn.endpoint, conn.role, clock, now);
    assert Lookup(db, conn.role, conn.endpoint, m.sessionId, now)
           == Spec.GetForEndpoint(db, m.sessionId, conn.endpoint, conn.role, now);
  }

  /** A timeout that was overtaken answers with the row as it is stored, or with not found. */
  lemma OvertakenTimeoutAnswer(db: Db, s: Session, now: int)
    requires PastLimit(s, now) && s.revision > 0
    requires s.id in db.sessions ==> db.sessions[s.id].revision != s.revision
    ensures Spec.ApplyTimeout(db, s, now) ==
            (db, if s.id in db.sessions then Success(db.sessions[s.id]) else Failure(NotFound))
  {
    OverdueExactlyWhen(s, now);
  }
}
