/** When the service calls succeed and what they do then, in figures, for calls that nothing interrupts. */
module RemoteCalls {
  import opened Basics
  import opened RemoteModel
  import opened RemoteLifecycle
  import opened RemoteRuns
  import Spec = RemoteSpec

  /** The session has been in its state for as long as that state may last. */
  predicate PastLimit(s: Session, now: int)
  {
    || (s.state in {WaitingPrimary, WaitingHost, Negotiating} && now - s.updatedAt >= 2 * MINUTE)
    || (s.state == WaitingConsent && now - s.updatedAt >= 60 * SECOND)
    || (s.state == Reconnecting && now - s.updatedAt >= 30 * SECOND)
  }

  /** The endpoint is the party of the session that the role says. */
  predicate IsParty(s: Session, endpoint: Id, role: Role)
  {
    endpoint != NONE && ((role == Controller && s.controllerId == endpoint) || (role == Host && s.hostId == endpoint))
  }

  /** The caller named this revision, or none. */
  predicate Meant(expected: int, s: Session)
  {
    expected <= 0 || expected == s.revision
  }

  function Replaced(db: Db, s: Session): Db
  {
    db.(sessions := db.sessions[s.id := s])
  }

  /** A lookup gives a party its row, failed first if its limit has passed, and nobody else any. */
  lemma LookupExactlyWhen(db: Db, sid: Id, endpoint: Id, role: Role, clock: int, now: int)
    requires Legal(db, clock) && clock <= now
    ensures var (db', r) := Spec.GetForEndpoint(db, sid, endpoint, role, now);
            && (r.Success? <==> sid in db.sessions && IsParty(db.sessions[sid], endpoint, role))
            && (r.Failure? ==> db' == db && (r.error == NotFound <==> role != OtherRole && sid !in db.sessions)
                               && (r.error == Unauthorized <==> r.error != NotFound))
            && (r.Success? && !PastLimit(db.sessions[sid], now) ==> db' == db && r.value == db.sessions[sid])
            && (r.Success? && PastLimit(db.sessions[sid], now) ==>
                  && r.value.state == Failed && r.value.revision == db.sessions[sid].revision + 1
                  && r.value.endReason == Ttl(db.sessions[sid].state).value.1 && r.value.id == sid && db' == Replaced(db, r.value))
  {
    GetForEndpointValue(db, sid, endpoint, role, clock, now);
    if sid in db.sessions {
      ApplyTimeoutValue(db, sid, clock, now);
      OverdueExactlyWhen(db.sessions[sid], now);
    }
  }

  // ---------- the moves ----------

  /** The states from which a call moves a session. */
  predicate MovesFrom(op: Op, s: State)
  {
    match op
    case Refuse(_, _, _, _) => s == WaitingPrimary
    case Accept(_, _, _) => s == WaitingConsent
    case Reject(_, _, _, _) => s == WaitingHost || s == WaitingConsent
    case End(_, _, _, _, _) => s != Ended && s != Failed
    case Connected(_, _, _) => s == Negotiating || s == Reconnecting
    case Lost(_, _, _, _) => s == ConnectedView || s == ConnectedControl
    case Refresh(_, _, _) => false
  }

  /** Where a call moves a session that it has read as `read`. */
  function MovesTo(op: Op, read: Session): State
  {
    match op
    case Accept(_, _, _) => Negotiating
    case Connected(_, _, _) => if read.granted == ViewAndInput then ConnectedControl else ConnectedView
    case Lost(_, _, _, _) => Reconnecting
    case _ => Ended
  }

  /** A compare-and-swap succeeds exactly in the right state and at the revision that was named or read. */
  lemma MoveExactlyWhen(db: Db, op: Op, read: Session, now: int)
    requires !op.Refresh? && read.revision > 0 && op.sid in db.sessions && db.sessions[op.sid].id == op.sid
    ensures var (db', r) := Move(db, op, read, now);
            var s := db.sessions[op.sid];
            && (r.Success? <==>
                  MovesFrom(op, s.state) && (op.expected < 0 || s.revision == if op.expected == 0 then read.revision else op.expected))
            && (r.Failure? ==> db' == db && r.error == Conflict)
            && (r.Success? ==>
                  && db' == Replaced(db, r.value) && SameRequest(s, r.value)
                  && r.value.state == MovesTo(op, read) && r.value.revision == s.revision + 1 && r.value.updatedAt == now)
    ensures var (_, r) := Move(db, op, read, now);
            && (r.Success? && op.Accept? ==> r.value.granted == read.requested && r.value.transport == WebRtc)
            && (r.Success? && op.Connected? ==> r.value.granted == read.granted && r.value.transport == WebRtc)
            && (r.Success? && op.Refuse? ==> r.value.endReason == Spec.NormalizeEndReason(op.reason, Reason.RejectedByPrimary))
            && (r.Success? && op.Reject? ==> r.value.endReason == Spec.NormalizeEndReason(op.reason, Reason.RejectedByHost))
            && (r.Success? && op.End? ==> r.value.endReason == Spec.NormalizeEndReason(op.reason, Reason.EndedByUser))
  {
  }

  lemma MoveOfNothing(db: Db, op: Op, read: Session, now: int)
    requires !op.Refresh? && op.sid !in db.sessions
    ensures Move(db, op, read, now) == (db, Failure(NotFound))
  {
  }

  /** A plain word of at most 64 characters is recorded as the reason, any other text is not. */
  lemma ReasonIsKept(value: string, fallback: Reason)
    requires |value| <= 64 && (value != "" ==> value[0] != ' ' && value[|value| - 1] != ' ')
    requires forall i :: 0 <= i < |value| ==> value[i] < '\U{7f}' && value[i] >= ' '
    ensures Spec.NormalizeEndReason(value, fallback) ==
            if value != "" && forall i :: 0 <= i < |value| ==>
                 'a' <= value[i] <= 'z' || 'A' <= value[i] <= 'Z' || '0' <= value[i] <= '9' || value[i] in {'_', '-', '.'}
            then Given(value) else fallback
  {
    assert value == "" ==> value + [] == [];
    PlainTextIsTrimmed(value);
  }

  /** A longer word is cut after 64 characters. */
  lemma LongReasonIsCut(value: string, fallback: Reason)
    requires |value| > 64
    requires forall i :: 0 <= i < |value| ==>
               'a' <= value[i] <= 'z' || 'A' <= value[i] <= 'Z' || '0' <= value[i] <= '9' || value[i] in {'_', '-', '.'}
    ensures Spec.NormalizeEndReason(value, fallback) == Given(value[..64])
  {
    PlainTextIsTrimmed(value);
  }

  lemma PlainTextIsTrimmed(value: string)
    requires value != "" ==> value[0] != ' ' && value[|value| - 1] != ' '
    requires forall i :: 0 <= i < |value| ==> value[i] < '\U{7f}' && value[i] >= ' '
    ensures Spec.Text.Trim(value, Spec.Text.GO_SPACE) == value
  {
  }

  // ---------- whole calls ----------

  /** No nonce row that is still good has this nonce. */
  predicate NonceFree(db: Db, nonce: Id, now: int)
  {
    NonceHash(nonce) in db.nonces ==> db.nonces[NonceHash(nonce)].expiresAt <= now
  }

  /** A ticket is issued for a party, under a nonce that is free; it tells the session as it stands and is good for 90 seconds. */
  lemma IssueExactlyWhen(db: Db, key: Id, s: Session, endpoint: Id, role: Role, nonce: Id, now: int)
    ensures var (db', r) := Spec.Issue(db, key, s, endpoint, role, nonce, now);
            && (r.Success? <==> endpoint != NONE && role != OtherRole && NonceFree(db, nonce, now))
            && db'.sessions == db.sessions && db'.hosts == db.hosts
            && (r.Success? ==>
                  && NonceHash(nonce) in db'.nonces
                  && db'.nonces[NonceHash(nonce)] == NonceRow(s.id, endpoint, role, s.revision, now + 90 * SECOND, None)
                  && r.value.Token? && r.value.mac == Spec.Mac(key, r.value.payload)
                  && var c := r.value.payload;
                     && c.audience == "serein-remote" && c.sessionId == s.id && c.revision == s.revision && c.capabilities == s.granted
                     && c.endpointId == endpoint && c.role == role && c.nonce == nonce
                     && c.issuedAt == now / SECOND && c.expiresAt == (now + 90 * SECOND) / SECOND)
    ensures var (db', r) := Spec.Issue(db, key, s, endpoint, role, nonce, now);
            (r.Success? ==> forall h :: h != NonceHash(nonce) ==>
                                 (h in db'.nonces <==> h in db.nonces && db.nonces[h].expiresAt > now)
                                 && (h in db'.nonces ==> db'.nonces[h] == db.nonces[h]))
  {
  }

  /** The primary device approves a request that waits for it, whatever its limit: the request waits for consent from now on. */
  lemma ApproveExactlyWhen(db: Db, sid: Id, device: Id, expected: int, clock: int, now: int)
    requires Legal(db, clock) && sid in db.sessions
    ensures var s := db.sessions[sid];
            var (db', r) := Spec.ApproveByPrimary(db, sid, device, expected, now);
            && (r.Success? <==> device != NONE && s.state == WaitingPrimary && Meant(expected, s))
            && (r.Success? ==>
                  && db' == Replaced(db, r.value) && SameRequest(s, r.value) && r.value.primaryApproved
                  && r.value.state == WaitingConsent && r.value.revision == s.revision + 1 && r.value.updatedAt == now)
            && (r.Failure? ==> db' == db)
  {
  }

  /** The primary device refuses a request that waits for it, whatever its limit. */
  lemma RefuseExactlyWhen(db: Db, sid: Id, device: Id, reason: string, expected: int, clock: int, now: int)
    requires Legal(db, clock) && sid in db.sessions
    ensures var s := db.sessions[sid];
            var (db', r) := Spec.RejectByPrimary(db, sid, device, reason, expected, now);
            && (r.Success? <==> device != NONE && s.state == WaitingPrimary && Meant(expected, s))
            && (r.Success? ==> db' == Replaced(db, r.value) && r.value.state == Ended && SameRequest(s, r.value))
            && (r.Failure? ==> db' == db)
  {
    MoveExactlyWhen(db, Refuse(sid, device, reason, expected), db.sessions[sid], now);
  }

  /**
   * The host accepts its own request within 60 seconds: the session negotiates what was requested, and the host gets a
   * ticket for it if the nonce is free.
   */
  lemma AcceptExactlyWhen(db: Db, key: Id, sid: Id, host: Id, expected: int, nonce: Id, clock: int,
                          looked: int, moved: int, issued: int)
    requires Legal(db, clock) && clock <= looked && sid in db.sessions
    ensures var s := db.sessions[sid];
            var (db', r) := Spec.Accept(db, key, sid, host, expected, nonce, looked, moved, issued);
            var can := IsParty(s, host, Host) && s.state == WaitingConsent && looked - s.updatedAt < 60 * SECOND && Meant(expected, s);
            && (r.Success? <==> can && NonceFree(db, nonce, issued))
            && (can ==>
                  && sid in db'.sessions && SameRequest(s, db'.sessions[sid])
                  && db'.sessions[sid].state == Negotiating && db'.sessions[sid].granted == s.requested
                  && db'.sessions[sid].revision == s.revision + 1)
            && (r.Success? ==>
                  && r.value.0 == db'.sessions[sid]
                  && r.value.1 == Spec.Issue(Replaced(db, r.value.0), key, r.value.0, host, Host, nonce, issued).1.value)
  {
    LookupExactlyWhen(db, sid, host, Host, clock, looked);
    var (db1, current) := Spec.GetForHost(db, sid, host, looked);
    if current.Success? {
      MoveExactlyWhen(db1, Accept(sid, host, expected), current.value, moved);
      var (db2, updated) := Spec.AcceptMove(db1, sid, current.value, expected, moved);
      if updated.Success? {
        IssueExactlyWhen(db2, key, updated.value, host, Host, nonce, issued);
      }
    }
  }

  /** The host rejects its own request while it waits for the host or for consent, within the limit. */
  lemma RejectExactlyWhen(db: Db, sid: Id, host: Id, reason: string, expected: int, clock: int, looked: int, moved: int)
    requires Legal(db, clock) && clock <= looked && sid in db.sessions
    ensures var s := db.sessions[sid];
            var (db', r) := Spec.Reject(db, sid, host, reason, expected, looked, moved);
            && (r.Success? <==> IsParty(s, host, Host) && (s.state == WaitingHost || s.state == WaitingConsent)
                                && !PastLimit(s, looked) && Meant(expected, s))
            && (r.Success? ==> db' == Replaced(db, r.value) && r.value.state == Ended && SameRequest(s, r.value))
  {
    LookupExactlyWhen(db, sid, host, Host, clock, looked);
    var (db1, current) := Spec.GetForHost(db, sid, host, looked);
    if current.Success? {
      MoveExactlyWhen(db1, Reject(sid, host, reason, expected), current.value, moved);
    }
  }

  /** Either party ends a session from any state; one that is over or past its limit is answered with as it is. */
  lemma EndExactlyWhen(db: Db, sid: Id, endpoint: Id, role: Role, reason: string, expected: int, clock: int, looked: int, moved: int)
    requires Legal(db, clock) && clock <= looked && sid in db.sessions
    ensures var s := db.sessions[sid];
            var (db', r) := Spec.End(db, sid, endpoint, role, reason, expected, looked, moved);
            && (r.Success? <==> IsParty(s, endpoint, role) && (IsTerminal(s.state) || PastLimit(s, looked) || Meant(expected, s)))
            && (r.Success? && IsTerminal(s.state) ==> db' == db && r.value == s)
            && (r.Success? && !IsTerminal(s.state) ==>
                  && db' == Replaced(db, r.value) && SameRequest(s, r.value)
                  && r.value.state == if PastLimit(s, looked) then Failed else Ended)
  {
    LookupExactlyWhen(db, sid, endpoint, role, clock, looked);
    var (db1, current) := Spec.GetForEndpoint(db, sid, endpoint, role, looked);
    if current.Success? {
      MoveExactlyWhen(db1, End(sid, endpoint, role, reason, expected), current.value, moved);
    }
  }

  /** The host reports the connection of a session that negotiates or reconnects within its limit. */
  lemma ConnectExactlyWhen(db: Db, sid: Id, host: Id, expected: int, clock: int, looked: int, moved: int)
    requires Legal(db, clock) && clock <= looked && sid in db.sessions
    ensures var s := db.sessions[sid];
            var (db', r) := Spec.MarkConnected(db, sid, host, expected, looked, moved);
            && (r.Success? <==> IsParty(s, host, Host) && (s.state == Negotiating || s.state == Reconnecting)
                                && !PastLimit(s, looked) && Meant(expected, s))
            && (r.Success? ==>
                  && db' == Replaced(db, r.value) && SameRequest(s, r.value) && r.value.granted == s.granted
                  && r.value.state == if s.granted == ViewAndInput then ConnectedControl else ConnectedView)
  {
    LookupExactlyWhen(db, sid, host, Host, clock, looked);
    var (db1, current) := Spec.GetForHost(db, sid, host, looked);
    if current.Success? {
      MoveExactlyWhen(db1, Connected(sid, host, expected), current.value, moved);
    }
  }

  /** Either party reports the loss of a connection; a session that reconnects already or is over is answered with as it is. */
  lemma LoseExactlyWhen(db: Db, sid: Id, endpoint: Id, role: Role, expected: int, clock: int, looked: int, moved: int)
    requires Legal(db, clock) && clock <= looked && sid in db.sessions
    ensures var s := db.sessions[sid];
            var (db', r) := Spec.MarkReconnecting(db, sid, endpoint, role, expected, looked, moved);
            && (r.Success? <==>
                  IsParty(s, endpoint, role)
                  && (s.state == Reconnecting || IsTerminal(s.state) || PastLimit(s, looked)
                      || (IsConnected(s.state) && Meant(expected, s))))
            && (r.Success? && IsConnected(s.state) ==>
                  db' == Replaced(db, r.value) && r.value.state == Reconnecting && r.value.granted == s.granted && SameRequest(s, r.value))
            && (r.Success? && !IsConnected(s.state) && !PastLimit(s, looked) ==> db' == db && r.value == s)
  {
    LookupExactlyWhen(db, sid, endpoint, role, clock, looked);
    var (db1, current) := Spec.GetForEndpoint(db, sid, endpoint, role, looked);
    if current.Success? {
      MoveExactlyWhen(db1, Lost(sid, endpoint, role, expected), current.value, moved);
    }
  }

  /** A party gets a new ticket while the session negotiates or reconnects within its limit. */
  lemma RefreshExactlyWhen(db: Db, key: Id, sid: Id, endpoint: Id, role: Role, nonce: Id, clock: int, looked: int, issued: int)
    requires Legal(db, clock) && clock <= looked && sid in db.sessions
    ensures var s := db.sessions[sid];
            var (db', r) := Spec.RefreshTicket(db, key, sid, endpoint, role, nonce, looked, issued);
            && (r.Success? <==> IsParty(s, endpoint, role) && (s.state == Negotiating || s.state == Reconnecting)
                                && !PastLimit(s, looked) && NonceFree(db, nonce, issued))
            && (r.Success? ==> (db', r) == Spec.Issue(db, key, s, endpoint, role, nonce, issued))
  {
    LookupExactlyWhen(db, sid, endpoint, role, clock, looked);
    IssueExactlyWhen(db, key, db.sessions[sid], endpoint, role, nonce, issued);
  }

  // ---------- requests, lists and hosts ----------

  /** A request is taken from a known controller for a known host that supports what is asked for. */
  lemma RequestExactlyWhen(db: Db, newId: Id, controller: Id, hostId: Id, caps: seq<string>, primary: bool, now: int)
    ensures var (db', r) := Spec.RequestSession(db, newId, controller, hostId, caps, primary, now);
            var wanted := Spec.NormalizeCapabilities(caps);
            && (r.Success? <==>
                  && controller != NONE && hostId in db.hosts && newId !in db.sessions && wanted.Success?
                  && db.hosts[hostId].supportsView && (wanted.value == ViewAndInput ==> db.hosts[hostId].supportsInput))
            && (r.Success? ==>
                  && r.value.id == newId && r.value.hostId == db.hosts[hostId].id && r.value.controllerId == controller
                  && r.value.controllerIsPrimary == primary && r.value.requested == wanted.value && r.value.updatedAt == now
                  && db'.sessions == db.sessions[newId := r.value] && db'.hosts == db.hosts && db'.nonces == db.nonces)
            && (r.Failure? ==> db' == db)
  {
  }

  /** A host is shown exactly its requests that wait for consent and are less than 60 seconds old; the others time out. */
  lemma HostListExactlyWhen(db: Db, hostId: Id, clock: int, now: int, id: Id)
    requires Legal(db, clock) && clock <= now
    ensures var db' := Spec.ListAndTimeOut(db, Some(hostId), WaitingConsent, now);
            var mine := id in db.sessions && db.sessions[id].hostId == hostId && db.sessions[id].state == WaitingConsent;
            && (id in Spec.Selected(db', Some(hostId), WaitingConsent) <==> mine && now - db.sessions[id].updatedAt < 60 * SECOND)
            && (id in Spec.Selected(db', Some(hostId), WaitingConsent) ==>
                  Spec.Selected(db', Some(hostId), WaitingConsent)[id] == db.sessions[id])
            && (id in db.sessions ==>
                  && id in db'.sessions
                  && if mine && now - db.sessions[id].updatedAt >= 60 * SECOND
                     then db'.sessions[id].state == Failed && db'.sessions[id].endReason == ConsentTimeout
                     else db'.sessions[id] == db.sessions[id])
  {
  }

  /** The primary device is shown exactly the requests that wait for it and are less than two minutes old. */
  lemma PrimaryListExactlyWhen(db: Db, clock: int, now: int, id: Id)
    requires Legal(db, clock) && clock <= now
    ensures var db' := Spec.ListAndTimeOut(db, None, WaitingPrimary, now);
            var waits := id in db.sessions && db.sessions[id].state == WaitingPrimary;
            && (id in Spec.Selected(db', None, WaitingPrimary) <==> waits && now - db.sessions[id].updatedAt < 2 * MINUTE)
            && (id in Spec.Selected(db', None, WaitingPrimary) ==> Spec.Selected(db', None, WaitingPrimary)[id] == db.sessions[id])
            && (id in db.sessions ==>
                  && id in db'.sessions
                  && if waits && now - db.sessions[id].updatedAt >= 2 * MINUTE
                     then db'.sessions[id].state == Failed && db'.sessions[id].endReason == PrimaryApprovalTimeout
                     else db'.sessions[id] == db.sessions[id])
  {
  }

  /** A registration stores what the host says of itself, seen now, and keeps a revocation; other hosts stay as they are. */
  lemma RegisteredHost(db: Db, host: HostRow, now: int, other: Id)
    ensures var db' := Spec.RegisterHost(db, host, now);
            && host.id in db'.hosts
            && db'.hosts[host.id] == HostRow(host.id, host.supportsView, host.supportsInput, now,
                                             if host.id in db.hosts then db.hosts[host.id].revokedAt else None)
            && (other != host.id ==> (other in db'.hosts <==> other in db.hosts)
                                     && (other in db.hosts ==> db'.hosts[other] == db.hosts[other]))
            && db'.nonces == db.nonces
  {
  }

  /** A heartbeat is refused for an unknown host, and without capabilities for a revoked one; it keeps what it does not name. */
  lemma HeartbeatExactlyWhen(db: Db, hostId: Id, caps: Option<(bool, bool)>, now: int, other: Id)
    ensures var (db', r) := Spec.Heartbeat(db, hostId, caps, now);
            && (r.Success? <==> hostId in db.hosts && (caps.None? ==> db.hosts[hostId].revokedAt.None?))
            && (r.Failure? ==> db' == db && r.error == NotFound)
            && (r.Success? ==>
                  && hostId in db'.hosts
                  && var (a, b) := (db.hosts[hostId], db'.hosts[hostId]);
                     && b.id == hostId && b.lastSeenAt == now && b.revokedAt == a.revokedAt
                     && b.supportsView == (if caps.Some? then caps.value.0 else a.supportsView)
                     && b.supportsInput == (if caps.Some? then caps.value.1 else a.supportsInput))
            && (other != hostId ==> (other in db'.hosts <==> other in db.hosts)
                                    && (other in db.hosts ==> db'.hosts[other] == db.hosts[other]))
            && db'.nonces == db.nonces
  {
  }
}
