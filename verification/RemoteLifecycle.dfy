/** Every transaction leaves a row alone or commits one legal revision of it, judged by what its call had read. */
module RemoteLifecycle {
  import opened Basics
  import opened RemoteModel
  import opened RemoteSpec

  /** `b` differs from `a` in the row of one session at most. */
  predicate OnlyTouches(a: Db, b: Db, id: Id)
  {
    b.sessions == (if id in b.sessions then a.sessions[id := b.sessions[id]] else a.sessions)
  }

  lemma OneRowEvolves(a: Db, b: Db, id: Id, basis: Basis, now: int)
    requires OnlyTouches(a, b, id)
    requires id in a.sessions && id in b.sessions ==> Advances(a.sessions[id], b.sessions[id], basis, now)
    requires id !in a.sessions && id in b.sessions ==> Born(id, b.sessions[id]) && b.sessions[id].updatedAt == now
    ensures Evolves(a, b, basis, now)
  {
  }

  lemma TransitionEvolves(db: Db, id: Id, expected: int, allowed: set<State>, next: State, granted: Option<Caps>,
                          transport: Transport, reason: Reason, basis: Basis, now: int)
    requires (id in db.sessions && db.sessions[id].state in allowed && (expected > 0 ==> db.sessions[id].revision == expected))
             ==> var s' := Moved(db.sessions[id], next, granted, transport, reason, now);
                 Follows(db.sessions[id], Stamp(db.sessions[id], s', basis))
    ensures Evolves(db, Transition(db, id, expected, allowed, next, granted, transport, reason, now).0, basis, now)
  {
    OneRowEvolves(db, Transition(db, id, expected, allowed, next, granted, transport, reason, now).0, id, basis, now);
  }

  function TimedOut(s: Session, now: int): Session
    requires Ttl(s.state).Some?
  {
    Moved(s, Failed, None, NoTransport, Ttl(s.state).value.1, now)
  }

  /** applyTimeout on the stored row never loses its own compare-and-swap. */
  lemma ApplyTimeoutValue(db: Db, id: Id, clock: int, now: int)
    requires Legal(db, clock) && clock <= now && id in db.sessions
    ensures ApplyTimeout(db, db.sessions[id], now) ==
            if Overdue(db.sessions[id], now)
            then (db.(sessions := db.sessions[id := TimedOut(db.sessions[id], now)]), Success(TimedOut(db.sessions[id], now)))
            else (db, Success(db.sessions[id]))
    ensures Overdue(db.sessions[id], now) ==>
              Follows(db.sessions[id], Stamp(db.sessions[id], TimedOut(db.sessions[id], now), None))
  {
  }

  /**
   * A lookup either changes nothing and returns a row whose limit has not passed,
   * or fails the overdue row and returns it; in both cases it is the caller's row.
   */
  lemma GetForEndpointValue(db: Db, sid: Id, endpoint: Id, role: Role, clock: int, now: int)
    requires Legal(db, clock) && clock <= now
    ensures var (db', r) := GetForEndpoint(db, sid, endpoint, role, now);
            && db'.nonces == db.nonces && db'.hosts == db.hosts && Evolves(db, db', None, now)
            && (r.Failure? ==> db' == db)
            && (r.Success? ==>
                  && sid in db.sessions && sid in db'.sessions && r.value == db'.sessions[sid] && !Overdue(r.value, now)
                  && SameRequest(db.sessions[sid], r.value) && r.value.id == sid
                  && (role.Controller? ==> r.value.controllerId == endpoint)
                  && (role.Host? ==> r.value.hostId == endpoint)
                  && endpoint != NONE && !role.OtherRole?
                  && (db' == db || (r.value.state.Failed? && db' == db.(sessions := db.sessions[sid := r.value]))))
  {
    if sid in db.sessions {
      ApplyTimeoutValue(db, sid, clock, now);
      if Overdue(db.sessions[sid], now) {
        OneRowEvolves(db, db.(sessions := db.sessions[sid := TimedOut(db.sessions[sid], now)]), sid, None, now);
      }
    }
  }

  lemma RowsEvolve(db: Db, rows: map<Id, Session>, now: int)
    requires forall id :: id in rows ==>
               id in db.sessions && Follows(db.sessions[id], Stamp(db.sessions[id], rows[id], None)) && rows[id].updatedAt == now
    ensures Evolves(db, Updated(db, rows), None, now)
  {
  }

  lemma PromoteEvolves(db: Db, hostId: Id, clock: int, now: int)
    requires Legal(db, clock) && clock <= now
    ensures Evolves(db, PromoteWaitingHost(db, hostId, now), None, now)
  {
    RowsEvolve(db, Promotions(db, hostId, now), now);
  }

  lemma TimedOutFollows(s: Session, now: int)
    requires Sound(s) && Overdue(s, now)
    ensures Follows(s, Stamp(s, TimedOut(s, now), None))
  {
  }

  lemma ListEvolves(db: Db, hostId: Option<Id>, state: State, clock: int, now: int)
    requires Legal(db, clock) && clock <= now && Ttl(state).Some?
    ensures Evolves(db, ListAndTimeOut(db, hostId, state, now), None, now)
  {
    forall id | id in db.sessions && Listed(db.sessions[id], hostId, state) && Overdue(db.sessions[id], now)
      ensures Follows(db.sessions[id], Stamp(db.sessions[id], TimedOut(db.sessions[id], now), None))
    {
      TimedOutFollows(db.sessions[id], now);
    }
    RowsEvolve(db, Timeouts(db, hostId, state, now), now);
  }

  lemma ApproveEvolves(db: Db, id: Id, device: Id, expected: int, clock: int, now: int)
    requires Legal(db, clock) && clock <= now
    ensures Evolves(db, ApproveByPrimary(db, id, device, expected, now).0, None, now)
  {
    OneRowEvolves(db, ApproveByPrimary(db, id, device, expected, now).0, id, None, now);
  }

  lemma RequestEvolves(db: Db, newId: Id, controller: Id, hostId: Id, caps: seq<string>, primary: bool, now: int)
    ensures Evolves(db, RequestSession(db, newId, controller, hostId, caps, primary, now).0, None, now)
  {
    OneRowEvolves(db, RequestSession(db, newId, controller, hostId, caps, primary, now).0, newId, None, now);
  }

  // ---------- the second transaction of a call ----------

  /** What a call may go by when it moves a row: a sound revision of that row, read and judged before. */
  predicate Grounds(db: Db, sid: Id, e: Evidence, now: int)
  {
    && e.began <= now && (e.checkedAt.Some? ==> e.checkedAt.value <= now) && Sound(e.read)
    && (sid in db.sessions ==> SameRequest(db.sessions[sid], e.read) && db.sessions[sid].updatedAt <= now)
  }

  lemma RefuseEvolves(db: Db, sid: Id, e: Evidence, reason: string, expected: int, clock: int, now: int)
    requires Legal(db, clock) && Grounds(db, sid, e, now)
    ensures Evolves(db, RefuseMove(db, sid, e.read, reason, expected, now).0, Some(e), now)
  {
    TransitionEvolves(db, sid, Expected(expected, e.read), {WaitingPrimary}, Ended, None, NoTransport,
                      NormalizeEndReason(reason, Reason.RejectedByPrimary), Some(e), now);
  }

  lemma AcceptEvolves(db: Db, sid: Id, e: Evidence, expected: int, clock: int, now: int)
    requires Legal(db, clock) && Grounds(db, sid, e, now) && InTime(e)
    ensures Evolves(db, AcceptMove(db, sid, e.read, expected, now).0, Some(e), now)
  {
    TransitionEvolves(db, sid, Expected(expected, e.read), {WaitingConsent}, Negotiating, Some(e.read.requested), WebRtc,
                      NoReason, Some(e), now);
  }

  lemma RejectEvolves(db: Db, sid: Id, e: Evidence, reason: string, expected: int, clock: int, now: int)
    requires Legal(db, clock) && Grounds(db, sid, e, now)
    ensures Evolves(db, RejectMove(db, sid, e.read, reason, expected, now).0, Some(e), now)
  {
    TransitionEvolves(db, sid, Expected(expected, e.read), {WaitingHost, WaitingConsent}, Ended, None, NoTransport,
                      NormalizeEndReason(reason, Reason.RejectedByHost), Some(e), now);
  }

  lemma EndEvolves(db: Db, sid: Id, e: Evidence, reason: string, expected: int, clock: int, now: int)
    requires Legal(db, clock) && Grounds(db, sid, e, now)
    ensures Evolves(db, EndMove(db, sid, e.read, reason, expected, now).0, Some(e), now)
  {
    TransitionEvolves(db, sid, Expected(expected, e.read), ENDABLE, Ended, None, NoTransport,
                      NormalizeEndReason(reason, EndedByUser), Some(e), now);
  }

  lemma ConnectEvolves(db: Db, sid: Id, e: Evidence, expected: int, clock: int, now: int)
    requires Legal(db, clock) && Grounds(db, sid, e, now) && InTime(e)
    ensures Evolves(db, ConnectMove(db, sid, e.read, expected, now).0, Some(e), now)
  {
    TransitionEvolves(db, sid, Expected(expected, e.read), {Negotiating, Reconnecting},
                      if e.read.granted.ViewAndInput? then ConnectedControl else ConnectedView,
                      Some(e.read.granted), WebRtc, NoReason, Some(e), now);
  }

  lemma LoseEvolves(db: Db, sid: Id, e: Evidence, expected: int, clock: int, now: int)
    requires Legal(db, clock) && Grounds(db, sid, e, now)
    ensures Evolves(db, LoseMove(db, sid, e.read, expected, now).0, Some(e), now)
  {
    TransitionEvolves(db, sid, Expected(expected, e.read), {ConnectedView, ConnectedControl}, Reconnecting,
                      Some(e.read.granted), e.read.transport, NoReason, Some(e), now);
  }

  /** A whole call with no other call in between commits at most one revision: a row its lookup failed is not moved again. */
  lemma MarkReconnectingEvolves(db: Db, sid: Id, endpoint: Id, role: Role, expected: int, clock: int, now: int)
    requires Legal(db, clock) && clock <= now
    ensures Evolves(db, MarkReconnecting(db, sid, endpoint, role, expected, now, now).0, None, now)
  {
    GetForEndpointValue(db, sid, endpoint, role, clock, now);
    var (db1, current) := GetForEndpoint(db, sid, endpoint, role, now);
    if current.Success? && !NothingToLose(current.value) {
      TransitionEvolves(db, sid, Expected(expected, current.value), {ConnectedView, ConnectedControl}, Reconnecting,
                        Some(current.value.granted), current.value.transport, NoReason, None, now);
    }
  }
}
