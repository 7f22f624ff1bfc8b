/** The ticket issuer and the session service, each call against the tables of one repository. */
module RemoteService {
  import opened Basics
  import opened RemoteModel
  import opened RemoteRepository
  import Spec = RemoteSpec
  import Text

  class TicketIssuer {
    const repo: Repository
    const key: Id

    constructor (repo: Repository, key: Id)
      ensures this.repo == repo && this.key == key
    {
      this.repo, this.key := repo, key;
    }

    /** `nonce` stands for the 24 random bytes. */
    method Issue(s: Session, endpoint: Id, role: Role, nonce: Id, now: int) returns (r: Result<Spec.Token, Error>)
      requires repo.Valid()
      modifies repo
      ensures repo.Valid()
      ensures (repo.Contents(), r) == Spec.Issue(old(repo.Contents()), key, s, endpoint, role, nonce, now)
    {
      if endpoint == NONE || (role != Controller && role != Host) {
        return Failure(Invalid);
      }
      repo.DeleteExpiredTicketNonces(now);
      var expires := now + Spec.TICKET_TTL;
      var claims := Spec.Claims(Spec.AUDIENCE, s.id, endpoint, role, s.granted, s.revision, nonce,
                                Spec.Unix(now), Spec.Unix(expires));
      var created := repo.CreateTicketNonce(NonceHash(nonce), NonceRow(s.id, endpoint, role, s.revision, expires, None));
      if created.Failure? {
        return Failure(created.error);
      }
      return Success(Spec.Token(claims, Spec.Mac(key, claims)));
    }

    method ValidateAndConsume(token: Spec.Token, sid: Id, endpoint: Id, role: Role, revision: int, now: int)
      returns (r: Result<Spec.Claims, Error>)
      requires repo.Valid()
      modifies repo
      ensures repo.Valid()
      ensures (repo.Contents(), r)
              == Spec.ValidateAndConsume(old(repo.Contents()), key, token, sid, endpoint, role, revision, now)
    {
      if token.Garbled? {
        return Failure(Invalid);
      }
      var claims := token.payload;
      var want := Spec.Mac(key, claims);
      if token.mac != want {
        return Failure(Invalid);
      }
      if claims.audience != Spec.AUDIENCE || claims.sessionId != sid || claims.endpointId != endpoint
         || claims.role != role || claims.revision != revision || claims.nonce == NONE
      {
        return Failure(Invalid);
      }
      if claims.expiresAt <= Spec.Unix(now) || claims.issuedAt > Spec.Unix(now + 30 * SECOND) {
        return Failure(TicketExpired);
      }
      var consumed := repo.ConsumeTicketNonce(NonceHash(claims.nonce), sid, endpoint, role, revision, now);
      if consumed.Failure? {
        return Failure(consumed.error);
      }
      return Success(claims);
    }
  }

  lemma ScanStep(names: seq<string>, i: nat, seen: set<string>)
    requires i < |names|
    ensures Spec.ScanCapabilities(names[i..], seen) ==
            if names[i] !in {Spec.VIEW, Spec.INPUT} || names[i] in seen then None
            else Spec.ScanCapabilities(names[i + 1..], seen + {names[i]})
  {
    assert names[i..][0] == names[i] && names[i..][1..] == names[i + 1..];
  }

  /** The capability scan: trims, refuses unknown and repeated names, and needs "view". */
  method NormalizeRequestedCapabilities(values: seq<string>) returns (r: Result<Caps, Error>)
    ensures r == Spec.NormalizeCapabilities(values)
  {
    if |values| == 0 {
      return Success(ViewOnly);
    }
    ghost var names := Spec.TrimAll(values);
    var seen: set<string> := {};
    var i := 0;
    while i < |values|
      invariant 0 <= i <= |values|
      invariant Spec.ScanCapabilities(names, {}) == Spec.ScanCapabilities(names[i..], seen)
    {
      var v := Text.Trim(values[i], Text.GO_SPACE);
      ScanStep(names, i, seen);
      if v !in {Spec.VIEW, Spec.INPUT} || v in seen {
        return Failure(InvalidCapability);
      }
      seen := seen + {v};
      i := i + 1;
    }
    assert names[i..] == [];
    if Spec.VIEW !in seen {
      return Failure(InvalidCapability);
    }
    var canonical := ViewOnly;
    if Spec.INPUT in seen {
      canonical := ViewAndInput;
    }
    return Success(canonical);
  }

  lemma DoneNext(db: Db, want: map<Id, Session>, todo: set<Id>, id: Id, next: State, reason: Reason, now: int)
    requires id in todo && id in want && id in db.sessions
    requires want[id] == Spec.Moved(db.sessions[id], next, None, NoTransport, reason, now)
    ensures var s := db.sessions[id];
            Spec.Transition(Spec.Updated(db, Spec.Done(want, todo)), id, s.revision, {s.state}, next, None, NoTransport,
                            reason, now)
            == (Spec.Updated(db, Spec.Done(want, todo - {id})), Success(want[id]))
  {
    var db' := Spec.Updated(db, Spec.Done(want, todo));
    Spec.DoneStep(want, todo, id);
    assert db'.sessions[id := want[id]] == db.sessions + Spec.Done(want, todo - {id});
  }

  lemma DoneNothing(db: Db, want: map<Id, Session>, todo: set<Id>)
    requires want.Keys <= todo
    ensures Spec.Updated(db, Spec.Done(want, todo)) == db
  {
    Spec.DoneEnds(want, todo);
    assert db.sessions + map[] == db.sessions;
  }

  /** One round of a list call: the row is timed out when overdue and left alone otherwise. */
  lemma TimeoutNext(db: Db, todo: set<Id>, id: Id, hostId: Option<Id>, state: State, now: int)
    requires Ttl(state).Some? && id in todo && id in Spec.Selected(db, hostId, state) && db.sessions[id].id == id
    ensures var want := Spec.Timeouts(db, hostId, state, now);
            Spec.ApplyTimeout(Spec.Updated(db, Spec.Done(want, todo)), db.sessions[id], now)
            == (Spec.Updated(db, Spec.Done(want, todo - {id})), Success(if id in want then want[id] else db.sessions[id]))
  {
    var want := Spec.Timeouts(db, hostId, state, now);
    if id in want {
      DoneNext(db, want, todo, id, Failed, Ttl(state).value.1, now);
    } else {
      Spec.DoneStep(want, todo, id);
    }
  }

  lemma StillListedAt(db: Db, hostId: Option<Id>, state: State, now: int, id: Id)
    requires Ttl(state).Some?
    ensures var all := Spec.Selected(db, hostId, state);
            var after := Spec.Selected(Spec.ListAndTimeOut(db, hostId, state, now), hostId, state);
            && (id in after <==> id in all && id !in Spec.Timeouts(db, hostId, state, now))
            && (id in after ==> after[id] == all[id])
  {
  }

  /** The rows still selected after the timeouts are the ones that were selected and not overdue. */
  lemma StillListed(db: Db, hostId: Option<Id>, state: State, now: int)
    requires Ttl(state).Some?
    ensures Spec.Selected(Spec.ListAndTimeOut(db, hostId, state, now), hostId, state)
            == Spec.Done(Spec.Selected(db, hostId, state), Spec.Timeouts(db, hostId, state, now).Keys)
  {
    var after := Spec.Selected(Spec.ListAndTimeOut(db, hostId, state, now), hostId, state);
    var rest := Spec.Done(Spec.Selected(db, hostId, state), Spec.Timeouts(db, hostId, state, now).Keys);
    forall id
      ensures id in after <==> id in rest
      ensures id in after ==> after[id] == rest[id]
    {
      StillListedAt(db, hostId, state, now, id);
    }
    assert after.Keys == rest.Keys;
  }

  class Service {
    const repo: Repository
    const tickets: TicketIssuer

    constructor (tickets: TicketIssuer)
      ensures this.tickets == tickets && this.repo == tickets.repo
    {
      this.repo, this.tickets := tickets.repo, tickets;
    }

    ghost predicate Valid()
      reads this, repo
    {
      tickets.repo == repo && repo.Valid()
    }

    method PromoteWaitingHost(hostId: Id, now: int)
      requires Valid()
      modifies repo
      ensures Valid() && repo.Contents() == Spec.PromoteWaitingHost(old(repo.Contents()), hostId, now)
    {
      ghost var before := repo.Contents();
      ghost var want := Spec.Promotions(before, hostId, now);
      var pending := repo.ListSessions(Some(hostId), WaitingHost);
      var todo := pending.Keys;
      DoneNothing(before, want, todo);
      while todo != {}
        invariant todo <= pending.Keys
        invariant Valid()
        invariant repo.Contents() == Spec.Updated(before, Spec.Done(want, todo))
        decreases todo
      {
        var id :| id in todo;
        DoneNext(before, want, todo, id, WaitingConsent, NoReason, now);
        var _ := repo.TransitionSession(id, pending[id].revision, {WaitingHost}, WaitingConsent, None, NoTransport,
                                        NoReason, now);
        todo := todo - {id};
      }
      Spec.DoneEnds(want, {});
    }

    method RegisterHost(host: HostRow, now: int)
      requires Valid()
      modifies repo
      ensures Valid() && repo.Contents() == Spec.RegisterHost(old(repo.Contents()), host, now)
    {
      repo.UpsertHost(host.(lastSeenAt := now));
      PromoteWaitingHost(host.id, now);
    }

    method Heartbeat(hostId: Id, caps: Option<(bool, bool)>, now: int) returns (r: Result<(), Error>)
      requires Valid()
      modifies repo
      ensures Valid() && (repo.Contents(), r) == Spec.Heartbeat(old(repo.Contents()), hostId, caps, now)
    {
      if hostId !in repo.hosts {
        return Failure(NotFound);
      }
      var row := repo.hosts[hostId].(id := hostId, lastSeenAt := now);
      if caps.Some? {
        row := row.(supportsView := caps.value.0, supportsInput := caps.value.1);
      } else if row.revokedAt.Some? {
        return Failure(NotFound);
      }
      repo.UpsertHost(row);
      PromoteWaitingHost(hostId, now);
      return Success(());
    }

    /** `newId` stands for the new UUID. */
    method RequestSession(newId: Id, controller: Id, hostId: Id, caps: seq<string>, primary: bool, now: int)
      returns (r: Result<Session, Error>)
      requires Valid()
      modifies repo
      ensures Valid()
      ensures (repo.Contents(), r) == Spec.RequestSession(old(repo.Contents()), newId, controller, hostId, caps, primary, now)
    {
      if controller == NONE {
        return Failure(Unauthorized);
      }
      if hostId !in repo.hosts {
        return Failure(NotFound);
      }
      var host := repo.hosts[hostId];
      var requested := NormalizeRequestedCapabilities(caps);
      if requested.Failure? {
        return Failure(requested.error);
      }
      if !host.supportsView {
        return Failure(InvalidCapability);
      }
      if requested.value.ViewAndInput? && !host.supportsInput {
        return Failure(InvalidCapability);
      }
      var state, primaryApproved := WaitingPrimary, false;
      if primary {
        primaryApproved, state := true, WaitingHost;
        if host.revokedAt.None? && host.lastSeenAt > now - 30 * SECOND {
          state := WaitingConsent;
        }
      }
      r := repo.InsertSession(Session(newId, host.id, controller, primary, primaryApproved, state, 1, requested.value, NoCaps,
                                      NoTransport, now, now, None, None, NoReason));
    }

    method ApplyTimeout(s: Session, now: int) returns (r: Result<Session, Error>)
      requires Valid()
      modifies repo
      ensures Valid() && (repo.Contents(), r) == Spec.ApplyTimeout(old(repo.Contents()), s, now)
    {
      if IsTerminal(s.state) {
        return Success(s);
      }
      var limit := Ttl(s.state);
      if limit.None? {
        return Success(s);
      }
      var (ttl, reason) := limit.value;
      if s.updatedAt + ttl > now {
        return Success(s);
      }
      r := repo.TransitionSession(s.id, s.revision, {s.state}, Failed, None, NoTransport, reason, now);
      if r == Failure(Conflict) {
        r := repo.GetSession(s.id);
      }
    }

    method GetSessionForController(sid: Id, controller: Id, now: int) returns (r: Result<Session, Error>)
      requires Valid()
      modifies repo
      ensures Valid() && (repo.Contents(), r) == Spec.GetForController(old(repo.Contents()), sid, controller, now)
    {
      r := repo.GetSession(sid);
      if r.Failure? {
        return r;
      }
      if controller == NONE || r.value.controllerId != controller {
        return Failure(Unauthorized);
      }
      r := ApplyTimeout(r.value, now);
    }

    method GetSessionForHost(sid: Id, host: Id, now: int) returns (r: Result<Session, Error>)
      requires Valid()
      modifies repo
      ensures Valid() && (repo.Contents(), r) == Spec.GetForHost(old(repo.Contents()), sid, host, now)
    {
      r := repo.GetSession(sid);
      if r.Failure? {
        return r;
      }
      if host == NONE || r.value.hostId != host {
        return Failure(Unauthorized);
      }
      r := ApplyTimeout(r.value, now);
    }

    method GetSessionForEndpoint(sid: Id, endpoint: Id, role: Role, now: int) returns (r: Result<Session, Error>)
      requires Valid()
      modifies repo
      ensures Valid() && (repo.Contents(), r) == Spec.GetForEndpoint(old(repo.Contents()), sid, endpoint, role, now)
    {
      if role == Controller {
        r := GetSessionForController(sid, endpoint, now);
      } else if role == Host {
        r := GetSessionForHost(sid, endpoint, now);
      } else {
        r := Failure(Unauthorized);
      }
    }

    /** The loop both list calls share. */
    method TimeOutListed(items: map<Id, Session>, hostId: Option<Id>, state: State, now: int) returns (out: map<Id, Session>)
      requires Valid() && Ttl(state).Some? && items == Spec.Selected(repo.Contents(), hostId, state)
      modifies repo
      ensures Valid() && repo.Contents() == Spec.ListAndTimeOut(old(repo.Contents()), hostId, state, now)
      ensures out == Spec.Done(items, Spec.Timeouts(old(repo.Contents()), hostId, state, now).Keys)
    {
      ghost var before := repo.Contents();
      ghost var want := Spec.Timeouts(before, hostId, state, now);
      ghost var waiting := Spec.Done(items, want.Keys);
      out := map[];
      var todo := items.Keys;
      DoneNothing(before, want, todo);
      Spec.DoneEnds(waiting, todo);
      while todo != {}
        invariant todo <= items.Keys
        invariant Valid()
        invariant repo.Contents() == Spec.Updated(before, Spec.Done(want, todo))
        invariant out == Spec.Done(waiting, todo)
        decreases todo
      {
        var id :| id in todo;
        TimeoutNext(before, todo, id, hostId, state, now);
        Spec.DoneStep(waiting, todo, id);
        var current := ApplyTimeout(items[id], now);
        if current.value.state == state {
          out := out[id := current.value];
        }
        todo := todo - {id};
      }
      Spec.DoneEnds(want, {});
      Spec.DoneEnds(waiting, {});
    }

    /** What a host sees is exactly what waits for its consent once the overdue rows have failed. */
    method ListPendingForHost(hostId: Id, now: int) returns (r: Result<map<Id, Session>, Error>)
      requires Valid()
      modifies repo
      ensures Valid()
      ensures hostId !in old(repo.hosts) ==> repo.Contents() == old(repo.Contents()) && r == Failure(NotFound)
      ensures hostId in old(repo.hosts) ==>
                && repo.Contents() == Spec.ListAndTimeOut(old(repo.Contents()), Some(hostId), WaitingConsent, now)
                && r == Success(Spec.Selected(repo.Contents(), Some(hostId), WaitingConsent))
    {
      if hostId !in repo.hosts {
        return Failure(NotFound);
      }
      var items := repo.ListSessions(Some(hostId), WaitingConsent);
      StillListed(repo.Contents(), Some(hostId), WaitingConsent, now);
      var out := TimeOutListed(items, Some(hostId), WaitingConsent, now);
      return Success(out);
    }

    method ListPendingForPrimary(now: int) returns (out: map<Id, Session>)
      requires Valid()
      modifies repo
      ensures Valid() && repo.Contents() == Spec.ListAndTimeOut(old(repo.Contents()), None, WaitingPrimary, now)
      ensures out == Spec.Selected(repo.Contents(), None, WaitingPrimary)
    {
      var items := repo.ListSessions(None, WaitingPrimary);
      StillListed(repo.Contents(), None, WaitingPrimary, now);
      out := TimeOutListed(items, None, WaitingPrimary, now);
    }

    method ApproveByPrimary(sid: Id, device: Id, expected: int, now: int) returns (r: Result<Session, Error>)
      requires Valid()
      modifies repo
      ensures Valid() && (repo.Contents(), r) == Spec.ApproveByPrimary(old(repo.Contents()), sid, device, expected, now)
    {
      if device == NONE {
        return Failure(Unauthorized);
      }
      r := repo.ApprovePrimarySession(sid, expected, now);
    }

    method RejectByPrimary(sid: Id, device: Id, reason: string, expected: int, now: int)
      returns (r: Result<Session, Error>)
      requires Valid()
      modifies repo
      ensures Valid() && (repo.Contents(), r) == Spec.RejectByPrimary(old(repo.Contents()), sid, device, reason, expected, now)
    {
      if device == NONE {
        return Failure(Unauthorized);
      }
      r := repo.GetSession(sid);
      if r.Failure? {
        return r;
      }
      var exp := if expected == 0 then r.value.revision else expected;
      r := repo.TransitionSession(sid, exp, {WaitingPrimary}, Ended, None, NoTransport,
                                  Spec.NormalizeEndReason(reason, Reason.RejectedByPrimary), now);
    }

    /** `looked`, `moved` and `issued` are the three readings of the clock. */
    method Accept(sid: Id, host: Id, expected: int, nonce: Id, looked: int, moved: int, issued: int)
      returns (r: Result<(Session, Spec.Token), Error>)
      requires Valid()
      modifies repo
      ensures Valid()
      ensures (repo.Contents(), r)
              == Spec.Accept(old(repo.Contents()), tickets.key, sid, host, expected, nonce, looked, moved, issued)
    {
      var current := GetSessionForHost(sid, host, looked);
      if current.Failure? {
        return Failure(current.error);
      }
      var exp := if expected == 0 then current.value.revision else expected;
      var updated := repo.TransitionSession(sid, exp, {WaitingConsent}, Negotiating, Some(current.value.requested),
                                            WebRtc, NoReason, moved);
      if updated.Failure? {
        return Failure(updated.error);
      }
      var ticket := tickets.Issue(updated.value, host, Host, nonce, issued);
      if ticket.Failure? {
        return Failure(ticket.error);
      }
      return Success((updated.value, ticket.value));
    }

    method Reject(sid: Id, host: Id, reason: string, expected: int, looked: int, moved: int)
      returns (r: Result<Session, Error>)
      requires Valid()
      modifies repo
      ensures Valid() && (repo.Contents(), r) == Spec.Reject(old(repo.Contents()), sid, host, reason, expected, looked, moved)
    {
      r := GetSessionForHost(sid, host, looked);
      if r.Failure? {
        return r;
      }
      var exp := if expected == 0 then r.value.revision else expected;
      r := repo.TransitionSession(sid, exp, {WaitingHost, WaitingConsent}, Ended, None, NoTransport,
                                  Spec.NormalizeEndReason(reason, Reason.RejectedByHost), moved);
    }

    /** EndByController and EndByHost. */
    method End(sid: Id, endpoint: Id, role: Role, reason: string, expected: int, looked: int, moved: int)
      returns (r: Result<Session, Error>)
      requires Valid()
      modifies repo
      ensures Valid()
      ensures (repo.Contents(), r) == Spec.End(old(repo.Contents()), sid, endpoint, role, reason, expected, looked, moved)
    {
      r := GetSessionForEndpoint(sid, endpoint, role, looked);
      if r.Failure? || IsTerminal(r.value.state) {
        return r;
      }
      var exp := if expected == 0 then r.value.revision else expected;
      assert r.value.id == sid by { Spec.LookupId(old(repo.Contents()), sid, endpoint, role, looked); }
      r := repo.TransitionSession(r.value.id, exp, Spec.ENDABLE, Ended, None, NoTransport,
                                  Spec.NormalizeEndReason(reason, EndedByUser), moved);
    }

    method MarkConnected(sid: Id, host: Id, expected: int, looked: int, moved: int) returns (r: Result<Session, Error>)
      requires Valid()
      modifies repo
      ensures Valid() && (repo.Contents(), r) == Spec.MarkConnected(old(repo.Contents()), sid, host, expected, looked, moved)
    {
      r := GetSessionForHost(sid, host, looked);
      if r.Failure? {
        return r;
      }
      var exp := if expected == 0 then r.value.revision else expected;
      var next := ConnectedView;
      if r.value.granted.ViewAndInput? {
        next := ConnectedControl;
      }
      r := repo.TransitionSession(sid, exp, {Negotiating, Reconnecting}, next, Some(r.value.granted), WebRtc, NoReason, moved);
    }

    method MarkReconnecting(sid: Id, endpoint: Id, role: Role, expected: int, looked: int, moved: int)
      returns (r: Result<Session, Error>)
      requires Valid()
      modifies repo
      ensures Valid()
      ensures (repo.Contents(), r)
              == Spec.MarkReconnecting(old(repo.Contents()), sid, endpoint, role, expected, looked, moved)
    {
      r := GetSessionForEndpoint(sid, endpoint, role, looked);
      if r.Failure? || r.value.state == Reconnecting || IsTerminal(r.value.state) {
        return r;
      }
      var exp := if expected == 0 then r.value.revision else expected;
      r := repo.TransitionSession(sid, exp, {ConnectedView, ConnectedControl}, Reconnecting, Some(r.value.granted),
                                  r.value.transport, NoReason, moved);
    }

    method RefreshTicket(sid: Id, endpoint: Id, role: Role, nonce: Id, looked: int, issued: int)
      returns (r: Result<Spec.Token, Error>)
      requires Valid()
      modifies repo
      ensures Valid()
      ensures (repo.Contents(), r)
              == Spec.RefreshTicket(old(repo.Contents()), tickets.key, sid, endpoint, role, nonce, looked, issued)
    {
      var s := GetSessionForEndpoint(sid, endpoint, role, looked);
      if s.Failure? {
        return Failure(s.error);
      }
      if s.value.state != Negotiating && s.value.state != Reconnecting {
        return Failure(Conflict);
      }
      r := tickets.Issue(s.value, endpoint, role, nonce, issued);
    }

    method ConsumeTicket(token: Spec.Token, sid: Id, endpoint: Id, role: Role, revision: int, now: int)
      returns (r: Result<Spec.Claims, Error>)
      requires Valid()
      modifies repo
      ensures Valid()
      ensures (repo.Contents(), r)
              == Spec.ConsumeTicket(old(repo.Contents()), tickets.key, token, sid, endpoint, role, revision, now)
    {
      var s := repo.GetSession(sid);
      if s.Failure? {
        return Failure(s.error);
      }
      if s.value.revision != revision || (s.value.state != Negotiating && s.value.state != Reconnecting) {
        return Failure(Conflict);
      }
      if role == Controller && s.value.controllerId != endpoint {
        return Failure(Unauthorized);
      }
      if role == Host && s.value.hostId != endpoint {
        return Failure(Unauthorized);
      }
      r := tickets.ValidateAndConsume(token, sid, endpoint, role, revision, now);
    }
  }
}
