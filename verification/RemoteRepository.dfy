/** The tables as the repository object updates them, one transaction a method. */
module RemoteRepository {
  import opened Basics
  import opened RemoteModel
  import Spec = RemoteSpec

  lemma Swapped(db: Db, id: Id, expected: int, allowed: set<State>, next: State, granted: Option<Caps>, transport: Transport,
                reason: Reason, now: int)
    requires id in db.sessions && (expected > 0 ==> db.sessions[id].revision == expected) && db.sessions[id].state in allowed
    ensures var row := Spec.Moved(db.sessions[id], next, granted, transport, reason, now);
            && Spec.Transition(db, id, expected, allowed, next, granted, transport, reason, now)
               == (db.(sessions := db.sessions[id := row]), Success(row))
            && row.id == db.sessions[id].id
  {
  }

  class Repository {
    var hosts: map<Id, HostRow>
    var sessions: map<Id, Session>
    var nonces: map<NonceHash, NonceRow>

    ghost function Contents(): Db
      reads this
    {
      Db(hosts, sessions, nonces)
    }

    /** Rows are stored under their own id. */
    ghost predicate Valid()
      reads this
    {
      forall id :: id in sessions ==> sessions[id].id == id
    }

    constructor ()
      ensures Valid() && Contents() == Db(map[], map[], map[])
    {
      hosts, sessions, nonces := map[], map[], map[];
    }

    /** The end of a transaction on one row: the update, the commit, and the read after it. */
    method Update(row: Session) returns (r: Result<Session, Error>)
      requires Valid()
      modifies this
      ensures Valid() && Contents() == old(Contents()).(sessions := old(sessions)[row.id := row]) && r == Success(row)
    {
      sessions := sessions[row.id := row];
      r := GetSession(row.id);
    }

    /** The read-check-write transaction: stale revisions and states that may not move are refused. */
    method TransitionSession(id: Id, expected: int, allowed: set<State>, next: State,
                             granted: Option<Caps>, transport: Transport, reason: Reason, now: int)
      returns (r: Result<Session, Error>)
      requires Valid()
      modifies this
      ensures Valid()
      ensures Contents() == Spec.Transition(old(Contents()), id, expected, allowed, next, granted, transport, reason, now).0
      ensures r == Spec.Transition(old(Contents()), id, expected, allowed, next, granted, transport, reason, now).1
    {
      if id !in sessions {
        return Failure(NotFound);
      }
      var s := sessions[id];
      if (expected > 0 && s.revision != expected) || s.state !in allowed {
        return Failure(Conflict);
      }
      Swapped(Contents(), id, expected, allowed, next, granted, transport, reason, now);
      r := Update(Spec.Moved(s, next, granted, transport, reason, now));
    }

    method ApprovePrimarySession(id: Id, expected: int, now: int) returns (r: Result<Session, Error>)
      requires Valid()
      modifies this
      ensures Valid() && (Contents(), r) == Spec.ApprovePrimary(old(Contents()), id, expected, now)
    {
      if id !in sessions {
        return Failure(NotFound);
      }
      var s := sessions[id];
      if (expected > 0 && s.revision != expected) || s.state != WaitingPrimary {
        return Failure(Conflict);
      }
      r := Update(s.(state := WaitingConsent, primaryApproved := true, revision := s.revision + 1, updatedAt := now));
    }

    method InsertSession(s: Session) returns (r: Result<Session, Error>)
      requires Valid()
      modifies this
      ensures Valid() && (Contents(), r) == Spec.InsertSession(old(Contents()), s)
    {
      if s.id in sessions {
        return Failure(Invalid);
      }
      sessions := sessions[s.id := s];
      return Success(s);
    }

    method GetSession(id: Id) returns (r: Result<Session, Error>)
      requires Valid()
      ensures r == if id in sessions then Success(sessions[id]) else Failure(NotFound)
    {
      if id in sessions {
        return Success(sessions[id]);
      }
      return Failure(NotFound);
    }

    /** Both list queries: every row in the state (and of the host). */
    method ListSessions(hostId: Option<Id>, state: State) returns (out: map<Id, Session>)
      requires Valid()
      ensures out == Spec.Selected(Contents(), hostId, state)
    {
      out := map[];
      var todo := sessions.Keys;
      ghost var want := Spec.Selected(Contents(), hostId, state);
      Spec.DoneEnds(want, todo);
      while todo != {}
        invariant todo <= sessions.Keys
        invariant out == Spec.Done(want, todo)
        decreases todo
      {
        var id :| id in todo;
        Spec.DoneStep(want, todo, id);
        if Spec.Listed(sessions[id], hostId, state) {
          out := out[id := sessions[id]];
        }
        todo := todo - {id};
      }
    }

    method UpsertHost(host: HostRow)
      requires Valid()
      modifies this
      ensures Valid() && Contents() == Spec.UpsertHost(old(Contents()), host)
    {
      var row := host.(revokedAt := None);
      if host.id in hosts {
        row := row.(revokedAt := hosts[host.id].revokedAt);
      }
      hosts := hosts[host.id := row];
    }

    method CreateTicketNonce(hash: NonceHash, row: NonceRow) returns (r: Result<(), Error>)
      requires Valid()
      modifies this
      ensures Valid() && (Contents(), r) == Spec.CreateNonce(old(Contents()), hash, row)
    {
      if hash in nonces {
        return Failure(Invalid);
      }
      nonces := nonces[hash := row];
      return Success(());
    }

    method ConsumeTicketNonce(hash: NonceHash, sid: Id, endpoint: Id, role: Role, revision: int, now: int)
      returns (r: Result<(), Error>)
      requires Valid()
      modifies this
      ensures Valid()
      ensures (Contents(), r) == Spec.ConsumeNonce(old(Contents()), hash, sid, endpoint, role, revision, now)
    {
      if hash in nonces {
        var row := nonces[hash];
        if row.sessionId == sid && row.endpointId == endpoint && row.role == role && row.revision == revision
           && row.consumedAt.None? && row.expiresAt > now
        {
          nonces := nonces[hash := row.(consumedAt := Some(now))];
          return Success(());
        }
      }
      if hash !in nonces {
        return Failure(NotFound);
      }
      if nonces[hash].consumedAt.Some? {
        return Failure(TicketConsumed);
      }
      if nonces[hash].expiresAt <= now {
        return Failure(TicketExpired);
      }
      return Failure(Conflict);
    }

    method DeleteExpiredTicketNonces(now: int)
      requires Valid()
      modifies this
      ensures Valid() && Contents() == Spec.DeleteExpired(old(Contents()), now)
    {
      nonces := map h | h in nonces && nonces[h].expiresAt > now :: nonces[h];
    }
  }
}
