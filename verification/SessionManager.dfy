/** The session manager object with its three maps. */
module SessionManager {
  import opened Basics
  import opened SessionSpec

  class SessionManager {
    var sessions: map<Id, Session>
    var projects: map<string, Id>
    var scopes: map<string, Id>

    ghost function Contents(): Manager
      reads this
    {
      Manager(sessions, projects, scopes)
    }

    constructor ()
      ensures Contents() == Manager(map[], map[], map[])
    {
      sessions, projects, scopes := map[], map[], map[];
    }

    /** createSessionLocked; `newId` is the generated id. */
    method GetOrCreateSession(newId: Id, project: string, now: int) returns (sid: Id)
      modifies this
      ensures (Contents(), sid) == GetOrCreate(old(Contents()), newId, project, now)
    {
      if project in projects {
        sid := projects[project];
        if sid in sessions {
          return;
        }
      }
      sid := newId;
      sessions := sessions[sid := Session(sid, project, "", map[], now, now, None)];
      projects := projects[project := sid];
    }

    method GetOrCreateScopedSession(newId: Id, project: string, scope: string, now: int) returns (sid: Id)
      modifies this
      ensures (Contents(), sid) == GetOrCreateScoped(old(Contents()), newId, project, scope, now)
    {
      var key := ScopedKey(project, scope);
      if key in scopes {
        sid := scopes[key];
        if sid in sessions {
          sessions := sessions[sid := sessions[sid].(lastActivity := now)];
          return;
        }
      }
      sid := newId;
      sessions := sessions[sid := Session(sid, project, scope, map[], now, now, None)];
      scopes := scopes[key := sid];
    }

    method JoinSession(sid: Id, cid: ClientId, kind: Kind, now: int)
      modifies this
      ensures Contents() == SessionSpec.JoinSession(old(Contents()), sid, cid, kind, now)
    {
      if sid !in sessions {
        return;
      }
      var s := sessions[sid];
      s := s.(clients := s.clients[cid := ClientInfo(kind, now)], lastActivity := now, pendingDeleteAt := None);
      sessions := sessions[sid := s];
    }

    method LeaveSession(sid: Id, cid: ClientId, now: int)
      modifies this
      ensures Contents() == SessionSpec.LeaveSession(old(Contents()), sid, cid, now)
    {
      if sid !in sessions {
        return;
      }
      var s := sessions[sid];
      s := s.(clients := s.clients - {cid}, lastActivity := now);
      if |s.clients| == 0 {
        assert s.clients == map[];
        if s.scope != "" {
          s := s.(pendingDeleteAt := None);
        } else {
          s := s.(pendingDeleteAt := Some(now + DELETE_DELAY));
        }
      }
      sessions := sessions[sid := s];
    }

    /** Delete every entry that leads to a session. */
    method RemoveSessionMappings(sid: Id)
      modifies `projects, `scopes
      ensures projects == map p | p in old(projects) && old(projects)[p] != sid :: old(projects)[p]
      ensures scopes == map k | k in old(scopes) && old(scopes)[k] != sid :: old(scopes)[k]
    {
      var todo := projects.Keys;
      while todo != {}
        invariant scopes == old(scopes)
        invariant projects == map p | p in old(projects) && (p in todo || old(projects)[p] != sid) :: old(projects)[p]
        decreases todo
      {
        var p :| p in todo;
        if p in projects && projects[p] == sid {
          projects := projects - {p};
        }
        todo := todo - {p};
      }
      todo := scopes.Keys;
      while todo != {}
        invariant projects == map p | p in old(projects) && old(projects)[p] != sid :: old(projects)[p]
        invariant scopes == map k | k in old(scopes) && (k in todo || old(scopes)[k] != sid) :: old(scopes)[k]
        decreases todo
      {
        var k :| k in todo;
        if k in scopes && scopes[k] == sid {
          scopes := scopes - {k};
        }
        todo := todo - {k};
      }
    }

    method RemoveSession(sid: Id)
      modifies this
      ensures Contents() == if sid in old(sessions) then Purge(old(Contents()), {sid}) else old(Contents())
    {
      if sid in sessions {
        sessions := sessions - {sid};
        RemoveSessionMappings(sid);
      }
    }

    /** The body of the cleanup loop for a session without clients. */
    method Overdue(s: Session, now: int) returns (r: bool)
      ensures r == Expired(s, now)
    {
      if |s.clients| == 0 {
        assert s.clients == map[];
        if s.scope != "" {
          return now - s.lastActivity > SCOPED_STALE;
        }
        if s.pendingDeleteAt.Some? && now > s.pendingDeleteAt.value {
          return true;
        }
        return now - s.lastActivity > STALE;
      }
      return false;
    }

    method Cleanup(now: int)
      modifies this
      ensures Contents() == SessionSpec.Cleanup(old(Contents()), now)
    {
      ghost var before := Contents();
      ghost var gone: set<Id> := {};
      var todo := sessions.Keys;
      PurgeNothing(before, gone);
      while todo != {}
        invariant todo <= before.sessions.Keys
        invariant gone == set id | id in before.sessions && id !in todo && Expired(before.sessions[id], now)
        invariant Contents() == Purge(before, gone)
        decreases todo
      {
        var id :| id in todo;
        PurgeOneMore(before, gone, id);
        var expired := Overdue(sessions[id], now);
        todo := todo - {id};
        if expired {
          gone := gone + {id};
          RemoveSession(id);
        }
      }
    }
  }

  lemma PurgeNothing(m: Manager, ids: set<Id>)
    requires ids == {}
    ensures Purge(m, ids) == m
  {
  }

  lemma PurgeOneMore(m: Manager, ids: set<Id>, id: Id)
    ensures Purge(Purge(m, ids), {id}) == Purge(m, ids + {id})
  {
  }
}
