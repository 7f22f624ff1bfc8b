/** The session manager: live sessions, and the entries that lead to them, as functions of its three maps. */
module SessionSpec {
  import opened Basics

  /** The identifier a client chose; `relay` tells whether it starts with "relay-". */
  datatype ClientId = ClientId(name: Id, relay: bool)

  datatype Kind = NoKind | Terminal | Phone | Agent

  datatype ClientInfo = ClientInfo(kind: Kind, joinedAt: int)

  /** `pendingDeleteAt` is None for the zero time of the program. */
  datatype Session = Session(id: Id, project: string, scope: string, clients: map<ClientId, ClientInfo>,
                             createdAt: int, lastActivity: int, pendingDeleteAt: Option<int>)

  datatype Manager = Manager(sessions: map<Id, Session>, projects: map<string, Id>, scopes: map<string, Id>)

  const STALE := 30 * MINUTE
  const SCOPED_STALE := 7 * 24 * HOUR
  const DELETE_DELAY := 30 * SECOND

  const NUL := '\0'

  function ScopedKey(project: string, scope: string): string
  {
    project + [NUL] + scope
  }

  /** Find or create the session of a project; `newId` is the generated id. */
  function GetOrCreate(m: Manager, newId: Id, project: string, now: int): (Manager, Id)
  {
    if project in m.projects && m.projects[project] in m.sessions then (m, m.projects[project])
    else
      (m.(sessions := m.sessions[newId := Session(newId, project, "", map[], now, now, None)],
       projects := m.projects[project := newId]), newId)
  }

  function GetOrCreateScoped(m: Manager, newId: Id, project: string, scope: string, now: int): (Manager, Id)
  {
    var key := ScopedKey(project, scope);
    if key in m.scopes && m.scopes[key] in m.sessions then
      var sid := m.scopes[key];
      (m.(sessions := m.sessions[sid := m.sessions[sid].(lastActivity := now)]), sid)
    else
      (m.(sessions := m.sessions[newId := Session(newId, project, scope, map[], now, now, None)],
       scopes := m.scopes[key := newId]), newId)
  }

  function Joined(s: Session, cid: ClientId, kind: Kind, now: int): Session
  {
    s.(clients := s.clients[cid := ClientInfo(kind, now)], lastActivity := now, pendingDeleteAt := None)
  }

  function JoinSession(m: Manager, sid: Id, cid: ClientId, kind: Kind, now: int): Manager
  {
    if sid in m.sessions then m.(sessions := m.sessions[sid := Joined(m.sessions[sid], cid, kind, now)]) else m
  }

  /** The last client to leave an unscoped session starts its 30-second window. */
  function Left(s: Session, cid: ClientId, now: int): Session
  {
    var rest := s.clients - {cid};
    s.(clients := rest, lastActivity := now,
    pendingDeleteAt := if rest != map[] then s.pendingDeleteAt else if s.scope != "" then None else Some(now + DELETE_DELAY))
  }

  function LeaveSession(m: Manager, sid: Id, cid: ClientId, now: int): Manager
  {
    if sid in m.sessions then m.(sessions := m.sessions[sid := Left(m.sessions[sid], cid, now)]) else m
  }

  /** What cleanup removes. */
  predicate Expired(s: Session, now: int)
  {
    && s.clients == map[]
    && if s.scope != "" then now - s.lastActivity > SCOPED_STALE
       else (s.pendingDeleteAt.Some? && now > s.pendingDeleteAt.value) || now - s.lastActivity > STALE
  }

  /** Delete sessions together with every entry that leads to them. */
  function Purge(m: Manager, ids: set<Id>): Manager
  {
    Manager(m.sessions - ids,
            map p | p in m.projects && m.projects[p] !in ids :: m.projects[p],
            map k | k in m.scopes && m.scopes[k] !in ids :: m.scopes[k])
  }

  function Cleanup(m: Manager, now: int): Manager
  {
    Purge(m, set id | id in m.sessions && Expired(m.sessions[id], now))
  }

  // ---------- index agreement ----------

  predicate ReachedByProject(m: Manager, s: Session)
  {
    s.project in m.projects && m.projects[s.project] == s.id
  }

  predicate ReachedByScope(m: Manager, s: Session)
  {
    ScopedKey(s.project, s.scope) in m.scopes && m.scopes[ScopedKey(s.project, s.scope)] == s.id
  }

  /** Every entry leads to a live session of its own project and scope; every live session has exactly one entry. */
  predicate Indexed(m: Manager)
  {
    && (forall p :: p in m.projects ==>
          m.projects[p] in m.sessions && m.sessions[m.projects[p]].project == p && m.sessions[m.projects[p]].scope == "")
    && (forall k :: k in m.scopes ==>
          m.scopes[k] in m.sessions && k == ScopedKey(m.sessions[m.scopes[k]].project, m.sessions[m.scopes[k]].scope))
    && (forall id :: id in m.sessions ==>
          m.sessions[id].id == id && (ReachedByProject(m, m.sessions[id]) <==> !ReachedByScope(m, m.sessions[id])))
  }

  lemma GetOrCreateKeepsIndexed(m: Manager, newId: Id, project: string, now: int)
    requires Indexed(m) && newId !in m.sessions
    ensures Indexed(GetOrCreate(m, newId, project, now).0)
  {
  }

  /** A session may change as long as it keeps its id, project and scope. */
  lemma UpdateKeepsIndexed(m: Manager, sid: Id, s: Session)
    requires Indexed(m) && sid in m.sessions
    requires s.id == sid && s.project == m.sessions[sid].project && s.scope == m.sessions[sid].scope
    ensures Indexed(m.(sessions := m.sessions[sid := s]))
  {
  }

  lemma NewScopeKeepsIndexed(m: Manager, s: Session)
    requires Indexed(m) && s.id !in m.sessions && ScopedKey(s.project, s.scope) !in m.scopes
    ensures Indexed(m.(sessions := m.sessions[s.id := s], scopes := m.scopes[ScopedKey(s.project, s.scope) := s.id]))
  {
  }

  lemma GetOrCreateScopedKeepsIndexed(m: Manager, newId: Id, project: string, scope: string, now: int)
    requires Indexed(m) && newId !in m.sessions
    ensures Indexed(GetOrCreateScoped(m, newId, project, scope, now).0)
  {
    var key := ScopedKey(project, scope);
    if key in m.scopes {
      UpdateKeepsIndexed(m, m.scopes[key], m.sessions[m.scopes[key]].(lastActivity := now));
    } else {
      NewScopeKeepsIndexed(m, Session(newId, project, scope, map[], now, now, None));
    }
  }

  lemma JoinKeepsIndexed(m: Manager, sid: Id, cid: ClientId, kind: Kind, now: int)
    requires Indexed(m)
    ensures Indexed(JoinSession(m, sid, cid, kind, now))
  {
    if sid in m.sessions {
      UpdateKeepsIndexed(m, sid, Joined(m.sessions[sid], cid, kind, now));
    }
  }

  lemma LeaveKeepsIndexed(m: Manager, sid: Id, cid: ClientId, now: int)
    requires Indexed(m)
    ensures Indexed(LeaveSession(m, sid, cid, now))
  {
    if sid in m.sessions {
      UpdateKeepsIndexed(m, sid, Left(m.sessions[sid], cid, now));
    }
  }

  lemma PurgeKeepsIndexed(m: Manager, ids: set<Id>)
    requires Indexed(m)
    ensures Indexed(Purge(m, ids))
  {
  }

  // ---------- keys ----------

  /** The first NUL of a key ends the project name. */
  lemma FirstNul(p: string, s: string, i: nat)
    requires NUL !in p && i < |ScopedKey(p, s)| && ScopedKey(p, s)[i] == NUL
    ensures |p| <= i
  {
  }

  /** Project names without NUL make the keys unambiguous. */
  lemma KeyInjective(p: string, s: string, q: string, t: string)
    requires NUL !in p && NUL !in q && ScopedKey(p, s) == ScopedKey(q, t)
    ensures p == q && s == t
  {
    var k := ScopedKey(p, s);
    FirstNul(p, s, |q|);
    FirstNul(q, t, |p|);
    assert k[..|p|] == p && k[..|q|] == q && k[|p| + 1..] == s && k[|q| + 1..] == t;
  }

  /** With NUL in a project name two work items do get the same key. */
  lemma KeysCollide(a: string, b: string, c: string)
    ensures ScopedKey(a + [NUL] + b, c) == ScopedKey(a, b + [NUL] + c)
  {
    assert a + [NUL] + b + [NUL] + c == a + [NUL] + (b + [NUL] + c);
  }

  /** The scoped sessions that entries lead to have project names without NUL. */
  predicate PlainProjects(m: Manager)
  {
    forall k :: k in m.scopes && m.scopes[k] in m.sessions ==> NUL !in m.sessions[m.scopes[k]].project
  }

  /** A work item gets a session of its own project and scope. */
  lemma WorkItemsHaveTheirOwnSession(m: Manager, newId: Id, project: string, scope: string, now: int)
    requires Indexed(m) && newId !in m.sessions && NUL !in project && PlainProjects(m)
    ensures PlainProjects(GetOrCreateScoped(m, newId, project, scope, now).0)
    ensures var (m', sid) := GetOrCreateScoped(m, newId, project, scope, now);
            sid in m'.sessions && m'.sessions[sid].project == project && m'.sessions[sid].scope == scope
  {
    var key := ScopedKey(project, scope);
    if key in m.scopes {
      var s := m.sessions[m.scopes[key]];
      KeyInjective(project, scope, s.project, s.scope);
    }
  }

  lemma ProjectsHaveTheirOwnSession(m: Manager, newId: Id, project: string, now: int)
    requires Indexed(m) && newId !in m.sessions
    ensures var (m', sid) := GetOrCreate(m, newId, project, now);
            sid in m'.sessions && m'.sessions[sid].project == project && m'.sessions[sid].scope == ""
            && forall other: Id, later: int :: GetOrCreate(m', other, project, later) == (m', sid)
  {
  }

  // ---------- the deletion window ----------

  datatype Op =
    | Find(newId: Id, project: string)
    | FindScoped(newId: Id, project: string, scope: string)
    | Enter(sid: Id, cid: ClientId, kind: Kind)
    | Exit(sid: Id, cid: ClientId)
    | Clean

  function Apply(m: Manager, op: Op, now: int): Manager
  {
    match op
    case Find(newId, project) => GetOrCreate(m, newId, project, now).0
    case FindScoped(newId, project, scope) => GetOrCreateScoped(m, newId, project, scope, now).0
    case Enter(sid, cid, kind) => JoinSession(m, sid, cid, kind, now)
    case Exit(sid, cid) => LeaveSession(m, sid, cid, now)
    case Clean => Cleanup(m, now)
  }

  /** Generated ids are fresh. */
  predicate FreshId(m: Manager, op: Op)
  {
    (op.Find? || op.FindScoped? ==> op.newId !in m.sessions)
  }

  /** Session `sid` was active at time `t` or later and no deletion is due within the window that starts at `t`. */
  predicate InWindow(m: Manager, sid: Id, t: int)
  {
    && sid in m.sessions
    && m.sessions[sid].lastActivity >= t
    && (m.sessions[sid].pendingDeleteAt.Some? ==> m.sessions[sid].pendingDeleteAt.value >= t + DELETE_DELAY)
  }

  /** No operation in the 30 seconds after a session was left can make it disappear. */
  lemma WindowSpares(m: Manager, op: Op, sid: Id, t: int, now: int)
    requires InWindow(m, sid, t) && FreshId(m, op) && t <= now <= t + DELETE_DELAY
    ensures InWindow(Apply(m, op, now), sid, t)
  {
  }

  datatype Timed = Timed(at: int, op: Op)

  function ApplyAll(m: Manager, ops: seq<Timed>): Manager
  {
    if ops == [] then m else Apply(ApplyAll(m, ops[..|ops| - 1]), ops[|ops| - 1].op, ops[|ops| - 1].at)
  }

  /** Whatever happens within 30 seconds after its last client left, the session is still there to come back to. */
  lemma {:induction false} LeftSessionsSurviveTheWindow(m: Manager, sid: Id, cid: ClientId, t: int, ops: seq<Timed>)
    requires sid in m.sessions && m.sessions[sid].clients.Keys <= {cid}
    requires forall i :: 0 <= i < |ops| ==>
               t <= ops[i].at <= t + DELETE_DELAY && FreshId(ApplyAll(LeaveSession(m, sid, cid, t), ops[..i]), ops[i].op)
    ensures InWindow(ApplyAll(LeaveSession(m, sid, cid, t), ops), sid, t)
  {
    if ops != [] {
      var front := ops[..|ops| - 1];
      forall i | 0 <= i < |front|
        ensures front[i] == ops[i] && front[..i] == ops[..i]
      {
      }
      LeftSessionsSurviveTheWindow(m, sid, cid, t, front);
      WindowSpares(ApplyAll(LeaveSession(m, sid, cid, t), front), ops[|ops| - 1].op, sid, t, ops[|ops| - 1].at);
    }
  }

  /** Cleanup never removes a session that has a client. */
  lemma CleanupSparesClients(m: Manager, sid: Id, now: int)
    requires sid in m.sessions && m.sessions[sid].clients != map[]
    ensures sid in Cleanup(m, now).sessions && Cleanup(m, now).sessions[sid] == m.sessions[sid]
  {
  }
}
