/** Whole runs of hub and manager: connections come and go, switch sessions, reconnect, and the cleanup runs at any time. */
module SessionRuns {
  import opened Basics
  import opened SessionSpec
  import opened SessionHubSpec
  import opened SessionSafety
  import opened SessionRouting

  datatype World = World(h: Hub, m: Manager)

  datatype Step =
    | Opens(c: nat)
    | Joins(c: nat, join: Join, newId: Id, history: bool)
    | Closes(c: nat)
    | Says(c: nat, project: string, body: Id)
    | Finds(newId: Id, project: string)
    | FindsScoped(newId: Id, project: string, scope: string)
    | Cleans

  datatype Event = Event(at: int, step: Step)

  /** Connection objects and generated ids are new; a connection does not join the session it is in; phones talk. */
  predicate Enabled(w: World, e: Event)
  {
    match e.step
    case Opens(c) => c !in w.h.clients
    case Joins(c, join, newId, _) =>
      c in w.h.live && c in w.h.clients && FreshSession(w.h, w.m, newId)
      && w.h.clients[c].sessionId != TargetSession(w.m, join, newId, e.at)
    case Closes(c) => c in w.h.live && c in w.h.clients
    case Says(c, _, _) => c in w.h.live && c in w.h.clients && w.h.clients[c].kind.Phone? && w.h.clients[c].sessionId != NONE
    case Finds(newId, _) => FreshSession(w.h, w.m, newId)
    case FindsScoped(newId, _, _) => FreshSession(w.h, w.m, newId)
    case Cleans => true
  }

  function Do(w: World, e: Event): World
  {
    if !Enabled(w, e) then w
    else
      match e.step
      case Opens(c) => w.(h := Connect(w.h, c))
      case Joins(c, join, newId, history) => var (h, m) := HandleJoin(w.h, w.m, c, join, newId, history, e.at); World(h, m)
      case Closes(c) => var (h, m) := Disconnect(w.h, w.m, c, e.at); World(h, m)
      case Says(c, project, body) => w.(h := HandleSessionMsg(w.h, c, project, body))
      case Finds(newId, project) => w.(m := GetOrCreate(w.m, newId, project, e.at).0)
      case FindsScoped(newId, project, scope) => w.(m := GetOrCreateScoped(w.m, newId, project, scope, e.at).0)
      case Cleans => w.(m := Cleanup(w.m, e.at))
  }

  function Exec(w: World, es: seq<Event>): World
  {
    if es == [] then w else Do(Exec(w, es[..|es| - 1]), es[|es| - 1])
  }

  const INIT := World(Hub(map[], {}, map[], {}, []), Manager(map[], map[], map[]))

  ghost predicate Good(w: World)
  {
    Inv(w.h, w.m) && Indexed(w.m)
  }

  lemma OpensKeeps(h: Hub, m: Manager, c: nat)
    requires Inv(h, m) && c !in h.clients
    ensures Inv(Connect(h, c), m)
  {
    var h' := Connect(h, c);
    forall sid | sid in h'.bySession
      ensures ListOk(h', sid) && MemberIds(h', sid) == MemberIds(h, sid)
    {
      assert ListOk(h, sid);
    }
    forall sid
      ensures MemberIds(h', sid) == MemberIds(h, sid)
    {
    }
  }

  lemma SaysKeeps(h: Hub, m: Manager, c: nat, project: string, body: Id)
    requires Inv(h, m) && c in h.live && h.clients[c].sessionId != NONE
    ensures Inv(HandleSessionMsg(h, c, project, body), m)
  {
    var h' := HandleSessionMsg(h, c, project, body);
    RoutedOnce(h, c, project, body);
    forall d | d in h.clients
      ensures h'.clients[d].(send := h.clients[d].send) == h.clients[d]
    {
      assert h'.clients[d] == Routed(h, c, project, body, d);
    }
    SameMembership(h, m, h');
  }

  lemma FindsKeeps(h: Hub, m: Manager, newId: Id, project: string, now: int)
    requires Inv(h, m) && FreshSession(h, m, newId)
    ensures Inv(h, GetOrCreate(m, newId, project, now).0)
  {
    assert MemberIds(h, newId) == {};
  }

  lemma FindsScopedKeeps(h: Hub, m: Manager, newId: Id, project: string, scope: string, now: int)
    requires Inv(h, m) && FreshSession(h, m, newId)
    ensures Inv(h, GetOrCreateScoped(m, newId, project, scope, now).0)
  {
    assert MemberIds(h, newId) == {};
  }

  lemma HandleJoinIndexed(h: Hub, m: Manager, c: nat, join: Join, newId: Id, history: bool, now: int)
    requires Indexed(m) && c in h.clients && newId !in m.sessions
    ensures Indexed(HandleJoin(h, m, c, join, newId, history, now).1)
  {
    GetOrCreateKeepsIndexed(m, newId, Project(join.project), now);
    var m0 := if join.sessionId != NONE then m else GetOrCreate(m, newId, Project(join.project), now).0;
    var (m1, j) := SetUp(m, join, newId, now);
    JoinKeepsIndexed(m0, j.sessionId, j.clientId, j.kind, now);
    LeaveKeepsIndexed(m1, h.clients[c].sessionId, h.clients[c].clientId, now);
  }

  lemma DoKeepsInv(w: World, e: Event)
    requires Inv(w.h, w.m)
    ensures Inv(Do(w, e).h, Do(w, e).m)
  {
    if Enabled(w, e) {
      match e.step
      case Opens(c) => OpensKeeps(w.h, w.m, c);
      case Joins(c, join, newId, history) => JoinKeeps(w.h, w.m, c, join, newId, history, e.at);
      case Closes(c) => DisconnectKeeps(w.h, w.m, c, e.at);
      case Says(c, project, body) => SaysKeeps(w.h, w.m, c, project, body);
      case Finds(newId, project) => FindsKeeps(w.h, w.m, newId, project, e.at);
      case FindsScoped(newId, project, scope) => FindsScopedKeeps(w.h, w.m, newId, project, scope, e.at);
      case Cleans =>
    }
  }

  lemma DoKeepsIndexed(w: World, e: Event)
    requires Indexed(w.m)
    ensures Indexed(Do(w, e).m)
  {
    if Enabled(w, e) {
      match e.step
      case Joins(c, join, newId, history) => HandleJoinIndexed(w.h, w.m, c, join, newId, history, e.at);
      case Closes(c) => LeaveKeepsIndexed(w.m, w.h.clients[c].sessionId, w.h.clients[c].clientId, e.at);
      case Finds(newId, project) => GetOrCreateKeepsIndexed(w.m, newId, project, e.at);
      case FindsScoped(newId, project, scope) => GetOrCreateScopedKeepsIndexed(w.m, newId, project, scope, e.at);
      case Cleans => PurgeKeepsIndexed(w.m, set id | id in w.m.sessions && Expired(w.m.sessions[id], e.at));
      case _ =>
    }
  }

  lemma DoKeeps(w: World, e: Event)
    requires Good(w)
    ensures Good(Do(w, e))
  {
    DoKeepsInv(w, e);
    DoKeepsIndexed(w, e);
  }

  /** Membership, relay set, buffer bound and index agreement hold in every run. */
  lemma {:induction false} RunsAreGood(es: seq<Event>)
    ensures Good(Exec(INIT, es))
  {
    if es != [] {
      RunsAreGood(es[..|es| - 1]);
      DoKeeps(Exec(INIT, es[..|es| - 1]), es[|es| - 1]);
    }
  }

  /** Cleanup never deletes a session under a connected client, at whatever time it runs. */
  lemma CleanupSparesTheConnected(es: seq<Event>, c: nat, now: int)
    requires var w := Exec(INIT, es);
             c in w.h.live && c in w.h.clients && w.h.clients[c].sessionId in w.m.sessions
    ensures var w := Exec(INIT, es);
            && w.h.clients[c].sessionId in Cleanup(w.m, now).sessions
            && w.h.clients[c].clientId in Cleanup(w.m, now).sessions[w.h.clients[c].sessionId].clients
  {
    RunsAreGood(es);
    SparesTheConnected(Exec(INIT, es), c, now);
  }

  lemma SparesTheConnected(w: World, c: nat, now: int)
    requires Good(w) && c in w.h.live && w.h.clients[c].sessionId in w.m.sessions
    ensures w.h.clients[c].sessionId in Cleanup(w.m, now).sessions
    ensures w.h.clients[c].clientId in Cleanup(w.m, now).sessions[w.h.clients[c].sessionId].clients
  {
    var sid := w.h.clients[c].sessionId;
    assert c in Members(w.h, sid);
    assert w.h.clients[c].clientId in MemberIds(w.h, sid);
    CleanupSparesClients(w.m, sid, now);
  }

  // ---------- work items ----------

  /** Nobody asks for a work item of a project whose name has a NUL in it. */
  predicate AsksPlainly(e: Event)
  {
    e.step.FindsScoped? ==> NUL !in e.step.project
  }

  /** The entries for work items are old ones, and lead to sessions of the projects they led to. */
  predicate SameScopes(m: Manager, m': Manager)
  {
    forall k :: k in m'.scopes && m'.scopes[k] in m'.sessions ==>
      && k in m.scopes && m.scopes[k] == m'.scopes[k] && m.scopes[k] in m.sessions
      && m.sessions[m.scopes[k]].project == m'.sessions[m.scopes[k]].project
  }

  lemma SameScopesThrough(a: Manager, b: Manager, c: Manager)
    requires SameScopes(a, b) && SameScopes(b, c)
    ensures SameScopes(a, c)
  {
  }

  lemma SameScopesPlain(m: Manager, m': Manager)
    requires PlainProjects(m) && SameScopes(m, m')
    ensures PlainProjects(m')
  {
  }

  lemma FindKeepsScopes(m: Manager, newId: Id, project: string, now: int)
    requires Indexed(m) && newId !in m.sessions
    ensures SameScopes(m, GetOrCreate(m, newId, project, now).0)
  {
  }

  lemma EnterKeepsScopes(m: Manager, sid: Id, cid: ClientId, kind: Kind, now: int)
    ensures SameScopes(m, JoinSession(m, sid, cid, kind, now))
  {
  }

  lemma LeaveKeepsScopes(m: Manager, sid: Id, cid: ClientId, now: int)
    ensures SameScopes(m, LeaveSession(m, sid, cid, now))
  {
  }

  lemma SetUpKeepsScopes(m: Manager, join: Join, newId: Id, now: int)
    requires Indexed(m) && newId !in m.sessions
    ensures SameScopes(m, SetUp(m, join, newId, now).0)
  {
    FindKeepsScopes(m, newId, Project(join.project), now);
    var m0 := if join.sessionId != NONE then m else GetOrCreate(m, newId, Project(join.project), now).0;
    var j := SetUp(m, join, newId, now).1;
    EnterKeepsScopes(m0, j.sessionId, j.clientId, j.kind, now);
    SameScopesThrough(m, m0, JoinSession(m0, j.sessionId, j.clientId, j.kind, now));
  }

  lemma JoinKeepsScopes(h: Hub, m: Manager, c: nat, join: Join, newId: Id, history: bool, now: int)
    requires Indexed(m) && c in h.clients && newId !in m.sessions
    ensures SameScopes(m, HandleJoin(h, m, c, join, newId, history, now).1)
  {
    SetUpKeepsScopes(m, join, newId, now);
    var (m1, j) := SetUp(m, join, newId, now);
    LeaveKeepsScopes(m1, h.clients[c].sessionId, h.clients[c].clientId, now);
    SameScopesThrough(m, m1, LeaveSession(m1, h.clients[c].sessionId, h.clients[c].clientId, now));
  }

  lemma DoKeepsPlain(w: World, e: Event)
    requires Indexed(w.m) && PlainProjects(w.m) && AsksPlainly(e)
    ensures PlainProjects(Do(w, e).m)
  {
    if Enabled(w, e) {
      match e.step
      case Joins(c, join, newId, history) =>
        JoinKeepsScopes(w.h, w.m, c, join, newId, history, e.at);
        SameScopesPlain(w.m, Do(w, e).m);
      case FindsScoped(newId, project, scope) => WorkItemsHaveTheirOwnSession(w.m, newId, project, scope, e.at);
      case _ => SameScopesPlain(w.m, Do(w, e).m);
    }
  }

  lemma {:induction false} RunsArePlain(es: seq<Event>)
    requires forall i :: 0 <= i < |es| ==> AsksPlainly(es[i])
    ensures PlainProjects(Exec(INIT, es).m)
  {
    if es != [] {
      var front := es[..|es| - 1];
      RunsArePlain(front);
      RunsAreGood(front);
      DoKeepsPlain(Exec(INIT, front), es[|es| - 1]);
    }
  }

  /**
   * In every run in which project names are free of NUL, a work item gets a session of its own project and scope, and two
   * different work items never share a session, at whatever times they ask.
   */
  lemma WorkItemsNeverShare(es: seq<Event>, newId: Id, project: string, scope: string, now: int,
                            newId': Id, project': string, scope': string, later: int)
    requires forall i :: 0 <= i < |es| ==> AsksPlainly(es[i])
    requires NUL !in project && NUL !in project' && newId !in Exec(INIT, es).m.sessions
    requires newId' !in GetOrCreateScoped(Exec(INIT, es).m, newId, project, scope, now).0.sessions
    ensures var (m1, a) := GetOrCreateScoped(Exec(INIT, es).m, newId, project, scope, now);
            var (m2, b) := GetOrCreateScoped(m1, newId', project', scope', later);
            && a in m1.sessions && m1.sessions[a].project == project && m1.sessions[a].scope == scope
            && b in m2.sessions && m2.sessions[b].project == project' && m2.sessions[b].scope == scope'
            && (a == b <==> project == project' && scope == scope')
  {
    RunsArePlain(es);
    RunsAreGood(es);
    var m := Exec(INIT, es).m;
    var (m1, a) := GetOrCreateScoped(m, newId, project, scope, now);
    WorkItemsHaveTheirOwnSession(m, newId, project, scope, now);
    GetOrCreateScopedKeepsIndexed(m, newId, project, scope, now);
    WorkItemsHaveTheirOwnSession(m1, newId', project', scope', later);
  }
}
