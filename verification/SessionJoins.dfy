/** What a join does to the session, to the connection and to everybody else, and how long an abandoned session stays. */
module SessionJoins {
  import opened Basics
  import opened SessionSpec
  import opened SessionHubSpec
  import opened SessionSafety
  import opened SessionRouting

  /**
   * A join without a session id means the session of its project, "serein" by default, found or made; one with a session
   * id means that session. If it exists the client is entered and the deletion called off, and nothing else changes.
   */
  lemma JoinFindsItsSession(m: Manager, join: Join, newId: Id, now: int)
    requires Indexed(m) && newId !in m.sessions
    ensures var (m', j) := SetUp(m, join, newId, now);
            var p := if join.project == "" then "serein" else join.project;
            && j.clientId == join.clientId && j.kind == join.kind
            && (join.sessionId != NONE ==> j == join && m'.sessions.Keys == m.sessions.Keys)
            && (join.sessionId == NONE ==>
                  && j.project == p && j.sessionId == (if p in m.projects then m.projects[p] else newId)
                  && j.sessionId in m'.sessions && m'.sessions[j.sessionId].project == p && m'.sessions[j.sessionId].scope == "")
    ensures var (m', j) := SetUp(m, join, newId, now);
            && (j.sessionId in m'.sessions ==>
                  var s := m'.sessions[j.sessionId];
                  && s.lastActivity == now && s.pendingDeleteAt.None?
                  && s.clients == (if j.sessionId in m.sessions then m.sessions[j.sessionId].clients else map[])
                                  [join.clientId := ClientInfo(join.kind, now)])
            && (forall sid :: sid in m.sessions && sid != j.sessionId ==> sid in m'.sessions && m'.sessions[sid] == m.sessions[sid])
  {
  }

  lemma {:induction false} OfferManyToOne(clients: map<nat, Client>, c: nat, msgs: seq<Message>)
    ensures var after := OfferMany(clients, c, msgs);
            && after.Keys == clients.Keys && (forall d :: d in clients && d != c ==> after[d] == clients[d])
            && (c in clients ==> after[c].(send := []) == clients[c].(send := []))
  {
    if msgs != [] {
      OfferManyToOne(clients, c, msgs[..|msgs| - 1]);
    }
  }

  /** After a join the connection is what the join said, a relay exactly when a terminal calls itself one, and the others are as before. */
  lemma JoinedAs(h: Hub, m: Manager, c: nat, join: Join, newId: Id, history: bool, now: int)
    requires c in h.clients
    ensures var j := SetUp(m, join, newId, now).1;
            var h' := HandleJoin(h, m, c, join, newId, history, now).0;
            && c in h'.clients
            && h'.clients[c].(send := []) ==
               Client(j.sessionId, join.clientId, join.kind, join.kind.Terminal? && join.clientId.relay, j.project, [])
            && h'.clients.Keys == h.clients.Keys && (forall d :: d in h.clients && d != c ==> h'.clients[d] == h.clients[d])
            && h'.live == h.live
  {
    var (m1, j) := SetUp(m, join, newId, now);
    var (h1, m2, flush) := Register(h, m1, c, j, now);
    var first := [JoinAck(j.clientId, j.sessionId)] + (if history then [History(j.sessionId)] else []);
    OfferManyToOne(h1.clients, c, first + flush);
  }

  /** A connection that joins for the first time and is no relay gets the acknowledgement and the history, and the buffer stays. */
  lemma NewcomerIsAnswered(h: Hub, m: Manager, c: nat, join: Join, newId: Id, history: bool, now: int)
    requires c in h.clients && h.clients[c] == UNJOINED && !(join.kind.Terminal? && join.clientId.relay)
    ensures var j := SetUp(m, join, newId, now).1;
            var h' := HandleJoin(h, m, c, join, newId, history, now).0;
            && c in h'.clients && h'.pending == h.pending
            && h'.clients[c].send == [JoinAck(join.clientId, j.sessionId)] + (if history then [History(j.sessionId)] else [])
  {
    var (m1, j) := SetUp(m, join, newId, now);
    var (h1, _, flush) := Register(h, m1, c, j, now);
    var first := [JoinAck(j.clientId, j.sessionId)] + (if history then [History(j.sessionId)] else []);
    OfferManyFacts(h1.clients, c, first + flush);
    assert [] + (first + flush) == first && first + [] == first;
  }

  // ---------- how long a session stays ----------

  /** A session whose last client leaves at time `t` stays 30 seconds, one of a work item seven days. */
  lemma AbandonedSessionsGo(m: Manager, sid: Id, cid: ClientId, t: int, now: int)
    requires sid in m.sessions && m.sessions[sid].clients.Keys <= {cid} && t <= now
    ensures sid in Cleanup(LeaveSession(m, sid, cid, t), now).sessions <==>
            now - t <= if m.sessions[sid].scope != "" then 7 * 24 * HOUR else 30 * SECOND
  {
    assert m.sessions[sid].clients - {cid} == map[];
  }

  /** A client that leaves takes only itself along. */
  lemma OthersStay(m: Manager, sid: Id, cid: ClientId, t: int)
    requires sid in m.sessions
    ensures var m' := LeaveSession(m, sid, cid, t);
            && m'.projects == m.projects && m'.scopes == m.scopes && m'.sessions.Keys == m.sessions.Keys
            && m'.sessions[sid].clients == m.sessions[sid].clients - {cid} && m'.sessions[sid].lastActivity == t
            && (m.sessions[sid].clients - {cid} != map[] ==> m'.sessions[sid].pendingDeleteAt == m.sessions[sid].pendingDeleteAt)
            && (m.sessions[sid].clients - {cid} == map[] ==>
                  m'.sessions[sid].pendingDeleteAt == if m.sessions[sid].scope == "" then Some(t + 30 * SECOND) else None)
            && (forall other :: other in m.sessions && other != sid ==> m'.sessions[other] == m.sessions[other])
  {
  }

  /** A session nobody ever joined stays half an hour after it was made, one of a work item seven days after it was last asked for. */
  lemma UnusedSessionsGo(m: Manager, newId: Id, project: string, scope: string, t: int, now: int)
    requires Indexed(m) && newId !in m.sessions && t <= now
    ensures var (m', sid) := GetOrCreate(m, newId, project, t);
            project !in m.projects ==> (sid in Cleanup(m', now).sessions <==> now - t <= 30 * MINUTE)
    ensures var (m', sid) := GetOrCreateScoped(m, newId, project, scope, t);
            sid in m'.sessions && m'.sessions[sid].clients == map[] && m'.sessions[sid].scope != "" ==>
              (sid in Cleanup(m', now).sessions <==> now - t <= 7 * 24 * HOUR)
  {
  }

  /** Cleanup leaves what stays as it is. */
  lemma CleanupChangesNothingElse(m: Manager, now: int, sid: Id)
    requires Indexed(m) && sid in Cleanup(m, now).sessions
    ensures sid in m.sessions && Cleanup(m, now).sessions[sid] == m.sessions[sid]
    ensures var s, m' := m.sessions[sid], Cleanup(m, now);
            (ReachedByProject(m, s) <==> ReachedByProject(m', s)) && (ReachedByScope(m, s) <==> ReachedByScope(m', s))
  {
  }
}
