/** Hub and manager agree on who is in which session, through every join, reconnection, leave and cleanup. */
module SessionSafety {
  import opened Basics
  import opened SessionSpec
  import opened SessionHubSpec

  predicate Distinct(s: seq<nat>)
  {
    forall i, j :: 0 <= i < j < |s| ==> s[i] != s[j]
  }

  /** A list holds open connections that say they are in this session, each once. */
  predicate ListOk(h: Hub, sid: Id)
    requires sid in h.bySession
  {
    var list := h.bySession[sid];
    && list != []
    && Distinct(list)
    && forall i :: 0 <= i < |list| ==>
                     list[i] in h.live && list[i] in h.clients && h.clients[list[i]].sessionId == sid
  }

  predicate Lists(h: Hub)
  {
    && NONE !in h.bySession
    && (forall sid :: sid in h.bySession ==> ListOk(h, sid))
    && (forall c :: c in h.live ==>
          c in h.clients && (h.clients[c].sessionId != NONE ==> c in Members(h, h.clients[c].sessionId)))
  }

  /** The relay set is exactly the open connections that joined as relays. */
  ghost predicate RelaysOk(h: Hub)
  {
    forall c :: c in h.relays <==> c in h.live && c in h.clients && h.clients[c].relay && h.clients[c].sessionId != NONE
  }

  function MemberIds(h: Hub, sid: Id): set<ClientId>
  {
    set c | c in Members(h, sid) && c in h.clients :: h.clients[c].clientId
  }

  /** For every session the manager holds, its clients are the client ids of the connections listed under it. */
  predicate Agree(h: Hub, m: Manager)
  {
    forall sid :: sid in m.sessions ==> m.sessions[sid].id == sid && m.sessions[sid].clients.Keys == MemberIds(h, sid)
  }

  ghost predicate Inv(h: Hub, m: Manager)
  {
    Lists(h) && RelaysOk(h) && Agree(h, m) && NONE !in m.sessions && |h.pending| <= PENDING_MAX
  }

  // ---------- lists ----------

  lemma {:induction false} WithoutDistinct(s: seq<nat>, x: nat)
    requires Distinct(s)
    ensures Distinct(Without(s, x)) && forall y :: y in Without(s, x) <==> y in s && y != x
  {
    if s != [] {
      assert s == [s[0]] + s[1..];
      if s[0] != x {
        WithoutDistinct(s[1..], x);
        var rest := Without(s[1..], x);
        forall i | 0 <= i < |rest|
          ensures rest[i] != s[0]
        {
          assert rest[i] in s[1..];
        }
      }
    }
  }

  lemma MembersWithout(h: Hub, c: nat)
    requires Lists(h) && c in h.live && h.clients[c].sessionId != NONE
    ensures var sid := h.clients[c].sessionId;
            var list := Without(Members(h, sid), c);
            && Distinct(list) && (forall d :: d in list <==> d in Members(h, sid) && d != c)
  {
    WithoutDistinct(Members(h, h.clients[c].sessionId), c);
  }

  lemma RemoveKeepsLists(h: Hub, m: Manager, c: nat, now: int)
    requires Lists(h) && RelaysOk(h) && c in h.live && h.clients[c].sessionId != NONE
    ensures var sid := h.clients[c].sessionId;
            var h' := RemoveFromSession(h, m, c, now).0;
            && NONE !in h'.bySession && (forall s :: s in h'.bySession ==> ListOk(h', s))
            && (forall s :: Members(h', s) == if s == sid then Without(Members(h, sid), c) else Members(h, s))
            && (forall d :: d in Members(h', sid) <==> d in Members(h, sid) && d != c)
  {
    MembersWithout(h, c);
    var sid := h.clients[c].sessionId;
    var h' := RemoveFromSession(h, m, c, now).0;
    if sid in h'.bySession {
      var list := h'.bySession[sid];
      forall i | 0 <= i < |list|
        ensures list[i] in h.live && list[i] in h.clients && h.clients[list[i]].sessionId == sid
      {
        assert list[i] in Members(h, sid);
      }
    }
  }

  /** Taking a connection out of its list takes its client id out unless another connection has the same one. */
  lemma IdsWithout(h: Hub, m: Manager, c: nat, now: int, sid: Id)
    requires Lists(h) && RelaysOk(h) && c in h.live && h.clients[c].sessionId != NONE
    ensures var h' := RemoveFromSession(h, m, c, now).0;
            MemberIds(h', sid) ==
            if sid == h.clients[c].sessionId && !Replaced(h, c) then MemberIds(h, sid) - {h.clients[c].clientId} else MemberIds(h, sid)
  {
    RemoveKeepsLists(h, m, c, now);
    var h' := RemoveFromSession(h, m, c, now).0;
    var cid := h.clients[c].clientId;
    if sid == h.clients[c].sessionId {
      var list := Members(h, sid);
      if Replaced(h, c) {
        var i :| 0 <= i < |list| && list[i] != c && list[i] in h.clients && h.clients[list[i]].clientId == cid;
        assert list[i] in Members(h', sid);
        forall id
          ensures id in MemberIds(h', sid) <==> id in MemberIds(h, sid)
        {
        }
      } else {
        forall id
          ensures id in MemberIds(h', sid) <==> id in MemberIds(h, sid) && id != cid
        {
        }
      }
    }
  }

  /** What one session's client table looks like: the listed ids, and `extra` ones that are about to be listed. */
  predicate AgreeAt(h: Hub, m: Manager, sid: Id, extra: set<ClientId>)
  {
    sid in m.sessions ==> m.sessions[sid].id == sid && m.sessions[sid].clients.Keys == MemberIds(h, sid) + extra
  }

  lemma RemoveAgreesAt(h: Hub, m: Manager, c: nat, now: int, sid: Id, extra: set<ClientId>)
    requires Lists(h) && RelaysOk(h) && c in h.live && h.clients[c].sessionId != NONE
    requires AgreeAt(h, m, sid, extra) && (sid == h.clients[c].sessionId ==> extra == {})
    ensures var (h', m') := RemoveFromSession(h, m, c, now); AgreeAt(h', m', sid, extra)
  {
    IdsWithout(h, m, c, now, sid);
  }

  /** Leaving, also when the same client has already reconnected: the agreement holds afterwards. */
  lemma DisconnectAgrees(h: Hub, m: Manager, c: nat, now: int)
    requires Lists(h) && RelaysOk(h) && Agree(h, m) && c in h.live && h.clients[c].sessionId != NONE
    ensures var (h', m') := RemoveFromSession(h, m, c, now); Agree(h'.(live := h.live - {c}), m')
  {
    var (h1, m1) := RemoveFromSession(h, m, c, now);
    forall sid | sid in m1.sessions
      ensures m1.sessions[sid].id == sid && m1.sessions[sid].clients.Keys == MemberIds(h1.(live := h.live - {c}), sid)
    {
      RemoveAgreesAt(h, m, c, now, sid, {});
      assert MemberIds(h1.(live := h.live - {c}), sid) == MemberIds(h1, sid);
    }
  }

  lemma DisconnectKeeps(h: Hub, m: Manager, c: nat, now: int)
    requires Inv(h, m) && c in h.live
    ensures var (h', m') := Disconnect(h, m, c, now); Inv(h', m')
  {
    if h.clients[c].sessionId != NONE {
      RemoveKeepsLists(h, m, c, now);
      var h1 := RemoveFromSession(h, m, c, now).0;
      assert Disconnect(h, m, c, now) == (h1.(live := h.live - {c}), RemoveFromSession(h, m, c, now).1);
      DisconnectAgrees(h, m, c, now);
      DisconnectLists(h, h1.(live := h.live - {c}), c);
    }
  }

  lemma DisconnectLists(h: Hub, h': Hub, c: nat)
    requires Lists(h) && c in h.live && h.clients[c].sessionId != NONE
    requires h'.live == h.live - {c} && h'.clients == h.clients && NONE !in h'.bySession
    requires forall s :: s in h'.bySession ==> h'.bySession[s] != [] && Distinct(h'.bySession[s])
    requires forall s :: Members(h', s) == if s == h.clients[c].sessionId then Without(Members(h, s), c) else Members(h, s)
    ensures Lists(h')
  {
    var sid := h.clients[c].sessionId;
    MembersWithout(h, c);
    forall s | s in h'.bySession
      ensures ListOk(h', s)
    {
      var list := h'.bySession[s];
      forall i | 0 <= i < |list|
        ensures list[i] in h'.live && list[i] in h'.clients && h'.clients[list[i]].sessionId == s
      {
        assert list[i] in Members(h', s);
        assert list[i] in Members(h, s);
      }
    }
  }

  // ---------- joining ----------

  /** Everything is in order except that connection `c`, still open, is in no list yet. */
  ghost predicate Unlisted(h: Hub, c: nat)
  {
    && c in h.live && c in h.clients && NONE !in h.bySession
    && (forall sid :: sid in h.bySession ==> ListOk(h, sid) && c !in h.bySession[sid])
    && (forall d :: d in h.live && d != c ==>
          d in h.clients && (h.clients[d].sessionId != NONE ==> d in Members(h, h.clients[d].sessionId)))
    && c !in h.relays
    && (forall d :: d != c ==> (d in h.relays <==> d in h.live && d in h.clients && h.clients[d].relay && h.clients[d].sessionId != NONE))
  }

  /** The hub after connection `c` is entered under the join's session. */
  function Enrolled(h: Hub, c: nat, join: Join): Hub
    requires c in h.clients
  {
    h.(clients := h.clients[c := h.clients[c].(sessionId := join.sessionId, clientId := join.clientId, kind := join.kind,
                                               project := join.project, relay := IsRelay(join))],
    relays := if IsRelay(join) then h.relays + {c} else h.relays,
    bySession := h.bySession[join.sessionId := Members(h, join.sessionId) + [c]])
  }

  lemma NewcomersAreUnlisted(h: Hub, c: nat)
    requires Lists(h) && RelaysOk(h) && c in h.live && h.clients[c].sessionId == NONE
    ensures Unlisted(h, c)
  {
  }

  lemma SwitchersAreUnlisted(h: Hub, m: Manager, c: nat, now: int)
    requires Lists(h) && RelaysOk(h) && c in h.live && h.clients[c].sessionId != NONE
    ensures Unlisted(RemoveFromSession(h, m, c, now).0, c)
  {
    RemoveKeepsLists(h, m, c, now);
    var h' := RemoveFromSession(h, m, c, now).0;
    forall sid | sid in h'.bySession
      ensures c !in h'.bySession[sid]
    {
      if sid != h.clients[c].sessionId {
        assert h'.bySession[sid] == h.bySession[sid] && ListOk(h, sid);
      }
    }
  }

  lemma EnrolledLists(h: Hub, c: nat, join: Join)
    requires Unlisted(h, c) && join.sessionId != NONE
    ensures Lists(Enrolled(h, c, join)) && RelaysOk(Enrolled(h, c, join))
  {
    var h' := Enrolled(h, c, join);
    forall sid | sid in h'.bySession
      ensures ListOk(h', sid)
    {
      if sid != join.sessionId || sid in h.bySession {
        assert ListOk(h, sid);
      }
    }
    forall d | d in h'.live && h'.clients[d].sessionId != NONE
      ensures d in Members(h', h'.clients[d].sessionId)
    {
      if d == c {
        assert h'.bySession[join.sessionId][|Members(h, join.sessionId)|] == c;
      } else {
        var sid := h.clients[d].sessionId;
        assert d in Members(h, sid);
        var i :| 0 <= i < |Members(h, sid)| && Members(h, sid)[i] == d;
        assert Members(h', sid)[i] == d;
      }
    }
  }

  lemma EnrolledIds(h: Hub, c: nat, join: Join, sid: Id)
    requires Unlisted(h, c) && join.sessionId != NONE
    ensures MemberIds(Enrolled(h, c, join), sid) == if sid == join.sessionId then MemberIds(h, sid) + {join.clientId} else MemberIds(h, sid)
  {
    var h' := Enrolled(h, c, join);
    forall d
      ensures d in Members(h', sid) <==> d in Members(h, sid) || (d == c && sid == join.sessionId)
    {
      if sid == join.sessionId {
        assert Members(h', sid)[|Members(h, sid)|] == c;
      }
    }
    assert c !in Members(h, sid);
    forall id
      ensures id in MemberIds(h', sid) <==> id in MemberIds(h, sid) || (id == join.clientId && sid == join.sessionId)
    {
      if id in MemberIds(h, sid) {
        var d :| d in Members(h, sid) && d in h.clients && h.clients[d].clientId == id;
        assert d in Members(h', sid) && h'.clients[d].clientId == id;
      }
      if id == join.clientId && sid == join.sessionId {
        assert c in Members(h', sid) && h'.clients[c].clientId == id;
      }
    }
  }

  /** A generated id is new to both sides. */
  predicate FreshSession(h: Hub, m: Manager, newId: Id)
  {
    newId != NONE && newId !in m.sessions && newId !in h.bySession
  }

  /** SetUp leaves every session as it was, except that the joined one, if it exists, gains the client. */
  lemma SetUpAgrees(h: Hub, m: Manager, join: Join, newId: Id, now: int, sid: Id)
    requires Agree(h, m) && NONE !in m.sessions && FreshSession(h, m, newId)
    ensures var (m', j) := SetUp(m, join, newId, now);
            && j.sessionId != NONE && NONE !in m'.sessions && j.clientId == join.clientId
            && AgreeAt(h, m', sid, if sid == j.sessionId then {join.clientId} else {})
  {
    assert sid in m.sessions ==> AgreeAt(h, m, sid, {});
    assert MemberIds(h, newId) == {};
  }

  /** A join that does not stay in its session: the first for this connection, or a switch. */
  lemma RegisterKeeps(h: Hub, m: Manager, c: nat, join: Join, now: int)
    requires Lists(h) && RelaysOk(h) && c in h.live && join.sessionId != NONE && h.clients[c].sessionId != join.sessionId
    requires forall sid :: sid in m.sessions ==> AgreeAt(h, m, sid, if sid == join.sessionId then {join.clientId} else {})
    ensures var (h', m', flush) := Register(h, m, c, join, now); Lists(h') && RelaysOk(h') && Agree(h', m')
  {
    var before := h.clients[c].sessionId;
    var (h1, m1) := if before != NONE then RemoveFromSession(h, m, c, now) else (h, m);
    if before != NONE {
      SwitchersAreUnlisted(h, m, c, now);
    } else {
      NewcomersAreUnlisted(h, c);
    }
    EnrolledLists(h1, c, join);
    var h2 := Enrolled(h1, c, join);
    forall sid | sid in m1.sessions
      ensures m1.sessions[sid].id == sid && m1.sessions[sid].clients.Keys == MemberIds(h2, sid)
    {
      var extra := if sid == join.sessionId then {join.clientId} else {};
      assert AgreeAt(h, m, sid, extra);
      if before != NONE {
        RemoveAgreesAt(h, m, c, now, sid, extra);
      }
      EnrolledIds(h1, c, join, sid);
    }
    var h' := Register(h, m, c, join, now).0;
    SameMembership(h2, m1, h');
  }

  /** Membership does not depend on the buffer or on what is in the channels. */
  predicate SameLists(h: Hub, h': Hub)
  {
    && h'.live == h.live && h'.bySession == h.bySession && h'.relays == h.relays && h'.clients.Keys == h.clients.Keys
    && forall c :: c in h.clients ==>
         && h'.clients[c].sessionId == h.clients[c].sessionId && h'.clients[c].clientId == h.clients[c].clientId
         && h'.clients[c].relay == h.clients[c].relay && h'.clients[c].project == h.clients[c].project
  }

  lemma SameMembership(h: Hub, m: Manager, h': Hub)
    requires Lists(h) && RelaysOk(h) && Agree(h, m) && SameLists(h, h')
    ensures Lists(h') && RelaysOk(h') && Agree(h', m)
  {
    forall sid | sid in h'.bySession
      ensures ListOk(h', sid)
    {
      assert ListOk(h, sid);
    }
    forall sid
      ensures MemberIds(h', sid) == MemberIds(h, sid)
    {
    }
  }

  lemma {:induction false} SplitShrinks(pending: seq<PendingMsg>, project: string)
    ensures |Mine(pending, project)| + |Others(pending, project)| == |pending|
  {
    if pending != [] {
      SplitShrinks(pending[..|pending| - 1], project);
    }
  }

  lemma {:induction false} OfferManySame(h: Hub, c: nat, msgs: seq<Message>)
    ensures SameLists(h, h.(clients := OfferMany(h.clients, c, msgs)))
  {
    if msgs != [] {
      OfferManySame(h, c, msgs[..|msgs| - 1]);
    }
  }

  function TargetSession(m: Manager, join: Join, newId: Id, now: int): Id
  {
    SetUp(m, join, newId, now).1.sessionId
  }

  lemma RegisteredKeeps(h: Hub, m: Manager, c: nat, j: Join, first: seq<Message>, now: int)
    requires Lists(h) && RelaysOk(h) && |h.pending| <= PENDING_MAX && NONE !in m.sessions
    requires c in h.live && j.sessionId != NONE && h.clients[c].sessionId != j.sessionId
    requires forall sid :: sid in m.sessions ==> AgreeAt(h, m, sid, if sid == j.sessionId then {j.clientId} else {})
    ensures var (h1, m1, flush) := Register(h, m, c, j, now);
            Inv(h1.(clients := OfferMany(h1.clients, c, first + flush)), m1)
  {
    RegisterKeeps(h, m, c, j, now);
    SplitShrinks(h.pending, j.project);
    var (h1, m1, flush) := Register(h, m, c, j, now);
    OfferManySame(h1, c, first + flush);
    SameMembership(h1, m1, h1.(clients := OfferMany(h1.clients, c, first + flush)));
  }

  lemma JoinKeeps(h: Hub, m: Manager, c: nat, join: Join, newId: Id, history: bool, now: int)
    requires Inv(h, m) && c in h.live && FreshSession(h, m, newId)
    requires h.clients[c].sessionId != TargetSession(m, join, newId, now)
    ensures var (h', m') := HandleJoin(h, m, c, join, newId, history, now); Inv(h', m')
  {
    var (m1, j) := SetUp(m, join, newId, now);
    SetUpAgrees(h, m, join, newId, now, newId);
    forall sid | sid in m1.sessions
      ensures AgreeAt(h, m1, sid, if sid == j.sessionId then {j.clientId} else {})
    {
      SetUpAgrees(h, m, join, newId, now, sid);
    }
    RegisteredKeeps(h, m1, c, j, [JoinAck(j.clientId, j.sessionId)] + (if history then [History(j.sessionId)] else []), now);
  }

  /** The code appends to the list without looking: a connection that joins its own session again is listed twice. */
  lemma RejoinBreaks(h: Hub, m: Manager, c: nat, join: Join, newId: Id, history: bool, now: int)
    requires Inv(h, m) && c in h.live && FreshSession(h, m, newId)
    requires h.clients[c].sessionId == TargetSession(m, join, newId, now)
    ensures !Lists(HandleJoin(h, m, c, join, newId, history, now).0)
  {
    SetUpAgrees(h, m, join, newId, now, newId);
    var j := SetUp(m, join, newId, now).1;
    var list := Members(h, j.sessionId);
    var i :| 0 <= i < |list| && list[i] == c;
    var list' := HandleJoin(h, m, c, join, newId, history, now).0.bySession[j.sessionId];
    assert list' == list + [c] && list'[i] == c && list'[|list|] == c;
  }

  /** A join keeps hub and manager in order exactly when it does not name the session the connection is already in. */
  lemma JoinKeepsExactlyWhen(h: Hub, m: Manager, c: nat, join: Join, newId: Id, history: bool, now: int)
    requires Inv(h, m) && c in h.live && FreshSession(h, m, newId)
    ensures var (h', m') := HandleJoin(h, m, c, join, newId, history, now);
            Inv(h', m') <==> h.clients[c].sessionId != TargetSession(m, join, newId, now)
  {
    if h.clients[c].sessionId != TargetSession(m, join, newId, now) {
      JoinKeeps(h, m, c, join, newId, history, now);
    } else {
      RejoinBreaks(h, m, c, join, newId, history, now);
    }
  }

  /** And under another client id the manager keeps a client that no connection has any more. */
  lemma RejoinLeavesAGhost(h: Hub, m: Manager, c: nat, join: Join, newId: Id, history: bool, now: int)
    requires Inv(h, m) && c in h.live && join.sessionId != NONE && join.sessionId in m.sessions
    requires h.clients[c].sessionId == join.sessionId && h.clients[c].clientId != join.clientId && !Replaced(h, c)
    ensures var (h', m') := HandleJoin(h, m, c, join, newId, history, now);
            && join.sessionId in m'.sessions && h.clients[c].clientId in m'.sessions[join.sessionId].clients
            && h.clients[c].clientId !in MemberIds(h', join.sessionId)
  {
    var sid, cid := join.sessionId, h.clients[c].clientId;
    var list := Members(h, sid);
    assert c in list && cid in MemberIds(h, sid);
    var (h1, _, flush) := Register(h, SetUp(m, join, newId, now).0, c, join, now);
    var first := [JoinAck(join.clientId, sid)] + (if history then [History(sid)] else []);
    OfferManySame(h1, c, first + flush);
    var h' := HandleJoin(h, m, c, join, newId, history, now).0;
    assert Members(h', sid) == list + [c];
    forall d | d in Members(h', sid) && d in h'.clients
      ensures h'.clients[d].clientId != cid
    {
      if d != c {
        var i :| 0 <= i < |list| && list[i] == d;
      }
    }
  }
}
