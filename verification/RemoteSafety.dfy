/** What holds in every reachable world of the control plane, and what never happens again once it is over. */
module RemoteSafety {
  import opened Basics
  import opened RemoteModel
  import opened RemoteHubSpec
  import opened RemoteLifecycle
  import opened RemoteRuns
  import Spec = RemoteSpec

  // ---------- the tables and their histories ----------

  predicate Recorded(hist: map<Id, History>, db: Db)
  {
    && hist.Keys == db.sessions.Keys
    && forall id :: id in hist ==> LegalHistory(id, hist[id]) && Last(hist[id]) == db.sessions[id]
  }

  predicate Tables(w: World)
  {
    Consistent(w.hist, w.db, w.clock)
  }

  predicate Consistent(hist: map<Id, History>, db: Db, clock: int)
  {
    Legal(db, clock) && Recorded(hist, db)
  }

  predicate HistGrows(a: map<Id, History>, b: map<Id, History>)
  {
    forall id :: id in a ==> id in b && IsPrefix(a[id], b[id])
  }

  /** Of each session at most one revision is added, and it carries the time `now`. */
  predicate HistSteps(a: map<Id, History>, b: map<Id, History>, now: int)
  {
    forall id :: id in a ==> id in b && OneStep(a[id], b[id], now)
  }

  predicate OneStep(h: History, h': History, now: int)
  {
    h' == h || (|h'| == |h| + 1 && IsPrefix(h, h') && Last(h').updatedAt == now)
  }

  lemma StepsGrow(a: map<Id, History>, b: map<Id, History>, now: int)
    requires HistSteps(a, b, now)
    ensures HistGrows(a, b)
  {
    forall id | id in a
      ensures IsPrefix(a[id], b[id])
    {
      assert OneStep(a[id], b[id], now);
    }
  }

  /** What a transaction goes by is a committed revision that was the newest when its call began. */
  predicate SeenIn(hist: map<Id, History>, e: Evidence)
  {
    e.read.id in hist && Seen(hist[e.read.id], |hist[e.read.id]|, e)
  }

  lemma OneMoreRevision(id: Id, h: History, s: Session, basis: Basis, now: int)
    requires LegalHistory(id, h) && Advances(Last(h), s, basis, now)
    requires basis.Some? && Last(h) != s ==> Seen(h, |h|, basis.value)
    ensures var h' := if Last(h) == s then h else h + [Stamp(Last(h), s, basis)];
            LegalHistory(id, h') && Last(h') == s && OneStep(h, h', now)
  {
    VersionFacts(id, h, |h| - 1);
    if Last(h) != s {
      HistoryExtends(id, h, Stamp(Last(h), s, basis));
    }
  }

  lemma BasisSound(hist: map<Id, History>, db: Db, basis: Basis)
    requires Recorded(hist, db) && (basis.Some? ==> SeenIn(hist, basis.value))
    ensures basis.Some? ==> Sound(basis.value.read)
  {
    if basis.Some? {
      var read := basis.value.read;
      VersionFacts(read.id, hist[read.id], read.revision - 1);
    }
  }

  lemma RecordKeeps(hist: map<Id, History>, a: Db, b: Db, basis: Basis, now: int, id: Id)
    requires Recorded(hist, a) && Evolves(a, b, basis, now) && id in b.sessions
    requires basis.Some? ==> SeenIn(hist, basis.value)
    ensures var hist' := Record(hist, b, basis);
            && LegalHistory(id, hist'[id]) && Last(hist'[id]) == b.sessions[id]
            && (id in hist ==> OneStep(hist[id], hist'[id], now))
  {
    if id in hist {
      assert Advances(a.sessions[id], b.sessions[id], basis, now);
      VersionFacts(id, hist[id], |hist[id]| - 1);
      OneMoreRevision(id, hist[id], b.sessions[id], basis, now);
    }
  }

  lemma RecordedNext(hist: map<Id, History>, a: Db, b: Db, basis: Basis, now: int)
    requires Recorded(hist, a) && Evolves(a, b, basis, now)
    requires basis.Some? ==> SeenIn(hist, basis.value)
    ensures Recorded(Record(hist, b, basis), b) && HistSteps(hist, Record(hist, b, basis), now)
  {
    forall id | id in b.sessions
      ensures var hist' := Record(hist, b, basis);
              && LegalHistory(id, hist'[id]) && Last(hist'[id]) == b.sessions[id]
              && (id in hist ==> OneStep(hist[id], hist'[id], now))
    {
      RecordKeeps(hist, a, b, basis, now, id);
    }
  }

  lemma RecordSame(hist: map<Id, History>, a: Db, b: Db)
    requires Recorded(hist, a) && a.sessions == b.sessions
    ensures Record(hist, b, None) == hist
  {
  }

  lemma CommitKeeps(w: World, db: Db, basis: Basis, now: int)
    requires Tables(w) && w.clock <= now && Evolves(w.db, db, basis, now)
    requires basis.Some? ==> SeenIn(w.hist, basis.value)
    ensures var w' := CommitBy(w, db, basis, now);
            Tables(w') && HistSteps(w.hist, w'.hist, now) && HistGrows(w.hist, w'.hist)
  {
    BasisSound(w.hist, w.db, basis);
    EvolvesKeepsLegal(w.db, db, basis, w.clock, now);
    RecordedNext(w.hist, w.db, db, basis, now);
    StepsGrow(w.hist, Record(w.hist, db, basis), now);
  }

  /** `s` is one of the committed revisions. */
  predicate Revised(hist: map<Id, History>, s: Session)
  {
    s.id in hist && 1 <= s.revision <= |hist[s.id]| && hist[s.id][s.revision - 1].row == s
  }

  lemma RowRevised(w: World, id: Id)
    requires Tables(w) && id in w.db.sessions
    ensures Revised(w.hist, w.db.sessions[id]) && w.db.sessions[id].revision == |w.hist[id]| && w.db.sessions[id].id == id
  {
    VersionFacts(id, w.hist[id], |w.hist[id]| - 1);
  }

  predicate Party(s: Session, role: Role, endpoint: Id)
  {
    (role.Controller? && s.controllerId == endpoint) || (role.Host? && s.hostId == endpoint)
  }

  // ---------- tickets ----------

  /** The nonce row of ticket `t` is still there and carries its expiry. */
  predicate RowOf(db: Db, t: Spec.Token)
    requires t.Token?
  {
    && NonceHash(t.payload.nonce) in db.nonces
    && Spec.Unix(db.nonces[NonceHash(t.payload.nonce)].expiresAt) == t.payload.expiresAt
  }

  /** A ticket is good until its row is consumed or its time is over. */
  predicate Spent(db: Db, clock: int, t: Spec.Token)
    requires t.Token?
  {
    t.payload.expiresAt <= Spec.Unix(clock) || (RowOf(db, t) && db.nonces[NonceHash(t.payload.nonce)].consumedAt.Some?)
  }

  /** A ticket is bound to one party of a committed revision, with what that revision grants. */
  predicate Bound(hist: map<Id, History>, c: Spec.Claims)
  {
    && c.sessionId in hist && 1 <= c.revision <= |hist[c.sessionId]|
    && var s := hist[c.sessionId][c.revision - 1].row;
       Party(s, c.role, c.endpointId) && c.capabilities == s.granted
  }

  predicate TicketOk(key: Id, hist: map<Id, History>, db: Db, clock: int, t: Spec.Token)
  {
    && t.Token? && t.mac == Spec.Mac(key, t.payload) && Bound(hist, t.payload)
    && (t.payload.expiresAt <= Spec.Unix(clock) || RowOf(db, t))
  }

  predicate Tickets(w: World)
  {
    Accounted(w.key, w.hist, w.db, w.clock, w.issued, w.used)
  }

  predicate Accounted(key: Id, hist: map<Id, History>, db: Db, clock: int, issued: set<Spec.Token>, used: set<Spec.Token>)
  {
    && (forall t :: t in issued ==> TicketOk(key, hist, db, clock, t))
    && (forall t :: t in used ==> t in issued && t.Token? && Spent(db, clock, t))
  }

  /** Rows disappear only when they have expired, are never un-consumed, and keep their expiry. */
  predicate NoncesKept(a: Db, b: Db, now: int)
  {
    forall h :: h in a.nonces && a.nonces[h].expiresAt > now ==>
      && h in b.nonces && b.nonces[h].expiresAt == a.nonces[h].expiresAt
      && (a.nonces[h].consumedAt.Some? ==> b.nonces[h].consumedAt.Some?)
  }

  lemma UnixMonotone(a: int, b: int)
    requires a <= b
    ensures Spec.Unix(a) <= Spec.Unix(b)
  {
  }

  lemma TicketsStay(w: World, hist: map<Id, History>, db: Db, now: int)
    requires Tickets(w) && w.clock <= now && NoncesKept(w.db, db, now) && HistGrows(w.hist, hist)
    ensures Accounted(w.key, hist, db, now, w.issued, w.used)
  {
    UnixMonotone(w.clock, now);
    forall t | t in w.issued
      ensures TicketOk(w.key, hist, db, now, t)
      ensures t in w.used ==> Spent(db, now, t)
    {
      assert TicketOk(w.key, w.hist, w.db, w.clock, t);
      assert IsPrefix(w.hist[t.payload.sessionId], hist[t.payload.sessionId]);
      var h := NonceHash(t.payload.nonce);
      if h in w.db.nonces && w.db.nonces[h].expiresAt <= now {
        UnixMonotone(w.db.nonces[h].expiresAt, now);
      }
    }
  }

  /** Issuing writes a fresh row for the ticket it returns. */
  lemma IssueFacts(db: Db, key: Id, s: Session, endpoint: Id, role: Role, nonce: Id, now: int)
    ensures var (db', r) := Spec.Issue(db, key, s, endpoint, role, nonce, now);
            && db'.sessions == db.sessions && NoncesKept(db, db', now)
            && (r.Success? ==>
                  && r.value.Token? && r.value.mac == Spec.Mac(key, r.value.payload) && RowOf(db', r.value)
                  && r.value.payload.sessionId == s.id && r.value.payload.revision == s.revision
                  && r.value.payload.role == role && r.value.payload.endpointId == endpoint
                  && r.value.payload.capabilities == s.granted && !role.OtherRole?)
  {
  }

  /** No call without a ticket touches the nonce table. */
  lemma QuietNonces(db: Db, call: Call, now: int)
    ensures Serve(db, call, now).nonces == db.nonces
  {
  }

  /** Neither does a step of a call. */
  lemma NextNonces(db: Db, c: Work, now: int)
    ensures Next(db, c, now).0.nonces == db.nonces
  {
  }

  /** Consuming a ticket leaves it spent, and is refused for a ticket that is spent already. */
  lemma ConsumeFacts(db: Db, key: Id, t: Spec.Token, sid: Id, endpoint: Id, role: Role, revision: int, now: int)
    ensures var (db', r) := Spec.ConsumeTicket(db, key, t, sid, endpoint, role, revision, now);
            && db'.sessions == db.sessions && NoncesKept(db, db', now)
            && (r.Success? ==>
                  && t.Token? && t.mac == Spec.Mac(key, t.payload) && !Spent(db, now, t)
                  && (RowOf(db, t) ==> Spent(db', now, t))
                  && sid in db.sessions && db.sessions[sid].revision == revision
                  && Spec.TakesTickets(db.sessions[sid])
                  && t.payload.sessionId == sid && t.payload.revision == revision
                  && t.payload.role == role && t.payload.endpointId == endpoint)
  {
  }

  // ---------- connections and messages ----------

  predicate GrantOk(hist: map<Id, History>, g: Grant)
  {
    && g.revision > 0 && g.sessionId in hist && g.revision <= |hist[g.sessionId]|
    && var s := hist[g.sessionId][g.revision - 1].row;
       Spec.TakesTickets(s) && Party(s, g.role, g.endpoint)
  }

  /** What a connection may use: every authorization is a consumed ticket of that very connection. */
  predicate ConnOk(grants: set<Grant>, c: nat, conn: Conn)
  {
    && !conn.role.OtherRole? && conn.endpoint != NONE
    && forall sid :: sid in conn.authorized ==>
         conn.authorized[sid] > 0 && Grant(c, conn.role, conn.endpoint, sid, conn.authorized[sid]) in grants
  }

  /** The message comes from a connection that consumed a ticket for its session and revision. */
  predicate Backed(grants: set<Grant>, c: nat, role: Role, endpoint: Id, m: Signal)
  {
    m.Signal? && m.revision > 0 && m.ticket.None? && Grant(c, role, endpoint, m.sessionId, m.revision) in grants
  }

  /** The message was compared with a committed revision of its session, and the sender is a party of it. */
  predicate Cleared(hist: map<Id, History>, role: Role, endpoint: Id, m: Signal, s: Session)
  {
    m.Signal? && Revised(hist, s) && s.id == m.sessionId && Current(s, m.revision) && Party(s, role, endpoint)
  }

  predicate StageOk(hist: map<Id, History>, grants: set<Grant>, c: nat, conn: Conn, st: Stage)
  {
    && Backed(grants, c, conn.role, conn.endpoint, st.signal)
    && (st.ToSend? ==> Cleared(hist, conn.role, conn.endpoint, st.signal, st.session))
  }

  predicate SentOk(hist: map<Id, History>, grants: set<Grant>, e: Sent)
  {
    && Backed(grants, e.conn, e.role, e.endpoint, e.signal) && Cleared(hist, e.role, e.endpoint, e.signal, e.session)
    && e.target == Target(e.role, e.session)
  }

  predicate SentAll(hist: map<Id, History>, grants: set<Grant>, sent: seq<Sent>)
  {
    forall i :: 0 <= i < |sent| ==> SentOk(hist, grants, sent[i])
  }

  predicate GrantsAll(hist: map<Id, History>, grants: set<Grant>)
  {
    forall g :: g in grants ==> GrantOk(hist, g)
  }

  predicate ConnsAll(grants: set<Grant>, next: nat, conns: map<nat, Conn>)
  {
    forall c :: c in conns ==> c < next && ConnOk(grants, c, conns[c])
  }

  predicate StagesAll(hist: map<Id, History>, grants: set<Grant>, conns: map<nat, Conn>, inflight: map<nat, Stage>)
  {
    forall c :: c in inflight ==> c in conns && StageOk(hist, grants, c, conns[c], inflight[c])
  }

  predicate LeaversAll(leaving: map<nat, (Conn, set<Id>)>)
  {
    forall c :: c in leaving ==> !leaving[c].0.role.OtherRole?
  }

  predicate Wired(w: World)
  {
    && GrantsAll(w.hist, w.grants) && ConnsAll(w.grants, w.next, w.hub.conns)
    && StagesAll(w.hist, w.grants, w.hub.conns, w.inflight) && LeaversAll(w.leaving)
    && SentAll(w.hist, w.grants, w.sent)
  }

  /** The first revision of a session tells its parties. */
  predicate CallerOk(hist: map<Id, History>, op: Op)
  {
    op.sid in hist && ActsFor(op, hist[op.sid][0].row)
  }

  /**
   * What a call in progress goes by: a revision of its session that was the newest when it began, within its limit when
   * that was compared or not older than the call; or, when it is about to read again, a session that has moved since.
   */
  predicate WorkOk(hist: map<Id, History>, clock: int, c: Work)
  {
    match c
    case ToLimit(op, read, began) =>
      CallerOk(hist, op) && read.id == op.sid && SeenIn(hist, Evidence(read, began, None)) && began <= clock
    case ToReread(op, began) => CallerOk(hist, op) && began <= Last(hist[op.sid]).updatedAt && began <= clock
    case ToMove(op, e) =>
      && CallerOk(hist, op) && e.read.id == op.sid && SeenIn(hist, e) && e.began <= clock
      && (e.checkedAt.Some? ==> e.checkedAt.value <= clock) && (op.Refuse? || InTime(e))
    case ToFetch(op) => CallerOk(hist, op) && op.Accept?
    case ToIssue(row, endpoint, role) => Revised(hist, row) && Party(row, role, endpoint)
  }

  predicate CallsAll(hist: map<Id, History>, clock: int, calls: map<nat, Work>, next: nat)
  {
    forall k :: k in calls ==> k < next && WorkOk(hist, clock, calls[k])
  }

  predicate Inv(w: World)
  {
    Tables(w) && Tickets(w) && Wired(w) && CallsAll(w.hist, w.clock, w.calls, w.nextCall)
  }

  /** The hubs differ in one connection, which keeps its place. */
  predicate OnlyChanges(a: Hub, b: Hub, c: nat)
    requires c in a.conns
  {
    && c in b.conns && b.conns == a.conns[c := b.conns[c]]
    && b.conns[c].role == a.conns[c].role && b.conns[c].endpoint == a.conns[c].endpoint
  }

  predicate SameRights(a: Conn, b: Conn)
  {
    a.role == b.role && a.endpoint == b.endpoint && a.authorized == b.authorized
  }

  /** Sending and counting candidates change no authorization. */
  predicate SameConns(a: Hub, b: Hub)
  {
    a.conns.Keys == b.conns.Keys && forall c :: c in a.conns ==> SameRights(a.conns[c], b.conns[c])
  }

  lemma SendingKeepsConns(hub: Hub, c: nat, role: Role, s: Session, m: Signal, o: Outgoing)
    ensures SameConns(hub, Reply(hub, c, o)) && SameConns(hub, SendOn(hub, role, s, m))
  {
  }

  /** Histories only get longer, so what was checked against them stays checked. */
  lemma WiresStay(w: World, hist: map<Id, History>, hub: Hub)
    requires Wired(w) && HistGrows(w.hist, hist) && SameConns(w.hub, hub)
    ensures GrantsAll(hist, w.grants) && ConnsAll(w.grants, w.next, hub.conns)
    ensures StagesAll(hist, w.grants, hub.conns, w.inflight)
    ensures SentAll(hist, w.grants, w.sent)
  {
    forall g | g in w.grants
      ensures GrantOk(hist, g)
    {
      assert IsPrefix(w.hist[g.sessionId], hist[g.sessionId]);
    }
    forall c | c in w.inflight && w.inflight[c].ToSend?
      ensures Revised(hist, w.inflight[c].session)
    {
      assert StageOk(w.hist, w.grants, c, w.hub.conns[c], w.inflight[c]);
      assert IsPrefix(w.hist[w.inflight[c].session.id], hist[w.inflight[c].session.id]);
    }
    forall i | 0 <= i < |w.sent|
      ensures SentOk(hist, w.grants, w.sent[i])
    {
      assert SentOk(w.hist, w.grants, w.sent[i]);
      assert IsPrefix(w.hist[w.sent[i].session.id], hist[w.sent[i].session.id]);
    }
  }

  lemma HistGrowsSelf(hist: map<Id, History>)
    ensures HistGrows(hist, hist)
  {
  }

  // ---------- one step ----------

  function SessionOf(c: Work): Id
  {
    if c.ToIssue? then c.row.id else c.op.sid
  }

  lemma WorkStays(a: map<Id, History>, b: map<Id, History>, clock: int, now: int, c: Work)
    requires WorkOk(a, clock, c) && HistSteps(a, b, now) && clock <= now
    ensures WorkOk(b, now, c)
  {
    assert OneStep(a[SessionOf(c)], b[SessionOf(c)], now);
  }

  lemma CallsStay(w: World, hist: map<Id, History>, now: int)
    requires CallsAll(w.hist, w.clock, w.calls, w.nextCall) && HistSteps(w.hist, hist, now) && w.clock <= now
    ensures CallsAll(hist, now, w.calls, w.nextCall)
  {
    forall k | k in w.calls
      ensures WorkOk(hist, now, w.calls[k])
    {
      WorkStays(w.hist, hist, w.clock, now, w.calls[k]);
    }
  }

  /** A commit to the tables that only changes channels elsewhere. */
  lemma CommitByKeepsInv(w: World, db: Db, basis: Basis, hub: Hub, now: int)
    requires Inv(w) && w.clock <= now && Evolves(w.db, db, basis, now) && NoncesKept(w.db, db, now) && SameConns(w.hub, hub)
    requires basis.Some? ==> SeenIn(w.hist, basis.value)
    ensures Inv(CommitBy(w, db, basis, now).(hub := hub))
    ensures HistSteps(w.hist, CommitBy(w, db, basis, now).hist, now)
  {
    CommitKeeps(w, db, basis, now);
    var hist := CommitBy(w, db, basis, now).hist;
    TicketsStay(w, hist, db, now);
    WiresStay(w, hist, hub);
    CallsStay(w, hist, now);
  }

  lemma CommitKeepsInv(w: World, db: Db, hub: Hub, now: int)
    requires Inv(w) && w.clock <= now && Evolves(w.db, db, None, now) && NoncesKept(w.db, db, now) && SameConns(w.hub, hub)
    ensures Inv(Commit(w, db, now).(hub := hub))
  {
    CommitByKeepsInv(w, db, None, hub, now);
  }

  lemma ServiceKeeps(w: World, call: Call, now: int)
    requires Inv(w) && w.clock <= now
    ensures Inv(DoService(w, call, now))
  {
    ServeEvolves(w.db, call, w.clock, now);
    QuietNonces(w.db, call, now);
    CommitKeepsInv(w, Serve(w.db, call, now), w.hub, now);
  }

  // ---------- a call in parts ----------

  lemma WithCalls(w: World, calls: map<nat, Work>, next: nat)
    requires Inv(w) && CallsAll(w.hist, w.clock, calls, next)
    ensures Inv(w.(calls := calls, nextCall := next))
  {
    var w' := w.(calls := calls, nextCall := next);
    assert Tables(w') && Tickets(w') && Wired(w');
  }

  lemma WithCall(w: World, k: nat, c: Work, next: nat)
    requires Inv(w) && WorkOk(w.hist, w.clock, c) && w.nextCall <= next && k < next
    ensures Inv(w.(calls := w.calls[k := c], nextCall := next))
  {
    WithCalls(w, w.calls[k := c], next);
  }

  lemma WithoutCall(w: World, k: nat, next: nat)
    requires Inv(w) && w.nextCall <= next
    ensures Inv(w.(calls := w.calls - {k}, nextCall := next)) && Inv(w.(nextCall := next))
  {
    WithCalls(w, w.calls - {k}, next);
    WithCalls(w, w.calls, next);
    assert w.(calls := w.calls) == w;
  }

  /** The parties are those of the stored row, and of every revision. */
  lemma SameParties(w: World, op: Op, s: Session)
    requires Tables(w) && op.sid in w.hist && Revised(w.hist, s) && s.id == op.sid
    ensures ActsFor(op, s) <==> ActsFor(op, w.hist[op.sid][0].row)
  {
    VersionFacts(op.sid, w.hist[op.sid], s.revision - 1);
  }

  lemma BeginKeeps(w: World, op: Op, now: int)
    requires Inv(w) && w.clock <= now
    ensures Inv(DoBegin(w, op, now))
  {
    TimePasses(w, now);
    ReadValue(w.db, op);
    var r := Read(w.db, op);
    if r.Success? {
      RowRevised(w, op.sid);
      SameParties(w, op, r.value);
      WithCall(w.(clock := now), w.nextCall, ToLimit(op, r.value, now), w.nextCall + 1);
    } else {
      WithoutCall(w.(clock := now), w.nextCall, w.nextCall + 1);
    }
  }

  /** A revision is the stored row when it carries the number of the stored row, and an older one is followed by others. */
  lemma ReadIsRowOrOlder(w: World, e: Evidence)
    requires Tables(w) && SeenIn(w.hist, e) && e.read.id in w.db.sessions
    ensures Sound(e.read) && SameRequest(w.db.sessions[e.read.id], e.read)
    ensures var s := w.db.sessions[e.read.id];
            && e.read.revision <= s.revision == |w.hist[e.read.id]|
            && (e.read.revision == s.revision ==> e.read == s)
            && (e.read.revision < s.revision ==> e.began <= s.updatedAt)
  {
    var h := w.hist[e.read.id];
    VersionFacts(e.read.id, h, |h| - 1);
    VersionFacts(e.read.id, h, e.read.revision - 1);
    if e.read.revision < |h| {
      TimesOrdered(e.read.id, h, e.read.revision, |h| - 1);
    }
  }

  /** What a call may do after a lookup. */
  lemma RestOk(w: World, op: Op, e: Evidence)
    requires Tables(w) && CallerOk(w.hist, op) && e.read.id == op.sid && SeenIn(w.hist, e) && e.began <= w.clock
    requires (e.checkedAt.Some? ==> e.checkedAt.value <= w.clock) && (op.Refuse? || InTime(e))
    ensures Rest(op, e).Some? ==> WorkOk(w.hist, w.clock, Rest(op, e).value)
  {
    VersionFacts(op.sid, w.hist[op.sid], e.read.revision - 1);
    SameParties(w, op, e.read);
  }

  lemma StoredIsSeen(w: World, sid: Id, began: int, checkedAt: Option<int>)
    requires Tables(w) && sid in w.db.sessions
    ensures SeenIn(w.hist, Evidence(w.db.sessions[sid], began, checkedAt)) && w.db.sessions[sid].id == sid
  {
    RowRevised(w, sid);
  }

  /** A step of a call in terms of what it did to the tables: world `w` is the one after the commit. */
  lemma RereadOk(w: World, op: Op, began: int)
    requires Tables(w) && WorkOk(w.hist, w.clock, ToReread(op, began))
    ensures var rest := Reread(w.db, op, began);
            rest.Some? ==> WorkOk(w.hist, w.clock, rest.value)
  {
    StoredIsSeen(w, op.sid, began, None);
    RestOk(w, op, Evidence(w.db.sessions[op.sid], began, None));
  }

  lemma FetchOk(w: World, op: Op)
    requires Tables(w) && WorkOk(w.hist, w.clock, ToFetch(op))
    ensures var rest := Fetch(w.db, op);
            rest.Some? ==> WorkOk(w.hist, w.clock, rest.value)
  {
    RowRevised(w, op.sid);
    SameParties(w, op, w.db.sessions[op.sid]);
  }

  /** A stored row and an earlier revision of it belong to the same request. */
  lemma GroundsOf(w: World, op: Op, e: Evidence, now: int)
    requires Tables(w) && w.clock <= now && WorkOk(w.hist, w.clock, ToMove(op, e))
    ensures Grounds(w.db, op.sid, e, now)
  {
    ReadIsRowOrOlder(w, e);
  }

  /** Every step of a call is an evolution of the tables. */
  lemma NextEvolves(w: World, k: nat, now: int)
    requires Tables(w) && CallsAll(w.hist, w.clock, w.calls, w.nextCall) && w.clock <= now
    requires k in w.calls && !w.calls[k].ToIssue?
    ensures var (db, _, basis) := Next(w.db, w.calls[k], now);
            Evolves(w.db, db, basis, now) && (basis.Some? ==> SeenIn(w.hist, basis.value))
  {
    var c := w.calls[k];
    assert WorkOk(w.hist, w.clock, c);
    if c.ToLimit? {
      ReadIsRowOrOlder(w, Evidence(c.read, c.began, None));
      LimitEvolves(w.db, c.op, c.read, c.began, w.clock, now);
    } else if c.ToMove? {
      GroundsOf(w, c.op, c.basis, now);
      MoveEvolves(w.db, c.op, c.basis, w.clock, now);
    }
  }

  lemma LimitOk(w: World, w': World, op: Op, read: Session, began: int, now: int)
    requires Tables(w) && Tables(w') && WorkOk(w'.hist, now, ToLimit(op, read, began)) && w'.clock == now
    requires SeenIn(w.hist, Evidence(read, began, None)) && read.id == op.sid
    requires w'.db == Limit(w.db, op, read, began, now).0
    ensures var rest := Limit(w.db, op, read, began, now).1;
            rest.Some? ==> WorkOk(w'.hist, now, rest.value)
  {
    if op.Refuse? {
      RestOk(w', op, Evidence(read, began, None));
    } else if !Overdue(read, now) {
      RestOk(w', op, Evidence(read, began, Some(now)));
    } else {
      OverdueOk(w, w', op, read, began, now);
    }
  }

  lemma TimeoutLands(db: Db, op: Op, read: Session, began: int, now: int)
    requires op.sid in db.sessions && db.sessions[op.sid] == read && !op.Refuse? && Overdue(read, now)
    ensures var failed := TimedOut(read, now);
            Limit(db, op, read, began, now)
            == (db.(sessions := db.sessions[op.sid := failed]), Rest(op, Evidence(failed, began, Some(now))))
  {
  }

  lemma TimeoutOvertaken(db: Db, op: Op, read: Session, began: int, now: int)
    requires op.sid in db.sessions && db.sessions[op.sid].revision != read.revision && read.revision > 0
    requires !op.Refuse? && Overdue(read, now)
    ensures Limit(db, op, read, began, now) == (db, Some(ToReread(op, began)))
  {
  }

  /** The timeout of the stored row is committed; that of an older one has been overtaken. */
  lemma OverdueOk(w: World, w': World, op: Op, read: Session, began: int, now: int)
    requires Tables(w) && Tables(w') && WorkOk(w'.hist, now, ToLimit(op, read, began)) && w'.clock == now
    requires SeenIn(w.hist, Evidence(read, began, None)) && read.id == op.sid
    requires w'.db == Limit(w.db, op, read, began, now).0 && !op.Refuse? && Overdue(read, now)
    ensures var rest := Limit(w.db, op, read, began, now).1;
            rest.Some? ==> WorkOk(w'.hist, now, rest.value)
  {
    ReadIsRowOrOlder(w, Evidence(read, began, None));
    if w.db.sessions[op.sid].revision == read.revision {
      TimeoutLands(w.db, op, read, began, now);
      LandedOk(w', op, TimedOut(read, now), began, now);
    } else {
      TimeoutOvertaken(w.db, op, read, began, now);
      OvertakenOk(w', op, read, began);
    }
  }

  lemma LandedOk(w: World, op: Op, failed: Session, began: int, now: int)
    requires Tables(w) && CallerOk(w.hist, op) && began <= now == w.clock
    requires op.sid in w.db.sessions && w.db.sessions[op.sid] == failed && failed.state.Failed?
    ensures var rest := Rest(op, Evidence(failed, began, Some(now)));
            rest.Some? ==> WorkOk(w.hist, now, rest.value)
  {
    StoredIsSeen(w, op.sid, began, Some(now));
    RestOk(w, op, Evidence(failed, began, Some(now)));
  }

  lemma OvertakenOk(w: World, op: Op, read: Session, began: int)
    requires Tables(w) && WorkOk(w.hist, w.clock, ToLimit(op, read, began))
    requires op.sid in w.db.sessions && w.db.sessions[op.sid].revision != read.revision
    ensures WorkOk(w.hist, w.clock, ToReread(op, began))
  {
    ReadIsRowOrOlder(w, Evidence(read, began, None));
  }

  /** What is left of a call after one more step is in order again. */
  lemma NextOk(w: World, k: nat, now: int)
    requires Tables(w) && CallsAll(w.hist, w.clock, w.calls, w.nextCall) && w.clock <= now
    requires k in w.calls && !w.calls[k].ToIssue?
    ensures var (db, rest, basis) := Next(w.db, w.calls[k], now);
            rest.Some? ==> WorkOk(CommitBy(w, db, basis, now).hist, now, rest.value)
  {
    var c := w.calls[k];
    NextEvolves(w, k, now);
    var (db, rest, basis) := Next(w.db, c, now);
    CommitKeeps(w, db, basis, now);
    var w' := CommitBy(w, db, basis, now);
    WorkStays(w.hist, w'.hist, w.clock, now, c);
    NextOkAfter(w, w', c, now);
  }

  lemma NextOkAfter(w: World, w': World, c: Work, now: int)
    requires Tables(w) && Tables(w') && w'.clock == now && w'.db == Next(w.db, c, now).0 && !c.ToIssue?
    requires WorkOk(w.hist, w.clock, c) && WorkOk(w'.hist, now, c)
    ensures var rest := Next(w.db, c, now).1;
            rest.Some? ==> WorkOk(w'.hist, now, rest.value)
  {
    match c
    case ToLimit(op, read, began) => LimitOk(w, w', op, read, began, now);
    case ToReread(op, began) => RereadOk(w', op, began);
    case ToMove(op, e) =>
    case ToFetch(op) => FetchOk(w', op);
  }

  lemma ProceededKeeps(w: World, k: nat, outcome: (Db, Option<Work>, Basis), now: int)
    requires Inv(w) && w.clock <= now && k in w.calls && outcome.0.nonces == w.db.nonces
    requires Evolves(w.db, outcome.0, outcome.2, now) && (outcome.2.Some? ==> SeenIn(w.hist, outcome.2.value))
    requires outcome.1.Some? ==> WorkOk(CommitBy(w, outcome.0, outcome.2, now).hist, now, outcome.1.value)
    ensures Inv(Proceeded(w, k, outcome, now))
  {
    CommitByKeepsInv(w, outcome.0, outcome.2, w.hub, now);
    var w' := CommitBy(w, outcome.0, outcome.2, now);
    if outcome.1.Some? {
      WithCall(w', k, outcome.1.value, w.nextCall);
    } else {
      WithoutCall(w', k, w.nextCall);
    }
  }

  lemma ProceedKeeps(w: World, k: nat, now: int)
    requires Inv(w) && w.clock <= now
    ensures Inv(DoProceed(w, k, now))
  {
    if k !in w.calls || w.calls[k].ToIssue? {
      TimePasses(w, now);
    } else {
      NextEvolves(w, k, now);
      NextNonces(w.db, w.calls[k], now);
      NextOk(w, k, now);
      ProceededKeeps(w, k, Next(w.db, w.calls[k], now), now);
    }
  }

  lemma AddTickets(w: World, tokens: set<Spec.Token>)
    requires Inv(w) && forall t :: t in tokens ==> TicketOk(w.key, w.hist, w.db, w.clock, t)
    ensures Inv(w.(issued := w.issued + tokens))
  {
    assert Wired(w.(issued := w.issued + tokens));
  }

  /** A ticket speaks of the committed revision its call went by, of the party it acts for, and of what was granted there. */
  lemma IssueKeeps(w: World, k: nat, nonce: Id, now: int)
    requires Inv(w) && w.clock <= now
    ensures Inv(DoIssue(w, k, nonce, now))
  {
    if k !in w.calls || !w.calls[k].ToIssue? {
      TimePasses(w, now);
    } else {
      var c := w.calls[k];
      assert WorkOk(w.hist, w.clock, c);
      IssueFacts(w.db, w.key, c.row, c.endpoint, c.role, nonce, now);
      IssuedKeeps(w, k, Spec.Issue(w.db, w.key, c.row, c.endpoint, c.role, nonce, now), now);
    }
  }

  lemma IssuedKeeps(w: World, k: nat, outcome: Spec.Outcome<Spec.Token>, now: int)
    requires Inv(w) && w.clock <= now && outcome.0.sessions == w.db.sessions && NoncesKept(w.db, outcome.0, now)
    requires outcome.1.Success? ==>
               && outcome.1.value.Token? && outcome.1.value.mac == Spec.Mac(w.key, outcome.1.value.payload)
               && RowOf(outcome.0, outcome.1.value) && Bound(w.hist, outcome.1.value.payload)
    ensures Inv(Issued(w, k, outcome, now))
  {
    CommitKeepsInv(w, outcome.0, w.hub, now);
    var w' := Commit(w, outcome.0, now);
    RecordSame(w.hist, w.db, outcome.0);
    AddTickets(w', TokenOf(outcome.1));
    WithoutCall(w'.(issued := w.issued + TokenOf(outcome.1)), k, w.nextCall);
  }

  /** The steps that leave the tables alone. */
  lemma TimePasses(w: World, now: int)
    requires Inv(w) && w.clock <= now
    ensures Inv(w.(clock := now))
  {
    HistGrowsSelf(w.hist);
    TicketsStay(w, w.hist, w.db, now);
    CallsStay(w, w.hist, now);
  }

  lemma JoinKeeps(w: World, role: Role, identity: Option<Id>, now: int)
    requires Inv(w) && w.clock <= now
    ensures Inv(DoJoin(w, role, identity, now))
  {
    TimePasses(w, now);
  }

  lemma DepartureKeeps(w: World, c: nat, hub: Hub, leaving: map<nat, (Conn, set<Id>)>)
    requires Inv(w) && c !in w.inflight && hub.conns == w.hub.conns - {c} && LeaversAll(leaving)
    ensures Inv(w.(hub := hub, leaving := leaving))
  {
    var w' := w.(hub := hub, leaving := leaving);
    assert Tables(w') && Tickets(w') && CallsAll(w'.hist, w'.clock, w'.calls, w'.nextCall);
    assert GrantsAll(w'.hist, w'.grants) && SentAll(w'.hist, w'.grants, w'.sent);
  }

  lemma LeaveKeeps(w: World, c: nat, now: int)
    requires Inv(w) && w.clock <= now
    ensures Inv(DoLeave(w, c, now))
  {
    TimePasses(w, now);
    if c in w.hub.conns && c !in w.inflight {
      assert ConnOk(w.grants, c, w.hub.conns[c]);
      var w' := DoLeave(w, c, now);
      DepartureKeeps(w.(clock := now), c, w'.hub, w'.leaving);
    }
  }

  lemma SentKeepsWired(w: World, c: nat, hub: Hub)
    requires Wired(w) && c in w.inflight && w.inflight[c].ToSend? && c in w.hub.conns && SameConns(w.hub, hub)
    ensures var conn, st := w.hub.conns[c], w.inflight[c];
            Wired(w.(hub := hub, inflight := w.inflight - {c},
                     sent := w.sent + [Sent(c, conn.role, conn.endpoint, st.signal, st.session, Target(conn.role, st.session))]))
  {
    HistGrowsSelf(w.hist);
    WiresStay(w, w.hist, hub);
    assert StageOk(w.hist, w.grants, c, w.hub.conns[c], w.inflight[c]);
  }

  lemma SendKeeps(w: World, c: nat, now: int)
    requires Inv(w) && w.clock <= now
    ensures Inv(DoSend(w, c, now))
  {
    TimePasses(w, now);
    if c in w.hub.conns && c in w.inflight && w.inflight[c].ToSend? {
      var hub := SendOn(w.hub, w.hub.conns[c].role, w.inflight[c].session, w.inflight[c].signal);
      SendingKeepsConns(w.hub, c, w.hub.conns[c].role, w.inflight[c].session, w.inflight[c].signal, Joined);
      SentKeepsWired(w, c, hub);
    }
  }

  lemma TellKeeps(w: World, c: nat, sid: Id, now: int)
    requires Inv(w) && w.clock <= now
    ensures Inv(DoTell(w, c, sid, now))
  {
    TimePasses(w, now);
    if c in w.leaving && sid in w.leaving[c].1 {
      var (hub, db) := Left(w.hub, w.db, w.leaving[c].0, sid, now);
      LeftEvolves(w.hub, w.db, w.leaving[c].0, sid, w.clock, now);
      LeftKeepsConns(w.hub, w.db, w.leaving[c].0, sid, now);
      CommitKeepsInv(w, db, hub, now);
    }
  }

  lemma LeftKeepsConns(hub: Hub, db: Db, conn: Conn, sid: Id, now: int)
    ensures SameConns(hub, Left(hub, db, conn, sid, now).0)
  {
  }

  lemma CheckValue(db: Db, conn: Conn, m: Signal, clock: int, now: int)
    requires Legal(db, clock) && clock <= now && m.Signal? && !conn.role.OtherRole?
    ensures var (db', r) := Check(db, conn, m, now);
            && db'.nonces == db.nonces && Evolves(db, db', None, now)
            && (r.Success? ==> m.sessionId in db'.sessions && r.value == db'.sessions[m.sessionId]
                               && Current(r.value, m.revision) && Party(r.value, conn.role, conn.endpoint))
  {
    LookupValue(db, conn.role, conn.endpoint, m.sessionId, clock, now);
  }

  lemma AddStage(w: World, c: nat, st: Stage)
    requires Inv(w) && c in w.hub.conns && StageOk(w.hist, w.grants, c, w.hub.conns[c], st)
    ensures Inv(w.(inflight := w.inflight[c := st]))
  {
    assert Tables(w.(inflight := w.inflight[c := st]));
    assert Tickets(w.(inflight := w.inflight[c := st]));
  }

  lemma PassingKeeps(w: World, c: nat, db: Db, s: Session, now: int)
    requires Inv(w) && w.clock <= now && Evolves(w.db, db, None, now) && NoncesKept(w.db, db, now)
    requires c in w.hub.conns && c in w.inflight && w.inflight[c].signal.Signal?
    requires var m := w.inflight[c].signal;
             && m.sessionId in db.sessions && s == db.sessions[m.sessionId] && Current(s, m.revision)
             && Party(s, w.hub.conns[c].role, w.hub.conns[c].endpoint)
    ensures Inv(Commit(w, db, now).(inflight := w.inflight[c := ToSend(w.inflight[c].signal, s)]))
  {
    CommitKeepsInv(w, db, w.hub, now);
    var w' := Commit(w, db, now);
    CheckClears(w', w.hub.conns[c], w.inflight[c].signal, s);
    assert StageOk(w.hist, w.grants, c, w.hub.conns[c], w.inflight[c]);
    AddStage(w', c, ToSend(w.inflight[c].signal, s));
  }

  lemma RefusingKeeps(w: World, c: nat, db: Db, e: Error, now: int)
    requires Inv(w) && w.clock <= now && Evolves(w.db, db, None, now) && NoncesKept(w.db, db, now)
    ensures Inv(Commit(w, db, now).(hub := Reply(w.hub, c, Rejected(e)), inflight := w.inflight - {c}))
  {
    SendingKeepsConns(w.hub, c, Host, BLANK, Malformed, Rejected(e));
    CommitKeepsInv(w, db, Reply(w.hub, c, Rejected(e)), now);
  }

  lemma CheckKeeps(w: World, c: nat, now: int)
    requires Inv(w) && w.clock <= now
    ensures Inv(DoCheck(w, c, now))
  {
    if c !in w.hub.conns || c !in w.inflight || !w.inflight[c].ToCheck? || w.inflight[c].signal.Malformed? {
      TimePasses(w, now);
    } else {
      assert ConnOk(w.grants, c, w.hub.conns[c]);
      CheckValue(w.db, w.hub.conns[c], w.inflight[c].signal, w.clock, now);
      var (db, r) := Check(w.db, w.hub.conns[c], w.inflight[c].signal, now);
      if r.Failure? {
        RefusingKeeps(w, c, db, r.error, now);
      } else {
        PassingKeeps(w, c, db, r.value, now);
      }
    }
  }

  lemma CheckClears(w: World, conn: Conn, m: Signal, s: Session)
    requires Tables(w) && m.Signal? && m.sessionId in w.db.sessions && s == w.db.sessions[m.sessionId]
    requires Current(s, m.revision) && Party(s, conn.role, conn.endpoint)
    ensures Cleared(w.hist, conn.role, conn.endpoint, m, s)
  {
    RowRevised(w, m.sessionId);
  }

  /** Receiving touches one connection; a message is admitted only on the strength of a consumed ticket. */
  lemma AdmitFacts(hub: Hub, db: Db, key: Id, c: nat, m: Signal, now: int)
    requires c in hub.conns
    ensures var (hub', db', r) := Admit(hub, db, key, c, m, now);
            var a, b := hub.conns[c], hub'.conns[c];
            && db'.sessions == db.sessions && NoncesKept(db, db', now)
            && hub'.conns == hub.conns[c := b] && b.role == a.role && b.endpoint == a.endpoint
            && (r.Failure? || !m.kind.ClientReady? ==> b.authorized == a.authorized)
            && (r.Success? ==>
                  && m.Signal? && m.revision > 0 && r.value == m.(ticket := None)
                  && (m.kind.ClientReady? ==> b.authorized == a.authorized[m.sessionId := m.revision] && m.ticket.Some?)
                  && (!m.kind.ClientReady? ==> m.sessionId in a.authorized && a.authorized[m.sessionId] == m.revision))
  {
    if m.Signal? && m.ticket.Some? {
      ConsumeFacts(db, key, m.ticket.value, m.sessionId, hub.conns[c].endpoint, hub.conns[c].role, m.revision, now);
    }
  }

  lemma AdmittedTicket(hub: Hub, db: Db, key: Id, c: nat, m: Signal, now: int)
    requires c in hub.conns && m.Signal? && m.kind.ClientReady? && m.ticket.Some?
    ensures var (hub', db', r) := Admit(hub, db, key, c, m, now);
            var t := m.ticket.value;
            r.Success? ==>
              && t.Token? && t.mac == Spec.Mac(key, t.payload) && !Spent(db, now, t)
              && (RowOf(db, t) ==> Spent(db', now, t))
              && m.sessionId in db.sessions && db.sessions[m.sessionId].revision == m.revision
              && Spec.TakesTickets(db.sessions[m.sessionId])
              && t.payload.sessionId == m.sessionId && t.payload.revision == m.revision
              && t.payload.role == hub.conns[c].role && t.payload.endpointId == hub.conns[c].endpoint
  {
    ConsumeFacts(db, key, m.ticket.value, m.sessionId, hub.conns[c].endpoint, hub.conns[c].role, m.revision, now);
  }

  lemma MoreGrants(w: World, g: Grant)
    requires Wired(w) && GrantOk(w.hist, g)
    ensures Wired(w.(grants := w.grants + {g}))
  {
  }

  lemma AddUse(w: World, t: Spec.Token)
    requires Tickets(w) && t in w.issued && t.Token? && Spent(w.db, w.clock, t)
    ensures Tickets(w.(used := w.used + {t}))
  {
  }

  lemma AddRight(w: World, c: nat, hub: Hub, st: Stage)
    requires Wired(w) && c in w.hub.conns && OnlyChanges(w.hub, hub, c)
    requires ConnOk(w.grants, c, hub.conns[c]) && StageOk(w.hist, w.grants, c, hub.conns[c], st)
    ensures Wired(w.(hub := hub, inflight := w.inflight[c := st]))
  {
  }

  /** A connection presents a ticket and gets the session and revision it names. */
  lemma ReadyKeeps(w: World, c: nat, hub: Hub, t: Spec.Token, m: Signal)
    requires Inv(w) && c in w.hub.conns && OnlyChanges(w.hub, hub, c)
    requires m.Signal? && m.ticket.None? && m.revision > 0
    requires hub.conns[c].authorized == w.hub.conns[c].authorized[m.sessionId := m.revision]
    requires t in w.issued && t.Token? && Spent(w.db, w.clock, t)
    requires GrantOk(w.hist, Grant(c, hub.conns[c].role, hub.conns[c].endpoint, m.sessionId, m.revision))
    ensures var g := Grant(c, hub.conns[c].role, hub.conns[c].endpoint, m.sessionId, m.revision);
            Inv(w.(hub := hub, inflight := w.inflight[c := ToCheck(m)], grants := w.grants + {g}, used := w.used + {t}))
  {
    var g := Grant(c, hub.conns[c].role, hub.conns[c].endpoint, m.sessionId, m.revision);
    MoreGrants(w, g);
    AddRight(w.(grants := w.grants + {g}), c, hub, ToCheck(m));
    AddUse(w, t);
  }

  lemma OtherKeeps(w: World, c: nat, hub: Hub, m: Signal)
    requires Inv(w) && c in w.hub.conns && OnlyChanges(w.hub, hub, c) && SameRights(hub.conns[c], w.hub.conns[c])
    requires m.Signal? && m.ticket.None? && m.revision > 0
    requires m.sessionId in hub.conns[c].authorized && hub.conns[c].authorized[m.sessionId] == m.revision
    ensures Inv(w.(hub := hub, inflight := w.inflight[c := ToCheck(m)]))
  {
    assert ConnOk(w.grants, c, w.hub.conns[c]);
    AddRight(w, c, hub, ToCheck(m));
  }

  /** A ticket for the stored row of a session that takes tickets grants its revision for ever. */
  lemma BoundGrants(w: World, hist: map<Id, History>, t: Spec.Claims, c: nat)
    requires Tables(w) && Bound(w.hist, t) && HistGrows(w.hist, hist)
    requires t.sessionId in w.db.sessions && t.revision == w.db.sessions[t.sessionId].revision
    requires Spec.TakesTickets(w.db.sessions[t.sessionId])
    ensures GrantOk(hist, Grant(c, t.role, t.endpointId, t.sessionId, t.revision))
  {
    RowRevised(w, t.sessionId);
    assert IsPrefix(w.hist[t.sessionId], hist[t.sessionId]);
  }

  /** A genuine ticket that is not spent still has its row. */
  lemma UnspentHasRow(w: World, t: Spec.Token, now: int)
    requires Tickets(w) && t in w.issued && t.Token? && w.clock <= now && !Spent(w.db, now, t)
    ensures RowOf(w.db, t) && Bound(w.hist, t.payload)
  {
    assert TicketOk(w.key, w.hist, w.db, w.clock, t);
    UnixMonotone(w.clock, now);
  }

  /** The consumed ticket was issued to this party of this revision, and is spent now. */
  lemma TicketGrants(w: World, c: nat, m: Signal, db: Db, now: int)
    requires Inv(w) && w.clock <= now && Evolves(w.db, db, None, now)
    requires c in w.hub.conns && m.Signal? && m.ticket.Some? && m.revision > 0 && Unforged(w, m)
    requires var t := m.ticket.value;
             && t.Token? && t.mac == Spec.Mac(w.key, t.payload) && !Spent(w.db, now, t) && (RowOf(w.db, t) ==> Spent(db, now, t))
             && t.payload.sessionId == m.sessionId && t.payload.revision == m.revision
             && t.payload.role == w.hub.conns[c].role && t.payload.endpointId == w.hub.conns[c].endpoint
    requires m.sessionId in w.db.sessions && w.db.sessions[m.sessionId].revision == m.revision
    requires Spec.TakesTickets(w.db.sessions[m.sessionId])
    ensures m.ticket.value in w.issued && Spent(db, now, m.ticket.value)
    ensures GrantOk(Commit(w, db, now).hist, Grant(c, w.hub.conns[c].role, w.hub.conns[c].endpoint, m.sessionId, m.revision))
  {
    CommitKeeps(w, db, None, now);
    UnspentHasRow(w, m.ticket.value, now);
    BoundGrants(w, Commit(w, db, now).hist, m.ticket.value.payload, c);
  }

  lemma ReadyReceived(w: World, c: nat, m: Signal, outcome: (Hub, Db, Result<Signal, Error>), now: int)
    requires Inv(w) && w.clock <= now && c in w.hub.conns && Unforged(w, m)
    requires Evolves(w.db, outcome.1, None, now) && NoncesKept(w.db, outcome.1, now)
    requires outcome.2.Success? && m.Signal? && m.kind.ClientReady? && m.revision > 0 && outcome.2.value == m.(ticket := None)
    requires OnlyChanges(w.hub, outcome.0, c)
    requires outcome.0.conns[c].authorized == w.hub.conns[c].authorized[m.sessionId := m.revision]
    requires m.ticket.Some?
    requires var t := m.ticket.value;
             && t.Token? && t.mac == Spec.Mac(w.key, t.payload) && !Spent(w.db, now, t)
             && (RowOf(w.db, t) ==> Spent(outcome.1, now, t))
             && t.payload.sessionId == m.sessionId && t.payload.revision == m.revision
             && t.payload.role == w.hub.conns[c].role && t.payload.endpointId == w.hub.conns[c].endpoint
    requires m.sessionId in w.db.sessions && w.db.sessions[m.sessionId].revision == m.revision
    requires Spec.TakesTickets(w.db.sessions[m.sessionId])
    ensures var conn := w.hub.conns[c];
            Inv(Entitled(Admitted(w, c, outcome.0, outcome.1, outcome.2.value, now),
                         Grant(c, conn.role, conn.endpoint, m.sessionId, m.revision), m.ticket.value))
  {
    CommitKeepsInv(w, outcome.1, w.hub, now);
    TicketGrants(w, c, m, outcome.1, now);
    ReadyKeeps(Commit(w, outcome.1, now), c, outcome.0, m.ticket.value, outcome.2.value);
  }

  lemma OtherReceived(w: World, c: nat, m: Signal, outcome: (Hub, Db, Result<Signal, Error>), now: int)
    requires Inv(w) && w.clock <= now && c in w.hub.conns
    requires Evolves(w.db, outcome.1, None, now) && NoncesKept(w.db, outcome.1, now)
    requires outcome.2.Success? && m.Signal? && !m.kind.ClientReady? && m.revision > 0 && outcome.2.value == m.(ticket := None)
    requires OnlyChanges(w.hub, outcome.0, c) && SameRights(outcome.0.conns[c], w.hub.conns[c])
    requires m.sessionId in w.hub.conns[c].authorized && w.hub.conns[c].authorized[m.sessionId] == m.revision
    ensures Inv(Admitted(w, c, outcome.0, outcome.1, outcome.2.value, now))
  {
    CommitKeepsInv(w, outcome.1, w.hub, now);
    OtherKeeps(Commit(w, outcome.1, now), c, outcome.0, outcome.2.value);
  }

  lemma RefusedReceived(w: World, c: nat, m: Signal, outcome: (Hub, Db, Result<Signal, Error>), now: int)
    requires Inv(w) && w.clock <= now && c in w.hub.conns && SameConns(w.hub, outcome.0) && outcome.2.Failure?
    requires Evolves(w.db, outcome.1, None, now) && NoncesKept(w.db, outcome.1, now)
    ensures Inv(Refused(w, c, outcome.0, outcome.1, outcome.2.error, now))
  {
    SendingKeepsConns(outcome.0, c, Host, BLANK, Malformed, Rejected(outcome.2.error));
    CommitKeepsInv(w, outcome.1, Reply(outcome.0, c, Rejected(outcome.2.error)), now);
  }

  lemma AdmissionKeeps(w: World, c: nat, m: Signal, now: int)
    requires Inv(w) && w.clock <= now && c in w.hub.conns && Unforged(w, m)
    ensures Inv(Received(w, c, m, Admit(w.hub, w.db, w.key, c, m, now), now))
  {
    AdmitFacts(w.hub, w.db, w.key, c, m, now);
    var outcome := Admit(w.hub, w.db, w.key, c, m, now);
    if outcome.2.Failure? {
      RefusedReceived(w, c, m, outcome, now);
    } else if m.kind.ClientReady? {
      AdmittedTicket(w.hub, w.db, w.key, c, m, now);
      ReadyReceived(w, c, m, outcome, now);
    } else {
      OtherReceived(w, c, m, outcome, now);
    }
  }

  lemma ReceiveKeeps(w: World, c: nat, m: Signal, now: int)
    requires Inv(w) && w.clock <= now
    ensures Inv(DoReceive(w, c, m, now))
  {
    if c !in w.hub.conns || c in w.inflight || !Unforged(w, m) {
      TimePasses(w, now);
    } else {
      AdmissionKeeps(w, c, m, now);
    }
  }

  lemma DoKeeps(w: World, step: Step, now: int)
    requires Inv(w) && w.clock <= now
    ensures Inv(Do(w, step, now))
  {
    match step
    case Service(call) => ServiceKeeps(w, call, now);
    case Begin(op) => BeginKeeps(w, op, now);
    case Proceed(k) => ProceedKeeps(w, k, now);
    case Issue(k, nonce) => IssueKeeps(w, k, nonce, now);
    case JoinHub(role, identity) => JoinKeeps(w, role, identity, now);
    case Receive(c, m) => ReceiveKeeps(w, c, m, now);
    case CheckSignal(c) => CheckKeeps(w, c, now);
    case SendSignal(c) => SendKeeps(w, c, now);
    case Leave(c) => LeaveKeeps(w, c, now);
    case TellPeer(c, sid) => TellKeeps(w, c, sid, now);
  }

  lemma AfterKeeps(w: World, e: Event)
    requires Inv(w)
    ensures Inv(After(w, e))
  {
    DoKeeps(w, e.step, NotBefore(w.clock, e.at));
  }

  /** Whatever happens, in whatever order and after whatever delays, the invariant holds. */
  lemma {:induction false} RunsAreSafe(w: World, es: seq<Event>)
    requires Inv(w)
    ensures Inv(Exec(w, es))
  {
    if es != [] {
      RunsAreSafe(w, es[..|es| - 1]);
      AfterKeeps(Exec(w, es[..|es| - 1]), es[|es| - 1]);
    }
  }

  lemma InitIsSafe(key: Id, clock: int)
    ensures Inv(Init(key, clock))
  {
  }

  // ---------- what only grows ----------

  /** Revisions, tickets, consumptions and deliveries are never taken back. */
  predicate Grows(a: World, b: World)
  {
    && a.key == b.key && a.clock <= b.clock && HistGrows(a.hist, b.hist)
    && a.issued <= b.issued && a.used <= b.used && a.grants <= b.grants && IsPrefix(a.sent, b.sent)
  }

  lemma GrowsThrough(a: World, b: World, c: World)
    requires Grows(a, b) && Grows(b, c)
    ensures Grows(a, c)
  {
    forall id | id in a.hist
      ensures id in c.hist && IsPrefix(a.hist[id], c.hist[id])
    {
      assert IsPrefix(a.hist[id], b.hist[id]) && IsPrefix(b.hist[id], c.hist[id]);
    }
  }

  lemma CommitGrows(w: World, db: Db, now: int)
    requires Tables(w) && w.clock <= now && Evolves(w.db, db, None, now)
    ensures Grows(w, Commit(w, db, now))
  {
    CommitKeeps(w, db, None, now);
  }

  lemma AdmittedGrows(w: World, c: nat, hub: Hub, db: Db, m: Signal, now: int)
    requires Grows(w, Commit(w, db, now))
    ensures Grows(w, Admitted(w, c, hub, db, m, now))
  {
  }

  lemma EntitledGrows(w: World, w': World, g: Grant, t: Spec.Token)
    requires Grows(w, w')
    ensures Grows(w, Entitled(w', g, t))
  {
  }

  lemma RefusedGrows(w: World, c: nat, hub: Hub, db: Db, e: Error, now: int)
    requires Grows(w, Commit(w, db, now))
    ensures Grows(w, Refused(w, c, hub, db, e, now))
  {
  }

  lemma ReceivedGrows(w: World, c: nat, m: Signal, outcome: (Hub, Db, Result<Signal, Error>), now: int)
    requires Tables(w) && w.clock <= now && c in w.hub.conns && Evolves(w.db, outcome.1, None, now)
    ensures Grows(w, Received(w, c, m, outcome, now))
  {
    CommitGrows(w, outcome.1, now);
    if outcome.2.Failure? {
      RefusedGrows(w, c, outcome.0, outcome.1, outcome.2.error, now);
    } else {
      var w' := Admitted(w, c, outcome.0, outcome.1, outcome.2.value, now);
      AdmittedGrows(w, c, outcome.0, outcome.1, outcome.2.value, now);
      if m.Signal? && m.kind.ClientReady? && m.ticket.Some? {
        EntitledGrows(w, w', Grant(c, w.hub.conns[c].role, w.hub.conns[c].endpoint, m.sessionId, m.revision), m.ticket.value);
      }
    }
  }

  lemma CheckedGrows(w: World, c: nat, outcome: Spec.Outcome<Session>, now: int)
    requires Tables(w) && w.clock <= now && c in w.inflight && Evolves(w.db, outcome.0, None, now)
    ensures Grows(w, Checked(w, c, outcome, now))
  {
    CommitGrows(w, outcome.0, now);
  }

  lemma AdmissionGrows(w: World, c: nat, m: Signal, now: int)
    requires Tables(w) && w.clock <= now && c in w.hub.conns
    ensures Grows(w, Received(w, c, m, Admit(w.hub, w.db, w.key, c, m, now), now))
  {
    AdmitFacts(w.hub, w.db, w.key, c, m, now);
    ReceivedGrows(w, c, m, Admit(w.hub, w.db, w.key, c, m, now), now);
  }

  lemma ReceiveGrows(w: World, c: nat, m: Signal, now: int)
    requires Inv(w) && w.clock <= now
    ensures Grows(w, DoReceive(w, c, m, now))
  {
    HistGrowsSelf(w.hist);
    if c in w.hub.conns {
      AdmissionGrows(w, c, m, now);
    }
  }

  lemma CheckingGrows(w: World, c: nat, now: int)
    requires Inv(w) && w.clock <= now && c in w.hub.conns && c in w.inflight && w.inflight[c].signal.Signal?
    ensures Grows(w, Checked(w, c, Check(w.db, w.hub.conns[c], w.inflight[c].signal, now), now))
  {
    assert ConnOk(w.grants, c, w.hub.conns[c]);
    CheckValue(w.db, w.hub.conns[c], w.inflight[c].signal, w.clock, now);
    CheckedGrows(w, c, Check(w.db, w.hub.conns[c], w.inflight[c].signal, now), now);
  }

  lemma CheckGrows(w: World, c: nat, now: int)
    requires Inv(w) && w.clock <= now
    ensures Grows(w, DoCheck(w, c, now))
  {
    HistGrowsSelf(w.hist);
    if c in w.hub.conns && c in w.inflight && w.inflight[c].signal.Signal? {
      CheckingGrows(w, c, now);
    }
  }

  lemma TellGrows(w: World, c: nat, sid: Id, now: int)
    requires Inv(w) && w.clock <= now
    ensures Grows(w, DoTell(w, c, sid, now))
  {
    HistGrowsSelf(w.hist);
    if c in w.leaving {
      LeftEvolves(w.hub, w.db, w.leaving[c].0, sid, w.clock, now);
      CommitGrows(w, Left(w.hub, w.db, w.leaving[c].0, sid, now).1, now);
    }
  }

  lemma ServiceGrows(w: World, call: Call, now: int)
    requires Inv(w) && w.clock <= now
    ensures Grows(w, DoService(w, call, now))
  {
    ServeEvolves(w.db, call, w.clock, now);
    CommitGrows(w, Serve(w.db, call, now), now);
  }

  lemma ProceedGrows(w: World, k: nat, now: int)
    requires Inv(w) && w.clock <= now
    ensures Grows(w, DoProceed(w, k, now))
  {
    HistGrowsSelf(w.hist);
    if k in w.calls && !w.calls[k].ToIssue? {
      NextEvolves(w, k, now);
      var (db, _, basis) := Next(w.db, w.calls[k], now);
      CommitKeeps(w, db, basis, now);
    }
  }

  lemma IssueGrows(w: World, k: nat, nonce: Id, now: int)
    requires Inv(w) && w.clock <= now
    ensures Grows(w, DoIssue(w, k, nonce, now))
  {
    HistGrowsSelf(w.hist);
    if k in w.calls && w.calls[k].ToIssue? {
      var c := w.calls[k];
      IssueFacts(w.db, w.key, c.row, c.endpoint, c.role, nonce, now);
      CommitGrows(w, Spec.Issue(w.db, w.key, c.row, c.endpoint, c.role, nonce, now).0, now);
    }
  }

  lemma SendGrows(w: World, c: nat, now: int)
    requires w.clock <= now
    ensures Grows(w, DoSend(w, c, now))
  {
    HistGrowsSelf(w.hist);
  }

  lemma QuietGrows(w: World, step: Step, now: int)
    requires w.clock <= now && (step.JoinHub? || step.Leave? || step.Begin?)
    ensures Grows(w, Do(w, step, now))
  {
    HistGrowsSelf(w.hist);
  }

  lemma DoGrows(w: World, step: Step, now: int)
    requires Inv(w) && w.clock <= now
    ensures Grows(w, Do(w, step, now))
  {
    match step
    case Service(call) => ServiceGrows(w, call, now);
    case Proceed(k) => ProceedGrows(w, k, now);
    case Issue(k, nonce) => IssueGrows(w, k, nonce, now);
    case Receive(c, m) => ReceiveGrows(w, c, m, now);
    case SendSignal(c) => SendGrows(w, c, now);
    case CheckSignal(c) => CheckGrows(w, c, now);
    case TellPeer(c, sid) => TellGrows(w, c, sid, now);
    case _ => QuietGrows(w, step, now);
  }

  lemma AfterGrows(w: World, e: Event)
    requires Inv(w)
    ensures Grows(w, After(w, e))
  {
    DoGrows(w, e.step, NotBefore(w.clock, e.at));
  }

  lemma {:induction false} RunsGrow(w: World, es: seq<Event>)
    requires Inv(w)
    ensures Inv(Exec(w, es)) && Grows(w, Exec(w, es))
  {
    RunsAreSafe(w, es);
    if es == [] {
      HistGrowsSelf(w.hist);
    } else {
      var w' := Exec(w, es[..|es| - 1]);
      RunsGrow(w, es[..|es| - 1]);
      AfterGrows(w', es[|es| - 1]);
      GrowsThrough(w, w', After(w', es[|es| - 1]));
    }
  }
}
