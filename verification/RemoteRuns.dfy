/**
 * Whole runs of the control plane: service calls, tickets, and signaling connections whose work is split at every
 * point where another goroutine may get in between.
 */
module RemoteRuns {
  import opened Basics
  import opened RemoteModel
  import opened RemoteHubSpec
  import opened RemoteLifecycle
  import Spec = RemoteSpec

  /** The calls that are one transaction, or a loop of transactions taken as one step. */
  datatype Call =
    | Register(row: HostRow)
    | Beat(hostId: Id, caps: Option<(bool, bool)>)
    | Request(newId: Id, controller: Id, hostId: Id, wanted: seq<string>, primary: bool)
    | Get(sid: Id, endpoint: Id, role: Role)
    | ListForHost(hostId: Id)
    | ListForPrimary
    | Approve(sid: Id, device: Id, expected: int)

  /** The calls that look a row up, move it in a second transaction and may issue a ticket in a third. */
  datatype Op =
    | Refuse(sid: Id, device: Id, reason: string, expected: int)
    | Accept(sid: Id, host: Id, expected: int)
    | Reject(sid: Id, host: Id, reason: string, expected: int)
    | End(sid: Id, endpoint: Id, role: Role, reason: string, expected: int)
    | Connected(sid: Id, host: Id, expected: int)
    | Lost(sid: Id, endpoint: Id, role: Role, expected: int)
    | Refresh(sid: Id, endpoint: Id, role: Role)

  /**
   * What comes next in a call: to compare the limit of the row it read, to read again because its timeout was overtaken,
   * to move the row, to fetch the row it moved, or to issue a ticket for a row. `began` is the time of the first read.
   */
  datatype Work =
    | ToLimit(op: Op, read: Session, began: int)
    | ToReread(op: Op, began: int)
    | ToMove(op: Op, basis: Evidence)
    | ToFetch(op: Op)
    | ToIssue(row: Session, endpoint: Id, role: Role)

  function TokenOf(r: Result<Spec.Token, Error>): set<Spec.Token>
  {
    if r.Success? then {r.value} else {}
  }

  function Serve(db: Db, call: Call, now: int): Db
  {
    match call
    case Register(row) => Spec.RegisterHost(db, row, now)
    case Beat(hostId, caps) => Spec.Heartbeat(db, hostId, caps, now).0
    case Request(newId, controller, hostId, wanted, primary) =>
      Spec.RequestSession(db, newId, controller, hostId, wanted, primary, now).0
    case Get(sid, endpoint, role) => Spec.GetForEndpoint(db, sid, endpoint, role, now).0
    case ListForHost(hostId) =>
      if hostId in db.hosts then Spec.ListAndTimeOut(db, Some(hostId), WaitingConsent, now) else db
    case ListForPrimary => Spec.ListAndTimeOut(db, None, WaitingPrimary, now)
    case Approve(sid, device, expected) => Spec.ApproveByPrimary(db, sid, device, expected, now).0
  }

  /** The party a call acts for; the primary device is none. */
  function Caller(op: Op): (Role, Id)
  {
    match op
    case Refuse(_, device, _, _) => (OtherRole, device)
    case Accept(_, host, _) => (Host, host)
    case Reject(_, host, _, _) => (Host, host)
    case End(_, endpoint, role, _, _) => (role, endpoint)
    case Connected(_, host, _) => (Host, host)
    case Lost(_, endpoint, role, _) => (role, endpoint)
    case Refresh(_, endpoint, role) => (role, endpoint)
  }

  /** The first part of a call: the row it reads. */
  function Read(db: Db, op: Op): Result<Session, Error>
  {
    if op.Refuse? then Spec.LookForPrimary(db, op.sid, op.device)
    else Spec.LookFor(db, op.sid, Caller(op).1, Caller(op).0)
  }

  /** What follows a lookup, if anything does. */
  function Rest(op: Op, e: Evidence): Option<Work>
  {
    match op
    case End(_, _, _, _, _) => if IsTerminal(e.read.state) then None else Some(ToMove(op, e))
    case Lost(_, _, _, _) => if Spec.NothingToLose(e.read) then None else Some(ToMove(op, e))
    case Refresh(_, endpoint, role) => if Spec.TakesTickets(e.read) then Some(ToIssue(e.read, endpoint, role)) else None
    case _ => Some(ToMove(op, e))
  }

  /**
   * applyTimeout: a row within its limit is gone by as it is; an overdue one is failed, and if that compare-and-swap loses
   * the row is read again. A failed row is the last one, so reading it after the commit finds the same. The primary device
   * does not ask for the limit.
   */
  function Limit(db: Db, op: Op, read: Session, began: int, now: int): (Db, Option<Work>)
  {
    if op.Refuse? then (db, Rest(op, Evidence(read, began, None)))
    else if !Overdue(read, now) then (db, Rest(op, Evidence(read, began, Some(now))))
    else
      var (db', r) := Spec.Transition(db, op.sid, read.revision, {read.state}, Failed, None, NoTransport,
                                      Ttl(read.state).value.1, now);
      (db', if r.Success? then Rest(op, Evidence(r.value, began, Some(now)))
            else if r.error.Conflict? then Some(ToReread(op, began)) else None)
  }

  /** The row read again is gone by without a look at its limit. */
  function Reread(db: Db, op: Op, began: int): Option<Work>
  {
    if op.sid in db.sessions then Rest(op, Evidence(db.sessions[op.sid], began, None)) else None
  }

  /** The compare-and-swap of a call. */
  function Move(db: Db, op: Op, read: Session, now: int): Spec.Outcome<Session>
  {
    match op
    case Refuse(sid, _, reason, expected) => Spec.RefuseMove(db, sid, read, reason, expected, now)
    case Accept(sid, _, expected) => Spec.AcceptMove(db, sid, read, expected, now)
    case Reject(sid, _, reason, expected) => Spec.RejectMove(db, sid, read, reason, expected, now)
    case End(sid, _, _, reason, expected) => Spec.EndMove(db, sid, read, reason, expected, now)
    case Connected(sid, _, expected) => Spec.ConnectMove(db, sid, read, expected, now)
    case Lost(sid, _, _, expected) => Spec.LoseMove(db, sid, read, expected, now)
    case Refresh(_, _, _) => (db, Failure(Conflict))
  }

  /** Accept issues its ticket for the row as it is read after the commit. */
  function Fetch(db: Db, op: Op): Option<Work>
  {
    if op.sid in db.sessions && op.Accept? then Some(ToIssue(db.sessions[op.sid], op.host, Host)) else None
  }

  /** The next step of a call: the tables, what is left, and what a write goes by. */
  function Next(db: Db, c: Work, now: int): (Db, Option<Work>, Basis)
  {
    match c
    case ToLimit(op, read, began) => var (db', rest) := Limit(db, op, read, began, now); (db', rest, None)
    case ToReread(op, began) => (db, Reread(db, op, began), None)
    case ToMove(op, e) =>
      var (db', r) := Move(db, op, e.read, now);
      (db', if r.Success? && op.Accept? then Some(ToFetch(op)) else None, Some(e))
    case ToFetch(op) => (db, Fetch(db, op), None)
    case ToIssue(_, _, _) => (db, Some(c), None)
  }

  // ---------- worlds and steps ----------

  /** Connection `conn` consumed a ticket of this session and revision. */
  datatype Grant = Grant(conn: nat, role: Role, endpoint: Id, sessionId: Id, revision: int)

  /** Where the read loop of a connection stands with the message it is working on. */
  datatype Stage = ToCheck(signal: Signal) | ToSend(signal: Signal, session: Session)

  /** A message put on the other party's channels, with the row it was checked against. */
  datatype Sent = Sent(conn: nat, role: Role, endpoint: Id, signal: Signal, session: Session, target: (Role, Id))

  /** The state of the control plane plus a record of what happened: revisions, tickets, consumptions, deliveries. */
  datatype World = World(
    key: Id, clock: int, db: Db, calls: map<nat, Work>, nextCall: nat,
    hub: Hub, next: nat, inflight: map<nat, Stage>, leaving: map<nat, (Conn, set<Id>)>,
    hist: map<Id, History>, issued: set<Spec.Token>, used: set<Spec.Token>, grants: set<Grant>, sent: seq<Sent>)

  datatype Step =
    | Service(call: Call)
    | Begin(op: Op)
    | Proceed(callId: nat)
    | Issue(callId: nat, nonce: Id)
    | JoinHub(role: Role, identity: Option<Id>)
    | Receive(conn: nat, signal: Signal)
    | CheckSignal(conn: nat)
    | SendSignal(conn: nat)
    | Leave(conn: nat)
    | TellPeer(conn: nat, sid: Id)

  /** A step and the reading of the clock it is made at; the clock never runs backwards. */
  datatype Event = Event(at: int, step: Step)

  function Last(h: History): Session { h[|h| - 1].row }

  function Record(hist: map<Id, History>, db: Db, basis: Basis): map<Id, History>
  {
    map id | id in db.sessions ::
      var row := db.sessions[id];
      if id !in hist then [Version(row, Glance(row, row.updatedAt))]
      else if Last(hist[id]) == row then hist[id]
      else hist[id] + [Stamp(Last(hist[id]), row, basis)]
  }

  function CommitBy(w: World, db: Db, basis: Basis, now: int): World
  {
    w.(db := db, clock := now, hist := Record(w.hist, db, basis))
  }

  function Commit(w: World, db: Db, now: int): World
  {
    CommitBy(w, db, None, now)
  }

  /** MACs cannot be forged: a ticket that carries the server's MAC was issued by the server. */
  predicate Unforged(w: World, m: Signal)
  {
    m.Signal? && m.ticket.Some? && m.ticket.value.Token? && m.ticket.value.mac == Spec.Mac(w.key, m.ticket.value.payload)
    ==> m.ticket.value in w.issued
  }

  function DoService(w: World, call: Call, now: int): World
  {
    Commit(w, Serve(w.db, call, now), now)
  }

  function DoBegin(w: World, op: Op, now: int): World
  {
    var r := Read(w.db, op);
    w.(clock := now, nextCall := w.nextCall + 1,
    calls := if r.Success? then w.calls[w.nextCall := ToLimit(op, r.value, now)] else w.calls)
  }

  /** The next step of a call came out like this. */
  function Proceeded(w: World, k: nat, outcome: (Db, Option<Work>, Basis), now: int): World
  {
    var (db, rest, basis) := outcome;
    CommitBy(w, db, basis, now).(calls := if rest.Some? then w.calls[k := rest.value] else w.calls - {k})
  }

  function DoProceed(w: World, k: nat, now: int): World
  {
    if k !in w.calls || w.calls[k].ToIssue? then w.(clock := now)
    else Proceeded(w, k, Next(w.db, w.calls[k], now), now)
  }

  function Issued(w: World, k: nat, outcome: Spec.Outcome<Spec.Token>, now: int): World
  {
    Commit(w, outcome.0, now).(calls := w.calls - {k}, issued := w.issued + TokenOf(outcome.1))
  }

  function DoIssue(w: World, k: nat, nonce: Id, now: int): World
  {
    if k !in w.calls || !w.calls[k].ToIssue? then w.(clock := now)
    else Issued(w, k, Spec.Issue(w.db, w.key, w.calls[k].row, w.calls[k].endpoint, w.calls[k].role, nonce, now), now)
  }

  function DoJoin(w: World, role: Role, identity: Option<Id>, now: int): World
  {
    w.(clock := now, hub := Join(w.hub, w.next, role, identity), next := w.next + 1)
  }

  function Refused(w: World, c: nat, hub: Hub, db: Db, e: Error, now: int): World
  {
    Commit(w, db, now).(hub := Reply(hub, c, Rejected(e)))
  }

  function Admitted(w: World, c: nat, hub: Hub, db: Db, m: Signal, now: int): World
  {
    Commit(w, db, now).(hub := hub, inflight := w.inflight[c := ToCheck(m)])
  }

  /** The connection now holds the rights of the ticket it presented. */
  function Entitled(w: World, g: Grant, t: Spec.Token): World
  {
    w.(grants := w.grants + {g}, used := w.used + {t})
  }

  /** The read loop took in message `m` with this outcome. */
  function Received(w: World, c: nat, m: Signal, outcome: (Hub, Db, Result<Signal, Error>), now: int): World
    requires c in w.hub.conns
  {
    var conn := w.hub.conns[c];
    if outcome.2.Failure? then Refused(w, c, outcome.0, outcome.1, outcome.2.error, now)
    else if m.Signal? && m.kind.ClientReady? && m.ticket.Some?
    then Entitled(Admitted(w, c, outcome.0, outcome.1, outcome.2.value, now),
                  Grant(c, conn.role, conn.endpoint, m.sessionId, m.revision), m.ticket.value)
    else Admitted(w, c, outcome.0, outcome.1, outcome.2.value, now)
  }

  function DoReceive(w: World, c: nat, m: Signal, now: int): World
  {
    if c !in w.hub.conns || c in w.inflight || !Unforged(w, m) then w.(clock := now)
    else Received(w, c, m, Admit(w.hub, w.db, w.key, c, m, now), now)
  }

  /** The message in flight was compared with its session with this outcome. */
  function Checked(w: World, c: nat, outcome: Spec.Outcome<Session>, now: int): World
    requires c in w.inflight
  {
    var (db, r) := outcome;
    if r.Failure? then Commit(w, db, now).(hub := Reply(w.hub, c, Rejected(r.error)), inflight := w.inflight - {c})
    else Commit(w, db, now).(inflight := w.inflight[c := ToSend(w.inflight[c].signal, r.value)])
  }

  function DoCheck(w: World, c: nat, now: int): World
  {
    if c !in w.hub.conns || c !in w.inflight || !w.inflight[c].ToCheck? || w.inflight[c].signal.Malformed? then w.(clock := now)
    else Checked(w, c, Check(w.db, w.hub.conns[c], w.inflight[c].signal, now), now)
  }

  function DoSend(w: World, c: nat, now: int): World
  {
    if c !in w.hub.conns || c !in w.inflight || !w.inflight[c].ToSend? then w.(clock := now)
    else
      var conn, m, s := w.hub.conns[c], w.inflight[c].signal, w.inflight[c].session;
      w.(clock := now, hub := SendOn(w.hub, conn.role, s, m), inflight := w.inflight - {c},
      sent := w.sent + [Sent(c, conn.role, conn.endpoint, m, s, Target(conn.role, s))])
  }

  /** A read loop ends only between two messages. */
  function DoLeave(w: World, c: nat, now: int): World
  {
    if c !in w.hub.conns || c in w.inflight then w.(clock := now)
    else
      var conn := w.hub.conns[c];
      var (hub, offline) := Drop(w.hub, c);
      w.(clock := now, hub := hub,
      leaving := if offline then w.leaving[c := (conn, conn.authorized.Keys)] else w.leaving)
  }

  function DoTell(w: World, c: nat, sid: Id, now: int): World
  {
    if c !in w.leaving || sid !in w.leaving[c].1 then w.(clock := now)
    else
      var (conn, todo) := w.leaving[c];
      var (hub, db) := Left(w.hub, w.db, conn, sid, now);
      Commit(w, db, now).(hub := hub, leaving := w.leaving[c := (conn, todo - {sid})])
  }

  function Do(w: World, step: Step, now: int): World
  {
    match step
    case Service(call) => DoService(w, call, now)
    case Begin(op) => DoBegin(w, op, now)
    case Proceed(k) => DoProceed(w, k, now)
    case Issue(k, nonce) => DoIssue(w, k, nonce, now)
    case JoinHub(role, identity) => DoJoin(w, role, identity, now)
    case Receive(c, m) => DoReceive(w, c, m, now)
    case CheckSignal(c) => DoCheck(w, c, now)
    case SendSignal(c) => DoSend(w, c, now)
    case Leave(c) => DoLeave(w, c, now)
    case TellPeer(c, sid) => DoTell(w, c, sid, now)
  }

  function After(w: World, e: Event): World
  {
    Do(w, e.step, NotBefore(w.clock, e.at))
  }

  function Exec(w: World, es: seq<Event>): World
  {
    if es == [] then w else After(Exec(w, es[..|es| - 1]), es[|es| - 1])
  }

  function Init(key: Id, clock: int): World
  {
    World(key, clock, Db(map[], map[], map[]), map[], 0, Hub(map[], map[]), 0, map[], map[], map[], {}, {}, {}, [])
  }

  /** The steps of service calls touch neither connections nor messages. */
  predicate OfCalls(step: Step)
  {
    step.Service? || step.Begin? || step.Proceed? || step.Issue?
  }

  predicate SameSignals(w: World, w': World)
  {
    && w'.hub == w.hub && w'.next == w.next && w'.inflight == w.inflight && w'.leaving == w.leaving
    && w'.sent == w.sent && w'.grants == w.grants
  }

  lemma ProceededLeavesSignals(w: World, k: nat, outcome: (Db, Option<Work>, Basis), now: int)
    ensures SameSignals(w, Proceeded(w, k, outcome, now))
  {
  }

  lemma CallsLeaveSignals(w: World, step: Step, now: int)
    requires OfCalls(step)
    ensures SameSignals(w, Do(w, step, now))
  {
    match step
    case Service(call) =>
    case Begin(op) =>
    case Proceed(k) =>
      if k in w.calls && !w.calls[k].ToIssue? {
        ProceededLeavesSignals(w, k, Next(w.db, w.calls[k], now), now);
      }
    case Issue(k, nonce) =>
  }

  // ---------- a call is its parts ----------

  /** The tables and tickets after a whole call with nothing in between. */
  function Whole(db: Db, key: Id, op: Op, nonce: Id, looked: int, moved: int, issued: int): (Db, set<Spec.Token>)
  {
    match op
    case Refuse(sid, device, reason, expected) => (Spec.RejectByPrimary(db, sid, device, reason, expected, moved).0, {})
    case Accept(sid, host, expected) =>
      var (db', r) := Spec.Accept(db, key, sid, host, expected, nonce, looked, moved, issued);
      (db', if r.Success? then {r.value.1} else {})
    case Reject(sid, host, reason, expected) => (Spec.Reject(db, sid, host, reason, expected, looked, moved).0, {})
    case End(sid, endpoint, role, reason, expected) =>
      (Spec.End(db, sid, endpoint, role, reason, expected, looked, moved).0, {})
    case Connected(sid, host, expected) => (Spec.MarkConnected(db, sid, host, expected, looked, moved).0, {})
    case Lost(sid, endpoint, role, expected) =>
      (Spec.MarkReconnecting(db, sid, endpoint, role, expected, looked, moved).0, {})
    case Refresh(sid, endpoint, role) =>
      var (db', r) := Spec.RefreshTicket(db, key, sid, endpoint, role, nonce, looked, issued);
      (db', TokenOf(r))
  }

  function Ticket(db: Db, key: Id, row: Session, endpoint: Id, role: Role, nonce: Id, now: int): (Db, set<Spec.Token>)
  {
    var (db', r) := Spec.Issue(db, key, row, endpoint, role, nonce, now);
    (db', TokenOf(r))
  }

  function Tail(db: Db, key: Id, rest: Option<Work>, nonce: Id, moved: int, issued: int): (Db, set<Spec.Token>)
  {
    if rest.None? then (db, {})
    else
      match rest.value
      case ToIssue(row, endpoint, role) => Ticket(db, key, row, endpoint, role, nonce, issued)
      case ToMove(_, _) =>
        var (db', next, _) := Next(db, rest.value, moved);
        if next.None? || next.value.op.sid !in db'.sessions then (db', {})
        else Ticket(db', key, db'.sessions[next.value.op.sid], next.value.op.host, Host, nonce, issued)
      case _ => (db, {})
  }

  /** The parts of a call, one after the other. */
  function Parts(db: Db, key: Id, op: Op, nonce: Id, looked: int, moved: int, issued: int): (Db, set<Spec.Token>)
  {
    var r := Read(db, op);
    if r.Failure? then (db, {})
    else
      var (db', rest) := Limit(db, op, r.value, looked, looked);
      Tail(db', key, if rest.Some? && rest.value.ToReread? then Reread(db', op, looked) else rest, nonce, moved, issued)
  }

  lemma SameLookup(db: Db, op: Op, now: int)
    requires !op.Refuse? && forall id :: id in db.sessions ==> db.sessions[id].id == id
    ensures var (role, endpoint) := Caller(op);
            var (db', r) := Spec.GetForEndpoint(db, op.sid, endpoint, role, now);
            && (Read(db, op).Failure? ==> db' == db && r == Failure(Read(db, op).error))
            && (Read(db, op).Success? ==>
                  var (db1, rest) := Limit(db, op, Read(db, op).value, now, now);
                  && db1 == db' && r.Success? && (rest.None? || !rest.value.ToReread?)
                  && rest == Rest(op, Evidence(r.value, now, Some(now))))
  {
  }

  /** The parts of a call, taken without anything in between, do what the service method does. */
  lemma CallIsItsParts(db: Db, key: Id, op: Op, nonce: Id, looked: int, moved: int, issued: int)
    requires forall id :: id in db.sessions ==> db.sessions[id].id == id
    ensures Whole(db, key, op, nonce, looked, moved, issued) == Parts(db, key, op, nonce, looked, moved, issued)
  {
    if !op.Refuse? {
      SameLookup(db, op, looked);
    }
  }

  /** World `w'` has these tables and these additional tickets, and is done with call `k`. */
  predicate Finished(w: World, w': World, k: nat, result: (Db, set<Spec.Token>))
  {
    w'.db == result.0 && w'.issued == w.issued + result.1 && w'.calls == w.calls - {k} && w'.key == w.key
  }

  /** The next step of a call, and what it leaves. */
  lemma OneStepOn(w: World, k: nat, now: int)
    ensures var w' := DoProceed(w, k, now);
            && w'.key == w.key && w'.issued == w.issued && w'.calls - {k} == w.calls - {k}
            && (if k in w.calls && !w.calls[k].ToIssue?
                then var (db, rest, _) := Next(w.db, w.calls[k], now);
                     w'.db == db && (k in w'.calls <==> rest.Some?) && (rest.Some? ==> w'.calls[k] == rest.value)
                else w'.db == w.db && w'.calls == w.calls)
  {
  }

  lemma FinishTicket(w: World, k: nat, nonce: Id, issued: int)
    requires k in w.calls ==> w.calls[k].ToIssue?
    ensures Finished(w, DoIssue(w, k, nonce, issued), k,
                     if k in w.calls
                     then Ticket(w.db, w.key, w.calls[k].row, w.calls[k].endpoint, w.calls[k].role, nonce, issued)
                     else (w.db, {}))
  {
  }

  /** What is left after a lookup, done in one go: the move, the row read after it, the ticket. */
  lemma FinishTail(w: World, k: nat, nonce: Id, moved: int, issued: int)
    requires k in w.calls ==> w.calls[k].ToMove? || w.calls[k].ToIssue?
    ensures Finished(w, DoIssue(DoProceed(DoProceed(w, k, moved), k, moved), k, nonce, issued), k,
                     Tail(w.db, w.key, if k in w.calls then Some(w.calls[k]) else None, nonce, moved, issued))
  {
    OneStepOn(w, k, moved);
    var w1 := DoProceed(w, k, moved);
    OneStepOn(w1, k, moved);
    var w2 := DoProceed(w1, k, moved);
    FinishTicket(w2, k, nonce, issued);
  }

  lemma BeginDb(w: World, op: Op, now: int)
    requires w.nextCall !in w.calls
    ensures var w', r := DoBegin(w, op, now), Read(w.db, op);
            && w'.db == w.db && w'.key == w.key && w'.issued == w.issued && w'.calls - {w.nextCall} == w.calls
            && (w.nextCall in w'.calls <==> r.Success?)
            && (r.Success? ==> w'.calls[w.nextCall] == ToLimit(op, r.value, now))
  {
  }

  /** A call that nothing interrupts changes the tables and issues tickets as the service method does, and leaves nothing. */
  lemma UninterruptedCall(w: World, op: Op, nonce: Id, looked: int, moved: int, issued: int)
    requires w.nextCall !in w.calls && forall id :: id in w.db.sessions ==> w.db.sessions[id].id == id
    ensures var k := w.nextCall;
            var w1 := DoProceed(DoBegin(w, op, looked), k, looked);
            Finished(w, DoIssue(DoProceed(DoProceed(w1, k, moved), k, moved), k, nonce, issued), k,
                     Whole(w.db, w.key, op, nonce, looked, moved, issued))
  {
    var k, w0 := w.nextCall, DoBegin(w, op, looked);
    BeginDb(w, op, looked);
    OneStepOn(w0, k, looked);
    if !op.Refuse? {
      SameLookup(w.db, op, looked);
    }
    assert w.calls - {k} == w.calls;
    FinishTail(DoProceed(w0, k, looked), k, nonce, moved, issued);
    CallIsItsParts(w.db, w.key, op, nonce, looked, moved, issued);
  }

  // ---------- every step is an evolution of the tables ----------

  lemma HostsOnlyThenPromote(db: Db, db1: Db, hostId: Id, clock: int, now: int)
    requires Legal(db, clock) && clock <= now && db1.sessions == db.sessions
    ensures Evolves(db, Spec.PromoteWaitingHost(db1, hostId, now), None, now)
  {
    PromoteEvolves(db1, hostId, clock, now);
  }

  lemma ServeEvolves(db: Db, call: Call, clock: int, now: int)
    requires Legal(db, clock) && clock <= now
    ensures Evolves(db, Serve(db, call, now), None, now)
  {
    match call
    case Register(row) =>
      HostsOnlyThenPromote(db, Spec.UpsertHost(db, row.(lastSeenAt := now)), row.id, clock, now);
    case Beat(hostId, caps) =>
      if Spec.Heartbeat(db, hostId, caps, now).1.Success? {
        var row := db.hosts[hostId].(lastSeenAt := now);
        var row' := if caps.Some? then row.(supportsView := caps.value.0, supportsInput := caps.value.1) else row;
        HostsOnlyThenPromote(db, Spec.UpsertHost(db, row'.(id := hostId)), hostId, clock, now);
      }
    case Request(newId, controller, hostId, wanted, primary) =>
      RequestEvolves(db, newId, controller, hostId, wanted, primary, now);
    case Get(sid, endpoint, role) => GetForEndpointValue(db, sid, endpoint, role, clock, now);
    case ListForHost(hostId) => ListEvolves(db, Some(hostId), WaitingConsent, clock, now);
    case ListForPrimary => ListEvolves(db, None, WaitingPrimary, clock, now);
    case Approve(sid, device, expected) => ApproveEvolves(db, sid, device, expected, clock, now);
  }

  /** The caller is a party of the session it reads. */
  predicate ActsFor(op: Op, s: Session)
  {
    var (role, endpoint) := Caller(op);
    op.Refuse? || (role.Controller? && s.controllerId == endpoint) || (role.Host? && s.hostId == endpoint)
  }

  lemma ReadValue(db: Db, op: Op)
    ensures var r := Read(db, op);
            r.Success? ==> op.sid in db.sessions && r.value == db.sessions[op.sid] && ActsFor(op, r.value)
  {
  }

  /** Comparing a limit commits nothing but the timeout of the very row that was read. */
  lemma LimitEvolves(db: Db, op: Op, read: Session, began: int, clock: int, now: int)
    requires Legal(db, clock) && clock <= now && Sound(read)
    requires op.sid in db.sessions && db.sessions[op.sid].revision == read.revision ==> db.sessions[op.sid] == read
    ensures Evolves(db, Limit(db, op, read, began, now).0, None, now)
  {
    if !op.Refuse? && Overdue(read, now) {
      if op.sid in db.sessions && db.sessions[op.sid].revision == read.revision {
        TimedOutFollows(read, now);
      }
      TransitionEvolves(db, op.sid, read.revision, {read.state}, Failed, None, NoTransport, Ttl(read.state).value.1, None, now);
    }
  }

  lemma MoveEvolves(db: Db, op: Op, e: Evidence, clock: int, now: int)
    requires Legal(db, clock) && Grounds(db, op.sid, e, now) && (op.Refuse? || InTime(e))
    ensures Evolves(db, Move(db, op, e.read, now).0, Some(e), now)
  {
    match op
    case Refuse(sid, _, reason, expected) => RefuseEvolves(db, sid, e, reason, expected, clock, now);
    case Accept(sid, _, expected) => AcceptEvolves(db, sid, e, expected, clock, now);
    case Reject(sid, _, reason, expected) => RejectEvolves(db, sid, e, reason, expected, clock, now);
    case End(sid, _, _, reason, expected) => EndEvolves(db, sid, e, reason, expected, clock, now);
    case Connected(sid, _, expected) => ConnectEvolves(db, sid, e, expected, clock, now);
    case Lost(sid, _, _, expected) => LoseEvolves(db, sid, e, expected, clock, now);
    case Refresh(_, _, _) =>
  }

  lemma LookupValue(db: Db, role: Role, endpoint: Id, sid: Id, clock: int, now: int)
    requires Legal(db, clock) && clock <= now && !role.OtherRole?
    ensures Lookup(db, role, endpoint, sid, now) == Spec.GetForEndpoint(db, sid, endpoint, role, now)
    ensures var (db', r) := Lookup(db, role, endpoint, sid, now);
            && db'.nonces == db.nonces && Evolves(db, db', None, now)
            && (r.Success? ==>
                  && sid in db'.sessions && r.value == db'.sessions[sid]
                  && (role.Controller? ==> r.value.controllerId == endpoint)
                  && (role.Host? ==> r.value.hostId == endpoint)
                  && (!IsTerminal(r.value.state) ==> db' == db))
  {
    GetForEndpointValue(db, sid, endpoint, role, clock, now);
  }

  lemma LeftEvolves(hub: Hub, db: Db, conn: Conn, sid: Id, clock: int, now: int)
    requires Legal(db, clock) && clock <= now && !conn.role.OtherRole?
    ensures Evolves(db, Left(hub, db, conn, sid, now).1, None, now)
    ensures Left(hub, db, conn, sid, now).1.nonces == db.nonces
  {
    LookupValue(db, conn.role, conn.endpoint, sid, clock, now);
    var found := Lookup(db, conn.role, conn.endpoint, sid, now).1;
    if found.Success? && IsConnected(found.value.state) {
      MarkReconnectingEvolves(db, sid, conn.endpoint, conn.role, found.value.revision, clock, now);
      GetForEndpointValue(db, sid, conn.endpoint, conn.role, clock, now);
    }
  }
}
