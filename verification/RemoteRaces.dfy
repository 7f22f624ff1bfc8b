/** Runs in which calls overtake one another between their parts, with what comes of it. */
module RemoteRaces {
  import opened Basics
  import opened RemoteModel
  import opened RemoteHubSpec
  import opened RemoteLifecycle
  import opened RemoteRuns
  import opened RemoteSafety
  import opened RemoteEpochs
  import Spec = RemoteSpec

  // ---------- one step of a run ----------

  lemma OneMore(w: World, es: seq<Event>, e: Event)
    ensures Exec(w, es + [e]) == After(Exec(w, es), e)
  {
    assert (es + [e])[..|es|] == es;
  }

  /** World `w'` is the world that run `es` leads to from an empty system whose clock stands at 0. */
  predicate Reached(key: Id, es: seq<Event>, w: World)
  {
    w == Exec(Init(key, 0), es) && w.key == key
  }

  lemma ReachedIsSafe(key: Id, es: seq<Event>, w: World)
    requires Reached(key, es, w)
    ensures Inv(w)
  {
    InitIsSafe(key, 0);
    RunsAreSafe(Init(key, 0), es);
  }

  lemma Step(key: Id, es: seq<Event>, w: World, at: int, step: RemoteRuns.Step)
    requires Reached(key, es, w) && w.clock <= at
    ensures Reached(key, es + [Event(at, step)], Do(w, step, at)) && Grows(w, Do(w, step, at))
  {
    OneMore(Init(key, 0), es, Event(at, step));
    ReachedIsSafe(key, es, w);
    DoGrows(w, step, at);
  }

  lemma LooksAtRow(db: Db, op: Op)
    requires !op.Refuse? && op.sid in db.sessions && Caller(op).1 != NONE
    requires Party(db.sessions[op.sid], Caller(op).0, Caller(op).1)
    ensures Read(db, op) == Success(db.sessions[op.sid])
  {
  }

  /** A call of the host or controller begins: it reads the row, and nothing changes yet. */
  lemma Begins(key: Id, es: seq<Event>, w: World, op: Op, now: int) returns (es': seq<Event>, w': World)
    requires Reached(key, es, w) && w.clock <= now && !op.Refuse? && op.sid in w.db.sessions
    requires Party(w.db.sessions[op.sid], Caller(op).0, Caller(op).1) && Caller(op).1 != NONE
    ensures Reached(key, es', w') && Grows(w, w') && w'.clock == now && w'.db == w.db && w'.nextCall == w.nextCall + 1
    ensures w'.calls == w.calls[w.nextCall := ToLimit(op, w.db.sessions[op.sid], now)]
    ensures SameSignals(w, w') && w'.issued == w.issued
  {
    Step(key, es, w, now, Begin(op));
    LooksAtRow(w.db, op);
    es', w' := es + [Event(now, Begin(op))], DoBegin(w, op, now);
  }

  /** A call takes its next step. */
  lemma Proceeds(key: Id, es: seq<Event>, w: World, k: nat, now: int) returns (es': seq<Event>, w': World)
    requires Reached(key, es, w) && w.clock <= now && k in w.calls && !w.calls[k].ToIssue?
    ensures Reached(key, es', w') && Grows(w, w') && w'.clock == now && w'.nextCall == w.nextCall
    ensures var (db, rest, _) := Next(w.db, w.calls[k], now);
            && w'.db == db && SameSignals(w, w') && w'.issued == w.issued
            && w'.calls == if rest.Some? then w.calls[k := rest.value] else w.calls - {k}
  {
    Step(key, es, w, now, Proceed(k));
    ProceededLeavesSignals(w, k, Next(w.db, w.calls[k], now), now);
    es', w' := es + [Event(now, Proceed(k))], DoProceed(w, k, now);
  }

  lemma LimitPasses(db: Db, op: Op, read: Session, began: int, now: int)
    requires !op.Refuse? && !Overdue(read, now)
    ensures Next(db, ToLimit(op, read, began), now) == (db, Rest(op, Evidence(read, began, Some(now))), None)
  {
  }

  // ---------- the session of the runs below ----------

  const HOST: Id := 1
  const PHONE: Id := 2
  const SESSION: Id := 3
  const NONCE: Id := 4

  /** The request of the primary device, or of another one, at time 0. */
  function Requested(primary: bool): Session
  {
    Session(SESSION, HOST, PHONE, primary, primary, if primary then WaitingConsent else WaitingPrimary, 1, ViewOnly, NoCaps,
            NoTransport, 0, 0, None, None, NoReason)
  }

  function Waiting(): Session
  {
    Requested(true)
  }

  function NegotiatingAt(t: int): Session
  {
    Spec.Moved(Waiting(), Negotiating, Some(ViewOnly), WebRtc, NoReason, t)
  }

  function ConnectedAt(s: Session, granted: Caps, t: int): Session
  {
    Spec.Moved(s, ConnectedView, Some(granted), WebRtc, NoReason, t)
  }

  function Established(): Session
  {
    ConnectedAt(NegotiatingAt(0), ViewOnly, 0)
  }

  function InterruptedAt(t: int): Session
  {
    Spec.Moved(Established(), Reconnecting, Some(ViewOnly), WebRtc, NoReason, t)
  }

  predicate Stands(w: World, s: Session)
  {
    SESSION in w.db.sessions && w.db.sessions[SESSION] == s
  }

  predicate NoSignals(w: World)
  {
    w.hub == Hub(map[], map[]) && w.next == 0 && w.inflight == map[]
  }

  /** The host registers and a phone asks to see its screen. */
  lemma Asked(key: Id, primary: bool) returns (es: seq<Event>, w: World)
    ensures Reached(key, es, w) && w.clock == 0 && w.key == key && Stands(w, Requested(primary)) && NoSignals(w)
    ensures w.db.nonces == map[] && w.calls == map[] && w.nextCall == 0 && w.issued == {} && w.sent == []
  {
    var w0 := Init(key, 0);
    assert Exec(w0, []) == w0;
    var register := Service(Register(HostRow(HOST, true, false, 0, None)));
    var request := Service(Request(SESSION, PHONE, HOST, [], primary));
    Step(key, [], w0, 0, register);
    var w1 := Do(w0, register, 0);
    assert w1.db.hosts == map[HOST := HostRow(HOST, true, false, 0, None)] && w1.db.sessions == map[];
    Step(key, [] + [Event(0, register)], w1, 0, request);
    es := [] + [Event(0, register)] + [Event(0, request)];
    w := Do(w1, request, 0);
  }

  /** A call that reads the standing row now and finds it within its limit. */
  lemma Looks(key: Id, es: seq<Event>, w: World, op: Op, now: int) returns (es': seq<Event>, w': World)
    requires Reached(key, es, w) && w.clock <= now && !op.Refuse? && op.sid in w.db.sessions
    requires var s := w.db.sessions[op.sid];
             && Party(s, Caller(op).0, Caller(op).1) && Caller(op).1 != NONE && !Overdue(s, now)
             && Rest(op, Glance(s, now)).Some?
    ensures Reached(key, es', w') && Grows(w, w') && w'.db == w.db && w'.clock == now
    ensures w'.calls == w.calls[w.nextCall := Rest(op, Glance(w.db.sessions[op.sid], now)).value]
    ensures w'.nextCall == w.nextCall + 1 && SameSignals(w, w') && w'.issued == w.issued
  {
    var es1, w1 := Begins(key, es, w, op, now);
    LimitPasses(w.db, op, w.db.sessions[op.sid], now, now);
    es', w' := Proceeds(key, es1, w1, w.nextCall, now);
    GrowsThrough(w, w1, w');
  }

  /** A revision that stood in a reached world is part of every later history. */
  lemma StoodOnce(key: Id, es: seq<Event>, w: World, w': World, s: Session)
    requires Reached(key, es, w) && Grows(w, w') && Stands(w, s) && s.id == SESSION
    ensures Revised(w'.hist, s)
  {
    ReachedIsSafe(key, es, w);
    RowRevised(w, SESSION);
    assert IsPrefix(w.hist[SESSION], w'.hist[SESSION]);
  }

  lemma StillRevised(w: World, w': World, s: Session)
    requires Grows(w, w') && Revised(w.hist, s)
    ensures Revised(w'.hist, s)
  {
    assert IsPrefix(w.hist[s.id], w'.hist[s.id]);
  }

  // ---------- a limit that passes between two readings of the clock ----------

  /** The host's acceptance reads the row at time 0 and writes at time `t`. */
  lemma AcceptedAt(key: Id, t: int) returns (es: seq<Event>, w: World)
    requires t >= 0
    ensures Reached(key, es, w) && w.clock == t && Stands(w, NegotiatingAt(t)) && Revised(w.hist, Waiting())
    ensures NoSignals(w) && w.nextCall == 1 && w.db.nonces == map[] && w.issued == {}
    ensures w.calls == map[0 := ToFetch(Accept(SESSION, HOST, 0))]
  {
    var es1, w1 := AcceptBegun(key);
    AcceptValue(w1.db, Accept(SESSION, HOST, 0), Glance(Waiting(), 0), t);
    es, w := Proceeds(key, es1, w1, 0, t);
    StoodOnce(key, es1, w1, w, Waiting());
  }

  lemma AcceptValue(db: Db, op: Op, e: Evidence, t: int)
    requires SESSION in db.sessions && db.sessions[SESSION] == Waiting() && op == Accept(SESSION, HOST, 0) && e.read == Waiting()
    ensures Next(db, ToMove(op, e), t)
            == (db.(sessions := db.sessions[SESSION := NegotiatingAt(t)]), Some(ToFetch(op)), Some(e))
  {
  }

  lemma AcceptBegun(key: Id) returns (es: seq<Event>, w: World)
    ensures Reached(key, es, w) && w.clock == 0 && Stands(w, Waiting()) && NoSignals(w) && w.nextCall == 1
    ensures w.calls == map[0 := ToMove(Accept(SESSION, HOST, 0), Glance(Waiting(), 0))]
    ensures w.db.nonces == map[] && w.issued == {}
  {
    var es0, w0 := Asked(key, true);
    es, w := Looks(key, es0, w0, Accept(SESSION, HOST, 0), 0);
  }

  /** The host's report that the media session `s` is connected. */
  lemma ConnectValue(db: Db, e: Evidence, now: int)
    requires var s := e.read;
             && s.id in db.sessions && db.sessions[s.id] == s && (s.state.Negotiating? || s.state.Reconnecting?)
             && s.revision > 0 && s.granted == ViewOnly
    ensures var s := e.read;
            Next(db, ToMove(Connected(s.id, HOST, 0), e), now)
            == (db.(sessions := db.sessions[s.id := ConnectedAt(s, ViewOnly, now)]), None, Some(e))
  {
  }

  /** The session can be connected by its host at once. */
  predicate Connectable(s: Session)
  {
    && (s.state.Negotiating? || s.state.Reconnecting?) && s.hostId == HOST && s.id == SESSION && s.revision > 0
    && s.granted == ViewOnly
  }

  lemma ConnectBegun(key: Id, es: seq<Event>, w: World, s: Session) returns (es': seq<Event>, w': World)
    requires Reached(key, es, w) && Stands(w, s) && Connectable(s) && !Overdue(s, w.clock)
    ensures Reached(key, es', w') && Grows(w, w') && w'.clock == w.clock && Stands(w', s)
    ensures SameSignals(w, w') && w'.issued == w.issued && w'.nextCall == w.nextCall + 1
    ensures w'.calls == w.calls[w.nextCall := ToMove(Connected(SESSION, HOST, 0), Glance(s, w.clock))]
  {
    es', w' := Looks(key, es, w, Connected(SESSION, HOST, 0), w.clock);
  }

  lemma ConnectEnds(key: Id, es: seq<Event>, w: World, k: nat, s: Session, now: int) returns (es': seq<Event>, w': World)
    requires Reached(key, es, w) && Stands(w, s) && Connectable(s) && w.clock <= now
    requires k in w.calls && w.calls[k] == ToMove(Connected(SESSION, HOST, 0), Glance(s, w.clock))
    ensures Reached(key, es', w') && Grows(w, w') && w'.clock == now && Stands(w', ConnectedAt(s, ViewOnly, now))
    ensures SameSignals(w, w') && w'.issued == w.issued && w'.nextCall == w.nextCall && w'.calls == w.calls - {k}
  {
    ConnectValue(w.db, Glance(s, w.clock), now);
    es', w' := Proceeds(key, es, w, k, now);
  }

  /** The host reports the connection: the call reads the row now, writes at time `now`, and nothing comes in between. */
  lemma Connects(key: Id, es: seq<Event>, w: World, s: Session, now: int) returns (es': seq<Event>, w': World)
    requires Reached(key, es, w) && Stands(w, s) && Connectable(s) && !Overdue(s, w.clock) && w.clock <= now
    ensures Reached(key, es', w') && Grows(w, w') && w'.clock == now && Stands(w', ConnectedAt(s, ViewOnly, now))
    ensures SameSignals(w, w') && w'.issued == w.issued && w'.nextCall == w.nextCall + 1
  {
    var es1, w1 := ConnectBegun(key, es, w, s);
    es', w' := ConnectEnds(key, es1, w1, w.nextCall, s, now);
    GrowsThrough(w, w1, w');
  }

  /** For every time from the limit on: a session gets connected that spent that long waiting for consent. */
  lemma OverstayedConsent(key: Id, t: int) returns (es: seq<Event>, w: World)
    requires t >= 60 * SECOND
    ensures Reached(key, es, w) && Revised(w.hist, Waiting()) && Revised(w.hist, NegotiatingAt(t))
    ensures SESSION in w.db.sessions && IsConnected(w.db.sessions[SESSION].state)
    ensures NegotiatingAt(t).updatedAt - Waiting().updatedAt == t
  {
    var es1, w1 := AcceptedAt(key, t);
    es, w := Connects(key, es1, w1, NegotiatingAt(t), t);
    StillRevised(w1, w, Waiting());
    StoodOnce(key, es1, w1, w, NegotiatingAt(t));
  }

  /** The same for negotiating. */
  lemma OverstayedNegotiation(key: Id, t: int) returns (es: seq<Event>, w: World)
    requires t >= 2 * MINUTE
    ensures Reached(key, es, w) && Revised(w.hist, NegotiatingAt(0)) && Stands(w, ConnectedAt(NegotiatingAt(0), ViewOnly, t))
    ensures ConnectedAt(NegotiatingAt(0), ViewOnly, t).updatedAt - NegotiatingAt(0).updatedAt == t
  {
    var es1, w1 := AcceptedAt(key, 0);
    es, w := Connects(key, es1, w1, NegotiatingAt(0), t);
    StoodOnce(key, es1, w1, w, NegotiatingAt(0));
  }

  lemma InterruptionBegun(key: Id) returns (es: seq<Event>, w: World, k: nat)
    ensures Reached(key, es, w) && w.clock == 0 && Stands(w, Established())
    ensures k in w.calls && w.calls[k] == ToMove(Lost(SESSION, HOST, Host, 0), Glance(Established(), 0))
  {
    var es0, w0 := AcceptedAt(key, 0);
    var es1, w1 := Connects(key, es0, w0, NegotiatingAt(0), 0);
    k := w1.nextCall;
    es, w := Looks(key, es1, w1, Lost(SESSION, HOST, Host, 0), 0);
  }

  lemma Interruption(key: Id) returns (es: seq<Event>, w: World)
    ensures Reached(key, es, w) && w.clock == 0 && Stands(w, InterruptedAt(0))
  {
    var es1, w1, k := InterruptionBegun(key);
    LoseValue(w1.db, Glance(Established(), 0), 0);
    es, w := Proceeds(key, es1, w1, k, 0);
  }

  /** The same for reconnecting. */
  lemma OverstayedReconnection(key: Id, t: int) returns (es: seq<Event>, w: World)
    requires t >= 30 * SECOND
    ensures Reached(key, es, w) && Revised(w.hist, InterruptedAt(0)) && Stands(w, ConnectedAt(InterruptedAt(0), ViewOnly, t))
    ensures ConnectedAt(InterruptedAt(0), ViewOnly, t).updatedAt - InterruptedAt(0).updatedAt == t
  {
    var es1, w1 := Interruption(key);
    es, w := Connects(key, es1, w1, InterruptedAt(0), t);
    StoodOnce(key, es1, w1, w, InterruptedAt(0));
  }

  // ---------- a limit that is not the one of the row that is moved ----------

  /** The host's call has read the request before the primary device approved it, and names the revision of the approval. */
  lemma ReadBeforeApproval(key: Id) returns (es: seq<Event>, w: World)
    ensures Reached(key, es, w) && w.clock == 0 && Stands(w, Requested(false))
    ensures 0 in w.calls && w.calls[0] == ToLimit(Accept(SESSION, HOST, 2), Requested(false), 0)
  {
    var es0, w0 := Asked(key, false);
    es, w := Begins(key, es0, w0, Accept(SESSION, HOST, 2), 0);
  }

  lemma ApprovedMeanwhile(key: Id) returns (es: seq<Event>, w: World)
    ensures Reached(key, es, w) && w.clock == SECOND && Stands(w, Spec.Approved(Requested(false), SECOND))
    ensures 0 in w.calls && w.calls[0] == ToLimit(Accept(SESSION, HOST, 2), Requested(false), 0)
  {
    var es0, w0 := ReadBeforeApproval(key);
    var approve := Service(Approve(SESSION, PHONE, 0));
    Step(key, es0, w0, SECOND, approve);
    es, w := es0 + [Event(SECOND, approve)], Do(w0, approve, SECOND);
  }

  lemma ComparedLate(key: Id) returns (es: seq<Event>, w: World)
    ensures Reached(key, es, w) && w.clock == 90 * SECOND && Stands(w, Spec.Approved(Requested(false), SECOND))
    ensures var e := Evidence(Requested(false), 0, Some(90 * SECOND));
            0 in w.calls && w.calls[0] == ToMove(Accept(SESSION, HOST, 2), e)
  {
    var es0, w0 := ApprovedMeanwhile(key);
    LimitPasses(w0.db, Accept(SESSION, HOST, 2), Requested(false), 0, 90 * SECOND);
    es, w := Proceeds(key, es0, w0, 0, 90 * SECOND);
  }

  lemma LateAcceptValue(db: Db, e: Evidence, now: int)
    requires SESSION in db.sessions && db.sessions[SESSION] == Spec.Approved(Requested(false), SECOND)
    requires e.read == Requested(false)
    ensures var (db', rest, basis) := Next(db, ToMove(Accept(SESSION, HOST, 2), e), now);
            && basis == Some(e) && SESSION in db'.sessions
            && var s := db'.sessions[SESSION];
               s != db.sessions[SESSION] && s.state.Negotiating? && s.updatedAt == now
  {
  }

  /** A step of a call that writes a new row adds it to the history with what it went by. */
  lemma RevisionAdded(w: World, k: nat, now: int)
    requires Tables(w) && SESSION in w.db.sessions && k in w.calls && !w.calls[k].ToIssue?
    requires var (db, _, _) := Next(w.db, w.calls[k], now);
             SESSION in db.sessions && db.sessions[SESSION] != w.db.sessions[SESSION]
    ensures var (db, _, basis) := Next(w.db, w.calls[k], now);
            && SESSION in DoProceed(w, k, now).hist
            && DoProceed(w, k, now).hist[SESSION] ==
               w.hist[SESSION] + [Stamp(w.db.sessions[SESSION], db.sessions[SESSION], basis)]
  {
  }

  /** The session waited `t` for consent, and the call that accepted it compared a limit when it wrote. */
  predicate AcceptedAfter(w: World, t: int)
  {
    && SESSION in w.hist && |w.hist[SESSION]| == 3
    && var a, v := w.hist[SESSION][1].row, w.hist[SESSION][2];
       && a.state.WaitingConsent? && v.row.state.Negotiating? && v.row.updatedAt - a.updatedAt == t
       && v.basis.checkedAt == Some(v.row.updatedAt)
  }

  lemma LateAcceptRecorded(w: World)
    requires Tables(w) && Stands(w, Spec.Approved(Requested(false), SECOND)) && 0 in w.calls
    requires w.calls[0] == ToMove(Accept(SESSION, HOST, 2), Evidence(Requested(false), 0, Some(w.clock)))
    ensures AcceptedAfter(DoProceed(w, 0, w.clock), w.clock - SECOND)
  {
    RowRevised(w, SESSION);
    LateAcceptValue(w.db, w.calls[0].basis, w.clock);
    RevisionAdded(w, 0, w.clock);
  }

  /**
   * A request is accepted 89 seconds after it began to wait for consent although the call writes at the very time at which
   * it compares a limit: it compares that of the revision before, which it had read.
   */
  lemma LimitOfAnotherRevision(key: Id) returns (es: seq<Event>, w: World)
    ensures Reached(key, es, w) && AcceptedAfter(w, 89 * SECOND)
  {
    var es0, w0 := ComparedLate(key);
    ReachedIsSafe(key, es0, w0);
    LateAcceptRecorded(w0);
    Step(key, es0, w0, w0.clock, Proceed(0));
    es, w := es0 + [Event(w0.clock, Proceed(0))], DoProceed(w0, 0, w0.clock);
  }

  // ---------- a granted list that is taken back ----------

  lemma BothBegun(key: Id) returns (es: seq<Event>, w: World)
    ensures Reached(key, es, w) && w.clock == 0 && Stands(w, Waiting())
    ensures w.calls == map[0 := ToMove(Connected(SESSION, HOST, 2), Glance(Waiting(), 0)),
                           1 := ToMove(Accept(SESSION, HOST, 0), Glance(Waiting(), 0))]
  {
    var es0, w0 := Asked(key, true);
    var es1, w1 := ReadEarly(key, es0, w0);
    es, w := Looks(key, es1, w1, Accept(SESSION, HOST, 0), 0);
  }

  lemma ReadEarly(key: Id, es: seq<Event>, w: World) returns (es': seq<Event>, w': World)
    requires Reached(key, es, w) && w.clock == 0 && Stands(w, Waiting()) && w.calls == map[] && w.nextCall == 0
    ensures Reached(key, es', w') && w'.clock == 0 && Stands(w', Waiting())
    ensures w'.calls == map[0 := ToMove(Connected(SESSION, HOST, 2), Glance(Waiting(), 0))] && w'.nextCall == 1
  {
    es', w' := Looks(key, es, w, Connected(SESSION, HOST, 2), 0);
  }

  lemma StaleConnectValue(db: Db, e: Evidence)
    requires SESSION in db.sessions && db.sessions[SESSION] == NegotiatingAt(0) && e.read == Waiting()
    ensures Next(db, ToMove(Connected(SESSION, HOST, 2), e), 0)
            == (db.(sessions := db.sessions[SESSION := ConnectedAt(NegotiatingAt(0), NoCaps, 0)]), None, Some(e))
  {
  }

  /** A call that read the row before the host accepted, and names the revision the acceptance made, takes the grant back. */
  lemma GrantTakenBack(key: Id) returns (es: seq<Event>, w: World)
    ensures Reached(key, es, w) && Revised(w.hist, NegotiatingAt(0)) && NegotiatingAt(0).granted == ViewOnly
    ensures SESSION in w.db.sessions
    ensures var s := w.db.sessions[SESSION];
            IsConnected(s.state) && s.requested == ViewOnly && s.granted == NoCaps
  {
    var es1, w1 := AcceptedSince(key);
    StaleConnectValue(w1.db, Glance(Waiting(), 0));
    es, w := Proceeds(key, es1, w1, 0, 0);
    StoodOnce(key, es1, w1, w, NegotiatingAt(0));
  }

  lemma AcceptedSince(key: Id) returns (es: seq<Event>, w: World)
    ensures Reached(key, es, w) && w.clock == 0 && Stands(w, NegotiatingAt(0))
    ensures 0 in w.calls && w.calls[0] == ToMove(Connected(SESSION, HOST, 2), Glance(Waiting(), 0))
  {
    var es2, w2 := BothBegun(key);
    AcceptValue(w2.db, Accept(SESSION, HOST, 0), Glance(Waiting(), 0), 0);
    es, w := Proceeds(key, es2, w2, 1, 0);
  }

  // ---------- a message that is overtaken by a reconnection ----------

  function HostTicket(key: Id): Spec.Token
  {
    var claims := Spec.ClaimsFor(NegotiatingAt(0), HOST, Host, NONCE, 0);
    Spec.Token(claims, Spec.Mac(key, claims))
  }

  function TicketRow(): NonceRow
  {
    NonceRow(SESSION, HOST, Host, 2, Spec.TICKET_TTL, None)
  }

  function Ready(key: Id): Signal
  {
    Signal(PROTOCOL_VERSION, ClientReady, SESSION, 2, Some(HostTicket(key)), None, None)
  }

  /** The same message as it is forwarded, without the ticket. */
  function Announced(): Signal
  {
    AnnouncedAt(2)
  }

  function AnnouncedAt(n: int): Signal
  {
    Signal(PROTOCOL_VERSION, ClientReady, SESSION, n, None, None, None)
  }

  function AnOffer(): Signal
  {
    OfferAt(2)
  }

  function OfferAt(n: int): Signal
  {
    Signal(PROTOCOL_VERSION, Offer, SESSION, n, None, Some(Description(Offer, 1, 0)), None)
  }

  /** Accept reads the row it moved and is about to issue the host's ticket. */
  lemma Fetched(key: Id) returns (es: seq<Event>, w: World)
    ensures Reached(key, es, w) && w.clock == 0 && Stands(w, NegotiatingAt(0)) && NoSignals(w) && w.nextCall == 1
    ensures w.db.nonces == map[] && w.issued == {} && w.calls == map[0 := ToIssue(NegotiatingAt(0), HOST, Host)]
  {
    var es1, w1 := AcceptedAt(key, 0);
    es, w := Proceeds(key, es1, w1, 0, 0);
  }

  /** The host's ticket has been issued and nobody has connected yet. */
  lemma Ticketed(key: Id) returns (es: seq<Event>, w: World)
    ensures Reached(key, es, w) && w.clock == 0 && Stands(w, NegotiatingAt(0)) && NoSignals(w) && w.nextCall == 1
    ensures w.key == key && w.db.nonces == map[NonceHash(NONCE) := TicketRow()] && w.issued == {HostTicket(key)}
  {
    var es1, w1 := Fetched(key);
    Step(key, es1, w1, 0, Issue(0, NONCE));
    IssueValue(w1.db, key);
    es, w := es1 + [Event(0, Issue(0, NONCE))], DoIssue(w1, 0, NONCE, 0);
  }

  lemma IssueValue(db: Db, key: Id)
    requires db.nonces == map[]
    ensures var (db', r) := Spec.Issue(db, key, NegotiatingAt(0), HOST, Host, NONCE, 0);
            db' == db.(nonces := map[NonceHash(NONCE) := TicketRow()]) && r == Success(HostTicket(key))
  {
  }

  predicate HostConn(w: World, authorized: map<Id, int>)
  {
    0 in w.hub.conns && w.hub.conns[0].role == Host && w.hub.conns[0].endpoint == HOST && w.hub.conns[0].authorized == authorized
  }

  lemma HostJoined(key: Id) returns (es: seq<Event>, w: World)
    ensures Reached(key, es, w) && w.clock == 0 && Stands(w, NegotiatingAt(0)) && HostConn(w, map[]) && w.inflight == map[]
    ensures w.key == key && w.db.nonces == map[NonceHash(NONCE) := TicketRow()] && w.issued == {HostTicket(key)}
  {
    var es1, w1 := Ticketed(key);
    Step(key, es1, w1, 0, JoinHub(Host, Some(HOST)));
    es, w := es1 + [Event(0, JoinHub(Host, Some(HOST)))], DoJoin(w1, Host, Some(HOST), 0);
  }

  lemma TicketIsTaken(db: Db, key: Id)
    requires SESSION in db.sessions && db.sessions[SESSION] == NegotiatingAt(0)
    requires db.nonces == map[NonceHash(NONCE) := TicketRow()]
    ensures var (db', r) := Spec.ConsumeTicket(db, key, HostTicket(key), SESSION, HOST, Host, 2, 0);
            r.Success? && db'.sessions == db.sessions
  {
    assert Spec.Unix(Spec.TICKET_TTL) == 90;
  }

  lemma ReadyIsAdmitted(hub: Hub, db: Db, key: Id)
    requires 0 in hub.conns && hub.conns[0].role == Host && hub.conns[0].endpoint == HOST && hub.conns[0].authorized == map[]
    requires SESSION in db.sessions && db.sessions[SESSION] == NegotiatingAt(0)
    requires db.nonces == map[NonceHash(NONCE) := TicketRow()]
    ensures var (hub', db', r) := Admit(hub, db, key, 0, Ready(key), 0);
            && r == Success(Announced()) && db'.sessions == db.sessions
            && hub' == hub.(conns := hub.conns[0 := hub.conns[0].(authorized := map[SESSION := 2])])
  {
    TicketIsTaken(db, key);
  }

  lemma HostReady(key: Id) returns (es: seq<Event>, w: World)
    ensures Reached(key, es, w) && w.clock == 0 && Stands(w, NegotiatingAt(0)) && HostConn(w, map[SESSION := 2])
    ensures 0 in w.inflight && w.inflight[0] == ToCheck(Announced())
  {
    var es1, w1 := HostJoined(key);
    Step(key, es1, w1, 0, Receive(0, Ready(key)));
    ReadyIsAdmitted(w1.hub, w1.db, key);
    es := es1 + [Event(0, Receive(0, Ready(key)))];
    w := Received(w1, 0, Ready(key), Admit(w1.hub, w1.db, w1.key, 0, Ready(key), 0), 0);
  }

  /** The check of the message in flight passes now. */
  lemma Passes(key: Id, es: seq<Event>, w: World, n: int, m: Signal, s: Session) returns (es': seq<Event>, w': World)
    requires Reached(key, es, w) && w.clock == 0 && Stands(w, s) && s.id == SESSION && s.hostId == HOST && !Overdue(s, 0)
    requires HostConn(w, map[SESSION := n]) && 0 in w.inflight && w.inflight[0] == ToCheck(m)
    requires m.Signal? && m.sessionId == SESSION && Current(s, m.revision)
    ensures Reached(key, es', w') && w'.clock == 0 && Stands(w', s) && HostConn(w', map[SESSION := n])
    ensures 0 in w'.inflight && w'.inflight[0] == ToSend(m, s) && w'.nextCall == w.nextCall
  {
    Step(key, es, w, 0, CheckSignal(0));
    assert Check(w.db, w.hub.conns[0], m, 0) == (w.db, Success(s));
    es', w' := es + [Event(0, CheckSignal(0))], Checked(w, 0, Check(w.db, w.hub.conns[0], m, 0), 0);
  }

  lemma Sends(key: Id, es: seq<Event>, w: World, n: int, m: Signal, s: Session) returns (es': seq<Event>, w': World)
    requires Reached(key, es, w) && w.clock == 0 && Stands(w, s)
    requires HostConn(w, map[SESSION := n]) && 0 in w.inflight && w.inflight[0] == ToSend(m, s)
    ensures Reached(key, es', w') && w'.clock == 0 && Stands(w', s) && HostConn(w', map[SESSION := n]) && 0 !in w'.inflight
    ensures w'.sent == w.sent + [Sent(0, Host, HOST, m, s, (Controller, s.controllerId))]
  {
    Step(key, es, w, 0, SendSignal(0));
    es', w' := es + [Event(0, SendSignal(0))], DoSend(w, 0, 0);
  }

  lemma HostAuthorized(key: Id) returns (es: seq<Event>, w: World)
    ensures Reached(key, es, w) && w.clock == 0 && Stands(w, NegotiatingAt(0)) && HostConn(w, map[SESSION := 2])
    ensures 0 !in w.inflight
  {
    var es1, w1 := HostReady(key);
    var es2, w2 := Passes(key, es1, w1, 2, Announced(), NegotiatingAt(0));
    es, w := Sends(key, es2, w2, 2, Announced(), NegotiatingAt(0));
  }

  lemma HostConnected(key: Id) returns (es: seq<Event>, w: World)
    ensures Reached(key, es, w) && w.clock == 0 && Stands(w, Established()) && HostConn(w, map[SESSION := 2])
    ensures 0 !in w.inflight
  {
    var es1, w1 := HostAuthorized(key);
    es, w := Connects(key, es1, w1, NegotiatingAt(0), 0);
  }

  /** The host makes an offer within the epoch of its ticket. */
  lemma OfferReceived(key: Id) returns (es: seq<Event>, w: World)
    ensures Reached(key, es, w) && w.clock == 0 && Stands(w, Established()) && HostConn(w, map[SESSION := 2])
    ensures 0 in w.inflight && w.inflight[0] == ToCheck(AnOffer())
  {
    var es1, w1 := HostConnected(key);
    Step(key, es1, w1, 0, Receive(0, AnOffer()));
    assert Admit(w1.hub, w1.db, w1.key, 0, AnOffer(), 0) == (w1.hub, w1.db, Success(AnOffer()));
    es, w := es1 + [Event(0, Receive(0, AnOffer()))], Received(w1, 0, AnOffer(), (w1.hub, w1.db, Success(AnOffer())), 0);
  }

  lemma OfferChecked(key: Id) returns (es: seq<Event>, w: World)
    ensures Reached(key, es, w) && w.clock == 0 && Stands(w, Established())
    ensures 0 in w.inflight && w.inflight[0] == ToSend(AnOffer(), Established())
  {
    var es1, w1 := OfferReceived(key);
    es, w := Passes(key, es1, w1, 2, AnOffer(), Established());
  }

  lemma LoseValue(db: Db, e: Evidence, now: int)
    requires SESSION in db.sessions && db.sessions[SESSION] == Established() && e.read == Established()
    ensures Next(db, ToMove(Lost(SESSION, HOST, Host, 0), e), now)
            == (db.(sessions := db.sessions[SESSION := InterruptedAt(now)]), None, Some(e))
  {
  }

  lemma LossBegun(key: Id) returns (es: seq<Event>, w: World, k: nat)
    ensures Reached(key, es, w) && w.clock == 0 && Stands(w, Established())
    ensures 0 in w.inflight && w.inflight[0] == ToSend(AnOffer(), Established())
    ensures k in w.calls && w.calls[k] == ToMove(Lost(SESSION, HOST, Host, 0), Glance(Established(), 0))
  {
    var es1, w1 := OfferChecked(key);
    k := w1.nextCall;
    es, w := Looks(key, es1, w1, Lost(SESSION, HOST, Host, 0), 0);
  }

  lemma LostMeanwhile(key: Id) returns (es: seq<Event>, w: World)
    ensures Reached(key, es, w) && w.clock == 0 && Stands(w, InterruptedAt(0))
    ensures 0 in w.inflight && w.inflight[0] == ToSend(AnOffer(), Established())
  {
    var es1, w1, k := LossBegun(key);
    LoseValue(w1.db, Glance(Established(), 0), 0);
    es, w := Proceeds(key, es1, w1, k, 0);
  }

  /**
   * An offer that passed its check is sent although the session has begun to reconnect in the meantime: run `es` reaches
   * a world in which the session reconnects at revision 4, and the next step sends an offer of revision 2.
   */
  lemma OvertakenDelivery(key: Id) returns (es: seq<Event>, w: World, next: Event)
    ensures Reached(key, es, w) && Stands(w, InterruptedAt(0)) && InterruptedAt(0).state.Reconnecting? && InterruptedAt(0).revision == 4
    ensures var w' := Exec(Init(key, 0), es + [next]);
            |w'.sent| == |w.sent| + 1 && w'.sent[|w.sent|].signal == AnOffer() && Outdated(InterruptedAt(0), AnOffer())
  {
    es, w := LostMeanwhile(key);
    next := Event(w.clock, SendSignal(0));
    ReachedIsSafe(key, es, w);
    SendsNext(w, 0);
    OneMore(w, [], next);
    OneMore(Init(key, 0), es, next);
  }
}
