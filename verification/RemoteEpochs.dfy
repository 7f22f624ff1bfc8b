/** The main results about runs: tickets are single-use, and signaling stays inside the current connection epoch. */
module RemoteEpochs {
  import opened Basics
  import opened RemoteModel
  import opened RemoteHubSpec
  import opened RemoteRuns
  import opened RemoteSafety
  import Spec = RemoteSpec

  // ---------- tickets ----------

  /** Presenting ticket `t` on connection `c` at this moment is refused. */
  predicate Refused(w: World, c: nat, m: Signal, now: int)
    requires c in w.hub.conns
  {
    Admit(w.hub, w.db, w.key, c, m, now).2.Failure?
  }

  /** A ticket accepted once is refused for ever after, by whatever connection it is presented. */
  lemma TicketsAreSingleUse(w: World, es: seq<Event>, c: nat, m: Signal, now: int)
    requires Inv(w) && m.Signal? && m.ticket.Some? && m.ticket.value in w.used
    requires c in Exec(w, es).hub.conns && Exec(w, es).clock <= now
    ensures Refused(Exec(w, es), c, m, now)
  {
    RunsGrow(w, es);
    var w' := Exec(w, es);
    SpentStaysSpent(w', m.ticket.value, now);
    AdmitRefusesSpent(w'.hub, w'.db, w'.key, c, m, now);
  }

  lemma SpentStaysSpent(w: World, t: Spec.Token, now: int)
    requires Tickets(w) && t in w.used && w.clock <= now
    ensures t.Token? && Spent(w.db, now, t)
  {
    UnixMonotone(w.clock, now);
  }

  lemma AdmitRefusesSpent(hub: Hub, db: Db, key: Id, c: nat, m: Signal, now: int)
    requires c in hub.conns && m.Signal? && m.ticket.Some? && m.ticket.value.Token? && Spent(db, now, m.ticket.value)
    ensures Admit(hub, db, key, c, m, now).2.Failure?
  {
    AdmitFacts(hub, db, key, c, m, now);
    if m.kind.ClientReady? {
      AdmittedTicket(hub, db, key, c, m, now);
    }
  }

  /** Once a session has moved past the revision a ticket names, the ticket is refused for ever. */
  lemma TicketsDieWithTheirRevision(w: World, es: seq<Event>, c: nat, m: Signal, now: int)
    requires Inv(w) && m.Signal? && m.ticket.Some? && m.ticket.value.Token?
    requires var p := m.ticket.value.payload;
             p.sessionId in w.db.sessions && p.revision < w.db.sessions[p.sessionId].revision
    requires c in Exec(w, es).hub.conns && Exec(w, es).clock <= now
    ensures Refused(Exec(w, es), c, m, now)
  {
    var sid := m.ticket.value.payload.sessionId;
    RowsOnlyAdvance(w, es, sid);
    var w' := Exec(w, es);
    AdmitFacts(w'.hub, w'.db, w'.key, c, m, now);
    if m.kind.ClientReady? {
      AdmittedTicket(w'.hub, w'.db, w'.key, c, m, now);
    }
  }

  /** Only the party a ticket was issued to can use it, and only while its revision is current. */
  lemma TicketsServeTheirParty(w: World, c: nat, m: Signal, now: int)
    requires Inv(w) && w.clock <= now && c in w.hub.conns && Unforged(w, m)
    requires m.Signal? && m.kind.ClientReady? && !Refused(w, c, m, now)
    ensures m.ticket.Some? && m.ticket.value in w.issued && m.ticket.value !in w.used
    ensures m.sessionId in w.db.sessions
    ensures var s, conn := w.db.sessions[m.sessionId], w.hub.conns[c];
            && s.revision == m.revision && Spec.TakesTickets(s)
            && Party(s, conn.role, conn.endpoint)
            && m.ticket.value.payload.capabilities == s.granted
  {
    AdmitFacts(w.hub, w.db, w.key, c, m, now);
    AdmittedTicket(w.hub, w.db, w.key, c, m, now);
    var t := m.ticket.value;
    assert TicketOk(w.key, w.hist, w.db, w.clock, t);
    RowRevised(w, m.sessionId);
    if t in w.used {
      SpentStaysSpent(w, t, now);
    }
  }

  // ---------- rows ----------

  /** A later row is a later revision of the same request; the same revision, and a terminal one, is the same row. */
  predicate RowAdvances(w: World, w': World, sid: Id)
    requires sid in w.db.sessions
  {
    && sid in w'.db.sessions
    && var s, s' := w.db.sessions[sid], w'.db.sessions[sid];
       && s'.revision >= s.revision && SameRequest(s, s') && Revised(w'.hist, s)
       && (s'.revision == s.revision || IsTerminal(s.state) ==> s' == s)
  }

  lemma RowAdvancesBetween(w: World, w': World, sid: Id)
    requires Tables(w) && Tables(w') && HistGrows(w.hist, w'.hist) && sid in w.db.sessions
    ensures RowAdvances(w, w', sid)
  {
    RowRevised(w, sid);
    assert IsPrefix(w.hist[sid], w'.hist[sid]);
    LaterRow(sid, w'.hist[sid], |w.hist[sid]| - 1);
  }

  lemma RowsOnlyAdvance(w: World, es: seq<Event>, sid: Id)
    requires Inv(w) && sid in w.db.sessions
    ensures RowAdvances(w, Exec(w, es), sid)
  {
    RunsGrow(w, es);
    RowAdvancesBetween(w, Exec(w, es), sid);
  }

  lemma LaterRow(id: Id, h: History, i: nat)
    requires LegalHistory(id, h) && i < |h|
    ensures h[i].row.revision == i + 1 && Last(h).revision == |h| && SameRequest(h[i].row, Last(h))
    ensures IsTerminal(h[i].row.state) ==> i == |h| - 1
  {
    VersionFacts(id, h, i);
    VersionFacts(id, h, |h| - 1);
    if i < |h| - 1 {
      TerminalIsLast(id, h, i);
    }
  }

  // ---------- epochs ----------

  /** At world `w` the message had already been checked, against row `s`, and was about to be sent. */
  predicate InFlight(w: World, c: nat, m: Signal, s: Session)
  {
    c in w.inflight && w.inflight[c] == ToSend(m, s)
  }

  /** `s` is not older than what world `w` stores for the session. */
  predicate NotOlder(w: World, m: Signal, s: Session)
  {
    m.Signal? && m.sessionId in w.db.sessions ==> s.revision >= w.db.sessions[m.sessionId].revision
  }

  predicate StagesTraced(w0: World, inflight: map<nat, Stage>)
  {
    forall c :: c in inflight && inflight[c].ToSend? ==>
      InFlight(w0, c, inflight[c].signal, inflight[c].session) || NotOlder(w0, inflight[c].signal, inflight[c].session)
  }

  predicate SentTraced(w0: World, sent: seq<Sent>)
  {
    forall i :: |w0.sent| <= i < |sent| ==>
      InFlight(w0, sent[i].conn, sent[i].signal, sent[i].session) || NotOlder(w0, sent[i].signal, sent[i].session)
  }

  /** Everything cleared or sent since `w0` was in flight then or was checked against a row of that time or later. */
  predicate Traced(w0: World, w: World)
  {
    StagesTraced(w0, w.inflight) && SentTraced(w0, w.sent)
  }

  lemma CheckOutcome(w: World, c: nat, now: int)
    requires Tables(w) && ConnsAll(w.grants, w.next, w.hub.conns) && w.clock <= now
    requires c in w.hub.conns && c in w.inflight && w.inflight[c].signal.Signal?
    ensures var m := w.inflight[c].signal;
            var (db, r) := Check(w.db, w.hub.conns[c], m, now);
            Evolves(w.db, db, None, now) && (r.Success? ==> m.sessionId in db.sessions && r.value == db.sessions[m.sessionId])
  {
    assert ConnOk(w.grants, c, w.hub.conns[c]);
    CheckValue(w.db, w.hub.conns[c], w.inflight[c].signal, w.clock, now);
  }

  lemma CheckingTraced(w0: World, w: World, c: nat, now: int)
    requires Tables(w0) && Tables(w) && ConnsAll(w.grants, w.next, w.hub.conns)
    requires HistGrows(w0.hist, w.hist) && w.clock <= now && Traced(w0, w)
    requires c in w.hub.conns && c in w.inflight && w.inflight[c].signal.Signal?
    ensures Traced(w0, Checked(w, c, Check(w.db, w.hub.conns[c], w.inflight[c].signal, now), now))
  {
    CheckOutcome(w, c, now);
    CheckedTraced(w0, w, c, Check(w.db, w.hub.conns[c], w.inflight[c].signal, now), now);
  }

  lemma CheckTraced(w0: World, w: World, c: nat, now: int)
    requires Tables(w0) && Tables(w) && ConnsAll(w.grants, w.next, w.hub.conns)
    requires HistGrows(w0.hist, w.hist) && w.clock <= now && Traced(w0, w)
    ensures Traced(w0, DoCheck(w, c, now))
  {
    if c !in w.hub.conns || c !in w.inflight || !w.inflight[c].ToCheck? || w.inflight[c].signal.Malformed? {
      assert DoCheck(w, c, now) == w.(clock := now);
    } else {
      CheckingTraced(w0, w, c, now);
    }
  }

  lemma CheckedRow(w0: World, w: World, m: Signal, db: Db, now: int)
    requires Tables(w0) && Tables(w) && HistGrows(w0.hist, w.hist) && Evolves(w.db, db, None, now)
    requires m.Signal? && m.sessionId in db.sessions
    ensures NotOlder(w0, m, db.sessions[m.sessionId])
  {
    if m.sessionId in w0.db.sessions {
      RowAdvancesBetween(w0, w, m.sessionId);
      assert Advances(w.db.sessions[m.sessionId], db.sessions[m.sessionId], None, now);
    }
  }

  lemma OutcomeTraced(w0: World, w: World, c: nat, outcome: Spec.Outcome<Session>, now: int)
    requires Traced(w0, w) && c in w.inflight
    requires outcome.1.Success? ==> NotOlder(w0, w.inflight[c].signal, outcome.1.value)
    ensures Traced(w0, Checked(w, c, outcome, now))
  {
  }

  lemma CheckedTraced(w0: World, w: World, c: nat, outcome: Spec.Outcome<Session>, now: int)
    requires Tables(w0) && Tables(w) && HistGrows(w0.hist, w.hist) && w.clock <= now && Traced(w0, w)
    requires c in w.inflight && w.inflight[c].signal.Signal? && Evolves(w.db, outcome.0, None, now)
    requires outcome.1.Success? ==>
               w.inflight[c].signal.sessionId in outcome.0.sessions
               && outcome.1.value == outcome.0.sessions[w.inflight[c].signal.sessionId]
    ensures Traced(w0, Checked(w, c, outcome, now))
  {
    if outcome.1.Success? {
      CheckedRow(w0, w, w.inflight[c].signal, outcome.0, now);
    }
    OutcomeTraced(w0, w, c, outcome, now);
  }

  lemma SendTraced(w0: World, w: World, c: nat, now: int)
    requires Traced(w0, w) && |w0.sent| <= |w.sent|
    ensures Traced(w0, DoSend(w, c, now))
  {
  }

  lemma ReceivedTraced(w0: World, w: World, c: nat, m: Signal, outcome: (Hub, Db, Result<Signal, Error>), now: int)
    requires Traced(w0, w) && c in w.hub.conns
    ensures Traced(w0, Received(w, c, m, outcome, now))
  {
  }

  lemma ReceiveTraced(w0: World, w: World, c: nat, m: Signal, now: int)
    requires Traced(w0, w)
    ensures Traced(w0, DoReceive(w, c, m, now))
  {
    if c in w.hub.conns {
      ReceivedTraced(w0, w, c, m, Admit(w.hub, w.db, w.key, c, m, now), now);
    }
  }

  lemma SameMessages(w: World, step: Step, now: int)
    requires !step.Receive? && !step.CheckSignal? && !step.SendSignal?
    ensures Do(w, step, now).inflight == w.inflight && Do(w, step, now).sent == w.sent
  {
    if OfCalls(step) {
      CallsLeaveSignals(w, step, now);
    }
  }

  lemma OtherTraced(w0: World, w: World, step: Step, now: int)
    requires Traced(w0, w) && !step.Receive? && !step.CheckSignal? && !step.SendSignal?
    ensures Traced(w0, Do(w, step, now))
  {
    SameMessages(w, step, now);
  }

  lemma DoTraced(w0: World, w: World, step: Step, now: int)
    requires Tables(w0) && Tables(w) && ConnsAll(w.grants, w.next, w.hub.conns)
    requires HistGrows(w0.hist, w.hist) && |w0.sent| <= |w.sent| && w.clock <= now && Traced(w0, w)
    ensures Traced(w0, Do(w, step, now))
  {
    if step.CheckSignal? {
      CheckTraced(w0, w, step.conn, now);
    } else {
      UncheckedTraced(w0, w, step, now);
    }
  }

  lemma UncheckedTraced(w0: World, w: World, step: Step, now: int)
    requires Traced(w0, w) && |w0.sent| <= |w.sent| && !step.CheckSignal?
    ensures Traced(w0, Do(w, step, now))
  {
    match step
    case Receive(c, m) => ReceiveTraced(w0, w, c, m, now);
    case SendSignal(c) => SendTraced(w0, w, c, now);
    case _ => OtherTraced(w0, w, step, now);
  }

  lemma AfterTraced(w0: World, w: World, e: Event)
    requires Tables(w0) && Inv(w) && Grows(w0, w) && Traced(w0, w)
    ensures Traced(w0, After(w, e))
  {
    DoTraced(w0, w, e.step, NotBefore(w.clock, e.at));
  }

  lemma {:induction false} RunsTraced(w0: World, es: seq<Event>)
    requires Inv(w0)
    ensures Traced(w0, Exec(w0, es))
  {
    if es != [] {
      RunsTraced(w0, es[..|es| - 1]);
      RunsGrow(w0, es[..|es| - 1]);
      AfterTraced(w0, Exec(w0, es[..|es| - 1]), es[|es| - 1]);
    }
  }

  /** A message cleared against a row at or after a reconnecting row is not of an older epoch. */
  lemma ClearedSince(h: map<Id, History>, role: Role, endpoint: Id, m: Signal, s: Session, earlier: Session)
    requires Cleared(h, role, endpoint, m, s)
    requires Revised(h, earlier) && earlier.id == m.sessionId && earlier.revision <= s.revision
    requires LegalHistory(m.sessionId, h[m.sessionId])
    ensures earlier.state.Reconnecting? ==> m.revision >= earlier.revision
    ensures !IsTerminal(earlier.state)
  {
    if earlier.revision < s.revision {
      TerminalIsLast(m.sessionId, h[m.sessionId], earlier.revision - 1);
    }
  }

  /** The message is of an epoch that row `s` has left behind: older than a reconnecting revision, or of a session that is over. */
  predicate Outdated(s: Session, m: Signal)
  {
    m.Signal? && m.sessionId == s.id && (IsTerminal(s.state) || (s.state.Reconnecting? && m.revision < s.revision))
  }

  /**
   * Epoch isolation. Whatever is sent after world `w` was either in flight at `w`, already past its check, or belongs to
   * the current epoch: once a session is reconnecting at revision q nothing below q is sent, and once it is over nothing is.
   */
  lemma EpochIsolation(w: World, es: seq<Event>, sid: Id)
    requires Inv(w) && sid in w.db.sessions
    ensures forall i :: |w.sent| <= i < |Exec(w, es).sent| ==>
              var e := Exec(w, es).sent[i];
              InFlight(w, e.conn, e.signal, e.session) || !Outdated(w.db.sessions[sid], e.signal)
  {
    RunsGrow(w, es);
    RunsTraced(w, es);
    SentSince(w, Exec(w, es), sid);
  }

  lemma SentSince(w: World, w': World, sid: Id)
    requires Inv(w) && Inv(w') && Grows(w, w') && Traced(w, w') && sid in w.db.sessions
    ensures forall i :: |w.sent| <= i < |w'.sent| ==>
              var e := w'.sent[i];
              InFlight(w, e.conn, e.signal, e.session) || !Outdated(w.db.sessions[sid], e.signal)
  {
    RowAdvancesBetween(w, w', sid);
    RowRevised(w, sid);
    forall i | |w.sent| <= i < |w'.sent|
      ensures var e := w'.sent[i];
              InFlight(w, e.conn, e.signal, e.session) || !Outdated(w.db.sessions[sid], e.signal)
    {
      var e := w'.sent[i];
      assert SentOk(w'.hist, w'.grants, e);
      if e.signal.sessionId == sid && !InFlight(w, e.conn, e.signal, e.session) {
        ClearedSince(w'.hist, e.role, e.endpoint, e.signal, e.session, w.db.sessions[sid]);
      }
    }
  }

  /** Connection `c` is about to send a message that row `s` has left behind. */
  predicate Overtaken(w: World, c: nat, s: Session)
  {
    c in w.inflight && w.inflight[c].ToSend? && Outdated(s, w.inflight[c].signal)
  }

  /** No run that starts in world `w` ever sends a message that row `s` has left behind. */
  ghost predicate NeverOutdated(w: World, s: Session)
  {
    forall es: seq<Event>, i: nat :: |w.sent| <= i < |Exec(w, es).sent| ==> !Outdated(s, Exec(w, es).sent[i].signal)
  }

  /**
   * The isolation is complete exactly when no connection is about to send an outdated message: then nothing below the
   * revision at which the session reconnects, and nothing of a session that is over, is ever sent again.
   */
  lemma IsolatedExactlyWhen(w: World, sid: Id)
    requires Inv(w) && sid in w.db.sessions
    ensures NeverOutdated(w, w.db.sessions[sid]) <==> forall c :: !Overtaken(w, c, w.db.sessions[sid])
  {
    var s := w.db.sessions[sid];
    if forall c :: !Overtaken(w, c, s) {
      forall es: seq<Event>, i: nat | |w.sent| <= i < |Exec(w, es).sent|
        ensures !Outdated(s, Exec(w, es).sent[i].signal)
      {
        EpochIsolation(w, es, sid);
        var e := Exec(w, es).sent[i];
        assert !Overtaken(w, e.conn, s);
      }
    }
    forall c | Overtaken(w, c, s)
      ensures !NeverOutdated(w, s)
    {
      SendsNext(w, c);
      var es := [Event(w.clock, SendSignal(c))];
      assert Outdated(s, Exec(w, es).sent[|w.sent|].signal);
    }
  }

  /** A message that has passed its check can be sent next. */
  lemma SendsNext(w: World, c: nat)
    requires Inv(w) && c in w.inflight && w.inflight[c].ToSend?
    ensures var w' := Exec(w, [Event(w.clock, SendSignal(c))]);
            |w'.sent| == |w.sent| + 1 && w'.sent[|w.sent|].signal == w.inflight[c].signal
  {
    var es := [Event(w.clock, SendSignal(c))];
    assert es[..|es| - 1] == [] && Exec(w, []) == w;
    assert StageOk(w.hist, w.grants, c, w.hub.conns[c], w.inflight[c]);
  }

  /**
   * Every message ever sent came from a connection that consumed a ticket for its session and revision as a party of
   * that session; it was checked against a revision that was negotiating or reconnecting at the message's revision or
   * connected one above it; and it went to the other party.
   */
  lemma SentFacts(w: World, i: nat)
    requires Inv(w) && i < |w.sent|
    ensures var e := w.sent[i];
            && e.signal.Signal? && e.signal.ticket.None?
            && Grant(e.conn, e.role, e.endpoint, e.signal.sessionId, e.signal.revision) in w.grants
            && Revised(w.hist, e.session) && e.session.id == e.signal.sessionId
            && ((Spec.TakesTickets(e.session) && e.session.revision == e.signal.revision)
                || (IsConnected(e.session.state) && e.session.revision == e.signal.revision + 1))
            && (e.role.Controller? ==> e.session.controllerId == e.endpoint && e.target == (Host, e.session.hostId))
            && (e.role.Host? ==> e.session.hostId == e.endpoint && e.target == (Controller, e.session.controllerId))
  {
    assert SentOk(w.hist, w.grants, w.sent[i]);
  }

}
