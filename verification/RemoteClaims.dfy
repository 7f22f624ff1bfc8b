/** What the service promises its callers: revisions are taken once, and hosts see approved requests only. */
module RemoteClaims {
  import opened Basics
  import opened RemoteModel
  import opened RemoteLifecycle
  import opened RemoteRuns
  import opened RemoteSafety
  import opened RemoteEpochs
  import Spec = RemoteSpec

  /** Every stored session of every run has a legal history that ends in its row. */
  lemma ReachableSession(key: Id, clock: int, es: seq<Event>, id: Id)
    ensures var w := Exec(Init(key, clock), es);
            id in w.db.sessions ==>
              && id in w.hist && LegalHistory(id, w.hist[id]) && Last(w.hist[id]) == w.db.sessions[id]
              && w.db.sessions[id].revision == |w.hist[id]| && Sound(w.db.sessions[id])
  {
    InitIsSafe(key, clock);
    RunsAreSafe(Init(key, clock), es);
    if id in Exec(Init(key, clock), es).db.sessions {
      RowRevised(Exec(Init(key, clock), es), id);
    }
  }

  // ---------- compare and swap ----------

  /** The next step of the call is a compare-and-swap on revision `r`: the one its caller named, or the one it read. */
  predicate CallSwapsOn(c: Work, sid: Id, r: int)
  {
    match c
    case ToLimit(op, read, _) => !op.Refuse? && op.sid == sid && read.revision == r
    case ToMove(op, e) => !op.Refresh? && op.sid == sid && Spec.Expected(op.expected, e.read) == r
    case _ => false
  }

  /** The step is a compare-and-swap of session `sid` on revision `r`. */
  predicate SwapsOn(w: World, step: Step, sid: Id, r: int)
  {
    && r > 0
    && match step
       case Service(call) => call.Approve? && call.sid == sid && call.expected == r
       case Proceed(k) => k in w.calls && CallSwapsOn(w.calls[k], sid, r)
       case _ => false
  }

  /** The step commits a revision of session `sid`. */
  predicate Commits(w: World, step: Step, sid: Id, now: int)
  {
    && sid in w.db.sessions && sid in Do(w, step, now).db.sessions
    && Do(w, step, now).db.sessions[sid] != w.db.sessions[sid]
  }

  lemma TransitionNeedsExpected(db: Db, id: Id, expected: int, allowed: set<State>, next: State, granted: Option<Caps>,
                                transport: Transport, reason: Reason, now: int)
    requires id in db.sessions && expected > 0
    ensures var rows := Spec.Transition(db, id, expected, allowed, next, granted, transport, reason, now).0.sessions;
            id in rows && (rows[id] != db.sessions[id] ==>
                             db.sessions[id].revision == expected && rows[id].revision == expected + 1)
  {
  }

  lemma MoveNeedsExpected(db: Db, op: Op, read: Session, now: int)
    requires op.sid in db.sessions && !op.Refresh? && Spec.Expected(op.expected, read) > 0
    ensures var rows := Move(db, op, read, now).0.sessions;
            var s := db.sessions[op.sid];
            op.sid in rows && (rows[op.sid] != s ==>
                                 s.revision == Spec.Expected(op.expected, read) && rows[op.sid].revision == s.revision + 1)
  {
    var r := Spec.Expected(op.expected, read);
    match op
    case Refuse(sid, _, reason, _) =>
      TransitionNeedsExpected(db, sid, r, {WaitingPrimary}, Ended, None, NoTransport,
                              Spec.NormalizeEndReason(reason, Reason.RejectedByPrimary), now);
    case Accept(sid, _, _) =>
      TransitionNeedsExpected(db, sid, r, {WaitingConsent}, Negotiating, Some(read.requested), WebRtc, NoReason, now);
    case Reject(sid, _, reason, _) =>
      TransitionNeedsExpected(db, sid, r, {WaitingHost, WaitingConsent}, Ended, None, NoTransport,
                              Spec.NormalizeEndReason(reason, Reason.RejectedByHost), now);
    case End(sid, _, _, reason, _) =>
      TransitionNeedsExpected(db, sid, r, Spec.ENDABLE, Ended, None, NoTransport,
                              Spec.NormalizeEndReason(reason, EndedByUser), now);
    case Connected(sid, _, _) =>
      TransitionNeedsExpected(db, sid, r, {Negotiating, Reconnecting},
                              if read.granted.ViewAndInput? then ConnectedControl else ConnectedView,
                              Some(read.granted), WebRtc, NoReason, now);
    case Lost(sid, _, _, _) =>
      TransitionNeedsExpected(db, sid, r, {ConnectedView, ConnectedControl}, Reconnecting, Some(read.granted),
                              read.transport, NoReason, now);
  }

  lemma ApproveNeedsExpected(db: Db, sid: Id, device: Id, expected: int, now: int)
    requires sid in db.sessions && expected > 0
    ensures var rows := Spec.ApproveByPrimary(db, sid, device, expected, now).0.sessions;
            sid in rows && (rows[sid] != db.sessions[sid] ==>
                              db.sessions[sid].revision == expected && rows[sid].revision == expected + 1)
  {
  }

  lemma LimitNeedsRevision(db: Db, op: Op, read: Session, began: int, now: int)
    requires op.sid in db.sessions && read.revision > 0
    ensures var rows := Limit(db, op, read, began, now).0.sessions;
            var s := db.sessions[op.sid];
            op.sid in rows && (rows[op.sid] != s ==> s.revision == read.revision && rows[op.sid].revision == s.revision + 1)
  {
  }

  lemma NextNeedsExpected(db: Db, c: Work, sid: Id, r: int, now: int)
    requires sid in db.sessions && r > 0 && CallSwapsOn(c, sid, r)
    ensures var rows := Next(db, c, now).0.sessions;
            sid in rows && (rows[sid] != db.sessions[sid] ==>
                              db.sessions[sid].revision == r && rows[sid].revision == r + 1)
  {
    match c
    case ToLimit(op, read, began) => LimitNeedsRevision(db, op, read, began, now);
    case ToMove(op, e) => MoveNeedsExpected(db, op, e.read, now);
    case _ =>
  }

  /** The step only changes the tables by its compare-and-swap. */
  lemma SwapRows(w: World, step: Step, sid: Id, r: int, now: int)
    requires SwapsOn(w, step, sid, r)
    ensures Do(w, step, now).db == if step.Service? then Serve(w.db, step.call, now) else Next(w.db, w.calls[step.callId], now).0
  {
  }

  /** A compare-and-swap commits only on the revision it names, and raises it by one. */
  lemma CommitNeedsExpected(w: World, step: Step, sid: Id, r: int, now: int)
    requires SwapsOn(w, step, sid, r)
    ensures Commits(w, step, sid, now) ==>
              w.db.sessions[sid].revision == r && Do(w, step, now).db.sessions[sid].revision == r + 1
  {
    SwapRows(w, step, sid, r, now);
    if sid in w.db.sessions {
      match step
      case Service(call) => ApproveNeedsExpected(w.db, sid, call.device, r, now);
      case Proceed(k) =>
        NextNeedsExpected(w.db, w.calls[k], sid, r, now);
    }
  }

  /** Once a session has left a revision, no compare-and-swap on it ever commits again. */
  lemma NoCommitOnAPastRevision(w: World, es: seq<Event>, step: Step, sid: Id, r: int, later: int)
    requires Inv(w) && sid in w.db.sessions && w.db.sessions[sid].revision > r
    ensures var w' := Exec(w, es);
            SwapsOn(w', step, sid, r) && w'.clock <= later ==> !Commits(w', step, sid, later)
  {
    RowsOnlyAdvance(w, es, sid);
    RunsAreSafe(w, es);
    var w' := Exec(w, es);
    if SwapsOn(w', step, sid, r) && w'.clock <= later {
      CommitNeedsExpected(w', step, sid, r, later);
    }
  }

  /** Of all the compare-and-swaps on one revision, whoever makes them and whatever happens in between, one commits at most. */
  lemma OneCommitPerRevision(w: World, first: Step, sid: Id, r: int, now: int, es: seq<Event>, second: Step, later: int)
    requires Inv(w) && w.clock <= now && SwapsOn(w, first, sid, r)
    ensures var w' := Exec(Do(w, first, now), es);
            Commits(w, first, sid, now) && SwapsOn(w', second, sid, r) && w'.clock <= later ==> !Commits(w', second, sid, later)
  {
    CommitNeedsExpected(w, first, sid, r, now);
    if Commits(w, first, sid, now) {
      DoKeeps(w, first, now);
      NoCommitOnAPastRevision(Do(w, first, now), es, second, sid, r, later);
    }
  }

  // ---------- expired nonces ----------

  lemma ConsumedAsBefore(db: Db, hash: NonceHash, sid: Id, endpoint: Id, role: Role, revision: int, now: int, later: int)
    requires now <= later
    ensures var (a, ra) := Spec.ConsumeNonce(Spec.DeleteExpired(db, now), hash, sid, endpoint, role, revision, later);
            var (b, rb) := Spec.ConsumeNonce(db, hash, sid, endpoint, role, revision, later);
            (ra.Success? <==> rb.Success?) && NoncesKept(b, a, later)
  {
  }

  /**
   * Deleting expired nonces is never noticed by whoever presents a ticket later: it is accepted or refused as it would
   * have been, and the nonces that are still good are left as they are.
   */
  lemma DeletionIsNotNoticed(db: Db, key: Id, token: Spec.Token, sid: Id, endpoint: Id, role: Role, revision: int,
                             now: int, later: int)
    requires now <= later
    ensures var (a, ra) := Spec.ValidateAndConsume(Spec.DeleteExpired(db, now), key, token, sid, endpoint, role, revision, later);
            var (b, rb) := Spec.ValidateAndConsume(db, key, token, sid, endpoint, role, revision, later);
            (ra.Success? <==> rb.Success?) && (ra.Success? ==> ra == rb) && NoncesKept(b, a, later)
    ensures forall h :: h in Spec.DeleteExpired(db, now).nonces <==> h in db.nonces && db.nonces[h].expiresAt > now
  {
    if token.Token? {
      ConsumedAsBefore(db, NonceHash(token.payload.nonce), sid, endpoint, role, revision, now, later);
    }
  }

  // ---------- the primary gate ----------

  /** What a host is shown: its own requests, approved by the primary device, nothing granted yet, within their limit. */
  lemma HostsSeeApprovedRequests(w: World, hostId: Id, now: int, id: Id)
    requires Inv(w) && w.clock <= now
    requires id in Spec.Selected(Spec.ListAndTimeOut(w.db, Some(hostId), WaitingConsent, now), Some(hostId), WaitingConsent)
    ensures id in w.db.sessions
    ensures var s := w.db.sessions[id];
            && s.hostId == hostId && s.state.WaitingConsent? && s.primaryApproved && s.granted == NoCaps
            && now < s.updatedAt + 60 * SECOND
  {
    ListEvolves(w.db, Some(hostId), WaitingConsent, w.clock, now);
  }

  /** Approval checks the state and the revision, not the time: a request over its limit is approved if nobody looked at it. */
  lemma ApprovalIgnoresTheLimit(db: Db, sid: Id, device: Id, expected: int, clock: int, now: int)
    requires Legal(db, clock) && clock <= now && sid in db.sessions && db.sessions[sid].state.WaitingPrimary?
    ensures Spec.ApproveByPrimary(db, sid, device, expected, now).1.Success? <==>
            device != NONE && (expected > 0 ==> db.sessions[sid].revision == expected)
    ensures var listed := Spec.ListAndTimeOut(db, None, WaitingPrimary, now);
            Spec.ApproveByPrimary(listed, sid, device, expected, now).1.Success? <==>
            device != NONE && (expected > 0 ==> db.sessions[sid].revision == expected) && !Overdue(db.sessions[sid], now)
  {
  }

  // ---------- requests and hosts ----------

  /** A new request waits for the primary device unless it comes from it; then it waits for consent or for the host to show up. */
  lemma NewRequestsStart(db: Db, newId: Id, controller: Id, hostId: Id, caps: seq<string>, primary: bool, now: int)
    ensures var (db', r) := Spec.RequestSession(db, newId, controller, hostId, caps, primary, now);
            && (r.Failure? ==> db' == db)
            && (r.Success? ==>
                  && newId !in db.sessions && db' == db.(sessions := db.sessions[newId := r.value]) && Born(newId, r.value)
                  && hostId in db.hosts && r.value.controllerId == controller && controller != NONE
                  && Success(r.value.requested) == Spec.NormalizeCapabilities(caps)
                  && (r.value.requested.ViewAndInput? ==> db.hosts[hostId].supportsInput)
                  && (r.value.state.WaitingPrimary? <==> !primary)
                  && (r.value.state.WaitingConsent? <==>
                        primary && db.hosts[hostId].revokedAt.None? && now - db.hosts[hostId].lastSeenAt < 30 * SECOND))
  {
  }

  predicate AwaitsHost(s: Session, hostId: Id)
  {
    s.state == WaitingHost && s.hostId == hostId
  }

  /** After a host registered or sent a heartbeat no request waits for it any more, and no other request has changed. */
  lemma NobodyWaitsForAHostThatCame(db: Db, host: HostRow, now: int, id: Id)
    ensures var after := Spec.RegisterHost(db, host, now);
            && host.id in after.hosts && after.hosts[host.id].lastSeenAt == now
            && (id in after.sessions <==> id in db.sessions)
            && (id in db.sessions ==>
                  && !AwaitsHost(after.sessions[id], host.id)
                  && (!AwaitsHost(db.sessions[id], host.id) ==> after.sessions[id] == db.sessions[id])
                  && (AwaitsHost(db.sessions[id], host.id) ==> after.sessions[id].state.WaitingConsent?
                                                                  && after.sessions[id].revision == db.sessions[id].revision + 1))
    ensures var (after, r) := Spec.Heartbeat(db, host.id, None, now);
            && (r.Success? <==> host.id in db.hosts && db.hosts[host.id].revokedAt.None?)
            && (r.Success? && id in db.sessions ==>
                  && id in after.sessions && !AwaitsHost(after.sessions[id], host.id)
                  && (!AwaitsHost(db.sessions[id], host.id) ==> after.sessions[id] == db.sessions[id])
                  && (AwaitsHost(db.sessions[id], host.id) ==> after.sessions[id].state.WaitingConsent?))
  {
  }

  /** A recorded end reason is the fallback or a plain word of at most 64 characters, never longer and never empty. */
  lemma ReasonsArePlainWords(value: string, fallback: Reason)
    ensures var r := Spec.NormalizeEndReason(value, fallback);
            r == fallback || (r.Given? && |r.text| <= 64 && Spec.PlainWord(r.text))
  {
  }

  // ---------- capability lists ----------

  lemma {:induction false} ScanCounts(names: seq<string>, seen: set<string>)
    ensures var r := Spec.ScanCapabilities(names, seen);
            r.Some? ==> |r.value| == |seen| + |names| && forall v :: v in names ==> v in r.value
  {
    if names != [] && Spec.ScanCapabilities(names, seen).Some? {
      ScanCounts(names[1..], seen + {names[0]});
    }
  }

  lemma ScanTwo(a: string, b: string)
    ensures Spec.ScanCapabilities([a, b], {}) ==
            if a in {Spec.VIEW, Spec.INPUT} && b in {Spec.VIEW, Spec.INPUT} && a != b then Some({a, b}) else None
  {
    var known := {Spec.VIEW, Spec.INPUT};
    assert [b][1..] == [] && {a} + {b} == {a, b};
    assert Spec.ScanCapabilities([b], {a}) == if b in known && b != a then Some({a, b}) else None;
    assert [a, b][1..] == [b] && {} + {a} == {a};
    assert Spec.ScanCapabilities([a, b], {}) == if a in known then Spec.ScanCapabilities([b], {a}) else None;
  }

  /** The accepted lists are the empty one and the orderings of ["view"] and ["view", "input"], up to white space. */
  lemma CapabilitiesAccepted(values: seq<string>)
    ensures var names := Spec.TrimAll(values);
            Spec.NormalizeCapabilities(values) ==
            if values == [] || names == ["view"] then Success(ViewOnly)
            else if names == ["view", "input"] || names == ["input", "view"] then Success(ViewAndInput)
            else Failure(InvalidCapability)
  {
    var names := Spec.TrimAll(values);
    var r := Spec.ScanCapabilities(names, {});
    ScanCounts(names, {});
    assert |Spec.VIEW| != |Spec.INPUT|;
    if r.Some? {
      TwoNames(r.value);
    }
    if |names| == 2 {
      assert names == [names[0], names[1]];
      ScanTwo(names[0], names[1]);
    } else if |names| == 1 {
      assert names == [names[0]];
    }
  }

  lemma TwoNames(names: set<string>)
    requires names <= {Spec.VIEW, Spec.INPUT}
    ensures |names| <= 2
  {
    assert {Spec.VIEW, Spec.INPUT} == names + ({Spec.VIEW, Spec.INPUT} - names);
  }
}
