/** The remote-desktop tables: session rows with every revision they went through, hosts and ticket nonces. */
module RemoteModel {
  import opened Basics

  datatype State =
    | Requesting | WaitingPrimary | WaitingHost | WaitingConsent | Negotiating
    | ConnectedView | ConnectedControl | Reconnecting | Ending | Ended | Failed

  predicate IsTerminal(s: State) { s.Ended? || s.Failed? }

  predicate IsConnected(s: State) { s.ConnectedView? || s.ConnectedControl? }

  datatype Role = Controller | Host | OtherRole

  /** The capability lists that occur in a row: the empty list, ["view"] and ["view", "input"]. */
  datatype Caps = NoCaps | ViewOnly | ViewAndInput

  /** end_reason: the empty string, a reason the code supplies, or one the caller gave. */
  datatype Reason =
    | NoReason | PrimaryApprovalTimeout | HostTimeout | ConsentTimeout | NegotiationTimeout | ReconnectTimeout
    | RejectedByPrimary | RejectedByHost | EndedByUser
    | Given(text: string)

  datatype Transport = NoTransport | WebRtc

  datatype Session = Session(
    id: Id, hostId: Id, controllerId: Id, controllerIsPrimary: bool, primaryApproved: bool,
    state: State, revision: int, requested: Caps, granted: Caps, transport: Transport,
    requestedAt: int, updatedAt: int, startedAt: Option<int>, endedAt: Option<int>, endReason: Reason)

  /** A host row; the two flags stand for hostSupportsView and hostSupportsInput of its capability lists. */
  datatype HostRow = HostRow(id: Id, supportsView: bool, supportsInput: bool, lastSeenAt: int, revokedAt: Option<int>)

  /** SHA-256 of a nonce, taken as injective. */
  datatype NonceHash = NonceHash(nonce: Id)

  datatype NonceRow = NonceRow(sessionId: Id, endpointId: Id, role: Role, revision: int,
                               expiresAt: int, consumedAt: Option<int>)

  datatype Error =
    | NotFound | Conflict | Unauthorized | InvalidCapability | TicketConsumed | TicketExpired
    | Invalid  // the errors the program creates without a name

  const BLANK := Session(NONE, NONE, NONE, false, false, Requesting, 0, NoCaps, NoCaps, NoTransport, 0, 0, None, None, NoReason)

  datatype Db = Db(hosts: map<Id, HostRow>, sessions: map<Id, Session>, nonces: map<NonceHash, NonceRow>)

  // ---------- what a committed update may do ----------

  /** How long applyTimeout lets a session stay in a state, and the reason it records afterwards. */
  function Ttl(s: State): Option<(int, Reason)>
  {
    match s
    case WaitingPrimary => Some((2 * MINUTE, PrimaryApprovalTimeout))
    case WaitingHost => Some((2 * MINUTE, HostTimeout))
    case WaitingConsent => Some((60 * SECOND, ConsentTimeout))
    case Negotiating => Some((2 * MINUTE, NegotiationTimeout))
    case Reconnecting => Some((30 * SECOND, ReconnectTimeout))
    case _ => None
  }

  predicate Overdue(s: Session, now: int)
  {
    Ttl(s.state).Some? && s.updatedAt + Ttl(s.state).value.0 <= now
  }

  /** The limits in figures. */
  lemma OverdueExactlyWhen(s: Session, now: int)
    ensures Overdue(s, now) <==>
            || (s.state in {WaitingPrimary, WaitingHost, Negotiating} && now - s.updatedAt >= 2 * MINUTE)
            || (s.state == WaitingConsent && now - s.updatedAt >= 60 * SECOND)
            || (s.state == Reconnecting && now - s.updatedAt >= 30 * SECOND)
    ensures Ttl(s.state).Some? ==>
              Ttl(s.state).value.1 == match s.state
                                      case WaitingPrimary => PrimaryApprovalTimeout
                                      case WaitingHost => HostTimeout
                                      case WaitingConsent => ConsentTimeout
                                      case Negotiating => NegotiationTimeout
                                      case _ => ReconnectTimeout
  {
  }

  predicate Edge(a: State, b: State)
  {
    match a
    case WaitingPrimary => b.WaitingConsent? || IsTerminal(b)
    case WaitingHost => b.WaitingConsent? || IsTerminal(b)
    case WaitingConsent => b.Negotiating? || IsTerminal(b)
    case Negotiating => IsConnected(b) || IsTerminal(b)
    case Reconnecting => IsConnected(b) || IsTerminal(b)
    case ConnectedView => b.Reconnecting? || b.Ended?
    case ConnectedControl => b.Reconnecting? || b.Ended?
    case _ => false
  }

  predicate SameRequest(a: Session, b: Session)
  {
    && a.id == b.id && a.hostId == b.hostId && a.controllerId == b.controllerId
    && a.controllerIsPrimary == b.controllerIsPrimary && a.requested == b.requested && a.requestedAt == b.requestedAt
  }

  /** The moves before which the code compares the time limit of a row it has read. */
  predicate TimeChecked(b: State)
  {
    b.Negotiating? || IsConnected(b)
  }

  /** The moves that write back the granted list of the row that was read. */
  predicate WritesBack(b: State)
  {
    IsConnected(b) || b.Reconnecting?
  }

  /**
   * What a call goes by when it writes: the row it read, the time at which it first read, and the reading of the clock it
   * compared the limit of that row with. It compares no limit of a row it read again after its timeout was overtaken.
   */
  datatype Evidence = Evidence(read: Session, began: int, checkedAt: Option<int>)

  /** The row was within its limit when that was compared, or is not older than the call. */
  predicate InTime(e: Evidence)
  {
    match e.checkedAt
    case Some(t) => e.began <= t && !Overdue(e.read, t)
    case None => e.began <= e.read.updatedAt
  }

  /** A committed revision, and what the call that committed it went by. */
  datatype Version = Version(row: Session, basis: Evidence)

  /** Version `v` may come directly after row `a`. */
  predicate Follows(a: Session, v: Version)
  {
    var b := v.row;
    && SameRequest(a, b) && SameRequest(a, v.basis.read)
    && Edge(a.state, b.state)
    && b.revision == a.revision + 1
    && a.updatedAt <= b.updatedAt && v.basis.began <= b.updatedAt
    && (v.basis.checkedAt.Some? ==> v.basis.checkedAt.value <= b.updatedAt)
    && b.primaryApproved == (a.primaryApproved || (a.state.WaitingPrimary? && b.state.WaitingConsent?))
    && b.granted == (if b.state.Negotiating? then a.requested else if WritesBack(b.state) then v.basis.read.granted else a.granted)
    && (IsConnected(b.state) ==> (b.state.ConnectedControl? <==> b.granted.ViewAndInput?))
    && b.startedAt == (if IsConnected(b.state) && a.startedAt.None? then Some(b.updatedAt) else a.startedAt)
    && b.endedAt == (if IsTerminal(b.state) then Some(b.updatedAt) else a.endedAt)
    && (!b.endReason.NoReason? <==> IsTerminal(b.state))
    && (b.state.Failed? ==> Overdue(a, b.updatedAt) && b.endReason == Ttl(a.state).value.1)
    && b.transport == (if TimeChecked(b.state) then WebRtc
                       else if b.state.Reconnecting? && v.basis.read.transport.WebRtc? then WebRtc else a.transport)
    && (TimeChecked(b.state) ==> InTime(v.basis))
  }

  /** A freshly inserted request. */
  predicate Born(id: Id, s: Session)
  {
    && s.id == id && s.revision == 1 && !s.requested.NoCaps? && s.granted == NoCaps
    && (s.state.WaitingPrimary? || s.state.WaitingHost? || s.state.WaitingConsent?)
    && s.primaryApproved == s.controllerIsPrimary && (s.state.WaitingPrimary? <==> !s.controllerIsPrimary)
    && s.requestedAt == s.updatedAt && s.startedAt.None? && s.endedAt.None? && s.endReason.NoReason?
  }

  /** The states before the host has accepted. */
  predicate IsWaiting(s: State)
  {
    s.WaitingPrimary? || s.WaitingHost? || s.WaitingConsent?
  }

  /** What a stored row satisfies on its own. */
  predicate Sound(s: Session)
  {
    && (s.state.WaitingPrimary? || Gated(s.state) || IsTerminal(s.state))
    && (Gated(s.state) ==> s.primaryApproved)
    && !s.requested.NoCaps?
    && (IsWaiting(s.state) ==> s.granted == NoCaps)
    && (s.state.Negotiating? ==> s.granted == s.requested)
    && (s.granted == NoCaps || s.granted == s.requested)
    && (s.state.ConnectedControl? ==> s.granted.ViewAndInput?)
    && (s.state.ConnectedView? ==> !s.granted.ViewAndInput?)
    && (s.endedAt.Some? <==> IsTerminal(s.state))
    && (!s.endReason.NoReason? <==> IsTerminal(s.state))
    && (s.state.Reconnecting? || IsConnected(s.state) ==> s.startedAt.Some?)
    && s.revision > 0
  }

  /** The states a host may see. */
  predicate Gated(s: State)
  {
    s.WaitingHost? || s.WaitingConsent? || s.Negotiating? || IsConnected(s) || s.Reconnecting?
  }

  /** Invariant of the tables at time `clock`. */
  predicate Legal(db: Db, clock: int)
  {
    forall id :: id in db.sessions ==>
      db.sessions[id].id == id && Sound(db.sessions[id]) && db.sessions[id].updatedAt <= clock
  }

  /** What a transaction goes by: None when it moves the rows it reads itself, otherwise an earlier lookup. */
  type Basis = Option<Evidence>

  /** A row read and judged at one time. */
  function Glance(s: Session, now: int): Evidence
  {
    Evidence(s, now, Some(now))
  }

  function Stamp(a: Session, b: Session, basis: Basis): Version
  {
    Version(b, if basis.Some? then basis.value else Glance(a, b.updatedAt))
  }

  /** One step may leave a row alone or commit one revision of it, and may add fresh rows; it removes none. */
  predicate Evolves(a: Db, b: Db, basis: Basis, now: int)
  {
    && (forall id :: id in a.sessions ==> id in b.sessions && Advances(a.sessions[id], b.sessions[id], basis, now))
    && (forall id :: id in b.sessions && id !in a.sessions ==> Born(id, b.sessions[id]) && b.sessions[id].updatedAt == now)
  }

  predicate Advances(a: Session, b: Session, basis: Basis, now: int)
  {
    b == a || (Follows(a, Stamp(a, b, basis)) && b.updatedAt == now)
  }

  lemma EvolvesKeepsLegal(a: Db, b: Db, basis: Basis, clock: int, now: int)
    requires Legal(a, clock) && clock <= now && Evolves(a, b, basis, now) && (basis.Some? ==> Sound(basis.value.read))
    ensures Legal(b, now)
  {
  }

  // ---------- the revisions of one session ----------

  /** All revisions of one session row, oldest first. */
  type History = h: seq<Version> | h != [] witness [Version(BLANK, Glance(BLANK, 0))]

  /** The row that was read is one of the first `n` revisions, and was still the newest one when the call began. */
  predicate Seen(h: History, n: nat, e: Evidence)
    requires n <= |h|
  {
    && 1 <= e.read.revision <= n && h[e.read.revision - 1].row == e.read
    && (e.read.revision < n ==> e.began <= h[e.read.revision].row.updatedAt)
  }

  predicate FollowsAt(h: History, i: nat)
    requires i + 1 < |h|
  {
    Follows(h[i].row, h[i + 1]) && Seen(h, i + 1, h[i + 1].basis)
  }

  predicate LegalHistory(id: Id, h: History)
  {
    && Born(id, h[0].row) && h[0] == Version(h[0].row, Glance(h[0].row, h[0].row.updatedAt))
    && forall i: nat :: i + 1 < |h| ==> FollowsAt(h, i)
  }

  /** Every revision is numbered by its position, keeps the request it was born with, and is sound. */
  lemma {:induction false} VersionFacts(id: Id, h: History, i: nat)
    requires LegalHistory(id, h) && i < |h|
    ensures h[i].row.revision == i + 1 && SameRequest(h[0].row, h[i].row) && h[i].row.id == id
    ensures Sound(h[i].row)
    decreases i
  {
    if i > 0 {
      VersionFacts(id, h, i - 1);
      assert FollowsAt(h, i - 1);
      VersionFacts(id, h, h[i].basis.read.revision - 1);
    }
  }

  lemma {:induction false} TimesOrdered(id: Id, h: History, i: nat, j: nat)
    requires LegalHistory(id, h) && i <= j < |h|
    ensures h[i].row.updatedAt <= h[j].row.updatedAt
  {
    if i < j {
      TimesOrdered(id, h, i, j - 1);
      assert FollowsAt(h, j - 1);
    }
  }

  /** ended and failed are absorbing: only the newest revision can be terminal. */
  lemma TerminalIsLast(id: Id, h: History, i: nat)
    requires LegalHistory(id, h) && i < |h| - 1
    ensures !IsTerminal(h[i].row.state)
  {
    assert FollowsAt(h, i);
  }

  /** started_at is the time of the first connection, from that revision on, and empty before it. */
  lemma {:induction false} StartedAtFirstConnection(id: Id, h: History, i: nat)
    requires LegalHistory(id, h) && i < |h|
    ensures h[i].row.startedAt.None? ==> forall k :: 0 <= k <= i ==> !IsConnected(h[k].row.state)
    ensures h[i].row.startedAt.Some? ==>
              exists k :: 0 <= k <= i && IsConnected(h[k].row.state) && h[i].row.startedAt == Some(h[k].row.updatedAt)
                          && forall l :: 0 <= l < k ==> !IsConnected(h[l].row.state)
  {
    if i > 0 {
      StartedAtFirstConnection(id, h, i - 1);
      assert FollowsAt(h, i - 1);
    }
  }

  lemma {:induction false} StartedAtNeverChanges(id: Id, h: History, i: nat, j: nat)
    requires LegalHistory(id, h) && i <= j < |h| && h[i].row.startedAt.Some?
    ensures h[j].row.startedAt == h[i].row.startedAt
  {
    if i < j {
      StartedAtNeverChanges(id, h, i, j - 1);
      assert FollowsAt(h, j - 1);
    }
  }

  // ---------- what is granted ----------

  /** The host has accepted at or before revision `i + 1`. */
  predicate Accepted(h: History, i: nat)
    requires i < |h|
  {
    exists k :: 0 <= k <= i && h[k].row.state.Negotiating?
  }

  /** A call that writes back what it read had read the row before the host accepted. */
  predicate WroteStale(v: Version)
  {
    WritesBack(v.row.state) && IsWaiting(v.basis.read.state)
  }

  predicate GrantedAsRequested(h: History, i: nat)
    requires i < |h|
  {
    Accepted(h, i) ==> h[i].row.granted == h[i].row.requested
  }

  /** Until the host accepts every revision is a waiting one, or the last. */
  lemma {:induction false} AcceptedUnlessWaiting(id: Id, h: History, i: nat)
    requires LegalHistory(id, h) && i < |h|
    ensures IsWaiting(h[i].row.state) ==> !Accepted(h, i)
    ensures !Accepted(h, i) ==> IsWaiting(h[i].row.state) || IsTerminal(h[i].row.state)
    ensures Accepted(h, i) ==> forall j :: i <= j < |h| ==> Accepted(h, j)
  {
    if i > 0 {
      AcceptedUnlessWaiting(id, h, i - 1);
      assert FollowsAt(h, i - 1);
      assert Accepted(h, i) <==> Accepted(h, i - 1) || h[i].row.state.Negotiating?;
    }
  }

  /** Nothing is granted before the host accepts, and never anything but the requested list. */
  lemma {:induction false} NothingGrantedBefore(id: Id, h: History, i: nat)
    requires LegalHistory(id, h) && i < |h|
    ensures !Accepted(h, i) ==> h[i].row.granted == NoCaps
    ensures h[i].row.granted == NoCaps || h[i].row.granted == h[i].row.requested
  {
    VersionFacts(id, h, i);
    if i > 0 {
      NothingGrantedBefore(id, h, i - 1);
      AcceptedUnlessWaiting(id, h, i);
      assert FollowsAt(h, i - 1);
    }
  }

  /**
   * After the host accepted, the granted list is the requested one in every revision exactly when no call that marked
   * the session connected or reconnecting went by a row it had read before the acceptance.
   */
  lemma GrantedExactlyWhen(id: Id, h: History)
    requires LegalHistory(id, h)
    ensures (forall i :: 0 <= i < |h| ==> GrantedAsRequested(h, i)) <==> (forall i :: 0 <= i < |h| ==> !WroteStale(h[i]))
  {
    if forall i :: 0 <= i < |h| ==> !WroteStale(h[i]) {
      forall i | 0 <= i < |h|
        ensures GrantedAsRequested(h, i)
      {
        GrantedWithoutStale(id, h, i);
      }
    }
    forall i | 0 <= i < |h| && WroteStale(h[i])
      ensures !GrantedAsRequested(h, i)
    {
      StaleTakesBack(id, h, i);
    }
  }

  lemma {:induction false} GrantedWithoutStale(id: Id, h: History, i: nat)
    requires LegalHistory(id, h) && i < |h| && forall j :: 0 <= j < |h| ==> !WroteStale(h[j])
    ensures GrantedAsRequested(h, i)
    decreases i
  {
    if i > 0 {
      GrantedWithoutStale(id, h, i - 1);
      assert FollowsAt(h, i - 1);
      AcceptedUnlessWaiting(id, h, i - 1);
      VersionFacts(id, h, i);
      var k := h[i].basis.read.revision - 1;
      GrantedWithoutStale(id, h, k);
      AcceptedUnlessWaiting(id, h, k);
      if k < i - 1 {
        TerminalIsLast(id, h, k);
      }
    }
  }

  lemma StaleTakesBack(id: Id, h: History, i: nat)
    requires LegalHistory(id, h) && i < |h| && WroteStale(h[i])
    ensures Accepted(h, i) && h[i].row.granted == NoCaps != h[i].row.requested
  {
    VersionFacts(id, h, i);
    AcceptedUnlessWaiting(id, h, i);
    if i > 0 {
      assert FollowsAt(h, i - 1);
      VersionFacts(id, h, h[i].basis.read.revision - 1);
    }
  }

  // ---------- how long a phase takes ----------

  /** How long the call had been at work when it wrote: from its first read to its write. */
  function Duration(v: Version): int
  {
    v.row.updatedAt - v.basis.began
  }

  /**
   * A session that gets connected overstays a phase on the way there by less than the call that ended the phase took,
   * whatever overtook that call. When it went by the row it moved, it had compared that row's limit, and the excess is
   * less than the time between the comparison and the write; or it had read a row that is newer than its beginning.
   */
  lemma PhasesWithinLimits(id: Id, h: History, i: nat, j: nat)
    requires LegalHistory(id, h) && i < j < |h| && IsConnected(h[j].row.state)
    requires h[i].row.state.WaitingConsent? || h[i].row.state.Negotiating? || h[i].row.state.Reconnecting?
    ensures var a, v := h[i].row, h[i + 1];
            var ttl := if a.state.WaitingConsent? then 60 * SECOND else if a.state.Negotiating? then 2 * MINUTE else 30 * SECOND;
            && Duration(v) >= 0
            && v.row.updatedAt - a.updatedAt < ttl + Duration(v)
            && (v.basis.read == a && v.basis.checkedAt.Some? ==>
                  v.row.updatedAt - a.updatedAt < ttl + (v.row.updatedAt - v.basis.checkedAt.value))
            && (v.basis.read != a || v.basis.checkedAt.None? ==> v.row.updatedAt - a.updatedAt <= Duration(v))
  {
    assert FollowsAt(h, i);
    VersionFacts(id, h, i);
    if i + 1 < j {
      TerminalIsLast(id, h, i + 1);
    }
    if h[i + 1].basis.read != h[i].row {
      TimesOrdered(id, h, h[i + 1].basis.read.revision, i);
    }
  }

  lemma HistoryExtends(id: Id, h: History, v: Version)
    requires LegalHistory(id, h) && Follows(h[|h| - 1].row, v) && Seen(h, |h|, v.basis)
    ensures LegalHistory(id, h + [v])
  {
    var h' := h + [v];
    forall i: nat | i + 1 < |h'|
      ensures FollowsAt(h', i)
    {
      if i + 1 < |h| {
        assert FollowsAt(h, i);
      }
    }
  }
}
