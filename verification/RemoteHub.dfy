/** The signaling hub object: its connections, and the service whose tables it consults. */
module RemoteHub {
  import opened Basics
  import opened RemoteModel
  import opened RemoteService
  import opened RemoteHubSpec

  /** The connections of a broadcast loop that are still to be served. */
  lemma PushAllStep(conns: map<nat, Conn>, all: set<nat>, todo: set<nat>, c: nat, m: Outgoing)
    requires c in todo && todo <= all
    ensures var before := PushAll(conns, all - todo, m);
            PushAll(conns, all - (todo - {c}), m) == if c in conns then before[c := Push(conns[c], m)] else before
    ensures c in conns ==> PushAll(conns, all - todo, m)[c] == conns[c]
  {
  }

  lemma PushAllEnds(conns: map<nat, Conn>, all: set<nat>, m: Outgoing)
    ensures PushAll(conns, all - all, m) == conns
    ensures PushAll(conns, all - {}, m) == PushAll(conns, all, m)
  {
    assert all - {} == all;
    assert all - all == {};
    assert PushAll(conns, {}, m) == conns;
  }

  class RemoteHub {
    const service: Service
    var conns: map<nat, Conn>
    var clients: map<(Role, Id), set<nat>>

    ghost function Contents(): Hub
      reads this
    {
      Hub(conns, clients)
    }

    ghost predicate Valid()
      reads this, service, service.repo
    {
      service.Valid()
    }

    constructor (service: Service)
      requires service.Valid()
      ensures Valid() && this.service == service && Contents() == Hub(map[], map[])
    {
      this.service := service;
      conns, clients := map[], map[];
    }

    method Send(c: nat, m: Outgoing)
      modifies this
      ensures Contents() == Reply(old(Contents()), c, m)
    {
      if c in conns && |conns[c].outbox| < SEND_BUFFER {
        conns := conns[c := conns[c].(outbox := conns[c].outbox + [m])];
      }
    }

    method SendRawToEndpoint(role: Role, endpoint: Id, m: Outgoing)
      modifies this
      ensures Contents() == Deliver(old(Contents()), role, endpoint, m)
    {
      if (role, endpoint) !in clients {
        assert conns == PushAll(conns, {}, m);
        return;
      }
      ghost var before := conns;
      var peers := clients[(role, endpoint)];
      var todo := peers;
      PushAllEnds(before, peers, m);
      while todo != {}
        invariant todo <= peers
        invariant clients == old(clients)
        invariant conns == PushAll(before, peers - todo, m)
        decreases todo
      {
        var c :| c in todo;
        PushAllStep(before, peers, todo, c, m);
        Send(c, m);
        todo := todo - {c};
      }
    }

    method AddClient(c: nat, role: Role, identity: Option<Id>)
      modifies this
      ensures Contents() == Join(old(Contents()), c, role, identity)
    {
      if role == OtherRole || identity.None? || identity.value == NONE {
        return;
      }
      var k := (role, identity.value);
      if k !in clients {
        clients := clients[k := {}];
      }
      clients := clients[k := clients[k] + {c}];
      conns := conns[c := Conn(role, identity.value, map[], map[], [])];
      assert clients == old(clients)[k := Peers(old(Contents()), role, identity.value) + {c}];
      assert Push(conns[c], Joined).outbox == [Joined];
      Send(c, Joined);
      assert conns == old(conns)[c := Conn(role, identity.value, map[], map[], [Joined])];
    }

    method SessionForEndpoint(sid: Id, role: Role, endpoint: Id, now: int) returns (r: Result<Session, Error>)
      requires Valid()
      modifies service.repo
      ensures Valid()
      ensures (service.repo.Contents(), r) == Lookup(old(service.repo.Contents()), role, endpoint, sid, now)
    {
      if role == Controller {
        r := service.GetSessionForController(sid, endpoint, now);
      } else {
        r := service.GetSessionForHost(sid, endpoint, now);
      }
    }

    /** handleSignal up to the call of forwardSignal. */
    method AdmitSignal(c: nat, m: Signal, now: int) returns (r: Result<Signal, Error>)
      requires Valid() && c in conns
      modifies this, service.repo
      ensures Valid()
      ensures (Contents(), service.repo.Contents(), r)
              == Admit(old(Contents()), old(service.repo.Contents()), service.tickets.key, c, m, now)
    {
      if m.Malformed? || m.version != PROTOCOL_VERSION || m.revision <= 0 {
        return Failure(Invalid);
      }
      var conn := conns[c];
      match m.kind
      case ClientReady =>
        if m.ticket.None? || m.description.Some? || m.candidate.Some? {
          return Failure(Invalid);
        }
        var consumed := service.ConsumeTicket(m.ticket.value, m.sessionId, conn.endpoint, conn.role, m.revision, now);
        if consumed.Failure? {
          return Failure(consumed.error);
        }
        conns := conns[c := conn.(authorized := conn.authorized[m.sessionId := m.revision])];
        return Success(m.(ticket := None));
      case Ice =>
        if AuthorizedAt(conn, m.sessionId) != m.revision || m.ticket.Some? || m.description.Some? || m.candidate.None? {
          return Failure(Unauthorized);
        }
        if !ValidCandidate(m.candidate.value) {
          return Failure(Invalid);
        }
        var n := IceCount(conn, m.sessionId, m.revision) + 1;
        conns := conns[c := conn.(ice := conn.ice[(m.sessionId, m.revision) := n])];
        if n > MAX_ICE_PER_SESSION {
          return Failure(Invalid);
        }
        return Success(m);
      case PeerLeft => return Failure(Invalid);
      case OtherKind => return Failure(Invalid);
      case _ =>
        if AuthorizedAt(conn, m.sessionId) != m.revision || m.ticket.Some? || m.description.None? || m.candidate.Some? {
          return Failure(Unauthorized);
        }
        if m.description.value.kind != m.kind || m.description.value.length == 0 || m.description.value.length > MAX_SDP {
          return Failure(Invalid);
        }
        return Success(m);
    }

    method ForwardTo(role: Role, s: Session, m: Signal)
      modifies this
      ensures Contents() == SendOn(old(Contents()), role, s, m)
    {
      var targetRole, targetId := Host, s.hostId;
      if role == Host {
        targetRole, targetId := Controller, s.controllerId;
      }
      SendRawToEndpoint(targetRole, targetId, Relayed(m));
    }

    /** readLoop on one message. */
    method HandleSignal(c: nat, m: Signal, now: int)
      requires Valid() && c in conns
      modifies this, service.repo
      ensures Valid()
      ensures (Contents(), service.repo.Contents())
              == RemoteHubSpec.HandleSignal(old(Contents()), old(service.repo.Contents()), service.tickets.key, c, m, now)
    {
      var role, endpoint := conns[c].role, conns[c].endpoint;
      var admitted := AdmitSignal(c, m, now);
      if admitted.Failure? {
        Send(c, Rejected(admitted.error));
        return;
      }
      var found := SessionForEndpoint(admitted.value.sessionId, role, endpoint, now);
      if found.Failure? {
        Send(c, Rejected(found.error));
        return;
      }
      var s := found.value;
      var validRevision := (s.state == Negotiating || s.state == Reconnecting) && s.revision == admitted.value.revision;
      if s.state == ConnectedView || s.state == ConnectedControl {
        validRevision := s.revision == admitted.value.revision + 1;
      }
      if !validRevision {
        Send(c, Rejected(Conflict));
        return;
      }
      ForwardTo(role, s, admitted.value);
    }

    /** The body of the loop in notifyPeerLeft. */
    method SessionLeft(conn: Conn, sid: Id, now: int)
      requires Valid()
      modifies this, service.repo
      ensures Valid()
      ensures (Contents(), service.repo.Contents()) == Left(old(Contents()), old(service.repo.Contents()), conn, sid, now)
    {
      var found := SessionForEndpoint(sid, conn.role, conn.endpoint, now);
      if found.Failure? || IsTerminal(found.value.state) {
        return;
      }
      var s := found.value;
      if IsConnected(s.state) {
        var moved := service.MarkReconnecting(sid, conn.endpoint, conn.role, s.revision, now, now);
        if moved.Success? {
          s := moved.value;
        }
      }
      ForwardTo(conn.role, s, Signal(PROTOCOL_VERSION, PeerLeft, sid, s.revision, None, None, None));
    }

    /** `order` is the order in which the loop happens to meet the sessions of the connection. */
    method NotifyPeerLeft(conn: Conn, now: int) returns (ghost order: seq<Id>)
      requires Valid()
      modifies this, service.repo
      ensures Valid()
      ensures multiset(order) == multiset(conn.authorized.Keys)
      ensures (Contents(), service.repo.Contents())
              == AllLeft(old(Contents()), old(service.repo.Contents()), conn, order, now)
    {
      order := [];
      var todo := conn.authorized.Keys;
      while todo != {}
        invariant Valid()
        invariant todo <= conn.authorized.Keys
        invariant multiset(order) == multiset(conn.authorized.Keys - todo)
        invariant (Contents(), service.repo.Contents())
                  == AllLeft(old(Contents()), old(service.repo.Contents()), conn, order, now)
        decreases todo
      {
        var sid :| sid in todo;
        SessionLeft(conn, sid, now);
        assert (order + [sid])[..|order|] == order;
        assert conn.authorized.Keys - (todo - {sid}) == (conn.authorized.Keys - todo) + {sid};
        order := order + [sid];
        todo := todo - {sid};
      }
      assert conn.authorized.Keys - {} == conn.authorized.Keys;
    }

    method RemoveClient(c: nat, now: int) returns (ghost order: seq<Id>)
      requires Valid() && c in conns
      modifies this, service.repo
      ensures Valid()
      ensures var (hub, offline) := Drop(old(Contents()), c);
              if offline
              then && multiset(order) == multiset(old(conns[c]).authorized.Keys)
                   && (Contents(), service.repo.Contents())
                      == AllLeft(hub, old(service.repo.Contents()), old(conns[c]), order, now)
              else Contents() == hub && service.repo.Contents() == old(service.repo.Contents())
    {
      var conn := conns[c];
      var k := (conn.role, conn.endpoint);
      var offline := false;
      if k in clients {
        clients := clients[k := clients[k] - {c}];
        if clients[k] == {} {
          clients := clients - {k};
          offline := true;
        }
      }
      conns := conns - {c};
      order := [];
      assert Contents() == Drop(old(Contents()), c).0;
      if offline {
        order := NotifyPeerLeft(conn, now);
      }
    }
  }
}
