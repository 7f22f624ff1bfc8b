/** The WebSocket hub object and its calls into the session manager. */
module SessionHub {
  import opened Basics
  import opened SessionSpec
  import opened SessionManager
  import opened SessionHubSpec

  lemma OfferAllStep(clients: map<nat, Client>, all: set<nat>, todo: set<nat>, c: nat, msg: Message)
    requires c in todo && todo <= all
    ensures OfferAll(clients, all - (todo - {c}), msg) == Offer(OfferAll(clients, all - todo, msg), c, msg)
    ensures c in clients ==> OfferAll(clients, all - todo, msg)[c] == clients[c]
  {
  }

  lemma OfferAllEnds(clients: map<nat, Client>, all: set<nat>, msg: Message)
    ensures OfferAll(clients, all - all, msg) == clients
    ensures OfferAll(clients, all - {}, msg) == OfferAll(clients, all, msg)
  {
    assert all - {} == all;
    assert all - all == {};
    assert OfferAll(clients, {}, msg) == clients;
  }

  class SessionHub {
    const manager: SessionManager
    var clients: map<nat, Client>
    var live: set<nat>
    var bySession: map<Id, seq<nat>>
    var relays: set<nat>
    var pending: seq<PendingMsg>

    ghost function Contents(): Hub
      reads this
    {
      Hub(clients, live, bySession, relays, pending)
    }

    constructor (manager: SessionManager)
      ensures this.manager == manager && Contents() == Hub(map[], {}, map[], {}, [])
    {
      this.manager := manager;
      clients, live, bySession, relays, pending := map[], {}, map[], {}, [];
    }

    method Connect(c: nat)
      modifies this
      ensures Contents() == SessionHubSpec.Connect(old(Contents()), c)
    {
      clients, live := clients[c := UNJOINED], live + {c};
    }

    method SendTo(c: nat, msg: Message) returns (sent: bool)
      modifies `clients
      ensures clients == Offer(old(clients), c, msg)
      ensures sent <==> c in old(clients) && |old(clients)[c].send| < SEND_BUFFER
    {
      sent := c in clients && |clients[c].send| < SEND_BUFFER;
      if sent {
        clients := clients[c := clients[c].(send := clients[c].send + [msg])];
      }
    }

    method RemoveClientFromSession(c: nat, now: int)
      requires c in clients
      modifies this, manager
      ensures Contents() == RemoveFromSession(old(Contents()), old(manager.Contents()), c, now).0
      ensures manager.Contents() == RemoveFromSession(old(Contents()), old(manager.Contents()), c, now).1
    {
      var client := clients[c];
      if client.sessionId == NONE {
        return;
      }
      var list := if client.sessionId in bySession then bySession[client.sessionId] else [];
      var replaced := false;
      var i := 0;
      while i < |list| && !replaced
        invariant 0 <= i <= |list|
        invariant replaced <==>
                  exists j :: 0 <= j < i && list[j] != c && list[j] in clients && clients[list[j]].clientId == client.clientId
      {
        replaced := list[i] != c && list[i] in clients && clients[list[i]].clientId == client.clientId;
        i := i + 1;
      }
      var rest := Cut(list, c);
      if |rest| == 0 {
        bySession := bySession - {client.sessionId};
      } else {
        bySession := bySession[client.sessionId := rest];
      }
      if !replaced {
        manager.LeaveSession(client.sessionId, client.clientId, now);
      }
      relays := relays - {c};
    }

    method Disconnect(c: nat, now: int)
      requires c in clients
      modifies this, manager
      ensures (Contents(), manager.Contents()) == SessionHubSpec.Disconnect(old(Contents()), old(manager.Contents()), c, now)
    {
      live := live - {c};
      if clients[c].sessionId != NONE {
        RemoveClientFromSession(c, now);
      }
    }

    method SetUpJoinSession(join: Join, newId: Id, now: int) returns (j: Join)
      modifies manager
      ensures (manager.Contents(), j) == SetUp(old(manager.Contents()), join, newId, now)
    {
      j := join;
      if j.sessionId == NONE {
        var project := j.project;
        if project == "" {
          project := DEFAULT_PROJECT;
        }
        var sid := manager.GetOrCreateSession(newId, project, now);
        j := j.(sessionId := sid, project := project);
      }
      manager.JoinSession(j.sessionId, j.clientId, j.kind, now);
    }

    /** Take the buffered messages of a project out of the buffer. */
    method TakePending(project: string) returns (mine: seq<Message>)
      modifies `pending
      ensures mine == Mine(old(pending), project) && pending == Others(old(pending), project)
    {
      mine := [];
      var remaining: seq<PendingMsg> := [];
      var i := 0;
      while i < |pending|
        invariant 0 <= i <= |pending| && pending == old(pending)
        invariant mine == Mine(pending[..i], project) && remaining == Others(pending[..i], project)
      {
        assert pending[..i + 1][..i] == pending[..i];
        if pending[i].project == project {
          mine := mine + [pending[i].data];
        } else {
          remaining := remaining + [pending[i]];
        }
        i := i + 1;
      }
      assert pending[..i] == pending;
      pending := remaining;
    }

    method RegisterJoinClient(c: nat, join: Join, now: int) returns (flush: seq<Message>)
      requires c in clients
      modifies this, manager
      ensures Contents() == Register(old(Contents()), old(manager.Contents()), c, join, now).0
      ensures manager.Contents() == Register(old(Contents()), old(manager.Contents()), c, join, now).1
      ensures flush == Register(old(Contents()), old(manager.Contents()), c, join, now).2
    {
      if clients[c].sessionId != NONE && clients[c].sessionId != join.sessionId {
        RemoveClientFromSession(c, now);
      }
      var relay := join.kind == Terminal && join.clientId.relay;
      clients := clients[c := clients[c].(sessionId := join.sessionId, clientId := join.clientId, kind := join.kind,
                                          project := join.project, relay := relay)];
      if relay {
        relays := relays + {c};
      }
      var list := if join.sessionId in bySession then bySession[join.sessionId] else [];
      bySession := bySession[join.sessionId := list + [c]];
      flush := [];
      if relay {
        flush := TakePending(join.project);
      }
    }

    method SendMany(c: nat, msgs: seq<Message>)
      modifies `clients
      ensures clients == OfferMany(old(clients), c, msgs)
    {
      var i := 0;
      while i < |msgs|
        invariant 0 <= i <= |msgs|
        invariant clients == OfferMany(old(clients), c, msgs[..i])
      {
        assert msgs[..i + 1][..i] == msgs[..i];
        var _ := SendTo(c, msgs[i]);
        i := i + 1;
      }
      assert msgs[..i] == msgs;
    }

    /** `history` tells whether the queue has history for the session. */
    method HandleJoin(c: nat, join: Join, newId: Id, history: bool, now: int)
      requires c in clients
      modifies this, manager
      ensures (Contents(), manager.Contents())
              == SessionHubSpec.HandleJoin(old(Contents()), old(manager.Contents()), c, join, newId, history, now)
    {
      var j := SetUpJoinSession(join, newId, now);
      var flush := RegisterJoinClient(c, j, now);
      var msgs := [JoinAck(j.clientId, j.sessionId)];
      if history {
        msgs := msgs + [History(j.sessionId)];
      }
      assert msgs == [JoinAck(j.clientId, j.sessionId)] + (if history then [History(j.sessionId)] else []);
      SendMany(c, msgs + flush);
    }

    method BroadcastToSession(sid: Id, msg: Message, sender: ClientId)
      modifies `clients
      ensures clients == OfferList(old(clients), Members(old(Contents()), sid), sender, msg)
    {
      var list := if sid in bySession then bySession[sid] else [];
      var i := 0;
      while i < |list|
        invariant 0 <= i <= |list|
        invariant clients.Keys == old(clients).Keys
        invariant forall d :: d in clients ==> clients[d].clientId == old(clients)[d].clientId
        invariant clients == OfferList(old(clients), list[..i], sender, msg)
      {
        assert list[..i + 1][..i] == list[..i];
        if list[i] in clients && clients[list[i]].clientId != sender {
          var _ := SendTo(list[i], msg);
        }
        i := i + 1;
      }
      assert list[..i] == list;
    }

    method BroadcastToAllTerminals(msg: Message, sender: ClientId, sid: Id, project: string)
      modifies this
      ensures Contents() == BroadcastToTerminals(old(Contents()), msg, sender, sid, project)
    {
      if project == "" {
        return;
      }
      ghost var before := Contents();
      var targets: set<nat> := {};
      var covered := false;
      var todo := relays;
      while todo != {}
        invariant todo <= relays && Contents() == before
        invariant targets == Targets(before, sender, sid, project) - todo
        invariant covered <==>
                  exists c :: c in relays - todo && Addressed(before, c, sender, project) && clients[c].sessionId == sid
        decreases todo
      {
        var c :| c in todo;
        if c in clients && clients[c].clientId != sender && clients[c].project == project {
          if clients[c].sessionId == sid {
            covered := true;
          } else {
            targets := targets + {c};
          }
        }
        todo := todo - {c};
      }
      var sent := SendAll(targets, msg);
      if !sent && !covered {
        pending := pending + [PendingMsg(project, msg)];
        if |pending| > PENDING_MAX {
          pending := pending[1..];
        }
      }
    }

    method SendAll(targets: set<nat>, msg: Message) returns (sent: bool)
      modifies `clients
      ensures clients == OfferAll(old(clients), targets, msg)
      ensures sent <==> Reaches(old(clients), targets)
    {
      ghost var before := clients;
      sent := false;
      var todo := targets;
      OfferAllEnds(before, targets, msg);
      while todo != {}
        invariant todo <= targets
        invariant clients == OfferAll(before, targets - todo, msg)
        invariant sent <==> Reaches(before, targets - todo)
        decreases todo
      {
        var c :| c in todo;
        OfferAllStep(before, targets, todo, c, msg);
        var ok := SendTo(c, msg);
        sent := sent || ok;
        todo := todo - {c};
      }
      assert targets - {} == targets;
    }

    method HandleSessionMsg(c: nat, project: string, body: Id)
      requires c in clients
      modifies this
      ensures Contents() == SessionHubSpec.HandleSessionMsg(old(Contents()), c, project, body)
    {
      var sender := clients[c];
      var name := project;
      if name == "" {
        name := DEFAULT_PROJECT;
      }
      BroadcastToSession(sender.sessionId, SessionMsg(sender.sessionId, body), sender.clientId);
      BroadcastToAllTerminals(SessionMsg(NONE, body), sender.clientId, sender.sessionId, name);
    }
  }
}
