/** The WebSocket hub: who is connected, in which session, and where phone messages go. */
module SessionHubSpec {
  import opened Basics
  import opened SessionSpec

  /** `sessionId` is NONE until the connection joins; `send` is its channel. */
  datatype Client = Client(sessionId: Id, clientId: ClientId, kind: Kind, relay: bool, project: string, send: seq<Message>)

  datatype Message = JoinAck(cid: ClientId, sid: Id) | History(sid: Id) | SessionMsg(sid: Id, body: Id)

  datatype PendingMsg = PendingMsg(project: string, data: Message)

  /** All connection objects by number, those still open, the list of each session, the relays, and the buffer for them. */
  datatype Hub = Hub(clients: map<nat, Client>, live: set<nat>, bySession: map<Id, seq<nat>>, relays: set<nat>,
                     pending: seq<PendingMsg>)

  /** A join message that passed validation; an empty session id asks for the session of the project. */
  datatype Join = Join(sessionId: Id, clientId: ClientId, kind: Kind, project: string)

  const SEND_BUFFER := 64
  const PENDING_MAX := 50
  const DEFAULT_PROJECT := "serein"

  function Project(name: string): string { if name == "" then DEFAULT_PROJECT else name }

  const UNJOINED := Client(NONE, ClientId(NONE, false), NoKind, false, "", [])

  function Connect(h: Hub, c: nat): Hub
  {
    h.(clients := h.clients[c := UNJOINED], live := h.live + {c})
  }

  function Members(h: Hub, sid: Id): seq<nat>
  {
    if sid in h.bySession then h.bySession[sid] else []
  }

  // ---------- membership ----------

  /** Another connection in the list carries the same client id. */
  predicate Replaced(h: Hub, c: nat)
    requires c in h.clients
  {
    var list := Members(h, h.clients[c].sessionId);
    exists i :: 0 <= i < |list| && list[i] != c && list[i] in h.clients && h.clients[list[i]].clientId == h.clients[c].clientId
  }

  function WithList(h: Hub, sid: Id, list: seq<nat>): map<Id, seq<nat>>
  {
    if list == [] then h.bySession - {sid} else h.bySession[sid := list]
  }

  /** removeClientFromSession: leave the list, and the session too unless a connection with the same id stays. */
  function RemoveFromSession(h: Hub, m: Manager, c: nat, now: int): (Hub, Manager)
    requires c in h.clients
  {
    var sid := h.clients[c].sessionId;
    if sid == NONE then (h, m)
    else
      (h.(bySession := WithList(h, sid, Without(Members(h, sid), c)), relays := h.relays - {c}),
       if Replaced(h, c) then m else LeaveSession(m, sid, h.clients[c].clientId, now))
  }

  /** The read goroutine ends. */
  function Disconnect(h: Hub, m: Manager, c: nat, now: int): (Hub, Manager)
    requires c in h.clients
  {
    RemoveFromSession(h.(live := h.live - {c}), m, c, now)
  }

  /** setupJoinSession: the manager after the join, and the session joined. */
  function SetUp(m: Manager, join: Join, newId: Id, now: int): (Manager, Join)
  {
    var (m1, j) :=
      if join.sessionId != NONE then (m, join)
      else
        var (m1, sid) := GetOrCreate(m, newId, Project(join.project), now);
        (m1, join.(sessionId := sid, project := Project(join.project)));
    (JoinSession(m1, j.sessionId, j.clientId, j.kind, now), j)
  }

  /** The buffered messages of a project, and the others, both in order. */
  function Mine(pending: seq<PendingMsg>, project: string): seq<Message>
  {
    if pending == [] then []
    else
      var p := pending[|pending| - 1];
      Mine(pending[..|pending| - 1], project) + (if p.project == project then [p.data] else [])
  }

  function Others(pending: seq<PendingMsg>, project: string): seq<PendingMsg>
  {
    if pending == [] then []
    else
      var p := pending[|pending| - 1];
      Others(pending[..|pending| - 1], project) + (if p.project == project then [] else [p])
  }

  predicate IsRelay(join: Join)
  {
    join.kind.Terminal? && join.clientId.relay
  }

  /** registerJoinClient: the hub after the join, and the buffered messages to flush. */
  function Register(h: Hub, m: Manager, c: nat, join: Join, now: int): (Hub, Manager, seq<Message>)
    requires c in h.clients
  {
    var before := h.clients[c].sessionId;
    var (h1, m1) := if before != NONE && before != join.sessionId then RemoveFromSession(h, m, c, now) else (h, m);
    var relay := IsRelay(join);
    var client := h1.clients[c].(sessionId := join.sessionId, clientId := join.clientId, kind := join.kind,
                                 project := join.project, relay := relay);
    (h1.(clients := h1.clients[c := client],
     relays := if relay then h1.relays + {c} else h1.relays,
     bySession := h1.bySession[join.sessionId := Members(h1, join.sessionId) + [c]],
     pending := if relay then Others(h1.pending, join.project) else h1.pending),
     m1,
     if relay then Mine(h1.pending, join.project) else [])
  }

  /** A non-blocking send to one connection. */
  function Offer(clients: map<nat, Client>, c: nat, msg: Message): map<nat, Client>
  {
    if c in clients && |clients[c].send| < SEND_BUFFER
    then clients[c := clients[c].(send := clients[c].send + [msg])]
    else clients
  }

  function OfferMany(clients: map<nat, Client>, c: nat, msgs: seq<Message>): map<nat, Client>
  {
    if msgs == [] then clients else Offer(OfferMany(clients, c, msgs[..|msgs| - 1]), c, msgs[|msgs| - 1])
  }

  /** handleJoin: acknowledgement first, then the history if there is any, then what was buffered for the relay. */
  function HandleJoin(h: Hub, m: Manager, c: nat, join: Join, newId: Id, history: bool, now: int): (Hub, Manager)
    requires c in h.clients
  {
    var (m1, j) := SetUp(m, join, newId, now);
    var (h1, m2, flush) := Register(h, m1, c, j, now);
    var first := [JoinAck(j.clientId, j.sessionId)] + (if history then [History(j.sessionId)] else []);
    (h1.(clients := OfferMany(h1.clients, c, first + flush)), m2)
  }

  // ---------- routing ----------

  /** Send to every entry of a list, in order, except to the sender. */
  function OfferList(clients: map<nat, Client>, list: seq<nat>, sender: ClientId, msg: Message): map<nat, Client>
  {
    if list == [] then clients
    else
      var done := OfferList(clients, list[..|list| - 1], sender, msg);
      var c := list[|list| - 1];
      if c in clients && clients[c].clientId != sender then Offer(done, c, msg) else done
  }

  predicate Addressed(h: Hub, c: nat, sender: ClientId, project: string)
  {
    c in h.relays && c in h.clients && h.clients[c].clientId != sender && h.clients[c].project == project
  }

  /** The relays of the project in other sessions. */
  function Targets(h: Hub, sender: ClientId, sid: Id, project: string): set<nat>
  {
    set c | c in h.relays && Addressed(h, c, sender, project) && h.clients[c].sessionId != sid
  }

  /** A relay of the project sits in the sender's own session. */
  predicate Covered(h: Hub, sender: ClientId, sid: Id, project: string)
  {
    exists c :: c in h.relays && Addressed(h, c, sender, project) && h.clients[c].sessionId == sid
  }

  function OfferAll(clients: map<nat, Client>, targets: set<nat>, msg: Message): map<nat, Client>
  {
    map c | c in clients ::
      if c in targets && |clients[c].send| < SEND_BUFFER then clients[c].(send := clients[c].send + [msg]) else clients[c]
  }

  predicate Reaches(clients: map<nat, Client>, targets: set<nat>)
  {
    exists c :: c in targets && c in clients && |clients[c].send| < SEND_BUFFER
  }

  /** The buffer keeps the newest messages. */
  function Buffered(pending: seq<PendingMsg>, p: PendingMsg): seq<PendingMsg>
  {
    if |pending| + 1 > PENDING_MAX then (pending + [p])[1..] else pending + [p]
  }

  function BroadcastToTerminals(h: Hub, msg: Message, sender: ClientId, sid: Id, project: string): Hub
  {
    if project == "" then h
    else
      var targets := Targets(h, sender, sid, project);
      h.(clients := OfferAll(h.clients, targets, msg),
      pending := if Reaches(h.clients, targets) || Covered(h, sender, sid, project) then h.pending
                 else Buffered(h.pending, PendingMsg(project, msg)))
  }

  /** handleSessionMsg for a message of a joined phone that passed validation. */
  function HandleSessionMsg(h: Hub, c: nat, project: string, body: Id): Hub
    requires c in h.clients
  {
    var sender := h.clients[c];
    var h1 := h.(clients := OfferList(h.clients, Members(h, sender.sessionId), sender.clientId,
                                      SessionMsg(sender.sessionId, body)));
    BroadcastToTerminals(h1, SessionMsg(NONE, body), sender.clientId, sender.sessionId, Project(project))
  }
}
