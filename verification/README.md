# Verified models of the Serein backend, agent and hook

Serein lets a phone watch, steer and approve what a coding agent does on another machine. This project models the parts
of it where many callers race on shared state, or where text has to survive a transformation, and proves what those parts
promise. Everything is plain Dafny 4.11; `dafny verify dfyconfig.toml` checks the whole project.

## What is modelled

Each component comes as a specification (what one critical section, transaction or loop does, as a function of the old
state), an object or method of the same shape as the program's code, proved against it, and the results about it.

- **Remote desktop control** (`Remote*.dfy`). Session rows move by compare-and-swap on a revision. `RemoteModel` says
  what a committed revision may look like and what follows for a whole history; `RemoteSpec` gives every repository,
  ticket and service call; `RemoteRepository` and `RemoteService` are the objects; `RemoteLifecycle` shows that each
  transaction commits at most one legal revision per row. `RemoteHubSpec` and `RemoteHub` are the signaling hub.
  `RemoteRuns` lets service calls, read loops and departures interleave. A call is cut into its steps: it reads a row,
  compares its limit, reads again when its own timeout was overtaken, moves the row, reads what it moved, and issues a
  ticket. The handling of one message is cut into admitting, checking and sending. `RemoteCalls`, `RemoteForwarding` and
  `RemoteTickets` say exactly when calls, messages and tickets succeed and what they do then, `RemoteErrors` with which
  error they are refused; `RemoteSafety`,
  `RemoteDelivery`, `RemoteQuota`, `RemoteEpochs`, `RemoteGrants`, `RemoteLimits` and `RemoteClaims` hold what runs keep,
  `RemoteRaces` the runs that show what can overtake what, and `RemoteReconnects` one that negotiates a dropped session
  again.
- **Command queue** (`Command*.dfy`). One step per critical section; blocked producers, waiting consumers, late reports,
  timeouts and eviction interleave freely. `CommandWakeups` shows that no consumer is forgotten and that callers are
  answered, `CommandSteps` is about a reader of a command's steps.
- **Sessions and routing** (`Session*.dfy`). The WebSocket hub and the session manager with their six indexes, the phone
  message routing and its buffer, the cleanup, and the history a joining client gets. `SessionJoins` says what a join does
  and how long an abandoned session stays.
- **Approvals** (`Approval*.dfy`). The records, the clients, the scanner record by record, and the polling hook;
  `ApprovalDecisions` follows a decision from its maker to every later answer.
- **Rate limiter** (`RateLimiter*.dfy`). Pruned slots against the plain definition that keeps every accepted time, and
  against the requests and answers alone (`RateLimiterRuns`).
- **Shell chains** (`Shell*.dfy`). The quote-aware splitter, its printer, the chain loop and the redirection loop.
  `ShellQuotes` says how every command is cut without the scanner's own terms, `ShellRuns` which commands then run.
- **Collaboration** (`Collaboration*.dfy`, `Envelope.dfy`). The bounded result text and the escaped prompt data.

## What the code does that its documentation does not say

The models follow the code. Where a stated or expected property is false of it, a lemma shows the case and another gives
the exact condition.

- A signaling message that has passed its revision check can still be delivered after the session has begun to reconnect
  (`RemoteRaces.OvertakenDelivery`); it happens exactly when such a message is about to be sent
  (`RemoteEpochs.IsolatedExactlyWhen`).
- A call compares the limit of the row it has read and moves the row later, so a session can get connected after a phase
  of any length (`RemoteRaces.OverstayedConsent`, `OverstayedNegotiation`, `OverstayedReconnection`); the limit it compares
  need not even be that of the row it moves (`RemoteRaces.LimitOfAnotherRevision`). A session over its limit is moved on in
  some run exactly when a call that is already in progress can do it (`RemoteLimits.OverstaysExactlyWhen`), and the excess
  is less than the time that call takes (`RemoteModel.PhasesWithinLimits`).
- A call that marks a session connected can write back the empty granted list it read before the host accepted
  (`RemoteRaces.GrantTakenBack`); what is granted is what was requested exactly when no call does that
  (`RemoteModel.GrantedExactlyWhen`), and callers that name no revision never do (`RemoteGrants.GrantedAsRequestedInRuns`).
- Approval by the primary device does not look at the two-minute limit of a waiting request
  (`RemoteClaims.ApprovalIgnoresTheLimit`).
- A command can be handed out again after its caller gave it up or it was evicted, because a copy may sit in a waiter's
  channel while its mark is cleared (`CommandSafety.HandedOutTwice`, `CommandSafety.DeliveredAtMostOncePerLife`).
- A WebSocket client that joins the session it is already in is listed twice (`SessionSafety.JoinKeepsExactlyWhen`).
- A phone message is neither delivered to a relay nor buffered when a relay sits in the sender's session and the channels
  are full (`SessionRouting.MissedExactlyWhen`, reached in `SessionLoss.MessageIsMissed`).
- The docstring of the shell splitter says that the first segment has no operator; a leading operator is kept
  (`ShellRoundTrip.LeadingOperatorIsKept`), exactly when nothing but blanks stands in front of the first operator
  (`ShellRoundTrip.FirstHasNoOperatorExactlyWhen`). The executor feeds a segment only in the third stage of a pipe or later
  (`ShellExecutor.FedExactlyWhen`), and a failed guard ends the chain (`ShellExecutor.FailedGuardEndsTheChain`).

## Conventions

- Identifiers and opaque texts are numbers compared for equality; zero is the empty string. Text that is scanned,
  trimmed, split or escaped is a sequence of characters, which stand for bytes where the program counts bytes.
- Limits and sizes are written out in figures in the results, and the states in the lemmas that end in `ExactlyWhen` by name.
- Each step reads the clock once: the limit, the move and the ticket of one call have readings of their own. Runs are
  sequences of steps with clock readings that never go back; a step that is not possible in a state leaves it alone, so
  every sequence of steps is a run.
- Random and generated values (ids, nonces) are parameters. Nonces may repeat; generated ids are taken as new.
- SHA-256 is injective and an HMAC is a symbol that equals another only for equal key and payload; a ticket that carries
  the server's MAC was issued by the server.

## Model

| member | source | states |
|---|---|---|
| RemoteEpochs.IsolatedExactlyWhen | backend/internal/api/remote_ws.go:276-361 | from any moment of any run on, nothing below the revision at which a session reconnects, and nothing of a session that is over, is ever forwarded again, exactly when no connection is about to send such a message that has already passed its check |
| RemoteEpochs.EpochIsolation | backend/internal/api/remote_ws.go:276-361 | in every run, whatever is forwarded after a moment was past its check then or is not outdated: not below the revision at which the session reconnects, and not of a session that is over |
| RemoteEpochs.SentFacts | backend/internal/api/remote_ws.go:276-361 | every message ever forwarded came from a connection that consumed a ticket for that session, endpoint, role and revision, was checked against a revision negotiating or reconnecting at the message's revision or connected one above it, and went to the other party |
| RemoteLimits.OverstaysExactlyWhen | backend/internal/remote/service.go:403-452 | from any moment of any run on, a session that is over the limit of waiting_consent, negotiating or reconnecting is never moved on exactly when no call in progress fits its state and names its revision, now, after reading again, or after going by an older row; calls that begin later never move it on |
| RemoteLimits.EndsOrStays | backend/internal/remote/service.go:403-439 | when no call in progress can move such a session on it stays as it is or is over, in every run |
| RemoteForwarding.ForwardedExactlyWhen | backend/internal/api/remote_ws.go:239-361 | a message that is admitted, from a party of a session that is within its limit and negotiates or reconnects at the revision of the message or is connected one above it, is offered without its ticket to every connection of the other party and to nobody else; any other is offered to nobody and its sender is told |
| RemoteForwarding.CheckedExactlyWhen | backend/internal/api/remote_ws.go:331-346 | the check passes exactly for a party of a stored session within its limit that negotiates or reconnects at the revision of the message, or is connected one above it |
| RemoteForwarding.AdmittedExactlyWhen | backend/internal/api/remote_ws.go:276-325 | a message is admitted exactly when it is well-formed and its ticket is accepted, or it has none and its connection is authorized for its revision and has sent fewer than 50 candidates for it |
| RemoteReconnects.OfferWhileReconnecting | backend/internal/api/remote_ws.go:331-361 | a run from the empty system in which a connection is lost, the host gets a new ticket, and an offer of revision 4 goes to the phone while the session reconnects at revision 4 |
| RemoteForwarding.PeerIsToldExactlyWhen | backend/internal/api/remote_ws.go:423-445 | when an endpoint goes offline the other party is told exactly of the sessions that go on, with the next revision if they were connected |
| RemoteForwarding.JoinedExactlyWhen | backend/internal/api/remote_ws.go:387-395 | a connection joins exactly when it authenticated as a controller or host, and starts without rights |
| RemoteTickets.AcceptedExactlyWhen | backend/internal/remote/tickets.go:41-111 | in every run a ticket is accepted exactly when it was issued to this endpoint for this session and revision, was not used before, is not 90 seconds old, and the session still negotiates or reconnects at that revision |
| RemoteTickets.RunsLive | backend/internal/remote/repository.go:392-433 | in every run the nonce row of a good ticket tells what the ticket tells and whether it was used, and good tickets have nonces of their own |
| RemoteRaces.OvertakenDelivery | backend/internal/api/remote_ws.go:331-361 | a run from the empty system in which an offer of revision 2 passes its check and is sent after the session has begun to reconnect at revision 4 |
| RemoteRaces.OverstayedConsent | backend/internal/remote/service.go:424-452 | for every time from the limit on, a run in which a session gets connected that spent that long in waiting_consent: the call that accepts compares the limit at one time and writes at a later one |
| RemoteRaces.OverstayedNegotiation | backend/internal/remote/service.go:518-534 | the same for negotiating |
| RemoteRaces.OverstayedReconnection | backend/internal/remote/service.go:518-534 | the same for reconnecting |
| RemoteRaces.LimitOfAnotherRevision | backend/internal/remote/service.go:403-452 | a run in which a request is accepted after 89 s of waiting for consent although its call writes at the very time at which it compares a limit: it compares that of the revision it had read, before the primary device approved |
| RemoteRaces.GrantTakenBack | backend/internal/remote/service.go:518-532 | a run in which a call that read the row before the acceptance, and names the revision the acceptance made, connects the session with an empty granted list |
| RemoteGrants.GrantedAsRequestedInRuns | backend/internal/remote/service.go:518-574 | in every run in which the calls that mark sessions connected or reconnecting name no revision, each session is granted exactly what was requested from its acceptance on and nothing before, whatever overtakes the calls |
| RemoteEpochs.TicketsAreSingleUse | backend/internal/remote/tickets.go:41-111 | a ticket accepted once is refused for ever after, through re-issues, nonce deletion and any other calls, without assuming fresh nonces |
| RemoteEpochs.TicketsDieWithTheirRevision | backend/internal/remote/service.go:595-610 | once the session has moved past the revision a ticket names, the ticket is refused for ever |
| RemoteEpochs.TicketsServeTheirParty | backend/internal/remote/tickets.go:73-111 | a ticket that is accepted was issued, is unused, names the current revision, and its bearer is the party it was issued to; its capabilities are the granted ones |
| RemoteEpochs.RowsOnlyAdvance | backend/internal/remote/repository.go:295-355 | between any two moments of a run a row only moves to later revisions of the same request; the same revision, and a terminal row, is the same row |
| RemoteSafety.RunsAreSafe | backend/internal/api/remote_ws.go:276-445 | tables, histories, tickets, authorizations, messages in flight and everything sent stay consistent under every interleaving |
| RemoteSafety.RunsGrow | backend/internal/remote/repository.go:295-433 | revisions, issued and consumed tickets and deliveries are never taken back |
| RemoteSafety.InitIsSafe | backend/internal/api/remote_ws.go:92-95 | the empty system satisfies the invariant |
| RemoteSafety.ServiceKeeps | backend/internal/remote/service.go:181-379 | every call that is one step keeps the invariant |
| RemoteSafety.BeginKeeps | backend/internal/remote/service.go:304-324 | the first read of a call keeps the invariant: what it read is the newest revision of its own session, and its caller is a party of it |
| RemoteSafety.ProceedKeeps | backend/internal/remote/service.go:381-574 | every further step of a call (comparing the limit, reading again, the compare-and-swap, reading what it moved) keeps the invariant, however old the row it goes by |
| RemoteSafety.IssueKeeps | backend/internal/remote/tickets.go:41-71 | a ticket issued at any later time speaks of the committed revision its call went by, of the party it acts for, and of what was granted there |
| RemoteSafety.ReceiveKeeps | backend/internal/api/remote_ws.go:276-325 | taking in a message, consuming its ticket or counting its candidate, keeps the invariant |
| RemoteSafety.CheckKeeps | backend/internal/api/remote_ws.go:331-346 | the revision check of a message keeps the invariant |
| RemoteSafety.SendKeeps | backend/internal/api/remote_ws.go:347-361 | delivering a checked message keeps the invariant |
| RemoteSafety.TellKeeps | backend/internal/api/remote_ws.go:423-445 | telling the other party that an endpoint left keeps the invariant |
| RemoteSafety.LeaveKeeps | backend/internal/api/remote_ws.go:397-421 | removing a connection keeps the invariant |
| RemoteSafety.JoinKeeps | backend/internal/api/remote_ws.go:387-395 | adding a connection keeps the invariant |
| RemoteSafety.TicketsStay | backend/internal/remote/repository.go:400-433 | nonce consumption and deletion never make a spent ticket usable again |
| RemoteSafety.ConsumeFacts | backend/internal/remote/service.go:595-610 | consumption succeeds only for an unspent ticket with the server's MAC that names this session, party and revision, and leaves it spent |
| RemoteSafety.IssueFacts | backend/internal/remote/tickets.go:41-71 | issuing stores a fresh nonce row that matches the ticket |
| RemoteQuota.CandidatesAreLimited | backend/internal/api/remote_ws.go:307-320 | in every run at most 50 ICE candidates are forwarded per connection, session and revision |
| RemoteClaims.OneCommitPerRevision | backend/internal/remote/repository.go:295-390 | of all compare-and-swaps on the same revision of a session, named or read, one commits at most, whatever happens in between |
| RemoteClaims.NoCommitOnAPastRevision | backend/internal/remote/repository.go:311-316 | a compare-and-swap on a revision the session has left never commits |
| RemoteClaims.CommitNeedsExpected | backend/internal/remote/repository.go:311-316 | a compare-and-swap commits only on its revision, and raises it by one |
| RemoteClaims.DeletionIsNotNoticed | backend/internal/remote/repository.go:430-433 | deleting the nonces that have expired, and only those, never changes whether a ticket presented later is accepted |
| RemoteClaims.ReachableSession | backend/internal/remote/repository.go:295-390 | in every run each stored session ends a legal history, numbered by its revisions, and is a sound row |
| RemoteClaims.HostsSeeApprovedRequests | backend/internal/remote/service.go:326-348 | a host is only shown its own requests that the primary device approved, with nothing granted yet and within their limit |
| RemoteClaims.ApprovalIgnoresTheLimit | backend/internal/remote/service.go:368-379 | approval depends on state and revision only; it fails for an overdue request exactly when a listing timed it out first |
| RemoteCalls.LookupExactlyWhen | backend/internal/remote/service.go:304-324 | a lookup gives the parties of a session its row, failed first when its limit has passed, and nobody else any |
| RemoteCalls.MoveExactlyWhen | backend/internal/remote/service.go:381-574 | for each of the six moves the states it starts from, the revision it needs, the state and row it leads to, and that it changes nothing otherwise |
| RemoteCalls.MoveOfNothing | backend/internal/remote/repository.go:295-310 | a move of a session that does not exist is refused with not found and changes nothing |
| RemoteCalls.IssueExactlyWhen | backend/internal/remote/tickets.go:41-71 | a ticket is issued exactly for a party under a nonce that no live row has; what it tells, what its row tells, and that it is good for 90 seconds |
| RemoteCalls.ApproveExactlyWhen | backend/internal/remote/repository.go:359-390 | approval succeeds exactly for a request that waits for the primary device at the revision meant, and makes it wait for consent from then on |
| RemoteCalls.RefuseExactlyWhen | backend/internal/remote/service.go:381-401 | rejection by the primary device succeeds exactly for a request that waits for it at the revision meant |
| RemoteCalls.AcceptExactlyWhen | backend/internal/remote/service.go:441-461 | acceptance succeeds exactly for the host of a request that has waited for consent less than 60 s, at the revision meant and under a free nonce; it grants what was requested |
| RemoteCalls.RejectExactlyWhen | backend/internal/remote/service.go:463-480 | rejection succeeds exactly for the host of a request that waits for the host or for consent within its limit, at the revision meant |
| RemoteCalls.EndExactlyWhen | backend/internal/remote/service.go:482-516 | either party ends a session from every state; one that is over is answered with as it is, and one past its limit fails instead |
| RemoteCalls.ConnectExactlyWhen | backend/internal/remote/service.go:518-539 | connection succeeds exactly for the host of a session that negotiates or reconnects within its limit, at the revision meant, with view or control as granted |
| RemoteCalls.LoseExactlyWhen | backend/internal/remote/service.go:546-574 | loss succeeds exactly for a party of a connected session at the revision meant, which then reconnects, and is answered with the row as it is when it reconnects already or is over |
| RemoteCalls.RefreshExactlyWhen | backend/internal/remote/service.go:576-593 | a new ticket is given exactly to a party of a session that negotiates or reconnects within its limit |
| RemoteCalls.RequestExactlyWhen | backend/internal/remote/service.go:252-302 | a request is taken exactly from a named controller for a known host that supports an accepted capability list |
| RemoteCalls.HostListExactlyWhen | backend/internal/remote/service.go:326-348 | a host is shown exactly its requests that have waited for consent less than 60 s; the others of these time out and no other row changes |
| RemoteCalls.PrimaryListExactlyWhen | backend/internal/remote/service.go:350-366 | the primary device is shown exactly the requests that have waited for it less than two minutes |
| RemoteCalls.RegisteredHost | backend/internal/remote/repository.go:32-51 | a registration stores what the host says of itself, seen now, keeps a revocation and leaves other hosts alone |
| RemoteCalls.HeartbeatExactlyWhen | backend/internal/remote/service.go:181-212 | a heartbeat is refused exactly for an unknown host and, without capabilities, for a revoked one; it keeps the revocation and the capabilities it does not name |
| RemoteCalls.ReasonIsKept | backend/internal/remote/service.go:715-729 | a plain word of at most 64 characters is recorded as the reason, any other printable text is replaced by the fallback |
| RemoteCalls.LongReasonIsCut | backend/internal/remote/service.go:715-729 | a longer word is cut after 64 characters |
| RemoteErrors.NonceAnswer | backend/internal/remote/repository.go:400-428 | a nonce is taken exactly when it is in scope, unused and not expired, and only its row changes; otherwise the error is not found, consumed, expired or conflict, in this order |
| RemoteErrors.TicketAnswer | backend/internal/remote/tickets.go:73-111 | a ticket is invalid when it is not the server's or not for this use, expired by its own dates, and otherwise answered as its nonce |
| RemoteErrors.PresentedAnswer | backend/internal/remote/service.go:595-610 | before the ticket is looked at: not found, conflict for a session that takes no tickets at this revision, unauthorized for somebody else's |
| RemoteErrors.PrimaryAnswer | backend/internal/remote/service.go:368-390 | the primary device must name itself and a known session |
| RemoteErrors.DecidedAnswer | backend/internal/remote/repository.go:359-376 | a request that no longer waits for the primary device, or stands at another revision, is a conflict |
| RemoteErrors.RequestAnswer | backend/internal/remote/service.go:252-302 | why a request is refused: its sender, its host, what it asks for, or an id that is taken |
| RemoteErrors.RefreshAnswer | backend/internal/remote/service.go:576-593 | why a party gets no new ticket: the state, or a nonce in use |
| RemoteErrors.AdmissionAnswer | backend/internal/api/remote_ws.go:276-325 | a message without rights is unauthorized, any other that is not well-formed invalid, and one with a ticket is answered as the ticket |
| RemoteErrors.CheckAnswer | backend/internal/api/remote_ws.go:331-346 | the check answers as the lookup, and with a conflict for a session outside the epoch of the message |
| RemoteErrors.OvertakenTimeoutAnswer | backend/internal/remote/service.go:428-434 | a timeout that was overtaken answers with the row as it is stored, or with not found |
| RemoteClaims.CapabilitiesAccepted | backend/internal/remote/service.go:667-690 | the accepted capability lists are the empty one and the orderings of view and view, input, up to white space; all others are invalid |
| RemoteClaims.NewRequestsStart | backend/internal/remote/service.go:252-302 | a new request is freshly born and waits for the primary device unless it comes from it; then for consent if the host was seen in the last 30 s and is not revoked, else for the host |
| RemoteClaims.NobodyWaitsForAHostThatCame | backend/internal/remote/service.go:181-227 | after a registration or heartbeat no request waits for that host, and no other request changed |
| RemoteClaims.ReasonsArePlainWords | backend/internal/remote/service.go:715-729 | a recorded end reason is the fallback or a plain word of at most 64 characters |
| RemoteModel.VersionFacts | backend/internal/remote/repository.go:327-343 | revision numbers count the history, the request part never changes, and every revision is sound: gated states are primary-approved, connected_control exactly with input granted, ended_at and a reason exactly in terminal states |
| RemoteModel.TimesOrdered | backend/internal/remote/repository.go:327-343 | updated_at never decreases along the revisions |
| RemoteModel.TerminalIsLast | backend/internal/remote/service.go:403-406 | ended and failed are absorbing |
| RemoteModel.StartedAtFirstConnection | backend/internal/remote/repository.go:328-334 | started_at is empty until the first connection and is the time of that connection from then on |
| RemoteModel.StartedAtNeverChanges | backend/internal/remote/repository.go:328-334 | started_at, once set, never changes |
| RemoteModel.GrantedExactlyWhen | backend/internal/remote/service.go:518-574 | from the acceptance on every revision is granted the requested list exactly when no call that marked the session connected or reconnecting went by a row read before the acceptance |
| RemoteModel.NothingGrantedBefore | backend/internal/remote/service.go:441-461 | nothing is granted before the host accepts, and never anything but the empty or the requested list |
| RemoteModel.PhasesWithinLimits | backend/internal/remote/service.go:403-452 | a session that becomes connected spent less than the limit (60 s in waiting_consent, 2 min in negotiating, 30 s in each reconnecting phase) plus the duration of the call that ended the phase, whatever overtook it; when that call went by the row it moved and compared its limit, less than the limit plus the time from the comparison to the write; otherwise no longer than the call took |
| RemoteModel.OverdueExactlyWhen | backend/internal/remote/service.go:403-427 | the five limits in figures, with the reason each records |
| RemoteModel.HistoryExtends | backend/internal/remote/repository.go:327-343 | a committed move extends a legal history to a legal history |
| RemoteModel.EvolvesKeepsLegal | backend/internal/remote/repository.go:295-390 | a call that commits at most one legal move per row keeps every row sound |
| RemoteLifecycle.TransitionEvolves | backend/internal/remote/repository.go:295-355 | a compare-and-swap commits at most one legal revision of one row |
| RemoteLifecycle.ApplyTimeoutValue | backend/internal/remote/service.go:403-439 | on the stored row applyTimeout never loses its own compare-and-swap: an overdue row fails, any other is returned unchanged |
| RemoteLifecycle.GetForEndpointValue | backend/internal/remote/service.go:304-324 | a lookup returns the caller's own row, within its limit, and changes nothing unless it fails an overdue row |
| RemoteLifecycle.PromoteEvolves | backend/internal/remote/service.go:214-227 | promotion moves waiting requests legally |
| RemoteLifecycle.ListEvolves | backend/internal/remote/service.go:326-366 | the listing calls move overdue rows legally |
| RemoteLifecycle.ApproveEvolves | backend/internal/remote/repository.go:359-390 | approval by the primary device is a legal move |
| RemoteLifecycle.RequestEvolves | backend/internal/remote/service.go:252-302 | a request inserts one freshly born row |
| RemoteLifecycle.RefuseEvolves | backend/internal/remote/service.go:381-401 | rejection by the primary device is a legal move |
| RemoteLifecycle.AcceptEvolves | backend/internal/remote/service.go:441-453 | acceptance is a legal move, on whatever earlier revision it was decided |
| RemoteLifecycle.RejectEvolves | backend/internal/remote/service.go:463-480 | rejection by the host is a legal move, on whatever earlier revision it was decided |
| RemoteLifecycle.EndEvolves | backend/internal/remote/service.go:498-516 | ending is a legal move from every live state |
| RemoteLifecycle.ConnectEvolves | backend/internal/remote/service.go:518-534 | connecting is a legal move whose state matches the granted list that was read |
| RemoteLifecycle.LoseEvolves | backend/internal/remote/service.go:560-569 | losing the connection is a legal move |
| RemoteLifecycle.MarkReconnectingEvolves | backend/internal/remote/service.go:546-574 | the whole call, uninterrupted, commits at most one revision: a row its lookup failed is not moved again |
| RemoteRuns.CallIsItsParts | backend/internal/remote/service.go:381-593 | each service method that looks a row up and then moves it or issues a ticket is its first read, its limit, its compare-and-swap, its read after the commit and its ticket, one after the other |
| RemoteRuns.UninterruptedCall | backend/internal/remote/service.go:381-593 | the steps of such a call, taken without anything in between, have the effect of the method and leave nothing behind |
| RemoteForwarding.UninterruptedMessage | backend/internal/api/remote_ws.go:239-361 | the steps of a message, taken without anything in between, have the effect of one turn of the read loop |
| RemoteForwarding.UninterruptedDeparture | backend/internal/api/remote_ws.go:397-445 | the steps of a departure, taken without anything in between and in any order of the sessions, have the effect of the departure |
| RemoteDelivery.OnlyWellFormedMessagesAreSent | backend/internal/api/remote_ws.go:276-325 | in every run only messages with the right parts, within their limits and without the ticket are forwarded |
| RemoteDelivery.DeliveredToTheTargetOnly | backend/internal/api/remote_ws.go:464-482 | in every run a delivery offers the message to every connection of the target endpoint and touches no other |
| RemoteDelivery.DepartureStartsReconnecting | backend/internal/api/remote_ws.go:423-445 | when an endpoint goes offline its connected session starts reconnecting and the other party is told with the new revision |
| RemoteDelivery.DropFacts | backend/internal/api/remote_ws.go:397-408 | an endpoint counts as offline exactly when its last connection is removed |
| RemoteDelivery.RunsAreTidy | backend/internal/api/remote_ws.go:387-482 | the endpoint index lists every connection under its endpoint and nothing else, under every interleaving |
| CommandSafety.ReportsAreExclusive | backend/internal/agent/relay.go:262-299 | after one accepted report or a claim by the caller every later report of the command changes nothing |
| CommandSafety.AcceptedExactlyWhen | backend/internal/agent/relay.go:262-286 | a report is accepted exactly for a stored command that was neither reported nor claimed |
| CommandSafety.DeliveredAtMostOncePerLife | backend/internal/agent/relay.go:188-251 | while stored a command is handed out at most once, exactly when it is marked; over its life once more for each time it was evicted or removed, never more than three times |
| CommandSafety.HandedOutTwice | backend/internal/agent/relay.go:188-223 | a run in which a command is handed out twice: taken, given up by its caller, then found in a waiter's channel |
| CommandSafety.GivenUpAndHandedOut | backend/internal/agent/relay.go:208-223 | from every state with a copy of a command in a waiter's channel, giving the command up lets the waiter have it again |
| CommandSafety.HearHandsOutUnlessMarked | backend/internal/agent/relay.go:208-223 | a waiter gets what its channel holds exactly when the mark is not set; a second time only after the command was forgotten |
| CommandSafety.EnqueueKeepsUnfinished | backend/internal/agent/relay.go:423-452 | enqueueing never forgets a pending command, nor one that is neither finished nor half an hour old |
| CommandSafety.PollServesTheOldest | backend/internal/agent/relay.go:188-203 | the next poll gets the oldest stored command nobody took, if there is one |
| CommandSafety.WaitersMeanNothingPending | backend/internal/agent/relay.go:201-203 | no stored command waits while a consumer is registered |
| CommandSafety.RecordedAtMostTwice | backend/internal/agent/relay.go:365-372 | a command has at most two recorded results, one per side, and the history is the newest part of all of them |
| CommandSafety.CallersGetTheirOwnResult | backend/internal/agent/relay.go:94-163 | EnqueueCmd answers for its own command, with an accepted report or, after claiming it, with a failure |
| CommandSteps.ReaderMissesNothing | backend/internal/agent/relay.go:326-347 | a reader that always asks after the last number it has seen gets every step of its command once and in order, as long as no more than 500 steps come in between two reads |
| CommandSteps.ReadReturnsTheNews | backend/internal/agent/relay.go:336-347 | one read returns exactly the steps that came in since the last one, as far as they are among the newest 500 of all |
| CommandSteps.BufferHoldsTheNewest | backend/internal/agent/relay.go:326-334 | the buffer holds the newest 500 of all steps ever added |
| CommandSteps.HistoryIsTheNewest | backend/internal/agent/relay.go:349-363 | the history that is shown is the newest part of everything recorded |
| CommandWakeups.NoLostWakeUp | backend/internal/agent/relay.go:165-251 | in every run, while a stored command has not been handed out, every consumer in its select has a command in its channel |
| CommandWakeups.NobodyIsForgotten | backend/internal/agent/relay.go:188-251 | in every run each consumer in its select is registered with an empty channel or has a command in its channel, and one that stopped is not registered |
| CommandWakeups.EnqueueWakesEveryWaiter | backend/internal/agent/relay.go:105-111 | in every run an enqueue puts the new command into the channel of every consumer that was registered |
| CommandWakeups.OfferReachesEveryWaiter | backend/internal/agent/relay.go:177-183 | every waiter has a command afterwards: the new one if its channel was empty; no other channel changes |
| CommandWakeups.EvictsExactlyWhen | backend/internal/agent/relay.go:423-452 | a stored command is forgotten with its marks exactly when more than 500 are stored, it is not pending, and it has a result in the history or is older than half an hour |
| CommandWakeups.EnqueueStores | backend/internal/agent/relay.go:99-112 | the new command is stored as given, last in line, with no mark |
| CommandWakeups.ReportReachesTheCaller | backend/internal/agent/relay.go:94-163 | in every run, what an accepted report says is what the blocked caller of its command returns once the steps between are taken, and it is recorded by both |
| CommandWakeups.GivingUpAnswers | backend/internal/agent/relay.go:115-163 | a caller that stops waiting records its failure unless the command was reported, forgets the command everywhere and returns the failure |
| CommandWakeups.AcceptedIsTheStored | backend/internal/agent/relay.go:262-286 | an accepted report is of the command as it is stored, and marks it |
| CommandWakeups.ClaimTells | backend/internal/agent/relay.go:150-156 | a claim tells whether the command had been reported or claimed, and marks it |
| CommandWakeups.StoppedConsumersLeave | backend/internal/agent/relay.go:224-250 | a consumer that stops is neither in its select nor registered any more, and no other consumer is affected |
| CommandWakeups.OfferFillsTheChannel | backend/internal/agent/relay.go:296-303 | a result is offered to the channel of a blocked caller only, and dropped when that is full |
| CommandSafety.RunsAreSafe | backend/internal/agent/relay.go:94-467 | the queue invariant holds under every interleaving of producers, consumers, reports, timeouts and evictions |
| CommandSafety.InitIsSafe | backend/internal/agent/relay.go:81-92 | a new queue satisfies the invariant |
| CommandSafety.EnqueueKeeps | backend/internal/agent/relay.go:99-112 | enqueueing with eviction keeps pending commands stored and distinct, and untaken commands pending |
| CommandSafety.PopFacts | backend/internal/agent/relay.go:191-200 | the dequeue loop skips exactly the commands already handed out |
| SessionRuns.RunsAreGood | backend/internal/api/ws_handler.go:781-971 | in every run hub lists, relay set, manager clients and the three indexes agree and the buffer stays within 50 |
| SessionRuns.CleanupSparesTheConnected | backend/internal/session/manager.go:102-131 | at any time of any run cleanup leaves the session of a connected client in place, with that client |
| SessionSafety.JoinKeepsExactlyWhen | backend/internal/api/ws_handler.go:781-857 | a join keeps hub and manager in agreement exactly when it does not name the session the connection is already in |
| SessionSafety.RejoinBreaks | backend/internal/api/ws_handler.go:819-842 | joining the same session again lists the connection twice |
| SessionSafety.RejoinLeavesAGhost | backend/internal/api/ws_handler.go:819-842 | under another client id it leaves a client in the manager that no connection has |
| SessionSafety.JoinKeeps | backend/internal/api/ws_handler.go:781-857 | a first join or a switch keeps the agreement, replacements included |
| SessionSafety.DisconnectKeeps | backend/internal/api/ws_handler.go:922-971 | leaving keeps the agreement, also when the same client has already reconnected |
| SessionSafety.IdsWithout | backend/internal/api/ws_handler.go:922-955 | a client id leaves with its connection unless a replacement carries it |
| SessionRouting.RoutedOnce | backend/internal/api/ws_handler.go:593-615 | a phone message reaches each listener of its session and each relay of its project elsewhere once, nobody twice and nobody else |
| SessionRouting.BufferedExactlyWhen | backend/internal/api/ws_handler.go:632-696 | a message is buffered exactly when no relay of its project got it elsewhere and none sits in the sender's session |
| SessionRouting.MissedExactlyWhen | backend/internal/api/ws_handler.go:652-696 | it reaches no relay and is not buffered exactly when a relay sits in the sender's session and every relay of the project is full |
| SessionLoss.MessageIsMissed | backend/internal/api/ws_handler.go:593-696 | a run after which the only relay sits in the phone's session with a full channel: the phone's next message neither reaches it nor is buffered |
| SessionRouting.BufferIsFifo | backend/internal/api/ws_handler.go:684-695 | the buffer holds at most 50 messages in order and drops only the oldest |
| SessionRouting.FlushTakesExactlyItsOwn | backend/internal/api/ws_handler.go:846-855 | a flush takes all messages of its project and leaves the others in order |
| SessionRouting.NewRelayGetsItsBacklog | backend/internal/api/ws_handler.go:699-745 | a relay that connects gets its acknowledgement and then its project's backlog, complete and in order |
| SessionJoins.JoinFindsItsSession | backend/internal/api/ws_handler.go:781-805 | a join without a session id means the session of its project, serein by default, found or made; the client is entered with its kind and time, the deletion is called off, and nothing else changes |
| SessionJoins.JoinedAs | backend/internal/api/ws_handler.go:810-857 | after a join the connection has the session, client id, kind and project of the join and is a relay exactly when a terminal calls itself one; no other connection changes |
| SessionJoins.NewcomerIsAnswered | backend/internal/api/ws_handler.go:699-745 | a first join of another client is answered with the acknowledgement and the history, and leaves the buffer alone |
| SessionJoins.AbandonedSessionsGo | backend/internal/session/manager.go:102-131 | a session whose last client left is there exactly for 30 s, one of a work item for seven days |
| SessionJoins.UnusedSessionsGo | backend/internal/session/manager.go:102-131 | a session nobody joined is there exactly for half an hour after it was made, one of a work item for seven days after it was last asked for |
| SessionJoins.OthersStay | backend/internal/session/manager.go:243-267 | a client that leaves takes only itself along |
| SessionJoins.CleanupChangesNothingElse | backend/internal/session/manager.go:102-131 | cleanup leaves the sessions that stay, and their entries, as they are |
| SessionSpec.GetOrCreateKeepsIndexed | backend/internal/session/manager.go:140-160 | project sessions keep the index exact |
| SessionSpec.GetOrCreateScopedKeepsIndexed | backend/internal/session/manager.go:183-203 | scoped sessions keep the index exact |
| SessionSpec.PurgeKeepsIndexed | backend/internal/session/manager.go:405-416 | deleting sessions deletes exactly their entries |
| SessionSpec.JoinKeepsIndexed | backend/internal/session/manager.go:220-238 | joining keeps the index exact |
| SessionSpec.LeaveKeepsIndexed | backend/internal/session/manager.go:243-267 | leaving keeps the index exact |
| SessionSpec.KeyInjective | backend/internal/session/manager.go:418-420 | the NUL-separated key is injective for project names without NUL |
| SessionSpec.KeysCollide | backend/internal/session/manager.go:418-420 | with NUL in a project name two work items share a key |
| SessionRuns.WorkItemsNeverShare | backend/internal/session/manager.go:183-203 | in every run with project names free of NUL, a work item gets a session of its own project and scope, and two lookups get the same session exactly when they name the same work item |
| SessionSpec.WorkItemsHaveTheirOwnSession | backend/internal/session/manager.go:183-203 | one lookup: the session found or made is of the project and scope asked for, and names stay free of NUL |
| SessionSpec.ProjectsHaveTheirOwnSession | backend/internal/session/manager.go:140-160 | the session found or made for a project is its own, and stays the one found |
| SessionSpec.LeftSessionsSurviveTheWindow | backend/internal/session/manager.go:243-267 | nothing in the 30 s after the last client left can make the session disappear |
| SessionSpec.CleanupSparesClients | backend/internal/session/manager.go:102-131 | cleanup never removes a session that has a client |
| SessionHistory.ShownBelongsToTheSession | backend/internal/session/manager.go:293-320 | no result of another session, without a session, or of a chat command is shown |
| SessionHistory.ShownExactlyWhen | backend/internal/session/manager.go:281-320 | which results are shown, with the action of the stored command and the error texts written out |
| SessionHistory.ShownInOrder | backend/internal/session/manager.go:281-320 | the shown results keep their order |
| SessionHistory.TypedOnceEach | backend/internal/session/manager.go:322-345 | every typed text that is known is shown once, in order, numbered just before its answer |
| SessionHistory.OneAnswerEach | backend/internal/session/manager.go:322-362 | every shown result has exactly one answer, in order, numbered evenly |
| SessionHistory.NumbersGrow | backend/internal/session/manager.go:291-362 | sequence numbers grow strictly |
| ApprovalDecisions.FinalIsWhatWasDecided | backend/internal/approval/service.go:83-123 | in every run a record ends as allowed or denied exactly when a decision on it took effect; there is at most one such decision, and the record and every answer say what it said and who made it |
| ApprovalDecisions.DecisionIsTheAnswer | backend/internal/approval/service.go:111-123 | a decision that takes effect is what Status answers at any later time, with the name of who made it, for that record and no other; otherwise nothing changes |
| ApprovalDecisions.CreatedRecordWaits | backend/internal/approval/service.go:39-56 | a new record waits exactly until its time is over; a taken id is refused |
| ApprovalDecisions.AskingTouchesNoOther | backend/internal/approval/service.go:83-107 | asking and marking touch the record they name only, and only its decision or its mark |
| ApprovalRuns.DecisionsAreWriteOnce | backend/internal/approval/service.go:83-123 | a decision, once made, is the decision for ever; only the notified mark and deletion touch the record afterwards |
| ApprovalRuns.ListedExactlyWhen | backend/internal/approval/service.go:240-273 | the scanner lists exactly the records that Status reports as timed out, within an hour of their deadline, until they are marked |
| ApprovalRuns.ClearsExactlyTheDecided | backend/internal/approval/service.go:286-293 | clearing takes away exactly the decided records; every other one answers as before, whenever it is asked |
| ApprovalRuns.DecisionsRespectTheDeadline | backend/internal/approval/service.go:111-123 | a decision takes effect exactly on an undecided record strictly before its deadline |
| ApprovalRuns.StatusTellsTheDecision | backend/internal/approval/service.go:83-107 | Status says allow exactly for a record that was allowed, deny for a denied one, and waits only before the deadline |
| ApprovalRuns.AllowStaysAllow | backend/internal/approval/service.go:83-107 | an allow that Status reported stays allow until the record is deleted |
| ApprovalRuns.AlertsAreExact | backend/internal/approval/timeout_scanner.go:61-90 | in every run an alert goes out only for a record that ended as timeout, once plus once per failed mark |
| ApprovalRuns.ListedMeansAlerted | backend/internal/approval/timeout_scanner.go:70-82 | a listed record is alerted for unless its history was cleared in the meantime |
| ApprovalRuns.ScanRound | backend/internal/approval/timeout_scanner.go:61-90 | one round of the scanner alerts once for a listed record, and lists it again exactly when its mark is not stored |
| ApprovalRuns.RequestsAreStored | backend/internal/approval/service.go:39-56 | a request with a new id is stored and waits |
| ApprovalRuns.RunsAreSafe | backend/internal/approval/timeout_scanner.go:61-90 | the approval invariant holds under every interleaving of decisions, polls, clears and scanner steps |
| ApprovalHook.AllowMeansStoredAllow | hooks/approval_hook.py:324-373 | an allow from the polling loop is a stored decision made in time |
| ApprovalHook.StoredAllowIsHeard | hooks/approval_hook.py:324-373 | and an allow is heard: a poll that takes place and is answered after the decision makes the loop return allow |
| ApprovalHook.HandlerTellsTheDecision | backend/internal/api/approval_handler.go:178-200 | what the hook hears for every record: not found, allow, deny, or to go on polling, the last exactly while the record waits |
| ApprovalHook.PollsExactlyWhen | hooks/approval_hook.py:324-373 | a poll takes place exactly when it is before the deadline and no poll before it was answered with a decision or with 404 or was the tenth in a row to fail |
| RateLimiterRuns.AllowedExactlyWhen | backend/internal/api/ratelimit.go:21-51 | for every request sequence of at most 10000 addresses, a request is let through exactly when fewer than n of its address were let through in the window that ends with it |
| RateLimiterRuns.AtMostNEver | backend/internal/api/ratelimit.go:32-39 | with at most 10000 addresses any closed window of the whole run holds at most n accepted requests of each |
| RateLimiterRuns.OthersKeepTheirSlots | backend/internal/api/ratelimit.go:45-50 | the slots of another address change exactly when an accepted request is that of the address one above 10000, and are then forgotten |
| RateLimiterSpec.LimiterRefinesPlain | backend/internal/api/ratelimit.go:15-56 | for every request sequence in time order the pruned limiter answers as the one that keeps all accepted times |
| RateLimiterSpec.RequestRefines | backend/internal/api/ratelimit.go:24-51 | one request: same answer, and the tables still match |
| RateLimiterSpec.PrunedSlotsAreTheWindow | backend/internal/api/ratelimit.go:26-31 | the pruned slots are exactly the accepted times in the window |
| RateLimiterSpec.AtMostNPerWindow | backend/internal/api/ratelimit.go:32-39 | any closed window holds at most n accepted requests of an address between two resets |
| RateLimiterSpec.TableIsBounded | backend/internal/api/ratelimit.go:45-50 | a call never leaves more than 10000 addresses |
| RateLimiterSpec.RefusalChangesNothing | backend/internal/api/ratelimit.go:32-39 | a refused request does not even store the pruning |
| RateLimiterSpec.ResetForgets | backend/internal/api/ratelimit.go:45-50 | after a reset another address is let through whatever it had used |
| ShellQuotes.EveryCommandSplits | agent/agent_shell_chain.py:43-106 | every command is a quiet beginning (closed quotes, no operator outside them), followed by nothing, by an operator and a rest, or by a quote that is never closed |
| ShellQuotes.CutsAtTheOperator | agent/agent_shell_chain.py:61-106 | a quiet beginning before an operator is the first segment, trimmed, unless it is blank, and the rest is parsed on its own |
| ShellQuotes.OperatorGoesWithTheNext | agent/agent_shell_chain.py:61-106 | the operator belongs to the segment behind it, unless another operator comes first |
| ShellQuotes.QuietIsOneSegment | agent/agent_shell_chain.py:61-106 | a quiet command is one segment, or none when it is blank |
| ShellQuotes.UnclosedQuoteTakesTheRest | agent/agent_shell_chain.py:61-106 | a quote that is never closed takes everything behind it into the segment |
| ShellQuotes.NoOperatorIsLeft | agent/agent_shell_chain.py:61-106 | in a command without quotes no segment contains a semicolon, a new line, a pipe or two ampersands |
| ShellRoundTrip.ParsePrintParse | agent/agent_shell_chain.py:43-124 | for every command, parsing the printed form of its segments gives the same segments and operators |
| ShellRoundTrip.PrintThenParse | agent/agent_shell_chain.py:43-124 | every list of trimmed, quote-closed segments without an operator outside quotes comes back exactly |
| ShellRoundTrip.ParseIsOk | agent/agent_shell_chain.py:61-106 | what the parser returns: trimmed, non-empty, no operator outside quotes, quotes closed except at the end |
| ShellRoundTrip.LexIsClean | agent/agent_shell_chain.py:61-106 | every cut is at an operator outside quotes |
| ShellRoundTrip.PiecesJoinBack | agent/agent_shell_chain.py:61-106 | the pieces and their operators, joined, are the command |
| ShellRoundTrip.FirstHasNoOperatorExactlyWhen | agent/agent_shell_chain.py:50-106 | for every command with a segment, the first segment has no operator exactly when the text in front of the first operator outside quotes is not blank; the docstring promises it always |
| ShellRoundTrip.LeadingOperatorIsKept | agent/agent_shell_chain.py:50-106 | commands that start with an operator: it is reported with the first segment |
| ShellRoundTrip.QuotedTextIsOneSegment | agent/agent_shell_chain.py:60-73 | a text in single or double quotes is one segment whatever operators it contains |
| ShellExecutor.FedExactlyWhen | agent/agent_shell_chain.py:386-407 | a segment gets standard input exactly when it and the one before it follow a pipe and that one left output |
| ShellExecutor.FailedGuardEndsTheChain | agent/agent_shell_chain.py:377-383 | a segment runs exactly when all guards up to it hold |
| ShellRuns.NextRunsExactlyWhen | agent/agent_shell_chain.py:377-383 | after a segment that ran the next one runs exactly unless it follows && and that failed, or two pipes and that succeeded |
| ShellRuns.FirstRunsExactlyWhen | agent/agent_shell_chain.py:369-383 | the first segment runs, without input, exactly unless it stands behind two pipes |
| ShellRuns.AndRunsOnSuccess | agent/agent_shell_chain.py:345-421 | for all commands a and b, a && b runs b exactly when a succeeds |
| ShellRuns.OrRunsOnFailure | agent/agent_shell_chain.py:345-421 | with two pipes between them b runs exactly when a fails |
| ShellRuns.OthersRunBoth | agent/agent_shell_chain.py:345-421 | behind a semicolon, a new line or a pipe b always runs |
| ShellExecutor.LastRedirectionWins | agent/agent_shell_chain.py:127-144 | of several redirections of one kind the last one counts, and no other kind is redirected |
| ShellExecutor.PairsAreRedirects | agent/agent_shell_chain.py:127-144 | every redirection is an operator and the word directly behind it |
| ShellExecutor.RunsAgree | agent/agent_shell_chain.py:369-421 | the execution is determined by the segments and the runner |
| ShellExecutor.ExtractionIsIdempotent | agent/agent_shell_chain.py:127-144 | extracting again finds nothing more |
| ShellExecutor.CleanHasNoRedirects | agent/agent_shell_chain.py:127-144 | only the last remaining word can be a redirection operator |
| ShellExecutor.NoTokenIsLost | agent/agent_shell_chain.py:127-144 | the remaining words and the pairs of operator and file name, each in order, interleave to the tokens as they were |
| CollaborationSpec.TextIsTheEndOfTheTurn | backend/internal/api/collaboration_result.go:113-126 | after any events the stored text is the last 128 KiB of the turn's texts on lines of their own |
| CollaborationSpec.TruncationKeepsTheBlock | backend/internal/api/collaboration_result.go:199-214 | on truncated text the same block is found, exactly unless the truncation cuts into the last start marker |
| CollaborationSpec.RecordedBlock | backend/internal/api/collaboration_result.go:132-138 | the block recorded at the end of a turn is that of the full text unless its start marker was cut off |
| CollaborationSpec.BlockIsFound | backend/internal/api/collaboration_result.go:199-214 | what stands between the last start marker and the end marker after it is found, trimmed, exactly when it is not blank and at most 64 KiB long |
| CollaborationSpec.NoMarkerNoBlock | backend/internal/api/collaboration_result.go:199-214 | without a start marker, or without an end marker behind the last one, there is no block |
| CollaborationSpec.StatusIsOfTheLastTurn | backend/internal/api/collaboration_result.go:112-139 | the status is that of the last beginning or end of a turn |
| CollaborationSpec.NoBlockInANewTurn | backend/internal/api/collaboration_result.go:112-115 | a new turn has no block before it ends |
| CollaborationSpec.BlockStays | backend/internal/api/collaboration_result.go:132-138 | the block taken when a turn ended well stays until the next beginning or end |
| CollaborationSpec.AgentIsTheLastNamed | backend/internal/api/collaboration_result.go:127-131 | the agent session is the last valid one that was named |
| Envelope.EscapeLeavesNoDashes | backend/internal/api/collaboration_handoff.go:141-144 | the escaped data contains no three dashes in a row, whatever the text |
| Envelope.NoDelimiterBeforeTheClosingLine | backend/internal/api/collaboration_handoff.go:141-145 | the first three dashes after the data are those of the closing line |
| Envelope.DocumentSurvives | backend/internal/api/collaboration_handoff.go:141-144 | the escaped document decodes, by section 7 of RFC 8259, to exactly the same values |
| Envelope.BodySurvives | backend/internal/api/collaboration_handoff.go:141-144 | inside a string the code units are the same, for runs of dashes of any length and after any escape |
| Envelope.OnlyTriplesAreEscaped | backend/internal/api/collaboration_handoff.go:141-144 | three dashes are replaced where they come first, and everything before them is left as it is |
| Envelope.InvalidBodiesMayBecomeValid | backend/internal/api/collaboration_handoff.go:141-144 | for text that is not valid JSON the replacement can make it valid, so validity is needed |
| Envelope.ScopesAreDistinct | backend/internal/api/collaboration_handoff.go:52-56 | different work items have different scope texts |
| RemoteRepository.Repository.TransitionSession | backend/internal/remote/repository.go:295-355 | the read-check-write transaction on the stored row and the read after its commit: stale revisions and states that may not move are refused and change nothing; what overtakes that read is in RemoteRuns |
| RemoteRepository.Repository.ApprovePrimarySession | backend/internal/remote/repository.go:359-390 | the same for approval by the primary device |
| RemoteRepository.Repository.InsertSession | backend/internal/remote/repository.go:191-210 | insertion under the primary key |
| RemoteRepository.Repository.ListSessions | backend/internal/remote/repository.go:221-261 | exactly the rows in the state, and of the host where one is given |
| RemoteRepository.Repository.UpsertHost | backend/internal/remote/repository.go:32-51 | registration keeps a stored revocation |
| RemoteRepository.Repository.CreateTicketNonce | backend/internal/remote/repository.go:392-398 | a nonce row is inserted once under its hash |
| RemoteRepository.Repository.ConsumeTicketNonce | backend/internal/remote/repository.go:400-428 | a nonce is consumed only when unconsumed, unexpired and of the same scope; otherwise the error tells why |
| RemoteService.TicketIssuer.Issue | backend/internal/remote/tickets.go:41-71 | ticket and nonce row of one issue, and every error |
| RemoteService.TicketIssuer.ValidateAndConsume | backend/internal/remote/tickets.go:73-111 | all checks of a presented ticket, in order, and the consumption |
| RemoteService.NormalizeRequestedCapabilities | backend/internal/remote/service.go:667-690 | the loop over the requested names computes the scan |
| RemoteService.Service.PromoteWaitingHost | backend/internal/remote/service.go:214-227 | every request that waits for the host is moved on, all others stay |
| RemoteService.Service.RegisterHost | backend/internal/remote/service.go:61-88 | registration updates the host row and then promotes |
| RemoteService.Service.Heartbeat | backend/internal/remote/service.go:181-212 | a heartbeat with and without capabilities, and the refusal for revoked hosts |
| RemoteService.Service.RequestSession | backend/internal/remote/service.go:252-302 | the checks of a request in order and the state it starts in |
| RemoteService.Service.ApplyTimeout | backend/internal/remote/service.go:403-439 | the lazy timeout with its fallback to the stored row |
| RemoteService.Service.GetSessionForController | backend/internal/remote/service.go:304-313 | lookup by the controller, with its timeout |
| RemoteService.Service.GetSessionForHost | backend/internal/remote/service.go:315-324 | lookup by the host, with its timeout |
| RemoteService.Service.TimeOutListed | backend/internal/remote/service.go:335-347 | the listing loop: overdue rows fail and are left out, the others are returned as they are |
| RemoteService.Service.ListPendingForHost | backend/internal/remote/service.go:326-348 | what a host sees is exactly what still waits for its consent after the overdue rows have failed |
| RemoteService.Service.ListPendingForPrimary | backend/internal/remote/service.go:350-366 | the same for the primary device |
| RemoteService.Service.ApproveByPrimary | backend/internal/remote/service.go:368-379 | approval and its error cases |
| RemoteService.Service.RejectByPrimary | backend/internal/remote/service.go:381-401 | rejection by the primary device and its error cases |
| RemoteService.Service.Accept | backend/internal/remote/service.go:441-461 | acceptance: the move first, then the host's ticket |
| RemoteService.Service.Reject | backend/internal/remote/service.go:463-480 | rejection by the host |
| RemoteService.Service.End | backend/internal/remote/service.go:482-516 | ending by either party; a terminal session is returned as it is |
| RemoteService.Service.MarkConnected | backend/internal/remote/service.go:518-539 | connection with view or control as granted |
| RemoteService.Service.MarkReconnecting | backend/internal/remote/service.go:546-574 | loss of the connection; repeated and late reports are no-ops |
| RemoteService.Service.RefreshTicket | backend/internal/remote/service.go:576-593 | a new ticket while negotiating or reconnecting only |
| RemoteService.Service.ConsumeTicket | backend/internal/remote/service.go:595-610 | the checks before a ticket is validated and consumed |
| RemoteHub.RemoteHub.AddClient | backend/internal/api/remote_ws.go:387-395 | a connection is listed under its endpoint |
| RemoteHub.RemoteHub.AdmitSignal | backend/internal/api/remote_ws.go:276-325 | validation, ticket consumption and candidate counting of one message |
| RemoteHub.RemoteHub.HandleSignal | backend/internal/api/remote_ws.go:239-253 | one turn of the read loop: admit, check, forward, or answer with an error |
| RemoteHub.RemoteHub.SendRawToEndpoint | backend/internal/api/remote_ws.go:464-482 | every connection of the endpoint is offered the message once |
| RemoteHub.RemoteHub.SessionLeft | backend/internal/api/remote_ws.go:424-444 | what the other party of one session is told |
| RemoteHub.RemoteHub.NotifyPeerLeft | backend/internal/api/remote_ws.go:423-445 | all authorized sessions are handled, each once, in whatever order |
| RemoteHub.RemoteHub.RemoveClient | backend/internal/api/remote_ws.go:397-421 | the last connection of an endpoint triggers the notification |
| CommandQueue.CommandQueue.EvictCompleted | backend/internal/agent/relay.go:423-452 | exactly the finished or half-hour-old commands that are not pending are forgotten |
| CommandQueue.CommandQueue.Enqueue | backend/internal/agent/relay.go:168-186 | the critical section shared by both ways to enqueue |
| CommandQueue.CommandQueue.OfferToWaiters | backend/internal/agent/relay.go:105-111 | every waiter is offered the command without blocking, and all are forgotten |
| CommandQueue.CommandQueue.Poll | backend/internal/agent/relay.go:188-203 | a command or a registered waiter |
| CommandQueue.CommandQueue.Receive | backend/internal/agent/relay.go:208-223 | the mark decides whether a waiter keeps what it received |
| CommandQueue.CommandQueue.GiveUp | backend/internal/agent/relay.go:224-250 | a waiter that stops is unregistered |
| CommandQueue.CommandQueue.Mark | backend/internal/agent/relay.go:262-286 | acceptance of a report |
| CommandQueue.CommandQueue.RecordResult | backend/internal/agent/relay.go:365-372 | the history keeps the last maxHistory results |
| CommandQueue.CommandQueue.Claim | backend/internal/agent/relay.go:150-156 | a claim and whether the command had been reported |
| CommandQueue.CommandQueue.RemoveCmd | backend/internal/agent/relay.go:454-467 | a command is forgotten everywhere |
| CommandQueue.CommandQueue.NotifyStep | backend/internal/agent/relay.go:327-334 | the step buffer keeps the last 500 |
| CommandQueue.CommandQueue.Steps | backend/internal/agent/relay.go:337-347 | the steps of one command after a number, in order |
| CommandQueue.CommandQueue.History | backend/internal/agent/relay.go:350-363 | the last n results |
| SessionManager.SessionManager.GetOrCreateSession | backend/internal/session/manager.go:140-160 | lookup or creation by project |
| SessionManager.SessionManager.GetOrCreateScopedSession | backend/internal/session/manager.go:183-203 | lookup or creation by work item |
| SessionManager.SessionManager.JoinSession | backend/internal/session/manager.go:220-238 | a client is entered and a pending deletion cancelled |
| SessionManager.SessionManager.LeaveSession | backend/internal/session/manager.go:243-267 | a client is taken out; the last one starts the deletion window |
| SessionManager.SessionManager.RemoveSessionMappings | backend/internal/session/manager.go:405-416 | every entry that leads to a session is deleted, no other |
| SessionManager.SessionManager.RemoveSession | backend/internal/session/manager.go:393-401 | a session goes together with its entries |
| SessionManager.SessionManager.Cleanup | backend/internal/session/manager.go:102-131 | exactly the expired sessions go, with their entries |
| SessionHub.SessionHub.RemoveClientFromSession | backend/internal/api/ws_handler.go:922-957 | leaving a list, and the session unless replaced |
| SessionHub.SessionHub.Disconnect | backend/internal/api/ws_handler.go:281-300 | the end of a connection |
| SessionHub.SessionHub.SetUpJoinSession | backend/internal/api/ws_handler.go:781-805 | the session a join means, and the membership in the manager |
| SessionHub.SessionHub.RegisterJoinClient | backend/internal/api/ws_handler.go:810-857 | the registration in the hub and the messages to flush |
| SessionHub.SessionHub.HandleJoin | backend/internal/api/ws_handler.go:699-745 | a whole join with what is sent, in order |
| SessionHub.SessionHub.BroadcastToSession | backend/internal/api/ws_handler.go:1134-1161 | every listed connection but the sender is offered the message |
| SessionHub.SessionHub.BroadcastToAllTerminals | backend/internal/api/ws_handler.go:632-696 | relays of the project in other sessions are offered the message; otherwise it may be buffered |
| SessionHub.SessionHub.HandleSessionMsg | backend/internal/api/ws_handler.go:593-615 | a phone message: session first, then relays |
| SessionHistory.GetHistory | backend/internal/session/manager.go:281-369 | the loop over recent results builds exactly the messages of the session's shown results |
| ApprovalHook.PollStatus | hooks/approval_hook.py:324-373 | the polling loop ends within its time and returns allow exactly when a poll that took place was answered with allow |
| ApprovalHook.RunHook | hooks/approval_hook.py:376-451 | the hook allows exactly unmanaged directories, what the backend allowed at once, and what a poll allowed; without an approval id only what the backend allowed below level red |
| Approval.ApprovalService.Create | backend/internal/approval/service.go:39-56 | a pending record with its deadline |
| Approval.ApprovalService.Decide | backend/internal/approval/service.go:111-123 | the conditional update and whether it took effect |
| Approval.ApprovalService.Status | backend/internal/approval/service.go:83-107 | expiry on the way and the verdict |
| Approval.ApprovalService.MarkTimeoutNotified | backend/internal/approval/service.go:277-282 | the mark on a record, if it is still there |
| Approval.ApprovalService.Scan | backend/internal/approval/timeout_scanner.go:61-90 | one undisturbed pass alerts for exactly the overdue records and marks those whose mark is stored |
| RateLimiter.RateLimiter.Allow | backend/internal/api/ratelimit.go:21-51 | the critical section with its pruning loop |
| ShellChain.IterShellSegments | agent/agent_shell_chain.py:43-106 | the character loop computes the segments and operators |
| ShellExecutor.ExecShellChain | agent/agent_shell_chain.py:345-421 | long chains are refused; otherwise a prefix runs, ended by the first guard that fails, and the last return code is the answer |
| ShellExecutor.ExtractRedirects | agent/agent_shell_chain.py:127-144 | the shrinking loop computes the remaining words and the redirections |
| Collaboration.CollaborationRun.RecordStep | backend/internal/api/collaboration_result.go:112-139 | one event on the run of its scope |
| Collaboration.ParseSummary | backend/internal/api/collaboration_result.go:199-214 | the search for the last block |

## Left out

- SQL, SQLite errors and row decoding: a table is a map from its primary key, a transaction is one step.
- The order of list queries (by request or creation time): list calls return maps by id.
- Audit rows, event notification, host authorizations and credentials, and the Online flag of hosts: the modelled calls do not read them.
- Host capability lists and the capability lists of rows: the three lists that occur, and two flags for what a host supports.
- HTTP, JSON framing, WebSocket loops, deadlines, pings, connection limits and log output.
- Connection objects are values in a map of their hub, numbered in order of arrival: aliasing between goroutines that hold the same object is not modelled.
- The hub object handles a message with one clock reading; the interleavings inside that are those of `RemoteRuns`.
- Registrations, heartbeats, list calls, plain lookups, the lookup of the signaling check, ticket consumption and the notice that a peer left are one step each, with one reading of the clock.
- A compare-and-swap and the reading of the clock it writes are one step.
- Forged MACs: a connection cannot present a ticket with the server's MAC that the server did not issue.
- The statistics and activity repositories of the command queue, and LastStatus, PendingCount and GetCmd, which only read.
- cmd_step and cmd_result forwarding, permission decisions, mode switches and relay state notices.
- The rate limit, length and character checks on phone messages, and the copy that goes to the command queue: a modelled message has passed them.
- Joins run as one step over hub and manager; sends after a copied list run in the same step as the copy.
- SessionRuns.RunsAreGood: excludes a join to the session a connection is already in, which breaks the agreement (`SessionSafety.JoinKeepsExactlyWhen`).
- Approval list queries, statistics, push messages and the text of alerts; ids of deleted records are not reused.
- Risk classification, diffs and heartbeat output of the hook.
- The client address of a request and the HTTP answer of the rate limiter.
- Starting programs, decoding output, path checks and file redirection of the shell executor: running one segment is an unknown function.
- JSON decoding of the result block and the field limits on it; persistence of collaboration runs.
- The fixed text of the prompt around the data, and the JSON encoder: the data is any valid document without three dashes outside its strings.
