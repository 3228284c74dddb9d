# Trakkt verification

Dafny models of the parts of Trakkt whose correctness only shows over many steps, with proofs about them.

* **Connect terminals.** The agent's PTY sessions with their scrollback ring, reader tasks, locks and FIFO
  channel (`PtyAgent`, `PtyInvariant`, `PtyProperties`, `Scrollback`), its reconnecting client (`WsClient`) and
  the server's registry of agents, routes, infos and browsers (`ConnectRegistry`, `ConnectManager`,
  `RegistryEffects`, `RegistryProperties`, `RegistryRuns`, `OwnerIsolation`). `RelayLink` and `TerminalTail` join
  the two ends: what a browser is sent is an exact suffix of what the terminal printed.
* **Issues and their sync log.** Every service call changes rows and appends entries in one transaction
  (`IssueStore`, `IssueService`), and clients replay the entries they may see (`Replay`, `ReplayAgreement`,
  `SyncRuns`, `DerivedFlags`). `RowEffects`, `NotificationEffects` and `IssueInvariants` are about the rows
  themselves, `ParentForest`, `ParentRequests` and `ActivityLog` about the parent links and the history beside them.
* **The pool checker.** Its tokenizer against a grammar of the text (`Lexer`, `LexerGrammar`, `LineNumbers`), its
  classification of uses (`BindingUse`) and its liveness walk (`SpanWalk`), against what the code's paths do.
* **Query builders.** Filters and updates compiled to numbered placeholders and binds (`FilterCompiler`,
  `UpdateCompiler`, joined to the issue table by `UpdateRefinement`) and the escaping of search text (`LikeEscape`).
* **Timed keys.** Rate limiting counters (`RateLimiter`) and the MCP sessions with their index (`McpSessions`), whose
  calls interleave store command by store command (`McpCalls`, `McpRuns`).

Code that changes state in place is a class or a loop here too. Each such method is proved equal to a function of
the state before (`Apply`, `CreateIssueTx`, `Strip`, ...), and the theorems over runs are about those functions. A
run is a sequence of states and steps; the steps are the atomic sections of the code (a transaction, a query, a store
command, what is done under one lock), in any order.

## Where the code differs from what is said about it

* `ws_client.rs` says that no output is lost during brief disconnections. A message taken off the channel whose
  send fails is dropped, so each connection can lose one (`WsClient.WsClient.RunSession`).
* A snapshot can be queued after its session's terminal event, before the session is removed. Followed by a new
  session under the same id it is no tail of anything (`StaleTail`). When snapshot and later output are a tail is
  `TerminalTail.TailExactly`; for a session that is running when its snapshot is queued they always are.
* Parent links are checked on the pool and inserted in a later transaction. Two requests can both pass and then link two
  issues under each other, or one issue under two parents (`ParentRequests`).
* The issues an update announces besides its own are listed before its transaction. An issue that comes to be blocked in
  between changes its flag without an entry (`SyncWitnesses.LateRelationUnannounced`).
* Changing the labels of an archived issue, or the status of an issue that blocks an archived one, sends the
  archived row to clients, which show it again until a step takes it out of the archive or deletes it
  (`SyncRuns.RowAgreesExactly`). Nothing else breaks agreement (`ReplayAgreement.AgreementExactly`).
* The pool checker's documented rule is sound and precise, but the shipped walk notices that a block has closed only
  at its next event, and misses a pool access in an `else` after a consume in the `if`
  (`SpanWalk.ElseBranchIsMissed`; the exact condition is `SpanWalk.AgreesExactly`). Its reading of a fixed number of
  characters around a use has the exact limits of `BindingUse.ClassifiedExactly`.
* Invalidating a workspace is meant to end all its MCP sessions. It reads the members, deletes each and drops the set in
  commands of their own: a session created in between is dropped from the index, and no invalidation finds it again
  (`McpRuns.CreationUnderInvalidation`). The same goes for a session that is removed while its flag is being written, and
  one whose set expires while it is created. When the index is complete is `McpCalls.CompleteExactly`.
* The MCP flag gives a session a fresh day without renewing its workspace's set, so a flag written late leaves a
  session the index no longer knows (`McpRuns.LateFlagSurvives`, `McpCalls.FlagKeepsCoverExactly`).
* The rate limiter's first call sets the window's expiry by a second command. If it is given up before that, the window
  never ends (`RateLimiter.GivenUpNeverEnds`).
* `set_sort_order` is documented to change only the order and `updated_at`; it also takes the issue out of the archive.
* `mark_as_read` answers Forbidden for the caller's own notification once that is deleted.

## Model

| member | source | states |
|---|---|---|
| `TerminalTail.TailExactly` | apps/trakkt-connect/src/pty_manager.rs:749-759 | In every interleaving within one connection, for as long as a browser follows a session it was sent a snapshot of, running or not: snapshot plus all later output frames in its queue are the last `capacity` bytes that PTY `g` had queued and all it has queued since, as far as handled, if and only if every output frame of the session handled since came from `g`. A snapshot of no session counts for a PTY that had queued nothing yet |
| `TerminalTail.TerminalTail` | apps/trakkt-connect/src/pty_manager.rs:581-613 | In every interleaving of agent, link, server and browsers within one connection: after a browser was sent a snapshot of a running session, and while it stays registered and has not been told the session ended, snapshot plus all later output frames in its queue are exactly a suffix of what the PTY produced: the last `capacity` bytes at the snapshot and everything since that the server has handled |
| `TerminalTail.StepRelays` | crates/trakkt-auth/src/connect_manager.rs:274-300 | Every single step, whoever takes it, keeps a follower's queue in line with the channel: since the snapshot it holds exactly the session's bytes that the server has handled |
| `TerminalTail.LabelledExactly` | apps/trakkt-connect/src/pty_manager.rs:599-613 | The session's bytes on a stretch of the channel are those of one PTY if and only if every output frame there came from it; otherwise there are strictly more of them |
| `TerminalTail.StepKeepsTail` | crates/trakkt-auth/src/connect_manager.rs:274-300 | Every single step keeps a follower's tail exact, or tells the follower that the session ended |
| `TerminalTail.FrameWhileAlive` | apps/trakkt-connect/src/pty_manager.rs:715-783 | While a PTY lives, whatever the agent queues either ends its session or carries bytes of the session exactly when they are this PTY's, and a session list among it names the session |
| `RelayLink.OwnFrameReaches` | crates/trakkt-auth/src/connect_manager.rs:274-300 | A frame of the session's own agent gives a follower exactly the session's bytes that the frame carries; only a terminal event takes the session from it |
| `RelayLink.ElsewhereUndisturbed` | crates/trakkt-auth/src/connect_manager.rs:136-304 | Nothing another agent or any browser does puts bytes of the session into a follower's queue or takes its subscription |
| `RelayLink.SentGrows` | crates/trakkt-auth/src/connect_manager.rs:121-134 | No step takes anything back out of a registered browser's queue |
| `StaleTail.StaleTail` | apps/trakkt-connect/src/pty_manager.rs:749-759 | A whole run to the browser: a session ends, a browser spawns it again and follows, and is then sent the old session's snapshot and the new one's output, which together are the tail of neither |
| `StaleSnapshot.StaleSnapshotMixesSessions` | apps/trakkt-connect/src/pty_manager.rs:749-759 | The agent's part of it: a run whose channel carries the terminal event, then a snapshot of the ended session, then the output of a new one under the same id |
| `PtyProperties.Lifecycle` | apps/trakkt-connect/src/pty_manager.rs:118-331 | At every point of every run there are at most 32 sessions; on the channel each PTY goes Started, outputs, one terminal event, in that order and nothing after; its outputs are a prefix of what it produced, and all of it once the terminal event is queued; a PTY no longer behind its session's table entry has queued its terminal event |
| `PtyProperties.NeverReplaced` | apps/trakkt-connect/src/pty_manager.rs:175-189 | For as long as a session stays in the table the same PTY is behind it, whatever is spawned meanwhile |
| `PtyProperties.SnapshotMatchesChannel` | apps/trakkt-connect/src/pty_manager.rs:749-759 | A snapshot on the channel is the last `capacity` bytes of exactly the output queued before it |
| `PtyProperties.FrameSize` | apps/trakkt-connect/src/pty_manager.rs:581-613 | No output frame is empty or carries more than 65535 + 4096 bytes |
| `PtyProperties.SignalledExactly` | apps/trakkt-connect/src/pty_manager.rs:415-456 | A session is flagged as killed exactly when some earlier kill was delivered to its PTY |
| `PtyProperties.KilledExactly` | apps/trakkt-connect/src/pty_manager.rs:679-700 | The terminal event is Killed exactly when a kill had been delivered before the reader looked at the flag, otherwise Exited |
| `PtyProperties.ExitCodeReported` | apps/trakkt-connect/src/pty_manager.rs:679-706 | An exit frame carries the code that its session's reader was told |
| `PtyProperties.AnswersAsked` | apps/trakkt-connect/src/pty_manager.rs:715-783 | A list on the channel was taken of the whole table, a pong answers a ping, and a failure carries the reason for which its session's spawn was refused |
| `PtyProperties.SpawnGoesOn` | apps/trakkt-connect/src/pty_manager.rs:118-192 | A request gets as far as opening a PTY exactly if there is a place, a size, a command, permission and an unused id; otherwise the refusal names what failed first |
| `PtyProperties.ResizeIsListed` | apps/trakkt-connect/src/pty_manager.rs:388-412 | A resize that is applied changes what is listed of that session, and nothing else |
| `PtyInvariant.Keeps` | apps/trakkt-connect/src/pty_manager.rs:537-709 | Every lock section of dispatcher and readers keeps the agent invariant: ring, batch, pipe, channel and flags of every session account for the PTY's whole stream |
| `PtyInvariant.FlushKeeps` | apps/trakkt-connect/src/pty_manager.rs:599-613 | Queueing a batch under the output lock keeps ring and channel in step |
| `PtyInvariant.DumpReadKeeps` | apps/trakkt-connect/src/pty_manager.rs:749-753 | What a snapshot reads under the output lock is the end of what has been queued, because no reader is between append and enqueue |
| `PtyInvariant.AbortKeeps` | apps/trakkt-connect/src/ws_client.rs:186-198 | Cancelling the dispatcher with a listing, pong or snapshot in hand frees the output lock and leaves the invariant as it is |
| `PtyInvariant.OpenKeeps` | apps/trakkt-connect/src/pty_manager.rs:294-331 | A new session enters the table with a new PTY, an empty ring and a reader that waits until Started is queued |
| `PtyInvariant.ReportKeeps` | apps/trakkt-connect/src/pty_manager.rs:687-704 | The terminal event is queued once, after the last output |
| `PtyInvariant.RemoveKeeps` | apps/trakkt-connect/src/pty_manager.rs:494-500 | Removing a session happens only after its terminal event, so no living PTY ever lacks its entry |
| `Scrollback.ScrollbackBuffer.constructor` | apps/trakkt-connect/src/pty_manager.rs:66-72 | An empty ring of the given capacity |
| `Scrollback.ScrollbackBuffer.Push` | apps/trakkt-connect/src/pty_manager.rs:75-85 | Pushing byte by byte with eviction leaves the last `capacity` bytes of old contents and data together, for every capacity including zero |
| `Scrollback.ScrollbackBuffer.Dump` | apps/trakkt-connect/src/pty_manager.rs:88-90 | The contents in order |
| `Scrollback.Batch` | apps/trakkt-connect/src/pty_manager.rs:581-598 | One pass takes at least one chunk and stops only when nothing more has arrived or 64 KiB are full; ring and frame receive the same bytes |
| `Scrollback.Forward` | apps/trakkt-connect/src/pty_manager.rs:575-640 | The frames cut the stream into nonempty bounded pieces without loss, and the ring ends as the end of the stream |
| `Scrollback.LastNOfLastN` | apps/trakkt-connect/src/pty_manager.rs:75-85 | Evicting early or late makes no difference to what a ring holds |
| `WsClient.WsClient.RunSession` | apps/trakkt-connect/src/ws_client.rs:126-198 | Nothing leaves the channel before both bootstrap frames are out; then messages leave in channel order, one at every send that finds one, until the reader ends or such a send fails, and the message of that send is the one that is lost: the number taken is the least of all sends and, for every moment so far, what was offered by then and the sends since; the rest is still queued |
| `WsClient.PacedOne` | apps/trakkt-connect/src/ws_client.rs:180-192 | The events of a connection settle how many messages it takes and whether the last send failed |
| `WsClient.AllAreSent` | apps/trakkt-connect/src/ws_client.rs:182-190 | Sends that all succeed take all that is waiting, or as many as there are sends |
| `WsClient.WsClient.Turn` | apps/trakkt-connect/src/ws_client.rs:57-90 | The delay is reset only by a connection of at least 30 seconds, and doubles up to 60; at most one message is lost |
| `WsClient.WsClient.RunForever` | apps/trakkt-connect/src/ws_client.rs:48-91 | Over any sequence of attempts: each delay is 2 to the number of attempts since the last sustained connection, at most 60; sent and lost messages and the queue together are all arrivals in order, at most one lost per connection; and each connection takes as many as its sends find of what was left by the ones before it |
| `WsClient.DelayBounds` | apps/trakkt-connect/src/ws_client.rs:83-89 | Every delay is between 1 and 60 seconds, and exactly 60 from the sixth attempt after a sustained one on |
| `RegistryRuns.RunKeepsTables` | crates/trakkt-auth/src/connect_manager.rs:29-35 | In every reachable state infos and subscriptions refer to routed sessions, routes to live agents, and a subscriber has the owner of the session's agent |
| `RegistryRuns.SessionBound` | crates/trakkt-auth/src/connect_manager.rs:174-194 | In every reachable state an agent has at most 32 unlisted and at most 64 routed sessions |
| `RegistryRuns.RouteFixed` | crates/trakkt-auth/src/connect_manager.rs:242-273 | While a session stays routed it stays with one agent, and once listed it never becomes pending again |
| `RegistryRuns.SpawnsReachingAgents` | crates/trakkt-auth/src/connect_manager.rs:146-195 | Every spawn any agent is ever sent respects the size limits and carries a valid session id |
| `RegistryProperties.StepConsistent` | crates/trakkt-auth/src/connect_manager.rs:47-304 | Every registry operation keeps the references between the four tables whole |
| `RegistryProperties.StepBounded` | crates/trakkt-auth/src/connect_manager.rs:174-273 | Every operation keeps the bounds on pending and listed sessions |
| `RegistryProperties.RouteStable` | crates/trakkt-auth/src/connect_manager.rs:242-273 | No operation moves a live route or un-acknowledges a session |
| `RegistryProperties.PendingSurvivesLists` | crates/trakkt-auth/src/connect_manager.rs:242-273 | A list from any agent leaves every reservation not listed yet in place |
| `RegistryProperties.ListIsAuthoritative` | crates/trakkt-auth/src/connect_manager.rs:242-273 | After a list the agent's acknowledged sessions are exactly the acceptable ids among its first 32 |
| `RegistryProperties.AcceptExact` | crates/trakkt-auth/src/connect_manager.rs:248-262 | A list adds exactly the valid ids that are free or already the agent's own, as routes and as infos under their own id, and nothing else changes |
| `RegistryProperties.LastInfoKept` | crates/trakkt-auth/src/connect_manager.rs:254-256 | Of several infos that a list has for one accepted session the last is kept |
| `RegistryProperties.ReconcileConsistent` | crates/trakkt-auth/src/connect_manager.rs:242-273 | Dropping the sessions a list no longer names takes their infos and subscriptions along |
| `RegistryProperties.SpawnBounded` | crates/trakkt-auth/src/connect_manager.rs:174-194 | A spawn that finds an agent with 32 routed sessions is refused and changes nothing, and both bounds survive every spawn |
| `RegistryProperties.OnlySpawnsAndListsAddSessions` | crates/trakkt-auth/src/connect_manager.rs:136-304 | Only a spawn or a session list can add a route; everything else at most removes some |
| `RegistryEffects.SessionCommandEffect` | crates/trakkt-auth/src/connect_manager.rs:196-214 | A command on a session is accepted if and only if the session is routed to a connected agent of the browser's owner that has room; then it is at the end of that agent's queue and in no other, a scrollback request and no other has subscribed the browser, and nothing else changed; a refused one changed nothing |
| `RegistryEffects.SessionRefusalSays` | crates/trakkt-auth/src/connect_manager.rs:136-214 | Each refusal names the check that failed first |
| `RegistryEffects.SpawnEffect` | crates/trakkt-auth/src/connect_manager.rs:147-195 | A spawn is accepted if and only if it is within the limits, its id is well formed and unused, and the first of the owner's agents in iteration order has one of 32 places and room; then the request is at the end of that agent's queue and in no other, the session is reserved for it and followed by the browser; a refused one changed nothing |
| `RegistryEffects.ListEffect` | crates/trakkt-auth/src/connect_manager.rs:215-231 | A request for the lists is in the queue of each of the owner's agents before the first that has no room and of no other, and accepted if and only if there is none without; an owner without agents is told at once that there are no sessions |
| `RegistryEffects.SessionFrameEffect` | crates/trakkt-auth/src/connect_manager.rs:274-300 | A frame about a session counts if and only if the session is routed to its sender: then exactly the owner's browsers that follow it get it, those without room are gone, and a terminal event takes route, info and subscriptions with it |
| `RegistryEffects.OtherFrameEffect` | crates/trakkt-auth/src/connect_manager.rs:301-303 | `Ready` reaches exactly the owner's browsers, a pong or a status nobody |
| `RegistryEffects.ListFrameEffect` | crates/trakkt-auth/src/connect_manager.rs:240-273 | After a list exactly the subscriptions without a route are gone, and the owner's browsers are told |
| `RegistryEffects.ListingExactly` | crates/trakkt-auth/src/connect_manager.rs:305-316 | An owner is told exactly the infos whose session is routed to one of the owner's connected agents |
| `RegistryEffects.AddAgentEffect` | crates/trakkt-auth/src/connect_manager.rs:47-66 | A new agent starts with an empty queue, and exactly its owner's browsers are told |
| `RegistryEffects.RemoveAgentEffect` | crates/trakkt-auth/src/connect_manager.rs:68-97 | With an agent go exactly its routes, their infos and the subscriptions to them; the owner's browsers are told whether another agent is left and what sessions are |
| `RegistryEffects.BrowserEffects` | crates/trakkt-auth/src/connect_manager.rs:99-134 | A browser comes with one status message and no subscription and goes alone; an error reaches it if it has room |
| `OwnerIsolation.StepIsolated` | crates/trakkt-auth/src/connect_manager.rs:47-304 | A step taken for one owner leaves every other owner's agents, routes, infos, subscriptions and queues exactly as they were |
| `OwnerIsolation.CommandIsolated` | crates/trakkt-auth/src/connect_manager.rs:136-234 | A browser's command touches nothing of another owner, whatever session id it names |
| `OwnerIsolation.FrameIsolated` | crates/trakkt-auth/src/connect_manager.rs:236-304 | An agent's frame, forged session ids and lists included, touches nothing of another owner |
| `OwnerIsolation.RemoveAgentIsolated` | crates/trakkt-auth/src/connect_manager.rs:68-97 | A leaving agent takes only its own owner's sessions with it |
| `ConnectManager.Manager.constructor` | crates/trakkt-auth/src/connect_manager.rs:41-43 | The empty registry |
| `ConnectManager.Manager.RegisterAgent` | crates/trakkt-auth/src/connect_manager.rs:47-67 | Adds the agent and tells its owner's browsers; all invariants kept |
| `ConnectManager.Manager.UnregisterAgent` | crates/trakkt-auth/src/connect_manager.rs:68-97 | Removes agent, routes, infos and subscriptions, and tells the owner's browsers whether another agent is left and which sessions are |
| `ConnectManager.Manager.RegisterBrowser` | crates/trakkt-auth/src/connect_manager.rs:99-117 | A browser without subscriptions, told whether an agent of its owner is connected; all invariants kept |
| `ConnectManager.Manager.UnregisterBrowser` | crates/trakkt-auth/src/connect_manager.rs:118-120 | Removes the browser, and nothing else changes |
| `ConnectManager.Manager.BrowserCommand` | crates/trakkt-auth/src/connect_manager.rs:136-234 | Spawn, session commands and list act on all tables as specified, errors included, in the code's order |
| `ConnectManager.Manager.Spawn` | crates/trakkt-auth/src/connect_manager.rs:146-195 | Reserves a route and subscribes the asking browser only if the agent's queue took the request |
| `ConnectManager.Manager.Command` | crates/trakkt-auth/src/connect_manager.rs:196-214 | The step of the registry that `RegistryEffects.SessionCommandEffect` is about: forwards only to a session of the same owner with a live agent that has room; only a snapshot request that was forwarded subscribes the browser |
| `ConnectManager.Manager.List` | crates/trakkt-auth/src/connect_manager.rs:215-230 | Asks every agent of the owner until one cannot take it; with no agent at all the browser gets an empty list |
| `ConnectManager.Manager.AgentMessage` | crates/trakkt-auth/src/connect_manager.rs:236-304 | Lists, session frames and status go through the tables and to exactly the addressed browsers |
| `ConnectManager.Manager.Accept` | crates/trakkt-auth/src/connect_manager.rs:248-272 | The loop over a list followed by the two `retain` passes leaves the reconciled tables |
| `ConnectManager.Manager.Deliver` | crates/trakkt-auth/src/connect_manager.rs:121-134 | Each addressed browser gets the message or, if its queue cannot take it, is dropped; no other is touched |
| `ConnectManager.Manager.OwnerSessions` | crates/trakkt-auth/src/connect_manager.rs:305-316 | Exactly the infos of the owner's agents, each once |
| `ConnectManager.Manager.BrowserError` | crates/trakkt-auth/src/connect_manager.rs:317-330 | One failure event to that browser, dropped silently if its queue is full |
| `SyncRuns.RowAgreesExactly` | crates/trakkt-ui/src/cache/apply.rs:73-270 | At the end of every run of issue, comment, relation, notification, favorite and archive steps, row by row: what a member's replay holds is what the server holds, if and only if the row is not an issue that was sent while it was archived and has been archived ever since |
| `SyncRuns.ReplayAgrees` | crates/trakkt-ui/src/cache/apply.rs:73-270 | Over every run in which no archived issue is re-sent, replaying the entries a user may see yields exactly the unarchived issues, the comments and that user's own notifications and favorites, rows included |
| `SyncRuns.PrivateRowsStayPrivate` | crates/trakkt-auth/src/sync_log_service.rs:390-414 | In every run an entry about a notification or favorite is visible to its owner and to nobody else |
| `DerivedFlags.MovedFlagAnnouncedExactly` | crates/trakkt-auth/src/issue_service.rs:835-843 | Over every run, with the list read at any time before the update's transaction: a flag `is_blocked` that an update moves is announced in the same commit if and only if the issue was already blocked by the updated one when the list was read |
| `DerivedFlags.DerivedFlagsAnnounced` | crates/trakkt-auth/src/issue_service.rs:1094-1111 | If the updated issue is made to block nothing between the reading of the list and the update, every issue whose `is_blocked` differs before and after gets an Update entry in the same commit with its new row and flag |
| `DerivedFlags.AnnouncedExactly` | crates/trakkt-auth/src/issue_service.rs:1094-1111 | For any list: an existing issue has an entry in the commit if and only if it is the updated one or in the list, and the entry carries its new row and flag |
| `DerivedFlags.EarlierReadsTogether` | crates/trakkt-auth/src/relation_service.rs:193-205 | Whenever the list was read, the issues in it that still exist are in the updated issue's workspace |
| `DerivedFlags.WorkspaceFixed` | crates/trakkt-auth/src/issue_service.rs:800-1115 | Over every run an issue never changes workspace, and once it is gone its id never comes back |
| `SyncWitnesses.LateRelationUnannounced` | crates/trakkt-auth/src/issue_service.rs:835-843 | A run in which an issue comes to block another between reading and update: the flag moves and nothing in the commit is about that issue |
| `SyncWitnesses.RelabelledArchiveReappears` | crates/trakkt-auth/src/issue_service.rs:1514-1640 | A run of four calls, ending with new labels on an archived issue, after which clients show an issue the server hides |
| `SyncRuns.RunKeepsTables` | crates/trakkt-auth/src/issue_service.rs:1259-1506 | In every run comments, relations and notifications refer to existing issues and favorites are unique, deletes included |
| `ReplayAgreement.AgreementExactly` | crates/trakkt-auth/src/issue_service.rs:1094-1111 | A step keeps all clients in agreement if and only if it does not re-send an archived issue: new labels on one, or a status change whose list names one |
| `ReplayAgreement.StepTells` | crates/trakkt-auth/src/sync_log_service.rs:940-1075 | Every step's entries announce each changed row to everyone who can see it, and say what is the case of every row except archived issues they send |
| `ReplayAgreement.StepAgrees` | crates/trakkt-auth/src/issue_service.rs:1259-1506 | Every step that re-sends no archived issue keeps agreement, for every workspace and user |
| `ReplayAgreement.ResentDisagrees` | crates/trakkt-auth/src/issue_service.rs:1514-1640 | An archived issue that is sent is wrong on every client of its workspace afterwards, whatever was there before |
| `ReplayAgreement.ResendDisagrees` | crates/trakkt-auth/src/issue_service.rs:1514-1640 | Every step that re-sends one breaks agreement for every user of its workspace |
| `ReplayAgreement.DeleteTells` | crates/trakkt-auth/src/issue_service.rs:1259-1506 | A cascading issue delete tells clients that the issue, its comments, notifications and favorites are gone, and nothing untrue |
| `ReplayAgreement.DeleteComplete` | crates/trakkt-auth/src/favorite_service.rs:314-376 | Every row that goes with an issue is announced to everyone who could see it |
| `ReplayAgreement.UpdateTells` | crates/trakkt-auth/src/issue_service.rs:800-1115 | An update with its activity entries and those of the listed issues announces what changed, truthfully except about listed archived issues |
| `ReplayAgreement.ChangeTells` | crates/trakkt-auth/src/notification_service.rs:393-544 | Bulk read, unread, delete and restore announce each changed row in its new state to its owner |
| `ReplayAgreement.ArchiveTells` | crates/trakkt-auth/src/archive_service.rs:109-128 | One archived issue's Delete entry says what is the case for clients |
| `Replay.ReplayBatch` | crates/trakkt-ui/src/cache/apply.rs:73-270 | After a batch a row is what some visible entry of the batch about it says, or what it was before |
| `Replay.RowTouched` | crates/trakkt-ui/src/cache/apply.rs:73-270 | A row with a truthful visible entry is right afterwards, whatever the client held |
| `Replay.BatchDisagrees` | crates/trakkt-ui/src/cache/apply.rs:73-270 | A batch whose visible entries about a row all misstate it leaves the client wrong about that row |
| `Replay.FollowLog` | crates/trakkt-ui/src/cache/apply.rs:73-270 | Following the log entry by entry: upsert on data, skip without, evict on delete, only what is visible |
| `IssueService.Service.constructor` | crates/trakkt-auth/src/issue_service.rs:341-440 | An empty store whose default statuses are backlog |
| `IssueService.Service.CreateIssue` | crates/trakkt-auth/src/issue_service.rs:341-440 | Row in the default status with the team's next number and one Insert entry with the row read back; without a default status or team nothing changes |
| `IssueService.Service.HighestNumber` | crates/trakkt-auth/src/issue_service.rs:354-368 | The highest number in use in the team, or 0 |
| `IssueService.Service.ReadBlocked` | crates/trakkt-auth/src/issue_service.rs:835-843 | The list of issues to announce, read before the transaction and only for a status change |
| `IssueService.Service.UpdateIssue` | crates/trakkt-auth/src/issue_service.rs:845-1115 | The transaction, with any list: row, status history, and entries for activity, the issue and those listed that still exist, in one step; an issue gone by now changes nothing |
| `IssueService.Service.Patch` | crates/trakkt-auth/src/issue_service.rs:843-956 | The new row: given columns, `completed_at` and `started_at` by the new category, a fresh number on a team change, never archived |
| `IssueService.Service.Payload` | crates/trakkt-auth/src/issue_service.rs:181-185 | The payload carries the row and `is_blocked`, true exactly if an open issue blocks it |
| `IssueService.Service.DeleteIssue` | crates/trakkt-auth/src/issue_service.rs:1259-1506 | All rows of the issue go, each with its Delete entry to its own audience |
| `IssueService.Service.DeleteFavorites` | crates/trakkt-auth/src/favorite_service.rs:350-376 | Each doomed favorite is deleted and reported to its owner, one by one |
| `IssueService.Service.SetLabels` | crates/trakkt-auth/src/issue_service.rs:1514-1640 | Replaces the label set and records one Update; an archived issue stays archived and is sent all the same |
| `IssueService.Service.SetSortOrder` | crates/trakkt-auth/src/issue_service.rs:1644-1712 | Sets the order, takes the issue out of the archive, records one Update |
| `IssueService.Service.CreateComment` | crates/trakkt-auth/src/comment_service.rs:124-170 | Row and Insert entry, or NotFound for an unknown issue |
| `IssueService.Service.EditComment` | crates/trakkt-auth/src/comment_service.rs:301-370 | NotFound, then Forbidden for anyone but the author, then row and Update entry together |
| `IssueService.Service.DeleteComment` | crates/trakkt-auth/src/comment_service.rs:380-442 | NotFound, then Forbidden for anyone but the author, then row and Delete entry together |
| `IssueService.Service.Notify` | crates/trakkt-auth/src/notification_service.rs:132-190 | An unread row and an Insert entry for its owner only |
| `IssueService.Service.MarkAsRead` | crates/trakkt-auth/src/notification_service.rs:558-605 | Done exactly for the caller's own live row, which is read afterwards and otherwise as before, announced even if it was read; NotFound exactly for an unknown id, Forbidden for any other, a deleted own row included; no other row changes |
| `IssueService.Service.ChangeNotifications` | crates/trakkt-auth/src/notification_service.rs:515-544 | Exactly the affected rows of the user change, each to read, unread, deleted now or not deleted as asked and in no other column, and none is left to change; an explicitly empty request or no affected row does nothing |
| `NotificationEffects.SelectsExactly` | crates/trakkt-auth/src/notification_service.rs:609-725 | A change affects exactly the rows it would alter: of those in the inbox, or for restoring of the others |
| `NotificationEffects.UndoneByInverse` | crates/trakkt-auth/src/notification_service.rs:624-725 | Unread undoes read, read undoes unread and restoring undoes deleting: asked for the same rows, each finds exactly those and gives them back as they were |
| `IssueService.Service.UpdateAndRecord` | crates/trakkt-auth/src/notification_service.rs:452-507 | One entry per changed row, in its new state, to its owner |
| `IssueService.Service.AddFavorite` | crates/trakkt-auth/src/favorite_service.rs:103-160 | An existing favorite is returned and announced again, otherwise a row is inserted and announced; never two rows for one target |
| `IssueService.Service.RemoveFavorite` | crates/trakkt-auth/src/favorite_service.rs:176-240 | Removes the one row with its entry; without one nothing happens |
| `IssueService.Service.ArchiveOne` | crates/trakkt-auth/src/archive_service.rs:109-128 | Stamp and Delete entry of one issue in one transaction |
| `IssueService.Service.SweepTeam` | crates/trakkt-auth/src/archive_service.rs:76-130 | Exactly the team's unarchived closed issues that were last updated longer ago than the team allows are archived, each once |
| `IssueService.Service.ArchiveSweep` | crates/trakkt-auth/src/archive_service.rs:64-143 | The total is the number of issues due, exactly those are archived, and afterwards none is due |
| `RowEffects.CreateIssueEffect` | crates/trakkt-auth/src/issue_service.rs:341-440 | When an issue is made, with what columns and which number: one more than the team's highest; nothing else changes |
| `RowEffects.UpdateIssueEffect` | crates/trakkt-auth/src/issue_service.rs:845-1115 | When an update goes through; each given column takes its value and every other stays, but for the archive stamp, the time and what a new status or team calls for; nothing else changes |
| `RowEffects.UpdateIssueTells` | crates/trakkt-auth/src/issue_service.rs:845-1115 | The issue is announced first; an entry of the activity record follows exactly if the status changed, with the change |
| `RowEffects.SetLabelsEffect` | crates/trakkt-auth/src/issue_service.rs:1514-1640 | The labels and no other column take the new value; NotFound exactly without the issue |
| `RowEffects.SetSortOrderEffect` | crates/trakkt-auth/src/issue_service.rs:1644-1712 | Order, archive stamp and time change, and no other column |
| `RowEffects.DeleteIssueEffect` | crates/trakkt-auth/src/issue_service.rs:1259-1506 | Exactly the comments, relations, notifications and favorites that refer to the issue go with it |
| `RowEffects.BlockedExactly` | crates/trakkt-auth/src/issue_service.rs:181-185 | An issue is blocked exactly if some issue that blocks it is neither completed nor cancelled |
| `RowEffects.ArchiveEffect` | crates/trakkt-auth/src/archive_service.rs:76-130 | An issue is archived exactly if it is closed, unarchived and last updated more than the age ago; it gets the stamp alone |
| `RowEffects.CreateCommentEffect` | crates/trakkt-auth/src/comment_service.rs:124-170 | A comment is made exactly if its issue exists, with author and text; nothing else changes |
| `RowEffects.EditCommentEffect` | crates/trakkt-auth/src/comment_service.rs:301-370 | The author and nobody else edits a comment, and only its text |
| `RowEffects.DeleteCommentEffect` | crates/trakkt-auth/src/comment_service.rs:380-442 | The author and nobody else deletes a comment, and nothing else goes |
| `RowEffects.NotifyEffect` | crates/trakkt-auth/src/notification_service.rs:132-190 | An unread, undeleted row for the one user, under the issue's workspace, announced to that user |
| `RowEffects.AddFavoriteEffect` | crates/trakkt-auth/src/favorite_service.rs:103-160 | Afterwards the target is pinned by exactly one row, and all other rows stay |
| `RowEffects.RemoveFavoriteEffect` | crates/trakkt-auth/src/favorite_service.rs:176-240 | Afterwards the target is not pinned, and all other rows stay |
| `UpdateRefinement.PatchedIsUpdated` | crates/trakkt-auth/src/issue_service.rs:843-956 | The row an update leaves in the store is, column by column, the row its UPDATE statement computes |
| `IssueStore.ArchiveAllRows` | crates/trakkt-auth/src/archive_service.rs:109-128 | A sweep changes the stamp of the issues it names and nothing else |
| `IssueStore.Highest` | crates/trakkt-auth/src/issue_service.rs:354-368 | An upper bound of the team's numbers that is attained, or 0 for none |
| `IssueInvariants.IssueRules` | crates/trakkt-auth/src/issue_service.rs:849-892 | In every run: (team, number) is unique; `completed_at` is set exactly in completed or cancelled; `started_at` is set in started, null in backlog and unstarted; started is not after completed; archived implies closed |
| `IssueInvariants.NextNumberUnique` | crates/trakkt-auth/src/issue_service.rs:942-956 | A number one above the highest of the team, on creation or on a move, is nobody else's there |
| `IssueInvariants.PatchedRight` | crates/trakkt-auth/src/issue_service.rs:849-892 | An update from any category to any category leaves both timestamps right |
| `IssueInvariants.StatusHistory` | crates/trakkt-auth/src/activity_service.rs:343-371 | In every run the recorded status changes of an issue lead from the status it was created with to the one it has |
| `IssueInvariants.HistoryLinks` | crates/trakkt-auth/src/activity_service.rs:343-371 | Each recorded change starts where the ones before it end, and changes something |
| `IssueInvariants.StepKeepsIssues` | crates/trakkt-auth/src/issue_service.rs:970-1092 | Every step keeps all issue rules and histories |
| `IssueInvariants.RunKeepsTeams` | crates/trakkt-auth/src/archive_service.rs:76-108 | In every run an issue's workspace is that of its team, which the sweep relies on |
| `SpanWalk.LiveIsSound` | scripts/check-tx-pool.py:90-107 | Soundness of the documented rule: every point that some path of the code reaches with the transaction open is live |
| `SpanWalk.LiveIsPrecise` | scripts/check-tx-pool.py:90-107 | Its precision: every live point that is not dead code is reached by some path with the transaction open |
| `SpanWalk.AgreesExactly` | scripts/check-tx-pool.py:448-486 | The shipped walk reports exactly the live pool accesses if and only if the first event after the block of a nested consume is never an access at the consume's depth or deeper; it never reports one that is not live |
| `SpanWalk.ElseBranchIsMissed` | scripts/check-tx-pool.py:448-455 | A region the scan accepts, with a path that reaches a pool access in an `else` branch holding the transaction, for which nothing is reported |
| `SpanWalk.ScanRegion` | scripts/check-tx-pool.py:426-486 | The scan fails exactly when some consume in a nested block is not followed by a `return`, `break` or `continue` before that block closes (which is `SpanWalk.CannotTellExactly`), and otherwise yields the walk's findings |
| `SpanWalk.Diverges` | scripts/check-tx-pool.py:462-469 | The search for a leaving statement decides exactly whether the block diverges after the consume |
| `SpanWalk.CannotTellExactly` | scripts/check-tx-pool.py:460-471 | A nested consume is one the scan fails on if and only if no leaving statement stands between it and the closing brace of the innermost block around it; those after the block do not count |
| `SpanWalk.WalkRemembers` | scripts/check-tx-pool.py:448-483 | All the walk's state says is which consume was last and whether an event above its block was seen |
| `SpanWalk.MovesReachedAreLive` | scripts/check-tx-pool.py:90-107 | A consume that some path reaches with the transaction still open stands at a live point |
| `SpanWalk.HelperBodies` | scripts/check-tx-pool.py:426-433 | In a helper that is handed the open transaction every pool access is reported |
| `SpanWalk.FindSpanEnd` | scripts/check-tx-pool.py:398-409 | In a file whose braces balance the region is well nested and ends at the brace that closes the binding's block; only at depth 0 there is none |
| `SpanWalk.BraceDepths` | scripts/check-tx-pool.py:239-241 | The running depth after each token |
| `SpanWalk.DepthBefore` | scripts/check-tx-pool.py:244-245 | The depth before an offset, 0 at the start of the file |
| `BindingUse.ClassifiedExactly` | scripts/check-tx-pool.py:412-423 | Reading 16 characters before and 32 after a use gives the documented answer exactly unless a dot lies 32 or more away, a method name is cut into or out of `commit` and `rollback`, or a borrow mark starts more than 16 back |
| `BindingUse.UsualLayoutIsRead` | scripts/check-tx-pool.py:412-423 | A call laid out within 32 characters, or a borrow mark within 16, is classified as documented |
| `BindingUse.DeepChainIsMisread` | scripts/check-tx-pool.py:414-419 | A call chained 40 columns in is taken for a consume |
| `BindingUse.MarkStartExact` | scripts/check-tx-pool.py:420-422 | The borrow pattern matches at the end of the text before the use from one place only, and that place is found |
| `BindingUse.CallsExactly` | scripts/check-tx-pool.py:412-419 | Whatever stands around it, a method call on the binding is a consume if and only if the method is `commit` or `rollback`; laid out within 32 characters it is shipped as such |
| `BindingUse.OtherUsesExactly` | scripts/check-tx-pool.py:420-423 | Any other use is a consume if and only if no borrow mark stands directly before it |
| `Lexer.StripNoncode` | scripts/check-tx-pool.py:159-236 | The shipped loops terminate and compute the recursive reference tokenizer's result or its error, which is `LexerGrammar.StripExactly` |
| `LexerGrammar.StripExactly` | scripts/check-tx-pool.py:144-236 | For every text: it is accepted if and only if it is written in items (line comments, nested block comments, raw strings, strings, character literals and single characters), and what is left has comments blanked wholly, literals inside, and every other character as it was; it is refused with an error if and only if it is written in items up to something of that kind that does not close |
| `LexerGrammar.StripIsExpected` | scripts/check-tx-pool.py:168-234 | Behind any items the tokenizer has blanked exactly their comments and insides, and goes on |
| `LexerGrammar.FirstIsItem` | scripts/check-tx-pool.py:168-234 | Where an item stands the tokenizer takes exactly that item |
| `LexerGrammar.StopsExactly` | scripts/check-tx-pool.py:178-218 | The tokenizer stops exactly where a comment, raw string or string opens that does not close, and says which |
| `LexerGrammar.ReadAsItems` | scripts/check-tx-pool.py:168-236 | Every text is written in items up to where the tokenizer stops |
| `Lexer.StripKeepsLayout` | scripts/check-tx-pool.py:159-167 | Stripping keeps the length and every line break in place |
| `Lexer.CountIsRecursion` | scripts/check-tx-pool.py:178-191 | Counting openings and closings finds the end of nested comments exactly where recursion does |
| `Lexer.Next` | scripts/check-tx-pool.py:168-234 | One round of the main loop takes the reference's next token: comment, raw string, string, character literal, lifetime or plain text |
| `Lexer.CommentEnd` | scripts/check-tx-pool.py:180-191 | The end of a nested block comment, or that it is unterminated |
| `Lexer.Raw` | scripts/check-tx-pool.py:197-206 | A raw string ends at its quote with as many hashes, and nowhere before |
| `Lexer.MatchRawOpening` | scripts/check-tx-pool.py:197 | `r` or `br`, hashes, quote, matched exactly |
| `Lexer.FindExact` | scripts/check-tx-pool.py:201 | The first occurrence and none before it |
| `Lexer.StringEnd` | scripts/check-tx-pool.py:208-218 | The closing quote, past escapes, or that there is none |
| `Lexer.MatchCharLiteral` | scripts/check-tx-pool.py:225-229 | A character literal and not a lifetime |
| `LineNumbers.LineOf` | scripts/check-tx-pool.py:248-256 | The binary search returns one plus the number of line breaks before the offset |
| `LineNumbers.LineStarts` | scripts/check-tx-pool.py:510 | Zero and the position after each line break, in order |
| `LineNumbers.LineInOriginal` | scripts/check-tx-pool.py:248-256 | The line reported for an offset of the stripped text is that offset's line in the original file |
| `FilterCompiler.ListIssues` | crates/trakkt-auth/src/issue_service.rs:598-743 | For every combination of filters and every list length: the placeholders are 1 to the number of binds, each once and in order, and the clause with its binds selects exactly the rows the filters ask for |
| `FilterCompiler.NumberedMeansParts` | crates/trakkt-auth/src/issue_service.rs:598-676 | Each placeholder stands for the value of its own condition, so the numbered clause means what the conditions mean |
| `FilterCompiler.PartsMeanFilters` | crates/trakkt-auth/src/issue_service.rs:598-676 | Asking for the conditions is asking for the filters: absent and empty ones ask for nothing, archived rows only when asked for |
| `FilterCompiler.SlotsAreAllBinds` | crates/trakkt-auth/src/issue_service.rs:598-743 | The highest index is the bind count |
| `FilterCompiler.InClausePlaceholders` | crates/trakkt-core/src/db.rs:396-402 | `count` consecutive indices and the next free one |
| `FilterCompiler.Builder.BuildConditions` | crates/trakkt-auth/src/issue_service.rs:598-676 | The first pass numbers the conditions of exactly the filters that are set |
| `FilterCompiler.Builder.BindValues` | crates/trakkt-auth/src/issue_service.rs:700-740 | The second pass binds their values in the same order |
| `UpdateCompiler.UpdateStatement` | crates/trakkt-auth/src/issue_service.rs:845-1035 | For every combination of given fields the statement with its binds turns any row into the row the update asks for, and the last placeholder is the issue's id |
| `UpdateCompiler.NumberedMeansParts` | crates/trakkt-auth/src/issue_service.rs:845-962 | Each placeholder stands for its field's value, however many columns use it |
| `UpdateCompiler.PartsMeanUpdate` | crates/trakkt-auth/src/issue_service.rs:845-956 | The fields together ask for the updated row: old values feed the CASE expressions, set-to-null differs from not given |
| `UpdateCompiler.BuildClause` | crates/trakkt-auth/src/issue_service.rs:845-962 | The first pass and the next free index |
| `UpdateCompiler.BindAll` | crates/trakkt-auth/src/issue_service.rs:994-1035 | The second pass binds every given field and then the id |
| `LikeEscape.EscapesEachChar` | crates/trakkt-auth/src/issue_service.rs:671-698 | The three replacements in a row are one escape per character |
| `LikeEscape.SearchIsExact` | crates/trakkt-auth/src/notification_service.rs:242-255 | Matching `%`, the escaped text, `%` holds exactly when the text contains the search, for all strings and any case folding |
| `ParentForest.ValidateNoCircularReference` | crates/trakkt-auth/src/issue_service.rs:1725-1764 | The walk ends; it accepts exactly when the proposed parent has at most nine ancestors and neither it nor any of them is the issue, and each rejection names its reason |
| `ParentForest.LinkedExactly` | crates/trakkt-auth/src/relation_service.rs:331-345 | Whatever was checked before: a link for a child that has no parent leaves every ancestor chain ending if and only if at that moment the child is not on the parent's chain, at any height |
| `ParentForest.GuardedAssignment` | crates/trakkt-auth/src/issue_service.rs:1725-1764 | An accepted parent for a child that has none leaves every chain ending |
| `ParentForest.NoCycles` | crates/trakkt-auth/src/issue_service.rs:1725-1764 | Where all chains end there is no cycle |
| `ParentForest.AssignParent` | crates/trakkt-auth/src/relation_service.rs:311-345 | With nothing in between: the walk, then the single parent, then the link; a refusal changes nothing, and chains go on ending |
| `ParentRequests.ForestExactly` | crates/trakkt-auth/src/relation_service.rs:311-345 | Over every run of requests interleaved lookup by lookup with each other and with removals: each child has one parent and every chain ends, all along, if and only if each insert fitted when it was made |
| `ParentRequests.InsertedExactly` | crates/trakkt-auth/src/relation_service.rs:331-345 | An insert keeps the table a forest if and only if at that moment the link is there already, or the child has no parent and is not on the chain of the one it gets |
| `ParentRequests.AlwaysGrounded` | crates/trakkt-auth/src/relation_service.rs:249-345 | In every run in which no link is inserted between a request's first lookup and its own insert, the table is a forest, whatever is removed meanwhile |
| `ParentRequests.NeverOwnAncestor` | crates/trakkt-auth/src/relation_service.rs:139-160 | In such a run nobody has two parents or is their own ancestor, at any height |
| `ParentRequests.LookInforms` | crates/trakkt-auth/src/issue_service.rs:1739-1757 | A lookup that climbs stays on the only way up to the child; one that finds no parent shows there is none |
| `ParentRequests.CycleByTwoRequests` | crates/trakkt-auth/src/relation_service.rs:311-345 | A run of two requests that both pass all checks and put two issues under each other |
| `ParentRequests.TwoParentsByTwoRequests` | crates/trakkt-auth/src/relation_service.rs:139-160 | A run of two requests that both pass all checks and give one issue two parents |
| `ActivityLog.DiffLabels` | crates/trakkt-auth/src/activity_service.rs:778-823 | Applying the recorded removals and additions to the labels before gives the labels after, and no label is recorded without need |
| `ActivityLog.DescriptionLog.Save` | crates/trakkt-auth/src/activity_service.rs:586-678 | A save moves the newest row inside the window to now, or adds one |
| `ActivityLog.SavesStaySpread` | crates/trakkt-auth/src/activity_service.rs:468-479 | Over every run of saves stored rows are pairwise at least 60 seconds apart, and the last one has the last save's time |
| `ActivityLog.StoredExactly` | crates/trakkt-auth/src/activity_service.rs:468-479 | What is stored is exactly the saves that no other follows within a minute, each at its own time |
| `ActivityLog.CoalescingBound` | crates/trakkt-auth/src/activity_service.rs:24 | Any span of T seconds holds at most T/60 + 1 rows |
| `RateLimiter.WindowBound` | crates/trakkt-auth/src/rate_limiter.rs:106-126 | For every schedule in which increments and settings of the expiry of many calls interleave, and calls are given up in between: within one window exactly the smaller of the calls made and `capacity` are allowed |
| `RateLimiter.IntervalBound` | crates/trakkt-auth/src/rate_limiter.rs:106-126 | In every such schedule at most twice the capacity is allowed within any half-open interval of one window length |
| `RateLimiter.CountersAreWindows` | crates/trakkt-auth/src/rate_limiter.rs:111-115 | After every such schedule the counter is the number of calls in its window; at most one call has yet to set the expiry, and until it does there is none; an expiry is at least one window length after the first call |
| `RateLimiter.WindowsAdvance` | crates/trakkt-core/src/kv_store_memory.rs:34-38 | Each window begins at least one window length after the one before it began, and after all calls in that |
| `RateLimiter.GivenUpNeverEnds` | crates/trakkt-auth/src/rate_limiter.rs:111-115 | Once the call that got 1 is given up before it has set the expiry, every later call falls in the same window, and after `capacity` calls none is allowed any more |
| `RateLimiter.WindowEndsExactly` | crates/trakkt-core/src/kv_store_memory.rs:132-168 | A call begins a window exactly if there is no counter or its expiry has passed; only the setting of the expiry sets it, one window length ahead |
| `RateLimiter.AllowedAgain` | crates/trakkt-auth/src/rate_limiter.rs:106-126 | Once the expiry is set, calls one window length later are in a new window, and the first of it is allowed |
| `RateLimiter.AnswersBound` | crates/trakkt-auth/src/rate_limiter.rs:106-126 | Of calls that run one after the other, no more than twice the capacity are answered yes within any half-open interval of one window length |
| `RateLimiter.Store.Incr` | crates/trakkt-core/src/kv_store_memory.rs:132-159 | An expired or missing counter starts at 1 without expiry, a live one counts on and keeps its expiry |
| `RateLimiter.Store.Expire` | crates/trakkt-core/src/kv_store_memory.rs:161-168 | Sets the expiry of a live key and leaves the rest alone |
| `RateLimiter.Store.CheckBucket` | crates/trakkt-auth/src/rate_limiter.rs:106-126 | One call that runs alone takes the counter where its increment, and its setting of the expiry if it began a window, take it, and answers what that increment is allowed: yes exactly up to the capacity, with what remains of it, and otherwise no, with nothing remaining and the window to wait |
| `RateLimiter.Store.CheckRateLimit` | crates/trakkt-auth/src/rate_limiter.rs:29-100 | Address first, then user; a refused address is not counted against the user; yes exactly if both counters are within their capacities, and no more remains than of either |
| `McpCalls.CompleteExactly` | crates/trakkt-auth/src/mcp_session_manager.rs:70-281 | Over every run of calls interleaved store command by store command, with commands that fail and calls given up anywhere: a workspace's index has been complete all along (each session that validates and whose creation has returned is in a set that outlives it) if and only if every renewal, taking out, flag write and drop fitted when it was run |
| `McpCalls.DropExactly` | crates/trakkt-auth/src/mcp_session_manager.rs:255-270 | Dropping the set keeps the index complete if and only if no member of the set is live by then, which, if the members that were read are gone, is about the others only |
| `McpCalls.FlagKeepsCoverExactly` | crates/trakkt-auth/src/mcp_session_manager.rs:164-182 | Writing a flag that was read earlier keeps the index complete if and only if the session, unless its creation has yet to return, is still in the set and the set lives as long as the session's renewed time to live |
| `McpCalls.RenewExactly` | crates/trakkt-auth/src/mcp_session_manager.rs:92-105 | A creation returns with the index complete if and only if its session no longer validates or is still in a set that has not expired since it was added (and, should the renewal fail, outlives the session) |
| `McpCalls.TakeOutExactly` | crates/trakkt-auth/src/mcp_session_manager.rs:120-142 | Taking a session out of the set keeps the index complete if and only if nothing has brought the session back since it was deleted |
| `McpCalls.RunKeepsSound` | crates/trakkt-auth/src/mcp_session_manager.rs:70-281 | In every run sessions, sets and calls agree on whose workspace an id was made for, and no session lives longer than a day from now |
| `McpRuns.InvalidationExactly` | crates/trakkt-auth/src/mcp_session_manager.rs:251-281 | In every run in which all commands have fitted so far: when an invalidation ends no session of the workspace whose creation has returned validates, if and only if none was a live member of the dropped set |
| `McpRuns.InvalidationInRuns` | crates/trakkt-auth/src/mcp_session_manager.rs:251-281 | In every run in which no session of the workspace is added while it is being invalidated or deleted while its flag is being written, flags are written within a day of a session's making, sets do not expire under a creation, and no addition, renewal or deletion fails: when an invalidation ends no session of the workspace validates whose creation has returned |
| `McpRuns.AlwaysComplete` | crates/trakkt-auth/src/mcp_session_manager.rs:70-281 | In every such run the workspace's index is complete all along |
| `McpRuns.StepKeepsDated` | crates/trakkt-auth/src/mcp_session_manager.rs:70-281 | In such runs a session lives at most two days from its making, and its workspace's set holds it at least as long |
| `McpRuns.StepInforms` | crates/trakkt-auth/src/mcp_session_manager.rs:70-281 | In such runs every call in flight goes on knowing what it read: members that are gone are gone for good, and what an invalidation has read is all there is to delete |
| `McpRuns.WorkspacesApart` | crates/trakkt-auth/src/mcp_session_manager.rs:70-281 | In every run no command for one workspace changes a session or the set of another |
| `McpRuns.CreationUnderInvalidation` | crates/trakkt-auth/src/mcp_session_manager.rs:251-270 | A run in either kind of store: a session created while its workspace is being invalidated is dropped from the index, and after the next invalidation, which nothing overlaps, it still validates for its full day |
| `McpRuns.FlagUnderRemoval` | crates/trakkt-auth/src/mcp_session_manager.rs:167-179 | A run in either kind of store: a session removed while its flag is being written comes back outside the index and outlives an invalidation |
| `McpRuns.SetExpiresUnderCreation` | crates/trakkt-auth/src/mcp_session_manager.rs:92-97 | A run in which the set expires between the addition and the renewal of one creation, and the new session outlives an invalidation |
| `McpRuns.LateFlagSurvives` | crates/trakkt-auth/src/mcp_session_manager.rs:164-182 | A run of calls that do not overlap: flags written late leave a session that outlives its set and so an invalidation |
| `McpSessions.SessionManager.Sadd` | crates/trakkt-core/src/kv_store.rs:87-97 | The member joins a live set, which keeps its expiry, or starts a new set without one |
| `McpSessions.SessionManager.Expire` | crates/trakkt-core/src/kv_store.rs:74-85 | A live set of a store whose sets expire gets two days from now; otherwise nothing changes |
| `McpSessions.SessionManager.Srem` | crates/trakkt-core/src/kv_store.rs:99-109 | The member leaves a live set, and a set that is left empty goes |
| `McpSessions.SessionManager.constructor` | crates/trakkt-auth/src/mcp_session_manager.rs:62-68 | No sessions, no sets, no senders |
| `McpSessions.SessionManager.CreateSession` | crates/trakkt-auth/src/mcp_session_manager.rs:70-106 | Session with its time to live, membership in the workspace's set, and the set's expiry renewed |
| `McpSessions.SessionManager.ValidateSession` | crates/trakkt-auth/src/mcp_session_manager.rs:109-117 | The workspace of a live session, nothing for others |
| `McpSessions.SessionManager.RemoveSession` | crates/trakkt-auth/src/mcp_session_manager.rs:120-150 | Key, membership and sender of that session go |
| `McpSessions.SessionManager.SetSupportsMcpApps` | crates/trakkt-auth/src/mcp_session_manager.rs:164-182 | Rewrites a live session with a fresh time to live, without touching the set |
| `McpSessions.SessionManager.InvalidateWorkspaceSessions` | crates/trakkt-auth/src/mcp_session_manager.rs:251-280 | All members of the live set lose session and sender, and the set goes |

## Left out

- Real PTYs, signals and sockets, JSON and base64: byte sources, FIFO channels and an injective encoding instead; serialization succeeds.
- Aborting a task in the middle of `spawn` or `write_input`, and the agent's `shutdown`; aborted listings, pongs and snapshots are steps.
- `write_input` and what the program does with input: a PTY produces arbitrary bytes.
- The allowed commands, and whether opening a PTY succeeds: each spawn attempt may go either way.
- The agent's sessions as a class: its lock sections interleave, so they are steps of a state machine on values; only the ring and the batching loop are imperative.
- Backpressure on the agent's channel: a section that enqueues is a step that is taken when there is room.
- TerminalTail.TerminalTail: within one agent connection; across connections `WsClient.WsClient.RunForever` bounds what is missing.
- The link from the server's queue to the agent: the agent may receive any command at any time, which includes the ones that were sent.
- ConnectManager.Manager.RegisterAgent: asks for an id that is not registered; the callers that draw ids are not part of this model.
- ConnectManager.Manager.RegisterBrowser: asks for an id that is not registered; ids come from a counter that is not part of this model.
- The order in which hash maps are walked: a parameter that is any listing of the keys.
- Addressing of issues by team key and number: ids instead.
- Categories, teams and each workspace's default status do not change during a run, and defaults are backlog; label lists name existing labels, each once.
- Relations: created and removed within a workspace without the checks on duplicates and blocking cycles, and without the entries and notifications of `relation_service`; the parent rule is in `ParentForest` and `ParentRequests`.
- DerivedFlags.DerivedFlagsAnnounced: for updates; other services that move `is_blocked` (a relation made or removed, a blocking issue deleted) are not part of it.
- Derived payload fields other than `is_blocked`, such as a parent's title or label names.
- Comment threads and attachments, and the documents of projects and teams.
- IssueService.Service.RemoveFavorite: looks the row up inside the transaction; the code looks it up before, and does nothing if that very row is gone by then.
- IssueService.Service.CreateComment: looks the issue up inside the transaction; the code reads its workspace before, and an issue deleted in between is a foreign key error.
- ParentRequests.ForestExactly: whether both issues exist is not part of a request; clearing an old parent is a removal before it begins.
- IssueService.Service.ArchiveSweep: selection and stamps of a team happen without other edits in between; the stamp does not look at the status again.
- The extra filter on team entries in the log query, pages of the log, its pruning, and live delivery: a client reads the whole log in order.
- Notification preferences and the suppression of notifications about oneself.
- SQL engines, casts and the text of either dialect: conditions and assignments are syntax trees with placeholders, evaluated on rows. `ORDER BY`, `LIMIT` and `OFFSET` are not modelled.
- LikeEscape.SearchIsExact: case folding is a parameter that maps characters one by one.
- The other field differences of `record_issue_diff`: each compares one pair and inserts one row.
- ActivityLog.DescriptionLog.Save: rows of one issue and a known actor; without an actor nothing is coalesced.
- RateLimiter.WindowBound: one clock that does not run back; an increment that fails is no event, and a setting of the expiry that fails is a call given up.
- McpCalls.CompleteExactly: one clock that does not run back, and ids that are drawn fresh; a command that fails has no effect.
- McpRuns.InvalidationInRuns: the senders, which are local to a process, are in `McpSessions.SessionManager` only.
- SpanWalk.ScanRegion: works on the tokens of a region; finding macros and functions by regular expression, word boundaries and parsing of function headers are not modelled.
- SpanWalk.FindSpanEnd: the recognition of a `let` binding before `.begin()` is not modelled; depths in a region count from its binding.
- Lexer.StripNoncode: the host's notion of letters and digits is a parameter.
- Authentication, OAuth, mail, storage, billing, web routes and rendering.
