# LivOn: a verified model of the message pipeline and its surroundings

LivOn is a WebSocket chat backend. A message goes into a Redis stream, a worker per conversation takes
it out, gives it the next number of the conversation, stores it in Postgres, hands it to the connected
clients and acknowledges it. Around this sit an in-memory index of connections, participant rows that
serve as resumable identities, and a sorted set that says who is online. This project models that code
in Dafny, with the Redis commands and SQL statements it sends as atomic steps, and proves what the whole
keeps.

`dafny verify dfyconfig.toml` checks everything.

## How it is organised

* `Tables`, `Streams`: the SQL statements and the stream commands, one function each, with the keys,
  constraints and cascades of the schema.
* `Machine`: the pipeline as a state machine. Publishers, any number of handlers, crashes, lost replies,
  joins, leaves, deletions and re-creations of conversations and connections are interleaved step by
  step. A step that is not enabled changes nothing, so every list of steps is a run. Two switches: `shared`
  (repository statements join the transaction of `TxManager.WithTx`) and `serial` (one handler at a time
  per stream).
* `Invariants`, `Preservation`, `JobSteps`, `StreamSteps`, `TableSteps`: what every reachable state
  satisfies, and why each step keeps it. `Moves`: what any step of a handler can do.
* `PipelineTheorems`, `StageTheorems`: the promises of the pipeline. `Provenance`: every row, frame and ack comes from
  one publication.
* `CalmRuns`, `CalmLogs`: from any quiet moment on, as long as nothing fails for a conversation, and however
  everything is interleaved, the pipeline is an append-only log. `Progress`: draining terminates, with a bound
  on the number of steps for every run, faulty or not.
* `Workers`: the connection index and the pipeline in one process, and when handlers of a stream can overlap.
* `Handling`, `Draining`, `Executions`: one uninterrupted save, handler and consumer loop as functions of
  the faults met; that each of them is a run of the machine; and what the loop does to a stream by itself.
* `Postgres`, `Services`, `Client`, `Registry`, `PresenceStore`, `Session`, `Manager`: the objects of the
  program, updated in place, each method proved against those functions.
* `Hub`, `History`, `Presence`, `Lingering`, `Identity`: the laws of the connection index, of the history window,
  of the presence set with and without pruning, and of identities over whole runs of interleaved `StartSession`
  calls.
* `Journeys`: whole lives of connections, put together from those objects as
  internal/app/server/handlers/ws.go puts them together.

Every command has a `Fault`: it is executed and answered, it never arrives, or it is executed and the
answer is lost.

## What the code does that its comments do not say

* The transaction of package `services` is stored under a key that package `postgres` never looks up
  (`Postgres.ServicesKeyIsNeverFound`), so statements commit one by one. The theorems are stated for both
  switches where they differ. `GetMessages` and `HandleConnect` also pass on the outer context, so their
  statements would stay outside the transaction even with one shared key.
* A resumed session must have been seen within 3 minutes (internal/core/services/session.go:53); the
  comments and the Readme say 5.
* The comments promise a history window of max(joined_at, now - 1 minute) (internal/core/services/messages.go:21-22,
  internal/plugins/postgres/message.go:25-26); the query looks only at the minute (message.go:79-85).
* A close frame cancels the context of the connection (internal/app/server/handlers/ws.go:57-61) before
  `HandleDisconnect` runs, so its transaction does not begin and nobody is marked as left. When the connection
  breaks without one, `MarkLeft` runs, and the context is never cancelled: the heartbeat started at ws.go:90 goes
  on, and the leaver counts as online for as long as the process lives. So a last participant who has beaten just
  before leaving does not delete the conversation (`Journeys.LastLeaves`), and once the leaver's beats fall on whole
  seconds nobody's disconnect does (`Journeys.LeaverKeepsRoom`); but one who leaves before the first beat of the
  others deletes it under them (`Journeys.DeletedUnderOthers`). A failing presence lookup counts as an empty room
  (`Manager.ManagerService.HandleDisconnect`).
* After such a deletion nobody can connect while the others keep beating, because the conversation is
  created only when nobody is online: without faults connecting succeeds if and only if the conversation
  exists or nobody is online in it (`Manager.ManagerService.HandleConnect`; a life in which it happens:
  `Journeys.DeletedUnderOthers`).
* What protects undelivered messages from trimming is not the length of the stream: they are lost exactly
  when 1000 of them wait (`StageTheorems.PublicationLoses`).
* A session whose beats do not fall on whole seconds is offline just before each beat
  (`Manager.OnlineBetweenBeatsIff`).
* With overlapping handlers the history window can show a message and leave out a later one
  (`History.OverlapBreaksWindow`). In one process handlers of a stream overlap only if a room was emptied and
  entered again while a loop of its cancelled context was still reading or handling
  (`Workers.OverlapNeedsReentry`), and then they can (`Workers.ReentryOverlaps`).
* `Unregister` goes by sender id: a displaced connection that unregisters removes its replacement
  (`Hub.UnregisterSparesIff`). A connection stays registered exactly until the next call for its
  sender id, whoever makes it (`Hub.RegisteredIff`).
* An identity can be returned after it left (`Identity.LeftThenReturned`): exactly when it leaves between
  the moment `StartSession` chose it and its reply (`Identity.ReturnedAfterLeavingIff`).
* A session that was not left can be resumed for exactly one minute after its heartbeat stopped, less the
  delay between connect and heartbeat (`Session.ResumableIff`).

## Model

| member | source | states |
|---|---|---|
| PipelineTheorems.AtMostOnce | internal/plugins/redis/queue.go:66-96 | For any number of overlapping consumers and crashes, no stream entry reaches two handlers, gives two rows or two persisted acks. |
| PipelineTheorems.AckedOnlyAfterInsert | internal/app/worker/worker.go:65-77 | An acknowledged entry had its row inserted by its handler; the row is still there, with the handler's number, unless the conversation was deleted since. |
| PipelineTheorems.PersistedAckIsTrue | internal/core/services/messages.go:114-123 | A persisted ack goes to the sender of a message whose row was inserted, and carries its client id and the number of that row. |
| PipelineTheorems.NumbersPartitioned | internal/plugins/postgres/message.go:41-67 | Every number 1..last_seq of the present life has exactly one owner: a stored row, a draw about to be inserted, or a handler that ended without inserting; every gap is one failed save, and there is none under an effective transaction. |
| PipelineTheorems.RowsNumbered | migrations/0001_init_chat_schema.up.sql:41-50 | Rows carry numbers between 1 and last_seq, no two the same within a conversation. |
| PipelineTheorems.GapFree | internal/core/services/tx_manager.go:22-38 | With effective transactions every number from 1 to last_seq is on a committed row in every state. |
| PipelineTheorems.CommitAppends | internal/core/services/tx_manager.go:22-38 | With effective transactions a handler changes the tables only by a commit, which appends one row numbered last_seq + 1; a save that fails anywhere leaves them unchanged. |
| PipelineTheorems.NoStaleInsert | internal/plugins/postgres/message.go:39-68 | With autocommit an INSERT stores its row if and only if it is executed while the sender's participant row exists; then its number belongs to the present life and is free. |
| PipelineTheorems.CounterNeverReset | internal/plugins/postgres/conversation.go:65-84 | Within one life no interleaving resets a counter or moves it back. |
| PipelineTheorems.DeleteGoesThrough | internal/plugins/postgres/conversation.go:87-105 | No reachable state lets a message of another conversation block a deletion, and a deletion leaves no dangling sender. |
| PipelineTheorems.NumbersFollowStream | internal/plugins/redis/queue.go:66-96 | With one handler at a time per stream, whatever fails, rows of one life are numbered in stream order and their stamps never go back. |
| PipelineTheorems.ConnectionStream | internal/app/registry/registry.go:74-84 | A connection is never sent its own messages or a repetition; the socket is a prefix of what was accepted, at most 256 behind; with one handler at a time the numbers strictly ascend. |
| PipelineTheorems.ReachableIff | internal/app/server/ws/client.go:40-47 | A broadcasting handler can hand its frame to a connection of its conversation, other than the sender's and not served yet, if and only if fewer than 256 frames wait there. |
| PipelineTheorems.WritesHandOver | internal/app/server/ws/client.go:57-70 | In n turns writeLoop hands over exactly the next n accepted frames, or all there are. |
| PipelineTheorems.CrashLosesTransaction | internal/app/worker/worker.go:55-86 | A handler can die at any point of any run; its open transaction and lock go, and nothing else changes. |
| PipelineTheorems.CreationSteps | internal/plugins/postgres/conversation.go:50-85 | A conversation and its counter can be created whenever they are not there, also after a deletion; a connection opens in the conversation its participant id was given out for. |
| Provenance.LogIsPublished | internal/plugins/redis/queue.go:41-49 | After every run the log of a stream is exactly what the run published in its conversation, in that order: client id, sender, text and moment of each publication. |
| Provenance.RowIsPublished | internal/core/services/messages.go:50-125 | Every stored row carries the sender, the text and the conversation of one publication step, from which no other row comes. |
| Provenance.AckIsPublished | internal/core/services/messages.go:114-123 | Every persisted ack answers a publication of its receiver with its client id, and no two answer the same one. |
| Provenance.FrameIsPublished | internal/core/services/messages.go:105-113 | Every frame a connection accepts is somebody else's publication in the conversation its client's id was given out for, no two the same one; with one handler at a time they come in the order of publication. |
| Provenance.AcknowledgedIsConfirmed | internal/app/worker/worker.go:65-77 | Whenever an entry is acknowledged, whoever published it has been sent the persisted ack with its client id. |
| StageTheorems.ExactlyOneStage | internal/plugins/redis/queue.go:41-112 | Every published entry is in exactly one of: waiting, lost to trimming, delivered, acknowledged. |
| StageTheorems.StagesForward | internal/plugins/redis/queue.go:41-112 | Over every run stages only move forward, and the log of published entries only grows. |
| StageTheorems.DeletesOnlyAcknowledged | internal/app/worker/worker.go:74-82 | An entry that XDEL removes was acknowledged. |
| StageTheorems.LostBehindThousand | internal/plugins/redis/queue.go:42-48 | An undelivered entry is lost only to a publication that leaves at least 1000 entries, all newer. |
| StageTheorems.BacklogParts | internal/plugins/redis/queue.go:42-48 | The stream's length is waiting plus stuck pending plus acknowledged but undeleted entries. |
| StageTheorems.NothingLost | internal/plugins/redis/queue.go:42-48 | If fewer than 1000 entries wait to be delivered whenever something is published in the conversation, nothing published there is ever lost before delivery. |
| StageTheorems.PublicationLoses | internal/plugins/redis/queue.go:42-48 | The bound is exact in every reachable state: some admissible trimming by a publication loses an undelivered entry if and only if at least 1000 wait. |
| Streams.TrimmedIff | internal/plugins/redis/queue.go:42-48 | An XADD can take exactly the k oldest entries if and only if k is 0 or at least 1000 stay; below 1000 entries it takes none. |
| Handling.SaveMeaning | internal/plugins/postgres/message.go:32-69 | Every save, whatever its faults: it succeeds if and only if its INSERT stored the row and everything was answered, and the row has number last_seq + 1. With autocommit the tables keep what was executed, a number without its row included; with an effective transaction number and row or nothing, also when only the answer of the commit is lost. Each error names its cause. |
| Handling.SaveIsARun | internal/core/services/messages.go:96-104 | Every uninterrupted save, with its faults, is a run of the machine with the same tables and result. |
| Executions.HandleIsARun | internal/app/worker/worker.go:55-86 | So is every handler: tables and stream are those of a run, and it reports success exactly when that run comes to its XDEL. |
| Executions.LoopIsARun | internal/plugins/redis/queue.go:51-100 | So is the consumer loop over any number of turns, with any waiting in between and any faults. |
| Draining.ReadShrinks | internal/plugins/redis/queue.go:72-95 | Every read that is executed takes exactly one entry off the unread ones, whatever happens to its handler. |
| Draining.DrainAppends | internal/plugins/redis/queue.go:51-100 | Without faults, deletion and trimming the loop appends exactly the unread payloads in XADD order, numbered consecutively after last_seq, and leaves nothing unread and nothing new pending. |
| CalmLogs.CalmSince | internal/core/services/messages.go:81-125 | The pipeline refines an append-only log, whatever happened before: from any moment at which no handler of c runs and the senders of its unread entries exist, over every continuation without a fault, crash, deletion or loss for c in which only present senders publish, the rows of c, whenever no handler runs, are the old ones and exactly one for each entry delivered since, in stream order, numbered from the old last_seq; none of them is pending, and none is left in the stream if the XDELs went through. |
| CalmLogs.CalmLog | internal/core/services/messages.go:81-125 | The same from the empty system on: row k is the k-th entry published for every delivered entry, there is no other row, nothing is pending, and the stream holds exactly what is undelivered. |
| Progress.FuelBounds | internal/app/worker/worker.go:55-86 | Over every run from every reachable state without new connections and publications in c, however it is interleaved and whatever fails, the steps of c's handlers and deliveries that do anything number at most the fuel used up: unread entries times (9 + connections), plus the stations and connections before running handlers. |
| Progress.UsefulIff | internal/plugins/redis/queue.go:66-96 | With one handler at a time some faultless step of c does anything if and only if a handler of c runs or an entry of it is unread. |
| Progress.CalmRunsEnd | internal/plugins/redis/queue.go:66-96 | Every such calm run that can do no more for c has stored everything published and not lost, in XADD order, and left none of it in the stream. |
| Progress.CalmRunsFinish | internal/plugins/redis/queue.go:66-96 | And from every state of a calm run, handlers running or not, it can be finished so. |
| Workers.OverlapNeedsReentry | internal/plugins/redis/queue.go:66-99 | In every run of one process two handlers of one stream run together only if, earlier, somebody entered the empty room while a loop of one of its cancelled contexts was still reading or handling. |
| Workers.ReentryOverlaps | internal/app/registry/registry.go:36-41 | Whenever somebody does so while an old handler runs and an entry is unread, the new loop's first read makes two handlers run. |
| Workers.PatientIsSerial | internal/app/registry/registry.go:31-61 | If nobody re-enters a room so early, what the process does is a run of the machine with one handler at a time per stream. |
| Workers.CancelledTakesOne | internal/plugins/redis/queue.go:66-99 | After its cancellation a loop starts at most one more handler, and that only if its read was already under way. |
| Executions.PipelineDrains | internal/plugins/redis/queue.go:51-100 | After any history of faults: from every quiet reachable state whose unread senders still exist there is a continuation after which exactly the unread payloads have been appended. |
| Postgres.ServicesKeyIsNeverFound | internal/plugins/postgres/tx_executor.go:18-23 | GetExecutor never finds the transaction of package services; under its own key it would. |
| Postgres.MessageRepo.SaveWithSequence | internal/plugins/postgres/message.go:32-69 | On the tables of its executor it does what Handling.Save says, for every fate of its two statements. |
| Postgres.MessageRepo.GetVisibleMessages | internal/plugins/postgres/message.go:71-106 | Returns a row of the conversation if and only if created_at >= now - 60 s, ordered by number. |
| Postgres.ConversationRepo.CreateConversation | internal/plugins/postgres/conversation.go:50-85 | Each of the two rows is added exactly if its INSERT is executed and the row is not there; success if and only if everything needed was answered; an existing row or counter is never touched, whatever fails. |
| Postgres.ConversationRepo.DeleteConversation | internal/plugins/postgres/conversation.go:87-105 | Removes the conversation with all that cascades and nothing else, or nothing; the foreign key refuses it if and only if a message of another conversation was sent by one of its participants. |
| Postgres.ParticipantRepo.FindRecentParticipant | internal/plugins/postgres/participant.go:32-66 | A most recently seen unleft row of the user, none exactly if there is no unleft row. |
| Postgres.ParticipantRepo.CreateParticipant | internal/plugins/postgres/participant.go:68-91 | Adds exactly the given row, or fails and changes nothing; uniqueness and foreign key violations name their causes. |
| Postgres.ParticipantRepo.UpdatePresence | internal/plugins/postgres/participant.go:93-117 | Refreshes last_seen_at only, also of rows that have left. |
| Postgres.ParticipantRepo.MarkLeft | internal/plugins/postgres/participant.go:119-143 | An unleft row leaves if and only if no other row of the same user and conversation has left_at = now, and UniqueViolation is answered exactly then; an earlier leave of the user does not matter. |
| Services.RedisMessageQueue.PublishToStream | internal/plugins/redis/queue.go:41-49 | Appends one entry; of the oldest entries it takes away only as many as leave 1000; other streams are unchanged. |
| Services.RedisMessageQueue.CreateGroup | internal/plugins/redis/queue.go:57-62 | A new group reads from the first entry; a group that is there stays where it is. |
| Services.RedisMessageQueue.ReadGroup | internal/plugins/redis/queue.go:72-85 | The oldest entry the group has not passed, which becomes pending, answered or not; nothing happens exactly if the command is not executed, the group is missing or nothing is unread. |
| Services.RedisMessageQueue.AcknowledgeMessage | internal/plugins/redis/queue.go:102-104 | Moves the entry from the pending list to the acknowledged ones, if it was pending. |
| Services.RedisMessageQueue.DeleteMessage | internal/plugins/redis/queue.go:106-108 | Removes one delivered entry from the stream. |
| Services.MessageService.AcceptMessage | internal/core/services/messages.go:50-79 | The server_received ack goes to the sender alone and only after the publication; a lost XADD reply publishes without ack. |
| Services.MessageService.SaveAndBroadcast | internal/core/services/messages.go:83-125 | The tables become what a save makes of them. After success everybody else in the room gets conversation, sender, number and text of the row now stored, with the payload's time, the sender gets the persisted ack with that number, and nobody anything else; after failure nobody gets anything. |
| Services.MessageService.GetMessages | internal/core/services/messages.go:127-144 | The rows of the last 60 seconds, all of them in order, or an error and no rows; it changes nothing. |
| Services.ConversationWorker.ProcessMessage | internal/app/worker/worker.go:55-86 | Save, then acknowledge, then delete: tables, this stream and outcome are Handling.Handle's, clients hear of the message exactly if it was saved. |
| Services.ConversationWorker.Run | internal/app/worker/worker.go:46-53 | The loop over any turns is Handling.Loop on this conversation's stream and the tables, and every open client accepts exactly the frames of the saves in it, in order; without the group it never starts. |
| Client.RuntimeClient.Send | internal/app/server/ws/client.go:40-47 | Accepts the frame at the end of a queue of at most 256, one frame being written first when it is full, or fails only on a closing client; the socket stays a prefix of what was accepted. |
| Client.RuntimeClient.WriteLoop | internal/app/server/ws/client.go:57-70 | Writes exactly the first k waiting frames: k is the number of turns, for a closing client of the turns before the first that stops, or all there are. |
| Registry.Registry.Register | internal/app/registry/registry.go:31-44 | The three maps become Hub.Register of them; rooms, workers and labels stay consistent. |
| Registry.Registry.Unregister | internal/app/registry/registry.go:46-61 | The same for Hub.Unregister, by sender id. |
| Registry.Registry.SendAck | internal/app/registry/registry.go:63-72 | The registered client of that sender gets the ack, nobody else anything; a closing client gets it exactly if its select sends and there is room. |
| Registry.Registry.Broadcast | internal/app/registry/registry.go:74-84 | Every open client of the room except the sender gets the message exactly once, a closing one exactly if its select sends and there is room, nobody else anything. |
| Hub.RoomsAlwaysOk | internal/app/registry/registry.go:31-61 | After any calls no room is empty, exactly the rooms have workers, and a context is uncancelled exactly while it is its room's worker. |
| Hub.ContextsConserved | internal/app/registry/registry.go:36-60 | Contexts made = contexts cancelled + rooms; each is cancelled at most once; no room has two uncancelled ones. |
| Hub.RegisterUnionIff | internal/app/registry/registry.go:42-43 | Register keeps clients the disjoint union of the rooms if and only if the sender is not in another room. |
| Hub.UnregisterUnionIff | internal/app/registry/registry.go:51-52 | The same guard is exact for Unregister. |
| Hub.UnionAlwaysOk | internal/app/registry/registry.go:31-61 | If a sender id always names the same conversation, clients always is that union. |
| Hub.UnregisterSparesIff | internal/app/registry/registry.go:46-52 | Unregister for a connection takes out nobody else, from index and room, if and only if the sender id still stands for that connection there. |
| Hub.RegisteredIff | internal/app/registry/registry.go:31-61 | Over every sequence of calls a connection stays registered, and in its room, if and only if no later Register or Unregister of its sender id (there) was made, whosever it was. |
| Presence.ExactIff | internal/plugins/redis/presence.go:33-72 | For all histories with a monotone clock the answer is exactly the senders whose last beat since the last clear is within the window, if and only if twice the ttl is at least 30 s; 45 s is enough. |
| Presence.HalfUpdateIff | internal/plugins/redis/presence.go:42-53 | When ZADD succeeds and EXPIRE does not, all later answers stay exact if and only if the key does not expire while the beat is fresh. |
| Lingering.UnprunedIff | internal/plugins/redis/presence.go:67-71 | When the ignored pruning fails, the answer contains everybody online and is exact if and only if every stale beat was followed by a newer beat of its sender, a clear, an executed pruning at which it was stale, or a silence of twice the ttl. |
| Presence.SinceLastPruningIff | internal/plugins/redis/presence.go:67-71 | With no call since the last executed pruning: exact if and only if the key has expired or nobody then online has become stale. |
| PresenceStore.RedisPresenceStore.UpdateOnlineStatus | internal/plugins/redis/presence.go:33-54 | Records a beat from the moment ZADD is executed; later answers can be wrong only from the moment the key expires under a fresh beat until that beat is stale, and not at all if an update refreshes the key before. |
| PresenceStore.RedisPresenceStore.GetOnlineParticipants | internal/plugins/redis/presence.go:57-72 | Exactly who has beaten within the window; pruning changes no later answer. When the pruning is not executed, exact if and only if no stale beat lingers by the calls so far (Lingering.UnprunedIff). |
| PresenceStore.RedisPresenceStore.ClearConversation | internal/plugins/redis/presence.go:75-78 | Forgets all beats of one conversation. |
| History.WindowIsMinute | internal/plugins/postgres/message.go:79-85 | The window holds exactly the conversation's rows with created_at >= now - 60 s. |
| History.SuffixIff | internal/plugins/postgres/message.go:79-85 | The window is a suffix of the log at every moment if and only if stamps follow numbers. |
| History.WindowIsSuffix | internal/plugins/postgres/message.go:79-85 | With one handler at a time per stream every reachable state shows a suffix of the log, whenever it is read. |
| History.WindowIsGapFree | internal/plugins/postgres/message.go:79-85 | With effective transactions as well, the rows shown are consecutive and end with last_seq. |
| History.OverlapBreaksWindow | internal/plugins/postgres/message.go:54-63 | A reachable state with overlapping handlers whose window shows a row and leaves out a later one. |
| Session.SessionService.StartSession | internal/core/services/session.go:41-92 | Looking only at a most recent unleft row amounts to: reuse if and only if not forced, the lookup works and some unleft row of the user was seen within 3 minutes; the result is an unleft row of this user and conversation. For every fault it says whether the call succeeds and whether the new row is stored. |
| Session.SessionService.StopSession | internal/core/services/session.go:94-103 | Succeeds if and only if the row could leave and nothing failed; the row has left if and only if the statement was executed and, with an effective transaction, answered and committed; nothing else changes. |
| Session.SessionService.SessionSync | internal/core/services/session.go:105-118 | The same for last_seen_at of an existing row. |
| Session.ResumableIff | internal/core/services/session.go:53 | For a user's only unleft row: every heartbeat, whatever its start, stop and tick phase, leaves it resumable if and only if absence plus the delay between connect and heartbeat is at most a minute. |
| Journeys.ReturnInTime | internal/app/server/handlers/ws.go:64-97 | Connect, heartbeat without failing syncs, no leave, then StartSession within a minute less the delay: never a new identity, and the same one if the user has no other. |
| Journeys.ReturnTooLate | internal/core/services/session.go:53-82 | For every absence over a minute there is such a life, without any fault, after which a new identity is minted although the old one never left. |
| Identity.IdentitySafe | internal/core/services/session.go:41-118 | Over every run, with or without effective transactions, a returned identity is not nil and belongs to the caller's user and conversation, its row agrees, and it was chosen before it left. |
| Identity.OwnersForever | internal/plugins/postgres/participant.go:74-90 | The owner of an identity and the moment it left never change. |
| Identity.RejoinKeepsIdentity | internal/core/services/session.go:50-64 | For three minutes after a session was seen, whatever else happens short of leaving or deletion, a working lookup reuses: that identity, if the user has no other. |
| Identity.OtherwiseMints | internal/core/services/session.go:66-82 | With no unleft row seen in the last three minutes the lookup leads to a new identity. |
| Identity.SilenceMints | internal/core/services/session.go:53-82 | After more than three minutes in which no row of the user was seen, a call mints. |
| Identity.StartIsARun | internal/core/services/session.go:49-85 | StartSession is a run of these steps for every fault: same tables, and a reply exactly when it succeeds. |
| Identity.RejoinWithinMinute | internal/core/services/manager.go:143-151 | In all interleavings: within a minute after a session whose last sync was at most 120 s before broke off, a working lookup reuses. |
| Identity.ReturnedAfterLeavingIff | internal/core/services/session.go:49-85 | A returned identity had left by its reply if and only if a MarkLeft of its unleft row was executed between its choice and the reply; none was before the choice. |
| Identity.LeftThenReturned | internal/core/services/session.go:51-61 | A run from the empty system in which that happens, with and without effective transactions. |
| Manager.ManagerService.HandleHeartbeat | internal/core/services/manager.go:119-155 | For every pattern of faults: what is heard is the last tick whose ZADD was executed, last_seen_at the last sync that had its effect, and nothing else changes. If no sync fails that is at most 120 s before the end plus any delay before the start, if no beat fails at most 30 s. |
| Manager.LastBeatIff | internal/core/services/manager.go:136-142 | Beat k of m, at start + 30 s * k, is the last heard if and only if its ZADD was executed and none of the later ones was. |
| Manager.LastSyncIff | internal/core/services/manager.go:143-151 | The same of syncs every 120 s and their transactions. |
| Manager.OnlineBetweenBeatsIff | internal/core/services/manager.go:127-142 | From its first beat on, a session whose beats all go through counts as online at every moment if and only if its heartbeat started on a whole second. |
| Manager.ManagerService.EnsureConversation | internal/core/services/manager.go:82-98 | The conversation and its counter are created, as far as their statements are executed, if and only if the lookup answers that nobody is online or fails; success is exact for every fault. |
| Manager.ManagerService.HandleConnect | internal/core/services/manager.go:60-117 | For every fault the tables and the outcome are those of EnsureConversation, StartSession and SessionSync one after the other. Without faults it succeeds if and only if the conversation exists or nobody is online in it. Success means an unleft row of this user in an existing conversation, seen just now, new exactly by StartSession's rule; others' rows, messages and counters in use stay. |
| Manager.ManagerService.HandleDisconnect | internal/core/services/manager.go:157-188 | Succeeds if and only if the row could leave and the stop met no fault. Then the conversation and its beats go, each if its command is executed, if and only if the lookup answers nobody or fails; a pruned lookup answers nobody if and only if nobody, the leaver included, has a beat within the window. A failed stop ends the call; the row may have left all the same, as-run whenever the statement was executed. |
| Journeys.LastLeaves | internal/app/server/handlers/ws.go:64-97 | A life in which the only participant leaves without any fault and the conversation stays. |
| Journeys.LeavesTwice | internal/plugins/postgres/participant.go:119-143 | A life in which a user leaves, returns with a new identity and leaves again later: both disconnects succeed. |
| Journeys.LeaverKeepsRoom | internal/app/server/handlers/ws.go:87-90 | While a leaver's heartbeat goes on without failing, on whole seconds, no disconnect with a working lookup deletes the conversation. |
| Journeys.DeletedUnderOthers | internal/core/services/manager.go:82-98 | A life in which a conversation is deleted under a connected user, and the beats that go on then keep everybody else out. |

## Left out

- HTTP routes, the WebSocket upgrade and read loop, middleware, tokens, OTP, users, configuration, logging and tracing: plumbing around the model; `DeleteUser` and the cascade from users to participants are part of it.
- Close racing with Send: the client is modelled up to the cancellation of its context; nothing is claimed about sends on a closed channel.
- JSON: payloads are modelled decoded, so a payload that does not parse, or an entry without a `data` field, is not modelled; such an entry would stay pending.
- UUIDs: freshness of `uuid.New` and canonical text forms (RFC 9562, section 4) are assumed, so equal ids have equal Redis keys; the empty sender or conversation id of the heartbeat and disconnect parameters is not modelled.
- Clocks: one monotone millisecond clock serves the application, Redis and Postgres; tickers are exact.
- BIGINT overflow of last_seq is not modelled.
- ZRANGE order is not modelled; answers are sets.
- Machine.DoSendTo: a broadcast may reach any connection of the conversation that is open at that moment, an over-approximation of room membership; the classes of Registry model it exactly.
- Executor and the classes of Services, Session and Manager: their methods run one after the other; interleaving of statements is modelled in Machine and Identity.
- Identity.DoLeave, Identity.DoSync: a transaction of one statement is one step, at the moment of its commit.
- Workers.Next: one process; with several, handlers of one stream overlap freely. Handlers of a cancelled context may still take every step, although most of their commands would fail.
- Manager.ManagerService.HandleHeartbeat: the moment at which the heartbeat stops is a parameter; with a close frame it is the cancellation of the context, without one it never comes while the process lives.
- Draining.DrainAppends: stated without faults, deletion and trimming; with faults entries stay pending for ever, because pending entries are never read again.
- Executions.LoopIsARun: row ids are the machine's job numbers; the loop itself takes any fresh ids.
- GetConversationByID is modelled as part of CreateConversation only.
- Lingering.UnprunedIff: stated for updates of which both commands are executed, with one ttl.
- PresenceStore.RedisPresenceStore.UpdateOnlineStatus: the two commands of one update are executed at the same moment; what a gap between them can lose is Presence.HalfUpdateIff.
