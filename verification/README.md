# Radio PX: a verified model of the push-to-talk relay

Radio PX lets people in the same channel talk one at a time, hears recent audio again after a
reconnection, and finds channels nearby. This Dafny project models the parts of it in which several
goroutines, transactions or interruptions meet, and proves what they promise together.

- **The relay** (`Relay*.dfy`). Every connection runs its own read loop: it takes the room's speaker
  lock, numbers and stores a chunk, and hands it to one dispatcher that fans it out to bounded send
  channels. The model is a step relation in which each mutex-protected section and each channel
  operation is one step, and the theorems hold of every execution: one speaker at a time and numbers
  in order at every listener, with the exact condition for both; who holds a room, who is in it and
  what each connection was sent, read off the steps so far; replay windows that are determined by the
  log of their room, and no gap between a replay and the live feed; what a disconnect frees, exactly;
  the room index sound; and nobody stuck. `RelayScenarios` holds executions from the start that reach
  what the theorems exclude, and one in which a member is replayed what it asks for.
- **Its components in place** (`Voice`, `VoiceService`, `AudioBuffer`, `AudioBufferService`, `Hub`,
  `HubService`, `Client`). Each object that the program updates in place is a class; its methods are
  proved equal to functions on values, and the theorems are about runs of those functions. A ghost
  history in each class ties its fields to the run so far.
- **The rate limiter** (`RateLimiter`): refinement of a specification that never forgets an
  admission, and the sliding-window bound.
- **Channel membership** (`Membership`, `MembershipRows`, `JoinTransactions`, `JoinInvariant`,
  `JoinSafety`, `JoinTables`, `JoinDeadlocks`, `ChannelRepository`, `MemoryStore`, `Stores`,
  `ChannelService`): joins, creations, removals and deletions as interleaved statements of
  PostgreSQL, with row locks, foreign keys and cascades, the tables that their answers imply, and
  exactly when they deadlock; the two stores against one specification; and the nearest channels.
- **The playback queue** of the app (`AudioQueue`): conservation and order under the byte cap.
- **The migration runner** (`Migrations`): safety under interruption at any call of the database.

`dafny verify dfyconfig.toml` checks the whole project.

## Reading the model

Clocks are non-decreasing: Go's `time.Now` carries a monotonic reading. User ids are non-empty; the
handshake replaces an empty one (backend/internal/voice/handler.go:43-46). Identifiers drawn from
clocks or random sources, the distance between two positions, the effect of a migration's SQL and
the faults of a database are parameters about which nothing is assumed.

Facts of the code that shape the statements:

- The overflow branch (backend/pkg/websocket/hub.go:70-73) closes a send channel but leaves its owner
  registered. The agreement of the two room indexes is therefore stated for runs without overflow,
  their one-way inclusion for all runs, and `RelaySafety.OverflowExactly` and
  `RelaySafety.DoomedUnregisterPanics` state where an overflow leads.
- One user's connections share one lock (backend/internal/voice/service.go:46). Mutual exclusion and
  order need one connection per user, and hold exactly then (`RelayExclusion.MutualExclusionExactly`,
  `RelayExclusion.OrderExactly`).
- The lock can be taken in a room that was never joined, and leaving a room keeps it
  (backend/pkg/websocket/client.go:170-194). `RelayRelease.DisconnectFrees` is about connections that
  avoid both; `RelayRelease.ReleaseExactly` and `RelayRelease.LeakIsForever` say what happens
  otherwise.
- The comment on the store promises that concurrent joins cannot oversubscribe a channel. That is so
  for every limit of at least one; a creator is let in whatever the limit
  (`JoinSafety.LimitIsKeptExactly`). The service always asks for ten.
- PostgreSQL refuses a member or a creator who is not in the users table
  (backend/internal/db/migrations/001_initial.sql:33); the memory store knows no users. An access
  token outlives its account, so such calls happen. The two stores answer alike exactly for users who
  exist (`Stores.AgreeExactly`).
- Deleting a user reaches every channel the user created, to set created_by to NULL
  (backend/internal/db/migrations/002_align_models.sql:20), and waits for joins that have locked such
  a channel; a join waits for the deletion of its user. So calls can wait for each other in a circle,
  and PostgreSQL has to cut one off (`JoinDeadlocks.DeadlockExactly`).
- The cap of the playback queue also drops end-of-segment sentinels, which carry no bytes
  (frontend/lib/features/voice/services/audio_queue.dart:44-50).
- The replay terminator is sent with non-blocking sends like the messages, so a full channel can
  leave a replayed segment without one (backend/pkg/websocket/client.go:308-310).

## Model

| member | source | states |
|---|---|---|
| RelayOrder.MutualExclusion | backend/pkg/websocket/client.go:187-226 | In every reachable state of every interleaving in which no user has two connections, at most one connection per room is between an accepted StartTransmission and the end of its BroadcastToRoom, and its user is the recorded speaker |
| RelayOrder.LockAlwaysHeld | backend/internal/voice/service.go:34-78 | A connection that is transmitting push-to-talk always holds the lock, although the lock, the numbering and the broadcast are separate steps |
| RelayOrder.OrderAtEveryListener | backend/pkg/websocket/client.go:196-226 | Over the whole run the numbered packets of a room enter the broadcast channel, and then each send channel, with strictly increasing numbers, although numbering and enqueueing are separate unlocked steps |
| RelayOrder.AlwaysInOrder | backend/pkg/websocket/hub.go:61-75 | The invariant behind it: the broadcast channel is the tail of everything enqueued, and every listener has received only what was dispatched, in number order |
| RelayFacts.HoldsExactly | backend/pkg/websocket/client.go:187-194 | In every reachable state of every interleaving a user holds a room if and only if a push-to-talk packet of one of the user's connections was accepted there, when the user could transmit, and since then none of them has sent a packet that is not push-to-talk there or visited the room in releaseVoice |
| RelaySpeech.RefusedExactly | backend/pkg/websocket/client.go:187-191 | A push-to-talk packet changes nothing at all if and only if its user cannot transmit in the room; otherwise its user holds the room afterwards |
| RelaySpeech.SaidIsEnqueued | backend/pkg/websocket/client.go:187-226 | Nothing accepted is lost, doubled, altered or overtaken: at every moment the packets that a connection was accepted with are, in order and each once, those it has put into the broadcast channel and the one it has in hand |
| RelaySpeech.AlwaysSigned | backend/pkg/websocket/client.go:196-226 | Every packet that is broadcast carries the user of its sender; a numbered one is a chunk that was stored, with its number and time, and any other has neither |
| RelaySends.TakenInOrder | backend/pkg/websocket/hub.go:61-62 | The dispatcher takes the packets in the order in which they entered the broadcast channel, each once |
| RelaySends.FanOutExactly | backend/pkg/websocket/hub.go:61-76 | From the beginning of a fan-out to its end, whatever else happens meanwhile, a connection's live packets grow by the packet if and only if it was in the room when the fan-out began, is not the sender and had space when its turn came |
| RelaySends.HeardOnlyInFanOut | backend/pkg/websocket/hub.go:68-69 | A connection's live packets grow in no other step than a delivery of a fan-out to it |
| RelaySends.WrittenIsBeginning | backend/pkg/websocket/client.go:123-149 | In every reachable state a send channel holds the end of everything put into it, so what has been written to the socket is the rest, its beginning |
| RelaySends.WritesOldest | backend/pkg/websocket/client.go:125 | What was written grows only at its end, by the oldest packet not yet written when the write pump finds one, and by nothing in any other step |
| RelaySends.WrittenInOrder | backend/pkg/websocket/client.go:123-149 | So the numbers of every room are strictly increasing on the socket too, if no user has two connections |
| RelayExclusion.MutualExclusionExactly | backend/internal/voice/service.go:46-53 | From any state with every connection in its read loop: no continuation by these connections has two transmitters in one room if and only if no user has two of them |
| RelayExclusion.OrderExactly | backend/pkg/websocket/client.go:198-226 | From any such state with everything in order so far and space for two packets: the numbers of every room enter the broadcast channel in order in every continuation if and only if no user has two connections |
| RelayExclusion.TwoConnectionsBreakOrder | backend/internal/voice/service.go:46-53 | From any state in which two connections of one user are reading and the room is free for them, a continuation at any instant broadcasts their numbers out of order |
| RelayScenarios.OrderBreaks | backend/internal/voice/handler.go:53-58 | The program reaches such a state: an execution from the start after which neither mutual exclusion nor order is guaranteed |
| RelayReplay.NoGap | backend/pkg/websocket/client.go:267-297 | In every interleaving: if the listener is in the room at its snapshot and stays, and no send to it meets a full channel, every chunk of others above since_sequence that had not been evicted at the snapshot is at every later point in its send channel or still on its way there |
| RelayReplay.NothingMissed | backend/pkg/websocket/client.go:196-226 | When nothing is on its way any more, every such chunk has been put into its send channel, by the replay or by the live feed |
| RelayReplay.ReplayProgress | backend/pkg/websocket/client.go:279-297 | While a replay runs, whatever the other goroutines do, the listener has been sent exactly the part of its snapshot that is no longer pending, in order |
| RelayReplay.ReplayExact | backend/pkg/websocket/client.go:279-311 | When it ends, the listener has been sent the whole snapshot and one terminator; if a send met a full or closed channel, a prefix of the snapshot and no terminator |
| RelayReplay.AlwaysStoredAsRelayed | backend/pkg/websocket/client.go:200-220 | What is stored for replay and what is relayed live carry the same room, user, audio, number and time |
| RelayReplay.ReplayBeginsExactly | backend/pkg/websocket/client.go:279-301 | The snapshot leads to a replay if and only if it is not empty; an empty one ends the request without even the terminator |
| RelayRequests.GrantedExactly | backend/pkg/websocket/client.go:272-277 | A request is granted if and only if client.rooms has the room at that moment; a request that is not granted changes nothing |
| RelayRequests.ReplayedWasRequested | backend/pkg/websocket/client.go:267-297 | Every message that a connection was ever sent by a replay was numbered in its room, and the connection had asked, while client.rooms had that room, for messages above a smaller number |
| RelayRequests.WindowsAlwaysNumbered | backend/internal/voice/buffer_service.go:28-51 | In every reachable state a window holds only messages that were numbered in its own room |
| RelayScenarios.MemberIsReplayed | backend/pkg/websocket/client.go:267-311 | The program reaches the granted case: an execution from the start in which a member asks for a replay and receives the chunk, as it was said, and then the terminator |
| RelayBuffers.BufferIsRun | backend/internal/voice/buffer_service.go:28-51 | In every reachable state of the relay the window of a room is the outcome of that room's own additions and sweeps, so what is proved of runs of one buffer holds of the relay |
| RelayBuffers.WindowOfRelay | backend/internal/voice/buffer_service.go:144-185 | In every reachable state with a non-decreasing clock the window of a room is the longest suffix that fitted of everything numbered in the room, consecutive and ending at the counter |
| RelayBuffers.RetentionInRelay | backend/internal/voice/buffer_service.go:187-211 | If the sweeps reach a room at least every CleanupInterval, then in every reachable state, also while the room is idle, no chunk in its window is as old as MaxDuration + CleanupInterval |
| RelayBuffers.SnapshotExactly | backend/pkg/websocket/client.go:279-280 | A replay snapshot is everything ever numbered in its room above since_sequence, in order, if and only if nothing above it has been evicted |
| RelayBuffers.NoGapWithinWindow | backend/pkg/websocket/client.go:196-226 | A listener that asks from at least the oldest retained number minus one, stays in the room and meets no full channel gets every chunk that others have numbered or will number above since_sequence, by replay or live |
| RelaySafety.AlwaysSound | backend/pkg/websocket/hub.go:35-118 | The invariant of the hub in every reachable state, with and without overflow |
| RelaySafety.IndexAlwaysIncluded | backend/pkg/websocket/hub.go:44-57 | In every reachable state, also after overflows, a room lists only connections whose own list names it, so unregistering a registered connection takes it out of every room |
| RelaySafety.OrderlyWithoutOverflow | backend/pkg/websocket/hub.go:61-76 | Without an overflow both indexes agree for every registered connection, no stored room is empty, and no goroutine ever closes a channel twice or sends on a closed one |
| RelaySafety.OverflowExactly | backend/pkg/websocket/hub.go:70-73 | In every reachable state some delivery has met a full channel if and only if some connection is registered with a closed channel |
| RelaySafety.OverflowIsForever | backend/pkg/websocket/hub.go:44-57 | Nothing that happens later repairs that: the connection stays registered with a closed channel |
| RelaySafety.DoomedUnregisterPanics | backend/pkg/websocket/hub.go:46-48 | So processing its unregistration closes the channel a second time and panics |
| RelayScenarios.SlowListenerEndsTheProgram | backend/pkg/websocket/hub.go:61-76 | One listener that never drains ends the program: an execution from the start fills its channel, overflows it and panics when it disconnects |
| RelayFacts.MembersExactly | backend/pkg/websocket/hub.go:94-118 | In every reachable state a connection is in a room if and only if it has entered it, and has since neither left it nor been unregistered nor met a packet of that room with a full channel |
| RelayFacts.ListExactly | backend/pkg/websocket/hub.go:102-116 | client.rooms names exactly the rooms that were entered and not left since |
| RelayFacts.RegisteredExactly | backend/pkg/websocket/hub.go:38-59 | A connection is registered exactly from the hub's registration to its unregistration |
| RelayFacts.ClosedExactly | backend/pkg/websocket/hub.go:48-71 | A send channel is closed if and only if its owner has been unregistered or it has overflowed |
| RelayProgress.PanicsExactly | backend/pkg/websocket/hub.go:48-71 | A step panics if and only if the hub sends to a closed channel or closes it again, and no step is taken after that |
| RelayProgress.ChannelsBounded | backend/pkg/websocket/client.go:74 | No send channel and no broadcast channel ever holds more than 256 packets |
| RelayProgress.ComesFromHandshake | backend/internal/voice/handler.go:35-55 | Every connection comes from a handshake that named a room, bears the user named there or "anonymous", and first enters that room |
| RelayProgress.ReadsAfterJoining | backend/internal/voice/handler.go:54-58 | No connection reads a message before it has entered the room of its handshake |
| RelayProgress.NobodyIsStuck | backend/pkg/websocket/hub.go:35-92 | Unless the program has panicked, a connection in service can go on by itself if and only if it is not waiting for the dispatcher, and then the dispatcher can go on by itself: the channels and the mutex never deadlock |
| RelayProgress.WaitingEnds | backend/pkg/websocket/hub.go:35-92 | From every state with sound indexes the dispatcher, by its own steps alone, reaches a state in which a given connection need not wait, or panics |
| RelayProgress.WritesEverything | backend/pkg/websocket/client.go:123-149 | From any state the write pump, by its own steps alone, reaches a state in which everything ever put into the send channel has been written |
| RelayProgress.SweepsForget | backend/internal/voice/buffer_service.go:187-211 | A window that holds anything can be swept at any time, which leaves nothing in it that is as old as MaxDuration |
| RelayRelease.LocksAlwaysHaveHolders | backend/pkg/websocket/client.go:83-88 | If connections speak only in rooms they are in and do not leave a room while speaking in it, every busy room has a connection that has it listed and has yet to release it |
| RelayRelease.SpokenRoomsAreListed | backend/pkg/websocket/client.go:187-194 | Then every room whose speaker is a connected user lies in that connection's client.rooms |
| RelayRelease.DisconnectFrees | backend/pkg/websocket/client.go:245-262 | Then a user whose connections have all run their exit actions holds no room, and a Start by anybody succeeds in any room that no other connected user has taken |
| RelayRelease.ReleaseExactly | backend/pkg/websocket/client.go:245-262 | Without that discipline, exactly and in every interleaving with other users, however many connections those have: after the exit actions the user holds a room if and only if it held it when they began and the room was not in client.rooms |
| RelayRelease.LeakIsForever | backend/internal/voice/service.go:46-49 | A lock left behind stays: until a connection of that user speaks or stops in the room, the room is busy and turns every other user away |
| RelayProgress.ReleasesEveryRoom | backend/pkg/websocket/client.go:83-88 | A connection that is handed to the hub's unregistration has read client.rooms and then visited every one of those rooms in releaseVoice |
| RelayScenarios.LockLeaks | backend/pkg/websocket/client.go:187-194 | The program reaches that: an execution after which a user has run all exit actions and still holds a room it spoke in and never joined |
| Hub.JoinKeepsIndexes | backend/pkg/websocket/hub.go:94-104 | Joining puts exactly this connection into exactly this room and keeps the indexes |
| Hub.LeaveKeepsIndexes | backend/pkg/websocket/hub.go:106-118 | Leaving takes exactly this connection out of exactly this room and keeps the indexes |
| Hub.UnregisterLeavesEveryRoom | backend/pkg/websocket/hub.go:44-57 | Walking client.rooms removes the connection from every room, because rooms list only connections that name them |
| Hub.DeliverKeepsIndexes | backend/pkg/websocket/hub.go:68-74 | A delivery keeps the inclusion of the indexes; it keeps their agreement for the receiver if and only if the channel is not full |
| Hub.FanOutOneMore | backend/pkg/websocket/hub.go:64-74 | The fan-out to one more member, starting from the fan-out to the others |
| Hub.FanOutInAnyOrder | backend/pkg/websocket/hub.go:64-74 | Whatever order the map iteration takes, the fan-out has one outcome: members with space received the packet, the others are closed and out of the room |
| HubService.Hub.HandleUnregister | backend/pkg/websocket/hub.go:44-58 | The loop over client.rooms leaves the specified state, and panics exactly when the channel was already closed |
| HubService.Hub.HandleBroadcast | backend/pkg/websocket/hub.go:61-76 | The loop with deletion during iteration is the fan-out to all members but the sender; it panics exactly when one of those has a closed channel |
| HubService.Hub.JoinRoom | backend/pkg/websocket/hub.go:94-104 | Creates the room if needed and updates both indexes as specified |
| HubService.Hub.LeaveRoom | backend/pkg/websocket/hub.go:106-118 | Updates both indexes as specified and drops an empty room |
| HubService.Hub.SafeSend | backend/pkg/websocket/client.go:315-327 | Reports success exactly when the channel was open and had space; otherwise changes nothing |
| Client.Client.HandleAudio | backend/pkg/websocket/client.go:187-226 | Relayed if and only if the packet is not push-to-talk or the user can transmit; afterwards a push-to-talk sender holds the room and any other sender does not; a decodable push-to-talk chunk is added to the buffer under the next number and relayed with it; a rejected one changes nothing, and otherwise the lock table changes as one Start or Stop does |
| Client.Client.SendReplay | backend/pkg/websocket/client.go:267-311 | Outside the room or with nothing to replay, sends nothing; otherwise sends the unplayed messages above since and one terminator, cut off where the send channel is full |
| Client.Client.ReleaseVoice | backend/pkg/websocket/client.go:245-262 | Afterwards the user holds exactly those of its rooms that are not in client.rooms, and no other user lost a room |
| AudioBuffer.HistoryIndependence | backend/internal/voice/buffer_service.go:28-51 | After any run of additions, sweeps and markings with a non-decreasing clock, the incrementally evicted window is the longest suffix of the full log that is young enough and fits the size limit (or is a single message) at the last eviction, and the counter is the length of the log |
| AudioBuffer.RetainedIsLongestFit | backend/internal/voice/buffer_service.go:144-185 | That specification is what it says: a suffix, it fits, and no longer suffix fits |
| AudioBuffer.RetainedIncrementally | backend/internal/voice/buffer_service.go:144-185 | Evicting early loses nothing that a later eviction from scratch would have kept |
| AudioBuffer.CleanIsRetained | backend/internal/voice/buffer_service.go:144-185 | The age filter followed by the size loop is the longest suffix satisfying both limits |
| AudioBuffer.LogNumberedInOrder | backend/internal/voice/buffer_service.go:32-44 | The log is in timestamp order and is numbered 1, 2, 3, ... |
| AudioBuffer.Contiguity | backend/internal/voice/buffer_service.go:28-51 | Retained numbers are consecutive and end at the counter |
| AudioBuffer.ReplayOfSuffix | backend/internal/voice/buffer_service.go:53-67 | A contiguous unmarked window yields exactly the log above since |
| AudioBuffer.ReplayMissesEvicted | backend/internal/voice/buffer_service.go:53-67 | A request that reaches back before the window misses an evicted message |
| AudioBuffer.ReplaySkipsMarked | backend/internal/voice/buffer_service.go:61 | A marked message above since is missing from the replay |
| AudioBuffer.ExactReplay | backend/internal/voice/buffer_service.go:53-67 | After any run, a request yields exactly every message ever added above since, in order, if and only if nothing above since was evicted and nothing retained above since is marked |
| AudioBuffer.TimedRetention | backend/internal/voice/buffer_service.go:187-211 | If the sweep reaches the room at least every CleanupInterval, no retained message is ever as old as MaxDuration + CleanupInterval, also in a room that has gone idle |
| AudioBufferService.AudioBufferService.constructor | backend/internal/voice/buffer_service.go:16-26 | Starts with no rooms; a missing configuration is the default one |
| AudioBufferService.AudioBufferService.AddMessage | backend/internal/voice/buffer_service.go:28-51 | Numbers the chunk with the next number of its room, extends the history of that room only, and leaves the window that the whole history determines |
| AudioBufferService.AudioBufferService.CleanupOldMessages | backend/internal/voice/buffer_service.go:144-166 | The two passes in place compute the specified eviction of this room and touch no other |
| AudioBufferService.AudioBufferService.CleanupBySize | backend/internal/voice/buffer_service.go:168-185 | The shrinking loop with its running total is the specified size trim |
| AudioBufferService.AudioBufferService.TotalSize | backend/internal/voice/buffer_service.go:158-161 | The summing loop yields the total number of audio bytes |
| AudioBufferService.AudioBufferService.GetMessages | backend/internal/voice/buffer_service.go:53-67 | Yields the retained messages above since that nobody marked, in order |
| AudioBufferService.AudioBufferService.MarkAsReplayed | backend/internal/voice/buffer_service.go:85-100 | Marks exactly the retained messages with these identifiers |
| AudioBufferService.AudioBufferService.SweepRoom | backend/internal/voice/buffer_service.go:191-193 | One round of the sweep: one more eviction in this room's history |
| AudioBufferService.AudioBufferService.CleanupAllChannels | backend/internal/voice/buffer_service.go:187-194 | Every room's history grows by one sweep whose time lies within the call |
| AudioBufferService.AudioBufferService.ClearChannel | backend/internal/voice/buffer_service.go:196-202 | Forgets the room, including its numbering |
| Voice.RunConsistent | backend/internal/voice/service.go:34-78 | In every run by identified users a room has a speaker exactly while it is transmitting |
| Voice.KeptUntilReleased | backend/internal/voice/service.go:34-78 | An accepted Start keeps the room until a successful Stop by the same user or a cleanup after the timeout |
| Voice.HandOver | backend/internal/voice/service.go:34-149 | Between accepted Starts of two different users in one room there is a successful Stop by the first, or a cleanup that finds the room idle for longer than its timeout, more than that after the first Start |
| Voice.ForgettingIsInvisible | backend/internal/voice/service.go:80-117 | Removing idle entries changes no later answer of any operation and no query, for ever; only a Stop in a forgotten room fails with another error |
| Voice.CleanupInvisibleExactly | backend/internal/voice/service.go:138-149 | A cleanup can be told apart if and only if some held room has been silent longer than the timeout |
| Voice.ReleaseAllEffect | backend/pkg/websocket/client.go:257-261 | A Stop in each listed room frees just those of the user's rooms and nobody else's |
| Voice.ReleaseFreesExactly | backend/pkg/websocket/client.go:245-262 | The exit actions leave the user without a room if and only if every room the user holds is listed |
| VoiceService.VoiceService.StartTransmission | backend/internal/voice/service.go:34-57 | The in-place update is the specified one, at a time the clock has reached |
| VoiceService.VoiceService.StopTransmission | backend/internal/voice/service.go:59-78 | The in-place update is the specified one |
| VoiceService.VoiceService.CleanupInactiveChannels | backend/internal/voice/service.go:138-149 | The loop with deletion during iteration removes exactly the stale entries |
| RateLimiter.AllowIsSpec | backend/internal/middleware/ratelimit.go:25-47 | After any run with a non-decreasing clock, a request is allowed exactly when fewer than limit of all admissions ever made for its client lie strictly after now - window |
| RateLimiter.KeptIsRecent | backend/internal/middleware/ratelimit.go:32-45 | What was kept and what was forgotten cannot be told apart through any later window, although a denial keeps stale entries |
| RateLimiter.GrantedIsAdmitted | backend/internal/middleware/ratelimit.go:25-47 | The requests the code lets through are those the full-history specification admits |
| RateLimiter.CleanupChangesNoAnswer | backend/internal/middleware/ratelimit.go:49-70 | Wherever and however often Cleanup runs, every answer is as if it had never run |
| RateLimiter.WindowBound | backend/internal/middleware/ratelimit.go:25-47 | In any run every half-open interval (x, x + window] contains at most limit admitted requests of one client |
| RateLimiter.RateLimiter.Allow | backend/internal/middleware/ratelimit.go:25-47 | Answers as the full-history specification, and records the call |
| RateLimiter.RateLimiter.AllowAt | backend/internal/middleware/ratelimit.go:29-46 | The branches on the map in place are the specified decision and update |
| RateLimiter.RateLimiter.RecentRequests | backend/internal/middleware/ratelimit.go:32-39 | The filter loop yields the admissions strictly after the start of the window |
| RateLimiter.RateLimiter.Cleanup | backend/internal/middleware/ratelimit.go:49-70 | Keeps the limiter valid, so no later answer changes |
| RateLimiter.RateLimiter.DropStale | backend/internal/middleware/ratelimit.go:56-69 | The loop with deletion during iteration drops stale times and clients with none left |
| JoinSafety.NeverOversubscribed | backend/internal/channel/repository.go:81-127 | In every interleaving of joins, creations, removals, deletions of channels and users, aborts and crashes, the committed membership has no duplicates and never exceeds a limit of at least one, and every foreign key of the three tables is sound |
| JoinSafety.JoinsAreAtomic | backend/internal/channel/repository.go:88-126 | Whatever runs in between, the statement that decides a join answers as the sequential specification does at that moment and changes the membership as it does; before it, or when the user does not exist, nothing visible changes |
| JoinSafety.OtherCallsAreAtomic | backend/internal/channel/repository.go:44-70 | A creation that commits needs the id to be free and adds the channel with its creator; the DELETE of a removal, of a channel and of a user are the specified changes of every channel's members; every other statement changes nothing |
| JoinSafety.RemovalsAnswerExactly | backend/internal/channel/repository.go:129-157 | A removal finds its row exactly when the specification succeeds; the error it picks in a later statement is the specification's at that moment if and only if the user is not a member again by then |
| JoinSafety.DeletionsHoldWhatTheyChange | backend/internal/db/migrations/002_align_models.sql:20 | A deletion commits only while it holds every row that its cascade removes or sets to NULL |
| JoinSafety.LimitIsKeptExactly | backend/internal/channel/repository.go:51-67 | No interleaving exceeds the limit all channels are created with, if and only if that limit has room for the creator |
| JoinSafety.ChangesOnlyFreeRows | backend/internal/user/repository.go:89-90 | No statement deletes or changes a committed row that another transaction holds |
| JoinSafety.NoStatementOvertakes | backend/internal/channel/repository.go:88-105 | No statement locks, changes or refers to a row that another transaction holds, creates a channel that another is creating or deleting, or deletes a user whom another's foreign key names |
| JoinTables.StatementChanges | backend/internal/user/repository.go:89-101 | Only a deletion answered with success changes the users, by exactly the one it names; a channel loses its creator only with that user or with the channel |
| JoinTables.UsersExactly | backend/internal/user/repository.go:89-101 | In every interleaving a user exists if and only if it has registered and no deletion of it has been answered with success since |
| JoinTables.LimitsExactly | backend/internal/channel/repository.go:51-67 | A channel exists, with a given limit, if and only if its creation with that limit succeeded and it has not been deleted since |
| JoinTables.CreatorsExactly | backend/internal/db/migrations/002_align_models.sql:20 | created_by names a user exactly from a successful creation by that user until the channel or the user is deleted |
| JoinTables.RowsExactly | backend/internal/db/migrations/001_initial.sql:31-37 | A user is in a channel if and only if a join or creation of theirs was answered with success, and since then no removal has found them there and neither the channel nor the user has been deleted |
| JoinTables.DeletionsAnswerExactly | backend/internal/user/repository.go:89-101 | A deletion says that there is nothing if and only if what it names does not exist when its first statement runs; when it reports success, that existed and has gone |
| JoinTables.DeletedUserIsRefused | backend/internal/db/migrations/001_initial.sql:33 | After a deletion of a user was answered with success, and until that user registers again, no join and no creation in that user's name succeeds |
| JoinDeadlocks.DeadlockExactly | backend/internal/channel/repository.go:88-105 | In every reachable state some calls wait for each other in a circle if and only if some deletions of users do, each through a join by the next deletion's user that holds the channel or through the deletion of a channel |
| JoinDeadlocks.ProgressUnlessKnotted | backend/internal/channel/repository.go:88-105 | While any call is in progress, some call can run its next statement, unless deletions of users wait for each other in that way |
| JoinDeadlocks.ProgressExactly | backend/internal/channel/repository.go:88-105 | Some call can run if and only if some call in progress is not caught in a deadlock |
| JoinDeadlocks.OneDeletionExactly | backend/internal/user/repository.go:89-90 | While one user is being deleted, calls are deadlocked if and only if the deletion waits for a channel that the user created, held by a join of the same user or by the channel's own deletion, which waits for the deletion of the user |
| JoinDeadlocks.DeadlockIsForever | backend/internal/user/repository.go:89-90 | A deadlock ends only when one of its calls is cut off; until then none of them runs |
| JoinDeadlocks.CutOffFrees | backend/internal/channel/repository.go:88-105 | Cutting off a call is always possible, changes no table, and ends exactly the waits for it and its own |
| JoinDeadlocks.OwnerDeadlocks | backend/internal/user/repository.go:89-90 | The program reaches a state in which no call can run: a user who created a channel and left it joins it again and has locked it when the deletion of the user begins |
| MembershipRows.InsertKeepsTables | backend/internal/channel/repository.go:97-118 | Inserting an absent member into a channel below its limit keeps the constraints of both tables |
| MembershipRows.DeleteChannelKeepsTables | backend/internal/db/migrations/001_initial.sql:31-37 | Deleting a channel, with the cascade to its memberships, keeps the constraints of both tables |
| MembershipRows.MembersDistinct | backend/internal/db/migrations/001_initial.sql:31-37 | Unique rows give every channel distinct members |
| MembershipRows.DeleteRowMembers | backend/internal/channel/repository.go:130-132 | Deleting a row takes exactly one member out of exactly one channel |
| Membership.RemoveUndoesAdd | backend/internal/channel/memory_store.go:51-103 | Leaving undoes joining |
| Membership.RemoveKeepsSound | backend/internal/channel/memory_store.go:77-103 | Leaving takes exactly this user out of exactly this channel and keeps every channel sound |
| Membership.AddKeepsSound | backend/internal/channel/memory_store.go:51-75 | Joining keeps members distinct and within the limit in every channel |
| ChannelRepository.PGChannelStore.Create | backend/internal/channel/repository.go:44-70 | Succeeds exactly when the id is free and the creator is a user who exists, and then adds the channel with its creator; otherwise changes nothing |
| ChannelRepository.PGChannelStore.AddMember | backend/internal/channel/repository.go:81-127 | A user who does not exist gets a foreign-key error in any channel that exists, before the count; for every other user, insert, count and roll back have the outcome of looking before adding |
| ChannelRepository.PGChannelStore.DeleteUser | backend/internal/user/repository.go:89-90 | Deleting a user takes that user out of every channel, and nobody else, and clears created_by of the channels the user created |
| ChannelRepository.PGChannelStore.CountRows | backend/internal/channel/repository.go:110-115 | The count is the number of members of the channel, the uncommitted one included |
| ChannelRepository.PGChannelStore.RemoveMember | backend/internal/channel/repository.go:129-157 | Removes the row, or says which of channel and member is missing |
| MemoryStore.MemoryChannelStore.Create | backend/internal/channel/memory_store.go:27-34 | Overwrites the id with a channel that has its creator as only member |
| MemoryStore.MemoryChannelStore.GetByID | backend/internal/channel/memory_store.go:36-49 | Hands out the channel as stored, except that its count is the number of its members and it is available if and only if that is below its limit |
| MemoryStore.MemoryChannelStore.AddMember | backend/internal/channel/memory_store.go:51-75 | The specified outcome and membership; the cached count of this channel, and only of this one, is brought up to date |
| MemoryStore.MemoryChannelStore.RemoveMember | backend/internal/channel/memory_store.go:77-103 | The search loop and the cut in place have the specified outcome and membership |
| MemoryStore.MemoryChannelStore.IsMember | backend/internal/channel/memory_store.go:105-119 | Says whether the user is a member, or that there is no such channel |
| MemoryStore.MemoryChannelStore.ListNearby | backend/internal/channel/memory_store.go:159-171 | Lists every channel exactly once, with the number of its members as count and available if and only if that is below its limit, in no particular order |
| Stores.AgreeExactly | backend/internal/channel/repository.go:81-127 | The condition behind it, for every sequence of joins and leaves: the answers agree if and only if no join to an existing channel names a user who does not exist |
| Stores.DeletedUserJoins | backend/internal/channel/memory_store.go:51-75 | Where they differ: after an account is deleted, its join gets a foreign-key error from PostgreSQL even when the channel is full, while the memory store lets it in, or calls the channel full |
| Stores.RunBoth | backend/internal/channel/repository.go:10-12 | Run on the same joins and leaves from the same membership, both stores give all the same answers if and only if whoever is to join a channel that exists is a user who exists; then they leave the same membership, that of the specification |
| ChannelService.SortChannelsByDistance | backend/internal/channel/service.go:179-189 | The in-place exchange sort yields an ascending permutation |
| ChannelService.InRadiusExactly | backend/internal/channel/service.go:112-122 | The filter keeps exactly the candidates in range, with their distance |
| ChannelService.NearestMeans | backend/internal/channel/service.go:124-128 | At most fifteen, ascending, from the candidates in range; whatever is omitted is at least as far as anything shown; nothing is omitted while fifteen suffice |
| ChannelService.NearestDistancesUnique | backend/internal/channel/service.go:105-131 | Whatever order the store lists the channels in, the same distances are shown |
| ChannelService.ChannelService.GetNearbyChannels | backend/internal/channel/service.go:105-131 | In terms of the store: the channels shown are different channels within the radius with their current counts, and a channel within the radius is missing only if fifteen at least as near are shown |
| ChannelService.ChannelService.JoinChannelOrCreate | backend/internal/channel/service.go:70-99 | If some channel within ten kilometres has room and does not have the user, the user joins one of those and nothing else changes; otherwise a new channel with the user is created and nothing else changes |
| ChannelService.ChannelService.TryJoin | backend/internal/channel/service.go:78-96 | One candidate is joined exactly when it is in range, has room and does not have the user |
| AudioQueue.Conservation | frontend/lib/features/voice/services/audio_queue.dart:34-60 | Over any run until clear, every accepted chunk is emitted, dropped or queued exactly once: the queue is the newest arrivals, those without a fate, and what was emitted is the arrivals whose fate is to be emitted, in order of arrival |
| AudioQueue.ConservedByOne | frontend/lib/features/voice/services/audio_queue.dart:80-93 | One operation appends its arrival and decides about the oldest entries only |
| AudioQueue.CappedIsLongestFit | frontend/lib/features/voice/services/audio_queue.dart:44-50 | The cap drops no more than it must, only the oldest, and never the newest |
| AudioQueue.TotalIsSize | frontend/lib/features/voice/services/audio_queue.dart:34-51 | The running total always equals the bytes queued, and exceeds the cap only while exactly one audio chunk is queued |
| AudioQueue.CapKeptExactly | frontend/lib/features/voice/services/audio_queue.dart:44-50 | That holds after every run if and only if the configured maximum is not negative |
| AudioQueue.AudioQueue.Enqueue | frontend/lib/features/voice/services/audio_queue.dart:34-51 | Ignores an empty chunk; otherwise the fields are those of the run extended by this arrival |
| AudioQueue.AudioQueue.AppendAndDrop | frontend/lib/features/voice/services/audio_queue.dart:37-50 | The dropping loop leaves the longest fitting suffix and the matching total |
| AudioQueue.AudioQueue.EnqueueEndOfSegment | frontend/lib/features/voice/services/audio_queue.dart:53-60 | Appends a sentinel that carries no bytes and drops nothing |
| AudioQueue.AudioQueue.StartPlayback | frontend/lib/features/voice/services/audio_queue.dart:62-71 | Starting twice is starting once |
| AudioQueue.AudioQueue.StopPlayback | frontend/lib/features/voice/services/audio_queue.dart:73-78 | Stops the timer and announces it; the queue stays |
| AudioQueue.AudioQueue.Clear | frontend/lib/features/voice/services/audio_queue.dart:80-84 | Empties the queue and the total and stops; what was emitted stays emitted |
| AudioQueue.AudioQueue.ProcessNextChunk | frontend/lib/features/voice/services/audio_queue.dart:86-100 | Takes the oldest entry off the queue and emits it, a sentinel as an end of segment and any other entry as audio; stops playback when there is none |
| Migrations.CrashSafe | backend/internal/db/migrate.go:42-79 | After any number of runs, each broken off at any call of the database, the recorded versions are a prefix of the names and the schema is the outcome of exactly those migrations, once each, in order |
| Migrations.LaterRunAppliesOnlyTheRest | backend/internal/db/migrate.go:42-81 | A later run that ends well applies exactly the names not yet recorded and leaves everything applied |
| Migrations.InterruptionsDoNoHarm | backend/internal/db/migrate.go:42-81 | With a database that answers, a run after any interruptions ends well if and only if the migrations would have applied to the empty database in one go |
| Migrations.RecordedInOrderExactly | backend/internal/db/migrate.go:43-52 | A run that ends well leaves the record in the order of the names if and only if what was recorded before comes first among them |
| Migrations.RunKeepsPrefix | backend/internal/db/migrate.go:42-79 | One run, however it ends, only extends the recorded prefix |
| Migrations.LoopApplies | backend/internal/db/migrate.go:42-79 | However it ends, the loop has done the first few pending migrations, each recorded as it was done |
| Migrations.AtMostExactly | backend/internal/db/migrate.go:31 | The order of the names is lexicographic: one is a beginning of the other, or has the smaller character where they first differ |
| Migrations.NamesInOrder | backend/internal/db/migrate.go:25-31 | The names are exactly those of the plain files that end in .sql and are more than that; of two of them the earlier is a beginning of the later or has the smaller character where they first differ; none occurs twice |
| Migrations.Database.ApplyMigrations | backend/internal/db/migrate.go:33-81 | The runner in place leaves the committed state, and gives the answer, of the specified run |
| Migrations.Database.RunMigration | backend/internal/db/migrate.go:59-78 | One transaction: the schema and its record change together or not at all, also when the answer to the commit is lost |

## Left out

- RelayReplay.NoGap: a safety property, stated of what is in the send channel or on its way to it; it does not say that the scheduler eventually runs the dispatcher or that the socket delivers.
- RelayRelease.DisconnectFrees: assumes that push-to-talk is used only in joined rooms and that nobody leaves a room while speaking in it, because the code does not free the lock otherwise; RelayRelease.ReleaseExactly has no such hypothesis.
- RelayRelease.LocksAlwaysHaveHolders: under the same assumption, which the code does not enforce.
- RelayRelease.SpokenRoomsAreListed: under the same assumption.
- ChannelService.ChannelService.GetNearbyChannels: over the memory store, which lists every channel; PostgreSQL's pre-filter is not part of this model.
- ChannelService.ChannelService.JoinChannelOrCreate: the service over the memory store without interleaving; concurrent joins are covered at the level of the store.
- Client.Client.HandleAudio: one message without interruption, for a broadcast channel with space, because the program blocks there until there is space; interleavings are the subject of the Relay modules.
- Client.Client.ReleaseVoice: for a lock table in which a room has a speaker exactly while it is transmitting, which every run by identified users keeps.
- Client.Client.SendReplay: packets carry the room they were stored for, which the program leaves empty in replayed packets.
- Aliasing: message records, channel states and channels are values in maps, not shared pointers; the buffer the service returns and the channel the memory store keeps cannot be changed from outside.
- The fields client.rooms and client.send are kept in the hub's own map, one entry per connection.
- Clients built without a voice guard or without a buffer, which the server never does.
- The hub's write lock makes waiting readers queue behind waiting writers; the model allows more interleavings than that.
- Integer width: sequence numbers, byte totals and times are unbounded integers.
- WritePump, pings, deadlines and socket errors: draining a send channel is a step that may happen at any time, and a read loop may end at any time.
- JSON, base64 and message identifiers: a chunk is bytes, and whether its audio decodes is a parameter of the message.
- The HTTP start and stop handlers and the periodic voice cleanup: the server does not route or start them; the cleanup is modelled as an operation of the lock.
- GetUnreplayedMessages, MarkAllAsReplayed, GetStatus, room and channel counters, ListMembers, ListUserChannels, Update, UpdateChannel and DeleteChannel's ownership check: easy members.
- BufferManager: dead code.
- PostgreSQL's bounding box and the Haversine formula: the distance is an arbitrary real-valued function, and the box is not a superset of the circle near the poles or across the antimeridian.
- Rounding and NaN in distances: distances are real numbers.
- Updates of users and of channel names and positions: they hold rows for one statement only and touch no membership; registrations only add users.
- The updated_at columns in the interleaved transactions: the statements are steps, their values are not part of the committed membership.
- Two migration runners at once, and SQL that PostgreSQL cannot roll back.
- Dart streams and timers: output is the sequence of events added to them; a tick may happen at any time.
- dispose in the playback queue, user accounts, authentication, the admin pages, the Flutter widgets, audio capture and playback.
