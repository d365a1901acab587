# Verified model of the real-time chat backend

The backend relays chat messages between WebSocket clients of several application instances. A message is
committed to PostgreSQL, published on a Redis channel of its conversation, and relayed by every instance to its own
sockets. This project models that path and proves what holds on every run of it:

- **Fan-out of one instance** (`FanOut*.dfy`). Handlers, subscription loops, `start` and `stop` calls are tasks of a
  step system. A step is what runs between two suspension points; taking the pubsub lock or the manager lock is a
  step of its own, and the section under the lock is a later step of the holder, so tasks interleave at least as freely
  as in the event loop. A send is two steps, the write of the frame and the return of the call, and a cancellation may
  fall between them. Redis is one append-only log per conversation, a subscription is a cursor that starts at the
  log's end, and timeouts, Redis failures and failed sends may happen at any time. A cancelled loop runs only its
  `finally`.
- **The critical sections as code** (`PubSub.dfy`, `ConnectionManager.dfy`). A Dafny method runs without interleaving, so
  the classes have one method per critical section, proved against the functions of `Subscriptions.dfy` and
  `Registry.dfy` that the step system is made of. A broadcast takes what other tasks do during its sends as a parameter;
  `FanOutBroadcast.dfy` has the same broadcast interleaved with everything else.
- **The chat flow of one socket** (`Chat.dfy`): persist, publish, persist the reply, publish the reply, with a failure
  branch at each stage; as a machine over the answers it awaits, and as a class, given those answers, whose every run is
  the machine's.
- **The deployment** (`World*.dfy`): one database, one Redis with named channels, any number of instances, and the chat
  services of all their running handlers.
- **Frames** (`Frames.dfy`), **channel names** (`Ids.dfy`), **reconnect delays** (`Backoff.dfy`) and **history paging**
  (`Paging.dfy`).

The invariant of the fan-out is `FanOutInvariant.Inv`; `FanOutSteps.RunKeeps` proves it for every run, and lemmas that
require `Inv` of a state therefore speak of every reachable state.

One promise of the repository's own documentation does not hold of its code. README.md:271-272 there says that each
instance with local clients for a conversation subscribes to its channel. A subscribe that times out pops the
conversation's entry with force (app/websocket/pubsub.py:104-105, and again app/routers/ws.py:54), although other clients
share it. `FanOutCoverage.CoverageLostInOutage` is such a run (an outage during which a reconnecting loop hangs in its
subscribe while a second client waits five seconds for it); `FanOutCoverage.ForcedUnsubscribeOrphans` says exactly when a
forced unsubscribe does this to others, `FanOutCoverage.EntryChangesExactly` that nothing but a forced unsubscribe and
`stop` does, and `FanOutCoverage.CoveredExactly` when a registered socket is covered at the end of a run: exactly when no
force follows the last subscribe to its conversation. Force is used only by handlers whose own wait has timed out
(`FanOutLifecycle.ForceMeansTimeout`), so the promise does hold while no wait times out and nobody stops the instance
(`FanOutLifecycle.CoveredWhileCalm`).

Two branches of the code turn out never to be taken: the `state.task.done()` test of a subscribe
(`Subscriptions.StoredTaskIsLive`), and a false answer of `_is_subscribed` to a loop that has not been cancelled
(`FanOutSafety.OneOwnerPerConversation`).

## Model

| member | source | states |
|---|---|---|
| `Ids.UuidRoundTrip` | app/websocket/pubsub.py:37 | the text of a UUID parses back to that UUID |
| `Ids.ChannelInjective` | app/websocket/pubsub.py:35-37 | two conversations have the same channel name only if they are the same |
| `Ids.ChannelName` | app/websocket/pubsub.py:35-37 | the channel name is the documented prefix and the lower-case hyphenated UUID |
| `Backoff.DelayStep` | app/websocket/pubsub.py:162-163 | one failure takes min(2^k, 30) to min(2^(k+1), 30), and adds the delay to the closed form of the total sleep |
| `Backoff.Sleeps` | app/websocket/pubsub.py:128-172 | the control loop sleeps min(2^k, 30) after a failure preceded by k failures in a row, and a success resets it |
| `Paging.PageCountIsCeiling` | app/schemas/message.py:45 | the negated floor division with minimum 1 is the exact ceiling of total / page size |
| `Paging.PagesArePrefix` | app/repositories/message.py:47-55 | the first n pages, one after another, are the first n * size messages |
| `Paging.PagesPartitionHistory` | app/repositories/message.py:40-55 | pages 1..count concatenate to the history, all but the last are full, later ones are empty, the last is not |
| `Paging.AppendKeepsPages` | app/repositories/message.py:47-55 | messages that sort last leave full pages as they are, only extend the last page, and never lower the count |
| `Paging.ListingIsConsistent` | app/services/message.py:36-61 | no ownership, no page; otherwise the items are the requested page of the history at the slice and a prefix of it in the counted history, with the exact total |
| `Paging.ResponseCountsPages` | app/schemas/message.py:36-46 | the response repeats the request, and its page count is that of the pages which make up the history |
| `Paging.OnExactlyOnePage` | app/repositories/message.py:47-55 | each message of a history stands on exactly one page |
| `Frames.StripSplits` | app/schemas/common.py:13-17 | stripping removes white space at both ends and nothing else |
| `Frames.StripFixpoint` | app/schemas/common.py:13-17 | stripping is idempotent and its fixpoints are the stripped texts |
| `Frames.ReplyIsStripped` | app/services/chat.py:244-246 | the prefixed reply to a nonempty stripped text is a strip fixpoint |
| `Frames.ConstructFixpoint` | app/websocket/protocol.py:27-112 | constructing a frame model is idempotent and changes a frame exactly when it holds an unstripped text |
| `Frames.DumpThenValidate` | app/websocket/protocol.py:119 | validating the dump of any outbound frame constructs that frame |
| `Frames.OutboundRoundTrip` | app/websocket/pubsub.py:191-224 | dump then validate returns the same frame if and only if the frame is a constructed one |
| `Frames.ValidatedIsConstructed` | app/websocket/protocol.py:115-119 | whatever validates is a constructed frame |
| `Frames.RelayIsStable` | app/websocket/pubsub.py:191-206 | the frame relayed for an arbitrary accepted tree validates to itself on every further hop |
| `Frames.InboundContent` | app/websocket/protocol.py:27-30 | a client text is accepted exactly when 1 to 16000 characters remain after stripping, and then as stripped |
| `Frames.InboundIsBounded` | app/websocket/protocol.py:27-30 | any accepted message.send has a stripped text within the bounds, whose reply is stripped too |
| `Frames.WireEnvelope` | app/websocket/protocol.py:73-112 | every frame goes out as an object of its literal type and its payload, and nothing else |
| `Frames.WireMessageCreated` | app/websocket/protocol.py:33-41 | the exact keys and values of a user message's payload, its role included |
| `Frames.WireAssistantMessage` | app/websocket/protocol.py:44-51 | the exact keys and values of a reply's payload, its role included |
| `Frames.WireOthers` | app/websocket/protocol.py:54-70 | the exact keys and values of the other payloads; a missing nonce goes out as null |
| `Frames.TypeDecides` | app/websocket/protocol.py:115-119 | a tree is read as the frame that its type names, or not at all |
| `Frames.IncompleteIsRefused` | app/websocket/protocol.py:27-59 | a payload without a required field, or with another role, is refused |
| `Frames.WrongKindIsRefused` | app/websocket/protocol.py:27-70 | a field of another kind is refused, and so is a payload that is no object |
| `Frames.PayloadIsRelayed` | app/websocket/pubsub.py:191-206 | exactly the outbound frames are relayed, and read back as themselves; anything else is dropped |
| `Registry.AddRefines` | app/websocket/manager.py:25-28 | connect adds one (conversation, socket) pair and keeps the map free of empty sets |
| `Registry.RemoveRefines` | app/websocket/manager.py:76-83 | removal takes out that pair only, and never leaves an empty set |
| `Registry.CloseRefines` | app/websocket/manager.py:63-64 | popping a conversation takes out exactly its pairs |
| `Registry.PairsDetermine` | app/websocket/manager.py:22 | registries without empty sets are equal when they stand for the same pairs |
| `Registry.RemoveAllMembers` | app/websocket/manager.py:51-54 | removing a list of sockets takes those out of one conversation and leaves all others |
| `ConnectionManagers.PairsSplit` | app/websocket/manager.py:70-74 | the number of pairs is one conversation's count plus the count of the rest |
| `ConnectionManagers.ConnectionManager.Connect` | app/websocket/manager.py:25-28 | the new registry has exactly one pair more |
| `ConnectionManagers.ConnectionManager.Disconnect` | app/websocket/manager.py:30-32 | the new registry is the old one without the socket |
| `ConnectionManagers.ConnectionManager.RemoveConnection` | app/websocket/manager.py:76-83 | the new registry has exactly that pair less |
| `ConnectionManagers.ConnectionManager.PopConversation` | app/websocket/manager.py:56-68 | returns the conversation's sockets and removes exactly their pairs |
| `ConnectionManagers.ConnectionManager.ConversationCount` | app/websocket/manager.py:70-73 | the number of sockets registered for the conversation |
| `ConnectionManagers.ConnectionManager.ConnectionCount` | app/websocket/manager.py:74 | the summed count equals the number of pairs |
| `ConnectionManagers.ConnectionManager.Snapshot` | app/websocket/manager.py:41-42 | lists every registered socket of the conversation once |
| `ConnectionManagers.ConnectionManager.SendToAll` | app/websocket/manager.py:44-49 | the sends made are the listed sockets in order, up to the first uncaught error; the failed list is the caught ones |
| `ConnectionManagers.ConnectionManager.BroadcastToConversation` | app/websocket/manager.py:34-54 | under any interference the sends made are to the snapshot sockets, each once, unless an uncaught error ends them, and exactly those that a caught error refused leave the registry as it has become meanwhile |
| `Subscriptions.SubscribeKeeps` | app/websocket/pubsub.py:86-100 | a subscribe keeps the single owner, stores an entry unless stopping, and creates at most one task |
| `Subscriptions.PopKeeps` | app/websocket/pubsub.py:117-120 | pop and cancel keep the single owner and leave no entry |
| `Subscriptions.StopKeeps` | app/websocket/pubsub.py:62-69 | the first section of stop leaves every task cancelled |
| `Subscriptions.LookupFindsOwnState` | app/websocket/pubsub.py:179-189 | an uncancelled loop finds itself subscribed, and marking by conversation reaches its own event only |
| `Subscriptions.StoredTaskIsLive` | app/websocket/pubsub.py:92-93 | a stored task is never done, so subscribing to a stored conversation creates none |
| `PubSub.RedisWebSocketPubSub.StartSection` | app/websocket/pubsub.py:56-59 | sets started and clears stopping, and nothing else |
| `PubSub.RedisWebSocketPubSub.StopSection` | app/websocket/pubsub.py:62-69 | stopping, no entry left, and exactly the stored unfinished tasks cancelled |
| `PubSub.RedisWebSocketPubSub.StopEndSection` | app/websocket/pubsub.py:73-74 | clears started and nothing else |
| `PubSub.RedisWebSocketPubSub.SubscribeSection` | app/websocket/pubsub.py:87-100 | turned away exactly when stopping; otherwise the stored state, new only when none was live |
| `PubSub.RedisWebSocketPubSub.UnsubscribeSection` | app/websocket/pubsub.py:108-120 | unforced with sockets registered nothing changes; otherwise the entry is popped and its task cancelled |
| `PubSub.RedisWebSocketPubSub.MarkReadySection` | app/websocket/pubsub.py:179-183 | sets the event of the stored state, if any, and of no other |
| `PubSub.RedisWebSocketPubSub.MarkNotReadySection` | app/websocket/pubsub.py:185-189 | clears the event of the stored state, if any, and of no other |
| `PubSub.RedisWebSocketPubSub.IsSubscribedSection` | app/websocket/pubsub.py:208-210 | true exactly when there is an entry and no stop |
| `PubSub.RedisWebSocketPubSub.ActiveSubscriptionCount` | app/websocket/pubsub.py:124-126 | the number of entries |
| `FanOutSteps.HConnectKeeps` | app/websocket/manager.py:25-28 | connecting keeps the invariant |
| `FanOutSteps.HSubscribeKeeps` | app/websocket/pubsub.py:86-103 | the subscribe section keeps it |
| `FanOutSteps.HForcePopKeeps` | app/websocket/pubsub.py:104-122 | a forced unsubscribe keeps it, on both of its paths |
| `FanOutSteps.HDisconnectKeeps` | app/routers/ws.py:53-91 | disconnecting keeps it, on the failure path and in `finally` |
| `FanOutSteps.HUnsubscribeKeeps` | app/websocket/pubsub.py:114-122 | the ordinary unsubscribe, its count read under the pubsub lock, keeps it |
| `FanOutSteps.LSubscribedKeeps` | app/websocket/pubsub.py:135-137 | a new channel subscription keeps it: its cursor is past everything relayed before |
| `FanOutSteps.LReceivedKeeps` | app/websocket/pubsub.py:146-152 | reading one message keeps it, relayed or dropped |
| `FanOutSteps.LMarkReadyKeeps` | app/websocket/pubsub.py:138-143 | marking ready by conversation keeps it |
| `FanOutSteps.LSnapshotKeeps` | app/websocket/manager.py:40-42 | the broadcast snapshot keeps it |
| `FanOutSteps.LWriteKeeps` | app/websocket/manager.py:47 | writing a frame to one socket keeps it |
| `FanOutSteps.LSendKeeps` | app/websocket/manager.py:44-49 | the return of a send, in any of its ways, keeps it |
| `FanOutSteps.LUnwindKeeps` | app/websocket/pubsub.py:153-177 | unwinding a cancelled loop keeps it, with whatever the loop had written |
| `FanOutSteps.StepKeeps` | app/websocket/pubsub.py:56-210 | every step of every task keeps the invariant |
| `FanOutSteps.RunKeeps` | app/websocket/pubsub.py:56-210 | so does every run |
| `FanOutSafety.RelayedInOrderAtMostOnce` | app/websocket/pubsub.py:128-177 | on every run the entries written to a socket, by sends cut short by a cancellation too, are a strictly increasing list of relayable entries of its own conversation's log |
| `FanOutSafety.WriteSurvives` | app/websocket/pubsub.py:153-177 | a written frame counts on every run that follows, its send cancelled or not |
| `FanOutSafety.WriteStaysInConversation` | app/websocket/manager.py:44-47 | a frame is written to a socket of the loop's conversation that has nothing from that entry on |
| `FanOutSafety.OneOwnerPerConversation` | app/websocket/pubsub.py:92-122 | at most one uncancelled loop per conversation, the stored one; it never ends by itself |
| `FanOutSafety.MarksTouchOwnEvent` | app/websocket/pubsub.py:179-189 | marking by conversation changes the event of the marking loop only |
| `FanOutSafety.ReadyMeansSubscribed` | app/websocket/pubsub.py:132-172 | a set event means a completed subscription, held or just failed; a relaying loop's event is set |
| `FanOutSafety.SubscribeReturnsSubscribed` | app/websocket/pubsub.py:102-103 | a subscribe that is not turned away returns normally only after its loop has completed a subscription |
| `FanOutSafety.NoLeaks` | app/routers/ws.py:49-92 | every entry has a handler that owes an unsubscribe, every socket a handler before its disconnect; with all handlers gone both maps are empty |
| `FanOutSafety.StopIsFinal` | app/websocket/pubsub.py:56-75 | until the next start: no entry, all loops cancelled, none created, nothing relayed |
| `FanOutSafety.StopTakesEffect` | app/websocket/pubsub.py:62-69 | one step brings that state about |
| `FanOutSafety.FailuresAreTrailing` | app/websocket/pubsub.py:130-172 | a loop's failure count is the number of failures since the last success in its run |
| `FanOutSafety.BackoffIsBounded` | app/websocket/pubsub.py:130-172 | after k failures in a row the delay is min(2^k, 30) and the sleep so far has the closed form |
| `FanOutSafety.LockOrder` | app/websocket/pubsub.py:114-120 | locks are held only inside their sections, and a holder of the manager lock never waits for the pubsub lock |
| `FanOutSafety.BlockedWaits` | app/websocket/pubsub.py:62-122 | a live task that cannot step waits for a live task of lower rank |
| `FanOutSafety.WaitChain` | app/websocket/pubsub.py:62-122 | deadlock freedom: a chain of at most three waits ends in a task that can step |
| `FanOutGuards.PubLockGuards` | app/websocket/pubsub.py:56-122 | entries, flags and events change only in a section of the task that holds the pubsub lock |
| `FanOutGuards.RegistryChangesExactly` | app/websocket/manager.py:25-83 | the registry changes only under the manager lock, and a socket joins and leaves it in exactly the steps listed |
| `FanOutGuards.UnsubscribeCountsOthers` | app/routers/ws.py:87-92 | disconnect comes first: a handler's ordinary unsubscribe does not count its own socket |
| `FanOutGuards.ChannelIsClosed` | app/websocket/pubsub.py:173-177 | a loop gives up a Redis channel only by closing it, also when cancelled, and opens another only when it has none |
| `FanOutGuards.RedisIsFree` | app/websocket/pubsub.py:132-172 | Redis may answer a subscribe and a poll in every way |
| `FanOutGuards.SendsAreFree` | app/websocket/manager.py:44-49 | a send may fail before and after its frame is written |
| `FanOutGuards.ClientsAreFree` | app/routers/ws.py:49-92 | clients may come, time out, wake up and leave at any time |
| `FanOutGuards.CallsAreFree` | app/websocket/pubsub.py:56-84 | publications, start, stop and cancellations may come at any time |
| `FanOutGuards.SectionsHoldLocks` | app/websocket/pubsub.py:56-122 | every section runs under the lock it is meant for, its reads included, and releases it |
| `FanOutGuards.CancelledOnlyUnwinds` | app/websocket/pubsub.py:153-177 | a cancelled loop runs nothing but its `finally` |
| `FanOutGuards.EachRoundIsChecked` | app/websocket/pubsub.py:132-151 | every subscribe and every poll is preceded by a check that the conversation is still subscribed |
| `FanOutGuards.FailuresBackOff` | app/websocket/pubsub.py:155-172 | a loop backs off in exactly the failures of Redis and of a send, and tries again only after its sleep |
| `FanOutLifecycle.CallStages` | app/websocket/pubsub.py:56-75 | start is one section; stop is a section, the join of the stored loops, and another section |
| `FanOutLifecycle.StartedChanges` | app/websocket/pubsub.py:56-91 | when the started flag changes |
| `FanOutLifecycle.FailureMeansTimeout` | app/routers/ws.py:49-65 | a handler is on the failure path only after its own wait has timed out, and then never runs the chat service |
| `FanOutLifecycle.ForceMeansTimeout` | app/websocket/pubsub.py:102-106 | only a handler whose wait has timed out unsubscribes with force |
| `FanOutLifecycle.CoveredWhileCalm` | app/websocket/pubsub.py:86-117 | on every run without a timed-out wait in the conversation and without stop, every subscribed registered socket is covered |
| `FanOutLifecycle.SubscribeWaitsExactly` | app/websocket/pubsub.py:86-103 | a subscribe goes on at once exactly when stopping or when the event is set; otherwise it awaits the event of the stored state |
| `FanOutLifecycle.RestartCovers` | app/websocket/pubsub.py:56-59 | after a start, while no stop follows, every subscribe leaves an entry with a live loop |
| `FanOutLifecycle.PopIsJoined` | app/websocket/pubsub.py:117-122 | whoever pops an entry joins the loop it cancels |
| `FanOutLifecycle.JoinOutlasts` | app/websocket/pubsub.py:119-122 | and goes on only once that loop has ended |
| `FanOutLifecycle.StopIsJoined` | app/websocket/pubsub.py:62-71 | stop joins every loop that was stored |
| `FanOutLifecycle.StopReturnsAfterLoops` | app/websocket/pubsub.py:68-74 | and returns only once they have ended |
| `FanOutCoverage.EntryChangesExactly` | app/websocket/pubsub.py:86-117 | with a socket registered, an entry goes exactly by force or stop, and comes back exactly by a subscribe while not stopping |
| `FanOutCoverage.NeverReRegistered` | app/routers/ws.py:49-92 | a socket that has left the registry never returns |
| `FanOutCoverage.CoverageLasts` | app/websocket/pubsub.py:108-117 | an entry lasts as long as the socket is registered and no force is used |
| `FanOutCoverage.CoverageAfterSubscribe` | app/routers/ws.py:49-92 | from its subscribe section on, a registered socket is covered unless force is used |
| `FanOutCoverage.CoveredExactly` | app/websocket/pubsub.py:86-122 | on a run that leaves the socket registered, it is covered at the end if and only if no force follows the last subscribe |
| `FanOutCoverage.ForcedUnsubscribeOrphans` | app/websocket/pubsub.py:104-117 | a forced unsubscribe leaves another registered socket uncovered exactly when one is registered |
| `FanOutCoverage.CoverageLostInOutage` | app/websocket/pubsub.py:102-106 | a run in which a loop hangs in a subscribe to Redis for longer than a second client waits, and the first, running and registered, ends up without a subscription |
| `FanOutCoverage.OrphanedUntilSubscribe` | app/websocket/pubsub.py:86-100 | from there on, the client is covered exactly when someone has subscribed anew with no force since |
| `FanOutBroadcast.BroadcastTriesEachOnce` | app/websocket/manager.py:34-49 | on every run from a snapshot on, the sends go to the sockets registered then, each at most once and in one order; the failed list is exactly the refused ones; a finished broadcast has tried all |
| `FanOutBroadcast.BroadcastRemovesRefused` | app/websocket/manager.py:51-54 | the removals take exactly the refused sockets out of the registry as it is by then; sockets that joined since stay |
| `FanOutPaths.PathEndsExactly` | app/websocket/pubsub.py:132-210 | a loop that relays to a socket stops doing so exactly in a Redis failure, an uncaught send error, an end of the registration, a stop or a forced unsubscribe; quiet polls, invalid payloads, empty snapshots and removals keep it relaying |
| `FanOutGaps.AllRelayableIsContiguous` | app/websocket/pubsub.py:145-152 | when all frames validate, the relayable entries of a segment are the segment |
| `FanOutGaps.NoGaps` | app/websocket/pubsub.py:145-152 | from a snapshot on, until one of the listed causes ends the path or a send fails, a socket is relayed exactly the relayable entries up to where the loop is |
| `FanOutGaps.NoGapsFromNow` | app/websocket/pubsub.py:145-152 | and so from any point at which the loop relays to a registered socket |
| `Chat.FlowNextOk` | app/services/chat.py:109-187 | what the flow holds always belongs to its conversation, user and validated text |
| `Chat.NeverWithoutSender` | app/services/chat.py:217-220 | the user frame is never refused for want of a sender |
| `Chat.FrameAgreesWithRow` | app/services/chat.py:217-242 | frame and relayed frame have the row's id, conversation, sender, role and content |
| `Chat.DirectReplyReadsBack` | app/services/chat.py:261-265 | every pong and error is what construction makes of it and reads back as sent |
| `Chat.BookBalanced` | app/services/chat.py:64-187 | every event keeps the account of messages, pongs, errors, exchanges and rows balanced |
| `Chat.RunBalanced` | app/services/chat.py:64-187 | so does every sequence of events |
| `Chat.FlowConservation` | app/services/chat.py:57-215 | each message ends in one pong, one error, one exchange or one unsendable reply; assistant rows <= successful user publishes <= user rows |
| `Chat.ExchangeOutcome` | app/services/chat.py:109-215 | an exchange completes, with both rows, both frames and no direct reply, if and only if all four stages succeed; otherwise the error of the first failed stage is due, and only what was stored and announced until then stays |
| `Chat.SettleEnds` | app/services/chat.py:64-187 | whatever is answered, one message brings the flow back to idle, or ends it by one reply that cannot be sent |
| `ChatMessages.SentTextIsStored` | app/services/chat.py:89-187 | the stripped text of a message.send tree is what is stored and announced for the user, and what the prefixed reply repeats |
| `ChatMessages.FailuresAreReported` | app/services/chat.py:130-215 | the literal errors of a failed commit and a failed publish |
| `ChatMessages.PingIsAnswered` | app/services/chat.py:96-101 | a ping gets one pong with its own stripped nonce |
| `ChatMessages.PongIsUnsupported` | app/services/chat.py:102-107 | a pong gets unsupported_message |
| `ChatMessages.MalformedIsRefused` | app/services/chat.py:69-76 | text that is not JSON gets invalid_json |
| `ChatMessages.InvalidIsRefused` | app/services/chat.py:78-87 | a tree that is no client message gets invalid_message with the stripped complaint |
| `Chat.ChatWebSocketService.CreateMessage` | app/services/chat.py:118-144 | takes the machine's step for the database's answer; a row is returned only when committed |
| `Chat.ChatWebSocketService.SendJson` | app/services/chat.py:261-265 | takes the machine's step for a direct send; a failed one ends the run |
| `Chat.ChatWebSocketService.PublishFrame` | app/services/chat.py:189-215 | takes the machine's step for the channel's answer, and on failure also that of the error reply |
| `Chat.ChatWebSocketService.HandleMessageSend` | app/services/chat.py:109-187 | the early-returning code ends where the machine comes to rest on the same answers |
| `Chat.ChatWebSocketService.Answer` | app/services/chat.py:64-107 | one round of the loop takes in one message and ends where the machine does |
| `Chat.ChatWebSocketService.Run` | app/services/chat.py:57-107 | the whole run is the machine's session on the same messages and answers, takes in every message unless a reply cannot be sent, and balances |
| `World.ServesItsCaller` | app/services/chat.py:57-63 | a service works for its handler's conversation and its caller's user from its call on |
| `World.DeliverKeeps` | app/websocket/pubsub.py:77-84 | a publication reaches its conversation's log on every instance and no other |
| `World.AnnounceKeeps` | app/services/chat.py:146-187 | a publication gives its row one place in the logs and leaves every other entry |
| `World.MoveKeeps` | app/services/chat.py:118-187 | every move of the deployment keeps its invariant |
| `World.HistoryKeeps` | app/services/chat.py:118-187 | so does every history |
| `World.CommittedBeforeVisible` | app/services/chat.py:118-187 | every entry of every channel is the frame of a committed row of the channel's conversation |
| `World.AnnouncedOnce` | app/services/chat.py:146-187 | a row enters the logs at most once |
| `World.DeliveredIsCommittedAndOwn` | app/websocket/pubsub.py:191-206 | every frame relayed to any client anywhere is that of a committed row of the client's own conversation |
| `World.ShownAtMostOnce` | app/websocket/pubsub.py:145-152 | no client is relayed the same message twice |
| `WorldQuestions.QuestionBeforeAnswer` | app/services/chat.py:146-187 | an announced reply has been preceded on its channel by the committed user message that it answers |
| `WorldQuestions.QuestionAnsweredOnce` | app/services/chat.py:109-187 | no two replies answer the same user message |
| `WorldDelivery.ClientMissesNothing` | app/websocket/pubsub.py:145-206 | from the first snapshot that contains a client on, while its own path does not break, it is relayed every message announced for its conversation, once, in order, without a gap |
| `WorldDelivery.RelayedClientMissesNothing` | app/websocket/pubsub.py:145-206 | and so from any moment at which a loop relays to a registered client: whatever is published from then on reaches it |
| `WorldClients.SameOrderForAll` | app/websocket/pubsub.py:145-152 | any two clients, on any instances, are shown any two messages in the same order |
| `WorldClients.QuestionShownFirst` | app/services/chat.py:146-187 | no client is shown a reply before the message that it answers |
| `WorldClients.ShownIsListedOnce` | app/services/message.py:50-61 | whatever a client is shown stands on exactly one page of its conversation's listing, for every page size and every order of the committed rows |

## Left out

- PostgreSQL, SQLAlchemy sessions, the Redis wire protocol and Starlette sockets are answers that may come out either way. A failed commit or publish may have taken effect all the same.
- `pubsub.subscribe` returns before Redis confirms; the model takes the subscription to begin when the call returns.
- Text of JSON and of timestamps: frames are JSON trees with timestamps as opaque leaves. `FrameAgreesWithRow` therefore assumes that timestamp text reads back as the same instant, and the validators refuse a timestamp given as a number or in a text field.
- NoGaps, NoGapsFromNow, ClientMissesNothing, RelayedClientMissesNothing: they take a lost Redis connection to surface as an error; a client library that reconnects and resubscribes by itself, as newer `redis` releases may (pyproject.toml:24 asks for 5.2.0 or later), could skip entries unnoticed.
- AnnouncedOnce, ShownAtMostOnce: they take one PUBLISH call to append at most once; a client library that repeats the command after a lost reply could append it twice.
- UUID text other than the hyphenated form, in either case, which the library also reads.
- Cancellation of handler tasks from outside, and of loops by anything but a pop or `stop`: the no-leak claim assumes there is none. A socket whose `accept` fails never becomes a handler.
- Frames that other programs publish on the channels: the instances of `FanOut` meet arbitrary payloads, but in `World` only the chat services publish.
- Ties and clock order of `created_at`: paging assumes one fixed total order, and new rows that sort last.
- The two loops of a broadcast in place: `BroadcastToConversation` takes the interference of other tasks as a parameter; the step system has it as interleaving.
- Liveness (that a subscription eventually succeeds, that a woken task eventually runs) and lock fairness.
- Authentication, JWT, password hashing, configuration, logging, health checks, error handlers, migrations, and conversation create, rename, delete and list.
