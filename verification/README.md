# ESR sidecars: a verified model

The Python side of ESR is a set of sidecars that talk to an Elixir runtime over Phoenix
Channels frames `[join_ref, ref, topic, event, payload]`. This project models its stateful
protocol code, its stores and its actor handlers in Dafny, and proves what they keep over
whole runs. `dafny verify dfyconfig.toml` checks everything.

| component | files |
|---|---|
| reconnecting channel client | `ChannelModel`, `ChannelScope`, `ChannelReconnect`, `ChannelDrops`, `ChannelDelivery`, `ChannelParts`, `ChannelClient` |
| stdio bridge (push ack, then tool result) | `BridgeModel`, `BridgeRuns`, `BridgeObjects` |
| Feishu poller | `Poller` |
| esr:// URIs, resource URIs, media store | `Uri`, `UriGrammar`, `Resource`, `Media` |
| handler worker, its wire form and its two handlers | `Actions`, `Sorting`, `Worker`, `StateCodec`, `FeishuThread`, `FeishuApp`, `FeishuRelay`, `SessionOptions` |
| capability checker | `Capabilities` |
| ledger checker and ledger append | `Ledger`, `LedgerAppend` |
| shared values and string operations | `Prelude`, `Strings` |

**How concurrency is modelled.** A step is the code between two suspension points of the
event loop. Each protocol is a total step function over a value; a step that is not enabled
changes nothing, so every action sequence is a run. The classes hold the state in mutable
fields and in objects of their own: the client over its socket, its reply table and a ring of
pending pushes, the bridge process over its phx client and its MCP server. `Valid()` of the
client and of the process says that the object is in a state a run from the initial one
reaches, and holds the invariants of runs; every public method requires and ensures it and
records its step, so the theorems about runs are theorems about objects. Fields marked ghost
or as history are never read by a step.

**Assumptions about the environment.** A closed socket takes no writes and never reopens.
Drawing a ref, updating the maps and handing the frame to the socket happen without a
switch. Request ids from `uuid4` are not reused. `str()` of a JSON value, the iteration
order of a Python set, the key order of a decoded object and SHA-256 are parameters of the
statements that need them.

## Where the code promises less than its comments

- `connect()` after `close()` keeps the join map of the dead socket, so the next push goes
  out under a stale join_ref (`StaleJoinRefAfterManualReconnect`). It is safe exactly when
  the map is empty (`ConnectIsSafeIffMapEmpty`).
- If the link drops while a re-join waits for its answer, topics not yet re-joined are
  forgotten (`DropMidRejoinForgets`, `DropForgetsTopic`). If the answer was read before the
  close, the old loop may still record them on the dead link (`DropAfterAnswerKeepsTopic`);
  `MayCoverIff` and `MustCoverIff` say exactly when some and when every next attempt covers
  the old topics.
- A flush that meets a dropped link re-queues without ever suspending: it ends exactly when
  no queued push has a joined topic (`DownFlushEndsIffNoSurvivor`), and it can be reached
  with one (`SpinIsReachable`).
- Accepted pushes can be lost: to a full queue, to a socket that takes no write, or to a topic
  gone at the flush, and to nothing else (`EveryPushAccounted`).
- The poller misses messages exactly when more than a page arrives between two polls
  (`SuffixIffGapsFit`). Its comment says envelopes of bot messages come back as `None`; the
  conversion always returns an envelope.
- A source rewritten between the hash and the copy of one `store` leaves a file whose name
  lies unless both contents have one hash (`RewrittenSourceLies`, `RenameIsHonestIff`); an
  empty `ESRD_HOST_PORT` makes `store` raise after it has written the file and the ref line
  (`BuildFailsIffNoHost`, `MediaStore.Store`).
- `process_handler_call` says it never raises; `RaisesIff` says exactly when it does, for
  instance on the args `"abc"` (`TextArgsRaise`).
- An empty `name=` beside a non-empty `tag=` makes token order matter
  (`OrderFreeIffUnambiguous`).
- A rewrite of the capability file that keeps its mtime is not seen (`RevokedGrantSurvives`);
  it goes unnoticed exactly when old and new grants cover each other (`SameMtimeHidesEdit`).
- A ledger whose last line is unterminated has that line edited by an append
  (`AppendAddsRowIffClosed`).

## Model

| member | source | states |
|---|---|---|
| ChannelScope.EveryFrameIsScoped | py/src/esr/ipc/channel_client.py:135-198 | in every run, with any number of drops and reconnects, each frame that is no heartbeat carries a join_ref introduced by an earlier or the same phx_join for its topic on its own connection |
| ChannelScope.StepKeepsScoped | py/src/esr/ipc/channel_client.py:277-324 | each step keeps that, together with: while the socket is open every recorded join_ref was introduced on it |
| ChannelScope.ConnectIsSafeIffMapEmpty | py/src/esr/ipc/channel_client.py:99-107 | a public connect keeps the scoping of every continuation if and only if no topic is recorded as joined |
| ChannelScope.StaleJoinRefAfterManualReconnect | py/src/esr/ipc/channel_client.py:99-125 | connect, join, close, connect, push writes a frame under a join_ref its connection never saw |
| ChannelScope.RefsNeverRepeat | py/src/esr/ipc/channel_client.py:173-198 | refs on the wire strictly ascend across joins, pushes, flushes, calls, heartbeats and connections, and the wire log only grows |
| ChannelScope.StepSettles | py/src/esr/ipc/channel_client.py:254-258 | a future leaves its waiting state at most once, only through a phx_reply with its ref, its own call's timeout, or the cancellation of the join that awaits it; recorded outcomes never change |
| ChannelScope.EndedCallStaysEnded | py/src/esr/ipc/channel_client.py:188-198 | a call that ended by reply, timeout or failed send holds no key in any later state, a late reply changes nothing, and a returned payload came from a phx_reply with its ref |
| ChannelScope.RunExpects | py/src/esr/ipc/channel_client.py:139-145 | in every reachable state a call or join that waits for its reply still has its key |
| ChannelScope.ReplyIsReturned | py/src/esr/ipc/channel_client.py:254-258 | a waiting call takes the first phx_reply with its ref: over any further run in which its timer does not beat its resume it is about to return that payload or has returned it, and when it resumes it does |
| ChannelScope.TimeoutExpires | py/src/esr/ipc/channel_client.py:196-198 | a call whose timer fires first ends expired whatever replies come before it resumes, and holds no key |
| ChannelScope.ReplyReachesJoin | py/src/esr/ipc/channel_client.py:254-258 | a waiting join gets the payload of the first phx_reply with its ref |
| ChannelScope.JoinAnswerDecides | py/src/esr/ipc/channel_client.py:147-153 | in any reachable state a join that resumes removes its topic from both maps, and nothing else, if its reply is an object whose status is not ok; otherwise both maps stay as they are |
| ChannelScope.ClosedStaysSilent | py/src/esr/ipc/channel_client.py:109-125 | once the socket is closed or gone, no run writes a frame until the next connect |
| ChannelScope.NoLoopAfterClose | py/src/esr/ipc/channel_client.py:109-111 | after close, or without auto_reconnect, no run starts another reconnect loop |
| ChannelReconnect.ReconnectRestores | py/src/esr/ipc/channel_client.py:277-324 | from any reachable state, through any interleaving of pushes, calls, heartbeats, inbound frames and joins of other topics (neither re-joined nor the topic of a queued push) while the new socket stays open, the finished attempt leaves, besides those others, exactly the old topics whose recorded reply has status ok (or is no object), with the old handlers and fresh refs, and has flushed exactly the queued pushes to surviving topics, once, in FIFO order |
| ChannelReconnect.StepKeepsAttempt | py/src/esr/ipc/channel_client.py:301-324 | each step keeps the attempt's accounts of topics, answers and queue |
| ChannelReconnect.MovesRunOut | py/src/esr/ipc/channel_client.py:306-324 | every move of the loop uses up one of its remaining moves and nothing else changes their number, so re-join and flush terminate while the link is up |
| ChannelReconnect.MovesLeft | py/src/esr/ipc/channel_client.py:306-324 | no move is left exactly when the loop has returned; before that it can move unless it awaits a join reply |
| ChannelReconnect.FailedConnectsKeepAll | py/src/esr/ipc/channel_client.py:286-299 | through any number of failed connects, with pushes, calls and frames in between, both topic maps and every reconnect loop stay as they were, and the queue is the last 1000 of what it held and the pushes accepted since |
| ChannelDrops.DropMidRejoinForgets | py/src/esr/ipc/channel_client.py:301-310 | if the reader ends while the awaited answer has not come, then over every run up to the next connect (without replies, and without joins of the old topics by other callers) the next attempt covers all old topics if and only if none was left to ask and none was refused |
| ChannelDrops.AttemptTracks | py/src/esr/ipc/channel_client.py:301-310 | every state inside an attempt qualifies for these statements |
| ChannelDrops.MayCoverIff | py/src/esr/ipc/channel_client.py:301-310 | for any drop inside an attempt, some such run leads to a next attempt that covers the old topics if and only if none was refused and none is left to ask or the loop is not held up by its awaited answer |
| ChannelDrops.MustCoverIff | py/src/esr/ipc/channel_client.py:301-310 | every such run does if and only if all were asked, none was refused and no refusal is waiting to be read |
| ChannelDrops.DropForgetsTopic | py/src/esr/ipc/channel_client.py:303-308 | a run from the initial state in which the next attempt has lost a topic |
| ChannelDrops.DropAfterAnswerKeepsTopic | py/src/esr/ipc/channel_client.py:135-147 | a run in which the old loop records its last topic on the dead link, so that none is lost |
| ChannelReconnect.QueueKeepsNewest | py/src/esr/ipc/channel_client.py:155-174 | while disconnected, after any run the queue is the last 1000 of what it held followed by the accepted pushes, in order |
| ChannelReconnect.QueueStaysBounded | py/src/esr/ipc/channel_client.py:88-90 | no step takes the queue above 1000 entries |
| ChannelReconnect.DownFlushLosesNothing | py/src/esr/ipc/channel_client.py:313-316 | one round of flushing on a dropped link leaves exactly the queued pushes with joined topics, once and in order |
| ChannelReconnect.DownFlushEndsIffNoSurvivor | py/src/esr/ipc/channel_client.py:313-324 | on a dropped link some number of flush steps empties the queue if and only if no queued push has a joined topic |
| ChannelDrops.SpinIsReachable | py/src/esr/ipc/channel_client.py:312-323 | a run from the initial state after which the flush turns one queued push over for ever |
| ChannelDelivery.NeverDuplicated | py/src/esr/ipc/channel_client.py:155-174 | at most once: in every run from the initial state, counted with multiplicity, the pushes on all wires together with those queued are among the pushes accepted |
| ChannelDelivery.EveryPushAccounted | py/src/esr/ipc/channel_client.py:155-174 | in every run, counted with multiplicity, the pushes held at the start and accepted since are exactly those written, those queued, and those lost by one of three causes: full queue, socket that takes no write, topic not joined at the flush |
| ChannelDelivery.FlushHolds | py/src/esr/ipc/channel_client.py:313-323 | a flush step writes its entry, queues it again or loses it by a named cause, and never doubles it |
| ChannelParts.WriteAppends | py/src/esr/ipc/channel_client.py:88-90 | writing the slot after the last entry of a ring appends to what it holds, wherever it wraps |
| ChannelParts.AdvanceDrops | py/src/esr/ipc/channel_client.py:88-90 | moving the first slot of a ring on drops the oldest entry |
| ChannelParts.PushQueue.Append | py/src/esr/ipc/channel_client.py:165-171 | the ring of 1000 slots takes a push as a bounded queue does, the oldest giving way |
| ChannelParts.PushQueue.PopLeft | py/src/esr/ipc/channel_client.py:313-314 | the oldest entry leaves |
| ChannelParts.ReplyTable.Settle | py/src/esr/ipc/channel_client.py:254-258 | a phx_reply pops its key and settles the future if that is not done |
| ChannelClientClass.NextReached | py/src/esr/ipc/channel_client.py:59-90 | an object that made one more step is again in a reachable state with the run invariants, and its reconnect attempt goes on while the steps are calm |
| ChannelClientClass.ChannelClient.constructor | py/src/esr/ipc/channel_client.py:59-90 | a new client is valid and in the initial state |
| ChannelClientClass.ChannelClient.Connect | py/src/esr/ipc/channel_client.py:99-107 | the object stays valid; no frame is on the new connection yet, and frames stay in scope exactly if no join was recorded |
| ChannelClientClass.ChannelClient.JoinInternal | py/src/esr/ipc/channel_client.py:135-147 | records topic, handler and future under one fresh ref and writes phx_join if the socket is open; the error tells whether it went out |
| ChannelClientClass.ChannelClient.Join | py/src/esr/ipc/channel_client.py:129-133 | nothing changes without a socket; otherwise the topic is held under a ref above every ref written before |
| ChannelClientClass.ChannelClient.ResumeJoin | py/src/esr/ipc/channel_client.py:147-153 | rejected exactly when the recorded reply of the join is an object whose status is not ok; a refusal removes the topic from both maps, an acceptance changes neither |
| ChannelClientClass.ChannelClient.Push | py/src/esr/ipc/channel_client.py:155-174 | the error says why the push is neither written nor queued; otherwise it is the one new frame, under the topic's join_ref and a ref above all earlier ones, or the newest of a queue cut to 1000 |
| ChannelClientClass.ChannelClient.Call | py/src/esr/ipc/channel_client.py:188-195 | a sent call wrote one frame with its topic, event and payload under the join_ref of the topic, and holds a key no call or join ever had; a failed one wrote nothing and leaves keys and futures as they were |
| ChannelClientClass.ChannelClient.FinishCall | py/src/esr/ipc/channel_client.py:196-198 | the key is gone whatever the result; the result is the payload its future was resolved with unless the timer was first, and came in a phx_reply with the ref of the call |
| ChannelClientClass.ChannelClient.ExpireCall | py/src/esr/ipc/channel_client.py:196 | the timer leaves the future of its call settled, and only that one |
| ChannelClientClass.ChannelClient.AbandonJoin | py/src/esr/ipc/channel_client.py:147 | a cancelled join leaves no future waiting, and its topic stays recorded |
| ChannelClientClass.ChannelClient.OnFrame | py/src/esr/ipc/channel_client.py:254-258 | a phx_reply settles the waiting future of the call or join it names, with its payload, and no other; no other key goes; a reply for an ended call changes no key and no future |
| ChannelClientClass.ChannelClient.Heartbeat | py/src/esr/ipc/channel_client.py:223-232 | exactly on an open socket one phoenix heartbeat frame without join_ref goes out, under a ref above all earlier ones |
| ChannelClientClass.ChannelClient.ReaderEnds | py/src/esr/ipc/channel_client.py:270-275 | pushes are queued from now on, and exactly if allowed one new loop starts, under a fresh number, the others staying as they are |
| ChannelClientClass.ChannelClient.SocketCloses | py/src/esr/ipc/channel_client.py:270-272 | the socket takes no more frames, and those written stay |
| ChannelClientClass.ChannelClient.ConnectFails | py/src/esr/ipc/channel_client.py:286-295 | topics and loops stay as they were, and the object stays valid |
| ChannelClientClass.ChannelClient.Reconnected | py/src/esr/ipc/channel_client.py:295-305 | the object is inside an attempt from the state before, with its accounts of topics, answers and queue |
| ChannelClientClass.ChannelClient.RejoinNext | py/src/esr/ipc/channel_client.py:306-310 | the next topic comes from the snapshot and is held under its old handler and a fresh ref, or the flush begins; the attempt in progress is kept |
| ChannelClientClass.ChannelClient.FlushOne | py/src/esr/ipc/channel_client.py:313-316 | one entry leaves the ring through push, and the attempt in progress is kept |
| ChannelClientClass.ChannelClient.FlushPending | py/src/esr/ipc/channel_client.py:312-323 | on an open link the flush loop empties the queue, writes exactly the pushes to joined topics in order and returns; if it was the loop of the attempt in progress, all that an attempt restores is restored |
| ChannelClientClass.ChannelClient.BeginClose | py/src/esr/ipc/channel_client.py:109-116 | the newest loop and its suspended join are gone, no future of theirs is left waiting, and no later run starts another loop |
| ChannelClientClass.ChannelClient.EndClose | py/src/esr/ipc/channel_client.py:120-122 | no run from here writes a frame until the next connect |
| BridgeRuns.ToolCallEndsOnce | py/src/cc_channel_runner/mcp_server.py:322-364 | in every interleaving a call returns at most once, a finished call holds no key and late or repeated results change nothing, success content is a tool_result with its own req_id after an ok ack of its own phx ref, and a push error is the error ack of that ref |
| BridgeRuns.EarlyResultIsReturned | py/src/cc_channel_runner/mcp_server.py:341-354 | a result that arrives while the push ack is outstanding is never lost to a timeout or a later result: the call goes on awaiting its ack, or ends with that result, with its error ack or by a failed push; the ok ack ends it with that result |
| BridgeRuns.TimelyResultIsReturned | py/src/cc_channel_runner/mcp_server.py:350-364 | a call that waits for its result takes the first tool_result envelope with its req_id: over any further run without cancellation in which its timer does not beat its resume it is about to return that envelope or has returned it, and when it resumes it does |
| BridgeRuns.AckDecides | py/src/cc_channel_runner/mcp_server.py:341-349 | a push that waits is answered by the first phx_reply with its ref: status error ends the call with that error, any other object sends it on to its result or returns the one that is there, a reply that is no object makes it raise; a call that ends leaves no key |
| BridgeRuns.FailedSendRaises | py/src/cc_channel_runner/phx_client.py:197-202 | a send that fails makes its call raise and drop its key, whatever has come for it meanwhile |
| BridgeRuns.TimeoutIsFinal | py/src/cc_channel_runner/mcp_server.py:354-359 | a call whose timer fires first ends timed out whatever results come before it resumes, and holds no key |
| BridgeRuns.EnvelopeIsRead | py/src/cc_channel_runner/phx_receive.py:78-111 | by the JSON of an envelope: a session_killed object or a truthy value that is no object ends the receive loop, nothing else does, and only a tool_result with a text req_id touches a pending call |
| BridgeRuns.OtherFramesPass | py/src/cc_channel_runner/phx_receive.py:65-75 | of the other frames only the end of the channel ends the loop, and none touches a call |
| BridgeRuns.ResultReachesCall | py/src/cc_channel_runner/phx_receive.py:114-140 | a tool_result envelope, by its JSON, settles the waiting future of the call it names |
| BridgeRuns.RefsNeedSocket | py/src/cc_channel_runner/phx_client.py:89-103 | without a socket joins are refused, and without one or while closing heartbeats stay away; otherwise a join waits under the next ref and a heartbeat only draws one |
| BridgeRuns.StepKeeps | py/src/cc_channel_runner/phx_receive.py:65-75 | each step keeps the links between calls, waiters, futures and frames, and changes no outcome or settled future |
| BridgeRuns.EveryFrameHasOneFate | py/src/cc_channel_runner/phx_client.py:208-230 | each inbound frame went to exactly one place: the inbox in arrival order, a future as the only frame to settle its ref, or dropped after an earlier frame settled that ref |
| BridgeRuns.CloseLeavesNothingWaiting | py/src/cc_channel_runner/phx_client.py:151-171 | once close is through, now and later, the pending map is empty and no push waits for its ack |
| BridgeObjects.PhoenixChannelClient.StartPush | py/src/cc_channel_runner/phx_client.py:175-197 | the ref was never used before, and is pending with a waiting future |
| BridgeObjects.PhoenixChannelClient.ReceiveOne | py/src/cc_channel_runner/phx_client.py:217-230 | the frame goes to exactly one place: the inbox exactly when it is no phx_reply to a pending ref, otherwise the waiting future of its ref, or nowhere because an earlier reply settled that future; nothing else changes |
| BridgeObjects.PhoenixChannelClient.FinishClose | py/src/cc_channel_runner/phx_client.py:161-171 | every pending future that was not done has failed, the others keep their value, the map is empty |
| BridgeObjects.BridgeMCPServer.ResolvePendingToolCall | py/src/cc_channel_runner/phx_receive.py:114-140 | the key is popped and only a waiting future under that key takes the payload |
| BridgeObjects.BridgeProcess.DispatchTool | py/src/cc_channel_runner/mcp_server.py:322-343 | the call is refused exactly without configuration, waits for its ack exactly when connected and joined, and otherwise has raised; it has ended well with no key left, or waits under a ref no other call was pushed under |
| BridgeObjects.BridgeProcess.AfterPush | py/src/cc_channel_runner/mcp_server.py:341-349 | push and key are gone; the call has ended well (no key, late results change nothing, content and error are its own), or waits for its result after an ok ack of its own ref |
| BridgeObjects.BridgeProcess.AfterWait | py/src/cc_channel_runner/mcp_server.py:350-364 | the content is the payload of the result unless the timer was first, and then the call timed out; either way it has ended well, and content was taken by the receive loop with its own req_id |
| BridgeObjects.BridgeProcess.ExpireWait | py/src/cc_channel_runner/mcp_server.py:350-354 | the timer settles the waiting future of the call, so that a later result is dropped |
| BridgeObjects.BridgeProcess.CancelCall | py/src/cc_channel_runner/mcp_server.py:360-362 | a cancelled call has ended well: its key is gone and late results change nothing |
| BridgeObjects.BridgeProcess.ReceiveTurn | py/src/cc_channel_runner/phx_receive.py:65-111 | no call returns; a tool_result settles the waiting future of the call it names, with its payload, and no other |
| BridgeObjects.BridgeProcess.Join | py/src/cc_channel_runner/phx_client.py:89-111 | refused without a socket and nothing changes; otherwise it waits under a ref no push had before |
| BridgeObjects.BridgeProcess.Receive | py/src/cc_channel_runner/phx_client.py:208-230 | with the frame, every frame so far has gone to exactly one place |
| BridgeObjects.BridgeProcess.Close | py/src/cc_channel_runner/phx_client.py:151-171 | nothing is pending, and every suspended push has its answer or its failure |
| BridgeObjects.NextReached | py/src/cc_channel_runner/mcp_server.py:322-364 | a process that made one more step is again in a reachable state with the run invariants, and changed no outcome and no settled future |
| Poller.ChatPoller.OnPage | adapters/feishu/src/esr_feishu/adapter.py:934-954 | one page updates seen ids, bootstrap flag and queue as specified |
| Poller.Collect | adapters/feishu/src/esr_feishu/adapter.py:935-944 | marks every id and gathers exactly the unseen, unrepeated messages unless bootstrapping |
| Poller.QueueIsDelivered | adapters/feishu/src/esr_feishu/adapter.py:908-958 | for a growing log with unique ids read in pages of the newest 20, the queue is exactly what each poll shows that no earlier page showed |
| Poller.FreshIsNew | adapters/feishu/src/esr_feishu/adapter.py:935-944 | a page adds exactly its items with an id, not seen before and not repeated on the page, in order |
| Poller.EmptyPollsDoNothing | adapters/feishu/src/esr_feishu/adapter.py:934 | polls that find no items change nothing, so that the first message decides where delivery begins |
| Poller.SuffixIffGapsFit | adapters/feishu/src/esr_feishu/adapter.py:908-958 | the queue is the whole log suffix after the first page if and only if at most 20 messages arrive between polls |
| Poller.QueueInLogOrder | adapters/feishu/src/esr_feishu/adapter.py:908-958 | whatever the gaps, the queue is a subsequence of the log in log order without repeated ids |
| Uri.Canonical | py/src/esr/uri.py:97-177 | every accepted string can be rebuilt, the rebuilt string parses to the same URI without query, and rebuilding again gives the same string |
| Uri.BuildThenParse | py/src/esr/uri.py:180-258 | building from well-formed parts succeeds and parsing gives the parts back |
| Uri.ParsedIsWF | py/src/esr/uri.py:97-177 | an accepted URI has a non-empty host without delimiters, a non-empty org if any, a known type and two or more non-empty segments |
| UriGrammar.AcceptsIff | py/src/esr/uri.py:97-177 | parse accepts exactly the texts of the generic syntax of section 3 of RFC 3986 with the esr conditions on authority, port and segments |
| UriGrammar.GrammarParses | py/src/esr/uri.py:97-177 | such a text parses to what it is written of: its org, host, port number, non-empty segments and query |
| Uri.BuildersRefuse | py/src/esr/uri.py:190-249 | exactly which parts the two builders refuse |
| Uri.QueryIsKept | py/src/esr/uri.py:103-107 | a query changes nothing but the query of what is parsed |
| Resource.ResourceRoundTrip | py/src/esr/uri.py:292-362 | a resource URI built for an allowed pair, a hash and a delimiter-free instance and host parses back to media type, hash, extension and environment |
| Resource.BuildFailsIffNoHost | py/src/esr/uri.py:334-362 | for a hash and an allowed pair building is refused if and only if the host is empty |
| Resource.NameIsReadIff | py/src/esr/uri.py:318-328 | a resource name is a hash of 64 lower-case hex digits (a newline after them slips through), a dot and an allowed extension in any case, and nothing else |
| Resource.ResourceIsReadIff | py/src/esr/uri.py:307-316 | parse_resource accepts exactly the resources URIs of three segments with a known media type and such a name |
| Resource.BuildResourceRefuses | py/src/esr/uri.py:345-362 | build_resource refuses exactly a bad hash, a pair outside the allowlist and an empty host |
| Media.FilesStayHonest | py/src/esr/resource/media/__init__.py:96-119 | in every interleaving of store calls over sources left alone while read, every visible file hashes to its name |
| Media.RenameIsHonestIff | py/src/esr/resource/media/__init__.py:103-119 | for a call that has its hash, in any interleaving that leaves its source alone from then on, its rename keeps every file honest if and only if the source as it was after the hash still hashes to the name |
| Media.RewrittenSourceLies | py/src/esr/resource/media/__init__.py:103-119 | for any store, call and new content: rewritten after the hash and then copied, the file has an honest name if and only if the new content has the hash of the old one |
| Media.RefsStayExact | py/src/esr/resource/media/__init__.py:121-126 | in every interleaving, with crashes and changed sources, each refs file is the lines appended to it in order, one per finished call and none otherwise |
| Media.AloneStores | py/src/esr/resource/media/__init__.py:96-129 | run without interference the steps of one call have the effect of the sequential store |
| Media.StoreCanFinish | py/src/esr/resource/media/__init__.py:96-126 | from any store some run of a new call stores its file if it was absent and adds its ref line |
| Media.NoTmpIsLeft | py/src/esr/resource/media/__init__.py:113-119 | unless calls crash, no temporary file outlives its call, whatever the interleaving |
| Media.StoredResolves | py/src/esr/resource/media/__init__.py:65-83 | the URI of a stored file resolves to that file in the same instance |
| Media.ResolveRefuses | py/src/esr/resource/media/__init__.py:65-83 | a resource URI of another instance is refused for its environment; one of this instance or of none resolves exactly when its file is there |
| Media.ResolvesToPresent | py/src/esr/resource/media/__init__.py:65-83 | whatever resolves is a file that is there, of an allowed kind and named by a hash |
| Media.SuffixIsRead | py/src/esr/resource/media/__init__.py:100 | a suffix is read as its extension in lower case, and no suffix as bin |
| Media.AllowlistsAgree | py/src/esr/resource/media/__init__.py:28-32 | the store's allowlist is the URI module's |
| Media.MediaStore.Store | py/src/esr/resource/media/__init__.py:86-129 | refusals touch nothing; otherwise the file is there under an honest name, one ref line was added, nothing else changed, the URI fails exactly for an empty host and otherwise resolves back |
| Media.ReadAll | py/src/esr/resource/media/__init__.py:103-107 | reading in chunks of 65536 gives the whole content |
| Actions.RoundTrip | py/src/esr/ipc/envelope.py:179-224 | deserialising undoes serialising for all five kinds of action |
| Actions.ReadIsSpelled | py/src/esr/ipc/envelope.py:211-224 | only the wire form of an action, with absent objects taken as empty, is read as that action: unknown types and missing keys are refused |
| Actions.AllRoundTrip | py/src/esr/ipc/handler_worker.py:105-108 | each action of a reply is recovered at its place |
| Sorting.SortIgnoresOrder | py/src/esr/ipc/handler_worker.py:134-135 | two iteration orders of one set sort to the same list |
| Sorting.LessIff | py/src/esr/ipc/handler_worker.py:134-135 | the order sorted by is the one of code points, a prefix coming first |
| Worker.DumpIgnoresOrder | py/src/esr/ipc/handler_worker.py:132-142 | equal values dump equally through any nesting of tuples and dicts |
| Worker.PersistedAgrees | py/src/esr/ipc/handler_worker.py:43-108 | for a state model whose load undoes its dump, any event sequence gives the same actions and the dump of the same state through the worker as in memory |
| Worker.RaisesIff | py/src/esr/ipc/handler_worker.py:51-107 | exactly which calls raise: `dict()` refuses the args with a ValueError (a non-empty string, or a list whose first bad item is a sequence of wrong length), or takes them and the handler key is unhashable, or the registered handler gets a state that is no object or returns something ill typed |
| Worker.PairsRaiseIff | py/src/esr/ipc/handler_worker.py:57 | `dict()` of a list raises a ValueError exactly when its first item that is no hashable pair is a sequence of another length, and succeeds exactly when every item is such a pair |
| Worker.PairsAreRead | py/src/esr/ipc/handler_worker.py:57 | a list of pairs with text keys is read as the dict in which later pairs win |
| Worker.OddItemsAreRead | py/src/esr/ipc/handler_worker.py:57 | two-character strings and two-key objects are pairs too, and an unhashable key is refused |
| Worker.TextArgsRaise | py/src/esr/ipc/handler_worker.py:57-59 | for any registry the args `"abc"` and `["abc"]` make the call raise, while `""` and `[]` are read as no args |
| Worker.RefusalsAre | py/src/esr/ipc/handler_worker.py:58-71 | exactly which calls are answered as malformed, as of an unknown handler and as without a state model |
| Worker.WrongVersionIsRefused | py/src/esr/ipc/handler_worker.py:73-81 | a state is refused for its version exactly when its tag is neither null nor the registered number (true and false counting as 1 and 0) |
| Worker.DriftIsRefused | py/src/esr/ipc/handler_worker.py:99-103 | a state dumped under another version of its model is refused on reload |
| Worker.HandlerAnswers | py/src/esr/ipc/handler_worker.py:87-108 | what a registered handler answers, by what its state model and its body do |
| FeishuThread.PersistsFaithfully | handlers/feishu_thread/src/esr_handler_feishu_thread/state.py:26-36 | the thread handler runs the same through the worker as in memory, for every set order |
| FeishuThread.WindowIsLastNotified | handlers/feishu_thread/src/esr_handler_feishu_thread/state.py:38-48 | over every run the dedup set is the set of the dedup order, which is duplicate-free and is the last 1000 non-empty ids notified |
| FeishuThread.NotifiedIffNotRecent | handlers/feishu_thread/src/esr_handler_feishu_thread/on_msg.py:34-59 | over every run from the empty state a message with an id is notified if and only if its id is not among those |
| FeishuThread.ReplyChatIsFirst | handlers/feishu_thread/src/esr_handler_feishu_thread/on_msg.py:42-74 | the reply chat is the first chat heard from and never changes once set |
| FeishuThread.RepliesGoToFirstChat | handlers/feishu_thread/src/esr_handler_feishu_thread/on_msg.py:62-74 | over every run output goes to the first chat heard from and is dropped before there is one |
| FeishuThread.SessionHearsLetThrough | handlers/feishu_thread/src/esr_handler_feishu_thread/on_msg.py:34-59 | over every run the notifications, read back, are exactly the inbound messages that a reference keeping only ids lets through, in order, with their own id, chat, sender and content, under the session id of the thread |
| FeishuThread.RepeatsAreFarApart | handlers/feishu_thread/src/esr_handler_feishu_thread/state.py:38-48 | over every run an id is notified again only after 1000 other notified ids |
| FeishuThread.AddKeepsWindow | handlers/feishu_thread/src/esr_handler_feishu_thread/state.py:38-48 | remembering an id again changes nothing, and a new one slides the window |
| FeishuThread.NoStateIsEmpty | py/src/esr/ipc/handler_worker.py:53-88 | a first call without state starts from the empty thread state |
| FeishuApp.PersistsFaithfully | handlers/feishu_app/src/esr_handler_feishu_app/state.py:8-17 | the app handler runs the same through the worker as in memory, for every set order |
| FeishuRelay.PlainIsRelayed | handlers/feishu_app/src/esr_handler_feishu_app/on_msg.py:61-67 | over every run a plain message is routed, read back as an event with all its arguments, to the thread of the latest accepted session command in its chat, and nowhere exactly when there is none |
| FeishuApp.RunTracks | handlers/feishu_app/src/esr_handler_feishu_app/state.py:19-30 | over every run the bound threads are all accepted names and each chat's active thread is its latest one |
| FeishuRelay.AtIsRelayed | handlers/feishu_app/src/esr_handler_feishu_app/on_msg.py:140-154 | over every run an at-message is routed to the named thread, with its body as content and every other argument as it was, exactly when an accepted command named that thread |
| FeishuRelay.RelayReachesSession | handlers/feishu_thread/src/esr_handler_feishu_thread/on_msg.py:34-59 | end to end: fed to the thread handler, the routed message notifies the session with the original id, chat and sender and the original content or the body, unless that id is among the last 1000 notified |
| FeishuApp.ActionsAreBound | handlers/feishu_app/src/esr_handler_feishu_app/on_msg.py:122-154 | every route leads to a bound thread, every command carries a non-empty thread name and workspace and its own options and chat |
| FeishuApp.BoundGrows | handlers/feishu_app/src/esr_handler_feishu_app/state.py:19-22 | bound threads only grow along a run |
| FeishuApp.NoStateIsEmpty | handlers/feishu_app/src/esr_handler_feishu_app/state.py:8-17 | a first call without state starts from the empty app state |
| FeishuApp.SessionOf | handlers/feishu_app/src/esr_handler_feishu_app/on_msg.py:74-118 | an accepted session command has a non-empty name and workspace |
| FeishuApp.CommandIsRead | handlers/feishu_app/src/esr_handler_feishu_app/on_msg.py:74-118 | a command written as a workspace and tokens one space apart is read as exactly those |
| FeishuApp.ThreadCommandIsRead | handlers/feishu_app/src/esr_handler_feishu_app/on_msg.py:86-92 | the legacy thread command is read as its first word in the legacy workspace |
| FeishuApp.DefaultNameIs | handlers/feishu_app/src/esr_handler_feishu_app/on_msg.py:115-118 | without a name the session is called by the first twelve characters after the first underscore of the message id |
| FeishuApp.CommandOpensSession | handlers/feishu_app/src/esr_handler_feishu_app/on_msg.py:120-137 | an accepted command makes exactly one invocation that carries the session; other command texts and other events do nothing |
| FeishuApp.LastChatIsKept | handlers/feishu_app/src/esr_handler_feishu_app/on_msg.py:39-42 | over every run the last chat is that of the last message with one |
| FeishuApp.ParseOptions | handlers/feishu_app/src/esr_handler_feishu_app/on_msg.py:96-110 | the token loop computes the fold of the option rule |
| SessionOptions.FoldReads | handlers/feishu_app/src/esr_handler_feishu_app/on_msg.py:95-110 | with one token per key, cwd and worktree are the values given, a non-empty name= wins, and tag= counts when there is no name= |
| SessionOptions.OrderDoesNotMatter | handlers/feishu_app/src/esr_handler_feishu_app/on_msg.py:95-118 | every permutation of such tokens reads the same |
| SessionOptions.OrderFreeIffUnambiguous | handlers/feishu_app/src/esr_handler_feishu_app/on_msg.py:95-118 | order is irrelevant if and only if no empty name= stands beside a non-empty tag= |
| Capabilities.MatchesTransitive | py/src/esr/capabilities.py:93-137 | grant matching is transitive |
| Capabilities.MatchesIff | py/src/esr/capabilities.py:93-137 | on written-out grants the prefix is literal and name and permission are literal or a whole-segment star; a bare star grants all |
| Capabilities.ShapelessNeedsStar | py/src/esr/capabilities.py:102-107 | a string without a slash, or without a colon before it, is granted by the bare star alone and grants nothing itself |
| Capabilities.RedundantGrantDrops | py/src/esr/capabilities.py:83-91 | dropping a grant matched by another held grant never changes an answer |
| Capabilities.FreshCacheAgrees | py/src/esr/capabilities.py:45-91 | for any sequence of edits, corruptions, deletions and checks where equal mtimes imply equal contents, the gated checker answers as one that rereads every time |
| Capabilities.DocumentGrants | py/src/esr/capabilities.py:75-80 | a loaded document gives a principal exactly the grants of the last entry with its id, and none without one |
| Capabilities.SameMtimeHidesEdit | py/src/esr/capabilities.py:61-63 | for any cache and any file with the remembered mtime, no check is answered differently from rereading if and only if rereading does not raise and for every principal the old and the new grants cover each other |
| Capabilities.SameGrantsIff | py/src/esr/capabilities.py:83-91 | two grant lists answer every check alike if and only if each grant of one that can match anything is matched by the other |
| Capabilities.RevokedGrantSurvives | py/src/esr/capabilities.py:61-63 | a grant revoked without a change of mtime is still honoured |
| Capabilities.CapabilitiesChecker.Open | py/src/esr/capabilities.py:39-43 | construction reloads once: there is no checker exactly when that raises, and otherwise it answers by the last entry of each principal in the file |
| Capabilities.CapabilitiesChecker.ReloadFile | py/src/esr/capabilities.py:45-81 | missing file empties, same mtime or malformed keeps the snapshot, a document gives each principal the grants of its last entry and none without one, and the mtime is taken unless the reload raises |
| Capabilities.CapabilitiesChecker.Has | py/src/esr/capabilities.py:83-91 | the answer is whether a held grant matches after a reload; on a newly read document whether a grant of the last entry of the principal matches |
| Ledger.Check | scripts/verify_ledger_append_only.py:22-49 | the loop reports exactly the violations of each readable version against the readable one before it, and none if and only if each is a prefix of the next and every added row is acceptable |
| Ledger.CheckVersion | scripts/verify_ledger_append_only.py:31-47 | exactly: fewer rows than before, each changed row, and each added row of seven cells or more whose sixth is no approved type, no rule and not the header |
| Ledger.CleanCoversAll | scripts/verify_ledger_append_only.py:39-48 | then every row of every version is acceptable and no version loses an earlier row |
| LedgerAppend.NextIter | scripts/ledger_append.py:27-39 | one more than the largest row number: above every numbered row, and just above one of them or 1 |
| LedgerAppend.RowIsAccepted | scripts/ledger_append.py:76-80 | a row with an approved type and fields without bars or breaks is acceptable |
| LedgerAppend.RowIsRejectedIff | scripts/verify_ledger_append_only.py:39-47 | of the rows written for plain fields the checker rejects exactly those whose type is not approved, a rule or the header |
| LedgerAppend.EnumsAgree | scripts/ledger_append.py:15-24 | the script takes exactly the types the checker approves |
| LedgerAppend.AppendAddsRowIffClosed | scripts/ledger_append.py:79-80 | appending adds exactly one row at the end if and only if the text is empty or ends with a line break |
| LedgerAppend.GrownHistoryIsClean | scripts/ledger_append.py:76-80 | any number of appends to such a text gives a history the checker accepts |
| LedgerAppend.NumbersGrow | scripts/ledger_append.py:27-39 | the appended row is numbered above every earlier row |

## Left out

- Sockets, HTTP sessions, the MCP SDK, the Lark SDK, JSON and YAML decoding, clocks and backoff: they appear as steps or as decoded values.
- Liveness: the code lets a join, a push and `receive()` hang after a drop, so only safety is stated.
- Delivery of inbound channel frames to topic handlers: handlers are opaque callbacks; the model tracks which one is registered.
- ChannelReconnect.ReconnectRestores: does not cover an attempt during which somebody else joins one of its own topics or a topic of a queued push, resumes a refused older join of such a topic, or an older reconnect loop moves: each of these changes what is restored.
- ChannelDrops.DropMidRejoinForgets: has the same condition on joins by others.
- `connect()` of the bridge client after its `close()`: the bridge's main never does it, and the model does not let it reopen.
- Translation of tool results and bridge errors to text content, and notification parameters.
- Query strings of URIs are carried undecoded; ports are ASCII decimals, not every spelling `int()` takes. The same holds for row numbers of the ledger.
- `lower()` on extensions is ASCII; no allowed extension has a letter another character lowers to.
- Keys of `args` that are no strings: `dict()` keeps them, the model drops them, and no handler looks one up.
- Action fields of a wrong JSON type: `deserialise_action` passes them through, the model reports an error.
- The handler registries' decorators, the worker's queue loop, adapter runners, allowlists, CLI mains, URL discovery, mocks, the browser code: plumbing that would add easy members.
- The Elixir runtime, which is not part of this model.
