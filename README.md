# bilibili-tts-chat, modelled in Dafny

bilibili-tts-chat is a companion for a Bilibili live room. It listens to the
room's events over the open-platform long connection: danmaku, gifts, guard
(大航海) purchases, likes, paid messages (SuperChat), viewers entering, and the
start and end of a broadcast. It turns each event into a short text, either
a ready-made reply or a description for a language model to answer. It
collects these texts in a task window, asks the model for a spoken reply,
synthesises speech through Volcengine's TTS services, and plays the audio.
Viewers can pick the voice they are read with by danmaku commands.

This project models the deterministic core of that pipeline and proves its
properties:

- the binary frame of the long connection and the client's counters;
- the task window and the assistant's bounded memory;
- prompt selection, the chat client's request shaping, and its stream filter and retry loops;
- the workflow processor's configuration and status machine;
- the `.env`, settings and voice-catalogue lookups, and the per-viewer voice store;
- the three TTS clients' request shapes and their response folds;
- the audio engines' validation, format guesses and context caches;
- the voice-reply text builders;
- the event handlers, the message dispatch and the danmaku commands;
- the welcome-hint generator;
- the front end's copy of the settings.

Randomness is an index into the list it picks from; "choice" parameters select
`list[choice % |list|]`. The clock is a parameter. What JSON, YAML and base64
decoding, HTTP exchanges, sockets, audio devices and files produce is given
to the model as input; it is not computed. Where a source loop or a
state-changing object exists, the model is a method or a class proved
against a specification function, and the lemmas are about that function.

A handler that reads a field through a nil voice panics in Go; the event
loop recovers the panic, logs it and drops the event (net/websocket.go:583-590).
The model gives such a handler the outcome `Panicked`: what it would have
stored or queued is not done.

## Model

| member | source | states |
|---|---|---|
| Frame.ToInt32 | bili/websocket.go:973-977 | Go's `int32(u)` of a 32-bit unsigned value: the value itself below 2^31, wrapped to a negative one at or above it |
| Frame.ToInt16 | bili/websocket.go:974-975 | Go's `int16(u)` of a 16-bit unsigned value, wrapped the same way |
| Frame.Bits32 | bili/websocket.go:1016-1021 | the 32 bits big-endian writing puts out for an `int32` value, within `[0, 2^32)` |
| Frame.Int32Bits | bili/websocket.go:1016-1021 | reading back the written bits of any `int32` gives the value again |
| Frame.Int16Bits | bili/websocket.go:1017-1018 | the same for `int16` |
| Frame.ReadHeader | bili/websocket.go:973-977 | the five header fields read from fixed offsets 0, 4, 6, 8 and 12 |
| Frame.Unpack | bili/websocket.go:966-1004 | a frame is decoded exactly when the buffer holds the 16-byte header, the packet length is within 0..2064, the header length is 16, and any announced body is all there; the body is the bytes between header and packet length, or empty |
| Frame.Pack | bili/websocket.go:1015-1022 | the bytes `sendMsg` writes: a 16-byte header (packet length 16 + body, header length 16, version, operation, sequence id) followed by the body |
| Frame.PackLayout | bili/websocket.go:1015-1022 | the packed frame is 16 + body bytes long and ends with the body |
| Frame.HeaderOfPack | bili/websocket.go:1015-1022 | the header read from a packed frame gives back the fields written |
| Frame.UnpackPack | bili/websocket.go:966-1034 | round trip: unpacking what `sendMsg` writes returns the version, operation, sequence id and body for every body of at most 2048 bytes, and bytes after the frame are ignored |
| Frame.PackTooLong | bili/websocket.go:980-983 | a body over 2048 bytes makes the written frame undecodable |
| Frame.UnpackIgnoresTrailing | bili/websocket.go:989-995 | `unpack` reads no byte beyond the announced packet length |
| Frame.ShortPacketLengthAccepted | bili/websocket.go:988-996 | a packet length between 0 and 16 is accepted with an empty body, because a body is read only when the packet length exceeds the header length |
| LongConn.StateNamesDistinct | bili/websocket.go:62-77 | the five connection states have five distinct names |
| LongConn.StateNameUnknown | bili/websocket.go:74-76 | every other state value is named "Unknown" |
| LongConn.Inc32 | bili/websocket.go:1012 | Go's `++` on an `int32` sequence id: one more, wrapping from the maximum to the minimum |
| LongConn.UpdateKeepsMax | bili/websocket.go:322-364 | after every quality update the maximum run of consecutive errors dominates the current run and never shrinks |
| LongConn.UpdateSuccess | bili/websocket.go:333-337 | a successful connect resets the error run and counts one success |
| LongConn.UpdateErrorEvent | bili/websocket.go:338-354 | each of the four error events adds exactly one to its own counter and to the error run |
| LongConn.UpdateUnknownEvent | bili/websocket.go:322-364 | an event outside the switch changes no counter |
| LongConn.UpdateDisconnect | bili/websocket.go:341-345 | "disconnect" changes no counter |
| LongConn.IsEofErrorCases | bili/websocket.go:395-437 | `isEOFError` holds exactly for `io.EOF`, a message containing one of the patterns, or a temporary network error |
| LongConn.IsEofErrorCaseInsensitive | bili/websocket.go:400-428 | the pattern match ignores ASCII letter case |
| LongConn.ShouldAttemptReconnectRules | bili/websocket.go:440-472 | no reconnect after more than ten consecutive errors or on close codes 1008 and 1003 (section 7.4.1 of RFC 6455); a 1006 close is retried only when it looks like an EOF; everything else is retried |
| LongConn.ReadErrorEventIsError | bili/websocket.go:483-549 | exactly the normal, going-away, policy-violation and unsupported-data closes are not counted as an error event |
| LongConn.TimeoutMultiplier | bili/websocket.go:815-822 | the handshake-timeout multiplier is one more per three failed connects, between 1 and 5 |
| LongConn.TimeoutMultiplierMonotone | bili/websocket.go:815-822 | the multiplier never decreases as failures accumulate |
| LongConn.Client.constructor | bili/websocket.go:153-184 | a new client is disconnected, unauthenticated, at sequence id 0 with no reconnects |
| LongConn.Client.SetState | bili/websocket.go:790-798 | the state is written only when it differs; nothing else changes |
| LongConn.Client.UpdateConnectionQuality | bili/websocket.go:322-364 | the counters become the quality update of the event, nothing else changes |
| LongConn.Client.SendMsg | bili/websocket.go:1007-1034 | with no connection it fails with "连接为空" and leaves the sequence id alone; otherwise it advances the id, writes the packed frame stamped with it and returns the write's own outcome, and the id stays advanced when the write fails |
| LongConn.Client.SendHeartBeat | bili/websocket.go:678-696 | refused with "not authenticated", then with "connection is nil"; otherwise the id advances twice, once here and once in `sendMsg`, and the write's outcome is returned |
| LongConn.Client.AuthResp | bili/websocket.go:1037-1049 | authenticated only by a reply that parses with code 0; a missing code parses as 0 |
| LongConn.Client.Disconnect | bili/websocket.go:884-892 | afterwards no connection, not authenticated, Disconnected |
| LongConn.ConnectQuality | bili/websocket.go:808-881 | one connect counts one attempt, a success for every good dial, and a failure unless the auth frame is written; the error run restarts at 0 after a full success, at 1 after a failed auth write, and grows by one after a failed dial (see also bili/websocket.go:322-364) |
| LongConn.Client.Connect | bili/websocket.go:808-881 | a failed dial returns "连接失败: " and the dial error, and leaves the client Disconnected with one more reconnect; a failed auth write returns "认证失败: " and the write error; a good dial is followed by the auth frame and advances the sequence id; a failed auth write disconnects without counting a reconnect; the quality takes exactly the connect's events; authentication is left as it was except that a disconnect clears it |
| LongConn.Client.ManagerIteration | bili/websocket.go:255-319 | one iteration of the connection manager: stop when shutting down, changing nothing; after a failed dial or a failed auth write give up (ShuttingDown) once ten reconnects are reached, else enter Reconnecting and count a reconnect attempt in the quality; after a full success run with the count reset; the connection, authentication, sequence id and quality are those the connect leaves (see also bili/websocket.go:721-723) |
| LongConn.Client.HandleReadError | bili/websocket.go:475-565 | records the error's quality event, adjusts the back-off after an abnormal closure, disconnects, and shuts down when the error does not warrant a reconnect |
| LongConn.AbnormalBaseDelay | bili/websocket.go:497-515 | the base back-off after a 1006 close: 2 s for an EOF-like error, else 5 s, and 10 s once more than five abnormal closures are over half of all connections |
| LongConn.ReconnectDelay | bili/websocket.go:729-749 | the delay before jitter: the base doubled per reconnect, capped at 30 s, plus 5 s per consecutive error beyond five, doubled when more than half of over ten connections closed abnormally |
| LongConn.ReconnectDelayDoubles | bili/websocket.go:729-733 | without errors the delay doubles with each reconnect until the 30 s cap |
| Tasks.TaskManager.constructor | task_manager/manager.go:41-52 | a new manager is idle with an empty window, no task and counter 0 |
| Tasks.TaskManager.AddText | task_manager/manager.go:56-79 | the empty text is refused and nothing changes; otherwise a task is started when idle and the text is appended to the window and to the task |
| Tasks.TaskManager.StartNewTask | task_manager/manager.go:82-94 | the counter advances, a new task with no texts is current, and the manager runs |
| Tasks.TaskManager.CompleteTask | task_manager/manager.go:98-125 | idle: nothing handed over, nothing changes; running: the window is handed over in arrival order and the manager is idle again |
| Tasks.TaskManager.ForceCompleteTask | task_manager/manager.go:176-195 | the window is handed over and the manager reset, whatever the status |
| Tasks.TaskManager.ClearWindow | task_manager/manager.go:198-206 | only the window is emptied; the task and counter stay |
| Tasks.TaskManager.IsTaskRunning | task_manager/manager.go:128-133 | running exactly when a task record exists |
| Tasks.TaskManager.GetCurrentTexts | task_manager/manager.go:136-145 | a copy of the window, which is a suffix of the current task's texts |
| Tasks.TaskManager.GetTaskInfo | task_manager/manager.go:148-165 | the current record, absent exactly when idle |
| Tasks.TaskManager.GetWindowSize | task_manager/manager.go:168-173 | the window's size; non-zero only while a task runs |
| EventCache.LastN | llm/cache_data.go:14-22 | the last `n` events of a sequence, all of them when there are fewer |
| EventCache.AddEvent | llm/cache_data.go:18-21 | the oldest event is dropped when the cache already holds the memory size or more, then the new event goes last |
| EventCache.AddEventBounded | llm/cache_data.go:18-21 | for a memory size of at least one the bound on the cache's length is kept |
| EventCache.AddAllIsLastN | llm/cache_data.go:14-22 | a cache holding the last events of a history keeps holding the last memory-size events, in insertion order, as more are added |
| EventCache.CacheHoldsMostRecent | llm/cache_data.go:14-29 | starting empty, the cache holds exactly the most recent memory-size events |
| EventCache.Cache.constructor | llm/cache_data.go:15-17 | the cache starts empty |
| EventCache.Cache.AddCacheEventData | llm/cache_data.go:14-22 | the contents become `AddEvent` of the old contents |
| EventCache.Cache.GetCacheEventData | llm/cache_data.go:24-29 | the contents, unchanged |
| Prompt.AnalyzeEventType | llm/prompt.go:27-50 | the joined messages are classified by the first tag, in fixed priority, that occurs in them; no tag gives the mixed kind |
| Prompt.AnalyzeEventTypeSingle | llm/prompt.go:27-50 | a single text with a tag and no tag of higher priority is classified by that tag |
| Prompt.AnalyzeGuardLevel | llm/prompt.go:53-62 | 总督 before 提督 before 舰长, else the generic guard name |
| Prompt.AnalyzeGiftValue | llm/prompt.go:65-87 | "高价值" exactly when one of the twelve keywords occurs, else "普通" |
| Prompt.EventSpecificGuidance | llm/prompt.go:95-200 | the guidance for each event kind; guard guidance follows the guard level, gift guidance the gift value |
| Prompt.LengthRequirement | llm/prompt.go:220-226 | danmaku windows ask for 30-50 characters, the other listed kinds for 25-40, the rest for 20-35 |
| Prompt.GuidanceText | llm/prompt.go:95-200 | each guidance is its own fixed text with the assistant's name in every verb: it opens with the text before the first verb and contains the name |
| Prompt.GeneratePrompt | llm/prompt.go:203-264 | the prompt is the fixed template filled in its verbs' order: it opens by naming the assistant, and contains the room description, the guidance chosen for the window's event type, the space-joined messages and the newline-joined history, and ends with the length requirement and "）：" |
| Prompt.DanmakuWins | llm/prompt.go:27-50 | a window containing any danmaku gets the danmaku guidance and a prompt ending with the longest length requirement, 30-50字, whatever else it holds (see also llm/prompt.go:219-224) |
| LlmClient.DefaultConfig | llm/client.go:71-93 | the singleton's configuration uses the Volcengine provider, three attempts and a non-empty system prompt |
| LlmClient.PrepareMessages | llm/client.go:173-188 | a non-empty system prompt is put first as a "system" message and the caller's messages follow unchanged; with no system prompt the messages go out as given |
| LlmClient.EndpointURL | llm/client.go:325-336 | Claude posts to "/messages", Gemini to "/models/<model>:generateContent", and every other provider to "/chat/completions" below the base URL |
| LlmClient.RequestHeaders | llm/client.go:339-353 | every request is JSON; Claude gets exactly the key and version headers, every other provider exactly a bearer token |
| LlmClient.BearerExactlyWhenNotClaude | llm/client.go:339-353 | an "Authorization" header is present exactly when the provider is not Claude, and "x-api-key" exactly when it is |
| LlmClient.StreamEventsShape | llm/client.go:356-412 | everything sent before the last item is a non-empty content chunk without error; the last item is the Done signal exactly when the scan succeeds |
| LlmClient.StreamIgnoresNonData | llm/client.go:362-365 | adding or removing a line without the "data: " prefix changes nothing that is sent or returned |
| LlmClient.DoneStops | llm/client.go:370-377 | a "[DONE]" data line sends one Done item and ends the scan successfully, whatever lines follow |
| LlmClient.ProcessStreamResponse | llm/client.go:356-412 | the scan loop sends exactly the items of the line filter and returns its error |
| LlmClient.RetryStreamSucceeds | llm/client.go:191-210 | the streamed request succeeds exactly when one of the first `MaxRetries` attempts succeeds |
| LlmClient.RetryStreamGivesUp | llm/client.go:191-210 | when every attempt fails, the error is "流式请求失败，已重试 ", the attempt count, " 次: " and the last attempt's error, or "<nil>" when no attempt ran |
| LlmClient.PerformStreamRequest | llm/client.go:191-210 | the retry loop does what `RetryStream` specifies: it sends what each attempt sent, in order, up to the first success, and on giving up returns the retry error with the last attempt's error |
| LlmClient.DoStreamMethod | llm/client.go:213-252 | one attempt: an HTTP failure sends nothing and fails; otherwise the body's scan |
| LlmClient.FirstOkSpec | llm/client.go:255-274 | the answer is an attempt's success with every earlier attempt failed, and the request fails exactly when all `MaxRetries` attempts fail |
| LlmClient.FirstOkGivesUp | llm/client.go:255-274 | when every attempt fails, the error is "请求失败，已重试 ", the attempt count, " 次: " and the last attempt's error, or "<nil>" when no attempt ran |
| LlmClient.PerformRequest | llm/client.go:255-274 | the loop does what `FirstOk` specifies: the first success among the first `MaxRetries` attempts, or the retry error with the last attempt's error |
| LlmClient.Client.constructor | llm/client.go:71-93 | a new client is configured and open, with no cancel function |
| LlmClient.Client.IsReady | llm/client.go:503-508 | ready exactly when open, configured and holding a non-empty API key |
| LlmClient.Client.Close | llm/client.go:511-526 | closing always succeeds and leaves the client closed with its cancel function still stored; closing a closed client changes nothing |
| LlmClient.Client.Reopen | llm/client.go:529-538 | reopening leaves the client open with no cancel function |
| LlmClient.Client.Chat | llm/client.go:148-170 | a closed client is refused with "客户端已关闭" and an empty message list with "消息列表不能为空", and nothing is sent; otherwise the prepared messages are sent and the answer is what `FirstOk` gives for the attempts |
| LlmClient.Client.ChatStream | llm/client.go:96-129 | the same refusals with the same texts; otherwise the prepared messages are sent and the channel carries what the retry loop sent, followed, when it gave up, by one Done item with no content carrying the retry error |
| Workflow.DefaultConfig | workflow/processor.go:69-92 | the starting configuration satisfies the bounds `SetConfig` enforces: three attempts, volume 80, text length between 1 and 1000 |
| Workflow.Normalize | workflow/processor.go:95-123 | each correction: check interval at least 100 ms, at least one retry, an out-of-range volume replaced by 80, minimum length at least 1, a maximum below the minimum replaced by minimum + 100; every other field kept; the result always satisfies the bounds |
| Workflow.NormalizeKeepsValid | workflow/processor.go:103-118 | a configuration already within the bounds is stored unchanged |
| Workflow.NormalizeIdempotent | workflow/processor.go:103-118 | setting a configuration that `SetConfig` has already corrected changes nothing more |
| Workflow.AddInt64 | workflow/processor.go:117 | Go's 64-bit `int` addition stays within the 64-bit range |
| Workflow.MaxTextLengthAsWritten | workflow/processor.go:116-118 | the length correction exactly as written, with the addition wrapping; a maximum not below the minimum is kept |
| Workflow.MaxTextLengthWraps | workflow/processor.go:116-118 | a minimum within 100 of the largest `int` makes the corrected maximum negative, below the minimum |
| Workflow.TotalTextLengthAppend | workflow/processor.go:294-300 | the total length of two lists of texts is the sum of their totals |
| Workflow.TotalTextLengthZero | workflow/processor.go:294-300 | the total is zero exactly when every text is blank once trimmed |
| Workflow.CalculateTotalTextLength | workflow/processor.go:294-300 | the loop sums the byte lengths of the trimmed texts; zero exactly when all are blank |
| Workflow.PrepareMessages | workflow/processor.go:387-409 | no texts is an error; otherwise the newline-joined texts, kept whole up to `MaxTextLength` bytes and cut at that byte with "..." appended beyond it, never longer than `MaxTextLength` + 3 bytes |
| Workflow.Contents | workflow/processor.go:443-449 | the contents of the received items, one per item, in order |
| Workflow.CollectConcatenates | workflow/processor.go:430-449 | with no error item and no timeout, the reply is every item's content concatenated in order, and an empty concatenation is the "empty response" error |
| Workflow.CollectErrorFails | workflow/processor.go:445-447 | an item carrying an error that arrives before the timeout makes the call fail |
| Workflow.CollectTimesOut | workflow/processor.go:431-432 | a timeout that fires before any error item makes the call time out, whatever follows |
| Workflow.CallLLM | workflow/processor.go:412-453 | the receive loop gives the result the fold describes, and a success is never empty |
| Workflow.AttemptResult | workflow/processor.go:345-357 | an attempt succeeds only when there are texts and the model call succeeds |
| Workflow.EmptyTaskFails | workflow/processor.go:387-390 | with no texts every attempt fails |
| Workflow.Processor.constructor | workflow/processor.go:69-92 | a new processor is stopped, has the default configuration and no voice, and its counters are zero |
| Workflow.Processor.SetConfig | workflow/processor.go:95-123 | no configuration is an error and keeps the old one; otherwise the corrected configuration is stored, so the bounds always hold |
| Workflow.Processor.SetVoiceConfig | workflow/processor.go:126-137 | no voice is an error and keeps the old one; otherwise the voice is stored |
| Workflow.Processor.Start | workflow/processor.go:140-176 | refused, in this order, when already running, when the model client is not ready and when no voice is set, changing nothing; otherwise running with a cancel function, from the given time |
| Workflow.Processor.Stop | workflow/processor.go:179-194 | stopping a stopped processor is an error; otherwise it becomes stopped |
| Workflow.Processor.IsRunning | workflow/processor.go:197-201 | true exactly when the status is running |
| Workflow.Processor.GetStatus | workflow/processor.go:204-208 | the current status |
| Workflow.Processor.CheckAndProcessTasks | workflow/processor.go:262-291 | a running task whose window is non-empty and whose trimmed byte length reaches the minimum is completed and its texts handed over; otherwise nothing changes and nothing is handed over |
| Workflow.Processor.ProcessTask | workflow/processor.go:303-342 | the task is counted and stamped; when some attempt within `MaxRetries` succeeds, the first such attempt ends it and counts one success; otherwise all `MaxRetries` attempts are made and one failure is counted; finished tasks never outnumber started ones |
| TaskPipeline.CollectStopsAtDone | task_manager/task.go:128-151 | up to the first Done item the reply is every content concatenated in order, the Done item's own included; nothing after it is read |
| TaskPipeline.CollectToClose | task_manager/task.go:133-136 | a stream that closes without Done, error or cancellation returns all its contents, even when that is nothing |
| TaskPipeline.CollectErrorFails | task_manager/task.go:139-141 | an error item before any Done item and before cancellation fails the call with that error |
| TaskPipeline.ReceiveStream | task_manager/task.go:128-152 | the receive loop gives the result of the fold |
| TaskPipeline.CallLLMStreamSpec | task_manager/task.go:96-153 | outside mock mode an unready client fails before any stream is opened; a stream that cannot be opened fails |
| TaskPipeline.GenerateSpeech | task_manager/task.go:156-176 | speech succeeds exactly when there is a voice and the synthesiser returns non-empty audio, and then it is that audio |
| TaskPipeline.RunOutcome | task_manager/task.go:33-92 | a completed run has a non-empty reply, non-empty audio, a voice and started playback, and was not cancelled at any checkpoint outside the stream; cancellation before the model call stops it there |
| TaskPipeline.PlayEventTasks | task_manager/task.go:16-93 | with no running task nothing changes; otherwise the task is completed, the manager is left idle with an empty window, no texts stops the run, and the run's outcome is the one the steps describe |
| TaskPipeline.CompletesWhenAllSucceed | task_manager/task.go:33-92 | a run that is never cancelled, gets a non-empty reply, has a voice, gets audio and starts playback completes with that reply and audio |
| EnvConfig.SplitLines | config/env_config.go:144-145 | the content falls into at least one line, none containing a newline |
| EnvConfig.SplitLinesJoin | config/env_config.go:144-145 | joining the lines with newlines gives the content back, so no character is lost or invented |
| EnvConfig.IndexOf | config/env_config.go:150 | the first position of a character, and none exactly when it does not occur |
| EnvConfig.UnquoteOneLayer | config/env_config.go:154-159 | exactly one layer of matching double or single quotes is removed |
| EnvConfig.UnquoteMismatched | config/env_config.go:154-159 | a value opened and closed by different quotes is kept as it is |
| EnvConfig.ParseLine | config/env_config.go:146-162 | a line is skipped exactly when, trimmed, it is empty, starts with "#" or has no "="; otherwise it gives its entry |
| EnvConfig.SplitEntry | config/env_config.go:150-160 | an entry exists exactly when the line has an "="; its key is the trimmed text before the first "=", its value the trimmed, unquoted rest |
| EnvConfig.ApplyStep | config/env_config.go:160 | each entry sets its key to its value in the map |
| EnvConfig.ApplyKeys | config/env_config.go:143-163 | the keys afterwards are the keys that were there plus the keys some entry defines |
| EnvConfig.ApplyLastWins | config/env_config.go:160 | a key ends with the value of the last entry that defines it |
| EnvConfig.ParseLinesKeys | config/env_config.go:143-163 | the parsed map's keys are the ones already present and the ones some line defines |
| EnvConfig.ParseLinesLastWins | config/env_config.go:143-163 | when a key is defined on several lines, the last one wins |
| EnvConfig.ParseEnvContent | config/env_config.go:143-163 | the scan loop leaves the map the line fold describes |
| EnvConfig.GetStringWithDefault | config/env_config.go:43-52 | a present key gives its value, even an empty one; a missing key gives the default |
| EnvConfig.GetIntWithDefault | config/env_config.go:53-57 | a present key that parses as a decimal integer gives that integer; a missing or unparsable one gives the default |
| EnvConfig.GetBoolWithDefault | config/env_config.go:58-62 | a present key is true exactly for "true", "1", "yes" or "on" in any case; only a missing key gives the default |
| EnvConfig.BoolIgnoresDefault | config/env_config.go:58-62 | a present "false" reads as false even when the default is true |
| EnvConfig.GetVal | config/env_config.go:99-114 | a non-empty embedded value wins; otherwise a sensitive key is empty and any other key takes the local value or the empty string |
| EnvConfig.SensitiveIgnoresLocal | config/env_config.go:105-109 | no local file can change a sensitive key |
| EnvConfig.LoadEnv | config/env_config.go:117-136 | the B站 credentials are read as sensitive, the others not; an empty mode becomes dev; mock mode is on only for the exact text "true" |
| EnvConfig.LoadEnvDefaults | config/env_config.go:127-136 | with no mode set anywhere the mode is dev, and "TRUE" does not turn the mock on |
| EnvConfig.IsDev | config/env_config.go:176-178 | development mode exactly when the mode is dev |
| EnvConfig.LoadedIsDev | config/env_config.go:127-136 | the loaded settings are in development mode exactly when the mode read is empty or "dev" |
| EnvConfig.GetBiliAppID | config/env_config.go:189-194 | the App ID parsed as an integer, or 0 when it is not one |
| UserConfig.ClampTo | config/user_config.go:83-105 | the nearest value within the bounds: inside them unchanged, below them the lower bound, above them the upper bound |
| UserConfig.ClampIdempotent | config/user_config.go:83-105 | clamping a clamped value changes nothing |
| UserConfig.ClampMonotone | config/user_config.go:83-105 | clamping keeps order |
| UserConfig.GetVolume | config/user_config.go:83-92 | the stored volume clamped to [1, 100] |
| UserConfig.GetSpeechRate | config/user_config.go:102-105 | the stored speech rate clamped to [-50, 100] |
| UserConfig.InRangeUnchanged | config/user_config.go:83-105 | an in-range volume or rate is returned as stored |
| UserConfig.GettersMonotone | config/user_config.go:83-105 | a larger stored volume or rate never reads back smaller |
| UserConfig.GettersIdempotent | config/user_config.go:83-105 | saving what the getters return and reading it back gives the same values |
| UserConfig.Store.constructor | config/user_config.go:31-58 | the loaded settings become the current ones |
| UserConfig.Store.GetRoomIDCode | config/user_config.go:67-69 | the stored room id code |
| UserConfig.Store.GetRoomDescription | config/user_config.go:71-73 | the stored room description |
| UserConfig.Store.GetMaxUserDataLen | config/user_config.go:75-77 | the stored user-data limit |
| UserConfig.Store.GetCleanupInterval | config/user_config.go:79-81 | the stored cleanup interval |
| UserConfig.Store.GetAssistantName | config/user_config.go:94-96 | the stored assistant name |
| UserConfig.Store.GetAssistantMemorySize | config/user_config.go:98-100 | the stored memory size |
| UserConfig.Store.GetUseLLMReplay | config/user_config.go:107-109 | the stored LLM-reply switch |
| UserConfig.Store.IfFirstStart | config/user_config.go:111-113 | the stored first-start flag |
| UserConfig.Store.Volume | config/user_config.go:83-92 | the volume read from the stored settings always lies in [1, 100] |
| UserConfig.Store.SpeechRate | config/user_config.go:102-105 | the speech rate read from the stored settings always lies in [-50, 100] |
| UserConfig.Store.SaveUserConfig | config/user_config.go:116-136 | the in-memory settings become the saved ones even when writing the file fails; a failed write is reported as an error |
| VoiceConfig.WithGender | config/voice_config.go:93-98 | a partition holds only voices of the list with that gender, and is no longer than the list |
| VoiceConfig.IndexByKeys | config/voice_config.go:73-102 | the keys of each index are exactly the keys of the listed voices |
| VoiceConfig.IndexByStep | config/voice_config.go:88-91 | each voice sets its own key in the index |
| VoiceConfig.WithGenderStep | config/voice_config.go:93-98 | each voice is appended to its gender's partition and to no other |
| VoiceConfig.IndexByLast | config/voice_config.go:88-91 | last writer wins: a key maps to the last voice in the list carrying it |
| VoiceConfig.IndexByValues | config/voice_config.go:73-102 | every indexed voice is a listed voice and carries the key it is indexed under |
| VoiceConfig.WithGenderExact | config/voice_config.go:93-98 | a voice is in a partition exactly when it is listed with that gender |
| VoiceConfig.OtherGenderInNeither | config/voice_config.go:93-98 | a voice whose gender is neither "male" nor "female" is in neither partition |
| VoiceConfig.RandomOf | config/voice_config.go:169-180 | nothing exactly for an empty list, otherwise one of its voices |
| VoiceConfig.Store.constructor | config/voice_config.go:40-70 | the loaded list is kept and every index is built from it |
| VoiceConfig.Store.BuildVoiceIndexes | config/voice_config.go:73-102 | one pass leaves the list unchanged and every index equal to the one the list defines |
| VoiceConfig.Store.GetVoices | config/voice_config.go:111-115 | the voice list |
| VoiceConfig.Store.GetVoiceByID | config/voice_config.go:118-132 | a voice exactly when some listed voice has the id, and then the last listed voice with it; no random fallback |
| VoiceConfig.Store.GetVoiceByName | config/voice_config.go:135-149 | a known name gives its indexed voice; an unknown name falls back to a random voice; nothing only when there are no voices |
| VoiceConfig.Store.GetVoiceByType | config/voice_config.go:152-166 | the same for the voice type |
| VoiceConfig.Store.GetRandomVoice | config/voice_config.go:169-180 | nothing exactly when there are no voices, otherwise one of them |
| VoiceConfig.Store.GetMaleVoices | config/voice_config.go:183-196 | the male voices, in list order |
| VoiceConfig.Store.GetFemaleVoices | config/voice_config.go:199-212 | the female voices, in list order |
| VoiceConfig.Store.GetRandomMaleVoice | config/voice_config.go:215-226 | a male voice of the list, or nothing when there is none |
| VoiceConfig.Store.GetRandomFemaleVoice | config/voice_config.go:229-240 | a female voice of the list, or nothing when there is none |
| AppConfig.KeyedByIdKeys | config/config.go:71-135 | a table built entry by entry files every entry under its own id |
| AppConfig.TableKeysAreIds | config/config.go:71-135 | every entry of the built-in voice table is filed under its own id |
| AppConfig.GetEnvWithDefault | config/config.go:168-173 | a set, non-empty variable gives its value; an unset or empty one gives the default |
| AppConfig.MissingVars | config/config.go:176-191 | "TTS_ACCESS_KEY" is reported exactly when the access key is empty and "TTS_APP_ID" exactly when the app id is, in that order |
| AppConfig.ValidateEnvConfig | config/config.go:176-191 | validation passes exactly when both credentials are set; otherwise the error lists the missing names as Go prints a slice |
| AppConfig.LoadEnvConfig | config/config.go:149-165 | both credentials are read from the environment with an empty default, and loading succeeds exactly when both are set |
| AppConfig.GetTTSAccessKey | config/config.go:274-281 | the configured access key, or empty when there is no configuration |
| AppConfig.GetTTSAppID | config/config.go:284-291 | the configured app id, or empty when there is no configuration |
| AppConfig.DefaultConfig | config/config.go:251-258 | the fallback configuration has no identity code and exactly the default voice |
| AppConfig.GetIdCode | config/config.go:261-271 | the configured identity code; an unset code reads as empty |
| AppConfig.GetVoiceInfoByID | config/config.go:366-377 | a known id gives its table entry; any other id gives a placeholder named after the id, described "未知音色", of unknown gender |
| AppConfig.InfoKeepsId | config/config.go:366-377 | whatever the id, the resolved information carries that id |
| AppConfig.GetVoiceIDs | config/config.go:300-307 | the ids of the configured voices, one per voice, in order |
| AppConfig.GetVoiceInfos | config/config.go:310-327 | each configured voice resolved against the table, in order |
| AppConfig.InfosWithGenderExact | config/config.go:380-390 | an entry is in the gender filter exactly when it has that gender and is the resolution of some configured voice |
| AppConfig.GetVoiceInfosByGender | config/config.go:380-390 | one pass keeps the resolved entries of the requested gender, in order |
| AppConfig.GetVoicesByGender | config/config.go:393-400 | one voice per entry of the gender filter, with its id, each of them a configured voice |
| AppConfig.GetRandomVoice | config/config.go:330-340 | the default voice when none is configured, otherwise one of the configured voices |
| AppConfig.GetRandomVoiceInfo | config/config.go:349-352 | the resolved information of the random voice, carrying its id |
| AppConfig.GetVoiceByID | config/config.go:355-363 | the first configured voice with the id, or nothing exactly when no configured voice has it |
| UserVoice.CleanupDays | user/user_voice.go:289-292 | the configured number of days when positive, otherwise 30 |
| UserVoice.MaxUsers | user/user_voice.go:132-135 | the configured limit when positive, otherwise 1000 |
| UserVoice.Inactive | user/user_voice.go:296-302 | exactly the stored users last active strictly before the cutoff |
| UserVoice.Kept | user/user_voice.go:304-310 | exactly the users active at or after the cutoff, each with its entry unchanged |
| UserVoice.CleanupPartition | user/user_voice.go:284-313 | every user is either kept or removed, never both, and the kept and removed counts add up to the store's size |
| UserVoice.CleanupIdempotent | user/user_voice.go:284-313 | a second cleanup with the same cutoff removes nobody |
| UserVoice.Cutoff | user/user_voice.go:289-293 | the cutoff lies a whole number of days before now: the configured days when positive, otherwise 30 |
| UserVoice.Converted | user/user_voice.go:106-115 | the old format keeps every user and voice type, all stamped with the same current time |
| UserVoice.Registry.constructor | user/user_voice.go:42-74 | the store starts empty and not yet loaded |
| UserVoice.AfterLoad | user/user_voice.go:77-144 | a second load changes nothing; after the first, a missing file gives an empty store, a read or parse failure keeps what was there, and otherwise every stored entry is the file's entry, or for the old format its voice type stamped with now |
| UserVoice.StoredUserSurvivesLoad | user/user_voice.go:99-143 | a user in a new-format file is in the store after the first load, with the file's entry, exactly when the file is within the limit or the user was active since the cutoff |
| UserVoice.Registry.LoadUserVoices | user/user_voice.go:77-144 | loading happens once and leaves the store `AfterLoad` describes: a missing file starts empty, a read or parse failure keeps what is there, the new format is taken and the old one converted, and a store over the limit loses its inactive users |
| UserVoice.Registry.LoadGate | user/user_voice.go:131-142 | a store larger than the limit is cleaned up; any other is left as it is |
| UserVoice.Registry.ConvertLegacy | user/user_voice.go:106-115 | the conversion loop gives the converted store |
| UserVoice.Registry.GetUserVoice | user/user_voice.go:42-74 | the store is loaded first; then a newcomer gets a random voice, stored with its type and the current time, and with no voices nothing is stored; a known user's time is refreshed and the voice of the stored type, or a random one, is returned |
| UserVoice.Registry.SetUserVoice | user/user_voice.go:200-225 | the store is loaded first; then only an empty catalogue is refused, changing nothing; otherwise the resolved voice's type is stored with the current time before saving, so a failed save still leaves the entry; a known type is stored as given |
| UserVoice.Registry.GetAllUserVoices | user/user_voice.go:228-240 | the store is loaded first; then a copy equal to the loaded store |
| UserVoice.Registry.GetUserCount | user/user_voice.go:243-250 | the store is loaded first; then the number of users in the loaded store |
| UserVoice.Registry.UpdateUserActivity | user/user_voice.go:253-266 | the store is loaded first; then only a known user's time changes; an unknown user is not added |
| UserVoice.Registry.CleanupInactiveUsers | user/user_voice.go:269-281 | the store is loaded first; then it keeps exactly the users active since the cutoff, and the count is the number removed from the loaded store |
| UserVoice.Registry.CleanupInactiveUsersInternal | user/user_voice.go:284-313 | the store keeps exactly the users active since the cutoff, and the count is the number removed |
| UserVoice.Registry.DeleteUsers | user/user_voice.go:305-310 | every listed user is deleted, the others keep their entries, and each deletion is counted |
| UserVoice.Registry.CollectInactive | user/user_voice.go:296-302 | each inactive user is listed exactly once |
| TtsWebSocket.VoiceToCluster | tts_api/websocket_tts.go:536-541 | the ICL cluster exactly for a voice longer than two bytes starting with "S_", otherwise the ordinary cluster |
| TtsWebSocket.VoiceToClusterPrefix | tts_api/websocket_tts.go:536-541 | "S_" alone is an ordinary voice, and "S_" followed by anything is a cloned one |
| TtsWebSocket.IsConnectionError | tts_api/simple_tts.go:122-131 | no error is not a connection error |
| TtsWebSocket.ConnectionErrorIff | tts_api/simple_tts.go:122-131 | an error is a connection error exactly when its message contains "connection", "websocket", "bad MASK" or "closed network" |
| TtsWebSocket.ConnectionErrorSurvivesWrapping | tts_api/websocket_tts.go:293-311 | a connection error wrapped with text in front is still one, so a lost connection seen while reading is retried |
| TtsWebSocket.IsTimeoutError | tts_api/websocket_tts.go:374-383 | no error is not a timeout |
| TtsWebSocket.TimeoutErrorExact | tts_api/websocket_tts.go:374-383 | an error is a timeout exactly when its message contains "timeout" or "deadline exceeded"; the "i/o timeout" test adds nothing |
| TtsWebSocket.FillDefaults | tts_api/websocket_tts.go:232-241 | an empty voice becomes the default voice, an empty encoding the default encoding, an empty cluster the cluster of the chosen voice; the text and anything set are kept |
| TtsWebSocket.FillDefaultsIdempotent | tts_api/websocket_tts.go:232-241 | a retried request, filled again, does not change |
| TtsWebSocket.DefaultRequest | tts_api/websocket_tts.go:232-241 | a request with only text goes to the default voice and encoding on the ordinary cluster |
| TtsWebSocket.BuildPayload | tts_api/websocket_tts.go:244-269 | the body carries the credentials, the filled voice, encoding and cluster, the text, a "submit" operation with timestamps and the markdown filter left on |
| TtsWebSocket.BackoffMs | tts_api/websocket_tts.go:220-222 | every wait is at least one second |
| TtsWebSocket.BackoffGrows | tts_api/websocket_tts.go:220-222 | each wait is longer than the one before, and the three waits are 1 s, 2.5 s and 5 s |
| TtsWebSocket.ReadTimeoutNotRetried | tts_api/websocket_tts.go:296-312 | a read that times out counts as a timeout but is not a connection error, so it is not retried |
| TtsWebSocket.Receive | tts_api/websocket_tts.go:459-533 | a response is finished, carries no error, holds at most 50 MiB and extends what was gathered; a lost connection is always a failure |
| TtsWebSocket.ReceiveGathersAudio | tts_api/websocket_tts.go:459-533 | with nothing failing on the way and 50 MiB not exceeded, the response is every audio chunk in order up to the one with a negative sequence |
| TtsWebSocket.ReceiveServerErrorFails | tts_api/websocket_tts.go:459-533 | a server error before the response ends fails the receive with that error |
| TtsWebSocket.Client.constructor | tts_api/websocket_tts.go:63-74 | a new client has the credentials, the fixed endpoint, three reconnect attempts, no connection and zero statistics |
| TtsWebSocket.Client.ConnectionHealthy | tts_api/websocket_tts.go:173-192 | healthy only with a connection, activity within the last 60 s and a ping that goes through |
| TtsWebSocket.Client.IsConnected | tts_api/websocket_tts.go:166-171 | connected only when marked connected and the connection is healthy |
| TtsWebSocket.Client.UnhealthyWhen | tts_api/websocket_tts.go:166-192 | each failed check (no connection, over 60 s idle, failed ping) makes the connection unhealthy, and a client marked disconnected never reports connected |
| TtsWebSocket.Client.NetworkHealth | tts_api/websocket_tts.go:345-371 | healthy before any request; afterwards unhealthy exactly when more than half the requests failed, more than 30% timed out, or more than three failed and the last one is under 30 s old |
| TtsWebSocket.Client.UpdateNetworkStats | tts_api/websocket_tts.go:323-342 | every call counts a request; a failure is counted with its time, and as a timeout when it was one; a success sets the average response time to the first time or to the mean of the old average and the new time; timeouts never outnumber failures nor failures requests |
| TtsWebSocket.Client.ConnectUnsafe | tts_api/websocket_tts.go:84-144 | a healthy connection is kept as it is; otherwise a failed dial counts one reconnect attempt and reports it, and a successful one connects and resets the count |
| TtsWebSocket.Client.Disconnect | tts_api/websocket_tts.go:147-164 | nothing happens unless connected; otherwise the context is cancelled, the connection dropped and the close result returned; afterwards the client never reports connected |
| TtsWebSocket.Client.ReceiveResponse | tts_api/websocket_tts.go:459-533 | the read loop gives the receive fold's result, and a connection error on a read marks the client disconnected |
| TtsWebSocket.Client.SendAndReceive | tts_api/websocket_tts.go:276-320 | a failed send is retried exactly when it is a connection error and a retry is left, marks the connection unhealthy then, otherwise ends with "failed to send request: " and the error, and is not counted; a received response counts one request, and one failure unless it is a success; a failed receive is retried exactly when its error is a connection error and a retry is left, otherwise the receive's result is returned |
| TtsWebSocket.Client.TryOnce | tts_api/websocket_tts.go:204-320 | a failed connect retries with the same request exactly when a retry and a reconnect attempt are left, and otherwise ends with "连接失败，已达到最大重试次数: " and the connect error naming the attempt count; once connected, the pass does what sending and receiving the filled request do; a pass finishes successfully exactly when it connects, sends and receives a success; a failure's error is one of the pass's own errors |
| TtsWebSocket.Client.SendTTSRequestWithRetry | tts_api/websocket_tts.go:204-320 | at most three retries, each preceded by its back-off wait; the result is the last pass's: a success is its finished response within 50 MiB after a send that went through, and a failure is one of its own errors |
| TtsWebSocket.TTSWebSocketWithOptions | tts_api/websocket_tts.go:544-587 | the audio returned is that of a finished response received in one of the passes, after a send that went through, and is at most 50 MiB; an error is one of the errors of one of the passes, returned unchanged |
| SimpleTts.Pool.constructor | tts_api/simple_tts.go:44-57 | a new pool has its maximum size, no clients, nothing waiting, and is open |
| SimpleTts.Pool.CreateNewClient | tts_api/simple_tts.go:154-182 | a full pool hands out the oldest waiting client, reconnecting it when needed, or times out when none waits, creating nothing; otherwise a dialled client is added and counted, and a failed dial changes nothing; the size never passes the maximum |
| SimpleTts.Pool.ReturnClient | tts_api/simple_tts.go:185-195 | a connected client goes back to the end of the queue unless the queue is full; otherwise it is dropped |
| SimpleTts.Pool.Close | tts_api/simple_tts.go:198-210 | the pool is closed with no client waiting; the clients it created are unchanged |
| SimpleTts.Service.constructor | tts_api/simple_tts.go:213-224 | the service starts with no pool and the switch off |
| SimpleTts.Service.InitSimpleTTS | tts_api/simple_tts.go:213-224 | afterwards the switch is on with a pool of five; a second call keeps the existing pool |
| SimpleTts.Service.EnsureConnection | tts_api/simple_tts.go:330-337 | initialises when not initialised, and keeps an existing pool |
| SimpleTts.Service.CloseSimpleTTS | tts_api/simple_tts.go:340-351 | the pool, when there is one, is closed and dropped, and the switch is off |
| SimpleTts.Service.SendThroughPool | tts_api/simple_tts.go:298-327 | no pool is an error; otherwise the worker's reply, or the queueing or waiting timeout |
| SimpleTts.Service.TextToAudioWithVoice | tts_api/simple_tts.go:268-295 | the pool is made sure of, the text goes out with the given voice and the default encoding and cluster, and the result is the reply's audio |
| SimpleTts.Delivered | tts_api/simple_tts.go:308-326 | a reply is passed on as it is; either timeout is an error different from the missing-pool one |
| SimpleTts.AudioOf | tts_api/simple_tts.go:283-294 | audio exactly when the reply succeeded with no error text, and then the reply's audio |
| TtsHttp.BuildRequest | tts_api/tts_http.go:95-124 | no voice is refused before empty text is; otherwise the request speaks the text with the voice's type as 24 kHz MP3 with timestamps, for the room's id code |
| TtsHttp.BuildHeaders | tts_api/tts_http.go:175-183 | exactly the five headers: the credentials, the voice's resource id, JSON and keep-alive |
| TtsHttp.HeadersCount | tts_api/tts_http.go:175-183 | the five header names are distinct, so none overwrites another |
| TtsHttp.StreamAudioAppend | tts_api/tts_http.go:190-221 | lines before any end-of-stream line contribute their chunks in order, followed by what the rest contributes |
| TtsHttp.StreamAudioStops | tts_api/tts_http.go:212-215 | nothing after an end-of-stream line is read |
| TtsHttp.StreamResult | tts_api/tts_http.go:223-231 | the scan succeeds exactly when there is no read error and some audio was gathered, and then it is that audio |
| TtsHttp.ProcessStreamResponse | tts_api/tts_http.go:186-232 | the scan loop gives the fold's result: blank, unparsable and undecodable lines and error codes are skipped, code-0 data is appended, the end-of-stream code stops |
| TtsHttp.ProcessRequest | tts_api/tts_http.go:127-172 | a request that cannot be sent, a status other than 200 and a failed stream are errors with the source's texts; it succeeds exactly on a 200 whose stream gives audio, with that audio, its size and the log id |
| TtsHttp.GenerateSpeech | tts_api/tts_http.go:95-124 | a refused request sends nothing; otherwise the request and headers go to the voice's resource, and the result is what `ProcessRequest` states: each failure with its text, and success exactly on a 200 whose stream gives audio |
| TtsApi.BuildRequest | tts_api/tts_api.go:50-64 | the fixed user and namespace, the default voice and encoding, 24 kHz at 64 kbit/s, and the text |
| TtsApi.BuildHeaders | tts_api/tts_api.go:70-76 | exactly the five headers: JSON, the app id, the access key, the fixed resource id and the request id |
| TtsApi.PartsAppend | tts_api/tts_api.go:93-120 | lines that neither fail nor end the stream add their parts, in order, in front of what follows |
| TtsApi.EndHidesLaterLines | tts_api/tts_api.go:116-119 | after the end-of-stream line nothing more is read, not even a failing line |
| TtsApi.AbortWins | tts_api/tts_api.go:106-109 | the first line with a code other than 0 and the end code decides the outcome, whatever follows |
| TtsApi.TtsResult | tts_api/tts_api.go:122-134 | a success is the parts joined with nothing between them, and there is at least one part; a failing line's error is passed on |
| TtsApi.CollectParts | tts_api/tts_api.go:92-120 | the scan loop gives the parts up to the end-of-stream line, or the first failing line's error |
| TtsApi.TTS | tts_api/tts_api.go:45-135 | a failed HTTP request is an error; otherwise the result of the scan |
| AudioEngine.ValidatePlay | voice/engine.go:264-284 | empty data is refused exactly; otherwise the volume is clamped to [1, 100] |
| AudioEngine.ValidateFormat | voice/engine.go:349-369 | the format is accepted exactly when the data is non-empty, the volume lies in [1, 100], the rate is positive and there are one or two channels; empty data and an out-of-range volume are reported first, in that order |
| AudioEngine.StrictRefusesWhatLenientClamps | voice/engine.go:264-369 | a volume outside [1, 100] is clamped by `PlayAudio` but refused by `PlayAudioWithFormat` |
| AudioEngine.DetectPCMFormat | voice/engine.go:183-211 | the nested loops return the first (rate, channels) pair, in table order, whose length lasts between 0.1 s and 10 s at a preferred rate, or 24 kHz mono |
| AudioEngine.FirstFitClosedForm | voice/engine.go:183-211 | the guess is 24 kHz mono for 4800 to 480000 bytes, 24 kHz stereo up to 960000, 22.05 kHz mono from 4410, 16 kHz mono from 3200, and 24 kHz mono otherwise; 22.05 kHz stereo, 16 kHz stereo and the other rates are never chosen |
| AudioEngine.DetectedFormatIsSupported | voice/engine.go:183-211 | the guess always has a preferred rate and one or two channels |
| AudioEngine.ItoaHasNoUnderscore | voice/engine.go:71 | a decimal number contains no underscore |
| AudioEngine.ContextKeyInjective | voice/engine.go:69-99 | different formats get different cache keys, so a cached context is reused only for its own format |
| AudioEngine.CreateError | voice/engine.go:89-93 | the creation error names the rate and ends with the cause |
| AudioEngine.ThroughContext | voice/engine.go:150-154 | playing through a format's context succeeds exactly when it is cached or made; otherwise the error is "获取音频上下文失败: " and the creation error |
| AudioEngine.WithContext | voice/engine.go:69-99 | the cache only grows, keeps every old entry, and holds the format's key exactly when it already did or making it passed |
| AudioEngine.PlayFormat | voice/engine.go:124-229 | MP3 plays in stereo at the decoder's rate; other data at the guessed PCM format, which has a preferred rate and one or two channels |
| AudioEngine.PlayOutcome | voice/engine.go:124-258 | `playAudioInternal` fails exactly on empty data, on PCM data under four bytes, or when its format's context is missing and cannot be made, with the source's texts |
| AudioEngine.PlayContexts | voice/engine.go:124-258 | refused data leaves the cache alone; otherwise every old context is kept |
| AudioEngine.CachedContextIsReused | voice/engine.go:69-258 | once the data's format has a cached context, playback succeeds and the cache is unchanged, whatever making a context would give |
| AudioEngine.Engine.constructor | voice/engine.go:39-66 | the engine starts running, with no contexts |
| AudioEngine.Engine.GetOrCreateContext | voice/engine.go:69-99 | a cached context is returned with nothing changed; otherwise a new one is cached under the format's key, one more entry, unless creating it fails, which changes nothing |
| AudioEngine.Engine.PlayPCMData | voice/engine.go:214-258 | fewer than four bytes is refused with nothing changed; otherwise the result is `ThroughContext` and the cache `WithContext` of the guessed format, and a failure changes nothing |
| AudioEngine.Engine.PlayAudioInternal | voice/engine.go:124-180 | the result is `PlayOutcome` and the cache `PlayContexts`: empty data is refused, MP3 uses a stereo context at the decoder's rate, other data is played as raw PCM; a failure changes nothing |
| AudioEngine.Engine.PlayAudio | voice/engine.go:264-341 | empty data is refused, a task the queue does not take in time times out, and a queued task plays at the clamped volume and returns the worker's `PlayOutcome`, with the cache `PlayContexts`; a failure changes nothing |
| AudioEngine.Engine.PlayAudioWithFormat | voice/engine.go:349-393 | a failed check is returned with nothing changed; after passing checks the result is `ThroughContext` and the cache `WithContext` of the given format; success leaves its context cached |
| AudioEngine.Engine.Shutdown | voice/engine.go:396-415 | the worker is cancelled, every context dropped and the engine stopped |
| VoiceEngine.SniffFormat | voice_engine/engine.go:565-572 | the data is MP3 exactly when it has at least three bytes and starts with "ID3" or an MPEG frame sync (0xFF, then a byte whose top three bits are set); everything else, including any shorter data, is WAV |
| VoiceEngine.TaggedIsMp3 | voice_engine/engine.go:565-572 | data starting with an ID3 tag, and a frame header with at least one byte after it, are played as MP3 |
| VoiceEngine.RiffIsWav | voice_engine/engine.go:565-572 | a RIFF header is played as WAV |
| VoiceEngine.GetVoiceDescription | voice_engine/engine.go:265-268 | a known voice is described by its name and its description in full-width parentheses; an unknown one by its id and "未知音色" |
| VoiceEngine.ContextParams | voice_engine/engine.go:117-172 | the context is opened with the MP3's rate in stereo, with the WAV's own format, or at 44.1 kHz stereo for any other format; a decoder error is reported with the format's message |
| VoiceEngine.Playback | voice_engine/engine.go:99-114 | a task plays exactly when it is MP3 or WAV, its decoder accepts it and it is not cancelled while playing; an unsupported format is an error naming it |
| VoiceEngine.Manager.constructor | voice_engine/engine.go:57-66 | the global manager starts with no output context and its worker running |
| VoiceEngine.Manager.Start | voice_engine/engine.go:69-79 | afterwards the worker runs |
| VoiceEngine.Manager.EnsureOtoContext | voice_engine/engine.go:117-172 | an existing context is kept and nothing fails; otherwise the context is opened with the task's parameters and kept only when opening succeeds, each failure with its own message |
| VoiceEngine.Manager.PlayAudioTask | voice_engine/engine.go:99-114 | the shared context, once open, never changes; with it the task's outcome is its playback; without it the task fails with the context's own error (a format or header it cannot take, or "failed to create oto context: " and the open error), and a context that opens is the one the format asks for |
| VoiceEngine.Manager.PlayAudioWithQueue | voice_engine/engine.go:82-96 | a context cancelled before queueing, or by the time the worker takes the task, gives its error and changes nothing; otherwise the task's playback; success means the context is open and the playback passed (see also voice_engine/engine.go:236-252) |
| VoiceEngine.Manager.PlayVoiceFromBytesWithContext | voice_engine/engine.go:554-576 | a context already done is refused before sniffing; otherwise the data is queued in its sniffed format |
| VoiceEngine.Manager.PlayVoiceFromBytes | voice_engine/engine.go:628-644 | the data is queued in its sniffed format with a context that is never cancelled, so with an open context the result is its playback |
| LikeVoice.Bumped | voice_engine/play_like.go:99-105 | one more like from a user raises that user's count by one, adds the user's entry if missing, and leaves every other count as it was |
| LikeVoice.BumpedTimesCount | voice_engine/play_like.go:99-105 | after k likes in a row the user's count has grown by exactly k, and nobody else's count has moved |
| LikeVoice.ResetThenBump | voice_engine/play_like.go:99-113 | after a reset the user's next like counts as the first of a new combo, and other users keep their counts |
| LikeVoice.LikeTier | voice_engine/play_like.go:116-129 | the super-combo templates are used exactly from five likes in a row, the combo templates exactly from two to four, and the ordinary ones exactly below two; no tier is empty |
| LikeVoice.AddEmotion | voice_engine/play_like.go:132-146 | the text always comes back unchanged, because the only emotion word is empty |
| LikeVoice.LikeText | voice_engine/play_like.go:148-157 | the announcement is some template of the combo count's tier filled with the user's name |
| LikeVoice.ComboCounter.constructor | voice_engine/play_like.go:19-22 | the combo map starts empty |
| LikeVoice.ComboCounter.GetUserLikeCombo | voice_engine/play_like.go:99-105 | the user's count goes up by one and the new count is returned; a user without an entry gets 1 |
| LikeVoice.ComboCounter.ResetUserLikeCombo | voice_engine/play_like.go:108-113 | the user's entry is removed, so the user's count reads 0, and the rest of the map is unchanged |
| LikeVoice.ComboCounter.PlayLikeVoice | voice_engine/play_like.go:148-157 | the like is counted and the announcement is the tier template for the new count filled with the user's name |
| GuardVoice.GuardLevelName | voice_engine/play_guard.go:76-81 | level 1 is 总督, 2 is 提督, 3 is 舰长, and any other level is 大航海 |
| GuardVoice.LevelNamesDistinct | voice_engine/play_guard.go:76-81 | each of the three levels has a name that no other level shares, the fallback included |
| GuardVoice.GuardTemplates | voice_engine/play_guard.go:84-100 | a renewal gets the renewal list exactly when it is one; otherwise levels 3, 2 and 1 get their own lists and any other level the general list; no list is empty |
| GuardVoice.IsRenewalGuard | voice_engine/play_guard.go:103-108 | no purchase is taken for a renewal |
| GuardVoice.RenewalText | voice_engine/play_guard.go:143-146 | the renewal wording is a renewal template with the user's name and the level's name in its two places |
| GuardVoice.GetGuardText | voice_engine/play_guard.go:125-153 | the text is some template of the level's own list filled with the user's name; the renewal branch is never taken |
| GuardVoice.GuardTextNamesUser | voice_engine/play_guard.go:129-153 | every guard text starts with 感谢 and the user's name follows at once |
| SuperChatVoice.GetThankText | voice_engine/super_chat.go:36 | the thanks starts with 感谢, names the user right after it and ends with the amount in decimal followed by 元留言 (see also voice_engine/super_chat.go:50-52) |
| SuperChatVoice.FormatMessage | voice_engine/super_chat.go:60-71 | the message is trimmed; a trimmed message of at most 150 runes is kept whole, a longer one becomes its first 150 runes and "..."; the result is empty exactly when the trimmed message is |
| SuperChatVoice.FormatMessageIdempotent | voice_engine/super_chat.go:60-71 | formatting an already formatted message changes nothing |
| SuperChatVoice.GetSuperChatText | voice_engine/super_chat.go:78-109 | the announcement is the thanks, "，" and one of the blessings (none of which is empty), then the formatted message or the note that there is none |
| SuperChatVoice.BlankMessageIsNoted | voice_engine/super_chat.go:98-106 | a message that is blank once trimmed is announced as having no content |
| EnterVoice.TimeGreeting | voice_engine/play_user_enter.go:68-80 | the greeting is 早上好 exactly from 5 to 11 o'clock, 下午好 exactly from 12 to 17, 晚上好 exactly from 18 to 22, and 夜深了 exactly at every other hour |
| EnterVoice.HourBucketsPartition | voice_engine/play_user_enter.go:68-80 | every hour of the clock gets one of the four greetings, and the late-night one exactly from 0 to 4 and at 23 |
| EnterVoice.GetUserEnterVoiceText | voice_engine/play_user_enter.go:87-108 | the welcome is the hour's greeting followed by some welcome template filled with the viewer's name, on both sides of the late-night test |
| GiftVoice.TwoDecimals | voice_engine/play_gift_voice.go:25 | the two-decimal rendering ends with a point and two digits |
| GiftVoice.TrimLast | voice_engine/play_gift_voice.go:27-29 | cutting a character from the right of a text that ends with it is cutting it from the text without that last character |
| GiftVoice.StripZeroDecimals | voice_engine/play_gift_voice.go:27-29 | cutting the zeros and then the point from "w.00" gives back w |
| GiftVoice.PriceTextWhole | voice_engine/play_gift_voice.go:25-29 | a price in whole yuan is written as that number with no decimals |
| GiftVoice.PriceTextCents | voice_engine/play_gift_voice.go:25-29 | a price with pennies keeps both decimals |
| GiftVoice.PriceTextTenths | voice_engine/play_gift_voice.go:25-29 | a price in tenths of a yuan keeps one decimal, dropping only the last zero |
| GiftVoice.GetGiftVoiceText | voice_engine/play_gift_voice.go:22-35 | an unpaid gift names the giver, the count and the gift; a paid one adds "，价值", its price text and 元; the voice returned is always empty |
| DanmakuVoice.DigitRun | voice_engine/play_voice.go:55-56 | the run from the given position is all ASCII digits, stays inside the text, and stops only at the end or at a character that is not a digit |
| DanmakuVoice.MatchTakesWholeRun | voice_engine/play_voice.go:55-56 | a match of `换(\d+)号音色` always captures the whole digit run after 换 |
| DanmakuVoice.FindSwitch | voice_engine/play_voice.go:55-58 | the match found is the leftmost position where the pattern matches; when none is found the pattern matches nowhere |
| DanmakuVoice.SwitchDigits | voice_engine/play_voice.go:58-60 | the captured group is a non-empty run of digits |
| DanmakuVoice.StartVoice | voice_engine/play_voice.go:43-47 | a user with a voice keeps it and nothing is stored; a user without one gets a random voice, which is stored |
| DanmakuVoice.ContentWithVoice | voice_engine/play_voice.go:41-95 | "换音色" switches to a random voice and stores it; a message with no numbered switch is read as "name说：" or "name对reply说：" in the user's voice with no switch stored; at most one voice is stored beyond the first-time one |
| DanmakuVoice.NumberedSwitchPicks | voice_engine/play_voice.go:72-84 | switch number N of a non-empty voice list selects and stores voice (N-1) mod the list's length |
| DanmakuVoice.NumberZeroSwitch | voice_engine/play_voice.go:72-78 | switch number 0 falls back to a random voice when there are two voices or more, but selects the only voice of a one-voice list, because Go's remainder of -1 by 1 is 0 |
| DanmakuVoice.FailedSwitchKeepsStore | voice_engine/play_voice.go:58-70 | a number that does not fit in an int, or a switch with no voices configured, is reported as failed and stores nothing; the first is spoken with voice "", the second with the user's voice |
| DanmakuVoice.PlayDanmakuVoice | voice_engine/play_voice.go:15-29 | a message is replied to exactly when it is not blank and at most 100 runes long once trimmed, and the reply is the trimmed message's |
| Commands.FirstPrefix | command/enter.go:14-19 | the entry found is the first whose prefix starts the text; when none is found no entry's prefix does |
| Commands.CheckIfCommand | command/enter.go:9-21 | an exact command gets an empty argument; otherwise text starting with 换 routes to the switch by name with the rest trimmed; the text is no command exactly when it is neither |
| Commands.SwitchRouting | command/enter.go:11-19 | "换音色" reaches the random switch and never the switch by name, "换" alone reaches the switch by name with an empty argument, and "我的音色" the query (see also command/command.go:16-23) |
| Commands.HandleQueryVoice | command/command.go:25-41 | the activity is refreshed, nothing is stored, and one command text is queued with the user's voice (looked up again when there was none), naming that voice when the user had one |
| Commands.Switch | command/command.go:72-80 | a switch stores the voice's type, refreshes the activity and queues the message with that voice, in that order |
| Commands.CatalogueLookups | config/voice_config.go:135-180 | the catalogue's answers: the name lookup gives the indexed voice or falls back to a random one, and both the name lookup and the random pick come back nil exactly when the catalogue holds no voices |
| Commands.HandleRandomSwitchVoice | command/command.go:43-53 | the user switches to the random voice and the message names it; with no random voice the name read panics and nothing is done |
| Commands.HandleSwitchVoiceByName | command/command.go:55-83 | a blank name switches to the random voice saying the voice does not exist; a name switches to the voice found for it, or to the random voice when none is, with the same message either way; it panics, doing nothing, exactly when the voice it would switch to is nil |
| Commands.Run | command/command.go:25-83 | every command that finishes queues exactly one command text, and only the query leaves the stored voice alone; only a switch with no random voice panics |
| Commands.CataloguePanics | command/command.go:43-83 | with the catalogue's answers, a command panics exactly when it is a switch and the catalogue holds no voices (see also config/voice_config.go:169-180, net/websocket.go:583-590) |
| DanmakuHandler.GuardNote | handler/dm/handler.go:31-36 | levels 1, 2 and 3 add （总督）, （提督） and （舰长）; every other level adds nothing |
| DanmakuHandler.EventDescription | handler/dm/handler.go:28-36 | the description names the sender and the danmaku, followed by exactly the guard note |
| DanmakuHandler.PrefixedIsLong | handler/dm/handler.go:77 | the byte-length test after 换 always holds, since 换 alone is three bytes |
| DanmakuHandler.VoiceCommand | handler/dm/handler.go:44-116 | the message is a voice command exactly when it is 我的音色 or starts with 换; a switch panics exactly when the voice it picks is nil, and otherwise stores the queued voice's type, refreshes the activity and queues one command text with that voice |
| DanmakuHandler.Handle | handler/dm/handler.go:44-124 | the query refreshes the activity and queues its answer with the user's voice; 换音色 and a blank name switch to the random voice, and a found name to its voice, each with its own message; a switch whose voice is nil panics; any other message queues its description for an LLM answer with the user's voice and calls the store for nothing |
| DanmakuHandler.CataloguePanics | handler/dm/handler.go:64-101 | with the catalogue's answers, a danmaku panics exactly when it starts with 换 and the catalogue holds no voices (see also config/voice_config.go:169-180) |
| DanmakuHandler.HandleDanmaku | handler/dm/handler.go:17-22 | undecodable input is the error with nothing done; otherwise exactly what `Handle` does, which never returns an error: it is done, or it panics on a nil voice when the message is a voice command and the catalogue is empty (see also handler/dm/handler.go:126) |
| DanmakuHandler.AgreesWithCommands | handler/dm/handler.go:44-116 | the handler treats a message as a voice command exactly when the command table routes it, and then it panics exactly when the command does, or makes the same store calls with the same voice; the texts differ only for a name with no voice found (see also command/enter.go:9-21, command/command.go:25-83) |
| Blessing.RandomBlessing | handler/common/blessing.go:8-29 | the blessing is one of the twelve fixed ones and is never empty |
| EventHandlers.Kind | handler/guard/handler.go:34-47 | the text is left to the LLM exactly when LLM replies are on, and read as it is exactly when they are off |
| EventHandlers.BlessingAfter | handler/common/blessing.go:27-29 | a reply ending with a random blessing ends with one of the fixed blessings |
| EventHandlers.DurationPrefix | handler/guard/handler.go:48-67 | the length starts with 一 for one and with the number otherwise, and ends with 的 when there is a unit and with 个 when there is none |
| EventHandlers.MonthsAreCounted | handler/guard/handler.go:49-54 | the month wording is the counted wording followed by 月的 (see also handler/guard/handler.go:61-66) |
| EventHandlers.OtherUnitsFollowNumber | handler/guard/handler.go:55-60 | any other unit is written right after the number, with no measure word |
| EventHandlers.HandleGuard | handler/guard/handler.go:17-76 | undecodable input is the error; otherwise one text is queued with the user's voice and nothing else is done: the purchase described for the LLM, or a thank-you naming its length and level and ending with a fixed blessing |
| EventHandlers.GuardDescriptionCount | handler/guard/handler.go:36-43 | the description gives the total value for more than one period and the value otherwise |
| EventHandlers.HandleGift | handler/send_gift/handler.go:17-53 | undecodable input is the error; otherwise one text is queued with the user's voice: the gift described for the LLM, or a thank-you ending with a fixed blessing |
| EventHandlers.SingleGiftHasNoCount | handler/send_gift/handler.go:29-46 | a single gift is thanked and described without a count, and its description gives its value |
| EventHandlers.HandleLike | handler/like/handler.go:17-45 | undecodable input is the error; otherwise one text is queued with the user's voice: the like count described for the LLM, or a thank-you |
| EventHandlers.LikeBlessedAboveFive | handler/like/handler.go:35-38 | the thank-you is bare exactly for at most five likes, and ends with a fixed blessing above five |
| EventHandlers.HandleSuperChat | handler/super_chat/handler.go:17-42 | undecodable input is the error; otherwise one text is queued with the user's voice: the paid message described for the LLM, or read out with its amount and a fixed blessing |
| EventHandlers.SuperChatMessageVerbatim | handler/super_chat/handler.go:29-35 | the message is carried as sent, neither trimmed nor cut, in both texts |
| EventHandlers.HandleRoomEnter | handler/live_room_enter/handler.go:19-51 | undecodable input is the error; with no user voice the log line's name read panics before anything is queued; otherwise one text is queued with the user's voice: the entry described for the LLM, or a welcome carrying the hint when one was drawn |
| EventHandlers.EnterReplyHint | handler/live_room_enter/handler.go:39-44 | the welcome is bare exactly when no hint was drawn, and a hint follows a full-width comma |
| EventHandlers.HandleLiveStart | handler/live_start/handler.go:13-37 | undecodable input is the error; otherwise the room number is announced with a random voice, left to the LLM exactly when LLM replies are on |
| EventHandlers.HandleLiveEnd | handler/live_end/handler.go:13-37 | undecodable input is the error; otherwise the end of the broadcast is announced the same way |
| EventHandlers.LiveTextsNameTheRoom | handler/live_start/handler.go:25-30 | each announcement ends with the room number, and different rooms give different announcements (see also handler/live_end/handler.go:25-30) |
| IntroPrompt.StrategyIntro | intro_promot/enter.go:29-34 | the self-introduction is always its single prompt |
| IntroPrompt.StrategyAnnouncement | intro_promot/enter.go:61-68 | the hint to read the room announcement is one of its three prompts |
| IntroPrompt.SwapAtPermutes | intro_promot/enter.go:80-82 | exchanging two positions only moves elements |
| IntroPrompt.PickIndex | intro_promot/enter.go:80-82 | the shuffle's partner for position i lies in [0, i] |
| IntroPrompt.ShuffleFromPermutes | intro_promot/enter.go:78-82 | the shuffle passes only move elements: the result is a permutation of the copy |
| IntroPrompt.ShufflePermutes | intro_promot/enter.go:78-82 | the whole shuffle is a permutation |
| IntroPrompt.RandomVoicesDrawn | intro_promot/enter.go:71-85 | the picked voices number the smaller of the count and the list's length, and are drawn from the list without reuse |
| IntroPrompt.ShuffleInPlace | intro_promot/enter.go:80-82 | the array's swaps in place leave it holding the shuffle of its old contents |
| IntroPrompt.GetRandomVoices | intro_promot/enter.go:71-85 | the list comes back whole when it has at most the count, else the first count voices of its shuffled copy |
| IntroPrompt.Names | intro_promot/enter.go:44-50 | the names are the voices' names, position by position |
| IntroPrompt.VoiceNames | intro_promot/enter.go:44-50 | the loop builds the names joined with "、", in list order |
| IntroPrompt.JoinStartsWithFirst | intro_promot/enter.go:44-50 | the joined names start with the first voice's name |
| IntroPrompt.RecommendationFallsBack | intro_promot/enter.go:37-58 | with no voices the recommendation falls back to the self-introduction; otherwise it is one of the three recommendation prompts, and the voice it names first is a configured voice |
| IntroPrompt.StrategyVoiceRecommendation | intro_promot/enter.go:37-58 | the loop and the shuffle compute the recommendation the closed definition gives |
| IntroPrompt.EnterPromotIsAStrategy | intro_promot/enter.go:16-26 | the hint is always a prompt of one of the three strategies, and the configured voices matter only when the recommendation is chosen |
| IntroPrompt.GetEnterPromot | intro_promot/enter.go:16-26 | the hint is the chosen strategy's prompt |
| Dispatch.Route | handler/0_enter.go:33-57 | a message type is routed only to the handler registered under exactly that string |
| Dispatch.RouteInvertsCmdOf | handler/0_enter.go:33-51 | every handler is reached by its own message type and by no other |
| Dispatch.InteractionEndIsUnknown | handler/0_enter.go:52-56 | the interaction-end message is an unknown type, its case being commented out |
| Dispatch.HandleMessage | handler/0_enter.go:22-58 | an envelope that does not decode is its error; a known type returns its handler's result; any other type is refused with a message naming it |
| FrontendModels.Member | wails/frontend/wailsjs/go/models.ts:21-30 | a key reads an object's own entry, and undefined exactly when the key is missing or the value is no object |
| FrontendModels.Resolve | wails/frontend/wailsjs/go/models.ts:15-20 | an omitted argument is `{}`, a text is parsed (a parse error is thrown), any other value is used as it is, and `null` throws when a key is read |
| FrontendModels.UserConfig.constructor | wails/frontend/wailsjs/go/models.ts:19-31 | each of the ten fields holds the same-named key of the value, copied as it is |
| FrontendModels.UserConfig.CreateFrom | wails/frontend/wailsjs/go/models.ts:15-17 | the result is a new settings object with the ten keys of the resolved argument, or exactly the error the constructor throws |
| FrontendModels.OtherKeysIgnored | wails/frontend/wailsjs/go/models.ts:21-30 | keys other than the ten are never read |
| FrontendModels.Marshal | config/user_config.go:12-21 | the Go settings are written as an object with exactly the ten tagged keys |
| FrontendModels.MarshalReadBack | config/user_config.go:12-21 | the front end reads every Go setting back under its own tag, with its own value (see also wails/frontend/wailsjs/go/models.ts:21-30) |

## Left out

- Goroutines, channels, mutexes, contexts and timers: the long-connection manager, read loop, event loop and health monitor, the workflow's ticker loop, the TTS pool's workers and the audio queue's worker. Each is modelled as the sequential effect of one step; interleavings are not modelled.
- The reconnect jitter and `math.Pow` in `waitForReconnect`, and every other `rand.Float64` draw. The room-enter handler's 80% draw is an `Option` hint input.
- Float-valued outputs: success-rate percentages, `GetStats`, `calculateSuccessRate`, float volume scaling during playback, and the network-health averages beyond their integer comparisons.
- `StreamingTTSClient`, the TTS heartbeat (`startHeartbeat`, `sendPing`), UUID generation, the `getTTSClient` singleton and `TextToAudioBase64WithRandomVoice`: their state sits in goroutines and sockets.
- The TTS pool's `requestProcessor`, `handleRequest` and `getClient` hand-offs. The audio engine's `GetQueueLength` and `GetActiveContexts` read channel and map sizes under a lock.
- oto contexts and players, MP3 and WAV decoding and the busy-wait play loops. `NewPlayer` is taken never to return nil, so the "无法创建…播放器" errors are not modelled. Decoder results are inputs (`VoiceEngine.Decoding`, `AudioEngine` outcomes).
- JSON, YAML and base64 encoding and decoding; `LlmClient` `doRequest`, `extractContent`, `extractStreamContent` and `GetConfig`; the HTTP clients. Each attempt's outcome and each decoded line are inputs.
- File and environment I/O: `findFileUpwards`, `getConfigFilePath`, `createEmptyConfigFile`, `saveUserVoicesInternal`, the config loaders and `ErrorInit`'s process exit. File contents and the outcome of writing are inputs.
- The speech calls and goroutines at the end of each voice builder (`PlayLikeVoice`, `PlayGuardVoice`, `PlaySuperChatVoice`, `PlayUserEnterVoice`, `PlayGiftVoice`, `PlayDanmakuVoice`): only the text is modelled, plus the voice for `PlayGiftVoice` and `PlayDanmakuVoice`. The other four pass the result of `GetUserVoice(uname)` on unchanged, and the model does not return that lookup (`EnterVoice.GetUserEnterVoiceText` returns only the text, where Go also returns the voice id); the lookup itself is `UserVoice.Registry.GetUserVoice`.
- The `TextToVoice*` and `PlayVoice*` wrappers in voice_engine/engine.go, and `playAudioFile`: they only forward to the synthesiser and the queue, or read a file.
- The thirty-second like-combo reset timer. Its effect is `LikeVoice.ComboCounter.ResetUserLikeCombo`, which the model lets a caller apply.
- The forwarders in handler/*_handler.go and the delete and interaction-end handlers: they only decode and log.
- `Workflow.Processor.ProcessTask`: the speech and playback goroutine in `processTaskInternal` is left out, because its result is only logged; `RetryDelay` sleeps are left out too.
- `TaskPipeline.PlayEventTasks`: which message `callLLMStream` sends is not tied to `GeneratePrompt`'s output; the mock stream's internals are left out.
- `Workflow.Processor.SetConfig`: Go corrects the caller's `*WorkflowConfig` in place and keeps that same pointer, so the caller sees the corrections and its later writes reach the processor; the model stores a corrected copy, so this aliasing is not modelled.
- `SimpleTts.Pool.Close`: Go also disconnects every client the pool created and closes its channels; a client is only a number here, so the disconnects are not modelled.
- `UserVoice.Cutoff`: Go's `AddDate(0, 0, -days)` counts local calendar days, and a day across a daylight-saving change lasts 23 or 25 hours; the model takes every day as 86400 seconds. One `now` also stands for the separate clock reads of the lazy load and of the call that triggers it.
- `FrontendModels.Resolve`: a string argument is the `Text` source, whose `JSON.parse` result is an input; a `Given` value that holds a string is taken as already parsed, so the parse failure JavaScript would throw on it is not modelled.
- `Text.ToLower` works on ASCII letters only, so Go's Unicode case mapping of other runes is not modelled. Strings are sequences of runes; invalid UTF-8 is not modelled.
- `GiftVoice.GetGiftVoiceText`: requires a paid gift's price to be a multiple of 10 (whole cents), because `strconv.FormatFloat` rounding of other prices is floating point.
- `EventCache.Cache.AddCacheEventData`: requires a positive memory size or a non-empty cache, because slicing an empty cache panics in the source.
- `LlmClient.Client.Chat`: requires a configuration, because the source reads it without a check; the same holds for `LlmClient.Client.ChatStream`.
- The retry loops take one outcome per attempt as input, so they require at least as many outcomes as attempts (`LlmClient`, `Workflow`, `TtsWebSocket`).
- Integers are unbounded except where the source's width matters: the frame's 16- and 32-bit fields, the sequence id's `int32` increment and the workflow's length correction are written out; other counters do not wrap.
- The sources declare some types twice across revisions. config/config.go and config/voice_config.go both declare `Voice`; the handlers call a three-argument `AddText`. Each caller is modelled against the API it uses: `AppConfig` for config.go and `VoiceConfig` for voice_config.go.

## Findings

| source | as written | input that shows it | evidently intended | confidence | as-written member | corrected member |
|---|---|---|---|---|---|---|
| workflow/processor.go:116-118 | a maximum text length below the minimum becomes `MinTextLength + 100` in 64-bit `int`, which wraps | `MinTextLength` = 2^63 - 51 with `MaxTextLength` = 0 gives a negative maximum, still below the minimum | the corrected maximum is at least the minimum | not executed | Workflow.MaxTextLengthAsWritten, Workflow.MaxTextLengthWraps | Workflow.Normalize, Workflow.NormalizeKeepsValid, Workflow.NormalizeIdempotent |
