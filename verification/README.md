# Realtime AI backend: session ledger, post-session processor and WebSocket relay

This project is a Dafny model of the core of a small realtime chat backend. The backend has three parts:

- **The session ledger** (`DatabaseManager`, database.py). It keeps one record per chat session and an append-only log of session events in a hosted record store.
- **The post-session processor** (`SessionProcessor`, session_processor.py). After a session ends, it summarises the conversation with a language model and stores the summary. It also computes statistics and builds insight reports.
- **The relay** (main.py). It runs the stub tool executor `execute_tool` and handles each WebSocket connection in `websocket_endpoint`:
  1. open the session;
  2. run the message loop, streaming the chat provider's tokens to the client;
  3. end the session and hand it to post-processing.

The model is split into six modules:

- `Common`: option and result types, decimal rendering of integers, ASCII case mapping, joining.
- `JsonValues`: the free-form payloads. Objects keep their keys in insertion order, and values are rendered as Python's `repr` renders them, with numbers written positionally at the scale they carry.
- `Records`: sessions and events as values. It also holds the pure definitions the ledger's queries are specified by:
  - the session lifecycle (active, then completed, then summarized);
  - the timestamp ordering of event queries;
  - how events become a conversation;
  - the per-type event counts.
- `Ledger`: the class `DatabaseManager`. It works over an in-memory store: a map of sessions keyed by session id and a sequence of events.
  - The store enforces the sessions table's primary key and the event table's foreign key to sessions.
  - Every store call takes the store's outcome as a parameter, either success or an exception with its message. This lets every error path of the source be modelled.
- `Processor`: duration and transcript formatting, the summary prompt, event summaries, response-time scanning, and the class `SessionProcessor`.
- `Relay`: the following parts of main.py.
  - `ExecuteTool`, the user id derivation and the wire frames.
  - `TurnEffect`, `Answer` and `Converse`, the functional specification of the message loop.
  - The class `Connection`. Its methods carry out one connection against a `DatabaseManager`.

External services are parameters of the model:

- **Clock.** The clock is a natural number of microseconds, passed in a `Stamp` together with the outcome of each store write.
- **Summarisation model.** It is a function from a prompt to a text or an error.
- **Chat provider.** It is a function from the conversation to a streamed reply: a list of chunks and, optionally, the error raised after them.
- **Client.** What the client sends is a script of inbound messages. Each message is either a decoded JSON value or a decoding error.

## Model

| member | source | states |
|---|---|---|
| Records.NewSession | database.py:27-35 | A new session is active. It has the given ids and start time, no end time, no duration and no summary. |
| Records.EndedFields | database.py:62-73 | Ending sets the end time, the status completed and the duration measured from the stored start. Every other field is unchanged. |
| Records.ElapsedSecondsBounds | database.py:64 | The stored duration is the elapsed time in whole seconds, truncated toward zero in both directions. |
| Records.WithSummaryFields | database.py:94-99 | Summarizing sets the summary and the status summarized. Every other field is unchanged. |
| Records.EndRespectsLifecycle | database.py:67-73 | Ending keeps a well-formed session well formed, and never lowers its status, exactly when the session was not already summarized. |
| Records.SummaryRespectsLifecycle | database.py:94-99 | Summarizing never lowers the status. It keeps a well-formed session well formed exactly when the session is no longer active. |
| Records.CallOrderLifecycle | database.py:27-99 | Create, then end, then summarize passes through active, completed and summarized. Each stage is well formed, and the final record keeps the start, end, duration and summary. |
| Records.EndTwice | database.py:57-73 | Ending twice is the same as ending once at the later time: the duration is recomputed from the original start. |
| Records.UnguardedTransitions | database.py:67-99 | Neither update checks the current status, so out-of-order calls leave ill-formed records: a completed session with a summary, or a summarized one without an end time. |
| Records.InsertByTime | database.py:165 | Inserting one event into the ordered list adds exactly one element. |
| Records.InsertByTimeAdds | database.py:165 | Insertion adds exactly the new event to the multiset of events. |
| Records.InsertByTimeSorted | database.py:165 | Insertion keeps a timestamp-ordered list ordered. |
| Records.SortByTime | database.py:165 | Sorting by timestamp keeps the number of events. |
| Records.SortByTimeCorrect | database.py:165 | The ascending timestamp order is sorted and is a permutation of its input. |
| Records.SortByTimeKeepsSorted | database.py:165 | Events already in timestamp order come back in their written order. Among equal timestamps this is the model's tie-break, not a promise of the store. |
| Records.Select | database.py:160-163 | The filter returns exactly the events of the session whose type is in the list. An empty list means every type. |
| Records.SelectAll | database.py:160-163 | A filter that every event passes returns the events unchanged. |
| Records.QueryEventsCorrect | database.py:159-167 | The event query is sorted by timestamp. It holds exactly the selected events, each as often as it is stored. |
| Records.Without | database.py:295 | Deleting a session's events leaves exactly the events of the other sessions. |
| Records.DeletionOrder | database.py:294-298 | Removing a session that still has events breaks the event table's foreign key. Deleting the events first keeps it, both before and after the session itself is removed. |
| Records.ConversationOfMessageEvents | database.py:207-222 | Over message events only, the conversation has one message per event, in the same order. |
| Records.ConversationLength | database.py:202-222 | The conversation length is the number of user-message events plus the number of assistant-response events. |
| Records.EventsOfMessages | main.py:137-139 | Logging messages produces one event per message, in order. |
| Records.ConversationRoundTrip | database.py:202-222 | Messages logged as events in time order are read back by the conversation query as the same messages, in the same order. |
| Records.ConversationOfMessages | database.py:207-222 | The conversation built from logged message events is the original message list. |
| Records.ConversationIgnoresOtherEvents | database.py:202-205 | Filtering the query to the two message types gives the same conversation as reading every event. |
| Records.BumpCounts | database.py:275 | Counting one event of type `t` adds one to `t`'s count and to the total, and leaves every other count unchanged. |
| Records.BumpTypes | database.py:275 | Counting one event adds its type to the set of types seen. |
| Records.BumpDistinct | database.py:275 | Counting one event keeps each type in the table only once. |
| Records.TypeCountsCorrect | database.py:273-275 | The per-type table lists each type once. Each count is the number of events of that type, the counts sum to the number of events, and the types are exactly those that occur. |
| Records.StatsConsistent | database.py:264-275 | The total and the user, assistant and function-call counters agree with the per-type table. |
| Ledger.DatabaseManager.constructor | database.py:13-14 | A new ledger is empty and well formed. |
| Ledger.DatabaseManager.CreateSession | database.py:27-43 | Writes the new active session and returns it, leaving events unchanged. If the store fails, or the id already exists (primary key), nothing changes and the store's error is returned. |
| Ledger.DatabaseManager.EndSession | database.py:55-80 | Returns the not-found error if the session is missing. Otherwise it writes the ended session and returns it. If the store fails, nothing changes. |
| Ledger.DatabaseManager.UpdateSessionSummary | database.py:93-106 | Writes the summary and the status summarized without checking the current status. For a missing session it returns no record and changes nothing. On a store failure it raises and changes nothing. |
| Ledger.DatabaseManager.LogEvent | database.py:127-142 | Appends exactly the stamped event (empty metadata when none is given) and returns it. Nothing is appended, and an empty result is returned, when the insert fails or the session does not exist. It never raises. |
| Ledger.DatabaseManager.GetSession | database.py:183-190 | Returns the stored record exactly when the read succeeds and the session exists. Otherwise it returns nothing. |
| Ledger.DatabaseManager.Events | database.py:159-171 | A failed read yields an empty list. |
| Ledger.DatabaseManager.EventsCorrect | database.py:159-167 | A session's events are ordered by timestamp. They are exactly the stored events of that session with the requested types, with their multiplicities. |
| Ledger.DatabaseManager.GetConversationHistory | database.py:202-222 | Returns one message per user-message or assistant-response event, in timestamp order, with the message matching its event. |
| Ledger.MessagesOf | database.py:207-220 | The conversation loop builds exactly the conversation its events specify. |
| Ledger.DatabaseManager.GetRecentSessions | database.py:235-249 | Returns `min(limit, n)` of the user's `n` sessions, with distinct ids, latest start first. No unreturned session of the user starts later than a returned one. A failed read returns an empty list. |
| Ledger.DatabaseManager.LatestIn | database.py:240 | Picks a session whose start is the latest among the given ones. |
| Ledger.SelectionStep | database.py:240-241 | Taking the latest remaining session keeps the selection distinct, ordered latest first, and no later than anything still remaining. |
| Ledger.DatabaseManager.GetSessionStatistics | database.py:261-281 | Returns the statistics of the session's events, with a type table that lists each type once and agrees with every counter. A failed read gives all-zero statistics. |
| Ledger.DatabaseManager.DeleteSession | database.py:293-305 | Deletes the events, then the session. It returns true exactly when both deletes succeed. A failed event delete changes nothing. A failed session delete leaves the session's events removed. The foreign key holds throughout. |
| Processor.FormatDurationSeconds | session_processor.py:176-177 | Below a minute the text is the number of seconds, negative numbers included. |
| Processor.FormatDurationMinutes | session_processor.py:178-181 | From one minute up to one hour the text gives the minutes and the remaining seconds. |
| Processor.FormatDurationHours | session_processor.py:182-185 | From one hour on the text gives the hours and the remaining whole minutes. Leftover seconds are dropped. |
| Processor.FormatDurationExampleSeconds | session_processor.py:176-177 | 45 is shown as "45 seconds". |
| Processor.FormatDurationExampleMinutes | session_processor.py:178-181 | 125 is shown as "2 minutes, 5 seconds". |
| Processor.FormatDurationExampleHours | session_processor.py:182-185 | 3725 is shown as "1 hours, 2 minutes". |
| Processor.FormatLine | session_processor.py:158-162 | A transcript line starts with the bracketed timestamp and the upper-cased role, and ends with the content unchanged. |
| Processor.FormattedLines | session_processor.py:157-162 | There is one formatted line per message, in order. |
| Processor.TranscriptAppend | session_processor.py:164 | One more message adds a newline and its line to the transcript. |
| Processor.FormatConversation | session_processor.py:155-164 | The formatting loop produces the newline-joined transcript. |
| Processor.SummaryPromptEmbeds | session_processor.py:106-122 | The prompt contains the humanised duration and the whole transcript. |
| Processor.GenerateSummary | session_processor.py:97-143 | Returns the provider's text for the prompt. A provider error, or a missing duration (the TypeError raised while formatting it), becomes the text "Error generating summary: …". It never raises. |
| Processor.EmptyConversationPlaceholder | session_processor.py:44-46 | An empty conversation gets the fixed placeholder, whatever the provider would answer. |
| Processor.NonEmptyConversationSummary | session_processor.py:47-49 | For an ended session with messages, the stored summary is the provider's answer to a prompt containing the transcript, or the error text. |
| Processor.CompletionDataReports | session_processor.py:58-66 | The completion event reports that a summary was generated, the summary's length and the statistics. |
| Processor.SummarizeMessageEvent | session_processor.py:302-308 | A message event's summary is its tag ("User: " or "Assistant: ") before the excerpt of its content, and the tag alone when content is missing. Content that is null, a boolean or a number has no `len` and raises the TypeError. A payload that is not an object raises the AttributeError of `get`. |
| Processor.SummarizeMessageText | session_processor.py:302-308 | Text of at most 50 characters is shown whole after the tag. Longer text is cut to its first 50 characters followed by "...". |
| Processor.SummarizeMessageList | session_processor.py:302-308 | List content is shown as its `repr` after the tag. A list over 50 items is cut to its first 50 items followed by "...". |
| Processor.SummarizeOtherEvent | session_processor.py:310-319 | A function call or result names the function ("unknown" when none is given), and raises the AttributeError of `get` when its payload is not an object. Any other event shows its type and never raises. |
| Processor.TimelineFailureFirst | session_processor.py:253-259 | The timeline loop raises exactly when some event's summary raises, and then with the error of the first such event. |
| Processor.TimelineFailureStops | session_processor.py:253-259 | Once an event's summary has raised, later events do not change the error. |
| Processor.Timeline | session_processor.py:253-259 | The loop fails with the first summary error, if any. Otherwise it returns one entry per event, in order, holding the event's timestamp, type and summary. |
| Processor.PairStarts | session_processor.py:263-264 | There are at most as many response pairs as scanned positions. |
| Processor.PairStartsCorrect | session_processor.py:263-264 | The pair starts are exactly the positions where a user message is immediately followed by an assistant response, each listed once and in increasing order. |
| Processor.Latencies | session_processor.py:262-267 | There is one latency per response pair. |
| Processor.LatenciesOfPairs | session_processor.py:262-267 | The k-th latency is the time between the k-th pair's user message and the assistant response that follows it. |
| Processor.NoPairsNoLatencies | session_processor.py:262-269 | There are no response times exactly when no user message is immediately answered, the case in which the average is 0. |
| Processor.ResponseTimes | session_processor.py:262-267 | The scan returns exactly the pair latencies. Its result is empty exactly when no pair exists. |
| Processor.TotalDurationDefined | session_processor.py:206 | The duration total exists exactly when every analysed session has a duration. Otherwise the sum raises. |
| Processor.TotalFunctionCallsCountsEvents | session_processor.py:218 | The function-call total is the number of function-call events across all analysed sessions. |
| Processor.SessionProcessor.constructor | session_processor.py:17-19 | The processor works over the given ledger. |
| Processor.SessionProcessor.ProcessSession | session_processor.py:29-84 | If the session cannot be read, nothing changes. Otherwise it stores the planned summary and attempts exactly one completion event carrying the statistics. If storing the summary fails, it attempts exactly one error event with the failure message instead. It never raises. |
| Processor.SessionProcessor.GenerateInsightsReport | session_processor.py:247-287 | When an event's summary raises, the report is that error. Otherwise it fails with the AttributeError text exactly when the session cannot be read, and else the report holds the stored summary, the statistics, one timeline entry per event, the pair latencies, and the user-message and function-call counts. |
| Processor.SessionProcessor.StatsFor | session_processor.py:210-213 | There is one statistics entry per analysed session. |
| Processor.SessionProcessor.StatsForAt | session_processor.py:210-213 | The i-th entry is the statistics of the i-th session's events. |
| Processor.SessionProcessor.CollectStats | session_processor.py:210-213 | The loop reads the statistics of each session, in order. |
| Processor.SessionProcessor.AnalyzeSessionPatterns | session_processor.py:198-235 | Analyses the user's latest `min(limit, n)` sessions, latest first. With none it returns "No sessions found for user", and with a null duration the TypeError text. Otherwise it returns the totals over exactly those sessions and the latest session's id. The analysed sessions are stored records with distinct ids, and no unanalysed session of the user started later than an analysed one. When sessions exist and every duration is present, the analysis succeeds. |
| Relay.ExecuteTool | main.py:73-90 | Weather returns the requested location (default "Unknown"), 28, celsius and "Partly Cloudy". Search returns one hit for the query. Any other tool returns only the error "Unknown tool". The error key is present exactly for unknown tools. |
| Relay.WeatherResult | main.py:74-80 | The canned weather carries the given location and the fixed reading, and no error. |
| Relay.SearchResult | main.py:82-88 | The canned search result is a list holding the one hit, and no error. |
| Relay.UnknownTool | main.py:90 | An unknown tool gets the error object. |
| Relay.SearchHit | main.py:86 | The hit's title echoes the query, and its score is 0.95. |
| Relay.WeatherReportForBangalore | main.py:149-152 | The keyword tool call reports Bangalore and no error. |
| Relay.SessionSuffix | main.py:115 | The suffix is the last six characters of the id, or the whole id when it is shorter. |
| Relay.UserIdFor | main.py:115 | The user id is "user_" followed by the session id's suffix. |
| Relay.SameUserIffSameSuffix | main.py:115 | Two sessions get the same user exactly when their ids end in the same six characters. |
| Relay.DistinctSessionsShareUser | main.py:115 | The derivation is not injective: two different session ids can map to the same user. |
| Relay.WireRoundTrip | main.py:121-206 | Every frame sent to the client can be read back from its JSON object. |
| Relay.Subscript | main.py:132-135 | `msg[key]` succeeds exactly on an object holding the key, and gives that key's value. |
| Relay.Tokens | main.py:176-178 | A stream yields at most one token per chunk. |
| Relay.TokensStep | main.py:176-179 | A chunk adds its content as the next token exactly when that content is present and non-empty. |
| Relay.TokenFrames | main.py:181-184 | One frame is sent per token. |
| Relay.StreamedTokens | main.py:174-184 | A client that concatenates the token frames reads exactly the concatenated tokens. |
| Relay.Stream | main.py:174-184 | The token loop accumulates the concatenated tokens and sends one token frame per token, in order. |
| Relay.OtherMessagesIgnored | main.py:132-133 | A message whose type is not `user_message` sends nothing, logs nothing and leaves the conversation unchanged. |
| Relay.TextMessageAnswered | main.py:135-144 | A user message with text content is logged as `{"content": text}`, added to the conversation and answered. |
| Relay.AnswerParts | main.py:149-191 | An answer sends the tool frame when the keyword is present, then the tokens, then the completion frame if the reply does not fail. It appends the assistant's concatenated tokens to the conversation and logs them. |
| Relay.CompletedAnswer | main.py:186-197 | A reply that does not fail ends with the completion frame. The conversation extends the previous one with the streamed text as the assistant's entry, which is also what is logged. |
| Relay.CompletedText | main.py:174-186 | The text a client reads from a completed answer is the concatenation of the tokens. |
| Relay.WeatherToolIffKeyword | main.py:149-163 | A tool result frame is sent exactly when the lower-cased text contains "weather". The tool result then becomes the system entry after the user's message. |
| Relay.FailedTurn | main.py:168-197 | A turn that raises logs no assistant response and sends no completion frame. |
| Relay.ConverseStep | main.py:127-197 | The loop over one more message extends the previous frames and conversation with that message's effect. |
| Relay.ConverseStopsAtFailure | main.py:127-202 | Once a message raises, later messages are never read. |
| Relay.ConverseExtendsHistory | main.py:141-191 | The conversation only grows: earlier entries stay at the front. |
| Relay.TurnExtendsHistory | main.py:141-191 | One message's handling only appends to the conversation. |
| Relay.AnswerExtendsHistory | main.py:160-191 | Answering only appends to the conversation. |
| Relay.ConverseLogsMessages | main.py:137-139 | The loop logs only user messages and assistant responses, each with a payload holding just its content. |
| Relay.PersistedAppend | main.py:137-197 | The events of two runs of logging calls are the events of the first followed by those of the second. |
| Relay.PersistedEvents | main.py:137-197 | For a session the store holds, and with every write succeeding, each logging call adds exactly its own event, in order. For a session it does not hold, nothing is added. |
| Relay.PersistedStep | main.py:127-197 | One more pass of the loop appends that pass's events to the earlier passes' events. |
| Relay.TurnLogsPersisted | main.py:137-139 | One pass adds the user-message event, then the assistant-response event. |
| Relay.Connection.constructor | main.py:112-116 | A connection starts with an empty conversation, nothing sent, and the user id derived from the session id. |
| Relay.Connection.Open | main.py:118-125 | Creates the session, logs `session_start` with the user id and sends the start frame. If creation fails, nothing is logged or sent. |
| Relay.Connection.HandleMessage | main.py:129-144 | One loop pass performs exactly the message's specified effect: frames sent, conversation, user-message log and failure. |
| Relay.Connection.Respond | main.py:149-197 | Answering sends the answer's frames, updates the conversation and logs the assistant response exactly when the reply completes. |
| Relay.Connection.RunLoop | main.py:127-197 | The loop performs exactly the specified conversation over the script and stops at the first message that raises. The events table grows by exactly the events of the conversation's logging calls. |
| Relay.Connection.Teardown | main.py:199-211 | Sends the error frame if the loop broke, then ends the session, logs `session_end` and hands the session to post-processing. If ending fails, nothing after it happens. |
| Relay.Connection.RunSession | main.py:127-211 | The loop followed by teardown. The session is ended and handed off exactly when the end write succeeds. The events table grows by the loop's events, then `session_end` when the session was ended. |
| Relay.Connection.Serve | main.py:112-211 | A refused creation ends the connection with no other effect. Otherwise the client receives the start frame, the specified conversation's frames and, when a message raised, the error frame. The session is ended and handed off exactly when the end write succeeds. The events table grows by exactly `session_start`, the conversation's events and, when the session was ended, `session_end`. |

## Left out

- The hosted record store's client library is replaced by an in-memory store with the two key constraints. Each call's outcome (success, or an exception with its message) is a parameter. No other query semantics are modelled.
- The language-model calls are function parameters:
  - the summary call of `generate_summary`;
  - the streaming chat call in the message loop.

  The model names, token limits and API keys are not modelled.
- Timestamps are microsecond counts, not ISO-8601 strings. Transcript lines and timeline entries therefore show the number rather than the formatted date.
- Floating-point averages are not modelled: the average duration, the average messages and responses, and the average response time. Reports carry the totals or the latency list the averages are computed from.
- Processor.SessionProcessor.AnalyzeSessionPatterns: states the totals rather than the averages, for the float reason above. It also returns the session list it analysed, so that the totals can be stated over it.
- Processor.SessionProcessor.GenerateInsightsReport: states the latency list rather than its average, and does not model the report's float field.
- Upper-casing in transcripts and lower-casing for the weather keyword use ASCII case mapping only. Python's full Unicode case mapping is not modelled.
- Python's `repr` of strings is modelled without escaping. Quotes and control characters inside strings are rendered as they are.
- `json.loads` is not modelled. A client message arrives already decoded, or as the error text of a failed decode. A decoded number is a scaled decimal that is assumed to carry the digits Python's `repr` of the float prints: trailing zeros are kept as written (`0.950`, not `0.95`), and exponent notation (`1e+16`, `1e-05`) is not modelled.
- The `asyncio.sleep(1)` in `process_session` and the event-loop scheduling are not modelled. The fire-and-forget post-processing task is recorded as a `handedOff` flag on the connection. `process_session` is modelled as its own operation on the ledger.
- Sending a frame to the client is assumed to succeed. A send on a closed socket raising inside `finally` is not modelled.
- Relay.Connection.Serve: a disconnect is the end of the client's script. Exceptions raised by the store inside the loop are not modelled because `log_event` never raises.
- The startup code (`lifespan`) is not modelled, and neither are the health endpoints, CORS or the server launcher. `SessionProcessor(supabase)` at main.py:45 omits the required `anthropic_api_key` argument. The model's processor is built from the ledger alone.
- Each report operation is given a single read outcome for all its store reads. A report's reads failing independently is not modelled.
- Records.SortByTime: the store promises no order among events with equal timestamps. The model keeps their written order, which is its own choice of tie-break.
- Records.ConversationRoundTrip: for messages with equal timestamps it holds only because of that tie-break. With strictly increasing timestamps it holds for any order the store chooses.
- Processor.SummarizeMessageEvent: content that is an object with more than 50 keys raises the "unhashable type: 'slice'" text of Python before 3.12; later versions raise a KeyError instead. A dictionary's length is its number of fields, since payload keys are distinct.
- Records.ConversationOfMessageEvents: a stored payload that is not an object is read as empty content, where Python would raise. `log_event` types its payload as a dictionary, so stored payloads are objects.
- Ledger.DatabaseManager.GetConversationHistory: message content is kept as the `str()` text of the stored value, where the query returns the stored value itself (a number stays a number). The only reader of a message's content is the transcript f-string of `_format_conversation`, which applies the same `str()`.
- Ledger.DatabaseManager.UpdateSessionSummary: returns the updated record rather than the row the store echoes back.
- Ledger.DatabaseManager.EndSession: returns the updated record rather than the row the store echoes back.
- Behaviours of the code that its docstrings do not suggest:
  - A failing `end_session` in the `finally` block aborts teardown: no `session_end` event is logged and no post-processing is started.
  - A failing `create_session` happens before the `try`, so no teardown runs.
  - `get_session_statistics` never reaches its `except`, because the event read swallows its own failures. A failed read gives all-zero statistics rather than `{}`.
  - A null stored duration makes `_format_duration` raise. The summary then becomes the error text.
  - `generate_insights_report` for a missing session fails with the AttributeError text.
