# Kalshi feed handler: a verified model

This project models the market data client in Dafny and proves what its concurrent and
event-driven parts keep over whole runs. `dafny verify dfyconfig.toml` checks all of it.

## What is modelled

* **The asynchronous JSON logger** (`LoggerSteps`, `LoggerProofs`, `LoggerOutput`, `Logger`). Producers, the
  worker thread and the destructor are one labelled transition system. A producer's critical
  section is one step; the worker's loop is cut wherever it takes or gives up the mutex and at
  every access to `stop_` and `dropped_count_`. The store to `stop_` may fall between the worker
  finding its predicate false and the worker going to sleep; spurious wakeups are allowed; the
  64-bit drop counter wraps. Class `AsyncJsonLogger` carries the same actions out on fields, and
  records the trace that leads to its state, so every result about traces holds of the object.
* **The log line** (`LogLine`, `LineMeaning`, `JsonText`, `JsonTree`). The printer writes into a string in loops,
  as the source does, and is proved to write the compact form of the JSON tree the event denotes.
  An independent parser after RFC 8259, sections 2 to 7, with whitespace, fractions, exponents and
  surrogate pairs, inverts it.
* **The feed handler** (`FeedSteps`, `FeedProofs`, `FeedRuns`, `FeedStages`,
  `FeedReplacements`, `FeedNotes`, `FeedHandlers`, `Backoff`).
  Websocket clients, reconnect timer and callbacks are an event loop in which the environment
  picks the operation that completes and how. Operations of a replaced client may still complete,
  in any way, or be abandoned; the invariants hold for both. What is said to happen is shown by runs
  in which only the current client's operations complete. Class `FeedHandler` has a method for
  every completion and for the loop over them, and records its trace.
* **Decoding and dispatch** (`MarketEvents`, `EventParser`, `EventExactness`,
  `EventRoundTrip`, `MarketSinks`). A
  message is its text and the tree, or the error, that the JSON library makes of it. The
  dispatcher calls a fan-out of sinks; a sink of its own is the fan-out to it alone.
* **Text formats, configuration and application** (`WsUrl`, `Subscribe`, `SubscribeMeaning`,
  `Config`, `AppContext`).

A byte is the `char` with its code. Results about strings hold for all chars, so for all byte
strings; `EscapeIsBytes` says that bytes stay bytes.

## Findings

* A destructor can wait for ever. If `stop_` is stored and `notify_all` is called while the worker
  holds the mutex with a false predicate, the worker sleeps with nothing left to wake it
  (`ShutdownCanHang`). `NotifyEndsWorkerIff` gives the exact condition.
* A summary may count drops of the next epoch, because the counter is exchanged outside the lock
  (`SummaryRunsAhead` is such a run). The summaries account for exactly the epochs written if and
  only if the epoch open at the exchange fits the queue (`SummariesExactIff`).
* The final drain writes no summary, so drops can stay unreported (`DropUnreportedAtExit` is such a
  run). All are reported if and only if no log call after the last exchange met a full queue
  (`AtExit`).
* An event logged during shutdown, whatever is logged after it, is lost if and only if the worker
  has made its final swap, or found the queue empty instead (`EventTakenIff`). That look at the
  queue, before the final drain, takes no mutex: with a concurrent log call it is a data race, which
  C++ leaves undefined and the model treats as one atomic read.
* The subscribe command does not escape its strings. Its text parses to what was asked for if and
  only if no channel or ticker needs an escape (`CommandRoundTripIff`). For strings that stay whole
  between quotes the text says what they mean with their own escapes undone, and the check for
  tickers fails it exactly when there are none and a channel means order book deltas without being
  spelled so (`AcceptedTextNamesTickersIff`); `EscapedChannelSubscribesToDeltas` is such a channel,
  with an escaped letter. A quote in a channel can do the same
  (`QuotedChannelSubscribesToDeltas`).
* Replacing a client destroys it, in the source, with operations outstanding.
  `ReplacementLeavesIff` says exactly which and when; `WriteLeftBehind` is a run of live clients
  only that gets there. One lost connection can also cause two replacements, the second of a client
  that has reported no error (`ReconnectsTwice`), when the second error falls between a wait's
  expiry and its handler; a client can be so replaced if and only if a wait is left when it starts
  (`ReplacedInHealthIff`). While only live clients' operations complete, every client that opens is
  sent the subscribe command once (`CommandReachesOpener`).
* An accepted configuration may have a URL that does not parse. The handler then reconnects for
  ever and starts no operation (`CanReadAgainIff`, `AcceptedUrlReadsIff`); `PlainHttpNeverReads`
  is such a document.
* The accepted delays include bounds for which doubling leaves int64, and, with a clock that counts
  nanoseconds in 64 bits, waits that do (`AcceptedDelaysOverflow`). `DoublingFitsIff` and
  `WaitsFitIff` give the exact conditions over all runs.
* A trade's seconds are multiplied by 10^9 unchecked. `DecodedIsEncodableIff` says for exactly which
  messages the result is meaningful; `LateTradeOverflows` is one for which it is not.

## Model

| member | source | states |
|---|---|---|
| LoggerProofs.WritesKeptEvents | src/kalshi/logging/async_json_logger.cpp:153-236 | For every interleaving: events written, then the rest of the batch, then the queue are exactly, in order, what the drop policy keeps of each epoch between swaps (the last or the first `capacity` of them), and the epochs concatenate to the events the log calls let through |
| LoggerProofs.Conservation | src/kalshi/logging/async_json_logger.cpp:166-228 | In every reachable state each accepted event is written, in the batch, queued or counted as dropped (reported, exchanged or in the counter); the only loss is a multiple of 2^64, and none below 2^64 drops |
| LoggerProofs.NoLostWakeup | src/kalshi/logging/async_json_logger.cpp:166-200 | The worker sleeps, or is about to, only while the queue is empty, so while events wait it can act; a swapped batch is never empty |
| LoggerProofs.SummariesExactIff | src/kalshi/logging/async_json_logger.cpp:186-216 | At each exchange, all that was ever taken from the counter is the loss of the epochs written and of the one still open; the summaries so far account for exactly the epochs written if and only if the open epoch fits the queue |
| LoggerProofs.SummaryRunsAhead | src/kalshi/logging/async_json_logger.cpp:199-211 | A concrete run, under either policy, that writes a summary of one drop behind an epoch that lost nothing |
| LoggerProofs.AtExit | src/kalshi/logging/async_json_logger.cpp:207-228 | When run() has ended the output holds what the policy keeps of the epochs swapped in, every drop is reported if and only if no log call since the last exchange met a full queue (and the counter never overflowed), and the queue holds what is kept of the events logged after the final swap, all of them after stop_ was set; without such events it is empty |
| LoggerProofs.DropUnreportedAtExit | src/kalshi/logging/async_json_logger.cpp:219-228 | A concrete run to the end of run(), under either policy, with a drop that no summary reports and no event logged late |
| LoggerProofs.EventTakenIff | src/kalshi/logging/async_json_logger.cpp:166-228 | Any event logged, whatever is logged after it, is in an epoch at exit, so written or counted as dropped, if and only if the worker had not made its final swap, or found the queue empty instead, when it was logged; otherwise the output is what was kept before |
| LoggerProofs.ShutdownTerminates | src/kalshi/logging/async_json_logger.cpp:186-228 | With stop_ set, no more log calls and the worker not asleep, the worker never falls asleep, takes at most a bounded number of actions, and can act until it is done |
| LoggerProofs.FinishesIffAwake | src/kalshi/logging/async_json_logger.cpp:139-151 | After the destructor's notify_all, the worker can reach the end of run() if and only if it is neither asleep nor about to be |
| LoggerProofs.NotifyEndsWorkerIff | src/kalshi/logging/async_json_logger.cpp:139-194 | The destructor's notify_all lets the worker end exactly when it does not fall between the false predicate and going to sleep |
| LoggerProofs.ShutdownCanHang | src/kalshi/logging/async_json_logger.cpp:141-194 | A concrete allowed run of five actions after which the worker sleeps and can never finish on its own, for every configuration |
| LoggerProofs.WhoCanAct | src/kalshi/logging/async_json_logger.cpp:139-194 | A call that passes the filter waits only while the worker holds the mutex, any other never; the worker waits only asleep; the destructor stores stop_ once and then notifies once |
| LoggerProofs.LogFilters | src/kalshi/logging/async_json_logger.cpp:153-164 | In the literal order of the five levels: a call below the minimum changes nothing, any other is accepted with its own time or, without one, that of the call |
| LoggerOutput.LevelsRespected | src/kalshi/logging/async_json_logger.cpp:153-164 | In every reachable state every event written has a level at or behind the minimum in that order; a summary is a warning whatever the minimum is |
| LoggerOutput.OutputReadsBack | src/kalshi/logging/async_json_logger.cpp:230-299 | In every reachable state the output stream, read back line by line, is exactly the trees of the records written so far, in order |
| LoggerOutput.OutputSays | src/kalshi/logging/async_json_logger.cpp:238-299 | And key by key: each line, read back, gives under the log's keys what was logged, or of a summary when it was written, as a warning of `logging`, and how many events were dropped |
| LoggerOutput.FileAccounts | src/kalshi/logging/async_json_logger.cpp:166-299 | Conservation read from the file: the events' lines, the counts in the summaries' lines, the rest of the batch, the queue and the counts not yet written make up all events the calls passed on |
| LoggerOutput.SummariesWhenReported | src/kalshi/logging/async_json_logger.cpp:207-211 | Over whole runs summaries are written exactly when the worker reports a count, with that time, and never of zero drops |
| LineMeaning.LineSays | src/kalshi/logging/async_json_logger.cpp:238-285 | A line, read back, has exactly the members documented: time, level by its name, component, message, the fields in order with their values, and the raw text if included |
| LineMeaning.LevelNames | src/kalshi/logging/log_level.cpp:6-46 | Each level is written by its name and read from that name and no other text |
| LoggerProofs.NextKeeps | src/kalshi/logging/async_json_logger.cpp:139-228 | Every action of producers, worker and destructor keeps the invariant placing each event, accounting each drop and fixing what each worker position implies |
| LoggerProofs.WorkerFinishes | src/kalshi/logging/async_json_logger.cpp:186-228 | From a stopped state with the worker awake there is a run of the worker alone to the end of run() |
| LoggerProofs.SleeperStays | src/kalshi/logging/async_json_logger.cpp:193-194 | After notify_all was sent, a sleeping worker stays asleep in every run without outside help |
| LoggerProofs.EnqueueKeeps | src/kalshi/logging/async_json_logger.cpp:166-184 | Enqueueing under either policy keeps queue, drop account and epochs consistent |
| Logger.AsyncJsonLogger.constructor | src/kalshi/logging/async_json_logger.cpp:121-137 | A new logger is in the initial state of the step system |
| Logger.AsyncJsonLogger.Log | src/kalshi/logging/async_json_logger.cpp:153-164 | A log call on the object is one log step: below the minimum in the order of levels it changes nothing, otherwise the event is accepted with its time; the stream is untouched |
| Logger.AsyncJsonLogger.Enqueue | src/kalshi/logging/async_json_logger.cpp:166-184 | The object's queue, counter and worker wakeup change as the enqueue step says, under both policies |
| Logger.AsyncJsonLogger.StoreStop | src/kalshi/logging/async_json_logger.cpp:141 | The store to stop_ is one step and touches nothing else |
| Logger.AsyncJsonLogger.NotifyWorker | src/kalshi/logging/async_json_logger.cpp:142 | notify_all wakes a sleeping worker and has no effect on any other |
| Logger.AsyncJsonLogger.WakeSpuriously | src/kalshi/logging/async_json_logger.cpp:193-194 | A sleeping worker may wake without a notification, and nothing else changes |
| Logger.AsyncJsonLogger.WorkerStep | src/kalshi/logging/async_json_logger.cpp:186-228 | One worker action on the fields is one worker step, and the stream stays the lines of the records written |
| Logger.AsyncJsonLogger.WriteEvent | src/kalshi/logging/async_json_logger.cpp:238-299 | Writing a record appends its line to the stream and nothing else |
| Logger.AsyncJsonLogger.WriteBatch | src/kalshi/logging/async_json_logger.cpp:230-236 | The loop writes the rest of the batch, each event once and in order |
| Logger.AsyncJsonLogger.FinishRun | src/kalshi/logging/async_json_logger.cpp:186-228 | With stop_ set and the worker awake the loop comes to its end with everything kept of the epochs written, what is kept of later events still queued, nothing accepted or dropped meanwhile, and all drops reported exactly when no call since the last exchange met a full queue |
| LogLine.BuildLine | src/kalshi/logging/async_json_logger.cpp:238-285 | The line is the compact JSON text of the tree the event denotes (fields only if any, raw only if asked for) and a newline |
| LogLine.AppendJsonString | src/kalshi/logging/async_json_logger.cpp:27-70 | The loop appends the escaped text, the inverse of which is the string parser |
| LogLine.AppendFieldValue | src/kalshi/logging/async_json_logger.cpp:72-117 | Appends the text of the tree the value denotes, lists included |
| LogLine.AppendFields | src/kalshi/logging/async_json_logger.cpp:259-273 | Appends all fields as members in order, repeated keys kept |
| LogLine.LineRoundTrip | src/kalshi/logging/async_json_logger.cpp:238-285 | Parsing a line in front of any further text yields exactly the event's tree and leaves the newline and that text; doubles come back as the text they were rendered to |
| LogLine.LineFraming | src/kalshi/logging/async_json_logger.cpp:27-70 | A line holds one newline, at its end, and no other byte below 0x20 |
| LogLine.SplitInvertsConcat | src/kalshi/logging/async_json_logger.cpp:230-285 | A log text splits at its newlines into exactly the lines written |
| LogLine.LogRoundTrip | src/kalshi/logging/async_json_logger.cpp:230-285 | A whole log text reads back as the trees of its events, one a line, in order |
| JsonText.EscapeParses | src/kalshi/logging/async_json_logger.cpp:27-70 | Unescaping up to the closing quote inverts the escape for every text, and touches nothing after the quote |
| JsonText.EscapeNeverCloses | src/kalshi/logging/async_json_logger.cpp:27-70 | Escaped text contains no quote that would end the string |
| JsonText.EscapeConcat | src/kalshi/logging/async_json_logger.cpp:27-70 | The escape distributes over concatenation |
| JsonText.EscapeInjective | src/kalshi/logging/async_json_logger.cpp:27-70 | Different texts have different escapes |
| JsonText.EscapeNoControl | src/kalshi/logging/async_json_logger.cpp:55-62 | No byte below 0x20 is left |
| JsonText.EscapeIsBytes | src/kalshi/logging/async_json_logger.cpp:27-70 | Bytes are escaped to bytes |
| JsonText.IntTextParses | src/kalshi/logging/async_json_logger.cpp:84-91 | Every integer printed, the most negative int64 included, is read back from in front of any text that cannot continue it |
| JsonText.NumbersAsWritten | src/kalshi/logging/async_json_logger.cpp:84-91 | Integers are written to base ten with the usual digits, a minus in front of negative ones |
| JsonText.EscapesAsWritten | src/kalshi/logging/async_json_logger.cpp:27-70 | Every char is escaped as section 7 of RFC 8259 has it: by its letter, by its code below 0x20, or not at all |
| JsonText.SyntaxAsWritten | src/kalshi/logging/async_json_logger.cpp:72-117 | Names, lists, members and quotes are written as in sections 3, 4, 5 and 7 of RFC 8259 |
| JsonText.PrintParses | src/kalshi/logging/async_json_logger.cpp:238-285 | Parsing inverts printing for every tree whose fractional numbers are digits, a point and digits |
| JsonText.PrintNoControl | src/kalshi/logging/async_json_logger.cpp:238-285 | A printed tree is one line of text |
| FeedProofs.NeverIdle | include/kalshi/md/feed_handler.hpp:175-319 | In every reachable state that is not stopped an operation of the current client is outstanding or a reconnect wait is live or due; at most one wait is live even when read and write both fail |
| FeedRuns.CanReadAgainIff | include/kalshi/md/feed_handler.hpp:175-319 | From every reachable state that is not stopped, whatever failed before, the handler can get back to a current client that reads if and only if the URL parses; otherwise no operation is ever outstanding and the timer goes on |
| FeedProofs.StreamsAgree | include/kalshi/md/feed_handler.hpp:213-251 | Across reconnects the raw output is every message and a newline in order, seen counts them, the first-message note occurs once if any arrived, and the sink got exactly the messages that decode, in order, and no status call |
| FeedProofs.ReceivesDelivered | src/kalshi/md/ws_client.cpp:162-179 | No delivered message is lost, repeated or reordered, whichever connection it came over |
| FeedStages.StagesInOrder | src/kalshi/md/ws_client.cpp:105-160 | In every run and for every client the stages that succeeded are the first of resolve, connect, TLS handshake, websocket handshake, each once and in that order; a stage is outstanding only when exactly those before it have succeeded, a read only when all have, never two at once |
| FeedStages.ReadersPassedAll | src/kalshi/md/ws_client.cpp:105-165 | Once a client has had a read outstanding its four stages stand in the trace for good |
| FeedNotes.LogsFollowTrace | include/kalshi/md/feed_handler.hpp:213-347 | Over whole runs the log holds, in order, of each message its raw text if asked for, that it was the first, its parse error with the text if asked for, and that it was the last; and of the connections each opening, each failure under its operation's code, and each failed refresh |
| FeedNotes.WaitsConserved | include/kalshi/md/feed_handler.hpp:285-319 | Every wait ever scheduled is live, expired, cancelled, or its handler has run |
| FeedNotes.EveryCompletionPossible | src/kalshi/md/ws_client.cpp:105-185 | Until the loop is stopped every outstanding operation can succeed and can fail, and every wait can end; nothing else can |
| FeedProofs.MessageBudget | include/kalshi/md/feed_handler.hpp:159-251 | Remaining and seen add up to the budget across reconnects; the loop is stopped exactly when the budget is used up, or when an error met a handler without reconnect; without a budget messages never stop it |
| FeedProofs.OutageDelays | include/kalshi/md/feed_handler.hpp:101-125 | The delay logged at error k of an outage is min(initial * 2^k, maximum); delays never fall, stay between the bounds, and reach the maximum from the ceil(log2)-th error on and not before |
| FeedRuns.DelaysGoodIff | include/kalshi/md/feed_handler.hpp:285-298 | Over all runs the delays passed to the timer are exactly the doubling sequence: all have a property if and only if every member of the sequence has it |
| FeedRuns.DoublingFitsIff | include/kalshi/md/feed_handler.hpp:116-124 | No run doubles a delay beyond int64 if and only if the initial delay is 0 or the maximum is at most the first doubled value from 2^62 on |
| FeedRuns.WaitsFitIff | include/kalshi/md/feed_handler.hpp:291-298 | No run asks the timer for a wait whose nanoseconds leave int64 if and only if the initial delay is 0 or the maximum is at most 9223372036854 ms |
| FeedProofs.Resubscribes | include/kalshi/md/feed_handler.hpp:203-211 | The subscribe command is sent once for each websocket handshake completed, and nothing else is sent; it goes to the client then current, so to the client that opened if and only if that is the current one; every connect uses the headers last fetched, a failed refresh keeping the earlier ones |
| FeedReplacements.CommandReachesOpener | include/kalshi/md/feed_handler.hpp:203-211 | In every run in which only the current client's operations complete, each client that opens is sent the subscribe command exactly once, in the order they open, and no other client is |
| FeedReplacements.ReplacementLeavesIff | include/kalshi/md/feed_handler.hpp:175-180 | In every such run, when the timer's handler replaces a client, the operations it leaves outstanding are exactly: one if it was still connecting, its read unless that failed, its write unless that completed; so none if and only if it gave up connecting or both have ended |
| FeedReplacements.WriteLeftBehind | include/kalshi/md/feed_handler.hpp:175-180 | Such a run in which the second client is current while the first one's write is outstanding |
| FeedReplacements.ReplacedInHealthIff | include/kalshi/md/feed_handler.hpp:285-319 | A client can be replaced before any operation fails if and only if a wait is live or due when it starts |
| FeedReplacements.ReconnectsTwice | include/kalshi/md/feed_handler.hpp:253-319 | Such a run in which the read and write of one connection fail and the third client replaces the second, which has reported no error and still resolves |
| FeedProofs.NextKeeps | src/kalshi/md/ws_client.cpp:76-191 | Every completion, failure, timer event or abandonment keeps all feed invariants, stray completions of replaced clients included |
| FeedProofs.ScheduleKeeps | include/kalshi/md/feed_handler.hpp:285-319 | Scheduling cancels the live wait, leaves exactly one, and moves one step along the delay sequence |
| FeedProofs.MessageKeeps | include/kalshi/md/feed_handler.hpp:213-251 | Handling a message keeps streams, budget and backoff, and stops the loop exactly on the budget's last message |
| FeedHandlers.FeedHandler.constructor | include/kalshi/md/feed_handler.hpp:140-180 | A new handler, over sinks in any state, is where run() enters the event loop, first connect included |
| FeedHandlers.FeedHandler.OnStage | src/kalshi/md/ws_client.cpp:105-148 | A successful stage on the object is one step of the event loop: resolve starts the connect, connect the TLS handshake, that the websocket handshake, and a write starts nothing |
| FeedHandlers.FeedHandler.OnWsHandshake | src/kalshi/md/ws_client.cpp:150-160 | A successful websocket handshake is one step: open callback, then a read |
| FeedHandlers.FeedHandler.OnRead | src/kalshi/md/ws_client.cpp:167-179 | A successful read is one step: message callback with its sink call, then another read |
| FeedHandlers.FeedHandler.CompleteWithError | src/kalshi/md/ws_client.cpp:181-191 | A failed operation is one step, reported with the code of its kind |
| FeedHandlers.FeedHandler.OnReconnectTimer | include/kalshi/md/feed_handler.hpp:299-318 | The timer handler is one step: headers refreshed or the failure noted, then a new client |
| FeedHandlers.FeedHandler.OnSniFailure | src/kalshi/md/ws_client.cpp:126-132 | A connection whose host name cannot be set is one step, reported as a failed TLS handshake |
| FeedHandlers.FeedHandler.ExpireTimer | include/kalshi/md/feed_handler.hpp:298-299 | The expiry of the live wait makes its handler due |
| FeedHandlers.FeedHandler.OnCancelledWait | include/kalshi/md/feed_handler.hpp:300-303 | The handler of a cancelled wait changes nothing else |
| FeedHandlers.FeedHandler.AbandonOperation | include/kalshi/md/feed_handler.hpp:175-180 | An operation of a replaced client can vanish without a handler |
| FeedHandlers.FeedHandler.RunLoop | include/kalshi/md/feed_handler.hpp:92-98 | Over any completions the environment chooses every sink receives, as often as it is listed, the calls of the messages that decode, in order and over all connections, and the object ends sound |
| FeedHandlers.FeedHandler.ValidIsSound | include/kalshi/md/feed_handler.hpp:175-319 | Of every handler, at any time: the raw output and the counter are those of the messages delivered, the calls made are those that decode, budget and stop agree, at most one wait is live, and it has work until it is stopped |
| FeedHandlers.FeedHandler.NextDelay | include/kalshi/md/feed_handler.hpp:116-124 | Returns the current delay and moves to the next of the capped doubling sequence |
| FeedHandlers.FeedHandler.OnMessage | include/kalshi/md/feed_handler.hpp:213-251 | The fields change as the message step says and every sink receives the call the message decodes to, or none |
| FeedHandlers.FeedHandler.OnError | include/kalshi/md/feed_handler.hpp:253-269 | The error is noted and either the loop stopped or a reconnect scheduled |
| Backoff.DelayStep | include/kalshi/md/feed_handler.hpp:116-124 | The update of the current delay follows the closed form min(initial * 2^k, maximum), for all bounds |
| Backoff.DelaysRise | include/kalshi/md/feed_handler.hpp:101-125 | Delays never fall and stay between the bounds |
| Backoff.ReachesMaxIff | include/kalshi/md/feed_handler.hpp:116-124 | The maximum is in force from the ceil(log2(max/initial))-th error on and not before |
| Backoff.NeverOverflowsIff | include/kalshi/md/feed_handler.hpp:119-122 | Doubling stays within int64 if and only if the initial delay is 0 or the maximum is at most the first doubled value from 2^62 on; always for maxima up to 2^62 |
| EventParser.LevelsExact | src/kalshi/md/event_parser.cpp:53-96 | Levels are accepted if and only if every entry begins with a price in 0..100 and a size in 0..2^32-1; then each is kept unchanged by the narrowing, in order, none added or lost |
| EventParser.ParseLevels | src/kalshi/md/event_parser.cpp:53-96 | The loop, with its early returns, computes that result; an absent member is missing, anything but a list invalid |
| EventExactness.SnapshotIff | src/kalshi/md/event_parser.cpp:170-312 | A message decodes to a snapshot if and only if its type, sequence, market and both sides are there and say exactly that snapshot, every price in 0..100 and size in 0..2^32-1 |
| EventExactness.DeltaIff | src/kalshi/md/event_parser.cpp:192-345 | The same for a change of the book: price, signed 32-bit change, side, and the client order id if it is a string |
| EventExactness.TradeIff | src/kalshi/md/event_parser.cpp:234-371 | The same for a trade, which needs no sequence; its time is 0 unless given as a 64-bit number of seconds |
| EventExactness.DecodeFails | src/kalshi/md/event_parser.cpp:17-132 | A message is refused exactly with the error of its first fault in the order of the checks, missing before invalid, and decoded if it has none |
| EventRoundTrip.DecodeInvertsEncode | src/kalshi/md/event_parser.cpp:170-371 | The encoding of every snapshot, delta and trade in range is decoded to exactly one sink call, of the same kind, with the same event |
| EventRoundTrip.TextRoundTrip | src/kalshi/md/event_parser.cpp:283-371 | The same from the bytes on: printed, parsed and decoded |
| EventRoundTrip.DecodedIsEncodableIff | src/kalshi/md/event_parser.cpp:134-145 | Whatever is decoded lies in the exchange's ranges if and only if the message is no trade or its time is absent, no 64-bit integer, or at most 9223372036 seconds either way |
| EventRoundTrip.LateTradeOverflows | src/kalshi/md/event_parser.cpp:134-145 | A message one second beyond that decodes to a time outside int64 |
| EventRoundTrip.TimestampFitsIff | src/kalshi/md/event_parser.cpp:134-145 | The nanoseconds fit exactly for seconds of at most 9223372036 either way |
| EventRoundTrip.DecodeIdempotent | src/kalshi/md/event_parser.cpp:283-371 | Decoding, encoding and decoding again changes nothing for messages whose time fits, and no status update ever comes out |
| EventRoundTrip.DeltaRoundTrip | src/kalshi/md/event_parser.cpp:192-232 | Every delta in range, with or without a client order id, survives |
| EventRoundTrip.TradeRoundTrip | src/kalshi/md/event_parser.cpp:234-279 | Every trade in range survives, its time in whole seconds |
| MarketSinks.Dispatcher.OnMessage | include/kalshi/md/dispatcher.hpp:29-71 | A message without fault causes exactly the one call it decodes to on the sink, passed on to each sink listed; any other causes none and yields the error of its first fault |
| MarketSinks.FanoutSink.Broadcast | include/kalshi/md/model/market_sink.hpp:43-80 | Every sink receives the call once for each time it is listed, aliases included |
| MarketSinks.FanoutSink.BroadcastAll | include/kalshi/md/model/market_sink.hpp:43-80 | Over any run of broadcasts all sinks receive the same calls in the same order, each as often as it is listed; distinct sinks exactly once |
| WsUrl.ParsesIffSpells | src/kalshi/md/ws_client.cpp:23-51 | A URL is accepted with a triple if and only if the triple is valid and the URL is one of its spellings |
| WsUrl.RenderRoundTrip | src/kalshi/md/ws_client.cpp:23-51 | Parsing inverts rendering, and re-rendering an accepted URL keeps its meaning |
| WsUrl.ParseAlikeIff | src/kalshi/md/ws_client.cpp:29-44 | Two URLs are both accepted with one result if and only if both spell one valid triple: they differ at most by an explicit port 443 and a lone slash |
| WsUrl.UrlsAsWritten | src/kalshi/md/ws_client.cpp:23-51 | A URL is wss:// host, colon, port and target; any other scheme is refused |
| WsUrl.DefaultsAsWritten | src/kalshi/md/ws_client.cpp:29-44 | Without them the port is 443 and the target / |
| Subscribe.CommandRoundTripIff | src/kalshi/md/protocol.cpp:67-80 | The command's text, read byte by byte as JSON, is the id, channels and tickers asked for, the tickers member absent if there are none, if and only if no string needs an escape |
| Subscribe.RawStringIff | src/kalshi/md/protocol.cpp:15-27 | A string put between quotes as it is reads back as itself if and only if it needs no escape, whatever follows |
| Subscribe.RawItemsIff | src/kalshi/md/protocol.cpp:15-27 | The same for a list of them |
| Subscribe.BuildJson | src/kalshi/md/protocol.cpp:67-80 | The appended pieces are the text the other results speak of |
| Subscribe.AppendStringArray | src/kalshi/md/protocol.cpp:15-27 | The loop puts a comma between any two items and nowhere else |
| SubscribeMeaning.ClosedCommandParses | src/kalshi/md/protocol.cpp:15-80 | With strings that stay whole between quotes the text reads as the request for what they mean, their own escapes undone |
| SubscribeMeaning.AcceptedTextNamesTickersIff | src/kalshi/md/protocol.cpp:29-80 | With such strings, accepted lists make a text that names tickers whenever it subscribes to order book deltas, if and only if there are tickers, or that channel is spelled out, or no channel means it; acceptance and text then agree altogether |
| SubscribeMeaning.EscapedChannelSubscribesToDeltas | src/kalshi/md/protocol.cpp:15-65 | A channel with an escaped letter that is accepted without tickers and whose text subscribes to order book deltas |
| SubscribeMeaning.QuotedChannelSubscribesToDeltas | src/kalshi/md/protocol.cpp:15-65 | A family of channels with a quote, accepted without tickers, whose text is that of two channels, order book deltas among them |
| Config.ParseWs | src/kalshi/config.cpp:144-207 | Accepted if and only if the section is an object, every key given is of its type and its number in 0..2^63-1, and the initial delay in force is at most the maximum; then each entry is what its own key says, or the one it had |
| Config.ParseLogging | src/kalshi/config.cpp:209-281 | Accepted if and only if the section is an object and every key given is of its type, the level and policy one of those named, room for an event and a path; then each entry is what its own key says, or the one it had |
| Config.GetStringArray | src/kalshi/config.cpp:92-117 | Succeeds if and only if the member is an array of strings, and yields all of them in order |
| Config.ParseSubscription | src/kalshi/config.cpp:119-142 | Accepted if and only if channels and tickers are arrays of strings and there is a channel |
| Config.LoadConfig | src/kalshi/config.cpp:328-402 | Accepted if and only if the document is an object with its required members and each optional section is absent or fine; then every entry of the configuration is what its own key says, or the documented default, and everything the other parts rely on holds |
| Config.DelaysAcceptedIff | src/kalshi/config.cpp:185-204 | Documents with any URL and any reconnect delays are accepted exactly for initial <= maximum <= 2^63-1, and URL and delays are taken over unchanged |
| AppContext.AcceptedConfigSuffices | src/kalshi/app/app_context.cpp:102-122 | With an accepted configuration building the logger's options cannot fail and the queue has room for an event |
| AppContext.LoggerOptionsIff | src/kalshi/app/app_context.cpp:102-122 | The logger gets exactly the level and the policy that are named, and that much room |
| AppContext.RunOptionsAsConfigured | src/kalshi/app/app_context.cpp:60-87 | The handler gets every option from the entry of that name, and no message budget |
| AppContext.ApplicationStopsIff | src/kalshi/app/app_context.cpp:60-87 | In every run the application is stopped exactly when something has failed and it is configured not to reconnect |
| AppContext.AcceptedConfigRuns | src/kalshi/app/app_context.cpp:60-87 | With an accepted configuration that reconnects, in every run the application is never stopped, always has work, and passes only delays between the configured ones to the timer |
| AppContext.AcceptedDelaysOverflow | src/kalshi/app/app_context.cpp:81-82 | Two accepted documents for which some run doubles a delay beyond int64, or waits longer than int64 nanoseconds |
| AppContext.AcceptedUrlReadsIff | src/kalshi/config.cpp:355-399 | A document is accepted with any URL, but the application it configures ever reads from a current client if and only if the URL parses |
| AppContext.PlainHttpNeverReads | src/kalshi/config.cpp:355-399 | The URL http://host is accepted and no run ever reads |

## Left out

- LogLine.LineRoundTrip: says of a double only that its rendered text comes back; `std::to_string(double)` is lossy and the library's. Its text for a finite value is taken to be digits, a point and digits; infinities and not-a-number are excluded, their text is no JSON.
- LogLine.LineFraming: the same exclusion.
- LoggerOutput.OutputReadsBack: the same exclusion, for the events passed on.
- FeedRuns.CanReadAgainIff: says that the environment can let the handler read again, not that it will; scheduling and networks are not modelled.
- FeedRuns.WaitsFitIff: leaves out the addition of the wait to the current time, which overflows a little earlier; clocks are not modelled.
- EventRoundTrip.DecodeIdempotent: says nothing of trades whose nanoseconds leave int64, where the source's behaviour is undefined.
- SubscribeMeaning.AcceptedTextNamesTickersIff: for strings that stay whole between quotes; the text of others may be that of any list or no JSON.
- FeedReplacements.CommandMissesConnection: a run of the model only, in which operations of replaced clients complete; the source has destroyed those clients, and what then happens is undefined there.
- UTF-8 validity: the JSON reader works on bytes and takes any from 0x80 on, where a full reader would refuse ill-formed text.
- The JSON library's text parsing, its lazy iteration and its choice among duplicate keys: decoding starts from a tree, and the first member with a key counts.
- Pieces of a line that the source appends in one literal (a closing quote, comma and next key) are appended here as quote and key; the bytes are the same.
- File opening, directory creation, flushing, the fallback to the error stream and clocks: output is an append-only text and times are inputs.
- Sockets, TLS, control frames, timeouts and the close handshake: only success or failure of an operation enters. The close before a stop has no effect in the model.
- The lifetime of replaced clients and of write buffers in C++: clients are numbers, and a replaced client's operations may do anything an operation can.
- The memory order of atomics: the source uses the default, sequentially consistent one, and steps interleave accordingly.
- Header signing, credentials, the logging sink, `main` and the enumeration-to-text tables beyond level names: foreign calls or easy members.
- The raw-message log option's byte count as a 64-bit number: counts are unbounded here.
