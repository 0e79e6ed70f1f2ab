# Gateway42: verified models of its protocols

Gateway42 is an AI gateway. Behind its HTTP handlers it runs several stateful protocols and
translators. This project models them in Dafny and proves what they promise, for every input, every
run and every interleaving of steps.

Where the Go code changes things step by step, the model is a class or a method with loops, and each
method is proved equal to a function on values. The properties are then proved about those functions,
over all runs. Where goroutines interact, one lock-protected section, channel operation, timer expiry
or database statement is one step; an event that is not possible in a state changes nothing there, so
that *every* list of events is a run.

| file | what it models |
|---|---|
| `ProbeProtocol.dfy` | the single-flight probe cache and the routing index, with both generation counters |
| `AnthropicStream.dfy` | OpenAI deltas into bracketed, indexed Anthropic content blocks |
| `StreamAgreement.dfy` | when the streamed and the whole reply are the same message |
| `OllamaStream.dfy` | Ollama lines into OpenAI chunks, alone and fed into the Anthropic translator |
| `ToolHistory.dfy` | message histories, Anthropic to OpenAI to sanitised to Ollama |
| `StreamDeadline.dfy` | the inactivity deadline as a timed automaton |
| `LogWriter.dfy` | the batched log writer (both writers are one loop) |
| `RateLimiter.dfy` | the token-bucket registry, with lookup and decision as separate steps |
| `LoginGuard.dfy` | the login throttle |
| `UserCache.dfy`, `UserCoherence.dfy` | the user LRU, and its agreement with the users table |
| `SearchIndex.dfy` | the contentless full-text index kept in step by triggers |
| `Routing.dfy` | index assembly and the verdict of a request |
| `Truncation.dfy` | cutting UTF-8 text to a byte budget; the stream audit buffer |
| `Usage.dfy` | the usage panel |
| `StatusRecorder.dfy` | one response as metrics, request log and client see it |
| `Prelude.dfy`, `Wire.dfy`, `Transducer.dfy` | options, OpenAI chunk types, machines run over lists |

## What was found

These are places where the code does less than one might expect. Each is stated as an exact condition
or with a concrete input.

- The streamed and the whole Anthropic reply agree exactly when no text follows a tool call and each
  call's fragments are contiguous under a fresh index (`StreamAgreement.StreamAgreesExactlyWhenOrderly`).
  Argument text that is not valid JSON becomes `{}` only in the whole reply, so as sent they agree exactly
  when all arguments are valid as well (`RawBlocksAgreeExactlyWhen`).
- The content of a terminal Ollama line that is not the first line is dropped
  (`OllamaStream.TextIsKeptExactlyWhen`).
- A tool result arrives with a name exactly when a use of its id in an earlier turn is the latest one and has
  a name (`ToolHistory.ResultReachesItsCall`). A call in the same turn does not count (`SameTurnIsTooLate`).
- Evicting idle limiters is invisible only while no request takes longer than 29 minutes and one
  nanosecond between its lookup and its decision; the bound is tight (`RateLimiter.DelayIsTight`).
- A cached user is out of date exactly when a mutation of that user committed after the read of the lookup that
  filled the entry, and either was invalidated before that fill or has not been invalidated yet
  (`UserCoherence.HitsAreCurrentExactlyUnlessOvertaken`). Both happen (`StaleAfterTheRace`,
  `StaleUntilInvalidated`); the first lasts up to the TTL.
- After a build that timed out, "model not found" does not mean that no reachable engine holds the
  model (`Routing.PartialBuildMisses`); it does exactly when the probe of every engine that serves the model
  had landed (`NotFoundIsTrueExactlyWhen`).
- Once something was cut, up to three bytes of later text can still enter the audit buffer
  (`Truncation.StrayBytesHappen`). None does exactly when every later write is empty or begins with a
  character too long for what is left (`AuditIsExactWhenNothingStrays`).
- The comment at `usage.go:151-152` says that clients keep the query's descending order. They come in the order of
  their largest single model, not of their own total (`Usage.TotalsNeedNotDescend`); with one model per client
  the two are the same (`ClientsDescendByTotalWhenSingle`).
- Metrics, request log and wire agree exactly for the operation lists that `StatusRecorder.Honest`
  accepts: a flush before the header, an informational header or an empty copy can part them.
- Deleting a user before the user's logs would corrupt the full-text index
  (`SearchIndex.UserFirstCorrupts`); `deleteUser` deletes the logs first.

## Model

| member | source | states |
|---|---|---|
| `ProbeProtocol.ProbeCache.LookOrPublish` | engine.go:633-657 | Waits exactly on a marker, returns exactly an unexpired result, and otherwise publishes a marker keeping the stale result; reports the generation; changes nothing else |
| `ProbeProtocol.ProbeCache.Store` | engine.go:681-693 | A result is kept, with a new expiry and no marker, exactly when no invalidation came since the refresh was published |
| `ProbeProtocol.ProbeCache.Abandon` | engine.go:669-679 | A panicking refresh clears the entry exactly when it still owns the generation |
| `ProbeProtocol.ProbeCache.Invalidate` | engine.go:697-701 | The map is emptied and the generation moves on |
| `ProbeProtocol.ProbeCache.Peek` | engine.go:772-783 | Found exactly when some probe has finished; stale exactly when a caller would start a refresh |
| `ProbeProtocol.RoutePointer.Store` | routing.go:66-72 | An index is published exactly when its generation is current |
| `ProbeProtocol.RoutePointer.Invalidate` | routing.go:169-178 | The generation moves on and the published index stays, marked stale |
| `ProbeProtocol.StepKeepsInv` | engine.go:625-706 | Every step of every goroutine keeps the whole invariant, including that route invalidations never overtake probe invalidations |
| `ProbeProtocol.RunKeepsInv` | engine.go:625-706 | So does every run |
| `ProbeProtocol.FreshInEveryRun` | engine.go:659-706 | In every run each finished cache entry was read after every invalidation so far, and everything behind a live index was read after every completed invalidation began; routeGen <= probeGen |
| `ProbeProtocol.CallersSeeFreshData` | engine.go:664-667 | A caller never gets data older than an invalidation that preceded its call, even when its own refresh is rejected |
| `ProbeProtocol.SingleFlightInEveryRun` | engine.go:628-631 | At most one unfinished refresh per engine and generation; every marker names an unfinished refresh of that engine |
| `ProbeProtocol.OpenChannelsClose` | engine.go:668-693 | The owner of an open channel is never blocked, each of its steps, a panic included, brings the close nearer, and no other step undoes that |
| `ProbeProtocol.FinishAlone` | engine.go:668-693 | Left to itself an owner closes its channel within four steps |
| `ProbeProtocol.ClosedIsNeverAMarker` | engine.go:659-662 | A closed channel stays closed and is never found as a marker again: waiters cannot spin on it |
| `ProbeProtocol.WaitersAreReleased` | engine.go:637-643 | From every reachable state a waiter can be woken within five steps and then no longer waits on that channel |
| `ProbeProtocol.ServedWithinTtl` | engine.go:644-647 | In every run a cache hit is served less than 10 seconds after the step that stored a result for that engine |
| `ProbeProtocol.FreshResultIsServed` | engine.go:644-647 | In every run, after a stored and kept result, until the probes are invalidated or the engine is looked at 10 seconds later, every look at it returns that very read at once |
| `ProbeProtocol.RefreshKeepsShowing` | engine.go:648-652 | While a refresh runs, the previous result keeps showing; only a stored result, a panic or an invalidation changes it |
| `ProbeProtocol.UndisturbedBuildIsPublished` | routing.go:123-178 | A build during which no route invalidation came is the index afterwards, and the next invalidation leaves it published, marked stale |
| `ProbeProtocol.AnsweredProbeLands` | routing.go:88-99 | A probe that answered is added to its build's index, exactly once |
| `AnthropicStream.Stream.CloseBlock` | anthropic.go:537-545 | Stops the open block, if any, and leaves none open |
| `AnthropicStream.Stream.Content` | anthropic.go:489-504 | Text joins an open text block or closes the open block and opens the next one |
| `AnthropicStream.Stream.ToolFragment` | anthropic.go:505-529 | A fragment joins the open block of its call or closes the open block and opens the next one |
| `AnthropicStream.Stream.Chunk` | anthropic.go:479-535 | A payload is exactly the run of its pieces: usage, then per choice the text, the fragments and the finish reason; an unparseable payload is nothing |
| `AnthropicStream.Stream.End` | anthropic.go:548-562 | Closes the open block; tool_use wins over the finish reason |
| `AnthropicStream.Relay` | anthropic.go:447-562 | start, chunk on every payload and end send the conversation that the properties below are about |
| `AnthropicStream.EveryStreamIsWellFormed` | anthropic.go:418-425 | A client that accepts only message_start, blocks numbered from 0, at most one open, deltas of its kind and index, message_delta, message_stop accepts every conversation, and assembles exactly the blocks, stop reason and usage the payloads describe |
| `AnthropicStream.StopFollowsFromPayloads` | anthropic.go:325-337 | For all payloads the client's stop reason is tool_use exactly if a tool fragment came or the last finish reason says so, max_tokens exactly if none came and it is length, end_turn in every other case |
| `AnthropicStream.RunInStep` | anthropic.go:479-535 | After any pieces the client holds exactly the blocks that grouping those pieces gives |
| `AnthropicStream.FragmentsInInputOrder` | anthropic.go:489-529 | Any run of pieces sends exactly its non-empty text and argument fragments, in order |
| `AnthropicStream.ConversationInInputOrder` | anthropic.go:479-535 | The non-empty text and argument fragments of a conversation are those of its payloads, in input order |
| `StreamAgreement.OpenAIToAnthropic` | anthropic.go:354-408 | The text, if any, and one block per call with its id or a minted one, its name, and its arguments, which survive exactly if they are valid JSON with something in it or {} already; the stop reason as on the stream; no choices is an empty end_turn |
| `StreamAgreement.AccumulatedByPieces` | anthropic.go:479-535 | Accumulating chunk by chunk is accumulating the translator's pieces one by one |
| `StreamAgreement.OrderDecides` | anthropic.go:505-522 | Over any pieces, orderly ones leave streamed blocks equal to the completion's, and disorderly ones leave more tool blocks or text out of place |
| `StreamAgreement.DisorderDiverges` | anthropic.go:505-522 | The first piece out of order makes them differ |
| `StreamAgreement.DivergedStays` | anthropic.go:505-522 | and no later piece repairs it |
| `StreamAgreement.DivergedDiffers` | anthropic.go:339-348 | Diverged blocks differ from the whole message even after arguments are normalised |
| `StreamAgreement.StreamAgreesExactlyWhenOrderly` | anthropic.go:350-408 | For single-choice streams the reassembled streamed message, with toolInput applied, equals the whole message if and only if the pieces are orderly |
| `StreamAgreement.RawBlocksAgreeExactlyWhen` | anthropic.go:339-408 | For single-choice streams the streamed blocks as sent equal the whole message's if and only if the pieces are orderly and every call's arguments are valid JSON with something in it, or {} already |
| `StreamAgreement.InvalidArgumentsDiffer` | anthropic.go:339-348 | A one-fragment stream with invalid arguments: relayed as sent on the stream, {} in the whole message |
| `OllamaStream.Stream.Recv` | engine.go:390-442 | One call returns the next chunk of the specified list, skipping blank and unparseable lines; nothing after the done chunk |
| `OllamaStream.Drain` | engine.go:390-442 | Receiving to the end yields exactly the specified chunks |
| `OllamaStream.EveryDrainIsWellFormed` | openai.go:359-416 | Chunk i carries object i: its model, role only first, each call's id (minted if empty), name and arguments, numbered on from all earlier calls, finish and usage exactly on the done chunk, finish tool_calls if any call was sent so far |
| `OllamaStream.FinishIsLast` | engine.go:430-435 | A chunk has a finish reason, and has usage, exactly when its object is done; that chunk is the last, and says tool_calls exactly if any call was sent |
| `OllamaStream.TextIsKeptExactlyWhen` | openai.go:364-373 | The chunks carry the lines' whole text if and only if no later terminal line has content |
| `OllamaStream.SentCallsAreOllamas` | engine.go:408-411 | The calls sent are the calls on Ollama's lines, in order, each with its id, name and whole arguments, numbered 0, 1, 2, ... across the stream |
| `OllamaStream.NumberedCallsGetOneBlockEach` | anthropic.go:505-529 | Fed with consecutively numbered fragments and any text between them, the Anthropic translator opens one tool block per fragment |
| `OllamaStream.EachCallIsOneWholeBlock` | engine.go:383-387 | For all lines: the tool_use blocks are Ollama's calls, one block per call in order, with the call's name, its id (minted if empty) and exactly its arguments in at most one delta |
| `OllamaStream.StopFollowsFromLines` | openai.go:301-306 | From Ollama's lines to the client: tool_use exactly if any call came, max_tokens exactly if none came and the done line says length, end_turn in every other case |
| `ToolHistory.SplitBlocks` | anthropic.go:161-203 | The block loop collects exactly the results, parts, calls and image flag specified |
| `ToolHistory.BlocksText` | anthropic.go:227-243 | A string as it is, or the non-empty texts of the text blocks joined by blank lines |
| `ToolHistory.JoinTextParts` | anthropic.go:245-253 | The non-empty texts joined by blank lines |
| `ToolHistory.JoinSnoc` | anthropic.go:241-252 | Joined texts are separated by the separator, with none at either end |
| `ToolHistory.ExpandTurn` | anthropic.go:149-223 | Results first, then at most one message with the remaining content and calls |
| `ToolHistory.AnthropicToOpenAI` | anthropic.go:129-141 | A non-empty system text, the string itself or the non-empty texts of its blocks joined, is the first message, and the rest is what the turns alone give; an empty one adds nothing |
| `ToolHistory.SanitizeContent` | api_handlers.go:719-743 | Truncates a string or each text part; other parts pass through |
| `ToolHistory.SanitizeMessages` | api_handlers.go:686-713 | One message for one: text truncated, part by part; null content stays null only beside tool calls and is empty text elsewhere; everything else kept |
| `ToolHistory.FlattenContent` | openai.go:183-210 | The loop yields the non-empty texts joined by newlines and the inline images in order |
| `ToolHistory.TranslateCall` | openai.go:150-162 | Records the call's name under a non-empty id; arguments become the JSON they encode, or stay the string they are when they encode none |
| `ToolHistory.TranslateMessage` | openai.go:139-178 | One message with the names known so far, updating them with its calls |
| `ToolHistory.OllamaMessages` | openai.go:135-180 | The loop is the specified fold over the messages |
| `ToolHistory.EachMessageIsTranslated` | openai.go:139-178 | In every OpenAI history each message keeps its role and flattened content, each of its calls keeps its name and its decoded arguments, and a tool result is named by its own name, else by the latest call with its id |
| `ToolHistory.MessagesForOllama` | openai.go:123-134 | All three passes in turn: the system text leads, truncated, as a message of its own, and the expected history of the turns follows |
| `ToolHistory.SystemLeadsHistory` | anthropic.go:129-131 | For every system prompt and history the system text stands first, truncated, and neither names nor changes anything after it |
| `ToolHistory.ContentSurvives` | openai.go:123-134 | Through all passes a turn with an image keeps each text, truncated, on its own line and its inline images in order; a turn without keeps its texts joined by blank lines, truncated as a whole |
| `ToolHistory.HistoryIsTranslated` | openai.go:123-134 | The composed passes equal a description on the Anthropic blocks: per turn the results with their text under the name of the latest earlier call with that id, then the rest with its text, images and each input as the same JSON object, nil as {} |
| `ToolHistory.LastNameIsMostRecent` | openai.go:153-156 | The name used is that of the most recent preceding tool_use with the id |
| `ToolHistory.NamedExactlyWhen` | openai.go:167-176 | A name is found if and only if the latest use of the id exists and has one |
| `ToolHistory.ResultReachesItsCall` | openai.go:128-130 | Every tool_result of every history arrives at its place among its turn's results with its whole text truncated, named after the latest use of its id in an earlier turn, and named if and only if that use exists and has a name |
| `ToolHistory.TurnStandsAfterEarlier` | anthropic.go:144-148 | Each turn's messages stand between those of the earlier and the later turns, unaffected by the later ones |
| `ToolHistory.SameTurnIsTooLate` | anthropic.go:190-199 | A call in the same turn does not name its own result |
| `SearchIndex.Store.CreateUser` | db.go:606-620 | Inserts under a fresh id unless the name is taken |
| `SearchIndex.Store.InsertLog` | db.go:354-358 | Inserting a row indexes its image, with the user's name as of now |
| `SearchIndex.ImageShows` | db.go:354-364 | A row is indexed as its prompt and response, NULL as empty, and its user's name, empty once the user is gone |
| `SearchIndex.Store.DeleteRow` | db.go:359-364 | Deleting a row removes the image recomputed now, and records whether that was what had been indexed |
| `SearchIndex.Store.DeleteRows` | db.go:961-982 | A batch is its rows in turn, in any order |
| `SearchIndex.Store.Backfill` | db.go:397-407 | The backfill indexes one image per row visited |
| `SearchIndex.Store.DeleteUser` | db.go:648-666 | The user's rows first, then the user |
| `SearchIndex.RowsDeleteKeepsInv` | db.go:359-364 | Any batch of deletes, in any order, keeps index and rows in step and every delete exact |
| `SearchIndex.IndexStaysInStep` | db.go:349-364 | In every run of creating users, logging (also for users already gone), deleting users, pruning and resetting, the index is exactly the image of the rows and every delete supplied exactly what was indexed |
| `SearchIndex.BackfillThenRun` | db.go:382-408 | An empty index is brought into step by the backfill and stays so |
| `SearchIndex.UserFirstCorrupts` | db.go:648-666 | In the other order the first delete supplies a name that was never indexed and leaves the old image behind |
| `StreamDeadline.Deadline.constructor` | engine.go:106-114 | Starts with the timer armed for the sooner bound; no ceiling when overall is not positive |
| `StreamDeadline.Deadline.Until` | engine.go:130-141 | The wait is never negative and ends at the sooner of the two bounds |
| `StreamDeadline.Deadline.Touch` | engine.go:128-128 | Re-arms the timer only |
| `StreamDeadline.Deadline.Fired` | engine.go:118-124 | Cancels for the ceiling at or after max and for silence before; the first cancellation stays |
| `StreamDeadline.Deadline.Stop` | engine.go:157-160 | Disarms and cancels without touching an earlier cause |
| `StreamDeadline.GivesUpOnlyForCause` | engine.go:88-97 | In every run, however late callbacks are: idle only if some gap reached idle, ceiling only at or after max |
| `StreamDeadline.SteadyStreamsAreLeftAlone` | engine.go:88-97 | While every gap stays below idle, before max, the gateway reports no timeout |
| `StreamDeadline.FirstCancellationDecides` | engine.go:143-160 | Whatever follows, cause() is ceiling, idle or nothing according to the first cancelling step alone; a client that left or a stop is never a timeout |
| `StreamDeadline.CancelledOnce` | engine.go:143-154 | Every cancelled run has exactly one such step |
| `StreamDeadline.PromptlyAtTheDeadline` | engine.go:118-141 | With a prompt timer an open stream is not past its due time, and a timeout happens exactly at a due time |
| `StreamDeadline.SilenceIsEnded` | engine.go:118-141 | From every such state silence leads to cancellation at min(last touch + idle, max), as the ceiling exactly when max is the sooner or equal |
| `LogWriter.Writer.Enqueue` | logwriter.go:48-62 | Accepted while fewer than 1024 wait, else counted as dropped |
| `LogWriter.Writer.Flush` | logwriter.go:209-223 | A non-empty batch is handed over; the timer ends off |
| `LogWriter.Writer.Receive` | logwriter.go:238-246 | Moves the oldest entry to the batch, arms the timer when off, flushes at 100 |
| `LogWriter.Writer.Tick` | logwriter.go:247-250 | A tick hands the batch over |
| `LogWriter.Writer.Drain` | logwriter.go:227-237 | The quiet drain loop ends with queue and batch handed over as one batch |
| `LogWriter.StepKeepsInv` | logwriter.go:225-252 | Every step keeps order, conservation, bounds and timer state, and counts each attempt once |
| `LogWriter.NothingIsLost` | logwriter.go:203-252 | In every run accepted entries are handed-over ++ batch ++ queue in FIFO order, attempts are accepted plus dropped, the queue holds at most 1024, and while serving the timer is active exactly when the batch is non-empty and the batch is below 100 |
| `LogWriter.DropsOnlyWhenFull` | logwriter.go:56-62 | A drop happens exactly on an offer to a full queue |
| `LogWriter.ReceiveFlushesAtThreshold` | logwriter.go:244-246 | Receiving hands a batch over exactly when it completes a hundred |
| `LogWriter.TicksFlushWaitingEntries` | logwriter.go:13-16 | A tick never finds an empty batch, and is due one interval after the batch's first entry |
| `LogWriter.QuietDrainEnds` | logwriter.go:227-237 | With producers quiet the drain ends after one step per queued entry and one more |
| `LogWriter.ShutdownHandsOverEverything` | logwriter.go:304-306 | After any run, cancellation and a quiet drain hand over everything accepted, in order |
| `LogWriter.OnlyLateEntriesAreLeft` | logwriter.go:227-237 | Even with producers active, only entries accepted after the drain ended are left |
| `RateLimiter.UserLimiter.Allow` | ratelimit.go:58-58 | Takes a token exactly when one is there; a refusal leaves the bucket alone |
| `RateLimiter.BurstIsLimit` | ratelimit.go:13-15 | A new bucket admits a burst of exactly limit requests |
| `RateLimiter.SustainedRateIsAdmitted` | ratelimit.go:13-15 | However drained, a bucket admits requests spaced at the sustained rate |
| `RateLimiter.Registry.Acquire` | ratelimit.go:37-51 | No entry for a limit of zero or less; keeps the bucket for an unchanged limit, else starts a full one; the entry it replaces is untouched |
| `RateLimiter.NoLimitNoRequest` | ratelimit.go:38-40 | A limit of zero or less refuses and leaves no trace |
| `RateLimiter.Registry.Drop` | ratelimit.go:63-67 | Forgets that user only |
| `RateLimiter.Registry.ResetAll` | ratelimit.go:78-82 | Forgets everyone |
| `RateLimiter.Registry.SweepIdle` | ratelimit.go:85-94 | Evicts exactly the entries unused for 30 minutes, in whatever order it visits them |
| `RateLimiter.RunKeepsInv` | ratelimit.go:37-94 | In every prompt run a user's entry, bucket and pending requests stay consistent |
| `RateLimiter.IdleMeansFull` | ratelimit.go:53-57 | An entry idle for 30 minutes is held by no pending request and its bucket is full |
| `RateLimiter.Simulate` | ratelimit.go:84-94 | A swept registry and one that never sweeps stay related through every run, by a one-to-one map of buckets |
| `RateLimiter.SweepsAreUnobservable` | ratelimit.go:17-18 | Every request gets the same answer from a registry swept at arbitrary times as from one never swept, provided no request takes longer than 29 minutes (and a nanosecond) between lookup and decision |
| `RateLimiter.DelayIsTight` | ratelimit.go:53-57 | One nanosecond more delay between lookup and decision, and an eviction admits a request too many |
| `RateLimiter.StepPays` | ratelimit.go:37-58 | Every step pays for its admissions: tokens handed out plus tokens left grow by at most limit per minute |
| `RateLimiter.AdmissionsAreBounded` | ratelimit.go:13-15 | Over any window of such a run without drop, reset or limit change for the user, and none of the user's requests pending on an older bucket at its start, at most limit + limit * T/60 requests are admitted in T seconds, sweeps included |
| `LoginGuard.Login.Allow` | auth.go:109-116 | Refused exactly before blockedUntil, with the time left |
| `LoginGuard.Login.Failed` | auth.go:122-140 | The new guard, and the lockout this failure started or 0 |
| `LoginGuard.Login.Succeeded` | auth.go:145-151 | Back to the initial guard |
| `LoginGuard.LockoutDoubles` | auth.go:129-136 | The doubling with a cap yields min(2^(k-1), 15) minutes as k-th lockout, for every k |
| `LoginGuard.FailuresDecideLockouts` | auth.go:122-140 | After any n failures without success the counter is n mod 5 and every fifth starts lockout n/5, at any times and in any interleaving |
| `LoginGuard.GuessingIsSlow` | auth.go:118-121 | In every sequential run without success, derivation number n (from 0) begins no earlier than the first plus the first n/5 lockouts; number 5k waits out k |
| `LoginGuard.GuessesTakeTime` | auth.go:88-92 | Guesses number 5, 10, 15, 20, 25 (from 0) come no earlier than 1, 3, 7, 15, 30 minutes after the first, and every five more cost 15 minutes |
| `LoginGuard.LockoutsAddUp` | auth.go:129-136 | The first k lockouts add up to 2^k - 1 minutes for k up to 4 and 15 (k - 3) minutes from then on |
| `LoginGuard.SuccessForgets` | auth.go:142-144 | After an admitted success the run continues as from the initial guard |
| `UserCache.Cache.Get` | db.go:476-491 | A hit moves to the front, an expired entry goes, and list and index stay in step |
| `UserCache.Cache.Set` | db.go:493-514 | Replaces or inserts at the front with a new expiry, evicting from the back beyond 4096 |
| `UserCache.Cache.EvictOverflow` | db.go:506-513 | The loop cuts the list to 4096 |
| `UserCache.Cache.Invalidate` | db.go:516-533 | Removes exactly the entries filed under the user's id or holding that user under an API key, in whatever order it visits the index |
| `UserCache.AnswerIsHeld` | db.go:476-491 | An answer is exactly an unexpired entry in the list |
| `UserCache.PutIsServed` | db.go:493-504 | A cached value is served until its TTL and not after |
| `UserCache.PutSparesOthers` | db.go:493-514 | Caching a key changes no other answer but that of an entry it evicts |
| `UserCache.GetChangesNoAnswer` | db.go:476-491 | Looking a key up changes no answer, now or later |
| `UserCoherence.LruInEveryRun` | db.go:459-474 | In every run keys are distinct, at most 4096, most recently used first |
| `UserCoherence.OverflowEvictsLeastRecentlyUsed` | db.go:506-513 | An overflowing set evicts exactly the least recently used entry |
| `UserCoherence.InvalidationIsExact` | db.go:516-533 | In every run invalidation removes every entry of that user and no other |
| `UserCoherence.StepKeepsInv` | db.go:538-646 | Every step of interleaved lookups and mutations keeps the cache's shape and the reason each entry may be trusted |
| `UserCoherence.ChangeIsExact` | db.go:622-658 | Each mutation sets its one field of its one row or removes that row, and nothing else |
| `UserCoherence.HitsAreCurrentExactlyUnlessOvertaken` | db.go:538-576 | In every run a hit comes from the current version of the user's row if and only if no mutation of that user overtook the lookup that filled it; a current hit is the table's answer; none is older than the TTL |
| `UserCoherence.StaleAfterTheRace` | db.go:545-556 | A run in which a change commits and invalidates between a lookup's read and its fill, and the old row is served |
| `UserCoherence.StaleUntilInvalidated` | db.go:622-628 | A run in which the old row is served between a commit and its invalidation |
| `UserCoherence.SequentialRunsAreCoherent` | db.go:538-666 | Lookups and mutations one at a time keep the whole cache equal to the table |
| `UserCoherence.SequentialHitsAreTrue` | db.go:538-576 | so every hit is the database's answer |
| `Routing.RouteIndex.Land` | routing.go:91-99 | A probe that answered adds its engine under each of its models |
| `Routing.RouteIndex.SortAll` | routing.go:114-116 | Sorts each list, visiting the names in any order |
| `Routing.Router.Rebuild` | routing.go:123-128 | Returns the index of the probes that landed; publishes it unless the generation moved |
| `Routing.Router.Select` | routing.go:208-256 | The verdict: for a named model the first listed engine with an adapter, not found, or the default; which index it rests on, whether that was rebuilt, and what is published afterwards; without a model the default |
| `Routing.FallbackIsDefault` | routing.go:182-190 | The default is the first Ollama engine with an adapter in the configured order, else the first engine of any kind if it has one, and none exactly when neither exists |
| `Routing.RechecksExactly` | routing.go:228-234 | A second look happens exactly when nothing usable is listed and the index was invalidated or is more than a minute old |
| `Routing.BuildIgnoresOrder` | routing.go:22-24 | Probes landed in any order give the same index |
| `Routing.FullBuildDecides` | routing.go:22-24 | Once all probes landed the verdict is a fact about the engines: lowest one up that holds the model; not found exactly when some engine is up and none holds it; the default engine in a total outage |
| `Routing.BuildDecides` | routing.go:200-207 | What any build decides, complete or cut short: the lowest engine id among its probes that serves the model; not found exactly when some probe answered and none serves it |
| `Routing.NotFoundIsCurrent` | routing.go:228-256 | Not found only from an index that some engine answered for, that lists the model on no usable engine, and that was within its TTL or rebuilt in this call |
| `Routing.PartialBuildMisses` | routing.go:105-110 | After a cut-short build a model held by a reachable engine can be reported as not found |
| `Routing.NotFoundIsTrueExactlyWhen` | routing.go:105-117 | A not-found verdict of a build that was cut short is true of the engines if and only if the probe of every engine that serves the model had landed |
| `Truncation.TruncateTo` | request_detail.go:80-88 | The loop cuts at the last character start within the bound |
| `Truncation.TruncateInput` | auth.go:179-188 | The same cut, for any bound |
| `Truncation.Utf8IsCharacters` | auth.go:175-178 | Reading byte by byte accepts exactly the sequences of characters that section 4 of RFC 3629 spells out |
| `Truncation.BoundariesAreStarts` | auth.go:175-178 | In valid UTF-8 the valid prefixes are exactly those ending before a byte that is no continuation byte |
| `Truncation.TruncationIsLongest` | auth.go:175-178 | Truncation keeps the longest valid prefix within the bound and gives up at most 3 bytes |
| `Truncation.StreamAudit.Write` | api_handlers.go:758-770 | Appends what fits, cut at a character start |
| `Truncation.AuditIsAPrefix` | api_handlers.go:745-751 | Over any writes the buffer is valid, within its limit, exact until the first cut, and gains at most 3 bytes after it |
| `Truncation.AuditIsExactWhenNothingStrays` | api_handlers.go:758-770 | The buffer is the longest valid prefix that fits if and only if every write after the first cut is empty or begins with a character too long for what is left |
| `Truncation.StrayBytesHappen` | api_handlers.go:758-770 | Such bytes are possible: the buffer need not be a prefix of the text |
| `Usage.UsageBarClass` | usage.go:104-117 | A multiple of 10 up to 100, non-zero exactly for tokens and a maximum above zero |
| `Usage.BarIsShare` | usage.go:95-117 | A bar is as many whole tenths as the client's share of the largest, at least one with any tokens, none without |
| `Usage.BarsAreMonotone` | usage.go:104-117 | More tokens never give a shorter bar |
| `Usage.PanelBars` | usage.go:192-202 | On every panel a client has a bar exactly when it has tokens; every client with the largest total has a full bar, and there is one when there are any tokens |
| `Usage.GroupRows` | usage.go:160-189 | One pass groups the rows by client in order of first sighting |
| `Usage.SumTallies` | usage.go:175-188 | Sums are field by field |
| `Usage.BuildUsagePanel` | usage.go:153-204 | Every line has its client's name, registration and status off its first row, its rows as models, its counts field by field and its bar against the largest client; totals and count |
| `Usage.GroupingConserves` | usage.go:164-189 | The totals are the sum over the clients, and every row is listed under exactly one client, its own |
| `Usage.ClientsAddUp` | usage.go:175-183 | A client's counts are the sum over its models |
| `Usage.ModelsAreRows` | usage.go:180-183 | A client's models are its rows, one by one |
| `Usage.ModelsDescend` | usage.go:151-152 | When the rows descend, so do each client's models |
| `Usage.PeakIsLargest` | usage.go:151-152 | A client's first model is its largest |
| `Usage.ClientsDescendByPeak` | usage.go:151-152 | and the clients descend by their largest single model |
| `Usage.TotalsNeedNotDescend` | usage.go:151-152 | but not by their own total |
| `Usage.ClientsDescendByTotalWhenSingle` | usage.go:151-152 | With a single row per client the clients descend by total |
| `StatusRecorder.Recorder.WriteHeader` | main.go:613-621 | The first call sets the status; the server's writer gets every call |
| `StatusRecorder.Recorder.Write` | main.go:626-629 | Marks the response committed and implies 200 on the wire |
| `StatusRecorder.Recorder.ReadFrom` | main.go:665-671 | A copy commits on the recorder even when nothing was copied |
| `StatusRecorder.Gateway.LogRequest` | main.go:765-804 | One row per /v1/ request, panicking or not, with the status about to be presented |
| `StatusRecorder.Gateway.WritePanicResponse` | main.go:977-994 | An error response when nothing was written, an error frame on an event stream, else nothing |
| `StatusRecorder.Gateway.Serve` | metrics.go:120-159 | One metric and at most one row per request, with the statuses below; the gauge's decrement runs on every exit |
| `StatusRecorder.MetricIsAudit` | main.go:673-689 | The metric and the row of a request carry the same status, whatever the handler did |
| `StatusRecorder.ObserversAgreeExactlyWhenHonest` | main.go:691-702 | The status on the wire is the recorded one if and only if the operations pass a scan up to their first commit |
| `StatusRecorder.PlainIsHonest` | main.go:599-602 | which every list passes that sends no informational status, copies nothing empty and does not flush before its first write |
| `StatusRecorder.CommittedBodyIsLeftAlone` | main.go:961-976 | The body is the handler's own; a panic adds to it only before any commit or on an event stream |
| `StatusRecorder.EarlyPanicIs500` | main.go:961-988 | A panic before anything was written is a 500 to all three, with an error body |
| `StatusRecorder.OnlyRequestsLetThroughAreLogged` | main.go:765-802 | The handler runs, and leaves one row under /v1/, exactly when the outer layers let the request through |

## Left out

- HTTP transport, URL assembly, SQLite itself, sessions, CSRF, templates and the admin handlers: I/O,
  user interface or single-branch code.
- JSON encoding and decoding, SHA-256 and PBKDF2: marshalling is a parameter assumed to be undone by
  unmarshalling, hashes are opaque strings.
- Random ids (messages, tool calls) are inputs or a marker for "minted here"; replies are compared up to them.
- Adapters captured before an engine edit: freshness is measured from when an upstream read began, and a
  probe of an old adapter may begin after the invalidation; the code does not prevent that.
- Appends to an index after its build timed out: `ProbeProtocol` has them as steps for freshness; `Routing`
  takes the index as it was when the build returned.
- The engine list and the adapters are one snapshot per `Routing.Router.Select`; the code reads them several times.
- The background refresh of a stale index (`routing.go:148-162`) is one more build in `ProbeProtocol`; its
  one-at-a-time flag is not modelled.
- `passthroughStream.Recv`, `metaFromChunk`, `deltaAuditText`, `applyMeta`, `setFirstToken` and the relay loops of the
  stream handlers: one-branch bookkeeping around what is modelled.
- Read errors of a stream's scanner and lines over its size limit: a stream is the list of lines it yields.
- Turns and parts that are not JSON objects, which the translators skip; message fields besides role,
  content, name, tool_call_id and tool_calls; deriving a data: URL from an image source is a parameter.
- `request_logs_fts`: its columns are all in the row itself, so its triggers need no lookup. Matching versus LIKE
  search is not modelled; the two do not return the same rows.
- The transaction that writes a batch of log entries: a batch counts as handed over even if the database
  refuses it, as in the code. The periodic report that reads and clears the drop counter is not modelled either.
- Rounding in the token bucket: time is whole nanoseconds and levels are exact. `RateLimiter.UserLimiter.Allow`
  stands for the library's Allow at a single time.
- LoginGuard.GuessingIsSlow: attempts are sequential; concurrent attempts that were all admitted before the
  first failure was recorded can each derive.
- Integer overflow of token sums, of `tokens * 100` in the bars, and of generation counters.
- Negative bounds in `Truncation.TruncateTo` and `Truncation.TruncateInput`, on which the Go code would panic.
- The leading newline that the audit buffer's `String` drops.
- Hijacked connections, and Content-Type changes after a response was committed: the recorder model has no
  hijack, and reads the header map as the code does.
- `humanNum`, `pathBucket`, `usageWindowFor`, pagination, parameter allow-lists: easy members.
