# combined_AI_assistant in Dafny

combined_AI_assistant is a Swing desktop application. It sends one query to
two AI providers, ChatGPT and Perplexity, and shows the two answers side by
side. This project models its core: the two provider handlers, the input
panel that submits a query and joins the two answers, the two response
panels, and the background-task panel. It proves what each part promises.

- **Provider handlers** (`ChatGptApi`, `PerplexityApi`).
  - Each handler has a credential gate: a key that is neither null nor empty.
  - Each builds a JSON request body with the prompt's quotes escaped.
  - One HTTP exchange is an abstract `Transport`: the lines of the response
    stream, the lines of the error stream, or an exception message.
  - The ChatGPT handler walks the reply to `choices[0].message.content`,
    scans to the closing quote, and cleans the text with a fixed pipeline of
    rewrites. It makes up to three attempts, sleeping 1000 ms and then
    2000 ms between them.
  - The Perplexity handler makes one call and returns a canned reply chosen
    by the prompt's hash code.
  - Both asynchronous wrappers turn an exception into text.
- **Java's own operations** (`JavaString`, `Wire`, `Markup`).
  - `String.trim`, `indexOf` and `replace`, and the truncating `%`.
  - The `readLine` loop that appends trimmed lines.
  - The regular-expression rewrites of `cleanResponse`, each written as the
    left-to-right scan of `replaceAll`.
- **Input panel** (`InputPanel`).
  - `submitQuery` trims the query and rejects it when it is empty or when a
    key is missing. Otherwise it switches loading on and calls both
    providers.
  - Once both answers are in, a callback (`Join`) displays them, saves them,
    resets loading and clears the input. If that stage fails, it reports the
    error and resets loading.
  - Effects outside the panel's own fields go in a ghost log, in order:
    dialogs, loading changes, calls, displays, the save and the clear.
- **Response panels** (`ChatGptPanel`, `PerplexityPanel`, `Transcript`).
  - A text buffer that is appended to and cleared in place.
  - The buffer always equals the replay of its edits.
- **Background panel** (`BackgroundPanel`).
  - A running flag beside a thread pool.
  - The pool is modelled as a shut-down flag, a forced-shutdown flag and the
    list of submitted tasks.
  - The methods are tied to a value-level state machine. Lemmas about that
    state machine prove the lifecycle properties.

Inputs the program takes from its environment become parameters:

- The network outcomes, as `Transport` values.
- Whether each sleep is interrupted.
- `String.hashCode` of the prompt.
- The random conversation id.
- Whether the join stage throws.
- How `awaitTermination` ends.

## Model

| member | source | states |
|---|---|---|
| JavaString.IndexOf | src/api_calls/ChatGPT_api_handler.java:174-180 | indexOf(p, from): the first occurrence at or after `from`, with none before it; absent exactly when there is none |
| JavaString.IndexOfFirst | src/api_calls/ChatGPT_api_handler.java:174-180 | indexOf from `from` yields an occurrence exactly when no occurrence lies between `from` and it |
| JavaString.ReplaceNeverLonger | src/api_calls/ChatGPT_api_handler.java:231-236 | replacing a pattern by a text no longer than it never lengthens the string |
| JavaString.ReplaceAbsent | src/api_calls/ChatGPT_api_handler.java:231-236 | replace leaves a text with no occurrence of the pattern unchanged |
| JavaString.Trim | src/api_calls/ChatGPT_api_handler.java:271 | trim() neither starts nor ends with a character <= U+0020; it is an infix of the input, and everything cut off on either side is such a character |
| JavaString.TrimEmptyIff | src/panels/Input_panel.java:108-111 | the trimmed query is empty exactly when every character of the input is <= U+0020 |
| JavaString.TrimIdempotent | src/panels/Input_panel.java:108 | trimming again changes nothing |
| JavaString.JavaRem | src/api_calls/Perplexity_api_handler.java:139 | Java's `%` truncates toward zero: the result lies strictly between -b and b and has the sign of the dividend |
| JavaString.JavaAbs | src/api_calls/Perplexity_api_handler.java:139 | Math.abs gives the value or its negation, never negative |
| Wire.ReadTrimmedLines | src/api_calls/ChatGPT_api_handler.java:142-148 | the readLine loop leaves the concatenation of the trimmed lines, in order |
| Wire.JoinTrimmedAppend | src/api_calls/Perplexity_api_handler.java:104-111 | reading two stretches of a stream yields the concatenation of their two texts |
| Wire.EscapeQuotesCons | src/api_calls/ChatGPT_api_handler.java:132 | the escaping works character by character: a quote becomes backslash-quote, any other character stays |
| Wire.EscapedQuotesArePreceded | src/api_calls/ChatGPT_api_handler.java:132 | in the escaped prompt, every quote comes right after a backslash |
| Wire.EscapeQuotesRoundTrip | src/api_calls/ChatGPT_api_handler.java:131-132 | replacing backslash-quote by a quote gives back the original prompt, even one that already holds backslashes |
| Wire.EscapeQuotesInjective | src/api_calls/Perplexity_api_handler.java:85 | different prompts give different escaped texts |
| Markup.Run | src/api_calls/ChatGPT_api_handler.java:243 | a greedy repetition takes the longest prefix in the class |
| Markup.LazyBody | src/api_calls/ChatGPT_api_handler.java:239-253 | a lazy `(.*?)` body ends at the first occurrence of the closing delimiter, with no line terminator before it (`[\s\S]*?` allows any character) |
| Markup.StripDelimited | src/api_calls/ChatGPT_api_handler.java:239-253 | the delimited rewrites never lengthen the text |
| Markup.StripDelimitedAbsent | src/api_calls/ChatGPT_api_handler.java:239-253 | a text without the delimiter passes through a delimited rewrite unchanged |
| Markup.StripHeaders | src/api_calls/ChatGPT_api_handler.java:243 | removing `#+\s+` anywhere never lengthens the text |
| Markup.StripLeadingBullet | src/api_calls/ChatGPT_api_handler.java:256 | without MULTILINE the bullet rule removes only a prefix of the whole text |
| Markup.StripLeadingNumber | src/api_calls/ChatGPT_api_handler.java:259 | the number rule removes only a prefix of the whole text |
| Markup.StripUnicodeEscapes | src/api_calls/ChatGPT_api_handler.java:266 | removing `\uXXXX` escapes never lengthens the text |
| Markup.StripMarkup | src/api_calls/ChatGPT_api_handler.java:239-266 | the LaTeX, header, emphasis, code, list-marker, bullet and Unicode-escape rewrites in the source's order; the result is never longer than the input |
| Markup.CollapseNewlines | src/api_calls/ChatGPT_api_handler.java:269 | replaceAll of three or more newlines by two; the result is never longer than the input |
| Markup.CollapseLeavesNoRun3 | src/api_calls/ChatGPT_api_handler.java:269 | after collapsing newline runs no three newlines are adjacent; the text is empty only if the input was, and keeps its first character |
| Markup.TrimKeepsNoRun3 | src/api_calls/ChatGPT_api_handler.java:269-271 | trimming cannot create a run of three newlines |
| Markup.NoRun3Infix | src/api_calls/ChatGPT_api_handler.java:271 | an infix of a text without a run of three newlines has none either |
| Markup.CollapseFixesNoRun3 | src/api_calls/ChatGPT_api_handler.java:269 | a text with no run of three newlines is left as it is by the collapse |
| Markup.CollapseIdempotent | src/api_calls/ChatGPT_api_handler.java:269 | collapsing twice is collapsing once |
| Markup.CollapseKeepsOtherCharacters | src/api_calls/ChatGPT_api_handler.java:269 | the collapse removes newlines only: every other character survives, in order |
| ChatGptApi.RequestBodyDeterminesPrompt | src/api_calls/ChatGPT_api_handler.java:129-133 | the request body determines the prompt |
| ChatGptApi.UnescapeJson | src/api_calls/ChatGPT_api_handler.java:230-236 | the six escape replacements in the source's order; the result is never longer than the input |
| ChatGptApi.CleanResponse | src/api_calls/ChatGPT_api_handler.java:225-271 | cleanResponse(null) is ""; any output is no longer than its input, holds no run of three newlines and neither starts nor ends with white space |
| ChatGptApi.CollapseAndTrim | src/api_calls/ChatGPT_api_handler.java:269-271 | after the collapse and the trim the text is no longer, has no run of three newlines and no white space at either end |
| ChatGptApi.ValueAfterKeys | src/api_calls/ChatGPT_api_handler.java:174-182 | the chain of three key searches and the quote search; a result is the index just past a quote of the reply |
| ChatGptApi.ValueAfterKeysFindsFirstPath | src/api_calls/ChatGPT_api_handler.java:174-182 | a result lies just past the first path: each key is its first occurrence at or after the previous key, and the quote is the first one after the last key |
| ChatGptApi.ValueAfterKeysFound | src/api_calls/ChatGPT_api_handler.java:174-181 | conversely, any occurrence of the three keys and a quote in that order is enough for every search to succeed |
| ChatGptApi.ValueAfterKeysIsFirst | src/api_calls/ChatGPT_api_handler.java:174-182 | on the first path the result is exactly the index after its quote, whatever later keys the reply holds |
| ChatGptApi.ContentValueStart | src/api_calls/ChatGPT_api_handler.java:174-182 | the index just past the quote that opens the content value; the character before it is a quote |
| ChatGptApi.ContentValueStartFindsFirstPath | src/api_calls/ChatGPT_api_handler.java:174-182 | a value start is always the one after the first "choices" / "message" / "content" / quote path |
| ChatGptApi.ContentValueStartFound | src/api_calls/ChatGPT_api_handler.java:174-181 | any "choices" / "message" / "content" / quote path in that order gives a value start |
| ChatGptApi.ContentValueStartIsFirst | src/api_calls/ChatGPT_api_handler.java:174-182 | with several "content" keys, the value start is the one after the first path |
| ChatGptApi.ScanEnd | src/api_calls/ChatGPT_api_handler.java:186-199 | the closing-quote scan stops only on a quote, at or after its start |
| ChatGptApi.ScanEndIff | src/api_calls/ChatGPT_api_handler.java:186-199 | the scan stops at j exactly when j holds a quote and everything before it is an escaped body: a character after a backslash is never the terminator, and no earlier unescaped quote is passed |
| ChatGptApi.ScanEndNoneIff | src/api_calls/ChatGPT_api_handler.java:186-201 | the scan finds no terminator exactly when no quote ends an escaped body |
| ChatGptApi.ParseResponse | src/api_calls/ChatGPT_api_handler.java:171-213 | the definition of parseJsonResponse: the value start, the closing-quote scan, then cleanResponse of the text between; the parsing-failed message when either is missing |
| ChatGptApi.ParseResponseReadsFirstPath | src/api_calls/ChatGPT_api_handler.java:174-205 | with several "content" keys, the reply is the cleaned text after the first path, up to its first unescaped quote |
| ChatGptApi.ParseResponseExtracts | src/api_calls/ChatGPT_api_handler.java:201-205 | with the path and a terminator present, the reply is the cleaned text between the quotes |
| ChatGptApi.ParseResponseNoTerminator | src/api_calls/ChatGPT_api_handler.java:201-213 | with no unescaped closing quote, the reply is exactly the parsing-failed message |
| ChatGptApi.ParseResponseNoPath | src/api_calls/ChatGPT_api_handler.java:174-213 | when no positions hold "choices", "message", "content" and a quote in that order, the reply is exactly the parsing-failed message |
| ChatGptApi.ParseJsonResponse | src/api_calls/ChatGPT_api_handler.java:171-218 | the index searches and the for loop over the value compute the parse defined above |
| ChatGptApi.CallOnce | src/api_calls/ChatGPT_api_handler.java:105-164 | the definition of one makeApiCall: the missing-key message without a key, otherwise the parsed reply, "API Error: " and the error stream, or the exchange's exception |
| ChatGptApi.CallOnceThrowsIff | src/api_calls/ChatGPT_api_handler.java:105-164 | makeApiCall throws exactly when a key is set and the exchange fails, with that failure's message |
| ChatGptApi.AttemptOutcomes | src/api_calls/ChatGPT_api_handler.java:73-75 | one outcome per exchange: attempt j yields what makeApiCall gives for exchange j |
| ChatGptApi.Retry | src/api_calls/ChatGPT_api_handler.java:72-93 | the definition of the loop from attempt k with the current delay, over the attempts' outcomes: return, give up after the third failure, stop on an interrupted sleep, or sleep and double the delay |
| ChatGptApi.RetryCall | src/api_calls/ChatGPT_api_handler.java:68-97 | the definition of a whole call: the loop from attempt 0 and 1000 ms, over the outcomes of the given exchanges |
| ChatGptApi.RetryShapeFrom | src/api_calls/ChatGPT_api_handler.java:73-93 | from any attempt on, for any attempt outcomes: the attempts stay within three, the delays double at each step and there is one fewer than the attempts, unless the last sleep was interrupted after a failed attempt, which then gives the interruption message |
| ChatGptApi.RetryShape | src/api_calls/ChatGPT_api_handler.java:68-97 | at most three attempts; the delays are a prefix of 1000, 2000 and never include 4000; one fewer delay than attempts, unless the call ended with the interruption message |
| ChatGptApi.RetryReturnsFrom | src/api_calls/ChatGPT_api_handler.java:73-87 | for any attempt outcomes: after failures without interruption from attempt k0 up to attempt k, which returns, the loop yields that result with the doubling delays in between |
| ChatGptApi.RetryReturnsFirstSuccess | src/api_calls/ChatGPT_api_handler.java:73-75 | if attempt k (0-based) is the first to return, the call returns it after exactly k sleeps of 1000 and then 2000 ms |
| ChatGptApi.RetryExhausted | src/api_calls/ChatGPT_api_handler.java:76-80 | three failures throw "Maximum retry attempts reached: " plus the last message, after sleeping 1000 and 2000 ms |
| ChatGptApi.RetryInterrupted | src/api_calls/ChatGPT_api_handler.java:84-91 | an interrupted sleep ends the call at once with "API call interrupted: " plus that attempt's message; no later attempt runs |
| ChatGptApi.RetryWithoutKey | src/api_calls/ChatGPT_api_handler.java:106-108 | without a key the call returns the fixed message after one attempt and no sleep |
| ChatGptApi.AsyncExhausted | src/api_calls/ChatGPT_api_handler.java:51-58 | when every attempt fails the future still completes normally, with "Error calling ChatGPT API: " before the retry message |
| ChatGptApi.ChatGptHandler.constructor | src/api_calls/ChatGPT_api_handler.java:23-28 | a new handler has the empty key and no valid key |
| ChatGptApi.ChatGptHandler.HasValidApiKey | src/api_calls/ChatGPT_api_handler.java:42-44 | the definition of a usable key: set and not empty; SetApiKey states when it holds |
| ChatGptApi.ChatGptHandler.SetApiKey | src/api_calls/ChatGPT_api_handler.java:34-44 | the key is replaced; the handler then has a valid key exactly when the new key is neither null nor empty |
| ChatGptApi.ChatGptHandler.MakeApiCall | src/api_calls/ChatGPT_api_handler.java:105-164 | without a key, the fixed message and no request; otherwise the escaped request body is sent and the exchange decides the outcome |
| ChatGptApi.ChatGptHandler.MakeApiCallWithRetry | src/api_calls/ChatGPT_api_handler.java:68-97 | the while loop's result, attempt count and delays are those of the retry definition the lemmas above describe; with a key it sends one request body per attempt, each the body for the prompt, and without one none |
| ChatGptApi.ChatGptHandler.MakeAsyncApiCall | src/api_calls/ChatGPT_api_handler.java:51-59 | the future's text is the retry result, or the exception's message behind the error prefix; the bodies sent are one per attempt with a key, none without, each the body for the prompt |
| PerplexityApi.RequestBodyDeterminesPrompt | src/api_calls/Perplexity_api_handler.java:83-86 | the body starts with the model sonar-medium-online and determines the prompt |
| PerplexityApi.ReplyIndex | src/api_calls/Perplexity_api_handler.java:139 | abs(hash % 5) is a valid index into the five replies for every int, and equals abs(hash) mod 5 |
| PerplexityApi.SimulateResponse | src/api_calls/Perplexity_api_handler.java:128-141 | one of the five canned replies followed by " [Simulated Perplexity response with web-search capability]" |
| PerplexityApi.DeliveredReplyIgnoresBody | src/api_calls/Perplexity_api_handler.java:95-119 | on a delivered response the reply does not depend on the body; it starts with "Perplexity response to: " and the prompt and ends with the simulated suffix |
| PerplexityApi.CallOnce | src/api_calls/Perplexity_api_handler.java:68-120 | the definition of one makeApiCall: the missing-key message without a key, otherwise the simulated reply, "API Error: " and the error stream, or the exchange's exception |
| PerplexityApi.CallOnceThrowsIff | src/api_calls/Perplexity_api_handler.java:68-120 | makeApiCall throws exactly when a key is set and the exchange fails |
| PerplexityApi.AsyncFailureNoRetry | src/api_calls/Perplexity_api_handler.java:52-59 | a failed exchange is reported at once behind "Error calling Perplexity API: ", with no retry |
| PerplexityApi.PerplexityHandler.constructor | src/api_calls/Perplexity_api_handler.java:24-29 | a new handler has the empty key and no valid key |
| PerplexityApi.PerplexityHandler.HasValidApiKey | src/api_calls/Perplexity_api_handler.java:43-45 | the definition of a usable key: set and not empty; SetApiKey states when it holds |
| PerplexityApi.PerplexityHandler.SetApiKey | src/api_calls/Perplexity_api_handler.java:35-45 | the key is replaced; the handler then has a valid key exactly when the new key is neither null nor empty |
| PerplexityApi.PerplexityHandler.MakeApiCall | src/api_calls/Perplexity_api_handler.java:68-120 | without a key, the fixed message and no request; otherwise the escaped body is sent; a delivered body gives the simulated reply, an error stream gives "API Error: " and its trimmed lines |
| PerplexityApi.PerplexityHandler.MakeAsyncApiCall | src/api_calls/Perplexity_api_handler.java:52-60 | one call, and an exception becomes its message behind the error prefix; one body for the prompt is sent with a key, none without |
| Transcript.ReplayAfterReset | src/panels/ChatGPT_panel.java:87-89 | a clear forgets everything shown before it |
| Transcript.ReplayAppendsOnly | src/panels/ChatGPT_panel.java:68-75 | without a clear, earlier text stays a prefix: the area only grows at its end |
| ChatGptPanel.EntryReadsBack | src/panels/ChatGPT_panel.java:68-72 | an entry starts with the rule and holds the query and the response at fixed places |
| ChatGptPanel.EntryDeterminesResponse | src/panels/ChatGPT_panel.java:68-72 | for one query, different responses give different entries |
| ChatGptPanel.ChatGptPanel.constructor | src/panels/ChatGPT_panel.java:23-26 | the panel keeps the handler it was given and starts with an empty area |
| ChatGptPanel.ChatGptPanel.DisplayResponse | src/panels/ChatGPT_panel.java:68-82 | the area gains exactly the rule, "Query: ", the query, a blank line, the response and a blank line; the old text stays as a prefix |
| ChatGptPanel.ChatGptPanel.ClearConversation | src/panels/ChatGPT_panel.java:87-89 | the area is empty |
| ChatGptPanel.ChatGptPanel.SetLoading | src/panels/ChatGPT_panel.java:95-104 | true appends exactly the fetching line; false leaves the area unchanged |
| ChatGptPanel.ChatGptPanel.GetApiHandler | src/panels/ChatGPT_panel.java:106-108 | the handler given to the constructor |
| PerplexityPanel.EntryReadsBack | src/panels/Perplexity_panel.java:68-72 | an entry starts with the rule, holds the query at a fixed place and ends with the response and a blank line |
| PerplexityPanel.EntryBoundaryIsLost | src/panels/Perplexity_panel.java:71-72 | with no separator, moving a character across the query/response boundary gives the same entry |
| PerplexityPanel.PerplexityPanel.constructor | src/panels/Perplexity_panel.java:22-25 | the panel keeps the handler it was given and starts with an empty area |
| PerplexityPanel.PerplexityPanel.DisplayResponse | src/panels/Perplexity_panel.java:68-82 | the area gains exactly the rule, "Query: ", the query, the response and a blank line; the old text stays as a prefix |
| PerplexityPanel.PerplexityPanel.ClearConversation | src/panels/Perplexity_panel.java:87-89 | the area is empty |
| PerplexityPanel.PerplexityPanel.SetLoading | src/panels/Perplexity_panel.java:95-105 | true appends exactly the fetching line; false leaves the area unchanged |
| PerplexityPanel.PerplexityPanel.GetApiHandler | src/panels/Perplexity_panel.java:107-109 | the handler given to the constructor |
| InputPanel.SubmitEffects | src/panels/Input_panel.java:106-184 | the definition of a submission's effects in order: a warning for a rejected query; otherwise loading, the two calls, then the join's displays, save, loading reset and clear, or its error report and loading reset |
| InputPanel.SubmittedAsDetermines | src/panels/Input_panel.java:128-144 | the pending submission is determined by the id, the query and what the network does: texts, and request bodies one by one |
| InputPanel.SubmittedSendsQuery | src/panels/Input_panel.java:143-144 | a submission sends one to three ChatGPT bodies and exactly one Perplexity body, and every one of them is the body of the trimmed query and of no other prompt |
| InputPanel.SubmitThenJoin | src/panels/Input_panel.java:106-184 | a submission is its start followed by its join when it was accepted; a rejected one has no callback |
| InputPanel.Prelude | src/panels/Input_panel.java:132-140 | loading is switched on first; the rest are panel loading indicators |
| InputPanel.Shows | src/panels/Input_panel.java:155-160 | each attached panel shows its own provider's response exactly once, and nothing else is shown |
| InputPanel.JoinHasNoDispatch | src/panels/Input_panel.java:147-183 | the callback neither calls a provider nor switches loading on |
| InputPanel.RejectionOnlyWarns | src/panels/Input_panel.java:108-126 | a rejected query gives one warning and nothing else; the empty-query warning is given exactly when the trimmed query is empty |
| InputPanel.EachProviderCalledOnce | src/panels/Input_panel.java:143-144 | an accepted query calls each provider exactly once, always with the trimmed query |
| InputPanel.LoadingThenDispatchThenJoin | src/panels/Input_panel.java:132-163 | loading comes first and is not switched on after a call; nothing is shown or saved before both calls |
| InputPanel.NormalPathParts | src/panels/Input_panel.java:132-169 | the normal path is loading, the two calls, the displays, then the save, the loading reset and the clear |
| InputPanel.JoinSavesOnce | src/panels/Input_panel.java:163 | the normal path saves exactly once |
| InputPanel.SaveCarriesBothResponses | src/panels/Input_panel.java:149-163 | every save carries the conversation id, the query and both responses |
| InputPanel.NoSaveBeforeJoin | src/panels/Input_panel.java:143-160 | nothing before the save is a save |
| InputPanel.JoinShowsOnce | src/panels/Input_panel.java:155-160 | on the normal path each attached panel shows its own response once, and only those |
| InputPanel.FailedJoinReports | src/panels/Input_panel.java:171-183 | a failed join reports "Error processing query: " plus the message, and shows, saves and clears nothing |
| InputPanel.LoadingAlwaysReset | src/panels/Input_panel.java:166-180 | whenever loading was switched on, the last loading change switches it off, on the success and the failure path alike |
| InputPanel.ClearedOnlyOnSuccess | src/panels/Input_panel.java:169 | the input is cleared exactly when the query was accepted and the join succeeded |
| InputPanel.InputPanel.constructor | src/panels/Input_panel.java:34-41 | the given handlers, no response panels, an empty input and idle widgets |
| InputPanel.InputPanel.SetPanels | src/panels/Input_panel.java:48-51 | the two response panels are attached and nothing else changes |
| InputPanel.InputPanel.SetLoading | src/panels/Input_panel.java:190-194 | submit-enabled is not b, progress-visible is b and editable is not b |
| InputPanel.InputPanel.ShowLoading | src/panels/Input_panel.java:132-140 | loading is on here, and each attached panel's area gains its fetching line |
| InputPanel.InputPanel.Complete | src/panels/Input_panel.java:153-169 | each attached panel's area gains its entry, the save is logged, the widgets are idle and the input is empty |
| InputPanel.InputPanel.Fail | src/panels/Input_panel.java:171-183 | the error is reported, the widgets are idle and the input is kept |
| InputPanel.InputPanel.CallProviders | src/panels/Input_panel.java:143-144 | one asynchronous call to each provider, ChatGPT first, with the handlers' results and the request bodies each sent for the query |
| InputPanel.InputPanel.Join | src/panels/Input_panel.java:147-183 | the callback's effects are the join defined above; the widgets end idle in both cases; the input is cleared and the entries are appended only on success |
| InputPanel.InputPanel.Start | src/panels/Input_panel.java:128-144 | loading, then one call to each provider; the pending submission carries the id, the query, both providers' texts, one ChatGPT body per attempt and one Perplexity body, all for the query |
| InputPanel.InputPanel.Reject | src/panels/Input_panel.java:111-126 | one warning, and nothing else changes |
| InputPanel.InputPanel.SubmitQuery | src/panels/Input_panel.java:106-146 | a submission is pending exactly when the trimmed input is non-empty and both keys are valid, and then it is the submission of the trimmed input with its texts and request bodies; otherwise only a warning is given and the panels are untouched |
| BackgroundPanel.Initial | src/panels/Background_panel.java:18-21 | a new panel is running, its flags agree and it has no tasks |
| BackgroundPanel.AfterExecute | src/panels/Background_panel.java:26-30 | the definition of executeTask as a step: the task is appended while the panel is running, otherwise nothing changes |
| BackgroundPanel.AfterShutdown | src/panels/Background_panel.java:35-55 | the definition of shutdown() as a step: a running panel stops, its pool is shut down and is forced unless the wait ended with it drained |
| BackgroundPanel.AfterRestart | src/panels/Background_panel.java:67-72 | the definition of restart() as a step: a stopped panel becomes a new running one with an empty pool |
| BackgroundPanel.OperationsKeepConsistent | src/panels/Background_panel.java:26-72 | every operation keeps the running flag equal to "the pool is not shut down" |
| BackgroundPanel.ActiveIsFlag | src/panels/Background_panel.java:60-62 | while the flags agree, isRunning() is the flag alone |
| BackgroundPanel.ExecuteSubmitsIffRunning | src/panels/Background_panel.java:26-30 | a task is submitted exactly when the panel is running; earlier tasks are kept and isRunning() does not change |
| BackgroundPanel.ShutdownStops | src/panels/Background_panel.java:35-55 | after shutdown() isRunning() is false whichever way the wait ends; the tasks are kept; the pool is forced down exactly when the wait did not end with it drained |
| BackgroundPanel.ShutdownIdempotent | src/panels/Background_panel.java:36 | a second shutdown() changes nothing and does not re-interrupt |
| BackgroundPanel.ExecuteAfterShutdownDrops | src/panels/Background_panel.java:26-30 | once shut down, the panel drops every task |
| BackgroundPanel.RestartRuns | src/panels/Background_panel.java:67-72 | after restart() isRunning() is true; a stopped panel starts over with a new, empty pool and a running one is left as it is |
| BackgroundPanel.ShutdownThenRestart | src/panels/Background_panel.java:67-72 | after shutdown and restart the panel accepts tasks again, into an empty pool |
| BackgroundPanel.Executor.constructor | src/panels/Background_panel.java:19 | a new pool is not shut down and has no tasks |
| BackgroundPanel.Executor.Submit | src/panels/Background_panel.java:28 | the task is added at the end |
| BackgroundPanel.Executor.Shutdown | src/panels/Background_panel.java:40 | the pool is shut down with its tasks kept |
| BackgroundPanel.Executor.ShutdownNow | src/panels/Background_panel.java:46-52 | the pool is shut down and forced |
| BackgroundPanel.BackgroundPanel.constructor | src/panels/Background_panel.java:18-21 | the initial state, with a new pool |
| BackgroundPanel.BackgroundPanel.IsRunning | src/panels/Background_panel.java:60-62 | isRunning() is the flag and the pool not being shut down |
| BackgroundPanel.BackgroundPanel.ExecuteTask | src/panels/Background_panel.java:26-30 | the new state is the state-machine step for executeTask |
| BackgroundPanel.BackgroundPanel.Shutdown | src/panels/Background_panel.java:35-55 | the new state is the state-machine step for shutdown(); the interrupt is raised again exactly when a running panel's wait was interrupted |
| BackgroundPanel.BackgroundPanel.Restart | src/panels/Background_panel.java:67-72 | the new state is the state-machine step for restart(); the pool is new exactly when the panel was stopped |

## Left out

- HTTP and stream I/O: the connection, its headers, timeouts and streams become the abstract `Transport` of each attempt.
- Concurrency: the futures, the executors the handlers create, `invokeLater` and real sleeping. Each future is its text; the callback is the separate call `Join`; sleeps are recorded delays; interrupts are an input.
- The interrupt flag that the retry loop and `shutdown()` set on the current thread. `Shutdown` returns whether it raises it again; the retry loop only ends.
- The handlers' own `shutdown()` methods: they stop the handlers' thread pools, which the model does not have.
- `System.out.println` in the retry loop.
- The "JSON parsing error" catch of parseJsonResponse: nothing inside its try block can throw.
- The fallback return after the retry loop: it is unreachable, and the model proves that with `assert false`.
- The Database_handler: `saveConversation` is the logged `Save` effect. The App_runner is not part of this model.
- `String.hashCode`, `UUID.randomUUID` and the dialogs' visual details: the hash and the id are parameters; a dialog is a logged `Warn`.
- Swing layout, fonts, key bindings and scrolling.
- Null message strings: an exception's message is always a string here, never null.
- Why the join stage of submitQuery might throw: that it throws is an input of `Join`. The source reaches it only through a failing future or a throwing callback.
- Parsing the Perplexity reply: the source reads the response body and discards it, and so does the model.
- JSON validity of request bodies: only the quote is escaped, as in the source. Backslashes and control characters in a prompt are sent unescaped, so a body is not always valid JSON.
- Running background tasks: the tasks never run, and the outcome of `awaitTermination` is a parameter. What a forced shutdown does to running tasks is not modelled.
