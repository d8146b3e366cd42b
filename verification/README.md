# AISmush, verified

A Dafny model of the stateful engines inside AISmush, the LLM proxy: the token rate governor, the
translators between the Anthropic and OpenAI formats (whole requests and event streams), incremental SSE
framing, context trimming, the file cache, the code graph with its incremental index, tiered routing, and
line deduplication of tool output.

`dafny verify dfyconfig.toml` checks everything.

## How it is built

Code that changes state is modelled as code that changes state: `TokenRateGovernor`,
`OpenAIToAnthropicStream`, `AnthropicToOpenAIStream`, `SseProcessor`, `FileCache`, `Database`,
`ProviderHealth` and the request `Body` are classes with the source's fields, and the translators, searches
and scans are methods with the source's loops. Each such method is proved equal to a function of its inputs
or of the old state; the theorems are lemmas about those functions, over every input, every run or every
reachable state. Beside the theorems about behaviour there is, for every operation, one that says what its
answer is in the terms of its caller: which positions, fields, prices or bytes of the input it comes from.

| files | models |
|---|---|
| `RateGovernor`, `GovernorRuns`, `GovernorCorrections` | `src/rate_governor.rs`: one lock-held section is one atomic step; many clients take steps in any order beside a history of every admission |
| `Streams`, `StreamBrackets` | the two event-stream converters of `src/transform.rs`, and a monitor for well bracketed Anthropic streams |
| `StreamClients`, `StreamSurvey`, `StreamRoundTrip`, `StreamFailures`, `StreamUsage` | the composition of the two converters: what a client behind both assembles, predicted by a scan of the stream that knows nothing of them; when that is what the stream said; and token usage |
| `AnthropicClients`, `OpenAIClients` | what a client of each format reads off what either converter sends, for every stream and for every sequence of events |
| `StreamWire` | the composition over printed text, cut anywhere by the network |
| `Requests`, `ToOpenAIContents`, `ToAnthropicContents` | the two request translators of `src/transform.rs`, and where everything that a request says stands in its translation |
| `RequestRoundTrip`, `RequestOrder` | an Anthropic request translated to OpenAI form and back, and the order of tool calls and results |
| `OpenAIRoundTrip` | the way `src/main.rs` and `src/forward.rs` take an OpenAI client's request: to Anthropic form and back |
| `SseFraming`, `SseTheorems`, `SseCaptured` | `SseProcessor` and its parsers in `src/forward.rs`, whatever the cuts, and what they capture |
| `ContextTrim`, `ContextTheorems`, `ContextBodies` | `src/context.rs`, with the size arithmetic of `src/tokens.rs` against printed bodies |
| `FileCaching`, `FileCacheRequests`, `FileCacheTheorems`, `FileCacheReads`, `FileCacheCopies` | `src/file_cache.rs`: the cache, the request rewrite that uses it, which results that looks at, and whether what a marker stands for is still in the request |
| `CodeGraph`, `GraphEdges` | the dependency graph and blast radius of `src/deps.rs`, and what they say about the files' imports |
| `Indexing`, `IndexTheorems`, `IndexRows` | `src/hashes.rs` and the tables of `src/symbols.rs`, in the order `src/main.rs` updates them, and their rows for a file |
| `Routing`, `RoutingChoices` | `src/router.rs` and `src/provider.rs`, and which provider a request gets |
| `LineDedup`, `DedupConditions` | `dedup_lines` of `src/compress.rs`, and exactly which lines it leaves out |
| `Lists`, `Sets`, `Text`, `TextLayout`, `Wrappers` | shared helpers |

## What the proofs brought to light

- `max_tpm = 0`: the comment at `src/rate_governor.rs:58` says the call "records immediately"; the code
  records nothing. The model follows the code.
- A retroactive correction for a client rewrites the newest entry of the deque. That is the client's own
  latest admission if and only if no admission followed it and the deque is not empty. So with corrections the
  60-second limit holds up to the upward correction of the newest admission in the interval, a bound that is
  attained; without them it holds as documented.
- `[DONE]` after a chunk with a finish reason repeats the tool stops and the `message_delta`, and `[DONE]`
  before any chunk that parses ends a message that never started; otherwise the stream is well bracketed. A
  client that goes by the last `message_delta` reads "end_turn" where the stream said "tool_calls".
- The tool calls of a stream that names its calls in index order survive both converters if and only if
  arguments only ever go to the newest named call, every call is named, and each ends with the id and name it
  was first named with. `StreamFailures` has a stream for each way to fail, followed to its end.
- Prompt tokens that an OpenAI stream reports after its first chunk never reach the client of the
  twice-converted stream: `message_start` has already been sent with what was known then.
- Trimming keeps tool uses and results paired if and only if nothing is cut or message 1 has no tool use.
- Truncating a long tool result can make it longer: its marker adds 45 characters and a number, and a line
  only just over the limit loses fewer.
- "File unchanged since last read" need not refer to anything the model can see: when a client sends the same
  conversation again, the only result that carries the file's text is itself replaced by the marker.
- Text beside tool results in one message moves ahead of them on the way to OpenAI form, wherever it stood.
- An OpenAI client's request is rewritten even on its way to an OpenAI provider: only the last system message
  is kept, content given as parts becomes empty text, and arguments that are not JSON become an empty object. A
  second pass would change nothing more.
- A provider that has been down for 601 s counts as healthy from then on, however many requests fail: the
  comment at `src/provider.rs:85` says that one request is let through, but `mark_error` leaves `since` alone.
- A file that stays in the project but stops being UTF-8 keeps its old symbols under its new hash; an
  incremental index equals a rebuild exactly when the last scan met no such file.
- With the built-in registry any LiteLLM server takes all middle-tier requests, since its unknown price counts as
  zero, and OpenRouter gets none while DeepSeek is configured and in use: it costs the same and is registered later.
- Deduplication leaves out a repeated line however far back the first is, unless a line kept since then came ten
  lines after one like it; the window of ten is not a distance.
- Routing is monotone if and only if every healthy provider above Premium is covered by a healthy Premium
  one; the built-in registry always is.

## Model

| member | source | states |
|---|---|---|
| RateGovernor.TokenRateGovernor.TryRecord | src/rate_governor.rs:64-112 | one lock-held section leaves exactly the deque and the decision (admit, sleep for so long, disabled) that the specification gives, on every branch |
| RateGovernor.TokenRateGovernor.CurrentTpm | src/rate_governor.rs:28-35 | evicts what is over 60 s old and reports the sum of the rest |
| RateGovernor.TokenRateGovernor.RetroactiveUpdate | src/rate_governor.rs:41-55 | overwrites the tokens of the newest entry and nothing else; no effect when disabled |
| RateGovernor.TokenRateGovernor.EarliestRelease | src/rate_governor.rs:89-99 | the running sum stops at the entry whose expiry frees enough |
| RateGovernor.RefusalNamesEntry | src/rate_governor.rs:82-106 | every refusal waits for the expiry of one entry of the live window, the first whose departure frees enough, or the oldest for an oversized request |
| RateGovernor.WaitIsExact | src/rate_governor.rs:82-111 | the sleep lies between 100 ms and 60.1 s; nothing up to 100 ms before its end would have been admitted; after it a request below the limit is admitted if nothing else was recorded |
| RateGovernor.LoneCallerWaits | src/rate_governor.rs:64-112 | alone, a request below the limit waits at most once and an oversized one at most once per window entry |
| GovernorRuns.EveryIntervalIsPaced | src/rate_governor.rs:41-114 | after every interleaving of any number of clients, corrections included, every closed 60-second interval of the whole history totals at most `max_tpm` plus the newest admission's upward correction, or that admission is oversized and nothing else in the interval counts |
| GovernorCorrections.BoundIsAttained | src/rate_governor.rs:41-114 | for every limit of at least 2 and every correction, a run from an empty governor reaches exactly that bound |
| GovernorRuns.UncorrectedIntervals | src/rate_governor.rs:59-114 | without corrections every closed 60-second interval totals at most `max_tpm`, or one oversized request is all that counts in it |
| GovernorRuns.WindowIsBounded | src/rate_governor.rs:41-114 | in every reachable state the deque is sorted by time and exceeds `max_tpm` by at most the newest entry's own correction, the oversized-alone case aside |
| GovernorRuns.WindowReadsHistory | src/rate_governor.rs:28-35 | what is read off the evicted deque is exactly what the whole history admitted in the last 60 s: eviction loses nothing |
| GovernorCorrections.CorrectionRewritesNewest | src/rate_governor.rs:37-55 | in every reachable state a client's correction does nothing when the deque is empty, and otherwise rewrites the newest record of the history, which is the client's if and only if no admission followed its latest |
| GovernorCorrections.CorrectionHitsOwnExactly | src/rate_governor.rs:37-55 | a client's corrections rewrite its own latest admission if and only if no admission followed it and the deque is not empty |
| GovernorCorrections.CorrectionMayHitAnotherClient | src/rate_governor.rs:37-55 | two clients admitted at once: the first one's correction rewrites the second one's record |
| GovernorCorrections.TwoWaitingReachable | src/rate_governor.rs:59-65 | the state in which both wait is reached from an empty governor |
| Streams.OpenAIToAnthropicStream.ProcessChunk | src/transform.rs:209-394 | one data line changes the converter's state and emits the events as specified, `[DONE]`, unparsable lines and every missing field included |
| AnthropicClients.ClientReads | src/transform.rs:209-394 | for every stream, the events give their client all its text; a tool use at block i + 1 exactly if call i is ever named, with the id and name known then and all arguments from then on; one `message_start` with the first chunk's prompt tokens; and for every end of the stream a `message_delta` with its completion tokens and, in the API's own words, its reason |
| AnthropicClients.LastChoiceStops | src/transform.rs:365-390 | a chunk whose last choice finishes ends in a `message_delta` whose stop reason is "end_turn" for "stop", "tool_use" for "tool_calls", "max_tokens" for "length" and the reason itself for any other |
| AnthropicClients.GainedExactly | src/transform.rs:302-364 | what one call's own fragments make of it, one by one, is the id and name when it was first named and the arguments since |
| Streams.OpenAIToAnthropicStream.ProcessFragment | src/transform.rs:303-364 | one tool-call fragment grows the slot table, merges, starts its block once named, and streams its own arguments |
| Streams.OpenAIToAnthropicStream.CloseBlocks | src/transform.rs:214-223 | the open text block and every started tool block get a stop |
| Streams.AnthropicToOpenAIStream.ProcessEvent | src/transform.rs:559-649 | one event changes the converter's state and emits the lines as specified; data that does not parse changes and emits nothing |
| OpenAIClients.ClientCollects | src/transform.rs:559-682 | for every sequence of events, a client assembles all text of the text deltas; one call for each tool block that starts, with its id and name and all input until the next one starts; and the finish reason that the first `message_delta` means |
| OpenAIClients.FinishLineSays | src/transform.rs:624-682 | every `message_delta` makes one line with the finish reason it means ("stop", "tool_calls", "length" or itself), the input tokens told last as prompt tokens and the output tokens told last as completion tokens |
| OpenAIClients.StartAndStopLines | src/transform.rs:566-645 | every `message_start` makes one line with an empty text, and every `message_stop` `[DONE]` |
| StreamBrackets.WellBracketed | src/transform.rs:209-394 | for every stream up to its first terminal line: one `message_start` first, text block 0 alternates start and stop with text inside, each tool block starts once before its deltas, and nothing is open at `message_delta` |
| StreamBrackets.DoneRejectedExactly | src/transform.rs:212-236 | `[DONE]` breaks the bracketing exactly when it follows a terminal line or nothing parsed before it |
| StreamBrackets.RunLinesSlots | src/transform.rs:310-317 | over every stream, tool slot i has index i |
| StreamRoundTrip.ClientGets | src/transform.rs:209-649 | for every stream whatever, a client behind both converters assembles the stream's text, the calls that the survey predicts, and the first finish reason the converters heard, translated twice |
| StreamRoundTrip.RoundTripExactly | src/transform.rs:209-649 | for every stream that names its calls in index order, the client gets the stream's calls if and only if arguments only went to the newest named call, every call was named, and each still has the id and name it had then |
| StreamSurvey.ClientKeepsCallsExactly | src/transform.rs:303-364 | the same condition on the survey alone: misfiled or unsent arguments leave the client short for good |
| StreamRoundTrip.RoundTrip | src/transform.rs:209-649 | so every stream whose calls come one after another, named at once, returns whole, with its first finish reason translated twice |
| StreamRoundTrip.FinishSurvivesExactly | src/transform.rs:365-372 | which finish reasons survive both translations: all but the three Anthropic names that the way back renames |
| StreamFailures.EarlierCallMisfiled | src/transform.rs:605-615 | anywhere in a stream, more arguments for a named call that is not the newest reach the client as arguments of its latest, and whatever follows it never gets the stream's calls |
| StreamFailures.ArgumentsBeforeNameUnsent | src/transform.rs:322-352 | anywhere in a stream, arguments for a call that is not named yet change nothing at the client, and whatever follows it never gets the stream's calls |
| StreamFailures.MisfiledStream | src/transform.rs:605-615 | a whole stream with two interleaved calls, and the two different lists of calls that come of it |
| StreamFailures.UnsentStream | src/transform.rs:322-352 | a whole stream whose first arguments come before the name, and what is lost |
| StreamFailures.UnnamedStream | src/transform.rs:329-330 | a whole stream whose call is never named, and never seen |
| StreamFailures.RenamedStream | src/transform.rs:319-345 | a whole stream whose call changes its id and name, and keeps the first at the client |
| StreamWire.ConvertPrinted | src/forward.rs:28-53 | splitting and reading back a printed log of events runs the second converter on exactly those events, with nothing left over |
| StreamWire.OverTheWire | src/transform.rs:688-690 | for every stream, every lawful JSON printer and every cutting of the printed events, what is sent on is the stream converted twice, and a client assembles from it what the survey says |
| StreamUsage.FinishReportsUsage | src/transform.rs:238-390 | over every stream, the chunk that ends the twice-converted stream carries the prompt tokens of the stream's first chunk and the completion tokens it reported last |
| StreamUsage.DoneReportsUsage | src/transform.rs:212-231 | `[DONE]` ends the twice-converted stream with the same usage and one `[DONE]` |
| StreamUsage.RunTold | src/transform.rs:238-271 | over every stream, what the converters know is what the stream reported: whether a chunk parsed, the first such chunk's prompt tokens, and the completion tokens reported last |
| Requests.AnthropicToOpenAI | src/transform.rs:10-88 | the whole request translation equals its specification, system prompt, every message shape and tool definitions included |
| ToOpenAIContents.NothingSaidIsLost | src/transform.rs:10-174 | for every request: a system message comes first exactly when the prompt's text is not empty, and then one group of messages for each message, in order, with every text, tool use and tool result in it, each part of a joined text at its own offset; limits as they were, tools completed |
| ToOpenAIContents.SystemPartsStand | src/transform.rs:13-29 | a system prompt given as parts stands in the first message, part i at its own offset with a blank line between parts |
| ToOpenAIContents.MessageSaysAll | src/transform.rs:32-174 | what one message becomes, for every content and role: its texts joined, its calls, one tool message for each result |
| Requests.ConvertContentBlocks | src/transform.rs:91-174 | the blocks of one message become exactly the messages specified for its role, appended to what was there |
| Requests.OpenAIToAnthropic | src/transform.rs:403-533 | the whole reverse translation equals its specification |
| ToAnthropicContents.EverythingComesAcross | src/transform.rs:403-533 | for every request: the messages come one by one from its turns, in order, each from one message or from a maximal run of tool messages, with every text, call and result; the prompt from the last system message; limits as they were, tools completed |
| Requests.GroupMessages | src/transform.rs:407-490 | draining the pending tool results in the loop equals the specification's fold: flushed before any other message and at the end |
| RequestRoundTrip.RoundTripExactly | src/transform.rs:10-533 | a request survives both translations, up to model name and stream flag, if and only if it is in normal form: no field that the translators never look up, at most one text per message and before its tool uses, string results only, no two result messages in a row, complete tool definitions |
| RequestRoundTrip.NormalFormReturns | src/transform.rs:10-533 | every request in normal form returns |
| RequestRoundTrip.ReturnIsNormal | src/transform.rs:10-533 | whatever returns was in normal form |
| OpenAIRoundTrip.WhatComesBack | src/transform.rs:10-533 | every OpenAI request, taken to Anthropic form (`src/main.rs:642`) and back (`src/forward.rs:891`): each message but the system ones returns in its place, rewritten on its own, although tool results were grouped in between; the last system text comes first |
| OpenAIRoundTrip.OpenAIRoundTripExactly | src/transform.rs:10-533 | it returns as it was, up to model name and stream flag, if and only if it is in normal form: at most one system message, first and not empty; string content; null content only with calls; canonical arguments; complete calls and tool definitions; no other fields |
| OpenAIRoundTrip.SecondTripChangesNothing | src/transform.rs:10-533 | whatever the client sent, what is forwarded is in normal form, so a second pass changes only the model name |
| RequestOrder.ToOpenAIKeepsOrder | src/transform.rs:91-174 | the flattened order of tool calls and of (result id, text) pairs is unchanged on the way to OpenAI |
| RequestOrder.ToAnthropicKeepsOrder | src/transform.rs:407-490 | and unchanged on the way to Anthropic |
| RequestOrder.RunsBecomeMessages | src/transform.rs:407-490 | the result-carrying user messages are exactly the maximal runs of tool messages, system messages ignored, in order |
| SseFraming.SseProcessor.ProcessChunk | src/forward.rs:125-143 | one piece of network data leaves the specified counts, captures, buffers and converter state, and returns exactly the newly converted output |
| SseFraming.SseProcessor.DrainEvents | src/forward.rs:129-133 | the drain loop parses every complete block once, in order, and leaves the residue |
| SseFraming.SseProcessor.ConvertEvents | src/forward.rs:28-53 | the same for the converter's own buffer, with all its output |
| SseFraming.SseProcessor.ParseSseEvent | src/forward.rs:56-87 | one block's data lines update usage and capped text as specified |
| SseFraming.SseProcessor.Flush | src/forward.rs:145-149 | the residue is parsed as a last block |
| SseTheorems.SplitInTwo | src/forward.rs:31-33 | splitting a text that arrives in two parts is splitting the first, then its residue with the second |
| SseTheorems.SplitRestores | src/forward.rs:31-33 | the blocks and the residue rejoin to the text and none holds a break |
| SseTheorems.ChunkingIsIrrelevant | src/forward.rs:125-143 | for every way of cutting a text, captures, residue and converter are those of the whole text's leftmost split, and the two buffers are equal whenever conversion is on |
| SseTheorems.SameTextSameState | src/forward.rs:125-149 | two ways of cutting the same text end in the same state, before and after the flush |
| SseTheorems.Forward | src/forward.rs:525-566 | with a receiver that may hang up at any frame: the frames sent account for every piece read but a refused one, raw and in order when conversion is off, and otherwise with text that is a function of the whole text read; so are the final captures |
| SseCaptured.CapturesWhatIsSaid | src/forward.rs:55-87 | for every way of cutting a text, the usage captured is what its `data:` objects told last, field by field, and the text captured is the first 32,768 characters of all its text deltas |
| SseCaptured.FinalCaptureSays | src/forward.rs:145-149 | the same after the final flush, what was left counting as one more block |
| SseCaptured.BlockConverts | src/forward.rs:35-47 | every block reaches the converter as the trimmed text of its last `event:` line and that of its last `data:` line |
| ContextTrim.Body.TruncateOldToolResults | src/context.rs:98-143 | truncates long string tool results of old user messages, touches nothing else, and reports whether any was too long |
| ContextTrim.Body.ChooseRemovals | src/context.rs:173-208 | the indices chosen are one contiguous block from 2, with the specified removed estimate |
| ContextTrim.Body.TrimOldMessages | src/context.rs:147-228 | removing last to first and inserting the summary leaves the specified list |
| ContextTrim.Body.EnsureFits | src/context.rs:78-94 | changes the body exactly when it is over the provider's limit, to the specified result |
| ContextTrim.Body.Prepare | src/context.rs:23-74 | graduated action and body for every size band; an unmodified report means an unchanged body |
| ContextTrim.UnmodifiedIsUnchanged | src/context.rs:98-143 | when nothing is too long, truncation is the identity |
| ContextTheorems.TrimLeavesOrCuts | src/context.rs:147-228 | trimming leaves the list alone, or leaves its first 2 messages, one summary and a suffix with the last 6 |
| ContextTheorems.TrimShape | src/context.rs:173-228 | a list over target and longer than 10 always loses one contiguous block, whose estimate is the one reported and reaches the amount to shed unless nothing more is removable |
| ContextTheorems.TrimKeepsPairingExactly | src/context.rs:173-208 | a cut of a paired list is paired if and only if message 1 has no tool use |
| ContextTheorems.TruncateKeepsPairing | src/context.rs:98-143 | truncation keeps every tool use with its results |
| ContextTheorems.FittedPairedExactly | src/context.rs:78-94 | `ensure_fits` keeps a paired list paired if and only if it cuts nothing or message 1 has no tool use |
| ContextTheorems.PreparedPairedExactly | src/context.rs:23-74 | `prepare` keeps a paired list paired if and only if it cuts nothing or message 1 has no tool use |
| ContextTheorems.CutFits | src/context.rs:173-228 | when the removed estimate reaches the amount to shed, the new estimate is within target plus 40, floor division, separators and summary included |
| ContextTheorems.FittedFits | src/context.rs:78-94 | afterwards the body is within the provider's limit, or had at most 10 messages, or nothing more was removable |
| ContextTheorems.CutIsMinimal | src/context.rs:173-208 | without its last message or pair the cut would have fallen short |
| ContextBodies.BodyLength | src/tokens.rs:14-18 | the size of a body is the length of its printed JSON, escapes and separators included, and its estimate a quarter of that |
| ContextBodies.TokensArePrinted | src/context.rs:185-200 | and so with the tokens counted for one message |
| ContextBodies.TruncatesExactly | src/context.rs:98-143 | field by field: at most 6 messages, the last 4, and all but overlong string results of user messages stay as they are; those are cut at the last line break within the limit, or at the limit, and say how much is gone |
| ContextBodies.ReportsExactly | src/context.rs:98-143 | a change is reported exactly when such a result exists |
| ContextBodies.FitsInBytes | src/context.rs:78-94 | up to 240,003 bytes for DeepSeek and 760,003 for others a body is untouched; a larger one ends below that, or had at most 10 messages, or has nothing more to remove |
| ContextBodies.PreparesExactly | src/context.rs:23-74 | in bytes, which band of sizes does what and reports what |
| ContextBodies.PreparedInBytes | src/context.rs:53-74 | a body that is trimmed ends below 400,164 bytes, or 320,164 in an emergency, or had at most 10 messages, or has nothing more to remove |
| ContextBodies.SummarySays | src/context.rs:220-225 | the summary tells how many messages are gone and the estimate removed, and prints as counted |
| ContextTheorems.TruncateShortensExactly | src/context.rs:124-132 | truncation shortens a text exactly when more goes than its marker adds |
| ContextTheorems.TruncateGrows | src/context.rs:124-132 | every text fewer than 10 characters over the limit, without a newline before it, gets longer |
| FileCaching.FileCache.CheckFile | src/file_cache.rs:51-63 | answers from the stored hash without changing the cache |
| FileCaching.FileCache.InsertFile | src/file_cache.rs:66-86 | updates and moves to the back, or evicts the front at capacity and appends |
| FileCaching.FileCache.Clear | src/file_cache.rs:92-95 | empties map and queue |
| FileCaching.HoldsLastN | src/file_cache.rs:66-95 | after every history a path is held exactly when it is among the last N distinct paths inserted; the queue is the key set, once each, by recency |
| FileCaching.CheckAnswersExactly | src/file_cache.rs:51-63 | Unchanged exactly when held with the same content hash, with the true length; Miss exactly when not held |
| FileCacheRequests.ApplyFileCache | src/file_cache.rs:109-278 | the two passes over a request leave the specified messages, cache and statistics |
| FileCacheRequests.CollectReads | src/file_cache.rs:125-156 | the map from tool use ids to paths, later reads replacing earlier ones |
| FileCacheTheorems.ApplyOutcome | src/file_cache.rs:162-267 | count, roles, ids and order are kept and the last two messages are untouched; every result of a file read in the older user messages is accounted for once, in order, as replaced by its marker or kept as it was; the statistics are the tally of that account; then every result of a file read in the last two messages is stored |
| FileCacheReads.FilesExactly | src/file_cache.rs:122-156 | in each pass an id stands for a file exactly if a reading tool use of the messages it covers has it, and then for the path of the last one |
| FileCacheReads.LookedAtExactly | src/file_cache.rs:162-185 | a result is looked at exactly if its id stands for a file and it says 50 bytes or more, as a string or as joined text parts |
| FileCacheReads.ReplacedLeaves | src/file_cache.rs:192-209 | a replaced result keeps its id and becomes the marker with the length of its own text, a string for a string and one text part for parts |
| FileCacheReads.SavesDifference | src/file_cache.rs:193-196 | the bytes counted as saved are those by which it got shorter |
| FileCacheTheorems.ReplacedExactly | src/file_cache.rs:187-216 | over every sequence of requests a result is replaced if and only if its file is among the last N distinct files cached and its last cached content had the same hash |
| FileCacheTheorems.MarkersAreTruthful | src/file_cache.rs:187-209 | over every sequence of requests a marker replaces content equal to the latest cached result for the same path, and states its true length |
| FileCacheCopies.CopyStandsExactly | src/file_cache.rs:162-217 | after every sequence of requests, the text of a result replaced in the next one still stands earlier in it, under the same path, if and only if the result that cached it last is in that same request |
| FileCacheCopies.OnlyCopyReplaced | src/file_cache.rs:187-209 | for every file text long enough: one conversation sent twice, whose only result with that text is kept the first time and replaced the second |
| FileCacheTheorems.ApplyAllConsistent | src/file_cache.rs:109-278 | over every sequence of requests the cache is what the plain history of cached results gives |
| CodeGraph.BuildGraph | src/deps.rs:45-74 | both indexes are built as specified, unreadable files and unknown targets skipped |
| GraphEdges.EdgesExactly | src/deps.rs:45-74 | with distinct paths a file has imports exactly if it can be read: those it names that are files, in order and as often as it names them |
| GraphEdges.ImportersExactly | src/deps.rs:66-68 | and a file is among another's importers as often as it names it |
| GraphEdges.BlastIsNeed | src/deps.rs:45-99 | the files a blast radius counts are exactly the others that name the file in their own imports, directly or through files that do |
| GraphEdges.ScoresAdd | src/deps.rs:104-111 | the score is logarithmic: where counts, the file itself included, multiply, scores add |
| CodeGraph.BuildTransposes | src/deps.rs:45-74 | importers are exactly the transpose of imports, multiplicities included |
| CodeGraph.Search | src/deps.rs:83-99 | breadth-first search ends on every graph, cyclic ones included, with exactly the files reachable through importers |
| CodeGraph.ComputeBlastRadius | src/deps.rs:77-120 | direct count, transitive count without the file itself, leaf and shared flags, score |
| CodeGraph.ReachesIsDependsOn | src/deps.rs:83-99 | reachability through importers is dependency through imports |
| CodeGraph.AffectedAreDependents | src/deps.rs:45-99 | in a built graph the counted files are exactly the other files that import the file, directly or not |
| CodeGraph.ScoreBounds | src/deps.rs:104-111 | the score lies within 0 and 1, never falls as the count rises, and is 1 exactly from 49 on |
| CodeGraph.MoreEdgesMoreImpact | src/deps.rs:77-120 | adding edges never lowers the count or the score |
| Indexing.ComputeDelta | src/hashes.rs:87-125 | changed, unchanged and deleted files against the stored hashes |
| IndexRows.DeltaExactly | src/hashes.rs:87-125 | every walked file is reported once and in order, unchanged if the stored hash is its own and otherwise changed with its hash, size and language; deleted is what was stored and not walked |
| IndexRows.FreshExactly | src/symbols.rs:699-749 | a file's rows: for every name and kind the first symbol that has them, every reference that names a symbol or a file, and nothing else |
| Indexing.Database.StoreHashes | src/hashes.rs:185-212 | deletions first, then replacements |
| Indexing.Database.StoreSymbols | src/symbols.rs:699-749 | a file's rows are replaced; first of equal keys wins; empty references are skipped; other files' rows stay |
| Indexing.Database.DeleteSymbols | src/symbols.rs:752-775 | exactly the rows of the listed files go |
| Indexing.Database.Scan | src/main.rs:1132-1169 | one scan: hashes, then symbols of changed readable files, then deletions |
| IndexTheorems.ScanUpdates | src/main.rs:1132-1169 | a scan of any snapshot brings an up-to-date index up to date with it |
| IndexTheorems.ScanIsRebuildExactly | src/main.rs:1132-1169 | one more scan equals indexing from nothing if and only if no unreadable file has rows in the index |
| IndexTheorems.IncrementalIsRebuildExactly | src/main.rs:1132-1169 | the same over every sequence of snapshots, after which every hash, every readable file's rows and no other file's rows are stored |
| IndexTheorems.IncrementalIsRebuild | src/main.rs:1132-1169 | with readable files, incremental indexing is a full rebuild |
| IndexTheorems.RescanIsQuiet | src/hashes.rs:87-125 | an immediate rescan reports nothing and changes nothing |
| IndexTheorems.UnreadableKeepsStaleRows | src/main.rs:1161-1167 | an unreadable file gets its new hash and keeps its old rows |
| Routing.ProviderHealth.MarkHealthy | src/provider.rs:191-193 | healthy from any state |
| Routing.ProviderHealth.MarkError | src/provider.rs:195-228 | one error in every health state |
| Routing.ProviderHealth.MarkRateLimited | src/provider.rs:230-235 | out of use until exactly the retry time |
| Routing.ProviderHealth.MarkDown | src/provider.rs:241-246 | down, from now, from any state |
| Routing.ThreeStrikes | src/provider.rs:81-228 | errors in a row take a provider out of use at the third, for 601 s from it, and later errors do not extend that |
| Routing.InUseExactly | src/provider.rs:81-246 | over every sequence of recoveries, errors, rate limits and outages, exactly when the provider counts as healthy |
| Routing.CheapestHealthy | src/provider.rs:281-303 | none exactly when none is eligible; otherwise the earliest-registered minimum of (tier, input price) |
| RoutingChoices.RoutesToCheapest | src/router.rs:165-204 | in terms of signals, tiers, prices, windows and health: the routed provider can serve, every other that can is of a higher tier, or as high and dearer, or as dear and registered later; Claude exactly when none can |
| RoutingChoices.PriceDecides | src/provider.rs:298-302 | of two that can serve at one tier the cheaper is never passed over |
| RoutingChoices.MinTierExactly | src/router.rs:361-408 | the minimum tier is exactly the highest that the task, three errors, the blast radius or the size asks for |
| RoutingChoices.DecidesExactly | src/router.rs:116-205 | what forced, body-less, explicitly requested and all other requests get, by what is registered under a name |
| RoutingChoices.BuiltRegistryChooses | src/provider.rs:380-466 | with the built-in registry in use, which provider every request gets, whatever is configured |
| Routing.DetermineMinTier | src/router.rs:361-408 | raising the minimum step by step gives the highest tier any single signal asks for |
| Routing.DecideWithRegistry | src/router.rs:116-205 | forced, body-less, explicitly requested and routed requests decide as specified |
| Routing.RouteChooses | src/router.rs:165-204 | the routed provider is the earliest-registered minimum among the eligible, and the Claude fallback is taken exactly when none is |
| Routing.MonotoneExactly | src/router.rs:165-204 | more blast radius, errors, tokens or tools never lower the decision's tier, if and only if every healthy provider above Premium is covered by a healthy Premium one |
| Routing.DecisionsRiseExactly | src/router.rs:116-205 | the same of the decision a caller gets, for a fixed forced provider and kind of request, every branch included |
| Routing.BuiltRegistryIsMonotone | src/provider.rs:380-466 | with the built-in registry routing and decisions are monotone whatever is configured and whatever its health |
| LineDedup.DedupLines | src/compress.rs:396-442 | the windowed loop renders exactly the specified items |
| DedupConditions.LeftOutExactly | src/compress.rs:396-442 | over every input, by position: a line is left out if and only if it has at least 15 characters and is like a kept line before it, with no kept line of 15 characters from there on whose tenth predecessor is like it too |
| DedupConditions.ItemsPrinted | src/compress.rs:404-441 | what is printed: every kept line as it is, every count in its marker, with line breaks between |
| LineDedup.DedupAccounts | src/compress.rs:396-442 | kept lines are verbatim and in order, each marker counts one maximal run of dropped lines, kept plus omitted is the input length, and every dropped line is like an earlier kept one |
| LineDedup.NothingDistinctLost | src/compress.rs:396-442 | every input line is still there, up to trimming and case |

## Left out

Left out of what is modelled:

- Clocks, sleeping and locks: an instant is a parameter in milliseconds, a lock-held section is one step, and the retry loop of `wait_and_record` is a sequence of steps that may be interleaved with any others. Integers do not wrap (`u64` token sums, `usize` indices), except where a printed size must be a `usize` for a theorem about digits.
- JSON text: an object is the outcome of each lookup the code makes on it. Printing and parsing are parameters, an inverse pair where a theorem needs that, and sizes are additive.
- Text is one byte per character: cutting a UTF-8 sequence in the middle (where the original would panic or count differently) is not modelled, and trimming removes ASCII whitespace only.
- `f64` scores and prices are reals; the logarithm is any strictly increasing function that is 0 at 1.
- Hashing, line normalisation (trim and lower case), tree-sitter extraction, import parsing and language detection are parameters. Theorems that need a collision-free hash say so.
- Message ids, model names, creation times and random ids in stream output, and object fields that are constant and never read back.
- SSE framing recognises only "\n\n", as the code does; the other line endings of section 9.2.6 of the WHATWG HTML Standard are not breaks here either. A network piece that is not UTF-8 on its own is only counted.
- StreamRoundTrip.RoundTripExactly: speaks of streams that name their calls in index order, as the OpenAI format has them; `ClientGets` says what any other stream comes to.
- RequestRoundTrip.RoundTripExactly, OpenAIRoundTrip.OpenAIRoundTripExactly: a looked-up field of another type than the code reads counts as absent, except a message's content and the system prompt.
- SseTheorems.Forward: leaves out trailers and errors of the network stream; an error ends the loop, as if the pieces ended there.
- StreamWire.OverTheWire: prints every event kind the converters do not know as "ping", which reads back as unknown.
- ContextTheorems.FittedFits: assumes the printed body is shorter than 2^64 bytes.
- FileCacheRequests.ApplyFileCache: the tool classification of `src/tools.rs` is a looked-up outcome of each block; a request without old reads skips the second pass, as the code does.
- FileCacheTheorems.MarkersAreTruthful: the earlier result may belong to an earlier request, even to another conversation that shares the cache; `FileCacheCopies` says when it does not.
- FileCacheCopies.CopyStandsExactly: is about results whose own text is not that of a marker; one that reads like a marker can be matched by a marker.
- CodeGraph.BuildTransposes: needs distinct file paths, which a scan provides.
- Indexing.Database.Scan: the rebuilt dependency graph and the recomputed symbol blast radii of the same step are not stored; `CodeGraph` models the graph.
- Indexing.Database.DeleteSymbols: deletes a set of files in any order; `symbol_blast_radius` and the stored graph tables are not modelled.
- Routing.DecideWithRegistry: leaves out the reason string, and takes the signals gathered from a body as given.

Not modelled at all:

- HTTP, retries, headers, fallbacks and spawned tasks of `src/forward.rs`; discovery, setup, dashboard, worker, installers, configuration and price tables: I/O and plumbing.
- SQLite itself, migrations, full-text search, embeddings and capture; tables are maps and sets.
- `normalize_path` and the per-language import parsers of `src/deps.rs`; `gather_signals`, `classify_task` and the legacy `decide` of `src/router.rs`; `fallback_chain` of `src/provider.rs`.
- `compress_request_body`, comment stripping, whitespace normalisation and smart truncation of `src/compress.rs`: heuristics with no statement beyond their own text.
