# Agentic graph RAG: a verified model

The program answers questions from two sources, ingested documents and a structured business graph. Model calls, Neo4j,
Redis and blob storage are opaque to it; what is its own is the code around them: agents that reroute to each other while
streaming, two LRU stores, a retry loop with two budgets, a batched graph loader, a log that is queried by day, counters
that must agree with a log, a text repair, language detection and a migration. This project models that code and proves
what it promises.

External calls are parameters. A retrieval, a model call or a classifier is a function in a `World` (or `CharClass`,
`Setup`, `Source`) that may answer anything. A retrieval or model call that is repeated may answer differently each
time: the streams index it by depth, the executor by count, `ask` by caller. Classifiers are functions of the question,
and `Tabular.Source` gives the same rows whenever it is read. Code that changes state is a class or a method with loops,
proved equal to a function of its inputs or of its old state; the main results are lemmas about that function, for every
input and every run.

| module | models | main result |
|---|---|---|
| `Text`, `Modes` | whitespace, `strip`, code-point order, sorting; modes, tools and agents | prefix comparison bounds full comparison |
| `Lru`, `Hydrator` | `CachingHydrator` | at every capacity the cache is the end of one recency list; a hit is a reuse distance below the capacity |
| `ThreadMemory` | the last-turn store | a saved turn survives exactly while fewer than `MAX_THREADS` other live threads were touched, so at least while fewer were named |
| `Executor` | the bounded Cypher loop | every run is the one a protocol on its calls allows; it gives up only when a budget is used up or nothing new is offered; exactly which `sql_issue` tests make it terminate, and then linearly |
| `Streaming`, `QueryStream` | the agent streams and the orchestrator | every run is complete and reroutes at most twice; a fallback is all or nothing; on the fields of the retrievals, exactly which source answers, and with what |
| `Tabular` | `load_schema` | last write wins, exact nodes and edges, independent of batch size, and of order exactly when no table shares a keyed label, idempotent exactly when keyed; a missing key stops the load before any edge |
| `TextSanitize` | surrogate repair | the UTF-16 round trip is the code-point specification; concatenation up to a split pair |
| `AuditStore` | the JSONL audit log | over any run of recordings the query returns retained events that agree with every field of the filter, newest first, and all of them for every filter if and only if each has a timestamp and holds no line break |
| `FeedbackStore` | the Redis counters | the statistics, and their totals, count the records and labels of the call log by field value if and only if no recorded event collides |
| `Language`, `Backfill` | detection, the Arabic normalizer, the migration | detection is stable under concatenation; the whole migration converges exactly from mendable states, and a second run changes nothing |
| `UnicodeText` | `sentence_split` | a partition, split exactly at sentence ends, whose pieces do not split again |
| `Ask` | `ask` with its handlers | the label is the requested mode's, and nothing of the other source survives; in each mode the exact answer, sources and route; the exact audit trail and saved turns |
| `OlistSample` | the sample cutter | evenly spaced, closed and tight |

## What the code does differently from what one would assume

- The executor tests a repaired query as returned and stores it stripped. With a test that is sensitive to surrounding
  white space this can cycle for ever (`Executor.TouchySqlIssueCycles`). The loop terminates for all callables exactly
  when at most one stripped query is rejected while some unstripped form of it is accepted
  (`Executor.TerminatesIffOneTrap`); `Executor.Run` therefore requires that of `sql_issue`. The executor's guard on a
  grace execution already used is unreachable: between passes the grace execution is always unused (`Executor.Inv`).
- An audit event without a timestamp is filed under the day of recording and then skipped by the day prune although an
  upper bound alone would admit it (`AuditStore.UntimedIsSkipped`); pruning is exact if and only if there is no such event
  (`AuditStore.PruningExactIffTimestamped`). The program's own recorder always sets one, so this takes a direct call of
  `JsonlAuditStore.record`. A limit below one acts as one.
- Audit lines are written with non-ASCII text unescaped, and `str.splitlines` cuts at U+0085, U+2028 and U+2029. A recorded
  event that holds one of them does not read back, and hides every older event of its day (`AuditStore.BreakHidesOlder`).
  The query is exact for every filter if and only if no retained event holds one, or lacks a timestamp
  (`AuditStore.LogExactIffRecoverable`).
- The aggregate key of a hash that starts with `route:` is also the key of another hash in the other dimension
  (`FeedbackStore.CollisionExample`). The hashes the program computes are hexadecimal and never collide
  (`FeedbackStore.PlainHashesNeverCollide`).
- The final substitution in `sanitize_text` never has anything to remove, contrary to the comment above it
  (`TextSanitize.SanitizeRefines`).
- A structured stream commits to the document stream whenever the document retrieval returned any chunk
  (`Streaming.PeekOutcome`), although its comment speaks of usable chunks. It then ends without sources, in a denial,
  exactly when a denied access and no marker chunk is among them, even beside real chunks
  (`Streaming.DeniedFallbackCommits`, with `Streaming.DeniedFallbackExample`).
- The streaming path does not enforce the mode. A question asked of the documents can be answered from the structured data,
  and one asked of the structured data from the documents (`QueryStream.StreamCanLeaveMode`). The requested source answers
  exactly when no denied structured question finds a document fallback and no document stream is redirected without being
  handed back (`QueryStream.StreamKeepsModeIff`, from `Streaming.DocStreamAgent` and `Streaming.DataStreamAgent`).
- `ask` does enforce it. Unlocked, `query_data` can label a document answer as structured (`Ask.UnlockedExample`), exactly
  when a weak answer finds a document fallback (`Ask.UnlockedTruthfulIff`). The turn that `search_documents` saves is the
  answer before enforcement, so it can hold the other source's content (`Ask.ForeignTurnExample`), exactly when the guard
  redirected (`Ask.DocumentTurnCleanIff`).
- A question can leave two audit records (`Ask.TwoRecordsExample`), exactly when the document guard refuses while it is
  answered (`Ask.AskAudited`).
- The backfill does not mend a node whose stored key is neither absent nor a copy of its text while normalization leaves
  the text unchanged (`Backfill.UnmendedExample`); it mends exactly the others (`Backfill.ConvergesIffMendable`, and
  `Backfill.BackfillConvergesIff` for the whole run).
- Two keyed tables whose names give the same label are loaded into the same nodes, and then the order of the tables shows
  (`Tabular.SharedLabelOrderShows`). It never shows, from any graph and any source, if and only if no table shares the label
  of a keyed one (`Tabular.OrderIrrelevantIff`); tables without a key may share a label, because their rows are created one
  by one.

## Model

| member | source | states |
|---|---|---|
| `Hydrator.CachingHydrator.HydrateCached` | src/shared/storage/hydrator.py:64-79 | the value is the plain hydrator's for the same key and fallback; the key order moves as one LRU access, only for keys that resolve, so a fallback is never cached; the wrapped hydrator is asked on misses only |
| `Hydrator.CachingHydrator.HydrateBatch` | src/shared/storage/hydrator.py:84-85 | a batch answers as the plain hydrator's batch, with one cache access per entry in order |
| `Hydrator.CacheIsRecencySuffix` | src/shared/storage/hydrator.py:64-79 | LRU stack property: after any run of requests, the cache of any capacity holds exactly the last keys of the unbounded recency list, in order |
| `Hydrator.HitsGrowWithCapacity` | src/shared/storage/hydrator.py:60-79 | a hit at one capacity is a hit at every larger one |
| `Hydrator.HitCondition` | src/shared/storage/hydrator.py:60-79 | a key is cached exactly when it resolved before and fewer than `max_entries` distinct keys resolved since |
| `Hydrator.PlainIs` | src/shared/storage/hydrator.py:41-49 | the plain hydrator answers with the stored text exactly for a non-empty key whose object is found and not empty; a missing key, a missing or empty object, or an exception give the fallback |
| `Hydrator.BatchIs` | src/shared/storage/hydrator.py:51-52 | a batch gives each name the text found under its key, or the empty text |
| `ThreadMemory.ThreadTurns.GetTurn` | src/shared/conversation/thread_memory.py:30-38 | returns the stored turn; refreshes it, and never inserts |
| `ThreadMemory.ThreadTurns.SaveTurn` | src/shared/conversation/thread_memory.py:41-49 | stores a snapshot as most recent and evicts the oldest; ignores empty threads and absent snapshots |
| `ThreadMemory.ThreadTurns.ClearTurn` | src/shared/conversation/thread_memory.py:52-54 | removes one thread and nothing else |
| `ThreadMemory.RunValid` | src/shared/conversation/thread_memory.py:26-54 | over any run of operations the store stays within its bound, with distinct keys |
| `ThreadMemory.Retained` | src/shared/conversation/thread_memory.py:26-54 | over an undisturbed run a live turn is still readable exactly when the other live threads touched since its last touch stay fewer than the bound; otherwise it is gone for good |
| `ThreadMemory.RetentionAfterSave` | src/shared/conversation/thread_memory.py:26-54 | the same for a turn just saved, with `_MAX_THREADS`: read back unchanged, or absent |
| `ThreadMemory.SurvivesFewNamed` | src/shared/conversation/thread_memory.py:26-54 | from the calls alone: with fewer than `_MAX_THREADS` other threads read or saved since, the saved turn is still there |
| `ThreadMemory.ClearForgets` | src/shared/conversation/thread_memory.py:52-54 | a cleared thread reads as absent, also when it is the oldest, and every other thread as before |
| `ThreadMemory.SaveRemembers` | src/shared/conversation/thread_memory.py:41-49 | a saved snapshot reads back; at the bound a new thread costs exactly the oldest, and no other changes |
| `ThreadMemory.NoEffect` | src/shared/conversation/thread_memory.py:30-54 | the calls that do nothing: an absent thread read, an empty thread, an absent snapshot; a read never changes what is stored |
| `Executor.Pass` | src/structured/retrieval/executor.py:62-108 | the loop body, branch by branch, is the step function |
| `Executor.Run` | src/structured/retrieval/executor.py:56-108 | the loop returns within a linear number of passes, keeps the promise below, and makes its calls in order |
| `Executor.EveryRun` | src/structured/retrieval/executor.py:48-108 | for all callables: at most `max_attempts` regenerations and `max_attempts + 1` executions, `attempts` counts the executions, nothing empty or flagged is executed, nothing follows the grace execution, `error=None` exactly when the last call executed the returned query and gave its rows, and a different executable candidate is never dropped untried |
| `Executor.CallOrder` | src/structured/retrieval/executor.py:66-108 | what is executed is the query in hand; a repair precedes execution only for a flagged query and else directly follows its failure; regeneration comes only after the repair was tried, and is told the issue or error at hand |
| `Executor.RunFollowsProtocol` | src/structured/retrieval/executor.py:56-108 | every finished run obeys a protocol stated on the list of calls alone: each call is the one due after those before it, nothing is due after the last, and the result is read off the list |
| `Executor.ProtocolDetermines` | src/structured/retrieval/executor.py:56-108 | the protocol leaves no choice: of two lists it allows one begins the other, and the ended one is unique |
| `Executor.GivesUpOnlyWhen` | src/structured/retrieval/executor.py:74-108 | the budgets are used: a run ends in an error only on an empty query, after `max_attempts + 1` executions, after `max_attempts` regenerations, or on a candidate that is missing or no different; the error is the last one raised, otherwise the issue of the query |
| `Executor.FirstCall` | src/structured/retrieval/executor.py:62-108 | what is called first, from the issue of the stripped query and whether there is a repair |
| `Executor.TerminatesLinearly` | src/structured/retrieval/executor.py:62-108 | the run ends within `6 * max_attempts + 3` passes |
| `Executor.TerminatesIffOneTrap` | src/structured/retrieval/executor.py:66-72 | the loop ends for every budget, query, executor, regenerator and repair, and always within the linear bound, if and only if `sql_issue` rejects at most one stripped query of which it accepts an unstripped form |
| `Executor.BlindHasNoTrap` | src/structured/retrieval/executor.py:66-72 | a test blind to surrounding white space always meets that condition |
| `Executor.TouchySqlIssueCycles` | src/structured/retrieval/executor.py:68-72 | a test and a repair on which the loop never ends |
| `Streaming.TryDocumentFallback` | src/structured/streaming.py:28-61 | the peek returns the consumed prefix with the rest of the same generator, or nothing |
| `Streaming.IterDocumentStream` | src/unstructured/streaming.py:85-281 | the generator yields the specified events, for every oracle |
| `Streaming.IterStructuredStream` | src/structured/streaming.py:74-275 | the generator yields the specified events, for every oracle and either lock |
| `Streaming.PeekOutcome` | src/structured/streaming.py:47-61 | the peek commits exactly when the document retrieval returned chunks, having consumed its two status events and no token |
| `Streaming.PeekSettles` | src/structured/streaming.py:47-61 | of any stream the peek consumes everything up to the first retrieval count or `done`, and commits exactly when that is a positive count, or an unstructured `done` with sources |
| `Streaming.FallbackOutcome` | src/structured/streaming.py:117-138 | a committed fallback emits the document stream in full after the reroute; a rejected one leaves exactly the stream of a locked caller |
| `Streaming.DocStreamComplete` | src/unstructured/streaming.py:123-165 | every document run has one `done`, last, from the agent the last reroute named; all tokens are that agent's, none precedes a reroute, they spell the final answer; at most two reroutes, none without the guard |
| `Streaming.DataStreamComplete` | src/structured/streaming.py:74-275 | the same for every structured run, with at most one reroute, and none when the mode is locked |
| `Streaming.LockedStaysStructured` | src/structured/streaming.py:81-88 | a locked structured run is answered by the structured agent |
| `Streaming.DeniedFallbackCommits` | src/structured/streaming.py:47-61 | a committed fallback ends without sources exactly when a denied access and no marker chunk is among its chunks, and then the denial is the answer |
| `Streaming.DeniedFallbackExample` | src/unstructured/streaming.py:196-200 | a fallback with a real passage that ends so |
| `Streaming.DataStreamAgent` | src/structured/streaming.py:74-275 | a structured run is answered by the document agent exactly when it is not locked, a fallback is wanted and the document retrieval returned chunks |
| `Streaming.DocStreamAgent` | src/unstructured/streaming.py:123-148 | a document run is answered by the structured agent exactly when its guard redirects and the structured run does not hand back |
| `Streaming.FallsBackWhen` | src/structured/streaming.py:108-190 | on the fields of the two views: the document agent answers exactly when the mode is not locked, no clarification is needed, the document retrieval has chunks, and there are either no rows for no count question, or rows without denial or error and with low confidence; the reroute names which |
| `Streaming.LeavesDocumentsWhen` | src/unstructured/streaming.py:123-142 | on the same fields: the structured agent answers a document run exactly when retrieval is empty, the guard redirects, and the structured run does not hand back |
| `Streaming.FindFirst` | src/structured/streaming.py:140-154 | the chunk searches find the first chunk with one of the ids, or report that there is none |
| `Streaming.OwnAnswerIs` | src/structured/streaming.py:108-138 | the one-event answers for a clarification, with and without a chunk, and for no rows |
| `Streaming.OwnRefusalIs` | src/structured/streaming.py:140-170 | the answers for a denied or failed query: the first such chunk decides, with the default text where it has none |
| `Streaming.OwnContentIs` | src/structured/streaming.py:192-275 | an answer with content: the ready text or the joined deltas, all sources, a chart exactly when there is one to show |
| `Streaming.DocAnswerIs` | src/unstructured/streaming.py:134-201 | the one-event answers of the document stream: a hint, nothing found, a marker chunk, a denial |
| `Streaming.DocContentIs` | src/unstructured/streaming.py:203-281 | a document answer with content: the structural answer, or the synthesis after the misroute fix |
| `QueryStream.IterHybridStream` | src/interface/streaming/query_stream.py:112-236 | the hybrid generator yields the specified events |
| `QueryStream.HybridComplete` | src/interface/streaming/query_stream.py:112-236 | every hybrid run has one `done`, last, and only hybrid tokens |
| `QueryStream.HybridSpells` | src/interface/streaming/query_stream.py:136-236 | the tokens are those of the document half and then of the data half, and each half of the final answer is what its half streamed, or its ready answer |
| `QueryStream.Forward` | src/interface/streaming/query_stream.py:345-351 | for any stream: everything but `done` passes, the latest `done` is kept |
| `QueryStream.ForwardingRebuilds` | src/interface/streaming/query_stream.py:345-379 | absorbing and re-emitting the `done` of a complete run rebuilds it; the missing-`done` error is unreachable |
| `QueryStream.IterQueryStream` | src/interface/streaming/query_stream.py:254-379 | the query stream is two status events and the whole agent run, or the denial; the final payload is saved as a turn exactly once |
| `QueryStream.QueryStreamComplete` | src/interface/streaming/query_stream.py:239-379 | every exception-free query stream has one `done`, last, no error event, tokens of the final agent only, which spell its answer, and at most two reroutes |
| `QueryStream.QueryAgent` | src/interface/streaming/query_stream.py:264-343 | which agent answers, for every tool and oracle: the tool's own, or the other source's exactly on the denial's document fallback, the structured fallback, or the unreturned redirect |
| `QueryStream.StreamKeepsModeIff` | src/interface/streaming/query_stream.py:257-336 | for every mode string: exactly when the requested source answers |
| `Modes.ModeSpelling` | src/interface/routing.py:169-178 | neither the case of a mode name nor white space around it matters |
| `QueryStream.PosedDataNeverReroutes` | src/interface/streaming/query_stream.py:328-334 | a structured query never reroutes, because a mode always forces the tool and so locks |
| `QueryStream.StreamCanLeaveMode` | src/interface/streaming/query_stream.py:264-327 | two inputs on which the other source answers, one each way |
| `Tabular.Write` | src/structured/ingestion/tabular.py:495-508 | the batches sent concatenate to the row stream, all full but the last; the length is returned; the graph is that of the whole stream, whatever the batch size; a refused batch stops it with the batches before written |
| `Tabular.LoadSchema` | src/structured/ingestion/tabular.py:452-492 | it returns exactly when every row of a keyed table has its key; the graph is then the specified one and the counts are the row counts by table; otherwise only earlier node batches are written, and no edge |
| `Tabular.NodesAt` | src/structured/ingestion/tabular.py:468-473 | after all node writes a node depends only on its old state and the rows of the tables with its label |
| `Tabular.LastWriteWins` | src/structured/ingestion/tabular.py:470-472 | repeated keys: each property is the last one written, null removes it, and a node appears exactly when some row has its key |
| `Tabular.NewEdgesExact` | src/structured/ingestion/tabular.py:475-491 | the new edges are exactly the non-blank foreign-key cells between keyed tables whose target node exists after all node writes |
| `Tabular.NodesAre` | src/structured/ingestion/tabular.py:468-473 | a keyed node exists after the load exactly when it did before or some row of a keyed table of its label has its key value |
| `Tabular.EdgesAre` | src/structured/ingestion/tabular.py:475-491 | from the tables and rows alone: an edge exists exactly when it did before, or some row spells it (a present cell that is neither null nor the empty text, so 0 counts; the first table of the referenced name; both tables keyed) and its target node exists |
| `Tabular.OrderIrrelevant` | src/structured/ingestion/tabular.py:452-492 | where no table shares the label of a keyed one, listing the tables in another order loads the same graph |
| `Tabular.OrderIrrelevantIff` | src/structured/ingestion/tabular.py:452-492 | for every starting graph, source and reordering the graph is the same, if and only if no table shares the label of a keyed one |
| `Tabular.SharedLabelOrderShows` | src/structured/ingestion/tabular.py:468-473 | two keyed tables of one label whose order shows |
| `Tabular.LoadTwice` | src/structured/ingestion/tabular.py:452-492 | a second load changes only the nodes without identity, which it creates once more |
| `Tabular.IdempotentIffKeyed` | src/structured/ingestion/tabular.py:452-492 | from any graph, loading twice equals loading once if and only if every table with rows has a key |
| `TextSanitize.CharRoundTrip` | src/shared/text_sanitize.py:51 | the two units of a supplementary character are a high and a low surrogate and combine back to it |
| `TextSanitize.CodecIsRepair` | src/shared/text_sanitize.py:51 | encoding to bytes with a byte-order mark and decoding with errors ignored merges adjacent pairs and drops every other surrogate, in either byte order |
| `TextSanitize.SanitizeRefines` | src/shared/text_sanitize.py:38-53 | the whole function is that specification; the early return agrees with the full path; the final substitution removes nothing |
| `TextSanitize.SanitizeIdempotent` | src/shared/text_sanitize.py:38-53 | the output has no surrogates and sanitizing again changes nothing |
| `TextSanitize.SanitizeConcat` | src/shared/text_sanitize.py:46-53 | sanitizing a concatenation is concatenating, exactly unless a pair is split at the seam, which then yields exactly its one character there |
| `TextSanitize.SanitizeOne` | src/shared/text_sanitize.py:38-53 | one character survives exactly when it is not a surrogate |
| `TextSanitize.SanitizePair` | src/shared/text_sanitize.py:46-53 | a high surrogate followed by a low one becomes the one character they encode |
| `AuditStore.JsonlAuditStore.Record` | src/shared/audit/store.py:71-80 | appends to the file of the event's day, or of today, the lines the event reads back as: itself, or fragments when it holds a line break |
| `AuditStore.JsonlAuditStore.Query` | src/shared/audit/store.py:82-121 | the nested loops with prune and early return give the first `limit` pruned matches, newest file and last line first |
| `AuditStore.ScanLines` | src/shared/audit/store.py:102-120 | one file: last line first, stopping at the limit, giving up on the file at a line that does not parse but keeping what was found |
| `AuditStore.RetainedNewestFirst` | src/shared/audit/store.py:93-94 | the retained files are the newest, in decreasing order |
| `AuditStore.RecordedWellFiled` | src/shared/audit/store.py:71-80 | recording keeps every timestamped event in the file of its own day |
| `AuditStore.FiledByDay` | src/shared/audit/store.py:71-73 | an event goes to the file named by the first ten characters of its timestamp, or of the present time without one |
| `AuditStore.PruneSound` | src/shared/audit/store.py:95-101 | comparing ten-character prefixes never skips a day that holds a match |
| `AuditStore.PruningExactIffTimestamped` | src/shared/audit/store.py:29-40 | on a well-filed log, pruning agrees with the unpruned filter for every filter if and only if no retained event lacks a timestamp |
| `AuditStore.QueryIsFirstMatches` | src/shared/audit/store.py:82-121 | the query result is the first `limit` matches of the unpruned log |
| `AuditStore.ReadsUpToBreak` | src/shared/audit/store.py:71-120 | after any run of recordings a file reads back exactly the events newer than its last line break |
| `AuditStore.RecoverableIff` | src/shared/audit/store.py:75-120 | on the text of the values: an event can come back exactly when it has a timestamp and no value holds U+0085, U+2028 or U+2029; a line that holds any reads back as fragments, one more than it holds |
| `AuditStore.LogExactIffRecoverable` | src/shared/audit/store.py:71-121 | over any run of recordings, every query is the first `limit` matches of the retained recorded events if and only if each of them has a timestamp and none holds a line break |
| `AuditStore.OnlyAgreeing` | src/shared/audit/store.py:29-40 | field by field: every returned event was recorded, is retained, agrees with each given user, tenant and type, and lies within each given bound; never more than the limit |
| `AuditStore.AllAgreeing` | src/shared/audit/store.py:82-121 | with recoverable events and a limit no smaller than the log, every retained event that agrees with the filter is returned |
| `AuditStore.KeptInOrder` | src/shared/audit/store.py:71-101 | the retained log lists the recordings into retained days, each once, newest day first and within a day the latest call first |
| `AuditStore.AnswerInOrder` | src/shared/audit/store.py:82-121 | with recoverable events the answer is a list of recordings, newest first, that agree with the filter; one that agrees is left out only when the limit is reached by newer ones |
| `AuditStore.BreakHidesOlder` | src/shared/audit/store.py:76-120 | two recorded events of which a query without restrictions returns neither |
| `AuditStore.UntimedIsSkipped` | src/shared/audit/store.py:71-101 | a recorded event without a timestamp that a query it matches does not return |
| `FeedbackStore.RedisFeedbackStore.RecordEvent` | src/shared/feedback/store.py:211-231 | the store is that of the log with this record appended |
| `FeedbackStore.SpelledOut` | src/shared/feedback/store.py:193-209 | the keys and fields that one record increments, as spelled in Redis |
| `FeedbackStore.RedisFeedbackStore.AttachOutcome` | src/shared/feedback/store.py:233-268 | the store is that of the log with this attach appended; false exactly when no request row is found |
| `FeedbackStore.RedisFeedbackStore.AggregateStats` | src/shared/feedback/store.py:270-297 | decodes the aggregate hash of the queried key |
| `FeedbackStore.DecodeHash` | src/shared/feedback/store.py:287-297 | whatever order the fields come in, each bucket gets its three counters |
| `FeedbackStore.RSplitField` | src/shared/feedback/store.py:291 | splitting at the last colon recovers bucket and metric, even when the bucket contains colons |
| `FeedbackStore.CountersAreWeights` | src/shared/feedback/store.py:198-268 | after any log every counter is the number of increments the log makes to it |
| `FeedbackStore.StatsAgreeIffNoCollision` | src/shared/feedback/store.py:193-297 | after any log the statistics are the fold of the log (queries count records; pass and fail count recorded and attached labels) if and only if no recorded event counts under the queried key through the other dimension |
| `FeedbackStore.PlainHashesNeverCollide` | src/shared/feedback/store.py:193-196 | hashes that do not start with `route:` never collide |
| `FeedbackStore.StatsCountFields` | src/shared/feedback/store.py:193-297 | on the fields of the log: without a prefixed hash, the keys are the modes, or the tools, of the records of the hash (`unknown` for an empty one), and each cell counts the records, and the passed and failed labels, filed under that value |
| `FeedbackStore.UnprefixedNeverCollides` | src/shared/feedback/store.py:193-196 | nothing collides exactly when no recorded hash is the queried one behind `route:`, or for modes the other way round |
| `FeedbackStore.CollisionExample` | src/shared/feedback/store.py:193-196 | a log whose statistics absorb another query's record |
| `FeedbackStore.StatsTotals` | src/shared/feedback/store.py:193-297 | after any log, each metric of `aggregate_stats` added up over its buckets is what the log counts for the hash plus what collides |
| `FeedbackStore.TotalsAgreeAcrossDimensions` | src/shared/feedback/store.py:193-297 | the `queries` cells add up to the records of the hash if and only if nothing collides; then the totals of all three metrics are the log's, and agree across both dimensions |
| `Language.NormalizeSettles` | src/shared/language.py:66-95 | the normalized text has no foldable or removable character, a text is unchanged exactly when it has none, and normalizing never lengthens |
| `Language.NormalizeAppend` | src/shared/language.py:85-95 | normalizing a whole is normalizing its parts |
| `Language.PassesCommute` | src/shared/language.py:74-95 | removing marks last or first gives the same text |
| `Language.NormalizeEach` | src/shared/language.py:66-95 | letter by letter: which variants become alef, yeh, heh and waw, which marks go, and that every other character stays |
| `Language.DerivedKey` | src/shared/language.py:277-293 | for every profile: reading the derived key, or the text where there is none, gives the normalized text exactly unless an empty text normalizes to something; nothing is derived exactly where nothing changes |
| `Language.ArabicKey` | src/shared/language.py:66-95 | for Arabic it always gives the normalized text, and nothing is derived exactly for normal text |
| `Language.ScriptShares` | src/shared/language.py:356-380 | the loops give each hit language its share of the letters |
| `Language.ScriptRanges` | src/shared/language.py:356-380 | a letter belongs to a script exactly when it is in one of its ranges, both ends included |
| `Language.RunsAreLetters` | src/shared/language.py:368-370 | walking the words letter by letter visits exactly the letters of the text |
| `Language.SharesSumAtMostOne` | src/shared/language.py:356-380 | the shares add up to at most one |
| `Language.DetectedIffWins` | src/shared/language.py:383-397 | the detected language is the one that clears the bar and comes before every other that does, by share and then by code |
| `Language.SameLanguageConcat` | src/shared/language.py:383-397 | two texts of one detected language concatenate to a text of that language |
| `Language.DefaultConcat` | src/shared/language.py:383-397 | two texts in which nothing clears the bar concatenate to one in which nothing does |
| `Language.DetectStable` | src/shared/language.py:383-397 | the same for the code `detect_language` returns, the default profile having no scripts |
| `Backfill.Database.StampBatch` | scripts/backfill_language.py:81-99 | stamps as many unstamped nodes as the limit allows, whichever they are |
| `Backfill.Database.StampAll` | scripts/backfill_language.py:290-296 | the loop ends with every unstamped node stamped and every other untouched, and returns how many; batches of no nodes stamp none |
| `Backfill.Database.BackfillMatchText` | scripts/backfill_language.py:176-241 | the cursor pages visit every eligible node exactly once, in id order, and write the derived key exactly where there is one; an empty id, or a page size of zero, is never reached |
| `Backfill.UpdatedAre` | scripts/backfill_language.py:215-239 | what is written and counted: exactly the visited nodes whose text is not empty and normalizes to another one, with that as the key |
| `Backfill.Database.ClearRedundant` | scripts/backfill_language.py:244-266 | removes exactly the keys that copy their text, and counts them |
| `Backfill.ConvergesIffMendable` | scripts/backfill_language.py:176-266 | after both passes every node of the language follows the ingest rule if and only if each that derives a key was reached or had it, and each other had no key or a copy of its text |
| `Backfill.UnmendedExample` | scripts/backfill_language.py:176-266 | a node that both passes leave as it is and that does not follow the rule |
| `Backfill.NormalizedIsMendable` | scripts/backfill_language.py:188-195 | under every profile a key that is absent or the normalized text is mendable, except exactly an empty text that normalizes to something |
| `Backfill.MigrateIdempotent` | scripts/backfill_language.py:25-27 | a second run changes nothing, from any state |
| `Backfill.LanguagesIndependent` | scripts/backfill_language.py:307-311 | migrating two languages in either order gives the same nodes |
| `Backfill.Database.BackfillLanguages` | scripts/backfill_language.py:290-311 | `main`: stamping, then both passes for every handled language in order of code |
| `Backfill.BackfillConvergesIff` | scripts/backfill_language.py:290-311 | after the whole run every node of a handled language follows the rule of the language it has or was stamped with, if and only if every one was mendable |
| `Backfill.BackfillIdempotent` | scripts/backfill_language.py:25-27 | a second whole run changes nothing, from any state and with any batch size |
| `Backfill.BackfilledNode` | scripts/backfill_language.py:290-311 | what the whole run makes of each node, on its fields: its language, whether that language is dealt with (the one asked for, or a non-empty one that a logical document carries), and the key it ends with |
| `UnicodeText.SentenceSplit` | src/shared/unicode_text.py:123-141 | walking the matches gives the pieces between cuts |
| `UnicodeText.SplitPartitions` | src/shared/unicode_text.py:132-141 | the text is the pieces interleaved with the removed runs of white space |
| `UnicodeText.SplitEnds` | src/shared/unicode_text.py:107-141 | every later piece opens a sentence, every piece but the last ends in a terminator |
| `UnicodeText.SplitIsFinal` | src/shared/unicode_text.py:62-141 | splitting any piece again returns it alone |
| `UnicodeText.SplitsExactly` | src/shared/unicode_text.py:62-141 | a piece ends exactly at a terminator that does not follow a digit, before white space and then a letter that is upper case or has no case |
| `UnicodeText.PiecesBetweenEnds` | src/shared/unicode_text.py:123-141 | the pieces are the stretches between those ends, without the white space after each |
| `Ask.Router.RunDocumentAgent` | src/interface/routing.py:276-312 | the document agent with its guard: the answer, sources and marker, and a refusal recorded exactly when the guard may not redirect |
| `Ask.Router.SearchDocumentsHandler` | src/interface/handlers/documents.py:53-97 | the label is structured exactly when the guard redirected, and then all content is structured; otherwise nothing is; the turn is saved |
| `Ask.MarkerDecidesLabel` | src/interface/handlers/documents.py:63-91 | the autofix marker, the label and the producer of the answer always agree |
| `Ask.Router.QueryDataHandler` | src/interface/handlers/data.py:32-102 | a weak answer is replaced from documents unless denied or locked; the turn is saved |
| `Ask.Router.RunViaMcpTool` | src/interface/routing.py:485-530 | the handlers under the current lock, with the denial and autofix reroutes; exactly the turns and refusals they leave |
| `Ask.Router.Ask` | src/interface/router.py:46-173 | locks the mode, answers as specified, and leaves exactly the specified audit records and turns |
| `Ask.AskAudited` | src/interface/router.py:80-172 | the audit trail: a refusal alone when access is refused outright; otherwise the record of the answer comes last and names the requested agent, after a refusal of the guard exactly when the guard refused |
| `Ask.TwoRecordsExample` | src/interface/routing.py:297-312 | one question, two audit records |
| `Ask.DocumentTurnCleanIff` | src/interface/handlers/documents.py:72-97 | in document mode the saved turn is free of the other source, and is what the caller got, exactly when the guard did not redirect |
| `Ask.TurnsAre` | src/interface/routing.py:485-530 | how many turns a question leaves, all under the question: none in hybrid mode, two exactly when a denied look is retried, the second being document mode's, and otherwise one |
| `Ask.DataTurn` | src/interface/handlers/data.py:32-102 | the first turn of structured mode is the refusal without access, otherwise the data run's own answer and sources |
| `Ask.ForeignTurnExample` | src/interface/handlers/documents.py:72-97 | a saved document turn that holds structured data |
| `Ask.AskKeepsMode` | src/interface/routing.py:561-601 | for every mode string and any handlers, the answer is labelled with the agent of the requested mode |
| `Ask.AskKeepsSource` | src/interface/routing.py:561-601 | with handlers whose labels are truthful, a single-source answer holds no answer or source of the other |
| `Ask.LockedHandlersTruthful` | src/interface/handlers/data.py:55-74 | under the lock the labels of all three handlers are truthful |
| `Ask.UnlockedTruthfulIff` | src/interface/handlers/data.py:60-74 | without the lock they are truthful exactly when no weak, undenied structured answer finds a document fallback |
| `Ask.UnlockedExample` | src/interface/handlers/data.py:60-87 | a document answer labelled as structured |
| `Ask.AskIsolated` | src/interface/router.py:60-173 | the whole of `ask`: requested label, and in a single-source mode neither answer nor sources of the other source |
| `Ask.DocumentAnswer` | src/interface/handlers/documents.py:53-97 | document mode: the answer and sources of the retrieval for the followed-up question; on an empty retrieval of a structured question without a document cue, the boundary message or the refusal |
| `Ask.DataAnswer` | src/interface/handlers/data.py:32-102 | structured mode: the denial without access to a structured question, otherwise the answer, sources and confidence of the data run where it does not look denied |
| `Ask.DeniedLookAnswer` | src/interface/routing.py:499-601 | structured mode when the data run looks denied: the refusal exactly for a structured question; otherwise the document route, whose answer is replaced by the boundary message unless its guard redirected |
| `Ask.HybridAnswer` | src/interface/handlers/hybrid.py:36-105 | hybrid mode: the text under each heading is the answer of that half, and the sources are the document half's |
| `Ask.UnlockedAnswer` | src/interface/handlers/data.py:46-102 | without the lock: a weak, undenied structured answer is replaced exactly by a document answer that has sources, no marker and confidence, still labelled structured |
| `OlistSample.SelectOrders` | scripts/make_olist_sample.py:80-85 | all orders, or the evenly spaced ones; none for a negative count, an error for zero |
| `OlistSample.Gap` | scripts/make_olist_sample.py:84-85 | consecutive positions are `n / k` apart, rounded down or up |
| `OlistSample.IndicesSpread` | scripts/make_olist_sample.py:84-85 | the positions start at the first order, increase strictly and stay in range |
| `OlistSample.SampleClosed` | scripts/make_olist_sample.py:86-111 | each reference of a kept row resolves in the sample exactly when it resolved in the source |
| `OlistSample.SampleTight` | scripts/make_olist_sample.py:86-111 | every kept product, seller and customer is used, and nothing of a kept order is lost |
| `OlistSample.KeepsInOrder` | scripts/make_olist_sample.py:86-111 | keeping rows of a listing in two parts is keeping the rows of each: order and multiplicity stay |
| `OlistSample.KeepsRowsInOrder` | scripts/make_olist_sample.py:86-111 | the same for the keyed tables |
| `OlistSample.KeepsOne` | scripts/make_olist_sample.py:86-111 | a single row is kept exactly when its id is wanted |
| `OlistSample.SelectedSample` | scripts/make_olist_sample.py:79-111 | for every count but zero of some orders: as many orders as asked for, all from the source, with a closed and tight sample |

## Left out

- Executor.Run: it and `TerminatesLinearly` require the exact termination condition of `sql_issue`, which the code does not check; without it the loop may not return. What every run keeps, returning or not, is `Executor.EveryRun` and `Executor.CallOrder`; every run that returns obeys `Executor.RunFollowsProtocol`.
- Tabular.LoadSchema: the uniqueness constraints it first creates are not modelled, node keys are unique by construction.
- Tabular.NodesAt: tables that share a label must agree on its key, here and in `NewEdgesExact`, `LoadTwice` and `IdempotentIffKeyed`; merging on two different properties of one label is not modelled.
- Tabular.OrderIrrelevant: assumes labels computed from names, and a source that gives the same rows each time it is read; where tables share a keyed label it is false, by `OrderIrrelevantIff`, which like `NodesAt` is about tables that agree on the key of a shared label.
- TextSanitize.CharRoundTrip: shifts and masks by ten bits are written as division and remainder by 1024.
- AuditStore.JsonlAuditStore.Record: the pieces of a cut line all count as lines that do not parse. For the last one this holds because its quotation marks are unbalanced; the others are never reached. A value that cannot be encoded, such as a lone surrogate, raises and is not modelled.
- FeedbackStore.RedisFeedbackStore.RecordEvent: expiry, the event stream and its trimming are not modelled; counters are numbers rather than decimal strings.
- Language.ScriptShares: shares are exact rationals, and lower-casing before the letter filter is part of the abstract per-character letter test.
- UnicodeText.SentenceSplit: letter and case classes are abstract; the results need only that letters are neither white space nor `.!?`.
- OlistSample.SelectOrders: positions use exact arithmetic instead of doubles, and the orders are given already sorted.
- QueryStream.IterQueryStream: exceptions, telemetry and retrieval feedback are not modelled; the final payload keeps only agent, answer and sources.
- Streaming.IterDocumentStream: presentations, strategies, confidence notes and claims are not part of the events; a peeked generator has no side effects to abandon.
- Backfill.Database.BackfillLanguages: the `:Language` edges and the vector payloads are not modelled.
- Ask.Router.Ask: only answer, sources, label, route, turns and audit records are modelled; `enforce_mode` keeps other fields such as `retrieved_context`. Records are listed in the order they are submitted.
- Mode enforcement on the streaming path: the program does not enforce it there; exactly when it holds anyway is `QueryStream.StreamKeepsModeIff`.
- `_infer_csv_tables`, label and relationship naming, SQL and Excel reading: the loader results hold for any schema they produce.
- JSONL feedback, recent events, the Redis audit index, job stores and role checks: serialisation, or different promises from those modelled.
- `extract_critical_from_result`, follow-up resolution, question-shape patterns and prompts: arbitrary functions of the model.
