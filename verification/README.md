# DevMind core in Dafny

DevMind is a tool-calling assistant for software engineering questions. A
user question opens a *turn*. The agent asks a chat model for a reply. When
the reply requests tools, the agent runs each call, appends the results to the
conversation and asks again; it stops at the first reply without tool calls,
at the first error, or after ten steps. Three tools exist:

- `retrieve_knowledge` looks the question up in a vector store, optionally
  reranks the candidates with a cross-encoder, and joins the best passages.
- `web_search` renders web search hits as labelled blocks.
- `save_solution` writes a file into the output directory, under the
  basename of the requested name only.

Answered turns are appended to an evaluation log. A separate ingestion
script cuts Markdown files into overlapping chunks, embeds them and upserts
them into the store.

This project models that deterministic core as pure functions over immutable
datatypes and proves properties about it. Everything external is a parameter:

- the chat model is a function from the conversation so far to a reply or an
  error;
- the embedder, the vector store query, the reranker, the web search and file
  write failures are fields of `Tools.Env`;
- the JSON argument decoder is a function from the argument string to a
  decoded value or a decode error;
- the clock reading and the log write failure are parameters of `Agent.Run`.

Files (one module each):

| file | module | what it holds |
|---|---|---|
| prelude.dfy | Prelude | `Option`, `Min` |
| text.dfy | Text | join, substring occurrence, decimal rendering, whitespace stripping, suffix tests |
| paths.dfy | Paths | POSIX `basename` and `join` |
| config.dfy | Config | the native model-server URL derived from the API URL |
| chunker.dfy | Chunker | `chunk_text`, the sliding window |
| ranking.dfy | Ranking | the stable descending sort by reranker score and the top three |
| tools.dfy | Tools | the three tools, the tool schema, argument defaults and the dispatcher |
| tracker.dfy | Tracker | the append-only evaluation log |
| agent.dfy | Agent | messages, the step loop and a whole turn, as a trace of effects |
| ingest.dfy | Ingest | per-file batch building, the upsert as a map update, the file loop |

A turn's observable behaviour is a trace of effects, kept in order:

- `Ask`: the model is consulted;
- `Emit(ToolStart)` / `Emit(ToolEnd)`: the user-interface callback fires;
- `Append(message)`: a message is added to the conversation history.

History, collected contexts and callback events are read off this one trace.
Their relative order is therefore part of every contract about it.

## Model

| member | source | states |
|---|---|---|
| Config.NativeOllamaUrl | src/config.py:28-33 | with a trailing "/v1" the result followed by "/v1" is the base URL, otherwise the result is the base URL; the result is always a prefix, 3 or 0 characters shorter |
| Config.NativeOfApiUrl | src/config.py:31-32 | stripping undoes appending "/v1" to any URL |
| Config.DefaultNativeUrl | tests/test_config_local.py:11-14 | the default "http://192.168.88.21:91/v1" maps to "http://192.168.88.21:91" |
| Chunker.ChunkText | src/utils.py:43-59 | empty text gives no chunks; text of at most one window is returned whole; longer text gives ceil(len / stride) chunks; chunk i is the window starting i strides in, starts inside the text and is non-empty |
| Chunker.LongTextCount | src/utils.py:55-59 | on text longer than one window the loop takes ceil(len / stride) windows |
| Chunker.LastChunkReachesEnd | src/utils.py:55-59 | with overlap at least 0 the last chunk ends exactly at the end of the text |
| Chunker.CharCovered | src/utils.py:55-59 | with overlap at least 0 every character lies in some chunk at the predicted offset |
| Chunker.ConsecutiveChunksOverlap | src/utils.py:55-58 | the last `overlap` characters of a chunk begin the next chunk |
| Chunker.ShortChunkIff | src/utils.py:55-58 | a chunk other than the last is shorter than `chunk_size` if and only if fewer than `overlap` characters remain from the next chunk's start |
| Chunker.FullChunksSmallOverlap | src/utils.py:55-58 | with overlap at most 1 every chunk but the last has exactly `chunk_size` characters |
| Chunker.ShortChunkBeforeLast | src/utils.py:55-58 | with the default 1000/100, 1850 characters give chunks of 1000, 950 and 50, the last lying inside the middle one |
| Chunker.DefaultOn1500 | tests/test_phase2.py:34-39 | 1500 characters give two chunks, the first the leading 1000 characters |
| Paths.Basename | src/tools.py:106 | the result has no separator, is a suffix of the path and starts at the path's start or right after a separator |
| Paths.BasenameIdempotent | src/tools.py:106 | the basename of a basename is itself |
| Paths.JoinPlainName | src/tools.py:107 | joining a directory and a separator-free name keeps the directory as a prefix, and the name is the basename of the result |
| Ranking.Rerank | src/tools.py:64-72 | the result is a permutation of the scored candidates, scores are non-increasing and equal scores keep retrieval order |
| Ranking.RankedUnique | src/tools.py:68-72 | two orderings that both satisfy that order and hold the same entries are equal, so the stable descending order is unique |
| Ranking.TopPositions | src/tools.py:68-73 | min(3, n) candidate positions are kept, best first: scores never rise along them, equal scores keep retrieval order, and every candidate left out scores no higher than each kept one (later on a tie) |
| Ranking.BestFirstUnique | src/tools.py:68-73 | two best-first lists of one length are equal, so the kept candidates and their order are fixed by the scores alone |
| Ranking.TopPassages | src/tools.py:73 | min(3, n) passages are kept, and passage i is the text of the candidate at the i-th best-first position |
| Ranking.KeptOutrankDropped | src/tools.py:68-73 | a kept passage scores at least as high as a dropped one, and strictly higher when the dropped one came first |
| Tools.Leading | src/tools.py:61 | the first min(3, n) candidates, in retrieval order |
| Tools.Passages | src/tools.py:59-77 | no reranker or a failing one joins the leading candidates with a blank line; a working one joins the best-first top passages (Ranking.TopPassages) with the ruled separator |
| Tools.Retrieve | src/tools.py:36-77 | no store, empty embedding, failing query and empty result each give their fixed message; otherwise the passages of the candidates |
| Tools.EmbeddingFailureSkipsStore | src/tools.py:40-42 | with an empty query embedding the answer does not depend on the store or the reranker |
| Tools.FailingRerankerFallsBack | src/tools.py:75-77 | a reranker that raises gives exactly the answer of no reranker |
| Tools.RerankedAnswer | src/tools.py:64-74 | the reranked answer joins min(3, n) candidates, best first (non-increasing scores, ties in retrieval order, nothing left out outranks a kept one), each shown verbatim |
| Tools.RerankedAnswerOfBestFirst | src/tools.py:64-74 | for any best-first choice of min(3, n) candidates, the reranked answer is exactly those candidates joined by the ruled separator |
| Tools.FallbackAnswer | src/tools.py:59-61 | each of the leading candidates appears verbatim in the fallback answer |
| Tools.FieldsOf | src/tools.py:91-93 | a missing title, URL or body is shown as "No Title", "No URL" or "No Content" |
| Tools.Blocks | src/tools.py:89-94 | one block per hit, in hit order, each rendering that hit's fields |
| Tools.WebSearch | src/tools.py:83-99 | failing search gives the error message, no hits give "No results found on the web.", otherwise the blocks joined by the ruled separator |
| Tools.ParseBlockOfBlock | src/tools.py:94 | a block reads back to its fields when title and URL are single lines |
| Tools.BlockOfParseBlock | src/tools.py:94 | whatever reads back as fields is the block of those fields |
| Tools.WebAnswerShowsEveryHit | tests/test_phase3.py:32-44 | every hit's block, title and URL appear in the answer |
| Tools.Save | src/tools.py:101-116 | success writes the content at the sandboxed path, reports that path and touches no other file; a write failure reports the error and changes nothing |
| Tools.SaveStaysInOutputDir | src/tools.py:105-107 | the written path is the output directory joined with a separator-free name, whatever directories the requested name contains |
| Tools.TraversalIsDefused | src/tools.py:105-107 | "../../etc/passwd" is written to "./output/passwd" |
| Tools.LastWriteWins | src/tools.py:109-110 | of two saves to names with one basename the second content is what the file holds |
| Tools.ArgsOf | src/agent.py:95-99 | arguments that fail to decode become the empty object |
| Tools.Get | src/agent.py:138-142 | a missing argument reads as the empty string |
| Tools.Dispatch | src/agent.py:135-146 | undeclared names give "Error: Unknown tool"; declared names run their tool on the named arguments; arguments that are not an object give "Error executing tool"; only a save changes files |
| Tools.DispatchResultIgnoresFiles | src/agent.py:136-142 | a tool's answer does not depend on the files already present |
| Tools.DispatchHandlesExactlyDeclared | src/agent.py:137-144 | a name reaches a tool if and only if the tool schema declares it |
| Tools.DispatchReadsOnlyDeclaredArgs | src/agent.py:137-142 | argument objects that agree on a tool's declared keys give the same execution |
| Tools.MissingQueryIsEmpty | src/agent.py:138 | a retrieval call without a query searches for the empty string |
| Tracker.NewTracker | src/tracker.py:10-15 | the tracker keeps the given log file |
| Tracker.DirectoryFailureSwallowed | src/tracker.py:12-15 | a failure to create the log directory yields the same tracker |
| Tracker.Entry | src/tracker.py:21-27 | the record holds the question, answer and contexts given, and an empty ground truth |
| Tracker.LogTurn | src/tracker.py:17-33 | a successful write appends exactly that record after the unchanged earlier ones; a failed write leaves the log as it was |
| Tracker.LogTurnsAppends | src/tracker.py:29-33 | after any series of turns the log is the old log followed by exactly the successfully written records, in order |
| Tracker.WrittenGroundTruthEmpty | src/tracker.py:25 | every written record has an empty ground truth |
| Ingest.ChunkIdInjective | scripts/ingest_data.py:52-53 | two chunks of one file share an id if and only if they are the same chunk |
| Ingest.Survivors | scripts/ingest_data.py:45-49 | every kept index names a chunk of the file whose embedding is not empty |
| Ingest.SurvivorsIncreasing | scripts/ingest_data.py:45-49 | the kept chunks come in the file's chunk order |
| Ingest.SurvivorsComplete | scripts/ingest_data.py:45-49 | no chunk whose embedding is non-empty is dropped |
| Ingest.BuildBatch | scripts/ingest_data.py:40-58 | the four lists are aligned; entry k holds the k-th surviving chunk's id `<basename>_<index>`, embedding, text and metadata, with its original index |
| Ingest.BatchIdsDistinct | scripts/ingest_data.py:52-55 | the ids of a batch are pairwise distinct |
| Ingest.EmptyBatchIffNoneEmbedded | scripts/ingest_data.py:45-60 | a batch is empty if and only if no chunk embeds |
| Ingest.Upsert | scripts/ingest_data.py:61-66 | the store gains exactly the batch's ids and keeps every other entry |
| Ingest.UpsertStoresEntries | scripts/ingest_data.py:61-66 | with distinct ids every batch entry ends up stored under its id |
| Ingest.IngestFile | scripts/ingest_data.py:30-68 | a read error fails the file; blank text is skipped; no surviving chunk means no upsert; a failing upsert changes nothing; otherwise the batch is upserted |
| Ingest.IngestedChunksStored | scripts/ingest_data.py:45-66 | after an upsert each surviving chunk is stored under its id with its embedding, text and metadata |
| Ingest.BatchEntryStored | scripts/ingest_data.py:45-66 | upserting a file's batch stores every chunk that embeds under `<basename>_<index>` with its embedding, text and metadata |
| Ingest.IngestDocuments | scripts/ingest_data.py:15-29 | when the store cannot be opened nothing changes; otherwise the files are processed in order |
| Ingest.IngestFilesConcat | scripts/ingest_data.py:29 | processing a list of files is processing its parts one after another |
| Ingest.FailedFileIsSkipped | scripts/ingest_data.py:29-68 | a failed file has no effect and later files are still processed, with earlier upserts kept |
| Ingest.SecondSingleChunkWins | scripts/ingest_data.py:52-66 | of two single-chunk files with one id, the second one's entry is what the store holds |
| Ingest.SameBasenameOverwrites | scripts/ingest_data.py:52-53 | "docs/a/readme.md" and "docs/b/readme.md" collide on "readme.md_0" and the second wins |
| Agent.CallsEffectsAt | src/agent.py:92-121 | call k's notifications and message occupy their own three trace positions, in call order |
| Agent.RunCall | src/agent.py:93-121 | one call extends the history, contexts and trace by that call's effects only |
| Agent.RunCalls | src/agent.py:92-121 | a reply's calls extend the state by their effects in order and thread the files through them |
| Agent.Loop | src/agent.py:74-132 | at most `fuel` rounds, exhausted exactly when all were used; each round has calls; the model saw exactly the history accumulated so far; the state is only extended |
| Agent.NewAgent | src/agent.py:61-64 | the conversation starts with one system message, the given prompt or the default one, and no contexts |
| Agent.AnswerOf | src/agent.py:123-132 | an answer is returned as is, a model error with the agent error prefix, exhaustion as "Error: Maximum steps exceeded." |
| Agent.Run | src/agent.py:67-132 | the history gains the question then exactly the trace's messages; contexts hold exactly this turn's retrieval and search results; at most ten rounds; only an answered turn writes the log |
| Agent.AskCountOfTurn | src/agent.py:71-85 | the model is asked once per round plus once for the ending reply, at most ten times |
| Agent.AlwaysToolsExhausts | src/agent.py:71-132 | a model that always requests tools gets "Error: Maximum steps exceeded." after ten rounds and nothing is logged |
| Agent.DirectAnswer | src/agent.py:122-126 | a first reply without calls is returned and appended as the assistant message, and exactly one record is logged unless the write fails |
| Agent.AbortOnFirstAsk | src/agent.py:128-130 | a model error on the first ask is reported, the question stays in the history and nothing is logged |
| Agent.AbortKeepsHistory | src/agent.py:128-130 | an error at any step keeps all history appended before it and logs nothing |
| Agent.MalformedArgumentsFallBack | src/agent.py:95-99 | undecodable arguments run the tool with the empty object and the start notification shows it |
| Agent.AppendedCalls | src/agent.py:116-121 | a reply's calls append one tool message each, in call order, with the call's id and name |
| Agent.EventsOfCalls | src/agent.py:103-111 | call k is announced with its arguments, then reported with its result, before call k + 1 |
| Agent.CallsWithoutSaveKeepFiles | src/agent.py:137-142 | calls that include no save leave the files as they were |
| Agent.RoundsWithoutSaveKeepFiles | src/agent.py:74-121 | a turn whose calls include no save leaves the files as they were |
| Agent.RetrieveThenAnswer | src/agent.py:89-126 | one lookup then an answer: four messages are appended, the lookup result is the only context, and the log gains that answer with that context |

## Left out

- The chat client set-up, the observability decorators and the model names are not modelled. The chat model is a function from the conversation to a reply; a fixed script of replies is one such function.
- The callback is a trace entry, not a coroutine. Callback failures, which would abort the turn, are not modelled.
- A reply's content is always a string. The case where the API returns no content is not modelled.
- Tool arguments are strings. The decoder yields a string map, a non-object value (whose `get` raises inside the tool) or a decode error. Non-string argument values are not modelled.
- A `TypeError` from decoding a non-string argument payload is not modelled. It is not a decode error and would abort the turn.
- Tools.Retrieve: exceptions other than a failing store query or a failing reranker are not modelled, for example a malformed query result. The tool answer is always a string, so the `str(result)` conversions are identities.
- The reranker score is an integer, and floating-point behaviour is not modelled. The reranker either scores every pair or raises.
- The vector store query and the web search are functions of the query; their result-count arguments (10 and 5) are constants passed to them.
- Paths.Basename: "." and ".." and empty basenames are not treated specially. Writing to such a path is left to the `writeFault` parameter, as the operating system would refuse it.
- Tools.Save: a partial write is not modelled; a write either fully succeeds or fails and changes nothing. Creating the output directory at start-up is not modelled.
- The `ToolSet` constructor is not modelled. Its outcomes (store connected or not, reranker loaded or not) are the `connected` and `reranker` fields of `Tools.Env`.
- Chunker.ChunkText requires `0 < chunk_size` and `overlap < chunk_size`. With `chunk_size - overlap <= 0` the source loops forever on long text. A non-positive `chunk_size` brings in Python's negative slicing.
- Chunker.ChunkText: "every chunk but the last is full" is not promised in general. A chunk other than the last is short exactly when fewer than `overlap` characters remain from the next chunk's start (Chunker.ShortChunkIff). So it always holds for an overlap of at most 1 (Chunker.FullChunksSmallOverlap). With a larger overlap it can fail: under the default 1000/100, a short chunk comes before the last one (Chunker.ShortChunkBeforeLast).
- Ingest: the file list from the recursive glob is a parameter. Opening and decoding a file either yields its text or fails with an error.
- Ingest.IngestFile: a failing upsert is all-or-nothing. Only a failure of the read or of the upsert can fail a file, because a failed embedding yields an empty vector rather than raising.
- Ingest.IngestDocuments: the final count log line is not modelled.
- The tracker's timestamp is a parameter and the log file is the sequence of its records. The JSON encoding of a record is not modelled.
- The system prompt text is a parameter of Agent.NewAgent. It mentions a `create_plan` tool that the code does not define. The model follows the code: only the three tools exist, and any other name gets the unknown-tool answer.
- The command-line and web front-ends are not modelled. The evaluation scripts, the environment checks and the logging set-up are not modelled either.
