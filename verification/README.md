# Legal document assistant: a verified model of its stateful core

The system answers questions about Vietnamese legal documents. Uploaded files are parsed, cut into
chunks, embedded and indexed in a vector store; questions are answered from reranked chunks, with two
tiers of caches in front of every paid service and two kinds of memory behind every conversation. This
project models the parts of it that keep state or transform data, and proves what they guarantee:

| files | part of the system |
|---|---|
| `Text`, `Sections`, `Chunker`, `ChunkSections` | splitting a document at its "Điều" lines, which sections are cut and where, what a chunk shows |
| `ChunkPages`, `ChunkPlaces` | page attribution of chunks, on positions of the document |
| `PdfParser`, `PdfChunks` | page markers of a PDF, and the pages its chunks cite for each line |
| `Ingestion`, `IngestionSafety` | the ingestion protocol over two stores without a shared transaction, as a state machine |
| `Worker` | `process_document`, `index_chunks`, `delete_doc_vectors` as imperative code; every run is a trace of the protocol |
| `RateLimit`, `RateLimitLoss`, `RateLimitExact`, `RateLimitOrder` | the sliding-window limiter over one sorted set, with pipelines in any order of arrival, and exactly when its limit can be exceeded |
| `Lru`, `JsonText`, `CacheKeys` | the process-local cache, and the keys of the shared caches |
| `EmbeddingTiers`, `Embedding`, `Completion` | the two-tier caches in front of the embedding service and the language model |
| `Ranking`, `Retrieval`, `Rerank` | the retrieval pool, the rerankers and their score cache |
| `LongTermMemory`, `ShortTermMemory` | deduplicated user facts; the conversation buffer |
| `Upload`, `UploadRequest`, `UploadHandler` | uploads as interleaved requests, what one request can rely on among others, and `upload_files` as code; every call is a trace |
| `Prelude` | shared sequence vocabulary |

External stores are fields (a map of points, tables with atomic commits, a sorted set, a list). The
embedding service, the language model, the Cohere scorer, the tokenizer, the text splitter and `uuid4`
are parameters. The method `Await` stands for the time before or after the other end of an `await` acts,
during which others have their turn. In `Completion` and `Rerank` its callers know only its contract: the
caches stay valid, and nothing changes in a run declared `quiet`. In `Embedding` a function `world` says
what becomes of both tiers at each such moment, and every result holds for any such function that keeps
them sound. In `UploadHandler` a `World` gives the events of other requests at each await, and whether the
awaited call raises.

## What turned out not to hold, and exactly when

* An exception raised after the final commit of a run (by the last publish, or by a commit whose
  answer is lost) makes the handler write "failed" over "indexed". From then on the document has rows
  but is not indexed, and every retry fails on the unique key. `IngestionSafety.ConsistentIffNotReverted`
  and `RevertedMeans`: a document is consistent if and only if that never happened to it.
* The rollback of a rejected request removes by timestamp, and so takes an admitted request of the same
  timestamp with it. `RateLimitLoss.LimitCanBeExceededIff`: after any trace, later requests with strictly
  increasing timestamps can exceed the limit if and only if it is exceeded already, or an admitted
  request still in the window is missing from the set or shares its timestamp with a rollback still to
  come. `RateLimitLoss.EqualTimestampsBreakTheLimit` is a run that exceeds it.
* A caller reads its clock before it sends its pipeline, so pipelines may arrive out of the order of their
  timestamps, and a later one may have purged what an earlier one should count. `RateLimit.WindowIsRespected`:
  if none is late by more than `d` and no rollback takes an admitted request of the window with it, the
  limit holds in every window shorter by `d`. `RateLimitOrder.LatenessExceedsIff`: for the whole window, some
  run with distinct timestamps exceeds the limit if and only if `d > 0` and the limit is positive.
* `complete()` leaves `tool_choice` and `extra` out of its cache key. `Completion.TransparentIffKeyDecides`:
  the cache is transparent if and only if answers do not depend on what is left out.
* `llm_rerank` leaves out the cut that its prompt names. `Rerank.LlmTransparentIffCutIsIgnored`: its cache
  is transparent if and only if the usable scores of candidates, as they are stored, do not depend on
  the cut.
* The separator of the key parts may occur in a model name. `CacheKeys.ModelsShareKeyIff`: two different
  models share a rerank key if and only if one name is the other followed by the separator and any
  suffix; under one model the key is injective whatever the name, the query and the ids contain
  (`RerankKeyInjective`).
* A piece that begins in the middle of a page and goes on to the next makes its chunk cite only the next
  one (`PdfChunks.MidPageStartIsMissed`), and a piece that ends in a page marker makes it cite a page behind
  its text (`TrailingMarkerIsCited`). `PdfChunks.PdfCitations`: the page of a line is not before `page_from` if
  and only if a marker of the piece stands above the line or the piece has none, and it is `page_to` if and
  only if no marker of the piece stands below the line.
* A score that is not finite is cached as `null`, and every read of that entry raises until it expires.
  `Rerank.ScoresRoundTripIff`: cached scores come back as they were if and only if all are finite.
* A line of a PDF that reads like a page marker is taken for one. `PdfParser.MarkersAreExactIff`: the
  markers are exactly the numbers of the pages with text if and only if there is no such line.
* The first message to an empty conversation buffer enters it twice.
  `ShortTermMemory.ColdStartIsExact` says exactly when that goes unnoticed, and `Stabilises` that it is
  gone after as many messages as the buffer holds.
* A crash between the two writes of `save_fact` leaves a row without a point, and a retry adds a
  second row (`LongTermMemory.RetryDuplicatesIffCrashed`); over every run there are exactly as many
  such rows as saves that were cut off (`EveryRunStaysPacked`).
* An upload that stops between its commit and the queueing of its jobs leaves documents that are
  never queued, not even by uploading the file again. `Upload.EveryDocumentAccounted`: a document is
  committed if and only if it is queued, or an open request has still to queue it, or its request
  stopped before that; `NeverQueuedIffStopped`: it never gets a job exactly in the last case.
* The module comment of `src/memory/long_term.py:5-6` says that a duplicate raises the confidence of
  the stored fact; the code at lines 61-63 only skips it, and so does the model.

## Model

| member | source | states |
|---|---|---|
| Text.PageRangeIsExtremes | src/ingestion/chunkers/base.py:102-107 | the page range of any text is its least and greatest marker, or nothing without markers |
| Text.PageRangeAscending | src/ingestion/chunkers/base.py:102-107 | the least and greatest marker of a text with ascending markers are its first and its last |
| Text.StripMarkersMembers | src/ingestion/chunkers/base.py:110-111 | stripping the markers keeps exactly the lines that are neither blank nor markers, and leaves nothing only if there are none |
| ChunkSections.StripMarkersShows | src/ingestion/chunkers/base.py:110-111 | stripping a text keeps its lines in order, puts a blank line where a marker was, and takes only blank and marker lines away at its ends |
| Sections.DieuMatches | src/ingestion/chunkers/base.py:67 | the loop finds the ascending positions of the "Điều" lines |
| Sections.ChuongPositions | src/ingestion/chunkers/base.py:77 | all "Chương" lines, in order, with their titles, and nothing else |
| Sections.ChuongAt | src/ingestion/chunkers/base.py:79-86 | the scan with early exit finds the last "Chương" line above a position |
| Sections.LegalIff | src/ingestion/chunkers/base.py:57-59 | a document is legal if and only if it has three different "Điều" lines and a "Chương" line |
| Sections.OneSection | src/ingestion/chunkers/base.py:88-98 | one turn of the splitting loop builds the section of its "Điều" line |
| Sections.SplitByDieu | src/ingestion/chunkers/base.py:62-99 | the splitting loop computes the specified list of sections |
| Sections.NoDieuBetween | src/ingestion/chunkers/base.py:88-91 | neither a raw section body nor the preamble holds a "Điều" line |
| Sections.SplitConserves | src/ingestion/chunkers/base.py:62-99 | preamble, first lines and section contents, written out in order, are the whole document line by line, blank lines aside; one section per "Điều" line |
| Sections.HeadingNames | src/ingestion/chunkers/base.py:79-96 | each heading names its own "Điều" line and the nearest "Chương" line above it |
| Chunker.Emitter.Add | src/ingestion/chunkers/base.py:135-160 | `_emit` in place: page range before stripping, inherited page, a text that strips to nothing only moves the page |
| Chunker.EmitSection | src/ingestion/chunkers/base.py:169-178 | the loop over the pieces of one section emits them in order under its heading |
| Chunker.PlanSections | src/ingestion/chunkers/base.py:57-59 | a document with three different "Điều" lines and a "Chương" line is split by section, any other is one section without a heading |
| Chunker.ChunkDocument | src/ingestion/chunkers/base.py:115-180 | the nested loops compute the specified chunks; indices are 0..n-1 and no chunk is empty |
| ChunkSections.CallsAreSections | src/ingestion/chunkers/base.py:164-178 | the pieces of a document section by section: a section of a legal document that fits with its heading is one piece, its whole body; any other section is exactly the splitter's runs of its body, in order |
| ChunkSections.PiecesFit | src/ingestion/chunkers/base.py:164-178 | if the splitter keeps to `max_tokens`, every piece has at most `max_tokens` tokens or is the whole body of a section of a legal document that fits with its heading |
| ChunkSections.ChunksShowPieces | src/ingestion/chunkers/base.py:139-160 | each chunk shows the heading of its section, an empty line and its own piece without markers, with the token count of what it shows; pieces come in order, and every piece with content has its chunk |
| Chunker.EmittedInOrder | src/ingestion/chunkers/base.py:147-160 | the chunks come from the calls in order, each with the stripped text, token count and heading of its own call |
| Chunker.EveryTextIsEmitted | src/ingestion/chunkers/base.py:147-160 | every call whose text is more than markers and blank lines has its chunk |
| ChunkPages.CallsPlaced | src/ingestion/chunkers/base.py:162-178 | the pieces are runs of the section bodies laid end to end, in order, that leave out only blank lines |
| ChunkPages.FlatMarkers | src/ingestion/chunkers/base.py:88-98 | splitting by section keeps the page markers and their order |
| ChunkPages.PageCarried | src/ingestion/chunkers/base.py:142-149 | after every piece, also one that emits nothing, the carried page is the last marker at or before its end |
| ChunkPages.PagesOfChunks | src/ingestion/chunkers/base.py:142-159 | on the section bodies laid end to end: `page_to` is the last marker at or before the chunk's end, `page_from` the first marker inside it or else `page_to`, and `page_from <= page_to` |
| ChunkPlaces.BodiesPlaced | src/ingestion/chunkers/base.py:62-99 | every line of the section bodies has its place in the document; places rise, and up to each of them the document has exactly the markers of the bodies so far |
| ChunkPlaces.ChunksInDocument | src/ingestion/chunkers/base.py:135-178 | the lines of each chunk stand in a stretch of the document; `page_to` is the last marker of the document at or before the end of that stretch, `page_from` the first marker inside it or else `page_to` |
| ChunkPages.PagesNeverDecrease | src/ingestion/chunkers/base.py:142-159 | `page_to` never decreases from chunk to chunk |
| ChunkPages.NothingIsLost | src/ingestion/chunkers/base.py:162-180 | every line of any document that is neither blank nor a marker is shown by some chunk |
| PdfParser.ParsePdf | src/ingestion/parsers/pdf.py:20-42 | one parsed page per page, no line lost, markers ascend, each line lies behind the marker of a page that holds it |
| PdfParser.MarkdownLines | src/ingestion/parsers/pdf.py:26-42 | blank lines aside, the markdown is the pages one behind the other, each page with text behind its marker, its lines in order |
| PdfParser.MarkersNumberPages | src/ingestion/parsers/pdf.py:26-33 | the markers are distinct numbers of pages with text, in ascending order |
| PdfParser.MarkersAreExactIff | src/ingestion/parsers/pdf.py:26-42 | the markers are exactly the numbers of the pages with text, in order, if and only if no line of text reads like a marker |
| PdfParser.Attribution | src/ingestion/parsers/pdf.py:26-42 | every line of text lies behind the marker of its page, with no other marker between |
| PdfChunks.PdfCitations | src/ingestion/chunkers/base.py:135-160 | every line of text of the piece of every chunk is on a page of the PDF that holds it, not after `page_to`; not before `page_from` exactly when a marker of the piece stands above it or the piece has none; and on `page_to` exactly when no marker of the piece stands below it; cited pages exist, have text and never go back |
| PdfChunks.MidPageStartIsMissed | src/ingestion/chunkers/base.py:142-159 | a piece that begins on one page and goes on to the next makes its chunk cite only the second |
| PdfChunks.TrailingMarkerIsCited | src/ingestion/chunkers/base.py:142-159 | a piece that ends in a marker makes its chunk cite the page behind its text |
| Worker.Stores.WriteStatus | src/db/repositories/document.py:69-90 | each given column gets its own argument and every other column keeps its value; `indexed_at` is set exactly when the status becomes "indexed" |
| Worker.Stores.Begin | src/worker/tasks/ingestion.py:40-58 | commit "parsing" and announce it; a failure here is not handled |
| Worker.Stores.Parse | src/worker/tasks/ingestion.py:61-76 | success commits "chunking" and the markdown key, an exception leads to the handler, a crash ends the run |
| Worker.Stores.MakeChunks | src/worker/tasks/ingestion.py:78-85 | an empty list of chunks is an exception; otherwise "embedding" is committed |
| Worker.Stores.DeleteDocVectors | src/ingestion/indexer.py:87-99 | deletes exactly the points of the document, or any part of them when cut off |
| Worker.Stores.BuildPoints | src/ingestion/indexer.py:46-72 | the zip loop makes one point and one row per chunk under the same fresh id |
| Worker.Stores.Vectorise | src/ingestion/indexer.py:42-72 | chunks are embedded, and points and rows are made with fresh ids, before anything is stored |
| Worker.Stores.UpsertBatch | src/ingestion/indexer.py:75-81 | one batch, or any part of it when cut off |
| Worker.Stores.UpsertAll | src/ingestion/indexer.py:74-81 | the batch loop reaches the end of the points, in batches of 128, or stops at the first fault |
| Worker.Stores.IndexChunks | src/ingestion/indexer.py:34-84 | a trace of the protocol that returns the rows of exactly the points it upserted |
| Worker.Stores.PrepareRun | src/worker/tasks/ingestion.py:61-88 | parse, chunk, purge: without faults it goes on exactly when there is a chunk |
| Worker.Stores.Ready | src/worker/tasks/ingestion.py:40-88 | everything before the new points: of the document's row only the status and, once the markdown is stored, its key have changed |
| Worker.Stores.Commit | src/worker/tasks/ingestion.py:97-99 | rows and "indexed" are written together, or, when the unique key rejects a row, not at all |
| Worker.Stores.IndexAndCommit | src/worker/tasks/ingestion.py:89-101 | without faults it succeeds exactly when the unique key accepts the rows |
| Worker.Stores.Handle | src/worker/tasks/ingestion.py:105-111 | the handler writes "failed", also over a committed "indexed"; its own write may go wrong |
| Worker.Stores.Attempt | src/worker/tasks/ingestion.py:40-101 | every attempt is a trace of the protocol that ends finished, in its handler, or dead |
| Worker.Stores.ProcessDocument | src/worker/tasks/ingestion.py:36-111 | missing and indexed documents are skipped; any other delivery is a trace of the protocol, with the exact success condition without faults; the row of the document in full: done means "indexed", the number of chunks, the markdown key, the old error and the time of the commit; failed means the message in `error` and exactly what the run had committed before |
| Worker.Stores.Deliver | src/worker/tasks/ingestion.py:36-111 | from every reachable state: the invariant holds again, other documents are untouched, success leaves exactly the rows of the document's chunks, and without faults it succeeds unless the document has no chunk or was reverted; the row of the document ends as for `ProcessDocument` |
| Worker.DeliveryOutcome | src/worker/tasks/ingestion.py:36-111 | what a delivery guarantees, from the invariant before and after it |
| Worker.ConflictMeansReverted | src/db/models/document.py:77 | for a document that is not indexed, the unique key rejects new rows if and only if it was reverted |
| IngestionSafety.UpsertOwn | src/ingestion/indexer.py:76-81 | upserting a document's points changes that document's points only |
| IngestionSafety.Frame | src/worker/tasks/ingestion.py:36-111 | an event of one document changes nothing of any other |
| IngestionSafety.PreparedIsExact | src/worker/tasks/ingestion.py:88-99 | once all batches are in, rows and points correspond one to one and carry the chunks and their vectors |
| IngestionSafety.ConflictIffReverted | src/db/models/document.py:77 | the final commit of a run is rejected if and only if the document was reverted |
| IngestionSafety.CutOffGood | src/worker/tasks/ingestion.py:60-100 | a crash or exception at any point before the final commit keeps the invariant |
| IngestionSafety.StepKeepsInv | src/worker/tasks/ingestion.py:36-111 | every event keeps the invariant of every document |
| IngestionSafety.Reachable | src/worker/tasks/ingestion.py:36-111 | every reachable state satisfies the invariant |
| IngestionSafety.ConsistentIffNotReverted | src/worker/tasks/ingestion.py:46-111 | after any interleaving of runs, crashes, exceptions and redeliveries: rows exist exactly for indexed documents and match the points one to one, if and only if the document was never reverted |
| IngestionSafety.RevertedMeans | src/worker/tasks/ingestion.py:101-108 | a document is reverted exactly when the handler wrote after the final commit of one of its runs |
| IngestionSafety.IndexedIsStable | src/worker/tasks/ingestion.py:46-48 | an indexed document keeps its row, chunk rows and points for ever unless it is reverted |
| IngestionSafety.RevertedIsForever | src/worker/tasks/ingestion.py:97-108 | a reverted document is never indexed again |
| IngestionSafety.OthersDoNotMatter | src/worker/tasks/ingestion.py:36-111 | any events of other documents leave a document as it is |
| IngestionSafety.LateFailureReverts | src/worker/tasks/ingestion.py:101-108 | when the last publish raises, the document ends up "failed" with all its rows and points |
| RateLimit.AdmittedAreCounted | src/cache/rate_limit.py:36-44 | a pipeline late by at most `d` counts at least the admitted requests of any window, shorter by `d`, that its request falls into |
| RateLimit.RunKeepsBase | src/cache/rate_limit.py:36-53 | in every reachable state, whatever the order of arrival, the set holds nothing but admitted requests and rejected ones not yet rolled back |
| RateLimit.RollbackKeepsCountIff | src/cache/rate_limit.py:51 | one rollback keeps all admitted requests of the window in the set if and only if none of them has its timestamp |
| RateLimit.StepKeepsInv | src/cache/rate_limit.py:36-53 | requests in any order of arrival, harmless rollbacks and key expiry keep every admitted request of the latest window in the set |
| RateLimit.WindowIsRespected | src/cache/rate_limit.py:36-53 | over every interleaving, as long as no rollback takes an admitted request of the window with it and no pipeline arrives more than `d` behind the latest timestamp, no half-open window shorter by `d` holds more than `limit` admitted requests; for pipelines in the order of their timestamps it is the whole window |
| RateLimitLoss.LimitCanBeExceededIff | src/cache/rate_limit.py:36-53 | after any trace, in any order of arrival, later requests with strictly increasing timestamps can exceed the limit if and only if it is exceeded already, or an admitted request still in the window is missing from the set or shares its timestamp with a rollback still to come |
| RateLimitLoss.LetIn | src/cache/rate_limit.py:46-53 | while a lost request is in its window, nothing is pending and the limit still holds, the limiter admits whoever comes, for every limit and window |
| RateLimitLoss.EqualTimestampsBreakTheLimit | src/cache/rate_limit.py:46-52 | a concrete run with two equal timestamps that exceeds the limit |
| RateLimitExact.DistinctTimesRespectTheLimit | src/cache/rate_limit.py:36-53 | with distinct timestamps and no pipeline more than `d` behind the latest timestamp, no window shorter by `d` ever holds more than `limit` admitted requests |
| RateLimitOrder.LatenessExceedsIff | src/cache/rate_limit.py:36-44 | with distinct timestamps and pipelines late by at most `d`, some run exceeds the limit in a whole window if and only if `d > 0` and the limit is positive |
| RateLimitExact.CountIsWindow | src/cache/rate_limit.py:39-44 | with distinct timestamps, a pipeline that is not late counts exactly the admitted and pending requests of the window |
| RateLimitExact.AdmitsIff | src/cache/rate_limit.py:46-53 | with distinct timestamps, a request that is not late is admitted if and only if fewer than `limit` admitted or pending requests lie in its window |
| RateLimitExact.Limiter.Pipeline | src/cache/rate_limit.py:36-44 | purge, count, add in one step; the count is taken before the addition |
| RateLimitExact.Limiter.AllowRequest | src/cache/rate_limit.py:34-53 | the decision, `remaining`, `retry_after` and the new state, including the rollback of a rejected caller; with nothing else going on, all of them in terms of the admitted requests of the window |
| RateLimitExact.AnswerIsRight | src/cache/rate_limit.py:46-53 | a request is let through if and only if fewer than `limit` were admitted in its window, `remaining` is what is left, and `retry_after` is the shortest time, but at least 0.1 seconds, after which a rejected caller would get in if nothing else arrived |
| RateLimitExact.RemainingMeans | src/cache/rate_limit.py:53 | for a request that is not late `remaining` is the limit minus the requests admitted in the window, this one included |
| RateLimitExact.SequentialKept | src/cache/rate_limit.py:36-53 | one call after another keeps the exact correspondence of set and admitted requests, and the limit |
| RateLimitExact.RejectedLeaves | src/cache/rate_limit.py:46-52 | a rejected caller leaves exactly the requests that were counted, `limit` of them |
| RateLimitExact.RetryAfterIsExact | src/cache/rate_limit.py:46-52 | if nothing else arrives, a rejected caller gets in at a later time if and only if the oldest counted request has left the window; waiting `retry_after` suffices, and any shorter wait does not unless `retry_after` is its minimum |
| Lru.Cache.Get | src/llm/client.py:48-52 | a hit moves the key to the end, a miss changes nothing |
| Lru.Cache.Set | src/llm/client.py:54-58 | insert or refresh, then drop the least recent key if the capacity is exceeded |
| Lru.SetKeepsValid | src/llm/client.py:54-58 | the new value is there, at most the least recent key is gone, all others answer as before, the capacity is kept |
| Lru.RunValid | src/llm/client.py:44-58 | every trace keeps the capacity and the dictionary well-formed |
| Lru.RecencyIsByLastTouch | src/llm/client.py:48-56 | the recency list holds each touched key once, ordered by its last touch |
| Lru.HoldsTheMostRecent | src/llm/client.py:44-58 | after any trace the cache holds exactly the most recently touched keys that fit, in order of last touch |
| Lru.AnswersTheLatest | src/llm/client.py:48-58 | every key present answers with the value set for it last |
| Lru.StepKeepsIncluded | src/llm/client.py:48-58 | one operation keeps a smaller cache included in a larger one |
| Lru.Inclusion | src/llm/client.py:41-58 | on the same trace, every hit of a smaller cache is a hit of a larger one with the same value, and its keys are a subsequence |
| CacheKeys.MakeKey | src/core/redis.py:50-64 | the hashing loop feeds every part followed by the separator |
| JsonText.ListInjective | src/core/redis.py:62 | the JSON form of a list of strings determines the list |
| CacheKeys.RerankKeysEqualIff | src/retrieval/rerank.py:77 | two rerank keys are equal if and only if the ordered ids are equal and model and query, written one behind the other with the separator between, are the same string |
| CacheKeys.RerankKeyInjective | src/retrieval/rerank.py:77 | under one model, equal rerank keys mean equal query and equal ordered ids, whatever characters the three contain |
| CacheKeys.ModelsShareKeyIff | src/core/redis.py:56-63 | two different models share a rerank key if and only if one name is the other followed by the separator and any suffix |
| CacheKeys.CompletionKeyInjective | src/llm/client.py:121-131 | equal completion keys mean equal model, messages, token limit and response format, whatever the model is called |
| CacheKeys.EmbeddingKeyInjective | src/llm/client.py:212 | under one model, equal embedding keys mean equal texts |
| CacheKeys.EmbeddingKeysEqualIff | src/llm/client.py:212 | two embedding keys are equal if and only if model and text, with the separator between, are the same string |
| CacheKeys.CachesApart | src/core/redis.py:50-64 | the keys of the embedding, completion and rerank caches never meet |
| EmbeddingTiers.MissIff | src/llm/client.py:211-222 | a text is a miss if and only if neither tier has it at the moment it is asked for, after the look-ups before it and whatever happened meanwhile |
| EmbeddingTiers.QuietMisses | src/llm/client.py:207-222 | undisturbed, a text in the second tier is no miss and a text in neither is one; look-ups only refill the first tier from the second |
| EmbeddingTiers.QuietCalled | src/llm/client.py:225-252 | undisturbed and without failures, every miss ends up in the second tier |
| EmbeddingTiers.AskedIsSound | src/llm/client.py:211-221 | a look-up keeps both tiers sound and answers with the service's vector of that text |
| EmbeddingTiers.AskedInOrder | src/llm/client.py:211-221 | a hit in the first tier is answered without asking the second; a text found in the second enters the first |
| EmbeddingTiers.FiledInBoth | src/llm/client.py:249-252 | a vector filed undisturbed is in both tiers under its own text |
| EmbeddingTiers.FiledIsSound | src/llm/client.py:249-252 | filing a text's own vector keeps both tiers sound, also when others interfere |
| Embedding.EmbeddingClient.Lookup | src/llm/client.py:211-221 | the first tier is asked, then the second, whose hit refills the first, with interference before and after the second is read; an answer is the service's vector of the text |
| Embedding.EmbeddingClient.LookupAll | src/llm/client.py:207-222 | every text is answered rightly or noted as a miss, in order; misses and tiers are exactly those of the look-ups one after another, under any interference |
| Embedding.EmbeddingClient.FileOne | src/llm/client.py:247-252 | one vector enters both tiers, with interference before and after the second stores it |
| Embedding.EmbeddingClient.File | src/llm/client.py:247-252 | a batch of vectors is filed under its positions and in both tiers, and nowhere else |
| Embedding.EmbeddingClient.FetchBatch | src/llm/client.py:245-252 | the answers of one batch fill the positions of its texts and both tiers |
| Embedding.EmbeddingClient.FetchMisses | src/llm/client.py:225-252 | exactly the misses go upstream, in order, in full batches but for the last, until a batch fails; the tiers at the end are exactly specified, also after a failure |
| Embedding.EmbeddingClient.Embed | src/llm/client.py:202-255 | for any texts, any sound cache contents and any interference, the answer is the service's vector of each text in order; the misses, what is sent, and both tiers at the end are exactly the specified ones; without the cache every text is sent and the tiers stay as they are |
| EmbeddingTiers.StoreKeepsCoherent | src/llm/client.py:250-252 | storing a text's own vector keeps a cache coherent, also after losses |
| Completion.LlmClient.Complete | src/llm/client.py:107-165 | with the cache off, a temperature other than zero, or tools, the answer is the service's and no tier is used; otherwise the order of the tiers and what they hold afterwards, and the answer is the service's to a request with the same key; there is none only when the service fails |
| Completion.KeysEqualIff | src/llm/client.py:121-131 | two requests share a key if and only if they agree in model, messages, token limit and response format |
| Completion.TransparentIffKeyDecides | src/llm/client.py:121-131 | caching is transparent if and only if answers to cacheable requests depend on nothing but the parts of the key |
| Ranking.RankIsRanking | src/retrieval/rerank.py:141 | the ranking is a permutation of the positions in stable descending order |
| Ranking.RankingIsUnique | src/retrieval/rerank.py:141 | there is only one such order |
| Retrieval.Dedup | src/retrieval/pipeline.py:100-106 | the nested loops build the dictionary of best hits in insertion order |
| Retrieval.DictKeepsBest | src/retrieval/pipeline.py:100-106 | every point of every batch is kept, with a hit of maximal score |
| Retrieval.DictKeepsFirstBest | src/retrieval/pipeline.py:103-106 | of equally high hits of a point the first is kept |
| Retrieval.BestScoresIgnoreOrder | src/retrieval/pipeline.py:100-106 | the best scores depend only on which hits there are |
| Retrieval.BatchOrderDoesNotMatter | src/retrieval/pipeline.py:98-106 | permuting the batches leaves every best score as it is |
| Retrieval.Pool | src/retrieval/pipeline.py:100-108 | the pool is the sorted, cut list of best hits |
| Retrieval.PoolIsBest | src/retrieval/pipeline.py:108 | the pool names each point at most once, with its best hit, in descending order, cut to twice `top_k_search` |
| Retrieval.LeftOutIsWorse | src/retrieval/pipeline.py:108 | a point is left out only when the pool is full, and then scores no higher than any in it |
| Retrieval.TiesByFirstHit | src/retrieval/pipeline.py:108 | in the pool equal scores stand in the order of the first hits of their points |
| Retrieval.PoolOffered | src/retrieval/rerank.py:203-205 | the reranker is offered the best hits of `min(max_candidates, 2 * top_k_search, points)` different points, and every other point scores no higher than all of them |
| Rerank.CollectScores | src/retrieval/rerank.py:111-119 | a candidate has a score if and only if some well-formed entry names it, and it is the score of the last such entry |
| Rerank.Materialize | src/retrieval/rerank.py:130-142 | append, sort in place, cut; a hit left out by the reranker has half its dense score |
| Rerank.MaterializedIsTop | src/retrieval/rerank.py:130-142 | the result is the stable descending top, also for cuts below zero: distinct hits with their score or half their dense score, and every hit left out comes after every hit kept |
| Rerank.DocText | src/retrieval/rerank.py:163 | title, line break and text, cut at 2000 characters |
| Rerank.PromptText | src/retrieval/rerank.py:84-86 | title, line break and the first 500 characters of the text |
| Rerank.UncachedIsRanked | src/retrieval/rerank.py:146-184 | reranking without a cache: nothing for nothing, a single hit with its dense score, otherwise the top of the hits under the last usable score the service gave to each document text |
| Rerank.LlmUncachedIsRanked | src/retrieval/rerank.py:64-127 | the same with the language model and its prompt texts |
| Rerank.ScoresRoundTripIff | src/retrieval/rerank.py:79-183 | cached scores survive the trip through string keys and back if and only if all of them are finite; otherwise every read raises |
| Rerank.Reranker.CohereRerank | src/retrieval/rerank.py:146-184 | with any cache contents and any cuts, the result is that of reranking without a cache; it is missing exactly when the service is asked and fails |
| Rerank.Reranker.LlmRerank | src/retrieval/rerank.py:64-127 | the scores are the language model's for these candidates, as they are stored, under some cut, and of this very call when usable scores do not depend on the cut; there is no result exactly when the model is asked and raises |
| Rerank.LlmTransparentIffCutIsIgnored | src/retrieval/rerank.py:77-90 | the cache of `llm_rerank` is transparent if and only if the usable scores of stored candidates do not depend on the cut |
| Rerank.Reranker.Rerank | src/retrieval/rerank.py:188-213 | all hits are reranked, or the first `max_candidates` when there are more; Cohere is tried if enabled, the language model is the fallback; the call raises only when every service it asks fails |
| Rerank.RerankedIsTop | src/retrieval/rerank.py:188-213 | for `top_k >= 1`, `min(top_k, pool)` results from different hits of the pool in descending order |
| Rerank.Reranker.RetrieveAndRerank | src/retrieval/pipeline.py:98-112 | the reranker is offered the best `min(max_candidates, 2 * top_k_search, points)` points; there are `min(top_k, offered)` results, each the best hit of its point over all searches, no point twice, in descending order; there is none only when every service asked fails |
| Rerank.RerankedIsBest | src/retrieval/pipeline.py:100-112 | the results are best hits of different offered points, `min(top_k, offered)` of them |
| LongTermMemory.Memory.Search | src/memory/long_term.py:48-60 | the most similar stored point of this user and key, if there is one |
| LongTermMemory.Memory.SaveFact | src/memory/long_term.py:27-91 | a fact is saved exactly when no stored point of its user and key is within 0.92 of the vector of `key: value`; the row, with the key cut at 128 characters, is written first, then the point |
| LongTermMemory.Memory.SaveAll | src/worker/tasks/memory.py:70-86 | the loop strips, skips blank facts, and counts what it saved |
| LongTermMemory.StripIsStripped | src/worker/tasks/memory.py:72-73 | stripping takes only white space away, at both ends, and all of it |
| LongTermMemory.UsableIff | src/worker/tasks/memory.py:75-76 | a fact is worth saving if and only if key and value each hold a character that is no white space |
| LongTermMemory.SaveKeepsPacked | src/memory/long_term.py:61-90 | saving an unknown fact keeps the stored vectors pairwise below the threshold |
| LongTermMemory.AllPackedAndCovered | src/worker/tasks/memory.py:70-86 | after the loop the vectors are apart, nothing is lost, and every usable fact is within the threshold of a stored one |
| LongTermMemory.RerunSavesNothing | src/worker/tasks/memory.py:70-86 | running the loop again on the same facts saves nothing and changes nothing |
| LongTermMemory.EveryRunStaysPacked | src/memory/long_term.py:44-91 | over every run of saves with crashes: vectors apart, every point has its row, and there are as many rows without a point as saves that were cut off |
| LongTermMemory.RetryDuplicatesIffCrashed | src/memory/long_term.py:65-91 | the retry of a save leaves two rows exactly when the first try crashed between its writes |
| ShortTermMemory.Conversation.AppendMessage | src/memory/short_term.py:37-48 | push, then keep the last messages |
| ShortTermMemory.Conversation.ResetBuffer | src/memory/short_term.py:58-60 | the buffer is lost, and nothing else changes |
| ShortTermMemory.Conversation.WarmupFromDb | src/memory/short_term.py:63-75 | no messages change nothing, others replace the buffer by their end |
| ShortTermMemory.Conversation.AddUserMessage | src/api/routes/chat.py:51-60 | commit, warm an empty buffer from the log, append |
| ShortTermMemory.Conversation.AddAssistantMessage | src/api/routes/chat.py:100-111 | commit, append |
| ShortTermMemory.NeverTooLong | src/memory/short_term.py:43-48 | the buffer never exceeds its size |
| ShortTermMemory.SyncIsKeptByRuns | src/api/routes/chat.py:51-60 | a non-empty buffer in step with the log stays in step |
| ShortTermMemory.ColdStartIsExact | src/api/routes/chat.py:55-60 | the cold path leaves the buffer in step exactly when the end of the log has the right length and is all the same message |
| ShortTermMemory.FirstMessageIsDoubled | src/api/routes/chat.py:55-60 | a new conversation starts with its first message twice |
| ShortTermMemory.AgreementGrows | src/api/routes/chat.py:51-60 | every message adds one to the common end of buffer and log, also on the cold path |
| ShortTermMemory.Stabilises | src/api/routes/chat.py:51-60 | from any contents of any length, as many messages later as the buffer holds, it is exactly the end of the log |
| Upload.CommitKeepsUnique | src/db/models/document.py:36 | a commit adds only keys that nobody else has |
| Upload.StepKeepsInv | src/api/routes/files.py:92-147 | every event of every request keeps the invariant |
| Upload.UploadsAreSafe | src/api/routes/files.py:92-147 | over all interleavings: one document per tenant and checksum, every job names a committed document, no document is queued twice |
| Upload.FailedLeavesNothing | src/api/routes/files.py:92-140 | a request that ends before its commit, by an exception at any file or by the unique key at an insert, leaves no row and no job, then or later |
| Upload.StoppedIsNeverQueued | src/api/routes/files.py:138-147 | a document whose request stops between commit and queueing is never queued, whatever happens later |
| Upload.EveryDocumentAccounted | src/api/routes/files.py:138-147 | after any interleaving a document is committed if and only if it is queued, or an open request has still to queue it, or its request stopped before that |
| Upload.OrphanedIffStopped | src/api/routes/files.py:138-147 | a committed document has no job and nobody who will queue it if and only if its request stopped before queueing it |
| Upload.NeverQueuedIffStopped | src/api/routes/files.py:138-147 | a committed document gets no job in any continuation if and only if its request stopped before queueing it |
| UploadRequest.RefusedIff | src/api/routes/files.py:77-109 | a request is refused if and only if it has no file, too many, or a bad one; the status is that of its first bad file: 400 empty, 413 more than the allowed bytes, 415 neither an allowed type nor one of the four extensions in any case |
| UploadRequest.ForeignRun | src/api/routes/files.py:92-147 | any events of other requests leave a request as it is: its own rows, what is committed, and whether its own documents are committed or queued |
| UploadHandler.Service.ByChecksum | src/db/repositories/document.py:51-55 | finds a document of this tenant and checksum if there is one |
| UploadHandler.Service.AddNew | src/api/routes/files.py:118-136 | after the upload to the object store the row is inserted, or the request ends with nothing of it in the table or the queue |
| UploadHandler.Service.ReadFile | src/api/routes/files.py:93-109 | the file is read and checked; it goes on with a file that is not empty, not too large and of a good type, and a refusal, with the status that says why, or an exception rolls the request back |
| UploadHandler.Service.EnterFile | src/api/routes/files.py:111-136 | the file is answered with the document that its transaction sees under its checksum, added if there is none |
| UploadHandler.Service.TakeFile | src/api/routes/files.py:92-136 | one turn of the loop: answered, refused or raised, with all that other requests do meanwhile |
| UploadHandler.Service.AddFiles | src/api/routes/files.py:92-136 | the loop over the files in one transaction, with interference at every await: one document per file, new ones only for new checksums; a failure leaves nothing |
| UploadHandler.Service.CommitRows | src/api/routes/files.py:140 | all rows are committed, or the request is rolled back without a trace |
| UploadHandler.Service.QueueOne | src/api/routes/files.py:142-145 | the next job is queued, or the call raises |
| UploadHandler.Service.QueueJobs | src/api/routes/files.py:142-145 | the new documents are queued in order until a call raises |
| UploadHandler.Service.UploadFiles | src/api/routes/files.py:70-147 | whatever other requests do meanwhile, the call is a trace of the interleaved uploads and keeps their invariant; refused or broken before the commit it leaves nothing, broken later all its rows and the first of its jobs, accepted it answers every file with the document of its checksum and has queued every new one; known files add no row; undisturbed and unblocked it does not break and changes nothing else; good files are never rejected, and only they are accepted |
| UploadRequest.SameAnswers | src/api/routes/files.py:111-117 | uploading the same files again, whatever happened in between, answers with the same documents |

## Left out

- The name of the markdown object (`src/worker/tasks/ingestion.py:66`) is a parameter.
- Text level: a document is a sequence of lines already matched against the patterns; that `^\s*` can
  swallow preceding blank lines, case folding, and the rendering of a heading path as one string are
  not modelled. A removed marker leaves a blank line.
- The recursive splitter is any function whose pieces are runs of lines, in order, possibly
  overlapping, that leave out only blank lines; splits inside a line are not modelled.
- Token bounds on chunks: headings are put in front after splitting, so the code gives none.
- A PDF with lines that read like page markers: the results about its pages assume there are none
  (`PdfParser.NoPageLines`); `PdfParser.MarkersAreExactIff` says that this is exactly when its markers are
  the numbers of its pages.
- Two simultaneous runs of one document, and a request to the vector store that is applied after its
  caller has given up.
- The object store's contents, the `meta` column, the truncation of error texts, and the published
  payloads.
- Eviction or loss of the limiter's sorted set other than by key expiry, clocks of callers that run ahead
  of the server's, and floating-point rounding; times are reals. The branch for an empty set at
  `src/cache/rate_limit.py:49` is out of reach of a call with nothing in between its steps.
- RateLimit.WindowIsRespected: holds as long as no rollback takes an admitted request of the window with
  it, and for a window shorter by the lateness of the pipelines, because the code removes by timestamp
  and reads its clock before it sends; the exact conditions are `RateLimitLoss.LimitCanBeExceededIff` and
  `RateLimitOrder.LatenessExceedsIff`.
- PdfChunks.PdfCitations: covers the lines of a chunk's piece; the heading line in front of them names the
  section and may stand on another page.
- SHA-256 collisions, the JSON escapes of control characters, and binary key parts.
- Completion.LlmClient.Complete: promises the answer to a request with the same key only, because the
  code's key leaves `tool_choice` and `extra` out; the exact condition is
  `Completion.TransparentIffKeyDecides`. Messages and response format are JSON texts.
- Rerank.Reranker.LlmRerank: promises scores under some cut only, because the code's key leaves the
  cut out; the exact condition is `Rerank.LlmTransparentIffCutIsIgnored`. Both rerankers assume that their
  two model names do not clash in the sense of `CacheKeys.ModelsShareKeyIff`, that hits carry what is
  stored with their points, and that scores are finite, which `Rerank.ScoresRoundTripIff` shows to be needed.
- The cache of `rewrite_query`, the vector search itself, and the mapping of results to the response:
  easy members.
- Approximate search in long-term memory, concurrent saves, a confidence that is not a number, and
  tenants in memory payloads.
- Two messages of one conversation at the same time; the lifetime of the conversation buffer is the
  event `Lost`.
- Deadlocks between uploads: an insert that has to wait is an event that is not possible yet, and one
  that still has to wait when its turn comes ends its request. The upload's write to the object store is
  left out, and `UploadRequest.Lower` covers ASCII letters only.
- The agent graph, prompts, streaming, authentication, tracing, migrations and the plain repositories:
  string formatting and thin wrappers.
