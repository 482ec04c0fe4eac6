# Verified model of the document-ingest path

The system takes PDF documents into knowledge bases: a worker sends each document through an
OCR service, parses the markdown into an outline, cuts it into chunks, embeds and indexes them,
and answers questions from the index.  This project models the logic of that path and of the
self-contained algorithms around it, and proves what they are for.

## What is modelled

**The ingest protocol** (`Tables`, `Ingest`, `IngestSlice`, `IngestRefinement`,
`CrashRefinement`, `CleanRun`, `Publication`, `DeletionWins`, `OrphanReceipts`, `Progress`,
`ProgressRuns`, `ProgressDrops`, `IngestAttempt`, `IngestWorker`, `StoredTables`).  The database is a record of
tables; a transaction is a value; a worker's move is what happens between two awaits: a
cancellation check, a receipt lookup with its runner, a commit.  Many workers interleave with
crashes, errors, redeliveries, skipped locks, document and knowledge-base deletes and retries.  A commit raises when an updated row is gone, a receipt key
is taken, or, where the database enforces foreign keys, an inserted row refers to nothing.
OCR and embedding answers are arbitrary.  `IngestWorker` is the job function written statement by
statement, and its commits are shown to be the worker's moves.  `Deletion` is the hard delete,
one method call per SQL statement, with the database after every statement on record.

**The algorithms of the pipeline**: the outline parser (`Outline`, and `OutlineResult` for what it
returns, said of the lines alone), the chunker (`Chunker`), the page index (`PageIndex`), cached and
batched embedding (`Embedding`).

**Around it**: the token bucket (`TokenBucket`), the login failure limiter (`LoginLimiter`), rank
fusion and citation selection (`Fusion`, `Candidates`), the display order of citations
(`Citations`), the OCR service's sanitizers and queue (`Sanitizer`, `HeadingTrim`,
`SanitizerPasses`, `OcrQueue`),
the password record (`Decimal`, `Base64`, `Password`), and byte ranges (`ByteRange`).
`Text`, `Sequences`, `Sorting` and `Wrappers` hold what several modules share.

## Assumptions

- Receipt keys and cache keys hash their payload; the hash is taken to be injective.  A receipt
  key is therefore the job, the step and the payload itself.
- Rows whose primary key is a random id are keyed by document and running number.
- One live attempt per job: a redelivery starts after the attempt before it has been killed or
  has ended.  Parser, chunker and batch settings stay the same over a run.
- An error raised by the handlers themselves, or before the `try` of the job function, counts as a
  killed attempt that will be redelivered.
- Status update, last check, final receipt and commit of a finished job are one transaction,
  as the row locks make them.  Elsewhere a delete may land between a check and the commit.
- Regular expressions, Unicode case folding, the locale, content types, sentence cutting and the
  digests are functions left abstract; where a fact about one is needed it is named beside it.
  A numbered heading that loses the white space at its end keeps its title or stops being one.
- Clock readings within one call of the login limiter are one reading.  Time, tokens, scores and
  vectors are real numbers.

## What the code does not quite do

- Without enforced foreign keys (the SQLite set-up) a receipt committed after a hard delete stays
  for good: the delete looks receipts up through job rows.  `OrphanReceipts` gives the exact
  condition at the delete (the worker stands before a step that is not the last, or has its fresh
  result uncommitted, and goes on to that commit), shows that at most one receipt is left, and
  gives a run; with enforced foreign keys (MySQL) it cannot happen.
- The percentage can drop when a worker of the document begins an attempt, marks a phase or
  dead-letters its job, and when the document is retried: exactly if the document's status then
  shows more than the receipts are worth and more than the new status does, or if 100 was shown
  without the final receipt (for a dead letter, 100 at all).  `ProgressDrops` proves both
  directions over all runs and gives runs from 40 to 35.  It never drops below the last receipted
  step of the job; a retry moves on to a new job, which starts at 0.
- Collapsing the lines of a text again can change it: `"a\n\n"` becomes `"a\n"` and then `"a"`.
  `Sanitizer.CollapseLinesAgain` says for which texts, and that a third pass changes nothing.
  The same text shows it of the whole sanitizer.  A sanitized text is a fixpoint of trimming and
  replacing; another pass changes it exactly if it ends in a newline or repeats a long unit
  (`SanitizerPasses.SanitizedAgain`), and after three passes nothing changes any more.
- A retried document has two jobs.  If the second job's OCR answers differ, the tables are the
  second job's while the first job's row still says succeeded (`CleanRun.SiblingOverwrites`).
  `Publication` gives the exact condition, at the event (another worker commits other rows) and
  over runs (the last commit of each table).  Another delivery of the first job puts it right.
- A failed request makes the embedding client send its whole batch again, texts already answered
  included, up to five times each: exactly if a failure is among the first answers, as many as
  the call needs requests (`Embedding.OnceIffAnswered`, and `Embedding.SentTwice` for an input).

## Model

| member | source | states |
|---|---|---|
| Publication.SuccessIsClean | backend/app/tasks/ingest.py:61-239 | Crash refinement: over every run of the whole system, retries and any moves of other workers included, once the job has all its receipts (as it has when it succeeded, or when the document is ready and no other worker of it moved), these and all rows of the document are those of one uninterrupted attempt with the same OCR and embedding answers if, and where the knowledge-base columns agree only if, the last commit of each of the four tables was the job's own or wrote the same rows; without moves of other workers after its first table write that is always so |
| Publication.TablesExactly | backend/app/tasks/ingest.py:162-218 | The same about the tables themselves: they hold what the job's payloads call for (by StoredTables.SettledShows, row by row) exactly if the last commit of each was right |
| Publication.BreaksExactly | backend/app/tasks/ingest.py:162-218 | In every run, once the job is through and its tables are right, an event that leaves the document in place makes one of them wrong if and only if it is a commit of another worker of the document whose chunk rows, page rows, assets or parse result are not the ones the job's payloads call for |
| Publication.OwnCallsFor | backend/app/tasks/ingest.py:162-218 | Every attempt of the job, cached receipts or not, writes the rows its payloads call for: chunk i with vector i, the page index of the chunks, the images, and their counts |
| StoredTables.TablesShowReceipts | backend/app/tasks/ingest.py:154-218 | Row by row: in every run, once the job has all its receipts, row n of the chunk table holds the n-th chunk of the receipted markdown with the n-th receipted vector under the columns of the document, the page rows and assets are numbered likewise, the parse row and page count are those of this markdown, and no other rows are there, exactly if the last commit of each table was right |
| StoredTables.RunReceipts | backend/app/services/ingest/idempotency.py:25-73 | In every run the receipts of a job, written out step by step: each has the key that its predecessors determine and the payload that its runner computes from them or that the service has answered, and there are no others |
| StoredTables.SettledShows | backend/app/tasks/ingest.py:162-218 | The invariant on the tables says just that of the rows, for nine payloads of any content |
| StoredTables.HealthyShows | backend/app/services/ingest/idempotency.py:25-35 | The same by the receipts: the session, the OCR result and the vectors are those of the receipts of the job, of which there is one for each step |
| CleanRun.SiblingOverwrites | backend/app/api/documents.py:399-427 | Such commits happen: from every queued job a run in which it succeeds, the document is retried and the new job, with another OCR session, succeeds; the first job still says succeeded with all its receipts, and what is published is not what they call for |
| CleanRun.CleanSucceeds | backend/app/tasks/ingest.py:61-239 | An attempt that nothing disturbs commits the nine steps one after the other and ends with job succeeded and document ready, for all answers the services may give |
| CleanRun.AlwaysRecoverable | backend/app/tasks/ingest.py:61-239 | Recovery: from every state any run reaches in which the document exists, whoever has written its tables, one more delivery that nothing disturbs keeps every committed receipt and finishes the job with all tables right, for all answers that extend the committed ones |
| CleanRun.OwnPassed | backend/app/tasks/ingest.py:162-218 | What the attempt under way has written stays right through its own next move, whatever stood in the tables before it |
| CleanRun.CompletionExists | backend/app/tasks/ingest.py:290-327 | Whatever is committed, the services can answer so that the pipeline is completed |
| CrashRefinement.ReceiptsStayAPrefix | backend/app/services/ingest/idempotency.py:25-73 | In every run with crashes, errors, redeliveries, retries and other jobs: while the document exists the job's receipts are exactly a prefix of the pipeline, each keyed by the input its predecessors determine, at most one per step, and all nine once the job has succeeded |
| CrashRefinement.NoStepRunsTwice | backend/app/services/ingest/idempotency.py:59-73 | No runner is called once a receipt for its step is committed, whatever input it was keyed by |
| CrashRefinement.EventStep | backend/app/tasks/ingest.py:61-277 | Every event, moves of other workers included, either removes the document or keeps the invariant of the job, its list of receipts growing only by its own commits; the tables keep up with the receipts unless another worker of the document moves after the first table write |
| IngestRefinement.OwnStep | backend/app/tasks/ingest.py:77-239 | Every move of an attempt, whether its commit raises or not, keeps receipts, payloads in memory and tables in agreement |
| IngestRefinement.LookupIs | backend/app/services/ingest/idempotency.py:25-35 | The lookup finds a payload exactly for the steps on the list, and then the committed one; a miss means no receipt for the step at all |
| DeletionWins.NothingRemains | backend/app/tasks/ingest.py:257-277 | Deletion wins: under every interleaving of attempts with document and knowledge-base deletes, once the document is gone and its attempts have ended no chunk, page, asset, parse-result or job row of it remains, although writes may land after the delete |
| DeletionWins.RemovalIsFinal | backend/app/tasks/ingest.py:240-254 | A removed document never comes back, so it is never marked ready, and it is never dead-lettered after its removal |
| DeletionWins.NothingRemainsUnderForeignKeys | backend/app/services/deletion.py:54-91 | With enforced foreign keys no row, receipts included, refers to a removed document at any time, even before its attempts have ended |
| DeletionWins.FkEvent | backend/app/services/deletion.py:54-91 | Every event keeps all foreign keys when the database enforces them on insert |
| OrphanReceipts.OrphansAtRemoval | backend/app/services/deletion.py:66-75 | At the event that removes the job row, whatever the run before and after: a receipt of the job is left at the end if and only if foreign keys are not enforced, the worker then stands before a step that is not the last or has its fresh result uncommitted, its rows can be made, and its next own events are the moves up to that commit, with no error or crash between and the runner answering; and there is never more than one such receipt |
| OrphanReceipts.OrphanCanFollow | backend/app/services/deletion.py:66-75 | For a job queued in the run the rows can always be made: events that leave an orphan exist exactly when foreign keys are not enforced and the worker stands at one of these two control points at the removal; from every other control point none can follow |
| OrphanReceipts.AfterRemoval | backend/app/services/ingest/idempotency.py:38-73 | The same from any state in which the rows are gone: the worker's own next events decide, and at most one receipt is added |
| OrphanReceipts.OrphanReachable | backend/app/services/deletion.py:66-75 | Such a run exists from every queued job: a delete between the upload and the commit of its receipt leaves the receipt for good, and the attempt ends |
| OrphanReceipts.ForeignKeysPreventLeaks | backend/app/services/deletion.py:66-75 | Enforced foreign keys rule out such a commit |
| IngestWorker.Session.ProcessIngestJob | backend/app/tasks/ingest.py:61-254 | The job function undisturbed, from whatever is in the database: its commits are those of the transition system's worker, given the services' answers, moving to its end; it answers ready exactly if job and document then say succeeded and ready; it purges a document that is gone; and for a job in a state that runs reach it answers ready, with every row of the tables the one its receipts lead to (StoredTables), exactly if the answers continue the committed payloads to nine, and leaves the job dead otherwise |
| IngestAttempt.AttemptEnds | backend/app/tasks/ingest.py:61-254 | The same of the worker's moves: a delivered attempt that nothing disturbs ends, and the committed payloads and the answers decide how |
| IngestAttempt.CompletesIffShaped | backend/app/tasks/ingest.py:290-327 | The answers continue the payloads to nine exactly if those still asked for are a session, an OCR result and one vector for each chunk of the markdown |
| IngestWorker.Session.Attempt | backend/app/tasks/ingest.py:77-239 | The body of the try, as moves answered by the services: it returns exactly when the attempt has ended in success, and otherwise stands at its cancellation or its error |
| IngestWorker.Session.BeginAttempt | backend/app/tasks/ingest.py:79-82 | Job running with one attempt more, document in OCR, or an error when a row is gone |
| IngestWorker.Session.MarkDocument | backend/app/tasks/ingest.py:118-119 | The document enters its next phase, or an error when it is gone |
| IngestWorker.Session.EnterPhase | backend/app/tasks/ingest.py:117-120 | The check, the status change and the check before a new phase |
| IngestWorker.Session.OcrSteps | backend/app/tasks/ingest.py:85-113 | Upload and then the OCR result keyed by its session, each the committed payload or else the service's answer |
| IngestWorker.Session.EmbedSteps | backend/app/tasks/ingest.py:121-152 | Outline, chunks and vectors, each keyed by what precedes it, the vectors the committed ones or else the model's |
| IngestWorker.Session.WriteTables | backend/app/tasks/ingest.py:162-201 | The tables then hold chunk n with vector n, the page rows and the images, each numbered from 0 and no others; the strict zip raises for vectors that do not match |
| IngestWorker.Session.RaiseIfCancelled | backend/app/tasks/ingest.py:257-259 | The attempt goes on or turns to its cancellation, by the rows as committed |
| IngestWorker.Session.LookupOrRun | backend/app/services/ingest/idempotency.py:59-71 | A committed payload is returned without the runner's answer; otherwise the runner's answer or its failure |
| IngestWorker.Session.WriteReceipt | backend/app/services/ingest/idempotency.py:38-56 | One receipt more, and no other row |
| IngestWorker.Session.Step | backend/app/services/ingest/idempotency.py:59-73 | One receipted step from lookup to commit: the committed payload or else the runner's answer, failing exactly if there is none or the commit is refused; its rows are replaced and at most its receipt is added |
| IngestWorker.Session.CommitStep | backend/app/services/ingest/idempotency.py:38-56 | Rows, receipt and commit are one transaction that raises exactly when a key is taken or a reference dangles |
| IngestWorker.Session.WriteRows | backend/app/services/ingest/track_a_indexer.py:65-92 | The document's rows of one table are replaced as a whole |
| IngestWorker.Session.FinishAttempt | backend/app/tasks/ingest.py:203-234 | The last transaction as one: parse result, page count, both statuses and the final receipt, or cancellation |
| IngestWorker.Session.IsCancelledOrDeleted | backend/app/tasks/ingest.py:262-269 | True exactly when a row is missing or marked for deletion or cancellation |
| IngestWorker.Session.FinishCancelledIngest | backend/app/tasks/ingest.py:272-277 | A cancelled attempt purges its document |
| IngestWorker.Session.HandleError | backend/app/tasks/ingest.py:244-254 | An error cancels if the document is going, and dead-letters otherwise |
| IngestWorker.Session.MarkDeadLetter | backend/app/services/ingest/dead_letter.py:9-30 | Document failed, job dead with the error cut at 4000, one audit row with it cut at 1000; nothing if a row is gone |
| Deletion.DbSession.HardDeleteDocuments | backend/app/services/deletion.py:54-91 | The documents and everything hanging on them are gone and nothing else changed; the count is the number of distinct documents that existed; foreign keys hold after each statement |
| Deletion.DbSession.RequestDocumentDeletion | backend/app/services/deletion.py:94-108 | Documents marked deleting, their unfinished jobs marked for cancellation (row by row in Deletion.MarkedRows) |
| Deletion.DbSession.HardDeleteKnowledgeBase | backend/app/services/deletion.py:111-137 | The knowledge base, its documents, chunks, citations and permissions are gone, sessions unlinked, the three counts right; foreign keys hold after each statement |
| Deletion.KbDeletionIsExact | backend/app/services/deletion.py:111-137 | If knowledge-base columns agree with the documents', nothing mentions the knowledge base or its documents afterwards, every other knowledge base's rows and all messages and audits are unchanged, and sessions differ only in the nulled link |
| Deletion.PurgeOneByOne | backend/app/services/deletion.py:54-91 | Deleting a list at once, duplicates or not, is deleting its members one by one |
| Deletion.PurgeTwice | backend/app/services/deletion.py:54-91 | Deleting two sets in turn is deleting their union |
| Deletion.PurgeAnyOrder | backend/app/services/deletion.py:54-91 | ... in any order |
| Deletion.DocumentDeletionIsExact | backend/app/services/deletion.py:54-91 | Nothing refers to the deleted documents any more, no receipt of their jobs is left, and all rows of other documents, jobs and citations are as before |
| Deletion.PurgeRows | backend/app/services/deletion.py:54-91 | Table by table: exactly which rows go, receipts through the jobs of the documents, citations if asked for; all others are unchanged |
| Deletion.PurgeKbRows | backend/app/services/deletion.py:111-137 | The same for a knowledge base, with its own chunks, citations, permissions and session links |
| Progress.ProgressStatus | backend/app/api/documents.py:723-738 | The reversed loop, which looks at one receipted step only, yields the maximum over all of them |
| Progress.HighestPhaseIs | backend/app/api/documents.py:723-738 | That maximum bounds the document's phase and every receipted step's phase, and is one of them |
| Progress.NeverBelowReceipts | backend/app/api/documents.py:723-755 | Whatever the status columns say, the percentage is at least the value of every receipted step, or 99 |
| Progress.HundredExactly | backend/app/api/documents.py:723-755 | 100 is shown if and only if the document is ready, the job succeeded, or the final step is receipted and the document is not failed, disabled or being deleted |
| Progress.ProgressGrows | backend/app/api/documents.py:741-755 | While nothing has failed the percentage is monotone in the phase and in the set of receipted steps |
| Progress.ShownIs | backend/app/api/documents.py:723-755 | The percentage in closed form: 100 once done; the best receipt, 99 at most, for a failed, disabled or deleted document or a dead job; otherwise the larger of the best receipt and the floor of the document's own status |
| Progress.ShownNumbers | backend/app/api/documents.py:83-117 | The percentage of every document status, job status and set of receipts in numbers |
| Progress.StatusIs | backend/app/api/documents.py:723-738 | The status shown, for all of them |
| Progress.StatusDrop | backend/app/api/documents.py:723-755 | Putting a document to a phase before the last (job running or as it was) lowers the percentage if and only if the final step is not receipted, the job is not succeeded, and 100 was shown or the old status shows more than the receipts are worth and more than the new one |
| Progress.FailureDrop | backend/app/api/documents.py:723-755 | Putting it to failed (job dead or as it was) lowers the percentage if and only if the job is not still succeeded, and 100 was shown or the old status shows more than the receipts are worth |
| ProgressRuns.HundredIffFinalized | backend/app/api/documents.py:384-386 | In every run in which no other worker of the document moves, 100 is shown exactly when the final receipt is committed, unless the document is failed, disabled or being deleted |
| ProgressRuns.NeverBelowLastReceipt | backend/app/api/documents.py:384-386 | Across every crash, error and redelivery the percentage never falls below the value of a step once receipted (99 at most until done) |
| ProgressRuns.AttemptNeverFallsBack | backend/app/api/documents.py:384-386 | Within an attempt, from its first commit to its last, no event lowers the percentage, provided that since that commit no other worker of the document has moved and nobody has retried it |
| ProgressDrops.DropsExactly | backend/app/api/documents.py:384-386 | In every run, whatever other workers and retries do, an event that leaves the document in place lowers the percentage of a job if and only if, just before it, a worker of the document stands at marking its job running, marking the next phase or dead-lettering its job, or the document is about to be retried, and the status then shows more than the receipts are worth and more than the new status does, or 100 is shown, as the two lemmas above say |
| ProgressDrops.RetryStartsOver | backend/app/api/documents.py:399-427 | After a retry the new job is the one asked for, and it shows 0 |
| ProgressDrops.DropsReachable | backend/app/api/documents.py:384-386 | From every queued job two runs in which it falls from 40 to 35: a crash after the document is marked for embedding and a redelivery, and an error there that dead-letters the job |
| Outline.ParseOutline | backend/app/services/ingest/outline_parser.py:40-136 | The loop with its two stacks, pending lines and early-returning flush computes the outline defined position by position without a stack |
| Outline.FlushPending | backend/app/services/ingest/outline_parser.py:67-84 | A flush appends the section the pending lines stand for, or, for an empty section with a heading, nothing while keeping the lines |
| Outline.OpenSection | backend/app/services/ingest/outline_parser.py:99-107 | The two stacks are popped and pushed to the path of the new heading, which OutlineResult.ResultIs shows to be the titles of its enclosing headings |
| Outline.PathIsAncestorChain | backend/app/services/ingest/outline_parser.py:91-116 | The path of a heading names exactly the headings whose level no later heading up to it reaches, in order |
| Outline.PopGivesAncestors | backend/app/services/ingest/outline_parser.py:99-104 | Popping while the top level is at least the new one leaves the ancestors of the new heading |
| Outline.StacksAgree | backend/app/services/ingest/outline_parser.py:99-104 | Level and path stack keep the same length and levels strictly increase |
| Outline.ParseConservesText | backend/app/services/ingest/outline_parser.py:67-136 | The stripped non-blank body lines, page splits dropped, are those of the sections in order: nothing lost, repeated or moved |
| Outline.ParsePages | backend/app/services/ingest/outline_parser.py:86-136 | The page count is one more than the page splits; each section's pages are in order and not before the previous section's end |
| Outline.OpeningSectionKept | backend/app/services/ingest/outline_parser.py:67-130 | For non-empty input the first flush always appends, so the fallback section is never needed |
| OutlineResult.ResultIs | backend/app/services/ingest/outline_parser.py:58-136 | For every text with content: its sections, entries, pages and warnings, line by line. Sections are opened at increasing lines, the first at the start; one carries the title and level of its heading, as path the titles of just the headings that enclose it, in order, the digest of that path, the stripped join of the text lines up to the next heading, and its pages. A section is left out exactly if its heading has another title than the default one and no text line of it has content |
| OutlineResult.EmptyResult | backend/app/services/ingest/outline_parser.py:40-56 | A text without content has one empty section, no pages and a warning |
| OutlineResult.LinesAre | backend/app/services/ingest/outline_parser.py:86-97 | A line is a page split, a heading if its stripped text matches a pattern, or text |
| OutlineResult.SectionDescribed | backend/app/services/ingest/outline_parser.py:67-84 | The section between two headings, and when it is kept |
| Chunker.ChunkSection | backend/app/services/ingest/chunker.py:53-87 | The packing loop emits the chunks of the section as specified piece by piece |
| Chunker.PackPieces | backend/app/services/ingest/chunker.py:63-87 | The loop over the pieces with its running list and counter |
| Chunker.ChunkAll | backend/app/services/ingest/chunker.py:29-43 | All sections, indices running through |
| Chunker.SelectTail | backend/app/services/ingest/chunker.py:108-118 | The reversed loop selects the overlap |
| Chunker.TailIsShortest | backend/app/services/ingest/chunker.py:108-118 | The overlap is the shortest suffix reaching the overlap tokens, or everything; nothing if none is asked for |
| Chunker.SectionChunksCover | backend/app/services/ingest/chunker.py:53-87 | Each chunk is the tail of the chunk right before it, or nothing beside a hard split, followed by fresh pieces, joined by blank lines and stripped, with its own token count, type and digest and the section's path and pages; the fresh pieces are the section's pieces in order, hard splits rejoined |
| Chunker.SectionChunksAreTight | backend/app/services/ingest/chunker.py:66-84 | Greedy in both directions: a chunk is closed only when the next piece would bring the token counter over the limit, or around an oversized piece; no piece joins others that would do so; only pieces with more tokens than the limit are cut, each slice alone, without overlap on either side |
| Chunker.StoredTokensBound | backend/app/services/ingest/chunker.py:46-87 | For a positive limit a chunk's pieces sum to at most the limit without overlap and to less than 2 limit + overlap with it, and the stored count exceeds the sum by at most (5n-2)/4 |
| Chunker.HardSplitRejoins | backend/app/services/ingest/chunker.py:101-105 | Slices rejoin to the text, all but the last have exactly `limit` characters, and none has more tokens; without a positive limit there is one |
| Chunker.JoinTokens | backend/app/services/ingest/chunker.py:46-50 | Joining n pieces by blank lines costs no token less than their sum and at most (5n-2)/4 more (the counts as in Chunker.CountTokensIs) |
| Chunker.ChunksAreNumbered | backend/app/services/ingest/chunker.py:29-43 | Chunk indices are 0, 1, 2, ... |
| Chunker.SectionsInOrder | backend/app/services/ingest/chunker.py:29-43 | The chunks of each section stand right after those of the sections before it, and nothing else is there |
| Chunker.CountTokensIs | backend/app/services/ingest/chunker.py:46-50 | The count is the number of positions where a run of ASCII letters, digits or underscores begins, plus the number of characters from U+4E00 to U+9FFF, plus a quarter of the remaining characters, rounded down |
| Chunker.ExpandIs | backend/app/services/ingest/chunker.py:75-82 | A piece stands in the chunks as it is, or as its slices exactly if it has more tokens than the limit |
| PageIndex.WritePageIndex | backend/app/services/ingest/track_b_indexer.py:21-45 | The dictionary filled chunk by chunk and read in key order gives one row per page |
| PageIndex.GroupByPage | backend/app/services/ingest/track_b_indexer.py:21-24 | Every page's list holds its chunks in order |
| PageIndex.RowsAscend | backend/app/services/ingest/track_b_indexer.py:25-43 | One row per page in ascending order, with the page's chunks, their number and their text |
| PageIndex.PageIndexPartitions | backend/app/services/ingest/track_b_indexer.py:21-45 | Rows ascend by page, partition the chunks keeping their order, and their block counts sum to the number of chunks |
| PageIndex.IndexReadsInOrder | backend/app/services/ingest/track_b_indexer.py:21-45 | For the chunks of any markdown the rows read one after the other list the chunk indices 0, 1, 2, ... |
| PageIndex.PageRowsAre | backend/app/services/ingest/track_b_indexer.py:21-45 | There is a row exactly for each page on which a chunk starts, in ascending order, and it holds the references and the texts, joined by blank lines, of the chunks that start there, in order; a chunk without a page or on page 0 counts for page 1 |
| Embedding.TrackAIndexer.EmbedChunks | backend/app/services/ingest/track_a_indexer.py:35-52 | For every batch size, any cache agreeing with the model and any answers of the service: the call succeeds exactly if every batch of the uncached positions does, and then the result is the embedding of every chunk; which positions it requests, how it ends and which answers it leaves are those of its course over the service's answers; only uncached positions, in requests of bounded size, each at least once and at most five times; then the hashes of all chunks are cached; after an error the caches still agree, the batches before the one given up were requested and those after it were not |
| Embedding.OnceIffAnswered | backend/app/services/llm/client.py:71-77 | A call that succeeds requests each uncached position exactly once if and only if none of the first answers, as many as it needs requests, is a failure |
| Embedding.CallAnswered | backend/app/services/llm/client.py:71-112 | With these answers all given the call succeeds and requests every position once and in order; a call that succeeds otherwise has met a failure and sent a position again |
| Embedding.BatchSucceeds | backend/app/services/llm/client.py:71-77 | A batch succeeds exactly if one of its first five tries is answered to the end and every try before it ended with a failed, not a rejected, request |
| Embedding.FewFailuresSucceed | backend/app/services/llm/client.py:71-77 | Up to four failures over a whole call, and no rejection, are made good |
| Embedding.SentTwice | backend/app/services/llm/client.py:106-112 | An input on which every position is sent twice: 21 uncached chunks in one batch, of whose two requests the second fails once |
| Embedding.DashScopeClient.EmbedBatch | backend/app/services/llm/client.py:71-112 | The decorated call: how it ends, the tries it makes and the answers it uses are decided by the service's answers; one to five tries, each starting the batch again from its first input; a failed request ends a try, a rejected one ends the call at once, and five failures give up |
| Embedding.RequestedMore | backend/app/services/llm/client.py:71-77 | A batch that succeeds adds one to five requests of each of its positions and none of the others, exactly one each and in order if none failed |
| Embedding.TrackAIndexer.Scan | backend/app/services/ingest/track_a_indexer.py:36-43 | Cached vectors, and exactly the uncached positions in order; shared hits end up in the indexer's own cache |
| Embedding.TrackAIndexer.EmbedPending | backend/app/services/ingest/track_a_indexer.py:44-52 | Batch after batch fills every position, ending as the service's answers say; a batch given up leaves the caches right and the positions of later batches unrequested |
| Embedding.TrackAIndexer.Store | backend/app/services/ingest/track_a_indexer.py:48-50 | The answers of a batch go to their positions, and the hashes of their chunks are then in both caches, none dropped |
| Embedding.TrackAIndexer.CacheGet | backend/app/services/ingest/track_a_indexer.py:101-113 | A hit in the shared cache is copied and changes no lookup |
| Embedding.TrackAIndexer.CacheSet | backend/app/services/ingest/track_a_indexer.py:115-118 | A vector enters both caches |
| Embedding.DashScopeClient.EmbedMultimodalBatch | backend/app/services/llm/client.py:106-112 | It succeeds exactly if each of its requests of at most 20 inputs is answered, and the splitting is then invisible in the result; the first request that is not answered ends the try, the inputs up to it having been requested |
| Embedding.TotalRequestsIs | backend/app/services/ingest/track_a_indexer.py:44-47 | How many requests a call takes if all are answered: one for each batch, or one for every 20 texts of a batch |
| Embedding.NothingPendingAgain | backend/app/services/ingest/track_a_indexer.py:36-43 | With the hashes of all chunks in the cache, as after a call that succeeded, nothing is requested |
| TokenBucket.Bucket.TryAcquire | backend/app/services/llm/rate_limiter.py:50-61 | A model holds its level plus refill rate * time since, at most the capacity, and the capacity if not seen before; the locked stretch grants exactly if that covers the request, takes it out, and else gives the time in which the missing tokens flow in |
| TokenBucket.Bucket.AcquireLocal | backend/app/services/llm/rate_limiter.py:50-64 | A lone caller asking for at most the capacity sleeps at most once, for that time or 0.05 seconds if longer; one asking for more is never granted; other models' levels stay |
| TokenBucket.RunBounds | backend/app/services/llm/rate_limiter.py:50-61 | In every run with a clock that does not go back, tokens stay within 0 and capacity |
| TokenBucket.WindowBound | backend/app/services/llm/rate_limiter.py:50-61 | In every window a model is granted at most capacity + refill rate * (to - from) |
| TokenBucket.WindowSum | backend/app/services/llm/rate_limiter.py:50-61 | The same said of the requests: any that are granted to a model between two times ask together for at most capacity + refill rate * (to - from) |
| TokenBucket.TooMuchIsNeverGranted | backend/app/services/llm/rate_limiter.py:50-57 | A request for more than the capacity is never granted |
| LoginLimiter.LoginFailureLimiter.Attempt | backend/app/api/auth.py:110-131 | The login flow: check, then clear or record; what it answers, and what becomes of the entries of the subject, the address and all other keys |
| LoginLimiter.LoginFailureLimiter.GetCount | backend/app/security/login_limiter.py:68-83 | A live count, or zero and the expired entry dropped |
| LoginLimiter.LoginFailureLimiter.Increment | backend/app/security/login_limiter.py:85-104 | A live window counts on, an expired or missing one starts anew |
| LoginLimiter.LoginFailureLimiter.EnsureAllowed | backend/app/security/login_limiter.py:30-36 | Allowed exactly while both counts are below the limit |
| LoginLimiter.LoginFailureLimiter.RecordFailure | backend/app/security/login_limiter.py:38-44 | Both counts grow; blocked exactly when one reaches the limit |
| LoginLimiter.KeysDiffer | backend/app/security/login_limiter.py:61-66 | A subject key is never an address key |
| LoginLimiter.KeysTellApart | backend/app/security/login_limiter.py:61-66 | Two addresses share a key only if equal, two subjects only if equal up to white space around them and case |
| LoginLimiter.CounterIsFailures | backend/app/security/login_limiter.py:68-104 | Every entry counts exactly the failures recorded since its window opened or was last cleared, and never more than the limit; at any time the limiter sees the failures of the window opened last, and none once that window is over |
| LoginLimiter.FailureBound | backend/app/security/login_limiter.py:85-104 | A half-open span as long as the window holds at most 2 limit - 1 recorded failures of a key not cleared in it |
| LoginLimiter.FailuresInAre | backend/app/security/login_limiter.py:38-44 | These failures are the logins in the span with wrong credentials that the check let through, for the subject or from the address |
| Fusion.RrfFusion | backend/app/services/rag/graph.py:136-150 | The loops over the score dictionary and the sort give the ranking by fused score, cut at 2k |
| Fusion.RrfFuse | backend/app/services/rag/retriever.py:416-438 | A lone track passes through unchanged; otherwise the same ranking cut at k |
| Fusion.RankedIs | backend/app/services/rag/graph.py:136-150 | The ranking lists every id of a track exactly once with its fused score, best first |
| Fusion.ScoreIs | backend/app/services/rag/graph.py:136-148 | For duplicate-free tracks the score is the sum of 61 / (61 + rank), ranks from 0, over the tracks that list the id, halved if both tracks found anything |
| Fusion.FusedIs | backend/app/services/rag/graph.py:144-150 | The 2k ids with the best scores are kept, or all if there are no more; no id left out scores more than one kept |
| Fusion.TiesInOrder | backend/app/services/rag/graph.py:136-149 | Equal scores keep the order in which the ids first occur, the first track before the second |
| Fusion.ScoreRange | backend/app/services/rag/graph.py:136-148 | For duplicate-free tracks scores lie in (0, 1] and are 1 exactly for an id first in every non-empty track |
| Fusion.Dominance | backend/app/services/rag/graph.py:136-148 | At least as good a rank in each track gives at least the score |
| Fusion.BestAtLeastHalf | backend/app/services/rag/graph.py:136-150 | The best score is at least 1/2 |
| Fusion.LeastScore | backend/app/services/rag/graph.py:136-150 | With at most 2k ids in a track every score is at least 61 / (2 (60 + 2k)) |
| Candidates.DedupeCitations | backend/app/services/rag/graph.py:192-220 | The dictionary loop, the sort and the enumeration yield the top k of the best per place, numbered from 1 |
| Candidates.DedupeIsTopK | backend/app/services/rag/graph.py:192-200 | Places differ, scores fall, each citation is the maximum of its place, and a candidate whose place is missing scores no more than any citation |
| Candidates.CitationsAre | backend/app/services/rag/graph.py:192-220 | The citations said of the candidates: numbered from 1, at most k, best first, one for each document, section path and page, each the first best candidate there; a candidate whose place is missing scores no more than any of the k |
| Candidates.ShouldAnswer | backend/app/services/rag/graph.py:226-232 | A hit exactly when some citation scores at least the threshold |
| Candidates.BestPerPlaceIs | backend/app/services/rag/graph.py:194-199 | One entry per place, from the candidates, and as good as any of that place |
| Candidates.LoadedIs | backend/app/services/rag/retriever.py:169-194 | Candidates exist exactly if a fused id has a row, and carry its fused score |
| Candidates.LoadedRows | backend/app/services/rag/retriever.py:169-194 | Every fused id with a row is loaded with that row and its score, and nothing else is |
| Candidates.AnswersIffMaterialized | backend/app/services/rag/graph.py:226-232 | At the threshold 0.05 and for k up to 275 the question is answered exactly when some fused id still has its chunk |
| Sorting.SortStable | backend/app/services/rag/graph.py:144-148 | The library sort modelled: ties keep their order (with SortSorts and SortMembers: sorted and a permutation) |
| Sorting.TiesStay | backend/app/services/rag/graph.py:144-148 | Of two elements that tie, the one listed first stood first |
| Citations.CompareClauses | frontend/src/features/chat/citationDisplay.ts:15-24 | The loop over clause numbers, missing ones as 0, then the locale |
| Citations.CompareClauseIs | frontend/src/features/chat/citationDisplay.ts:15-24 | The clause whose number is smaller at the first difference, missing numbers counting as 0, comes first; without a difference the locale decides |
| Citations.CompareIs | frontend/src/features/chat/citationDisplay.ts:39-51 | A citation with a clause comes before one without; within a clause, or without one, the smaller index |
| Citations.CitationClauseIs | frontend/src/features/chat/citationDisplay.ts:31-37 | The innermost section that names a clause gives it, else the snippet, else the text |
| Citations.ComparatorIsTotalPreorder | frontend/src/features/chat/citationDisplay.ts:39-51 | The citation comparator is total and transitive for every total preorder of the locale |
| Citations.OrderedCitations | frontend/src/features/chat/citationDisplay.ts:53-84 | Pushing into the groups of a map and sorting group by group |
| Citations.OrderedIsPermutation | frontend/src/features/chat/citationDisplay.ts:53-84 | Every citation is shown exactly once |
| Citations.OrderedIsGrouped | frontend/src/features/chat/citationDisplay.ts:53-84 | Citations of one document stand together, sorted by the comparator |
| Citations.DocumentsInOrder | frontend/src/features/chat/citationDisplay.ts:53-84 | Documents are shown in the order of their first citations |
| Citations.DocumentClauses | frontend/src/features/chat/citationDisplay.ts:71-73 | The distinct clauses of a document's citations, sorted |
| Citations.ClausesAreSorted | frontend/src/features/chat/citationDisplay.ts:71-73 | They are exactly the clauses cited, each once, in the order of their numbers |
| Sanitizer.CollapseRepeatedLines | DeepseekOcrApi/ocr_processor.py:181-196 | The loop with its dictionary keeps the lines that Sanitizer.KeepsExactly names |
| Sanitizer.CollapseLinesIs | DeepseekOcrApi/ocr_processor.py:181-196 | What is kept is a subsequence without adjacent blank lines, each line at most max_repeats times |
| Sanitizer.KeepsExactly | DeepseekOcrApi/ocr_processor.py:181-196 | The lines kept are, in order, exactly these: a blank line unless the line kept last before it is blank, any other unless max_repeats kept lines before it have the same non-space characters in the same order |
| Sanitizer.CollapseLinesTwice | DeepseekOcrApi/ocr_processor.py:181-196 | Collapsing a collapsed list of lines changes nothing |
| Sanitizer.CollapseLinesAgain | DeepseekOcrApi/ocr_processor.py:181-196 | On texts: a second pass differs from the first if and only if the first blank line after the last line of content is empty, and then it drops just the newline the first pass leaves at the end; a third pass never changes anything |
| Sanitizer.SecondPassDiffers | DeepseekOcrApi/ocr_processor.py:181-196 | A text on which it differs: a line followed by an empty one |
| Sanitizer.CollapseLinesKeeps | DeepseekOcrApi/ocr_processor.py:181-196 | Nothing is dropped without need: of every line (its non-space characters, Text.SqueezeIs) max_repeats copies stay, or all there are |
| Sanitizer.CollapseUnitsKeeps | DeepseekOcrApi/ocr_processor.py:198-213 | Of every unit of six or more non-space characters (Text.SqueezeIs) max_repeats copies stay, or all there are; shorter units all stay |
| Sanitizer.CollapseRepeatedUnits | DeepseekOcrApi/ocr_processor.py:198-213 | The loop over units and separators with its dictionary keeps the units that Sanitizer.UnitsKeepExactly names |
| Sanitizer.UnitsKeepExactly | DeepseekOcrApi/ocr_processor.py:198-213 | The units kept are, in order, exactly those with fewer than six non-space characters or with fewer than max_repeats kept units before them that have the same ones in the same order |
| Sanitizer.CollapsedUnitsTwice | DeepseekOcrApi/ocr_processor.py:198-213 | Collapsing the units of any text again changes nothing |
| Sanitizer.UnitsRejoin | DeepseekOcrApi/ocr_processor.py:199-199 | Splitting at the separators loses nothing |
| Sanitizer.UnitsSplit | DeepseekOcrApi/ocr_processor.py:199-199 | Units are closed by exactly the eight separators and hold none |
| Text.SqueezeIs | DeepseekOcrApi/ocr_processor.py:185-185 | Removing white space leaves the other characters, all of them and in order |
| Text.SplitLinesAt | DeepseekOcrApi/ocr_processor.py:184-184 | Any line break ends a line, a carriage return with the line feed behind it being one |
| HeadingTrim.TrimRepetitiveNumberedHeadings | DeepseekOcrApi/ocr_processor.py:223-243 | The window scan cuts at the first repetitive window |
| HeadingTrim.TrimTwice | DeepseekOcrApi/ocr_processor.py:223-243 | A trimmed text is not trimmed again |
| HeadingTrim.TrimsExactlyRepetitive | DeepseekOcrApi/ocr_processor.py:223-243 | A text is left alone exactly when it has no window of eight headings with at most three titles on at most 32 lines |
| HeadingTrim.TrimIsCut | DeepseekOcrApi/ocr_processor.py:235-242 | Otherwise the lines above the first such window stay, but for white space at the end |
| HeadingTrim.TrimIs | DeepseekOcrApi/ocr_processor.py:223-243 | The same said of the lines: with no eight headings in a row that have at most three titles on at most 32 lines the text stays, and otherwise the lines above the first of the first such eight do, but for white space at the end |
| HeadingTrim.SanitizeMarkdownContent | DeepseekOcrApi/ocr_processor.py:245-249 | Units are collapsed to one copy, then lines to two, then the text is trimmed; the two final replacements find nothing to replace |
| HeadingTrim.IsUsableIncompleteContent | DeepseekOcrApi/ocr_processor.py:251-255 | At least 20 non-space characters and unchanged by trimming |
| HeadingTrim.SanitizerFixpoint | DeepseekOcrApi/ocr_processor.py:223-255 | For every text: trimming and replacing change nothing any more, no repetitive window is left, and usable means at least 20 non-space characters |
| SanitizerPasses.SanitizedAgain | DeepseekOcrApi/ocr_processor.py:245-249 | Another pass over a sanitized text changes it if and only if it ends in a newline or a unit of six or more characters stands in it twice |
| SanitizerPasses.PlainTwice | DeepseekOcrApi/ocr_processor.py:245-249 | For texts whose only breaks are newlines a second pass differs exactly if the first leaves a newline at the end, drops just that, and a third changes nothing |
| SanitizerPasses.ThreePasses | DeepseekOcrApi/ocr_processor.py:245-249 | For every text nothing changes after three passes |
| SanitizerPasses.PassesDiffer | DeepseekOcrApi/ocr_processor.py:245-249 | A text on which the second pass differs from the first |
| OcrQueue.OcrService.UploadPdf | DeepseekOcrApi/app.py:256-295 | The session is written as queued, and then as failed with queue_full exactly when the queue is full; otherwise its ticket is queued |
| OcrQueue.OcrService.Get | DeepseekOcrApi/app.py:422-422 | The least ticket leaves the queue |
| OcrQueue.OcrService.TakeSession | DeepseekOcrApi/app.py:420-444 | The worker takes the least ticket and writes its session as running, at 5 and then 30 per cent |
| OcrQueue.OcrService.FinishSession | DeepseekOcrApi/app.py:450-459 | The session is written at 90 and then completed at 100 per cent |
| OcrQueue.OcrService.FailSession | DeepseekOcrApi/app.py:460-467 | The session is failed, its progress as it stood |
| OcrQueue.OcrService.EndSession | DeepseekOcrApi/app.py:425-427 | After the callback the session is no longer active |
| OcrQueue.EverySessionHasOnePlace | DeepseekOcrApi/app.py:420-467 | In every run each session is in exactly one of queue, active and terminal by its status, and the queue never exceeds its size |
| OcrQueue.DispatchTakesLeast | DeepseekOcrApi/app.py:420-428 | Each dispatch takes the least (priority, time, id) of all waiting, and only it leaves the queue |
| OcrQueue.FirstComeFirstServed | DeepseekOcrApi/app.py:420-428 | Whoever still waits has a larger priority number, or came later, or has a later id, character by character |
| OcrQueue.StatusOnlyMovesForward | DeepseekOcrApi/app.py:431-467 | Whatever is written about a session over a run: status moves from queued to running to completed or failed, progress never falls, a terminal status stands |
| OcrQueue.RejectedIsFailed | DeepseekOcrApi/app.py:282-289 | An upload that finds the queue full is failed and not queued |
| Base64.DecodeEncode | backend/app/security/password.py:14-20 | Every byte string survives encoding, stripping the padding, restoring it by -len % 4 and decoding |
| Base64.TestVectors | backend/app/security/password.py:14-15 | The encoding is the standard one on the test vectors of section 10 of RFC 4648 (and URL-safe, in Base64.UrlSafe) |
| Password.ReadPrinted | backend/app/security/password.py:33-53 | Reading a printed record gives back all parameters, salt and digest, whatever they are |
| Password.RecordInjective | backend/app/security/password.py:33-33 | Different parameters, salts or digests print as different records |
| Password.VerifyHashed | backend/app/security/password.py:23-53 | A password verifies against a hash exactly when both derive the same key, so against its own hash always |
| Password.HashIs | backend/app/security/password.py:23-33 | The record is scrypt$16384$8$1$ with the encoded salt and the encoded 64-byte key |
| Password.SchemeNeeded | backend/app/security/password.py:36-53 | No password verifies against a record of another scheme |
| Decimal.PrintParse | backend/app/security/password.py:47-49 | Printed numbers are read back |
| Decimal.PrintIs | backend/app/security/password.py:33-33 | Decimal digits without leading zeros |
| Decimal.ParseRefuses | backend/app/api/pdf_preview.py:287-296 | A text with any character but digits, signs, underscores and white space is no number |
| ByteRange.AcceptedInside | backend/app/api/pdf_preview.py:280-301 | An accepted range is not empty and lies inside the file |
| ByteRange.ParseIsSelection | backend/app/api/pdf_preview.py:280-301 | A well-formed range of each of the three forms is accepted exactly when it selects a byte of the file, and is then exactly what it selects (section 14.1.2 of RFC 9110) |
| ByteRange.ParseForms | backend/app/api/pdf_preview.py:280-301 | The three forms in numbers |
| ByteRange.ParseRefuses | backend/app/api/pdf_preview.py:280-285 | Other units, lists of ranges and texts without a dash are refused |
| ByteRange.IterFileRange | backend/app/api/pdf_preview.py:312-322 | The streamed chunks are non-empty, at most one mebibyte, and together the slice |
| ByteRange.AcceptedSlice | backend/app/api/pdf_preview.py:272-278 | For an accepted range that slice is the bytes it names |

## Left out

- HTTP, authentication, permissions, Celery, Redis paths of both limiters, files on disk, and the OCR session that an aborted attempt deletes.
- SQLAlchemy's identity map, autoflush and isolation levels: transactions are serial commits on tables.
- Turning MySQL's foreign-key checks off around two delete statements: the foreign keys are shown to hold there anyway.
- Audit rows other than the dead-letter one; titles, file names, timestamps and other columns that no step reads.
- Uploading a document: runs start from any database, with the job under study just queued.
- The waiting times between the tries of an embedding batch; an answer with the wrong number of vectors.
- The single-request embedding endpoint's response format, vector literals and sparse vectors of the chunk rows.
- Native SQL search, vector and term-frequency retrieval, prompts, streaming, citation rewriting and persistence of answers.
- Which of a document's jobs the progress request takes as the latest: the percentage is stated for a given job.
- Labels of the document references beside the ordered citations.
- Expiry of OCR sessions, the content of callbacks and the OCR model itself.
- Non-ASCII digits, which `int()` would also accept, in ranges and password records.
- OcrQueue.EverySessionHasOnePlace: assumes that no session is deleted while queued or running and that writing its metadata succeeds, as the service itself does.
- TokenBucket.WindowBound: requests for a negative number of tokens, which no caller makes, are excluded.
- User administration, dashboards, migrations and the frontend apart from citation order.
