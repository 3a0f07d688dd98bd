# SEC filing RAG: a verified model

The service answers research questions from original 10-K filings. It extracts six Items from a
filing, cuts them into chunks, embeds and indexes the chunks, retrieves evidence for a question,
has a language model answer it, and shows the reader the exact characters a citation stands for.
Around that sit a streaming endpoint, a lifetime budget, a batch workflow driven by retried
callbacks, an evaluation of retrieval and prompts, and a release procedure on a shared volume.

This project models those parts in Dafny and proves what they promise, for all inputs, all
interleavings and all places where a run may stop. `dafny verify dfyconfig.toml` checks it.

## How it is organised

| file | what it covers |
|---|---|
| `EventStream.dfy`, `StreamProtocol.dfy` | the research event stream: printer, incremental parser, bounded queue, producer and consumer |
| `Chunking.dfy`, `Extraction.dfy`, `CorpusReader.dfy`, `MarkedText.dfy` | the text offsets, from the filing to the marks in the browser |
| `Pricing.dfy`, `Ledger.dfy` | cost estimates and the lifetime budget |
| `Workflow.dfy` | a filing batch under repeated, reordered and interrupted callbacks |
| `CorpusActivation.dfy` | building, validating and promoting corpora |
| `Fusion.dfy`, `Metrics.dfy` | hybrid retrieval, its metrics and the selection of a configuration |
| `GenerationEvaluation.dfy`, `Context.dfy` | the comparison of prompts, and packing evidence into a prompt |
| `Release.dfy` | the production evaluation release as a file-system protocol |
| `Embedding.dfy`, `GroundTruth.dfy`, `Paging.dfy` | embedding batches, stratified sampling, history pages |
| `Wrappers.dfy`, `Iteration.dfy`, `Sequences.dfy`, `Ordering.dfy` | shared definitions: options, loops as iterated steps, sequences, stable sorting |

Tables are maps or sequences and a database transaction is one step. Objects that update rows are
classes whose methods are proved against a function of the old state; what the system promises is
then proved about that function over whole runs. Hashes are injective, so a hash is modelled by what
it is computed from. Provider replies, clocks and failures are arbitrary parameters.

## Where the code and its documentation part ways

The model follows the code. In these places that matters:

- The chunker's own guard, overlap below size, does not make it end. It ends on every text exactly
  when the overlap is below half the size (or the size is 1): `Chunking.HaltsOnEveryText`.
- The reader's ranges count code points and the browser slices UTF-16 units. The mark the browser
  draws covers what its range stands for exactly when no character before the end of the range lies
  outside the basic multilingual plane (`MarkedText.MarkIsExactIff`), and under that condition the
  marks on the page spell the cited chunk (`MarkedText.ScreenSpellsChunk`). A shifted mark usually
  shows other characters (`MarkedText.EmojiShiftsTheMark`), though it need not
  (`MarkedText.ShiftMayGoUnseen`). No text is ever lost: `MarkedText.ParagraphSurvivesMarking`.
- `docs/orchestration.md` (lines 178 and 186) promises that processing and failure callbacks can be
  repeated safely. A success survives exactly when no failure callback comes late; one that does
  replaces it for good (`Workflow.LateFailureIff`; a run: `Workflow.LateFailureFailsTheBatch`).
  Repeating the processing of an unchanged item reopens it, so that a healthy batch ends failed
  (`Workflow.RepeatedProcessIff`, `Workflow.RetryUndoesUnchanged`; a run:
  `Workflow.RetryFailsTheBatch`).
- An item that is selected again can come to hold a document under another filing's accession. It
  cannot exactly as long as it is selected at most once: `Workflow.MatchesIffSelectedOnce`.
- `docs/orchestration.md` (line 171) says open items are failed before the aggregate is computed; the
  code computes it from the counts before. Both give the same status:
  `Workflow.FinalizeSettlesTheBatch`.
- A corpus belongs to the company it is the default of only as long as no two companies share a CIK:
  `CorpusActivation.OwnedIffCiksDistinct`.
- A latest-mode ingestion can report "activated" although nothing was promoted: when it gets as far as
  persist, and the corpus it builds has been stored since it looked, or belongs to another company with
  the same CIK, and is not the company's default. The exact condition on the tables before the step is
  `CorpusActivation.ReportedActivationIff`; the runs are `CorpusActivation.RaceReportsFalsely` and
  `CorpusActivation.SharedCikReportsFalsely`; without a race distinct CIKs decide it:
  `CorpusActivation.ReportsTrulyIffCiksDistinct`.
- `publish` writes the promoted prompt before it knows that it can switch. Refused or killed, it can be
  repeated exactly before that write, or right after it when the write changed nothing:
  `Release.PublishAgainIff`; a release that gets stuck: `Release.PublishCanGetStuck`.
- Usage recorded after a research request was settled is never charged: the charge is the price of all
  usage exactly when what is recorded afterwards is priced at nothing (`Ledger.LateUsageIsFree`). A run
  in which `succeed` settles and then raises: `Ledger.LateUsageGoesUncharged`.
- `docs/pipeline.md` (line 90) lists the source offsets among the parts of a chunk's identity; the
  code does not hash them. Within a section the ordinal, which it does hash, tells the chunks apart
  (`Chunking.HandlesAreUnique`).

## Model

| member | source | states |
|---|---|---|
| `EventStream.ReceivePrinted` | frontend/src/researchApi.ts:17-33 | for every sequence of printable events and every way of cutting the printed text into reads, the reading loop with its carried buffer reports the server's events up to and including the first terminal one, and settles as that event says |
| `EventStream.StreamRoundTrip` | frontend/src/researchApi.ts:17-33 | handling the blocks of the printed stream makes the client report the server's events up to and including the first terminal one, and settle as that event says |
| `EventStream.StreamResearch` | frontend/src/researchApi.ts:17-33 | the reading loop with its carried buffer does exactly what handling the separated blocks of the whole received text does |
| `EventStream.HandleRead` | frontend/src/researchApi.ts:18-32 | one read: the buffer and the handled blocks after it are those of the text received so far |
| `EventStream.HandleBlocks` | frontend/src/researchApi.ts:23-31 | the loop over the blocks of one read stops at the first terminal event or unparsable payload and ignores incomplete blocks |
| `EventStream.JsSplitIsFeed` | frontend/src/researchApi.ts:21-22 | splitting a text on blank lines at once and consuming it character by character give the same blocks and the same remainder |
| `EventStream.CarriedBuffer` | frontend/src/researchApi.ts:20-22 | splitting the carried buffer plus the next read continues the splitting of the whole text, also when the cut falls inside a separator |
| `EventStream.FeedPrinted` | src/sec_filing_rag/api/routers/public/research.py:115 | the printed events separate into exactly one block per event with nothing left over |
| `EventStream.ParsePrinted` | frontend/src/researchApi.ts:24-26 | the two regular expressions recover name and payload of a printed event |
| `EventStream.SettledText` | frontend/src/researchApi.ts:29-30 | text that arrives after the client has settled changes nothing |
| `EventStream.WireForm` | src/sec_filing_rag/api/routers/public/research.py:115 | the stream is, for each event, its name and its payload on a line each and a blank line |
| `EventStream.FieldIs` | frontend/src/researchApi.ts:24-26 | a field is what follows its name on the first line of the block that has it, and is missing exactly when no line has it |
| `EventStream.BlockCases` | frontend/src/researchApi.ts:23-31 | one block: skipped without both fields, an error without a call when the payload is no JSON, and otherwise handed on, settling the promise by its name |
| `StreamProtocol.NothingIsLost` | src/sec_filing_rag/api/routers/public/research.py:79-107 | for up to nine attempts and every interleaving of producer and consumer nothing is dropped, and when neither can move the generator has returned after yielding exactly what was published |
| `StreamProtocol.NoDropIff` | src/sec_filing_rag/api/routers/public/research.py:79-85 | the 32 slots never overflow in any run exactly when max_retries is at most 8 |
| `StreamProtocol.NextKeeps` | src/sec_filing_rag/api/routers/public/research.py:81-115 | every step of either thread keeps the queue within the producer's budget and in step with what was published and yielded |
| `StreamProtocol.RunsAreShort` | src/sec_filing_rag/generation/service.py:386-461 | every run ends: no interleaving has more than 6 * max_retries + 19 actions |
| `StreamProtocol.StuckMeansFinished` | src/sec_filing_rag/api/routers/public/research.py:109-113 | a state in which neither thread can move is one in which the generator has returned and everything was yielded |
| `StreamProtocol.RunEnds` | src/sec_filing_rag/api/routers/public/research.py:87-107 | every run publishes at most one terminal event, as its last, and it says how the request ended |
| `StreamProtocol.BrowserSeesEverything` | src/sec_filing_rag/api/routers/public/research.py:74-121 | service, queue, network and parser together: the browser reports exactly the published events and settles as the request ended |
| `StreamProtocol.EventQueue.PutNowait` | src/sec_filing_rag/api/routers/public/research.py:81-85 | an item is appended unless the queue is full, and then the queue is unchanged |
| `StreamProtocol.EventQueue.Get` | src/sec_filing_rag/api/routers/public/research.py:110-111 | the oldest item is removed and returned |
| `StreamProtocol.StagesInOrder` | src/sec_filing_rag/generation/service.py:386-461 | every run publishes the stages in their order, with at most max_retries + 1 attempts, each going on, being retried or ending as it may |
| `StreamProtocol.ProducerCan` | src/sec_filing_rag/generation/service.py:386-461 | exactly when the producer can report its next stage, retry, return, raise, report its result and close, and when the consumer can read |
| `StreamProtocol.RunReports` | src/sec_filing_rag/api/routers/public/research.py:87-105 | every run publishes the payloads it was given, in order, and ends succeeded exactly when the request returned, failed exactly when it raised a caught error, and without a verdict exactly when an error escaped |
| `Chunking.HaltsOnEveryText` | src/sec_filing_rag/domain/filings.py:279-312 | the chunker ends on every text exactly when overlap is below half the size, or the size is 1 |
| `Chunking.StallingTextNeverEnds` | src/sec_filing_rag/domain/filings.py:279-312 | for every other setting the guard lets through, a text on which the loop never ends |
| `Chunking.HaltsIffAdvances` | src/sec_filing_rag/domain/filings.py:283-312 | for one text, the loop ends exactly when every window it reaches moves start forward |
| `Chunking.WindowBound` | src/sec_filing_rag/domain/filings.py:283-312 | with overlap below half the size the number of windows is at most the text's length over size/2 - overlap, rounded up |
| `Chunking.ChunksAreFaithful` | src/sec_filing_rag/domain/filings.py:281-313 | chunks are trimmed, nonempty, at most size long, numbered from 0, equal to the text at their offsets, and every visible character is in one |
| `Chunking.MakeChunks` | src/sec_filing_rag/domain/filings.py:269-313 | refuses overlap at or above size, and otherwise returns exactly the specified chunks: each of one of the windows, from its first visible character to its last, and every window ending at its last newline in the second half, at full size without one, or with the text |
| `Chunking.GoodChunkIsFilingSlice` | src/sec_filing_rag/domain/filings.py:300-309 | a chunk equals the narrative at its absolute offsets when the base offset is the section's start |
| `Chunking.WindowsBreakWell` | src/sec_filing_rag/domain/filings.py:282-312 | every window ends with the text, at the last newline of its second half, or at full size when there is none; the next one begins overlap characters before that end |
| `Chunking.ChunkOfWindow` | src/sec_filing_rag/domain/filings.py:289-309 | a window yields one chunk from its first to its last visible character, and none when it is blank |
| `Chunking.SpacesAre` | src/sec_filing_rag/domain/filings.py:290-292 | the characters strip removes, code point by code point |
| `Extraction.ExtractItem` | src/sec_filing_rag/domain/filings.py:201-241 | the loop and the decision after it compute the specified section from the headings and their boundaries |
| `Extraction.PresentIff` | src/sec_filing_rag/domain/filings.py:225-241 | a candidate is the section exactly when every other is less than 0.8 times as long, whatever order the candidates come in |
| `Extraction.PresentIsSlice` | src/sec_filing_rag/domain/filings.py:214-241 | a present section is a trimmed slice of the narrative at its offsets, no shorter than the Item's minimum |
| `Extraction.BoundaryIsEarliest` | src/sec_filing_rag/domain/filings.py:183-205 | the boundary is the earliest later Item or Part heading, and there is none exactly when no such heading follows |
| `Extraction.SectionStopsInTime` | src/sec_filing_rag/domain/filings.py:183-223 | with the boundaries _next_boundary computes, a present section begins at the first visible character from one of its headings on and never runs into a later Item or a Part |
| `Extraction.SectionChunksResolve` | src/sec_filing_rag/domain/filings.py:201-313 | the whole offset pipeline: every chunk of a present section is the filing at its offsets and resolves in the reader to marks that spell it |
| `Extraction.NoSectionBecause` | src/sec_filing_rag/domain/filings.py:212-237 | without a heading that offers a long enough section the Item is absent exactly when some heading denies it, and otherwise the failure names the right reason |
| `Extraction.RivalsFrom` | src/sec_filing_rag/domain/filings.py:239 | the runner-up rivals the winner from 0.8 of its length on |
| `CorpusReader.Paragraphs` | src/sec_filing_rag/repositories/corpus_reader.py:13-47 | the running offset over splitlines yields the specified paragraphs, and its last branch never runs |
| `CorpusReader.HighlightFor` | src/sec_filing_rag/repositories/corpus_reader.py:50-82 | computes the specified highlight, or none |
| `CorpusReader.HighlightIff` | src/sec_filing_rag/repositories/corpus_reader.py:50-82 | any span resolves exactly when it starts in the section and its part inside the section holds something besides line breaks |
| `CorpusReader.RangesSpellSpan` | src/sec_filing_rag/repositories/corpus_reader.py:59-71 | for any text and span the ranges are in bounds, at most one to a paragraph, in order, and their marks spell the span without its breaks |
| `CorpusReader.RangesAreDisjoint` | src/sec_filing_rag/repositories/corpus_reader.py:59-71 | later ranges are in strictly later paragraphs |
| `CorpusReader.ParagraphsHoldEverything` | src/sec_filing_rag/repositories/corpus_reader.py:13-47 | every character of the section but its line breaks is in a paragraph |
| `CorpusReader.ChunkIsHighlighted` | src/sec_filing_rag/repositories/corpus_reader.py:50-82 | every chunk the chunker makes resolves, and what is marked is its text without line breaks |
| `CorpusReader.ParagraphsAreLines` | src/sec_filing_rag/repositories/corpus_reader.py:13-47 | the paragraphs are exactly the lines with something besides breaks, numbered from 1 at their offsets |
| `CorpusReader.LineEndIs` | src/sec_filing_rag/repositories/corpus_reader.py:20-22 | a line goes up to its first boundary, with carriage return and newline as one |
| `CorpusReader.BoundariesAre` | src/sec_filing_rag/repositories/corpus_reader.py:20-22 | the characters at which lines end, code point by code point |
| `CorpusReader.HighlightNames` | src/sec_filing_rag/repositories/corpus_reader.py:72-82 | a highlight holds the span relative to the section, its ranges, and the paragraphs of the first and the last of them |
| `MarkedText.Render` | frontend/src/pages/CorpusReader.tsx:87-100 | the loop pushes the specified plain and marked pieces |
| `MarkedText.PiecesShowText` | frontend/src/pages/CorpusReader.tsx:89-99 | the pieces concatenate to the text: marking adds, drops and moves nothing |
| `MarkedText.MarksAreSpans` | frontend/src/pages/CorpusReader.tsx:91-97 | the k-th mark is exactly the k-th range |
| `MarkedText.MarkIsExactIff` | frontend/src/pages/CorpusReader.tsx:91-97 | the k-th mark drawn covers the code units its range stands for exactly when no astral character precedes the range's end, and then it shows the range's characters |
| `MarkedText.RangeIsExactIff` | frontend/src/pages/CorpusReader.tsx:517-546 | of the marks on the page, that of each highlight range is exact under the same condition, and its paragraph is shown intact |
| `MarkedText.ScreenSpellsChunk` | frontend/src/pages/CorpusReader.tsx:517-546 | from the filing to the screen: every chunk of a present section is highlighted, and when its ranges are plain up to their ends the marks on the page, read in order, are the chunk's text without line breaks |
| `MarkedText.ParagraphSurvivesMarking` | frontend/src/pages/CorpusReader.tsx:87-100 | whatever the characters, the marked paragraph shows the paragraph |
| `MarkedText.EmojiShiftsTheMark` | frontend/src/pages/CorpusReader.tsx:94 | a concrete paragraph whose mark covers and shows other units than its range |
| `MarkedText.ShiftMayGoUnseen` | frontend/src/pages/CorpusReader.tsx:94 | a paragraph with an astral character before the range whose mark shows the right text all the same |
| `MarkedText.UnitsAreUtf16` | frontend/src/pages/CorpusReader.tsx:94 | a code point is one code unit, or the surrogate pair that encodes it |
| `Pricing.EstimateCharge` | src/sec_filing_rag/core/pricing.py:71-101 | the accumulating loop with its early exits returns the bill, input and output tokens at their own rates, exactly when every operation is priced with its counts and the bill is finite |
| `Pricing.AvailableIff` | src/sec_filing_rag/core/pricing.py:75-99 | an estimate is available exactly when there is a snapshot, every operation is priced with the counts it needs, and the total is a finite float |
| `Pricing.UnavailableStays` | src/sec_filing_rag/core/pricing.py:81-98 | further operations never make an unavailable estimate available |
| `Pricing.TotalAdds` | src/sec_filing_rag/core/pricing.py:80-96 | the total of two lists of operations is the sum of their totals |
| `Pricing.EstimateIgnoresOrder` | src/sec_filing_rag/repositories/workflows.py:310-318 | the estimate does not depend on the order rows come in, which the batch query leaves open |
| `Pricing.EstimateIsBill` | src/sec_filing_rag/core/pricing.py:71-101 | an available estimate is the input tokens at their models' input rates plus the output tokens at their output rates, a millionth of it; it is available exactly when everything needed is there and the sum is finite |
| `Pricing.OverflowIs` | src/sec_filing_rag/core/pricing.py:97-99 | the amounts that do not fit a float begin at 2 to the 1024 less 2 to the 970 |
| `Ledger.SpendingIsBounded` | src/sec_filing_rag/auth.py:236-267 | over every interleaving a user's used amount is at most the largest limit in force at an accepted reservation plus the total overrun |
| `Ledger.RemainingIsNeverNegative` | src/sec_filing_rag/auth.py:246-267 | when every reservation of a user is checked against the same limit, however it was set, and nothing overran, the remaining budget under that or a larger limit is never negative |
| `Ledger.SetOnceIsFixed` | src/sec_filing_rag/auth.py:213-249 | a limit that is set before the user first reserves, by an override or by leaving the default, and not edited afterwards is such a limit |
| `Ledger.OverrunGoesPastTheLimit` | src/sec_filing_rag/repositories/research.py:226-233 | the overrun term is needed: any overrun makes the remaining budget negative by exactly that amount |
| `Ledger.SettlementIsFinal` | src/sec_filing_rag/repositories/research.py:214-238 | a settled action keeps its status and charge in every later state, and its status charges for the usage known at settlement: the bill, nothing for a batch without usage, or the whole reservation when no bill can be made out |
| `Ledger.SettlingAgainChangesNothing` | src/sec_filing_rag/repositories/research.py:220-238 | evaluating a settled action again, also an indeterminate one, gives the settlement it has |
| `Ledger.LateUsageIsFree` | src/sec_filing_rag/repositories/research.py:202-238 | over every run that goes on after a settlement, the charge is the price of all the action's usage exactly when every operation recorded for it afterwards costs nothing |
| `Ledger.LateUsageGoesUncharged` | src/sec_filing_rag/generation/service.py:445-458 | the run in which succeed settles, raises and the attempt's usage is recorded again: for any price the action is charged half of what its usage costs |
| `Ledger.LaunchIsIdempotent` | src/sec_filing_rag/repositories/workflows.py:56-72 | once a launcher id has created a batch, every later call with it answers with that batch and changes nothing |
| `Ledger.ResearchKeyIsUsedOnce` | migrations/versions/0004_authentication_quotas.sql:50-51 | once a user's idempotency key has been used, creating with it again is refused and reserves nothing |
| `Ledger.SummaryBalances` | src/sec_filing_rag/auth.py:246-258 | the limit is what settled actions were charged plus what is reserved plus what remains |
| `Ledger.CoveredStaysUnderPeak` | src/sec_filing_rag/auth.py:261-268 | the part of spending that reservations cover never exceeds the largest limit at an accepted reservation |
| `Ledger.RunKeeps` | src/sec_filing_rag/repositories/research.py:214-238 | in every reachable state every settlement is that of some prefix of the action's usage |
| `Ledger.CostTables.CreateResearch` | src/sec_filing_rag/repositories/research.py:76-115 | checks corpus, budget and key in this order and inserts one reserved action, or refuses and changes nothing |
| `Ledger.CostTables.CreateBatch` | src/sec_filing_rag/repositories/workflows.py:51-99 | returns the launcher's existing batch, or checks tickers and budget and inserts one reserved action |
| `Ledger.CostTables.Reconcile` | src/sec_filing_rag/repositories/research.py:214-238 | a research action that is not reconciled is charged for its usage: the bill, or the whole reservation when no bill can be made out; a reconciled one stays as it is |
| `Ledger.CostTables.ReconcileBatch` | src/sec_filing_rag/repositories/workflows.py:302-334 | a reserved batch action is charged for its usage: the bill, nothing without usage, or the whole reservation when no bill can be made out; a settled one stays as it is |
| `Ledger.CostTables.UpdateUser` | src/sec_filing_rag/auth.py:213-233 | clears, sets or keeps the user's limit and nothing else |
| `Ledger.SettlementCharges` | src/sec_filing_rag/repositories/research.py:214-238 | in every run, settling an open action leaves it reconciled with the bill of its usage, reconciled with nothing for a batch without usage, or indeterminate with the whole reservation, each exactly when it should |
| `Ledger.AcceptedIff` | src/sec_filing_rag/auth.py:246-267 | in every run a creating call is accepted exactly when its inputs are good, the user exists, the limit less charges and open reservations covers the amount and the key is unused, and otherwise refused with the first reason |
| `Ledger.EditedLimit` | src/sec_filing_rag/auth.py:213-233 | after an edit the limit is the default when it was cleared, the new one when one was given, and otherwise the old one; other users keep theirs |
| `Workflow.EveryRunIsConsistent` | src/sec_filing_rag/services/workflows.py:160-251 | for any order, repetition and interruption of callbacks every row agrees with its status, finished_at is set exactly on terminal rows, and no item ever starts two ingestion runs |
| `Workflow.AfterKeeps` | src/sec_filing_rag/repositories/workflows.py:155-193 | every single step keeps that, and never clears a reference or exchanges a run |
| `Workflow.ClaimKeepsRuns` | src/sec_filing_rag/repositories/corpus.py:70-77 | a claim that succeeds leaves runs and items naming each other |
| `Workflow.FinalizeSettlesTheBatch` | src/sec_filing_rag/repositories/workflows.py:272-300 | finalize leaves no open item, touches no closed one, its status from the counts before equals the aggregate after, and repeating it changes nothing |
| `Workflow.AggregateIff` | src/sec_filing_rag/repositories/workflows.py:23-30 | succeeded exactly when there are items and all are healthy, failed exactly when none is |
| `Workflow.SucceededIsFinal` | src/sec_filing_rag/services/workflows.py:160-251 | once an item has succeeded and earlier callbacks are over, only a failure callback can change its row |
| `Workflow.LateFailureIff` | src/sec_filing_rag/api/routers/internal/lifecycle.py:44-52 | over every run, an item's success survives the callbacks that follow exactly when no failure callback for it is among them; otherwise every later finalization finds the batch unsuccessful |
| `Workflow.NeverHealthyAgain` | src/sec_filing_rag/repositories/corpus.py:70-77 | once an item's one ingestion run is over, losing its success, or its latest-mode skip, is for good, whatever callbacks follow |
| `Workflow.ServedIsReached` | src/sec_filing_rag/services/workflows.py:160-251 | any item of any new batch reaches succeeded, or skipped as unchanged, through its three callbacks |
| `Workflow.LateFailureFailsTheBatch` | src/sec_filing_rag/repositories/workflows.py:155-193 | the run from a new batch in which an item succeeds, a failure callback comes late, and the batch ends failed instead of succeeded |
| `Workflow.RepeatedProcessIff` | src/sec_filing_rag/services/workflows.py:225-251 | processing an item again after its run was claimed leaves the row alone exactly when it succeeded or is processing; otherwise it reopens it and starts no run |
| `Workflow.RetryUndoesUnchanged` | src/sec_filing_rag/services/workflows.py:225-251 | such a repetition on an unchanged item turns a healthy latest-mode batch into a failed or partly failed one |
| `Workflow.RetryFailsTheBatch` | src/sec_filing_rag/services/workflows.py:225-251 | the run from a new latest-mode batch in which processing an unchanged item twice ends the batch failed instead of succeeded |
| `Workflow.AcquireRepeats` | src/sec_filing_rag/services/workflows.py:196-223 | a fetched document is stored under the selected accession, and acquiring again changes nothing |
| `Workflow.MatchIsKeptIff` | src/sec_filing_rag/services/workflows.py:193-217 | one step: the held document stays the selected filing exactly when the step does not write another accession over it, or a document fetched for an earlier selection |
| `Workflow.MatchesIffSelectedOnce` | src/sec_filing_rag/services/workflows.py:160-223 | in every run in which an item is selected at most n times the document it holds is the filing it selected, exactly when n is at most 1 |
| `Workflow.CalledIsARun` | src/sec_filing_rag/services/workflows.py:160-251 | a callback run without interruption is one interleaving of its steps |
| `Workflow.WorkflowTables.Transition` | src/sec_filing_rag/repositories/workflows.py:155-193 | sets status, references and finished_at of one row, and starts a submitted batch |
| `Workflow.WorkflowTables.StartRun` | src/sec_filing_rag/repositories/corpus.py:70-77 | claims a new run exactly when the item has none |
| `Workflow.WorkflowTables.Finalize` | src/sec_filing_rag/repositories/workflows.py:272-300 | fails the open items and sets the aggregate status |
| `Workflow.WorkflowTables.Select` | src/sec_filing_rag/services/workflows.py:160-194 | the selection callback's writes for every provider answer, when it raises, and the accession it returns |
| `Workflow.WorkflowTables.Acquire` | src/sec_filing_rag/services/workflows.py:196-223 | the acquisition callback's writes, when it raises, and that the acquisition it returns is the row's |
| `Workflow.WorkflowTables.Process` | src/sec_filing_rag/services/workflows.py:225-251 | the processing callback's writes for every pipeline outcome, when it raises, and that the outcome and corpus it returns are the row's |
| `Workflow.SelectLeaves` | src/sec_filing_rag/services/workflows.py:160-194 | the row select leaves for every status and provider answer |
| `Workflow.AcquireLeaves` | src/sec_filing_rag/services/workflows.py:196-223 | the row acquire leaves for every item and provider answer |
| `Workflow.ProcessLeaves` | src/sec_filing_rag/services/workflows.py:225-251 | the row and the run process leaves for every item and pipeline outcome |
| `Workflow.FailureLeaves` | src/sec_filing_rag/api/routers/internal/lifecycle.py:44-52 | a failure callback fails the item whatever it was, and keeps what it refers to |
| `Workflow.FailuresBeforeTheRun` | src/sec_filing_rag/repositories/workflows.py:101-139 | a failed launch fails the pending items and a batch that is still submitted; a failed submission fails them and the batch |
| `CorpusActivation.EveryDefaultIsComplete` | src/sec_filing_rag/repositories/corpus.py:219-447 | in every run of interleaved ingestions a company has at most one default, and it is ready and passed the six-Item validation |
| `CorpusActivation.DefaultIsNeverLost` | src/sec_filing_rag/repositories/corpus.py:226-234 | a company that has a default has one ever after |
| `CorpusActivation.DefaultAfterStep` | src/sec_filing_rag/services/ingestion.py:163-182 | a step changes the default of a company only as the successful end of a latest-mode ingestion of that company, to the corpus it reports |
| `CorpusActivation.OwnedIffCiksDistinct` | src/sec_filing_rag/repositories/corpus.py:277-300 | every default ever made belongs to its company exactly when no two companies share a CIK |
| `CorpusActivation.SharedCikGivesAForeignDefault` | src/sec_filing_rag/repositories/corpus.py:277-300 | for any two candidates that pass and share no chunk: the run in which two companies with one CIK end with a default of the other's filing |
| `CorpusActivation.LatestMakesTheDefault` | src/sec_filing_rag/services/ingestion.py:163-273 | an uninterrupted latest-mode ingestion ends with its corpus as the company's default or with an error and unchanged defaults |
| `CorpusActivation.ReportedActivationIff` | src/sec_filing_rag/services/ingestion.py:205-261 | in every run, an ingestion's next step reports an activation that does not take place exactly when it is a latest-mode build of a candidate without unusable Items and with chunks, whose corpus is stored already and is not the company's default |
| `CorpusActivation.RaceReportsFalsely` | src/sec_filing_rag/repositories/corpus.py:301-330 | for every candidate that passes: the run in which an exact-year and a latest-mode ingestion of one filing race, the second reports an activation, and the company has no default |
| `CorpusActivation.SharedCikReportsFalsely` | src/sec_filing_rag/repositories/corpus.py:277-330 | for every candidate that passes: a run without a race in which the second of two companies with one CIK reports the first one's corpus as activated |
| `CorpusActivation.ReportsTrulyIffCiksDistinct` | src/sec_filing_rag/services/ingestion.py:163-273 | the report of every ingestion that nothing interrupts is true exactly when no two companies share a CIK |
| `CorpusActivation.ValidationIff` | src/sec_filing_rag/repositories/corpus.py:449-487 | the rows persist writes pass validation exactly when every Item was found with well-formed chunks or explained as absent and every chunk has its vector of the configured size |
| `CorpusActivation.ExtractedSectionIsComplete` | src/sec_filing_rag/services/ingestion.py:189-203 | what the extractor finds and the chunker cuts always meets the validation |
| `CorpusActivation.ActivatedDefaults` | src/sec_filing_rag/repositories/corpus.py:226-235 | activation leaves exactly one default for the company and every other company's alone |
| `CorpusActivation.ValidateCandidate` | src/sec_filing_rag/repositories/corpus.py:474-487 | the checking loop decides the specified validation |
| `CorpusActivation.CorpusTables.Persist` | src/sec_filing_rag/repositories/corpus.py:241-447 | one transaction: reuses the filing and a ready corpus, or builds, validates and perhaps promotes a new one, which stores every chunk with its own vector, or changes nothing |
| `CorpusActivation.CorpusTables.ActivateExisting` | src/sec_filing_rag/repositories/corpus.py:219-239 | replaces the company's default and changes nothing else |
| `CorpusActivation.PersistStores` | src/sec_filing_rag/repositories/corpus.py:296-447 | a persist that adds a corpus stores one section per Item in order, with coverage, error, and for each chunk its text, place, citation and own vector; any other adds nothing |
| `CorpusActivation.CorporaAreCandidates` | src/sec_filing_rag/repositories/corpus.py:334-430 | in every run every stored corpus holds exactly the chunks and vectors of a candidate that was handed to persist |
| `CorpusActivation.RunIsUnique` | src/sec_filing_rag/repositories/corpus.py:277-319 | in every run no filing is stored twice and none has two corpora under one key |
| `CorpusActivation.LookOutcome` | src/sec_filing_rag/services/ingestion.py:163-182 | the look for a ready corpus leads to building, promoting or an unchanged end, by what is stored for the company, accession and key |
| `CorpusActivation.PromoteOutcome` | src/sec_filing_rag/services/ingestion.py:166-168 | promoting makes the corpus found the company's default and leaves the other companies' alone |
| `CorpusActivation.BuildOutcome` | src/sec_filing_rag/services/ingestion.py:184-273 | a build fails, changing nothing, exactly when there is nothing to build from, or nothing is stored for its filing and key and the candidate is incomplete; otherwise it ends with the corpus of its filing and key |
| `CorpusActivation.NextBuild` | src/sec_filing_rag/services/ingestion.py:184-273 | that condition decides the next step of every build in every run |
| `CorpusActivation.PassesMeans` | src/sec_filing_rag/repositories/corpus.py:449-487 | validation passes exactly when there is one section for each Item, none failed, the present ones with well-formed chunks whose search documents agree with them, and the absent ones explained and without chunks |
| `Fusion.FusionRespectsDominance` | src/sec_filing_rag/retrieval/service.py:173-203 | an id ranked better in every list that holds the other precedes it, for reciprocal ranks with any constant and every weight in [0, 1] |
| `Fusion.FusedIsARanking` | src/sec_filing_rag/retrieval/service.py:180-203 | the output holds every retrieved id, with ranks 1 to n, strictly ordered by descending score, best rank and id |
| `Fusion.SwappingTheLists` | src/sec_filing_rag/retrieval/service.py:186-203 | exchanging the lists, with the complementary weight, leaves ids, scores and ranks as they are |
| `Fusion.RrfUsesOnlyRanks` | src/sec_filing_rag/retrieval/service.py:190-195 | reciprocal rank fusion does not depend on scores |
| `Fusion.HybridIgnoresScale` | src/sec_filing_rag/retrieval/service.py:159-170 | hybrid fusion is unchanged by any positive affine change of one source's scores |
| `Fusion.NormalizedDominates` | src/sec_filing_rag/retrieval/service.py:159-170 | normalised scores follow the ranks and are not negative |
| `Fusion.Fuse` | src/sec_filing_rag/retrieval/service.py:173-203 | the scoring loop, the sort and the numbering compute the specified ranking, and every score is alpha of the vector share plus the rest of the keyword share, or the sum of the reciprocal ranks |
| `Fusion.FusedScores` | src/sec_filing_rag/retrieval/service.py:159-203 | each result carries alpha times its min-max share of the vector list plus the rest of its share of the keyword list, or the sum of its reciprocal ranks; results are ordered by score, best rank and id |
| `Fusion.FullWeightDecides` | src/sec_filing_rag/retrieval/service.py:187 | with the whole weight on one list its scores decide the order, whatever the other list holds |
| `Metrics.LargerTopKIsNotWorse` | src/sec_filing_rag/retrieval/service.py:438 | at one candidate count a larger top_k never lowers hit rate or mean reciprocal rank |
| `Metrics.MrrWithinHitRate` | src/sec_filing_rag/evaluation/service.py:101-109 | for every case set the mean reciprocal rank lies between hit rate / top_k and hit rate |
| `Metrics.CutOfRetrieve` | src/sec_filing_rag/retrieval/service.py:400-438 | results for a smaller top_k are a prefix of those for a larger one |
| `Metrics.SelectWinner` | src/sec_filing_rag/evaluation/service.py:198-210 | the winner is the first row that no other precedes in the lexicographic key |
| `Metrics.ReciprocalRank` | src/sec_filing_rag/evaluation/service.py:105-109 | one over the position of the first relevant result, or zero |
| `Metrics.Approaches` | src/sec_filing_rag/evaluation/service.py:176-192 | the grid lists the configured approaches whose top_k does not exceed the candidate count, exactly these, by candidate count, top_k and strategy |
| `Metrics.GridIff` | src/sec_filing_rag/evaluation/service.py:176-192 | an approach is in that list exactly when its parameters are configured and its top_k does not exceed its candidate count |
| `Metrics.RunGrid` | src/sec_filing_rag/evaluation/service.py:251-283 | one row per approach with its means, and the winner among them |
| `Metrics.RetrievedAt` | src/sec_filing_rag/retrieval/service.py:400-438 | what each strategy returns at each position, and how many |
| `Metrics.OneMoreCase` | src/sec_filing_rag/evaluation/service.py:101-109 | one more case adds one to the hits if a result is relevant, and one over the position of its first relevant result to the reciprocal ranks |
| `Metrics.WinnerIsBest` | src/sec_filing_rag/evaluation/service.py:195-210 | the winner has the best reciprocal rank, then the best hit rate, then the least latency, then the simplest strategy, and comes first among equals |
| `Metrics.GridInOrder` | src/sec_filing_rag/evaluation/service.py:176-192 | the grid goes by candidate count, top_k and strategy as configured |
| `GenerationEvaluation.ArtifactPassesIff` | src/sec_filing_rag/evaluation/generation.py:196-228 | the artifact of a completed run passes its validator exactly when neither case ids nor prompt ids repeat |
| `GenerationEvaluation.EligibleMeansNoFailures` | src/sec_filing_rag/evaluation/generation.py:128-134 | a prompt is eligible exactly when there are cases and none failed |
| `GenerationEvaluation.SuccessIsClean` | src/sec_filing_rag/evaluation/generation.py:442-567 | a result has no failure exactly when it was judged, and then its answer's citations are all valid |
| `GenerationEvaluation.CleanIff` | src/sec_filing_rag/evaluation/generation.py:282-299 | the audit is clean exactly when the validator accepts every citation |
| `GenerationEvaluation.WinnerIgnoresPromptOrder` | src/sec_filing_rag/evaluation/generation.py:157-169 | running the same prompts in another order selects the same winner |
| `GenerationEvaluation.ResultsOfPrompt` | src/sec_filing_rag/evaluation/generation.py:384-587 | each prompt ends with one result per case, in case order |
| `GenerationEvaluation.ValidateAnswer` | src/sec_filing_rag/generation/service.py:210-239 | accepts exactly answers within the limits whose citations are all in the evidence of the same filing |
| `GenerationEvaluation.RunCase` | src/sec_filing_rag/evaluation/generation.py:430-583 | the attempt loop and the judgement leave the specified result for every sequence of replies |
| `GenerationEvaluation.Run` | src/sec_filing_rag/evaluation/generation.py:384-625 | the nested loops build the specified artifact |
| `GenerationEvaluation.RefusedIff` | src/sec_filing_rag/generation/service.py:210-239 | every reason there is to refuse an answer, one by one |
| `GenerationEvaluation.AuditCounts` | src/sec_filing_rag/evaluation/generation.py:282-299 | each paragraph adds all its citations, those in the evidence, and those of another filing to the audit |
| `GenerationEvaluation.FirstGoodDecides` | src/sec_filing_rag/evaluation/generation.py:442-583 | the first good attempt gives answer, audit and latency, and the verdict decides whether the case failed |
| `GenerationEvaluation.NoGoodAttemptFails` | src/sec_filing_rag/evaluation/generation.py:442-510 | with no good attempt among max_retries + 1 the case fails, unjudged, with the audit of the last answer given |
| `GenerationEvaluation.AggregateCollects` | src/sec_filing_rag/evaluation/generation.py:638-655 | a prompt's labels and latencies are those of its judged and answered cases, and the others are its failures |
| `GenerationEvaluation.EligibleMeans` | src/sec_filing_rag/evaluation/generation.py:124-134 | for any audited results a prompt is eligible exactly when it has cases and each was answered, judged and cleanly cited |
| `GenerationEvaluation.ValidArtifactIsHonest` | src/sec_filing_rag/evaluation/generation.py:196-228 | what the validator vouches for in any artifact: distinct ids, one result per case, labels and counts that are those of the results, and the best eligible prompt as the selected one |
| `GenerationEvaluation.AuditsAddUp` | src/sec_filing_rag/evaluation/generation.py:638-655 | a prompt's citation counts add up those of its cases |
| `GenerationEvaluation.MedianIsMiddle` | src/sec_filing_rag/evaluation/generation.py:150-154 | the median of the latencies in ascending order, infinite without any |
| `GenerationEvaluation.MeanOfScores` | src/sec_filing_rag/evaluation/generation.py:134-139 | the score counts two for a relevant and one for a partly relevant answer |
| `GenerationEvaluation.WinnerIsBest` | src/sec_filing_rag/evaluation/generation.py:157-169 | there is a winner exactly when a prompt is eligible: the best mean, then the most relevant answers, then the least median latency, then the first id |
| `Context.BuildContext` | src/sec_filing_rag/generation/service.py:173-207 | the greedy loop returns the selected results and their joined blocks |
| `Context.ContextFits` | src/sec_filing_rag/generation/service.py:200-206 | the context, separators included, never exceeds its limit |
| `Context.NothingMoreFits` | src/sec_filing_rag/generation/service.py:200-206 | a block that was skipped does not fit behind the finished context either |
| `Context.ConsideredByRank` | src/sec_filing_rag/generation/service.py:180 | results are considered by rank, equal ranks as they came |
| `Context.PackedIff` | src/sec_filing_rag/generation/service.py:200-206 | a result is packed exactly when it fits behind those packed before it, blank lines included |
| `Context.JoinedIs` | src/sec_filing_rag/generation/service.py:207 | the context is the packed blocks with a blank line between any two |
| `Release.ActiveAlwaysResolves` | src/sec_filing_rag/cli/production_evaluation.py:85-274 | after any history of commands, each killed after any operation, the active link names the initial or a vetted release, complete |
| `Release.PublishShowsOldOrVetted` | src/sec_filing_rag/cli/production_evaluation.py:246-274 | a publish killed anywhere shows the old release unchanged or a directory that passed every check |
| `Release.AcceptSurvivesCrashes` | src/sec_filing_rag/cli/production_evaluation.py:149-197 | accepting a retrieval result, killed after any write and run again, reaches what one call reaches, temporary files apart; these differ exactly when the configuration was the accepted one from the start and a leftover of its rewriting stays |
| `Release.AcceptIsIdempotent` | src/sec_filing_rag/cli/production_evaluation.py:166-181 | repeating a complete acceptance changes nothing |
| `Release.PublishAgainIff` | src/sec_filing_rag/cli/production_evaluation.py:230-255 | a publish killed after any of its operations can be repeated exactly before its write, or right after it when the promotion changed nothing; and then the repetition reaches what one call reaches |
| `Release.PublishCanGetStuck` | src/sec_filing_rag/cli/production_evaluation.py:230-255 | a volume whose run passes every check and can never be published after a kill that follows the write |
| `Release.InitializeIsSafe` | src/sec_filing_rag/cli/production_evaluation.py:85-102 | initializing, killed anywhere, never leaves a dangling link and does nothing once a release is active |
| `Release.WorkingIsHarmless` | src/sec_filing_rag/cli/production_evaluation.py:105-115 | creating, editing and accepting a run never touch the active release |
| `Release.VettedIff` | src/sec_filing_rag/cli/production_evaluation.py:124-243 | a directory can have been published exactly when it is accountable: its benchmark, its acceptance, its comparison and its promotion agree, clause by clause |
| `Release.AcceptedRun` | src/sec_filing_rag/cli/production_evaluation.py:149-197 | accepting refuses and changes nothing, or promotes the winner and records where it came from, each exactly when it should |
| `Release.PublishedVolume` | src/sec_filing_rag/cli/production_evaluation.py:246-274 | a complete publish makes the promoted run the active release and removes the old one, or stops after the promotion when the id is taken or no release is active |
| `Release.CreatedRun` | src/sec_filing_rag/cli/production_evaluation.py:105-115 | a new run is the active release without its results and acceptance |
| `Release.InitializedVolume` | src/sec_filing_rag/cli/production_evaluation.py:85-102 | initializing copies the source and makes it active, once |
| `Release.PublishingIsReached` | src/sec_filing_rag/cli/production_evaluation.py:85-274 | the history that takes an empty volume to any run that passes the checks, published, with the initial release gone |
| `Embedding.PutInOrder` | src/sec_filing_rag/services/ingestion.py:80-96 | succeeds exactly when the reply has one well-sized vector for every index, puts each at its index, and never fails at the last check |
| `Embedding.AllPlaced` | src/sec_filing_rag/services/ingestion.py:83-95 | as many distinct in-range indexes as slots fill every slot |
| `Embedding.EntryOrderDoesNotMatter` | src/sec_filing_rag/services/ingestion.py:84-96 | replies with the same entries in another order put down the same vectors |
| `Embedding.Embed` | src/sec_filing_rag/services/ingestion.py:60-97 | returns one vector per text in text order exactly when every reply is good |
| `Embedding.Partition` | src/sec_filing_rag/services/ingestion.py:221-225 | the cursor cuts the vectors into parts as long as the Items, with nothing left over |
| `Embedding.EmbedItems` | src/sec_filing_rag/services/ingestion.py:215-226 | vector j of an Item is the embedding of chunk j of that Item |
| `Embedding.SentOnce` | src/sec_filing_rag/services/ingestion.py:60-67 | every text is sent in exactly one request of at most 32, at its place |
| `GroundTruth.GenerateBundle` | src/sec_filing_rag/ground_truth/service.py:531-573 | for every completion order of the workers the bundle is one function of rows and decisions, and it fails exactly when some worker raises |
| `GroundTruth.ChunksIgnoreCompletion` | src/sec_filing_rag/ground_truth/service.py:553-560 | sorting the gathered chunks forgets the order the workers completed in |
| `GroundTruth.BundleIgnoresRowOrder` | src/sec_filing_rag/ground_truth/service.py:443-452 | nor does the order of the database rows matter |
| `GroundTruth.WorkerSelectsTheFirst` | src/sec_filing_rag/ground_truth/service.py:508-529 | a stratum gets exactly its first meaningful candidates up to the target, and screening stops at the one that meets it |
| `GroundTruth.BundlePassesReview` | src/sec_filing_rag/ground_truth/service.py:590-609 | every bundle has distinct chunks and covers each stratum exactly once |
| `GroundTruth.Process` | src/sec_filing_rag/ground_truth/service.py:508-529 | the screening loop computes the specified selection |
| `GroundTruth.CandidatesAreLeast` | src/sec_filing_rag/ground_truth/service.py:443-452 | a stratum's candidates are its rows with the smallest digests, in order, as many as may be screened |
| `GroundTruth.WorkerFailsIff` | src/sec_filing_rag/ground_truth/service.py:516-527 | a worker fails exactly when the assessor raises before the target is met |
| `GroundTruth.ReviewMeans` | src/sec_filing_rag/ground_truth/service.py:590-609 | the review passes exactly the bundles with distinct chunks and one summary for each of the eighteen strata |
| `GroundTruth.SummaryMeans` | src/sec_filing_rag/ground_truth/service.py:541-552 | the summary counts the stratum's rows, those screened and selected, and the two shortfalls |
| `GroundTruth.BundleLists` | src/sec_filing_rag/ground_truth/service.py:553-571 | the bundle holds exactly what the strata selected, by stratum and chunk id, with their summaries in order |
| `Paging.FollowCursors` | src/sec_filing_rag/api/routers/public/research.py:125-145 | following next_cursor visits every request there was at the start once, newest first, and stops, for every limit and whatever newer requests arrive in between |
| `Paging.VisitIsStrict` | src/sec_filing_rag/repositories/research.py:327-341 | that visit is strictly descending in (created_at, id) and holds exactly the user's requests |
| `Paging.PageIsNext` | src/sec_filing_rag/api/routers/public/research.py:137-144 | a page is the next requests in order, and there is a cursor exactly when more remain |
| `Paging.NewRequestsStayOut` | src/sec_filing_rag/repositories/research.py:336-340 | past the first page newer requests change nothing on a page |
| `Paging.ResearchHistory` | src/sec_filing_rag/api/routers/public/research.py:137-145 | returns at most limit requests and the cursor of the last one when one more was found |

## Left out

- Chunking.MakeChunks: requires that the loop ends, because a method here cannot run for ever; exactly when it does is `Chunking.HaltsOnEveryText`, and for one text `Chunking.HaltsIffAdvances`.
- Chunking.WindowBound: counts the windows of overlaps below half the size only; for a size of 1 the loop is shown to end without a count.
- Extraction.ExtractItem: takes heading positions as given, because regular expressions and text normalisation are outside the model; what the boundaries mean is Extraction.SectionStopsInTime. That different Items do not overlap is not promised.
- CorpusReader.Paragraphs: does not carry the furniture flag, a regular expression over one line.
- CorpusReader.HighlightFor: leaves out the chunk id and citation handle it copies through.
- Pricing.EstimateCharge: adds exactly, without the decimal context's 28 digits; a malformed snapshot is not modelled beyond a missing model or count.
- Ledger.CostTables.Reconcile: stores the charge exactly, where the column rounds to eight decimal places.
- Ledger.CostTables.CreateResearch: leaves out the request's other columns and the answer row.
- Ledger.CostTables.CreateBatch: leaves out the item rows and the ids it returns.
- Ledger.CostTables.ReconcileBatch: attaches the usage to the action directly and stores the charge without the column's rounding.
- Ledger.CostTables.UpdateUser: leaves out status, session revocation and the exclusion of the legacy user.
- StreamProtocol.BrowserSeesEverything: takes payloads as one-line strings that parse, without JSON itself or the UTF-8 decoder.
- Workflow.WorkflowTables.Transition: leaves out timestamps other than whether finished_at is set, error texts and execution ids.
- Workflow.WorkflowTables.Finalize: leaves out the settlement of the batch's cost, which is Ledger.CostTables.ReconcileBatch.
- Workflow.WorkflowTables.Select: leaves out the fiscal year it returns and how the provider's candidates are compared.
- Workflow.WorkflowTables.Process: leaves out the promotion flag and the error text it returns.
- Workflow.EveryRunIsConsistent: does not include the late write of the execution id after a submission, whose race with early callbacks the code leaves open.
- CorpusActivation.CorpusTables.Persist: leaves out the bronze snapshots, run and stage rows and provenance keys; a chunk id that already exists is one of the errors that roll it back.
- CorpusActivation.CorpusTables.ActivateExisting: leaves out the run's status and the deactivation time.
- CorpusActivation.ValidationIff: leaves out the provenance keys and the test that a citation handle is not empty, which the chunker's handles never are.
- CorpusActivation.ValidateCandidate: leaves out the same two tests.
- Fusion.Fuse: carries ids, ranks and scores only, with exact scores.
- Fusion.FusionRespectsDominance: assumes lists shorter than the code's stand-in rank of a billion; the configuration allows at most a thousand.
- GenerationEvaluation.Run: describes runs that complete; retrieval errors and failing usage records outside an attempt abort a run and leave no artifact.
- GenerationEvaluation.ArtifactPassesIff: takes the clock as not running backwards.
- Release.ActiveAlwaysResolves: assumes a single operator, as the documentation does; parent directories, file permissions and links other than the three named ones are not modelled.
- Embedding.Embed: does not add up the token counts.
- GroundTruth.BundlePassesReview: leaves out the configuration and snapshot hashes, which the review recomputes from what they cover.
- GroundTruth.GenerateBundle: leaves out the generated questions, the diagnostics and the configuration hashes.
- Paging.ResearchHistory: takes the cursor as decoded; an undecodable one is refused before any query.
- Metrics.RunGrid: leaves out the per-question rankings and the one embedding per question.
- The database's ranking functions, connection handling and SQL text; source lists are arbitrary ranked sequences.
- The clients of the model, filing and workflow providers, which are arbitrary replies or failures.
- The user interface but for the marking of text, authentication sessions, settings, progress callbacks, logging and deployment.
