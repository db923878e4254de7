# Verified models of the ArangoDB import, export, dump, restore and RDF tools

A Dafny model of the tools' four hardest parts, and proofs of what they promise:

- **The import pipeline** (`Batch`, `Checkpoint`, `Limiter`, `Pipeline*`, `ImportRuns`, `StaleCheckpoint`). A deterministic batcher feeds a
  bounded queue guarded by a byte semaphore; workers send through an adaptive concurrency limiter and report to a
  checkpoint task. The batch loop, the limiter and the checkpoint task are imperative code; the concurrent run is a
  labelled transition system whose steps use the same functions, so every interleaving is covered. Runs may be killed at
  any point and restarted.
- **Parsers and printers** (`Json`, `JsonText`, `ArrayScanner`, `Split`, `RdfTerms`, `NTriples`, `Turtle*`). The incremental JSON
  array scanner against the exporter's array framing and part splitting; the two-pass N-Triples and N-Quads line parser;
  and the Turtle parser, as a class with a position, declarations, a label counter and the triples found, against a
  syntax tree with its own text and its own meaning.
- **Crash-recoverable storage** (`Resumable`, `DumpFormat`, `Dump*`, `Restore*`). Restartable uploads over a store whose
  writes may be torn; what a dump's manifest holds; and the four-phase restore with its checkpoint, cut anywhere and
  restarted any number of times.
- **The RDF graph fold** (`RdfModel`, `RdfFold`, `RdfGraph`, `RdfEdgeKeys`, `RdfRefold`, `RdfLossless`). Keys, placements and documents,
  the fold into nested maps under every policy, and what can be read back from the stored graph.

Each imperative method is proved equal to a function of values, and the properties are lemmas about those functions.
`Common` and `Decimal` hold shared vocabulary. `dafny verify dfyconfig.toml` checks everything.

## How the environment is modelled

- A request, a put or a send is one step that succeeds, fails, or (where that matters) takes effect and is the last thing
  the run does. Faults come as a plan, one entry an effect, so "for every plan" means "interrupted anywhere". A put may
  leave a prefix; a torn checkpoint or marker does not parse. Checkpoint writes fail silently, as the code allows.
- Elapsed-time tests are boolean arguments. The limiter's notification is a count of notifications so far: a waiter made at
  an earlier count has been woken.
- Documents are byte strings. Text is a sequence of characters. SHA-256 with hex output is a function parameter; where it
  matters it is assumed injective.
- The servers are maps from databases to collections and views. A view is accepted when its links name existing
  collections and, for a search-alias, its index list names existing indexes. A collection re-created with overwriting is
  empty.
- Integers are unbounded; the permit count is clamped to 32 bits as in the code.

## What the proofs found

- The check that a batch's byte cap fits the in-flight cap is said to prevent a deadlock
  (`crates/arangodb-import/src/sender.rs:310-316`). Permits are clamped to the cap, so no deadlock is possible without it:
  `PipelineProgress.NoDeadlock` does not assume it.
- The byte bound holds exactly for caps from 1 to 2^32 (`PipelineOutcomes.ByteBoundExactly`). Above, the 32-bit clamp lets
  two batches through together; a cap of 0 bounds nothing.
- The checkpoint task clears `dirty` even when the write was lost. After an Ok run the stored mark is the batch count if
  and only if the last write the run made landed, or it made none (`ImportRuns.OkCheckpointExactly`); whether earlier
  writes landed does not matter. `StaleCheckpoint.OkRunLeavesStaleCheckpoint` is a run that returns Ok with nothing stored.
- An upload onto whatever is already at its place can be read back as the source exactly when no part object of the right
  size has other bytes (`ResumableUpload.UploadRightExactly`, `ResumableUpload.ImpostorStays`).
- A Turtle prefix label may contain dots, and dots end words. A name is misread exactly when its label begins with `true.`
  or `false.` as an object, with `a.` as a verb, and with `prefix.` or `base.` in any case at the start of a statement
  (`TurtleTokens.ObjectNameReadsBack`, `TurtleTokens.VerbNameReadsBack`, `TurtleTokens.SubjectNameIsNoDirective`, with a
  name for each in `TurtleTokens.MisreadObject`, `TurtleTokens.MisreadVerb`, `TurtleTokens.MisreadSubject`). A statement
  misread at its start is an error that has the document refused, unless the label begins with `prefix.` and an IRI
  reference stands where the local part should (`TurtleTokens.MisreadSubjectStep`).
- A collection that is the subject of a statement shares its head with the statement's own triples. Of all collections of a
  document exactly those that are not empty and whose statement has rdf:first or rdf:rest among its verbs cannot be walked
  (`TurtleWalks.ParsedCollectionsWalk`, `TurtleWalks.LinkedSubjectIsBroken`).
- Of the numbers Turtle allows, exactly those with a point and no digit behind it are not read back
  (`TurtleTokens.NumberReadsBackExactly`); `1.e5` is read as the integer 1 and the rest (`TurtleTokens.PointedIsCut`).
- Keys are hashed with NUL separators so that concatenations cannot collide (`crates/arangodb-rdf/src/model.rs:330`). IRIs
  and blank labels keep apart whatever they hold. A literal shares its key with one of other parts if and only if its
  value, datatype or language holds a NUL (`RdfModel.LiteralKeyIsSharedExactly`, `RdfGraph.VertexIsSharedExactly`; two of
  them in `RdfModel.NulCollision`), and an empty datatype or language is not told from a missing one
  (`RdfGraph.SameTextSameTerm`). Different statements with two given predicates can share an edge key if and only if graphs
  are tracked and one predicate continues behind the other with a NUL and the id of a vertex
  (`RdfEdgeKeys.EdgeKeysClashExactly`, `RdfEdgeKeys.IdBehindRuns`).
- So the stored graph gives back exactly the statements if and only if no two different literals share a vertex and no two
  different statements an edge (`RdfLossless.GraphReadsBackExactly`, with a lossy input in `RdfLossless.NulLosesStatement`);
  literals without NUL or empty parts and predicates without NUL are enough (`RdfLossless.PlainStatementsAreApart`), and
  with such predicates the literals alone decide (`RdfLossless.LiteralsDecide`). Two
  graphs that share a collection slug lose nothing, because the graph is also in the edge key.
- A view's checkpoint id is said never to collide with a collection's because collection names hold no colon
  (`crates/arangodb-restore/src/lib.rs:360-363`). It collides exactly when the collection's database is named like the
  view's with `::view` behind it and the names are equal (`RestoreOutcomes.ViewIdCollidesExactly`, `RestoreOutcomes.ViewIdCollision`).
- Restore creates the databases that collections name, not those that views name. A view without targets, in a database
  none of whose collections were dumped, therefore makes the restore fail unless that database exists
  (`RestoreOutcomes.FaultFreeExactly`, `RestoreOutcomes.LoneViewExactly`, `DumpRestore.CreatedExactly`).

## Model

| member | source | states |
|---|---|---|
| Batching.GreedySplitIsUnique | crates/arangodb-import/src/batch.rs:57-107 | The groups the loop makes are the one and only split of the lines, in order, in which every group keeps the caps (at most max(1, max_docs) documents, over max_bytes only alone) and no group could have taken the next document |
| Batching.BatchesCoverInput | crates/arangodb-import/src/batch.rs:64-107 | Bodies concatenate to all lines in order, indices are 1..m, no batch is empty |
| Batching.EveryDocumentInSomeBatch | crates/arangodb-import/src/batch.rs:64-107 | Each input document lies in the body of some batch |
| Batching.RebatchAfter | crates/arangodb-import/src/sender.rs:279-282 | Re-batching what follows the first k batches reproduces the other batches, which is what makes resuming by index valid |
| Batching.YieldedBeforeErrorIsPrefix | crates/arangodb-import/src/batch.rs:64-107 | The batches yielded before an input error are the first batches of any longer input |
| Batching.IntoBatches | crates/arangodb-import/src/batch.rs:57-107 | The loop yields exactly the greedy split of the readable documents, and on an input error those of its batches that are complete |
| Checkpointing.ReceiveFacts | crates/arangodb-import/src/sender.rs:132-162 | After a report the mark is the end of the contiguous run of reported batches, the totals are the sums up to it, and only the reported batch is new |
| Checkpointing.OrderIsIrrelevant | crates/arangodb-import/src/sender.rs:124-162 | The tracker's state depends on which batches were reported, not on the order in which workers finished |
| Checkpointing.CheckpointTask.constructor | crates/arangodb-import/src/sender.rs:137-141 | The checkpoint task starts at the loaded mark with nothing pending |
| Checkpointing.CheckpointTask.Persist | crates/arangodb-import/src/sender.rs:164-181 | A write lands, is lost, or tears the object, and the checkpoint task goes on |
| Checkpointing.CheckpointTask.Advances | crates/arangodb-import/src/sender.rs:145-151 | The mark moves over every batch that is pending without a gap |
| Checkpointing.CheckpointTask.Handle | crates/arangodb-import/src/sender.rs:143-157 | One turn of the receive loop is the tracker's step, with the write when it is due |
| Checkpointing.CheckpointTask.Close | crates/arangodb-import/src/sender.rs:159-161 | The last write, if anything is unwritten |
| Limiting.OutcomesKeepBounds | crates/arangodb-import/src/adaptive.rs:148-206 | Every outcome of a send returns exactly one slot, keeps the limit between floor and ceiling, and changes it by halving or by one; growth only in a quiet period |
| Limiting.RepeatedThrottle | crates/arangodb-import/src/adaptive.rs:184-192 | k congestion signals divide the limit by at least 2^k or reach the floor |
| Limiting.StartBounded | crates/arangodb-import/src/adaptive.rs:105-125 | The limiter starts within its bounds with no slot held |
| Limiting.AdaptiveLimiter.TryAcquire | crates/arangodb-import/src/adaptive.rs:136-143 | A slot is claimed exactly when one is free |
| Limiting.AdaptiveLimiter.ThrottleNow | crates/arangodb-import/src/adaptive.rs:184-192 | Halves the limit down to the floor and records the minimum |
| Limiting.AdaptiveLimiter.MaybeRecover | crates/arangodb-import/src/adaptive.rs:195-205 | Grows the limit by one and notifies exactly when below the ceiling in a quiet period |
| Limiting.AdaptiveLimiter.RecordSuccess | crates/arangodb-import/src/adaptive.rs:148-162 | Releases a slot, throttles a slow send or recovers, and notifies |
| Limiting.AdaptiveLimiter.RecordError | crates/arangodb-import/src/adaptive.rs:165-181 | Releases a slot, throttles on 429 and 502 to 504, and notifies |
| PipelineSafety.BeginInv | crates/arangodb-import/src/sender.rs:318-371 | A run that loads an honest checkpoint starts with all invariants |
| PipelineSafety.NotYetSent | crates/arangodb-import/src/sender.rs:384-438 | A batch in hand, queued or held before its send is in exactly one place and was never sent or dropped |
| PipelineSafety.SentOnce | crates/arangodb-import/src/sender.rs:388-390 | When a send begins, that batch was not sent before in this run and lies above the resume mark |
| PipelineSafety.ConservedStep | crates/arangodb-import/src/sender.rs:361-442 | Every step keeps the conservation laws: free and held permits make up the cap, slots held equal `in_flight`, each batch, send and acknowledgement is in one place, and recorded, wasted and open work is all that was read |
| PipelineSafety.WakeupStep | crates/arangodb-import/src/adaptive.rs:131-181 | No lost wake-up: a waiter parked at the current notification count while a slot is free has a releaser that has yet to notify |
| PipelineSafety.TrackerStep | crates/arangodb-import/src/sender.rs:132-162 | The tracker stays sound and the stored object never claims more than the tracker knows |
| PipelineSafety.BlamedStep | crates/arangodb-import/src/sender.rs:384-396 | Every failed send has a worker that fails over it, and every failed worker a failed send |
| PipelineSafety.EndingsStep | crates/arangodb-import/src/sender.rs:383-441 | Workers leave without error only when the input is finished and the queue empty; work is dropped only after a failure |
| PipelineSafety.InvStep | crates/arangodb-import/src/sender.rs:361-488 | Every invariant is kept by every step of every interleaving |
| PipelineOutcomes.RunKeepsInv | crates/arangodb-import/src/sender.rs:361-488 | So it holds in every reachable state |
| PipelineOutcomes.ByteBoundHolds | crates/arangodb-import/src/sender.rs:361-363 | Bytes held by producer, queue and workers stay within the cap, except one oversized batch that is then alone |
| PipelineOutcomes.BadRun | crates/arangodb-import/src/sender.rs:496-502 | For a cap of 0 or above 2^32, a run that breaks that bound |
| PipelineOutcomes.ByteBoundExactly | crates/arangodb-import/src/sender.rs:307-316 | The bound holds in every run over every input if and only if the cap is from 1 to 2^32 |
| PipelineOutcomes.OkExactly | crates/arangodb-import/src/sender.rs:444-493 | A finished run returns Ok exactly when the input was read without error and every batch above the resume mark was acknowledged |
| PipelineOutcomes.OkSummary | crates/arangodb-import/src/sender.rs:224-247 | The merged summary of an Ok run counts exactly the batches, documents and bytes above the resume mark |
| PipelineProgress.NobodyParked | crates/arangodb-import/src/adaptive.rs:131-145 | If nobody else can move, nobody is parked on the limiter |
| PipelineProgress.NoDeadlock | crates/arangodb-import/src/sender.rs:361-442 | Every non-final state has an enabled step, whatever the caps |
| PipelineProgress.RankStep | crates/arangodb-import/src/sender.rs:361-442 | Every step lowers a rank, retries for a slot included |
| PipelineProgress.EveryRunEnds | crates/arangodb-import/src/sender.rs:361-488 | No run is longer than the rank of its start, and one that long is finished |
| PipelineProgress.CanAlwaysFinish | crates/arangodb-import/src/sender.rs:361-488 | From every reachable state some run finishes |
| ImportRuns.WorldInvariant | crates/arangodb-import/src/sender.rs:318-336 | The invariants hold across any sequence of runs, crashes and restarts |
| ImportRuns.CheckpointIsTruthful | crates/arangodb-import/src/sender.rs:124-162 | Whatever crashed, a readable checkpoint names only acknowledged batches and its totals are exactly theirs |
| ImportRuns.NeverResent | crates/arangodb-import/src/sender.rs:426-429 | No run sends a batch at or below the mark it loaded |
| ImportRuns.OkCheckpointExactly | crates/arangodb-import/src/sender.rs:124-181 | After an Ok run the tracker is at the whole input, and the stored object says so if and only if the last checkpoint write made landed, or none was made |
| StaleCheckpoint.OkRunLeavesStaleCheckpoint | crates/arangodb-import/src/sender.rs:153-157 | A run that returns Ok, its batch acknowledged, with a checkpoint that says nothing was committed: the one write was lost and `dirty` cleared |
| ImportRuns.AtLeastOnce | crates/arangodb-import/src/sender.rs:256-258 | Any number of runs killed anywhere, then one that returns Ok: every batch was acknowledged |
| ImportRuns.EveryDocumentAcknowledged | crates/arangodb-import/src/sender.rs:256-282 | The same for every input document |
| Json.TextIsOneLine | crates/arangodb-export/src/encode.rs:90-97 | A serialised value holds no line feed, so one line is one document |
| Json.TextEdges | crates/arangodb-export/src/encode.rs:100-105 | A serialised value starts with nothing that could separate or end array elements |
| JsonText.TextTells | crates/arangodb-export/src/encode.rs:90-102 | A serialised value and what follows it tell the value and what follows: no value is written like another, or like the beginning of another |
| JsonText.TextsInjective | crates/arangodb-export/src/encode.rs:90-102 | Lists of documents with the same texts are the same list |
| ArrayScanning.FeedConcat | crates/arangodb-import/src/reader/json_array.rs:78-118 | Feeding two chunks is feeding their concatenation |
| ArrayScanning.TextAbsorbed | crates/arangodb-import/src/reader/json_array.rs:130-158 | The text of any value, at any depth, is taken into the current element and leaves depth and string state as they were (RFC 8259 sections 5 and 7) |
| ArrayScanning.ArrayRoundTrip | crates/arangodb-import/src/reader/json_array.rs:78-169 | Scanning the array the exporter writes returns exactly the element texts in order, and `finish` succeeds |
| ArrayScanning.ChunkedRoundTrip | crates/arangodb-import/src/reader/json_array.rs:78-169 | The same for every way of cutting the text into chunks |
| ArrayScanning.ArrayScanner.BeginElementNow | crates/arangodb-import/src/reader/json_array.rs:120-126 | Starting an element resets depth, string state and buffer |
| ArrayScanning.ArrayScanner.ConsumeElementByte | crates/arangodb-import/src/reader/json_array.rs:130-158 | One byte of an element updates depth and string state as the automaton does |
| ArrayScanning.ArrayScanner.FeedByte | crates/arangodb-import/src/reader/json_array.rs:79-115 | One byte is one step of the automaton |
| ArrayScanning.ArrayScanner.FeedChunk | crates/arangodb-import/src/reader/json_array.rs:78-118 | A chunk is fed byte by byte |
| ArrayScanning.ArrayScanner.FinishInput | crates/arangodb-import/src/reader/json_array.rs:161-169 | The end is accepted only after the closing bracket |
| ArrayScanning.ReadArray | crates/arangodb-import/src/reader/json_array.rs:20-50 | Reading any chunks gives the elements of their concatenation or its error |
| Splitting.SplitIsUnique | crates/arangodb-export/src/split.rs:193-254 | The parts are the one and only split in which every part but the last has reached the threshold, no part of two or more records had reached it before its last, and an empty export is one empty part |
| Splitting.SplitExport | crates/arangodb-export/src/split.rs:193-254 | The export loop writes that split, parts numbered 0..n-1 |
| Splitting.WriteRecord | crates/arangodb-export/src/split.rs:110-128 | Appending a record extends the open part's text |
| Splitting.ClosePart | crates/arangodb-export/src/split.rs:218-246 | Closing a part completes its text under its number |
| Splitting.PartFramer.Open | crates/arangodb-export/src/split.rs:92-107 | What each part starts with, the array's comma state reset |
| Splitting.PartFramer.Record | crates/arangodb-export/src/split.rs:110-128 | What a record adds, with a comma before all but the first |
| Splitting.PartFramer.Close | crates/arangodb-export/src/split.rs:130-135 | What ends a part |
| Splitting.EncodeJsonArray | crates/arangodb-export/src/encode.rs:55-72 | The streaming encoder's chunks concatenate to the array text |
| Splitting.ArrayPartsRoundTrip | crates/arangodb-export/src/split.rs:193-254 | Scanning each array part on its own and flattening gives the texts of the exported documents, in order, and of no other documents |
| Splitting.LinePartsRoundTrip | crates/arangodb-export/src/split.rs:193-254 | Reading the lines of every JSONL part gives the texts of the exported documents, in order, and of no other documents |
| Decimals.DecimalInjective | crates/arangodb-rdf/src/turtle.rs:336-339 | Different counters have different numerals |
| Decimals.PaddedInjective | crates/arangodb-storage/src/resumable.rs:160-163 | So have different part indices, padded to a width but never cut |
| ResumableUpload.PathsDistinct | crates/arangodb-storage/src/resumable.rs:155-163 | Part objects of one upload never overwrite each other or the marker |
| ResumableUpload.UploadKeepsSound | crates/arangodb-storage/src/resumable.rs:185-227 | Whatever writes are cut or refused, a readable marker implies every part is present with the right bytes |
| ResumableUpload.RunsKeepSound | crates/arangodb-storage/src/resumable.rs:185-227 | The same over any number of re-runs |
| ResumableUpload.OpenedReadsSource | crates/arangodb-storage/src/resumable.rs:235-278 | After any crashes and re-runs, if the upload can be opened then reading its parts in order gives the source |
| ResumableUpload.UploadRightExactly | crates/arangodb-storage/src/resumable.rs:197-201 | Onto any store, an undisturbed upload reads back as the source if and only if no part object of the expected size held other bytes |
| ResumableUpload.ImpostorStays | crates/arangodb-storage/src/resumable.rs:197-201 | A one-byte source over a part object with another byte is not read back |
| ResumableUpload.ObjectStore.PutStream | crates/arangodb-storage/src/resumable.rs:203-211 | A put stores the object, a prefix of it, or nothing |
| ResumableUpload.UploadResumable | crates/arangodb-storage/src/resumable.rs:179-227 | The loop trusts parts by size, writes the others and the marker last |
| ResumableUpload.ReadResumable | crates/arangodb-storage/src/resumable.rs:263-278 | Parts 0..n-1 are read in order |
| RdfTerms.Hex4ReadsBack | crates/arangodb-rdf/src/parser.rs:282-294 | Four hex digits of an ASCII character decode to it |
| NTriples.IriReadsBack | crates/arangodb-rdf/src/parser.rs:143-170 | An escaped IRI is read back through both passes |
| NTriples.DecodeIsDecodeFrom | crates/arangodb-rdf/src/parser.rs:252-280 | The shortcut for text without escapes agrees with the second pass |
| NTriples.TermReadsBack | crates/arangodb-rdf/src/parser.rs:131-250 | Every writable object term is read back, literals with suffix included |
| NTriples.StatementReadsBack | crates/arangodb-rdf/src/parser.rs:67-112 | Every triple, and every quad named by an IRI, is read back from its canonical text (RDF 1.1 N-Triples sections 4 and 7) |
| NTriples.DocumentReadsBack | crates/arangodb-rdf/src/parser.rs:20-64 | A document of canonical lines reads back as its statements |
| NTriples.SkipWs | crates/arangodb-rdf/src/parser.rs:115-119 | The index moves past blanks |
| NTriples.ScanDelimited | crates/arangodb-rdf/src/parser.rs:143-170 | The raw scan and the decoding, as one reading step |
| NTriples.ReadHexDigits | crates/arangodb-rdf/src/parser.rs:282-294 | The digits are read as the grammar does, with its errors |
| NTriples.DecodeEscapes | crates/arangodb-rdf/src/parser.rs:252-280 | The second pass as a loop |
| NTriples.ParseIri | crates/arangodb-rdf/src/parser.rs:143-170 | Reads an IRI as the grammar does |
| NTriples.ParseBlank | crates/arangodb-rdf/src/parser.rs:172-189 | Reads a label as the grammar does |
| NTriples.ParseResource | crates/arangodb-rdf/src/parser.rs:122-129 | Reads a subject as the grammar does |
| NTriples.ParseLiteral | crates/arangodb-rdf/src/parser.rs:191-250 | Reads a literal as the grammar does |
| NTriples.ParseSuffix | crates/arangodb-rdf/src/parser.rs:215-249 | Reads a datatype or language as the grammar does |
| NTriples.ParseObject | crates/arangodb-rdf/src/parser.rs:131-141 | Reads an object as the grammar does |
| NTriples.ParseGraph | crates/arangodb-rdf/src/parser.rs:85-103 | Reads a graph name, refused outside N-Quads |
| NTriples.ParseLine | crates/arangodb-rdf/src/parser.rs:67-112 | The whole line parser, errors included |
| TurtleGrammar.PrefixedName | crates/arangodb-rdf/src/turtle.rs:399-432 | A name that is read consumes input, although trailing dots are given back |
| TurtleGrammar.OneStep | crates/arangodb-rdf/src/turtle.rs:98-111 | Every statement or declaration that is read consumes input, so parsing ends on every text |
| TurtleGrammar.SparqlWordIsKnown | crates/arangodb-rdf/src/turtle.rs:136-149 | A SPARQL declaration's keyword is always one of the two known, so the `unreachable!` is never hit |
| TurtleParsing.Parser.SkipSpace | crates/arangodb-rdf/src/turtle.rs:653-668 | Skips exactly whitespace and comments |
| TurtleParsing.Parser.ReadIriRef | crates/arangodb-rdf/src/turtle.rs:353-376 | Reads and resolves an IRI as the grammar does |
| TurtleParsing.Parser.ReadBlankLabel | crates/arangodb-rdf/src/turtle.rs:378-397 | Reads a label and gives it the user prefix |
| TurtleParsing.Parser.ReadPrefixedName | crates/arangodb-rdf/src/turtle.rs:399-432 | Reads a prefixed name, giving back trailing dots |
| TurtleParsing.Parser.ReadVerb | crates/arangodb-rdf/src/turtle.rs:214-224 | Reads `a` or an IRI |
| TurtleParsing.Parser.ReadStringLiteral | crates/arangodb-rdf/src/turtle.rs:434-476 | Reads a string with its suffix; the quote is there, so the `expect` is never hit |
| TurtleParsing.Parser.ReadNumericLiteral | crates/arangodb-rdf/src/turtle.rs:522-568 | Reads a number and its type |
| TurtleParsing.Parser.ReadBooleanLiteral | crates/arangodb-rdf/src/turtle.rs:570-581 | Reads a boolean |
| TurtleParsing.Parser.ParseObject | crates/arangodb-rdf/src/turtle.rs:250-264 | Reads an object of any kind |
| TurtleParsing.Parser.ParsePropertyList | crates/arangodb-rdf/src/turtle.rs:268-280 | Reads a bracketed node, its label taken first |
| TurtleParsing.Parser.ParseCollection | crates/arangodb-rdf/src/turtle.rs:282-334 | Reads a collection and links its cells |
| TurtleParsing.Parser.LinkCells | crates/arangodb-rdf/src/turtle.rs:305-333 | The loop appends exactly the first/rest chain, a label a cell |
| TurtleParsing.Parser.ParseObjectList | crates/arangodb-rdf/src/turtle.rs:226-248 | Reads objects separated by commas, emitting each edge |
| TurtleParsing.Parser.ParsePredicateObjectList | crates/arangodb-rdf/src/turtle.rs:194-212 | Reads verbs separated by semicolons, a trailing one allowed |
| TurtleParsing.Parser.ParseStatement | crates/arangodb-rdf/src/turtle.rs:174-190 | Reads one statement |
| TurtleParsing.Parser.ParseDirective | crates/arangodb-rdf/src/turtle.rs:115-134 | Reads an `@` declaration |
| TurtleParsing.Parser.ParseSparqlDirective | crates/arangodb-rdf/src/turtle.rs:136-151 | Reads a SPARQL declaration |
| TurtleParsing.Parser.ParseDocument | crates/arangodb-rdf/src/turtle.rs:98-111 | The whole loop, with the position in range throughout |
| TurtleParsing.Parse | crates/arangodb-rdf/src/turtle.rs:43-45 | Parsing any text gives what the grammar functions give |
| TurtleTokens.ObjectNameReadsBack | crates/arangodb-rdf/src/turtle.rs:259-262 | As an object, a prefixed name is read as itself if and only if its label does not begin with `true.` or `false.` |
| TurtleTokens.VerbNameReadsBack | crates/arangodb-rdf/src/turtle.rs:216-220 | As a verb, if and only if its label does not begin with `a.` |
| TurtleTokens.SubjectNameIsNoDirective | crates/arangodb-rdf/src/turtle.rs:104-106 | At the start of a statement it is taken for a declaration if and only if its label begins with `prefix.` or `base.` in any case |
| TurtleTokens.MisreadObject | crates/arangodb-rdf/src/turtle.rs:259-262 | `true.x:y` as an object is read as the boolean `true`, and `.x:y` is left over |
| TurtleTokens.MisreadVerb | crates/arangodb-rdf/src/turtle.rs:216-220 | `a.x:y` as a verb is read as `a`, and `.x:y` is left over |
| TurtleTokens.MisreadSubjectStep | crates/arangodb-rdf/src/turtle.rs:136-151 | Such a statement is an error, except where the label begins with `prefix.` and an IRI reference stands where the local part should: that is declared for the rest of the label |
| TurtleTokens.MisreadIsRefused | crates/arangodb-rdf/src/turtle.rs:98-111 | Where it is an error the whole document is refused |
| TurtleTokens.MisreadSubject | crates/arangodb-rdf/src/turtle.rs:104-111 | `base.x:y` as a subject has the document refused |
| TurtleTokens.DirectiveAddsNothing | crates/arangodb-rdf/src/turtle.rs:136-151 | And then its statement is lost: a declaration adds no triple |
| TurtleTokens.PointEndsNumber | crates/arangodb-rdf/src/turtle.rs:532-541 | A point without a digit behind it ends the number, which is then an integer, signed or not |
| TurtleTokens.QuotedReadsBack | crates/arangodb-rdf/src/turtle.rs:434-520 | Short and long strings in either quote, with any suffix, are read back |
| TurtleTokens.NumberReadsBackExactly | crates/arangodb-rdf/src/turtle.rs:522-568 | Of all numbers of RDF 1.1 Turtle section 6.5, signed or not, those are read back with their type that do not have a point without a digit behind it, and no others |
| TurtleTokens.PointedIsCut | crates/arangodb-rdf/src/turtle.rs:532-541 | `1.e5` in front of a space is read as the integer 1, and `.e5` is left over |
| TurtleRoundTrip.ChainIsList | crates/arangodb-rdf/src/turtle.rs:308-333 | The chain built cell by cell is the list in closed form |
| TurtleRoundTrip.ObjReadsBack | crates/arangodb-rdf/src/turtle.rs:250-334 | The text of any object, however nested, is read as its meaning: term, triples in order, labels |
| TurtleRoundTrip.PartsReadBack | crates/arangodb-rdf/src/turtle.rs:194-248 | So is a list of verbs with their objects |
| TurtleRoundTrip.StepReadsBack | crates/arangodb-rdf/src/turtle.rs:101-190 | So is a statement or a declaration, which changes the environment as it should |
| TurtleRoundTrip.ParseInvertsPrint | crates/arangodb-rdf/src/turtle.rs:43-111 | For every well-formed document, parsing its text succeeds with exactly the triples the document means, in order and with the same generated labels (RDF 1.1 Turtle sections 6.5 and 7) |
| TurtleLists.LabelsAreDistinct | crates/arangodb-rdf/src/turtle.rs:336-339 | Generated labels are pairwise distinct and never a user's label |
| TurtleLists.ObjIsScoped | crates/arangodb-rdf/src/turtle.rs:268-334 | An object's own triples are only about labels generated for it |
| TurtleLists.DocIsScoped | crates/arangodb-rdf/src/turtle.rs:98-111 | The same for statements of a document: earlier ones have smaller labels, later ones larger |
| TurtleLists.CollectionCanBeWalked | crates/arangodb-rdf/src/turtle.rs:282-334 | A collection of n items adds 2n triples after the items' own; whatever the triples around it say of its cells with other predicates, the first/rest walk from its head yields the items in order and ends at rdf:nil (RDF 1.1 Turtle section 2.8) |
| TurtleWalks.ParsedCollectionsWalk | crates/arangodb-rdf/src/turtle.rs:98-334 | In what the parser finds in any document's text every collection, however deep, can be walked from its head, if and only if it is not a non-empty subject with rdf:first or rdf:rest among its statement's verbs |
| TurtleWalks.LinkedSubjectIsBroken | crates/arangodb-rdf/src/turtle.rs:282-334 | `( <a> ) rdf:first <b> .` gives its cell two first links, and the walk fails |
| TurtleAgreement.ReadersAgree | crates/arangodb-rdf/src/turtle.rs:43-111 | On canonical N-Triples text both readers find the same triples, up to the user label prefix |
| RdfModel.FieldsReadBack | crates/arangodb-rdf/src/model.rs:326-334 | The parts can be read back from the bytes that are hashed |
| RdfModel.PreimageInjective | crates/arangodb-rdf/src/model.rs:324-334 | Equal preimages have equal domains and parts when no part holds the separator; with equally many parts it is enough that those on one side do not |
| RdfModel.LiteralKeyIsSharedExactly | crates/arangodb-rdf/src/model.rs:370-377 | A literal shares its key with a literal of other parts if and only if its value, datatype or language holds a NUL |
| RdfModel.NulCollision | crates/arangodb-rdf/src/model.rs:370-377 | Two different literals with NUL hashed from the same bytes |
| RdfGraph.TermsShareVertexExactly | crates/arangodb-rdf/src/model.rs:213-298 | Two terms, whatever they hold, have the same placement if and only if they are equal or literals written with the same text |
| RdfGraph.SameTextSameTerm | crates/arangodb-rdf/src/model.rs:370-377 | For a term that is no literal with a NUL, that is equality up to empty datatypes and languages |
| RdfGraph.VertexIsSharedExactly | crates/arangodb-rdf/src/model.rs:213-298 | Exactly the literals with a NUL in them share their vertex with another term |
| RdfGraph.ScopesKeepApart | crates/arangodb-rdf/src/model.rs:346-354 | Blank labels of two sources share a key if and only if label and source are the same |
| RdfGraph.EdgesHaveEndpoints | crates/arangodb-rdf/src/lib.rs:381-446 | Under every policy every edge's endpoints are stored when it is built and stay stored |
| RdfFold.DocStore.InsertIfAbsent | crates/arangodb-rdf/src/lib.rs:344-357 | The first document for a key stays |
| RdfFold.StoreVertex | crates/arangodb-rdf/src/lib.rs:440-446 | A vertex is stored at its placement if there is none |
| RdfFold.SetProperty | crates/arangodb-rdf/src/lib.rs:458-473 | Sets one property of a stored vertex; the vertex is there, so the `expect` is never hit |
| RdfFold.Fold | crates/arangodb-rdf/src/lib.rs:381-437 | One triple changes the vertices and returns the edge the policies call for |
| RdfFold.BuildGraph | crates/arangodb-rdf/src/lib.rs:215-262 | The parse loop: vertices collected, edges passed on in order or buffered by collection |
| RdfRefold.FoldFinds | crates/arangodb-rdf/src/lib.rs:381-473 | After any fold a placement holds what it held before, or else the first vertex the triples give it, with the last value of every property |
| RdfRefold.LastValueWins | crates/arangodb-rdf/src/lib.rs:458-473 | The last literal for a subject and predicate is the one kept |
| RdfRefold.SecondFoldChangesNothing | crates/arangodb-rdf/src/lib.rs:131-134 | Folding the whole list again leaves the vertices unchanged, for every policy |
| RdfRefold.SecondBufferChangesNothing | crates/arangodb-rdf/src/lib.rs:344-357 | Buffering the same edges again adds none |
| RdfEdgeKeys.EdgeKeysClashExactly | crates/arangodb-rdf/src/model.rs:379-391 | Different statements with two given predicates can share an edge key if and only if graphs are tracked and one predicate continues behind the other with a NUL and a vertex id |
| RdfEdgeKeys.IdBehindRuns | crates/arangodb-rdf/src/model.rs:379-391 | Such a pair of predicates for every predicate and vertex |
| RdfEdgeKeys.EdgeKeysExactly | crates/arangodb-rdf/src/model.rs:379-391 | When graphs are not tracked, or predicates hold no NUL, two statements share an edge key if and only if subject, predicate, object vertex and tracked graph are the same |
| RdfLossless.GraphReadsBackExactly | crates/arangodb-rdf/src/lib.rs:381-437 | For every model, policy and list of triples: the statements read back from the stored edges through their endpoints are exactly those that have an edge, if and only if no two different literals share a vertex and no two different statements an edge |
| RdfLossless.TopologyIsLossless | crates/arangodb-rdf/src/model.rs:101-107 | The topology-preserving model with the graph recorded gives back exactly the input triples under the same condition and no other |
| RdfLossless.EdgesApartExactly | crates/arangodb-rdf/src/model.rs:379-391 | The part of the condition about edges, on the statements themselves: it holds if and only if those are recorded as the same that agree in subject, predicate, object vertex and graph, or whose predicates run into the rest of each other in one edge collection |
| RdfLossless.LiteralsDecide | crates/arangodb-rdf/src/lib.rs:381-437 | Where graphs are not tracked or predicates hold no NUL, nothing is lost or added if and only if equal literal texts are equal literals: a condition without hashes |
| RdfLossless.PlainStatementsAreApart | crates/arangodb-rdf/src/model.rs:324-391 | The condition is met when literals hold no NUL and no empty datatype or language, and predicates no NUL where graphs are tracked |
| RdfLossless.NulLosesStatement | crates/arangodb-rdf/src/model.rs:370-377 | Two statements of which one is lost |
| Restoring.RestoreJob.Send | crates/arangodb-restore/src/lib.rs:199-201 | A request takes effect, fails, or takes effect as the run's last act |
| Restoring.RestoreJob.RecordUnit | crates/arangodb-restore/src/lib.rs:282-287 | A unit is recorded in memory and written out; a failed write is not noticed |
| Restoring.RestoreJob.CreateCollections | crates/arangodb-restore/src/lib.rs:194-202 | Phase 1 creates every collection not recorded, and stops at the first failure |
| Restoring.RestoreJob.RestoreView | crates/arangodb-restore/src/lib.rs:290-316 | Drops the view when overwriting, then creates it |
| Restoring.RestoreJob.RestoreViews | crates/arangodb-restore/src/lib.rs:209-217 | Phases 2 and 4 create the views of their kind that are not recorded |
| Restoring.RestoreJob.LoadCollectionData | crates/arangodb-restore/src/lib.rs:322-343 | Loads all parts in order, then builds the indexes that are not implicit |
| Restoring.RestoreJob.LoadUnits | crates/arangodb-restore/src/lib.rs:220-241 | Phase 3 loads and records the collections not recorded |
| Restoring.RestoreJob.RunPhases | crates/arangodb-restore/src/lib.rs:188-255 | The four phases in order, the first failure ending the run |
| Restoring.Group | crates/arangodb-restore/src/lib.rs:506-534 | Groups the artifacts by database and collection in order of appearance |
| Restoring.RunRestore | crates/arangodb-restore/src/lib.rs:117-263 | The whole run, from validation to the summary |
| Restoring.SortedIsStable | crates/arangodb-restore/src/lib.rs:135-147 | Units are permuted into order by database, documents before edges, and otherwise keep their order |
| RestoreSafety.LoadOwn | crates/arangodb-restore/src/lib.rs:220-233 | Loading an empty collection leaves it with each part once and its own indexes, and only then is it recorded |
| RestoreSafety.RunKeepsTrust | crates/arangodb-restore/src/lib.rs:164-255 | Whatever its faults, a run leaves a checkpoint that names only complete collections, and one that returns Ok leaves every collection complete |
| RestoreSafety.RecordedIsUntouched | crates/arangodb-restore/src/lib.rs:190-197 | A collection recorded before a run does not change at any point of it |
| RestoreSafety.RunsKeepTrust | crates/arangodb-restore/src/lib.rs:164-255 | The checkpoint stays truthful over any number of interrupted runs |
| RestoreSafety.InterruptedRestoreIsExact | crates/arangodb-restore/src/lib.rs:117-263 | From any server, after any number of interrupted runs, a run that returns Ok leaves each collection holding its parts exactly once, and its indexes |
| RestoreSafety.SummaryAddsUp | crates/arangodb-restore/src/lib.rs:84-95 | `restored + skipped = collections`, the number in the dump |
| RestoreProgress.PhasesProgress | crates/arangodb-restore/src/lib.rs:188-255 | No phase is refused: collections exist before the views that link them and the data that goes into them, and indexes before the search-alias views that list them |
| RestoreOrder.ViewsComeLast | crates/arangodb-restore/src/lib.rs:188-255 | At every point of every run, a view that is new since its start means that all collections of the dump exist, and a new search-alias view that all of them are complete, with data and indexes |
| RestoreOrder.AliasMadeOverData | crates/arangodb-restore/src/lib.rs:243-255 | When phase 4 comes to any search-alias view, all collections are complete |
| RestoreOutcomes.OnlyFaultsFail | crates/arangodb-restore/src/lib.rs:117-263 | With overwriting, a closed dump and the databases there, a run fails only by a fault or over the checkpoint |
| RestoreOutcomes.FaultFreeExactly | crates/arangodb-restore/src/lib.rs:152-161 | Without faults it succeeds if and only if every database its collections and views go to exists or is created up front |
| RestoreOutcomes.LoneViewExactly | crates/arangodb-restore/src/lib.rs:152-161 | A dump whose second database holds only a view without targets is restored if and only if that database exists |
| RestoreOutcomes.CollectionIdsExactly | crates/arangodb-restore/src/lib.rs:412-420 | Collection ids are equal exactly for the same database and name, when names hold no colon |
| RestoreOutcomes.ViewIdCollidesExactly | crates/arangodb-restore/src/lib.rs:360-370 | A view's id is a collection's exactly when the names are equal and the collection's database is the view's with `::view` behind it |
| RestoreOutcomes.ViewIdCollision | crates/arangodb-restore/src/lib.rs:360-370 | A collection in `a::view` has the id of a view of the same name in `a` |
| Dumping.Destination.WriteInventory | crates/arangodb-dump/src/lib.rs:442-480 | Writes structure and data of exactly the collections the flag and the filters let through, and remembers their names |
| Dumping.Destination.WriteViews | crates/arangodb-dump/src/lib.rs:505-556 | Writes exactly the views all of whose targets were written |
| Dumping.Dump | crates/arangodb-dump/src/lib.rs:256-310 | One manifest over all databases, or an error |
| Dumping.DumpData | crates/arangodb-dump/src/lib.rs:672-696 | Paging ends on every server, and against one that serves its log truthfully delivers the log's lines exactly once and in order |
| DumpDescribed.PathsDiffer | crates/arangodb-dump/src/lib.rs:286-286 | Different databases, names or kinds are written to different objects |
| DumpDescribed.CollectionIsDescribed | crates/arangodb-dump/src/lib.rs:464-476 | Writing a collection adds one group with its structure and data, and overwrites nothing |
| DumpDescribed.ViewIsDescribed | crates/arangodb-dump/src/lib.rs:537-553 | Writing a view adds one definition and no group |
| DumpCatalog.DatabaseDescribed | crates/arangodb-dump/src/lib.rs:426-494 | Dumping a database adds exactly its kept collections and the views they cover |
| DumpRestore.DumpIsDescribed | crates/arangodb-dump/src/lib.rs:256-310 | So does the whole dump, and every kept collection's data is where the manifest says |
| DumpRestore.DumpIsRestorable | crates/arangodb-dump/src/lib.rs:436-494 | For every inventory and filters, what the manifest lists can be restored: a structure per collection, no colliding ids or places, every view's collections and indexes in the dump |
| DumpRestore.DumpThenRestore | crates/arangodb-restore/src/lib.rs:117-263 | Dump, then restore with any interruptions: on Ok every dumped collection holds exactly its data and its own indexes, and once the databases are there only faults or the checkpoint make a run fail |
| DumpRestore.FaultFreeDumpRestoreExactly | crates/arangodb-restore/src/lib.rs:152-161 | The first, undisturbed restore of a dump succeeds if and only if all its databases are there or created |
| DumpRestore.CreatedExactly | crates/arangodb-restore/src/lib.rs:135-158 | In a dump of several databases, one is created up front exactly when one of its collections was dumped |

## Left out

- The HTTP client, retries, backoff, authentication, the command line, Python bindings, progress events and redaction: plumbing around the modelled steps.
- Counters the server returns for each batch (`created`, `errors` and so on): sums of foreign numbers.
- Compression, checksums, cloud back ends, the CSV reader and writer's quoting (a CSV row is a function parameter), number inference.
- The JSON text of manifests, checkpoints and upload markers: they are values that parse or, when torn, do not.
- Positions in error messages; errors carry what they name.
- Byte and character encodings: JSON is modelled on bytes, RDF on characters.
- Errors of the input stream in the split export, and of the server during a dump: they end the run before a manifest is written.
- The dump's destination lock: only exclusivity between dumps without overwriting is promised, and the manifest check is a separate step.
- `delete_resumable`, which removes what the upload wrote.
- Turtle text in other layouts than the printer's: comments and other spacing are read by the modelled parser, but the round trip is stated for one spacing.
- The languages the parsers accept beyond what the printers write: stray text after a line's final dot, repeated commas in an array, blank labels that end in a dot before a line end.
- Escapes in the local part of a Turtle name (`\,` and the like): the parser does not support them.
- What the server does to a view's links when a linked collection is re-created: it is not part of the repository. The model's server keeps views as they are, so nothing is claimed about the links of a view that was recorded by a run that then stopped.
- The batch configuration across import runs: the checkpoint does not record it, so equal configurations are assumed.
- ResumableUpload.UploadKeepsSound: speaks of re-runs with the same source and part size, because the code trusts parts by size alone; UploadRightExactly says what happens otherwise.
- PipelineSafety.WakeupStep: fairness of the runtime is not modelled; EveryRunEnds bounds the steps of every run instead.
- RdfLossless.TopologyIsLossless: assumes an injective hash with hex digests, as SHA-256 is meant to be.
- RdfEdgeKeys.EdgeKeysClashExactly: assumes a vertex collection name without NUL, so that a vertex id is one field of what is hashed; so do RdfLossless.EdgesApartExactly and RdfLossless.LiteralsDecide.
