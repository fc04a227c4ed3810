# QuickVoice voice worker and MCP server: verified model

This Dafny project models the stateful parts of the QuickVoice voice worker (Python) and of its MCP
server (TypeScript), and proves what they keep under interleaving, lost replies, crashes and the passing
of time. `dafny verify dfyconfig.toml` checks all of it.

- **Knowledge index** (`KbPointer`, `KbIndex`, `KbIndexSafety`, `KbIndexRuns`, `KbIndexClient`). Writers stage
  vectors under a fresh generation, move a manifest pointer with a compare-and-swap script, and delete what
  they replaced; deletions, soft revocations and failed attempts move the same pointer; a query brackets its
  search with two snapshots. `KbPointer` runs the scripts on the strings and proves that this is what the
  protocol does on pointers. `KbIndex` is the protocol: unboundedly many operations, one step for each store
  call, script run or reply. A client may give up on a script at any time, and the script may have run, may
  run later, or may never run. `KbIndexRuns` holds the theorems about whole runs. `KbIndexClient` is the code of
  `upsert` and `delete_by_kb`, each call taking a step while everybody else goes on, and says what their
  results are worth.
- **Knowledge jobs** (`KbJob`, `KbIngest`). `KbJob` is the path of a document through its stages, with its polls and
  saves, and what the job record says in the end. `KbIngest` is the code that walks it: it joins the index and the
  splitter, and proves what was published of a document that a job reports as ok.
- **Chunking** (`Chunking`). `chunk_text` with its loops, over an abstract tokenizer: offsets in range, starts in
  order, nonempty spans, and substrings that may encode differently from the whole.
- **Billing reporter** (`BillingReporter`, `ReporterDeadline`). The stretches between awaits in any order, and the
  real-time bound of the periodic loop with its retries.
- **Outboxes** (`Outbox`, `OutboxConsumer`). The three file queues with one consumer, others enqueuing between any two
  of its file operations, and a crash before any of them.
- **Call limits** (`CallLimitGuard`). The pausable inactivity timers against an independent account of listening
  time.
- **Transcripts** (`Turns`, `TranscriptCollector`, `LivePublisher`). Reconciliation of held speech with committed
  turns, then an ordered stream without repeats.
- **MCP admission** (`McpAdmission`). Capacity counters held across awaits, with idempotent releases.
- **TEI embeddings** (`TeiEmbedding`).

`Basics`, `Decimals` and `Sets` hold what these share. The model is written from the source; nothing was executed.

## What is assumed

- Fresh UUIDs and revocation tokens are fresh; Redis scripts are atomic and sent at most once; a vector store
  call takes effect atomically, whether or not it raises. Digests of ids are injective, so that a file name or an
  idempotency key stands for the id it is made from.
- Timers of the billing loop and of the call guard are exact, and the report sender is asynchronous, so that its
  timeout applies. Times are real numbers; rounding is modelled only where the code rounds.
- A queue directory has one consumer, and its clock does not go back. Each enqueue takes effect at one moment, that of
  its rename; a write that raises leaves no file. A claim is not exclusive for 300 seconds: renaming keeps the time that
  the staleness test looks at.
- The MCP SDK announces a session at most once for a request and while it handles that request.
- A request to cancel a knowledge job is never taken back while the job runs: its key outlives the job.

## Where the code and a stated promise differ

- `chunk_text` may repeat more than `overlap` tokens. This happens when several tokens start at the place where
  the overlap begins, as with characters that the tokenizer expands: `Chunking.OverlapCanExceed` is a cut with the
  excess, and `Chunking.CutOverlapIsBounded` the exact condition along any cut.
- An outbox loses a payload when another one is enqueued under the same name (`Outbox.CollisionLosesOne`).
  `Outbox.EnqueuesKeepAllIff` is the exact condition on what is enqueued, and `OutboxConsumer.Run` shows that nothing is
  lost afterwards either.
- The collector names a turn without an id after the number of items it holds. After a replacement has made that
  number smaller the same name can come again, and the turn is ignored as a repeat. `Turns.TurnIgnored` is such a
  call; by `TranscriptCollector.Collector.OnConversationItemAdded` a turn is ignored exactly when the name it gets has
  been seen, or when it has no words or another speaker.
- A turn whose id is one that the collector makes up can be published twice: `Turns.UserIdFails` and
  `Turns.AgentIdFails` are such calls for each of these ids, and `Turns.ConservesIff` shows that no other ids do this.
- A knowledge document is reported as ok although only some of its chunks are in the index, or none, when its embedding
  returns fewer vectors than it has chunks: `upsert` pairs the two up to the shorter list, and returns at once without
  vectors. `KbIngest.EmptyAnswerIsOk` is a run that ends as ok with nothing published. By `KbIngest.OkIsPublished` an ok
  document was published with exactly the chunks that got a vector, and by `KbIngest.AllChunksIff` with all of them if
  and only if there was a vector for each. Of the four embedding adapters only `TeiEmbedding.Embed` checks this.
- A knowledge document whose upsert returned is still reported as an error when saving its progress raises
  afterwards: `KbJob.UpsertedYetError` is such a run, and by `KbJob.UpsertedIsReported` it is reported as ok if and
  only if that save does not raise. An upsert that raises because it cannot tell whether its script ran may have
  published, or may publish yet, and its document is an error, too; `KbIngest.PublishedIsReported` has all the cases of
  a published source. Its vectors stay published (`KbIndexRuns.HidingComesTooLate`), because the attempt to hide them
  names the generation before.
- A required final usage report that is not acknowledged is lost when the queue directory cannot be written:
  `BillingReporter.FinalLost` is such a run, and by `BillingReporter.Run` the report is in the queue if and only if the
  write did not raise.
- A knowledge job can end as failed with a document that is ok: when something raises that nothing guards, the
  documents saved as ok stay so. `KbJob.FailedYetOk` is such a run, `KbJob.EscapesWhen` says exactly when something
  escapes, and `KbJob.JobEnds` exactly when the status fits.
- A knowledge job with two documents of one id, or one without an id, ends at less than 100 percent
  (`KbJob.FinishedWhenDistinct`, with the exact condition).
- The live stream can be out of order when Redis runs a script after its attempts timed out
  (`LivePublisher.LateScriptOvertakes`). By `LivePublisher.Run` only events that the publisher gave up are behind later
  ones, so the stream is in order when it gave up none, and otherwise exactly when none of theirs is behind.

## Model

| member | source | states |
|---|---|---|
| `KbPointer.MarkerTest` | apps/ai/utils/kb_index_state.py:9-23 | The code's string tests (`!` prefix, `!failed:` prefix, `!deleted`, empty) recognise exactly the pointers they are meant for |
| `KbPointer.RenderInjective` | apps/ai/utils/kb_index_state.py:12-16 | Different pointers are different strings, so the script's string comparison compares pointers |
| `KbPointer.HiddenName` | apps/ai/utils/kb_index_state.py:72 | A failed marker holds one plain generation name: markers never nest, and stripping the prefix gives back exactly the hidden generation |
| `KbPointer.ManifestHash.AssertNotDeleted` | apps/ai/utils/kb_index_state.py:45-49 | Raises exactly for a permanently deleted source, else returns the string of the current pointer |
| `KbPointer.ManifestHash.EvalPublish` | apps/ai/utils/kb_index_state.py:12-17 | On the strings, the publish script is a compare-and-swap of pointers that refuses deleted sources; it reports the previous value |
| `KbPointer.ManifestHash.Delete` | apps/ai/utils/kb_index_state.py:19-23 | The deletion script overwrites everything but a permanent deletion, with a deletion marker or a fresh revocation token |
| `KbPointer.ManifestHash.RevokeFailed` | apps/ai/utils/kb_index_state.py:67-74 | Hides exactly the generation the attempt read, and only if it is still the published one; on markers it writes nothing |
| `KbIndex.FireRunsTheScript` | apps/ai/utils/kb_index_state.py:11-23 | The protocol step of each operation changes the manifest exactly as its script does on the strings, and touches no vector |
| `KbIndexSafety.InitHasInv` | apps/ai/utils/kb_index_state.py:1-5 | An index with legacy vectors and an empty manifest satisfies the invariant |
| `KbIndexSafety.StepKeepsInv` | apps/ai/handlers/vector_provider_adapters.py:485-553 | Every step of every upsert, deletion and attempt, with every way a call can fail or a reply get lost, keeps the invariant: published, hidden and unsettled generations are complete, legacy vectors of unnamed sources are intact |
| `KbIndexSafety.WriterMayRemove` | apps/ai/handlers/vector_provider_adapters.py:526-536 | What an operation may delete after its reply is a generation the manifest has moved off |
| `KbIndexRuns.RunHasInv` | apps/ai/handlers/vector_provider_adapters.py:485-553 | The invariant holds at every state of every run |
| `KbIndexRuns.PublishedIsWhole` | apps/ai/handlers/vector_provider_adapters.py:515-521 | Whenever the manifest names a version, the store holds all chunks of its upsert and nothing else carries that version |
| `KbIndexRuns.UnnamedKeepsLegacy` | apps/ai/handlers/vector_provider_adapters.py:564-567 | A source the manifest does not name has all its legacy vectors |
| `KbIndexRuns.UnsettledStaysWhole` | apps/ai/handlers/vector_provider_adapters.py:520-522 | While a publish script may still run, what it would publish is complete, whatever the upsert was told; only a permanent deletion ends that |
| `KbIndexRuns.ValueNeverRecurs` | apps/ai/utils/kb_index_state.py:12-23 | A value a source has now and had before it had all the time in between |
| `KbIndexRuns.EqualSnapshots` | apps/ai/handlers/vector_provider_adapters.py:563-574 | Two equal snapshots mean the manifest was the same throughout |
| `KbIndexRuns.DeletionIsFinal` | apps/ai/utils/kb_index_state.py:14 | A permanently deleted source stays deleted in every later state |
| `KbIndexRuns.Fence` | apps/ai/utils/kb_index_state.py:12-17 | When an upsert or failed attempt writes, the source had the value it read ever since it read it |
| `KbIndexRuns.FencedForGood` | apps/ai/utils/kb_index_state.py:77-81 | Once the source has another value, for one a soft revocation, an upsert or attempt that read the old one never writes |
| `KbIndexRuns.AtMostOnePublishes` | apps/ai/utils/kb_index_state.py:12-17 | Of all upserts and attempts that read one value, an upsert that wrote is the only one that did |
| `KbIndexRuns.FailureHidesWhatItRead` | apps/ai/handlers/kb_handler.py:1176-1181 | A failed attempt hides the generation it read when it started, never a newer one, and removes no vector |
| `KbIndexRuns.ReadValueStands` | apps/ai/utils/kb_index_state.py:12-17 | Until an upsert or attempt has written, which it does in the end, the source has the value it read |
| `KbIndexRuns.RemovesWhatItReplaced` | apps/ai/handlers/vector_provider_adapters.py:526-536 | Wherever in a run the clean-up of an upsert comes: it removes the vectors of the generation that the upsert replaced, published or hidden, and no others, and that generation was the manifest's until this upsert wrote |
| `KbIndexRuns.GoesOnToRemove` | apps/ai/handlers/vector_provider_adapters.py:523-534 | Both ways of learning that it is published, the reply and the manifest read after a lost reply, lead an upsert to that clean-up, unless it replaced a revocation, when there is nothing to remove |
| `KbIndexRuns.HidingComesTooLate` | apps/ai/handlers/kb_handler.py:1098-1181 | An attempt that began before an upsert of its source wrote never hides anything afterwards |
| `KbIndexRuns.WriterPublished` | apps/ai/handlers/vector_provider_adapters.py:497-521 | An upsert that wrote had its source published, at some time, with exactly its texts in their order |
| `KbIndexRuns.RemovedIsNeverNamed` | apps/ai/handlers/vector_provider_adapters.py:515-536 | A vector leaves the store only when the manifest has moved off its generation, and the manifest never names it again |
| `KbIndexRuns.MatchesAreConsistent` | apps/ai/handlers/vector_provider_adapters.py:564-574 | Matches found between two equal snapshots belong to the generation published for their source all that time, and were stored all that time |
| `KbIndexRuns.FilterFindsNamed` | apps/ai/handlers/vector_provider_adapters.py:564-571 | What the filter of a snapshot lets through of a store is exactly what the manifest names at that time: vectors of a published version, and legacy vectors of sources without an entry |
| `KbIndexRuns.NothingIsMissed` | apps/ai/handlers/vector_provider_adapters.py:563-574 | Between two equal snapshots the candidates of each source are exactly all chunks of its published upsert, or all legacy vectors of a source that the manifest does not name, or none |
| `KbIndexRuns.Query` | apps/ai/handlers/vector_provider_adapters.py:562-577 | Answers from the first of three attempts that sees equal snapshots, and only then; the matches are those of the search among all that the manifest names, nothing of it missing, they are consistent, and no source deleted before the attempt appears |
| `KbIndexClient.StageAll` | apps/ai/handlers/vector_provider_adapters.py:514-519 | Staging goes through in batches of a hundred, and stops exactly when one of them raises, while everybody else goes on |
| `KbIndexClient.ThrowAway` | apps/ai/handlers/vector_provider_adapters.py:517-525 | After the staged vectors are thrown away the upsert is one that never publishes, and none of them is left if the removal took effect |
| `KbIndexClient.ReadBack` | apps/ai/utils/kb_index_state.py:61-63 | A version read back from the manifest after a lost reply was written by its own upsert |
| `KbIndexClient.ConfirmIt` | apps/ai/utils/kb_index_state.py:57-64 | After a lost reply success is reported only for a published version; otherwise the staged data stays |
| `KbIndexClient.Upsert` | apps/ai/handlers/vector_provider_adapters.py:485-536 | In any environment the upsert is a run of the protocol; it reports success only if its version was published, refusal or a store failure only if it never will be, a store failure exactly when a batch raises, and an unknown end only when it gave up on a script and the manifest did not show its version; a clean-up that takes effect leaves nothing behind |
| `KbIndexClient.RanDeletes` | apps/ai/utils/kb_index_state.py:77-81 | A permanent deletion whose script has run leaves the source deleted |
| `KbIndexClient.DeleteByKb` | apps/ai/handlers/vector_provider_adapters.py:538-553 | Each report has its exact condition; once the reply is there a permanent deletion holds whatever becomes of the vectors, a revocation of a hidden source touches none, and a deletion reported as done has left none of the vectors it was for |
| `KbIndexClient.UndisturbedPublishes` | apps/ai/handlers/vector_provider_adapters.py:485-536 | From any state in which the source is not deleted an upsert that nothing disturbs ends with its version published, whole, and no other source changed |
| `KbIndexClient.UndisturbedDeletes` | apps/ai/handlers/vector_provider_adapters.py:538-553 | From any such state a deletion that nothing disturbs leaves its marker, and no other source changed |
| `KbIndexClient.UndisturbedHides` | apps/ai/utils/kb_index_state.py:67-74 | From any state in which a source is published a failed attempt that nothing disturbs hides what was published |
| `Chunking.StripKeepsInk` | apps/ai/handlers/kb_chunking.py:95 | Stripping loses nothing but white space: the rest is one stretch holding every other character |
| `Chunking.Shorten` | apps/ai/handlers/kb_chunking.py:75-82 | Every end tried before is over budget, each shortened end is the start of token number `budget` in the encoding of the longer window before it, and the last is within budget; it is an empty window only if more tokens than the budget start at one place |
| `Chunking.FirstEnd` | apps/ai/handlers/kb_chunking.py:66-73 | The end is the last boundary that adds new text with at most `budget` tokens of the text starting before it, else the furthest place of that kind: there are no more such tokens, and beyond it there would be |
| `Chunking.FurthestIs` | apps/ai/handlers/kb_chunking.py:66-68 | The limit taken from the list of token starts is that place, by counting tokens |
| `Chunking.NextStartIs` | apps/ai/handlers/kb_chunking.py:103-111 | The next start is the first sentence start within the overlap, else the start of the overlap's first token, or the end of the window when neither moves on |
| `Chunking.AfterWindow` | apps/ai/handlers/kb_chunking.py:103-111 | The bisection computes that start from the window's own tokens |
| `Chunking.CutWindows` | apps/ai/handlers/kb_chunking.py:65-113 | The main loop terminates and returns the stripped windows of a chain over the whole text, or raises exactly where the next window is over the model's limit, or empty |
| `Chunking.ChunkText` | apps/ai/handlers/kb_chunking.py:30-113 | Each argument error is raised exactly when its condition holds; otherwise the text is cut as promised for every text, size and overlap |
| `Chunking.OneOutcome` | apps/ai/handlers/kb_chunking.py:60-113 | These rules leave one outcome: any two lists of windows and outcomes that obey them for one text are the same |
| `Chunking.Reassembles` | apps/ai/handlers/kb_chunking.py:65-113 | Dropping from each window what its predecessor covered and concatenating gives the text back |
| `Chunking.PieceIsVerbatim` | apps/ai/handlers/kb_chunking.py:95-99 | What a window contributes is a stretch of the text holding all its characters that are not white space |
| `Chunking.InkIsKept` | apps/ai/handlers/kb_chunking.py:95-99 | Every character that is not white space is in some chunk, at its place |
| `Chunking.ChunksAreVerbatim` | apps/ai/handlers/kb_chunking.py:75-99 | Every chunk is a nonempty verbatim stretch of one window with no white space at its ends |
| `Chunking.EndsSentenceIfItCan` | apps/ai/handlers/kb_chunking.py:70-82 | When a sentence end with new text has at most `budget` tokens of the text before it, the window ends at a sentence, unless one at least as far did not fit the budget when encoded by itself |
| `Chunking.ReachesAsFarAsItCan` | apps/ai/handlers/kb_chunking.py:66-82 | A window that stops short of a place within `budget` tokens ends at a sentence, or a longer one did not fit the budget when encoded by itself |
| `Chunking.WithinBudget` | apps/ai/handlers/kb_chunking.py:79-82 | Every window re-encodes to at most the budget |
| `Chunking.OverlapIsBounded` | apps/ai/handlers/kb_chunking.py:103-111 | At most `overlap` tokens start in the overlap, before it may be dropped, if and only if it does not begin among tokens with one start |
| `Chunking.CutOverlapIsBounded` | apps/ai/handlers/kb_chunking.py:84-111 | Along a cut at most `overlap` tokens of a window are repeated in the next if and only if the overlap does not begin among tokens with one start, or was dropped |
| `Chunking.DistinctStartsBoundOverlap` | apps/ai/handlers/kb_chunking.py:103-111 | Along a cut the overlap is bounded when no two tokens of the window share a start |
| `Chunking.OverlapCanExceed` | apps/ai/handlers/kb_chunking.py:65-113 | A text and a tokenizer for which the delivered cut repeats two tokens where one is allowed |
| `BillingReporter.RoundMonotone` | apps/ai/handlers/billing_usage_reporter.py:363-368 | Rounding to milliseconds keeps the order of times |
| `BillingReporter.OneFinal` | apps/ai/handlers/billing_usage_reporter.py:287-301 | Among the reports of a call there is at most one final one and it has the greatest number |
| `BillingReporter.AppendReport` | apps/ai/handlers/billing_usage_reporter.py:350-371 | A report built after the others keeps numbers, times and the frozen end in order |
| `BillingReporter.Reporter.MarkEnded` | apps/ai/handlers/billing_usage_reporter.py:269-271 | The end of the call is recorded once |
| `BillingReporter.Reporter.Close` | apps/ai/handlers/billing_usage_reporter.py:273-285 | Any number of calls create one close task |
| `BillingReporter.Reporter.Acquire` | apps/ai/handlers/billing_usage_reporter.py:225-241 | A waiting report builds the next number with the current, or frozen, connected time, unless the reporter closed meanwhile |
| `BillingReporter.Reporter.EnqueueFinal` | apps/ai/handlers/billing_usage_reporter.py:453-464 | The final report is in the durable queue if the write returns, and nowhere if it raises |
| `BillingReporter.Reporter.AcquireFinal` | apps/ai/handlers/billing_usage_reporter.py:229-244 | The final report carries the frozen time; when sending is disabled and billing required it goes to the durable queue, unless the write there raises |
| `BillingReporter.Reporter.Settle` | apps/ai/handlers/billing_usage_reporter.py:246-267 | A final report that is given up when billing is required is queued, unless the write raises; the reporter is closed either way |
| `BillingReporter.Reporter.CancelClosing` | apps/ai/handlers/billing_usage_reporter.py:297-301 | A close task cancelled while its report waits or is sent still closes the reporter |
| `BillingReporter.Run` | apps/ai/handlers/billing_usage_reporter.py:221-322 | Over every interleaving each event has its effect, in turn: numbers count up, connected time never falls and is frozen at the end of the call, nothing follows a final report, and a reporter that closed itself has its final report in the queue if and only if it was required, not acknowledged, and writing it there did not raise |
| `BillingReporter.EventKeepsGood` | apps/ai/handlers/billing_usage_reporter.py:221-322 | The effect of each event keeps numbers, times and the fate of the final report in order |
| `BillingReporter.ReportGoesThrough` | apps/ai/handlers/billing_usage_reporter.py:225-241 | A report asked for while the lock is free is built at once, with the next number |
| `BillingReporter.CloseGoesThrough` | apps/ai/handlers/billing_usage_reporter.py:273-301 | A close that nothing disturbs builds the final report with the time of the close, sends it, and queues it exactly when it is required, not delivered, and the write returns |
| `BillingReporter.FinalLost` | apps/ai/handlers/billing_usage_reporter.py:453-464 | A reporter, from its start, that closes with its required final report neither acknowledged nor queued |
| `ReporterDeadline.SendWithRetry` | apps/ai/handlers/billing_usage_reporter.py:399-441 | Ends no later than the gap plus 0.05 s; acknowledged if and only if an answer with an acknowledgement came within the timeout of its attempt, and that is the last attempt; each attempt begins after its backoff, and without an acknowledgement they go on until the attempts or the gap are used up |
| `ReporterDeadline.ReportNow` | apps/ai/handlers/billing_usage_reporter.py:246-266 | Acknowledged when an attempt is heard; else a stop is asked for exactly when the gap is used up, and the loop waits on otherwise |
| `ReporterDeadline.PromptIsHeard` | apps/ai/handlers/billing_usage_reporter.py:399-441 | A server that acknowledges every request in the time there is for it has the first attempt of the first report heard |
| `ReporterDeadline.Meanwhile` | apps/ai/handlers/billing_usage_reporter.py:225-266 | While others report and hold the lock, the periodic loop gets its turn by the deadline, after all that were asked for by the time it woke up, unless one of them is acknowledged or asks for the stop |
| `ReporterDeadline.UntilSettled` | apps/ai/handlers/billing_usage_reporter.py:303-322 | From an acknowledged report on, whoever reports meanwhile, the next acknowledgement or a stop comes within gap plus 0.05 s, and it does come; it is that of the last of a list of reports of which each begins in time after the one before, and a server that acknowledges every request in time is never answered with a stop of the reporter's own |
| `ReporterDeadline.Watch` | apps/ai/handlers/billing_usage_reporter.py:101-108 | Every stretch between acknowledged reports, and the last one before the stop, is inside the 60 s reserve window, with others reporting at any time; each stretch is as stated for it, the watch stops for the reason of the last one, and never while a server acknowledges in time and asks for no stop |
| `Outbox.RetryDelay` | apps/ai/handlers/billing_usage_reporter.py:649-652 | Every pause before a retry is between 1 s and 300 s |
| `Outbox.RetryDelayDoubles` | apps/ai/handlers/billing_usage_reporter.py:649-652 | The pauses start at one second, two for webhooks, and double up to the maximum |
| `Outbox.OwedIsOnDisk` | apps/ai/handlers/billing_usage_reporter.py:573-664 | In every safe state each unacknowledged payload is itself in a live, claimed or dead-letter file |
| `Outbox.ClaimIsSafe` | apps/ai/handlers/billing_usage_reporter.py:596-601 | Claiming by rename loses nothing, even over an older claim |
| `Outbox.UnlinkIsSafe` | apps/ai/handlers/billing_usage_reporter.py:640-662 | A claim may be unlinked when nothing is owed under its name or the live file is there |
| `Outbox.WriteIsSafe` | apps/ai/handlers/billing_usage_reporter.py:653-661 | Rewriting the live file loses nothing |
| `Outbox.CollisionLosesOne` | apps/ai/handlers/post_call_webhook_handler.py:24-36 | Of two payloads enqueued under one name one is lost: the older, or for webhooks the newer |
| `Outbox.EnqueuesKeepAllIff` | apps/ai/handlers/calllog_handler.py:110-117 | Enqueuing payloads of a set, in any order and as often as one likes, keeps all of them on disk if and only if no two of them share a name |
| `Outbox.NotDueIsUntouched` | apps/ai/handlers/billing_usage_reporter.py:614-617 | A file that is not due yet is left exactly as it was |
| `Outbox.HandledUnclaims` | apps/ai/handlers/billing_usage_reporter.py:596-662 | A consumer that lives leaves no claim behind for a file it handled |
| `Outbox.HandledKeepsOthers` | apps/ai/handlers/billing_usage_reporter.py:595-662 | Handling one name leaves every other file there with its payload |
| `Outbox.SentIsAppliedOnce` | apps/ai/handlers/billing_usage_reporter.py:926-931 | A receiver that goes by the key applies each sent payload exactly once, however often it is redelivered |
| `Outbox.RefusedTimes` | apps/ai/handlers/post_call_webhook_handler.py:139-172 | A payload whose attempts fail in each of so many rounds, a webhook without its fields included, has that many attempts counted and waits in its file, unless it is a webhook that failed ten times: that is buried, with its payload |
| `Outbox.SettledForGood` | apps/ai/handlers/billing_usage_reporter.py:626-662 | A payload that is accepted, or for a webhook found removed, leaves no file; an incomplete one is buried |
| `Outbox.SourceInjective` | apps/ai/handlers/billing_usage_reporter.py:926-927 | `session:sequence` determines both, colons in the session id or not |
| `Outbox.BothWaysAreOne` | apps/ai/handlers/billing_usage_reporter.py:926-931 | A report sent by the reporter and again from its file goes out under one key, under which nothing else is sent, so the receiver applies it once |
| `Outbox.SnapshotsHaveOwnNames` | apps/ai/handlers/billing_usage_reporter.py:562-568 | Final snapshots of different sessions or numbers never share a name, so the no-loss theorem applies to them |
| `OutboxConsumer.Queue.Enqueue` | apps/ai/handlers/calllog_handler.py:110-117 | The payload is in the live queue and owed; a webhook that its producer sees queued already stays as it is |
| `OutboxConsumer.Queue.Pause` | apps/ai/handlers/calllog_handler.py:110-117 | Before any file operation of the consumer others may enqueue any payloads; claims and owed payloads are as they were |
| `OutboxConsumer.Queue.Reclaim` | apps/ai/handlers/billing_usage_reporter.py:709-723 | If the process lives, every stale claim is back in the live queue unless a live file of its name took its place, whatever is enqueued between looking and moving, and no other claim is touched |
| `OutboxConsumer.Queue.WriteBack` | apps/ai/handlers/billing_usage_reporter.py:644-662 | A failed attempt is written back with one attempt more before its claim goes; the tenth failed webhook is buried instead |
| `OutboxConsumer.Queue.Conclude` | apps/ai/handlers/post_call_webhook_handler.py:139-172 | Only an accepted payload is acknowledged and only a removed webhook dropped |
| `OutboxConsumer.Queue.Handle` | apps/ai/handlers/billing_usage_reporter.py:595-662 | Handling one name, with enqueues before the claim, the read, the answer, the rewrite and the unlink, has exactly its stated effect if the process lives, and loses nothing wherever it dies |
| `OutboxConsumer.Queue.Flush` | apps/ai/handlers/calllog_handler.py:120-193 | In a pass that the process survives every file that is due, a stale claim that came back included, is sent and acknowledged, dropped or counted as failed, and only earlier claims that are not stale are left |
| `OutboxConsumer.Run` | apps/ai/handlers/billing_usage_reporter.py:556-664 | Over every schedule, with enqueues between any two file operations and a crash before any, each event has its effect, in turn: each enqueued payload is on disk until acknowledged or dropped, only webhooks found removed are dropped, webhooks are buried only after ten failures, acknowledged payloads were applied exactly once, and nothing incomplete is ever sent |
| `CallLimitGuard.Append` | apps/ai/handlers/worker_handler.py:192-207 | One more note keeps the record truthful: warnings after two thirds of listening, expiry a third after an unanswered warning, one stop |
| `CallLimitGuard.Guard.RecordUserActivity` | apps/ai/handlers/worker_handler.py:117-126 | Any activity restores the full budget and takes the warning back |
| `CallLimitGuard.Guard.OnSipDtmfReceived` | apps/ai/handlers/worker_handler.py:152-157 | Keys count only from the caller, when the caller is known |
| `CallLimitGuard.Guard.OnAgentStateChanged` | apps/ai/handlers/worker_handler.py:140-150 | Pausing and resuming never lose or gain listening time; after the warning the hang-up stays where it is |
| `CallLimitGuard.Guard.Warn` | apps/ai/handlers/worker_handler.py:192-202 | The warning leaves exactly a third of the timeout until the hang-up |
| `CallLimitGuard.Guard.RequestStop` | apps/ai/handlers/worker_handler.py:204-207 | The first reason stands; a closed guard asks for nothing |
| `CallLimitGuard.Guard.Expire` | apps/ai/handlers/worker_handler.py:159-175 | The hang-up timer goes off only a third of the timeout after a standing warning |
| `CallLimitGuard.Guard.Overrun` | apps/ai/handlers/worker_handler.py:102-110 | The limit on the whole call asks for a stop |
| `CallLimitGuard.Guard.OnClosed` | apps/ai/handlers/worker_handler.py:209-211 | A closed session asks for a stop once and closes the guard |
| `CallLimitGuard.Run` | apps/ai/handlers/worker_handler.py:74-220 | Over every schedule each event has its effect, in turn: until the warning, time listened plus what is left is the timeout; warnings, expiries and stops are as stated |
| `CallLimitGuard.SilenceEndsTheCall` | apps/ai/handlers/worker_handler.py:140-207 | A caller who stays silent is warned after two thirds of the timeout and the call is stopped after all of it, for that reason |
| `CallLimitGuard.ActivityIsHeard` | apps/ai/handlers/worker_handler.py:117-157 | Speech, and keys of the caller, take the warning back and restore the full timeout; keys of anybody else change nothing when the caller is known |
| `CallLimitGuard.EndsForAReason` | apps/ai/handlers/worker_handler.py:102-110 | An open guard asks for the stop when the limit on the whole call is reached or the session is closed, each with its reason |
| `Turns.TailIs` | apps/ai/handlers/transcript_collector.py:171-179 | The loop finds exactly the unpublished segments after the last committed caller turn, in order |
| `Turns.ChosenAreSegments` | apps/ai/handlers/transcript_collector.py:171-190 | A committed turn replaces only unpublished segments after the last committed caller turn |
| `Turns.ChosenIs` | apps/ai/handlers/transcript_collector.py:171-190 | On positions: all pending segments go when together they say the turn; else those of the last unbroken run, when it is last or says the turn; else none |
| `Turns.OlderSpeechStays` | apps/ai/handlers/transcript_collector.py:181-190 | A segment with another item between it and a later one stays, unless all of them together say the turn |
| `Turns.JoinParts` | apps/ai/handlers/transcript_collector.py:180-184 | What segments say together is what they say one after another, with blanks between |
| `Turns.NextIsNew` | apps/ai/handlers/transcript_collector.py:121-124 | A made-up id is never in use |
| `Turns.SurvivorsInOrder` | apps/ai/handlers/transcript_collector.py:192-195 | What a replacement does not remove keeps its order |
| `Turns.SurvivorsComplete` | apps/ai/handlers/transcript_collector.py:192-195 | A replacement loses no other item |
| `Turns.SpliceKeepsOthers` | apps/ai/handlers/transcript_collector.py:192-195 | Items before the replaced segments stay at their places |
| `Turns.FlushedOnce` | apps/ai/handlers/transcript_collector.py:114-119 | With nothing held back, the caller turns held are the published ones, each published once |
| `Turns.SpeechIsPublished` | apps/ai/handlers/transcript_collector.py:68-119 | In a call with speech and no committed turns the flush publishes everything that the caller said, in order |
| `Turns.TurnsArePublished` | apps/ai/handlers/transcript_collector.py:31-66 | In a call with committed turns only, of new ids, each is published at once, in order, and nothing else |
| `Turns.TurnKeepsOk` | apps/ai/handlers/transcript_collector.py:31-66 | A committed turn keeps ids distinct, each caller turn held back or published once, and one notification an item, when its id is none that the collector makes up |
| `Turns.ConservesIff` | apps/ai/handlers/transcript_collector.py:12-133 | The exact condition: all calls whose turns have ids from a set, or none, conserve their turns if and only if no id of the set is one that the collector makes up, whatever the set |
| `Turns.UserIdFails` | apps/ai/handlers/transcript_collector.py:68-89 | For each number, a call in which a turn has the id of the caller's segment of that number: the flush publishes that turn again |
| `Turns.AgentIdFails` | apps/ai/handlers/transcript_collector.py:201-214 | For each number, a call in which the agent's speech of that number has lost its id to a turn, and a caller's turn with that id is published twice |
| `Turns.TurnIgnored` | apps/ai/handlers/transcript_collector.py:47-49 | A call in which a turn without an id gets the name of an earlier one, the number of items having shrunk in between, and is lost |
| `TranscriptCollector.Collector.OnUserInputTranscribed` | apps/ai/handlers/transcript_collector.py:68-89 | A final segment is held and not published; anything else changes nothing |
| `TranscriptCollector.Collector.OnAgentTranscriptionFinal` | apps/ai/handlers/transcript_collector.py:91-109 | Spoken text is published unless one of the last three items says the same |
| `TranscriptCollector.Collector.Flush` | apps/ai/handlers/transcript_collector.py:114-119 | Publishes exactly the held segments, in order, and nothing is held afterwards |
| `TranscriptCollector.Collector.OnConversationItemAdded` | apps/ai/handlers/transcript_collector.py:31-66 | A committed turn replaces the segments it stands for, adopts the speech it repeats, or is appended; a repeated id changes nothing |
| `TranscriptCollector.Collector.ChooseSegments` | apps/ai/handlers/transcript_collector.py:171-190 | All segments when together they say the same, else the last run if it is last or says the same, else none |
| `TranscriptCollector.Collector.DropSegments` | apps/ai/handlers/transcript_collector.py:192-194 | Taking the segments out one by one, the last first, removes these and nothing else |
| `TranscriptCollector.Collector.FindSegments` | apps/ai/handlers/transcript_collector.py:172-179 | The backward scan returns the segments after the last committed caller turn |
| `TranscriptCollector.Collector.CommitCaller` | apps/ai/handlers/transcript_collector.py:163-199 | The turn takes the place of the first chosen segment, the others go, and it is published |
| `TranscriptCollector.Collector.CommitAgent` | apps/ai/handlers/transcript_collector.py:201-214 | Only the last matching spoken item among the last five takes the id and time of the turn, without a second notification |
| `TranscriptCollector.RunCall` | apps/ai/handlers/transcript_collector.py:12-133 | Over any call ended by a flush in which no turn has an id that the collector makes up: one notification for each item, and every caller turn held was published exactly once |
| `LivePublisher.TokenInjective` | apps/ai/handlers/live_transcript_publisher.py:250-259 | Two events share a dedup token exactly when they are one lifecycle event or one speaker's message |
| `LivePublisher.ScriptKeepsTokens` | apps/ai/handlers/live_transcript_publisher.py:27-52 | The script never adds a second entry for a token, and running it again changes nothing |
| `LivePublisher.ScriptAndOrder` | apps/ai/handlers/live_transcript_publisher.py:27-52 | Running a script keeps the stream in the order of acceptance if and only if it does not add an entry behind a later event |
| `LivePublisher.InTurn` | apps/ai/handlers/live_transcript_publisher.py:229-248 | A script that runs before anything later is sent never does that |
| `LivePublisher.OvertakingWasGivenUp` | apps/ai/handlers/live_transcript_publisher.py:229-248 | Whenever a late script breaks the order, the event it is for had been given up |
| `LivePublisher.OrderAndGivenUp` | apps/ai/handlers/live_transcript_publisher.py:229-248 | If only given-up events lag, the order holds exactly when none of their entries is behind a later one, and always when nothing was given up |
| `LivePublisher.LateScriptOvertakes` | apps/ai/handlers/live_transcript_publisher.py:229-248 | A run from a new publisher in which a message is given up, the next one is published, and then the script of the first runs and breaks the order |
| `LivePublisher.ScriptKeepsActive` | apps/ai/handlers/live_transcript_publisher.py:39-48 | The call is in the active set exactly when its start was published and no end after it |
| `LivePublisher.EndIsLast` | apps/ai/handlers/live_transcript_publisher.py:174-191 | In an ordered stream a published end is the last entry |
| `LivePublisher.Publisher.Start` | apps/ai/handlers/live_transcript_publisher.py:110-138 | The worker starts once and not after closing; the start event may be dropped by a full queue |
| `LivePublisher.Publisher.PublishTranscript` | apps/ai/handlers/live_transcript_publisher.py:140-165 | Accepted exactly when enabled, open, allowed, complete and the queue has room |
| `LivePublisher.Publisher.BeginClose` | apps/ai/handlers/live_transcript_publisher.py:167-191 | The end is always accepted, the oldest event making room for it, and nothing after it |
| `LivePublisher.Publisher.Get` | apps/ai/handlers/live_transcript_publisher.py:208-213 | The worker takes the oldest event |
| `LivePublisher.Publisher.RunScript` | apps/ai/handlers/live_transcript_publisher.py:261-273 | Redis runs the script for the event being sent |
| `LivePublisher.Publisher.Attempt` | apps/ai/handlers/live_transcript_publisher.py:229-248 | Three attempts; a reply lost after the script ran changes nothing the second time; a script that has not run when its attempt times out stays behind |
| `LivePublisher.Publisher.RunLate` | apps/ai/handlers/live_transcript_publisher.py:229-273 | A script may run long after its attempt: it never publishes a token twice, and it overtakes only for an event that was given up |
| `LivePublisher.Run` | apps/ai/handlers/live_transcript_publisher.py:167-302 | Over every run, with scripts running as late as they like, each step has its effect, in turn: one entry a token; only given-up events are behind later ones, so what was not given up is in the order of acceptance, and the stream is exactly when no entry of a given-up event is behind a later one, as when nothing was given up; then the end comes last and the active set is exact; complete when nothing was evicted, given up or cut off |
| `LivePublisher.MessageGoesThrough` | apps/ai/handlers/live_transcript_publisher.py:140-248 | A new message that nothing disturbs is published, and no other entry changes |
| `LivePublisher.CallGoesThrough` | apps/ai/handlers/live_transcript_publisher.py:110-302 | From nothing, a call that nothing disturbs leaves its start and its end in the stream, in the active set in between, and with the metadata of the end |
| `McpAdmission.CountChanged` | apps/mcp-server/src/index.ts:170-181 | Changing one request changes a count by that request alone |
| `McpAdmission.SumWithout` | apps/mcp-server/src/index.ts:170-180 | Taking an entry out of the per-key counters lowers their sum by it |
| `McpAdmission.Reserve` | apps/mcp-server/src/index.ts:170-171 | A reservation keeps counters and reservations equal, for all keys and each, and the pending counter the sum of the per-key counters |
| `McpAdmission.ReserveFits` | apps/mcp-server/src/index.ts:161-166 | After the capacity check one more reservation fits every limit |
| `McpAdmission.FullMeansNoRoom` | apps/mcp-server/src/index.ts:161-166 | The capacity check refuses exactly when one more reservation would exceed a limit |
| `McpAdmission.AttemptsAddUp` | apps/mcp-server/src/index.ts:145-155 | The attempts of an address are counted in the window of the first; the address is refused exactly from the twentieth on, and a new one when ten thousand stand |
| `McpAdmission.Release` | apps/mcp-server/src/index.ts:173-180 | A release keeps all that and removes the entry of a key that holds none |
| `McpAdmission.InitializeFits` | apps/mcp-server/src/index.ts:191-199 | A reserved request that opens its session keeps within the limits |
| `McpAdmission.Server.CleanupExpiredSessions` | apps/mcp-server/src/index.ts:77-84 | Removes exactly the expired sessions and the attempt entries whose window is over |
| `McpAdmission.Server.Lookup` | apps/mcp-server/src/index.ts:126-138 | A session answers exactly to the key whose request opened it, and is renewed; each refusal has its condition, and no other session changes |
| `McpAdmission.Server.CountAttempt` | apps/mcp-server/src/index.ts:145-155 | Refused exactly after twenty standing attempts of an address, or for a new one when ten thousand stand; else the attempt is counted, in a new window or in the old one |
| `McpAdmission.Server.Admit` | apps/mcp-server/src/index.ts:157-172 | Refused exactly when the global, per-key or pending limit is reached, else reserved at once |
| `McpAdmission.Server.TransportForRequest` | apps/mcp-server/src/index.ts:118-172 | The whole answer from the state before: the transport exactly for an open, unexpired session of that key, each refusal exactly by its condition on the unexpired sessions, the standing attempts and the limits, otherwise an admission; with the sessions and attempts afterwards |
| `McpAdmission.Server.ReleaseInitialization` | apps/mcp-server/src/index.ts:172-180 | The first call gives back one reservation, every other changes nothing |
| `McpAdmission.Server.Validated` | apps/mcp-server/src/index.ts:181-186 | A refused key gives its reservation back |
| `McpAdmission.Server.OnSessionInitialized` | apps/mcp-server/src/index.ts:189-200 | The session belongs to the request's key and transport |
| `McpAdmission.Server.OnClose` | apps/mcp-server/src/index.ts:202-208 | A closing transport removes its own session only |
| `McpAdmission.Run` | apps/mcp-server/src/index.ts:71-216 | Over every interleaving at the awaits each event has its effect, in turn, and the limits hold for all keys and each; the counters equal the unreleased reservations, the pending counter is the sum of the per-key ones, each of these is positive, down to nothing |
| `TeiEmbedding.ReadItem` | apps/ai/handlers/vector_provider_adapters.py:401-426 | An item is taken exactly when it is well formed and its index is new |
| `TeiEmbedding.AllFiled` | apps/ai/handlers/vector_provider_adapters.py:427-428 | With one item per input, all indexes in range means the response is proper |
| `TeiEmbedding.ValidateResponse` | apps/ai/handlers/vector_provider_adapters.py:392-429 | Accepts exactly the responses with one well-formed item for each input, in any order, and returns the vectors in input order |
| `TeiEmbedding.BatchIsEmbedded` | apps/ai/handlers/vector_provider_adapters.py:443-458 | The vectors of an accepted batch are those of its texts, place by place |
| `TeiEmbedding.Embed` | apps/ai/handlers/vector_provider_adapters.py:431-463 | A result exactly when every batch is answered properly, whatever else the service answers; and then, if accepted answers carry the embedder's vectors, the embedder mapped over the texts, for every batch size |
| `KbJob.WalkOutcome` | apps/ai/handlers/kb_handler.py:1088-1195 | A document is ok exactly when all four polls said to keep on and nothing raised, canceled exactly when a poll said so before anything raised and that could be saved, without a result exactly when something raises that nothing guards |
| `KbJob.PassedMeans` | apps/ai/handlers/kb_handler.py:1088-1172 | Stages go through exactly when their polls say to keep on, their saves do not raise, and the works of all of them, the read of the manifest included, have returned |
| `KbJob.UpsertedIsReported` | apps/ai/handlers/kb_handler.py:1151-1195 | A document whose upsert returned is reported as ok if and only if saving that does not raise; when it does, as an error, or the job fails |
| `KbJob.UpsertedYetError` | apps/ai/handlers/kb_handler.py:1172-1195 | A run in which an upserted document is reported as an error |
| `KbJob.WalkToResults` | apps/ai/handlers/kb_handler.py:1082-1197 | One result for each document in order, and after a canceled one only canceled ones |
| `KbJob.EscapesWhen` | apps/ai/handlers/kb_handler.py:1088-1195 | An exception escapes from the documents if and only if one is reached whose first poll, report of a cancellation seen by it, or report of an error raises |
| `KbJob.FullyProcessed` | apps/ai/handlers/kb_handler.py:458-472 | The percentage is that of the processed documents rounded down, or one lower when the division falls short; 100 exactly when there are documents and all are processed |
| `KbJob.StatusByMeans` | apps/ai/handlers/kb_handler.py:526-542 | What the counts say of any record, one with canceled or unfinished documents or none at all included |
| `KbJob.JobEnds` | apps/ai/handlers/kb_handler.py:289-357 | With an id of its own for each document: all are processed; if nothing escapes the status is succeeded, failed or partly failed as all, none or some are ok, and canceled if canceled; if something does it is failed, which fits the documents exactly when none was saved as ok or canceled |
| `KbJob.FailedYetOk` | apps/ai/handlers/kb_handler.py:314-326 | A job that ends as failed with a document that is ok: the first poll for the next one raises |
| `KbJob.FinishedWhenDistinct` | apps/ai/handlers/kb_handler.py:475-479 | A new job that nothing cancels or brings down ends at 100 percent if and only if every document has an id of its own |
| `KbJob.OkMeansUpserted` | apps/ai/handlers/kb_handler.py:482-489 | However a new job ends, canceled or brought down by an exception, a document it says is ok was upserted |
| `KbJob.Job.ApplyDocumentResult` | apps/ai/handlers/kb_handler.py:492-517 | The first document of that id takes the result, or it is appended; progress follows |
| `KbJob.Job.ApplyAll` | apps/ai/handlers/kb_handler.py:333-335 | The results are applied one after another |
| `KbJob.Job.MarkRemaining` | apps/ai/handlers/kb_handler.py:519-524 | Only documents that are not processed change |
| `KbJob.Job.Finalize` | apps/ai/handlers/kb_handler.py:526-542 | Canceled when told so; else succeeded exactly without an error or a canceled document, failed exactly with an error and neither ok nor canceled ones, and partly failed otherwise |
| `KbJob.Job.Finish` | apps/ai/handlers/kb_handler.py:332-344 | The end of a job whose documents went through, as a function of its results and of the record |
| `KbIngest.Cut` | apps/ai/handlers/kb_handler.py:1120-1125 | The chunks of a cut of the text, within the budget and not too many, or else a reason why it cannot be cut |
| `KbIngest.CutOnce` | apps/ai/handlers/kb_handler.py:1120-1125 | A text that can be cut has one list of chunks and no reason why it cannot |
| `KbIngest.Index` | apps/ai/handlers/vector_provider_adapters.py:485-536 | The upsert of a document: it has nothing to do exactly without vectors; reported as published only if its source was, with its chunks as far as there are vectors, and its own attempt can then never hide them |
| `KbIngest.AllChunksIff` | apps/ai/handlers/vector_provider_adapters.py:495-511 | A source whose upsert returned had all its chunks published if and only if there was a vector for each; without any vector its version never was |
| `KbIngest.PublishedIsReported` | apps/ai/handlers/kb_handler.py:1150-1195 | How a document is reported whose upsert published, then or later: as ok exactly when the upsert learned of it and saving that does not raise, else as an error, or the job fails |
| `KbIngest.NoVectorsIsOk` | apps/ai/handlers/vector_provider_adapters.py:495-496 | A document that no vectors were returned for is reported just as an indexed one, with its version unused |
| `KbIngest.EmptyAnswerIsOk` | apps/ai/handlers/kb_handler.py:1126-1174 | A run from an empty index in which a document whose embedding returns no vectors ends as ok, and its chunk is never published |
| `KbIngest.ProcessDocument` | apps/ai/handlers/kb_handler.py:1082-1195 | One document, with the read of the manifest, the chunks, the vectors and the upsert it is about: its path, when it ends how, why its work raised where it did, and what it leaves in the index; the script that hides the version before is sent exactly when the document fails after that read and the index can be reached |
| `KbIngest.ProcessDocuments` | apps/ai/handlers/kb_handler.py:1069-1197 | All documents one after another, each from where the one before it ended, up to the first from which an exception escapes |
| `KbIngest.RunKbJob` | apps/ai/handlers/kb_handler.py:289-357 | A job that is over stays as it is, one to be canceled before it starts is, and any other ends as stated for what its documents came to |
| `KbIngest.OkIsPublished` | apps/ai/handlers/kb_handler.py:289-357 | However a new job ends, a document it says is ok had exactly as many of its chunks published as there were vectors, in order, all of them if and only if there was a vector for each, and its attempt never hides them |

## Left out

- HTTP, Redis, S3, Pinecone, Qdrant, LiveKit and Express: only the effects named above remain of them.
- `upsert` and `delete_by_kb` do not own the store and the manifest: others change them between two calls, so
  these methods extend a run of the protocol, a sequence of states, instead of updating fields in place.
- One namespace of the index is modelled at a time; Qdrant's collection setup and the conversion of matches add
  nothing to it. Vectors that nobody can see any more may stay in the store, as in the code.
- The boundary pattern, the tokenizer, stripping of Unicode white space and `_normalize_text` are abstract functions.
- `_looks_like_agent_echo`: its verdict is an input of the collector; the user-activity callback is not modelled.
- Usage serialization, payload fields other than number, time and finality, the termination watchdog, and the
  effect of a server stop on a closed reporter.
- Several consumers on one queue directory: with two, one can unlink the claim of the other. Files put into the
  directory by anything but the enqueue functions. `report_webhook_event` and temporary files.
- The order in which a consumer takes the listed files: any order is covered.
- Expiry of the live stream's keys, and several publishers for one call.
- CORS, API key extraction and the MCP tools; proxies and the choice of the client address.
- A request to cancel that reads the record of a knowledge job before the last save of its results and writes it back
  afterwards, and a store that fails outside the processing of the documents. (A request that undoes a save of progress
  is modelled: `KbJob.Save` says of each save whether the record shows it afterwards.)
- Fetching and parsing a document, and the number of its vectors: they are inputs of `KbIngest`. The adapters for
  Pinecone, Google and FastEmbed, which do not compare that number with the number of texts.
- Parsers, URL screening, chunk budgets, webhook bodies, prompts and configuration: flat field handling.
