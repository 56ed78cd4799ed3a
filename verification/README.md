# Verified model of the knowledge desk backend

A Dafny model of the parts of the knowledge desk that hold its state and its guarantees, with
proofs of what those parts are relied on for. Run `dafny verify dfyconfig.toml` to check it.

| module | file | models |
|---|---|---|
| Kick | kick.dfy | the lock, event and thread-handle protocol between kickers and the background drain, step by step |
| Jobs, Draining, Lease | jobs.dfy, draining.dfy, lease.dfy | the job queue as a class; running it down; the same queue under many workers, time and worker death |
| Store, Reconcile | store.dfy, reconcile.dfy | documents, chunks and the upload's reconcile; what a sync leaves behind |
| Ingest, Agreement, Keys, Quota, Runs | ingest.dfy, agreement.dfy, keys.dfy, quota.dfy, runs.dfy | ingestion as a state machine with a two-transaction handler; when exactly the index agrees; idempotency keys and liveness; the caps over whole runs; runs from the start into what is not guarded against |
| Search | search.dfy | principals and access-scoped nearest-neighbour search |
| Normalize, Grammar, Defusing | normalize.dfy, grammar.dfy, defuse.dfy | folding with its offset map; the three expressions; replacing what they match |
| Fences, Prompt | fences.dfy, prompt.dfy | scanning fences; rendering the user turn, the round trip between the two, the leak check |
| Assistant, Ledgers, OrgBudget, Removals | assistant.dfy, ledger.dfy, orgbudget.dfy, removals.dfy | one metered answer stream under every ending; both ledgers under many streams; what the limits of one org come to; how removals get around them |
| Chunking, SseReader, RateLimit, Eviction | chunking.dfy, sse.dfy, ratelimit.dfy, eviction.dfy | the chunker, the browser's frame reader, the token bucket, and what its eviction costs |
| Membership, Races, RaceRuns | membership.dfy, races.dfy, raceruns.dfy | orgs, users, memberships and groups under any sequence of operations; the same operations read by read and write by write, interleaved; runs in which requests overtake checks |
| Text, Sums, Chains | text.dfy, sums.dfy, chains.dfy | strings as Python sees them, sums over rows, and what holds along a run |

Conventions. Tables are maps and a transaction is one step, except where the code itself splits
one piece of work over several transactions or statements: the ingest handler, the enqueue that
follows a sync, the three limits a question is measured against, and every operation on members,
groups and orgs, whose session, reads and write are separate steps in Races. Code that changes
fields in place is a class whose methods are proved against functions of the old state; protocols
with interleaving are state machines over their steps with theorems over whole runs. Times, costs
and tokens are reals. Unicode enters as an abstract alphabet (`Normalize.Alphabet`) with the few
laws of `Grammar.Sane`, which plain ASCII meets (`Grammar.AsciiIsSane`). Content hashing is taken
to be injective, and embeddings and distances are abstract.

## Where the code and its documentation differ

Each of these follows the code; the lemma named gives the exact condition, or an input on which
the documented claim fails.

- `original_span` says that an empty span and a span to the end both fall back to the original
  length. The second holds exactly when the last character is visible (`Normalize.SpanToEndIff`),
  the first only behind the last folded character (`Normalize.EmptySpan`).
- `seconds_until_due` says zero means a job is due now. A lease exactly at its edge gives zero and
  cannot be claimed yet (`Jobs.WaitIsExact`, `Jobs.ZeroWaitAtTheEdge`).
- `unfenced_untrusted` says it should always return an empty list. It reports a fully fenced path
  that repeats the preamble's own words (`Prompt.LeakCheckCanFire`).
- `chunk_text` accepts a negative overlap, and then covers the text only if one window does
  (`Chunking.CoverageIff`).
- `retry_after` is exact if and only if the rate is positive and the burst at least one
  (`RateLimit.RetryIsExactIff`), and an evicted bucket equals a full one if and only if an hour's
  refill covers the burst (`RateLimit.EvictionInvisibleIff`). If it does not, the limiter keeps to
  a burst an hour rather than to its rate (`RateLimit.RateBound`, `Eviction.AlwaysKeepsRateIff`).
- The worker says a kick cannot be lost. That holds as long as the drain does not raise
  (`Kick.NoLostWakeup`); a kick between the exception and the clearing of the handle is lost
  (`Kick.KickIsGoodIff`, `Kick.LostKick`).
- The queue relies on no job being claimed from a live worker that has outstayed the stale window.
  Until that happens one worker holds a job, marks land on running jobs and finished rows never
  change (`Lease.LeaseSafety`, `Lease.MarksLandOnRunning`, `Lease.FinishedIsFinal`); workers that
  all mark in time are more than enough (`Lease.InTimeIsNeverOverdue`). A job has one holder
  throughout if and only if it never happens (`Lease.OneHolderIff`), and endings last if and only
  if no mark contradicts one (`Lease.EndingsLastIff`), which takes such a claim before it
  (`Lease.ContradictionHasOverdueClaim`, `Lease.LateMarkRevives`).
- The handler's second transaction does not recheck the document. The index agrees throughout a
  run if and only if at each such write what was read still fits (`Agreement.AlwaysAgreesIff`); an
  ACL change in between breaks it (`Ingest.AclChangeBetween`, `Runs.AclRun`). Marking a dead job's
  document failed does not check that it still exists as such (`Ingest.RevivedTombstone`,
  `Runs.TombstoneRun`).
- The storage caps are checked by uploads only. They hold over a run if no deleted document is
  revived (`Quota.CapsHoldInRuns`), and a mark that revives one breaks them exactly at the document
  cap (`Quota.MarkKeepsCapsIff`).
- An upload that returns to bytes whose job is over within one revision is counted as enqueued and
  has no job (`Keys.UploadHasJobIff`, `Keys.ReturnIsStuck`, `Runs.ReturnRun`, `Runs.RetryRun`).
- When an upload names a path twice, the last item does not always win
  (`Reconcile.LastUploadWinsIff`).
- A stream that nothing else disturbs shows exactly one terminal frame if and only if its provider
  sends one usage frame and does not raise, or raises without having sent one
  (`Assistant.OneTerminalIff`). A Claude refusal shows two and is charged once
  (`Assistant.RefusalShowsTwo`).
- Answers do not add up to platform spend once an org or a member's account has been deleted,
  unless the deleted answers cost nothing (`Ledgers.LiveAddsUpIff`,
  `Ledgers.DeletionConservesIff`).
- The per-org limits are read off answers that go with the member who asked. What an org's rows
  show stays under a bound (`OrgBudget.OrgOvershoot`, `OrgBudget.MonthlyOvershoot`); what it does
  need not, if it removes members (`OrgBudget.SeesAllIff`, `OrgBudget.CountsAllIff`,
  `OrgBudget.RemovalFreesIff`, `Removals.RemovalsUnbound`).
- Requests check first and write later, and other requests come in between. Three promises then
  depend on what a write finds: every org keeps an owner if and only if no write ousts the only
  one (`Races.AlwaysOwnedIff`, `RaceRuns.RaceRun`); orgs gain owners only by their owners if and
  only if nothing that makes an owner, a promotion or a new member, is written for somebody who
  has lost ownership (`Races.OnlyOwnersMakeOwnersIff`, `RaceRuns.StalePromotionRun`,
  `RaceRuns.StaleOwnerRun`); and every user has a membership, so that no email stays taken for
  nobody, if and only if no deletion of an org finds a member it has not listed
  (`Races.AlwaysPlacedIff`, `RaceRuns.StrandRun`). Keys, names and group members stay in order
  whatever comes in between (`Races.RunBase`).

## Model

| member | source | states |
|---|---|---|
| Kick.NoLostWakeup | knowledge_desk/worker.py:40-91 | for any number of kickers and any interleaving without a crash, a job committed before a completed kick and still unfinished has a registered drain that will look at the queue before it waits, or waits on a look that saw the job, or has the event set |
| Kick.StepKeeps | knowledge_desk/worker.py:51-91 | every step, crash steps included, keeps the protocol's invariant: handle, lock, event and coverage |
| Kick.OneDrain | knowledge_desk/worker.py:87-91 | at most one drain has not left, and the handle names it, also when drains crash |
| Kick.CoveredIffHealthy | knowledge_desk/worker.py:71-79 | with crashes, a promised unfinished job is covered exactly when a drain is registered that has not raised |
| Kick.KickIsGoodIff | knowledge_desk/worker.py:82-91 | a completed kick leaves a healthy drain exactly when the drain it found had not raised |
| Kick.LostKick | knowledge_desk/worker.py:75-79 | a reachable run in which a kick in the crash window is lost |
| Kick.StrandedIff | knowledge_desk/worker.py:71-91 | from a state without a registered drain on, however the run continues, nobody drains the queue exactly as long as no kick gets to check the handle |
| Kick.StepsAdvance | knowledge_desk/worker.py:51-68 | while a promised job is unfinished every step of the drain brings it one closer to running jobs, and nobody else sets it back |
| Kick.NeverStuck | knowledge_desk/worker.py:51-91 | a healthy drain can always move, or the kick that holds the lock can |
| Jobs.JobQueue.Enqueue | knowledge_desk/jobs.py:27-50 | a new row exactly when the key is new, otherwise no change; keys stay unique |
| Jobs.JobQueue.ClaimOne | knowledge_desk/jobs.py:53-75 | claims an oldest due row exactly when one is due, counting the attempt |
| Jobs.JobQueue.SecondsUntilDue | knowledge_desk/jobs.py:78-98 | nothing exactly when every job is finished, else the time to the earliest due time, at least zero |
| Jobs.JobQueue.MarkSucceeded | knowledge_desk/jobs.py:101-107 | the row succeeds whatever its status was, a missing row is ignored |
| Jobs.JobQueue.MarkFailed | knowledge_desk/jobs.py:115-139 | dead when attempts are used up or the row is missing, otherwise queued after the backoff |
| Jobs.BackoffSeconds | knowledge_desk/jobs.py:110-112 | two to the number of attempts up to the eighth, and the cap of 300 seconds exactly from the ninth on |
| Jobs.NoWaitIff | knowledge_desk/jobs.py:78-84 | no wait is reported exactly when nothing would become claimable at any later time |
| Jobs.WaitIsExact | knowledge_desk/jobs.py:53-98 | nothing is claimable before the reported wait is over, something always after it, and at its very end exactly unless all that is due is a lease at its edge |
| Jobs.ZeroWaitAtTheEdge | knowledge_desk/jobs.py:69-98 | a queue that reports zero and hands nothing out |
| Draining.RunNext | knowledge_desk/ingest.py:199-213 | one claim, handler run and mark uses up at least one run of the queue's total and touches nothing finished |
| Draining.RunPending | knowledge_desk/ingest.py:194-216 | the counts add up, the total of runs left falls by at least the runs made, and it stops short of the limit only when nothing is claimable |
| Draining.Drain | knowledge_desk/worker.py:40-68 | terminates, runs handlers at most as often as the queued jobs had attempts left, and returns only with every job finished unless asked for one pass |
| Draining.WaitedOut | knowledge_desk/worker.py:62-68 | with no job running, waiting out the reported time makes a job claimable |
| Draining.NothingLeftIff | knowledge_desk/jobs.py:115-139 | the total of runs left is zero exactly when no job is queued |
| Lease.StepKeeps | knowledge_desk/jobs.py:27-139 | every step that claims nothing from an overdue worker keeps: one holder per job, held jobs running since their claim, attempts within the maximum and the deaths |
| Lease.LeaseSafety | knowledge_desk/jobs.py:53-75 | until a claim takes a job from an overdue worker, at most one live worker holds a job, a queued job has attempts to spare, and claims are at most the maximum and the deaths |
| Lease.MarksLandOnRunning | knowledge_desk/jobs.py:101-139 | until then every mark lands on a job running since the marking worker's claim |
| Lease.FinishedIsFinal | knowledge_desk/jobs.py:53-75 | until then a succeeded or dead row never changes in any column |
| Lease.InTimeIsNeverOverdue | knowledge_desk/config.py:49-52 | workers that mark within the stale window are enough for that |
| Lease.FinishedChangesIff | knowledge_desk/jobs.py:101-139 | in any world, a step changes the status of a finished row exactly if it is a mark by a holder that contradicts how the row ended |
| Lease.EndingsLastIff | knowledge_desk/jobs.py:101-139 | in every run, whatever the workers do, finished jobs keep their status for good if and only if no mark contradicts an ending |
| Lease.ContradictionHasOverdueClaim | knowledge_desk/config.py:49-52 | every such mark is preceded by a claim of some job from an overdue worker |
| Lease.FirstDoubleHold | knowledge_desk/jobs.py:57-75 | whatever the workers do, a job first gets a second live holder in, and only in, the step that claims it from one past the stale window |
| Lease.OneHolderIff | knowledge_desk/config.py:49-52 | no job ever has two live holders if and only if no claim takes one from an overdue worker |
| Lease.OrphanedIff | knowledge_desk/jobs.py:57-62 | a running job comes to be in nobody's hands exactly in the step in which its holder dies |
| Lease.OrphanHasADeath | knowledge_desk/jobs.py:57-62 | until a claim takes a job from an overdue worker, every running job in nobody's hands was left by a worker that died with it, untouched since |
| Lease.OrphanIsDueIff | knowledge_desk/jobs.py:57-74 | such a job is due again exactly from the end of the window of the dead worker's claim |
| Lease.LateMarkRevives | knowledge_desk/config.py:49-52 | a run with one late worker whose job is claimed from it: two hold the job and a succeeded job returns to the queue |
| Store.Database.SyncDocuments | knowledge_desk/ingest.py:34-142 | refuses over a cap and changes nothing, otherwise upserts item by item against the rows as first read, then drops what is missing; counts and owed keys as specified |
| Store.Database.UpsertItems | knowledge_desk/ingest.py:65-111 | the upload loop computes its specification item by item and keeps the unique index |
| Store.Database.DropRows | knowledge_desk/ingest.py:113-130 | each dropped row becomes an empty tombstone of the next revision and loses its chunks; the count is their number |
| Reconcile.ReconcileLive | knowledge_desk/ingest.py:34-142 | with distinct paths the live texts of the source are exactly the uploaded ones |
| Reconcile.UploadIsLiveIff | knowledge_desk/ingest.py:75-83 | without assuming hashes, an uploaded text is live exactly if its row was rewritten or already held it |
| Reconcile.LastUploadWinsIff | knowledge_desk/ingest.py:65-105 | for a repeated path, when exactly its last item decides |
| Reconcile.RowReconciled | knowledge_desk/ingest.py:65-130 | the row at every place of every source after the sync |
| Reconcile.CountsAddUp | knowledge_desk/ingest.py:82-111 | enqueued and unchanged add up to the items, with one owed key per enqueued item |
| Reconcile.DroppedIff | knowledge_desk/ingest.py:113-130 | the rows counted as deleted are exactly the live ones of the source whose path is gone |
| Reconcile.OthersUntouched | knowledge_desk/ingest.py:56-130 | other sources and orgs keep every row and chunk |
| Reconcile.RepeatIsNothing | knowledge_desk/ingest.py:77-83 | repeating the upload once all is ingested changes nothing and enqueues nothing |
| Reconcile.CapsHold | knowledge_desk/tenancy.py:233-268 | right after a sync that passes the check, live documents and bytes are within the caps |
| Quota.CapsHoldInRuns | knowledge_desk/tenancy.py:245-268 | in every state of a run whose syncs pass the check and whose marks revive no deleted document of the org, it is within both caps |
| Quota.MarkKeepsCapsIff | knowledge_desk/ingest.py:219-225 | a mark takes an org over its caps exactly if it hits a deleted document while the org is at its document cap |
| Quota.MarkWeight | knowledge_desk/ingest.py:185-188 | a status set without looking adds to the live total exactly the deleted row it hits |
| Ingest.IndexAgreement | knowledge_desk/ingest.py:145-188 | in every run in which no handled document is written between its two transactions, ingested documents have exactly the pieces of their text with their ACL, deleted ones none |
| Ingest.IndexAgreementOfChunker | knowledge_desk/ingest.py:158-188 | the same spelled out for the shipped chunker |
| Ingest.StepKeeps | knowledge_desk/ingest.py:124-188 | each step of sync, handler, failure, ACL change and deletion keeps agreement |
| Agreement.AlwaysAgreesIff | knowledge_desk/ingest.py:145-188 | whatever is written between the transactions of whatever handlers: the index agrees in every state of a run if and only if at every second transaction the text still chunks, and the ACL still is, as read |
| Ingest.WriteAgreesIff | knowledge_desk/ingest.py:175-188 | the second transaction leaves the document indexed exactly when its text still chunks alike and its ACL is still the one read, or there are no chunks |
| Ingest.AclChangeBetween | knowledge_desk/ingest.py:150-188 | an ACL change between the transactions leaves an ingested document whose chunks carry the old ACL |
| Ingest.SyncKeepsIndex | knowledge_desk/ingest.py:113-130 | a sync keeps agreement, tombstones losing their chunks |
| Ingest.AclKeepsIndex | knowledge_desk/tenancy.py:343-359 | an ACL change reaches the document and all its chunks |
| Ingest.MiscountNeverWrites | knowledge_desk/ingest.py:161-188 | however a run goes on, a handler run whose batch had the wrong number of vectors never reaches its second transaction |
| Ingest.BuildRows | knowledge_desk/ingest.py:170-173 | one row per piece in order, or an error exactly if the lengths differ |
| Ingest.ProcessIngestDocument | knowledge_desk/ingest.py:145-188 | undisturbed, it raises exactly if the embedder fails or miscounts and then writes nothing, skips missing and deleted documents, and otherwise replaces the chunks |
| Ingest.ReplaceChunks | knowledge_desk/ingest.py:175-188 | the row by row insert amounts to replacing all chunks of the document at once |
| Ingest.RunKeepsHashes | knowledge_desk/ingest.py:85-105 | rows that are not tombstones carry the hash of their own text, in runs that mark no deleted document failed |
| Ingest.SyncIsExact | knowledge_desk/ingest.py:34-142 | so in such runs every sync with distinct paths leaves exactly the uploaded texts live |
| Ingest.RevivedTombstone | knowledge_desk/ingest.py:219-225 | any tombstone marked failed and then ingested by a leftover job takes the old bytes for no change and stays empty |
| Runs.TombstoneRun | knowledge_desk/ingest.py:211-225 | a run from the start that does it: upload, change, drop, dead job, leftover job, and the last upload is lost |
| Runs.AclRun | knowledge_desk/ingest.py:150-188 | a run from the start into an ingested document whose chunks carry an old ACL |
| Keys.RunKeepsKeys | migrations/0014_document_revision.sql:16-22 | no key ever enqueued is ahead of its document's revision, and all are behind it while the document is deleted |
| Keys.UploadAfterDropIsNew | knowledge_desk/ingest.py:107-111 | the first upload after a deletion comes under a key never enqueued, whatever its bytes |
| Keys.PendingHasJob | knowledge_desk/ingest.py:107-140 | where no upload returns to bytes whose job is over, every pending document has an unfinished job for its current hash and revision |
| Keys.UploadHasJobIff | knowledge_desk/jobs.py:37-50 | an upload to an existing row ends with an unfinished job exactly if the job of its key is not finished |
| Keys.ReturnIsStuck | knowledge_desk/ingest.py:132-140 | returning to a finished key with nothing else open leaves the document pending with nothing that can be begun |
| Runs.ReturnRun | knowledge_desk/ingest.py:107-140 | a run from the start in which a text is uploaded, replaced and uploaded again, each ingested before the next, and the last stays pending with nothing open |
| Runs.RetryRun | knowledge_desk/ingest.py:107-140 | a run from the start in which a failed document is uploaded again unchanged and stays pending with nothing open |
| Search.PrincipalsIff | knowledge_desk/tenancy.py:395-409 | a user entry admits exactly that user, a group entry exactly the group's members in its own org |
| Search.CandidatesIff | knowledge_desk/tenancy.py:449-451 | given agreement, filtering on the chunk's copy ranks exactly the pieces of the visible documents |
| Search.Search | knowledge_desk/tenancy.py:433-454 | returns the k nearest permitted rows in order, or all if there are fewer |
| Search.SearchRefines | knowledge_desk/tenancy.py:433-454 | every hit is a piece of a visible document, and a visible piece left out means k hits, none farther |
| Search.AnswersAgree | knowledge_desk/tenancy.py:452 | any two answers agree on every distance, and are equal where distances are |
| Search.HiddenChangesDoNotShow | knowledge_desk/tenancy.py:434-438 | a document the caller may not see can change in any way without changing an answer |
| Normalize.Fold | knowledge_desk/normalize.py:125-140 | the loop computes the folded text and its map |
| Normalize.OriginIsExact | knowledge_desk/normalize.py:129-131 | each entry of the map is the visible character its folded one came from, in order |
| Normalize.OriginMissesNothing | knowledge_desk/normalize.py:129-131 | every visible character has its entry |
| Normalize.SpanToEndIff | knowledge_desk/normalize.py:146-154 | a span to the end maps to the original length exactly when the last character is visible |
| Normalize.EmptySpan | knowledge_desk/normalize.py:146-154 | what an empty span maps to, in each of the three cases |
| Normalize.MappedSpansInOrder | knowledge_desk/normalize.py:143-154 | sorted disjoint matches map to sorted, disjoint, non-empty spans in bounds |
| Normalize.ReplaceFolded | knowledge_desk/normalize.py:157-165 | replacing right to left keeps all text outside the spans in order |
| Normalize.FoldCommutesWithSplice | knowledge_desk/providers.py:158-165 | folding the replaced original equals the folded text with each match replaced |
| Grammar.MatcherSound | knowledge_desk/providers.py:112-127 | every match reported is one the expression allows |
| Grammar.MatcherComplete | knowledge_desk/providers.py:112-127 | wherever the expression allows a match one is reported, and the longest |
| Defusing.FindAllComplete | knowledge_desk/providers.py:161 | scanning reports sorted, disjoint, non-empty matches and leaves none behind |
| Defusing.SpansEmptyIff | knowledge_desk/providers.py:130-137 | the search finds nothing exactly when the expression matches nowhere |
| Defusing.SpliceClean | knowledge_desk/providers.py:152-154 | replacing matches creates none: no marker completes, opens or lengthens one |
| Defusing.Defuse | knowledge_desk/providers.py:140-166 | the loop over the expressions computes the three passes and their count |
| Defusing.DefuseOne | knowledge_desk/providers.py:157-165 | fold, match, map back and replace, for one expression |
| Defusing.PassRemoves | knowledge_desk/providers.py:152-154 | after its pass an expression matches nowhere in the folded text |
| Defusing.PassPreserves | knowledge_desk/providers.py:152-154 | a pass creates no match of an absent other expression |
| Defusing.DefuseSettles | knowledge_desk/providers.py:152-154 | one pass per expression is enough: none matches the folded result |
| Defusing.DefuseIdempotent | knowledge_desk/providers.py:140-166 | a second defusal returns the same text with count zero |
| Defusing.CountIsZeroIff | knowledge_desk/providers.py:140-166 | the count is zero, and the text unchanged, exactly when no expression matches |
| Fences.FindIsFirst | knowledge_desk/providers.py:302-303 | a find reports the first occurrence at or after its start, or none |
| Fences.OutsideFenced | knowledge_desk/providers.py:301-309 | a contained fence at the front is cut out and the scan goes on behind it |
| Fences.InsideFenced | knowledge_desk/providers.py:301-309 | its contents are found unchanged, followed by those of the rest |
| Fences.NoFenceIff | knowledge_desk/providers.py:299-309 | there are no fences exactly when no open tag is followed by a close tag, and then all is outside |
| Prompt.FenceRoundTrip | knowledge_desk/providers.py:319-338 | scanning a built prompt gives the preamble's pair, each passage as rendered, and the question's own scan; outside is fixed text and the question's outside |
| Prompt.OnlyOurFencesIff | knowledge_desk/providers.py:227-247 | the fences are exactly the application's if and only if the question holds no open tag followed by a close tag |
| Prompt.OneFencePerPassage | knowledge_desk/providers.py:242-247 | then there is one fence per passage besides the preamble's, each holding that passage |
| Prompt.DefusedHasNoTag | knowledge_desk/providers.py:92-127 | defused text contains neither tag of any nonce |
| Prompt.BodyContained | knowledge_desk/providers.py:235-245 | a rendered body closes no fence and cannot begin a close tag that ends beyond it |
| Prompt.CollectOutside | knowledge_desk/providers.py:301-309 | the scanning loop collects exactly the text outside every fence |
| Prompt.UnfencedUntrusted | knowledge_desk/providers.py:259-316 | without a fence all non-empty fields, otherwise exactly those sharing a run with the outside |
| Prompt.LeakCheckOfUserTurn | knowledge_desk/providers.py:259-316 | on any built prompt it reports exactly the fields sharing a run with the fixed text or what the question shows outside fences of its own |
| Prompt.LeakCheckCanFire | knowledge_desk/providers.py:264 | so it can report a field that is fully fenced |
| Prompt.CountDefusedZeroIff | knowledge_desk/providers.py:174-183 | the count over all passages is zero exactly when none carries a piece of the grammar |
| Assistant.AnswerStream.Run | knowledge_desk/assistant.py:50-201 | what surrounds a stream decides every frame, every event taken, how it ends and what both ledgers receive, wherever it is closed and whatever raises |
| Assistant.AnswerStream.Body | knowledge_desk/assistant.py:68-162 | the try block, every way out of it |
| Assistant.AnswerStream.Relay | knowledge_desk/assistant.py:130-162 | every event of the provider is taken, booked and shown unless a booking fails or the caller closes, and the loop ends in no other way |
| Assistant.AnswerStream.Finish | knowledge_desk/assistant.py:182-201 | an estimate is booked exactly if something streamed and nothing was booked |
| Assistant.AnswerStream.Refuse | knowledge_desk/assistant.py:70-85 | a blocked question is recorded and marked, shown two frames unless closed, and takes and books nothing |
| Assistant.ChargedIff | knowledge_desk/assistant.py:66-201 | while the ledger answers, a question is charged exactly if it gets past the limits, retrieval and the first two frames to a provider that sends something, and once under at most one usage frame |
| Assistant.BookedIff | knowledge_desk/assistant.py:182-200 | booked at all exactly if a token was taken or usage arrived, more than once exactly on more than one usage frame, estimated exactly on none |
| Assistant.BookedAtMostOnce | knowledge_desk/assistant.py:130-200 | at most once under at most one usage frame, also when bookings fail |
| Assistant.TerminalFrames | knowledge_desk/assistant.py:130-181 | a stream read to its end shows one terminal frame per booked usage frame and one if something raised |
| Assistant.OneTerminalIff | knowledge_desk/providers.py:6-8 | undisturbed, exactly one if and only if the provider sends one usage frame and does not raise, or raises without one |
| Assistant.RefusalShowsTwo | knowledge_desk/providers.py:432-453 | a refusal behind the usage frame is charged once and shows two terminal frames |
| Assistant.RefusedAsk | knowledge_desk/main.py:375-379 | the same of a stream that is run |
| Ledgers.Conservation | knowledge_desk/tenancy.py:481-505 | over any interleaving, deletions of orgs and accounts included, platform spend over all days equals everything booked, and each row left shows its booking |
| Ledgers.LiveAddsUpIff | migrations/0004_answers.sql:5-14 | the answers left fall short of platform spend by what was booked for those gone, so they add up exactly if none of these had been charged |
| Ledgers.DeletionConservesIff | knowledge_desk/tenancy.py:220-229 | deleting an org or an account keeps the two as far apart as they were exactly if the answers taken cost nothing in total |
| Ledgers.ConservationWithoutDeletion | knowledge_desk/tenancy.py:498-505 | while no org and no account is deleted the answers themselves add up to platform spend |
| Ledgers.Overshoot | knowledge_desk/assistant.py:35-47 | any day's spend stays below the budget plus the cost of the streams in flight, across a day change too |
| Ledgers.FinalizeConservesIff | knowledge_desk/tenancy.py:492-505 | finalising moves both ledgers alike exactly if the answer had not been charged |
| OrgBudget.OrgOvershoot | knowledge_desk/tenancy.py:514-523 | at every moment of every run an org's answers of the last 24 hours come to less than its budget plus what its streams in flight can cost |
| OrgBudget.MonthlyOvershoot | knowledge_desk/tenancy.py:535-544 | of the questions let through in a month those still recorded exceed the cap by less than the org's streams in flight |
| OrgBudget.CountsAllIff | knowledge_desk/tenancy.py:535-544 | the cap counts all questions asked in the month if and only if none of their rows is gone |
| OrgBudget.SeesAllIff | knowledge_desk/tenancy.py:514-523 | the limit sees all that was charged in the window if and only if no answer of the window that is gone had been charged |
| OrgBudget.RemovalFreesIff | knowledge_desk/tenancy.py:205-229 | removing a member takes exactly that member's spend out of the window, and lifts the daily limit exactly if the rest is below it |
| Removals.RemovalsUnbound | knowledge_desk/assistant.py:35-47 | for every number and every cost there is a run in which an org gets that many questions through and is charged for each, at one moment, and shows neither spend nor questions, as long as the service's budget allows |
| Chunking.ChunkText | knowledge_desk/chunking.py:11-31 | defaults, the two errors, and the pieces of the stripped text |
| Chunking.ChunkLoop | knowledge_desk/chunking.py:23-31 | the loop with its early break computes the pieces of all windows |
| Chunking.PiecesAreStrippedWindows | knowledge_desk/chunking.py:25-28 | the pieces are the stripped, non-blank windows in order |
| Chunking.WindowAt | knowledge_desk/chunking.py:25-30 | each window opens a step after the one before, and the break fires exactly on the one that reaches the end |
| Chunking.WindowAddsText | knowledge_desk/chunking.py:23-30 | every later window is longer than the overlap |
| Chunking.WindowsRejoin | knowledge_desk/chunking.py:23-30 | dropping each overlap and joining gives the text back |
| Chunking.ShortRunInOneWindow | knowledge_desk/chunking.py:23-30 | any run of at most overlap and one characters lies in one window |
| Chunking.CoverageIff | knowledge_desk/chunking.py:14-30 | every character is in a window if and only if the overlap is not negative or one window suffices |
| Chunking.ChunksBounded | knowledge_desk/chunking.py:19-31 | pieces are non-empty and at most a window long, and there are none exactly for blank text |
| SseReader.AskStream | frontend/src/api.ts:127-140 | however the text is cut into reads, the events are those of parsing it whole |
| SseReader.ReadAdvances | frontend/src/api.ts:133-135 | buffered text and one more read split like the whole text |
| SseReader.DeliverFrames | frontend/src/api.ts:136-139 | events are handed on in order up to the first payload that does not parse |
| SseReader.RoundTrip | knowledge_desk/main.py:375-377 | newline-free payloads printed by the server come back unchanged and in order |
| RateLimit.TokenBucketLimiter.Check | knowledge_desk/ratelimit.py:37-60 | sweep, refill, decide and store, as specified over the table |
| RateLimit.TokenBucketLimiter.EvictIdle | knowledge_desk/ratelimit.py:32-35 | removes exactly the buckets idle for an hour |
| RateLimit.RateBound | knowledge_desk/ratelimit.py:45-60 | any stretch of calls allows one key at most the burst and what accrues in it, whatever other keys do; what accrues is counted at the configured rate, or at a burst an hour if the limiter evicts and that is more |
| Eviction.AlwaysKeepsRateIff | knowledge_desk/ratelimit.py:23-53 | with a whole burst, an evicting limiter keeps to its configured rate in every run if and only if an hour's refill covers the burst |
| Eviction.TwoBursts | knowledge_desk/ratelimit.py:32-53 | the run that breaks it: enough other keys, a burst, a pause of just over an hour, and a second full burst |
| RateLimit.RetryIsExactIff | knowledge_desk/ratelimit.py:58-60 | a refused key left alone succeeds exactly from the reported time on, if and only if the rate is positive and the burst at least one |
| RateLimit.EvictionInvisibleIff | knowledge_desk/ratelimit.py:23-27 | dropping an idle bucket is invisible if and only if an hour's refill covers the burst |
| RateLimit.EvictionIsInvisible | knowledge_desk/ratelimit.py:49-53 | then the limiter answers every call as one that never evicts |
| Membership.AlwaysInv | knowledge_desk/accounts.py:30-92 | after any operations every user has one membership, every group member is in the group's org, every org has an owner |
| Membership.StepKeeps | knowledge_desk/tenancy.py:125-229 | each operation keeps that |
| Membership.OwnersGrowByOwners | knowledge_desk/tenancy.py:50-62 | an existing org gains an owner only in a step taken by one of its owners |
| Membership.OtherOrgsUntouched | knowledge_desk/tenancy.py:87-99 | no operation reaches another org's memberships, people or groups |
| Membership.RemovedEmailIsFree | knowledge_desk/accounts.py:218-248 | removing a member deletes the account and frees its email |
| Membership.OrgTakes | knowledge_desk/accounts.py:251-269 | deleting an org deletes exactly its members' accounts |
| Membership.SecondRemovalRefused | knowledge_desk/tenancy.py:205-229 | of two owners removing each other one after the other, the second has no session any more |
| Races.RunBase | knowledge_desk/tenancy.py:50-229 | over any interleaving of the reads and writes of any operations keys and names are unique, nobody belongs to two orgs, and every group member is in the group's org, though the membership was read before the seat was written |
| Races.WriteLeavesOwnerIff | knowledge_desk/tenancy.py:191-223 | whatever was read before, a write leaves its org owned exactly if it does not take ownership from the only owner at the moment of writing |
| Races.AtOnce | knowledge_desk/tenancy.py:50-229 | with nothing in between, the reads and the write of any request are its operation as one step, and its checks rule the three bad writes out |
| Races.AlwaysOwnedIff | knowledge_desk/tenancy.py:184-229 | over any interleaving of any operations every org always has an owner if and only if no write finds its target the only owner |
| RaceRuns.OwnersRace | knowledge_desk/tenancy.py:184-229 | two owners ousting each other by removal or demotion, all checks first, both go through and leave none |
| RaceRuns.RaceRun | knowledge_desk/tenancy.py:184-229 | a run from the empty system that ends so, for every combination |
| Races.AlwaysPlacedIff | knowledge_desk/accounts.py:251-269 | over any interleaving of any operations every user always has a membership if and only if no deletion of an org finds a member of it outside the ids it has read |
| RaceRuns.StrandRace | knowledge_desk/accounts.py:251-269 | from any state, a member added between the listing and the deletion is left without a membership and the email stays taken |
| RaceRuns.StrandRun | knowledge_desk/accounts.py:251-269 | a run from the empty system in which that happens |
| Races.OnlyOwnersMakeOwnersIff | knowledge_desk/tenancy.py:50-62 | over any interleaving of any operations an org gains owners only by writes for those who own it at that moment if and only if no role change and no new member that makes an owner is written after its author has lost ownership |
| RaceRuns.PromotionRace | knowledge_desk/tenancy.py:184-203 | from any state with two owners: one demoted between check and write of either operation still makes an owner |
| RaceRuns.StalePromotionRun | knowledge_desk/tenancy.py:184-203 | a run from the empty system in which a demoted owner promotes a member |
| RaceRuns.StaleOwnerRun | knowledge_desk/main.py:159-164 | a run from the empty system in which a demoted owner adds an owner |
| Membership.Directory.CreateOrgWithOwner | knowledge_desk/accounts.py:30-53 | org, user and ownership together, or none of them on a conflict; the tables stay in order |
| Membership.Directory.AddMember | knowledge_desk/main.py:159-164 | only a new account, only by an admin, only with a role the caller may grant; the tables stay in order |
| Membership.Directory.SetMemberRole | knowledge_desk/tenancy.py:184-203 | if it goes through, somebody else's role was set by an admin of at least that rank, every other membership is as it was, the org still has an owner, and the tables stay in order |
| Membership.Directory.RemoveMember | knowledge_desk/tenancy.py:205-229 | if it goes through, an admin removed somebody else, whose account and seats are gone, every other membership is as it was, and the org still has an owner |
| Membership.Directory.DeleteOrg | knowledge_desk/accounts.py:251-269 | by an owner only; the org, its memberships and groups are gone, other orgs keep theirs, and exactly its members' accounts are gone |

## Left out

- SQL, connection pooling, row-level security and the vector index: tables are maps, and a claim that skips locked rows is one step.
- Embedding vectors and distance arithmetic: a vector is a number, a distance a real.
- Password hashing, tokens, sessions and nonce generation: a session is an acting user and org, a nonce any hex string.
- Floating point rounding and the price table: costs, tokens and seconds are reals.
- The Unicode tables: the alphabet is abstract. The matchers rely on letters, digits, spaces and the marker punctuation being kept apart and on ASCII folding to itself.
- Sorting in `replace_folded` and of the names in `unfenced_untrusted`: the one caller passes spans in order, and the report is a set.
- Email and slug normalisation: names arrive normalised.
- Adding to a group by email: the lookup of the address comes before the operation modelled here.
- PII detection, audit entries, output checks and tracing: best effort beside the state modelled here.
- The other drains and the failure to start a thread: one process, no second worker process in the kick protocol, and no exceptions outside `Exception`.
- The setting that turns the in-process drain off: a kick then promises nothing.
- The order in which the drain's own job steps interleave with others in the kick protocol: any job may finish at any moment there; Draining and Lease model the queue itself.
- A worker that dies between marking a job dead and marking its document failed: both are steps of the ingest model, but nothing there drops the second.
- The idempotency key of the ingest model is a triple, not the string built from it.
- The calendar: a day or a month turns at any moment, and the 24 hour window moves with the clock independently of it.
- `mark_succeeded` whose commit succeeded but was reported as failed: a failed mark is taken not to have landed, and the handler run then counts as failed.
- A `finalize_answer` whose commit succeeded but was reported as failed: a failed call is taken to have rolled back.
- Statements of other transactions between those of one transaction, outside Races: a sync, an ACL change, the handler's second transaction and a booking are one step each. Syncs of one org exclude each other by a lock.
- The foreign keys of an answer being recorded: in Ledgers a row may still be recorded for an account that has just been removed.
- The admin check of `sync_source`, `update_document_acl` and `delete_document`: membership roles are modelled in Membership only.
- UTF-8 decoding, `fetch` and abort signals in the browser: the reader works on decoded text.
- HTTP routes, middleware, the React client, the Claude, Voyage and Langfuse clients, migrations, seeding, benchmarks and evaluations.
