# Authorization letters: a verified model

The service collects a customer's answers and files for one business case, lets the customer sign a rendered preview,
has a reviewer approve the material, and finally renders, stores and confirms one PDF. This project models the service
around one such case and proves what holds of it over every run.

## What is modelled

- **Rows and transactions.** `CaseModel` holds the rows a case owns (drafts, files, signings, reviews, links, history, PDF
  task, outbox). `CaseTransactions` and `PdfTransactions` give every database transaction as a function: the rows after the
  commit, or the refusal. The classes in `CaseDatabase`, `CaseServices`, `FileServices`, `ReviewServices` and `PdfServices`
  are the services themselves, statement by statement over mutable tables, proved to do exactly what those functions say.
- **The protocol.** `System` is the whole service: the rows, staging and content-addressed files, any number of render
  workers stopped between any two awaits, clients between the two phases of a verified commit, and a clock. A run is any
  list of steps: a transaction, one await of one worker, a throw, a crash, or the passing of time. `PdfWorkers` and `Storage`
  are the worker and the file store in imperative form; each of the worker's methods is proved to be one step of `System`.
- **The invariant.** `CaseInvariants` and `SystemInvariants` say what holds in every reachable state; `CaseProofs`,
  `PdfProofs`, `SystemProofs` and `WorkerProofs` prove it step by step, and `Evolution` and `Leases` prove what may change
  between any two states of a run. `PdfTheorems`, `PdfProgress`, `CaseTheorems`, `SignedContent`, `VerifyCommit`,
  `PlacementChain` and `StoredOutput` draw the consequences. `CacheQuiet`, `DeliveryRoom` and `Completion` decide which
  cases can still be completed. `CompletedRun`, `FullCase` and `SupplementRun` exhibit reachable completed, stranded,
  abandoned and full cases, a failed one whose retry is refused, and one that was sent back and signed anew with a seal.
- **The rules of each operation.** `LinkRules`, `DraftRules`, `SigningRules`, `ReviewRules`, `MaterialRules`, `EvidenceSum`,
  `LeaseTime` and `DeliveryRules` say in the users' terms, with the numbers written out, when an operation is accepted, what
  it leaves, and what stays of it over every run; `StepEffects` says which tables a worker can touch.
- **Documents.** `StablePrinter`, `StableProofs` and `ContentDigest` treat the canonical printer, the content digest and the
  two task keys. `SliderMapping`, `PlacementFacts`, `PlacementChain`, `TemplateAst`, `TemplateProofs`, `TemplateRules`,
  `TemplatePublish` and `PdfDocument` follow a signature from the client's sliders through the published template to the
  pages of the final document.

## Assumptions

- One `$transaction` is one atomic step. That is what the Serializable ones are; for closing, confirming, claiming,
  completing, retrying and recording a delivery failure, which run at the default isolation level, it is an abstraction.
- Time never runs backwards, lease tokens are fresh, published templates and snapshots never change, counters start at 0.
- SHA-256 is any function. Where two different bodies or printed texts must not share a hash, the theorem says so
  (`CollisionFree`, `Injective`). The finalizer's fingerprint stands for the values it hashes.
- Rendering may return any bytes of the set `Env.renders`; the PDF parser accepts any set `Env.parses`. The size limit and
  the `%PDF-` and `%%EOF` checks around it are modelled, at every place where the worker and the finalizer make them.
- A broker may answer any send with an id, with nothing, or not at all; a job or an event may be delivered any number of
  times, at any time.
- Inspecting the event and reading its stored bytes is one step of a run, the commit a later one; the four reads of the
  finalizer one by one are `PdfServices.PdfFinalizationService.Finalize`.
- A draft or signing version is its position in the table plus one; a file record has one version; a case has one snapshot.

## What the code does differently from what one might expect

- As long as the store loses no preview, a case that has a task can still be completed exactly when it is not closed, the
  task's signing is valid, the template asks for a signature, and its PDF has room: the staged bytes, or before anything is
  staged some readable rendering, fit beside all retained bytes under a storage key nobody took
  (`Completion.CompletableExactly`). A preview whose bytes are found corrupt is dropped, which frees its bytes unless a
  signing pins it; `Completion.CompletableWithFaultsExactly` is the condition over all runs. What can go wrong:
  - An upload or a removal asks for a live link but not for an editing status, so it can take the signing away at any time
    after confirmation; whatever the task's status, no run completes the case then (`PdfProgress.UploadLosesCase`,
    `PdfProgress.RemovalLosesCase`, `PdfProgress.LostSigningNeverCompletes`).
  - If the task is then queued, or claimed by a worker that crashed, it is never touched again and the case stays FINALIZING
    until it is closed: a claim looks at the signing before the lease (`PdfProgress.ExpiredIsRecovered`,
    `PdfProgress.StrandedForEver`, `CompletedRun.StrandedIsReachable`, `CompletedRun.AbandonedIsReachable`).
  - The upload of a signature image asks for no editing status either and leaves the signing valid, so after confirmation
    images can take the room the PDF needs; such a case is reachable (`FullCase.FullIsReachable`). Without a fault nothing
    frees retained bytes while the signing is valid, and staged bytes never change.
- `retry` refuses a PDF_FAILED case whose task succeeded and whose delivery is PENDING. A redelivery that fails without being
  terminal, after a terminal failure, leads there (`PdfProgress.RedeliveryBlocksRetry`, `CompletedRun.RefusedRetryIsReachable`).
  This state can be left: by one more terminal failure, after which retry is accepted
  (`PdfProgress.TerminalFailureUnblocksRetry`), or, with a valid signing, by a delivery (`StoredOutput.DeliveryCompletes`).
- `replaceLink` asks for no status, so a case that is over can get a link again; nothing else gives it one, and the link opens
  nothing (`LinkRules.EndClosesLinks`, `LinkRules.RelinkedExactly`, `CompletedRun.RelinkedIsReachable`,
  `LinkRules.ShutForEver`).
- The client rounds to thousandths, so for slots off that grid the server can refuse the client's own placement
  (`SliderMapping.OffGridSlotRefused`; `SliderMapping.CommandExactly` gives the exact condition for the whole command).
- The supplement check compares only the answers that are present, so it does not notice omitted ones
  (`SignedContent.SupplementPreservesExactly` gives the exact condition), and it never looks at the materials of the request,
  which a supplement may replace freely (`SignedContent.SupplementIgnoresMaterials`).
- Confirmation writes a colon-joined task key instead of the JSON-array key of the contracts package
  (`ContentDigest.ColonKeyExact` says when two tasks share one).
- The trigger `FileVersion_immutable` (prisma/migrations/20260805_chinese_workflow/migration.sql:339) refuses every update of a
  file version, while the preview cache clears `cacheActive` by an update. The model follows the service code. Where the
  trigger is installed a preview transaction that rotates is refused, and so is the drop of a corrupt preview. While a
  signing is valid no preview transaction rotates (`CacheQuiet.NothingRotatesWhileValid`), so there the trigger refuses only
  the drop, which the runs of `Completion.CompletableExactly` do not contain.

## Model

| member | source | states |
|---|---|---|
| WorkerProofs.Reachable | apps/worker/src/pdf/pdf-job.handler.ts:14-32 | every state of every run, under any interleaving of workers, clients, crashes, expiries and retries, satisfies the invariant `SysOk` |
| PdfTheorems.OneOutputForEver | apps/worker/src/pdf/pdf-job.repository.ts:55-69 | at most one FINAL_PDF row ever exists and a task's output, its bytes' hash and its key never change again |
| PdfTheorems.FirstStagedBytesWin | apps/worker/src/pdf/pdf-job.handler.ts:19-28 | a pending journal and the final output hash both equal the hash of the first bytes ever linked at the staging key, which never change and stay staged until the task is done |
| PdfTheorems.HolderJournals | apps/worker/src/pdf/pdf-job.repository.ts:70 | a worker's journal entry is accepted if and only if it still holds the lease; recovery never meets a different journal |
| PdfTheorems.HolderCompletes | apps/worker/src/pdf/pdf-job.repository.ts:55-69 | with a collision-free hash a lease holder's completion fails if and only if capacity or a taken storage key forbids it, never for a journal mismatch |
| PdfTheorems.OneHolder | apps/worker/src/pdf/pdf-job.repository.ts:44 | at most one worker passes the fence at any time |
| PdfTheorems.StaleForEver | apps/worker/src/pdf/pdf-job.repository.ts:44-71 | a worker that lost its lease never passes the fence again: no journal entry, completion or failure it sends in any later state changes a row |
| PdfTheorems.Accounting | apps/worker/src/pdf/pdf-job.repository.ts:32-44 | every task has three attempts; claimGeneration is exactly three times queueGeneration plus attempts; PROCESSING iff leased; QUEUED can be claimed; FAILED used all attempts |
| PdfTheorems.RunCounts | apps/worker/src/pdf/pdf-job.repository.ts:44-45 | claimGeneration counts the successful claims of a run |
| PdfTheorems.ClaimsBounded | apps/api/src/pdf/pdf-retry.service.ts:16-21 | between two states every claim is paid for by a render retry or an attempt, so without a retry claims are bounded |
| LeaseTime.ClaimExactly | apps/worker/src/pdf/pdf-job.repository.ts:21-46 | for every delivery: it is claimed iff the case is FINALIZING under the task's valid signature, an attempt is left, and the task is queued or was claimed more than 45 seconds ago; otherwise no row changes, except that a used-up expired task fails |
| LeaseTime.NoTakeoverWhileRunning | apps/worker/src/pdf/pdf-job.repository.ts:32-45 | until 45 seconds after the claim no delivery takes the task or changes a row |
| LeaseTime.HolderKeepsFence | apps/worker/src/pdf/pdf-job.repository.ts:44-71 | over every run, within those 45 seconds a worker that has not recorded a failure, completed, stopped or crashed passes the fence |
| LeaseTime.ClaimIsSafe | apps/worker/src/pdf/pdf-job.repository.ts:44-45 | counted from the very time of the claim |
| PdfProgress.QueuedIsClaimable | apps/worker/src/pdf/pdf-job.repository.ts:24-46 | a queued task of a FINALIZING case is claimed by the next delivery if and only if its signing is valid |
| PdfProgress.ExpiredIsRecovered | apps/worker/src/pdf/pdf-job.repository.ts:24-45 | with a valid signing an expired claim is taken over, or fails task and case when it was the last attempt; with an invalid one the delivery is refused and no row changes |
| PdfProgress.WorkerRederives | apps/worker/src/pdf/pdf-job.repository.ts:48-53 | while the signing is valid the worker's own derivation of the content gives the signed digest, so the mismatch error is unreachable |
| PdfProgress.RetryExactly | apps/api/src/pdf/pdf-retry.service.ts:10-32 | only a PDF_FAILED case is retried, and it is refused iff its task succeeded with a pending delivery; otherwise exactly what is reset, kept, counted and announced, for a render and for a delivery retry |
| PdfProgress.RedeliveryBlocksRetry | apps/api/src/pdf/pdf-finalization.repository.ts:16 | a terminal delivery failure followed by a non-terminal one leads from any rendered case to the refused retry |
| PdfProgress.TerminalFailureUnblocksRetry | apps/api/src/pdf/pdf-retry.service.ts:13-17 | where retry is refused, one more terminal delivery failure makes it possible again |
| PdfProgress.LostSigningNeverCompletes | apps/api/src/pdf/pdf-finalization.repository.ts:14-15 | once the signing of a case's task is invalid no run completes the case, whatever the task's status |
| PdfProgress.UploadLosesCase | apps/api/src/files/file.service.ts:31-107 | from the moment the case has a task, an upload that is not a duplicate ends every run's chance to complete it |
| PdfProgress.RemovalLosesCase | apps/api/src/files/file.service.ts:155-182 | so does the removal of a material |
| PdfProgress.UploadStrands | apps/api/src/files/file.service.ts:31-98 | an upload while the task is queued, or claimed by a worker that is gone, strands the case |
| PdfProgress.StrandedForEver | apps/worker/src/pdf/pdf-job.repository.ts:25-32 | with its signing lost, a queued task or one whose worker is gone is never touched again, and nothing but closing moves the case |
| CacheQuiet.NothingRotatesWhileValid | apps/api/src/cases/case.service.ts:252-270 | in a reachable state with a valid signing a preview transaction retires no preview: it reuses the preview of the current content, or a place is free |
| DeliveryRoom.OutputHadRoom | apps/worker/src/pdf/pdf-job.repository.ts:55-69 | an output that appears while the signing stays valid consists of readable bytes there was room for from the start of the run, beside all retained evidence, or with faults beside what lasts of it |
| Completion.FromAlive | apps/worker/src/pdf/pdf-job.handler.ts:14-32 | from any task status, with a valid signing and room for the readable bytes, a run without faults completes the case: expiry, retry, recovery or rendering, validation, journal, storage, the finalizer's check and its commit |
| Completion.CompletableExactly | apps/worker/src/pdf/pdf-job.handler.ts:14-32 | a reachable case with a task has a fault-free run to COMPLETED iff it is not closed, its signing is valid, a signature is required, and a readable PDF (the staged one, if any) fits beside all retained bytes under a free key |
| Completion.CompletableWithFaultsExactly | apps/api/src/cases/case.service.ts:443-454 | the same over all runs, with the bytes of previews no signing pins left out of the sum |
| FullCase.FullNeverCompletes | apps/api/src/files/evidence-capacity.ts:6-21 | with nothing rendered and the retained bytes at the cap no fault-free run completes the case |
| FullCase.FullIsReachable | apps/api/src/files/file.service.ts:184-236 | such a case, with a queued task and a valid signing, is reached by uploading signature images after confirmation |
| SupplementRun.SupplementIsReachable | apps/api/src/review/review.service.ts:90-101 | a run to a rejected case whose customer is admitted again |
| SupplementRun.SealedIsReachable | apps/api/src/cases/case.service.ts:306-328 | and on through a sealed signature, resubmission, approval and confirmation to FINALIZING on that signature and the cut-out image |
| CompletedRun.CompletedIsReachable | apps/api/src/pdf/pdf-finalization.repository.ts:15 | a run from a new case to COMPLETED exists |
| CompletedRun.RelinkedIsReachable | apps/api/src/cases/case.service.ts:417-433 | so does one to a completed case with a link that is not disabled |
| CompletedRun.RefusedRetryIsReachable | apps/api/src/pdf/pdf-retry.service.ts:13-17 | so does one to a failed case whose retry is refused |
| CompletedRun.StrandedIsReachable | apps/api/src/cases/case.service.ts:417-431 | so does one to a stranded case with a queued task |
| CompletedRun.AbandonedIsReachable | apps/worker/src/pdf/pdf-job.repository.ts:25-32 | and one to a stranded case whose worker crashed: the lease ran out, and both the next delivery and a retry are refused |
| CaseTheorems.ValidMeansCurrent | apps/api/src/cases/case.service.ts:180-196 | a valid signing carries exactly the digest of the current canonical content, and at most one signing is valid |
| CaseTheorems.InvalidForEver | apps/api/src/files/file.service.ts:298-303 | signings never change except that validity is lost, never regained |
| SignedContent.ValidFreezesContent | apps/api/src/cases/presign-canonical.ts:48-73 | while a signing stays valid answers and materials mean the same, up to key order, and the files are the same as when it was signed |
| SignedContent.ContentCovers | apps/api/src/cases/presign-canonical.ts:48-73 | the signed content is the latest answers, the latest or else the frozen materials, and every active material with all its columns, in order |
| CaseTheorems.CapacityHolds | apps/api/src/files/evidence-capacity.ts:6-21 | the retained evidence of a case never exceeds 200 MB |
| FileFacts.RetainedBySigning | apps/api/src/cases/case.service.ts:306-326 | a signing whose pinned files are active adds nothing to the retained bytes |
| FileFacts.RetainedShrinks | apps/api/src/files/file.service.ts:164-170 | tombstones and invalidations never raise the retained bytes |
| EvidenceSum.EachRowCounts | apps/api/src/files/evidence-capacity.ts:6-21 | each row is in the retained sum with exactly its size iff it is active, a final PDF, or a signing's preview, image or original of the image |
| EvidenceSum.PinnedCountsForEver | apps/api/src/files/evidence-capacity.ts:6-21 | evidence a signing pins, and the final PDF, keep hash and key and count with their size in every later state |
| EvidenceSum.CompletionAdds | apps/worker/src/pdf/pdf-job.repository.ts:55-69 | an accepted completion raises the retained sum by exactly the number of bytes stored |
| FileFacts.RotationKeepsTwo | apps/api/src/cases/case.service.ts:259-261 | rotation leaves the two newest active previews, or all when there are fewer |
| CaseTheorems.CacheBounded | apps/api/src/cases/case.service.ts:257-268 | at most three previews are active and at most one per digest |
| CaseTheorems.RotationSparesEvidence | apps/api/src/cases/case.service.ts:258-273 | a key handed to deletion by a rotation belongs to no preview any signing pins, then or ever after |
| FileFacts.ReadersAgree | apps/api/src/cases/presign-canonical.ts:48-60 | the API's order-then-filter and the worker's filter-then-order reading of the materials give the same list |
| CaseTheorems.LinksOnce | apps/api/src/cases/token.service.ts:33-46 | at every time at most one link is live and each link carries at most one formal submission |
| LinkRules.ShutForEver | apps/api/src/cases/token.service.ts:33-40 | whoever holds a link that expired, was disabled, spent or closed, or whose case is over, changes nothing in any later state |
| LinkRules.IssuedLinkOpens | apps/api/src/cases/case.service.ts:417-433 | every way of issuing a link shuts all others; the new one is open until it expires |
| LinkRules.DisablingExactly | apps/api/src/cases/case.service.ts:120-131 | disabling is accepted iff some link is unused, and leaves none; renewing needs one too, regenerating does not |
| LinkRules.EndClosesLinks | apps/api/src/pdf/pdf-finalization.repository.ts:15 | the step that completes or closes a case disables every link it has, for ever |
| LinkRules.RelinkedExactly | apps/api/src/cases/case.service.ts:417-433 | from then on a link that is not disabled appears iff it is an unconditional replacement |
| DraftRules.NoLostUpdate | apps/api/src/cases/case.service.ts:166-180 | once any draft was stored after a customer read the versions, an unforced save on what was read is refused in every later state of every run, with a conflict wherever link and status admit the customer |
| DraftRules.ConflictExactly | apps/api/src/cases/case.service.ts:176 | a save is answered with a conflict iff it is admitted, unforced, and not based on the latest version |
| DraftRules.SaveExactly | apps/api/src/cases/case.service.ts:166-180 | a save is accepted iff the customer is admitted, it is forced or based on the latest version, and in a supplement differs only where something was rejected |
| DraftRules.SaveKeepsSignature | apps/api/src/cases/case.service.ts:180-192 | the valid signature survives a save iff the digest of the content does |
| DraftRules.SavedForEver | apps/api/src/cases/case.service.ts:178-183 | a stored version keeps the answers and materials it was sent with in every later state |
| DraftRules.OnlySavesChangeDrafts | apps/api/src/cases/case.service.ts:166-184 | answers change in no step but an admitted customer's accepted save |
| SigningRules.SignedAsCommanded | apps/api/src/cases/case.service.ts:306-328 | whenever a signing appears it records the image, mode and positions its command named, the current content and its active preview; earlier ones end and nothing else changes |
| SigningRules.SignedForEver | apps/api/src/cases/case.service.ts:319-328 | over every run a signing keeps all it records but its validity, and its image is never changed or removed |
| SigningRules.SigningVerifiesExactly | apps/api/src/cases/case.service.ts:280-302 | the first phase accepts exactly an admitted customer's command with accepted positions, a fitting image, its original, and a preview of the current content |
| SigningRules.SubmissionAcceptedExactly | apps/api/src/cases/case.service.ts:202-214 | in every reachable state a submission is accepted iff it names the version of the valid signing |
| SigningRules.ReviewedAsSigned | apps/api/src/cases/case.service.ts:217-230 | a case comes under review in no step but a customer's submission of content with a valid signing of it, whose link is spent |
| CaseTheorems.HistoryIsThePath | apps/api/src/database/repositories/case.repository.ts:19-41 | history rows form a path of legal moves from DRAFT to the current status; AWAITING_CUSTOMER has no draft |
| CaseTheorems.TerminalForEver | apps/api/src/cases/case.service.ts:133-145 | history is append-only; COMPLETED and CLOSED are never left |
| CaseTheorems.CaseAndTaskCoupled | apps/api/src/review/review.service.ts:102-108 | one task at most; which task and delivery states each case status allows; DELIVERED iff COMPLETED |
| CaseProofs.ConfirmInserts | apps/api/src/review/review.service.ts:104-108 | confirmation never meets an existing task: its upsert always inserts, for a valid signing |
| ReviewRules.RejectionBlocks | apps/api/src/review/review.service.ts:51-102 | over every run: after an accepted rejection the case is in finalization, failed or completed only if the assigned reviewer approved that item on the way there |
| ReviewRules.OnlyTheReviewerDecides | apps/api/src/review/review.service.ts:51-76 | items change in no step but a decision of the assigned reviewer under review, which sets exactly that item to what was decided |
| ReviewRules.ItemExactly | apps/api/src/review/review.service.ts:51-64 | a decision is accepted iff it is the assigned reviewer's, on an item of a case under review, a rejection with its reason, and no approved item of a second review |
| ReviewRules.ApprovedIsLocked | apps/api/src/review/review.service.ts:64 | in PENDING_REREVIEW no step changes an approved item |
| ReviewRules.ConfirmExactly | apps/api/src/review/review.service.ts:78-115 | a confirmation is accepted iff everything was decided and something is rejected or some signing valid; with a rejection the case goes back with the only open link, without one to finalization with a task of three attempts for the valid signing |
| ReviewRules.AssignmentsExactly | apps/api/src/review/review.service.ts:29-49 | a free case under review can be claimed; an assignment needs a reason iff it takes the case from someone |
| ReviewRules.OnlyAssignedAnew | apps/api/src/review/review.service.ts:38-49 | a case with a reviewer gets another in no step but an assignment with a reason |
| ReviewRules.MessageExactly | apps/api/src/review/review.service.ts:130-150 | a rejection message is written iff the case waits for a supplement with something rejected, and over an unused link only on request |
| MaterialRules.UploadExactly | apps/api/src/files/file.service.ts:31-83 | an upload is accepted iff the link is open, the requirement known, the file within its limit, and either its bytes are stored for that requirement or number, capacity and key admit it |
| MaterialRules.UploadAdds | apps/api/src/files/file.service.ts:60-98 | a known file changes nothing; another adds one row with all its columns and exactly its size to the retained sum, and ends every signing |
| MaterialRules.MaterialLimits | apps/api/src/files/file.service.ts:60-83 | at every time no requirement holds the same bytes twice or more than ten active files, and no material is above 20 MB |
| MaterialRules.ResourceExactly | apps/api/src/files/file.service.ts:184-214 | an image is accepted iff the link is open, kind and original fit, and it is known or fits within 20 MB and the 200 MB of the case under a free key |
| MaterialRules.ResourceAdds | apps/api/src/files/file.service.ts:199-229 | a known image changes nothing; another adds one row with its columns, its original and its size, and no signing ends |
| MaterialRules.PreviewAdds | apps/api/src/cases/case.service.ts:252-270 | a preview is taken for the current content only, reused when cached, else added with all its columns and its size within the cap |
| MaterialRules.RemovalExactly | apps/api/src/files/file.service.ts:155-182 | a removal is accepted iff the link is open and the material active; it marks that row, ends every signing, and changes nothing else |
| CaseTheorems.OutboxExact | apps/api/src/pdf/pdf-retry.service.ts:19-26 | the generations of each queue are exactly 1 up to the task's counter, in order; every finalization event names the one output |
| CaseTheorems.PublishedByBroker | apps/worker/src/pdf/pdf-finalization.publisher.ts:10-11 | a row stops being pending only in a step in which the broker returned the id it is published under |
| CaseTheorems.CompletedForEver | apps/api/src/pdf/pdf-finalization.repository.ts:14-15 | a completed case keeps for ever all approvals, a valid signing, fitting placements, its output, and equal signed, output and current digests |
| Evolution.RunGrows | apps/api/src/pdf/pdf-finalization.repository.ts:14-16 | over any run rows are never taken away, immutable columns never change, one-way flags never return, and a completed case is frozen |
| VerifyCommit.SubmissionIsAtomic | apps/api/src/cases/case.service.ts:199-231 | with anything running in between, a submission commits iff its whole first phase would give the same ticket at commit time |
| VerifyCommit.SigningIsAtomic | apps/api/src/cases/case.service.ts:278-330 | a signing commits iff its first phase would find the same rows and the preview is still active |
| VerifyCommit.FingerprintDecidesGates | apps/api/src/pdf/pdf-finalization.repository.ts:14 | equal fingerprints mean equal database gates |
| VerifyCommit.FinalizationIsAtomic | apps/api/src/pdf/pdf-finalization.service.ts:14-27 | a finalization that passed its check commits in a later state iff the complete check, stored bytes included, passes unchanged then and the case still waits for it or is already completed |
| PlacementFacts.AcceptedSlotsDistinct | apps/api/src/files/file-policy.ts:25-32 | accepted positions force the required slot ids to be pairwise distinct |
| PlacementChain.AcceptedIsValid | apps/api/src/pdf/pdf-finalization.repository.ts:14 | accepted positions pass the finalizer's placement gate iff the template asks for a signature |
| PlacementChain.GatesExactly | apps/api/src/pdf/pdf-finalization.repository.ts:14-15 | of the finalizer's five gates only the signing's validity and the event's hash can fail |
| StoredOutput.StoredForEver | apps/worker/src/pdf/pdf-job.handler.ts:21-23 | in every reachable state and over every run the output's bytes are in the content-addressed store, readable, with their own hash, and its file row is an active PDF of exactly their size, hash and key |
| StoredOutput.EvidencePasses | apps/api/src/pdf/pdf-finalization.service.ts:8-27 | in every reachable state the finalizer's reading of the stored bytes refuses nothing its database gates accept |
| StoredOutput.DeliveryCompletes | apps/api/src/pdf/pdf-finalization.service.ts:14-27 | a rendered case with a valid signing passes the finalizer's complete check of its own event, stored bytes included, and its commit completes the case |
| DeliveryRules.CompletionExactly | apps/worker/src/pdf/pdf-job.repository.ts:55-69 | a completion is accepted iff the lease and the claim are the worker's, its hash and size are the journalled ones, and it fits under a free key |
| DeliveryRules.CompletionAnnounces | apps/worker/src/pdf/pdf-job.repository.ts:64-69 | it finishes the task as journalled, with no delivery attempted yet and one event naming the output |
| DeliveryRules.CommitExactly | apps/api/src/pdf/pdf-finalization.repository.ts:14-15 | the case is completed iff the event names its output, everything is approved and signed for the output's content, every required slot has its mark, and the case waits or has failed |
| DeliveryRules.FailureExactly | apps/api/src/pdf/pdf-finalization.repository.ts:16 | a failed delivery is recorded iff its output is not delivered; what it counts and when it fails the case |
| DeliveryRules.FailuresCounted | apps/api/src/pdf/pdf-finalization.repository.ts:16 | over every run the task's counter is the number of failures recorded since the completion |
| SignedContent.SupplementPreservesExactly | apps/api/src/cases/case.service.ts:468-476 | a supplement leaves all other answers as they were iff it is accepted and omits none of them |
| SignedContent.EmptySupplement | apps/api/src/cases/case.service.ts:474 | a supplement without answers is accepted and drops them |
| StableProofs.StableDecidesMeaning | packages/template-engine/src/pdf-renderer.ts:33 | two JSON values print the same iff they mean the same, objects being maps |
| StableProofs.StableRoundTrip | packages/template-engine/src/pdf-renderer.ts:33 | the canonical text reads back as a value of the same meaning |
| StableProofs.PrintRoundTrip | packages/template-engine/src/pdf-renderer.ts:33 | printing with section 7 of RFC 8259 quoting decodes to exactly the value printed |
| ContentDigest.DigestIgnoresExactlyTheVersion | packages/template-engine/src/pdf-renderer.ts:34 | with a collision-free hash, equal digests iff equal meaning apart from `draftVersion` |
| ContentDigest.ContentDigestExact | apps/api/src/cases/presign-canonical.ts:61-73 | equal content digests iff the same answers, materials and files, whatever the draft versions |
| ContentDigest.IdempotencyKeyInjective | packages/contracts/src/pdf.ts:14-22 | the JSON-array key identifies the task, whatever characters its ids contain |
| ContentDigest.ColonKeyExact | apps/api/src/review/review.service.ts:104-108 | two tasks share the colon-joined key iff versions agree and the joined ids do |
| ContentDigest.ColonKeyWithoutColons | apps/api/src/review/review.service.ts:104-108 | without colons in case ids the colon-joined key identifies the task |
| ContentDigest.ColonKeyCollides | apps/api/src/review/review.service.ts:104-108 | two different tasks with the same colon-joined key and different JSON keys |
| SliderMapping.CommandExactly | apps/h5/src/features/signing/SignaturePlacementEditor.tsx:22-31 | for arbitrary slots the client's command passes the server's position checks at every position of the sliders iff the required ids are distinct and each required slot is visible and takes both ends of the mark's way |
| SliderMapping.CommandAt | apps/api/src/files/file-policy.ts:17-34 | at one setting of the sliders the command is accepted iff no required id repeats and every mark fits its slot |
| SliderMapping.SlidersAccepted | apps/h5/src/features/signing/SignaturePlacementEditor.tsx:22-31 | hence for whole-number slots with distinct ids it is accepted at every slider position and every whole percentage |
| SliderMapping.MarkCovers | apps/h5/src/features/signing/SignaturePlacementEditor.tsx:24-28 | for every size from 50 to 160 percent an unrounded mark covers exactly sixty percent of each side times the size |
| SliderMapping.PlacedAsOffered | apps/h5/src/features/signing/SignaturePlacementEditor.tsx:22-31 | to within half a thousandth the mark has that size and lies as far into the free room as the sliders say, width for horizontal and height for vertical |
| SliderMapping.WholeSlotFits | apps/h5/src/features/signing/SignaturePlacementEditor.tsx:90 | the rounded mark lies exactly inside a whole-number slot |
| SliderMapping.GridSlotExactly | apps/h5/src/features/signing/SignaturePlacementEditor.tsx:22-31 | for slots on the grid of thousandths all positions fit iff no side of the mark is a half thousandth and none rounds to zero |
| SliderMapping.SlotExactly | apps/h5/src/features/signing/SignaturePlacementEditor.tsx:22-31 | for every slot, all slider positions are accepted iff the mark is visible and both ends of its way round into the slot on either side |
| SliderMapping.OvershootBounded | apps/h5/src/features/signing/SignaturePlacementEditor.tsx:22-31 | for arbitrary decimal slots the mark leaves the slot by at most a thousandth |
| SliderMapping.DecimalSlotMissed | apps/h5/src/features/signing/SignaturePlacementEditor.tsx:22-31 | a left edge less than half a thousandth past the grid rounds out of the slot, so the slider at zero is refused |
| SliderMapping.OffGridSlotRefused | apps/h5/src/features/signing/SignaturePlacementEditor.tsx:22-31 | a concrete visible slot whose left edge position the server refuses |
| TemplateProofs.WalksAgree | apps/api/src/cases/case.service.ts:29 | the API's walk over all JSON values finds the slots of the renderer's typed walk, with multiplicity |
| TemplateProofs.FinalizerWalk | apps/api/src/pdf/pdf-finalization.repository.ts:7 | the finalizer's walk finds the required ones among the API's, in order |
| TemplateProofs.RequiredWalksAgree | apps/worker/src/pdf/pdf.renderer.ts:20-29 | all three walks agree on the required slots |
| TemplatePublish.PublishVisitor.VisitAll | apps/api/src/templates/template-publish.validator.ts:53-82 | the visitor passes iff the slots are fresh and on the page and every node below is allowed where it stands: known text variables, image fields, material columns, no break, slot or loop outside the body; the counters and sets then grow by exactly what was walked |
| TemplatePublish.ReadSources | apps/api/src/templates/template-publish.validator.ts:27-42 | the definitions by key, iff every version fits its field, no key repeats, the authorization letter is a required file, and for publication all versions are published |
| TemplatePublish.Validate | apps/api/src/templates/template-publish.validator.ts:23-97 | accepts exactly: sound sources, margins inside the page, every node allowed where it stands, distinct slots inside existing pages, and for publication a required signature slot and every required field shown by some node |
| TemplateRules.AcceptedIsPublished | apps/api/src/templates/template-publish.validator.ts:19-21 | what is accepted for publication has everything the renderer's theorems ask of a template, and is accepted as a structure too |
| PdfDocument.RenderFinal | apps/worker/src/pdf/pdf.renderer.ts:17-33 | succeeds iff every required slot has a position on its page inside it and no position is left over |
| PdfDocument.AcceptedRenders | apps/worker/src/pdf/pdf.renderer.ts:19-31 | positions the server accepted pass all checks of the final renderer |
| PdfDocument.AcceptedSigningRenders | apps/api/src/files/file-policy.ts:17-34 | for a published template accepted positions pass the finalizer's gate, the renderer's checks and the layout |
| PdfDocument.BuildDocument | packages/template-engine/src/pdf-renderer.ts:58-69 | lays out exactly the pages of the template, or reports an overlay made for another page |
| PdfDocument.DocumentConserves | packages/template-engine/src/pdf-renderer.ts:62-63 | the page bodies joined are the top-level children in order, breaks and slots aside |
| PdfDocument.SlotsDrawnOnce | packages/template-engine/src/pdf-renderer.ts:64-66 | each top-level slot is drawn on the page it names as often as it occurs, and on no other |
| PdfDocument.PageCountBounded | apps/api/src/templates/template-publish.validator.ts:53-90 | a published template never renders to more pages than the validator counted |
| PdfDocument.NoOverlayMismatch | packages/template-engine/src/pdf-renderer.ts:65 | after the renderer's checks the overlay page mismatch cannot occur |
| CaseDatabase.CaseTables.constructor | apps/api/src/database/repositories/case.repository.ts:19-41 | a new case is a DRAFT with one history row and nothing else |
| CaseDatabase.CaseTables.RotatePreviews | apps/api/src/cases/case.service.ts:259-261 | tombstones exactly the active previews with two newer active ones |
| CaseServices.CaseService.SubmitDraft | apps/api/src/cases/case.service.ts:98-110 | invites the customer from DRAFT only, with one fresh link |
| CaseServices.CaseService.DisableLink | apps/api/src/cases/case.service.ts:120-131 | disables the live link or reports that there is none |
| CaseServices.CaseService.Close | apps/api/src/cases/case.service.ts:133-145 | closes any case that is not terminal and disables its links |
| CaseServices.CaseService.ReplaceLink | apps/api/src/cases/case.service.ts:417-433 | one live link replaces another, or the first is issued |
| CaseServices.CaseService.SavePublicDraft | apps/api/src/cases/case.service.ts:166-197 | stores the next draft and invalidates every signing iff the content changed |
| CaseServices.CaseService.VerifySubmit | apps/api/src/cases/case.service.ts:202-214 | the first phase of a submission |
| CaseServices.CaseService.CommitSubmit | apps/api/src/cases/case.service.ts:217-230 | the second phase: everything re-checked, the case moved on, the link spent |
| CaseServices.CaseService.PersistPresign | apps/api/src/cases/case.service.ts:252-270 | reuses, or rotates and adds a preview within the cap; a refusal undoes the rotation |
| CaseServices.CaseService.DisableCorruptPreview | apps/api/src/cases/case.service.ts:443-454 | takes a corrupt preview out of the cache |
| CaseServices.CaseService.VerifySign | apps/api/src/cases/case.service.ts:280-302 | the first phase of a signing |
| CaseServices.CaseService.CommitSign | apps/api/src/cases/case.service.ts:306-328 | the second phase: all rows re-checked, earlier signings superseded |
| CaseServices.TokenService.ResolveForMutation | apps/api/src/cases/token.service.ts:33-40 | a token resolves iff its link is live and the case is not terminal |
| CaseServices.TokenService.ConsumeForMutation | apps/api/src/cases/token.service.ts:42-46 | a live link is consumed once |
| FileServices.FileService.EvidenceRetainedBytes | apps/api/src/files/evidence-capacity.ts:6-21 | sums the active files and those a signing or a final PDF retains |
| FileServices.FileService.UploadPublic | apps/api/src/files/file.service.ts:31-107 | an active duplicate is reused; otherwise limits are checked, the file added, all signings invalidated |
| FileServices.FileService.RemovePublic | apps/api/src/files/file.service.ts:155-182 | tombstones an active material and invalidates all signings |
| FileServices.FileService.UploadSigningResource | apps/api/src/files/file.service.ts:184-236 | adds an image whose processed seal names its active original, within the cap |
| ReviewServices.ReviewService.Claim | apps/api/src/review/review.service.ts:29-36 | an unassigned case under review gets its reviewer |
| ReviewServices.ReviewService.Assign | apps/api/src/review/review.service.ts:38-49 | reassignment needs a reason and a case that is not terminal |
| ReviewServices.ReviewService.ReviewItem | apps/api/src/review/review.service.ts:51-76 | one decision of the assigned reviewer; approved items are locked in re-review |
| ReviewServices.ReviewService.Confirm | apps/api/src/review/review.service.ts:78-115 | all decided: back with a fresh link, or on to finalization with a task |
| ReviewServices.ReviewService.GenerateRejectionMessage | apps/api/src/review/review.service.ts:130-150 | a supplement link is issued once, or rotated on request |
| PdfServices.PdfJobRepository.Claim | apps/worker/src/pdf/pdf-job.repository.ts:21-46 | all outcomes of a claim and the counters it moves |
| PdfServices.PdfJobRepository.JournalPending | apps/worker/src/pdf/pdf-job.repository.ts:70 | fenced write of the journal, idempotent for the same entry |
| PdfServices.PdfJobRepository.Complete | apps/worker/src/pdf/pdf-job.repository.ts:55-69 | file, output, status, outbox row and cleared journal appear together or not at all |
| PdfServices.PdfJobRepository.Fail | apps/worker/src/pdf/pdf-job.repository.ts:71 | a fenced failure requeues the task, or fails task and case when terminal |
| PdfServices.PdfRetryService.Retry | apps/api/src/pdf/pdf-retry.service.ts:10-32 | render retry or delivery retry, each with its generation and outbox row |
| PdfServices.PdfFinalizationRepository.Finalize | apps/api/src/pdf/pdf-finalization.repository.ts:15 | the committing transaction; a refusal after the delivery update undoes it |
| PdfServices.PdfFinalizationRepository.RecordDeliveryFailure | apps/api/src/pdf/pdf-finalization.repository.ts:16 | counts a failed delivery, and fails the case when it is terminal |
| PdfServices.PdfFinalizationService.Finalize | apps/api/src/pdf/pdf-finalization.service.ts:14-27 | with other transactions between its three database steps, succeeds iff the first inspection passes and is what both later steps see; the rows after success and after every refusal |
| PdfServices.PdfFinalizationPublisher.Reconcile | apps/worker/src/pdf/pdf-finalization.publisher.ts:10-11 | sends the oldest pending rows up to the limit, once each, and counts exactly the accepted ones |
| Storage.LocalStorage.WriteOnce | packages/storage/src/local-storage.ts:14 | the first writer of a staging key decides its bytes; the limit is enforced |
| Storage.LocalStorage.WriteContentAddressed | packages/storage/src/local-storage.ts:15 | bytes are stored under their own hash and never replaced |
| Storage.LocalStorage.ReadStaged | packages/storage/src/local-storage.ts:17 | reads refuse missing and oversized files |
| PdfWorkers.PdfJobHandler.Claim | apps/worker/src/pdf/pdf-job.handler.ts:15 | the claim, as one step of the protocol |
| PdfWorkers.PdfJobHandler.ReadContent | apps/worker/src/pdf/pdf-job.repository.ts:50-52 | re-derives the content and compares its digest with the signed one |
| PdfWorkers.PdfJobHandler.Render | apps/worker/src/pdf/pdf-job.handler.ts:20 | continues only with a readable rendering |
| PdfWorkers.PdfJobHandler.Link | apps/worker/src/pdf/pdf-job.handler.ts:20 | stages the rendered bytes once |
| PdfWorkers.PdfJobHandler.ReadStaged | apps/worker/src/pdf/pdf-job.handler.ts:20 | continues with the staged bytes, recovered or read back |
| PdfWorkers.PdfJobHandler.Journal | apps/worker/src/pdf/pdf-job.handler.ts:21 | validates the bytes again and journals the staged hash before storing |
| PdfWorkers.PdfJobHandler.Store | apps/worker/src/pdf/pdf-job.handler.ts:21 | stores the bytes under their hash |
| PdfWorkers.PdfJobHandler.Reread | apps/worker/src/pdf/pdf-job.handler.ts:22 | continues only with readable bytes of the expected hash |
| PdfWorkers.PdfJobHandler.Complete | apps/worker/src/pdf/pdf-job.handler.ts:23-26 | completes, stops as duplicate, or goes on to record the failure |
| PdfWorkers.PdfJobHandler.RemoveStaged | apps/worker/src/pdf/pdf-job.handler.ts:28 | removes the staged file, after completion or for a duplicate |
| PdfWorkers.PdfJobHandler.Fail | apps/worker/src/pdf/pdf-job.handler.ts:30 | records the failure under the worker's own fence |

## Left out

- Text is a sequence of Unicode scalar values, so lone surrogates, which `JSON.stringify` escapes, are not represented.
- The key order of the printer is any total order; that `localeCompare` is one on all strings is not examined.
- Numbers are exact: non-finite numbers, IEEE rounding and the printing of floating-point numbers are not modelled.
- The bytes of previews and signature images that submission, signing and the worker read between their database steps:
  a failed read only stops the caller, which the model allows at every point.
- `validPresignCache` deletes the bytes of a preview it found corrupt even when a signing refers to it; the promise about
  deleted evidence covers rotation.
- Completion.CompletableExactly: asks whether some run completes the case, not whether every fair schedule does. A storage
  key counts as free when no file of this case has it; that a file of another case has the same content is not modelled.
- Storage faults other than a corrupt preview: lost or altered staged and stored bytes, and reads that fail for ever.
- WorkerProofs.Reachable: one case at a time; that transactions of different cases do not interfere is not stated.
- CaseTheorems.CompletedForEver: later changes of preview cache flags, links and outbox rows are not frozen, as in the code.
- StoredOutput.DeliveryCompletes: assumes that no transaction runs between check and commit of that delivery; what happens
  otherwise is `VerifyCommit.FinalizationIsAtomic`.
- `listPublic` and the other read-only views: grouping without effect on the rows.
- Render-rate gates and in-flight maps of the preview service: limits on load, without effect on the rows.
- Checks of untrusted request fields, consent flags, reasons' texts, audit rows, and the deprecated preview path.
- HTML strings, styles, escaping, and nested signature slots, which the layout does not overlay.
- Requirement and template catalogue lifecycles, beyond a published template being disabled.
- pg-boss, Chromium, the PDF parser, authentication, settings, logging and all user interface except the slider mapping.
- Repository methods no running service calls.
