/** What holds of a case's rows after every transaction. Each clause names only the tables it reads. */
module CaseInvariants {
  import opened Common
  import opened Placement
  import opened CaseModel
  import opened CaseTransactions
  import opened PdfTransactions

  // ---------------------------------------------------------------- links

  ghost predicate OneLiveLink(links: seq<Link>, now: nat) {
    forall i, j | 0 <= i < j < |links| :: !(Live(links[i], now) && Live(links[j], now))
  }

  /** Every formal submission consumed its own link. */
  ghost predicate SubmissionsConsume(links: seq<Link>, submissions: seq<nat>) {
    && (forall i | 0 <= i < |submissions| :: submissions[i] < |links| && links[submissions[i]].consumed)
    && (forall i, j | 0 <= i < j < |submissions| :: submissions[i] != submissions[j])
  }

  // ---------------------------------------------------------------- status history

  /** The transitions of the status model; the two terminal statuses have no successor. */
  predicate LegalMove(from: CaseStatus, to: CaseStatus) {
    match from
    case Draft => to == AwaitingCustomer || to == Closed
    case AwaitingCustomer => to == CustomerEditing || to == Closed
    case CustomerEditing => to == PendingReview || to == Closed
    case PendingReview => to == NeedsSupplement || to == Finalizing || to == Closed
    case NeedsSupplement => to == PendingRereview || to == Closed
    case PendingRereview => to == NeedsSupplement || to == Finalizing || to == Closed
    case Finalizing => to == PdfFailed || to == Completed || to == Closed
    case PdfFailed => to == Finalizing || to == Completed || to == Closed
    case Completed => false
    case Closed => false
  }

  ghost predicate HistoryReplays(history: seq<HistoryRow>, status: CaseStatus) {
    && history != []
    && history[0] == HistoryRow(None, Draft)
    && history[|history| - 1].to == status
    && forall i | 0 < i < |history| ::
         history[i].from == Some(history[i - 1].to) && LegalMove(history[i - 1].to, history[i].to)
  }

  // ---------------------------------------------------------------- drafts, files, signings

  ghost predicate DraftsFollowStatus(status: CaseStatus, drafts: seq<DraftRow>) {
    status == Draft || status == AwaitingCustomer ==> drafts == []
  }

  ghost predicate RowOk(f: FileRow) {
    && (f.original.Some? ==> f.purpose == SealProcessed)
    && (f.purpose == PresignPdf ==> f.digest.Some? && f.mime == ApplicationPdf && f.cacheActive == !f.removed)
    && (f.removed ==> f.purpose == Material || f.purpose == PresignPdf)
    && (IsResource(f) ==> f.mime != ApplicationPdf) && (f.cacheActive || f.purpose == PresignPdf)
  }

  ghost predicate FilesOk(files: seq<FileRow>) {
    forall i | 0 <= i < |files| :: RowOk(files[i]) && (files[i].original.Some? ==> files[i].original.value < |files|)
  }

  ghost predicate KeysDistinct(files: seq<FileRow>) {
    forall i, j | 0 <= i < j < |files| :: files[i].key != files[j].key
  }

  ghost predicate PreviewsBounded(files: seq<FileRow>) {
    ActivePreviewsFrom(files, 0) <= 3
  }

  /** An active preview is the newest version of its digest, hence the only active one. */
  ghost predicate PreviewsNewest(files: seq<FileRow>) {
    forall i, j | 0 <= i < j < |files| ::
      IsActivePreview(files[i]) && files[j].purpose == PresignPdf ==> files[i].digest != files[j].digest
  }

  ghost predicate PinsExist(files: seq<FileRow>, signings: seq<Signing>) {
    forall k | 0 <= k < |signings| ::
      && signings[k].resource < |files| && IsResource(files[signings[k].resource])
      && signings[k].preview < |files| && files[signings[k].preview].purpose == PresignPdf
      && files[signings[k].preview].sha == signings[k].previewSha
  }

  ghost predicate SigningsWellFormed(env: Env, drafts: seq<DraftRow>, signings: seq<Signing>) {
    forall k | 0 <= k < |signings| ::
      && 1 <= signings[k].draftVersion <= |drafts|
      && signings[k].declarationAccepted
      && PositionsAccepted(signings[k].positions, env.slots)
  }

  ghost predicate OneValidSigning(signings: seq<Signing>) {
    forall j, k | 0 <= j < k < |signings| :: !(signings[j].valid && signings[k].valid)
  }

  /** A valid signing carries the digest of the current content, read through either draft. */
  ghost predicate ValidSigningIsCurrent(env: Env, drafts: seq<DraftRow>, files: seq<FileRow>, signings: seq<Signing>) {
    forall k | 0 <= k < |signings| :: signings[k].valid ==>
      && 1 <= signings[k].draftVersion <= |drafts|
      && signings[k].contentDigest == WorkerDigest(env, drafts[|drafts| - 1], files)
      && signings[k].contentDigest == WorkerDigest(env, drafts[signings[k].draftVersion - 1], files)
  }

  ghost predicate WithinCapacity(files: seq<FileRow>, signings: seq<Signing>) {
    RetainedBytes(files, signings) <= MAX_CASE_BYTES
  }

  // ---------------------------------------------------------------- task

  predicate HasTask(status: CaseStatus) {
    status == Finalizing || status == PdfFailed || status == Completed
  }

  ghost predicate TaskRowOk(t: PdfTask) {
    && t.snapshotVersion == 1 && t.maxAttempts == 3 && t.attempts <= t.maxAttempts
    && (t.status == Processing <==> t.lease.Some?) && (t.status == Processing ==> t.startedAt.Some?)
    && (t.status == Succeeded <==> t.output.Some?) && (t.status == Failed <==> t.failure.Some?)
    && (t.status == Succeeded ==> t.pending.None?) && (t.status == Succeeded <==> t.delivery != NotReady)
    && (t.delivery == DeliveryFailed <==> t.deliveryFailure.Some?)
  }

  /** Case and task move together. */
  ghost predicate Coupled(status: CaseStatus, t: PdfTask) {
    && (status == Finalizing ==> t.status != Failed && t.delivery != DeliveryFailed)
    && (status == PdfFailed ==> t.status == Failed || t.status == Succeeded)
    && (status == Completed <==> t.delivery == Delivered)
  }

  ghost predicate TasksOk(status: CaseStatus, tasks: seq<PdfTask>, signings: seq<Signing>) {
    && |tasks| <= 1
    && (HasTask(status) ==> tasks != [])
    && (tasks != [] ==>
          && (HasTask(status) || status == Closed)
          && TaskRowOk(tasks[0]) && Coupled(status, tasks[0])
          && 1 <= tasks[0].signatureVersion <= |signings|)
  }

  /** The task's output is the one FINAL_PDF of the case and carries the signed digest. */
  ghost predicate OutputsOk(tasks: seq<PdfTask>, files: seq<FileRow>, signings: seq<Signing>) {
    && (forall i | 0 <= i < |files| ::
          files[i].purpose == FinalPdf ==> tasks != [] && tasks[0].output == Some(Output(i, files[i].sha)))
    && (tasks != [] && tasks[0].output.Some? ==>
        var o := tasks[0].output.value;
        && o.file < |files| && files[o.file].purpose == FinalPdf && files[o.file].sha == o.sha
        && 1 <= tasks[0].signatureVersion <= |signings|
        && files[o.file].digest == Some(signings[tasks[0].signatureVersion - 1].contentDigest))
  }

  // ---------------------------------------------------------------- outbox

  function Generations(outbox: seq<OutboxRow>, queue: Queue): seq<nat> {
    if outbox == [] then []
    else
      var last := outbox[|outbox| - 1];
      Generations(outbox[..|outbox| - 1], queue) + if last.queue == queue then [last.generation] else []
  }

  function UpTo(n: nat): seq<nat> { seq(n, i requires 0 <= i < n => i + 1) }

  ghost predicate RowsNameOutput(outbox: seq<OutboxRow>, tasks: seq<PdfTask>) {
    forall i | 0 <= i < |outbox| ::
      && outbox[i].task == 0 && tasks != []
      && match outbox[i].payload {
           case RenderJob(task, version) =>
             outbox[i].queue == FinalQueue && task == 0 && version == tasks[0].snapshotVersion
           case Finalized(task, version, file, sha) =>
             outbox[i].queue == FinalizedQueue && task == 0 && version == tasks[0].snapshotVersion
               && tasks[0].output == Some(Output(file, sha))
         }
  }

  ghost predicate GenerationsOk(outbox: seq<OutboxRow>, tasks: seq<PdfTask>) {
    && Generations(outbox, FinalQueue) == UpTo(if tasks == [] then 0 else tasks[0].queueGeneration)
    && Generations(outbox, FinalizedQueue) == UpTo(if tasks == [] then 0 else tasks[0].deliveryGeneration)
  }

  // ---------------------------------------------------------------- gates

  ghost predicate GatesHold(
    env: Env, status: CaseStatus, reviews: map<string, Review>, tasks: seq<PdfTask>, signings: seq<Signing>) {
    && (HasTask(status) ==> MaterialsApproved(env, reviews))
    && (status == Completed && tasks != [] && 1 <= tasks[0].signatureVersion <= |signings| ==>
        var s := signings[tasks[0].signatureVersion - 1];
        s.valid && s.declarationAccepted && PlacementsValid(s.positions, Required(env.slots)))
  }

  // ---------------------------------------------------------------- together

  /** The file table and the signings that pin its rows. */
  ghost predicate EvidenceOk(env: Env, drafts: seq<DraftRow>, files: seq<FileRow>, signings: seq<Signing>) {
    && FilesOk(files) && KeysDistinct(files) && PreviewsBounded(files) && PreviewsNewest(files)
    && PinsExist(files, signings) && SigningsWellFormed(env, drafts, signings) && OneValidSigning(signings)
    && ValidSigningIsCurrent(env, drafts, files, signings) && WithinCapacity(files, signings)
  }

  /** The PDF task, its output, its outbox rows and the gates of its case. */
  ghost predicate TaskOk(
    env: Env, status: CaseStatus, reviews: map<string, Review>, tasks: seq<PdfTask>, outbox: seq<OutboxRow>,
    files: seq<FileRow>, signings: seq<Signing>)
  {
    && TasksOk(status, tasks, signings) && OutputsOk(tasks, files, signings)
    && RowsNameOutput(outbox, tasks) && GenerationsOk(outbox, tasks)
    && GatesHold(env, status, reviews, tasks, signings)
  }

  ghost predicate DbOk(env: Env, now: nat, db: Db) {
    && OneLiveLink(db.links, now)
    && SubmissionsConsume(db.links, db.submissions)
    && HistoryReplays(db.history, db.status)
    && DraftsFollowStatus(db.status, db.drafts)
    && EvidenceOk(env, db.drafts, db.files, db.signings)
    && TaskOk(env, db.status, db.reviews, db.tasks, db.outbox, db.files, db.signings)
  }
}
