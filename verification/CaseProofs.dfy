/** Every transaction of the case, file and review services keeps `DbOk`. */
module CaseProofs {
  import opened Common
  import opened Placement
  import opened CaseModel
  import opened CaseTransactions
  import opened PdfTransactions
  import opened CaseInvariants
  import opened FileFacts

  lemma CreatedOk(env: Env, now: nat, reviewer: Option<string>)
    ensures DbOk(env, now, Created(reviewer))
  {
  }

  // ---------------------------------------------------------------- evidence

  lemma InvalidatingKeeps(env: Env, drafts: seq<DraftRow>, files: seq<FileRow>, signings: seq<Signing>)
    requires FilesOk(files) && KeysDistinct(files) && PreviewsBounded(files) && PreviewsNewest(files)
    requires PinsExist(files, signings) && SigningsWellFormed(env, drafts, signings) && WithinCapacity(files, signings)
    ensures EvidenceOk(env, drafts, files, InvalidateAll(signings))
  {
    RetainedShrinks(files, signings, files, InvalidateAll(signings));
  }

  /** The file table changed outside the active materials: signings stay current. */
  lemma SameMaterialsKeepsCurrent(
    env: Env, drafts: seq<DraftRow>, files: seq<FileRow>, changed: seq<FileRow>, signings: seq<Signing>)
    requires SameMaterials(files, changed)
    requires ValidSigningIsCurrent(env, drafts, files, signings)
    ensures ValidSigningIsCurrent(env, drafts, changed, signings)
  {
    assert WorkerFiles(files) == WorkerFiles(changed);
  }

  lemma MoreDraftsWellFormed(env: Env, drafts: seq<DraftRow>, draft: DraftRow, signings: seq<Signing>)
    requires SigningsWellFormed(env, drafts, signings)
    ensures SigningsWellFormed(env, drafts + [draft], signings)
  {
  }

  lemma SameDigestStaysCurrent(env: Env, db: Db, draft: DraftRow)
    requires ValidSigningIsCurrent(env, db.drafts, db.files, db.signings) && !ContentChanges(env, db, draft)
    ensures ValidSigningIsCurrent(env, db.drafts + [draft], db.files, db.signings)
  {
    DigestsAgree(env, draft, db.files);
    DigestsAgree(env, db.drafts[|db.drafts| - 1], db.files);
    var more := db.drafts + [draft];
    forall k | 0 <= k < |db.signings| && db.signings[k].valid
      ensures 1 <= db.signings[k].draftVersion <= |more|
      ensures db.signings[k].contentDigest == WorkerDigest(env, more[|more| - 1], db.files)
      ensures db.signings[k].contentDigest == WorkerDigest(env, more[db.signings[k].draftVersion - 1], db.files)
    {
      assert more[db.signings[k].draftVersion - 1] == db.drafts[db.signings[k].draftVersion - 1];
    }
  }

  /** A new draft either leaves the digest alone or invalidates every signing. */
  lemma NewDraftKeeps(env: Env, db: Db, draft: DraftRow)
    requires EvidenceOk(env, db.drafts, db.files, db.signings)
    ensures EvidenceOk(env, db.drafts + [draft], db.files, WithDraft(env, db, draft).signings)
  {
    if ContentChanges(env, db, draft) {
      InvalidatingKeeps(env, db.drafts, db.files, db.signings);
      MoreDraftsWellFormed(env, db.drafts, draft, InvalidateAll(db.signings));
    } else {
      MoreDraftsWellFormed(env, db.drafts, draft, db.signings);
      SameDigestStaysCurrent(env, db, draft);
    }
  }

  /** A row the content does not cover, checked against the cap, is added. */
  lemma NewRowKeeps(env: Env, drafts: seq<DraftRow>, files: seq<FileRow>, signings: seq<Signing>, f: FileRow)
    requires EvidenceOk(env, drafts, files, signings)
    requires RowOk(f) && !IsActiveMaterial(f) && (f.original.Some? ==> f.original.value < |files|)
    requires f.purpose == PresignPdf ==>
      ActivePreviewsFrom(files, 0) <= 2 && LastWhere(files, ServesDigest(f.digest.value)).None?
    requires RetainedBytes(files, signings) + f.size <= MAX_CASE_BYTES && !KeyTaken(files, f.key)
    ensures EvidenceOk(env, drafts, files + [f], signings)
  {
    AppendKeepsMaterials(files, f);
    SameMaterialsKeepsCurrent(env, drafts, files, files + [f], signings);
    RetainedAppend(files, signings, f);
    ActivePreviewsAppend(files, f, 0);
  }

  /** Previews are tombstoned: content, pins and the cap are unaffected. */
  lemma TombstonesKeep(
    env: Env, drafts: seq<DraftRow>, files: seq<FileRow>, changed: seq<FileRow>, signings: seq<Signing>)
    requires EvidenceOk(env, drafts, files, signings) && |changed| == |files|
    requires forall i | 0 <= i < |files| ::
      changed[i] == files[i] || (files[i].purpose == PresignPdf && changed[i] == Tombstone(files[i]))
    ensures EvidenceOk(env, drafts, changed, signings)
  {
    PointwiseKeepsMaterials(files, changed);
    SameMaterialsKeepsCurrent(env, drafts, files, changed, signings);
    RetainedShrinks(files, signings, changed, signings);
    ActivePreviewsMonotone(files, changed, 0);
  }

  lemma NewMaterialKeeps(env: Env, drafts: seq<DraftRow>, files: seq<FileRow>, signings: seq<Signing>, f: FileRow)
    requires EvidenceOk(env, drafts, files, signings)
    requires f.purpose == Material && f.original.None? && f.cacheActive
    requires RetainedBytes(files, signings) + f.size <= MAX_CASE_BYTES && !KeyTaken(files, f.key)
    ensures EvidenceOk(env, drafts, files + [f], InvalidateAll(signings))
  {
    RetainedAppend(files, signings, f);
    ActivePreviewsAppend(files, f, 0);
    InvalidatingKeeps(env, drafts, files + [f], signings);
  }

  lemma RemovedMaterialKeeps(env: Env, drafts: seq<DraftRow>, files: seq<FileRow>, signings: seq<Signing>, i: nat)
    requires EvidenceOk(env, drafts, files, signings) && i < |files| && IsActiveMaterial(files[i])
    ensures EvidenceOk(env, drafts, files[i := files[i].(removed := true)], InvalidateAll(signings))
  {
    var changed := files[i := files[i].(removed := true)];
    RetainedShrinks(files, signings, changed, signings);
    ActivePreviewsMonotone(files, changed, 0);
    InvalidatingKeeps(env, drafts, changed, signings);
  }

  /** What the second phase of signing has re-checked about the record it inserts. */
  ghost predicate FreshSigning(env: Env, drafts: seq<DraftRow>, files: seq<FileRow>, s: Signing) {
    && 1 <= s.draftVersion == |drafts| && s.declarationAccepted && PositionsAccepted(s.positions, env.slots)
    && s.contentDigest == ApiDigest(env, drafts[|drafts| - 1], files)
    && s.resource < |files| && IsResource(files[s.resource]) && !files[s.resource].removed
    && (files[s.resource].original.Some? ==>
          files[s.resource].original.value < |files| && !files[files[s.resource].original.value].removed)
    && s.preview < |files| && files[s.preview].purpose == PresignPdf && !files[s.preview].removed
    && s.previewSha == files[s.preview].sha
  }

  lemma NewSigningPins(env: Env, drafts: seq<DraftRow>, files: seq<FileRow>, signings: seq<Signing>, s: Signing)
    requires PinsExist(files, signings) && SigningsWellFormed(env, drafts, signings)
    requires FreshSigning(env, drafts, files, s)
    ensures var next := InvalidateAll(signings) + [s];
      PinsExist(files, next) && SigningsWellFormed(env, drafts, next) && OneValidSigning(next)
  {
  }

  lemma NewSigningCurrent(env: Env, drafts: seq<DraftRow>, files: seq<FileRow>, signings: seq<Signing>, s: Signing)
    requires FreshSigning(env, drafts, files, s)
    ensures ValidSigningIsCurrent(env, drafts, files, InvalidateAll(signings) + [s])
  {
    DigestsAgree(env, drafts[|drafts| - 1], files);
  }

  lemma NewSigningKeeps(env: Env, drafts: seq<DraftRow>, files: seq<FileRow>, signings: seq<Signing>, s: Signing)
    requires EvidenceOk(env, drafts, files, signings) && FreshSigning(env, drafts, files, s)
    ensures EvidenceOk(env, drafts, files, InvalidateAll(signings) + [s])
  {
    NewSigningPins(env, drafts, files, signings, s);
    NewSigningCurrent(env, drafts, files, signings, s);
    RetainedBySigning(files, signings, s);
  }

  // ---------------------------------------------------------------- task tables

  ghost predicate SameSignedColumns(signings: seq<Signing>, changed: seq<Signing>) {
    && |signings| <= |changed|
    && forall k | 0 <= k < |signings| :: changed[k] == signings[k].(valid := changed[k].valid)
  }

  ghost predicate SameFileColumns(files: seq<FileRow>, changed: seq<FileRow>) {
    && |files| <= |changed|
    && (forall i | 0 <= i < |files| ::
          changed[i] == files[i].(removed := changed[i].removed, cacheActive := changed[i].cacheActive))
    && (forall i | |files| <= i < |changed| :: changed[i].purpose != FinalPdf)
  }

  /** Before completion the task tables ignore new rows, flags and invalidations. */
  lemma EvidenceKeepsTask(env: Env, db: Db, files: seq<FileRow>, signings: seq<Signing>)
    requires TaskOk(env, db.status, db.reviews, db.tasks, db.outbox, db.files, db.signings)
    requires SameFileColumns(db.files, files) && SameSignedColumns(db.signings, signings)
    requires db.status != Completed || signings == db.signings
    ensures TaskOk(env, db.status, db.reviews, db.tasks, db.outbox, files, signings)
  {
  }

  lemma MoveKeepsHistory(db: Db, to: CaseStatus)
    requires HistoryReplays(db.history, db.status) && LegalMove(db.status, to)
    ensures HistoryReplays(Move(db, to).history, to)
  {
  }

  // ---------------------------------------------------------------- links and status

  lemma SubmitDraftKeeps(env: Env, now: nat, db: Db, expiresAt: nat)
    requires DbOk(env, now, db) && SubmitDraft(db, expiresAt).Ok?
    ensures DbOk(env, now, SubmitDraft(db, expiresAt).value)
  {
  }

  lemma DisableLinkKeeps(env: Env, now: nat, db: Db)
    requires DbOk(env, now, db) && DisableLink(db, now).Ok?
    ensures DbOk(env, now, DisableLink(db, now).value)
  {
  }

  lemma WithoutLiveHasNone(links: seq<Link>, now: nat)
    requires OneLiveLink(links, now)
    ensures forall i | 0 <= i < |WithoutLive(links, now)| :: !Live(WithoutLive(links, now)[i], now)
  {
  }

  lemma ReplaceLinkKeeps(env: Env, now: nat, db: Db, expiresAt: nat, requireExisting: bool)
    requires DbOk(env, now, db) && ReplaceLink(db, now, expiresAt, requireExisting).Ok?
    ensures DbOk(env, now, ReplaceLink(db, now, expiresAt, requireExisting).value)
  {
    WithoutLiveHasNone(db.links, now);
  }

  lemma CloseKeeps(env: Env, now: nat, db: Db)
    requires DbOk(env, now, db) && Close(db).Ok?
    ensures DbOk(env, now, Close(db).value)
  {
    MoveKeepsHistory(db, Closed);
  }

  lemma GenerateRejectionKeeps(env: Env, now: nat, db: Db, rotate: bool, expiresAt: nat)
    requires DbOk(env, now, db) && GenerateRejection(db, now, rotate, expiresAt).Ok?
    ensures DbOk(env, now, GenerateRejection(db, now, rotate, expiresAt).value)
  {
    WithoutLiveHasNone(db.links, now);
  }

  /** Time only closes links. */
  lemma TimeKeeps(env: Env, now: nat, later: nat, db: Db)
    requires DbOk(env, now, db) && now <= later
    ensures DbOk(env, later, db)
  {
    assert forall i | 0 <= i < |db.links| :: Live(db.links[i], later) ==> Live(db.links[i], now);
  }

  // ---------------------------------------------------------------- drafts, submission, previews, signing

  lemma DraftKeepsTables(env: Env, db: Db, draft: DraftRow)
    requires EvidenceOk(env, db.drafts, db.files, db.signings) && db.status != Completed
    requires TaskOk(env, db.status, db.reviews, db.tasks, db.outbox, db.files, db.signings)
    ensures var signings := WithDraft(env, db, draft).signings;
      && EvidenceOk(env, db.drafts + [draft], db.files, signings)
      && TaskOk(env, db.status, db.reviews, db.tasks, db.outbox, db.files, signings)
  {
    NewDraftKeeps(env, db, draft);
    EvidenceKeepsTask(env, db, db.files, WithDraft(env, db, draft).signings);
  }

  /** Before review the case has no task, so the gates and the coupling say nothing of the new status. */
  lemma EarlyMoveKeepsTask(env: Env, db: Db, to: CaseStatus)
    requires TaskOk(env, db.status, db.reviews, db.tasks, db.outbox, db.files, db.signings)
    requires !HasTask(db.status) && db.status != Closed && !HasTask(to)
    ensures TaskOk(env, to, db.reviews, db.tasks, db.outbox, db.files, db.signings)
  {
  }

  lemma SaveDraftKeeps(env: Env, now: nat, db: Db, draft: DraftRow)
    requires DbOk(env, now, db) && Editable(db.status)
    ensures DbOk(env, now, WithDraft(env, db, draft))
  {
    DraftKeepsTables(env, db, draft);
    if db.status == AwaitingCustomer {
      MoveKeepsHistory(db, CustomerEditing);
    }
  }

  lemma SpentLinkKeeps(links: seq<Link>, submissions: seq<nat>, now: nat, token: nat)
    requires OneLiveLink(links, now) && SubmissionsConsume(links, submissions)
    requires token < |links| && Live(links[token], now)
    ensures var spent := links[token := links[token].(consumed := true)];
      OneLiveLink(spent, now) && SubmissionsConsume(spent, submissions + [token])
  {
  }

  lemma SubmittedKeeps(env: Env, now: nat, db: Db, token: nat)
    requires DbOk(env, now, db) && (db.status == CustomerEditing || db.status == NeedsSupplement)
    requires token < |db.links| && Live(db.links[token], now)
    ensures DbOk(env, now, Submitted(db, token))
  {
    var to := if db.status == NeedsSupplement then PendingRereview else PendingReview;
    EarlyMoveKeepsTask(env, db, to);
    SpentLinkKeeps(db.links, db.submissions, now, token);
    MoveKeepsHistory(db, to);
  }

  lemma CommitSubmissionKeeps(env: Env, now: nat, db: Db, token: nat, ticket: SubmitTicket)
    requires DbOk(env, now, db) && CommitSubmission(env, db, now, token, ticket).Ok? && Editable(ticket.status)
    ensures DbOk(env, now, CommitSubmission(env, db, now, token, ticket).value)
  {
    SubmittedKeeps(env, now, db, token);
  }

  lemma RotationKeeps(env: Env, drafts: seq<DraftRow>, files: seq<FileRow>, signings: seq<Signing>)
    requires EvidenceOk(env, drafts, files, signings)
    ensures EvidenceOk(env, drafts, Rotate(files), signings) && ActivePreviewsFrom(Rotate(files), 0) <= 2
  {
    TombstonesKeep(env, drafts, files, Rotate(files), signings);
    RotationKeepsTwo(files, 0);
  }

  lemma NewPreviewKeeps(env: Env, drafts: seq<DraftRow>, files: seq<FileRow>, signings: seq<Signing>, r: Rendered)
    requires EvidenceOk(env, drafts, files, signings) && LastWhere(files, ServesDigest(r.digest)).None?
    requires RetainedBytes(Rotate(files), signings) + r.size <= MAX_CASE_BYTES && !KeyTaken(files, r.key)
    ensures EvidenceOk(env, drafts, Rotate(files) + [PreviewRow(r)], signings)
  {
    RotationKeeps(env, drafts, files, signings);
    assert LastWhere(Rotate(files), ServesDigest(r.digest)).None?;
    NewRowKeeps(env, drafts, Rotate(files), signings, PreviewRow(r));
  }

  lemma PreviewKeepsTask(env: Env, db: Db, r: Rendered)
    requires TaskOk(env, db.status, db.reviews, db.tasks, db.outbox, db.files, db.signings)
    ensures TaskOk(env, db.status, db.reviews, db.tasks, db.outbox, WithPreview(db, r).files, db.signings)
  {
    EvidenceKeepsTask(env, db, WithPreview(db, r).files, db.signings);
  }

  lemma PersistPreviewKeeps(env: Env, now: nat, db: Db, token: nat, r: Rendered)
    requires DbOk(env, now, db) && PersistPreview(env, db, now, token, r).Ok?
    ensures DbOk(env, now, PersistPreview(env, db, now, token, r).value.db)
  {
    if !PersistPreview(env, db, now, token, r).value.reused {
      NewPreviewKeeps(env, db.drafts, db.files, db.signings, r);
      PreviewKeepsTask(env, db, r);
    }
  }

  lemma DropCorruptPreviewKeeps(env: Env, now: nat, db: Db, i: nat)
    requires DbOk(env, now, db) && DropCorruptPreview(db, i).Ok?
    ensures DbOk(env, now, DropCorruptPreview(db, i).value)
  {
    var files := DropCorruptPreview(db, i).value.files;
    TombstonesKeep(env, db.drafts, db.files, files, db.signings);
    EvidenceKeepsTask(env, db, files, db.signings);
  }

  lemma WithSigningKeeps(env: Env, now: nat, db: Db, s: Signing)
    requires DbOk(env, now, db) && db.status != Completed && FreshSigning(env, db.drafts, db.files, s)
    ensures DbOk(env, now, WithSigning(db, s))
  {
    NewSigningKeeps(env, db.drafts, db.files, db.signings, s);
    EvidenceKeepsTask(env, db, db.files, WithSigning(db, s).signings);
  }

  /** What a ticket of the first signing phase always says of itself. */
  ghost predicate SignTicketOk(ticket: SignTicket) {
    && Editable(ticket.status) && IsResource(ticket.resourceRow)
    && (ticket.command.mode == SealMode ==> ticket.original.Some?)
    && ticket.resource == ticket.command.resource.index
    && ticket.original == (if ticket.command.mode == SealMode then ticket.command.sealOriginal else None)
  }

  /** The inserted record: every fact the signing needs was re-checked in the committing transaction. */
  lemma CommitSigningIsFresh(env: Env, now: nat, db: Db, token: nat, command: SigningCommand, ticket: SignTicket)
    requires FilesOk(db.files) && CommitSigning(env, db, now, token, command, ticket).Ok? && SignTicketOk(ticket)
    ensures db.status != Completed
    ensures exists s ::
      && FreshSigning(env, db.drafts, db.files, s)
      && CommitSigning(env, db, now, token, command, ticket).value == WithSigning(db, s)
  {
    var digest := ApiDigest(env, db.drafts[|db.drafts| - 1], db.files);
    var s := Signing(|db.drafts|, digest, command.mode, ticket.resource, ticket.preview, db.files[ticket.preview].sha,
      command.positions, true, true);
    assert CommitSigning(env, db, now, token, command, ticket).value == WithSigning(db, s);
    assert FreshSigning(env, db.drafts, db.files, s);
  }

  lemma CommitSigningKeeps(env: Env, now: nat, db: Db, token: nat, command: SigningCommand, ticket: SignTicket)
    requires DbOk(env, now, db) && CommitSigning(env, db, now, token, command, ticket).Ok? && SignTicketOk(ticket)
    ensures DbOk(env, now, CommitSigning(env, db, now, token, command, ticket).value)
  {
    CommitSigningIsFresh(env, now, db, token, command, ticket);
    var s :| FreshSigning(env, db.drafts, db.files, s)
      && CommitSigning(env, db, now, token, command, ticket).value == WithSigning(db, s);
    WithSigningKeeps(env, now, db, s);
  }

  // ---------------------------------------------------------------- files and review

  lemma UploadMaterialKeeps(env: Env, now: nat, db: Db, token: nat, reference: string, u: Upload)
    requires DbOk(env, now, db) && UploadMaterial(env, db, now, token, reference, u).Ok?
    ensures DbOk(env, now, UploadMaterial(env, db, now, token, reference, u).value.db)
  {
    var r := UploadMaterial(env, db, now, token, reference, u).value;
    if !r.reused {
      var f := MaterialRow(u, RequirementNamed(env.requirements, reference).value.id);
      NewMaterialKeeps(env, db.drafts, db.files, db.signings, f);
      EvidenceKeepsTask(env, db, db.files + [f], InvalidateAll(db.signings));
    }
  }

  lemma RemoveMaterialKeeps(env: Env, now: nat, db: Db, token: nat, i: nat)
    requires DbOk(env, now, db) && RemoveMaterial(db, now, token, i).Ok?
    ensures DbOk(env, now, RemoveMaterial(db, now, token, i).value)
  {
    RemovedMaterialKeeps(env, db.drafts, db.files, db.signings, i);
    EvidenceKeepsTask(env, db, WithoutMaterial(db, i).files, InvalidateAll(db.signings));
  }

  lemma UploadResourceKeeps(env: Env, now: nat, db: Db, token: nat, purpose: Purpose, original: Option<nat>, u: Upload)
    requires DbOk(env, now, db) && UploadResource(db, now, token, purpose, original, u).Ok?
    ensures DbOk(env, now, UploadResource(db, now, token, purpose, original, u).value.db)
  {
    var r := UploadResource(db, now, token, purpose, original, u).value;
    if !r.reused {
      NewRowKeeps(env, db.drafts, db.files, db.signings, ResourceRow(u, purpose, original));
      EvidenceKeepsTask(env, db, r.db.files, db.signings);
    }
  }

  lemma ReviewItemKeeps(
    env: Env, now: nat, db: Db, reviewer: string, requirement: string, decision: Decision, hasReason: bool)
    requires DbOk(env, now, db) && ReviewItem(env, db, reviewer, requirement, decision, hasReason).Ok?
    ensures DbOk(env, now, ReviewItem(env, db, reviewer, requirement, decision, hasReason).value)
  {
  }

  /** Confirmation never meets an existing task: the upsert always inserts. */
  lemma ConfirmInserts(env: Env, db: Db, reviewer: string, expiresAt: nat)
    requires TasksOk(db.status, db.tasks, db.signings) && Confirm(env, db, reviewer, expiresAt).Ok?
    ensures db.tasks == []
    ensures var after := Confirm(env, db, reviewer, expiresAt).value;
      if AnyRejected(db.reviews) then after.status == NeedsSupplement && after.tasks == []
      else after.status == Finalizing && exists s | 0 <= s < |db.signings| ::
        db.signings[s].valid && after.tasks == [NewTask(s + 1)]
  {
  }

  lemma ConfirmedMaterials(env: Env, db: Db)
    requires AllReviewed(env, db.reviews) && !AnyRejected(db.reviews)
    ensures MaterialsApproved(env, db.reviews)
  {
    forall r | r in env.requirements
      ensures r.id in db.reviews && db.reviews[r.id].decision == Approve
    {
      assert r.id in db.reviews;
    }
  }

  lemma SentBackKeeps(env: Env, now: nat, db: Db, expiresAt: nat)
    requires DbOk(env, now, db) && Reviewable(db.status)
    ensures DbOk(env, now, SentBack(db, expiresAt))
  {
    MoveKeepsHistory(db, NeedsSupplement);
  }

  lemma NewTaskKeeps(env: Env, db: Db, s: nat)
    requires TaskOk(env, db.status, db.reviews, db.tasks, db.outbox, db.files, db.signings)
    requires Reviewable(db.status) && s < |db.signings| && MaterialsApproved(env, db.reviews)
    ensures UpsertTask(db.tasks, s + 1) == [NewTask(s + 1)]
    ensures TaskOk(env, Finalizing, db.reviews, [NewTask(s + 1)], db.outbox, db.files, db.signings)
  {
  }

  lemma SentToFinalizingKeeps(env: Env, now: nat, db: Db, s: nat)
    requires DbOk(env, now, db) && Reviewable(db.status) && s < |db.signings| && MaterialsApproved(env, db.reviews)
    ensures DbOk(env, now, SentToFinalizing(db, s + 1))
  {
    NewTaskKeeps(env, db, s);
    MoveKeepsHistory(db, Finalizing);
  }

  lemma ConfirmKeeps(env: Env, now: nat, db: Db, reviewer: string, expiresAt: nat)
    requires DbOk(env, now, db) && Confirm(env, db, reviewer, expiresAt).Ok?
    ensures DbOk(env, now, Confirm(env, db, reviewer, expiresAt).value)
  {
    if AnyRejected(db.reviews) {
      SentBackKeeps(env, now, db, expiresAt);
    } else {
      ConfirmedMaterials(env, db);
      SentToFinalizingKeeps(env, now, db, LatestValid(db.signings).value);
    }
  }
}
