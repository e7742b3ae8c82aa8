/**
 What each database transaction of the case, file and review services does to the case's rows:
 the value after the commit, or the refusal, which leaves every row as it was.
 */
module CaseTransactions {
  import opened Common
  import opened Placement
  import opened CanonicalJson
  import opened CaseModel

  // ---------------------------------------------------------------- case.service.ts: links and closing

  function SubmitDraft(db: Db, expiresAt: nat): Result<Db> {
    if db.status != Draft then Err(StatusNotAllowed)
    else Ok(Move(db, AwaitingCustomer).(links := DisableAll(db.links) + [Link(expiresAt, false, false, false)]))
  }

  function DisableLink(db: Db, now: nat): Result<Db> {
    match FirstLive(db.links, now)
    case None => Err(LinkNotFound)
    case Some(i) => Ok(db.(links := db.links[i := db.links[i].(disabled := true)]))
  }

  function WithoutLive(links: seq<Link>, now: nat): seq<Link> {
    match FirstLive(links, now)
    case None => links
    case Some(i) => links[i := links[i].(disabled := true)]
  }

  function ReplaceLink(db: Db, now: nat, expiresAt: nat, requireExisting: bool): Result<Db> {
    if requireExisting && FirstLive(db.links, now).None? then Err(LinkNotFound)
    else Ok(db.(links := WithoutLive(db.links, now) + [Link(expiresAt, false, false, false)]))
  }

  function Close(db: Db): Result<Db> {
    if db.status == Completed || db.status == Closed then Err(StatusNotAllowed)
    else Ok(Move(db, Closed).(links := DisableAll(db.links)))
  }

  // ---------------------------------------------------------------- case.service.ts: drafts

  predicate Editable(status: CaseStatus) {
    status == AwaitingCustomer || status == CustomerEditing || status == NeedsSupplement
  }

  /** Keys a supplement may touch: ids and keys of the rejected requirements of the snapshot. */
  predicate SupplementKey(env: Env, reviews: map<string, Review>, key: string) {
    exists r | r in env.requirements ::
      (key == r.id || key == r.key) && r.id in reviews && reviews[r.id].decision == Reject
  }

  function PreviousAnswers(drafts: seq<DraftRow>): seq<Entry> {
    if drafts == [] then [] else drafts[|drafts| - 1].answers
  }

  /** Every answer that is present and differs from the previous draft's belongs to a rejected item. */
  predicate SupplementAccepted(env: Env, db: Db, answers: seq<Entry>) {
    forall e | e in answers ::
      || SupplementKey(env, db.reviews, e.key)
      || e.key == "materialsVersion"
      || Lookup(answers, e.key) == Lookup(PreviousAnswers(db.drafts), e.key)
  }

  datatype SaveRequest = SaveRequest(baseVersion: int, force: bool, answers: seq<Entry>, materials: Option<Json>)

  function DraftOf(request: SaveRequest): DraftRow {
    var fromAnswers := Lookup(request.answers, "__materials");
    DraftRow(request.answers,
      if request.materials.Some? && request.materials.value != JNull then request.materials
      else if fromAnswers.Some? && fromAnswers.value != JNull then fromAnswers else None)
  }

  predicate ContentChanges(env: Env, db: Db, draft: DraftRow) {
    db.drafts == [] || ApiDigest(env, db.drafts[|db.drafts| - 1], db.files) != ApiDigest(env, draft, db.files)
  }

  /** The rows after a draft is stored: a content change invalidates every signing. */
  function WithDraft(env: Env, db: Db, draft: DraftRow): Db {
    (if db.status == AwaitingCustomer then Move(db, CustomerEditing) else db).(
      drafts := db.drafts + [draft],
      signings := if ContentChanges(env, db, draft) then InvalidateAll(db.signings) else db.signings)
  }

  function SaveDraft(env: Env, db: Db, now: nat, token: nat, request: SaveRequest): Result<Db> {
    if !Resolves(db, now, token) then Err(LinkUnavailable)
    else if !Editable(db.status) then Err(StatusNotAllowed)
    else if !request.force && |db.drafts| != request.baseVersion then Err(DraftVersionConflict)
    else if db.status == NeedsSupplement && !SupplementAccepted(env, db, request.answers) then Err(Error.SupplementOnly)
    else if !db.templatePublished then Err(TemplateNotPublished)
    else Ok(WithDraft(env, db, DraftOf(request)))
  }

  // ---------------------------------------------------------------- case.service.ts: formal submission

  /** What the first phase of the submission saw; the second phase runs after the preview bytes were read. */
  datatype SubmitTicket = SubmitTicket(
    status: CaseStatus, draftVersion: nat, digest: Digest, signing: nat, preview: nat, previewSha: Digest)

  function VerifySubmission(env: Env, db: Db, now: nat, token: nat, signingVersion: nat): Result<SubmitTicket> {
    if !Resolves(db, now, token) then Err(LinkUnavailable)
    else if !Editable(db.status) then Err(StatusNotAllowed)
    else if db.drafts == [] then Err(DraftMissing)
    else if !db.templatePublished then Err(TemplateNotPublished)
    else
      var digest := ApiDigest(env, db.drafts[|db.drafts| - 1], db.files);
      match LatestValid(db.signings)
      case None => Err(SigningExpired)
      case Some(s) =>
        var signing := db.signings[s];
        if s + 1 != signingVersion || signing.contentDigest != digest || signing.preview >= |db.files|
           || db.files[signing.preview].mime != ApplicationPdf || signing.previewSha != db.files[signing.preview].sha
        then Err(SigningExpired)
        else Ok(SubmitTicket(db.status, |db.drafts|, digest, s, signing.preview, signing.previewSha))
  }

  /** The case moves on to review and the link that submitted it is spent. */
  function Submitted(db: Db, token: nat): Db
    requires token < |db.links|
  {
    Move(db, if db.status == NeedsSupplement then PendingRereview else PendingReview).(
      links := db.links[token := db.links[token].(consumed := true)],
      submissions := db.submissions + [token])
  }

  function CommitSubmission(env: Env, db: Db, now: nat, token: nat, ticket: SubmitTicket): Result<Db> {
    if !Resolves(db, now, token) then Err(LinkUnavailable)
    else if db.status != ticket.status || |db.drafts| != ticket.draftVersion || db.drafts == []
      then Err(ChangedSinceVerification)
    else if !db.templatePublished then Err(TemplateNotPublished)
    else
      var digest := ApiDigest(env, db.drafts[|db.drafts| - 1], db.files);
      if digest != ticket.digest || ticket.signing >= |db.signings| then Err(ChangedSinceVerification)
      else
        var signing := db.signings[ticket.signing];
        if !signing.valid || signing.contentDigest != digest || signing.preview != ticket.preview
           || signing.preview >= |db.files| || signing.previewSha != ticket.previewSha
           || db.files[signing.preview].sha != ticket.previewSha
        then Err(ChangedSinceVerification)
        else Ok(Submitted(db, token))
  }

  // ---------------------------------------------------------------- case.service.ts: preview cache

  datatype Rendered = Rendered(digest: Digest, fileId: nat, size: nat, sha: Digest, key: string)

  datatype Persisted = Persisted(db: Db, version: nat, reused: bool, retiredKeys: set<string>)

  function PreviewRow(r: Rendered): FileRow {
    FileRow(r.fileId, None, "preview.pdf", ApplicationPdf, r.size, r.sha, r.key, PresignPdf, Some(r.digest), None, true,
      false)
  }

  function ServesDigest(digest: Digest): FileRow -> bool {
    (f: FileRow) => IsActivePreview(f) && f.digest == Some(digest)
  }

  predicate PreviewReferenced(signings: seq<Signing>, i: nat) {
    exists k | 0 <= k < |signings| :: signings[k].preview == i
  }

  /** Storage keys of the previews this rotation retires and no signing refers to. */
  function RetiredKeys(files: seq<FileRow>, signings: seq<Signing>): set<string> {
    set i | 0 <= i < |files| && Retires(files, i) && !PreviewReferenced(signings, i) :: files[i].key
  }

  /** Older previews are rotated out before the new one is added. */
  function WithPreview(db: Db, r: Rendered): Db {
    db.(files := Rotate(db.files) + [PreviewRow(r)])
  }

  function PersistPreview(env: Env, db: Db, now: nat, token: nat, r: Rendered): Result<Persisted> {
    if !Resolves(db, now, token) then Err(LinkUnavailable)
    else if db.drafts == [] then Err(DraftMissing)
    else if !db.templatePublished then Err(TemplateNotPublished)
    else if ApiDigest(env, db.drafts[|db.drafts| - 1], db.files) != r.digest then Err(PreviewOutdated)
    else match LastWhere(db.files, ServesDigest(r.digest))
      case Some(i) => Ok(Persisted(db, i, true, {}))
      case None =>
        var rotated := Rotate(db.files);
        if RetainedBytes(rotated, db.signings) + r.size > MAX_CASE_BYTES then Err(CapacityExceeded)
        else if KeyTaken(db.files, r.key) then Err(StorageKeyTaken)
        else Ok(Persisted(WithPreview(db, r), |rotated|, false, RetiredKeys(db.files, db.signings) - {r.key}))
  }

  /** `validPresignCache` found the bytes of a cached preview missing or altered. */
  function DropCorruptPreview(db: Db, i: nat): Result<Db> {
    if i < |db.files| && db.files[i].purpose == PresignPdf && db.files[i].cacheActive
    then Ok(db.(files := db.files[i := Tombstone(db.files[i])]))
    else Err(FileNotFound)
  }

  // ---------------------------------------------------------------- case.service.ts: ordinary signing

  datatype ResourceRef = ByVersionId(index: nat) | ByFileId(index: nat)

  datatype SigningCommand = SigningCommand(
    mode: Mode, resource: ResourceRef, resourceVersion: nat, positions: seq<Position>, declaration: bool,
    sealOriginal: Option<nat>)

  predicate IsResource(f: FileRow) {
    f.purpose == Handwritten || f.purpose == SealOriginal || f.purpose == SealProcessed
  }

  predicate BindingValid(mode: Mode, resource: FileRow, original: Option<nat>) {
    && (mode == HandwrittenMode ==> resource.purpose == Handwritten)
    && (mode == SealMode ==> resource.purpose == SealOriginal || resource.purpose == SealProcessed)
    && (mode == SealMode && resource.purpose == SealProcessed ==> original.Some? && resource.original == original)
  }

  function ValidateCommand(command: SigningCommand, slots: seq<Slot>): Option<Error> {
    if !command.declaration then Some(DeclarationMissing)
    else if !PositionsAccepted(command.positions, slots) then Some(PlacementInvalid)
    else None
  }

  function HasDigest(digest: Digest): FileRow -> bool {
    (f: FileRow) => f.purpose == PresignPdf && f.digest == Some(digest)
  }

  // The rows are named by index; their immutable columns travel in the ticket, as in the source.
  datatype SignTicket = SignTicket(
    status: CaseStatus, draftVersion: nat, digest: Digest, command: SigningCommand,
    resource: nat, resourceRow: FileRow, original: Option<nat>, originalRow: Option<FileRow>,
    preview: nat, previewRow: FileRow)

  function FindResource(db: Db, command: SigningCommand): Option<nat> {
    var i := command.resource.index;
    if i < |db.files| && command.resourceVersion == 1 && IsResource(db.files[i]) && !db.files[i].removed
      then Some(i) else None
  }

  function FindOriginal(db: Db, i: nat): Option<nat> {
    if i < |db.files| && db.files[i].purpose == SealOriginal && !db.files[i].removed then Some(i) else None
  }

  function VerifySigning(env: Env, db: Db, now: nat, token: nat, command: SigningCommand): Result<SignTicket> {
    if !Resolves(db, now, token) then Err(LinkUnavailable)
    else if !Editable(db.status) then Err(StatusNotAllowed)
    else if db.drafts == [] then Err(DraftMissing)
    else if !db.templatePublished then Err(TemplateNotPublished)
    else if ValidateCommand(command, env.slots).Some? then Err(ValidateCommand(command, env.slots).value)
    else
      var digest := ApiDigest(env, db.drafts[|db.drafts| - 1], db.files);
      var resource := FindResource(db, command);
      if resource.None? then Err(ResourceMissing)
      else if command.mode == SealMode
        && (command.sealOriginal.None? || FindOriginal(db, command.sealOriginal.value).None?)
        then Err(SealOriginalMissing)
      else
        var original := if command.mode == SealMode then command.sealOriginal else None;
        if !BindingValid(command.mode, db.files[resource.value], original) then Err(BindingInvalid)
        else match LastWhere(db.files, HasDigest(digest))
          case None => Err(PreviewMissing)
          case Some(p) => Ok(SignTicket(
            db.status, |db.drafts|, digest, command, resource.value, db.files[resource.value],
            original, if original.Some? then Some(db.files[original.value]) else None, p, db.files[p]))
  }

  /** The columns the second phase compares: id, version and purpose by the query, hash and key explicitly. */
  predicate SameFile(f: FileRow, seen: FileRow) {
    f.purpose == seen.purpose && f.sha == seen.sha && f.key == seen.key && !f.removed
  }

  /** Re-signing supersedes: every earlier signing loses its validity. */
  function WithSigning(db: Db, s: Signing): Db {
    db.(signings := InvalidateAll(db.signings) + [s])
  }

  function CommitSigning(
    env: Env, db: Db, now: nat, token: nat, command: SigningCommand, ticket: SignTicket): Result<Db> {
    if !Resolves(db, now, token) then Err(LinkUnavailable)
    else if db.status != ticket.status || |db.drafts| != ticket.draftVersion || db.drafts == []
      then Err(ChangedSinceVerification)
    else if !db.templatePublished then Err(TemplateNotPublished)
    else
      var digest := ApiDigest(env, db.drafts[|db.drafts| - 1], db.files);
      if digest != ticket.digest then Err(ChangedSinceVerification)
      else if ValidateCommand(command, env.slots).Some? then Err(ValidateCommand(command, env.slots).value)
      else if command != ticket.command
         || ticket.resource >= |db.files| || !SameFile(db.files[ticket.resource], ticket.resourceRow)
         || db.files[ticket.resource].original != ticket.resourceRow.original
         || (ticket.original.Some? && (FindOriginal(db, ticket.original.value).None? || ticket.originalRow.None?
             || !SameFile(db.files[ticket.original.value], ticket.originalRow.value)))
      then Err(ChangedSinceVerification)
      else if !BindingValid(command.mode, db.files[ticket.resource], ticket.original) then Err(BindingInvalid)
      else if ticket.preview >= |db.files| || db.files[ticket.preview].purpose != PresignPdf
              || db.files[ticket.preview].digest != Some(digest)
              || !SameFile(db.files[ticket.preview], ticket.previewRow)
      then Err(ChangedSinceVerification)
      else Ok(WithSigning(db, Signing(
        |db.drafts|, digest, command.mode, ticket.resource, ticket.preview, db.files[ticket.preview].sha,
        command.positions, true, true)))
  }

  // ---------------------------------------------------------------- file.service.ts

  datatype Upload = Upload(fileId: nat, name: string, mime: Mime, size: nat, sha: Digest, key: string)

  function Limit(catalog: Option<nat>, system: nat): nat {
    if catalog.Some? && 0 < catalog.value < system then catalog.value else system
  }

  function DuplicateOf(requirement: string, sha: Digest): FileRow -> bool {
    (f: FileRow) => IsActiveMaterial(f) && f.sha == sha && f.requirement == Some(requirement)
  }

  function CountFor(files: seq<FileRow>, requirement: string): nat {
    |Select(files, (f: FileRow) => !f.removed && f.requirement == Some(requirement))|
  }

  /** The row the upload answers with: an existing one when `reused`. */
  datatype Uploaded = Uploaded(db: Db, version: nat, reused: bool)

  function MaterialRow(u: Upload, requirement: string): FileRow {
    FileRow(u.fileId, Some(requirement), u.name, u.mime, u.size, u.sha, u.key, Material, None, None, true, false)
  }

  /** A changed material set invalidates every signing. */
  function WithMaterial(db: Db, f: FileRow): Db {
    db.(files := db.files + [f], signings := InvalidateAll(db.signings))
  }

  function WithoutMaterial(db: Db, i: nat): Db
    requires i < |db.files|
  {
    db.(files := db.files[i := db.files[i].(removed := true)], signings := InvalidateAll(db.signings))
  }

  function UploadMaterial(env: Env, db: Db, now: nat, token: nat, reference: string, u: Upload): Result<Uploaded> {
    if u.size > MAX_FILE_BYTES then Err(FileTooLarge)
    else if !Resolves(db, now, token) then Err(LinkUnavailable)
    else match RequirementNamed(env.requirements, reference)
      case None => Err(RequirementUnknown)
      case Some(r) =>
        if u.size > Limit(r.maxFileBytes, MAX_FILE_BYTES) then Err(FileTooLarge)
        else match LastWhere(db.files, DuplicateOf(r.id, u.sha))
          case Some(i) => Ok(Uploaded(db, i, true))
          case None =>
            if CountFor(db.files, r.id) + 1 > Limit(r.maxFiles, MAX_MATERIAL_FILES) then Err(FileCountExceeded)
            else if RetainedBytes(db.files, db.signings) + u.size > Limit(r.maxCaseBytes, MAX_CASE_BYTES)
              then Err(CapacityExceeded)
            else if KeyTaken(db.files, u.key) then Err(StorageKeyTaken)
            else Ok(Uploaded(WithMaterial(db, MaterialRow(u, r.id)), |db.files|, false))
  }

  function RemoveMaterial(db: Db, now: nat, token: nat, i: nat): Result<Db> {
    if !Resolves(db, now, token) then Err(LinkUnavailable)
    else if i >= |db.files| || !IsActiveMaterial(db.files[i]) then Err(FileNotFound)
    else Ok(WithoutMaterial(db, i))
  }

  function DuplicateResource(purpose: Purpose, sha: Digest, original: Option<nat>): FileRow -> bool {
    (f: FileRow) => f.purpose == purpose && f.sha == sha && f.original == original && !f.removed
  }

  function ResourceRow(u: Upload, purpose: Purpose, original: Option<nat>): FileRow {
    FileRow(u.fileId, None, u.name, u.mime, u.size, u.sha, u.key, purpose, None, original, true, false)
  }

  function UploadResource(
    db: Db, now: nat, token: nat, purpose: Purpose, original: Option<nat>, u: Upload): Result<Uploaded> {
    if u.size > MAX_FILE_BYTES then Err(FileTooLarge)
    else if u.mime == ApplicationPdf || purpose !in {Handwritten, SealOriginal, SealProcessed}
            || (purpose == SealProcessed) != original.Some? then Err(BindingInvalid)
    else if !Resolves(db, now, token) then Err(LinkUnavailable)
    else if original.Some? && FindOriginal(db, original.value).None? then Err(SealOriginalMissing)
    else match LastWhere(db.files, DuplicateResource(purpose, u.sha, original))
      case Some(i) => Ok(Uploaded(db, i, true))
      case None =>
        if RetainedBytes(db.files, db.signings) + u.size > MAX_CASE_BYTES then Err(CapacityExceeded)
        else if KeyTaken(db.files, u.key) then Err(StorageKeyTaken)
        else Ok(Uploaded(db.(files := db.files + [ResourceRow(u, purpose, original)]), |db.files|, false))
  }

  // ---------------------------------------------------------------- review.service.ts

  predicate Reviewable(status: CaseStatus) { status == PendingReview || status == PendingRereview }

  function ClaimReview(db: Db, reviewer: string): Result<Db> {
    if db.reviewer.None? && Reviewable(db.status)
      then Ok(db.(reviewer := Some(reviewer))) else Err(ReviewAssignmentChanged)
  }

  function AssignReviewer(db: Db, reviewer: string, hasReason: bool): Result<Db> {
    if db.status == Completed || db.status == Closed then Err(StatusNotAllowed)
    else if db.reviewer.Some? && !hasReason then Err(ReasonRequired)
    else Ok(db.(reviewer := Some(reviewer)))
  }

  predicate Included(env: Env, requirement: string) {
    exists r | r in env.requirements :: r.id == requirement
  }

  function ReviewItem(
    env: Env, db: Db, reviewer: string, requirement: string, decision: Decision, hasReason: bool): Result<Db> {
    if decision == Reject && !hasReason then Err(ReasonRequired)
    else if db.reviewer != Some(reviewer) || !Reviewable(db.status) then Err(ReviewAssignmentChanged)
    else if !Included(env, requirement) then Err(RequirementUnknown)
    else if db.status == PendingRereview && requirement in db.reviews && db.reviews[requirement].decision == Approve
      then Err(ReviewLocked)
    else
      var version := if requirement in db.reviews then db.reviews[requirement].version + 1 else 1;
      Ok(db.(reviews := db.reviews[requirement := Review(decision, version)]))
  }

  predicate AllReviewed(env: Env, reviews: map<string, Review>) {
    forall r | r in env.requirements :: r.id in reviews
  }

  predicate AnyRejected(reviews: map<string, Review>) {
    exists r | r in reviews :: reviews[r].decision == Reject
  }

  function NewTask(signatureVersion: nat): PdfTask {
    PdfTask(1, signatureVersion, Queued, 0, DEFAULT_MAX_ATTEMPTS, None, None, 0, 0, 0, None, None, None, NotReady, 0,
      None)
  }

  /** The task the idempotency key names; within one case only the signing version varies. */
  function TaskKeyed(tasks: seq<PdfTask>, signatureVersion: nat): (r: Option<nat>)
    ensures r.Some? ==> r.value < |tasks| && tasks[r.value].signatureVersion == signatureVersion
    ensures r.None? ==> forall i | 0 <= i < |tasks| :: tasks[i].signatureVersion != signatureVersion
  {
    if tasks == [] then None
    else if tasks[|tasks| - 1].signatureVersion == signatureVersion then Some(|tasks| - 1)
    else TaskKeyed(tasks[..|tasks| - 1], signatureVersion)
  }

  function UpsertTask(tasks: seq<PdfTask>, signatureVersion: nat): seq<PdfTask> {
    match TaskKeyed(tasks, signatureVersion)
    case None => tasks + [NewTask(signatureVersion)]
    case Some(i) => tasks[i := tasks[i].(status := Queued, failure := None)]
  }

  function SentBack(db: Db, expiresAt: nat): Db {
    Move(db, NeedsSupplement).(links := DisableAll(db.links) + [Link(expiresAt, false, false, false)])
  }

  function SentToFinalizing(db: Db, signatureVersion: nat): Db {
    Move(db, Finalizing).(tasks := UpsertTask(db.tasks, signatureVersion))
  }

  function Confirm(env: Env, db: Db, reviewer: string, expiresAt: nat): Result<Db> {
    if db.reviewer != Some(reviewer) || !Reviewable(db.status) then Err(ReviewAssignmentChanged)
    else if env.requirements == [] || !AllReviewed(env, db.reviews) then Err(ReviewIncomplete)
    else if AnyRejected(db.reviews) then Ok(SentBack(db, expiresAt))
    else match LatestValid(db.signings)
      case None => Err(SigningMissing)
      case Some(s) => Ok(SentToFinalizing(db, s + 1))
  }

  function GenerateRejection(db: Db, now: nat, rotate: bool, expiresAt: nat): Result<Db> {
    if db.status != NeedsSupplement || !AnyRejected(db.reviews) then Err(StatusNotAllowed)
    else if FirstLive(db.links, now).Some? && !rotate then Err(LinkAlreadyActive)
    else Ok(db.(links := WithoutLive(db.links, now) + [Link(expiresAt, false, false, false)]))
  }
}
