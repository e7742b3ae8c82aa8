/**
 The rows one business case owns in the database, and what the services compute from them.
 A version number of a draft or a signing is its position in the table plus one, because every
 insert takes the latest version plus one.
 */
module CaseModel {
  import opened Common
  import opened Placement
  import opened CanonicalJson

  type Bytes = seq<nat>
  type Digest = string

  const MAX_FILE_BYTES: nat := 20 * 1024 * 1024
  const MAX_MATERIAL_FILES: nat := 10
  const MAX_CASE_BYTES: nat := 200 * 1024 * 1024
  const DEFAULT_MAX_ATTEMPTS: nat := 3

  datatype CaseStatus =
    | Draft | AwaitingCustomer | CustomerEditing | PendingReview | NeedsSupplement
    | PendingRereview | Finalizing | PdfFailed | Completed | Closed

  datatype Link = Link(expiresAt: nat, disabled: bool, consumed: bool, completed: bool)

  datatype DraftRow = DraftRow(answers: seq<Entry>, materials: Option<Json>)

  datatype Purpose = Material | Handwritten | SealOriginal | SealProcessed | PresignPdf | FinalPdf
  datatype Mime = ApplicationPdf | ImagePng | ImageJpeg

  // A file record and its only version: no running service ever adds a second version to a record.
  datatype FileRow = FileRow(
    fileId: nat, requirement: Option<string>, name: string, mime: Mime, size: nat, sha: Digest, key: string,
    purpose: Purpose, digest: Option<Digest>, original: Option<nat>, cacheActive: bool, removed: bool)

  datatype Mode = HandwrittenMode | SealMode

  datatype Signing = Signing(
    draftVersion: nat, contentDigest: Digest, mode: Mode, resource: nat, preview: nat, previewSha: Digest,
    positions: seq<Position>, declarationAccepted: bool, valid: bool)

  datatype Decision = Approve | Reject
  datatype Review = Review(decision: Decision, version: nat)

  datatype HistoryRow = HistoryRow(from: Option<CaseStatus>, to: CaseStatus)

  datatype TaskStatus = Queued | Processing | Succeeded | Failed
  datatype Delivery = NotReady | Pending | Delivered | DeliveryFailed
  // `staging/<task>/v<version>.stage`, as the pair that determines it.
  datatype StageKey = StageKey(task: nat, version: nat)
  datatype Journal = Journal(key: StageKey, sha: Digest, size: nat)
  datatype Output = Output(file: nat, sha: Digest)

  datatype PdfTask = PdfTask(
    snapshotVersion: nat, signatureVersion: nat, status: TaskStatus, attempts: nat, maxAttempts: nat,
    lease: Option<nat>, startedAt: Option<nat>, claimGeneration: nat, queueGeneration: nat, deliveryGeneration: nat,
    pending: Option<Journal>, output: Option<Output>, failure: Option<string>,
    delivery: Delivery, deliveryAttempts: nat, deliveryFailure: Option<string>)

  datatype Queue = FinalQueue | FinalizedQueue
  datatype Payload =
    | RenderJob(task: nat, version: nat)
    | Finalized(task: nat, version: nat, file: nat, sha: Digest)
  datatype OutboxRow = OutboxRow(task: nat, queue: Queue, generation: nat, payload: Payload, published: Option<string>,
    attempts: nat)

  datatype Requirement = Requirement(id: string, key: string, maxFileBytes: Option<nat>, maxFiles: Option<nat>,
    maxCaseBytes: Option<nat>)

  /** What a content digest covers besides the immutable template and snapshot. */
  datatype FileMeta = FileMeta(fileId: nat, name: string, mime: Mime, size: nat, sha: Digest,
    requirement: Option<string>)
  datatype Content = Content(answers: seq<Entry>, materials: Json, files: seq<FileMeta>)

  // Everything that never changes while the case lives: the frozen snapshot, the published template's slots, the two
  // hash functions, what the renderer may return for the signed content, and what the PDF parser accepts. SHA-256 is
  // any function; collision-freedom is assumed only by name.
  datatype Env = Env(
    caseId: string, requirements: seq<Requirement>, materials: Json, slots: seq<Slot>,
    contentDigest: Content -> Digest, sha: Bytes -> Digest, renders: Bytes -> bool, parses: Bytes -> bool)

  predicate EndsAt(bytes: Bytes, i: nat) {
    i + 5 <= |bytes| && bytes[i..i + 5] == [37, 37, 69, 79, 70]
  }

  /** `validateFileContent` for a PDF: `%PDF-` at byte zero and `%%EOF` somewhere. */
  predicate LooksLikePdf(bytes: Bytes) {
    |bytes| >= 8 && bytes[..5] == [37, 80, 68, 70, 45] && exists i | 0 <= i < |bytes| :: EndsAt(bytes, i)
  }

  /** What passes `validateFileContent` and `validateReadablePdf`, which refuses large files itself. */
  predicate ReadablePdf(env: Env, bytes: Bytes) {
    |bytes| <= MAX_FILE_BYTES && LooksLikePdf(bytes) && env.parses(bytes)
  }

  datatype Db = Db(
    status: CaseStatus, reviewer: Option<string>, templatePublished: bool,
    drafts: seq<DraftRow>, files: seq<FileRow>, signings: seq<Signing>, reviews: map<string, Review>,
    links: seq<Link>, submissions: seq<nat>, history: seq<HistoryRow>,
    tasks: seq<PdfTask>, outbox: seq<OutboxRow>)

  /** The case as `CaseRepository.create` leaves it. */
  function Created(reviewer: Option<string>): Db {
    Db(Draft, reviewer, true, [], [], [], map[], [], [], [HistoryRow(None, Draft)], [], [])
  }

  // ---------------------------------------------------------------- status and links

  function Move(db: Db, to: CaseStatus): Db {
    db.(status := to, history := db.history + [HistoryRow(Some(db.status), to)])
  }

  predicate Live(link: Link, now: nat) {
    link.expiresAt > now && !link.disabled && !link.consumed && !link.completed
  }

  /** The token of link number `token` opens the case. */
  predicate Resolves(db: Db, now: nat, token: nat) {
    token < |db.links| && Live(db.links[token], now) && db.status != Completed && db.status != Closed
  }

  function DisableAll(links: seq<Link>): seq<Link> {
    seq(|links|, i requires 0 <= i < |links| => links[i].(disabled := true))
  }

  /** The links finalization closes: those neither disabled nor completed before. */
  function CompleteAll(links: seq<Link>): seq<Link> {
    seq(|links|, i requires 0 <= i < |links| =>
      if !links[i].disabled && !links[i].completed then links[i].(disabled := true, completed := true) else links[i])
  }

  function FirstLive(links: seq<Link>, now: nat): (r: Option<nat>)
    ensures r.Some? ==> r.value < |links| && Live(links[r.value], now)
    ensures r.None? ==> forall i | 0 <= i < |links| :: !Live(links[i], now)
  {
    if links == [] then None
    else if Live(links[|links| - 1], now) && FirstLive(links[..|links| - 1], now).None? then Some(|links| - 1)
    else FirstLive(links[..|links| - 1], now)
  }

  // ---------------------------------------------------------------- signings

  function InvalidateAll(signings: seq<Signing>): seq<Signing> {
    seq(|signings|, i requires 0 <= i < |signings| => signings[i].(valid := false))
  }

  function LatestValid(signings: seq<Signing>): (r: Option<nat>)
    ensures r.Some? ==> r.value < |signings| && signings[r.value].valid
    ensures r.None? ==> forall i | 0 <= i < |signings| :: !signings[i].valid
    ensures r.Some? ==> forall i | r.value < i < |signings| :: !signings[i].valid
  {
    if signings == [] then None
    else if signings[|signings| - 1].valid then Some(|signings| - 1)
    else LatestValid(signings[..|signings| - 1])
  }

  // ---------------------------------------------------------------- files

  predicate IsActiveMaterial(f: FileRow) { f.purpose == Material && !f.removed }

  predicate IsActivePreview(f: FileRow) { f.purpose == PresignPdf && f.cacheActive && !f.removed }

  function Select(files: seq<FileRow>, p: FileRow -> bool): seq<FileRow> {
    if files == [] then []
    else Select(files[..|files| - 1], p) + (if p(files[|files| - 1]) then [files[|files| - 1]] else [])
  }

  function Insert(f: FileRow, sorted: seq<FileRow>): seq<FileRow> {
    if sorted == [] then [f]
    else if sorted[|sorted| - 1].fileId <= f.fileId then sorted + [f]
    else Insert(f, sorted[..|sorted| - 1]) + [sorted[|sorted| - 1]]
  }

  /** `orderBy fileId asc, version asc`: every record has one version, so the record id decides. */
  function ByFileId(files: seq<FileRow>): seq<FileRow> {
    if files == [] then [] else Insert(files[|files| - 1], ByFileId(files[..|files| - 1]))
  }

  function Metas(files: seq<FileRow>): seq<FileMeta> {
    seq(|files|, i requires 0 <= i < |files| =>
      FileMeta(files[i].fileId, files[i].name, files[i].mime, files[i].size, files[i].sha, files[i].requirement))
  }

  /** The API reads every file version in order and then filters. */
  function ApiFiles(files: seq<FileRow>): seq<FileMeta> {
    Metas(Select(ByFileId(files), IsActiveMaterial))
  }

  /** The worker asks the database for the active materials only, in the same order. */
  function WorkerFiles(files: seq<FileRow>): seq<FileMeta> {
    Metas(ByFileId(Select(files, IsActiveMaterial)))
  }

  /** JavaScript's `??` on an optional JSON value: absent and null both fall through. */
  function Nullish(v: Option<Json>, fallback: Json): Json {
    if v.Some? && v.value != JNull then v.value else fallback
  }

  function ContentOf(env: Env, draft: DraftRow, files: seq<FileMeta>): Content {
    Content(draft.answers, Nullish(draft.materials, env.materials), files)
  }

  function ApiDigest(env: Env, draft: DraftRow, files: seq<FileRow>): Digest {
    env.contentDigest(ContentOf(env, draft, ApiFiles(files)))
  }

  function WorkerDigest(env: Env, draft: DraftRow, files: seq<FileRow>): Digest {
    env.contentDigest(ContentOf(env, draft, WorkerFiles(files)))
  }

  predicate Retained(files: seq<FileRow>, signings: seq<Signing>, i: nat)
    requires i < |files|
  {
    || !files[i].removed
    || (exists k | 0 <= k < |signings| :: signings[k].preview == i)
    || (exists k | 0 <= k < |signings| :: signings[k].resource == i)
    || (exists j | 0 <= j < |files| :: files[j].original == Some(i) && exists k | 0 <= k < |signings| ::
          signings[k].resource == j)
    || files[i].purpose == FinalPdf
  }

  function RetainedUpTo(files: seq<FileRow>, signings: seq<Signing>, n: nat): nat
    requires n <= |files|
  {
    if n == 0 then 0
    else RetainedUpTo(files, signings, n - 1) + if Retained(files, signings, n - 1) then files[n - 1].size else 0
  }

  /** Sum of the sizes of the evidence-bearing files: active ones and those any signing pins. */
  function RetainedBytes(files: seq<FileRow>, signings: seq<Signing>): nat {
    RetainedUpTo(files, signings, |files|)
  }

  function LastWhere(files: seq<FileRow>, p: FileRow -> bool): (r: Option<nat>)
    ensures r.Some? ==> r.value < |files| && p(files[r.value])
    ensures r.Some? ==> forall i | r.value < i < |files| :: !p(files[i])
    ensures r.None? ==> forall i | 0 <= i < |files| :: !p(files[i])
  {
    if files == [] then None
    else if p(files[|files| - 1]) then Some(|files| - 1)
    else LastWhere(files[..|files| - 1], p)
  }

  /** The unique index on storage keys refuses a second row. */
  predicate KeyTaken(files: seq<FileRow>, key: string) {
    exists i | 0 <= i < |files| :: files[i].key == key
  }

  /** How many rows from index `from` on are previews the cache may still serve. */
  function ActivePreviewsFrom(files: seq<FileRow>, from: nat): nat
    requires from <= |files|
    decreases |files| - from
  {
    if from == |files| then 0
    else (if IsActivePreview(files[from]) then 1 else 0) + ActivePreviewsFrom(files, from + 1)
  }

  /** Rotation retires every active preview with at least two newer active ones. */
  predicate Retires(files: seq<FileRow>, i: nat)
    requires i < |files|
  {
    IsActivePreview(files[i]) && ActivePreviewsFrom(files, i + 1) >= 2
  }

  function Tombstone(f: FileRow): FileRow { f.(cacheActive := false, removed := true) }

  function Rotate(files: seq<FileRow>): seq<FileRow> {
    seq(|files|, i requires 0 <= i < |files| => if Retires(files, i) then Tombstone(files[i]) else files[i])
  }

  // ---------------------------------------------------------------- tasks

  predicate SigningOfTaskValid(db: Db, t: PdfTask) {
    1 <= t.signatureVersion <= |db.signings| && db.signings[t.signatureVersion - 1].valid
  }

  function RequirementNamed(requirements: seq<Requirement>, reference: string): (r: Option<Requirement>)
    ensures r.Some? ==> r.value in requirements && (r.value.id == reference || r.value.key == reference)
    ensures r.None? ==> forall q | q in requirements :: q.id != reference && q.key != reference
  {
    if requirements == [] then None
    else if requirements[0].id == reference || requirements[0].key == reference then Some(requirements[0])
    else RequirementNamed(requirements[1..], reference)
  }
}
