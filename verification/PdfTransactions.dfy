/**
 The transactions of the final-PDF protocol: the worker's claim, journal, completion and failure,
 the operator's retry and the finalizer's commit.
 */
module PdfTransactions {
  import opened Common
  import opened Placement
  import opened CaseModel
  import opened CaseTransactions

  const LEASE_SECONDS: nat := 45

  datatype Job = Job(task: nat, caseId: string, version: nat)

  datatype ClaimOutcome = Refused(error: Error) | Duplicate | Busy | Claimed

  predicate LeaseExpired(t: PdfTask, now: nat) {
    t.status == Processing && t.startedAt.Some? && t.startedAt.value + LEASE_SECONDS < now
  }

  function FailTask(t: PdfTask, reason: string): PdfTask {
    t.(status := Failed, lease := None, startedAt := None, failure := Some(reason))
  }

  /** The case follows its task into failure only from FINALIZING. */
  function FailCase(db: Db): Db {
    if db.status == Finalizing then Move(db, PdfFailed) else db
  }

  function Claim(env: Env, db: Db, now: nat, job: Job, token: nat): (ClaimOutcome, Db) {
    if job.task >= |db.tasks| || job.caseId != env.caseId || db.tasks[job.task].snapshotVersion != job.version
    then (Refused(JobIdentityMismatch), db)
    else
      var t := db.tasks[job.task];
      if db.status != Finalizing then (Refused(CaseNotFinalizing), db)
      else if !SigningOfTaskValid(db, t) then (Refused(SigningInvalid), db)
      else if t.status == Succeeded then (if t.output.None? then Refused(OutputMissing) else Duplicate, db)
      else if LeaseExpired(t, now) && t.attempts >= t.maxAttempts then
        var failed := FailTask(t, "PDF_PROCESSING_LEASE_EXPIRED_RETRY_EXHAUSTED");
        (Busy, FailCase(db).(tasks := db.tasks[job.task := failed]))
      else if t.status == Failed && t.attempts >= t.maxAttempts then (Busy, db)
      else if t.attempts < t.maxAttempts && (t.status == Queued || LeaseExpired(t, now)) then
        (Claimed, db.(tasks := db.tasks[job.task := t.(
          status := Processing, attempts := t.attempts + 1, claimGeneration := t.claimGeneration + 1,
          lease := Some(token), startedAt := Some(now))]))
      else (Busy, db)
  }

  /** The fence every later step of a worker passes: still processing, same token, same claim. */
  predicate Fenced(db: Db, task: nat, token: nat, generation: int) {
    && task < |db.tasks|
    && db.tasks[task].status == Processing
    && db.tasks[task].lease == Some(token)
    && db.tasks[task].claimGeneration == generation
  }

  function JournalPending(db: Db, task: nat, token: nat, generation: int, entry: Journal): Result<Db> {
    if Fenced(db, task, token, generation) && (db.tasks[task].pending.None? || db.tasks[task].pending == Some(entry))
    then Ok(db.(tasks := db.tasks[task := db.tasks[task].(pending := Some(entry))]))
    else Err(JournalFencingRejected)
  }

  datatype Completion = Completion(fileId: nat, key: string, size: nat, sha: Digest)

  datatype CompleteOutcome = CompleteRefused(error: Error) | AlreadyComplete | Complete(file: nat, row: nat)

  function FinalRow(c: Completion, contentDigest: Digest): FileRow {
    FileRow(c.fileId, None, "authorization.pdf", ApplicationPdf, c.size, c.sha, c.key, FinalPdf, Some(contentDigest),
      None, true, false)
  }

  /** File, output and outbox row appear together with the final status; the journal is cleared. */
  function WithOutput(db: Db, task: nat, c: Completion): Db
    requires task < |db.tasks| && 1 <= db.tasks[task].signatureVersion <= |db.signings|
  {
    var t := db.tasks[task];
    var output := Output(|db.files|, c.sha);
    var next := t.(
      status := Succeeded, lease := None, output := Some(output), failure := None,
      delivery := Pending, deliveryAttempts := 0,
      deliveryFailure := None, deliveryGeneration := t.deliveryGeneration + 1, pending := None);
    db.(
      files := db.files + [FinalRow(c, db.signings[t.signatureVersion - 1].contentDigest)],
      tasks := db.tasks[task := next],
      outbox := db.outbox + [OutboxRow(
        task, FinalizedQueue, next.deliveryGeneration, Finalized(task, t.snapshotVersion, output.file, c.sha),
        None, 0)])
  }

  function CompleteTask(env: Env, db: Db, job: Job, token: nat, generation: int, c: Completion): (CompleteOutcome, Db) {
    if job.task >= |db.tasks| || job.caseId != env.caseId || db.tasks[job.task].snapshotVersion != job.version
    then (CompleteRefused(JobIdentityMismatch), db)
    else
      var t := db.tasks[job.task];
      if t.status == Succeeded then (AlreadyComplete, db)
      else if !Fenced(db, job.task, token, generation) then (CompleteRefused(FencingRejected), db)
      else if t.pending.None? || t.pending.value.sha != c.sha || t.pending.value.size != c.size
        then (CompleteRefused(JournalMismatch), db)
      else if RetainedBytes(db.files, db.signings) + c.size > MAX_CASE_BYTES
        then (CompleteRefused(CapacityExceeded), db)
      else if KeyTaken(db.files, c.key) then (CompleteRefused(StorageKeyTaken), db)
      else if t.output.Some? || !(1 <= t.signatureVersion <= |db.signings|) then (CompleteRefused(FencingRejected), db)
      else (Complete(|db.files|, |db.outbox|), WithOutput(db, job.task, c))
  }

  function FailAttempt(db: Db, task: nat, token: nat, generation: int, terminal: bool, reason: string): Db {
    if !Fenced(db, task, token, generation) then db
    else
      var t := db.tasks[task];
      if terminal then FailCase(db).(tasks := db.tasks[task := FailTask(t, reason)])
      else db.(tasks := db.tasks[task := t.(status := Queued, lease := None, startedAt := None, failure := None)])
  }

  // ---------------------------------------------------------------- pdf-retry.service.ts

  predicate DeliveryRetry(t: PdfTask) { t.status == Succeeded && t.delivery == DeliveryFailed }

  /** A delivery retry keeps the output; a render retry grants the task a fresh set of attempts. */
  function RetriedTask(t: PdfTask): PdfTask {
    if DeliveryRetry(t) then
      t.(delivery := Pending, deliveryFailure := None, deliveryGeneration := t.deliveryGeneration + 1)
    else
      t.(status := Queued, attempts := 0, lease := None, failure := None, startedAt := None,
         queueGeneration := t.queueGeneration + 1)
  }

  function RetryRow(i: nat, t: PdfTask): OutboxRow
    requires DeliveryRetry(t) ==> t.output.Some?
  {
    if DeliveryRetry(t) then
      OutboxRow(i, FinalizedQueue, RetriedTask(t).deliveryGeneration,
        Finalized(i, t.snapshotVersion, t.output.value.file, t.output.value.sha), None, 0)
    else OutboxRow(i, FinalQueue, RetriedTask(t).queueGeneration, RenderJob(i, t.snapshotVersion), None, 0)
  }

  function Retry(db: Db): Result<Db> {
    if db.status != PdfFailed then Err(NotInFailedState)
    else if db.tasks == [] then Err(FailedTaskNotFound)
    else
      var i := |db.tasks| - 1;
      var t := db.tasks[i];
      if !DeliveryRetry(t) && t.status != Failed then Err(FailedTaskNotFound)
      else if DeliveryRetry(t) && t.output.None? then Err(OutputMissing)
      else Ok(Move(db, Finalizing).(tasks := db.tasks[i := RetriedTask(t)], outbox := db.outbox + [RetryRow(i, t)]))
  }

  // ---------------------------------------------------------------- pdf-finalization.repository.ts

  datatype Event = Event(task: nat, caseId: string, version: nat, file: nat, sha: Digest)

  datatype Gates = Gates(
    materialsApproved: bool, declarationAccepted: bool, signingValid: bool, placementsValid: bool, pdfShaMatches: bool)
  {
    predicate Pass() { materialsApproved && declarationAccepted && signingValid && placementsValid && pdfShaMatches }
  }

  // The values the fingerprint hashes, in the order of the source; the hash is taken to be collision-free.
  datatype Fingerprint = Fingerprint(
    task: (nat, TaskStatus, nat, nat, Option<Output>), caseStatus: CaseStatus, requirements: multiset<string>,
    reviews: map<string, Review>, signing: (nat, bool, Digest, nat, bool, seq<Position>),
    output: (nat, Digest, Option<Digest>))

  datatype Inspection = Inspection(gates: Gates, storageKey: string, persistedSha: Digest, fingerprint: Fingerprint)

  function RequirementIds(requirements: seq<Requirement>): seq<string> {
    seq(|requirements|, i requires 0 <= i < |requirements| => requirements[i].id)
  }

  predicate MaterialsApproved(env: Env, reviews: map<string, Review>) {
    forall r | r in env.requirements :: r.id in reviews && reviews[r.id].decision == Approve
  }

  predicate EventNamesTask(env: Env, db: Db, e: Event) {
    && e.caseId == env.caseId && e.task < |db.tasks|
    && var t := db.tasks[e.task];
       && t.snapshotVersion == e.version && t.status == Succeeded
       && t.output.Some? && t.output.value.file == e.file && e.file < |db.files|
       && 1 <= t.signatureVersion <= |db.signings|
  }

  function Inspect(env: Env, db: Db, e: Event): Result<Inspection> {
    if !EventNamesTask(env, db, e) then Err(FinalizationTaskNotFound)
    else
      var t := db.tasks[e.task];
      var s := db.signings[t.signatureVersion - 1];
      var f := db.files[e.file];
      Ok(Inspection(
        Gates(
          MaterialsApproved(env, db.reviews),
          s.declarationAccepted,
          s.valid && f.digest == Some(s.contentDigest),
          PlacementsValid(s.positions, Required(env.slots)),
          f.sha == e.sha && t.output.value.sha == e.sha),
        f.key, f.sha,
        Fingerprint(
          (e.task, t.status, t.snapshotVersion, t.signatureVersion, t.output), db.status,
          multiset(RequirementIds(env.requirements)), db.reviews,
          (t.signatureVersion, s.valid, s.contentDigest, s.draftVersion, s.declarationAccepted, s.positions),
          (e.file, f.sha, f.digest))))
  }

  function ContentKey(sha: Digest): string {
    "sha256/" + (if |sha| >= 2 then sha[..2] else sha) + "/" + sha + ".pdf"
  }

  datatype Evidence = Evidence(sha: Digest, size: nat, key: string)

  /** The bytes behind the output row: named by their hash, readable, and hashing to what the event says. */
  function StorageEvidence(env: Env, contents: map<Digest, Bytes>, i: Inspection, e: Event): Result<Evidence> {
    if i.storageKey != ContentKey(e.sha) then Err(StorageKeyInvalid)
    else if e.sha !in contents then Err(StorageMissing)
    else if |contents[e.sha]| > MAX_FILE_BYTES then Err(StorageLimitExceeded)
    else if !ReadablePdf(env, contents[e.sha]) || env.sha(contents[e.sha]) != e.sha || i.persistedSha != e.sha
      then Err(ContentAddressMismatch)
    else Ok(Evidence(e.sha, |contents[e.sha]|, i.storageKey))
  }

  /** What the finalizing service checks outside its committing transaction: the gates and the stored bytes. */
  predicate FirstCheck(env: Env, db: Db, contents: map<Digest, Bytes>, e: Event) {
    && Inspect(env, db, e).Ok? && Inspect(env, db, e).value.gates.Pass()
    && StorageEvidence(env, contents, Inspect(env, db, e).value, e).Ok?
  }

  /** What the check hands on to the committing transaction. */
  datatype FinalizeTicket = FinalizeTicket(event: Event, fingerprint: Fingerprint)

  datatype FinalizeOutcome = FinalizeRefused(error: Error) | AlreadyCompleted | CaseCompleted

  function Finalize(env: Env, db: Db, e: Event, expected: Option<Fingerprint>): (FinalizeOutcome, Db) {
    match Inspect(env, db, e)
    case Err(error) => (FinalizeRefused(error), db)
    case Ok(inspection) =>
      if expected.Some? && inspection.fingerprint != expected.value then (FinalizeRefused(FinalizationDbChanged), db)
      else if !inspection.gates.Pass() then (FinalizeRefused(FinalizationGateFailed), db)
      else
        var t := db.tasks[e.task];
        var delivered := db.(tasks := db.tasks[e.task := t.(delivery := Delivered, deliveryFailure := None)]);
        if db.status == Completed then (AlreadyCompleted, delivered)
        else if db.status != Finalizing && db.status != PdfFailed then (FinalizeRefused(FinalizationStateChanged), db)
        else (CaseCompleted, Move(delivered, Completed).(links := CompleteAll(db.links)))
  }

  function RecordDeliveryFailure(env: Env, db: Db, e: Event, reason: string, terminal: bool): Db {
    if e.caseId != env.caseId || e.task >= |db.tasks| || db.tasks[e.task].status != Succeeded
       || db.tasks[e.task].output != Some(Output(e.file, e.sha)) || db.tasks[e.task].delivery == Delivered
    then db
    else
      var t := db.tasks[e.task];
      var next := t.(deliveryAttempts := t.deliveryAttempts + 1,
        delivery := if terminal then DeliveryFailed else Pending,
        deliveryFailure := if terminal then Some(reason) else None);
      (if terminal then FailCase(db) else db).(tasks := db.tasks[e.task := next])
  }

  /** A row stops being pending only for a broker id; a null answer or an error is counted instead. */
  function RecordSend(db: Db, row: nat, answer: Option<string>): Db {
    if row >= |db.outbox| || db.outbox[row].published.Some? then db
    else db.(outbox := db.outbox[row := if answer.Some? && answer.value != ""
      then db.outbox[row].(published := answer)
      else db.outbox[row].(attempts := db.outbox[row].attempts + 1)])
  }
}
