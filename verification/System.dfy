/**
 The whole service around one case: its database rows, the file store, any number of render workers
 stopped between any two awaits, clients between the two phases of a verified commit, and a clock.
 A run is a list of steps; every step is one committed transaction, one storage operation or a crash.
 */
module System {
  import opened Common
  import opened CanonicalJson
  import opened CaseModel
  import opened CaseTransactions
  import opened PdfTransactions

  /** What a worker keeps from its claim: the fence, and the counters that decide whether a failure is terminal. */
  datatype Holder = Holder(token: nat, generation: nat, attempts: nat, maxAttempts: nat)

  // Where a worker stands in `claim` and `handle`; each constructor is the point before one await.
  datatype Pc =
    | Claiming
    | Discarding
    | Leased(token: nat)
    | Reading(h: Holder)
    | ClaimAborting(token: nat)
    | Aborting(token: nat, generation: int, terminal: bool)
    | Ready(h: Holder)
    | Recovering(h: Holder)
    | Rendering(h: Holder)
    | Linking(h: Holder, bytes: Bytes)
    | ReadingBack(h: Holder)
    | Journalling(h: Holder, bytes: Bytes)
    | Storing(h: Holder, bytes: Bytes)
    | Rereading(h: Holder, bytes: Bytes)
    | Completing(h: Holder, bytes: Bytes)
    | Failing(h: Holder)
    | Publishing(row: nat)
    | Cleaning
    | Stopped

  datatype Worker = Worker(job: Job, pc: Pc)

  datatype Sys = Sys(
    db: Db, now: nat, nextToken: nat, workers: map<nat, Worker>,
    staging: map<StageKey, Bytes>,     // files under staging/
    first: map<StageKey, Bytes>,       // history: the first bytes ever linked at each staging key
    contents: map<Digest, Bytes>,      // content-addressed files under sha256/
    submitting: set<SubmitTicket>, signing: set<SignTicket>, finalizing: set<FinalizeTicket>,
    doomed: set<string>)               // storage keys a rotation has handed to `storage.remove`

  function Start(reviewer: Option<string>): Sys {
    Sys(Created(reviewer), 0, 0, map[], map[], map[], map[], {}, {}, {}, {})
  }

  // ---------------------------------------------------------------- case transactions

  datatype LinkTx =
    | SubmitDraftTx(expiresAt: nat)
    | DisableLinkTx
    | ReplaceLinkTx(expiresAt: nat, requireExisting: bool)
    | GenerateRejectionTx(rotate: bool, expiresAt: nat)
    | CloseTx
    | DisableTemplateTx

  datatype ClientTx =
    | SaveDraftTx(token: nat, request: SaveRequest)
    | VerifySubmissionTx(token: nat, signingVersion: nat)
    | CommitSubmissionTx(token: nat, submitTicket: SubmitTicket)
    | VerifySigningTx(token: nat, command: SigningCommand)
    | CommitSigningTx(token: nat, command: SigningCommand, signTicket: SignTicket)

  datatype FileTx =
    | PersistPreviewTx(token: nat, rendered: Rendered)
    | DropCorruptPreviewTx(version: nat)
    | UploadMaterialTx(token: nat, reference: string, upload: Upload)
    | RemoveMaterialTx(token: nat, version: nat)
    | UploadResourceTx(token: nat, purpose: Purpose, original: Option<nat>, upload: Upload)

  datatype ReviewTx =
    | ClaimReviewTx(reviewer: string)
    | AssignReviewerTx(reviewer: string, hasReason: bool)
    | ReviewItemTx(reviewer: string, requirement: string, decision: Decision, hasReason: bool)
    | ConfirmTx(reviewer: string, expiresAt: nat)

  datatype PdfTx =
    | RetryTx
    | CheckFinalizationTx(event: Event)
    | FinalizeTx(ticket: FinalizeTicket)
    | DeliveryFailureTx(event: Event, reason: string, terminal: bool)
    | SendTx(row: nat, answer: Option<string>)

  datatype Tx =
    | OfLink(link: LinkTx)
    | OfClient(client: ClientTx)
    | OfFile(file: FileTx)
    | OfReview(review: ReviewTx)
    | OfPdf(pdf: PdfTx)

  // The database after a transaction, whether it commits or rolls back.

  function Or(r: Result<Db>, db: Db): Db { if r.Ok? then r.value else db }

  function LinkDb(db: Db, now: nat, tx: LinkTx): Db {
    match tx
    case SubmitDraftTx(expiresAt) => Or(SubmitDraft(db, expiresAt), db)
    case DisableLinkTx => Or(DisableLink(db, now), db)
    case ReplaceLinkTx(expiresAt, requireExisting) => Or(ReplaceLink(db, now, expiresAt, requireExisting), db)
    case GenerateRejectionTx(rotate, expiresAt) => Or(GenerateRejection(db, now, rotate, expiresAt), db)
    case CloseTx => Or(Close(db), db)
    case DisableTemplateTx => db.(templatePublished := false)
  }

  function ClientDb(env: Env, db: Db, now: nat, tx: ClientTx): Db {
    match tx
    case SaveDraftTx(token, request) => Or(SaveDraft(env, db, now, token, request), db)
    case CommitSubmissionTx(token, ticket) => Or(CommitSubmission(env, db, now, token, ticket), db)
    case CommitSigningTx(token, command, ticket) => Or(CommitSigning(env, db, now, token, command, ticket), db)
    case VerifySubmissionTx(_, _) => db
    case VerifySigningTx(_, _) => db
  }

  function FileDb(env: Env, db: Db, now: nat, tx: FileTx): Db {
    match tx
    case PersistPreviewTx(token, r) =>
      var p := PersistPreview(env, db, now, token, r); if p.Ok? then p.value.db else db
    case DropCorruptPreviewTx(version) => Or(DropCorruptPreview(db, version), db)
    case UploadMaterialTx(token, reference, u) =>
      var r := UploadMaterial(env, db, now, token, reference, u); if r.Ok? then r.value.db else db
    case RemoveMaterialTx(token, version) => Or(RemoveMaterial(db, now, token, version), db)
    case UploadResourceTx(token, purpose, original, u) =>
      var r := UploadResource(db, now, token, purpose, original, u); if r.Ok? then r.value.db else db
  }

  function ReviewDb(env: Env, db: Db, tx: ReviewTx): Db {
    match tx
    case ClaimReviewTx(reviewer) => Or(ClaimReview(db, reviewer), db)
    case AssignReviewerTx(reviewer, hasReason) => Or(AssignReviewer(db, reviewer, hasReason), db)
    case ReviewItemTx(reviewer, requirement, decision, hasReason) =>
      Or(ReviewItem(env, db, reviewer, requirement, decision, hasReason), db)
    case ConfirmTx(reviewer, expiresAt) => Or(Confirm(env, db, reviewer, expiresAt), db)
  }

  function PdfDb(env: Env, db: Db, tx: PdfTx): Db {
    match tx
    case RetryTx => Or(Retry(db), db)
    case CheckFinalizationTx(_) => db
    case FinalizeTx(ticket) => Finalize(env, db, ticket.event, Some(ticket.fingerprint)).1
    case DeliveryFailureTx(event, reason, terminal) => RecordDeliveryFailure(env, db, event, reason, terminal)
    case SendTx(row, answer) => RecordSend(db, row, answer)
  }

  function TxDb(env: Env, db: Db, now: nat, tx: Tx): Db {
    match tx
    case OfLink(t) => LinkDb(db, now, t)
    case OfClient(t) => ClientDb(env, db, now, t)
    case OfFile(t) => FileDb(env, db, now, t)
    case OfReview(t) => ReviewDb(env, db, t)
    case OfPdf(t) => PdfDb(env, db, t)
  }

  /** A commit is only ever attempted with a ticket its own earlier phase produced. */
  predicate Allowed(s: Sys, tx: Tx) {
    match tx
    case OfClient(CommitSubmissionTx(_, ticket)) => ticket in s.submitting
    case OfClient(CommitSigningTx(_, _, ticket)) => ticket in s.signing
    case OfPdf(FinalizeTx(ticket)) => ticket in s.finalizing
    case _ => true
  }

  function NewSubmissions(env: Env, s: Sys, tx: Tx): set<SubmitTicket> {
    match tx
    case OfClient(VerifySubmissionTx(token, signingVersion)) =>
      var r := VerifySubmission(env, s.db, s.now, token, signingVersion); if r.Ok? then {r.value} else {}
    case _ => {}
  }

  function NewSignings(env: Env, s: Sys, tx: Tx): set<SignTicket> {
    match tx
    case OfClient(VerifySigningTx(token, command)) =>
      var r := VerifySigning(env, s.db, s.now, token, command); if r.Ok? then {r.value} else {}
    case _ => {}
  }

  /**
   The finalizer inspects and reads the stored bytes twice before it commits. Both checks read the same; the step stands
   for the later one, whose fingerprint the commit expects.
   */
  function NewFinalizations(env: Env, s: Sys, tx: Tx): set<FinalizeTicket> {
    match tx
    case OfPdf(CheckFinalizationTx(event)) =>
      if FirstCheck(env, s.db, s.contents, event)
      then {FinalizeTicket(event, Inspect(env, s.db, event).value.fingerprint)} else {}
    case _ => {}
  }

  function NewlyDoomed(env: Env, s: Sys, tx: Tx): set<string> {
    match tx
    case OfFile(PersistPreviewTx(token, rendered)) =>
      var r := PersistPreview(env, s.db, s.now, token, rendered); if r.Ok? then r.value.retiredKeys else {}
    case _ => {}
  }

  function ApplyTx(env: Env, s: Sys, tx: Tx): Sys {
    if !Allowed(s, tx) then s
    else s.(
      db := TxDb(env, s.db, s.now, tx),
      submitting := s.submitting + NewSubmissions(env, s, tx),
      signing := s.signing + NewSignings(env, s, tx),
      finalizing := s.finalizing + NewFinalizations(env, s, tx),
      doomed := s.doomed + NewlyDoomed(env, s, tx))
  }

  // ---------------------------------------------------------------- workers

  /** The worker's re-derivation of the content it is about to render, after its claim committed. */
  predicate SnapshotMatches(env: Env, db: Db, t: PdfTask) {
    && 1 <= t.signatureVersion <= |db.signings|
    && var s := db.signings[t.signatureVersion - 1];
       && 1 <= s.draftVersion <= |db.drafts|
       && WorkerDigest(env, db.drafts[s.draftVersion - 1], db.files) == s.contentDigest
  }

  predicate ResourceIsImage(db: Db, t: PdfTask) {
    && 1 <= t.signatureVersion <= |db.signings|
    && db.signings[t.signatureVersion - 1].resource < |db.files|
    && db.files[db.signings[t.signatureVersion - 1].resource].mime != ApplicationPdf
  }

  function KeyOf(job: Job): StageKey { StageKey(job.task, job.version) }

  function At(s: Sys, w: nat, pc: Pc): Sys
    requires w in s.workers
  {
    s.(workers := s.workers[w := s.workers[w].(pc := pc)])
  }

  /** What the outside world decides during a step. */
  datatype Input = Input(rendered: Bytes, fileId: nat, answer: Option<string>)

  function ClaimStep(env: Env, s: Sys, w: nat): Sys
    requires w in s.workers
  {
    var (outcome, db) := Claim(env, s.db, s.now, s.workers[w].job, s.nextToken);
    var pc := match outcome
      case Claimed => Leased(s.nextToken)
      case Duplicate => Discarding
      case _ => Stopped;
    At(s, w, pc).(db := db, nextToken := s.nextToken + 1)
  }

  /** Removing the staged file, after completion or for a duplicate delivery. */
  function Unstage(s: Sys, w: nat): Sys
    requires w in s.workers
  {
    At(s, w, Stopped).(staging := s.staging - {KeyOf(s.workers[w].job)})
  }

  function ReadTaskStep(s: Sys, w: nat, token: nat): Sys
    requires w in s.workers
  {
    var job := s.workers[w].job;
    if job.task < |s.db.tasks| && s.db.tasks[job.task].lease == Some(token) then
      var t := s.db.tasks[job.task];
      At(s, w, Reading(Holder(token, t.claimGeneration, t.attempts, t.maxAttempts)))
    else At(s, w, ClaimAborting(token))
  }

  function ReadContentStep(env: Env, s: Sys, w: nat, h: Holder): Sys
    requires w in s.workers
  {
    var job := s.workers[w].job;
    if job.task < |s.db.tasks| && SnapshotMatches(env, s.db, s.db.tasks[job.task])
      && ResourceIsImage(s.db, s.db.tasks[job.task])
    then At(s, w, Ready(h)) else At(s, w, ClaimAborting(h.token))
  }

  function PrepareAbortStep(s: Sys, w: nat, token: nat): Sys
    requires w in s.workers
  {
    var job := s.workers[w].job;
    if job.task < |s.db.tasks|
    then
      var t := s.db.tasks[job.task];
      At(s, w, Aborting(token, t.claimGeneration, t.attempts >= t.maxAttempts))
    else At(s, w, Aborting(token, -1, false))
  }

  function ReadStagedStep(s: Sys, w: nat, h: Holder): Sys
    requires w in s.workers
  {
    var key := KeyOf(s.workers[w].job);
    if key in s.staging && |s.staging[key]| <= MAX_FILE_BYTES
      then At(s, w, Journalling(h, s.staging[key])) else At(s, w, Failing(h))
  }

  /** Whatever the renderer returns is validated before it is staged; an input it cannot return stands for a throw. */
  function RenderStep(env: Env, s: Sys, w: nat, h: Holder, rendered: Bytes): Sys
    requires w in s.workers
  {
    At(s, w, if env.renders(rendered) && ReadablePdf(env, rendered) then Linking(h, rendered) else Failing(h))
  }

  /** `link` creates the name once; a second writer finds it taken and keeps what is there. */
  function LinkStep(s: Sys, w: nat, h: Holder, bytes: Bytes): Sys
    requires w in s.workers
  {
    var key := KeyOf(s.workers[w].job);
    if key in s.staging then At(s, w, ReadingBack(h))
    else At(s, w, ReadingBack(h)).(
      staging := s.staging[key := bytes],
      first := if key in s.first then s.first else s.first[key := bytes])
  }

  /** The bytes read back or recovered are validated once more before they are journalled. */
  function JournalStep(env: Env, s: Sys, w: nat, h: Holder, bytes: Bytes): Sys
    requires w in s.workers
  {
    var job := s.workers[w].job;
    var r := JournalPending(s.db, job.task, h.token, h.generation, Journal(KeyOf(job), env.sha(bytes), |bytes|));
    if ReadablePdf(env, bytes) && r.Ok? then At(s, w, Storing(h, bytes)).(db := r.value) else At(s, w, Failing(h))
  }

  function StoreStep(env: Env, s: Sys, w: nat, h: Holder, bytes: Bytes): Sys
    requires w in s.workers
  {
    var sha := env.sha(bytes);
    if sha !in s.contents then At(s, w, Rereading(h, bytes)).(contents := s.contents[sha := bytes])
    else if env.sha(s.contents[sha]) == sha then At(s, w, Rereading(h, bytes))
    else At(s, w, Failing(h))
  }

  function RereadStep(env: Env, s: Sys, w: nat, h: Holder, bytes: Bytes): Sys
    requires w in s.workers
  {
    var sha := env.sha(bytes);
    if sha in s.contents && env.sha(s.contents[sha]) == sha && ReadablePdf(env, s.contents[sha])
    then At(s, w, Completing(h, s.contents[sha])) else At(s, w, Failing(h))
  }

  function CompletionOf(env: Env, bytes: Bytes, fileId: nat): Completion {
    Completion(fileId, ContentKey(env.sha(bytes)), |bytes|, env.sha(bytes))
  }

  function CompleteStep(env: Env, s: Sys, w: nat, h: Holder, bytes: Bytes, fileId: nat): Sys
    requires w in s.workers
  {
    var (outcome, db) := CompleteTask(env, s.db, s.workers[w].job, h.token, h.generation,
      CompletionOf(env, bytes, fileId));
    match outcome
    case CompleteRefused(_) => At(s, w, Failing(h))
    case AlreadyComplete => At(s, w, Stopped)
    case Complete(_, row) => At(s, w, Publishing(row)).(db := db)
  }

  function FailStep(s: Sys, w: nat, token: nat, generation: int, terminal: bool): Sys
    requires w in s.workers
  {
    At(s, w, Stopped).(db := FailAttempt(s.db, s.workers[w].job.task, token, generation, terminal, "PDF_FAILURE"))
  }

  /** Taking the lease, and giving it back after a failure. */
  function GoLease(env: Env, s: Sys, w: nat): Sys
    requires w in s.workers
  {
    match s.workers[w].pc
    case Claiming => ClaimStep(env, s, w)
    case Aborting(token, generation, terminal) => FailStep(s, w, token, generation, terminal)
    case Failing(h) => FailStep(s, w, h.token, h.generation, h.attempts >= h.maxAttempts)
    case _ => s
  }

  /** Reads of the database between the claim and the rendering. */
  function GoRead(env: Env, s: Sys, w: nat): Sys
    requires w in s.workers
  {
    match s.workers[w].pc
    case Leased(token) => ReadTaskStep(s, w, token)
    case Reading(h) => ReadContentStep(env, s, w, h)
    case ClaimAborting(token) => PrepareAbortStep(s, w, token)
    case _ => s
  }

  /** Recovering an earlier staging, or rendering and staging anew. */
  function GoStage(env: Env, s: Sys, w: nat, input: Input): Sys
    requires w in s.workers
  {
    match s.workers[w].pc
    case Ready(h) => At(s, w, if KeyOf(s.workers[w].job) in s.staging then Recovering(h) else Rendering(h))
    case Recovering(h) => ReadStagedStep(s, w, h)
    case Rendering(h) => RenderStep(env, s, w, h, input.rendered)
    case Linking(h, bytes) => LinkStep(s, w, h, bytes)
    case ReadingBack(h) => ReadStagedStep(s, w, h)
    case _ => s
  }

  /** Content-addressed storage, and the removal of the staged file. */
  function GoStore(env: Env, s: Sys, w: nat): Sys
    requires w in s.workers
  {
    match s.workers[w].pc
    case Storing(h, bytes) => StoreStep(env, s, w, h, bytes)
    case Rereading(h, bytes) => RereadStep(env, s, w, h, bytes)
    case Discarding => Unstage(s, w)
    case Cleaning => Unstage(s, w)
    case _ => s
  }

  /** Journal, completion and the first attempt to publish the outbox row. */
  function GoRecord(env: Env, s: Sys, w: nat, input: Input): Sys
    requires w in s.workers
  {
    match s.workers[w].pc
    case Journalling(h, bytes) => JournalStep(env, s, w, h, bytes)
    case Completing(h, bytes) => CompleteStep(env, s, w, h, bytes, input.fileId)
    case Publishing(row) => At(s, w, Cleaning).(db := RecordSend(s.db, row, input.answer))
    case _ => s
  }

  predicate OnLease(pc: Pc) { pc.Claiming? || pc.Aborting? || pc.Failing? }
  predicate OnRead(pc: Pc) { pc.Leased? || pc.Reading? || pc.ClaimAborting? }
  predicate OnStage(pc: Pc) { pc.Ready? || pc.Recovering? || pc.Rendering? || pc.Linking? || pc.ReadingBack? }
  predicate OnStore(pc: Pc) { pc.Storing? || pc.Rereading? || pc.Discarding? || pc.Cleaning? }

  /** The worker's next await succeeds or is refused by what it meets. */
  function Go(env: Env, s: Sys, w: nat, input: Input): Sys
    requires w in s.workers
  {
    if OnLease(s.workers[w].pc) then GoLease(env, s, w)
    else if OnRead(s.workers[w].pc) then GoRead(env, s, w)
    else if OnStage(s.workers[w].pc) then GoStage(env, s, w, input)
    else if OnStore(s.workers[w].pc) then GoStore(env, s, w)
    else GoRecord(env, s, w, input)
  }

  /** The await throws for a reason of its own: rendering, validation, the network, the database. */
  function Thrown(pc: Pc): Pc {
    match pc
    case Leased(token) => ClaimAborting(token)
    case Reading(h) => ClaimAborting(h.token)
    case Ready(h) => Failing(h)
    case Recovering(h) => Failing(h)
    case Rendering(h) => Failing(h)
    case Linking(h, _) => Failing(h)
    case ReadingBack(h) => Failing(h)
    case Journalling(h, _) => Failing(h)
    case Storing(h, _) => Failing(h)
    case Rereading(h, _) => Failing(h)
    case Completing(h, _) => Failing(h)
    case _ => Stopped
  }

  // ---------------------------------------------------------------- runs

  datatype Step =
    | Tick(seconds: nat)
    | Case(tx: Tx)
    | Spawn(worker: nat, job: Job)
    | Advance(worker: nat, input: Input)
    | Throw(worker: nat)
    | Crash(worker: nat)

  function Apply(env: Env, s: Sys, step: Step): Sys {
    match step
    case Tick(seconds) => s.(now := s.now + seconds)
    case Case(tx) => ApplyTx(env, s, tx)
    case Spawn(w, job) => if w in s.workers then s else s.(workers := s.workers[w := Worker(job, Claiming)])
    case Advance(w, input) => if w in s.workers then Go(env, s, w, input) else s
    case Throw(w) => if w in s.workers then At(s, w, Thrown(s.workers[w].pc)) else s
    case Crash(w) => if w in s.workers then At(s, w, Stopped) else s
  }

  function Run(env: Env, s: Sys, steps: seq<Step>): Sys {
    if steps == [] then s else Apply(env, Run(env, s, steps[..|steps| - 1]), steps[|steps| - 1])
  }
}
