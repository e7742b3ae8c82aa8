/**
 Runs from a new case to a completed, a failed and two stranded ones, whatever the hash: the theorems about such cases
 are not empty.
 */
module CompletedRun {
  import opened Common
  import opened Placement
  import opened CanonicalJson
  import opened CaseModel
  import opened CaseTransactions
  import opened PdfTransactions
  import opened System
  import opened PdfTheorems
  import opened PdfProgress
  import opened LinkRules

  // ---------------------------------------------------------------- the case

  const SLOT: Slot := Slot("s", 1, 0.0, 0.0, 100.0, 50.0, true)
  const MARK: Position := Position("s", 1, 10.0, 10.0, 60.0, 30.0)
  const COMMAND: SigningCommand := SigningCommand(HandwrittenMode, ByVersionId(0), 1, [MARK], true, None)
  const PDF: Bytes := [37, 80, 68, 70, 45, 37, 37, 69, 79, 70]

  type Hash = Bytes -> Digest

  /** One requirement, one signature slot; every rendering is allowed and every PDF parses. */
  function Example(sha: Hash): Env {
    Env("case", [Requirement("r", "letter", None, None, None)], JNull, [SLOT], (c: Content) => "content",
      sha, (b: Bytes) => true, (b: Bytes) => true)
  }

  const SIGNATURE: FileRow := FileRow(1, None, "signature.png", ImagePng, 10, "png", "files/1", Handwritten, None, None,
    true, false)
  const PREVIEW: FileRow := FileRow(2, None, "preview.pdf", ApplicationPdf, 20, "pdf", "files/2", PresignPdf,
    Some("content"), None, true, false)
  const SIGNED: Signing := Signing(1, "content", HandwrittenMode, 0, 1, "pdf", [MARK], true, true)

  const LIVE: Link := Link(100, false, false, false)
  const SPENT: Link := Link(100, false, true, false)

  function Invited(): Db { Move(Created(None), AwaitingCustomer).(links := [LIVE]) }
  function Edited(): Db { Move(Invited(), CustomerEditing).(drafts := [DraftRow([], None)]) }
  function WithImage(): Db { Edited().(files := [SIGNATURE]) }
  function Previewed(): Db { Edited().(files := [SIGNATURE, PREVIEW]) }
  function Signed(): Db { Previewed().(signings := [SIGNED]) }
  function Sent(): Db { Move(Signed(), PendingReview).(links := [SPENT], submissions := [0]) }
  function Taken(): Db { Sent().(reviewer := Some("rev")) }
  function Approved(): Db { Taken().(reviews := map["r" := Review(Approve, 1)]) }
  function InQueue(): Db { Move(Approved(), Finalizing).(tasks := [NewTask(1)]) }

  function SigningFound(): SignTicket {
    SignTicket(CustomerEditing, 1, "content", COMMAND, 0, SIGNATURE, None, None, 1, PREVIEW)
  }
  function SubmissionFound(): SubmitTicket { SubmitTicket(CustomerEditing, 1, "content", 0, 1, "pdf") }

  /** The system while no worker runs yet: customer, then office. */
  function Customer(db: Db): Sys { Start(None).(db := db) }
  function Signer(db: Db): Sys { Customer(db).(signing := {SigningFound()}) }
  function Office(db: Db): Sys { Signer(db).(submitting := {SubmissionFound()}) }

  // ---------------------------------------------------------------- its transactions

  const IMAGE: Upload := Upload(1, "signature.png", ImagePng, 10, "png", "files/1")
  const RENDERED: Rendered := Rendered("content", 2, 20, "pdf", "files/2")

  function Invite(): Tx { OfLink(SubmitDraftTx(100)) }
  function Edit(): Tx { OfClient(SaveDraftTx(0, SaveRequest(0, false, [], None))) }
  function AddImage(): Tx { OfFile(UploadResourceTx(0, Handwritten, None, IMAGE)) }
  function Preview(): Tx { OfFile(PersistPreviewTx(0, RENDERED)) }
  function PrepareSign(): Tx { OfClient(VerifySigningTx(0, COMMAND)) }
  function Sign(): Tx { OfClient(CommitSigningTx(0, COMMAND, SigningFound())) }
  function PrepareSend(): Tx { OfClient(VerifySubmissionTx(0, 1)) }
  function Send(): Tx { OfClient(CommitSubmissionTx(0, SubmissionFound())) }
  function Take(): Tx { OfReview(ClaimReviewTx("rev")) }
  function ApproveItem(): Tx { OfReview(ReviewItemTx("rev", "r", Approve, false)) }
  function Confirming(): Tx { OfReview(ConfirmTx("rev", 100)) }

  lemma Inviting(sha: Hash)
    ensures ApplyTx(Example(sha), Customer(Created(None)), Invite()) == Customer(Invited())
  {
    assert DisableAll([]) + [LIVE] == [LIVE];
  }

  lemma Editing(sha: Hash)
    ensures ApplyTx(Example(sha), Customer(Invited()), Edit()) == Customer(Edited())
  {
    assert InvalidateAll([]) == [] && [] + [DraftRow([], None)] == [DraftRow([], None)];
    assert Live(LIVE, 0);
  }

  lemma AddingImage(sha: Hash)
    ensures ApplyTx(Example(sha), Customer(Edited()), AddImage()) == Customer(WithImage())
  {
    assert [] + [SIGNATURE] == [SIGNATURE];
    assert Live(LIVE, 0);
  }

  lemma PreviewPersists(sha: Hash)
    ensures PersistPreview(Example(sha), WithImage(), 0, 0, RENDERED) == Ok(Persisted(Previewed(), 1, false, {}))
  {
    var files := [SIGNATURE];
    assert files[..0] == [];
    assert Rotate(files) == files;
    assert RetainedUpTo(files, [], 1) == 10;
    assert RetiredKeys(files, []) - {"files/2"} == {};
    assert "files/1"[6] != "files/2"[6];
    assert files + [PREVIEW] == [SIGNATURE, PREVIEW];
    assert Live(LIVE, 0);
  }

  lemma Previewing(sha: Hash)
    ensures ApplyTx(Example(sha), Customer(WithImage()), Preview()) == Customer(Previewed())
  {
    PreviewPersists(sha);
  }

  lemma PreparingSign(sha: Hash)
    ensures ApplyTx(Example(sha), Customer(Previewed()), PrepareSign()) == Signer(Previewed())
  {
    assert Required([SLOT]) == [SLOT];
    assert Naming([MARK], "s") == 1;
    assert VerifySigning(Example(sha), Previewed(), 0, 0, COMMAND) == Ok(SigningFound());
  }

  lemma SigningCommits(sha: Hash)
    ensures CommitSigning(Example(sha), Previewed(), 0, 0, COMMAND, SigningFound()) == Ok(Signed())
  {
    assert Required([SLOT]) == [SLOT];
    assert Naming([MARK], "s") == 1;
    assert InvalidateAll([]) + [SIGNED] == [SIGNED];
  }

  lemma Signs(sha: Hash)
    ensures ApplyTx(Example(sha), Signer(Previewed()), Sign()) == Signer(Signed())
  {
    SigningCommits(sha);
  }

  lemma PreparingSend(sha: Hash)
    ensures ApplyTx(Example(sha), Signer(Signed()), PrepareSend()) == Office(Signed())
  {
    assert VerifySubmission(Example(sha), Signed(), 0, 0, 1) == Ok(SubmissionFound());
  }

  lemma Sends(sha: Hash)
    ensures ApplyTx(Example(sha), Office(Signed()), Send()) == Office(Sent())
  {
    assert [LIVE][0 := SPENT] == [SPENT] && [] + [0] == [0];
    assert CommitSubmission(Example(sha), Signed(), 0, 0, SubmissionFound()) == Ok(Sent());
  }

  lemma Taking(sha: Hash)
    ensures ApplyTx(Example(sha), Office(Sent()), Take()) == Office(Taken())
  {
  }

  lemma Approving(sha: Hash)
    ensures ApplyTx(Example(sha), Office(Taken()), ApproveItem()) == Office(Approved())
  {
    assert Example(sha).requirements[0].id == "r";
    assert ReviewItem(Example(sha), Taken(), "rev", "r", Approve, false) == Ok(Approved());
  }

  lemma ConfirmationCommits(sha: Hash)
    ensures Confirm(Example(sha), Approved(), "rev", 100) == Ok(InQueue())
  {
    assert Approved().reviews["r"].decision == Approve;
    assert LatestValid([SIGNED]) == Some(0);
    assert UpsertTask([], 1) == [NewTask(1)];
  }

  lemma Confirms(sha: Hash)
    ensures ApplyTx(Example(sha), Office(Approved()), Confirming()) == Office(InQueue())
  {
    ConfirmationCommits(sha);
  }

  // ---------------------------------------------------------------- the run

  lemma Commits(sha: Hash, s: Sys, tx: Tx, next: Sys)
    requires Reached(Example(sha), s) && ApplyTx(Example(sha), s, tx) == next
    ensures Reached(Example(sha), next)
  {
    ReachedNext(Example(sha), s, Case(tx));
  }

  lemma UntilImage(sha: Hash)
    ensures Reached(Example(sha), Customer(WithImage()))
  {
    assert Customer(Created(None)) == Run(Example(sha), Start(None), []);
    Inviting(sha);
    Commits(sha, Customer(Created(None)), Invite(), Customer(Invited()));
    Editing(sha);
    Commits(sha, Customer(Invited()), Edit(), Customer(Edited()));
    AddingImage(sha);
    Commits(sha, Customer(Edited()), AddImage(), Customer(WithImage()));
  }

  lemma UntilSigned(sha: Hash)
    ensures Reached(Example(sha), Signer(Signed()))
  {
    UntilImage(sha);
    Previewing(sha);
    Commits(sha, Customer(WithImage()), Preview(), Customer(Previewed()));
    PreparingSign(sha);
    Commits(sha, Customer(Previewed()), PrepareSign(), Signer(Previewed()));
    Signs(sha);
    Commits(sha, Signer(Previewed()), Sign(), Signer(Signed()));
  }

  lemma UntilSent(sha: Hash)
    ensures Reached(Example(sha), Office(Sent()))
  {
    UntilSigned(sha);
    PreparingSend(sha);
    Commits(sha, Signer(Signed()), PrepareSend(), Office(Signed()));
    Sends(sha);
    Commits(sha, Office(Signed()), Send(), Office(Sent()));
  }

  lemma UntilQueued(sha: Hash)
    ensures Reached(Example(sha), Office(InQueue()))
  {
    UntilSent(sha);
    Taking(sha);
    Commits(sha, Office(Sent()), Take(), Office(Taken()));
    Approving(sha);
    Commits(sha, Office(Taken()), ApproveItem(), Office(Approved()));
    Confirms(sha);
    Commits(sha, Office(Approved()), Confirming(), Office(InQueue()));
  }

  // ---------------------------------------------------------------- the worker

  const JOB: Job := Job(0, "case", 1)
  const KEY: StageKey := StageKey(0, 1)
  const HOLDER: Holder := Holder(0, 1, 1, 3)
  function Entry(sha: Hash): Journal { Journal(KEY, sha(PDF), 10) }
  const INPUT: Input := Input(PDF, 3, Some("broker-1"))

  function Leasing(): PdfTask {
    NewTask(1).(status := Processing, attempts := 1, claimGeneration := 1, lease := Some(0), startedAt := Some(0))
  }
  function Working(): Db { InQueue().(tasks := [Leasing()]) }
  function Noted(sha: Hash): Db { InQueue().(tasks := [Leasing().(pending := Some(Entry(sha)))]) }
  function Done(sha: Hash): Db { WithOutput(Noted(sha), 0, CompletionOf(Example(sha), PDF, 3)) }
  function Told(sha: Hash): Db { RecordSend(Done(sha), 0, Some("broker-1")) }

  /** The system while its one worker stands at `pc`. */
  function Busy(sha: Hash, db: Db, pc: Pc, staged: bool, stored: bool): Sys {
    var linked := if staged then map[KEY := PDF] else map[];
    Office(db).(nextToken := 1, workers := map[0 := Worker(JOB, pc)], staging := linked, first := linked,
                contents := if stored then map[sha(PDF) := PDF] else map[])
  }

  lemma PdfIsReadable(sha: Hash)
    ensures ReadablePdf(Example(sha), PDF)
  {
    assert PDF[..5] == [37, 80, 68, 70, 45];
    assert PDF[5..10] == [37, 37, 69, 79, 70] && EndsAt(PDF, 5);
  }

  lemma Moved(sha: Hash, s: Sys, next: Sys)
    requires Reached(Example(sha), s) && 0 in s.workers && Go(Example(sha), s, 0, INPUT) == next
    ensures Reached(Example(sha), next)
  {
    ReachedNext(Example(sha), s, Advance(0, INPUT));
  }

  lemma OneWorker(pc: Pc, next: Pc)
    ensures map[0 := Worker(JOB, pc)][0 := Worker(JOB, next)] == map[0 := Worker(JOB, next)]
  {
  }

  lemma StepClaim(sha: Hash)
    ensures Go(Example(sha), Office(InQueue()).(workers := map[0 := Worker(JOB, Claiming)]), 0, INPUT)
      == Busy(sha, Working(), Leased(0), false, false)
  {
    OneWorker(Claiming, Leased(0));
  }

  lemma StepReadTask(sha: Hash)
    ensures Go(Example(sha), Busy(sha, Working(), Leased(0), false, false), 0, INPUT)
      == Busy(sha, Working(), Reading(HOLDER), false, false)
  {
    OneWorker(Leased(0), Reading(HOLDER));
  }

  lemma StepReadContent(sha: Hash)
    ensures Go(Example(sha), Busy(sha, Working(), Reading(HOLDER), false, false), 0, INPUT)
      == Busy(sha, Working(), Ready(HOLDER), false, false)
  {
    OneWorker(Reading(HOLDER), Ready(HOLDER));
    assert SnapshotMatches(Example(sha), Working(), Leasing());
  }

  lemma StepRender(sha: Hash)
    ensures Go(Example(sha), Busy(sha, Working(), Ready(HOLDER), false, false), 0, INPUT)
      == Busy(sha, Working(), System.Rendering(HOLDER), false, false)
    ensures Go(Example(sha), Busy(sha, Working(), System.Rendering(HOLDER), false, false), 0, INPUT)
      == Busy(sha, Working(), Linking(HOLDER, PDF), false, false)
  {
    PdfIsReadable(sha);
    OneWorker(Ready(HOLDER), System.Rendering(HOLDER));
    OneWorker(System.Rendering(HOLDER), Linking(HOLDER, PDF));
  }

  lemma StepLink(sha: Hash)
    ensures Go(Example(sha), Busy(sha, Working(), Linking(HOLDER, PDF), false, false), 0, INPUT)
      == Busy(sha, Working(), ReadingBack(HOLDER), true, false)
    ensures Go(Example(sha), Busy(sha, Working(), ReadingBack(HOLDER), true, false), 0, INPUT)
      == Busy(sha, Working(), Journalling(HOLDER, PDF), true, false)
  {
    OneWorker(Linking(HOLDER, PDF), ReadingBack(HOLDER));
    OneWorker(ReadingBack(HOLDER), Journalling(HOLDER, PDF));
  }

  lemma StepJournal(sha: Hash)
    ensures Go(Example(sha), Busy(sha, Working(), Journalling(HOLDER, PDF), true, false), 0, INPUT)
      == Busy(sha, Noted(sha), Storing(HOLDER, PDF), true, false)
  {
    PdfIsReadable(sha);
    OneWorker(Journalling(HOLDER, PDF), Storing(HOLDER, PDF));
  }

  lemma StepStore(sha: Hash)
    ensures Go(Example(sha), Busy(sha, Noted(sha), Storing(HOLDER, PDF), true, false), 0, INPUT)
      == Busy(sha, Noted(sha), Rereading(HOLDER, PDF), true, true)
    ensures Go(Example(sha), Busy(sha, Noted(sha), Rereading(HOLDER, PDF), true, true), 0, INPUT)
      == Busy(sha, Noted(sha), Completing(HOLDER, PDF), true, true)
  {
    PdfIsReadable(sha);
    OneWorker(Storing(HOLDER, PDF), Rereading(HOLDER, PDF));
    OneWorker(Rereading(HOLDER, PDF), Completing(HOLDER, PDF));
  }

  lemma CompletionCommits(sha: Hash)
    ensures CompleteTask(Example(sha), Noted(sha), JOB, 0, 1, CompletionOf(Example(sha), PDF, 3))
      == (Complete(2, 0), Done(sha))
  {
    assert RetainedUpTo(Noted(sha).files, Noted(sha).signings, 1) <= 10;
    assert RetainedBytes(Noted(sha).files, Noted(sha).signings) <= 30;
    assert ContentKey(sha(PDF))[0] == 's' && "files/1"[0] == 'f' && "files/2"[0] == 'f';
  }

  lemma StepComplete(sha: Hash)
    ensures Go(Example(sha), Busy(sha, Noted(sha), Completing(HOLDER, PDF), true, true), 0, INPUT)
      == Busy(sha, Done(sha), Publishing(0), true, true)
  {
    CompletionCommits(sha);
    OneWorker(Completing(HOLDER, PDF), Publishing(0));
  }

  lemma StepPublish(sha: Hash)
    ensures Go(Example(sha), Busy(sha, Done(sha), Publishing(0), true, true), 0, INPUT)
      == Busy(sha, Told(sha), Cleaning, true, true)
  {
    OneWorker(Publishing(0), Cleaning);
  }

  lemma UntilClaimed(sha: Hash)
    ensures Reached(Example(sha), Busy(sha, Working(), Leased(0), false, false))
  {
    UntilQueued(sha);
    ReachedNext(Example(sha), Office(InQueue()), Spawn(0, JOB));
    var spawned := Office(InQueue()).(workers := map[0 := Worker(JOB, Claiming)]);
    StepClaim(sha);
    Moved(sha, spawned, Busy(sha, Working(), Leased(0), false, false));
  }

  lemma UntilLinking(sha: Hash)
    ensures Reached(Example(sha), Busy(sha, Working(), Linking(HOLDER, PDF), false, false))
  {
    UntilClaimed(sha);
    StepReadTask(sha);
    Moved(sha, Busy(sha, Working(), Leased(0), false, false), Busy(sha, Working(), Reading(HOLDER), false, false));
    StepReadContent(sha);
    Moved(sha, Busy(sha, Working(), Reading(HOLDER), false, false), Busy(sha, Working(), Ready(HOLDER), false, false));
    StepRender(sha);
    Moved(sha, Busy(sha, Working(), Ready(HOLDER), false, false),
      Busy(sha, Working(), System.Rendering(HOLDER), false, false));
    Moved(sha, Busy(sha, Working(), System.Rendering(HOLDER), false, false),
      Busy(sha, Working(), Linking(HOLDER, PDF), false, false));
  }

  /** The worker delivers a rendered task; its staged file waits to be removed. */
  lemma UntilDelivered(sha: Hash)
    ensures Reached(Example(sha), Busy(sha, Told(sha), Cleaning, true, true))
  {
    UntilLinking(sha);
    StepLink(sha);
    Moved(sha, Busy(sha, Working(), Linking(HOLDER, PDF), false, false),
      Busy(sha, Working(), ReadingBack(HOLDER), true, false));
    Moved(sha, Busy(sha, Working(), ReadingBack(HOLDER), true, false),
      Busy(sha, Working(), Journalling(HOLDER, PDF), true, false));
    StepJournal(sha);
    Moved(sha, Busy(sha, Working(), Journalling(HOLDER, PDF), true, false),
      Busy(sha, Noted(sha), Storing(HOLDER, PDF), true, false));
    StepStore(sha);
    Moved(sha, Busy(sha, Noted(sha), Storing(HOLDER, PDF), true, false),
      Busy(sha, Noted(sha), Rereading(HOLDER, PDF), true, true));
    Moved(sha, Busy(sha, Noted(sha), Rereading(HOLDER, PDF), true, true),
      Busy(sha, Noted(sha), Completing(HOLDER, PDF), true, true));
    StepComplete(sha);
    Moved(sha, Busy(sha, Noted(sha), Completing(HOLDER, PDF), true, true),
      Busy(sha, Done(sha), Publishing(0), true, true));
    StepPublish(sha);
    Moved(sha, Busy(sha, Done(sha), Publishing(0), true, true), Busy(sha, Told(sha), Cleaning, true, true));
  }

  // ---------------------------------------------------------------- what is reachable

  function Delivery(sha: Hash): Event { Event(0, "case", 1, 2, sha(PDF)) }

  lemma EventCompletes(sha: Hash)
    requires Inspect(Example(sha), Told(sha), Delivery(sha)).Ok?
    ensures PdfTransactions.Finalize(Example(sha), Told(sha), Delivery(sha), Some(Ticket(sha).fingerprint)).1.status
      == Completed
  {
    assert Required([SLOT]) == [SLOT];
    assert MARK in [MARK] && Fits(MARK, SLOT);
  }

  function Checking(sha: Hash): Tx { OfPdf(CheckFinalizationTx(Delivery(sha))) }
  function Ticket(sha: Hash): FinalizeTicket
    requires Inspect(Example(sha), Told(sha), Delivery(sha)).Ok?
  {
    FinalizeTicket(Delivery(sha), Inspect(Example(sha), Told(sha), Delivery(sha)).value.fingerprint)
  }

  lemma CheckPasses(sha: Hash)
    ensures FirstCheck(Example(sha), Told(sha), map[sha(PDF) := PDF], Delivery(sha))
  {
    PdfIsReadable(sha);
    assert Required([SLOT]) == [SLOT];
    assert MARK in [MARK] && Fits(MARK, SLOT);
  }

  lemma Checks(sha: Hash, s: Sys)
    requires s.db == Told(sha) && s.contents == map[sha(PDF) := PDF]
    ensures Inspect(Example(sha), Told(sha), Delivery(sha)).Ok?
    ensures ApplyTx(Example(sha), s, Checking(sha)) == s.(finalizing := s.finalizing + {Ticket(sha)})
  {
    CheckPasses(sha);
  }

  lemma Finalizes(sha: Hash, s: Sys)
    requires Inspect(Example(sha), Told(sha), Delivery(sha)).Ok? && Ticket(sha) in s.finalizing
    ensures ApplyTx(Example(sha), s, OfPdf(FinalizeTx(Ticket(sha)))).db
      == PdfTransactions.Finalize(Example(sha), s.db, Delivery(sha), Some(Ticket(sha).fingerprint)).1
  {
  }

  /** A completed case is reachable. */
  lemma CompletedIsReachable(sha: Hash)
    ensures exists s :: Reached(Example(sha), s) && s.db.status == Completed
  {
    UntilDelivered(sha);
    var s := Busy(sha, Told(sha), Cleaning, true, true);
    Checks(sha, s);
    var checked := s.(finalizing := s.finalizing + {Ticket(sha)});
    Commits(sha, s, Checking(sha), checked);
    EventCompletes(sha);
    Finalizes(sha, checked);
    Commits(sha, checked, OfPdf(FinalizeTx(Ticket(sha))),
      ApplyTx(Example(sha), checked, OfPdf(FinalizeTx(Ticket(sha)))));
  }

  lemma RelinkedOver(sha: Hash, s: Sys)
    requires s.db.status == Completed && AllDisabled(s.db.links)
    ensures var after := Apply(Example(sha), s, Case(OfLink(ReplaceLinkTx(1, false)))).db;
      after.status == Completed && !AllDisabled(after.links)
  {
    RelinkedExactly(Example(sha), s, Case(OfLink(ReplaceLinkTx(1, false))));
  }

  /** So is a completed case with a link that is not disabled. */
  lemma RelinkedIsReachable(sha: Hash)
    ensures exists s :: Reached(Example(sha), s) && s.db.status == Completed && !AllDisabled(s.db.links)
  {
    CompletedIsReachable(sha);
    var s :| Reached(Example(sha), s) && s.db.status == Completed;
    if AllDisabled(s.db.links) {
      RelinkedOver(sha, s);
      ReachedNext(Example(sha), s, Case(OfLink(ReplaceLinkTx(1, false))));
    }
  }

  function Failing(sha: Hash, terminal: bool): Tx { OfPdf(DeliveryFailureTx(Delivery(sha), "timeout", terminal)) }
  function FailedOnce(sha: Hash): Db { RecordDeliveryFailure(Example(sha), Told(sha), Delivery(sha), "timeout", true) }
  function FailedTwice(sha: Hash): Db {
    RecordDeliveryFailure(Example(sha), FailedOnce(sha), Delivery(sha), "timeout", false)
  }

  lemma RetryIsRefused(sha: Hash)
    ensures FailedTwice(sha).status == PdfFailed && Retry(FailedTwice(sha)).Err?
  {
  }

  lemma Fails(sha: Hash, s: Sys, terminal: bool)
    ensures ApplyTx(Example(sha), s, Failing(sha, terminal))
      == s.(db := RecordDeliveryFailure(Example(sha), s.db, Delivery(sha), "timeout", terminal))
  {
  }

  /** So is a failed case whose retry is refused. */
  lemma RefusedRetryIsReachable(sha: Hash)
    ensures exists s :: Reached(Example(sha), s) && s.db.status == PdfFailed && Retry(s.db).Err?
  {
    UntilDelivered(sha);
    var s := Busy(sha, Told(sha), Cleaning, true, true);
    Fails(sha, s, true);
    Commits(sha, s, Failing(sha, true), s.(db := FailedOnce(sha)));
    Fails(sha, s.(db := FailedOnce(sha)), false);
    Commits(sha, s.(db := FailedOnce(sha)), Failing(sha, false), s.(db := FailedTwice(sha)));
    RetryIsRefused(sha);
  }

  // ---------------------------------------------------------------- a late upload

  const LATE: Upload := Upload(4, "late.pdf", ApplicationPdf, 30, "late", "files/3")

  function Relink(): Tx { OfLink(ReplaceLinkTx(100, false)) }
  function UploadLate(): Tx { OfFile(UploadMaterialTx(1, "letter", LATE)) }

  /** The queued or claimed case gets a new link, and its customer uploads one more file. */
  function Relinked(tasks: seq<PdfTask>): Db { InQueue().(tasks := tasks, links := [SPENT, LIVE]) }
  function Late(tasks: seq<PdfTask>): Db { WithMaterial(Relinked(tasks), MaterialRow(LATE, "r")) }

  lemma Relinks(tasks: seq<PdfTask>)
    ensures ReplaceLink(InQueue().(tasks := tasks), 0, 100, false) == Ok(Relinked(tasks))
  {
    assert [SPENT] + [LIVE] == [SPENT, LIVE];
  }

  lemma LateFits()
    ensures RetainedBytes([SIGNATURE, PREVIEW], [SIGNED]) <= 30
    ensures LastWhere([SIGNATURE, PREVIEW], DuplicateOf("r", "late")) == None
    ensures !KeyTaken([SIGNATURE, PREVIEW], "files/3")
  {
    assert RetainedUpTo([SIGNATURE, PREVIEW], [SIGNED], 1) <= 10;
    assert "files/1"[6] == '1' && "files/2"[6] == '2' && "files/3"[6] == '3';
  }

  lemma NoMaterialYet()
    ensures CountFor([SIGNATURE, PREVIEW], "r") == 0
  {
    var p := (f: FileRow) => !f.removed && f.requirement == Some("r");
    var files := [SIGNATURE, PREVIEW];
    assert files[..1] == [SIGNATURE] && [SIGNATURE][..0] == [];
    assert Select([], p) == [] && Select([SIGNATURE], p) == [] && Select(files, p) == [];
  }

  lemma LateUpload(sha: Hash, tasks: seq<PdfTask>)
    ensures UploadMaterial(Example(sha), Relinked(tasks), 0, 1, "letter", LATE) == Ok(Uploaded(Late(tasks), 2, false))
  {
    assert "letter"[0] == 'l' && "r"[0] == 'r';
    assert RequirementNamed(Example(sha).requirements, "letter") == Some(Example(sha).requirements[0]);
    LateFits();
    NoMaterialYet();
  }

  lemma Relinking(sha: Hash, s: Sys, tasks: seq<PdfTask>)
    requires s.db == InQueue().(tasks := tasks) && s.now == 0
    ensures ApplyTx(Example(sha), s, Relink()) == s.(db := Relinked(tasks))
  {
    Relinks(tasks);
  }

  lemma UploadingLate(sha: Hash, s: Sys, tasks: seq<PdfTask>)
    requires s.db == Relinked(tasks) && s.now == 0
    ensures ApplyTx(Example(sha), s, UploadLate()) == s.(db := Late(tasks))
  {
    LateUpload(sha, tasks);
  }

  lemma UploadedLate(sha: Hash, s: Sys, tasks: seq<PdfTask>)
    requires Reached(Example(sha), s) && s.db == InQueue().(tasks := tasks) && s.now == 0
    ensures Reached(Example(sha), s.(db := Late(tasks)))
  {
    Relinking(sha, s, tasks);
    Commits(sha, s, Relink(), s.(db := Relinked(tasks)));
    UploadingLate(sha, s.(db := Relinked(tasks)), tasks);
    Commits(sha, s.(db := Relinked(tasks)), UploadLate(), s.(db := Late(tasks)));
  }

  lemma LateIsStranded(s: Sys, tasks: seq<PdfTask>)
    requires s.db == Late(tasks) && |tasks| == 1 && tasks[0].signatureVersion == 1
    requires tasks[0].status == Queued || tasks[0].status == Processing
    requires forall w | w in s.workers :: s.workers[w].pc == Stopped
    ensures Stranded(s) && s.db.status == Finalizing
  {
  }

  /** And so is a case whose queued task no worker will ever claim, */
  lemma StrandedIsReachable(sha: Hash)
    ensures exists s ::
      && Reached(Example(sha), s) && Stranded(s)
      && s.db.status == Finalizing && s.db.tasks[0].status == Queued
  {
    UntilQueued(sha);
    UploadedLate(sha, Office(InQueue()), [NewTask(1)]);
    LateIsStranded(Office(Late([NewTask(1)])), [NewTask(1)]);
  }

  function Gone(sha: Hash, db: Db): Sys { Busy(sha, db, Stopped, false, false) }

  lemma UntilGone(sha: Hash)
    ensures Reached(Example(sha), Gone(sha, Working()))
  {
    UntilClaimed(sha);
    OneWorker(Leased(0), Stopped);
    ReachedNext(Example(sha), Busy(sha, Working(), Leased(0), false, false), Crash(0));
  }

  /** Still FINALIZING: the lease ran out, but both the next delivery and a retry are refused. */
  ghost predicate Abandoned(sha: Hash, s: Sys) {
    && s.db.status == Finalizing && s.db.tasks != [] && LeaseExpired(s.db.tasks[0], s.now)
    && Claim(Example(sha), s.db, s.now, OwnJob(Example(sha)), s.nextToken) == (Refused(SigningInvalid), s.db)
    && Retry(s.db).Err?
  }

  lemma GoneIsAbandoned(sha: Hash)
    ensures var s := Gone(sha, Late([Leasing()])).(now := 46); Stranded(s) && Abandoned(sha, s)
  {
    LateIsStranded(Gone(sha, Late([Leasing()])).(now := 46), [Leasing()]);
  }

  /** or one whose worker crashed in the middle. */
  lemma AbandonedIsReachable(sha: Hash)
    ensures exists s :: Reached(Example(sha), s) && Stranded(s) && Abandoned(sha, s)
  {
    UntilGone(sha);
    UploadedLate(sha, Gone(sha, Working()), [Leasing()]);
    ReachedNext(Example(sha), Gone(sha, Late([Leasing()])), Tick(46));
    GoneIsAbandoned(sha);
  }
}
