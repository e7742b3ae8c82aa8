/**
 A run through a second review: the reviewer rejects the only item, the customer comes back with the new link, signs
 again with a cut-out seal, and the approval of the item sends the case to finalization with the second signature.
 */
module SupplementRun {
  import opened Common
  import opened Placement
  import opened CanonicalJson
  import opened CaseModel
  import opened CaseTransactions
  import opened PdfTransactions
  import opened System
  import opened PdfTheorems
  import opened LinkRules
  import opened DraftRules
  import opened SigningRules
  import opened ReviewRules
  import opened CompletedRun

  // ---------------------------------------------------------------- the case

  const OLD: Link := Link(100, true, true, false)
  const USED: Link := Link(100, false, true, false)

  const SEAL: Upload := Upload(5, "seal.png", ImagePng, 40, "seal", "files/5")
  const CUT: Upload := Upload(6, "cut.png", ImagePng, 30, "cut", "files/6")
  const SEAL_ROW: FileRow := FileRow(5, None, "seal.png", ImagePng, 40, "seal", "files/5", SealOriginal, None, None,
    true, false)
  const CUT_ROW: FileRow := FileRow(6, None, "cut.png", ImagePng, 30, "cut", "files/6", SealProcessed, None, Some(2),
    true, false)

  const STAMP: SigningCommand := SigningCommand(SealMode, ByVersionId(3), 1, [MARK], true, Some(2))
  const STAMPED: Signing := Signing(1, "content", SealMode, 3, 1, "pdf", [MARK], true, true)

  function Refused(): Db { Taken().(reviews := map["r" := Review(Reject, 1)]) }
  function Back(): Db { Move(Refused(), NeedsSupplement).(links := [OLD, LIVE]) }
  function WithSeal(): Db { Back().(files := [SIGNATURE, PREVIEW, SEAL_ROW]) }
  function WithCut(): Db { Back().(files := [SIGNATURE, PREVIEW, SEAL_ROW, CUT_ROW]) }
  function Stamped(): Db { WithCut().(signings := [SIGNED.(valid := false), STAMPED]) }
  function Resent(): Db { Move(Stamped(), PendingRereview).(links := [OLD, USED], submissions := [0, 1]) }
  function Accepted(): Db { Resent().(reviews := map["r" := Review(Approve, 2)]) }
  function Final(): Db { Move(Accepted(), Finalizing).(tasks := [NewTask(2)]) }

  function StampFound(): SignTicket {
    SignTicket(NeedsSupplement, 1, "content", STAMP, 3, CUT_ROW, Some(2), Some(SEAL_ROW), 1, PREVIEW)
  }
  function ResendFound(): SubmitTicket { SubmitTicket(NeedsSupplement, 1, "content", 1, 1, "pdf") }

  /** The system once the second signature, and then the second submission, are prepared. */
  function Stamper(db: Db): Sys { Office(db).(signing := {SigningFound()} + {StampFound()}) }
  function Sender(db: Db): Sys { Stamper(db).(submitting := {SubmissionFound()} + {ResendFound()}) }

  // ---------------------------------------------------------------- its transactions

  function Refuse(): Tx { OfReview(ReviewItemTx("rev", "r", Reject, true)) }
  function SendBack(): Tx { OfReview(ConfirmTx("rev", 100)) }
  function AddSeal(): Tx { OfFile(UploadResourceTx(1, SealOriginal, None, SEAL)) }
  function AddCut(): Tx { OfFile(UploadResourceTx(1, SealProcessed, Some(2), CUT)) }
  function PrepareStamp(): Tx { OfClient(VerifySigningTx(1, STAMP)) }
  function PutStamp(): Tx { OfClient(CommitSigningTx(1, STAMP, StampFound())) }
  function PrepareResend(): Tx { OfClient(VerifySubmissionTx(1, 2)) }
  function Resend(): Tx { OfClient(CommitSubmissionTx(1, ResendFound())) }
  function Accept(): Tx { OfReview(ReviewItemTx("rev", "r", Approve, false)) }

  lemma Refusing(sha: Hash)
    ensures ApplyTx(Example(sha), Office(Taken()), Refuse()) == Office(Refused())
  {
    assert Example(sha).requirements[0].id == "r";
    assert ReviewItem(Example(sha), Taken(), "rev", "r", Reject, true) == Ok(Refused());
  }

  lemma SendingBack(sha: Hash)
    ensures ApplyTx(Example(sha), Office(Refused()), SendBack()) == Office(Back())
  {
    assert Refused().reviews["r"].decision == Reject;
    assert DisableAll([SPENT]) + [LIVE] == [OLD, LIVE];
    assert Confirm(Example(sha), Refused(), "rev", 100) == Ok(Back());
  }

  lemma Opens(db: Db)
    requires db.links == [OLD, LIVE] && db.status == NeedsSupplement
    ensures Resolves(db, 0, 1)
  {
    assert Live(LIVE, 0);
  }

  lemma KeysApart()
    ensures !KeyTaken([SIGNATURE, PREVIEW], "files/5") && !KeyTaken([SIGNATURE, PREVIEW, SEAL_ROW], "files/6")
  {
    assert "files/1"[6] == '1' && "files/2"[6] == '2' && "files/5"[6] == '5' && "files/6"[6] == '6';
  }

  lemma RoomForSeal()
    ensures RetainedBytes([SIGNATURE, PREVIEW], [SIGNED]) <= 30
  {
    assert RetainedUpTo([SIGNATURE, PREVIEW], [SIGNED], 1) <= 10;
  }

  lemma RoomForCut()
    ensures RetainedBytes([SIGNATURE, PREVIEW, SEAL_ROW], [SIGNED]) <= 70
  {
    var files := [SIGNATURE, PREVIEW, SEAL_ROW];
    assert RetainedUpTo(files, [SIGNED], 1) <= 10;
    assert RetainedUpTo(files, [SIGNED], 2) <= 30;
  }

  lemma SealFits(db: Db)
    requires db.files == [SIGNATURE, PREVIEW] && db.signings == [SIGNED] && Resolves(db, 0, 1)
    ensures UploadResource(db, 0, 1, SealOriginal, None, SEAL)
      == Ok(Uploaded(db.(files := [SIGNATURE, PREVIEW, SEAL_ROW]), 2, false))
  {
    KeysApart();
    RoomForSeal();
    assert LastWhere(db.files, DuplicateResource(SealOriginal, "seal", None)) == None;
    assert [SIGNATURE, PREVIEW] + [SEAL_ROW] == [SIGNATURE, PREVIEW, SEAL_ROW];
  }

  lemma CutFits(db: Db)
    requires db.files == [SIGNATURE, PREVIEW, SEAL_ROW] && db.signings == [SIGNED] && Resolves(db, 0, 1)
    ensures UploadResource(db, 0, 1, SealProcessed, Some(2), CUT)
      == Ok(Uploaded(db.(files := [SIGNATURE, PREVIEW, SEAL_ROW, CUT_ROW]), 3, false))
  {
    KeysApart();
    RoomForCut();
    assert LastWhere(db.files, DuplicateResource(SealProcessed, "cut", Some(2))) == None;
    assert [SIGNATURE, PREVIEW, SEAL_ROW] + [CUT_ROW] == [SIGNATURE, PREVIEW, SEAL_ROW, CUT_ROW];
  }

  lemma ImageStored(env: Env, s: Sys, tx: Tx, after: Db)
    requires tx.OfFile? && tx.file.UploadResourceTx?
    requires var f := tx.file; var r := UploadResource(s.db, s.now, f.token, f.purpose, f.original, f.upload);
      r.Ok? && r.value.db == after
    ensures ApplyTx(env, s, tx) == s.(db := after)
  {
  }

  lemma AddingSeal(sha: Hash)
    ensures ApplyTx(Example(sha), Office(Back()), AddSeal()) == Office(WithSeal())
  {
    Opens(Back());
    SealFits(Back());
    ImageStored(Example(sha), Office(Back()), AddSeal(), WithSeal());
  }

  lemma AddingCut(sha: Hash)
    ensures ApplyTx(Example(sha), Office(WithSeal()), AddCut()) == Office(WithCut())
  {
    Opens(WithSeal());
    CutFits(WithSeal());
    ImageStored(Example(sha), Office(WithSeal()), AddCut(), WithCut());
  }

  lemma PreviewFound()
    ensures LastWhere([SIGNATURE, PREVIEW, SEAL_ROW, CUT_ROW], HasDigest("content")) == Some(1)
  {
    var files := [SIGNATURE, PREVIEW, SEAL_ROW, CUT_ROW];
    assert HasDigest("content")(files[1]);
    assert !HasDigest("content")(files[0]) && !HasDigest("content")(files[2]) && !HasDigest("content")(files[3]);
  }

  lemma MarkAccepted()
    ensures PositionsAccepted([MARK], [SLOT])
  {
    assert Required([SLOT]) == [SLOT];
    assert Naming([MARK], "s") == 1;
  }

  /** What both phases of the second signature look at. */
  predicate ToStamp(db: Db) {
    && db.status == NeedsSupplement && db.links == [OLD, LIVE] && db.drafts == [DraftRow([], None)]
    && db.templatePublished && db.files == [SIGNATURE, PREVIEW, SEAL_ROW, CUT_ROW] && db.signings == [SIGNED]
  }

  lemma StampVerifies(sha: Hash, db: Db)
    requires ToStamp(db)
    ensures VerifySigning(Example(sha), db, 0, 1, STAMP) == Ok(StampFound())
  {
    Opens(db);
    MarkAccepted();
    PreviewFound();
  }

  lemma PreparingStamp(sha: Hash)
    ensures ApplyTx(Example(sha), Office(WithCut()), PrepareStamp()) == Stamper(WithCut())
  {
    StampVerifies(sha, WithCut());
  }

  lemma StampCommits(sha: Hash, db: Db)
    requires ToStamp(db)
    ensures CommitSigning(Example(sha), db, 0, 1, STAMP, StampFound())
      == Ok(db.(signings := [SIGNED.(valid := false), STAMPED]))
  {
    Opens(db);
    MarkAccepted();
    assert InvalidateAll([SIGNED]) == [SIGNED.(valid := false)];
    assert [SIGNED.(valid := false)] + [STAMPED] == [SIGNED.(valid := false), STAMPED];
  }

  lemma PuttingStamp(sha: Hash)
    ensures ApplyTx(Example(sha), Stamper(WithCut()), PutStamp()) == Stamper(Stamped())
  {
    StampCommits(sha, WithCut());
  }

  lemma PreparingResend(sha: Hash)
    ensures ApplyTx(Example(sha), Stamper(Stamped()), PrepareResend()) == Sender(Stamped())
  {
    Opens(Stamped());
    assert VerifySubmission(Example(sha), Stamped(), 0, 1, 2) == Ok(ResendFound());
  }

  lemma ResendCommits(sha: Hash)
    ensures CommitSubmission(Example(sha), Stamped(), 0, 1, ResendFound()) == Ok(Resent())
  {
    Opens(Stamped());
    assert [OLD, LIVE][1 := USED] == [OLD, USED] && [0] + [1] == [0, 1];
  }

  lemma Resending(sha: Hash)
    ensures ApplyTx(Example(sha), Sender(Stamped()), Resend()) == Sender(Resent())
  {
    ResendCommits(sha);
  }

  lemma Accepting(sha: Hash)
    ensures ApplyTx(Example(sha), Sender(Resent()), Accept()) == Sender(Accepted())
  {
    assert Example(sha).requirements[0].id == "r";
    assert Resent().reviews == map["r" := Review(Reject, 1)];
    assert map["r" := Review(Reject, 1)]["r" := Review(Approve, 2)] == map["r" := Review(Approve, 2)];
    assert ReviewItem(Example(sha), Resent(), "rev", "r", Approve, false) == Ok(Accepted());
  }

  lemma FinalConfirms(sha: Hash)
    ensures Confirm(Example(sha), Accepted(), "rev", 100) == Ok(Final())
  {
    assert Accepted().reviews["r"].decision == Approve;
    assert LatestValid([SIGNED.(valid := false), STAMPED]) == Some(1);
    assert UpsertTask([], 2) == [NewTask(2)];
  }

  lemma ConfirmingAgain(sha: Hash)
    ensures ApplyTx(Example(sha), Sender(Accepted()), SendBack()) == Sender(Final())
  {
    FinalConfirms(sha);
  }

  // ---------------------------------------------------------------- the run

  lemma UntilBack(sha: Hash)
    ensures Reached(Example(sha), Office(Back()))
  {
    UntilSent(sha);
    CompletedRun.Taking(sha);
    CompletedRun.Commits(sha, Office(Sent()), Take(), Office(Taken()));
    Refusing(sha);
    CompletedRun.Commits(sha, Office(Taken()), Refuse(), Office(Refused()));
    SendingBack(sha);
    CompletedRun.Commits(sha, Office(Refused()), SendBack(), Office(Back()));
  }

  lemma UntilStamped(sha: Hash)
    ensures Reached(Example(sha), Stamper(Stamped()))
  {
    UntilBack(sha);
    AddingSeal(sha);
    CompletedRun.Commits(sha, Office(Back()), AddSeal(), Office(WithSeal()));
    AddingCut(sha);
    CompletedRun.Commits(sha, Office(WithSeal()), AddCut(), Office(WithCut()));
    PreparingStamp(sha);
    CompletedRun.Commits(sha, Office(WithCut()), PrepareStamp(), Stamper(WithCut()));
    PuttingStamp(sha);
    CompletedRun.Commits(sha, Stamper(WithCut()), PutStamp(), Stamper(Stamped()));
  }

  lemma UntilFinal(sha: Hash)
    ensures Reached(Example(sha), Sender(Final()))
  {
    UntilStamped(sha);
    PreparingResend(sha);
    CompletedRun.Commits(sha, Stamper(Stamped()), PrepareResend(), Sender(Stamped()));
    Resending(sha);
    CompletedRun.Commits(sha, Sender(Stamped()), Resend(), Sender(Resent()));
    Accepting(sha);
    CompletedRun.Commits(sha, Sender(Resent()), Accept(), Sender(Accepted()));
    ConfirmingAgain(sha);
    CompletedRun.Commits(sha, Sender(Accepted()), SendBack(), Sender(Final()));
  }

  /** A rejected case is reachable, with the link that lets its customer back in. */
  lemma SupplementIsReachable(sha: Hash)
    ensures exists s, token ::
      && Reached(Example(sha), s) && s.db.status == NeedsSupplement
      && Rejected(s.db, "r") && Admitted(s.db, s.now, token)
  {
    UntilBack(sha);
    var s := Office(Back());
    assert Rejected(s.db, "r") && Admitted(s.db, s.now, 1);
  }

  /** In finalization, on the second signature, which is a seal's; the image is the cut-out one, row 3. */
  predicate SealedForFinal(db: Db) {
    && db.status == Finalizing && db.tasks != [] && db.tasks[0].signatureVersion == 2 && |db.signings| == 2
    && db.signings[1].valid && db.signings[1].mode == SealMode && db.signings[1].resource == 3
    && |db.files| > 3 && db.files[3].purpose == SealProcessed && db.files[3].original == Some(2)
  }

  /** And so is a case that a cut-out seal brings to finalization. */
  lemma SealedIsReachable(sha: Hash)
    ensures exists s :: Reached(Example(sha), s) && SealedForFinal(s.db)
  {
    UntilFinal(sha);
    var s := Sender(Final());
    assert s.db.files[3] == CUT_ROW;
    assert SealedForFinal(s.db);
  }
}
