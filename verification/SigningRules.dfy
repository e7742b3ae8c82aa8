/**
 What a signature records: the image, the places and the preview its command named, at the content of that moment. And
 what a submission hands over to review: a case whose one valid signature is the one it names.
 */
module SigningRules {
  import opened Common
  import opened Placement
  import opened CaseModel
  import opened CaseTransactions
  import opened PdfTransactions
  import opened CaseInvariants
  import opened CaseProofs
  import opened System
  import opened SystemInvariants
  import opened SystemProofs
  import opened WorkerProofs
  import opened Evolution
  import opened PdfTheorems
  import opened CaseTheorems
  import opened LinkRules
  import opened DraftRules
  import opened StepEffects

  // ---------------------------------------------------------------- what is signed

  /** The image fits the way of signing, and a cut-out seal is cut out of the original the command names. */
  predicate ImageFits(f: FileRow, command: SigningCommand) {
    && !f.removed && f.mime != ApplicationPdf
    && match command.mode
       case HandwrittenMode => f.purpose == Handwritten
       case SealMode =>
         || f.purpose == SealOriginal
         || (f.purpose == SealProcessed && command.sealOriginal.Some? && f.original == command.sealOriginal)
  }

  /** The record says what its command said, of the content, the image and the preview as they are. */
  ghost predicate Records(env: Env, db: Db, command: SigningCommand, r: Signing) {
    && r.mode == command.mode && r.positions == command.positions && r.declarationAccepted && command.declaration
    && r.resource == command.resource.index && r.resource < |db.files| && ImageFits(db.files[r.resource], command)
    && db.drafts != [] && r.draftVersion == |db.drafts|
    && r.contentDigest == env.contentDigest(CurrentContent(env, db))
    && r.preview < |db.files|
    && var preview := db.files[r.preview];
       preview.purpose == PresignPdf && preview.digest == Some(r.contentDigest) && !preview.removed
         && preview.sha == r.previewSha
  }

  /** The record is added, the earlier signatures lose their validity, and nothing else changes. */
  ghost predicate Signs(env: Env, db: Db, command: SigningCommand, after: Db) {
    && |after.signings| == |db.signings| + 1 && after == db.(signings := after.signings)
    && (forall k | 0 <= k < |db.signings| :: after.signings[k] == db.signings[k].(valid := false))
    && after.signings[|db.signings|].valid && Records(env, db, command, after.signings[|db.signings|])
  }

  lemma CommitSigns(env: Env, db: Db, now: nat, token: nat, command: SigningCommand, ticket: SignTicket)
    requires FilesOk(db.files) && SignTicketOk(ticket)
    requires CommitSigning(env, db, now, token, command, ticket).Ok?
    ensures Signs(env, db, command, CommitSigning(env, db, now, token, command, ticket).value)
    ensures Admitted(db, now, token) && command == ticket.command && PositionsAccepted(command.positions, env.slots)
  {
    assert RowOk(db.files[ticket.resource]);
  }

  /** Whenever a signature is added it records exactly what the customer's command said, with a link that was open. */
  lemma SignedAsCommanded(env: Env, s: Sys, step: Step)
    requires Reached(env, s) && |Apply(env, s, step).db.signings| != |s.db.signings|
    ensures step.Case? && step.tx.OfClient? && step.tx.client.CommitSigningTx?
    ensures Signs(env, s.db, step.tx.client.command, Apply(env, s, step).db)
    ensures Admitted(s.db, s.now, step.tx.client.token)
    ensures PositionsAccepted(step.tx.client.command.positions, env.slots)
  {
    assert FilesOk(s.db.files) && TicketsOk(s.submitting, s.signing) by {
      ReachedOk(env, s);
    }
    StepCases(env, s, step);
    TxSigns(env, s, step.tx);
  }

  lemma TxSigns(env: Env, s: Sys, tx: Tx)
    requires FilesOk(s.db.files) && TicketsOk(s.submitting, s.signing)
    requires |ApplyTx(env, s, tx).db.signings| != |s.db.signings|
    ensures tx.OfClient? && tx.client.CommitSigningTx?
    ensures Signs(env, s.db, tx.client.command, ApplyTx(env, s, tx).db)
    ensures Admitted(s.db, s.now, tx.client.token) && PositionsAccepted(tx.client.command.positions, env.slots)
  {
    TxApplied(env, s, tx);
    OnlyCommitsSign(env, s.db, s.now, tx);
    var c := tx.client;
    assert SignTicketOk(c.signTicket);
    CommitSigns(env, s.db, s.now, c.token, c.command, c.signTicket);
  }

  lemma OnlyCommitsSign(env: Env, db: Db, now: nat, tx: Tx)
    requires |TxDb(env, db, now, tx).signings| != |db.signings|
    ensures tx.OfClient? && tx.client.CommitSigningTx?
    ensures CommitSigning(env, db, now, tx.client.token, tx.client.command, tx.client.signTicket).Ok?
    ensures TxDb(env, db, now, tx)
      == CommitSigning(env, db, now, tx.client.token, tx.client.command, tx.client.signTicket).value
  {
    match tx
    case OfLink(t) => LinkTxTouches(db, now, t);
    case OfClient(t) => ClientSigns(env, db, now, t);
    case OfFile(t) => FileSigns(env, db, now, t);
    case OfReview(t) => ReviewTxTouches(env, db, t);
    case OfPdf(t) => PdfTxTouches(env, db, t);
  }

  lemma ClientSigns(env: Env, db: Db, now: nat, tx: ClientTx)
    requires |ClientDb(env, db, now, tx).signings| != |db.signings|
    ensures tx.CommitSigningTx? && CommitSigning(env, db, now, tx.token, tx.command, tx.signTicket).Ok?
  {
  }

  lemma FileSigns(env: Env, db: Db, now: nat, tx: FileTx)
    ensures |FileDb(env, db, now, tx).signings| == |db.signings|
  {
  }

  /** A signature keeps its image, its places and its preview in every later state, and the image is never removed. */
  lemma SignedForEver(env: Env, s: Sys, more: seq<Step>, k: nat)
    requires Reached(env, s) && k < |s.db.signings|
    ensures var r, later := s.db.signings[k], Run(env, s, more).db;
      && k < |later.signings| && later.signings[k] == r.(valid := later.signings[k].valid)
      && r.resource < |s.db.files| && r.resource < |later.files|
      && later.files[r.resource] == s.db.files[r.resource] && !later.files[r.resource].removed
  {
    var later := Run(env, s, more).db;
    InvalidForEver(env, s, more, k);
    FilesOnlyGrow(env, s, more);
    ImageStays(s.db, later, k);
  }

  lemma FilesOnlyGrow(env: Env, s: Sys, more: seq<Step>)
    requires Reached(env, s)
    ensures FilesGrow(s.db.files, Run(env, s, more).db.files)
    ensures FilesOk(s.db.files) && PinsExist(s.db.files, s.db.signings) && FilesOk(Run(env, s, more).db.files)
  {
    ReachedOk(env, s);
    RunGrows(env, s, more);
    RunKeeps(env, s, more);
  }

  lemma ImageStays(db: Db, later: Db, k: nat)
    requires FilesGrow(db.files, later.files) && FilesOk(db.files) && FilesOk(later.files)
    requires PinsExist(db.files, db.signings) && k < |db.signings|
    ensures var i := db.signings[k].resource;
      i < |db.files| && i < |later.files| && later.files[i] == db.files[i] && !later.files[i].removed
  {
    var i := db.signings[k].resource;
    assert RowOk(db.files[i]) && RowOk(later.files[i]);
  }

  /** What the command needs besides an admitted customer: an image of the case, its original, and a preview to sign. */
  ghost predicate Signable(env: Env, db: Db, command: SigningCommand)
    requires db.drafts != []
  {
    && command.declaration && PositionsAccepted(command.positions, env.slots)
    && command.resourceVersion == 1 && command.resource.index < |db.files|
    && ImageFits(db.files[command.resource.index], command)
    && (command.mode == SealMode ==>
          && command.sealOriginal.Some? && command.sealOriginal.value < |db.files|
          && var original := db.files[command.sealOriginal.value];
             original.purpose == SealOriginal && !original.removed)
    && exists p | 0 <= p < |db.files| ::
         db.files[p].purpose == PresignPdf && db.files[p].digest == Some(env.contentDigest(CurrentContent(env, db)))
  }

  lemma PreviewToSign(files: seq<FileRow>, digest: Digest)
    ensures LastWhere(files, HasDigest(digest)).Some? <==>
      exists p | 0 <= p < |files| :: files[p].purpose == PresignPdf && files[p].digest == Some(digest)
  {
    var last := LastWhere(files, HasDigest(digest));
    if last.Some? {
      assert HasDigest(digest)(files[last.value]);
    } else {
      assert forall i | 0 <= i < |files| :: !HasDigest(digest)(files[i]);
    }
  }

  /** The first phase of signing accepts exactly an admitted customer's command that can be signed. */
  lemma SigningVerifiesExactly(env: Env, db: Db, now: nat, token: nat, command: SigningCommand)
    requires FilesOk(db.files)
    ensures VerifySigning(env, db, now, token, command).Ok?
      <==> Admitted(db, now, token) && db.templatePublished && db.drafts != [] && Signable(env, db, command)
  {
    if db.drafts != [] {
      PreviewToSign(db.files, env.contentDigest(CurrentContent(env, db)));
      if command.resource.index < |db.files| {
        BindingMeans(db.files[command.resource.index], command);
      }
    }
  }

  lemma BindingMeans(f: FileRow, command: SigningCommand)
    requires RowOk(f)
    ensures IsResource(f) && !f.removed
        && BindingValid(command.mode, f, if command.mode == SealMode then command.sealOriginal else None)
      <==> ImageFits(f, command)
  {
  }

  // ---------------------------------------------------------------- what is submitted

  /** The version a submission has to name: that of the one valid signature, if it is of the current content. */
  lemma SubmissionNamesSignature(env: Env, db: Db, now: nat, token: nat, signingVersion: nat)
    requires VerifySubmission(env, db, now, token, signingVersion).Ok?
    ensures Admitted(db, now, token) && db.templatePublished && db.drafts != []
    ensures 1 <= signingVersion <= |db.signings|
    ensures var r := db.signings[signingVersion - 1];
      && r.valid && r.contentDigest == env.contentDigest(CurrentContent(env, db))
      && r.preview < |db.files| && db.files[r.preview].sha == r.previewSha
    ensures VerifySubmission(env, db, now, token, signingVersion).value.signing == signingVersion - 1
  {
  }

  /** The first phase of a submission accepts exactly that. */
  lemma SubmissionVerifiesExactly(env: Env, db: Db, now: nat, token: nat, signingVersion: nat)
    requires EvidenceOk(env, db.drafts, db.files, db.signings)
    ensures VerifySubmission(env, db, now, token, signingVersion).Ok?
      <==>
      && Admitted(db, now, token) && db.templatePublished
      && 1 <= signingVersion <= |db.signings| && db.signings[signingVersion - 1].valid
  {
    if 1 <= signingVersion <= |db.signings| && db.signings[signingVersion - 1].valid {
      ValidIsLatestValid(db.signings, signingVersion - 1);
      ValidIsShown(env, db, signingVersion - 1);
    }
  }

  lemma ValidIsShown(env: Env, db: Db, k: nat)
    requires FilesOk(db.files) && PinsExist(db.files, db.signings) && k < |db.signings| && db.signings[k].valid
    requires ValidSigningIsCurrent(env, db.drafts, db.files, db.signings)
    ensures db.drafts != []
    ensures db.signings[k].contentDigest == ApiDigest(env, db.drafts[|db.drafts| - 1], db.files)
    ensures db.signings[k].preview < |db.files|
    ensures var f := db.files[db.signings[k].preview]; f.mime == ApplicationPdf && f.sha == db.signings[k].previewSha
  {
    ValidCarriesDigest(env, db, k);
    assert RowOk(db.files[db.signings[k].preview]);
  }

  /** In every reachable state a submission is accepted exactly when it names the valid signature. */
  lemma SubmissionAcceptedExactly(env: Env, s: Sys, token: nat, signingVersion: nat)
    requires Reached(env, s)
    ensures VerifySubmission(env, s.db, s.now, token, signingVersion).Ok?
      <==>
      && Admitted(s.db, s.now, token) && s.db.templatePublished
      && 1 <= signingVersion <= |s.db.signings| && s.db.signings[signingVersion - 1].valid
  {
    ReachedOk(env, s);
    SubmissionVerifiesExactly(env, s.db, s.now, token, signingVersion);
  }

  /** The case goes to its first or its next review, and the link that submitted it is spent. */
  ghost predicate HandsOver(env: Env, db: Db, token: nat, after: Db) {
    && token < |db.links| && |after.links| == |db.links| && after.links[token] == db.links[token].(consumed := true)
    && (forall i | 0 <= i < |db.links| && i != token :: after.links[i] == db.links[i])
    && after.submissions == db.submissions + [token]
    && after.status == (if db.status == NeedsSupplement then PendingRereview else PendingReview)
    && after.history == db.history + [HistoryRow(Some(db.status), after.status)]
    && after == db.(status := after.status, history := after.history, links := after.links,
                    submissions := after.submissions)
    && db.drafts != []
    && exists k | 0 <= k < |db.signings| ::
         db.signings[k].valid && db.signings[k].contentDigest == env.contentDigest(CurrentContent(env, db))
  }

  lemma CommitHandsOver(env: Env, db: Db, now: nat, token: nat, ticket: SubmitTicket)
    requires CommitSubmission(env, db, now, token, ticket).Ok? && Editable(ticket.status)
    ensures HandsOver(env, db, token, CommitSubmission(env, db, now, token, ticket).value)
    ensures Admitted(db, now, token)
  {
    assert db.signings[ticket.signing].valid;
  }

  predicate UnderReview(status: CaseStatus) { status == PendingReview || status == PendingRereview }

  /** A case comes under review only by a customer's submission of content that carries a valid signature. */
  lemma ReviewedAsSigned(env: Env, s: Sys, step: Step)
    requires Reached(env, s) && !UnderReview(s.db.status) && UnderReview(Apply(env, s, step).db.status)
    ensures step.Case? && step.tx.OfClient? && step.tx.client.CommitSubmissionTx?
    ensures HandsOver(env, s.db, step.tx.client.token, Apply(env, s, step).db)
    ensures Admitted(s.db, s.now, step.tx.client.token)
  {
    assert TicketsOk(s.submitting, s.signing) by {
      ReachedOk(env, s);
    }
    StepCases(env, s, step);
    TxHandsOver(env, s, step.tx);
  }

  lemma TxHandsOver(env: Env, s: Sys, tx: Tx)
    requires TicketsOk(s.submitting, s.signing)
    requires !UnderReview(s.db.status) && UnderReview(ApplyTx(env, s, tx).db.status)
    ensures tx.OfClient? && tx.client.CommitSubmissionTx?
    ensures HandsOver(env, s.db, tx.client.token, ApplyTx(env, s, tx).db) && Admitted(s.db, s.now, tx.client.token)
  {
    TxApplied(env, s, tx);
    OnlySubmissionsEnter(env, s.db, s.now, tx);
    CommitHandsOver(env, s.db, s.now, tx.client.token, tx.client.submitTicket);
  }

  lemma OnlySubmissionsEnter(env: Env, db: Db, now: nat, tx: Tx)
    requires !UnderReview(db.status) && UnderReview(TxDb(env, db, now, tx).status)
    ensures tx.OfClient? && tx.client.CommitSubmissionTx?
    ensures CommitSubmission(env, db, now, tx.client.token, tx.client.submitTicket).Ok?
    ensures TxDb(env, db, now, tx) == CommitSubmission(env, db, now, tx.client.token, tx.client.submitTicket).value
  {
    match tx
    case OfLink(t) => LinkEnters(db, now, t);
    case OfClient(t) => ClientEnters(env, db, now, t);
    case OfFile(t) => FileTxTouches(env, db, now, t);
    case OfReview(t) => ReviewEnters(env, db, t);
    case OfPdf(t) => PdfEnters(env, db, t);
  }

  lemma LinkEnters(db: Db, now: nat, tx: LinkTx)
    ensures UnderReview(LinkDb(db, now, tx).status) ==> UnderReview(db.status)
  {
  }

  lemma ClientEnters(env: Env, db: Db, now: nat, tx: ClientTx)
    requires !UnderReview(db.status) && UnderReview(ClientDb(env, db, now, tx).status)
    ensures tx.CommitSubmissionTx? && CommitSubmission(env, db, now, tx.token, tx.submitTicket).Ok?
  {
  }

  lemma ReviewEnters(env: Env, db: Db, tx: ReviewTx)
    ensures UnderReview(ReviewDb(env, db, tx).status) ==> UnderReview(db.status)
  {
  }

  lemma PdfEnters(env: Env, db: Db, tx: PdfTx)
    ensures UnderReview(PdfDb(env, db, tx).status) ==> UnderReview(db.status)
  {
  }
}
