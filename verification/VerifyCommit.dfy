/**
 Submission, signing and finalization check in one transaction, read bytes outside any transaction, and commit in
 another. Whatever ran in between, a commit succeeds exactly when the whole first check, made at commit time, would
 give the very same answer: the two phases refine one atomic step.
 */
module VerifyCommit {
  import opened Common
  import opened Placement
  import opened CaseModel
  import opened CaseTransactions
  import opened PdfTransactions
  import opened CaseInvariants
  import opened System
  import opened SystemInvariants
  import opened WorkerProofs
  import opened Evolution
  import opened Leases
  import opened PdfTheorems
  import opened CaseTheorems

  // ---------------------------------------------------------------- submission

  lemma SubmissionRechecks(
    env: Env, db: Db, now: nat, token: nat, later: Db, laterNow: nat, laterToken: nat, signingVersion: nat)
    requires VerifySubmission(env, db, now, token, signingVersion).Ok?
    requires FilesGrow(db.files, later.files) && OneValidSigning(later.signings)
    ensures var ticket := VerifySubmission(env, db, now, token, signingVersion).value;
      CommitSubmission(env, later, laterNow, laterToken, ticket).Ok?
      <==> VerifySubmission(env, later, laterNow, laterToken, signingVersion) == Ok(ticket)
  {
    var ticket := VerifySubmission(env, db, now, token, signingVersion).value;
    if ticket.signing < |later.signings| && later.signings[ticket.signing].valid {
      ValidIsLatestValid(later.signings, ticket.signing);
    }
  }

  /** A formal submission commits exactly when its complete first phase would succeed again with the same findings. */
  lemma SubmissionIsAtomic(env: Env, s: Sys, token: nat, signingVersion: nat, more: seq<Step>, laterToken: nat)
    requires Reached(env, s) && VerifySubmission(env, s.db, s.now, token, signingVersion).Ok?
    ensures var ticket := VerifySubmission(env, s.db, s.now, token, signingVersion).value;
      var later := Run(env, s, more);
      CommitSubmission(env, later.db, later.now, laterToken, ticket).Ok?
      <==> VerifySubmission(env, later.db, later.now, laterToken, signingVersion) == Ok(ticket)
  {
    ReachedOk(env, s);
    RunKeeps(env, s, more);
    RunGrows(env, s, more);
    var later := Run(env, s, more);
    SubmissionRechecks(env, s.db, s.now, token, later.db, later.now, laterToken, signingVersion);
  }

  // ---------------------------------------------------------------- signing

  /** A row that was not tombstoned then and is not now is the same row, flags included. */
  lemma ActiveRowSame(files: seq<FileRow>, later: seq<FileRow>, i: nat)
    requires FilesGrow(files, later) && FilesOk(files) && FilesOk(later) && i < |files| && !later[i].removed
    ensures later[i] == files[i]
  {
    assert later[i] == files[i].(removed := later[i].removed, cacheActive := later[i].cacheActive);
    assert RowOk(files[i]) && RowOk(later[i]);
  }

  /** An active preview is the newest of its digest, so the first phase would pick it again. */
  lemma ActivePreviewIsLatest(files: seq<FileRow>, digest: Digest, i: nat)
    requires FilesOk(files) && PreviewsNewest(files) && i < |files|
    requires HasDigest(digest)(files[i]) && !files[i].removed
    ensures LastWhere(files, HasDigest(digest)) == Some(i)
  {
    assert RowOk(files[i]);
    var last := LastWhere(files, HasDigest(digest)).value;
    assert HasDigest(digest)(files[last]);
  }

  /** The rows the ticket names, found again. */
  lemma SigningRowsAgree(env: Env, db: Db, later: Db, ticket: SignTicket)
    requires FilesGrow(db.files, later.files) && FilesOk(db.files) && FilesOk(later.files)
    requires ticket.resource < |db.files| && ticket.resourceRow == db.files[ticket.resource]
    requires ticket.preview < |db.files| && ticket.previewRow == db.files[ticket.preview]
    ensures !later.files[ticket.resource].removed ==> later.files[ticket.resource] == ticket.resourceRow
    ensures !later.files[ticket.preview].removed ==> later.files[ticket.preview] == ticket.previewRow
    ensures
      (&& ticket.original.Some? && ticket.original.value < |db.files|
        && ticket.originalRow == Some(db.files[ticket.original.value])
       && !later.files[ticket.original.value].removed)
      ==> Some(later.files[ticket.original.value]) == ticket.originalRow
  {
    if !later.files[ticket.resource].removed {
      ActiveRowSame(db.files, later.files, ticket.resource);
    }
    if !later.files[ticket.preview].removed {
      ActiveRowSame(db.files, later.files, ticket.preview);
    }
    if ticket.original.Some? && ticket.original.value < |db.files| && !later.files[ticket.original.value].removed {
      ActiveRowSame(db.files, later.files, ticket.original.value);
    }
  }

  /** What one found ticket says of the rows it was made from. */
  lemma TicketNamesRows(env: Env, db: Db, now: nat, token: nat, command: SigningCommand)
    requires VerifySigning(env, db, now, token, command).Ok?
    ensures var t := VerifySigning(env, db, now, token, command).value;
      && t.command == command && Some(t.resource) == FindResource(db, command) && t.resourceRow == db.files[t.resource]
      && t.preview < |db.files| && t.previewRow == db.files[t.preview] && HasDigest(t.digest)(db.files[t.preview])
      && LastWhere(db.files, HasDigest(t.digest)) == Some(t.preview)
      && t.original == (if command.mode == SealMode then command.sealOriginal else None)
      && (t.original.Some? ==>
            && FindOriginal(db, t.original.value).Some?
            && t.originalRow == Some(db.files[t.original.value]))
      && (t.original.None? ==> t.originalRow.None?)
      && Editable(t.status) && (command.mode == SealMode ==> t.original.Some?)
  {
  }

  /** What a commit found of the rows its ticket names. */
  lemma CommitFinds(env: Env, db: Db, now: nat, token: nat, command: SigningCommand, ticket: SignTicket)
    requires CommitSigning(env, db, now, token, command, ticket).Ok?
    ensures ticket.command == command && ticket.digest == ApiDigest(env, db.drafts[|db.drafts| - 1], db.files)
    ensures ticket.resource < |db.files| && SameFile(db.files[ticket.resource], ticket.resourceRow)
    ensures ticket.original.Some? ==>
      FindOriginal(db, ticket.original.value).Some? && ticket.originalRow.Some?
    ensures ticket.preview < |db.files| && HasDigest(ticket.digest)(db.files[ticket.preview])
    ensures !db.files[ticket.preview].removed
  {
  }

  /** A ticket a commit accepted, over the very rows it names, is the ticket the first phase gives. */
  lemma CommitVerifies(env: Env, db: Db, now: nat, token: nat, command: SigningCommand, ticket: SignTicket)
    requires CommitSigning(env, db, now, token, command, ticket).Ok?
    requires Editable(ticket.status) && (command.mode == SealMode ==> ticket.original.Some?)
    requires FindResource(db, command) == Some(ticket.resource) && ticket.resourceRow == db.files[ticket.resource]
    requires LastWhere(db.files, HasDigest(ticket.digest)) == Some(ticket.preview)
    requires ticket.preview < |db.files| && ticket.previewRow == db.files[ticket.preview]
    requires ticket.original == (if command.mode == SealMode then command.sealOriginal else None)
    requires ticket.original.Some? ==>
      FindOriginal(db, ticket.original.value).Some? && ticket.originalRow == Some(db.files[ticket.original.value])
    requires ticket.original.None? ==> ticket.originalRow.None?
    ensures VerifySigning(env, db, now, token, command) == Ok(ticket)
  {
  }

  lemma SigningCommits(
    env: Env, db: Db, now: nat, token: nat, command: SigningCommand, later: Db, laterNow: nat, laterToken: nat)
    requires VerifySigning(env, db, now, token, command).Ok?
    requires FilesGrow(db.files, later.files) && FilesOk(db.files) && FilesOk(later.files)
    requires PreviewsNewest(later.files)
    requires CommitSigning(env, later, laterNow, laterToken, command,
      VerifySigning(env, db, now, token, command).value).Ok?
    ensures VerifySigning(env, later, laterNow, laterToken, command) == VerifySigning(env, db, now, token, command)
    ensures !later.files[VerifySigning(env, db, now, token, command).value.preview].removed
  {
    var ticket := VerifySigning(env, db, now, token, command).value;
    TicketNamesRows(env, db, now, token, command);
    SigningRowsAgree(env, db, later, ticket);
    CommitFinds(env, later, laterNow, laterToken, command, ticket);
    ActivePreviewIsLatest(later.files, ticket.digest, ticket.preview);
    CommitVerifies(env, later, laterNow, laterToken, command, ticket);
  }

  lemma SigningVerifiesAgain(
    env: Env, db: Db, now: nat, token: nat, command: SigningCommand, later: Db, laterNow: nat, laterToken: nat)
    requires VerifySigning(env, db, now, token, command).Ok?
    requires VerifySigning(env, later, laterNow, laterToken, command) == VerifySigning(env, db, now, token, command)
    requires !later.files[VerifySigning(env, db, now, token, command).value.preview].removed
    ensures CommitSigning(env, later, laterNow, laterToken, command,
      VerifySigning(env, db, now, token, command).value).Ok?
  {
    TicketNamesRows(env, later, laterNow, laterToken, command);
  }

  lemma SigningRechecks(
    env: Env, db: Db, now: nat, token: nat, command: SigningCommand, later: Db, laterNow: nat, laterToken: nat)
    requires VerifySigning(env, db, now, token, command).Ok?
    requires FilesGrow(db.files, later.files) && FilesOk(db.files) && FilesOk(later.files)
    requires PreviewsNewest(later.files)
    ensures var ticket := VerifySigning(env, db, now, token, command).value;
      && ticket.preview < |later.files|
      && (CommitSigning(env, later, laterNow, laterToken, command, ticket).Ok?
          <==>
          && VerifySigning(env, later, laterNow, laterToken, command) == Ok(ticket)
          && !later.files[ticket.preview].removed)
  {
    TicketNamesRows(env, db, now, token, command);
    var ticket := VerifySigning(env, db, now, token, command).value;
    if CommitSigning(env, later, laterNow, laterToken, command, ticket).Ok? {
      SigningCommits(env, db, now, token, command, later, laterNow, laterToken);
    }
    if VerifySigning(env, later, laterNow, laterToken, command) == Ok(ticket) && !later.files[ticket.preview].removed {
      SigningVerifiesAgain(env, db, now, token, command, later, laterNow, laterToken);
    }
  }

  /** A signing commits exactly when its first phase would find the same again and the preview is still cached. */
  lemma SigningIsAtomic(env: Env, s: Sys, token: nat, command: SigningCommand, more: seq<Step>, laterToken: nat)
    requires Reached(env, s) && VerifySigning(env, s.db, s.now, token, command).Ok?
    ensures var ticket := VerifySigning(env, s.db, s.now, token, command).value;
      var later := Run(env, s, more);
      && ticket.preview < |later.db.files|
      && (CommitSigning(env, later.db, later.now, laterToken, command, ticket).Ok?
          <==>
          && VerifySigning(env, later.db, later.now, laterToken, command) == Ok(ticket)
          && !later.db.files[ticket.preview].removed)
  {
    ReachedOk(env, s);
    RunKeeps(env, s, more);
    RunGrows(env, s, more);
    var later := Run(env, s, more);
    SigningRechecks(env, s.db, s.now, token, command, later.db, later.now, laterToken);
  }

  // ---------------------------------------------------------------- finalization

  /** The fingerprint determines every database gate of an event. */
  lemma FingerprintDecidesGates(env: Env, a: Db, b: Db, e: Event)
    requires Inspect(env, a, e).Ok? && Inspect(env, b, e).Ok?
    requires Inspect(env, a, e).value.fingerprint == Inspect(env, b, e).value.fingerprint
    ensures Inspect(env, a, e).value.gates == Inspect(env, b, e).value.gates
    ensures Inspect(env, a, e).value.persistedSha == Inspect(env, b, e).value.persistedSha
  {
  }

  lemma EvidenceStays(
    env: Env, contents: map<Digest, Bytes>, later: map<Digest, Bytes>, i: Inspection, e: Event)
    requires StorageEvidence(env, contents, i, e).Ok?
    requires e.sha in contents ==> e.sha in later && later[e.sha] == contents[e.sha]
    ensures StorageEvidence(env, later, i, e) == StorageEvidence(env, contents, i, e)
  {
  }

  lemma InspectionStays(env: Env, a: Db, b: Db, e: Event, first: Inspection)
    requires FilesGrow(a.files, b.files) && Inspect(env, a, e) == Ok(first)
    requires Inspect(env, b, e).Ok? && Inspect(env, b, e).value.fingerprint == first.fingerprint
    ensures Inspect(env, b, e) == Ok(first)
  {
    FingerprintDecidesGates(env, a, b, e);
  }

  /** The first check of the service: the database gates and the stored bytes. */
  predicate Checked(env: Env, s: Sys, e: Event, i: Inspection) {
    Inspect(env, s.db, e) == Ok(i) && FirstCheck(env, s.db, s.contents, e)
  }

  /**
   A finalization that was checked at one time commits at a later one exactly when the complete check, bytes included,
   holds unchanged at the commit and the case still waits for it or has it already.
   */
  lemma FinalizationIsAtomic(env: Env, s: Sys, e: Event, i: Inspection, more: seq<Step>)
    requires Reached(env, s) && Checked(env, s, e, i)
    ensures var later := Run(env, s, more);
      !Finalize(env, later.db, e, Some(i.fingerprint)).0.FinalizeRefused?
      <==> Checked(env, later, e, i) && later.db.status in {Finalizing, PdfFailed, Completed}
  {
    ReachedOk(env, s);
    RunGrows(env, s, more);
    RunQuiet(env, s, more, 0);
    var later := Run(env, s, more);
    EvidenceStays(env, s.contents, later.contents, i, e);
    CommitDecides(env, s.db, later.db, e, i);
  }

  lemma CommitDecides(env: Env, db: Db, later: Db, e: Event, i: Inspection)
    requires Inspect(env, db, e) == Ok(i) && FilesGrow(db.files, later.files) && i.gates.Pass()
    ensures !Finalize(env, later, e, Some(i.fingerprint)).0.FinalizeRefused?
      <==> Inspect(env, later, e) == Ok(i) && later.status in {Finalizing, PdfFailed, Completed}
  {
    if Inspect(env, later, e).Ok? && Inspect(env, later, e).value.fingerprint == i.fingerprint {
      InspectionStays(env, db, later, e, i);
    }
  }
}
