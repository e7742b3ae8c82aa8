/**
 The preview cache while a signing is valid: its own preview is served from the cache, or at least one place is free, so
 no preview transaction retires anything.
 */
module CacheQuiet {
  import opened Common
  import opened CaseModel
  import opened CaseTransactions
  import opened PdfTransactions
  import opened FileFacts
  import opened CaseInvariants
  import opened CaseProofs
  import opened System
  import opened SystemInvariants
  import opened SystemProofs
  import opened WorkerProofs
  import opened Evolution
  import opened PdfTheorems

  predicate Serves(files: seq<FileRow>, digest: Digest) { LastWhere(files, ServesDigest(digest)).Some? }

  lemma ServedBy(files: seq<FileRow>, digest: Digest, i: nat)
    requires i < |files| && ServesDigest(digest)(files[i])
    ensures Serves(files, digest)
  {
  }

  /** For every valid signing the cache holds an active preview of its digest, or fewer than three active ones. */
  ghost predicate Quieted(files: seq<FileRow>, signings: seq<Signing>) {
    forall k | 0 <= k < |signings| && signings[k].valid ::
      Serves(files, signings[k].contentDigest) || ActivePreviewsFrom(files, 0) <= 2
  }

  // ---------------------------------------------------------------- counting active previews

  lemma {:induction false} ActiveFromStart(files: seq<FileRow>, i: nat)
    requires i <= |files|
    ensures ActivePreviewsFrom(files, i) <= ActivePreviewsFrom(files, 0)
  {
    if i > 0 {
      ActiveFromStart(files, i - 1);
    }
  }

  /** Two active previews leave nothing to retire. */
  lemma TwoRetireNone(files: seq<FileRow>)
    requires ActivePreviewsFrom(files, 0) <= 2
    ensures Rotate(files) == files
  {
    forall i | 0 <= i < |files|
      ensures !Retires(files, i)
    {
      ActiveFromStart(files, i);
    }
  }

  lemma {:induction false} DroppingOne(files: seq<FileRow>, i: nat, from: nat)
    requires i < |files| && from <= |files| && IsActivePreview(files[i])
    ensures var after := files[i := Tombstone(files[i])];
      ActivePreviewsFrom(after, from) == ActivePreviewsFrom(files, from) - if from <= i then 1 else 0
    decreases |files| - from
  {
    if from < |files| {
      DroppingOne(files, i, from + 1);
    }
  }

  // ---------------------------------------------------------------- the transactions

  lemma MoreServes(files: seq<FileRow>, f: FileRow, digest: Digest)
    requires Serves(files, digest)
    ensures Serves(files + [f], digest)
  {
    var i := LastWhere(files, ServesDigest(digest)).value;
    ServedBy(files + [f], digest, i);
  }

  lemma AppendKeepsQuiet(files: seq<FileRow>, signings: seq<Signing>, f: FileRow)
    requires Quieted(files, signings) && !IsActivePreview(f)
    ensures Quieted(files + [f], signings)
  {
    ActivePreviewsAppend(files, f, 0);
    forall k | 0 <= k < |signings| && signings[k].valid && Serves(files, signings[k].contentDigest)
      ensures Serves(files + [f], signings[k].contentDigest)
    {
      MoreServes(files, f, signings[k].contentDigest);
    }
  }

  lemma DropKeepsQuiet(files: seq<FileRow>, signings: seq<Signing>, i: nat)
    requires Quieted(files, signings) && FilesOk(files) && PreviewsBounded(files)
    requires i < |files| && files[i].purpose == PresignPdf && files[i].cacheActive
    ensures Quieted(files[i := Tombstone(files[i])], signings)
  {
    assert RowOk(files[i]);
    DroppingOne(files, i, 0);
  }

  /** A valid signing carries the digest of the current draft and files. */
  lemma ValidHasDigest(env: Env, db: Db, k: nat)
    requires ValidSigningIsCurrent(env, db.drafts, db.files, db.signings)
    requires k < |db.signings| && db.signings[k].valid
    ensures db.drafts != [] && db.signings[k].contentDigest == ApiDigest(env, db.drafts[|db.drafts| - 1], db.files)
  {
    DigestsAgree(env, db.drafts[|db.drafts| - 1], db.files);
  }

  lemma PreviewServes(files: seq<FileRow>, r: Rendered)
    ensures Serves(Rotate(files) + [PreviewRow(r)], r.digest)
  {
    ServedBy(Rotate(files) + [PreviewRow(r)], r.digest, |files|);
  }

  lemma PreviewKeepsQuiet(env: Env, db: Db, now: nat, token: nat, r: Rendered)
    requires Quieted(db.files, db.signings) && ValidSigningIsCurrent(env, db.drafts, db.files, db.signings)
    requires PersistPreview(env, db, now, token, r).Ok?
    ensures var after := PersistPreview(env, db, now, token, r).value.db; Quieted(after.files, after.signings)
  {
    if !PersistPreview(env, db, now, token, r).value.reused {
      PreviewServes(db.files, r);
      forall k | 0 <= k < |db.signings| && db.signings[k].valid
        ensures db.signings[k].contentDigest == r.digest
      {
        ValidHasDigest(env, db, k);
      }
    }
  }

  lemma FileTxKeepsQuiet(env: Env, db: Db, now: nat, tx: FileTx)
    requires Quieted(db.files, db.signings) && FilesOk(db.files) && PreviewsBounded(db.files)
    requires ValidSigningIsCurrent(env, db.drafts, db.files, db.signings)
    ensures var after := FileDb(env, db, now, tx); Quieted(after.files, after.signings)
  {
    var after := FileDb(env, db, now, tx);
    if after != db {
      match tx
      case PersistPreviewTx(token, r) => PreviewKeepsQuiet(env, db, now, token, r);
      case DropCorruptPreviewTx(version) => DropKeepsQuiet(db.files, db.signings, version);
      case UploadMaterialTx(_, _, _) =>
      case RemoveMaterialTx(_, _) =>
      case UploadResourceTx(_, purpose, original, u) =>
        AppendKeepsQuiet(db.files, db.signings, ResourceRow(u, purpose, original));
    }
  }

  lemma SigningServes(env: Env, db: Db, now: nat, token: nat, command: SigningCommand, ticket: SignTicket)
    requires FilesOk(db.files) && CommitSigning(env, db, now, token, command, ticket).Ok?
    ensures Serves(db.files, ApiDigest(env, db.drafts[|db.drafts| - 1], db.files))
  {
    assert RowOk(db.files[ticket.preview]);
    ServedBy(db.files, ApiDigest(env, db.drafts[|db.drafts| - 1], db.files), ticket.preview);
  }

  lemma ClientTxKeepsQuiet(env: Env, db: Db, now: nat, tx: ClientTx)
    requires Quieted(db.files, db.signings) && FilesOk(db.files)
    ensures var after := ClientDb(env, db, now, tx); Quieted(after.files, after.signings)
  {
    if ClientDb(env, db, now, tx) != db {
      match tx
      case SaveDraftTx(_, _) =>
      case CommitSubmissionTx(_, _) =>
      case CommitSigningTx(token, command, ticket) => SigningServes(env, db, now, token, command, ticket);
    }
  }

  lemma TxKeepsQuiet(env: Env, db: Db, now: nat, tx: Tx)
    requires Quieted(db.files, db.signings) && FilesOk(db.files) && PreviewsBounded(db.files)
    requires ValidSigningIsCurrent(env, db.drafts, db.files, db.signings)
    ensures var after := TxDb(env, db, now, tx); Quieted(after.files, after.signings)
  {
    match tx
    case OfLink(t) => LinkTxTouches(db, now, t);
    case OfClient(t) => ClientTxKeepsQuiet(env, db, now, t);
    case OfFile(t) => FileTxKeepsQuiet(env, db, now, t);
    case OfReview(t) => ReviewTxTouches(env, db, t);
    case OfPdf(t) => PdfTxTouches(env, db, t);
  }

  // ---------------------------------------------------------------- workers

  /** A worker adds at most the final PDF. */
  lemma WorkerKeepsQuiet(s: Sys, after: Sys)
    requires Quieted(s.db.files, s.db.signings) && after.db.signings == s.db.signings
    requires FilesByWorker(s.db.files, after.db.files)
    ensures Quieted(after.db.files, after.db.signings)
  {
    if after.db.files != s.db.files {
      var f: FileRow :| f.purpose == FinalPdf && after.db.files == s.db.files + [f];
      AppendKeepsQuiet(s.db.files, s.db.signings, f);
    }
  }

  /** The only row a worker can add. */
  ghost predicate FilesByWorker(files: seq<FileRow>, later: seq<FileRow>) {
    later == files || exists f: FileRow :: f.purpose == FinalPdf && f.requirement.None? && later == files + [f]
  }

  lemma LeaseLeavesFiles(env: Env, s: Sys, w: nat)
    requires w in s.workers
    ensures GoLease(env, s, w).db.files == s.db.files
  {
    if s.workers[w].pc.Claiming? {
      ClaimLeaves(env, s.db, s.now, s.workers[w].job, s.nextToken);
    }
  }

  lemma CompleteAddsFinal(env: Env, db: Db, job: Job, token: nat, generation: int, c: Completion)
    ensures FilesByWorker(db.files, CompleteTask(env, db, job, token, generation, c).1.files)
  {
    if CompleteTask(env, db, job, token, generation, c).0.Complete? {
      var f := FinalRow(c, db.signings[db.tasks[job.task].signatureVersion - 1].contentDigest);
      assert f.purpose == FinalPdf && f.requirement.None?;
      assert CompleteTask(env, db, job, token, generation, c).1.files == db.files + [f];
    }
  }

  lemma RecordFiles(env: Env, s: Sys, w: nat, input: Input)
    requires w in s.workers
    ensures FilesByWorker(s.db.files, GoRecord(env, s, w, input).db.files)
  {
    if GoRecord(env, s, w, input).db != s.db {
      match s.workers[w].pc
      case Journalling(h, bytes) =>
      case Completing(h, bytes) =>
        CompleteAddsFinal(
          env, s.db, s.workers[w].job, h.token, h.generation, CompletionOf(env, bytes, input.fileId));
      case Publishing(row) =>
    }
  }

  lemma GoFiles(env: Env, s: Sys, w: nat, input: Input)
    requires w in s.workers
    ensures Go(env, s, w, input).db.signings == s.db.signings
    ensures FilesByWorker(s.db.files, Go(env, s, w, input).db.files)
  {
    var pc := s.workers[w].pc;
    if OnLease(pc) {
      GoLeaseTouches(env, s, w);
      LeaseLeavesFiles(env, s, w);
    } else if OnRead(pc) {
      GoReadTouches(env, s, w);
    } else if OnStage(pc) {
      GoStageTouches(env, s, w, input);
    } else if OnStore(pc) {
      GoStoreTouches(env, s, w);
    } else {
      GoRecordTouches(env, s, w, input);
      RecordFiles(env, s, w, input);
    }
  }

  // ---------------------------------------------------------------- runs

  lemma StepKeepsQuiet(env: Env, s: Sys, step: Step)
    requires Quieted(s.db.files, s.db.signings) && EvidenceOk(env, s.db.drafts, s.db.files, s.db.signings)
    ensures Quieted(Apply(env, s, step).db.files, Apply(env, s, step).db.signings)
  {
    if Apply(env, s, step).db != s.db {
      if step.Case? {
        TxKeepsQuiet(env, s.db, s.now, step.tx);
      } else {
        GoFiles(env, s, step.worker, step.input);
        WorkerKeepsQuiet(s, Apply(env, s, step));
      }
    }
  }

  lemma {:induction false} RunQuieted(env: Env, s: Sys, steps: seq<Step>)
    requires SysOk(env, s) && Quieted(s.db.files, s.db.signings)
    ensures Quieted(Run(env, s, steps).db.files, Run(env, s, steps).db.signings)
    decreases |steps|
  {
    if steps != [] {
      RunQuieted(env, s, steps[..|steps| - 1]);
      RunKeeps(env, s, steps[..|steps| - 1]);
      StepKeepsQuiet(env, Run(env, s, steps[..|steps| - 1]), steps[|steps| - 1]);
    }
  }

  lemma ReachedQuieted(env: Env, s: Sys)
    requires Reached(env, s)
    ensures Quieted(s.db.files, s.db.signings)
  {
    var reviewer, steps :| s == Run(env, Start(reviewer), steps);
    StartOk(env, reviewer);
    RunQuieted(env, Start(reviewer), steps);
  }

  /** What a preview transaction does while some signing is valid: it reuses a row or adds one, and retires none. */
  ghost predicate RetiresNone(db: Db, p: Persisted) {
    p.retiredKeys == {} && db.files <= p.db.files
  }

  lemma QuietRetiresNone(env: Env, db: Db, now: nat, token: nat, r: Rendered, k: nat)
    requires Quieted(db.files, db.signings) && ValidSigningIsCurrent(env, db.drafts, db.files, db.signings)
    requires k < |db.signings| && db.signings[k].valid && PersistPreview(env, db, now, token, r).Ok?
    ensures RetiresNone(db, PersistPreview(env, db, now, token, r).value)
  {
    if !PersistPreview(env, db, now, token, r).value.reused {
      ValidHasDigest(env, db, k);
      TwoRetireNone(db.files);
      assert forall i | 0 <= i < |db.files| :: !Retires(db.files, i) by {
        assert forall i | 0 <= i < |db.files| :: Rotate(db.files)[i] == db.files[i];
      }
    }
  }

  /** While a signing is valid no preview transaction retires a preview: the rotation finds nothing to do. */
  lemma NothingRotatesWhileValid(env: Env, s: Sys, token: nat, r: Rendered, k: nat)
    requires Reached(env, s) && k < |s.db.signings| && s.db.signings[k].valid
    requires PersistPreview(env, s.db, s.now, token, r).Ok?
    ensures RetiresNone(s.db, PersistPreview(env, s.db, s.now, token, r).value)
  {
    ReachedQuieted(env, s);
    ReachedOk(env, s);
    QuietRetiresNone(env, s.db, s.now, token, r, k);
  }
}
