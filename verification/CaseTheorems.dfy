/**
 The case over whole runs: signing validity, capacity, the preview cache, links, history and what completion means.
 */
module CaseTheorems {
  import opened Common
  import opened Placement
  import opened CaseModel
  import opened CaseTransactions
  import opened PdfTransactions
  import opened FileFacts
  import opened CaseInvariants
  import opened CaseProofs
  import opened System
  import opened SystemInvariants
  import opened SystemProofs
  import opened WorkerProofs
  import opened Evolution
  import opened PdfTheorems

  // ---------------------------------------------------------------- signing validity

  /** What a digest is taken of, at the latest draft. */
  function CurrentContent(env: Env, db: Db): Content
    requires db.drafts != []
  {
    ContentOf(env, db.drafts[|db.drafts| - 1], ApiFiles(db.files))
  }

  lemma ValidCarriesDigest(env: Env, db: Db, k: nat)
    requires ValidSigningIsCurrent(env, db.drafts, db.files, db.signings) && k < |db.signings| && db.signings[k].valid
    ensures db.drafts != [] && 1 <= db.signings[k].draftVersion <= |db.drafts|
    ensures db.signings[k].contentDigest == env.contentDigest(CurrentContent(env, db))
    ensures db.signings[k].contentDigest
      == env.contentDigest(ContentOf(env, db.drafts[db.signings[k].draftVersion - 1], WorkerFiles(db.files)))
  {
    ReadersAgree(db.files);
  }

  lemma ValidIsLatestValid(signings: seq<Signing>, k: nat)
    requires OneValidSigning(signings) && k < |signings| && signings[k].valid
    ensures LatestValid(signings) == Some(k) && forall j | 0 <= j < |signings| :: signings[j].valid ==> j == k
  {
    var latest := LatestValid(signings).value;
    assert signings[latest].valid;
  }

  /** `valid` is a cache that always agrees with the content, and at most one signing has it. */
  lemma ValidMeansCurrent(env: Env, s: Sys, k: nat)
    requires Reached(env, s) && k < |s.db.signings| && s.db.signings[k].valid
    ensures s.db.drafts != [] && s.db.signings[k].contentDigest == env.contentDigest(CurrentContent(env, s.db))
    ensures LatestValid(s.db.signings) == Some(k) && forall j | 0 <= j < |s.db.signings| ::
      s.db.signings[j].valid ==> j == k
  {
    ReachedOk(env, s);
    ValidCarriesDigest(env, s.db, k);
    ValidIsLatestValid(s.db.signings, k);
  }

  /** An invalidated signing never becomes valid again, and none ever changes in anything else. */
  lemma InvalidForEver(env: Env, s: Sys, more: seq<Step>, k: nat)
    requires Reached(env, s) && k < |s.db.signings|
    ensures var later := Run(env, s, more).db.signings;
      && k < |later| && later[k] == s.db.signings[k].(valid := later[k].valid)
      && (later[k].valid ==> s.db.signings[k].valid)
  {
    ReachedOk(env, s);
    RunGrows(env, s, more);
  }

  // ---------------------------------------------------------------- evidence

  lemma CapacityHolds(env: Env, s: Sys)
    requires Reached(env, s)
    ensures RetainedBytes(s.db.files, s.db.signings) <= 200 * 1024 * 1024
  {
    ReachedOk(env, s);
  }

  /** The cache holds at most three previews, and at most one of any digest. */
  lemma CacheBounded(env: Env, s: Sys, digest: Digest)
    requires Reached(env, s)
    ensures ActivePreviewsFrom(s.db.files, 0) <= 3
    ensures forall i, j | 0 <= i < |s.db.files| && 0 <= j < |s.db.files| ::
      ServesDigest(digest)(s.db.files[i]) && ServesDigest(digest)(s.db.files[j]) ==> i == j
  {
    ReachedOk(env, s);
  }

  /** A preview whose bytes a rotation handed to deletion is pinned by no signing, then or ever after. */
  lemma RotationSparesEvidence(env: Env, s: Sys, more: seq<Step>, key: string, k: nat)
    requires Reached(env, s) && key in s.doomed
    requires k < |Run(env, s, more).db.signings|
    ensures var later := Run(env, s, more).db;
      later.signings[k].preview < |later.files| && later.files[later.signings[k].preview].key != key
  {
    var later := Run(env, s, more);
    assert PinsExist(later.db.files, later.db.signings)
      && DoomedOk(later.db.files, later.db.signings, later.doomed) by {
      ReachedOk(env, s);
      RunKeeps(env, s, more);
    }
    RunsDoom(env, s, more);
    DoomedIsUnpinned(later.db.files, later.db.signings, later.doomed, key, k);
  }

  lemma DoomedIsUnpinned(files: seq<FileRow>, signings: seq<Signing>, doomed: set<string>, key: string, k: nat)
    requires PinsExist(files, signings) && DoomedOk(files, signings, doomed) && key in doomed && k < |signings|
    ensures signings[k].preview < |files| && files[signings[k].preview].key != key
  {
    assert PreviewReferenced(signings, signings[k].preview);
  }

  lemma RunsDoom(env: Env, s: Sys, steps: seq<Step>)
    requires Reached(env, s)
    ensures s.doomed <= Run(env, s, steps).doomed
  {
    ReachedOk(env, s);
    RunDooms(env, s, steps);
  }

  lemma {:induction false} RunDooms(env: Env, s: Sys, steps: seq<Step>)
    requires SysOk(env, s)
    ensures s.doomed <= Run(env, s, steps).doomed
    decreases |steps|
  {
    if steps != [] {
      RunDooms(env, s, steps[..|steps| - 1]);
      StepDooms(env, Run(env, s, steps[..|steps| - 1]), steps[|steps| - 1]);
    }
  }

  lemma StepDooms(env: Env, s: Sys, step: Step)
    ensures s.doomed <= Apply(env, s, step).doomed
  {
    if step.Advance? && step.worker in s.workers {
      var pc := s.workers[step.worker].pc;
      if OnLease(pc) {
        GoLeaseTouches(env, s, step.worker);
      } else if OnRead(pc) {
        GoReadTouches(env, s, step.worker);
      } else if OnStage(pc) {
        GoStageTouches(env, s, step.worker, step.input);
      } else if OnStore(pc) {
        GoStoreTouches(env, s, step.worker);
      } else {
        GoRecordTouches(env, s, step.worker, step.input);
      }
    }
  }

  // ---------------------------------------------------------------- links, history, coupling

  /** At every time at most one link is live, and each link carried at most one formal submission. */
  lemma LinksOnce(env: Env, s: Sys)
    requires Reached(env, s)
    ensures forall i, j | 0 <= i < |s.db.links| && 0 <= j < |s.db.links| ::
      Live(s.db.links[i], s.now) && Live(s.db.links[j], s.now) ==> i == j
    ensures forall a, b | 0 <= a < |s.db.submissions| && 0 <= b < |s.db.submissions| ::
      s.db.submissions[a] == s.db.submissions[b] ==> a == b
  {
    ReachedOk(env, s);
  }

  /** The rows of the status history form a path of legal moves from DRAFT to the current status. */
  lemma HistoryIsThePath(env: Env, s: Sys)
    requires Reached(env, s)
    ensures var h := s.db.history;
      && h != [] && h[0] == HistoryRow(None, Draft) && h[|h| - 1].to == s.db.status
      && forall i | 0 < i < |h| :: h[i].from == Some(h[i - 1].to) && LegalMove(h[i - 1].to, h[i].to)
    ensures s.db.status == AwaitingCustomer ==> s.db.drafts == []
  {
    ReachedOk(env, s);
  }

  /** History is append-only, and the two terminal statuses are never left. */
  lemma TerminalForEver(env: Env, s: Sys, more: seq<Step>)
    requires Reached(env, s)
    ensures s.db.history <= Run(env, s, more).db.history
    ensures s.db.status == Completed || s.db.status == Closed ==>
      Run(env, s, more).db.status == s.db.status && Run(env, s, more).db.history == s.db.history
  {
    ReachedOk(env, s);
    RunGrows(env, s, more);
  }

  /** Case and task: which task states a case status allows. */
  lemma CaseAndTaskCoupled(env: Env, s: Sys)
    requires Reached(env, s)
    ensures |s.db.tasks| <= 1
    ensures s.db.status == Finalizing ==>
      s.db.tasks != [] && s.db.tasks[0].status != Failed && s.db.tasks[0].delivery != DeliveryFailed
    ensures s.db.status == PdfFailed ==>
      s.db.tasks != [] && (s.db.tasks[0].status == Failed || s.db.tasks[0].status == Succeeded)
    ensures s.db.status == Completed <==> s.db.tasks != [] && s.db.tasks[0].delivery == Delivered
  {
    ReachedOk(env, s);
  }

  /**
   Outbox generations per queue are exactly 1 up to the task's counter, in order; every event names the one output.
   */
  lemma OutboxExact(env: Env, s: Sys)
    requires Reached(env, s)
    ensures var (q, d) :=
        if s.db.tasks == [] then (0, 0) else (s.db.tasks[0].queueGeneration, s.db.tasks[0].deliveryGeneration);
      Generations(s.db.outbox, FinalQueue) == UpTo(q) && Generations(s.db.outbox, FinalizedQueue) == UpTo(d)
    ensures forall i | 0 <= i < |s.db.outbox| && s.db.outbox[i].queue == FinalizedQueue ::
      && s.db.tasks != [] && s.db.outbox[i].payload.Finalized?
      && s.db.tasks[0].output == Some(Output(s.db.outbox[i].payload.file, s.db.outbox[i].payload.sha))
  {
    ReachedOk(env, s);
  }

  /** A broker answered the send of this row with an id. */
  predicate Sends(s: Sys, step: Step, row: nat, id: Option<string>) {
    && id.Some? && id.value != ""
    && match step
       case Case(OfPdf(SendTx(r, answer))) => r == row && answer == id
       case Advance(w, input) => w in s.workers && s.workers[w].pc == Publishing(row) && input.answer == id
       case _ => false
  }

  lemma CompleteAppends(env: Env, db: Db, job: Job, token: nat, generation: int, c: Completion)
    ensures db.outbox <= CompleteTask(env, db, job, token, generation, c).1.outbox
  {
  }

  lemma RetryAppends(db: Db)
    ensures Retry(db).Ok? ==> db.outbox <= Retry(db).value.outbox
  {
  }

  lemma FinalizeKeepsOutbox(env: Env, db: Db, e: Event, expected: Option<Fingerprint>)
    ensures PdfTransactions.Finalize(env, db, e, expected).1.outbox == db.outbox
  {
  }

  lemma PdfTxPublishes(env: Env, s: Sys, tx: PdfTx, row: nat)
    requires row < |s.db.outbox| && s.db.outbox[row].published.None?
    ensures var after := PdfDb(env, s.db, tx).outbox;
      row < |after| && (after[row].published.Some? ==> Sends(s, Case(OfPdf(tx)), row, after[row].published))
  {
    match tx
    case RetryTx => RetryAppends(s.db);
    case FinalizeTx(ticket) => FinalizeKeepsOutbox(env, s.db, ticket.event, Some(ticket.fingerprint));
    case _ =>
  }

  lemma TxPublishes(env: Env, s: Sys, tx: Tx, row: nat)
    requires row < |s.db.outbox| && s.db.outbox[row].published.None?
    ensures var after := TxDb(env, s.db, s.now, tx).outbox;
      row < |after| && (after[row].published.Some? ==> Sends(s, Case(tx), row, after[row].published))
  {
    match tx
    case OfLink(t) => LinkTxTouches(s.db, s.now, t);
    case OfClient(t) => ClientTxTouches(env, s.db, s.now, t);
    case OfFile(t) => FileTxTouches(env, s.db, s.now, t);
    case OfReview(t) => ReviewTxTouches(env, s.db, t);
    case OfPdf(t) => PdfTxPublishes(env, s, t, row);
  }

  lemma LeaseKeepsOutbox(env: Env, s: Sys, w: nat)
    requires w in s.workers
    ensures GoLease(env, s, w).db.outbox == s.db.outbox
  {
    if s.workers[w].pc.Claiming? {
      ClaimLeaves(env, s.db, s.now, s.workers[w].job, s.nextToken);
    }
  }

  lemma RecordPublishes(env: Env, s: Sys, w: nat, input: Input, row: nat)
    requires w in s.workers && row < |s.db.outbox| && s.db.outbox[row].published.None?
    ensures var after := GoRecord(env, s, w, input).db.outbox;
      row < |after| && (after[row].published.Some? ==> Sends(s, Advance(w, input), row, after[row].published))
  {
    match s.workers[w].pc
    case Completing(h, bytes) =>
      CompleteAppends(env, s.db, s.workers[w].job, h.token, h.generation, CompletionOf(env, bytes, input.fileId));
    case _ =>
  }

  /** A row stops being pending only in a step in which the broker returned the id it is then published under. */
  lemma PublishedByBroker(env: Env, s: Sys, step: Step, row: nat)
    requires row < |s.db.outbox| && s.db.outbox[row].published.None?
    ensures var after := Apply(env, s, step).db.outbox;
      row < |after| && (after[row].published.Some? ==> Sends(s, step, row, after[row].published))
  {
    if step.Case? {
      TxPublishes(env, s, step.tx, row);
    } else if step.Advance? && step.worker in s.workers {
      var w, pc := step.worker, s.workers[step.worker].pc;
      if OnLease(pc) {
        LeaseKeepsOutbox(env, s, w);
      } else if OnRead(pc) {
        GoReadTouches(env, s, w);
      } else if OnStage(pc) {
        GoStageTouches(env, s, w, step.input);
      } else if OnStore(pc) {
        GoStoreTouches(env, s, w);
      } else {
        RecordPublishes(env, s, w, step.input, row);
      }
    }
  }

  // ---------------------------------------------------------------- completion

  /** The gates, the placements and the three digests of a completed case. */
  ghost predicate Evidenced(env: Env, db: Db) {
    && MaterialsApproved(env, db.reviews) && db.drafts != []
    && db.tasks != [] && db.tasks[0].delivery == Delivered && db.tasks[0].output.Some?
    && SigningOfTaskValid(db, db.tasks[0])
    && var s := db.signings[db.tasks[0].signatureVersion - 1];
       var o := db.tasks[0].output.value;
       && s.declarationAccepted && PlacementsValid(s.positions, Required(env.slots))
       && o.file < |db.files| && db.files[o.file].purpose == FinalPdf && db.files[o.file].sha == o.sha
       && db.files[o.file].digest == Some(s.contentDigest)
       && s.contentDigest == env.contentDigest(CurrentContent(env, db))
  }

  lemma CompletedIsEvidenced(env: Env, db: Db)
    requires ValidSigningIsCurrent(env, db.drafts, db.files, db.signings)
    requires TaskOk(env, db.status, db.reviews, db.tasks, db.outbox, db.files, db.signings) && db.status == Completed
    ensures Evidenced(env, db)
  {
    GatesAreEvidence(env, db);
  }

  lemma GatesAreEvidence(env: Env, db: Db)
    requires ValidSigningIsCurrent(env, db.drafts, db.files, db.signings) && db.status == Completed
    requires TasksOk(db.status, db.tasks, db.signings) && OutputsOk(db.tasks, db.files, db.signings)
    requires GatesHold(env, db.status, db.reviews, db.tasks, db.signings)
    ensures Evidenced(env, db)
  {
    ValidCarriesDigest(env, db, db.tasks[0].signatureVersion - 1);
  }

  /**
   Once COMPLETED, whatever is attempted later: everything approved, the signing valid, the output what was signed.
   */
  lemma CompletedForEver(env: Env, s: Sys, more: seq<Step>)
    requires Reached(env, s) && s.db.status == Completed
    ensures var later := Run(env, s, more).db;
      && later.status == Completed && Evidenced(env, later) && Frozen(s.db, later)
      && later.tasks[0].output == s.db.tasks[0].output && CurrentContent(env, later) == CurrentContent(env, s.db)
  {
    var later := Run(env, s, more);
    assert Evidenced(env, s.db) && Evidenced(env, later.db) && Frozen(s.db, later.db)
      && FilesGrow(s.db.files, later.db.files) by {
      ReachedOk(env, s);
      RunKeeps(env, s, more);
      RunGrows(env, s, more);
      CompletedIsEvidenced(env, s.db);
      CompletedIsEvidenced(env, later.db);
    }
    FrozenKeepsContent(env, s.db, later.db);
  }

  lemma FrozenKeepsContent(env: Env, db: Db, later: Db)
    requires Frozen(db, later) && FilesGrow(db.files, later.files) && db.drafts != []
    ensures CurrentContent(env, later) == CurrentContent(env, db)
  {
    PointwiseKeepsMaterials(db.files, later.files);
    ReadersAgree(db.files);
    ReadersAgree(later.files);
  }
}
