/**
 When a FINALIZING case can still be rendered and a failed one retried; what a lost signing means for a case that has
 a task, and when the task does not even move any more. `Completion` says when a case can still be completed at all.
 */
module PdfProgress {
  import opened Common
  import opened CaseModel
  import opened CaseTransactions
  import opened PdfTransactions
  import opened FileFacts
  import opened CaseInvariants
  import opened CaseProofs
  import opened System
  import opened SystemInvariants
  import opened SystemProofs
  import opened WorkerProofs
  import opened Evolution
  import opened PdfTheorems
  import opened CaseTheorems

  function OwnJob(env: Env): Job { Job(0, env.caseId, 1) }

  // ---------------------------------------------------------------- claiming

  lemma ClaimQueued(env: Env, db: Db, now: nat, token: nat)
    requires TasksOk(db.status, db.tasks, db.signings) && AccountOk(db.tasks)
    requires db.status == Finalizing && db.tasks != [] && db.tasks[0].status == Queued
    ensures Claim(env, db, now, OwnJob(env), token).0
      == if SigningOfTaskValid(db, db.tasks[0]) then Claimed else Refused(SigningInvalid)
  {
  }

  /** A queued task is never wedged by its own counters: only an invalid signing stops the next delivery. */
  lemma QueuedIsClaimable(env: Env, s: Sys, token: nat)
    requires Reached(env, s) && s.db.status == Finalizing && s.db.tasks != [] && s.db.tasks[0].status == Queued
    ensures Claim(env, s.db, s.now, OwnJob(env), token).0
      == if SigningOfTaskValid(s.db, s.db.tasks[0]) then Claimed else Refused(SigningInvalid)
  {
    ReachedOk(env, s);
    ClaimQueued(env, s.db, s.now, token);
  }

  /** The outcome of a delivery for an abandoned claim: the signing is looked at before the lease. */
  ghost predicate TakesOver(env: Env, db: Db, now: nat, token: nat)
    requires db.tasks != []
  {
    var t, (outcome, after) := db.tasks[0], Claim(env, db, now, OwnJob(env), token);
    if !SigningOfTaskValid(db, t) then outcome == Refused(SigningInvalid) && after == db
    else if t.attempts < t.maxAttempts then
      && outcome == Claimed && after.status == Finalizing
      && after.tasks == [t.(attempts := t.attempts + 1, claimGeneration := t.claimGeneration + 1,
                            lease := Some(token), startedAt := Some(now))]
    else
      && outcome == Busy && after.status == PdfFailed
      && after.tasks == [FailTask(t, "PDF_PROCESSING_LEASE_EXPIRED_RETRY_EXHAUSTED")]
  }

  lemma ClaimExpired(env: Env, db: Db, now: nat, token: nat)
    requires TasksOk(db.status, db.tasks, db.signings)
    requires db.status == Finalizing && db.tasks != [] && LeaseExpired(db.tasks[0], now)
    ensures TakesOver(env, db, now, token)
  {
    assert db.tasks == [db.tasks[0]];
  }

  /**
   Once the lease of an abandoned claim ran out, the next delivery takes it over, or fails task and case when it was
   the last attempt, if the signing is still valid; if it is not, the delivery is refused and nothing changes.
   */
  lemma ExpiredIsRecovered(env: Env, s: Sys, token: nat)
    requires Reached(env, s) && s.db.status == Finalizing && s.db.tasks != [] && LeaseExpired(s.db.tasks[0], s.now)
    ensures TakesOver(env, s.db, s.now, token)
  {
    ReachedOk(env, s);
    ClaimExpired(env, s.db, s.now, token);
  }

  lemma ValidTaskRederives(env: Env, db: Db)
    requires EvidenceOk(env, db.drafts, db.files, db.signings) && db.tasks != [] && SigningOfTaskValid(db, db.tasks[0])
    ensures SnapshotMatches(env, db, db.tasks[0]) && ResourceIsImage(db, db.tasks[0])
  {
    var s := db.signings[db.tasks[0].signatureVersion - 1];
    assert s.valid && IsResource(db.files[s.resource]);
  }

  lemma ReadingSucceeds(env: Env, s: Sys, w: nat, h: Holder)
    requires EvidenceOk(env, s.db.drafts, s.db.files, s.db.signings)
    requires s.db.tasks != [] && SigningOfTaskValid(s.db, s.db.tasks[0])
    requires w in s.workers && s.workers[w].job == OwnJob(env)
    ensures ReadContentStep(env, s, w, h) == At(s, w, Ready(h))
  {
    ValidTaskRederives(env, s.db);
  }

  /** While the signing is valid the worker's own reading of the content gives the signed digest. */
  lemma WorkerRederives(env: Env, s: Sys, w: nat, h: Holder)
    requires Reached(env, s) && w in s.workers && s.workers[w].pc == Reading(h)
    requires s.db.tasks != [] && SigningOfTaskValid(s.db, s.db.tasks[0])
    ensures SnapshotMatches(env, s.db, s.db.tasks[0])
    ensures ReadContentStep(env, s, w, h).workers[w].pc == Ready(h)
  {
    ReachedOk(env, s);
    assert WorkerOk(env, s.db.tasks, s.first, s.contents, s.nextToken, s.workers[w]);
    ValidTaskRederives(env, s.db);
    ReadingSucceeds(env, s, w, h);
  }

  // ---------------------------------------------------------------- retrying

  /** The one situation in which retry of a failed case is refused. */
  predicate RedeliveryPending(t: PdfTask) { t.status == Succeeded && t.delivery == Pending }

  /** A render retry grants a fresh set of attempts, a delivery retry keeps the output; both announce themselves. */
  ghost predicate Resets(db: Db, after: Db)
    requires |db.tasks| == 1
  {
    && after.status == Finalizing && after.history == db.history + [HistoryRow(Some(PdfFailed), Finalizing)]
    && after == db.(status := after.status, history := after.history, tasks := after.tasks, outbox := after.outbox)
    && |after.tasks| == 1 && |after.outbox| == |db.outbox| + 1 && db.outbox <= after.outbox
    && var t, n, row := db.tasks[0], after.tasks[0], after.outbox[|db.outbox|];
       && row.task == 0 && row.published.None? && row.attempts == 0
       && if t.status == Failed then
            && n == t.(status := Queued, attempts := 0, lease := None, failure := None, startedAt := None,
                       queueGeneration := t.queueGeneration + 1)
            && row.queue == FinalQueue && row.generation == t.queueGeneration + 1
            && row.payload == RenderJob(0, t.snapshotVersion)
          else
            && t.output.Some?
            && n == t.(delivery := Pending, deliveryFailure := None, deliveryGeneration := t.deliveryGeneration + 1)
            && row.queue == FinalizedQueue && row.generation == t.deliveryGeneration + 1
            && row.payload == Finalized(0, t.snapshotVersion, t.output.value.file, t.output.value.sha)
  }

  lemma RetryOf(db: Db)
    requires TasksOk(db.status, db.tasks, db.signings) && db.status == PdfFailed
    ensures |db.tasks| == 1
    ensures Retry(db).Ok? <==> !RedeliveryPending(db.tasks[0])
    ensures Retry(db).Ok? ==> Retry(db).value.tasks == [RetriedTask(db.tasks[0])] && Resets(db, Retry(db).value)
  {
  }

  /**
   Operator retry of a failed case is refused in one situation only: the task succeeded and its delivery is pending.
   */
  lemma RetryExactly(env: Env, s: Sys)
    requires Reached(env, s)
    ensures s.db.status != PdfFailed ==> Retry(s.db) == Err(NotInFailedState)
    ensures s.db.status == PdfFailed ==>
      && |s.db.tasks| == 1
      && (Retry(s.db).Ok? <==> !(s.db.tasks[0].status == Succeeded && s.db.tasks[0].delivery == Pending))
      && (Retry(s.db).Ok? ==> Resets(s.db, Retry(s.db).value))
  {
    ReachedOk(env, s);
    if s.db.status == PdfFailed {
      RetryOf(s.db);
    }
  }

  function OwnEvent(env: Env, o: Output): Event { Event(0, env.caseId, 1, o.file, o.sha) }

  lemma TerminalFailure(env: Env, db: Db, reason: string)
    requires TasksOk(db.status, db.tasks, db.signings) && HasTask(db.status) && db.status != Completed
    requires db.tasks[0].output.Some?
    ensures var failed := RecordDeliveryFailure(env, db, OwnEvent(env, db.tasks[0].output.value), reason, true);
      && failed.status == PdfFailed && Retry(failed).Ok?
      && failed.tasks == [db.tasks[0].(deliveryAttempts := db.tasks[0].deliveryAttempts + 1,
                                       delivery := DeliveryFailed, deliveryFailure := Some(reason))]
  {
    assert db.tasks == [db.tasks[0]];
  }

  lemma SecondFailure(env: Env, db: Db, reason: string)
    requires db.status == PdfFailed && |db.tasks| == 1 && db.tasks[0].snapshotVersion == 1
    requires db.tasks[0].status == Succeeded && db.tasks[0].delivery == DeliveryFailed && db.tasks[0].output.Some?
    ensures var again := RecordDeliveryFailure(env, db, OwnEvent(env, db.tasks[0].output.value), reason, false);
      again.status == PdfFailed && Retry(again) == Err(FailedTaskNotFound)
  {
  }

  /**
   A terminal delivery failure followed by a redelivery whose failure is not terminal leads there, from any rendered
   case.
   */
  lemma RedeliveryBlocksRetry(env: Env, s: Sys, reason: string)
    requires Reached(env, s) && s.db.status == Finalizing && s.db.tasks != [] && s.db.tasks[0].output.Some?
    ensures var e := OwnEvent(env, s.db.tasks[0].output.value);
      var failed := RecordDeliveryFailure(env, s.db, e, reason, true);
      var again := RecordDeliveryFailure(env, failed, e, reason, false);
      && failed.status == PdfFailed && Retry(failed).Ok?
      && again.status == PdfFailed && Retry(again) == Err(FailedTaskNotFound)
  {
    ReachedOk(env, s);
    TerminalFailure(env, s.db, reason);
    SecondFailure(env, RecordDeliveryFailure(env, s.db, OwnEvent(env, s.db.tasks[0].output.value), reason, true),
      reason);
  }

  /** The refused retry is not for ever: one more terminal failure of a delivery makes retry possible again. */
  lemma TerminalFailureUnblocksRetry(env: Env, s: Sys, reason: string)
    requires Reached(env, s) && s.db.status == PdfFailed && Retry(s.db).Err?
    ensures s.db.tasks != [] && s.db.tasks[0].output.Some?
    ensures Retry(RecordDeliveryFailure(env, s.db, OwnEvent(env, s.db.tasks[0].output.value), reason, true)).Ok?
  {
    ReachedOk(env, s);
    RetryOf(s.db);
    TerminalFailure(env, s.db, reason);
  }

  // ---------------------------------------------------------------- a lost signing

  lemma LostStaysLost(db: Db, later: Db)
    requires TasksOk(db.status, db.tasks, db.signings) && TablesGrow(db, later)
    requires db.tasks != [] && !SigningOfTaskValid(db, db.tasks[0])
    ensures later.tasks != [] && !SigningOfTaskValid(later, later.tasks[0])
  {
    assert TaskGrows(db.tasks[0], later.tasks[0]);
    assert !later.signings[db.tasks[0].signatureVersion - 1].valid;
  }

  lemma CompletedHasValidSigning(env: Env, db: Db)
    requires ValidSigningIsCurrent(env, db.drafts, db.files, db.signings)
    requires TaskOk(env, db.status, db.reviews, db.tasks, db.outbox, db.files, db.signings) && db.status == Completed
    ensures db.tasks != [] && SigningOfTaskValid(db, db.tasks[0])
  {
    CompletedIsEvidenced(env, db);
  }

  /** Once the signing of a case's task is invalid, whatever the task's status, no run ever completes the case. */
  lemma LostSigningNeverCompletes(env: Env, s: Sys, more: seq<Step>)
    requires Reached(env, s) && s.db.tasks != [] && !SigningOfTaskValid(s.db, s.db.tasks[0])
    ensures Run(env, s, more).db.status != Completed
  {
    ReachedOk(env, s);
    RunKeeps(env, s, more);
    RunGrows(env, s, more);
    LostStaysLost(s.db, Run(env, s, more).db);
    if Run(env, s, more).db.status == Completed {
      CompletedHasValidSigning(env, Run(env, s, more).db);
    }
  }

  lemma ChangedMaterialsLose(db: Db, after: Db)
    requires TasksOk(db.status, db.tasks, db.signings) && db.tasks != []
    requires after.tasks == db.tasks && after.signings == InvalidateAll(db.signings)
    ensures !SigningOfTaskValid(after, after.tasks[0])
  {
  }

  lemma UploadLosesSigning(env: Env, db: Db, now: nat, token: nat, reference: string, u: Upload)
    requires TasksOk(db.status, db.tasks, db.signings) && db.tasks != []
    requires var r := UploadMaterial(env, db, now, token, reference, u); r.Ok? && !r.value.reused
    ensures var after := UploadMaterial(env, db, now, token, reference, u).value.db;
      && after.tasks == db.tasks && !SigningOfTaskValid(after, after.tasks[0]) && after.status == db.status
  {
    ChangedMaterialsLose(db, UploadMaterial(env, db, now, token, reference, u).value.db);
  }

  lemma RemovalLosesSigning(env: Env, db: Db, now: nat, token: nat, i: nat)
    requires TasksOk(db.status, db.tasks, db.signings) && db.tasks != [] && RemoveMaterial(db, now, token, i).Ok?
    ensures var after := FileDb(env, db, now, RemoveMaterialTx(token, i));
      after.tasks == db.tasks && !SigningOfTaskValid(after, after.tasks[0])
  {
    ChangedMaterialsLose(db, RemoveMaterial(db, now, token, i).value);
  }

  lemma FileStepLosesCase(env: Env, s: Sys, tx: FileTx, more: seq<Step>)
    requires Reached(env, s) && var after := FileDb(env, s.db, s.now, tx);
      after.tasks != [] && !SigningOfTaskValid(after, after.tasks[0])
    ensures Run(env, Apply(env, s, Case(OfFile(tx))), more).db.status != Completed
  {
    ReachedNext(env, s, Case(OfFile(tx)));
    LostSigningNeverCompletes(env, Apply(env, s, Case(OfFile(tx))), more);
  }

  /**
   An upload or a removal asks for a live link but not for an editing status. From the moment the case has a task either
   of them takes the signing away, and no run from there completes the case.
   */
  lemma UploadLosesCase(env: Env, s: Sys, token: nat, reference: string, u: Upload, more: seq<Step>)
    requires Reached(env, s) && s.db.tasks != []
    requires var r := UploadMaterial(env, s.db, s.now, token, reference, u); r.Ok? && !r.value.reused
    ensures Run(env, Apply(env, s, Case(OfFile(UploadMaterialTx(token, reference, u)))), more).db.status != Completed
  {
    ReachedOk(env, s);
    UploadLosesSigning(env, s.db, s.now, token, reference, u);
    FileStepLosesCase(env, s, UploadMaterialTx(token, reference, u), more);
  }

  lemma RemovalLosesCase(env: Env, s: Sys, token: nat, i: nat, more: seq<Step>)
    requires Reached(env, s) && s.db.tasks != [] && RemoveMaterial(s.db, s.now, token, i).Ok?
    ensures Run(env, Apply(env, s, Case(OfFile(RemoveMaterialTx(token, i)))), more).db.status != Completed
  {
    ReachedOk(env, s);
    RemovalLosesSigning(env, s.db, s.now, token, i);
    FileStepLosesCase(env, s, RemoveMaterialTx(token, i), more);
  }

  // ---------------------------------------------------------------- stranded

  /** No worker holds the task's lease; in particular when it has none. */
  ghost predicate NoHolder(s: Sys) {
    s.db.tasks != [] && forall w | w in s.workers ::
      TokenOf(s.workers[w].pc).None? || TokenOf(s.workers[w].pc) != s.db.tasks[0].lease
  }

  /** The signing is lost while the task waits in the queue, or was abandoned by the worker that had claimed it. */
  ghost predicate StrandedDb(db: Db) {
    && (db.status == Finalizing || db.status == Closed)
    && db.tasks != [] && (db.tasks[0].status == Queued || db.tasks[0].status == Processing)
    && !SigningOfTaskValid(db, db.tasks[0])
  }

  ghost predicate Stranded(s: Sys) { StrandedDb(s.db) && NoHolder(s) }

  ghost predicate StillStranded(db: Db, after: Db) {
    after.tasks == db.tasks && (after.status == db.status || after.status == Closed)
  }

  lemma ClientLeavesStranded(env: Env, s: Sys, tx: ClientTx)
    requires TicketsOk(s.submitting, s.signing) && StrandedDb(s.db) && Allowed(s, OfClient(tx))
    ensures StillStranded(s.db, ClientDb(env, s.db, s.now, tx))
  {
    ClientTxTouches(env, s.db, s.now, tx);
  }

  lemma FinalizeLeavesStranded(env: Env, db: Db, e: Event, expected: Option<Fingerprint>)
    requires TasksOk(db.status, db.tasks, db.signings) && StrandedDb(db)
    ensures PdfTransactions.Finalize(env, db, e, expected).1 == db
  {
  }

  lemma PdfTxLeavesStranded(env: Env, db: Db, tx: PdfTx)
    requires TasksOk(db.status, db.tasks, db.signings) && StrandedDb(db)
    ensures StillStranded(db, PdfDb(env, db, tx))
  {
    if tx.FinalizeTx? {
      FinalizeLeavesStranded(env, db, tx.ticket.event, Some(tx.ticket.fingerprint));
    }
  }

  lemma TxLeavesStranded(env: Env, s: Sys, tx: Tx)
    requires TicketsOk(s.submitting, s.signing) && TasksOk(s.db.status, s.db.tasks, s.db.signings)
    requires StrandedDb(s.db) && Allowed(s, tx)
    ensures StillStranded(s.db, TxDb(env, s.db, s.now, tx))
  {
    match tx
    case OfLink(t) => LinkTxTouches(s.db, s.now, t);
    case OfClient(t) => ClientLeavesStranded(env, s, t);
    case OfFile(t) => FileTxTouches(env, s.db, s.now, t);
    case OfReview(t) => ReviewTxTouches(env, s.db, t);
    case OfPdf(t) => PdfTxLeavesStranded(env, s.db, t);
  }

  /** No worker holds a token it did not hold before. */
  ghost predicate NoNewHolder(s: Sys, after: Sys) {
    forall w | w in after.workers ::
      || TokenOf(after.workers[w].pc).None?
      || (w in s.workers && TokenOf(after.workers[w].pc) == TokenOf(s.workers[w].pc))
  }

  /** The worker alone moved, and holds what it held or nothing. */
  ghost predicate TokenStays(s: Sys, after: Sys, w: nat)
    requires w in s.workers
  {
    w in after.workers && after.workers == s.workers[w := after.workers[w]]
      && TokenKept(s.workers[w].pc, after.workers[w].pc)
  }

  lemma OneMoved(s: Sys, after: Sys, w: nat)
    requires w in s.workers && TokenStays(s, after, w)
    ensures NoNewHolder(s, after)
  {
  }

  lemma ClaimLeavesStranded(env: Env, s: Sys, w: nat)
    requires TasksOk(s.db.status, s.db.tasks, s.db.signings) && StrandedDb(s.db) && w in s.workers
    ensures ClaimStep(env, s, w).db == s.db && ClaimStep(env, s, w).workers == At(s, w, Stopped).workers
  {
  }

  lemma FailLeavesStranded(s: Sys, w: nat, token: nat, generation: int, terminal: bool)
    requires TasksOk(s.db.status, s.db.tasks, s.db.signings) && s.db.tasks != [] && s.db.tasks[0].lease != Some(token)
    requires w in s.workers
    ensures FailStep(s, w, token, generation, terminal) == At(s, w, Stopped)
  {
  }

  lemma LeaseLeavesStranded(env: Env, s: Sys, w: nat)
    requires TasksOk(s.db.status, s.db.tasks, s.db.signings) && Stranded(s) && w in s.workers
    requires OnLease(s.workers[w].pc)
    ensures GoLease(env, s, w).db == s.db && TokenStays(s, GoLease(env, s, w), w)
  {
    match s.workers[w].pc
    case Claiming => ClaimLeavesStranded(env, s, w);
    case Aborting(token, generation, terminal) => FailLeavesStranded(s, w, token, generation, terminal);
    case Failing(h) => FailLeavesStranded(s, w, h.token, h.generation, h.attempts >= h.maxAttempts);
  }

  lemma ReadGivesNoToken(env: Env, s: Sys, w: nat)
    requires w in s.workers && OnRead(s.workers[w].pc)
    ensures TokenStays(s, GoRead(env, s, w), w)
  {
  }

  lemma StageGivesNoToken(env: Env, s: Sys, w: nat, input: Input)
    requires w in s.workers && OnStage(s.workers[w].pc)
    ensures TokenStays(s, GoStage(env, s, w, input), w)
  {
  }

  lemma StoreGivesNoToken(env: Env, s: Sys, w: nat)
    requires w in s.workers && OnStore(s.workers[w].pc)
    ensures TokenStays(s, GoStore(env, s, w), w)
  {
  }

  lemma JournalIsFenced(env: Env, s: Sys, w: nat, h: Holder, bytes: Bytes)
    requires TasksOk(s.db.status, s.db.tasks, s.db.signings) && s.db.tasks != [] && s.db.tasks[0].lease != Some(h.token)
    requires w in s.workers
    ensures JournalStep(env, s, w, h, bytes) == At(s, w, Failing(h))
  {
  }

  lemma CompleteIsFenced(env: Env, s: Sys, w: nat, h: Holder, bytes: Bytes, fileId: nat)
    requires TasksOk(s.db.status, s.db.tasks, s.db.signings) && StrandedDb(s.db) && s.db.tasks[0].lease != Some(h.token)
    requires w in s.workers
    ensures CompleteStep(env, s, w, h, bytes, fileId) == At(s, w, Failing(h))
  {
  }

  lemma PublishLeavesStranded(s: Sys, w: nat, row: nat, answer: Option<string>)
    requires w in s.workers && s.workers[w].pc.Publishing?
    ensures var after := At(s, w, Cleaning).(db := RecordSend(s.db, row, answer));
      StillStranded(s.db, after.db) && TokenStays(s, after, w)
  {
  }

  lemma FailingKeepsToken(s: Sys, w: nat, h: Holder)
    requires w in s.workers && TokenOf(s.workers[w].pc) == Some(h.token)
    ensures StillStranded(s.db, At(s, w, Failing(h)).db) && TokenStays(s, At(s, w, Failing(h)), w)
  {
  }

  lemma RecordLeavesStranded(env: Env, s: Sys, w: nat, input: Input)
    requires TasksOk(s.db.status, s.db.tasks, s.db.signings) && Stranded(s) && w in s.workers
    ensures var after := GoRecord(env, s, w, input);
      after == s || (StillStranded(s.db, after.db) && TokenStays(s, after, w))
  {
    match s.workers[w].pc
    case Journalling(h, bytes) =>
      JournalIsFenced(env, s, w, h, bytes);
      FailingKeepsToken(s, w, h);
    case Completing(h, bytes) =>
      CompleteIsFenced(env, s, w, h, bytes, input.fileId);
      FailingKeepsToken(s, w, h);
    case Publishing(row) => PublishLeavesStranded(s, w, row, input.answer);
    case _ =>
  }

  lemma GoLeavesStranded(env: Env, s: Sys, w: nat, input: Input)
    requires TasksOk(s.db.status, s.db.tasks, s.db.signings) && Stranded(s) && w in s.workers
    ensures StillStranded(s.db, Go(env, s, w, input).db) && NoNewHolder(s, Go(env, s, w, input))
  {
    var pc := s.workers[w].pc;
    if OnLease(pc) {
      LeaseLeavesStranded(env, s, w);
      OneMoved(s, GoLease(env, s, w), w);
    } else if OnRead(pc) {
      GoReadTouches(env, s, w);
      ReadGivesNoToken(env, s, w);
      OneMoved(s, GoRead(env, s, w), w);
    } else if OnStage(pc) {
      GoStageTouches(env, s, w, input);
      StageGivesNoToken(env, s, w, input);
      OneMoved(s, GoStage(env, s, w, input), w);
    } else if OnStore(pc) {
      GoStoreTouches(env, s, w);
      StoreGivesNoToken(env, s, w);
      OneMoved(s, GoStore(env, s, w), w);
    } else {
      RecordLeavesStranded(env, s, w, input);
      if GoRecord(env, s, w, input) != s {
        OneMoved(s, GoRecord(env, s, w, input), w);
      }
    }
  }

  lemma ThrowGivesNoToken(s: Sys, w: nat)
    requires w in s.workers
    ensures NoNewHolder(s, At(s, w, Thrown(s.workers[w].pc))) && NoNewHolder(s, At(s, w, Stopped))
  {
    assert TokenKept(s.workers[w].pc, Thrown(s.workers[w].pc));
  }

  lemma StepLeavesStranded(env: Env, s: Sys, step: Step)
    requires TicketsOk(s.submitting, s.signing) && TasksOk(s.db.status, s.db.tasks, s.db.signings) && Stranded(s)
    ensures StillStranded(s.db, Apply(env, s, step).db) && NoNewHolder(s, Apply(env, s, step))
  {
    if Apply(env, s, step) != s {
      match step
      case Tick(_) =>
      case Case(tx) => TxLeavesStranded(env, s, tx);
      case Spawn(w, job) =>
      case Advance(w, input) => GoLeavesStranded(env, s, w, input);
      case Throw(w) => ThrowGivesNoToken(s, w);
      case Crash(w) => ThrowGivesNoToken(s, w);
    }
  }

  lemma StrandedStays(s: Sys, after: Sys)
    requires TasksOk(s.db.status, s.db.tasks, s.db.signings) && Stranded(s) && TablesGrow(s.db, after.db)
    requires StillStranded(s.db, after.db) && NoNewHolder(s, after)
    ensures Stranded(after)
  {
    LostStaysLost(s.db, after.db);
  }

  lemma StepKeepsStranded(env: Env, s: Sys, step: Step)
    requires TicketsOk(s.submitting, s.signing) && TasksOk(s.db.status, s.db.tasks, s.db.signings) && Stranded(s)
    ensures Stranded(Apply(env, s, step)) && Apply(env, s, step).db.tasks == s.db.tasks
  {
    StepGrows(env, s, step);
    StepLeavesStranded(env, s, step);
    StrandedStays(s, Apply(env, s, step));
  }

  /**
   With the signing lost, a queued task, or one claimed by a worker that is gone, is never touched again, and nothing
   but closing the case moves it.
   */
  lemma {:induction false} StrandedForEver(env: Env, s: Sys, more: seq<Step>)
    requires SysOk(env, s) && Stranded(s)
    ensures Stranded(Run(env, s, more)) && Run(env, s, more).db.tasks == s.db.tasks
    decreases |more|
  {
    if more != [] {
      StrandedForEver(env, s, more[..|more| - 1]);
      RunKeeps(env, s, more[..|more| - 1]);
      StepKeepsStranded(env, Run(env, s, more[..|more| - 1]), more[|more| - 1]);
    }
  }

  /** An upload while the task is queued, or after its worker crashed, gets a FINALIZING case there. */
  lemma UploadStrands(env: Env, s: Sys, token: nat, reference: string, u: Upload)
    requires Reached(env, s) && s.db.status == Finalizing && NoHolder(s)
    requires s.db.tasks[0].status == Queued || s.db.tasks[0].status == Processing
    requires var r := UploadMaterial(env, s.db, s.now, token, reference, u); r.Ok? && !r.value.reused
    ensures Stranded(s.(db := UploadMaterial(env, s.db, s.now, token, reference, u).value.db))
  {
    ReachedOk(env, s);
    UploadLosesSigning(env, s.db, s.now, token, reference, u);
  }
}
