/**
 The end of a case, step by step: when a completion is accepted and what it leaves to be delivered, when the finalizing
 commit goes through, and how failed deliveries are counted.
 */
module DeliveryRules {
  import opened Common
  import opened Placement
  import opened CaseModel
  import opened CaseTransactions
  import opened PdfTransactions
  import opened CaseInvariants
  import opened System
  import opened SystemInvariants
  import opened SystemProofs
  import opened WorkerProofs
  import opened PdfTheorems
  import opened PdfProgress
  import opened StoredOutput
  import opened StepEffects

  // ---------------------------------------------------------------- the beginning

  /** What was journalled is done: the output waits, undelivered, with one event announcing it. */
  ghost predicate Announces(db: Db, after: Db, sha: Digest, size: nat) {
    && |db.tasks| == 1 && |after.tasks| == 1 && |after.outbox| == |db.outbox| + 1 && db.outbox <= after.outbox
    && after.status == db.status && after.reviews == db.reviews && after.signings == db.signings
    && var t, n, row := db.tasks[0], after.tasks[0], after.outbox[|db.outbox|];
       && t.pending.Some? && t.pending.value.sha == sha && t.pending.value.size == size
       && n.status == Succeeded && n.lease.None? && n.pending.None? && n.failure.None?
       && n.output == Some(Output(|db.files|, sha)) && n.delivery == Pending && n.deliveryAttempts == 0
       && n.deliveryFailure.None? && n.deliveryGeneration == t.deliveryGeneration + 1
       && n.attempts == t.attempts && n.claimGeneration == t.claimGeneration && n.signatureVersion == t.signatureVersion
       && row == OutboxRow(0, FinalizedQueue, t.deliveryGeneration + 1,
            Finalized(0, t.snapshotVersion, |db.files|, sha), None, 0)
  }

  lemma CompletionOfTask(env: Env, s: Sys, w: nat, h: Holder, bytes: Bytes, fileId: nat)
    requires TasksOk(s.db.status, s.db.tasks, s.db.signings) && Delivers(env, s, w, h, bytes, fileId)
    ensures Announces(s.db, CompleteStep(env, s, w, h, bytes, fileId).db, env.sha(bytes), |bytes|)
  {
  }

  /** An accepted completion finishes the task with no delivery attempted yet, and announces the output once. */
  lemma CompletionAnnounces(env: Env, s: Sys, w: nat, h: Holder, bytes: Bytes, fileId: nat)
    requires Reached(env, s) && Delivers(env, s, w, h, bytes, fileId)
    ensures Announces(s.db, CompleteStep(env, s, w, h, bytes, fileId).db, env.sha(bytes), |bytes|)
  {
    ReachedOk(env, s);
    CompletionOfTask(env, s, w, h, bytes, fileId);
  }

  lemma DeliversIff(env: Env, s: Sys, w: nat, h: Holder, bytes: Bytes, fileId: nat)
    requires TasksOk(s.db.status, s.db.tasks, s.db.signings) && s.db.tasks != []
    requires w in s.workers && s.workers[w].pc == Completing(h, bytes) && s.workers[w].job == OwnJob(env)
    ensures Delivers(env, s, w, h, bytes, fileId)
      <==>
      && s.db.tasks[0].lease == Some(h.token) && s.db.tasks[0].claimGeneration == h.generation
      && s.db.tasks[0].pending.Some?
      && s.db.tasks[0].pending.value.sha == env.sha(bytes) && s.db.tasks[0].pending.value.size == |bytes|
      && RetainedBytes(s.db.files, s.db.signings) + |bytes| <= 200 * 1024 * 1024
      && !KeyTaken(s.db.files, ContentKey(env.sha(bytes)))
  {
  }

  /** A completion is accepted exactly from the lease holder, of what is journalled, with room under a free key. */
  lemma CompletionExactly(env: Env, s: Sys, w: nat, h: Holder, bytes: Bytes, fileId: nat)
    requires Reached(env, s) && w in s.workers && s.workers[w].pc == Completing(h, bytes)
    ensures s.db.tasks != []
    ensures Delivers(env, s, w, h, bytes, fileId)
      <==>
      && s.db.tasks[0].lease == Some(h.token) && s.db.tasks[0].claimGeneration == h.generation
      && s.db.tasks[0].pending.Some?
      && s.db.tasks[0].pending.value.sha == env.sha(bytes) && s.db.tasks[0].pending.value.size == |bytes|
      && RetainedBytes(s.db.files, s.db.signings) + |bytes| <= 200 * 1024 * 1024
      && !KeyTaken(s.db.files, ContentKey(env.sha(bytes)))
  {
    ReachedOk(env, s);
    assert WorkerOk(env, s.db.tasks, s.first, s.contents, s.nextToken, s.workers[w]);
    DeliversIff(env, s, w, h, bytes, fileId);
  }

  // ---------------------------------------------------------------- the finalizing commit

  /** Everything the commit asks of the rows: the event names the output, and every gate is open. */
  ghost predicate Completes(env: Env, db: Db, e: Event) {
    && e.caseId == env.caseId && e.task == 0 && e.version == 1 && db.tasks != []
    && db.tasks[0].output == Some(Output(e.file, e.sha)) && e.file < |db.files|
    && (forall q | q in env.requirements :: q.id in db.reviews && db.reviews[q.id].decision == Approve)
    && 1 <= db.tasks[0].signatureVersion <= |db.signings|
    && var r, f := db.signings[db.tasks[0].signatureVersion - 1], db.files[e.file];
       && r.valid && r.declarationAccepted && f.digest == Some(r.contentDigest) && f.sha == e.sha
       && Required(env.slots) != [] && |r.positions| == |Required(env.slots)|
       && forall slot | slot in Required(env.slots) ::
            exists p | p in r.positions :: p.slotId == slot.slotId && Fits(p, slot)
  }

  lemma CommitOf(env: Env, db: Db, e: Event)
    requires TasksOk(db.status, db.tasks, db.signings)
    ensures var (outcome, after) := PdfTransactions.Finalize(env, db, e, None);
      && (outcome == CaseCompleted <==> Completes(env, db, e) && (db.status == Finalizing || db.status == PdfFailed))
      && (outcome == CaseCompleted ==>
            && after.status == Completed && after.history == db.history + [HistoryRow(Some(db.status), Completed)]
            && after.tasks == [db.tasks[0].(delivery := Delivered, deliveryFailure := None)]
            && after == db.(status := after.status, history := after.history, tasks := after.tasks,
                            links := after.links))
  {
  }

  /** An expected fingerprint is the one further condition of the commit. */
  lemma FingerprintGuards(env: Env, db: Db, e: Event, expected: Fingerprint)
    ensures var guarded := PdfTransactions.Finalize(env, db, e, Some(expected));
      if Inspect(env, db, e).Ok? && Inspect(env, db, e).value.fingerprint != expected
      then guarded == (FinalizeRefused(FinalizationDbChanged), db)
      else guarded == PdfTransactions.Finalize(env, db, e, None)
  {
  }

  /** The case is completed exactly by an event of its output with every gate open, while it waits or has failed. */
  lemma CommitExactly(env: Env, s: Sys, e: Event)
    requires Reached(env, s)
    ensures var (outcome, after) := PdfTransactions.Finalize(env, s.db, e, None);
      && (outcome == CaseCompleted
          <==> Completes(env, s.db, e) && (s.db.status == Finalizing || s.db.status == PdfFailed))
      && (outcome == CaseCompleted ==>
            && after.status == Completed && after.history == s.db.history + [HistoryRow(Some(s.db.status), Completed)]
            && after.tasks == [s.db.tasks[0].(delivery := Delivered, deliveryFailure := None)]
            && after == s.db.(status := after.status, history := after.history, tasks := after.tasks,
                              links := after.links))
  {
    ReachedOk(env, s);
    CommitOf(env, s.db, e);
  }

  // ---------------------------------------------------------------- one failed delivery

  /** The event names the case's output, and the output is not delivered. */
  predicate Undelivered(env: Env, db: Db, e: Event) {
    && e.caseId == env.caseId && e.task == 0 && db.tasks != []
    && db.tasks[0].output == Some(Output(e.file, e.sha)) && db.tasks[0].delivery != Delivered
  }

  /** A failure counts once; a terminal one stops the delivery, and fails a case that was finalizing. */
  ghost predicate CountsFailure(db: Db, after: Db, reason: string, terminal: bool) {
    && |db.tasks| == 1 && |after.tasks| == 1
    && after.tasks[0] == db.tasks[0].(
         deliveryAttempts := db.tasks[0].deliveryAttempts + 1,
         delivery := if terminal then DeliveryFailed else Pending,
         deliveryFailure := if terminal then Some(reason) else None)
    && after.status == (if terminal && db.status == Finalizing then PdfFailed else db.status)
    && after == db.(status := after.status, history := after.history, tasks := after.tasks)
  }

  lemma FailureOf(env: Env, db: Db, e: Event, reason: string, terminal: bool)
    requires TasksOk(db.status, db.tasks, db.signings)
    ensures var after := RecordDeliveryFailure(env, db, e, reason, terminal);
      if Undelivered(env, db, e) then CountsFailure(db, after, reason, terminal) else after == db
  {
    if Undelivered(env, db, e) {
      assert db.tasks == [db.tasks[0]];
    }
  }

  /** A failed delivery is recorded exactly for an output that is not delivered. */
  lemma FailureExactly(env: Env, s: Sys, e: Event, reason: string, terminal: bool)
    requires Reached(env, s)
    ensures var after := RecordDeliveryFailure(env, s.db, e, reason, terminal);
      if Undelivered(env, s.db, e) then CountsFailure(s.db, after, reason, terminal) else after == s.db
  {
    ReachedOk(env, s);
    FailureOf(env, s.db, e, reason, terminal);
  }

  // ---------------------------------------------------------------- counted over a run

  function Attempts(tasks: seq<PdfTask>): nat { if tasks == [] then 0 else tasks[0].deliveryAttempts }

  /** The step records a failed delivery of the case's output. */
  predicate Records(env: Env, s: Sys, step: Step) {
    step.Case? && step.tx.OfPdf? && step.tx.pdf.DeliveryFailureTx? && Undelivered(env, s.db, step.tx.pdf.event)
  }

  function RecordedIn(env: Env, s: Sys, steps: seq<Step>): nat {
    if steps == [] then 0
    else
      var front := steps[..|steps| - 1];
      RecordedIn(env, s, front) + if Records(env, Run(env, s, front), steps[|steps| - 1]) then 1 else 0
  }

  lemma TxCounts(env: Env, db: Db, now: nat, tx: Tx)
    requires TasksOk(db.status, db.tasks, db.signings) && HasOutput(db.tasks)
    ensures Attempts(TxDb(env, db, now, tx).tasks) == Attempts(db.tasks)
      + if tx.OfPdf? && tx.pdf.DeliveryFailureTx? && Undelivered(env, db, tx.pdf.event) then 1 else 0
  {
    match tx
    case OfLink(t) => LinkTxTouches(db, now, t);
    case OfClient(t) => ClientTxTouches(env, db, now, t);
    case OfFile(t) => FileTxTouches(env, db, now, t);
    case OfReview(t) => ReviewCounts(env, db, t);
    case OfPdf(t) => PdfCounts(env, db, t);
  }

  lemma ReviewCounts(env: Env, db: Db, tx: ReviewTx)
    requires TasksOk(db.status, db.tasks, db.signings) && db.tasks != []
    ensures ReviewDb(env, db, tx).tasks == db.tasks
  {
  }

  lemma PdfCounts(env: Env, db: Db, tx: PdfTx)
    requires TasksOk(db.status, db.tasks, db.signings) && HasOutput(db.tasks)
    ensures Attempts(PdfDb(env, db, tx).tasks) == Attempts(db.tasks)
      + if tx.DeliveryFailureTx? && Undelivered(env, db, tx.event) then 1 else 0
  {
    match tx
    case DeliveryFailureTx(e, reason, terminal) => FailureOf(env, db, e, reason, terminal);
    case FinalizeTx(ticket) => FinalizeCounts(env, db, ticket.event, Some(ticket.fingerprint));
    case _ =>
  }

  lemma FinalizeCounts(env: Env, db: Db, e: Event, expected: Option<Fingerprint>)
    requires |db.tasks| == 1
    ensures Attempts(PdfTransactions.Finalize(env, db, e, expected).1.tasks) == Attempts(db.tasks)
  {
  }

  /** A worker leaves a finished task alone. */
  lemma LeaseLeavesDone(env: Env, s: Sys, w: nat)
    requires |s.db.tasks| == 1 && s.db.tasks[0].status == Succeeded && w in s.workers
    ensures GoLease(env, s, w).db.tasks == s.db.tasks
  {
  }

  lemma RecordLeavesDone(env: Env, s: Sys, w: nat, input: Input)
    requires |s.db.tasks| == 1 && s.db.tasks[0].status == Succeeded && w in s.workers
    ensures GoRecord(env, s, w, input).db.tasks == s.db.tasks
  {
    match s.workers[w].pc
    case Journalling(h, bytes) => JournalLeavesDone(env, s, w, h, bytes);
    case Completing(h, bytes) => CompleteLeavesDone(env, s, w, h, bytes, input.fileId);
    case _ =>
  }

  lemma JournalLeavesDone(env: Env, s: Sys, w: nat, h: Holder, bytes: Bytes)
    requires |s.db.tasks| == 1 && s.db.tasks[0].status == Succeeded && w in s.workers
    ensures JournalStep(env, s, w, h, bytes).db.tasks == s.db.tasks
  {
  }

  lemma CompleteLeavesDone(env: Env, s: Sys, w: nat, h: Holder, bytes: Bytes, fileId: nat)
    requires |s.db.tasks| == 1 && s.db.tasks[0].status == Succeeded && w in s.workers
    ensures CompleteStep(env, s, w, h, bytes, fileId).db.tasks == s.db.tasks
  {
  }

  lemma GoLeavesDone(env: Env, s: Sys, w: nat, input: Input)
    requires |s.db.tasks| == 1 && s.db.tasks[0].status == Succeeded && w in s.workers
    ensures Go(env, s, w, input).db.tasks == s.db.tasks
  {
    var pc := s.workers[w].pc;
    if OnLease(pc) {
      LeaseLeavesDone(env, s, w);
    } else if OnRead(pc) {
      GoReadTouches(env, s, w);
    } else if OnStage(pc) {
      GoStageTouches(env, s, w, input);
    } else if OnStore(pc) {
      GoStoreTouches(env, s, w);
    } else {
      RecordLeavesDone(env, s, w, input);
    }
  }

  lemma StepCountsFailures(env: Env, s: Sys, step: Step)
    requires TasksOk(s.db.status, s.db.tasks, s.db.signings) && HasOutput(s.db.tasks)
    ensures Attempts(Apply(env, s, step).db.tasks) == Attempts(s.db.tasks) + if Records(env, s, step) then 1 else 0
  {
    if step.Case? {
      TxCounts(env, s.db, s.now, step.tx);
      TxApplied(env, s, step.tx);
    } else if step.Advance? && step.worker in s.workers {
      GoLeavesDone(env, s, step.worker, step.input);
    }
  }

  /** From the completion on the counter of the task is the number of failed deliveries that were recorded. */
  lemma {:induction false} FailuresCounted(env: Env, s: Sys, more: seq<Step>)
    requires SysOk(env, s) && HasOutput(s.db.tasks)
    ensures HasOutput(Run(env, s, more).db.tasks)
    ensures Attempts(Run(env, s, more).db.tasks) == Attempts(s.db.tasks) + RecordedIn(env, s, more)
    decreases |more|
  {
    if more != [] {
      var front, last := more[..|more| - 1], more[|more| - 1];
      FailuresCounted(env, s, front);
      RunKeeps(env, s, front);
      StepKeepsOutput(env, Run(env, s, front), last);
      StepCountsFailures(env, Run(env, s, front), last);
    }
  }
}
