/**
 Every transaction of the final-PDF protocol keeps `DbOk`, whatever arguments a worker, consumer or operator brings.
 */
module PdfProofs {
  import opened Common
  import opened Placement
  import opened CaseModel
  import opened CaseTransactions
  import opened PdfTransactions
  import opened CaseInvariants
  import opened FileFacts
  import opened CaseProofs

  // ---------------------------------------------------------------- outbox

  lemma GenerationsAppend(outbox: seq<OutboxRow>, row: OutboxRow, queue: Queue)
    ensures Generations(outbox + [row], queue)
      == Generations(outbox, queue) + if row.queue == queue then [row.generation] else []
  {
    var more := outbox + [row];
    assert more[..|more| - 1] == outbox;
  }

  lemma {:induction false} GenerationsSame(outbox: seq<OutboxRow>, changed: seq<OutboxRow>, queue: Queue)
    requires |outbox| == |changed|
    requires forall i | 0 <= i < |outbox| ::
      outbox[i].queue == changed[i].queue && outbox[i].generation == changed[i].generation
    ensures Generations(outbox, queue) == Generations(changed, queue)
  {
    if outbox != [] {
      GenerationsSame(outbox[..|outbox| - 1], changed[..|outbox| - 1], queue);
    }
  }

  lemma NextGeneration(n: nat)
    ensures UpTo(n) + [n + 1] == UpTo(n + 1)
  {
  }

  /** A new outbox row for the only task, one past the last generation of its queue. */
  lemma NewRowKeepsOutbox(outbox: seq<OutboxRow>, t: PdfTask, next: PdfTask, row: OutboxRow)
    requires RowsNameOutput(outbox, [t]) && GenerationsOk(outbox, [t])
    requires next.snapshotVersion == t.snapshotVersion && (t.output.Some? ==> next.output == t.output)
    requires row.task == 0 && RowsNameOutput([row], [next])
    requires row.queue == FinalQueue ==>
      row.generation == next.queueGeneration == t.queueGeneration + 1 && next.deliveryGeneration == t.deliveryGeneration
    requires row.queue == FinalizedQueue ==>
      row.generation == next.deliveryGeneration == t.deliveryGeneration + 1 && next.queueGeneration == t.queueGeneration
    ensures RowsNameOutput(outbox + [row], [next]) && GenerationsOk(outbox + [row], [next])
  {
    GenerationsAppend(outbox, row, FinalQueue);
    GenerationsAppend(outbox, row, FinalizedQueue);
    NextGeneration(t.queueGeneration);
    NextGeneration(t.deliveryGeneration);
    assert [row][0] == row;
  }

  // ---------------------------------------------------------------- one task changes

  /** The columns the other tables look at. */
  ghost predicate SameIdentity(t: PdfTask, next: PdfTask) {
    && next.snapshotVersion == t.snapshotVersion && next.signatureVersion == t.signatureVersion
    && next.output == t.output
  }

  lemma TaskReplacedKeeps(env: Env, db: Db, status: CaseStatus, next: PdfTask)
    requires TasksOk(db.status, db.tasks, db.signings) && OutputsOk(db.tasks, db.files, db.signings)
    requires GatesHold(env, db.status, db.reviews, db.tasks, db.signings) && db.tasks != []
    requires SameIdentity(db.tasks[0], next) && TaskRowOk(next) && Coupled(status, next)
    requires status == db.status || (HasTask(status) && HasTask(db.status) && status != Completed)
    ensures TasksOk(status, [next], db.signings) && OutputsOk([next], db.files, db.signings)
    ensures GatesHold(env, status, db.reviews, [next], db.signings)
  {
  }

  lemma TaskChangeKeeps(env: Env, db: Db, status: CaseStatus, next: PdfTask)
    requires TaskOk(env, db.status, db.reviews, db.tasks, db.outbox, db.files, db.signings) && db.tasks != []
    requires SameIdentity(db.tasks[0], next) && TaskRowOk(next) && Coupled(status, next)
    requires next.queueGeneration == db.tasks[0].queueGeneration
    requires next.deliveryGeneration == db.tasks[0].deliveryGeneration
    requires status == db.status || (HasTask(status) && HasTask(db.status) && status != Completed)
    ensures TaskOk(env, status, db.reviews, [next], db.outbox, db.files, db.signings)
  {
    TaskReplacedKeeps(env, db, status, next);
  }

  lemma OnlyTask(env: Env, db: Db, task: nat)
    requires TasksOk(db.status, db.tasks, db.signings) && task < |db.tasks|
    ensures task == 0 && forall next :: db.tasks[task := next] == [next]
  {
  }

  lemma ClaimKeepsTask(env: Env, db: Db, now: nat, job: Job, token: nat)
    requires TaskOk(env, db.status, db.reviews, db.tasks, db.outbox, db.files, db.signings)
    ensures var after := Claim(env, db, now, job, token).1;
      TaskOk(env, after.status, db.reviews, after.tasks, db.outbox, db.files, db.signings)
  {
    var after := Claim(env, db, now, job, token).1;
    if after != db {
      OnlyTask(env, db, job.task);
      TaskChangeKeeps(env, db, after.status, after.tasks[0]);
    }
  }

  /** A claim touches the task and, when the last lease ran out, the case's status; nothing else. */
  lemma ClaimTouches(env: Env, db: Db, now: nat, job: Job, token: nat)
    requires HistoryReplays(db.history, db.status)
    ensures var after := Claim(env, db, now, job, token).1;
      && after == db.(status := after.status, history := after.history, tasks := after.tasks)
      && HistoryReplays(after.history, after.status)
      && (after.status == db.status || (db.status == Finalizing && after.status == PdfFailed))
  {
    if db.status == Finalizing {
      MoveKeepsHistory(db, PdfFailed);
    }
  }

  lemma ClaimKeeps(env: Env, now: nat, db: Db, job: Job, token: nat)
    requires DbOk(env, now, db)
    ensures DbOk(env, now, Claim(env, db, now, job, token).1)
  {
    ClaimKeepsTask(env, db, now, job, token);
    ClaimTouches(env, db, now, job, token);
  }

  lemma JournalKeeps(env: Env, now: nat, db: Db, task: nat, token: nat, generation: int, entry: Journal)
    requires DbOk(env, now, db) && JournalPending(db, task, token, generation, entry).Ok?
    ensures DbOk(env, now, JournalPending(db, task, token, generation, entry).value)
  {
    var after := JournalPending(db, task, token, generation, entry).value;
    OnlyTask(env, db, task);
    TaskChangeKeeps(env, db, db.status, after.tasks[0]);
  }

  lemma FailKeeps(env: Env, now: nat, db: Db, task: nat, token: nat, generation: int, terminal: bool, reason: string)
    requires DbOk(env, now, db)
    ensures DbOk(env, now, FailAttempt(db, task, token, generation, terminal, reason))
  {
    var after := FailAttempt(db, task, token, generation, terminal, reason);
    if after != db {
      OnlyTask(env, db, task);
      TaskChangeKeeps(env, db, after.status, after.tasks[0]);
      if after.status != db.status {
        MoveKeepsHistory(db, PdfFailed);
      }
    }
  }

  lemma RecordDeliveryFailureKeeps(env: Env, now: nat, db: Db, e: Event, reason: string, terminal: bool)
    requires DbOk(env, now, db)
    ensures DbOk(env, now, RecordDeliveryFailure(env, db, e, reason, terminal))
  {
    var after := RecordDeliveryFailure(env, db, e, reason, terminal);
    if after != db {
      OnlyTask(env, db, e.task);
      TaskChangeKeeps(env, db, after.status, after.tasks[0]);
      if after.status != db.status {
        MoveKeepsHistory(db, PdfFailed);
      }
    }
  }

  // ---------------------------------------------------------------- completion

  /** The new output is the case's one FINAL_PDF and carries the signed digest. */
  lemma OutputKeepsOutputs(env: Env, db: Db, c: Completion)
    requires TasksOk(db.status, db.tasks, db.signings) && OutputsOk(db.tasks, db.files, db.signings)
    requires GatesHold(env, db.status, db.reviews, db.tasks, db.signings)
    requires db.tasks != [] && db.tasks[0].output.None?
    ensures var after := WithOutput(db, 0, c);
      && TasksOk(db.status, after.tasks, db.signings) && OutputsOk(after.tasks, after.files, db.signings)
      && GatesHold(env, db.status, db.reviews, after.tasks, db.signings)
  {
  }

  lemma OutputKeepsOutbox(db: Db, c: Completion)
    requires TasksOk(db.status, db.tasks, db.signings) && RowsNameOutput(db.outbox, db.tasks)
    requires GenerationsOk(db.outbox, db.tasks)
    requires db.tasks != [] && db.tasks[0].output.None?
    ensures var after := WithOutput(db, 0, c);
      RowsNameOutput(after.outbox, after.tasks) && GenerationsOk(after.outbox, after.tasks)
  {
    var after := WithOutput(db, 0, c);
    assert db.tasks == [db.tasks[0]] && after.tasks == [after.tasks[0]];
    NewRowKeepsOutbox(db.outbox, db.tasks[0], after.tasks[0], after.outbox[|db.outbox|]);
  }

  lemma OutputKeepsTask(env: Env, db: Db, c: Completion)
    requires TaskOk(env, db.status, db.reviews, db.tasks, db.outbox, db.files, db.signings)
    requires db.tasks != [] && db.tasks[0].output.None?
    ensures var after := WithOutput(db, 0, c);
      TaskOk(env, db.status, db.reviews, after.tasks, after.outbox, after.files, db.signings)
  {
    OutputKeepsOutputs(env, db, c);
    OutputKeepsOutbox(db, c);
  }

  lemma OutputKeepsEvidence(env: Env, db: Db, c: Completion)
    requires EvidenceOk(env, db.drafts, db.files, db.signings)
    requires db.tasks != [] && 1 <= db.tasks[0].signatureVersion <= |db.signings|
    requires RetainedBytes(db.files, db.signings) + c.size <= MAX_CASE_BYTES && !KeyTaken(db.files, c.key)
    ensures EvidenceOk(env, db.drafts, WithOutput(db, 0, c).files, db.signings)
  {
    NewRowKeeps(env, db.drafts, db.files, db.signings,
      FinalRow(c, db.signings[db.tasks[0].signatureVersion - 1].contentDigest));
  }

  lemma CompleteKeeps(env: Env, now: nat, db: Db, job: Job, token: nat, generation: int, c: Completion)
    requires DbOk(env, now, db)
    ensures DbOk(env, now, CompleteTask(env, db, job, token, generation, c).1)
  {
    if CompleteTask(env, db, job, token, generation, c).0.Complete? {
      OnlyTask(env, db, job.task);
      OutputKeepsEvidence(env, db, c);
      OutputKeepsTask(env, db, c);
    }
  }

  // ---------------------------------------------------------------- operator and finalizer

  lemma RetriedRowOk(status: CaseStatus, t: PdfTask)
    requires TaskRowOk(t) && Coupled(status, t) && (t.status == Failed || DeliveryRetry(t))
    ensures var n := RetriedTask(t);
      && SameIdentity(t, n) && TaskRowOk(n) && Coupled(Finalizing, n)
      && RetryRow(0, t).task == 0 && RowsNameOutput([RetryRow(0, t)], [n])
  {
  }

  lemma RetryIs(db: Db, t: PdfTask)
    requires db.tasks == [t] && Retry(db).Ok?
    ensures (t.status == Failed || DeliveryRetry(t)) && (DeliveryRetry(t) ==> t.output.Some?)
    ensures Retry(db).value == Move(db, Finalizing).(tasks := [RetriedTask(t)], outbox := db.outbox + [RetryRow(0, t)])
  {
  }

  lemma RetriedTaskKeeps(env: Env, db: Db)
    requires TaskOk(env, db.status, db.reviews, db.tasks, db.outbox, db.files, db.signings) && Retry(db).Ok?
    ensures var after := Retry(db).value;
      TaskOk(env, after.status, after.reviews, after.tasks, after.outbox, after.files, after.signings)
  {
    var t := db.tasks[0];
    assert db.tasks == [t];
    RetryIs(db, t);
    RetriedRowOk(db.status, t);
    TaskReplacedKeeps(env, db, Finalizing, RetriedTask(t));
    NewRowKeepsOutbox(db.outbox, t, RetriedTask(t), RetryRow(0, t));
  }

  lemma RetryKeeps(env: Env, now: nat, db: Db)
    requires DbOk(env, now, db) && Retry(db).Ok?
    ensures DbOk(env, now, Retry(db).value)
  {
    RetriedTaskKeeps(env, db);
    MoveKeepsHistory(db, Finalizing);
  }

  lemma FinalizedTaskKeeps(env: Env, db: Db, e: Event, expected: Option<Fingerprint>)
    requires TaskOk(env, db.status, db.reviews, db.tasks, db.outbox, db.files, db.signings)
    requires !Finalize(env, db, e, expected).0.FinalizeRefused?
    ensures TaskOk(env, Completed, db.reviews, Finalize(env, db, e, expected).1.tasks, db.outbox, db.files, db.signings)
  {
    OnlyTask(env, db, e.task);
  }

  lemma CompletingLinksKeeps(links: seq<Link>, submissions: seq<nat>, now: nat)
    requires OneLiveLink(links, now) && SubmissionsConsume(links, submissions)
    ensures OneLiveLink(CompleteAll(links), now) && SubmissionsConsume(CompleteAll(links), submissions)
  {
  }

  lemma FinalizedCaseKeeps(db: Db, now: nat)
    requires OneLiveLink(db.links, now) && SubmissionsConsume(db.links, db.submissions)
    requires HistoryReplays(db.history, db.status)
    requires db.status == Finalizing || db.status == PdfFailed
    ensures var after := Move(db, Completed).(links := CompleteAll(db.links));
      OneLiveLink(after.links, now) && SubmissionsConsume(after.links, db.submissions)
        && HistoryReplays(after.history, Completed)
  {
    CompletingLinksKeeps(db.links, db.submissions, now);
    MoveKeepsHistory(db, Completed);
  }

  lemma FinalizeKeeps(env: Env, now: nat, db: Db, e: Event, expected: Option<Fingerprint>)
    requires DbOk(env, now, db)
    ensures DbOk(env, now, Finalize(env, db, e, expected).1)
  {
    var (outcome, after) := Finalize(env, db, e, expected);
    if !outcome.FinalizeRefused? {
      FinalizedTaskKeeps(env, db, e, expected);
      if outcome.CaseCompleted? {
        FinalizedCaseKeeps(db, now);
      }
    }
  }

  /** Marking a row published or counting an attempt touches neither its queue, generation nor payload. */
  lemma SendKeepsOutbox(outbox: seq<OutboxRow>, tasks: seq<PdfTask>, row: nat, next: OutboxRow)
    requires RowsNameOutput(outbox, tasks) && GenerationsOk(outbox, tasks) && row < |outbox|
    requires next == outbox[row].(published := next.published, attempts := next.attempts)
    ensures RowsNameOutput(outbox[row := next], tasks) && GenerationsOk(outbox[row := next], tasks)
  {
    GenerationsSame(outbox, outbox[row := next], FinalQueue);
    GenerationsSame(outbox, outbox[row := next], FinalizedQueue);
  }

  lemma RecordSendKeeps(env: Env, now: nat, db: Db, row: nat, answer: Option<string>)
    requires DbOk(env, now, db)
    ensures DbOk(env, now, RecordSend(db, row, answer))
  {
    var after := RecordSend(db, row, answer);
    if after != db {
      SendKeepsOutbox(db.outbox, db.tasks, row, after.outbox[row]);
    }
  }
}
