/**
 The worker's repository, the operator's retry, the finalizer and the publisher, as transactions over the case's
 tables.
 */
module PdfServices {
  import opened Common
  import opened Placement
  import opened CaseModel
  import opened CaseTransactions
  import opened PdfTransactions
  import opened CaseDatabase
  import opened System
  import opened Evolution
  import opened VerifyCommit
  import opened Storage

  // ---------------------------------------------------------------- pdf-job.repository.ts

  class PdfJobRepository {
    const env: Env
    const db: CaseTables

    constructor (env: Env, db: CaseTables)
      ensures this.env == env && this.db == db
    {
      this.env, this.db := env, db;
    }

    method FailCase()
      modifies db`status, db`history
      ensures db.View() == PdfTransactions.FailCase(old(db.View()))
    {
      if db.status == Finalizing {
        db.MoveTo(PdfFailed);
      }
    }

    /** The claiming transaction. */
    method Claim(now: nat, job: Job, token: nat) returns (outcome: ClaimOutcome)
      modifies db
      ensures (outcome, db.View()) == PdfTransactions.Claim(env, old(db.View()), now, job, token)
    {
      if job.task >= |db.tasks| || job.caseId != env.caseId || db.tasks[job.task].snapshotVersion != job.version {
        return Refused(JobIdentityMismatch);
      }
      var t := db.tasks[job.task];
      if db.status != Finalizing {
        return Refused(CaseNotFinalizing);
      }
      if !SigningOfTaskValid(db.View(), t) {
        return Refused(SigningInvalid);
      }
      if t.status == Succeeded {
        return if t.output.None? then Refused(OutputMissing) else Duplicate;
      }
      var expired := t.status == Processing && t.startedAt.Some? && t.startedAt.value + LEASE_SECONDS < now;
      if expired && t.attempts >= t.maxAttempts {
        FailCase();
        db.tasks := db.tasks[job.task := FailTask(t, "PDF_PROCESSING_LEASE_EXPIRED_RETRY_EXHAUSTED")];
        return Busy;
      }
      if t.status == Failed && t.attempts >= t.maxAttempts {
        return Busy;
      }
      if t.attempts < t.maxAttempts && (t.status == Queued || expired) {
        t := t.(status := Processing, attempts := t.attempts + 1, claimGeneration := t.claimGeneration + 1);
        t := t.(lease := Some(token), startedAt := Some(now));
        db.tasks := db.tasks[job.task := t];
        return Claimed;
      }
      return Busy;
    }

    method JournalPending(task: nat, token: nat, generation: int, entry: Journal) returns (refused: Option<Error>)
      modifies db
      ensures Commits(PdfTransactions.JournalPending(old(db.View()), task, token, generation, entry), old(db.View()),
        db.View(), refused)
    {
      if !Fenced(db.View(), task, token, generation) {
        return Some(JournalFencingRejected);
      }
      var t := db.tasks[task];
      if t.pending.Some? && t.pending != Some(entry) {
        return Some(JournalFencingRejected);
      }
      db.tasks := db.tasks[task := t.(pending := Some(entry))];
      return None;
    }

    /** File row, output, final status, outbox row and the cleared journal, in one transaction. */
    method Complete(job: Job, token: nat, generation: int, c: Completion) returns (outcome: CompleteOutcome)
      modifies db
      ensures (outcome, db.View()) == CompleteTask(env, old(db.View()), job, token, generation, c)
    {
      if job.task >= |db.tasks| || job.caseId != env.caseId || db.tasks[job.task].snapshotVersion != job.version {
        return CompleteRefused(JobIdentityMismatch);
      }
      var t := db.tasks[job.task];
      if t.status == Succeeded {
        return AlreadyComplete;
      }
      if t.status != Processing || t.lease != Some(token) || t.claimGeneration != generation {
        return CompleteRefused(FencingRejected);
      }
      if t.pending.None? || t.pending.value.sha != c.sha || t.pending.value.size != c.size {
        return CompleteRefused(JournalMismatch);
      }
      if RetainedBytes(db.files, db.signings) + c.size > MAX_CASE_BYTES {
        return CompleteRefused(CapacityExceeded);
      }
      if KeyTaken(db.files, c.key) {
        return CompleteRefused(StorageKeyTaken);
      }
      if t.output.Some? || !(1 <= t.signatureVersion <= |db.signings|) {
        return CompleteRefused(FencingRejected);
      }
      ghost var before := db.View();
      var file, generationOut := |db.files|, t.deliveryGeneration + 1;
      db.files := db.files + [FinalRow(c, db.signings[t.signatureVersion - 1].contentDigest)];
      db.tasks := db.tasks[job.task := t.(
        status := Succeeded, lease := None, output := Some(Output(file, c.sha)), failure := None,
        delivery := Pending, deliveryAttempts := 0,
        deliveryFailure := None, deliveryGeneration := generationOut, pending := None)];
      db.outbox := db.outbox + [OutboxRow(job.task, FinalizedQueue, generationOut,
        Finalized(job.task, t.snapshotVersion, file, c.sha), None, 0)];
      assert db.View() == WithOutput(before, job.task, c);
      return CompleteOutcome.Complete(file, |db.outbox| - 1);
    }

    method Fail(task: nat, token: nat, generation: int, terminal: bool, reason: string)
      modifies db
      ensures db.View() == FailAttempt(old(db.View()), task, token, generation, terminal, reason)
    {
      if !Fenced(db.View(), task, token, generation) {
        return;
      }
      var t := db.tasks[task];
      if !terminal {
        db.tasks := db.tasks[task := t.(status := Queued, lease := None, startedAt := None, failure := None)];
        return;
      }
      db.tasks := db.tasks[task := FailTask(t, reason)];
      FailCase();
    }
  }

  // ---------------------------------------------------------------- pdf-retry.service.ts

  class PdfRetryService {
    const db: CaseTables

    constructor (db: CaseTables)
      ensures this.db == db
    {
      this.db := db;
    }

    method Retry() returns (refused: Option<Error>)
      modifies db
      ensures Commits(PdfTransactions.Retry(old(db.View())), old(db.View()), db.View(), refused)
    {
      if db.status != PdfFailed {
        return Some(NotInFailedState);
      }
      if db.tasks == [] {
        return Some(FailedTaskNotFound);
      }
      var i := |db.tasks| - 1;
      var t := db.tasks[i];
      var deliveryRetry := t.status == Succeeded && t.delivery == DeliveryFailed;
      if !deliveryRetry && t.status != Failed {
        return Some(FailedTaskNotFound);
      }
      if deliveryRetry && t.output.None? {
        return Some(OutputMissing);
      }
      if deliveryRetry {
        db.tasks := db.tasks[i := t.(
          delivery := Pending, deliveryFailure := None, deliveryGeneration := t.deliveryGeneration + 1)];
      } else {
        db.tasks := db.tasks[i := t.(
          status := Queued, attempts := 0, lease := None, failure := None, startedAt := None,
          queueGeneration := t.queueGeneration + 1)];
      }
      db.MoveTo(Finalizing);
      db.outbox := db.outbox + [RetryRow(i, t)];
      return None;
    }
  }

  // ---------------------------------------------------------------- pdf-finalization

  class PdfFinalizationRepository {
    const env: Env
    const db: CaseTables

    constructor (env: Env, db: CaseTables)
      ensures this.env == env && this.db == db
    {
      this.env, this.db := env, db;
    }

    method Reinspect(e: Event, expected: Option<Fingerprint>) returns (r: Result<Inspection>)
      ensures r == match Inspect(env, db.View(), e)
        case Ok(i) => if expected.Some? && i.fingerprint != expected.value then Err(FinalizationDbChanged) else Ok(i)
        case Err(error) => Err(error)
    {
      r := Inspect(env, db.View(), e);
      if r.Ok? && expected.Some? && r.value.fingerprint != expected.value {
        return Err(FinalizationDbChanged);
      }
    }

    method Finalize(e: Event, expected: Option<Fingerprint>) returns (outcome: FinalizeOutcome)
      modifies db
      ensures (outcome, db.View()) == PdfTransactions.Finalize(env, old(db.View()), e, expected)
    {
      var saved := db.View();
      var inspection := Reinspect(e, expected);
      if inspection.Err? {
        return FinalizeRefused(inspection.error);
      }
      if !inspection.value.gates.Pass() {
        return FinalizeRefused(FinalizationGateFailed);
      }
      db.tasks := db.tasks[e.task := db.tasks[e.task].(delivery := Delivered, deliveryFailure := None)];
      if db.status == Completed {
        return AlreadyCompleted;
      }
      if db.status != Finalizing && db.status != PdfFailed {
        db.RollBack(saved);
        return FinalizeRefused(FinalizationStateChanged);
      }
      db.MoveTo(Completed);
      db.CompleteLinks();
      return CaseCompleted;
    }

    method RecordDeliveryFailure(e: Event, reason: string, terminal: bool)
      modifies db
      ensures db.View() == PdfTransactions.RecordDeliveryFailure(env, old(db.View()), e, reason, terminal)
    {
      if e.caseId != env.caseId || e.task >= |db.tasks| {
        return;
      }
      var t := db.tasks[e.task];
      if t.status != Succeeded || t.output != Some(Output(e.file, e.sha)) || t.delivery == Delivered {
        return;
      }
      t := t.(deliveryAttempts := t.deliveryAttempts + 1);
      if terminal {
        db.tasks := db.tasks[e.task := t.(delivery := DeliveryFailed, deliveryFailure := Some(reason))];
        if db.status == Finalizing {
          db.MoveTo(PdfFailed);
        }
      } else {
        db.tasks := db.tasks[e.task := t.(delivery := Pending, deliveryFailure := None)];
      }
    }
  }

  /** The rows at the step that refuses, when one does. */
  function RowsRefused(
    env: Env, inspected: Db, reinspected: Db, committing: Db,
    contents: map<Digest, Bytes>, e: Event): Db
  {
    if !FirstCheck(env, inspected, contents, e) then inspected
    else if Inspect(env, reinspected, e) != Inspect(env, inspected, e) then reinspected
    else committing
  }

  class PdfFinalizationService {
    const env: Env
    const repository: PdfFinalizationRepository
    const storage: LocalStorage

    constructor (env: Env, repository: PdfFinalizationRepository, storage: LocalStorage)
      ensures this.env == env && this.repository == repository && this.storage == storage
    {
      this.env, this.repository, this.storage := env, repository, storage;
    }

    method Evidence(i: Inspection, e: Event) returns (r: Result<Evidence>)
      requires storage.sha == env.sha
      ensures r == StorageEvidence(env, storage.contents, i, e)
    {
      if i.storageKey != ContentKey(e.sha) {
        return Err(StorageKeyInvalid);
      }
      var read := storage.ReadContent(e.sha, MAX_FILE_BYTES);
      if read.Err? {
        return Err(read.error);
      }
      if !ReadablePdf(env, read.value) || storage.sha(read.value) != e.sha || i.persistedSha != e.sha {
        return Err(ContentAddressMismatch);
      }
      return Ok(PdfTransactions.Evidence(e.sha, |read.value|, i.storageKey));
    }

    /**
     Inspect, read, inspect again, read again, commit. Other transactions may run between the three database steps:
     `reinspected` and `committing` are the rows they leave. The commit succeeds exactly when the first inspection
     passes with the right stored bytes and is still what both later transactions see. A refusal writes nothing: the
     rows are those of the step that refused.
     */
    method Finalize(e: Event, reinspected: Db, committing: Db) returns (outcome: FinalizeOutcome)
      requires repository.env == env && storage.sha == env.sha
      requires FilesGrow(repository.db.files, reinspected.files) && FilesGrow(reinspected.files, committing.files)
      modifies repository.db
      ensures !outcome.FinalizeRefused? <==>
        && FirstCheck(env, old(repository.db.View()), storage.contents, e)
        && Inspect(env, reinspected, e) == Inspect(env, old(repository.db.View()), e)
        && Inspect(env, committing, e) == Inspect(env, old(repository.db.View()), e)
        && committing.status in {Finalizing, PdfFailed, Completed}
      ensures !outcome.FinalizeRefused? ==> repository.db.View() == PdfTransactions.Finalize(env, committing, e, None).1
      ensures outcome.FinalizeRefused? ==>
        repository.db.View() == RowsRefused(env, old(repository.db.View()), reinspected, committing, storage.contents,
          e)
    {
      var phase1 := repository.Reinspect(e, None);
      if phase1.Err? {
        return FinalizeRefused(phase1.error);
      }
      if !phase1.value.gates.Pass() {
        return FinalizeRefused(FinalizationGateFailed);
      }
      var first := Evidence(phase1.value, e);
      if first.Err? {
        return FinalizeRefused(first.error);
      }
      ghost var inspected := repository.db.View();
      repository.db.OthersCommit(reinspected);
      var phase2 := repository.Reinspect(e, Some(phase1.value.fingerprint));
      if phase2.Err? {
        return FinalizeRefused(phase2.error);
      }
      InspectionStays(env, inspected, reinspected, e, phase1.value);
      if phase2.value.storageKey != first.value.key || phase2.value.persistedSha != first.value.sha {
        return FinalizeRefused(FinalizationDbChanged);
      }
      var second := Evidence(phase2.value, e);
      if second != first {
        return FinalizeRefused(ContentAddressMismatch);
      }
      repository.db.OthersCommit(committing);
      CommitDecides(env, reinspected, committing, e, phase1.value);
      outcome := repository.Finalize(e, Some(phase2.value.fingerprint));
    }
  }

  // ---------------------------------------------------------------- pdf-finalization.publisher.ts

  class PdfFinalizationPublisher {
    const db: CaseTables

    constructor (db: CaseTables)
      ensures this.db == db
    {
      this.db := db;
    }

    /** One send: a broker id publishes the row, no answer counts a failed attempt. */
    method PublishOutbox(row: nat, answer: Option<string>) returns (published: bool)
      modifies db
      ensures db.View() == RecordSend(old(db.View()), row, answer)
      ensures published
        <==> row < |old(db.outbox)| && old(db.outbox[row]).published.None? && answer.Some? && answer.value != ""
    {
      if row >= |db.outbox| || db.outbox[row].published.Some? {
        return false;
      }
      if answer.Some? && answer.value != "" {
        db.outbox := db.outbox[row := db.outbox[row].(published := answer)];
        return true;
      }
      db.outbox := db.outbox[row := db.outbox[row].(attempts := db.outbox[row].attempts + 1)];
      return false;
    }

    /**
     The reconciliation loop: the oldest pending rows, at most `limit` of them, with whatever the broker answers to
     each.
     */
    method Reconcile(limit: nat, answers: seq<Option<string>>) returns (published: nat)
      requires |answers| == |db.outbox|
      modifies db
      ensures published == Accepted(old(db.outbox), answers, limit, |answers|)
      ensures |db.outbox| == |old(db.outbox)| && db.View() == old(db.View()).(outbox := db.outbox)
      ensures forall i | 0 <= i < |db.outbox| ::
        db.outbox[i] ==
          if Due(old(db.outbox), i, limit) then RecordSend(old(db.View()), i, answers[i]).outbox[i]
          else old(db.outbox)[i]
    {
      published := 0;
      ghost var before := db.View();
      var i, taken := 0, 0;
      while i < |db.outbox|
        invariant 0 <= i <= |db.outbox| == |before.outbox| && db.View() == before.(outbox := db.outbox)
        invariant taken == if PendingBefore(before.outbox, i) < limit then PendingBefore(before.outbox, i) else limit
        invariant published == Accepted(before.outbox, answers, limit, i)
        invariant forall k | 0 <= k < i ::
          db.outbox[k] ==
            if Due(before.outbox, k, limit) then RecordSend(before, k, answers[k]).outbox[k] else before.outbox[k]
        invariant forall k | i <= k < |db.outbox| :: db.outbox[k] == before.outbox[k]
      {
        if db.outbox[i].published.None? && taken < limit {
          taken := taken + 1;
          SendAlike(db.View(), before, i, answers[i]);
          var ok := PublishOutbox(i, answers[i]);
          if ok {
            published := published + 1;
          }
        }
        i := i + 1;
      }
    }
  }

  /** What a send makes of a row depends on that row only. */
  lemma SendAlike(db: Db, before: Db, i: nat, answer: Option<string>)
    requires i < |db.outbox| == |before.outbox| && db.outbox[i] == before.outbox[i]
    ensures RecordSend(db, i, answer) == db.(outbox := db.outbox[i := RecordSend(before, i, answer).outbox[i]])
  {
  }

  function PendingBefore(outbox: seq<OutboxRow>, n: nat): nat
    requires n <= |outbox|
  {
    if n == 0 then 0 else PendingBefore(outbox, n - 1) + if outbox[n - 1].published.None? then 1 else 0
  }

  /** The row is among the `limit` oldest pending ones. */
  predicate Due(outbox: seq<OutboxRow>, i: nat, limit: nat)
    requires i < |outbox|
  {
    outbox[i].published.None? && PendingBefore(outbox, i) < limit
  }

  /** How many of the first `n` rows are due and get an id out of the answers. */
  function Accepted(outbox: seq<OutboxRow>, answers: seq<Option<string>>, limit: nat, n: nat): nat
    requires n <= |outbox| == |answers|
  {
    if n == 0 then 0
    else
      var taken := Due(outbox, n - 1, limit) && answers[n - 1].Some? && answers[n - 1].value != "";
      Accepted(outbox, answers, limit, n - 1) + if taken then 1 else 0
  }
}
