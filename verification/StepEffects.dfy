/** Which tables a worker's step can touch, and how time passes: what the rules of customers and reviewers rest on. */
module StepEffects {
  import opened Common
  import opened CaseModel
  import opened CaseTransactions
  import opened PdfTransactions
  import opened CaseInvariants
  import opened System
  import opened SystemInvariants
  import opened WorkerProofs
  import opened Evolution
  import opened LeaseTime

  /** A worker leaves customers, reviewers and links alone, and moves a case at most into failure. */
  ghost predicate WorkerLeaves(db: Db, after: Db) {
    && after == db.(status := after.status, history := after.history, files := after.files, tasks := after.tasks,
                    outbox := after.outbox)
    && (after.status == db.status || (db.status == Finalizing && after.status == PdfFailed))
  }

  lemma ClaimScope(env: Env, db: Db, now: nat, job: Job, token: nat)
    ensures WorkerLeaves(db, Claim(env, db, now, job, token).1)
  {
    ClaimLeaves(env, db, now, job, token);
  }

  lemma FailScope(db: Db, task: nat, token: nat, generation: int, terminal: bool, reason: string)
    ensures WorkerLeaves(db, FailAttempt(db, task, token, generation, terminal, reason))
  {
    FailCaseLeaves(db);
  }

  lemma CompleteScope(env: Env, db: Db, job: Job, token: nat, generation: int, c: Completion)
    ensures WorkerLeaves(db, CompleteTask(env, db, job, token, generation, c).1)
  {
  }

  lemma LeaseScope(env: Env, s: Sys, w: nat)
    requires w in s.workers
    ensures WorkerLeaves(s.db, GoLease(env, s, w).db)
  {
    match s.workers[w].pc
    case Claiming => ClaimScope(env, s.db, s.now, s.workers[w].job, s.nextToken);
    case Aborting(token, generation, terminal) =>
      FailScope(s.db, s.workers[w].job.task, token, generation, terminal, "PDF_FAILURE");
    case Failing(h) =>
      FailScope(s.db, s.workers[w].job.task, h.token, h.generation, h.attempts >= h.maxAttempts, "PDF_FAILURE");
    case _ =>
  }

  lemma RecordScope(env: Env, s: Sys, w: nat, input: Input)
    requires w in s.workers
    ensures WorkerLeaves(s.db, GoRecord(env, s, w, input).db)
  {
    match s.workers[w].pc
    case Completing(h, bytes) =>
      CompleteScope(env, s.db, s.workers[w].job, h.token, h.generation, CompletionOf(env, bytes, input.fileId));
    case _ =>
  }

  lemma GoScope(env: Env, s: Sys, w: nat, input: Input)
    requires w in s.workers
    ensures WorkerLeaves(s.db, Go(env, s, w, input).db)
  {
    var pc := s.workers[w].pc;
    if OnLease(pc) {
      LeaseScope(env, s, w);
    } else if OnRead(pc) {
      GoReadTouches(env, s, w);
    } else if OnStage(pc) {
      GoStageTouches(env, s, w, input);
    } else if OnStore(pc) {
      GoStoreTouches(env, s, w);
    } else {
      RecordScope(env, s, w, input);
    }
  }

  /** A step that is no transaction of the case's services is a worker's, or changes no row. */
  lemma StepScope(env: Env, s: Sys, step: Step)
    requires !step.Case?
    ensures WorkerLeaves(s.db, Apply(env, s, step).db)
  {
    if step.Advance? && step.worker in s.workers {
      GoScope(env, s, step.worker, step.input);
    }
  }

  lemma TxApplied(env: Env, s: Sys, tx: Tx)
    ensures ApplyTx(env, s, tx).db == if Allowed(s, tx) then TxDb(env, s.db, s.now, tx) else s.db
    ensures ApplyTx(env, s, tx).now == s.now
  {
  }

  /** The rows after a step: those a transaction leaves, or those a worker leaves. */
  lemma StepCases(env: Env, s: Sys, step: Step)
    ensures step.Case? ==> Apply(env, s, step).db in {s.db, TxDb(env, s.db, s.now, step.tx)}
    ensures !step.Case? ==> WorkerLeaves(s.db, Apply(env, s, step).db)
  {
    if step.Case? {
      TxApplied(env, s, step.tx);
    } else {
      StepScope(env, s, step);
    }
  }

  lemma {:induction false} TimePasses(env: Env, s: Sys, steps: seq<Step>)
    ensures s.now <= Run(env, s, steps).now
    decreases |steps|
  {
    if steps != [] {
      TimePasses(env, s, steps[..|steps| - 1]);
      NowGrows(env, Run(env, s, steps[..|steps| - 1]), steps[|steps| - 1]);
    }
  }
}
