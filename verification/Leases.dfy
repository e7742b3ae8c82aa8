/** The lease over time: a token that is no longer the task's never becomes it again, and linked bytes stay linked. */
module Leases {
  import opened Common
  import opened CaseModel
  import opened CaseTransactions
  import opened PdfTransactions
  import opened CaseInvariants
  import opened System
  import opened SystemInvariants
  import opened SystemProofs
  import opened WorkerProofs

  lemma CaseStepQuiet(env: Env, s: Sys, tx: Tx)
    requires TasksOk(s.db.status, s.db.tasks, s.db.signings) && AccountOk(s.db.tasks)
    ensures Quiet(s, ApplyTx(env, s, tx))
  {
    TxSettles(env, s.now, s.db, tx);
  }

  lemma ClaimStepQuiet(env: Env, s: Sys, w: nat)
    requires TasksOk(s.db.status, s.db.tasks, s.db.signings) && AccountOk(s.db.tasks) && w in s.workers
    ensures Quiet(s, ClaimStep(env, s, w))
  {
    ClaimEvolves(env, s.db, s.now, s.workers[w].job, s.nextToken);
  }

  lemma FailStepQuiet(s: Sys, w: nat, token: nat, generation: int, terminal: bool)
    requires TasksOk(s.db.status, s.db.tasks, s.db.signings) && w in s.workers
    ensures Quiet(s, FailStep(s, w, token, generation, terminal))
  {
  }

  lemma JournalStepQuiet(env: Env, s: Sys, w: nat, h: Holder, bytes: Bytes)
    requires TasksOk(s.db.status, s.db.tasks, s.db.signings) && w in s.workers
    ensures Quiet(s, JournalStep(env, s, w, h, bytes))
  {
  }

  lemma CompleteQuiet(env: Env, db: Db, job: Job, token: nat, generation: int, c: Completion, nextToken: nat)
    requires TasksOk(db.status, db.tasks, db.signings)
    ensures TasksEvolve(db.tasks, CompleteTask(env, db, job, token, generation, c).1.tasks, nextToken)
  {
  }

  lemma CompleteStepQuiet(env: Env, s: Sys, w: nat, h: Holder, bytes: Bytes, fileId: nat)
    requires TasksOk(s.db.status, s.db.tasks, s.db.signings) && w in s.workers
    ensures Quiet(s, CompleteStep(env, s, w, h, bytes, fileId))
  {
    CompleteQuiet(env, s.db, s.workers[w].job, h.token, h.generation, CompletionOf(env, bytes, fileId), s.nextToken);
  }

  lemma GoLeaseQuiet(env: Env, s: Sys, w: nat)
    requires TasksOk(s.db.status, s.db.tasks, s.db.signings) && AccountOk(s.db.tasks) && w in s.workers
    ensures Quiet(s, GoLease(env, s, w))
  {
    match s.workers[w].pc
    case Claiming => ClaimStepQuiet(env, s, w);
    case Aborting(token, generation, terminal) => FailStepQuiet(s, w, token, generation, terminal);
    case Failing(h) => FailStepQuiet(s, w, h.token, h.generation, h.attempts >= h.maxAttempts);
    case _ =>
  }

  lemma GoReadQuiet(env: Env, s: Sys, w: nat)
    requires w in s.workers
    ensures Quiet(s, GoRead(env, s, w))
  {
  }

  lemma GoStageQuiet(env: Env, s: Sys, w: nat, input: Input)
    requires w in s.workers
    ensures Quiet(s, GoStage(env, s, w, input))
  {
  }

  lemma StoreStepQuiet(env: Env, s: Sys, w: nat, h: Holder, bytes: Bytes)
    requires w in s.workers
    ensures Quiet(s, StoreStep(env, s, w, h, bytes))
  {
  }

  lemma GoStoreQuiet(env: Env, s: Sys, w: nat)
    requires w in s.workers
    ensures Quiet(s, GoStore(env, s, w))
  {
    match s.workers[w].pc
    case Storing(h, bytes) => StoreStepQuiet(env, s, w, h, bytes);
    case Rereading(h, bytes) =>
      assert RereadStep(env, s, w, h, bytes).db == s.db && RereadStep(env, s, w, h, bytes).contents == s.contents;
    case _ =>
  }

  lemma GoRecordQuiet(env: Env, s: Sys, w: nat, input: Input)
    requires TasksOk(s.db.status, s.db.tasks, s.db.signings) && w in s.workers
    ensures Quiet(s, GoRecord(env, s, w, input))
  {
    match s.workers[w].pc
    case Journalling(h, bytes) => JournalStepQuiet(env, s, w, h, bytes);
    case Completing(h, bytes) => CompleteStepQuiet(env, s, w, h, bytes, input.fileId);
    case _ =>
  }

  lemma GoQuiet(env: Env, s: Sys, w: nat, input: Input)
    requires TasksOk(s.db.status, s.db.tasks, s.db.signings) && AccountOk(s.db.tasks) && w in s.workers
    ensures Quiet(s, Go(env, s, w, input))
  {
    var pc := s.workers[w].pc;
    if OnLease(pc) {
      GoLeaseQuiet(env, s, w);
    } else if OnRead(pc) {
      GoReadQuiet(env, s, w);
    } else if OnStage(pc) {
      GoStageQuiet(env, s, w, input);
    } else if OnStore(pc) {
      GoStoreQuiet(env, s, w);
    } else {
      GoRecordQuiet(env, s, w, input);
    }
  }

  lemma StepQuiet(env: Env, s: Sys, step: Step)
    requires TasksOk(s.db.status, s.db.tasks, s.db.signings) && AccountOk(s.db.tasks)
    ensures Quiet(s, Apply(env, s, step))
  {
    if step.Case? {
      CaseStepQuiet(env, s, step.tx);
    } else if step.Advance? && step.worker in s.workers {
      GoQuiet(env, s, step.worker, step.input);
    }
  }

  /** A token that was handed out and is not the task's lease now. */
  ghost predicate Lost(s: Sys, token: nat) {
    token < s.nextToken && s.db.tasks != [] && s.db.tasks[0].lease != Some(token)
  }

  lemma StepLoses(env: Env, s: Sys, step: Step, token: nat)
    requires TasksOk(s.db.status, s.db.tasks, s.db.signings) && AccountOk(s.db.tasks)
    ensures Grown(s.first, Apply(env, s, step).first) && Grown(s.contents, Apply(env, s, step).contents)
    ensures Lost(s, token) ==> Lost(Apply(env, s, step), token)
  {
    StepQuiet(env, s, step);
  }

  /** Once a worker lost its lease it never holds it again; the first staged bytes and the stored contents stay. */
  lemma {:induction false} RunQuiet(env: Env, s: Sys, steps: seq<Step>, token: nat)
    requires SysOk(env, s)
    ensures Grown(s.first, Run(env, s, steps).first) && Grown(s.contents, Run(env, s, steps).contents)
    ensures Lost(s, token) ==> Lost(Run(env, s, steps), token)
    decreases |steps|
  {
    if steps != [] {
      RunQuiet(env, s, steps[..|steps| - 1], token);
      RunKeeps(env, s, steps[..|steps| - 1]);
      StepLoses(env, Run(env, s, steps[..|steps| - 1]), steps[|steps| - 1], token);
    }
  }
}
