/**
 The final-PDF protocol over whole runs: one output for ever, recovery from the first staged bytes, the fence,
 the accounting of claims, and exactly when a task can still make progress.
 */
module PdfTheorems {
  import opened Common
  import opened Placement
  import opened CaseModel
  import opened CaseTransactions
  import opened PdfTransactions
  import opened FileFacts
  import opened CaseInvariants
  import opened CaseProofs
  import opened System
  import opened SystemInvariants
  import opened SystemProofs
  import opened WorkerProofs
  import opened Evolution
  import opened Leases

  /** A state some run from a new case reaches. */
  ghost predicate Reached(env: Env, s: Sys) {
    exists reviewer, steps :: s == Run(env, Start(reviewer), steps)
  }

  lemma ReachedOk(env: Env, s: Sys)
    requires Reached(env, s)
    ensures SysOk(env, s)
  {
    var reviewer, steps :| s == Run(env, Start(reviewer), steps);
    Reachable(env, reviewer, steps);
  }

  lemma ReachedNext(env: Env, s: Sys, step: Step)
    requires Reached(env, s)
    ensures Reached(env, Apply(env, s, step))
  {
    var reviewer, steps :| s == Run(env, Start(reviewer), steps);
    assert (steps + [step])[..|steps|] == steps;
    assert Apply(env, s, step) == Run(env, Start(reviewer), steps + [step]);
  }

  /** Two different bodies never share a hash. */
  ghost predicate CollisionFree(sha: Bytes -> Digest) {
    forall a, b :: sha(a) == sha(b) ==> a == b
  }

  // ---------------------------------------------------------------- one output, from the first staged bytes

  /** At most one task and one FINAL_PDF. */
  ghost predicate OneOutput(db: Db) {
    && |db.tasks| <= 1
    && forall i, j | 0 <= i < |db.files| && 0 <= j < |db.files| ::
         db.files[i].purpose == FinalPdf && db.files[j].purpose == FinalPdf ==> i == j
  }

  /** An output that is there is there later, with its file, hash and storage key. */
  ghost predicate OutputKept(db: Db, later: Db) {
    db.tasks != [] && db.tasks[0].output.Some? ==>
      && later.tasks != [] && later.tasks[0].output == db.tasks[0].output && later.tasks[0].status == Succeeded
      && var o := db.tasks[0].output.value;
         && o.file < |db.files| <= |later.files| && later.files[o.file].purpose == FinalPdf
         && later.files[o.file].sha == o.sha == db.files[o.file].sha && later.files[o.file].key == db.files[o.file].key
  }

  lemma OutputIsOne(db: Db)
    requires TasksOk(db.status, db.tasks, db.signings) && OutputsOk(db.tasks, db.files, db.signings)
    ensures OneOutput(db)
  {
  }

  lemma OutputStays(db: Db, later: Db)
    requires OutputsOk(db.tasks, db.files, db.signings) && TablesGrow(db, later)
    requires TasksOk(later.status, later.tasks, later.signings)
    ensures OutputKept(db, later)
  {
    if db.tasks != [] && db.tasks[0].output.Some? {
      assert TaskGrows(db.tasks[0], later.tasks[0]);
    }
  }

  /** At most one FINAL_PDF ever exists, and a task's output is final. */
  lemma OneOutputForEver(env: Env, s: Sys, more: seq<Step>)
    requires Reached(env, s)
    ensures OneOutput(Run(env, s, more).db) && OutputKept(s.db, Run(env, s, more).db)
  {
    var later := Run(env, s, more).db;
    ReachedOk(env, s);
    RunKeeps(env, s, more);
    RunGrows(env, s, more);
    OutputIsOne(later);
    OutputStays(s.db, later);
  }

  /** Journal and output are the hash of the first bytes ever linked at the staging key, which never change. */
  lemma FirstStagedBytesWin(env: Env, s: Sys, more: seq<Step>)
    requires Reached(env, s)
    ensures var later := Run(env, s, more);
      && (STAGE in s.first ==> STAGE in later.first && later.first[STAGE] == s.first[STAGE])
      && (later.db.tasks != [] && later.db.tasks[0].pending.Some? ==>
            STAGE in later.first && later.db.tasks[0].pending.value.sha == env.sha(later.first[STAGE])
              && later.db.tasks[0].status != Succeeded)
      && (later.db.tasks != [] && later.db.tasks[0].output.Some? ==>
            STAGE in later.first && later.db.tasks[0].output.value.sha == env.sha(later.first[STAGE]))
      && (later.db.tasks != [] && later.db.tasks[0].status != Succeeded ==> later.staging == later.first)
  {
    ReachedOk(env, s);
    RunKeeps(env, s, more);
    RunQuiet(env, s, more, 0);
  }

  lemma JournalAccepts(env: Env, s: Sys, w: nat, h: Holder, bytes: Bytes)
    requires StagedOk(env, s.db.tasks, s.staging, s.first) && TasksOk(s.db.status, s.db.tasks, s.db.signings)
    requires w in s.workers && WorkerOk(env, s.db.tasks, s.first, s.contents, s.nextToken, s.workers[w])
    requires s.workers[w].pc == Journalling(h, bytes)
    ensures JournalStep(env, s, w, h, bytes).workers[w].pc
      == if Fenced(s.db, 0, h.token, h.generation) then Storing(h, bytes) else Failing(h)
  {
  }

  /** A worker is refused its journal entry exactly when it lost the lease; recovery never meets a different journal. */
  lemma HolderJournals(env: Env, s: Sys, w: nat, h: Holder, bytes: Bytes)
    requires Reached(env, s) && w in s.workers && s.workers[w].pc == Journalling(h, bytes)
    ensures JournalStep(env, s, w, h, bytes).workers[w].pc
      == if Fenced(s.db, 0, h.token, h.generation) then Storing(h, bytes) else Failing(h)
  {
    ReachedOk(env, s);
    JournalAccepts(env, s, w, h, bytes);
  }

  lemma CompletionDecides(env: Env, s: Sys, w: nat, h: Holder, bytes: Bytes, fileId: nat)
    requires TasksOk(s.db.status, s.db.tasks, s.db.signings) && CollisionFree(env.sha) && w in s.workers
    requires WorkerOk(env, s.db.tasks, s.first, s.contents, s.nextToken, s.workers[w])
    requires s.workers[w].pc == Completing(h, bytes) && Fenced(s.db, 0, h.token, h.generation)
    ensures STAGE in s.first && bytes == s.first[STAGE]
    ensures CompletesUnlessFull(env, s.db, s.workers[w].job, h, bytes, fileId)
  {
  }

  /** The completion of a lease holder with the right bytes, and the two reasons to refuse it. */
  ghost predicate CompletesUnlessFull(env: Env, db: Db, job: Job, h: Holder, bytes: Bytes, fileId: nat) {
    var (outcome, after) := CompleteTask(env, db, job, h.token, h.generation, CompletionOf(env, bytes, fileId));
    var full := RetainedBytes(db.files, db.signings) + |bytes| > MAX_CASE_BYTES;
    var taken := KeyTaken(db.files, ContentKey(env.sha(bytes)));
    if full then outcome == CompleteRefused(CapacityExceeded) && after == db
    else if taken then outcome == CompleteRefused(StorageKeyTaken) && after == db
    else outcome == Complete(|db.files|, |db.outbox|)
  }

  /** With a collision-free hash, completion by the lease holder fails only for capacity or a taken storage key. */
  lemma HolderCompletes(env: Env, s: Sys, w: nat, h: Holder, bytes: Bytes, fileId: nat)
    requires Reached(env, s) && CollisionFree(env.sha) && w in s.workers && s.workers[w].pc == Completing(h, bytes)
    requires Fenced(s.db, 0, h.token, h.generation)
    ensures STAGE in s.first && bytes == s.first[STAGE]
    ensures CompletesUnlessFull(env, s.db, s.workers[w].job, h, bytes, fileId)
  {
    ReachedOk(env, s);
    assert WorkerOk(env, s.db.tasks, s.first, s.contents, s.nextToken, s.workers[w]);
    CompletionDecides(env, s, w, h, bytes, fileId);
  }

  // ---------------------------------------------------------------- the fence

  /** Nothing a holder of this token and generation sends is recorded. */
  ghost predicate Powerless(env: Env, db: Db, job: Job, token: nat, generation: int) {
    && (forall entry :: JournalPending(db, job.task, token, generation, entry).Err?)
    && (forall c :: CompleteTask(env, db, job, token, generation, c).1 == db
                    && !CompleteTask(env, db, job, token, generation, c).0.Complete?)
    && (forall terminal, reason :: FailAttempt(db, job.task, token, generation, terminal, reason) == db)
  }

  /** Past the fence a stale holder's journal, completion and failure leave every row as it was. */
  lemma StaleHolderChangesNothing(
    env: Env, db: Db, job: Job, token: nat, generation: int, entry: Journal, c: Completion, terminal: bool,
    reason: string)
    requires !Fenced(db, job.task, token, generation)
    ensures JournalPending(db, job.task, token, generation, entry) == Err(JournalFencingRejected)
    ensures CompleteTask(env, db, job, token, generation, c).1 == db
    ensures !CompleteTask(env, db, job, token, generation, c).0.Complete?
    ensures FailAttempt(db, job.task, token, generation, terminal, reason) == db
  {
  }

  lemma UnfencedIsPowerless(env: Env, db: Db, job: Job, token: nat, generation: int)
    requires !Fenced(db, job.task, token, generation)
    ensures Powerless(env, db, job, token, generation)
  {
    forall c
      ensures CompleteTask(env, db, job, token, generation, c).1 == db
      ensures !CompleteTask(env, db, job, token, generation, c).0.Complete?
    {
      StaleHolderChangesNothing(env, db, job, token, generation, Journal(STAGE, "", 0), c, true, "");
    }
    forall terminal, reason
      ensures FailAttempt(db, job.task, token, generation, terminal, reason) == db
    {
    }
  }

  /** At most one worker passes the fence at any time. */
  lemma OneHolder(env: Env, s: Sys, a: nat, b: nat, generationA: int, generationB: int)
    requires Reached(env, s) && a in s.workers && b in s.workers
    requires TokenOf(s.workers[a].pc).Some? && Fenced(s.db, 0, TokenOf(s.workers[a].pc).value, generationA)
    requires TokenOf(s.workers[b].pc).Some? && Fenced(s.db, 0, TokenOf(s.workers[b].pc).value, generationB)
    ensures a == b
  {
    ReachedOk(env, s);
  }

  /** A worker that lost its lease stays stale: nothing it sends later passes the fence, and no row changes. */
  lemma StaleForEver(env: Env, s: Sys, more: seq<Step>, w: nat, generation: int)
    requires Reached(env, s) && w in s.workers && TokenOf(s.workers[w].pc).Some?
    requires s.db.tasks != [] && s.db.tasks[0].lease != TokenOf(s.workers[w].pc)
    ensures !Fenced(Run(env, s, more).db, 0, TokenOf(s.workers[w].pc).value, generation)
    ensures Powerless(env, Run(env, s, more).db, Job(0, env.caseId, 1), TokenOf(s.workers[w].pc).value, generation)
  {
    var token := TokenOf(s.workers[w].pc).value;
    assert Lost(Run(env, s, more), token) by {
      ReachedOk(env, s);
      assert WorkerOk(env, s.db.tasks, s.first, s.contents, s.nextToken, s.workers[w]);
      RunQuiet(env, s, more, token);
    }
    UnfencedIsPowerless(env, Run(env, s, more).db, Job(0, env.caseId, 1), token, generation);
  }

  // ---------------------------------------------------------------- accounting

  lemma Accounting(env: Env, s: Sys)
    requires Reached(env, s) && s.db.tasks != []
    ensures var t := s.db.tasks[0];
      && t.maxAttempts == 3
      && t.attempts <= t.maxAttempts && t.claimGeneration == t.maxAttempts * t.queueGeneration + t.attempts
      && (t.status == Processing <==> t.lease.Some?)
      && (t.status == Queued ==> t.attempts < t.maxAttempts) && (t.status == Failed ==> t.attempts == t.maxAttempts)
  {
    ReachedOk(env, s);
  }

  function Generation(tasks: seq<PdfTask>): nat { if tasks == [] then 0 else tasks[0].claimGeneration }

  /** The step is a delivery whose claim succeeds. */
  predicate Claims(env: Env, s: Sys, step: Step) {
    && step.Advance? && step.worker in s.workers && s.workers[step.worker].pc.Claiming?
    && Claim(env, s.db, s.now, s.workers[step.worker].job, s.nextToken).0.Claimed?
  }

  function ClaimsIn(env: Env, s: Sys, steps: seq<Step>): nat {
    if steps == [] then 0
    else
      var front := steps[..|steps| - 1];
      ClaimsIn(env, s, front) + if Claims(env, Run(env, s, front), steps[|steps| - 1]) then 1 else 0
  }

  lemma ClaimCounts(env: Env, db: Db, now: nat, job: Job, token: nat)
    requires TasksOk(db.status, db.tasks, db.signings)
    ensures var (outcome, after) := Claim(env, db, now, job, token);
      Generation(after.tasks) == Generation(db.tasks) + if outcome.Claimed? then 1 else 0
  {
  }

  lemma LeaseStepCounts(env: Env, s: Sys, w: nat)
    requires TasksOk(s.db.status, s.db.tasks, s.db.signings) && w in s.workers && OnLease(s.workers[w].pc)
    ensures Generation(GoLease(env, s, w).db.tasks) == Generation(s.db.tasks)
      + if s.workers[w].pc.Claiming? && Claim(env, s.db, s.now, s.workers[w].job, s.nextToken).0.Claimed? then 1 else 0
  {
    if s.workers[w].pc.Claiming? {
      ClaimCounts(env, s.db, s.now, s.workers[w].job, s.nextToken);
    }
  }

  lemma CompleteCounts(env: Env, db: Db, job: Job, token: nat, generation: int, c: Completion)
    requires TasksOk(db.status, db.tasks, db.signings)
    ensures Generation(CompleteTask(env, db, job, token, generation, c).1.tasks) == Generation(db.tasks)
  {
  }

  lemma RecordStepCounts(env: Env, s: Sys, w: nat, input: Input)
    requires TasksOk(s.db.status, s.db.tasks, s.db.signings) && w in s.workers
    ensures Generation(GoRecord(env, s, w, input).db.tasks) == Generation(s.db.tasks)
  {
    match s.workers[w].pc
    case Completing(h, bytes) =>
      CompleteCounts(env, s.db, s.workers[w].job, h.token, h.generation, CompletionOf(env, bytes, input.fileId));
    case _ =>
  }

  lemma StepCounts(env: Env, s: Sys, step: Step)
    requires SysOk(env, s)
    ensures Generation(Apply(env, s, step).db.tasks) == Generation(s.db.tasks) + if Claims(env, s, step) then 1 else 0
  {
    if step.Case? {
      TxSettles(env, s.now, s.db, step.tx);
    } else if step.Advance? && step.worker in s.workers {
      var w, pc := step.worker, s.workers[step.worker].pc;
      if OnLease(pc) {
        LeaseStepCounts(env, s, w);
      } else if OnRead(pc) {
        GoReadTouches(env, s, w);
      } else if OnStage(pc) {
        GoStageTouches(env, s, w, step.input);
      } else if OnStore(pc) {
        GoStoreTouches(env, s, w);
      } else {
        RecordStepCounts(env, s, w, step.input);
      }
    }
  }

  lemma {:induction false} RunCounts(env: Env, s: Sys, steps: seq<Step>)
    requires SysOk(env, s)
    ensures Generation(Run(env, s, steps).db.tasks) == Generation(s.db.tasks) + ClaimsIn(env, s, steps)
    decreases |steps|
  {
    if steps != [] {
      RunCounts(env, s, steps[..|steps| - 1]);
      RunKeeps(env, s, steps[..|steps| - 1]);
      StepCounts(env, Run(env, s, steps[..|steps| - 1]), steps[|steps| - 1]);
    }
  }

  /**
   The task paid for exactly this many claims: a full set of attempts per render retry, and the attempts of the
   current set.
   */
  ghost predicate Paid(t: PdfTask, n: PdfTask, claims: nat) {
    && t.queueGeneration <= n.queueGeneration
    && claims == t.maxAttempts * (n.queueGeneration - t.queueGeneration) + n.attempts - t.attempts
    && (n.queueGeneration == t.queueGeneration ==> claims <= t.maxAttempts - t.attempts)
  }

  lemma PaidClaims(t: PdfTask, n: PdfTask, claims: nat)
    requires AccountOk([t]) && AccountOk([n]) && TaskGrows(t, n) && n.attempts <= n.maxAttempts
    requires n.claimGeneration == t.claimGeneration + claims
    ensures Paid(t, n, claims)
  {
    assert [t][0] == t && [n][0] == n;
    assert t.maxAttempts * (n.queueGeneration - t.queueGeneration)
      == t.maxAttempts * n.queueGeneration - t.maxAttempts * t.queueGeneration;
  }

  lemma ClaimsPaid(env: Env, s: Sys, later: Sys, claims: nat)
    requires TasksOk(s.db.status, s.db.tasks, s.db.signings) && AccountOk(s.db.tasks) && s.db.tasks != []
    requires TasksOk(later.db.status, later.db.tasks, later.db.signings) && AccountOk(later.db.tasks)
    requires TasksGrow(s.db.tasks, later.db.tasks)
    requires Generation(later.db.tasks) == Generation(s.db.tasks) + claims
    ensures later.db.tasks != [] && Paid(s.db.tasks[0], later.db.tasks[0], claims)
  {
    var t, n := s.db.tasks[0], later.db.tasks[0];
    assert TaskGrows(t, n);
    assert s.db.tasks == [t] && later.db.tasks == [n];
    PaidClaims(t, n, claims);
  }

  /** Between two states every claim is paid for by render retries and attempts; without a retry they are bounded. */
  lemma ClaimsBounded(env: Env, s: Sys, more: seq<Step>)
    requires Reached(env, s) && s.db.tasks != []
    ensures var next := Run(env, s, more).db.tasks; next != [] && Paid(s.db.tasks[0], next[0], ClaimsIn(env, s, more))
  {
    ReachedOk(env, s);
    RunKeeps(env, s, more);
    RunCounts(env, s, more);
    RunGrows(env, s, more);
    ClaimsPaid(env, s, Run(env, s, more), ClaimsIn(env, s, more));
  }
}
