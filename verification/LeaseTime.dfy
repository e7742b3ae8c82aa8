/**
 The lease against the clock. A claim is safe from every other delivery for forty-five seconds, counted from the moment
 it was made, and open to a takeover from then on.
 */
module LeaseTime {
  import opened Common
  import opened CaseModel
  import opened CaseTransactions
  import opened PdfTransactions
  import opened CaseInvariants
  import opened System
  import opened SystemInvariants
  import opened SystemProofs
  import opened WorkerProofs
  import opened Leases
  import opened PdfTheorems
  import opened PdfProgress

  // ---------------------------------------------------------------- one delivery

  /** Forty-five seconds, the start included, during which nobody else may take the task. */
  predicate Running(t: PdfTask, now: nat) {
    t.status == Processing && t.startedAt.Some? && now <= t.startedAt.value + 45
  }

  lemma RunningIsSafe(env: Env, db: Db, now: nat, job: Job, token: nat)
    requires |db.tasks| <= 1 && db.tasks != [] && Running(db.tasks[0], now)
    ensures Claim(env, db, now, job, token).0 != Claimed && Claim(env, db, now, job, token).1 == db
  {
  }

  /** While a claim is running no delivery of whatever job takes the task, and none changes a row. */
  lemma NoTakeoverWhileRunning(env: Env, s: Sys, job: Job, token: nat)
    requires Reached(env, s) && s.db.tasks != [] && Running(s.db.tasks[0], s.now)
    ensures Claim(env, s.db, s.now, job, token).0 != Claimed && Claim(env, s.db, s.now, job, token).1 == s.db
  {
    ReachedOk(env, s);
    RunningIsSafe(env, s.db, s.now, job, token);
  }

  /** The task waits for a worker: queued, or claimed longer ago than forty-five seconds, with attempts left. */
  predicate Takeable(t: PdfTask, now: nat) {
    && t.attempts < t.maxAttempts
    && (t.status == Queued || (t.status == Processing && !Running(t, now)))
  }

  /** The last attempt ran out with its lease. */
  predicate UsedUp(t: PdfTask, now: nat) {
    t.attempts >= t.maxAttempts && t.status == Processing && !Running(t, now)
  }

  /** A delivery of the case's own job, while the case is being finalized under a valid signature. */
  predicate Due(env: Env, db: Db, job: Job) {
    && job == Job(0, env.caseId, 1) && db.status == Finalizing && db.tasks != []
    && 1 <= db.tasks[0].signatureVersion <= |db.signings| && db.signings[db.tasks[0].signatureVersion - 1].valid
  }

  lemma ClaimAt(env: Env, db: Db, now: nat, job: Job, token: nat)
    requires TasksOk(db.status, db.tasks, db.signings)
    ensures var (outcome, after) := Claim(env, db, now, job, token);
      && (outcome == Claimed <==> Due(env, db, job) && Takeable(db.tasks[0], now))
      && (after == db <==> !(Due(env, db, job) && (Takeable(db.tasks[0], now) || UsedUp(db.tasks[0], now))))
  {
    var (outcome, after) := Claim(env, db, now, job, token);
    if outcome == Claimed {
      assert after.tasks[0].claimGeneration == db.tasks[0].claimGeneration + 1;
    } else if after != db {
      assert after.tasks[0].status == Failed;
    }
    if Due(env, db, job) && UsedUp(db.tasks[0], now) {
      assert after.tasks[0].status == Failed;
    }
  }

  /**
   A delivery is claimed exactly when it is due and nobody else's, and changes a row only then, or when it finds the
   last attempt used up.
   */
  lemma ClaimExactly(env: Env, s: Sys, job: Job, token: nat)
    requires Reached(env, s)
    ensures var (outcome, after) := Claim(env, s.db, s.now, job, token);
      && (outcome == Claimed <==> Due(env, s.db, job) && Takeable(s.db.tasks[0], s.now))
      && (after == s.db
          <==> !(Due(env, s.db, job) && (Takeable(s.db.tasks[0], s.now) || UsedUp(s.db.tasks[0], s.now))))
  {
    ReachedOk(env, s);
    ClaimAt(env, s.db, s.now, job, token);
  }

  // ---------------------------------------------------------------- the holder over a run

  /** Worker `w` still carries this token: it has not recorded a failure, completed, stopped or crashed. */
  predicate Carries(s: Sys, w: nat, token: nat) { w in s.workers && TokenOf(s.workers[w].pc) == Some(token) }

  /** The task is claimed under this token since `start`, and its fence lets the holder pass. */
  predicate HoldsSince(db: Db, token: nat, generation: int, start: nat) {
    Fenced(db, 0, token, generation) && db.tasks[0].startedAt == Some(start)
  }

  /** What a case transaction leaves of a running claim: all of it. */
  lemma TxLeavesClaim(env: Env, now: nat, db: Db, tx: Tx, token: nat, generation: int, start: nat)
    requires TasksOk(db.status, db.tasks, db.signings) && AccountOk(db.tasks)
    requires HoldsSince(db, token, generation, start)
    ensures HoldsSince(TxDb(env, db, now, tx), token, generation, start)
  {
    match tx
    case OfLink(t) => LinkTxTouches(db, now, t);
    case OfClient(t) => ClientTxTouches(env, db, now, t);
    case OfFile(t) => FileTxTouches(env, db, now, t);
    case OfReview(t) => ReviewLeavesClaim(env, db, t);
    case OfPdf(t) => PdfLeavesClaim(env, db, t);
  }

  lemma ReviewLeavesClaim(env: Env, db: Db, tx: ReviewTx)
    requires TasksOk(db.status, db.tasks, db.signings) && db.tasks != []
    ensures ReviewDb(env, db, tx).tasks == db.tasks
  {
  }

  lemma PdfLeavesClaim(env: Env, db: Db, tx: PdfTx)
    requires TasksOk(db.status, db.tasks, db.signings) && db.tasks != [] && db.tasks[0].status == Processing
    ensures PdfDb(env, db, tx).tasks == db.tasks
  {
  }

  /** A step of another worker leaves a running claim alone. */
  lemma LeaseLeavesClaim(env: Env, s: Sys, v: nat, token: nat, generation: int, start: nat)
    requires |s.db.tasks| <= 1 && v in s.workers && !Carries(s, v, token)
    requires HoldsSince(s.db, token, generation, start) && s.now <= start + 45
    ensures HoldsSince(GoLease(env, s, v).db, token, generation, start)
  {
    match s.workers[v].pc
    case Claiming => RunningIsSafe(env, s.db, s.now, s.workers[v].job, s.nextToken);
    case _ =>
  }

  lemma JournalLeavesClaim(env: Env, s: Sys, v: nat, h: Holder, bytes: Bytes, token: nat, generation: int, start: nat)
    requires |s.db.tasks| <= 1 && v in s.workers && HoldsSince(s.db, token, generation, start)
    ensures HoldsSince(JournalStep(env, s, v, h, bytes).db, token, generation, start)
  {
  }

  lemma CompleteLeavesClaim(
    env: Env, s: Sys, v: nat, h: Holder, bytes: Bytes, fileId: nat, token: nat, generation: int, start: nat)
    requires |s.db.tasks| <= 1 && v in s.workers && HoldsSince(s.db, token, generation, start)
    requires s.workers[v].pc == Completing(h, bytes)
    requires Carries(CompleteStep(env, s, v, h, bytes, fileId), v, token) || !Carries(s, v, token)
    ensures HoldsSince(CompleteStep(env, s, v, h, bytes, fileId).db, token, generation, start)
  {
  }

  lemma RecordLeavesClaim(env: Env, s: Sys, v: nat, input: Input, token: nat, generation: int, start: nat)
    requires |s.db.tasks| <= 1 && v in s.workers && HoldsSince(s.db, token, generation, start)
    requires Carries(GoRecord(env, s, v, input), v, token) || !Carries(s, v, token)
    ensures HoldsSince(GoRecord(env, s, v, input).db, token, generation, start)
  {
    match s.workers[v].pc
    case Journalling(h, bytes) => JournalLeavesClaim(env, s, v, h, bytes, token, generation, start);
    case Completing(h, bytes) => CompleteLeavesClaim(env, s, v, h, bytes, input.fileId, token, generation, start);
    case _ =>
  }

  /** The holder's own steps, as long as it carries its token on. */
  lemma OwnLeaseLeavesClaim(env: Env, s: Sys, w: nat, token: nat, generation: int, start: nat)
    requires w in s.workers && Carries(s, w, token) && Carries(GoLease(env, s, w), w, token)
    requires HoldsSince(s.db, token, generation, start)
    ensures HoldsSince(GoLease(env, s, w).db, token, generation, start)
  {
    match s.workers[w].pc
    case Aborting(_, g, terminal) => assert FailStep(s, w, token, g, terminal).workers[w].pc == Stopped;
    case Failing(h) =>
      assert FailStep(s, w, token, h.generation, h.attempts >= h.maxAttempts).workers[w].pc == Stopped;
    case _ =>
  }

  lemma GoLeavesClaim(env: Env, s: Sys, v: nat, input: Input, token: nat, generation: int, start: nat)
    requires |s.db.tasks| <= 1 && v in s.workers
    requires HoldsSince(s.db, token, generation, start) && s.now <= start + 45
    requires Carries(Go(env, s, v, input), v, token) || !Carries(s, v, token)
    ensures HoldsSince(Go(env, s, v, input).db, token, generation, start)
  {
    var pc := s.workers[v].pc;
    if OnLease(pc) {
      if Carries(s, v, token) {
        OwnLeaseLeavesClaim(env, s, v, token, generation, start);
      } else {
        LeaseLeavesClaim(env, s, v, token, generation, start);
      }
    } else if OnRead(pc) {
      GoReadTouches(env, s, v);
    } else if OnStage(pc) {
      GoStageTouches(env, s, v, input);
    } else if OnStore(pc) {
      GoStoreTouches(env, s, v);
    } else {
      RecordLeavesClaim(env, s, v, input, token, generation, start);
    }
  }

  /** One step: whoever still carries the token afterwards still passes the fence. */
  lemma StepLeavesClaim(env: Env, s: Sys, step: Step, w: nat, token: nat, generation: int, start: nat)
    requires TasksOk(s.db.status, s.db.tasks, s.db.signings) && AccountOk(s.db.tasks)
    requires TokensDistinct(s.workers) && Carries(s, w, token)
    requires HoldsSince(s.db, token, generation, start) && s.now <= start + 45
    requires Carries(Apply(env, s, step), w, token)
    ensures HoldsSince(Apply(env, s, step).db, token, generation, start)
  {
    if step.Case? {
      TxLeavesClaim(env, s.now, s.db, step.tx, token, generation, start);
    } else if step.Advance? && step.worker in s.workers {
      GoLeavesClaim(env, s, step.worker, step.input, token, generation, start);
    }
  }

  /** A token somebody carries now was carried by the same worker before, unless it was handed out just now. */
  lemma CarriedBefore(env: Env, s: Sys, step: Step, w: nat, token: nat)
    requires token < s.nextToken && Carries(Apply(env, s, step), w, token)
    ensures Carries(s, w, token)
  {
    if step.Advance? && step.worker in s.workers {
      GoCarries(env, s, step.worker, step.input, w, token);
    }
  }

  lemma GoCarries(env: Env, s: Sys, v: nat, input: Input, w: nat, token: nat)
    requires v in s.workers && token < s.nextToken && Carries(Go(env, s, v, input), w, token)
    ensures Carries(s, w, token)
  {
    var pc := s.workers[v].pc;
    if OnLease(pc) {
      LeasePasses(env, s, v);
    } else if OnRead(pc) {
      ReadPasses(env, s, v);
    } else if OnStage(pc) {
      StagePasses(env, s, v, input);
    } else if OnStore(pc) {
      StorePasses(env, s, v);
    } else {
      RecordPasses(env, s, v, input);
    }
  }

  /** Worker `v` moved on with its own token, a new one, or none. */
  ghost predicate Passes(s: Sys, after: Sys, v: nat)
    requires v in s.workers
  {
    && s.now == after.now && s.nextToken <= after.nextToken && v in after.workers
    && after.workers == s.workers[v := s.workers[v].(pc := after.workers[v].pc)]
    && var next := TokenOf(after.workers[v].pc);
       next.None? || next == TokenOf(s.workers[v].pc) || next == Some(s.nextToken)
  }

  lemma ClaimPasses(env: Env, s: Sys, v: nat)
    requires v in s.workers
    ensures Passes(s, ClaimStep(env, s, v), v)
  {
  }

  lemma LeasePasses(env: Env, s: Sys, v: nat)
    requires v in s.workers && OnLease(s.workers[v].pc)
    ensures Passes(s, GoLease(env, s, v), v)
  {
    if s.workers[v].pc.Claiming? {
      ClaimPasses(env, s, v);
    }
  }

  lemma ReadPasses(env: Env, s: Sys, v: nat)
    requires v in s.workers && OnRead(s.workers[v].pc)
    ensures Passes(s, GoRead(env, s, v), v)
  {
  }

  lemma StagePasses(env: Env, s: Sys, v: nat, input: Input)
    requires v in s.workers && OnStage(s.workers[v].pc)
    ensures Passes(s, GoStage(env, s, v, input), v)
  {
  }

  lemma StorePasses(env: Env, s: Sys, v: nat)
    requires v in s.workers && OnStore(s.workers[v].pc)
    ensures Passes(s, GoStore(env, s, v), v)
  {
  }

  lemma RecordPasses(env: Env, s: Sys, v: nat, input: Input)
    requires v in s.workers
    ensures GoRecord(env, s, v, input) == s || Passes(s, GoRecord(env, s, v, input), v)
  {
    match s.workers[v].pc
    case Completing(h, bytes) => CompletePasses(env, s, v, h, bytes, input.fileId);
    case _ =>
  }

  lemma CompletePasses(env: Env, s: Sys, v: nat, h: Holder, bytes: Bytes, fileId: nat)
    requires v in s.workers && s.workers[v].pc == Completing(h, bytes)
    ensures Passes(s, CompleteStep(env, s, v, h, bytes, fileId), v)
  {
  }

  lemma GoTime(env: Env, s: Sys, v: nat, input: Input)
    requires v in s.workers
    ensures s.now == Go(env, s, v, input).now && s.nextToken <= Go(env, s, v, input).nextToken
  {
    var pc := s.workers[v].pc;
    if OnLease(pc) {
      LeasePasses(env, s, v);
    } else if OnRead(pc) {
      ReadPasses(env, s, v);
    } else if OnStage(pc) {
      StagePasses(env, s, v, input);
    } else if OnStore(pc) {
      StorePasses(env, s, v);
    } else {
      RecordPasses(env, s, v, input);
    }
  }

  lemma NowGrows(env: Env, s: Sys, step: Step)
    ensures s.now <= Apply(env, s, step).now && s.nextToken <= Apply(env, s, step).nextToken
  {
    if step.Advance? && step.worker in s.workers {
      GoTime(env, s, step.worker, step.input);
    }
  }

  /**
   For forty-five seconds a claim is its worker's alone: in every later state with a clock within them, a worker that
   has neither recorded a failure, nor completed, stopped or crashed, passes the fence.
   */
  lemma {:induction false} HolderKeepsFence(
    env: Env, s: Sys, more: seq<Step>, w: nat, token: nat, generation: int, start: nat)
    requires SysOk(env, s) && Carries(s, w, token) && HoldsSince(s.db, token, generation, start)
    requires Run(env, s, more).now <= start + 45 && Carries(Run(env, s, more), w, token)
    ensures HoldsSince(Run(env, s, more).db, token, generation, start)
    decreases |more|
  {
    if more != [] {
      var before, last := Run(env, s, more[..|more| - 1]), more[|more| - 1];
      NowGrows(env, before, last);
      CarriedTillThen(env, s, more[..|more| - 1], last, w, token);
      HolderKeepsFence(env, s, more[..|more| - 1], w, token, generation, start);
      RunKeeps(env, s, more[..|more| - 1]);
      StepLeavesClaim(env, before, last, w, token, generation, start);
    }
  }

  lemma CarriedIsOld(env: Env, s: Sys, w: nat, token: nat)
    requires WorkersOk(env, s.db.tasks, s.first, s.contents, s.nextToken, s.workers) && Carries(s, w, token)
    ensures token < s.nextToken
  {
    assert WorkerOk(env, s.db.tasks, s.first, s.contents, s.nextToken, s.workers[w]);
  }

  lemma CarriedTillThen(env: Env, s: Sys, front: seq<Step>, last: Step, w: nat, token: nat)
    requires SysOk(env, s) && Carries(s, w, token) && Carries(Apply(env, Run(env, s, front), last), w, token)
    ensures Carries(Run(env, s, front), w, token)
  {
    CarriedIsOld(env, s, w, token);
    TokensGrow(env, s, front);
    CarriedBefore(env, Run(env, s, front), last, w, token);
  }

  lemma {:induction false} TokensGrow(env: Env, s: Sys, steps: seq<Step>)
    ensures s.nextToken <= Run(env, s, steps).nextToken
    decreases |steps|
  {
    if steps != [] {
      TokensGrow(env, s, steps[..|steps| - 1]);
      NowGrows(env, Run(env, s, steps[..|steps| - 1]), steps[|steps| - 1]);
    }
  }

  /** The delivery of worker `w` is about to be claimed. */
  ghost predicate ClaimsNow(env: Env, s: Sys, w: nat) {
    && w in s.workers && s.workers[w].pc == Claiming
    && Claim(env, s.db, s.now, s.workers[w].job, s.nextToken).0 == Claimed
  }

  lemma ClaimStarts(env: Env, s: Sys, w: nat)
    requires TasksOk(s.db.status, s.db.tasks, s.db.signings) && ClaimsNow(env, s, w)
    ensures var after := ClaimStep(env, s, w);
      && Carries(after, w, s.nextToken) && after.db.tasks != []
      && HoldsSince(after.db, s.nextToken, after.db.tasks[0].claimGeneration, s.now)
  {
  }

  lemma ClaimingApplies(env: Env, s: Sys, w: nat, input: Input)
    requires w in s.workers && s.workers[w].pc == Claiming
    ensures Apply(env, s, Advance(w, input)) == ClaimStep(env, s, w)
  {
  }

  lemma ClaimingStarts(env: Env, s: Sys, w: nat, input: Input)
    requires Reached(env, s) && ClaimsNow(env, s, w)
    ensures var after := Apply(env, s, Advance(w, input));
      && SysOk(env, after) && Carries(after, w, s.nextToken) && after.db.tasks != []
      && HoldsSince(after.db, s.nextToken, after.db.tasks[0].claimGeneration, s.now)
  {
    assert TasksOk(s.db.status, s.db.tasks, s.db.signings) by {
      ReachedOk(env, s);
    }
    ClaimStarts(env, s, w);
    ClaimingApplies(env, s, w, input);
    assert SysOk(env, Apply(env, s, Advance(w, input))) by {
      ReachedNext(env, s, Advance(w, input));
      ReachedOk(env, Apply(env, s, Advance(w, input)));
    }
  }

  /** So a claim made at some time is safe until forty-five seconds after that very time. */
  lemma ClaimIsSafe(env: Env, s: Sys, w: nat, input: Input, more: seq<Step>)
    requires Reached(env, s) && ClaimsNow(env, s, w)
    requires var later := Run(env, Apply(env, s, Advance(w, input)), more);
      later.now <= s.now + 45 && Carries(later, w, s.nextToken)
    ensures var later := Run(env, Apply(env, s, Advance(w, input)), more);
      && later.db.tasks != [] && later.db.tasks[0].status == Processing
      && later.db.tasks[0].lease == Some(s.nextToken) && later.db.tasks[0].startedAt == Some(s.now)
  {
    var after := Apply(env, s, Advance(w, input));
    ClaimingStarts(env, s, w, input);
    HolderKeepsFence(env, after, more, w, s.nextToken, after.db.tasks[0].claimGeneration, s.now);
  }
}
