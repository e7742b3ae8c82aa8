/** Every step of a render worker keeps `SysOk`, at whatever await the other workers stand. */
module WorkerProofs {
  import opened Common
  import opened CaseModel
  import opened CaseTransactions
  import opened PdfTransactions
  import opened CaseInvariants
  import opened CaseProofs
  import opened PdfProofs
  import opened System
  import opened SystemInvariants
  import opened SystemProofs

  // ---------------------------------------------------------------- the worker alone moves

  ghost predicate TokenKept(pc: Pc, next: Pc) {
    TokenOf(next).None? || TokenOf(next) == TokenOf(pc)
  }

  lemma PcMoves(env: Env, s: Sys, w: nat, pc: Pc)
    requires ProtocolOk(env, s) && w in s.workers && TokenKept(s.workers[w].pc, pc)
    requires WorkerOk(env, s.db.tasks, s.first, s.contents, s.nextToken, s.workers[w].(pc := pc))
    ensures ProtocolOk(env, At(s, w, pc))
  {
    WorkerMoved(env, s, At(s, w, pc), w, pc);
  }

  /** A holder may always stop, or go on to record its failure. */
  lemma HolderGivesUp(env: Env, s: Sys, w: nat, h: Holder, bytes: Bytes)
    requires ProtocolOk(env, s) && w in s.workers
    requires s.workers[w].pc == Journalling(h, bytes) || s.workers[w].pc == Completing(h, bytes)
    ensures ProtocolOk(env, At(s, w, Failing(h))) && ProtocolOk(env, At(s, w, Stopped))
  {
    FailingOk(env, s.db.tasks, s.first, s.contents, s.nextToken, s.workers[w], h, bytes);
    PcMoves(env, s, w, Failing(h));
    PcMoves(env, s, w, Stopped);
  }

  lemma FailingOk(
    env: Env, tasks: seq<PdfTask>, first: map<StageKey, Bytes>, contents: map<Digest, Bytes>, nextToken: nat, w: Worker,
    h: Holder, bytes: Bytes)
    requires WorkerOk(env, tasks, first, contents, nextToken, w)
    requires w.pc == Journalling(h, bytes) || w.pc == Completing(h, bytes)
    ensures WorkerOk(env, tasks, first, contents, nextToken, w.(pc := Failing(h))) && TokenKept(w.pc, Failing(h))
  {
  }

  lemma ThrowKeeps(env: Env, s: Sys, w: nat)
    requires ProtocolOk(env, s) && w in s.workers
    ensures ProtocolOk(env, At(s, w, Thrown(s.workers[w].pc)))
  {
    ThrownOk(env, s.db.tasks, s.first, s.contents, s.nextToken, s.workers[w]);
    PcMoves(env, s, w, Thrown(s.workers[w].pc));
  }

  lemma ThrownOk(
    env: Env, tasks: seq<PdfTask>, first: map<StageKey, Bytes>, contents: map<Digest, Bytes>, nextToken: nat, w: Worker)
    requires WorkerOk(env, tasks, first, contents, nextToken, w)
    ensures WorkerOk(env, tasks, first, contents, nextToken, w.(pc := Thrown(w.pc))) && TokenKept(w.pc, Thrown(w.pc))
  {
  }

  lemma SpawnKeeps(env: Env, s: Sys, w: nat, job: Job)
    requires ProtocolOk(env, s) && w !in s.workers
    ensures ProtocolOk(env, s.(workers := s.workers[w := Worker(job, Claiming)]))
  {
  }

  lemma ReadTaskKeeps(env: Env, s: Sys, w: nat, token: nat)
    requires ProtocolOk(env, s) && w in s.workers && s.workers[w].pc == Leased(token)
    ensures ProtocolOk(env, ReadTaskStep(s, w, token))
  {
    assert WorkerOk(env, s.db.tasks, s.first, s.contents, s.nextToken, s.workers[w]);
    PcMoves(env, s, w, ReadTaskStep(s, w, token).workers[w].pc);
  }

  lemma ReadContentKeeps(env: Env, s: Sys, w: nat, h: Holder)
    requires ProtocolOk(env, s) && w in s.workers && s.workers[w].pc == Reading(h)
    ensures ProtocolOk(env, ReadContentStep(env, s, w, h))
  {
    PcMoves(env, s, w, Ready(h));
    PcMoves(env, s, w, ClaimAborting(h.token));
  }

  lemma PrepareAbortKeeps(env: Env, s: Sys, w: nat, token: nat)
    requires ProtocolOk(env, s) && w in s.workers && s.workers[w].pc == ClaimAborting(token)
    ensures ProtocolOk(env, PrepareAbortStep(s, w, token))
  {
    assert WorkerOk(env, s.db.tasks, s.first, s.contents, s.nextToken, s.workers[w]);
    PcMoves(env, s, w, PrepareAbortStep(s, w, token).workers[w].pc);
  }

  /** Where recovery and linking stand: the next bytes read are the staged ones. */
  predicate ReadsStaged(pc: Pc, h: Holder) { pc == Recovering(h) || pc == ReadingBack(h) }

  /** A lease holder reads back the first bytes ever staged. */
  lemma HolderReadsFirst(env: Env, s: Sys, w: Worker, h: Holder)
    requires StagedOk(env, s.db.tasks, s.staging, s.first) && TasksOk(s.db.status, s.db.tasks, s.db.signings)
    requires WorkerOk(env, s.db.tasks, s.first, s.contents, s.nextToken, w) && ReadsStaged(w.pc, h)
    requires KeyOf(w.job) in s.staging && |s.staging[KeyOf(w.job)]| <= MAX_FILE_BYTES
    ensures WorkerOk(env, s.db.tasks, s.first, s.contents, s.nextToken,
      w.(pc := Journalling(h, s.staging[KeyOf(w.job)])))
  {
  }

  lemma StagedIsRead(env: Env, s: Sys, w: nat, h: Holder)
    requires ProtocolOk(env, s) && TasksOk(s.db.status, s.db.tasks, s.db.signings)
    requires w in s.workers && ReadsStaged(s.workers[w].pc, h)
    requires KeyOf(s.workers[w].job) in s.staging && |s.staging[KeyOf(s.workers[w].job)]| <= MAX_FILE_BYTES
    ensures ProtocolOk(env, At(s, w, Journalling(h, s.staging[KeyOf(s.workers[w].job)])))
  {
    assert WorkerOk(env, s.db.tasks, s.first, s.contents, s.nextToken, s.workers[w]);
    HolderReadsFirst(env, s, s.workers[w], h);
    PcMoves(env, s, w, Journalling(h, s.staging[KeyOf(s.workers[w].job)]));
  }

  lemma ReadStagedKeeps(env: Env, s: Sys, w: nat, h: Holder)
    requires ProtocolOk(env, s) && TasksOk(s.db.status, s.db.tasks, s.db.signings)
    requires w in s.workers && ReadsStaged(s.workers[w].pc, h)
    ensures ProtocolOk(env, ReadStagedStep(s, w, h))
  {
    var key := KeyOf(s.workers[w].job);
    if key in s.staging && |s.staging[key]| <= MAX_FILE_BYTES {
      StagedIsRead(env, s, w, h);
    } else {
      PcMoves(env, s, w, Failing(h));
    }
  }

  lemma RereadKeeps(env: Env, s: Sys, w: nat, h: Holder, bytes: Bytes)
    requires ProtocolOk(env, s) && w in s.workers && s.workers[w].pc == Rereading(h, bytes)
    ensures ProtocolOk(env, RereadStep(env, s, w, h, bytes))
  {
    var sha := env.sha(bytes);
    if sha in s.contents && env.sha(s.contents[sha]) == sha && ReadablePdf(env, s.contents[sha]) {
      PcMoves(env, s, w, Completing(h, s.contents[sha]));
    } else {
      PcMoves(env, s, w, Failing(h));
    }
  }

  lemma ReadyKeeps(env: Env, s: Sys, w: nat, h: Holder)
    requires ProtocolOk(env, s) && w in s.workers && s.workers[w].pc == Ready(h)
    ensures ProtocolOk(env, At(s, w, Recovering(h))) && ProtocolOk(env, At(s, w, Rendering(h)))
  {
    PcMoves(env, s, w, Recovering(h));
    PcMoves(env, s, w, Rendering(h));
  }

  lemma RenderKeeps(env: Env, s: Sys, w: nat, h: Holder, bytes: Bytes)
    requires ProtocolOk(env, s) && w in s.workers && s.workers[w].pc == Rendering(h)
    ensures ProtocolOk(env, RenderStep(env, s, w, h, bytes))
  {
    PcMoves(env, s, w, if Stageable(env, bytes) then Linking(h, bytes) else Failing(h));
  }

  // ---------------------------------------------------------------- files

  lemma LinkKeepsStaged(
    env: Env, tasks: seq<PdfTask>, staging: map<StageKey, Bytes>, first: map<StageKey, Bytes>, bytes: Bytes)
    requires StagedOk(env, tasks, staging, first) && STAGE !in staging && tasks != [] && Stageable(env, bytes)
    requires tasks[0].status == Succeeded <==> tasks[0].output.Some?
    ensures StagedOk(env, tasks, staging[STAGE := bytes], if STAGE in first then first else first[STAGE := bytes])
  {
  }

  lemma LinkKeeps(env: Env, s: Sys, w: nat, h: Holder, bytes: Bytes)
    requires ProtocolOk(env, s) && TasksOk(s.db.status, s.db.tasks, s.db.signings)
    requires w in s.workers && s.workers[w].pc == Linking(h, bytes)
    ensures ProtocolOk(env, LinkStep(s, w, h, bytes))
  {
    assert WorkerOk(env, s.db.tasks, s.first, s.contents, s.nextToken, s.workers[w]);
    if STAGE !in s.staging {
      LinkKeepsStaged(env, s.db.tasks, s.staging, s.first, bytes);
    }
    WorkerMoved(env, s, LinkStep(s, w, h, bytes), w, ReadingBack(h));
  }

  /** The bytes being stored are readable and go under their own hash. */
  lemma StoredBytesOk(env: Env, s: Sys, w: nat, h: Holder, bytes: Bytes)
    requires WorkersOk(env, s.db.tasks, s.first, s.contents, s.nextToken, s.workers) && ContentsOk(env, s.contents)
    requires w in s.workers && s.workers[w].pc == Storing(h, bytes)
    ensures var contents := s.contents[env.sha(bytes) := bytes];
      && ContentsOk(env, contents)
      && WorkerOk(env, s.db.tasks, s.first, contents, s.nextToken, s.workers[w].(pc := Rereading(h, bytes)))
  {
    assert WorkerOk(env, s.db.tasks, s.first, s.contents, s.nextToken, s.workers[w]);
  }

  lemma StoreKeeps(env: Env, s: Sys, w: nat, h: Holder, bytes: Bytes)
    requires ProtocolOk(env, s) && w in s.workers && s.workers[w].pc == Storing(h, bytes)
    ensures ProtocolOk(env, StoreStep(env, s, w, h, bytes))
  {
    StoredBytesOk(env, s, w, h, bytes);
    var sha := env.sha(bytes);
    if sha !in s.contents {
      var after := At(s, w, Rereading(h, bytes)).(contents := s.contents[sha := bytes]);
      WorkerMoved(env, s, after, w, Rereading(h, bytes));
    } else {
      assert WorkerOk(env, s.db.tasks, s.first, s.contents, s.nextToken, s.workers[w].(pc := Rereading(h, bytes)));
      PcMoves(env, s, w, Rereading(h, bytes));
    }
  }

  /** Staged bytes are only ever removed once the task is done. */
  lemma UnstageKeeps(env: Env, s: Sys, w: nat)
    requires ProtocolOk(env, s) && w in s.workers && (s.workers[w].pc == Cleaning || s.workers[w].pc == Discarding)
    ensures ProtocolOk(env, Unstage(s, w))
  {
    assert WorkerOk(env, s.db.tasks, s.first, s.contents, s.nextToken, s.workers[w]);
    WorkerMoved(env, s, Unstage(s, w), w, Stopped);
  }

  // ---------------------------------------------------------------- database steps

  /** The rows and one worker's position changed, and the task's lease at most ended. */
  lemma TaskMoved(env: Env, s: Sys, db: Db, w: nat, pc: Pc)
    requires ProtocolOk(env, s) && w in s.workers && TokenKept(s.workers[w].pc, pc)
    requires TasksEvolve(s.db.tasks, db.tasks, s.nextToken) && AccountOk(db.tasks)
    requires StagedOk(env, db.tasks, s.staging, s.first)
    requires WorkerOk(env, db.tasks, s.first, s.contents, s.nextToken, s.workers[w].(pc := pc))
    requires db.tasks != [] && db.tasks[0].lease.Some? ==> s.db.tasks != [] && db.tasks[0].lease == s.db.tasks[0].lease
    ensures ProtocolOk(env, At(s, w, pc).(db := db))
  {
    WorkerMoved(env, s, At(s, w, pc).(db := db), w, pc);
  }

  lemma ClaimEvolves(env: Env, db: Db, now: nat, job: Job, token: nat)
    requires TasksOk(db.status, db.tasks, db.signings) && AccountOk(db.tasks)
    ensures var (outcome, after) := Claim(env, db, now, job, token);
      && TasksEvolve(db.tasks, after.tasks, token) && AccountOk(after.tasks)
      && (outcome.Claimed? || outcome.Duplicate? ==> after.tasks != [] && job == Job(0, env.caseId, 1))
      && (outcome.Claimed? ==> after.tasks[0].lease == Some(token))
      && (outcome.Duplicate? ==> after.tasks[0].status == Succeeded)
      && (after.tasks != [] && after.tasks[0].lease.Some? ==>
            || after.tasks[0].lease == db.tasks[0].lease
            || after.tasks[0].lease == Some(token))
  {
    if job.task < |db.tasks| {
      var t := db.tasks[0];
      var (outcome, after) := Claim(env, db, now, job, token);
      assert db.tasks == [t];
      if outcome.Claimed? {
        assert after.tasks == [t.(status := Processing, attempts := t.attempts + 1,
          claimGeneration := t.claimGeneration + 1, lease := Some(token), startedAt := Some(now))];
      } else if after != db {
        assert after.tasks == [FailTask(t, "PDF_PROCESSING_LEASE_EXPIRED_RETRY_EXHAUSTED")];
      }
    }
  }

  lemma ClaimKeepsStaged(env: Env, s: Sys, job: Job, token: nat)
    requires StagedOk(env, s.db.tasks, s.staging, s.first) && TasksOk(s.db.status, s.db.tasks, s.db.signings)
    ensures StagedOk(env, Claim(env, s.db, s.now, job, token).1.tasks, s.staging, s.first)
  {
  }

  lemma ClaimStepKeeps(env: Env, s: Sys, w: nat)
    requires ProtocolOk(env, s) && TasksOk(s.db.status, s.db.tasks, s.db.signings)
    requires w in s.workers && s.workers[w].pc == Claiming
    ensures ProtocolOk(env, ClaimStep(env, s, w))
  {
    var job, after := s.workers[w].job, ClaimStep(env, s, w);
    ClaimEvolves(env, s.db, s.now, job, s.nextToken);
    ClaimKeepsStaged(env, s, job, s.nextToken);
    WorkerMoved(env, s, after, w, after.workers[w].pc);
  }

  lemma JournalEvolves(env: Env, s: Sys, w: Worker, h: Holder, bytes: Bytes)
    requires StagedOk(env, s.db.tasks, s.staging, s.first) && AccountOk(s.db.tasks)
    requires TasksOk(s.db.status, s.db.tasks, s.db.signings)
    requires WorkerOk(env, s.db.tasks, s.first, s.contents, s.nextToken, w) && w.pc == Journalling(h, bytes)
    requires JournalPending(s.db, w.job.task, h.token, h.generation, Journal(KeyOf(w.job), env.sha(bytes), |bytes|)).Ok?
    requires ReadablePdf(env, bytes)
    ensures var after := JournalPending(s.db, w.job.task, h.token, h.generation,
      Journal(KeyOf(w.job), env.sha(bytes), |bytes|)).value;
      && TasksEvolve(s.db.tasks, after.tasks, s.nextToken) && AccountOk(after.tasks)
      && StagedOk(env, after.tasks, s.staging, s.first)
      && after.tasks != [] && after.tasks[0].lease == s.db.tasks[0].lease
      && WorkerOk(env, after.tasks, s.first, s.contents, s.nextToken, w.(pc := Storing(h, bytes)))
  {
  }

  lemma JournalStepKeeps(env: Env, s: Sys, w: nat, h: Holder, bytes: Bytes)
    requires ProtocolOk(env, s) && TasksOk(s.db.status, s.db.tasks, s.db.signings)
    requires w in s.workers && s.workers[w].pc == Journalling(h, bytes)
    ensures ProtocolOk(env, JournalStep(env, s, w, h, bytes))
  {
    var job := s.workers[w].job;
    var r := JournalPending(s.db, job.task, h.token, h.generation, Journal(KeyOf(job), env.sha(bytes), |bytes|));
    if r.Ok? && ReadablePdf(env, bytes) {
      assert WorkerOk(env, s.db.tasks, s.first, s.contents, s.nextToken, s.workers[w]);
      JournalEvolves(env, s, s.workers[w], h, bytes);
      TaskMoved(env, s, r.value, w, Storing(h, bytes));
    } else {
      HolderGivesUp(env, s, w, h, bytes);
    }
  }

  lemma CompleteEvolves(env: Env, s: Sys, w: Worker, h: Holder, bytes: Bytes, c: Completion)
    requires StagedOk(env, s.db.tasks, s.staging, s.first) && AccountOk(s.db.tasks)
    requires TasksOk(s.db.status, s.db.tasks, s.db.signings)
    requires WorkerOk(env, s.db.tasks, s.first, s.contents, s.nextToken, w) && w.pc == Completing(h, bytes)
    requires c.sha == env.sha(bytes) && CompleteTask(env, s.db, w.job, h.token, h.generation, c).0.Complete?
    ensures var after := CompleteTask(env, s.db, w.job, h.token, h.generation, c).1;
      && TasksEvolve(s.db.tasks, after.tasks, s.nextToken) && AccountOk(after.tasks)
      && StagedOk(env, after.tasks, s.staging, s.first)
      && after.tasks != [] && after.tasks[0].status == Succeeded && after.tasks[0].lease.None?
  {
    assert s.db.tasks == [s.db.tasks[0]];
  }

  lemma CompletedKeeps(env: Env, s: Sys, w: nat, h: Holder, bytes: Bytes, c: Completion, row: nat)
    requires ProtocolOk(env, s) && TasksOk(s.db.status, s.db.tasks, s.db.signings)
    requires w in s.workers && s.workers[w].pc == Completing(h, bytes)
    requires c.sha == env.sha(bytes) && CompleteTask(env, s.db, s.workers[w].job, h.token, h.generation, c).0.Complete?
    ensures ProtocolOk(env,
      At(s, w, Publishing(row)).(db := CompleteTask(env, s.db, s.workers[w].job, h.token, h.generation, c).1))
  {
    assert WorkerOk(env, s.db.tasks, s.first, s.contents, s.nextToken, s.workers[w]);
    CompleteEvolves(env, s, s.workers[w], h, bytes, c);
    TaskMoved(env, s, CompleteTask(env, s.db, s.workers[w].job, h.token, h.generation, c).1, w, Publishing(row));
  }

  lemma CompleteStepKeeps(env: Env, s: Sys, w: nat, h: Holder, bytes: Bytes, fileId: nat)
    requires ProtocolOk(env, s) && TasksOk(s.db.status, s.db.tasks, s.db.signings)
    requires w in s.workers && s.workers[w].pc == Completing(h, bytes)
    ensures ProtocolOk(env, CompleteStep(env, s, w, h, bytes, fileId))
  {
    var c := CompletionOf(env, bytes, fileId);
    var outcome := CompleteTask(env, s.db, s.workers[w].job, h.token, h.generation, c).0;
    HolderGivesUp(env, s, w, h, bytes);
    if outcome.Complete? {
      CompletedKeeps(env, s, w, h, bytes, c, outcome.row);
    }
  }

  lemma FailEvolves(env: Env, s: Sys, token: nat, generation: int, terminal: bool)
    requires TasksOk(s.db.status, s.db.tasks, s.db.signings) && AccountOk(s.db.tasks)
    requires StagedOk(env, s.db.tasks, s.staging, s.first)
    requires Fenced(s.db, 0, token, generation) ==> terminal == (s.db.tasks[0].attempts >= s.db.tasks[0].maxAttempts)
    ensures var after := FailAttempt(s.db, 0, token, generation, terminal, "PDF_FAILURE");
      && TasksEvolve(s.db.tasks, after.tasks, s.nextToken) && AccountOk(after.tasks)
      && StagedOk(env, after.tasks, s.staging, s.first)
      && (after.tasks == s.db.tasks || (after.tasks != [] && after.tasks[0].lease.None?))
  {
  }

  lemma FailStepKeeps(env: Env, s: Sys, w: nat, token: nat, generation: int, terminal: bool)
    requires ProtocolOk(env, s) && TasksOk(s.db.status, s.db.tasks, s.db.signings)
    requires w in s.workers && s.workers[w].job.task == 0
    requires Fenced(s.db, 0, token, generation) ==> terminal == (s.db.tasks[0].attempts >= s.db.tasks[0].maxAttempts)
    ensures ProtocolOk(env, FailStep(s, w, token, generation, terminal))
  {
    FailEvolves(env, s, token, generation, terminal);
    TaskMoved(env, s, FailAttempt(s.db, 0, token, generation, terminal, "PDF_FAILURE"), w, Stopped);
  }

  lemma PublishKeeps(env: Env, s: Sys, w: nat, row: nat, answer: Option<string>)
    requires ProtocolOk(env, s) && w in s.workers && s.workers[w].pc == Publishing(row)
    ensures ProtocolOk(env, At(s, w, Cleaning).(db := RecordSend(s.db, row, answer)))
  {
    var after := At(s, w, Cleaning).(db := RecordSend(s.db, row, answer));
    assert after.db.tasks == s.db.tasks;
    assert WorkerOk(env, s.db.tasks, s.first, s.contents, s.nextToken, s.workers[w]);
    WorkerMoved(env, s, after, w, Cleaning);
  }

  // ---------------------------------------------------------------- one step of one worker

  /** What a worker about to record a failure knows is enough to count it right. */
  lemma FailingWorkerCounts(env: Env, s: Sys, w: Worker)
    requires WorkerOk(env, s.db.tasks, s.first, s.contents, s.nextToken, w)
    ensures w.pc.Aborting? && Fenced(s.db, 0, w.pc.token, w.pc.generation) ==>
      w.pc.terminal == (s.db.tasks[0].attempts >= s.db.tasks[0].maxAttempts)
    ensures w.pc.Failing? && Fenced(s.db, 0, w.pc.h.token, w.pc.h.generation) ==>
              (w.pc.h.attempts >= w.pc.h.maxAttempts) == (s.db.tasks[0].attempts >= s.db.tasks[0].maxAttempts)
    ensures w.pc.Aborting? || w.pc.Failing? ==> w.job.task == 0
  {
  }

  lemma GoLeaseKeeps(env: Env, s: Sys, w: nat)
    requires ProtocolOk(env, s) && TasksOk(s.db.status, s.db.tasks, s.db.signings) && w in s.workers
    ensures ProtocolOk(env, GoLease(env, s, w))
  {
    FailingWorkerCounts(env, s, s.workers[w]);
    match s.workers[w].pc
    case Claiming => ClaimStepKeeps(env, s, w);
    case Aborting(token, generation, terminal) => FailStepKeeps(env, s, w, token, generation, terminal);
    case Failing(h) => FailStepKeeps(env, s, w, h.token, h.generation, h.attempts >= h.maxAttempts);
    case _ =>
  }

  lemma GoReadKeeps(env: Env, s: Sys, w: nat)
    requires ProtocolOk(env, s) && w in s.workers
    ensures ProtocolOk(env, GoRead(env, s, w))
  {
    match s.workers[w].pc
    case Leased(token) => ReadTaskKeeps(env, s, w, token);
    case Reading(h) => ReadContentKeeps(env, s, w, h);
    case ClaimAborting(token) => PrepareAbortKeeps(env, s, w, token);
    case _ =>
  }

  lemma GoStageKeeps(env: Env, s: Sys, w: nat, input: Input)
    requires ProtocolOk(env, s) && TasksOk(s.db.status, s.db.tasks, s.db.signings) && w in s.workers
    ensures ProtocolOk(env, GoStage(env, s, w, input))
  {
    match s.workers[w].pc
    case Ready(h) => ReadyKeeps(env, s, w, h);
    case Recovering(h) => ReadStagedKeeps(env, s, w, h);
    case Rendering(h) => RenderKeeps(env, s, w, h, input.rendered);
    case Linking(h, bytes) => LinkKeeps(env, s, w, h, bytes);
    case ReadingBack(h) => ReadStagedKeeps(env, s, w, h);
    case _ =>
  }

  lemma GoStoreKeeps(env: Env, s: Sys, w: nat)
    requires ProtocolOk(env, s) && w in s.workers
    ensures ProtocolOk(env, GoStore(env, s, w))
  {
    match s.workers[w].pc
    case Storing(h, bytes) => StoreKeeps(env, s, w, h, bytes);
    case Rereading(h, bytes) => RereadKeeps(env, s, w, h, bytes);
    case Discarding => UnstageKeeps(env, s, w);
    case Cleaning => UnstageKeeps(env, s, w);
    case _ =>
  }

  lemma GoRecordKeeps(env: Env, s: Sys, w: nat, input: Input)
    requires ProtocolOk(env, s) && TasksOk(s.db.status, s.db.tasks, s.db.signings) && w in s.workers
    ensures ProtocolOk(env, GoRecord(env, s, w, input))
  {
    match s.workers[w].pc
    case Journalling(h, bytes) => JournalStepKeeps(env, s, w, h, bytes);
    case Completing(h, bytes) => CompleteStepKeeps(env, s, w, h, bytes, input.fileId);
    case Publishing(row) => PublishKeeps(env, s, w, row, input.answer);
    case _ =>
  }

  // ---- the database's own invariant

  lemma GoLeaseDb(env: Env, s: Sys, w: nat)
    requires DbOk(env, s.now, s.db) && w in s.workers
    ensures DbOk(env, s.now, GoLease(env, s, w).db)
  {
    var job := s.workers[w].job;
    match s.workers[w].pc
    case Claiming => ClaimKeeps(env, s.now, s.db, job, s.nextToken);
    case Aborting(token, generation, terminal) =>
      FailKeeps(env, s.now, s.db, job.task, token, generation, terminal, "PDF_FAILURE");
    case Failing(h) => FailKeeps(env, s.now, s.db, job.task, h.token, h.generation, h.attempts >= h.maxAttempts,
      "PDF_FAILURE");
    case _ =>
  }

  lemma JournalStepDb(env: Env, s: Sys, w: nat, h: Holder, bytes: Bytes)
    requires DbOk(env, s.now, s.db) && w in s.workers
    ensures DbOk(env, s.now, JournalStep(env, s, w, h, bytes).db)
  {
    var job := s.workers[w].job;
    var entry := Journal(KeyOf(job), env.sha(bytes), |bytes|);
    if JournalPending(s.db, job.task, h.token, h.generation, entry).Ok? {
      JournalKeeps(env, s.now, s.db, job.task, h.token, h.generation, entry);
    }
  }

  lemma CompleteStepDb(env: Env, s: Sys, w: nat, h: Holder, bytes: Bytes, fileId: nat)
    requires DbOk(env, s.now, s.db) && w in s.workers
    ensures DbOk(env, s.now, CompleteStep(env, s, w, h, bytes, fileId).db)
  {
    CompleteKeeps(env, s.now, s.db, s.workers[w].job, h.token, h.generation, CompletionOf(env, bytes, fileId));
  }

  lemma GoRecordDb(env: Env, s: Sys, w: nat, input: Input)
    requires DbOk(env, s.now, s.db) && w in s.workers
    ensures DbOk(env, s.now, GoRecord(env, s, w, input).db)
  {
    if GoRecord(env, s, w, input).db != s.db {
      match s.workers[w].pc
      case Journalling(h, bytes) => JournalStepDb(env, s, w, h, bytes);
      case Completing(h, bytes) => CompleteStepDb(env, s, w, h, bytes, input.fileId);
      case Publishing(row) => RecordSendKeeps(env, s.now, s.db, row, input.answer);
    }
  }

  // ---- what a worker leaves alone

  /** The clock, the clients, the cache's deletions and the signings stay; at most one file appears, under a new key. */
  ghost predicate WorkerOnly(s: Sys, after: Sys) {
    && after.now == s.now && after.submitting == s.submitting && after.signing == s.signing
    && after.finalizing == s.finalizing && after.doomed == s.doomed
    && after.db.signings == s.db.signings && s.db.files <= after.db.files
    && forall i | |s.db.files| <= i < |after.db.files| :: !KeyTaken(s.db.files, after.db.files[i].key)
  }

  lemma ClaimStepTouches(env: Env, s: Sys, w: nat)
    requires w in s.workers
    ensures WorkerOnly(s, ClaimStep(env, s, w))
  {
  }

  lemma GoLeaseTouches(env: Env, s: Sys, w: nat)
    requires w in s.workers
    ensures WorkerOnly(s, GoLease(env, s, w))
  {
    if s.workers[w].pc.Claiming? {
      ClaimStepTouches(env, s, w);
    }
  }

  lemma GoReadTouches(env: Env, s: Sys, w: nat)
    requires w in s.workers
    ensures WorkerOnly(s, GoRead(env, s, w)) && GoRead(env, s, w).db == s.db
  {
  }

  lemma GoStageTouches(env: Env, s: Sys, w: nat, input: Input)
    requires w in s.workers
    ensures WorkerOnly(s, GoStage(env, s, w, input)) && GoStage(env, s, w, input).db == s.db
  {
  }

  lemma GoStoreTouches(env: Env, s: Sys, w: nat)
    requires w in s.workers
    ensures WorkerOnly(s, GoStore(env, s, w)) && GoStore(env, s, w).db == s.db
  {
  }

  lemma CompleteTouches(env: Env, s: Sys, w: nat, h: Holder, bytes: Bytes, fileId: nat)
    requires w in s.workers
    ensures WorkerOnly(s, CompleteStep(env, s, w, h, bytes, fileId))
  {
  }

  lemma GoRecordTouches(env: Env, s: Sys, w: nat, input: Input)
    requires w in s.workers
    ensures WorkerOnly(s, GoRecord(env, s, w, input))
  {
    match s.workers[w].pc
    case Completing(h, bytes) => CompleteTouches(env, s, w, h, bytes, input.fileId);
    case _ =>
  }

  lemma GoKeepsDoomed(env: Env, s: Sys, w: nat, input: Input)
    requires w in s.workers && DoomedOk(s.db.files, s.db.signings, s.doomed) && WorkerOnly(s, Go(env, s, w, input))
    ensures var after := Go(env, s, w, input); DoomedOk(after.db.files, after.db.signings, after.doomed)
  {
    var after := Go(env, s, w, input);
    DoomedKept(s.db.files, s.db.signings, after.db.files, after.db.signings, s.doomed);
  }

  lemma GoKeeps(env: Env, s: Sys, w: nat, input: Input)
    requires SysOk(env, s) && w in s.workers
    ensures SysOk(env, Go(env, s, w, input))
  {
    var pc := s.workers[w].pc;
    if OnLease(pc) {
      GoLeaseKeeps(env, s, w);
      GoLeaseDb(env, s, w);
      GoLeaseTouches(env, s, w);
    } else if OnRead(pc) {
      GoReadKeeps(env, s, w);
      GoReadTouches(env, s, w);
    } else if OnStage(pc) {
      GoStageKeeps(env, s, w, input);
      GoStageTouches(env, s, w, input);
    } else if OnStore(pc) {
      GoStoreKeeps(env, s, w);
      GoStoreTouches(env, s, w);
    } else {
      GoRecordKeeps(env, s, w, input);
      GoRecordDb(env, s, w, input);
      GoRecordTouches(env, s, w, input);
    }
    GoKeepsDoomed(env, s, w, input);
  }

  // ---------------------------------------------------------------- runs

  lemma TickKeeps(env: Env, s: Sys, seconds: nat)
    requires SysOk(env, s)
    ensures SysOk(env, s.(now := s.now + seconds))
  {
    TimeKeeps(env, s.now, s.now + seconds, s.db);
  }

  lemma OnlyWorkersMove(env: Env, s: Sys, workers: map<nat, Worker>)
    requires SysOk(env, s) && ProtocolOk(env, s.(workers := workers))
    ensures SysOk(env, s.(workers := workers))
  {
  }

  lemma SpawnedKeeps(env: Env, s: Sys, w: nat, job: Job)
    requires SysOk(env, s) && w !in s.workers
    ensures SysOk(env, s.(workers := s.workers[w := Worker(job, Claiming)]))
  {
    SpawnKeeps(env, s, w, job);
    OnlyWorkersMove(env, s, s.workers[w := Worker(job, Claiming)]);
  }

  lemma ThrownKeeps(env: Env, s: Sys, w: nat)
    requires SysOk(env, s) && w in s.workers
    ensures SysOk(env, At(s, w, Thrown(s.workers[w].pc)))
  {
    ThrowKeeps(env, s, w);
    OnlyWorkersMove(env, s, At(s, w, Thrown(s.workers[w].pc)).workers);
  }

  lemma StoppedKeeps(env: Env, s: Sys, w: nat)
    requires ProtocolOk(env, s) && w in s.workers
    ensures ProtocolOk(env, At(s, w, Stopped))
  {
    PcMoves(env, s, w, Stopped);
  }

  lemma CrashKeeps(env: Env, s: Sys, w: nat)
    requires SysOk(env, s) && w in s.workers
    ensures SysOk(env, At(s, w, Stopped))
  {
    StoppedKeeps(env, s, w);
    OnlyWorkersMove(env, s, At(s, w, Stopped).workers);
  }

  lemma WorkerStepKeeps(env: Env, s: Sys, step: Step)
    requires SysOk(env, s) && !step.Tick? && !step.Case?
    ensures SysOk(env, Apply(env, s, step))
  {
    if Apply(env, s, step) != s {
      match step
      case Spawn(w, job) => SpawnedKeeps(env, s, w, job);
      case Advance(w, input) => GoKeeps(env, s, w, input);
      case Throw(w) => ThrownKeeps(env, s, w);
      case Crash(w) => CrashKeeps(env, s, w);
    }
  }

  /** One step of anybody keeps the invariant. */
  lemma StepKeeps(env: Env, s: Sys, step: Step)
    requires SysOk(env, s)
    ensures SysOk(env, Apply(env, s, step))
  {
    if step.Tick? {
      TickKeeps(env, s, step.seconds);
    } else if step.Case? {
      TxStepKeeps(env, s, step.tx);
    } else {
      WorkerStepKeeps(env, s, step);
    }
  }

  lemma StartOk(env: Env, reviewer: Option<string>)
    ensures SysOk(env, Start(reviewer))
  {
    CreatedOk(env, 0, reviewer);
  }

  lemma {:induction false} RunKeeps(env: Env, s: Sys, steps: seq<Step>)
    requires SysOk(env, s)
    ensures SysOk(env, Run(env, s, steps))
    decreases |steps|
  {
    if steps != [] {
      RunKeeps(env, s, steps[..|steps| - 1]);
      StepKeeps(env, Run(env, s, steps[..|steps| - 1]), steps[|steps| - 1]);
    }
  }

  /** Every reachable state satisfies the invariant, whatever the interleaving. */
  lemma Reachable(env: Env, reviewer: Option<string>, steps: seq<Step>)
    ensures SysOk(env, Run(env, Start(reviewer), steps))
  {
    StartOk(env, reviewer);
    RunKeeps(env, Start(reviewer), steps);
  }
}
