/**
 Which cases with a PDF task can still be completed: `CompletableExactly` gives, for every reachable state, the exact
 condition under which some run without a storage fault leads to COMPLETED, and `CompletableWithFaultsExactly` the one
 for all runs. The run waits for the lease of an abandoned claim or retries a failed task, lets one worker deliver and
 the finalizer check and commit; with faults it empties the preview cache first.
 */
module Completion {
  import opened Common
  import opened Placement
  import opened CaseModel
  import opened CaseTransactions
  import opened PdfTransactions
  import opened FileFacts
  import opened CaseInvariants
  import opened System
  import opened SystemInvariants
  import opened SystemProofs
  import opened WorkerProofs
  import opened Evolution
  import opened Leases
  import opened PlacementChain
  import opened PdfTheorems
  import opened PdfProgress
  import opened StoredOutput
  import opened VerifyCommit
  import opened CaseTheorems
  import opened DeliveryRoom

  /** Some run in which the store never loses the bytes of a preview completes the case. */
  ghost predicate Completable(env: Env, s: Sys) {
    exists more :: FaultFree(more) && Run(env, s, more).db.status == Completed
  }

  /** Some run at all does. */
  ghost predicate CompletableWithFaults(env: Env, s: Sys) {
    exists more :: Run(env, s, more).db.status == Completed
  }

  // ---------------------------------------------------------------- one step towards it

  lemma {:induction false} RunAfter(env: Env, s: Sys, step: Step, more: seq<Step>)
    ensures Run(env, s, [step] + more) == Run(env, Apply(env, s, step), more)
    decreases |more|
  {
    var steps := [step] + more;
    if more == [] {
      assert steps[..|steps| - 1] == [];
    } else {
      RunAfter(env, s, step, more[..|more| - 1]);
      assert steps[..|steps| - 1] == [step] + more[..|more| - 1];
    }
  }

  lemma StepBack(env: Env, s: Sys, step: Step)
    requires Completable(env, Apply(env, s, step)) && !Faulty(step)
    ensures Completable(env, s)
  {
    var more :| FaultFree(more) && Run(env, Apply(env, s, step), more).db.status == Completed;
    RunAfter(env, s, step, more);
    assert FaultFree([step] + more);
  }

  lemma FaultBack(env: Env, s: Sys, step: Step)
    requires CompletableWithFaults(env, Apply(env, s, step))
    ensures CompletableWithFaults(env, s)
  {
    var more :| Run(env, Apply(env, s, step), more).db.status == Completed;
    RunAfter(env, s, step, more);
  }

  lemma AlreadyThere(env: Env, s: Sys)
    requires s.db.status == Completed
    ensures Completable(env, s)
  {
    assert Run(env, s, []) == s && FaultFree([]);
  }

  /** One await of worker `w` leads to a known state, and completability comes back from there. */
  lemma Advanced(env: Env, s: Sys, w: nat, input: Input, next: Sys)
    requires Reached(env, s) && w in s.workers && Go(env, s, w, input) == next
    ensures Reached(env, next) && (Completable(env, next) ==> Completable(env, s))
  {
    ReachedNext(env, s, Advance(w, input));
    if Completable(env, next) {
      StepBack(env, s, Advance(w, input));
    }
  }

  lemma Committed(env: Env, s: Sys, tx: Tx)
    requires Reached(env, s) && !Faulty(Case(tx))
    ensures Reached(env, ApplyTx(env, s, tx)) && (Completable(env, ApplyTx(env, s, tx)) ==> Completable(env, s))
  {
    ReachedNext(env, s, Case(tx));
    if Completable(env, ApplyTx(env, s, tx)) {
      StepBack(env, s, Case(tx));
    }
  }

  // ---------------------------------------------------------------- the worker that delivers

  /** The case waits for worker `w`, which holds the lease, and its signing is valid. */
  ghost predicate Held(env: Env, s: Sys, w: nat, h: Holder) {
    && w in s.workers && s.workers[w].job == OwnJob(env)
    && s.db.status == Finalizing && Fenced(s.db, 0, h.token, h.generation)
    && SigningOfTaskValid(s.db, s.db.tasks[0])
  }

  ghost predicate HeldAt(env: Env, s: Sys, w: nat, h: Holder, pc: Pc) {
    Held(env, s, w, h) && s.workers[w].pc == pc
  }

  ghost predicate HasRoom(env: Env, db: Db, bytes: Bytes) {
    RetainedBytes(db.files, db.signings) + |bytes| <= MAX_CASE_BYTES && !KeyTaken(db.files, ContentKey(env.sha(bytes)))
  }

  /** What is said once for every case: hashes do not collide and the template asks for a signature. */
  ghost predicate Sound(env: Env) { CollisionFree(env.sha) && Required(env.slots) != [] }

  /** The case is rendered and its signing valid. */
  ghost predicate Rendered(db: Db) {
    (db.status == Finalizing || db.status == PdfFailed) && HasOutput(db.tasks) && SigningOfTaskValid(db, db.tasks[0])
  }

  function OwnDelivery(env: Env, db: Db): Event
    requires HasOutput(db.tasks)
  {
    OwnEvent(env, db.tasks[0].output.value)
  }

  /** The check the finalizer made, as its commit expects it. */
  function OwnTicket(env: Env, db: Db): FinalizeTicket
    requires HasOutput(db.tasks) && Inspect(env, db, OwnDelivery(env, db)).Ok?
  {
    FinalizeTicket(OwnDelivery(env, db), Inspect(env, db, OwnDelivery(env, db)).value.fingerprint)
  }

  lemma ChecksAndCommits(env: Env, s: Sys)
    requires HasOutput(s.db.tasks) && FirstCheck(env, s.db, s.contents, OwnDelivery(env, s.db))
    ensures var checked := ApplyTx(env, s, OfPdf(CheckFinalizationTx(OwnDelivery(env, s.db))));
      && checked.db == s.db && Allowed(checked, OfPdf(FinalizeTx(OwnTicket(env, s.db))))
      && ApplyTx(env, checked, OfPdf(FinalizeTx(OwnTicket(env, s.db)))).db
           == Finalize(env, s.db, OwnDelivery(env, s.db), Some(OwnTicket(env, s.db).fingerprint)).1
  {
  }

  /** A rendered case completes when its own event is delivered: the finalizer checks rows and bytes, and commits. */
  lemma FromRendered(env: Env, s: Sys)
    requires Reached(env, s) && Sound(env) && Rendered(s.db)
    ensures Completable(env, s)
  {
    var e := OwnDelivery(env, s.db);
    DeliveryCompletes(env, s, e);
    ChecksAndCommits(env, s);
    var checked := ApplyTx(env, s, OfPdf(CheckFinalizationTx(e)));
    Committed(env, s, OfPdf(CheckFinalizationTx(e)));
    Committed(env, checked, OfPdf(FinalizeTx(OwnTicket(env, s.db))));
    AlreadyThere(env, ApplyTx(env, checked, OfPdf(FinalizeTx(OwnTicket(env, s.db)))));
  }

  const INPUT: Input := Input([], 0, None)

  lemma CompletionSucceeds(env: Env, db: Db, h: Holder, bytes: Bytes)
    requires TasksOk(db.status, db.tasks, db.signings) && db.status == Finalizing
    requires Fenced(db, 0, h.token, h.generation) && SigningOfTaskValid(db, db.tasks[0]) && HasRoom(env, db, bytes)
    requires db.tasks[0].pending == Some(Journal(STAGE, env.sha(bytes), |bytes|))
    ensures var (outcome, after) := CompleteTask(env, db, OwnJob(env), h.token, h.generation,
      CompletionOf(env, bytes, 0));
      outcome.Complete? && Rendered(after)
  {
  }

  /** The staged bytes are in the journal, and nothing else has their hash. */
  lemma JournalIsOurs(env: Env, s: Sys, w: nat, h: Holder, bytes: Bytes)
    requires w in s.workers && WorkerOk(env, s.db.tasks, s.first, s.contents, s.nextToken, s.workers[w])
    requires CollisionFree(env.sha)
    requires HeldAt(env, s, w, h, Completing(h, bytes))
    ensures s.db.tasks[0].pending == Some(Journal(STAGE, env.sha(bytes), |bytes|))
  {
  }

  lemma Completes(env: Env, s: Sys, w: nat, h: Holder, bytes: Bytes)
    requires TasksOk(s.db.status, s.db.tasks, s.db.signings) && w in s.workers
    requires WorkerOk(env, s.db.tasks, s.first, s.contents, s.nextToken, s.workers[w]) && CollisionFree(env.sha)
    requires HeldAt(env, s, w, h, Completing(h, bytes)) && HasRoom(env, s.db, bytes)
    ensures Rendered(Go(env, s, w, INPUT).db)
  {
    JournalIsOurs(env, s, w, h, bytes);
    CompletionSucceeds(env, s.db, h, bytes);
  }

  lemma FromCompleting(env: Env, s: Sys, w: nat, h: Holder, bytes: Bytes)
    requires Reached(env, s) && Sound(env) && HeldAt(env, s, w, h, Completing(h, bytes)) && HasRoom(env, s.db, bytes)
    ensures Completable(env, s)
  {
    var next := Go(env, s, w, INPUT);
    assert Rendered(next.db) by {
      ReachedOk(env, s);
      Completes(env, s, w, h, bytes);
    }
    Advanced(env, s, w, INPUT, next);
    FromRendered(env, next);
  }

  lemma Rereads(env: Env, s: Sys, w: nat, h: Holder, bytes: Bytes)
    requires ProtocolOk(env, s) && CollisionFree(env.sha)
    requires HeldAt(env, s, w, h, Rereading(h, bytes))
    ensures Go(env, s, w, INPUT) == At(s, w, Completing(h, bytes))
  {
    assert WorkerOk(env, s.db.tasks, s.first, s.contents, s.nextToken, s.workers[w]);
  }

  lemma FromRereading(env: Env, s: Sys, w: nat, h: Holder, bytes: Bytes)
    requires Reached(env, s) && Sound(env) && HeldAt(env, s, w, h, Rereading(h, bytes)) && HasRoom(env, s.db, bytes)
    ensures Completable(env, s)
  {
    var next := At(s, w, Completing(h, bytes));
    assert Go(env, s, w, INPUT) == next by {
      ReachedOk(env, s);
      Rereads(env, s, w, h, bytes);
    }
    Advanced(env, s, w, INPUT, next);
    FromCompleting(env, next, w, h, bytes);
  }

  lemma Stores(env: Env, s: Sys, w: nat, h: Holder, bytes: Bytes)
    requires ContentsOk(env, s.contents) && HeldAt(env, s, w, h, Storing(h, bytes))
    ensures var next := Go(env, s, w, INPUT); HeldAt(env, next, w, h, Rereading(h, bytes)) && next.db == s.db
  {
  }

  lemma FromStoring(env: Env, s: Sys, w: nat, h: Holder, bytes: Bytes)
    requires Reached(env, s) && Sound(env) && HeldAt(env, s, w, h, Storing(h, bytes)) && HasRoom(env, s.db, bytes)
    ensures Completable(env, s)
  {
    var next := Go(env, s, w, INPUT);
    assert HeldAt(env, next, w, h, Rereading(h, bytes)) && next.db == s.db by {
      ReachedOk(env, s);
      Stores(env, s, w, h, bytes);
    }
    Advanced(env, s, w, INPUT, next);
    FromRereading(env, next, w, h, bytes);
  }

  lemma JournalGoes(env: Env, s: Sys, w: nat, h: Holder, bytes: Bytes)
    requires w in s.workers && s.workers[w].pc == Journalling(h, bytes)
    ensures Go(env, s, w, INPUT) == JournalStep(env, s, w, h, bytes)
  {
  }

  lemma JournalHolds(env: Env, s: Sys, w: nat, h: Holder, bytes: Bytes)
    requires StagedOk(env, s.db.tasks, s.staging, s.first) && w in s.workers
    requires WorkerOk(env, s.db.tasks, s.first, s.contents, s.nextToken, s.workers[w])
    requires TasksOk(s.db.status, s.db.tasks, s.db.signings) && HeldAt(env, s, w, h, Journalling(h, bytes))
    ensures var next := JournalStep(env, s, w, h, bytes);
      && HeldAt(env, next, w, h, Storing(h, bytes))
      && next.db.files == s.db.files && next.db.signings == s.db.signings
  {
    JournalAccepts(env, s, w, h, bytes);
    JournalMoves(env, s, w, h, bytes);
  }

  lemma JournalMoves(env: Env, s: Sys, w: nat, h: Holder, bytes: Bytes)
    requires |s.db.tasks| == 1 && HeldAt(env, s, w, h, Journalling(h, bytes))
    requires JournalStep(env, s, w, h, bytes).workers[w].pc == Storing(h, bytes)
    ensures var next := JournalStep(env, s, w, h, bytes);
      && HeldAt(env, next, w, h, Storing(h, bytes))
      && next.db.files == s.db.files && next.db.signings == s.db.signings
  {
    JournalKeepsHeld(s.db, h, Journal(STAGE, env.sha(bytes), |bytes|));
  }

  lemma JournalKeepsHeld(db: Db, h: Holder, entry: Journal)
    requires |db.tasks| == 1 && JournalPending(db, 0, h.token, h.generation, entry).Ok?
    ensures var after := JournalPending(db, 0, h.token, h.generation, entry).value;
      && after == db.(tasks := after.tasks) && |after.tasks| == 1
      && Fenced(after, 0, h.token, h.generation)
      && after.tasks[0] == db.tasks[0].(pending := Some(entry))
  {
  }

  lemma Journals(env: Env, s: Sys, w: nat, h: Holder, bytes: Bytes)
    requires StagedOk(env, s.db.tasks, s.staging, s.first) && w in s.workers
    requires WorkerOk(env, s.db.tasks, s.first, s.contents, s.nextToken, s.workers[w])
    requires TasksOk(s.db.status, s.db.tasks, s.db.signings) && HeldAt(env, s, w, h, Journalling(h, bytes))
    ensures var next := Go(env, s, w, INPUT);
      && HeldAt(env, next, w, h, Storing(h, bytes))
      && next.db.files == s.db.files && next.db.signings == s.db.signings
  {
    JournalHolds(env, s, w, h, bytes);
    JournalGoes(env, s, w, h, bytes);
  }

  lemma FromJournalling(env: Env, s: Sys, w: nat, h: Holder, bytes: Bytes)
    requires Reached(env, s) && Sound(env) && HeldAt(env, s, w, h, Journalling(h, bytes)) && HasRoom(env, s.db, bytes)
    ensures Completable(env, s)
  {
    var next := Go(env, s, w, INPUT);
    assert HeldAt(env, next, w, h, Storing(h, bytes)) && HasRoom(env, next.db, bytes) by {
      ReachedOk(env, s);
      Journals(env, s, w, h, bytes);
    }
    Advanced(env, s, w, INPUT, next);
    FromStoring(env, next, w, h, bytes);
  }

  lemma ReadsBack(env: Env, s: Sys, w: nat, h: Holder)
    requires Held(env, s, w, h) && ReadsStaged(s.workers[w].pc, h)
    requires STAGE in s.staging && |s.staging[STAGE]| <= MAX_FILE_BYTES
    ensures var next := Go(env, s, w, INPUT);
      HeldAt(env, next, w, h, Journalling(h, s.staging[STAGE])) && next.db == s.db
  {
  }

  lemma FromStaged(env: Env, s: Sys, w: nat, h: Holder)
    requires Reached(env, s) && Sound(env) && Held(env, s, w, h) && ReadsStaged(s.workers[w].pc, h)
    requires STAGE in s.staging && Stageable(env, s.staging[STAGE]) && HasRoom(env, s.db, s.staging[STAGE])
    ensures Completable(env, s)
  {
    var next := Go(env, s, w, INPUT);
    ReadsBack(env, s, w, h);
    Advanced(env, s, w, INPUT, next);
    FromJournalling(env, next, w, h, s.staging[STAGE]);
  }

  lemma Links(env: Env, s: Sys, w: nat, h: Holder, bytes: Bytes)
    requires HeldAt(env, s, w, h, Linking(h, bytes)) && STAGE !in s.staging
    ensures var next := Go(env, s, w, INPUT);
      HeldAt(env, next, w, h, ReadingBack(h)) && next.db == s.db && STAGE in next.staging
        && next.staging[STAGE] == bytes
  {
  }

  lemma FromLinking(env: Env, s: Sys, w: nat, h: Holder, bytes: Bytes)
    requires Reached(env, s) && Sound(env) && HeldAt(env, s, w, h, Linking(h, bytes))
    requires STAGE !in s.staging && Stageable(env, bytes) && HasRoom(env, s.db, bytes)
    ensures Completable(env, s)
  {
    var next := Go(env, s, w, INPUT);
    Links(env, s, w, h, bytes);
    Advanced(env, s, w, INPUT, next);
    FromStaged(env, next, w, h);
  }

  /** The bytes the worker will deliver: the staged ones, or a rendering of its own. */
  ghost predicate Chosen(env: Env, s: Sys, bytes: Bytes) {
    Stageable(env, bytes) && HasRoom(env, s.db, bytes) && (STAGE in s.staging ==> bytes == s.staging[STAGE])
  }

  lemma Renders(env: Env, s: Sys, w: nat, h: Holder, bytes: Bytes)
    requires HeldAt(env, s, w, h, System.Rendering(h)) && Stageable(env, bytes)
    ensures var next := Go(env, s, w, Input(bytes, 0, None));
      HeldAt(env, next, w, h, Linking(h, bytes)) && next.db == s.db && next.staging == s.staging
  {
  }

  lemma FromRendering(env: Env, s: Sys, w: nat, h: Holder, bytes: Bytes)
    requires Reached(env, s) && Sound(env) && HeldAt(env, s, w, h, System.Rendering(h))
    requires STAGE !in s.staging && Stageable(env, bytes) && HasRoom(env, s.db, bytes)
    ensures Completable(env, s)
  {
    var next := Go(env, s, w, Input(bytes, 0, None));
    Renders(env, s, w, h, bytes);
    Advanced(env, s, w, Input(bytes, 0, None), next);
    FromLinking(env, next, w, h, bytes);
  }

  lemma Decides(env: Env, s: Sys, w: nat, h: Holder)
    requires HeldAt(env, s, w, h, Ready(h))
    ensures var next := Go(env, s, w, INPUT);
      && HeldAt(env, next, w, h, if STAGE in s.staging then Recovering(h) else System.Rendering(h))
      && next.db == s.db && next.staging == s.staging
  {
  }

  lemma FromReady(env: Env, s: Sys, w: nat, h: Holder, bytes: Bytes)
    requires Reached(env, s) && Sound(env) && HeldAt(env, s, w, h, Ready(h)) && Chosen(env, s, bytes)
    ensures Completable(env, s)
  {
    var next := Go(env, s, w, INPUT);
    Decides(env, s, w, h);
    Advanced(env, s, w, INPUT, next);
    if STAGE in s.staging {
      FromStaged(env, next, w, h);
    } else {
      FromRendering(env, next, w, h, bytes);
    }
  }

  lemma Reads(env: Env, s: Sys, w: nat, h: Holder)
    requires EvidenceOk(env, s.db.drafts, s.db.files, s.db.signings) && HeldAt(env, s, w, h, Reading(h))
    ensures var next := Go(env, s, w, INPUT);
      HeldAt(env, next, w, h, Ready(h)) && next.db == s.db && next.staging == s.staging
  {
    ReadingSucceeds(env, s, w, h);
  }

  lemma FromReading(env: Env, s: Sys, w: nat, h: Holder, bytes: Bytes)
    requires Reached(env, s) && Sound(env) && HeldAt(env, s, w, h, Reading(h)) && Chosen(env, s, bytes)
    ensures Completable(env, s)
  {
    var next := Go(env, s, w, INPUT);
    assert HeldAt(env, next, w, h, Ready(h)) && Chosen(env, next, bytes) by {
      ReachedOk(env, s);
      Reads(env, s, w, h);
    }
    Advanced(env, s, w, INPUT, next);
    FromReady(env, next, w, h, bytes);
  }

  lemma ReadsTask(env: Env, s: Sys, w: nat, h: Holder)
    requires Held(env, s, w, h) && s.workers[w].pc == Leased(h.token)
    requires h.attempts == s.db.tasks[0].attempts && h.maxAttempts == s.db.tasks[0].maxAttempts
    ensures var next := Go(env, s, w, INPUT);
      HeldAt(env, next, w, h, Reading(h)) && next.db == s.db && next.staging == s.staging
  {
  }

  lemma FromLeased(env: Env, s: Sys, w: nat, h: Holder, bytes: Bytes)
    requires Reached(env, s) && Sound(env) && Held(env, s, w, h) && s.workers[w].pc == Leased(h.token)
    requires h.attempts == s.db.tasks[0].attempts && h.maxAttempts == s.db.tasks[0].maxAttempts
    requires Chosen(env, s, bytes)
    ensures Completable(env, s)
  {
    var next := Go(env, s, w, INPUT);
    ReadsTask(env, s, w, h);
    Advanced(env, s, w, INPUT, next);
    FromReading(env, next, w, h, bytes);
  }

  // ---------------------------------------------------------------- getting a worker its lease

  /** The next delivery of the render job will be claimed. */
  ghost predicate Claimable(db: Db, now: nat) {
    && db.status == Finalizing && db.tasks != [] && SigningOfTaskValid(db, db.tasks[0])
    && db.tasks[0].attempts < db.tasks[0].maxAttempts
    && (db.tasks[0].status == Queued || LeaseExpired(db.tasks[0], now))
  }

  ghost predicate Idle(env: Env, s: Sys, w: nat) { w in s.workers && s.workers[w] == Worker(OwnJob(env), Claiming) }

  function HolderAfterClaim(s: Sys): Holder
    requires s.db.tasks != []
  {
    var t := s.db.tasks[0];
    Holder(s.nextToken, t.claimGeneration + 1, t.attempts + 1, t.maxAttempts)
  }

  lemma Claims(env: Env, s: Sys, w: nat)
    requires TasksOk(s.db.status, s.db.tasks, s.db.signings) && Claimable(s.db, s.now) && Idle(env, s, w)
    ensures var next, h := Go(env, s, w, INPUT), HolderAfterClaim(s);
      && Held(env, next, w, h) && next.workers[w].pc == Leased(h.token)
      && h.attempts == next.db.tasks[0].attempts && h.maxAttempts == next.db.tasks[0].maxAttempts
      && next.db.files == s.db.files && next.db.signings == s.db.signings && next.staging == s.staging
  {
  }

  lemma FromIdle(env: Env, s: Sys, w: nat, bytes: Bytes)
    requires Reached(env, s) && Sound(env) && Claimable(s.db, s.now) && Idle(env, s, w) && Chosen(env, s, bytes)
    ensures Completable(env, s)
  {
    var next, h := Go(env, s, w, INPUT), HolderAfterClaim(s);
    assert TasksOk(s.db.status, s.db.tasks, s.db.signings) by {
      ReachedOk(env, s);
    }
    Claims(env, s, w);
    Advanced(env, s, w, INPUT, next);
    FromLeased(env, next, w, h, bytes);
  }

  lemma {:induction false} Bounded(ids: set<nat>) returns (bound: nat)
    ensures forall i | i in ids :: i < bound
  {
    if ids == {} {
      bound := 0;
    } else {
      var i :| i in ids;
      var rest := Bounded(ids - {i});
      bound := if i < rest then rest else i + 1;
      assert forall j | j in ids :: j == i || j in ids - {i};
    }
  }

  /** A delivery brings a worker of its own. */
  lemma Spawned(env: Env, s: Sys) returns (w: nat, next: Sys)
    requires Reached(env, s)
    ensures Reached(env, next) && Idle(env, next, w) && next == s.(workers := next.workers)
    ensures Completable(env, next) ==> Completable(env, s)
  {
    w := Bounded(s.workers.Keys);
    var step := Spawn(w, OwnJob(env));
    next := Apply(env, s, step);
    ReachedNext(env, s, step);
    if Completable(env, next) {
      StepBack(env, s, step);
    }
  }

  lemma FromClaimable(env: Env, s: Sys, bytes: Bytes)
    requires Reached(env, s) && Sound(env) && Claimable(s.db, s.now) && Chosen(env, s, bytes)
    ensures Completable(env, s)
  {
    var w, next := Spawned(env, s);
    FromIdle(env, next, w, bytes);
  }

  /** The task failed and took the case with it. */
  ghost predicate RenderFailed(db: Db) {
    db.status == PdfFailed && db.tasks != [] && db.tasks[0].status == Failed && SigningOfTaskValid(db, db.tasks[0])
  }

  lemma Retries(env: Env, s: Sys)
    requires TasksOk(s.db.status, s.db.tasks, s.db.signings) && RenderFailed(s.db)
    ensures var next := ApplyTx(env, s, OfPdf(RetryTx));
      && Claimable(next.db, next.now) && next.staging == s.staging
      && next.db.files == s.db.files && next.db.signings == s.db.signings
  {
    RetryOf(s.db);
  }

  lemma FromFailed(env: Env, s: Sys, bytes: Bytes)
    requires Reached(env, s) && Sound(env) && RenderFailed(s.db) && Chosen(env, s, bytes)
    ensures Completable(env, s)
  {
    assert TasksOk(s.db.status, s.db.tasks, s.db.signings) by {
      ReachedOk(env, s);
    }
    Retries(env, s);
    Committed(env, s, OfPdf(RetryTx));
    FromClaimable(env, ApplyTx(env, s, OfPdf(RetryTx)), bytes);
  }

  /** The last attempt was abandoned: the next delivery fails the task. */
  ghost predicate Exhausted(db: Db, now: nat) {
    && db.status == Finalizing && db.tasks != [] && SigningOfTaskValid(db, db.tasks[0])
    && db.tasks[0].attempts >= db.tasks[0].maxAttempts && LeaseExpired(db.tasks[0], now)
  }

  lemma Exhausts(env: Env, s: Sys, w: nat)
    requires TasksOk(s.db.status, s.db.tasks, s.db.signings) && Exhausted(s.db, s.now) && Idle(env, s, w)
    ensures var next := Go(env, s, w, INPUT);
      RenderFailed(next.db) && next.db.files == s.db.files && next.db.signings == s.db.signings
        && next.staging == s.staging
  {
    ClaimExpired(env, s.db, s.now, s.nextToken);
  }

  lemma FromExhausted(env: Env, s: Sys, bytes: Bytes)
    requires Reached(env, s) && Sound(env) && Exhausted(s.db, s.now) && Chosen(env, s, bytes)
    ensures Completable(env, s)
  {
    var w, spawned := Spawned(env, s);
    var next := Go(env, spawned, w, INPUT);
    assert TasksOk(spawned.db.status, spawned.db.tasks, spawned.db.signings) by {
      ReachedOk(env, spawned);
    }
    Exhausts(env, spawned, w);
    Advanced(env, spawned, w, INPUT, next);
    FromFailed(env, next, bytes);
  }

  lemma Waited(env: Env, s: Sys, seconds: nat)
    requires Reached(env, s)
    ensures Reached(env, s.(now := s.now + seconds))
    ensures Completable(env, s.(now := s.now + seconds)) ==> Completable(env, s)
  {
    assert Apply(env, s, Tick(seconds)) == s.(now := s.now + seconds);
    ReachedNext(env, s, Tick(seconds));
    if Completable(env, s.(now := s.now + seconds)) {
      StepBack(env, s, Tick(seconds));
    }
  }

  lemma FromProcessing(env: Env, s: Sys, bytes: Bytes)
    requires Reached(env, s) && Sound(env) && Chosen(env, s, bytes)
    requires s.db.status == Finalizing && s.db.tasks != [] && SigningOfTaskValid(s.db, s.db.tasks[0])
    requires s.db.tasks[0].status == Processing && s.db.tasks[0].startedAt.Some?
    ensures Completable(env, s)
  {
    var seconds := s.db.tasks[0].startedAt.value + LEASE_SECONDS + 1;
    var next := s.(now := s.now + seconds);
    Waited(env, s, seconds);
    if s.db.tasks[0].attempts < s.db.tasks[0].maxAttempts {
      FromClaimable(env, next, bytes);
    } else {
      FromExhausted(env, next, bytes);
    }
  }

  // ---------------------------------------------------------------- every status of the task

  /** The case is neither over nor without its signing. */
  ghost predicate Alive(db: Db) {
    && db.tasks != [] && (db.status == Finalizing || db.status == PdfFailed)
    && SigningOfTaskValid(db, db.tasks[0])
  }

  lemma AliveCases(db: Db, now: nat)
    requires TasksOk(db.status, db.tasks, db.signings) && AccountOk(db.tasks) && Alive(db)
    ensures
      || Rendered(db)
      || RenderFailed(db)
      || Claimable(db, now)
      || (db.status == Finalizing && db.tasks[0].status == Processing && db.tasks[0].startedAt.Some?)
  {
  }

  lemma FromAlive(env: Env, s: Sys, bytes: Bytes)
    requires Reached(env, s) && Sound(env) && Alive(s.db) && Chosen(env, s, bytes)
    ensures Completable(env, s)
  {
    assert TasksOk(s.db.status, s.db.tasks, s.db.signings) && AccountOk(s.db.tasks) by {
      ReachedOk(env, s);
    }
    AliveCases(s.db, s.now);
    if Rendered(s.db) {
      FromRendered(env, s);
    } else if RenderFailed(s.db) {
      FromFailed(env, s, bytes);
    } else if Claimable(s.db, s.now) {
      FromClaimable(env, s, bytes);
    } else {
      FromProcessing(env, s, bytes);
    }
  }

  // ---------------------------------------------------------------- emptying the preview cache

  /** Every preview among the first `n` rows has left the cache. */
  ghost predicate Emptied(files: seq<FileRow>, n: nat) {
    n <= |files| && forall i | 0 <= i < n :: WithoutPreviews(files)[i] == files[i]
  }

  lemma Drops(env: Env, s: Sys, n: nat)
    requires FilesOk(s.db.files) && Emptied(s.db.files, n) && n < |s.db.files|
    requires WithoutPreviews(s.db.files)[n] != s.db.files[n]
    ensures var next := ApplyTx(env, s, OfFile(DropCorruptPreviewTx(n)));
      && next.db == s.db.(files := s.db.files[n := Tombstone(s.db.files[n])]) && next.staging == s.staging
      && Emptied(next.db.files, n + 1) && WithoutPreviews(next.db.files) == WithoutPreviews(s.db.files)
  {
    assert s.db.files[n].purpose == PresignPdf;
  }

  lemma DropKeepsRoom(env: Env, db: Db, n: nat, bytes: Bytes)
    requires n < |db.files| && WithoutPreviews(db.files[n := Tombstone(db.files[n])]) == WithoutPreviews(db.files)
    requires Deliverable(env, db, bytes, true)
    ensures Deliverable(env, db.(files := db.files[n := Tombstone(db.files[n])]), bytes, true)
  {
  }

  lemma EmptyCacheHasRoom(env: Env, db: Db, bytes: Bytes)
    requires Emptied(db.files, |db.files|) && Deliverable(env, db, bytes, true)
    ensures HasRoom(env, db, bytes)
  {
    assert WithoutPreviews(db.files) == db.files;
  }

  /** Without faults a completable case is completable. */
  lemma FaultsAllowed(env: Env, s: Sys)
    requires Completable(env, s)
    ensures CompletableWithFaults(env, s)
  {
  }

  lemma FromEmptied(env: Env, s: Sys, bytes: Bytes)
    requires Reached(env, s) && Sound(env) && Alive(s.db) && Deliverable(env, s.db, bytes, true)
    requires (STAGE in s.staging ==> s.staging[STAGE] == bytes) && Emptied(s.db.files, |s.db.files|)
    ensures CompletableWithFaults(env, s)
  {
    EmptyCacheHasRoom(env, s.db, bytes);
    FromAlive(env, s, bytes);
    FaultsAllowed(env, s);
  }

  lemma Dropped(env: Env, s: Sys, bytes: Bytes, n: nat) returns (next: Sys)
    requires Reached(env, s) && Alive(s.db) && Deliverable(env, s.db, bytes, true)
    requires n < |s.db.files| && Emptied(s.db.files, n) && WithoutPreviews(s.db.files)[n] != s.db.files[n]
    ensures Reached(env, next) && Alive(next.db) && Deliverable(env, next.db, bytes, true)
    ensures next.staging == s.staging && |next.db.files| == |s.db.files| && Emptied(next.db.files, n + 1)
    ensures CompletableWithFaults(env, next) ==> CompletableWithFaults(env, s)
  {
    var step := Case(OfFile(DropCorruptPreviewTx(n)));
    next := Apply(env, s, step);
    assert FilesOk(s.db.files) by {
      ReachedOk(env, s);
    }
    Drops(env, s, n);
    DropKeepsRoom(env, s.db, n, bytes);
    ReachedNext(env, s, step);
    if CompletableWithFaults(env, next) {
      FaultBack(env, s, step);
    }
  }

  lemma {:induction false} FromUnemptied(env: Env, s: Sys, bytes: Bytes, n: nat)
    requires Reached(env, s) && Sound(env) && Alive(s.db) && Deliverable(env, s.db, bytes, true)
    requires (STAGE in s.staging ==> s.staging[STAGE] == bytes) && Emptied(s.db.files, n)
    ensures CompletableWithFaults(env, s)
    decreases |s.db.files| - n
  {
    if n == |s.db.files| {
      FromEmptied(env, s, bytes);
    } else if WithoutPreviews(s.db.files)[n] == s.db.files[n] {
      FromUnemptied(env, s, bytes, n + 1);
    } else {
      var next := Dropped(env, s, bytes, n);
      FromUnemptied(env, next, bytes, n + 1);
    }
  }

  // ---------------------------------------------------------------- the exact condition

  /**
   The output exists, or there is room for the bytes it will be made of: the first staged ones, once there are any, and
   otherwise some rendering.
   */
  ghost predicate RoomLeft(env: Env, s: Sys, faults: bool) {
    || HasOutput(s.db.tasks)
    || (if STAGE in s.first then Deliverable(env, s.db, s.first[STAGE], faults)
        else exists bytes :: Deliverable(env, s.db, bytes, faults))
  }

  /** Until there is an output, everything ever linked is still staged. */
  lemma NothingUnstaged(env: Env, s: Sys)
    requires Reached(env, s) && !HasOutput(s.db.tasks)
    ensures s.staging == s.first
  {
    ReachedOk(env, s);
  }

  lemma BytesToDeliver(env: Env, s: Sys, faults: bool) returns (bytes: Bytes)
    requires RoomLeft(env, s, faults) && !HasOutput(s.db.tasks)
    ensures Deliverable(env, s.db, bytes, faults) && (STAGE in s.first ==> bytes == s.first[STAGE])
  {
    if STAGE in s.first {
      bytes := s.first[STAGE];
    } else {
      bytes :| Deliverable(env, s.db, bytes, faults);
    }
  }

  lemma FromRoom(env: Env, s: Sys)
    requires Reached(env, s) && Sound(env) && Alive(s.db) && RoomLeft(env, s, false)
    ensures Completable(env, s)
  {
    if HasOutput(s.db.tasks) {
      FromRendered(env, s);
    } else {
      NothingUnstaged(env, s);
      var bytes := BytesToDeliver(env, s, false);
      FromAlive(env, s, bytes);
    }
  }

  lemma FromRoomWithFaults(env: Env, s: Sys)
    requires Reached(env, s) && Sound(env) && Alive(s.db) && RoomLeft(env, s, true)
    ensures CompletableWithFaults(env, s)
  {
    if HasOutput(s.db.tasks) {
      FromRendered(env, s);
      FaultsAllowed(env, s);
    } else {
      NothingUnstaged(env, s);
      var bytes := BytesToDeliver(env, s, true);
      FromUnemptied(env, s, bytes, 0);
    }
  }

  lemma CompletedAsks(env: Env, db: Db)
    requires ValidSigningIsCurrent(env, db.drafts, db.files, db.signings)
    requires TaskOk(env, db.status, db.reviews, db.tasks, db.outbox, db.files, db.signings) && db.status == Completed
    ensures Required(env.slots) != [] && HasOutput(db.tasks) && SigningOfTaskValid(db, db.tasks[0])
  {
    CompletedIsEvidenced(env, db);
  }

  lemma SameSignature(env: Env, s: Sys, more: seq<Step>)
    requires Reached(env, s) && s.db.tasks != []
    ensures var later := Run(env, s, more).db.tasks;
      later != [] && later[0].signatureVersion == s.db.tasks[0].signatureVersion
  {
    ReachedOk(env, s);
    RunGrows(env, s, more);
    assert TaskGrows(s.db.tasks[0], Run(env, s, more).db.tasks[0]);
  }

  lemma CompletedEnd(env: Env, s: Sys, more: seq<Step>)
    requires Reached(env, s) && Run(env, s, more).db.status == Completed
    ensures var later := Run(env, s, more).db;
      Required(env.slots) != [] && HasOutput(later.tasks) && SigningOfTaskValid(later, later.tasks[0])
  {
    ReachedOk(env, s);
    RunKeeps(env, s, more);
    CompletedAsks(env, Run(env, s, more).db);
  }

  lemma ValidOutlives(db: Db, k: nat)
    requires db.tasks != [] && SigningOfTaskValid(db, db.tasks[0]) && db.tasks[0].signatureVersion == k + 1
    ensures Outlives(db.signings, k)
  {
  }

  /** The task's signing is still valid at the end. */
  lemma SigningLasts(env: Env, s: Sys, more: seq<Step>, k: nat)
    requires Reached(env, s) && s.db.tasks != [] && s.db.tasks[0].signatureVersion == k + 1
    requires Run(env, s, more).db.status == Completed
    ensures Outlives(Run(env, s, more).db.signings, k) && HasOutput(Run(env, s, more).db.tasks)
  {
    CompletedEnd(env, s, more);
    SameSignature(env, s, more);
    ValidOutlives(Run(env, s, more).db, k);
  }

  lemma RoomAtTheStart(env: Env, s: Sys, later: Sys, faults: bool)
    requires StagedHasRoom(env, s.db, later.first, faults) && Grown(s.first, later.first)
    ensures RoomLeft(env, s, faults)
  {
  }

  lemma CompletionNeedsRoom(env: Env, s: Sys, more: seq<Step>, k: nat, faults: bool)
    requires Reached(env, s) && CollisionFree(env.sha) && Within(more, faults)
    requires !HasOutput(s.db.tasks) && HasOutput(Run(env, s, more).db.tasks)
    requires k < |s.db.signings| && Outlives(Run(env, s, more).db.signings, k)
    ensures RoomLeft(env, s, faults)
  {
    ReachedSettled(env, s);
    OutputHadRoom(env, s, more, k, faults);
    RunQuiet(env, s, more, 0);
    RoomAtTheStart(env, s, Run(env, s, more), faults);
  }

  /** The case is not closed, its signing holds, a signature is asked for, and there is room. */
  ghost predicate Promising(env: Env, s: Sys, faults: bool) {
    && s.db.tasks != [] && s.db.status != Closed && SigningOfTaskValid(s.db, s.db.tasks[0])
    && Required(env.slots) != [] && RoomLeft(env, s, faults)
  }

  lemma CompletionNeeds(env: Env, s: Sys, more: seq<Step>, faults: bool)
    requires Reached(env, s) && CollisionFree(env.sha) && s.db.tasks != [] && Within(more, faults)
    requires Run(env, s, more).db.status == Completed
    ensures Promising(env, s, faults)
  {
    assert s.db.status != Closed by {
      TerminalForEver(env, s, more);
    }
    if !SigningOfTaskValid(s.db, s.db.tasks[0]) {
      LostSigningNeverCompletes(env, s, more);
    }
    CompletedEnd(env, s, more);
    if !HasOutput(s.db.tasks) {
      var k := s.db.tasks[0].signatureVersion - 1;
      SigningLasts(env, s, more, k);
      CompletionNeedsRoom(env, s, more, k, faults);
    }
  }

  lemma NotOver(env: Env, s: Sys)
    requires Reached(env, s) && s.db.tasks != [] && !Completable(env, s)
    ensures s.db.status == Finalizing || s.db.status == PdfFailed || s.db.status == Closed
  {
    ReachedOk(env, s);
    if s.db.status == Completed {
      AlreadyThere(env, s);
    }
  }

  /**
   As long as the store does not lose previews, a reachable case with a PDF task can still be completed exactly when it
   is not closed, the task's signing is valid, the template asks for a signature, and the staged bytes, or before
   anything is staged some readable rendering, fit beside all retained bytes under a storage key nobody took.
   */
  lemma CompletableExactly(env: Env, s: Sys)
    requires Reached(env, s) && CollisionFree(env.sha) && s.db.tasks != []
    ensures Completable(env, s) <==> Promising(env, s, false)
  {
    if Completable(env, s) {
      var more :| FaultFree(more) && Run(env, s, more).db.status == Completed;
      CompletionNeeds(env, s, more, false);
    } else {
      NotOver(env, s);
      if Promising(env, s, false) {
        FromRoom(env, s);
      }
    }
  }

  /** Over all runs the bytes of previews no signing pins do not count: a fault can free them, and nothing else can. */
  lemma CompletableWithFaultsExactly(env: Env, s: Sys)
    requires Reached(env, s) && CollisionFree(env.sha) && s.db.tasks != []
    ensures CompletableWithFaults(env, s) <==> Promising(env, s, true)
  {
    if CompletableWithFaults(env, s) {
      var more :| Run(env, s, more).db.status == Completed;
      CompletionNeeds(env, s, more, true);
    } else {
      if Completable(env, s) {
        FaultsAllowed(env, s);
      }
      NotOver(env, s);
      if Promising(env, s, true) {
        FromRoomWithFaults(env, s);
      }
    }
  }
}
