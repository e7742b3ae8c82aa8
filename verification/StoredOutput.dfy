/**
 The bytes behind a task's output. They are stored under their hash before the output appears and stay there, readable,
 so the finalizer's own reading of them never refuses what its database gates let through.
 */
module StoredOutput {
  import opened Common
  import opened Placement
  import opened CaseModel
  import opened CaseTransactions
  import opened PdfTransactions
  import opened CaseInvariants
  import opened System
  import opened SystemInvariants
  import opened SystemProofs
  import opened WorkerProofs
  import opened Evolution
  import opened Leases
  import opened PdfTheorems
  import opened PlacementChain
  import opened VerifyCommit

  ghost predicate HasOutput(tasks: seq<PdfTask>) { tasks != [] && tasks[0].output.Some? }

  // ---------------------------------------------------------------- the only step that sets an output

  lemma ClaimSetsNoOutput(env: Env, db: Db, now: nat, job: Job, token: nat)
    requires TasksOk(db.status, db.tasks, db.signings) && !HasOutput(db.tasks)
    ensures !HasOutput(Claim(env, db, now, job, token).1.tasks)
  {
  }

  lemma LeaseSetsNoOutput(env: Env, s: Sys, w: nat)
    requires TasksOk(s.db.status, s.db.tasks, s.db.signings) && !HasOutput(s.db.tasks) && w in s.workers
    ensures !HasOutput(GoLease(env, s, w).db.tasks)
  {
    if s.workers[w].pc.Claiming? {
      ClaimSetsNoOutput(env, s.db, s.now, s.workers[w].job, s.nextToken);
    }
  }

  lemma JournalSetsNoOutput(env: Env, s: Sys, w: nat, h: Holder, bytes: Bytes)
    requires TasksOk(s.db.status, s.db.tasks, s.db.signings) && !HasOutput(s.db.tasks) && w in s.workers
    ensures !HasOutput(JournalStep(env, s, w, h, bytes).db.tasks)
  {
  }

  /** Worker `w` stands before its completion, and the completion is accepted. */
  ghost predicate Delivers(env: Env, s: Sys, w: nat, h: Holder, bytes: Bytes, fileId: nat) {
    && w in s.workers && s.workers[w].pc == Completing(h, bytes)
    && CompleteTask(env, s.db, s.workers[w].job, h.token, h.generation, CompletionOf(env, bytes, fileId)).0.Complete?
  }

  lemma RecordSetsOutput(env: Env, s: Sys, w: nat, input: Input)
    requires TasksOk(s.db.status, s.db.tasks, s.db.signings)
    requires w in s.workers && !HasOutput(s.db.tasks) && HasOutput(GoRecord(env, s, w, input).db.tasks)
    ensures s.workers[w].pc.Completing?
    ensures Delivers(env, s, w, s.workers[w].pc.h, s.workers[w].pc.bytes, input.fileId)
  {
    match s.workers[w].pc
    case Journalling(h, bytes) => JournalSetsNoOutput(env, s, w, h, bytes);
    case _ =>
  }

  lemma GoSetsOutput(env: Env, s: Sys, w: nat, input: Input)
    requires TasksOk(s.db.status, s.db.tasks, s.db.signings)
    requires w in s.workers && !HasOutput(s.db.tasks) && HasOutput(Go(env, s, w, input).db.tasks)
    ensures s.workers[w].pc.Completing?
    ensures Delivers(env, s, w, s.workers[w].pc.h, s.workers[w].pc.bytes, input.fileId)
  {
    var pc := s.workers[w].pc;
    if OnLease(pc) {
      LeaseSetsNoOutput(env, s, w);
    } else if OnRead(pc) {
      GoReadTouches(env, s, w);
    } else if OnStage(pc) {
      GoStageTouches(env, s, w, input);
    } else if OnStore(pc) {
      GoStoreTouches(env, s, w);
    } else {
      RecordSetsOutput(env, s, w, input);
    }
  }

  /** An output appears in one kind of step only: the accepted completion of some worker. */
  lemma OutputAppears(env: Env, s: Sys, step: Step)
    requires TasksOk(s.db.status, s.db.tasks, s.db.signings) && AccountOk(s.db.tasks)
    requires !HasOutput(s.db.tasks) && HasOutput(Apply(env, s, step).db.tasks)
    ensures step.Advance? && step.worker in s.workers && s.workers[step.worker].pc.Completing?
    ensures var pc := s.workers[step.worker].pc; Delivers(env, s, step.worker, pc.h, pc.bytes, step.input.fileId)
  {
    if step.Case? {
      TxSettles(env, s.now, s.db, step.tx);
    } else if step.Advance? && step.worker in s.workers {
      GoSetsOutput(env, s, step.worker, step.input);
    }
  }

  // ---------------------------------------------------------------- stored for ever

  /** The row of a final PDF describes these bytes: a PDF of their size, under the key of their hash. */
  predicate Describes(f: FileRow, sha: Digest, bytes: Bytes) {
    && f.purpose == FinalPdf && f.mime == ApplicationPdf && f.name == "authorization.pdf"
    && f.size == |bytes| && f.sha == sha && f.key == ContentKey(sha)
  }

  /** The output's bytes are in the content-addressed store, and its row describes them. */
  ghost predicate Stored(db: Db, contents: map<Digest, Bytes>) {
    HasOutput(db.tasks) ==>
      var o := db.tasks[0].output.value;
      o.sha in contents && o.file < |db.files| && Describes(db.files[o.file], o.sha, contents[o.sha])
  }

  lemma StoredStays(db: Db, contents: map<Digest, Bytes>, later: Db, laterContents: map<Digest, Bytes>)
    requires Stored(db, contents) && Grown(contents, laterContents) && FilesGrow(db.files, later.files)
    requires HasOutput(db.tasks) && later.tasks != [] && later.tasks[0].output == db.tasks[0].output
    ensures Stored(later, laterContents)
  {
  }

  lemma DeliveryIsStored(env: Env, s: Sys, w: nat, h: Holder, bytes: Bytes, fileId: nat)
    requires WorkersOk(env, s.db.tasks, s.first, s.contents, s.nextToken, s.workers)
    requires TasksOk(s.db.status, s.db.tasks, s.db.signings) && Delivers(env, s, w, h, bytes, fileId)
    ensures Stored(CompleteStep(env, s, w, h, bytes, fileId).db, s.contents)
  {
    assert WorkerOk(env, s.db.tasks, s.first, s.contents, s.nextToken, s.workers[w]);
  }

  lemma CompletingGoes(env: Env, s: Sys, w: nat, input: Input)
    requires w in s.workers && s.workers[w].pc.Completing?
    ensures var pc := s.workers[w].pc; Go(env, s, w, input) == CompleteStep(env, s, w, pc.h, pc.bytes, input.fileId)
    ensures Go(env, s, w, input).contents == s.contents
  {
  }

  lemma CompletingApplies(env: Env, s: Sys, step: Step)
    requires step.Advance? && step.worker in s.workers && s.workers[step.worker].pc.Completing?
    ensures var pc := s.workers[step.worker].pc;
      var after := CompleteStep(env, s, step.worker, pc.h, pc.bytes, step.input.fileId);
      Apply(env, s, step).db == after.db && Apply(env, s, step).contents == s.contents
  {
    CompletingGoes(env, s, step.worker, step.input);
  }

  lemma StepStoresOutput(env: Env, s: Sys, step: Step)
    requires TasksOk(s.db.status, s.db.tasks, s.db.signings) && AccountOk(s.db.tasks)
    requires WorkersOk(env, s.db.tasks, s.first, s.contents, s.nextToken, s.workers)
    requires !HasOutput(s.db.tasks) && HasOutput(Apply(env, s, step).db.tasks)
    ensures Stored(Apply(env, s, step).db, Apply(env, s, step).contents)
  {
    OutputAppears(env, s, step);
    var pc := s.workers[step.worker].pc;
    DeliveryIsStored(env, s, step.worker, pc.h, pc.bytes, step.input.fileId);
    CompletingApplies(env, s, step);
  }

  lemma StepKeepsOutput(env: Env, s: Sys, step: Step)
    requires TasksOk(s.db.status, s.db.tasks, s.db.signings) && AccountOk(s.db.tasks) && HasOutput(s.db.tasks)
    ensures var after := Apply(env, s, step);
      && Grown(s.contents, after.contents) && FilesGrow(s.db.files, after.db.files)
      && after.db.tasks != [] && after.db.tasks[0].output == s.db.tasks[0].output
  {
    StepGrows(env, s, step);
    StepQuiet(env, s, step);
    assert TaskGrows(s.db.tasks[0], Apply(env, s, step).db.tasks[0]);
  }

  lemma StepKeepsStored(env: Env, s: Sys, step: Step)
    requires TasksOk(s.db.status, s.db.tasks, s.db.signings) && AccountOk(s.db.tasks)
    requires WorkersOk(env, s.db.tasks, s.first, s.contents, s.nextToken, s.workers) && Stored(s.db, s.contents)
    ensures Stored(Apply(env, s, step).db, Apply(env, s, step).contents)
  {
    if HasOutput(s.db.tasks) {
      StepKeepsOutput(env, s, step);
      StoredStays(s.db, s.contents, Apply(env, s, step).db, Apply(env, s, step).contents);
    } else if HasOutput(Apply(env, s, step).db.tasks) {
      StepStoresOutput(env, s, step);
    }
  }

  lemma {:induction false} RunStored(env: Env, s: Sys, steps: seq<Step>)
    requires SysOk(env, s) && Stored(s.db, s.contents)
    ensures Stored(Run(env, s, steps).db, Run(env, s, steps).contents)
    decreases |steps|
  {
    if steps != [] {
      RunStored(env, s, steps[..|steps| - 1]);
      RunKeeps(env, s, steps[..|steps| - 1]);
      StepKeepsStored(env, Run(env, s, steps[..|steps| - 1]), steps[|steps| - 1]);
    }
  }

  lemma ReachedStored(env: Env, s: Sys)
    requires Reached(env, s)
    ensures Stored(s.db, s.contents)
  {
    var reviewer, steps :| s == Run(env, Start(reviewer), steps);
    StartOk(env, reviewer);
    RunStored(env, Start(reviewer), steps);
  }

  /** The bytes of an output, in every later state: the same, readable, and of the hash and key the rows name. */
  ghost predicate SoundBytes(env: Env, db: Db, contents: map<Digest, Bytes>) {
    HasOutput(db.tasks) ==>
      var o := db.tasks[0].output.value;
      && o.file < |db.files| && o.sha in contents && Describes(db.files[o.file], o.sha, contents[o.sha])
      && !db.files[o.file].removed && env.sha(contents[o.sha]) == o.sha && ReadablePdf(env, contents[o.sha])
  }

  lemma StoredIsSound(env: Env, db: Db, contents: map<Digest, Bytes>)
    requires Stored(db, contents) && ContentsOk(env, contents) && FilesOk(db.files)
    ensures SoundBytes(env, db, contents)
  {
    if HasOutput(db.tasks) {
      assert RowOk(db.files[db.tasks[0].output.value.file]);
    }
  }

  lemma ReachedSound(env: Env, s: Sys)
    requires Reached(env, s)
    ensures SoundBytes(env, s.db, s.contents)
  {
    ReachedStored(env, s);
    ReachedOk(env, s);
    StoredIsSound(env, s.db, s.contents);
  }

  lemma {:induction false} RunReached(env: Env, s: Sys, more: seq<Step>)
    requires Reached(env, s)
    ensures Reached(env, Run(env, s, more))
    decreases |more|
  {
    if more != [] {
      RunReached(env, s, more[..|more| - 1]);
      ReachedNext(env, Run(env, s, more[..|more| - 1]), more[|more| - 1]);
    }
  }

  /** Once there is an output its bytes are stored for ever, unchanged, readable and under their own hash. */
  lemma StoredForEver(env: Env, s: Sys, more: seq<Step>)
    requires Reached(env, s) && HasOutput(s.db.tasks)
    ensures var sha, later := s.db.tasks[0].output.value.sha, Run(env, s, more);
      && SoundBytes(env, later.db, later.contents) && HasOutput(later.db.tasks)
      && later.db.tasks[0].output == s.db.tasks[0].output
      && sha in s.contents && sha in later.contents && later.contents[sha] == s.contents[sha]
  {
    ReachedStored(env, s);
    RunReached(env, s, more);
    ReachedSound(env, Run(env, s, more));
    OneOutputForEver(env, s, more);
    assert Grown(s.contents, Run(env, s, more).contents) by {
      ReachedOk(env, s);
      RunQuiet(env, s, more, 0);
    }
  }

  // ---------------------------------------------------------------- the finalizer reads them

  lemma SoundPasses(env: Env, db: Db, contents: map<Digest, Bytes>, e: Event)
    requires TasksOk(db.status, db.tasks, db.signings) && SoundBytes(env, db, contents)
    requires Inspect(env, db, e).Ok? && Inspect(env, db, e).value.gates.Pass()
    ensures StorageEvidence(env, contents, Inspect(env, db, e).value, e).Ok?
  {
  }

  /** In every reachable state the stored bytes pass whatever the database gates let through. */
  lemma EvidencePasses(env: Env, s: Sys, e: Event)
    requires Reached(env, s)
    ensures FirstCheck(env, s.db, s.contents, e)
      <==> Inspect(env, s.db, e).Ok? && Inspect(env, s.db, e).value.gates.Pass()
  {
    ReachedSound(env, s);
    ReachedOk(env, s);
    if Inspect(env, s.db, e).Ok? && Inspect(env, s.db, e).value.gates.Pass() {
      SoundPasses(env, s.db, s.contents, e);
    }
  }

  /**
   So a rendered case whose signing is still valid completes at the next delivery of its own event: the finalizer's
   check of rows and stored bytes passes, and the commit that expects what the check saw completes the case.
   */
  lemma DeliveryCompletes(env: Env, s: Sys, e: Event)
    requires Reached(env, s) && Required(env.slots) != [] && (s.db.status == Finalizing || s.db.status == PdfFailed)
    requires s.db.tasks != [] && s.db.tasks[0].output == Some(Output(e.file, e.sha))
    requires SigningOfTaskValid(s.db, s.db.tasks[0])
    requires e.task == 0 && e.caseId == env.caseId && e.version == 1
    ensures Inspect(env, s.db, e).Ok? && Checked(env, s, e, Inspect(env, s.db, e).value)
    ensures var (outcome, after) := Finalize(env, s.db, e, Some(Inspect(env, s.db, e).value.fingerprint));
      outcome == CaseCompleted && after.status == Completed
  {
    EvidencePasses(env, s, e);
    ReachedOk(env, s);
    DeliveryOf(env, s.db, e);
  }
}
