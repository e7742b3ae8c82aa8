/**
 What any step may do to the rows over time: rows are never taken away, immutable columns never change,
 one-way flags never come back, a set output never changes, and a completed case is frozen.
 */
module Evolution {
  import opened Common
  import opened Placement
  import opened CaseModel
  import opened CaseTransactions
  import opened PdfTransactions
  import opened CaseInvariants
  import opened CaseProofs
  import opened System
  import opened SystemInvariants
  import opened SystemProofs
  import opened WorkerProofs

  // ---------------------------------------------------------------- the relation, table by table

  ghost predicate FilesGrow(files: seq<FileRow>, later: seq<FileRow>) {
    && |files| <= |later|
    && forall i | 0 <= i < |files| ::
         && later[i] == files[i].(removed := later[i].removed, cacheActive := later[i].cacheActive)
         && (files[i].removed ==> later[i].removed) && (later[i].cacheActive ==> files[i].cacheActive)
  }

  ghost predicate SigningsGrow(signings: seq<Signing>, later: seq<Signing>) {
    && |signings| <= |later|
    && forall k | 0 <= k < |signings| ::
         later[k] == signings[k].(valid := later[k].valid) && (later[k].valid ==> signings[k].valid)
  }

  ghost predicate LinksGrow(links: seq<Link>, later: seq<Link>) {
    && |links| <= |later|
    && forall i | 0 <= i < |links| ::
         && later[i].expiresAt == links[i].expiresAt && (links[i].disabled ==> later[i].disabled)
         && (links[i].consumed ==> later[i].consumed) && (links[i].completed ==> later[i].completed)
  }

  /** A row is published once; its queue, generation and payload are for ever. */
  ghost predicate OutboxGrows(outbox: seq<OutboxRow>, later: seq<OutboxRow>) {
    && |outbox| <= |later|
    && forall i | 0 <= i < |outbox| ::
         && later[i] == outbox[i].(published := later[i].published, attempts := later[i].attempts)
         && (outbox[i].published.Some? ==> later[i].published == outbox[i].published)
         && outbox[i].attempts <= later[i].attempts
  }

  /** A set output stays; a set journal stays until the output with the same hash replaces it. */
  ghost predicate TaskGrows(t: PdfTask, n: PdfTask) {
    && n.snapshotVersion == t.snapshotVersion && n.signatureVersion == t.signatureVersion
    && n.maxAttempts == t.maxAttempts
    && (t.output.Some? ==> n.output == t.output)
    && (t.pending.Some? ==> n.pending == t.pending || (n.output.Some? && n.output.value.sha == t.pending.value.sha))
    && t.claimGeneration <= n.claimGeneration && t.queueGeneration <= n.queueGeneration
    && t.deliveryGeneration <= n.deliveryGeneration
  }

  ghost predicate TasksGrow(tasks: seq<PdfTask>, later: seq<PdfTask>) {
    |tasks| <= |later| && forall i | 0 <= i < |tasks| :: TaskGrows(tasks[i], later[i])
  }

  /** A completed case keeps its content, its signings, its reviews and its task as they are. */
  ghost predicate Frozen(db: Db, later: Db) {
    && later.status == db.status && later.history == db.history
    && later.drafts == db.drafts && later.signings == db.signings && later.reviews == db.reviews
    && later.reviewer == db.reviewer
    && later.submissions == db.submissions && later.tasks == db.tasks && |later.files| == |db.files|
    && forall i | 0 <= i < |db.files| :: later.files[i] == db.files[i] || db.files[i].purpose == PresignPdf
  }

  ghost predicate TerminalStays(db: Db, later: Db) {
    && (db.status == Completed ==> Frozen(db, later))
    && (db.status == Closed ==> later.status == Closed && later.history == db.history)
  }

  ghost predicate TablesGrow(db: Db, later: Db) {
    && FilesGrow(db.files, later.files) && SigningsGrow(db.signings, later.signings) && LinksGrow(db.links, later.links)
    && OutboxGrows(db.outbox, later.outbox) && TasksGrow(db.tasks, later.tasks)
    && db.drafts <= later.drafts && db.submissions <= later.submissions && db.history <= later.history
  }

  ghost predicate Grows(db: Db, later: Db) {
    TablesGrow(db, later) && TerminalStays(db, later)
  }

  // ---------------------------------------------------------------- it is a preorder

  lemma GrowsReflexive(db: Db)
    ensures Grows(db, db)
  {
  }

  lemma FilesGrowTransitive(a: seq<FileRow>, b: seq<FileRow>, c: seq<FileRow>)
    requires FilesGrow(a, b) && FilesGrow(b, c)
    ensures FilesGrow(a, c)
  {
    forall i | 0 <= i < |a|
      ensures c[i] == a[i].(removed := c[i].removed, cacheActive := c[i].cacheActive)
      ensures (a[i].removed ==> c[i].removed) && (c[i].cacheActive ==> a[i].cacheActive)
    {
      assert b[i] == a[i].(removed := b[i].removed, cacheActive := b[i].cacheActive);
      assert c[i] == b[i].(removed := c[i].removed, cacheActive := c[i].cacheActive);
    }
  }

  lemma TasksGrowTransitive(a: seq<PdfTask>, b: seq<PdfTask>, c: seq<PdfTask>)
    requires TasksGrow(a, b) && TasksGrow(b, c)
    ensures TasksGrow(a, c)
  {
    forall i | 0 <= i < |a|
      ensures TaskGrows(a[i], c[i])
    {
      assert TaskGrows(a[i], b[i]) && TaskGrows(b[i], c[i]);
    }
  }

  lemma TablesGrowTransitive(a: Db, b: Db, c: Db)
    requires TablesGrow(a, b) && TablesGrow(b, c)
    ensures TablesGrow(a, c)
  {
    FilesGrowTransitive(a.files, b.files, c.files);
    TasksGrowTransitive(a.tasks, b.tasks, c.tasks);
  }

  lemma TerminalStaysTransitive(a: Db, b: Db, c: Db)
    requires TerminalStays(a, b) && TerminalStays(b, c)
    ensures TerminalStays(a, c)
  {
  }

  lemma GrowsTransitive(a: Db, b: Db, c: Db)
    requires Grows(a, b) && Grows(b, c)
    ensures Grows(a, c)
  {
    TablesGrowTransitive(a, b, c);
    TerminalStaysTransitive(a, b, c);
  }

  // ---------------------------------------------------------------- case transactions

  lemma LinkTxGrows(db: Db, now: nat, tx: LinkTx)
    ensures Grows(db, LinkDb(db, now, tx))
  {
    LinkTxTouches(db, now, tx);
  }

  lemma ClientTxGrows(env: Env, db: Db, now: nat, tx: ClientTx)
    ensures Grows(db, ClientDb(env, db, now, tx))
  {
    ClientTxTouches(env, db, now, tx);
  }

  /** A transaction over the file table and the signings, refused once the case is over or touching previews only. */
  lemma FileChangeGrows(db: Db, after: Db)
    requires after == db.(files := after.files, signings := after.signings)
    requires FilesGrow(db.files, after.files) && SigningsGrow(db.signings, after.signings)
    requires db.status == Completed ==> after.signings == db.signings && |after.files| == |db.files|
    requires db.status == Completed ==> forall i | 0 <= i < |db.files| ::
      after.files[i] == db.files[i] || db.files[i].purpose == PresignPdf
    ensures Grows(db, after)
  {
  }

  lemma PreviewGrows(env: Env, db: Db, now: nat, token: nat, r: Rendered)
    requires PersistPreview(env, db, now, token, r).Ok?
    ensures Grows(db, PersistPreview(env, db, now, token, r).value.db)
  {
    FileChangeGrows(db, PersistPreview(env, db, now, token, r).value.db);
  }

  lemma UploadGrows(env: Env, db: Db, now: nat, token: nat, reference: string, u: Upload)
    requires UploadMaterial(env, db, now, token, reference, u).Ok?
    ensures Grows(db, UploadMaterial(env, db, now, token, reference, u).value.db)
  {
    FileChangeGrows(db, UploadMaterial(env, db, now, token, reference, u).value.db);
  }

  lemma RemovalGrows(db: Db, now: nat, token: nat, i: nat)
    requires RemoveMaterial(db, now, token, i).Ok?
    ensures Grows(db, RemoveMaterial(db, now, token, i).value)
  {
  }

  lemma ResourceGrows(db: Db, now: nat, token: nat, purpose: Purpose, original: Option<nat>, u: Upload)
    requires UploadResource(db, now, token, purpose, original, u).Ok?
    ensures Grows(db, UploadResource(db, now, token, purpose, original, u).value.db)
  {
    FileChangeGrows(db, UploadResource(db, now, token, purpose, original, u).value.db);
  }

  lemma DropGrows(db: Db, i: nat)
    requires DropCorruptPreview(db, i).Ok?
    ensures Grows(db, DropCorruptPreview(db, i).value)
  {
    FileChangeGrows(db, DropCorruptPreview(db, i).value);
  }

  lemma FileTxGrows(env: Env, db: Db, now: nat, tx: FileTx)
    ensures Grows(db, FileDb(env, db, now, tx))
  {
    if FileDb(env, db, now, tx) == db {
      GrowsReflexive(db);
    } else {
      match tx
      case PersistPreviewTx(token, r) => PreviewGrows(env, db, now, token, r);
      case DropCorruptPreviewTx(version) => DropGrows(db, version);
      case UploadMaterialTx(token, reference, u) => UploadGrows(env, db, now, token, reference, u);
      case RemoveMaterialTx(token, version) => RemovalGrows(db, now, token, version);
      case UploadResourceTx(token, purpose, original, u) => ResourceGrows(db, now, token, purpose, original, u);
    }
  }

  lemma ConfirmGrows(env: Env, db: Db, reviewer: string, expiresAt: nat)
    requires TasksOk(db.status, db.tasks, db.signings) && Confirm(env, db, reviewer, expiresAt).Ok?
    ensures Grows(db, Confirm(env, db, reviewer, expiresAt).value)
  {
    ConfirmInserts(env, db, reviewer, expiresAt);
  }

  lemma ItemGrows(env: Env, db: Db, reviewer: string, requirement: string, decision: Decision, hasReason: bool)
    requires ReviewItem(env, db, reviewer, requirement, decision, hasReason).Ok?
    ensures Grows(db, ReviewItem(env, db, reviewer, requirement, decision, hasReason).value)
  {
  }

  lemma ReviewerGrows(db: Db, reviewer: Option<string>)
    requires db.status != Completed
    ensures Grows(db, db.(reviewer := reviewer))
  {
  }

  lemma ReviewTxGrows(env: Env, db: Db, tx: ReviewTx)
    requires TasksOk(db.status, db.tasks, db.signings)
    ensures Grows(db, ReviewDb(env, db, tx))
  {
    if ReviewDb(env, db, tx) == db {
      GrowsReflexive(db);
    } else {
      match tx
      case ConfirmTx(reviewer, expiresAt) => ConfirmGrows(env, db, reviewer, expiresAt);
      case ReviewItemTx(reviewer, requirement, decision, hasReason) =>
        ItemGrows(env, db, reviewer, requirement, decision, hasReason);
      case _ => ReviewerGrows(db, ReviewDb(env, db, tx).reviewer);
    }
  }

  /** A transaction that touches the task, the status and its history, and nothing once the case is over. */
  lemma TaskTxGrows(db: Db, after: Db)
    requires after == db.(status := after.status, history := after.history, tasks := after.tasks)
    requires TasksGrow(db.tasks, after.tasks) && db.history <= after.history
    requires db.status == Completed || db.status == Closed ==> after.status == db.status && after.history == db.history
    requires db.status == Completed ==> after.tasks == db.tasks
    ensures Grows(db, after)
  {
  }

  lemma CompletingLinksGrow(links: seq<Link>)
    ensures LinksGrow(links, CompleteAll(links))
  {
  }

  lemma FinalizeLeaves(env: Env, db: Db, e: Event, expected: Option<Fingerprint>)
    requires TasksOk(db.status, db.tasks, db.signings)
    ensures var after := Finalize(env, db, e, expected).1;
      && after == db.(status := after.status, history := after.history, tasks := after.tasks, links := after.links)
      && LinksGrow(db.links, after.links) && db.history <= after.history
      && (db.status == Completed ==> after == db)
      && (db.status == Closed ==> after.status == db.status && after.history == db.history)
  {
    if Finalize(env, db, e, expected).1 != db {
      CompletingLinksGrow(db.links);
    }
  }

  lemma FinalizeGrows(env: Env, db: Db, e: Event, expected: Option<Fingerprint>)
    requires TasksOk(db.status, db.tasks, db.signings)
    ensures Grows(db, Finalize(env, db, e, expected).1)
  {
    FinalizeTasks(env, db, e, expected);
    FinalizeLeaves(env, db, e, expected);
  }

  lemma RetryGrows(db: Db)
    requires TasksOk(db.status, db.tasks, db.signings) && Retry(db).Ok?
    ensures Grows(db, Retry(db).value)
  {
  }

  lemma DeliveryFailureGrows(env: Env, db: Db, e: Event, reason: string, terminal: bool)
    requires TasksOk(db.status, db.tasks, db.signings)
    ensures Grows(db, RecordDeliveryFailure(env, db, e, reason, terminal))
  {
    TaskTxGrows(db, RecordDeliveryFailure(env, db, e, reason, terminal));
  }

  lemma SendGrows(db: Db, row: nat, answer: Option<string>)
    ensures Grows(db, RecordSend(db, row, answer))
  {
  }

  lemma PdfTxGrows(env: Env, db: Db, tx: PdfTx)
    requires TasksOk(db.status, db.tasks, db.signings)
    ensures Grows(db, PdfDb(env, db, tx))
  {
    match tx
    case RetryTx => if Retry(db).Ok? { RetryGrows(db); }
    case CheckFinalizationTx(_) => GrowsReflexive(db);
    case FinalizeTx(ticket) => FinalizeGrows(env, db, ticket.event, Some(ticket.fingerprint));
    case DeliveryFailureTx(event, reason, terminal) => DeliveryFailureGrows(env, db, event, reason, terminal);
    case SendTx(row, answer) => SendGrows(db, row, answer);
  }

  lemma TxGrows(env: Env, db: Db, now: nat, tx: Tx)
    requires TasksOk(db.status, db.tasks, db.signings)
    ensures Grows(db, TxDb(env, db, now, tx))
  {
    match tx
    case OfLink(t) => LinkTxGrows(db, now, t);
    case OfClient(t) => ClientTxGrows(env, db, now, t);
    case OfFile(t) => FileTxGrows(env, db, now, t);
    case OfReview(t) => ReviewTxGrows(env, db, t);
    case OfPdf(t) => PdfTxGrows(env, db, t);
  }

  // ---------------------------------------------------------------- worker transactions

  lemma ClaimTaskGrows(env: Env, db: Db, now: nat, job: Job, token: nat)
    requires |db.tasks| <= 1
    ensures var tasks := Claim(env, db, now, job, token).1.tasks;
      tasks != db.tasks ==> |db.tasks| == |tasks| == 1 && TaskGrows(db.tasks[0], tasks[0])
  {
    var (outcome, after) := Claim(env, db, now, job, token);
    if outcome.Claimed? {
      assert after.tasks[0] == db.tasks[0].(status := Processing, attempts := db.tasks[0].attempts + 1,
        claimGeneration := db.tasks[0].claimGeneration + 1, lease := Some(token), startedAt := Some(now));
    } else if outcome.Busy? && after != db {
      assert after.tasks[0] == FailTask(db.tasks[0], "PDF_PROCESSING_LEASE_EXPIRED_RETRY_EXHAUSTED");
    }
  }

  lemma ClaimTasksGrow(env: Env, db: Db, now: nat, job: Job, token: nat)
    requires TasksOk(db.status, db.tasks, db.signings)
    ensures TasksGrow(db.tasks, Claim(env, db, now, job, token).1.tasks)
  {
    var tasks := Claim(env, db, now, job, token).1.tasks;
    ClaimTaskGrows(env, db, now, job, token);
    if tasks != db.tasks {
      assert tasks == [tasks[0]];
    }
  }

  lemma FailCaseLeaves(db: Db)
    ensures var after := FailCase(db);
      after == db.(status := after.status, history := after.history) && db.history <= after.history
  {
  }

  lemma ClaimLeaves(env: Env, db: Db, now: nat, job: Job, token: nat)
    ensures var after := Claim(env, db, now, job, token).1;
      && after == db.(status := after.status, history := after.history, tasks := after.tasks)
      && db.history <= after.history && (db.status != Finalizing ==> after == db)
  {
    var after := Claim(env, db, now, job, token).1;
    FailCaseLeaves(db);
    if after != db && after.status == db.status && after.history == db.history {
      assert after == db.(tasks := after.tasks);
    }
  }

  lemma ClaimGrows(env: Env, db: Db, now: nat, job: Job, token: nat)
    requires TasksOk(db.status, db.tasks, db.signings)
    ensures Grows(db, Claim(env, db, now, job, token).1)
  {
    ClaimTasksGrow(env, db, now, job, token);
    ClaimLeaves(env, db, now, job, token);
    TaskTxGrows(db, Claim(env, db, now, job, token).1);
  }

  lemma JournalGrows(db: Db, task: nat, token: nat, generation: int, entry: Journal)
    requires TasksOk(db.status, db.tasks, db.signings) && JournalPending(db, task, token, generation, entry).Ok?
    ensures Grows(db, JournalPending(db, task, token, generation, entry).value)
  {
    TaskTxGrows(db, JournalPending(db, task, token, generation, entry).value);
  }

  lemma WithOutputGrows(db: Db, c: Completion)
    requires TasksOk(db.status, db.tasks, db.signings) && db.tasks != [] && db.tasks[0].output.None?
    requires db.status != Completed && (db.tasks[0].pending.Some? ==> db.tasks[0].pending.value.sha == c.sha)
    ensures Grows(db, WithOutput(db, 0, c))
  {
    var after := WithOutput(db, 0, c);
    assert after.tasks == [after.tasks[0]] && TaskGrows(db.tasks[0], after.tasks[0]);
    assert forall i | 0 <= i < |db.files| :: after.files[i] == db.files[i];
    assert forall i | 0 <= i < |db.outbox| :: after.outbox[i] == db.outbox[i];
  }

  lemma CompleteGrows(env: Env, db: Db, job: Job, token: nat, generation: int, c: Completion)
    requires TasksOk(db.status, db.tasks, db.signings)
    ensures Grows(db, CompleteTask(env, db, job, token, generation, c).1)
  {
    if CompleteTask(env, db, job, token, generation, c).0.Complete? {
      WithOutputGrows(db, c);
    } else {
      GrowsReflexive(db);
    }
  }

  lemma FailGrows(db: Db, task: nat, token: nat, generation: int, terminal: bool, reason: string)
    requires TasksOk(db.status, db.tasks, db.signings)
    ensures Grows(db, FailAttempt(db, task, token, generation, terminal, reason))
  {
    TaskTxGrows(db, FailAttempt(db, task, token, generation, terminal, reason));
  }

  lemma ClaimStepGrows(env: Env, s: Sys, w: nat)
    requires TasksOk(s.db.status, s.db.tasks, s.db.signings) && w in s.workers
    ensures Grows(s.db, ClaimStep(env, s, w).db)
  {
    ClaimGrows(env, s.db, s.now, s.workers[w].job, s.nextToken);
  }

  lemma FailStepGrows(s: Sys, w: nat, token: nat, generation: int, terminal: bool)
    requires TasksOk(s.db.status, s.db.tasks, s.db.signings) && w in s.workers
    ensures Grows(s.db, FailStep(s, w, token, generation, terminal).db)
  {
    FailGrows(s.db, s.workers[w].job.task, token, generation, terminal, "PDF_FAILURE");
  }

  lemma GoLeaseGrows(env: Env, s: Sys, w: nat)
    requires TasksOk(s.db.status, s.db.tasks, s.db.signings) && w in s.workers
    ensures Grows(s.db, GoLease(env, s, w).db)
  {
    var pc := s.workers[w].pc;
    if pc.Claiming? {
      ClaimStepGrows(env, s, w);
    } else if pc.Aborting? || pc.Failing? {
      var token, generation := if pc.Aborting? then pc.token else pc.h.token,
        if pc.Aborting? then pc.generation else pc.h.generation;
      var terminal := if pc.Aborting? then pc.terminal else pc.h.attempts >= pc.h.maxAttempts;
      FailStepGrows(s, w, token, generation, terminal);
      assert GoLease(env, s, w) == FailStep(s, w, token, generation, terminal);
    } else {
      GrowsReflexive(s.db);
    }
  }

  lemma JournalStepGrows(env: Env, s: Sys, w: nat, h: Holder, bytes: Bytes)
    requires TasksOk(s.db.status, s.db.tasks, s.db.signings) && w in s.workers
    ensures Grows(s.db, JournalStep(env, s, w, h, bytes).db)
  {
    var job := s.workers[w].job;
    var entry := Journal(KeyOf(job), env.sha(bytes), |bytes|);
    if JournalPending(s.db, job.task, h.token, h.generation, entry).Ok? {
      JournalGrows(s.db, job.task, h.token, h.generation, entry);
    }
  }

  lemma CompleteStepGrows(env: Env, s: Sys, w: nat, h: Holder, bytes: Bytes, fileId: nat)
    requires TasksOk(s.db.status, s.db.tasks, s.db.signings) && w in s.workers
    ensures Grows(s.db, CompleteStep(env, s, w, h, bytes, fileId).db)
  {
    var c := CompletionOf(env, bytes, fileId);
    CompleteGrows(env, s.db, s.workers[w].job, h.token, h.generation, c);
    GrowsReflexive(s.db);
    var (outcome, db) := CompleteTask(env, s.db, s.workers[w].job, h.token, h.generation, c);
    assert CompleteStep(env, s, w, h, bytes, fileId).db == if outcome.Complete? then db else s.db;
  }

  lemma GoRecordGrows(env: Env, s: Sys, w: nat, input: Input)
    requires TasksOk(s.db.status, s.db.tasks, s.db.signings) && w in s.workers
    ensures Grows(s.db, GoRecord(env, s, w, input).db)
  {
    if GoRecord(env, s, w, input).db == s.db {
      GrowsReflexive(s.db);
    } else {
      match s.workers[w].pc
      case Journalling(h, bytes) => JournalStepGrows(env, s, w, h, bytes);
      case Completing(h, bytes) => CompleteStepGrows(env, s, w, h, bytes, input.fileId);
      case Publishing(row) => SendGrows(s.db, row, input.answer);
    }
  }

  lemma GoGrows(env: Env, s: Sys, w: nat, input: Input)
    requires TasksOk(s.db.status, s.db.tasks, s.db.signings) && w in s.workers
    ensures Grows(s.db, Go(env, s, w, input).db)
  {
    var pc := s.workers[w].pc;
    if OnLease(pc) {
      GoLeaseGrows(env, s, w);
    } else if OnRead(pc) {
      GoReadTouches(env, s, w);
    } else if OnStage(pc) {
      GoStageTouches(env, s, w, input);
    } else if OnStore(pc) {
      GoStoreTouches(env, s, w);
    } else {
      GoRecordGrows(env, s, w, input);
    }
  }

  // ---------------------------------------------------------------- steps and runs

  lemma TxStepGrows(env: Env, s: Sys, tx: Tx)
    requires TasksOk(s.db.status, s.db.tasks, s.db.signings)
    ensures Grows(s.db, ApplyTx(env, s, tx).db)
  {
    TxGrows(env, s.db, s.now, tx);
    GrowsReflexive(s.db);
  }

  lemma StepGrows(env: Env, s: Sys, step: Step)
    requires TasksOk(s.db.status, s.db.tasks, s.db.signings)
    ensures Grows(s.db, Apply(env, s, step).db)
  {
    GrowsReflexive(s.db);
    if step.Case? {
      TxStepGrows(env, s, step.tx);
    } else if step.Advance? && step.worker in s.workers {
      GoGrows(env, s, step.worker, step.input);
    } else {
      assert Apply(env, s, step).db == s.db;
    }
  }

  lemma OneMoreGrows(env: Env, db: Db, s: Sys, step: Step)
    requires TasksOk(s.db.status, s.db.tasks, s.db.signings)
    ensures Grows(db, s.db) ==> Grows(db, Apply(env, s, step).db)
  {
    if Grows(db, s.db) {
      StepGrows(env, s, step);
      GrowsTransitive(db, s.db, Apply(env, s, step).db);
    }
  }

  /** From any reachable state on, whatever happens, the rows only grow. */
  lemma {:induction false} RunGrows(env: Env, s: Sys, steps: seq<Step>)
    requires SysOk(env, s)
    ensures Grows(s.db, Run(env, s, steps).db)
    decreases |steps|
  {
    if steps != [] {
      var before := Run(env, s, steps[..|steps| - 1]);
      RunGrows(env, s, steps[..|steps| - 1]);
      RunKeeps(env, s, steps[..|steps| - 1]);
      OneMoreGrows(env, s.db, before, steps[|steps| - 1]);
    } else {
      GrowsReflexive(s.db);
    }
  }
}
