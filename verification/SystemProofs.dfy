/** Every step keeps `SysOk`; hence every state of every run satisfies it. */
module SystemProofs {
  import opened Common
  import opened CaseModel
  import opened CaseTransactions
  import opened PdfTransactions
  import opened CaseInvariants
  import opened CaseProofs
  import opened PdfProofs
  import opened System
  import opened SystemInvariants

  // ---------------------------------------------------------------- what one step may do to the task

  ghost predicate TaskEvolves(t: PdfTask, next: PdfTask, nextToken: nat) {
    && next.maxAttempts == t.maxAttempts && next.snapshotVersion == t.snapshotVersion
    && next.signatureVersion == t.signatureVersion
    && (t.status == Succeeded ==> next.status == Succeeded && next.output == t.output)
    && (|| next.lease.None?
        || (next.lease.Some? && next.lease.value >= nextToken)
        || (&& next.lease == t.lease && next.claimGeneration == t.claimGeneration && next.attempts == t.attempts
            && (next.pending == t.pending || t.pending.None?)))
  }

  ghost predicate TasksEvolve(tasks: seq<PdfTask>, next: seq<PdfTask>, nextToken: nat) {
    tasks != [] ==> next != [] && TaskEvolves(tasks[0], next[0], nextToken)
  }

  ghost predicate Grown<K, V>(m: map<K, V>, more: map<K, V>) {
    forall k | k in m :: k in more && more[k] == m[k]
  }

  lemma OtherWorkerKept(
    env: Env, tasks: seq<PdfTask>, next: seq<PdfTask>, first: map<StageKey, Bytes>, first': map<StageKey, Bytes>,
    contents: map<Digest, Bytes>, contents': map<Digest, Bytes>, nextToken: nat, nextToken': nat, w: Worker)
    requires WorkerOk(env, tasks, first, contents, nextToken, w)
    requires TasksEvolve(tasks, next, nextToken) && Grown(first, first') && Grown(contents, contents')
    requires nextToken <= nextToken'
    ensures WorkerOk(env, next, first', contents', nextToken', w)
  {
  }

  /** The part of the state the other workers depend on has only grown or evolved. */
  ghost predicate Quiet(s: Sys, s': Sys) {
    && TasksEvolve(s.db.tasks, s'.db.tasks, s.nextToken) && Grown(s.first, s'.first) && Grown(s.contents, s'.contents)
    && s.nextToken <= s'.nextToken
  }

  lemma WorkersKept(env: Env, s: Sys, s': Sys)
    requires WorkersOk(env, s.db.tasks, s.first, s.contents, s.nextToken, s.workers) && Quiet(s, s')
    requires s'.workers == s.workers
    requires s'.db.tasks != [] && s'.db.tasks[0].lease.Some? ==> s'.db.tasks[0].lease.value < s'.nextToken
    ensures WorkersOk(env, s'.db.tasks, s'.first, s'.contents, s'.nextToken, s'.workers)
  {
    forall w | w in s.workers {
      OtherWorkerKept(env, s.db.tasks, s'.db.tasks, s.first, s'.first, s.contents, s'.contents, s.nextToken,
        s'.nextToken, s.workers[w]);
    }
  }

  /** One worker moved: it must be fine itself and may only keep, drop or freshly obtain its token. */
  lemma WorkerMoved(env: Env, s: Sys, s': Sys, w: nat, pc: Pc)
    requires WorkersOk(env, s.db.tasks, s.first, s.contents, s.nextToken, s.workers) && TokensDistinct(s.workers)
    requires Quiet(s, s')
    requires w in s.workers && s'.workers == s.workers[w := s.workers[w].(pc := pc)]
    requires TokenOf(pc).None? || TokenOf(pc) == TokenOf(s.workers[w].pc) || TokenOf(pc) == Some(s.nextToken)
    requires WorkerOk(env, s'.db.tasks, s'.first, s'.contents, s'.nextToken, s'.workers[w])
    requires s'.db.tasks != [] && s'.db.tasks[0].lease.Some? ==> s'.db.tasks[0].lease.value < s'.nextToken
    ensures WorkersOk(env, s'.db.tasks, s'.first, s'.contents, s'.nextToken, s'.workers) && TokensDistinct(s'.workers)
  {
    forall v | v in s'.workers && v != w {
      OtherWorkerKept(env, s.db.tasks, s'.db.tasks, s.first, s'.first, s.contents, s'.contents, s.nextToken,
        s'.nextToken, s.workers[v]);
    }
    forall v | v in s.workers
      ensures TokenOf(s.workers[v].pc) != Some(s.nextToken)
    {
      assert WorkerOk(env, s.db.tasks, s.first, s.contents, s.nextToken, s.workers[v]);
    }
  }

  // ---------------------------------------------------------------- doomed keys

  /** Rows keep their key, tombstones stay, new keys are new, and a new signing pins a live preview. */
  lemma DoomedKept(
    files: seq<FileRow>, signings: seq<Signing>, files': seq<FileRow>, signings': seq<Signing>, doomed: set<string>)
    requires DoomedOk(files, signings, doomed) && |files| <= |files'| && |signings| <= |signings'|
    requires forall i | 0 <= i < |files| ::
      files'[i].key == files[i].key && files'[i].purpose == files[i].purpose && (files[i].removed ==> files'[i].removed)
    requires forall i | |files| <= i < |files'| :: !KeyTaken(files, files'[i].key)
    requires forall k | 0 <= k < |signings| :: signings'[k].preview == signings[k].preview
    requires forall k | |signings| <= k < |signings'| ::
      signings'[k].preview < |files| && !files[signings'[k].preview].removed
    ensures DoomedOk(files', signings', doomed)
  {
    forall key | key in doomed
      ensures KeyTaken(files', key)
      ensures forall i | 0 <= i < |files'| && files'[i].key == key ::
                files'[i].purpose == PresignPdf && files'[i].removed && !PreviewReferenced(signings', i)
    {
      var j :| 0 <= j < |files| && files[j].key == key;
      assert files'[j].key == key;
      forall i | 0 <= i < |files'| && files'[i].key == key
        ensures files'[i].purpose == PresignPdf && files'[i].removed && !PreviewReferenced(signings', i)
      {
        assert i < |files|;
        assert files[i].key == key;
        forall k | 0 <= k < |signings'|
          ensures signings'[k].preview != i
        {
          if k < |signings| {
            assert signings[k].preview == signings'[k].preview;
          }
        }
      }
    }
  }

  /** Rotation dooms keys of tombstoned rows nobody refers to. */
  lemma RotationDooms(files: seq<FileRow>, signings: seq<Signing>, r: Rendered, doomed: set<string>)
    requires KeysDistinct(files) && !KeyTaken(files, r.key)
    requires DoomedOk(files, signings, doomed)
    ensures DoomedOk(Rotate(files) + [PreviewRow(r)], signings, doomed + (RetiredKeys(files, signings) - {r.key}))
  {
    var files' := Rotate(files) + [PreviewRow(r)];
    DoomedKept(files, signings, files', signings, doomed);
    forall key | key in RetiredKeys(files, signings)
      ensures KeyTaken(files', key)
      ensures forall i | 0 <= i < |files'| && files'[i].key == key ::
                files'[i].purpose == PresignPdf && files'[i].removed && !PreviewReferenced(signings, i)
    {
      var j :| 0 <= j < |files| && Retires(files, j) && !PreviewReferenced(signings, j) && files[j].key == key;
      assert files'[j].key == key;
    }
  }

  // ---------------------------------------------------------------- case transactions keep the database

  /** The tickets a commit relies on came from a first phase. */
  ghost predicate TicketOk(tx: ClientTx) {
    && (tx.CommitSubmissionTx? ==> Editable(tx.submitTicket.status))
    && (tx.CommitSigningTx? ==> SignTicketOk(tx.signTicket))
  }

  lemma LinkTxKeeps(env: Env, now: nat, db: Db, tx: LinkTx)
    requires DbOk(env, now, db)
    ensures DbOk(env, now, LinkDb(db, now, tx))
  {
    if LinkDb(db, now, tx) != db {
      match tx
      case SubmitDraftTx(expiresAt) => SubmitDraftKeeps(env, now, db, expiresAt);
      case DisableLinkTx => DisableLinkKeeps(env, now, db);
      case ReplaceLinkTx(expiresAt, requireExisting) => ReplaceLinkKeeps(env, now, db, expiresAt, requireExisting);
      case GenerateRejectionTx(rotate, expiresAt) => GenerateRejectionKeeps(env, now, db, rotate, expiresAt);
      case CloseTx => CloseKeeps(env, now, db);
      case DisableTemplateTx =>
    }
  }

  lemma ClientTxKeeps(env: Env, now: nat, db: Db, tx: ClientTx)
    requires DbOk(env, now, db) && TicketOk(tx)
    ensures DbOk(env, now, ClientDb(env, db, now, tx))
  {
    if ClientDb(env, db, now, tx) != db {
      match tx
      case SaveDraftTx(token, request) => SaveDraftKeeps(env, now, db, DraftOf(request));
      case CommitSubmissionTx(token, ticket) => CommitSubmissionKeeps(env, now, db, token, ticket);
      case CommitSigningTx(token, command, ticket) => CommitSigningKeeps(env, now, db, token, command, ticket);
      case _ =>
    }
  }

  lemma FileTxKeeps(env: Env, now: nat, db: Db, tx: FileTx)
    requires DbOk(env, now, db)
    ensures DbOk(env, now, FileDb(env, db, now, tx))
  {
    if FileDb(env, db, now, tx) != db {
      match tx
      case PersistPreviewTx(token, r) => PersistPreviewKeeps(env, now, db, token, r);
      case DropCorruptPreviewTx(version) => DropCorruptPreviewKeeps(env, now, db, version);
      case UploadMaterialTx(token, reference, u) => UploadMaterialKeeps(env, now, db, token, reference, u);
      case RemoveMaterialTx(token, version) => RemoveMaterialKeeps(env, now, db, token, version);
      case UploadResourceTx(token, purpose, original, u) =>
        UploadResourceKeeps(env, now, db, token, purpose, original, u);
    }
  }

  lemma ReviewTxKeeps(env: Env, now: nat, db: Db, tx: ReviewTx)
    requires DbOk(env, now, db)
    ensures DbOk(env, now, ReviewDb(env, db, tx))
  {
    if ReviewDb(env, db, tx) != db {
      match tx
      case ReviewItemTx(reviewer, requirement, decision, hasReason) =>
        ReviewItemKeeps(env, now, db, reviewer, requirement, decision, hasReason);
      case ConfirmTx(reviewer, expiresAt) => ConfirmKeeps(env, now, db, reviewer, expiresAt);
      case _ =>
    }
  }

  lemma PdfTxKeeps(env: Env, now: nat, db: Db, tx: PdfTx)
    requires DbOk(env, now, db)
    ensures DbOk(env, now, PdfDb(env, db, tx))
  {
    if PdfDb(env, db, tx) != db {
      match tx
      case RetryTx => RetryKeeps(env, now, db);
      case FinalizeTx(ticket) => FinalizeKeeps(env, now, db, ticket.event, Some(ticket.fingerprint));
      case DeliveryFailureTx(event, reason, terminal) =>
        RecordDeliveryFailureKeeps(env, now, db, event, reason, terminal);
      case SendTx(row, answer) => RecordSendKeeps(env, now, db, row, answer);
    }
  }

  /** Every transaction keeps the database's invariant. */
  lemma TxKeeps(env: Env, now: nat, db: Db, tx: Tx)
    requires DbOk(env, now, db) && (tx.OfClient? ==> TicketOk(tx.client))
    ensures DbOk(env, now, TxDb(env, db, now, tx))
  {
    match tx
    case OfLink(t) => LinkTxKeeps(env, now, db, t);
    case OfClient(t) => ClientTxKeeps(env, now, db, t);
    case OfFile(t) => FileTxKeeps(env, now, db, t);
    case OfReview(t) => ReviewTxKeeps(env, now, db, t);
    case OfPdf(t) => PdfTxKeeps(env, now, db, t);
  }

  // ---------------------------------------------------------------- which tables a transaction touches

  lemma LinkTxTouches(db: Db, now: nat, tx: LinkTx)
    ensures var after := LinkDb(db, now, tx);
      after == db.(status := after.status, links := after.links, history := after.history,
        templatePublished := after.templatePublished)
  {
  }

  lemma ClientTxTouches(env: Env, db: Db, now: nat, tx: ClientTx)
    ensures var after := ClientDb(env, db, now, tx);
      after == db.(status := after.status, links := after.links, history := after.history,
        submissions := after.submissions,
                   drafts := after.drafts, signings := after.signings)
  {
  }

  lemma FileTxTouches(env: Env, db: Db, now: nat, tx: FileTx)
    ensures var after := FileDb(env, db, now, tx); after == db.(files := after.files, signings := after.signings)
  {
  }

  lemma ReviewTxTouches(env: Env, db: Db, tx: ReviewTx)
    ensures var after := ReviewDb(env, db, tx);
      after == db.(status := after.status, links := after.links, history := after.history, reviewer := after.reviewer,
                   reviews := after.reviews, tasks := after.tasks)
  {
  }

  lemma PdfTxTouches(env: Env, db: Db, tx: PdfTx)
    ensures var after := PdfDb(env, db, tx);
      after == db.(status := after.status, links := after.links, history := after.history, tasks := after.tasks,
        outbox := after.outbox)
  {
  }

  // ---------------------------------------------------------------- what a case transaction may do to the task

  /** No case transaction takes, extends or moves a lease, writes a journal or an output, or counts a claim. */
  ghost predicate Settles(tasks: seq<PdfTask>, next: seq<PdfTask>) {
    && (tasks == [] && next != [] ==> exists v :: next == [NewTask(v)])
    && (tasks != [] ==>
          && next != []
          && var t, n := tasks[0], next[0];
             && n.pending == t.pending && n.output == t.output && n.lease == t.lease
             && n.claimGeneration == t.claimGeneration
             && n.maxAttempts == t.maxAttempts && n.snapshotVersion == t.snapshotVersion
             && n.signatureVersion == t.signatureVersion
             && (n.attempts == t.attempts || t.lease.None?) && (n.status == Succeeded <==> t.status == Succeeded))
  }

  lemma ReviewTxSettles(env: Env, db: Db, tx: ReviewTx)
    requires TasksOk(db.status, db.tasks, db.signings) && AccountOk(db.tasks)
    ensures Settles(db.tasks, ReviewDb(env, db, tx).tasks) && AccountOk(ReviewDb(env, db, tx).tasks)
  {
    if tx.ConfirmTx? && Confirm(env, db, tx.reviewer, tx.expiresAt).Ok? {
      ConfirmInserts(env, db, tx.reviewer, tx.expiresAt);
    }
  }

  lemma RetrySettles(db: Db)
    requires TasksOk(db.status, db.tasks, db.signings) && AccountOk(db.tasks) && Retry(db).Ok?
    ensures Settles(db.tasks, Retry(db).value.tasks) && AccountOk(Retry(db).value.tasks)
  {
    var t := db.tasks[0];
    assert Retry(db).value.tasks == [RetriedTask(t)];
    if !DeliveryRetry(t) {
      assert t.maxAttempts * (t.queueGeneration + 1) == t.maxAttempts * t.queueGeneration + t.maxAttempts;
    }
  }

  lemma FinalizeTasks(env: Env, db: Db, e: Event, expected: Option<Fingerprint>)
    requires TasksOk(db.status, db.tasks, db.signings)
    ensures var next := Finalize(env, db, e, expected).1.tasks;
      next == db.tasks || (db.tasks != [] && next == [db.tasks[0].(delivery := Delivered, deliveryFailure := None)])
  {
  }

  lemma DeliveryFailureSettles(env: Env, db: Db, e: Event, reason: string, terminal: bool)
    requires TasksOk(db.status, db.tasks, db.signings) && AccountOk(db.tasks)
    ensures var next := RecordDeliveryFailure(env, db, e, reason, terminal).tasks;
      Settles(db.tasks, next) && AccountOk(next)
  {
  }

  lemma PdfTxSettles(env: Env, db: Db, tx: PdfTx)
    requires TasksOk(db.status, db.tasks, db.signings) && AccountOk(db.tasks)
    ensures Settles(db.tasks, PdfDb(env, db, tx).tasks) && AccountOk(PdfDb(env, db, tx).tasks)
  {
    match tx
    case RetryTx => if Retry(db).Ok? { RetrySettles(db); }
    case CheckFinalizationTx(_) =>
    case FinalizeTx(ticket) => FinalizeTasks(env, db, ticket.event, Some(ticket.fingerprint));
    case DeliveryFailureTx(event, reason, terminal) => DeliveryFailureSettles(env, db, event, reason, terminal);
    case SendTx(_, _) =>
  }

  lemma TxSettles(env: Env, now: nat, db: Db, tx: Tx)
    requires TasksOk(db.status, db.tasks, db.signings) && AccountOk(db.tasks)
    ensures Settles(db.tasks, TxDb(env, db, now, tx).tasks) && AccountOk(TxDb(env, db, now, tx).tasks)
  {
    match tx
    case OfLink(t) => LinkTxTouches(db, now, t);
    case OfClient(t) => ClientTxTouches(env, db, now, t);
    case OfFile(t) => FileTxTouches(env, db, now, t);
    case OfReview(t) => ReviewTxSettles(env, db, t);
    case OfPdf(t) => PdfTxSettles(env, db, t);
  }

  /** The file protocol does not notice a settled task. */
  lemma SettledKeepsStaged(
    env: Env, tasks: seq<PdfTask>, next: seq<PdfTask>, staging: map<StageKey, Bytes>, first: map<StageKey, Bytes>)
    requires StagedOk(env, tasks, staging, first) && Settles(tasks, next)
    ensures StagedOk(env, next, staging, first)
  {
    if tasks == [] && next != [] {
      assert first == map[];
    }
  }

  // ---------------------------------------------------------------- doomed keys over transactions

  lemma ClientTxDooms(env: Env, now: nat, db: Db, tx: ClientTx, doomed: set<string>)
    requires DoomedOk(db.files, db.signings, doomed)
    ensures DoomedOk(ClientDb(env, db, now, tx).files, ClientDb(env, db, now, tx).signings, doomed)
  {
    DoomedKept(db.files, db.signings, ClientDb(env, db, now, tx).files, ClientDb(env, db, now, tx).signings, doomed);
  }

  lemma PreviewDooms(env: Env, now: nat, db: Db, token: nat, r: Rendered, doomed: set<string>)
    requires KeysDistinct(db.files) && DoomedOk(db.files, db.signings, doomed)
    requires PersistPreview(env, db, now, token, r).Ok?
    ensures var p := PersistPreview(env, db, now, token, r).value;
      DoomedOk(p.db.files, p.db.signings, doomed + p.retiredKeys)
  {
    var p := PersistPreview(env, db, now, token, r).value;
    if p.reused {
      assert doomed + p.retiredKeys == doomed;
    } else {
      RotationDooms(db.files, db.signings, r, doomed);
    }
  }

  lemma UploadDooms(env: Env, now: nat, db: Db, token: nat, reference: string, u: Upload, doomed: set<string>)
    requires DoomedOk(db.files, db.signings, doomed) && UploadMaterial(env, db, now, token, reference, u).Ok?
    ensures var after := UploadMaterial(env, db, now, token, reference, u).value.db;
      DoomedOk(after.files, after.signings, doomed)
  {
    var after := UploadMaterial(env, db, now, token, reference, u).value.db;
    DoomedKept(db.files, db.signings, after.files, after.signings, doomed);
  }

  lemma ResourceDooms(
    db: Db, now: nat, token: nat, purpose: Purpose, original: Option<nat>, u: Upload, doomed: set<string>)
    requires DoomedOk(db.files, db.signings, doomed) && UploadResource(db, now, token, purpose, original, u).Ok?
    ensures var after := UploadResource(db, now, token, purpose, original, u).value.db;
      DoomedOk(after.files, after.signings, doomed)
  {
    var after := UploadResource(db, now, token, purpose, original, u).value.db;
    DoomedKept(db.files, db.signings, after.files, after.signings, doomed);
  }

  lemma FileTxDooms(env: Env, now: nat, db: Db, tx: FileTx, doomed: set<string>)
    requires DoomedOk(db.files, db.signings, doomed) && !tx.PersistPreviewTx?
    ensures DoomedOk(FileDb(env, db, now, tx).files, FileDb(env, db, now, tx).signings, doomed)
  {
    if FileDb(env, db, now, tx) != db {
      match tx
      case DropCorruptPreviewTx(version) =>
        DoomedKept(db.files, db.signings, FileDb(env, db, now, tx).files, db.signings, doomed);
      case UploadMaterialTx(token, reference, u) => UploadDooms(env, now, db, token, reference, u, doomed);
      case RemoveMaterialTx(token, version) =>
        DoomedKept(db.files, db.signings, WithoutMaterial(db, version).files, InvalidateAll(db.signings), doomed);
      case UploadResourceTx(token, purpose, original, u) => ResourceDooms(db, now, token, purpose, original, u, doomed);
    }
  }

  lemma TxDooms(env: Env, s: Sys, tx: Tx)
    requires KeysDistinct(s.db.files) && DoomedOk(s.db.files, s.db.signings, s.doomed)
    ensures var after := TxDb(env, s.db, s.now, tx);
      DoomedOk(after.files, after.signings, s.doomed + NewlyDoomed(env, s, tx))
  {
    assert s.doomed + {} == s.doomed;
    match tx
    case OfLink(t) => LinkTxTouches(s.db, s.now, t);
    case OfClient(t) => ClientTxDooms(env, s.now, s.db, t, s.doomed);
    case OfFile(PersistPreviewTx(token, r)) =>
      if PersistPreview(env, s.db, s.now, token, r).Ok? {
        PreviewDooms(env, s.now, s.db, token, r, s.doomed);
      }
    case OfFile(t) => FileTxDooms(env, s.now, s.db, t, s.doomed);
    case OfReview(t) => ReviewTxTouches(env, s.db, t);
    case OfPdf(t) => PdfTxTouches(env, s.db, t);
  }

  lemma TicketsStayOk(env: Env, s: Sys, tx: Tx)
    requires TicketsOk(s.submitting, s.signing)
    ensures TicketsOk(s.submitting + NewSubmissions(env, s, tx), s.signing + NewSignings(env, s, tx))
  {
  }

  lemma TxStepKeeps(env: Env, s: Sys, tx: Tx)
    requires SysOk(env, s)
    ensures SysOk(env, ApplyTx(env, s, tx))
  {
    if Allowed(s, tx) {
      var after := ApplyTx(env, s, tx);
      TxKeeps(env, s.now, s.db, tx);
      TxSettles(env, s.now, s.db, tx);
      SettledKeepsStaged(env, s.db.tasks, after.db.tasks, s.staging, s.first);
      WorkersKept(env, s, after);
      TicketsStayOk(env, s, tx);
      TxDooms(env, s, tx);
    }
  }
}
