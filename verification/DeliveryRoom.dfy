/**
 The room a case has for its final PDF: which of its retained bytes no later step frees while the signing stays valid,
 and what the step that publishes the output had to find. Once over runs in which the store never loses a preview's
 bytes, and once over all runs: a preview found corrupt is dropped from the cache, and nothing else can free anything.
 */
module DeliveryRoom {
  import opened Common
  import opened CaseModel
  import opened CaseTransactions
  import opened PdfTransactions
  import opened FileFacts
  import opened CaseInvariants
  import opened CaseProofs
  import opened System
  import opened SystemInvariants
  import opened SystemProofs
  import opened WorkerProofs
  import opened Evolution
  import opened Leases
  import opened PdfTheorems
  import opened StoredOutput
  import opened CacheQuiet

  // ---------------------------------------------------------------- storage faults

  /** The service reacts to a fault of the store: the bytes of a cached preview were missing or altered. */
  predicate Faulty(step: Step) { step.Case? && step.tx.OfFile? && step.tx.file.DropCorruptPreviewTx? }

  ghost predicate FaultFree(steps: seq<Step>) { forall i | 0 <= i < |steps| :: !Faulty(steps[i]) }

  /** Steps that are allowed: all, or those of a store without faults. */
  ghost predicate Within(steps: seq<Step>, faults: bool) { faults || FaultFree(steps) }

  // ---------------------------------------------------------------- lasting bytes

  function WithoutPreviews(files: seq<FileRow>): seq<FileRow> {
    seq(|files|, i requires 0 <= i < |files| =>
      if files[i].purpose == PresignPdf then Tombstone(files[i]) else files[i])
  }

  /** The table once everything that faults can take out of the cache has left it. */
  function Worn(files: seq<FileRow>, faults: bool): seq<FileRow> {
    if faults then WithoutPreviews(files) else files
  }

  /** What stays retained: all retained bytes, or with faults all but those of previews no signing pins. */
  function LastingBytes(files: seq<FileRow>, signings: seq<Signing>, faults: bool): nat {
    RetainedBytes(Worn(files, faults), signings)
  }

  /** A validated rendering that can still become the case's final PDF. */
  ghost predicate Deliverable(env: Env, db: Db, bytes: Bytes, faults: bool) {
    && Stageable(env, bytes)
    && LastingBytes(db.files, db.signings, faults) + |bytes| <= MAX_CASE_BYTES
    && !KeyTaken(db.files, ContentKey(env.sha(bytes)))
  }

  lemma LastingIsRetained(files: seq<FileRow>, signings: seq<Signing>, faults: bool)
    ensures LastingBytes(files, signings, faults) <= RetainedBytes(files, signings)
  {
    RetainedShrinks(files, signings, WithoutPreviews(files), signings);
  }

  /** Rows that are there stay there; with faults, previews aside. */
  ghost predicate FilesStay(files: seq<FileRow>, later: seq<FileRow>, faults: bool) {
    && |files| <= |later|
    && forall i | 0 <= i < |files| && !files[i].removed && !(faults && files[i].purpose == PresignPdf) ::
         !later[i].removed
  }

  lemma {:induction false} RetainedPrefix(files: seq<FileRow>, signings: seq<Signing>, n: nat, m: nat)
    requires n <= m <= |files|
    ensures RetainedUpTo(files, signings, n) <= RetainedUpTo(files, signings, m)
    decreases m
  {
    if n < m {
      RetainedPrefix(files, signings, n, m - 1);
    }
  }

  lemma RetainedLasts(
    files: seq<FileRow>, signings: seq<Signing>, later: seq<FileRow>, laterSignings: seq<Signing>, i: nat, faults: bool)
    requires FilesGrow(files, later) && FilesStay(files, later, faults) && SigningsGrow(signings, laterSignings)
    requires i < |files| && Retained(Worn(files, faults), signings, i)
    ensures Retained(Worn(later, faults), laterSignings, i)
  {
    var a, b := Worn(files, faults), Worn(later, faults);
    if k :| 0 <= k < |signings| && signings[k].preview == i {
      assert laterSignings[k].preview == i;
    } else if k :| 0 <= k < |signings| && signings[k].resource == i {
      assert laterSignings[k].resource == i;
    } else if j :| 0 <= j < |a| && a[j].original == Some(i) && exists k | 0 <= k < |signings| ::
      signings[k].resource == j {
      var k :| 0 <= k < |signings| && signings[k].resource == j;
      assert b[j].original == Some(i) && laterSignings[k].resource == j;
    }
  }

  lemma LastingGrows(
    files: seq<FileRow>, signings: seq<Signing>, later: seq<FileRow>, laterSignings: seq<Signing>, faults: bool)
    requires FilesGrow(files, later) && FilesStay(files, later, faults) && SigningsGrow(signings, laterSignings)
    ensures LastingBytes(files, signings, faults) <= LastingBytes(later, laterSignings, faults)
  {
    var a, b := Worn(files, faults), Worn(later, faults);
    forall i | 0 <= i < |files| && Retained(a, signings, i)
      ensures Retained(b, laterSignings, i)
    {
      RetainedLasts(files, signings, later, laterSignings, i, faults);
    }
    RetainedMonotone(b, laterSignings, a, signings, |files|);
    RetainedPrefix(b, laterSignings, |files|, |later|);
  }

  /** Room that is there later was there before. */
  lemma RoomShrinks(env: Env, db: Db, later: Db, bytes: Bytes, faults: bool)
    requires FilesGrow(db.files, later.files) && FilesStay(db.files, later.files, faults)
    requires SigningsGrow(db.signings, later.signings) && Deliverable(env, later, bytes, faults)
    ensures Deliverable(env, db, bytes, faults)
  {
    LastingGrows(db.files, db.signings, later.files, later.signings, faults);
    assert forall i | 0 <= i < |db.files| :: later.files[i].key == db.files[i].key;
  }

  // ---------------------------------------------------------------- files stay while a signing is valid

  ghost predicate Outlives(signings: seq<Signing>, k: nat) { k < |signings| && signings[k].valid }

  /** Without a fault only a rotation could take a preview away, and while a signing is valid none does. */
  lemma PreviewStays(env: Env, db: Db, now: nat, token: nat, r: Rendered, k: nat, faults: bool)
    requires Quieted(db.files, db.signings) && ValidSigningIsCurrent(env, db.drafts, db.files, db.signings)
    requires Outlives(db.signings, k) && PersistPreview(env, db, now, token, r).Ok?
    ensures FilesStay(db.files, PersistPreview(env, db, now, token, r).value.db.files, faults)
  {
    QuietRetiresNone(env, db, now, token, r, k);
  }

  lemma FileTxStays(env: Env, db: Db, now: nat, tx: FileTx, k: nat, faults: bool)
    requires Quieted(db.files, db.signings) && ValidSigningIsCurrent(env, db.drafts, db.files, db.signings)
    requires Outlives(db.signings, k) && Outlives(FileDb(env, db, now, tx).signings, k)
    requires faults || !tx.DropCorruptPreviewTx?
    ensures FilesStay(db.files, FileDb(env, db, now, tx).files, faults)
  {
    if FileDb(env, db, now, tx) != db {
      match tx
      case PersistPreviewTx(token, r) => PreviewStays(env, db, now, token, r, k, faults);
      case _ =>
    }
  }

  lemma TxStays(env: Env, db: Db, now: nat, tx: Tx, k: nat, faults: bool)
    requires Quieted(db.files, db.signings) && ValidSigningIsCurrent(env, db.drafts, db.files, db.signings)
    requires Outlives(db.signings, k) && Outlives(TxDb(env, db, now, tx).signings, k) && (faults || !Faulty(Case(tx)))
    ensures FilesStay(db.files, TxDb(env, db, now, tx).files, faults)
  {
    match tx
    case OfLink(t) => LinkTxTouches(db, now, t);
    case OfClient(t) => ClientTxTouches(env, db, now, t);
    case OfFile(t) => FileTxStays(env, db, now, t, k, faults);
    case OfReview(t) => ReviewTxTouches(env, db, t);
    case OfPdf(t) => PdfTxTouches(env, db, t);
  }

  lemma StepStays(env: Env, s: Sys, step: Step, k: nat, faults: bool)
    requires Quieted(s.db.files, s.db.signings)
    requires ValidSigningIsCurrent(env, s.db.drafts, s.db.files, s.db.signings) && (faults || !Faulty(step))
    requires Outlives(s.db.signings, k) && Outlives(Apply(env, s, step).db.signings, k)
    ensures FilesStay(s.db.files, Apply(env, s, step).db.files, faults)
  {
    if Apply(env, s, step).db != s.db {
      if step.Case? {
        TxStays(env, s.db, s.now, step.tx, k, faults);
      } else {
        GoFiles(env, s, step.worker, step.input);
      }
    }
  }

  lemma StayTransitive(a: seq<FileRow>, b: seq<FileRow>, c: seq<FileRow>, faults: bool)
    requires FilesGrow(a, b) && FilesStay(a, b, faults) && FilesStay(b, c, faults)
    ensures FilesStay(a, c, faults)
  {
    forall i | 0 <= i < |a| && !a[i].removed && !(faults && a[i].purpose == PresignPdf)
      ensures !c[i].removed
    {
      assert b[i] == a[i].(removed := b[i].removed, cacheActive := b[i].cacheActive);
    }
  }

  /** What the inductions below start from. */
  ghost predicate Settled(env: Env, s: Sys) { SysOk(env, s) && Quieted(s.db.files, s.db.signings) }

  lemma ReachedSettled(env: Env, s: Sys)
    requires Reached(env, s)
    ensures Settled(env, s)
  {
    ReachedOk(env, s);
    ReachedQuieted(env, s);
  }

  lemma RunLengthens(env: Env, s: Sys, steps: seq<Step>)
    requires SysOk(env, s)
    ensures |s.db.signings| <= |Run(env, s, steps).db.signings| && FilesGrow(s.db.files, Run(env, s, steps).db.files)
  {
    RunGrows(env, s, steps);
  }

  lemma StepOutlives(env: Env, s: Sys, step: Step, k: nat, faults: bool)
    requires SysOk(env, s) && Quieted(s.db.files, s.db.signings) && (faults || !Faulty(step))
    requires k < |s.db.signings| && Outlives(Apply(env, s, step).db.signings, k)
    ensures Outlives(s.db.signings, k) && FilesStay(s.db.files, Apply(env, s, step).db.files, faults)
    ensures Grown(s.first, Apply(env, s, step).first)
  {
    StepGrows(env, s, step);
    StepStays(env, s, step, k, faults);
    StepQuiet(env, s, step);
  }

  lemma OutlivesBefore(env: Env, s: Sys, front: seq<Step>, last: Step, k: nat, faults: bool)
    requires Settled(env, s) && k < |s.db.signings| && (faults || !Faulty(last))
    requires Outlives(Apply(env, Run(env, s, front), last).db.signings, k)
    ensures var before, after := Run(env, s, front), Apply(env, Run(env, s, front), last);
      && Outlives(before.db.signings, k) && Grown(before.first, after.first)
      && FilesGrow(s.db.files, before.db.files) && FilesStay(before.db.files, after.db.files, faults)
  {
    RunKeeps(env, s, front);
    RunQuieted(env, s, front);
    RunLengthens(env, s, front);
    StepOutlives(env, Run(env, s, front), last, k, faults);
  }

  lemma StaysFurther(env: Env, s: Sys, front: seq<Step>, last: Step, k: nat, faults: bool)
    requires Settled(env, s) && k < |s.db.signings| && (faults || !Faulty(last))
    requires Outlives(Apply(env, Run(env, s, front), last).db.signings, k)
    requires FilesStay(s.db.files, Run(env, s, front).db.files, faults)
    ensures FilesStay(s.db.files, Apply(env, Run(env, s, front), last).db.files, faults)
  {
    var before := Run(env, s, front);
    OutlivesBefore(env, s, front, last, k, faults);
    StayTransitive(s.db.files, before.db.files, Apply(env, before, last).db.files, faults);
  }

  /** A signing that is valid at the end of a run was valid all along, and no row went away meanwhile. */
  lemma {:induction false} RunStays(env: Env, s: Sys, steps: seq<Step>, k: nat, faults: bool)
    requires Settled(env, s) && Within(steps, faults)
    requires k < |s.db.signings| && Outlives(Run(env, s, steps).db.signings, k)
    ensures FilesStay(s.db.files, Run(env, s, steps).db.files, faults)
    decreases |steps|
  {
    if steps != [] {
      var last := steps[|steps| - 1];
      OutlivesBefore(env, s, steps[..|steps| - 1], last, k, faults);
      RunStays(env, s, steps[..|steps| - 1], k, faults);
      StaysFurther(env, s, steps[..|steps| - 1], last, k, faults);
    }
  }

  // ---------------------------------------------------------------- the completing step

  /** What stands behind a fresh output: the first staged bytes, and room for them. */
  ghost predicate StagedHasRoom(env: Env, db: Db, first: map<StageKey, Bytes>, faults: bool) {
    STAGE in first && Deliverable(env, db, first[STAGE], faults)
  }

  lemma DeliveryFoundRoom(env: Env, s: Sys, w: nat, h: Holder, bytes: Bytes, fileId: nat, faults: bool)
    requires StagedOk(env, s.db.tasks, s.staging, s.first) && TasksOk(s.db.status, s.db.tasks, s.db.signings)
    requires CollisionFree(env.sha) && Delivers(env, s, w, h, bytes, fileId)
    requires WorkerOk(env, s.db.tasks, s.first, s.contents, s.nextToken, s.workers[w])
    ensures StagedHasRoom(env, s.db, s.first, faults)
  {
    LastingIsRetained(s.db.files, s.db.signings, faults);
  }

  lemma StepFoundRoom(env: Env, s: Sys, step: Step, faults: bool)
    requires ProtocolOk(env, s) && TasksOk(s.db.status, s.db.tasks, s.db.signings) && CollisionFree(env.sha)
    requires !HasOutput(s.db.tasks) && HasOutput(Apply(env, s, step).db.tasks)
    ensures StagedHasRoom(env, s.db, s.first, faults)
  {
    OutputAppears(env, s, step);
    var w := step.worker;
    assert WorkerOk(env, s.db.tasks, s.first, s.contents, s.nextToken, s.workers[w]);
    DeliveryFoundRoom(env, s, w, s.workers[w].pc.h, s.workers[w].pc.bytes, step.input.fileId, faults);
  }

  lemma RoomThroughout(env: Env, s: Sys, steps: seq<Step>, first: map<StageKey, Bytes>, k: nat, faults: bool)
    requires Settled(env, s) && Within(steps, faults)
    requires k < |s.db.signings| && Outlives(Run(env, s, steps).db.signings, k)
    requires StagedHasRoom(env, Run(env, s, steps).db, first, faults)
    ensures StagedHasRoom(env, s.db, first, faults)
  {
    RunStays(env, s, steps, k, faults);
    RunGrows(env, s, steps);
    RoomShrinks(env, s.db, Run(env, s, steps).db, first[STAGE], faults);
  }

  lemma FirstStays(env: Env, db: Db, first: map<StageKey, Bytes>, later: map<StageKey, Bytes>, faults: bool)
    requires StagedHasRoom(env, db, first, faults) && Grown(first, later)
    ensures StagedHasRoom(env, db, later, faults)
  {
  }

  lemma FreshOutputHadRoom(env: Env, s: Sys, front: seq<Step>, last: Step, k: nat, faults: bool)
    requires Settled(env, s) && Within(front, faults) && CollisionFree(env.sha)
    requires k < |s.db.signings| && Outlives(Run(env, s, front).db.signings, k)
    requires !HasOutput(Run(env, s, front).db.tasks) && HasOutput(Apply(env, Run(env, s, front), last).db.tasks)
    ensures StagedHasRoom(env, s.db, Run(env, s, front).first, faults)
  {
    RunKeeps(env, s, front);
    StepFoundRoom(env, Run(env, s, front), last, faults);
    RoomThroughout(env, s, front, Run(env, s, front).first, k, faults);
  }

  /** An output that appeared while the signing stayed valid is made of bytes there was room for from the start. */
  lemma {:induction false} OutputHadRoom(env: Env, s: Sys, steps: seq<Step>, k: nat, faults: bool)
    requires Settled(env, s) && Within(steps, faults) && CollisionFree(env.sha)
    requires !HasOutput(s.db.tasks) && HasOutput(Run(env, s, steps).db.tasks)
    requires k < |s.db.signings| && Outlives(Run(env, s, steps).db.signings, k)
    ensures StagedHasRoom(env, s.db, Run(env, s, steps).first, faults)
    decreases |steps|
  {
    var front, last := steps[..|steps| - 1], steps[|steps| - 1];
    var before := Run(env, s, front);
    OutlivesBefore(env, s, front, last, k, faults);
    if HasOutput(before.db.tasks) {
      OutputHadRoom(env, s, front, k, faults);
    } else {
      FreshOutputHadRoom(env, s, front, last, k, faults);
    }
    FirstStays(env, s.db, before.first, Apply(env, before, last).first, faults);
  }
}
