/**
 What uploads promise: the same bytes are stored once per requirement, limits hold at every time, and a new file adds
 one row with exactly its own columns.
 */
module MaterialRules {
  import opened Common
  import opened CaseModel
  import opened CaseTransactions
  import opened PdfTransactions
  import opened FileFacts
  import opened CaseInvariants
  import opened CaseProofs
  import opened System
  import opened SystemInvariants
  import opened SystemProofs
  import opened WorkerProofs
  import opened Evolution
  import opened PdfTheorems
  import opened CaseTheorems
  import opened CacheQuiet
  import opened LinkRules

  // ---------------------------------------------------------------- counting

  /** The active files of a requirement. */
  function ActiveOf(files: seq<FileRow>, requirement: string): set<nat> {
    set i: nat | i < |files| && !files[i].removed && files[i].requirement == Some(requirement)
  }

  predicate IsOf(f: FileRow, requirement: string) { !f.removed && f.requirement == Some(requirement) }

  lemma {:induction false} CountIsCardinality(files: seq<FileRow>, requirement: string)
    ensures CountFor(files, requirement) == |ActiveOf(files, requirement)|
  {
    var p := (f: FileRow) => !f.removed && f.requirement == Some(requirement);
    if files != [] {
      var front, last := files[..|files| - 1], files[|files| - 1];
      CountIsCardinality(front, requirement);
      assert files == front + [last];
      if p(last) {
        assert ActiveOf(files, requirement) == ActiveOf(front, requirement) + {|front|};
      } else {
        assert ActiveOf(files, requirement) == ActiveOf(front, requirement);
      }
    }
  }

  lemma ActiveShrinks(files: seq<FileRow>, later: seq<FileRow>, requirement: string)
    requires |files| == |later|
    requires forall i | 0 <= i < |files| ::
      later[i].requirement == files[i].requirement && (files[i].removed ==> later[i].removed)
    ensures |ActiveOf(later, requirement)| <= |ActiveOf(files, requirement)|
  {
    SubsetSize(ActiveOf(later, requirement), ActiveOf(files, requirement));
  }

  lemma {:induction false} SubsetSize(a: set<nat>, b: set<nat>)
    requires a <= b
    ensures |a| <= |b|
    decreases a
  {
    if x :| x in a {
      SubsetSize(a - {x}, b - {x});
    }
  }

  lemma ActiveAppend(files: seq<FileRow>, f: FileRow, requirement: string)
    ensures |ActiveOf(files + [f], requirement)|
      == |ActiveOf(files, requirement)| + if IsOf(f, requirement) then 1 else 0
  {
    if IsOf(f, requirement) {
      assert ActiveOf(files + [f], requirement) == ActiveOf(files, requirement) + {|files|};
    } else {
      assert ActiveOf(files + [f], requirement) == ActiveOf(files, requirement);
    }
  }

  // ---------------------------------------------------------------- one upload

  /** A configured limit counts when it is positive; the system's always does. */
  predicate Fits(n: nat, configured: Option<nat>, most: nat) {
    n <= most && (configured.Some? && configured.value > 0 ==> n <= configured.value)
  }

  /** The requirement has an active file with these bytes. */
  ghost predicate Known(files: seq<FileRow>, requirement: string, sha: Digest) {
    exists i | 0 <= i < |files| ::
      && !files[i].removed && files[i].purpose == Material
      && files[i].requirement == Some(requirement) && files[i].sha == sha
  }

  lemma KnownIsFound(files: seq<FileRow>, requirement: string, sha: Digest)
    ensures LastWhere(files, DuplicateOf(requirement, sha)).Some? <==> Known(files, requirement, sha)
  {
    var last := LastWhere(files, DuplicateOf(requirement, sha));
    if last.Some? {
      assert DuplicateOf(requirement, sha)(files[last.value]);
    } else {
      assert forall i | 0 <= i < |files| :: !DuplicateOf(requirement, sha)(files[i]);
    }
  }

  /** Room for one file more of a requirement, in number, in bytes, and under its key. */
  ghost predicate RoomFor(db: Db, q: Requirement, u: Upload) {
    && Fits(|ActiveOf(db.files, q.id)| + 1, q.maxFiles, 10)
    && Fits(RetainedBytes(db.files, db.signings) + u.size, q.maxCaseBytes, 200 * 1024 * 1024)
    && !KeyTaken(db.files, u.key)
  }

  /** An upload is accepted exactly with an open link, for a requirement, and within its limits or known already. */
  lemma UploadExactly(env: Env, db: Db, now: nat, token: nat, reference: string, u: Upload)
    ensures UploadMaterial(env, db, now, token, reference, u).Ok?
      <==>
      && token < |db.links| && !Shut(db, now, token)
      && var q := RequirementNamed(env.requirements, reference);
         && q.Some? && Fits(u.size, q.value.maxFileBytes, 20 * 1024 * 1024)
         && (Known(db.files, q.value.id, u.sha) || RoomFor(db, q.value, u))
  {
    var q := RequirementNamed(env.requirements, reference);
    if q.Some? {
      KnownIsFound(db.files, q.value.id, u.sha);
      CountIsCardinality(db.files, q.value.id);
    }
  }

  /** The row of a new file: every column is the upload's. */
  predicate RowOf(f: FileRow, u: Upload, purpose: Purpose, requirement: Option<string>, original: Option<nat>) {
    && f.fileId == u.fileId && f.name == u.name && f.mime == u.mime
    && f.size == u.size && f.sha == u.sha && f.key == u.key
    && f.purpose == purpose && f.requirement == requirement && f.original == original && f.digest.None? && !f.removed
  }

  /** One row more, which weighs what the file weighs. */
  ghost predicate AddsRow(
    db: Db, after: Db, u: Upload, purpose: Purpose, requirement: Option<string>, original: Option<nat>)
  {
    && |after.files| == |db.files| + 1 && db.files <= after.files
    && RowOf(after.files[|db.files|], u, purpose, requirement, original)
    && RetainedBytes(after.files, after.signings) == RetainedBytes(db.files, db.signings) + u.size
    && after == db.(files := after.files, signings := after.signings) && |after.signings| == |db.signings|
  }

  lemma SameWeight(files: seq<FileRow>, signings: seq<Signing>)
    ensures RetainedBytes(files, InvalidateAll(signings)) == RetainedBytes(files, signings)
  {
    RetainedShrinks(files, signings, files, InvalidateAll(signings));
    RetainedShrinks(files, InvalidateAll(signings), files, signings);
  }

  /**
   What an accepted upload does: a known file is answered with its row and changes nothing; another one is added with
   all its columns and ends every signature.
   */
  lemma UploadAdds(env: Env, s: Sys, token: nat, reference: string, u: Upload)
    requires Reached(env, s) && UploadMaterial(env, s.db, s.now, token, reference, u).Ok?
    ensures var q, r := RequirementNamed(env.requirements, reference).value,
                        UploadMaterial(env, s.db, s.now, token, reference, u).value;
      if Known(s.db.files, q.id, u.sha) then
        && r.db == s.db && r.reused && r.version < |s.db.files|
        && s.db.files[r.version].sha == u.sha && IsOf(s.db.files[r.version], q.id)
      else
        && r.version == |s.db.files| && !r.reused && AddsRow(s.db, r.db, u, Material, Some(q.id), None)
        && forall k | 0 <= k < |r.db.signings| :: !r.db.signings[k].valid
  {
    assert PinsExist(s.db.files, s.db.signings) by {
      ReachedOk(env, s);
    }
    UploadAddsRow(env, s.db, s.now, token, reference, u);
  }

  lemma UploadAddsRow(env: Env, db: Db, now: nat, token: nat, reference: string, u: Upload)
    requires PinsExist(db.files, db.signings) && UploadMaterial(env, db, now, token, reference, u).Ok?
    ensures var q, r := RequirementNamed(env.requirements, reference).value,
                        UploadMaterial(env, db, now, token, reference, u).value;
      if Known(db.files, q.id, u.sha) then
        && r.db == db && r.reused && r.version < |db.files|
        && db.files[r.version].sha == u.sha && IsOf(db.files[r.version], q.id)
      else
        && r.version == |db.files| && !r.reused && AddsRow(db, r.db, u, Material, Some(q.id), None)
        && forall k | 0 <= k < |r.db.signings| :: !r.db.signings[k].valid
  {
    var q := RequirementNamed(env.requirements, reference).value;
    KnownIsFound(db.files, q.id, u.sha);
    if !Known(db.files, q.id, u.sha) {
      var f := MaterialRow(u, q.id);
      RetainedAdds(db.files, db.signings, f);
      SameWeight(db.files + [f], db.signings);
    }
  }

  /** An image is accepted exactly with an open link, of the right kind, and within the limits or known already. */
  lemma ResourceExactly(db: Db, now: nat, token: nat, purpose: Purpose, original: Option<nat>, u: Upload)
    ensures UploadResource(db, now, token, purpose, original, u).Ok?
      <==>
      && token < |db.links| && !Shut(db, now, token) && u.size <= 20 * 1024 * 1024 && u.mime != ApplicationPdf
      && (purpose == Handwritten || purpose == SealOriginal || purpose == SealProcessed)
      && (purpose == SealProcessed <==> original.Some?)
      && (original.Some? ==> original.value < |db.files| && IsSealOriginal(db.files[original.value]))
      && (KnownImage(db.files, purpose, u.sha, original)
          || (RetainedBytes(db.files, db.signings) + u.size <= 200 * 1024 * 1024 && !KeyTaken(db.files, u.key)))
  {
    var last := LastWhere(db.files, DuplicateResource(purpose, u.sha, original));
    if last.Some? {
      assert DuplicateResource(purpose, u.sha, original)(db.files[last.value]);
    } else {
      assert forall i | 0 <= i < |db.files| :: !DuplicateResource(purpose, u.sha, original)(db.files[i]);
    }
  }

  predicate IsSealOriginal(f: FileRow) { f.purpose == SealOriginal && !f.removed }

  ghost predicate KnownImage(files: seq<FileRow>, purpose: Purpose, sha: Digest, original: Option<nat>) {
    exists i | 0 <= i < |files| ::
      !files[i].removed && files[i].purpose == purpose && files[i].sha == sha && files[i].original == original
  }

  /** An accepted image is known already, or added with all its columns; no signature ends. */
  lemma ResourceAdds(env: Env, s: Sys, token: nat, purpose: Purpose, original: Option<nat>, u: Upload)
    requires Reached(env, s) && UploadResource(s.db, s.now, token, purpose, original, u).Ok?
    ensures var r := UploadResource(s.db, s.now, token, purpose, original, u).value;
      && token < |s.db.links| && !Shut(s.db, s.now, token) && u.mime != ApplicationPdf && u.size <= 20 * 1024 * 1024
      && (purpose == SealProcessed <==> original.Some?)
      && (original.Some? ==>
            && original.value < |s.db.files| && s.db.files[original.value].purpose == SealOriginal
            && !s.db.files[original.value].removed)
      && if r.reused then
           && r.db == s.db && r.version < |s.db.files| && !s.db.files[r.version].removed
           && s.db.files[r.version].purpose == purpose && s.db.files[r.version].sha == u.sha
           && s.db.files[r.version].original == original
         else
           && r.version == |s.db.files| && AddsRow(s.db, r.db, u, purpose, None, original)
           && r.db.signings == s.db.signings
  {
    assert PinsExist(s.db.files, s.db.signings) by {
      ReachedOk(env, s);
    }
    var r := UploadResource(s.db, s.now, token, purpose, original, u).value;
    if !r.reused {
      RetainedAdds(s.db.files, s.db.signings, ResourceRow(u, purpose, original));
    }
  }

  /**
   A preview is taken for the current content only. One that the cache holds is reused; another is added with all its
   columns after the rotation, within the capacity, and ends no signature.
   */
  lemma PreviewAdds(env: Env, s: Sys, token: nat, r: Rendered)
    requires Reached(env, s) && PersistPreview(env, s.db, s.now, token, r).Ok?
    ensures token < |s.db.links| && !Shut(s.db, s.now, token) && s.db.drafts != []
    ensures r.digest == env.contentDigest(CurrentContent(env, s.db))
    ensures var p := PersistPreview(env, s.db, s.now, token, r).value;
      if p.reused then
        && p.db == s.db && p.version < |s.db.files|
        && IsActivePreview(s.db.files[p.version]) && s.db.files[p.version].digest == Some(r.digest)
      else
        && p.version == |s.db.files| && |p.db.files| == |s.db.files| + 1 && p.db == s.db.(files := p.db.files)
        && PreviewOf(p.db.files[p.version], r)
        && RetainedBytes(p.db.files, p.db.signings) == RetainedBytes(Rotate(s.db.files), s.db.signings) + r.size
        && RetainedBytes(p.db.files, p.db.signings) <= 200 * 1024 * 1024
  {
    assert PinsExist(s.db.files, s.db.signings) by {
      ReachedOk(env, s);
    }
    PreviewAddsRow(env, s.db, s.now, token, r);
  }

  predicate PreviewOf(f: FileRow, r: Rendered) {
    && f.fileId == r.fileId && f.mime == ApplicationPdf && f.size == r.size && f.sha == r.sha && f.key == r.key
    && f.purpose == PresignPdf && f.digest == Some(r.digest) && f.requirement.None? && f.original.None?
    && f.cacheActive && !f.removed
  }

  lemma PreviewAddsRow(env: Env, db: Db, now: nat, token: nat, r: Rendered)
    requires PinsExist(db.files, db.signings) && PersistPreview(env, db, now, token, r).Ok?
    ensures token < |db.links| && !Shut(db, now, token) && db.drafts != []
    ensures r.digest == env.contentDigest(CurrentContent(env, db))
    ensures var p := PersistPreview(env, db, now, token, r).value;
      if p.reused then
        && p.db == db && p.version < |db.files|
        && IsActivePreview(db.files[p.version]) && db.files[p.version].digest == Some(r.digest)
      else
        && p.version == |db.files| && |p.db.files| == |db.files| + 1 && p.db == db.(files := p.db.files)
        && PreviewOf(p.db.files[p.version], r)
        && RetainedBytes(p.db.files, p.db.signings) == RetainedBytes(Rotate(db.files), db.signings) + r.size
        && RetainedBytes(p.db.files, p.db.signings) <= 200 * 1024 * 1024
  {
    if !PersistPreview(env, db, now, token, r).value.reused {
      RetainedAdds(Rotate(db.files), db.signings, PreviewRow(r));
    }
  }

  /** A removal is accepted for an active material only; it marks that row and ends every signature. */
  lemma RemovalExactly(db: Db, now: nat, token: nat, i: nat)
    ensures RemoveMaterial(db, now, token, i).Ok?
      <==>
      && token < |db.links| && !Shut(db, now, token)
      && i < |db.files| && db.files[i].purpose == Material && !db.files[i].removed
    ensures RemoveMaterial(db, now, token, i).Ok? ==>
      var after := RemoveMaterial(db, now, token, i).value;
      && |after.files| == |db.files| && after.files[i] == db.files[i].(removed := true)
      && (forall j | 0 <= j < |db.files| && j != i :: after.files[j] == db.files[j])
      && |after.signings| == |db.signings| && (forall k | 0 <= k < |after.signings| :: !after.signings[k].valid)
      && after == db.(files := after.files, signings := after.signings)
  {
  }

  // ---------------------------------------------------------------- at every time

  /** No requirement has the same bytes twice, more than ten files, or a file above twenty megabytes. */
  ghost predicate MaterialsOk(files: seq<FileRow>) {
    && (forall i, j | 0 <= i < j < |files| && IsActiveMaterial(files[i]) && IsActiveMaterial(files[j])
          && files[i].requirement == files[j].requirement :: files[i].sha != files[j].sha)
    && (forall requirement :: |ActiveOf(files, requirement)| <= 10)
    && (forall i | 0 <= i < |files| :: files[i].purpose == Material ==>
          files[i].requirement.Some? && files[i].size <= 20 * 1024 * 1024)
    && (forall i | 0 <= i < |files| :: files[i].purpose != Material ==> files[i].requirement.None?)
  }

  /** A table that only lost active rows, or got one that is no material. */
  ghost predicate NoNewMaterial(files: seq<FileRow>, later: seq<FileRow>) {
    && |files| <= |later|
    && (forall i | 0 <= i < |files| ::
          later[i] == files[i].(removed := later[i].removed, cacheActive := later[i].cacheActive)
          && (files[i].removed ==> later[i].removed))
    && forall i | |files| <= i < |later| :: later[i].purpose != Material && later[i].requirement.None?
  }

  lemma NoNewKeeps(files: seq<FileRow>, later: seq<FileRow>)
    requires MaterialsOk(files) && NoNewMaterial(files, later)
    ensures MaterialsOk(later)
  {
    forall requirement
      ensures |ActiveOf(later, requirement)| <= 10
    {
      SubsetSize(ActiveOf(later, requirement), ActiveOf(files, requirement));
    }
    forall i, j | 0 <= i < j < |later| && IsActiveMaterial(later[i]) && IsActiveMaterial(later[j])
      && later[i].requirement == later[j].requirement
      ensures later[i].sha != later[j].sha
    {
      assert IsActiveMaterial(files[i]) && IsActiveMaterial(files[j]);
    }
  }

  lemma UploadKeepsMaterials(env: Env, db: Db, now: nat, token: nat, reference: string, u: Upload)
    requires MaterialsOk(db.files) && UploadMaterial(env, db, now, token, reference, u).Ok?
    ensures MaterialsOk(UploadMaterial(env, db, now, token, reference, u).value.db.files)
  {
    var q := RequirementNamed(env.requirements, reference).value;
    KnownIsFound(db.files, q.id, u.sha);
    UploadExactly(env, db, now, token, reference, u);
    if !Known(db.files, q.id, u.sha) {
      NewMaterialKeeps(db.files, MaterialRow(u, q.id));
    }
  }

  lemma NewMaterialKeeps(files: seq<FileRow>, f: FileRow)
    requires MaterialsOk(files) && f.purpose == Material && f.requirement.Some? && f.size <= 20 * 1024 * 1024
    requires !f.removed && !Known(files, f.requirement.value, f.sha)
    requires |ActiveOf(files, f.requirement.value)| + 1 <= 10
    ensures MaterialsOk(files + [f])
  {
    forall requirement
      ensures |ActiveOf(files + [f], requirement)| <= 10
    {
      ActiveAppend(files, f, requirement);
    }
  }

  lemma FileTxKeepsMaterials(env: Env, db: Db, now: nat, tx: FileTx)
    requires MaterialsOk(db.files)
    ensures MaterialsOk(FileDb(env, db, now, tx).files)
  {
    match tx
    case UploadMaterialTx(token, reference, u) =>
      if UploadMaterial(env, db, now, token, reference, u).Ok? {
        UploadKeepsMaterials(env, db, now, token, reference, u);
      }
    case _ => OtherTxAddsNone(env, db, now, tx); NoNewKeeps(db.files, FileDb(env, db, now, tx).files);
  }

  lemma OtherTxAddsNone(env: Env, db: Db, now: nat, tx: FileTx)
    requires !tx.UploadMaterialTx?
    ensures NoNewMaterial(db.files, FileDb(env, db, now, tx).files)
  {
    match tx
    case PersistPreviewTx(token, r) => PreviewAddsNone(env, db, now, token, r);
    case DropCorruptPreviewTx(_) =>
    case RemoveMaterialTx(token, i) => RemovalExactly(db, now, token, i);
    case UploadResourceTx(token, purpose, original, u) => ImageAddsNone(db, now, token, purpose, original, u);
  }

  lemma PreviewAddsNone(env: Env, db: Db, now: nat, token: nat, r: Rendered)
    ensures var p := PersistPreview(env, db, now, token, r); p.Ok? ==> NoNewMaterial(db.files, p.value.db.files)
  {
  }

  lemma ImageAddsNone(db: Db, now: nat, token: nat, purpose: Purpose, original: Option<nat>, u: Upload)
    ensures var r := UploadResource(db, now, token, purpose, original, u);
      r.Ok? ==> NoNewMaterial(db.files, r.value.db.files)
  {
  }

  lemma TxKeepsMaterials(env: Env, db: Db, now: nat, tx: Tx)
    requires MaterialsOk(db.files)
    ensures MaterialsOk(TxDb(env, db, now, tx).files)
  {
    match tx
    case OfLink(t) => LinkTxTouches(db, now, t);
    case OfClient(t) => ClientTxTouches(env, db, now, t);
    case OfFile(t) => FileTxKeepsMaterials(env, db, now, t);
    case OfReview(t) => ReviewTxTouches(env, db, t);
    case OfPdf(t) => PdfTxTouches(env, db, t);
  }

  lemma FinalIsNoMaterial(files: seq<FileRow>, later: seq<FileRow>)
    requires FilesByWorker(files, later)
    ensures NoNewMaterial(files, later)
  {
  }

  lemma WorkerKeepsMaterials(env: Env, s: Sys, w: nat, input: Input)
    requires MaterialsOk(s.db.files) && w in s.workers
    ensures MaterialsOk(Go(env, s, w, input).db.files)
  {
    GoFiles(env, s, w, input);
    FinalIsNoMaterial(s.db.files, Go(env, s, w, input).db.files);
    NoNewKeeps(s.db.files, Go(env, s, w, input).db.files);
  }

  lemma StepKeepsMaterials(env: Env, s: Sys, step: Step)
    requires MaterialsOk(s.db.files)
    ensures MaterialsOk(Apply(env, s, step).db.files)
  {
    if step.Case? {
      TxKeepsMaterials(env, s.db, s.now, step.tx);
    } else if step.Advance? && step.worker in s.workers {
      WorkerKeepsMaterials(env, s, step.worker, step.input);
    }
  }

  lemma {:induction false} RunKeepsMaterials(env: Env, s: Sys, steps: seq<Step>)
    requires MaterialsOk(s.db.files)
    ensures MaterialsOk(Run(env, s, steps).db.files)
    decreases |steps|
  {
    if steps != [] {
      RunKeepsMaterials(env, s, steps[..|steps| - 1]);
      StepKeepsMaterials(env, Run(env, s, steps[..|steps| - 1]), steps[|steps| - 1]);
    }
  }

  /** At every time: no requirement has the same bytes twice, more than ten active files, or a file above 20 MB. */
  lemma MaterialLimits(env: Env, s: Sys)
    requires Reached(env, s)
    ensures forall i, j | 0 <= i < j < |s.db.files|
                          && IsActiveMaterial(s.db.files[i]) && IsActiveMaterial(s.db.files[j])
                          && s.db.files[i].requirement == s.db.files[j].requirement ::
      s.db.files[i].sha != s.db.files[j].sha
    ensures forall requirement :: |ActiveOf(s.db.files, requirement)| <= 10
    ensures forall i | 0 <= i < |s.db.files| && s.db.files[i].purpose == Material ::
      s.db.files[i].size <= 20 * 1024 * 1024
  {
    var reviewer, steps :| s == Run(env, Start(reviewer), steps);
    RunKeepsMaterials(env, Start(reviewer), steps);
  }
}
