/**
 A case that images fill up after its confirmation. The upload of a signature image asks for a live link but not for an
 editing status, and leaves the signing alone: a relinked case can end with a valid signing and no room for its PDF.
 */
module FullCase {
  import opened Common
  import opened Placement
  import opened CaseModel
  import opened CaseTransactions
  import opened PdfTransactions
  import opened System
  import opened SystemInvariants
  import opened PdfTheorems
  import opened StoredOutput
  import opened DeliveryRoom
  import opened Completion
  import opened CompletedRun

  /** With nothing rendered yet and its retained bytes at the cap, a case is never completed without a storage fault. */
  lemma FullNeverCompletes(env: Env, s: Sys)
    requires Reached(env, s) && CollisionFree(env.sha) && s.db.tasks != [] && !HasOutput(s.db.tasks)
    requires RetainedBytes(s.db.files, s.db.signings) == MAX_CASE_BYTES
    ensures !Completable(env, s)
  {
    CompletableExactly(env, s);
    assert forall bytes | Deliverable(env, s.db, bytes, false) :: |bytes| >= 8;
  }

  // ---------------------------------------------------------------- the images

  const IMAGES: nat := 10

  function Tail(i: nat): string { if i == 0 then "" else "x" + Tail(i - 1) }

  lemma {:induction false} TailLength(i: nat)
    ensures |Tail(i)| == i
  {
    if i > 0 {
      TailLength(i - 1);
    }
  }

  /** Nine images of the largest size, and one for what the first files left. */
  function ImageSize(i: nat): nat { if i + 1 < IMAGES then MAX_FILE_BYTES else MAX_FILE_BYTES - 30 }

  function Image(i: nat): Upload {
    Upload(10 + i, "image.png", ImagePng, ImageSize(i), "image" + Tail(i), "images" + Tail(i))
  }

  function ImageRow(i: nat): FileRow { ResourceRow(Image(i), Handwritten, None) }

  function Files(n: nat): seq<FileRow> {
    if n == 0 then [SIGNATURE, PREVIEW] else Files(n - 1) + [ImageRow(n - 1)]
  }

  lemma {:induction false} FilesLength(n: nat)
    ensures |Files(n)| == n + 2
  {
    if n > 0 {
      FilesLength(n - 1);
    }
  }

  ghost predicate AllActive(files: seq<FileRow>) { forall i | 0 <= i < |files| :: !files[i].removed }

  lemma {:induction false} PrefixRetained(files: seq<FileRow>, f: FileRow, signings: seq<Signing>, n: nat)
    requires AllActive(files) && !f.removed && n <= |files|
    ensures RetainedUpTo(files + [f], signings, n) == RetainedUpTo(files, signings, n)
  {
    if n > 0 {
      PrefixRetained(files, f, signings, n - 1);
      assert !(files + [f])[n - 1].removed && !files[n - 1].removed;
    }
  }

  lemma {:induction false} FilesRetained(n: nat)
    requires n <= IMAGES
    ensures AllActive(Files(n))
    ensures RetainedBytes(Files(n), [SIGNED]) == if n < IMAGES then 30 + n * MAX_FILE_BYTES else MAX_CASE_BYTES
  {
    FilesLength(n);
    if n == 0 {
      assert RetainedUpTo([SIGNATURE, PREVIEW], [SIGNED], 1) == 10;
    } else {
      FilesRetained(n - 1);
      FilesLength(n - 1);
      PrefixRetained(Files(n - 1), ImageRow(n - 1), [SIGNED], n + 1);
      assert Files(n)[n + 1] == ImageRow(n - 1);
    }
  }

  predicate Apart(f: FileRow, u: Upload) { f.key != u.key && f.sha != u.sha }

  lemma ImagesApart(i: nat, j: nat)
    requires i != j
    ensures Apart(ImageRow(i), Image(j))
  {
    TailLength(i);
    TailLength(j);
    assert |Image(i).key| == 6 + i && |Image(j).key| == 6 + j && |Image(i).sha| == 5 + i && |Image(j).sha| == 5 + j;
  }

  lemma FirstApart(u: Upload)
    requires u.key != "" && u.sha != "" && u.key[0] == 'i' && u.sha[0] == 'i'
    ensures Apart(SIGNATURE, u) && Apart(PREVIEW, u)
  {
    assert "files/1"[0] == 'f' && "files/2"[0] == 'f' && "png"[0] == 'p' && "pdf"[0] == 'p';
  }

  lemma {:induction false} FilesApart(n: nat, j: nat)
    requires n <= j
    ensures forall i | 0 <= i < |Files(n)| :: Apart(Files(n)[i], Image(j))
  {
    if n == 0 {
      FirstApart(Image(j));
    } else {
      FilesApart(n - 1, j);
      ImagesApart(n - 1, j);
    }
  }

  lemma ImageIsNew(n: nat)
    ensures !KeyTaken(Files(n), Image(n).key)
    ensures LastWhere(Files(n), DuplicateResource(Handwritten, Image(n).sha, None)) == None
  {
    FilesApart(n, n);
  }

  // ---------------------------------------------------------------- the run

  function AddOne(n: nat): Tx { OfFile(UploadResourceTx(1, Handwritten, None, Image(n))) }

  /** The second link is live, and the images so far are the only files beside those of the one signing. */
  predicate Filling(db: Db, n: nat) { db.files == Files(n) && db.signings == [SIGNED] && Resolves(db, 0, 1) }

  lemma ResourceAdded(db: Db, u: Upload)
    requires u.size <= MAX_FILE_BYTES && u.mime == ImagePng && Resolves(db, 0, 1)
    requires LastWhere(db.files, DuplicateResource(Handwritten, u.sha, None)) == None
    requires RetainedBytes(db.files, db.signings) + u.size <= MAX_CASE_BYTES && !KeyTaken(db.files, u.key)
    ensures var after := db.(files := db.files + [ResourceRow(u, Handwritten, None)]);
      UploadResource(db, 0, 1, Handwritten, None, u) == Ok(Uploaded(after, |db.files|, false)) && Resolves(after, 0, 1)
  {
  }

  lemma RoomForOne(n: nat)
    requires n < IMAGES
    ensures Image(n).size <= MAX_FILE_BYTES && RetainedBytes(Files(n), [SIGNED]) + Image(n).size <= MAX_CASE_BYTES
    ensures Files(n) + [ResourceRow(Image(n), Handwritten, None)] == Files(n + 1)
  {
    FilesRetained(n);
  }

  lemma ImageFits(db: Db, n: nat)
    requires n < IMAGES && Filling(db, n)
    ensures UploadResource(db, 0, 1, Handwritten, None, Image(n)) ==
      Ok(Uploaded(db.(files := Files(n + 1)), |db.files|, false))
    ensures Filling(db.(files := Files(n + 1)), n + 1)
  {
    RoomForOne(n);
    ImageIsNew(n);
    ResourceAdded(db, Image(n));
  }

  lemma Adds(env: Env, s: Sys, n: nat)
    requires n < IMAGES && Filling(s.db, n) && s.now == 0
    ensures ApplyTx(env, s, AddOne(n)) == s.(db := s.db.(files := Files(n + 1)))
  {
    ImageFits(s.db, n);
  }

  lemma AddsNext(env: Env, s: Sys, n: nat)
    requires Reached(env, s) && n < IMAGES && Filling(s.db, n) && s.now == 0
    ensures Reached(env, s.(db := s.db.(files := Files(n + 1))))
  {
    Adds(env, s, n);
    ReachedNext(env, s, Case(AddOne(n)));
  }

  lemma {:induction false} Fills(env: Env, s: Sys, n: nat)
    requires Reached(env, s) && n <= IMAGES && Filling(s.db, 0) && s.now == 0
    ensures Filling(s.db.(files := Files(n)), n) && Reached(env, s.(db := s.db.(files := Files(n))))
  {
    if n == 0 {
      assert s == s.(db := s.db.(files := Files(0)));
    } else {
      Fills(env, s, n - 1);
      AddsNext(env, s.(db := s.db.(files := Files(n - 1))), n - 1);
    }
  }

  function Images(): Sys { Office(Relinked([NewTask(1)]).(files := Files(IMAGES))) }

  lemma UntilFilled(sha: Hash)
    ensures Reached(Example(sha), Images())
  {
    UntilQueued(sha);
    Relinking(sha, Office(InQueue()), [NewTask(1)]);
    var s := Office(Relinked([NewTask(1)]));
    CompletedRun.Commits(sha, Office(InQueue()), Relink(), s);
    assert Live(LIVE, 0) && Filling(s.db, 0);
    Fills(Example(sha), s, IMAGES);
  }

  /** In order, but full: a queued task, a valid signing, nothing rendered, and no room. */
  ghost predicate Full(env: Env, s: Sys) {
    && s.db.status == Finalizing && s.db.tasks != [] && s.db.tasks[0].status == Queued
    && SigningOfTaskValid(s.db, s.db.tasks[0]) && Required(env.slots) != []
    && s.first == map[] && RetainedBytes(s.db.files, s.db.signings) == MAX_CASE_BYTES
  }

  lemma ImagesAreFull(env: Env)
    requires env.slots == [SLOT]
    ensures Full(env, Images())
  {
    FilesRetained(IMAGES);
    assert Required([SLOT]) == [SLOT];
  }

  /** Such a case is reachable, and it can never be completed. */
  lemma FullIsReachable(sha: Hash)
    requires CollisionFree(sha)
    ensures exists s :: Reached(Example(sha), s) && Full(Example(sha), s) && !Completable(Example(sha), s)
  {
    UntilFilled(sha);
    ImagesAreFull(Example(sha));
    FullNeverCompletes(Example(sha), Images());
  }
}
