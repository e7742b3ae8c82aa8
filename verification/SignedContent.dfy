/** What a supplement may change, and what a valid signing says about the content itself rather than its digest. */
module SignedContent {
  import opened Common
  import opened CanonicalJson
  import opened CaseModel
  import opened CaseTransactions
  import opened StablePrinter
  import opened ContentDigest
  import opened FileFacts
  import opened CaseInvariants
  import opened System
  import opened SystemInvariants
  import opened WorkerProofs
  import opened Evolution
  import opened PdfTheorems
  import opened CaseTheorems

  /** The case's digest function is `computePdfContentDigest` over the canonical render input. */
  ghost predicate Canonical(env: Env, hash: string -> Digest, frozen: Frozen, le: KeyOrder) {
    forall c: Content :: env.contentDigest(c) == DigestOf(hash, RenderInput(frozen, c, 0), le)
  }

  lemma BothCurrent(env: Env, s: Sys, more: seq<Step>)
    requires Reached(env, s)
    ensures ValidSigningIsCurrent(env, s.db.drafts, s.db.files, s.db.signings)
    ensures var later := Run(env, s, more).db;
      ValidSigningIsCurrent(env, later.drafts, later.files, later.signings)
  {
    ReachedOk(env, s);
    RunKeeps(env, s, more);
  }

  /**
   While a signing stays valid the content stays what it was when it was signed: the same answers and materials up to
   the order of object keys, and the same files.
   */
  lemma ValidFreezesContent(
    env: Env, hash: string -> Digest, frozen: Frozen, le: KeyOrder, s: Sys, more: seq<Step>, k: nat)
    requires Canonical(env, hash, frozen, le) && Injective(hash) && TotalOrder(le)
    requires Reached(env, s) && k < |s.db.signings| && k < |Run(env, s, more).db.signings|
    requires Run(env, s, more).db.signings[k].valid
    requires s.db.drafts != [] && Run(env, s, more).db.drafts != []
    requires ContentValid(frozen, CurrentContent(env, s.db))
    requires ContentValid(frozen, CurrentContent(env, Run(env, s, more).db))
    ensures SameContent(CurrentContent(env, s.db), CurrentContent(env, Run(env, s, more).db))
  {
    var later := Run(env, s, more);
    InvalidForEver(env, s, more, k);
    BothCurrent(env, s, more);
    ValidCarriesDigest(env, s.db, k);
    ValidCarriesDigest(env, later.db, k);
    ContentDigestExact(hash, frozen, CurrentContent(env, s.db), 0, CurrentContent(env, later.db), 0, le);
  }

  // ---------------------------------------------------------------- what the digest covers

  lemma {:induction false} SelectCounts(files: seq<FileRow>, p: FileRow -> bool, f: FileRow)
    ensures multiset(Select(files, p))[f] == if p(f) then multiset(files)[f] else 0
  {
    if files != [] {
      SelectCounts(files[..|files| - 1], p, f);
      assert files == files[..|files| - 1] + [files[|files| - 1]];
    }
  }

  lemma {:induction false} InsertCounts(f: FileRow, sorted: seq<FileRow>)
    ensures multiset(Insert(f, sorted)) == multiset(sorted) + multiset{f}
  {
    if sorted != [] {
      InsertCounts(f, sorted[..|sorted| - 1]);
      assert sorted == sorted[..|sorted| - 1] + [sorted[|sorted| - 1]];
    }
  }

  lemma {:induction false} SortCounts(files: seq<FileRow>, f: FileRow)
    ensures multiset(CaseModel.ByFileId(files))[f] == multiset(files)[f]
  {
    if files != [] {
      var front, last := files[..|files| - 1], files[|files| - 1];
      SortCounts(front, f);
      InsertCounts(last, CaseModel.ByFileId(front));
      LastCounts(files, f);
    }
  }

  lemma LastCounts(files: seq<FileRow>, f: FileRow)
    requires files != []
    ensures multiset(files)[f] == multiset(files[..|files| - 1])[f] + if files[|files| - 1] == f then 1 else 0
  {
    assert files == files[..|files| - 1] + [files[|files| - 1]];
  }

  /** What the content says of a file. */
  predicate Tells(m: FileMeta, f: FileRow) {
    && m.fileId == f.fileId && m.name == f.name && m.mime == f.mime && m.size == f.size && m.sha == f.sha
    && m.requirement == f.requirement
  }

  /** The rows of the active materials, each as often as it is stored, ordered by their ids. */
  ghost predicate ActiveMaterials(rows: seq<FileRow>, files: seq<FileRow>) {
    && Ordered(rows)
    && forall f :: multiset(rows)[f] == if f.purpose == Material && !f.removed then multiset(files)[f] else 0
  }

  lemma MaterialsInOrder(files: seq<FileRow>)
    ensures ActiveMaterials(CaseModel.ByFileId(Select(files, IsActiveMaterial)), files)
  {
    var kept := Select(files, IsActiveMaterial);
    SortOrdered(kept);
    forall f
      ensures multiset(CaseModel.ByFileId(kept))[f]
        == if f.purpose == Material && !f.removed then multiset(files)[f] else 0
    {
      SortCounts(kept, f);
      SelectCounts(files, IsActiveMaterial, f);
    }
  }

  /**
   What is signed: the latest answers, the latest materials list or else the frozen one, and every active material with
   all it says, in the order of the file ids.
   */
  lemma ContentCovers(env: Env, db: Db)
    requires db.drafts != []
    ensures var c, last := CurrentContent(env, db), db.drafts[|db.drafts| - 1];
      && c.answers == last.answers
      && c.materials == (if last.materials.Some? && last.materials.value != JNull then last.materials.value
                         else env.materials)
      && exists rows ::
           && ActiveMaterials(rows, db.files) && |rows| == |c.files|
           && forall i | 0 <= i < |rows| :: Tells(c.files[i], rows[i])
  {
    var rows := CaseModel.ByFileId(Select(db.files, IsActiveMaterial));
    MaterialsInOrder(db.files);
    ReadersAgree(db.files);
    assert CurrentContent(env, db).files == Metas(rows);
  }

  // ---------------------------------------------------------------- supplements

  predicate MayChange(env: Env, db: Db, key: string) {
    SupplementKey(env, db.reviews, key) || key == "materialsVersion"
  }

  /** Every answer outside the rejected items is as before, omitted ones included. */
  ghost predicate Preserves(env: Env, db: Db, answers: seq<Entry>) {
    forall key :: !MayChange(env, db, key) ==> Lookup(answers, key) == Lookup(PreviousAnswers(db.drafts), key)
  }

  lemma {:induction false} LookupFinds(answers: seq<Entry>, key: string)
    ensures Lookup(answers, key).Some? <==> exists e | e in answers :: e.key == key
  {
    if answers != [] && answers[0].key != key {
      LookupFinds(answers[1..], key);
      assert answers == [answers[0]] + answers[1..];
    }
  }

  /** The supplement check guarantees that exactly when no earlier answer is left out. */
  lemma SupplementPreservesExactly(env: Env, db: Db, answers: seq<Entry>)
    ensures Preserves(env, db, answers) <==>
      && SupplementAccepted(env, db, answers)
      && forall e | e in PreviousAnswers(db.drafts) :: !MayChange(env, db, e.key) ==> Lookup(answers, e.key).Some?
  {
    var previous := PreviousAnswers(db.drafts);
    if Preserves(env, db, answers) {
      forall e | e in previous && !MayChange(env, db, e.key)
        ensures Lookup(answers, e.key).Some?
      {
        LookupFinds(previous, e.key);
      }
    } else if SupplementAccepted(env, db, answers) {
      var key :| !MayChange(env, db, key) && Lookup(answers, key) != Lookup(previous, key);
      LookupFinds(answers, key);
      LookupFinds(previous, key);
      var e :| e in previous && e.key == key;
      assert Lookup(answers, e.key).None?;
    }
  }

  /** The check looks at the answers only: whatever materials a supplement brings along are stored. */
  lemma SupplementIgnoresMaterials(env: Env, db: Db, now: nat, token: nat, request: SaveRequest, materials: Json)
    requires SaveDraft(env, db, now, token, request).Ok? && materials != JNull
    ensures var swapped := request.(materials := Some(materials));
      && SaveDraft(env, db, now, token, swapped).Ok?
      && SaveDraft(env, db, now, token, swapped).value.drafts
           == db.drafts + [DraftRow(request.answers, Some(materials))]
  {
  }

  /**
   It compares only the keys that are present: a supplement without answers is accepted and drops every one of them.
   */
  lemma EmptySupplement(env: Env, db: Db, e: Entry)
    requires e in PreviousAnswers(db.drafts) && !MayChange(env, db, e.key)
    ensures SupplementAccepted(env, db, []) && !Preserves(env, db, [])
  {
    SupplementPreservesExactly(env, db, []);
  }
}
