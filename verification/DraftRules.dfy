/**
 What saving a draft promises a customer with two open windows: no version is ever overwritten unseen, every stored
 version stays as it was sent, and only the customer's own saves change the answers.
 */
module DraftRules {
  import opened Common
  import opened CanonicalJson
  import opened CaseModel
  import opened CaseTransactions
  import opened PdfTransactions
  import opened CaseInvariants
  import opened System
  import opened SystemInvariants
  import opened SystemProofs
  import opened WorkerProofs
  import opened Evolution
  import opened PdfTheorems
  import opened CaseTheorems
  import opened StoredOutput
  import opened LinkRules
  import opened StepEffects

  /** The customer may work on the case with this link now. */
  predicate Admitted(db: Db, now: nat, token: nat) {
    && token < |db.links| && !Shut(db, now, token)
    && (db.status == AwaitingCustomer || db.status == CustomerEditing || db.status == NeedsSupplement)
  }

  // ---------------------------------------------------------------- one save

  /** The one reason to answer a conflict: an unforced save on another version than the latest. */
  lemma ConflictExactly(env: Env, db: Db, now: nat, token: nat, request: SaveRequest)
    ensures SaveDraft(env, db, now, token, request) == Err(DraftVersionConflict)
      <==> Admitted(db, now, token) && !request.force && request.baseVersion != |db.drafts|
  {
  }

  /** A save is accepted exactly from an admitted customer on the latest version, or by force, within a supplement. */
  lemma SaveExactly(env: Env, db: Db, now: nat, token: nat, request: SaveRequest)
    ensures SaveDraft(env, db, now, token, request).Ok?
      <==>
      && Admitted(db, now, token) && db.templatePublished && (request.force || request.baseVersion == |db.drafts|)
      && (db.status == NeedsSupplement ==> WithinSupplement(env, db, request.answers))
  {
    SupplementMeans(env, db, request.answers);
  }

  /** The answer belongs to a requirement that was rejected, by its id or its key. */
  ghost predicate AskedFor(env: Env, db: Db, key: string) {
    exists q | q in env.requirements ::
      (key == q.id || key == q.key) && q.id in db.reviews && db.reviews[q.id].decision == Reject
  }

  /** Whatever the supplement says beyond what was asked for, it said before. */
  ghost predicate WithinSupplement(env: Env, db: Db, answers: seq<Entry>) {
    forall i | 0 <= i < |answers| ::
      var key := answers[i].key;
      || key == "materialsVersion" || AskedFor(env, db, key)
      || Lookup(answers, key) == (if db.drafts == [] then None else Lookup(db.drafts[|db.drafts| - 1].answers, key))
  }

  lemma SupplementMeans(env: Env, db: Db, answers: seq<Entry>)
    ensures SupplementAccepted(env, db, answers) <==> WithinSupplement(env, db, answers)
  {
    if WithinSupplement(env, db, answers) {
      forall e | e in answers
        ensures SupplementKey(env, db.reviews, e.key) || e.key == "materialsVersion"
          || Lookup(answers, e.key) == Lookup(PreviousAnswers(db.drafts), e.key)
      {
        var i :| 0 <= i < |answers| && answers[i] == e;
      }
    }
  }

  /** The materials a request means: its own list, else the one among its answers; a null list counts as none. */
  ghost predicate MaterialsOf(request: SaveRequest, materials: Option<Json>) {
    if request.materials.Some? && request.materials.value != JNull then materials == request.materials
    else if Lookup(request.answers, "__materials").Some? && Lookup(request.answers, "__materials").value != JNull
    then materials == Lookup(request.answers, "__materials")
    else materials == None
  }

  /** The next version, as it was sent. */
  ghost predicate Keeps(drafts: seq<DraftRow>, version: nat, request: SaveRequest) {
    && 1 <= version <= |drafts| && drafts[version - 1].answers == request.answers
    && MaterialsOf(request, drafts[version - 1].materials)
  }

  lemma SaveStores(env: Env, db: Db, now: nat, token: nat, request: SaveRequest)
    requires SaveDraft(env, db, now, token, request).Ok?
    ensures var after := SaveDraft(env, db, now, token, request).value;
      && |after.drafts| == |db.drafts| + 1 && db.drafts <= after.drafts && Keeps(after.drafts, |after.drafts|, request)
      && after.files == db.files && |after.signings| == |db.signings|
      && after.status == if db.status == AwaitingCustomer then CustomerEditing else db.status
  {
  }

  /** The signature survives a save exactly when the digest of the content does. */
  lemma SaveKeepsSignature(env: Env, db: Db, now: nat, token: nat, request: SaveRequest, k: nat)
    requires SaveDraft(env, db, now, token, request).Ok? && k < |db.signings| && db.signings[k].valid
    ensures var after := SaveDraft(env, db, now, token, request).value;
      after.signings[k].valid
      <==>
      && db.drafts != []
      && env.contentDigest(CurrentContent(env, db)) == env.contentDigest(CurrentContent(env, after))
  {
  }

  // ---------------------------------------------------------------- over a run

  /** A version once stored stays as it was sent. */
  lemma SavedForEver(env: Env, s: Sys, token: nat, request: SaveRequest, more: seq<Step>)
    requires Reached(env, s) && SaveDraft(env, s.db, s.now, token, request).Ok?
    ensures var later := Run(env, Apply(env, s, Case(OfClient(SaveDraftTx(token, request)))), more).db;
      Keeps(later.drafts, |s.db.drafts| + 1, request) && s.db.drafts <= later.drafts
  {
    var step := Case(OfClient(SaveDraftTx(token, request)));
    SaveStores(env, s.db, s.now, token, request);
    TxApplied(env, s, step.tx);
    ReachedNext(env, s, step);
    DraftsOnlyGrow(env, Apply(env, s, step), more);
  }

  lemma DraftsOnlyGrow(env: Env, s: Sys, more: seq<Step>)
    requires Reached(env, s)
    ensures s.db.drafts <= Run(env, s, more).db.drafts
  {
    ReachedOk(env, s);
    RunGrows(env, s, more);
  }

  /**
   No lost update: once any draft was stored after a customer read the versions, an unforced save of what was read
   before is refused for ever, with a conflict wherever link and status still admit the customer at all.
   */
  lemma NoLostUpdate(env: Env, s: Sys, more: seq<Step>, rest: seq<Step>, token: nat, request: SaveRequest)
    requires Reached(env, s) && request.baseVersion <= |s.db.drafts| && !request.force
    requires |s.db.drafts| < |Run(env, s, more).db.drafts|
    ensures var later := Run(env, Run(env, s, more), rest);
      && SaveDraft(env, later.db, later.now, token, request).Err?
      && (Admitted(later.db, later.now, token) ==>
            SaveDraft(env, later.db, later.now, token, request) == Err(DraftVersionConflict))
  {
    var between := Run(env, s, more);
    var later := Run(env, between, rest);
    RunReached(env, s, more);
    DraftsOnlyGrow(env, between, rest);
    ConflictExactly(env, later.db, later.now, token, request);
    SaveExactly(env, later.db, later.now, token, request);
  }

  /** Answers change in one way only: a customer with an open link, while the case is being edited, adds a version. */
  lemma OnlySavesChangeDrafts(env: Env, s: Sys, step: Step)
    requires Apply(env, s, step).db.drafts != s.db.drafts
    ensures step.Case? && step.tx.OfClient? && step.tx.client.SaveDraftTx?
    ensures Admitted(s.db, s.now, step.tx.client.token)
    ensures SaveDraft(env, s.db, s.now, step.tx.client.token, step.tx.client.request).Ok?
  {
    StepCases(env, s, step);
    TxDrafts(env, s.db, s.now, step.tx);
  }

  lemma TxDrafts(env: Env, db: Db, now: nat, tx: Tx)
    requires TxDb(env, db, now, tx).drafts != db.drafts
    ensures tx.OfClient? && tx.client.SaveDraftTx?
    ensures Admitted(db, now, tx.client.token) && SaveDraft(env, db, now, tx.client.token, tx.client.request).Ok?
  {
    match tx
    case OfLink(t) => LinkTxTouches(db, now, t);
    case OfClient(t) => ClientDrafts(env, db, now, t);
    case OfFile(t) => FileTxTouches(env, db, now, t);
    case OfReview(t) => ReviewTxTouches(env, db, t);
    case OfPdf(t) => PdfTxTouches(env, db, t);
  }

  lemma ClientDrafts(env: Env, db: Db, now: nat, tx: ClientTx)
    requires ClientDb(env, db, now, tx).drafts != db.drafts
    ensures tx.SaveDraftTx? && Admitted(db, now, tx.token) && SaveDraft(env, db, now, tx.token, tx.request).Ok?
  {
  }
}
