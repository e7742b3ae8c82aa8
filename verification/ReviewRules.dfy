/**
 What a review decides: only the assigned reviewer changes an item, an item says what was decided, and a rejected item
 keeps the case from finalization until it is approved.
 */
module ReviewRules {
  import opened Common
  import opened CaseModel
  import opened CaseTransactions
  import opened PdfTransactions
  import opened CaseInvariants
  import opened CaseProofs
  import opened System
  import opened SystemInvariants
  import opened SystemProofs
  import opened WorkerProofs
  import opened PdfTheorems
  import opened CaseTheorems
  import opened LinkRules
  import opened StoredOutput
  import opened SigningRules
  import opened StepEffects

  predicate Rejected(db: Db, item: string) { item in db.reviews && db.reviews[item].decision == Reject }

  predicate Approved(db: Db, item: string) { item in db.reviews && db.reviews[item].decision == Approve }

  predicate InFinalization(status: CaseStatus) { status == Finalizing || status == PdfFailed || status == Completed }

  // ---------------------------------------------------------------- one item

  /** A decision is accepted exactly from the assigned reviewer, on an item of the case that is open to him. */
  lemma ItemExactly(env: Env, db: Db, reviewer: string, item: string, decision: Decision, hasReason: bool)
    ensures ReviewItem(env, db, reviewer, item, decision, hasReason).Ok?
      <==>
      && db.reviewer == Some(reviewer) && UnderReview(db.status) && (decision == Reject ==> hasReason)
      && (exists q | q in env.requirements :: q.id == item)
      && !(db.status == PendingRereview && Approved(db, item))
  {
  }

  /** The item says what was decided, its version counts the decisions, and no other item and no other table changes. */
  ghost predicate Decides(db: Db, item: string, decision: Decision, after: Db) {
    && after == db.(reviews := after.reviews)
    && item in after.reviews && after.reviews[item].decision == decision
    && after.reviews[item].version == 1 + (if item in db.reviews then db.reviews[item].version else 0)
    && forall other :: other != item ==>
         && (other in after.reviews <==> other in db.reviews)
         && (other in db.reviews ==> after.reviews[other] == db.reviews[other])
  }

  lemma ItemDecides(env: Env, db: Db, reviewer: string, item: string, decision: Decision, hasReason: bool)
    requires ReviewItem(env, db, reviewer, item, decision, hasReason).Ok?
    ensures Decides(db, item, decision, ReviewItem(env, db, reviewer, item, decision, hasReason).value)
  {
  }

  /** Items change in one way only: the assigned reviewer decides one while the case is under review. */
  lemma OnlyTheReviewerDecides(env: Env, s: Sys, step: Step)
    requires Apply(env, s, step).db.reviews != s.db.reviews
    ensures step.Case? && step.tx.OfReview? && step.tx.review.ReviewItemTx?
    ensures s.db.reviewer == Some(step.tx.review.reviewer) && UnderReview(s.db.status)
    ensures Decides(s.db, step.tx.review.requirement, step.tx.review.decision, Apply(env, s, step).db)
    ensures !(s.db.status == PendingRereview && Approved(s.db, step.tx.review.requirement))
  {
    StepCases(env, s, step);
    TxDecides(env, s.db, s.now, step.tx);
    TxApplied(env, s, step.tx);
  }

  lemma TxDecides(env: Env, db: Db, now: nat, tx: Tx)
    requires TxDb(env, db, now, tx).reviews != db.reviews
    ensures tx.OfReview? && tx.review.ReviewItemTx?
    ensures db.reviewer == Some(tx.review.reviewer) && UnderReview(db.status)
    ensures Decides(db, tx.review.requirement, tx.review.decision, TxDb(env, db, now, tx))
    ensures !(db.status == PendingRereview && Approved(db, tx.review.requirement))
  {
    match tx
    case OfLink(t) => LinkTxTouches(db, now, t);
    case OfClient(t) => ClientTxTouches(env, db, now, t);
    case OfFile(t) => FileTxTouches(env, db, now, t);
    case OfReview(t) => ReviewDecides(env, db, t);
    case OfPdf(t) => PdfTxTouches(env, db, t);
  }

  lemma ReviewDecides(env: Env, db: Db, tx: ReviewTx)
    requires ReviewDb(env, db, tx).reviews != db.reviews
    ensures tx.ReviewItemTx? && db.reviewer == Some(tx.reviewer) && UnderReview(db.status)
    ensures Decides(db, tx.requirement, tx.decision, ReviewDb(env, db, tx))
    ensures !(db.status == PendingRereview && Approved(db, tx.requirement))
  {
    if tx.ReviewItemTx? {
      ItemExactly(env, db, tx.reviewer, tx.requirement, tx.decision, tx.hasReason);
      ItemDecides(env, db, tx.reviewer, tx.requirement, tx.decision, tx.hasReason);
    }
  }

  /** In a second review an approved item is locked: no step changes it. */
  lemma ApprovedIsLocked(env: Env, s: Sys, step: Step, item: string)
    requires s.db.status == PendingRereview && Approved(s.db, item)
    ensures item in Apply(env, s, step).db.reviews && Apply(env, s, step).db.reviews[item] == s.db.reviews[item]
  {
    if Apply(env, s, step).db.reviews != s.db.reviews {
      OnlyTheReviewerDecides(env, s, step);
    }
  }

  // ---------------------------------------------------------------- a rejected item

  /** The assigned reviewer approves the item, and the approval is accepted. */
  ghost predicate Approves(env: Env, s: Sys, step: Step, item: string) {
    && step.Case? && step.tx.OfReview? && step.tx.review.ReviewItemTx?
    && step.tx.review.requirement == item && step.tx.review.decision == Approve
    && s.db.reviewer == Some(step.tx.review.reviewer) && UnderReview(s.db.status)
    && Apply(env, s, step).db != s.db
  }

  lemma StepRejects(env: Env, s: Sys, step: Step, item: string)
    requires Rejected(s.db, item) && !Approves(env, s, step, item)
    ensures Rejected(Apply(env, s, step).db, item)
  {
    if Apply(env, s, step).db.reviews != s.db.reviews {
      OnlyTheReviewerDecides(env, s, step);
    }
  }

  lemma {:induction false} StaysRejected(env: Env, s: Sys, more: seq<Step>, item: string)
    requires Rejected(s.db, item)
    requires forall i | 0 <= i < |more| :: !Approves(env, Run(env, s, more[..i]), more[i], item)
    ensures Rejected(Run(env, s, more).db, item)
    decreases |more|
  {
    if more != [] {
      var front, last := more[..|more| - 1], more[|more| - 1];
      forall i | 0 <= i < |front|
        ensures !Approves(env, Run(env, s, front[..i]), front[i], item)
      {
        assert front[..i] == more[..i] && front[i] == more[i];
      }
      StaysRejected(env, s, front, item);
      StepRejects(env, Run(env, s, front), last, item);
    }
  }

  lemma RejectedIsNotFinal(env: Env, s: Sys, item: string)
    requires Reached(env, s) && Rejected(s.db, item) && exists q | q in env.requirements :: q.id == item
    ensures !InFinalization(s.db.status)
  {
    ReachedOk(env, s);
    var q :| q in env.requirements && q.id == item;
  }

  lemma RejectionApplies(env: Env, s: Sys, reviewer: string, item: string, hasReason: bool)
    requires ReviewItem(env, s.db, reviewer, item, Reject, hasReason).Ok?
    ensures Rejected(Apply(env, s, Case(OfReview(ReviewItemTx(reviewer, item, Reject, hasReason)))).db, item)
    ensures exists q | q in env.requirements :: q.id == item
  {
    var tx := OfReview(ReviewItemTx(reviewer, item, Reject, hasReason));
    ItemExactly(env, s.db, reviewer, item, Reject, hasReason);
    ItemDecides(env, s.db, reviewer, item, Reject, hasReason);
    assert ApplyTx(env, s, tx).db == ReviewItem(env, s.db, reviewer, item, Reject, hasReason).value;
  }

  /**
   After a rejection was accepted, a case is found in finalization, failed or completed only if somewhere on the way
   there the assigned reviewer approved that very item.
   */
  lemma RejectionBlocks(env: Env, s: Sys, reviewer: string, item: string, hasReason: bool, more: seq<Step>)
    requires Reached(env, s) && ReviewItem(env, s.db, reviewer, item, Reject, hasReason).Ok?
    requires var after := Apply(env, s, Case(OfReview(ReviewItemTx(reviewer, item, Reject, hasReason))));
      InFinalization(Run(env, after, more).db.status)
    ensures var after := Apply(env, s, Case(OfReview(ReviewItemTx(reviewer, item, Reject, hasReason))));
      exists i | 0 <= i < |more| :: Approves(env, Run(env, after, more[..i]), more[i], item)
  {
    var step := Case(OfReview(ReviewItemTx(reviewer, item, Reject, hasReason)));
    RejectionApplies(env, s, reviewer, item, hasReason);
    ReachedNext(env, s, step);
    NotFinalUnapproved(env, Apply(env, s, step), more, item);
  }

  lemma NotFinalUnapproved(env: Env, s: Sys, more: seq<Step>, item: string)
    requires Reached(env, s) && Rejected(s.db, item) && exists q | q in env.requirements :: q.id == item
    requires InFinalization(Run(env, s, more).db.status)
    ensures exists i | 0 <= i < |more| :: Approves(env, Run(env, s, more[..i]), more[i], item)
  {
    if forall i | 0 <= i < |more| :: !Approves(env, Run(env, s, more[..i]), more[i], item) {
      StaysRejected(env, s, more, item);
      RunReached(env, s, more);
      RejectedIsNotFinal(env, Run(env, s, more), item);
    }
  }

  // ---------------------------------------------------------------- the confirmation

  /** Everything was decided, and nothing was rejected or some signature is valid. */
  ghost predicate Confirmable(env: Env, db: Db, reviewer: string) {
    && db.reviewer == Some(reviewer) && UnderReview(db.status)
    && env.requirements != [] && (forall q | q in env.requirements :: q.id in db.reviews)
    && ((exists item :: Rejected(db, item)) || exists k | 0 <= k < |db.signings| :: db.signings[k].valid)
  }

  /** Back to the customer with the only open link. */
  ghost predicate SendsBack(db: Db, now: nat, expiresAt: nat, after: Db) {
    && after.status == NeedsSupplement && OpensOnly(after, now, |db.links|, expiresAt)
    && after == db.(status := after.status, history := after.history, links := after.links)
  }

  /** On to finalization, with one queued task for the valid signature and three attempts to render it. */
  ghost predicate SendsOn(db: Db, after: Db) {
    && after.status == Finalizing
    && after == db.(status := after.status, history := after.history, tasks := after.tasks)
    && |after.tasks| == 1
    && var t := after.tasks[0];
       && t.status == Queued && t.attempts == 0 && t.maxAttempts == 3 && t.snapshotVersion == 1 && t.output.None?
       && 1 <= t.signatureVersion <= |db.signings| && db.signings[t.signatureVersion - 1].valid
  }

  lemma ConfirmationOf(env: Env, db: Db, now: nat, reviewer: string, expiresAt: nat)
    requires TasksOk(db.status, db.tasks, db.signings)
    ensures Confirm(env, db, reviewer, expiresAt).Ok? <==> Confirmable(env, db, reviewer)
    ensures Confirm(env, db, reviewer, expiresAt).Ok? ==>
      var after := Confirm(env, db, reviewer, expiresAt).value;
      if exists item :: Rejected(db, item) then SendsBack(db, now, expiresAt, after) else SendsOn(db, after)
  {
    SomeRejected(db);
  }

  lemma SomeRejected(db: Db)
    ensures AnyRejected(db.reviews) <==> exists item :: Rejected(db, item)
  {
    if AnyRejected(db.reviews) {
      var item :| item in db.reviews && db.reviews[item].decision == Reject;
      assert Rejected(db, item);
    }
    if item :| Rejected(db, item) {
      assert db.reviews[item].decision == Reject;
    }
  }

  /** A confirmation is accepted exactly when all is decided, and goes back exactly when something is rejected. */
  lemma ConfirmExactly(env: Env, s: Sys, reviewer: string, expiresAt: nat)
    requires Reached(env, s)
    ensures Confirm(env, s.db, reviewer, expiresAt).Ok? <==> Confirmable(env, s.db, reviewer)
    ensures Confirm(env, s.db, reviewer, expiresAt).Ok? ==>
      var after := Confirm(env, s.db, reviewer, expiresAt).value;
      if exists item :: Rejected(s.db, item) then SendsBack(s.db, s.now, expiresAt, after) else SendsOn(s.db, after)
  {
    ReachedOk(env, s);
    ConfirmationOf(env, s.db, s.now, reviewer, expiresAt);
  }

  // ---------------------------------------------------------------- the reviewer

  lemma TxReassigns(env: Env, db: Db, now: nat, tx: Tx)
    requires db.reviewer.Some? && TxDb(env, db, now, tx).reviewer != db.reviewer
    ensures tx.OfReview? && tx.review.AssignReviewerTx? && tx.review.hasReason
    ensures TxDb(env, db, now, tx) == db.(reviewer := Some(tx.review.reviewer))
    ensures db.status != Completed && db.status != Closed
  {
    match tx
    case OfLink(t) => LinkTxTouches(db, now, t);
    case OfClient(t) => ClientTxTouches(env, db, now, t);
    case OfFile(t) => FileTxTouches(env, db, now, t);
    case OfReview(t) => ReviewReassigns(env, db, t);
    case OfPdf(t) => PdfTxTouches(env, db, t);
  }

  lemma ReviewReassigns(env: Env, db: Db, tx: ReviewTx)
    requires db.reviewer.Some? && ReviewDb(env, db, tx).reviewer != db.reviewer
    ensures tx.AssignReviewerTx? && tx.hasReason && ReviewDb(env, db, tx) == db.(reviewer := Some(tx.reviewer))
    ensures db.status != Completed && db.status != Closed
  {
  }

  /** A free case under review can be claimed; an assignment needs a reason exactly when it takes the case away. */
  lemma AssignmentsExactly(db: Db, reviewer: string, hasReason: bool)
    ensures ClaimReview(db, reviewer).Ok? <==> db.reviewer.None? && UnderReview(db.status)
    ensures AssignReviewer(db, reviewer, hasReason).Ok? <==> !Over(db.status) && (db.reviewer.None? || hasReason)
  {
  }

  /** A rejection message is written for a case with rejected items, and only on request while its link is unused. */
  lemma MessageExactly(db: Db, now: nat, rotate: bool, expiresAt: nat)
    ensures GenerateRejection(db, now, rotate, expiresAt).Ok?
      <==>
      && db.status == NeedsSupplement && (exists item :: Rejected(db, item)) && (rotate || !SomeUnused(db.links, now))
  {
    SomeRejected(db);
    UnusedIsFound(db.links, now);
  }

  /** A case that has a reviewer gets another only by an assignment with a reason, and never once it is over. */
  lemma OnlyAssignedAnew(env: Env, s: Sys, step: Step)
    requires s.db.reviewer.Some? && Apply(env, s, step).db.reviewer != s.db.reviewer
    ensures step.Case? && step.tx.OfReview? && step.tx.review.AssignReviewerTx? && step.tx.review.hasReason
    ensures Apply(env, s, step).db == s.db.(reviewer := Some(step.tx.review.reviewer))
    ensures s.db.status != Completed && s.db.status != Closed
  {
    StepCases(env, s, step);
    TxReassigns(env, s.db, s.now, step.tx);
  }
}
