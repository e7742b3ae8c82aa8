/** Claims, decisions and confirmation of the review service, as transactions over the case's tables. */
module ReviewServices {
  import opened Common
  import opened CaseModel
  import opened CaseTransactions
  import opened CaseDatabase

  class ReviewService {
    const env: Env
    const db: CaseTables

    constructor (env: Env, db: CaseTables)
      ensures this.env == env && this.db == db
    {
      this.env, this.db := env, db;
    }

    method Claim(reviewer: string) returns (refused: Option<Error>)
      modifies db
      ensures Commits(ClaimReview(old(db.View()), reviewer), old(db.View()), db.View(), refused)
    {
      if db.reviewer.Some? || !Reviewable(db.status) {
        return Some(ReviewAssignmentChanged);
      }
      db.reviewer := Some(reviewer);
      return None;
    }

    method Assign(reviewer: string, hasReason: bool) returns (refused: Option<Error>)
      modifies db
      ensures Commits(AssignReviewer(old(db.View()), reviewer, hasReason), old(db.View()), db.View(), refused)
    {
      if db.status == Completed || db.status == Closed {
        return Some(StatusNotAllowed);
      }
      if db.reviewer.Some? && !hasReason {
        return Some(ReasonRequired);
      }
      db.reviewer := Some(reviewer);
      return None;
    }

    method ReviewItem(
      reviewer: string, requirement: string, decision: Decision, hasReason: bool) returns (refused: Option<Error>)
      modifies db
      ensures Commits(
        CaseTransactions.ReviewItem(env, old(db.View()), reviewer, requirement, decision, hasReason), old(db.View()),
          db.View(), refused)
    {
      if decision == Reject && !hasReason {
        return Some(ReasonRequired);
      }
      if db.reviewer != Some(reviewer) || !Reviewable(db.status) {
        return Some(ReviewAssignmentChanged);
      }
      if !Included(env, requirement) {
        return Some(RequirementUnknown);
      }
      var version := 1;
      if requirement in db.reviews {
        if db.status == PendingRereview && db.reviews[requirement].decision == Approve {
          return Some(ReviewLocked);
        }
        version := db.reviews[requirement].version + 1;
      }
      db.reviews := db.reviews[requirement := Review(decision, version)];
      return None;
    }

    /** The upsert of the PDF task under its idempotency key. */
    method UpsertPdfTask(signatureVersion: nat)
      modifies db`tasks
      ensures db.tasks == UpsertTask(old(db.tasks), signatureVersion)
    {
      var existing := TaskKeyed(db.tasks, signatureVersion);
      if existing.None? {
        db.tasks := db.tasks + [NewTask(signatureVersion)];
      } else {
        db.tasks := db.tasks[existing.value := db.tasks[existing.value].(status := Queued, failure := None)];
      }
    }

    /**
     Everything decided: one rejection sends the case back with a fresh link, otherwise it moves on to finalization.
     */
    method Confirm(reviewer: string, expiresAt: nat) returns (refused: Option<Error>)
      modifies db
      ensures Commits(CaseTransactions.Confirm(env, old(db.View()), reviewer, expiresAt), old(db.View()), db.View(),
        refused)
    {
      if db.reviewer != Some(reviewer) || !Reviewable(db.status) {
        return Some(ReviewAssignmentChanged);
      }
      if env.requirements == [] || !AllReviewed(env, db.reviews) {
        return Some(ReviewIncomplete);
      }
      if AnyRejected(db.reviews) {
        db.MoveTo(NeedsSupplement);
        db.DisableLinks();
        db.links := db.links + [Link(expiresAt, false, false, false)];
        return None;
      }
      var signing := LatestValid(db.signings);
      if signing.None? {
        return Some(SigningMissing);
      }
      db.MoveTo(Finalizing);
      UpsertPdfTask(signing.value + 1);
      return None;
    }

    method GenerateRejectionMessage(now: nat, rotate: bool, expiresAt: nat) returns (refused: Option<Error>)
      modifies db
      ensures Commits(GenerateRejection(old(db.View()), now, rotate, expiresAt), old(db.View()), db.View(), refused)
    {
      if db.status != NeedsSupplement || !AnyRejected(db.reviews) {
        return Some(StatusNotAllowed);
      }
      var active := db.FindLive(now);
      if active.Some? && !rotate {
        return Some(LinkAlreadyActive);
      }
      if active.Some? {
        db.links := db.links[active.value := db.links[active.value].(disabled := true)];
      }
      db.links := db.links + [Link(expiresAt, false, false, false)];
      return None;
    }
  }
}
