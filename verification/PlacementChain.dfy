/** Each stage that looks at the positions of a signing implies the next one. */
module PlacementChain {
  import opened Common
  import opened Placement
  import opened PlacementFacts
  import opened CaseModel
  import opened CaseTransactions
  import opened PdfTransactions
  import opened CaseInvariants
  import opened System
  import opened SystemInvariants
  import opened PdfTheorems

  // ---------------------------------------------------------------- command, finalizer

  /**
   What the server accepted from the client, the finalizer's own check accepts, provided the template asks for a
   signature at all.
   */
  lemma AcceptedIsValid(positions: seq<Position>, slots: seq<Slot>)
    requires PositionsAccepted(positions, slots)
    ensures PlacementsValid(positions, Required(slots)) <==> Required(slots) != []
  {
    var required := Required(slots);
    AcceptedSlotsDistinct(positions, slots);
    forall s | s in required
      ensures exists p | p in positions :: p.slotId == s.slotId && Fits(p, s)
    {
      NamedBySome(positions, s.slotId);
      var i :| 0 <= i < |positions| && positions[i].slotId == s.slotId;
      assert positions[i] in positions;
      var k :| 0 <= k < |required| && required[k] == s;
      FoundAt(required, k);
    }
  }

  /**
   Every stored signing passes the placement and declaration gates for ever, its output carries its digest and its
   materials stay approved: of the finalizer's gates only the validity of the signing and the event's hash can fail.
   */
  lemma GatesExactly(env: Env, s: Sys, e: Event)
    requires Reached(env, s) && Required(env.slots) != [] && HasTask(s.db.status) && Inspect(env, s.db, e).Ok?
    ensures Inspect(env, s.db, e).value.gates.Pass()
      <==> SigningOfTaskValid(s.db, s.db.tasks[0]) && s.db.tasks[0].output == Some(Output(e.file, e.sha))
  {
    ReachedOk(env, s);
    GatesOf(env, s.db, e);
  }

  lemma GatesOf(env: Env, db: Db, e: Event)
    requires SigningsWellFormed(env, db.drafts, db.signings)
    requires TaskOk(env, db.status, db.reviews, db.tasks, db.outbox, db.files, db.signings)
    requires Required(env.slots) != [] && HasTask(db.status) && Inspect(env, db, e).Ok?
    ensures Inspect(env, db, e).value.gates.Pass()
      <==> SigningOfTaskValid(db, db.tasks[0]) && db.tasks[0].output == Some(Output(e.file, e.sha))
  {
    var signing := db.signings[db.tasks[0].signatureVersion - 1];
    AcceptedIsValid(signing.positions, env.slots);
  }

  lemma DeliveryOf(env: Env, db: Db, e: Event)
    requires SigningsWellFormed(env, db.drafts, db.signings)
    requires TaskOk(env, db.status, db.reviews, db.tasks, db.outbox, db.files, db.signings)
    requires Required(env.slots) != [] && (db.status == Finalizing || db.status == PdfFailed)
    requires db.tasks != [] && db.tasks[0].output == Some(Output(e.file, e.sha)) && SigningOfTaskValid(db, db.tasks[0])
    requires e.task == 0 && e.caseId == env.caseId && e.version == 1
    ensures Inspect(env, db, e).Ok? && Inspect(env, db, e).value.gates.Pass()
    ensures var (outcome, after) := Finalize(env, db, e, Some(Inspect(env, db, e).value.fingerprint));
      outcome == CaseCompleted && after.status == Completed
  {
    assert Inspect(env, db, e).Ok?;
    GatesOf(env, db, e);
  }
}
