/**
 What a customer's link admits and for how long: the one link that was issued last opens the case until it expires, and
 a link that is shut once admits nothing in any later state. A case that is over has disabled all its links.
 */
module LinkRules {
  import opened Common
  import opened CaseModel
  import opened CaseTransactions
  import opened PdfTransactions
  import opened CaseInvariants
  import opened System
  import opened SystemInvariants
  import opened SystemProofs
  import opened WorkerProofs
  import opened Evolution
  import opened PdfTheorems
  import opened CaseTheorems
  import opened StoredOutput
  import opened StepEffects

  // ---------------------------------------------------------------- what a token admits

  /** Expired, disabled, spent, closed with the case, or of a case that is over. */
  predicate Shut(db: Db, now: nat, token: nat)
    requires token < |db.links|
  {
    var link := db.links[token];
    || link.expiresAt <= now || link.disabled || link.consumed || link.completed
    || db.status == Completed || db.status == Closed
  }

  /** What a customer does with a link. */
  predicate UsesToken(tx: Tx, token: nat) {
    match tx
    case OfClient(SaveDraftTx(t, _)) => t == token
    case OfClient(VerifySubmissionTx(t, _)) => t == token
    case OfClient(CommitSubmissionTx(t, _)) => t == token
    case OfClient(VerifySigningTx(t, _)) => t == token
    case OfClient(CommitSigningTx(t, _, _)) => t == token
    case OfFile(PersistPreviewTx(t, _)) => t == token
    case OfFile(UploadMaterialTx(t, _, _)) => t == token
    case OfFile(RemoveMaterialTx(t, _)) => t == token
    case OfFile(UploadResourceTx(t, _, _, _)) => t == token
    case _ => false
  }

  lemma ShutRefuses(env: Env, s: Sys, token: nat, tx: Tx)
    requires token < |s.db.links| && Shut(s.db, s.now, token) && UsesToken(tx, token)
    ensures ApplyTx(env, s, tx) == s
  {
    ShutChangesNoRow(env, s.db, s.now, token, tx);
    ShutGivesNoTicket(env, s, token, tx);
  }

  lemma ShutChangesNoRow(env: Env, db: Db, now: nat, token: nat, tx: Tx)
    requires token < |db.links| && Shut(db, now, token) && UsesToken(tx, token)
    ensures TxDb(env, db, now, tx) == db
  {
  }

  lemma ShutGivesNoTicket(env: Env, s: Sys, token: nat, tx: Tx)
    requires token < |s.db.links| && Shut(s.db, s.now, token) && UsesToken(tx, token)
    ensures NewSubmissions(env, s, tx) == {} && NewSignings(env, s, tx) == {}
    ensures NewFinalizations(env, s, tx) == {} && NewlyDoomed(env, s, tx) == {}
  {
  }

  lemma ShutStays(db: Db, now: nat, later: Db, laterNow: nat, token: nat)
    requires token < |db.links| && Shut(db, now, token) && now <= laterNow && LinksGrow(db.links, later.links)
    requires db.status == Completed || db.status == Closed ==> later.status == db.status
    ensures token < |later.links| && Shut(later, laterNow, token)
  {
  }

  /** Whoever holds a link that is shut can change nothing any more, whatever happens to the case. */
  lemma ShutForEver(env: Env, s: Sys, more: seq<Step>, token: nat, tx: Tx)
    requires Reached(env, s) && token < |s.db.links| && Shut(s.db, s.now, token) && UsesToken(tx, token)
    ensures ApplyTx(env, Run(env, s, more), tx) == Run(env, s, more)
  {
    var later := Run(env, s, more);
    TimePasses(env, s, more);
    TerminalForEver(env, s, more);
    LinksOnlyGrow(env, s, more);
    ShutStays(s.db, s.now, later.db, later.now, token);
    ShutRefuses(env, later, token, tx);
  }

  lemma LinksOnlyGrow(env: Env, s: Sys, more: seq<Step>)
    requires Reached(env, s)
    ensures LinksGrow(s.db.links, Run(env, s, more).db.links)
  {
    ReachedOk(env, s);
    RunGrows(env, s, more);
  }

  // ---------------------------------------------------------------- a new link

  /** The last link is new, expires when it should, and is the only one that is not shut. */
  ghost predicate OpensOnly(db: Db, now: nat, issued: nat, expiresAt: nat) {
    && |db.links| == issued + 1 && db.links[issued] == Link(expiresAt, false, false, false)
    && forall i | 0 <= i < issued :: Shut(db, now, i)
  }

  lemma SubmitDraftIssues(db: Db, now: nat, expiresAt: nat)
    requires SubmitDraft(db, expiresAt).Ok?
    ensures OpensOnly(SubmitDraft(db, expiresAt).value, now, |db.links|, expiresAt)
  {
  }

  lemma WithoutLiveShuts(db: Db, now: nat)
    requires OneLiveLink(db.links, now)
    ensures forall i | 0 <= i < |db.links| :: Shut(db.(links := WithoutLive(db.links, now)), now, i)
  {
    forall i | 0 <= i < |db.links|
      ensures Shut(db.(links := WithoutLive(db.links, now)), now, i)
    {
      if FirstLive(db.links, now).Some? && Live(db.links[i], now) {
        assert i == FirstLive(db.links, now).value;
      }
    }
  }

  lemma ReplaceLinkIssues(db: Db, now: nat, expiresAt: nat, requireExisting: bool)
    requires OneLiveLink(db.links, now) && ReplaceLink(db, now, expiresAt, requireExisting).Ok?
    ensures OpensOnly(ReplaceLink(db, now, expiresAt, requireExisting).value, now, |db.links|, expiresAt)
  {
    WithoutLiveShuts(db, now);
    var after := ReplaceLink(db, now, expiresAt, requireExisting).value;
    forall i | 0 <= i < |db.links|
      ensures Shut(after, now, i)
    {
      assert Shut(db.(links := WithoutLive(db.links, now)), now, i);
    }
  }

  lemma RejectionIssues(db: Db, now: nat, rotate: bool, expiresAt: nat)
    requires OneLiveLink(db.links, now) && GenerateRejection(db, now, rotate, expiresAt).Ok?
    ensures OpensOnly(GenerateRejection(db, now, rotate, expiresAt).value, now, |db.links|, expiresAt)
  {
    WithoutLiveShuts(db, now);
    var after := GenerateRejection(db, now, rotate, expiresAt).value;
    forall i | 0 <= i < |db.links|
      ensures Shut(after, now, i)
    {
      assert Shut(db.(links := WithoutLive(db.links, now)), now, i);
    }
  }

  lemma SentBackIssues(db: Db, now: nat, expiresAt: nat)
    ensures OpensOnly(SentBack(db, expiresAt), now, |db.links|, expiresAt)
  {
  }

  /** A link transaction that adds a link. */
  predicate Issues(tx: LinkTx) { tx.SubmitDraftTx? || tx.ReplaceLinkTx? || tx.GenerateRejectionTx? }

  lemma LinkTxIssues(db: Db, now: nat, tx: LinkTx)
    requires OneLiveLink(db.links, now) && Issues(tx)
    ensures LinkDb(db, now, tx) == db || OpensOnly(LinkDb(db, now, tx), now, |db.links|, tx.expiresAt)
  {
    match tx
    case SubmitDraftTx(expiresAt) => if SubmitDraft(db, expiresAt).Ok? { SubmitDraftIssues(db, now, expiresAt); }
    case ReplaceLinkTx(expiresAt, existing) =>
      if ReplaceLink(db, now, expiresAt, existing).Ok? { ReplaceLinkIssues(db, now, expiresAt, existing); }
    case GenerateRejectionTx(rotate, expiresAt) =>
      if GenerateRejection(db, now, rotate, expiresAt).Ok? { RejectionIssues(db, now, rotate, expiresAt); }
  }

  /** Whoever issues a link shuts every other: the new one, and no other, opens the case until it expires. */
  lemma IssuedLinkOpens(env: Env, s: Sys, tx: LinkTx)
    requires Reached(env, s) && Issues(tx)
    ensures var after := ApplyTx(env, s, OfLink(tx)).db;
      after == s.db || OpensOnly(after, s.now, |s.db.links|, tx.expiresAt)
  {
    assert OneLiveLink(s.db.links, s.now) by {
      ReachedOk(env, s);
    }
    LinkTxIssues(s.db, s.now, tx);
    TxApplied(env, s, OfLink(tx));
  }

  /** A link some customer could still use, were the case not over. */
  predicate Unused(link: Link, now: nat) {
    link.expiresAt > now && !link.disabled && !link.consumed && !link.completed
  }

  ghost predicate SomeUnused(links: seq<Link>, now: nat) { exists i | 0 <= i < |links| :: Unused(links[i], now) }

  lemma UnusedIsFound(links: seq<Link>, now: nat)
    ensures FirstLive(links, now).Some? <==> SomeUnused(links, now)
  {
    if FirstLive(links, now).Some? {
      assert Unused(links[FirstLive(links, now).value], now);
    } else {
      assert forall i | 0 <= i < |links| :: !Live(links[i], now);
    }
  }

  /** Disabling asks for an unused link and leaves none; renewing asks for one too, regenerating does not. */
  lemma DisablingExactly(env: Env, s: Sys, expiresAt: nat, requireExisting: bool)
    requires Reached(env, s)
    ensures DisableLink(s.db, s.now).Ok? <==> SomeUnused(s.db.links, s.now)
    ensures DisableLink(s.db, s.now).Ok? ==> !SomeUnused(DisableLink(s.db, s.now).value.links, s.now)
    ensures ReplaceLink(s.db, s.now, expiresAt, requireExisting).Ok?
      <==> !requireExisting || SomeUnused(s.db.links, s.now)
  {
    assert OneLiveLink(s.db.links, s.now) by {
      ReachedOk(env, s);
    }
    UnusedIsFound(s.db.links, s.now);
    if DisableLink(s.db, s.now).Ok? {
      NoneUnusedAfter(s.db, s.now);
    }
  }

  lemma NoneUnusedAfter(db: Db, now: nat)
    requires OneLiveLink(db.links, now) && DisableLink(db, now).Ok?
    ensures !SomeUnused(DisableLink(db, now).value.links, now)
  {
    var after, live := DisableLink(db, now).value.links, FirstLive(db.links, now).value;
    forall i | 0 <= i < |after|
      ensures !Unused(after[i], now)
    {
      assert i == live || !Live(db.links[i], now);
    }
  }

  // ---------------------------------------------------------------- links of a case that is over

  ghost predicate ClosedAreDisabled(links: seq<Link>) {
    forall i | 0 <= i < |links| :: links[i].completed ==> links[i].disabled
  }

  ghost predicate AllDisabled(links: seq<Link>) { forall i | 0 <= i < |links| :: links[i].disabled }

  lemma LinkKeepsClosed(db: Db, now: nat, tx: LinkTx)
    requires ClosedAreDisabled(db.links)
    ensures ClosedAreDisabled(LinkDb(db, now, tx).links)
  {
  }

  lemma ClientKeepsClosed(env: Env, db: Db, now: nat, tx: ClientTx)
    requires ClosedAreDisabled(db.links)
    ensures ClosedAreDisabled(ClientDb(env, db, now, tx).links)
  {
  }

  lemma ReviewKeepsClosed(env: Env, db: Db, tx: ReviewTx)
    requires ClosedAreDisabled(db.links)
    ensures ClosedAreDisabled(ReviewDb(env, db, tx).links)
  {
  }

  lemma TxKeepsClosed(env: Env, db: Db, now: nat, tx: Tx)
    requires ClosedAreDisabled(db.links)
    ensures ClosedAreDisabled(TxDb(env, db, now, tx).links)
  {
    match tx
    case OfLink(t) => LinkKeepsClosed(db, now, t);
    case OfClient(t) => ClientKeepsClosed(env, db, now, t);
    case OfFile(t) => FileTxTouches(env, db, now, t);
    case OfReview(t) => ReviewKeepsClosed(env, db, t);
    case OfPdf(t) => PdfKeepsClosed(env, db, t);
  }

  lemma PdfKeepsClosed(env: Env, db: Db, tx: PdfTx)
    requires ClosedAreDisabled(db.links)
    ensures ClosedAreDisabled(PdfDb(env, db, tx).links)
  {
    if PdfDb(env, db, tx).links != db.links {
      match tx
      case FinalizeTx(ticket) => FinalizeLinks(env, db, ticket.event, Some(ticket.fingerprint));
      case _ =>
    }
  }

  /** The committing transaction leaves the links, or closes every one that was not disabled. */
  lemma FinalizeLinks(env: Env, db: Db, e: Event, expected: Option<Fingerprint>)
    ensures var after := PdfTransactions.Finalize(env, db, e, expected).1;
      && (after.links == db.links || after.links == CompleteAll(db.links))
      && (after.status != db.status ==> after.links == CompleteAll(db.links) && after.status == Completed)
  {
  }

  lemma StepKeepsClosed(env: Env, s: Sys, step: Step)
    requires ClosedAreDisabled(s.db.links)
    ensures ClosedAreDisabled(Apply(env, s, step).db.links)
  {
    StepCases(env, s, step);
    if step.Case? {
      TxKeepsClosed(env, s.db, s.now, step.tx);
    }
  }

  lemma {:induction false} RunKeepsClosed(env: Env, s: Sys, steps: seq<Step>)
    requires ClosedAreDisabled(s.db.links)
    ensures ClosedAreDisabled(Run(env, s, steps).db.links)
    decreases |steps|
  {
    if steps != [] {
      RunKeepsClosed(env, s, steps[..|steps| - 1]);
      StepKeepsClosed(env, Run(env, s, steps[..|steps| - 1]), steps[|steps| - 1]);
    }
  }

  lemma ReachedClosed(env: Env, s: Sys)
    requires Reached(env, s)
    ensures ClosedAreDisabled(s.db.links)
  {
    var reviewer, steps :| s == Run(env, Start(reviewer), steps);
    RunKeepsClosed(env, Start(reviewer), steps);
  }

  lemma OnlyFinalizing(env: Env, db: Db, now: nat, tx: Tx)
    requires db.status != Completed && TxDb(env, db, now, tx).status == Completed
    ensures tx.OfPdf? && tx.pdf.FinalizeTx?
  {
    match tx
    case OfLink(t) => LinkStatus(db, now, t);
    case OfClient(t) => ClientStatus(env, db, now, t);
    case OfFile(t) => FileTxTouches(env, db, now, t);
    case OfReview(t) => ReviewStatus(env, db, t);
    case OfPdf(t) =>
  }

  lemma LinkStatus(db: Db, now: nat, tx: LinkTx)
    ensures LinkDb(db, now, tx).status == Completed ==> db.status == Completed
  {
  }

  lemma ClientStatus(env: Env, db: Db, now: nat, tx: ClientTx)
    ensures ClientDb(env, db, now, tx).status == Completed ==> db.status == Completed
  {
  }

  lemma ReviewStatus(env: Env, db: Db, tx: ReviewTx)
    ensures ReviewDb(env, db, tx).status == Completed ==> db.status == Completed
  {
  }

  /** COMPLETED and CLOSED are the end of a case. */
  predicate Over(status: CaseStatus) { status == Completed || status == Closed }

  lemma TxEnds(env: Env, db: Db, now: nat, tx: Tx)
    requires ClosedAreDisabled(db.links) && !Over(db.status) && Over(TxDb(env, db, now, tx).status)
    ensures AllDisabled(TxDb(env, db, now, tx).links)
  {
    if TxDb(env, db, now, tx).status == Completed {
      OnlyFinalizing(env, db, now, tx);
      FinalizeLinks(env, db, tx.pdf.ticket.event, Some(tx.pdf.ticket.fingerprint));
    } else {
      OnlyClosing(env, db, now, tx);
    }
  }

  lemma OnlyClosing(env: Env, db: Db, now: nat, tx: Tx)
    requires db.status != Closed && TxDb(env, db, now, tx).status == Closed
    ensures tx == OfLink(CloseTx) && TxDb(env, db, now, tx).links == DisableAll(db.links)
  {
    match tx
    case OfLink(t) => LinkCloses(db, now, t);
    case OfClient(t) => ClientOpen(env, db, now, t);
    case OfFile(t) => FileTxTouches(env, db, now, t);
    case OfReview(t) => ReviewOpen(env, db, t);
    case OfPdf(t) => PdfOpen(env, db, t);
  }

  lemma LinkCloses(db: Db, now: nat, tx: LinkTx)
    requires db.status != Closed && LinkDb(db, now, tx).status == Closed
    ensures tx == CloseTx && LinkDb(db, now, tx).links == DisableAll(db.links)
  {
  }

  lemma ClientOpen(env: Env, db: Db, now: nat, tx: ClientTx)
    ensures ClientDb(env, db, now, tx).status == Closed ==> db.status == Closed
  {
  }

  lemma ReviewOpen(env: Env, db: Db, tx: ReviewTx)
    ensures ReviewDb(env, db, tx).status == Closed ==> db.status == Closed
  {
  }

  lemma PdfOpen(env: Env, db: Db, tx: PdfTx)
    ensures PdfDb(env, db, tx).status == Closed ==> db.status == Closed
  {
  }

  lemma StepEnds(env: Env, s: Sys, step: Step)
    requires ClosedAreDisabled(s.db.links) && !Over(s.db.status) && Over(Apply(env, s, step).db.status)
    ensures AllDisabled(Apply(env, s, step).db.links)
  {
    StepCases(env, s, step);
    if step.Case? {
      TxEnds(env, s.db, s.now, step.tx);
    }
  }

  /** The step that completes or closes a case disables every link it has, and they stay disabled. */
  lemma EndClosesLinks(env: Env, s: Sys, step: Step, more: seq<Step>)
    requires Reached(env, s) && !Over(s.db.status) && Over(Apply(env, s, step).db.status)
    ensures var links, later := Apply(env, s, step).db.links, Run(env, Apply(env, s, step), more).db.links;
      |links| <= |later| && forall i | 0 <= i < |links| :: later[i].disabled
  {
    ReachedClosed(env, s);
    StepEnds(env, s, step);
    ReachedNext(env, s, step);
    LinksOnlyGrow(env, Apply(env, s, step), more);
  }

  /** `replaceLink` asks for no status, so it adds a link to a case that is over, too. */
  predicate Relinks(tx: LinkTx) { tx.ReplaceLinkTx? && !tx.requireExisting }

  lemma OverLinkTx(db: Db, now: nat, tx: LinkTx)
    requires Over(db.status) && AllDisabled(db.links)
    ensures LinkDb(db, now, tx).links
      == if Relinks(tx) then db.links + [Link(tx.expiresAt, false, false, false)] else db.links
  {
    assert FirstLive(db.links, now) == None;
  }

  lemma OverTx(env: Env, db: Db, now: nat, tx: Tx)
    requires Over(db.status) && !tx.OfLink?
    ensures TxDb(env, db, now, tx).links == db.links
  {
    match tx
    case OfClient(t) => OverClient(env, db, now, t);
    case OfFile(t) => FileTxTouches(env, db, now, t);
    case OfReview(t) => OverReview(env, db, t);
    case OfPdf(t) =>
      if t.FinalizeTx? {
        FinalizeLinks(env, db, t.ticket.event, Some(t.ticket.fingerprint));
        FinalizedOver(env, db, t.ticket.event, Some(t.ticket.fingerprint));
      }
  }

  lemma OverClient(env: Env, db: Db, now: nat, tx: ClientTx)
    requires Over(db.status)
    ensures ClientDb(env, db, now, tx) == db
  {
  }

  lemma OverReview(env: Env, db: Db, tx: ReviewTx)
    requires Over(db.status)
    ensures ReviewDb(env, db, tx) == db
  {
  }

  lemma FinalizedOver(env: Env, db: Db, e: Event, expected: Option<Fingerprint>)
    requires Over(db.status)
    ensures PdfTransactions.Finalize(env, db, e, expected).1.links == db.links
  {
  }

  /** From then on exactly an unconditional replacement makes a link that is not disabled; it opens nothing. */
  lemma RelinkedExactly(env: Env, s: Sys, step: Step)
    requires Over(s.db.status) && AllDisabled(s.db.links)
    ensures AllDisabled(Apply(env, s, step).db.links)
      <==> !(step.Case? && step.tx.OfLink? && Relinks(step.tx.link))
  {
    StepCases(env, s, step);
    if step.Case? && step.tx.OfLink? {
      OverLinkTx(s.db, s.now, step.tx.link);
      TxApplied(env, s, step.tx);
      if Relinks(step.tx.link) {
        assert !Apply(env, s, step).db.links[|s.db.links|].disabled;
      }
    } else if step.Case? {
      OverTx(env, s.db, s.now, step.tx);
    }
  }
}
