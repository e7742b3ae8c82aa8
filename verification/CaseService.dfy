/**
 The case service: drafts, submission, previews, signing, links and closing, as transactions over the case's tables.
 */
module CaseServices {
  import opened Common
  import opened Placement
  import opened CanonicalJson
  import opened CaseModel
  import opened CaseTransactions
  import opened CaseDatabase

  class TokenService {
    const db: CaseTables

    constructor (db: CaseTables)
      ensures this.db == db
    {
      this.db := db;
    }

    /** A token opens the case while its link is live and the case is not terminal. */
    method ResolveForMutation(now: nat, token: nat) returns (ok: bool)
      ensures ok == Resolves(db.View(), now, token)
    {
      if token >= |db.links| {
        return false;
      }
      var link := db.links[token];
      if link.expiresAt <= now || link.disabled || link.consumed || link.completed {
        return false;
      }
      return db.status != Completed && db.status != Closed;
    }

    method ConsumeForMutation(now: nat, token: nat) returns (ok: bool)
      requires token < |db.links|
      modifies db`links
      ensures ok == Live(old(db.links[token]), now)
      ensures db.links == if ok then old(db.links)[token := old(db.links[token]).(consumed := true)] else old(db.links)
    {
      ok := Live(db.links[token], now);
      if ok {
        db.links := db.links[token := db.links[token].(consumed := true)];
      }
    }
  }

  class CaseService {
    const env: Env
    const db: CaseTables
    const tokens: TokenService

    constructor (env: Env, db: CaseTables)
      ensures this.env == env && this.db == db && tokens.db == db
    {
      this.env, this.db := env, db;
      tokens := new TokenService(db);
    }

    method SubmitDraft(expiresAt: nat) returns (refused: Option<Error>)
      modifies db
      ensures Commits(CaseTransactions.SubmitDraft(old(db.View()), expiresAt), old(db.View()), db.View(), refused)
    {
      if db.status != Draft {
        return Some(StatusNotAllowed);
      }
      db.DisableLinks();
      db.links := db.links + [Link(expiresAt, false, false, false)];
      db.MoveTo(AwaitingCustomer);
      return None;
    }

    method DisableLink(now: nat) returns (refused: Option<Error>)
      modifies db
      ensures Commits(CaseTransactions.DisableLink(old(db.View()), now), old(db.View()), db.View(), refused)
    {
      var active := db.FindLive(now);
      if active.None? {
        return Some(LinkNotFound);
      }
      db.links := db.links[active.value := db.links[active.value].(disabled := true)];
      return None;
    }

    method ReplaceLink(now: nat, expiresAt: nat, requireExisting: bool) returns (refused: Option<Error>)
      modifies db
      ensures Commits(CaseTransactions.ReplaceLink(old(db.View()), now, expiresAt, requireExisting), old(db.View()),
        db.View(), refused)
    {
      var active := db.FindLive(now);
      if requireExisting && active.None? {
        return Some(LinkNotFound);
      }
      if active.Some? {
        db.links := db.links[active.value := db.links[active.value].(disabled := true)];
      }
      db.links := db.links + [Link(expiresAt, false, false, false)];
      return None;
    }

    method Close() returns (refused: Option<Error>)
      modifies db
      ensures Commits(CaseTransactions.Close(old(db.View())), old(db.View()), db.View(), refused)
    {
      if db.status == Completed || db.status == Closed {
        return Some(StatusNotAllowed);
      }
      db.DisableLinks();
      db.MoveTo(Closed);
      return None;
    }

    /** Only keys that are present are compared with the previous draft. */
    method AssertSupplementOnly(answers: seq<Entry>) returns (ok: bool)
      ensures ok == SupplementAccepted(env, db.View(), answers)
    {
      var previous := PreviousAnswers(db.drafts);
      for i := 0 to |answers|
        invariant forall k | 0 <= k < i ::
          || SupplementKey(env, db.reviews, answers[k].key)
          || answers[k].key == "materialsVersion"
          || Lookup(answers, answers[k].key) == Lookup(previous, answers[k].key)
      {
        var key := answers[i].key;
        if !SupplementKey(env, db.reviews, key) && key != "materialsVersion"
          && Lookup(answers, key) != Lookup(previous, key) {
          assert answers[i] in answers;
          return false;
        }
      }
      return true;
    }

    method SavePublicDraft(now: nat, token: nat, request: SaveRequest) returns (refused: Option<Error>)
      requires tokens.db == db
      modifies db
      ensures Commits(SaveDraft(env, old(db.View()), now, token, request), old(db.View()), db.View(), refused)
    {
      var resolved := tokens.ResolveForMutation(now, token);
      if !resolved {
        return Some(LinkUnavailable);
      }
      if !Editable(db.status) {
        return Some(StatusNotAllowed);
      }
      if !request.force && |db.drafts| != request.baseVersion {
        return Some(DraftVersionConflict);
      }
      if db.status == NeedsSupplement {
        var accepted := AssertSupplementOnly(request.answers);
        if !accepted {
          return Some(Error.SupplementOnly);
        }
      }
      if !db.templatePublished {
        return Some(TemplateNotPublished);
      }
      AppendDraft(DraftOf(request));
      return None;
    }

    /** Stores the next draft, starts the editing, and invalidates every signing when the content changed. */
    method AppendDraft(draft: DraftRow)
      modifies db
      ensures db.View() == WithDraft(env, old(db.View()), draft)
    {
      var afterDigest := ApiDigest(env, draft, db.files);
      var contentChanged := db.drafts == [] || ApiDigest(env, db.drafts[|db.drafts| - 1], db.files) != afterDigest;
      db.drafts := db.drafts + [draft];
      if db.status == AwaitingCustomer {
        db.MoveTo(CustomerEditing);
      }
      if contentChanged {
        db.InvalidateSignings();
      }
    }

    /** The first transaction of a formal submission: it reads and checks, and writes nothing. */
    method VerifySubmit(now: nat, token: nat, signingVersion: nat) returns (r: Result<SubmitTicket>)
      requires tokens.db == db
      ensures r == VerifySubmission(env, db.View(), now, token, signingVersion)
    {
      var resolved := tokens.ResolveForMutation(now, token);
      if !resolved {
        return Err(LinkUnavailable);
      }
      if !Editable(db.status) {
        return Err(StatusNotAllowed);
      }
      if db.drafts == [] {
        return Err(DraftMissing);
      }
      if !db.templatePublished {
        return Err(TemplateNotPublished);
      }
      var digest := ApiDigest(env, db.drafts[|db.drafts| - 1], db.files);
      var latest := LatestValid(db.signings);
      if latest.None? || latest.value + 1 != signingVersion {
        return Err(SigningExpired);
      }
      var signing := db.signings[latest.value];
      if signing.contentDigest != digest || signing.preview >= |db.files| {
        return Err(SigningExpired);
      }
      var preview := db.files[signing.preview];
      if preview.mime != ApplicationPdf || signing.previewSha != preview.sha {
        return Err(SigningExpired);
      }
      return Ok(SubmitTicket(db.status, |db.drafts|, digest, latest.value, signing.preview, signing.previewSha));
    }

    /** The second transaction: everything the ticket says is checked again before the case moves on. */
    method CommitSubmit(now: nat, token: nat, ticket: SubmitTicket) returns (refused: Option<Error>)
      requires tokens.db == db
      modifies db
      ensures Commits(CommitSubmission(env, old(db.View()), now, token, ticket), old(db.View()), db.View(), refused)
    {
      var resolved := tokens.ResolveForMutation(now, token);
      if !resolved {
        return Some(LinkUnavailable);
      }
      if db.status != ticket.status || |db.drafts| != ticket.draftVersion || db.drafts == [] {
        return Some(ChangedSinceVerification);
      }
      if !db.templatePublished {
        return Some(TemplateNotPublished);
      }
      var digest := ApiDigest(env, db.drafts[|db.drafts| - 1], db.files);
      if digest != ticket.digest || ticket.signing >= |db.signings| {
        return Some(ChangedSinceVerification);
      }
      var signing := db.signings[ticket.signing];
      if !signing.valid || signing.contentDigest != digest || signing.preview != ticket.preview
         || signing.preview >= |db.files|
         || signing.previewSha != ticket.previewSha || db.files[signing.preview].sha != ticket.previewSha {
        return Some(ChangedSinceVerification);
      }
      db.MoveTo(if db.status == NeedsSupplement then PendingRereview else PendingReview);
      var consumed := tokens.ConsumeForMutation(now, token);
      assert consumed;
      db.submissions := db.submissions + [token];
      return None;
    }

    /** Persisting a rendered preview; a refusal after the rotation rolls the rotation back. */
    method PersistPresign(now: nat, token: nat, r: Rendered) returns (result: Result<(nat, bool, set<string>)>)
      requires tokens.db == db
      modifies db
      ensures match PersistPreview(env, old(db.View()), now, token, r)
        case Ok(p) => db.View() == p.db && result == Ok((p.version, p.reused, p.retiredKeys))
        case Err(error) => db.View() == old(db.View()) && result == Err(error)
    {
      var saved := db.View();
      var resolved := tokens.ResolveForMutation(now, token);
      if !resolved {
        return Err(LinkUnavailable);
      }
      if db.drafts == [] {
        return Err(DraftMissing);
      }
      if !db.templatePublished {
        return Err(TemplateNotPublished);
      }
      if ApiDigest(env, db.drafts[|db.drafts| - 1], db.files) != r.digest {
        return Err(PreviewOutdated);
      }
      var existing := LastWhere(db.files, ServesDigest(r.digest));
      if existing.Some? {
        return Ok((existing.value, true, {}));
      }
      var retired := RetiredKeys(db.files, db.signings);
      db.RotatePreviews();
      if RetainedBytes(db.files, db.signings) + r.size > MAX_CASE_BYTES {
        db.RollBack(saved);
        return Err(CapacityExceeded);
      }
      if KeyTaken(saved.files, r.key) {
        db.RollBack(saved);
        return Err(StorageKeyTaken);
      }
      db.files := db.files + [PreviewRow(r)];
      return Ok((|saved.files|, false, retired - {r.key}));
    }

    /** A cached preview whose bytes are missing or altered is taken out of the cache. */
    method DisableCorruptPreview(i: nat) returns (refused: Option<Error>)
      modifies db
      ensures Commits(DropCorruptPreview(old(db.View()), i), old(db.View()), db.View(), refused)
    {
      if i >= |db.files| || db.files[i].purpose != PresignPdf || !db.files[i].cacheActive {
        return Some(FileNotFound);
      }
      db.files := db.files[i := db.files[i].(cacheActive := false)];
      db.files := db.files[i := db.files[i].(removed := true)];
      return None;
    }

    /** The first transaction of an ordinary signing. */
    method VerifySign(now: nat, token: nat, command: SigningCommand) returns (r: Result<SignTicket>)
      requires tokens.db == db
      ensures r == VerifySigning(env, db.View(), now, token, command)
    {
      var resolved := tokens.ResolveForMutation(now, token);
      if !resolved {
        return Err(LinkUnavailable);
      }
      if !Editable(db.status) {
        return Err(StatusNotAllowed);
      }
      if db.drafts == [] {
        return Err(DraftMissing);
      }
      if !db.templatePublished {
        return Err(TemplateNotPublished);
      }
      var digest := ApiDigest(env, db.drafts[|db.drafts| - 1], db.files);
      var invalid := ValidateCommand(command, env.slots);
      if invalid.Some? {
        return Err(invalid.value);
      }
      var resource := FindResource(db.View(), command);
      if resource.None? {
        return Err(ResourceMissing);
      }
      var original: Option<nat> := None;
      if command.mode == SealMode {
        if command.sealOriginal.None? || FindOriginal(db.View(), command.sealOriginal.value).None? {
          return Err(SealOriginalMissing);
        }
        original := command.sealOriginal;
      }
      if !BindingValid(command.mode, db.files[resource.value], original) {
        return Err(BindingInvalid);
      }
      var preview := LastWhere(db.files, HasDigest(digest));
      if preview.None? {
        return Err(PreviewMissing);
      }
      return Ok(SignTicket(db.status, |db.drafts|, digest, command, resource.value, db.files[resource.value], original,
        if original.Some? then Some(db.files[original.value]) else None, preview.value, db.files[preview.value]));
    }

    /**
     The second transaction: all rows again, then every earlier signing loses its validity and the new one is added.
     */
    method CommitSign(
      now: nat, token: nat, command: SigningCommand, ticket: SignTicket) returns (refused: Option<Error>)
      requires tokens.db == db
      modifies db
      ensures Commits(CommitSigning(env, old(db.View()), now, token, command, ticket), old(db.View()), db.View(),
        refused)
    {
      var resolved := tokens.ResolveForMutation(now, token);
      if !resolved {
        return Some(LinkUnavailable);
      }
      if db.status != ticket.status || |db.drafts| != ticket.draftVersion || db.drafts == [] {
        return Some(ChangedSinceVerification);
      }
      if !db.templatePublished {
        return Some(TemplateNotPublished);
      }
      var digest := ApiDigest(env, db.drafts[|db.drafts| - 1], db.files);
      if digest != ticket.digest {
        return Some(ChangedSinceVerification);
      }
      var invalid := ValidateCommand(command, env.slots);
      if invalid.Some? {
        return Some(invalid.value);
      }
      if command != ticket.command {
        return Some(ChangedSinceVerification);
      }
      if ticket.resource >= |db.files| || !SameFile(db.files[ticket.resource], ticket.resourceRow)
         || db.files[ticket.resource].original != ticket.resourceRow.original {
        return Some(ChangedSinceVerification);
      }
      if ticket.original.Some? {
        var original := FindOriginal(db.View(), ticket.original.value);
        if original.None? || ticket.originalRow.None? || !SameFile(db.files[original.value], ticket.originalRow.value) {
          return Some(ChangedSinceVerification);
        }
      }
      if !BindingValid(command.mode, db.files[ticket.resource], ticket.original) {
        return Some(BindingInvalid);
      }
      if ticket.preview >= |db.files| || db.files[ticket.preview].purpose != PresignPdf
         || db.files[ticket.preview].digest != Some(digest) || !SameFile(db.files[ticket.preview], ticket.previewRow) {
        return Some(ChangedSinceVerification);
      }
      db.InvalidateSignings();
      db.signings := db.signings + [Signing(
        |db.drafts|, digest, command.mode, ticket.resource, ticket.preview, db.files[ticket.preview].sha,
        command.positions, true, true)];
      return None;
    }
  }
}
