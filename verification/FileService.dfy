/** Uploads and removals of the file service, as transactions over the case's tables. */
module FileServices {
  import opened Common
  import opened CaseModel
  import opened CaseTransactions
  import opened CaseDatabase
  import opened CaseServices

  class FileService {
    const env: Env
    const db: CaseTables
    const tokens: TokenService

    constructor (env: Env, db: CaseTables)
      ensures this.env == env && this.db == db && tokens.db == db
    {
      this.env, this.db := env, db;
      tokens := new TokenService(db);
    }

    /** The evidence-bearing bytes of the case, summed row by row. */
    method EvidenceRetainedBytes() returns (total: nat)
      ensures total == RetainedBytes(db.files, db.signings)
    {
      total := 0;
      for i := 0 to |db.files|
        invariant total == RetainedUpTo(db.files, db.signings, i)
      {
        if Retained(db.files, db.signings, i) {
          total := total + db.files[i].size;
        }
      }
    }

    /**
     An upload answers with an existing active duplicate, or is checked against the limits and added; then every
     signing is invalid.
     */
    method UploadPublic(now: nat, token: nat, reference: string, u: Upload) returns (r: Result<(nat, bool)>)
      requires tokens.db == db
      modifies db
      ensures match UploadMaterial(env, old(db.View()), now, token, reference, u)
        case Ok(done) => db.View() == done.db && r == Ok((done.version, done.reused))
        case Err(error) => db.View() == old(db.View()) && r == Err(error)
    {
      if u.size > MAX_FILE_BYTES {
        return Err(FileTooLarge);
      }
      var resolved := tokens.ResolveForMutation(now, token);
      if !resolved {
        return Err(LinkUnavailable);
      }
      var entry := RequirementNamed(env.requirements, reference);
      if entry.None? {
        return Err(RequirementUnknown);
      }
      var id := entry.value.id;
      if u.size > Limit(entry.value.maxFileBytes, MAX_FILE_BYTES) {
        return Err(FileTooLarge);
      }
      var duplicate := LastWhere(db.files, DuplicateOf(id, u.sha));
      if duplicate.Some? {
        return Ok((duplicate.value, true));
      }
      var count := CountFor(db.files, id);
      var retained := EvidenceRetainedBytes();
      if count + 1 > Limit(entry.value.maxFiles, MAX_MATERIAL_FILES) {
        return Err(FileCountExceeded);
      }
      if retained + u.size > Limit(entry.value.maxCaseBytes, MAX_CASE_BYTES) {
        return Err(CapacityExceeded);
      }
      if KeyTaken(db.files, u.key) {
        return Err(StorageKeyTaken);
      }
      db.files := db.files + [MaterialRow(u, id)];
      db.InvalidateSignings();
      return Ok((|db.files| - 1, false));
    }

    method RemovePublic(now: nat, token: nat, i: nat) returns (refused: Option<Error>)
      requires tokens.db == db
      modifies db
      ensures Commits(RemoveMaterial(old(db.View()), now, token, i), old(db.View()), db.View(), refused)
    {
      var resolved := tokens.ResolveForMutation(now, token);
      if !resolved {
        return Some(LinkUnavailable);
      }
      if i >= |db.files| || !IsActiveMaterial(db.files[i]) {
        return Some(FileNotFound);
      }
      db.files := db.files[i := db.files[i].(removed := true)];
      db.InvalidateSignings();
      return None;
    }

    /** Signature images and seals: no signing is invalidated, a processed seal names its active original. */
    method UploadSigningResource(
      now: nat, token: nat, purpose: Purpose, original: Option<nat>, u: Upload) returns (r: Result<(nat, bool)>)
      requires tokens.db == db
      modifies db
      ensures match UploadResource(old(db.View()), now, token, purpose, original, u)
        case Ok(done) => db.View() == done.db && r == Ok((done.version, done.reused))
        case Err(error) => db.View() == old(db.View()) && r == Err(error)
    {
      if u.size > MAX_FILE_BYTES {
        return Err(FileTooLarge);
      }
      if u.mime == ApplicationPdf || purpose !in {Handwritten, SealOriginal, SealProcessed} {
        return Err(BindingInvalid);
      }
      if (purpose == SealProcessed) != original.Some? {
        return Err(BindingInvalid);
      }
      var resolved := tokens.ResolveForMutation(now, token);
      if !resolved {
        return Err(LinkUnavailable);
      }
      if original.Some? && FindOriginal(db.View(), original.value).None? {
        return Err(SealOriginalMissing);
      }
      var duplicate := LastWhere(db.files, DuplicateResource(purpose, u.sha, original));
      if duplicate.Some? {
        return Ok((duplicate.value, true));
      }
      var retained := EvidenceRetainedBytes();
      if retained + u.size > MAX_CASE_BYTES {
        return Err(CapacityExceeded);
      }
      if KeyTaken(db.files, u.key) {
        return Err(StorageKeyTaken);
      }
      db.files := db.files + [ResourceRow(u, purpose, original)];
      return Ok((|db.files| - 1, false));
    }
  }
}
