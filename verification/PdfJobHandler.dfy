/**
 The render worker itself: every method is what `handle` does up to its next await, on the repository and the file
 store it was given, and does exactly the corresponding step of the protocol's state machine.
 */
module PdfWorkers {
  import opened Common
  import opened CaseModel
  import opened CaseTransactions
  import opened PdfTransactions
  import opened CaseDatabase
  import opened System
  import opened Storage
  import opened PdfServices

  class PdfJobHandler {
    const env: Env
    const job: Job
    const db: CaseTables
    const repository: PdfJobRepository
    const storage: LocalStorage
    const publisher: PdfFinalizationPublisher
    var pc: Pc

    constructor (env: Env, job: Job, db: CaseTables, storage: LocalStorage)
      requires storage.sha == env.sha
      ensures Wired() && this.env == env && this.job == job && this.db == db && this.storage == storage
      ensures pc == Claiming
    {
      this.env, this.job, this.db, this.storage, pc := env, job, db, storage, Claiming;
      repository := new PdfJobRepository(env, db);
      publisher := new PdfFinalizationPublisher(db);
    }

    ghost predicate Wired() {
      repository.env == env && repository.db == db && publisher.db == db && storage.sha == env.sha
    }

    /** The system with this worker as number 0 and nobody else in it. */
    ghost function World(now: nat, nextToken: nat): Sys
      reads this, db, storage
    {
      Sys(db.View(), now, nextToken, Alone(Worker(job, pc)), storage.staging, storage.first, storage.contents, {},
        {}, {}, {})
    }

    // ---------------------------------------------------------------- claim

    method Claim(now: nat, token: nat)
      requires Wired() && pc == Claiming
      modifies this`pc, db
      ensures World(now, token + 1) == ClaimStep(env, old(World(now, token)), 0)
    {
      var outcome := repository.Claim(now, job, token);
      pc := match outcome
        case Claimed => Leased(token)
        case Duplicate => Discarding
        case _ => Stopped;
      AloneMoves(Worker(job, old(pc)), pc);
    }

    method ReadTask(token: nat, ghost now: nat, ghost nextToken: nat)
      requires Wired() && pc == Leased(token)
      modifies this`pc
      ensures World(now, nextToken) == ReadTaskStep(old(World(now, nextToken)), 0, token)
    {
      if job.task < |db.tasks| && db.tasks[job.task].lease == Some(token) {
        var t := db.tasks[job.task];
        pc := Reading(Holder(token, t.claimGeneration, t.attempts, t.maxAttempts));
      } else {
        pc := ClaimAborting(token);
      }
      AloneMoves(Worker(job, old(pc)), pc);
    }

    /**
     The content is derived again from the signed draft and the active materials, and its digest compared with the
     signed one.
     */
    method ReadContent(h: Holder, ghost now: nat, ghost nextToken: nat)
      requires Wired() && pc == Reading(h)
      modifies this`pc
      ensures World(now, nextToken) == ReadContentStep(env, old(World(now, nextToken)), 0, h)
    {
      pc := ClaimAborting(h.token);
      if job.task < |db.tasks| && SnapshotMatches(env, db.View(), db.tasks[job.task])
        && ResourceIsImage(db.View(), db.tasks[job.task]) {
        pc := Ready(h);
      }
      AloneMoves(Worker(job, old(pc)), pc);
    }

    method PrepareAbort(token: nat, ghost now: nat, ghost nextToken: nat)
      requires Wired() && pc == ClaimAborting(token)
      modifies this`pc
      ensures World(now, nextToken) == PrepareAbortStep(old(World(now, nextToken)), 0, token)
    {
      if job.task < |db.tasks| {
        var t := db.tasks[job.task];
        pc := Aborting(token, t.claimGeneration, t.attempts >= t.maxAttempts);
      } else {
        pc := Aborting(token, -1, false);
      }
      AloneMoves(Worker(job, old(pc)), pc);
    }

    /** The catch clauses of `claim` and `handle`. */
    method Fail(token: nat, generation: int, terminal: bool, ghost now: nat, ghost nextToken: nat)
      requires Wired()
      modifies this`pc, db
      ensures World(now, nextToken) == FailStep(old(World(now, nextToken)), 0, token, generation, terminal)
    {
      repository.Fail(job.task, token, generation, terminal, "PDF_FAILURE");
      pc := Stopped;
      AloneMoves(Worker(job, old(pc)), pc);
    }

    // ---------------------------------------------------------------- staging

    method ReadStaged(h: Holder, ghost now: nat, ghost nextToken: nat)
      requires Wired() && (pc == Recovering(h) || pc == ReadingBack(h))
      modifies this`pc
      ensures World(now, nextToken) == ReadStagedStep(old(World(now, nextToken)), 0, h)
    {
      var staged := storage.ReadStaged(KeyOf(job), MAX_FILE_BYTES);
      pc := if staged.Ok? then Journalling(h, staged.value) else Failing(h);
      AloneMoves(Worker(job, old(pc)), pc);
    }

    /** What the renderer returns is validated; nothing unreadable is ever staged. */
    method Render(h: Holder, rendered: Bytes, ghost now: nat, ghost nextToken: nat)
      requires Wired() && pc == System.Rendering(h)
      modifies this`pc
      ensures World(now, nextToken) == RenderStep(env, old(World(now, nextToken)), 0, h, rendered)
    {
      pc := if env.renders(rendered) && ReadablePdf(env, rendered) then Linking(h, rendered) else Failing(h);
      AloneMoves(Worker(job, old(pc)), pc);
    }

    method Link(h: Holder, bytes: Bytes, ghost now: nat, ghost nextToken: nat)
      requires Wired() && pc == Linking(h, bytes)
      modifies this`pc, storage
      ensures World(now, nextToken) == LinkStep(old(World(now, nextToken)), 0, h, bytes)
    {
      assert Storage.Joined([bytes]) == bytes by {
        assert [bytes][..0] == [] && [] + bytes == bytes;
      }
      var linked := storage.WriteOnce([bytes], KeyOf(job), |bytes|);
      pc := ReadingBack(h);
      AloneMoves(Worker(job, old(pc)), pc);
    }

    // ---------------------------------------------------------------- from the journal on

    method Journal(h: Holder, bytes: Bytes, ghost now: nat, ghost nextToken: nat)
      requires Wired() && pc == Journalling(h, bytes)
      modifies this`pc, db
      ensures World(now, nextToken) == JournalStep(env, old(World(now, nextToken)), 0, h, bytes)
    {
      var entry := CaseModel.Journal(KeyOf(job), env.sha(bytes), |bytes|);
      pc := Failing(h);
      if ReadablePdf(env, bytes) {
        var refused := repository.JournalPending(job.task, h.token, h.generation, entry);
        if refused.None? {
          pc := Storing(h, bytes);
        }
      }
      AloneMoves(Worker(job, old(pc)), pc);
    }

    method Store(h: Holder, bytes: Bytes, ghost now: nat, ghost nextToken: nat)
      requires Wired() && pc == Storing(h, bytes)
      modifies this`pc, storage
      ensures World(now, nextToken) == StoreStep(env, old(World(now, nextToken)), 0, h, bytes)
    {
      var stored := storage.WriteContentAddressed(bytes, storage.sha(bytes));
      pc := if stored.Ok? then Rereading(h, bytes) else Failing(h);
      AloneMoves(Worker(job, old(pc)), pc);
    }

    method Reread(h: Holder, bytes: Bytes, ghost now: nat, ghost nextToken: nat)
      requires Wired() && pc == Rereading(h, bytes)
      modifies this`pc
      ensures World(now, nextToken) == RereadStep(env, old(World(now, nextToken)), 0, h, bytes)
    {
      var sha := storage.sha(bytes);
      var read := storage.ReadContent(sha, MAX_FILE_BYTES);
      pc := if read.Ok? && storage.sha(read.value) == sha && ReadablePdf(env, read.value)
        then Completing(h, read.value) else Failing(h);
      AloneMoves(Worker(job, old(pc)), pc);
    }

    method Complete(h: Holder, bytes: Bytes, fileId: nat, ghost now: nat, ghost nextToken: nat)
      requires Wired() && pc == Completing(h, bytes)
      modifies this`pc, db
      ensures World(now, nextToken) == CompleteStep(env, old(World(now, nextToken)), 0, h, bytes, fileId)
    {
      var outcome := repository.Complete(job, h.token, h.generation, CompletionOf(env, bytes, fileId));
      pc := match outcome
        case Complete(_, row) => Publishing(row)
        case AlreadyComplete => Stopped
        case CompleteRefused(_) => Failing(h);
      AloneMoves(Worker(job, old(pc)), pc);
    }

    /** The outbox row is sent once at the end; whatever the broker answers, the staged file is removed next. */
    method Publish(row: nat, answer: Option<string>, ghost now: nat, ghost nextToken: nat)
      requires Wired() && pc == Publishing(row)
      modifies this`pc, db
      ensures World(now, nextToken)
        == At(old(World(now, nextToken)), 0, Cleaning).(db := RecordSend(old(db.View()), row, answer))
    {
      var published := publisher.PublishOutbox(row, answer);
      pc := Cleaning;
      AloneMoves(Worker(job, old(pc)), pc);
    }

    method RemoveStaged(ghost now: nat, ghost nextToken: nat)
      requires Wired() && (pc == Cleaning || pc == Discarding)
      modifies this`pc, storage
      ensures World(now, nextToken) == Unstage(old(World(now, nextToken)), 0)
    {
      storage.RemoveStaged(KeyOf(job));
      pc := Stopped;
      AloneMoves(Worker(job, old(pc)), pc);
    }
  }

  function Alone(w: Worker): map<nat, Worker> { map[0 := w] }

  lemma AloneMoves(w: Worker, pc: Pc)
    ensures Alone(w)[0 := w.(pc := pc)] == Alone(w.(pc := pc))
  {
  }
}
