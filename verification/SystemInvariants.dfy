/** What holds of the whole system in every reachable state. A case has at most one task, so its row is number 0. */
module SystemInvariants {
  import opened Common
  import opened CaseModel
  import opened CaseTransactions
  import opened PdfTransactions
  import opened CaseInvariants
  import opened CaseProofs
  import opened System

  const STAGE: StageKey := StageKey(0, 1)

  /** The only task is not finished yet, or some task is. */
  ghost predicate Done(tasks: seq<PdfTask>) { tasks != [] && tasks[0].status == Succeeded }

  /** What the worker stages: a validated rendering. */
  predicate Stageable(env: Env, bytes: Bytes) { env.renders(bytes) && ReadablePdf(env, bytes) }

  /** Until the task is done its staged bytes, its journal and finally its output are the first bytes ever linked. */
  ghost predicate StagedOk(env: Env, tasks: seq<PdfTask>, staging: map<StageKey, Bytes>, first: map<StageKey, Bytes>) {
    && (forall k | k in first :: k == STAGE && tasks != [] && Stageable(env, first[k]))
    && (forall k | k in staging :: k in first)
    && (!Done(tasks) ==> staging == first)
    && (tasks != [] && tasks[0].pending.Some? ==>
          STAGE in first && tasks[0].pending.value == Journal(STAGE, env.sha(first[STAGE]), |first[STAGE]|))
    && (tasks != [] && tasks[0].output.Some? ==> STAGE in first && tasks[0].output.value.sha == env.sha(first[STAGE]))
  }

  /** Every claim is paid for: by the current set of attempts or by a used-up earlier one. */
  ghost predicate AccountOk(tasks: seq<PdfTask>) {
    tasks != [] ==>
      var t := tasks[0];
      && t.claimGeneration == t.maxAttempts * t.queueGeneration + t.attempts
      && (t.status == Queued ==> t.attempts < t.maxAttempts)
      && (t.status == Failed ==> t.attempts == t.maxAttempts)
  }

  ghost predicate ContentsOk(env: Env, contents: map<Digest, Bytes>) {
    forall d | d in contents :: env.sha(contents[d]) == d && ReadablePdf(env, contents[d])
  }

  function TokenOf(pc: Pc): Option<nat> {
    match pc
    case Leased(token) => Some(token)
    case ClaimAborting(token) => Some(token)
    case Aborting(token, _, _) => Some(token)
    case Reading(h) => Some(h.token)
    case Ready(h) => Some(h.token)
    case Recovering(h) => Some(h.token)
    case Rendering(h) => Some(h.token)
    case Linking(h, _) => Some(h.token)
    case ReadingBack(h) => Some(h.token)
    case Journalling(h, _) => Some(h.token)
    case Storing(h, _) => Some(h.token)
    case Rereading(h, _) => Some(h.token)
    case Completing(h, _) => Some(h.token)
    case Failing(h) => Some(h.token)
    case _ => None
  }

  /** A holder whose token is still the task's knows the task's counters. */
  ghost predicate HolderOk(t: PdfTask, h: Holder) {
    t.lease == Some(h.token) ==>
      && t.claimGeneration == h.generation && t.attempts == h.attempts
      && t.maxAttempts == h.maxAttempts
  }

  ghost predicate Journalled(env: Env, t: PdfTask, first: map<StageKey, Bytes>, token: nat, sha: Digest) {
    t.lease == Some(token) ==>
      STAGE in first && sha == env.sha(first[STAGE]) && t.pending == Some(Journal(STAGE, sha, |first[STAGE]|))
  }

  ghost predicate PcOk(env: Env, t: PdfTask, first: map<StageKey, Bytes>, contents: map<Digest, Bytes>, pc: Pc) {
    match pc
    case Discarding => t.status == Succeeded
    case Publishing(_) => t.status == Succeeded
    case Cleaning => t.status == Succeeded
    case Aborting(token, generation, terminal) =>
      t.lease == Some(token) ==> generation == t.claimGeneration && terminal == (t.attempts >= t.maxAttempts)
    case Reading(h) => HolderOk(t, h)
    case Ready(h) => HolderOk(t, h)
    case Recovering(h) => HolderOk(t, h)
    case Rendering(h) => HolderOk(t, h)
    case Linking(h, bytes) => HolderOk(t, h) && Stageable(env, bytes)
    case ReadingBack(h) => HolderOk(t, h)
    case Journalling(h, bytes) =>
      HolderOk(t, h) && |bytes| <= MAX_FILE_BYTES
      && (t.lease == Some(h.token) ==> STAGE in first && bytes == first[STAGE])
    case Storing(h, bytes) =>
      HolderOk(t, h) && ReadablePdf(env, bytes) && Journalled(env, t, first, h.token, env.sha(bytes))
    case Rereading(h, bytes) =>
      HolderOk(t, h) && Journalled(env, t, first, h.token, env.sha(bytes)) && env.sha(bytes) in contents
    case Completing(h, bytes) =>
      HolderOk(t, h) && Journalled(env, t, first, h.token, env.sha(bytes))
      && env.sha(bytes) in contents && contents[env.sha(bytes)] == bytes
    case Failing(h) => HolderOk(t, h)
    case _ => true
  }

  ghost predicate WorkerOk(
    env: Env, tasks: seq<PdfTask>, first: map<StageKey, Bytes>, contents: map<Digest, Bytes>, nextToken: nat, w: Worker)
  {
    w.pc == Claiming || w.pc == Stopped || (
      && tasks != [] && w.job == Job(0, env.caseId, 1)
      && (TokenOf(w.pc).Some? ==> TokenOf(w.pc).value < nextToken)
      && PcOk(env, tasks[0], first, contents, w.pc))
  }

  ghost predicate WorkersOk(
    env: Env, tasks: seq<PdfTask>, first: map<StageKey, Bytes>, contents: map<Digest, Bytes>, nextToken: nat,
    workers: map<nat, Worker>)
  {
    && (forall w | w in workers :: WorkerOk(env, tasks, first, contents, nextToken, workers[w]))
    && (tasks != [] && tasks[0].lease.Some? ==> tasks[0].lease.value < nextToken)
  }

  ghost predicate TokensDistinct(workers: map<nat, Worker>) {
    forall a, b | a in workers && b in workers && a != b ::
      TokenOf(workers[a].pc).Some? ==> TokenOf(workers[a].pc) != TokenOf(workers[b].pc)
  }

  ghost predicate TicketsOk(submitting: set<SubmitTicket>, signing: set<SignTicket>) {
    && (forall t | t in submitting :: Editable(t.status))
    && (forall t | t in signing :: SignTicketOk(t))
  }

  /** A key handed to deletion belongs to one tombstoned preview that no signing, valid or not, refers to. */
  ghost predicate DoomedOk(files: seq<FileRow>, signings: seq<Signing>, doomed: set<string>) {
    forall key | key in doomed ::
      && KeyTaken(files, key)
      && forall i | 0 <= i < |files| && files[i].key == key ::
           files[i].purpose == PresignPdf && files[i].removed && !PreviewReferenced(signings, i)
  }

  /** The file store, the claim counters and every worker between two awaits. */
  ghost predicate ProtocolOk(env: Env, s: Sys) {
    && StagedOk(env, s.db.tasks, s.staging, s.first)
    && AccountOk(s.db.tasks)
    && ContentsOk(env, s.contents)
    && WorkersOk(env, s.db.tasks, s.first, s.contents, s.nextToken, s.workers)
    && TokensDistinct(s.workers)
  }

  ghost predicate SysOk(env: Env, s: Sys) {
    && DbOk(env, s.now, s.db)
    && ProtocolOk(env, s)
    && TicketsOk(s.submitting, s.signing)
    && DoomedOk(s.db.files, s.db.signings, s.doomed)
  }
}
