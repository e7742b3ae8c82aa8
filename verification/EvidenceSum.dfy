/**
 What the retained bytes of a case are the sum of: every active file, every final PDF, and whatever a signing pins as
 its preview, its image or the original of its image. New rows add exactly their size; pinned ones count for ever.
 */
module EvidenceSum {
  import opened Common
  import opened CaseModel
  import opened CaseTransactions
  import opened PdfTransactions
  import opened FileFacts
  import opened CaseInvariants
  import opened CaseProofs
  import opened System
  import opened SystemInvariants
  import opened WorkerProofs
  import opened Evolution
  import opened PdfTheorems
  import opened StoredOutput

  // ---------------------------------------------------------------- one row

  /** A signing shows the row as its preview, is drawn with it, or is drawn with an image made from it. */
  ghost predicate Pinned(files: seq<FileRow>, signings: seq<Signing>, i: nat) {
    exists k | 0 <= k < |signings| ::
      || signings[k].preview == i || signings[k].resource == i
      || (signings[k].resource < |files| && files[signings[k].resource].original == Some(i))
  }

  ghost predicate Counts(files: seq<FileRow>, signings: seq<Signing>, i: nat)
    requires i < |files|
  {
    !files[i].removed || files[i].purpose == FinalPdf || Pinned(files, signings, i)
  }

  lemma CountsIsRetained(files: seq<FileRow>, signings: seq<Signing>, i: nat)
    requires i < |files|
    ensures Retained(files, signings, i) <==> Counts(files, signings, i)
  {
    if Retained(files, signings, i) && files[i].removed && files[i].purpose != FinalPdf {
      if k :| 0 <= k < |signings| && signings[k].preview == i {
        assert Pinned(files, signings, i);
      } else if k :| 0 <= k < |signings| && signings[k].resource == i {
        assert Pinned(files, signings, i);
      } else {
        var j :| 0 <= j < |files| && files[j].original == Some(i) && exists k | 0 <= k < |signings| ::
          signings[k].resource == j;
        var k :| 0 <= k < |signings| && signings[k].resource == j;
        assert Pinned(files, signings, i);
      }
    }
    if Pinned(files, signings, i) {
      var k :| 0 <= k < |signings| && (signings[k].preview == i || signings[k].resource == i
        || (signings[k].resource < |files| && files[signings[k].resource].original == Some(i)));
      assert Retained(files, signings, i);
    }
  }

  /** The same table with an empty file in row `i`. */
  function Emptied(files: seq<FileRow>, i: nat): seq<FileRow>
    requires i < |files|
  {
    files[i := files[i].(size := 0)]
  }

  lemma EmptiedRetained(files: seq<FileRow>, signings: seq<Signing>, i: nat, j: nat)
    requires i < |files| && j < |files|
    ensures Retained(Emptied(files, i), signings, j) <==> Retained(files, signings, j)
  {
    var emptied := Emptied(files, i);
    assert forall m | 0 <= m < |files| :: emptied[m].original == files[m].original;
    if m :| 0 <= m < |files| && files[m].original == Some(j) && exists k | 0 <= k < |signings| ::
      signings[k].resource == m
    {
      assert emptied[m].original == Some(j);
    }
  }

  lemma {:induction false} RowWeighs(files: seq<FileRow>, signings: seq<Signing>, i: nat, n: nat)
    requires i < |files| && n <= |files|
    ensures RetainedUpTo(files, signings, n) == RetainedUpTo(Emptied(files, i), signings, n)
      + if i < n && Retained(files, signings, i) then files[i].size else 0
  {
    if n > 0 {
      RowWeighs(files, signings, i, n - 1);
      EmptiedRetained(files, signings, i, n - 1);
    }
  }

  /** A row is in the sum with exactly its size, or not at all. */
  lemma EachRowCounts(files: seq<FileRow>, signings: seq<Signing>, i: nat)
    requires i < |files|
    ensures RetainedBytes(files, signings) == RetainedBytes(Emptied(files, i), signings)
      + if Counts(files, signings, i) then files[i].size else 0
  {
    RowWeighs(files, signings, i, |files|);
    CountsIsRetained(files, signings, i);
  }

  // ---------------------------------------------------------------- for ever

  lemma PinnedStays(files: seq<FileRow>, signings: seq<Signing>, files': seq<FileRow>, signings': seq<Signing>, i: nat)
    requires FilesGrow(files, files') && SigningsGrow(signings, signings') && Pinned(files, signings, i)
    ensures Pinned(files', signings', i)
  {
    var k :| 0 <= k < |signings| && (signings[k].preview == i || signings[k].resource == i
      || (signings[k].resource < |files| && files[signings[k].resource].original == Some(i)));
    assert signings'[k].resource == signings[k].resource && signings'[k].preview == signings[k].preview;
    if signings[k].resource < |files| {
      assert files'[signings[k].resource].original == files[signings[k].resource].original;
    }
  }

  /** Evidence once pinned by a signing, and the final PDF, keep their row and count with their size for ever. */
  lemma PinnedCountsForEver(env: Env, s: Sys, more: seq<Step>, i: nat)
    requires Reached(env, s) && i < |s.db.files|
    requires Pinned(s.db.files, s.db.signings, i) || s.db.files[i].purpose == FinalPdf
    ensures var f, later := s.db.files[i], Run(env, s, more).db;
      && i < |later.files| && later.files[i].sha == f.sha && later.files[i].key == f.key
      && RetainedBytes(later.files, later.signings)
        == RetainedBytes(Emptied(later.files, i), later.signings) + f.size
  {
    var later := Run(env, s, more).db;
    ReachedOk(env, s);
    RunGrows(env, s, more);
    assert later.files[i].size == s.db.files[i].size && later.files[i].purpose == s.db.files[i].purpose;
    if Pinned(s.db.files, s.db.signings, i) {
      PinnedStays(s.db.files, s.db.signings, later.files, later.signings, i);
    }
    EachRowCounts(later.files, later.signings, i);
  }

  // ---------------------------------------------------------------- what a step adds

  /** An accepted completion raises the sum by exactly the bytes it stored. */
  lemma CompletionAdds(env: Env, s: Sys, w: nat, h: Holder, bytes: Bytes, fileId: nat)
    requires Reached(env, s) && Delivers(env, s, w, h, bytes, fileId)
    ensures var after := CompleteStep(env, s, w, h, bytes, fileId);
      && env.sha(bytes) in after.contents && after.contents[env.sha(bytes)] == bytes
      && RetainedBytes(after.db.files, after.db.signings) == RetainedBytes(s.db.files, s.db.signings) + |bytes|
  {
    assert WorkersOk(env, s.db.tasks, s.first, s.contents, s.nextToken, s.workers)
      && PinsExist(s.db.files, s.db.signings) by {
      ReachedOk(env, s);
    }
    CompletedBytes(env, s, w, h, bytes);
    CompletionAddsRow(env, s, w, h, bytes, fileId);
  }

  lemma CompletedBytes(env: Env, s: Sys, w: nat, h: Holder, bytes: Bytes)
    requires WorkersOk(env, s.db.tasks, s.first, s.contents, s.nextToken, s.workers)
    requires w in s.workers && s.workers[w].pc == Completing(h, bytes)
    ensures env.sha(bytes) in s.contents && s.contents[env.sha(bytes)] == bytes
  {
    assert WorkerOk(env, s.db.tasks, s.first, s.contents, s.nextToken, s.workers[w]);
  }

  lemma CompletionAddsRow(env: Env, s: Sys, w: nat, h: Holder, bytes: Bytes, fileId: nat)
    requires PinsExist(s.db.files, s.db.signings) && Delivers(env, s, w, h, bytes, fileId)
    ensures var after := CompleteStep(env, s, w, h, bytes, fileId);
      && after.contents == s.contents
      && RetainedBytes(after.db.files, after.db.signings) == RetainedBytes(s.db.files, s.db.signings) + |bytes|
  {
    var c := CompletionOf(env, bytes, fileId);
    var t := s.db.tasks[s.workers[w].job.task];
    RetainedAdds(s.db.files, s.db.signings, FinalRow(c, s.db.signings[t.signatureVersion - 1].contentDigest));
  }
}
