/** Facts about the file table: selection, the two reading orders, retained bytes and the preview cache. */
module FileFacts {
  import opened Common
  import opened CaseModel

  // ---------------------------------------------------------------- selection

  lemma {:induction false} SelectSame(files: seq<FileRow>, changed: seq<FileRow>, p: FileRow -> bool)
    requires |files| == |changed|
    requires forall i | 0 <= i < |files| :: p(files[i]) == p(changed[i]) && (p(files[i]) ==> files[i] == changed[i])
    ensures Select(files, p) == Select(changed, p)
  {
    if files != [] {
      SelectSame(files[..|files| - 1], changed[..|files| - 1], p);
    }
  }

  lemma SelectAppend(files: seq<FileRow>, f: FileRow, p: FileRow -> bool)
    ensures Select(files + [f], p) == Select(files, p) + (if p(f) then [f] else [])
  {
    assert (files + [f])[..|files|] == files;
  }

  ghost predicate Ordered(files: seq<FileRow>) {
    forall i, j | 0 <= i < j < |files| :: files[i].fileId <= files[j].fileId
  }

  lemma {:induction false} InsertOrdered(f: FileRow, sorted: seq<FileRow>)
    requires Ordered(sorted)
    ensures Ordered(Insert(f, sorted))
    ensures forall g :: g in Insert(f, sorted) <==> g == f || g in sorted
  {
    if sorted != [] && f.fileId < sorted[|sorted| - 1].fileId {
      var front, last := sorted[..|sorted| - 1], sorted[|sorted| - 1];
      InsertOrdered(f, front);
      assert sorted == front + [last];
      var r := Insert(f, front);
      assert forall i | 0 <= i < |r| :: r[i] in r;
    }
  }

  lemma {:induction false} SortOrdered(files: seq<FileRow>)
    ensures Ordered(ByFileId(files))
  {
    if files != [] {
      SortOrdered(files[..|files| - 1]);
      InsertOrdered(files[|files| - 1], ByFileId(files[..|files| - 1]));
    }
  }

  /** A row with a smaller id than the last goes in before it. */
  lemma InsertBefore(f: FileRow, front: seq<FileRow>, last: FileRow)
    requires f.fileId < last.fileId
    ensures Insert(f, front + [last]) == Insert(f, front) + [last]
  {
    var sorted := front + [last];
    assert sorted[..|sorted| - 1] == front;
  }

  lemma InsertLast(f: FileRow, sorted: seq<FileRow>)
    requires forall g | g in sorted :: g.fileId <= f.fileId
    ensures Insert(f, sorted) == sorted + [f]
  {
    if sorted != [] {
      assert sorted[|sorted| - 1] in sorted;
    }
  }

  lemma SelectInsertLast(f: FileRow, sorted: seq<FileRow>, p: FileRow -> bool)
    requires forall g | g in sorted :: g.fileId <= f.fileId
    ensures Select(Insert(f, sorted), p) == if p(f) then Insert(f, Select(sorted, p)) else Select(sorted, p)
  {
    var kept := Select(sorted, p);
    InsertLast(f, sorted);
    SelectAppend(sorted, f, p);
    SelectBounded(sorted, p, f.fileId);
    InsertLast(f, kept);
    assert kept + [] == kept;
  }

  /** Appending a larger row to a list commutes with inserting a smaller one, whether or not the row is kept. */
  lemma InsertBeforeKept(f: FileRow, kept: seq<FileRow>, last: seq<FileRow>)
    requires |last| <= 1 && forall g | g in last :: f.fileId < g.fileId
    ensures Insert(f, kept + last) == Insert(f, kept) + last
  {
    if last == [] {
      assert kept + last == kept && Insert(f, kept) + last == Insert(f, kept);
    } else {
      InsertBefore(f, kept, last[0]);
      assert last == [last[0]];
    }
  }

  lemma SelectInsertBefore(f: FileRow, front: seq<FileRow>, last: FileRow, p: FileRow -> bool)
    requires f.fileId < last.fileId
    requires Select(Insert(f, front), p) == if p(f) then Insert(f, Select(front, p)) else Select(front, p)
    ensures Select(Insert(f, front + [last]), p)
      == if p(f) then Insert(f, Select(front + [last], p)) else Select(front + [last], p)
  {
    var end := if p(last) then [last] else [];
    calc {
      Select(Insert(f, front + [last]), p);
      { InsertBefore(f, front, last); }
      Select(Insert(f, front) + [last], p);
      { SelectAppend(Insert(f, front), last, p); }
      Select(Insert(f, front), p) + end;
      (if p(f) then Insert(f, Select(front, p)) else Select(front, p)) + end;
      { InsertBeforeKept(f, Select(front, p), end); }
      if p(f) then Insert(f, Select(front, p) + end) else Select(front, p) + end;
      { SelectAppend(front, last, p); }
      if p(f) then Insert(f, Select(front + [last], p)) else Select(front + [last], p);
    }
  }

  lemma OrderedEnds(front: seq<FileRow>, last: FileRow)
    requires Ordered(front + [last])
    ensures Ordered(front) && forall g | g in front + [last] :: g.fileId <= last.fileId
  {
    var sorted := front + [last];
    assert forall i | 0 <= i < |front| :: sorted[i] == front[i];
    assert sorted[|front|] == last;
  }

  lemma {:induction false} SelectInsert(f: FileRow, sorted: seq<FileRow>, p: FileRow -> bool)
    requires Ordered(sorted)
    ensures Select(Insert(f, sorted), p) == if p(f) then Insert(f, Select(sorted, p)) else Select(sorted, p)
  {
    if sorted == [] {
      SelectInsertLast(f, sorted, p);
    } else {
      var front, last := sorted[..|sorted| - 1], sorted[|sorted| - 1];
      assert front + [last] == sorted;
      OrderedEnds(front, last);
      if last.fileId <= f.fileId {
        SelectInsertLast(f, sorted, p);
      } else {
        SelectInsert(f, front, p);
        SelectInsertBefore(f, front, last, p);
      }
    }
  }

  lemma {:induction false} SelectBounded(files: seq<FileRow>, p: FileRow -> bool, bound: nat)
    requires forall f | f in files :: f.fileId <= bound
    ensures forall f | f in Select(files, p) :: f.fileId <= bound
  {
    if files != [] {
      SelectBounded(files[..|files| - 1], p, bound);
    }
  }

  lemma SortAppend(files: seq<FileRow>, f: FileRow)
    ensures ByFileId(files + [f]) == Insert(f, ByFileId(files))
  {
    var more := files + [f];
    assert more[..|more| - 1] == files;
  }

  lemma SelectLast(files: seq<FileRow>, p: FileRow -> bool)
    requires files != []
    ensures var front, last := files[..|files| - 1], files[|files| - 1];
      Select(files, p) == if p(last) then Select(front, p) + [last] else Select(front, p)
  {
  }

  /** Filtering the ordered table and ordering the filtered table give the same list. */
  lemma {:induction false} SelectCommutesWithOrder(files: seq<FileRow>, p: FileRow -> bool)
    ensures Select(ByFileId(files), p) == ByFileId(Select(files, p))
  {
    if files != [] {
      var front, last := files[..|files| - 1], files[|files| - 1];
      SelectCommutesWithOrder(front, p);
      var sorted, kept := ByFileId(front), Select(front, p);
      SelectLast(files, p);
      assert Ordered(sorted) by { SortOrdered(front); }
      calc {
        Select(ByFileId(files), p);
        Select(Insert(last, sorted), p);
        { SelectInsert(last, sorted, p); }
        if p(last) then Insert(last, ByFileId(kept)) else ByFileId(kept);
        { SortAppend(kept, last); }
        if p(last) then ByFileId(kept + [last]) else ByFileId(kept);
        ByFileId(Select(files, p));
      }
    }
  }

  /** The API's and the worker's reading of the materials agree. */
  lemma ReadersAgree(files: seq<FileRow>)
    ensures ApiFiles(files) == WorkerFiles(files)
  {
    SelectCommutesWithOrder(files, IsActiveMaterial);
  }

  lemma DigestsAgree(env: Env, draft: DraftRow, files: seq<FileRow>)
    ensures ApiDigest(env, draft, files) == WorkerDigest(env, draft, files)
  {
    ReadersAgree(files);
  }

  /** Only the active materials matter to the content. */
  ghost predicate SameMaterials(files: seq<FileRow>, changed: seq<FileRow>) {
    Select(files, IsActiveMaterial) == Select(changed, IsActiveMaterial)
  }

  lemma AppendKeepsMaterials(files: seq<FileRow>, f: FileRow)
    requires !IsActiveMaterial(f)
    ensures SameMaterials(files, files + [f])
  {
    SelectAppend(files, f, IsActiveMaterial);
  }

  lemma PointwiseKeepsMaterials(files: seq<FileRow>, changed: seq<FileRow>)
    requires |files| == |changed|
    requires forall i | 0 <= i < |files| ::
      files[i] == changed[i] || (!IsActiveMaterial(files[i]) && !IsActiveMaterial(changed[i]))
    ensures SameMaterials(files, changed)
  {
    SelectSame(files, changed, IsActiveMaterial);
  }

  // ---------------------------------------------------------------- retained bytes

  lemma {:induction false} RetainedMonotone(
    files: seq<FileRow>, signings: seq<Signing>, files': seq<FileRow>, signings': seq<Signing>, n: nat)
    requires n <= |files| && n <= |files'|
    requires forall i | 0 <= i < n :: files'[i].size == files[i].size
    requires forall i | 0 <= i < n :: Retained(files', signings', i) ==> Retained(files, signings, i)
    ensures RetainedUpTo(files', signings', n) <= RetainedUpTo(files, signings, n)
  {
    if n != 0 {
      RetainedMonotone(files, signings, files', signings', n - 1);
    }
  }

  /** Signings refer to rows that exist, so a new row is retained for itself only. */
  ghost predicate RefersBelow(signings: seq<Signing>, n: nat) {
    forall k | 0 <= k < |signings| :: signings[k].resource < n && signings[k].preview < n
  }

  lemma RetainedAppend(files: seq<FileRow>, signings: seq<Signing>, f: FileRow)
    requires RefersBelow(signings, |files|)
    ensures RetainedBytes(files + [f], signings) <= RetainedBytes(files, signings) + f.size
  {
    var more := files + [f];
    forall i | 0 <= i < |files| && Retained(more, signings, i)
      ensures Retained(files, signings, i)
    {
      assert more[i] == files[i];
      if exists j | 0 <= j < |more| :: more[j].original == Some(i) && exists k | 0 <= k < |signings| ::
        signings[k].resource == j {
        var j :| 0 <= j < |more| && more[j].original == Some(i) && exists k | 0 <= k < |signings| ::
          signings[k].resource == j;
        assert j < |files|;
        assert files[j].original == Some(i);
      }
    }
    RetainedMonotone(files, signings, more, signings, |files|);
  }

  /** An active row adds exactly its size. */
  lemma RetainedAdds(files: seq<FileRow>, signings: seq<Signing>, f: FileRow)
    requires RefersBelow(signings, |files|) && !f.removed
    ensures RetainedBytes(files + [f], signings) == RetainedBytes(files, signings) + f.size
  {
    var more := files + [f];
    RetainedAppend(files, signings, f);
    forall i | 0 <= i < |files| && Retained(files, signings, i)
      ensures Retained(more, signings, i)
    {
      assert more[i] == files[i];
      if j :| 0 <= j < |files| && files[j].original == Some(i) && exists k | 0 <= k < |signings| ::
        signings[k].resource == j
      {
        assert more[j].original == Some(i);
      }
    }
    RetainedMonotone(more, signings, files, signings, |files|);
  }

  /** Tombstoning rows and dropping validity never raise the retained sum. */
  lemma RetainedShrinks(files: seq<FileRow>, signings: seq<Signing>, files': seq<FileRow>, signings': seq<Signing>)
    requires |files'| == |files| && |signings'| == |signings|
    requires forall i | 0 <= i < |files| ::
      files'[i] == files[i].(removed := files'[i].removed, cacheActive := files'[i].cacheActive)
                                         && (files[i].removed ==> files'[i].removed)
    requires forall k | 0 <= k < |signings| ::
      signings'[k].resource == signings[k].resource && signings'[k].preview == signings[k].preview
    ensures RetainedBytes(files', signings') <= RetainedBytes(files, signings)
  {
    forall i | 0 <= i < |files| && Retained(files', signings', i)
      ensures Retained(files, signings, i)
    {
      if exists j | 0 <= j < |files'| :: files'[j].original == Some(i) && exists k | 0 <= k < |signings'| ::
        signings'[k].resource == j {
        var j :| 0 <= j < |files'| && files'[j].original == Some(i) && exists k | 0 <= k < |signings'| ::
          signings'[k].resource == j;
        var k :| 0 <= k < |signings'| && signings'[k].resource == j;
        assert files[j].original == Some(i) && signings[k].resource == j;
      }
      if exists k | 0 <= k < |signings'| :: signings'[k].resource == i {
        var k :| 0 <= k < |signings'| && signings'[k].resource == i;
        assert signings[k].resource == i;
      }
      if exists k | 0 <= k < |signings'| :: signings'[k].preview == i {
        var k :| 0 <= k < |signings'| && signings'[k].preview == i;
        assert signings[k].preview == i;
      }
    }
    RetainedMonotone(files, signings, files', signings', |files|);
  }

  /** A signing whose pins are all active adds nothing to the retained set. */
  lemma RetainedBySigning(files: seq<FileRow>, signings: seq<Signing>, s: Signing)
    requires s.resource < |files| && s.preview < |files|
    requires !files[s.resource].removed && !files[s.preview].removed
    requires files[s.resource].original.Some? ==>
      files[s.resource].original.value < |files| && !files[files[s.resource].original.value].removed
    ensures RetainedBytes(files, InvalidateAll(signings) + [s]) <= RetainedBytes(files, signings)
  {
    var more := InvalidateAll(signings) + [s];
    forall i | 0 <= i < |files| && Retained(files, more, i)
      ensures Retained(files, signings, i)
    {
      if files[i].removed && files[i].purpose != FinalPdf {
        if exists k | 0 <= k < |more| :: more[k].preview == i {
          var k :| 0 <= k < |more| && more[k].preview == i;
          assert k < |signings| && signings[k].preview == i;
        } else if exists k | 0 <= k < |more| :: more[k].resource == i {
          var k :| 0 <= k < |more| && more[k].resource == i;
          assert k < |signings| && signings[k].resource == i;
        } else {
          var j :| 0 <= j < |files| && files[j].original == Some(i) && exists k | 0 <= k < |more| ::
            more[k].resource == j;
          var k :| 0 <= k < |more| && more[k].resource == j;
          assert k < |signings| && signings[k].resource == j;
        }
      }
    }
    RetainedMonotone(files, signings, files, more, |files|);
  }

  // ---------------------------------------------------------------- preview cache

  lemma {:induction false} ActivePreviewsAppend(files: seq<FileRow>, f: FileRow, from: nat)
    requires from <= |files|
    ensures ActivePreviewsFrom(files + [f], from)
      == ActivePreviewsFrom(files, from) + if IsActivePreview(f) then 1 else 0
    decreases |files| - from
  {
    if from < |files| {
      ActivePreviewsAppend(files, f, from + 1);
    } else {
      assert ActivePreviewsFrom(files + [f], |files| + 1) == 0;
    }
  }

  lemma {:induction false} ActivePreviewsMonotone(files: seq<FileRow>, changed: seq<FileRow>, from: nat)
    requires from <= |files| == |changed|
    requires forall i | from <= i < |files| :: IsActivePreview(changed[i]) ==> IsActivePreview(files[i])
    ensures ActivePreviewsFrom(changed, from) <= ActivePreviewsFrom(files, from)
    decreases |files| - from
  {
    if from < |files| {
      ActivePreviewsMonotone(files, changed, from + 1);
    }
  }

  /** Rotation leaves exactly the two newest active previews, or fewer when there were fewer. */
  lemma {:induction false} RotationKeepsTwo(files: seq<FileRow>, from: nat)
    requires from <= |files|
    ensures ActivePreviewsFrom(Rotate(files), from)
         == if ActivePreviewsFrom(files, from) < 2 then ActivePreviewsFrom(files, from) else 2
    decreases |files| - from
  {
    if from < |files| {
      RotationKeepsTwo(files, from + 1);
    }
  }
}
