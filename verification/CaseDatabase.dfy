/**
 The rows of one case as mutable tables, and the statements the services issue inside their transactions. A service
 method is one transaction: it either commits what its specification function says or leaves every row untouched.
 */
module CaseDatabase {
  import opened Common
  import opened CaseModel
  import opened CaseTransactions

  /** How a transaction ended, against the function that specifies it. */
  ghost predicate Commits(outcome: Result<Db>, before: Db, after: Db, refused: Option<Error>) {
    match outcome
    case Ok(committed) => after == committed && refused == None
    case Err(error) => after == before && refused == Some(error)
  }

  class CaseTables {
    var status: CaseStatus
    var reviewer: Option<string>
    var templatePublished: bool
    var drafts: seq<DraftRow>
    var files: seq<FileRow>
    var signings: seq<Signing>
    var reviews: map<string, Review>
    var links: seq<Link>
    var submissions: seq<nat>
    var history: seq<HistoryRow>
    var tasks: seq<PdfTask>
    var outbox: seq<OutboxRow>

    /** `CaseRepository.create`: the case, its frozen snapshot and its first history row. */
    constructor (assignee: Option<string>)
      ensures View() == Created(assignee)
    {
      status, reviewer, templatePublished := Draft, assignee, true;
      drafts, files, signings, reviews := [], [], [], map[];
      links, submissions, tasks, outbox := [], [], [], [];
      history := [HistoryRow(None, Draft)];
    }

    function View(): Db
      reads this
    {
      Db(status, reviewer, templatePublished, drafts, files, signings, reviews, links, submissions, history, tasks,
        outbox)
    }

    /** Status update and history row, always issued together. */
    method MoveTo(to: CaseStatus)
      modifies this`status, this`history
      ensures View() == Move(old(View()), to)
    {
      history := history + [HistoryRow(Some(status), to)];
      status := to;
    }

    /** `updateMany` on the links that are not disabled yet, one row at a time. */
    method DisableLinks()
      modifies this`links
      ensures links == DisableAll(old(links))
    {
      var i := 0;
      while i < |links|
        invariant 0 <= i <= |links| == |old(links)|
        invariant forall k | 0 <= k < i :: links[k] == old(links)[k].(disabled := true)
        invariant forall k | i <= k < |links| :: links[k] == old(links)[k]
      {
        if !links[i].disabled {
          links := links[i := links[i].(disabled := true)];
        }
        i := i + 1;
      }
    }

    method CompleteLinks()
      modifies this`links
      ensures links == CompleteAll(old(links))
    {
      var i := 0;
      while i < |links|
        invariant 0 <= i <= |links| == |old(links)|
        invariant forall k | 0 <= k < i :: links[k] == CompleteAll(old(links))[k]
        invariant forall k | i <= k < |links| :: links[k] == old(links)[k]
      {
        if !links[i].disabled && !links[i].completed {
          links := links[i := links[i].(disabled := true, completed := true)];
        }
        i := i + 1;
      }
    }

    method InvalidateSignings()
      modifies this`signings
      ensures signings == InvalidateAll(old(signings))
    {
      var i := 0;
      while i < |signings|
        invariant 0 <= i <= |signings| == |old(signings)|
        invariant forall k | 0 <= k < i :: signings[k] == old(signings)[k].(valid := false)
        invariant forall k | i <= k < |signings| :: signings[k] == old(signings)[k]
      {
        if signings[i].valid {
          signings := signings[i := signings[i].(valid := false)];
        }
        i := i + 1;
      }
    }

    /** Newest first, the third active preview and every older one is retired. */
    method RotatePreviews()
      modifies this`files
      ensures files == Rotate(old(files))
    {
      var i, newer := |files|, 0;
      ghost var was := files;
      while i > 0
        invariant 0 <= i <= |files| == |was| && newer == ActivePreviewsFrom(was, i)
        invariant forall k | i <= k < |files| :: files[k] == Rotate(was)[k]
        invariant forall k | 0 <= k < i :: files[k] == was[k]
      {
        i := i - 1;
        if IsActivePreview(files[i]) {
          if newer >= 2 {
            files := files[i := Tombstone(files[i])];
          }
          newer := newer + 1;
        }
      }
      assert files == Rotate(was);
    }

    /** The link a live token opens, found by scanning for the first unexpired, unused one. */
    method FindLive(now: nat) returns (found: Option<nat>)
      ensures found == FirstLive(links, now)
    {
      for i := 0 to |links|
        invariant FirstLive(links[..i], now) == None
      {
        assert links[..i + 1][..i] == links[..i];
        if Live(links[i], now) {
          FirstLiveStays(links, now, i + 1);
          return Some(i);
        }
      }
      assert links[..|links|] == links;
      return None;
    }

    method SetRows(rows: Db)
      modifies this
      ensures View() == rows
    {
      status, reviewer, templatePublished := rows.status, rows.reviewer, rows.templatePublished;
      drafts, files, signings, reviews := rows.drafts, rows.files, rows.signings, rows.reviews;
      links, submissions, history := rows.links, rows.submissions, rows.history;
      tasks, outbox := rows.tasks, rows.outbox;
    }

    /** A transaction that throws undoes its statements. */
    method RollBack(saved: Db)
      modifies this
      ensures View() == saved
    {
      SetRows(saved);
    }

    /** Between two transactions of one service other transactions commit. */
    method OthersCommit(committed: Db)
      modifies this
      ensures View() == committed
    {
      SetRows(committed);
    }
  }

  /** The first live link of a prefix is the first live link of the list. */
  lemma {:induction false} FirstLiveStays(links: seq<Link>, now: nat, n: nat)
    requires n <= |links| && FirstLive(links[..n], now).Some?
    ensures FirstLive(links, now) == FirstLive(links[..n], now)
    decreases |links| - n
  {
    if n < |links| {
      assert links[..n + 1][..n] == links[..n];
      FirstLiveStays(links, now, n + 1);
    } else {
      assert links[..n] == links;
    }
  }
}
