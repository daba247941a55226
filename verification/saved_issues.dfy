/**
 * The bookmarked issues (client/src/hooks/useSavedIssues.ts): a list of
 * issues, unique by id, in the order they were saved, each stamped with
 * the instant it was saved.
 *
 * `Saved` and `Removed` are the updaters the hook hands to
 * `setSavedIssues`; the hook's state is the object `SavedList`. The clock
 * is the parameter `now`; persistence in `localStorage` is not modelled.
 */
module SavedIssues {
  import opened Seqs

  /** The issue fields a bookmark keeps (`Omit<SavedIssue, 'savedAt'>`). */
  datatype IssueRef = IssueRef(
    id: int,
    htmlUrl: string,
    title: string,
    repositoryUrl: string,
    number: int,
    createdAt: string
  )

  datatype SavedIssue = SavedIssue(issue: IssueRef, savedAt: int)

  function IdOf(s: SavedIssue): int { s.issue.id }

  /** `list.some(item => item.id === id)` */
  predicate IsSavedIn(list: seq<SavedIssue>, id: int) {
    exists i :: 0 <= i < |list| && list[i].issue.id == id
  }

  /** The test `removeIssue` filters with. */
  function Other(id: int): SavedIssue -> bool {
    (s: SavedIssue) => s.issue.id != id
  }

  /** The state after `saveIssue(issue)` at `now`. */
  function Saved(prev: seq<SavedIssue>, issue: IssueRef, now: int): seq<SavedIssue> {
    if IsSavedIn(prev, issue.id) then prev else prev + [SavedIssue(issue, now)]
  }

  /** The state after `removeIssue(id)`. */
  function Removed(prev: seq<SavedIssue>, id: int): seq<SavedIssue> {
    Filter(prev, Other(id))
  }

  // ---------------------------------------------------------------------
  // Properties

  /** Saving an id already present changes nothing, not even its `savedAt`. */
  lemma SaveTwiceKeepsFirst(prev: seq<SavedIssue>, issue: IssueRef, now: int)
    requires IsSavedIn(prev, issue.id)
    ensures Saved(prev, issue, now) == prev
  {
  }

  /** Saving a new id appends it, stamped with `now`, after the earlier entries. */
  lemma SaveAppends(prev: seq<SavedIssue>, issue: IssueRef, now: int)
    requires !IsSavedIn(prev, issue.id)
    ensures var r := Saved(prev, issue, now);
      |r| == |prev| + 1 && r[..|prev|] == prev && r[|prev|] == SavedIssue(issue, now)
  {
  }

  /** Saving keeps the ids unique. */
  lemma SaveKeepsIdsUnique(prev: seq<SavedIssue>, issue: IssueRef, now: int)
    requires DistinctBy(prev, IdOf)
    ensures DistinctBy(Saved(prev, issue, now), IdOf)
  {
    if !IsSavedIn(prev, issue.id) {
      var r := Saved(prev, issue, now);
      forall i, j | 0 <= i < j < |r|
        ensures IdOf(r[i]) != IdOf(r[j])
      {
        if j == |prev| {
          assert r[i] == prev[i];
        } else {
          assert r[i] == prev[i] && r[j] == prev[j];
        }
      }
    }
  }

  /** Removing keeps the ids unique. */
  lemma RemoveKeepsIdsUnique(prev: seq<SavedIssue>, id: int)
    requires DistinctBy(prev, IdOf)
    ensures DistinctBy(Removed(prev, id), IdOf)
  {
    FilterDistinctBy(prev, Other(id), IdOf);
  }

  /** After a save the id is saved, and every id saved before still is. */
  lemma IsSavedAfterSave(prev: seq<SavedIssue>, issue: IssueRef, now: int, id: int)
    ensures IsSavedIn(Saved(prev, issue, now), id) <==> id == issue.id || IsSavedIn(prev, id)
  {
    var r := Saved(prev, issue, now);
    if !IsSavedIn(prev, issue.id) {
      if IsSavedIn(prev, id) {
        var i :| 0 <= i < |prev| && prev[i].issue.id == id;
        assert r[i] == prev[i];
      }
      if id == issue.id {
        assert r[|prev|].issue.id == id;
      }
      if IsSavedIn(r, id) {
        var i :| 0 <= i < |r| && r[i].issue.id == id;
        if i < |prev| {
          assert prev[i] == r[i];
        }
      }
    }
  }

  /** After a remove that id is not saved, and every other id is saved exactly when it was before. */
  lemma IsSavedAfterRemove(prev: seq<SavedIssue>, removed: int, id: int)
    ensures IsSavedIn(Removed(prev, removed), id) <==> id != removed && IsSavedIn(prev, id)
  {
    var r := Removed(prev, removed);
    if IsSavedIn(r, id) {
      var i :| 0 <= i < |r| && r[i].issue.id == id;
      assert r[i] in prev;
      var j :| 0 <= j < |prev| && prev[j] == r[i];
    }
    if id != removed && IsSavedIn(prev, id) {
      var j :| 0 <= j < |prev| && prev[j].issue.id == id;
      assert prev[j] in r;
      var i :| 0 <= i < |r| && r[i] == prev[j];
    }
  }

  /** Removing keeps the other entries, unchanged and in their order. */
  lemma RemoveKeepsOrder(prev: seq<SavedIssue>, id: int)
    ensures IsSubsequence(Removed(prev, id), prev)
    ensures forall x :: x in prev && x.issue.id != id ==> x in Removed(prev, id)
  {
    FilterIsSubsequence(prev, Other(id));
  }

  // ---------------------------------------------------------------------
  // The hook's state

  class SavedList {
    var savedIssues: seq<SavedIssue>

    ghost predicate Valid()
      reads this
    {
      DistinctBy(savedIssues, IdOf)
    }

    constructor()
      ensures Valid() && savedIssues == []
    {
      savedIssues := [];
    }

    /** `saveIssue(issue)` at the instant `now`. */
    method SaveIssue(issue: IssueRef, now: int)
      requires Valid()
      modifies this
      ensures Valid()
      ensures savedIssues == Saved(old(savedIssues), issue, now)
    {
      SaveKeepsIdsUnique(savedIssues, issue, now);
      if IsSavedIn(savedIssues, issue.id) {
        return;
      }
      savedIssues := savedIssues + [SavedIssue(issue, now)];
    }

    /** `removeIssue(issueId)` */
    method RemoveIssue(issueId: int)
      requires Valid()
      modifies this
      ensures Valid()
      ensures savedIssues == Removed(old(savedIssues), issueId)
    {
      RemoveKeepsIdsUnique(savedIssues, issueId);
      savedIssues := Filter(savedIssues, Other(issueId));
    }

    /** `isSaved(issueId)` */
    method IsSaved(issueId: int) returns (found: bool)
      ensures found == IsSavedIn(savedIssues, issueId)
    {
      found := IsSavedIn(savedIssues, issueId);
    }

    /** `clearAll()` */
    method ClearAll()
      modifies this
      ensures Valid() && savedIssues == []
    {
      savedIssues := [];
    }
  }
}
