/**
 * The paged repository list (client/src/components/RepositoryList.tsx):
 * pages fetched one after another are merged into one list by repository
 * id; a search of two or more characters replaces the list; changing the
 * language or the sort order starts again from page one.
 *
 * The fetched page is an input (`Page`); the fetching hooks and the
 * rendering are not modelled.
 */
module RepositoryList {
  import opened Wrappers
  import opened Text
  import opened Seqs

  /** A repository of a result page; the list only reads its `id`. */
  datatype Repository = Repository(id: int, fullName: string)

  /** A result page: `data.items` and `data.total_count`, each possibly absent. */
  datatype Page = Page(items: Option<seq<Repository>>, totalCount: Option<int>)

  const PerPage: nat := 20

  function IdsOf(s: seq<Repository>): set<int> {
    set i | 0 <= i < |s| :: s[i].id
  }

  function NotIn(ids: set<int>): Repository -> bool {
    (r: Repository) => r.id !in ids
  }

  /** The list after merging `fetched` into `prev`: the fetched items whose id was not listed before are appended. */
  function Merged(prev: seq<Repository>, fetched: seq<Repository>): seq<Repository> {
    prev + Filter(fetched, NotIn(IdsOf(prev)))
  }

  /** The `setItems` updater of the page-merging effect: copy `prev`, then push each new item in fetch order. */
  method MergePage(prev: seq<Repository>, fetched: seq<Repository>) returns (merged: seq<Repository>)
    ensures merged == Merged(prev, fetched)
  {
    var prevIds := set i | 0 <= i < |prev| :: prev[i].id;
    assert prevIds == IdsOf(prev);
    merged := prev;
    var k := 0;
    while k < |fetched|
      invariant 0 <= k <= |fetched|
      invariant merged == prev + Filter(fetched[..k], NotIn(prevIds))
    {
      FilterPrefixStep(fetched, k, NotIn(prevIds));
      if fetched[k].id !in prevIds {
        merged := merged + [fetched[k]];
      }
      k := k + 1;
    }
    assert fetched[..k] == fetched;
  }

  /** `isSearchMode`: the trimmed search text has at least two characters. */
  predicate IsSearchMode(searchQuery: string) {
    |Trim(searchQuery)| >= 2
  }

  /** `data?.total_count ?? 0` */
  function TotalCount(data: Option<Page>): int {
    if data.Some? && data.value.totalCount.Some? then data.value.totalCount.value else 0
  }

  /** `canLoadMore` */
  predicate CanLoadMore(itemCount: nat, data: Option<Page>, isLoading: bool, hasError: bool) {
    itemCount < TotalCount(data) && !isLoading && !hasError
  }

  // ---------------------------------------------------------------------
  // Properties of the merge

  /** The previous items stay, unchanged, at the front. */
  lemma MergeKeepsPrefix(prev: seq<Repository>, fetched: seq<Repository>)
    ensures |Merged(prev, fetched)| >= |prev| && Merged(prev, fetched)[..|prev|] == prev
  {
  }

  /**
   * The appended items are the fetched items whose id is not among the
   * previous ones, in fetch order; every such item is appended.
   */
  lemma MergeAppendsNewIds(prev: seq<Repository>, fetched: seq<Repository>)
    ensures var added := Merged(prev, fetched)[|prev|..];
      IsSubsequence(added, fetched)
      && (forall k :: 0 <= k < |added| ==> forall i :: 0 <= i < |prev| ==> added[k].id != prev[i].id)
      && (forall x :: x in fetched && (forall i :: 0 <= i < |prev| ==> x.id != prev[i].id) ==> x in added)
  {
    var added := Merged(prev, fetched)[|prev|..];
    assert added == Filter(fetched, NotIn(IdsOf(prev)));
    FilterIsSubsequence(fetched, NotIn(IdsOf(prev)));
    forall x | x in fetched && (forall i :: 0 <= i < |prev| ==> x.id != prev[i].id)
      ensures x in added
    {
      assert x.id !in IdsOf(prev);
    }
  }

  /** Items fetched a second time are not listed twice. */
  lemma MergeSamePageTwice(prev: seq<Repository>, fetched: seq<Repository>)
    ensures Merged(Merged(prev, fetched), fetched) == Merged(prev, fetched)
  {
    var once := Merged(prev, fetched);
    forall x | x in fetched
      ensures x.id in IdsOf(once)
    {
      var k :| 0 <= k < |fetched| && fetched[k] == x;
      if x.id !in IdsOf(prev) {
        assert x in Filter(fetched, NotIn(IdsOf(prev)));
        var j :| 0 <= j < |Filter(fetched, NotIn(IdsOf(prev)))| && Filter(fetched, NotIn(IdsOf(prev)))[j] == x;
        assert once[|prev| + j] == x;
      } else {
        var i :| 0 <= i < |prev| && prev[i].id == x.id;
        assert once[i] == prev[i];
      }
    }
    NoneKept(fetched, NotIn(IdsOf(once)));
  }

  lemma {:induction false} NoneKept(s: seq<Repository>, p: Repository -> bool)
    requires forall x :: x in s ==> !p(x)
    ensures Filter(s, p) == []
    decreases |s|
  {
    if s != [] {
      NoneKept(s[1..], p);
    }
  }

  /** Duplicates inside one fetched page are not removed. */
  lemma DuplicatesInOnePageKept(r: Repository)
    ensures Merged([], [r, r]) == [r, r]
  {
    assert [r, r][1..] == [r];
  }

  /** Search mode needs at least two characters once trimmed: one is not enough, blank text never is. */
  lemma SearchModeBoundary(c: char, d: char)
    requires !IsWhitespace(c) && !IsWhitespace(d)
    ensures !IsSearchMode([c]) && IsSearchMode([c, d]) && !IsSearchMode("  ")
  {
    assert TrimStart([c, d]) == [c, d];
    assert TrimEnd([c, d]) == [c, d];
    assert IsWhitespace(' ');
    assert Trim("  ") == [];
  }

  /** Without a reported total (no page yet, or no `total_count`) nothing more can be loaded. */
  lemma CanLoadMoreNeedsTotal(itemCount: nat, data: Option<Page>, isLoading: bool, hasError: bool)
    ensures CanLoadMore(itemCount, data, isLoading, hasError) ==> data.Some? && data.value.totalCount.Some?
    ensures data == None ==> !CanLoadMore(itemCount, data, isLoading, hasError)
  {
  }

  // ---------------------------------------------------------------------
  // The component's state

  class ListState {
    var language: string
    var sort: string
    var page: int
    var items: seq<Repository>

    /** The first render: page one, sorted by stars, nothing listed. */
    constructor(language: string)
      ensures this.language == language && sort == "stars" && page == 1 && items == []
    {
      this.language := language;
      sort := "stars";
      page := 1;
      items := [];
    }

    /** A new `language` prop or sort choice; the reset effect runs when either differs. */
    method SetView(newLanguage: string, newSort: string)
      modifies this
      ensures language == newLanguage && sort == newSort
      ensures if newLanguage != old(language) || newSort != old(sort)
        then page == 1 && items == []
        else page == old(page) && items == old(items)
    {
      if newLanguage != language || newSort != sort {
        page := 1;
        items := [];
      }
      language := newLanguage;
      sort := newSort;
    }

    /** "Load More": the next page. */
    method LoadMore()
      modifies this
      ensures page == old(page) + 1
      ensures items == old(items) && language == old(language) && sort == old(sort)
    {
      page := page + 1;
    }

    /** The merge effect on new `data`: a page with items is merged in, anything else changes nothing. */
    method Receive(data: Option<Page>)
      modifies this
      ensures items == if data.Some? && data.value.items.Some? then Merged(old(items), data.value.items.value) else old(items)
      ensures page == old(page) && language == old(language) && sort == old(sort)
    {
      if data.Some? && data.value.items.Some? {
        items := MergePage(items, data.value.items.value);
      }
    }
  }
}
