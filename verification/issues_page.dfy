/**
 * The filter selection of the issues page (client/src/pages/IssuesPage.tsx):
 * the label and category toggles, and the query the page searches with.
 *
 * A selection the page keeps as `null` is `""` here, as in `QueryBuilder`.
 */
module IssuesPage {
  import opened Text
  import opened Seqs
  import opened Calendar
  import opened QueryBuilder

  /** The test `filter` uses to drop `x`. */
  function Not(x: string): string -> bool {
    (y: string) => y != x
  }

  /** The updater of `toggleLabel(label)`. */
  function ToggleLabel(prev: seq<string>, name: string): seq<string> {
    if name in prev then Filter(prev, Not(name)) else prev + [name]
  }

  /** The updater of `toggleCategory(category)`. */
  function ToggleCategory(prev: seq<string>, category: string): seq<string> {
    if category == "all" then (if "all" in prev then [] else ["all"])
    else if category in prev then Filter(prev, Not(category))
    else Filter(prev, Not("all")) + [category]
  }

  /** The page's filter state, apart from the natural-language choice, which only filters results. */
  datatype Selection = Selection(
    selectedLabels: seq<string>,
    selectedCategories: seq<string>,
    selectedLanguage: string,
    selectedDifficulty: string,
    selectedType: string,
    selectedFramework: string,
    selectedLastActivity: string
  )

  const Initial: Selection := Selection([], [], "", "", "", "", "")

  /** The parameters the page hands to `buildGitHubQuery`; it never chooses a licence. */
  function PageParams(submittedSearch: string, s: Selection): (p: QueryParams)
    ensures p.selectedLicense == ""
    ensures p.searchTerm == submittedSearch && p.selectedLabels == s.selectedLabels
    ensures p.selectedCategories == s.selectedCategories && p.selectedDifficulty == s.selectedDifficulty
  {
    QueryParams(submittedSearch, s.selectedLabels, s.selectedCategories, s.selectedLanguage, "",
                s.selectedDifficulty, s.selectedType, s.selectedFramework, s.selectedLastActivity)
  }

  /** The memoised `query` on day `today`. */
  function PageQuery(submittedSearch: string, s: Selection, today: Date): string
    requires Valid(today)
  {
    QueryString(PageParams(submittedSearch, s), today)
  }

  // ---------------------------------------------------------------------
  // Properties of the toggles

  /** Toggling a present label removes every copy of it and keeps the rest in order. */
  lemma ToggleLabelRemoves(prev: seq<string>, name: string)
    requires name in prev
    ensures name !in ToggleLabel(prev, name)
    ensures IsSubsequence(ToggleLabel(prev, name), prev)
    ensures forall x :: x in prev && x != name ==> x in ToggleLabel(prev, name)
  {
    FilterIsSubsequence(prev, Not(name));
  }

  /** Toggling an absent label appends it. */
  lemma ToggleLabelAppends(prev: seq<string>, name: string)
    requires name !in prev
    ensures ToggleLabel(prev, name) == prev + [name]
  {
  }

  /** Toggling an absent label twice restores the list. */
  lemma ToggleLabelTwice(prev: seq<string>, name: string)
    requires name !in prev
    ensures ToggleLabel(ToggleLabel(prev, name), name) == prev
  {
    assert name in prev + [name];
    FilterAppend(prev, [name], Not(name));
    FilterAll(prev, Not(name));
    assert Filter([name], Not(name)) == [];
  }

  /** The `all` toggle switches between `[]` and `['all']`. */
  lemma ToggleAll(prev: seq<string>)
    ensures ToggleCategory(prev, "all") == if "all" in prev then [] else ["all"]
  {
  }

  /** `all` never shares the list with another category: the toggles start from `[]` and keep this. */
  predicate AllAlone(cs: seq<string>) {
    "all" in cs ==> cs == ["all"]
  }

  lemma ToggleCategoryKeepsAllAlone(prev: seq<string>, category: string)
    requires AllAlone(prev)
    ensures AllAlone(ToggleCategory(prev, category))
  {
  }

  /**
   * From a reachable list, toggling any category other than `all` leaves
   * `all` out; the category is present afterwards exactly when it was
   * absent before.
   */
  lemma ToggleOtherCategory(prev: seq<string>, category: string)
    requires AllAlone(prev) && category != "all"
    ensures "all" !in ToggleCategory(prev, category)
    ensures category in ToggleCategory(prev, category) <==> category !in prev
  {
  }

  /** A present category other than `all` is removed, with every copy of it. */
  lemma TogglePresentCategory(prev: seq<string>, category: string)
    requires category != "all" && category in prev
    ensures ToggleCategory(prev, category) == Filter(prev, Not(category))
    ensures category !in ToggleCategory(prev, category)
  {
  }

  /** Toggling an absent category removes `all`, keeps the others in order and appends it. */
  lemma ToggleCategoryAppends(prev: seq<string>, category: string)
    requires category != "all" && category !in prev
    ensures var r := ToggleCategory(prev, category);
      r[|r| - 1] == category && IsSubsequence(r[..|r| - 1], prev)
      && forall x :: x in prev && x != "all" ==> x in r
  {
    var r := ToggleCategory(prev, category);
    assert r[..|r| - 1] == Filter(prev, Not("all"));
    FilterIsSubsequence(prev, Not("all"));
  }

  // ---------------------------------------------------------------------
  // Properties of the query

  /** A page with nothing chosen searches for the default "good first issue OR help wanted" group. */
  lemma InitialPageQuery(today: Date)
    requires Valid(today)
    ensures PageQuery("", Initial, today) == BasePrefix + DefaultDateQualifier(today) + " " + FallbackGroup
  {
    FallbackExactlyWithoutFilters(PageParams("", Initial), today);
  }

  /** The page never sets a licence, so the default group is appended exactly when nothing is chosen. */
  lemma PageFallbackIff(submittedSearch: string, s: Selection, today: Date)
    requires Valid(today)
    ensures !HasAnyFilter(PageParams(submittedSearch, s)) ==>
      PageQuery(submittedSearch, s, today) == BasePrefix + DefaultDateQualifier(today) + " " + FallbackGroup
    ensures HasAnyFilter(PageParams(submittedSearch, s)) ==>
      PageQuery(submittedSearch, s, today) == Join(QueryParts(PageParams(submittedSearch, s), today), " ")
  {
    FallbackExactlyWithoutFilters(PageParams(submittedSearch, s), today);
  }

  /** Selecting "all" alone is the same as selecting no category (unless the type is itself named "all"). */
  lemma AllCategoryIsNoCategory(submittedSearch: string, s: Selection, today: Date)
    requires Valid(today) && s.selectedCategories == ["all"] && s.selectedType != "all"
    ensures PageQuery(submittedSearch, s, today) == PageQuery(submittedSearch, s.(selectedCategories := []), today)
  {
    var p := PageParams(submittedSearch, s);
    var q := PageParams(submittedSearch, s.(selectedCategories := []));
    assert CategoryParts(p) == [] == CategoryParts(q);
    assert TypeParts(p) == TypeParts(q) by {
      assert s.selectedType !in ["all"];
    }
    assert LaterParts(p) == LaterParts(q);
    assert FilterParts(p) == FilterParts(q);
    assert QueryParts(p, today) == QueryParts(q, today);
    SameQueryFromSameParts(p, q, today);
  }
}
