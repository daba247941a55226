/**
 * The categories page (client/src/pages/CategoriesPage.tsx): the table of
 * ten issue categories, the search box and difficulty buttons that narrow
 * it, and the difficulty toggle.
 */
module CategoriesPage {
  import opened Text
  import opened Seqs

  /** A category; every entry of the table names a difficulty, so it is not optional here. */
  datatype Category = Category(key: string, title: string, description: string, color: string, difficulty: string)

  /** `CATEGORIES`, in declared order. */
  const Categories: seq<Category> := [
    Category("good first issue", "Good First Issue", "Perfect for beginners starting their open source journey", "emerald", "beginner"),
    Category("help wanted", "Help Wanted", "Projects actively seeking contributors", "blue", "intermediate"),
    Category("bug", "Bug Fixes", "Issues that need debugging and fixing", "red", "intermediate"),
    Category("feature", "Features", "New functionality and enhancements", "purple", "intermediate"),
    Category("documentation", "Documentation", "Improve docs and write guides", "amber", "beginner"),
    Category("refactor", "Refactoring", "Code improvements and optimizations", "indigo", "intermediate"),
    Category("testing", "Testing", "Add tests and improve coverage", "teal", "intermediate"),
    Category("enhancement", "Enhancement", "Improve existing features", "violet", "intermediate"),
    Category("performance", "Performance", "Optimize speed and efficiency", "cyan", "advanced"),
    Category("security", "Security", "Fix vulnerabilities and improve safety", "rose", "advanced")
  ]

  /** The search test: the lower-cased query occurs in the label (`title` here, `label` being a Dafny keyword), the description or the key. */
  function MatchesSearch(query: string): Category -> bool {
    (c: Category) =>
      Contains(Lower(c.title), query) || Contains(Lower(c.description), query) || Contains(Lower(c.key), query)
  }

  function HasDifficulty(difficulty: string): Category -> bool {
    (c: Category) => c.difficulty == difficulty
  }

  /** `filteredCategories`, with `""` standing for no search and for no difficulty. */
  function FilteredCategories(searchQuery: string, selectedDifficulty: string): seq<Category> {
    var bySearch := if searchQuery != "" then Filter(Categories, MatchesSearch(Lower(searchQuery))) else Categories;
    if selectedDifficulty != "" then Filter(bySearch, HasDifficulty(selectedDifficulty)) else bySearch
  }

  /** `handleDifficultyClick(key)`: the new selected difficulty, `""` for none. */
  function DifficultyClicked(selected: string, key: string): string {
    if key == selected then "" else key
  }

  // ---------------------------------------------------------------------
  // Properties

  /** With no search and no difficulty, all ten categories are shown in declared order. */
  lemma NoFilterShowsAll()
    ensures FilteredCategories("", "") == Categories && |Categories| == 10
  {
  }

  /** A category is shown exactly when it is in the table, matches the search and has the chosen difficulty. */
  lemma FilteredIff(searchQuery: string, selectedDifficulty: string, c: Category)
    ensures c in FilteredCategories(searchQuery, selectedDifficulty) <==>
      c in Categories
      && MatchesSearch(Lower(searchQuery))(c)
      && (selectedDifficulty != "" ==> c.difficulty == selectedDifficulty)
  {
    if searchQuery == "" {
      assert Contains(Lower(c.key), Lower(searchQuery)) by {
        assert OccursAt(Lower(c.key), "", 0);
      }
    }
  }

  /** The categories shown keep the order of the table. */
  lemma FilteredInOrder(searchQuery: string, selectedDifficulty: string)
    ensures IsSubsequence(FilteredCategories(searchQuery, selectedDifficulty), Categories)
  {
    var bySearch := if searchQuery != "" then Filter(Categories, MatchesSearch(Lower(searchQuery))) else Categories;
    if searchQuery != "" {
      FilterIsSubsequence(Categories, MatchesSearch(Lower(searchQuery)));
    } else {
      PrefixIsSubsequence(Categories, Categories);
    }
    if selectedDifficulty != "" {
      FilterIsSubsequence(bySearch, HasDifficulty(selectedDifficulty));
      SubsequenceTransitive(FilteredCategories(searchQuery, selectedDifficulty), bySearch, Categories);
    }
  }

  /** Clicking the selected difficulty clears it; clicking another selects it. */
  lemma DifficultyToggle(selected: string, key: string)
    ensures key == selected ==> DifficultyClicked(selected, key) == ""
    ensures key != selected ==> DifficultyClicked(selected, key) == key
  {
  }
}
