/**
 * The GitHub issue-search query built from the filter selection
 * (client/src/utils/queryBuilder.ts).
 *
 * The query is a list of space-separated qualifiers: the fixed prefix
 * `state:open type:issue no:assignee`, one `updated:>YYYY-MM-DD` date bound,
 * then the qualifiers of each active filter in a fixed order. With no filter
 * at all, a default "good first issue OR help wanted" group is appended.
 *
 * Every optional text parameter is a string in which `""` stands for
 * absent, `null` and empty alike (the source only tests them for
 * truthiness); an absent list is the empty list. The current date is the
 * parameter `today`.
 */
module QueryBuilder {
  import opened Text
  import opened Calendar

  datatype QueryParams = QueryParams(
    searchTerm: string,
    selectedLabels: seq<string>,
    selectedCategories: seq<string>,
    selectedLanguage: string,
    selectedLicense: string,
    selectedDifficulty: string,
    selectedType: string,
    selectedFramework: string,
    selectedLastActivity: string
  )

  /** The selection with nothing chosen. */
  const NoFilters: QueryParams := QueryParams("", [], [], "", "", "", "", "", "")

  // ---------------------------------------------------------------------
  // Lookup tables

  /** Labels a difficulty level requires (any of) and forbids (all of). */
  datatype DifficultyConfig = DifficultyConfig(anyOf: seq<string>, noneOf: seq<string>)  // `include`, `exclude` in the source

  /** `getDifficultyLabels(difficulty)` */
  function DifficultyLabels(difficulty: string): (c: DifficultyConfig)
    ensures difficulty !in {"beginner", "intermediate", "advanced"} ==> c == DifficultyConfig([], [])
    ensures forall i :: 0 <= i < |c.noneOf| ==> c.noneOf[i] !in c.anyOf
  {
    if difficulty == "beginner" then
      DifficultyConfig(["good first issue", "good-first-issue"], [])
    else if difficulty == "intermediate" then
      DifficultyConfig(["help wanted", "help-wanted"], ["good first issue", "good-first-issue"])
    else if difficulty == "advanced" then
      DifficultyConfig(
        ["expert", "advanced", "hard", "difficult", "complex", "challenging"],
        ["good first issue", "good-first-issue", "first-timers-only", "help wanted", "help-wanted"])
    else
      DifficultyConfig([], [])
  }

  const FrameworkMap: map<string, string> := map[
    "react" := "react", "vue" := "vue", "angular" := "angular", "nextjs" := "next.js",
    "nuxt" := "nuxt", "svelte" := "svelte", "express" := "express", "django" := "django",
    "flask" := "flask", "rails" := "rails", "spring" := "spring", "laravel" := "laravel",
    "fastapi" := "fastapi", "nestjs" := "nestjs"
  ]

  /** `getFrameworkSearch(framework)`: the search word for a known framework, `""` for any other. */
  function FrameworkSearch(framework: string): (r: string)
    ensures r != "" <==> framework in FrameworkMap
    ensures framework == "nextjs" ==> r == "next.js"
    ensures framework in FrameworkMap && framework != "nextjs" ==> r == framework
  {
    if framework in FrameworkMap then FrameworkMap[framework] else ""
  }

  /** How many days back each last-activity choice reaches. */
  function ActivityDays(activity: string): (n: nat)
    requires activity in {"last-week", "last-month", "last-3months", "active"}
  {
    if activity == "last-week" then 7
    else if activity == "last-3months" then 90
    else 30
  }

  /** `getLastActivityQuery(activity)`: a date bound for a known choice, `""` for any other. */
  function LastActivityQuery(activity: string, today: Date): (q: string)
    requires Valid(today)
    ensures q != "" <==> activity in {"last-week", "last-month", "last-3months", "active"}
  {
    if activity in {"last-week", "last-month", "last-3months", "active"} then
      "updated:>" + Format(DaysBefore(today, ActivityDays(activity)))
    else ""
  }

  // ---------------------------------------------------------------------
  // Qualifiers

  function LabelQualifier(l: string): string { "label:\"" + l + "\"" }

  function NegatedLabel(l: string): string { "-label:\"" + l + "\"" }

  /** `labels.map(l => `label:"${l}"`)` */
  function LabelQualifiers(ls: seq<string>): (r: seq<string>)
    ensures |r| == |ls| && forall i :: 0 <= i < |ls| ==> r[i] == LabelQualifier(ls[i])
  {
    seq(|ls|, i requires 0 <= i < |ls| => LabelQualifier(ls[i]))
  }

  function NegatedLabels(ls: seq<string>): (r: seq<string>)
    ensures |r| == |ls| && forall i :: 0 <= i < |ls| ==> r[i] == NegatedLabel(ls[i])
  {
    seq(|ls|, i requires 0 <= i < |ls| => NegatedLabel(ls[i]))
  }

  /** A single qualifier as it is, several as a parenthesised OR group. */
  function AnyOf(qs: seq<string>): string
    requires |qs| >= 1
  {
    if |qs| == 1 then qs[0] else "(" + Join(qs, " OR ") + ")"
  }

  const BaseParts: seq<string> := ["state:open", "type:issue", "no:assignee"]

  /** The three fixed qualifiers, joined and followed by the separator: `state:open type:issue no:assignee `. */
  const BasePrefix: string := Join(BaseParts, " ") + " "

  /** The literal group the source pushes for advanced, written as its six qualifiers. */
  const AdvancedGroup: string :=
    "(" + (LabelQualifier("expert") + " OR " + LabelQualifier("advanced") + " OR " + LabelQualifier("hard")
    + " OR " + LabelQualifier("difficult") + " OR " + LabelQualifier("complex") + " OR " + LabelQualifier("challenging")) + ")"

  /** The five literal exclusions the source pushes for advanced. */
  const AdvancedExclusions: seq<string> := [
    NegatedLabel("good first issue"), NegatedLabel("good-first-issue"), NegatedLabel("first-timers-only"),
    NegatedLabel("help wanted"), NegatedLabel("help-wanted")
  ]

  const FallbackGroup: string := "(label:\"good first issue\" OR label:\"help wanted\")"

  /** The default bound: updated within the last 30 days. */
  function DefaultDateQualifier(today: Date): string
    requires Valid(today)
  {
    "updated:>" + Format(DaysBefore(today, 30))
  }

  // ---------------------------------------------------------------------
  // The query, segment by segment, in the order the source pushes them

  function DateQualifier(p: QueryParams, today: Date): string
    requires Valid(today)
  {
    var q := if p.selectedLastActivity != "" then LastActivityQuery(p.selectedLastActivity, today) else "";
    if q != "" then q else DefaultDateQualifier(today)
  }

  function DifficultyParts(difficulty: string): seq<string> {
    if difficulty == "" then []
    else if difficulty == "advanced" then [AdvancedGroup] + AdvancedExclusions
    else
      var c := DifficultyLabels(difficulty);
      if |c.anyOf| == 0 then [] else [AnyOf(LabelQualifiers(c.anyOf))] + NegatedLabels(c.noneOf)
  }

  function SearchParts(p: QueryParams): seq<string> {
    if Trim(p.searchTerm) != "" then [Trim(p.searchTerm)] else []
  }

  function FrameworkParts(p: QueryParams): seq<string> {
    var f := if p.selectedFramework != "" then FrameworkSearch(p.selectedFramework) else "";
    if f != "" then [f] else []
  }

  function LanguageParts(p: QueryParams): seq<string> {
    if p.selectedLanguage != "" then ["language:" + p.selectedLanguage] else []
  }

  /** Categories count unless advanced is chosen, none is selected, or "all" is among them. */
  predicate CategoriesApply(p: QueryParams) {
    p.selectedDifficulty != "advanced" && |p.selectedCategories| > 0 && "all" !in p.selectedCategories
  }

  function CategoryParts(p: QueryParams): seq<string> {
    if CategoriesApply(p) then [AnyOf(LabelQualifiers(p.selectedCategories))] else []
  }

  function TypeParts(p: QueryParams): seq<string> {
    if p.selectedDifficulty != "advanced" && p.selectedType != "" && p.selectedType !in p.selectedCategories
    then [LabelQualifier(p.selectedType)]
    else []
  }

  /** All qualifiers, in order. */
  function QueryParts(p: QueryParams, today: Date): seq<string>
    requires Valid(today)
  {
    BaseParts + [DateQualifier(p, today)] + FilterParts(p)
  }

  /** The qualifiers after the date bound. */
  function FilterParts(p: QueryParams): seq<string> {
    DifficultyParts(p.selectedDifficulty) + SearchParts(p) + LaterParts(p)
  }

  /** The qualifiers after the search text. */
  function LaterParts(p: QueryParams): seq<string> {
    FrameworkParts(p) + LanguageParts(p) + CategoryParts(p) + TypeParts(p) + LabelQualifiers(p.selectedLabels)
  }

  /** `hasAnyFilter`: some selection other than the default is present. */
  predicate HasAnyFilter(p: QueryParams) {
    p.selectedDifficulty != "" || p.selectedType != "" || p.selectedFramework != ""
    || p.selectedLanguage != "" || p.selectedLicense != "" || p.selectedLastActivity != ""
    || (|p.selectedCategories| > 0 && "all" !in p.selectedCategories)
    || |p.selectedLabels| > 0 || Trim(p.searchTerm) != ""
  }

  /** `buildGitHubQuery(params)` as a value. */
  function QueryString(p: QueryParams, today: Date): string
    requires Valid(today)
  {
    var query := Join(QueryParts(p, today), " ");
    var bare := BasePrefix + DefaultDateQualifier(today);
    if !HasAnyFilter(p) && query == bare then bare + " " + FallbackGroup else query
  }

  // ---------------------------------------------------------------------
  // The builder

  /** The `selectedDifficulty` block of `buildGitHubQuery`: pushes its qualifiers onto `parts`. */
  method PushDifficulty(parts: seq<string>, difficulty: string) returns (r: seq<string>)
    ensures r == parts + DifficultyParts(difficulty)
  {
    r := parts;
    if difficulty != "" {
      var config := DifficultyLabels(difficulty);
      if difficulty == "advanced" {
        // the source's literal qualifiers, each written as the qualifier it spells
        r := r + [AdvancedGroup];
        r := r + [NegatedLabel("good first issue")];
        r := r + [NegatedLabel("good-first-issue")];
        r := r + [NegatedLabel("first-timers-only")];
        r := r + [NegatedLabel("help wanted")];
        r := r + [NegatedLabel("help-wanted")];
        assert r == parts + ([AdvancedGroup] + AdvancedExclusions);
        assert DifficultyParts(difficulty) == [AdvancedGroup] + AdvancedExclusions;
      } else if |config.anyOf| > 0 {
        // one label on its own, several as an OR group
        r := r + [AnyOf(LabelQualifiers(config.anyOf))];
        r := PushExclusions(r, config.noneOf);
        assert DifficultyParts(difficulty) == [AnyOf(LabelQualifiers(config.anyOf))] + NegatedLabels(config.noneOf);
      } else {
        assert DifficultyParts(difficulty) == [];
      }
    }
  }

  /** `difficultyConfig.exclude.forEach(l => parts.push(`-label:"${l}"`))` */
  method PushExclusions(parts: seq<string>, labels: seq<string>) returns (r: seq<string>)
    ensures r == parts + NegatedLabels(labels)
  {
    r := parts;
    var i := 0;
    while i < |labels|
      invariant 0 <= i <= |labels|
      invariant r == parts + NegatedLabels(labels[..i])
    {
      r := r + [NegatedLabel(labels[i])];
      i := i + 1;
    }
    assert labels[..i] == labels;
  }

  /** The framework, language, category and type blocks of `buildGitHubQuery`. */
  method PushLaterFilters(parts: seq<string>, p: QueryParams) returns (r: seq<string>)
    ensures r == parts + FrameworkParts(p) + LanguageParts(p) + CategoryParts(p) + TypeParts(p)
  {
    r := parts;
    if p.selectedFramework != "" {
      var frameworkQuery := FrameworkSearch(p.selectedFramework);
      if frameworkQuery != "" {
        r := r + [frameworkQuery];
      }
    }
    assert r == parts + FrameworkParts(p);

    if p.selectedLanguage != "" {
      r := r + ["language:" + p.selectedLanguage];
    }
    assert r == parts + FrameworkParts(p) + LanguageParts(p);

    if p.selectedDifficulty != "advanced" && |p.selectedCategories| > 0 && "all" !in p.selectedCategories {
      var categoryQueries := LabelQualifiers(p.selectedCategories);
      if |categoryQueries| == 1 {
        r := r + [categoryQueries[0]];
      } else if |categoryQueries| > 1 {
        r := r + ["(" + Join(categoryQueries, " OR ") + ")"];
      }
    }
    assert r == parts + FrameworkParts(p) + LanguageParts(p) + CategoryParts(p);

    if p.selectedDifficulty != "advanced" && p.selectedType != "" {
      if p.selectedType !in p.selectedCategories {
        r := r + [LabelQualifier(p.selectedType)];
      }
    }
  }

  /** `selectedLabels.forEach(l => parts.push(`label:"${l}"`))` */
  method PushLabels(parts: seq<string>, labels: seq<string>) returns (r: seq<string>)
    ensures r == parts + LabelQualifiers(labels)
  {
    r := parts;
    var j := 0;
    while j < |labels|
      invariant 0 <= j <= |labels|
      invariant r == parts + LabelQualifiers(labels[..j])
    {
      r := r + [LabelQualifier(labels[j])];
      j := j + 1;
    }
    assert labels[..j] == labels;
  }

  lemma Assoc<T>(a: seq<T>, b: seq<T>, c: seq<T>)
    ensures a + b + c == a + (b + c)
  {
  }

  /** The opening of `buildGitHubQuery`: the three fixed qualifiers and the date bound. */
  method StartParts(p: QueryParams, today: Date) returns (parts: seq<string>)
    requires Valid(today)
    ensures parts == BaseParts + [DateQualifier(p, today)]
  {
    parts := [];
    parts := parts + ["state:open"];
    parts := parts + ["type:issue"];
    parts := parts + ["no:assignee"];

    var thirtyDaysAgoStr := Format(DaysBefore(today, 30));
    if p.selectedLastActivity != "" {
      var activityQuery := LastActivityQuery(p.selectedLastActivity, today);
      if activityQuery != "" {
        parts := parts + [activityQuery];
      } else {
        parts := parts + ["updated:>" + thirtyDaysAgoStr];
      }
    } else {
      parts := parts + ["updated:>" + thirtyDaysAgoStr];
    }
  }

  /** The close of `buildGitHubQuery`: joins the qualifiers and adds the default group when nothing is chosen. */
  method FinishQuery(p: QueryParams, today: Date, parts: seq<string>) returns (query: string)
    requires Valid(today) && parts == QueryParts(p, today)
    ensures query == QueryString(p, today)
  {
    var thirtyDaysAgoStr := Format(DaysBefore(today, 30));
    query := Join(parts, " ");
    var hasAnyFilter := HasAnyFilter(p);
    var baseDateFilter := "updated:>" + thirtyDaysAgoStr;
    if !hasAnyFilter && query == BasePrefix + baseDateFilter {
      query := BasePrefix + baseDateFilter + " " + FallbackGroup;
    }
  }

  /** The filter blocks of `buildGitHubQuery`, in the order the source runs them. */
  method PushFilters(parts: seq<string>, p: QueryParams) returns (r: seq<string>)
    ensures r == parts + FilterParts(p)
  {
    r := PushDifficulty(parts, p.selectedDifficulty);
    var term := Trim(p.searchTerm);
    if term != "" {
      r := r + [term];
    }
    assert r == parts + DifficultyParts(p.selectedDifficulty) + SearchParts(p);
    ghost var middle := r;
    r := PushLaterFilters(r, p);
    r := PushLabels(r, p.selectedLabels);
    assert r == middle + FrameworkParts(p) + LanguageParts(p) + CategoryParts(p) + TypeParts(p) + LabelQualifiers(p.selectedLabels);
    Regroup(parts, DifficultyParts(p.selectedDifficulty), SearchParts(p),
      FrameworkParts(p), LanguageParts(p), CategoryParts(p), TypeParts(p), LabelQualifiers(p.selectedLabels));
  }

  lemma Regroup<T>(parts: seq<T>, d: seq<T>, s: seq<T>, f: seq<T>, l: seq<T>, c: seq<T>, t: seq<T>, b: seq<T>)
    ensures parts + d + s + f + l + c + t + b == parts + (d + s + (f + l + c + t + b))
  {
    Assoc(parts + d + s, f + l + c + t, b);
    Assoc(parts, d + s, f + l + c + t + b);
    assert parts + d + s + f + l + c + t == parts + d + s + (f + l + c + t);
  }

  /** `buildGitHubQuery(params)`: the opening qualifiers, the filter blocks, then the join. */
  method BuildGitHubQuery(p: QueryParams, today: Date) returns (query: string)
    requires Valid(today)
    ensures query == QueryString(p, today)
  {
    var parts := StartParts(p, today);
    parts := PushFilters(parts, p);
    query := FinishQuery(p, today, parts);
  }

  // ---------------------------------------------------------------------
  // Properties

  /** Days reached back: a week, three months, or 30 days for every other choice and for none. */
  function CutoffDays(activity: string): nat {
    if activity == "last-week" then 7 else if activity == "last-3months" then 90 else 30
  }

  lemma DateQualifierCutoff(p: QueryParams, today: Date)
    requires Valid(today)
    ensures DateQualifier(p, today) == "updated:>" + Format(DaysBefore(today, CutoffDays(p.selectedLastActivity)))
  {
    var a := p.selectedLastActivity;
    if a in {"last-week", "last-month", "last-3months", "active"} {
      assert ActivityDays(a) == CutoffDays(a);
    }
  }

  lemma BaseJoin(x: string)
    ensures Join(BaseParts + [x], " ") == BasePrefix + x
  {
    JoinAppend(BaseParts, [x], " ");
  }

  lemma JoinStartsWith(head: seq<string>, rest: seq<string>, sep: string)
    requires |head| > 0
    ensures StartsWith(Join(head + rest, sep), Join(head, sep))
  {
    if rest == [] {
      assert head + rest == head;
    } else {
      JoinAppend(head, rest, sep);
    }
  }

  lemma QueryStartsWithParts(p: QueryParams, today: Date)
    requires Valid(today)
    ensures StartsWith(QueryString(p, today), Join(QueryParts(p, today), " "))
  {
    KeepsQuery(Join(QueryParts(p, today), " "), BasePrefix + DefaultDateQualifier(today), !HasAnyFilter(p));
  }

  /** Whether or not the fallback group is appended, the joined parts stay in front. */
  lemma KeepsQuery(query: string, bare: string, fallback: bool)
    ensures StartsWith(if fallback && query == bare then bare + " " + FallbackGroup else query, query)
  {
    if fallback && query == bare {
      StartsWithAppend(query, " " + FallbackGroup);
      assert query + " " + FallbackGroup == query + (" " + FallbackGroup);
    } else {
      assert query[..|query|] == query;
    }
  }

  lemma PartsStartWithBase(p: QueryParams, today: Date)
    requires Valid(today)
    ensures StartsWith(Join(QueryParts(p, today), " "), BasePrefix + DateQualifier(p, today))
  {
    BaseJoin(DateQualifier(p, today));
    JoinStartsWith(BaseParts + [DateQualifier(p, today)], FilterParts(p), " ");
  }

  /** Every query starts with the three fixed qualifiers and exactly the date bound the activity choice asks for. */
  lemma QueryStartsWithBaseAndDate(p: QueryParams, today: Date)
    requires Valid(today)
    ensures DateQualifier(p, today) == "updated:>" + Format(DaysBefore(today, CutoffDays(p.selectedLastActivity)))
    ensures StartsWith(QueryString(p, today), BasePrefix + DateQualifier(p, today))
  {
    DateQualifierCutoff(p, today);
    QueryStartsWithParts(p, today);
    PartsStartWithBase(p, today);
    StartsWithTransitive(QueryString(p, today), Join(QueryParts(p, today), " "), BasePrefix + DateQualifier(p, today));
  }

  /** No entry of `qs` starts with the letter u. */
  ghost predicate NoDateLike(qs: seq<string>) {
    forall i :: 0 <= i < |qs| ==> |qs[i]| > 0 && qs[i][0] != 'u'
  }

  lemma NoDateLikeAppend(a: seq<string>, b: seq<string>)
    requires NoDateLike(a) && NoDateLike(b)
    ensures NoDateLike(a + b)
  {
  }

  lemma AnyOfLabelsStart(ls: seq<string>)
    requires |ls| >= 1
    ensures |AnyOf(LabelQualifiers(ls))| > 0 && AnyOf(LabelQualifiers(ls))[0] != 'u'
  {
  }

  lemma DifficultyNoDateLike(d: string)
    ensures NoDateLike(DifficultyParts(d))
  {
    if d != "advanced" && d != "" {
      var c := DifficultyLabels(d);
      if |c.anyOf| >= 1 {
        AnyOfLabelsStart(c.anyOf);
      }
    }
  }

  lemma CategoryNoDateLike(p: QueryParams)
    ensures NoDateLike(CategoryParts(p))
  {
    if CategoriesApply(p) {
      AnyOfLabelsStart(p.selectedCategories);
    }
  }

  lemma LaterNoDateLike(p: QueryParams)
    ensures NoDateLike(LaterParts(p))
  {
    CategoryNoDateLike(p);
    var f, l, c, y, b := FrameworkParts(p), LanguageParts(p), CategoryParts(p), TypeParts(p), LabelQualifiers(p.selectedLabels);
    assert NoDateLike(f) && NoDateLike(l) && NoDateLike(y) && NoDateLike(b);
    NoDateLikeAppend(f, l);
    NoDateLikeAppend(f + l, c);
    NoDateLikeAppend(f + l + c, y);
    NoDateLikeAppend(f + l + c + y, b);
  }

  lemma OnlyMiddleDateLike(d: seq<string>, m: seq<string>, l: seq<string>, t: string)
    requires NoDateLike(d) && NoDateLike(l)
    requires forall i :: 0 <= i < |m| ==> m[i] == t
    ensures forall i :: 0 <= i < |d + m + l| && StartsWith((d + m + l)[i], "updated:>") ==> (d + m + l)[i] == t
  {
    forall i | 0 <= i < |d + m + l| && StartsWith((d + m + l)[i], "updated:>")
      ensures (d + m + l)[i] == t
    {
      assert (d + m + l)[i][0] == 'u';
      if |d| <= i < |d| + |m| {
        assert (d + m + l)[i] == m[i - |d|];
      }
    }
  }

  /**
   * The date bound is the only `updated:>` qualifier: none of the filter
   * qualifiers after it starts with one, except the user's own search text.
   */
  lemma OneDateBound(p: QueryParams)
    ensures var fs := FilterParts(p);
      forall i :: 0 <= i < |fs| && StartsWith(fs[i], "updated:>") ==> fs[i] == Trim(p.searchTerm)
  {
    DifficultyNoDateLike(p.selectedDifficulty);
    LaterNoDateLike(p);
    OnlyMiddleDateLike(DifficultyParts(p.selectedDifficulty), SearchParts(p), LaterParts(p), Trim(p.searchTerm));
  }

  lemma AdvancedExclusionsNegate(ls: seq<string>)
    requires ls == ["good first issue", "good-first-issue", "first-timers-only", "help wanted", "help-wanted"]
    ensures AdvancedExclusions == NegatedLabels(ls)
  {
    var ns := NegatedLabels(ls);
    assert |ns| == 5;
  }

  lemma AdvancedExclusionsMatchTable()
    ensures AdvancedExclusions == NegatedLabels(DifficultyLabels("advanced").noneOf)
  {
    AdvancedExclusionsNegate(DifficultyLabels("advanced").noneOf);
  }

  lemma AdvancedGroupJoin(qs: seq<string>)
    requires qs == [LabelQualifier("expert"), LabelQualifier("advanced"), LabelQualifier("hard"),
      LabelQualifier("difficult"), LabelQualifier("complex"), LabelQualifier("challenging")]
    ensures AdvancedGroup == "(" + Join(qs, " OR ") + ")"
  {
    JoinSix(LabelQualifier("expert"), LabelQualifier("advanced"), LabelQualifier("hard"),
      LabelQualifier("difficult"), LabelQualifier("complex"), LabelQualifier("challenging"), " OR ");
  }

  /** Six qualifiers joined, written out. */
  lemma JoinSix(a: string, b: string, c: string, d: string, e: string, f: string, sep: string)
    ensures Join([a, b, c, d, e, f], sep) == a + sep + b + sep + c + sep + d + sep + e + sep + f
  {
    assert [a, b, c, d, e, f] == [a, b, c, d, e] + [f];
    assert [a, b, c, d, e] == [a, b, c, d] + [e];
    assert [a, b, c, d] == [a, b, c] + [d];
    assert [a, b, c] == [a, b] + [c];
    assert [a, b] == [a] + [b];
    JoinAppend([a, b, c, d, e], [f], sep);
    JoinAppend([a, b, c, d], [e], sep);
    JoinAppend([a, b, c], [d], sep);
    JoinAppend([a, b], [c], sep);
    JoinAppend([a], [b], sep);
  }

  lemma AdvancedQualifiers(ls: seq<string>)
    requires ls == ["expert", "advanced", "hard", "difficult", "complex", "challenging"]
    ensures LabelQualifiers(ls) == [LabelQualifier("expert"), LabelQualifier("advanced"), LabelQualifier("hard"),
      LabelQualifier("difficult"), LabelQualifier("complex"), LabelQualifier("challenging")]
  {
  }

  lemma AdvancedGroupMatchesTable()
    ensures AdvancedGroup == AnyOf(LabelQualifiers(DifficultyLabels("advanced").anyOf))
  {
    var ls := DifficultyLabels("advanced").anyOf;
    AdvancedQualifiers(ls);
    AdvancedGroupJoin(LabelQualifiers(ls));
  }

  /** The hard-coded advanced qualifiers are exactly the advanced entry of the difficulty table. */
  lemma AdvancedMatchesTable()
    ensures DifficultyParts("advanced") ==
      [AnyOf(LabelQualifiers(DifficultyLabels("advanced").anyOf))] + NegatedLabels(DifficultyLabels("advanced").noneOf)
  {
    AdvancedExclusionsMatchTable();
    AdvancedGroupMatchesTable();
  }

  /** With advanced chosen, categories and type are ignored and the advanced group with its five exclusions follows the date. */
  lemma AdvancedSameParts(p: QueryParams, today: Date)
    requires Valid(today) && p.selectedDifficulty == "advanced"
    ensures QueryParts(p, today) == QueryParts(p.(selectedCategories := [], selectedType := ""), today)
    ensures HasAnyFilter(p) && HasAnyFilter(p.(selectedCategories := [], selectedType := ""))
  {
    var q := p.(selectedCategories := [], selectedType := "");
    assert CategoryParts(p) == [] == CategoryParts(q);
    assert TypeParts(p) == [] == TypeParts(q);
    SameLaterParts(p, q);
    assert FilterParts(p) == FilterParts(q);
    SameQueryParts(p, q, today);
  }

  /** Two selections with the same parts after the search text. */
  lemma SameLaterParts(p: QueryParams, q: QueryParams)
    requires p.selectedFramework == q.selectedFramework && p.selectedLanguage == q.selectedLanguage
    requires p.selectedLabels == q.selectedLabels
    requires CategoryParts(p) == CategoryParts(q) && TypeParts(p) == TypeParts(q)
    ensures LaterParts(p) == LaterParts(q)
  {
  }

  /** Two selections with the same activity choice and the same filter parts have the same qualifiers. */
  lemma SameQueryParts(p: QueryParams, q: QueryParams, today: Date)
    requires Valid(today) && p.selectedLastActivity == q.selectedLastActivity
    requires FilterParts(p) == FilterParts(q)
    ensures QueryParts(p, today) == QueryParts(q, today)
  {
  }

  lemma PrefixOfConcat<T>(d: seq<T>, m: seq<T>, l: seq<T>)
    ensures (d + m + l)[..|d|] == d
  {
  }

  lemma AdvancedSlice(p: QueryParams)
    requires p.selectedDifficulty == "advanced"
    ensures |FilterParts(p)| >= 6 && FilterParts(p)[..6] == [AdvancedGroup] + AdvancedExclusions
  {
    PrefixOfConcat(DifficultyParts(p.selectedDifficulty), SearchParts(p), LaterParts(p));
  }

  /** With advanced chosen, categories and type are ignored and the advanced group with its five exclusions follows the date. */
  lemma AdvancedIgnoresCategoriesAndType(p: QueryParams, today: Date)
    requires Valid(today) && p.selectedDifficulty == "advanced"
    ensures |FilterParts(p)| >= 6 && FilterParts(p)[..6] == [AdvancedGroup] + AdvancedExclusions
    ensures QueryString(p, today) == QueryString(p.(selectedCategories := [], selectedType := ""), today)
  {
    AdvancedSlice(p);
    AdvancedSameParts(p, today);
    SameQueryFromSameParts(p, p.(selectedCategories := [], selectedType := ""), today);
  }

  lemma PairGroup(qs: seq<string>)
    requires |qs| == 2
    ensures AnyOf(qs) == "(" + qs[0] + " OR " + qs[1] + ")"
  {
    assert qs[1..] == [qs[1]];
    assert Join(qs, " OR ") == qs[0] + " OR " + qs[1];
  }

  /** Beginner is one OR group of the two spellings of "good first issue", with no exclusion. */
  lemma BeginnerParts()
    ensures DifficultyParts("beginner") ==
      ["(" + LabelQualifier("good first issue") + " OR " + LabelQualifier("good-first-issue") + ")"]
  {
    var c := DifficultyLabels("beginner");
    assert c.anyOf == ["good first issue", "good-first-issue"] && c.noneOf == [];
    PairGroup(LabelQualifiers(c.anyOf));
  }

  /** Intermediate is one OR group of the two spellings of "help wanted", excluding both spellings of "good first issue". */
  lemma IntermediateParts()
    ensures DifficultyParts("intermediate") ==
      ["(" + LabelQualifier("help wanted") + " OR " + LabelQualifier("help-wanted") + ")",
       NegatedLabel("good first issue"), NegatedLabel("good-first-issue")]
  {
    var c := DifficultyLabels("intermediate");
    assert c.anyOf == ["help wanted", "help-wanted"] && c.noneOf == ["good first issue", "good-first-issue"];
    PairGroup(LabelQualifiers(c.anyOf));
  }

  /** A difficulty outside the three levels adds no qualifier. */
  lemma UnknownDifficultyAddsNothing(difficulty: string)
    requires difficulty !in {"beginner", "intermediate", "advanced"}
    ensures DifficultyParts(difficulty) == []
  {
  }

  /** Each selected category is one alternative of the category qualifier. */
  lemma CategoriesAreAlternatives(p: QueryParams, c: string)
    requires CategoriesApply(p) && c in p.selectedCategories
    ensures |CategoryParts(p)| == 1 && Contains(CategoryParts(p)[0], LabelQualifier(c))
  {
    var qs := LabelQualifiers(p.selectedCategories);
    var i :| 0 <= i < |p.selectedCategories| && p.selectedCategories[i] == c;
    if |qs| == 1 {
      ContainsSelf(qs[0]);
    } else {
      JoinContains(qs, " OR ", i);
      ContainsInfix("(", Join(qs, " OR "), ")", qs[i]);
    }
  }

  lemma InConcat<T>(x: T, a: seq<T>, b: seq<T>)
    ensures x in a ==> x in a + b
    ensures x in b ==> x in a + b
  {
  }

  /** The type label is added unless advanced is chosen or the type is already a selected category. */
  lemma TypeNotDuplicated(p: QueryParams, today: Date)
    requires Valid(today)
    ensures p.selectedType in p.selectedCategories ==> TypeParts(p) == []
    ensures TypeParts(p) != [] <==>
      p.selectedDifficulty != "advanced" && p.selectedType != "" && p.selectedType !in p.selectedCategories
    ensures TypeParts(p) == [] || TypeParts(p) == [LabelQualifier(p.selectedType)]
    ensures p.selectedDifficulty != "advanced" && p.selectedType != "" && p.selectedType !in p.selectedCategories
      ==> LabelQualifier(p.selectedType) in QueryParts(p, today)
  {
    if p.selectedDifficulty != "advanced" && p.selectedType != "" && p.selectedType !in p.selectedCategories {
      var q := LabelQualifier(p.selectedType);
      var flc := FrameworkParts(p) + LanguageParts(p) + CategoryParts(p);
      assert q in TypeParts(p);
      InConcat(q, flc, TypeParts(p));
      InConcat(q, flc + TypeParts(p), LabelQualifiers(p.selectedLabels));
      InConcat(q, DifficultyParts(p.selectedDifficulty) + SearchParts(p), LaterParts(p));
      InConcat(q, BaseParts + [DateQualifier(p, today)], FilterParts(p));
    }
  }

  lemma NoFilterNoParts(p: QueryParams, today: Date)
    requires Valid(today) && !HasAnyFilter(p)
    ensures FilterParts(p) == []
    ensures DateQualifier(p, today) == DefaultDateQualifier(today)
  {
    assert DifficultyParts(p.selectedDifficulty) == [];
    assert SearchParts(p) == [];
    assert LaterParts(p) == [];
  }

  /** The default group is appended exactly when no filter is chosen. */
  lemma FallbackExactlyWithoutFilters(p: QueryParams, today: Date)
    requires Valid(today)
    ensures !HasAnyFilter(p) ==>
      QueryString(p, today) == BasePrefix + DefaultDateQualifier(today) + " " + FallbackGroup
    ensures HasAnyFilter(p) ==> QueryString(p, today) == Join(QueryParts(p, today), " ")
  {
    if !HasAnyFilter(p) {
      NoFilterNoParts(p, today);
      assert QueryParts(p, today) == BaseParts + [DefaultDateQualifier(today)];
      BaseJoin(DefaultDateQualifier(today));
    }
  }

  /** A licence alone counts as a filter but adds no qualifier: the query is the bare prefix without the default group. */
  lemma LicenseOnlyGivesBarePrefix(license: string, today: Date)
    requires Valid(today) && license != ""
    ensures QueryString(NoFilters.(selectedLicense := license), today) == BasePrefix + DefaultDateQualifier(today)
  {
    var p := NoFilters.(selectedLicense := license);
    NoFilterNoParts(p.(selectedLicense := ""), today);
    assert FilterParts(p) == FilterParts(p.(selectedLicense := ""));
    assert DateQualifier(p, today) == DefaultDateQualifier(today);
    assert QueryParts(p, today) == BaseParts + [DefaultDateQualifier(today)];
    BaseJoin(DefaultDateQualifier(today));
  }

  /** The query depends on the selection only through its qualifiers and whether any filter is chosen. */
  lemma SameQueryFromSameParts(p: QueryParams, q: QueryParams, today: Date)
    requires Valid(today)
    requires QueryParts(p, today) == QueryParts(q, today) && HasAnyFilter(p) == HasAnyFilter(q)
    ensures QueryString(p, today) == QueryString(q, today)
  {
  }

  lemma BlankSearchSameParts(p: QueryParams, today: Date)
    requires Valid(today) && Trim(p.searchTerm) == ""
    ensures QueryParts(p, today) == QueryParts(p.(searchTerm := ""), today)
    ensures HasAnyFilter(p) == HasAnyFilter(p.(searchTerm := ""))
  {
    var q := p.(searchTerm := "");
    assert Trim(q.searchTerm) == "";
    assert SearchParts(p) == [] == SearchParts(q);
    SameLaterParts(p, q);
    assert FilterParts(p) == FilterParts(q);
    SameQueryParts(p, q, today);
  }

  /** A search term of white space only is the same as none. */
  lemma BlankSearchIgnored(p: QueryParams, today: Date)
    requires Valid(today) && Trim(p.searchTerm) == ""
    ensures QueryString(p, today) == QueryString(p.(searchTerm := ""), today)
  {
    BlankSearchSameParts(p, today);
    SameQueryFromSameParts(p, p.(searchTerm := ""), today);
  }
}
