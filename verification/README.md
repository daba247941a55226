# Issue finder core, modelled in Dafny

This project models the logic of a web client that helps people find GitHub
issues to contribute to. It covers the part between the user's filter
choices and GitHub's responses:

- the search-query builder turns a filter selection into a space-joined
  GitHub search-qualifier string;
- classifiers judge an issue's difficulty, its freshness and the natural
  language of its text, and recognise bounty issues;
- a profile scorer ranks issues for a user;
- the contribution statistics compute an impact score, day streaks,
  achievements and a day-by-day timeline from a user's public events;
- a set of input helpers sanitise text, validate usernames, escape HTML and
  rate-limit calls;
- the small stateful pieces around these are modelled too: the request
  cache, the recent-search list, the saved-issues list, the filter toggles
  of the issues page, the categories table, the paged repository list, the
  live contribution feed, the personalised issue list and the bounty feed's
  post-fetch pipeline.

Each source file has one module. Code that computes a value is written as
functions with lemmas about them. Code that updates state is written as a
class whose methods carry `modifies` clauses. Each method's `ensures` ties
the new state to a pure function of the old state, and the lemmas about that
function state what the source promises. Loops in the source
(`calculateMatchScore`, `calculateStreaks`, `buildContributionTimeline`, the
event loop of `fetchContributorData`, the query loop of the bounty feed, the
page merge, `buildGitHubQuery`) are methods with loop invariants, proved
against those functions. `generateAchievements`, five `if` blocks in
sequence, is a method proved equal to the function `Achievements`.

Conventions:

- The clock is a parameter: an integer of milliseconds, a day number, or a
  calendar `Date` where the source reads the local calendar.
- Network responses are parameters: the items a query returned, or an
  outcome that says the request failed.
- Strings are sequences of code points.
- A text field the source only tests for truthiness is `""` when absent.
  `Option` is used where absent and empty behave differently.
- Scores are exact reals, and `Math.round(x)` is the integer `n` with
  `n - 1/2 <= x < n + 1/2`.

Shared modules: `Wrappers` (Option), `Text` (ASCII lower-casing,
JavaScript's white-space trim, substring tests, join, decimal rendering),
`Seqs` (filter, prefix, subsequence, distinctness, first-occurrence
de-duplication), `Sorting` (a stable descending insertion sort, proved to be
a sorted permutation), `GitHub` (the issue and label records), `Calendar`
(day stepping and `YYYY-MM-DD` rendering) and `JsMath` (`Math.round`,
`Math.min`).

Where the code and its written description disagree, the model follows the
code:

- The beginner difficulty emits an OR group of two label spellings, not a
  single label.
- `filterByLanguage` returns every item as soon as `other` is among the
  allowed languages, so its later branch for `other` never admits anything.
- `detectLanguage` never returns `other`.

Some behaviours of the code look unintended. They are kept as written, and a lemma states each one:

- `sanitizeInput` removes `javascript:` in a single pass (Security.SinglePassLeavesProtocol).
- `matchedLanguages` over-reports languages, because it tests the reasons by substring (IssueMatcher.MatchedLanguagesOverReport).
- The `other` branch of `filterByLanguage` is dead (LanguageDetection.OtherBranchIsDead).
- The review count is always zero (ContributionTracker.ReviewsAlwaysZero).
- Issues admitted by the bounty fallback vanish at the next fetch (Bounty.FallbackItemsDropped).
- A manual bounty refresh hides issues an earlier fetch already verified (Bounty.ManualRefreshShowsOnlyUnseen).

## Model

| member | source | states |
|---|---|---|
| GitHub.LabelNames | client/src/utils/difficulty.ts:38 | one lower-cased name per label, `''` for a label without a name |
| Calendar.DaysBeforeThenAfter | client/src/utils/queryBuilder.ts:88-103 | stepping back n days and then forward n days returns the same date |
| Calendar.FormatRoundTrip | client/src/utils/queryBuilder.ts:105-110 | for four-digit years the rendered date is an ISO 8601 `YYYY-MM-DD` string that parses back to the same date |
| JsMath.Round | client/src/utils/issueMatcher.ts:120 | the result is the nearest integer, halves rounded up |
| Difficulty.ScanNames | client/src/utils/difficulty.ts:40-56 | the scan stops with a hit exactly when some name contains some keyword |
| Difficulty.DetectDifficulty | client/src/utils/difficulty.ts:33-59 | advanced exactly when a name has an advanced keyword; beginner exactly when none is advanced and one is beginner; intermediate likewise after both; null for no labels |
| Difficulty.UnnamedLabelMatchesNothing | client/src/utils/difficulty.ts:38 | a label without a name matches no keyword |
| Difficulty.DetectDifficultyIgnoresOrder | client/src/utils/difficulty.ts:38-58 | the result depends only on the multiset of lower-cased names, not on their order |
| Difficulty.AdvancedWinsOverOtherLists | client/src/utils/difficulty.ts:40-44 | the labels `advanced-help-wanted` (which also holds the intermediate keyword `help-wanted`) and `good first issue` together make the issue advanced |
| Freshness.DaysSinceUpdate | client/src/utils/issueFreshness.ts:11-18 | whole days since the update time, or since creation when the update time is missing |
| Freshness.Classify | client/src/utils/issueFreshness.ts:20-41 | active below 7 days, stale from 7 to 29, inactive from 30; the label names the status and the description starts with "Updated " |
| Freshness.StatusMonotone | client/src/utils/issueFreshness.ts:20-40 | an older update never gives a fresher status |
| Freshness.MissingUpdateUsesCreation | client/src/utils/issueFreshness.ts:11-13 | a missing update time gives the same result as an update at creation |
| Freshness.RecentDescriptions | client/src/utils/issueFreshness.ts:25 | under one day the text is "Updated today", from one to two days "Updated yesterday" |
| Freshness.FewDays | client/src/utils/issueFreshness.ts:20-26 | from 2 to 6 days the issue is active and reads "Updated d days ago" with d one digit, distinct from "today" and "yesterday" |
| Freshness.StaleWeeks | client/src/utils/issueFreshness.ts:32 | a stale issue is described in 1 to 4 weeks, singular exactly for 7 to 13 days |
| Freshness.InactiveMonths | client/src/utils/issueFreshness.ts:39 | an inactive issue is described in 30-day months, singular exactly for 30 to 59 days |
| LanguageDetection.UrlMatch | client/src/utils/languageDetection.ts:34 | a URL match starts at a scheme and runs to the next white space or the end |
| LanguageDetection.CodeSpanMatch | client/src/utils/languageDetection.ts:35 | a code-span match is a backtick, at least one non-backtick, and a backtick |
| LanguageDetection.FenceMatch | client/src/utils/languageDetection.ts:36 | a fenced block runs from an opening fence to the first closing fence after it |
| LanguageDetection.BlankMarkup | client/src/utils/languageDetection.ts:37 | every markup character becomes a space and every other character is kept in place |
| LanguageDetection.StripCode | client/src/utils/languageDetection.ts:34-36 | removing URLs, code spans and fenced blocks only deletes characters |
| LanguageDetection.CleanChars | client/src/utils/languageDetection.ts:33-38 | the cleaned text holds no markup character, and each of its characters is a space or comes from the input |
| LanguageDetection.NonAsciiCount | client/src/utils/languageDetection.ts:71 | the count of non-ASCII characters is at most the length, and 0 for ASCII text |
| LanguageDetection.ClassifyCleaned | client/src/utils/languageDetection.ts:71-131 | never `other`; each language is chosen exactly when its own test passes and every test before it fails: on text more than 30% non-ASCII, Japanese with kana, Chinese with Han and no kana, then Korean, Arabic, Russian and Hindi by script range, then Spanish, French and Portuguese by an accent and a stop word of their list, then German by an umlaut or ß; English otherwise |
| LanguageDetection.DetectLanguage | client/src/utils/languageDetection.ts:27-132 | never `other`; blank text and text with fewer than 3 cleaned characters are English; otherwise the answer is the classification of the cleaned text |
| LanguageDetection.ShortTextIsEnglish | client/src/utils/languageDetection.ts:28-30 | text shorter than three characters is English |
| LanguageDetection.AsciiTextIsEnglish | client/src/utils/languageDetection.ts:71-75 | ASCII-only text is English |
| LanguageDetection.KanaMeansJapanese | client/src/utils/languageDetection.ts:77-79 | cleaned text whose non-ASCII characters exceed 30% of its length and which contains a hiragana or katakana character is classified as Japanese, and it passes the Japanese range test |
| LanguageDetection.SharedWordsAreSpanish | client/src/utils/languageDetection.ts:108-113 | accented Latin text with "de", "la" or "un" as a word is Spanish, never French or Portuguese |
| LanguageDetection.GermanNeedsUmlautOrEszett | client/src/utils/languageDetection.ts:125-127 | German without accented letters is reached only through ß |
| LanguageDetection.CyrillicTextIsRussian | client/src/utils/languageDetection.ts:57-99 | any non-empty cleaned text whose characters all lie in U+0400–U+04FF is classified as Russian |
| LanguageDetection.CyrillicExample | client/src/utils/languageDetection.ts:97-99 | the word `Баг` (U+0411 U+0430 U+0433) is classified as Russian |
| LanguageDetection.SparseAccentsReadAsEnglish | client/src/utils/languageDetection.ts:75 | the text `está roto`, one accented letter in nine characters, is classified as English, being under the 30% ratio |
| LanguageDetection.OtherBranchIsDead | client/src/utils/languageDetection.ts:171-173 | an item passes the filter exactly when its detected language is allowed; the `other` branch admits nothing |
| LanguageDetection.DetectedIsCommon | client/src/utils/languageDetection.ts:191 | every language but `other` is on the common list |
| LanguageDetection.FilterByLanguage | client/src/utils/languageDetection.ts:167-199 | all items when nothing or `other` is allowed; otherwise exactly the items whose detected language is allowed, each admitted item as many times as in the input and no other |
| LanguageDetection.FilterByLanguageKeepsOrder | client/src/utils/languageDetection.ts:175-198 | the kept items are a subsequence of the input |
| LanguageDetection.FilterByLanguageIdempotent | client/src/utils/languageDetection.ts:167-199 | filtering twice with the same languages equals filtering once |
| IssueMatcher.LanguageKeywords | client/src/utils/issueMatcher.ts:44-58 | a language's keywords include the language itself, and are only it for a language outside the table |
| IssueMatcher.SharesAddUp | client/src/utils/issueMatcher.ts:66 | the per-item shares of n items never add up to more than the part's points |
| IssueMatcher.FreshPart | client/src/utils/issueMatcher.ts:108-117 | "Recently updated" is given exactly when the issue was updated less than 7 days ago |
| IssueMatcher.MatchScore | client/src/utils/issueMatcher.ts:21-123 | the score lies in 0..100; a profile with no username and no languages scores 0 with no reasons |
| IssueMatcher.LanguagePartBound | client/src/utils/issueMatcher.ts:57-70 | the language part earns between 0 and 40 points |
| IssueMatcher.TopicPartBound | client/src/utils/issueMatcher.ts:85-94 | the topic part earns between 0 and 20 points |
| IssueMatcher.RawScoreBounds | client/src/utils/issueMatcher.ts:21-117 | the five parts add up to between 0 and 100 |
| IssueMatcher.CapNeverApplies | client/src/utils/issueMatcher.ts:120 | the cap at 100 never lowers a score: the score is the rounded sum |
| IssueMatcher.CalculateMatchScore | client/src/utils/issueMatcher.ts:21-123 | the accumulating loops compute exactly the score and the reasons of `MatchScore` |
| IssueMatcher.MatchLanguages | client/src/utils/issueMatcher.ts:57-70 | the language loop adds 40/n per matched language, with one reason each |
| IssueMatcher.MatchRepositories | client/src/utils/issueMatcher.ts:74-82 | the repository loop adds 20 and one reason when a followed repository occurs in the URL |
| IssueMatcher.MatchTopics | client/src/utils/issueMatcher.ts:85-94 | the topic loop adds 20/m per matched topic, with one reason each |
| IssueMatcher.MatchLabels | client/src/utils/issueMatcher.ts:97-105 | the label step adds the beginner bonus and its reason |
| IssueMatcher.MatchFreshness | client/src/utils/issueMatcher.ts:108-117 | the freshness step adds 10 under a week or 5 under 30 days |
| IssueMatcher.BeginnerReasonIff | client/src/utils/issueMatcher.ts:97-105 | "Perfect for beginners" is given exactly when the beginner bonus applies |
| IssueMatcher.FreshReasonIff | client/src/utils/issueMatcher.ts:108-117 | "Recently updated" is among the reasons exactly when the update is under 7 days old |
| IssueMatcher.RepoReasonIff | client/src/utils/issueMatcher.ts:74-82 | the followed-repository reason is given exactly when a followed repository occurs in the URL |
| IssueMatcher.LanguageReasonIff | client/src/utils/issueMatcher.ts:57-70 | a profile language is named in the reasons exactly when the issue matches one of its keywords |
| IssueMatcher.Mentioned | client/src/utils/issueMatcher.ts:139-144 | a name is kept exactly when some reason contains it |
| IssueMatcher.MatchIssues | client/src/utils/issueMatcher.ts:128-149 | the positive-score matches, as a permutation, best first, each score in 1..100 |
| IssueMatcher.MatchIssuesMembers | client/src/utils/issueMatcher.ts:147 | an issue's match is in the result exactly when its score is positive |
| IssueMatcher.MatchIssuesStable | client/src/utils/issueMatcher.ts:148 | matches with equal scores keep their input order |
| IssueMatcher.MatchedLanguagesIncludeFound | client/src/utils/issueMatcher.ts:139-141 | every language the scorer matched is listed in `matchedLanguages` |
| IssueMatcher.MatchedLanguagesOverReport | client/src/utils/issueMatcher.ts:139-141 | the converse fails: the substring test lists language "a", which was not matched, because "Recently updated" contains it |
| QueryBuilder.DifficultyLabels | client/src/utils/queryBuilder.ts:13-53 | an unknown difficulty gives no labels; no excluded label is also an included one |
| QueryBuilder.FrameworkSearch | client/src/utils/queryBuilder.ts:55-79 | non-empty exactly for the 14 known frameworks; `nextjs` becomes `next.js`, the others stay as they are |
| QueryBuilder.LastActivityQuery | client/src/utils/queryBuilder.ts:81-115 | a date bound exactly for the four known activity choices |
| QueryBuilder.PushDifficulty | client/src/utils/queryBuilder.ts:143-171 | the difficulty block appends exactly the difficulty's qualifiers |
| QueryBuilder.PushLaterFilters | client/src/utils/queryBuilder.ts:178-206 | appends the framework, language, category and type qualifiers, in that order |
| QueryBuilder.PushExclusions | client/src/utils/queryBuilder.ts:164-168 | appends one `-label:"l"` per excluded label, in order |
| QueryBuilder.PushLabels | client/src/utils/queryBuilder.ts:209-211 | appends one `label:"l"` per selected label, in order |
| QueryBuilder.StartParts | client/src/utils/queryBuilder.ts:118-141 | the parts open with the three fixed qualifiers and the date bound |
| QueryBuilder.FinishQuery | client/src/utils/queryBuilder.ts:214-233 | joins the parts with spaces, adding the default group when nothing is chosen |
| QueryBuilder.PushFilters | client/src/utils/queryBuilder.ts:143-211 | appends all the filter qualifiers in the source's order |
| QueryBuilder.BuildGitHubQuery | client/src/utils/queryBuilder.ts:117-234 | the built query equals the query the selection specifies |
| QueryBuilder.DateQualifierCutoff | client/src/utils/queryBuilder.ts:88-103 | the date bound is `updated:>` and the date 7, 30, 90 or 30 days back for the four choices, and 30 days back for anything else |
| QueryBuilder.QueryStartsWithBaseAndDate | client/src/utils/queryBuilder.ts:120-141 | every query starts with `state:open type:issue no:assignee` and the date bound |
| QueryBuilder.OneDateBound | client/src/utils/queryBuilder.ts:130-211 | no qualifier after the date bound starts with `updated:>`, except the user's own search text |
| QueryBuilder.AdvancedMatchesTable | client/src/utils/queryBuilder.ts:146-154 | advanced emits the six-label OR group of the table and then its five negated labels |
| QueryBuilder.AdvancedSameParts | client/src/utils/queryBuilder.ts:146-154 | with advanced chosen, the qualifiers do not depend on categories or type |
| QueryBuilder.AdvancedIgnoresCategoriesAndType | client/src/utils/queryBuilder.ts:192-202 | with advanced chosen, the six advanced qualifiers lead the filters and the query ignores categories and type |
| QueryBuilder.BeginnerParts | client/src/utils/queryBuilder.ts:17-22 | beginner emits one OR group of the two "good first issue" spellings and no exclusion |
| QueryBuilder.IntermediateParts | client/src/utils/queryBuilder.ts:23-31 | intermediate emits the help-wanted OR group and then excludes both "good first issue" spellings |
| QueryBuilder.UnknownDifficultyAddsNothing | client/src/utils/queryBuilder.ts:52 | a difficulty outside the three levels adds no qualifier |
| QueryBuilder.CategoriesAreAlternatives | client/src/utils/queryBuilder.ts:192-199 | the categories give one qualifier, and every selected category is an alternative in it |
| QueryBuilder.TypeNotDuplicated | client/src/utils/queryBuilder.ts:202-206 | the type step adds its one label qualifier exactly when advanced is not chosen, a type is chosen and it is not already a selected category, and that qualifier is then among the query's qualifiers |
| QueryBuilder.NoFilterNoParts | client/src/utils/queryBuilder.ts:130-211 | without any filter no qualifier follows the 30-day date bound |
| QueryBuilder.FallbackExactlyWithoutFilters | client/src/utils/queryBuilder.ts:216-231 | the default group is appended exactly when no filter is chosen |
| QueryBuilder.LicenseOnlyGivesBarePrefix | client/src/utils/queryBuilder.ts:220 | a licence alone counts as a filter but adds nothing, so the query is the bare base and date |
| QueryBuilder.SameQueryFromSameParts | client/src/utils/queryBuilder.ts:214-233 | the query depends on the selection only through its qualifiers and whether a filter is chosen |
| QueryBuilder.BlankSearchIgnored | client/src/utils/queryBuilder.ts:174-176 | a search term of white space only is the same as none |
| Security.RemoveAngles | client/src/utils/security.ts:16 | every character but `<` and `>` is kept, and nothing else appears |
| Security.RemoveProtocol | client/src/utils/security.ts:17 | removing `javascript:` only deletes characters |
| Security.HandlerMatchIff | client/src/utils/security.ts:18 | the handler pattern matches a prefix exactly when that prefix is `on`, word characters and `=` |
| Security.RemoveHandlers | client/src/utils/security.ts:18 | removing handler attributes only deletes characters |
| Security.SanitizeInput | client/src/utils/security.ts:9-21 | at most 200 characters, no angle bracket, every character from the input |
| Security.SanitizeSearchQuery | client/src/utils/security.ts:83-94 | at most 500 characters, no angle bracket, every character from the input |
| Security.RemoveAnglesNone | client/src/utils/security.ts:16 | text without angle brackets is unchanged |
| Security.ProtocolCaseIgnored | client/src/utils/security.ts:17 | the protocol is removed in any letter case |
| Security.RemoveHandlersFront | client/src/utils/security.ts:18 | a handler attribute at the front is dropped whatever follows it |
| Security.SinglePassLeavesProtocol | client/src/utils/security.ts:9-21 | the single pass turns `java` + `javascript:` + `script:` into `javascript:`, so the sanitised text can still hold the protocol |
| Security.HandlersKeptInQueries | client/src/utils/security.ts:83-94 | `sanitizeInput` drops `onclick=`, while `sanitizeSearchQuery` keeps it |
| Security.ValidateGitHubUsername | client/src/utils/security.ts:27-50 | valid exactly when the trimmed name has 1 to 39 characters and matches the pattern; every error is one of the four messages |
| Security.UsernamePatternIff | client/src/utils/security.ts:43 | the pattern means letters, digits and hyphens, starting and ending with a letter or digit |
| Security.ValidationErrors | client/src/utils/security.ts:28-47 | empty gives "required", blank gives "cannot be empty", too long gives "too long", a bad character gives the format message |
| Security.ValidUsernameHyphens | client/src/utils/security.ts:43 | a valid name neither starts nor ends with a hyphen |
| Security.DoubleHyphenAccepted | client/src/utils/security.ts:43 | two hyphens in a row are accepted |
| Security.EscapeChar | client/src/utils/security.ts:104-112 | a character is replaced exactly when it is one of the five special ones, and the replacement has no markup |
| Security.EscapeHtml | client/src/utils/security.ts:99-113 | the result has no `<`, `>`, `"` or `'`, and is as long as the input exactly when nothing needed escaping |
| Security.EscapeRoundTrip | client/src/utils/security.ts:99-113 | decoding the entities of the escaped text gives the text back |
| Security.Recent | client/src/utils/security.ts:149 | keeps exactly the timestamps less than the window old |
| Security.Admit | client/src/utils/security.ts:144-159 | a call is allowed exactly when fewer than the maximum recent calls are stored; an allowed call stores the recent timestamps followed by `now`, which leaves at most the maximum in the window; a refused one changes nothing |
| Security.RateLimiter.constructor | client/src/utils/security.ts:139-142 | stores the limits, with no history |
| Security.RateLimiter.IsAllowed | client/src/utils/security.ts:144-159 | answers as `Admit` does, and stores the pruned history and the call only when allowed |
| Security.RateLimiter.Reset | client/src/utils/security.ts:161-163 | forgets exactly the one identifier |
| Security.AtMostMaxPerWindow | client/src/utils/security.ts:149-157 | with a clock that never runs backwards, no window holds more than the maximum allowed calls of one identifier |
| ContributionTracker.ImpactScore | client/src/utils/contributionTracker.ts:72-96 | at most 100, and not negative for non-negative counts |
| ContributionTracker.ImpactCapNeverApplies | client/src/utils/contributionTracker.ts:95 | the caps add up to 100, so the outer cap never lowers the score |
| ContributionTracker.MissingCountsAsZero | client/src/utils/contributionTracker.ts:76-92 | a missing count scores like a zero |
| ContributionTracker.ImpactMonotone | client/src/utils/contributionTracker.ts:76-95 | a larger count never lowers the score |
| ContributionTracker.ImpactReachesHundred | client/src/utils/contributionTracker.ts:76-95 | 60 closed issues, 50 merged pull requests, 200 commits, 50 reviews and a 20-day streak score 100 |
| ContributionTracker.Tier | client/src/utils/contributionTracker.ts:367 | rare below the epic threshold, epic up to the legendary one, legendary from it |
| ContributionTracker.GenerateAchievements | client/src/utils/contributionTracker.ts:336-408 | the sequential ifs build exactly the achievement list the thresholds specify |
| ContributionTracker.AchievementKinds | client/src/utils/contributionTracker.ts:347-405 | an achievement is present exactly when its threshold is reached, in the source's fixed order |
| ContributionTracker.AchievementRarity | client/src/utils/contributionTracker.ts:355-403 | the first contribution is common; the others are tiered by their own count, at 50/100 or 100/365 for the streak |
| ContributionTracker.CalculateStreaks | client/src/utils/contributionTracker.ts:285-331 | the current streak is the run of consecutive days back from today or yesterday, the longest is the longest run, current <= longest, and longest is 0 exactly for no dates |
| ContributionTracker.CurrentStreak | client/src/utils/contributionTracker.ts:299-313 | the first loop counts exactly the run of consecutive days back from the anchor |
| ContributionTracker.LongestStreak | client/src/utils/contributionTracker.ts:315-328 | the second loop finds the length of the longest run of consecutive days |
| ContributionTracker.CurrentStreakNeedsRecentDay | client/src/utils/contributionTracker.ts:300-313 | a non-zero current streak needs a contribution today or yesterday |
| ContributionTracker.ContributionOf | client/src/utils/contributionTracker.ts:150-205 | an event counts exactly when it is an opened or closed issue, a merged pull request or a push; it keeps the event's id and repository and is never a review |
| ContributionTracker.ProcessEvents | client/src/utils/contributionTracker.ts:146-206 | the loop collects the contributions in event order, their repositories, and the distinct days of all events in first-seen order |
| ContributionTracker.ReviewsAlwaysZero | client/src/utils/contributionTracker.ts:212 | no event becomes a review, so the review count is always 0 |
| ContributionTracker.MergedPrsCountEvents | client/src/utils/contributionTracker.ts:171 | the merged-pull-request count is the number of closed and merged pull-request events |
| ContributionTracker.ContributionsAtMostEvents | client/src/utils/contributionTracker.ts:146-206 | there is at most one contribution per event |
| ContributionTracker.BuildContributionTimeline | client/src/utils/contributionTracker.ts:413-431 | the map filling and the sort produce exactly the timeline specified by the grouping |
| ContributionTracker.FillTimelineMap | client/src/utils/contributionTracker.ts:414-422 | the map has one key per distinct day, in first-seen order, each holding that day's contributions in input order |
| ContributionTracker.TimelineFacts | client/src/utils/contributionTracker.ts:413-431 | one item per distinct day, newest first, each holding and counting that day's contributions; the counts add up to the number of contributions |
| ContributionTracker.WindowsNest | client/src/utils/contributionTracker.ts:222-238 | a longer window never counts fewer contributions than a shorter one |
| ContributionTracker.DateRange | client/src/utils/contributionTracker.ts:215-220 | the first and last dates are the earliest and latest days, or today when there is none |
| ContributionTracker.TimeWindows | client/src/utils/contributionTracker.ts:222-238 | the week, month and year counts are the contributions at or after 7, 30 and 365 days before now, and week <= month <= year <= all |
| ContributionTracker.CollectStats | client/src/utils/contributionTracker.ts:208-271 | the statistics before the impact step: the counts, streaks, date range, windows and achievements, each tied to its definition; 0 reviews; impact score 0 |
| ContributionTracker.Summarize | client/src/utils/contributionTracker.ts:208-276 | the statistics: as above, with the impact score computed from the counts and the current streak, within 0..100 |
| Bounty.HasBountyLabelIff | client/src/components/BountyIssues.tsx:297-304 | some label names a keyword, and an empty list has none |
| Bounty.BodyGuardIsRedundant | client/src/components/BountyIssues.tsx:307-336 | an issue is a bounty issue exactly when its labels, title or body name a keyword |
| Bounty.Verify | client/src/components/BountyIssues.tsx:132-167 | only open, unassigned issues; non-empty when any is open; when some open unassigned issue is a bounty issue, exactly those bounty issues in input order; all the open ones when none is |
| Bounty.VerifyKeepsOrder | client/src/components/BountyIssues.tsx:155-167 | the verified issues keep the input order, and every open unassigned bounty issue is among them whenever one exists |
| Bounty.Unseen | client/src/components/BountyIssues.tsx:91-96 | a subsequence of the input with distinct ids, none of them seen before, holding the first occurrence of every unseen id |
| Bounty.CollectResponses | client/src/components/BountyIssues.tsx:69-128 | the query loop collects the unseen items of the successful queries, extends the seen set by their ids and counts the successes |
| Bounty.CollectItems | client/src/components/BountyIssues.tsx:90-96 | one query's items are added after those of the earlier queries, skipping the seen ids |
| Bounty.CollectOne | client/src/components/BountyIssues.tsx:91-95 | one item is appended and its id recorded exactly when its id was not seen |
| Bounty.MergeKeepsTieOrder | client/src/components/BountyIssues.tsx:204-209 | issues created at the same time are shown in candidate order, new issues before kept ones, as the stable sort leaves them |
| Bounty.Merge | client/src/components/BountyIssues.tsx:202-209 | the new issues and the kept bounty issues, newest first, cut to 30: the result is drawn from them, and any of them left out is no newer than every issue shown, which then number 30 |
| Bounty.BountyFeed.constructor | client/src/components/BountyIssues.tsx:239-250 | on mount nothing is shown and nothing has been seen |
| Bounty.BountyFeed.Fetch | client/src/components/BountyIssues.tsx:53-236 | one completed fetch moves the feed to the specified next state |
| Bounty.StepKeepsValid | client/src/components/BountyIssues.tsx:53-236 | after a fetch the feed still shows at most 30 distinct seen issues, newest first |
| Bounty.StepErrorIff | client/src/components/BountyIssues.tsx:170-182 | the error is set exactly when every query failed on a manual fetch |
| Bounty.StepItemsOrigin | client/src/components/BountyIssues.tsx:193-209 | every issue shown is new, open and unassigned, or was shown before and still passes the bounty test; conversely a verified issue not on screen, or a kept bounty issue, is shown unless 30 issues no older than it are |
| Bounty.FallbackItemsDropped | client/src/components/BountyIssues.tsx:164-167 | an issue admitted by the fallback that is not a bounty issue is dropped at the next fetch |
| Bounty.ManualRefreshShowsOnlyUnseen | client/src/components/BountyIssues.tsx:268-270 | a manual refresh shows only issues no earlier fetch verified, so one that returns the same issues again shows none |
| Bounty.StepNewItemsCount | client/src/components/BountyIssues.tsx:196-200 | the new-items counter changes only on a silent fetch |
| Bounty.CollectedAreNew | client/src/components/BountyIssues.tsx:91-96 | within one fetch the collected items keep query order, no id is collected twice, none seen before is collected, and the first occurrence of every unseen id is |
| RequestCache.Cache.constructor | client/src/utils/requestCache.ts:8 | the cache starts empty |
| RequestCache.Cache.GetCached | client/src/utils/requestCache.ts:10-20 | returns the entry's data while unexpired and deletes an expired entry |
| RequestCache.Cache.SetCached | client/src/utils/requestCache.ts:22-28 | stores the data with its expiry under the key |
| RequestCache.Cache.ClearCache | client/src/utils/requestCache.ts:30-32 | empties the cache |
| RequestCache.Cache.InvalidateCache | client/src/utils/requestCache.ts:34-45 | deletes the matching keys, or every key without a pattern |
| RequestCache.MissingKeyMisses | client/src/utils/requestCache.ts:11-12 | a key never stored misses and changes nothing |
| RequestCache.ExpiryBoundary | client/src/utils/requestCache.ts:14-19 | after the expiry an entry misses and is deleted; at the expiry instant it is still served |
| RequestCache.LookupTouchesOnlyItsKey | client/src/utils/requestCache.ts:14-16 | a read never changes another entry |
| RequestCache.GetAfterSet | client/src/utils/requestCache.ts:10-28 | a read within the duration after a store returns the stored data |
| RequestCache.SetKeepsOthers | client/src/utils/requestCache.ts:22-28 | a store changes no other key |
| RequestCache.InvalidateExactly | client/src/utils/requestCache.ts:40-44 | invalidation removes exactly the keys containing the pattern and keeps the rest as they were |
| RequestCache.EmptyPatternMatchesEveryKey | client/src/utils/requestCache.ts:35-38 | every key contains the empty pattern |
| RequestCache.InvalidateIdempotent | client/src/utils/requestCache.ts:34-45 | invalidating twice with one pattern is invalidating once |
| SearchHistory.AddedShape | client/src/hooks/useSearchHistory.ts:23-27 | a blank term changes nothing; otherwise the trimmed term is followed by the first nine earlier entries that differ from it ignoring case, in their former order, so an earlier differing entry is dropped only when the list is full at ten |
| SearchHistory.AddedKeepsDistinct | client/src/hooks/useSearchHistory.ts:26-27 | adding keeps the entries distinct ignoring case |
| SearchHistory.AddedIdempotent | client/src/hooks/useSearchHistory.ts:26-27 | adding the same term twice equals adding it once |
| SearchHistory.SameKeySameHistory | client/src/hooks/useSearchHistory.ts:26-27 | terms that differ only in surrounding white space give the same list |
| SearchHistory.History.constructor | client/src/hooks/useSearchHistory.ts:7 | the list starts empty |
| SearchHistory.History.AddToHistory | client/src/hooks/useSearchHistory.ts:22-36 | the list becomes the added list and stays capped and distinct |
| SearchHistory.History.ClearHistory | client/src/hooks/useSearchHistory.ts:38-44 | the list becomes empty |
| SavedIssues.SaveTwiceKeepsFirst | client/src/hooks/useSavedIssues.ts:33-35 | saving a saved id changes nothing, not even its save time |
| SavedIssues.SaveAppends | client/src/hooks/useSavedIssues.ts:36 | saving a new id appends it with the current time |
| SavedIssues.SaveKeepsIdsUnique | client/src/hooks/useSavedIssues.ts:33-36 | saving keeps the ids unique |
| SavedIssues.RemoveKeepsIdsUnique | client/src/hooks/useSavedIssues.ts:46 | removing keeps the ids unique |
| SavedIssues.IsSavedAfterSave | client/src/hooks/useSavedIssues.ts:31-43 | after a save an id is saved exactly when it is the saved one or was saved before |
| SavedIssues.IsSavedAfterRemove | client/src/hooks/useSavedIssues.ts:45-58 | after a remove an id is saved exactly when it is another id that was saved before |
| SavedIssues.RemoveKeepsOrder | client/src/hooks/useSavedIssues.ts:47 | removing keeps the other entries unchanged and in order |
| SavedIssues.SavedList.constructor | client/src/hooks/useSavedIssues.ts:16 | the list starts empty |
| SavedIssues.SavedList.SaveIssue | client/src/hooks/useSavedIssues.ts:31-43 | the list becomes the saved list, ids still unique |
| SavedIssues.SavedList.RemoveIssue | client/src/hooks/useSavedIssues.ts:45-54 | the list becomes the list without that id, ids still unique |
| SavedIssues.SavedList.IsSaved | client/src/hooks/useSavedIssues.ts:56-58 | reports whether some entry has the id |
| SavedIssues.SavedList.ClearAll | client/src/hooks/useSavedIssues.ts:60-66 | the list becomes empty |
| IssuesPage.PageParams | client/src/pages/IssuesPage.tsx:43-54 | the page passes its selection through and never sets a licence |
| IssuesPage.ToggleLabelRemoves | client/src/pages/IssuesPage.tsx:27-28 | toggling a present label removes every copy and keeps the others in order |
| IssuesPage.ToggleLabelAppends | client/src/pages/IssuesPage.tsx:28 | toggling an absent label appends it |
| IssuesPage.ToggleLabelTwice | client/src/pages/IssuesPage.tsx:28 | toggling an absent label twice restores the list |
| IssuesPage.ToggleAll | client/src/pages/IssuesPage.tsx:33-35 | the `all` toggle switches between no category and `all` alone |
| IssuesPage.ToggleCategoryKeepsAllAlone | client/src/pages/IssuesPage.tsx:31-41 | `all` never shares the list with another category |
| IssuesPage.ToggleOtherCategory | client/src/pages/IssuesPage.tsx:36-39 | toggling another category leaves `all` out; it is present afterwards exactly when it was absent before |
| IssuesPage.TogglePresentCategory | client/src/pages/IssuesPage.tsx:36-38 | a present category is removed with every copy |
| IssuesPage.ToggleCategoryAppends | client/src/pages/IssuesPage.tsx:39 | an absent category is appended after the others, `all` removed |
| IssuesPage.InitialPageQuery | client/src/pages/IssuesPage.tsx:43-54 | with nothing chosen the page searches the base, the 30-day bound and the default group |
| IssuesPage.PageFallbackIff | client/src/pages/IssuesPage.tsx:43-54 | the default group is appended exactly when the page has nothing chosen |
| IssuesPage.AllCategoryIsNoCategory | client/src/pages/IssuesPage.tsx:43-54 | choosing `all` alone gives the same query as choosing no category |
| CategoriesPage.NoFilterShowsAll | client/src/pages/CategoriesPage.tsx:185-202 | with no search and no difficulty all ten categories show, in table order |
| CategoriesPage.FilteredIff | client/src/pages/CategoriesPage.tsx:188-199 | a category shows exactly when it matches the search in label, description or key and has the chosen difficulty |
| CategoriesPage.FilteredInOrder | client/src/pages/CategoriesPage.tsx:185-202 | the categories shown keep the table's order |
| CategoriesPage.DifficultyToggle | client/src/pages/CategoriesPage.tsx:165-167 | clicking the chosen difficulty clears it, clicking another chooses it |
| RepositoryList.MergePage | client/src/components/RepositoryList.tsx:31-42 | the merge loop appends to the previous list the fetched items with a new id, in fetch order |
| RepositoryList.MergeKeepsPrefix | client/src/components/RepositoryList.tsx:33-35 | the previous items stay unchanged at the front |
| RepositoryList.MergeAppendsNewIds | client/src/components/RepositoryList.tsx:36-38 | exactly the fetched items whose id was not listed are appended, in fetch order |
| RepositoryList.MergeSamePageTwice | client/src/components/RepositoryList.tsx:31-42 | merging the same page twice equals merging it once |
| RepositoryList.DuplicatesInOnePageKept | client/src/components/RepositoryList.tsx:36-38 | duplicates within one fetched page are both kept |
| RepositoryList.SearchModeBoundary | client/src/components/RepositoryList.tsx:21 | search mode needs two characters after trimming |
| RepositoryList.CanLoadMoreNeedsTotal | client/src/components/RepositoryList.tsx:44-45 | nothing more can be loaded without a reported total |
| RepositoryList.ListState.constructor | client/src/components/RepositoryList.tsx:12-17 | page one, sorted by stars, nothing listed |
| RepositoryList.ListState.SetView | client/src/components/RepositoryList.tsx:26-29 | a new language or sort resets to page one with no items; the same ones change nothing |
| RepositoryList.ListState.LoadMore | client/src/components/RepositoryList.tsx:258 | moves to the next page and keeps the items |
| RepositoryList.ListState.Receive | client/src/components/RepositoryList.tsx:31-42 | a page with items is merged in, anything else changes nothing |
| LiveContributions.ToContribution | client/src/hooks/useLiveContributions.ts:79-116 | absent login and repository read "unknown"; the link is built from the raw name; id, type and time are kept |
| LiveContributions.ToContributions | client/src/hooks/useLiveContributions.ts:79-116 | one contribution per event, in order |
| LiveContributions.TransformShape | client/src/hooks/useLiveContributions.ts:77-121 | at most `limit` contributions, each of a meaningful type, in event order |
| LiveContributions.OnlyFirstEventsMatter | client/src/hooks/useLiveContributions.ts:78 | events after the first `2 * limit` never matter |
| LiveContributions.FullFeed | client/src/hooks/useLiveContributions.ts:117-121 | with enough meaningful events exactly `limit` are shown |
| LiveContributions.Feed.constructor | client/src/hooks/useLiveContributions.ts:45-50 | nothing shown, loading, no error, never fetched |
| LiveContributions.Feed.FetchContributions | client/src/hooks/useLiveContributions.ts:52-130 | within 30 seconds of the last fetch nothing changes; otherwise the transformed events are shown, or the error is kept with the old list |
| LiveContributions.Feed.Refresh | client/src/hooks/useLiveContributions.ts:148-151 | forgets the last fetch time and fetches |
| PersonalizedIssues.NoItemsNoMatches | client/src/hooks/usePersonalizedIssues.ts:26-29 | no fetched issue gives no match |
| PersonalizedIssues.UnscoredPrefix | client/src/hooks/usePersonalizedIssues.ts:31-41 | without a usable profile, the first `limit` issues in order, each with score 0 and no reason |
| PersonalizedIssues.ScoredMatches | client/src/hooks/usePersonalizedIssues.ts:43-45 | with a usable profile, the best `limit` of the scored matches, best first: as many as there are up to `limit`, drawn from them, each scoring 1..100, and any match left out scores no higher than every one shown |
| PersonalizedIssues.AtMostLimit | client/src/hooks/usePersonalizedIssues.ts:34-45 | never more than `limit` entries |
| PersonalizedIssues.EmptyListsAreUsable | client/src/hooks/usePersonalizedIssues.ts:31 | an empty language list still counts as a profile |
| PersonalizedIssues.ProfileState.constructor | client/src/hooks/usePersonalizedIssues.ts:18-21 | no profile, no error, not loading |
| PersonalizedIssues.ProfileState.LoadProfileFromGitHub | client/src/hooks/usePersonalizedIssues.ts:48-69 | a blank name clears the profile; a profile with a username is stored; one without keeps the old profile and sets the not-found error; a thrown error is stored |

## Left out

- Network I/O is not modelled: every `fetch`, `AbortController`, the 800 ms delay between bounty queries, the 2 s cooldown after a 403 and the polling timers. The query results and the profile lookup are parameters. This covers `fetchBountyIssues` up to its query loop, `fetchContributorData` up to its events response, `fetchUserProfile` and `fetchRepositoryLanguages`.
- The category-count request loop of the categories page (client/src/pages/CategoriesPage.tsx:128-159) is I/O. Its click handler that navigates (169-176) and `formatCount` (178-183) are presentation.
- Concurrency and React timing are not modelled: overlapping fetches, stale closures and batched state updates. Each method runs to completion.
- The bounty feed's 5-second reset of the new-items counter is a timer and is not modelled. A fetch that is aborted part-way is not modelled either: `Fetch` models one fetch that runs to its end.
- localStorage persistence of the search history and the saved issues is not modelled. The lists live in memory.
- Clock reads and date parsing are parameters. `Date.now()` is an integer of milliseconds. Calendar days are day numbers, or a `Date` record where the query builder reads the local calendar. Time zones and ISO-string parsing are not modelled.
- Floating-point arithmetic is replaced by exact reals, so IEEE rounding at `.5` ties and accumulated error are not reproduced.
- The regular-expression engine is not modelled. Each pattern is a matching function on code points. The script patterns of `detectLanguage` lack the `g` flag, so their counts are presence flags, as in the model.
- Unicode casing is not modelled. `toLowerCase` lowers ASCII letters only. Strings are code points, not UTF-16 units.
- `sanitizeUrl` and `isGitHubUrl` depend on the WHATWG URL parser, a foreign library.
- `getBrowserLanguage` reads `navigator`.
- Rendering, console logging and display-only formatting helpers are not modelled.
- The `payload` of a live event is passed through untouched by the source and is not modelled.
- The display-only fields of a contribution are not modelled: its URL, update, close and merge times, labels and line counts.
- DifficultyLabels, FrameworkSearch, UnknownDifficultyAddsNothing, LanguageKeywords: the difficulty, framework and language-keyword tables are modelled as maps holding only their listed keys, so an inherited object key such as `constructor` or `toString` is an unknown key here. In the source such a key finds a truthy value (client/src/utils/queryBuilder.ts:52, :75; client/src/utils/issueMatcher.ts:58). A difficulty of `constructor` makes the include-list read at queryBuilder.ts line 156 throw, and a profile language of `constructor` makes the keyword scan at issueMatcher.ts line 59 throw. The page's controls never produce such difficulties or frameworks; profile languages come from GitHub's language names.
- The current streak steps back one local calendar day at a time and keys days by their UTC date string (client/src/utils/contributionTracker.ts:305-307). The model steps back exactly one day, so the skipped or repeated day the source can produce across a daylight-saving change is not reproduced.
