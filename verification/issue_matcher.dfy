/**
 * Scoring issues against a contributor profile
 * (client/src/utils/issueMatcher.ts).
 *
 * The score is exact real arithmetic: each matched profile language adds
 * 40/n, a followed repository 20, each matched topic 20/m, a beginner label
 * 10 and a recent update 10 or 5; the sum is rounded half up and capped at
 * 100. `CalculateMatchScore` computes it the way the source does, with
 * loops; `MatchScore` is the specification it is proved against.
 */
module IssueMatcher {
  import opened Wrappers
  import opened Text
  import opened Seqs
  import opened Sorting
  import opened GitHub
  import Freshness
  import opened JsMath

  /**
   * A contributor profile. An absent or empty `username` is `""`; the
   * lists are optional because `matchIssues` and the personalised-issues
   * hook tell an absent list from an empty one.
   */
  datatype UserProfile = UserProfile(
    username: string,
    languages: Option<seq<string>>,
    repositories: Option<seq<string>>,
    contributions: Option<int>,
    preferredTopics: Option<seq<string>>
  )

  datatype Scored = Scored(score: int, reasons: seq<string>)

  datatype IssueMatch = IssueMatch(
    issue: Issue,
    matchScore: int,
    reasons: seq<string>,
    matchedLanguages: Option<seq<string>>,
    matchedTopics: Option<seq<string>>
  )

  /** The parts of an issue the scorer reads: lower-cased title and body, the repository URL and its last path segment. */
  datatype IssueText = IssueText(title: string, body: string, repoUrl: string, repoName: string)

  function TextOf(issue: Issue): IssueText {
    IssueText(Lower(issue.title), Lower(issue.body), issue.repositoryUrl, AfterLast(issue.repositoryUrl, '/'))
  }

  // ---------------------------------------------------------------------
  // Languages

  const LanguageTable: map<string, seq<string>> := map[
    "javascript" := ["javascript", "js", "node", "react", "vue", "angular"],
    "typescript" := ["typescript", "ts", "tsx"],
    "python" := ["python", "py", "django", "flask", "pandas"],
    "java" := ["java", "spring", "maven"],
    "go" := ["go", "golang"],
    "rust" := ["rust", "rs"],
    "php" := ["php", "laravel", "symfony"],
    "ruby" := ["ruby", "rails"],
    "cpp" := ["c++", "cpp", "cplusplus"],
    "csharp" := ["c#", "csharp", ".net"]
  ]

  /** `languageKeywords[key] || [key]`: every key lists itself among its keywords. */
  function LanguageKeywords(key: string): (ks: seq<string>)
    ensures key in ks
    ensures key !in LanguageTable ==> ks == [key]
  {
    if key in LanguageTable then LanguageTable[key] else [key]
  }

  /** Some keyword of `lang` occurs in the title, the body or the repository name. */
  predicate LanguageFound(lang: string, t: IssueText) {
    var ks := LanguageKeywords(Lower(lang));
    exists k | 0 <= k < |ks| ::
      Contains(t.title, ks[k]) || Contains(t.body, ks[k]) || Contains(Lower(t.repoName), ks[k])
  }

  function LanguageTest(t: IssueText): string -> bool {
    lang => LanguageFound(lang, t)
  }

  function LanguageReason(lang: string): string {
    "Matches your " + lang + " experience"
  }

  function LanguageReasons(langs: seq<string>): (r: seq<string>)
    ensures |r| == |langs|
    ensures forall i :: 0 <= i < |r| ==> r[i] == LanguageReason(langs[i])
    decreases |langs|
  {
    if langs == [] then []
    else LanguageReasons(langs[..|langs| - 1]) + [LanguageReason(langs[|langs| - 1])]
  }

  // ---------------------------------------------------------------------
  // Topics

  predicate TopicFound(topic: string, t: IssueText) {
    Contains(t.title, Lower(topic)) || Contains(t.body, Lower(topic))
  }

  function TopicTest(t: IssueText): string -> bool {
    topic => TopicFound(topic, t)
  }

  function TopicReason(topic: string): string {
    "Related to " + topic
  }

  function TopicReasons(topics: seq<string>): (r: seq<string>)
    ensures |r| == |topics|
    ensures forall i :: 0 <= i < |r| ==> r[i] == TopicReason(topics[i])
    decreases |topics|
  {
    if topics == [] then []
    else TopicReasons(topics[..|topics| - 1]) + [TopicReason(topics[|topics| - 1])]
  }

  // ---------------------------------------------------------------------
  // Shares

  /** `share` added once for every item that passes `found`, in order. */
  function Points(items: seq<string>, found: string -> bool, share: real): real
    decreases |items|
  {
    if items == [] then 0.0
    else Points(items[..|items| - 1], found, share) + (if found(items[|items| - 1]) then share else 0.0)
  }

  /** `points / n`, or nothing when there is nothing to share it among. */
  function Share(points: real, n: nat): real {
    if n == 0 then 0.0 else points / (n as real)
  }

  lemma {:induction false} PointsBound(items: seq<string>, found: string -> bool, share: real)
    requires 0.0 <= share
    ensures 0.0 <= Points(items, found, share) <= (|items| as real) * share
    decreases |items|
  {
    if items != [] {
      PointsBound(items[..|items| - 1], found, share);
      assert (|items| as real) * share == ((|items| - 1) as real) * share + share;
    }
  }

  /** Matching every one of n items earns the whole of `points`, never more. */
  lemma SharesAddUp(items: seq<string>, found: string -> bool, points: real)
    requires 0.0 <= points
    ensures 0.0 <= Points(items, found, Share(points, |items|)) <= points
  {
    var n := |items|;
    PointsBound(items, found, Share(points, n));
    if n > 0 {
      assert (n as real) * (points / (n as real)) == points;
    }
  }

  // ---------------------------------------------------------------------
  // The other criteria

  const RepoReason: string := "From a repository you follow"
  const BeginnerReason: string := "Perfect for beginners"
  const FreshReason: string := "Recently updated"

  const BeginnerKeywords: seq<string> := ["good first issue", "beginner", "first-timers-only", "starter"]

  /** Some followed repository, lower-cased, occurs in the lower-cased repository URL. */
  predicate RepoFollowed(repos: seq<string>, url: string) {
    exists k | 0 <= k < |repos| :: Contains(Lower(url), Lower(repos[k]))
  }

  /** A beginner label, for someone with fewer than five contributions (or none recorded). */
  predicate BeginnerBonus(issue: Issue, profile: UserProfile) {
    SomeLabelContains(issue.labels, BeginnerKeywords)
    && (profile.contributions.None? || profile.contributions.value < 5)
  }

  // ---------------------------------------------------------------------
  // The score

  /** The early return: neither a username nor a language. */
  predicate NoProfile(profile: UserProfile) {
    profile.username == "" && (profile.languages.None? || |profile.languages.value| == 0)
  }

  /** What one criterion contributes: points and reasons. */
  datatype Part = Part(points: real, reasons: seq<string>)

  /** 40/n for each matched language of the n in the profile. */
  function LanguagePart(langs: seq<string>, t: IssueText): Part {
    Part(Points(langs, LanguageTest(t), Share(40.0, |langs|)), LanguageReasons(Filter(langs, LanguageTest(t))))
  }

  /** 20 once if some followed repository occurs in the URL. */
  function RepoPart(repos: seq<string>, url: string): Part {
    if RepoFollowed(repos, url) then Part(20.0, [RepoReason]) else Part(0.0, [])
  }

  /** 20/m for each matched topic of the m preferred ones. */
  function TopicPart(topics: seq<string>, t: IssueText): Part {
    Part(Points(topics, TopicTest(t), Share(20.0, |topics|)), TopicReasons(Filter(topics, TopicTest(t))))
  }

  function BeginnerPart(issue: Issue, profile: UserProfile): Part {
    if BeginnerBonus(issue, profile) then Part(10.0, [BeginnerReason]) else Part(0.0, [])
  }

  /** 10 under 7 days since the update, 5 (without a reason) under 30, nothing without an update time. */
  function FreshPart(updatedAt: Option<int>, now: int): (p: Part)
    ensures FreshReason in p.reasons <==> updatedAt.Some? && now - updatedAt.value < 7 * Freshness.MsPerDay
  {
    if updatedAt.None? then Part(0.0, [])
    else if now - updatedAt.value < 7 * Freshness.MsPerDay then Part(10.0, [FreshReason])
    else if now - updatedAt.value < 30 * Freshness.MsPerDay then Part(5.0, [])
    else Part(0.0, [])
  }

  /** The five criteria, in the order the source applies them. */
  function RawScore(issue: Issue, profile: UserProfile, now: int): real {
    var t := TextOf(issue);
    LanguagePart(profile.languages.GetOr([]), t).points
    + RepoPart(profile.repositories.GetOr([]), issue.repositoryUrl).points
    + TopicPart(profile.preferredTopics.GetOr([]), t).points
    + BeginnerPart(issue, profile).points
    + FreshPart(issue.updatedAt, now).points
  }

  function MatchReasons(issue: Issue, profile: UserProfile, now: int): seq<string> {
    var t := TextOf(issue);
    LanguagePart(profile.languages.GetOr([]), t).reasons
    + RepoPart(profile.repositories.GetOr([]), issue.repositoryUrl).reasons
    + TopicPart(profile.preferredTopics.GetOr([]), t).reasons
    + BeginnerPart(issue, profile).reasons
    + FreshPart(issue.updatedAt, now).reasons
  }

  /** `calculateMatchScore(issue, profile)` at time `now`. */
  function MatchScore(issue: Issue, profile: UserProfile, now: int): (r: Scored)
    ensures 0 <= r.score <= 100
    ensures NoProfile(profile) ==> r == Scored(0, [])
  {
    if NoProfile(profile) then Scored(0, [])
    else
      var raw := RawScore(issue, profile, now);
      RawScoreBounds(issue, profile, now);
      Scored(if Round(raw) < 100 then Round(raw) else 100, MatchReasons(issue, profile, now))
  }

  lemma LanguagePartBound(langs: seq<string>, t: IssueText)
    ensures 0.0 <= LanguagePart(langs, t).points <= 40.0
  {
    SharesAddUp(langs, LanguageTest(t), 40.0);
  }

  lemma TopicPartBound(topics: seq<string>, t: IssueText)
    ensures 0.0 <= TopicPart(topics, t).points <= 20.0
  {
    SharesAddUp(topics, TopicTest(t), 20.0);
  }

  /** The parts add up to at most 40 + 20 + 20 + 10 + 10 = 100. */
  lemma RawScoreBounds(issue: Issue, profile: UserProfile, now: int)
    ensures 0.0 <= RawScore(issue, profile, now) <= 100.0
  {
    var t := TextOf(issue);
    var lp := LanguagePart(profile.languages.GetOr([]), t).points;
    var rp := RepoPart(profile.repositories.GetOr([]), issue.repositoryUrl).points;
    var tp := TopicPart(profile.preferredTopics.GetOr([]), t).points;
    var bp := BeginnerPart(issue, profile).points;
    var fp := FreshPart(issue.updatedAt, now).points;
    LanguagePartBound(profile.languages.GetOr([]), t);
    TopicPartBound(profile.preferredTopics.GetOr([]), t);
    assert 0.0 <= rp <= 20.0 && 0.0 <= bp <= 10.0 && 0.0 <= fp <= 10.0;
    assert RawScore(issue, profile, now) == lp + rp + tp + bp + fp;
  }

  /** Since the raw score never exceeds 100, the cap at 100 never lowers a score. */
  lemma CapNeverApplies(issue: Issue, profile: UserProfile, now: int)
    requires !NoProfile(profile)
    ensures MatchScore(issue, profile, now).score == Round(RawScore(issue, profile, now))
  {
    RawScoreBounds(issue, profile, now);
  }

  // ---------------------------------------------------------------------
  // The imperative scorer

  /** `calculateMatchScore`, accumulating the score and the reasons as the source does. */
  method CalculateMatchScore(issue: Issue, profile: UserProfile, now: int) returns (score: int, reasons: seq<string>)
    ensures Scored(score, reasons) == MatchScore(issue, profile, now)
  {
    if NoProfile(profile) {
      return 0, [];
    }
    var t := TextOf(issue);
    var raw: real;
    raw, reasons := MatchLanguages(profile.languages.GetOr([]), t);
    raw, reasons := MatchRepositories(profile.repositories.GetOr([]), issue.repositoryUrl, raw, reasons);
    var topicRaw, topicReasons := MatchTopics(profile.preferredTopics.GetOr([]), t);
    raw, reasons := raw + topicRaw, reasons + topicReasons;
    raw, reasons := MatchLabels(issue, profile, raw, reasons);
    raw, reasons := MatchFreshness(issue.updatedAt, now, raw, reasons);

    RawScoreBounds(issue, profile, now);
    score := Round(raw);
    if score > 100 {
      score := 100;
    }
  }

  /** Language matching: 40/n per matched language, with its reason. */
  method MatchLanguages(langs: seq<string>, t: IssueText) returns (raw: real, reasons: seq<string>)
    ensures raw == LanguagePart(langs, t).points && reasons == LanguagePart(langs, t).reasons
  {
    raw, reasons := 0.0, [];
    if |langs| > 0 {
      var share := 40.0 / (|langs| as real);
      for i := 0 to |langs|
        invariant raw == Points(langs[..i], LanguageTest(t), share)
        invariant reasons == LanguageReasons(Filter(langs[..i], LanguageTest(t)))
      {
        StepFilter(langs, i, LanguageTest(t));
        if LanguageFound(langs[i], t) {
          raw := raw + share;
          reasons := reasons + [LanguageReason(langs[i])];
        }
      }
      assert langs[..|langs|] == langs;
    }
  }

  /** Repository matching: 20 if some followed repository occurs in the URL. */
  method MatchRepositories(repos: seq<string>, url: string, raw0: real, reasons0: seq<string>)
    returns (raw: real, reasons: seq<string>)
    ensures raw == raw0 + RepoPart(repos, url).points && reasons == reasons0 + RepoPart(repos, url).reasons
  {
    raw, reasons := raw0, reasons0;
    if |repos| > 0 && RepoFollowed(repos, url) {
      raw := raw + 20.0;
      reasons := reasons + [RepoReason];
    }
  }

  /** Topic matching: 20/m per matched topic, with its reason. */
  method MatchTopics(topics: seq<string>, t: IssueText) returns (raw: real, reasons: seq<string>)
    ensures raw == TopicPart(topics, t).points && reasons == TopicPart(topics, t).reasons
  {
    raw, reasons := 0.0, [];
    if |topics| > 0 {
      var share := 20.0 / (|topics| as real);
      for i := 0 to |topics|
        invariant raw == Points(topics[..i], TopicTest(t), share)
        invariant reasons == TopicReasons(Filter(topics[..i], TopicTest(t)))
      {
        StepFilter(topics, i, TopicTest(t));
        if TopicFound(topics[i], t) {
          raw := raw + share;
          reasons := reasons + [TopicReason(topics[i])];
        }
      }
      assert topics[..|topics|] == topics;
    }
  }

  /** Label matching: 10 for a beginner label and a newcomer. */
  method MatchLabels(issue: Issue, profile: UserProfile, raw0: real, reasons0: seq<string>)
    returns (raw: real, reasons: seq<string>)
    ensures raw == raw0 + BeginnerPart(issue, profile).points
    ensures reasons == reasons0 + BeginnerPart(issue, profile).reasons
  {
    raw, reasons := raw0, reasons0;
    if BeginnerBonus(issue, profile) {
      raw := raw + 10.0;
      reasons := reasons + [BeginnerReason];
    }
  }

  /** Issue freshness: 10 under a week, 5 under 30 days. */
  method MatchFreshness(updatedAt: Option<int>, now: int, raw0: real, reasons0: seq<string>)
    returns (raw: real, reasons: seq<string>)
    ensures raw == raw0 + FreshPart(updatedAt, now).points
    ensures reasons == reasons0 + FreshPart(updatedAt, now).reasons
  {
    raw, reasons := raw0, reasons0;
    if updatedAt.Some? {
      var diff := now - updatedAt.value;
      if diff < 7 * Freshness.MsPerDay {
        raw := raw + 10.0;
        reasons := reasons + [FreshReason];
      } else if diff < 30 * Freshness.MsPerDay {
        raw := raw + 5.0;
      }
    }
  }

  /** One more element of the loop: its prefix grows by one and the filter by at most that element. */
  lemma StepFilter(items: seq<string>, i: int, found: string -> bool)
    requires 0 <= i < |items|
    ensures items[..i + 1][..i] == items[..i] && items[..i + 1][i] == items[i]
    ensures Filter(items[..i + 1], found) == Filter(items[..i], found) + (if found(items[i]) then [items[i]] else [])
  {
    assert items[..i + 1] == items[..i] + [items[i]];
    FilterAppend(items[..i], [items[i]], found);
  }

  // ---------------------------------------------------------------------
  // What the reasons say

  lemma NotLanguageReason(x: string, langs: seq<string>)
    requires |x| > 0 && x[0] != 'M'
    ensures x !in LanguageReasons(langs)
  {
  }

  lemma NotTopicReason(x: string, topics: seq<string>)
    requires |x| > 2 && x[2] != 'l'
    ensures x !in TopicReasons(topics)
  {
  }

  /** With a profile, the reasons are those of the five criteria, in order. */
  lemma ReasonsOf(issue: Issue, profile: UserProfile, now: int)
    requires !NoProfile(profile)
    ensures MatchScore(issue, profile, now).reasons == MatchReasons(issue, profile, now)
  {
  }

  lemma InFive<T>(x: T, a: seq<T>, b: seq<T>, c: seq<T>, d: seq<T>, e: seq<T>)
    ensures x in a + b + c + d + e <==> x in a || x in b || x in c || x in d || x in e
  {
  }

  /** Which criterion's reasons a reason appears in: the five parts of `MatchReasons`. */
  lemma InReasons(issue: Issue, profile: UserProfile, now: int, x: string)
    ensures var t := TextOf(issue);
      x in MatchReasons(issue, profile, now) <==>
        x in LanguagePart(profile.languages.GetOr([]), t).reasons
        || x in RepoPart(profile.repositories.GetOr([]), issue.repositoryUrl).reasons
        || x in TopicPart(profile.preferredTopics.GetOr([]), t).reasons
        || x in BeginnerPart(issue, profile).reasons
        || x in FreshPart(issue.updatedAt, now).reasons
  {
    var t := TextOf(issue);
    InFive(x, LanguagePart(profile.languages.GetOr([]), t).reasons,
      RepoPart(profile.repositories.GetOr([]), issue.repositoryUrl).reasons,
      TopicPart(profile.preferredTopics.GetOr([]), t).reasons,
      BeginnerPart(issue, profile).reasons,
      FreshPart(issue.updatedAt, now).reasons);
  }

  /** The three fixed reasons differ from each other and from every language and topic reason. */
  lemma FixedReasonsDistinct()
    ensures RepoReason != BeginnerReason && RepoReason != FreshReason && BeginnerReason != FreshReason
    ensures |RepoReason| > 2 && RepoReason[0] != 'M' && RepoReason[2] != 'l'
    ensures |BeginnerReason| > 2 && BeginnerReason[0] != 'M' && BeginnerReason[2] != 'l'
    ensures |FreshReason| > 2 && FreshReason[0] != 'M' && FreshReason[2] != 'l'
  {
    assert RepoReason[0] != BeginnerReason[0];
    assert RepoReason[0] != FreshReason[0];
    assert BeginnerReason[0] != FreshReason[0];
  }

  lemma NotInLanguagePart(x: string, langs: seq<string>, t: IssueText)
    requires |x| > 0 && x[0] != 'M'
    ensures x !in LanguagePart(langs, t).reasons
  {
    NotLanguageReason(x, Filter(langs, LanguageTest(t)));
  }

  lemma NotInTopicPart(x: string, topics: seq<string>, t: IssueText)
    requires |x| > 2 && x[2] != 'l'
    ensures x !in TopicPart(topics, t).reasons
  {
    NotTopicReason(x, Filter(topics, TopicTest(t)));
  }

  lemma RepoPartReasons(x: string, repos: seq<string>, url: string)
    ensures x in RepoPart(repos, url).reasons <==> x == RepoReason && RepoFollowed(repos, url)
  {
  }

  lemma BeginnerPartReasons(x: string, issue: Issue, profile: UserProfile)
    ensures x in BeginnerPart(issue, profile).reasons <==> x == BeginnerReason && BeginnerBonus(issue, profile)
  {
  }

  lemma FreshPartReasons(x: string, updatedAt: Option<int>, now: int)
    ensures x in FreshPart(updatedAt, now).reasons <==>
      x == FreshReason && updatedAt.Some? && now - updatedAt.value < 7 * Freshness.MsPerDay
  {
  }

  /** A fixed reason is in the reasons exactly when its own criterion gives it. */
  lemma FixedReasonIn(issue: Issue, profile: UserProfile, now: int, x: string)
    requires x == RepoReason || x == BeginnerReason || x == FreshReason
    ensures x in MatchReasons(issue, profile, now) <==>
      x in RepoPart(profile.repositories.GetOr([]), issue.repositoryUrl).reasons
      || x in BeginnerPart(issue, profile).reasons
      || x in FreshPart(issue.updatedAt, now).reasons
  {
    var t := TextOf(issue);
    FixedReasonsDistinct();
    InReasons(issue, profile, now, x);
    NotInLanguagePart(x, profile.languages.GetOr([]), t);
    NotInTopicPart(x, profile.preferredTopics.GetOr([]), t);
  }

  /** "Perfect for beginners" is given exactly when the beginner bonus applies. */
  lemma BeginnerReasonIff(issue: Issue, profile: UserProfile, now: int)
    requires !NoProfile(profile)
    ensures BeginnerReason in MatchScore(issue, profile, now).reasons <==>
      BeginnerBonus(issue, profile)
  {
    ReasonsOf(issue, profile, now);
    FixedReasonsDistinct();
    FixedReasonIn(issue, profile, now, BeginnerReason);
    RepoPartReasons(BeginnerReason, profile.repositories.GetOr([]), issue.repositoryUrl);
    BeginnerPartReasons(BeginnerReason, issue, profile);
    FreshPartReasons(BeginnerReason, issue.updatedAt, now);
  }

  /** "Recently updated" is given exactly when the issue was updated less than seven days ago. */
  lemma FreshReasonIff(issue: Issue, profile: UserProfile, now: int)
    requires !NoProfile(profile)
    ensures FreshReason in MatchScore(issue, profile, now).reasons <==>
      issue.updatedAt.Some? && now - issue.updatedAt.value < 7 * Freshness.MsPerDay
  {
    ReasonsOf(issue, profile, now);
    FixedReasonsDistinct();
    FixedReasonIn(issue, profile, now, FreshReason);
    RepoPartReasons(FreshReason, profile.repositories.GetOr([]), issue.repositoryUrl);
    BeginnerPartReasons(FreshReason, issue, profile);
    FreshPartReasons(FreshReason, issue.updatedAt, now);
  }

  /** "From a repository you follow" is given exactly when a followed repository occurs in the URL. */
  lemma RepoReasonIff(issue: Issue, profile: UserProfile, now: int)
    requires !NoProfile(profile)
    ensures RepoReason in MatchScore(issue, profile, now).reasons <==>
      RepoFollowed(profile.repositories.GetOr([]), issue.repositoryUrl)
  {
    ReasonsOf(issue, profile, now);
    FixedReasonsDistinct();
    FixedReasonIn(issue, profile, now, RepoReason);
    RepoPartReasons(RepoReason, profile.repositories.GetOr([]), issue.repositoryUrl);
    BeginnerPartReasons(RepoReason, issue, profile);
    FreshPartReasons(RepoReason, issue.updatedAt, now);
  }

  /** A profile language is named in the reasons exactly when the issue matches one of its keywords. */
  lemma LanguageReasonIff(issue: Issue, profile: UserProfile, now: int, lang: string)
    requires !NoProfile(profile) && profile.languages.Some? && lang in profile.languages.value
    ensures LanguageReason(lang) in MatchScore(issue, profile, now).reasons <==> LanguageFound(lang, TextOf(issue))
  {
    var t := TextOf(issue);
    var found := Filter(profile.languages.value, LanguageTest(t));
    OnlyLanguagePartNamesLanguages(issue, profile, now, lang);
    LanguageReasonsMembers(found, lang);
    assert lang in found <==> LanguageFound(lang, t);
  }

  lemma OnlyLanguagePartNamesLanguages(issue: Issue, profile: UserProfile, now: int, lang: string)
    ensures var x := LanguageReason(lang);
      x in MatchReasons(issue, profile, now) <==> x in LanguagePart(profile.languages.GetOr([]), TextOf(issue)).reasons
  {
    var t := TextOf(issue);
    var x := LanguageReason(lang);
    InReasons(issue, profile, now, x);
    LanguageReasonShape(lang);
    NotInTopicPart(x, profile.preferredTopics.GetOr([]), t);
    FixedReasonsDistinct();
    RepoPartReasons(x, profile.repositories.GetOr([]), issue.repositoryUrl);
    BeginnerPartReasons(x, issue, profile);
    FreshPartReasons(x, issue.updatedAt, now);
  }

  lemma LanguageReasonShape(lang: string)
    ensures var x := LanguageReason(lang); |x| > 2 && x[0] == 'M' && x[2] == 't'
  {
  }

  lemma LanguageReasonsMembers(found: seq<string>, lang: string)
    ensures LanguageReason(lang) in LanguageReasons(found) <==> lang in found
  {
    var x := LanguageReason(lang);
    if x in LanguageReasons(found) {
      var i :| 0 <= i < |found| && LanguageReasons(found)[i] == x;
      LanguageReasonInjective(lang, found[i]);
    }
    if lang in found {
      var j :| 0 <= j < |found| && found[j] == lang;
      assert LanguageReasons(found)[j] == x;
    }
  }

  lemma LanguageReasonInjective(a: string, b: string)
    requires LanguageReason(a) == LanguageReason(b)
    ensures a == b
  {
    var pre := "Matches your ";
    assert LanguageReason(a) == pre + a + " experience";
    assert a == LanguageReason(a)[|pre|..|pre| + |a|];
    assert b == LanguageReason(b)[|pre|..|pre| + |b|];
  }

  // ---------------------------------------------------------------------
  // Matching a list of issues

  /** `langs.filter(l => reasons.some(r => r.includes(l)))` */
  function Mentioned(names: seq<string>, reasons: seq<string>): (r: seq<string>)
    ensures forall x :: x in r <==> x in names && exists k | 0 <= k < |reasons| :: Contains(reasons[k], x)
    decreases |names|
  {
    if names == [] then []
    else
      (if exists k | 0 <= k < |reasons| :: Contains(reasons[k], names[0]) then [names[0]] else [])
      + Mentioned(names[1..], reasons)
  }

  function ToMatch(issue: Issue, profile: UserProfile, now: int): IssueMatch {
    var s := MatchScore(issue, profile, now);
    IssueMatch(
      issue, s.score, s.reasons,
      if profile.languages.Some? then Some(Mentioned(profile.languages.value, s.reasons)) else None,
      if profile.preferredTopics.Some? then Some(Mentioned(profile.preferredTopics.value, s.reasons)) else None)
  }

  function MatchScoreOf(m: IssueMatch): int { m.matchScore }

  predicate Positive(m: IssueMatch) { m.matchScore > 0 }

  function ScoreAll(issues: seq<Issue>, profile: UserProfile, now: int): (r: seq<IssueMatch>)
    ensures |r| == |issues|
    ensures forall i :: 0 <= i < |r| ==> r[i] == ToMatch(issues[i], profile, now)
  {
    seq(|issues|, i requires 0 <= i < |issues| => ToMatch(issues[i], profile, now))
  }

  /** `matchIssues(issues, profile)`: scored, zero scores dropped, best first. */
  function MatchIssues(issues: seq<Issue>, profile: UserProfile, now: int): (r: seq<IssueMatch>)
    ensures |r| <= |issues|
    ensures SortedDesc(r, MatchScoreOf)
    ensures multiset(r) == multiset(Filter(ScoreAll(issues, profile, now), Positive))
    ensures forall i :: 0 <= i < |r| ==> 0 < r[i].matchScore <= 100
  {
    var all := ScoreAll(issues, profile, now);
    var kept := Filter(all, Positive);
    var r := SortDesc(kept, MatchScoreOf);
    assert forall x :: x in kept ==> 0 < x.matchScore <= 100 by {
      forall x | x in kept
        ensures 0 < x.matchScore <= 100
      {
        var j :| 0 <= j < |all| && all[j] == x;
      }
    }
    PermutedScores(kept, r);
    r
  }

  /** A permutation of matches scored in 1..100 is scored in 1..100. */
  lemma PermutedScores(kept: seq<IssueMatch>, r: seq<IssueMatch>)
    requires multiset(r) == multiset(kept)
    requires forall x :: x in kept ==> 0 < x.matchScore <= 100
    ensures forall i :: 0 <= i < |r| ==> 0 < r[i].matchScore <= 100
  {
    forall i | 0 <= i < |r|
      ensures 0 < r[i].matchScore <= 100
    {
      assert r[i] in multiset(kept);
    }
  }

  /** An issue is in the result exactly when its score is positive. */
  lemma MatchIssuesMembers(issues: seq<Issue>, profile: UserProfile, now: int, i: int)
    requires 0 <= i < |issues|
    ensures ToMatch(issues[i], profile, now) in MatchIssues(issues, profile, now)
        <==> MatchScore(issues[i], profile, now).score > 0
  {
    var all := ScoreAll(issues, profile, now);
    var kept := Filter(all, Positive);
    var m := ToMatch(issues[i], profile, now);
    assert all[i] == m;
    assert m in MatchIssues(issues, profile, now) <==> m in multiset(kept);
  }

  /** Issues with the same score keep their input order. */
  lemma MatchIssuesStable(issues: seq<Issue>, profile: UserProfile, now: int, k: int)
    ensures WithKey(MatchIssues(issues, profile, now), MatchScoreOf, k)
         == WithKey(Filter(ScoreAll(issues, profile, now), Positive), MatchScoreOf, k)
  {
    SortDescStable(Filter(ScoreAll(issues, profile, now), Positive), MatchScoreOf, k);
  }

  /** Every language the scorer matched is reported in `matchedLanguages`. */
  lemma MatchedLanguagesIncludeFound(issue: Issue, profile: UserProfile, now: int, lang: string)
    requires !NoProfile(profile) && profile.languages.Some? && lang in profile.languages.value
    requires LanguageFound(lang, TextOf(issue))
    ensures lang in ToMatch(issue, profile, now).matchedLanguages.value
  {
    var rs := MatchScore(issue, profile, now).reasons;
    LanguageReasonIff(issue, profile, now, lang);
    var k :| 0 <= k < |rs| && rs[k] == LanguageReason(lang);
    var pre := "Matches your ";
    assert rs[k][|pre|..|pre| + |lang|] == lang;
    assert OccursAt(rs[k], lang, |pre|);
  }

  /** An issue with no title, body, labels or repository, updated at time 0. */
  const SampleIssue: Issue := Issue(1, "", "", "", "open", [], "", 0, Some(0), false, 0, false)

  /** A profile with the single language "a" and nothing else. */
  const SampleProfile: UserProfile := UserProfile("me", Some(["a"]), None, None, None)

  lemma SampleKeywords()
    ensures LanguageKeywords(Lower("a")) == ["a"]
  {
    assert Lower("a") == "a";
    assert "a" !in LanguageTable.Keys;
  }

  lemma SampleLanguageNotFound()
    ensures !LanguageFound("a", TextOf(SampleIssue))
  {
    var t := TextOf(SampleIssue);
    SampleKeywords();
    assert |t.title| == 0 && |t.body| == 0 && |Lower(t.repoName)| == 0;
  }

  lemma SampleReasons()
    ensures MatchScore(SampleIssue, SampleProfile, 0).reasons == [FreshReason]
  {
    var t := TextOf(SampleIssue);
    SampleLanguageNotFound();
    assert Filter(["a"], LanguageTest(t)) == [];
    assert LanguagePart(["a"], t).reasons == [];
    assert RepoPart([], "").reasons == [];
    assert TopicPart([], t).reasons == [];
    assert BeginnerPart(SampleIssue, SampleProfile).reasons == [];
    assert FreshPart(Some(0), 0).reasons == [FreshReason];
    assert MatchReasons(SampleIssue, SampleProfile, 0) == [] + [] + [] + [] + [FreshReason];
  }

  /**
   * The converse does not hold: `matchedLanguages` tests the reasons by
   * substring, so the unmatched language "a" is reported because the
   * reason "Recently updated" contains the letter a.
   */
  lemma MatchedLanguagesOverReport()
    ensures !LanguageFound("a", TextOf(SampleIssue))
    ensures ToMatch(SampleIssue, SampleProfile, 0).matchedLanguages == Some(["a"])
  {
    SampleLanguageNotFound();
    var s := MatchScore(SampleIssue, SampleProfile, 0);
    SampleReasons();
    SampleMentioned();
    assert ToMatch(SampleIssue, SampleProfile, 0).matchedLanguages == Some(Mentioned(["a"], s.reasons));
  }

  lemma SampleMentioned()
    ensures Mentioned(["a"], [FreshReason]) == ["a"]
  {
    assert OccursAt(FreshReason, "a", 12);
    assert Contains([FreshReason][0], "a");
    assert Mentioned([], [FreshReason]) == [];
  }
}
