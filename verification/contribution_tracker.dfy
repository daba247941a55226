/**
 * Contributor statistics (client/src/utils/contributionTracker.ts): the
 * impact score, day streaks, achievements, the timeline grouping and the
 * classification of GitHub events into contributions.
 *
 * Calendar dates are day numbers (days since the epoch, UTC); instants
 * are milliseconds since the epoch. "Today" and "now" are parameters.
 */
module ContributionTracker {
  import opened Wrappers
  import opened Text
  import opened Seqs
  import opened Sorting
  import opened JsMath
  import Freshness

  // ---------------------------------------------------------------------
  // Impact score

  /** The counts `calculateImpactScore` reads; a missing count is `None`. */
  datatype ImpactInputs = ImpactInputs(
    issuesClosed: Option<int>,
    prsMerged: Option<int>,
    commits: Option<int>,
    reviews: Option<int>,
    currentStreak: Option<int>
  )

  /** `Math.min(cap, (count || 0) * weight)` */
  function Capped(cap: real, count: Option<int>, weight: real): real {
    Min(cap, count.GetOr(0) as real * weight)
  }

  /** The five capped parts, summed as the source accumulates `score`. */
  function ImpactSum(s: ImpactInputs): real {
    Capped(30.0, s.issuesClosed, 0.5)
    + Capped(30.0, s.prsMerged, 0.6)
    + Capped(20.0, s.commits, 0.1)
    + Capped(10.0, s.reviews, 0.2)
    + Capped(10.0, s.currentStreak, 0.5)
  }

  /** `calculateImpactScore(stats)` */
  function ImpactScore(s: ImpactInputs): (r: int)
    ensures r <= 100
    ensures NonNegative(s) ==> 0 <= r
  {
    Round(Min(100.0, ImpactSum(s)))
  }

  predicate NonNegative(s: ImpactInputs) {
    s.issuesClosed.GetOr(0) >= 0 && s.prsMerged.GetOr(0) >= 0 && s.commits.GetOr(0) >= 0
    && s.reviews.GetOr(0) >= 0 && s.currentStreak.GetOr(0) >= 0
  }

  /** The caps add up to 100, so the outer `Math.min(100, score)` never lowers the score. */
  lemma ImpactCapNeverApplies(s: ImpactInputs)
    ensures ImpactScore(s) == Round(ImpactSum(s))
  {
  }

  /** A missing count scores like a zero count. */
  lemma MissingCountsAsZero(s: ImpactInputs)
    ensures ImpactScore(s) == ImpactScore(ImpactInputs(
      Some(s.issuesClosed.GetOr(0)), Some(s.prsMerged.GetOr(0)), Some(s.commits.GetOr(0)),
      Some(s.reviews.GetOr(0)), Some(s.currentStreak.GetOr(0))))
  {
  }

  predicate AtMost(a: Option<int>, b: Option<int>) {
    a.GetOr(0) <= b.GetOr(0)
  }

  /** More of any count never lowers the score. */
  lemma ImpactMonotone(a: ImpactInputs, b: ImpactInputs)
    requires AtMost(a.issuesClosed, b.issuesClosed) && AtMost(a.prsMerged, b.prsMerged)
    requires AtMost(a.commits, b.commits) && AtMost(a.reviews, b.reviews)
    requires AtMost(a.currentStreak, b.currentStreak)
    ensures ImpactScore(a) <= ImpactScore(b)
  {
    RoundMonotone(Min(100.0, ImpactSum(a)), Min(100.0, ImpactSum(b)));
  }

  /** 60 closed issues, 50 merged pull requests, 200 commits, 50 reviews and a 20-day streak reach every cap: 100. */
  lemma ImpactReachesHundred(s: ImpactInputs)
    requires s.issuesClosed.GetOr(0) >= 60 && s.prsMerged.GetOr(0) >= 50 && s.commits.GetOr(0) >= 200
    requires s.reviews.GetOr(0) >= 50 && s.currentStreak.GetOr(0) >= 20
    ensures ImpactScore(s) == 100
  {
    assert ImpactSum(s) == 100.0;
  }

  // ---------------------------------------------------------------------
  // Achievements

  datatype Rarity = Common | Rare | Epic | Legendary

  /** The five achievements, each with its fixed id. */
  datatype AchievementKind = FirstContribution | IssueCloser | PrMaster | WeekStreak | MultiRepo

  function KindId(k: AchievementKind): string {
    match k
    case FirstContribution => "first-contribution"
    case IssueCloser => "issue-closer"
    case PrMaster => "pr-master"
    case WeekStreak => "week-streak"
    case MultiRepo => "multi-repo"
  }

  lemma KindIdInjective(j: AchievementKind, k: AchievementKind)
    ensures KindId(j) == KindId(k) ==> j == k
  {
  }

  /** An achievement; its `id` is `KindId(kind)`. */
  datatype Achievement = Achievement(
    kind: AchievementKind,
    name: string,
    description: string,
    icon: string,
    unlockedAt: string,
    rarity: Rarity
  )

  /** The counts `generateAchievements` reads. */
  datatype AchievementInputs = AchievementInputs(
    issuesClosed: int,
    prsMerged: int,
    commits: int,
    currentStreak: int,
    repositoriesContributed: int,
    totalContributions: int
  )

  /** Rare, epic from `epicAt`, legendary from `legendaryAt`. */
  function Tier(n: int, epicAt: int, legendaryAt: int): (r: Rarity)
    requires epicAt <= legendaryAt
    ensures r == Legendary <==> n >= legendaryAt
    ensures r == Epic <==> epicAt <= n < legendaryAt
    ensures r == Rare <==> n < epicAt
  {
    if n >= legendaryAt then Legendary else if n >= epicAt then Epic else Rare
  }

  /** The kinds in the order they are pushed. */
  const AchievementOrder: seq<AchievementKind> := [FirstContribution, IssueCloser, PrMaster, WeekStreak, MultiRepo]

  /** The achievement of kind `k` for the count `n` that unlocked it. */
  function Make(k: AchievementKind, n: int, now: string): Achievement {
    match k
    case FirstContribution =>
      Achievement(k, "First Steps", "Made your first contribution", "\U{1F3AF}", now, Common)
    case IssueCloser =>
      Achievement(k, "Bug Hunter", "Closed " + IntToString(n) + " issues", "\U{1F41B}", now, Tier(n, 50, 100))
    case PrMaster =>
      Achievement(k, "Code Contributor", "Merged " + IntToString(n) + " pull requests", "\U{1F4BB}", now,
        Tier(n, 50, 100))
    case WeekStreak =>
      Achievement(k, "Consistent Contributor", IntToString(n) + " day streak", "\U{1F525}", now,
        Tier(n, 100, 365))
    case MultiRepo =>
      Achievement(k, "Open Source Explorer", "Contributed to " + IntToString(n) + " repositories", "\U{1F30D}",
        now, Tier(n, 50, 100))
  }

  /** The count each kind is judged by. */
  function CountFor(s: AchievementInputs, k: AchievementKind): int {
    match k
    case FirstContribution => s.totalContributions
    case IssueCloser => s.issuesClosed
    case PrMaster => s.prsMerged
    case WeekStreak => s.currentStreak
    case MultiRepo => s.repositoriesContributed
  }

  /** The threshold each kind unlocks at: more than 0 contributions, 10 issues, 10 pull requests, a 7-day streak, 10 repositories. */
  function Threshold(k: AchievementKind): int {
    match k
    case FirstContribution => 1
    case IssueCloser => 10
    case PrMaster => 10
    case WeekStreak => 7
    case MultiRepo => 10
  }

  predicate Unlocks(s: AchievementInputs, k: AchievementKind) {
    CountFor(s, k) >= Threshold(k)
  }

  function Push(s: AchievementInputs, k: AchievementKind, now: string): seq<Achievement> {
    if Unlocks(s, k) then [Make(k, CountFor(s, k), now)] else []
  }

  /** The achievements unlocked by `s`, in push order; `now` is the unlock time. */
  function Achievements(s: AchievementInputs, now: string): seq<Achievement> {
    Push(s, FirstContribution, now) + Push(s, IssueCloser, now) + Push(s, PrMaster, now)
    + Push(s, WeekStreak, now) + Push(s, MultiRepo, now)
  }

  /** `generateAchievements(stats)`, pushing one achievement per threshold reached. */
  method GenerateAchievements(s: AchievementInputs, now: string) returns (r: seq<Achievement>)
    ensures r == Achievements(s, now)
  {
    r := [];
    if s.totalContributions > 0 {
      r := r + [Make(FirstContribution, s.totalContributions, now)];
    }
    assert r == Push(s, FirstContribution, now);
    if s.issuesClosed >= 10 {
      r := r + [Make(IssueCloser, s.issuesClosed, now)];
    }
    assert r == Push(s, FirstContribution, now) + Push(s, IssueCloser, now);
    if s.prsMerged >= 10 {
      r := r + [Make(PrMaster, s.prsMerged, now)];
    }
    assert r == Push(s, FirstContribution, now) + Push(s, IssueCloser, now) + Push(s, PrMaster, now);
    if s.currentStreak >= 7 {
      r := r + [Make(WeekStreak, s.currentStreak, now)];
    }
    assert r == Push(s, FirstContribution, now) + Push(s, IssueCloser, now) + Push(s, PrMaster, now)
      + Push(s, WeekStreak, now);
    if s.repositoriesContributed >= 10 {
      r := r + [Make(MultiRepo, s.repositoriesContributed, now)];
    }
  }

  function Kinds(r: seq<Achievement>): (ks: seq<AchievementKind>)
    ensures |ks| == |r| && forall i :: 0 <= i < |r| ==> ks[i] == r[i].kind
  {
    seq(|r|, i requires 0 <= i < |r| => r[i].kind)
  }

  /** `[k]` when `k` is unlocked, else nothing. */
  function Unlocked(s: AchievementInputs, k: AchievementKind): seq<AchievementKind> {
    if Unlocks(s, k) then [k] else []
  }

  function UnlockedAll(s: AchievementInputs): seq<AchievementKind> {
    Unlocked(s, FirstContribution) + Unlocked(s, IssueCloser) + Unlocked(s, PrMaster)
    + Unlocked(s, WeekStreak) + Unlocked(s, MultiRepo)
  }

  lemma KindsPush(s: AchievementInputs, k: AchievementKind, now: string)
    ensures Kinds(Push(s, k, now)) == Unlocked(s, k)
  {
    if Unlocks(s, k) {
      assert Make(k, CountFor(s, k), now).kind == k;
    }
  }

  lemma KindsOfAchievements(s: AchievementInputs, now: string)
    ensures Kinds(Achievements(s, now)) == UnlockedAll(s)
  {
    var a := Push(s, FirstContribution, now) + Push(s, IssueCloser, now);
    var b := a + Push(s, PrMaster, now);
    var c := b + Push(s, WeekStreak, now);
    KindsAppend(Push(s, FirstContribution, now), Push(s, IssueCloser, now));
    KindsAppend(a, Push(s, PrMaster, now));
    KindsAppend(b, Push(s, WeekStreak, now));
    KindsAppend(c, Push(s, MultiRepo, now));
    KindsPush(s, FirstContribution, now);
    KindsPush(s, IssueCloser, now);
    KindsPush(s, PrMaster, now);
    KindsPush(s, WeekStreak, now);
    KindsPush(s, MultiRepo, now);
  }

  /** The position of each kind in the push order. */
  function Rank(k: AchievementKind): nat {
    match k
    case FirstContribution => 0
    case IssueCloser => 1
    case PrMaster => 2
    case WeekStreak => 3
    case MultiRepo => 4
  }

  predicate Ascending(ks: seq<AchievementKind>) {
    forall i, j :: 0 <= i < j < |ks| ==> Rank(ks[i]) < Rank(ks[j])
  }

  lemma AscendingAppend(s: AchievementInputs, a: seq<AchievementKind>, k: AchievementKind)
    requires Ascending(a) && forall x :: x in a ==> Rank(x) < Rank(k)
    ensures Ascending(a + Unlocked(s, k))
    ensures forall x :: x in a + Unlocked(s, k) ==> Rank(x) <= Rank(k)
  {
    var b := a + Unlocked(s, k);
    forall i, j | 0 <= i < j < |b|
      ensures Rank(b[i]) < Rank(b[j])
    {
      if j >= |a| {
        assert b[i] in a;
      }
    }
  }

  /**
   * The kinds present are exactly the unlocked ones, in the fixed order
   * first-contribution, issue-closer, pr-master, week-streak, multi-repo.
   */
  lemma AchievementKinds(s: AchievementInputs, now: string)
    ensures forall k :: k in Kinds(Achievements(s, now)) <==> Unlocks(s, k)
    ensures Ascending(Kinds(Achievements(s, now)))
  {
    KindsOfAchievements(s, now);
    UnlockedAllMembers(s);
    UnlockedAllAscending(s);
  }

  lemma UnlockedAllMembers(s: AchievementInputs)
    ensures forall k :: k in UnlockedAll(s) <==> Unlocks(s, k)
  {
    forall k
      ensures k in UnlockedAll(s) <==> Unlocks(s, k)
    {
      assert k in UnlockedAll(s) <==> (k in Unlocked(s, FirstContribution) || k in Unlocked(s, IssueCloser)
        || k in Unlocked(s, PrMaster) || k in Unlocked(s, WeekStreak) || k in Unlocked(s, MultiRepo));
    }
  }

  lemma UnlockedAllAscending(s: AchievementInputs)
    ensures Ascending(UnlockedAll(s))
  {
    var a := Unlocked(s, FirstContribution);
    AscendingAppend(s, a, IssueCloser);
    var b := a + Unlocked(s, IssueCloser);
    AscendingAppend(s, b, PrMaster);
    var c := b + Unlocked(s, PrMaster);
    AscendingAppend(s, c, WeekStreak);
    var d := c + Unlocked(s, WeekStreak);
    AscendingAppend(s, d, MultiRepo);
  }

  lemma KindsAppend(a: seq<Achievement>, b: seq<Achievement>)
    ensures Kinds(a + b) == Kinds(a) + Kinds(b)
  {
  }

  /** The rarity of each achievement: always common for the first, by its own count and thresholds for the others. */
  lemma AchievementRarity(s: AchievementInputs, now: string, a: Achievement)
    requires a in Achievements(s, now)
    ensures a.kind == FirstContribution <==> a.rarity == Common
    ensures a.kind in {IssueCloser, PrMaster, MultiRepo} ==> a.rarity == Tier(CountFor(s, a.kind), 50, 100)
    ensures a.kind == WeekStreak ==> a.rarity == Tier(CountFor(s, a.kind), 100, 365)
    ensures a.rarity != Common ==> CountFor(s, a.kind) >= 7
  {
    MadeByItsKind(s, now, a);
    MakeRarity(a.kind, CountFor(s, a.kind), now);
  }

  /** Every achievement is the one its kind makes from its own count, and that kind is unlocked. */
  lemma MadeByItsKind(s: AchievementInputs, now: string, a: Achievement)
    requires a in Achievements(s, now)
    ensures Unlocks(s, a.kind) && a == Make(a.kind, CountFor(s, a.kind), now)
  {
    assert a in Push(s, FirstContribution, now) || a in Push(s, IssueCloser, now) || a in Push(s, PrMaster, now)
      || a in Push(s, WeekStreak, now) || a in Push(s, MultiRepo, now);
  }

  lemma MakeRarity(k: AchievementKind, n: int, now: string)
    requires n >= Threshold(k)
    ensures var a := Make(k, n, now);
      a.kind == k
      && (k == FirstContribution <==> a.rarity == Common)
      && (k in {IssueCloser, PrMaster, MultiRepo} ==> a.rarity == Tier(n, 50, 100))
      && (k == WeekStreak ==> a.rarity == Tier(n, 100, 365))
      && (a.rarity != Common ==> n >= 7)
  {
  }

  // ---------------------------------------------------------------------
  // Streaks

  function Identity(day: int): int { day }

  /** The days `d[a..b]` step back one day at a time. */
  predicate Consecutive(d: seq<int>, a: int, b: int)
    requires 0 <= a <= b <= |d|
  {
    forall k :: a <= k && k + 1 < b ==> d[k] - d[k + 1] == 1
  }

  /** `n` is the length of the longest run of consecutive days in `d`. */
  ghost predicate IsLongestRun(d: seq<int>, n: nat) {
    (exists a, b | 0 <= a <= b <= |d| && b - a == n :: Consecutive(d, a, b))
    && forall a, b | 0 <= a <= b <= |d| && Consecutive(d, a, b) :: b - a <= n
  }

  /** Where the current streak is counted from: today if the newest day is today, otherwise yesterday. */
  function Anchor(d: seq<int>, today: int): int {
    if |d| > 0 && d[0] == today then today else today - 1
  }

  /** `n` days, from the newest, are the anchor and the days before it, and the next one is not. */
  predicate IsCurrentRun(d: seq<int>, today: int, n: nat) {
    n <= |d|
    && (forall k | 0 <= k < n :: d[k] == Anchor(d, today) - k)
    && (n < |d| ==> d[n] != Anchor(d, today) - n)
  }

  function Max(a: int, b: int): int {
    if a >= b then a else b
  }

  /** A run ending at `i` that reaches back past the maximal run ending at `i - 1` cannot exist. */
  lemma RunsEndingAt(d: seq<int>, i: nat, temp: nat, a: nat)
    requires 1 <= i < |d| && 1 <= temp <= i
    requires Consecutive(d, i - temp, i)
    requires i - temp == 0 || d[i - temp - 1] - d[i - temp] != 1
    requires a <= i + 1 && Consecutive(d, a, i + 1)
    ensures i + 1 - a <= (if d[i - 1] - d[i] == 1 then temp + 1 else 1)
  {
  }

  /**
   * `calculateStreaks(dates)` with `today` the current day: the dates
   * sorted newest first, the run back from today (or yesterday), and the
   * longest run of consecutive days.
   */
  method CalculateStreaks(dates: seq<int>, today: int) returns (current: nat, longest: nat)
    ensures IsCurrentRun(SortDesc(dates, Identity), today, current)
    ensures IsLongestRun(SortDesc(dates, Identity), longest)
    ensures current <= longest
    ensures dates == [] <==> longest == 0
  {
    var d := SortDesc(dates, Identity);
    if |d| == 0 {
      assert Consecutive(d, 0, 0);
      return 0, 0;
    }
    current := CurrentStreak(d, today);
    longest := LongestStreak(d);
    assert Consecutive(d, 0, current);
    assert Consecutive(d, 0, 1);
  }

  /** The first loop: counts the days back from the anchor while they match. */
  method CurrentStreak(d: seq<int>, today: int) returns (current: nat)
    requires |d| > 0
    ensures IsCurrentRun(d, today, current)
  {
    current := 0;
    var expected := if d[0] == today then today else today - 1;
    var i := 0;
    while i < |d|
      invariant 0 <= i <= |d| && current == i
      invariant expected == Anchor(d, today) - i
      invariant forall k | 0 <= k < i :: d[k] == Anchor(d, today) - k
    {
      if d[i] == expected {
        current := current + 1;
        expected := expected - 1;
        i := i + 1;
      } else {
        break;
      }
    }
  }

  /** The second loop: `tempStreak` is the run ending at the previous day, `longestStreak` the best run closed so far. */
  method LongestStreak(d: seq<int>) returns (longest: nat)
    requires |d| > 0
    ensures IsLongestRun(d, longest)
  {
    longest := 0;
    var temp := 1;
    for j := 1 to |d|
      invariant 1 <= temp <= j
      invariant Consecutive(d, j - temp, j)
      invariant j - temp == 0 || d[j - temp - 1] - d[j - temp] != 1
      invariant longest == 0 || exists a, b | 0 <= a <= b <= j && b - a == longest :: Consecutive(d, a, b)
      invariant forall a, b | 0 <= a <= b <= j && Consecutive(d, a, b) :: b - a <= Max(longest, temp)
    {
      ghost var longest0, temp0 := longest, temp;
      if d[j - 1] - d[j] == 1 {
        temp := temp + 1;
      } else {
        longest := Max(longest, temp);
        temp := 1;
      }
      LongestStep(d, j, temp0, longest0, temp, longest);
      if longest != longest0 {
        assert Consecutive(d, j - temp0, j);
      }
    }
    if temp > longest {
      assert Consecutive(d, |d| - temp, |d|);
    }
    longest := Max(longest, temp);
  }

  /** One step of the second loop keeps every run up to the next day within the best so far. */
  lemma LongestStep(d: seq<int>, j: nat, temp0: nat, longest0: nat, temp: nat, longest: nat)
    requires 1 <= j < |d| && 1 <= temp0 <= j
    requires Consecutive(d, j - temp0, j)
    requires j - temp0 == 0 || d[j - temp0 - 1] - d[j - temp0] != 1
    requires forall a, b | 0 <= a <= b <= j && Consecutive(d, a, b) :: b - a <= Max(longest0, temp0)
    requires if d[j - 1] - d[j] == 1 then temp == temp0 + 1 && longest == longest0
      else longest == Max(longest0, temp0) && temp == 1
    ensures forall a, b | 0 <= a <= b <= j + 1 && Consecutive(d, a, b) :: b - a <= Max(longest, temp)
  {
    forall a, b | 0 <= a <= b <= j + 1 && Consecutive(d, a, b)
      ensures b - a <= Max(longest, temp)
    {
      if b == j + 1 {
        RunsEndingAt(d, j, temp0, a);
      } else {
        assert Consecutive(d, a, b);
      }
    }
  }

  /** When the current streak is not zero, the newest contribution day is today or yesterday, and none is later than today. */
  lemma CurrentStreakNeedsRecentDay(dates: seq<int>, today: int, n: nat)
    requires IsCurrentRun(SortDesc(dates, Identity), today, n) && n > 0
    requires forall x :: x in dates ==> x <= today
    ensures today in dates || today - 1 in dates
  {
    var d := SortDesc(dates, Identity);
    assert d[0] in multiset(dates);
  }

  // ---------------------------------------------------------------------
  // Contributions from events

  datatype ContributionType = IssueContribution | PrContribution | CommitContribution | ReviewContribution

  datatype ContributionState = Open | Closed | Merged

  /**
   * A contribution: the fields the statistics and the timeline read. The
   * display-only fields (url, updatedAt, closedAt, mergedAt, labels, line
   * counts) are not part of this model.
   */
  datatype Contribution = Contribution(
    id: string,
    kind: ContributionType,
    repository: string,
    repositoryUrl: string,
    title: string,
    state: ContributionState,
    createdAt: int
  )

  /**
   * A public GitHub event. `payloadTitle` is the issue or pull-request
   * title, or the first commit message, `""` when absent;
   * `payloadCreatedAt` is the issue or pull request's own creation time.
   */
  datatype Event = Event(
    id: string,
    kind: string,
    action: string,
    merged: bool,
    repo: string,
    createdAt: int,
    payloadTitle: string,
    payloadCreatedAt: Option<int>
  )

  /** `new Date(t).toISOString().split('T')[0]`, as a day number. */
  function Day(t: int): int {
    t / Freshness.MsPerDay
  }

  function RepoUrl(repo: string): string {
    "https://github.com/" + repo
  }

  function OrDefault(s: string, default: string): string {
    if s == "" then default else s
  }

  /** The contribution an event counts as, if any (the `switch` on `event.type`). */
  function ContributionOf(e: Event): (r: Option<Contribution>)
    ensures r.Some? <==>
      (e.kind == "IssuesEvent" && (e.action == "closed" || e.action == "opened"))
      || (e.kind == "PullRequestEvent" && e.action == "closed" && e.merged)
      || e.kind == "PushEvent"
    ensures r.Some? ==> r.value.id == e.id && r.value.repository == e.repo && r.value.kind != ReviewContribution
  {
    if e.kind == "IssuesEvent" && (e.action == "closed" || e.action == "opened") then
      Some(Contribution(e.id, IssueContribution, e.repo, RepoUrl(e.repo), OrDefault(e.payloadTitle, "Issue"),
        if e.action == "closed" then Closed else Open, e.payloadCreatedAt.GetOr(e.createdAt)))
    else if e.kind == "PullRequestEvent" && e.action == "closed" && e.merged then
      Some(Contribution(e.id, PrContribution, e.repo, RepoUrl(e.repo), OrDefault(e.payloadTitle, "Pull Request"),
        Merged, e.payloadCreatedAt.GetOr(e.createdAt)))
    else if e.kind == "PushEvent" then
      Some(Contribution(e.id, CommitContribution, e.repo, RepoUrl(e.repo), OrDefault(e.payloadTitle, "Commit"),
        Closed, e.createdAt))
    else None
  }

  /** The contributions of `events`, in event order. */
  function Contributions(events: seq<Event>): seq<Contribution>
    decreases |events|
  {
    if events == [] then []
    else
      var c := ContributionOf(events[|events| - 1]);
      Contributions(events[..|events| - 1]) + (if c.Some? then [c.value] else [])
  }

  /** The repositories of the events that count. */
  function Repositories(events: seq<Event>): set<string> {
    set e | e in events && ContributionOf(e).Some? :: e.repo
  }

  function DayOfEvent(e: Event): int { Day(e.createdAt) }

  /** The days of all events, counted or not. */
  function EventDays(events: seq<Event>): (r: seq<int>)
    ensures |r| == |events| && forall i :: 0 <= i < |events| ==> r[i] == Day(events[i].createdAt)
  {
    seq(|events|, i requires 0 <= i < |events| => Day(events[i].createdAt))
  }

  /**
   * `events.forEach(...)`: collects the contributions, the repositories
   * they come from, and the distinct days of every event, ignored types
   * included, in first-seen order (a `Set`'s iteration order).
   */
  method ProcessEvents(events: seq<Event>) returns (cs: seq<Contribution>, repos: set<string>, days: seq<int>)
    ensures cs == Contributions(events)
    ensures repos == Repositories(events)
    ensures days == Dedup(EventDays(events))
  {
    cs, repos, days := [], {}, [];
    for i := 0 to |events|
      invariant cs == Contributions(events[..i])
      invariant repos == Repositories(events[..i])
      invariant days == Dedup(EventDays(events[..i]))
    {
      var e := events[i];
      ProcessStep(events, i);
      DedupStep(EventDays(events[..i]), Day(e.createdAt));
      if Day(e.createdAt) !in days {
        days := days + [Day(e.createdAt)];
      }
      var c := ContributionOf(e);
      if c.Some? {
        cs := cs + [c.value];
        repos := repos + {e.repo};
      }
    }
    assert events[..|events|] == events;
  }

  lemma ProcessStep(events: seq<Event>, i: nat)
    requires i < |events|
    ensures var c := ContributionOf(events[i]);
      Contributions(events[..i + 1]) == Contributions(events[..i]) + (if c.Some? then [c.value] else [])
    ensures Repositories(events[..i + 1]) ==
      Repositories(events[..i]) + (if ContributionOf(events[i]).Some? then {events[i].repo} else {})
    ensures EventDays(events[..i + 1]) == EventDays(events[..i]) + [Day(events[i].createdAt)]
  {
    assert events[..i + 1][..i] == events[..i];
    assert forall x :: x in events[..i + 1] <==> x in events[..i] || x == events[i];
  }

  function CountWhere(cs: seq<Contribution>, p: Contribution -> bool): nat {
    |Filter(cs, p)|
  }

  predicate IsClosedIssue(c: Contribution) { c.kind == IssueContribution && c.state == Closed }

  predicate IsMergedPr(c: Contribution) { c.kind == PrContribution && c.state == Merged }

  predicate IsCommit(c: Contribution) { c.kind == CommitContribution }

  predicate IsReview(c: Contribution) { c.kind == ReviewContribution }

  /** No event is classified as a review, so `reviews` is always 0. */
  lemma {:induction false} ReviewsAlwaysZero(events: seq<Event>)
    ensures CountWhere(Contributions(events), IsReview) == 0
    decreases |events|
  {
    if events != [] {
      var init := events[..|events| - 1];
      var c := ContributionOf(events[|events| - 1]);
      ReviewsAlwaysZero(init);
      FilterAppend(Contributions(init), if c.Some? then [c.value] else [], IsReview);
    }
  }

  predicate IsMergeEvent(e: Event) {
    e.kind == "PullRequestEvent" && e.action == "closed" && e.merged
  }

  /** `prsMerged` counts exactly the closed-and-merged pull-request events. */
  lemma {:induction false} MergedPrsCountEvents(events: seq<Event>)
    ensures CountWhere(Contributions(events), IsMergedPr) == |Filter(events, IsMergeEvent)|
    decreases |events|
  {
    if events != [] {
      var init := events[..|events| - 1];
      var e := events[|events| - 1];
      var c := ContributionOf(e);
      var last := if c.Some? then [c.value] else [];
      MergedPrsCountEvents(init);
      assert Contributions(events) == Contributions(init) + last;
      FilterAppend(Contributions(init), last, IsMergedPr);
      var merged := Filter(Contributions(init), IsMergedPr) + Filter(last, IsMergedPr);
      assert |merged| == |Filter(Contributions(init), IsMergedPr)| + |Filter(last, IsMergedPr)|;
      SplitLast(events);
      FilterAppend(init, [e], IsMergeEvent);
      var merges := Filter(init, IsMergeEvent) + Filter([e], IsMergeEvent);
      assert |merges| == |Filter(init, IsMergeEvent)| + |Filter([e], IsMergeEvent)|;
      MergedOf(e);
      assert CountWhere(Contributions(events), IsMergedPr) == |merged|;
      assert |Filter(events, IsMergeEvent)| == |merges|;
    }
  }

  /** An event gives a merged pull request exactly when it is a merge. */
  lemma MergedOf(e: Event)
    ensures var c := ContributionOf(e);
      |Filter(if c.Some? then [c.value] else [], IsMergedPr)| == |Filter([e], IsMergeEvent)|
  {
  }

  /** At most one contribution per event. */
  lemma {:induction false} ContributionsAtMostEvents(events: seq<Event>)
    ensures |Contributions(events)| <= |events|
    decreases |events|
  {
    if events != [] {
      ContributionsAtMostEvents(events[..|events| - 1]);
    }
  }

  // ---------------------------------------------------------------------
  // Timeline

  datatype TimelineItem = TimelineItem(date: int, contributions: seq<Contribution>, count: nat)

  function DateOf(item: TimelineItem): int { item.date }

  function CreatedDay(c: Contribution): int { Day(c.createdAt) }

  function OnDay(d: int): Contribution -> bool {
    c => CreatedDay(c) == d
  }

  function Days(cs: seq<Contribution>): (r: seq<int>)
    ensures |r| == |cs| && forall i :: 0 <= i < |cs| ==> r[i] == CreatedDay(cs[i])
  {
    seq(|cs|, i requires 0 <= i < |cs| => CreatedDay(cs[i]))
  }

  function GroupOf(cs: seq<Contribution>, d: int): TimelineItem {
    var g := Filter(cs, OnDay(d));
    TimelineItem(d, g, |g|)
  }

  /** One item per distinct day, in first-seen order: the `Map`'s entries. */
  function Groups(cs: seq<Contribution>): (r: seq<TimelineItem>)
    ensures |r| == |Dedup(Days(cs))|
    ensures forall i :: 0 <= i < |r| ==> r[i] == GroupOf(cs, Dedup(Days(cs))[i])
  {
    var ds := Dedup(Days(cs));
    seq(|ds|, i requires 0 <= i < |ds| => GroupOf(cs, ds[i]))
  }

  /** `buildContributionTimeline(contributions)` */
  function Timeline(cs: seq<Contribution>): seq<TimelineItem> {
    SortDesc(Groups(cs), DateOf)
  }

  /** `buildContributionTimeline(contributions)`: the map filled day by day, then its entries sorted newest first. */
  method BuildContributionTimeline(cs: seq<Contribution>) returns (r: seq<TimelineItem>)
    ensures r == Timeline(cs)
  {
    var keys, groups := FillTimelineMap(cs);
    forall k | 0 <= k < |keys|
      ensures keys[k] in groups
    {
      assert keys[k] in keys;
    }
    var entries := seq(|keys|, k requires 0 <= k < |keys| => TimelineItem(keys[k], groups[keys[k]], |groups[keys[k]]|));
    assert entries == Groups(cs);
    r := SortDesc(entries, DateOf);
  }

  /** The `forEach` over the contributions: `keys` is the map's insertion order. */
  method FillTimelineMap(cs: seq<Contribution>) returns (keys: seq<int>, groups: map<int, seq<Contribution>>)
    ensures keys == Dedup(Days(cs))
    ensures forall d :: d in groups <==> d in keys
    ensures forall d :: d in groups ==> groups[d] == Filter(cs, OnDay(d))
  {
    keys, groups := [], map[];
    for i := 0 to |cs|
      invariant keys == Dedup(Days(cs[..i]))
      invariant forall d :: d in groups <==> d in keys
      invariant forall d :: d in groups ==> groups[d] == Filter(cs[..i], OnDay(d))
    {
      var d := CreatedDay(cs[i]);
      GroupStep(cs, i, keys, groups);
      if d !in groups {
        keys := keys + [d];
        groups := groups[d := [cs[i]]];
      } else {
        groups := groups[d := groups[d] + [cs[i]]];
      }
    }
    assert cs[..|cs|] == cs;
  }

  /** Adding `cs[i]` to the map: a new key when its day is new, one more contribution in its day's list. */
  lemma GroupStep(cs: seq<Contribution>, i: nat, keys: seq<int>, groups: map<int, seq<Contribution>>)
    requires i < |cs|
    requires keys == Dedup(Days(cs[..i]))
    requires forall d :: d in groups <==> d in keys
    requires forall d :: d in groups ==> groups[d] == Filter(cs[..i], OnDay(d))
    ensures var d := CreatedDay(cs[i]);
      Dedup(Days(cs[..i + 1])) == if d in groups then keys else keys + [d]
    ensures forall e :: e in groups ==>
      Filter(cs[..i + 1], OnDay(e)) == groups[e] + (if e == CreatedDay(cs[i]) then [cs[i]] else [])
    ensures CreatedDay(cs[i]) !in groups ==> Filter(cs[..i + 1], OnDay(CreatedDay(cs[i]))) == [cs[i]]
  {
    var c := cs[i];
    var d := CreatedDay(c);
    DaysStep(cs, i);
    DedupStep(Days(cs[..i]), d);
    forall e | e in groups
      ensures Filter(cs[..i + 1], OnDay(e)) == groups[e] + (if e == d then [c] else [])
    {
      FilterDayStep(cs, i, e);
    }
    if d !in groups {
      FilterDayStep(cs, i, d);
      NoneOnDay(cs[..i], d);
    }
  }

  lemma DaysStep(cs: seq<Contribution>, i: nat)
    requires i < |cs|
    ensures Days(cs[..i + 1]) == Days(cs[..i]) + [CreatedDay(cs[i])]
  {
    assert cs[..i + 1] == cs[..i] + [cs[i]];
  }

  lemma FilterDayStep(cs: seq<Contribution>, i: nat, e: int)
    requires i < |cs|
    ensures Filter(cs[..i + 1], OnDay(e)) == Filter(cs[..i], OnDay(e)) + (if e == CreatedDay(cs[i]) then [cs[i]] else [])
  {
    assert cs[..i + 1] == cs[..i] + [cs[i]];
    FilterAppend(cs[..i], [cs[i]], OnDay(e));
  }

  lemma {:induction false} NoneOnDay(cs: seq<Contribution>, d: int)
    requires d !in Days(cs)
    ensures Filter(cs, OnDay(d)) == []
    decreases |cs|
  {
    if cs != [] {
      assert Days(cs)[0] == CreatedDay(cs[0]);
      assert Days(cs[1..]) == Days(cs)[1..];
      NoneOnDay(cs[1..], d);
    }
  }

  /** The days of the items, in item order. */
  function DatesOf(items: seq<TimelineItem>): (r: seq<int>)
    ensures |r| == |items| && forall i :: 0 <= i < |items| ==> r[i] == items[i].date
  {
    seq(|items|, i requires 0 <= i < |items| => items[i].date)
  }

  function TotalCount(items: seq<TimelineItem>): nat
    decreases |items|
  {
    if items == [] then 0 else items[0].count + TotalCount(items[1..])
  }

  /** `|Filter(cs, OnDay(d))|` summed over the days `ds`. */
  function SumOver(ds: seq<int>, cs: seq<Contribution>): nat
    decreases |ds|
  {
    if ds == [] then 0 else |Filter(cs, OnDay(ds[0]))| + SumOver(ds[1..], cs)
  }

  function Occurrences(ds: seq<int>, x: int): nat
    decreases |ds|
  {
    if ds == [] then 0 else (if ds[0] == x then 1 else 0) + Occurrences(ds[1..], x)
  }

  lemma {:induction false} SumOverAppend(ds: seq<int>, cs: seq<Contribution>, c: Contribution)
    ensures SumOver(ds, cs + [c]) == SumOver(ds, cs) + Occurrences(ds, CreatedDay(c))
    decreases |ds|
  {
    if ds != [] {
      SumOverAppend(ds[1..], cs, c);
      FilterAppend(cs, [c], OnDay(ds[0]));
    }
  }

  lemma {:induction false} SumOverEmpty(ds: seq<int>)
    ensures SumOver(ds, []) == 0
    decreases |ds|
  {
    if ds != [] {
      SumOverEmpty(ds[1..]);
    }
  }

  lemma {:induction false} OccursOnce(ds: seq<int>, x: int)
    requires x in ds && forall i, j :: 0 <= i < j < |ds| ==> ds[i] != ds[j]
    ensures Occurrences(ds, x) == 1
    decreases |ds|
  {
    if ds[0] == x {
      NotOccurring(ds[1..], x);
    } else {
      OccursOnce(ds[1..], x);
    }
  }

  lemma {:induction false} NotOccurring(ds: seq<int>, x: int)
    requires x !in ds
    ensures Occurrences(ds, x) == 0
    decreases |ds|
  {
    if ds != [] {
      NotOccurring(ds[1..], x);
    }
  }

  /** Summed over distinct days that cover every contribution, the per-day counts add up to the number of contributions. */
  lemma {:induction false} SumOverCovers(ds: seq<int>, cs: seq<Contribution>)
    requires forall i, j :: 0 <= i < j < |ds| ==> ds[i] != ds[j]
    requires forall c :: c in cs ==> CreatedDay(c) in ds
    ensures SumOver(ds, cs) == |cs|
    decreases |cs|
  {
    if cs == [] {
      SumOverEmpty(ds);
    } else {
      var init := cs[..|cs| - 1];
      var c := cs[|cs| - 1];
      SplitLast(cs);
      SumOverCovers(ds, init);
      SumOverAppend(ds, init, c);
      OccursOnce(ds, CreatedDay(c));
    }
  }

  lemma {:induction false} TotalCountIsSumOver(items: seq<TimelineItem>, cs: seq<Contribution>)
    requires forall it :: it in items ==> it == GroupOf(cs, it.date)
    ensures TotalCount(items) == SumOver(DatesOf(items), cs)
    decreases |items|
  {
    if items != [] {
      TotalCountIsSumOver(items[1..], cs);
      assert DatesOf(items)[1..] == DatesOf(items[1..]);
    }
  }

  lemma TimelineItemsAreGroups(cs: seq<Contribution>, it: TimelineItem)
    requires it in Timeline(cs)
    ensures it == GroupOf(cs, it.date) && it.count > 0
  {
    var g := Groups(cs);
    var ds := Dedup(Days(cs));
    assert it in multiset(g);
    var i :| 0 <= i < |g| && g[i] == it;
    assert ds[i] in Days(cs);
    var k :| 0 <= k < |cs| && Days(cs)[k] == ds[i];
    assert cs[k] in Filter(cs, OnDay(ds[i]));
  }

  lemma TimelineCovers(cs: seq<Contribution>, c: Contribution)
    requires c in cs
    ensures CreatedDay(c) in DatesOf(Timeline(cs))
  {
    var g := Groups(cs);
    var ds := Dedup(Days(cs));
    var t := Timeline(cs);
    var k :| 0 <= k < |cs| && cs[k] == c;
    assert Days(cs)[k] in ds;
    var i :| 0 <= i < |ds| && ds[i] == CreatedDay(c);
    assert g[i] in multiset(t);
    var j :| 0 <= j < |t| && t[j] == g[i];
  }

  lemma TimelineDatesDistinct(cs: seq<Contribution>)
    ensures DistinctBy(Timeline(cs), DateOf)
  {
    var g := Groups(cs);
    assert DistinctBy(g, DateOf);
    PermutationDistinctBy(g, Timeline(cs), DateOf);
  }

  /**
   * The timeline has one item per distinct day, newest first; each item
   * holds that day's contributions in input order and counts them; the
   * counts add up to the number of contributions.
   */
  lemma TimelineFacts(cs: seq<Contribution>)
    ensures forall it :: it in Timeline(cs) ==>
      it.contributions == Filter(cs, OnDay(it.date)) && it.count == |it.contributions| && it.count > 0
    ensures forall c :: c in cs ==> CreatedDay(c) in DatesOf(Timeline(cs))
    ensures forall i, j :: 0 <= i < j < |Timeline(cs)| ==> Timeline(cs)[i].date > Timeline(cs)[j].date
    ensures TotalCount(Timeline(cs)) == |cs|
  {
    var t := Timeline(cs);
    forall it | it in t
      ensures it == GroupOf(cs, it.date) && it.count > 0
    {
      TimelineItemsAreGroups(cs, it);
    }
    forall c | c in cs
      ensures CreatedDay(c) in DatesOf(t)
    {
      TimelineCovers(cs, c);
    }
    TimelineDatesDistinct(cs);
    TotalCountIsSumOver(t, cs);
    SumOverCovers(DatesOf(t), cs);
  }

  // ---------------------------------------------------------------------
  // Statistics

  /** The profile fields copied from the user record. */
  datatype UserData = UserData(login: string, avatarUrl: string, htmlUrl: string)

  /** `ContributorStats`; the first and last contribution dates are day numbers. */
  datatype ContributorStats = ContributorStats(
    username: string,
    avatarUrl: string,
    profileUrl: string,
    totalContributions: nat,
    issuesClosed: nat,
    prsMerged: nat,
    commits: nat,
    reviews: nat,
    repositoriesContributed: nat,
    languages: seq<string>,
    impactScore: int,
    currentStreak: nat,
    longestStreak: nat,
    contributionsThisWeek: nat,
    contributionsThisMonth: nat,
    contributionsThisYear: nat,
    firstContributionDate: int,
    lastContributionDate: int,
    achievements: seq<Achievement>,
    contributions: seq<Contribution>
  )

  /** Created at or after the instant `t`. */
  function Since(t: int): Contribution -> bool {
    (c: Contribution) => c.createdAt >= t
  }

  const WeekMs: int := 7 * Freshness.MsPerDay
  const MonthMs: int := 30 * Freshness.MsPerDay
  const YearMs: int := 365 * Freshness.MsPerDay

  /** A longer window counts every contribution a shorter one counts. */
  lemma WindowsNest(cs: seq<Contribution>, now: int, shorter: int, longer: int)
    requires shorter <= longer
    ensures CountWhere(cs, Since(now - shorter)) <= CountWhere(cs, Since(now - longer)) <= |cs|
  {
    FilterWeaker(cs, Since(now - shorter), Since(now - longer));
  }

  /**
   * `sortedDates[0] || today` and `sortedDates[sortedDates.length - 1] || today`:
   * the earliest and the latest of the days.
   */
  method DateRange(days: seq<int>, today: int) returns (first: int, last: int)
    ensures days == [] ==> first == last == today
    ensures days != [] ==> first in days && last in days
    ensures forall x :: x in days ==> first <= x <= last
  {
    var sorted := SortDesc(days, Identity);
    first, last := today, today;
    if |sorted| > 0 {
      first, last := sorted[|sorted| - 1], sorted[0];
      forall x | x in days
        ensures first <= x <= last
      {
        assert x in multiset(sorted);
        var k :| 0 <= k < |sorted| && sorted[k] == x;
      }
      assert first in multiset(sorted) && last in multiset(sorted);
    }
  }

  /** The time-based counts of `fetchContributorData`: contributions of the last 7, 30 and 365 days. */
  method TimeWindows(cs: seq<Contribution>, now: int) returns (week: nat, month: nat, year: nat)
    ensures week == CountWhere(cs, Since(now - WeekMs))
    ensures month == CountWhere(cs, Since(now - MonthMs))
    ensures year == CountWhere(cs, Since(now - YearMs))
    ensures week <= month <= year <= |cs|
  {
    week := CountWhere(cs, Since(now - WeekMs));
    month := CountWhere(cs, Since(now - MonthMs));
    year := CountWhere(cs, Since(now - YearMs));
    WindowsNest(cs, now, WeekMs, MonthMs);
    WindowsNest(cs, now, MonthMs, YearMs);
  }

  /** The counts of the statistics, each tied to its definition over the contributions of `events`. */
  ghost predicate CountsOf(stats: ContributorStats, user: UserData, events: seq<Event>, now: int, nowIso: string) {
    var cs := Contributions(events);
    stats.username == user.login && stats.contributions == cs
    && stats.totalContributions == |cs| <= |events|
    && stats.issuesClosed == CountWhere(cs, IsClosedIssue)
    && stats.prsMerged == |Filter(events, IsMergeEvent)|
    && stats.commits == CountWhere(cs, IsCommit)
    && stats.reviews == 0 && stats.languages == []
    && stats.repositoriesContributed == |Repositories(events)|
    && stats.contributionsThisWeek == CountWhere(cs, Since(now - WeekMs))
    && stats.contributionsThisMonth == CountWhere(cs, Since(now - MonthMs))
    && stats.contributionsThisYear == CountWhere(cs, Since(now - YearMs))
    && stats.contributionsThisWeek <= stats.contributionsThisMonth
      <= stats.contributionsThisYear <= stats.totalContributions
    && stats.achievements == Achievements(AchievementInputs(stats.issuesClosed, stats.prsMerged,
      stats.commits, stats.currentStreak, stats.repositoriesContributed, stats.totalContributions), nowIso)
  }

  /** The streaks and the date range of the statistics, over the distinct days of `events`. */
  ghost predicate StreaksOf(stats: ContributorStats, events: seq<Event>, now: int) {
    var days := SortDesc(Dedup(EventDays(events)), Identity);
    IsCurrentRun(days, Day(now), stats.currentStreak)
    && IsLongestRun(days, stats.longestStreak)
    && stats.currentStreak <= stats.longestStreak
    && (events == [] <==> stats.longestStreak == 0)
    && (events == [] ==> stats.firstContributionDate == stats.lastContributionDate == Day(now))
    && (events != [] ==>
      stats.firstContributionDate in EventDays(events) && stats.lastContributionDate in EventDays(events))
    && (forall x :: x in EventDays(events) ==> stats.firstContributionDate <= x <= stats.lastContributionDate)
  }

  /**
   * The statistics part of `fetchContributorData`, from the user record
   * and the events response up to the `stats` literal, whose impact score
   * is 0 until the next step; `now` is the clock in milliseconds and
   * `nowIso` its ISO text, used as the achievements' unlock time.
   */
  method CollectStats(user: UserData, events: seq<Event>, now: int, nowIso: string) returns (stats: ContributorStats)
    ensures CountsOf(stats, user, events, now, nowIso) && StreaksOf(stats, events, now)
    ensures stats.impactScore == 0
  {
    var cs, repos, days := ProcessEvents(events);
    ContributionsAtMostEvents(events);
    ReviewsAlwaysZero(events);
    MergedPrsCountEvents(events);
    var issuesClosed := CountWhere(cs, IsClosedIssue);
    var prsMerged := CountWhere(cs, IsMergedPr);
    var commits := CountWhere(cs, IsCommit);
    var reviews := CountWhere(cs, IsReview);
    var current, longest := CalculateStreaks(days, Day(now));
    var first, last := DateRange(days, Day(now));
    var week, month, year := TimeWindows(cs, now);
    var achievements := GenerateAchievements(
      AchievementInputs(issuesClosed, prsMerged, commits, current, |repos|, |cs|), nowIso);
    stats := ContributorStats(user.login, user.avatarUrl, user.htmlUrl, |cs|, issuesClosed, prsMerged,
      commits, reviews, |repos|, [], 0, current, longest, week, month, year, first, last,
      achievements, cs);
    StreaksFrom(stats, events, now, days);
  }

  /** The streak and date-range results over the distinct days of `events` make up `StreaksOf`. */
  lemma StreaksFrom(stats: ContributorStats, events: seq<Event>, now: int, days: seq<int>)
    requires days == Dedup(EventDays(events))
    requires IsCurrentRun(SortDesc(days, Identity), Day(now), stats.currentStreak)
    requires IsLongestRun(SortDesc(days, Identity), stats.longestStreak)
    requires stats.currentStreak <= stats.longestStreak
    requires days == [] <==> stats.longestStreak == 0
    requires days == [] ==> stats.firstContributionDate == stats.lastContributionDate == Day(now)
    requires days != [] ==> stats.firstContributionDate in days && stats.lastContributionDate in days
    requires forall x :: x in days ==> stats.firstContributionDate <= x <= stats.lastContributionDate
    ensures StreaksOf(stats, events, now)
  {
    assert events == [] <==> days == [] by {
      if events != [] {
        assert EventDays(events)[0] in days;
      }
    }
  }

  /** `fetchContributorData` from the user record and the events response: the statistics, then their impact score. */
  method Summarize(user: UserData, events: seq<Event>, now: int, nowIso: string) returns (stats: ContributorStats)
    ensures CountsOf(stats, user, events, now, nowIso) && StreaksOf(stats, events, now)
    ensures stats.impactScore == ImpactScore(ImpactInputs(Some(stats.issuesClosed), Some(stats.prsMerged),
      Some(stats.commits), Some(stats.reviews), Some(stats.currentStreak)))
    ensures 0 <= stats.impactScore <= 100
  {
    stats := CollectStats(user, events, now, nowIso);
    var score := ImpactScore(ImpactInputs(Some(stats.issuesClosed), Some(stats.prsMerged),
      Some(stats.commits), Some(stats.reviews), Some(stats.currentStreak)));
    stats := stats.(impactScore := score);
  }
}
