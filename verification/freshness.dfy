/**
 * How recently an issue was updated (client/src/utils/issueFreshness.ts).
 *
 * Timestamps are milliseconds since the epoch; the current time is a
 * parameter. An absent or empty `updated_at` is `None`.
 */
module Freshness {
  import opened Wrappers
  import opened Text

  datatype Status = Active | Stale | Inactive

  datatype FreshnessInfo = FreshnessInfo(
    status: Status,
    daysSinceUpdate: int,
    displayLabel: string,  // `label` in the source
    description: string
  )

  const MsPerDay: int := 1000 * 60 * 60 * 24

  /** Whole days elapsed, rounded down; a missing update time falls back to the creation time. */
  function DaysSinceUpdate(updatedAt: Option<int>, createdAt: int, now: int): (d: int)
    ensures var t := if updatedAt.Some? then updatedAt.value else createdAt;
      d * MsPerDay <= now - t < (d + 1) * MsPerDay
  {
    var t := if updatedAt.Some? then updatedAt.value else createdAt;
    (now - t) / MsPerDay
  }

  /** `n` followed by the singular or plural unit. */
  function CountOf(n: nat, singular: string, plural: string): string {
    NatToString(n) + " " + (if n == 1 then singular else plural)
  }

  /** The freshness record for an issue last touched `d` whole days ago. */
  function Classify(d: int): (r: FreshnessInfo)
    ensures r.daysSinceUpdate == d
    ensures r.status == Active <==> d < 7
    ensures r.status == Stale <==> 7 <= d < 30
    ensures r.status == Inactive <==> 30 <= d
    ensures r.displayLabel == (match r.status case Active => "Active" case Stale => "Stale" case Inactive => "Inactive")
    ensures StartsWith(r.description, "Updated ")
  {
    if d < 7 then
      FreshnessInfo(Active, d, "Active",
        "Updated " + (if d == 0 then "today" else if d == 1 then "yesterday" else IntToString(d) + " days ago"))
    else if d < 30 then
      FreshnessInfo(Stale, d, "Stale", "Updated " + CountOf(d / 7, "week", "weeks") + " ago")
    else
      FreshnessInfo(Inactive, d, "Inactive", "Updated " + CountOf(d / 30, "month", "months") + " ago")
  }

  /** `calculateFreshness(updatedAt, createdAt)` at time `now`. */
  function CalculateFreshness(updatedAt: Option<int>, createdAt: int, now: int): FreshnessInfo {
    Classify(DaysSinceUpdate(updatedAt, createdAt, now))
  }

  function Rank(s: Status): nat {
    match s
    case Active => 0
    case Stale => 1
    case Inactive => 2
  }

  /** The older the last update, the staler the status: it never goes back from inactive to stale or active. */
  lemma StatusMonotone(d1: int, d2: int)
    requires d1 <= d2
    ensures Rank(Classify(d1).status) <= Rank(Classify(d2).status)
  {
  }

  /** An issue with no update time is judged by its creation time. */
  lemma MissingUpdateUsesCreation(createdAt: int, now: int)
    ensures CalculateFreshness(None, createdAt, now) == CalculateFreshness(Some(createdAt), createdAt, now)
  {
  }

  /** Less than a day after the update the issue reads "Updated today"; one to two days after, "Updated yesterday". */
  lemma RecentDescriptions(t: int, now: int)
    ensures 0 <= now - t < MsPerDay ==> CalculateFreshness(Some(t), t, now).description == "Updated today"
    ensures MsPerDay <= now - t < 2 * MsPerDay ==>
      CalculateFreshness(Some(t), t, now).description == "Updated yesterday"
  {
    var d := DaysSinceUpdate(Some(t), t, now);
    if 0 <= now - t < MsPerDay {
      assert d == 0;
    }
    if MsPerDay <= now - t < 2 * MsPerDay {
      assert d == 1;
    }
  }

  /** Two to six days after the update the issue reads "Updated d days ago", with d as a single digit. */
  lemma FewDays(d: int)
    requires 2 <= d < 7
    ensures Classify(d).status == Active
    ensures Classify(d).description == "Updated " + [DigitChar(d)] + " days ago"
    ensures Classify(d).description != "Updated today" && Classify(d).description != "Updated yesterday"
  {
    assert IntToString(d) == NatToString(d) == [DigitChar(d)];
    assert Classify(d).description == "Updated " + [DigitChar(d)] + " days ago";
    assert |Classify(d).description| == 18;
  }

  /** A stale issue is counted in one to four weeks, "week" in the singular exactly for 7 to 13 days. */
  lemma StaleWeeks(d: int)
    requires 7 <= d < 30
    ensures 1 <= d / 7 <= 4
    ensures Classify(d).description == "Updated " + CountOf(d / 7, "week", "weeks") + " ago"
    ensures Classify(d).description == "Updated 1 week ago" <==> d < 14
  {
    CountIsOne(d / 7, "week", "weeks");
    Updated(CountOf(d / 7, "week", "weeks"), "1 week");
    assert "Updated 1 week ago" == "Updated " + "1 week" + " ago";
  }

  /** An inactive issue is counted in months of 30 days, "month" in the singular exactly for 30 to 59 days. */
  lemma InactiveMonths(d: int)
    requires 30 <= d
    ensures 1 <= d / 30
    ensures Classify(d).description == "Updated " + CountOf(d / 30, "month", "months") + " ago"
    ensures Classify(d).description == "Updated 1 month ago" <==> d < 60
  {
    CountIsOne(d / 30, "month", "months");
    Updated(CountOf(d / 30, "month", "months"), "1 month");
    assert "Updated 1 month ago" == "Updated " + "1 month" + " ago";
  }

  /** A count reads "1 unit" exactly when it is one, the plural being no shorter than the singular. */
  lemma CountIsOne(n: nat, singular: string, plural: string)
    requires |plural| >= |singular|
    ensures CountOf(n, singular, plural) == "1 " + singular <==> n == 1
  {
    if n != 1 {
      var s := CountOf(n, singular, plural);
      if n < 10 {
        assert NatToString(n) == [DigitChar(n)];
        assert s[0] != ("1 " + singular)[0];
      } else {
        NatToStringAtLeastTwo(n);
        assert |s| > |"1 " + singular|;
      }
    }
  }

  /** Two descriptions "Updated x ago" are equal exactly when their middles are. */
  lemma Updated(x: string, y: string)
    ensures "Updated " + x + " ago" == "Updated " + y + " ago" <==> x == y
  {
    if "Updated " + x + " ago" == "Updated " + y + " ago" {
      assert |x| == |y|;
      assert x == ("Updated " + x + " ago")[8..8 + |x|];
      assert y == ("Updated " + y + " ago")[8..8 + |y|];
    }
  }

  lemma NatToStringAtLeastTwo(n: nat)
    requires n >= 10
    ensures |NatToString(n)| >= 2
  {
    assert NatToString(n) == NatToString(n / 10) + [DigitChar(n % 10)];
  }
}
