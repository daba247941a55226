/**
 * The personalised issue list (client/src/hooks/usePersonalizedIssues.ts):
 * the first fetched issues unscored while no usable profile is loaded, the
 * best matches once one is.
 *
 * The fetched issues and the profile lookup's outcome are inputs; the
 * clock is the parameter `now` the scorer needs.
 */
module PersonalizedIssues {
  import opened Wrappers
  import opened Text
  import opened Seqs
  import opened Sorting
  import opened GitHub
  import opened IssueMatcher

  /** An issue shown without a score. */
  function Unscored(issue: Issue): IssueMatch {
    IssueMatch(issue, 0, [], None, None)
  }

  /** A profile the hook scores with: present, and with a language list or a repository list. */
  predicate Usable(profile: Option<UserProfile>) {
    profile.Some? && (profile.value.languages.Some? || profile.value.repositories.Some?)
  }

  /** What the matching effect stores in `matchedIssues`; `items` is `data?.items`. */
  function MatchedIssues(items: Option<seq<Issue>>, profile: Option<UserProfile>, limit: nat, now: int): seq<IssueMatch> {
    if items.None? || |items.value| == 0 then []
    else if !Usable(profile) then
      var first := Take(items.value, limit);
      seq(|first|, i requires 0 <= i < |first| => Unscored(first[i]))
    else Take(MatchIssues(items.value, profile.value, now), limit)
  }

  // ---------------------------------------------------------------------
  // Properties

  /** No fetched issue, no match. */
  lemma NoItemsNoMatches(items: Option<seq<Issue>>, profile: Option<UserProfile>, limit: nat, now: int)
    requires items.None? || items.value == []
    ensures MatchedIssues(items, profile, limit, now) == []
  {
  }

  /** Without a usable profile the first `limit` issues are shown in fetch order, each with score 0 and no reason. */
  lemma UnscoredPrefix(items: seq<Issue>, profile: Option<UserProfile>, limit: nat, now: int)
    requires items != [] && !Usable(profile)
    ensures var r := MatchedIssues(Some(items), profile, limit, now);
      |r| == (if |items| < limit then |items| else limit)
      && forall i :: 0 <= i < |r| ==> r[i].issue == items[i] && r[i].matchScore == 0 && r[i].reasons == []
  {
  }

  /**
   * With a usable profile the best `limit` of the scored matches are
   * shown, best first: as many as there are up to `limit`, drawn from
   * them, and any match left out scores no higher than every match shown.
   */
  lemma ScoredMatches(items: seq<Issue>, profile: Option<UserProfile>, limit: nat, now: int)
    requires items != [] && Usable(profile)
    ensures var r := MatchedIssues(Some(items), profile, limit, now);
      (forall i :: 0 <= i < |r| ==> 0 < r[i].matchScore <= 100)
      && SortedDesc(r, MatchScoreOf)
    ensures var all := MatchIssues(items, profile.value, now);
      var r := MatchedIssues(Some(items), profile, limit, now);
      |r| == (if |all| < limit then |all| else limit)
      && multiset(r) <= multiset(all)
      && forall m :: m in all && m !in r ==>
           |r| == limit && forall i :: 0 <= i < |r| ==> m.matchScore <= r[i].matchScore
  {
    var all := MatchIssues(items, profile.value, now);
    assert MatchedIssues(Some(items), profile, limit, now) == Take(all, limit);
    BestMatches(all, limit);
  }

  /** The first `limit` of matches sorted best first are the best ones, still sorted. */
  lemma BestMatches(all: seq<IssueMatch>, limit: nat)
    requires SortedDesc(all, MatchScoreOf)
    requires forall i :: 0 <= i < |all| ==> 0 < all[i].matchScore <= 100
    ensures var r := Take(all, limit);
      (forall i :: 0 <= i < |r| ==> 0 < r[i].matchScore <= 100)
      && SortedDesc(r, MatchScoreOf)
      && |r| == (if |all| < limit then |all| else limit)
      && multiset(r) <= multiset(all)
      && forall m :: m in all && m !in r ==>
           |r| == limit && forall i :: 0 <= i < |r| ==> m.matchScore <= r[i].matchScore
  {
    var r := Take(all, limit);
    SortedDescTake(all, |r|, MatchScoreOf);
    TakeSortedBest(all, limit, MatchScoreOf);
    assert forall i :: 0 <= i < |r| ==> r[i] == all[i];
  }

  /** The list never holds more than `limit` entries. */
  lemma AtMostLimit(items: Option<seq<Issue>>, profile: Option<UserProfile>, limit: nat, now: int)
    ensures |MatchedIssues(items, profile, limit, now)| <= limit
  {
  }

  /** An empty language list still counts as a profile, as an empty array is truthy. */
  lemma EmptyListsAreUsable(p: UserProfile)
    requires p.languages == Some([]) && p.repositories == None
    ensures Usable(Some(p))
  {
  }

  // ---------------------------------------------------------------------
  // The hook's profile state

  /** The outcome of `fetchUserProfile`: a profile (possibly without a username) or the message of the error it raised. */
  datatype Lookup = Found(profile: UserProfile) | Raised(message: string)

  const NotFoundMessage: string := "User not found or profile unavailable"

  class ProfileState {
    var profile: Option<UserProfile>
    var error: Option<string>
    var isLoadingProfile: bool

    constructor()
      ensures profile == None && error == None && !isLoadingProfile
    {
      profile := None;
      error := None;
      isLoadingProfile := false;
    }

    /**
     * `loadProfileFromGitHub(username)`; `lookup` is what
     * `fetchUserProfile(username.trim())` yields. A blank name clears the
     * profile; a profile without a username is an error and keeps the
     * profile loaded before.
     */
    method LoadProfileFromGitHub(username: string, lookup: Lookup)
      modifies this
      ensures Trim(username) == "" ==>
        profile == None && error == old(error) && isLoadingProfile == old(isLoadingProfile)
      ensures Trim(username) != "" ==>
        !isLoadingProfile
        && match lookup
           case Found(p) =>
             if p.username != "" then profile == Some(p) && error == None
             else profile == old(profile) && error == Some(NotFoundMessage)
           case Raised(m) => profile == old(profile) && error == Some(m)
    {
      if Trim(username) == "" {
        profile := None;
        return;
      }
      isLoadingProfile := true;
      error := None;
      match lookup {
        case Found(p) =>
          if p.username != "" {
            profile := Some(p);
          } else {
            error := Some(NotFoundMessage);
          }
        case Raised(m) =>
          error := Some(m);
      }
      isLoadingProfile := false;
    }
  }
}
