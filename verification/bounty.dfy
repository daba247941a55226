/**
 * The bounty-issue feed (client/src/components/BountyIssues.tsx).
 *
 * The component runs six search queries one after another, collects the
 * issues it has not seen before, keeps the open and unassigned ones,
 * verifies them as bounty issues (falling back to all open ones when
 * verification would leave nothing), and merges them with the issues on
 * screen, newest first, at most 30. The network is a parameter: one entry
 * per query, `None` for a query that failed (a non-OK response, a thrown
 * error, or a body without `items`), `Some(items)` for one that succeeded.
 */
module Bounty {
  import opened Wrappers
  import opened Text
  import opened Seqs
  import opened Sorting
  import opened GitHub

  /** Keywords looked for in label names. */
  const BountyLabelKeywords: seq<string> := [
    "bounty", "bountysource", "funded", "cash-prize", "sponsor", "paid",
    "bounty-ready", "bounty-available", "reward", "prize", "issuehunt"
  ]

  /** Keywords looked for in the title and the body ("cash prize" is listed twice, as in the source). */
  const TextKeywords: seq<string> := [
    "bounty", "bounties", "bountysource", "issuehunt",
    "cash prize", "cash prize", "cash reward", "monetary reward",
    "sponsor", "sponsorship", "sponsored",
    "paid", "payment", "reward", "prize", "prize money",
    "funded", "funding", "compensation", "compensated"
  ]

  /** The most issues the feed shows. */
  const MaxShown: nat := 30

  const FetchErrorMessage: string :=
    "Unable to fetch bounty issues. This might be due to rate limiting or network issues. Please try again in a moment."

  // ---------------------------------------------------------------------
  // Verification

  /** `hasBountyLabel(labels)` */
  predicate HasBountyLabel(labels: seq<Label>) {
    if |labels| == 0 then false else SomeLabelContains(labels, BountyLabelKeywords)
  }

  /** `isBountyIssue(issue)`: a bounty label, or a keyword in the title, or in the body when there is one. */
  predicate IsBountyIssue(issue: Issue) {
    HasBountyLabel(issue.labels)
    || ContainsAny(Lower(issue.title), TextKeywords)
    || (issue.body != "" && ContainsAny(Lower(issue.body), TextKeywords))
  }

  /** An empty list has no bounty label; otherwise one label naming a keyword is enough. */
  lemma HasBountyLabelIff(labels: seq<Label>)
    ensures HasBountyLabel(labels) <==>
      exists i, k :: 0 <= i < |labels| && k in BountyLabelKeywords && Contains(LabelName(labels[i]), k)
  {
  }

  /** No keyword is empty, so the empty text contains none of them. */
  lemma EmptyTextHasNoKeyword(keywords: seq<string>)
    requires forall k :: k in keywords ==> |k| > 0
    ensures !ContainsAny("", keywords)
  {
    forall k | k in keywords
      ensures !Contains("", k)
    {
      assert |k| > 0;
    }
  }

  /** The `if (issue.body)` guard changes nothing: an issue is a bounty issue exactly when one of the three texts names a keyword. */
  lemma BodyGuardIsRedundant(issue: Issue)
    ensures IsBountyIssue(issue) <==>
      SomeLabelContains(issue.labels, BountyLabelKeywords)
      || ContainsAny(Lower(issue.title), TextKeywords)
      || ContainsAny(Lower(issue.body), TextKeywords)
  {
    if issue.body == "" {
      assert Lower(issue.body) == "";
      EmptyTextHasNoKeyword(TextKeywords);
    }
  }

  /** The candidate filter: open, with no assignee, not a pull request. */
  predicate OpenUnassigned(issue: Issue) {
    issue.state == "open"
    && !issue.hasAssignee
    && issue.assigneeCount == 0
    && !issue.isPullRequest
    && !Contains(issue.htmlUrl, "/pull/")
  }

  /**
   * The open, unassigned issues that pass `isBountyIssue`; when none
   * passes but some are open, all the open ones unverified.
   */
  function Verify(all: seq<Issue>): (r: seq<Issue>)
    ensures forall x :: x in r ==> x in all && OpenUnassigned(x)
    ensures (exists x :: x in all && OpenUnassigned(x)) ==> |r| > 0
    ensures (exists x :: x in all && OpenUnassigned(x) && IsBountyIssue(x)) ==>
      r == Filter(Filter(all, OpenUnassigned), IsBountyIssue)
    ensures (forall x :: x in all && OpenUnassigned(x) ==> !IsBountyIssue(x)) ==>
      r == Filter(all, OpenUnassigned)
  {
    var open := Filter(all, OpenUnassigned);
    var verified := Filter(open, IsBountyIssue);
    assert |verified| > 0 ==> verified[0] in open && IsBountyIssue(verified[0]);
    if |verified| == 0 && |open| > 0 then open else verified
  }

  /** The issues kept keep their order, and when some bounty issue is open and unassigned every such issue is kept. */
  lemma VerifyKeepsOrder(all: seq<Issue>)
    ensures IsSubsequence(Verify(all), all)
    ensures (exists x :: x in all && OpenUnassigned(x) && IsBountyIssue(x)) ==>
      forall x :: x in all && OpenUnassigned(x) && IsBountyIssue(x) ==> x in Verify(all)
  {
    var open := Filter(all, OpenUnassigned);
    FilterIsSubsequence(all, OpenUnassigned);
    FilterIsSubsequence(open, IsBountyIssue);
    SubsequenceTransitive(Filter(open, IsBountyIssue), open, all);
    forall x | x in all && OpenUnassigned(x) && IsBountyIssue(x)
      ensures x in Filter(open, IsBountyIssue)
    {
      var i :| 0 <= i < |all| && all[i] == x;
      var j :| 0 <= j < |open| && open[j] == x;
    }
  }

  // ---------------------------------------------------------------------
  // Collecting the query results

  function IdOf(issue: Issue): int { issue.id }

  function CreatedAt(issue: Issue): int { issue.createdAt }

  function Ids(s: seq<Issue>): (r: set<int>)
    ensures forall x :: x in s ==> x.id in r
  {
    set x | x in s :: x.id
  }

  lemma IdsAppend(s: seq<Issue>, x: Issue)
    ensures Ids(s + [x]) == Ids(s) + {x.id}
  {
    forall id | id in Ids(s + [x])
      ensures id in Ids(s) + {x.id}
    {
      var y :| y in s + [x] && y.id == id;
    }
  }

  lemma FlattenStep(responses: seq<Option<seq<Issue>>>, i: nat)
    requires i < |responses|
    ensures Flatten(responses[..i + 1]) ==
      Flatten(responses[..i]) + (if responses[i].Some? then responses[i].value else [])
    ensures Successes(responses[..i + 1]) == Successes(responses[..i]) + (if responses[i].Some? then 1 else 0)
  {
    assert responses[..i + 1][..i] == responses[..i];
  }

  lemma UnseenStep(seen: set<int>, s: seq<Issue>, x: Issue)
    ensures Unseen(seen, s + [x]) ==
      if x.id in seen || x.id in Ids(Unseen(seen, s)) then Unseen(seen, s) else Unseen(seen, s) + [x]
  {
    assert (s + [x])[..|s|] == s;
  }

  /** The items of the successful queries, in query order. */
  function Flatten(responses: seq<Option<seq<Issue>>>): seq<Issue>
    decreases |responses|
  {
    if responses == [] then []
    else
      var last := responses[|responses| - 1];
      Flatten(responses[..|responses| - 1]) + (if last.Some? then last.value else [])
  }

  /** `successCount`: the number of queries that succeeded. */
  function Successes(responses: seq<Option<seq<Issue>>>): nat
    decreases |responses|
  {
    if responses == [] then 0
    else
      Successes(responses[..|responses| - 1]) + (if responses[|responses| - 1].Some? then 1 else 0)
  }

  lemma {:induction false} NoSuccessNoItems(responses: seq<Option<seq<Issue>>>)
    requires Successes(responses) == 0
    ensures Flatten(responses) == []
    decreases |responses|
  {
    if responses != [] {
      NoSuccessNoItems(responses[..|responses| - 1]);
    }
  }

  /** `s[k]` is the first element of `s` with its id. */
  predicate FirstOfId(s: seq<Issue>, k: int)
    requires 0 <= k < |s|
  {
    forall m :: 0 <= m < k ==> s[m].id != s[k].id
  }

  /**
   * The items in order, skipping every item whose id is in `seen` or was
   * taken earlier: the first occurrence of each new id.
   */
  function Unseen(seen: set<int>, s: seq<Issue>): (r: seq<Issue>)
    ensures DistinctBy(r, IdOf)
    ensures IsSubsequence(r, s)
    ensures forall x :: x in r ==> x in s && x.id !in seen
    ensures forall k :: 0 <= k < |s| && s[k].id !in seen && FirstOfId(s, k) ==> s[k] in r
    ensures forall x :: x in s && x.id !in seen ==> x.id in Ids(r)
    decreases |s|
  {
    if s == [] then []
    else
      var r0 := Unseen(seen, s[..|s| - 1]);
      var x := s[|s| - 1];
      var r := if x.id in seen || x.id in Ids(r0) then r0 else r0 + [x];
      UnseenGrows(seen, s, r0, r);
      r
  }

  /** The postconditions of `Unseen`, gathered for its recursive step. */
  ghost predicate UnseenFacts(seen: set<int>, s: seq<Issue>, r: seq<Issue>) {
    DistinctBy(r, IdOf)
    && IsSubsequence(r, s)
    && (forall x :: x in r ==> x in s && x.id !in seen)
    && (forall k :: 0 <= k < |s| && s[k].id !in seen && FirstOfId(s, k) ==> s[k] in r)
    && (forall x :: x in s && x.id !in seen ==> x.id in Ids(r))
  }

  /** One more item: it is taken exactly when its id is neither seen nor taken already. */
  lemma UnseenGrows(seen: set<int>, s: seq<Issue>, r0: seq<Issue>, r: seq<Issue>)
    requires s != [] && UnseenFacts(seen, s[..|s| - 1], r0)
    requires var x := s[|s| - 1];
      r == if x.id in seen || x.id in Ids(r0) then r0 else r0 + [x]
    ensures UnseenFacts(seen, s, r)
  {
    if s[|s| - 1].id in seen || s[|s| - 1].id in Ids(r0) {
      UnseenSkips(seen, s, r0);
    } else {
      UnseenTakes(seen, s, r0);
    }
  }

  lemma UnseenSkips(seen: set<int>, s: seq<Issue>, r0: seq<Issue>)
    requires s != [] && UnseenFacts(seen, s[..|s| - 1], r0)
    requires s[|s| - 1].id in seen || s[|s| - 1].id in Ids(r0)
    ensures UnseenFacts(seen, s, r0)
  {
    var init := s[..|s| - 1];
    var x := s[|s| - 1];
    SplitLast(s);
    assert forall y :: y in s ==> y in init || y == x;
    SubsequenceExtend(r0, init, x);
    UnseenFirstKept(seen, s, r0, r0);
  }

  lemma UnseenTakes(seen: set<int>, s: seq<Issue>, r0: seq<Issue>)
    requires s != [] && UnseenFacts(seen, s[..|s| - 1], r0)
    requires s[|s| - 1].id !in seen && s[|s| - 1].id !in Ids(r0)
    ensures UnseenFacts(seen, s, r0 + [s[|s| - 1]])
  {
    var init := s[..|s| - 1];
    var x := s[|s| - 1];
    SplitLast(s);
    DistinctSnoc(r0, x);
    SubsequenceSnoc(r0, init, x);
    TakenMembers(seen, s, r0);
    UnseenFirstKept(seen, s, r0, r0 + [x]);
  }

  /** Appending the last item, whose id is new, keeps the taken items exactly the unseen ones by id. */
  lemma TakenMembers(seen: set<int>, s: seq<Issue>, r0: seq<Issue>)
    requires s != [] && s[|s| - 1].id !in seen
    requires forall y :: y in r0 ==> y in s[..|s| - 1] && y.id !in seen
    requires forall y :: y in s[..|s| - 1] && y.id !in seen ==> y.id in Ids(r0)
    ensures forall y :: y in r0 + [s[|s| - 1]] ==> y in s && y.id !in seen
    ensures forall y :: y in s && y.id !in seen ==> y.id in Ids(r0 + [s[|s| - 1]])
    ensures forall y :: y in r0 ==> y in r0 + [s[|s| - 1]]
  {
    var x := s[|s| - 1];
    SplitLast(s);
    IdsAppend(r0, x);
  }

  lemma DistinctSnoc(r: seq<Issue>, x: Issue)
    requires DistinctBy(r, IdOf) && x.id !in Ids(r)
    ensures DistinctBy(r + [x], IdOf)
  {
    var t := r + [x];
    forall i, j | 0 <= i < j < |t|
      ensures IdOf(t[i]) != IdOf(t[j])
    {
      assert t[i] == r[i];
      if j < |r| {
        assert t[j] == r[j];
      } else {
        assert r[i] in r;
      }
    }
  }

  /** The first occurrences of the earlier items stay kept, and so does the last item's when it is one. */
  lemma UnseenFirstKept(seen: set<int>, s: seq<Issue>, r0: seq<Issue>, r: seq<Issue>)
    requires s != []
    requires forall k :: 0 <= k < |s| - 1 && s[k].id !in seen && FirstOfId(s[..|s| - 1], k) ==> s[..|s| - 1][k] in r0
    requires forall y :: y in r0 ==> y in r && y in s[..|s| - 1]
    requires s[|s| - 1] in r || s[|s| - 1].id in seen || s[|s| - 1].id in Ids(r0)
    ensures forall k :: 0 <= k < |s| && s[k].id !in seen && FirstOfId(s, k) ==> s[k] in r
  {
    var n := |s| - 1;
    forall k | 0 <= k < |s| && s[k].id !in seen && FirstOfId(s, k)
      ensures s[k] in r
    {
      if k < n {
        assert FirstOfId(s[..n], k);
      }
    }
  }

  /**
   * The query loop: each successful query's items are appended unless
   * their id has been seen, by an earlier fetch or earlier in this one.
   */
  method CollectResponses(seen0: set<int>, responses: seq<Option<seq<Issue>>>)
    returns (all: seq<Issue>, seen: set<int>, successCount: nat)
    ensures all == Unseen(seen0, Flatten(responses))
    ensures seen == seen0 + Ids(all)
    ensures successCount == Successes(responses)
  {
    all, seen, successCount := [], seen0, 0;
    for i := 0 to |responses|
      invariant all == Unseen(seen0, Flatten(responses[..i]))
      invariant seen == seen0 + Ids(all)
      invariant successCount == Successes(responses[..i])
    {
      FlattenStep(responses, i);
      if responses[i].Some? {
        all, seen := CollectItems(seen0, Flatten(responses[..i]), responses[i].value, all, seen);
        successCount := successCount + 1;
      } else {
        assert Flatten(responses[..i + 1]) == Flatten(responses[..i]);
      }
    }
    assert responses[..|responses|] == responses;
  }

  /** `json.items.forEach(...)`: one successful query's items, after those of the earlier queries. */
  method CollectItems(seen0: set<int>, before: seq<Issue>, items: seq<Issue>, all0: seq<Issue>, seen1: set<int>)
    returns (all: seq<Issue>, seen: set<int>)
    requires all0 == Unseen(seen0, before) && seen1 == seen0 + Ids(all0)
    ensures all == Unseen(seen0, before + items)
    ensures seen == seen0 + Ids(all)
  {
    all, seen := all0, seen1;
    ghost var taken := before;
    var j := 0;
    while j < |items|
      invariant 0 <= j <= |items| && taken == before + items[..j]
      invariant all == Unseen(seen0, taken) && seen == seen0 + Ids(all)
    {
      all, seen := CollectOne(seen0, taken, items[j], all, seen);
      PrefixStep(before, items, j);
      taken := taken + [items[j]];
      j := j + 1;
    }
    assert items[..j] == items;
    assert taken == before + items;
  }

  lemma PrefixStep(before: seq<Issue>, items: seq<Issue>, j: nat)
    requires j < |items|
    ensures before + items[..j + 1] == before + items[..j] + [items[j]]
  {
    assert items[..j + 1] == items[..j] + [items[j]];
  }

  /** The `forEach` callback on one item: kept, and its id marked seen, exactly when its id has not been seen. */
  method CollectOne(seen0: set<int>, ghost taken: seq<Issue>, x: Issue, all0: seq<Issue>, seen1: set<int>)
    returns (all: seq<Issue>, seen: set<int>)
    requires all0 == Unseen(seen0, taken) && seen1 == seen0 + Ids(all0)
    ensures all == Unseen(seen0, taken + [x]) && seen == seen0 + Ids(all)
  {
    UnseenStep(seen0, taken, x);
    all, seen := all0, seen1;
    if x.id !in seen {
      IdsAppend(all, x);
      seen := seen + {x.id};
      all := all + [x];
    }
  }

  // ---------------------------------------------------------------------
  // Merging with the issues on screen

  function NotIn(ids: set<int>): Issue -> bool {
    (x: Issue) => x.id !in ids
  }

  /** The verified issues, newest first, whose id is not on screen. */
  function NewItems(verified: seq<Issue>, existing: seq<Issue>): seq<Issue> {
    Filter(SortDesc(verified, CreatedAt), NotIn(Ids(existing)))
  }

  /** What the merge chooses from: the new items, then the issues on screen that still pass `isBountyIssue`. */
  function Candidates(newItems: seq<Issue>, existing: seq<Issue>): seq<Issue> {
    newItems + Filter(existing, IsBountyIssue)
  }

  /**
   * The 30 newest candidates, newest first: every candidate left out is
   * no newer than any issue shown, and is left out only when 30 are shown.
   */
  function Merge(newItems: seq<Issue>, existing: seq<Issue>): (r: seq<Issue>)
    ensures var all := Candidates(newItems, existing);
      |r| == (if |all| < MaxShown then |all| else MaxShown)
      && multiset(r) <= multiset(all)
    ensures SortedDesc(r, CreatedAt)
    ensures forall x :: x in r ==> x in newItems || (x in existing && IsBountyIssue(x))
    ensures forall x :: x in Candidates(newItems, existing) && x !in r ==>
      |r| == MaxShown && forall i :: 0 <= i < |r| ==> CreatedAt(x) <= CreatedAt(r[i])
  {
    var all := Candidates(newItems, existing);
    var sorted := SortDesc(all, CreatedAt);
    var r := Take(sorted, MaxShown);
    SortedDescTake(sorted, |r|, CreatedAt);
    TakeNewest(all, sorted, r);
    r
  }

  /**
   * Issues created at the same time are shown in candidate order: the new
   * issues in query order, then the kept ones in screen order, as the
   * stable sort leaves them.
   */
  lemma MergeKeepsTieOrder(newItems: seq<Issue>, existing: seq<Issue>, t: int)
    ensures WithKey(Merge(newItems, existing), CreatedAt, t) <= WithKey(Candidates(newItems, existing), CreatedAt, t)
  {
    var all := Candidates(newItems, existing);
    var sorted := SortDesc(all, CreatedAt);
    var r := Merge(newItems, existing);
    assert r == sorted[..|r|];
    SortDescStable(all, CreatedAt, t);
    WithKeyPrefix(sorted, |r|, CreatedAt, t);
  }

  /** A prefix of a sorted permutation of `all` holds its newest elements. */
  lemma TakeNewest(all: seq<Issue>, sorted: seq<Issue>, r: seq<Issue>)
    requires multiset(sorted) == multiset(all) && SortedDesc(sorted, CreatedAt)
    requires r == Take(sorted, MaxShown)
    ensures multiset(r) <= multiset(all)
    ensures forall x :: x in r ==> x in all
    ensures forall x :: x in all && x !in r ==>
      |r| == MaxShown && forall i :: 0 <= i < |r| ==> CreatedAt(x) <= CreatedAt(sorted[i])
  {
    TakeSortedBest(sorted, MaxShown, CreatedAt);
    forall x | x in r
      ensures x in all
    {
      assert x in multiset(r);
      assert x in multiset(sorted);
    }
    forall x | x in all && x !in r
      ensures |r| == MaxShown && forall i :: 0 <= i < |r| ==> CreatedAt(x) <= CreatedAt(sorted[i])
    {
      assert x in multiset(sorted);
      assert forall i :: 0 <= i < |r| ==> r[i] == sorted[i];
    }
  }


  // ---------------------------------------------------------------------
  // The feed

  /** What the component keeps between fetches. */
  datatype FeedState = FeedState(
    items: seq<Issue>,       // `itemsRef` and the rendered `items`
    seenIds: set<int>,       // `seenIdsRef`
    error: Option<string>,
    newItemsCount: nat
  )

  /** The feed shows at most 30 distinct issues, newest first, every one of them seen. */
  predicate FeedValid(s: FeedState) {
    |s.items| <= MaxShown
    && SortedDesc(s.items, CreatedAt)
    && DistinctBy(s.items, IdOf)
    && Ids(s.items) <= s.seenIds
  }

  /** The state on mount: nothing shown, nothing seen. */
  const Mounted: FeedState := FeedState([], {}, None, 0)

  /** `successCount === 0 && verifiedBountyIssues.length === 0 && !isSilentRefresh` */
  predicate Failed(successCount: nat, verified: seq<Issue>, silent: bool) {
    successCount == 0 && |verified| == 0 && !silent
  }

  /** The issues on screen when the results come in: a manual fetch has cleared them. */
  function OnScreen(s: FeedState, silent: bool): seq<Issue> {
    if silent then s.items else []
  }

  /** `verifiedBountyIssues` before sorting: the unseen items of the successful queries, verified. */
  function Verified(s: FeedState, responses: seq<Option<seq<Issue>>>): seq<Issue> {
    Verify(Unseen(s.seenIds, Flatten(responses)))
  }

  /**
   * One `fetchBountyIssues(silent)` that is not aborted: a manual fetch
   * first clears the issues on screen, a silent one keeps them.
   */
  function Step(s: FeedState, silent: bool, responses: seq<Option<seq<Issue>>>): FeedState {
    var existing := OnScreen(s, silent);
    var verified := Verified(s, responses);
    var incoming := NewItems(verified, existing);
    FeedState(
      Merge(incoming, existing),
      s.seenIds + Ids(verified),
      if Failed(Successes(responses), verified, silent) then Some(FetchErrorMessage) else None,
      if |incoming| > 0 && silent then |incoming| else s.newItemsCount)
  }

  class BountyFeed {
    var state: FeedState

    constructor()
      ensures state == Mounted
    {
      state := Mounted;
    }

    /** The component's fetch, with the query results supplied. */
    method Fetch(silent: bool, responses: seq<Option<seq<Issue>>>)
      modifies this
      ensures state == Step(old(state), silent, responses)
    {
      var existing := if silent then state.items else [];
      var all, _, successCount := CollectResponses(state.seenIds, responses);
      var verified := Verify(all);
      var error := if Failed(successCount, verified, silent) then Some(FetchErrorMessage) else None;
      var seenIds := state.seenIds + Ids(verified);
      var incoming := NewItems(verified, existing);
      var count := if |incoming| > 0 && silent then |incoming| else state.newItemsCount;
      state := FeedState(Merge(incoming, existing), seenIds, error, count);
    }
  }

  // ---------------------------------------------------------------------
  // Properties of a fetch

  lemma MountedValid()
    ensures FeedValid(Mounted)
  {
  }

  lemma VerifyDistinct(all: seq<Issue>)
    requires DistinctBy(all, IdOf)
    ensures DistinctBy(Verify(all), IdOf)
  {
    FilterDistinctBy(all, OpenUnassigned, IdOf);
    FilterDistinctBy(Filter(all, OpenUnassigned), IsBountyIssue, IdOf);
  }

  lemma NewItemsFacts(verified: seq<Issue>, existing: seq<Issue>)
    requires DistinctBy(verified, IdOf)
    ensures DistinctBy(NewItems(verified, existing), IdOf)
    ensures forall x :: x in NewItems(verified, existing) ==> x in verified && x.id !in Ids(existing)
  {
    var sorted := SortDesc(verified, CreatedAt);
    PermutationDistinctBy(verified, sorted, IdOf);
    FilterDistinctBy(sorted, NotIn(Ids(existing)), IdOf);
    forall x | x in NewItems(verified, existing)
      ensures x in verified && x.id !in Ids(existing)
    {
      assert x in multiset(sorted);
      assert NotIn(Ids(existing))(x);
    }
  }

  lemma MergeDistinct(newItems: seq<Issue>, existing: seq<Issue>)
    requires DistinctBy(newItems, IdOf) && DistinctBy(existing, IdOf)
    requires forall x :: x in newItems ==> x.id !in Ids(existing)
    ensures DistinctBy(Merge(newItems, existing), IdOf)
  {
    var kept := Filter(existing, IsBountyIssue);
    FilterDistinctBy(existing, IsBountyIssue, IdOf);
    var joined := newItems + kept;
    forall i, j | 0 <= i < j < |joined|
      ensures joined[i].id != joined[j].id
    {
      if i < |newItems| && j >= |newItems| {
        assert joined[i] in newItems;
        assert joined[j] in existing;
      } else if j < |newItems| {
        assert joined[i] == newItems[i] && joined[j] == newItems[j];
      } else {
        assert joined[i] == kept[i - |newItems|] && joined[j] == kept[j - |newItems|];
      }
    }
    var sorted := SortDesc(joined, CreatedAt);
    PermutationDistinctBy(joined, sorted, IdOf);
    var r := Merge(newItems, existing);
    assert r == sorted[..|r|];
  }

  /** A fetch keeps the feed at most 30 distinct seen issues, newest first. */
  lemma StepKeepsValid(s: FeedState, silent: bool, responses: seq<Option<seq<Issue>>>)
    requires FeedValid(s)
    ensures FeedValid(Step(s, silent, responses))
  {
    var existing := if silent then s.items else [];
    var verified := Verify(Unseen(s.seenIds, Flatten(responses)));
    VerifyDistinct(Unseen(s.seenIds, Flatten(responses)));
    NewItemsFacts(verified, existing);
    MergeDistinct(NewItems(verified, existing), existing);
    var r := Step(s, silent, responses).items;
    forall x | x in r
      ensures x.id in s.seenIds + Ids(verified)
    {
    }
  }

  /** The error is set exactly when every query failed on a manual fetch. */
  lemma StepErrorIff(s: FeedState, silent: bool, responses: seq<Option<seq<Issue>>>)
    ensures Step(s, silent, responses).error.Some? <==> Successes(responses) == 0 && !silent
  {
    if Successes(responses) == 0 {
      NoSuccessNoItems(responses);
    }
  }

  /** Every issue of `r` was created no earlier than `x`. */
  predicate NoneOlder(r: seq<Issue>, x: Issue) {
    forall i :: 0 <= i < |r| ==> CreatedAt(x) <= CreatedAt(r[i])
  }

  /**
   * Every issue shown after a fetch is new and open and unassigned, or was
   * shown before (on a silent fetch) and still passes `isBountyIssue`.
   * Conversely a verified issue not on screen, or an issue kept on screen,
   * is missing only when 30 issues at least as new are shown.
   */
  lemma StepItemsOrigin(s: FeedState, silent: bool, responses: seq<Option<seq<Issue>>>, x: Issue)
    ensures x in Step(s, silent, responses).items ==>
      (x in Flatten(responses) && x.id !in s.seenIds && OpenUnassigned(x))
      || (silent && x in s.items && IsBountyIssue(x))
    ensures var r := Step(s, silent, responses).items;
      ((x in Verified(s, responses) && x.id !in Ids(OnScreen(s, silent)))
       || (silent && x in s.items && IsBountyIssue(x))) && x !in r ==>
      |r| == MaxShown && NoneOlder(r, x)
  {
    if x in Step(s, silent, responses).items {
      ShownFrom(s, silent, responses, x);
    }
    StepShowsNewest(s, silent, responses, x);
  }

  lemma ShownFrom(s: FeedState, silent: bool, responses: seq<Option<seq<Issue>>>, x: Issue)
    requires x in Step(s, silent, responses).items
    ensures (x in Flatten(responses) && x.id !in s.seenIds && OpenUnassigned(x))
      || (silent && x in s.items && IsBountyIssue(x))
  {
    var existing := OnScreen(s, silent);
    var unseen := Unseen(s.seenIds, Flatten(responses));
    var verified := Verified(s, responses);
    var incoming := NewItems(verified, existing);
    assert x in Merge(incoming, existing);
    if x in incoming {
      NewItemFrom(verified, existing, x);
      assert x in unseen && OpenUnassigned(x);
    }
  }

  lemma StepShowsNewest(s: FeedState, silent: bool, responses: seq<Option<seq<Issue>>>, x: Issue)
    ensures var r := Step(s, silent, responses).items;
      ((x in Verified(s, responses) && x.id !in Ids(OnScreen(s, silent)))
       || (silent && x in s.items && IsBountyIssue(x))) && x !in r ==>
      |r| == MaxShown && NoneOlder(r, x)
  {
    var existing := OnScreen(s, silent);
    var verified := Verified(s, responses);
    StepItemsMerge(s, silent, responses);
    if x in verified && x.id !in Ids(existing) {
      MergeShowsNewest(verified, existing, x);
    } else if silent && x in s.items && IsBountyIssue(x) {
      assert x in existing;
      MergeShowsNewest(verified, existing, x);
    }
  }

  lemma StepItemsMerge(s: FeedState, silent: bool, responses: seq<Option<seq<Issue>>>)
    ensures Step(s, silent, responses).items
      == Merge(NewItems(Verified(s, responses), OnScreen(s, silent)), OnScreen(s, silent))
  {
  }

  lemma MergeShowsNewest(verified: seq<Issue>, existing: seq<Issue>, x: Issue)
    requires (x in verified && x.id !in Ids(existing)) || (x in existing && IsBountyIssue(x))
    ensures var r := Merge(NewItems(verified, existing), existing);
      x !in r ==> |r| == MaxShown && NoneOlder(r, x)
  {
    CandidateOf(verified, existing, x);
    var r := Merge(NewItems(verified, existing), existing);
    if x !in r {
      assert NoneOlder(r, x);
    }
  }

  /** A verified issue not on screen, or an issue on screen that still passes the bounty test, is a candidate of the merge. */
  lemma CandidateOf(verified: seq<Issue>, existing: seq<Issue>, x: Issue)
    requires (x in verified && x.id !in Ids(existing)) || (x in existing && IsBountyIssue(x))
    ensures x in Candidates(NewItems(verified, existing), existing)
  {
    if x in verified && x.id !in Ids(existing) {
      NewItemIn(verified, existing, x);
    } else {
      var i :| 0 <= i < |existing| && existing[i] == x;
    }
  }

  lemma NewItemIn(verified: seq<Issue>, existing: seq<Issue>, x: Issue)
    requires x in verified && x.id !in Ids(existing)
    ensures x in NewItems(verified, existing)
  {
    var sorted := SortDesc(verified, CreatedAt);
    assert x in multiset(sorted);
    var j :| 0 <= j < |sorted| && sorted[j] == x;
    assert NotIn(Ids(existing))(sorted[j]);
  }

  lemma NewItemFrom(verified: seq<Issue>, existing: seq<Issue>, x: Issue)
    requires x in NewItems(verified, existing)
    ensures x in verified
  {
    assert x in multiset(SortDesc(verified, CreatedAt));
  }

  /** An issue admitted by the fallback and not a bounty issue disappears at the next fetch. */
  lemma FallbackItemsDropped(s: FeedState, silent: bool, responses: seq<Option<seq<Issue>>>, x: Issue)
    requires FeedValid(s)
    requires x in s.items && !IsBountyIssue(x)
    ensures x !in Step(s, silent, responses).items
  {
    if x in Step(s, silent, responses).items {
      StepItemsOrigin(s, silent, responses, x);
    }
  }

  /**
   * The seen set survives a manual refresh: a manual fetch shows only
   * issues whose id no earlier fetch verified, so a refresh that returns
   * the same issues again shows nothing.
   */
  lemma ManualRefreshShowsOnlyUnseen(s: FeedState, responses: seq<Option<seq<Issue>>>)
    ensures forall x :: x in Step(s, false, responses).items ==> x.id !in s.seenIds
    ensures (forall x :: x in Flatten(responses) ==> x.id in s.seenIds) ==>
      Step(s, false, responses).items == []
  {
    forall x | x in Step(s, false, responses).items
      ensures x.id !in s.seenIds
    {
      StepItemsOrigin(s, false, responses, x);
    }
  }

  /** The new-items counter changes only on a silent fetch that brings at least one issue not on screen. */
  lemma StepNewItemsCount(s: FeedState, silent: bool, responses: seq<Option<seq<Issue>>>)
    ensures Step(s, silent, responses).newItemsCount != s.newItemsCount ==> silent
    ensures !silent ==> Step(s, silent, responses).newItemsCount == s.newItemsCount
  {
  }

  /** Within one fetch no id is collected twice, and none seen by an earlier fetch. */
  lemma CollectedAreNew(seen: set<int>, responses: seq<Option<seq<Issue>>>)
    ensures DistinctBy(Unseen(seen, Flatten(responses)), IdOf)
    ensures forall x :: x in Unseen(seen, Flatten(responses)) ==> x.id !in seen
    ensures forall x :: x in Flatten(responses) && x.id !in seen ==>
      x.id in Ids(Unseen(seen, Flatten(responses)))
    ensures IsSubsequence(Unseen(seen, Flatten(responses)), Flatten(responses))
    ensures var all := Flatten(responses);
      forall k :: 0 <= k < |all| && all[k].id !in seen && FirstOfId(all, k) ==>
        all[k] in Unseen(seen, all)
  {
  }
}
