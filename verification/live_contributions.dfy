/**
 * The live contribution feed (client/src/hooks/useLiveContributions.ts):
 * GitHub's public event timeline, reduced to recent pushes, issues, pull
 * requests and creations, fetched at most once every 30 seconds.
 *
 * The response of `GET /events` is an input (`Outcome`) and the clock is
 * the parameter `now` (milliseconds); the polling timer and the request
 * itself are not modelled. Absent text fields of an event are `""`.
 */
module LiveContributions {
  import opened Wrappers
  import opened Seqs

  /** `CACHE_DURATION`: the shortest time between two fetches, 30 seconds. */
  const CacheDuration: int := 30 * 1000

  /** The kinds of event the feed shows. */
  const MeaningfulKinds: seq<string> := ["PushEvent", "IssuesEvent", "PullRequestEvent", "CreateEvent"]

  /** The title, number and link of an issue or pull request named by an event payload. */
  datatype ItemRef = ItemRef(title: string, number: int, htmlUrl: string)

  /** A public event as the API returns it; `kind` is its `type`. */
  datatype RawEvent = RawEvent(
    id: string,
    actorLogin: string,
    actorAvatarUrl: string,
    actorHtmlUrl: string,
    repoName: string,
    kind: string,
    createdAt: string,
    action: Option<string>,
    issue: Option<ItemRef>,
    pullRequest: Option<ItemRef>
  )

  datatype Actor = Actor(login: string, avatarUrl: string, htmlUrl: string)
  datatype Repo = Repo(name: string, fullName: string, htmlUrl: string)

  datatype Contribution = Contribution(
    id: string,
    actor: Actor,
    repo: Repo,
    kind: string,
    action: Option<string>,
    createdAt: string,
    issue: Option<ItemRef>,
    pullRequest: Option<ItemRef>
  )

  /** `x || d` on a string. */
  function OrElse(x: string, d: string): (r: string)
    ensures r == (if x == "" then d else x)
  {
    if x == "" then d else x
  }

  /** The `map` step: one event as a contribution. */
  function ToContribution(e: RawEvent): (c: Contribution)
    ensures c.actor.login == (if e.actorLogin == "" then "unknown" else e.actorLogin)
    ensures c.repo.name == (if e.repoName == "" then "unknown" else e.repoName)
    ensures c.repo.fullName == c.repo.name
    ensures c.repo.htmlUrl == "https://github.com/" + e.repoName
    ensures c.id == e.id && c.kind == e.kind && c.createdAt == e.createdAt
  {
    Contribution(
      e.id,
      Actor(OrElse(e.actorLogin, "unknown"), e.actorAvatarUrl, e.actorHtmlUrl),
      Repo(OrElse(e.repoName, "unknown"), OrElse(e.repoName, "unknown"), "https://github.com/" + e.repoName),
      e.kind,
      e.action,
      e.createdAt,
      e.issue,
      e.pullRequest)
  }

  function ToContributions(es: seq<RawEvent>): (cs: seq<Contribution>)
    ensures |cs| == |es|
    ensures forall i :: 0 <= i < |es| ==> cs[i] == ToContribution(es[i])
  {
    seq(|es|, i requires 0 <= i < |es| => ToContribution(es[i]))
  }

  function IsMeaningful(c: Contribution): bool {
    c.kind in MeaningfulKinds
  }

  /** The transform: the first `2 * limit` events, mapped, the meaningful ones kept, the first `limit` of those. */
  function Transform(events: seq<RawEvent>, limit: nat): seq<Contribution> {
    Take(Filter(ToContributions(Take(events, 2 * limit)), IsMeaningful), limit)
  }

  // ---------------------------------------------------------------------
  // Properties of the transform

  /**
   * At most `limit` contributions, each of a meaningful kind, in the order
   * of the events among the first `2 * limit` they came from.
   */
  lemma TransformShape(events: seq<RawEvent>, limit: nat)
    ensures var r := Transform(events, limit);
      |r| <= limit
      && (forall i :: 0 <= i < |r| ==> r[i].kind in MeaningfulKinds)
      && IsSubsequence(r, ToContributions(Take(events, 2 * limit)))
  {
    var kept := Filter(ToContributions(Take(events, 2 * limit)), IsMeaningful);
    FilterIsSubsequence(ToContributions(Take(events, 2 * limit)), IsMeaningful);
    TakeIsSubsequence(kept, limit);
    SubsequenceTransitive(Transform(events, limit), kept, ToContributions(Take(events, 2 * limit)));
  }

  /** Events after the first `2 * limit` never matter, even when too few of those are meaningful. */
  lemma OnlyFirstEventsMatter(events: seq<RawEvent>, extra: seq<RawEvent>, limit: nat)
    requires |events| >= 2 * limit
    ensures Transform(events + extra, limit) == Transform(events, limit)
  {
    assert Take(events + extra, 2 * limit) == Take(events, 2 * limit);
  }

  /** When the first `2 * limit` events hold at least `limit` meaningful ones, exactly `limit` are shown. */
  lemma FullFeed(events: seq<RawEvent>, limit: nat)
    requires |Filter(ToContributions(Take(events, 2 * limit)), IsMeaningful)| >= limit
    ensures |Transform(events, limit)| == limit
  {
  }

  // ---------------------------------------------------------------------
  // The hook's state

  /** The outcome of one `GET /events`: the events, or the message of the error it raised. */
  datatype Outcome = Events(events: seq<RawEvent>) | Failed(message: string)

  class Feed {
    const limit: nat
    var contributions: seq<Contribution>
    var isLoading: bool
    var error: Option<string>
    var lastFetch: int

    /** The hook's first render, with `limit` (10 by default). */
    constructor(limit: nat := 10)
      ensures this.limit == limit
      ensures contributions == [] && isLoading && error == None && lastFetch == 0
      ensures Valid()
    {
      this.limit := limit;
      contributions := [];
      isLoading := true;
      error := None;
      lastFetch := 0;
    }

    /** The feed holds at most `limit` contributions, each of a meaningful kind. */
    ghost predicate Valid()
      reads this
    {
      |contributions| <= limit && forall i :: 0 <= i < |contributions| ==> contributions[i].kind in MeaningfulKinds
    }

    /**
     * `fetchContributions()` at `now`, the request answering `outcome`.
     * Within 30 seconds of the last successful fetch it does nothing.
     */
    method FetchContributions(now: int, outcome: Outcome)
      requires Valid()
      modifies this
      ensures Valid()
      ensures now - old(lastFetch) < CacheDuration ==>
        contributions == old(contributions) && isLoading == old(isLoading)
        && error == old(error) && lastFetch == old(lastFetch)
      ensures now - old(lastFetch) >= CacheDuration ==>
        !isLoading
        && match outcome
           case Events(es) =>
             contributions == Transform(es, limit) && error == None && lastFetch == now
           case Failed(m) =>
             contributions == old(contributions) && error == Some(m) && lastFetch == old(lastFetch)
    {
      if now - lastFetch < CacheDuration {
        return;
      }
      isLoading := true;
      error := None;
      match outcome {
        case Events(es) =>
          TransformShape(es, limit);
          contributions := Transform(es, limit);
          lastFetch := now;
        case Failed(m) =>
          error := Some(m);
      }
      isLoading := false;
    }

    /**
     * `refresh()`: forgets the time of the last fetch, then fetches. At any
     * instant 30 seconds or more after the epoch the throttle lets it through.
     */
    method Refresh(now: int, outcome: Outcome)
      requires Valid()
      modifies this
      ensures Valid()
      ensures now < CacheDuration ==>
        lastFetch == 0 && contributions == old(contributions) && error == old(error) && isLoading == old(isLoading)
      ensures now >= CacheDuration ==>
        !isLoading
        && match outcome
           case Events(es) => contributions == Transform(es, limit) && error == None && lastFetch == now
           case Failed(m) => contributions == old(contributions) && error == Some(m) && lastFetch == 0
    {
      lastFetch := 0;
      FetchContributions(now, outcome);
    }
  }
}
