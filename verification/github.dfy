/**
 * The parts of a GitHub search-result issue that the application reads.
 *
 * Absent optional text fields (`title`, `body`, `repository_url`,
 * `html_url`) are the empty string: every place that reads them treats
 * absent and empty alike (`issue.body || ''`, `if (issue.body)`).
 * Timestamps are milliseconds since the epoch, already parsed.
 */
module GitHub {
  import opened Wrappers
  import opened Text

  /** An issue label; the API may omit its name. */
  datatype Label = Label(name: Option<string>)

  datatype Issue = Issue(
    id: int,
    htmlUrl: string,
    title: string,
    body: string,
    state: string,
    labels: seq<Label>,
    repositoryUrl: string,
    createdAt: int,
    updatedAt: Option<int>,
    hasAssignee: bool,     // `assignee` is neither null nor undefined
    assigneeCount: nat,    // `assignees.length`, 0 when absent
    isPullRequest: bool    // `pull_request` is present
  )

  /** `l.name?.toLowerCase() || ''` */
  function LabelName(l: Label): string {
    Lower(l.name.GetOr(""))
  }

  /** `labels.map(l => l.name?.toLowerCase() || '')` */
  function LabelNames(labels: seq<Label>): (r: seq<string>)
    ensures |r| == |labels|
    ensures forall i :: 0 <= i < |labels| ==> r[i] == LabelName(labels[i])
  {
    seq(|labels|, i requires 0 <= i < |labels| => LabelName(labels[i]))
  }

  /** Some label name, lower-cased, contains one of `keywords`. */
  predicate SomeLabelContains(labels: seq<Label>, keywords: seq<string>) {
    exists i :: 0 <= i < |labels| && ContainsAny(LabelName(labels[i]), keywords)
  }
}
