/** The pull-request and team-member records that the dashboard, the chart
    component and the PDF generator all declare, and the three PR states. */
module Records {

  datatype Option<+T> = None | Some(value: T) {
    /** The value, or `default` when absent (`x || default` on an optional field). */
    function GetOr(default: T): T {
      match this
      case Some(v) => v
      case None => default
    }
  }

  /** One pull request as the upstream service returns it. `comments` and
      `commits` are declared as required numbers; `days_to_merge` is optional. */
  datatype PullRequest = PullRequest(
    id: int,
    title: string,
    state: string,
    createdOn: string,
    mergedOn: Option<string>,
    comments: int,
    commits: int,
    link: string,
    targetBranch: Option<string>,
    daysToMerge: Option<real>,
    mergedBy: Option<string>)

  /** A team member: `uuid` identifies, `displayName` is shown. */
  datatype Member = Member(uuid: string, displayName: string, username: Option<string>)

  const Open := "OPEN"
  const Merged := "MERGED"
  const Declined := "DECLINED"

  /** The states offered by the state filter, in display order. */
  const StateOptions := [Open, Merged, Declined]
}
