/**
 * The boundary of the issue tracker's client library: the issue model it
 * returns, the request builders the resource fills in, and the issue handler
 * that answers each finished request.
 *
 * The handler is an oracle. Each of its fields maps a finished request to the
 * tracker's answer, and `None` stands for any transport, authentication or
 * not-found failure. Authentication, HTTP and the async runtime stay outside.
 */
module Tracker {
  import opened Outcomes

  /** The state of an issue as the tracker reports it. */
  datatype IssueState = Open | Closed

  /** The state filter of a list query: only here does "all" mean anything. */
  datatype StateFilter = FilterOpen | FilterClosed | FilterAll

  /** Stand-ins for the client's label, user and milestone models; the
      resource only carries them from a created issue into its metadata. */
  datatype Label = Label(name: string)
  datatype Author = Author(login: string)
  datatype Milestone = Milestone(number: u64, title: string)

  /** An issue as the tracker returns it; fields the resource never reads are
      left out. */
  datatype IssueRecord = IssueRecord(
    number: u64,
    title: string,
    state: IssueState,
    labels: seq<Label>,
    assignees: seq<Author>,
    milestone: Option<Milestone>)

  /** The fields a create-issue builder can carry; `None` is a setter never called. */
  datatype CreateRequest = CreateRequest(
    title: string,
    body: Option<string>,
    labels: Option<seq<string>>,
    assignees: Option<seq<string>>,
    milestone: Option<u64>)

  /** The filters a list-issues builder can carry; `None` is a filter not sent. */
  datatype ListRequest = ListRequest(
    state: Option<StateFilter>,
    milestone: Option<u64>,
    assignee: Option<string>,
    labels: Option<seq<string>>)

  /** The fields an update-issue builder can carry: a merge-patch in which
      `None` leaves the tracker's value as it is. */
  datatype UpdateRequest = UpdateRequest(
    number: u64,
    title: Option<string>,
    body: Option<string>,
    state: Option<IssueState>,
    milestone: Option<u64>,
    labels: Option<seq<string>>,
    assignees: Option<seq<string>>)

  /** The tracker's answers to the four calls the resource makes: create an
      issue, get one by number, list the first page of a filtered query, and
      update one. */
  datatype IssueHandler = IssueHandler(
    create: CreateRequest -> Option<IssueRecord>,
    get: u64 -> Option<IssueRecord>,
    list: ListRequest -> Option<seq<IssueRecord>>,
    update: UpdateRequest -> Option<IssueRecord>)

  /** The tracker as the client library sees it: for a token (or none), a
      repository owner and a repository name, the issue handler of that
      repository, authenticated with that token. */
  datatype Client = Client(issues: (Option<string>, string, string) -> IssueHandler)
}
