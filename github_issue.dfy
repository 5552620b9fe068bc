/**
 * The action dispatcher: parsing of state literals, the `Issue` configuration
 * record, and the four operations create, read, list and update, each of
 * which validates its required field, fills in one request builder and
 * interprets the tracker's answer.
 */
module GithubIssue {
  import opened Outcomes
  import opened Tracker

  /** The operations the dispatcher performs. */
  datatype Action = Create | List | Read | Update

  const IssueStatePanic := "the issue state must be either Open or Closed"
  const StateFilterPanic := "the issue state must be either Open, Closed, or All"
  const EmptyAssigneesPanic := "index out of bounds: the len is 0 but the index is 0"
  const TitleUnspecified := "title unspecified"
  const NumberUnspecified := "issue number unspecified"
  const IssueNotCreated := "issue not created"
  const UnknownIssue := "unknown issue"
  const UnknownIssues := "unknown issues"
  const UnexpectedIssueCount := "unexpected number of issues"
  const IssueNotUpdated := "issue not updated"

  /** The three state literals a configuration may hold; the match is case-sensitive. */
  predicate IsStateLiteral(s: string) {
    s == "Open" || s == "Closed" || s == "All"
  }

  // ---------------------------------------------------------------------
  // State literals

  /** Parses a target state. "All" only makes sense as a filter and is
      coerced to Open; any other string than the three literals panics. */
  function StrToIssueState(param: string): (r: Outcome<IssueState>)
    ensures r == Ok(Open) <==> param == "Open" || param == "All"
    ensures r == Ok(Closed) <==> param == "Closed"
    ensures r == Panic(IssueStatePanic) <==> !IsStateLiteral(param)
  {
    if param == "Open" then Ok(Open)
    else if param == "Closed" then Ok(Closed)
    else if param == "All" then Ok(Open)
    else Panic(IssueStatePanic)
  }

  /** Parses a list filter state; each literal maps to its namesake. */
  function StrToStateFilter(param: string): (r: Outcome<StateFilter>)
    ensures r == Ok(FilterOpen) <==> param == "Open"
    ensures r == Ok(FilterClosed) <==> param == "Closed"
    ensures r == Ok(FilterAll) <==> param == "All"
    ensures r == Panic(StateFilterPanic) <==> !IsStateLiteral(param)
  {
    if param == "Open" then Ok(FilterOpen)
    else if param == "Closed" then Ok(FilterClosed)
    else if param == "All" then Ok(FilterAll)
    else Panic(StateFilterPanic)
  }

  /** The two parsers accept the same strings, and where they accept, the
      target state is the filter state with "all" read as open. */
  lemma ParsersAgree(s: string)
    ensures StrToIssueState(s).Ok? <==> StrToStateFilter(s).Ok?
    ensures StrToStateFilter(s) == Ok(FilterClosed) <==> StrToIssueState(s) == Ok(Closed)
    ensures StrToStateFilter(s) == Ok(FilterAll) ==> StrToIssueState(s) == Ok(Open)
    ensures StrToStateFilter(s) == Ok(FilterOpen) ==> StrToIssueState(s) == Ok(Open)
  {
  }

  /** Lower-case literals are not accepted by either parser. */
  lemma LowercaseLiteralsPanic()
    ensures StrToIssueState("open").Panic? && StrToIssueState("closed").Panic?
    ensures StrToIssueState("all").Panic?
    ensures StrToStateFilter("open").Panic? && StrToStateFilter("closed").Panic?
    ensures StrToStateFilter("all").Panic?
  {
  }

  // ---------------------------------------------------------------------
  // The configuration record

  /** Everything an action may need: credentials, coordinates and the
      optional fields of the four requests. */
  datatype Issue = Issue(
    pat: Option<string>,
    owner: string,
    repo: string,
    title: Option<string>,
    body: Option<string>,
    labels: Option<seq<string>>,
    assignees: Option<seq<string>>,
    number: Option<u64>,
    issueState: Option<IssueState>,
    milestone: Option<u64>)

  /** Builds the configuration record. The state string goes through both
      parsers (the filter state is computed and then dropped); every other
      field is stored as given. */
  function IssueNew(
    pat: Option<string>,
    owner: string,
    repo: string,
    title: Option<string>,
    body: Option<string>,
    labels: Option<seq<string>>,
    assignees: Option<seq<string>>,
    number: Option<u64>,
    stateStr: Option<string>,
    milestone: Option<u64>): (r: Outcome<Issue>)
    ensures r.Ok? <==> stateStr.None? || IsStateLiteral(stateStr.value)
    ensures !r.Ok? ==> r == Panic(IssueStatePanic)
    ensures r.Ok? ==>
      && r.value.pat == pat && r.value.owner == owner && r.value.repo == repo
      && r.value.title == title && r.value.body == body
      && r.value.labels == labels && r.value.assignees == assignees
      && r.value.number == number && r.value.milestone == milestone
    ensures r.Ok? ==> (r.value.issueState.None? <==> stateStr.None?)
    ensures r.Ok? && stateStr.Some? ==> StrToIssueState(stateStr.value) == Ok(r.value.issueState.value)
  {
    if stateStr.None? then
      Ok(Issue(pat, owner, repo, title, body, labels, assignees, number, None, milestone))
    else
      var issueState :- StrToIssueState(stateStr.value);
      var paramsState := StrToStateFilter(stateStr.value);
      if paramsState.Ok? then
        Ok(Issue(pat, owner, repo, title, body, labels, assignees, number, Some(issueState), milestone))
      else
        Panic(StateFilterPanic)
  }

  // ---------------------------------------------------------------------
  // Create

  /** Fills in the create builder: the milestone always (possibly unset), the
      body and labels when present. The assignees are handed to the labels
      setter, so they replace the labels and never reach the assignees field. */
  function CreateBuilder(issue: Issue): (r: Outcome<CreateRequest>)
    ensures r.Ok? <==> issue.title.Some?
    ensures !r.Ok? ==> r == Err(TitleUnspecified)
    ensures r.Ok? ==>
      && r.value.title == issue.title.value
      && r.value.body == issue.body
      && r.value.milestone == issue.milestone
      && r.value.labels == (if issue.assignees.Some? then issue.assignees else issue.labels)
      && r.value.assignees.None?
  {
    match issue.title
    case None => Err(TitleUnspecified)
    case Some(title) =>
      var started := CreateRequest(title, None, None, None, issue.milestone);
      var withBody := if issue.body.Some? then started.(body := issue.body) else started;
      var withLabels := if issue.labels.Some? then withBody.(labels := issue.labels) else withBody;
      var withAssignees := if issue.assignees.Some? then withLabels.(labels := issue.assignees) else withLabels;
      Ok(withAssignees)
  }

  /** Creates an issue: no tracker call without a title; otherwise the
      created issue, or a fixed error when the tracker fails. */
  function CreateIssue(issue: Issue, handler: IssueHandler): (r: Outcome<IssueRecord>)
    ensures !r.Panic?
    ensures issue.title.None? ==> r == Err(TitleUnspecified)
    ensures issue.title.Some? ==>
      var created := handler.create(CreateBuilder(issue).value);
      && (r.Ok? <==> created.Some?)
      && (r.Ok? ==> created == Some(r.value))
      && (!r.Ok? ==> r == Err(IssueNotCreated))
  {
    var request :- CreateBuilder(issue);
    match handler.create(request)
    case Some(created) => Ok(created)
    case None => Err(IssueNotCreated)
  }

  // ---------------------------------------------------------------------
  // Read

  /** Reads the issue with the configured number: no tracker call without a
      number; otherwise the tracker's issue, or a fixed error. */
  function ReadIssue(issue: Issue, handler: IssueHandler): (r: Outcome<IssueRecord>)
    ensures !r.Panic?
    ensures issue.number.None? ==> r == Err(NumberUnspecified)
    ensures issue.number.Some? ==>
      var found := handler.get(issue.number.value);
      && (r.Ok? <==> found.Some?)
      && (r.Ok? ==> found == Some(r.value))
      && (!r.Ok? ==> r == Err(UnknownIssue))
  {
    match issue.number
    case None => Err(NumberUnspecified)
    case Some(number) =>
      match handler.get(number)
      case Some(found) => Ok(found)
      case None => Err(UnknownIssue)
  }

  // ---------------------------------------------------------------------
  // List

  /** Fills in the list builder: a milestone filter exactly when a milestone
      is configured, an assignee filter from the first configured assignee,
      and never a state or a label filter. An empty assignee list is indexed
      out of bounds. */
  function ListBuilder(issue: Issue): (r: Outcome<ListRequest>)
    ensures !r.Err?
    ensures r.Panic? <==> issue.assignees == Some([])
    ensures r.Panic? ==> r.message == EmptyAssigneesPanic
    ensures r.Ok? ==>
      && (r.value.milestone.Some? <==> issue.milestone.Some?)
      && r.value.milestone == issue.milestone
      && (r.value.assignee.Some? <==> issue.assignees.Some?)
      && (issue.assignees.Some? ==> r.value.assignee.value == issue.assignees.value[0])
      && r.value.state.None? && r.value.labels.None?
  {
    var started := ListRequest(None, None, None, None);
    var withMilestone := if issue.milestone.Some? then started.(milestone := issue.milestone) else started;
    if issue.assignees.Some? then
      var assignees := issue.assignees.value;
      if |assignees| == 0 then Panic(EmptyAssigneesPanic)
      else Ok(withMilestone.(assignee := Some(assignees[0])))
    else
      Ok(withMilestone)
  }

  /** The cardinality rule: a filtered page is accepted only when it holds
      exactly one issue, which is returned unchanged. */
  function SingleIssue(page: seq<IssueRecord>): (r: Outcome<IssueRecord>)
    ensures r.Ok? <==> |page| == 1
    ensures r.Ok? ==> page == [r.value]
    ensures !r.Ok? ==> r == Err(UnexpectedIssueCount)
  {
    if |page| == 1 then Ok(page[0]) else Err(UnexpectedIssueCount)
  }

  /** Lists issues with the configured filters and returns the only one. */
  function ListIssues(issue: Issue, handler: IssueHandler): (r: Outcome<IssueRecord>)
    ensures r.Panic? <==> issue.assignees == Some([])
    ensures issue.assignees != Some([]) ==>
      var page := handler.list(ListBuilder(issue).value);
      && (r.Ok? <==> page.Some? && |page.value| == 1)
      && (r.Ok? ==> page.value == [r.value])
      && (page.None? ==> r == Err(UnknownIssues))
      && (page.Some? && |page.value| != 1 ==> r == Err(UnexpectedIssueCount))
  {
    var request :- ListBuilder(issue);
    match handler.list(request)
    case None => Err(UnknownIssues)
    case Some(page) => SingleIssue(page)
  }

  // ---------------------------------------------------------------------
  // Update

  /** Fills in the update builder as a merge-patch: title, body, state and
      milestone are carried exactly when configured; labels and assignees
      never are. */
  function UpdateBuilder(issue: Issue): (r: Outcome<UpdateRequest>)
    ensures r.Ok? <==> issue.number.Some?
    ensures !r.Ok? ==> r == Err(NumberUnspecified)
    ensures r.Ok? ==>
      && r.value.number == issue.number.value
      && (r.value.title.Some? <==> issue.title.Some?) && r.value.title == issue.title
      && (r.value.body.Some? <==> issue.body.Some?) && r.value.body == issue.body
      && (r.value.state.Some? <==> issue.issueState.Some?) && r.value.state == issue.issueState
      && (r.value.milestone.Some? <==> issue.milestone.Some?) && r.value.milestone == issue.milestone
      && r.value.labels.None? && r.value.assignees.None?
  {
    match issue.number
    case None => Err(NumberUnspecified)
    case Some(number) =>
      var started := UpdateRequest(number, None, None, None, None, None, None);
      var withTitle := if issue.title.Some? then started.(title := issue.title) else started;
      var withBody := if issue.body.Some? then withTitle.(body := issue.body) else withTitle;
      var withState := if issue.issueState.Some? then withBody.(state := issue.issueState) else withBody;
      var withMilestone := if issue.milestone.Some? then withState.(milestone := issue.milestone) else withState;
      Ok(withMilestone)
  }

  /** Updates the issue with the configured number. */
  function UpdateIssue(issue: Issue, handler: IssueHandler): (r: Outcome<IssueRecord>)
    ensures !r.Panic?
    ensures issue.number.None? ==> r == Err(NumberUnspecified)
    ensures issue.number.Some? ==>
      var updated := handler.update(UpdateBuilder(issue).value);
      && (r.Ok? <==> updated.Some?)
      && (r.Ok? ==> updated == Some(r.value))
      && (!r.Ok? ==> r == Err(IssueNotUpdated))
  {
    var request :- UpdateBuilder(issue);
    match handler.update(request)
    case Some(updated) => Ok(updated)
    case None => Err(IssueNotUpdated)
  }

  // ---------------------------------------------------------------------
  // Dispatch

  /** The handler of the configured repository, authenticated with the
      configured token: every call an action makes goes through it. */
  function IssuesOf(issue: Issue, client: Client): IssueHandler {
    client.issues(issue.pat, issue.owner, issue.repo)
  }

  /** Performs one action. Only list can panic, and only on an empty
      assignee list; a missing required field is reported as an error; with
      its field present, each action returns the tracker's answer to that
      action's own request to the configured repository, or that action's
      fixed failure. */
  function Main(issue: Issue, action: Action, client: Client): (r: Outcome<IssueRecord>)
    ensures r.Panic? <==> action == List && issue.assignees == Some([])
    ensures r.Panic? ==> r.message == EmptyAssigneesPanic
    ensures action == Create && issue.title.None? ==> r == Err(TitleUnspecified)
    ensures (action == Read || action == Update) && issue.number.None? ==> r == Err(NumberUnspecified)
    ensures action == List ==> r != Err(TitleUnspecified) && r != Err(NumberUnspecified)
    ensures action == Create && issue.title.Some? ==>
      var created := IssuesOf(issue, client).create(CreateBuilder(issue).value);
      && (r.Ok? <==> created.Some?)
      && (r.Ok? ==> created == Some(r.value))
      && (!r.Ok? ==> r == Err(IssueNotCreated))
    ensures action == Read && issue.number.Some? ==>
      var found := IssuesOf(issue, client).get(issue.number.value);
      && (r.Ok? <==> found.Some?)
      && (r.Ok? ==> found == Some(r.value))
      && (!r.Ok? ==> r == Err(UnknownIssue))
    ensures action == List && issue.assignees != Some([]) ==>
      var page := IssuesOf(issue, client).list(ListBuilder(issue).value);
      && (r.Ok? <==> page.Some? && |page.value| == 1)
      && (r.Ok? ==> page.value == [r.value])
      && (page.None? ==> r == Err(UnknownIssues))
      && (page.Some? && |page.value| != 1 ==> r == Err(UnexpectedIssueCount))
    ensures action == Update && issue.number.Some? ==>
      var updated := IssuesOf(issue, client).update(UpdateBuilder(issue).value);
      && (r.Ok? <==> updated.Some?)
      && (r.Ok? ==> updated == Some(r.value))
      && (!r.Ok? ==> r == Err(IssueNotUpdated))
  {
    var handler := IssuesOf(issue, client);
    match action
    case Create => CreateIssue(issue, handler)
    case List => ListIssues(issue, handler)
    case Read => ReadIssue(issue, handler)
    case Update => UpdateIssue(issue, handler)
  }

  /** The configuration fields an action cannot do without are present. */
  predicate HasRequiredFields(issue: Issue, action: Action) {
    match action
    case Create => issue.title.Some?
    case Read => issue.number.Some?
    case Update => issue.number.Some?
    case List => true
  }

  /** A missing required field ends the action before the tracker is asked:
      the outcome is the same whatever the tracker would answer. */
  lemma MissingFieldFailsBeforeTracker(issue: Issue, action: Action, c1: Client, c2: Client)
    requires !HasRequiredFields(issue, action)
    ensures Main(issue, action, c1) == Main(issue, action, c2)
    ensures Main(issue, action, c1).Err?
  {
  }

  /** List succeeds exactly when the tracker's page holds one issue, and
      returns that issue unchanged. */
  lemma ListAcceptsOnlySingletonPages(issue: Issue, client: Client, page: seq<IssueRecord>)
    requires issue.assignees != Some([])
    requires IssuesOf(issue, client).list(ListBuilder(issue).value) == Some(page)
    ensures Main(issue, List, client).Ok? <==> |page| == 1
    ensures |page| == 1 ==> Main(issue, List, client) == Ok(page[0])
    ensures |page| != 1 ==> Main(issue, List, client) == Err(UnexpectedIssueCount)
  {
  }
}
