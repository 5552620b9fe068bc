/**
 * The three steps of the resource: check reads the watched issue and turns
 * its state into a list of versions, in is a no-op, and out creates an issue
 * and reports it.
 */
module Resource {
  import opened Outcomes
  import opened Tracker
  import opened GithubIssue
  import opened Concourse

  const SourceRequired := "source is required for the Github Issue resource"
  const ParamsRequired := "params is required for the Github Issue resource out/put step"
  const CheckFailed := "the check step was unable to read the specified github issue number"
  const OutFailed := "the out/put step was unable to create the associated github issue"

  /** The orchestrator protocol's empty in-parameters and in-metadata. */
  datatype Empty = Empty

  datatype InOutput = InOutput(version: Version, metadata: Option<Empty>)

  datatype OutOutput = OutOutput(version: Version, metadata: Option<OutMetadata>)

  /** The name a version gives to an issue state. */
  function StateName(st: IssueState): string {
    match st
    case Open => "Open"
    case Closed => "Closed"
  }

  // ---------------------------------------------------------------------
  // Check

  /** The versions check reports for an observed state: always "Open" first,
      and "Closed" appended exactly when the issue is closed, which is what
      makes the orchestrator see a new version. */
  function StateVersions(st: IssueState): (vs: seq<Version>)
    ensures 1 <= |vs| <= 2
    ensures vs[0] == Version("Open")
    ensures vs[|vs| - 1] == Version(StateName(st))
    ensures |vs| == 2 <==> st == Closed
  {
    match st
    case Open => [NewVersion("Open")]
    case Closed => [NewVersion("Open"), NewVersion("Closed")]
  }

  /** Every version check reports names a state the parser accepts, and the
      last one parses back to the observed state. */
  lemma StateVersionsRoundTrip(st: IssueState)
    ensures var vs := StateVersions(st);
      && StrToIssueState(vs[|vs| - 1].state) == Ok(st)
      && forall i :: 0 <= i < |vs| ==> StrToIssueState(vs[i].state).Ok?
  {
  }

  /** Check reads one issue by number when a number is configured and lists
      otherwise. */
  function CheckAction(source: Source): (a: Action)
    ensures a == Read <==> source.Number().Some?
    ensures a == List <==> source.Number().None?
  {
    match source.Number()
    case Some(_) => Read
    case None => List
  }

  /** The configuration record check builds: no title, no body and no target
      state; everything else from the source, the assignee as a one-element
      list. */
  function CheckIssue(source: Source): (issue: Issue)
    ensures issue.title.None? && issue.body.None? && issue.issueState.None?
    ensures issue.pat == source.pat && issue.owner == source.owner && issue.repo == source.repo
    ensures issue.labels == source.labels && issue.number == source.number
    ensures issue.milestone == source.milestone
    ensures issue.assignees.Some? <==> source.assignee.Some?
    ensures issue.assignees.Some? ==> issue.assignees.value == [source.assignee.value]
  {
    IssueNew(source.Pat(), source.Owner(), source.Repo(), None, None,
             source.Labels(), source.Assignee(), source.Number(), None, source.Milestone()).value
  }

  /** The filters check's list query carries: the configured milestone and
      the configured assignee, nothing else. */
  function CheckFilters(source: Source): ListRequest {
    ListRequest(None, source.milestone, source.assignee, None)
  }

  /** The handler check and out talk to: the configured repository, with the
      configured token. */
  function SourceIssues(source: Source, client: Client): IssueHandler {
    client.issues(source.pat, source.owner, source.repo)
  }

  /** The check step. Without a source, or when the issue cannot be read from
      the configured repository or the filter does not resolve to exactly one
      issue there, it panics; otherwise it reports the versions of the
      observed issue's state. */
  function ResourceCheck(source: Option<Source>, version: Option<Version>, client: Client): (r: Outcome<seq<Version>>)
    ensures !r.Err?
    ensures source.None? ==> r == Panic(SourceRequired)
    ensures r.Ok? ==> 1 <= |r.value| <= 2 && r.value[0] == Version("Open")
    ensures source.Some? && source.value.number.Some? ==>
      var found := SourceIssues(source.value, client).get(source.value.number.value);
      && (r.Ok? <==> found.Some?)
      && (r.Ok? ==> r.value == StateVersions(found.value.state))
      && (!r.Ok? ==> r == Panic(CheckFailed))
    ensures source.Some? && source.value.number.None? ==>
      var page := SourceIssues(source.value, client).list(CheckFilters(source.value));
      && (r.Ok? <==> page.Some? && |page.value| == 1)
      && (r.Ok? ==> r.value == StateVersions(page.value[0].state))
      && (!r.Ok? ==> r == Panic(CheckFailed))
  {
    match source
    case None => Panic(SourceRequired)
    case Some(s) =>
      match Main(CheckIssue(s), CheckAction(s), client)
      case Ok(issue) => Ok(StateVersions(issue.state))
      case Err(_) => Panic(CheckFailed)
      case Panic(message) => Panic(message)
  }

  /** A client whose configured repository answers with `h` and every other
      repository or token fails every call. */
  function OnlyConfigured(s: Source, h: IssueHandler): Client {
    var failing := IssueHandler(_ => None, _ => None, _ => None, _ => None);
    Client((pat, owner, repo) => if pat == s.pat && owner == s.owner && repo == s.repo then h else failing)
  }

  /** Whichever state the watched issue is in, the configured repository
      decides what check reports: each of the two version lists is reached
      by a tracker in which only that repository answers. */
  lemma CheckReportsEveryState(s: Source, st: IssueState)
    ensures exists c: Client :: ResourceCheck(Some(s), None, c) == Ok(StateVersions(st))
  {
    var observed := IssueRecord(0, "", st, [], [], None);
    var c := OnlyConfigured(s, IssueHandler(_ => None, _ => Some(observed), _ => Some([observed]), _ => None));
    assert ResourceCheck(Some(s), None, c) == Ok(StateVersions(st));
  }

  /** A list check whose filter matches no issue, or more than one, fails
      whatever those issues are. */
  lemma CheckRejectsAmbiguousFilter(s: Source, client: Client)
    requires s.number.None?
    requires SourceIssues(s, client).list(CheckFilters(s)).Some?
    requires |SourceIssues(s, client).list(CheckFilters(s)).value| != 1
    ensures ResourceCheck(Some(s), None, client) == Panic(CheckFailed)
  {
  }

  /** For a list check, a tracker page of zero or of two issues is possible
      and each makes check fail. */
  lemma CheckFailsOnEmptyOrDoublePage(s: Source, rec: IssueRecord)
    requires s.number.None?
    ensures exists c: Client :: ResourceCheck(Some(s), None, c) == Panic(CheckFailed)
                               && SourceIssues(s, c).list(CheckFilters(s)) == Some([])
    ensures exists c: Client :: ResourceCheck(Some(s), None, c) == Panic(CheckFailed)
                               && SourceIssues(s, c).list(CheckFilters(s)) == Some([rec, rec])
  {
    var none := OnlyConfigured(s, IssueHandler(_ => None, _ => None, _ => Some([]), _ => None));
    assert ResourceCheck(Some(s), None, none) == Panic(CheckFailed);
    var two := OnlyConfigured(s, IssueHandler(_ => None, _ => None, _ => Some([rec, rec]), _ => None));
    assert ResourceCheck(Some(s), None, two) == Panic(CheckFailed);
  }

  /** Check never parses the configured state and never looks at the skip
      flag or at the last version: none of them changes its outcome. */
  lemma CheckIgnoresStateAndSkipFlag(s: Source, state: Option<string>, skip: Option<bool>,
                                     v1: Option<Version>, v2: Option<Version>, client: Client)
    ensures ResourceCheck(Some(s.(state := state, skipCheck := skip)), v1, client)
         == ResourceCheck(Some(s), v2, client)
  {
  }

  /** Issue 1 of repository o/r, read without a token, that the tracker
      reports closed yields the two versions "Open" and "Closed". */
  lemma CheckClosedIssueByNumber(client: Client)
    requires client.issues(None, "o", "r").get(1).Some?
    requires client.issues(None, "o", "r").get(1).value.state == Closed
    ensures ResourceCheck(Some(Source(None, "o", "r", Some(1), None, None, None, None, None)), None, client)
         == Ok([Version("Open"), Version("Closed")])
  {
  }

  /** A watched issue of repository o/r found by assignee: a single match
      numbered 42 is what check observes; the lower-case state literal is
      never parsed. */
  lemma CheckSingleMatchByAssignee(client: Client, found: IssueRecord)
    requires found.number == 42
    requires client.issues(None, "o", "r").list(ListRequest(None, None, Some("u"), None)) == Some([found])
    ensures var s := Source(None, "o", "r", None, Some("open"), None, Some("u"), None, None);
      && Main(CheckIssue(s), CheckAction(s), client) == Ok(found)
      && ResourceCheck(Some(s), None, client) == Ok(StateVersions(found.state))
  {
  }

  // ---------------------------------------------------------------------
  // In

  /** The in step does nothing: whatever its inputs, it reports the version
      "Open" and no metadata. */
  function ResourceIn(source: Option<Source>, version: Version, params: Option<Empty>, outputPath: string): (r: InOutput)
    ensures r.version == Version("Open") && r.metadata.None?
  {
    InOutput(NewVersion("Open"), None)
  }

  // ---------------------------------------------------------------------
  // Out

  /** The configuration record out builds: the title always present (the
      parameter's string), no number and no target state. */
  function OutIssue(source: Source, params: OutParams): (issue: Issue)
    ensures issue.title == Some(params.title)
    ensures issue.number.None? && issue.issueState.None?
    ensures issue.pat == source.pat && issue.owner == source.owner && issue.repo == source.repo
    ensures issue.body == params.body && issue.labels == params.labels
    ensures issue.assignees == params.assignees && issue.milestone == params.milestone
  {
    IssueNew(source.Pat(), source.Owner(), source.Repo(), Some(params.Title()), params.Body(),
             params.Labels(), params.Assignees(), None, None, params.Milestone()).value
  }

  /** The create request out sends: the parameters' title, body and
      milestone, and as labels the assignees when given, else the labels. */
  function OutCreateRequest(params: OutParams): CreateRequest {
    CreateRequest(params.title, params.body,
                  if params.assignees.Some? then params.assignees else params.labels,
                  None, params.milestone)
  }

  /** The out step. Without a source or parameters, or when the configured
      repository does not create the issue, it panics; otherwise it reports
      the version "Open" and the created issue's number, labels, assignees
      and milestone. */
  function ResourceOut(source: Option<Source>, params: Option<OutParams>, inputPath: string, client: Client): (r: Outcome<OutOutput>)
    ensures !r.Err?
    ensures source.None? ==> r == Panic(SourceRequired)
    ensures source.Some? && params.None? ==> r == Panic(ParamsRequired)
    ensures source.Some? && params.Some? ==>
      var created := SourceIssues(source.value, client).create(OutCreateRequest(params.value));
      && (r.Ok? <==> created.Some?)
      && (!r.Ok? ==> r == Panic(OutFailed))
      && (r.Ok? ==> r.value.version == Version("Open"))
      && (r.Ok? ==> r.value.metadata == Some(OutMetadata(created.value.number, created.value.labels,
                                                          created.value.assignees, created.value.milestone)))
  {
    match source
    case None => Panic(SourceRequired)
    case Some(s) =>
      match params
      case None => Panic(ParamsRequired)
      case Some(p) =>
        match Main(OutIssue(s, p), Create, client)
        case Ok(issue) =>
          Ok(OutOutput(NewVersion("Open"),
                       Some(NewOutMetadata(issue.number, issue.labels, issue.assignees, issue.milestone))))
        case Err(_) => Panic(OutFailed)
        case Panic(message) => Panic(message)
  }

  /** Out always has a title to send, so the dispatcher's "title unspecified"
      error cannot arise from it. */
  lemma OutNeverLacksTitle(s: Source, p: OutParams, client: Client)
    ensures Main(OutIssue(s, p), Create, client) != Err(TitleUnspecified)
  {
  }
}
