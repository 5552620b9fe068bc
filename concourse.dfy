/**
 * The orchestrator-facing records: the version the resource emits, the
 * watched-resource configuration (`Source`) and the out-step parameters
 * (`OutParams`) with their readers, and the metadata the out step reports.
 */
module Concourse {
  import opened Outcomes
  import opened Tracker

  /** A version is the name of an issue state. */
  datatype Version = Version(state: string)

  /** Builds a version holding the given state string unchanged. */
  function NewVersion(state: string): (v: Version)
    ensures v.state == state
  {
    Version(state)
  }

  /** The watched-resource configuration. */
  datatype Source = Source(
    pat: Option<string>,
    owner: string,
    repo: string,
    number: Option<u64>,
    state: Option<string>,
    milestone: Option<u64>,
    assignee: Option<string>,
    labels: Option<seq<string>>,
    skipCheck: Option<bool>)
  {
    function Pat(): Option<string> { pat }
    function Owner(): string { owner }
    function Repo(): string { repo }
    function Number(): Option<u64> { number }
    function State(): Option<string> { state }
    function Milestone(): Option<u64> { milestone }
    function Labels(): Option<seq<string>> { labels }

    /** The single configured assignee, as the one-element list the
        dispatcher's configuration record expects. */
    function Assignee(): (r: Option<seq<string>>)
      ensures r.Some? <==> assignee.Some?
      ensures r.Some? ==> |r.value| == 1 && r.value[0] == assignee.value
    {
      match assignee
      case Some(a) => Some([a])
      case None => None
    }

    /** Whether to skip the check; false unless configured true. */
    function SkipCheck(): (r: bool)
      ensures r <==> skipCheck == Some(true)
    {
      match skipCheck
      case Some(skip) => skip
      case None => false
    }
  }

  /** Reading a source back gives the values it was built from. */
  lemma SourceReadersReturnFields(
    pat: Option<string>, owner: string, repo: string, number: Option<u64>,
    state: Option<string>, milestone: Option<u64>, assignee: Option<string>,
    labels: Option<seq<string>>, skipCheck: Option<bool>)
    ensures var s := Source(pat, owner, repo, number, state, milestone, assignee, labels, skipCheck);
      && s.Pat() == pat && s.Owner() == owner && s.Repo() == repo
      && s.Number() == number && s.State() == state && s.Milestone() == milestone
      && s.Labels() == labels
      && (assignee.None? ==> s.Assignee().None?)
      && (assignee.Some? ==> s.Assignee() == Some([assignee.value]))
      && (skipCheck.None? ==> !s.SkipCheck())
      && (skipCheck.Some? ==> s.SkipCheck() == skipCheck.value)
  {
  }

  /** The out-step parameters. The title is a plain string: a document
      without one yields the empty string. */
  datatype OutParams = OutParams(
    title: string,
    body: Option<string>,
    labels: Option<seq<string>>,
    assignees: Option<seq<string>>,
    milestone: Option<u64>,
    state: Option<string>)
  {
    function Title(): string { title }
    function Body(): Option<string> { body }
    function Labels(): Option<seq<string>> { labels }
    function Assignees(): Option<seq<string>> { assignees }
    function Milestone(): Option<u64> { milestone }
    function State(): Option<string> { state }
  }

  /** Out-step parameters from a document whose fields may each be missing:
      every missing field takes its default, which for the title is the
      empty string and for every other field is "absent". */
  function OutParamsWithDefaults(
    title: Option<string>, body: Option<string>, labels: Option<seq<string>>,
    assignees: Option<seq<string>>, milestone: Option<u64>, state: Option<string>): (p: OutParams)
    ensures title.Some? ==> p.Title() == title.value
    ensures title.None? ==> p.Title() == ""
    ensures p.Body() == body && p.Labels() == labels && p.Assignees() == assignees
    ensures p.Milestone() == milestone && p.State() == state
  {
    OutParams(if title.Some? then title.value else "", body, labels, assignees, milestone, state)
  }

  /** The metadata the out step reports about the issue it created. */
  datatype OutMetadata = OutMetadata(
    number: u64,
    labels: seq<Label>,
    assignees: seq<Author>,
    milestone: Option<Milestone>)

  /** Builds the out metadata, storing each value unchanged. */
  function NewOutMetadata(
    number: u64, labels: seq<Label>, assignees: seq<Author>, milestone: Option<Milestone>): (m: OutMetadata)
    ensures m.number == number && m.labels == labels
    ensures m.assignees == assignees && m.milestone == milestone
  {
    OutMetadata(number, labels, assignees, milestone)
  }
}
