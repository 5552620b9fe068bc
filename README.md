# GitHub issue resource for Concourse — a Dafny model

This project models the decision logic of a Concourse resource type that
watches one GitHub issue. The GitHub client library (octocrab) is replaced by
an oracle, `Tracker.Client`. For a token (or none), an owner and a repository
name, it gives that repository's `Tracker.IssueHandler`, as
`client.issues(owner, repo)` does. The handler answers each finished request
with an issue, a page of issues, or `None` for any tracker failure. Every call
the dispatcher makes goes to the handler of the configured repository with the
configured token.

What is modelled:

- **State literals and the configuration record** (`src/github_issue.rs`).
  There are two case-sensitive parsers for `"Open"`, `"Closed"` and `"All"`. The
  target-state parser turns `"All"` into Open. Any other string panics.
  `Issue::new` runs both parsers on the state string and stores every other
  field as given.
- **The action dispatcher** (`Issue::main` with `create`, `read`, `list` and
  `update`). Create requires a title. It fills in the create builder one
  optional field at a time and sends it. Read requires a number and asks the
  tracker for that number; it has no builder. List has no required field. It
  fills in the list filters, panics on an empty assignee list, and accepts a
  page only when it holds exactly one issue. Update requires a number. It fills
  in the update patch one optional field at a time and sends it. Tracker
  failures map to fixed error strings.
- **The three resource steps** (`src/main.rs`) and **the configuration
  readers** (`src/concourse.rs`). Check reads by number when one is configured
  and lists otherwise. An open issue gives the versions `[Open]` and a closed
  one gives `[Open, Closed]`. In is a no-op that returns `Open`. Out creates an
  issue and reports its number, labels, assignees and milestone.

Rust's `Result::Err(&str)` is `Outcomes.Outcome.Err`. A `panic!`, an `expect`
or an out-of-bounds index is `Outcomes.Outcome.Panic`, carrying its message.

The model follows the code, including what it actually does:

- Create hands the configured assignees to the labels setter
  (`src/github_issue.rs:167-169`). When assignees are given they replace the
  labels, and the request never carries assignees. The model keeps this
  behaviour; `GithubIssue.CreateBuilder` states it.
- `src/main.rs:38` calls `source.assignees()`, but `src/concourse.rs` only
  defines `assignee()`. The model uses `assignee()`, which gives a one-element
  list.

This code does not do the following, and the model does not either:

- It does not accept lower-case state literals: "open", "closed" and "all" panic.
- It has no configurable trigger state. A closed issue always gives `[Open, Closed]`.
- Check never short-circuits on `skip_check`. `Source.SkipCheck` reads the flag, but check never calls it.
- It has no error for several assignees in a list filter. Only the first assignee is sent.
- Its list query sends no state filter and no label filter.

`Resource.CheckIgnoresStateAndSkipFlag` proves that check reads neither the
configured state nor the skip flag.

## Model

| member | source | states |
|---|---|---|
| GithubIssue.StrToIssueState | src/github_issue.rs:15-27 | "Open" and "All" give Open, "Closed" gives Closed, and every other string panics with the fixed message (both directions) |
| GithubIssue.StrToStateFilter | src/github_issue.rs:29-36 | each of the three literals gives its namesake filter, and every other string panics (both directions) |
| GithubIssue.ParsersAgree | src/github_issue.rs:82-90 | the two parsers accept the same strings; where they accept, the target state is the filter state with "All" read as Open, so the second parse in Issue::new never fails |
| GithubIssue.LowercaseLiteralsPanic | src/github_issue.rs:15-36 | "open", "closed" and "all" are rejected by both parsers |
| GithubIssue.IssueNew | src/github_issue.rs:69-108 | succeeds exactly when the state string is absent or one of the three literals, and otherwise panics with the target-state message; copies pat, owner, repo, title, body, labels, assignees, number and milestone unchanged; the state is absent exactly when no string was given, and otherwise is the parsed target state |
| GithubIssue.CreateBuilder | src/github_issue.rs:153-169 | fails with "title unspecified" exactly when there is no title; otherwise carries the title, body and milestone, carries the assignees (if given) else the labels in the labels field, and never carries assignees |
| GithubIssue.CreateIssue | src/github_issue.rs:149-188 | with no title returns "title unspecified" without asking the tracker; otherwise succeeds exactly when the tracker creates the issue, returns that issue, and otherwise fails with "issue not created" |
| GithubIssue.ReadIssue | src/github_issue.rs:191-218 | with no number returns "issue number unspecified"; otherwise succeeds exactly when the tracker finds that number, returns the issue found, and otherwise fails with "unknown issue" |
| GithubIssue.ListBuilder | src/github_issue.rs:226-243 | sends a milestone filter exactly when a milestone is configured, sends an assignee filter exactly when assignees are configured (their first element), and never sends a state or label filter; an empty assignee list panics with an out-of-bounds index |
| GithubIssue.SingleIssue | src/github_issue.rs:257-268 | accepts a page exactly when it holds one issue, and returns that issue unchanged; otherwise "unexpected number of issues" |
| GithubIssue.ListIssues | src/github_issue.rs:222-269 | panics exactly on an empty assignee list; otherwise succeeds exactly when the tracker's page holds one issue and returns it; a tracker failure gives "unknown issues" and any other page size gives "unexpected number of issues" |
| GithubIssue.UpdateBuilder | src/github_issue.rs:276-302 | fails with "issue number unspecified" exactly when there is no number; otherwise a merge-patch carrying title, body, state and milestone exactly when each is configured, and never labels or assignees |
| GithubIssue.UpdateIssue | src/github_issue.rs:272-321 | with no number returns "issue number unspecified"; otherwise succeeds exactly when the tracker applies the patch, returns the updated issue, and otherwise fails with "issue not updated" |
| GithubIssue.Main | src/github_issue.rs:118-146 | every tracker call goes to the handler of the configured owner and repository with the configured token. It panics only for list with an empty assignee list, with the out-of-bounds message. Create without a title, and read or update without a number, fail with the validation errors. With its required field present, create, read and update each succeed exactly when the tracker answers that action's own request: the create builder's request, the configured number, or the update builder's patch. On success they return that answer; otherwise "issue not created", "unknown issue" or "issue not updated". List succeeds exactly when the page for the list builder's filters holds one issue, and returns it; otherwise "unknown issues" or "unexpected number of issues" |
| GithubIssue.MissingFieldFailsBeforeTracker | src/github_issue.rs:149-321 | when the action's required field is missing, the outcome is an error and the same for every client, so the tracker is never consulted |
| GithubIssue.ListAcceptsOnlySingletonPages | src/github_issue.rs:245-268 | list succeeds exactly when the returned page has one item, returns that item, and fails with "unexpected number of issues" for any other size |
| Concourse.NewVersion | src/concourse.rs:24-26 | the version holds its state string unchanged |
| Concourse.Source.Assignee | src/concourse.rs:67-73 | present exactly when an assignee is configured, and then a one-element list of that assignee |
| Concourse.Source.SkipCheck | src/concourse.rs:78-83 | true exactly when the flag is configured as true; an absent flag reads as false |
| Concourse.SourceReadersReturnFields | src/concourse.rs:48-83 | building a source and reading back each field gives the values it was built from, for present and absent optional fields |
| Concourse.OutParamsWithDefaults | src/concourse.rs:87-119 | a missing title reads as the empty string; every other field reads back exactly as given, absent when missing |
| Concourse.NewOutMetadata | src/concourse.rs:139-151 | the metadata holds the number, labels, assignees and milestone unchanged |
| Resource.StateVersions | src/main.rs:57-62 | one or two versions, always starting with "Open", ending with the observed state's name, two exactly when the issue is closed |
| Resource.StateVersionsRoundTrip | src/main.rs:58-60 | every reported version parses as a target state, and the last one parses back to the observed state |
| Resource.CheckAction | src/main.rs:44-47 | check reads exactly when a number is configured and lists exactly when none is |
| Resource.CheckIssue | src/main.rs:31-42 | check's configuration record has no title, body or target state; it copies pat, owner, repo, labels, number and milestone, and takes the assignee as a one-element list |
| Resource.ResourceCheck | src/main.rs:20-63 | panics without a source and never returns an error; it asks the configured repository with the configured token; by number it succeeds exactly when that repository has the issue; by filter it succeeds exactly when the page holds one issue; on success it reports the versions of the observed state (1 or 2 of them, starting with "Open"), and otherwise it panics |
| Resource.CheckReportsEveryState | src/main.rs:49-60 | for any source and either state, a tracker in which only the configured repository answers can make check report that state's versions |
| Resource.CheckRejectsAmbiguousFilter | src/main.rs:49-55 | a list check whose page does not hold exactly one issue panics |
| Resource.CheckFailsOnEmptyOrDoublePage | src/main.rs:49-55 | for a list check, an empty page and a two-issue page from the configured repository can both occur, and each makes check panic |
| Resource.CheckIgnoresStateAndSkipFlag | src/main.rs:31-42 | check's outcome does not depend on the configured state string, the skip flag or the last version |
| Resource.CheckClosedIssueByNumber | src/main.rs:148-179 | a source for issue 1 of o/r without a token, with that repository reporting the issue closed, gives the versions [Open, Closed] |
| Resource.CheckSingleMatchByAssignee | src/main.rs:31-60 | a source for o/r filtering on assignee "u", whose page from that repository holds one issue numbered 42 dispatches to that issue; the lower-case state "open" is never parsed |
| Resource.ResourceIn | src/main.rs:67-80 | whatever its inputs, the in step reports the version "Open" and no metadata |
| Resource.OutIssue | src/main.rs:99-111 | out's configuration record always has the parameters' title, no number and no target state, and copies pat, owner, repo, body, labels, assignees and milestone |
| Resource.ResourceOut | src/main.rs:84-136 | panics without a source, then without parameters, and never returns an error; it succeeds exactly when the configured repository, asked with the configured token, creates the issue it was sent; on success it reports "Open" and the created issue's number, labels, assignees and milestone; otherwise it panics |
| Resource.OutNeverLacksTitle | src/main.rs:100-113 | dispatching out's create never yields "title unspecified" |

## Left out

- How the token authenticates the client (`src/github_issue.rs:123-130`) is not modelled. The token, owner and repository only select the handler the `Client` oracle gives. The panic when the authenticated client cannot be built is left out, because it depends on the client library.
- HTTP and the async runtime are replaced by the `Client` oracle. The tracker's error causes are collapsed to `None` because the resource only logs them.
- List pagination is not modelled. The oracle returns the first page, which is the only page the code inspects.
- The client library's label, user, milestone and issue models are reduced to the fields the resource reads or carries.
- The wildcard arms at `src/github_issue.rs:141-142` and `src/main.rs:61` are not modelled. `Action` and `IssueState` have no other values here, so those arms cannot be reached.
- Console output (`println!`) is not modelled because it is diagnostics only.
- JSON (de)serialisation, the metadata derive and the resource macro are not modelled. `Concourse.OutParamsWithDefaults` models only the default-filling of missing out parameters.
- Writing `issue_number.txt` after a successful create (`src/main.rs:121-124`) is not modelled because it is file I/O. Its failure panic is left out with it.
- The tests that call the live GitHub API (`src/github_issue.rs:414-466`, `src/main.rs:148-179`) are not modelled because their issue data is external. `Resource.CheckClosedIssueByNumber` restates the check test's scenario against the oracle instead.
- Resource.CheckReportsEveryState: the oracle does not model the tracker's default state filter. The list query sends no state (`src/github_issue.rs:229-231`), and GitHub then returns open issues only. So a check configured without a number reaches `[Open, Closed]` only in the model. By number, both lists are reachable as in the source.
