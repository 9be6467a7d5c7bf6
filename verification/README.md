# GitHub webhook PR labelling, modelled in Dafny

Two webhook receivers keep a workflow label ("Status: Pending", "Status:
Review Needed", "Status: Revision Needed", "Status: Closed") on GitHub pull
requests:

- the **pull-request handler** (`openclose`) reacts to `pull_request` events
  whose action is `opened`, `closed` or `reopened`, and replaces the `Status:*`
  labels of that pull request with the label of the action;
- the **status handler** (`status`) reacts to `status` events, asks GitHub for
  the aggregate status of the commit (ignoring `mergify*` contexts), maps it to
  a label, and replaces the `Status:*` labels of every open pull request whose
  head is that commit.

Both act only on repositories carrying one of the topics
`integration-level-2` … `integration-level-5`.

Each `handle` is modelled as a pure function `Handle(event, payload, oracle)`
returning an `Outcome`: the ordered trace of abstract GitHub calls
(`GetTopics`, `GetStatus`, `GetOpenPrs`, `ReplaceLabels`) and the HTTP
response (`Reply(text)` or `ServerError`). The answers of GitHub's read-only
calls come from an `Oracle` (topics per repository, aggregate status per
repository/sha/ignore-globs, open PR numbers per repository/sha); each is asked
at most once per request, so one oracle value describes any run.

Files:

- `github.dfy` — module `GitHub`: call, oracle, response and outcome types, the
  label constants, the eligibility gate `Eligible` shared by both handlers, and
  the call-order predicate `InCallOrder`.
- `status.dfy` — module `Status`: the status handler.
- `openclose.dfy` — module `OpenClose`: the pull-request handler.

Two details of the code that the model keeps:

- The pull-request handler reads `action` and applies the action filter
  before it reads the repository and pull-request number. So an unrecognised
  action is answered "ignoring <action> action" even when those fields are
  missing. A recognised action with a missing field fails the request.
- The status handler relabels the open pull requests in the order GitHub
  lists them, one at a time, and the model states that order.

## Model

| member | source | states |
|---|---|---|
| GitHub.EligibleIffIntersects | status/application.py:29-32 | the gate shared by both handlers admits a repository exactly when its topic set meets {integration-level-2, -3, -4, -5} |
| Status.StatusLabel | status/application.py:39-47 | a status has a label exactly when it is pending, failure, error or success; the label is one of the workflow labels and never "Status: Closed" |
| Status.ReplaceAll | status/application.py:48-52 | the per-PR loop issues exactly one replace per PR, the i-th on the i-th listed PR, each with glob "Status:*", the same label and case-insensitive matching |
| Status.Handle | status/application.py:17-53 | every trace has topics before status before open PRs before replaces, starts with the topic fetch, and a request whose payload lacks a field fails before any call (ServerError models only that failure) |
| Status.OtherEventIgnored | status/application.py:19-21 | any event other than "status" gives "ignoring <event> event" and an empty trace |
| Status.MalformedPayloadFails | status/application.py:22-26 | a payload lacking the repository name, owner login or sha fails the request before any call |
| Status.IneligibleRepoOnlyFetchesTopics | status/application.py:28-35 | an ineligible repository gives the trace [GetTopics] and "Done": no status fetch, no replace |
| Status.UnknownStatusNoMutation | status/application.py:36-47 | an aggregate status outside the four known values gives "Done" after topics and status, with no PR lookup and no replace |
| Status.KnownStatusRelabelsEveryOpenPr | status/application.py:36-53 | the full path is GetTopics, GetStatus with ignore globs ["mergify*"], GetOpenPrs, then one replace per open PR in list order, all with the status's label, answering "Done" |
| Status.NoOpenPrNoMutation | status/application.py:48-53 | with no open PR on the sha nothing is relabelled and the answer is "Done" |
| Status.StatusLabelTable | status/application.py:39-44 | pending→"Status: Pending", failure and error→"Status: Revision Needed", success→"Status: Review Needed" |
| Status.MutationOnlyWhenWarranted | status/application.py:19-52 | any replace in a trace implies a "status" event, a complete payload, an eligible repository and a known status, and it sets that status's label on a PR GitHub listed as open on the sha |
| Status.TwoOpenPrsScenario | status/application.py:48-53 | PRs #5 and #7 on a successful sha of an eligible repository both get "Status: Review Needed", #5 first |
| OpenClose.ActionLabel | openclose/application.py:24-39 | an action has a label exactly when the action filter admits it, so the "unknown action" arm is never reached past the filter; the label is one of the workflow labels, never "Status: Revision Needed" |
| OpenClose.Handle | openclose/application.py:16-51 | every trace is ordered, starts with the topic fetch, has at most two calls, and a request whose payload lacks a field fails before any call (ServerError models only that failure) |
| OpenClose.OtherEventIgnored | openclose/application.py:18-20 | any event other than "pull_request" gives "ignoring <event> event" and an empty trace |
| OpenClose.OtherActionIgnored | openclose/application.py:21-26 | an action other than opened, closed or reopened gives "ignoring <action> action" and an empty trace, so topics are never fetched |
| OpenClose.MalformedPayloadFails | openclose/application.py:21-29 | a missing action, or a recognised action without repository or PR number, fails the request before any call |
| OpenClose.ActionLabelTable | openclose/application.py:31-36 | closed→"Status: Closed", opened→"Status: Pending", reopened→"Status: Review Needed" |
| OpenClose.UnknownActionArmUnreachable | openclose/application.py:24-39 | the "unknown action" arm is never taken: every "Done" answer follows a topic fetch |
| OpenClose.IneligibleRepoOnlyFetchesTopics | openclose/application.py:40-47 | a recognised action on an ineligible repository gives the trace [GetTopics] and "Done", no replace |
| OpenClose.EligibleRepoRelabelsPr | openclose/application.py:27-51 | a recognised action on an eligible repository gives exactly [GetTopics, ReplaceLabels(number, "Status:*", label, true)] with the payload's PR number and "Done" |
| OpenClose.MutationOnlyWhenWarranted | openclose/application.py:16-51 | any replace in a trace implies a "pull_request" event, a recognised action, a complete payload and an eligible repository, and it sets the action's label on the payload's PR |
| OpenClose.OpenedScenario | openclose/application.py:31-51 | an opened PR on a repository tagged integration-level-3 gets "Status: Pending" after one topic fetch |
| OpenClose.SynchronizeScenario | openclose/application.py:23-26 | a "synchronize" action makes no call and answers "ignoring synchronize action" |

## Left out

- Signature and event-header checking (`github_check_signature_middleware_factory`, `github_check_github_event`): the event type is an input already validated upstream. The bodies of these helpers are not part of this model.
- What the GitHub helpers do (topic fetching, status aggregation with context-glob exclusion, open-PR lookup, glob label replacement): their answers are oracle inputs and their effects are trace entries only.
- Failure of a GitHub call (network error, non-2xx, the 20-second timeout): the model assumes every call returns, so it does not model a trace cut short after a failed replace, nor the HTTP 500 such a failure gives after calls have gone out; `ServerError` stands only for a missing payload field.
- aiohttp routing, the `ClientSession` lifetime and async suspension: HTTP plumbing with no effect on the call trace.
- Environment configuration (`GITHUB_USER`, `GITHUB_PASS`, `GITHUB_SECRET`) and failure at startup.
- Logging calls.
- JSON decoding: the payload is an already-parsed record whose fields are `Option`s. A missing field, or a body that is not JSON, is `ServerError` with an empty trace. A field of an unexpected JSON type, such as a non-string action, is not modelled.
- Topics are modelled as a set; the handlers only test membership, so a list with duplicates behaves the same.
