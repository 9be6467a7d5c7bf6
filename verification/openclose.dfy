/** The pull-request webhook: on an `opened`, `closed` or `reopened`
    pull-request event for an eligible repository, put the matching workflow
    label on that pull request. */
module OpenClose {
  import opened GitHub

  /** The fields the handler reads from the decoded `pull_request` payload;
      `None` is a field the body lacks, which makes the handler raise. */
  datatype Payload = Payload(
    action: Option<string>,
    repoName: Option<string>,
    ownerLogin: Option<string>,
    number: Option<int>)

  /** The actions the handler acts on; every other one is ignored. */
  const RecognisedActions: seq<string> := ["opened", "closed", "reopened"]

  /** The action-to-label chain; `None` is its defensive "unknown action" arm. */
  function ActionLabel(action: string): (r: Option<string>)
    ensures r.Some? <==> action in RecognisedActions
    ensures r.Some? ==> r.value in StatusLabels && r.value != RevisionNeeded
  {
    if action == "closed" then Some(Closed)
    else if action == "opened" then Some(Pending)
    else if action == "reopened" then Some(ReviewNeeded)
    else None
  }

  /** One `pull_request` webhook delivery, from the event-type header onwards. */
  function Handle(event: string, payload: Payload, oracle: Oracle): (out: Outcome)
    ensures InCallOrder(out.trace) && StartsWithTopics(out.trace)
    ensures |out.trace| <= 2
    ensures out.response == ServerError ==> out.trace == []
  {
    if event != "pull_request" then Outcome([], IgnoringEvent(event))
    else if payload.action.None? then Outcome([], ServerError)
    else
      var action := payload.action.value;
      if action !in RecognisedActions then Outcome([], Reply("ignoring " + action + " action"))
      else if payload.repoName.None? || payload.ownerLogin.None? || payload.number.None? then
        Outcome([], ServerError)
      else
        var repo := RepoRef(payload.ownerLogin.value, payload.repoName.value);
        match ActionLabel(action)
        case None => Outcome([], Done)
        case Some(newLabel) =>
          if !Eligible(oracle.topics(repo)) then Outcome([GetTopics(repo)], Done)
          else Outcome([GetTopics(repo), Replace(repo, payload.number.value, newLabel)], Done)
  }

  /** The pull-request fields the handler needs past the action filter. */
  predicate HasTarget(payload: Payload)
  {
    payload.repoName.Some? && payload.ownerLogin.Some? && payload.number.Some?
  }

  /** The repository a payload with a target names. */
  function RepoOf(payload: Payload): RepoRef
    requires HasTarget(payload)
  {
    RepoRef(payload.ownerLogin.value, payload.repoName.value)
  }

  /** Any event other than `pull_request` is answered without a single call. */
  lemma OtherEventIgnored(event: string, payload: Payload, oracle: Oracle)
    requires event != "pull_request"
    ensures Handle(event, payload, oracle) == Outcome([], Reply("ignoring " + event + " event"))
  {
  }

  /** An action outside opened/closed/reopened is answered before the topics
      are fetched, whatever else the payload holds or lacks. */
  lemma OtherActionIgnored(action: string, payload: Payload, oracle: Oracle)
    requires payload.action == Some(action)
    requires action != "opened" && action != "closed" && action != "reopened"
    ensures Handle("pull_request", payload, oracle) == Outcome([], Reply("ignoring " + action + " action"))
  {
  }

  /** A payload without an action, or a recognised action without its pull
      request and repository, fails the request before any call. */
  lemma MalformedPayloadFails(payload: Payload, oracle: Oracle)
    requires payload.action.None? || (payload.action.value in RecognisedActions && !HasTarget(payload))
    ensures Handle("pull_request", payload, oracle) == Outcome([], ServerError)
  {
  }

  /** The exact action-to-label table. */
  lemma ActionLabelTable()
    ensures ActionLabel("closed") == Some("Status: Closed")
    ensures ActionLabel("opened") == Some("Status: Pending")
    ensures ActionLabel("reopened") == Some("Status: Review Needed")
  {
  }

  /** Once the action filter has let an action through, the chain's
      "unknown action" arm cannot be taken: a "Done" answer always follows a
      topic fetch. */
  lemma UnknownActionArmUnreachable(event: string, payload: Payload, oracle: Oracle)
    ensures Handle(event, payload, oracle).response == Done ==>
      |Handle(event, payload, oracle).trace| >= 1
  {
  }

  /** An ineligible repository costs one topic fetch and nothing else. */
  lemma IneligibleRepoOnlyFetchesTopics(payload: Payload, oracle: Oracle)
    requires payload.action.Some? && payload.action.value in RecognisedActions
    requires HasTarget(payload)
    requires !Eligible(oracle.topics(RepoOf(payload)))
    ensures Handle("pull_request", payload, oracle) == Outcome([GetTopics(RepoOf(payload))], Done)
  {
  }

  /** The full path: fetch topics, then one replace of `Status:*` on the
      payload's pull request with the action's label. */
  lemma EligibleRepoRelabelsPr(payload: Payload, oracle: Oracle)
    requires payload.action.Some? && payload.action.value in RecognisedActions
    requires HasTarget(payload)
    requires Eligible(oracle.topics(RepoOf(payload)))
    ensures var repo := RepoOf(payload);
      Handle("pull_request", payload, oracle)
        == Outcome([GetTopics(repo),
                    ReplaceLabels(repo, payload.number.value, "Status:*",
                                  ActionLabel(payload.action.value).value, true)],
                   Reply("Done"))
  {
  }

  /** A label is set only for a recognised action on an eligible repository,
      and then it is the action's label, on the payload's pull request. */
  lemma MutationOnlyWhenWarranted(event: string, payload: Payload, oracle: Oracle, k: int)
    requires 0 <= k < |Handle(event, payload, oracle).trace|
    requires Handle(event, payload, oracle).trace[k].ReplaceLabels?
    ensures event == "pull_request" && HasTarget(payload)
    ensures payload.action.Some? && payload.action.value in RecognisedActions
    ensures Eligible(oracle.topics(RepoOf(payload)))
    ensures Handle(event, payload, oracle).trace[k]
         == Replace(RepoOf(payload), payload.number.value, ActionLabel(payload.action.value).value)
  {
  }

  /** Example: an opened pull request on a repository tagged
      `integration-level-3` gets "Status: Pending". */
  lemma OpenedScenario(repo: RepoRef, number: int, oracle: Oracle)
    requires "integration-level-3" in oracle.topics(repo)
    ensures Handle("pull_request", Payload(Some("opened"), Some(repo.name), Some(repo.owner), Some(number)), oracle)
         == Outcome([GetTopics(repo), ReplaceLabels(repo, number, "Status:*", "Status: Pending", true)],
                    Reply("Done"))
  {
  }

  /** Example: a `synchronize` action makes no call at all. */
  lemma SynchronizeScenario(payload: Payload, oracle: Oracle)
    requires payload.action == Some("synchronize")
    ensures Handle("pull_request", payload, oracle) == Outcome([], Reply("ignoring synchronize action"))
  {
  }
}
