/** The commit-status webhook: on a `status` event for an eligible
    repository, map the sha's aggregate status to a workflow label and put
    that label on every open pull request whose head is the sha. */
module Status {
  import opened GitHub

  /** Status contexts left out of the aggregate: the merge bot's own checks. */
  const IgnoreContextGlobs: seq<string> := ["mergify*"]

  /** The fields the handler reads from the decoded `status` payload; `None`
      is a field the body lacks, which makes the handler raise. */
  datatype Payload = Payload(repoName: Option<string>, ownerLogin: Option<string>, sha: Option<string>)

  /** The aggregate status values that have a label. */
  const KnownStatuses: set<string> := {"pending", "failure", "error", "success"}

  /** The status-to-label decision table; `None` is "unknown status". */
  function StatusLabel(status: string): (r: Option<string>)
    ensures r.Some? <==> status in KnownStatuses
    ensures r.Some? ==> r.value in StatusLabels && r.value != Closed
  {
    if status == "pending" then Some(Pending)
    else if status == "failure" || status == "error" then Some(RevisionNeeded)
    else if status == "success" then Some(ReviewNeeded)
    else None
  }

  /** The per-PR loop: one replace per PR number, in list order. */
  function ReplaceAll(repo: RepoRef, prs: seq<int>, newLabel: string): (r: seq<Call>)
    ensures |r| == |prs|
    ensures forall i :: 0 <= i < |prs| ==> r[i] == ReplaceLabels(repo, prs[i], StatusGlob, newLabel, true)
  {
    if prs == [] then []
    else [Replace(repo, prs[0], newLabel)] + ReplaceAll(repo, prs[1..], newLabel)
  }

  /** One `status` webhook delivery, from the event-type header onwards. */
  function Handle(event: string, payload: Payload, oracle: Oracle): (out: Outcome)
    ensures InCallOrder(out.trace) && StartsWithTopics(out.trace)
    ensures out.response == ServerError ==> out.trace == []
  {
    if event != "status" then Outcome([], IgnoringEvent(event))
    else if payload.repoName.None? || payload.ownerLogin.None? || payload.sha.None? then
      Outcome([], ServerError)
    else
      var repo := RepoRef(payload.ownerLogin.value, payload.repoName.value);
      var sha := payload.sha.value;
      if !Eligible(oracle.topics(repo)) then Outcome([GetTopics(repo)], Done)
      else
        var fetched := [GetTopics(repo), GetStatus(repo, sha, IgnoreContextGlobs)];
        match StatusLabel(oracle.status(repo, sha, IgnoreContextGlobs))
        case None => Outcome(fetched, Done)
        case Some(newLabel) =>
          Outcome(fetched + [GetOpenPrs(repo, sha)] + ReplaceAll(repo, oracle.openPrs(repo, sha), newLabel), Done)
  }

  /** The repository a well-formed payload names. */
  function RepoOf(payload: Payload): RepoRef
    requires payload.repoName.Some? && payload.ownerLogin.Some?
  {
    RepoRef(payload.ownerLogin.value, payload.repoName.value)
  }

  /** A payload with every field the handler reads. */
  predicate WellFormed(payload: Payload)
  {
    payload.repoName.Some? && payload.ownerLogin.Some? && payload.sha.Some?
  }

  /** Any event other than `status` is answered without a single call. */
  lemma OtherEventIgnored(event: string, payload: Payload, oracle: Oracle)
    requires event != "status"
    ensures Handle(event, payload, oracle) == Outcome([], Reply("ignoring " + event + " event"))
  {
  }

  /** A payload lacking a field fails the request before any call. */
  lemma MalformedPayloadFails(payload: Payload, oracle: Oracle)
    requires !WellFormed(payload)
    ensures Handle("status", payload, oracle) == Outcome([], ServerError)
  {
  }

  /** An ineligible repository costs one topic fetch and nothing else. */
  lemma IneligibleRepoOnlyFetchesTopics(payload: Payload, oracle: Oracle)
    requires WellFormed(payload)
    requires !Eligible(oracle.topics(RepoOf(payload)))
    ensures Handle("status", payload, oracle) == Outcome([GetTopics(RepoOf(payload))], Done)
  {
  }

  /** An unknown aggregate status stops after the status fetch: no PR lookup,
      no relabelling, and the answer is still "Done". */
  lemma UnknownStatusNoMutation(payload: Payload, oracle: Oracle)
    requires WellFormed(payload)
    requires Eligible(oracle.topics(RepoOf(payload)))
    requires oracle.status(RepoOf(payload), payload.sha.value, IgnoreContextGlobs) !in KnownStatuses
    ensures var out := Handle("status", payload, oracle);
      && out.response == Done
      && out.trace == [GetTopics(RepoOf(payload)), GetStatus(RepoOf(payload), payload.sha.value, ["mergify*"])]
      && NoMutation(out.trace)
  {
  }

  /** The full path: topics, status with `mergify*` excluded, open PRs, then
      exactly one replace per open PR, in the order GitHub listed them, all
      with the label the status maps to. */
  lemma KnownStatusRelabelsEveryOpenPr(payload: Payload, oracle: Oracle)
    requires WellFormed(payload)
    requires Eligible(oracle.topics(RepoOf(payload)))
    requires oracle.status(RepoOf(payload), payload.sha.value, IgnoreContextGlobs) in KnownStatuses
    ensures var repo := RepoOf(payload);
      var sha := payload.sha.value;
      var prs := oracle.openPrs(repo, sha);
      var newLabel := StatusLabel(oracle.status(repo, sha, IgnoreContextGlobs)).value;
      var out := Handle("status", payload, oracle);
      && out.response == Done
      && |out.trace| == 3 + |prs|
      && out.trace[..3] == [GetTopics(repo), GetStatus(repo, sha, ["mergify*"]), GetOpenPrs(repo, sha)]
      && forall i :: 0 <= i < |prs| ==> out.trace[3 + i] == ReplaceLabels(repo, prs[i], "Status:*", newLabel, true)
  {
  }

  /** With no open PR on the sha, nothing is relabelled and the answer is "Done". */
  lemma NoOpenPrNoMutation(payload: Payload, oracle: Oracle)
    requires WellFormed(payload)
    requires oracle.openPrs(RepoOf(payload), payload.sha.value) == []
    ensures Handle("status", payload, oracle).response == Done
    ensures NoMutation(Handle("status", payload, oracle).trace)
  {
  }

  /** The exact status-to-label table. */
  lemma StatusLabelTable()
    ensures StatusLabel("pending") == Some("Status: Pending")
    ensures StatusLabel("failure") == Some("Status: Revision Needed")
    ensures StatusLabel("error") == Some("Status: Revision Needed")
    ensures StatusLabel("success") == Some("Status: Review Needed")
  {
  }

  /** A label is set only when the event is `status`, the payload is complete,
      the repository is eligible and the status is known; and then it is the
      status's label, on a PR GitHub reported open on the sha. */
  lemma MutationOnlyWhenWarranted(event: string, payload: Payload, oracle: Oracle, k: int)
    requires 0 <= k < |Handle(event, payload, oracle).trace|
    requires Handle(event, payload, oracle).trace[k].ReplaceLabels?
    ensures event == "status" && WellFormed(payload)
    ensures Eligible(oracle.topics(RepoOf(payload)))
    ensures var repo := RepoOf(payload);
      var sha := payload.sha.value;
      var status := oracle.status(repo, sha, IgnoreContextGlobs);
      var c := Handle(event, payload, oracle).trace[k];
      && status in KnownStatuses
      && c == ReplaceLabels(repo, c.number, StatusGlob, StatusLabel(status).value, true)
      && c.number in oracle.openPrs(repo, sha)
  {
  }

  /** Example: PRs #5 and #7 on a successful sha of an eligible
      repository both get "Status: Review Needed", #5 first. */
  lemma TwoOpenPrsScenario(repo: RepoRef, sha: string, oracle: Oracle)
    requires "integration-level-3" in oracle.topics(repo)
    requires oracle.status(repo, sha, ["mergify*"]) == "success"
    requires oracle.openPrs(repo, sha) == [5, 7]
    ensures Handle("status", Payload(Some(repo.name), Some(repo.owner), Some(sha)), oracle)
         == Outcome([GetTopics(repo), GetStatus(repo, sha, ["mergify*"]), GetOpenPrs(repo, sha),
                     ReplaceLabels(repo, 5, "Status:*", "Status: Review Needed", true),
                     ReplaceLabels(repo, 7, "Status:*", "Status: Review Needed", true)],
                    Reply("Done"))
  {
  }
}
