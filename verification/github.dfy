/** Shared vocabulary of the two webhook handlers: the abstract GitHub calls
    a handler issues, the oracle that answers the read-only calls, the HTTP
    response, and the repository eligibility gate both handlers apply. */
module GitHub {

  datatype Option<T> = None | Some(value: T)

  /** A repository, as named by `repository.owner.login` and `repository.name`. */
  datatype RepoRef = RepoRef(owner: string, name: string)

  /** One outbound call to the GitHub REST API. The handlers only ever issue
      these four kinds; their effects on GitHub are not modelled, only the
      fact that they were issued, with which arguments, in which order. */
  datatype Call =
    | GetTopics(repo: RepoRef)
    | GetStatus(repo: RepoRef, sha: string, ignoreContextGlobs: seq<string>)
    | GetOpenPrs(repo: RepoRef, sha: string)
    | ReplaceLabels(repo: RepoRef, number: int, glob: string, newLabel: string, caseInsensitive: bool)

  /** What the read-only calls would answer: the topic set of a repository,
      the aggregate commit status of a sha with some contexts excluded, and
      the numbers of the open pull requests whose head is a sha. */
  datatype Oracle = Oracle(
    topics: RepoRef -> set<string>,
    status: (RepoRef, string, seq<string>) -> string,
    openPrs: (RepoRef, string) -> seq<int>)

  /** The HTTP answer: a 200 with a plain-text body, or the 500 a missing
      payload field turns into. Failing GitHub calls are not modelled, so
      `ServerError` stands for that failure only. */
  datatype Response = Reply(text: string) | ServerError

  /** What one request does: the calls it issues, in order, and its answer. */
  datatype Outcome = Outcome(trace: seq<Call>, response: Response)

  const Done := Reply("Done")

  /** Every status label matches this glob, so a replace drops any previous one. */
  const StatusGlob := "Status:*"

  const Closed := "Status: Closed"
  const Pending := "Status: Pending"
  const ReviewNeeded := "Status: Review Needed"
  const RevisionNeeded := "Status: Revision Needed"

  /** The fixed enumeration of labels the handlers ever set. */
  const StatusLabels: set<string> := {Closed, Pending, ReviewNeeded, RevisionNeeded}

  /** Topics that opt a repository in to labelling. */
  const IntegrationLevels: set<string> :=
    {"integration-level-2", "integration-level-3", "integration-level-4", "integration-level-5"}

  /** The eligibility gate, written as both handlers write it: the repository
      is skipped when each of the four topics is absent. */
  predicate Eligible(topics: set<string>)
  {
    !(&& "integration-level-2" !in topics
      && "integration-level-3" !in topics
      && "integration-level-4" !in topics
      && "integration-level-5" !in topics)
  }

  /** The gate is exactly "the topic set meets the integration levels". */
  lemma EligibleIffIntersects(topics: set<string>)
    ensures Eligible(topics) <==> topics * IntegrationLevels != {}
  {
    if Eligible(topics) {
      var t :| t in IntegrationLevels && t in topics;
      assert t in topics * IntegrationLevels;
    } else {
      forall t | t in IntegrationLevels
        ensures t !in topics
      {
      }
      assert topics * IntegrationLevels == {};
    }
  }

  /** The answer to an event of a type the handler does not serve. */
  function IgnoringEvent(event: string): Response
  {
    Reply("ignoring " + event + " event")
  }

  /** The label mutation both handlers issue: drop every label matching
      `Status:*`, case-insensitively, and set `newLabel`. */
  function Replace(repo: RepoRef, number: int, newLabel: string): Call
  {
    ReplaceLabels(repo, number, StatusGlob, newLabel, true)
  }

  /** Position of a call kind in the order a handler issues them. */
  function Rank(c: Call): nat
  {
    match c
    case GetTopics(_) => 0
    case GetStatus(_, _, _) => 1
    case GetOpenPrs(_, _) => 2
    case ReplaceLabels(_, _, _, _, _) => 3
  }

  /** Topics before status before open PRs before any mutation. */
  predicate InCallOrder(trace: seq<Call>)
  {
    forall i, j :: 0 <= i < j < |trace| ==> Rank(trace[i]) <= Rank(trace[j])
  }

  /** The trace mutates nothing on GitHub. */
  predicate NoMutation(trace: seq<Call>)
  {
    forall i :: 0 <= i < |trace| ==> !trace[i].ReplaceLabels?
  }

  /** A non-empty trace begins by fetching the repository's topics. */
  predicate StartsWithTopics(trace: seq<Call>)
  {
    trace != [] ==> trace[0].GetTopics?
  }
}
