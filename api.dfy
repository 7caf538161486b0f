/**
 * The GitLab REST API as the client sees it: the requests it builds, the
 * replies of its `get` primitive, the errors it reports (with their exact
 * message text), and the remote server as an oracle.
 */
module Api {
  import opened Wrappers
  import opened Text
  import opened Types

  /** The four endpoints the client lists. */
  datatype Resource =
    | AllGroups                   // /api/v4/groups?...&all_available=true
    | AllProjects                 // /api/v4/projects
    | Subgroups(groupId: int)     // /api/v4/groups/:id/subgroups
    | GroupProjects(groupId: int) // /api/v4/groups/:id/projects?...&include_subgroups=false

  /**
   * One GET request, as the query string encodes it. `activeAfter` is the
   * last_activity_after parameter, `orderByActivity` the
   * order_by=last_activity_at&sort=desc pair of the project listing.
   */
  datatype Request = Request(
    resource: Resource,
    perPage: int,
    page: int,
    search: Option<string>,
    activeAfter: Option<string>,
    orderByActivity: bool)

  /** The ways `get` fails, each carrying what its message shows. */
  datatype HttpFailure =
    | CreateRequest(detail: string)
    | SendRequest(detail: string)
    | ReadBody(detail: string)
    | Status(code: int, body: string)
    | ParseJson(detail: string)

  /** What `get` returns: the decoded items with the pagination headers, or a failure. */
  datatype Reply<T> = Page(items: seq<T>, info: PaginationInfo) | Failed(failure: HttpFailure)

  /**
   * Errors of the client. `Cancelled` is the bare "operation cancelled by
   * user" error; the wrapping constructors are the fmt.Errorf("...: %w")
   * sites, which keep their cause but change the message.
   */
  datatype Error =
    | Cancelled
    | Http(failure: HttpFailure)
    | UnknownResourceType(kind: string)
    | FetchingGroupsForFiltering(cause: Error)
    | FetchingSubgroups(groupId: int, cause: Error)
    | FetchingProjects(groupId: int, cause: Error)
    | PopulatingProjects(groupId: int, cause: Error)
    | PopulatingSubgroups(groupId: int, cause: Error)
    | PopulatingSubgroup(name: string, cause: Error)

  const CancelledMessage := "operation cancelled by user"

  function FailureMessage(f: HttpFailure): string {
    match f
    case CreateRequest(d) => "error creating request: " + d
    case SendRequest(d) => "error making API request: " + d
    case ReadBody(d) => "error reading response body: " + d
    case Status(code, body) => "API request failed with status " + Itoa(code) + ": " + body
    case ParseJson(d) => "error parsing JSON response: " + d
  }

  predicate IsWrapped(e: Error) {
    !(e.Cancelled? || e.Http? || e.UnknownResourceType?)
  }

  /** The text a %w wrapping site puts before its cause's message. */
  function Context(e: Error): string
    requires IsWrapped(e)
  {
    match e
    case FetchingGroupsForFiltering(_) => "error fetching groups for manual filtering: "
    case FetchingSubgroups(id, _) => "error fetching subgroups for group " + Itoa(id) + ": "
    case FetchingProjects(id, _) => "error fetching projects for group " + Itoa(id) + ": "
    case PopulatingProjects(id, _) => "failed getting projects for group " + Itoa(id) + ": "
    case PopulatingSubgroups(id, _) => "failed getting subgroups for group " + Itoa(id) + ": "
    case PopulatingSubgroup(name, _) => "failed to populate subgroup " + name + ": "
  }

  /** err.Error(): the text of an error, wrapped causes included. */
  function Message(e: Error): string {
    match e
    case Cancelled => CancelledMessage
    case Http(f) => FailureMessage(f)
    case UnknownResourceType(kind) => "unknown resource type: " + kind
    case _ => Context(e) + Message(e.cause)
  }

  /** The test every caller applies: the error's text is the cancellation text. */
  predicate IsCancellation(e: Error) {
    Message(e) == CancelledMessage
  }

  lemma HeadOfConcat(p: string, s: string)
    requires p != []
    ensures (p + s)[0] == p[0]
  {
  }

  /** Every failure message starts with 'e' or 'A'. */
  lemma FailureMessageHead(f: HttpFailure)
    ensures FailureMessage(f) != [] && FailureMessage(f)[0] != 'o'
  {
    match f
    case CreateRequest(d) => HeadOfConcat("error creating request: ", d);
    case SendRequest(d) => HeadOfConcat("error making API request: ", d);
    case ReadBody(d) => HeadOfConcat("error reading response body: ", d);
    case Status(code, body) =>
      assert FailureMessage(f) == "API request failed with status " + (Itoa(code) + ": " + body);
      HeadOfConcat("API request failed with status ", Itoa(code) + ": " + body);
    case ParseJson(d) => HeadOfConcat("error parsing JSON response: ", d);
  }

  lemma ContextHead(e: Error)
    requires IsWrapped(e)
    ensures Context(e) != [] && Context(e)[0] != 'o'
  {
    match e
    case FetchingGroupsForFiltering(_) =>
      var text := "error fetching groups for manual filtering: ";
      assert Context(e) == text;
      assert text[0] == 'e';
    case FetchingSubgroups(id, _) =>
      HeadOfConcat("error fetching subgroups for group ", Itoa(id) + ": ");
    case FetchingProjects(id, _) =>
      HeadOfConcat("error fetching projects for group ", Itoa(id) + ": ");
    case PopulatingProjects(id, _) =>
      HeadOfConcat("failed getting projects for group ", Itoa(id) + ": ");
    case PopulatingSubgroups(id, _) =>
      HeadOfConcat("failed getting subgroups for group ", Itoa(id) + ": ");
    case PopulatingSubgroup(name, _) =>
      HeadOfConcat("failed to populate subgroup ", name + ": ");
  }

  /** Every message other than the cancellation text starts with another letter. */
  lemma MessageHead(e: Error)
    requires e != Cancelled
    ensures Message(e) != [] && Message(e)[0] != 'o'
  {
    if e.Http? {
      FailureMessageHead(e.failure);
    } else if e.UnknownResourceType? {
      HeadOfConcat("unknown resource type: ", e.kind);
    } else {
      ContextHead(e);
      HeadOfConcat(Context(e), Message(e.cause));
    }
  }

  /**
   * Only the bare cancellation error passes the text test: every other
   * message starts with a different letter, so a wrapped cancellation is an
   * ordinary error.
   */
  lemma CancellationIsUnwrapped(e: Error)
    ensures IsCancellation(e) <==> e == Cancelled
  {
    if e != Cancelled {
      MessageHead(e);
    }
  }

  /** What the client did, in order: requests sent, prompts shown, pause-channel sends attempted. */
  datatype Event =
    | Requested(request: Request)
    | Prompted(prompt: string, answer: bool)
    | Signalled(pause: bool, delivered: bool)

  /**
   * The server, as the answers `get` gives to each request. `pageLimit` and
   * `rank` are not observed by the client; they bound the server: no page
   * after `pageLimit` has items, and every subgroup has a smaller rank than
   * its parent (the group tree is finite and has no cycles).
   */
  datatype Remote = Remote(
    projects: Request -> Reply<Project>,
    groups: Request -> Reply<Group>,
    pageLimit: nat,
    rank: int -> nat)

  /** No page numbered after limit has items. */
  ghost predicate Ends<T>(f: Request -> Reply<T>, limit: nat) {
    forall r: Request :: r.page > limit ==> !(f(r).Page? && f(r).items != [])
  }

  /** Every group listed as a subgroup of id ranks below id. */
  ghost predicate Acyclic(remote: Remote) {
    forall r: Request, k: int ::
      r.resource.Subgroups? && remote.groups(r).Page? && 0 <= k < |remote.groups(r).items| ==>
        remote.rank(remote.groups(r).items[k].id) < remote.rank(r.resource.groupId)
  }

  ghost predicate Finite(remote: Remote) {
    Ends(remote.projects, remote.pageLimit) && Ends(remote.groups, remote.pageLimit) && Acyclic(remote)
  }

  /** A server with no groups and no projects. */
  const EmptyRemote := Remote(_ => Page([], NoPagination), _ => Page([], NoPagination), 0, _ => 0)

  type FiniteRemote = r: Remote | Finite(r) witness EmptyRemote
}
