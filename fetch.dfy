/**
 * What each listing operation of the GitLab client does, as functions of the
 * server, the confirmation answers and the pause-channel slot: the value it
 * returns, the events it causes (requests, prompts, pause signals) in order,
 * and the slot it leaves.
 */
module Fetch {
  import opened Wrappers
  import opened Text
  import opened Types
  import opened Api

  /** Above this many items the user is asked before fetching. */
  const LargeFetchThreshold := 50

  /** Items per page of every page loop. */
  const PageSize := 100

  /**
   * The pause channel the client was given: none, one that nobody reads
   * (status animation off), or one whose reader takes every signal as soon
   * as it arrives (status animation on).
   */
  datatype Channel = NoChannel | Unread | Drained

  /**
   * What the client works against: the server, the last_activity_after
   * cutoff (computed once, thirty days before now), the confirmation
   * function, and the pause channel.
   */
  datatype Env = Env(remote: FiniteRemote, cutoff: string, confirm: string -> bool, channel: Channel)

  /** The environment once the status animation has stopped: the channel stays, but nobody reads it any more. */
  function ReaderStopped(env: Env): Env {
    env.(channel := if env.channel == Drained then Unread else env.channel)
  }

  /** An operation's result, the events it caused, and the pause slot after it. */
  datatype Step<T> = Step(value: T, events: seq<Event>, slot: Option<bool>)

  /** The last_activity_after parameter: absent when all items are wanted. */
  function Recency(env: Env, all: bool): Option<string> {
    if all then None else Some(env.cutoff)
  }

  /** A non-blocking send on the one-slot channel; it succeeds exactly when the slot is empty. */
  function Send(channel: Channel, slot: Option<bool>, v: bool): (bool, Option<bool>) {
    if slot.None? then (true, if channel == Drained then None else Some(v)) else (false, slot)
  }

  predicate Prompts(events: seq<Event>) {
    exists k :: 0 <= k < |events| && events[k].Prompted?
  }

  predicate PauseDelivered(events: seq<Event>) {
    exists k :: 0 <= k < |events| && events[k].Signalled? && events[k].pause && events[k].delivered
  }

  predicate ResumeAttempted(events: seq<Event>) {
    exists k :: 0 <= k < |events| && events[k].Signalled? && !events[k].pause
  }

  /** No request among events sends a search term to the server. */
  predicate SendsNoSearch(events: seq<Event>) {
    forall k :: 0 <= k < |events| && events[k].Requested? ==> events[k].request.search == None
  }

  lemma SendsNoSearchAppend(a: seq<Event>, b: seq<Event>)
    requires SendsNoSearch(a) && SendsNoSearch(b)
    ensures SendsNoSearch(a + b)
  {
    forall k | 0 <= k < |a + b| && (a + b)[k].Requested? ensures (a + b)[k].request.search == None {
      if k >= |a| {
        assert (a + b)[k] == b[k - |a|];
      }
    }
  }

  /** The last event is a prompt the user declined. */
  predicate EndsDeclined(events: seq<Event>) {
    events != [] && events[|events| - 1].Prompted? && !events[|events| - 1].answer
  }

  /** The last event is a request. */
  predicate EndsRequested(events: seq<Event>) {
    events != [] && events[|events| - 1].Requested?
  }

  /** A non-empty tail decides how a trace ends. */
  lemma EndsOfAppend(a: seq<Event>, b: seq<Event>)
    requires b != []
    ensures EndsDeclined(a + b) == EndsDeclined(b) && EndsRequested(a + b) == EndsRequested(b)
  {
    assert (a + b)[|a + b| - 1] == b[|b| - 1];
  }

  lemma NoPromptsAppend(a: seq<Event>, b: seq<Event>)
    requires !Prompts(a) && !Prompts(b)
    ensures !Prompts(a + b)
  {
    forall k | 0 <= k < |a + b| ensures !(a + b)[k].Prompted? {
      if k < |a| {
        assert (a + b)[k] == a[k];
      } else {
        assert (a + b)[k] == b[k - |a|];
      }
    }
  }

  function Prompt(desc: string, count: int): string {
    "This operation will fetch " + Itoa(count) + " " + desc + ". Continue?"
  }

  /**
   * confirmLargeFetch: proceeds without asking when count is at most the
   * threshold; otherwise pauses the status line if it can, asks, and only
   * after a delivered pause and a yes tries to resume it.
   */
  function Gate(env: Env, slot: Option<bool>, desc: string, count: int): (r: Step<bool>)
    ensures !Prompts(r.events) <==> count <= LargeFetchThreshold
    ensures count <= LargeFetchThreshold ==> r.value && r.events == [] && r.slot == slot
    ensures count > LargeFetchThreshold ==> r.value == env.confirm(Prompt(desc, count))
    ensures ResumeAttempted(r.events) <==> r.value && PauseDelivered(r.events)
    ensures !r.value ==> EndsDeclined(r.events)
    ensures env.channel == NoChannel ==> r.slot == slot
    ensures forall k :: 0 <= k < |r.events| ==> !r.events[k].Requested?
  {
    if count <= LargeFetchThreshold then Step(true, [], slot)
    else
      var prompt := Prompt(desc, count);
      var ok := env.confirm(prompt);
      if env.channel == NoChannel then
        assert [Prompted(prompt, ok)][0].Prompted?;
        Step(ok, [Prompted(prompt, ok)], slot)
      else
        var (paused, afterPause) := Send(env.channel, slot, true);
        if ok && paused then
          var (resumed, afterResume) := Send(env.channel, afterPause, false);
          var events := [Signalled(true, true), Prompted(prompt, true), Signalled(false, resumed)];
          assert events[0].Signalled? && events[1].Prompted? && events[2].Signalled?;
          Step(true, events, afterResume)
        else
          var events := [Signalled(true, paused), Prompted(prompt, ok)];
          assert events[1].Prompted?;
          Step(ok, events, afterPause)
  }

  /**
   * With nobody reading the channel, a prompting gate leaves a pause signal
   * in the slot for good: the first pause is delivered but never taken, its
   * resume cannot be sent, and every later pause finds the slot full.
   */
  lemma UnreadGateFillsSlot(env: Env, slot: Option<bool>, desc: string, count: int)
    requires env.channel == Unread && count > LargeFetchThreshold
    ensures var r := Gate(env, slot, desc, count);
      r.slot == (if slot.None? then Some(true) else slot)
      && r.events[0] == Signalled(true, slot.None?)
      && (r.value && slot.None? ==> r.events[2] == Signalled(false, false))
  {
  }

  /** With the status animation reading the channel, every pause and resume is delivered and the slot stays empty. */
  lemma DrainedGateKeepsSlotFree(env: Env, desc: string, count: int)
    requires env.channel == Drained && count > LargeFetchThreshold
    ensures var r := Gate(env, None, desc, count);
      r.slot == None && r.events[0] == Signalled(true, true)
      && (r.value ==> r.events[2] == Signalled(false, true))
  {
  }

  /** The total a probe reply reports, when it is a page. */
  function CountOf<T>(reply: Reply<T>): Option<int> {
    if reply.Page? then Some(reply.info.total) else None
  }

  /** The one-item probe CheckResourceCount sends for "groups" and "projects". */
  function CountRequest(env: Env, kind: string, all: bool, search: string): Request {
    if kind == "groups" then
      Request(AllGroups, 1, 1, if search != "" then Some(search) else None, Recency(env, all), false)
    else
      Request(AllProjects, 1, 1, None, Recency(env, all), false)
  }

  /**
   * CheckResourceCount: the X-Total of a one-item page of groups or
   * projects. The search term goes to the server only for groups.
   */
  function CheckResourceCount(env: Env, slot: Option<bool>, kind: string, all: bool, search: string): (r: Step<Result<int, Error>>)
    ensures kind != "groups" && kind != "projects" ==> r == Step(Err(UnknownResourceType(kind)), [], slot)
    ensures kind == "groups" || kind == "projects" ==>
      && |r.events| == 1 && r.events[0] == Requested(CountRequest(env, kind, all, search))
      && r.events[0].request.perPage == 1 && r.events[0].request.page == 1
    ensures kind == "projects" ==> r.events[0].request.search == None
    ensures kind == "groups" ==> r.value == CountValue(env.remote.groups(r.events[0].request))
    ensures kind == "projects" ==> r.value == CountValue(env.remote.projects(r.events[0].request))
    ensures r.slot == slot
  {
    if kind != "groups" && kind != "projects" then Step(Err(UnknownResourceType(kind)), [], slot)
    else
      var request := CountRequest(env, kind, all, search);
      var value :=
        if kind == "groups" then CountValue(env.remote.groups(request)) else CountValue(env.remote.projects(request));
      Step(value, [Requested(request)], slot)
  }

  /** The X-Total of a probe reply, or the reply's failure. */
  function CountValue<T>(reply: Reply<T>): Result<int, Error> {
    match reply
    case Page(_, info) => Ok(info.total)
    case Failed(f) => Err(Http(f))
  }

  /**
   * The steps before a page loop: the probe's events, then the gate when the
   * probe reported a count and gating applies; a failed probe skips the gate.
   */
  function Admit(env: Env, slot: Option<bool>, probe: seq<Event>, count: Option<int>, gated: bool, desc: string): (r: Step<bool>)
    ensures probe <= r.events
    ensures forall k :: |probe| <= k < |r.events| ==> !r.events[k].Requested?
    ensures !(count.Some? && gated) ==> r == Step(true, probe, slot)
    ensures count.Some? && gated ==> r.value == Gate(env, slot, desc, count.value).value
  {
    if count.Some? && gated then
      var g := Gate(env, slot, desc, count.value);
      Step(g.value, probe + g.events, g.slot)
    else
      Step(true, probe, slot)
  }

  /** The gate of GetProjects and GetGroups, which runs only when all items are wanted. */
  function TopAdmit(env: Env, slot: Option<bool>, kind: string, all: bool, search: string, desc: string): Step<bool> {
    if all then
      var probe := CheckResourceCount(env, slot, kind, all, search);
      Admit(env, slot, probe.events, if probe.value.Ok? then Some(probe.value.value) else None, true, desc)
    else
      Step(true, [], slot)
  }

  /** The outcome of a page loop and the number of pages it requested. */
  datatype Pages<T> = Pages(result: Result<seq<T>, HttpFailure>, count: nat)

  /** The reply to the request base for page p. */
  function At<T>(f: Request -> Reply<T>, base: Request, p: int): Reply<T> {
    f(base.(page := p))
  }

  /** A page loop stops at a failure or at an empty page. */
  predicate Stops<T>(reply: Reply<T>) {
    reply.Failed? || reply.items == []
  }

  /**
   * The page loop: requests page, page + 1, ... until a page fails (the
   * whole result is that failure) or comes back empty (the result is
   * everything gathered before it).
   */
  function Paginate<T>(f: Request -> Reply<T>, base: Request, page: int, limit: nat): (r: Pages<T>)
    requires Ends(f, limit)
    ensures r.count >= 1
    decreases limit + 1 - page
  {
    match At(f, base, page)
    case Failed(e) => Pages(Err(e), 1)
    case Page(items, _) =>
      if items == [] then Pages(Ok([]), 1)
      else
        var rest := Paginate(f, base, page + 1, limit);
        Pages(if rest.result.Ok? then Ok(items + rest.result.value) else rest.result, rest.count + 1)
  }

  /** The requests for count consecutive pages starting at from. */
  function Requests(base: Request, from: int, count: nat): (r: seq<Event>)
    ensures |r| == count
    ensures forall k :: 0 <= k < count ==> r[k] == Requested(base.(page := from + k))
  {
    seq(count, k => Requested(base.(page := from + k)))
  }

  /** The items of pages from .. to-1, in order. */
  function Gather<T>(f: Request -> Reply<T>, base: Request, from: int, to: int): seq<T>
    decreases to - from
  {
    if from >= to then [] else (if At(f, base, from).Page? then At(f, base, from).items else []) + Gather(f, base, from + 1, to)
  }

  /**
   * The page loop stops at the first page n that fails or is empty: it makes
   * n - page + 1 requests and returns the failure of page n, or the
   * concatenation of pages before n.
   */
  lemma {:induction false} PaginateStopsAt<T>(f: Request -> Reply<T>, base: Request, page: int, limit: nat, n: int)
    requires Ends(f, limit)
    requires page <= n && Stops(At(f, base, n))
    requires forall p :: page <= p < n ==> !Stops(At(f, base, p))
    ensures Paginate(f, base, page, limit).count == n - page + 1
    ensures Paginate(f, base, page, limit).result ==
      if At(f, base, n).Failed? then Err(At(f, base, n).failure) else Ok(Gather(f, base, page, n))
    decreases n - page
  {
    if page < n {
      assert !Stops(At(f, base, page));
      PaginateStopsAt(f, base, page + 1, limit, n);
    }
  }

  /** Every page loop stops: some page at most limit + 1 fails or is empty, and the pages before it do not. */
  lemma {:induction false} FirstStop<T>(f: Request -> Reply<T>, base: Request, page: int, limit: nat) returns (n: int)
    requires Ends(f, limit)
    ensures page <= n <= if page > limit + 1 then page else limit + 1
    ensures Stops(At(f, base, n))
    ensures forall p :: page <= p < n ==> !Stops(At(f, base, p))
    decreases limit + 1 - page
  {
    if Stops(At(f, base, page)) {
      n := page;
    } else {
      assert page <= limit by {
        assert !(At(f, base, page).Page? && At(f, base, page).items != []) ==> Stops(At(f, base, page));
      }
      n := FirstStop(f, base, page + 1, limit);
    }
  }

  /** The case-insensitive substring test of the client-side filters. */
  predicate Matches(path: string, term: string) {
    Contains(Lower(path), Lower(term))
  }

  function ProjectPath(p: Project): string {
    p.pathWithNamespace
  }

  function GroupPath(g: Group): string {
    g.fullPath
  }

  /** The items whose path matches term, in their original order. */
  function KeepMatching<T>(xs: seq<T>, path: T -> string, term: string): (r: seq<T>)
    ensures |r| <= |xs|
  {
    if xs == [] then []
    else
      var last := xs[|xs| - 1];
      KeepMatching(xs[..|xs| - 1], path, term) + (if Matches(path(last), term) then [last] else [])
  }

  /** Exactly the matching items are kept. */
  lemma {:induction false} KeepMatchingMembers<T>(xs: seq<T>, path: T -> string, term: string, x: T)
    ensures x in KeepMatching(xs, path, term) <==> x in xs && Matches(path(x), term)
  {
    if xs != [] {
      KeepMatchingMembers(xs[..|xs| - 1], path, term, x);
      assert xs == xs[..|xs| - 1] + [xs[|xs| - 1]];
    }
  }

  /** Filtering distributes over concatenation, so the original order is kept. */
  lemma {:induction false} KeepMatchingAppend<T>(xs: seq<T>, ys: seq<T>, path: T -> string, term: string)
    ensures KeepMatching(xs + ys, path, term) == KeepMatching(xs, path, term) + KeepMatching(ys, path, term)
    decreases |ys|
  {
    if ys != [] {
      var zs := xs + ys;
      assert zs[..|zs| - 1] == xs + ys[..|ys| - 1];
      assert zs[|zs| - 1] == ys[|ys| - 1];
      KeepMatchingAppend(xs, ys[..|ys| - 1], path, term);
    } else {
      assert xs + ys == xs;
    }
  }

  /** An empty term matches every path, so nothing is dropped. */
  lemma {:induction false} KeepMatchingEmptyTerm<T>(xs: seq<T>, path: T -> string)
    ensures KeepMatching(xs, path, "") == xs
  {
    if xs != [] {
      KeepMatchingEmptyTerm(xs[..|xs| - 1], path);
      assert Lower("") == "";
      assert xs == xs[..|xs| - 1] + [xs[|xs| - 1]];
    }
  }

  function ProjectsBase(env: Env, all: bool): Request {
    Request(AllProjects, PageSize, 1, None, Recency(env, all), true)
  }

  /**
   * A page loop behind a gate: nothing more when the gate said no (the
   * cancellation error), otherwise every page of base, a failure reported
   * through wrap.
   */
  function Listing<T>(env: Env, pre: Step<bool>, f: Request -> Reply<T>, base: Request,
                      wrap: HttpFailure -> Error): Step<Result<seq<T>, Error>>
    requires Ends(f, env.remote.pageLimit)
  {
    if !pre.value then Step(Err(Cancelled), pre.events, pre.slot)
    else
      var pages := Paginate(f, base, 1, env.remote.pageLimit);
      var value := match pages.result
        case Err(e) => Err(wrap(e))
        case Ok(xs) => Ok(xs);
      Step(value, pre.events + Requests(base, 1, pages.count), pre.slot)
  }

  /** What a listing made of a gate and a page loop promises about its events. */
  lemma ListingEnds<T>(env: Env, pre: Step<bool>, f: Request -> Reply<T>, base: Request, wrap: HttpFailure -> Error)
    requires Ends(f, env.remote.pageLimit)
    requires !pre.value ==> EndsDeclined(pre.events)
    requires forall e :: wrap(e) != Cancelled
    ensures var r := Listing(env, pre, f, base, wrap);
      && (r.value == Err(Cancelled) <==> !pre.value)
      && (r.value == Err(Cancelled) ==> EndsDeclined(r.events))
      && (r.value != Err(Cancelled) ==> EndsRequested(r.events))
      && pre.events <= r.events
  {
    if pre.value {
      var pages := Paginate(f, base, 1, env.remote.pageLimit);
      EndsOfRequests(pre.events, base, pages.count);
      if pages.result.Err? {
        assert wrap(pages.result.error) != Cancelled;
      }
    }
  }

  lemma EndsOfRequests(a: seq<Event>, base: Request, n: nat)
    requires n >= 1
    ensures EndsRequested(a + Requests(base, 1, n)) && a <= a + Requests(base, 1, n)
  {
    var b := a + Requests(base, 1, n);
    assert b[|b| - 1] == Requests(base, 1, n)[n - 1];
  }

  /** A listing whose page requests carry no search term adds none to the gate's requests. */
  lemma ListingSendsNoSearch<T>(env: Env, pre: Step<bool>, f: Request -> Reply<T>, base: Request,
                                wrap: HttpFailure -> Error)
    requires Ends(f, env.remote.pageLimit)
    requires SendsNoSearch(pre.events) && base.search == None
    ensures SendsNoSearch(Listing(env, pre, f, base, wrap).events)
  {
    if pre.value {
      var pages := Paginate(f, base, 1, env.remote.pageLimit);
      SendsNoSearchAppend(pre.events, Requests(base, 1, pages.count));
    }
  }

  function Plain(e: HttpFailure): Error {
    Http(e)
  }

  /** The part of GetProjects after its gate: the page loop, then the client-side filter when a term is given. */
  function ProjectsAfter(env: Env, pre: Step<bool>, search: string, all: bool): Step<Result<seq<Project>, Error>> {
    var l := Listing(env, pre, env.remote.projects, ProjectsBase(env, all), Plain);
    if search != "" && l.value.Ok? then l.(value := Ok(KeepMatching(l.value.value, ProjectPath, search))) else l
  }

  /**
   * GetProjects: the gate (only with all), every page of projects, then the
   * client-side filter when a term is given. The term never reaches the server.
   */
  function GetProjects(env: Env, slot: Option<bool>, search: string, all: bool): (r: Step<Result<seq<Project>, Error>>)
    ensures r.value == Err(Cancelled) ==> EndsDeclined(r.events)
    ensures r.value != Err(Cancelled) ==> EndsRequested(r.events)
    ensures SendsNoSearch(r.events)
    ensures !all ==> !Prompts(r.events)
  {
    var pre := TopAdmit(env, slot, "projects", all, search, "projects");
    assert SendsNoSearch(pre.events);
    ListingEnds(env, pre, env.remote.projects, ProjectsBase(env, all), Plain);
    ListingSendsNoSearch(env, pre, env.remote.projects, ProjectsBase(env, all), Plain);
    ProjectsAfter(env, pre, search, all)
  }

  function GroupsBase(env: Env, all: bool, search: string): Request {
    Request(AllGroups, PageSize, 1, if search != "" then Some(search) else None, Recency(env, all), false)
  }

  function GroupsDescription(search: string): string {
    if search == "" then "groups" else "groups matching '" + search + "'"
  }

  /**
   * The fallback of GetGroups when the server-side search found nothing:
   * everything again without the term (gate included), filtered on the
   * client. A cancellation passes through; any other error is wrapped.
   */
  function Fallback(env: Env, slot: Option<bool>, search: string, all: bool): (r: Step<Result<seq<Group>, Error>>)
    requires search != ""
    ensures r.value == Err(Cancelled) ==> EndsDeclined(r.events)
    ensures r.value != Err(Cancelled) ==> EndsRequested(r.events)
    ensures !all ==> !Prompts(r.events)
    decreases |search|, 0
  {
    var again := GetGroups(env, slot, "", all);
    if again.value.Err? then
      CancellationIsUnwrapped(again.value.error);
      var e := again.value.error;
      Step(Err(if IsCancellation(e) then e else FetchingGroupsForFiltering(e)), again.events, again.slot)
    else
      Step(Ok(KeepMatching(again.value.value, GroupPath, search)), again.events, again.slot)
  }

  /**
   * The part of GetGroups after its gate: the page loop with the term sent
   * to the server, then the fallback when a term was sent and nothing came back.
   */
  function GroupsAfter(env: Env, pre: Step<bool>, search: string, all: bool): Step<Result<seq<Group>, Error>>
    decreases |search|, 1
  {
    var l := Listing(env, pre, env.remote.groups, GroupsBase(env, all, search), Plain);
    if search != "" && l.value == Ok([]) then
      var f := Fallback(env, l.slot, search, all);
      Step(f.value, l.events + f.events, f.slot)
    else
      l
  }

  /** GetGroups: the gate (only with all), then the search with its fallback. */
  function GetGroups(env: Env, slot: Option<bool>, search: string, all: bool): (r: Step<Result<seq<Group>, Error>>)
    ensures r.value == Err(Cancelled) ==> EndsDeclined(r.events)
    ensures r.value != Err(Cancelled) ==> EndsRequested(r.events)
    ensures !all ==> !Prompts(r.events)
    decreases |search|, 2
  {
    var pre := TopAdmit(env, slot, "groups", all, search, GroupsDescription(search));
    var l := Listing(env, pre, env.remote.groups, GroupsBase(env, all, search), Plain);
    ListingEnds(env, pre, env.remote.groups, GroupsBase(env, all, search), Plain);
    var r := GroupsAfter(env, pre, search, all);
    if search != "" && l.value == Ok([]) then
      var f := Fallback(env, l.slot, search, all);
      EndsOfAppend(l.events, f.events);
      if !all then NoPromptsAppend(l.events, f.events); r else r
    else
      r
  }

  /** The search GetGroups starts with: its gate, then every page of groups with the term sent to the server. */
  function FirstGroupsListing(env: Env, slot: Option<bool>, search: string, all: bool): Step<Result<seq<Group>, Error>> {
    var pre := TopAdmit(env, slot, "groups", all, search, GroupsDescription(search));
    Listing(env, pre, env.remote.groups, GroupsBase(env, all, search), Plain)
  }

  /**
   * The fallback is the term-free listing run again, filtered on the client:
   * same events and slot; a cancellation passes through unchanged, any other
   * error is wrapped; the groups kept are exactly the listed ones whose path
   * contains the term, ignoring case.
   */
  lemma FallbackMeaning(env: Env, slot: Option<bool>, search: string, all: bool)
    requires search != ""
    ensures var a := GetGroups(env, slot, "", all);
      var r := Fallback(env, slot, search, all);
      r.events == a.events && r.slot == a.slot
      && (a.value == Err(Cancelled) ==> r.value == Err(Cancelled))
      && (a.value.Err? && a.value.error != Cancelled ==> r.value == Err(FetchingGroupsForFiltering(a.value.error)))
      && (r.value.Ok? <==> a.value.Ok?)
      && (r.value.Ok? ==> forall g :: g in r.value.value <==> g in a.value.value && Matches(g.fullPath, search))
  {
    var a := GetGroups(env, slot, "", all);
    if a.value.Err? {
      CancellationIsUnwrapped(a.value.error);
    } else {
      forall g: Group {
        KeepMatchingMembers(a.value.value, GroupPath, search, g);
      }
    }
  }

  /**
   * GetGroups falls back to the term-free listing exactly when a term was
   * sent and the search came back empty; otherwise its result is the search's.
   */
  lemma GetGroupsFallback(env: Env, slot: Option<bool>, search: string, all: bool)
    ensures var l := FirstGroupsListing(env, slot, search, all);
      var r := GetGroups(env, slot, search, all);
      (search == "" || l.value != Ok([]) ==> r == l)
      && (search != "" && l.value == Ok([]) ==>
            var f := Fallback(env, l.slot, search, all);
            r == Step(f.value, l.events + f.events, f.slot))
  {
  }

  function SubgroupsProbe(env: Env, id: int, all: bool): Request {
    Request(Subgroups(id), 1, 1, None, Recency(env, all), false)
  }

  function SubgroupsBase(env: Env, id: int, all: bool): Request {
    Request(Subgroups(id), PageSize, 1, None, Recency(env, all), false)
  }

  /** getSubgroups: a one-item probe (gated only with all), then every page of direct subgroups. */
  function GetSubgroups(env: Env, slot: Option<bool>, id: int, all: bool): (r: Step<Result<seq<Group>, Error>>)
    ensures r.value == Err(Cancelled) ==> EndsDeclined(r.events)
    ensures r.value != Err(Cancelled) ==> EndsRequested(r.events)
    ensures r.events != [] && r.events[0] == Requested(SubgroupsProbe(env, id, all))
    ensures !all || env.remote.groups(SubgroupsProbe(env, id, all)).Failed? ==> !Prompts(r.events)
    ensures r.value.Ok? ==> forall k :: 0 <= k < |r.value.value| ==>
      env.remote.rank(r.value.value[k].id) < env.remote.rank(id)
  {
    var probe := SubgroupsProbe(env, id, all);
    var pre := Admit(env, slot, [Requested(probe)], CountOf(env.remote.groups(probe)), all,
                     "subgroups for group " + Itoa(id));
    var base := SubgroupsBase(env, id, all);
    var wrap := (e: HttpFailure) => FetchingSubgroups(id, Http(e));
    ListingEnds(env, pre, env.remote.groups, base, wrap);
    SubgroupsRankBelow(env.remote, base, 1);
    Listing(env, pre, env.remote.groups, base, wrap)
  }

  /** Every group a subgroup listing returns ranks below the parent. */
  lemma {:induction false} SubgroupsRankBelow(remote: FiniteRemote, base: Request, page: int)
    requires base.resource.Subgroups?
    ensures var r := Paginate(remote.groups, base, page, remote.pageLimit);
      r.result.Ok? ==> forall k :: 0 <= k < |r.result.value| ==>
        remote.rank(r.result.value[k].id) < remote.rank(base.resource.groupId)
    decreases remote.pageLimit + 1 - page
  {
    var reply := At(remote.groups, base, page);
    if reply.Page? && reply.items != [] {
      SubgroupsRankBelow(remote, base, page + 1);
      var rest := Paginate(remote.groups, base, page + 1, remote.pageLimit);
      if rest.result.Ok? {
        var all := reply.items + rest.result.value;
        forall k | 0 <= k < |all|
          ensures remote.rank(all[k].id) < remote.rank(base.resource.groupId)
        {
          if k < |reply.items| {
            assert all[k] == remote.groups(base.(page := page)).items[k];
          } else {
            assert all[k] == rest.result.value[k - |reply.items|];
          }
        }
      }
    }
  }

  function GroupProjectsProbe(env: Env, id: int, all: bool): Request {
    Request(GroupProjects(id), 1, 1, None, Recency(env, all), false)
  }

  function GroupProjectsBase(env: Env, id: int, all: bool): Request {
    Request(GroupProjects(id), PageSize, 1, None, Recency(env, all), false)
  }

  /** getProjectsForGroup: a one-item probe (gated only with all), then every page of the group's own projects. */
  function GetProjectsForGroup(env: Env, slot: Option<bool>, id: int, all: bool): (r: Step<Result<seq<Project>, Error>>)
    ensures r.value == Err(Cancelled) ==> EndsDeclined(r.events)
    ensures r.value != Err(Cancelled) ==> EndsRequested(r.events)
    ensures r.events != [] && r.events[0] == Requested(GroupProjectsProbe(env, id, all))
    ensures !all || env.remote.projects(GroupProjectsProbe(env, id, all)).Failed? ==> !Prompts(r.events)
  {
    var probe := GroupProjectsProbe(env, id, all);
    var pre := Admit(env, slot, [Requested(probe)], CountOf(env.remote.projects(probe)), all,
                     "projects for group " + Itoa(id));
    var base := GroupProjectsBase(env, id, all);
    var wrap := (e: HttpFailure) => FetchingProjects(id, Http(e));
    ListingEnds(env, pre, env.remote.projects, base, wrap);
    Listing(env, pre, env.remote.projects, base, wrap)
  }
}
