/**
 * The GitLab client as the program runs it: an object holding the server
 * connection, the replaceable confirmation function and the optional pause
 * channel, whose methods fetch pages in loops and populate group trees in
 * place. Each method is proved to do exactly what the matching function of
 * Fetch or Hierarchy describes: same result, same events appended to the
 * trace, same pause slot left behind.
 */
module GitLab {
  import opened Wrappers
  import opened Text
  import opened Types
  import opened Sorting
  import opened Api
  import opened Fetch
  import opened Hierarchy

  /**
   * The status animation of the program, the only reader of the pause
   * channel. While it runs it takes every signal as soon as it arrives;
   * once stopped (or never started) nobody reads the channel.
   */
  class StatusReader {
    var running: bool

    constructor (running: bool)
      ensures this.running == running
    {
      this.running := running;
    }

    /** The stop function showStatus returns: the reader goroutine ends. */
    method Stop()
      modifies this
      ensures !running
    {
      running := false;
    }
  }

  /** The buffered pause channel of capacity one the client sends to. */
  class PauseChannel {
    const reader: StatusReader
    var slot: Option<bool>

    constructor (reader: StatusReader)
      ensures this.reader == reader && slot == None
    {
      this.reader := reader;
      slot := None;
    }

    function Kind(): Channel
      reads reader
    {
      if reader.running then Drained else Unread
    }

    /** A select with a default branch: the send happens only when the slot is free. */
    method TrySend(v: bool) returns (sent: bool)
      modifies this
      ensures (sent, slot) == Send(Kind(), old(slot), v)
      ensures sent <==> old(slot).None?
    {
      if slot.None? {
        sent := true;
        if !reader.running {
          slot := Some(v);
        }
      } else {
        sent := false;
      }
    }
  }

  class Client {
    /** The server behind the base URL and token. */
    const remote: FiniteRemote
    /** The last_activity_after value, thirty days before the client was made. */
    const cutoff: string
    var confirmFn: string -> bool
    const pauseStatus: PauseChannel?
    /** Everything the client has done so far: requests, prompts, pause signals. */
    ghost var trace: seq<Event>

    /** NewClient: the default confirmation function and the channel it was given, nothing done yet. */
    constructor (remote: FiniteRemote, cutoff: string, defaultConfirm: string -> bool, pauseCh: PauseChannel?)
      ensures this.remote == remote && this.cutoff == cutoff && confirmFn == defaultConfirm
      ensures pauseStatus == pauseCh && trace == []
    {
      this.remote := remote;
      this.cutoff := cutoff;
      confirmFn := defaultConfirm;
      pauseStatus := pauseCh;
      trace := [];
    }

    /** The client's environment as the specification functions see it. */
    function Env(): Env
      reads this, Readers()
    {
      Fetch.Env(remote, cutoff, confirmFn, if pauseStatus == null then NoChannel else pauseStatus.Kind())
    }

    /** The reader of the pause channel, if there is a channel. */
    function Readers(): set<StatusReader> {
      if pauseStatus == null then {} else {pauseStatus.reader}
    }

    /** The pause slot, empty when there is no channel. */
    function Slot(): Option<bool>
      reads pauseStatus
    {
      if pauseStatus == null then None else pauseStatus.slot
    }

    method SetConfirmationFunction(fn: string -> bool)
      modifies this
      ensures confirmFn == fn && trace == old(trace)
    {
      confirmFn := fn;
    }

    /** get: one request, answered by the server. */
    method Get<T>(f: Request -> Reply<T>, request: Request) returns (reply: Reply<T>)
      modifies this
      ensures reply == f(request) && trace == old(trace) + [Requested(request)]
      ensures confirmFn == old(confirmFn)
    {
      trace := trace + [Requested(request)];
      reply := f(request);
    }

    /** confirmLargeFetch. */
    method ConfirmLargeFetch(desc: string, count: int) returns (ok: bool)
      modifies this, pauseStatus
      ensures var s := Gate(old(Env()), old(Slot()), desc, count);
        ok == s.value && trace == old(trace) + s.events && Slot() == s.slot
      ensures confirmFn == old(confirmFn)
    {
      if count <= LargeFetchThreshold {
        return true;
      }
      var didPause := false;
      if pauseStatus != null {
        didPause := pauseStatus.TrySend(true);
        trace := trace + [Signalled(true, didPause)];
      }
      var prompt := Prompt(desc, count);
      ok := confirmFn(prompt);
      trace := trace + [Prompted(prompt, ok)];
      if ok && didPause && pauseStatus != null {
        var resumed := pauseStatus.TrySend(false);
        trace := trace + [Signalled(false, resumed)];
      }
    }

    /** CheckResourceCount: the X-Total of a one-item page. */
    method CheckResourceCount(kind: string, all: bool, search: string) returns (r: Result<int, Error>)
      modifies this
      ensures var s := Fetch.CheckResourceCount(old(Env()), old(Slot()), kind, all, search);
        r == s.value && trace == old(trace) + s.events
      ensures confirmFn == old(confirmFn)
    {
      var resource;
      var searchParam: Option<string> := None;
      if kind == "groups" {
        resource := AllGroups;
        if search != "" {
          searchParam := Some(search);
        }
      } else if kind == "projects" {
        resource := AllProjects;
      } else {
        return Err(UnknownResourceType(kind));
      }
      var activeAfter := if all then None else Some(cutoff);
      var request := Request(resource, 1, 1, searchParam, activeAfter, false);
      if kind == "groups" {
        var reply := Get(remote.groups, request);
        r := CountValue(reply);
      } else {
        var reply := Get(remote.projects, request);
        r := CountValue(reply);
      }
    }

    /**
     * The page loop every listing runs: page 1, 2, ... until a request
     * fails or a page comes back empty.
     */
    method FetchAllPages<T>(f: Request -> Reply<T>, base: Request) returns (r: Result<seq<T>, HttpFailure>)
      requires Ends(f, remote.pageLimit)
      modifies this
      ensures var p := Paginate(f, base, 1, remote.pageLimit);
        r == p.result && trace == old(trace) + Requests(base, 1, p.count)
      ensures confirmFn == old(confirmFn)
    {
      var limit := remote.pageLimit;
      var page := 1;
      var gathered: seq<T> := [];
      assert Extend(gathered, 0, Paginate(f, base, 1, limit)) == Paginate(f, base, 1, limit) by {
        var p := Paginate(f, base, 1, limit);
        if p.result.Ok? {
          assert gathered + p.result.value == p.result.value;
        }
      }
      while true
        invariant 1 <= page <= limit + 1
        invariant Paginate(f, base, 1, limit) == Extend(gathered, page - 1, Paginate(f, base, page, limit))
        invariant trace == old(trace) + Requests(base, 1, page - 1)
        invariant confirmFn == old(confirmFn)
        decreases limit + 1 - page
      {
        var reply := Get(f, base.(page := page));
        RequestsNext(base, page - 1);
        if reply.Failed? {
          return Err(reply.failure);
        }
        if reply.items == [] {
          assert gathered + [] == gathered;
          return Ok(gathered);
        }
        assert page <= limit by {
          assert f(base.(page := page)).Page? && f(base.(page := page)).items != [];
        }
        ExtendNext(f, base, page, limit, gathered);
        gathered := gathered + reply.items;
        page := page + 1;
      }
    }

    /**
     * The check GetProjects and GetGroups run first: only when all items are
     * wanted, the count is probed and, when the probe succeeds, the user may
     * be asked; a failed probe lets the listing go ahead.
     */
    method CountGate(kind: string, all: bool, search: string, desc: string) returns (ok: bool)
      modifies this, pauseStatus
      ensures var s := TopAdmit(old(Env()), old(Slot()), kind, all, search, desc);
        ok == s.value && trace == old(trace) + s.events && Slot() == s.slot
      ensures confirmFn == old(confirmFn)
    {
      ok := true;
      if all {
        var count := CheckResourceCount(kind, all, search);
        if count.Ok? {
          ok := ConfirmLargeFetch(desc, count.value);
        }
      }
    }

    /** GetProjects. */
    method GetProjects(search: string, all: bool) returns (r: Result<seq<Project>, Error>)
      modifies this, pauseStatus
      ensures var s := Fetch.GetProjects(old(Env()), old(Slot()), search, all);
        r == s.value && trace == old(trace) + s.events && Slot() == s.slot
      ensures confirmFn == old(confirmFn)
    {
      ghost var env, trace0 := Env(), trace;
      ghost var pre := TopAdmit(env, Slot(), "projects", all, search, "projects");
      var ok := CountGate("projects", all, search, "projects");
      if !ok {
        return Err(Cancelled);
      }
      ghost var trace1 := trace;
      var pages := FetchAllPages(remote.projects, ProjectsBase(Env(), all));
      AppendAssoc(trace0, pre.events, trace[|trace1|..]);
      if pages.Err? {
        return Err(Http(pages.error));
      }
      if search != "" {
        var filtered := KeepMatchingLoop(pages.value, ProjectPath, search);
        return Ok(filtered);
      }
      return Ok(pages.value);
    }

    /** GetGroups, with its fallback to client-side filtering. */
    method GetGroups(search: string, all: bool) returns (r: Result<seq<Group>, Error>)
      modifies this, pauseStatus
      ensures var s := Fetch.GetGroups(old(Env()), old(Slot()), search, all);
        r == s.value && trace == old(trace) + s.events && Slot() == s.slot
      ensures confirmFn == old(confirmFn)
      decreases |search|, 1
    {
      ghost var env, trace0 := Env(), trace;
      ghost var pre := TopAdmit(env, Slot(), "groups", all, search, GroupsDescription(search));
      var ok := CountGate("groups", all, search, GroupsDescription(search));
      if !ok {
        return Err(Cancelled);
      }
      ghost var trace1 := trace;
      var pages := FetchAllPages(remote.groups, GroupsBase(Env(), all, search));
      AppendAssoc(trace0, pre.events, trace[|trace1|..]);
      if pages.Err? {
        return Err(Http(pages.error));
      }
      if search != "" && pages.value == [] {
        ghost var trace2 := trace;
        r := Fallback(search, all);
        AppendAssoc(trace0, pre.events + trace2[|trace1|..], trace[|trace2|..]);
        return r;
      }
      return Ok(pages.value);
    }

    /** The fallback of GetGroups: everything again without the term, filtered here. */
    method Fallback(search: string, all: bool) returns (r: Result<seq<Group>, Error>)
      requires search != ""
      modifies this, pauseStatus
      ensures var s := Fetch.Fallback(old(Env()), old(Slot()), search, all);
        r == s.value && trace == old(trace) + s.events && Slot() == s.slot
      ensures confirmFn == old(confirmFn)
      decreases |search|, 0
    {
      var everything := GetGroups("", all);
      if everything.Err? {
        if Message(everything.error) == CancelledMessage {
          return everything;
        }
        return Err(FetchingGroupsForFiltering(everything.error));
      }
      var filtered := KeepMatchingLoop(everything.value, GroupPath, search);
      return Ok(filtered);
    }

    /**
     * The start of getSubgroups and getProjectsForGroup: a one-item probe
     * and, when it succeeds and all items are wanted, the confirmation
     * check on its total. A failed probe lets the listing go ahead.
     */
    method ProbeGate<T>(f: Request -> Reply<T>, probe: Request, all: bool, desc: string) returns (ok: bool)
      modifies this, pauseStatus
      ensures var s := Admit(old(Env()), old(Slot()), [Requested(probe)], CountOf(f(probe)), all, desc);
        ok == s.value && trace == old(trace) + s.events && Slot() == s.slot
      ensures confirmFn == old(confirmFn)
    {
      var reply := Get(f, probe);
      ok := true;
      if reply.Page? && all {
        ok := ConfirmLargeFetch(desc, reply.info.total);
      }
    }

    /** getSubgroups. */
    method GetSubgroups(id: int, all: bool) returns (r: Result<seq<Group>, Error>)
      modifies this, pauseStatus
      ensures var s := Fetch.GetSubgroups(old(Env()), old(Slot()), id, all);
        r == s.value && trace == old(trace) + s.events && Slot() == s.slot
      ensures confirmFn == old(confirmFn)
    {
      ghost var env, trace0 := Env(), trace;
      ghost var pre := Admit(env, Slot(), [Requested(SubgroupsProbe(env, id, all))],
                             CountOf(remote.groups(SubgroupsProbe(env, id, all))), all, "subgroups for group " + Itoa(id));
      var ok := ProbeGate(remote.groups, SubgroupsProbe(Env(), id, all), all, "subgroups for group " + Itoa(id));
      if !ok {
        return Err(Cancelled);
      }
      ghost var trace1 := trace;
      var pages := FetchAllPages(remote.groups, SubgroupsBase(Env(), id, all));
      AppendAssoc(trace0, pre.events, trace[|trace1|..]);
      if pages.Err? {
        return Err(FetchingSubgroups(id, Http(pages.error)));
      }
      return Ok(pages.value);
    }

    /** getProjectsForGroup. */
    method GetProjectsForGroup(id: int, all: bool) returns (r: Result<seq<Project>, Error>)
      modifies this, pauseStatus
      ensures var s := Fetch.GetProjectsForGroup(old(Env()), old(Slot()), id, all);
        r == s.value && trace == old(trace) + s.events && Slot() == s.slot
      ensures confirmFn == old(confirmFn)
    {
      ghost var env, trace0 := Env(), trace;
      ghost var pre := Admit(env, Slot(), [Requested(GroupProjectsProbe(env, id, all))],
                             CountOf(remote.projects(GroupProjectsProbe(env, id, all))), all, "projects for group " + Itoa(id));
      var ok := ProbeGate(remote.projects, GroupProjectsProbe(Env(), id, all), all, "projects for group " + Itoa(id));
      if !ok {
        return Err(Cancelled);
      }
      ghost var trace1 := trace;
      var pages := FetchAllPages(remote.projects, GroupProjectsBase(Env(), id, all));
      AppendAssoc(trace0, pre.events, trace[|trace1|..]);
      if pages.Err? {
        return Err(FetchingProjects(id, Http(pages.error)));
      }
      return Ok(pages.value);
    }

    /**
     * PopulateGroupHierarchy: fills in the group's own projects, then its
     * direct subgroups, each populated in turn; returns the group as it is
     * afterwards and the error the call reports.
     */
    method PopulateGroupHierarchy(g: Group, all: bool) returns (group: Group, err: Option<Error>)
      modifies this, pauseStatus
      ensures Ranked(ListingsOf(old(Env()), all))
      ensures var s := Populate(ListingsOf(old(Env()), all), old(Slot()), g);
        group == s.value.group && err == s.value.error && trace == old(trace) + s.events && Slot() == s.slot
      ensures confirmFn == old(confirmFn)
      decreases remote.rank(g.id), 1
    {
      ghost var l, slot0, trace0 := ListingsOf(Env(), all), Slot(), trace;
      ListingsOfWellFormed(Env(), all);
      ghost var whole := Populate(l, slot0, g);
      group := g;
      var firstError: Option<Error> := None;
      var projects := GetProjectsForGroup(g.id, all);
      ghost var ps := l.projects(slot0, g.id);
      assert projects == ps.value && Slot() == ps.slot && trace == trace0 + ps.events;
      if projects.Err? {
        if Message(projects.error) == CancelledMessage {
          assert whole == Step(Populated(g, Some(ps.value.error)), ps.events, ps.slot);
          return group, Some(projects.error);
        }
        if firstError.None? {
          firstError := Some(PopulatingProjects(g.id, projects.error));
        }
      } else {
        group := group.(projects := projects.value);
      }
      ghost var slot1, trace1 := Slot(), trace;
      var subgroups := GetSubgroups(g.id, all);
      ghost var ss := l.subgroups(slot1, g.id);
      AppendAssoc(trace0, ps.events, ss.events);
      assert subgroups == ss.value && Slot() == ss.slot && trace == trace0 + (ps.events + ss.events);
      if subgroups.Err? {
        if Message(subgroups.error) == CancelledMessage {
          assert whole == Step(Populated(group, Some(ss.value.error)), ps.events + ss.events, ss.slot);
          return group, Some(subgroups.error);
        }
        if firstError.None? {
          firstError := Some(PopulatingSubgroups(g.id, subgroups.error));
        }
        assert whole == Step(Populated(group, firstError), ps.events + ss.events, ss.slot);
        return group, firstError;
      }
      var subs := subgroups.value;
      assert Below(l, g.id, subs);
      ghost var trace2 := trace;
      ghost var loop := PopulateLoop(l, ss.slot, group.(subgroups := Zeros(|subs|)), subs, 0, firstError);
      assert whole == Step(loop.value, ps.events + ss.events + loop.events, loop.slot);
      group, err := PopulateSubgroups(group.(subgroups := Zeros(|subs|)), subs, firstError, all);
      AppendAssoc(trace0, ps.events + ss.events, loop.events);
    }

    /**
     * The loop of PopulateGroupHierarchy over the fetched subgroups subs:
     * each copy is populated and written back at its index; a cancellation
     * returns at once; other errors are recorded (the first one wins) and
     * the loop goes on; at the end both child lists are sorted.
     */
    method PopulateSubgroups(g: Group, subs: seq<Group>, first: Option<Error>, all: bool)
      returns (group: Group, err: Option<Error>)
      requires |subs| == |g.subgroups|
      requires Ranked(ListingsOf(Env(), all)) && Below(ListingsOf(Env(), all), g.id, subs)
      modifies this, pauseStatus
      ensures var s := PopulateLoop(ListingsOf(old(Env()), all), old(Slot()), g, subs, 0, first);
        group == s.value.group && err == s.value.error && trace == old(trace) + s.events && Slot() == s.slot
      ensures confirmFn == old(confirmFn)
      decreases remote.rank(g.id), 0
    {
      ghost var l, trace0 := ListingsOf(Env(), all), trace;
      ghost var whole := PopulateLoop(l, Slot(), g, subs, 0, first);
      group := g;
      var firstError := first;
      var i := 0;
      while i < |subs|
        invariant i <= |subs| == |group.subgroups| && group.id == g.id
        invariant confirmFn == old(confirmFn)
        invariant var rest := PopulateLoop(l, Slot(), group, subs, i, firstError);
          rest.value == whole.value && trace0 + whole.events == trace + rest.events && rest.slot == whole.slot
      {
        ghost var slot1, trace1, group1, first1 := Slot(), trace, group, firstError;
        ghost var here := PopulateLoop(l, slot1, group1, subs, i, first1);
        assert here.value == whole.value && here.slot == whole.slot && trace0 + whole.events == trace1 + here.events;
        ghost var step := Populate(l, slot1, subs[i]);
        LoopStep(l, slot1, group, subs, i, firstError, step);
        assert Env() == old(Env());
        var child, childErr := PopulateGroupHierarchy(subs[i], all);
        assert child == step.value.group && childErr == step.value.error;
        assert Slot() == step.slot && trace == trace1 + step.events;
        if childErr.Some? && Message(childErr.value) == CancelledMessage {
          return group, childErr;
        }
        if childErr.Some? && firstError.None? {
          firstError := Some(PopulatingSubgroup(child.name, childErr.value));
        }
        group := group.(subgroups := group.subgroups[i := child]);
        i := i + 1;
        assert firstError == FirstOf(first1, ChildError(step.value));
        assert group == group1.(subgroups := group1.subgroups[i - 1 := step.value.group]);
        ghost var rest := PopulateLoop(l, Slot(), group, subs, i, firstError);
        assert here == Step(rest.value, step.events + rest.events, rest.slot);
        AppendAssoc(trace1, step.events, rest.events);
        assert rest.slot == whole.slot && trace0 + whole.events == trace + rest.events;
      }
      group := group.(subgroups := SortBy(group.subgroups, GroupNameKey), projects := SortBy(group.projects, ProjectNameKey));
      err := firstError;
    }
  }

  /** The loop result when the items before page p are gathered and the rest is p's outcome. */
  function Extend<T>(gathered: seq<T>, before: nat, rest: Pages<T>): Pages<T> {
    Pages(if rest.result.Ok? then Ok(gathered + rest.result.value) else rest.result, rest.count + before)
  }

  lemma AppendAssoc<T>(a: seq<T>, b: seq<T>, c: seq<T>)
    ensures a + b + c == a + (b + c)
  {
  }

  lemma RequestsNext(base: Request, n: nat)
    ensures Requests(base, 1, n) + [Requested(base.(page := n + 1))] == Requests(base, 1, n + 1)
  {
  }

  /** A non-empty page moves into the gathered items. */
  lemma ExtendNext<T>(f: Request -> Reply<T>, base: Request, page: int, limit: nat, gathered: seq<T>)
    requires Ends(f, limit) && page >= 1
    requires At(f, base, page).Page? && At(f, base, page).items != []
    ensures Extend(gathered, page - 1, Paginate(f, base, page, limit)) ==
      Extend(gathered + At(f, base, page).items, page, Paginate(f, base, page + 1, limit))
  {
    var items := At(f, base, page).items;
    var rest := Paginate(f, base, page + 1, limit);
    if rest.result.Ok? {
      assert gathered + (items + rest.result.value) == gathered + items + rest.result.value;
    }
  }

  /** The client-side filter loop: keeps, in order, the items whose path contains the term, ignoring case. */
  method KeepMatchingLoop<T>(xs: seq<T>, path: T -> string, term: string) returns (r: seq<T>)
    ensures r == KeepMatching(xs, path, term)
  {
    var lowerTerm := Lower(term);
    r := [];
    for i := 0 to |xs|
      invariant r == KeepMatching(xs[..i], path, term)
    {
      assert xs[..i + 1][..i] == xs[..i];
      if Contains(Lower(path(xs[i])), lowerTerm) {
        r := r + [xs[i]];
      }
    }
    assert xs[..|xs|] == xs;
  }
}
