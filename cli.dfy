/**
 * The command-line front end: where the server and the search term come
 * from, which mode runs, and what each mode writes and exits with. Flags,
 * environment variables and the terminal are inputs; the program's output
 * is a `Run`: the lines it writes to standard output, the progress lines it
 * writes to standard error while populating, and its exit code.
 */
module Cli {
  import opened Wrappers
  import opened Text
  import opened Types
  import opened Sorting
  import opened Api
  import opened Fetch
  import opened Hierarchy
  import opened GitLab
  import opened Printer

  // ----- Configuration -----

  /** A positional argument, when present, replaces the --search flag. */
  function SearchTerm(searchFlag: string, args: seq<string>): (r: string)
    ensures args != [] ==> r == args[0]
    ensures args == [] ==> r == searchFlag
  {
    if |args| > 0 then args[0] else searchFlag
  }

  /** A non-empty --host wins over GITLAB_HOST. */
  function ResolveHost(hostFlag: string, envHost: string): (r: string)
    ensures hostFlag != "" ==> r == hostFlag
    ensures hostFlag == "" ==> r == envHost
    ensures r == "" <==> hostFlag == "" && envHost == ""
  {
    if hostFlag == "" then envHost else hostFlag
  }

  const PlainScheme := "http://"
  const SecureScheme := "https://"

  /** The base URL: plain http when --nohttps is set or GLIDS_NOHTTPS is "true", https otherwise. */
  function BaseUrl(host: string, noHttps: bool, envNoHttps: string): (r: string)
    ensures PlainScheme <= r <==> noHttps || envNoHttps == "true"
    ensures SecureScheme <= r <==> !(noHttps || envNoHttps == "true")
    ensures r == PlainScheme + host || r == SecureScheme + host
  {
    var r := if noHttps || envNoHttps == "true" then PlainScheme + host else SecureScheme + host;
    assert r[4] == (if noHttps || envNoHttps == "true" then ':' else 's');
    r
  }

  /** The server to talk to, or the exit the program takes before making a client. */
  datatype Setup = Start(baseUrl: string, token: string) | Stop(code: int)

  /** The configuration step: GITLAB_TOKEN and a host are both required. */
  function Configure(hostFlag: string, envHost: string, token: string, noHttps: bool, envNoHttps: string): (r: Setup)
    ensures r.Stop? <==> token == "" || (hostFlag == "" && envHost == "")
    ensures r.Stop? ==> r.code == 1
    ensures r.Start? ==> r.token == token && r.baseUrl == BaseUrl(ResolveHost(hostFlag, envHost), noHttps, envNoHttps)
  {
    var host := ResolveHost(hostFlag, envHost);
    if token == "" || host == "" then Stop(1) else Start(BaseUrl(host, noHttps, envNoHttps), token)
  }

  datatype Mode = HierarchyMode | GroupsMode | ProjectsMode | BothMode

  /** Mode priority: hierarchy, then groups, then projects, and both lists when no flag is set. */
  function SelectMode(hierarchy: bool, groups: bool, projects: bool): (m: Mode)
    ensures m == HierarchyMode <==> hierarchy
    ensures m == GroupsMode <==> !hierarchy && groups
    ensures m == ProjectsMode <==> !hierarchy && !groups && projects
    ensures m == BothMode <==> !hierarchy && !groups && !projects
  {
    if hierarchy then HierarchyMode
    else if groups then GroupsMode
    else if projects then ProjectsMode
    else BothMode
  }

  /** The status animation's text, chosen with the same priority as the mode. */
  function StatusMessage(m: Mode): string {
    match m
    case HierarchyMode => "Fetching initial groups for hierarchy..."
    case GroupsMode => "Fetching groups..."
    case ProjectsMode => "Fetching projects..."
    case BothMode => "Fetching groups and projects..."
  }

  // ----- Progress lines in hierarchy mode -----

  /** The terminal width used for truncation: the reported width on a terminal, 80 otherwise. */
  function TerminalWidth(isTerminal: bool, size: Option<int>): int {
    if isTerminal && size.Some? then size.value else 80
  }

  /**
   * The truncation of the progress line as the code writes it, with None
   * where the slice expression panics.
   */
  function TruncateAsWritten(line: string, maxLen: int): (r: Option<string>)
    ensures r.None? <==> maxLen < 0
  {
    if |line| > maxLen then
      if maxLen > 3 then Some(line[..maxLen - 3] + "...")
      else if 0 <= maxLen then Some(line[..maxLen])
      else None
    else Some(line)
  }

  /** A terminal that reports width 0 gives maxLen = -1, and every progress line then panics. */
  lemma ZeroWidthPanics(line: string)
    ensures TruncateAsWritten(line, TerminalWidth(true, Some(0)) - 1) == None
  {
  }

  /**
   * The truncation as intended: a line that fits is kept; a longer one is cut
   * to fit, ending in "..." when there is room for more than three
   * characters; a negative limit leaves nothing.
   */
  function Truncate(line: string, maxLen: int): (r: string)
    ensures |line| <= maxLen ==> r == line
    ensures |line| > maxLen ==> |r| <= (if maxLen > 0 then maxLen else 0)
    ensures |line| > maxLen > 3 ==> |r| == maxLen && r[..|r| - 3] <= line && r[|r| - 3..] == "..."
    ensures |line| > maxLen && maxLen <= 3 ==> r <= line
  {
    if |line| <= maxLen then line
    else if maxLen > 3 then line[..maxLen - 3] + "..."
    else if maxLen >= 0 then line[..maxLen]
    else []
  }

  /** Wherever the code as written does not panic, the corrected truncation agrees with it. */
  lemma TruncateAgrees(line: string, maxLen: int)
    requires maxLen >= 0
    ensures TruncateAsWritten(line, maxLen) == Some(Truncate(line, maxLen))
  {
  }

  /** "[i/n] Populating: path..." for the root at 0-based index i of n. */
  function StatusLine(i: int, n: int, path: string): string {
    "[" + Itoa(i + 1) + "/" + Itoa(n) + "] Populating: " + path + "..."
  }

  /** A progress line as it appears: cut to the width less one on a terminal, whole otherwise. */
  function Shown(line: string, isTerminal: bool, width: int): (r: string)
    ensures isTerminal ==> |r| <= |line| && (|line| < width || |r| < (if width > 0 then width else 1))
    ensures !isTerminal ==> r == line
  {
    if isTerminal then Truncate(line, width - 1) else line
  }

  /** The progress lines for the first `count` of the sorted roots. */
  function StatusLines(roots: seq<Group>, count: nat, isTerminal: bool, width: int): (r: seq<string>)
    requires count <= |roots|
    ensures |r| == count
  {
    seq(count, k requires 0 <= k < count => Shown(StatusLine(k, |roots|, roots[k].fullPath), isTerminal, width))
  }

  lemma StatusLinesNext(roots: seq<Group>, i: nat, isTerminal: bool, width: int)
    requires i < |roots|
    ensures StatusLines(roots, i + 1, isTerminal, width)
      == StatusLines(roots, i, isTerminal, width) + [Shown(StatusLine(i, |roots|, roots[i].fullPath), isTerminal, width)]
  {
  }

  // ----- Exit codes and mode outputs -----

  /** What a mode writes and the code the program exits with. */
  datatype Run = Run(stdout: seq<string>, status: seq<string>, exit: int)

  /** A failed top-level listing: exit 0 after a cancellation, exit 1 for any other error. */
  function FailureExit(e: Error): (code: int)
    ensures code == 0 <==> e == Cancelled
    ensures code == 1 <==> e != Cancelled
  {
    CancellationIsUnwrapped(e);
    if Message(e) == CancelledMessage then 0 else 1
  }

  /** The run after a failed listing; only a cancellation writes to standard output. */
  function Failed(e: Error, cancelNote: string): Run {
    Run(if e == Cancelled then ["", cancelNote] else [], [], FailureExit(e))
  }

  function GroupPathKey(g: Group): string {
    Lower(g.fullPath)
  }

  function ProjectPathKey(p: Project): string {
    Lower(p.pathWithNamespace)
  }

  function NoneFound(what: string, search: string): seq<string> {
    ["", "No " + what + " found matching search term: " + search]
  }

  /** Groups mode once the listing is back. */
  function GroupsReport(groups: Result<seq<Group>, Error>, search: string): Run {
    match groups
    case Err(e) => Failed(e, "Operation cancelled.")
    case Ok(gs) => Run(if gs == [] then NoneFound("groups", search) else GroupList(SortBy(gs, GroupPathKey), 0), [], 0)
  }

  /** Projects mode once the listing is back. */
  function ProjectsReport(projects: Result<seq<Project>, Error>, search: string): Run {
    match projects
    case Err(e) => Failed(e, "Operation cancelled.")
    case Ok(ps) => Run(if ps == [] then NoneFound("projects", search) else ProjectList(SortBy(ps, ProjectPathKey), 0), [], 0)
  }

  function GroupsRun(env: Env, slot: Option<bool>, search: string, all: bool): Step<Run> {
    var g := Fetch.GetGroups(env, slot, search, all);
    Step(GroupsReport(g.value, search), g.events, g.slot)
  }

  function ProjectsRun(env: Env, slot: Option<bool>, search: string, all: bool): Step<Run> {
    var p := Fetch.GetProjects(env, slot, search, all);
    Step(ProjectsReport(p.value, search), p.events, p.slot)
  }

  /** A listed mode prints one row per item, in path order, and exits 0. */
  lemma GroupsReportRows(gs: seq<Group>, search: string)
    requires gs != []
    ensures var run := GroupsReport(Ok(gs), search);
      run.exit == 0 && |run.stdout| == |gs|
      && exists sorted :: multiset(sorted) == multiset(gs) && SortedBy(sorted, GroupPathKey)
                          && run.stdout == GroupList(sorted, 0)
  {
    SortBySorted(gs, GroupPathKey);
    var sorted := SortBy(gs, GroupPathKey);
    assert |sorted| == |gs| by {
      assert |multiset(sorted)| == |multiset(gs)|;
    }
  }

  lemma ProjectsReportRows(ps: seq<Project>, search: string)
    requires ps != []
    ensures var run := ProjectsReport(Ok(ps), search);
      run.exit == 0 && |run.stdout| == |ps|
      && exists sorted :: multiset(sorted) == multiset(ps) && SortedBy(sorted, ProjectPathKey)
                          && run.stdout == ProjectList(sorted, 0)
  {
    SortBySorted(ps, ProjectPathKey);
    var sorted := SortBy(ps, ProjectPathKey);
    assert |sorted| == |ps| by {
      assert |multiset(sorted)| == |multiset(ps)|;
    }
  }

  /** Groups and projects modes exit 1 exactly when their listing fails with an error other than a cancellation. */
  lemma ListModesExit(env: Env, slot: Option<bool>, search: string, all: bool)
    ensures var r := Fetch.GetGroups(env, slot, search, all).value;
      GroupsRun(env, slot, search, all).value.exit == (if r.Err? && r.error != Cancelled then 1 else 0)
    ensures var r := Fetch.GetProjects(env, slot, search, all).value;
      ProjectsRun(env, slot, search, all).value.exit == (if r.Err? && r.error != Cancelled then 1 else 0)
  {
  }

  // ----- Both mode: column widths -----

  /** Which list attained the widest name first ("" in the code when both lists are empty). */
  datatype Tag = Untagged | GroupsTag | ProjectsTag

  /** The widest display name (path plus colon) of a list, 0 for an empty list. */
  function Widest(paths: seq<string>): nat {
    if paths == [] then 0
    else
      var w := Widest(paths[..|paths| - 1]);
      var n := |paths[|paths| - 1]| + 1;
      if n > w then n else w
  }

  /** Widest is the maximum: an upper bound that some name attains. */
  lemma {:induction false} WidestIsMaximum(paths: seq<string>)
    ensures forall k :: 0 <= k < |paths| ==> |paths[k]| + 1 <= Widest(paths)
    ensures paths != [] ==> exists k :: 0 <= k < |paths| && |paths[k]| + 1 == Widest(paths)
    ensures paths == [] <==> Widest(paths) == 0
    decreases |paths|
  {
    if paths != [] {
      var init := paths[..|paths| - 1];
      WidestIsMaximum(init);
      assert forall k :: 0 <= k < |init| ==> init[k] == paths[k];
      if Widest(paths) != |paths[|paths| - 1]| + 1 {
        var k :| 0 <= k < |init| && |init[k]| + 1 == Widest(init);
        assert |paths[k]| + 1 == Widest(paths);
      }
    }
  }

  function GroupPaths(gs: seq<Group>): (r: seq<string>)
    ensures |r| == |gs| && forall k :: 0 <= k < |gs| ==> r[k] == gs[k].fullPath
  {
    seq(|gs|, k requires 0 <= k < |gs| => gs[k].fullPath)
  }

  function ProjectPaths(ps: seq<Project>): (r: seq<string>)
    ensures |r| == |ps| && forall k :: 0 <= k < |ps| ==> r[k] == ps[k].pathWithNamespace
  {
    seq(|ps|, k requires 0 <= k < |ps| => ps[k].pathWithNamespace)
  }

  /** The width and the tag the scan over groups then projects settles on. */
  function ColumnChoice(groups: seq<Group>, projects: seq<Project>): (nat, Tag) {
    var wg := Widest(GroupPaths(groups));
    var wp := Widest(ProjectPaths(projects));
    if wp > wg then (wp, ProjectsTag)
    else (wg, if groups == [] then Untagged else GroupsTag)
  }

  /**
   * The width is the widest name overall. The tag names groups when a group
   * is that wide (groups win ties), projects only when a project is strictly
   * wider than every group, and nothing when both lists are empty.
   */
  lemma ColumnChoiceMeaning(groups: seq<Group>, projects: seq<Project>)
    ensures var (width, tag) := ColumnChoice(groups, projects);
      (forall k :: 0 <= k < |groups| ==> |groups[k].fullPath| + 1 <= width)
      && (forall k :: 0 <= k < |projects| ==> |projects[k].pathWithNamespace| + 1 <= width)
      && (width == 0 <==> groups == [] && projects == [])
      && (tag == Untagged <==> groups == [] && projects == [])
      && (tag == GroupsTag <==> exists k :: 0 <= k < |groups| && |groups[k].fullPath| + 1 == width)
      && (tag == ProjectsTag <==>
            (forall k :: 0 <= k < |groups| ==> |groups[k].fullPath| + 1 < width)
            && (exists k :: 0 <= k < |projects| && |projects[k].pathWithNamespace| + 1 == width))
  {
    var gp, pp := GroupPaths(groups), ProjectPaths(projects);
    WidestIsMaximum(gp);
    WidestIsMaximum(pp);
    if groups != [] {
      var k :| 0 <= k < |gp| && |gp[k]| + 1 == Widest(gp);
      assert |groups[k].fullPath| + 1 == Widest(gp);
    }
    if projects != [] {
      var k :| 0 <= k < |pp| && |pp[k]| + 1 == Widest(pp);
      assert |projects[k].pathWithNamespace| + 1 == Widest(pp);
    }
  }

  /** Widest over one more path. */
  lemma WidestNext(paths: seq<string>, i: nat)
    requires i < |paths|
    ensures Widest(paths[..i + 1]) == if |paths[i]| + 1 > Widest(paths[..i]) then |paths[i]| + 1 else Widest(paths[..i])
  {
    assert paths[..i + 1][..i] == paths[..i];
  }

  /** The scan of runBothMode: a strict `>` over the groups, then over the projects. */
  method ColumnWidths(groups: seq<Group>, projects: seq<Project>) returns (width: nat, tag: Tag)
    ensures (width, tag) == ColumnChoice(groups, projects)
  {
    ghost var gp, pp := GroupPaths(groups), ProjectPaths(projects);
    width, tag := 0, Untagged;
    for i := 0 to |groups|
      invariant width == Widest(gp[..i])
      invariant tag == if i == 0 then Untagged else GroupsTag
    {
      WidestNext(gp, i);
      var length := |groups[i].fullPath| + 1;
      if length > width {
        width, tag := length, GroupsTag;
      }
    }
    assert gp[..|groups|] == gp;
    ghost var wg := width;
    for j := 0 to |projects|
      invariant width == (if Widest(pp[..j]) > wg then Widest(pp[..j]) else wg)
      invariant tag == if Widest(pp[..j]) > wg then ProjectsTag else if groups == [] then Untagged else GroupsTag
    {
      WidestNext(pp, j);
      var length := |projects[j].pathWithNamespace| + 1;
      if length > width {
        width, tag := length, ProjectsTag;
      }
    }
    assert pp[..|projects|] == pp;
  }

  /** The name widths of the two lists: the tagged list gets the width, the other two more. */
  function ListWidths(width: nat, tag: Tag): (r: (int, int))
    ensures tag == GroupsTag ==> r == (width, width + 2)
    ensures tag == ProjectsTag ==> r == (width + 2, width)
    ensures tag == Untagged ==> r == (width + 2, width + 2)
  {
    (if tag != GroupsTag then width + 2 else width, if tag != ProjectsTag then width + 2 else width)
  }

  /** Both mode once both listings are back. */
  function BothReport(gs: seq<Group>, ps: seq<Project>, search: string): Run {
    if gs == [] && ps == [] then
      Run(["", "No groups or projects found matching search term: " + search], [], 0)
    else
      var (width, tag) := ColumnChoice(gs, ps);
      var (gw, pw) := ListWidths(width, tag);
      var groupPart := if gs != [] then ["", "Groups:"] + GroupList(SortBy(gs, GroupPathKey), gw) else NoneFound("groups", search);
      var projectPart := if ps != [] then ["", "Projects:"] + ProjectList(SortBy(ps, ProjectPathKey), pw) else NoneFound("projects", search);
      Run(groupPart + projectPart, [], 0)
  }

  /** runBothMode: groups first; projects only when the groups were listed. */
  function BothRun(env: Env, slot: Option<bool>, search: string, all: bool): Step<Run> {
    BothAfterGroups(env, Fetch.GetGroups(env, slot, search, all), search, all)
  }

  /** Both mode once the group listing g is back. */
  function BothAfterGroups(env: Env, g: Step<Result<seq<Group>, Error>>, search: string, all: bool): Step<Run> {
    if g.value.Err? then
      Step(Failed(g.value.error, "Operation cancelled while fetching groups."), g.events, g.slot)
    else
      BothFinish(g.value.value, Fetch.GetProjects(env, g.slot, search, all), g.events, search)
  }

  /** Both mode once the project listing p is back after the groups gs. */
  function BothFinish(gs: seq<Group>, p: Step<Result<seq<Project>, Error>>, before: seq<Event>, search: string): Step<Run> {
    if p.value.Err? then
      Step(Failed(p.value.error, "Operation cancelled while fetching projects."), before + p.events, p.slot)
    else
      Step(BothReport(gs, p.value.value, search), before + p.events, p.slot)
  }

  /** Sorting keeps exactly the same items. */
  lemma SortByMembers<T>(s: seq<T>, key: T -> string)
    ensures forall x :: x in SortBy(s, key) <==> x in s
  {
    SortBySorted(s, key);
    forall x ensures x in SortBy(s, key) <==> x in s {
      assert x in SortBy(s, key) <==> x in multiset(SortBy(s, key));
      assert x in s <==> x in multiset(s);
    }
  }

  /** Rows whose names all fit in w characters have their tab at index w. */
  lemma GroupRowsAligned(gs: seq<Group>, w: int)
    requires forall g :: g in gs ==> |g.fullPath| + 1 <= w
    ensures var rows := GroupList(gs, w);
      forall i :: 0 <= i < |rows| ==> w < |rows[i]| && rows[i][w] == '\t'
  {
    var rows := GroupList(gs, w);
    forall i | 0 <= i < |rows|
      ensures w < |rows[i]| && rows[i][w] == '\t'
    {
      assert gs[i] in gs;
      ListLineLayout(gs[i].fullPath, gs[i].id, w);
    }
  }

  lemma ProjectRowsAligned(ps: seq<Project>, w: int)
    requires forall p :: p in ps ==> |p.pathWithNamespace| + 1 <= w
    ensures var rows := ProjectList(ps, w);
      forall i :: 0 <= i < |rows| ==> w < |rows[i]| && rows[i][w] == '\t'
  {
    var rows := ProjectList(ps, w);
    forall i | 0 <= i < |rows|
      ensures w < |rows[i]| && rows[i][w] == '\t'
    {
      assert ps[i] in ps;
      ListLineLayout(ps[i].pathWithNamespace, ps[i].id, w);
    }
  }

  /**
   * In both mode every name fits its column: each group row has its tab at
   * the group width and each project row at the project width, and one list
   * is drawn exactly two wider than the other.
   */
  lemma BothColumnsAligned(gs: seq<Group>, ps: seq<Project>)
    requires gs != [] || ps != []
    ensures var (width, tag) := ColumnChoice(gs, ps);
      var (gw, pw) := ListWidths(width, tag);
      var groupRows := GroupList(SortBy(gs, GroupPathKey), gw);
      var projectRows := ProjectList(SortBy(ps, ProjectPathKey), pw);
      && (forall i :: 0 <= i < |groupRows| ==> gw < |groupRows[i]| && groupRows[i][gw] == '\t')
      && (forall i :: 0 <= i < |projectRows| ==> pw < |projectRows[i]| && projectRows[i][pw] == '\t')
      && (gw == pw + 2 || pw == gw + 2)
  {
    var (width, tag) := ColumnChoice(gs, ps);
    var (gw, pw) := ListWidths(width, tag);
    ColumnChoiceMeaning(gs, ps);
    SortByMembers(gs, GroupPathKey);
    SortByMembers(ps, ProjectPathKey);
    forall g | g in SortBy(gs, GroupPathKey) ensures |g.fullPath| + 1 <= gw {
      var k :| 0 <= k < |gs| && gs[k] == g;
    }
    forall p | p in SortBy(ps, ProjectPathKey) ensures |p.pathWithNamespace| + 1 <= pw {
      var k :| 0 <= k < |ps| && ps[k] == p;
    }
    GroupRowsAligned(SortBy(gs, GroupPathKey), gw);
    ProjectRowsAligned(SortBy(ps, ProjectPathKey), pw);
  }

  // ----- Hierarchy mode -----

  /** The populated roots in order, and whether a cancellation stopped the loop. */
  datatype Outcome = Outcome(populated: seq<Group>, cancelled: bool)

  /**
   * The population loop over the sorted roots: each root is populated; a
   * cancellation ends the loop without keeping that root; any other error
   * keeps the partly populated root and goes on.
   */
  function Roots(l: Listings, slot: Option<bool>, roots: seq<Group>): Step<Outcome>
    requires Ranked(l)
    decreases |roots|
  {
    if roots == [] then Step(Outcome([], false), [], slot)
    else
      var c := Populate(l, slot, roots[0]);
      if c.value.error.Some? && IsCancellation(c.value.error.value) then
        Step(Outcome([], true), c.events, c.slot)
      else
        var rest := Roots(l, c.slot, roots[1..]);
        Step(Outcome([c.value.group] + rest.value.populated, rest.value.cancelled), c.events + rest.events, rest.slot)
  }

  /**
   * The loop keeps every root up to the first one whose population is
   * cancelled, each populated as the tree below it dictates, and stops
   * there; with no cancellation it keeps them all.
   */
  lemma {:induction false} RootsShape(l: Listings, slot: Option<bool>, roots: seq<Group>)
    requires Ranked(l) && SlotFree(l)
    ensures var o := Roots(l, slot, roots).value;
      |o.populated| <= |roots|
      && (forall k :: 0 <= k < |o.populated| ==>
            o.populated[k] == Expected(l, roots[k]).group && SameIdentity(o.populated[k], roots[k])
            && !CancelledResult(Expected(l, roots[k])))
      && (o.cancelled ==> |o.populated| < |roots| && CancelledResult(Expected(l, roots[|o.populated|])))
      && (!o.cancelled ==> |o.populated| == |roots|)
    decreases |roots|
  {
    if roots != [] {
      var c := Populate(l, slot, roots[0]);
      PopulateIsExpected(l, slot, roots[0]);
      ExpectedKeepsIdentity(l, roots[0]);
      if c.value.error.Some? {
        CancellationIsUnwrapped(c.value.error.value);
      }
      if !(c.value.error.Some? && IsCancellation(c.value.error.value)) {
        RootsShape(l, c.slot, roots[1..]);
      }
    }
  }

  /**
   * The loop's invariant: the roots populated so far, followed by what Roots
   * makes of the rest from the current slot, give the whole loop's outcome,
   * events and final slot.
   */
  ghost predicate RootsSoFar(l: Listings, roots: seq<Group>, i: nat, populated: seq<Group>, slot: Option<bool>,
                             trace: seq<Event>, whole: Step<Outcome>, trace0: seq<Event>)
    requires Ranked(l) && i <= |roots|
  {
    var rest := Roots(l, slot, roots[i..]);
    whole.value == Outcome(populated + rest.value.populated, rest.value.cancelled)
    && trace0 + whole.events == trace + rest.events && rest.slot == whole.slot
  }

  /** A root that is not cancelled is kept and the loop moves on. */
  lemma RootsAdvance(l: Listings, roots: seq<Group>, i: nat, populated: seq<Group>, slot: Option<bool>,
                     trace: seq<Event>, whole: Step<Outcome>, trace0: seq<Event>, c: Step<Populated>)
    requires Ranked(l) && i < |roots|
    requires RootsSoFar(l, roots, i, populated, slot, trace, whole, trace0)
    requires c == Populate(l, slot, roots[i])
    requires !(c.value.error.Some? && IsCancellation(c.value.error.value))
    ensures RootsSoFar(l, roots, i + 1, populated + [c.value.group], c.slot, trace + c.events, whole, trace0)
  {
    assert roots[i..][0] == roots[i] && roots[i..][1..] == roots[i + 1..];
    var rest := Roots(l, c.slot, roots[i + 1..]);
    assert Roots(l, slot, roots[i..]) == Step(Outcome([c.value.group] + rest.value.populated, rest.value.cancelled), c.events + rest.events, rest.slot);
    assert populated + ([c.value.group] + rest.value.populated) == (populated + [c.value.group]) + rest.value.populated;
    assert trace + (c.events + rest.events) == (trace + c.events) + rest.events;
  }

  /** A cancelled root ends the loop with what was populated before it. */
  lemma RootsCancel(l: Listings, roots: seq<Group>, i: nat, populated: seq<Group>, slot: Option<bool>,
                    trace: seq<Event>, whole: Step<Outcome>, trace0: seq<Event>, c: Step<Populated>)
    requires Ranked(l) && i < |roots|
    requires RootsSoFar(l, roots, i, populated, slot, trace, whole, trace0)
    requires c == Populate(l, slot, roots[i])
    requires c.value.error.Some? && IsCancellation(c.value.error.value)
    ensures whole.value == Outcome(populated, true) && trace0 + whole.events == trace + c.events && whole.slot == c.slot
  {
    assert roots[i..][0] == roots[i];
    assert populated + [] == populated;
  }

  /** With every root done, the loop's result is what was populated. */
  lemma RootsDone(l: Listings, roots: seq<Group>, populated: seq<Group>, slot: Option<bool>,
                  trace: seq<Event>, whole: Step<Outcome>, trace0: seq<Event>)
    requires Ranked(l)
    requires RootsSoFar(l, roots, |roots|, populated, slot, trace, whole, trace0)
    ensures whole.value == Outcome(populated, false) && trace0 + whole.events == trace && whole.slot == slot
  {
    assert roots[|roots|..] == [];
    assert populated + [] == populated;
    assert trace + [] == trace;
  }

  const Populating := "Populating hierarchy for found groups..."
  const CancelNote := ["", "Operation cancelled during hierarchy population."]
  const NoGroupsNote := ["", "No groups found or populated."]

  /** The trees of the kept roots, one display.PrintHierarchy after another. */
  function Trees(populated: seq<Group>): seq<string> {
    if populated == [] then [] else HierarchyLines(populated[0]) + Trees(populated[1..])
  }

  /** Writing the trees of two runs of roots writes the first run's trees, then the second's. */
  lemma {:induction false} TreesAppend(a: seq<Group>, b: seq<Group>)
    ensures Trees(a + b) == Trees(a) + Trees(b)
    decreases |a|
  {
    if a == [] {
      assert a + b == b;
    } else {
      assert (a + b)[0] == a[0] && (a + b)[1..] == a[1..] + b;
      TreesAppend(a[1..], b);
    }
  }

  /** The "populated" part of the output: each kept root's tree; the no-groups note only when none was kept and nothing was cancelled. */
  function HierarchyReport(populated: seq<Group>, cancelled: bool): seq<string> {
    if populated == [] && !cancelled then NoGroupsNote else Trees(populated)
  }

  /** runHierarchyMode, with the terminal as input. */
  function HierarchyRun(env: Env, slot: Option<bool>, search: string, all: bool, isTerminal: bool, size: Option<int>): Step<Run> {
    HierarchyAfterGroups(env, Fetch.GetGroups(env, slot, search, all), search, all, isTerminal, size)
  }

  /**
   * Hierarchy mode once the listing g of matching groups is back. The status
   * animation is stopped as soon as the listing succeeded, so the roots are
   * populated with nobody reading the pause channel.
   */
  function HierarchyAfterGroups(env: Env, g: Step<Result<seq<Group>, Error>>, search: string, all: bool,
                                isTerminal: bool, size: Option<int>): Step<Run> {
    if g.value.Err? then
      Step(Failed(g.value.error, "Operation cancelled."), g.events, g.slot)
    else
      var q := HierarchyPopulate(ReaderStopped(env), g.value.value, g.slot, search, all, isTerminal, size);
      Step(q.value, g.events + q.events, q.slot)
  }

  /** Hierarchy mode with the matching groups in hand: a note when there are none, else sort, populate and report. */
  function HierarchyPopulate(env: Env, groups: seq<Group>, slot: Option<bool>, search: string, all: bool,
                             isTerminal: bool, size: Option<int>): Step<Run> {
    if groups == [] then
      Step(Run(NoneFound("groups", search), [], 0), [], slot)
    else
      var roots := SortBy(groups, GroupPathKey);
      ListingsOfWellFormed(env, all);
      var p := Roots(ListingsOf(env, all), slot, roots);
      RootsShape(ListingsOf(env, all), slot, roots);
      Step(HierarchyOutput(roots, p.value, isTerminal, TerminalWidth(isTerminal, size)), p.events, p.slot)
  }

  /** What hierarchy mode writes once the loop over the sorted roots has its outcome o. */
  function HierarchyOutput(roots: seq<Group>, o: Outcome, isTerminal: bool, width: int): Run
    requires |o.populated| + (if o.cancelled then 1 else 0) <= |roots|
  {
    Run(HierarchyStdout(o), StatusLines(roots, |o.populated| + (if o.cancelled then 1 else 0), isTerminal, width), 0)
  }

  /** The standard output of hierarchy mode after the first listing: the opening line, the cancellation note if any, the report. */
  function HierarchyStdout(o: Outcome): seq<string> {
    [Populating] + (if o.cancelled then CancelNote else []) + HierarchyReport(o.populated, o.cancelled)
  }

  /**
   * What hierarchy mode writes to standard output: the opening line, the
   * cancellation note when the loop was cancelled, the no-groups note only
   * when no root was kept and nothing was cancelled, then the kept roots'
   * trees in order.
   */
  lemma HierarchyOutputMeaning(o: Outcome)
    ensures HierarchyStdout(o) == [Populating] + (if o.cancelled then CancelNote else [])
              + (if o.populated == [] && !o.cancelled then NoGroupsNote else []) + Trees(o.populated)
  {
    if o.populated == [] && o.cancelled {
      assert Trees(o.populated) == [];
    }
  }

  /** A report that keeps a root ends with the last kept root's tree, not with a note. */
  lemma HierarchyEndsWithLastTree(o: Outcome)
    requires o.populated != []
    ensures var s := HierarchyStdout(o);
      var last := HierarchyLines(o.populated[|o.populated| - 1]);
      |last| <= |s| && s[|s| - |last|..] == last
  {
    var head := [Populating] + (if o.cancelled then CancelNote else []);
    var n := |o.populated| - 1;
    TreesLast(o.populated);
    calc {
      HierarchyStdout(o);
      head + Trees(o.populated);
      head + (Trees(o.populated[..n]) + HierarchyLines(o.populated[n]));
      (head + Trees(o.populated[..n])) + HierarchyLines(o.populated[n]);
    }
    EndsWith(head + Trees(o.populated[..n]), HierarchyLines(o.populated[n]));
  }

  /** The trees of a non-empty list of roots end with the last root's tree. */
  lemma TreesLast(ps: seq<Group>)
    requires ps != []
    ensures Trees(ps) == Trees(ps[..|ps| - 1]) + HierarchyLines(ps[|ps| - 1])
  {
    var n := |ps| - 1;
    calc {
      Trees(ps);
      { assert ps == ps[..n] + [ps[n]]; }
      Trees(ps[..n] + [ps[n]]);
      { TreesAppend(ps[..n], [ps[n]]); }
      Trees(ps[..n]) + Trees([ps[n]]);
      { TreesOne(ps[n]); }
      Trees(ps[..n]) + HierarchyLines(ps[n]);
    }
  }

  lemma TreesOne(g: Group)
    ensures Trees([g]) == HierarchyLines(g)
  {
    assert [g][1..] == [];
  }

  lemma EndsWith<T>(a: seq<T>, b: seq<T>)
    ensures |b| <= |a + b| && (a + b)[|a + b| - |b|..] == b
  {
  }

  /** The no-groups note is all hierarchy mode writes after its opening line exactly when no root was kept and nothing was cancelled. */
  lemma NoGroupsNoteIff(o: Outcome)
    ensures (o.populated == [] && !o.cancelled) <==> HierarchyStdout(o) == [Populating] + NoGroupsNote
  {
    var s := HierarchyStdout(o);
    if o.cancelled {
      assert s == [Populating] + CancelNote + Trees(o.populated);
      assert s[2] == CancelNote[1];
      NotesDiffer();
    } else if o.populated != [] {
      var p0 := o.populated[0];
      assert s == [Populating] + (HierarchyLines(p0) + Trees(o.populated[1..]));
      assert s[2] == HierarchyLines(p0)[1] == Header(p0);
      HeaderNotNote(p0);
    }
  }

  lemma NotesDiffer()
    ensures CancelNote[1] != NoGroupsNote[1]
  {
    assert |CancelNote[1]| != |NoGroupsNote[1]|;
  }

  /** A tree's header line ends with ")", so it is never the no-groups note's text. */
  lemma HeaderNotNote(g: Group)
    ensures Header(g) != NoGroupsNote[1]
  {
    var h := Header(g);
    assert h[|h| - 1] == ')';
  }

  /** Hierarchy mode exits 1 only when the first listing fails with an error other than a cancellation. */
  lemma HierarchyExit(env: Env, slot: Option<bool>, search: string, all: bool, isTerminal: bool, size: Option<int>)
    ensures var r := Fetch.GetGroups(env, slot, search, all).value;
      HierarchyRun(env, slot, search, all, isTerminal, size).value.exit == (if r.Err? && r.error != Cancelled then 1 else 0)
  {
  }

  /** The population loop of runHierarchyMode over roots already in path order. */
  method PopulateRoots(client: Client, roots: seq<Group>, all: bool, isTerminal: bool, width: int)
    returns (populated: seq<Group>, cancelled: bool, status: seq<string>)
    modifies client, client.pauseStatus
    ensures Ranked(ListingsOf(old(client.Env()), all))
    ensures var s := Roots(ListingsOf(old(client.Env()), all), old(client.Slot()), roots);
      populated == s.value.populated && cancelled == s.value.cancelled
      && client.trace == old(client.trace) + s.events && client.Slot() == s.slot
    ensures |populated| + (if cancelled then 1 else 0) <= |roots|
    ensures status == StatusLines(roots, |populated| + (if cancelled then 1 else 0), isTerminal, width)
    ensures client.confirmFn == old(client.confirmFn)
  {
    ghost var env, trace0 := client.Env(), client.trace;
    ghost var l := ListingsOf(env, all);
    ListingsOfWellFormed(env, all);
    ghost var whole := Roots(l, client.Slot(), roots);
    assert roots[0..] == roots && trace0 + whole.events == client.trace + whole.events;
    populated, cancelled, status := PopulateEach(client, roots, all, isTerminal, width, l, whole, trace0);
  }

  /** The loop of PopulateRoots, stated against the outcome `whole` of the entire loop. */
  method PopulateEach(client: Client, roots: seq<Group>, all: bool, isTerminal: bool, width: int,
                      ghost l: Listings, ghost whole: Step<Outcome>, ghost trace0: seq<Event>)
    returns (populated: seq<Group>, cancelled: bool, status: seq<string>)
    requires l == ListingsOf(client.Env(), all) && Ranked(l)
    requires RootsSoFar(l, roots, 0, [], client.Slot(), client.trace, whole, trace0)
    modifies client, client.pauseStatus
    ensures whole.value == Outcome(populated, cancelled) && trace0 + whole.events == client.trace && whole.slot == client.Slot()
    ensures |populated| + (if cancelled then 1 else 0) <= |roots|
    ensures status == StatusLines(roots, |populated| + (if cancelled then 1 else 0), isTerminal, width)
    ensures client.confirmFn == old(client.confirmFn)
  {
    populated, cancelled, status := [], false, [];
    var i := 0;
    while i < |roots|
      invariant 0 <= i <= |roots| && |populated| == i
      invariant client.confirmFn == old(client.confirmFn)
      invariant RootsSoFar(l, roots, i, populated, client.Slot(), client.trace, whole, trace0)
      invariant status == StatusLines(roots, i, isTerminal, width)
      decreases |roots| - i
    {
      StatusLinesNext(roots, i, isTerminal, width);
      status := status + [Shown(StatusLine(i, |roots|, roots[i].fullPath), isTerminal, width)];
      var rootGroup;
      rootGroup, cancelled := PopulateNext(client, roots, i, all, l, populated, whole, trace0);
      if cancelled {
        return;
      }
      populated := populated + [rootGroup];
      i := i + 1;
    }
    RootsDone(l, roots, populated, client.Slot(), client.trace, whole, trace0);
  }

  /** One pass of the population loop: populate roots[i] and tell whether it was cancelled. */
  method PopulateNext(client: Client, roots: seq<Group>, i: nat, all: bool, ghost l: Listings,
                      ghost populated: seq<Group>, ghost whole: Step<Outcome>, ghost trace0: seq<Event>)
    returns (rootGroup: Group, cancelled: bool)
    requires i < |roots| && l == ListingsOf(client.Env(), all) && Ranked(l)
    requires RootsSoFar(l, roots, i, populated, client.Slot(), client.trace, whole, trace0)
    modifies client, client.pauseStatus
    ensures client.confirmFn == old(client.confirmFn)
    ensures cancelled ==> (whole.value == Outcome(populated, true)
      && trace0 + whole.events == client.trace && whole.slot == client.Slot())
    ensures !cancelled ==> RootsSoFar(l, roots, i + 1, populated + [rootGroup], client.Slot(), client.trace, whole, trace0)
  {
    ghost var slot1, trace1 := client.Slot(), client.trace;
    ghost var c := Populate(l, slot1, roots[i]);
    var err;
    rootGroup, err := client.PopulateGroupHierarchy(roots[i], all);
    assert rootGroup == c.value.group && err == c.value.error;
    cancelled := err.Some? && Message(err.value) == CancelledMessage;
    if cancelled {
      RootsCancel(l, roots, i, populated, slot1, trace1, whole, trace0, c);
    } else {
      RootsAdvance(l, roots, i, populated, slot1, trace1, whole, trace0, c);
    }
  }

  /** clearStatus: the status animation stops reading the pause channel; nothing else changes. */
  method StopStatus(client: Client)
    modifies client.Readers()
    ensures client.Env() == ReaderStopped(old(client.Env()))
  {
    if client.pauseStatus != null {
      client.pauseStatus.reader.Stop();
    }
  }

  /** runHierarchyMode. */
  method RunHierarchy(client: Client, search: string, all: bool, isTerminal: bool, size: Option<int>) returns (run: Run)
    modifies client, client.pauseStatus, client.Readers()
    ensures var s := HierarchyRun(old(client.Env()), old(client.Slot()), search, all, isTerminal, size);
      run == s.value && client.trace == old(client.trace) + s.events && client.Slot() == s.slot
  {
    ghost var env, trace0 := client.Env(), client.trace;
    ghost var g := Fetch.GetGroups(env, client.Slot(), search, all);
    var groups := client.GetGroups(search, all);
    assert groups == g.value && client.trace == trace0 + g.events && client.Slot() == g.slot;
    assert HierarchyRun(env, old(client.Slot()), search, all, isTerminal, size) == HierarchyAfterGroups(env, g, search, all, isTerminal, size);
    if groups.Err? {
      run := Failed(groups.error, "Operation cancelled.");
      return;
    }
    StopStatus(client);
    ghost var trace1 := client.trace;
    run := AfterListing(client, groups.value, search, all, isTerminal, size);
    AppendAssoc(trace0, g.events, client.trace[|trace1|..]);
  }

  /** runHierarchyMode once the matching groups came back and the animation stopped: populate and report. */
  method AfterListing(client: Client, groups: seq<Group>, search: string, all: bool, isTerminal: bool, size: Option<int>)
    returns (run: Run)
    modifies client, client.pauseStatus
    ensures var q := HierarchyPopulate(old(client.Env()), groups, old(client.Slot()), search, all, isTerminal, size);
      run == q.value && client.trace == old(client.trace) + q.events && client.Slot() == q.slot
  {
    if groups == [] {
      run := Run(NoneFound("groups", search), [], 0);
      return;
    }
    run := PopulateAndReport(client, groups, all, isTerminal, size);
  }

  /** The second half of runHierarchyMode: sort the matching groups, populate them, report. */
  method PopulateAndReport(client: Client, groups: seq<Group>, all: bool, isTerminal: bool, size: Option<int>) returns (run: Run)
    modifies client, client.pauseStatus
    ensures Ranked(ListingsOf(old(client.Env()), all))
    ensures var o := Roots(ListingsOf(old(client.Env()), all), old(client.Slot()), SortBy(groups, GroupPathKey)).value;
      |o.populated| + (if o.cancelled then 1 else 0) <= |SortBy(groups, GroupPathKey)|
    ensures var roots := SortBy(groups, GroupPathKey);
      var p := Roots(ListingsOf(old(client.Env()), all), old(client.Slot()), roots);
      run == HierarchyOutput(roots, p.value, isTerminal, TerminalWidth(isTerminal, size))
      && client.trace == old(client.trace) + p.events && client.Slot() == p.slot
    ensures client.confirmFn == old(client.confirmFn)
  {
    var roots := SortBy(groups, GroupPathKey);
    var width := TerminalWidth(isTerminal, size);
    var populated, cancelled, status := PopulateRoots(client, roots, all, isTerminal, width);
    run := Run(HierarchyStdout(Outcome(populated, cancelled)), status, 0);
  }

  /** runGroupsMode. */
  method RunGroups(client: Client, search: string, all: bool) returns (run: Run)
    modifies client, client.pauseStatus
    ensures var s := GroupsRun(old(client.Env()), old(client.Slot()), search, all);
      run == s.value && client.trace == old(client.trace) + s.events && client.Slot() == s.slot
  {
    var groups := client.GetGroups(search, all);
    run := GroupsReport(groups, search);
  }

  /** runProjectsMode. */
  method RunProjects(client: Client, search: string, all: bool) returns (run: Run)
    modifies client, client.pauseStatus
    ensures var s := ProjectsRun(old(client.Env()), old(client.Slot()), search, all);
      run == s.value && client.trace == old(client.trace) + s.events && client.Slot() == s.slot
  {
    var projects := client.GetProjects(search, all);
    run := ProjectsReport(projects, search);
  }

  /** runBothMode. */
  method RunBoth(client: Client, search: string, all: bool) returns (run: Run)
    modifies client, client.pauseStatus
    ensures var s := BothRun(old(client.Env()), old(client.Slot()), search, all);
      run == s.value && client.trace == old(client.trace) + s.events && client.Slot() == s.slot
  {
    ghost var env, trace0 := client.Env(), client.trace;
    ghost var g := Fetch.GetGroups(env, client.Slot(), search, all);
    var groups := client.GetGroups(search, all);
    assert groups == g.value && client.trace == trace0 + g.events && client.Slot() == g.slot;
    assert BothRun(env, old(client.Slot()), search, all) == BothAfterGroups(env, g, search, all);
    if groups.Err? {
      run := Failed(groups.error, "Operation cancelled while fetching groups.");
      return;
    }
    ghost var p := Fetch.GetProjects(env, g.slot, search, all);
    var projects := client.GetProjects(search, all);
    assert projects == p.value && client.trace == trace0 + g.events + p.events && client.Slot() == p.slot;
    AppendAssoc(trace0, g.events, p.events);
    if projects.Err? {
      run := Failed(projects.error, "Operation cancelled while fetching projects.");
      return;
    }
    run := BothLists(groups.value, projects.value, search);
  }

  /** The end of runBothMode: the two lists with their column widths, or a note when both are empty. */
  method BothLists(gs: seq<Group>, ps: seq<Project>, search: string) returns (run: Run)
    ensures run == BothReport(gs, ps, search)
  {
    if gs == [] && ps == [] {
      run := Run(["", "No groups or projects found matching search term: " + search], [], 0);
      return;
    }
    var width, tag := ColumnWidths(gs, ps);
    var (gw, pw) := ListWidths(width, tag);
    var groupPart := if gs != [] then ["", "Groups:"] + GroupList(SortBy(gs, GroupPathKey), gw) else NoneFound("groups", search);
    var projectPart := if ps != [] then ["", "Projects:"] + ProjectList(SortBy(ps, ProjectPathKey), pw) else NoneFound("projects", search);
    run := Run(groupPart + projectPart, [], 0);
  }
}
