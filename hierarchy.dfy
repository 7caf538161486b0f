/**
 * Populating a group tree: for each group its own projects, then its direct
 * subgroups, each populated in turn, with cancellation cutting everything
 * short and other errors recorded (the first one wins) while work goes on.
 */
module Hierarchy {
  import opened Wrappers
  import opened Text
  import opened Types
  import opened Sorting
  import opened Api
  import opened Fetch

  /** A group after population and the error population reports for it. */
  datatype Populated = Populated(group: Group, error: Option<Error>)

  /**
   * The two listings population calls, as functions of the pause slot and
   * the group id, and the server's rank of each group (subgroups rank below
   * their parent).
   */
  datatype Listings = Listings(
    projects: (Option<bool>, int) -> Step<Result<seq<Project>, Error>>,
    subgroups: (Option<bool>, int) -> Step<Result<seq<Group>, Error>>,
    rank: int -> nat)

  /** The client's own listings: getProjectsForGroup and getSubgroups with the given `all` flag. */
  function ListingsOf(env: Env, all: bool): Listings {
    Listings((slot, id) => GetProjectsForGroup(env, slot, id, all),
             (slot, id) => GetSubgroups(env, slot, id, all),
             env.remote.rank)
  }

  /** Every group of subs ranks below id. */
  ghost predicate Below(l: Listings, id: int, subs: seq<Group>) {
    forall k :: 0 <= k < |subs| ==> l.rank(subs[k].id) < l.rank(id)
  }

  /** A subgroup listing only lists groups ranked below the parent: the tree is finite. */
  ghost predicate Ranked(l: Listings) {
    forall slot, id :: l.subgroups(slot, id).value.Ok? ==> Below(l, id, l.subgroups(slot, id).value.value)
  }

  /** What a listing returns does not depend on the pause slot; only the events after it do. */
  ghost predicate SlotFree(l: Listings) {
    && (forall slot, id :: l.projects(slot, id).value == l.projects(None, id).value)
    && (forall slot, id :: l.subgroups(slot, id).value == l.subgroups(None, id).value)
  }

  /** The client's listings are ranked and slot-free. */
  lemma ListingsOfWellFormed(env: Env, all: bool)
    ensures Ranked(ListingsOf(env, all)) && SlotFree(ListingsOf(env, all))
  {
    var l := ListingsOf(env, all);
    forall slot, id ensures l.projects(slot, id).value == l.projects(None, id).value {
      ProjectValueIgnoresSlot(env, slot, id, all);
    }
    forall slot, id ensures l.subgroups(slot, id).value == l.subgroups(None, id).value {
      SubgroupValueIgnoresSlot(env, slot, id, all);
    }
  }

  lemma ProjectValueIgnoresSlot(env: Env, slot: Option<bool>, id: int, all: bool)
    ensures GetProjectsForGroup(env, slot, id, all).value == GetProjectsForGroup(env, None, id, all).value
  {
  }

  lemma SubgroupValueIgnoresSlot(env: Env, slot: Option<bool>, id: int, all: bool)
    ensures GetSubgroups(env, slot, id, all).value == GetSubgroups(env, None, id, all).value
  {
  }

  function GroupNameKey(g: Group): string {
    Lower(g.name)
  }

  function ProjectNameKey(p: Project): string {
    Lower(p.name)
  }

  /** What make([]Group, n) allocates. */
  function Zeros(n: nat): (r: seq<Group>)
    ensures |r| == n && forall k :: 0 <= k < n ==> r[k] == ZeroGroup
  {
    seq(n, _ => ZeroGroup)
  }

  predicate CancelledResult(p: Populated) {
    p.error == Some(Cancelled)
  }

  /**
   * PopulateGroupHierarchy on the group g: the group as it is afterwards,
   * the error it returns, and the events of all the fetches below it.
   */
  function Populate(l: Listings, slot: Option<bool>, g: Group): (r: Step<Populated>)
    requires Ranked(l)
    decreases l.rank(g.id), 1, 0
  {
    var ps := l.projects(slot, g.id);
    if ps.value.Err? && IsCancellation(ps.value.error) then
      Step(Populated(g, Some(ps.value.error)), ps.events, ps.slot)
    else
      var first := if ps.value.Err? then Some(PopulatingProjects(g.id, ps.value.error)) else None;
      var withProjects := if ps.value.Ok? then g.(projects := ps.value.value) else g;
      var ss := l.subgroups(ps.slot, g.id);
      var events := ps.events + ss.events;
      if ss.value.Err? then
        var error :=
          if IsCancellation(ss.value.error) then ss.value.error
          else if first.Some? then first.value
          else PopulatingSubgroups(g.id, ss.value.error);
        Step(Populated(withProjects, Some(error)), events, ss.slot)
      else
        var subs := ss.value.value;
        var loop := PopulateLoop(l, ss.slot, withProjects.(subgroups := Zeros(|subs|)), subs, 0, first);
        Step(loop.value, events + loop.events, loop.slot)
  }

  /**
   * The loop over the fetched subgroups subs from index i: each is
   * populated and written back at its index; a cancellation returns at
   * once; at the end both child lists are sorted by lower-cased name.
   */
  function PopulateLoop(l: Listings, slot: Option<bool>, g: Group, subs: seq<Group>, i: nat,
                        first: Option<Error>): (r: Step<Populated>)
    requires Ranked(l)
    requires i <= |subs| == |g.subgroups|
    requires Below(l, g.id, subs)
    decreases l.rank(g.id), 0, |subs| - i
  {
    if i == |subs| then
      var sorted := g.(subgroups := SortBy(g.subgroups, GroupNameKey), projects := SortBy(g.projects, ProjectNameKey));
      Step(Populated(sorted, first), [], slot)
    else
      var child := Populate(l, slot, subs[i]);
      var c := child.value;
      if c.error.Some? && IsCancellation(c.error.value) then
        Step(Populated(g, c.error), child.events, child.slot)
      else
        var rest := PopulateLoop(l, child.slot, g.(subgroups := g.subgroups[i := c.group]), subs, i + 1,
                                 FirstOf(first, ChildError(c)));
        Step(rest.value, child.events + rest.events, rest.slot)
  }

  function FirstOf(a: Option<Error>, b: Option<Error>): Option<Error> {
    if a.Some? then a else b
  }

  /** The error the parent records for a child, if the child reported one. */
  function ChildError(c: Populated): Option<Error> {
    if c.error.Some? then Some(PopulatingSubgroup(c.group.name, c.error.value)) else None
  }

  /** The recorded error of the first child that reported one. */
  function FirstChildError(cs: seq<Populated>): Option<Error> {
    if cs == [] then None else FirstOf(FirstChildError(cs[..|cs| - 1]), ChildError(cs[|cs| - 1]))
  }

  /** FirstChildError picks the child with the smallest index among those that reported an error. */
  lemma {:induction false} FirstChildErrorAt(cs: seq<Populated>, k: int)
    requires 0 <= k < |cs| && cs[k].error.Some?
    requires forall j :: 0 <= j < k ==> cs[j].error.None?
    ensures FirstChildError(cs) == Some(PopulatingSubgroup(cs[k].group.name, cs[k].error.value))
  {
    if k < |cs| - 1 {
      FirstChildErrorAt(cs[..|cs| - 1], k);
    } else {
      NoChildError(cs[..k]);
    }
  }

  /** Without a child error there is no recorded child error. */
  lemma {:induction false} NoChildError(cs: seq<Populated>)
    requires forall j :: 0 <= j < |cs| ==> cs[j].error.None?
    ensures FirstChildError(cs) == None
  {
    if cs != [] {
      NoChildError(cs[..|cs| - 1]);
    }
  }

  /** The index of the first cancelled child. */
  function CancelIndex(cs: seq<Populated>): (r: Option<nat>)
    ensures r.Some? ==> r.value < |cs| && CancelledResult(cs[r.value])
    ensures r.Some? ==> forall k :: 0 <= k < r.value ==> !CancelledResult(cs[k])
    ensures r.None? ==> forall k :: 0 <= k < |cs| ==> !CancelledResult(cs[k])
  {
    if cs == [] then None
    else if CancelledResult(cs[0]) then Some(0)
    else match CancelIndex(cs[1..])
      case None => None
      case Some(k) => Some(k + 1)
  }

  function Groups(cs: seq<Populated>): (r: seq<Group>)
    ensures |r| == |cs| && forall k :: 0 <= k < |cs| ==> r[k] == cs[k].group
  {
    seq(|cs|, k requires 0 <= k < |cs| => cs[k].group)
  }

  /** Each subgroup populated on its own, in order. */
  function Children(l: Listings, id: int, subs: seq<Group>): (r: seq<Populated>)
    requires Ranked(l) && Below(l, id, subs)
    ensures |r| == |subs|
    decreases l.rank(id), 0, |subs|
  {
    if subs == [] then [] else [Expected(l, subs[0])] + Children(l, id, subs[1..])
  }

  /** The result for child k is the reference outcome for subgroup k. */
  lemma {:induction false} ChildAt(l: Listings, id: int, subs: seq<Group>, k: int)
    requires Ranked(l) && Below(l, id, subs) && 0 <= k < |subs|
    ensures Children(l, id, subs)[k] == Expected(l, subs[k])
  {
    if k > 0 {
      ChildAt(l, id, subs[1..], k - 1);
    }
  }

  /**
   * The outcome once the children's results cs are known: at the first
   * cancelled child, the children before it written back and the rest still
   * zero; otherwise both lists sorted and the first error recorded.
   */
  function Conclude(g: Group, cs: seq<Populated>, projectError: Option<Error>): Populated {
    match CancelIndex(cs)
    case Some(k) => Populated(g.(subgroups := Groups(cs[..k]) + Zeros(|cs| - k)), Some(Cancelled))
    case None =>
      Populated(g.(subgroups := SortBy(Groups(cs), GroupNameKey), projects := SortBy(g.projects, ProjectNameKey)),
                FirstOf(projectError, FirstChildError(cs)))
  }

  /**
   * A reference for population that ignores the order of the work: every
   * child is populated independently, and the outcome is then read off the
   * list of their results.
   */
  function Expected(l: Listings, g: Group): Populated
    requires Ranked(l)
    decreases l.rank(g.id), 1, 0
  {
    var ps := l.projects(None, g.id).value;
    if ps == Err(Cancelled) then Populated(g, Some(Cancelled))
    else
      var projectError := if ps.Err? then Some(PopulatingProjects(g.id, ps.error)) else None;
      var withProjects := if ps.Ok? then g.(projects := ps.value) else g;
      var ss := l.subgroups(None, g.id).value;
      if ss.Err? then
        var error :=
          if ss.error == Cancelled then Cancelled
          else if projectError.Some? then projectError.value
          else PopulatingSubgroups(g.id, ss.error);
        Populated(withProjects, Some(error))
      else
        Conclude(withProjects, Children(l, g.id, ss.value), projectError)
  }

  /** The sequential population computes exactly the reference outcome, whatever the pause slot. */
  lemma {:induction false} PopulateIsExpected(l: Listings, slot: Option<bool>, g: Group)
    requires Ranked(l) && SlotFree(l)
    ensures Populate(l, slot, g).value == Expected(l, g)
    decreases l.rank(g.id)
  {
    var ps := l.projects(slot, g.id);
    if ps.value.Err? {
      CancellationIsUnwrapped(ps.value.error);
    }
    if !(ps.value.Err? && IsCancellation(ps.value.error)) {
      var first := if ps.value.Err? then Some(PopulatingProjects(g.id, ps.value.error)) else None;
      var withProjects := if ps.value.Ok? then g.(projects := ps.value.value) else g;
      var ss := l.subgroups(ps.slot, g.id);
      if ss.value.Err? {
        CancellationIsUnwrapped(ss.value.error);
      } else {
        var subs := ss.value.value;
        var cs := Children(l, g.id, subs);
        forall s: Option<bool>, k | 0 <= k < |subs|
          ensures Populate(l, s, subs[k]).value == cs[k]
        {
          PopulateIsExpected(l, s, subs[k]);
          ChildAt(l, g.id, subs, k);
        }
        var start := withProjects.(subgroups := Zeros(|subs|));
        assert cs[..0] == [] && Groups([]) == [];
        assert start.subgroups == Groups(cs[..0]) + Zeros(|subs| - 0);
        NoChildError([]);
        ConcludeIgnoresSubgroups(withProjects, start.subgroups, cs, first);
        LoopIsExpected(l, ss.slot, start, subs, 0, first, first, cs);
      }
    }
  }

  /**
   * From index i on, the loop reaches the reference outcome, given that the
   * children before i are written back, none of them was cancelled, and the
   * first error so far is recorded.
   */
  lemma {:induction false} LoopIsExpected(l: Listings, slot: Option<bool>, g: Group, subs: seq<Group>, i: nat,
                                         first: Option<Error>, projectError: Option<Error>, cs: seq<Populated>)
    requires Ranked(l)
    requires i <= |subs| == |g.subgroups|
    requires Below(l, g.id, subs)
    requires |cs| == |subs| && forall s: Option<bool>, k :: 0 <= k < |subs| ==> Populate(l, s, subs[k]).value == cs[k]
    requires g.subgroups == Groups(cs[..i]) + Zeros(|subs| - i)
    requires forall k :: 0 <= k < i ==> !CancelledResult(cs[k])
    requires first == FirstOf(projectError, FirstChildError(cs[..i]))
    ensures PopulateLoop(l, slot, g, subs, i, first).value == Conclude(g, cs, projectError)
    decreases |subs| - i
  {
    if i == |subs| {
      ConcludeDone(g, cs, projectError);
    } else if CancelledResult(cs[i]) {
      LoopCancels(l, slot, g, subs, i, first);
      ConcludeCancelled(g, cs, projectError, i);
    } else {
      var g' := g.(subgroups := g.subgroups[i := cs[i].group]);
      var first' := FirstOf(first, ChildError(cs[i]));
      var next := LoopContinues(l, slot, g, subs, i, first, cs[i]);
      NextChild(g.subgroups, cs, i, first, projectError);
      ConcludeIgnoresSubgroups(g, g'.subgroups, cs, projectError);
      assert g'.id == g.id && |g'.subgroups| == |subs|;
      assert forall k :: 0 <= k < i + 1 ==> !CancelledResult(cs[k]);
      LoopIsExpected(l, next, g', subs, i + 1, first', projectError, cs);
    }
  }

  /** One turn of the loop: the child's step, then either the stop at a cancellation or the rest of the loop. */
  lemma LoopStep(l: Listings, slot: Option<bool>, g: Group, subs: seq<Group>, i: nat, first: Option<Error>,
                 child: Step<Populated>)
    requires Ranked(l)
    requires i < |subs| == |g.subgroups|
    requires Below(l, g.id, subs)
    requires child == Populate(l, slot, subs[i])
    ensures var c := child.value;
      c.error.Some? && IsCancellation(c.error.value) ==>
        PopulateLoop(l, slot, g, subs, i, first) == Step(Populated(g, c.error), child.events, child.slot)
    ensures var c := child.value;
      var rest := PopulateLoop(l, child.slot, g.(subgroups := g.subgroups[i := c.group]), subs, i + 1, FirstOf(first, ChildError(c)));
      !(c.error.Some? && IsCancellation(c.error.value)) ==>
        PopulateLoop(l, slot, g, subs, i, first) == Step(rest.value, child.events + rest.events, rest.slot)
  {
  }

  /** A cancelled child ends the loop with the group as written so far. */
  lemma LoopCancels(l: Listings, slot: Option<bool>, g: Group, subs: seq<Group>, i: nat, first: Option<Error>)
    requires Ranked(l)
    requires i < |subs| == |g.subgroups|
    requires Below(l, g.id, subs)
    requires CancelledResult(Populate(l, slot, subs[i]).value)
    ensures PopulateLoop(l, slot, g, subs, i, first).value == Populated(g, Some(Cancelled))
  {
    assert IsCancellation(Cancelled);
  }

  /** Any other child is written back at its index and its error recorded unless one was already. */
  lemma LoopContinues(l: Listings, slot: Option<bool>, g: Group, subs: seq<Group>, i: nat, first: Option<Error>,
                      c: Populated) returns (next: Option<bool>)
    requires Ranked(l)
    requires i < |subs| == |g.subgroups|
    requires Below(l, g.id, subs)
    requires c == Populate(l, slot, subs[i]).value && !CancelledResult(c)
    ensures PopulateLoop(l, slot, g, subs, i, first).value ==
      PopulateLoop(l, next, g.(subgroups := g.subgroups[i := c.group]), subs, i + 1, FirstOf(first, ChildError(c))).value
  {
    next := Populate(l, slot, subs[i]).slot;
    if c.error.Some? {
      CancellationIsUnwrapped(c.error.value);
    }
  }

  /** After the last child, with no cancellation, the outcome is the sorted lists and the first error. */
  lemma ConcludeDone(g: Group, cs: seq<Populated>, projectError: Option<Error>)
    requires g.subgroups == Groups(cs[..|cs|]) + Zeros(0)
    requires forall k :: 0 <= k < |cs| ==> !CancelledResult(cs[k])
    ensures Conclude(g, cs, projectError) ==
      Populated(g.(subgroups := SortBy(g.subgroups, GroupNameKey), projects := SortBy(g.projects, ProjectNameKey)),
                FirstOf(projectError, FirstChildError(cs[..|cs|])))
  {
    assert cs[..|cs|] == cs;
    assert Groups(cs) + Zeros(0) == Groups(cs);
  }

  /** The outcome replaces the subgroups, so the ones the group held before do not matter. */
  lemma ConcludeIgnoresSubgroups(g: Group, subgroups: seq<Group>, cs: seq<Populated>, projectError: Option<Error>)
    ensures Conclude(g.(subgroups := subgroups), cs, projectError) == Conclude(g, cs, projectError)
  {
  }

  /** At the first cancelled child, the group as written so far is the outcome. */
  lemma ConcludeCancelled(g: Group, cs: seq<Populated>, projectError: Option<Error>, i: nat)
    requires i < |cs| && CancelledResult(cs[i])
    requires forall k :: 0 <= k < i ==> !CancelledResult(cs[k])
    requires g.subgroups == Groups(cs[..i]) + Zeros(|cs| - i)
    ensures Conclude(g, cs, projectError) == Populated(g, Some(Cancelled))
  {
    assert CancelIndex(cs) == Some(i);
  }

  /** Writing child i back and recording its error keeps the loop's invariant. */
  lemma NextChild(subgroups: seq<Group>, cs: seq<Populated>, i: nat, first: Option<Error>, projectError: Option<Error>)
    requires i < |cs| && subgroups == Groups(cs[..i]) + Zeros(|cs| - i)
    requires first == FirstOf(projectError, FirstChildError(cs[..i]))
    ensures subgroups[i := cs[i].group] == Groups(cs[..i + 1]) + Zeros(|cs| - (i + 1))
    ensures FirstOf(first, ChildError(cs[i])) == FirstOf(projectError, FirstChildError(cs[..i + 1]))
  {
    assert cs[..i + 1][..i] == cs[..i];
    assert FirstChildError(cs[..i + 1]) == FirstOf(FirstChildError(cs[..i]), ChildError(cs[i]));
  }

  /** Population changes only the children of a group, never its own fields. */
  lemma ExpectedKeepsIdentity(l: Listings, g: Group)
    requires Ranked(l)
    ensures SameIdentity(Expected(l, g).group, g)
  {
  }

  lemma PopulateKeepsIdentity(l: Listings, slot: Option<bool>, g: Group)
    requires Ranked(l) && SlotFree(l)
    ensures SameIdentity(Populate(l, slot, g).value.group, g)
  {
    PopulateIsExpected(l, slot, g);
    ExpectedKeepsIdentity(l, g);
  }

  /**
   * Without a cancelled child, the subgroups are exactly the children's
   * results and the projects exactly the group's, each list ordered by
   * lower-cased name with equal names kept in their original order, and the
   * error is the projects' error or else the first child's.
   */
  lemma ConcludeSorted(g: Group, cs: seq<Populated>, projectError: Option<Error>)
    requires CancelIndex(cs) == None
    ensures var r := Conclude(g, cs, projectError).group;
      && multiset(r.subgroups) == multiset(Groups(cs)) && SortedBy(r.subgroups, GroupNameKey)
      && multiset(r.projects) == multiset(g.projects) && SortedBy(r.projects, ProjectNameKey)
    ensures var r := Conclude(g, cs, projectError).group;
      forall k :: WithKey(r.subgroups, GroupNameKey, k) == WithKey(Groups(cs), GroupNameKey, k)
    ensures var r := Conclude(g, cs, projectError).group;
      forall k :: WithKey(r.projects, ProjectNameKey, k) == WithKey(g.projects, ProjectNameKey, k)
    ensures Conclude(g, cs, projectError).error == FirstOf(projectError, FirstChildError(cs))
  {
    SortBySorted(Groups(cs), GroupNameKey);
    SortBySorted(g.projects, ProjectNameKey);
    forall k ensures WithKey(SortBy(Groups(cs), GroupNameKey), GroupNameKey, k) == WithKey(Groups(cs), GroupNameKey, k) {
      SortByStable(Groups(cs), GroupNameKey, k);
    }
    forall k ensures WithKey(SortBy(g.projects, ProjectNameKey), ProjectNameKey, k) == WithKey(g.projects, ProjectNameKey, k) {
      SortByStable(g.projects, ProjectNameKey, k);
    }
  }

  /**
   * At the first cancelled child k, the children before k are written back
   * at their index, the rest of the slice is still zero, the projects are
   * left as they were, and the error is the cancellation.
   */
  lemma ConcludeWritesBack(g: Group, cs: seq<Populated>, projectError: Option<Error>, k: nat)
    requires CancelIndex(cs) == Some(k)
    ensures var r := Conclude(g, cs, projectError);
      && r.error == Some(Cancelled) && r.group.projects == g.projects && |r.group.subgroups| == |cs|
      && (forall j :: 0 <= j < k ==> r.group.subgroups[j] == cs[j].group)
      && (forall j :: k <= j < |cs| ==> r.group.subgroups[j] == ZeroGroup)
  {
    var subgroups := Groups(cs[..k]) + Zeros(|cs| - k);
    forall j | 0 <= j < k ensures subgroups[j] == cs[j].group {
      assert subgroups[j] == Groups(cs[..k])[j];
    }
    forall j | k <= j < |cs| ensures subgroups[j] == ZeroGroup {
      assert subgroups[j] == Zeros(|cs| - k)[j - k];
    }
  }

  /** When the subgroup listing fails, the subgroups are left untouched and the projects unsorted. */
  lemma SubgroupFailureKeepsSubgroups(l: Listings, g: Group)
    requires Ranked(l)
    requires l.projects(None, g.id).value != Err(Cancelled) && l.subgroups(None, g.id).value.Err?
    ensures var ps := l.projects(None, g.id).value;
      var r := Expected(l, g);
      && r.group.subgroups == g.subgroups
      && r.group.projects == (if ps.Ok? then ps.value else g.projects)
      && r.error.Some? && (r.error == Some(Cancelled) <==> l.subgroups(None, g.id).value.error == Cancelled)
  {
  }

  /** What the listings promise about their events: a cancellation ends on the declined prompt, anything else on a request. */
  ghost predicate Traced(l: Listings) {
    && (forall slot, id :: l.projects(slot, id).value == Err(Cancelled) ==> EndsDeclined(l.projects(slot, id).events))
    && (forall slot, id :: l.projects(slot, id).value != Err(Cancelled) ==> EndsRequested(l.projects(slot, id).events))
    && (forall slot, id :: l.subgroups(slot, id).value == Err(Cancelled) ==> EndsDeclined(l.subgroups(slot, id).events))
    && (forall slot, id :: l.subgroups(slot, id).value != Err(Cancelled) ==> EndsRequested(l.subgroups(slot, id).events))
  }

  lemma ListingsOfTraced(env: Env, all: bool)
    ensures Traced(ListingsOf(env, all))
  {
  }

  /**
   * A cancellation anywhere in the tree stops all work: the last event of
   * the whole population is the declined prompt. Otherwise the last event
   * is a request.
   */
  lemma {:induction false} PopulateStopsAtCancel(l: Listings, slot: Option<bool>, g: Group)
    requires Ranked(l) && Traced(l)
    ensures CancelledResult(Populate(l, slot, g).value) ==> EndsDeclined(Populate(l, slot, g).events)
    ensures !CancelledResult(Populate(l, slot, g).value) ==> EndsRequested(Populate(l, slot, g).events)
    decreases l.rank(g.id), 1, 0
  {
    var ps := l.projects(slot, g.id);
    if ps.value.Err? {
      CancellationIsUnwrapped(ps.value.error);
    }
    if !(ps.value.Err? && IsCancellation(ps.value.error)) {
      var first := if ps.value.Err? then Some(PopulatingProjects(g.id, ps.value.error)) else None;
      var withProjects := if ps.value.Ok? then g.(projects := ps.value.value) else g;
      var ss := l.subgroups(ps.slot, g.id);
      EndsOfAppend(ps.events, ss.events);
      if ss.value.Err? {
        CancellationIsUnwrapped(ss.value.error);
      } else {
        var subs := ss.value.value;
        var start := withProjects.(subgroups := Zeros(|subs|));
        var loop := PopulateLoop(l, ss.slot, start, subs, 0, first);
        LoopStopsAtCancel(l, ss.slot, start, subs, 0, first);
        if loop.events == [] {
          assert ps.events + ss.events + loop.events == ps.events + ss.events;
        } else {
          EndsOfAppend(ps.events + ss.events, loop.events);
        }
      }
    }
  }

  lemma {:induction false} LoopStopsAtCancel(l: Listings, slot: Option<bool>, g: Group, subs: seq<Group>, i: nat,
                                            first: Option<Error>)
    requires Ranked(l) && Traced(l)
    requires i <= |subs| == |g.subgroups|
    requires Below(l, g.id, subs)
    requires first != Some(Cancelled)
    ensures var r := PopulateLoop(l, slot, g, subs, i, first);
      CancelledResult(r.value) ==> EndsDeclined(r.events)
    ensures var r := PopulateLoop(l, slot, g, subs, i, first);
      !CancelledResult(r.value) ==> r.events == [] || EndsRequested(r.events)
    decreases l.rank(g.id), 0, |subs| - i
  {
    if i < |subs| {
      var child := Populate(l, slot, subs[i]);
      PopulateStopsAtCancel(l, slot, subs[i]);
      var c := child.value;
      if c.error.Some? {
        CancellationIsUnwrapped(c.error.value);
      }
      if !(c.error.Some? && IsCancellation(c.error.value)) {
        var first' := FirstOf(first, ChildError(c));
        var g' := g.(subgroups := g.subgroups[i := c.group]);
        var rest := PopulateLoop(l, child.slot, g', subs, i + 1, first');
        LoopStopsAtCancel(l, child.slot, g', subs, i + 1, first');
        if rest.events == [] {
          assert child.events + rest.events == child.events;
        } else {
          EndsOfAppend(child.events, rest.events);
        }
      }
    }
  }
}
