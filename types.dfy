/** The records the GitLab client decodes and the tool displays. */
module Types {
  import opened Wrappers

  /** A project: a leaf of the group tree. */
  datatype Project = Project(id: int, pathWithNamespace: string, name: string)

  /**
   * A group or subgroup. `subgroups` and `projects` are owned by value and are
   * never filled by JSON decoding; only hierarchy population writes them.
   */
  datatype Group = Group(
    id: int,
    parentId: Option<int>,
    fullPath: string,
    name: string,
    subgroups: seq<Group>,
    projects: seq<Project>)

  /** Go's zero value of Group, what `make([]Group, n)` fills a slice with. */
  const ZeroGroup := Group(0, None, "", "", [], [])

  /** Pagination headers of one response; zero means "not reported". */
  datatype PaginationInfo = PaginationInfo(total: int, perPage: int, totalPages: int, currentPage: int)

  const NoPagination := PaginationInfo(0, 0, 0, 0)

  /** The fields a group keeps whatever population does to its children. */
  predicate SameIdentity(a: Group, b: Group) {
    a.id == b.id && a.parentId == b.parentId && a.fullPath == b.fullPath && a.name == b.name
  }

  /** Number of groups and projects strictly below g. */
  function Descendants(g: Group): nat {
    |g.subgroups| + |g.projects| + DescendantsOf(g.subgroups)
  }

  function DescendantsOf(gs: seq<Group>): nat {
    if gs == [] then 0 else Descendants(gs[0]) + DescendantsOf(gs[1..])
  }
}
