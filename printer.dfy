/**
 * The text the display package writes: the tree drawn for a populated group
 * hierarchy and the two-column lists of projects and groups. Output is
 * modelled as the sequence of lines written, each without its newline.
 */
module Printer {
  import opened Text
  import opened Types

  const Branch := '├'
  const Corner := '└'
  const Vertical := '│'
  const Horizontal := '─'

  /** The connector a child is drawn with: └ for the last child of its parent, ├ otherwise. */
  function Connector(isLast: bool): char {
    if isLast then Corner else Branch
  }

  /** One node of the tree: prefix, connector, "─", two spaces, name, a [G]/[P] marker and [ID=n]. */
  function NodeLine(prefix: string, isLast: bool, name: string, marker: char, id: int): string {
    prefix + [Connector(isLast), Horizontal, ' ', ' '] + name + " [" + [marker] + "] [ID=" + Itoa(id) + "]"
  }

  function GroupLine(prefix: string, isLast: bool, g: Group): string {
    NodeLine(prefix, isLast, g.name, 'G', g.id)
  }

  function ProjectLine(prefix: string, isLast: bool, p: Project): string {
    NodeLine(prefix, isLast, p.name, 'P', p.id)
  }

  /** The prefix the children of a node are drawn with. */
  function ChildPrefix(prefix: string, isLast: bool): (r: string)
    ensures |r| == |prefix| + 4 && prefix <= r
    ensures r[|prefix|] == (if isLast then ' ' else Vertical)
    ensures forall k :: |prefix| < k < |r| ==> r[k] == ' '
  {
    prefix + (if isLast then "    " else [Vertical, ' ', ' ', ' '])
  }

  /** Number of direct children; the child with 1-based index Total(g) is the last one. */
  function Total(g: Group): nat {
    |g.subgroups| + |g.projects|
  }

  /** A group node and everything below it (printHierarchyRecursive on a group). */
  function GroupLines(g: Group, prefix: string, isLast: bool): seq<string>
    decreases g, 2, 0
  {
    [GroupLine(prefix, isLast, g)] + ChildLines(g, ChildPrefix(prefix, isLast))
  }

  /** The children of g: every subgroup subtree, then every project, in stored order. */
  function ChildLines(g: Group, prefix: string): seq<string>
    decreases g, 1, 0
  {
    SubgroupLines(g, prefix, 0) + ProjectLines(g, prefix, 0)
  }

  /** Subgroups i.. of g; subgroup i is child number i + 1. */
  function SubgroupLines(g: Group, prefix: string, i: nat): seq<string>
    requires i <= |g.subgroups|
    decreases g, 0, |g.subgroups| - i
  {
    if i == |g.subgroups| then []
    else GroupLines(g.subgroups[i], prefix, i + 1 == Total(g)) + SubgroupLines(g, prefix, i + 1)
  }

  /** Projects j.. of g; project j is child number |g.subgroups| + j + 1. */
  function ProjectLines(g: Group, prefix: string, j: nat): seq<string>
    requires j <= |g.projects|
    decreases |g.projects| - j
  {
    if j == |g.projects| then []
    else [ProjectLine(prefix, |g.subgroups| + j + 1 == Total(g), g.projects[j])] + ProjectLines(g, prefix, j + 1)
  }

  /** The root line (FullPath and ID) after an empty line. */
  function Header(root: Group): string {
    root.fullPath + " (ID: " + Itoa(root.id) + ")"
  }

  /** PrintHierarchy: header, then the root's children drawn with an empty prefix. */
  function HierarchyLines(root: Group): seq<string> {
    ["", Header(root)] + ChildLines(root, "")
  }

  // ----- Line count -----

  lemma {:induction false} GroupLinesCount(g: Group, prefix: string, isLast: bool)
    ensures |GroupLines(g, prefix, isLast)| == 1 + Descendants(g)
    decreases g, 2, 0
  {
    ChildLinesCount(g, ChildPrefix(prefix, isLast));
  }

  lemma {:induction false} ChildLinesCount(g: Group, prefix: string)
    ensures |ChildLines(g, prefix)| == Descendants(g)
    decreases g, 1, 0
  {
    SubgroupLinesCount(g, prefix, 0);
    ProjectLinesCount(g, prefix, 0);
    assert g.subgroups[0..] == g.subgroups;
  }

  lemma {:induction false} SubgroupLinesCount(g: Group, prefix: string, i: nat)
    requires i <= |g.subgroups|
    ensures |SubgroupLines(g, prefix, i)| == |g.subgroups| - i + DescendantsOf(g.subgroups[i..])
    decreases g, 0, |g.subgroups| - i
  {
    if i < |g.subgroups| {
      GroupLinesCount(g.subgroups[i], prefix, i + 1 == Total(g));
      SubgroupLinesCount(g, prefix, i + 1);
      assert g.subgroups[i..][1..] == g.subgroups[i + 1..];
    }
  }

  lemma {:induction false} ProjectLinesCount(g: Group, prefix: string, j: nat)
    requires j <= |g.projects|
    ensures |ProjectLines(g, prefix, j)| == |g.projects| - j
    decreases |g.projects| - j
  {
    if j < |g.projects| {
      ProjectLinesCount(g, prefix, j + 1);
    }
  }

  /** The tree has one line per descendant, plus the header and the empty line before it. */
  lemma HierarchyCount(root: Group)
    ensures |HierarchyLines(root)| == 2 + Descendants(root)
    ensures HierarchyLines(root)[..2] == ["", Header(root)]
  {
    ChildLinesCount(root, "");
  }

  // ----- Indentation: a node at depth d below the prefix starts after 4*d characters -----

  /**
   * `line` draws a node d levels below the nodes drawn with `prefix`: it starts
   * with prefix, then d four-character columns of spaces and │, then a connector.
   */
  predicate Indented(line: string, prefix: string, d: nat) {
    |prefix| + 4 * d < |line| && prefix <= line
    && (line[|prefix| + 4 * d] == Branch || line[|prefix| + 4 * d] == Corner)
    && forall k :: |prefix| <= k < |prefix| + 4 * d ==> line[k] == ' ' || line[k] == Vertical
  }

  lemma IndentedBelow(line: string, prefix: string, isLast: bool, d: nat)
    requires Indented(line, ChildPrefix(prefix, isLast), d)
    ensures Indented(line, prefix, d + 1)
  {
    var cp := ChildPrefix(prefix, isLast);
    assert line[..|cp|] == cp;
    forall k | |prefix| <= k < |prefix| + 4 * (d + 1)
      ensures line[k] == ' ' || line[k] == Vertical
    {
      if k < |cp| {
        assert line[k] == cp[k];
      }
    }
  }

  lemma NodeLineIndented(prefix: string, isLast: bool, name: string, marker: char, id: int)
    ensures Indented(NodeLine(prefix, isLast, name, marker, id), prefix, 0)
    ensures NodeLine(prefix, isLast, name, marker, id)[|prefix|] == Connector(isLast)
  {
  }

  /** Every line under a group node sits at some depth d >= 0 below that node's own prefix. */
  lemma {:induction false} GroupLinesIndented(g: Group, prefix: string, isLast: bool)
    ensures forall line :: line in GroupLines(g, prefix, isLast) ==> exists d: nat :: Indented(line, prefix, d)
    decreases g, 2, 0
  {
    var cp := ChildPrefix(prefix, isLast);
    ChildLinesIndented(g, cp);
    NodeLineIndented(prefix, isLast, g.name, 'G', g.id);
    forall line | line in GroupLines(g, prefix, isLast)
      ensures exists d: nat :: Indented(line, prefix, d)
    {
      if line == GroupLine(prefix, isLast, g) {
        assert Indented(line, prefix, 0);
      } else {
        assert line in ChildLines(g, cp);
        var d: nat :| Indented(line, cp, d);
        IndentedBelow(line, prefix, isLast, d);
      }
    }
  }

  /** Every child line of g is drawn at some depth below the children's prefix. */
  lemma {:induction false} ChildLinesIndented(g: Group, prefix: string)
    ensures forall line :: line in ChildLines(g, prefix) ==> exists d: nat :: Indented(line, prefix, d)
    decreases g, 1, 0
  {
    SubgroupLinesIndented(g, prefix, 0);
    ProjectLinesIndented(g, prefix, 0);
  }

  lemma {:induction false} SubgroupLinesIndented(g: Group, prefix: string, i: nat)
    requires i <= |g.subgroups|
    ensures forall line :: line in SubgroupLines(g, prefix, i) ==> exists d: nat :: Indented(line, prefix, d)
    decreases g, 0, |g.subgroups| - i
  {
    if i < |g.subgroups| {
      GroupLinesIndented(g.subgroups[i], prefix, i + 1 == Total(g));
      SubgroupLinesIndented(g, prefix, i + 1);
    }
  }

  lemma {:induction false} ProjectLinesIndented(g: Group, prefix: string, j: nat)
    requires j <= |g.projects|
    ensures forall line :: line in ProjectLines(g, prefix, j) ==> Indented(line, prefix, 0)
    decreases |g.projects| - j
  {
    if j < |g.projects| {
      var p := g.projects[j];
      NodeLineIndented(prefix, |g.subgroups| + j + 1 == Total(g), p.name, 'P', p.id);
      ProjectLinesIndented(g, prefix, j + 1);
    }
  }

  // ----- Children by index: subgroups first, and only the final child gets └ -----

  /** The lines of child k (0-based) of g, as the childIndex counter numbers it. */
  function Block(g: Group, prefix: string, k: nat): seq<string>
    requires k < Total(g)
  {
    if k < |g.subgroups| then GroupLines(g.subgroups[k], prefix, k + 1 == Total(g))
    else [ProjectLine(prefix, k + 1 == Total(g), g.projects[k - |g.subgroups|])]
  }

  /** Children k.. of g, child by child. */
  function BlocksFrom(g: Group, prefix: string, k: nat): seq<string>
    requires k <= Total(g)
    decreases Total(g) - k
  {
    if k == Total(g) then [] else Block(g, prefix, k) + BlocksFrom(g, prefix, k + 1)
  }

  lemma {:induction false} ProjectLinesAreBlocks(g: Group, prefix: string, j: nat)
    requires j <= |g.projects|
    ensures ProjectLines(g, prefix, j) == BlocksFrom(g, prefix, |g.subgroups| + j)
    decreases |g.projects| - j
  {
    if j < |g.projects| {
      var line := ProjectLine(prefix, |g.subgroups| + j + 1 == Total(g), g.projects[j]);
      ProjectLinesAreBlocks(g, prefix, j + 1);
      assert Block(g, prefix, |g.subgroups| + j) == [line];
      assert BlocksFrom(g, prefix, |g.subgroups| + j) == [line] + BlocksFrom(g, prefix, |g.subgroups| + j + 1);
    }
  }

  lemma {:induction false} SubgroupLinesAreBlocks(g: Group, prefix: string, i: nat)
    requires i <= |g.subgroups|
    ensures SubgroupLines(g, prefix, i) + ProjectLines(g, prefix, 0) == BlocksFrom(g, prefix, i)
    decreases |g.subgroups| - i
  {
    if i == |g.subgroups| {
      ProjectLinesAreBlocks(g, prefix, 0);
    } else {
      var a := GroupLines(g.subgroups[i], prefix, i + 1 == Total(g));
      var b, p, x := SubgroupLines(g, prefix, i + 1), ProjectLines(g, prefix, 0), BlocksFrom(g, prefix, i + 1);
      SubgroupLinesAreBlocks(g, prefix, i + 1);
      assert SubgroupLines(g, prefix, i) == a + b;
      assert BlocksFrom(g, prefix, i) == a + x;
      Glue(a, b, p, x);
    }
  }

  lemma Glue(a: seq<string>, b: seq<string>, p: seq<string>, x: seq<string>)
    requires b + p == x
    ensures (a + b) + p == a + x
  {
  }

  /** The children of a group are drawn child after child, in index order. */
  lemma ChildLinesAreBlocks(g: Group, prefix: string)
    ensures ChildLines(g, prefix) == BlocksFrom(g, prefix, 0)
  {
    SubgroupLinesAreBlocks(g, prefix, 0);
  }

  /**
   * Child k's first line is its own node: a [G] line for the first |g.subgroups|
   * children and a [P] line after them, drawn with └ exactly when k is the final
   * child and with ├ otherwise.
   */
  lemma ChildNode(g: Group, prefix: string, k: nat)
    requires k < Total(g)
    ensures Block(g, prefix, k) != []
    ensures var line := Block(g, prefix, k)[0];
      |prefix| < |line| && line[..|prefix|] == prefix
      && (line[|prefix|] == Corner <==> k == Total(g) - 1)
      && (line[|prefix|] == Branch <==> k != Total(g) - 1)
    ensures k < |g.subgroups| ==> Block(g, prefix, k)[0] == GroupLine(prefix, k + 1 == Total(g), g.subgroups[k])
    ensures k >= |g.subgroups| ==> Block(g, prefix, k)[0] == ProjectLine(prefix, k + 1 == Total(g), g.projects[k - |g.subgroups|])
  {
    var isLast := k + 1 == Total(g);
    if k < |g.subgroups| {
      var sub := g.subgroups[k];
      NodeLineIndented(prefix, isLast, sub.name, 'G', sub.id);
    } else {
      var p := g.projects[k - |g.subgroups|];
      NodeLineIndented(prefix, isLast, p.name, 'P', p.id);
    }
  }

  // ----- List printers -----

  /**
   * One list row as handed to the tab writer: path + ":" left-justified in a
   * field of nameWidth characters when nameWidth > 0, a tab, then the ID
   * right-justified in six characters.
   */
  function ListLine(path: string, id: int, nameWidth: int): string {
    var displayName := path + ":";
    var formatted := if nameWidth > 0 then PadRight(displayName, nameWidth) else displayName;
    formatted + "\t" + PadLeft(Itoa(id), 6)
  }

  /**
   * The layout of a row: path + ":" padded with spaces to max(nameWidth,
   * |path| + 1) characters, a tab, then the decimal ID preceded by spaces to
   * at least six characters.
   */
  lemma ListLineLayout(path: string, id: int, nameWidth: int)
    ensures var r := ListLine(path, id, nameWidth);
      var n := |path| + 1;
      var cell := if nameWidth > n then nameWidth else n;
      var num := if |Itoa(id)| >= 6 then |Itoa(id)| else 6;
      |r| == cell + 1 + num
      && r[..n] == path + ":"
      && (forall k :: n <= k < cell ==> r[k] == ' ')
      && r[cell] == '\t'
      && (forall k :: cell < k < |r| - |Itoa(id)| ==> r[k] == ' ')
      && r[|r| - |Itoa(id)|..] == Itoa(id)
  {
    var n := |path| + 1;
    var displayName := path + ":";
    var formatted := if nameWidth > 0 then PadRight(displayName, nameWidth) else displayName;
    var number := PadLeft(Itoa(id), 6);
    assert formatted[..n] == displayName;
    RowLayout(formatted, number, displayName, Itoa(id));
  }

  /** A name field, a tab and a number field, each padded with spaces, laid out side by side. */
  lemma RowLayout(field: string, number: string, name: string, digits: string)
    requires |name| <= |field| && field[..|name|] == name
    requires forall k :: |name| <= k < |field| ==> field[k] == ' '
    requires |digits| <= |number| && number[|number| - |digits|..] == digits
    requires forall k :: 0 <= k < |number| - |digits| ==> number[k] == ' '
    ensures var r := field + "\t" + number;
      |r| == |field| + 1 + |number|
      && r[..|name|] == name
      && (forall k :: |name| <= k < |field| ==> r[k] == ' ')
      && r[|field|] == '\t'
      && (forall k :: |field| < k < |r| - |digits| ==> r[k] == ' ')
      && r[|r| - |digits|..] == digits
  {
    var r := field + "\t" + number;
    assert r[..|field|] == field;
    assert r[..|name|] == field[..|name|];
    forall k | |field| < k < |r| - |digits|
      ensures r[k] == ' '
    {
      assert r[k] == number[k - |field| - 1];
    }
    assert r[|r| - |digits|..] == number[|number| - |digits|..];
  }

  /** PrintProjectList: one row per project, in input order. */
  function ProjectList(projects: seq<Project>, nameWidth: int): (r: seq<string>)
    ensures |r| == |projects|
    ensures forall i :: 0 <= i < |r| ==> r[i] == ListLine(projects[i].pathWithNamespace, projects[i].id, nameWidth)
  {
    seq(|projects|, i requires 0 <= i < |projects| => ListLine(projects[i].pathWithNamespace, projects[i].id, nameWidth))
  }

  /** PrintGroupList: one row per group, in input order. */
  function GroupList(groups: seq<Group>, nameWidth: int): (r: seq<string>)
    ensures |r| == |groups|
    ensures forall i :: 0 <= i < |r| ==> r[i] == ListLine(groups[i].fullPath, groups[i].id, nameWidth)
  {
    seq(|groups|, i requires 0 <= i < |groups| => ListLine(groups[i].fullPath, groups[i].id, nameWidth))
  }

  /** Every row of a list starts with its item's path and a colon. */
  lemma ListRowsStartWithPath(projects: seq<Project>, groups: seq<Group>, nameWidth: int)
    ensures forall i :: 0 <= i < |projects| ==> projects[i].pathWithNamespace + ":" <= ProjectList(projects, nameWidth)[i]
    ensures forall i :: 0 <= i < |groups| ==> groups[i].fullPath + ":" <= GroupList(groups, nameWidth)[i]
  {
    forall i | 0 <= i < |projects|
      ensures projects[i].pathWithNamespace + ":" <= ProjectList(projects, nameWidth)[i]
    {
      ListLineLayout(projects[i].pathWithNamespace, projects[i].id, nameWidth);
    }
    forall i | 0 <= i < |groups|
      ensures groups[i].fullPath + ":" <= GroupList(groups, nameWidth)[i]
    {
      ListLineLayout(groups[i].fullPath, groups[i].id, nameWidth);
    }
  }

  /** With a width of at most zero nothing is padded: the tab follows the colon. */
  lemma NonPositiveWidthIsNatural(path: string, id: int, nameWidth: int)
    requires nameWidth <= 0
    ensures ListLine(path, id, nameWidth) == ListLine(path, id, 0)
    ensures ListLine(path, id, nameWidth)[..|path| + 2] == path + ":\t"
  {
    ListLineLayout(path, id, nameWidth);
    var r := ListLine(path, id, nameWidth);
    assert r[..|path| + 2] == r[..|path| + 1] + [r[|path| + 1]];
  }
}
