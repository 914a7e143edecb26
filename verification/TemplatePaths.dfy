/**
 The preorder list against the paths of the tree.

 A path leads from a node to a child by a position, from there on to a grandchild, and so on.  The
 traversal visits a node for every path, each once, in the order of the paths.
 */
module TemplatePaths {
  import opened Wrappers
  import opened TemplateTree

  /** Where a child stands in its parent. */
  datatype Position =
    | BranchPipe | BranchList | BranchElse    // if, range, with
    | PipeCommand(k: nat)
    | PipeArgument(k: nat)                    // an argument of a command, if it is a pipe
    | ActionPipe
    | TemplatePipe
    | ListNode(k: nat)

  type Path = seq<Position>

  function ChildAt(n: Node, p: Position): (c: Option<Node>)
    ensures c.Some? ==> c.value < n
  {
    match p
    case BranchPipe => if n.Branch? then Some(n.branchPipe) else None
    case BranchList => if n.Branch? then Some(n.list) else None
    case BranchElse => if n.Branch? then n.elseList else None
    case PipeCommand(k) => if n.Pipe? && k < |n.cmds| then Some(n.cmds[k]) else None
    case PipeArgument(k) => if n.Command? && k < |n.args| && n.args[k].Pipe? then Some(n.args[k]) else None
    case ActionPipe => if n.Action? then Some(n.pipe) else None
    case TemplatePipe => if n.Template? then n.templatePipe else None
    case ListNode(k) => if n.List? && k < |n.nodes| then Some(n.nodes[k]) else None
  }

  /** The node a path leads to. */
  function NodeAt(n: Node, path: Path): Option<Node>
    decreases |path|
  {
    if path == [] then Some(n)
    else
      var c := ChildAt(n, path[0]);
      if c.Some? then NodeAt(c.value, path[1..]) else None
  }

  /** Where the visitor is told a greater depth: pipe arguments, template pipes and list nodes. */
  function Deeper(p: Position): nat { if p.PipeArgument? || p.TemplatePipe? || p.ListNode? then 1 else 0 }

  function DepthOf(path: Path): nat { if path == [] then 0 else Deeper(path[0]) + DepthOf(path[1..]) }

  /** Source order among the positions of one node. */
  function Rank(p: Position): nat {
    match p
    case BranchPipe => 0
    case BranchList => 1
    case BranchElse => 2
    case PipeCommand(k) => k
    case PipeArgument(k) => k
    case ActionPipe => 0
    case TemplatePipe => 0
    case ListNode(k) => k
  }

  /** A parent comes before what is below it, and siblings come in source order. */
  predicate Before(a: Path, b: Path)
    decreases |a|
  {
    b != [] && (a == [] || Rank(a[0]) < Rank(b[0]) || (a[0] == b[0] && Before(a[1..], b[1..])))
  }

  lemma {:induction false} BeforeIsStrict(a: Path)
    ensures !Before(a, a)
    decreases |a|
  {
    if a != [] { BeforeIsStrict(a[1..]); }
  }

  // ---------------------------------------------------------------- a list of visits and the paths it follows

  /** All paths, or those that start at one of the first positions. */
  datatype Scope = Everything | FirstPlaces(k: nat)

  predicate InScope(path: Path, scope: Scope) { scope.Everything? || (path != [] && Rank(path[0]) < scope.k) }

  /** Each path leads to its visit. */
  ghost predicate Leads(n: Node, depth: nat, paths: seq<Path>, visits: seq<Visit>) {
    && |paths| == |visits|
    && forall k :: 0 <= k < |paths| ==> NodeAt(n, paths[k]) == Some(visits[k].node) && visits[k].depth == depth + DepthOf(paths[k])
  }

  ghost predicate InOrder(paths: seq<Path>) { forall j, k :: 0 <= j < k < |paths| ==> Before(paths[j], paths[k]) }

  /** The paths are exactly those of the tree that are in scope. */
  ghost predicate Covers(n: Node, paths: seq<Path>, scope: Scope) {
    forall path: Path :: path in paths <==> InScope(path, scope) && NodeAt(n, path).Some?
  }

  /** The visits are those of the paths in scope, each once and in order. */
  ghost predicate Follows(n: Node, depth: nat, visits: seq<Visit>, paths: seq<Path>, scope: Scope) {
    Leads(n, depth, paths, visits) && InOrder(paths) && Covers(n, paths, scope)
  }

  /** How many positions a node has, and which is the k-th. */
  function Places(n: Node): nat {
    match n
    case Branch(_, _, _) => 3
    case Pipe(cmds, _) => |cmds|
    case Command(args, _) => |args|
    case Action(_) => 1
    case Template(_, _) => 1
    case List(nodes) => |nodes|
    case _ => 0
  }

  function PlaceOf(n: Node, k: nat): (p: Position)
    requires k < Places(n)
    ensures Rank(p) == k
  {
    match n
    case Branch(_, _, _) => if k == 0 then BranchPipe else if k == 1 then BranchList else BranchElse
    case Pipe(_, _) => PipeCommand(k)
    case Command(_, _) => PipeArgument(k)
    case Action(_) => ActionPipe
    case Template(_, _) => TemplatePipe
    case List(_) => ListNode(k)
  }

  lemma OnlyPlaces(n: Node, p: Position)
    requires ChildAt(n, p).Some?
    ensures Rank(p) < Places(n) && p == PlaceOf(n, Rank(p))
  {
  }

  /** The visits below the first k positions. */
  function VisitsUpTo(n: Node, depth: nat, k: nat): seq<Visit>
    requires k <= Places(n)
  {
    if k == 0 then []
    else
      var p := PlaceOf(n, k - 1);
      var c := ChildAt(n, p);
      VisitsUpTo(n, depth, k - 1) + (if c.Some? then Preorder(c.value, depth + Deeper(p)) else [])
  }

  lemma {:induction false} AllUpTo(n: Node, nodes: seq<Node>, depth: nat, deep: nat, keep: Node -> bool, k: nat)
    requires k <= |nodes| == Places(n)
    requires forall j :: 0 <= j < |nodes| ==> ChildAt(n, PlaceOf(n, j)) == (if keep(nodes[j]) then Some(nodes[j]) else None)
    requires forall j :: 0 <= j < |nodes| ==> Deeper(PlaceOf(n, j)) == deep
    ensures PreorderAll(nodes[..k], depth + deep, keep) == VisitsUpTo(n, depth, k)
  {
    hide Preorder, ChildAt, PlaceOf;
    if k > 0 {
      AllUpTo(n, nodes, depth, deep, keep, k - 1);
      assert nodes[..k][..k - 1] == nodes[..k - 1];
    }
  }

  /** What is below a node is what is below its positions. */
  lemma BelowIsUpTo(n: Node, depth: nat)
    ensures Below(n, depth) == VisitsUpTo(n, depth, Places(n))
  {
    match n {
      case Pipe(_, _) => BelowPipe(n, depth);
      case Command(_, _) => BelowCommand(n, depth);
      case List(_) => BelowList(n, depth);
      case Branch(_, _, _) => BelowBranch(n, depth);
      case Action(_) => BelowOne(n, depth);
      case Template(_, _) => BelowOne(n, depth);
      case _ => assert VisitsUpTo(n, depth, 0) == [];
    }
  }

  lemma BelowPipe(n: Node, depth: nat)
    requires n.Pipe?
    ensures Below(n, depth) == VisitsUpTo(n, depth, Places(n))
  {
    hide Preorder, PreorderAll, VisitsUpTo;
    AllUpTo(n, n.cmds, depth, 0, (_: Node) => true, |n.cmds|);
    assert n.cmds[..|n.cmds|] == n.cmds;
  }

  lemma BelowCommand(n: Node, depth: nat)
    requires n.Command?
    ensures Below(n, depth) == VisitsUpTo(n, depth, Places(n))
  {
    hide Preorder, PreorderAll, VisitsUpTo;
    AllUpTo(n, n.args, depth, 1, (a: Node) => a.Pipe?, |n.args|);
    assert n.args[..|n.args|] == n.args;
  }

  lemma BelowList(n: Node, depth: nat)
    requires n.List?
    ensures Below(n, depth) == VisitsUpTo(n, depth, Places(n))
  {
    hide Preorder, PreorderAll, VisitsUpTo;
    AllUpTo(n, n.nodes, depth, 1, (_: Node) => true, |n.nodes|);
    assert n.nodes[..|n.nodes|] == n.nodes;
  }

  lemma UpToNext(n: Node, depth: nat, k: nat)
    requires 0 < k <= Places(n)
    ensures var p := PlaceOf(n, k - 1); var c := ChildAt(n, p);
      VisitsUpTo(n, depth, k) == VisitsUpTo(n, depth, k - 1) + (if c.Some? then Preorder(c.value, depth + Deeper(p)) else [])
    ensures VisitsUpTo(n, depth, 0) == []
  {
    hide Preorder;
  }

  lemma BelowBranch(n: Node, depth: nat)
    requires n.Branch?
    ensures Below(n, depth) == VisitsUpTo(n, depth, Places(n))
  {
    hide Preorder, VisitsUpTo;
    UpToNext(n, depth, 1);
    UpToNext(n, depth, 2);
    UpToNext(n, depth, 3);
  }

  lemma BelowOne(n: Node, depth: nat)
    requires n.Action? || n.Template?
    ensures Below(n, depth) == VisitsUpTo(n, depth, Places(n))
  {
    hide Preorder, VisitsUpTo;
    UpToNext(n, depth, 1);
  }

  // ---------------------------------------------------------------- putting paths together

  function Under(p: Position, paths: seq<Path>): (r: seq<Path>)
    ensures |r| == |paths|
    ensures forall k :: 0 <= k < |r| ==> r[k] == [p] + paths[k]
  {
    seq(|paths|, k requires 0 <= k < |paths| => [p] + paths[k])
  }

  lemma PathUnder(n: Node, p: Position, path: Path)
    requires ChildAt(n, p).Some?
    ensures NodeAt(n, [p] + path) == NodeAt(ChildAt(n, p).value, path) && DepthOf([p] + path) == Deeper(p) + DepthOf(path)
  {
    assert ([p] + path)[1..] == path;
  }

  lemma BeforeUnder(p: Position, a: Path, b: Path)
    ensures Before([p] + a, [p] + b) == Before(a, b)
  {
    assert ([p] + a)[1..] == a && ([p] + b)[1..] == b;
  }

  lemma LeadsUnder(n: Node, p: Position, depth: nat, below: seq<Path>, more: seq<Visit>)
    requires ChildAt(n, p).Some? && Leads(ChildAt(n, p).value, depth + Deeper(p), below, more)
    ensures Leads(n, depth, Under(p, below), more)
  {
    hide NodeAt, DepthOf, ChildAt, Deeper;
    forall j | 0 <= j < |below|
      ensures NodeAt(n, Under(p, below)[j]) == Some(more[j].node) && more[j].depth == depth + DepthOf(Under(p, below)[j])
    {
      PathUnder(n, p, below[j]);
    }
  }

  lemma OrderUnder(p: Position, below: seq<Path>)
    requires InOrder(below)
    ensures InOrder(Under(p, below))
  {
    hide Before;
    var under := Under(p, below);
    forall i, j | 0 <= i < j < |under| ensures Before(under[i], under[j]) { BeforeUnder(p, below[i], below[j]); }
  }

  lemma OrderNext(paths: seq<Path>, p: Position, below: seq<Path>)
    requires InOrder(paths) && InOrder(below)
    requires forall k :: 0 <= k < |paths| ==> InScope(paths[k], FirstPlaces(Rank(p)))
    ensures InOrder(paths + Under(p, below))
  {
    OrderUnder(p, below);
    hide Under;
    var under := Under(p, below);
    forall i, j | 0 <= i < j < |paths + under| ensures Before((paths + under)[i], (paths + under)[j]) {
      if i >= |paths| {
        assert Before(under[i - |paths|], under[j - |paths|]);
      } else if j >= |paths| {
        assert under[j - |paths|] == [p] + below[j - |paths|];
      }
    }
  }

  lemma UnderHas(p: Position, below: seq<Path>, path: Path)
    ensures path in Under(p, below) <==> path != [] && path[0] == p && path[1..] in below
  {
    if path != [] && path[0] == p && path[1..] in below {
      var j :| 0 <= j < |below| && below[j] == path[1..];
      assert Under(p, below)[j] == path;
    }
    if path in Under(p, below) {
      var j :| 0 <= j < |below| && Under(p, below)[j] == path;
      assert ([p] + below[j])[1..] == below[j];
    }
  }

  lemma CoversNext(n: Node, k: nat, paths: seq<Path>, below: seq<Path>)
    requires k < Places(n) && ChildAt(n, PlaceOf(n, k)).Some?
    requires Covers(n, paths, FirstPlaces(k)) && Covers(ChildAt(n, PlaceOf(n, k)).value, below, Everything)
    ensures Covers(n, paths + Under(PlaceOf(n, k), below), FirstPlaces(k + 1))
  {
    hide Under, ChildAt, Places;
    var p := PlaceOf(n, k);
    forall path: Path
      ensures path in paths + Under(p, below) <==> InScope(path, FirstPlaces(k + 1)) && NodeAt(n, path).Some?
    {
      UnderHas(p, below, path);
      PlaceHas(n, k, path);
    }
  }

  lemma PlaceHas(n: Node, k: nat, path: Path)
    requires k < Places(n)
    ensures InScope(path, FirstPlaces(k + 1)) && NodeAt(n, path).Some? <==>
      (InScope(path, FirstPlaces(k)) && NodeAt(n, path).Some?)
      || (path != [] && path[0] == PlaceOf(n, k) && ChildAt(n, path[0]).Some? && NodeAt(ChildAt(n, path[0]).value, path[1..]).Some?)
  {
    hide PlaceOf, Places, ChildAt, Rank;
    if path != [] && ChildAt(n, path[0]).Some? { OnlyPlaces(n, path[0]); }
  }

  /** One more position. */
  lemma FollowsNext(n: Node, depth: nat, k: nat, visits: seq<Visit>, paths: seq<Path>, more: seq<Visit>, below: seq<Path>)
    requires k < Places(n) && ChildAt(n, PlaceOf(n, k)).Some?
    requires Follows(n, depth, visits, paths, FirstPlaces(k))
    requires Follows(ChildAt(n, PlaceOf(n, k)).value, depth + Deeper(PlaceOf(n, k)), more, below, Everything)
    ensures Follows(n, depth, visits + more, paths + Under(PlaceOf(n, k), below), FirstPlaces(k + 1))
  {
    hide InOrder, Leads, Covers, InScope, ChildAt, PlaceOf, Places, Deeper, Under, Rank;
    var p := PlaceOf(n, k);
    AllInScope(n, paths, FirstPlaces(k));
    OrderNext(paths, p, below);
    CoversNext(n, k, paths, below);
    LeadsUnder(n, p, depth, below, more);
    LeadsBoth(n, depth, paths, visits, Under(p, below), more);
  }

  lemma AllInScope(n: Node, paths: seq<Path>, scope: Scope)
    requires Covers(n, paths, scope)
    ensures forall k :: 0 <= k < |paths| ==> InScope(paths[k], scope)
  {
    hide InScope, NodeAt;
    forall k | 0 <= k < |paths| ensures InScope(paths[k], scope) { assert paths[k] in paths; }
  }

  lemma LeadsBoth(n: Node, depth: nat, a: seq<Path>, va: seq<Visit>, b: seq<Path>, vb: seq<Visit>)
    requires Leads(n, depth, a, va) && Leads(n, depth, b, vb)
    ensures Leads(n, depth, a + b, va + vb)
  {
    hide NodeAt, DepthOf;
  }

  lemma FollowsSkipped(n: Node, depth: nat, k: nat, visits: seq<Visit>, paths: seq<Path>)
    requires k < Places(n) && ChildAt(n, PlaceOf(n, k)).None?
    requires Follows(n, depth, visits, paths, FirstPlaces(k))
    ensures Follows(n, depth, visits, paths, FirstPlaces(k + 1))
  {
    hide PlaceOf, Places, ChildAt, Leads, InOrder, InScope;
    forall path: Path ensures path in paths <==> InScope(path, FirstPlaces(k + 1)) && NodeAt(n, path).Some? {
      PlaceHas(n, k, path);
    }
  }

  lemma {:induction false} UpToFollows(n: Node, depth: nat, k: nat)
    requires k <= Places(n)
    ensures exists paths :: Follows(n, depth, VisitsUpTo(n, depth, k), paths, FirstPlaces(k))
    decreases n, k
  {
    hide Follows, PlaceOf, Places, Preorder, VisitsUpTo;
    if k == 0 {
      NothingFollows(n, depth);
    } else {
      UpToFollows(n, depth, k - 1);
      var visits := VisitsUpTo(n, depth, k - 1);
      var paths :| Follows(n, depth, visits, paths, FirstPlaces(k - 1));
      var p := PlaceOf(n, k - 1);
      var c := ChildAt(n, p);
      UpToNext(n, depth, k);
      if c.Some? {
        PreorderFollowsPaths(c.value, depth + Deeper(p));
        var below :| Follows(c.value, depth + Deeper(p), Preorder(c.value, depth + Deeper(p)), below, Everything);
        FollowsNext(n, depth, k - 1, visits, paths, Preorder(c.value, depth + Deeper(p)), below);
      } else {
        FollowsSkipped(n, depth, k - 1, visits, paths);
        assert visits + [] == visits;
      }
    }
  }

  lemma NothingFollows(n: Node, depth: nat)
    ensures Follows(n, depth, VisitsUpTo(n, depth, 0), [], FirstPlaces(0))
  {
    assert VisitsUpTo(n, depth, 0) == [];
  }

  lemma PreorderIs(n: Node, depth: nat)
    ensures Preorder(n, depth) == [Visit(n, depth)] + Below(n, depth)
  {
  }

  /** The traversal's list has one visit for every path of the tree, at the depth that the path gives: a
      parent before its children, siblings in source order, and nothing else. */
  lemma {:induction false} PreorderFollowsPaths(n: Node, depth: nat)
    ensures exists paths :: Follows(n, depth, Preorder(n, depth), paths, Everything)
    decreases n, Places(n) + 1
  {
    hide Follows, Places, Below, Preorder;
    UpToFollows(n, depth, Places(n));
    BelowIsUpTo(n, depth);
    PreorderIs(n, depth);
    var paths :| Follows(n, depth, Below(n, depth), paths, FirstPlaces(Places(n)));
    RootFollows(n, depth, Below(n, depth), paths);
  }

  lemma RootHas(n: Node, path: Path)
    ensures NodeAt(n, path).Some? <==> path == [] || (InScope(path, FirstPlaces(Places(n))) && NodeAt(n, path).Some?)
  {
    hide Places, PlaceOf, ChildAt, Rank;
    if path != [] && ChildAt(n, path[0]).Some? { OnlyPlaces(n, path[0]); }
  }

  lemma RootFollows(n: Node, depth: nat, visits: seq<Visit>, paths: seq<Path>)
    requires Follows(n, depth, visits, paths, FirstPlaces(Places(n)))
    ensures Follows(n, depth, [Visit(n, depth)] + visits, [[]] + paths, Everything)
  {
    hide Places;
    var all: seq<Path> := [[]] + paths;
    forall path: Path ensures path in all <==> NodeAt(n, path).Some? {
      RootHas(n, path);
      assert path in all <==> path == [] || path in paths;
    }
    assert Covers(n, all, Everything);
    hide NodeAt, Covers;
    OrderRoot(n, paths);
    LeadsRoot(n, depth, paths, visits);
  }

  lemma OrderRoot(n: Node, paths: seq<Path>)
    requires InOrder(paths) && forall k :: 0 <= k < |paths| ==> paths[k] != []
    ensures InOrder([[]] + paths)
  {
    var all: seq<Path> := [[]] + paths;
    forall i, j | 0 <= i < j < |all| ensures Before(all[i], all[j]) {
      if i > 0 { assert Before(paths[i - 1], paths[j - 1]); }
    }
  }

  lemma LeadsRoot(n: Node, depth: nat, paths: seq<Path>, visits: seq<Visit>)
    requires Leads(n, depth, paths, visits)
    ensures Leads(n, depth, [[]] + paths, [Visit(n, depth)] + visits)
  {
    assert NodeAt(n, []) == Some(n) && DepthOf([]) == 0;
  }
}
