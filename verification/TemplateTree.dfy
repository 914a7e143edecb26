/** The template tree and its early-exit traversal (translation_key_rule_traverse_tree.go). */
module TemplateTree {
  import opened Wrappers

  /** text/template/parse nodes; `text` is what String() prints. */
  datatype Node =
    | List(nodes: seq<Node>)
    | Action(pipe: Node)
    | Pipe(cmds: seq<Node>, text: string)
    | Command(args: seq<Node>, text: string)
    | Template(name: string, templatePipe: Option<Node>)
    | Branch(branchPipe: Node, list: Node, elseList: Option<Node>)   // if, range, with
    | Text
    | Identifier(text: string)
    | Variable(text: string)
    | Field(text: string)
    | String(value: string, text: string)
    | Other(text: string)                                            // dot, nil, number, bool, chain, comment, break, ...

  /** A visited node with the depth the visitor is told. */
  datatype Visit = Visit(node: Node, depth: nat)

  /** A visitor may keep state: it decides on all it has seen, the current node last. */
  type Visitor = seq<Visit> -> bool

  // ---------------------------------------------------------------- reference: preorder, cut

  function Preorder(n: Node, depth: nat): seq<Visit>
    decreases n, 1
  {
    [Visit(n, depth)] + Below(n, depth)
  }

  function Below(n: Node, depth: nat): seq<Visit>
    decreases n, 0
  {
    match n
    case Pipe(cmds, _) => PreorderAll(cmds, depth, (_: Node) => true)
    case Command(args, _) => PreorderAll(args, depth + 1, (a: Node) => a.Pipe?)
    case Action(pipe) => Preorder(pipe, depth)
    case Template(_, pipe) => if pipe.Some? then Preorder(pipe.value, depth + 1) else []
    case Branch(pipe, list, elseList) =>
      Preorder(pipe, depth) + Preorder(list, depth) + (if elseList.Some? then Preorder(elseList.value, depth) else [])
    case List(nodes) => PreorderAll(nodes, depth + 1, (_: Node) => true)
    case _ => []
  }

  /** The nodes that the test keeps, each followed by what is below it. */
  function PreorderAll(nodes: seq<Node>, depth: nat, keep: Node -> bool): seq<Visit>
    decreases nodes
  {
    if nodes == [] then []
    else PreorderAll(nodes[..|nodes| - 1], depth, keep) + (if keep(nodes[|nodes| - 1]) then Preorder(nodes[|nodes| - 1], depth) else [])
  }

  datatype Walk = Walk(visited: seq<Visit>, cont: bool)

  /** Visiting a list in order, up to and including the first node at which the visitor says no. */
  function Cut(fn: Visitor, visited: seq<Visit>, rest: seq<Visit>): Walk
    decreases |rest|
  {
    if rest == [] then Walk(visited, true)
    else
      var seen := visited + [rest[0]];
      if fn(seen) then Cut(fn, seen, rest[1..]) else Walk(seen, false)
  }

  lemma {:induction false} CutAppend(fn: Visitor, visited: seq<Visit>, a: seq<Visit>, b: seq<Visit>)
    ensures var first := Cut(fn, visited, a);
      Cut(fn, visited, a + b) == if first.cont then Cut(fn, first.visited, b) else first
    decreases |a|
  {
    if a == [] {
      assert a + b == b;
    } else {
      assert (a + b)[1..] == a[1..] + b;
      CutAppend(fn, visited + [a[0]], a[1..], b);
    }
  }

  /** What the cut means: a prefix of the list; all of it if the walk goes on, else up to a node the
      visitor refused, having accepted all before. */
  lemma {:induction false} CutIsShortestPrefix(fn: Visitor, visited: seq<Visit>, rest: seq<Visit>)
    ensures var w := Cut(fn, visited, rest);
      && |visited| <= |w.visited| <= |visited| + |rest|
      && w.visited == visited + rest[..|w.visited| - |visited|]
      && (w.cont ==> w.visited == visited + rest)
      && (!w.cont ==> |w.visited| > |visited| && !fn(w.visited))
      && (forall k :: |visited| < k < |w.visited| || (k == |w.visited| > |visited| && w.cont) ==> fn(w.visited[..k]))
    decreases |rest|
  {
    if rest != [] {
      var seen := visited + [rest[0]];
      if fn(seen) {
        CutIsShortestPrefix(fn, seen, rest[1..]);
        var w := Cut(fn, seen, rest[1..]);
        assert w.visited == visited + rest[..|w.visited| - |visited|];
        assert w.visited[..|seen|] == seen;
        assert seen + rest[1..] == visited + rest;
      } else {
        assert seen == visited + rest[..1];
      }
    }
    assert Cut(fn, visited, rest).visited[..|Cut(fn, visited, rest).visited|] == Cut(fn, visited, rest).visited;
  }

  // ---------------------------------------------------------------- the traversal as written

  method TraverseTreeVisitBranch(n: Node, depth: nat, fn: Visitor, visited: seq<Visit>) returns (seen: seq<Visit>, cont: bool)
    requires n.Branch?
    ensures Walk(seen, cont) == Cut(fn, visited, Below(n, depth))
    decreases n, 0
  {
    var p, l := Preorder(n.branchPipe, depth), Preorder(n.list, depth);
    var e := if n.elseList.Some? then Preorder(n.elseList.value, depth) else [];
    assert Below(n, depth) == p + l + e;
    CutAppend(fn, visited, p + l, e);
    CutAppend(fn, visited, p, l);
    seen, cont := TraverseTreeVisit(n.branchPipe, depth, fn, visited);
    if !cont { return; }
    seen, cont := TraverseTreeVisit(n.list, depth, fn, seen);
    if !cont { return; }
    if n.elseList.Some? {
      seen, cont := TraverseTreeVisit(n.elseList.value, depth, fn, seen);
      if !cont { return seen, false; }
    }
  }

  /** One of the loops over children: `cont` is reassigned and the loop left when it turns false. */
  method TraverseChildren(parent: Node, nodes: seq<Node>, depth: nat, keep: Node -> bool, fn: Visitor, visited: seq<Visit>)
    returns (seen: seq<Visit>, cont: bool)
    requires forall k :: 0 <= k < |nodes| ==> nodes[k] < parent
    ensures Walk(seen, cont) == Cut(fn, visited, PreorderAll(nodes, depth, keep))
    decreases parent, 0
  {
    seen, cont := visited, true;
    var k := 0;
    while k < |nodes|
      invariant 0 <= k <= |nodes|
      invariant cont && Walk(seen, cont) == Cut(fn, visited, PreorderAll(nodes[..k], depth, keep))
    {
      assert nodes[..k + 1][..k] == nodes[..k];
      var mine := if keep(nodes[k]) then Preorder(nodes[k], depth) else [];
      CutAppend(fn, visited, PreorderAll(nodes[..k], depth, keep), mine);
      if keep(nodes[k]) {
        seen, cont := TraverseTreeVisit(nodes[k], depth, fn, seen);
        if !cont {
          RestIsCut(fn, visited, nodes, k + 1, depth, keep);
          return;
        }
      }
      k := k + 1;
    }
    assert nodes[..k] == nodes;
  }

  /** Once cut, the siblings to come add nothing. */
  lemma {:induction false} RestIsCut(fn: Visitor, visited: seq<Visit>, nodes: seq<Node>, k: nat, depth: nat, keep: Node -> bool)
    requires k <= |nodes| && !Cut(fn, visited, PreorderAll(nodes[..k], depth, keep)).cont
    ensures Cut(fn, visited, PreorderAll(nodes, depth, keep)) == Cut(fn, visited, PreorderAll(nodes[..k], depth, keep))
    decreases |nodes| - k
  {
    if k == |nodes| {
      assert nodes[..k] == nodes;
    } else {
      assert nodes[..k + 1][..k] == nodes[..k];
      CutAppend(fn, visited, PreorderAll(nodes[..k], depth, keep), if keep(nodes[k]) then Preorder(nodes[k], depth) else []);
      RestIsCut(fn, visited, nodes, k + 1, depth, keep);
    }
  }

  /** For every tree and visitor: the nodes visited are the preorder list, cut. */
  method TraverseTreeVisit(n: Node, depth: nat, fn: Visitor, visited: seq<Visit>) returns (seen: seq<Visit>, cont: bool)
    ensures Walk(seen, cont) == Cut(fn, visited, Preorder(n, depth))
    decreases n, 1
  {
    CutAppend(fn, visited, [Visit(n, depth)], Below(n, depth));
    seen := visited + [Visit(n, depth)];
    cont := fn(seen);
    if !cont { return; }
    match n {
      case Pipe(cmds, _) => seen, cont := TraverseChildren(n, cmds, depth, (_: Node) => true, fn, seen);
      case Command(args, _) => seen, cont := TraverseChildren(n, args, depth + 1, (a: Node) => a.Pipe?, fn, seen);
      case Action(pipe) => seen, cont := TraverseTreeVisit(pipe, depth, fn, seen);
      case Template(_, pipe) =>
        if pipe.Some? { seen, cont := TraverseTreeVisit(pipe.value, depth + 1, fn, seen); }
      case Branch(_, _, _) => seen, cont := TraverseTreeVisitBranch(n, depth, fn, seen);
      case List(nodes) => seen, cont := TraverseChildren(n, nodes, depth + 1, (_: Node) => true, fn, seen);
      case _ => {}
    }
  }
}
