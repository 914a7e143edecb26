/**
 The translation-key rule (translation_key_rule.go and its checks).

 A key that is a printf pipe is skipped where it is used, because the traversal reaches the printf
 itself; the strict lint below does not skip, and finds a violation in exactly the same templates.
 */
module TemplateLint {
  import opened Wrappers
  import opened TemplateTree

  datatype KeyError = EmptyKey | UndefinedKey(key: string) | InvalidKey(key: string) | RenderTextForbidden(text: string) | TemplateForbidden(name: string)

  /** The outcome of one check.  `Panics`: a pipe of one command whose first argument is no identifier. */
  datatype Verdict = Fine | Bad(error: KeyError) | Panics

  // ---------------------------------------------------------------- keys

  const SPECIAL_CASES := {"app.name", "customer-support-link", "privacy-policy-link", "terms-of-service-link", "territory-%s", "language-%s"}

  function Split(s: string, at: char): seq<string> {
    if s == "" then [""]
    else
      var rest := Split(s[1..], at);
      if s[0] == at then [""] + rest else [[s[0]] + rest[0]] + rest[1..]
  }

  function TrimQuotes(s: string): string { TrimEnd(TrimStart(s)) }

  function TrimStart(s: string): string { if s != "" && s[0] == '"' then TrimStart(s[1..]) else s }

  function TrimEnd(s: string): string { if s != "" && s[|s| - 1] == '"' then TrimEnd(s[..|s| - 1]) else s }

  predicate IsSegment(s: string) {
    s != "" && forall k :: 0 <= k < |s| ==> 'a' <= s[k] <= 'z' || '0' <= s[k] <= '9' || s[k] == '-' || s[k] == '%'
  }

  /** The two regular expressions: v2.page|component with three segments, v2.error with one. */
  predicate IsPatternValid(key: string) {
    var p := Split(key, '.');
    || (|p| == 5 && p[0] == "v2" && p[1] in {"page", "component"} && IsSegment(p[2]) && IsSegment(p[3]) && IsSegment(p[4]))
    || (|p| == 3 && p[0] == "v2" && p[1] == "error" && IsSegment(p[2]))
  }

  predicate Contains(s: string, sub: string) { sub <= s || (s != "" && Contains(s[1..], sub)) }

  function CheckTranslationKeyPattern(translationKey: string, defined: set<string>): Verdict {
    var key := TrimQuotes(translationKey);
    if translationKey in SPECIAL_CASES then Fine
    else if key == "" then Bad(EmptyKey)
    else if key !in defined then
      if IsPatternValid(key) && Contains(key, "%s") then Fine else Bad(UndefinedKey(key))
    else if !IsPatternValid(key) then Bad(InvalidKey(key))
    else Fine
  }

  function Join(parts: seq<string>, at: char): string
    requires parts != []
  {
    if |parts| == 1 then parts[0] else parts[0] + [at] + Join(parts[1..], at)
  }

  lemma {:induction false} SplitOfPart(a: string, at: char)
    requires at !in a
    ensures Split(a, at) == [a]
  {
    if a != "" {
      SplitOfPart(a[1..], at);
      assert [a[0]] + a[1..] == a;
    }
  }

  lemma {:induction false} SplitOfFirst(a: string, rest: string, at: char)
    requires at !in a
    ensures Split(a + [at] + rest, at) == [a] + Split(rest, at)
  {
    if a == "" {
      assert "" + [at] + rest == [at] + rest;
      assert ([at] + rest)[1..] == rest;
    } else {
      SplitOfFirst(a[1..], rest, at);
      assert (a + [at] + rest)[1..] == a[1..] + [at] + rest;
      assert [a[0]] + a[1..] == a;
    }
  }

  lemma {:induction false} SplitOfJoin(parts: seq<string>, at: char)
    requires parts != [] && forall k :: 0 <= k < |parts| ==> at !in parts[k]
    ensures Split(Join(parts, at), at) == parts
  {
    if |parts| == 1 {
      SplitOfPart(parts[0], at);
    } else {
      SplitOfJoin(parts[1..], at);
      SplitOfFirst(parts[0], Join(parts[1..], at), at);
    }
  }

  lemma {:induction false} JoinOfSplit(s: string, at: char)
    ensures Split(s, at) != [] && Join(Split(s, at), at) == s
  {
    if s != "" {
      JoinOfSplit(s[1..], at);
      var rest := Split(s[1..], at);
      if s[0] == at {
        assert ([""] + rest)[1..] == rest;
        assert Join([""] + rest, at) == "" + [at] + s[1..];
      } else {
        var parts := [[s[0]] + rest[0]] + rest[1..];
        assert parts[1..] == rest[1..];
        if |rest| > 1 { assert Join(parts, at) == [s[0]] + rest[0] + [at] + Join(rest[1..], at); }
      }
    }
  }

  predicate IsPageKey(key: string, kind: string, a: string, b: string, c: string) {
    kind in {"page", "component"} && IsSegment(a) && IsSegment(b) && IsSegment(c) && key == Join(["v2", kind, a, b, c], '.')
  }

  lemma SegmentHasNoDot(s: string)
    requires IsSegment(s)
    ensures '.' !in s
  {
  }

  /** The two expressions match exactly v2.page.a.b.c, v2.component.a.b.c and v2.error.d with non-empty
      segments of small letters, digits, hyphens and percent signs. */
  lemma PatternMeans(key: string)
    ensures IsPatternValid(key) <==>
      || (exists kind, a, b, c :: IsPageKey(key, kind, a, b, c))
      || (exists d :: IsSegment(d) && key == Join(["v2", "error", d], '.'))
  {
    hide Split, Join, IsSegment;
    JoinOfSplit(key, '.');
    var p := Split(key, '.');
    if IsPatternValid(key) {
      if |p| == 5 {
        assert p == ["v2", p[1], p[2], p[3], p[4]];
        assert IsPageKey(key, p[1], p[2], p[3], p[4]);
      } else {
        assert p == ["v2", "error", p[2]];
      }
    }
    if exists kind, a, b, c :: IsPageKey(key, kind, a, b, c) {
      var kind, a, b, c :| IsPageKey(key, kind, a, b, c);
      SegmentHasNoDot(a);
      SegmentHasNoDot(b);
      SegmentHasNoDot(c);
      SplitOfJoin(["v2", kind, a, b, c], '.');
    }
    if exists d :: IsSegment(d) && key == Join(["v2", "error", d], '.') {
      var d :| IsSegment(d) && key == Join(["v2", "error", d], '.');
      SegmentHasNoDot(d);
      SplitOfJoin(["v2", "error", d], '.');
    }
  }

  /** A key passes exactly if it is a special case, or well formed and either defined or a wildcard. */
  lemma KeyPasses(translationKey: string, defined: set<string>)
    ensures var key := TrimQuotes(translationKey);
      CheckTranslationKeyPattern(translationKey, defined).Fine? <==>
        translationKey in SPECIAL_CASES || (IsPatternValid(key) && (key in defined || Contains(key, "%s")))
  {
    hide Contains;
    if TrimQuotes(translationKey) == "" { assert !IsPatternValid(""); }
  }

  // ---------------------------------------------------------------- checks

  function StringOf(n: Node): string {
    match n
    case Pipe(_, text) => text
    case Command(_, text) => text
    case Identifier(text) => text
    case Variable(text) => text
    case Field(text) => text
    case String(_, text) => text
    case Other(text) => text
    case _ => ""
  }

  datatype PrintfTest = IsPrintf | NotPrintf | PrintfPanics

  /** IsPipeNodeOnlyPrintfCommand. */
  function OnlyPrintf(p: Node): PrintfTest
    requires p.Pipe?
  {
    if |p.cmds| != 1 || !p.cmds[0].Command? || p.cmds[0].args == [] then NotPrintf
    else if !p.cmds[0].args[0].Identifier? then PrintfPanics
    else if p.cmds[0].args[0].text == "printf" then IsPrintf
    else NotPrintf
  }

  function CheckTranslationKeyNode(n: Node, defined: set<string>): Verdict {
    if n.String? then CheckTranslationKeyPattern(n.value, defined)
    else if n.Pipe? && OnlyPrintf(n).PrintfPanics? then Panics
    else if n.Pipe? && OnlyPrintf(n).IsPrintf? then Fine
    else if StringOf(n) in SPECIAL_CASES then Fine
    else Bad(InvalidKey(StringOf(n)))
  }

  /** CheckCommandPrintf, CheckCommandTranslate and CheckCommandTranslationsHasKey: the second argument. */
  function CheckSecond(args: seq<Node>, defined: set<string>): Verdict {
    if |args| > 1 then CheckTranslationKeyNode(args[1], defined) else Fine
  }

  function CheckCommandInclude(args: seq<Node>, defined: set<string>): Verdict {
    if |args| > 1 && args[1].String? && Contains(args[1].value, ".html") then Fine else CheckSecond(args, defined)
  }

  /** What one argument makes validateFn check of its command. */
  function CheckFor(arg: Node, args: seq<Node>, text: string, defined: set<string>): Verdict {
    if (arg.Variable? && arg.text == "$.Translations.RenderText") || (arg.Field? && arg.text == ".Translations.RenderText") then
      Bad(RenderTextForbidden(text))
    else if (arg.Variable? && arg.text == "$.Translations.HasKey") || (arg.Field? && arg.text == ".Translations.HasKey") then
      CheckSecond(args, defined)
    else if arg.Identifier? && arg.text == "include" then CheckCommandInclude(args, defined)
    else if arg.Identifier? && (arg.text == "translate" || arg.text == "printf") then CheckSecond(args, defined)
    else Fine
  }

  datatype Violation = Violation(node: Node, error: KeyError)

  /** Violations so far, or a panic that ends the run. */
  datatype Lint = Violations(found: seq<Violation>) | Panicked

  function Report(l: Lint, n: Node, v: Verdict): Lint {
    if l.Panicked? || v.Panics? then Panicked
    else if v.Bad? then Violations(l.found + [Violation(n, v.error)])
    else l
  }

  function LintArgs(l: Lint, n: Node, count: nat, defined: set<string>): Lint
    requires n.Command? && count <= |n.args|
  {
    if count == 0 then l else Report(LintArgs(l, n, count - 1, defined), n, CheckFor(n.args[count - 1], n.args, n.text, defined))
  }

  function LintNode(l: Lint, n: Node, defined: set<string>): Lint {
    match n
    case Command(args, _) => LintArgs(l, n, |args|, defined)
    case Template(name, _) => if Contains(name, ".html") then l else Report(l, n, Bad(TemplateForbidden(name)))
    case _ => l
  }

  function LintAll(visits: seq<Visit>, defined: set<string>): Lint {
    if visits == [] then Violations([]) else LintNode(LintAll(visits[..|visits| - 1], defined), visits[|visits| - 1].node, defined)
  }

  function LintTree(root: Node, defined: set<string>): Lint { LintAll(Preorder(root, 0), defined) }

  // ---------------------------------------------------------------- validateTree as written

  /** validateTree: its visitor always continues, so every node of the preorder is checked. */
  method ValidateTree(root: Node, defined: set<string>) returns (violations: Lint)
    ensures violations == LintTree(root, defined)
  {
    hide Preorder, CheckFor, Report, Cut, Contains;
    var always: Visitor := _ => true;
    var visits, _ := TraverseTreeVisit(root, 0, always, []);
    CutIsShortestPrefix(always, [], Preorder(root, 0));
    violations := Violations([]);
    for k := 0 to |visits|
      invariant violations == LintAll(visits[..k], defined)
    {
      assert visits[..k + 1][..k] == visits[..k];
      var n := visits[k].node;
      match n {
        case Command(args, text) =>
          ghost var before := violations;
          for j := 0 to |args|
            invariant violations == LintArgs(before, n, j, defined)
          {
            violations := Report(violations, n, CheckFor(args[j], args, text, defined));
          }
        case Template(name, _) =>
          if !Contains(name, ".html") { violations := Report(violations, n, Bad(TemplateForbidden(name))); }
        case _ => {}
      }
    }
    assert visits[..|visits|] == visits;
  }

  // ---------------------------------------------------------------- clean templates

  /** Every check made at this node is fine. */
  ghost predicate CleanNode(n: Node, defined: set<string>) {
    match n
    case Command(args, text) => forall k :: 0 <= k < |args| ==> CheckFor(args[k], args, text, defined).Fine?
    case Template(name, _) => Contains(name, ".html")
    case _ => true
  }

  lemma {:induction false} ArgsClean(l: Lint, n: Node, count: nat, defined: set<string>)
    requires n.Command? && count <= |n.args|
    ensures (LintArgs(l, n, count, defined) == Violations([]) <==>
      l == Violations([]) && forall k :: 0 <= k < count ==> CheckFor(n.args[k], n.args, n.text, defined).Fine?)
  {
    hide CheckFor;
    if count > 0 { ArgsClean(l, n, count - 1, defined); }
  }

  lemma {:induction false} LintIsClean(visits: seq<Visit>, defined: set<string>)
    ensures LintAll(visits, defined) == Violations([]) <==> forall k :: 0 <= k < |visits| ==> CleanNode(visits[k].node, defined)
  {
    hide CheckFor, Contains, LintArgs;
    if visits != [] {
      var front, n := visits[..|visits| - 1], visits[|visits| - 1].node;
      LintIsClean(front, defined);
      assert forall k :: 0 <= k < |front| ==> front[k] == visits[k];
      if n.Command? { ArgsClean(LintAll(front, defined), n, |n.args|, defined); }
    }
  }

  // ---------------------------------------------------------------- the strict lint

  /** Like CheckTranslationKeyNode, but a printf pipe is as good as the key its printf formats. */
  function StrictKey(n: Node, defined: set<string>): Verdict
    decreases n
  {
    if n.Pipe? && OnlyPrintf(n).IsPrintf? then
      var args := n.cmds[0].args;
      if |args| > 1 then StrictKey(args[1], defined) else Fine
    else CheckTranslationKeyNode(n, defined)
  }

  function StrictFor(arg: Node, args: seq<Node>, text: string, defined: set<string>): Verdict {
    if |args| > 1 && args[1].Pipe? && OnlyPrintf(args[1]).IsPrintf? && CheckFor(arg, args, text, defined).Fine? && UsesKey(arg) then StrictKey(args[1], defined)
    else CheckFor(arg, args, text, defined)
  }

  predicate UsesKey(arg: Node) {
    || ((arg.Variable? && arg.text == "$.Translations.HasKey") || (arg.Field? && arg.text == ".Translations.HasKey"))
    || (arg.Identifier? && arg.text in {"include", "translate", "printf"})
  }

  ghost predicate StrictlyClean(n: Node, defined: set<string>) {
    match n
    case Command(args, text) => forall k :: 0 <= k < |args| ==> StrictFor(args[k], args, text, defined).Fine?
    case Template(name, _) => Contains(name, ".html")
    case _ => true
  }

  /** What is visited below a visited node is visited. */
  lemma {:induction false} VisitedBelow(root: Node, depth: nat, v: Visit, w: Visit)
    requires v in Preorder(root, depth) && w in Preorder(v.node, v.depth)
    ensures w in Preorder(root, depth)
    decreases root, 1
  {
    if v != Visit(root, depth) || v.node != root { BelowBelow(root, depth, v, w); }
  }

  lemma {:induction false} BelowBelow(root: Node, depth: nat, v: Visit, w: Visit)
    requires v in Below(root, depth) && w in Preorder(v.node, v.depth)
    ensures w in Below(root, depth)
    decreases root, 0
  {
    match root {
      case Pipe(cmds, _) => AllBelow(cmds, depth, (_: Node) => true, v, w);
      case Command(args, _) => AllBelow(args, depth + 1, (a: Node) => a.Pipe?, v, w);
      case Action(pipe) => VisitedBelow(pipe, depth, v, w);
      case Template(_, pipe) => VisitedBelow(pipe.value, depth + 1, v, w);
      case Branch(pipe, list, elseList) =>
        if v in Preorder(pipe, depth) { VisitedBelow(pipe, depth, v, w); }
        else if v in Preorder(list, depth) { VisitedBelow(list, depth, v, w); }
        else { VisitedBelow(elseList.value, depth, v, w); }
      case List(nodes) => AllBelow(nodes, depth + 1, (_: Node) => true, v, w);
      case _ => {}
    }
  }

  lemma {:induction false} AllBelow(nodes: seq<Node>, depth: nat, keep: Node -> bool, v: Visit, w: Visit)
    requires v in PreorderAll(nodes, depth, keep) && w in Preorder(v.node, v.depth)
    ensures w in PreorderAll(nodes, depth, keep)
    decreases nodes
  {
    if nodes != [] {
      var front, last := nodes[..|nodes| - 1], nodes[|nodes| - 1];
      if v in PreorderAll(front, depth, keep) { AllBelow(front, depth, keep, v, w); } else { VisitedBelow(last, depth, v, w); }
    }
  }

  lemma {:induction false} KeptIsVisited(nodes: seq<Node>, k: nat, depth: nat, keep: Node -> bool)
    requires k < |nodes| && keep(nodes[k])
    ensures Visit(nodes[k], depth) in PreorderAll(nodes, depth, keep)
  {
    if k < |nodes| - 1 { KeptIsVisited(nodes[..|nodes| - 1], k, depth, keep); }
  }

  /** The printf inside a pipe argument of a visited command is visited too. */
  lemma PrintfIsVisited(root: Node, depth: nat, v: Visit, k: nat)
    requires v in Preorder(root, depth) && v.node.Command? && k < |v.node.args| && v.node.args[k].Pipe?
      && OnlyPrintf(v.node.args[k]).IsPrintf?
    ensures Visit(v.node.args[k].cmds[0], v.depth + 1) in Preorder(root, depth)
  {
    var pipe := v.node.args[k];
    KeptIsVisited(v.node.args, k, v.depth + 1, (a: Node) => a.Pipe?);
    VisitedBelow(root, depth, v, Visit(pipe, v.depth + 1));
    KeptIsVisited(pipe.cmds, 0, v.depth + 1, (_: Node) => true);
    VisitedBelow(root, depth, Visit(pipe, v.depth + 1), Visit(pipe.cmds[0], v.depth + 1));
  }

  ghost predicate AllClean(root: Node, defined: set<string>) {
    forall v :: v in Preorder(root, 0) ==> CleanNode(v.node, defined)
  }

  /** In a clean tree a printf-only key is strictly fine: its printf was checked where it stands. */
  lemma {:induction false} SkippedKeyIsFine(root: Node, v: Visit, defined: set<string>)
    requires AllClean(root, defined) && v in Preorder(root, 0) && v.node.Command? && |v.node.args| > 1
    requires v.node.args[1].Pipe? && OnlyPrintf(v.node.args[1]).IsPrintf?
    ensures StrictKey(v.node.args[1], defined).Fine?
    decreases v.node
  {
    hide Preorder, CheckTranslationKeyPattern;
    var inner := Visit(v.node.args[1].cmds[0], v.depth + 1);
    PrintfIsVisited(root, 0, v, 1);
    assert CleanNode(inner.node, defined);
    var args := inner.node.args;
    if |args| > 1 {
      assert CheckFor(args[0], args, inner.node.text, defined) == CheckTranslationKeyNode(args[1], defined);
      if args[1].Pipe? && OnlyPrintf(args[1]).IsPrintf? { SkippedKeyIsFine(root, inner, defined); }
    }
  }

  lemma StrictIsStricter(n: Node, defined: set<string>)
    requires StrictlyClean(n, defined)
    ensures CleanNode(n, defined)
  {
    hide CheckFor, StrictKey, OnlyPrintf;
  }

  lemma VisitedAt(visits: seq<Visit>, defined: set<string>)
    ensures (forall k :: 0 <= k < |visits| ==> CleanNode(visits[k].node, defined)) <==> (forall v :: v in visits ==> CleanNode(v.node, defined))
  {
    hide CleanNode;
  }

  /** Skipping printf-only keys loses nothing: a template has no violation and no panic exactly when the
      lint that follows every printf into its key has none. */
  lemma SkippingLosesNothing(root: Node, defined: set<string>)
    ensures LintTree(root, defined) == Violations([]) <==> forall v :: v in Preorder(root, 0) ==> StrictlyClean(v.node, defined)
  {
    hide Preorder, CleanNode, StrictlyClean, LintAll;
    LintIsClean(Preorder(root, 0), defined);
    VisitedAt(Preorder(root, 0), defined);
    if AllClean(root, defined) {
      forall v | v in Preorder(root, 0) ensures StrictlyClean(v.node, defined) { CleanIsStrictlyClean(root, v, defined); }
    }
    forall v | v in Preorder(root, 0) && StrictlyClean(v.node, defined) ensures CleanNode(v.node, defined) { StrictIsStricter(v.node, defined); }
  }

  lemma CleanIsStrictlyClean(root: Node, v: Visit, defined: set<string>)
    requires AllClean(root, defined) && v in Preorder(root, 0)
    ensures StrictlyClean(v.node, defined)
  {
    hide Preorder, CheckFor, StrictKey, OnlyPrintf;
    assert CleanNode(v.node, defined);
    if v.node.Command? && |v.node.args| > 1 && v.node.args[1].Pipe? && OnlyPrintf(v.node.args[1]).IsPrintf? {
      SkippedKeyIsFine(root, v, defined);
    }
  }

  // ---------------------------------------------------------------- panics

  predicate PanicsAt(n: Node) {
    n.Command? && |n.args| > 1 && n.args[1].Pipe? && OnlyPrintf(n.args[1]).PrintfPanics? && exists k :: 0 <= k < |n.args| && UsesKey(n.args[k])
  }

  lemma CheckForPanics(arg: Node, args: seq<Node>, text: string, defined: set<string>)
    ensures CheckFor(arg, args, text, defined).Panics? <==>
      |args| > 1 && args[1].Pipe? && OnlyPrintf(args[1]).PrintfPanics? && UsesKey(arg)
  {
    hide OnlyPrintf, Contains;
  }

  lemma {:induction false} ArgsPanic(l: Lint, n: Node, count: nat, defined: set<string>)
    requires n.Command? && count <= |n.args|
    ensures LintArgs(l, n, count, defined).Panicked? <==>
      l.Panicked? || (exists k :: 0 <= k < count && |n.args| > 1 && n.args[1].Pipe? && OnlyPrintf(n.args[1]).PrintfPanics? && UsesKey(n.args[k]))
  {
    hide CheckFor, OnlyPrintf, UsesKey;
    if count > 0 {
      ArgsPanic(l, n, count - 1, defined);
      CheckForPanics(n.args[count - 1], n.args, n.text, defined);
    }
  }

  lemma {:induction false} LintPanics(visits: seq<Visit>, defined: set<string>)
    ensures LintAll(visits, defined).Panicked? <==> exists k :: 0 <= k < |visits| && PanicsAt(visits[k].node)
  {
    hide LintArgs, OnlyPrintf;
    if visits != [] {
      var front, n := visits[..|visits| - 1], visits[|visits| - 1].node;
      LintPanics(front, defined);
      if n.Command? { ArgsPanic(LintAll(front, defined), n, |n.args|, defined); }
      assert forall k :: 0 <= k < |front| ==> front[k] == visits[k];
      if PanicsAt(n) { assert PanicsAt(visits[|visits| - 1].node); }
      if exists k :: 0 <= k < |front| && PanicsAt(front[k].node) {
        var k :| 0 <= k < |front| && PanicsAt(front[k].node);
        assert PanicsAt(visits[k].node);
      }
    }
  }

  /** The run panics exactly when some visited command uses a key that is a pipe of one command not
      starting with an identifier, such as `include (.Key) nil`. */
  lemma PanicsExactlyOn(root: Node, defined: set<string>)
    ensures LintTree(root, defined).Panicked? <==> exists k :: 0 <= k < |Preorder(root, 0)| && PanicsAt(Preorder(root, 0)[k].node)
  {
    hide Preorder, PanicsAt;
    assert LintTree(root, defined) == LintAll(Preorder(root, 0), defined);
    LintPanics(Preorder(root, 0), defined);
  }
}
