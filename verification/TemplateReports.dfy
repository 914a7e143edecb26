/** What the translation-key rule reports, said of the template and not of the checks. */
module TemplateReports {
  import opened Wrappers
  import opened TemplateTree
  import opened TemplatePaths
  import opened TemplateLint

  // ---------------------------------------------------------------- words

  lemma {:induction false} ContainsMeans(s: string, sub: string)
    ensures Contains(s, sub) <==> exists k :: 0 <= k <= |s| && sub <= s[k..]
  {
    if sub <= s {
      assert s[0..] == s;
    } else if s != "" {
      ContainsMeans(s[1..], sub);
      if Contains(s[1..], sub) {
        var k :| 0 <= k <= |s[1..]| && sub <= s[1..][k..];
        assert s[k + 1..] == s[1..][k..];
      }
      if exists k :: 0 <= k <= |s| && sub <= s[k..] {
        var k :| 0 <= k <= |s| && sub <= s[k..];
        assert s[0..] == s;
        assert s[k..] == s[1..][k - 1..];
      }
    }
  }

  ghost predicate IsTrimmed(s: string, t: string, i: nat, j: nat) {
    && i <= j <= |s| && t == s[i..j]
    && (forall k :: 0 <= k < i || j <= k < |s| ==> s[k] == '"')
    && (t != "" ==> t[0] != '"' && t[|t| - 1] != '"')
  }

  lemma {:induction false} TrimStartMeans(s: string)
    ensures exists i: nat :: IsStartTrimmed(s, TrimStart(s), i)
  {
    if s != "" && s[0] == '"' {
      TrimStartMeans(s[1..]);
      var i: nat :| IsStartTrimmed(s[1..], TrimStart(s[1..]), i);
      assert s[i + 1..] == s[1..][i..];
      assert forall k :: 1 <= k < i + 1 ==> s[k] == s[1..][k - 1];
      assert IsStartTrimmed(s, TrimStart(s), i + 1);
    } else {
      assert s[0..] == s && TrimStart(s) == s;
      assert IsStartTrimmed(s, TrimStart(s), 0);
    }
  }

  ghost predicate IsStartTrimmed(s: string, t: string, i: nat) {
    i <= |s| && t == s[i..] && (forall k :: 0 <= k < i ==> s[k] == '"') && (t != "" ==> t[0] != '"')
  }

  ghost predicate IsEndTrimmed(s: string, t: string, j: nat) {
    j <= |s| && t == s[..j] && (forall k :: j <= k < |s| ==> s[k] == '"') && (t != "" ==> t[|t| - 1] != '"')
  }

  lemma {:induction false} TrimEndMeans(s: string)
    ensures exists j: nat :: IsEndTrimmed(s, TrimEnd(s), j)
  {
    if s != "" && s[|s| - 1] == '"' {
      var front := s[..|s| - 1];
      TrimEndMeans(front);
      var j: nat :| IsEndTrimmed(front, TrimEnd(front), j);
      assert s[..j] == front[..j];
      assert forall k :: j <= k < |front| ==> s[k] == front[k];
      assert IsEndTrimmed(s, TrimEnd(s), j);
    } else {
      assert s[..|s|] == s && TrimEnd(s) == s;
      assert IsEndTrimmed(s, TrimEnd(s), |s|);
    }
  }

  /** Trimming takes off all quotes at both ends and nothing else. */
  lemma TrimMeans(s: string)
    ensures exists i: nat, j: nat :: IsTrimmed(s, TrimQuotes(s), i, j)
  {
    hide TrimStart, TrimEnd;
    TrimStartMeans(s);
    var t := TrimStart(s);
    var i: nat :| IsStartTrimmed(s, t, i);
    TrimEndMeans(t);
    var j: nat :| IsEndTrimmed(t, TrimEnd(t), j);
    assert t[..j] == s[i..i + j];
    assert forall k :: i + j <= k < |s| ==> s[k] == t[k - i];
    assert IsTrimmed(s, TrimQuotes(s), i, i + j);
  }

  /** The class [-a-z0-9%]+ of the two expressions, letter by letter. */
  lemma SegmentMeans(s: string)
    ensures IsSegment(s) <==> s != "" && forall c :: c in s ==> c in "abcdefghijklmnopqrstuvwxyz0123456789-%"
  {
    forall c: char
      ensures c in "abcdefghijklmnopqrstuvwxyz0123456789-%" <==> 'a' <= c <= 'z' || '0' <= c <= '9' || c == '-' || c == '%'
    {
      ClassMeans(c);
    }
    assert forall k :: 0 <= k < |s| ==> s[k] in s;
  }

  lemma ClassMeans(c: char)
    ensures c in "abcdefghijklmnopqrstuvwxyz0123456789-%" <==> 'a' <= c <= 'z' || '0' <= c <= '9' || c == '-' || c == '%'
  {
    var letters := "abcdefghijklmnopqrstuvwxyz0123456789-%";
    assert forall k: nat :: k < 26 ==> letters[k] as int == 'a' as int + k;
    assert forall k: nat :: 26 <= k < 36 ==> letters[k] as int == '0' as int + k - 26;
    assert letters[36] == '-' && letters[37] == '%' && |letters| == 38;
    if 'a' <= c <= 'z' { assert letters[c as int - 'a' as int] == c; }
    if '0' <= c <= '9' { assert letters[26 + c as int - '0' as int] == c; }
  }

  // ---------------------------------------------------------------- one key

  predicate IsSpecial(s: string) {
    || s == "app.name" || s == "customer-support-link" || s == "privacy-policy-link" || s == "terms-of-service-link"
    || s == "territory-%s" || s == "language-%s"
  }

  /** Which of the three errors a literal key gets. */
  lemma KeyErrors(translationKey: string, defined: set<string>)
    ensures var key := TrimQuotes(translationKey); var v := CheckTranslationKeyPattern(translationKey, defined);
      && (v == Bad(EmptyKey) <==> !IsSpecial(translationKey) && key == "")
      && (v == Bad(UndefinedKey(key)) <==>
            !IsSpecial(translationKey) && key != "" && key !in defined && !(IsPatternValid(key) && Contains(key, "%s")))
      && (v == Bad(InvalidKey(key)) <==> !IsSpecial(translationKey) && key != "" && key in defined && !IsPatternValid(key))
      && (v == Fine || v == Bad(EmptyKey) || v == Bad(UndefinedKey(key)) || v == Bad(InvalidKey(key)))
  {
    hide Contains, IsPatternValid, TrimQuotes;
  }

  /** A pipe of nothing but one printf. */
  predicate IsPrintfPipe(n: Node) {
    n.Pipe? && |n.cmds| == 1 && n.cmds[0].Command? && n.cmds[0].args != [] && n.cmds[0].args[0] == Identifier("printf")
  }

  /** A pipe of one command that starts with something other than an identifier. */
  predicate IsOddPipe(n: Node) {
    n.Pipe? && |n.cmds| == 1 && n.cmds[0].Command? && n.cmds[0].args != [] && !n.cmds[0].args[0].Identifier?
  }

  /** A key is a literal, a printf, or a special case; anything else is invalid. */
  lemma KeyNodes(n: Node, defined: set<string>)
    ensures var v := CheckTranslationKeyNode(n, defined);
      && (n.String? ==> v == CheckTranslationKeyPattern(n.value, defined))
      && (v.Panics? <==> IsOddPipe(n))
      && (!n.String? && v.Fine? <==> IsPrintfPipe(n) || (!n.String? && !IsOddPipe(n) && IsSpecial(StringOf(n))))
      && (!n.String? && v.Bad? ==> v == Bad(InvalidKey(StringOf(n))))
  {
    hide CheckTranslationKeyPattern;
    if n.String? { KeyErrors(n.value, defined); }
  }

  // ---------------------------------------------------------------- one command

  predicate RendersText(arg: Node) { arg == Variable("$.Translations.RenderText") || arg == Field(".Translations.RenderText") }

  predicate AsksForKey(arg: Node) { arg == Variable("$.Translations.HasKey") || arg == Field(".Translations.HasKey") }

  predicate Translates(arg: Node) { arg == Identifier("translate") || arg == Identifier("printf") }

  predicate Includes(arg: Node) { arg == Identifier("include") }

  /** A template file given by name. */
  predicate IsFileName(args: seq<Node>) { |args| > 1 && args[1].String? && Contains(args[1].value, ".html") }

  /** RenderText is never allowed; HasKey, translate, printf and include want a key as their second argument,
      include a file name instead; nothing else is checked. */
  lemma ArgumentsChecked(arg: Node, args: seq<Node>, text: string, defined: set<string>)
    ensures var v := CheckFor(arg, args, text, defined);
      && (RendersText(arg) ==> v == Bad(RenderTextForbidden(text)))
      && (AsksForKey(arg) || Translates(arg) || (Includes(arg) && !IsFileName(args)) ==>
            v == if |args| > 1 then CheckTranslationKeyNode(args[1], defined) else Fine)
      && (Includes(arg) && IsFileName(args) ==> v == Fine)
      && (!RendersText(arg) && !AsksForKey(arg) && !Translates(arg) && !Includes(arg) ==> v == Fine)
  {
    hide Contains, CheckTranslationKeyNode;
  }

  // ---------------------------------------------------------------- the report

  datatype Check = Check(node: Node, verdict: Verdict)

  /** All that is checked at a node, in order. */
  function ChecksAt(n: Node, defined: set<string>): seq<Check> {
    match n
    case Command(args, text) => seq(|args|, k requires 0 <= k < |args| => Check(n, CheckFor(args[k], args, text, defined)))
    case Template(name, _) => [Check(n, if Contains(name, ".html") then Fine else Bad(TemplateForbidden(name)))]
    case _ => []
  }

  function AllChecks(visits: seq<Visit>, defined: set<string>): seq<Check> {
    if visits == [] then [] else AllChecks(visits[..|visits| - 1], defined) + ChecksAt(visits[|visits| - 1].node, defined)
  }

  /** The failures among the checks, in order. */
  function Failures(checks: seq<Check>): seq<Violation> {
    if checks == [] then []
    else
      var last := checks[|checks| - 1];
      Failures(checks[..|checks| - 1]) + (if last.verdict.Bad? then [Violation(last.node, last.verdict.error)] else [])
  }

  ghost predicate SomePanic(checks: seq<Check>) { exists k :: 0 <= k < |checks| && checks[k].verdict.Panics? }

  function Reported(checks: seq<Check>, panics: bool): Lint { if panics then Panicked else Violations(Failures(checks)) }

  ghost predicate IsReport(l: Lint, checks: seq<Check>) { l == Reported(checks, SomePanic(checks)) }

  lemma ReportNext(l: Lint, checks: seq<Check>, n: Node, v: Verdict)
    requires IsReport(l, checks)
    ensures IsReport(Report(l, n, v), checks + [Check(n, v)])
  {
    var more := checks + [Check(n, v)];
    assert more[..|more| - 1] == checks;
    assert v.Panics? ==> more[|checks|].verdict.Panics?;
    assert forall k :: 0 <= k < |checks| ==> more[k] == checks[k];
  }

  lemma {:induction false} ArgsReported(l: Lint, checks: seq<Check>, n: Node, count: nat, defined: set<string>)
    requires IsReport(l, checks) && n.Command? && count <= |n.args|
    ensures IsReport(LintArgs(l, n, count, defined), checks + ChecksAt(n, defined)[..count])
  {
    hide Report, IsReport, CheckFor;
    var at := ChecksAt(n, defined);
    if count == 0 {
      assert checks + at[..0] == checks;
    } else {
      ArgsReported(l, checks, n, count - 1, defined);
      var v := CheckFor(n.args[count - 1], n.args, n.text, defined);
      ReportNext(LintArgs(l, n, count - 1, defined), checks + at[..count - 1], n, v);
      assert at[..count] == at[..count - 1] + [Check(n, v)];
      assert checks + at[..count] == (checks + at[..count - 1]) + [Check(n, v)];
    }
  }

  lemma NodeReported(l: Lint, checks: seq<Check>, n: Node, defined: set<string>)
    requires IsReport(l, checks)
    ensures IsReport(LintNode(l, n, defined), checks + ChecksAt(n, defined))
  {
    hide IsReport, Report, CheckFor, Contains, LintArgs;
    var at := ChecksAt(n, defined);
    match n {
      case Command(args, _) =>
        ArgsReported(l, checks, n, |args|, defined);
        assert at[..|args|] == at;
      case Template(name, _) =>
        ReportNext(l, checks, n, at[0].verdict);
        GoodIsSilent(l, n);
      case _ => assert checks + [] == checks;
    }
  }

  lemma GoodIsSilent(l: Lint, n: Node)
    ensures Report(l, n, Fine) == l
  {
  }

  lemma {:induction false} AllReported(visits: seq<Visit>, defined: set<string>)
    ensures IsReport(LintAll(visits, defined), AllChecks(visits, defined))
  {
    hide LintNode, ChecksAt;
    if visits != [] {
      hide IsReport;
      var front, n := visits[..|visits| - 1], visits[|visits| - 1].node;
      AllReported(front, defined);
      NodeReported(LintAll(front, defined), AllChecks(front, defined), n, defined);
    }
  }

  /** The rule reports every failed check of every node on a path of the template, in the order of the paths
      and within a node of its arguments, and nothing else; a check that panics ends it. */
  lemma ReportIsExact(root: Node, defined: set<string>)
    ensures exists visits, paths ::
      && Follows(root, 0, visits, paths, Everything)
      && LintTree(root, defined) == Reported(AllChecks(visits, defined), SomePanic(AllChecks(visits, defined)))
  {
    hide Follows, Preorder, AllChecks, LintAll;
    PreorderFollowsPaths(root, 0);
    var visits := Preorder(root, 0);
    var paths :| Follows(root, 0, visits, paths, Everything);
    AllReported(visits, defined);
    assert LintTree(root, defined) == LintAll(visits, defined);
  }

  ghost predicate CleanPaths(root: Node, defined: set<string>) {
    forall path: Path :: NodeAt(root, path).Some? ==> CleanNode(NodeAt(root, path).value, defined)
  }

  ghost predicate CleanVisits(visits: seq<Visit>, defined: set<string>) {
    forall k :: 0 <= k < |visits| ==> CleanNode(visits[k].node, defined)
  }

  lemma PathsOfVisits(root: Node, visits: seq<Visit>, paths: seq<Path>, defined: set<string>)
    requires Leads(root, 0, paths, visits) && Covers(root, paths, Everything) && CleanVisits(visits, defined)
    ensures CleanPaths(root, defined)
  {
    hide CleanNode, NodeAt, DepthOf;
    forall path: Path | NodeAt(root, path).Some? ensures CleanNode(NodeAt(root, path).value, defined) {
      assert path in paths;
      var k :| 0 <= k < |paths| && paths[k] == path;
      assert NodeAt(root, paths[k]) == Some(visits[k].node);
    }
  }

  lemma VisitsOfPaths(root: Node, visits: seq<Visit>, paths: seq<Path>, defined: set<string>)
    requires Leads(root, 0, paths, visits) && CleanPaths(root, defined)
    ensures CleanVisits(visits, defined)
  {
    hide CleanNode, NodeAt, DepthOf;
    forall k | 0 <= k < |visits| ensures CleanNode(visits[k].node, defined) {
      assert NodeAt(root, paths[k]) == Some(visits[k].node);
    }
  }

  /** A template is clean exactly if every node on every path of it is. */
  lemma CleanOnEveryPath(root: Node, defined: set<string>)
    ensures LintTree(root, defined) == Violations([]) <==> CleanPaths(root, defined)
  {
    hide Preorder, CleanNode, LintAll, NodeAt, InOrder, Leads, Covers, CleanPaths, CleanVisits;
    PreorderFollowsPaths(root, 0);
    var visits := Preorder(root, 0);
    var paths :| Follows(root, 0, visits, paths, Everything);
    LintIsClean(visits, defined);
    assert LintTree(root, defined) == LintAll(visits, defined);
    assert CleanVisits(visits, defined) <==> forall k :: 0 <= k < |visits| ==> CleanNode(visits[k].node, defined) by { VisitsAreClean(visits, defined); }
    if CleanPaths(root, defined) { VisitsOfPaths(root, visits, paths, defined); }
    if CleanVisits(visits, defined) { PathsOfVisits(root, visits, paths, defined); }
  }

  lemma VisitsAreClean(visits: seq<Visit>, defined: set<string>)
    ensures CleanVisits(visits, defined) <==> forall k :: 0 <= k < |visits| ==> CleanNode(visits[k].node, defined)
  {
    hide CleanNode;
  }
}
