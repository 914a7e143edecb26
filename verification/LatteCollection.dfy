/**
 What a finished sign-up or migration reports to Users.AfterCreate.

 The getters look at direct children only, some of them demand exactly one getter below, and
 IntentCreatePassword has none; still the report is everything the tree created, except passwords.
 */
module LatteCollection {
  import opened Wrappers
  import opened LatteTypes
  import opened LatteReact
  import opened LatteEngine
  import opened LatteBound
  import opened LatteService
  import opened LatteInvariant
  import opened LattePreserved
  import opened LatteLogin

  /** The two getters, NewIdentityGetter and NewAuthenticatorGetter. */
  datatype What = Identities | Authenticators

  datatype Item = AnIdentity(identity: Identity) | AnAuthenticator(authenticator: Authn)
  {
    function Owner(): string { if AnIdentity? then identity.userID else authenticator.userID }
  }

  // ---------------------------------------------------------------- everything created

  /** What a simple node creates; password authenticators are left aside. */
  function CreatedBy(what: What, s: SimpleNode): seq<Item> {
    if what.Identities? && s.NodeDoCreateIdentity? then [AnIdentity(s.identity)]
    else if what.Authenticators? && s.NodeDoCreateAuthenticator? && s.authenticator.typ in {OOBEmail, OOBSMS} then [AnAuthenticator(s.authenticator)]
    else []
  }

  function CreatedAt(what: What, n: Node): seq<Item> {
    match n
    case Simple(s) => CreatedBy(what, s)
    case SubWorkflow(sub) => CreatedIn(what, sub.nodes)
  }

  /** Everything created in a tree, in the order a traversal meets it. */
  function CreatedIn(what: What, nodes: seq<Node>): seq<Item> {
    if nodes == [] then [] else CreatedIn(what, nodes[..|nodes| - 1]) + CreatedAt(what, nodes[|nodes| - 1])
  }

  // ---------------------------------------------------------------- everything reported

  /** How an intent implements a getter: its own first creating node, its only getter below, all getters below. */
  datatype Role = FirstNode | OnlyGetter | AllGetters | NoGetter

  function RoleOf(what: What, i: Intent): Role {
    match i
    case IntentCreateLoginID(_, _, _, _) => if what.Identities? then FirstNode else OnlyGetter
    case IntentMigrateLoginID(_, _) => if what.Identities? then FirstNode else NoGetter
    case IntentCreateOOBOTPAuthenticator(_, _) => if what.Identities? then NoGetter else FirstNode
    case IntentMigrateOOBOTPAuthenticator(_, _, _) => if what.Identities? then NoGetter else FirstNode
    case IntentMigrateAccount(_) => OnlyGetter
    case IntentMigrateIdentities(_, _) => if what.Identities? then AllGetters else NoGetter
    case IntentMigrateAuthenticators(_, _) => if what.Identities? then NoGetter else AllGetters
    case _ => NoGetter
  }

  predicate IsGetter(what: What, n: Node) { n.SubWorkflow? && !RoleOf(what, n.w.intent).NoGetter? }

  function GettersIn(what: What, nodes: seq<Node>): nat {
    if nodes == [] then 0 else GettersIn(what, nodes[..|nodes| - 1]) + (if IsGetter(what, nodes[|nodes| - 1]) then 1 else 0)
  }

  function FirstCreated(what: What, nodes: seq<Node>): Option<Item> {
    var n := FindSingleNode(nodes, (s: SimpleNode) => if what.Identities? then s.NodeDoCreateIdentity? else s.NodeDoCreateAuthenticator?);
    if n.Some? && n.value.NodeDoCreateIdentity? then Some(AnIdentity(n.value.identity))
    else if n.Some? && n.value.NodeDoCreateAuthenticator? then Some(AnAuthenticator(n.value.authenticator))
    else None
  }

  /** GetNewIdentities and GetNewAuthenticators, an absent answer being an empty one. */
  function ReportOf(what: What, w: Workflow): seq<Item> {
    match RoleOf(what, w.intent)
    case FirstNode => if FirstCreated(what, w.nodes).Some? then [FirstCreated(what, w.nodes).value] else []
    case OnlyGetter => if GettersIn(what, w.nodes) == 1 then ReportIn(what, w.nodes) else []
    case AllGetters => ReportIn(what, w.nodes)
    case NoGetter => []
  }

  function ReportAt(what: What, n: Node): seq<Item> {
    match n
    case Simple(_) => []
    case SubWorkflow(sub) => ReportOf(what, sub)
  }

  function ReportIn(what: What, nodes: seq<Node>): seq<Item> {
    if nodes == [] then [] else ReportIn(what, nodes[..|nodes| - 1]) + ReportAt(what, nodes[|nodes| - 1])
  }

  // ---------------------------------------------------------------- the append loops as written

  lemma NotAGetter(what: What, n: Node)
    requires !IsGetter(what, n)
    ensures ReportAt(what, n) == []
  {
    hide RoleOf;
  }

  /** The loop of the commit effect, and of the getters that collect below. */
  method Collect(what: What, nodes: seq<Node>) returns (items: seq<Item>, getters: nat)
    ensures items == ReportIn(what, nodes) && getters == GettersIn(what, nodes)
    decreases nodes
  {
    items, getters := [], 0;
    for k := 0 to |nodes|
      invariant items == ReportIn(what, nodes[..k]) && getters == GettersIn(what, nodes[..k])
    {
      assert nodes[..k + 1][..k] == nodes[..k];
      if nodes[k].SubWorkflow? && !RoleOf(what, nodes[k].w.intent).NoGetter? {
        getters := getters + 1;
        var more, ok := GetNew(what, nodes[k]);
        if ok { items := items + more; }
      } else {
        NotAGetter(what, nodes[k]);
      }
    }
    assert nodes[..|nodes|] == nodes;
  }

  method GetNew(what: What, n: Node) returns (items: seq<Item>, ok: bool)
    requires IsGetter(what, n)
    ensures (if ok then items else []) == ReportAt(what, n)
    decreases n
  {
    var w := n.w;
    match RoleOf(what, w.intent) {
      case FirstNode =>
        var first := FirstCreated(what, w.nodes);
        if first.None? { return [], false; }
        return [first.value], true;
      case OnlyGetter =>
        var below, getters := Collect(what, w.nodes);
        if getters != 1 { return [], false; }
        return below, true;
      case AllGetters =>
        var below, _ := Collect(what, w.nodes);
        return below, |below| != 0;
    }
  }

  // ---------------------------------------------------------------- report and creation agree

  lemma {:induction false} AgreeIn(what: What, nodes: seq<Node>)
    requires forall k :: 0 <= k < |nodes| ==> CreatedAt(what, nodes[k]) == ReportAt(what, nodes[k])
    ensures CreatedIn(what, nodes) == ReportIn(what, nodes)
  {
    if nodes != [] { AgreeIn(what, nodes[..|nodes| - 1]); }
  }

  lemma {:induction false} NothingIn(what: What, nodes: seq<Node>)
    requires forall k :: 0 <= k < |nodes| ==> CreatedAt(what, nodes[k]) == []
    ensures CreatedIn(what, nodes) == []
  {
    if nodes != [] { NothingIn(what, nodes[..|nodes| - 1]); }
  }

  lemma {:induction false} OnlyTheFirst(what: What, nodes: seq<Node>)
    requires nodes != [] && forall k :: 1 <= k < |nodes| ==> CreatedAt(what, nodes[k]) == []
    ensures CreatedIn(what, nodes) == CreatedAt(what, nodes[0])
  {
    if |nodes| == 1 { assert nodes[..0] == []; } else { OnlyTheFirst(what, nodes[..|nodes| - 1]); }
  }

  /** Intents that create nothing of the kind, nor does anything below them. */
  predicate Barren(what: What, i: Intent) {
    match i
    case IntentVerifyIdentity(_, _, _) => true
    case IntentVerifyCaptcha => true
    case IntentEnsureSession(_, _, _, _) => true
    case IntentCreatePassword(_, _, _) => true
    case IntentCreateOOBOTPAuthenticator(_, _) => what.Identities?
    case IntentMigrateAuthenticators(_, _) => what.Identities?
    case IntentMigrateOOBOTPAuthenticator(_, _, _) => what.Identities?
    case IntentMigrateIdentities(_, _) => what.Authenticators?
    case IntentMigrateLoginID(_, _) => what.Authenticators?
    case _ => false
  }

  lemma BarrenNodes(what: What, w: Workflow, k: nat, log: seq<Round>)
    requires Good(w, log) && k < |w.nodes| && Barren(what, w.intent)
    ensures w.nodes[k].Simple? ==> CreatedBy(what, w.nodes[k].simple) == []
    ensures w.nodes[k].SubWorkflow? ==> Barren(what, w.nodes[k].w.intent)
  {
    hide Good, CaptchaWasPassed;
    PlaceOk(w, k, log);
  }

  lemma {:induction false} BarrenCreatesNothing(what: What, w: Workflow, log: seq<Round>)
    requires Good(w, log) && Barren(what, w.intent)
    ensures CreatedIn(what, w.nodes) == []
    decreases w
  {
    hide Good, Barren, CreatedBy;
    forall k | 0 <= k < |w.nodes| ensures CreatedAt(what, w.nodes[k]) == [] {
      BarrenNodes(what, w, k, log);
      if w.nodes[k].SubWorkflow? {
        PlaceOk(w, k, log);
        BarrenCreatesNothing(what, w.nodes[k].w, log);
      }
    }
    NothingIn(what, w.nodes);
  }

  lemma FirstNodePlaces(what: What, w: Workflow, log: seq<Round>)
    requires Good(w, log) && RoleOf(what, w.intent).FirstNode? && w.nodes != []
    ensures w.nodes[0].Simple? && CreatedBy(what, w.nodes[0].simple) != []
      && [FirstCreated(what, w.nodes).value] == CreatedBy(what, w.nodes[0].simple)
    ensures FirstCreated(what, w.nodes).Some?
    ensures forall k :: 1 <= k < |w.nodes| ==>
      if w.nodes[k].Simple? then CreatedBy(what, w.nodes[k].simple) == [] else Good(w.nodes[k].w, log) && Barren(what, w.nodes[k].w.intent)
  {
    LoginIntentOk(w, log);
    hide Good;
    PlaceOk(w, 0, log);
    forall k | 1 <= k < |w.nodes|
      ensures if w.nodes[k].Simple? then CreatedBy(what, w.nodes[k].simple) == [] else Good(w.nodes[k].w, log) && Barren(what, w.nodes[k].w.intent)
    {
      PlaceOk(w, k, log);
    }
  }

  lemma FirstNodeReports(what: What, w: Workflow, log: seq<Round>)
    requires Good(w, log) && RoleOf(what, w.intent).FirstNode?
    ensures ReportOf(what, w) == CreatedIn(what, w.nodes)
  {
    hide Good, RoleOf, Barren, CreatedBy, FirstCreated;
    if w.nodes == [] {
      assert FirstCreated(what, w.nodes).None? by { NoneCreated(what); }
    } else {
      FirstNodePlaces(what, w, log);
      forall k | 1 <= k < |w.nodes| ensures CreatedAt(what, w.nodes[k]) == [] {
        if w.nodes[k].SubWorkflow? { BarrenCreatesNothing(what, w.nodes[k].w, log); }
      }
      OnlyTheFirst(what, w.nodes);
    }
  }

  lemma NoneCreated(what: What)
    ensures FirstCreated(what, []).None?
  {
  }

  /** Below a creating intent or the root: nodes that create nothing, or creating sub-workflows. */
  lemma Places(what: What, w: Workflow, k: nat, log: seq<Round>)
    requires Good(w, log) && k < |w.nodes|
    requires w.intent.IntentSignup? || w.intent.IntentMigrate? || RoleOf(what, w.intent).OnlyGetter?
      || RoleOf(what, w.intent).AllGetters?
    ensures w.nodes[k].Simple? ==> CreatedBy(what, w.nodes[k].simple) == []
    ensures w.nodes[k].SubWorkflow? ==> Barren(what, w.nodes[k].w.intent) || !RoleOf(what, w.nodes[k].w.intent).NoGetter?
    ensures w.nodes[k].SubWorkflow? && Barren(what, w.nodes[k].w.intent) ==> RoleOf(what, w.nodes[k].w.intent).NoGetter?
  {
    hide Good;
    PlaceOk(w, k, log);
  }

  lemma {:induction false} ReportIsCreated(what: What, w: Workflow, log: seq<Round>)
    requires Good(w, log) && !RoleOf(what, w.intent).NoGetter?
    ensures ReportOf(what, w) == CreatedIn(what, w.nodes)
    decreases w, 1
  {
    hide Good, RoleOf, CreatedBy, FirstCreated;
    if RoleOf(what, w.intent).FirstNode? {
      FirstNodeReports(what, w, log);
    } else {
      ReportInIsCreated(what, w, log);
      if RoleOf(what, w.intent).OnlyGetter? { AtMostOneGetter(what, w, log); }
    }
  }

  lemma {:induction false} ReportInIsCreated(what: What, w: Workflow, log: seq<Round>)
    requires Good(w, log)
    requires w.intent.IntentSignup? || w.intent.IntentMigrate? || RoleOf(what, w.intent).OnlyGetter?
      || RoleOf(what, w.intent).AllGetters?
    ensures ReportIn(what, w.nodes) == CreatedIn(what, w.nodes)
    decreases w, 0
  {
    hide Good, RoleOf, CreatedBy, Barren, FirstCreated;
    forall k | 0 <= k < |w.nodes| ensures CreatedAt(what, w.nodes[k]) == ReportAt(what, w.nodes[k]) {
      Places(what, w, k, log);
      if w.nodes[k].SubWorkflow? {
        PlaceOk(w, k, log);
        if Barren(what, w.nodes[k].w.intent) { BarrenCreatesNothing(what, w.nodes[k].w, log); } else { ReportIsCreated(what, w.nodes[k].w, log); }
      }
    }
    AgreeIn(what, w.nodes);
  }

  /** The test for exactly one getter loses nothing: with none there is nothing to report. */
  lemma AtMostOneGetter(what: What, w: Workflow, log: seq<Round>)
    requires Good(w, log) && RoleOf(what, w.intent).OnlyGetter?
    ensures GettersIn(what, w.nodes) == 1 || ReportIn(what, w.nodes) == []
  {
    hide Good;
    var at := if w.intent.IntentCreateLoginID? then 3 else if what.Identities? then 1 else 2;
    forall k | 0 <= k < |w.nodes| ensures IsGetter(what, w.nodes[k]) <==> k == at { PlaceOk(w, k, log); }
    CountGetters(what, w.nodes, at);
  }

  lemma {:induction false} CountGetters(what: What, nodes: seq<Node>, at: nat)
    requires forall k :: 0 <= k < |nodes| ==> (IsGetter(what, nodes[k]) <==> k == at)
    ensures GettersIn(what, nodes) == if at < |nodes| then 1 else 0
    ensures ReportIn(what, nodes) == if at < |nodes| then ReportAt(what, nodes[at]) else []
  {
    hide RoleOf;
    if nodes != [] {
      CountGetters(what, nodes[..|nodes| - 1], at);
      if at != |nodes| - 1 { NotAGetter(what, nodes[|nodes| - 1]); }
    }
  }
}
