/**
 Every append uses up part of what the tree may still grow.

 `Potential` is the measure: it strictly falls when a node is appended, and a resend (ErrSameNode or
 ErrUpdateNode) leaves the whole tree as it was.
 */
module LatteBound {
  import opened Wrappers
  import opened LatteTypes
  import opened LatteReact
  import opened LatteEngine

  // ---------------------------------------------------------------- direct children under growth

  lemma {:induction false} FindAppended(nodes: seq<Node>, n: Node, keep: SimpleNode -> bool)
    ensures FindSingleNode(nodes + [n], keep) ==
      if FindSingleNode(nodes, keep).Some? then FindSingleNode(nodes, keep)
      else if n.Simple? && keep(n.simple) then Some(n.simple) else None
  {
    if nodes != [] {
      FindAppended(nodes[1..], n, keep);
      assert (nodes + [n])[1..] == nodes[1..] + [n];
    }
  }

  lemma SpecsAppended(nodes: seq<Node>, n: Node)
    requires n.Simple? && n.simple.NodeMigrateAccount? ==> MigrateNode(nodes).Some?
    ensures IdentityMigrateSpecs(nodes + [n]) == IdentityMigrateSpecs(nodes)
    ensures AuthnMigrateSpecs(nodes + [n]) == AuthnMigrateSpecs(nodes)
  {
    FindAppended(nodes, n, (m: SimpleNode) => m.NodeMigrateAccount?);
    assert MigrateNode(nodes + [n]) == MigrateNode(nodes);
  }

  /** Growing by a node other than a migration response never widens what the intent may append. */
  lemma BudgetAppended(i: Intent, nodes: seq<Node>, n: Node, B: nat)
    requires n.Simple? ==> !n.simple.NodeMigrateAccount?
    ensures IntentBudget(i, nodes + [n], B) <= IntentBudget(i, nodes, B)
  {
    SpecsAppended(nodes, n);
  }

  lemma BudgetLifted(i: Intent, front: seq<Node>, a: Workflow, b: Workflow, B: nat)
    ensures IntentBudget(i, front + [SubWorkflow(a)], B) == IntentBudget(i, front + [SubWorkflow(b)], B)
  {
    SpecsAppended(front, SubWorkflow(a));
    SpecsAppended(front, SubWorkflow(b));
  }

  // ---------------------------------------------------------------- one reaction

  predicate SpecsWithin(env: Env, B: nat) { |env.identitySpecs| <= B && |env.authnSpecs| <= B }

  /** The node paid for: what it may grow and what the intent may still append fit in what the intent had. */
  predicate Pays(i: Intent, nodes: seq<Node>, n: Node, B: nat) {
    LastBudget(n, |nodes| + 1, B) + IntentBudget(i, nodes + [n], B) < IntentBudget(i, nodes, B)
  }

  lemma FreshCost(n: Node, count: nat, B: nat)
    requires n.SubWorkflow? ==> n.w.nodes == []
    ensures LastBudget(n, count, B) == if n.SubWorkflow? then IntentBudget(n.w.intent, [], B) else NodeBudget(n.simple, count)
  {
  }

  lemma MigrateAccountPays(userID: string, nodes: seq<Node>, input: Input, env: Env, B: nat)
    requires IntentCanReact(IntentMigrateAccount(userID), nodes)
    requires MigrateAccountReact(userID, nodes, input, env).reaction.Next?
    requires |nodes| > 0 || SpecsWithin(env, B)
    ensures Pays(IntentMigrateAccount(userID), nodes, MigrateAccountReact(userID, nodes, input, env).reaction.node, B)
  {
    var n := MigrateAccountReact(userID, nodes, input, env).reaction.node;
    FindAppended(nodes, n, (m: SimpleNode) => m.NodeMigrateAccount?);
    if |nodes| > 0 { SpecsAppended(nodes, n); }
  }

  lemma AuthenticatingPays(i: Intent, nodes: seq<Node>, input: Input, env: Env, B: nat)
    requires i.IntentProtectedAuthenticate? || i.IntentAuthenticate? || i.IntentVerifyProof? || i.IntentLogin?
      || i.IntentReauthenticate?
      || i.IntentAuthenticateOOBOTPPhone? || i.IntentVerifyCaptcha? || i.IntentAuthenticateEmailLoginLink? || i.IntentAuthenticatePassword?
      || i.IntentEnsureSession?
    requires IntentCanReact(i, nodes) && IntentReact(i, nodes, input, env).reaction.Next?
    ensures Pays(i, nodes, IntentReact(i, nodes, input, env).reaction.node, B)
  {
    hide GetAMROf, List, HasCaptchaSub, FindSingleNode, IdentityMigrateSpecs, AuthnMigrateSpecs, LastBudget;
    FreshCost(IntentReact(i, nodes, input, env).reaction.node, |nodes| + 1, B);
  }

  lemma SigningUpPays(i: Intent, nodes: seq<Node>, input: Input, env: Env, B: nat)
    requires i.IntentSignup? || i.IntentMigrate? || i.IntentCreateLoginID?
    requires IntentCanReact(i, nodes) && IntentReact(i, nodes, input, env).reaction.Next?
    ensures Pays(i, nodes, IntentReact(i, nodes, input, env).reaction.node, B)
  {
    hide UserIDOf, IdentityOf, IdentityMigrateSpecs, AuthnMigrateSpecs, LastBudget;
    FreshCost(IntentReact(i, nodes, input, env).reaction.node, |nodes| + 1, B);
  }

  lemma CreatingPays(i: Intent, nodes: seq<Node>, input: Input, env: Env, B: nat)
    requires i.IntentVerifyIdentity? || i.IntentCreateOOBOTPAuthenticator? || i.IntentCreatePassword?
      || i.IntentMigrateIdentities? || i.IntentMigrateAuthenticators? || i.IntentMigrateLoginID? || i.IntentMigrateOOBOTPAuthenticator?
    requires IntentCanReact(i, nodes) && IntentReact(i, nodes, input, env).reaction.Next?
    ensures Pays(i, nodes, IntentReact(i, nodes, input, env).reaction.node, B)
  {
    hide UserIDOf, IdentityOf, HasCaptchaSub, IdentityMigrateSpecs, AuthnMigrateSpecs, LastBudget;
    FreshCost(IntentReact(i, nodes, input, env).reaction.node, |nodes| + 1, B);
  }

  lemma IntentPays(i: Intent, nodes: seq<Node>, input: Input, env: Env, B: nat)
    requires IntentCanReact(i, nodes) && IntentReact(i, nodes, input, env).reaction.Next?
    requires (i.IntentMigrateAccount? && nodes == []) ==> SpecsWithin(env, B)
    ensures Pays(i, nodes, IntentReact(i, nodes, input, env).reaction.node, B)
  {
    if i.IntentMigrateAccount? {
      MigrateAccountPays(i.userID, nodes, input, env, B);
    } else {
      hide IntentCanReact, Pays;
      if i.IntentProtectedAuthenticate? || i.IntentAuthenticate? || i.IntentVerifyProof? || i.IntentLogin? || i.IntentReauthenticate?
        || i.IntentAuthenticateOOBOTPPhone? || i.IntentVerifyCaptcha? || i.IntentAuthenticateEmailLoginLink? || i.IntentAuthenticatePassword?
        || i.IntentEnsureSession? {
        AuthenticatingPays(i, nodes, input, env, B);
      } else if i.IntentSignup? || i.IntentMigrate? || i.IntentCreateLoginID? {
        SigningUpPays(i, nodes, input, env, B);
      } else {
        CreatingPays(i, nodes, input, env, B);
      }
    }
  }

  lemma NodePays(s: SimpleNode, count: nat, input: Input, env: Env, B: nat)
    requires NodeCanReact(s, count) && NodeReact(s, input, env).reaction.Next?
    ensures LastBudget(NodeReact(s, input, env).reaction.node, count + 1, B) < NodeBudget(s, count)
    ensures NodeReact(s, input, env).reaction.node.Simple? ==> !NodeReact(s, input, env).reaction.node.simple.NodeMigrateAccount?
  {
    hide List, IdentityMigrateSpecs, AuthnMigrateSpecs;
  }

  // ---------------------------------------------------------------- one step of a tree

  function IntentTokens(i: Intent, count: nat): nat {
    match i
    case IntentMigrate => if count <= 1 then 1 else 0
    case IntentMigrateAccount(_) => if count == 0 then 1 else 0
    case _ => 0
  }

  lemma PotentialOf(w: Workflow, B: nat)
    ensures Potential(w, B) ==
      IntentBudget(w.intent, w.nodes, B) + (if w.nodes == [] then 0 else LastBudget(w.nodes[|w.nodes| - 1], |w.nodes|, B))
  {
  }

  lemma TokensOf(w: Workflow)
    ensures Tokens(w) == IntentTokens(w.intent, |w.nodes|) + (if w.nodes == [] then 0 else LastTokens(w.nodes[|w.nodes| - 1]))
  {
  }

  /** A response arrives, or the appended node brings no token with it. */
  lemma IntentTokensFall(i: Intent, nodes: seq<Node>, input: Input, env: Env)
    requires IntentCanReact(i, nodes) && IntentReact(i, nodes, input, env).reaction.Next?
    ensures IntentTokens(i, |nodes| + 1) + LastTokens(IntentReact(i, nodes, input, env).reaction.node)
      <= IntentTokens(i, |nodes|) - (if i.IntentMigrateAccount? && nodes == [] then 1 else 0)
  {
    hide UserIDOf, IdentityOf, HasCaptchaSub, IdentityMigrateSpecs, AuthnMigrateSpecs, GetAMROf, List, FindSingleNode;
  }

  lemma NodeTokensFall(s: SimpleNode, input: Input, env: Env)
    requires NodeReact(s, input, env).reaction.Next?
    ensures LastTokens(NodeReact(s, input, env).reaction.node) == 0
  {
    hide List;
  }

  lemma FreshSize(n: Node)
    ensures n.Simple? || n.w.nodes == [] ==> NodeSize(n) == 1
  {
    if n.SubWorkflow? { assert TotalNodes(n.w) == NodesIn(n.w.nodes); }
  }

  lemma IntentGrowsOne(i: Intent, nodes: seq<Node>, input: Input, env: Env)
    requires IntentReact(i, nodes, input, env).reaction.Next?
    ensures NodeSize(IntentReact(i, nodes, input, env).reaction.node) == 1
  {
    FreshSize(IntentReact(i, nodes, input, env).reaction.node);
    hide UserIDOf, IdentityOf, HasCaptchaSub, IdentityMigrateSpecs, AuthnMigrateSpecs, GetAMROf, List, FindSingleNode;
  }

  lemma NodeGrowsOne(s: SimpleNode, input: Input, env: Env)
    requires NodeReact(s, input, env).reaction.Next?
    ensures NodeSize(NodeReact(s, input, env).reaction.node) == 1
  {
    FreshSize(NodeReact(s, input, env).reaction.node);
    hide List;
  }

  lemma CountAppended(nodes: seq<Node>, n: Node)
    ensures NodesIn(nodes + [n]) == NodesIn(nodes) + NodeSize(n)
  {
    assert (nodes + [n])[..|nodes + [n]| - 1] == nodes;
  }

  ghost predicate Shrinks(w: Workflow, v: Workflow, within: bool, B: nat) {
    && TotalNodes(v) == TotalNodes(w) + 1
    && (within ==> Potential(v, B) < Potential(w, B))
    && (Tokens(v) < Tokens(w) || (Tokens(v) == Tokens(w) && Potential(v, B) < Potential(w, B)))
  }

  lemma IntentShrinks(w: Workflow, input: Input, env: Env, B: nat)
    requires IntentCanReact(w.intent, w.nodes) && IntentReact(w.intent, w.nodes, input, env).reaction.Next?
    ensures Shrinks(w, Workflow(w.intent, w.nodes + [IntentReact(w.intent, w.nodes, input, env).reaction.node]), SpecsWithin(env, B), B)
  {
    var n := IntentReact(w.intent, w.nodes, input, env).reaction.node;
    hide IntentReact, IntentCanReact, IntentBudget;
    var v := Workflow(w.intent, w.nodes + [n]);
    CountAppended(w.nodes, n);
    IntentGrowsOne(w.intent, w.nodes, input, env);
    TokensOf(w);
    TokensOf(v);
    PotentialOf(w, B);
    PotentialOf(v, B);
    IntentTokensFall(w.intent, w.nodes, input, env);
    if SpecsWithin(env, B) || !(w.intent.IntentMigrateAccount? && w.nodes == []) {
      IntentPays(w.intent, w.nodes, input, env, B);
      assert Potential(v, B) < Potential(w, B);
    }
  }

  lemma NodeShrinks(w: Workflow, s: SimpleNode, input: Input, env: Env, B: nat)
    requires w.nodes != [] && w.nodes[|w.nodes| - 1] == Simple(s) && NodeCanReact(s, |w.nodes|)
    requires NodeReact(s, input, env).reaction.Next?
    ensures Shrinks(w, Workflow(w.intent, w.nodes + [NodeReact(s, input, env).reaction.node]), true, B)
  {
    var n := NodeReact(s, input, env).reaction.node;
    hide NodeReact, NodeCanReact, IntentBudget, NodeBudget;
    var v := Workflow(w.intent, w.nodes + [n]);
    CountAppended(w.nodes, n);
    NodeGrowsOne(s, input, env);
    NodeTokensFall(s, input, env);
    TokensOf(w);
    TokensOf(v);
    PotentialOf(w, B);
    PotentialOf(v, B);
    NodePays(s, |w.nodes|, input, env, B);
    BudgetAppended(w.intent, w.nodes, n, B);
  }

  lemma LiftShrinks(w: Workflow, sub: Workflow, grown: Workflow, within: bool, B: nat)
    requires w.nodes != [] && w.nodes[|w.nodes| - 1] == SubWorkflow(sub) && Shrinks(sub, grown, within, B)
    ensures Shrinks(w, Workflow(w.intent, w.nodes[..|w.nodes| - 1] + [SubWorkflow(grown)]), within, B)
  {
    hide IntentBudget;
    var front := w.nodes[..|w.nodes| - 1];
    var v := Workflow(w.intent, front + [SubWorkflow(grown)]);
    assert w.nodes == front + [SubWorkflow(sub)];
    CountAppended(front, SubWorkflow(sub));
    CountAppended(front, SubWorkflow(grown));
    BudgetLifted(w.intent, front, sub, grown, B);
    TokensOf(w);
    TokensOf(v);
    PotentialOf(w, B);
    PotentialOf(v, B);
  }

  /** An append adds one node and uses up budget: within the response bound the potential falls, and
      without any bound the number of responses to come or, if that stays, the potential falls. */
  lemma {:induction false} StepShrinks(w: Workflow, input: Input, env: Env, B: nat)
    requires Step(w, input, env).Appended?
    ensures Shrinks(w, Step(w, input, env).w, SpecsWithin(env, B), B)
    decreases w
  {
    hide Shrinks, IntentReact, NodeReact, IntentCanReact, NodeCanReact;
    if w.nodes != [] && LastReacts(w.nodes[|w.nodes| - 1], |w.nodes|) {
      match w.nodes[|w.nodes| - 1] {
        case Simple(s) =>
          NodeShrinks(w, s, input, env, B);
          WeakerShrinks(w, Step(w, input, env).w, SpecsWithin(env, B), B);
        case SubWorkflow(sub) =>
          StepShrinks(sub, input, env, B);
          LiftShrinks(w, sub, Step(sub, input, env).w, SpecsWithin(env, B), B);
      }
    } else {
      IntentShrinks(w, input, env, B);
    }
  }

  lemma WeakerShrinks(w: Workflow, v: Workflow, within: bool, B: nat)
    requires Shrinks(w, v, true, B)
    ensures Shrinks(w, v, within, B)
  {
  }

  /** A resend changes nothing: the node that replaces the last one is that node. */
  lemma {:induction false} KeptIsSame(w: Workflow, input: Input, env: Env)
    requires Step(w, input, env).Kept?
    ensures Step(w, input, env).w == w
    decreases w
  {
    hide IntentReact, NodeReact, IntentCanReact, NodeCanReact;
    if w.nodes != [] && LastReacts(w.nodes[|w.nodes| - 1], |w.nodes|) {
      match w.nodes[|w.nodes| - 1] {
        case Simple(s) => NodeKeeps(s, input, env);
        case SubWorkflow(sub) => KeptIsSame(sub, input, env);
      }
    } else {
      IntentNeverKeeps(w.intent, w.nodes, input, env);
    }
  }

  lemma NodeKeeps(s: SimpleNode, input: Input, env: Env)
    ensures NodeReact(s, input, env).reaction.UpdateNode? ==> NodeReact(s, input, env).reaction.node == Simple(s)
  {
    hide List;
  }

  lemma IntentNeverKeeps(i: Intent, nodes: seq<Node>, input: Input, env: Env)
    ensures !IntentReact(i, nodes, input, env).reaction.UpdateNode? && !IntentReact(i, nodes, input, env).reaction.SameNode?
  {
    hide UserIDOf, IdentityOf, HasCaptchaSub, IdentityMigrateSpecs, AuthnMigrateSpecs, GetAMROf, List, FindSingleNode;
  }
}
