/**
 The workflow engine (pkg/lib/workflow): the deepest last reactor reacts, and one request feeds the
 same input to one reactor after another until one of them stops it.
 */
module LatteEngine {
  import opened Wrappers
  import opened LatteTypes
  import opened LatteReact

  // ---------------------------------------------------------------- who reacts

  /** FindInputReactor finds somebody: the last node if it reacts, else the intent. */
  predicate CanReact(w: Workflow) {
    || IntentCanReact(w.intent, w.nodes)
    || (w.nodes != [] && LastReacts(w.nodes[|w.nodes| - 1], |w.nodes|))
  }

  predicate LastReacts(n: Node, count: nat) {
    match n
    case Simple(s) => NodeCanReact(s, count)
    case SubWorkflow(sub) => CanReact(sub)
  }

  predicate IsEOF(w: Workflow) { !CanReact(w) }

  lemma AtEof(w: Workflow)
    requires IsEOF(w)
    ensures |w.nodes| >= Arity(w.intent)
    ensures w.nodes != [] ==>
      match w.nodes[|w.nodes| - 1]
      case Simple(s) => !NodeCanReact(s, |w.nodes|)
      case SubWorkflow(sub) => IsEOF(sub)
  {
    if w.nodes != [] { assert !LastReacts(w.nodes[|w.nodes| - 1], |w.nodes|); }
  }

  // ---------------------------------------------------------------- one reaction

  /** How one round of Accept ended. */
  datatype Outcome =
    | Appended(w: Workflow, events: seq<Event>)   // a node was appended: go on with the same input
    | Kept(w: Workflow, events: seq<Event>)       // ErrSameNode or ErrUpdateNode: changed, stop
    | Refused(events: seq<Event>)                 // ErrIncompatibleInput: stop
    | Eof                                         // nobody reacts
    | Broke(why: Failure, events: seq<Event>)     // any other error

  predicate HasRunEffect(n: Node) {
    n.Simple? && (n.simple.NodeVerifiedAuthenticator? || n.simple.NodeVerifiedIdentity? || n.simple.NodeDoCreateUser?
      || n.simple.NodeDoCreateIdentity? || n.simple.NodePopulateStandardAttributes? || n.simple.NodeDoCreateAuthenticator?)
  }

  function Absorb(w: Workflow, reply: Reply, env: Env): Outcome {
    match reply.reaction
    case Next(n) =>
      if env.effectError && HasRunEffect(n) then Broke(ServiceError, reply.events)
      else Appended(Workflow(w.intent, w.nodes + [n]), reply.events)
    case UpdateNode(n) =>
      if w.nodes == [] then Broke(Panicked, reply.events)
      else Kept(Workflow(w.intent, w.nodes[..|w.nodes| - 1] + [n]), reply.events)
    case SameNode => Kept(w, reply.events)
    case Incompatible => Refused(reply.events)
    case Failed(why) => Broke(why, reply.events)
  }

  /** The reaction of the last sub-workflow seen from its parent. */
  function Lift(w: Workflow, o: Outcome): Outcome
    requires w.nodes != []
  {
    var front := w.nodes[..|w.nodes| - 1];
    match o
    case Appended(sub, events) => Appended(Workflow(w.intent, front + [SubWorkflow(sub)]), events)
    case Kept(sub, events) => Kept(Workflow(w.intent, front + [SubWorkflow(sub)]), events)
    case _ => o
  }

  function Step(w: Workflow, input: Input, env: Env): Outcome
    decreases w
  {
    if w.nodes != [] && LastReacts(w.nodes[|w.nodes| - 1], |w.nodes|) then
      match w.nodes[|w.nodes| - 1]
      case Simple(n) => Absorb(w, NodeReact(n, input, env), env)
      case SubWorkflow(sub) => Lift(w, Step(sub, input, env))
    else if IntentCanReact(w.intent, w.nodes) then Absorb(w, IntentReact(w.intent, w.nodes, input, env), env)
    else Eof
  }

  // ---------------------------------------------------------------- what a tree may still grow

  /** What the nodes a simple node appends, being last of `count`, may come to. */
  function NodeBudget(n: SimpleNode, count: nat): nat {
    if !NodeCanReact(n, count) then 0
    else if n.NodeVerifiedProof? then 1 + IntentBudget(IntentSignup(n.captcha, ""), [], 0)
    else 1
  }

  /** What an intent may still append itself, with everything below it.  `B` bounds the two lists of
      a migration response that has not arrived yet. */
  function IntentBudget(i: Intent, nodes: seq<Node>, B: nat): nat {
    var n := |nodes|;
    match i
    case IntentProtectedAuthenticate => if n == 0 then 25 else 0
    case IntentAuthenticate(_) => if n == 0 then 24 else 0
    case IntentVerifyProof(_) => if n == 0 then 23 else 0
    case IntentLogin(captcha, _, _) => if n == 0 then (if captcha then 10 else 8) else if n == 1 then 5 else if n == 2 then 2 else 0
    case IntentSignup(captcha, _) =>
      if n == 0 then (if captcha then 23 else 21) else if n == 1 then (if captcha then 22 else 20)
      else if n == 2 then 12 else if n == 3 then 4 else if n == 4 then 2 else 0
    case IntentAuthenticateOOBOTPPhone(captcha, _, _) => if captcha then (if n == 0 then 4 else if n == 1 then 2 else 0) else if n == 0 then 2 else 0
    case IntentVerifyCaptcha => if n == 0 then 1 else 0
    case IntentAuthenticateEmailLoginLink(_) => if n == 0 then 2 else 0
    case IntentAuthenticatePassword(_, _) => if n == 0 then 2 else 0
    case IntentEnsureSession(_, _, _, _) => if n == 0 then 1 else 0
    case IntentCreateLoginID(captcha, _, _, _) =>
      if n == 0 then (if captcha then 9 else 7) else if n == 1 then (if captcha then 8 else 6)
      else if n == 2 then (if captcha then 7 else 5) else if n == 3 then 2 else 0
    case IntentVerifyIdentity(captcha, _, _) => if captcha then (if n == 0 then 4 else if n == 1 then 2 else 0) else if n == 0 then 2 else 0
    case IntentCreateOOBOTPAuthenticator(_, _) => if n == 0 then 1 else 0
    case IntentCreatePassword(_, _, _) => if n == 0 then 1 else 0
    case IntentMigrate => if n == 0 then 17 + 6 * B else if n == 1 then 16 + 6 * B else if n == 2 then 12 else if n == 3 then 4 else if n == 4 then 2 else 0
    case IntentMigrateAccount(_) =>
      if n == 0 then 3 + 6 * B
      else if n == 1 then 2 + 4 * |IdentityMigrateSpecs(nodes)| + 2 * |AuthnMigrateSpecs(nodes)|
      else if n == 2 then 1 + 2 * |AuthnMigrateSpecs(nodes)| else 0
    case IntentMigrateIdentities(_, specs) => if n < |specs| then 4 * (|specs| - n) else 0
    case IntentMigrateAuthenticators(_, specs) => if n < |specs| then 2 * (|specs| - n) else 0
    case IntentMigrateLoginID(_, _) => if n < 3 then 3 - n else 0
    case IntentMigrateOOBOTPAuthenticator(_, _, _) => if n == 0 then 1 else 0
    case IntentReauthenticate(_) => if n == 0 then 5 else if n == 1 then 2 else 0
  }

  function Potential(w: Workflow, B: nat): nat {
    IntentBudget(w.intent, w.nodes, B) + (if w.nodes == [] then 0 else LastBudget(w.nodes[|w.nodes| - 1], |w.nodes|, B))
  }

  function LastBudget(n: Node, count: nat, B: nat): nat {
    match n
    case Simple(s) => NodeBudget(s, count)
    case SubWorkflow(sub) => Potential(sub, B)
  }

  /** Migration responses still to come: each may add any number of nodes to the budget. */
  function Tokens(w: Workflow): nat {
    (match w.intent
     case IntentMigrate => if |w.nodes| <= 1 then 1 else 0
     case IntentMigrateAccount(_) => if |w.nodes| == 0 then 1 else 0
     case _ => 0)
    + (if w.nodes == [] then 0 else LastTokens(w.nodes[|w.nodes| - 1]))
  }

  function LastTokens(n: Node): nat {
    match n
    case Simple(_) => 0
    case SubWorkflow(sub) => Tokens(sub)
  }

  function TotalNodes(w: Workflow): nat { NodesIn(w.nodes) }

  function NodesIn(nodes: seq<Node>): nat {
    if nodes == [] then 0 else NodesIn(nodes[..|nodes| - 1]) + NodeSize(nodes[|nodes| - 1])
  }

  function NodeSize(n: Node): nat {
    match n
    case Simple(_) => 1
    case SubWorkflow(sub) => 1 + TotalNodes(sub)
  }
}
