/** Every step of every run keeps `Good`. */
module LattePreserved {
  import opened Wrappers
  import opened LatteTypes
  import opened LatteReact
  import opened LatteEngine
  import opened LatteService
  import opened LatteInvariant
  import opened LatteBound

  /** The node a reaction brings fits in the next place. */
  ghost predicate Fits(i: Intent, nodes: seq<Node>, reply: Reply, later: seq<Round>) {
    reply.reaction.Next? ==>
      && SlotOk(i, nodes, reply.reaction.node, later)
      && (reply.reaction.node.SubWorkflow? ==> reply.reaction.node.w.nodes == [] && IntentOk(reply.reaction.node.w.intent, later))
  }

  ghost predicate Slotted(i: Intent, nodes: seq<Node>, log: seq<Round>) {
    forall k :: 0 <= k < |nodes| ==> SlotOk(i, nodes[..k], nodes[k], log)
  }

  // ---------------------------------------------------------------- intents

  lemma LoginFits(i: Intent, nodes: seq<Node>, input: Input, env: Env, later: seq<Round>)
    requires i.IntentLogin? && |nodes| < 3
    ensures Fits(i, nodes, IntentReact(i, nodes, input, env), later)
  {
    hide KeepPrimaryAuthenticatorOfIdentity, GetAMROf, List;
    FirstListed(env, i.identity.userID, (a: Authn) => KeepPrimaryAuthenticatorOfIdentity(i.identity, a) && a.typ == OOBSMS);
    FirstListed(env, i.identity.userID, (a: Authn) => a.kind == Primary && a.typ == OOBEmail);
  }

  lemma FirstListed(env: Env, userID: string, keep: Authn -> bool)
    ensures List(env, userID, keep) != [] ==> List(env, userID, keep)[0].userID == userID && keep(List(env, userID, keep)[0])
  {
    if List(env, userID, keep) != [] { assert List(env, userID, keep)[0] in List(env, userID, keep); }
  }

  lemma PhoneFits(i: Intent, nodes: seq<Node>, input: Input, env: Env, log: seq<Round>, later: seq<Round>)
    requires i.IntentAuthenticateOOBOTPPhone? && IntentCanReact(i, nodes) && Slotted(i, nodes, log)
    ensures Fits(i, nodes, IntentReact(i, nodes, input, env), later)
  {
    if nodes != [] {
      assert SlotOk(i, nodes[..0], nodes[0], log);
      assert HasCaptchaSub(nodes);
      assert nodes[1..] == [];
    }
  }

  lemma AuthenticateFits(i: Intent, nodes: seq<Node>, input: Input, env: Env, later: seq<Round>)
    requires i.IntentProtectedAuthenticate? || i.IntentAuthenticate? || i.IntentVerifyProof? || i.IntentVerifyCaptcha?
      || i.IntentAuthenticateEmailLoginLink? || i.IntentAuthenticatePassword?
    requires IntentCanReact(i, nodes)
    requires forall e :: e in IntentReact(i, nodes, input, env).events ==> Happened(later, e)
    ensures Fits(i, nodes, IntentReact(i, nodes, input, env), later)
  {
    hide Happened;
  }

  lemma SessionFits(i: Intent, nodes: seq<Node>, input: Input, env: Env, later: seq<Round>)
    requires i.IntentEnsureSession? || i.IntentReauthenticate?
    requires IntentCanReact(i, nodes)
    ensures Fits(i, nodes, IntentReact(i, nodes, input, env), later)
  {
    hide GetAMROf;
  }

  lemma SignupFits(i: Intent, nodes: seq<Node>, input: Input, env: Env, log: seq<Round>, later: seq<Round>)
    requires i.IntentSignup? || i.IntentMigrate?
    requires IntentCanReact(i, nodes) && Slotted(i, nodes, log)
    ensures Fits(i, nodes, IntentReact(i, nodes, input, env), later)
  {
    if nodes != [] {
      assert SlotOk(i, nodes[..0], nodes[0], log);
      assert CreatedUser(nodes);
    }
  }

  lemma LoginIDFits(i: Intent, nodes: seq<Node>, input: Input, env: Env, log: seq<Round>, later: seq<Round>)
    requires i.IntentCreateLoginID? || i.IntentMigrateLoginID?
    requires IntentCanReact(i, nodes) && Slotted(i, nodes, log)
    requires forall e :: e in IntentReact(i, nodes, input, env).events ==> Happened(later, e)
    ensures Fits(i, nodes, IntentReact(i, nodes, input, env), later)
  {
    hide Happened;
    if nodes != [] {
      assert SlotOk(i, nodes[..0], nodes[0], log);
      assert CreatedIdentity(nodes);
    }
  }

  lemma VerifyFits(i: Intent, nodes: seq<Node>, input: Input, env: Env, log: seq<Round>, later: seq<Round>)
    requires i.IntentVerifyIdentity?
    requires IntentCanReact(i, nodes) && Slotted(i, nodes, log)
    ensures Fits(i, nodes, IntentReact(i, nodes, input, env), later)
  {
    if nodes != [] { assert SlotOk(i, nodes[..0], nodes[0], log); }
  }

  lemma CreateFits(i: Intent, nodes: seq<Node>, input: Input, env: Env, later: seq<Round>)
    requires i.IntentCreateOOBOTPAuthenticator? || i.IntentCreatePassword? || i.IntentMigrateIdentities?
      || i.IntentMigrateAuthenticators?
      || i.IntentMigrateOOBOTPAuthenticator?
    requires IntentCanReact(i, nodes)
    requires forall e :: e in IntentReact(i, nodes, input, env).events ==> Happened(later, e)
    ensures Fits(i, nodes, IntentReact(i, nodes, input, env), later)
  {
    hide Happened;
  }

  lemma MigrateAccountFits(i: Intent, nodes: seq<Node>, input: Input, env: Env, log: seq<Round>, later: seq<Round>)
    requires i.IntentMigrateAccount?
    requires IntentCanReact(i, nodes) && Slotted(i, nodes, log)
    ensures Fits(i, nodes, IntentReact(i, nodes, input, env), later)
  {
    if nodes != [] { assert SlotOk(i, nodes[..0], nodes[0], log); }
  }

  lemma IntentFits(i: Intent, nodes: seq<Node>, input: Input, env: Env, log: seq<Round>, later: seq<Round>)
    requires IntentCanReact(i, nodes) && Slotted(i, nodes, log)
    requires forall e :: e in IntentReact(i, nodes, input, env).events ==> Happened(later, e)
    ensures Fits(i, nodes, IntentReact(i, nodes, input, env), later)
  {
    hide Fits, Slotted, IntentReact, Happened;
    match i {
      case IntentLogin(_, _, _) => LoginFits(i, nodes, input, env, later);
      case IntentAuthenticateOOBOTPPhone(_, _, _) => PhoneFits(i, nodes, input, env, log, later);
      case IntentEnsureSession(_, _, _, _) => SessionFits(i, nodes, input, env, later);
      case IntentReauthenticate(_) => SessionFits(i, nodes, input, env, later);
      case IntentSignup(_, _) => SignupFits(i, nodes, input, env, log, later);
      case IntentMigrate => SignupFits(i, nodes, input, env, log, later);
      case IntentCreateLoginID(_, _, _, _) => LoginIDFits(i, nodes, input, env, log, later);
      case IntentMigrateLoginID(_, _) => LoginIDFits(i, nodes, input, env, log, later);
      case IntentVerifyIdentity(_, _, _) => VerifyFits(i, nodes, input, env, log, later);
      case IntentMigrateAccount(_) => MigrateAccountFits(i, nodes, input, env, log, later);
      case IntentCreateOOBOTPAuthenticator(_, _) => CreateFits(i, nodes, input, env, later);
      case IntentCreatePassword(_, _, _) => CreateFits(i, nodes, input, env, later);
      case IntentMigrateIdentities(_, _) => CreateFits(i, nodes, input, env, later);
      case IntentMigrateAuthenticators(_, _) => CreateFits(i, nodes, input, env, later);
      case IntentMigrateOOBOTPAuthenticator(_, _, _) => CreateFits(i, nodes, input, env, later);
      case _ => AuthenticateFits(i, nodes, input, env, later);
    }
  }

  // ---------------------------------------------------------------- nodes

  /** A node that still reacts tells in which intent it stands. */
  lemma NodeFits(i: Intent, front: seq<Node>, s: SimpleNode, input: Input, env: Env, log: seq<Round>, later: seq<Round>)
    requires SlotOk(i, front, Simple(s), log) && NodeCanReact(s, |front| + 1)
    requires Extends(log, later, NodeReact(s, input, env).events)
    ensures Fits(i, front + [Simple(s)], NodeReact(s, input, env), later)
  {
    hide Happened, Fits, SlotOk, NodeReact;
    match s {
      case NodeAuthenticateOOBOTPPhone(_) => PhoneNodeFits(i, front, s, input, env, log, later);
      case NodeAuthenticateEmailLoginLink(_) => LinkNodeFits(i, front, s, input, env, log, later);
      case NodeAuthenticatePassword(userID, kind) =>
        PasswordNodeIn(i, front, s, log);
        assert front + [Simple(s)] == [Simple(s)];
        PasswordFits(i, s, input, env, later);
      case NodeVerifiedProof(_, _) => ProofFits(i, front, s, input, env, log, later);
      case _ => VerifyNodeFits(i, front, s, input, env, log, later);
    }
  }

  lemma PasswordNodeIn(i: Intent, front: seq<Node>, s: SimpleNode, log: seq<Round>)
    requires SlotOk(i, front, Simple(s), log) && s.NodeAuthenticatePassword?
    ensures i == IntentAuthenticatePassword(s.userID, s.kind) && front == []
  {
    hide Happened;
  }

  lemma PhoneNodeFits(i: Intent, front: seq<Node>, s: SimpleNode, input: Input, env: Env, log: seq<Round>, later: seq<Round>)
    requires SlotOk(i, front, Simple(s), log) && s.NodeAuthenticateOOBOTPPhone?
    requires Extends(log, later, NodeReact(s, input, env).events)
    ensures Fits(i, front + [Simple(s)], NodeReact(s, input, env), later)
  {
    hide Happened;
    assert i.IntentAuthenticateOOBOTPPhone?;
  }

  lemma LinkNodeFits(i: Intent, front: seq<Node>, s: SimpleNode, input: Input, env: Env, log: seq<Round>, later: seq<Round>)
    requires SlotOk(i, front, Simple(s), log) && s.NodeAuthenticateEmailLoginLink?
    requires Extends(log, later, NodeReact(s, input, env).events)
    ensures Fits(i, front + [Simple(s)], NodeReact(s, input, env), later)
  {
    hide Happened;
    assert i.IntentAuthenticateEmailLoginLink?;
  }

  lemma VerifyNodeFits(i: Intent, front: seq<Node>, s: SimpleNode, input: Input, env: Env, log: seq<Round>, later: seq<Round>)
    requires SlotOk(i, front, Simple(s), log)
    requires s.NodeVerifyPhoneSMS? || s.NodeVerifyEmail?
    requires forall e :: e in NodeReact(s, input, env).events ==> Happened(later, e)
    ensures Fits(i, front + [Simple(s)], NodeReact(s, input, env), later)
  {
    hide Happened;
    assert i.IntentVerifyIdentity?;
    assert (front + [Simple(s)])[|front|] == Simple(s);
  }

  lemma PasswordFits(i: Intent, s: SimpleNode, input: Input, env: Env, later: seq<Round>)
    requires s.NodeAuthenticatePassword? && i == IntentAuthenticatePassword(s.userID, s.kind)
    requires forall e :: e in NodeReact(s, input, env).events ==> Happened(later, e)
    ensures Fits(i, [Simple(s)], NodeReact(s, input, env), later)
  {
    hide Happened, List;
    FirstListed(env, s.userID, (a: Authn) => a.kind == s.kind && a.typ == Password);
  }

  lemma ProofFits(i: Intent, front: seq<Node>, s: SimpleNode, input: Input, env: Env, log: seq<Round>, later: seq<Round>)
    requires SlotOk(i, front, Simple(s), log) && NodeCanReact(s, |front| + 1) && s.NodeVerifiedProof?
    requires Extends(log, later, NodeReact(s, input, env).events)
    ensures Fits(i, front + [Simple(s)], NodeReact(s, input, env), later)
  {
    hide Happened;
    assert i.IntentVerifyProof? && front == [];
    assert Happened(later, ProofAccepted(i.proof, s.spec));
  }

  // ---------------------------------------------------------------- the whole tree

  lemma SlotStays(i: Intent, before: seq<Node>, n: Node, log: seq<Round>, later: seq<Round>)
    requires SlotOk(i, before, n, log)
    requires forall e :: Happened(log, e) ==> Happened(later, e)
    ensures SlotOk(i, before, n, later)
  {
    hide Happened, SignupSlot, MigrateSlot, LoginSlot, GetAMROf, EnsureSlot, ReauthenticateSlot,
      MigrateAccountSlot;
  }

  lemma IntentStays(i: Intent, log: seq<Round>, later: seq<Round>)
    requires IntentOk(i, log)
    requires forall e :: Happened(log, e) ==> Happened(later, e)
    ensures IntentOk(i, later)
  {
    hide Happened;
  }

  lemma {:induction false} GoodStays(w: Workflow, log: seq<Round>, later: seq<Round>)
    requires Good(w, log)
    requires forall e :: Happened(log, e) ==> Happened(later, e)
    ensures Good(w, later)
    decreases w
  {
    hide SlotOk, IntentOk, Happened, IsEOF;
    IntentStays(w.intent, log, later);
    forall k | 0 <= k < |w.nodes| ensures SlotOk(w.intent, w.nodes[..k], w.nodes[k], later) {
      SlotStays(w.intent, w.nodes[..k], w.nodes[k], log, later);
    }
    forall k | 0 <= k < |w.nodes| && w.nodes[k].SubWorkflow? ensures Good(w.nodes[k].w, later) {
      GoodStays(w.nodes[k].w, log, later);
    }
  }

  /** A good tree whose last node reacts no more, and a fitting node, make a good tree. */
  lemma GoodAppended(w: Workflow, n: Node, log: seq<Round>)
    requires Good(w, log) && SlotOk(w.intent, w.nodes, n, log)
    requires n.SubWorkflow? ==> n.w.nodes == [] && IntentOk(n.w.intent, log)
    requires w.nodes != [] && w.nodes[|w.nodes| - 1].SubWorkflow? ==> IsEOF(w.nodes[|w.nodes| - 1].w)
    ensures Good(Workflow(w.intent, w.nodes + [n]), log)
  {
    hide SlotOk, IntentOk, IsEOF;
    var nodes := w.nodes + [n];
    forall k | 0 <= k < |nodes| ensures SlotOk(w.intent, nodes[..k], nodes[k], log) {
      assert nodes[..k] == w.nodes[..k];
      assert w.nodes[..|w.nodes|] == w.nodes;
    }
    if n.SubWorkflow? { assert Good(n.w, log); }
  }

  /** The last sub-workflow may grow: its place asks only for its intent. */
  lemma GoodLifted(w: Workflow, grown: Workflow, log: seq<Round>)
    requires Good(w, log) && Good(grown, log)
    requires w.nodes != [] && w.nodes[|w.nodes| - 1].SubWorkflow? && w.nodes[|w.nodes| - 1].w.intent == grown.intent
    ensures Good(Workflow(w.intent, w.nodes[..|w.nodes| - 1] + [SubWorkflow(grown)]), log)
  {
    hide IntentOk, IsEOF, SlotOk;
    var last := |w.nodes| - 1;
    var nodes := w.nodes[..last] + [SubWorkflow(grown)];
    forall k | 0 <= k < |nodes| ensures SlotOk(w.intent, nodes[..k], nodes[k], log) {
      assert nodes[..k] == w.nodes[..k];
      if k == last { SameIntentFits(w.intent, nodes[..k], w.nodes[k].w, grown, log); }
    }
  }

  lemma SameIntentFits(i: Intent, before: seq<Node>, a: Workflow, b: Workflow, log: seq<Round>)
    requires SlotOk(i, before, SubWorkflow(a), log) && a.intent == b.intent
    ensures SlotOk(i, before, SubWorkflow(b), log)
  {
    hide Happened, GetAMROf;
  }

  lemma SlottedOf(w: Workflow, log: seq<Round>)
    requires Good(w, log)
    ensures Slotted(w.intent, w.nodes, log)
  {
    hide SlotOk, IntentOk, IsEOF;
  }

  lemma IntentKeepsGood(w: Workflow, input: Input, env: Env, log: seq<Round>, later: seq<Round>)
    requires Good(w, log) && IntentCanReact(w.intent, w.nodes)
    requires w.nodes != [] ==> !LastReacts(w.nodes[|w.nodes| - 1], |w.nodes|)
    requires Extends(log, later, IntentReact(w.intent, w.nodes, input, env).events)
    requires IntentReact(w.intent, w.nodes, input, env).reaction.Next?
    ensures Good(Workflow(w.intent, w.nodes + [IntentReact(w.intent, w.nodes, input, env).reaction.node]), later)
  {
    hide IntentReact, SlotOk, IntentOk, Happened, IntentCanReact, Good, Slotted;
    SlottedOf(w, log);
    IntentFits(w.intent, w.nodes, input, env, log, later);
    GoodStays(w, log, later);
    GoodAppended(w, IntentReact(w.intent, w.nodes, input, env).reaction.node, later);
  }

  lemma NodeKeepsGood(w: Workflow, s: SimpleNode, input: Input, env: Env, log: seq<Round>, later: seq<Round>)
    requires Good(w, log) && w.nodes != [] && w.nodes[|w.nodes| - 1] == Simple(s) && NodeCanReact(s, |w.nodes|)
    requires Extends(log, later, NodeReact(s, input, env).events)
    requires NodeReact(s, input, env).reaction.Next?
    ensures Good(Workflow(w.intent, w.nodes + [NodeReact(s, input, env).reaction.node]), later)
  {
    hide NodeReact, SlotOk, IntentOk, Happened, NodeCanReact;
    var front := w.nodes[..|w.nodes| - 1];
    assert w.nodes == front + [Simple(s)];
    NodeFits(w.intent, front, s, input, env, log, later);
    GoodStays(w, log, later);
    GoodAppended(w, NodeReact(s, input, env).reaction.node, later);
  }

  /** One step of any tree. */
  lemma {:induction false} StepKeepsGood(w: Workflow, input: Input, env: Env, log: seq<Round>, later: seq<Round>)
    requires Good(w, log) && Step(w, input, env).Appended?
    requires Extends(log, later, Step(w, input, env).events)
    ensures Good(Step(w, input, env).w, later) && Step(w, input, env).w.intent == w.intent
    decreases w
  {
    hide IntentReact, NodeReact, SlotOk, IntentOk, Happened, IntentCanReact, NodeCanReact;
    if w.nodes != [] && LastReacts(w.nodes[|w.nodes| - 1], |w.nodes|) {
      match w.nodes[|w.nodes| - 1] {
        case Simple(s) => NodeKeepsGood(w, s, input, env, log, later);
        case SubWorkflow(sub) =>
          StepKeepsGood(sub, input, env, log, later);
          GoodStays(w, log, later);
          GoodLifted(w, Step(sub, input, env).w, later);
      }
    } else {
      IntentKeepsGood(w, input, env, log, later);
    }
  }

  // ---------------------------------------------------------------- runs

  lemma HappenedBefore(log: seq<Round>, more: seq<Round>)
    ensures forall e :: Happened(log, e) ==> Happened(log + more, e)
  {
    forall e | Happened(log, e) ensures Happened(log + more, e) {
      var k :| 0 <= k < |log| && e in log[k].events;
      assert e in (log + more)[k].events;
    }
  }

  lemma {:induction false} AcceptKeepsGood(w: Workflow, input: Input, envs: nat -> Env, i: nat, log: seq<Round>)
    requires Good(w, log)
    ensures Good(AcceptRun(w, input, envs, i).w, log + AcceptRun(w, input, envs, i).log)
    ensures AcceptRun(w, input, envs, i).w.intent == w.intent
    decreases Tokens(w), Potential(w, 0)
  {
    hide Good, Step, Tokens, Potential, Happened;
    var env := envs(i);
    var o := Step(w, input, env);
    match o {
      case Appended(v, events) =>
        StepShrinks(w, input, env, 0);
        var later := log + [Round(w, input, env, events)];
        LogExtends(log, Round(w, input, env, events));
        StepKeepsGood(w, input, env, log, later);
        AcceptKeepsGood(v, input, envs, i + 1, later);
        assert later + AcceptRun(v, input, envs, i + 1).log == log + AcceptRun(w, input, envs, i).log;
      case Kept(_, _) =>
        KeptIsSame(w, input, env);
        HappenedBefore(log, AcceptRun(w, input, envs, i).log);
        GoodStays(w, log, log + AcceptRun(w, input, envs, i).log);
      case _ =>
        HappenedBefore(log, AcceptRun(w, input, envs, i).log);
        GoodStays(w, log, log + AcceptRun(w, input, envs, i).log);
    }
  }

  /** Every stored instance is good and grows from the same root intent; a committed tree is a finished
      one of them. */
  ghost predicate GoodSession(root: Intent, s: Session) {
    && (forall k :: 0 <= k < |s.instances| ==> s.instances[k].intent == root && Good(s.instances[k], s.log))
    && (forall k :: 0 <= k < |s.commits| ==> s.commits[k] in s.instances && IsEOF(s.commits[k]))
  }

  lemma {:induction false} EndsAtEof(w: Workflow, input: Input, envs: nat -> Env, i: nat)
    requires AcceptRun(w, input, envs, i).ending.EndOfFlow?
    ensures IsEOF(AcceptRun(w, input, envs, i).w)
    decreases Tokens(w), Potential(w, 0)
  {
    hide Tokens, Potential, CanReact;
    var o := Step(w, input, envs(i));
    if o.Appended? {
      StepShrinks(w, input, envs(i), 0);
      EndsAtEof(o.w, input, envs, i + 1);
    } else {
      OnlyEofIsEof(w, input, envs(i));
    }
  }

  lemma {:induction false} OnlyEofIsEof(w: Workflow, input: Input, env: Env)
    ensures Step(w, input, env).Eof? <==> IsEOF(w)
    decreases w
  {
    hide IntentReact, NodeReact, IntentCanReact, NodeCanReact;
    if w.nodes != [] && LastReacts(w.nodes[|w.nodes| - 1], |w.nodes|) && w.nodes[|w.nodes| - 1].SubWorkflow? {
      OnlyEofIsEof(w.nodes[|w.nodes| - 1].w, input, env);
    }
  }

  lemma StoreKeepsGood(root: Intent, s: Session, w: Workflow, input: Input, envs: nat -> Env, persist: bool, f: Faults)
    requires GoodSession(root, s) && Good(w, s.log) && w.intent == root
    ensures GoodSession(root, Store(s, AcceptRun(w, input, envs, 0), persist, f))
  {
    hide Good, AcceptRun, Happened, IsEOF;
    var a := AcceptRun(w, input, envs, 0);
    var t := Store(s, a, persist, f);
    HappenedBefore(s.log, a.log);
    AcceptKeepsGood(w, input, envs, 0, s.log);
    forall k | 0 <= k < |s.instances| ensures Good(s.instances[k], t.log) { GoodStays(s.instances[k], s.log, t.log); }
    if a.ending.EndOfFlow? { EndsAtEof(w, input, envs, 0); }
  }

  lemma OpenedIsGood(root: Intent, envs: nat -> Env, f: Faults)
    requires IsPublic(root)
    ensures GoodSession(root, Opened(root, envs, f))
  {
    hide AcceptRun;
    StoreKeepsGood(root, Session([], [], [], false), Workflow(root, []), Nothing, envs,
      !AcceptRun(Workflow(root, []), Nothing, envs, 0).ending.Error?, f);
  }

  lemma {:induction false} ReplayKeepsGood(root: Intent, s: Session, requests: seq<Request>)
    requires GoodSession(root, s)
    ensures GoodSession(root, Replay(s, requests))
  {
    hide Good, AcceptRun;
    if requests != [] {
      var before := Replay(s, requests[..|requests| - 1]);
      var r := requests[|requests| - 1];
      ReplayKeepsGood(root, s, requests[..|requests| - 1]);
      if !before.closed && r.instance < |before.instances| {
        StoreKeepsGood(root, before, before.instances[r.instance], r.input, r.envs, Persists(AcceptRun(before.instances[r.instance], r.input, r.envs, 0)), r.faults);
      }
    }
  }

  /** In every reachable session of a public intent, every instance is good, and every committed tree a finished
      one of them. */
  lemma ReachableIsGood(root: Intent, s: Session)
    requires IsPublic(root) && ReachableFrom(root, s)
    ensures GoodSession(root, s)
  {
    hide Good, AcceptRun;
    var envs, f, requests :| s == Replay(Opened(root, envs, f), requests);
    OpenedIsGood(root, envs, f);
    ReplayKeepsGood(root, Opened(root, envs, f), requests);
  }

  lemma CommittedIsGood(root: Intent, s: Session, k: nat)
    requires IsPublic(root) && ReachableFrom(root, s) && k < |s.commits|
    ensures Good(s.commits[k], s.log) && IsEOF(s.commits[k]) && s.commits[k].intent == root
  {
    hide Good, IsEOF, ReachableFrom;
    ReachableIsGood(root, s);
    var j :| 0 <= j < |s.instances| && s.instances[j] == s.commits[k];
  }
}
