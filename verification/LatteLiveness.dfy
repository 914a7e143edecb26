/**
 No flow is stuck.

 A stored instance stands where some input is asked for.  Whatever instance of whatever run a client
 holds, as long as its session is open, there are requests that end it: one that feeds the instance,
 then one after another that feed the newest, until the flow is committed.
 */
module LatteLiveness {
  import opened Wrappers
  import opened LatteTypes
  import opened LatteReact
  import opened LatteEngine
  import opened LatteBound
  import opened LatteRules
  import opened LatteObeys
  import opened LatteRounds
  import opened LatteService
  import opened LatteInvariant
  import opened LattePreserved
  import opened LatteRuns
  import opened LatteLogin

  // ---------------------------------------------------------------- stored instances wait

  /** The reactor asks for an input. */
  predicate IsWaiting(r: Reactor) { !Takes(r, Nothing) }

  /** The flow has ended, or its reactor asks for an input. */
  predicate Rests(w: Workflow) { ReactorOf(w).Some? ==> IsWaiting(ReactorOf(w).value) }

  lemma RefusesIsWaiting(r: Reactor, input: Input)
    requires !Takes(r, input)
    ensures IsWaiting(r)
  {
  }

  lemma ResendsIsWaiting(r: Reactor, input: Input, env: Env)
    requires Resends(r, input, env)
    ensures IsWaiting(r)
  {
  }

  lemma AcceptedRests(w: Workflow, input: Input, envs: nat -> Env)
    ensures var a := AcceptRun(w, input, envs, 0); !a.ending.Error? ==> Rests(a.w)
  {
    hide AcceptRun, IsChain, IsWaiting, Takes, Resends, ReactorOf;
    AcceptIsChain(w, input, envs, 0);
    var a := AcceptRun(w, input, envs, 0);
    var last := a.log[|a.log| - 1];
    if Stays(last) { ResendsIsWaiting(ReactorOf(last.at).value, last.input, last.env); }
    if Refuses(last) { RefusesIsWaiting(ReactorOf(last.at).value, last.input); }
  }

  ghost predicate AllRest(s: Session) { forall k :: 0 <= k < |s.instances| ==> Rests(s.instances[k]) }

  lemma {:induction false} ReplayRests(root: Intent, envs: nat -> Env, f: Faults, requests: seq<Request>)
    ensures AllRest(Replay(Opened(root, envs, f), requests))
  {
    hide AcceptRun, Rests;
    if requests == [] {
      AcceptedRests(Workflow(root, []), Nothing, envs);
    } else {
      ReplayRests(root, envs, f, requests[..|requests| - 1]);
      var s := Replay(Opened(root, envs, f), requests[..|requests| - 1]);
      var r := requests[|requests| - 1];
      if !s.closed && !r.faults.find && r.instance < |s.instances| { AcceptedRests(s.instances[r.instance], r.input, r.envs); }
    }
  }

  // ---------------------------------------------------------------- no dead ends

  /** Intents that some answer takes further. */
  predicate SaneIntent(i: Intent) {
    match i
    case IntentLogin(_, identity, _) => identity.loginIDType == Phone
    case IntentAuthenticateOOBOTPPhone(_, a, _) => HasTarget(a)
    case IntentAuthenticateEmailLoginLink(a) => HasTarget(a)
    case IntentCreateLoginID(_, _, t, _) => t != Username
    case IntentVerifyIdentity(_, identity, _) => identity.loginIDType != Username
    case IntentCreateOOBOTPAuthenticator(identity, _) => identity.loginIDType != Username
    case IntentMigrateIdentities(_, specs) => forall k :: 0 <= k < |specs| ==> specs[k].isLoginID
    case IntentMigrateAuthenticators(_, specs) => forall k :: 0 <= k < |specs| ==> specs[k].typ == OOBEmail || specs[k].typ == OOBSMS
    case IntentReauthenticate(hint) => hint != ""
    case _ => true
  }

  /** A migration response that the account can be made of. */
  predicate SaneNode(n: Node) {
    n.Simple? && n.simple.NodeMigrateAccount? ==>
      && (forall k :: 0 <= k < |n.simple.identitySpecs| ==> n.simple.identitySpecs[k].isLoginID)
      && (forall k :: 0 <= k < |n.simple.authnSpecs| ==> n.simple.authnSpecs[k].typ == OOBEmail || n.simple.authnSpecs[k].typ == OOBSMS)
  }

  predicate SaneAt(i: Intent, nodes: seq<Node>) { SaneIntent(i) && (nodes != [] ==> SaneNode(nodes[0])) }

  /** Nothing on the way to the reactor is a dead end. */
  predicate Sane(w: Workflow)
    decreases w
  {
    && SaneAt(w.intent, w.nodes)
    && (w.nodes != [] && w.nodes[|w.nodes| - 1].SubWorkflow? && ReactorOf(w.nodes[|w.nodes| - 1].w).Some? ==> Sane(w.nodes[|w.nodes| - 1].w))
  }

  predicate NeverAsks(i: Intent) {
    i.IntentMigrateIdentities? || i.IntentMigrateAuthenticators? || i.IntentMigrateLoginID? || i.IntentMigrateOOBOTPAuthenticator?
  }

  lemma NeverAskedPlace(v: Workflow, log: seq<Round>)
    requires Good(v, log) && NeverAsks(v.intent) && v.nodes != []
    ensures match v.nodes[|v.nodes| - 1]
      case Simple(s) => !Asks(s, |v.nodes|)
      case SubWorkflow(sub) => NeverAsks(sub.intent)
  {
    hide Good, Happened;
    PlaceOk(v, |v.nodes| - 1, log);
  }

  lemma {:induction false} MigrationsNeverWait(v: Workflow, log: seq<Round>)
    requires Good(v, log) && NeverAsks(v.intent) && ReactorOf(v).Some?
    ensures !IsWaiting(ReactorOf(v).value)
    decreases v
  {
    hide Good, Asks, HasStep;
    if v.nodes != [] {
      var last := |v.nodes| - 1;
      NeverAskedPlace(v, log);
      PlaceOk(v, last, log);
      if v.nodes[last].SubWorkflow? && ReactorOf(v.nodes[last].w).Some? { MigrationsNeverWait(v.nodes[last].w, log); }
    }
  }

  /** The sub-workflow in which a good, sane tree waits is sane. */
  lemma ChildIsSane(w: Workflow, log: seq<Round>)
    requires Good(w, log) && SaneIntent(w.intent) && w.nodes != [] && w.nodes[|w.nodes| - 1].SubWorkflow?
    requires var sub := w.nodes[|w.nodes| - 1].w; ReactorOf(sub).Some? && IsWaiting(ReactorOf(sub).value)
    ensures SaneIntent(w.nodes[|w.nodes| - 1].w.intent)
  {
    hide Good, Happened, GetAMROf, CodeWasAccepted, CaptchaWasPassed;
    var last := |w.nodes| - 1;
    var sub := w.nodes[last].w;
    PlaceOk(w, last, log);
    PlaceOk(w, 0, log);
    if NeverAsks(sub.intent) { MigrationsNeverWait(sub, log); }
    if sub.intent.IntentLogin? { WaitingLoginHasPhone(sub, log); }
  }

  lemma WaitingLoginHasPhone(w: Workflow, log: seq<Round>)
    requires Good(w, log) && w.intent.IntentLogin? && ReactorOf(w).Some? && IsWaiting(ReactorOf(w).value)
    ensures w.intent.identity.loginIDType == Phone
  {
    hide Good, Happened, GetAMROf;
    if w.nodes != [] { PlaceOk(w, 0, log); }
  }

  lemma MigrateAccountWaitsAtFirst(w: Workflow, log: seq<Round>)
    requires Good(w, log) && w.intent.IntentMigrateAccount? && ReactorOf(w).Some? && IsWaiting(ReactorOf(w).value)
    ensures w.nodes == []
  {
    hide Good;
    if w.nodes != [] {
      var last := |w.nodes| - 1;
      PlaceOk(w, 0, log);
      PlaceOk(w, last, log);
      if last > 0 && ReactorOf(w.nodes[last].w).Some? { MigrationsNeverWait(w.nodes[last].w, log); }
    }
  }

  lemma OnlyMigrateAccountHoldsSpecs(w: Workflow, log: seq<Round>)
    requires Good(w, log) && w.nodes != [] && !w.intent.IntentMigrateAccount?
    ensures SaneNode(w.nodes[0])
  {
    hide Good, Happened;
    PlaceOk(w, 0, log);
  }

  lemma {:induction false} WaitingIsSane(w: Workflow, log: seq<Round>)
    requires Good(w, log) && SaneIntent(w.intent) && ReactorOf(w).Some? && IsWaiting(ReactorOf(w).value)
    ensures Sane(w)
    decreases w
  {
    hide Good, IsWaiting, SaneIntent, SaneNode, Asks, HasStep;
    if w.intent.IntentMigrateAccount? { MigrateAccountWaitsAtFirst(w, log); } else if w.nodes != [] { OnlyMigrateAccountHoldsSpecs(w, log); }
    if w.nodes != [] && w.nodes[|w.nodes| - 1].SubWorkflow? && ReactorOf(w.nodes[|w.nodes| - 1].w).Some? {
      ChildIsSane(w, log);
      PlaceOk(w, |w.nodes| - 1, log);
      WaitingIsSane(w.nodes[|w.nodes| - 1].w, log);
    }
  }

  // ---------------------------------------------------------------- answers that take a reactor further

  /** The authenticators stored for it. */
  function Stored(r: Reactor): seq<Authn> {
    match r
    case ByNode(n) => if n.NodeAuthenticatePassword? then [Authn("", n.userID, Password, n.kind, false, "", "")] else []
    case ByIntent(i, nodes) =>
      if !i.IntentLogin? then []
      else if nodes == [] then [Authn("", i.identity.userID, OOBSMS, Primary, false, "", i.identity.loginID)]
      else [Authn("", i.identity.userID, OOBEmail, Primary, false, "", "")]
  }

  /** Nothing fails, whatever is shown is right, and a phone identity is found. */
  function GoodAnswers(r: Reactor): Env {
    Env(false, Some(Identity("", "", Phone, "")), Stored(r), true, Spec(""), false, false, false, false,
        Some(Status(false, true, true)), "", "", false, [], [], false, "", None, false)
  }

  ghost predicate GoesFurther(r: Reactor, input: Input) {
    var reaction := ReplyOf(r, input, GoodAnswers(r)).reaction;
    reaction.Next? && SaneNode(reaction.node) && (reaction.node.SubWorkflow? ==> reaction.node.w.nodes == [] && SaneIntent(reaction.node.w.intent))
  }

  lemma NodesGoFurther(n: SimpleNode, input: Input)
    requires Asks(n, 1) && Takes(ByNode(n), input) && input != ResendOOBOTPCode
    ensures GoesFurther(ByNode(n), input)
  {
  }

  predicate IsEntry(i: Intent) {
    i.IntentProtectedAuthenticate? || i.IntentAuthenticate? || i.IntentVerifyProof? || i.IntentVerifyCaptcha?
    || i.IntentAuthenticatePassword? || i.IntentEnsureSession? || i.IntentReauthenticate?
  }

  lemma EntriesGoFurther(i: Intent, nodes: seq<Node>, input: Input)
    requires IsEntry(i) && HasStep(i, |nodes|) && SaneIntent(i) && Takes(ByIntent(i, nodes), input)
    ensures GoesFurther(ByIntent(i, nodes), input)
  {
    hide GetAMROf;
  }

  lemma LoginGoesFurther(i: Intent, nodes: seq<Node>, input: Input)
    requires i.IntentLogin? && HasStep(i, |nodes|) && SaneIntent(i) && Takes(ByIntent(i, nodes), input)
    ensures GoesFurther(ByIntent(i, nodes), input)
  {
    hide GetAMROf;
  }

  lemma MessagesGoFurther(i: Intent, nodes: seq<Node>, input: Input)
    requires (i.IntentAuthenticateOOBOTPPhone? || i.IntentAuthenticateEmailLoginLink? || i.IntentVerifyIdentity?)
    requires HasStep(i, |nodes|) && SaneIntent(i) && (i.IntentAuthenticateOOBOTPPhone? ==> !HasCodeNode(nodes))
    ensures GoesFurther(ByIntent(i, nodes), input)
  {
    hide HasCodeNode, HasCaptchaSub;
  }

  /** What a good tree knows of its first node. */
  predicate KnowsFirst(i: Intent, nodes: seq<Node>) {
    nodes != [] ==>
      && (i.IntentSignup? || i.IntentMigrate? ==> UserIDOf(nodes).Some?)
      && (i.IntentCreateLoginID? || i.IntentMigrateLoginID? ==> IdentityOf(nodes).Some?)
      && (i.IntentCreateLoginID? ==> IdentityOf(nodes).value.loginIDType == i.loginIDType)
      && (i.IntentMigrateAccount? ==>
            && (forall k :: 0 <= k < |IdentityMigrateSpecs(nodes)| ==> IdentityMigrateSpecs(nodes)[k].isLoginID)
            && (forall k :: 0 <= k < |AuthnMigrateSpecs(nodes)| ==> AuthnMigrateSpecs(nodes)[k].typ == OOBEmail || AuthnMigrateSpecs(nodes)[k].typ == OOBSMS))
  }

  lemma FirstIsKnown(w: Workflow, log: seq<Round>)
    requires Good(w, log) && SaneAt(w.intent, w.nodes)
    ensures KnowsFirst(w.intent, w.nodes)
  {
    hide Good, Happened;
    if w.nodes != [] { PlaceOk(w, 0, log); }
  }

  lemma CreationsGoFurther(i: Intent, nodes: seq<Node>, input: Input)
    requires i.IntentSignup? || i.IntentMigrate? || i.IntentCreateLoginID? || i.IntentMigrateLoginID? || i.IntentMigrateAccount?
    requires HasStep(i, |nodes|) && SaneIntent(i) && KnowsFirst(i, nodes) && Takes(ByIntent(i, nodes), input)
    ensures GoesFurther(ByIntent(i, nodes), input)
  {
    hide UserIDOf, IdentityOf, IdentityMigrateSpecs, AuthnMigrateSpecs;
  }

  lemma TargetsGoFurther(i: Intent, nodes: seq<Node>, input: Input)
    requires i.IntentCreateOOBOTPAuthenticator? || i.IntentCreatePassword? || i.IntentMigrateOOBOTPAuthenticator?
    requires SaneIntent(i) && Takes(ByIntent(i, nodes), input)
    ensures GoesFurther(ByIntent(i, nodes), input)
  {
    hide MigrateTargetOf, Stored;
  }

  lemma ListsGoFurther(i: Intent, nodes: seq<Node>, input: Input)
    requires i.IntentMigrateIdentities? || i.IntentMigrateAuthenticators?
    requires HasStep(i, |nodes|) && SaneIntent(i)
    ensures GoesFurther(ByIntent(i, nodes), input)
  {
    hide Stored;
  }

  lemma NoCodeNodeYet(w: Workflow, log: seq<Round>)
    requires Good(w, log) && w.intent.IntentAuthenticateOOBOTPPhone? && HasStep(w.intent, |w.nodes|)
    ensures !HasCodeNode(w.nodes)
  {
    hide Good, Happened;
    if w.nodes != [] {
      PlaceOk(w, 0, log);
    }
    NoneFound(w.nodes, (n: SimpleNode) => n.NodeAuthenticateOOBOTPPhone?);
  }

  /** Whoever reacts in a good, sane tree is taken further by any input it takes, except a resend. */
  lemma IntentGoesFurther(w: Workflow, input: Input, log: seq<Round>)
    requires Good(w, log) && SaneAt(w.intent, w.nodes) && HasStep(w.intent, |w.nodes|) && Takes(ByIntent(w.intent, w.nodes), input)
    ensures GoesFurther(ByIntent(w.intent, w.nodes), input)
  {
    hide Good, GoesFurther, Takes, HasStep, KnowsFirst;
    var i := w.intent;
    if IsEntry(i) {
      EntriesGoFurther(i, w.nodes, input);
    } else if i.IntentLogin? {
      LoginGoesFurther(i, w.nodes, input);
    } else if i.IntentAuthenticateOOBOTPPhone? || i.IntentAuthenticateEmailLoginLink? || i.IntentVerifyIdentity? {
      if i.IntentAuthenticateOOBOTPPhone? { NoCodeNodeYet(w, log); }
      MessagesGoFurther(i, w.nodes, input);
    } else if i.IntentSignup? || i.IntentMigrate? || i.IntentCreateLoginID? || i.IntentMigrateLoginID? || i.IntentMigrateAccount? {
      FirstIsKnown(w, log);
      CreationsGoFurther(i, w.nodes, input);
    } else if i.IntentMigrateIdentities? || i.IntentMigrateAuthenticators? {
      ListsGoFurther(i, w.nodes, input);
    } else {
      TargetsGoFurther(i, w.nodes, input);
    }
  }

  // ---------------------------------------------------------------- one round further

  lemma {:induction false} ReactorGoesFurther(w: Workflow, input: Input, log: seq<Round>)
    requires Good(w, log) && Sane(w) && ReactorOf(w).Some? && Takes(ReactorOf(w).value, input) && input != ResendOOBOTPCode
    ensures GoesFurther(ReactorOf(w).value, input)
    decreases w
  {
    hide Good, GoesFurther, Takes, HasStep, Asks, SaneAt;
    if w.nodes != [] {
      var last := |w.nodes| - 1;
      PlaceOk(w, last, log);
      match w.nodes[last] {
        case SubWorkflow(sub) => if ReactorOf(sub).Some? { ReactorGoesFurther(sub, input, log); } else { IntentGoesFurther(w, input, log); }
        case Simple(n) =>
          if Asks(n, |w.nodes|) {
            OneIsEnough(n, |w.nodes|);
            NodesGoFurther(n, input);
          } else {
            IntentGoesFurther(w, input, log);
          }
      }
    } else {
      IntentGoesFurther(w, input, log);
    }
  }

  lemma {:induction false} GrownIsSane(w: Workflow, n: Node)
    requires Sane(w) && ReactorOf(w).Some? && SaneNode(n) && (n.SubWorkflow? ==> n.w.nodes == [] && SaneIntent(n.w.intent))
    ensures Sane(Grown(w, n))
    decreases w
  {
    hide SaneIntent, SaneNode, HasStep, Asks;
    if w.nodes != [] && w.nodes[|w.nodes| - 1].SubWorkflow? && ReactorOf(w.nodes[|w.nodes| - 1].w).Some? {
      GrownIsSane(w.nodes[|w.nodes| - 1].w, n);
      assert |w.nodes| > 1 ==> Grown(w, n).nodes[0] == w.nodes[0];
      SubIsSaneNode(Grown(w, n).nodes[|w.nodes| - 1]);
    } else {
      assert w.nodes != [] ==> Grown(w, n).nodes[0] == w.nodes[0];
      if n.SubWorkflow? { assert Sane(n.w); }
    }
  }

  lemma SubIsSaneNode(n: Node)
    requires n.SubWorkflow?
    ensures SaneNode(n)
  {
  }

  /** With good answers an input that is taken appends, and what it makes is good and sane again. */
  lemma GoodRound(w: Workflow, input: Input, log: seq<Round>)
    requires Good(w, log) && Sane(w) && ReactorOf(w).Some? && Takes(ReactorOf(w).value, input) && input != ResendOOBOTPCode
    ensures var env := GoodAnswers(ReactorOf(w).value); var o := Step(w, input, env);
      && o.Appended? && Good(o.w, log + [Round(w, input, env, o.events)]) && Sane(o.w) && o.w.intent == w.intent
      && (Tokens(o.w) < Tokens(w) || (Tokens(o.w) == Tokens(w) && Potential(o.w, 0) < Potential(w, 0)))
  {
    hide Good, Sane, GoesFurther, Takes, ReactorOf, Step, ReplyOf, Grown, Tokens, Potential, SaneNode, SaneIntent, Stored;
    var r := ReactorOf(w).value;
    var env := GoodAnswers(r);
    ReactorGoesFurther(w, input, log);
    StepIsReply(w, input, env);
    NextOf(r, input);
    var o := Step(w, input, env);
    GrownIsSane(w, ReplyOf(r, input, env).reaction.node);
    LogExtends(log, Round(w, input, env, o.events));
    StepKeepsGood(w, input, env, log, log + [Round(w, input, env, o.events)]);
    StepShrinks(w, input, env, 0);
  }

  lemma NextOf(r: Reactor, input: Input)
    requires GoesFurther(r, input)
    ensures var reaction := ReplyOf(r, input, GoodAnswers(r)).reaction;
      reaction.Next? && SaneNode(reaction.node) && (reaction.node.SubWorkflow? ==> reaction.node.w.nodes == [] && SaneIntent(reaction.node.w.intent))
  {
  }

  // ---------------------------------------------------------------- one request further

  lemma {:induction false} OnlyLaterAnswersMatter(w: Workflow, input: Input, envs: nat -> Env, others: nat -> Env, i: nat)
    requires forall j: nat :: i <= j ==> envs(j) == others(j)
    ensures AcceptRun(w, input, envs, i) == AcceptRun(w, input, others, i)
    decreases Tokens(w), Potential(w, 0)
  {
    hide Step, Tokens, Potential;
    if Step(w, input, envs(i)).Appended? {
      StepShrinks(w, input, envs(i), 0);
      OnlyLaterAnswersMatter(Step(w, input, envs(i)).w, input, envs, others, i + 1);
    }
  }

  ghost predicate Less(v: Workflow, w: Workflow) { Tokens(v) < Tokens(w) || (Tokens(v) == Tokens(w) && Potential(v, 0) < Potential(w, 0)) }

  /** A tree that can go on for good: good after these rounds, and no dead end, or finished. */
  ghost predicate CanGoOn(w: Workflow, log: seq<Round>) { Good(w, log) && (ReactorOf(w).Some? ==> Sane(w)) }

  lemma {:induction false} AcceptGoesOnWell(w: Workflow, input: Input, log: seq<Round>, i: nat) returns (envs: nat -> Env)
    requires CanGoOn(w, log) && ReactorOf(w).Some? && Takes(ReactorOf(w).value, input) && input != ResendOOBOTPCode
    ensures var a := AcceptRun(w, input, envs, i);
      && !a.ending.Error? && a.changed && (a.ending.EndOfFlow? <==> ReactorOf(a.w).None?)
      && CanGoOn(a.w, log + a.log) && Less(a.w, w)
    decreases Tokens(w), Potential(w, 0)
  {
    hide Good, Sane, Takes, ReactorOf, Step, Tokens, Potential, AcceptRun;
    var env := GoodAnswers(ReactorOf(w).value);
    GoodRound(w, input, log);
    var o := Step(w, input, env);
    var x := Round(w, input, env, o.events);
    if ReactorOf(o.w).Some? && Takes(ReactorOf(o.w).value, input) {
      var rest := AcceptGoesOnWell(o.w, input, log + [x], i + 1);
      envs := (j: nat) => if j == i then env else rest(j);
      OnlyLaterAnswersMatter(o.w, input, envs, rest, i + 1);
    } else {
      envs := (j: nat) => env;
      StepIsRound(o.w, input, env);
      AcceptEnds(o.w, input, envs, i + 1);
      StaysGood(o.w, log + [x], AcceptRun(o.w, input, envs, i + 1).log);
    }
    AcceptGoesOn(w, input, envs, i);
    var later := AcceptRun(o.w, input, envs, i + 1);
    assert log + ([x] + later.log) == log + [x] + later.log;
  }

  lemma StaysGood(w: Workflow, log: seq<Round>, more: seq<Round>)
    requires Good(w, log)
    ensures Good(w, log + more)
  {
    hide Good;
    HappenedBefore(log, more);
    GoodStays(w, log, log + more);
  }

  // ---------------------------------------------------------------- whole flows

  /** Some input that is not a resend, and that a waiting reactor takes. */
  function InputFor(r: Reactor): (input: Input)
    ensures input != ResendOOBOTPCode
  {
    match r
    case ByNode(n) => if n.NodeAuthenticateEmailLoginLink? then CheckLoginLinkVerified else if n.NodeAuthenticatePassword? then TakePassword("") else TakeOOBOTPCode("")
    case ByIntent(i, _) =>
      if i.IntentLogin? then SelectAuthenticatorType(Password)
      else if i.IntentVerifyCaptcha? then TakeCaptchaToken("")
      else if i.IntentCreatePassword? then TakeNewPassword("")
      else if i.IntentMigrateAccount? then TakeMigrationToken("")
      else TakeLoginID("")
  }

  lemma {:induction false} ReactorTakesIt(w: Workflow, log: seq<Round>)
    requires Good(w, log) && ReactorOf(w).Some?
    ensures Takes(ReactorOf(w).value, InputFor(ReactorOf(w).value))
    decreases w
  {
    hide Good, Takes, InputFor, HasStep, Asks;
    if w.nodes != [] && w.nodes[|w.nodes| - 1].SubWorkflow? && ReactorOf(w.nodes[|w.nodes| - 1].w).Some? {
      PlaceOk(w, |w.nodes| - 1, log);
      ReactorTakesIt(w.nodes[|w.nodes| - 1].w, log);
    } else if w.nodes != [] && w.nodes[|w.nodes| - 1].Simple? && Asks(w.nodes[|w.nodes| - 1].simple, |w.nodes|) {
      NodeTakesIt(w.nodes[|w.nodes| - 1].simple, |w.nodes|);
    } else {
      IntentTakesIt(w, log);
    }
  }

  lemma NodeTakesIt(n: SimpleNode, count: nat)
    requires Asks(n, count)
    ensures Takes(ByNode(n), InputFor(ByNode(n)))
  {
  }

  lemma IntentTakesIt(w: Workflow, log: seq<Round>)
    requires Good(w, log) && HasStep(w.intent, |w.nodes|)
    ensures Takes(ByIntent(w.intent, w.nodes), InputFor(ByIntent(w.intent, w.nodes)))
  {
    hide Good;
    if w.intent.IntentAuthenticateOOBOTPPhone? {
      NoCodeNodeYet(w, log);
      CodeNodeFound(w.nodes);
    }
  }

  lemma CodeNodeFound(nodes: seq<Node>)
    ensures CodeNodeStands(nodes) ==> HasCodeNode(nodes)
  {
    if CodeNodeStands(nodes) && !HasCodeNode(nodes) {
      var k :| 0 <= k < |nodes| && nodes[k].Simple? && nodes[k].simple.NodeAuthenticateOOBOTPPhone?;
      FindsSome(nodes, (n: SimpleNode) => n.NodeAuthenticateOOBOTPPhone?, k);
    }
  }

  lemma {:induction false} FindsSome(nodes: seq<Node>, keep: SimpleNode -> bool, k: nat)
    requires k < |nodes| && nodes[k].Simple? && keep(nodes[k].simple)
    ensures FindSingleNode(nodes, keep).Some?
  {
    if k > 0 { FindsSome(nodes[1..], keep, k - 1); }
  }

  /** The first request feeds instance `k`, and every later one the newest. */
  predicate FeedsOn(requests: seq<Request>, k: nat, count: nat) {
    forall j :: 0 <= j < |requests| ==> requests[j].instance == if j == 0 then k else count + j - 1
  }

  /** The flow was committed: one tree more, finished and of this intent, and the session is deleted. */
  ghost predicate IsFinished(s: Session, t: Session, root: Intent) {
    && t.closed && |t.commits| == |s.commits| + 1 && t.commits[..|s.commits|] == s.commits
    && IsEOF(t.commits[|s.commits|]) && t.commits[|s.commits|].intent == root
  }

  const NO_FAULTS := Faults(false, false, false, false)

  lemma {:induction false} ReplaySplit(s: Session, r: Request, rest: seq<Request>)
    ensures Replay(s, [r] + rest) == Replay(Feed(s, r), rest)
    decreases |rest|
  {
    hide Feed;
    var all := [r] + rest;
    if rest == [] {
      assert all[..0] == [] && all[0] == r;
    } else {
      assert all[..|all| - 1] == [r] + rest[..|rest| - 1];
      ReplaySplit(s, r, rest[..|rest| - 1]);
    }
  }

  lemma FinishedAtOnce(s: Session, k: nat, env: Env) returns (r: Request)
    requires !s.closed && k < |s.instances| && ReactorOf(s.instances[k]).None?
    ensures IsFinished(s, Feed(s, r), s.instances[k].intent) && r.instance == k
  {
    hide ReactorOf, AcceptRun, Step;
    var w := s.instances[k];
    r := Request(k, Nothing, (j: nat) => env, NO_FAULTS);
    StepIsRound(w, Nothing, env);
    AcceptEnds(w, Nothing, r.envs, 0);
    FoundReactor(w);
  }

  /** Feeding it what it asks for, with good answers, ends the flow or leaves a newest instance nearer its end. */
  lemma OneRequestFurther(s: Session, k: nat) returns (r: Request)
    requires !s.closed && k < |s.instances| && CanGoOn(s.instances[k], s.log) && ReactorOf(s.instances[k]).Some?
    ensures r.instance == k
    ensures var w := s.instances[k]; var t := Feed(s, r);
      IsFinished(s, t, w.intent) ||
      (!t.closed && t.commits == s.commits && |t.instances| == |s.instances| + 1
       && var v := t.instances[|s.instances|]; CanGoOn(v, t.log) && Less(v, w) && v.intent == w.intent)
  {
    hide CanGoOn, Takes, ReactorOf, AcceptRun, InputFor, Less, IsEOF;
    var w := s.instances[k];
    var input := InputFor(ReactorOf(w).value);
    GoodOf(w, s.log);
    ReactorTakesIt(w, s.log);
    var envs := AcceptGoesOnWell(w, input, s.log, 0);
    r := Request(k, input, envs, NO_FAULTS);
    AcceptKeepsGood(w, input, envs, 0, s.log);
    if AcceptRun(w, input, envs, 0).ending.EndOfFlow? { EndsAtEof(w, input, envs, 0); }
  }

  lemma GoodOf(w: Workflow, log: seq<Round>)
    requires CanGoOn(w, log)
    ensures Good(w, log)
  {
  }

  lemma {:induction false} CanBeFinished(s: Session, k: nat) returns (requests: seq<Request>)
    requires !s.closed && k < |s.instances| && CanGoOn(s.instances[k], s.log)
    ensures IsFinished(s, Replay(s, requests), s.instances[k].intent)
    ensures requests != [] && FeedsOn(requests, k, |s.instances|)
    decreases Tokens(s.instances[k]), Potential(s.instances[k], 0)
  {
    hide CanGoOn, ReactorOf, Tokens, Potential, Feed;
    var w := s.instances[k];
    var r;
    if ReactorOf(w).None? { r := FinishedAtOnce(s, k, GoodAnswers(ByIntent(w.intent, []))); } else { r := OneRequestFurther(s, k); }
    var t := Feed(s, r);
    ReplaySplit(s, r, []);
    assert [r] + [] == [r];
    requests := [r];
    if !IsFinished(s, t, w.intent) {
      var rest := CanBeFinished(t, |s.instances|);
      ReplaySplit(s, r, rest);
      requests := [r] + rest;
    }
  }

  /** No flow is stuck: from every instance of every open session that any requests and answers can lead to,
      some further requests lead to its end. */
  lemma EveryFlowCanFinish(root: Intent, s: Session, k: nat)
    requires IsPublic(root) && ReachableFrom(root, s) && !s.closed && k < |s.instances|
    ensures exists requests :: requests != [] && FeedsOn(requests, k, |s.instances|) && IsFinished(s, Replay(s, requests), root)
  {
    hide Good, ReactorOf, Replay, Opened, IsFinished, Rests, SaneIntent, IsWaiting;
    var envs, f, done :| s == Replay(Opened(root, envs, f), done);
    ReachableIsGood(root, s);
    ReplayRests(root, envs, f, done);
    var w := s.instances[k];
    if ReactorOf(w).Some? {
      RestsAtInput(w);
      RootIsSane(w, s.log);
      WaitingIsSane(w, s.log);
    }
    var requests := CanBeFinished(s, k);
  }

  lemma RestsAtInput(w: Workflow)
    requires Rests(w) && ReactorOf(w).Some?
    ensures IsWaiting(ReactorOf(w).value)
  {
  }

  lemma RootIsSane(w: Workflow, log: seq<Round>)
    requires IsPublic(w.intent) && Good(w, log) && ReactorOf(w).Some? && IsWaiting(ReactorOf(w).value)
    ensures SaneIntent(w.intent)
  {
    hide Good;
    if w.nodes != [] { PlaceOk(w, 0, log); }
  }
}
