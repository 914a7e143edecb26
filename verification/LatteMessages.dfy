/**
 Whom a flow is about.

 A tree is about one user: the one its login found, its sign-up or migration created, or the
 reauthentication was started for.  Every message it sends, every credential it accepts and everything
 it creates is that user's.
 */
module LatteMessages {
  import opened Wrappers
  import opened LatteTypes
  import opened LatteReact
  import opened LatteEngine
  import opened LatteBound
  import opened LatteService
  import opened LatteInvariant
  import opened LattePreserved
  import opened LatteLogin

  /** The user an event names; lookups, proofs and captchas name none. */
  function NamedIn(e: Event): Option<string> {
    match e
    case SmsSent(userID, _) => Some(userID)
    case EmailSent(userID, _) => Some(userID)
    case CodeAccepted(a, _) => Some(a.userID)
    case LinkAccepted(a) => Some(a.userID)
    case PasswordAccepted(a, _) => Some(a.userID)
    case ClaimProved(userID, _, _) => Some(userID)
    case ClaimTrusted(userID, _, _) => Some(userID)
    case IdentityMade(_, i) => Some(i.userID)
    case AuthenticatorMade(_, a) => Some(a.userID)
    case _ => None
  }

  /** The user in the fields of an intent. */
  function SubjectOf(i: Intent): Option<string> {
    match i
    case IntentLogin(_, identity, _) => Some(identity.userID)
    case IntentAuthenticateOOBOTPPhone(_, a, _) => Some(a.userID)
    case IntentAuthenticateEmailLoginLink(a) => Some(a.userID)
    case IntentAuthenticatePassword(userID, _) => Some(userID)
    case IntentEnsureSession(userID, _, _, _) => Some(userID)
    case IntentCreateLoginID(_, userID, _, _) => Some(userID)
    case IntentVerifyIdentity(_, identity, _) => Some(identity.userID)
    case IntentCreateOOBOTPAuthenticator(identity, _) => Some(identity.userID)
    case IntentCreatePassword(userID, _, _) => Some(userID)
    case IntentMigrateAccount(userID) => Some(userID)
    case IntentMigrateIdentities(userID, _) => Some(userID)
    case IntentMigrateAuthenticators(userID, _) => Some(userID)
    case IntentMigrateLoginID(userID, _) => Some(userID)
    case IntentMigrateOOBOTPAuthenticator(userID, _, _) => Some(userID)
    case IntentReauthenticate(hint) => Some(hint)
    case _ => None
  }

  /** Intents that only lead to the flow of a user. */
  predicate IsEntrance(i: Intent) { i.IntentProtectedAuthenticate? || i.IntentAuthenticate? || i.IntentVerifyProof? }

  /** The user a tree is about, once that is known. */
  function CurrentUser(w: Workflow): Option<string> {
    if IsEntrance(w.intent) then
      if w.nodes != [] then UserBelow(w.nodes[|w.nodes| - 1]) else None
    else if w.intent.IntentSignup? || w.intent.IntentMigrate? then
      if w.nodes != [] && w.nodes[0].Simple? && w.nodes[0].simple.NodeDoCreateUser? then Some(w.nodes[0].simple.userID) else None
    else SubjectOf(w.intent)
  }

  function UserBelow(n: Node): Option<string> {
    match n
    case Simple(_) => None
    case SubWorkflow(sub) => CurrentUser(sub)
  }

  ghost predicate AllName(events: seq<Event>, user: Option<string>) {
    forall k :: 0 <= k < |events| && NamedIn(events[k]).Some? ==> NamedIn(events[k]) == user
  }

  // ---------------------------------------------------------------- reactions

  lemma IntentNames(i: Intent, nodes: seq<Node>, input: Input, env: Env)
    ensures AllName(IntentReact(i, nodes, input, env).events, SubjectOf(i))
  {
    hide HasCaptchaSub, GetAMROf, List, FindSingleNode, UserIDOf, IdentityOf, MigrateNode;
  }

  /** The user in the fields of a node that reacts. */
  function NodeSubject(s: SimpleNode): Option<string> {
    match s
    case NodeAuthenticateOOBOTPPhone(a) => Some(a.userID)
    case NodeAuthenticateEmailLoginLink(a) => Some(a.userID)
    case NodeAuthenticatePassword(userID, _) => Some(userID)
    case NodeVerifyPhoneSMS(userID, _, _) => Some(userID)
    case NodeVerifyEmail(userID, _, _) => Some(userID)
    case _ => None
  }

  lemma NodeNames(s: SimpleNode, input: Input, env: Env)
    ensures AllName(NodeReact(s, input, env).events, NodeSubject(s))
  {
    hide List;
    if s.NodeAuthenticatePassword? { FirstListed(env, s.userID, (a: Authn) => a.kind == s.kind && a.typ == Password); }
  }

  lemma NodeIsAboutIntent(i: Intent, before: seq<Node>, s: SimpleNode, log: seq<Round>)
    requires SlotOk(i, before, Simple(s), log) && NodeSubject(s).Some?
    ensures NodeSubject(s) == SubjectOf(i) && !IsEntrance(i) && !i.IntentSignup? && !i.IntentMigrate?
  {
    hide Happened, ClaimBacked;
  }

  /** The flow of one user stays with that user. */
  lemma ChildIsAboutParent(w: Workflow, log: seq<Round>)
    requires Good(w, log) && w.nodes != [] && w.nodes[|w.nodes| - 1].SubWorkflow?
    ensures var sub := w.nodes[|w.nodes| - 1].w;
      CurrentUser(sub) == CurrentUser(w) || sub.intent.IntentVerifyCaptcha?
  {
    hide Good;
    var last := |w.nodes| - 1;
    PlaceOk(w, last, log);
    PlaceOk(w, 0, log);
    if !IsEntrance(w.intent) && !w.nodes[last].w.intent.IntentVerifyCaptcha? { ChildSubject(w.intent, w.nodes[..last], w.nodes[last], log); }
  }

  lemma ChildSubject(i: Intent, before: seq<Node>, n: Node, log: seq<Round>)
    requires SlotOk(i, before, n, log) && n.SubWorkflow? && !IsEntrance(i) && !n.w.intent.IntentVerifyCaptcha?
    requires i.IntentCreateLoginID? ==> SlotOk(i, before[..0], if before == [] then n else before[0], log)
    ensures SubjectOf(n.w.intent).Some? && !IsEntrance(n.w.intent) && !n.w.intent.IntentSignup? && !n.w.intent.IntentMigrate?
    ensures i.IntentSignup? || i.IntentMigrate? ==> CreatedUser(before)
    ensures i.IntentSignup? || i.IntentMigrate? ==> SubjectOf(n.w.intent) == Some(before[0].simple.userID)
    ensures !(i.IntentSignup? || i.IntentMigrate?) ==> SubjectOf(n.w.intent) == SubjectOf(i)
  {
    hide Happened, ClaimBacked, GetAMROf, KeepPrimaryAuthenticatorOfIdentity;
  }

  lemma CaptchaNamesNobody(w: Workflow, input: Input, env: Env, log: seq<Round>)
    requires Good(w, log) && w.intent.IntentVerifyCaptcha? && !Step(w, input, env).Eof?
    ensures AllName(Step(w, input, env).events, None)
  {
    hide Good;
    if w.nodes != [] {
      PlaceOk(w, |w.nodes| - 1, log);
      assert !LastReacts(w.nodes[|w.nodes| - 1], |w.nodes|);
    }
  }

  lemma {:induction false} StepNamesCurrentUser(w: Workflow, input: Input, env: Env, log: seq<Round>)
    requires Good(w, log) && !Step(w, input, env).Eof?
    ensures AllName(Step(w, input, env).events, CurrentUser(w))
    decreases w
  {
    hide IntentReact, NodeReact, Good, NodeCanReact, IntentCanReact, SubjectOf, NodeSubject, NamedIn;
    if w.nodes != [] && LastReacts(w.nodes[|w.nodes| - 1], |w.nodes|) {
      var last := |w.nodes| - 1;
      PlaceOk(w, last, log);
      match w.nodes[last] {
        case Simple(s) =>
          NodeNames(s, input, env);
          if NodeSubject(s).Some? { NodeIsAboutIntent(w.intent, w.nodes[..last], s, log); }
        case SubWorkflow(sub) =>
          if sub.intent.IntentVerifyCaptcha? {
            CaptchaNamesNobody(sub, input, env, log);
          } else {
            StepNamesCurrentUser(sub, input, env, log);
            ChildIsAboutParent(w, log);
          }
      }
    } else {
      IntentNames(w.intent, w.nodes, input, env);
      RootsNameNobody(w.intent);
    }
  }

  lemma RootsNameNobody(i: Intent)
    ensures IsEntrance(i) || i.IntentSignup? || i.IntentMigrate? ==> SubjectOf(i).None?
  {
  }

  // ---------------------------------------------------------------- runs

  /** Every event that names a user names the one the tree was about. */
  ghost predicate OneUser(log: seq<Round>) {
    forall k :: 0 <= k < |log| ==> AllName(log[k].events, CurrentUser(log[k].at))
  }

  lemma {:induction false} AcceptNamesOneUser(w: Workflow, input: Input, envs: nat -> Env, i: nat, log: seq<Round>)
    requires Good(w, log)
    ensures OneUser(AcceptRun(w, input, envs, i).log)
    decreases Tokens(w), Potential(w, 0)
  {
    hide Good, Step, Tokens, Potential, Happened, CurrentUser, NamedIn;
    var env := envs(i);
    var o := Step(w, input, env);
    if !o.Eof? { StepNamesCurrentUser(w, input, env, log); }
    if o.Appended? {
      StepShrinks(w, input, env, 0);
      var later := log + [Round(w, input, env, o.events)];
      LogExtends(log, Round(w, input, env, o.events));
      StepKeepsGood(w, input, env, log, later);
      AcceptNamesOneUser(o.w, input, envs, i + 1, later);
    }
  }

  /** In every run: every message sent, every code, link and password accepted, every claim verified and
      every identity and authenticator made belongs to the one user the tree was about at that moment. */
  lemma {:induction false} EveryMessageIsTheUsers(root: Intent, envs: nat -> Env, f: Faults, requests: seq<Request>)
    requires IsPublic(root)
    ensures OneUser(Replay(Opened(root, envs, f), requests).log)
  {
    hide Good, AcceptRun, CurrentUser, NamedIn;
    if requests == [] {
      RootIsGood(root);
      AcceptNamesOneUser(Workflow(root, []), Nothing, envs, 0, []);
    } else {
      var front, r := requests[..|requests| - 1], requests[|requests| - 1];
      EveryMessageIsTheUsers(root, envs, f, front);
      var s := Replay(Opened(root, envs, f), front);
      OpenedIsGood(root, envs, f);
      ReplayKeepsGood(root, Opened(root, envs, f), front);
      if !s.closed && r.instance < |s.instances| {
        AcceptNamesOneUser(s.instances[r.instance], r.input, r.envs, 0, s.log);
      }
    }
  }

  lemma RootIsGood(root: Intent)
    requires IsPublic(root)
    ensures Good(Workflow(root, []), [])
  {
  }

  // ---------------------------------------------------------------- one message

  /** SendOOBCode sends at most one message, on the channel of the authenticator's type and to its own
      target; the trigger cooldown is passed over in silence by an initial send and only by that; a
      disabled channel sends nothing. */
  lemma SendOOBCodeIsExact(a: Authn, isResend: bool, env: Env)
    ensures var r := SendOOBCode(a, isResend, env);
      var tried := if r.Sent? then r.events else if r.NotSent? then r.tried else [];
      && (tried == [] || tried == [SmsSent(a.userID, a.phone)] || tried == [EmailSent(a.userID, a.email)])
      && (tried == [SmsSent(a.userID, a.phone)] ==> a.typ == OOBSMS && !(a.kind == Primary && env.phoneDisabled) && !(a.kind == Secondary && env.secondarySMSDisabled))
      && (tried == [EmailSent(a.userID, a.email)] ==> a.typ == OOBEmail)
      && (r.Sent? ==> tried != [])
      && (r.CooldownIgnored? ==> env.cooldown && !isResend)
      && (env.cooldown ==> tried == [])
  {
  }
}
