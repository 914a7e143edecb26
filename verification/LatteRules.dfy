/**
 The reactions of latte told by their effects: when an event happens, when a node is appended, when a
 reaction fails and when an input is refused, whichever intent or node reacts.
 */
module LatteRules {
  import opened Wrappers
  import opened LatteTypes
  import opened LatteReact
  import opened LatteErrors

  /** Who reacts: a simple node, or the intent of the workflow that holds these nodes. */
  datatype Reactor = ByNode(node: SimpleNode) | ByIntent(intent: Intent, nodes: seq<Node>)

  function ReplyOf(r: Reactor, input: Input, env: Env): Reply {
    match r
    case ByNode(n) => NodeReact(n, input, env)
    case ByIntent(i, nodes) => IntentReact(i, nodes, input, env)
  }

  /** The service asked answered, and the answer was yes. */
  predicate Right(env: Env) { !env.serviceError && env.accepted }

  /** What a step looks for among the stored authenticators. */
  datatype Wanted = PasswordOf(userID: string, kind: Kind) | EmailOf(userID: string) | PhoneOf(identity: Identity)

  predicate IsWanted(w: Wanted, a: Authn) {
    match w
    case PasswordOf(userID, kind) => a.userID == userID && a.kind == kind && a.typ == Password
    case EmailOf(userID) => a.userID == userID && a.kind == Primary && a.typ == OOBEmail
    case PhoneOf(i) => a.userID == i.userID && a.kind == Primary && a.typ == OOBSMS && i.loginIDType == Phone && (i.loginID == a.email || i.loginID == a.phone)
  }

  /** `a` is the first stored authenticator that is wanted. */
  ghost predicate IsFirst(stored: seq<Authn>, w: Wanted, a: Authn) {
    exists k :: 0 <= k < |stored| && stored[k] == a && IsWanted(w, a) && forall j :: 0 <= j < k ==> !IsWanted(w, stored[j])
  }

  predicate NoneWanted(stored: seq<Authn>, w: Wanted) { forall a :: a in stored ==> !IsWanted(w, a) }

  // ---------------------------------------------------------------- messages

  predicate ChannelOff(a: Authn, env: Env) { a.typ == OOBSMS && (if a.kind == Primary then env.phoneDisabled else env.secondarySMSDisabled) }

  predicate HasTarget(a: Authn) { a.typ == OOBSMS || a.typ == OOBEmail }

  /** A code for this authenticator is handed to the sender. */
  predicate IsTried(a: Authn, env: Env) { HasTarget(a) && !ChannelOff(a, env) && !env.cooldown && !env.serviceError }

  /** The code went out, or a first one was passed over because of the cooldown. */
  predicate GoesOn(a: Authn, isResend: bool, env: Env) {
    HasTarget(a) && !ChannelOff(a, env) && if env.cooldown then !isResend else !env.serviceError && !env.sendError
  }

  function MessageOf(a: Authn): Event { if a.typ == OOBSMS then SmsSent(a.userID, a.phone) else EmailSent(a.userID, a.email) }

  /** The captcha is not asked for, or was asked for already. */
  predicate GateOpen(captcha: bool, nodes: seq<Node>) { captcha ==> HasCaptchaSub(nodes) }

  predicate CodeNodeStands(nodes: seq<Node>) { exists k :: 0 <= k < |nodes| && nodes[k].Simple? && nodes[k].simple.NodeAuthenticateOOBOTPPhone? }

  datatype Asked = Asked(authenticator: Authn, isResend: bool)

  /** The authenticator for which the reactor sends a code, first or again. */
  function ToSend(r: Reactor, input: Input): Option<Asked> {
    match r
    case ByNode(n) =>
      if input.ResendOOBOTPCode? && (n.NodeAuthenticateOOBOTPPhone? || n.NodeAuthenticateEmailLoginLink?) then Some(Asked(n.authenticator, true)) else None
    case ByIntent(i, nodes) =>
      if i.IntentAuthenticateEmailLoginLink? && nodes == [] then Some(Asked(i.authenticator, false))
      else if i.IntentAuthenticateOOBOTPPhone? && !i.verified && GateOpen(i.captcha, nodes) && !CodeNodeStands(nodes) then Some(Asked(i.authenticator, false))
      else None
  }

  /** Verification is asked for and neither done nor to be skipped. */
  predicate MustVerify(i: Intent, env: Env) {
    && i.IntentVerifyIdentity? && !env.serviceError && i.identity.loginIDType != Username && env.status.Some?
    && (env.status.value.required || env.status.value.triggerable)
    && !env.status.value.verified && (i.isFromSignUp ==> env.status.value.required)
  }

  /** The verification node of an identity. */
  function VerifierOf(i: Identity): SimpleNode {
    if i.loginIDType == Email then NodeVerifyEmail(i.userID, i.id, i.loginID) else NodeVerifyPhoneSMS(i.userID, i.id, i.loginID)
  }

  /** The node for which the reactor sends a verification message, first or again. */
  function ToVerify(r: Reactor, input: Input, env: Env): Option<SimpleNode> {
    match r
    case ByNode(n) => if input.ResendOOBOTPCode? && (n.NodeVerifyPhoneSMS? || n.NodeVerifyEmail?) then Some(n) else None
    case ByIntent(i, nodes) => if MustVerify(i, env) && GateOpen(i.captcha, nodes) then Some(VerifierOf(i.identity)) else None
  }

  predicate VerifierOff(n: SimpleNode, env: Env) { n.NodeVerifyPhoneSMS? && env.phoneDisabled }

  // ---------------------------------------------------------------- events

  /** The user, place and value of a verification node. */
  predicate Verifies(n: SimpleNode, userID: string, to: string) {
    (n.NodeVerifyPhoneSMS? && n.userID == userID && n.phone == to) || (n.NodeVerifyEmail? && n.userID == userID && n.email == to)
  }

  /** The login ID that the identity service is asked for. */
  function ValueAsked(r: Reactor, input: Input): Option<string> {
    if r.ByNode? || r.nodes != [] then None
    else match r.intent
      case IntentCreateLoginID(_, _, t, hint) => if input.TakeLoginID? then Some(input.loginID) else if input.TakeProof? && t == Phone then Some(hint) else None
      case IntentMigrateLoginID(_, spec) => Some(spec.value)
      case _ => None
  }

  /** What it makes of it: a fresh identity of the user and type of the intent, unless there is one already. */
  predicate MakesIdentity(r: Reactor, input: Input, env: Env, i: Identity) {
    && ValueAsked(r, input).Some? && !env.serviceError && !env.duplicated && i.id == env.newID && i.loginID == env.normalized
    && (r.intent.IntentCreateLoginID? ==> i.userID == r.intent.userID && i.loginIDType == r.intent.loginIDType)
    && (r.intent.IntentMigrateLoginID? ==> i.userID == r.intent.userID && i.loginIDType == r.intent.identitySpec.loginIDType)
  }

  /** The authenticator of a target: fresh, primary, with the target in the field of its type. */
  predicate IsMadeFor(a: Authn, userID: string, t: AuthnType, isDefault: bool, env: Env) {
    && a.id == env.newID && a.userID == userID && a.typ == t && a.kind == Primary && a.isDefault == isDefault
    && a.email == (if t == OOBEmail then env.normalized else "") && a.phone == (if t == OOBSMS then env.normalized else "")
  }

  /** The target that the authenticator service is asked for. */
  function TargetAsked(r: Reactor): Option<string> {
    if r.ByNode? then None
    else match r.intent
      case IntentCreateOOBOTPAuthenticator(i, _) => if i.loginIDType == Username then None else Some(i.loginID)
      case IntentMigrateOOBOTPAuthenticator(_, spec, _) => Some(if spec.typ == OOBSMS then spec.phone else spec.email)
      case _ => None
  }

  predicate MakesAuthenticator(r: Reactor, env: Env, a: Authn) {
    && TargetAsked(r).Some? && !env.serviceError
    && (r.intent.IntentCreateOOBOTPAuthenticator? ==>
          IsMadeFor(a, r.intent.identity.userID, if r.intent.identity.loginIDType == Phone then OOBSMS else OOBEmail, r.intent.isDefault, env))
    && (r.intent.IntentMigrateOOBOTPAuthenticator? ==> IsMadeFor(a, r.intent.userID, r.intent.authnSpec.typ, r.intent.isDefault, env))
  }

  /** A message goes to the sender: a code for an authenticator or for a verification node, on its channel and
      to its target, unless the channel is off, the cooldown holds or the code cannot be made. */
  predicate IsMessage(r: Reactor, input: Input, env: Env, e: Event) {
    || (ToSend(r, input).Some? && var a := ToSend(r, input).value.authenticator; IsTried(a, env) && e == MessageOf(a))
    || (ToVerify(r, input, env).Some? && !env.cooldown && !env.serviceError
        && var n := ToVerify(r, input, env).value;
        !VerifierOff(n, env) && if n.NodeVerifyPhoneSMS? then e == SmsSent(n.userID, n.phone) else n.NodeVerifyEmail? && e == EmailSent(n.userID, n.email))
  }

  /** When an event happens. */
  ghost predicate Causes(r: Reactor, input: Input, env: Env, e: Event) {
    match e
    case CaptchaPassed(token) => r.ByIntent? && r.intent.IntentVerifyCaptcha? && input == TakeCaptchaToken(token) && Right(env)
    case CodeAccepted(a, code) => r == ByNode(NodeAuthenticateOOBOTPPhone(a)) && input == TakeOOBOTPCode(code) && Right(env)
    case LinkAccepted(a) => r == ByNode(NodeAuthenticateEmailLoginLink(a)) && input == CheckLoginLinkVerified && Right(env)
    case PasswordAccepted(a, password) =>
      && r.ByNode? && r.node.NodeAuthenticatePassword? && input == TakePassword(password) && Right(env)
      && IsFirst(env.authenticators, PasswordOf(r.node.userID, r.node.kind), a)
    case ProofAccepted(proof, spec) => r.ByIntent? && r.intent == IntentVerifyProof(proof) && Right(env) && spec == env.proofSpec
    case Found(spec, i) => r.ByNode? && r.node.NodeVerifiedProof? && r.node.spec == spec && !env.serviceError && env.search == Some(i)
    case ClaimProved(userID, to, code) => r.ByNode? && Verifies(r.node, userID, to) && input == TakeOOBOTPCode(code) && Right(env)
    case ClaimTrusted(userID, to, proof) => r.ByNode? && r.node.NodeVerifyPhoneSMS? && Verifies(r.node, userID, to) && input == TakeProof(proof)
    case IdentityMade(value, i) => ValueAsked(r, input) == Some(value) && MakesIdentity(r, input, env, i)
    case AuthenticatorMade(target, a) => TargetAsked(r) == Some(target) && MakesAuthenticator(r, env, a)
    case SmsSent(_, _) => IsMessage(r, input, env, e)
    case EmailSent(_, _) => IsMessage(r, input, env, e)
  }

  // ---------------------------------------------------------------- appended nodes

  /** A credential of this reactor was right, for this authenticator. */
  ghost predicate ProvesAuthenticator(r: Reactor, input: Input, env: Env, a: Authn) {
    match input
    case TakeOOBOTPCode(code) => Causes(r, input, env, CodeAccepted(a, code))
    case CheckLoginLinkVerified => Causes(r, input, env, LinkAccepted(a))
    case TakePassword(password) => Causes(r, input, env, PasswordAccepted(a, password))
    case _ => false
  }

  /** Verification may be skipped: it is done, or a sign-up does not ask for it. */
  predicate MaySkip(i: Intent, env: Env) {
    && i.IntentVerifyIdentity? && !env.serviceError && i.identity.loginIDType != Username && env.status.Some?
    && (env.status.value.required || env.status.value.triggerable)
    && (env.status.value.verified || (i.isFromSignUp && !env.status.value.required))
  }

  predicate SessionFor(s: EnsureSession, userID: string, reason: CreateReason, amr: seq<string>, intentMode: Mode, env: Env) {
    && s.userID == userID && s.reason == reason
    && if intentMode == UpdateOrCreate && env.contextSession.Some? && env.contextSession.value.userID == userID then
         s.sessionToCreate == None && s.sessionCookie == None && s.updateSessionID == env.contextSession.value.id && s.updateSessionAMR == amr
       else
         && s.updateSessionID == "" && s.updateSessionAMR == []
         && s.sessionToCreate == (if intentMode == Noop then None else Some(IDPSession(env.newID, userID, amr)))
         && s.sessionCookie == (if intentMode == Noop then None else Some(env.token))
  }

  /** When a simple node is appended. */
  ghost predicate AppendsSimple(r: Reactor, input: Input, env: Env, n: SimpleNode) {
    match n
    case NodeVerifiedCaptcha => input.TakeCaptchaToken? && Causes(r, input, env, CaptchaPassed(input.token))
    case NodeAuthenticateOOBOTPPhone(a) => r.ByIntent? && r.intent.IntentAuthenticateOOBOTPPhone? && ToSend(r, input) == Some(Asked(a, false)) && GoesOn(a, false, env)
    case NodeAuthenticateEmailLoginLink(a) => r.ByIntent? && r.intent.IntentAuthenticateEmailLoginLink? && ToSend(r, input) == Some(Asked(a, false)) && GoesOn(a, false, env)
    case NodeAuthenticatePassword(userID, kind) => r == ByIntent(IntentAuthenticatePassword(userID, kind), [])
    case NodeVerifiedAuthenticator(a) =>
      || ProvesAuthenticator(r, input, env, a)
      || (r.ByIntent? && r.intent.IntentAuthenticateOOBOTPPhone? && r.intent.authenticator == a && r.intent.verified && GateOpen(r.intent.captcha, r.nodes))
    case NodeVerifiedProof(captcha, spec) => !captcha && r.ByIntent? && r.intent.IntentVerifyProof? && Right(env) && spec == env.proofSpec
    case NodeDoCreateUser(userID) => r.ByIntent? && (r.intent.IntentSignup? || r.intent.IntentMigrate?) && r.nodes == [] && userID == env.newID
    case NodeDoCreateIdentity(i) => MakesIdentity(r, input, env, i)
    case NodePopulateStandardAttributes(i) =>
      r.ByIntent? && (r.intent.IntentCreateLoginID? || r.intent.IntentMigrateLoginID?) && |r.nodes| == 1 && IdentityOf(r.nodes) == Some(i)
    case NodeVerifiedIdentity(id, claim) =>
      (match r
      case ByNode(m) =>
        && (m.NodeVerifyPhoneSMS? || m.NodeVerifyEmail?) && id == m.identityID
        && claim == Some(if m.NodeVerifyPhoneSMS? then Claim(m.userID, Phone, m.phone) else Claim(m.userID, Email, m.email))
        && ((input.TakeOOBOTPCode? && Right(env)) || (input.TakeProof? && m.NodeVerifyPhoneSMS?))
      case ByIntent(i, nodes) =>
        || (MaySkip(i, env) && id == i.identity.id && claim == None)
        || (i.IntentMigrateLoginID? && |nodes| == 2 && IdentityOf(nodes).Some? && id == IdentityOf(nodes).value.id
            && claim == (if IdentityOf(nodes).value.loginIDType == Username then None
                         else Some(Claim(i.userID, IdentityOf(nodes).value.loginIDType, IdentityOf(nodes).value.loginID)))))
    case NodeVerifyPhoneSMS(_, _, _) => r.ByIntent? && ToVerify(r, input, env) == Some(n) && VerifierGoesOn(n, env)
    case NodeVerifyEmail(_, _, _) => r.ByIntent? && ToVerify(r, input, env) == Some(n) && VerifierGoesOn(n, env)
    case NodeDoCreateAuthenticator(a) =>
      || MakesAuthenticator(r, env, a)
      || (r.ByIntent? && r.intent.IntentCreatePassword? && input.TakeNewPassword? && !env.serviceError
          && a == Authn(env.newID, r.intent.userID, Password, r.intent.kind, r.intent.isDefault, "", ""))
    case NodeMigrateAccount(ids, authns) =>
      r.ByIntent? && r.intent.IntentMigrateAccount? && r.nodes == [] && input.TakeMigrationToken? && !env.serviceError && ids == env.identitySpecs && authns == env.authnSpecs
    case NodeDoEnsureSession(s) =>
      r.ByIntent? && r.intent.IntentEnsureSession? && SessionFor(s, r.intent.userID, r.intent.reason, r.intent.amr, r.intent.mode, env)
  }

  predicate VerifierGoesOn(n: SimpleNode, env: Env) { !VerifierOff(n, env) && (env.cooldown || (!env.serviceError && !env.sendError)) }

  /** The user created at the start of a sign-up or migration, once the flow has come as far as `count` nodes. */
  predicate StepOfUser(r: Reactor, count: nat, userID: string) {
    r.ByIntent? && (r.intent.IntentSignup? || r.intent.IntentMigrate?) && |r.nodes| == count && UserIDOf(r.nodes) == Some(userID)
  }

  function SessionMode(env: Env, otherwise: Mode): Mode { if env.suppressCookie then Noop else otherwise }

  /** When a sub-workflow of this intent is started. */
  ghost predicate Starts(r: Reactor, input: Input, env: Env, i: Intent) {
    match i
    case IntentAuthenticate(captcha) => captcha && r == ByIntent(IntentProtectedAuthenticate, [])
    case IntentVerifyProof(proof) => r.ByIntent? && r.intent.IntentAuthenticate? && input == TakeProof(proof)
    case IntentLogin(captcha, identity, verified) =>
      && !env.serviceError && env.search == Some(identity)
      && (if verified then r.ByNode? && r.node.NodeVerifiedProof? && r.node.captcha == captcha
          else r.ByIntent? && r.intent == IntentAuthenticate(captcha) && input.TakeLoginID?)
    case IntentSignup(captcha, hint) =>
      && !env.serviceError && env.search == None
      && ((r.ByNode? && r.node.NodeVerifiedProof? && r.node.captcha == captcha && hint == r.node.spec.value)
          || (r.ByIntent? && r.intent == IntentAuthenticate(captcha) && input.TakeLoginID? && hint == ""))
    case IntentAuthenticateOOBOTPPhone(captcha, a, verified) =>
      && r.ByIntent? && r.intent.IntentLogin? && r.nodes == [] && r.intent.captcha == captcha && r.intent.identityVerified == verified
      && !env.serviceError && IsFirst(env.authenticators, PhoneOf(r.intent.identity), a)
    case IntentVerifyCaptcha =>
      && r.ByIntent? && (r.intent.IntentAuthenticateOOBOTPPhone? || MustVerify(r.intent, env)) && !GateOpen(r.intent.captcha, r.nodes)
    case IntentAuthenticateEmailLoginLink(a) =>
      && r.ByIntent? && r.intent.IntentLogin? && |r.nodes| == 1 && input == SelectAuthenticatorType(OOBEmail)
      && !env.serviceError && IsFirst(env.authenticators, EmailOf(r.intent.identity.userID), a)
    case IntentAuthenticatePassword(userID, kind) =>
      && r.ByIntent? && kind == Primary
      && ((r.intent.IntentLogin? && |r.nodes| == 1 && input == SelectAuthenticatorType(Password) && userID == r.intent.identity.userID)
          || (r.intent == IntentReauthenticate(userID) && userID != "" && r.nodes == []))
    case IntentEnsureSession(userID, reason, amr, mode) =>
      && r.ByIntent?
      && (match reason
         case Login =>
           && r.intent.IntentLogin? && |r.nodes| == 2 && userID == r.intent.identity.userID && amr == GetAMROf(r.nodes) && mode == SessionMode(env, Create)
         case Signup => StepOfUser(r, 4, userID) && amr == [] && mode == SessionMode(env, Create)
         case Reauthenticate =>
           && r.intent == IntentReauthenticate(userID) && userID != "" && |r.nodes| == 1 && amr == GetAMROf(r.nodes) && mode == SessionMode(env, UpdateOrCreate))
    case IntentCreateLoginID(captcha, userID, t, hint) =>
      (match t
      case Phone => StepOfUser(r, 1, userID) && r.intent == IntentSignup(captcha, hint)
      case Email => StepOfUser(r, 2, userID) && !captcha && hint == (if r.intent.IntentSignup? then r.intent.hint else "")
      case Username => false)
    case IntentVerifyIdentity(captcha, identity, isFromSignUp) =>
      && r.ByIntent? && r.intent.IntentCreateLoginID? && r.intent.captcha == captcha && |r.nodes| == 2 && IdentityOf(r.nodes) == Some(identity) && isFromSignUp
    case IntentCreateOOBOTPAuthenticator(identity, isDefault) =>
      && r.ByIntent? && r.intent.IntentCreateLoginID? && |r.nodes| == 3 && IdentityOf(r.nodes) == Some(identity) && !isDefault
    case IntentCreatePassword(userID, kind, isDefault) => StepOfUser(r, 3, userID) && kind == Primary && !isDefault
    case IntentMigrateAccount(userID) => StepOfUser(r, 1, userID) && r.intent.IntentMigrate?
    case IntentMigrateIdentities(userID, specs) =>
      r.ByIntent? && r.intent == IntentMigrateAccount(userID) && |r.nodes| == 1 && specs == IdentityMigrateSpecs(r.nodes)
    case IntentMigrateAuthenticators(userID, specs) =>
      r.ByIntent? && r.intent == IntentMigrateAccount(userID) && |r.nodes| == 2 && specs == AuthnMigrateSpecs(r.nodes)
    case IntentMigrateLoginID(userID, spec) =>
      && r.ByIntent? && r.intent.IntentMigrateIdentities? && r.intent.userID == userID
      && |r.nodes| < |r.intent.identitySpecs| && spec == r.intent.identitySpecs[|r.nodes|] && spec.isLoginID
    case IntentMigrateOOBOTPAuthenticator(userID, spec, isDefault) =>
      && r.ByIntent? && r.intent.IntentMigrateAuthenticators? && r.intent.userID == userID
      && |r.nodes| < |r.intent.authnSpecs| && spec == r.intent.authnSpecs[|r.nodes|] && (spec.typ == OOBEmail || spec.typ == OOBSMS)
      && isDefault == (r.nodes == [])
    case IntentProtectedAuthenticate => false
    case IntentMigrate => false
    case IntentReauthenticate(_) => false
  }

  /** When a node is appended. */
  ghost predicate Appends(r: Reactor, input: Input, env: Env, n: Node) {
    match n
    case Simple(s) => AppendsSimple(r, input, env, s)
    case SubWorkflow(sub) => sub.nodes == [] && Starts(r, input, env, sub.intent)
  }

  /** The nodes that write to the database as soon as they are appended. */
  predicate WritesAtOnce(n: Node) {
    n.Simple? && match n.simple
      case NodeVerifiedAuthenticator(_) => true
      case NodeVerifiedIdentity(_, _) => true
      case NodeDoCreateUser(_) => true
      case NodeDoCreateIdentity(_) => true
      case NodePopulateStandardAttributes(_) => true
      case NodeDoCreateAuthenticator(_) => true
      case NodeVerifiedCaptcha => false
      case NodeAuthenticateOOBOTPPhone(_) => false
      case NodeAuthenticateEmailLoginLink(_) => false
      case NodeAuthenticatePassword(_, _) => false
      case NodeVerifiedProof(_, _) => false
      case NodeVerifyPhoneSMS(_, _, _) => false
      case NodeVerifyEmail(_, _, _) => false
      case NodeMigrateAccount(_, _) => false
      case NodeDoEnsureSession(_) => false
  }

  // ---------------------------------------------------------------- staying, refusing

  /** A resend that went out leaves everything as it is. */
  ghost predicate Resends(r: Reactor, input: Input, env: Env) {
    && r.ByNode? && input == ResendOOBOTPCode
    && match r.node
       case NodeAuthenticateOOBOTPPhone(a) => GoesOn(a, true, env)
       case NodeAuthenticateEmailLoginLink(a) => GoesOn(a, true, env)
       case _ => (r.node.NodeVerifyPhoneSMS? || r.node.NodeVerifyEmail?) && !env.cooldown && VerifierGoesOn(r.node, env)
  }

  /** The inputs a reactor takes; an intent that needs none takes any. */
  predicate Takes(r: Reactor, input: Input) {
    match r
    case ByNode(n) =>
      (match n
       case NodeAuthenticateOOBOTPPhone(_) => input.TakeOOBOTPCode? || input.ResendOOBOTPCode?
       case NodeAuthenticateEmailLoginLink(_) => input.CheckLoginLinkVerified? || input.ResendOOBOTPCode?
       case NodeAuthenticatePassword(_, _) => input.TakePassword?
       case NodeVerifiedProof(_, _) => true
       case NodeVerifyPhoneSMS(_, _, _) => input.TakeOOBOTPCode? || input.ResendOOBOTPCode? || input.TakeProof?
       case NodeVerifyEmail(_, _, _) => input.TakeOOBOTPCode? || input.ResendOOBOTPCode?
       case _ => false)
    case ByIntent(i, nodes) =>
      match i
      case IntentAuthenticate(_) => input.TakeLoginID? || input.TakeProof?
      case IntentLogin(_, _, _) => |nodes| == 1 ==> input in {SelectAuthenticatorType(OOBEmail), SelectAuthenticatorType(Password)}
      case IntentVerifyCaptcha => input.TakeCaptchaToken?
      case IntentCreateLoginID(_, _, t, _) => nodes == [] ==> input.TakeLoginID? || (input.TakeProof? && t == Phone)
      case IntentCreatePassword(_, _, _) => input.TakeNewPassword?
      case IntentMigrateAccount(_) => nodes == [] ==> input.TakeMigrationToken?
      case IntentAuthenticateOOBOTPPhone(captcha, _, verified) => GateOpen(captcha, nodes) && !verified ==> !CodeNodeStands(nodes)
      case _ => true
  }

  // ---------------------------------------------------------------- failing

  /** A credential is taken here. */
  predicate TakesCredential(r: Reactor, input: Input) {
    && Takes(r, input)
    && match r
       case ByNode(n) => !n.NodeVerifiedProof? && !input.ResendOOBOTPCode? && !input.TakeProof?
       case ByIntent(i, _) => i.IntentVerifyCaptcha? || i.IntentVerifyProof?
  }

  predicate NoPassword(r: Reactor, env: Env) {
    r.ByNode? && r.node.NodeAuthenticatePassword? && NoneWanted(env.authenticators, PasswordOf(r.node.userID, r.node.kind))
  }

  /** Why a reaction fails; every other failure is a service error. */
  ghost predicate FailsBecause(r: Reactor, input: Input, env: Env, why: Failure) {
    match why
    case InvalidCredentials => TakesCredential(r, input) && !env.serviceError && (!env.accepted || NoPassword(r, env))
    case NoAuthenticator =>
      && r.ByIntent? && r.intent.IntentLogin? && !env.serviceError
      && ((|r.nodes| == 0 && NoneWanted(env.authenticators, PhoneOf(r.intent.identity)))
          || (|r.nodes| == 1 && input == SelectAuthenticatorType(OOBEmail) && NoneWanted(env.authenticators, EmailOf(r.intent.identity.userID))))
    case ClaimNotVerifiable =>
      && r.ByIntent? && r.intent.IntentVerifyIdentity? && !env.serviceError
      && (r.intent.identity.loginIDType == Username || env.status.None? || !(env.status.value.required || env.status.value.triggerable))
    case FeatureDisabled =>
      || (ToSend(r, input).Some? && var a := ToSend(r, input).value.authenticator; HasTarget(a) && ChannelOff(a, env))
      || (ToVerify(r, input, env).Some? && VerifierOff(ToVerify(r, input, env).value, env))
    case NotReauthentication => r.ByIntent? && r.intent == IntentReauthenticate("")
    case Panicked =>
      || (ToSend(r, input).Some? && !HasTarget(ToSend(r, input).value.authenticator))
      || (r.ByIntent? && r.nodes != [] && (r.intent.IntentSignup? || r.intent.IntentMigrate?) && UserIDOf(r.nodes).None?)
      || (r.ByIntent? && r.nodes != [] && (r.intent.IntentCreateLoginID? || r.intent.IntentMigrateLoginID?) && IdentityOf(r.nodes).None?)
      || (r.ByIntent? && r.intent.IntentCreateOOBOTPAuthenticator? && r.intent.identity.loginIDType == Username)
      || (r.ByIntent? && r.intent.IntentMigrateIdentities? && |r.nodes| < |r.intent.identitySpecs| && !r.intent.identitySpecs[|r.nodes|].isLoginID)
      || (r.ByIntent? && r.intent.IntentMigrateAuthenticators? && |r.nodes| < |r.intent.authnSpecs|
          && r.intent.authnSpecs[|r.nodes|].typ != OOBEmail && r.intent.authnSpecs[|r.nodes|].typ != OOBSMS)
    case ServiceError => false
  }

  // ---------------------------------------------------------------- the reactions obey

  /** A simple node, last of `count` nodes, asks for an input or goes on by itself. */
  predicate Asks(n: SimpleNode, count: nat) {
    match n
    case NodeAuthenticateOOBOTPPhone(_) => true
    case NodeAuthenticateEmailLoginLink(_) => true
    case NodeAuthenticatePassword(_, _) => true
    case NodeVerifyPhoneSMS(_, _, _) => true
    case NodeVerifyEmail(_, _, _) => true
    case NodeVerifiedProof(_, _) => count == 1
    case NodeVerifiedCaptcha => false
    case NodeVerifiedAuthenticator(_) => false
    case NodeDoCreateUser(_) => false
    case NodeDoCreateIdentity(_) => false
    case NodePopulateStandardAttributes(_) => false
    case NodeVerifiedIdentity(_, _) => false
    case NodeDoCreateAuthenticator(_) => false
    case NodeMigrateAccount(_, _) => false
    case NodeDoEnsureSession(_) => false
  }

  /** An intent with this many nodes has a step of its own to take next; with the captcha flag the two that may ask
      for a captcha have one more. */
  predicate HasStep(i: Intent, count: nat) {
    match i
    case IntentLogin(_, _, _) => count in {0, 1, 2}
    case IntentSignup(_, _) => count in {0, 1, 2, 3, 4}
    case IntentMigrate => count in {0, 1, 2, 3, 4}
    case IntentAuthenticateOOBOTPPhone(captcha, _, _) => count == 0 || (captcha && count == 1)
    case IntentVerifyIdentity(captcha, _, _) => count == 0 || (captcha && count == 1)
    case IntentCreateLoginID(_, _, _, _) => count in {0, 1, 2, 3}
    case IntentMigrateAccount(_) => count in {0, 1, 2}
    case IntentMigrateLoginID(_, _) => count in {0, 1, 2}
    case IntentMigrateIdentities(_, specs) => count < |specs|
    case IntentMigrateAuthenticators(_, specs) => count < |specs|
    case IntentReauthenticate(_) => count in {0, 1}
    case IntentProtectedAuthenticate => count == 0
    case IntentAuthenticate(_) => count == 0
    case IntentVerifyProof(_) => count == 0
    case IntentVerifyCaptcha => count == 0
    case IntentAuthenticateEmailLoginLink(_) => count == 0
    case IntentAuthenticatePassword(_, _) => count == 0
    case IntentEnsureSession(_, _, _, _) => count == 0
    case IntentCreateOOBOTPAuthenticator(_, _) => count == 0
    case IntentCreatePassword(_, _, _) => count == 0
    case IntentMigrateOOBOTPAuthenticator(_, _, _) => count == 0
  }

  /** CanReactTo, place by place. */
  lemma CanReactTo(i: Intent, nodes: seq<Node>, n: SimpleNode, count: nat)
    ensures IntentCanReact(i, nodes) <==> HasStep(i, |nodes|)
    ensures NodeCanReact(n, count) <==> Asks(n, count)
  {
  }

  /** A node that asks takes some input, and one that never asks refuses all. */
  lemma AsksMeansTakes(n: SimpleNode)
    ensures Asks(n, 1) <==> exists input :: Takes(ByNode(n), input)
  {
    assert Takes(ByNode(n), TakeOOBOTPCode("")) || Takes(ByNode(n), CheckLoginLinkVerified) || Takes(ByNode(n), TakePassword("")) || !Asks(n, 1);
  }

  predicate Reacts(r: Reactor) {
    match r
    case ByNode(n) => Asks(n, 1)
    case ByIntent(i, nodes) => HasStep(i, |nodes|)
  }

  ghost predicate EventsObey(r: Reactor, input: Input, env: Env) {
    && |ReplyOf(r, input, env).events| <= 1
    && forall e :: e in ReplyOf(r, input, env).events <==> Causes(r, input, env, e)
  }

  ghost predicate SimplesObey(r: Reactor, input: Input, env: Env) {
    forall s :: ReplyOf(r, input, env).reaction == Next(Simple(s)) <==> AppendsSimple(r, input, env, s)
  }

  ghost predicate StartsObey(r: Reactor, input: Input, env: Env) {
    forall w :: ReplyOf(r, input, env).reaction == Next(SubWorkflow(w)) <==> w.nodes == [] && Starts(r, input, env, w.intent)
  }

  ghost predicate StaysObey(r: Reactor, input: Input, env: Env) {
    var reaction := ReplyOf(r, input, env).reaction;
    && (reaction.SameNode? || reaction.UpdateNode? <==> Resends(r, input, env))
    && (reaction.UpdateNode? ==> r.ByNode? && reaction.node == Simple(r.node))
    && (reaction.Incompatible? <==> !Takes(r, input))
  }

  ghost predicate FailuresObey(r: Reactor, input: Input, env: Env) {
    forall why :: why != ServiceError ==> (ReplyOf(r, input, env).reaction == Failed(why) <==> FailsBecause(r, input, env, why))
  }
}
