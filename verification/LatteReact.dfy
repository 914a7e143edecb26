/**
 CanReactTo and ReactTo of the latte intents and nodes, one function for each source file.

 `nodes` are the nodes of the nearest workflow, the one the reactor belongs to.
 */
module LatteReact {
  import opened Wrappers
  import opened LatteTypes
  import opened Amr

  /** What ReactTo returned: a node, ErrUpdateNode, ErrSameNode, ErrIncompatibleInput or another error. */
  datatype Reaction = Next(node: Node) | UpdateNode(node: Node) | SameNode | Incompatible | Failed(why: Failure)

  datatype Reply = Reply(reaction: Reaction, events: seq<Event>)

  function Quiet(r: Reaction): Reply { Reply(r, []) }

  function Fail(why: Failure): Reply { Reply(Failed(why), []) }

  function Grow(n: SimpleNode): Reply { Quiet(Next(Simple(n))) }

  function Start(i: Intent): Reply { Quiet(Next(Sub(i))) }

  // ---------------------------------------------------------------- CanReactTo

  /** Whether a simple node, last of `count` nodes, reacts; otherwise it answers ErrEOF. */
  predicate NodeCanReact(n: SimpleNode, count: nat) {
    || n.NodeAuthenticateOOBOTPPhone? || n.NodeAuthenticateEmailLoginLink? || n.NodeAuthenticatePassword?
    || n.NodeVerifyPhoneSMS? || n.NodeVerifyEmail?
    || (n.NodeVerifiedProof? && count == 1)
  }

  /** With how many nodes an intent still reacts: it does below this number. */
  function Arity(i: Intent): nat {
    match i
    case IntentLogin(_, _, _) => 3
    case IntentSignup(_, _) => 5
    case IntentMigrate => 5
    case IntentAuthenticateOOBOTPPhone(captcha, _, _) => if captcha then 2 else 1
    case IntentVerifyIdentity(captcha, _, _) => if captcha then 2 else 1
    case IntentCreateLoginID(_, _, _, _) => 4
    case IntentMigrateAccount(_) => 3
    case IntentMigrateIdentities(_, specs) => |specs|
    case IntentMigrateAuthenticators(_, specs) => |specs|
    case IntentMigrateLoginID(_, _) => 3
    case IntentReauthenticate(_) => 2
    case _ => 1
  }

  predicate IntentCanReact(i: Intent, nodes: seq<Node>) { |nodes| < Arity(i) }

  // ---------------------------------------------------------------- sending codes

  datatype SendResult = Sent(events: seq<Event>) | CooldownIgnored | NotSent(why: Failure, tried: seq<Event>)

  /** SendOOBCode.Do (utils_authn.go): an initial send hit by the cooldown is silently skipped. */
  function SendOOBCode(a: Authn, isResend: bool, env: Env): SendResult {
    if a.typ != OOBSMS && a.typ != OOBEmail then NotSent(Panicked, [])
    else if a.typ == OOBSMS && (if a.kind == Primary then env.phoneDisabled else env.secondarySMSDisabled) then NotSent(FeatureDisabled, [])
    else if env.cooldown && !isResend then CooldownIgnored
    else if env.cooldown || env.serviceError then NotSent(ServiceError, [])
    else
      var e := if a.typ == OOBSMS then SmsSent(a.userID, a.phone) else EmailSent(a.userID, a.email);
      if env.sendError then NotSent(ServiceError, [e]) else Sent([e])
  }

  function AfterSend(r: SendResult, reaction: Reaction): Reply {
    match r
    case Sent(events) => Reply(reaction, events)
    case CooldownIgnored => Quiet(reaction)
    case NotSent(why, tried) => Reply(Failed(why), tried)
  }

  // ---------------------------------------------------------------- nodes

  function NodeAuthenticatePhoneReact(a: Authn, input: Input, env: Env): Reply {
    match input
    case ResendOOBOTPCode => AfterSend(SendOOBCode(a, true, env), SameNode)
    case TakeOOBOTPCode(code) =>
      if env.serviceError then Fail(ServiceError)
      else if !env.accepted then Fail(InvalidCredentials)
      else Reply(Next(Simple(NodeVerifiedAuthenticator(a))), [CodeAccepted(a, code)])
    case _ => Quiet(Incompatible)
  }

  function NodeEmailLinkReact(a: Authn, input: Input, env: Env): Reply {
    match input
    case ResendOOBOTPCode => AfterSend(SendOOBCode(a, true, env), SameNode)
    case CheckLoginLinkVerified =>
      if env.serviceError then Fail(ServiceError)
      else if !env.accepted then Fail(InvalidCredentials)
      else Reply(Next(Simple(NodeVerifiedAuthenticator(a))), [LinkAccepted(a)])
    case _ => Quiet(Incompatible)
  }

  function NodePasswordReact(userID: string, kind: Kind, input: Input, env: Env): Reply {
    match input
    case TakePassword(password) =>
      var ais := List(env, userID, (a: Authn) => a.kind == kind && a.typ == Password);
      if env.serviceError then Fail(ServiceError)
      else if ais == [] then Fail(InvalidCredentials)
      else if !env.accepted then Fail(InvalidCredentials)
      else Reply(Next(Simple(NodeVerifiedAuthenticator(ais[0]))), [PasswordAccepted(ais[0], password)])
    case _ => Quiet(Incompatible)
  }

  function NodeVerifiedProofReact(captcha: bool, spec: Spec, env: Env): Reply {
    if env.serviceError then Fail(ServiceError)
    else if env.search.None? then Start(IntentSignup(captcha, spec.value))
    else Reply(Next(Sub(IntentLogin(captcha, env.search.value, true))), [Found(spec, env.search.value)])
  }

  /** The verification nodes' sendCode: no cooldown is ignored here. */
  function SendVerification(n: SimpleNode, env: Env): SendResult
    requires n.NodeVerifyPhoneSMS? || n.NodeVerifyEmail?
  {
    if n.NodeVerifyPhoneSMS? && env.phoneDisabled then NotSent(FeatureDisabled, [])
    else if env.cooldown then CooldownIgnored
    else if env.serviceError then NotSent(ServiceError, [])
    else
      var e := if n.NodeVerifyPhoneSMS? then SmsSent(n.userID, n.phone) else EmailSent(n.userID, n.email);
      if env.sendError then NotSent(ServiceError, [e]) else Sent([e])
  }

  function ClaimOf(n: SimpleNode): Claim
    requires n.NodeVerifyPhoneSMS? || n.NodeVerifyEmail?
  {
    if n.NodeVerifyPhoneSMS? then Claim(n.userID, Phone, n.phone) else Claim(n.userID, Email, n.email)
  }

  /** A proof of phone-number verification is taken at its word by the SMS node. */
  function NodeVerifyReact(n: SimpleNode, input: Input, env: Env): Reply
    requires n.NodeVerifyPhoneSMS? || n.NodeVerifyEmail?
  {
    var verified := Next(Simple(NodeVerifiedIdentity(n.identityID, Some(ClaimOf(n)))));
    match input
    case TakeOOBOTPCode(code) =>
      if env.serviceError then Fail(ServiceError)
      else if !env.accepted then Fail(InvalidCredentials)
      else Reply(verified, [ClaimProved(n.userID, ClaimOf(n).value, code)])
    case ResendOOBOTPCode =>
      var sent := SendVerification(n, env);
      if sent.CooldownIgnored? then Fail(ServiceError) else AfterSend(sent, UpdateNode(Simple(n)))
    case TakeProof(proof) =>
      if n.NodeVerifyPhoneSMS? then Reply(verified, [ClaimTrusted(n.userID, n.phone, proof)]) else Quiet(Incompatible)
    case _ => Quiet(Incompatible)
  }

  function NodeReact(n: SimpleNode, input: Input, env: Env): Reply {
    match n
    case NodeAuthenticateOOBOTPPhone(a) => NodeAuthenticatePhoneReact(a, input, env)
    case NodeAuthenticateEmailLoginLink(a) => NodeEmailLinkReact(a, input, env)
    case NodeAuthenticatePassword(userID, kind) => NodePasswordReact(userID, kind, input, env)
    case NodeVerifiedProof(captcha, spec) => NodeVerifiedProofReact(captcha, spec, env)
    case NodeVerifyPhoneSMS(_, _, _) => NodeVerifyReact(n, input, env)
    case NodeVerifyEmail(_, _, _) => NodeVerifyReact(n, input, env)
    case _ => Quiet(Incompatible)
  }

  // ---------------------------------------------------------------- authenticating intents

  function AuthenticateReact(captcha: bool, input: Input, env: Env): Reply {
    match input
    case TakeLoginID(loginID) =>
      if env.serviceError then Fail(ServiceError)
      else if env.search.None? then Start(IntentSignup(captcha, ""))
      else Start(IntentLogin(captcha, env.search.value, false))
    case TakeProof(proof) => Start(IntentVerifyProof(proof))
    case _ => Quiet(Incompatible)
  }

  function VerifyProofReact(proof: string, env: Env): Reply {
    if env.serviceError then Fail(ServiceError)
    else if !env.accepted then Fail(InvalidCredentials)
    else Reply(Next(Simple(NodeVerifiedProof(false, env.proofSpec))), [ProofAccepted(proof, env.proofSpec)])
  }

  function EnsureMode(env: Env, otherwise: Mode): Mode { if env.suppressCookie then Noop else otherwise }

  function LoginReact(captcha: bool, identity: Identity, verified: bool, nodes: seq<Node>, input: Input, env: Env): Reply {
    if |nodes| == 0 then
      var ais := List(env, identity.userID, (a: Authn) => KeepPrimaryAuthenticatorOfIdentity(identity, a) && a.typ == OOBSMS);
      if env.serviceError then Fail(ServiceError)
      else if ais == [] then Fail(NoAuthenticator)
      else Start(IntentAuthenticateOOBOTPPhone(captcha, ais[0], verified))
    else if |nodes| == 1 then
      if input == SelectAuthenticatorType(OOBEmail) then
        var ais := List(env, identity.userID, (a: Authn) => a.kind == Primary && a.typ == OOBEmail);
        if env.serviceError then Fail(ServiceError)
        else if ais == [] then Fail(NoAuthenticator)
        else Start(IntentAuthenticateEmailLoginLink(ais[0]))
      else if input == SelectAuthenticatorType(Password) then
        Start(IntentAuthenticatePassword(identity.userID, Primary))
      else Quiet(Incompatible)
    else if |nodes| == 2 then
      Start(IntentEnsureSession(identity.userID, Login, GetAMROf(nodes), EnsureMode(env, Create)))
    else Quiet(Incompatible)
  }

  predicate HasCodeNode(nodes: seq<Node>) { FindSingleNode(nodes, (n: SimpleNode) => n.NodeAuthenticateOOBOTPPhone?).Some? }

  function AuthenticatePhoneReact(captcha: bool, a: Authn, verified: bool, nodes: seq<Node>, env: Env): Reply {
    if captcha && !HasCaptchaSub(nodes) then Start(IntentVerifyCaptcha)
    else if verified then Grow(NodeVerifiedAuthenticator(a))
    else if !HasCodeNode(nodes) then
      AfterSend(SendOOBCode(a, false, env), Next(Simple(NodeAuthenticateOOBOTPPhone(a))))
    else Quiet(Incompatible)
  }

  function VerifyCaptchaReact(input: Input, env: Env): Reply {
    match input
    case TakeCaptchaToken(token) =>
      if env.serviceError then Fail(ServiceError)
      else if !env.accepted then Fail(InvalidCredentials)
      else Reply(Next(Simple(NodeVerifiedCaptcha)), [CaptchaPassed(token)])
    case _ => Quiet(Incompatible)
  }

  function EmailLoginLinkReact(a: Authn, nodes: seq<Node>, env: Env): Reply {
    if |nodes| == 0 then AfterSend(SendOOBCode(a, false, env), Next(Simple(NodeAuthenticateEmailLoginLink(a))))
    else Quiet(Incompatible)
  }

  function ReauthenticateReact(hint: string, nodes: seq<Node>, env: Env): Reply {
    if hint == "" then Fail(NotReauthentication)
    else if |nodes| == 0 then Start(IntentAuthenticatePassword(hint, Primary))
    else if |nodes| == 1 then
      Start(IntentEnsureSession(hint, Reauthenticate, GetAMROf(nodes), EnsureMode(env, UpdateOrCreate)))
    else Quiet(Incompatible)
  }

  // ---------------------------------------------------------------- AMR of direct sub-workflows

  predicate IsAMRGetter(i: Intent) {
    i.IntentAuthenticateOOBOTPPhone? || i.IntentAuthenticateEmailLoginLink? || i.IntentAuthenticatePassword?
  }

  /** GetAMR of the three authenticating sub-workflows. */
  function AMROfWorkflow(w: Workflow): seq<string> {
    var n := FindSingleNode(w.nodes, (n: SimpleNode) => n.NodeVerifiedAuthenticator?);
    if n.Some? && n.value.NodeVerifiedAuthenticator? then AMROf(n.value.authenticator) else []
  }

  function AMRLists(ws: seq<Workflow>): (r: seq<seq<string>>)
    ensures |r| == |ws|
    ensures forall k :: 0 <= k < |ws| ==> r[k] == AMROfWorkflow(ws[k])
  {
    if ws == [] then [] else AMRLists(ws[..|ws| - 1]) + [AMROfWorkflow(ws[|ws| - 1])]
  }

  function GetAMROf(nodes: seq<Node>): seq<string> {
    AmrOf(AMRLists(FindSubWorkflows(nodes, IsAMRGetter)))
  }

  // ---------------------------------------------------------------- sessions

  /** A session is created with a cookie, updated in place, or left alone. */
  function EnsureSessionReact(userID: string, reason: CreateReason, amr: seq<string>, intentMode: Mode, env: Env): Reply {
    var mode := if intentMode == Default then Create else intentMode;
    var updates := mode == UpdateOrCreate && env.contextSession.Some? && env.contextSession.value.userID == userID;
    var creates := !updates && mode != Noop;
    Grow(NodeDoEnsureSession(EnsureSession(
      userID, reason,
      if creates then Some(IDPSession(env.newID, userID, amr)) else None,
      if creates then Some(env.token) else None,
      if updates then env.contextSession.value.id else "",
      if updates then amr else [])))
  }

  // ---------------------------------------------------------------- signing up

  function UserIDOf(nodes: seq<Node>): Option<string> {
    var n := FindSingleNode(nodes, (n: SimpleNode) => n.NodeDoCreateUser?);
    if n.Some? && n.value.NodeDoCreateUser? then Some(n.value.userID) else None
  }

  function IdentityOf(nodes: seq<Node>): Option<Identity> {
    var n := FindSingleNode(nodes, (n: SimpleNode) => n.NodeDoCreateIdentity?);
    if n.Some? && n.value.NodeDoCreateIdentity? then Some(n.value.identity) else None
  }

  function SignupReact(captcha: bool, hint: string, nodes: seq<Node>, env: Env): Reply {
    var user := UserIDOf(nodes);
    if |nodes| == 0 then Grow(NodeDoCreateUser(env.newID))
    else if |nodes| > 4 then Quiet(Incompatible)
    else if user.None? then Fail(Panicked)
    else if |nodes| == 1 then Start(IntentCreateLoginID(captcha, user.value, Phone, hint))
    else if |nodes| == 2 then Start(IntentCreateLoginID(false, user.value, Email, hint))
    else if |nodes| == 3 then Start(IntentCreatePassword(user.value, Primary, false))
    else Start(IntentEnsureSession(user.value, Signup, [], EnsureMode(env, Create)))
  }

  function MigrateReact(nodes: seq<Node>, env: Env): Reply {
    var user := UserIDOf(nodes);
    if |nodes| == 0 then Grow(NodeDoCreateUser(env.newID))
    else if |nodes| > 4 then Quiet(Incompatible)
    else if user.None? then Fail(Panicked)
    else if |nodes| == 1 then Start(IntentMigrateAccount(user.value))
    else if |nodes| == 2 then Start(IntentCreateLoginID(false, user.value, Email, ""))
    else if |nodes| == 3 then Start(IntentCreatePassword(user.value, Primary, false))
    else Start(IntentEnsureSession(user.value, Signup, [], EnsureMode(env, Create)))
  }

  /** Identities.New of a login ID, then CheckDuplicated. */
  function CreateIdentity(userID: string, t: LoginIDType, value: string, env: Env): Reply {
    if env.serviceError || env.duplicated then Fail(ServiceError)
    else
      var i := Identity(env.newID, userID, t, env.normalized);
      Reply(Next(Simple(NodeDoCreateIdentity(i))), [IdentityMade(value, i)])
  }

  /** A proof brings no login ID: the hint of the sign-up is taken. */
  function CreateLoginIDReact(captcha: bool, userID: string, t: LoginIDType, hint: string, nodes: seq<Node>, input: Input, env: Env): Reply {
    var iden := IdentityOf(nodes);
    if |nodes| == 0 then
      if input.TakeLoginID? then CreateIdentity(userID, t, input.loginID, env)
      else if input.TakeProof? && t == Phone then CreateIdentity(userID, t, hint, env)
      else Quiet(Incompatible)
    else if |nodes| > 3 then Quiet(Incompatible)
    else if iden.None? then Fail(Panicked)
    else if |nodes| == 1 then Grow(NodePopulateStandardAttributes(iden.value))
    else if |nodes| == 2 then Start(IntentVerifyIdentity(captcha, iden.value, true))
    else Start(IntentCreateOOBOTPAuthenticator(iden.value, false))
  }

  /** The claim of a login ID identity is named after its type; a username has none. */
  function VerifyIdentityReact(captcha: bool, i: Identity, isFromSignUp: bool, nodes: seq<Node>, env: Env): Reply {
    if env.serviceError then Fail(ServiceError)
    else if i.loginIDType == Username || env.status.None? || !(env.status.value.required || env.status.value.triggerable) then
      Fail(ClaimNotVerifiable)
    else if env.status.value.verified || (isFromSignUp && !env.status.value.required) then
      Grow(NodeVerifiedIdentity(i.id, None))
    else if captcha && !HasCaptchaSub(nodes) then Start(IntentVerifyCaptcha)
    else
      var n := if i.loginIDType == Email then NodeVerifyEmail(i.userID, i.id, i.loginID) else NodeVerifyPhoneSMS(i.userID, i.id, i.loginID);
      AfterSend(SendVerification(n, env), Next(Simple(n)))
  }

  /** NewWithAuthenticatorID for a target keeps the owner, kind, type and default flag it is given. */
  function CreateAuthenticator(userID: string, t: AuthnType, target: string, isDefault: bool, env: Env): Reply {
    if env.serviceError then Fail(ServiceError)
    else
      var a := Authn(env.newID, userID, t, Primary, isDefault,
        if t == OOBEmail then env.normalized else "", if t == OOBSMS then env.normalized else "");
      Reply(Next(Simple(NodeDoCreateAuthenticator(a))), [AuthenticatorMade(target, a)])
  }

  function CreateOOBOTPAuthenticatorReact(i: Identity, isDefault: bool, env: Env): Reply {
    match i.loginIDType
    case Username => Fail(Panicked)
    case Phone => CreateAuthenticator(i.userID, OOBSMS, i.loginID, isDefault, env)
    case Email => CreateAuthenticator(i.userID, OOBEmail, i.loginID, isDefault, env)
  }

  function CreatePasswordReact(userID: string, kind: Kind, isDefault: bool, input: Input, env: Env): Reply {
    if !input.TakeNewPassword? then Quiet(Incompatible)
    else if env.serviceError then Fail(ServiceError)
    else Grow(NodeDoCreateAuthenticator(Authn(env.newID, userID, Password, kind, isDefault, "", "")))
  }

  // ---------------------------------------------------------------- migration

  function MigrateNode(nodes: seq<Node>): Option<SimpleNode> {
    FindSingleNode(nodes, (n: SimpleNode) => n.NodeMigrateAccount?)
  }

  function IdentityMigrateSpecs(nodes: seq<Node>): seq<IdentityMigrateSpec> {
    var n := MigrateNode(nodes);
    if n.Some? && n.value.NodeMigrateAccount? then n.value.identitySpecs else []
  }

  function AuthnMigrateSpecs(nodes: seq<Node>): seq<AuthnMigrateSpec> {
    var n := MigrateNode(nodes);
    if n.Some? && n.value.NodeMigrateAccount? then n.value.authnSpecs else []
  }

  function MigrateAccountReact(userID: string, nodes: seq<Node>, input: Input, env: Env): Reply {
    if |nodes| == 0 then
      if !input.TakeMigrationToken? then Quiet(Incompatible)
      else if env.serviceError then Fail(ServiceError)
      else Grow(NodeMigrateAccount(env.identitySpecs, env.authnSpecs))
    else if |nodes| == 1 then Start(IntentMigrateIdentities(userID, IdentityMigrateSpecs(nodes)))
    else if |nodes| == 2 then Start(IntentMigrateAuthenticators(userID, AuthnMigrateSpecs(nodes)))
    else Quiet(Incompatible)
  }

  function MigrateIdentitiesReact(userID: string, specs: seq<IdentityMigrateSpec>, nodes: seq<Node>): Reply {
    if |nodes| >= |specs| then Quiet(Incompatible)
    else if !specs[|nodes|].isLoginID then Fail(Panicked)
    else Start(IntentMigrateLoginID(userID, specs[|nodes|]))
  }

  /** The first authenticator in the migration response becomes the default. */
  function MigrateAuthenticatorsReact(userID: string, specs: seq<AuthnMigrateSpec>, nodes: seq<Node>): Reply {
    if |nodes| >= |specs| then Quiet(Incompatible)
    else if specs[|nodes|].typ != OOBEmail && specs[|nodes|].typ != OOBSMS then Fail(Panicked)
    else Start(IntentMigrateOOBOTPAuthenticator(userID, specs[|nodes|], |nodes| == 0))
  }

  function MigrateLoginIDReact(userID: string, spec: IdentityMigrateSpec, nodes: seq<Node>, env: Env): Reply {
    var iden := IdentityOf(nodes);
    if |nodes| == 0 then CreateIdentity(userID, spec.loginIDType, spec.value, env)
    else if |nodes| > 2 then Quiet(Incompatible)
    else if iden.None? then Fail(Panicked)
    else if |nodes| == 1 then Grow(NodePopulateStandardAttributes(iden.value))
    else Grow(NodeVerifiedIdentity(iden.value.id,
      if iden.value.loginIDType == Username then None else Some(Claim(userID, iden.value.loginIDType, iden.value.loginID))))
  }

  // ---------------------------------------------------------------- dispatch

  function IntentReact(i: Intent, nodes: seq<Node>, input: Input, env: Env): Reply {
    match i
    case IntentProtectedAuthenticate => if |nodes| == 0 then Start(IntentAuthenticate(true)) else Quiet(Incompatible)
    case IntentAuthenticate(captcha) => AuthenticateReact(captcha, input, env)
    case IntentVerifyProof(proof) => VerifyProofReact(proof, env)
    case IntentLogin(captcha, identity, verified) => LoginReact(captcha, identity, verified, nodes, input, env)
    case IntentSignup(captcha, hint) => SignupReact(captcha, hint, nodes, env)
    case IntentAuthenticateOOBOTPPhone(captcha, a, verified) => AuthenticatePhoneReact(captcha, a, verified, nodes, env)
    case IntentVerifyCaptcha => VerifyCaptchaReact(input, env)
    case IntentAuthenticateEmailLoginLink(a) => EmailLoginLinkReact(a, nodes, env)
    case IntentAuthenticatePassword(userID, kind) =>
      if |nodes| == 0 then Grow(NodeAuthenticatePassword(userID, kind)) else Quiet(Incompatible)
    case IntentEnsureSession(userID, reason, amr, mode) => EnsureSessionReact(userID, reason, amr, mode, env)
    case IntentCreateLoginID(captcha, userID, t, hint) => CreateLoginIDReact(captcha, userID, t, hint, nodes, input, env)
    case IntentVerifyIdentity(captcha, identity, isFromSignUp) => VerifyIdentityReact(captcha, identity, isFromSignUp, nodes, env)
    case IntentCreateOOBOTPAuthenticator(identity, isDefault) => CreateOOBOTPAuthenticatorReact(identity, isDefault, env)
    case IntentCreatePassword(userID, kind, isDefault) => CreatePasswordReact(userID, kind, isDefault, input, env)
    case IntentMigrate => MigrateReact(nodes, env)
    case IntentMigrateAccount(userID) => MigrateAccountReact(userID, nodes, input, env)
    case IntentMigrateIdentities(userID, specs) => MigrateIdentitiesReact(userID, specs, nodes)
    case IntentMigrateAuthenticators(userID, specs) => MigrateAuthenticatorsReact(userID, specs, nodes)
    case IntentMigrateLoginID(userID, spec) => MigrateLoginIDReact(userID, spec, nodes, env)
    case IntentMigrateOOBOTPAuthenticator(userID, spec, isDefault) => CreateAuthenticator(userID, spec.typ, MigrateTargetOf(spec), isDefault, env)
    case IntentReauthenticate(hint) => ReauthenticateReact(hint, nodes, env)
  }
}
