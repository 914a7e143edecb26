/**
 What every tree of every run looks like.

 `SlotOk` says which node may stand in which place of which intent, and what must have happened
 outside for it to stand there.  `Good` says it of the whole tree, and that every sub-workflow but
 the last is finished.  Every step of every run keeps `Good`.
 */
module LatteInvariant {
  import opened Wrappers
  import opened LatteTypes
  import opened LatteReact
  import opened LatteEngine
  import opened LatteService

  // ---------------------------------------------------------------- what happened outside

  ghost predicate Happened(log: seq<Round>, e: Event) {
    exists k :: 0 <= k < |log| && e in log[k].events
  }

  ghost predicate CodeWasAccepted(log: seq<Round>, a: Authn) { exists code :: Happened(log, CodeAccepted(a, code)) }

  ghost predicate LinkWasAccepted(log: seq<Round>, a: Authn) { Happened(log, LinkAccepted(a)) }

  ghost predicate PasswordWasAccepted(log: seq<Round>, a: Authn) { exists password :: Happened(log, PasswordAccepted(a, password)) }

  ghost predicate CaptchaWasPassed(log: seq<Round>) { exists token :: Happened(log, CaptchaPassed(token)) }

  /** A proof was checked, and the identity it stands for was looked up and found to be this one. */
  ghost predicate ProofWasAccepted(log: seq<Round>, i: Identity) {
    exists proof, spec :: Happened(log, ProofAccepted(proof, spec)) && Happened(log, Found(spec, i))
  }

  /** The identity service was asked for some login ID and made this identity of it. */
  ghost predicate IdentityWasAskedFor(log: seq<Round>, i: Identity) { exists value :: Happened(log, IdentityMade(value, i)) }

  ghost predicate Extends(log: seq<Round>, later: seq<Round>, events: seq<Event>) {
    && (forall e :: Happened(log, e) ==> Happened(later, e))
    && (forall e :: e in events ==> Happened(later, e))
  }

  lemma LogExtends(log: seq<Round>, round: Round)
    ensures Extends(log, log + [round], round.events)
  {
    var later := log + [round];
    forall e | Happened(log, e) ensures Happened(later, e) {
      var k :| 0 <= k < |log| && e in log[k].events;
      assert e in later[k].events;
    }
    assert later[|log|] == round;
  }

  // ---------------------------------------------------------------- which node may stand where

  ghost predicate AuthenticateSlot(captcha: bool, before: seq<Node>, n: Node) {
    before == [] && n.SubWorkflow? &&
    match n.w.intent
    case IntentLogin(c, _, verified) => c == captcha && !verified
    case IntentSignup(c, _) => c == captcha
    case IntentVerifyProof(_) => true
    case _ => false
  }

  ghost predicate ProofSlot(proof: string, before: seq<Node>, n: Node, log: seq<Round>) {
    if before == [] then
      n.Simple? && n.simple.NodeVerifiedProof? && !n.simple.captcha && Happened(log, ProofAccepted(proof, n.simple.spec))
    else
      |before| == 1 && before[0].Simple? && before[0].simple.NodeVerifiedProof? && n.SubWorkflow? &&
      match n.w.intent
      case IntentLogin(c, identity, verified) => !c && verified && Happened(log, Found(before[0].simple.spec, identity))
      case IntentSignup(c, _) => !c
      case _ => false
  }

  ghost predicate LoginSlot(captcha: bool, identity: Identity, verified: bool, before: seq<Node>, n: Node) {
    n.SubWorkflow? &&
    match |before|
    case 0 =>
      && n.w.intent.IntentAuthenticateOOBOTPPhone? && n.w.intent.captcha == captcha && n.w.intent.verified == verified
      && n.w.intent.authenticator.userID == identity.userID && n.w.intent.authenticator.typ == OOBSMS
      && KeepPrimaryAuthenticatorOfIdentity(identity, n.w.intent.authenticator)
    case 1 =>
      || (n.w.intent.IntentAuthenticateEmailLoginLink? && n.w.intent.authenticator.userID == identity.userID
          && n.w.intent.authenticator.typ == OOBEmail && n.w.intent.authenticator.kind == Primary)
      || n.w.intent == IntentAuthenticatePassword(identity.userID, Primary)
    case 2 =>
      && n.w.intent.IntentEnsureSession? && n.w.intent.userID == identity.userID && n.w.intent.reason == Login
      && n.w.intent.amr == GetAMROf(before) && n.w.intent.mode in {Create, Noop}
    case _ => false
  }

  ghost predicate CreatedUser(before: seq<Node>) { before != [] && before[0].Simple? && before[0].simple.NodeDoCreateUser? }

  ghost predicate UserSlot(before: seq<Node>, n: Node, second: Intent -> bool, third: Intent -> bool)
    requires |before| > 0 ==> CreatedUser(before)
  {
    if before == [] then n.Simple? && n.simple.NodeDoCreateUser?
    else
      var user := before[0].simple.userID;
      n.SubWorkflow? &&
      match |before|
      case 1 => second(n.w.intent)
      case 2 => third(n.w.intent)
      case 3 => n.w.intent == IntentCreatePassword(user, Primary, false)
      case 4 => n.w.intent.IntentEnsureSession? && n.w.intent.userID == user && n.w.intent.reason == Signup && n.w.intent.amr == []
          && n.w.intent.mode in {Create, Noop}
      case _ => false
  }

  ghost predicate SignupSlot(captcha: bool, hint: string, before: seq<Node>, n: Node) {
    (|before| > 0 ==> CreatedUser(before)) &&
    UserSlot(before, n,
      (i: Intent) => CreatedUser(before) && i == IntentCreateLoginID(captcha, before[0].simple.userID, Phone, hint),
      (i: Intent) => CreatedUser(before) && i == IntentCreateLoginID(false, before[0].simple.userID, Email, hint))
  }

  ghost predicate MigrateSlot(before: seq<Node>, n: Node) {
    (|before| > 0 ==> CreatedUser(before)) &&
    UserSlot(before, n,
      (i: Intent) => CreatedUser(before) && i == IntentMigrateAccount(before[0].simple.userID),
      (i: Intent) => CreatedUser(before) && i == IntentCreateLoginID(false, before[0].simple.userID, Email, ""))
  }

  ghost predicate PhoneSlot(captcha: bool, a: Authn, verified: bool, before: seq<Node>, n: Node, log: seq<Round>) {
    var k := if captcha then |before| - 1 else |before|;
    if k == -1 then n.SubWorkflow? && n.w.intent.IntentVerifyCaptcha?
    else
      && (captcha ==> before[0].SubWorkflow? && before[0].w.intent.IntentVerifyCaptcha?)
      && (if verified then k == 0 && n == Simple(NodeVerifiedAuthenticator(a))
          else if k == 0 then n == Simple(NodeAuthenticateOOBOTPPhone(a))
          else k == 1 && n == Simple(NodeVerifiedAuthenticator(a)) && CodeWasAccepted(log, a))
  }

  ghost predicate CaptchaSlot(before: seq<Node>, n: Node, log: seq<Round>) {
    before == [] && n == Simple(NodeVerifiedCaptcha) && CaptchaWasPassed(log)
  }

  ghost predicate LinkSlot(a: Authn, before: seq<Node>, n: Node, log: seq<Round>) {
    if before == [] then n == Simple(NodeAuthenticateEmailLoginLink(a))
    else |before| == 1 && n == Simple(NodeVerifiedAuthenticator(a)) && LinkWasAccepted(log, a)
  }

  ghost predicate PasswordSlot(userID: string, kind: Kind, before: seq<Node>, n: Node, log: seq<Round>) {
    if before == [] then n == Simple(NodeAuthenticatePassword(userID, kind))
    else
      && |before| == 1 && n.Simple? && n.simple.NodeVerifiedAuthenticator?
      && n.simple.authenticator.userID == userID && n.simple.authenticator.kind == kind && n.simple.authenticator.typ == Password
      && PasswordWasAccepted(log, n.simple.authenticator)
  }

  /** Created with a cookie, updated in place, or neither, by mode and context. */
  ghost predicate EnsureSlot(userID: string, reason: CreateReason, amr: seq<string>, mode: Mode, before: seq<Node>, n: Node) {
    before == [] && n.Simple? && n.simple.NodeDoEnsureSession? &&
    var s := n.simple.session;
    && s.userID == userID && s.reason == reason
    && (s.sessionToCreate.Some? <==> s.sessionCookie.Some?)
    && (s.sessionToCreate.Some? ==> s.sessionToCreate.value.userID == userID && s.sessionToCreate.value.amr == amr && s.updateSessionID == "")
    && (mode == Noop ==> s.sessionToCreate.None? && s.updateSessionID == "")
    && (mode in {Create, Default} ==> s.sessionToCreate.Some?)
    && (s.updateSessionID != "" ==> s.updateSessionAMR == amr)
  }

  ghost predicate CreatedIdentity(before: seq<Node>) { before != [] && before[0].Simple? && before[0].simple.NodeDoCreateIdentity? }

  ghost predicate LoginIDSlot(captcha: bool, userID: string, t: LoginIDType, before: seq<Node>, n: Node, log: seq<Round>) {
    if before == [] then
      && n.Simple? && n.simple.NodeDoCreateIdentity? && n.simple.identity.userID == userID && n.simple.identity.loginIDType == t
      && IdentityWasAskedFor(log, n.simple.identity)
    else
      CreatedIdentity(before) &&
      match |before|
      case 1 => n == Simple(NodePopulateStandardAttributes(before[0].simple.identity))
      case 2 => n.SubWorkflow? && n.w.intent == IntentVerifyIdentity(captcha, before[0].simple.identity, true)
      case 3 => n.SubWorkflow? && n.w.intent == IntentCreateOOBOTPAuthenticator(before[0].simple.identity, false)
      case _ => false
  }

  predicate IsVerify(n: Node) { n.Simple? && (n.simple.NodeVerifyPhoneSMS? || n.simple.NodeVerifyEmail?) }

  ghost predicate CodeProved(log: seq<Round>, userID: string, to: string) { exists code :: Happened(log, ClaimProved(userID, to, code)) }

  ghost predicate ProofTrusted(log: seq<Round>, userID: string, to: string) { exists proof :: Happened(log, ClaimTrusted(userID, to, proof)) }

  /** What stands behind a newly verified claim: an accepted code or, for a phone, a proof nobody checked here. */
  ghost predicate ClaimBacked(i: Identity, log: seq<Round>) {
    CodeProved(log, i.userID, i.loginID) || (i.loginIDType == Phone && ProofTrusted(log, i.userID, i.loginID))
  }

  /** A skipped verification may stand twice in a captcha-protected intent. */
  ghost predicate VerifySlot(captcha: bool, i: Identity, before: seq<Node>, n: Node, log: seq<Round>) {
    match n
    case SubWorkflow(sub) => captcha && sub.intent.IntentVerifyCaptcha? && |before| <= 1 && !HasCaptchaSub(before)
    case Simple(s) =>
      if IsVerify(n) then
        && (if captcha then |before| == 1 && HasCaptchaSub(before) else before == [])
        && n == Simple(if i.loginIDType == Phone then NodeVerifyPhoneSMS(i.userID, i.id, i.loginID) else NodeVerifyEmail(i.userID, i.id, i.loginID))
        && i.loginIDType != Username
      else
        && s.NodeVerifiedIdentity? && s.identityID == i.id
        && (if before != [] && IsVerify(before[|before| - 1])
            then s.claim == Some(Claim(i.userID, i.loginIDType, i.loginID)) && ClaimBacked(i, log)
            else s.claim.None? && |before| < (if captcha then 2 else 1))
        && |before| <= 2
  }

  ghost predicate MigrateAccountSlot(userID: string, before: seq<Node>, n: Node) {
    if before == [] then n.Simple? && n.simple.NodeMigrateAccount?
    else
      before[0].Simple? && before[0].simple.NodeMigrateAccount? && n.SubWorkflow? &&
      match |before|
      case 1 => n.w.intent == IntentMigrateIdentities(userID, before[0].simple.identitySpecs)
      case 2 => n.w.intent == IntentMigrateAuthenticators(userID, before[0].simple.authnSpecs)
      case _ => false
  }

  ghost predicate MigrateLoginIDSlot(userID: string, spec: IdentityMigrateSpec, before: seq<Node>, n: Node, log: seq<Round>) {
    if before == [] then
      && n.Simple? && n.simple.NodeDoCreateIdentity? && n.simple.identity.userID == userID && n.simple.identity.loginIDType == spec.loginIDType
      && Happened(log, IdentityMade(spec.value, n.simple.identity))
    else
      CreatedIdentity(before) &&
      var i := before[0].simple.identity;
      match |before|
      case 1 => n == Simple(NodePopulateStandardAttributes(i))
      case 2 => n == Simple(NodeVerifiedIdentity(i.id, if i.loginIDType == Username then None else Some(Claim(userID, i.loginIDType, i.loginID))))
      case _ => false
  }

  ghost predicate AuthenticatorSlot(userID: string, t: AuthnType, kind: Kind, isDefault: bool, before: seq<Node>, n: Node) {
    && before == [] && n.Simple? && n.simple.NodeDoCreateAuthenticator?
    && n.simple.authenticator.userID == userID && n.simple.authenticator.typ == t
    && n.simple.authenticator.kind == kind && n.simple.authenticator.isDefault == isDefault
  }

  /** An authenticator of a one-time-password kind, asked for with this target. */
  ghost predicate TargetSlot(userID: string, t: AuthnType, target: string, isDefault: bool, before: seq<Node>, n: Node, log: seq<Round>) {
    AuthenticatorSlot(userID, t, Primary, isDefault, before, n) && Happened(log, AuthenticatorMade(target, n.simple.authenticator))
  }

  ghost predicate ReauthenticateSlot(hint: string, before: seq<Node>, n: Node) {
    hint != "" && n.SubWorkflow? &&
    match |before|
    case 0 => n.w.intent == IntentAuthenticatePassword(hint, Primary)
    case 1 => n.w.intent.IntentEnsureSession? && n.w.intent.userID == hint && n.w.intent.reason == Reauthenticate
        && n.w.intent.amr == GetAMROf(before) && n.w.intent.mode in {UpdateOrCreate, Noop}
    case _ => false
  }

  ghost predicate SlotOk(i: Intent, before: seq<Node>, n: Node, log: seq<Round>) {
    match i
    case IntentProtectedAuthenticate => before == [] && n.SubWorkflow? && n.w.intent == IntentAuthenticate(true)
    case IntentAuthenticate(captcha) => AuthenticateSlot(captcha, before, n)
    case IntentVerifyProof(proof) => ProofSlot(proof, before, n, log)
    case IntentLogin(captcha, identity, verified) => LoginSlot(captcha, identity, verified, before, n)
    case IntentSignup(captcha, hint) => SignupSlot(captcha, hint, before, n)
    case IntentAuthenticateOOBOTPPhone(captcha, a, verified) => PhoneSlot(captcha, a, verified, before, n, log)
    case IntentVerifyCaptcha => CaptchaSlot(before, n, log)
    case IntentAuthenticateEmailLoginLink(a) => LinkSlot(a, before, n, log)
    case IntentAuthenticatePassword(userID, kind) => PasswordSlot(userID, kind, before, n, log)
    case IntentEnsureSession(userID, reason, amr, mode) => EnsureSlot(userID, reason, amr, mode, before, n)
    case IntentCreateLoginID(captcha, userID, t, _) => LoginIDSlot(captcha, userID, t, before, n, log)
    case IntentVerifyIdentity(captcha, identity, _) => VerifySlot(captcha, identity, before, n, log)
    case IntentCreateOOBOTPAuthenticator(i, isDefault) =>
      i.loginIDType != Username && TargetSlot(i.userID, if i.loginIDType == Phone then OOBSMS else OOBEmail, i.loginID, isDefault, before, n, log)
    case IntentCreatePassword(userID, kind, isDefault) => AuthenticatorSlot(userID, Password, kind, isDefault, before, n)
    case IntentMigrate => MigrateSlot(before, n)
    case IntentMigrateAccount(userID) => MigrateAccountSlot(userID, before, n)
    case IntentMigrateIdentities(userID, specs) =>
      |before| < |specs| && n.SubWorkflow? && n.w.intent == IntentMigrateLoginID(userID, specs[|before|])
    case IntentMigrateAuthenticators(userID, specs) =>
      |before| < |specs| && n.SubWorkflow? && n.w.intent == IntentMigrateOOBOTPAuthenticator(userID, specs[|before|], |before| == 0)
    case IntentMigrateLoginID(userID, spec) => MigrateLoginIDSlot(userID, spec, before, n, log)
    case IntentMigrateOOBOTPAuthenticator(userID, spec, isDefault) => TargetSlot(userID, spec.typ, MigrateTargetOf(spec), isDefault, before, n, log)
    case IntentReauthenticate(hint) => ReauthenticateSlot(hint, before, n)
  }

  /** What the making of an intent already guarantees. */
  ghost predicate IntentOk(i: Intent, log: seq<Round>) {
    match i
    case IntentLogin(_, identity, verified) => verified ==> ProofWasAccepted(log, identity)
    case IntentMigrateOOBOTPAuthenticator(_, spec, _) => spec.typ == OOBEmail || spec.typ == OOBSMS
    case _ => true
  }

  ghost predicate Good(w: Workflow, log: seq<Round>) {
    && IntentOk(w.intent, log)
    && (forall k :: 0 <= k < |w.nodes| ==> SlotOk(w.intent, w.nodes[..k], w.nodes[k], log))
    && (forall k :: 0 <= k < |w.nodes| && w.nodes[k].SubWorkflow? ==> Good(w.nodes[k].w, log))
    && (forall k :: 0 <= k < |w.nodes| - 1 && w.nodes[k].SubWorkflow? ==> IsEOF(w.nodes[k].w))
  }
}
