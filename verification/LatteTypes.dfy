/**
 The workflow trees of pkg/latte: intents, simple nodes, inputs, and the answers the services give.

 A workflow is an intent and the nodes it has grown; a node is simple or is itself a workflow.
 Everything the services decide (databases, OTP, captcha, clocks, random IDs) arrives in an `Env`,
 one for each reaction, and is otherwise unconstrained.
 */
module LatteTypes {
  import opened Wrappers

  datatype LoginIDType = Username | Email | Phone

  datatype AuthnType = Password | Passkey | TOTP | OOBEmail | OOBSMS

  datatype Kind = Primary | Secondary

  /** A login ID identity.  These flows meet no other kind. */
  datatype Identity = Identity(id: string, userID: string, loginIDType: LoginIDType, loginID: string)

  /** An authenticator; `email` and `phone` are the targets of the two one-time-password kinds. */
  datatype Authn = Authn(id: string, userID: string, typ: AuthnType, kind: Kind, isDefault: bool, email: string, phone: string)

  /** The identity specification a phone-number proof or a login ID input stands for. */
  datatype Spec = Spec(value: string)

  datatype IdentityMigrateSpec = IdentityMigrateSpec(isLoginID: bool, loginIDType: LoginIDType, value: string)

  datatype AuthnMigrateSpec = AuthnMigrateSpec(typ: AuthnType, email: string, phone: string)

  datatype Claim = Claim(userID: string, name: LoginIDType, value: string)

  datatype Input =
    | Nothing
    | TakeLoginID(loginID: string)
    | TakeProof(proof: string)
    | SelectAuthenticatorType(typ: AuthnType)
    | TakeOOBOTPCode(code: string)
    | ResendOOBOTPCode
    | TakeCaptchaToken(token: string)
    | CheckLoginLinkVerified
    | TakePassword(password: string)
    | TakeNewPassword(newPassword: string)
    | TakeMigrationToken(migrationToken: string)

  datatype Mode = Default | Create | UpdateOrCreate | Noop

  datatype CreateReason = Signup | Login | Reauthenticate

  datatype IDPSession = IDPSession(id: string, userID: string, amr: seq<string>)

  datatype EnsureSession = EnsureSession(
    userID: string, reason: CreateReason, sessionToCreate: Option<IDPSession>, sessionCookie: Option<string>,
    updateSessionID: string, updateSessionAMR: seq<string>)

  /** `userIDHint` of IntentReauthenticate stands for the hint in the workflow session, fixed for its lifetime. */
  datatype Intent =
    | IntentProtectedAuthenticate
    | IntentAuthenticate(captcha: bool)
    | IntentVerifyProof(proof: string)
    | IntentLogin(captcha: bool, identity: Identity, identityVerified: bool)
    | IntentSignup(captcha: bool, hint: string)
    | IntentAuthenticateOOBOTPPhone(captcha: bool, authenticator: Authn, verified: bool)
    | IntentVerifyCaptcha
    | IntentAuthenticateEmailLoginLink(authenticator: Authn)
    | IntentAuthenticatePassword(userID: string, kind: Kind)
    | IntentEnsureSession(userID: string, reason: CreateReason, amr: seq<string>, mode: Mode)
    | IntentCreateLoginID(captcha: bool, userID: string, loginIDType: LoginIDType, hint: string)
    | IntentVerifyIdentity(captcha: bool, identity: Identity, isFromSignUp: bool)
    | IntentCreateOOBOTPAuthenticator(identity: Identity, isDefault: bool)
    | IntentCreatePassword(userID: string, kind: Kind, isDefault: bool)
    | IntentMigrate
    | IntentMigrateAccount(userID: string)
    | IntentMigrateIdentities(userID: string, identitySpecs: seq<IdentityMigrateSpec>)
    | IntentMigrateAuthenticators(userID: string, authnSpecs: seq<AuthnMigrateSpec>)
    | IntentMigrateLoginID(userID: string, identitySpec: IdentityMigrateSpec)
    | IntentMigrateOOBOTPAuthenticator(userID: string, authnSpec: AuthnMigrateSpec, isDefault: bool)
    | IntentReauthenticate(userIDHint: string)

  datatype SimpleNode =
    | NodeVerifiedCaptcha
    | NodeAuthenticateOOBOTPPhone(authenticator: Authn)
    | NodeAuthenticateEmailLoginLink(authenticator: Authn)
    | NodeAuthenticatePassword(userID: string, kind: Kind)
    | NodeVerifiedAuthenticator(authenticator: Authn)
    | NodeVerifiedProof(captcha: bool, spec: Spec)
    | NodeDoCreateUser(userID: string)
    | NodeDoCreateIdentity(identity: Identity)
    | NodePopulateStandardAttributes(identity: Identity)
    | NodeVerifiedIdentity(identityID: string, claim: Option<Claim>)
    | NodeVerifyPhoneSMS(userID: string, identityID: string, phone: string)
    | NodeVerifyEmail(userID: string, identityID: string, email: string)
    | NodeDoCreateAuthenticator(authenticator: Authn)
    | NodeMigrateAccount(identitySpecs: seq<IdentityMigrateSpec>, authnSpecs: seq<AuthnMigrateSpec>)
    | NodeDoEnsureSession(session: EnsureSession)

  datatype Node = Simple(simple: SimpleNode) | SubWorkflow(w: Workflow)

  datatype Workflow = Workflow(intent: Intent, nodes: seq<Node>)

  datatype Status = Status(verified: bool, required: bool, triggerable: bool)

  /** Why a reaction failed. */
  datatype Failure =
    | ServiceError | NoAuthenticator | InvalidCredentials | ClaimNotVerifiable
    | FeatureDisabled | NotReauthentication | Panicked

  /** What the services answer during one reaction. */
  datatype Env = Env(
    serviceError: bool,                     // the service asked fails in a way of its own
    search: Option<Identity>,               // SearchBySpec
    authenticators: seq<Authn>,             // every stored authenticator
    accepted: bool,                         // the credential, code, link, captcha or proof is right
    proofSpec: Spec,                        // the identity a right proof stands for
    phoneDisabled: bool,                    // feature flag of phone login IDs
    secondarySMSDisabled: bool,             // feature flag of SMS as a second factor
    cooldown: bool,                         // the trigger cooldown rate limit
    sendError: bool,                        // the sender refuses the message
    status: Option<Status>,                 // verification status of the claim in question
    newID: string,                          // uuid.New
    normalized: string,                     // the login ID or target after normalisation
    duplicated: bool,                       // CheckDuplicated
    identitySpecs: seq<IdentityMigrateSpec>,
    authnSpecs: seq<AuthnMigrateSpec>,
    suppressCookie: bool,                   // GetSuppressIDPSessionCookie
    token: string,                          // session token
    contextSession: Option<IDPSession>,     // session.GetSession, if it is an IDP session
    effectError: bool)                      // a run-effect of the new node fails

  /** What a reaction did outside the tree. */
  datatype Event =
    | CaptchaPassed(token: string)
    | SmsSent(userID: string, to: string)
    | EmailSent(userID: string, to: string)
    | CodeAccepted(authenticator: Authn, code: string)
    | LinkAccepted(authenticator: Authn)
    | PasswordAccepted(authenticator: Authn, password: string)
    | ProofAccepted(proof: string, spec: Spec)
    | Found(spec: Spec, identity: Identity)
    | ClaimProved(userID: string, to: string, code: string)
    | ClaimTrusted(userID: string, to: string, proof: string)   // a proof taken at its word
    | IdentityMade(value: string, identity: Identity)           // Identities.New for this login ID
    | AuthenticatorMade(target: string, authenticator: Authn)   // NewWithAuthenticatorID for this target

  // ---------------------------------------------------------------- looking at direct children

  function Sub(i: Intent): Node { SubWorkflow(Workflow(i, [])) }

  /** FindSubWorkflows: direct children whose intent the test keeps. */
  function FindSubWorkflows(nodes: seq<Node>, keep: Intent -> bool): seq<Workflow> {
    if nodes == [] then [] else
      var rest := FindSubWorkflows(nodes[..|nodes| - 1], keep);
      var last := nodes[|nodes| - 1];
      if last.SubWorkflow? && keep(last.w.intent) then rest + [last.w] else rest
  }

  /** FindSingleNode: the first direct simple child the test keeps. */
  function FindSingleNode(nodes: seq<Node>, keep: SimpleNode -> bool): Option<SimpleNode> {
    if nodes == [] then None
    else if nodes[0].Simple? && keep(nodes[0].simple) then Some(nodes[0].simple)
    else FindSingleNode(nodes[1..], keep)
  }

  predicate HasCaptchaSub(nodes: seq<Node>) {
    exists k :: 0 <= k < |nodes| && nodes[k].SubWorkflow? && nodes[k].w.intent.IntentVerifyCaptcha?
  }

  // ---------------------------------------------------------------- authenticators

  function PrimaryAuthenticatorTypes(t: LoginIDType): set<AuthnType> {
    match t
    case Username => {Password, Passkey}
    case Email => {Password, Passkey, OOBEmail}
    case Phone => {Password, Passkey, OOBSMS}
  }

  predicate KeepPrimaryAuthenticatorOfIdentity(i: Identity, a: Authn) {
    && a.kind == Primary
    && a.typ in PrimaryAuthenticatorTypes(i.loginIDType)
    && (a.typ in {OOBEmail, OOBSMS} ==> i.loginID == a.email || i.loginID == a.phone)
  }

  /** Authenticators.List: the user's authenticators that pass the filters, in stored order. */
  function List(env: Env, userID: string, keep: Authn -> bool): seq<Authn> {
    Filter(env.authenticators, (a: Authn) => a.userID == userID && keep(a))
  }

  function Filter(s: seq<Authn>, keep: Authn -> bool): (r: seq<Authn>)
    ensures forall a :: a in r ==> a in s && keep(a)
  {
    if s == [] then [] else (if keep(s[0]) then [s[0]] else []) + Filter(s[1..], keep)
  }

  /** Where an authenticator of the two one-time-password kinds sends its codes. */
  function TargetOf(a: Authn): string { if a.typ == OOBSMS then a.phone else a.email }

  function MigrateTargetOf(spec: AuthnMigrateSpec): string { if spec.typ == OOBSMS then spec.phone else spec.email }

  /** The two remaining combinations make the program panic; nothing in these flows produces them. */
  function AMROf(a: Authn): seq<string> {
    match (a.kind, a.typ)
    case (Primary, Password) => ["pwd", "x_primary_password"]
    case (Primary, OOBEmail) => ["otp", "x_primary_oob_otp_email"]
    case (Primary, OOBSMS) => ["otp", "sms", "x_primary_oob_otp_sms"]
    case (Primary, Passkey) => ["x_passkey", "x_primary_passkey"]
    case (Secondary, Password) => ["pwd", "x_secondary_password"]
    case (Secondary, TOTP) => ["otp", "x_secondary_totp"]
    case (Secondary, OOBEmail) => ["otp", "x_secondary_oob_otp_email"]
    case (Secondary, OOBSMS) => ["otp", "sms", "x_secondary_oob_otp_sms"]
    case _ => []
  }
}
