/** Whether a user who has signed up can log in afterwards. */
module LatteReturning {
  import opened Wrappers
  import opened LatteTypes
  import opened LatteReact
  import opened LatteEngine
  import opened LatteService
  import opened LatteInvariant
  import opened LatteCollection
  import opened LatteReport
  import opened LatteErrors

  function TypeOfTarget(t: AuthnType): LoginIDType { if t == OOBSMS then Phone else Email }

  /** In this run the identity service and the authenticator service normalised in the same way. */
  ghost predicate Normalised(log: seq<Round>, norm: (LoginIDType, string) -> string) {
    && (forall value, i :: Happened(log, IdentityMade(value, i)) ==> i.loginID == norm(i.loginIDType, value))
    && (forall target, a :: Happened(log, AuthenticatorMade(target, a)) ==> TargetOf(a) == norm(TypeOfTarget(a.typ), target))
  }

  ghost predicate Idempotent(norm: (LoginIDType, string) -> string) { forall t, s :: norm(t, norm(t, s)) == norm(t, s) }

  /** The authenticator made for a login ID is the one that a login looks for. */
  lemma PairMatches(i: Item, a: Item, t: LoginIDType, log: seq<Round>, norm: (LoginIDType, string) -> string)
    requires IsLoginIDPair(i, a, t, log) && t != Username && Normalised(log, norm) && Idempotent(norm)
    ensures TargetOf(a.authenticator) == i.identity.loginID
    ensures KeepPrimaryAuthenticatorOfIdentity(i.identity, a.authenticator) && a.authenticator.userID == i.identity.userID
    ensures a.authenticator.typ == OOBTypeOf(t) && a.authenticator.kind == Primary
  {
    hide Happened;
    var value :| Happened(log, IdentityMade(value, i.identity));
    assert i.identity.loginID == norm(t, value);
    assert TargetOf(a.authenticator) == norm(t, i.identity.loginID);
    assert norm(t, norm(t, value)) == norm(t, value);
  }

  /** A login that finds its phone authenticator stored goes on to it, or to one stored before it. */
  lemma PhoneIsFound(captcha: bool, i: Identity, verified: bool, input: Input, env: Env, a: Authn)
    requires !env.serviceError && a in env.authenticators && IsLoginPhone(i, a)
    ensures LoginReact(captcha, i, verified, [], input, env).reaction.Next?
  {
    hide IsLoginPhone, LoginReact, FirstKept;
    LoginStartsWithFirstPhone(captcha, i, verified, input, env);
  }

  lemma EmailIsFound(captcha: bool, i: Identity, verified: bool, first: Node, env: Env, a: Authn)
    requires !env.serviceError && a in env.authenticators && a.userID == i.userID && a.kind == Primary && a.typ == OOBEmail
    ensures LoginReact(captcha, i, verified, [first], SelectAuthenticatorType(OOBEmail), env).reaction.Next?
  {
    var inner := (a: Authn) => a.kind == Primary && a.typ == OOBEmail;
    FilterStarts(env.authenticators, (a: Authn) => a.userID == i.userID && inner(a));
    assert List(env, i.userID, inner) == Filter(env.authenticators, (a: Authn) => a.userID == i.userID && inner(a));
  }

  /** Provided the two services normalise alike and normalising twice is normalising once: with what a
      finished sign-up reported in the store, a login with its phone identity finds the phone authenticator,
      and the login link as its second factor. */
  lemma SignedUpCanLogIn(w: Workflow, log: seq<Round>, norm: (LoginIDType, string) -> string,
                         captcha: bool, verified: bool, input: Input, first: Node, env: Env)
    requires Good(w, log) && IsEOF(w) && w.intent.IntentSignup?
    requires Normalised(log, norm) && Idempotent(norm)
    requires !env.serviceError
    requires forall x :: x in ReportIn(Authenticators, w.nodes) && x.AnAuthenticator? ==> x.authenticator in env.authenticators
    ensures var r := ReportIn(Identities, w.nodes);
      && |r| == 2 && r[0].AnIdentity?
      && LoginReact(captcha, r[0].identity, verified, [], input, env).reaction.Next?
      && LoginReact(captcha, r[0].identity, verified, [first], SelectAuthenticatorType(OOBEmail), env).reaction.Next?
  {
    hide Good, IsEOF, ReportIn, Normalised, Idempotent, IsLoginIDPair, LoginReact, KeepPrimaryAuthenticatorOfIdentity, AllOwnedBy;
    FinishedSignup(w, log);
    var i, a := ReportIn(Identities, w.nodes), ReportIn(Authenticators, w.nodes);
    PairIsTyped(i[0], a[0], Phone, log);
    PairIsTyped(i[1], a[1], Email, log);
    PairMatches(i[0], a[0], Phone, log, norm);
    PairMatches(i[1], a[1], Email, log, norm);
    SameOwner(w, log);
    assert a[0] in a && a[1] in a;
    PhoneIsFound(captcha, i[0].identity, verified, input, env, a[0].authenticator);
    EmailIsFound(captcha, i[0].identity, verified, first, env, a[1].authenticator);
  }

  lemma PairIsTyped(i: Item, a: Item, t: LoginIDType, log: seq<Round>)
    requires IsLoginIDPair(i, a, t, log)
    ensures i.AnIdentity? && a.AnAuthenticator?
  {
  }

  lemma SameOwner(w: Workflow, log: seq<Round>)
    requires Good(w, log) && IsEOF(w) && w.intent.IntentSignup?
    ensures var i, a := ReportIn(Identities, w.nodes), ReportIn(Authenticators, w.nodes);
      |i| == 2 && |a| == 2 && i[0].AnIdentity? && a[1].AnAuthenticator? && a[1].authenticator.userID == i[0].identity.userID
  {
    hide Good, IsEOF, ReportIn, IsLoginIDPair;
    FinishedSignup(w, log);
    var i, a := ReportIn(Identities, w.nodes), ReportIn(Authenticators, w.nodes);
    PairIsTyped(i[0], a[0], Phone, log);
    PairIsTyped(i[1], a[1], Email, log);
    RootShape(w, log);
    ReportIsComplete(Identities, w, log);
    ReportIsComplete(Authenticators, w, log);
    assert i[0].Owner() == w.nodes[0].simple.userID && a[1].Owner() == w.nodes[0].simple.userID;
  }

  /** A login ID that is not a phone number never logs in, whatever is stored: the first step asks for a
      phone authenticator among those such an identity cannot have. */
  lemma OnlyPhonesLogIn(captcha: bool, i: Identity, verified: bool, input: Input, env: Env)
    requires i.loginIDType != Phone
    ensures LoginReact(captcha, i, verified, [], input, env) == Fail(if env.serviceError then ServiceError else NoAuthenticator)
  {
    if !env.serviceError {
      hide LoginReact, FirstKept;
      LoginStartsWithFirstPhone(captcha, i, verified, input, env);
    }
  }
}
