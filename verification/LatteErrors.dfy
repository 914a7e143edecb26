/** When a step cannot be taken, and what the client is told. */
module LatteErrors {
  import opened Wrappers
  import opened LatteTypes
  import opened LatteReact

  /** `s[k]` is the first element the test keeps. */
  ghost predicate FirstKept(s: seq<Authn>, keep: Authn -> bool, k: nat) {
    k < |s| && keep(s[k]) && forall j :: 0 <= j < k ==> !keep(s[j])
  }

  /** A filter is empty exactly when nothing is kept; otherwise it starts with the first that is. */
  lemma {:induction false} FilterStarts(s: seq<Authn>, keep: Authn -> bool)
    ensures Filter(s, keep) == [] <==> forall a :: a in s ==> !keep(a)
    ensures Filter(s, keep) != [] ==> exists k: nat :: FirstKept(s, keep, k) && Filter(s, keep)[0] == s[k]
  {
    if s != [] {
      FilterStarts(s[1..], keep);
      if keep(s[0]) {
        assert FirstKept(s, keep, 0);
      } else {
        assert forall a :: a in s <==> a == s[0] || a in s[1..];
        if Filter(s[1..], keep) != [] {
          var k: nat :| FirstKept(s[1..], keep, k) && Filter(s[1..], keep)[0] == s[1..][k];
          assert FirstKept(s, keep, k + 1);
        }
      }
    }
  }

  /** The user's phone authenticator of this identity that a login may start with. */
  predicate IsLoginPhone(i: Identity, a: Authn) {
    a.userID == i.userID && KeepPrimaryAuthenticatorOfIdentity(i, a) && a.typ == OOBSMS
  }

  /** A login starts with the first stored phone authenticator of its identity, or fails with
      ErrNoAuthenticator exactly when there is none. */
  lemma LoginStartsWithFirstPhone(captcha: bool, i: Identity, verified: bool, input: Input, env: Env)
    requires !env.serviceError
    ensures var reply := LoginReact(captcha, i, verified, [], input, env);
      && (reply == Fail(NoAuthenticator) <==> forall a :: a in env.authenticators ==> !IsLoginPhone(i, a))
      && (reply != Fail(NoAuthenticator) ==> exists k: nat ::
            FirstKept(env.authenticators, (a: Authn) => IsLoginPhone(i, a), k)
            && reply == Start(IntentAuthenticateOOBOTPPhone(captcha, env.authenticators[k], verified)))
  {
    hide KeepPrimaryAuthenticatorOfIdentity;
    var inner := (a: Authn) => KeepPrimaryAuthenticatorOfIdentity(i, a) && a.typ == OOBSMS;
    var keep := (a: Authn) => a.userID == i.userID && inner(a);
    assert List(env, i.userID, inner) == Filter(env.authenticators, keep);
    FilterStarts(env.authenticators, keep);
    SameFilter(env.authenticators, keep, (a: Authn) => IsLoginPhone(i, a));
  }

  lemma SameFilter(s: seq<Authn>, f: Authn -> bool, g: Authn -> bool)
    requires forall a :: f(a) == g(a)
    ensures forall k: nat :: FirstKept(s, f, k) == FirstKept(s, g, k)
  {
  }

  /** A missing password and a wrong one look alike: the same error and nothing logged. */
  lemma MissingAndWrongPasswordLookAlike(userID: string, kind: Kind, password: string, missing: Env, wrong: Env)
    requires !missing.serviceError && !wrong.serviceError && !wrong.accepted
    requires forall a :: a in missing.authenticators ==> !(a.userID == userID && a.kind == kind && a.typ == Password)
    ensures NodePasswordReact(userID, kind, TakePassword(password), missing) == Fail(InvalidCredentials)
      == NodePasswordReact(userID, kind, TakePassword(password), wrong)
  {
    var inner := (a: Authn) => a.kind == kind && a.typ == Password;
    FilterStarts(missing.authenticators, (a: Authn) => a.userID == userID && inner(a));
    assert List(missing, userID, inner) == Filter(missing.authenticators, (a: Authn) => a.userID == userID && inner(a));
  }

  /** A verification that reaches its service fails as not verifiable exactly for a username, an unknown
      claim, or a claim neither required nor triggerable; an initial send hit by the cooldown goes on. */
  lemma VerificationFailsOnlyThen(captcha: bool, i: Identity, isFromSignUp: bool, nodes: seq<Node>, env: Env)
    requires !env.serviceError
    ensures var r := VerifyIdentityReact(captcha, i, isFromSignUp, nodes, env).reaction;
      && (r == Failed(ClaimNotVerifiable) <==> i.loginIDType == Username || env.status.None? || !(env.status.value.required || env.status.value.triggerable))
      && (r.Failed? && r.why == FeatureDisabled ==> i.loginIDType == Phone && env.phoneDisabled)
      && (r.Failed? && r.why == ServiceError ==> env.sendError && !env.cooldown)
      && !r.Incompatible? && !r.SameNode? && !r.UpdateNode?
  {
    hide HasCaptchaSub;
  }
}
