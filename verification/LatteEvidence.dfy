/**
 What the services really answered.

 An accepted credential is a round of the run in which the node or intent that asks for it was fed it
 and the service said yes.  The log says no more and no less.
 */
module LatteEvidence {
  import opened Wrappers
  import opened LatteTypes
  import opened LatteReact
  import opened LatteEngine
  import opened LatteRules
  import opened LatteRounds
  import opened LatteService
  import opened LatteInvariant
  import opened LatteRuns

  /** This reactor was asked, with this input, and the service answered yes. */
  predicate SaidYes(x: Round, r: Reactor, input: Input) { ReactorOf(x.at) == Some(r) && x.input == input && !x.env.serviceError && x.env.accepted }

  ghost predicate CodeWasRight(log: seq<Round>, a: Authn, code: string) {
    exists k :: 0 <= k < |log| && SaidYes(log[k], ByNode(NodeAuthenticateOOBOTPPhone(a)), TakeOOBOTPCode(code))
  }

  ghost predicate LinkWasRight(log: seq<Round>, a: Authn) {
    exists k :: 0 <= k < |log| && SaidYes(log[k], ByNode(NodeAuthenticateEmailLoginLink(a)), CheckLoginLinkVerified)
  }

  /** The password of the first stored authenticator of that user and kind. */
  ghost predicate PasswordWasRight(log: seq<Round>, a: Authn, password: string) {
    exists k, userID, kind :: 0 <= k < |log| && SaidYes(log[k], ByNode(NodeAuthenticatePassword(userID, kind)), TakePassword(password))
      && IsFirst(log[k].env.authenticators, PasswordOf(userID, kind), a)
  }

  ghost predicate CaptchaWasRight(log: seq<Round>, token: string) {
    exists k, nodes :: 0 <= k < |log| && SaidYes(log[k], ByIntent(IntentVerifyCaptcha, nodes), TakeCaptchaToken(token))
  }

  /** The proof was right; it stands for this specification. */
  ghost predicate ProofWasRight(log: seq<Round>, proof: string, spec: Spec) {
    exists k, nodes :: 0 <= k < |log| && SaidYes(log[k], ByIntent(IntentVerifyProof(proof), nodes), log[k].input) && log[k].env.proofSpec == spec
  }

  /** The node of a right proof was answered with the one identity of its specification. */
  ghost predicate IdentityWasFound(log: seq<Round>, spec: Spec, i: Identity) {
    exists k, captcha :: 0 <= k < |log| && ReactorOf(log[k].at) == Some(ByNode(NodeVerifiedProof(captcha, spec)))
      && !log[k].env.serviceError && log[k].env.search == Some(i)
  }

  /** A verification node for this user and value. */
  predicate IsVerifier(r: Reactor, userID: string, to: string) {
    r.ByNode? && match r.node
      case NodeVerifyPhoneSMS(u, _, phone) => u == userID && phone == to
      case NodeVerifyEmail(u, _, email) => u == userID && email == to
      case _ => false
  }

  ghost predicate ClaimWasProved(log: seq<Round>, userID: string, to: string, code: string) {
    exists k :: 0 <= k < |log| && ReactorOf(log[k].at).Some? && IsVerifier(ReactorOf(log[k].at).value, userID, to)
      && log[k].input == TakeOOBOTPCode(code) && !log[k].env.serviceError && log[k].env.accepted
  }

  /** Nothing was asked of a service here. */
  ghost predicate ClaimWasTrusted(log: seq<Round>, userID: string, to: string, proof: string) {
    exists k, identityID :: 0 <= k < |log| && ReactorOf(log[k].at) == Some(ByNode(NodeVerifyPhoneSMS(userID, identityID, to))) && log[k].input == TakeProof(proof)
  }

  // ---------------------------------------------------------------- the log says so and no more

  lemma HappenedIsCaused(log: seq<Round>, e: Event)
    requires AllTrue(log)
    ensures Happened(log, e) <==> exists k :: 0 <= k < |log| && Caused(log[k], e)
  {
    hide Caused;
    forall k | 0 <= k < |log| ensures e in log[k].events <==> Caused(log[k], e) { assert IsTrue(log[k]); }
    if Happened(log, e) {
      var k :| 0 <= k < |log| && e in log[k].events;
      assert Caused(log[k], e);
    }
  }

  /** Every acceptance is logged exactly when the service that was asked said yes. */
  lemma CodesAreAnswers(log: seq<Round>, a: Authn, code: string)
    requires AllTrue(log)
    ensures Happened(log, CodeAccepted(a, code)) <==> CodeWasRight(log, a, code)
  {
    hide Happened, AllTrue, ReactorOf;
    HappenedIsCaused(log, CodeAccepted(a, code));
  }

  lemma LinksAreAnswers(log: seq<Round>, a: Authn)
    requires AllTrue(log)
    ensures Happened(log, LinkAccepted(a)) <==> LinkWasRight(log, a)
  {
    hide Happened, AllTrue, ReactorOf;
    HappenedIsCaused(log, LinkAccepted(a));
  }

  lemma PasswordsAreAnswers(log: seq<Round>, a: Authn, password: string)
    requires AllTrue(log)
    ensures Happened(log, PasswordAccepted(a, password)) <==> PasswordWasRight(log, a, password)
  {
    hide Happened, AllTrue, ReactorOf, IsFirst;
    HappenedIsCaused(log, PasswordAccepted(a, password));
    if exists k :: 0 <= k < |log| && Caused(log[k], PasswordAccepted(a, password)) {
      var k :| 0 <= k < |log| && Caused(log[k], PasswordAccepted(a, password));
      var n := ReactorOf(log[k].at).value.node;
      assert SaidYes(log[k], ByNode(NodeAuthenticatePassword(n.userID, n.kind)), TakePassword(password));
    }
  }

  lemma CaptchasAreAnswers(log: seq<Round>, token: string)
    requires AllTrue(log)
    ensures Happened(log, CaptchaPassed(token)) <==> CaptchaWasRight(log, token)
  {
    hide Happened, AllTrue, ReactorOf;
    HappenedIsCaused(log, CaptchaPassed(token));
    if exists k :: 0 <= k < |log| && Caused(log[k], CaptchaPassed(token)) {
      var k :| 0 <= k < |log| && Caused(log[k], CaptchaPassed(token));
      assert SaidYes(log[k], ByIntent(IntentVerifyCaptcha, ReactorOf(log[k].at).value.nodes), TakeCaptchaToken(token));
    }
  }

  lemma ProofsAreAnswers(log: seq<Round>, proof: string, spec: Spec)
    requires AllTrue(log)
    ensures Happened(log, ProofAccepted(proof, spec)) <==> ProofWasRight(log, proof, spec)
  {
    hide Happened, AllTrue, ReactorOf;
    HappenedIsCaused(log, ProofAccepted(proof, spec));
    if exists k :: 0 <= k < |log| && Caused(log[k], ProofAccepted(proof, spec)) {
      var k :| 0 <= k < |log| && Caused(log[k], ProofAccepted(proof, spec));
      assert SaidYes(log[k], ByIntent(IntentVerifyProof(proof), ReactorOf(log[k].at).value.nodes), log[k].input);
    }
  }

  lemma LookupsAreAnswers(log: seq<Round>, spec: Spec, i: Identity)
    requires AllTrue(log)
    ensures Happened(log, Found(spec, i)) <==> IdentityWasFound(log, spec, i)
  {
    hide Happened, AllTrue, ReactorOf;
    HappenedIsCaused(log, Found(spec, i));
    if exists k :: 0 <= k < |log| && Caused(log[k], Found(spec, i)) {
      var k :| 0 <= k < |log| && Caused(log[k], Found(spec, i));
      assert ReactorOf(log[k].at) == Some(ByNode(NodeVerifiedProof(ReactorOf(log[k].at).value.node.captcha, spec)));
    }
  }

  lemma ClaimsAreAnswers(log: seq<Round>, userID: string, to: string, code: string)
    requires AllTrue(log)
    ensures Happened(log, ClaimProved(userID, to, code)) <==> ClaimWasProved(log, userID, to, code)
  {
    hide Happened, AllTrue, ReactorOf;
    HappenedIsCaused(log, ClaimProved(userID, to, code));
  }

  lemma TrustedClaims(log: seq<Round>, userID: string, to: string, proof: string)
    requires AllTrue(log)
    ensures Happened(log, ClaimTrusted(userID, to, proof)) <==> ClaimWasTrusted(log, userID, to, proof)
  {
    hide Happened, AllTrue, ReactorOf;
    HappenedIsCaused(log, ClaimTrusted(userID, to, proof));
    if exists k :: 0 <= k < |log| && Caused(log[k], ClaimTrusted(userID, to, proof)) {
      var k :| 0 <= k < |log| && Caused(log[k], ClaimTrusted(userID, to, proof));
      assert ReactorOf(log[k].at) == Some(ByNode(NodeVerifyPhoneSMS(userID, ReactorOf(log[k].at).value.node.identityID, to)));
    }
  }

  // ---------------------------------------------------------------- evidence

  ghost predicate CodeShown(log: seq<Round>, a: Authn) { exists code :: CodeWasRight(log, a, code) }

  ghost predicate PasswordShown(log: seq<Round>, a: Authn) { exists password :: PasswordWasRight(log, a, password) }

  ghost predicate CaptchaShown(log: seq<Round>) { exists token :: CaptchaWasRight(log, token) }

  /** A right proof, and the identity its specification was found to be. */
  ghost predicate ProofShown(log: seq<Round>, i: Identity) {
    exists proof, spec :: ProofWasRight(log, proof, spec) && IdentityWasFound(log, spec, i)
  }

  /** A right code or, for a phone, a proof at its word. */
  ghost predicate ClaimShown(log: seq<Round>, i: Identity) {
    || (exists code :: ClaimWasProved(log, i.userID, i.loginID, code))
    || (i.loginIDType == Phone && exists proof :: ClaimWasTrusted(log, i.userID, i.loginID, proof))
  }

  lemma FactorsAreAnswers(log: seq<Round>, a: Authn)
    requires AllTrue(log)
    ensures CodeWasAccepted(log, a) <==> CodeShown(log, a)
    ensures LinkWasAccepted(log, a) <==> LinkWasRight(log, a)
    ensures PasswordWasAccepted(log, a) <==> PasswordShown(log, a)
  {
    hide Happened, AllTrue, CodeWasRight, LinkWasRight, PasswordWasRight;
    forall code ensures Happened(log, CodeAccepted(a, code)) <==> CodeWasRight(log, a, code) { CodesAreAnswers(log, a, code); }
    LinksAreAnswers(log, a);
    forall password ensures Happened(log, PasswordAccepted(a, password)) <==> PasswordWasRight(log, a, password) { PasswordsAreAnswers(log, a, password); }
  }

  lemma ProofIsAnswer(log: seq<Round>, i: Identity)
    requires AllTrue(log)
    ensures ProofWasAccepted(log, i) <==> ProofShown(log, i)
  {
    hide Happened, AllTrue, ProofWasRight, IdentityWasFound;
    forall proof, spec ensures Happened(log, ProofAccepted(proof, spec)) <==> ProofWasRight(log, proof, spec) { ProofsAreAnswers(log, proof, spec); }
    forall spec ensures Happened(log, Found(spec, i)) <==> IdentityWasFound(log, spec, i) { LookupsAreAnswers(log, spec, i); }
  }

  lemma CaptchaIsAnswer(log: seq<Round>)
    requires AllTrue(log)
    ensures CaptchaWasPassed(log) <==> CaptchaShown(log)
  {
    hide Happened, AllTrue, CaptchaWasRight;
    forall token ensures Happened(log, CaptchaPassed(token)) <==> CaptchaWasRight(log, token) { CaptchasAreAnswers(log, token); }
  }

  lemma ClaimIsAnswer(log: seq<Round>, i: Identity)
    requires AllTrue(log)
    ensures ClaimBacked(i, log) <==> ClaimShown(log, i)
  {
    hide Happened, AllTrue, ClaimWasProved, ClaimWasTrusted;
    forall code ensures Happened(log, ClaimProved(i.userID, i.loginID, code)) <==> ClaimWasProved(log, i.userID, i.loginID, code) {
      ClaimsAreAnswers(log, i.userID, i.loginID, code);
    }
    forall proof ensures Happened(log, ClaimTrusted(i.userID, i.loginID, proof)) <==> ClaimWasTrusted(log, i.userID, i.loginID, proof) {
      TrustedClaims(log, i.userID, i.loginID, proof);
    }
  }

  // ---------------------------------------------------------------- rejected credentials

  /** A rejected code: the code node of this authenticator was fed it and the service said no. */
  lemma RejectedCode(w: Workflow, a: Authn, code: string, envs: nat -> Env)
    requires ReactorOf(w) == Some(ByNode(NodeAuthenticateOOBOTPPhone(a)))
    requires !envs(0).serviceError && !envs(0).accepted
    ensures AcceptRun(w, TakeOOBOTPCode(code), envs, 0)
      == Accepted(w, false, Error(InvalidCredentials), [Round(w, TakeOOBOTPCode(code), envs(0), [])])
  {
    Rejected(w, TakeOOBOTPCode(code), envs);
  }

  /** Any credential the service rejects, whoever asked for it, leaves the tree as it was and logs nothing. */
  lemma Rejected(w: Workflow, input: Input, envs: nat -> Env)
    requires ReactorOf(w).Some? && TakesCredential(ReactorOf(w).value, input) && !envs(0).serviceError && !envs(0).accepted
    ensures AcceptRun(w, input, envs, 0) == Accepted(w, false, Error(InvalidCredentials), [Round(w, input, envs(0), [])])
  {
    hide AcceptRun, ReactorOf, Causes;
    FailedRequestChangesNothing(w, input, envs, 0, InvalidCredentials);
    AcceptIsChain(w, input, envs, 0);
    var x := AcceptRun(w, input, envs, 0).log[0];
    assert x.env == envs(0 + 0);
    if x.events != [] {
      assert Caused(x, x.events[0]);
      NothingCaused(ReactorOf(w).value, input, envs(0), x.events[0]);
    }
  }

  /** A request with a rejected credential leaves the session as it was; only the round is recorded. */
  lemma RejectedRequest(s: Session, r: Request)
    requires !s.closed && !r.faults.find && r.instance < |s.instances| && ReactorOf(s.instances[r.instance]).Some?
    requires TakesCredential(ReactorOf(s.instances[r.instance]).value, r.input) && !r.envs(0).serviceError && !r.envs(0).accepted
    ensures Feed(s, r) == s.(log := s.log + [Round(s.instances[r.instance], r.input, r.envs(0), [])])
  {
    hide AcceptRun, ReactorOf, TakesCredential;
    Rejected(s.instances[r.instance], r.input, r.envs);
  }

  lemma NothingCaused(r: Reactor, input: Input, env: Env, e: Event)
    requires TakesCredential(r, input) && !env.serviceError && !env.accepted
    ensures !Causes(r, input, env, e)
  {
  }
}
