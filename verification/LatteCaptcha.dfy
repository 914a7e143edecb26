/**
 The captcha gate of the protected flow.

 ReactTo only asks whether a captcha sub-workflow exists.  In every tree the protected flow can reach
 that is enough: an SMS code goes out after a passed captcha unless the flow came in with a proof of
 phone-number verification, in which case no captcha was ever asked.
 */
module LatteCaptcha {
  import opened Wrappers
  import opened LatteTypes
  import opened LatteReact
  import opened LatteEngine
  import opened LatteBound
  import opened LatteService
  import opened LatteInvariant
  import opened LattePreserved
  import opened LatteRuns
  import opened LatteEvidence
  import opened LatteLogin

  /** A NodeVerifiedCaptcha stands somewhere in the tree. */
  ghost predicate PassedCaptcha(w: Workflow) {
    exists k :: 0 <= k < |w.nodes| && PassedAt(w.nodes[k])
  }

  ghost predicate PassedAt(n: Node) {
    match n
    case Simple(s) => s.NodeVerifiedCaptcha?
    case SubWorkflow(sub) => PassedCaptcha(sub)
  }

  /** The tree goes through IntentVerifyProofOfPhoneNumberVerification. */
  ghost predicate ViaProof(w: Workflow) {
    w.intent.IntentVerifyProof? || exists k :: 0 <= k < |w.nodes| && ProofAt(w.nodes[k])
  }

  ghost predicate ProofAt(n: Node) {
    match n
    case Simple(_) => false
    case SubWorkflow(sub) => ViaProof(sub)
  }

  predicate SendsSms(events: seq<Event>) { exists k :: 0 <= k < |events| && events[k].SmsSent? }

  // ---------------------------------------------------------------- shielded intents send after a captcha

  /** Intents below the protected root on the login-ID branch, and those that never send an SMS. */
  predicate Shielded(i: Intent) {
    match i
    case IntentProtectedAuthenticate => true
    case IntentAuthenticate(captcha) => captcha
    case IntentVerifyProof(_) => true
    case IntentLogin(captcha, _, _) => captcha
    case IntentSignup(captcha, _) => captcha
    case IntentAuthenticateOOBOTPPhone(captcha, _, _) => captcha
    case IntentCreateLoginID(captcha, _, t, _) => captcha || t == Email
    case IntentVerifyIdentity(captcha, identity, _) => captcha || identity.loginIDType == Email
    case IntentAuthenticateEmailLoginLink(a) => a.typ == OOBEmail
    case IntentVerifyCaptcha => true
    case IntentAuthenticatePassword(_, _) => true
    case IntentEnsureSession(_, _, _, _) => true
    case IntentCreateOOBOTPAuthenticator(_, _) => true
    case IntentCreatePassword(_, _, _) => true
    case _ => false
  }

  lemma ChildShielded(w: Workflow, k: nat, log: seq<Round>)
    requires Good(w, log) && k < |w.nodes| && w.nodes[k].SubWorkflow? && Shielded(w.intent) && !w.intent.IntentVerifyProof?
    ensures Shielded(w.nodes[k].w.intent)
  {
    hide Good, Happened, GetAMROf, KeepPrimaryAuthenticatorOfIdentity, CodeWasAccepted, PasswordWasAccepted,
      LinkWasAccepted, CaptchaWasPassed;
    PlaceOk(w, k, log);
    if w.intent.IntentCreateLoginID? { PlaceOk(w, 0, log); }
  }

  lemma CaptchaFinished(w: Workflow, k: nat, log: seq<Round>)
    requires Good(w, log) && k < |w.nodes| && w.nodes[k].SubWorkflow? && w.nodes[k].w.intent.IntentVerifyCaptcha?
      && IsEOF(w.nodes[k].w)
    ensures PassedCaptcha(w)
  {
    hide Good, IsEOF, SlotOk;
    PlaceOk(w, k, log);
    var c := w.nodes[k].w;
    AtEof(c);
    CaptchaPlace(c, log);
    assert PassedAt(c.nodes[0]);
    assert PassedCaptcha(c);
    assert PassedAt(w.nodes[k]);
  }

  lemma CaptchaPlace(c: Workflow, log: seq<Round>)
    requires Good(c, log) && c.intent.IntentVerifyCaptcha? && c.nodes != []
    ensures c.nodes[0] == Simple(NodeVerifiedCaptcha)
  {
    hide Good, CaptchaWasPassed;
    PlaceOk(c, 0, log);
  }

  lemma IntentSendsAfterCaptcha(w: Workflow, input: Input, env: Env, log: seq<Round>)
    requires Good(w, log) && Shielded(w.intent) && !w.intent.IntentVerifyProof?
    requires w.nodes != [] ==> !LastReacts(w.nodes[|w.nodes| - 1], |w.nodes|)
    requires IntentCanReact(w.intent, w.nodes) && SendsSms(IntentReact(w.intent, w.nodes, input, env).events)
    ensures PassedCaptcha(w)
  {
    SmsSenders(w.intent, w.nodes, input, env);
    hide Good, PassedCaptcha, IntentReact, Happened;
    if (w.intent.IntentVerifyIdentity? && w.intent.identity.loginIDType == Phone) || w.intent.IntentAuthenticateOOBOTPPhone? {
      var k :| 0 <= k < |w.nodes| && w.nodes[k].SubWorkflow? && w.nodes[k].w.intent.IntentVerifyCaptcha?;
      PlaceOk(w, k, log);
      assert k == |w.nodes| - 1 ==> IsEOF(w.nodes[k].w);
      CaptchaFinished(w, k, log);
    }
  }

  /** The only two intents that send SMS codes themselves test for the captcha sub-workflow first. */
  lemma SmsSenders(i: Intent, nodes: seq<Node>, input: Input, env: Env)
    requires SendsSms(IntentReact(i, nodes, input, env).events)
    ensures (i.IntentVerifyIdentity? && i.identity.loginIDType == Phone) || i.IntentAuthenticateOOBOTPPhone?
      || (i.IntentAuthenticateEmailLoginLink? && i.authenticator.typ == OOBSMS)
    ensures (i.IntentVerifyIdentity? || i.IntentAuthenticateOOBOTPPhone?) && i.captcha ==> HasCaptchaSub(nodes)
  {
    hide HasCaptchaSub, GetAMROf, List, FindSingleNode, UserIDOf, IdentityOf, MigrateNode;
  }

  lemma NodeSendsAfterCaptcha(w: Workflow, s: SimpleNode, input: Input, env: Env, log: seq<Round>)
    requires Good(w, log) && Shielded(w.intent) && !w.intent.IntentVerifyProof?
    requires w.nodes != [] && w.nodes[|w.nodes| - 1] == Simple(s)
    requires SendsSms(NodeReact(s, input, env).events)
    ensures PassedCaptcha(w)
  {
    SmsNodes(s, input, env);
    hide NodeReact, Good, PassedCaptcha, Happened, IsEOF;
    var last := |w.nodes| - 1;
    PlaceOk(w, last, log);
    SmsNodePlace(w.intent, w.nodes[..last], s, log);
    PlaceOk(w, 0, log);
    CaptchaFinished(w, 0, log);
  }

  lemma SmsNodes(s: SimpleNode, input: Input, env: Env)
    requires SendsSms(NodeReact(s, input, env).events)
    ensures s.NodeVerifyPhoneSMS?
      || ((s.NodeAuthenticateOOBOTPPhone? || s.NodeAuthenticateEmailLoginLink?) && s.authenticator.typ == OOBSMS)
  {
    hide List;
  }

  lemma SmsNodePlace(i: Intent, before: seq<Node>, s: SimpleNode, log: seq<Round>)
    requires SlotOk(i, before, Simple(s), log) && Shielded(i) && !i.IntentVerifyProof?
    requires s.NodeVerifyPhoneSMS?
      || ((s.NodeAuthenticateOOBOTPPhone? || s.NodeAuthenticateEmailLoginLink?) && s.authenticator.typ == OOBSMS)
    ensures before != [] && before[0].SubWorkflow? && before[0].w.intent.IntentVerifyCaptcha?
  {
    hide Happened;
  }

  lemma {:induction false} ShieldedSendsAfterCaptcha(w: Workflow, input: Input, env: Env, log: seq<Round>)
    requires Good(w, log) && Shielded(w.intent)
    requires !Step(w, input, env).Eof? && SendsSms(Step(w, input, env).events)
    ensures PassedCaptcha(w) || ViaProof(w)
    decreases w
  {
    hide IntentReact, NodeReact, Good, SendsSms, Shielded, NodeCanReact, IntentCanReact;
    if w.intent.IntentVerifyProof? { return; }
    if w.nodes != [] && LastReacts(w.nodes[|w.nodes| - 1], |w.nodes|) {
      var last := |w.nodes| - 1;
      match w.nodes[last] {
        case Simple(s) => NodeSendsAfterCaptcha(w, s, input, env, log);
        case SubWorkflow(sub) =>
          ChildShielded(w, last, log);
          PlaceOk(w, last, log);
          ShieldedSendsAfterCaptcha(sub, input, env, log);
          assert PassedAt(w.nodes[last]) || ProofAt(w.nodes[last]);
      }
    } else {
      IntentSendsAfterCaptcha(w, input, env, log);
    }
  }

  // ---------------------------------------------------------------- below a proof no captcha is asked

  /** Intents a proof of phone-number verification leads to. */
  predicate Bare(i: Intent) {
    match i
    case IntentVerifyProof(_) => true
    case IntentLogin(captcha, _, _) => !captcha
    case IntentSignup(captcha, _) => !captcha
    case IntentAuthenticateOOBOTPPhone(captcha, _, _) => !captcha
    case IntentCreateLoginID(captcha, _, _, _) => !captcha
    case IntentVerifyIdentity(captcha, _, _) => !captcha
    case IntentAuthenticateEmailLoginLink(_) => true
    case IntentAuthenticatePassword(_, _) => true
    case IntentEnsureSession(_, _, _, _) => true
    case IntentCreateOOBOTPAuthenticator(_, _) => true
    case IntentCreatePassword(_, _, _) => true
    case _ => false
  }

  lemma BareNodes(w: Workflow, k: nat, log: seq<Round>)
    requires Good(w, log) && k < |w.nodes| && Bare(w.intent)
    ensures w.nodes[k].Simple? ==> !w.nodes[k].simple.NodeVerifiedCaptcha?
    ensures w.nodes[k].SubWorkflow? ==> Bare(w.nodes[k].w.intent)
  {
    hide Good, GetAMROf, KeepPrimaryAuthenticatorOfIdentity, Happened, CodeWasAccepted, PasswordWasAccepted,
      LinkWasAccepted, CaptchaWasPassed;
    PlaceOk(w, k, log);
  }

  lemma {:induction false} BareHasNoCaptcha(w: Workflow, log: seq<Round>)
    requires Good(w, log) && Bare(w.intent)
    ensures !PassedCaptcha(w)
    decreases w
  {
    hide Good, Bare;
    forall k | 0 <= k < |w.nodes| ensures !PassedAt(w.nodes[k]) {
      BareNodes(w, k, log);
      if w.nodes[k].SubWorkflow? {
        PlaceOk(w, k, log);
        BareHasNoCaptcha(w.nodes[k].w, log);
      }
    }
  }

  predicate AboveProof(i: Intent) { i.IntentProtectedAuthenticate? || i.IntentAuthenticate? || i.IntentVerifyProof? }

  lemma ChildNotAboveProof(w: Workflow, k: nat, log: seq<Round>)
    requires Good(w, log) && k < |w.nodes| && w.nodes[k].SubWorkflow? && !AboveProof(w.intent)
    ensures !AboveProof(w.nodes[k].w.intent)
  {
    hide Good, GetAMROf, KeepPrimaryAuthenticatorOfIdentity, Happened, CodeWasAccepted, PasswordWasAccepted,
      LinkWasAccepted, CaptchaWasPassed;
    PlaceOk(w, k, log);
  }

  lemma {:induction false} NoProofBelow(w: Workflow, log: seq<Round>)
    requires Good(w, log) && !AboveProof(w.intent)
    ensures !ViaProof(w)
    decreases w
  {
    hide Good;
    forall k | 0 <= k < |w.nodes| ensures !ProofAt(w.nodes[k]) {
      if w.nodes[k].SubWorkflow? {
        ChildNotAboveProof(w, k, log);
        PlaceOk(w, k, log);
        NoProofBelow(w.nodes[k].w, log);
      }
    }
  }

  /** A protected tree goes through a proof or through a captcha, never both. */
  lemma ProofExcludesCaptcha(w: Workflow, log: seq<Round>)
    requires Good(w, log) && w.intent.IntentProtectedAuthenticate? && ViaProof(w)
    ensures !PassedCaptcha(w)
  {
    hide Good, Bare;
    var j :| 0 <= j < |w.nodes| && ProofAt(w.nodes[j]);
    PlaceOk(w, j, log);
    forall k | 0 <= k < |w.nodes| ensures !PassedAt(w.nodes[k]) {
      PlaceOk(w, k, log);
      AuthenticateViaProof(w.nodes[0].w, log);
    }
  }

  lemma AuthenticateViaProof(a: Workflow, log: seq<Round>)
    requires Good(a, log) && a.intent.IntentAuthenticate? && ViaProof(a)
    ensures !PassedCaptcha(a)
  {
    hide Good;
    var j :| 0 <= j < |a.nodes| && ProofAt(a.nodes[j]);
    PlaceOk(a, j, log);
    forall k | 0 <= k < |a.nodes| ensures !PassedAt(a.nodes[k]) {
      PlaceOk(a, k, log);
      if AboveProof(a.nodes[0].w.intent) { BareHasNoCaptcha(a.nodes[0].w, log); } else { NoProofBelow(a.nodes[0].w, log); }
    }
  }

  // ---------------------------------------------------------------- what stands behind it

  /** A captcha node stands nowhere but where a captcha was passed. */
  lemma {:induction false} CaptchaNodeIsBacked(w: Workflow, log: seq<Round>)
    requires Good(w, log) && PassedCaptcha(w)
    ensures CaptchaWasPassed(log)
    decreases w
  {
    hide Good, CaptchaWasPassed;
    var k :| 0 <= k < |w.nodes| && PassedAt(w.nodes[k]);
    PlaceOk(w, k, log);
    match w.nodes[k] {
      case SubWorkflow(sub) => CaptchaNodeIsBacked(sub, log);
      case Simple(s) => CaptchaNodePlace(w.intent, w.nodes[..k], s, log);
    }
  }

  lemma CaptchaNodePlace(i: Intent, before: seq<Node>, s: SimpleNode, log: seq<Round>)
    requires SlotOk(i, before, Simple(s), log) && s.NodeVerifiedCaptcha?
    ensures CaptchaWasPassed(log)
  {
    hide Happened, CaptchaWasPassed;
  }

  ghost predicate SomeProofWasAccepted(log: seq<Round>) { exists proof, spec :: Happened(log, ProofAccepted(proof, spec)) }

  /** The proof itself sends nothing before it was checked. */
  lemma SendsAfterProof(v: Workflow, input: Input, env: Env, log: seq<Round>)
    requires Good(v, log) && v.intent.IntentVerifyProof?
    requires !Step(v, input, env).Eof? && SendsSms(Step(v, input, env).events)
    ensures SomeProofWasAccepted(log)
  {
    hide Good, SendsSms;
    if v.nodes != [] {
      PlaceOk(v, 0, log);
    } else {
      ProofSendsNothing(v.intent.proof, env);
    }
  }

  lemma ProofSendsNothing(proof: string, env: Env)
    ensures !SendsSms(VerifyProofReact(proof, env).events)
  {
  }

  lemma {:induction false} ProofIsBehind(w: Workflow, input: Input, env: Env, log: seq<Round>)
    requires Good(w, log) && AboveProof(w.intent) && ViaProof(w)
    requires !Step(w, input, env).Eof? && SendsSms(Step(w, input, env).events)
    ensures SomeProofWasAccepted(log)
    decreases w
  {
    hide Good, IntentReact, NodeReact, SendsSms, SomeProofWasAccepted;
    if w.intent.IntentVerifyProof? {
      SendsAfterProof(w, input, env, log);
    } else {
      var j :| 0 <= j < |w.nodes| && ProofAt(w.nodes[j]);
      PlaceOk(w, j, log);
      var sub := w.nodes[j].w;
      OneChild(w, log);
      if !AboveProof(sub.intent) { NoProofBelow(sub, log); }
      if !LastReacts(w.nodes[|w.nodes| - 1], |w.nodes|) { EntranceSendsNothing(w.intent, w.nodes, input, env); }
      ProofIsBehind(sub, input, env, log);
    }
  }

  lemma EntranceSendsNothing(i: Intent, nodes: seq<Node>, input: Input, env: Env)
    requires i.IntentProtectedAuthenticate? || i.IntentAuthenticate?
    ensures !SendsSms(IntentReact(i, nodes, input, env).events)
  {
  }

  lemma OneChild(w: Workflow, log: seq<Round>)
    requires Good(w, log) && (w.intent.IntentProtectedAuthenticate? || w.intent.IntentAuthenticate?)
    ensures |w.nodes| <= 1
  {
    hide Good;
    if |w.nodes| > 1 { PlaceOk(w, 1, log); }
  }

  // ---------------------------------------------------------------- runs

  /** An SMS of this tree, after these rounds: it has a captcha node, which stands for a passed captcha, or,
      exactly then not, it came in with a proof, which was accepted. */
  ghost predicate IsGated(at: Workflow, before: seq<Round>) {
    && (PassedCaptcha(at) <==> !ViaProof(at))
    && (if ViaProof(at) then SomeProofWasAccepted(before) else CaptchaWasPassed(before))
  }

  ghost predicate GatedFrom(before: seq<Round>, log: seq<Round>) {
    forall k :: 0 <= k < |log| && SendsSms(log[k].events) ==> IsGated(log[k].at, before + log[..k])
  }

  lemma StepIsGated(w: Workflow, input: Input, env: Env, log: seq<Round>)
    requires Good(w, log) && w.intent.IntentProtectedAuthenticate? && !Step(w, input, env).Eof?
    ensures SendsSms(Step(w, input, env).events) ==> IsGated(w, log)
  {
    hide Good, Step, PassedCaptcha, ViaProof, CaptchaWasPassed, SomeProofWasAccepted;
    if SendsSms(Step(w, input, env).events) {
      ShieldedSendsAfterCaptcha(w, input, env, log);
      if ViaProof(w) {
        ProofExcludesCaptcha(w, log);
        ProofIsBehind(w, input, env, log);
      } else {
        CaptchaNodeIsBacked(w, log);
      }
    }
  }

  lemma {:induction false} AcceptIsGated(w: Workflow, input: Input, envs: nat -> Env, i: nat, log: seq<Round>)
    requires Good(w, log) && w.intent.IntentProtectedAuthenticate?
    ensures GatedFrom(log, AcceptRun(w, input, envs, i).log)
    decreases Tokens(w), Potential(w, 0)
  {
    hide Good, Step, Tokens, Potential, Happened, IsGated, SendsSms;
    var env := envs(i);
    var o := Step(w, input, env);
    NothingSent();
    if !o.Eof? { StepIsGated(w, input, env, log); }
    assert log + [] == log;
    if o.Appended? {
      StepShrinks(w, input, env, 0);
      var x := Round(w, input, env, o.events);
      LogExtends(log, x);
      StepKeepsGood(w, input, env, log, log + [x]);
      AcceptIsGated(o.w, input, envs, i + 1, log + [x]);
      GatedAfter(log, x, AcceptRun(o.w, input, envs, i + 1).log);
    }
  }

  lemma NothingSent()
    ensures !SendsSms([]) && GatedFrom([], [])
  {
  }

  lemma GatedAfter(log: seq<Round>, x: Round, rest: seq<Round>)
    requires GatedFrom(log + [x], rest) && (SendsSms(x.events) ==> IsGated(x.at, log))
    ensures GatedFrom(log, [x] + rest)
  {
    hide IsGated, SendsSms;
    var all := [x] + rest;
    forall k | 0 <= k < |all| && SendsSms(all[k].events) ensures IsGated(all[k].at, log + all[..k]) {
      if k == 0 {
        assert log + all[..0] == log;
      } else {
        assert log + all[..k] == log + [x] + rest[..k - 1];
        assert all[k] == rest[k - 1];
      }
    }
  }

  lemma GatedTogether(log: seq<Round>, more: seq<Round>)
    requires GatedFrom([], log) && GatedFrom(log, more)
    ensures GatedFrom([], log + more)
  {
    hide IsGated, SendsSms;
    var all := log + more;
    forall k | 0 <= k < |all| && SendsSms(all[k].events) ensures IsGated(all[k].at, [] + all[..k]) {
      if k < |log| {
        assert [] + all[..k] == [] + log[..k];
      } else {
        assert [] + all[..k] == log + more[..k - |log|];
        assert all[k] == more[k - |log|];
      }
    }
  }

  lemma EmptyIsGood(root: Intent, log: seq<Round>)
    requires IsPublic(root)
    ensures Good(Workflow(root, []), log)
  {
  }

  lemma {:induction false} RunIsGated(root: Intent, envs: nat -> Env, f: Faults, requests: seq<Request>)
    requires root.IntentProtectedAuthenticate?
    ensures GatedFrom([], Replay(Opened(root, envs, f), requests).log)
  {
    hide Good, AcceptRun, IsGated, SendsSms, GatedFrom;
    if requests == [] {
      NothingSent();
      EmptyIsGood(root, []);
      AcceptIsGated(Workflow(root, []), Nothing, envs, 0, []);
      assert [] + AcceptRun(Workflow(root, []), Nothing, envs, 0).log == AcceptRun(Workflow(root, []), Nothing, envs, 0).log;
    } else {
      var front, r := requests[..|requests| - 1], requests[|requests| - 1];
      RunIsGated(root, envs, f, front);
      var s := Replay(Opened(root, envs, f), front);
      OpenedIsGood(root, envs, f);
      ReplayKeepsGood(root, Opened(root, envs, f), front);
      if !s.closed && r.instance < |s.instances| {
        AcceptIsGated(s.instances[r.instance], r.input, r.envs, 0, s.log);
        GatedTogether(s.log, AcceptRun(s.instances[r.instance], r.input, r.envs, 0).log);
      }
    }
  }

  /** In every run of the protected flow each SMS goes out from a tree with a captcha node if and only if the
      flow did not come in with a proof of phone-number verification; and in an earlier round of the run the
      captcha, or the proof, was found right. */
  lemma EverySmsIsGated(root: Intent, envs: nat -> Env, f: Faults, requests: seq<Request>, k: nat)
    requires root.IntentProtectedAuthenticate?
    requires k < |Replay(Opened(root, envs, f), requests).log| && SendsSms(Replay(Opened(root, envs, f), requests).log[k].events)
    ensures var log := Replay(Opened(root, envs, f), requests).log;
      && (PassedCaptcha(log[k].at) <==> !ViaProof(log[k].at))
      && (if ViaProof(log[k].at) then exists proof, spec :: ProofWasRight(log[..k], proof, spec) else CaptchaShown(log[..k]))
  {
    hide PassedCaptcha, ViaProof, SendsSms, Replay, Opened, Happened, CaptchaShown, CaptchaWasPassed, ProofWasRight, IsTrue;
    RunIsGated(root, envs, f, requests);
    RunIsTrue(root, envs, f, requests);
    var log := Replay(Opened(root, envs, f), requests).log;
    assert IsGated(log[k].at, [] + log[..k]);
    assert [] + log[..k] == log[..k];
    CaptchaIsAnswer(log[..k]);
    if ViaProof(log[k].at) {
      var proof, spec :| Happened(log[..k], ProofAccepted(proof, spec));
      ProofsAreAnswers(log[..k], proof, spec);
    }
  }
}
