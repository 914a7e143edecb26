/** How a verification of an identity can end (intent_verify_identity.go). */
module LatteVerification {
  import opened Wrappers
  import opened LatteTypes
  import opened LatteReact
  import opened LatteEngine
  import opened LatteBound
  import opened LatteService
  import opened LatteInvariant
  import opened LattePreserved
  import opened LatteRuns
  import opened LatteEvidence
  import opened LatteLogin

  predicate IsVerified(n: Node) { n.Simple? && n.simple.NodeVerifiedIdentity? }

  /** The verification was skipped: nothing is marked verified by the node. */
  predicate IsSkipped(n: Node) { IsVerified(n) && n.simple.claim.None? }

  predicate IsProved(n: Node) { IsVerified(n) && n.simple.claim.Some? }

  predicate IsCaptcha(n: Node) { n.SubWorkflow? && n.w.intent.IntentVerifyCaptcha? }

  /** The six ways: skipped, or a code sent and proved, each with or without a captcha before it; and
      with the captcha flag, because the intent still reacts at one node, skipped twice, or skipped and
      then asked for a captcha that guards nothing. */
  lemma FinishedVerification(w: Workflow, log: seq<Round>)
    requires Good(w, log) && IsEOF(w) && w.intent.IntentVerifyIdentity?
    ensures var n := w.nodes;
      if !w.intent.captcha then
        || (|n| == 1 && IsSkipped(n[0]))
        || (|n| == 2 && IsVerify(n[0]) && IsProved(n[1]))
      else
        || (|n| == 2 && IsCaptcha(n[0]) && IsSkipped(n[1]))
        || (|n| == 3 && IsCaptcha(n[0]) && IsVerify(n[1]) && IsProved(n[2]))
        || (|n| == 2 && IsSkipped(n[0]) && IsSkipped(n[1]))
        || (|n| == 2 && IsSkipped(n[0]) && IsCaptcha(n[1]))
  {
    hide Good, IsEOF;
    AtEof(w);
    PlaceOk(w, 0, log);
    if |w.nodes| > 1 { PlaceOk(w, 1, log); }
    if |w.nodes| > 2 { PlaceOk(w, 2, log); }
    if |w.nodes| > 3 { PlaceOk(w, 3, log); }
  }

  /** In every reachable instance a newly verified claim is the identity's own, and a code found right
      stands behind it; only for a phone number may it be a proof that was not checked here. */
  lemma VerifiedClaimsAreBacked(root: Intent, s: Session, k: nat, w: Workflow, j: nat)
    requires IsPublic(root) && ReachableFrom(root, s) && k < |s.instances| && Below(w, s.instances[k])
    requires w.intent.IntentVerifyIdentity? && j < |w.nodes| && IsProved(w.nodes[j])
    ensures var i := w.intent.identity;
      && w.nodes[j].simple.claim == Some(Claim(i.userID, i.loginIDType, i.loginID)) && w.nodes[j].simple.identityID == i.id
      && ClaimShown(s.log, i)
  {
    hide Good, ReachableFrom, ClaimBacked, ClaimShown, AllTrue;
    ReachableIsGood(root, s);
    ReachableIsTrue(root, s);
    ClaimIsAnswer(s.log, w.intent.identity);
    GoodBelow(w, s.instances[k], s.log);
    PlaceOk(w, j, s.log);
  }

  /** The double node is no accident of the model: one request makes it whenever the claim is already
      verified or need not be. */
  lemma SkippedTwice(i: Identity, isFromSignUp: bool, input: Input, env: Env)
    requires i.loginIDType != Username && !env.serviceError && !env.effectError && env.status.Some?
    requires (env.status.value.required || env.status.value.triggerable)
      && (env.status.value.verified || (isFromSignUp && !env.status.value.required))
    ensures var a := AcceptRun(Workflow(IntentVerifyIdentity(true, i, isFromSignUp), []), input, (k: nat) => env, 0);
      a.ending == EndOfFlow && a.w.nodes == [Simple(NodeVerifiedIdentity(i.id, None)), Simple(NodeVerifiedIdentity(i.id, None))]
  {
    hide IntentReact, NodeReact, Tokens, Potential, AcceptRun;
    var envs := (k: nat) => env;
    var intent := IntentVerifyIdentity(true, i, isFromSignUp);
    var done := Simple(NodeVerifiedIdentity(i.id, None));
    var w0, w1, w2 := Workflow(intent, []), Workflow(intent, [done]), Workflow(intent, [done, done]);
    Skips(intent, [], input, env);
    Skips(intent, [done], input, env);
    assert [done] + [done] == [done, done];
    assert Step(w0, input, env) == Appended(w1, []);
    assert Step(w1, input, env) == Appended(w2, []);
    assert Step(w2, input, env) == Eof;
    hide Step;
    AcceptGoesOn(w0, input, envs, 0);
    AcceptGoesOn(w1, input, envs, 1);
    AcceptEnds(w2, input, envs, 2);
  }

  lemma Skips(i: Intent, nodes: seq<Node>, input: Input, env: Env)
    requires i.IntentVerifyIdentity? && i.identity.loginIDType != Username && !env.serviceError && env.status.Some?
    requires (env.status.value.required || env.status.value.triggerable)
      && (env.status.value.verified || (i.isFromSignUp && !env.status.value.required))
    ensures IntentReact(i, nodes, input, env) == Grow(NodeVerifiedIdentity(i.identity.id, None))
  {
  }
}
