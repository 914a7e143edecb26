/**
 What a session stands for: a login that reached its session step holds two finished factors of the
 same user, and both were really checked.
 */
module LatteLogin {
  import opened Wrappers
  import opened LatteTypes
  import opened LatteReact
  import opened LatteEngine
  import opened LatteService
  import opened LatteInvariant
  import opened LattePreserved
  import opened LatteBound
  import opened LatteRuns
  import opened LatteEvidence
  import opened StringOrder
  import opened Amr

  function VerifiedIn(w: Workflow): Option<Authn> {
    var n := FindSingleNode(w.nodes, (n: SimpleNode) => n.NodeVerifiedAuthenticator?);
    if n.Some? && n.value.NodeVerifiedAuthenticator? then Some(n.value.authenticator) else None
  }

  lemma PlaceOk(w: Workflow, k: nat, log: seq<Round>)
    requires Good(w, log) && k < |w.nodes|
    ensures SlotOk(w.intent, w.nodes[..k], w.nodes[k], log)
    ensures w.nodes[k].SubWorkflow? ==> Good(w.nodes[k].w, log) && (k < |w.nodes| - 1 ==> IsEOF(w.nodes[k].w))
  {
    hide SlotOk, IsEOF;
  }

  lemma {:induction false} NoneFound(nodes: seq<Node>, keep: SimpleNode -> bool)
    requires forall k :: 0 <= k < |nodes| && nodes[k].Simple? ==> !keep(nodes[k].simple)
    ensures FindSingleNode(nodes, keep).None?
  {
    if nodes != [] { NoneFound(nodes[1..], keep); }
  }

  lemma VerifiedAtTheEnd(w: Workflow)
    requires w.nodes != [] && w.nodes[|w.nodes| - 1].Simple? && w.nodes[|w.nodes| - 1].simple.NodeVerifiedAuthenticator?
    requires forall k :: 0 <= k < |w.nodes| - 1 && w.nodes[k].Simple? ==> !w.nodes[k].simple.NodeVerifiedAuthenticator?
    ensures VerifiedIn(w) == Some(w.nodes[|w.nodes| - 1].simple.authenticator)
  {
    var keep := (n: SimpleNode) => n.NodeVerifiedAuthenticator?;
    var front := w.nodes[..|w.nodes| - 1];
    assert w.nodes == front + [w.nodes[|w.nodes| - 1]];
    NoneFound(front, keep);
    FindAppended(front, w.nodes[|w.nodes| - 1], keep);
  }

  // ---------------------------------------------------------------- finished factors

  lemma PhoneFinished(w: Workflow, log: seq<Round>)
    requires Good(w, log) && w.intent.IntentAuthenticateOOBOTPPhone? && IsEOF(w)
    ensures VerifiedIn(w) == Some(w.intent.authenticator)
    ensures w.intent.verified || CodeWasAccepted(log, w.intent.authenticator)
  {
    hide Good, CodeWasAccepted, IsEOF, VerifiedIn;
    AtEof(w);
    var first := if w.intent.captcha then 1 else 0;
    PlaceOk(w, 0, log);
    PlaceOk(w, first, log);
    if |w.nodes| > first + 1 { PlaceOk(w, first + 1, log); }
    if |w.nodes| > first + 2 { PlaceOk(w, first + 2, log); }
    VerifiedAtTheEnd(w);
  }

  lemma LinkFinished(w: Workflow, log: seq<Round>)
    requires Good(w, log) && w.intent.IntentAuthenticateEmailLoginLink? && IsEOF(w)
    ensures VerifiedIn(w) == Some(w.intent.authenticator) && LinkWasAccepted(log, w.intent.authenticator)
  {
    hide Good, LinkWasAccepted, IsEOF, VerifiedIn;
    AtEof(w);
    PlaceOk(w, 0, log);
    if |w.nodes| > 1 { PlaceOk(w, 1, log); }
    if |w.nodes| > 2 { PlaceOk(w, 2, log); }
    VerifiedAtTheEnd(w);
  }

  lemma PasswordFinished(w: Workflow, log: seq<Round>)
    requires Good(w, log) && w.intent.IntentAuthenticatePassword? && IsEOF(w)
    ensures VerifiedIn(w).Some?
    ensures var b := VerifiedIn(w).value;
      b.userID == w.intent.userID && b.kind == w.intent.kind && b.typ == Password && PasswordWasAccepted(log, b)
  {
    hide Good, PasswordWasAccepted, IsEOF, VerifiedIn;
    AtEof(w);
    PlaceOk(w, 0, log);
    if |w.nodes| > 1 { PlaceOk(w, 1, log); }
    if |w.nodes| > 2 { PlaceOk(w, 2, log); }
    VerifiedAtTheEnd(w);
  }

  // ---------------------------------------------------------------- the two factors of a login

  predicate HoldsEnsureSession(w: Workflow) {
    exists k :: 0 <= k < |w.nodes| && w.nodes[k].SubWorkflow? && w.nodes[k].w.intent.IntentEnsureSession?
  }

  /** The authenticator of the first factor is the user's phone: its code was found right in a round of this
      run, or a proof was, whose identity was looked up and is this one. */
  ghost predicate FirstFactor(i: Intent, w: Workflow, log: seq<Round>)
    requires i.IntentLogin?
  {
    && IsEOF(w) && VerifiedIn(w).Some?
    && var a := VerifiedIn(w).value;
    && a.userID == i.identity.userID && a.typ == OOBSMS && KeepPrimaryAuthenticatorOfIdentity(i.identity, a)
    && (if i.identityVerified then ProofShown(log, i.identity) else CodeShown(log, a))
  }

  /** The second factor is the user's link or password, found right in a round of this run. */
  ghost predicate SecondFactor(i: Intent, w: Workflow, log: seq<Round>)
    requires i.IntentLogin?
  {
    && IsEOF(w) && VerifiedIn(w).Some?
    && var b := VerifiedIn(w).value;
    && b.userID == i.identity.userID && b.kind == Primary
    && ((b.typ == OOBEmail && LinkWasRight(log, b)) || (b.typ == Password && PasswordShown(log, b)))
  }

  ghost predicate TwoFactors(w: Workflow, log: seq<Round>)
    requires w.intent.IntentLogin?
  {
    && |w.nodes| == 3 && w.nodes[0].SubWorkflow? && w.nodes[1].SubWorkflow? && w.nodes[2].SubWorkflow?
    && FirstFactor(w.intent, w.nodes[0].w, log)
    && SecondFactor(w.intent, w.nodes[1].w, log)
    && w.nodes[2].w.intent.IntentEnsureSession? && w.nodes[2].w.intent.userID == w.intent.identity.userID
  }

  lemma LoginPlaces(w: Workflow, log: seq<Round>)
    requires Good(w, log) && w.intent.IntentLogin?
    ensures |w.nodes| <= 3
    ensures forall k :: 0 <= k < |w.nodes| ==> w.nodes[k].SubWorkflow? && LoginSlot(w.intent.captcha, w.intent.identity, w.intent.identityVerified, w.nodes[..k], w.nodes[k])
  {
    hide Good;
    forall k | 0 <= k < |w.nodes|
      ensures w.nodes[k].SubWorkflow?
        && LoginSlot(w.intent.captcha, w.intent.identity, w.intent.identityVerified, w.nodes[..k], w.nodes[k])
    {
      PlaceOk(w, k, log);
    }
    if |w.nodes| > 3 { PlaceOk(w, 3, log); }
  }

  lemma LoginIsTwoFactor(w: Workflow, log: seq<Round>)
    requires Good(w, log) && AllTrue(log) && w.intent.IntentLogin? && HoldsEnsureSession(w)
    ensures TwoFactors(w, log)
  {
    hide Good, IsEOF, GetAMROf, KeepPrimaryAuthenticatorOfIdentity, VerifiedIn, CodeWasAccepted, PasswordWasAccepted,
      LinkWasAccepted, ProofWasAccepted, AllTrue, CodeShown, PasswordShown, LinkWasRight, ProofShown;
    LoginPlaces(w, log);
    var k :| 0 <= k < |w.nodes| && w.nodes[k].SubWorkflow? && w.nodes[k].w.intent.IntentEnsureSession?;
    assert k == 2;
    PlaceOk(w, 0, log);
    PlaceOk(w, 1, log);
    assert IntentOk(w.intent, log) by { LoginIntentOk(w, log); }
    PhoneFinished(w.nodes[0].w, log);
    ProofIsAnswer(log, w.intent.identity);
    FactorsAreAnswers(log, w.nodes[0].w.intent.authenticator);
    if w.nodes[1].w.intent.IntentAuthenticateEmailLoginLink? {
      LinkFinished(w.nodes[1].w, log);
      FactorsAreAnswers(log, w.nodes[1].w.intent.authenticator);
    } else {
      PasswordFinished(w.nodes[1].w, log);
      FactorsAreAnswers(log, VerifiedIn(w.nodes[1].w).value);
    }
  }

  lemma LoginIntentOk(w: Workflow, log: seq<Round>)
    requires Good(w, log)
    ensures IntentOk(w.intent, log)
  {
    hide SlotOk, IntentOk, IsEOF;
  }

  // ---------------------------------------------------------------- anywhere in any reachable tree

  /** `sub` is `w` or lies somewhere below it. */
  ghost predicate Below(sub: Workflow, w: Workflow)
    decreases w
  {
    sub == w || exists k :: 0 <= k < |w.nodes| && w.nodes[k].SubWorkflow? && Below(sub, w.nodes[k].w)
  }

  lemma {:induction false} GoodBelow(sub: Workflow, w: Workflow, log: seq<Round>)
    requires Good(w, log) && Below(sub, w)
    ensures Good(sub, log)
    decreases w
  {
    hide SlotOk, IntentOk, IsEOF;
    if sub != w {
      var k :| 0 <= k < |w.nodes| && w.nodes[k].SubWorkflow? && Below(sub, w.nodes[k].w);
      GoodBelow(sub, w.nodes[k].w, log);
    }
  }

  /** Every login that reached its session step, in any instance a client can make the service store. */
  lemma LoginSessionsAreBacked(root: Intent, s: Session, k: nat, login: Workflow)
    requires IsPublic(root) && ReachableFrom(root, s)
    requires k < |s.instances| && Below(login, s.instances[k])
    requires login.intent.IntentLogin? && HoldsEnsureSession(login)
    ensures TwoFactors(login, s.log)
  {
    hide Good, TwoFactors, HoldsEnsureSession, Below, ReachableFrom, AllTrue;
    ReachableIsGood(root, s);
    ReachableIsTrue(root, s);
    GoodBelow(login, s.instances[k], s.log);
    LoginIsTwoFactor(login, s.log);
  }

  /** Reauthentication: the session step comes after that user's own password was found right. */
  lemma ReauthenticationIsBacked(root: Intent, s: Session, k: nat)
    requires root.IntentReauthenticate? && ReachableFrom(root, s)
    requires k < |s.instances| && HoldsEnsureSession(s.instances[k])
    ensures var w := s.instances[k];
      && |w.nodes| == 2 && w.nodes[0].SubWorkflow? && VerifiedIn(w.nodes[0].w).Some?
      && w.nodes[1].SubWorkflow? && w.nodes[1].w.intent.IntentEnsureSession? && w.nodes[1].w.intent.userID == root.userIDHint != ""
      && var b := VerifiedIn(w.nodes[0].w).value; b.userID == root.userIDHint && PasswordShown(s.log, b)
  {
    hide Good, IsEOF, GetAMROf, VerifiedIn, PasswordWasAccepted, ReachableFrom, PasswordShown, AllTrue;
    ReachableIsGood(root, s);
    ReachableIsTrue(root, s);
    var w := s.instances[k];
    var j :| 0 <= j < |w.nodes| && w.nodes[j].SubWorkflow? && w.nodes[j].w.intent.IntentEnsureSession?;
    PlaceOk(w, j, s.log);
    PlaceOk(w, 0, s.log);
    if |w.nodes| > 2 { PlaceOk(w, 2, s.log); }
    PasswordFinished(w.nodes[0].w, s.log);
    FactorsAreAnswers(s.log, VerifiedIn(w.nodes[0].w).value);
  }
}
