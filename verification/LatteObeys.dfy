/**
 Every intent and node of latte reacts by the rules: one lemma for each kind of effect and each group
 of reactors.
 */
module LatteObeys {
  import opened Wrappers
  import opened LatteTypes
  import opened LatteReact
  import opened LatteRules

  // ---------------------------------------------------------------- the lists of authenticators

  lemma {:induction false} FirstOfFilter(stored: seq<Authn>, w: Wanted, keep: Authn -> bool)
    requires forall a :: keep(a) <==> IsWanted(w, a)
    ensures Filter(stored, keep) == [] <==> NoneWanted(stored, w)
    ensures forall a :: IsFirst(stored, w, a) <==> Filter(stored, keep) != [] && Filter(stored, keep)[0] == a
  {
    hide IsWanted;
    if stored != [] {
      var rest := stored[1..];
      FirstOfFilter(rest, w, keep);
      assert forall a :: a in stored <==> a == stored[0] || a in rest;
      forall a ensures IsFirst(stored, w, a) <==> if IsWanted(w, stored[0]) then a == stored[0] else IsFirst(rest, w, a) {
        FirstOrLater(stored, w, a);
      }
    }
  }

  lemma FirstOrLater(stored: seq<Authn>, w: Wanted, a: Authn)
    requires stored != []
    ensures IsFirst(stored, w, a) <==> if IsWanted(w, stored[0]) then a == stored[0] else IsFirst(stored[1..], w, a)
  {
    hide IsWanted;
    var rest := stored[1..];
    if IsFirst(stored, w, a) {
      var k :| 0 <= k < |stored| && stored[k] == a && IsWanted(w, a) && forall j :: 0 <= j < k ==> !IsWanted(w, stored[j]);
      if k > 0 {
        assert rest[k - 1] == a;
        assert forall j :: 0 <= j < k - 1 ==> rest[j] == stored[j + 1];
      }
    }
    if !IsWanted(w, stored[0]) && IsFirst(rest, w, a) {
      var k :| 0 <= k < |rest| && rest[k] == a && IsWanted(w, a) && forall j :: 0 <= j < k ==> !IsWanted(w, rest[j]);
      assert stored[k + 1] == a;
      assert forall j :: 0 < j < k + 1 ==> stored[j] == rest[j - 1];
    }
    if IsWanted(w, stored[0]) && a == stored[0] { assert stored[0] == a; }
  }

  lemma PasswordListed(env: Env, userID: string, kind: Kind)
    ensures var ais := List(env, userID, (a: Authn) => a.kind == kind && a.typ == Password); var w := PasswordOf(userID, kind);
      (ais == [] <==> NoneWanted(env.authenticators, w)) && forall a :: IsFirst(env.authenticators, w, a) <==> ais != [] && ais[0] == a
  {
    var inner := (a: Authn) => a.kind == kind && a.typ == Password;
    FirstOfFilter(env.authenticators, PasswordOf(userID, kind), (a: Authn) => a.userID == userID && inner(a));
  }

  lemma EmailListed(env: Env, userID: string)
    ensures var ais := List(env, userID, (a: Authn) => a.kind == Primary && a.typ == OOBEmail); var w := EmailOf(userID);
      (ais == [] <==> NoneWanted(env.authenticators, w)) && forall a :: IsFirst(env.authenticators, w, a) <==> ais != [] && ais[0] == a
  {
    var inner := (a: Authn) => a.kind == Primary && a.typ == OOBEmail;
    FirstOfFilter(env.authenticators, EmailOf(userID), (a: Authn) => a.userID == userID && inner(a));
  }

  lemma PhoneListed(env: Env, i: Identity)
    ensures var ais := List(env, i.userID, (a: Authn) => KeepPrimaryAuthenticatorOfIdentity(i, a) && a.typ == OOBSMS); var w := PhoneOf(i);
      (ais == [] <==> NoneWanted(env.authenticators, w)) && forall a :: IsFirst(env.authenticators, w, a) <==> ais != [] && ais[0] == a
  {
    var inner := (a: Authn) => KeepPrimaryAuthenticatorOfIdentity(i, a) && a.typ == OOBSMS;
    FirstOfFilter(env.authenticators, PhoneOf(i), (a: Authn) => a.userID == i.userID && inner(a));
  }

  lemma {:induction false} CodeNodeFound(nodes: seq<Node>)
    ensures HasCodeNode(nodes) <==> CodeNodeStands(nodes)
  {
    if nodes != [] {
      CodeNodeFound(nodes[1..]);
      var keep := (n: SimpleNode) => n.NodeAuthenticateOOBOTPPhone?;
      assert forall k :: 0 < k < |nodes| ==> nodes[k] == nodes[1..][k - 1];
      assert HasCodeNode(nodes) <==> (nodes[0].Simple? && nodes[0].simple.NodeAuthenticateOOBOTPPhone?) || HasCodeNode(nodes[1..]);
    }
  }

  // ---------------------------------------------------------------- the groups

  predicate IsEntrance(r: Reactor) { r.ByIntent? && (r.intent.IntentProtectedAuthenticate? || r.intent.IntentAuthenticate? || r.intent.IntentVerifyProof? || r.intent.IntentVerifyCaptcha?) }

  predicate IsLogin(r: Reactor) { r.ByIntent? && r.intent.IntentLogin? }

  predicate IsReauthenticate(r: Reactor) { r.ByIntent? && r.intent.IntentReauthenticate? }

  predicate IsPhone(r: Reactor) { r.ByIntent? && r.intent.IntentAuthenticateOOBOTPPhone? }

  predicate IsLink(r: Reactor) { r.ByIntent? && r.intent.IntentAuthenticateEmailLoginLink? }

  predicate IsStep(r: Reactor) { r.ByIntent? && (r.intent.IntentAuthenticatePassword? || r.intent.IntentEnsureSession?) }

  predicate IsSignup(r: Reactor) { r.ByIntent? && (r.intent.IntentSignup? || r.intent.IntentMigrate?) }

  predicate IsLoginID(r: Reactor) { r.ByIntent? && r.intent.IntentCreateLoginID? }

  predicate IsMigratedLoginID(r: Reactor) { r.ByIntent? && r.intent.IntentMigrateLoginID? }

  predicate IsVerify(r: Reactor) { r.ByIntent? && r.intent.IntentVerifyIdentity? }

  predicate IsMigrate(r: Reactor) { r.ByIntent? && (r.intent.IntentMigrateAccount? || r.intent.IntentMigrateIdentities? || r.intent.IntentMigrateAuthenticators?) }

  predicate IsTarget(r: Reactor) { r.ByIntent? && (r.intent.IntentCreateOOBOTPAuthenticator? || r.intent.IntentMigrateOOBOTPAuthenticator?) }

  predicate IsNewPassword(r: Reactor) { r.ByIntent? && r.intent.IntentCreatePassword? }

  predicate IsCodeNode(r: Reactor) { r.ByNode? && (r.node.NodeAuthenticateOOBOTPPhone? || r.node.NodeAuthenticateEmailLoginLink?) }

  predicate IsOtherNode(r: Reactor) { r.ByNode? && (r.node.NodeAuthenticatePassword? || r.node.NodeVerifiedProof?) }

  predicate IsVerifyNode(r: Reactor) { r.ByNode? && (r.node.NodeVerifyPhoneSMS? || r.node.NodeVerifyEmail?) }

  /** These cause messages and nothing else. */
  lemma MessagesOnly(r: Reactor, input: Input, env: Env)
    requires IsPhone(r) || IsLink(r) || IsVerify(r)
    ensures forall e :: Causes(r, input, env, e) <==> IsMessage(r, input, env, e)
  {
    hide HasCaptchaSub, CodeNodeStands, IsFirst, IsTried;
  }

  // ---------------------------------------------------------------- events

  lemma EntranceEvents(r: Reactor, input: Input, env: Env)
    requires Reacts(r) && IsEntrance(r)
    ensures EventsObey(r, input, env)
  {
    hide HasCaptchaSub, List, GetAMROf, IdentityOf, UserIDOf, IdentityMigrateSpecs, AuthnMigrateSpecs, IsFirst, NoneWanted, KeepPrimaryAuthenticatorOfIdentity, CodeNodeStands, FindSingleNode, HasCodeNode;
  }

  lemma LoginEvents(r: Reactor, input: Input, env: Env)
    requires Reacts(r) && IsLogin(r)
    ensures EventsObey(r, input, env)
  {
    hide HasCaptchaSub, List, GetAMROf, IdentityOf, UserIDOf, IdentityMigrateSpecs, AuthnMigrateSpecs, IsFirst, NoneWanted, KeepPrimaryAuthenticatorOfIdentity, CodeNodeStands, FindSingleNode, HasCodeNode;
    
  }

  lemma ReauthenticateEvents(r: Reactor, input: Input, env: Env)
    requires Reacts(r) && IsReauthenticate(r)
    ensures EventsObey(r, input, env)
  {
    hide HasCaptchaSub, List, GetAMROf, IdentityOf, UserIDOf, IdentityMigrateSpecs, AuthnMigrateSpecs, IsFirst, NoneWanted, KeepPrimaryAuthenticatorOfIdentity, CodeNodeStands, FindSingleNode, HasCodeNode;
  }

  lemma PhoneEventsUnsent(r: Reactor, input: Input, env: Env)
    requires Reacts(r) && IsPhone(r) && (r.intent.verified || !GateOpen(r.intent.captcha, r.nodes))
    ensures EventsObey(r, input, env)
  {
    hide HasCaptchaSub, List, GetAMROf, IdentityOf, UserIDOf, IdentityMigrateSpecs, AuthnMigrateSpecs, IsFirst, NoneWanted, KeepPrimaryAuthenticatorOfIdentity, CodeNodeStands, FindSingleNode, HasCodeNode;
    CodeNodeFound(r.nodes);
    MessagesOnly(r, input, env);
    hide Causes;
  }

  lemma PhoneEventsSent(r: Reactor, input: Input, env: Env)
    requires Reacts(r) && IsPhone(r) && !(r.intent.verified || !GateOpen(r.intent.captcha, r.nodes))
    ensures EventsObey(r, input, env)
  {
    hide HasCaptchaSub, List, GetAMROf, IdentityOf, UserIDOf, IdentityMigrateSpecs, AuthnMigrateSpecs, IsFirst, NoneWanted, KeepPrimaryAuthenticatorOfIdentity, CodeNodeStands, FindSingleNode, HasCodeNode;
    CodeNodeFound(r.nodes);
    MessagesOnly(r, input, env);
    hide Causes;
  }

  lemma PhoneEvents(r: Reactor, input: Input, env: Env)
    requires Reacts(r) && IsPhone(r)
    ensures EventsObey(r, input, env)
  {
    hide Reacts, EventsObey;
    if (r.intent.verified || !GateOpen(r.intent.captcha, r.nodes)) { PhoneEventsUnsent(r, input, env); } else { PhoneEventsSent(r, input, env); }
  }

  lemma LinkEvents(r: Reactor, input: Input, env: Env)
    requires Reacts(r) && IsLink(r)
    ensures EventsObey(r, input, env)
  {
    hide HasCaptchaSub, List, GetAMROf, IdentityOf, UserIDOf, IdentityMigrateSpecs, AuthnMigrateSpecs, IsFirst, NoneWanted, KeepPrimaryAuthenticatorOfIdentity, CodeNodeStands, FindSingleNode, HasCodeNode;
    MessagesOnly(r, input, env);
    hide Causes;
  }

  lemma StepEvents(r: Reactor, input: Input, env: Env)
    requires Reacts(r) && IsStep(r)
    ensures EventsObey(r, input, env)
  {
    hide HasCaptchaSub, List, GetAMROf, IdentityOf, UserIDOf, IdentityMigrateSpecs, AuthnMigrateSpecs, IsFirst, NoneWanted, KeepPrimaryAuthenticatorOfIdentity, CodeNodeStands, FindSingleNode, HasCodeNode;
  }

  lemma SignupEvents(r: Reactor, input: Input, env: Env)
    requires Reacts(r) && IsSignup(r)
    ensures EventsObey(r, input, env)
  {
    hide HasCaptchaSub, List, GetAMROf, IdentityOf, UserIDOf, IdentityMigrateSpecs, AuthnMigrateSpecs, IsFirst, NoneWanted, KeepPrimaryAuthenticatorOfIdentity, CodeNodeStands, FindSingleNode, HasCodeNode;
  }

  lemma LoginIDEvents(r: Reactor, input: Input, env: Env)
    requires Reacts(r) && IsLoginID(r)
    ensures EventsObey(r, input, env)
  {
    hide HasCaptchaSub, List, GetAMROf, IdentityOf, UserIDOf, IdentityMigrateSpecs, AuthnMigrateSpecs, IsFirst, NoneWanted, KeepPrimaryAuthenticatorOfIdentity, CodeNodeStands, FindSingleNode, HasCodeNode;
  }

  lemma MigratedLoginIDEvents(r: Reactor, input: Input, env: Env)
    requires Reacts(r) && IsMigratedLoginID(r)
    ensures EventsObey(r, input, env)
  {
    hide HasCaptchaSub, List, GetAMROf, IdentityOf, UserIDOf, IdentityMigrateSpecs, AuthnMigrateSpecs, IsFirst, NoneWanted, KeepPrimaryAuthenticatorOfIdentity, CodeNodeStands, FindSingleNode, HasCodeNode;
  }

  lemma VerifyEventsSent(r: Reactor, input: Input, env: Env)
    requires Reacts(r) && IsVerify(r) && MustVerify(r.intent, env)
    ensures EventsObey(r, input, env)
  {
    hide HasCaptchaSub, List, GetAMROf, IdentityOf, UserIDOf, IdentityMigrateSpecs, AuthnMigrateSpecs, IsFirst, NoneWanted, KeepPrimaryAuthenticatorOfIdentity, CodeNodeStands, FindSingleNode, HasCodeNode;
    MessagesOnly(r, input, env);
    hide Causes;
  }

  lemma VerifyEventsUnsent(r: Reactor, input: Input, env: Env)
    requires Reacts(r) && IsVerify(r) && !MustVerify(r.intent, env)
    ensures EventsObey(r, input, env)
  {
    hide HasCaptchaSub, List, GetAMROf, IdentityOf, UserIDOf, IdentityMigrateSpecs, AuthnMigrateSpecs, IsFirst, NoneWanted, KeepPrimaryAuthenticatorOfIdentity, CodeNodeStands, FindSingleNode, HasCodeNode;
    MessagesOnly(r, input, env);
    hide Causes;
  }

  lemma VerifyEvents(r: Reactor, input: Input, env: Env)
    requires Reacts(r) && IsVerify(r)
    ensures EventsObey(r, input, env)
  {
    hide Reacts, EventsObey;
    if MustVerify(r.intent, env) { VerifyEventsSent(r, input, env); } else { VerifyEventsUnsent(r, input, env); }
  }

  lemma MigrateEvents(r: Reactor, input: Input, env: Env)
    requires Reacts(r) && IsMigrate(r)
    ensures EventsObey(r, input, env)
  {
    hide HasCaptchaSub, List, GetAMROf, IdentityOf, UserIDOf, IdentityMigrateSpecs, AuthnMigrateSpecs, IsFirst, NoneWanted, KeepPrimaryAuthenticatorOfIdentity, CodeNodeStands, FindSingleNode, HasCodeNode;
  }

  lemma TargetEvents(r: Reactor, input: Input, env: Env)
    requires Reacts(r) && IsTarget(r)
    ensures EventsObey(r, input, env)
  {
    hide HasCaptchaSub, List, GetAMROf, IdentityOf, UserIDOf, IdentityMigrateSpecs, AuthnMigrateSpecs, IsFirst, NoneWanted, KeepPrimaryAuthenticatorOfIdentity, CodeNodeStands, FindSingleNode, HasCodeNode;
  }

  lemma NewPasswordEvents(r: Reactor, input: Input, env: Env)
    requires Reacts(r) && IsNewPassword(r)
    ensures EventsObey(r, input, env)
  {
    hide HasCaptchaSub, List, GetAMROf, IdentityOf, UserIDOf, IdentityMigrateSpecs, AuthnMigrateSpecs, IsFirst, NoneWanted, KeepPrimaryAuthenticatorOfIdentity, CodeNodeStands, FindSingleNode, HasCodeNode;
  }

  lemma CodeNodeEvents(r: Reactor, input: Input, env: Env)
    requires Reacts(r) && IsCodeNode(r)
    ensures EventsObey(r, input, env)
  {
    hide HasCaptchaSub, List, GetAMROf, IdentityOf, UserIDOf, IdentityMigrateSpecs, AuthnMigrateSpecs, IsFirst, NoneWanted, KeepPrimaryAuthenticatorOfIdentity, CodeNodeStands, FindSingleNode, HasCodeNode;
  }

  lemma OtherNodeEventsOfPassword(r: Reactor, input: Input, env: Env)
    requires Reacts(r) && IsOtherNode(r) && r.node.NodeAuthenticatePassword?
    ensures EventsObey(r, input, env)
  {
    hide HasCaptchaSub, List, GetAMROf, IdentityOf, UserIDOf, IdentityMigrateSpecs, AuthnMigrateSpecs, IsFirst, NoneWanted, KeepPrimaryAuthenticatorOfIdentity, CodeNodeStands, FindSingleNode, HasCodeNode;
    PasswordListed(env, r.node.userID, r.node.kind);
  }

  lemma OtherNodeEventsOfProof(r: Reactor, input: Input, env: Env)
    requires Reacts(r) && IsOtherNode(r) && !r.node.NodeAuthenticatePassword?
    ensures EventsObey(r, input, env)
  {
    hide HasCaptchaSub, List, GetAMROf, IdentityOf, UserIDOf, IdentityMigrateSpecs, AuthnMigrateSpecs, IsFirst, NoneWanted, KeepPrimaryAuthenticatorOfIdentity, CodeNodeStands, FindSingleNode, HasCodeNode;
  }

  lemma OtherNodeEvents(r: Reactor, input: Input, env: Env)
    requires Reacts(r) && IsOtherNode(r)
    ensures EventsObey(r, input, env)
  {
    hide Reacts, EventsObey;
    if r.node.NodeAuthenticatePassword? { OtherNodeEventsOfPassword(r, input, env); } else { OtherNodeEventsOfProof(r, input, env); }
  }

  lemma VerifyNodeEvents(r: Reactor, input: Input, env: Env)
    requires Reacts(r) && IsVerifyNode(r)
    ensures EventsObey(r, input, env)
  {
    hide HasCaptchaSub, List, GetAMROf, IdentityOf, UserIDOf, IdentityMigrateSpecs, AuthnMigrateSpecs, IsFirst, NoneWanted, KeepPrimaryAuthenticatorOfIdentity, CodeNodeStands, FindSingleNode, HasCodeNode;
  }

  lemma EventsOfAll(r: Reactor, input: Input, env: Env)
    requires Reacts(r)
    ensures EventsObey(r, input, env)
  {
    hide EventsObey;
    if IsEntrance(r) {
      EntranceEvents(r, input, env);
    } else if IsLogin(r) {
      LoginEvents(r, input, env);
    } else if IsReauthenticate(r) {
      ReauthenticateEvents(r, input, env);
    } else if IsPhone(r) {
      PhoneEvents(r, input, env);
    } else if IsLink(r) {
      LinkEvents(r, input, env);
    } else if IsStep(r) {
      StepEvents(r, input, env);
    } else if IsSignup(r) {
      SignupEvents(r, input, env);
    } else if IsLoginID(r) {
      LoginIDEvents(r, input, env);
    } else if IsMigratedLoginID(r) {
      MigratedLoginIDEvents(r, input, env);
    } else if IsVerify(r) {
      VerifyEvents(r, input, env);
    } else if IsMigrate(r) {
      MigrateEvents(r, input, env);
    } else if IsTarget(r) {
      TargetEvents(r, input, env);
    } else if IsNewPassword(r) {
      NewPasswordEvents(r, input, env);
    } else if IsCodeNode(r) {
      CodeNodeEvents(r, input, env);
    } else if IsOtherNode(r) {
      OtherNodeEvents(r, input, env);
    } else {
      VerifyNodeEvents(r, input, env);
    }
  }

  // ---------------------------------------------------------------- simple nodes

  lemma EntranceSimples(r: Reactor, input: Input, env: Env)
    requires Reacts(r) && IsEntrance(r)
    ensures SimplesObey(r, input, env)
  {
    hide HasCaptchaSub, List, GetAMROf, IdentityOf, UserIDOf, IdentityMigrateSpecs, AuthnMigrateSpecs, IsFirst, NoneWanted, KeepPrimaryAuthenticatorOfIdentity, CodeNodeStands, FindSingleNode, HasCodeNode;
  }

  lemma LoginSimples(r: Reactor, input: Input, env: Env)
    requires Reacts(r) && IsLogin(r)
    ensures SimplesObey(r, input, env)
  {
    hide HasCaptchaSub, List, GetAMROf, IdentityOf, UserIDOf, IdentityMigrateSpecs, AuthnMigrateSpecs, IsFirst, NoneWanted, KeepPrimaryAuthenticatorOfIdentity, CodeNodeStands, FindSingleNode, HasCodeNode;
    
  }

  lemma ReauthenticateSimples(r: Reactor, input: Input, env: Env)
    requires Reacts(r) && IsReauthenticate(r)
    ensures SimplesObey(r, input, env)
  {
    hide HasCaptchaSub, List, GetAMROf, IdentityOf, UserIDOf, IdentityMigrateSpecs, AuthnMigrateSpecs, IsFirst, NoneWanted, KeepPrimaryAuthenticatorOfIdentity, CodeNodeStands, FindSingleNode, HasCodeNode;
  }

  lemma PhoneSimplesUnsent(r: Reactor, input: Input, env: Env)
    requires Reacts(r) && IsPhone(r) && (r.intent.verified || !GateOpen(r.intent.captcha, r.nodes))
    ensures SimplesObey(r, input, env)
  {
    hide HasCaptchaSub, List, GetAMROf, IdentityOf, UserIDOf, IdentityMigrateSpecs, AuthnMigrateSpecs, IsFirst, NoneWanted, KeepPrimaryAuthenticatorOfIdentity, CodeNodeStands, FindSingleNode, HasCodeNode;
    CodeNodeFound(r.nodes);
  }

  lemma PhoneSimplesSent(r: Reactor, input: Input, env: Env)
    requires Reacts(r) && IsPhone(r) && !(r.intent.verified || !GateOpen(r.intent.captcha, r.nodes))
    ensures SimplesObey(r, input, env)
  {
    hide HasCaptchaSub, List, GetAMROf, IdentityOf, UserIDOf, IdentityMigrateSpecs, AuthnMigrateSpecs, IsFirst, NoneWanted, KeepPrimaryAuthenticatorOfIdentity, CodeNodeStands, FindSingleNode, HasCodeNode;
    CodeNodeFound(r.nodes);
  }

  lemma PhoneSimples(r: Reactor, input: Input, env: Env)
    requires Reacts(r) && IsPhone(r)
    ensures SimplesObey(r, input, env)
  {
    hide Reacts, SimplesObey;
    if (r.intent.verified || !GateOpen(r.intent.captcha, r.nodes)) { PhoneSimplesUnsent(r, input, env); } else { PhoneSimplesSent(r, input, env); }
  }

  lemma LinkSimples(r: Reactor, input: Input, env: Env)
    requires Reacts(r) && IsLink(r)
    ensures SimplesObey(r, input, env)
  {
    hide HasCaptchaSub, List, GetAMROf, IdentityOf, UserIDOf, IdentityMigrateSpecs, AuthnMigrateSpecs, IsFirst, NoneWanted, KeepPrimaryAuthenticatorOfIdentity, CodeNodeStands, FindSingleNode, HasCodeNode;
  }

  lemma StepSimples(r: Reactor, input: Input, env: Env)
    requires Reacts(r) && IsStep(r)
    ensures SimplesObey(r, input, env)
  {
    hide HasCaptchaSub, List, GetAMROf, IdentityOf, UserIDOf, IdentityMigrateSpecs, AuthnMigrateSpecs, IsFirst, NoneWanted, KeepPrimaryAuthenticatorOfIdentity, CodeNodeStands, FindSingleNode, HasCodeNode;
  }

  lemma SignupSimples(r: Reactor, input: Input, env: Env)
    requires Reacts(r) && IsSignup(r)
    ensures SimplesObey(r, input, env)
  {
    hide HasCaptchaSub, List, GetAMROf, IdentityOf, UserIDOf, IdentityMigrateSpecs, AuthnMigrateSpecs, IsFirst, NoneWanted, KeepPrimaryAuthenticatorOfIdentity, CodeNodeStands, FindSingleNode, HasCodeNode;
  }

  lemma LoginIDSimples(r: Reactor, input: Input, env: Env)
    requires Reacts(r) && IsLoginID(r)
    ensures SimplesObey(r, input, env)
  {
    hide HasCaptchaSub, List, GetAMROf, IdentityOf, UserIDOf, IdentityMigrateSpecs, AuthnMigrateSpecs, IsFirst, NoneWanted, KeepPrimaryAuthenticatorOfIdentity, CodeNodeStands, FindSingleNode, HasCodeNode;
  }

  lemma MigratedLoginIDSimples(r: Reactor, input: Input, env: Env)
    requires Reacts(r) && IsMigratedLoginID(r)
    ensures SimplesObey(r, input, env)
  {
    hide HasCaptchaSub, List, GetAMROf, IdentityOf, UserIDOf, IdentityMigrateSpecs, AuthnMigrateSpecs, IsFirst, NoneWanted, KeepPrimaryAuthenticatorOfIdentity, CodeNodeStands, FindSingleNode, HasCodeNode;
  }

  lemma VerifySimplesSentAfterCaptcha(r: Reactor, input: Input, env: Env)
    requires Reacts(r) && IsVerify(r) && MustVerify(r.intent, env) && GateOpen(r.intent.captcha, r.nodes)
    ensures SimplesObey(r, input, env)
  {
    hide HasCaptchaSub, List, GetAMROf, IdentityOf, UserIDOf, IdentityMigrateSpecs, AuthnMigrateSpecs, IsFirst, NoneWanted, KeepPrimaryAuthenticatorOfIdentity, CodeNodeStands, FindSingleNode, HasCodeNode, IsTried, GoesOn, SessionFor, IsMadeFor;
  }

  lemma VerifySimplesSentBeforeCaptcha(r: Reactor, input: Input, env: Env)
    requires Reacts(r) && IsVerify(r) && MustVerify(r.intent, env) && !GateOpen(r.intent.captcha, r.nodes)
    ensures SimplesObey(r, input, env)
  {
    hide HasCaptchaSub, List, GetAMROf, IdentityOf, UserIDOf, IdentityMigrateSpecs, AuthnMigrateSpecs, IsFirst, NoneWanted, KeepPrimaryAuthenticatorOfIdentity, CodeNodeStands, FindSingleNode, HasCodeNode, IsTried, GoesOn, SessionFor, IsMadeFor;
  }

  lemma VerifySimplesSent(r: Reactor, input: Input, env: Env)
    requires Reacts(r) && IsVerify(r) && MustVerify(r.intent, env)
    ensures SimplesObey(r, input, env)
  {
    hide Reacts, SimplesObey;
    if GateOpen(r.intent.captcha, r.nodes) { VerifySimplesSentAfterCaptcha(r, input, env); } else { VerifySimplesSentBeforeCaptcha(r, input, env); }
  }

  lemma VerifySimplesUnsent(r: Reactor, input: Input, env: Env)
    requires Reacts(r) && IsVerify(r) && !MustVerify(r.intent, env)
    ensures SimplesObey(r, input, env)
  {
    hide HasCaptchaSub, List, GetAMROf, IdentityOf, UserIDOf, IdentityMigrateSpecs, AuthnMigrateSpecs, IsFirst, NoneWanted, KeepPrimaryAuthenticatorOfIdentity, CodeNodeStands, FindSingleNode, HasCodeNode, IsTried, GoesOn, SessionFor, IsMadeFor;
  }

  lemma VerifySimples(r: Reactor, input: Input, env: Env)
    requires Reacts(r) && IsVerify(r)
    ensures SimplesObey(r, input, env)
  {
    hide Reacts, SimplesObey;
    if MustVerify(r.intent, env) { VerifySimplesSent(r, input, env); } else { VerifySimplesUnsent(r, input, env); }
  }

  lemma MigrateSimples(r: Reactor, input: Input, env: Env)
    requires Reacts(r) && IsMigrate(r)
    ensures SimplesObey(r, input, env)
  {
    hide HasCaptchaSub, List, GetAMROf, IdentityOf, UserIDOf, IdentityMigrateSpecs, AuthnMigrateSpecs, IsFirst, NoneWanted, KeepPrimaryAuthenticatorOfIdentity, CodeNodeStands, FindSingleNode, HasCodeNode;
  }

  lemma TargetSimples(r: Reactor, input: Input, env: Env)
    requires Reacts(r) && IsTarget(r)
    ensures SimplesObey(r, input, env)
  {
    hide HasCaptchaSub, List, GetAMROf, IdentityOf, UserIDOf, IdentityMigrateSpecs, AuthnMigrateSpecs, IsFirst, NoneWanted, KeepPrimaryAuthenticatorOfIdentity, CodeNodeStands, FindSingleNode, HasCodeNode;
  }

  lemma NewPasswordSimples(r: Reactor, input: Input, env: Env)
    requires Reacts(r) && IsNewPassword(r)
    ensures SimplesObey(r, input, env)
  {
    hide HasCaptchaSub, List, GetAMROf, IdentityOf, UserIDOf, IdentityMigrateSpecs, AuthnMigrateSpecs, IsFirst, NoneWanted, KeepPrimaryAuthenticatorOfIdentity, CodeNodeStands, FindSingleNode, HasCodeNode;
  }

  lemma CodeNodeSimples(r: Reactor, input: Input, env: Env)
    requires Reacts(r) && IsCodeNode(r)
    ensures SimplesObey(r, input, env)
  {
    hide HasCaptchaSub, List, GetAMROf, IdentityOf, UserIDOf, IdentityMigrateSpecs, AuthnMigrateSpecs, IsFirst, NoneWanted, KeepPrimaryAuthenticatorOfIdentity, CodeNodeStands, FindSingleNode, HasCodeNode;
  }

  lemma OtherNodeSimples(r: Reactor, input: Input, env: Env)
    requires Reacts(r) && IsOtherNode(r)
    ensures SimplesObey(r, input, env)
  {
    hide HasCaptchaSub, List, GetAMROf, IdentityOf, UserIDOf, IdentityMigrateSpecs, AuthnMigrateSpecs, IsFirst, NoneWanted, KeepPrimaryAuthenticatorOfIdentity, CodeNodeStands, FindSingleNode, HasCodeNode;
    if r.node.NodeAuthenticatePassword? { PasswordListed(env, r.node.userID, r.node.kind); }
  }

  lemma VerifyNodeSimples(r: Reactor, input: Input, env: Env)
    requires Reacts(r) && IsVerifyNode(r)
    ensures SimplesObey(r, input, env)
  {
    hide HasCaptchaSub, List, GetAMROf, IdentityOf, UserIDOf, IdentityMigrateSpecs, AuthnMigrateSpecs, IsFirst, NoneWanted, KeepPrimaryAuthenticatorOfIdentity, CodeNodeStands, FindSingleNode, HasCodeNode;
  }

  lemma SimplesOfAll(r: Reactor, input: Input, env: Env)
    requires Reacts(r)
    ensures SimplesObey(r, input, env)
  {
    hide SimplesObey;
    if IsEntrance(r) {
      EntranceSimples(r, input, env);
    } else if IsLogin(r) {
      LoginSimples(r, input, env);
    } else if IsReauthenticate(r) {
      ReauthenticateSimples(r, input, env);
    } else if IsPhone(r) {
      PhoneSimples(r, input, env);
    } else if IsLink(r) {
      LinkSimples(r, input, env);
    } else if IsStep(r) {
      StepSimples(r, input, env);
    } else if IsSignup(r) {
      SignupSimples(r, input, env);
    } else if IsLoginID(r) {
      LoginIDSimples(r, input, env);
    } else if IsMigratedLoginID(r) {
      MigratedLoginIDSimples(r, input, env);
    } else if IsVerify(r) {
      VerifySimples(r, input, env);
    } else if IsMigrate(r) {
      MigrateSimples(r, input, env);
    } else if IsTarget(r) {
      TargetSimples(r, input, env);
    } else if IsNewPassword(r) {
      NewPasswordSimples(r, input, env);
    } else if IsCodeNode(r) {
      CodeNodeSimples(r, input, env);
    } else if IsOtherNode(r) {
      OtherNodeSimples(r, input, env);
    } else {
      VerifyNodeSimples(r, input, env);
    }
  }

  // ---------------------------------------------------------------- sub-workflows

  lemma EntranceStarts(r: Reactor, input: Input, env: Env)
    requires Reacts(r) && IsEntrance(r)
    ensures StartsObey(r, input, env)
  {
    hide HasCaptchaSub, List, GetAMROf, IdentityOf, UserIDOf, IdentityMigrateSpecs, AuthnMigrateSpecs, IsFirst, NoneWanted, KeepPrimaryAuthenticatorOfIdentity, CodeNodeStands, FindSingleNode, HasCodeNode;
  }

  lemma LoginStartsFirst(r: Reactor, input: Input, env: Env)
    requires Reacts(r) && IsLogin(r) && r.nodes == []
    ensures StartsObey(r, input, env)
  {
    hide HasCaptchaSub, List, GetAMROf, IdentityOf, UserIDOf, IdentityMigrateSpecs, AuthnMigrateSpecs, IsFirst, NoneWanted, KeepPrimaryAuthenticatorOfIdentity, CodeNodeStands, FindSingleNode, HasCodeNode;
    if r.intent.IntentLogin? {
      PhoneListed(env, r.intent.identity);
      EmailListed(env, r.intent.identity.userID);
    }
  }

  lemma LoginStartsLater(r: Reactor, input: Input, env: Env)
    requires Reacts(r) && IsLogin(r) && r.nodes != []
    ensures StartsObey(r, input, env)
  {
    hide HasCaptchaSub, List, GetAMROf, IdentityOf, UserIDOf, IdentityMigrateSpecs, AuthnMigrateSpecs, IsFirst, NoneWanted, KeepPrimaryAuthenticatorOfIdentity, CodeNodeStands, FindSingleNode, HasCodeNode;
    if r.intent.IntentLogin? {
      PhoneListed(env, r.intent.identity);
      EmailListed(env, r.intent.identity.userID);
    }
  }

  lemma LoginStarts(r: Reactor, input: Input, env: Env)
    requires Reacts(r) && IsLogin(r)
    ensures StartsObey(r, input, env)
  {
    hide Reacts, StartsObey;
    if r.nodes == [] { LoginStartsFirst(r, input, env); } else { LoginStartsLater(r, input, env); }
  }

  lemma ReauthenticateStarts(r: Reactor, input: Input, env: Env)
    requires Reacts(r) && IsReauthenticate(r)
    ensures StartsObey(r, input, env)
  {
    hide HasCaptchaSub, List, GetAMROf, IdentityOf, UserIDOf, IdentityMigrateSpecs, AuthnMigrateSpecs, IsFirst, NoneWanted, KeepPrimaryAuthenticatorOfIdentity, CodeNodeStands, FindSingleNode, HasCodeNode;
  }

  lemma PhoneStarts(r: Reactor, input: Input, env: Env)
    requires Reacts(r) && IsPhone(r)
    ensures StartsObey(r, input, env)
  {
    hide HasCaptchaSub, List, GetAMROf, IdentityOf, UserIDOf, IdentityMigrateSpecs, AuthnMigrateSpecs, IsFirst, NoneWanted, KeepPrimaryAuthenticatorOfIdentity, CodeNodeStands, FindSingleNode, HasCodeNode;
  }

  lemma LinkAndStepStarts(r: Reactor, input: Input, env: Env)
    requires Reacts(r) && (IsLink(r) || IsStep(r))
    ensures StartsObey(r, input, env)
  {
    hide HasCaptchaSub, List, GetAMROf, IdentityOf, UserIDOf, IdentityMigrateSpecs, AuthnMigrateSpecs, IsFirst, NoneWanted, KeepPrimaryAuthenticatorOfIdentity, CodeNodeStands, FindSingleNode, HasCodeNode;
  }

  lemma SignupStartsFirst(r: Reactor, input: Input, env: Env)
    requires Reacts(r) && IsSignup(r) && |r.nodes| < 3
    ensures StartsObey(r, input, env)
  {
    hide HasCaptchaSub, List, GetAMROf, IdentityOf, UserIDOf, IdentityMigrateSpecs, AuthnMigrateSpecs, IsFirst, NoneWanted, KeepPrimaryAuthenticatorOfIdentity, CodeNodeStands, FindSingleNode, HasCodeNode;
  }

  lemma SignupStartsLast(r: Reactor, input: Input, env: Env)
    requires Reacts(r) && IsSignup(r) && |r.nodes| >= 3
    ensures StartsObey(r, input, env)
  {
    hide HasCaptchaSub, List, GetAMROf, IdentityOf, UserIDOf, IdentityMigrateSpecs, AuthnMigrateSpecs, IsFirst, NoneWanted, KeepPrimaryAuthenticatorOfIdentity, CodeNodeStands, FindSingleNode, HasCodeNode;
  }

  lemma SignupStarts(r: Reactor, input: Input, env: Env)
    requires Reacts(r) && IsSignup(r)
    ensures StartsObey(r, input, env)
  {
    hide Reacts, StartsObey;
    if |r.nodes| < 3 { SignupStartsFirst(r, input, env); } else { SignupStartsLast(r, input, env); }
  }

  lemma LoginIDStartsFirst(r: Reactor, input: Input, env: Env)
    requires Reacts(r) && IsLoginID(r) && |r.nodes| < 3
    ensures StartsObey(r, input, env)
  {
    hide HasCaptchaSub, List, GetAMROf, IdentityOf, UserIDOf, IdentityMigrateSpecs, AuthnMigrateSpecs, IsFirst, NoneWanted, KeepPrimaryAuthenticatorOfIdentity, CodeNodeStands, FindSingleNode, HasCodeNode;
  }

  lemma LoginIDStartsLast(r: Reactor, input: Input, env: Env)
    requires Reacts(r) && IsLoginID(r) && |r.nodes| >= 3
    ensures StartsObey(r, input, env)
  {
    hide HasCaptchaSub, List, GetAMROf, IdentityOf, UserIDOf, IdentityMigrateSpecs, AuthnMigrateSpecs, IsFirst, NoneWanted, KeepPrimaryAuthenticatorOfIdentity, CodeNodeStands, FindSingleNode, HasCodeNode;
  }

  lemma LoginIDStarts(r: Reactor, input: Input, env: Env)
    requires Reacts(r) && IsLoginID(r)
    ensures StartsObey(r, input, env)
  {
    hide Reacts, StartsObey;
    if |r.nodes| < 3 { LoginIDStartsFirst(r, input, env); } else { LoginIDStartsLast(r, input, env); }
  }

  lemma MigratedLoginIDAndTargetAndNewPasswordStarts(r: Reactor, input: Input, env: Env)
    requires Reacts(r) && (IsMigratedLoginID(r) || IsTarget(r) || IsNewPassword(r))
    ensures StartsObey(r, input, env)
  {
    hide HasCaptchaSub, List, GetAMROf, IdentityOf, UserIDOf, IdentityMigrateSpecs, AuthnMigrateSpecs, IsFirst, NoneWanted, KeepPrimaryAuthenticatorOfIdentity, CodeNodeStands, FindSingleNode, HasCodeNode;
  }

  lemma VerifyStarts(r: Reactor, input: Input, env: Env)
    requires Reacts(r) && IsVerify(r)
    ensures StartsObey(r, input, env)
  {
    hide HasCaptchaSub, List, GetAMROf, IdentityOf, UserIDOf, IdentityMigrateSpecs, AuthnMigrateSpecs, IsFirst, NoneWanted, KeepPrimaryAuthenticatorOfIdentity, CodeNodeStands, FindSingleNode, HasCodeNode;
  }

  lemma MigrateStartsOfAccount(r: Reactor, input: Input, env: Env)
    requires Reacts(r) && IsMigrate(r) && r.intent.IntentMigrateAccount?
    ensures StartsObey(r, input, env)
  {
    hide HasCaptchaSub, List, GetAMROf, IdentityOf, UserIDOf, IdentityMigrateSpecs, AuthnMigrateSpecs, IsFirst, NoneWanted, KeepPrimaryAuthenticatorOfIdentity, CodeNodeStands, FindSingleNode, HasCodeNode;
  }

  lemma MigrateStartsOfLists(r: Reactor, input: Input, env: Env)
    requires Reacts(r) && IsMigrate(r) && !r.intent.IntentMigrateAccount?
    ensures StartsObey(r, input, env)
  {
    hide HasCaptchaSub, List, GetAMROf, IdentityOf, UserIDOf, IdentityMigrateSpecs, AuthnMigrateSpecs, IsFirst, NoneWanted, KeepPrimaryAuthenticatorOfIdentity, CodeNodeStands, FindSingleNode, HasCodeNode;
  }

  lemma MigrateStarts(r: Reactor, input: Input, env: Env)
    requires Reacts(r) && IsMigrate(r)
    ensures StartsObey(r, input, env)
  {
    hide Reacts, StartsObey;
    if r.intent.IntentMigrateAccount? { MigrateStartsOfAccount(r, input, env); } else { MigrateStartsOfLists(r, input, env); }
  }

  lemma CodeNodeAndOtherNodeAndVerifyNodeStarts(r: Reactor, input: Input, env: Env)
    requires Reacts(r) && (IsCodeNode(r) || IsOtherNode(r) || IsVerifyNode(r))
    ensures StartsObey(r, input, env)
  {
    hide HasCaptchaSub, List, GetAMROf, IdentityOf, UserIDOf, IdentityMigrateSpecs, AuthnMigrateSpecs, IsFirst, NoneWanted, KeepPrimaryAuthenticatorOfIdentity, CodeNodeStands, FindSingleNode, HasCodeNode;
  }

  lemma StartsOfAll(r: Reactor, input: Input, env: Env)
    requires Reacts(r)
    ensures StartsObey(r, input, env)
  {
    hide StartsObey;
    if IsEntrance(r) {
      EntranceStarts(r, input, env);
    } else if IsLogin(r) {
      LoginStarts(r, input, env);
    } else if IsReauthenticate(r) {
      ReauthenticateStarts(r, input, env);
    } else if IsPhone(r) {
      PhoneStarts(r, input, env);
    } else if IsLink(r) || IsStep(r) {
      LinkAndStepStarts(r, input, env);
    } else if IsSignup(r) {
      SignupStarts(r, input, env);
    } else if IsLoginID(r) {
      LoginIDStarts(r, input, env);
    } else if IsMigratedLoginID(r) || IsTarget(r) || IsNewPassword(r) {
      MigratedLoginIDAndTargetAndNewPasswordStarts(r, input, env);
    } else if IsVerify(r) {
      VerifyStarts(r, input, env);
    } else if IsMigrate(r) {
      MigrateStarts(r, input, env);
    } else {
      CodeNodeAndOtherNodeAndVerifyNodeStarts(r, input, env);
    }
  }

  // ---------------------------------------------------------------- staying and refusing

  lemma EntranceAndLoginAndReauthenticateStays(r: Reactor, input: Input, env: Env)
    requires Reacts(r) && (IsEntrance(r) || IsLogin(r) || IsReauthenticate(r))
    ensures StaysObey(r, input, env)
  {
    hide HasCaptchaSub, List, GetAMROf, IdentityOf, UserIDOf, IdentityMigrateSpecs, AuthnMigrateSpecs, IsFirst, NoneWanted, KeepPrimaryAuthenticatorOfIdentity, CodeNodeStands, FindSingleNode, HasCodeNode;
  }

  lemma PhoneAndLinkAndStepStays(r: Reactor, input: Input, env: Env)
    requires Reacts(r) && (IsPhone(r) || IsLink(r) || IsStep(r))
    ensures StaysObey(r, input, env)
  {
    hide HasCaptchaSub, List, GetAMROf, IdentityOf, UserIDOf, IdentityMigrateSpecs, AuthnMigrateSpecs, IsFirst, NoneWanted, KeepPrimaryAuthenticatorOfIdentity, CodeNodeStands, FindSingleNode, HasCodeNode;
    if IsPhone(r) {
      CodeNodeFound(r.nodes);
    }
  }

  lemma SignupAndLoginIDAndMigratedLoginIDStays(r: Reactor, input: Input, env: Env)
    requires Reacts(r) && (IsSignup(r) || IsLoginID(r) || IsMigratedLoginID(r))
    ensures StaysObey(r, input, env)
  {
    hide HasCaptchaSub, List, GetAMROf, IdentityOf, UserIDOf, IdentityMigrateSpecs, AuthnMigrateSpecs, IsFirst, NoneWanted, KeepPrimaryAuthenticatorOfIdentity, CodeNodeStands, FindSingleNode, HasCodeNode;
  }

  lemma VerifyAndTargetAndNewPasswordStays(r: Reactor, input: Input, env: Env)
    requires Reacts(r) && (IsVerify(r) || IsTarget(r) || IsNewPassword(r))
    ensures StaysObey(r, input, env)
  {
    hide HasCaptchaSub, List, GetAMROf, IdentityOf, UserIDOf, IdentityMigrateSpecs, AuthnMigrateSpecs, IsFirst, NoneWanted, KeepPrimaryAuthenticatorOfIdentity, CodeNodeStands, FindSingleNode, HasCodeNode;
  }

  lemma MigrateStays(r: Reactor, input: Input, env: Env)
    requires Reacts(r) && IsMigrate(r)
    ensures StaysObey(r, input, env)
  {
    hide HasCaptchaSub, List, GetAMROf, IdentityOf, UserIDOf, IdentityMigrateSpecs, AuthnMigrateSpecs, IsFirst, NoneWanted, KeepPrimaryAuthenticatorOfIdentity, CodeNodeStands, FindSingleNode, HasCodeNode;
  }

  lemma CodeNodeAndOtherNodeAndVerifyNodeStays(r: Reactor, input: Input, env: Env)
    requires Reacts(r) && (IsCodeNode(r) || IsOtherNode(r) || IsVerifyNode(r))
    ensures StaysObey(r, input, env)
  {
    hide HasCaptchaSub, List, GetAMROf, IdentityOf, UserIDOf, IdentityMigrateSpecs, AuthnMigrateSpecs, IsFirst, NoneWanted, KeepPrimaryAuthenticatorOfIdentity, CodeNodeStands, FindSingleNode, HasCodeNode;
  }

  lemma StaysOfAll(r: Reactor, input: Input, env: Env)
    requires Reacts(r)
    ensures StaysObey(r, input, env)
  {
    hide StaysObey;
    if IsEntrance(r) || IsLogin(r) || IsReauthenticate(r) {
      EntranceAndLoginAndReauthenticateStays(r, input, env);
    } else if IsPhone(r) || IsLink(r) || IsStep(r) {
      PhoneAndLinkAndStepStays(r, input, env);
    } else if IsSignup(r) || IsLoginID(r) || IsMigratedLoginID(r) {
      SignupAndLoginIDAndMigratedLoginIDStays(r, input, env);
    } else if IsVerify(r) || IsTarget(r) || IsNewPassword(r) {
      VerifyAndTargetAndNewPasswordStays(r, input, env);
    } else if IsMigrate(r) {
      MigrateStays(r, input, env);
    } else {
      CodeNodeAndOtherNodeAndVerifyNodeStays(r, input, env);
    }
  }

  // ---------------------------------------------------------------- failing

  lemma EntranceFailures(r: Reactor, input: Input, env: Env)
    requires Reacts(r) && IsEntrance(r)
    ensures FailuresObey(r, input, env)
  {
    hide HasCaptchaSub, List, GetAMROf, IdentityOf, UserIDOf, IdentityMigrateSpecs, AuthnMigrateSpecs, IsFirst, NoneWanted, KeepPrimaryAuthenticatorOfIdentity, CodeNodeStands, FindSingleNode, HasCodeNode;
  }

  lemma LoginFailures(r: Reactor, input: Input, env: Env)
    requires Reacts(r) && IsLogin(r)
    ensures FailuresObey(r, input, env)
  {
    hide HasCaptchaSub, List, GetAMROf, IdentityOf, UserIDOf, IdentityMigrateSpecs, AuthnMigrateSpecs, IsFirst, NoneWanted, KeepPrimaryAuthenticatorOfIdentity, CodeNodeStands, FindSingleNode, HasCodeNode;
    if r.intent.IntentLogin? {
      PhoneListed(env, r.intent.identity);
      EmailListed(env, r.intent.identity.userID);
    }
  }

  lemma ReauthenticateAndStepFailures(r: Reactor, input: Input, env: Env)
    requires Reacts(r) && (IsReauthenticate(r) || IsStep(r))
    ensures FailuresObey(r, input, env)
  {
    hide HasCaptchaSub, List, GetAMROf, IdentityOf, UserIDOf, IdentityMigrateSpecs, AuthnMigrateSpecs, IsFirst, NoneWanted, KeepPrimaryAuthenticatorOfIdentity, CodeNodeStands, FindSingleNode, HasCodeNode;
  }

  lemma PhoneFailuresUnsent(r: Reactor, input: Input, env: Env)
    requires Reacts(r) && IsPhone(r) && (r.intent.verified || !GateOpen(r.intent.captcha, r.nodes))
    ensures FailuresObey(r, input, env)
  {
    hide HasCaptchaSub, List, GetAMROf, IdentityOf, UserIDOf, IdentityMigrateSpecs, AuthnMigrateSpecs, IsFirst, NoneWanted, KeepPrimaryAuthenticatorOfIdentity, CodeNodeStands, FindSingleNode, HasCodeNode;
    CodeNodeFound(r.nodes);
  }

  lemma PhoneFailuresSent(r: Reactor, input: Input, env: Env)
    requires Reacts(r) && IsPhone(r) && !(r.intent.verified || !GateOpen(r.intent.captcha, r.nodes))
    ensures FailuresObey(r, input, env)
  {
    hide HasCaptchaSub, List, GetAMROf, IdentityOf, UserIDOf, IdentityMigrateSpecs, AuthnMigrateSpecs, IsFirst, NoneWanted, KeepPrimaryAuthenticatorOfIdentity, CodeNodeStands, FindSingleNode, HasCodeNode;
    CodeNodeFound(r.nodes);
  }

  lemma PhoneFailures(r: Reactor, input: Input, env: Env)
    requires Reacts(r) && IsPhone(r)
    ensures FailuresObey(r, input, env)
  {
    hide Reacts, FailuresObey;
    if (r.intent.verified || !GateOpen(r.intent.captcha, r.nodes)) { PhoneFailuresUnsent(r, input, env); } else { PhoneFailuresSent(r, input, env); }
  }

  lemma LinkFailures(r: Reactor, input: Input, env: Env)
    requires Reacts(r) && IsLink(r)
    ensures FailuresObey(r, input, env)
  {
    hide HasCaptchaSub, List, GetAMROf, IdentityOf, UserIDOf, IdentityMigrateSpecs, AuthnMigrateSpecs, IsFirst, NoneWanted, KeepPrimaryAuthenticatorOfIdentity, CodeNodeStands, FindSingleNode, HasCodeNode;
  }

  lemma SignupFailures(r: Reactor, input: Input, env: Env)
    requires Reacts(r) && IsSignup(r)
    ensures FailuresObey(r, input, env)
  {
    hide HasCaptchaSub, List, GetAMROf, IdentityOf, UserIDOf, IdentityMigrateSpecs, AuthnMigrateSpecs, IsFirst, NoneWanted, KeepPrimaryAuthenticatorOfIdentity, CodeNodeStands, FindSingleNode, HasCodeNode;
  }

  lemma LoginIDFailures(r: Reactor, input: Input, env: Env)
    requires Reacts(r) && IsLoginID(r)
    ensures FailuresObey(r, input, env)
  {
    hide HasCaptchaSub, List, GetAMROf, IdentityOf, UserIDOf, IdentityMigrateSpecs, AuthnMigrateSpecs, IsFirst, NoneWanted, KeepPrimaryAuthenticatorOfIdentity, CodeNodeStands, FindSingleNode, HasCodeNode;
  }

  lemma MigratedLoginIDFailures(r: Reactor, input: Input, env: Env)
    requires Reacts(r) && IsMigratedLoginID(r)
    ensures FailuresObey(r, input, env)
  {
    hide HasCaptchaSub, List, GetAMROf, IdentityOf, UserIDOf, IdentityMigrateSpecs, AuthnMigrateSpecs, IsFirst, NoneWanted, KeepPrimaryAuthenticatorOfIdentity, CodeNodeStands, FindSingleNode, HasCodeNode;
  }

  lemma VerifyFailures(r: Reactor, input: Input, env: Env)
    requires Reacts(r) && IsVerify(r)
    ensures FailuresObey(r, input, env)
  {
    hide HasCaptchaSub, List, GetAMROf, IdentityOf, UserIDOf, IdentityMigrateSpecs, AuthnMigrateSpecs, IsFirst, NoneWanted, KeepPrimaryAuthenticatorOfIdentity, CodeNodeStands, FindSingleNode, HasCodeNode;
  }

  lemma TargetAndNewPasswordFailures(r: Reactor, input: Input, env: Env)
    requires Reacts(r) && (IsTarget(r) || IsNewPassword(r))
    ensures FailuresObey(r, input, env)
  {
    hide HasCaptchaSub, List, GetAMROf, IdentityOf, UserIDOf, IdentityMigrateSpecs, AuthnMigrateSpecs, IsFirst, NoneWanted, KeepPrimaryAuthenticatorOfIdentity, CodeNodeStands, FindSingleNode, HasCodeNode;
  }

  lemma MigrateFailures(r: Reactor, input: Input, env: Env)
    requires Reacts(r) && IsMigrate(r)
    ensures FailuresObey(r, input, env)
  {
    hide HasCaptchaSub, List, GetAMROf, IdentityOf, UserIDOf, IdentityMigrateSpecs, AuthnMigrateSpecs, IsFirst, NoneWanted, KeepPrimaryAuthenticatorOfIdentity, CodeNodeStands, FindSingleNode, HasCodeNode;
  }

  lemma CodeNodeFailures(r: Reactor, input: Input, env: Env)
    requires Reacts(r) && IsCodeNode(r)
    ensures FailuresObey(r, input, env)
  {
    hide HasCaptchaSub, List, GetAMROf, IdentityOf, UserIDOf, IdentityMigrateSpecs, AuthnMigrateSpecs, IsFirst, NoneWanted, KeepPrimaryAuthenticatorOfIdentity, CodeNodeStands, FindSingleNode, HasCodeNode;
  }

  lemma OtherNodeFailures(r: Reactor, input: Input, env: Env)
    requires Reacts(r) && IsOtherNode(r)
    ensures FailuresObey(r, input, env)
  {
    hide HasCaptchaSub, List, GetAMROf, IdentityOf, UserIDOf, IdentityMigrateSpecs, AuthnMigrateSpecs, IsFirst, NoneWanted, KeepPrimaryAuthenticatorOfIdentity, CodeNodeStands, FindSingleNode, HasCodeNode;
    if r.node.NodeAuthenticatePassword? { PasswordListed(env, r.node.userID, r.node.kind); }
  }

  lemma VerifyNodeFailures(r: Reactor, input: Input, env: Env)
    requires Reacts(r) && IsVerifyNode(r)
    ensures FailuresObey(r, input, env)
  {
    hide HasCaptchaSub, List, GetAMROf, IdentityOf, UserIDOf, IdentityMigrateSpecs, AuthnMigrateSpecs, IsFirst, NoneWanted, KeepPrimaryAuthenticatorOfIdentity, CodeNodeStands, FindSingleNode, HasCodeNode;
  }

  lemma FailuresOfAll(r: Reactor, input: Input, env: Env)
    requires Reacts(r)
    ensures FailuresObey(r, input, env)
  {
    hide FailuresObey;
    if IsEntrance(r) {
      EntranceFailures(r, input, env);
    } else if IsLogin(r) {
      LoginFailures(r, input, env);
    } else if IsReauthenticate(r) || IsStep(r) {
      ReauthenticateAndStepFailures(r, input, env);
    } else if IsPhone(r) {
      PhoneFailures(r, input, env);
    } else if IsLink(r) {
      LinkFailures(r, input, env);
    } else if IsSignup(r) {
      SignupFailures(r, input, env);
    } else if IsLoginID(r) {
      LoginIDFailures(r, input, env);
    } else if IsMigratedLoginID(r) {
      MigratedLoginIDFailures(r, input, env);
    } else if IsVerify(r) {
      VerifyFailures(r, input, env);
    } else if IsTarget(r) || IsNewPassword(r) {
      TargetAndNewPasswordFailures(r, input, env);
    } else if IsMigrate(r) {
      MigrateFailures(r, input, env);
    } else if IsCodeNode(r) {
      CodeNodeFailures(r, input, env);
    } else if IsOtherNode(r) {
      OtherNodeFailures(r, input, env);
    } else {
      VerifyNodeFailures(r, input, env);
    }
  }

  /** Whoever reacts to whatever with whatever answers: the events, the appended node, the resend, the refusal
      and the failure are those of the rules, and no others. */
  lemma ReactionsObey(r: Reactor, input: Input, env: Env)
    requires Reacts(r)
    ensures EventsObey(r, input, env) && StaysObey(r, input, env) && FailuresObey(r, input, env)
    ensures forall n :: ReplyOf(r, input, env).reaction == Next(n) <==> Appends(r, input, env, n)
  {
    hide EventsObey, StaysObey, FailuresObey, Reacts, ReplyOf, AppendsSimple, Starts;
    EventsOfAll(r, input, env);
    SimplesOfAll(r, input, env);
    StartsOfAll(r, input, env);
    StaysOfAll(r, input, env);
    FailuresOfAll(r, input, env);
  }
}
