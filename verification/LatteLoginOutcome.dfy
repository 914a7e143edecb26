/** What a finished login reports: the methods of its session and the lockout counters it clears. */
module LatteLoginOutcome {
  import opened Wrappers
  import opened LatteTypes
  import opened LatteReact
  import opened LatteEngine
  import opened LatteService
  import opened LatteInvariant
  import opened LatteRuns
  import opened LatteLogin
  import opened StringOrder
  import opened Amr

  // ---------------------------------------------------------------- AMR

  predicate HasMethods(a: Authn) { !(a.kind == Primary && a.typ == TOTP) && !(a.kind == Secondary && a.typ == Passkey) }

  /** The methods of an authenticator tell its type by the names of RFC 8176, and by its own last one also its kind. */
  lemma MethodsTell(a: Authn, b: Authn)
    requires HasMethods(a) && HasMethods(b)
    ensures var m := AMROf(a);
      && m != []
      && ("pwd" == m[0] <==> a.typ == Password) && ("otp" == m[0] <==> a.typ in {TOTP, OOBEmail, OOBSMS}) && ("x_passkey" == m[0] <==> a.typ == Passkey)
      && (|m| > 2 && m[1] == "sms" <==> a.typ == OOBSMS)
    ensures AMROf(a)[|AMROf(a)| - 1] == AMROf(b)[|AMROf(b)| - 1] <==> a.kind == b.kind && a.typ == b.typ
  {
    var x, y := OwnMethod(a), OwnMethod(b);
    if x == y { assert |x| == |y| && x[2] == y[2]; }
  }

  function OwnMethod(a: Authn): (m: string)
    requires HasMethods(a)
    ensures |m| > 2 && m[2] == if a.kind == Primary then 'p' else 's'
    ensures |m| == (if a.kind == Primary then 10 else 12) + (match a.typ case Password => 8 case Passkey => 7 case TOTP => 4 case OOBEmail => 13 case OOBSMS => 11)
  {
    AMROf(a)[|AMROf(a)| - 1]
  }

  lemma TwoGetters(nodes: seq<Node>)
    requires |nodes| == 2 && nodes[0].SubWorkflow? && nodes[1].SubWorkflow?
    requires IsAMRGetter(nodes[0].w.intent) && IsAMRGetter(nodes[1].w.intent)
    ensures FindSubWorkflows(nodes, IsAMRGetter) == [nodes[0].w, nodes[1].w]
  {
    assert nodes[..1] == [nodes[0]];
    assert FindSubWorkflows([nodes[0]], IsAMRGetter) == [nodes[0].w] by { assert [nodes[0]][..0] == []; }
  }

  lemma CountTwo(x: seq<string>, y: seq<string>)
    requires x != [] && y != []
    ensures AuthCount([x, y]) == 2 && Union([x, y]) == Elements(x) + Elements(y)
  {
    hide AuthCount, Union, Elements;
    CountSplit([x], [y]);
    CountOne(x);
    CountOne(y);
    assert [x] + [y] == [x, y];
  }

  /** The session of a login reports the methods of both factors and "mfa", sorted, each once. */
  lemma LoginReportsBothFactors(w: Workflow, log: seq<Round>)
    requires Good(w, log) && AllTrue(log) && w.intent.IntentLogin? && HoldsEnsureSession(w)
    ensures TwoFactors(w, log)
    ensures var amr := w.nodes[2].w.intent.amr; var b := VerifiedIn(w.nodes[1].w).value;
      && StrictlySorted(amr)
      && Elements(amr) == {"otp", "sms", "x_primary_oob_otp_sms", "mfa"}
           + (if b.typ == Password then {"pwd", "x_primary_password"} else {"otp", "x_primary_oob_otp_email"})
  {
    hide Good, GetAMROf, VerifiedIn, AmrOf, AMRLists, Elements, StrictlySorted, KeepPrimaryAuthenticatorOfIdentity;
    LoginIsTwoFactor(w, log);
    LoginPlaces(w, log);
    var nodes := w.nodes[..2];
    assert nodes[0] == w.nodes[0] && nodes[1] == w.nodes[1];
    assert w.nodes[2].w.intent.amr == GetAMROf(nodes);
    AmrOfTwo(nodes);
    var x, y := AMROfWorkflow(nodes[0].w), AMROfWorkflow(nodes[1].w);
    VerifiedAMR(nodes[0].w);
    VerifiedAMR(nodes[1].w);
    KeptIsPrimary(w.intent.identity, VerifiedIn(nodes[0].w).value);
    FirstElements(VerifiedIn(nodes[0].w).value);
    FirstElements(VerifiedIn(nodes[1].w).value);
  }

  lemma KeptIsPrimary(i: Identity, a: Authn)
    requires KeepPrimaryAuthenticatorOfIdentity(i, a)
    ensures a.kind == Primary
  {
  }

  lemma VerifiedAMR(w: Workflow)
    requires VerifiedIn(w).Some?
    ensures AMROfWorkflow(w) == AMROf(VerifiedIn(w).value)
  {
  }

  lemma AmrOfTwo(nodes: seq<Node>)
    requires |nodes| == 2 && nodes[0].SubWorkflow? && nodes[1].SubWorkflow?
    requires IsAMRGetter(nodes[0].w.intent) && IsAMRGetter(nodes[1].w.intent)
    ensures var x, y := AMROfWorkflow(nodes[0].w), AMROfWorkflow(nodes[1].w); x != [] && y != [] ==>
      && StrictlySorted(GetAMROf(nodes))
      && Elements(GetAMROf(nodes)) == Elements(x) + Elements(y) + {"mfa"}
  {
    hide AMROfWorkflow, StrictlySorted, Elements, AmrOf, AuthCount, Union;
    TwoGetters(nodes);
    var x, y := AMROfWorkflow(nodes[0].w), AMROfWorkflow(nodes[1].w);
    assert AMRLists([nodes[0].w, nodes[1].w]) == [x, y];
    AmrIsCanonical([x, y]);
    if x != [] && y != [] { CountTwo(x, y); }
  }

  lemma AmrOfOne(nodes: seq<Node>)
    requires |nodes| == 1 && nodes[0].SubWorkflow? && IsAMRGetter(nodes[0].w.intent)
    ensures StrictlySorted(GetAMROf(nodes)) && Elements(GetAMROf(nodes)) == Elements(AMROfWorkflow(nodes[0].w))
  {
    hide AMROfWorkflow, StrictlySorted, Elements, AmrOf, AuthCount, Union;
    assert nodes[..0] == [];
    assert FindSubWorkflows(nodes, IsAMRGetter) == [nodes[0].w];
    var x := AMROfWorkflow(nodes[0].w);
    assert AMRLists([nodes[0].w]) == [x];
    AmrIsCanonical([x]);
    CountOne(x);
  }

  /** The session of a reauthentication reports the password alone. */
  lemma ReauthenticationReportsPassword(w: Workflow, log: seq<Round>)
    requires Good(w, log) && w.intent.IntentReauthenticate? && |w.nodes| == 2
    ensures w.nodes[1].SubWorkflow? && w.nodes[1].w.intent.IntentEnsureSession?
    ensures StrictlySorted(w.nodes[1].w.intent.amr) && Elements(w.nodes[1].w.intent.amr) == {"pwd", "x_primary_password"}
  {
    hide Good, GetAMROf, VerifiedIn, Elements, StrictlySorted, IsEOF, PasswordWasAccepted;
    PlaceOk(w, 0, log);
    PlaceOk(w, 1, log);
    PasswordFinished(w.nodes[0].w, log);
    VerifiedAMR(w.nodes[0].w);
    FirstElements(VerifiedIn(w.nodes[0].w).value);
    AmrOfOne(w.nodes[..1]);
  }

  lemma FirstElements(a: Authn)
    requires a.kind == Primary
    ensures a.typ == OOBSMS ==> AMROf(a) != [] && Elements(AMROf(a)) == {"otp", "sms", "x_primary_oob_otp_sms"}
    ensures a.typ == OOBEmail ==> AMROf(a) != [] && Elements(AMROf(a)) == {"otp", "x_primary_oob_otp_email"}
    ensures a.typ == Password ==> AMROf(a) != [] && Elements(AMROf(a)) == {"pwd", "x_primary_password"}
  {
  }

  // ---------------------------------------------------------------- lockout

  datatype LockoutMethod = LockoutPassword | LockoutTOTP | LockoutOOBOTP

  function LockoutMethodOf(t: AuthnType): Option<LockoutMethod> {
    match t
    case Password => Some(LockoutPassword)
    case OOBEmail => Some(LockoutOOBOTP)
    case OOBSMS => Some(LockoutOOBOTP)
    case TOTP => Some(LockoutTOTP)
    case Passkey => None
  }

  function MethodsOf(n: Node): seq<LockoutMethod> {
    match n
    case Simple(s) =>
      if s.NodeVerifiedAuthenticator? && LockoutMethodOf(s.authenticator.typ).Some? then [LockoutMethodOf(s.authenticator.typ).value] else []
    case SubWorkflow(sub) => MethodsIn(sub.nodes)
  }

  /** The methods of the verified authenticators in the order a traversal meets them. */
  function MethodsIn(nodes: seq<Node>): seq<LockoutMethod> {
    if nodes == [] then [] else MethodsIn(nodes[..|nodes| - 1]) + MethodsOf(nodes[|nodes| - 1])
  }

  /** getVerifiedAuthenticationLockoutMethods: a traversal that appends. */
  method GetVerifiedAuthenticationLockoutMethods(w: Workflow) returns (result: seq<LockoutMethod>)
    ensures result == MethodsIn(w.nodes)
    decreases w
  {
    result := [];
    for k := 0 to |w.nodes|
      invariant result == MethodsIn(w.nodes[..k])
    {
      assert w.nodes[..k + 1][..k] == w.nodes[..k];
      match w.nodes[k] {
        case Simple(s) =>
          if s.NodeVerifiedAuthenticator? {
            var m := LockoutMethodOf(s.authenticator.typ);
            if m.Some? { result := result + [m.value]; }
          }
        case SubWorkflow(sub) =>
          var below := GetVerifiedAuthenticationLockoutMethods(sub);
          result := result + below;
      }
    }
    assert w.nodes[..|w.nodes|] == w.nodes;
  }

  lemma MethodsOfNone()
    ensures MethodsIn([]) == []
  {
  }

  lemma MethodsStep(front: seq<Node>, n: Node)
    ensures MethodsIn(front + [n]) == MethodsIn(front) + MethodsOf(n)
  {
    hide MethodsOf;
    assert (front + [n])[..|front|] == front;
  }

  lemma {:induction false} MethodsSplit(a: seq<Node>, b: seq<Node>)
    ensures MethodsIn(a + b) == MethodsIn(a) + MethodsIn(b)
  {
    hide MethodsIn, MethodsOf;
    if b == [] {
      MethodsOfNone();
      assert a + b == a;
    } else {
      var front, n := b[..|b| - 1], b[|b| - 1];
      MethodsSplit(a, front);
      MethodsStep(front, n);
      MethodsStep(a + front, n);
      assert b == front + [n];
      assert a + b == (a + front) + [n];
    }
  }

  lemma MethodsOfOne(n: Node)
    ensures MethodsIn([n]) == MethodsOf(n)
  {
    assert [n][..0] == [];
  }

  lemma MethodsOfTwo(x: Node, y: Node)
    ensures MethodsIn([x, y]) == MethodsOf(x) + MethodsOf(y)
  {
    MethodsSplit([x], [y]);
    MethodsOfOne(x);
    MethodsOfOne(y);
    assert [x] + [y] == [x, y];
  }

  /** Only its last node can be a verified authenticator of a finished factor. */
  lemma FactorMethods(w: Workflow, log: seq<Round>)
    requires Good(w, log) && IsEOF(w)
    requires w.intent.IntentAuthenticateOOBOTPPhone? || w.intent.IntentAuthenticateEmailLoginLink?
      || w.intent.IntentAuthenticatePassword?
    ensures VerifiedIn(w).Some?
      && MethodsIn(w.nodes) == (if LockoutMethodOf(VerifiedIn(w).value.typ).Some? then [LockoutMethodOf(VerifiedIn(w).value.typ).value] else [])
  {
    hide Good, IsEOF, VerifiedIn, MethodsIn, LockoutMethodOf, CodeWasAccepted, PasswordWasAccepted, LinkWasAccepted;
    if w.intent.IntentAuthenticateOOBOTPPhone? { PhoneFinished(w, log); }
    else if w.intent.IntentAuthenticateEmailLoginLink? { LinkFinished(w, log); }
    else { PasswordFinished(w, log); }
    FactorShape(w, log);
    var front, last := w.nodes[..|w.nodes| - 1], w.nodes[|w.nodes| - 1];
    assert w.nodes == front + [last];
    MethodsSplit(front, [last]);
    MethodsOfOne(last);
    SilentMethods(front);
    VerifiedAtTheEnd(w);
  }

  ghost predicate Silent(n: Node) { MethodsOf(n) == [] && (n.Simple? ==> !n.simple.NodeVerifiedAuthenticator?) }

  lemma {:induction false} SilentMethods(nodes: seq<Node>)
    requires forall k :: 0 <= k < |nodes| ==> Silent(nodes[k])
    ensures MethodsIn(nodes) == []
  {
    if nodes != [] { SilentMethods(nodes[..|nodes| - 1]); }
  }

  lemma FactorShape(w: Workflow, log: seq<Round>)
    requires Good(w, log) && IsEOF(w)
    requires w.intent.IntentAuthenticateOOBOTPPhone? || w.intent.IntentAuthenticateEmailLoginLink?
      || w.intent.IntentAuthenticatePassword?
    ensures w.nodes != [] && w.nodes[|w.nodes| - 1].Simple? && w.nodes[|w.nodes| - 1].simple.NodeVerifiedAuthenticator?
    ensures forall k :: 0 <= k < |w.nodes| - 1 ==> Silent(w.nodes[k])
  {
    hide Good, IsEOF, MethodsIn, MethodsOf, CodeWasAccepted, PasswordWasAccepted, LinkWasAccepted;
    AtEof(w);
    PlaceOk(w, 0, log);
    if |w.nodes| > 1 { PlaceOk(w, 1, log); }
    if |w.nodes| > 2 { PlaceOk(w, 2, log); }
    if |w.nodes| > 3 { PlaceOk(w, 3, log); }
    forall k | 0 <= k < |w.nodes| - 1 ensures Silent(w.nodes[k]) {
      PlaceOk(w, k, log);
      if w.nodes[k].SubWorkflow? { CaptchaIsSilent(w.nodes[k], log); } else { OtherIsSilent(w.nodes[k]); }
    }
  }

  lemma OtherIsSilent(n: Node)
    requires n.Simple? && !n.simple.NodeVerifiedAuthenticator?
    ensures Silent(n)
  {
  }

  lemma CaptchaIsSilent(n: Node, log: seq<Round>)
    requires n.SubWorkflow? && n.w.intent.IntentVerifyCaptcha? && Good(n.w, log)
    ensures Silent(n)
  {
    hide Good, MethodsIn, CaptchaWasPassed;
    forall k | 0 <= k < |n.w.nodes| ensures Silent(n.w.nodes[k]) { PlaceOk(n.w, k, log); }
    SilentMethods(n.w.nodes);
  }

  /** A login that reached its session step clears the one-time-password counter for the phone, then
      that of the second factor, and nothing else. */
  lemma LoginClearsBothFactors(w: Workflow, log: seq<Round>)
    requires Good(w, log) && AllTrue(log) && w.intent.IntentLogin? && HoldsEnsureSession(w)
    ensures TwoFactors(w, log)
    ensures MethodsIn(w.nodes) == [LockoutOOBOTP, if VerifiedIn(w.nodes[1].w).value.typ == Password then LockoutPassword else LockoutOOBOTP]
  {
    hide Good, IsEOF, VerifiedIn, MethodsIn, GetAMROf, KeepPrimaryAuthenticatorOfIdentity, CodeWasAccepted,
      PasswordWasAccepted, LinkWasAccepted, ProofWasAccepted;
    LoginIsTwoFactor(w, log);
    LoginPlaces(w, log);
    PlaceOk(w, 0, log);
    PlaceOk(w, 1, log);
    PlaceOk(w, 2, log);
    FactorMethods(w.nodes[0].w, log);
    FactorMethods(w.nodes[1].w, log);
    SessionIsSilent(w.nodes[2], log);
    MethodsOfTwo(w.nodes[0], w.nodes[1]);
    MethodsOfOne(w.nodes[2]);
    MethodsSplit([w.nodes[0], w.nodes[1]], [w.nodes[2]]);
    assert w.nodes == [w.nodes[0], w.nodes[1]] + [w.nodes[2]];
  }

  lemma SessionIsSilent(n: Node, log: seq<Round>)
    requires n.SubWorkflow? && n.w.intent.IntentEnsureSession? && Good(n.w, log)
    ensures Silent(n)
  {
    hide Good, MethodsIn;
    forall k | 0 <= k < |n.w.nodes| ensures Silent(n.w.nodes[k]) { PlaceOk(n.w, k, log); }
    SilentMethods(n.w.nodes);
  }
}
