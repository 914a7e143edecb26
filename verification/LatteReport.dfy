/** What the report of a finished sign-up or migration holds, item by item. */
module LatteReport {
  import opened Wrappers
  import opened LatteTypes
  import opened LatteReact
  import opened LatteEngine
  import opened LatteService
  import opened LatteInvariant
  import opened LattePreserved
  import opened LatteLogin
  import opened LatteCollection

  // ---------------------------------------------------------------- everything belongs to one user

  function UserOf(i: Intent): Option<string> {
    match i
    case IntentCreateLoginID(_, userID, _, _) => Some(userID)
    case IntentMigrateAccount(userID) => Some(userID)
    case IntentMigrateIdentities(userID, _) => Some(userID)
    case IntentMigrateAuthenticators(userID, _) => Some(userID)
    case IntentMigrateLoginID(userID, _) => Some(userID)
    case IntentMigrateOOBOTPAuthenticator(userID, _, _) => Some(userID)
    case IntentCreateOOBOTPAuthenticator(identity, _) => Some(identity.userID)
    case IntentCreatePassword(userID, _, _) => Some(userID)
    case _ => None
  }

  ghost predicate AllOwnedBy(items: seq<Item>, userID: string) { forall k :: 0 <= k < |items| ==> items[k].Owner() == userID }

  lemma {:induction false} OwnedIn(what: What, nodes: seq<Node>, userID: string)
    requires forall k :: 0 <= k < |nodes| ==> AllOwnedBy(CreatedAt(what, nodes[k]), userID)
    ensures AllOwnedBy(CreatedIn(what, nodes), userID)
  {
    if nodes != [] { OwnedIn(what, nodes[..|nodes| - 1], userID); }
  }

  lemma OwnedPlaces(what: What, w: Workflow, k: nat, log: seq<Round>)
    requires Good(w, log) && k < |w.nodes| && UserOf(w.intent).Some?
    ensures w.nodes[k].Simple? ==> AllOwnedBy(CreatedBy(what, w.nodes[k].simple), UserOf(w.intent).value)
    ensures w.nodes[k].SubWorkflow? ==> UserOf(w.nodes[k].w.intent) == UserOf(w.intent) || Barren(what, w.nodes[k].w.intent)
  {
    hide Good;
    PlaceOk(w, k, log);
    if w.intent.IntentCreateLoginID? { PlaceOk(w, 0, log); }
  }

  lemma {:induction false} CreatedIsOwned(what: What, w: Workflow, log: seq<Round>)
    requires Good(w, log) && UserOf(w.intent).Some?
    ensures AllOwnedBy(CreatedIn(what, w.nodes), UserOf(w.intent).value)
    decreases w
  {
    hide Good, UserOf, CreatedBy, Barren;
    var userID := UserOf(w.intent).value;
    forall k | 0 <= k < |w.nodes| ensures AllOwnedBy(CreatedAt(what, w.nodes[k]), userID) {
      OwnedPlaces(what, w, k, log);
      if w.nodes[k].SubWorkflow? {
        PlaceOk(w, k, log);
        if Barren(what, w.nodes[k].w.intent) { BarrenCreatesNothing(what, w.nodes[k].w, log); } else { CreatedIsOwned(what, w.nodes[k].w, log); }
      }
    }
    OwnedIn(what, w.nodes, userID);
  }

  lemma RootPlaces(what: What, w: Workflow, k: nat, log: seq<Round>)
    requires Good(w, log) && k < |w.nodes| && (w.intent.IntentSignup? || w.intent.IntentMigrate?)
    ensures CreatedUser(w.nodes)
    ensures w.nodes[k].Simple? ==> CreatedBy(what, w.nodes[k].simple) == []
    ensures w.nodes[k].SubWorkflow? ==> UserOf(w.nodes[k].w.intent) == Some(w.nodes[0].simple.userID) || Barren(what, w.nodes[k].w.intent)
  {
    hide Good;
    PlaceOk(w, 0, log);
    PlaceOk(w, k, log);
  }

  /** In every sign-up and migration tree, finished or not, the report is everything created, in order
      and once each, and all of it belongs to the created user. */
  lemma ReportIsComplete(what: What, w: Workflow, log: seq<Round>)
    requires Good(w, log) && (w.intent.IntentSignup? || w.intent.IntentMigrate?) && w.nodes != []
    ensures CreatedUser(w.nodes)
    ensures ReportIn(what, w.nodes) == CreatedIn(what, w.nodes)
    ensures AllOwnedBy(ReportIn(what, w.nodes), w.nodes[0].simple.userID)
  {
    hide Good, CreatedBy, Barren, RoleOf, UserOf;
    ReportInIsCreated(what, w, log);
    RootPlaces(what, w, 0, log);
    forall k | 0 <= k < |w.nodes| ensures AllOwnedBy(CreatedAt(what, w.nodes[k]), w.nodes[0].simple.userID) {
      RootPlaces(what, w, k, log);
      if w.nodes[k].SubWorkflow? {
        PlaceOk(w, k, log);
        if Barren(what, w.nodes[k].w.intent) { BarrenCreatesNothing(what, w.nodes[k].w, log); } else { CreatedIsOwned(what, w.nodes[k].w, log); }
      }
    }
    OwnedIn(what, w.nodes, w.nodes[0].simple.userID);
  }

  // ---------------------------------------------------------------- finished pieces

  lemma FinishedChild(w: Workflow, k: nat, log: seq<Round>)
    requires Good(w, log) && IsEOF(w) && k < |w.nodes| && w.nodes[k].SubWorkflow?
    ensures Good(w.nodes[k].w, log) && IsEOF(w.nodes[k].w)
  {
    hide Good, IsEOF, SlotOk;
    PlaceOk(w, k, log);
    AtEof(w);
  }

  /** Whatever lies below a finished tree is finished. */
  lemma {:induction false} FinishedBelow(sub: Workflow, w: Workflow, log: seq<Round>)
    requires Good(w, log) && IsEOF(w) && Below(sub, w)
    ensures Good(sub, log) && IsEOF(sub)
    decreases w
  {
    hide Good, IsEOF;
    if sub != w {
      var k :| 0 <= k < |w.nodes| && w.nodes[k].SubWorkflow? && Below(sub, w.nodes[k].w);
      FinishedChild(w, k, log);
      FinishedBelow(sub, w.nodes[k].w, log);
    }
  }

  predicate IsIdentityOf(x: Item, t: LoginIDType) { x.AnIdentity? && x.identity.loginIDType == t }

  /** The identity the service made when it was asked for this login ID. */
  ghost predicate IsIdentityFor(x: Item, t: LoginIDType, value: string, log: seq<Round>) {
    IsIdentityOf(x, t) && Happened(log, IdentityMade(value, x.identity))
  }

  predicate IsAuthenticatorOf(x: Item, t: AuthnType, isDefault: bool) {
    x.AnAuthenticator? && x.authenticator.typ == t && x.authenticator.kind == Primary && x.authenticator.isDefault == isDefault
  }

  /** The authenticator the service made when it was asked for this target. */
  ghost predicate IsAuthenticatorFor(x: Item, t: AuthnType, isDefault: bool, target: string, log: seq<Round>) {
    IsAuthenticatorOf(x, t, isDefault) && Happened(log, AuthenticatorMade(target, x.authenticator))
  }

  /** An identity asked for by the client, and its own one-time-password authenticator. */
  ghost predicate IsLoginIDPair(i: Item, a: Item, t: LoginIDType, log: seq<Round>) {
    && IsIdentityOf(i, t) && IdentityWasAskedFor(log, i.identity)
    && IsAuthenticatorFor(a, OOBTypeOf(t), false, i.identity.loginID, log) && a.authenticator.userID == i.identity.userID
  }

  function OOBTypeOf(t: LoginIDType): AuthnType { if t == Phone then OOBSMS else OOBEmail }

  /** What a finished intent that creates one thing itself reports. */
  ghost predicate IsReportOf(x: Item, i: Intent, log: seq<Round>) {
    match i
    case IntentCreateLoginID(_, _, t, _) => IsIdentityOf(x, t) && IdentityWasAskedFor(log, x.identity)
    case IntentMigrateLoginID(_, spec) => IsIdentityFor(x, spec.loginIDType, spec.value, log)
    case IntentCreateOOBOTPAuthenticator(identity, d) =>
      IsAuthenticatorFor(x, OOBTypeOf(identity.loginIDType), d, identity.loginID, log) && x.authenticator.userID == identity.userID
    case IntentMigrateOOBOTPAuthenticator(_, spec, d) => IsAuthenticatorFor(x, spec.typ, d, MigrateTargetOf(spec), log)
    case _ => false
  }

  lemma FinishedLeaf(what: What, w: Workflow, log: seq<Round>)
    requires Good(w, log) && IsEOF(w) && RoleOf(what, w.intent).FirstNode?
    ensures |ReportOf(what, w)| == 1 && IsReportOf(ReportOf(what, w)[0], w.intent, log)
    ensures what.Identities? ==> w.nodes != [] && w.nodes[0] == Simple(NodeDoCreateIdentity(ReportOf(what, w)[0].identity))
  {
    hide Good, IsEOF, FirstCreated, Happened;
    AtEof(w);
    FirstNodePlaces(what, w, log);
    PlaceOk(w, 0, log);
  }

  lemma FinishedLoginID(w: Workflow, log: seq<Round>)
    requires Good(w, log) && IsEOF(w) && w.intent.IntentCreateLoginID?
    ensures |ReportOf(Identities, w)| == 1 && |ReportOf(Authenticators, w)| == 1
      && IsLoginIDPair(ReportOf(Identities, w)[0], ReportOf(Authenticators, w)[0], w.intent.loginIDType, log)
  {
    hide Good, IsEOF, ReportIn, GettersIn, FirstCreated, Happened;
    AtEof(w);
    FinishedLeaf(Identities, w, log);
    PlaceOk(w, 0, log);
    PlaceOk(w, 3, log);
    forall k | 0 <= k < |w.nodes| ensures IsGetter(Authenticators, w.nodes[k]) <==> k == 3 { PlaceOk(w, k, log); }
    CountGetters(Authenticators, w.nodes, 3);
    FinishedChild(w, 3, log);
    FinishedLeaf(Authenticators, w.nodes[3].w, log);
  }

  lemma {:induction false} OneEach(what: What, nodes: seq<Node>)
    requires forall k :: 0 <= k < |nodes| ==> |ReportAt(what, nodes[k])| == 1
    ensures |ReportIn(what, nodes)| == |nodes|
    ensures forall k :: 0 <= k < |nodes| ==> ReportIn(what, nodes)[k] == ReportAt(what, nodes[k])[0]
  {
    if nodes != [] {
      var front := nodes[..|nodes| - 1];
      OneEach(what, front);
      assert forall k :: 0 <= k < |front| ==> front[k] == nodes[k];
    }
  }

  lemma FinishedIdentities(w: Workflow, log: seq<Round>)
    requires Good(w, log) && IsEOF(w) && w.intent.IntentMigrateIdentities?
    ensures var r := ReportOf(Identities, w);
      && |r| == |w.intent.identitySpecs|
      && forall k :: 0 <= k < |r| ==> IsIdentityFor(r[k], w.intent.identitySpecs[k].loginIDType, w.intent.identitySpecs[k].value, log)
  {
    hide Good, IsEOF, ReportIn, FirstCreated, Happened;
    AtEof(w);
    forall k | 0 <= k < |w.nodes|
      ensures k < |w.intent.identitySpecs| && |ReportAt(Identities, w.nodes[k])| == 1
        && IsIdentityFor(ReportAt(Identities, w.nodes[k])[0], w.intent.identitySpecs[k].loginIDType, w.intent.identitySpecs[k].value, log)
    {
      PlaceOk(w, k, log);
      FinishedChild(w, k, log);
      FinishedLeaf(Identities, w.nodes[k].w, log);
    }
    OneEach(Identities, w.nodes);
  }

  /** Of the migrated authenticators exactly the first is the default. */
  lemma FinishedAuthenticators(w: Workflow, log: seq<Round>)
    requires Good(w, log) && IsEOF(w) && w.intent.IntentMigrateAuthenticators?
    ensures var r := ReportOf(Authenticators, w);
      && |r| == |w.intent.authnSpecs|
      && forall k :: 0 <= k < |r| ==> IsAuthenticatorFor(r[k], w.intent.authnSpecs[k].typ, k == 0, MigrateTargetOf(w.intent.authnSpecs[k]), log)
  {
    hide Good, IsEOF, ReportIn, FirstCreated, Happened;
    AtEof(w);
    forall k | 0 <= k < |w.nodes|
      ensures k < |w.intent.authnSpecs| && |ReportAt(Authenticators, w.nodes[k])| == 1
        && IsAuthenticatorFor(ReportAt(Authenticators, w.nodes[k])[0], w.intent.authnSpecs[k].typ, k == 0, MigrateTargetOf(w.intent.authnSpecs[k]), log)
    {
      PlaceOk(w, k, log);
      FinishedChild(w, k, log);
      FinishedLeaf(Authenticators, w.nodes[k].w, log);
    }
    OneEach(Authenticators, w.nodes);
  }

  lemma FinishedAccount(w: Workflow, log: seq<Round>)
    requires Good(w, log) && IsEOF(w) && w.intent.IntentMigrateAccount?
    ensures |w.nodes| == 3 && w.nodes[0].Simple? && w.nodes[0].simple.NodeMigrateAccount?
    ensures var specs := w.nodes[0].simple.identitySpecs; var r := ReportOf(Identities, w);
      |r| == |specs| && forall k :: 0 <= k < |r| ==> IsIdentityFor(r[k], specs[k].loginIDType, specs[k].value, log)
    ensures var specs := w.nodes[0].simple.authnSpecs; var r := ReportOf(Authenticators, w);
      |r| == |specs| && forall k :: 0 <= k < |r| ==> IsAuthenticatorFor(r[k], specs[k].typ, k == 0, MigrateTargetOf(specs[k]), log)
  {
    hide Good, IsEOF, ReportIn, GettersIn, FirstCreated;
    AtEof(w);
    PlaceOk(w, 0, log);
    PlaceOk(w, 1, log);
    PlaceOk(w, 2, log);
    if |w.nodes| > 3 { PlaceOk(w, 3, log); }
    FinishedChild(w, 1, log);
    FinishedChild(w, 2, log);
    CountGetters(Identities, w.nodes, 1);
    CountGetters(Authenticators, w.nodes, 2);
    FinishedIdentities(w.nodes[1].w, log);
    FinishedAuthenticators(w.nodes[2].w, log);
  }

  // ---------------------------------------------------------------- finished roots

  lemma ReportNext(what: What, nodes: seq<Node>, k: nat)
    requires k < |nodes|
    ensures ReportIn(what, nodes[..k + 1]) == ReportIn(what, nodes[..k]) + (if IsGetter(what, nodes[k]) then ReportAt(what, nodes[k]) else [])
  {
    hide RoleOf, ReportAt;
    assert nodes[..k + 1][..k] == nodes[..k];
    if !IsGetter(what, nodes[k]) { NotAGetter(what, nodes[k]); }
  }

  /** The five places of a finished root: of them only the second and third report anything. */
  lemma TwoReports(what: What, nodes: seq<Node>)
    requires |nodes| == 5 && forall k :: 0 <= k < 5 ==> (IsGetter(what, nodes[k]) <==> k == 1 || k == 2)
    ensures ReportIn(what, nodes) == ReportAt(what, nodes[1]) + ReportAt(what, nodes[2])
  {
    hide RoleOf, ReportAt, IsGetter, ReportIn;
    ReportNext(what, nodes, 0);
    ReportNext(what, nodes, 1);
    ReportNext(what, nodes, 2);
    ReportNext(what, nodes, 3);
    ReportNext(what, nodes, 4);
    assert nodes[..5] == nodes && nodes[..0] == [];
    NothingReported(what);
  }

  lemma NothingReported(what: What)
    ensures ReportIn(what, []) == []
  {
  }

  /** What stands in each place of a sign-up or migration. */
  ghost predicate RootPlace(root: Intent, k: nat, n: Node) {
    match k
    case 0 => n.Simple? && n.simple.NodeDoCreateUser?
    case 1 => n.SubWorkflow? && (if root.IntentMigrate? then n.w.intent.IntentMigrateAccount? else n.w.intent.IntentCreateLoginID? && n.w.intent.loginIDType == Phone)
    case 2 => n.SubWorkflow? && n.w.intent.IntentCreateLoginID? && n.w.intent.loginIDType == Email
    case 3 => n.SubWorkflow? && n.w.intent.IntentCreatePassword?
    case 4 => n.SubWorkflow? && n.w.intent.IntentEnsureSession?
    case _ => false
  }

  lemma RootPlaceOk(w: Workflow, k: nat, log: seq<Round>)
    requires Good(w, log) && (w.intent.IntentSignup? || w.intent.IntentMigrate?) && k < |w.nodes|
    ensures RootPlace(w.intent, k, w.nodes[k])
  {
    hide Good;
    PlaceOk(w, k, log);
  }

  lemma RootShape(w: Workflow, log: seq<Round>)
    requires Good(w, log) && IsEOF(w) && (w.intent.IntentSignup? || w.intent.IntentMigrate?)
    ensures |w.nodes| == 5 && CreatedUser(w.nodes)
    ensures forall k :: 0 <= k < 5 ==> RootPlace(w.intent, k, w.nodes[k])
  {
    hide Good, IsEOF, RootPlace;
    AtEof(w);
    forall k | 0 <= k < |w.nodes| ensures RootPlace(w.intent, k, w.nodes[k]) { RootPlaceOk(w, k, log); }
    if |w.nodes| > 5 { NoSixthPlace(w.intent, w.nodes[5]); }
    FirstIsUser(w.intent, w.nodes[0]);
  }

  lemma NoSixthPlace(root: Intent, n: Node)
    ensures !RootPlace(root, 5, n)
  {
  }

  lemma FirstIsUser(root: Intent, n: Node)
    requires RootPlace(root, 0, n)
    ensures n.Simple? && n.simple.NodeDoCreateUser?
  {
  }

  /** A finished sign-up reports a phone and an e-mail identity the client asked for, and for each the
      one-time-password authenticator asked for with its login ID; none of these is a default. */
  lemma FinishedSignup(w: Workflow, log: seq<Round>)
    requires Good(w, log) && IsEOF(w) && w.intent.IntentSignup?
    ensures var i, a := ReportIn(Identities, w.nodes), ReportIn(Authenticators, w.nodes);
      && |i| == |a| == 2
      && IsLoginIDPair(i[0], a[0], Phone, log) && IsLoginIDPair(i[1], a[1], Email, log)
  {
    hide Good, IsEOF, ReportIn, ReportOf, IsLoginIDPair, IsIdentityFor, IsAuthenticatorFor;
    RootShape(w, log);
    FinishedChild(w, 1, log);
    FinishedChild(w, 2, log);
    FinishedLoginID(w.nodes[1].w, log);
    FinishedLoginID(w.nodes[2].w, log);
    TwoReports(Identities, w.nodes);
    TwoReports(Authenticators, w.nodes);
  }

  /** A finished migration reports what the response listed, in its order, then the e-mail identity and
      authenticator; an authenticator is a default exactly if it is the first migrated one. */
  lemma FinishedMigrate(w: Workflow, log: seq<Round>)
    requires Good(w, log) && IsEOF(w) && w.intent.IntentMigrate?
    ensures |w.nodes| == 5 && w.nodes[1].SubWorkflow? && |w.nodes[1].w.nodes| == 3
    ensures w.nodes[1].w.nodes[0].Simple? && w.nodes[1].w.nodes[0].simple.NodeMigrateAccount?
    ensures var response := w.nodes[1].w.nodes[0].simple; var r := ReportIn(Identities, w.nodes);
      && |r| == |response.identitySpecs| + 1
      && (forall k :: 0 <= k < |r| - 1 ==> IsIdentityFor(r[k], response.identitySpecs[k].loginIDType, response.identitySpecs[k].value, log))
    ensures var response := w.nodes[1].w.nodes[0].simple; var r := ReportIn(Authenticators, w.nodes);
      && |r| == |response.authnSpecs| + 1
      && (forall k :: 0 <= k < |r| - 1 ==> IsAuthenticatorFor(r[k], response.authnSpecs[k].typ, k == 0, MigrateTargetOf(response.authnSpecs[k]), log))
    ensures var i, a := ReportIn(Identities, w.nodes), ReportIn(Authenticators, w.nodes);
      IsLoginIDPair(i[|i| - 1], a[|a| - 1], Email, log)
  {
    hide Good, IsEOF, ReportIn, ReportOf, IsLoginIDPair, IsIdentityFor, IsAuthenticatorFor;
    RootShape(w, log);
    FinishedChild(w, 1, log);
    FinishedChild(w, 2, log);
    FinishedAccount(w.nodes[1].w, log);
    FinishedLoginID(w.nodes[2].w, log);
    TwoReports(Identities, w.nodes);
    TwoReports(Authenticators, w.nodes);
  }

  /** In every run: the sign-up or migration in a committed tree is finished, and its report complete. */
  lemma CommittedReports(root: Intent, s: Session, k: nat, w: Workflow)
    requires IsPublic(root) && ReachableFrom(root, s) && k < |s.commits| && Below(w, s.commits[k])
    requires w.intent.IntentSignup? || w.intent.IntentMigrate?
    ensures Good(w, s.log) && IsEOF(w)
    ensures |w.nodes| == 5 && CreatedUser(w.nodes)
    ensures forall what :: ReportIn(what, w.nodes) == CreatedIn(what, w.nodes) && AllOwnedBy(ReportIn(what, w.nodes), w.nodes[0].simple.userID)
  {
    hide Good, IsEOF, ReportIn, CreatedIn, AllOwnedBy, ReachableFrom;
    CommittedIsGood(root, s, k);
    FinishedBelow(w, s.commits[k], s.log);
    RootShape(w, s.log);
    forall what ensures ReportIn(what, w.nodes) == CreatedIn(what, w.nodes) && AllOwnedBy(ReportIn(what, w.nodes), w.nodes[0].simple.userID) {
      ReportIsComplete(what, w, s.log);
    }
  }
}
