/** What a committed flow hands to the session store. */
module LatteCommitted {
  import opened Wrappers
  import opened LatteTypes
  import opened LatteReact
  import opened LatteEngine
  import opened LatteService
  import opened LatteInvariant
  import opened LattePreserved
  import opened LatteRuns
  import opened LatteLogin
  import opened LatteLoginOutcome
  import opened LatteReport
  import opened StringOrder
  import opened Sessions

  lemma FinishedSession(w: Workflow, log: seq<Round>)
    requires Good(w, log) && IsEOF(w) && w.intent.IntentEnsureSession?
    ensures |w.nodes| == 1 && w.nodes[0].Simple? && w.nodes[0].simple.NodeDoEnsureSession?
    ensures var s := w.nodes[0].simple.session;
      && s.userID == w.intent.userID && s.reason == w.intent.reason && Exclusive(s)
      && (s.sessionToCreate.Some? ==> s.sessionToCreate.value.userID == w.intent.userID && s.sessionToCreate.value.amr == w.intent.amr)
  {
    hide Good, IsEOF;
    AtEof(w);
    PlaceOk(w, 0, log);
    if |w.nodes| > 1 { PlaceOk(w, 1, log); }
  }

  /** The login in a committed tree: both factors were checked, and the session it creates, unless the
      cookie is suppressed, is that user's, with the methods of both factors and "mfa". */
  lemma CommittedLogin(root: Intent, s: Session, k: nat, login: Workflow)
    requires IsPublic(root) && ReachableFrom(root, s) && k < |s.commits| && Below(login, s.commits[k])
      && login.intent.IntentLogin?
    ensures TwoFactors(login, s.log)
    ensures |login.nodes[2].w.nodes| == 1 && login.nodes[2].w.nodes[0].Simple?
      && login.nodes[2].w.nodes[0].simple.NodeDoEnsureSession?
    ensures var n := login.nodes[2].w.nodes[0].simple.session;
      && Exclusive(n) && !Updates(n)
      && (n.sessionToCreate.Some? ==>
            && n.sessionToCreate.value.userID == login.intent.identity.userID
            && StrictlySorted(n.sessionToCreate.value.amr) && {"otp", "sms", "mfa"} <= Elements(n.sessionToCreate.value.amr))
  {
    hide Good, IsEOF, TwoFactors, ReachableFrom, GetAMROf, Elements, StrictlySorted, AllTrue;
    CommittedIsGood(root, s, k);
    ReachableIsTrue(root, s);
    FinishedBelow(login, s.commits[k], s.log);
    FinishedLogin(login, s.log);
    LoginReportsBothFactors(login, s.log);
    SessionPlace(login, s.log);
    FinishedChild(login, 2, s.log);
    FinishedSession(login.nodes[2].w, s.log);
    NoUpdate(login.nodes[2].w, s.log);
  }

  // ---------------------------------------------------------------- how often

  /** If no deletion of the session fails, a flow is committed at most once, and its session is gone then. */
  lemma {:induction false} CommitsAtMostOnce(root: Intent, envs: nat -> Env, f: Faults, requests: seq<Request>)
    requires !f.deleteSession && forall k :: 0 <= k < |requests| ==> !requests[k].faults.deleteSession
    ensures var s := Replay(Opened(root, envs, f), requests); |s.commits| <= 1 && (s.closed <==> s.commits != [])
  {
    hide AcceptRun;
    if requests != [] {
      var front := requests[..|requests| - 1];
      assert forall k :: 0 <= k < |front| ==> front[k] == requests[k];
      CommitsAtMostOnce(root, envs, f, front);
    }
  }

  /** A session whose deletion failed still serves its finished instances, and whatever input one of them is
      fed commits its tree once more; a deleted one does not. */
  lemma KeptSessionCommitsAgain(root: Intent, s: Session, k: nat, r: Request)
    requires IsPublic(root) && ReachableFrom(root, s) && k < |s.commits|
    requires r.instance < |s.instances| && s.instances[r.instance] == s.commits[k] && !r.faults.find && !r.faults.create && !r.faults.finish
    ensures Feed(s, r).commits == if s.closed then s.commits else s.commits + [s.commits[k]]
    ensures !s.closed ==> Feed(s, r).log == s.log + [Round(s.commits[k], r.input, r.envs(0), [])]
  {
    hide Good, IsEOF, ReachableFrom, Step, Tokens, Potential;
    CommittedIsGood(root, s, k);
    OnlyEofIsEof(s.commits[k], r.input, r.envs(0));
  }

  lemma FinishedLogin(w: Workflow, log: seq<Round>)
    requires Good(w, log) && IsEOF(w) && w.intent.IntentLogin?
    ensures HoldsEnsureSession(w) && |w.nodes| == 3
  {
    hide Good, IsEOF, GetAMROf, KeepPrimaryAuthenticatorOfIdentity;
    AtEof(w);
    LoginPlaces(w, log);
    assert w.nodes[2].w.intent.IntentEnsureSession?;
  }

  lemma SessionPlace(w: Workflow, log: seq<Round>)
    requires Good(w, log) && w.intent.IntentLogin? && |w.nodes| == 3
    ensures w.nodes[2].SubWorkflow? && w.nodes[2].w.intent.IntentEnsureSession?
      && w.nodes[2].w.intent.userID == w.intent.identity.userID
    ensures w.nodes[2].w.intent.mode in {Create, Noop}
  {
    hide Good, GetAMROf;
    PlaceOk(w, 2, log);
  }

  lemma NoUpdate(w: Workflow, log: seq<Round>)
    requires Good(w, log) && IsEOF(w) && w.intent.IntentEnsureSession? && w.intent.mode in {Create, Noop}
    ensures |w.nodes| == 1 && w.nodes[0].Simple? && w.nodes[0].simple.NodeDoEnsureSession? && !Updates(w.nodes[0].simple.session)
  {
    hide Good, IsEOF;
    FinishedSession(w, log);
    PlaceOk(w, 0, log);
  }
}
