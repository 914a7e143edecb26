/**
 A request and a run told by the rules: which rounds one Accept takes, what the service stores of them,
 and that this leaves nothing open.  `AcceptRun`, `Store` and `Feed` appear only where they are shown to
 do the same.
 */
module LatteRuns {
  import opened Wrappers
  import opened LatteTypes
  import opened LatteReact
  import opened LatteEngine
  import opened LatteBound
  import opened LatteRules
  import opened LatteObeys
  import opened LatteRounds
  import opened LatteService

  // ---------------------------------------------------------------- one round

  ghost predicate Caused(x: Round, e: Event) { ReactorOf(x.at).Some? && Causes(ReactorOf(x.at).value, x.input, x.env, e) }

  /** What happened in a round is what its reactor, its input and the answers cause, one event at most. */
  ghost predicate IsTrue(x: Round) {
    && |x.events| <= 1
    && forall e :: e in x.events <==> Caused(x, e)
  }

  ghost predicate Ends(x: Round) { ReactorOf(x.at).None? }

  ghost predicate Grows(x: Round, n: Node) {
    ReactorOf(x.at).Some? && Appends(ReactorOf(x.at).value, x.input, x.env, n) && !(x.env.effectError && WritesAtOnce(n))
  }

  ghost predicate GrowsTo(x: Round, v: Workflow) { exists n :: Grows(x, n) && v == Grown(x.at, n) }

  ghost predicate Grew(x: Round) { exists n :: Grows(x, n) }

  ghost predicate Stays(x: Round) { ReactorOf(x.at).Some? && Resends(ReactorOf(x.at).value, x.input, x.env) }

  ghost predicate Refuses(x: Round) { ReactorOf(x.at).Some? && !Takes(ReactorOf(x.at).value, x.input) }

  ghost predicate Fails(x: Round, why: Failure) { ReactorOf(x.at).Some? && FailsBecause(ReactorOf(x.at).value, x.input, x.env, why) }

  // ---------------------------------------------------------------- one Accept

  /** The rounds of one Accept: every round but the last appends a node to the tree that the next one starts
      from; all are fed the same input, each with answers of its own. */
  ghost predicate IsChain(rounds: seq<Round>, w: Workflow, input: Input, envs: nat -> Env, i: nat) {
    && rounds != [] && rounds[0].at == w
    && (forall k :: 0 <= k < |rounds| ==> rounds[k].input == input && rounds[k].env == envs(i + k) && IsTrue(rounds[k]))
    && (forall k :: 0 <= k < |rounds| - 1 ==> GrowsTo(rounds[k], rounds[k + 1].at))
    && !Grew(rounds[|rounds| - 1])
  }

  /** What the last round makes of an Accept. */
  ghost predicate EndsAs(a: Accepted, last: Round, grown: bool) {
    && a.w == last.at
    && (a.ending.EndOfFlow? <==> Ends(last))
    && (a.ending.Done? <==> Stays(last) || Refuses(last))
    && (a.changed <==> grown || Stays(last))
    && (forall why :: why != ServiceError ==> (a.ending == Error(why) <==> Fails(last, why)))
  }

  ghost predicate IsAccept(a: Accepted, w: Workflow, input: Input, envs: nat -> Env, i: nat) {
    a.log != [] && IsChain(a.log, w, input, envs, i) && EndsAs(a, a.log[|a.log| - 1], |a.log| > 1)
  }

  function RoundOf(w: Workflow, input: Input, env: Env): Round { Round(w, input, env, EventsOf(Step(w, input, env))) }

  lemma StepIsRound(w: Workflow, input: Input, env: Env)
    ensures var x := RoundOf(w, input, env); var o := Step(w, input, env);
      && IsTrue(x)
      && (forall v :: GrowsTo(x, v) <==> o.Appended? && o.w == v) && (Grew(x) <==> o.Appended?)
      && (Ends(x) <==> o.Eof?) && (Stays(x) <==> o.Kept?) && (Refuses(x) <==> o.Refused?)
      && (forall why :: why != ServiceError ==> (Fails(x, why) <==> o.Broke? && o.why == why))
      && (o.Kept? ==> o.w == w)
  {
    hide Step, WritesAtOnce, Appends, Resends, Takes, FailsBecause, Causes, Grown, ReactorOf;
    RoundObeys(w, input, env);
    var x, o := RoundOf(w, input, env), Step(w, input, env);
    if ReactorOf(w).Some? {
      forall v ensures GrowsTo(x, v) <==> o.Appended? && o.w == v {
        if GrowsTo(x, v) { var n :| Grows(x, n) && v == Grown(x.at, n); }
        if o.Appended? && o.w == v {
          var n :| Appends(ReactorOf(w).value, input, env, n) && !(env.effectError && WritesAtOnce(n)) && o.w == Grown(w, n);
          assert Grows(x, n);
        }
      }
      if Grew(x) {
        var n :| Grows(x, n);
        assert GrowsTo(x, Grown(w, n));
      }
      if o.Appended? { assert GrowsTo(x, o.w); }
    }
  }

  lemma {:induction false} AcceptIsChain(w: Workflow, input: Input, envs: nat -> Env, i: nat)
    ensures IsAccept(AcceptRun(w, input, envs, i), w, input, envs, i)
    decreases Tokens(w), Potential(w, 0)
  {
    hide Step, Tokens, Potential, IsTrue, GrowsTo, Grew, Ends, Stays, Refuses, Fails;
    var x, o := RoundOf(w, input, envs(i)), Step(w, input, envs(i));
    StepIsRound(w, input, envs(i));
    if o.Appended? {
      StepShrinks(w, input, envs(i), 0);
      AcceptIsChain(o.w, input, envs, i + 1);
      ChainGoesOn(x, AcceptRun(o.w, input, envs, i + 1).log, input, envs, i);
    }
  }

  lemma ChainGoesOn(x: Round, rounds: seq<Round>, input: Input, envs: nat -> Env, i: nat)
    requires x.input == input && x.env == envs(i) && IsTrue(x)
    requires rounds != [] && IsChain(rounds, rounds[0].at, input, envs, i + 1) && GrowsTo(x, rounds[0].at)
    ensures IsChain([x] + rounds, x.at, input, envs, i)
  {
    hide IsTrue, GrowsTo, Grew;
    var all := [x] + rounds;
    forall k | 0 < k < |all| ensures all[k] == rounds[k - 1] && all[k].env == envs(i + k) {
      assert rounds[k - 1].env == envs((i + 1) + (k - 1));
    }
  }

  lemma RestIsChain(rounds: seq<Round>, w: Workflow, input: Input, envs: nat -> Env, i: nat)
    requires IsChain(rounds, w, input, envs, i) && |rounds| > 1
    ensures IsChain(rounds[1..], rounds[1].at, input, envs, i + 1)
  {
    hide IsTrue, GrowsTo, Grew;
    var rest := rounds[1..];
    forall k | 0 <= k < |rest| ensures rest[k] == rounds[k + 1] && rest[k].env == envs((i + 1) + k) {
      assert rounds[k + 1].env == envs(i + (k + 1));
    }
    forall k | 0 <= k < |rest| - 1 ensures GrowsTo(rest[k], rest[k + 1].at) {
      assert GrowsTo(rounds[k + 1], rounds[k + 1 + 1].at);
    }
  }

  lemma SameRound(x: Round, y: Round)
    requires IsTrue(x) && IsTrue(y) && x.at == y.at && x.input == y.input && x.env == y.env
    ensures x == y
  {
    assert forall e :: e in x.events <==> e in y.events by {
      forall e ensures e in x.events <==> e in y.events { assert Caused(x, e) == Caused(y, e); }
    }
    assert x.events != [] ==> x.events[0] in y.events;
    assert y.events != [] ==> y.events[0] in x.events;
  }

  // ---------------------------------------------------------------- requests

  /** What a session keeps of the rounds of a request: the tree of the last round, if the flow ended there or
      was taken further by appended nodes or by a message sent again, and nothing otherwise; at the opening
      it is kept even if nothing was appended.  An ended tree is committed, and with it the session deleted. */
  ghost predicate Filed(s: Session, t: Session, rounds: seq<Round>, opening: bool, f: Faults) {
    rounds != [] &&
    var last := rounds[|rounds| - 1];
    var kept := !f.create && (Ends(last) || Stays(last) || (Refuses(last) && (opening || |rounds| > 1)));
    && t.log == s.log + rounds
    && t.instances == (if kept then s.instances + [last.at] else s.instances)
    && t.commits == (if kept && Ends(last) && !f.finish then s.commits + [last.at] else s.commits)
    && (t.closed <==> s.closed || (kept && Ends(last) && !f.finish && !f.deleteSession))
  }

  const NONE := Session([], [], [], false)

  /** What opening makes: the intent alone is fed no input. */
  ghost predicate IsOpened(root: Intent, envs: nat -> Env, f: Faults, t: Session) {
    if f.find then t == NONE
    else exists rounds :: IsChain(rounds, Workflow(root, []), Nothing, envs, 0) && Filed(NONE, t, rounds, true, f)
  }

  /** What a request makes of a session. */
  ghost predicate IsFed(s: Session, r: Request, t: Session) {
    if s.closed || r.faults.find || r.instance >= |s.instances| then t == s
    else exists rounds :: IsChain(rounds, s.instances[r.instance], r.input, r.envs, 0) && Filed(s, t, rounds, false, r.faults)
  }

  lemma OpenObeys(root: Intent, envs: nat -> Env, f: Faults, t: Session)
    ensures IsOpened(root, envs, f, t) <==> t == Opened(root, envs, f)
  {
    hide AcceptRun, IsChain, Ends, Stays, Refuses, Fails;
    if !f.find {
      var w := Workflow(root, []);
      AcceptIsChain(w, Nothing, envs, 0);
      assert Filed(NONE, Opened(root, envs, f), AcceptRun(w, Nothing, envs, 0).log, true, f);
      if IsOpened(root, envs, f, t) {
        var rounds :| IsChain(rounds, w, Nothing, envs, 0) && Filed(NONE, t, rounds, true, f);
        OnlyChain(rounds, w, Nothing, envs, 0);
      }
    }
  }

  /** A request does what the rules say, and the rules say all of it. */
  lemma FeedObeys(s: Session, r: Request, t: Session)
    ensures IsFed(s, r, t) <==> t == Feed(s, r)
  {
    hide AcceptRun, IsChain, Ends, Stays, Refuses, Fails;
    if !s.closed && !r.faults.find && r.instance < |s.instances| {
      var w := s.instances[r.instance];
      AcceptIsChain(w, r.input, r.envs, 0);
      assert Filed(s, Feed(s, r), AcceptRun(w, r.input, r.envs, 0).log, false, r.faults);
      if IsFed(s, r, t) {
        var rounds :| IsChain(rounds, w, r.input, r.envs, 0) && Filed(s, t, rounds, false, r.faults);
        OnlyChain(rounds, w, r.input, r.envs, 0);
      }
    }
  }

  /** The rounds are fixed by the tree, the input and the answers. */
  lemma {:induction false} OnlyChain(rounds: seq<Round>, w: Workflow, input: Input, envs: nat -> Env, i: nat)
    requires IsChain(rounds, w, input, envs, i)
    ensures rounds == AcceptRun(w, input, envs, i).log
    decreases |rounds|
  {
    hide Step, IsTrue, GrowsTo, Grew, Ends, Stays, Refuses, Fails, Tokens, Potential;
    var x, o := rounds[0], Step(w, input, envs(i));
    assert x.env == envs(i + 0);
    StepIsRound(w, input, envs(i));
    SameRound(x, RoundOf(w, input, envs(i)));
    if |rounds| == 1 {
      assert rounds == [x];
    } else {
      assert GrowsTo(x, rounds[1].at);
      RestIsChain(rounds, w, input, envs, i);
      OnlyChain(rounds[1..], rounds[1].at, input, envs, i + 1);
      assert rounds == [x] + rounds[1..];
    }
  }

  /** A request that meets no fault, to an open session and an instance it has: an ended flow is stored,
      committed and its session closed; one that was taken further is stored beside the earlier instances;
      a refused or failing one leaves all as it was. */
  lemma FaultlessRequest(s: Session, r: Request)
    requires !s.closed && r.instance < |s.instances| && r.faults == Faults(false, false, false, false)
    ensures exists rounds :: IsChain(rounds, s.instances[r.instance], r.input, r.envs, 0) && FiledWell(s, Feed(s, r), rounds)
  {
    hide IsChain, Feed, Ends, Stays, Refuses;
    FeedObeys(s, r, Feed(s, r));
    var rounds :| IsChain(rounds, s.instances[r.instance], r.input, r.envs, 0) && Filed(s, Feed(s, r), rounds, false, r.faults);
  }

  ghost predicate FiledWell(s: Session, t: Session, rounds: seq<Round>) {
    rounds != [] && t.log == s.log + rounds &&
    var last := rounds[|rounds| - 1];
    if Ends(last) then t.instances == s.instances + [last.at] && t.commits == s.commits + [last.at] && t.closed
    else if Stays(last) || (Refuses(last) && |rounds| > 1) then t.instances == s.instances + [last.at] && t.commits == s.commits && !t.closed
    else t.instances == s.instances && t.commits == s.commits && !t.closed
  }

  // ---------------------------------------------------------------- whole runs

  ghost predicate AllTrue(log: seq<Round>) { forall k :: 0 <= k < |log| ==> IsTrue(log[k]) }

  lemma FeedStaysTrue(s: Session, r: Request)
    requires AllTrue(s.log)
    ensures AllTrue(Feed(s, r).log)
  {
    hide AcceptRun, IsTrue, GrowsTo, Grew;
    if !s.closed && !r.faults.find && r.instance < |s.instances| {
      AcceptIsChain(s.instances[r.instance], r.input, r.envs, 0);
    }
  }

  /** In every run: what is logged of a round is exactly what its reactor, its input and the answers it got cause. */
  lemma {:induction false} RunIsTrue(root: Intent, envs: nat -> Env, f: Faults, requests: seq<Request>)
    ensures AllTrue(Replay(Opened(root, envs, f), requests).log)
  {
    hide AcceptRun, IsTrue, GrowsTo, Grew, Feed;
    if requests == [] {
      AcceptIsChain(Workflow(root, []), Nothing, envs, 0);
    } else {
      RunIsTrue(root, envs, f, requests[..|requests| - 1]);
      FeedStaysTrue(Replay(Opened(root, envs, f), requests[..|requests| - 1]), requests[|requests| - 1]);
    }
  }

  lemma ReachableIsTrue(root: Intent, s: Session)
    requires ReachableFrom(root, s)
    ensures AllTrue(s.log)
  {
    hide AllTrue;
    var envs, f, requests :| s == Replay(Opened(root, envs, f), requests);
    RunIsTrue(root, envs, f, requests);
  }

  /** An input that the deepest reactor answers with a failure changes nothing. */
  lemma FailedRequestChangesNothing(w: Workflow, input: Input, envs: nat -> Env, i: nat, why: Failure)
    requires ReactorOf(w).Some? && FailsBecause(ReactorOf(w).value, input, envs(i), why) && why != ServiceError
    ensures var a := AcceptRun(w, input, envs, i); a.w == w && !a.changed && a.ending == Error(why) && |a.log| == 1
  {
    hide Step, FailsBecause, Tokens, Potential;
    StepIsRound(w, input, envs(i));
    assert Fails(RoundOf(w, input, envs(i)), why);
    AcceptEnds(w, input, envs, i);
  }
}
