/** The service as written: Accept's loop, and the requests over the stored instances. */
module LatteServer {
  import opened LatteTypes
  import opened LatteReact
  import opened LatteEngine
  import opened LatteBound
  import opened LatteService
  import opened LatteRuns

  /** What came before, followed by the rest of a run. */
  function After(changed: bool, log: seq<Round>, rest: Accepted): Accepted {
    Accepted(rest.w, changed || rest.changed, rest.ending, log + rest.log)
  }

  lemma AfterAfter(changed: bool, log: seq<Round>, more: seq<Round>, rest: Accepted)
    ensures After(changed, log, After(true, more, rest)) == After(true, log + more, rest)
  {
    assert log + (more + rest.log) == (log + more) + rest.log;
  }

  /** Accept's forever loop: changed and the tree are updated until a return. */
  method Accept(start: Workflow, input: Input, envs: nat -> Env) returns (a: Accepted)
    ensures a == AcceptRun(start, input, envs, 0) && IsAccept(a, start, input, envs, 0)
  {
    hide Step, Tokens, Potential, AcceptRun, IsAccept;
    AcceptIsChain(start, input, envs, 0);
    var w := start;
    var changed := false;
    var log: seq<Round> := [];
    var i: nat := 0;
    while true
      invariant AcceptRun(start, input, envs, 0) == After(changed, log, AcceptRun(w, input, envs, i))
      decreases Tokens(w), Potential(w, 0)
    {
      var step := Step(w, input, envs(i));
      if !step.Appended? { AcceptEnds(w, input, envs, i); }
      match step {
        case Eof => return Accepted(w, changed, EndOfFlow, log + [Round(w, input, envs(i), [])]);
        case Refused(events) => return Accepted(w, changed, Done, log + [Round(w, input, envs(i), events)]);
        case Kept(v, events) => return Accepted(v, true, Done, log + [Round(w, input, envs(i), events)]);
        case Broke(why, events) => return Accepted(w, changed, Error(why), log + [Round(w, input, envs(i), events)]);
        case Appended(v, events) =>
          StepShrinks(w, input, envs(i), 0);
          AcceptGoesOn(w, input, envs, i);
          AfterAfter(changed, log, [Round(w, input, envs(i), events)], AcceptRun(v, input, envs, i + 1));
          log := log + [Round(w, input, envs(i), events)];
          w := v;
          changed := true;
          i := i + 1;
      }
    }
  }

  /** The service over its store. */
  class Service {
    var instances: seq<Workflow>
    var log: seq<Round>
    var commits: seq<Workflow>
    var closed: bool

    function Value(): Session
      reads this
    {
      Session(instances, log, commits, closed)
    }

    constructor CreateNewWorkflow(intent: Intent, envs: nat -> Env, f: Faults)
      ensures IsOpened(intent, envs, f, Value()) && Value() == Opened(intent, envs, f)
    {
      hide AcceptRun, IsAccept, IsOpened;
      instances, log, commits, closed := [], [], [], false;
      new;
      OpenObeys(intent, envs, f, Opened(intent, envs, f));
      if f.find { return; }
      var a := Accept(Workflow(intent, []), Nothing, envs);
      log := a.log;
      assert [] + a.log == a.log && [] + [a.w] == [a.w];
      if a.ending.Error? || f.create { return; }
      instances := [a.w];
      if a.ending.EndOfFlow? { Finish(a.w, f); }
    }

    method FeedInput(r: Request)
      modifies this
      ensures IsFed(old(Value()), r, Value()) && Value() == Feed(old(Value()), r)
    {
      hide AcceptRun, IsAccept, IsFed;
      FeedObeys(Value(), r, Feed(Value(), r));
      if closed || r.faults.find || r.instance >= |instances| { return; }
      var a := Accept(instances[r.instance], r.input, r.envs);
      log := log + a.log;
      if a.ending.Error? || (a.ending.Done? && !a.changed) || r.faults.create { return; }
      instances := instances + [a.w];
      if a.ending.EndOfFlow? { Finish(a.w, r.faults); }
    }

    /** finishWorkflow, then the deletes. */
    method Finish(w: Workflow, f: Faults)
      modifies this`commits, this`closed
      ensures commits == if f.finish then old(commits) else old(commits) + [w]
      ensures closed <==> old(closed) || (!f.finish && !f.deleteSession)
    {
      if f.finish { return; }
      commits := commits + [w];
      if f.deleteSession { return; }
      closed := true;
    }
  }
}
