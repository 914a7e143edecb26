/**
 One workflow session (pkg/lib/workflow/service.go): a request feeds one input to one stored
 instance, and the instance it grows into is stored beside it.  Older instances stay, so the browser
 may go back to any of them; the log of what the services did keeps what abandoned instances did too.
 */
module LatteService {
  import opened Wrappers
  import opened LatteTypes
  import opened LatteReact
  import opened LatteEngine
  import opened LatteBound

  /** One round of Accept: the tree, the input it was fed, what the services answered, and what happened outside. */
  datatype Round = Round(at: Workflow, input: Input, env: Env, events: seq<Event>)

  datatype Ending = Done | EndOfFlow | Error(why: Failure)

  datatype Accepted = Accepted(w: Workflow, changed: bool, ending: Ending, log: seq<Round>)

  /** Accept: the same input is fed until a reactor refuses it, keeps its node or fails, or nobody reacts. */
  function AcceptRun(w: Workflow, input: Input, envs: nat -> Env, i: nat): Accepted
    decreases Tokens(w), Potential(w, 0)
  {
    var env := envs(i);
    match Step(w, input, env)
    case Appended(v, events) =>
      StepShrinks(w, input, env, 0);
      var rest := AcceptRun(v, input, envs, i + 1);
      Accepted(rest.w, true, rest.ending, [Round(w, input, env, events)] + rest.log)
    case Kept(v, events) => Accepted(v, true, Done, [Round(w, input, env, events)])
    case Refused(events) => Accepted(w, false, Done, [Round(w, input, env, events)])
    case Eof => Accepted(w, false, EndOfFlow, [Round(w, input, env, [])])
    case Broke(why, events) => Accepted(w, false, Error(why), [Round(w, input, env, events)])
  }

  /** What may fail around Accept: finding session and instance, because they expired, belong to another
      browser or a run-effect fails; storing the new instance; its output or finishWorkflow, which runs when
      the flow ends; deleting the session after that.  A failing DeleteWorkflow changes nothing more: with
      its session gone the workflow is not found. */
  datatype Faults = Faults(find: bool, create: bool, finish: bool, deleteSession: bool)

  datatype Request = Request(instance: nat, input: Input, envs: nat -> Env, faults: Faults)

  /** The stored instances, oldest first; the trees whose commit effects ran; whether the session is deleted. */
  datatype Session = Session(instances: seq<Workflow>, log: seq<Round>, commits: seq<Workflow>, closed: bool)

  /** NoChange is an error for the caller of FeedInput, so nothing is stored. */
  predicate Persists(a: Accepted) { a.ending.EndOfFlow? || (a.ending.Done? && a.changed) }

  function Store(s: Session, a: Accepted, persist: bool, f: Faults): Session {
    var stored := persist && !f.create;
    var commits := stored && a.ending.EndOfFlow? && !f.finish;
    Session(
      if stored then s.instances + [a.w] else s.instances,
      s.log + a.log,
      if commits then s.commits + [a.w] else s.commits,
      s.closed || (commits && !f.deleteSession))
  }

  /** CreateNewWorkflow: nil is fed, and finding no change is not an error here. */
  function Opened(intent: Intent, envs: nat -> Env, f: Faults): Session {
    var none := Session([], [], [], false);
    if f.find then none
    else
      var a := AcceptRun(Workflow(intent, []), Nothing, envs, 0);
      Store(none, a, !a.ending.Error?, f)
  }

  /** FeedInput; once the session is deleted every request fails. */
  function Feed(s: Session, r: Request): Session {
    if s.closed || r.faults.find || r.instance >= |s.instances| then s
    else
      var a := AcceptRun(s.instances[r.instance], r.input, r.envs, 0);
      Store(s, a, Persists(a), r.faults)
  }

  function Replay(s: Session, requests: seq<Request>): Session {
    if requests == [] then s else Feed(Replay(s, requests[..|requests| - 1]), requests[|requests| - 1])
  }

  /** The intents a client may start a session with. */
  predicate IsPublic(i: Intent) {
    i.IntentProtectedAuthenticate? || (i.IntentAuthenticate? && !i.captcha) || i.IntentMigrate? || i.IntentReauthenticate?
  }

  ghost predicate ReachableFrom(root: Intent, s: Session) {
    exists envs: nat -> Env, f: Faults, requests: seq<Request> :: s == Replay(Opened(root, envs, f), requests)
  }

  // ---------------------------------------------------------------- unfolding an Accept

  lemma AcceptGoesOn(w: Workflow, input: Input, envs: nat -> Env, i: nat)
    requires Step(w, input, envs(i)).Appended?
    ensures var o := Step(w, input, envs(i));
      var rest := AcceptRun(o.w, input, envs, i + 1);
      AcceptRun(w, input, envs, i) == Accepted(rest.w, true, rest.ending, [Round(w, input, envs(i), o.events)] + rest.log)
  {
    hide Step, Tokens, Potential;
  }

  lemma AcceptEnds(w: Workflow, input: Input, envs: nat -> Env, i: nat)
    requires !Step(w, input, envs(i)).Appended?
    ensures var o := Step(w, input, envs(i)); var a := AcceptRun(w, input, envs, i);
      && (o.Kept? ==> a == Accepted(o.w, true, Done, [Round(w, input, envs(i), o.events)]))
      && (o.Refused? ==> a == Accepted(w, false, Done, [Round(w, input, envs(i), o.events)]))
      && (o.Eof? ==> a == Accepted(w, false, EndOfFlow, [Round(w, input, envs(i), [])]))
      && (o.Broke? ==> a == Accepted(w, false, Error(o.why), [Round(w, input, envs(i), o.events)]))
  {
    hide Step, Tokens, Potential;
  }
}
