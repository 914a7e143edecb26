/** No run grows a tree beyond a bound that the root intent and the migration response fix. */
module LatteTermination {
  import opened Wrappers
  import opened LatteTypes
  import opened LatteReact
  import opened LatteEngine
  import opened LatteBound
  import opened LatteService

  ghost predicate Within(envs: nat -> Env, B: nat) { forall i: nat :: SpecsWithin(envs(i), B) }

  /** What one Accept appends it takes out of the potential; an Accept that only resends takes nothing. */
  lemma {:induction false} AcceptSpends(w: Workflow, input: Input, envs: nat -> Env, i: nat, B: nat)
    requires Within(envs, B)
    ensures var a := AcceptRun(w, input, envs, i);
      TotalNodes(a.w) + Potential(a.w, B) <= TotalNodes(w) + Potential(w, B)
    ensures var a := AcceptRun(w, input, envs, i);
      TotalNodes(w) <= TotalNodes(a.w) && (TotalNodes(a.w) == TotalNodes(w) ==> a.w == w)
    decreases Tokens(w), Potential(w, 0)
  {
    hide TotalNodes, Potential, Tokens, SpecsWithin;
    match Step(w, input, envs(i)) {
      case Appended(v, _) =>
        assert SpecsWithin(envs(i), B);
        StepShrinks(w, input, envs(i), B);
        StepShrinks(w, input, envs(i), 0);
        AcceptSpends(v, input, envs, i + 1, B);
      case Kept(_, _) => KeptIsSame(w, input, envs(i));
      case _ => {}
    }
  }

  ghost predicate Small(root: Intent, s: Session, B: nat) {
    forall k :: 0 <= k < |s.instances| ==> TotalNodes(s.instances[k]) + Potential(s.instances[k], B) <= IntentBudget(root, [], B)
  }

  /** Whatever the client sends and the services answer, no instance ever holds more nodes than the
      budget of its root intent, where B bounds the two lists of a migration response. */
  lemma {:induction false} InstancesStaySmall(root: Intent, envs: nat -> Env, f: Faults, requests: seq<Request>, B: nat)
    requires Within(envs, B) && forall k :: 0 <= k < |requests| ==> Within(requests[k].envs, B)
    ensures Small(root, Replay(Opened(root, envs, f), requests), B)
  {
    hide TotalNodes, Potential, AcceptRun, Within, IntentBudget;
    if requests == [] {
      AcceptSpends(Workflow(root, []), Nothing, envs, 0, B);
      EmptyTree(root, B);
    } else {
      var front := requests[..|requests| - 1];
      assert forall k :: 0 <= k < |front| ==> front[k] == requests[k];
      InstancesStaySmall(root, envs, f, front, B);
      var s := Replay(Opened(root, envs, f), front);
      var r := requests[|requests| - 1];
      if !s.closed && r.instance < |s.instances| {
        AcceptSpends(s.instances[r.instance], r.input, r.envs, 0, B);
      }
    }
  }

  lemma EmptyTree(root: Intent, B: nat)
    ensures TotalNodes(Workflow(root, [])) == 0 && Potential(Workflow(root, []), B) == IntentBudget(root, [], B)
  {
    hide IntentBudget;
    assert TotalNodes(Workflow(root, [])) == NodesIn([]);
  }

  /** The budgets in numbers. */
  lemma TreesAreBounded(root: Intent, envs: nat -> Env, f: Faults, requests: seq<Request>, B: nat, k: nat)
    requires IsPublic(root)
    requires Within(envs, B) && forall k :: 0 <= k < |requests| ==> Within(requests[k].envs, B)
    requires k < |Replay(Opened(root, envs, f), requests).instances|
    ensures TotalNodes(Replay(Opened(root, envs, f), requests).instances[k]) <=
      match root
      case IntentProtectedAuthenticate => 25
      case IntentAuthenticate(_) => 24
      case IntentReauthenticate(_) => 5
      case _ => 17 + 6 * B
  {
    hide TotalNodes, Potential, Within, Replay, Opened;
    InstancesStaySmall(root, envs, f, requests, B);
  }
}
