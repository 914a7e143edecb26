/** One round of Accept, by the rules: who reacts, what the tree looks like afterwards, and what happened. */
module LatteRounds {
  import opened Wrappers
  import opened LatteTypes
  import opened LatteReact
  import opened LatteEngine
  import opened LatteBound
  import opened LatteRules
  import opened LatteObeys

  function OwnReactor(w: Workflow): Option<Reactor> { if HasStep(w.intent, |w.nodes|) then Some(ByIntent(w.intent, w.nodes)) else None }

  /** FindInputReactor: the deepest reactor at the end of the tree. */
  function ReactorOf(w: Workflow): Option<Reactor>
    decreases w
  {
    if w.nodes == [] then OwnReactor(w)
    else match w.nodes[|w.nodes| - 1]
      case SubWorkflow(sub) => if ReactorOf(sub).Some? then ReactorOf(sub) else OwnReactor(w)
      case Simple(n) => if Asks(n, |w.nodes|) then Some(ByNode(n)) else OwnReactor(w)
  }

  /** The tree with a node appended where its reactor stands. */
  function Grown(w: Workflow, n: Node): Workflow
    decreases w
  {
    if w.nodes != [] && w.nodes[|w.nodes| - 1].SubWorkflow? && ReactorOf(w.nodes[|w.nodes| - 1].w).Some? then
      Workflow(w.intent, w.nodes[..|w.nodes| - 1] + [SubWorkflow(Grown(w.nodes[|w.nodes| - 1].w, n))])
    else Workflow(w.intent, w.nodes + [n])
  }

  function EventsOf(o: Outcome): seq<Event> { if o.Eof? then [] else o.events }

  /** An outcome is what a reply of the reactor makes of the tree. */
  ghost predicate IsOutcome(o: Outcome, w: Workflow, reply: Reply, env: Env) {
    && !o.Eof? && EventsOf(o) == reply.events
    && match reply.reaction
       case Next(n) => if env.effectError && WritesAtOnce(n) then o == Broke(ServiceError, reply.events) else o == Appended(Grown(w, n), reply.events)
       case UpdateNode(_) => o == Kept(w, reply.events)
       case SameNode => o == Kept(w, reply.events)
       case Incompatible => o == Refused(reply.events)
       case Failed(why) => o == Broke(why, reply.events)
  }

  lemma {:induction false} FoundReactor(w: Workflow)
    ensures CanReact(w) <==> ReactorOf(w).Some?
    ensures ReactorOf(w).Some? ==> Reacts(ReactorOf(w).value)
    decreases w
  {
    SameReactors(w);
    hide IntentCanReact, NodeCanReact, HasStep, Asks;
    if w.nodes != [] {
      match w.nodes[|w.nodes| - 1] {
        case SubWorkflow(sub) => FoundReactor(sub);
        case Simple(n) => OneIsEnough(n, |w.nodes|);
      }
    }
  }

  lemma SameReactors(w: Workflow)
    ensures IntentCanReact(w.intent, w.nodes) <==> HasStep(w.intent, |w.nodes|)
    ensures forall n, count: nat :: NodeCanReact(n, count) <==> Asks(n, count)
  {
    CanReactTo(w.intent, w.nodes, NodeVerifiedCaptcha, 0);
  }

  lemma WritingIsRunEffect()
    ensures forall n :: HasRunEffect(n) <==> WritesAtOnce(n)
  {
  }

  lemma OneIsEnough(n: SimpleNode, count: nat)
    ensures Asks(n, count) ==> Asks(n, 1)
  {
  }

  lemma {:induction false} StepIsReply(w: Workflow, input: Input, env: Env)
    ensures ReactorOf(w).None? ==> Step(w, input, env).Eof?
    ensures ReactorOf(w).Some? ==> IsOutcome(Step(w, input, env), w, ReplyOf(ReactorOf(w).value, input, env), env)
    decreases w
  {
    SameReactors(w);
    hide IntentReact, NodeReact, IntentCanReact, NodeCanReact, HasStep, Asks;
    WritingIsRunEffect();
    hide HasRunEffect, WritesAtOnce;
    FoundReactor(w);
    if w.nodes != [] && LastReacts(w.nodes[|w.nodes| - 1], |w.nodes|) {
      match w.nodes[|w.nodes| - 1] {
        case Simple(n) =>
          NodeKeeps(n, input, env);
          assert w.nodes[..|w.nodes| - 1] + [Simple(n)] == w.nodes;
        case SubWorkflow(sub) =>
          FoundReactor(sub);
          StepIsReply(sub, input, env);
          assert w.nodes[..|w.nodes| - 1] + [SubWorkflow(sub)] == w.nodes;
      }
    } else {
      if w.nodes != [] && w.nodes[|w.nodes| - 1].SubWorkflow? { FoundReactor(w.nodes[|w.nodes| - 1].w); }
      IntentNeverKeeps(w.intent, w.nodes, input, env);
    }
  }

  /** A round, told by the rules.  With nobody to react it is the end; else the reactor appends a node, stays,
      refuses or fails as the rules say, and what happens are the events that the rules say it causes. */
  lemma RoundObeys(w: Workflow, input: Input, env: Env)
    ensures ReactorOf(w).None? <==> Step(w, input, env).Eof?
    ensures ReactorOf(w).Some? ==> var r := ReactorOf(w).value; var o := Step(w, input, env);
      && (forall n :: Appends(r, input, env, n) && !(env.effectError && WritesAtOnce(n)) ==> o.Appended? && o.w == Grown(w, n))
      && (o.Appended? ==> exists n :: Appends(r, input, env, n) && !(env.effectError && WritesAtOnce(n)) && o.w == Grown(w, n))
      && (o.Kept? <==> Resends(r, input, env)) && (o.Kept? ==> o.w == w)
      && (o.Refused? <==> !Takes(r, input))
      && (forall why :: why != ServiceError ==> (o.Broke? && o.why == why <==> FailsBecause(r, input, env, why)))
      && |EventsOf(o)| <= 1 && (forall e :: e in EventsOf(o) <==> Causes(r, input, env, e))
  {
    hide Step, ReplyOf, WritesAtOnce, Appends, Resends, Takes, FailsBecause, Causes, Grown, ReactorOf, Reacts;
    FoundReactor(w);
    StepIsReply(w, input, env);
    if ReactorOf(w).Some? { ReactionsObey(ReactorOf(w).value, input, env); }
  }
}
