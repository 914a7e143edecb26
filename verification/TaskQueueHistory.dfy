/**
 Where things come from: the history behind a saved task, behind a closed reservation and behind an
 entry in a worker's hands, and what a worker does when nothing stands in its way.
 */
module TaskQueueHistory {
  import opened Wrappers
  import opened TaskQueue
  import opened TaskQueueSafety

  // ---------------------------------------------------------------- one worker, one step

  /** How a worker can come to hold what it holds after a step: it held it before, or the step is its own. */
  ghost predicate ComesFrom(s: State, step: Step, i: nat, pc: PC)
    requires i < |s.workers|
  {
    || s.workers[i].pc == pc
    || match pc
       case Fetching(e) => step == Pop(i, Popped) && s.queue != [] && s.queue[|s.queue| - 1] == e
       case Running(t, task) =>
         && step == Fetch(i, true) && s.workers[i].pc.Fetching? && s.workers[i].pc.entry.ticket == t
         && var v := s.workers[i].pc.entry.value; v.QueueItem? && v.key in s.store && s.store[v.key] == Record(task)
       case Saving(t, task) =>
         && step.Execute? && step.i == i && s.workers[i].pc.Running? && s.workers[i].pc.ticket == t
         && HasResult(s.workers[i].pc.task, step.outcome, task)
       case _ => true
  }

  lemma GiveUpMoves(s: State, j: nat, reason: DropReason, backoff: nat, i: nat)
    requires j < |s.workers| && i < |s.workers|
    ensures |GiveUp(s, j, reason, backoff).workers| == |s.workers|
    ensures GiveUp(s, j, reason, backoff).workers[i].pc == if i == j then Loop else s.workers[i].pc
  {
  }

  lemma StepComesFrom(s: State, step: Step, i: nat)
    requires Enabled(s, step) && i < |s.workers|
    ensures |Apply(s, step).workers| == |s.workers| && ComesFrom(s, step, i, Apply(s, step).workers[i].pc)
  {
    hide Apply, Enabled, ComesFrom;
    if step.Pop? || step.Fetch? || step.Execute? { TaskComesFrom(s, step, i); } else { RestComesFrom(s, step, i); }
  }

  lemma TaskComesFrom(s: State, step: Step, i: nat)
    requires Enabled(s, step) && i < |s.workers| && (step.Pop? || step.Fetch? || step.Execute?)
    ensures |Apply(s, step).workers| == |s.workers| && ComesFrom(s, step, i, Apply(s, step).workers[i].pc)
  {
    hide GiveUp, KeyPending, InWork, Complete;
    match step
    case Pop(j, _) => GiveUpMoves(s, j, FetchFailed, s.workers[j].backoff + 1, i);
    case Fetch(j, _) => GiveUpMoves(s, j, FetchFailed, s.workers[j].backoff + 1, i);
    case Execute(j, o) => CompleteHasResult(s.workers[j].pc.task, o);
    case _ =>
  }

  lemma RestComesFrom(s: State, step: Step, i: nat)
    requires Enabled(s, step) && i < |s.workers| && !(step.Pop? || step.Fetch? || step.Execute?)
    ensures |Apply(s, step).workers| == |s.workers| && ComesFrom(s, step, i, Apply(s, step).workers[i].pc)
  {
    hide GiveUp, KeyPending, InWork, Complete, HasResult;
    match step
    case Reserve(j, _) => GiveUpMoves(s, j, FetchFailed, s.workers[j].backoff + 1, i);
    case Save(j, _) => GiveUpMoves(s, j, SaveFailed, s.workers[j].backoff, i);
    case Panic(j) => GiveUpMoves(s, j, Panicked, s.workers[j].backoff, i);
    case _ =>
  }

  // ---------------------------------------------------------------- the life of a saved task

  /** Worker i popped the entry in step p. */
  ghost predicate PoppedAt(run: seq<State>, steps: seq<Step>, p: nat, i: nat, e: Entry)
    requires |run| == |steps| + 1
  {
    p < |steps| && steps[p] == Pop(i, Popped) && run[p].queue != [] && run[p].queue[|run[p].queue| - 1] == e
  }

  /** Worker i, holding the entry, fetched the task in step f, after popping it. */
  ghost predicate FetchedAt(run: seq<State>, steps: seq<Step>, f: nat, i: nat, t: nat, task: Task)
    requires |run| == |steps| + 1
  {
    && f < |steps| && steps[f] == Fetch(i, true) && i < |run[f].workers| && run[f].workers[i].pc.Fetching?
    && var e := run[f].workers[i].pc.entry;
    && e.ticket == t && e.value.QueueItem? && e.value.key in run[f].store && run[f].store[e.value.key] == Record(task)
    && exists p: nat :: p < f && PoppedAt(run, steps, p, i, e)
  }

  /** Worker i executed the fetched task in step x, with the outcome of that step. */
  ghost predicate ExecutedAt(run: seq<State>, steps: seq<Step>, x: nat, i: nat, t: nat, task: Task)
    requires |run| == |steps| + 1
  {
    && x < |steps| && steps[x].Execute? && steps[x].i == i
    && exists f: nat, fetched: Task :: f < x && FetchedAt(run, steps, f, i, t, fetched) && HasResult(fetched, steps[x].outcome, task)
  }

  /** Everything a worker holds has its steps behind it. */
  ghost predicate HeldSince(run: seq<State>, steps: seq<Step>, k: nat, i: nat, pc: PC)
    requires |run| == |steps| + 1
  {
    match pc
    case Fetching(e) => exists p: nat :: p < k && PoppedAt(run, steps, p, i, e)
    case Running(t, task) => exists f: nat :: f < k && FetchedAt(run, steps, f, i, t, task)
    case Saving(t, task) => exists x: nat :: x < k && ExecutedAt(run, steps, x, i, t, task)
    case _ => true
  }

  lemma HeldOn(run: seq<State>, steps: seq<Step>, k: nat, i: nat, pc: PC)
    requires |run| == |steps| + 1 && k < |steps| && HeldSince(run, steps, k, i, pc)
    ensures HeldSince(run, steps, k + 1, i, pc)
  {
    hide PoppedAt, FetchedAt, ExecutedAt;
  }

  lemma HeldNext(run: seq<State>, steps: seq<Step>, k: nat, i: nat, pc: PC)
    requires |run| == |steps| + 1 && k < |steps| && i < |run[k].workers|
    requires HeldSince(run, steps, k, i, run[k].workers[i].pc) && ComesFrom(run[k], steps[k], i, pc)
    ensures HeldSince(run, steps, k + 1, i, pc)
  {
    if run[k].workers[i].pc == pc {
      HeldOn(run, steps, k, i, pc);
    } else {
      match pc {
        case Fetching(e) => assert PoppedAt(run, steps, k, i, e);
        case Running(t, task) => assert FetchedAt(run, steps, k, i, t, task);
        case Saving(t, task) => assert ExecutedAt(run, steps, k, i, t, task);
        case _ => {}
      }
    }
  }

  lemma {:induction false} EveryHoldHasItsSteps(run: seq<State>, steps: seq<Step>, k: nat, i: nat)
    requires IsTrace(run, steps) && k <= |steps| && i < |run[0].workers|
    ensures |run[k].workers| == |run[0].workers| && HeldSince(run, steps, k, i, run[k].workers[i].pc)
  {
    hide Enabled, Apply, HeldSince, ComesFrom;
    if k == 0 {
      NothingHeld(run, steps, i);
    } else {
      EveryHoldHasItsSteps(run, steps, k - 1, i);
      StepComesFrom(run[k - 1], steps[k - 1], i);
      HeldNext(run, steps, k - 1, i, run[k].workers[i].pc);
    }
  }

  lemma NothingHeld(run: seq<State>, steps: seq<Step>, i: nat)
    requires |run| == |steps| + 1 && Init(run[0]) && i < |run[0].workers|
    ensures HeldSince(run, steps, 0, i, run[0].workers[i].pc)
  {
    assert run[0].workers[i] == Worker(Loop, 0, None, false, run[0].workers[i].ctxDone);
  }

  /** The save that brought the ticket to this end, and the store right after it. */
  ghost predicate SavedAt(run: seq<State>, steps: seq<Step>, w: nat, i: nat, t: nat, task: Task)
    requires |run| == |steps| + 1
  {
    && w < |steps| && steps[w].Save? && steps[w].i == i && Decides(run[w], steps[w], t, Saved(task))
    && task.Key() in run[w + 1].store && run[w + 1].store[task.Key()] == Record(task)
  }

  lemma SaveStores(s: State, step: Step, t: nat, task: Task)
    requires Enabled(s, step) && Decides(s, step, t, Saved(task))
    ensures step.Save? && step.i < |s.workers| && s.workers[step.i].pc == Saving(t, task)
    ensures task.Key() in Apply(s, step).store && Apply(s, step).store[task.Key()] == Record(task)
  {
  }

  /** A task saved in a run was popped, fetched, executed and stored by one worker, in this order, and what was
      stored is the fetched task with the result of its own execution on it. */
  lemma SavedTasksWereExecuted(run: seq<State>, steps: seq<Step>, k: nat, t: nat)
    requires IsTrace(run, steps) && k <= |steps| && t in run[k].fate && run[k].fate[t].Saved?
    ensures exists i: nat, x: nat, w: nat ::
      && x < w < k && ExecutedAt(run, steps, x, i, t, run[k].fate[t].task) && SavedAt(run, steps, w, i, t, run[k].fate[t].task)
  {
    hide Enabled, Apply, Decides, ExecutedAt;
    EveryEndHasItsStep(run, steps, k, t);
    var task := run[k].fate[t].task;
    var w :| 0 <= w < k && t !in run[w].fate && Decides(run[w], steps[w], t, Saved(task));
    assert Enabled(run[w], steps[w]) && run[w + 1] == Apply(run[w], steps[w]);
    SaveStores(run[w], steps[w], t, task);
    var i := steps[w].i;
    WorkersStay(run, steps, w);
    EveryHoldHasItsSteps(run, steps, w, i);
    var x: nat :| x < w && ExecutedAt(run, steps, x, i, t, task);
    assert SavedAt(run, steps, w, i, t, task);
  }

  lemma {:induction false} WorkersStay(run: seq<State>, steps: seq<Step>, k: nat)
    requires IsTrace(run, steps) && k <= |steps|
    ensures |run[k].workers| == |run[0].workers|
  {
    hide Enabled, Apply, ComesFrom;
    if k > 0 {
      WorkersStay(run, steps, k - 1);
      assert Enabled(run[k - 1], steps[k - 1]) && run[k] == Apply(run[k - 1], steps[k - 1]);
      SameWorkers(run[k - 1], steps[k - 1]);
    }
  }

  lemma SameWorkers(s: State, step: Step)
    requires Enabled(s, step)
    ensures |Apply(s, step).workers| == |s.workers|
  {
    if |s.workers| > 0 { StepComesFrom(s, step, 0); }
  }

  // ---------------------------------------------------------------- how reservations end

  /** Why a reservation is closed: nothing to pop, a task fetched with it, or a failure while it was held. */
  datatype Closing = ByCancel | ByFetch | ByFailure

  /** The step closes worker i's reservation in this way. */
  predicate Closes(s: State, step: Step, how: Closing) {
    match how
    case ByCancel => step.Cancel?
    case ByFetch => step.Fetch? && !FailsToDequeue(s, step, step.i)
    case ByFailure => step.Panic? || (step.Pop? && step.popped.PopError?) || (step.Fetch? && FailsToDequeue(s, step, step.i))
  }

  function ClosedBy(s: State, how: Closing): set<nat> {
    match how
    case ByCancel => s.cancelled
    case ByFetch => s.consumed
    case ByFailure => s.wasted
  }

  lemma GiveUpCloses(s: State, i: nat, reason: DropReason, backoff: nat)
    requires i < |s.workers|
    ensures var s' := GiveUp(s, i, reason, backoff); var r := s.workers[i].reservation;
      && s'.cancelled == s.cancelled && s'.consumed == s.consumed
      && s'.wasted == (if r.Some? then s.wasted + {r.value} else s.wasted)
      && s'.granted == s.granted
  {
  }

  /** In a reachable state a step closes a reservation in a way exactly if its worker holds it and the step is
      of that kind, and a reservation is granted exactly by a granting answer. */
  lemma ReservationsClose(s: State, step: Step, how: Closing, r: nat)
    requires LedgerOk(s) && Enabled(s, step)
    ensures r in ClosedBy(Apply(s, step), how) <==>
      r in ClosedBy(s, how) || (Closes(s, step, how) && s.workers[step.i].reservation == Some(r))
    ensures Apply(s, step).granted == s.granted + (if step.Reserve? && step.limiter.Granted? then 1 else 0)
  {
    hide GiveUp, InWork, KeyPending, CanFetch, Complete;
    match step
    case Reserve(i, _) => GiveUpCloses(s, i, FetchFailed, s.workers[i].backoff + 1);
    case Pop(i, _) => GiveUpCloses(s, i, FetchFailed, s.workers[i].backoff + 1);
    case Fetch(i, _) => GiveUpCloses(s, i, FetchFailed, s.workers[i].backoff + 1);
    case Save(i, _) => GiveUpCloses(s, i, SaveFailed, s.workers[i].backoff);
    case Panic(i) => GiveUpCloses(s, i, Panicked, s.workers[i].backoff);
    case _ =>
  }

  // ---------------------------------------------------------------- what can happen when

  /** The steps a worker itself may take, from where it stands: the one select or command it stands before, with
      every answer that can come, or inside work a panic. */
  predicate MayTake(s: State, i: nat, step: Step)
    requires i < |s.workers|
  {
    match s.workers[i].pc
    case Loop => step == Top(i)
    case BackedOff => step == WakeBackoff(i, false) || (step == WakeBackoff(i, true) && s.workers[i].stop) || step == Panic(i)
    case Reserving => (step.Reserve? && step.i == i) || step == Panic(i)
    case Limited => step == WakeLimited(i, false) || (step == WakeLimited(i, true) && s.workers[i].stop) || step == Panic(i)
    case Popping =>
      || (if s.queue == [] then step == Pop(i, TimedOut) else step == Pop(i, Popped) || step == Pop(i, PopError(true)))
      || step == Pop(i, PopError(false)) || step == Panic(i)
    case Cancelling => step == Cancel(i) || step == Panic(i)
    case Fetching(_) => step == Fetch(i, true) || step == Fetch(i, false) || step == Panic(i)
    case Running(_, _) => (step.Execute? && step.i == i) || step == Panic(i)
    case Saving(_, _) => (step.Save? && step.i == i) || step == Panic(i)
    case Returned => false
  }

  predicate IsOutside(step: Step) { step.Enqueue? || step.Expire? || step.Stop? || step.CtxDone? }

  /** A worker's steps are these and no others. */
  lemma StepsOfAWorker(s: State, step: Step, i: nat)
    requires i < |s.workers| && !IsOutside(step)
    ensures Enabled(s, step) && step.i == i <==> MayTake(s, i, step)
  {
  }

  /** Stop is called once and tells the worker, and whether its time is up; later its time may run out; a record
      may expire.  Nothing else changes. */
  lemma OutsideSteps(s: State, i: nat, done: bool, key: TaskKey)
    requires i < |s.workers|
    ensures Enabled(s, Stop(i, done)) <==> !s.workers[i].stop
    ensures Enabled(s, CtxDone(i)) && Apply(s, CtxDone(i)) == SetWorker(s, i, s.workers[i].(ctxDone := true))
    ensures Enabled(s, Stop(i, done)) ==> Apply(s, Stop(i, done)) == SetWorker(s, i, s.workers[i].(stop := true, ctxDone := done))
    ensures Enabled(s, Expire(key)) <==> key in s.store
    ensures Enabled(s, Expire(key)) ==> var t := Apply(s, Expire(key)).store;
      key !in t && forall other :: other != key ==> (other in t <==> other in s.store) && (other in t ==> t[other] == s.store[other])
  {
  }

  // ---------------------------------------------------------------- what a worker does when nothing goes wrong

  /** A worker that is not told to stop gets from the loop to its reservation: it waits out its backoff if it
      has one, and asks until the limiter grants. */
  lemma LoopLeadsToPop(s: State, i: nat)
    requires i < |s.workers| && s.workers[i].pc.Loop? && !s.workers[i].stop && !s.workers[i].ctxDone
    ensures var a := Apply(s, Top(i)); var w := s.workers[i];
      && a == SetWorker(s, i, w.(pc := if w.backoff == 0 then Reserving else BackedOff))
      && (w.backoff > 0 ==> Apply(a, WakeBackoff(i, false)) == SetWorker(s, i, w.(pc := Reserving)))
  {
  }

  /** A worker that is told to stop, or whose shutdown has run out of time, returns. */
  lemma LoopReturns(s: State, i: nat)
    requires i < |s.workers| && s.workers[i].pc.Loop? && (s.workers[i].stop || s.workers[i].ctxDone)
    ensures Apply(s, Top(i)) == SetWorker(s, i, s.workers[i].(pc := Returned))
  {
  }

  /** Being refused it waits and asks again; being granted it goes on to pop with the new reservation. */
  lemma ReservingLeadsToPop(s: State, i: nat, refused: LimiterAnswer)
    requires i < |s.workers| && s.workers[i].pc.Reserving? && (refused.Denied? || refused.Neither?)
    ensures var b := Apply(s, Reserve(i, refused)); var w := s.workers[i];
      Enabled(b, WakeLimited(i, false)) && Apply(b, WakeLimited(i, false)) == s
    ensures Apply(s, Reserve(i, Granted)).workers[i] == s.workers[i].(pc := Popping, reservation := Some(s.granted))
    ensures Apply(s, Reserve(i, Granted)).queue == s.queue && Apply(s, Reserve(i, Granted)).store == s.store
  {
    assert s.workers[i := s.workers[i]] == s.workers;
  }

  /** An empty list gives the reservation back. */
  lemma EmptyListCancels(s: State, i: nat, r: nat)
    requires i < |s.workers| && s.workers[i].pc.Popping? && s.workers[i].reservation == Some(r) && s.queue == []
    ensures var b := Apply(s, Pop(i, TimedOut));
      Enabled(b, Cancel(i)) && Apply(b, Cancel(i)) ==
        SetWorker(s, i, s.workers[i].(pc := Loop, reservation := None)).(cancelled := s.cancelled + {r})
  {
  }

  /** Four steps of a worker with a reservation take the oldest entry off the list and store its task with the
      result of the execution; the reservation is used up, the backoff forgotten, and nothing else changes. */
  lemma TailIsServed(s: State, i: nat, r: nat, o: Outcome)
    requires i < |s.workers| && s.workers[i].pc.Popping? && s.workers[i].reservation == Some(r)
    requires s.queue != [] && CanFetch(s, s.queue[|s.queue| - 1].value)
    requires s.store[s.queue[|s.queue| - 1].value.key].task.Key() == s.queue[|s.queue| - 1].value.key
    ensures var e := s.queue[|s.queue| - 1]; var fetched := s.store[e.value.key].task;
      var s1 := Apply(s, Pop(i, Popped));
      && Enabled(s1, Fetch(i, true)) && var s2 := Apply(s1, Fetch(i, true));
      && Enabled(s2, Execute(i, o)) && var s3 := Apply(s2, Execute(i, o));
      && Enabled(s3, Save(i, SaveOk)) && var s4 := Apply(s3, Save(i, SaveOk));
      && (exists done: Task ::
            && HasResult(fetched, o, done)
            && s4.store == s.store[e.value.key := Record(done)] && s4.fate == s.fate[e.ticket := Saved(done)])
      && s4.queue == s.queue[..|s.queue| - 1] && s4.tickets == s.tickets
      && s4.workers == s.workers[i := Worker(Loop, 0, None, s.workers[i].stop, s.workers[i].ctxDone)]
      && s4.consumed == s.consumed + {r} && s4.cancelled == s.cancelled && s4.wasted == s.wasted && s4.granted == s.granted
      && s4.runs == (if o.ran then s.runs + [e.ticket] else s.runs) && s4.poppedBy == s.poppedBy[e.ticket := i]
  {
    hide Apply, HasResult, Complete;
    var e := s.queue[|s.queue| - 1];
    var fetched := s.store[e.value.key].task;
    CompleteHasResult(fetched, o);
    PopAndFetch(s, i, r);
    ExecuteAndSave(Apply(Apply(s, Pop(i, Popped)), Fetch(i, true)), i, o);
    assert HasResult(fetched, o, Complete(fetched, o));
    SameKey(fetched, o);
  }

  lemma SameKey(t: Task, o: Outcome)
    ensures Complete(t, o).Key() == t.Key()
  {
  }

  lemma PopAndFetch(s: State, i: nat, r: nat)
    requires i < |s.workers| && s.workers[i].pc.Popping? && s.workers[i].reservation == Some(r)
    requires s.queue != [] && CanFetch(s, s.queue[|s.queue| - 1].value)
    ensures Enabled(s, Pop(i, Popped)) && Enabled(Apply(s, Pop(i, Popped)), Fetch(i, true))
    ensures var e := s.queue[|s.queue| - 1]; var fetched := s.store[e.value.key].task;
      Apply(Apply(s, Pop(i, Popped)), Fetch(i, true)) == s.(
        workers := s.workers[i := Worker(Running(e.ticket, fetched), 0, None, s.workers[i].stop, s.workers[i].ctxDone)],
        queue := s.queue[..|s.queue| - 1], poppedBy := s.poppedBy[e.ticket := i], consumed := s.consumed + {r})
  {
    hide Complete, KeyPending, InWork;
  }

  lemma ExecuteAndSave(s: State, i: nat, o: Outcome)
    requires i < |s.workers| && s.workers[i].pc.Running?
    ensures Enabled(s, Execute(i, o)) && Enabled(Apply(s, Execute(i, o)), Save(i, SaveOk))
    ensures var done := Complete(s.workers[i].pc.task, o);
      Apply(Apply(s, Execute(i, o)), Save(i, SaveOk)) == s.(
        workers := s.workers[i := s.workers[i].(pc := Loop)], runs := if o.ran then s.runs + [s.workers[i].pc.ticket] else s.runs,
        store := s.store[done.Key() := Record(done)], fate := s.fate[s.workers[i].pc.ticket := Saved(done)])
  {
    hide Complete, KeyPending, InWork;
  }

  /** A new task goes to the far end of the list and can be fetched; a record already stored under its key is
      left as it is. */
  lemma EnqueuedIsLast(s: State, v: QueueValue, record: Stored)
    requires Enabled(s, Enqueue(v, record))
    ensures var s' := Apply(s, Enqueue(v, record));
      && |s'.queue| == |s.queue| + 1 && s'.queue[0].value == v && s'.queue[1..] == s.queue
      && (v.QueueItem? ==> v.key in s'.store && s'.store[v.key] == if v.key in s.store then s.store[v.key] else record)
      && (forall key :: key in s.store ==> key in s'.store && s'.store[key] == s.store[key])
      && (forall key :: key in s'.store ==> key in s.store || v == QueueItem(key))
      && s'.workers == s.workers && s'.fate == s.fate
  {
  }
}
