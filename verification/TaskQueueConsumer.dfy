/**
 The consumer's own code: Start0, work, dequeue and the save at the end, over the fields
 they change in place.  Every redis command and every limiter call is one method; between
 two of them the other workers, the producers and Stop may do anything the protocol allows
 (`Interfere`).  `history` is the run of the whole system so far, so `Valid` says that this
 code only ever takes steps of the system in TaskQueue.
 */
module TaskQueueConsumer {
  import opened Wrappers
  import opened TaskQueue
  import opened TaskQueueSafety

  /** Where a call may panic instead of returning. */
  datatype Point = AtPop | AtCancel | AtFetch | AtExecute | AtSave

  /** What the environment answers during one call of work. */
  datatype Script = Script(
    backoffByShutdown: bool,       // shutdown is ready before the backoff timer
    limiter: seq<Option<LimiterAnswer>>,   // the limiter's answers, in order; None is a panic
    limitByShutdown: seq<bool>,    // shutdown is ready before the time to act
    popFault: Option<bool>,        // the BRPOP connection fails; whether an entry was lost
    connected: bool,
    outcome: Outcome,
    saved: SaveAnswer,
    panics: set<Point>)

  class Cluster {
    var queue: seq<Entry>
    var store: map<TaskKey, Stored>
    var workers: seq<Worker>
    var granted: nat
    var cancelled: set<nat>
    var consumed: set<nat>
    var wasted: set<nat>
    var tickets: nat
    var fate: map<nat, Fate>
    var runs: seq<nat>
    var poppedBy: map<nat, nat>
    ghost var history: seq<State>

    function View(): State
      reads this
    {
      State(queue, store, workers, granted, cancelled, consumed, wasted, tickets, fate, runs, poppedBy)
    }

    ghost predicate Valid()
      reads this
    {
      IsRun(history) && history[|history| - 1] == View()
    }

    /** Worker i stands where it stood, holding what it held; its flags may have changed. */
    twostate predicate Mine(i: nat)
      reads this
    {
      && old(history) <= history && |workers| == old(|workers|)
      && i < |workers|
      && workers[i].pc == old(workers)[i].pc && workers[i].reservation == old(workers)[i].reservation
      && workers[i].backoff == old(workers)[i].backoff && (old(workers)[i].stop ==> workers[i].stop)
    }

    constructor (n: nat)
      ensures Valid() && workers == seq(n, k => Worker(Loop, 0, None, false, false)) && queue == [] && store == map[]
    {
      queue, store := [], map[];
      workers := seq(n, k => Worker(Loop, 0, None, false, false));
      granted, cancelled, consumed, wasted := 0, {}, {}, {};
      tickets, fate, runs, poppedBy := 0, map[], [], map[];
      new;
      history := [View()];
    }

    /** Records that `step` has just been taken. */
    ghost method Took(before: State, step: Step)
      requires IsRun(history) && history[|history| - 1] == before && Enabled(before, step) && View() == Apply(before, step)
      modifies this`history
      ensures Valid() && history == old(history) + [View()]
    {
      var longer := history + [View()];
      forall k | 0 <= k < |longer| - 1 ensures Next(longer[k], longer[k + 1]) {
        if k < |history| - 1 { assert Next(history[k], history[k + 1]); }
      }
      history := longer;
    }

    /** Everybody else, for as long as they like.  The body is the case that nobody moves; a caller knows
        only the contract, so what it proves holds whatever the others do. */
    method Interfere(i: nat)
      requires Valid() && i < |workers|
      modifies this
      ensures Valid() && Mine(i)
    {
    }

    method Select(i: nat)
      requires Valid() && i < |workers| && workers[i].pc.Loop?
      modifies this
      ensures |workers| == old(|workers|) && workers[i].reservation == old(workers)[i].reservation
        && poppedBy == old(poppedBy) && fate == old(fate)
      ensures if workers[i].stop || workers[i].ctxDone then workers[i].pc.Returned? else workers[i].pc.BackedOff? || workers[i].pc.Reserving?
      ensures Valid() && View() == Apply(old(View()), Top(i)) && history == old(history) + [View()]
    {
      hide IsRun;
      ghost var before := View();
      var w := workers[i];
      if w.stop || w.ctxDone {
        workers := workers[i := w.(pc := Returned)];
      } else if w.backoff != 0 {
        workers := workers[i := w.(pc := BackedOff)];
      } else {
        workers := workers[i := w.(pc := Reserving)];
      }
      Took(before, Top(i));
    }

    method AwaitBackoff(i: nat, shutdownFirst: bool)
      requires Valid() && i < |workers| && workers[i].pc.BackedOff?
      modifies this
      ensures |workers| == old(|workers|) && workers[i].reservation == old(workers)[i].reservation
      ensures workers[i].pc.Loop? || workers[i].pc.Reserving?
      ensures Valid() && View() == Apply(old(View()), WakeBackoff(i, shutdownFirst && old(workers)[i].stop))
        && history == old(history) + [View()]
    {
      hide IsRun;
      ghost var before := View();
      var byShutdown := shutdownFirst && workers[i].stop;
      workers := workers[i := workers[i].(pc := if byShutdown then Loop else Reserving)];
      Took(before, WakeBackoff(i, byShutdown));
    }

    method AwaitTimeToAct(i: nat, shutdownFirst: bool)
      requires Valid() && i < |workers| && workers[i].pc.Limited?
      modifies this
      ensures |workers| == old(|workers|) && workers[i].reservation == old(workers)[i].reservation
      ensures workers[i].pc.Loop? || workers[i].pc.Reserving?
      ensures Valid() && View() == Apply(old(View()), WakeLimited(i, shutdownFirst && old(workers)[i].stop))
        && history == old(history) + [View()]
    {
      hide IsRun;
      ghost var before := View();
      var byShutdown := shutdownFirst && workers[i].stop;
      workers := workers[i := workers[i].(pc := if byShutdown then Loop else Reserving)];
      Took(before, WakeLimited(i, byShutdown));
    }

    method AskLimiter(i: nat, a: LimiterAnswer)
      requires Valid() && i < |workers| && workers[i].pc.Reserving? && workers[i].reservation == None
      modifies this
      ensures |workers| == old(|workers|) && (workers[i].reservation.Some? <==> workers[i].pc.Popping?)
      ensures workers[i].pc.Loop? || workers[i].pc.Popping? || workers[i].pc.Limited?
      ensures Valid() && View() == Apply(old(View()), Reserve(i, a)) && history == old(history) + [View()]
    {
      hide IsRun;
      ghost var before := View();
      var w := workers[i];
      match a {
        case LimiterError => workers := workers[i := w.(pc := Loop, backoff := w.backoff + 1)];
        case Granted =>
          workers := workers[i := w.(pc := Popping, reservation := Some(granted))];
          granted := granted + 1;
        case _ => workers := workers[i := w.(pc := Limited)];
      }
      Took(before, Reserve(i, a));
    }

    /** A failed dequeue: the backoff grows, the reservation is not cancelled. */
    method GoBack(i: nat)
      requires i < |workers|
      modifies this`workers, this`wasted, this`fate
      ensures View() == GiveUp(old(View()), i, FetchFailed, old(workers)[i].backoff + 1)
      ensures |workers| == old(|workers|) && workers[i].pc.Loop? && workers[i].reservation == None
    {
      var w := workers[i];
      workers := workers[i := w.(pc := Loop, reservation := None, backoff := w.backoff + 1)];
      if w.reservation.Some? { wasted := wasted + {w.reservation.value}; }
      if w.pc.Fetching? { fate := fate[w.pc.entry.ticket := Dropped(FetchFailed)]; }
      else if w.pc.Running? || w.pc.Saving? { fate := fate[w.pc.ticket := Dropped(FetchFailed)]; }
    }

    /** The deferred recover of work: what was held is given up, the backoff stays. */
    method Recover(i: nat)
      requires Valid() && i < |workers| && InWork(workers[i].pc)
      modifies this
      ensures |workers| == old(|workers|) && workers[i].pc.Loop? && workers[i].reservation == None
      ensures Valid() && View() == Apply(old(View()), Panic(i)) && history == old(history) + [View()]
    {
      hide IsRun;
      ghost var before := View();
      Unwind(i);
      Took(before, Panic(i));
    }

    method Unwind(i: nat)
      requires i < |workers|
      modifies this`workers, this`wasted, this`fate
      ensures View() == GiveUp(old(View()), i, Panicked, old(workers)[i].backoff)
      ensures |workers| == old(|workers|) && workers[i].pc.Loop? && workers[i].reservation == None
    {
      var w := workers[i];
      workers := workers[i := w.(pc := Loop, reservation := None)];
      if w.reservation.Some? { wasted := wasted + {w.reservation.value}; }
      if TicketOf(w.pc).Some? { fate := fate[TicketOf(w.pc).value := Dropped(Panicked)]; }
    }

    /** BRPOP fails; redis may have taken the tail off the list already. */
    method LosePop(i: nat, lost: bool)
      requires Valid() && i < |workers| && workers[i].pc.Popping? && (lost ==> queue != [])
      modifies this
      ensures |workers| == old(|workers|) && workers[i].pc.Loop? && workers[i].reservation == None
      ensures View() == PopStep(old(View()), i, PopError(lost)) && history == old(history)
    {
      hide IsRun, GiveUp;
      GoBack(i);
      if lost {
        fate := fate[queue[|queue| - 1].ticket := Dropped(ConnectionLost)];
        queue := queue[..|queue| - 1];
      }
    }

    /** BRPOP serves the tail. */
    method TakeTail(i: nat)
      requires Valid() && i < |workers| && workers[i].pc.Popping? && queue != []
      modifies this
      ensures |workers| == old(|workers|) && workers[i].pc.Fetching?
      ensures View() == Take(old(View()), i) && history == old(history)
    {
      var e := queue[|queue| - 1];
      workers := workers[i := workers[i].(pc := Fetching(e))];
      poppedBy := poppedBy[e.ticket := i];
      queue := queue[..|queue| - 1];
    }

    /** BRPOP: serves the tail if there is one, times out if there is none. */
    method BRPop(i: nat, fault: Option<bool>) returns (a: PopAnswer)
      requires Valid() && i < |workers| && workers[i].pc.Popping?
      modifies this
      ensures Enabled(old(View()), Pop(i, a)) && a.PopError? == fault.Some?
      ensures |workers| == old(|workers|)
      ensures if a.Popped? then workers[i].pc.Fetching? else if a.TimedOut? then workers[i].pc.Cancelling?
              else workers[i].pc.Loop? && workers[i].reservation == None
      ensures Valid() && View() == Apply(old(View()), Pop(i, a)) && history == old(history) + [View()]
    {
      hide IsRun, GiveUp, Take, LoseTail;
      ghost var before := View();
      if fault.Some? {
        a := PopError(fault.value && queue != []);
        LosePop(i, a.lost);
      } else if queue == [] {
        a := TimedOut;
        workers := workers[i := workers[i].(pc := Cancelling)];
      } else {
        a := Popped;
        TakeTail(i);
      }
      Took(before, Pop(i, a));
    }

    method CancelReservation(i: nat)
      requires Valid() && i < |workers| && workers[i].pc.Cancelling?
      modifies this
      ensures |workers| == old(|workers|) && workers[i].pc.Loop? && workers[i].reservation == None
      ensures Valid() && View() == Apply(old(View()), Cancel(i)) && history == old(history) + [View()]
    {
      hide IsRun;
      ghost var before := View();
      var w := workers[i];
      if w.reservation.Some? { cancelled := cancelled + {w.reservation.value}; }
      workers := workers[i := w.(pc := Loop, reservation := None)];
      Took(before, Cancel(i));
    }

    /** GET and decode; on success the reservation is consumed and the backoff reset. */
    method GetTask(i: nat, connected: bool) returns (ok: bool)
      requires Valid() && i < |workers| && workers[i].pc.Fetching?
      modifies this
      ensures ok == (connected && CanFetch(old(View()), old(workers)[i].pc.entry.value))
      ensures |workers| == old(|workers|) && workers[i].reservation == None
      ensures if ok then workers[i].pc.Running? else workers[i].pc.Loop?
      ensures Valid() && View() == Apply(old(View()), Fetch(i, connected)) && history == old(history) + [View()]
    {
      hide IsRun, GiveUp;
      ghost var before := View();
      var w := workers[i];
      var e := w.pc.entry;
      ok := connected && e.value.QueueItem? && e.value.key in store && store[e.value.key].Record?;
      if ok {
        workers := workers[i := w.(pc := Running(e.ticket, store[e.value.key].task), reservation := None, backoff := 0)];
        if w.reservation.Some? { consumed := consumed + {w.reservation.value}; }
        assert View() == Load(before, i);
      } else {
        GoBack(i);
      }
      Took(before, Fetch(i, connected));
    }

    /** The fields of the task object, in the order they are written. */
    static method CompleteFields(fetched: Task, o: Outcome) returns (task: Task)
      ensures task == Complete(fetched, o) && HasResult(fetched, o, task)
    {
      task := fetched;
      if o.error.Some? { task := task.(error := o.error); }
      task := task.(status := Completed);
      task := task.(completedAt := Some(o.now));
      task := task.(output := o.output);
    }

    method RunTask(i: nat, o: Outcome)
      requires Valid() && i < |workers| && workers[i].pc.Running?
      modifies this
      ensures |workers| == old(|workers|) && workers[i].pc.Saving? && workers[i].reservation == old(workers)[i].reservation
      ensures Valid() && View() == Apply(old(View()), Execute(i, o)) && history == old(history) + [View()]
    {
      hide IsRun, Complete;
      ghost var before := View();
      var w := workers[i];
      var task := CompleteFields(w.pc.task, o);
      if o.ran { runs := runs + [w.pc.ticket]; }
      workers := workers[i := w.(pc := Saving(w.pc.ticket, task))];
      Took(before, Execute(i, o));
    }

    method SaveTask(i: nat, a: SaveAnswer)
      requires Valid() && i < |workers| && workers[i].pc.Saving? && workers[i].reservation == None
      modifies this
      ensures |workers| == old(|workers|) && workers[i].pc.Loop? && workers[i].reservation == None
      ensures Valid() && View() == Apply(old(View()), Save(i, a)) && history == old(history) + [View()]
    {
      hide IsRun;
      ghost var before := View();
      var w := workers[i];
      workers := workers[i := w.(pc := Loop)];
      if a.SaveOk? || (a.SetError? && a.applied) {
        store := store[w.pc.task.Key() := Record(w.pc.task)];
        fate := fate[w.pc.ticket := Saved(w.pc.task)];
      } else {
        fate := fate[w.pc.ticket := Dropped(SaveFailed)];
      }
      Took(before, Save(i, a));
    }

    /** The loop "until we can have a reservation": true if work goes on to dequeue. */
    method AcquireReservation(i: nat, limiter: seq<Option<LimiterAnswer>>, byShutdown: seq<bool>) returns (acquired: bool)
      requires Valid() && i < |workers| && workers[i].pc.Reserving? && workers[i].reservation == None
      modifies this
      ensures Valid() && old(history) <= history && |workers| == old(|workers|)
      ensures acquired <==> workers[i].pc.Popping?
      ensures !acquired ==> workers[i].reservation == None && (workers[i].pc.Loop? || workers[i].pc.Reserving? || workers[i].pc.Limited?)
    {
      hide Apply, IsRun;
      acquired := false;
      var n := if |limiter| <= |byShutdown| then |limiter| else |byShutdown|;
      for k := 0 to n
        invariant Valid() && old(history) <= history && |workers| == old(|workers|)
        invariant workers[i].pc.Reserving? && workers[i].reservation == None
      {
        if limiter[k].None? { Recover(i); return; }
        AskLimiter(i, limiter[k].value);
        if workers[i].pc.Popping? { acquired := true; return; }
        if workers[i].pc.Loop? { return; }
        Interfere(i);
        AwaitTimeToAct(i, byShutdown[k]);
        if workers[i].pc.Loop? { return; }
        Interfere(i);
      }
    }

    /** work, from the backoff test on.  It is finished when the worker is back at the loop; otherwise the
        script ended while the limiter was still refusing. */
    method Work(i: nat, env: Script) returns (finished: bool)
      requires Valid() && i < |workers| && workers[i].reservation == None
      requires workers[i].pc.BackedOff? || workers[i].pc.Reserving?
      modifies this
      ensures Valid() && old(history) <= history && |workers| == old(|workers|)
      ensures workers[i].reservation == None && (finished <==> workers[i].pc.Loop?)
      ensures finished ==> forall t :: t in poppedBy && poppedBy[t] == i ==> t in fate
    {
      hide Apply, IsRun;
      if workers[i].pc.BackedOff? {
        Interfere(i);
        AwaitBackoff(i, env.backoffByShutdown);
        if workers[i].pc.Loop? { NothingOwed(i); return true; }
      }
      Interfere(i);
      var acquired := AcquireReservation(i, env.limiter, env.limitByShutdown);
      if !acquired {
        finished := workers[i].pc.Loop?;
        if finished { NothingOwed(i); }
        return;
      }
      Interfere(i);
      Dequeue(i, env);
      NothingOwed(i);
      return true;
    }

    /** With the reservation in hand: pop, and go on from there. */
    method Dequeue(i: nat, env: Script)
      requires Valid() && i < |workers| && workers[i].pc.Popping?
      modifies this
      ensures Valid() && old(history) <= history && |workers| == old(|workers|)
      ensures workers[i].pc.Loop? && workers[i].reservation == None
    {
      hide Apply, IsRun;
      if AtPop in env.panics { Recover(i); return; }
      var popped := BRPop(i, env.popFault);
      if popped.Popped? {
        Dequeued(i, env);
      } else if popped.TimedOut? {
        Interfere(i);
        if AtCancel in env.panics { Recover(i); return; }
        CancelReservation(i);
      }
    }

    /** From the popped entry to the saved task. */
    method Dequeued(i: nat, env: Script)
      requires Valid() && i < |workers| && workers[i].pc.Fetching?
      modifies this
      ensures Valid() && old(history) <= history && |workers| == old(|workers|)
      ensures workers[i].pc.Loop? && workers[i].reservation == None
    {
      hide Apply, IsRun;
      Interfere(i);
      if AtFetch in env.panics { Recover(i); return; }
      var ok := GetTask(i, env.connected);
      if ok { Process(i, env); }
    }

    /** From the fetched task to the saved one; a panic of the processor is an error of the task, not of work. */
    method Process(i: nat, env: Script)
      requires Valid() && i < |workers| && workers[i].pc.Running? && workers[i].reservation == None
      modifies this
      ensures Valid() && old(history) <= history && |workers| == old(|workers|)
      ensures workers[i].pc.Loop? && workers[i].reservation == None
    {
      hide Apply, IsRun;
      Interfere(i);
      if AtExecute in env.panics { Recover(i); return; }
      RunTask(i, env.outcome);
      Interfere(i);
      if AtSave in env.panics { Recover(i); return; }
      SaveTask(i, env.saved);
    }

    lemma NothingOwed(i: nat)
      requires Valid() && i < |workers| && workers[i].pc.Loop?
      ensures forall t :: t in poppedBy && poppedBy[t] == i ==> t in fate
    {
      assert Reachable(View());
      ReachableInv(View());
      assert PoppedOk(View());
    }

    /** Start0: select, work, select again, until shutdown or the end of the scripts. */
    method Start0(i: nat, scripts: seq<Script>) returns (done: bool)
      requires Valid() && i < |workers| && workers[i].pc.Loop? && workers[i].reservation == None
      modifies this
      ensures Valid() && old(history) <= history && |workers| == old(|workers|)
      ensures workers[i].reservation == None
      ensures done ==> workers[i].stop || workers[i].ctxDone
      ensures done ==> workers[i].pc.Returned? && forall t :: t in poppedBy && poppedBy[t] == i ==> t in fate
    {
      hide Apply, IsRun;
      for k := 0 to |scripts|
        invariant Valid() && old(history) <= history && |workers| == old(|workers|)
        invariant workers[i].pc.Loop? && workers[i].reservation == None
      {
        Interfere(i);
        NothingOwed(i);
        Select(i);
        if workers[i].pc.Returned? { return true; }
        var finished := Work(i, scripts[k]);
        if !finished { return false; }
      }
      return false;
    }
  }
}
