/**
 What the reserve-before-dequeue protocol guarantees in every reachable state, for any
 number of workers and any interleaving with Stop.
 */
module TaskQueueSafety {
  import opened Wrappers
  import opened TaskQueue

  lemma ReachableInv(s: State)
    requires Reachable(s)
    ensures Inv(s)
  {
    var run :| IsRun(run) && run[|run| - 1] == s;
    RunInv(run);
  }

  // ---------------------------------------------------------------- tasks

  function Count(runs: seq<nat>, t: nat): nat {
    if runs == [] then 0 else (if runs[0] == t then 1 else 0) + Count(runs[1..], t)
  }

  lemma {:induction false} DistinctCount(runs: seq<nat>, t: nat)
    requires forall a: nat, b: nat :: a < b < |runs| ==> runs[a] != runs[b]
    ensures Count(runs, t) <= 1
    ensures Count(runs, t) == 1 <==> t in runs
  {
    if runs != [] {
      var rest := runs[1..];
      assert forall a: nat, b: nat :: a < b < |rest| ==> rest[a] == runs[a + 1] && rest[b] == runs[b + 1];
      DistinctCount(rest, t);
      if t in rest {
        var k :| 0 <= k < |rest| && rest[k] == t;
        assert runs[k + 1] == t && runs[0] != t;
      }
      assert t in runs <==> runs[0] == t || t in rest;
    }
  }

  lemma SettledIsOver(s: State, t: nat)
    requires TicketsOk(s) && Settled(s, t)
    ensures !Queued(s, t)
    ensures forall i: nat :: i < |s.workers| && s.workers[i].pc.Running? ==> s.workers[i].pc.ticket != t
  {
    forall i: nat | i < |s.workers| && s.workers[i].pc.Running? ensures s.workers[i].pc.ticket != t {
      assert TicketOf(s.workers[i].pc) == Some(s.workers[i].pc.ticket);
      if t !in s.fate {
        var j: nat :| j < |s.workers| && s.workers[j].pc.Saving? && s.workers[j].pc.ticket == t;
        assert TicketOf(s.workers[j].pc) == Some(t);
      }
    }
    if t !in s.fate {
      var j: nat :| j < |s.workers| && s.workers[j].pc.Saving? && s.workers[j].pc.ticket == t;
      assert TicketOf(s.workers[j].pc) == Some(t);
    }
  }

  /** No popped task is handed to the processor twice, and one that was is neither queued nor waiting to run. */
  lemma RunsAtMostOnce(s: State, t: nat)
    requires Reachable(s)
    ensures Count(s.runs, t) <= 1
    ensures t in s.runs ==> !Queued(s, t) && forall i: nat :: i < |s.workers| && s.workers[i].pc.Running? ==> s.workers[i].pc.ticket != t
  {
    ReachableInv(s);
    assert TicketsOk(s) && RunsOk(s);
    hide Reachable, Inv, TicketsOk, Settled;
    DistinctCount(s.runs, t);
    if t in s.runs {
      var a :| 0 <= a < |s.runs| && s.runs[a] == t;
      SettledIsOver(s, t);
    }
  }

  /** The step `step` is one of the branches that give the entry with ticket t up. */
  predicate DropBranch(s: State, step: Step, t: nat, reason: DropReason) {
    match step
    // the connection broke after redis had popped
    case Pop(i, a) => a.PopError? && a.lost && s.queue != [] && s.queue[|s.queue| - 1].ticket == t && reason == ConnectionLost
    // the item does not decode, or its task is missing, undecodable or unreadable
    case Fetch(i, connected) =>
      && i < |s.workers| && s.workers[i].pc.Fetching? && s.workers[i].pc.entry.ticket == t && reason == FetchFailed
      && (!connected || !CanFetch(s, s.workers[i].pc.entry.value))
    // marshal or SET failed
    case Save(i, a) => i < |s.workers| && s.workers[i].pc.Saving? && s.workers[i].pc.ticket == t && reason == SaveFailed
        && (a.MarshalError? || (a.SetError? && !a.applied))
    // a panic outside process
    case Panic(i) => i < |s.workers| && TicketOf(s.workers[i].pc) == Some(t) && reason == Panicked
    case _ => false
  }

  /** The step `step` brings the entry with ticket t to this end. */
  predicate Decides(s: State, step: Step, t: nat, end: Fate) {
    match end
    case Dropped(reason) => DropBranch(s, step, t, reason)
    // the SET arrived, whatever was heard of it
    case Saved(task) =>
      && step.Save? && step.i < |s.workers| && s.workers[step.i].pc == Saving(t, task)
      && (step.saved.SaveOk? || (step.saved.SetError? && step.saved.applied))
  }

  /** A task comes to its end exactly by these branches. */
  lemma DecidedOnlyThere(s: State, step: Step, t: nat)
    requires Enabled(s, step)
    ensures var s' := Apply(s, step); t !in s.fate && t in s'.fate ==> Decides(s, step, t, s'.fate[t])
    ensures var s' := Apply(s, step); forall end :: Decides(s, step, t, end) ==> t in s'.fate && s'.fate[t] == end
  {
    hide Apply, Enabled, Decides;
    if step.Pop? || step.Fetch? || step.Save? || step.Panic? { LastStepDecides(s, step, t); } else { RestDecidesNothing(s, step, t); }
  }

  lemma LastStepDecides(s: State, step: Step, t: nat)
    requires Enabled(s, step) && (step.Pop? || step.Fetch? || step.Save? || step.Panic?)
    ensures var s' := Apply(s, step); t !in s.fate && t in s'.fate ==> Decides(s, step, t, s'.fate[t])
    ensures var s' := Apply(s, step); forall end :: Decides(s, step, t, end) ==> t in s'.fate && s'.fate[t] == end
  {
    hide GiveUp, InWork, KeyPending, Complete;
    match step
    case Pop(i, _) => GiveUpFate(s, i, FetchFailed, s.workers[i].backoff + 1);
    case Fetch(i, _) => GiveUpFate(s, i, FetchFailed, s.workers[i].backoff + 1);
    case Save(i, _) => GiveUpFate(s, i, SaveFailed, s.workers[i].backoff);
    case Panic(i) => GiveUpFate(s, i, Panicked, s.workers[i].backoff);
    case _ =>
  }

  lemma RestDecidesNothing(s: State, step: Step, t: nat)
    requires Enabled(s, step) && !(step.Pop? || step.Fetch? || step.Save? || step.Panic?)
    ensures Apply(s, step).fate == s.fate && forall end :: !Decides(s, step, t, end)
  {
    hide GiveUp, InWork, KeyPending, Complete;
    match step
    case Reserve(i, _) => GiveUpFate(s, i, FetchFailed, s.workers[i].backoff + 1);
    case _ =>
  }

  lemma GiveUpFate(s: State, i: nat, reason: DropReason, backoff: nat)
    requires i < |s.workers|
    ensures GiveUp(s, i, reason, backoff).queue == s.queue
    ensures GiveUp(s, i, reason, backoff).fate ==
      if TicketOf(s.workers[i].pc).Some? then s.fate[TicketOf(s.workers[i].pc).value := Dropped(reason)] else s.fate
  {
  }

  /** A decided task stays decided. */
  lemma DecidedStays(s: State, step: Step, t: nat)
    requires TicketsOk(s) && Enabled(s, step) && t in s.fate
    ensures var s' := Apply(s, step); t in s'.fate && s'.fate[t] == s.fate[t]
  {
    forall i: nat | i < |s.workers| ensures TicketOf(s.workers[i].pc) != Some(t) {}
    assert s.queue != [] ==> s.queue[|s.queue| - 1].ticket != t;
    hide TicketsOk, GiveUp, PopStep, SaveStep, FetchStep, ReserveStep;
    match step
    case Reserve(k, a) => ReserveKeeps(s, k, t, a);
    case Pop(k, a) => PopKeeps(s, k, t, a);
    case Fetch(k, c) => FetchKeeps(s, k, t, c);
    case Save(k, a) => SaveKeeps(s, k, t, a);
    case Panic(k) => GiveUpKeeps(s, k, t, Panicked, s.workers[k].backoff);
    case _ =>
  }

  lemma GiveUpKeeps(s: State, i: nat, t: nat, reason: DropReason, backoff: nat)
    requires i < |s.workers| && TicketOf(s.workers[i].pc) != Some(t) && t in s.fate
    ensures var s' := GiveUp(s, i, reason, backoff); t in s'.fate && s'.fate[t] == s.fate[t] && s'.queue == s.queue
  {
  }

  lemma ReserveKeeps(s: State, i: nat, t: nat, a: LimiterAnswer)
    requires i < |s.workers| && TicketOf(s.workers[i].pc) != Some(t) && t in s.fate
    ensures var s' := ReserveStep(s, i, a); t in s'.fate && s'.fate[t] == s.fate[t]
  {
    GiveUpKeeps(s, i, t, FetchFailed, s.workers[i].backoff + 1);
  }

  lemma PopKeeps(s: State, i: nat, t: nat, a: PopAnswer)
    requires Enabled(s, Pop(i, a)) && t in s.fate && (s.queue != [] ==> s.queue[|s.queue| - 1].ticket != t)
    ensures var s' := PopStep(s, i, a); t in s'.fate && s'.fate[t] == s.fate[t]
  {
    GiveUpKeeps(s, i, t, FetchFailed, s.workers[i].backoff + 1);
  }

  lemma FetchKeeps(s: State, i: nat, t: nat, connected: bool)
    requires i < |s.workers| && s.workers[i].pc.Fetching? && TicketOf(s.workers[i].pc) != Some(t) && t in s.fate
    ensures var s' := FetchStep(s, i, connected); t in s'.fate && s'.fate[t] == s.fate[t]
  {
    GiveUpKeeps(s, i, t, FetchFailed, s.workers[i].backoff + 1);
  }

  lemma SaveKeeps(s: State, i: nat, t: nat, a: SaveAnswer)
    requires i < |s.workers| && s.workers[i].pc.Saving? && TicketOf(s.workers[i].pc) != Some(t) && t in s.fate
    ensures var s' := SaveStep(s, i, a); t in s'.fate && s'.fate[t] == s.fate[t]
  {
    assert TicketOf(s.workers[i].pc) == Some(s.workers[i].pc.ticket);
    GiveUpKeeps(s, i, t, SaveFailed, s.workers[i].backoff);
  }

  /** The steps a run took. */
  ghost predicate IsTrace(run: seq<State>, steps: seq<Step>) {
    && |run| == |steps| + 1 && Init(run[0])
    && forall k :: 0 <= k < |steps| ==> Enabled(run[k], steps[k]) && run[k + 1] == Apply(run[k], steps[k])
  }

  lemma {:induction false} RunsHaveSteps(run: seq<State>)
    requires IsRun(run)
    ensures exists steps :: IsTrace(run, steps)
  {
    hide Enabled, Apply, Init;
    if |run| == 1 {
      assert IsTrace(run, []);
    } else {
      var n := |run| - 1;
      RunsHaveSteps(run[..n]);
      var steps :| IsTrace(run[..n], steps);
      assert Next(run[n - 1], run[n]);
      var step :| Enabled(run[n - 1], step) && run[n] == Apply(run[n - 1], step);
      assert IsTrace(run, steps + [step]);
    }
  }

  lemma {:induction false} TraceIsRun(run: seq<State>, steps: seq<Step>, k: nat)
    requires IsTrace(run, steps) && k < |run|
    ensures IsRun(run[..k + 1])
  {
    hide Enabled, Apply, Init;
    forall j | 0 <= j < k ensures Next(run[j], run[j + 1]) {
      assert Enabled(run[j], steps[j]) && run[j + 1] == Apply(run[j], steps[j]);
    }
  }

  /** The step of the run that brought t to its end in state k. */
  ghost predicate DecidedInRun(run: seq<State>, steps: seq<Step>, k: nat, t: nat)
    requires |run| == |steps| + 1 && k <= |steps| && t in run[k].fate
  {
    exists j :: 0 <= j < k && t !in run[j].fate && Decides(run[j], steps[j], t, run[k].fate[t])
  }

  /** Whatever is recorded as the end of a task, some step of the run brought it about and stands in the
      branch that the record names. */
  lemma {:induction false} EveryEndHasItsStep(run: seq<State>, steps: seq<Step>, k: nat, t: nat)
    requires IsTrace(run, steps) && k <= |steps| && t in run[k].fate
    ensures DecidedInRun(run, steps, k, t)
  {
    hide Enabled, Apply, Decides, Init, IsRun, Inv;
    assert Init(run[0]);
    if k == 0 {
      NothingDecidedYet(run[0]);
    } else if t in run[k - 1].fate {
      EveryEndHasItsStep(run, steps, k - 1, t);
      TraceIsRun(run, steps, k - 1);
      RunInv(run[..k]);
      TicketsOf(run[k - 1]);
      DecidedStays(run[k - 1], steps[k - 1], t);
    } else {
      DecidedOnlyThere(run[k - 1], steps[k - 1], t);
    }
  }

  lemma NothingDecidedYet(s: State)
    requires Init(s)
    ensures s.fate == map[]
  {
  }

  lemma TicketsOf(s: State)
    requires Inv(s)
    ensures TicketsOk(s)
  {
  }

  /** Once shutdownDone is closed the worker holds no reservation, and everything it ever popped was
      saved as completed, or dropped in a step of the run that stands in the branch the record names. */
  lemma ReturnedOwesNothing(run: seq<State>, steps: seq<Step>, i: nat)
    requires IsTrace(run, steps) && i < |run[|steps|].workers| && run[|steps|].workers[i].pc.Returned?
    ensures var s := run[|steps|];
      && s.workers[i].reservation == None
      && forall t :: t in s.poppedBy && s.poppedBy[t] == i ==>
           && t in s.fate && DecidedInRun(run, steps, |steps|, t)
           && (s.fate[t].Saved? ==> s.fate[t].task.status == Completed)
  {
    hide Init, Enabled, Apply, IsRun, DecidedInRun, Inv;
    var s := run[|steps|];
    TraceIsRun(run, steps, |steps|);
    assert run[..|steps| + 1] == run;
    RunInv(run);
    ReturnedHolds(s, i);
    forall t | t in s.poppedBy && s.poppedBy[t] == i ensures DecidedInRun(run, steps, |steps|, t) {
      EveryEndHasItsStep(run, steps, |steps|, t);
    }
  }

  lemma ReturnedHolds(s: State, i: nat)
    requires Inv(s) && i < |s.workers| && s.workers[i].pc.Returned?
    ensures s.workers[i].reservation == None
    ensures forall t :: t in s.poppedBy && s.poppedBy[t] == i ==>
              t in s.fate && (s.fate[t].Saved? ==> s.fate[t].task.status == Completed)
  {
  }

  /** Own steps left until a popped task is decided. */
  function StepsLeft(pc: PC): nat {
    match pc
    case Fetching(_) => 3
    case Running(_, _) => 2
    case Saving(_, _) => 1
    case _ => 0
  }

  function Actor(step: Step): Option<nat> {
    match step
    case Enqueue(_, _) => None
    case Expire(_) => None
    case Stop(_, _) => None
    case CtxDone(_) => None
    case _ => Some(step.i)
  }

  /** From s to s', at most worker i's program counter changes. */
  ghost predicate OnlyMoves(s: State, s': State, i: nat) {
    |s'.workers| == |s.workers| && forall j: nat :: j < |s.workers| && j != i ==> s'.workers[j].pc == s.workers[j].pc
  }

  lemma GiveUpOnlyMoves(s: State, i: nat, reason: DropReason, backoff: nat)
    requires i < |s.workers|
    ensures OnlyMoves(s, GiveUp(s, i, reason, backoff), i) && GiveUp(s, i, reason, backoff).queue == s.queue
  {
  }

  lemma StepOnlyMoves(s: State, step: Step)
    requires Enabled(s, step) && (step.Reserve? || step.Pop? || step.Fetch? || step.Save? || step.Panic?)
    ensures OnlyMoves(s, Apply(s, step), step.i)
  {
    hide GiveUp;
    match step
    case Reserve(i, a) => GiveUpOnlyMoves(s, i, FetchFailed, s.workers[i].backoff + 1);
    case Pop(i, a) => GiveUpOnlyMoves(s, i, FetchFailed, s.workers[i].backoff + 1);
    case Fetch(i, c) => GiveUpOnlyMoves(s, i, FetchFailed, s.workers[i].backoff + 1);
    case Save(i, a) => GiveUpOnlyMoves(s, i, SaveFailed, s.workers[i].backoff);
    case Panic(i) => GiveUpOnlyMoves(s, i, Panicked, s.workers[i].backoff);
  }

  /** Nobody but its worker, not even Stop, moves a popped task. */
  lemma OthersLeaveIt(s: State, step: Step, i: nat)
    requires Enabled(s, step) && i < |s.workers| && Actor(step) != Some(i)
    ensures i < |Apply(s, step).workers| && Apply(s, step).workers[i].pc == s.workers[i].pc
  {
    hide GiveUp, PopStep, SaveStep, FetchStep, ReserveStep;
    if step.Reserve? || step.Pop? || step.Fetch? || step.Save? || step.Panic? {
      StepOnlyMoves(s, step);
    }
  }

  /** A popped task is never held up by the limiter or by shutdown: every own step of its worker
      brings it closer to its end. */
  lemma PoppedGoesOn(s: State, step: Step, i: nat)
    requires Enabled(s, step) && i < |s.workers| && TicketOf(s.workers[i].pc).Some? && Actor(step) == Some(i)
    ensures var s' := Apply(s, step);
            && i < |s'.workers| && StepsLeft(s'.workers[i].pc) < StepsLeft(s.workers[i].pc)
            && (TicketOf(s'.workers[i].pc) == TicketOf(s.workers[i].pc) || TicketOf(s.workers[i].pc).value in s'.fate)
  {
    assert step.Fetch? || step.Execute? || step.Save? || step.Panic?;
  }

  // ---------------------------------------------------------------- reservations

  lemma OnlyPopTakes(s: State, step: Step)
    requires Enabled(s, step) && !step.Enqueue? && Apply(s, step).queue != s.queue
    ensures step.Pop? && step.i < |s.workers| && s.workers[step.i].pc.Popping?
  {
    hide GiveUp;
    if step.Reserve? || step.Fetch? || step.Save? || step.Panic? {
      GiveUpOnlyMoves(s, step.i, FetchFailed, s.workers[step.i].backoff + 1);
      GiveUpOnlyMoves(s, step.i, SaveFailed, s.workers[step.i].backoff);
      GiveUpOnlyMoves(s, step.i, Panicked, s.workers[step.i].backoff);
    }
  }

  /** Only a worker with a reservation takes from the list. */
  lemma ReserveBeforePop(s: State, step: Step)
    requires Reachable(s) && Enabled(s, step) && !step.Enqueue? && Apply(s, step).queue != s.queue
    ensures step.Pop? && s.workers[step.i].reservation.Some?
  {
    hide Reachable, Inv;
    OnlyPopTakes(s, step);
    hide Apply;
    HolderShape(s, step.i);
  }

  lemma HolderShape(s: State, i: nat)
    requires Reachable(s) && i < |s.workers|
    ensures s.workers[i].reservation.Some? <==> MayHold(s.workers[i].pc)
  {
    ReachableInv(s);
    assert LedgerOk(s);
  }

  /** Whoever leaves a wait because of shutdown holds neither a reservation nor a task, and the next select ends its loop. */
  lemma ShutdownHoldsNothing(s: State, step: Step)
    requires Reachable(s) && Enabled(s, step) && (step.WakeBackoff? || step.WakeLimited?) && step.byShutdown
    ensures var s' := Apply(s, step);
            && s'.workers[step.i].reservation == None && TicketOf(s'.workers[step.i].pc) == None
            && Enabled(s', Top(step.i)) && Apply(s', Top(step.i)).workers[step.i].pc == Returned
  {
    ReachableInv(s);
    assert LedgerOk(s);
    hide Reachable, Inv;
  }

  function HeldReservations(s: State, n: nat): set<nat>
    requires n <= |s.workers|
  {
    if n == 0 then {}
    else HeldReservations(s, n - 1) + (if s.workers[n - 1].reservation.Some? then {s.workers[n - 1].reservation.value} else {})
  }

  function Holders(s: State, n: nat): nat
    requires n <= |s.workers|
  {
    if n == 0 then 0 else Holders(s, n - 1) + (if s.workers[n - 1].reservation.Some? then 1 else 0)
  }

  lemma {:induction false} HeldMeansBy(s: State, n: nat, r: nat)
    requires n <= |s.workers|
    ensures r in HeldReservations(s, n) <==> exists j: nat :: j < n && HeldBy(s, j, r)
  {
    if n > 0 {
      HeldMeansBy(s, n - 1, r);
      if HeldBy(s, n - 1, r) {
        assert r in HeldReservations(s, n);
      }
    }
  }

  lemma {:induction false} HeldIsHolders(s: State, n: nat)
    requires LedgerOk(s) && n <= |s.workers|
    ensures |HeldReservations(s, n)| == Holders(s, n)
  {
    if n > 0 {
      HeldIsHolders(s, n - 1);
      if s.workers[n - 1].reservation.Some? {
        var r := s.workers[n - 1].reservation.value;
        assert HeldBy(s, n - 1, r);
        assert forall j: nat :: j < n - 1 ==> !HeldBy(s, j, r);
        HeldMeansBy(s, n - 1, r);
      }
    }
  }

  function Below(n: nat): set<nat> {
    if n == 0 then {} else Below(n - 1) + {n - 1}
  }

  lemma {:induction false} BelowSize(n: nat)
    ensures |Below(n)| == n
    ensures forall r: nat :: r in Below(n) <==> r < n
  {
    if n > 0 { BelowSize(n - 1); }
  }

  lemma FourParts(a: set<nat>, b: set<nat>, c: set<nat>, d: set<nat>, n: nat)
    requires a !! b && a !! c && b !! c && d !! a && d !! b && d !! c
    requires forall r: nat :: r < n <==> r in a || r in b || r in c || r in d
    ensures |a| + |b| + |c| + |d| == n
  {
    BelowSize(n);
    assert Below(n) == a + b + c + d;
    assert |a + b| == |a| + |b|;
    assert |a + b + c| == |a + b| + |c|;
    assert |a + b + c + d| == |a + b + c| + |d|;
  }

  lemma LedgerCovers(s: State, r: nat)
    requires LedgerOk(s)
    ensures var held := HeldReservations(s, |s.workers|);
            && (r < s.granted <==> r in s.cancelled || r in s.consumed || r in s.wasted || r in held)
            && (r in held ==> !(r in s.cancelled || r in s.consumed || r in s.wasted))
  {
    HeldMeansBy(s, |s.workers|, r);
    assert Closed(s, r) <==> r in s.cancelled || r in s.consumed || r in s.wasted;
    if r < s.granted && !Closed(s, r) {
      assert Held(s, r);
    }
  }

  /** The books balance: granted = cancelled + consumed by a task + wasted + still held. */
  lemma LedgerBalances(s: State)
    requires Reachable(s)
    ensures s.granted == |s.cancelled| + |s.consumed| + |s.wasted| + Holders(s, |s.workers|)
  {
    ReachableInv(s);
    assert LedgerOk(s);
    assert s.cancelled !! s.consumed && s.cancelled !! s.wasted && s.consumed !! s.wasted;
    hide Reachable, Inv, LedgerOk;
    var held := HeldReservations(s, |s.workers|);
    HeldIsHolders(s, |s.workers|);
    forall r: nat
      ensures r < s.granted <==> r in s.cancelled || r in s.consumed || r in s.wasted || r in held
      ensures r in held ==> !(r in s.cancelled || r in s.consumed || r in s.wasted)
    {
      LedgerCovers(s, r);
    }
    FourParts(s.cancelled, s.consumed, s.wasted, held, s.granted);
  }

  // ---------------------------------------------------------------- order

  /** The list holds the newest entry first. */
  ghost predicate NewestFirst(s: State) {
    && (forall j: nat :: j < |s.queue| ==> s.queue[j].ticket < s.tickets)
    && (forall j: nat, k: nat :: j < k < |s.queue| ==> s.queue[j].ticket > s.queue[k].ticket)
  }

  /** The list stays, grows at the head by a new ticket, or loses its tail. */
  ghost predicate QueueMoves(s: State, t: State) {
    || (t.queue == s.queue && t.tickets == s.tickets)
    || (t.tickets == s.tickets + 1 && |t.queue| == |s.queue| + 1 && t.queue[0].ticket == s.tickets && t.queue[1..] == s.queue)
    || (t.tickets == s.tickets && s.queue != [] && t.queue == s.queue[..|s.queue| - 1])
  }

  lemma GiveUpKeepsQueue(s: State, i: nat, reason: DropReason, backoff: nat)
    requires i < |s.workers|
    ensures GiveUp(s, i, reason, backoff).queue == s.queue && GiveUp(s, i, reason, backoff).tickets == s.tickets
  {
  }

  lemma PopMovesQueue(s: State, i: nat, a: PopAnswer)
    requires Enabled(s, Pop(i, a))
    ensures QueueMoves(s, PopStep(s, i, a))
  {
    hide GiveUp;
    GiveUpKeepsQueue(s, i, FetchFailed, s.workers[i].backoff + 1);
  }

  lemma StepMovesQueue(s: State, step: Step)
    requires Enabled(s, step)
    ensures QueueMoves(s, Apply(s, step))
  {
    hide CanFetch, KeyPending, InWork, GiveUp, PopStep;
    match step
    case Reserve(i, _) => GiveUpKeepsQueue(s, i, FetchFailed, s.workers[i].backoff + 1);
    case Pop(i, a) => PopMovesQueue(s, i, a);
    case Fetch(i, _) => GiveUpKeepsQueue(s, i, FetchFailed, s.workers[i].backoff + 1);
    case Save(i, _) => GiveUpKeepsQueue(s, i, SaveFailed, s.workers[i].backoff);
    case Panic(i) => GiveUpKeepsQueue(s, i, Panicked, s.workers[i].backoff);
    case _ =>
  }

  lemma {:induction false} RunIsNewestFirst(run: seq<State>)
    requires IsRun(run)
    ensures NewestFirst(run[|run| - 1])
  {
    hide Enabled, Apply;
    if |run| > 1 {
      RunIsNewestFirst(run[..|run| - 1]);
      assert Next(run[|run| - 2], run[|run| - 1]);
      var step :| Enabled(run[|run| - 2], step) && run[|run| - 1] == Apply(run[|run| - 2], step);
      StepMovesQueue(run[|run| - 2], step);
    }
  }

  /** First in, first out: the entry BRPOP takes is older than every other in the list. */
  lemma OldestIsPopped(s: State, j: nat)
    requires Reachable(s) && j < |s.queue| - 1
    ensures s.queue[|s.queue| - 1].ticket < s.queue[j].ticket
  {
    var run :| IsRun(run) && run[|run| - 1] == s;
    RunIsNewestFirst(run);
  }

  // ---------------------------------------------------------------- backoff

  /** Worker i failed to dequeue: limiter error, BRPOP error, or an item or task it could not read. */
  predicate FailsToDequeue(s: State, step: Step, i: nat) {
    match step
    case Reserve(j, a) => j == i && a.LimiterError?
    case Pop(j, a) => j == i && a.PopError?
    case Fetch(j, connected) =>
      j == i && i < |s.workers| && s.workers[i].pc.Fetching? && !(connected && CanFetch(s, s.workers[i].pc.entry.value))
    case _ => false
  }

  predicate Dequeues(s: State, step: Step, i: nat) {
    step.Fetch? && step.i == i && !FailsToDequeue(s, step, i)
  }

  lemma GiveUpBackoff(s: State, j: nat, reason: DropReason, backoff: nat, i: nat)
    requires j < |s.workers| && i < |s.workers|
    ensures |GiveUp(s, j, reason, backoff).workers| == |s.workers|
    ensures GiveUp(s, j, reason, backoff).workers[i].backoff == if i == j then backoff else s.workers[i].backoff
  {
  }

  lemma FetchBackoff(s: State, j: nat, connected: bool, i: nat)
    requires j < |s.workers| && s.workers[j].pc.Fetching? && i < |s.workers|
    ensures var s' := FetchStep(s, j, connected);
      && |s'.workers| == |s.workers|
      && s'.workers[i].backoff == if i != j then s.workers[i].backoff
           else if connected && CanFetch(s, s.workers[j].pc.entry.value) then 0 else s.workers[i].backoff + 1
  {
    hide CanFetch, GiveUp;
    GiveUpBackoff(s, j, FetchFailed, s.workers[j].backoff + 1, i);
  }

  lemma BackoffMoves(s: State, step: Step, i: nat)
    requires Enabled(s, step) && i < |s.workers|
    ensures |Apply(s, step).workers| == |s.workers|
    ensures Apply(s, step).workers[i].backoff ==
      if Dequeues(s, step, i) then 0
      else if FailsToDequeue(s, step, i) then s.workers[i].backoff + 1
      else s.workers[i].backoff
  {
    hide CanFetch, InWork, KeyPending, GiveUp, FetchStep;
    match step
    case Reserve(j, _) => GiveUpBackoff(s, j, FetchFailed, s.workers[j].backoff + 1, i);
    case Pop(j, _) => GiveUpBackoff(s, j, FetchFailed, s.workers[j].backoff + 1, i);
    case Fetch(j, connected) => FetchBackoff(s, j, connected, i);
    case Save(j, _) => GiveUpBackoff(s, j, SaveFailed, s.workers[j].backoff, i);
    case Panic(j) => GiveUpBackoff(s, j, Panicked, s.workers[j].backoff, i);
    case _ =>
  }

  /** Failed dequeues of worker i since its last successful one, before step k. */
  function FailureStreak(run: seq<State>, steps: seq<Step>, k: nat, i: nat): nat
    requires |run| == |steps| + 1 && k <= |steps|
  {
    if k == 0 then 0
    else if Dequeues(run[k - 1], steps[k - 1], i) then 0
    else FailureStreak(run, steps, k - 1, i) + (if FailsToDequeue(run[k - 1], steps[k - 1], i) then 1 else 0)
  }

  /** In every run the backoff counter is the number of failed dequeues since the last successful one;
      nothing that happens to the task afterwards, and no other worker, changes it. */
  lemma {:induction false} BackoffCountsFailures(run: seq<State>, steps: seq<Step>, k: nat, i: nat)
    requires IsTrace(run, steps) && k <= |steps| && i < |run[0].workers|
    ensures |run[k].workers| == |run[0].workers|
    ensures run[k].workers[i].backoff == FailureStreak(run, steps, k, i)
  {
    hide Apply, Enabled, Dequeues, FailsToDequeue;
    if k > 0 {
      BackoffCountsFailures(run, steps, k - 1, i);
      BackoffMoves(run[k - 1], steps[k - 1], i);
    }
  }

  // ---------------------------------------------------------------- the limiter in use

  /** How LimiterGlobal.Reserve turns its storage's answer into the consumer's three results:
      a storage failure becomes "neither", never an error. */
  datatype StorageAnswer = Conforming | NotConforming | StorageError

  function GlobalReserve(enabled: bool, storage: StorageAnswer): LimiterAnswer {
    if !enabled then Granted
    else match storage
      case StorageError => Neither
      case Conforming => Granted
      case NotConforming => Denied
  }

  /** So with the global limiter the consumer's error branch is dead: a storage failure does not increment the
      backoff or leave work, it makes the worker ask again. */
  lemma StorageErrorAsksAgain(s: State, i: nat, enabled: bool, storage: StorageAnswer)
    requires Enabled(s, Reserve(i, GlobalReserve(enabled, storage)))
    ensures var w := Apply(s, Reserve(i, GlobalReserve(enabled, storage))).workers[i];
            && w.backoff == s.workers[i].backoff && !w.pc.Loop?
            && (w.pc.Limited? <==> enabled && !storage.Conforming?)
            && (w.pc.Popping? <==> w.reservation == Some(s.granted) && (enabled ==> storage.Conforming?))
  {
  }
}
