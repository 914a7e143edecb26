/**
 The redis task queue consumers (pkg/redisqueue/consumer.go) as a step system.

 Any number of consumers share one FIFO list, one task store and one rate limiter.
 A step is one atomic action: one redis command, one limiter call, one select, one
 channel close.  Between two steps of a worker every other worker, every producer and
 every caller of Stop may act.

 Three bookkeeping fields have no counterpart in the program and are only written:
 each list entry carries a ticket, each reservation a number, and `fate`, `runs` and
 `poppedBy` remember what became of them.
 */
module TaskQueue {
  import opened Wrappers

  datatype TaskKey = TaskKey(appID: string, taskID: string)

  datatype Status = Pending | Completed

  datatype Task = Task(id: string, appID: string, status: Status, input: string, output: string, error: Option<string>,
    completedAt: Option<int>)
  {
    function Key(): TaskKey { TaskKey(appID, id) }
  }

  /** What redis holds under a task key: JSON of a task, or bytes that do not decode. */
  datatype Stored = Record(task: Task) | Corrupt(bytes: string)

  /** What the list holds: JSON of a queue item, or bytes that do not decode. */
  datatype QueueValue = QueueItem(key: TaskKey) | Malformed(bytes: string)

  datatype Entry = Entry(ticket: nat, value: QueueValue)

  /** Why a popped entry was given up. */
  datatype DropReason = ConnectionLost | FetchFailed | SaveFailed | Panicked

  datatype Fate = Saved(task: Task) | Dropped(reason: DropReason)

  /** Where a worker stands inside Start0 and work. */
  datatype PC =
    | Loop                                // at the select of Start0
    | BackedOff                           // waiting out the dequeue backoff
    | Reserving                           // about to call limiter.Reserve
    | Limited                             // waiting for the time to act
    | Popping                             // about to BRPOP
    | Cancelling                          // BRPOP timed out
    | Fetching(entry: Entry)              // popped, about to GET and decode
    | Running(ticket: nat, task: Task)    // about to execute
    | Saving(ticket: nat, task: Task)     // executed, about to marshal and SET
    | Returned                            // shutdownDone is closed

  datatype Worker = Worker(pc: PC, backoff: nat, reservation: Option<nat>, stop: bool, ctxDone: bool)

  datatype State = State(
    queue: seq<Entry>,
    store: map<TaskKey, Stored>,
    workers: seq<Worker>,
    granted: nat,
    cancelled: set<nat>,
    consumed: set<nat>,
    wasted: set<nat>,
    tickets: nat,
    fate: map<nat, Fate>,
    runs: seq<nat>,
    poppedBy: map<nat, nat>)

  /** The limiter's three results: reservation, failed reservation, error.  `Neither` is
      "no reservation, no failed reservation, no error", which the global limiter returns
      when its storage fails. */
  datatype LimiterAnswer = Granted | Denied | Neither | LimiterError

  datatype PopAnswer = Popped | TimedOut | PopError(lost: bool)

  /** `ran` is false when the app context could not be resolved, so the processor was never called;
      `now` is the clock when it is over. */
  datatype Outcome = Outcome(ran: bool, output: string, error: Option<string>, now: int)

  datatype SaveAnswer = SaveOk | MarshalError | SetError(applied: bool)

  datatype Step =
    | Enqueue(value: QueueValue, record: Stored)
    | Expire(key: TaskKey)
    | Stop(i: nat, done: bool)
    | CtxDone(i: nat)
    | Top(i: nat)
    | WakeBackoff(i: nat, byShutdown: bool)
    | Reserve(i: nat, limiter: LimiterAnswer)
    | WakeLimited(i: nat, byShutdown: bool)
    | Pop(i: nat, popped: PopAnswer)
    | Cancel(i: nat)
    | Fetch(i: nat, connected: bool)
    | Execute(i: nat, outcome: Outcome)
    | Save(i: nat, saved: SaveAnswer)
    | Panic(i: nat)

  // ---------------------------------------------------------------- what a worker holds

  function TicketOf(pc: PC): Option<nat> {
    match pc
    case Fetching(e) => Some(e.ticket)
    case Running(t, _) => Some(t)
    case Saving(t, _) => Some(t)
    case _ => None
  }

  function KeyOfValue(v: QueueValue): Option<TaskKey> {
    if v.QueueItem? then Some(v.key) else None
  }

  function KeyOf(pc: PC): Option<TaskKey> {
    match pc
    case Fetching(e) => KeyOfValue(e.value)
    case Running(_, t) => Some(t.Key())
    case Saving(_, t) => Some(t.Key())
    case _ => None
  }

  predicate MayHold(pc: PC) { pc.Popping? || pc.Cancelling? || pc.Fetching? }

  /** Inside work, where the deferred recover applies. */
  predicate InWork(pc: PC) { !pc.Loop? && !pc.Returned? }

  predicate InFlight(s: State, ticket: nat) {
    exists i: nat :: i < |s.workers| && TicketOf(s.workers[i].pc) == Some(ticket)
  }

  predicate Queued(s: State, ticket: nat) {
    exists j: nat :: j < |s.queue| && s.queue[j].ticket == ticket
  }

  predicate KeyPending(s: State, key: TaskKey) {
    || (exists i: nat :: i < |s.workers| && KeyOf(s.workers[i].pc) == Some(key))
    || (exists j: nat :: j < |s.queue| && KeyOfValue(s.queue[j].value) == Some(key))
  }

  // ---------------------------------------------------------------- steps

  /** The fields execute's caller writes on the task: status, time, output, and the error only if there is one. */
  function Complete(t: Task, o: Outcome): Task {
    t.(status := Completed, completedAt := Some(o.now), output := o.output, error := if o.error.Some? then o.error else t.error)
  }

  /** `r` is `t` with the result of an execution on it: the output and the time are the outcome's, the error is the
      outcome's if it has one and else stays, and nothing else changes but the status. */
  predicate HasResult(t: Task, o: Outcome, r: Task) {
    && r.id == t.id && r.appID == t.appID && r.input == t.input
    && r.status == Completed && r.output == o.output && r.completedAt == Some(o.now)
    && (o.error.Some? ==> r.error == o.error) && (o.error.None? ==> r.error == t.error)
  }

  lemma CompleteHasResult(t: Task, o: Outcome)
    ensures forall r: Task :: HasResult(t, o, r) <==> r == Complete(t, o)
  {
  }

  predicate CanFetch(s: State, v: QueueValue) {
    v.QueueItem? && v.key in s.store && s.store[v.key].Record?
  }

  function SetWorker(s: State, i: nat, w: Worker): State
    requires i < |s.workers|
  {
    s.(workers := s.workers[i := w])
  }

  /** Producer.EnqueueTask: SETNX the task, LPUSH the item. */
  function Push(s: State, v: QueueValue, r: Stored): State {
    s.(queue := [Entry(s.tickets, v)] + s.queue,
       tickets := s.tickets + 1,
       store := if v.QueueItem? && v.key !in s.store then s.store[v.key := r] else s.store)
  }

  function Grant(s: State, i: nat): State
    requires i < |s.workers|
  {
    SetWorker(s, i, s.workers[i].(pc := Popping, reservation := Some(s.granted))).(granted := s.granted + 1)
  }

  /** BRPOP takes the tail of the list. */
  function Take(s: State, i: nat): State
    requires i < |s.workers| && s.queue != []
  {
    var e := s.queue[|s.queue| - 1];
    SetWorker(s, i, s.workers[i].(pc := Fetching(e))).(queue := s.queue[..|s.queue| - 1], poppedBy := s.poppedBy[e.ticket := i])
  }

  /** The tail left the list but its reply never arrived. */
  function LoseTail(s: State): State
    requires s.queue != []
  {
    s.(queue := s.queue[..|s.queue| - 1], fate := s.fate[s.queue[|s.queue| - 1].ticket := Dropped(ConnectionLost)])
  }

  function CancelHeld(s: State, i: nat): State
    requires i < |s.workers|
  {
    var w := s.workers[i];
    var s1 := SetWorker(s, i, w.(pc := Loop, reservation := None));
    if w.reservation.Some? then s1.(cancelled := s.cancelled + {w.reservation.value}) else s1
  }

  /** The task was fetched: the reservation is consumed and the backoff reset. */
  function Load(s: State, i: nat): State
    requires i < |s.workers| && s.workers[i].pc.Fetching? && CanFetch(s, s.workers[i].pc.entry.value)
  {
    var w := s.workers[i];
    var task := s.store[w.pc.entry.value.key].task;
    var s1 := SetWorker(s, i, w.(pc := Running(w.pc.entry.ticket, task), reservation := None, backoff := 0));
    if w.reservation.Some? then s1.(consumed := s.consumed + {w.reservation.value}) else s1
  }

  function Ran(s: State, i: nat, o: Outcome): State
    requires i < |s.workers| && s.workers[i].pc.Running?
  {
    var w := s.workers[i];
    var s1 := SetWorker(s, i, w.(pc := Saving(w.pc.ticket, Complete(w.pc.task, o))));
    if o.ran then s1.(runs := s.runs + [w.pc.ticket]) else s1
  }

  function Write(s: State, i: nat): State
    requires i < |s.workers| && s.workers[i].pc.Saving?
  {
    var w := s.workers[i];
    SetWorker(s, i, w.(pc := Loop)).(
      store := s.store[w.pc.task.Key() := Record(w.pc.task)],
      fate := s.fate[w.pc.ticket := Saved(w.pc.task)])
  }

  /** Worker i gives up what it holds and goes back to the loop. */
  function GiveUp(s: State, i: nat, reason: DropReason, backoff: nat): State
    requires i < |s.workers|
  {
    var w := s.workers[i];
    var s1 := SetWorker(s, i, w.(pc := Loop, reservation := None, backoff := backoff));
    var s2 := if w.reservation.Some? then s1.(wasted := s1.wasted + {w.reservation.value}) else s1;
    if TicketOf(w.pc).Some? then s2.(fate := s2.fate[TicketOf(w.pc).value := Dropped(reason)]) else s2
  }

  predicate Enabled(s: State, step: Step) {
    match step
    case Enqueue(v, r) =>
      v.QueueItem? ==> !KeyPending(s, v.key) && (r.Record? ==> r.task.Key() == v.key)
    case Expire(key) => key in s.store
    case Stop(i, _) => i < |s.workers| && !s.workers[i].stop
    case CtxDone(i) => i < |s.workers|
    case Top(i) => i < |s.workers| && s.workers[i].pc.Loop?
    case WakeBackoff(i, byShutdown) =>
      i < |s.workers| && s.workers[i].pc.BackedOff? && (byShutdown ==> s.workers[i].stop)
    case Reserve(i, _) => i < |s.workers| && s.workers[i].pc.Reserving?
    case WakeLimited(i, byShutdown) =>
      i < |s.workers| && s.workers[i].pc.Limited? && (byShutdown ==> s.workers[i].stop)
    case Pop(i, a) =>
      && i < |s.workers| && s.workers[i].pc.Popping?
      && (a.Popped? ==> s.queue != [])
      && (a.TimedOut? ==> s.queue == [])
      && (a.PopError? && a.lost ==> s.queue != [])
    case Cancel(i) => i < |s.workers| && s.workers[i].pc.Cancelling?
    case Fetch(i, _) => i < |s.workers| && s.workers[i].pc.Fetching?
    case Execute(i, _) => i < |s.workers| && s.workers[i].pc.Running?
    case Save(i, _) => i < |s.workers| && s.workers[i].pc.Saving?
    case Panic(i) => i < |s.workers| && InWork(s.workers[i].pc)
  }

  function ReserveStep(s: State, i: nat, a: LimiterAnswer): State
    requires i < |s.workers|
  {
    if a.Granted? then Grant(s, i)
    else if a.LimiterError? then GiveUp(s, i, FetchFailed, s.workers[i].backoff + 1)
    else SetWorker(s, i, s.workers[i].(pc := Limited))
  }

  function PopStep(s: State, i: nat, a: PopAnswer): State
    requires Enabled(s, Pop(i, a))
  {
    match a
    case TimedOut => SetWorker(s, i, s.workers[i].(pc := Cancelling))
    case Popped => Take(s, i)
    case PopError(lost) =>
      var s1 := GiveUp(s, i, FetchFailed, s.workers[i].backoff + 1);
      if lost then LoseTail(s1) else s1
  }

  function FetchStep(s: State, i: nat, connected: bool): State
    requires i < |s.workers| && s.workers[i].pc.Fetching?
  {
    if connected && CanFetch(s, s.workers[i].pc.entry.value) then Load(s, i)
    else GiveUp(s, i, FetchFailed, s.workers[i].backoff + 1)
  }

  function SaveStep(s: State, i: nat, a: SaveAnswer): State
    requires i < |s.workers| && s.workers[i].pc.Saving?
  {
    if a.SaveOk? || (a.SetError? && a.applied) then Write(s, i)
    else GiveUp(s, i, SaveFailed, s.workers[i].backoff)
  }

  function Apply(s: State, step: Step): State
    requires Enabled(s, step)
  {
    match step
    case Enqueue(v, r) => Push(s, v, r)
    case Expire(key) => s.(store := s.store - {key})
    // Stop0: replace shutdownCtx, close shutdown.
    case Stop(i, done) => SetWorker(s, i, s.workers[i].(stop := true, ctxDone := done))
    case CtxDone(i) => SetWorker(s, i, s.workers[i].(ctxDone := true))
    // The select of Start0, then the backoff test at the head of work.
    case Top(i) =>
      var w := s.workers[i];
      SetWorker(s, i, w.(pc := if w.stop || w.ctxDone then Returned else if w.backoff != 0 then BackedOff else Reserving))
    case WakeBackoff(i, byShutdown) =>
      SetWorker(s, i, s.workers[i].(pc := if byShutdown then Loop else Reserving))
    case Reserve(i, a) => ReserveStep(s, i, a)
    case WakeLimited(i, byShutdown) =>
      SetWorker(s, i, s.workers[i].(pc := if byShutdown then Loop else Reserving))
    case Pop(i, a) => PopStep(s, i, a)
    case Cancel(i) => CancelHeld(s, i)
    case Fetch(i, connected) => FetchStep(s, i, connected)
    case Execute(i, o) => Ran(s, i, o)
    case Save(i, a) => SaveStep(s, i, a)
    case Panic(i) => GiveUp(s, i, Panicked, s.workers[i].backoff)
  }

  predicate Init(s: State) {
    && s.queue == [] && s.store == map[] && s.tickets == 0 && s.granted == 0
    && s.cancelled == {} && s.consumed == {} && s.wasted == {}
    && s.fate == map[] && s.runs == [] && s.poppedBy == map[]
    && forall i | 0 <= i < |s.workers| :: s.workers[i] == Worker(Loop, 0, None, false, s.workers[i].ctxDone)
  }

  ghost predicate Next(s: State, s': State) {
    exists step :: Enabled(s, step) && s' == Apply(s, step)
  }

  /** A finite run of the whole system. */
  ghost predicate IsRun(run: seq<State>) {
    && |run| > 0 && Init(run[0])
    && forall k | 0 <= k < |run| - 1 :: Next(run[k], run[k + 1])
  }

  ghost predicate Reachable(s: State) {
    exists run :: IsRun(run) && run[|run| - 1] == s
  }

  // ---------------------------------------------------------------- invariants

  /** Every ticket is in exactly one place: queued, in flight with one worker, or decided. */
  ghost predicate TicketsOk(s: State) {
    && (forall j: nat :: j < |s.queue| ==> s.queue[j].ticket < s.tickets && s.queue[j].ticket !in s.fate)
    && (forall j: nat, k: nat :: j < k < |s.queue| ==> s.queue[j].ticket != s.queue[k].ticket)
    && (forall i: nat :: i < |s.workers| && TicketOf(s.workers[i].pc).Some? ==>
          var t := TicketOf(s.workers[i].pc).value; t < s.tickets && t !in s.fate && !Queued(s, t))
    && (forall i: nat, j: nat :: i < j < |s.workers| && TicketOf(s.workers[i].pc).Some? ==>
          TicketOf(s.workers[i].pc) != TicketOf(s.workers[j].pc))
    && (forall t :: t in s.fate ==> t < s.tickets)
    && (forall t: nat :: t < s.tickets ==> Queued(s, t) || InFlight(s, t) || t in s.fate)
  }

  /** No two pending tasks share a key. */
  ghost predicate KeysOk(s: State) {
    && (forall j: nat, k: nat :: j < k < |s.queue| && KeyOfValue(s.queue[j].value).Some? ==>
          KeyOfValue(s.queue[j].value) != KeyOfValue(s.queue[k].value))
    && (forall i: nat, j: nat :: i < |s.workers| && j < |s.queue| && KeyOf(s.workers[i].pc).Some? ==>
          KeyOf(s.workers[i].pc) != KeyOfValue(s.queue[j].value))
    && (forall i: nat, j: nat :: i < j < |s.workers| && KeyOf(s.workers[i].pc).Some? ==>
          KeyOf(s.workers[i].pc) != KeyOf(s.workers[j].pc))
  }

  ghost predicate StoreOk(s: State) {
    forall k :: k in s.store && s.store[k].Record? ==> s.store[k].task.Key() == k
  }

  ghost predicate HeldBy(s: State, i: nat, r: nat) {
    i < |s.workers| && s.workers[i].reservation == Some(r)
  }

  ghost predicate Held(s: State, r: nat) {
    exists i: nat :: HeldBy(s, i, r)
  }

  ghost predicate Closed(s: State, r: nat) {
    r in s.cancelled || r in s.consumed || r in s.wasted
  }

  /** Every granted reservation is cancelled, consumed, wasted, or held by exactly one worker. */
  ghost predicate LedgerOk(s: State) {
    && (forall i: nat :: i < |s.workers| ==> (s.workers[i].reservation.Some? <==> MayHold(s.workers[i].pc)))
    && (forall i: nat, r: nat :: HeldBy(s, i, r) ==> r < s.granted && !Closed(s, r))
    && (forall i: nat, j: nat, r: nat :: i < j && HeldBy(s, i, r) ==> !HeldBy(s, j, r))
    && s.cancelled !! s.consumed && s.cancelled !! s.wasted && s.consumed !! s.wasted
    && (forall r: nat :: Closed(s, r) ==> r < s.granted)
    && (forall r: nat :: r < s.granted ==> Closed(s, r) || Held(s, r))
  }

  ghost predicate Settled(s: State, t: nat) {
    t in s.fate || exists i: nat :: i < |s.workers| && s.workers[i].pc.Saving? && s.workers[i].pc.ticket == t
  }

  /** A ticket runs at most once, and only before its task is saved or dropped. */
  ghost predicate RunsOk(s: State) {
    && (forall a: nat, b: nat :: a < b < |s.runs| ==> s.runs[a] != s.runs[b])
    && (forall a: nat :: a < |s.runs| ==> Settled(s, s.runs[a]))
  }

  /** What a worker popped is still in its hands or decided. */
  ghost predicate PoppedOk(s: State) {
    forall t :: t in s.poppedBy ==>
      && s.poppedBy[t] < |s.workers|
      && (t in s.fate || TicketOf(s.workers[s.poppedBy[t]].pc) == Some(t))
  }

  ghost predicate SavedOk(s: State) {
    && (forall i: nat :: i < |s.workers| && s.workers[i].pc.Saving? ==> s.workers[i].pc.task.status == Completed)
    && (forall t :: t in s.fate && s.fate[t].Saved? ==> s.fate[t].task.status == Completed)
  }

  ghost predicate Inv(s: State) {
    TicketsOk(s) && KeysOk(s) && StoreOk(s) && LedgerOk(s) && RunsOk(s) && PoppedOk(s) && SavedOk(s)
  }

  // ---------------------------------------------------------------- how one group of facts moves

  /** Every worker keeps its ticket. */
  lemma SameTickets(s: State, s': State)
    requires TicketsOk(s) && PoppedOk(s) && |s'.workers| == |s.workers|
    requires s'.queue == s.queue && s'.tickets == s.tickets && s'.fate == s.fate && s'.poppedBy == s.poppedBy
    requires forall j: nat :: j < |s.workers| ==> TicketOf(s'.workers[j].pc) == TicketOf(s.workers[j].pc)
    ensures TicketsOk(s') && PoppedOk(s')
  {
    assert forall t: nat :: Queued(s, t) <==> Queued(s', t);
    forall t: nat | InFlight(s, t) ensures InFlight(s', t) {
      var j: nat :| j < |s.workers| && TicketOf(s.workers[j].pc) == Some(t);
      assert TicketOf(s'.workers[j].pc) == Some(t);
    }
  }

  lemma StaysSettled(s: State, s': State, t: nat)
    requires Settled(s, t) && |s'.workers| == |s.workers| && s.fate.Keys <= s'.fate.Keys
    requires forall j: nat :: j < |s.workers| && s.workers[j].pc.Saving? ==>
               s'.workers[j].pc == s.workers[j].pc || s.workers[j].pc.ticket in s'.fate
    ensures Settled(s', t)
  {
    if t !in s.fate {
      var j: nat :| j < |s.workers| && s.workers[j].pc.Saving? && s.workers[j].pc.ticket == t;
      assert s'.workers[j].pc == s.workers[j].pc || t in s'.fate;
    }
  }

  /** No new run. */
  lemma SameRuns(s: State, s': State)
    requires RunsOk(s) && |s'.workers| == |s.workers| && s.fate.Keys <= s'.fate.Keys && s'.runs == s.runs
    requires forall j: nat :: j < |s.workers| && s.workers[j].pc.Saving? ==>
               s'.workers[j].pc == s.workers[j].pc || s.workers[j].pc.ticket in s'.fate
    ensures RunsOk(s')
  {
    forall a: nat | a < |s'.runs| ensures Settled(s', s'.runs[a]) { StaysSettled(s, s', s.runs[a]); }
  }

  /** Worker i's ticket, if it has one, is decided. */
  lemma DecidedTicket(s: State, s': State, i: nat)
    requires TicketsOk(s) && PoppedOk(s) && i < |s.workers| && |s'.workers| == |s.workers|
    requires s'.queue == s.queue && s'.tickets == s.tickets && s'.poppedBy == s.poppedBy
    requires TicketOf(s'.workers[i].pc) == None
    requires forall j: nat :: j < |s.workers| && j != i ==> s'.workers[j] == s.workers[j]
    requires s'.fate.Keys == s.fate.Keys + (if TicketOf(s.workers[i].pc).Some? then {TicketOf(s.workers[i].pc).value} else {})
    ensures TicketsOk(s') && PoppedOk(s')
  {
    assert forall t: nat :: Queued(s, t) <==> Queued(s', t);
    forall t: nat | InFlight(s, t) ensures InFlight(s', t) || t in s'.fate {
      var j: nat :| j < |s.workers| && TicketOf(s.workers[j].pc) == Some(t);
      if j != i { assert TicketOf(s'.workers[j].pc) == Some(t); }
    }
    assert forall j: nat :: j < |s.queue| ==> Queued(s, s.queue[j].ticket);
  }

  /** The queue keeps its entries or loses the tail, and no worker gains a key. */
  lemma FewerKeys(s: State, s': State)
    requires KeysOk(s) && |s'.workers| == |s.workers| && s'.queue <= s.queue
    requires forall j: nat :: j < |s.workers| ==>
               KeyOf(s'.workers[j].pc) == KeyOf(s.workers[j].pc) || KeyOf(s'.workers[j].pc) == None
    ensures KeysOk(s')
  {
  }

  lemma SameLedger(s: State, s': State)
    requires LedgerOk(s) && |s'.workers| == |s.workers| && s'.granted == s.granted
    requires s'.cancelled == s.cancelled && s'.consumed == s.consumed && s'.wasted == s.wasted
    requires forall j: nat :: j < |s.workers| ==>
               s'.workers[j].reservation == s.workers[j].reservation && MayHold(s'.workers[j].pc) == MayHold(s.workers[j].pc)
    ensures LedgerOk(s')
  {
    forall j: nat, r: nat ensures HeldBy(s', j, r) <==> HeldBy(s, j, r) {}
    forall r: nat ensures Closed(s', r) <==> Closed(s, r) {}
    forall r: nat | Held(s, r) ensures Held(s', r) {
      var j: nat :| HeldBy(s, j, r);
      assert HeldBy(s', j, r);
    }
  }

  /** Worker i lets go of its reservation into one of the three closed accounts. */
  lemma ReleasedLedger(s: State, s': State, i: nat)
    requires LedgerOk(s) && i < |s.workers| && |s'.workers| == |s.workers| && s'.granted == s.granted
    requires s'.workers[i].reservation == None && !MayHold(s'.workers[i].pc)
    requires forall j: nat :: j < |s.workers| && j != i ==> s'.workers[j] == s.workers[j]
    requires var own := if s.workers[i].reservation.Some? then {s.workers[i].reservation.value} else {};
             || (s'.cancelled == s.cancelled + own && s'.consumed == s.consumed && s'.wasted == s.wasted)
             || (s'.cancelled == s.cancelled && s'.consumed == s.consumed + own && s'.wasted == s.wasted)
             || (s'.cancelled == s.cancelled && s'.consumed == s.consumed && s'.wasted == s.wasted + own)
    ensures LedgerOk(s')
  {
    var own := if s.workers[i].reservation.Some? then {s.workers[i].reservation.value} else {};
    forall n: nat | n in own ensures HeldBy(s, i, n) {}
    forall n: nat ensures Closed(s', n) <==> Closed(s, n) || n in own {}
    forall j: nat, n: nat | HeldBy(s', j, n) ensures HeldBy(s, j, n) && j != i && n !in own {
      assert HeldBy(s, j, n);
    }
    forall n: nat | Held(s, n) ensures Held(s', n) || Closed(s', n) {
      var j: nat :| HeldBy(s, j, n);
      if j != i { assert HeldBy(s', j, n); }
    }
  }

  // ---------------------------------------------------------------- each kind of change keeps the invariant

  /** A worker changes nothing it holds. */
  lemma QuietInv(s: State, i: nat, w: Worker)
    requires Inv(s) && i < |s.workers|
    requires w.reservation == s.workers[i].reservation && MayHold(w.pc) == MayHold(s.workers[i].pc)
    requires w.pc == s.workers[i].pc || (TicketOf(w.pc) == TicketOf(s.workers[i].pc) == None && KeyOf(w.pc) == None)
    ensures Inv(SetWorker(s, i, w))
  {
    var s' := SetWorker(s, i, w);
    SameTickets(s, s');
    SameRuns(s, s');
    FewerKeys(s, s');
    SameLedger(s, s');
  }

  lemma PushTickets(s: State, v: QueueValue, r: Stored)
    requires TicketsOk(s) && PoppedOk(s)
    ensures var s' := Push(s, v, r); TicketsOk(s') && PoppedOk(s')
  {
    var s' := Push(s, v, r);
    assert s'.queue[0].ticket == s.tickets;
    forall j: nat | 0 < j < |s'.queue| ensures s'.queue[j] == s.queue[j - 1] {}
    forall t: nat | Queued(s, t) ensures Queued(s', t) {
      var j: nat :| j < |s.queue| && s.queue[j].ticket == t;
      assert s'.queue[j + 1].ticket == t;
    }
    forall t: nat | Queued(s', t) ensures Queued(s, t) || t == s.tickets {
      var j: nat :| j < |s'.queue| && s'.queue[j].ticket == t;
      if j > 0 { assert s.queue[j - 1].ticket == t; }
    }
    forall t: nat | InFlight(s, t) ensures InFlight(s', t) {
      var j: nat :| j < |s.workers| && TicketOf(s.workers[j].pc) == Some(t);
      assert TicketOf(s'.workers[j].pc) == Some(t);
    }
  }

  lemma PushKeys(s: State, v: QueueValue, r: Stored)
    requires KeysOk(s) && Enabled(s, Enqueue(v, r))
    ensures KeysOk(Push(s, v, r))
  {
    var s' := Push(s, v, r);
    forall j: nat | 0 < j < |s'.queue| ensures s'.queue[j] == s.queue[j - 1] {}
    assert s'.queue[0].value == v;
    if v.QueueItem? {
      assert forall j: nat :: j < |s.queue| ==> KeyOfValue(s.queue[j].value) != Some(v.key);
      assert forall j: nat :: j < |s.workers| ==> KeyOf(s.workers[j].pc) != Some(v.key);
    }
  }

  lemma PushInv(s: State, v: QueueValue, r: Stored)
    requires Inv(s) && Enabled(s, Enqueue(v, r))
    ensures Inv(Push(s, v, r))
  {
    hide KeysOk;
    var s' := Push(s, v, r);
    PushTickets(s, v, r);
    SameRuns(s, s');
    SameLedger(s, s');
    PushKeys(s, v, r);
  }

  lemma ExpireInv(s: State, key: TaskKey)
    requires Inv(s)
    ensures Inv(s.(store := s.store - {key}))
  {
    var s' := s.(store := s.store - {key});
    SameTickets(s, s');
    SameRuns(s, s');
    FewerKeys(s, s');
    SameLedger(s, s');
  }

  lemma GrantLedger(s: State, i: nat)
    requires LedgerOk(s) && i < |s.workers| && s.workers[i].pc.Reserving?
    ensures LedgerOk(Grant(s, i))
  {
    var s' := Grant(s, i);
    forall n: nat ensures Closed(s', n) <==> Closed(s, n) {}
    forall j: nat, n: nat ensures HeldBy(s', j, n) <==> HeldBy(s, j, n) || (j == i && n == s.granted) {}
    forall n: nat | Held(s, n) ensures Held(s', n) {
      var j: nat :| HeldBy(s, j, n);
      assert HeldBy(s', j, n);
    }
    assert HeldBy(s', i, s.granted);
    assert Held(s', s.granted);
  }

  lemma GrantInv(s: State, i: nat)
    requires Inv(s) && i < |s.workers| && s.workers[i].pc.Reserving?
    ensures Inv(Grant(s, i))
  {
    var s' := Grant(s, i);
    SameTickets(s, s');
    SameRuns(s, s');
    FewerKeys(s, s');
    GrantLedger(s, i);
  }

  lemma TailQueued(s: State, t: nat)
    requires s.queue != []
    ensures var q := s.queue[..|s.queue| - 1];
            Queued(s, t) <==> Queued(s.(queue := q), t) || t == s.queue[|s.queue| - 1].ticket
  {
    var s' := s.(queue := s.queue[..|s.queue| - 1]);
    if Queued(s, t) {
      var j: nat :| j < |s.queue| && s.queue[j].ticket == t;
      if j < |s'.queue| { assert s'.queue[j].ticket == t; }
    }
    if Queued(s', t) {
      var j: nat :| j < |s'.queue| && s'.queue[j].ticket == t;
      assert s.queue[j].ticket == t;
    }
  }

  /** The tail's ticket leaves the queue and is either decided or in the hands of worker i, who had none. */
  lemma TailTickets(s: State, s': State, i: nat)
    requires TicketsOk(s) && PoppedOk(s) && s.queue != [] && |s'.workers| == |s.workers|
    requires s'.queue == s.queue[..|s.queue| - 1] && s'.tickets == s.tickets
    requires forall j: nat :: j < |s.workers| && j != i ==> s'.workers[j] == s.workers[j]
    requires i < |s.workers| && TicketOf(s.workers[i].pc) == None
    requires var t := s.queue[|s.queue| - 1].ticket;
             || (s'.fate.Keys == s.fate.Keys + {t} && s'.poppedBy == s.poppedBy && TicketOf(s'.workers[i].pc) == None)
             || (s'.fate == s.fate && s'.poppedBy == s.poppedBy[t := i] && TicketOf(s'.workers[i].pc) == Some(t))
    ensures TicketsOk(s') && PoppedOk(s')
  {
    var tail := s.queue[|s.queue| - 1].ticket;
    assert Queued(s, tail);
    forall t: nat ensures Queued(s, t) <==> Queued(s', t) || t == tail {
      TailQueued(s, t);
      assert Queued(s.(queue := s'.queue), t) <==> Queued(s', t);
    }
    forall t: nat | InFlight(s, t) ensures InFlight(s', t) {
      var j: nat :| j < |s.workers| && TicketOf(s.workers[j].pc) == Some(t);
      assert s'.workers[j] == s.workers[j];
    }
    assert TicketOf(s'.workers[i].pc) == Some(tail) ==> InFlight(s', tail);
  }

  lemma TakeInv(s: State, i: nat)
    requires Inv(s) && i < |s.workers| && s.workers[i].pc.Popping? && s.queue != []
    ensures Inv(Take(s, i))
  {
    var s' := Take(s, i);
    TailTickets(s, s', i);
    SameRuns(s, s');
    SameLedger(s, s');
  }

  lemma LoseTailInv(s: State, i: nat)
    requires Inv(s) && s.queue != [] && i < |s.workers| && TicketOf(s.workers[i].pc) == None
    ensures Inv(LoseTail(s))
  {
    var s' := LoseTail(s);
    TailTickets(s, s', i);
    SameRuns(s, s');
    FewerKeys(s, s');
    SameLedger(s, s');
  }

  lemma GiveUpFacts(s: State, i: nat, reason: DropReason, backoff: nat)
    requires i < |s.workers|
    ensures var s' := GiveUp(s, i, reason, backoff);
            && s'.workers == s.workers[i := s.workers[i].(pc := Loop, reservation := None, backoff := backoff)]
            && s'.queue == s.queue && s'.store == s.store && s'.tickets == s.tickets && s'.runs == s.runs
            && s'.poppedBy == s.poppedBy && s'.granted == s.granted
            && s'.cancelled == s.cancelled && s'.consumed == s.consumed
            && s'.wasted == s.wasted + (if s.workers[i].reservation.Some? then {s.workers[i].reservation.value} else {})
            && s'.fate.Keys == s.fate.Keys + (if TicketOf(s.workers[i].pc).Some? then {TicketOf(s.workers[i].pc).value} else {})
            && (forall t :: t in s'.fate && s'.fate[t].Saved? ==> t in s.fate && s'.fate[t] == s.fate[t])
  {
  }

  lemma GiveUpInv(s: State, i: nat, reason: DropReason, backoff: nat)
    requires Inv(s) && i < |s.workers|
    ensures Inv(GiveUp(s, i, reason, backoff))
  {
    var s' := GiveUp(s, i, reason, backoff);
    GiveUpFacts(s, i, reason, backoff);
    hide GiveUp;
    DecidedTicket(s, s', i);
    SameRuns(s, s');
    FewerKeys(s, s');
    ReleasedLedger(s, s', i);
    assert SavedOk(s');
  }

  lemma CancelInv(s: State, i: nat)
    requires Inv(s) && i < |s.workers| && s.workers[i].pc.Cancelling?
    ensures Inv(CancelHeld(s, i))
  {
    var s' := CancelHeld(s, i);
    DecidedTicket(s, s', i);
    SameRuns(s, s');
    FewerKeys(s, s');
    ReleasedLedger(s, s', i);
  }

  lemma WriteInv(s: State, i: nat)
    requires Inv(s) && i < |s.workers| && s.workers[i].pc.Saving?
    ensures Inv(Write(s, i))
  {
    var s' := Write(s, i);
    DecidedTicket(s, s', i);
    SameRuns(s, s');
    FewerKeys(s, s');
    SameLedger(s, s');
  }

  lemma LoadInv(s: State, i: nat)
    requires Inv(s) && i < |s.workers| && s.workers[i].pc.Fetching? && CanFetch(s, s.workers[i].pc.entry.value)
    ensures Inv(Load(s, i))
  {
    var s' := Load(s, i);
    SameTickets(s, s');
    SameRuns(s, s');
    FewerKeys(s, s');
    ReleasedLedger(s, s', i);
  }

  /** The task of worker i has not run before. */
  lemma NotYetRun(s: State, i: nat)
    requires TicketsOk(s) && RunsOk(s) && i < |s.workers| && s.workers[i].pc.Running?
    ensures !Settled(s, s.workers[i].pc.ticket)
  {
    var own := s.workers[i].pc.ticket;
    assert TicketOf(s.workers[i].pc) == Some(own);
    forall j: nat | j < |s.workers| && s.workers[j].pc.Saving? ensures s.workers[j].pc.ticket != own {
      assert TicketOf(s.workers[j].pc) == Some(s.workers[j].pc.ticket);
    }
  }

  lemma RanRuns(s: State, i: nat, o: Outcome)
    requires TicketsOk(s) && RunsOk(s) && i < |s.workers| && s.workers[i].pc.Running?
    ensures RunsOk(Ran(s, i, o))
  {
    var s' := Ran(s, i, o);
    NotYetRun(s, i);
    forall a: nat | a < |s.runs| ensures Settled(s', s.runs[a]) { StaysSettled(s, s', s.runs[a]); }
    assert s'.workers[i].pc.Saving? && s'.workers[i].pc.ticket == s.workers[i].pc.ticket;
    assert Settled(s', s.workers[i].pc.ticket);
  }

  lemma RanInv(s: State, i: nat, o: Outcome)
    requires Inv(s) && i < |s.workers| && s.workers[i].pc.Running?
    ensures Inv(Ran(s, i, o))
  {
    var s' := Ran(s, i, o);
    SameTickets(s, s');
    RanRuns(s, i, o);
    FewerKeys(s, s');
    SameLedger(s, s');
  }

  lemma InitInv(s: State)
    requires Init(s)
    ensures Inv(s)
  {
  }

  lemma PopInv(s: State, i: nat, a: PopAnswer)
    requires Inv(s) && Enabled(s, Pop(i, a))
    ensures Inv(Apply(s, Pop(i, a)))
  {
    hide Inv;
    match a
    case Popped => TakeInv(s, i);
    case TimedOut => QuietInv(s, i, s.workers[i].(pc := Cancelling));
    case PopError(lost) =>
      GiveUpInv(s, i, FetchFailed, s.workers[i].backoff + 1);
      if lost { LoseTailInv(GiveUp(s, i, FetchFailed, s.workers[i].backoff + 1), i); }
  }

  lemma ReserveInv(s: State, i: nat, a: LimiterAnswer)
    requires Inv(s) && Enabled(s, Reserve(i, a))
    ensures Inv(Apply(s, Reserve(i, a)))
  {
    hide Inv;
    match a
    case Granted => GrantInv(s, i);
    case LimiterError => GiveUpInv(s, i, FetchFailed, s.workers[i].backoff + 1);
    case _ => QuietInv(s, i, s.workers[i].(pc := Limited));
  }

  lemma FetchInv(s: State, i: nat, connected: bool)
    requires Inv(s) && Enabled(s, Fetch(i, connected))
    ensures Inv(Apply(s, Fetch(i, connected)))
  {
    hide Inv;
    if connected && CanFetch(s, s.workers[i].pc.entry.value) { LoadInv(s, i); }
    else { GiveUpInv(s, i, FetchFailed, s.workers[i].backoff + 1); }
  }

  lemma SaveInv(s: State, i: nat, a: SaveAnswer)
    requires Inv(s) && Enabled(s, Save(i, a))
    ensures Inv(Apply(s, Save(i, a)))
  {
    hide Inv;
    if a.SaveOk? || (a.SetError? && a.applied) { WriteInv(s, i); }
    else { GiveUpInv(s, i, SaveFailed, s.workers[i].backoff); }
  }

  /** Steps that only move a worker's program counter or flags. */
  lemma MoveInv(s: State, step: Step)
    requires Inv(s) && Enabled(s, step)
    requires step.Stop? || step.CtxDone? || step.Top? || step.WakeBackoff? || step.WakeLimited?
    ensures Inv(Apply(s, step))
  {
    hide Inv;
    QuietInv(s, step.i, Apply(s, step).workers[step.i]);
  }

  lemma StepInv(s: State, step: Step)
    requires Inv(s) && Enabled(s, step)
    ensures Inv(Apply(s, step))
  {
    hide Inv;
    match step
    case Enqueue(v, r) => PushInv(s, v, r);
    case Expire(key) => ExpireInv(s, key);
    case Reserve(i, a) => ReserveInv(s, i, a);
    case Pop(i, a) => PopInv(s, i, a);
    case Cancel(i) => CancelInv(s, i);
    case Fetch(i, connected) => FetchInv(s, i, connected);
    case Execute(i, o) => RanInv(s, i, o);
    case Save(i, a) => SaveInv(s, i, a);
    case Panic(i) => GiveUpInv(s, i, Panicked, s.workers[i].backoff);
    case _ => MoveInv(s, step);
  }

  lemma {:induction false} RunInv(run: seq<State>)
    requires IsRun(run)
    ensures Inv(run[|run| - 1])
  {
    if |run| == 1 {
      InitInv(run[0]);
    } else {
      var before := run[..|run| - 1];
      RunInv(before);
      assert Next(run[|run| - 2], run[|run| - 1]);
      var step :| Enabled(run[|run| - 2], step) && run[|run| - 1] == Apply(run[|run| - 2], step);
      StepInv(run[|run| - 2], step);
    }
  }
}
