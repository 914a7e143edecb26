/**
 What the consumers add up to: a server that takes the tail of the list, runs the task
 and stores it completed, all in one indivisible step, or drops it for a stated reason.

 Every run of the consumers is matched step by step by a run of this server that serves the
 tasks in the order in which they were popped.  Tasks that are still in flight have been served
 already, with whatever end the rest of the run may give them.
 */
module TaskQueueServer {
  import opened Wrappers
  import opened TaskQueue

  datatype Server = Server(queue: seq<Entry>, store: map<TaskKey, Stored>, tickets: nat, fate: map<nat, Fate>)

  /** `r` is the task `t` with the result of some execution on it. */
  ghost predicate IsCompletion(t: Task, r: Task) {
    exists o: Outcome :: HasResult(t, o, r)
  }

  function Pushed(a: Server, v: QueueValue, r: Stored): Server {
    a.(queue := [Entry(a.tickets, v)] + a.queue,
       tickets := a.tickets + 1,
       store := if v.QueueItem? && v.key !in a.store then a.store[v.key := r] else a.store)
  }

  ghost predicate Enqueues(a: Server, a': Server) {
    exists v: QueueValue, r: Stored :: a' == Pushed(a, v, r)
  }

  ghost predicate Expires(a: Server, a': Server) {
    exists key :: a' == a.(store := a.store - {key})
  }

  /** Pop the tail, run it, store it completed. */
  ghost predicate ServesTo(a: Server, a': Server, done: Task) {
    && a.queue != []
    && var e := a.queue[|a.queue| - 1];
    && e.value.QueueItem? && e.value.key in a.store && a.store[e.value.key].Record?
    && IsCompletion(a.store[e.value.key].task, done)
    && a' == a.(queue := a.queue[..|a.queue| - 1],
                store := a.store[e.value.key := Record(done)],
                fate := a.fate[e.ticket := Saved(done)])
  }

  ghost predicate Drops(a: Server, a': Server, reason: DropReason) {
    && a.queue != []
    && a' == a.(queue := a.queue[..|a.queue| - 1], fate := a.fate[a.queue[|a.queue| - 1].ticket := Dropped(reason)])
  }

  ghost predicate ServerNext(a: Server, a': Server) {
    || Enqueues(a, a')
    || Expires(a, a')
    || (exists done :: ServesTo(a, a', done))
    || (exists reason :: Drops(a, a', reason))
  }

  ghost predicate IsServerRun(run: seq<Server>) {
    && |run| > 0 && run[0] == Server([], map[], 0, map[])
    && forall k | 0 <= k < |run| - 1 :: ServerNext(run[k], run[k + 1])
  }

  ghost predicate ServerReachable(a: Server) {
    exists run :: IsServerRun(run) && run[|run| - 1] == a
  }

  // ---------------------------------------------------------------- resolving what is in flight

  /** An end that the task in worker i's hands can still come to: stored as `done`. */
  ghost predicate MaySave(s: State, i: nat, done: Task)
    requires i < |s.workers|
  {
    match s.workers[i].pc
    case Fetching(e) => CanFetch(s, e.value) && IsCompletion(s.store[e.value.key].task, done)
    case Running(_, t) => IsCompletion(t, done)
    case Saving(_, t) => done == t
    case _ => false
  }

  /** Worker i's task ends as `ends` says, and `saves` agrees. */
  ghost predicate Ends(s: State, i: nat, ends: map<nat, Fate>, saves: map<TaskKey, Stored>)
    requires i < |s.workers| && TicketOf(s.workers[i].pc).Some?
  {
    var t, key := TicketOf(s.workers[i].pc).value, KeyOf(s.workers[i].pc);
    && t in ends
    && (ends[t].Saved? ==> MaySave(s, i, ends[t].task) && key.Some? && key.value in saves && saves[key.value] == Record(ends[t].task))
    && (ends[t].Dropped? && key.Some? ==> key.value !in saves)
  }

  ghost predicate PendingKey(s: State, key: TaskKey) {
    exists i: nat :: i < |s.workers| && KeyOf(s.workers[i].pc) == Some(key)
  }

  /** `ends` gives every ticket in flight an end it can still come to; `saves` is what will then be stored. */
  ghost predicate Resolves(s: State, ends: map<nat, Fate>, saves: map<TaskKey, Stored>) {
    && (forall t: nat :: t in ends ==> InFlight(s, t))
    && (forall key :: key in saves ==> PendingKey(s, key))
    && (forall i: nat :: i < |s.workers| && TicketOf(s.workers[i].pc).Some? ==> Ends(s, i, ends, saves))
  }

  function Resolved(s: State, ends: map<nat, Fate>, saves: map<TaskKey, Stored>): Server {
    Server(s.queue, s.store + saves, s.tickets, s.fate + ends)
  }

  /** One server step or none. */
  ghost predicate Moves(a: Server, a': Server) { a' == a || ServerNext(a, a') }

  /** The tasks in flight before can end so that the server gets from there to this end in one move. */
  ghost predicate Matches(s: State, s': State, ends: map<nat, Fate>, saves: map<TaskKey, Stored>) {
    exists ends0: map<nat, Fate>, saves0: map<TaskKey, Stored> ::
      Resolves(s, ends0, saves0) && Moves(Resolved(s, ends0, saves0), Resolved(s', ends, saves))
  }

  /** Whatever ends the tasks in flight after the step come to, the server made one move or none. */
  ghost predicate Simulates(s: State, s': State) {
    forall ends: map<nat, Fate>, saves: map<TaskKey, Stored> :: Resolves(s', ends, saves) ==> Matches(s, s', ends, saves)
  }

  // ---------------------------------------------------------------- one step

  /** No worker's ticket or key changes, and what may still happen to a task has not grown. */
  ghost predicate Stutters(s: State, s': State) {
    && |s'.workers| == |s.workers|
    && (forall i: nat :: i < |s.workers| ==>
          TicketOf(s'.workers[i].pc) == TicketOf(s.workers[i].pc) && KeyOf(s'.workers[i].pc) == KeyOf(s.workers[i].pc))
    && (forall i: nat, done :: i < |s.workers| && MaySave(s', i, done) ==> MaySave(s, i, done))
  }

  lemma StutterResolves(s: State, s': State, ends: map<nat, Fate>, saves: map<TaskKey, Stored>)
    requires Stutters(s, s') && Resolves(s', ends, saves)
    ensures Resolves(s, ends, saves)
  {
    hide MaySave, TicketOf, KeyOf;
    forall t: nat | t in ends ensures InFlight(s, t) {
      var i: nat :| i < |s'.workers| && TicketOf(s'.workers[i].pc) == Some(t);
      assert TicketOf(s.workers[i].pc) == Some(t);
    }
    forall key | key in saves ensures PendingKey(s, key) {
      var i: nat :| i < |s'.workers| && KeyOf(s'.workers[i].pc) == Some(key);
      assert KeyOf(s.workers[i].pc) == Some(key);
    }
    forall i: nat | i < |s.workers| && TicketOf(s.workers[i].pc).Some? ensures Ends(s, i, ends, saves) {
      assert Ends(s', i, ends, saves);
    }
  }

  lemma StutterSimulates(s: State, s': State)
    requires Stutters(s, s')
    requires s'.queue == s.queue && s'.store == s.store && s'.tickets == s.tickets && s'.fate == s.fate
    ensures Simulates(s, s')
  {
    hide Stutters, Resolves, ServerNext;
    forall ends: map<nat, Fate>, saves: map<TaskKey, Stored> | Resolves(s', ends, saves) ensures Matches(s, s', ends, saves) {
      StutterResolves(s, s', ends, saves);
      assert Moves(Resolved(s, ends, saves), Resolved(s', ends, saves));
    }
  }

  lemma StutterFirst(s: State, s1: State, s2: State)
    requires Stutters(s, s1) && Simulates(s1, s2)
    requires s1.queue == s.queue && s1.store == s.store && s1.tickets == s.tickets && s1.fate == s.fate
    ensures Simulates(s, s2)
  {
    hide Stutters, Resolves, ServerNext;
    forall ends: map<nat, Fate>, saves: map<TaskKey, Stored> | Resolves(s2, ends, saves) ensures Matches(s, s2, ends, saves) {
      assert Matches(s1, s2, ends, saves);
      var ends0, saves0 :| Resolves(s1, ends0, saves0) && Moves(Resolved(s1, ends0, saves0), Resolved(s2, ends, saves));
      StutterResolves(s, s1, ends0, saves0);
      assert Moves(Resolved(s, ends0, saves0), Resolved(s2, ends, saves));
    }
  }

  lemma PushServer(s: State, v: QueueValue, r: Stored, ends: map<nat, Fate>, saves: map<TaskKey, Stored>)
    requires v.QueueItem? ==> v.key !in saves
    ensures ServerNext(Resolved(s, ends, saves), Resolved(Push(s, v, r), ends, saves))
  {
    var a, a' := Resolved(s, ends, saves), Resolved(Push(s, v, r), ends, saves);
    assert a'.store == Pushed(a, v, r).store;
    assert a' == Pushed(a, v, r);
    assert Enqueues(a, a');
  }

  lemma PushResolves(s: State, v: QueueValue, r: Stored, ends: map<nat, Fate>, saves: map<TaskKey, Stored>)
    requires Enabled(s, Enqueue(v, r)) && Resolves(Push(s, v, r), ends, saves)
    ensures Resolves(s, ends, saves) && (v.QueueItem? ==> v.key !in saves)
  {
    var s' := Push(s, v, r);
    forall i: nat, done | i < |s.workers| && MaySave(s', i, done) ensures MaySave(s, i, done) {
      if s.workers[i].pc.Fetching? {
        assert KeyOf(s.workers[i].pc) == Some(s.workers[i].pc.entry.value.key);
      }
    }
    StutterResolves(s, s', ends, saves);
    if v.QueueItem? {
      assert !PendingKey(s, v.key);
    }
  }

  lemma PushSimulates(s: State, v: QueueValue, r: Stored)
    requires Enabled(s, Enqueue(v, r))
    ensures Simulates(s, Push(s, v, r))
  {
    hide Resolves, ServerNext, Resolved;
    var s' := Push(s, v, r);
    forall ends: map<nat, Fate>, saves: map<TaskKey, Stored> | Resolves(s', ends, saves) ensures Matches(s, s', ends, saves) {
      PushResolves(s, v, r, ends, saves);
      PushServer(s, v, r, ends, saves);
      assert Moves(Resolved(s, ends, saves), Resolved(s', ends, saves));
    }
  }

  lemma ExpireServer(s: State, key: TaskKey, ends: map<nat, Fate>, saves: map<TaskKey, Stored>)
    ensures var a, a' := Resolved(s, ends, saves), Resolved(s.(store := s.store - {key}), ends, saves);
            a' == a || ServerNext(a, a')
  {
    var a, a' := Resolved(s, ends, saves), Resolved(s.(store := s.store - {key}), ends, saves);
    if key in saves {
      assert a'.store == a.store;
    } else {
      assert a'.store == a.store - {key};
      assert Expires(a, a');
    }
  }

  lemma ExpireResolves(s: State, key: TaskKey, ends: map<nat, Fate>, saves: map<TaskKey, Stored>)
    requires Resolves(s.(store := s.store - {key}), ends, saves)
    ensures Resolves(s, ends, saves)
  {
    var s' := s.(store := s.store - {key});
    hide Resolves, IsCompletion;
    forall i: nat, done | i < |s.workers| && MaySave(s', i, done) ensures MaySave(s, i, done) {}
    StutterResolves(s, s', ends, saves);
  }

  lemma ExpireSimulates(s: State, key: TaskKey)
    ensures Simulates(s, s.(store := s.store - {key}))
  {
    hide Resolves, ServerNext, Resolved;
    var s' := s.(store := s.store - {key});
    forall ends: map<nat, Fate>, saves: map<TaskKey, Stored> | Resolves(s', ends, saves) ensures Matches(s, s', ends, saves) {
      ExpireResolves(s, key, ends, saves);
      ExpireServer(s, key, ends, saves);
      assert Moves(Resolved(s, ends, saves), Resolved(s', ends, saves));
    }
  }

  /** Without worker i's ticket and key, the ends of the others resolve the state before. */
  lemma OthersResolve(s: State, s': State, i: nat, ends: map<nat, Fate>, saves: map<TaskKey, Stored>)
    requires TicketsOk(s') && KeysOk(s') && i < |s.workers| && |s'.workers| == |s.workers|
    requires TicketOf(s.workers[i].pc) == None && KeyOf(s.workers[i].pc) == None && TicketOf(s'.workers[i].pc).Some?
    requires s'.store == s.store && forall j: nat :: j < |s.workers| && j != i ==> s'.workers[j] == s.workers[j]
    requires Resolves(s', ends, saves)
    ensures var t, key := TicketOf(s'.workers[i].pc).value, KeyOf(s'.workers[i].pc);
            Resolves(s, ends - {t}, if key.Some? then saves - {key.value} else saves)
  {
    var t, key := TicketOf(s'.workers[i].pc).value, KeyOf(s'.workers[i].pc);
    var ends0, saves0 := ends - {t}, if key.Some? then saves - {key.value} else saves;
    forall u: nat | u in ends0 ensures InFlight(s, u) {
      var j: nat :| j < |s'.workers| && TicketOf(s'.workers[j].pc) == Some(u);
      assert s'.workers[j] == s.workers[j];
    }
    forall k | k in saves0 ensures PendingKey(s, k) {
      var j: nat :| j < |s'.workers| && KeyOf(s'.workers[j].pc) == Some(k);
      assert s'.workers[j] == s.workers[j];
    }
    hide Ends;
    forall j: nat | j < |s.workers| && TicketOf(s.workers[j].pc).Some? ensures Ends(s, j, ends0, saves0) {
      assert Ends(s', j, ends, saves);
      assert s'.workers[j] == s.workers[j];
      assert TicketOf(s'.workers[j].pc) != TicketOf(s'.workers[i].pc);
      assert KeyOf(s'.workers[j].pc).Some? ==> KeyOf(s'.workers[j].pc) != key;
      EndsWithout(s, s', j, ends, saves, t, key);
    }
  }

  /** The end of one worker's task does not depend on the end of another's. */
  lemma EndsWithout(s: State, s': State, j: nat, ends: map<nat, Fate>, saves: map<TaskKey, Stored>, t: nat, key: Option<TaskKey>)
    requires j < |s.workers| && j < |s'.workers| && s'.workers[j] == s.workers[j] && s'.store == s.store
    requires TicketOf(s.workers[j].pc).Some? && TicketOf(s.workers[j].pc) != Some(t)
    requires KeyOf(s.workers[j].pc).Some? ==> KeyOf(s.workers[j].pc) != key
    requires Ends(s', j, ends, saves)
    ensures Ends(s, j, ends - {t}, if key.Some? then saves - {key.value} else saves)
  {
  }

  lemma TakeServes(s: State, i: nat, ends: map<nat, Fate>, saves: map<TaskKey, Stored>, done: Task)
    requires i < |s.workers| && s.queue != []
    requires var e := s.queue[|s.queue| - 1];
             && e.ticket in ends && ends[e.ticket] == Saved(done)
             && CanFetch(s, e.value) && IsCompletion(s.store[e.value.key].task, done)
             && e.value.key in saves && saves[e.value.key] == Record(done)
    ensures var e := s.queue[|s.queue| - 1];
            ServerNext(Resolved(s, ends - {e.ticket}, saves - {e.value.key}), Resolved(Take(s, i), ends, saves))
  {
    var e := s.queue[|s.queue| - 1];
    var a, a' := Resolved(s, ends - {e.ticket}, saves - {e.value.key}), Resolved(Take(s, i), ends, saves);
    hide IsCompletion;
    assert a'.fate == a.fate[e.ticket := Saved(done)];
    assert a'.store == a.store[e.value.key := Record(done)];
    assert ServesTo(a, a', done);
  }

  lemma TakeDrops(s: State, i: nat, ends: map<nat, Fate>, saves: map<TaskKey, Stored>, reason: DropReason)
    requires i < |s.workers| && s.queue != []
    requires s.queue[|s.queue| - 1].ticket in ends && ends[s.queue[|s.queue| - 1].ticket] == Dropped(reason)
    ensures ServerNext(Resolved(s, ends - {s.queue[|s.queue| - 1].ticket}, saves), Resolved(Take(s, i), ends, saves))
  {
    var e := s.queue[|s.queue| - 1];
    var a, a' := Resolved(s, ends - {e.ticket}, saves), Resolved(Take(s, i), ends, saves);
    assert a'.fate == a.fate[e.ticket := Dropped(reason)];
    assert Drops(a, a', reason);
  }

  lemma TakeResolves(s: State, i: nat, ends: map<nat, Fate>, saves: map<TaskKey, Stored>)
    requires i < |s.workers| && s.workers[i].pc.Popping? && s.queue != []
    requires TicketsOk(Take(s, i)) && KeysOk(Take(s, i)) && Resolves(Take(s, i), ends, saves)
    ensures var e := s.queue[|s.queue| - 1];
            && Resolves(s, ends - {e.ticket}, if e.value.QueueItem? then saves - {e.value.key} else saves)
            && e.ticket in ends
            && (ends[e.ticket].Saved? ==>
                  && CanFetch(s, e.value) && IsCompletion(s.store[e.value.key].task, ends[e.ticket].task)
                  && e.value.key in saves && saves[e.value.key] == Record(ends[e.ticket].task))
            && (ends[e.ticket].Dropped? && e.value.QueueItem? ==> e.value.key !in saves)
  {
    OthersResolve(s, Take(s, i), i, ends, saves);
    assert Ends(Take(s, i), i, ends, saves);
  }

  lemma TakeMatches(s: State, i: nat, ends: map<nat, Fate>, saves: map<TaskKey, Stored>)
    requires i < |s.workers| && s.workers[i].pc.Popping? && s.queue != []
    requires TicketsOk(Take(s, i)) && KeysOk(Take(s, i)) && Resolves(Take(s, i), ends, saves)
    ensures Matches(s, Take(s, i), ends, saves)
  {
    hide TicketsOk, KeysOk, Resolves, ServerNext, Resolved, IsCompletion;
    TakeResolves(s, i, ends, saves);
    var e := s.queue[|s.queue| - 1];
    var saves0 := if e.value.QueueItem? then saves - {e.value.key} else saves;
    match ends[e.ticket] {
      case Saved(done) => TakeServes(s, i, ends, saves, done);
      case Dropped(reason) =>
        assert saves0 == saves;
        TakeDrops(s, i, ends, saves, reason);
    }
    assert Moves(Resolved(s, ends - {e.ticket}, saves0), Resolved(Take(s, i), ends, saves));
  }

  lemma TakeSimulates(s: State, i: nat)
    requires Inv(s) && i < |s.workers| && s.workers[i].pc.Popping? && s.queue != []
    ensures Simulates(s, Take(s, i))
  {
    TakeInv(s, i);
    assert TicketsOk(Take(s, i)) && KeysOk(Take(s, i));
    hide Inv, TicketsOk, KeysOk, Resolves, Matches;
    var s' := Take(s, i);
    forall ends: map<nat, Fate>, saves: map<TaskKey, Stored> | Resolves(s', ends, saves) ensures Matches(s, s', ends, saves) {
      TakeMatches(s, i, ends, saves);
    }
  }

  lemma LoseTailServer(s: State, ends: map<nat, Fate>, saves: map<TaskKey, Stored>)
    requires s.queue != [] && s.queue[|s.queue| - 1].ticket !in ends
    ensures ServerNext(Resolved(s, ends, saves), Resolved(LoseTail(s), ends, saves))
  {
    var a, a' := Resolved(s, ends, saves), Resolved(LoseTail(s), ends, saves);
    assert a'.fate == a.fate[s.queue[|s.queue| - 1].ticket := Dropped(ConnectionLost)];
    assert Drops(a, a', ConnectionLost);
  }

  lemma LoseTailResolves(s: State, ends: map<nat, Fate>, saves: map<TaskKey, Stored>)
    requires TicketsOk(s) && s.queue != [] && Resolves(LoseTail(s), ends, saves)
    ensures Resolves(s, ends, saves) && s.queue[|s.queue| - 1].ticket !in ends
  {
    var s' := LoseTail(s);
    StutterResolves(s, s', ends, saves);
    assert Queued(s, s.queue[|s.queue| - 1].ticket);
    assert !InFlight(s, s.queue[|s.queue| - 1].ticket);
  }

  lemma LoseTailSimulates(s: State)
    requires Inv(s) && s.queue != []
    ensures Simulates(s, LoseTail(s))
  {
    var s' := LoseTail(s);
    assert TicketsOk(s);
    hide Inv, TicketsOk, Resolves, ServerNext, Resolved;
    forall ends: map<nat, Fate>, saves: map<TaskKey, Stored> | Resolves(s', ends, saves) ensures Matches(s, s', ends, saves) {
      LoseTailResolves(s, ends, saves);
      LoseTailServer(s, ends, saves);
      assert Moves(Resolved(s, ends, saves), Resolved(s', ends, saves));
    }
  }

  /** Worker i's task came to `end`, and the task store agrees. */
  ghost predicate Ended(s: State, s': State, i: nat, end: Fate) {
    && i < |s.workers| && |s'.workers| == |s.workers|
    && TicketOf(s.workers[i].pc).Some? && TicketOf(s'.workers[i].pc) == None && KeyOf(s'.workers[i].pc) == None
    && (forall j: nat :: j < |s.workers| && j != i ==> s'.workers[j] == s.workers[j])
    && (end.Saved? ==> && s.workers[i].pc.Saving? && end.task == s.workers[i].pc.task
                       && s'.store == s.store[end.task.Key() := Record(end.task)])
    && (end.Dropped? ==> s'.store == s.store)
  }

  lemma EndFresh(s: State, s': State, i: nat, end: Fate, ends: map<nat, Fate>, saves: map<TaskKey, Stored>)
    requires TicketsOk(s) && KeysOk(s) && Ended(s, s', i, end) && Resolves(s', ends, saves)
    ensures TicketOf(s.workers[i].pc).value !in ends
    ensures forall t: nat | t in ends :: InFlight(s, t)
    ensures KeyOf(s.workers[i].pc).Some? ==> KeyOf(s.workers[i].pc).value !in saves
    ensures forall key | key in saves :: PendingKey(s, key)
  {
    hide MaySave, TicketOf, KeyOf, Ends;
    var t, key := TicketOf(s.workers[i].pc).value, KeyOf(s.workers[i].pc);
    forall u: nat | u in ends ensures u != t && InFlight(s, u) {
      var j: nat :| j < |s'.workers| && TicketOf(s'.workers[j].pc) == Some(u);
      assert s'.workers[j] == s.workers[j] && TicketOf(s.workers[j].pc) != TicketOf(s.workers[i].pc);
    }
    forall k | k in saves ensures key != Some(k) && PendingKey(s, k) {
      var j: nat :| j < |s'.workers| && KeyOf(s'.workers[j].pc) == Some(k);
      assert s'.workers[j] == s.workers[j] && KeyOf(s.workers[j].pc) != KeyOf(s.workers[i].pc);
    }
  }

  lemma OtherMaySave(s: State, s': State, i: nat, j: nat, end: Fate, done: Task)
    requires Ended(s, s', i, end) && j < |s.workers| && j != i && MaySave(s', j, done)
    requires KeyOf(s.workers[j].pc).Some? ==> KeyOf(s.workers[j].pc) != KeyOf(s.workers[i].pc)
    ensures MaySave(s, j, done)
  {
    hide IsCompletion;
    assert s'.workers[j] == s.workers[j];
  }

  lemma Distinct(s: State, i: nat, j: nat)
    requires TicketsOk(s) && KeysOk(s) && i < |s.workers| && j < |s.workers| && j != i
    ensures TicketOf(s.workers[j].pc).Some? ==> TicketOf(s.workers[j].pc) != TicketOf(s.workers[i].pc)
    ensures KeyOf(s.workers[j].pc).Some? ==> KeyOf(s.workers[j].pc) != KeyOf(s.workers[i].pc)
  {
  }

  lemma OtherEnds(s: State, s': State, i: nat, j: nat, end: Fate, ends: map<nat, Fate>, saves: map<TaskKey, Stored>)
    requires TicketsOk(s) && KeysOk(s) && Ended(s, s', i, end)
    requires j < |s.workers| && j != i && TicketOf(s.workers[j].pc).Some?
    requires TicketOf(s'.workers[j].pc).Some? ==> Ends(s', j, ends, saves)
    ensures Ends(s, j, ends[TicketOf(s.workers[i].pc).value := end],
                 if end.Saved? then saves[end.task.Key() := Record(end.task)] else saves)
  {
    Distinct(s, i, j);
    assert s'.workers[j] == s.workers[j];
    hide TicketsOk, KeysOk, MaySave;
    var t := TicketOf(s.workers[j].pc).value;
    if ends[t].Saved? { OtherMaySave(s, s', i, j, end, ends[t].task); }
  }

  lemma OwnEnd(s: State, s': State, i: nat, end: Fate, ends: map<nat, Fate>, saves: map<TaskKey, Stored>)
    requires TicketsOk(s) && KeysOk(s) && Ended(s, s', i, end) && Resolves(s', ends, saves)
    ensures Ends(s, i, ends[TicketOf(s.workers[i].pc).value := end],
                 if end.Saved? then saves[end.task.Key() := Record(end.task)] else saves)
    ensures end.Saved? ==> PendingKey(s, end.task.Key())
    ensures InFlight(s, TicketOf(s.workers[i].pc).value)
  {
    EndFresh(s, s', i, end, ends, saves);
    hide TicketsOk, KeysOk, Resolves, IsCompletion;
    assert end.Saved? ==> KeyOf(s.workers[i].pc) == Some(end.task.Key());
  }

  lemma EndResolves(s: State, s': State, i: nat, end: Fate, ends: map<nat, Fate>, saves: map<TaskKey, Stored>)
    requires TicketsOk(s) && KeysOk(s) && Ended(s, s', i, end) && Resolves(s', ends, saves)
    ensures Resolves(s, ends[TicketOf(s.workers[i].pc).value := end],
                     if end.Saved? then saves[end.task.Key() := Record(end.task)] else saves)
  {
    var t := TicketOf(s.workers[i].pc).value;
    var ends0, saves0 := ends[t := end], if end.Saved? then saves[end.task.Key() := Record(end.task)] else saves;
    hide TicketsOk, KeysOk, Ended, Ends, KeyOf, PendingKey, InFlight;
    EndFresh(s, s', i, end, ends, saves);
    OwnEnd(s, s', i, end, ends, saves);
    forall j: nat | j < |s.workers| && TicketOf(s.workers[j].pc).Some? ensures Ends(s, j, ends0, saves0) {
      if j != i { OtherEnds(s, s', i, j, end, ends, saves); }
    }
  }

  lemma EndServer(s: State, s': State, i: nat, end: Fate, ends: map<nat, Fate>, saves: map<TaskKey, Stored>)
    requires Ended(s, s', i, end) && s'.queue == s.queue && s'.tickets == s.tickets
    requires s'.fate == s.fate[TicketOf(s.workers[i].pc).value := end]
    requires TicketOf(s.workers[i].pc).value !in ends && (end.Saved? ==> end.task.Key() !in saves)
    ensures Resolved(s', ends, saves) == Resolved(s, ends[TicketOf(s.workers[i].pc).value := end],
                                                  if end.Saved? then saves[end.task.Key() := Record(end.task)] else saves)
  {
    var t := TicketOf(s.workers[i].pc).value;
    hide Ended;
    assert s'.fate + ends == s.fate + ends[t := end];
    if end.Saved? {
      assert Ended(s, s', i, end);
      SavedStore(s, s', i, end);
      assert s'.store + saves == s.store + saves[end.task.Key() := Record(end.task)];
    } else {
      SavedStore(s, s', i, end);
    }
  }

  lemma SavedStore(s: State, s': State, i: nat, end: Fate)
    requires Ended(s, s', i, end)
    ensures s'.store == if end.Saved? then s.store[end.task.Key() := Record(end.task)] else s.store
  {
  }

  lemma EndSimulates(s: State, s': State, i: nat, end: Fate)
    requires TicketsOk(s) && KeysOk(s) && Ended(s, s', i, end)
    requires s'.queue == s.queue && s'.tickets == s.tickets
    requires s'.fate == s.fate[TicketOf(s.workers[i].pc).value := end]
    ensures Simulates(s, s')
  {
    hide TicketsOk, KeysOk, Resolves, ServerNext, Resolved;
    var t := TicketOf(s.workers[i].pc).value;
    forall ends: map<nat, Fate>, saves: map<TaskKey, Stored> | Resolves(s', ends, saves) ensures Matches(s, s', ends, saves) {
      EndFresh(s, s', i, end, ends, saves);
      EndResolves(s, s', i, end, ends, saves);
      EndServer(s, s', i, end, ends, saves);
      var saves0 := if end.Saved? then saves[end.task.Key() := Record(end.task)] else saves;
      assert Moves(Resolved(s, ends[t := end], saves0), Resolved(s', ends, saves));
    }
  }

  lemma GiveUpStutters(s: State, i: nat, reason: DropReason, backoff: nat)
    requires i < |s.workers| && TicketOf(s.workers[i].pc) == None
    ensures Stutters(s, GiveUp(s, i, reason, backoff))
    ensures var s' := GiveUp(s, i, reason, backoff); s'.queue == s.queue && s'.store == s.store && s'.tickets == s.tickets && s'.fate == s.fate
  {
    hide IsCompletion;
  }

  lemma GiveUpEnds(s: State, i: nat, reason: DropReason, backoff: nat)
    requires i < |s.workers| && TicketOf(s.workers[i].pc).Some?
    ensures var s' := GiveUp(s, i, reason, backoff);
      && Ended(s, s', i, Dropped(reason)) && s'.queue == s.queue && s'.tickets == s.tickets
      && s'.fate == s.fate[TicketOf(s.workers[i].pc).value := Dropped(reason)]
  {
  }

  /** A task is given up, or a worker without one goes back to the loop. */
  lemma GiveUpSimulates(s: State, i: nat, reason: DropReason, backoff: nat)
    requires Inv(s) && i < |s.workers|
    ensures Simulates(s, GiveUp(s, i, reason, backoff))
  {
    var s' := GiveUp(s, i, reason, backoff);
    assert TicketsOk(s) && KeysOk(s);
    hide Inv, TicketsOk, KeysOk, Simulates, MaySave, Ended, GiveUp, Stutters;
    if TicketOf(s.workers[i].pc).Some? {
      GiveUpEnds(s, i, reason, backoff);
      EndSimulates(s, s', i, Dropped(reason));
    } else {
      GiveUpStutters(s, i, reason, backoff);
      StutterSimulates(s, s');
    }
  }

  lemma ReserveSimulates(s: State, i: nat, a: LimiterAnswer)
    requires Inv(s) && i < |s.workers| && s.workers[i].pc.Reserving?
    ensures Simulates(s, ReserveStep(s, i, a))
  {
    hide Inv, Simulates;
    if a.LimiterError? {
      GiveUpSimulates(s, i, FetchFailed, s.workers[i].backoff + 1);
    } else {
      StutterSimulates(s, ReserveStep(s, i, a));
    }
  }

  lemma CancelSimulates(s: State, i: nat)
    requires Enabled(s, Cancel(i))
    ensures Simulates(s, CancelHeld(s, i))
  {
    hide Simulates;
    StutterSimulates(s, CancelHeld(s, i));
  }

  lemma LoadStutters(s: State, i: nat)
    requires Inv(s) && i < |s.workers| && s.workers[i].pc.Fetching? && CanFetch(s, s.workers[i].pc.entry.value)
    ensures Stutters(s, Load(s, i))
    ensures var s' := Load(s, i); s'.queue == s.queue && s'.store == s.store && s'.tickets == s.tickets && s'.fate == s.fate
  {
    assert StoreOk(s);
    hide IsCompletion, Inv;
  }

  lemma FetchSimulates(s: State, i: nat, connected: bool)
    requires Inv(s) && i < |s.workers| && s.workers[i].pc.Fetching?
    ensures Simulates(s, FetchStep(s, i, connected))
  {
    hide Inv, Simulates, StoreOk, Stutters, GiveUp, Load;
    if connected && CanFetch(s, s.workers[i].pc.entry.value) {
      LoadStutters(s, i);
      StutterSimulates(s, Load(s, i));
    } else {
      GiveUpSimulates(s, i, FetchFailed, s.workers[i].backoff + 1);
    }
  }

  lemma WriteSimulates(s: State, i: nat)
    requires Inv(s) && i < |s.workers| && s.workers[i].pc.Saving?
    ensures Simulates(s, Write(s, i))
  {
    assert TicketsOk(s) && KeysOk(s);
    hide Inv, Simulates, TicketsOk, KeysOk, MaySave;
    EndSimulates(s, Write(s, i), i, Saved(s.workers[i].pc.task));
  }

  lemma SaveSimulates(s: State, i: nat, a: SaveAnswer)
    requires Inv(s) && i < |s.workers| && s.workers[i].pc.Saving?
    ensures Simulates(s, SaveStep(s, i, a))
  {
    hide Inv, Simulates, Write, GiveUp;
    if a.SaveOk? || (a.SetError? && a.applied) {
      WriteSimulates(s, i);
    } else {
      GiveUpSimulates(s, i, SaveFailed, s.workers[i].backoff);
    }
  }

  lemma PopFailureSimulates(s: State, i: nat, lost: bool)
    requires Inv(s) && Enabled(s, Pop(i, PopError(lost)))
    ensures Simulates(s, PopStep(s, i, PopError(lost)))
  {
    hide Inv, Simulates, Stutters, LoseTail;
    var s1 := GiveUp(s, i, FetchFailed, s.workers[i].backoff + 1);
    if lost {
      GiveUpStutters(s, i, FetchFailed, s.workers[i].backoff + 1);
      GiveUpInv(s, i, FetchFailed, s.workers[i].backoff + 1);
      LoseTailSimulates(s1);
      StutterFirst(s, s1, LoseTail(s1));
    } else {
      GiveUpSimulates(s, i, FetchFailed, s.workers[i].backoff + 1);
    }
  }

  lemma PopSimulates(s: State, i: nat, a: PopAnswer)
    requires Inv(s) && Enabled(s, Pop(i, a))
    ensures Simulates(s, PopStep(s, i, a))
  {
    hide Inv, Simulates;
    match a {
      case Popped => TakeSimulates(s, i);
      case TimedOut => StutterSimulates(s, PopStep(s, i, a));
      case PopError(lost) => PopFailureSimulates(s, i, lost);
    }
  }

  lemma RanSimulates(s: State, i: nat, o: Outcome)
    requires Enabled(s, Execute(i, o))
    ensures Simulates(s, Ran(s, i, o))
  {
    var s' := Ran(s, i, o);
    forall j: nat, done | j < |s.workers| && MaySave(s', j, done) ensures MaySave(s, j, done) {
      if j == i {
        CompleteHasResult(s.workers[i].pc.task, o);
        assert HasResult(s.workers[i].pc.task, o, done);
        assert IsCompletion(s.workers[i].pc.task, done);
      }
    }
    StutterSimulates(s, s');
  }

  /** Steps that only move a program counter or a flag. */
  lemma MoveSimulates(s: State, step: Step)
    requires Enabled(s, step)
    requires step.Stop? || step.CtxDone? || step.Top? || step.WakeBackoff? || step.WakeLimited?
    ensures Simulates(s, Apply(s, step))
  {
    hide Simulates;
    var s' := Apply(s, step);
    assert s'.workers[step.i].pc == s.workers[step.i].pc || !s.workers[step.i].pc.Fetching?;
    StutterSimulates(s, s');
  }

  lemma StepSimulates(s: State, step: Step)
    requires Inv(s) && Enabled(s, step)
    ensures Simulates(s, Apply(s, step))
  {
    hide Inv, Simulates;
    match step
    case Enqueue(v, r) => PushSimulates(s, v, r);
    case Expire(key) => ExpireSimulates(s, key);
    case Pop(i, a) => PopSimulates(s, i, a);
    case Fetch(i, connected) => FetchSimulates(s, i, connected);
    case Execute(i, o) => RanSimulates(s, i, o);
    case Save(i, a) => SaveSimulates(s, i, a);
    case Panic(i) => GiveUpSimulates(s, i, Panicked, s.workers[i].backoff);
    case Reserve(i, a) => ReserveSimulates(s, i, a);
    case Cancel(i) => CancelSimulates(s, i);
    case _ => MoveSimulates(s, step);
  }

  lemma InitResolves(s: State, ends: map<nat, Fate>, saves: map<TaskKey, Stored>)
    requires Init(s) && Resolves(s, ends, saves)
    ensures Resolved(s, ends, saves) == Server([], map[], 0, map[])
  {
    assert forall t: nat :: !InFlight(s, t);
    assert forall key :: !PendingKey(s, key);
    assert ends == map[] && saves == map[];
  }

  // ---------------------------------------------------------------- whole runs

  /** `a` is what the server has done when the run stands at s: everything decided, and what is in flight
      served already, with ends it can still come to. */
  ghost predicate IsView(s: State, a: Server) {
    exists ends: map<nat, Fate>, saves: map<TaskKey, Stored> :: Resolves(s, ends, saves) && a == Resolved(s, ends, saves)
  }

  /** The server's run keeps pace with the consumers' run: after k steps of theirs it stands at `at[k]`,
      where it sees their state, and each of their steps moves it by one place or none. */
  ghost predicate KeepsPace(run: seq<State>, server: seq<Server>, at: seq<nat>) {
    && IsServerRun(server)
    && |at| == |run| > 0 && at[0] == 0 && at[|at| - 1] == |server| - 1
    && (forall k :: 0 <= k < |at| ==> at[k] < |server| && IsView(run[k], server[at[k]]))
    && (forall k :: 0 <= k < |at| - 1 ==> at[k] <= at[k + 1] <= at[k] + 1)
  }

  ghost predicate EndsAt(server: seq<Server>, a: Server) { server != [] && server[|server| - 1] == a }

  lemma PaceKept(run: seq<State>, s': State, server: seq<Server>, at: seq<nat>, a': Server)
    requires KeepsPace(run, server, at) && IsView(s', a') && Moves(server[|server| - 1], a')
    ensures exists server', at' :: KeepsPace(run + [s'], server', at') && EndsAt(server', a')
  {
    hide IsView, ServerNext;
    if a' == server[|server| - 1] {
      assert KeepsPace(run + [s'], server, at + [|server| - 1]);
    } else {
      var longer := server + [a'];
      assert forall k | 0 <= k < |server| :: longer[k] == server[k];
      assert IsServerRun(longer);
      assert KeepsPace(run + [s'], longer, at + [|server|]);
    }
  }

  lemma StartsTogether(s: State, a: Server)
    requires Init(s) && IsView(s, a)
    ensures KeepsPace([s], [a], [0])
  {
    hide Resolves, Resolved;
    var ends: map<nat, Fate>, saves: map<TaskKey, Stored> :| Resolves(s, ends, saves) && a == Resolved(s, ends, saves);
    InitResolves(s, ends, saves);
  }

  /** Every run of the consumers, with whatever ends its last tasks in flight come to, is matched step by
      step by one run of the server. */
  lemma {:induction false} RunIsMatched(run: seq<State>, ends: map<nat, Fate>, saves: map<TaskKey, Stored>)
    requires IsRun(run) && Resolves(run[|run| - 1], ends, saves)
    ensures exists server, at :: KeepsPace(run, server, at) && EndsAt(server, Resolved(run[|run| - 1], ends, saves))
  {
    hide Inv, Resolves, Resolved, ServerNext, KeepsPace, Apply, Enabled;
    var n := |run| - 1;
    var a := Resolved(run[n], ends, saves);
    assert IsView(run[n], a);
    if n == 0 {
      StartsTogether(run[0], a);
      assert run == [run[0]] && EndsAt([a], a);
    } else {
      RunInv(run[..n]);
      assert Next(run[n - 1], run[n]);
      var step :| Enabled(run[n - 1], step) && run[n] == Apply(run[n - 1], step);
      StepSimulates(run[n - 1], step);
      assert Matches(run[n - 1], run[n], ends, saves);
      var ends0, saves0 :| Resolves(run[n - 1], ends0, saves0) && Moves(Resolved(run[n - 1], ends0, saves0), a);
      RunIsMatched(run[..n], ends0, saves0);
      var server, at :| KeepsPace(run[..n], server, at) && EndsAt(server, Resolved(run[n - 1], ends0, saves0));
      PaceKept(run[..n], run[n], server, at, a);
      assert run[..n] + [run[n]] == run;
    }
  }

  /** The tasks in flight can always still end somehow: all of them may be lost. */
  lemma SomeEndIsPossible(s: State)
    requires Inv(s)
    ensures exists ends: map<nat, Fate>, saves: map<TaskKey, Stored> :: Resolves(s, ends, saves)
  {
    var ends: map<nat, Fate> := map t: nat | t < s.tickets && InFlight(s, t) :: Dropped(Panicked);
    var saves: map<TaskKey, Stored> := map[];
    forall i: nat | i < |s.workers| && TicketOf(s.workers[i].pc).Some? ensures Ends(s, i, ends, saves) {
      assert InFlight(s, TicketOf(s.workers[i].pc).value);
      TicketIsIssued(s, i);
    }
    hide Inv;
    assert Resolves(s, ends, saves);
  }

  lemma TicketIsIssued(s: State, i: nat)
    requires Inv(s) && i < |s.workers| && TicketOf(s.workers[i].pc).Some?
    ensures TicketOf(s.workers[i].pc).value < s.tickets
  {
  }

  /** Nothing is in flight. */
  ghost predicate Quiet(s: State) {
    forall i: nat :: i < |s.workers| ==> TicketOf(s.workers[i].pc) == None
  }

  lemma QuietResolves(s: State)
    requires Quiet(s)
    ensures Resolves(s, map[], map[])
    ensures Resolved(s, map[], map[]) == Server(s.queue, s.store, s.tickets, s.fate)
    ensures forall t: nat :: !InFlight(s, t)
  {
    var none: map<nat, Fate>, nothing: map<TaskKey, Stored> := map[], map[];
    assert s.store + nothing == s.store && s.fate + none == s.fate;
  }

  /** Whenever no task is in flight, list, store and every task's fate are those of the one-step server. */
  lemma QuietIsServed(s: State)
    requires Reachable(s) && Quiet(s)
    ensures ServerReachable(Server(s.queue, s.store, s.tickets, s.fate))
    ensures forall t: nat :: t < s.tickets ==> Queued(s, t) || t in s.fate
  {
    var run :| IsRun(run) && run[|run| - 1] == s;
    RunInv(run);
    QuietResolves(s);
    EverythingPlaced(s);
    hide IsRun, Inv, Quiet, Resolves, Resolved, ServerReachable, InFlight;
    ReachableIsServed(s, map[], map[]);
  }

  lemma EverythingPlaced(s: State)
    requires Inv(s)
    ensures forall t: nat :: t < s.tickets ==> Queued(s, t) || InFlight(s, t) || t in s.fate
  {
  }

  /** In any reachable state the tasks in flight can still end somehow, and whatever ends they come to, the
      server gets there. */
  lemma ReachableIsServed(s: State, ends: map<nat, Fate>, saves: map<TaskKey, Stored>)
    requires Reachable(s)
    ensures exists e: map<nat, Fate>, v: map<TaskKey, Stored> :: Resolves(s, e, v)
    ensures Resolves(s, ends, saves) ==> ServerReachable(Server(s.queue, s.store + saves, s.tickets, s.fate + ends))
  {
    hide Inv, Resolves, IsServerRun;
    var run :| IsRun(run) && run[|run| - 1] == s;
    RunInv(run);
    SomeEndIsPossible(s);
    if Resolves(s, ends, saves) {
      RunIsMatched(run, ends, saves);
      var server, at :| KeepsPace(run, server, at) && EndsAt(server, Resolved(s, ends, saves));
      assert ServerReachable(server[|server| - 1]);
    }
  }
}
