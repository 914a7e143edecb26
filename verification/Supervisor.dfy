/**
 The process supervisor of the all-in-one image (once/docker_wrapper.go).

 The parent starts its children, forwards one signal to all of them once it begins to reap, and
 leaves its select loop when it holds as many results as it has started children.  A child that did
 not start is a result too.
 */
module Supervisor {
  import opened Wrappers

  datatype Outcome = StartFailed | WaitFailed | Exited(code: int)

  datatype ChildResult = ChildResult(child: nat, outcome: Outcome)

  datatype ParentState = Running | Reaping

  datatype Channel = SignalChan | ResultChan(child: nat)

  datatype Sent = Sent(signal: string, child: nat)

  /** Children are numbered by their place in the list of commands to start. */
  datatype Parent = Parent(
    state: ParentState,
    childResults: seq<ChildResult>,
    startedChildren: seq<nat>,
    selectCases: seq<Channel>,
    signals: seq<Sent>)

  /** What select may pick: a signal to the parent, or the result of started child number `index`. */
  datatype Event = Signalled(signal: string) | Ended(index: nat, outcome: Outcome)

  const SIGTERM := "SIGTERM"

  const SIGNALS_FOR_REAPING := ["SIGHUP", "SIGINT", "SIGTERM", "SIGQUIT", "SIGILL", "SIGTRAP", "SIGABRT", "SIGSYS"]

  /** The two sets of children; the flag is --block-on-getting-tls-certificates. */
  function Commands(blockOnCertificates: bool): seq<string> {
    if blockOnCertificates then ["nginx", "docker-certbot.py --block-on-getting-tls-certificates"]
    else ["postgres", "redis-server", "nginx", "docker-certbot.py", "minio", "authgear-deno", "authgear", "authgear-portal", "authgear images"]
  }

  // ---------------------------------------------------------------- the state after each part

  function Initial(): Parent { Parent(Running, [], [], [SignalChan], []) }

  function Started(p: Parent, child: nat, ok: bool): Parent {
    if ok then p.(startedChildren := p.startedChildren + [child], selectCases := p.selectCases + [ResultChan(child)])
    else p.(childResults := p.childResults + [ChildResult(child, StartFailed)])
  }

  /** Starting children 0, 1, ... of which ok[k] says whether the command could be started. */
  function StartedAll(ok: seq<bool>): Parent {
    if ok == [] then Initial() else Started(StartedAll(ok[..|ok| - 1]), |ok| - 1, ok[|ok| - 1])
  }

  function SignalsTo(children: seq<nat>, signal: string): (r: seq<Sent>)
    ensures |r| == |children|
    ensures forall k :: 0 <= k < |r| ==> r[k] == Sent(signal, children[k])
  {
    seq(|children|, k requires 0 <= k < |children| => Sent(signal, children[k]))
  }

  function StartReap(p: Parent, signal: string): Parent {
    if p.state.Reaping? then p else p.(state := Reaping, signals := p.signals + SignalsTo(p.startedChildren, signal))
  }

  function Ready(ok: seq<bool>): Parent {
    var p := StartedAll(ok);
    if |p.childResults| > 0 then StartReap(p, SIGTERM) else p
  }

  function Handled(p: Parent, e: Event): Parent {
    match e
    case Signalled(signal) => if signal in SIGNALS_FOR_REAPING then StartReap(p, signal) else p
    case Ended(index, outcome) =>
      if index >= |p.startedChildren| then p
      else
        var q := p.(childResults := p.childResults + [ChildResult(p.startedChildren[index], outcome)]);
        if q.state.Running? then StartReap(q, SIGTERM) else q
  }

  predicate LoopGuard(p: Parent) { |p.childResults| < |p.startedChildren| }

  /** The loop over the events that come; it stops early if they run out. */
  function Looped(p: Parent, events: seq<Event>): Parent
    decreases |events|
  {
    if events == [] || !LoopGuard(p) then p else Looped(Handled(p, events[0]), events[1..])
  }

  /** Each child sends one result: select can pick its channel once. */
  ghost predicate Possible(events: seq<Event>, started: nat) {
    && (forall k :: 0 <= k < |events| && events[k].Ended? ==> events[k].index < started && !events[k].outcome.StartFailed?)
    && (forall j, k :: 0 <= j < k < |events| && events[j].Ended? && events[k].Ended? ==> events[j].index != events[k].index)
  }

  function Failed(ok: seq<bool>): (f: nat)
    ensures f <= |ok|
  {
    if ok == [] then 0 else Failed(ok[..|ok| - 1]) + (if ok[|ok| - 1] then 0 else 1)
  }

  // ---------------------------------------------------------------- wiring

  /** selectCases[0] is the signal channel, selectCases[i + 1] the channel of startedChildren[i]. */
  ghost predicate Wired(p: Parent) {
    && |p.selectCases| == |p.startedChildren| + 1 && p.selectCases[0] == SignalChan
    && (forall i :: 0 <= i < |p.startedChildren| ==> p.selectCases[i + 1] == ResultChan(p.startedChildren[i]))
  }

  lemma {:induction false} StartsAreAccounted(ok: seq<bool>)
    ensures var p := StartedAll(ok);
      && Wired(p) && p.state.Running? && p.signals == []
      && |p.childResults| == Failed(ok) && |p.startedChildren| == |ok| - Failed(ok)
      && (forall k :: 0 <= k < |p.childResults| ==> p.childResults[k].outcome.StartFailed? && p.childResults[k].child < |ok| && !ok[p.childResults[k].child])
      && (forall i :: 0 <= i < |p.startedChildren| ==> p.startedChildren[i] < |ok| && ok[p.startedChildren[i]])
      && (forall i, j :: 0 <= i < j < |p.startedChildren| ==> p.startedChildren[i] < p.startedChildren[j])
  {
    if ok != [] { StartsAreAccounted(ok[..|ok| - 1]); }
  }

  // ---------------------------------------------------------------- the loop

  /** The results that came over a channel, after the failed starts. */
  function Reaped(p: Parent, failed: nat): seq<ChildResult>
    requires failed <= |p.childResults|
  {
    p.childResults[failed..]
  }

  function ChildrenOf(s: seq<ChildResult>): set<nat> { set r | 0 <= r < |s| :: s[r].child }

  function Members(s: seq<nat>): set<nat> { set c | c in s }

  predicate AllReaped(p: Parent, failed: nat)
    requires failed <= |p.childResults|
  {
    Members(p.startedChildren) <= ChildrenOf(Reaped(p, failed))
  }

  /** What the loop keeps: no started child is counted twice, and no signal has been sent or exactly one to each. */
  ghost predicate Accounted(p: Parent, failed: nat) {
    && Wired(p) && failed <= |p.childResults|
    && (forall k :: failed <= k < |p.childResults| ==> p.childResults[k].child in p.startedChildren)
    && (forall j, k :: failed <= j < k < |p.childResults| ==> p.childResults[j].child != p.childResults[k].child)
    && (p.state.Running? ==> p.signals == [] && p.childResults == [])
    && (p.state.Reaping? ==> exists signal :: p.signals == SignalsTo(p.startedChildren, signal))
    && (|p.childResults| == failed || |p.childResults| <= |p.startedChildren|)
  }

  lemma ReadyIsAccounted(ok: seq<bool>)
    ensures Accounted(Ready(ok), Failed(ok)) && |Ready(ok).childResults| == Failed(ok)
      && Ready(ok).startedChildren == StartedAll(ok).startedChildren
  {
    hide StartedAll, SignalsTo;
    StartsAreAccounted(ok);
    var p := StartedAll(ok);
    assert [] + SignalsTo(p.startedChildren, SIGTERM) == SignalsTo(p.startedChildren, SIGTERM);
  }

  ghost predicate Unreported(p: Parent, failed: nat, events: seq<Event>) {
    forall k, r :: 0 <= k < |events| && events[k].Ended? && events[k].index < |p.startedChildren| && failed <= r < |p.childResults| ==>
      p.childResults[r].child != p.startedChildren[events[k].index]
  }

  lemma HandledIsAccounted(p: Parent, failed: nat, e: Event)
    requires Accounted(p, failed) && LoopGuard(p) && Unreported(p, failed, [e])
    requires e.Ended? ==> e.index < |p.startedChildren|
    ensures Accounted(Handled(p, e), failed) && Handled(p, e).startedChildren == p.startedChildren
  {
    hide SignalsTo;
    var q := Handled(p, e);
    assert forall signal :: [] + SignalsTo(p.startedChildren, signal) == SignalsTo(p.startedChildren, signal);
    if e.Ended? {
      assert [e][0].Ended?;
    }
    if q.state.Reaping? && p.state.Running? {
      assert q.signals == SignalsTo(p.startedChildren, if e.Ended? then SIGTERM else e.signal);
    }
  }

  lemma StillUnreported(p: Parent, failed: nat, events: seq<Event>)
    requires Accounted(p, failed) && LoopGuard(p) && events != [] && Possible(events, |p.startedChildren|)
      && Unreported(p, failed, events)
    requires forall i, j :: 0 <= i < j < |p.startedChildren| ==> p.startedChildren[i] != p.startedChildren[j]
    ensures Unreported(Handled(p, events[0]), failed, events[1..]) && Possible(events[1..], |p.startedChildren|)
      && Unreported(p, failed, [events[0]])
  {
    hide SignalsTo, Accounted;
    var q, rest := Handled(p, events[0]), events[1..];
    forall k, r | 0 <= k < |rest| && rest[k].Ended? && rest[k].index < |q.startedChildren| && failed <= r < |q.childResults|
      ensures q.childResults[r].child != q.startedChildren[rest[k].index]
    {
      assert rest[k] == events[k + 1];
    }
  }

  lemma {:induction false} LoopIsAccounted(p: Parent, failed: nat, events: seq<Event>)
    requires Accounted(p, failed) && Possible(events, |p.startedChildren|) && Unreported(p, failed, events)
    requires forall i, j :: 0 <= i < j < |p.startedChildren| ==> p.startedChildren[i] != p.startedChildren[j]
    ensures Accounted(Looped(p, events), failed) && Looped(p, events).startedChildren == p.startedChildren
    decreases |events|
  {
    hide Accounted, Possible, Unreported, Handled;
    if events != [] && LoopGuard(p) {
      StillUnreported(p, failed, events);
      PossibleFirst(events, |p.startedChildren|);
      HandledIsAccounted(p, failed, events[0]);
      LoopIsAccounted(Handled(p, events[0]), failed, events[1..]);
    }
  }

  lemma PossibleFirst(events: seq<Event>, started: nat)
    requires events != [] && Possible(events, started)
    ensures events[0].Ended? ==> events[0].index < started
  {
  }

  /** Every run that leaves the loop: with s children started and f not, exactly max(0, s - f) started
      children have been reaped, each counted once; so all of them exactly when f = 0 or s = 0.  Every
      started child was sent exactly one signal, the same one. */
  lemma RunsAreAccounted(ok: seq<bool>, events: seq<Event>)
    requires Possible(events, |ok| - Failed(ok))
    requires !LoopGuard(Looped(Ready(ok), events))
    ensures var p := Looped(Ready(ok), events); var f := Failed(ok); var s := |ok| - f;
      && s == |p.startedChildren| && f <= |p.childResults|
      && |Reaped(p, f)| == (if s > f then s - f else 0)
      && (AllReaped(p, f) <==> f == 0 || s == 0)
      && (forall j, k :: 0 <= j < k < |Reaped(p, f)| ==> Reaped(p, f)[j].child != Reaped(p, f)[k].child)
      && (s > 0 ==> exists signal :: p.signals == SignalsTo(p.startedChildren, signal))
      && Wired(p)
  {
    hide StartedAll, Ready, Looped, SignalsTo, Possible;
    StartsAreAccounted(ok);
    ReadyIsAccounted(ok);
    LoopIsAccounted(Ready(ok), Failed(ok), events);
    var p, f := Looped(Ready(ok), events), Failed(ok);
    assert p.startedChildren == StartedAll(ok).startedChildren;
    AllReapedIff(p, f);
  }

  lemma AllReapedIff(p: Parent, f: nat)
    requires Accounted(p, f) && !LoopGuard(p)
    requires forall i, j :: 0 <= i < j < |p.startedChildren| ==> p.startedChildren[i] != p.startedChildren[j]
    ensures AllReaped(p, f) <==> f == 0 || |p.startedChildren| == 0
  {
    var reaped := Reaped(p, f);
    var got, all := ChildrenOf(reaped), Members(p.startedChildren);
    Distinct(reaped);
    DistinctNats(p.startedChildren);
    assert got <= all by {
      forall r | 0 <= r < |reaped| ensures reaped[r].child in all { assert reaped[r] == p.childResults[f + r]; }
    }
    if f == 0 || |p.startedChildren| == 0 {
      if |p.startedChildren| == 0 { assert all == {}; } else { SubsetOfSameSize(got, all); }
    }
    assert all <= got ==> all == got;
  }

  lemma {:induction false} Distinct(s: seq<ChildResult>)
    requires forall j, k :: 0 <= j < k < |s| ==> s[j].child != s[k].child
    ensures |ChildrenOf(s)| == |s|
  {
    if s != [] {
      var front := s[..|s| - 1];
      Distinct(front);
      assert ChildrenOf(s) == ChildrenOf(front) + {s[|s| - 1].child};
    }
  }

  lemma {:induction false} DistinctNats(s: seq<nat>)
    requires forall j, k :: 0 <= j < k < |s| ==> s[j] != s[k]
    ensures |Members(s)| == |s|
  {
    if s != [] {
      var front := s[..|s| - 1];
      DistinctNats(front);
      assert Members(s) == Members(front) + {s[|s| - 1]};
    }
  }

  lemma SubsetOfSameSize(a: set<nat>, b: set<nat>)
    requires a <= b && |a| == |b|
    ensures a == b
  {
    assert |b - a| == |b| - |a|;
  }

  // ---------------------------------------------------------------- what the events do

  /** The signals on which the parent stops its children. */
  predicate IsReapSignal(signal: string) {
    signal in {"SIGHUP", "SIGINT", "SIGTERM", "SIGQUIT", "SIGILL", "SIGTRAP", "SIGABRT", "SIGSYS"}
  }

  /** An event at which a running parent starts to reap, and the signal it then sends. */
  predicate Triggers(e: Event) { e.Ended? || IsReapSignal(e.signal) }

  function SignalOf(e: Event): string { if e.Ended? then "SIGTERM" else e.signal }

  datatype End = End(index: nat, outcome: Outcome)

  /** The results among the events, in order. */
  function Ends(events: seq<Event>): seq<End> {
    if events == [] then []
    else (if events[0].Ended? then [End(events[0].index, events[0].outcome)] else []) + Ends(events[1..])
  }

  /** The signal of the first event that triggers. */
  function FirstSignal(events: seq<Event>): Option<string> {
    if events == [] then None else if Triggers(events[0]) then Some(SignalOf(events[0])) else FirstSignal(events[1..])
  }

  lemma {:induction false} FirstSignalMeans(events: seq<Event>)
    ensures FirstSignal(events).None? <==> forall k :: 0 <= k < |events| ==> !Triggers(events[k])
    ensures FirstSignal(events).Some? ==> exists k ::
      && 0 <= k < |events| && Triggers(events[k]) && FirstSignal(events) == Some(SignalOf(events[k]))
      && forall j :: 0 <= j < k ==> !Triggers(events[j])
  {
    hide Triggers, SignalOf;
    if events != [] {
      FirstSignalMeans(events[1..]);
      if Triggers(events[0]) {
        assert FirstSignal(events) == Some(SignalOf(events[0]));
      } else if FirstSignal(events[1..]).Some? {
        var k :| 0 <= k < |events[1..]| && Triggers(events[1..][k]) && FirstSignal(events[1..]) == Some(SignalOf(events[1..][k]))
          && forall j :: 0 <= j < k ==> !Triggers(events[1..][j]);
        assert events[k + 1] == events[1..][k];
        forall j | 0 <= j < k + 1 ensures !Triggers(events[j]) {
          if j > 0 { assert events[1..][j - 1] == events[j]; }
        }
      } else {
        forall k | 0 <= k < |events| ensures !Triggers(events[k]) {
          if k > 0 { assert events[1..][k - 1] == events[k]; }
        }
      }
    }
  }

  /** The first n events are those the loop handles: it stops when failed starts and results are as many
      as the started children. */
  ghost predicate HandlesFirst(results: nat, started: nat, events: seq<Event>, n: nat) {
    && n <= |events|
    && (forall k :: 0 <= k < n ==> results + |Ends(events[..k])| < started)
    && (n == |events| || results + |Ends(events[..n])| >= started)
  }

  ghost predicate AllSent(p: Parent, q: Parent, signal: string) {
    && |q.signals| == |p.signals| + |p.startedChildren| && q.signals[..|p.signals|] == p.signals
    && forall i :: 0 <= i < |p.startedChildren| ==> q.signals[|p.signals| + i] == Sent(signal, p.startedChildren[i])
  }

  /** The results of these ends come after those the parent had. */
  ghost predicate Collects(p: Parent, ends: seq<End>, q: Parent) {
    && |q.childResults| == |p.childResults| + |ends| && q.childResults[..|p.childResults|] == p.childResults
    && forall j :: 0 <= j < |ends| && ends[j].index < |p.startedChildren| ==>
         q.childResults[|p.childResults| + j] == ChildResult(p.startedChildren[ends[j].index], ends[j].outcome)
  }

  /** A running parent reaps at the first trigger and signals every child then; a reaping one goes on. */
  ghost predicate Obeys(p: Parent, first: Option<string>, q: Parent) {
    if p.state.Reaping? || first.None? then q.state == p.state && q.signals == p.signals
    else q.state.Reaping? && AllSent(p, q, first.value)
  }

  /** How far handled events have brought a parent. */
  ghost predicate Reaches(p: Parent, events: seq<Event>, q: Parent) {
    && q.startedChildren == p.startedChildren && q.selectCases == p.selectCases
    && Collects(p, Ends(events), q) && Obeys(p, FirstSignal(events), q)
  }

  lemma HandledReaches(p: Parent, e: Event)
    requires e.Ended? ==> e.index < |p.startedChildren|
    ensures Reaches(p, [e], Handled(p, e))
  {
    assert [e][1..] == [];
    assert Ends([e]) == if e.Ended? then [End(e.index, e.outcome)] else [];
    assert e.Signalled? ==> (e.signal in SIGNALS_FOR_REAPING <==> IsReapSignal(e.signal));
    assert FirstSignal([e]) == if Triggers(e) then Some(SignalOf(e)) else None;
  }

  lemma NothingReaches(p: Parent)
    ensures Reaches(p, [], p) && Ends([]) == []
  {
  }

  lemma OneAndRest(events: seq<Event>)
    requires events != []
    ensures Ends(events) == Ends([events[0]]) + Ends(events[1..])
    ensures FirstSignal(events) == if FirstSignal([events[0]]).Some? then FirstSignal([events[0]]) else FirstSignal(events[1..])
  {
    assert [events[0]][1..] == [] && Ends([]) == [] && FirstSignal([]) == None;
  }

  /** One event and then the rest. */
  lemma ReachesOn(p: Parent, q: Parent, z: Parent, events: seq<Event>)
    requires events != [] && Reaches(p, [events[0]], q) && Reaches(q, events[1..], z)
    ensures Reaches(p, events, z)
  {
    hide Ends, FirstSignal, Triggers, SignalOf, Collects, Obeys;
    OneAndRest(events);
    CollectsOn(p, q, z, Ends([events[0]]), Ends(events[1..]));
    ObeysOn(p, q, z, FirstSignal([events[0]]), FirstSignal(events[1..]));
  }

  lemma ObeysOn(p: Parent, q: Parent, z: Parent, a: Option<string>, b: Option<string>)
    requires Obeys(p, a, q) && Obeys(q, b, z) && q.startedChildren == p.startedChildren
    ensures Obeys(p, if a.Some? then a else b, z)
  {
  }

  lemma CollectsOn(p: Parent, q: Parent, z: Parent, a: seq<End>, b: seq<End>)
    requires Collects(p, a, q) && Collects(q, b, z) && q.startedChildren == p.startedChildren
    ensures Collects(p, a + b, z)
  {
    assert z.childResults[..|p.childResults|] == z.childResults[..|q.childResults|][..|p.childResults|];
    forall j | 0 <= j < |a + b| && (a + b)[j].index < |p.startedChildren|
      ensures z.childResults[|p.childResults| + j] == ChildResult(p.startedChildren[(a + b)[j].index], (a + b)[j].outcome)
    {
      if j < |a| {
        assert z.childResults[|p.childResults| + j] == z.childResults[..|q.childResults|][|p.childResults| + j];
      } else {
        assert (a + b)[j] == b[j - |a|];
      }
    }
  }

  lemma {:induction false} LoopReaches(p: Parent, events: seq<Event>, n: nat)
    requires forall k :: 0 <= k < |events| && events[k].Ended? ==> events[k].index < |p.startedChildren|
    requires HandlesFirst(|p.childResults|, |p.startedChildren|, events, n)
    ensures n <= |events| && Reaches(p, events[..n], Looped(p, events))
    decreases |events|
  {
    hide HandlesFirst, Reaches, Handled, Ends;
    if events == [] || !LoopGuard(p) {
      StopsHere(p, events, n);
    } else {
      var q, rest := Handled(p, events[0]), events[1..];
      GoesOn(p, events, n);
      HandledReaches(p, events[0]);
      LoopReaches(q, rest, n - 1);
      assert events[..n][0] == events[0] && events[..n][1..] == rest[..n - 1];
      ReachesOn(p, q, Looped(q, rest), events[..n]);
    }
  }

  lemma StopsHere(p: Parent, events: seq<Event>, n: nat)
    requires HandlesFirst(|p.childResults|, |p.startedChildren|, events, n) && (events == [] || !LoopGuard(p))
    ensures n == 0 && Reaches(p, events[..0], p)
  {
    hide Reaches;
    NothingReaches(p);
    assert events[..0] == [];
    assert Ends(events[..0]) == [];
  }

  lemma GoesOn(p: Parent, events: seq<Event>, n: nat)
    requires HandlesFirst(|p.childResults|, |p.startedChildren|, events, n) && events != [] && LoopGuard(p)
    requires events[0].Ended? ==> events[0].index < |p.startedChildren|
    ensures 0 < n <= |events|
    ensures var q := Handled(p, events[0]);
      q.startedChildren == p.startedChildren && HandlesFirst(|q.childResults|, |q.startedChildren|, events[1..], n - 1)
  {
    hide Ends, Reaches;
    NothingReaches(p);
    assert events[..0] == [];
    var q := Handled(p, events[0]);
    forall k | 0 < k <= |events| ensures |Ends(events[..k])| == (if events[0].Ended? then 1 else 0) + |Ends(events[1..][..k - 1])| {
      EndsFirst(events, k);
    }
    forall k | 0 <= k < n - 1 ensures |q.childResults| + |Ends(events[1..][..k])| < |q.startedChildren| {
      assert |p.childResults| + |Ends(events[..k + 1])| < |p.startedChildren|;
    }
  }

  lemma EndsFirst(events: seq<Event>, k: nat)
    requires 0 < k <= |events|
    ensures |Ends(events[..k])| == (if events[0].Ended? then 1 else 0) + |Ends(events[1..][..k - 1])|
  {
    assert events[..k][1..] == events[1..][..k - 1];
  }

  /** After `failed` results the results of these ends, in order, each with the child it is of. */
  ghost predicate ResultsAre(p: Parent, failed: nat, ends: seq<End>) {
    && |p.childResults| == failed + |ends|
    && forall j :: 0 <= j < |ends| ==>
      && ends[j].index < |p.startedChildren|
      && p.childResults[failed + j] == ChildResult(p.startedChildren[ends[j].index], ends[j].outcome)
  }

  /** Nothing to reap for and nothing sent; or reaping, and this signal sent to every started child, once. */
  ghost predicate SignalsAre(p: Parent, first: Option<string>) {
    && (p.state.Reaping? <==> first.Some?)
    && (if first.None? then p.signals == []
        else |p.signals| == |p.startedChildren| && forall i :: 0 <= i < |p.signals| ==> p.signals[i] == Sent(first.value, p.startedChildren[i]))
  }

  /** The whole run, by its events: the children that started, in order; after the failed starts the results
      of the handled ends, in order; the parent reaps exactly if a start failed, a child ended or one of the
      eight signals came; and then every started child got exactly one signal, SIGTERM if a start failed,
      else that of the first such event. */
  lemma RunIsItsEvents(ok: seq<bool>, events: seq<Event>, n: nat)
    requires Possible(events, |ok| - Failed(ok)) && HandlesFirst(Failed(ok), |ok| - Failed(ok), events, n)
    ensures var p := Looped(Ready(ok), events); var handled := events[..n];
      && StartedBy(ok, p.startedChildren, p.childResults)
      && ResultsAre(p, Failed(ok), Ends(handled))
      && SignalsAre(p, if Failed(ok) > 0 then Some("SIGTERM") else FirstSignal(handled))
  {
    hide StartedAll, Looped, Ends, HandlesFirst, FirstSignal, StartedBy, ResultsAre, SignalsAre, Collects, Obeys, Ready;
    var r := Ready(ok);
    ReadyReaches(ok);
    PossibleIndexes(events, |ok| - Failed(ok));
    LoopReaches(r, events, n);
    var p := Looped(r, events);
    StartsStay(ok, r, p, Ends(events[..n]));
    ResultsFollow(r, p, events[..n]);
    SignalsFollow(r, p, FirstSignal(events[..n]));
  }

  lemma StartsStay(ok: seq<bool>, r: Parent, p: Parent, ends: seq<End>)
    requires StartedBy(ok, r.startedChildren, r.childResults) && |r.childResults| == Failed(ok)
    requires p.startedChildren == r.startedChildren && Collects(r, ends, p)
    ensures StartedBy(ok, p.startedChildren, p.childResults)
  {
    forall k | 0 <= k < Failed(ok) ensures p.childResults[k] == r.childResults[k] {
      assert p.childResults[k] == p.childResults[..|r.childResults|][k];
    }
  }

  lemma ResultsFollow(r: Parent, p: Parent, events: seq<Event>)
    requires p.startedChildren == r.startedChildren && Collects(r, Ends(events), p)
    requires forall k :: 0 <= k < |events| && events[k].Ended? ==> events[k].index < |r.startedChildren|
    ensures ResultsAre(p, |r.childResults|, Ends(events))
  {
    hide Ends;
    EndsAreEvents(events);
    var ends := Ends(events);
    forall j | 0 <= j < |ends| ensures ends[j].index < |p.startedChildren| {
      var k :| 0 <= k < |events| && events[k] == Ended(ends[j].index, ends[j].outcome);
    }
  }

  lemma SignalsFollow(r: Parent, p: Parent, first: Option<string>)
    requires p.startedChildren == r.startedChildren && Obeys(r, first, p)
    requires SignalsAre(r, if r.state.Reaping? then Some("SIGTERM") else None)
    ensures SignalsAre(p, if r.state.Reaping? then Some("SIGTERM") else first)
  {
  }

  /** The children that could be started, in order, and first a failed result for each that could not. */
  ghost predicate StartedBy(ok: seq<bool>, started: seq<nat>, results: seq<ChildResult>) {
    && (forall c: nat :: c in started <==> c < |ok| && ok[c])
    && (forall i, j :: 0 <= i < j < |started| ==> started[i] < started[j])
    && Failed(ok) <= |results|
    && (forall k :: 0 <= k < Failed(ok) ==> results[k].outcome.StartFailed? && results[k].child < |ok| && !ok[results[k].child])
    && (forall j, k :: 0 <= j < k < Failed(ok) ==> results[j].child < results[k].child)
  }

  lemma {:induction false} StartsAreInOrder(ok: seq<bool>)
    ensures StartedBy(ok, StartedAll(ok).startedChildren, StartedAll(ok).childResults)
    ensures |StartedAll(ok).childResults| == Failed(ok) && |StartedAll(ok).startedChildren| == |ok| - Failed(ok)
  {
    if ok != [] {
      hide StartedAll, StartedBy, Failed;
      var front := ok[..|ok| - 1];
      StartsAreInOrder(front);
      StartsOneMore(ok, StartedAll(front));
      assert StartedAll(ok) == Started(StartedAll(front), |ok| - 1, ok[|ok| - 1]) by { StartedLast(ok); }
    }
  }

  lemma StartedLast(ok: seq<bool>)
    requires ok != []
    ensures StartedAll(ok) == Started(StartedAll(ok[..|ok| - 1]), |ok| - 1, ok[|ok| - 1])
  {
  }

  lemma StartsOneMore(ok: seq<bool>, p: Parent)
    requires ok != [] && StartedBy(ok[..|ok| - 1], p.startedChildren, p.childResults)
    requires |p.childResults| == Failed(ok[..|ok| - 1]) && |p.startedChildren| == |ok| - 1 - Failed(ok[..|ok| - 1])
    ensures var q := Started(p, |ok| - 1, ok[|ok| - 1]);
      StartedBy(ok, q.startedChildren, q.childResults) && |q.childResults| == Failed(ok) && |q.startedChildren| == |ok| - Failed(ok)
  {
    var front := ok[..|ok| - 1];
    forall c | 0 <= c < |front| ensures front[c] == ok[c] {}
    forall i | 0 <= i < |p.startedChildren| ensures p.startedChildren[i] < |front| { assert p.startedChildren[i] in p.startedChildren; }
  }

  lemma ReadyReaches(ok: seq<bool>)
    ensures var r := Ready(ok);
      && StartedBy(ok, r.startedChildren, r.childResults)
      && |r.childResults| == Failed(ok) && |r.startedChildren| == |ok| - Failed(ok)
      && (r.state.Reaping? <==> Failed(ok) > 0) && SignalsAre(r, if r.state.Reaping? then Some("SIGTERM") else None)
  {
    hide StartedAll, StartedBy;
    StartsAreAccounted(ok);
    StartsAreInOrder(ok);
  }

  lemma PossibleIndexes(events: seq<Event>, started: nat)
    requires Possible(events, started)
    ensures forall k :: 0 <= k < |events| && events[k].Ended? ==> events[k].index < started
  {
  }

  lemma {:induction false} EndsAreEvents(events: seq<Event>)
    ensures forall j :: 0 <= j < |Ends(events)| ==> Ended(Ends(events)[j].index, Ends(events)[j].outcome) in events
  {
    if events != [] { EndsAreEvents(events[1..]); }
  }

  // ---------------------------------------------------------------- exit code

  /** The last non-zero exit code; results that are errors say nothing. */
  function ExitCode(results: seq<ChildResult>): int {
    if results == [] then 0
    else
      var last := results[|results| - 1].outcome;
      if last.Exited? && last.code != 0 then last.code else ExitCode(results[..|results| - 1])
  }

  ghost predicate LastFailure(results: seq<ChildResult>, k: nat) {
    && k < |results| && results[k].outcome.Exited? && results[k].outcome.code != 0
    && (forall j :: k < j < |results| && results[j].outcome.Exited? ==> results[j].outcome.code == 0)
  }

  /** Zero exactly when no child that exited did so with a non-zero code: a child that never started
      does not make the parent fail. */
  lemma {:induction false} ExitCodeIsZero(results: seq<ChildResult>)
    ensures ExitCode(results) == 0 <==> forall k :: 0 <= k < |results| && results[k].outcome.Exited? ==> results[k].outcome.code == 0
    ensures ExitCode(results) != 0 ==> exists k: nat :: LastFailure(results, k) && results[k].outcome.code == ExitCode(results)
  {
    if results != [] {
      var front, last := results[..|results| - 1], results[|results| - 1].outcome;
      ExitCodeIsZero(front);
      assert forall k :: 0 <= k < |front| ==> front[k] == results[k];
      if last.Exited? && last.code != 0 {
        assert LastFailure(results, |results| - 1);
      } else if ExitCode(front) != 0 {
        var k: nat :| LastFailure(front, k) && front[k].outcome.code == ExitCode(front);
        assert LastFailure(results, k);
      }
    }
  }

  // ---------------------------------------------------------------- main as written

  class Wrapper {
    var parentState: ParentState
    var childResults: seq<ChildResult>
    var startedChildren: seq<nat>
    var selectCases: seq<Channel>
    var signals: seq<Sent>

    function Value(): Parent
      reads this
    {
      Parent(parentState, childResults, startedChildren, selectCases, signals)
    }

    constructor ()
      ensures Value() == Initial()
    {
      parentState, childResults, startedChildren, selectCases, signals := Running, [], [], [SignalChan], [];
    }

    method Start(child: nat, ok: bool)
      modifies this
      ensures Value() == Started(old(Value()), child, ok)
    {
      if !ok {
        childResults := childResults + [ChildResult(child, StartFailed)];
      } else {
        startedChildren := startedChildren + [child];
        selectCases := selectCases + [ResultChan(child)];
      }
    }

    method Reap(sig: string)
      modifies this
      ensures Value() == StartReap(old(Value()), sig)
    {
      if parentState == Reaping { return; }
      parentState := Reaping;
      ghost var before := signals;
      for k := 0 to |startedChildren|
        invariant Value() == old(Value()).(state := Reaping, signals := signals)
        invariant signals == before + SignalsTo(startedChildren, sig)[..k]
      {
        signals := signals + [Sent(sig, startedChildren[k])];
      }
    }

    /** The select loop.  The chosen channel decides whose result it is. */
    method Loop(events: seq<Event>)
      requires Wired(Value())
      requires forall k :: 0 <= k < |events| && events[k].Ended? ==> events[k].index < |startedChildren|
      modifies this
      ensures Value() == Looped(old(Value()), events)
    {
      var next: nat := 0;
      while |childResults| < |startedChildren| && next < |events|
        invariant next <= |events| && Wired(Value()) && startedChildren == old(startedChildren)
        invariant Looped(old(Value()), events) == Looped(Value(), events[next..])
        decreases |events| - next
      {
        ghost var before := Value();
        var e := events[next];
        assert events[next..][1..] == events[next + 1..];
        var chosenIdx := if e.Signalled? then 0 else e.index + 1;
        match selectCases[chosenIdx] {
          case SignalChan =>
            for k := 0 to |SIGNALS_FOR_REAPING|
              invariant Value() == if e.signal in SIGNALS_FOR_REAPING[..k] then StartReap(before, e.signal) else before
            {
              if SIGNALS_FOR_REAPING[k] == e.signal { Reap(e.signal); }
            }
            assert SIGNALS_FOR_REAPING[..|SIGNALS_FOR_REAPING|] == SIGNALS_FOR_REAPING;
          case ResultChan(child) =>
            childResults := childResults + [ChildResult(child, e.outcome)];
            if parentState == Running { Reap(SIGTERM); }
        }
        next := next + 1;
      }
    }

    /** main, up to os.Exit; `ok` says which of the commands can be started. */
    method Supervise(blockOnCertificates: bool, ok: seq<bool>, events: seq<Event>) returns (parentExitCode: int)
      requires Value() == Initial() && |ok| == |Commands(blockOnCertificates)|
      requires Possible(events, |ok| - Failed(ok))
      modifies this
      ensures Value() == Looped(Ready(ok), events)
      ensures parentExitCode == ExitCode(childResults)
    {
      var commands := Commands(blockOnCertificates);
      for child := 0 to |commands|
        invariant Value() == StartedAll(ok[..child])
      {
        assert ok[..child + 1][..child] == ok[..child];
        Start(child, ok[child]);
      }
      assert ok[..|ok|] == ok;
      StartsAreAccounted(ok);
      if |childResults| > 0 { Reap(SIGTERM); }
      Loop(events);
      parentExitCode := 0;
      for k := 0 to |childResults|
        invariant parentExitCode == ExitCode(childResults[..k])
      {
        assert childResults[..k + 1][..k] == childResults[..k];
        var o := childResults[k].outcome;
        if o.Exited? && o.code != 0 { parentExitCode := o.code; }
      }
      assert childResults[..|childResults|] == childResults;
    }
  }
}
