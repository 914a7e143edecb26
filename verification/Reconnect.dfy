/**
 Retry timers and websocket controllers of the auth UI (retry.ts, websocket.ts, authflow_websocket.ts)
 as one page that events act on.

 Sockets, timers and retry targets outlive the controller's fields: a disposed socket may still report
 its close, and an old target still listens to its abort controller.
 */
module Reconnect {
  import opened Wrappers

  /** RetryOptions with its defaults filled in; the abort controller is the page's. */
  datatype Options = Options(maxIndex: nat, indexToMillis: nat -> nat)

  /** A RetryEventTarget.  `failures` has no counterpart in the program: it counts the schedules since
      the last success. */
  datatype Target = Target(options: Options, index: nat, handle: Option<nat>, failures: nat)

  /** A pending setTimeout and the target whose retry it will dispatch. */
  datatype Timer = Timer(target: nat, delay: nat)

  datatype Socket = Socket(inert: bool, closed: bool)

  datatype Page = Page(
    sockets: seq<Socket>,
    timers: map<nat, Timer>,
    nextHandle: nat,
    targets: seq<Target>,
    ws: Option<nat>,
    abortController: Option<nat>,      // the target that listens to it
    retryEventTarget: Option<nat>,
    connected: bool)

  datatype Event =
    | Connect(disabled: bool)
    | Disconnect
    | Opened(socket: nat)
    | Closed(socket: nat, code: int)
    | Fired(handle: nat)

  /** What both controllers leave the options at. */
  function DefaultOptions(): Options { Options(2, Exponential) }

  function Exponential(index: nat): nat { 1000 * Power2(index) }

  function Power2(k: nat): nat { if k == 0 then 1 else 2 * Power2(k - 1) }

  // ---------------------------------------------------------------- RetryEventTarget

  function Cancelled(p: Page, t: nat): Page
    requires t < |p.targets|
  {
    if p.targets[t].handle.Some? then
      p.(timers := p.timers - {p.targets[t].handle.value}, targets := p.targets[t := p.targets[t].(handle := None)])
    else p
  }

  function Scheduled(p: Page, t: nat): Page
    requires t < |p.targets|
  {
    var options := p.targets[t].options;
    var oldIndex := p.targets[t].index;
    var newIndex := if oldIndex < options.maxIndex then oldIndex + 1 else options.maxIndex;
    var q := Cancelled(p.(targets := p.targets[t := p.targets[t].(index := newIndex, failures := p.targets[t].failures + 1)]), t);
    q.(timers := q.timers[q.nextHandle := Timer(t, options.indexToMillis(oldIndex))],
       nextHandle := q.nextHandle + 1,
       targets := q.targets[t := q.targets[t].(handle := Some(q.nextHandle))])
  }

  function Succeeded(p: Page, t: nat): Page
    requires t < |p.targets|
  {
    Cancelled(p.(targets := p.targets[t := p.targets[t].(index := 0, failures := 0)]), t)
  }

  // ---------------------------------------------------------------- WebSocketController

  function Disposed(p: Page): Page {
    if p.ws.Some? && p.ws.value < |p.sockets| then
      p.(sockets := p.sockets[p.ws.value := p.sockets[p.ws.value].(inert := true)], ws := None)
    else p.(ws := None)
  }

  function SocketAdded(p: Page): Page {
    p.(sockets := p.sockets + [Socket(false, false)], ws := Some(|p.sockets|))
  }

  function Connected(p: Page, disabled: bool): Page {
    if disabled then p.(connected := true)
    else
      var t := |p.targets|;
      SocketAdded(p.(connected := true, targets := p.targets + [Target(DefaultOptions(), 0, None, 0)], abortController := Some(t), retryEventTarget := Some(t)))
  }

  function Disconnected(p: Page): Page {
    var q := Disposed(p);
    var r := if q.abortController.Some? && q.abortController.value < |q.targets| then Cancelled(q, q.abortController.value) else q;
    r.(abortController := None, retryEventTarget := None, connected := false)
  }

  predicate HasTarget(p: Page) { p.retryEventTarget.Some? && p.retryEventTarget.value < |p.targets| }

  function AfterOpen(p: Page): Page { if HasTarget(p) then Succeeded(p, p.retryEventTarget.value) else p }

  function AfterClose(p: Page, s: nat, code: int): Page
    requires s < |p.sockets|
  {
    var q := p.(sockets := p.sockets[s := p.sockets[s].(closed := true)]);
    if p.sockets[s].inert || code == 1000 then q
    else if HasTarget(q) then Scheduled(q, q.retryEventTarget.value)
    else q
  }

  /** A timer goes off: its target dispatches "retry"; the handle field keeps the dead handle. */
  function AfterTimer(p: Page, h: nat): Page { SocketAdded(Disposed(p.(timers := p.timers - {h}))) }

  predicate Enabled(p: Page, e: Event) {
    match e
    case Connect(_) => !p.connected
    case Disconnect => p.connected
    case Opened(s) => s < |p.sockets| && !p.sockets[s].closed
    case Closed(s, _) => s < |p.sockets| && !p.sockets[s].closed
    case Fired(h) => h in p.timers
  }

  function Apply(p: Page, e: Event): Page
    requires Enabled(p, e)
  {
    match e
    case Connect(disabled) => Connected(p, disabled)
    case Disconnect => Disconnected(p)
    case Opened(_) => AfterOpen(p)
    case Closed(s, code) => AfterClose(p, s, code)
    case Fired(h) => AfterTimer(p, h)
  }

  function Start(): Page { Page([], map[], 0, [], None, None, None, false) }

  ghost predicate IsRun(run: seq<Page>, events: seq<Event>) {
    && |run| == |events| + 1 && run[0] == Start()
    && forall k :: 0 <= k < |events| ==> Enabled(run[k], events[k]) && run[k + 1] == Apply(run[k], events[k])
  }

  // ---------------------------------------------------------------- invariant

  function DelayOf(t: Target, failures: nat): nat { t.options.indexToMillis(Least(failures, t.options.maxIndex)) }

  /** The current socket may still open or close. */
  predicate SocketAlive(p: Page) { p.ws.Some? && p.ws.value < |p.sockets| && !p.sockets[p.ws.value].closed }

  /** The one live timer is the current target's; its delay follows from the failures before it, and
      the current socket is closed. */
  ghost predicate OneTimer(p: Page) {
    forall h :: h in p.timers ==>
      && h < p.nextHandle
      && p.retryEventTarget == Some(p.timers[h].target) && p.timers[h].target < |p.targets|
      && p.targets[p.timers[h].target].handle == Some(h)
      && p.targets[p.timers[h].target].failures >= 1
      && !SocketAlive(p)
      && p.timers[h].delay == DelayOf(p.targets[p.timers[h].target], p.targets[p.timers[h].target].failures - 1)
  }

  /** Only the current socket's onclose does anything. */
  ghost predicate OneSocket(p: Page) {
    forall s :: 0 <= s < |p.sockets| ==> (!p.sockets[s].inert <==> p.ws == Some(s))
  }

  function Least(a: nat, b: nat): nat { if a < b then a else b }

  ghost predicate Indexed(p: Page) {
    && (forall t :: 0 <= t < |p.targets| ==> p.targets[t].index == Least(p.targets[t].failures, p.targets[t].options.maxIndex))
    && (forall t :: 0 <= t < |p.targets| ==> p.targets[t].options == DefaultOptions())
    && (forall t :: 0 <= t < |p.targets| && p.targets[t].handle.Some? ==> p.targets[t].handle.value < p.nextHandle)
  }

  ghost predicate Fields(p: Page) {
    && p.abortController == p.retryEventTarget
    && (p.retryEventTarget.Some? ==> p.retryEventTarget.value < |p.targets|)
    && (p.ws.Some? ==> p.ws.value < |p.sockets| && p.retryEventTarget.Some?)
    && (!p.connected ==> p.retryEventTarget.None? && p.ws.None?)
  }

  ghost predicate Inv(p: Page) { OneTimer(p) && OneSocket(p) && Indexed(p) && Fields(p) }

  lemma CancelKeeps(p: Page, t: nat)
    requires Inv(p) && p.retryEventTarget == Some(t)
    ensures Inv(Cancelled(p, t)) && Cancelled(p, t).timers == map[]
    ensures Cancelled(p, t).sockets == p.sockets
  {
    hide Exponential;
  }

  lemma MarkKeeps(p: Page, t: nat)
    requires Inv(p) && p.retryEventTarget == Some(t)
    ensures Inv(Succeeded(p, t)) && Succeeded(p, t).timers == map[]
  {
    hide Exponential;
    var q := p.(targets := p.targets[t := p.targets[t].(index := 0, failures := 0)]);
    assert forall h :: h in p.timers ==> p.targets[t].handle == Some(h);
  }

  lemma ScheduleKeeps(p: Page, t: nat)
    requires Inv(p) && p.retryEventTarget == Some(t) && !SocketAlive(p)
    ensures Inv(Scheduled(p, t))
    ensures Scheduled(p, t).timers == map[p.nextHandle := Timer(t, DelayOf(p.targets[t], p.targets[t].failures))]
  {
    hide Exponential;
    assert forall h :: h in p.timers ==> p.targets[t].handle == Some(h);
  }

  lemma DisposeKeeps(p: Page)
    requires Inv(p)
    ensures Inv(Disposed(p)) && Disposed(p).ws.None?
    ensures forall s :: 0 <= s < |Disposed(p).sockets| ==> Disposed(p).sockets[s].inert
  {
    hide Exponential;
  }

  lemma ConnectKeeps(p: Page, disabled: bool)
    requires Inv(p) && !p.connected
    ensures Inv(Connected(p, disabled))
  {
    hide Exponential, DelayOf;
    assert forall h :: h !in p.timers;
  }

  lemma DisconnectKeeps(p: Page)
    requires Inv(p) && p.connected
    ensures Inv(Disconnected(p)) && Disconnected(p).timers == map[] && |Disconnected(p).sockets| == |p.sockets|
  {
    hide Cancelled, Disposed, Exponential, DelayOf;
    DisposeKeeps(p);
    DisposeFields(p);
    var q := Disposed(p);
    if q.abortController.Some? {
      CancelKeeps(q, q.abortController.value);
      CancelFields(q, q.abortController.value);
    } else {
      assert forall h :: h !in q.timers;
    }
  }

  lemma CloseKeeps(p: Page, s: nat, code: int)
    requires Inv(p) && s < |p.sockets| && !p.sockets[s].closed
    ensures Inv(AfterClose(p, s, code))
  {
    hide Scheduled, Exponential, DelayOf;
    var q := p.(sockets := p.sockets[s := p.sockets[s].(closed := true)]);
    assert Inv(q);
    if !p.sockets[s].inert && code != 1000 && HasTarget(q) { ScheduleKeeps(q, q.retryEventTarget.value); }
  }

  lemma TimerKeeps(p: Page, h: nat)
    requires Inv(p) && h in p.timers
    ensures Inv(AfterTimer(p, h)) && AfterTimer(p, h).timers == map[]
  {
    hide Disposed, Exponential, DelayOf;
    var q := p.(timers := p.timers - {h});
    assert forall g :: g in p.timers ==> g == h;
    assert Inv(q) && q.timers == map[];
    DisposeKeeps(q);
    DisposeFields(q);
  }

  lemma OpenKeeps(p: Page)
    requires Inv(p)
    ensures Inv(AfterOpen(p))
  {
    hide Inv, Succeeded;
    if HasTarget(p) { MarkKeeps(p, p.retryEventTarget.value); }
  }

  lemma ApplyKeeps(p: Page, e: Event)
    requires Inv(p) && Enabled(p, e)
    ensures Inv(Apply(p, e))
  {
    hide Inv, Connected, Disconnected, AfterOpen, AfterClose, AfterTimer;
    match e {
      case Connect(disabled) => ConnectKeeps(p, disabled);
      case Disconnect => DisconnectKeeps(p);
      case Opened(_) => OpenKeeps(p);
      case Closed(s, code) => CloseKeeps(p, s, code);
      case Fired(h) => TimerKeeps(p, h);
    }
  }

  lemma DisposeFields(p: Page)
    ensures Disposed(p).abortController == p.abortController && Disposed(p).retryEventTarget == p.retryEventTarget
      && Disposed(p).timers == p.timers
      && Disposed(p).targets == p.targets && |Disposed(p).sockets| == |p.sockets|
  {
  }

  lemma CancelFields(p: Page, t: nat)
    requires t < |p.targets|
    ensures Cancelled(p, t).ws == p.ws && Cancelled(p, t).retryEventTarget == p.retryEventTarget
      && Cancelled(p, t).abortController == p.abortController
      && Cancelled(p, t).sockets == p.sockets
  {
  }

  lemma {:induction false} RunKeeps(run: seq<Page>, events: seq<Event>, k: nat)
    requires IsRun(run, events) && k < |run|
    ensures Inv(run[k])
  {
    hide Apply, Inv;
    if k == 0 {
      StartIsGood();
    } else {
      RunKeeps(run, events, k - 1);
      ApplyKeeps(run[k - 1], events[k - 1]);
    }
  }

  lemma StartIsGood()
    ensures Inv(Start())
  {
  }

  // ---------------------------------------------------------------- what holds in every run

  /** In every interleaving: at most one live timer, and at most one socket whose close is acted on. */
  lemma AtMostOneOfEach(run: seq<Page>, events: seq<Event>, k: nat)
    requires IsRun(run, events) && k < |run|
    ensures |run[k].timers| <= 1
    ensures forall r, s :: 0 <= r < |run[k].sockets| && 0 <= s < |run[k].sockets| && !run[k].sockets[r].inert && !run[k].sockets[s].inert ==> r == s
  {
    hide Exponential;
    RunKeeps(run, events, k);
    var p := run[k];
    if p.timers != map[] {
      var h :| h in p.timers;
      forall g | g in p.timers ensures g == h { assert p.retryEventTarget == Some(p.timers[g].target); }
      assert p.timers.Keys == {h};
      assert |p.timers| == |p.timers.Keys|;
    }
  }

  /** A close that the page acts on. */
  predicate ActsOn(p: Page, e: Event) {
    e.Closed? && e.socket < |p.sockets| && !p.sockets[e.socket].inert && e.code != 1000
  }

  /** Closes acted on since the last open, or since the connect that made the current target. */
  function FailuresSince(run: seq<Page>, events: seq<Event>, k: nat): nat
    requires |run| == |events| + 1 && k <= |events|
  {
    if k == 0 || events[k - 1].Opened? || events[k - 1] == Connect(false) then 0
    else FailuresSince(run, events, k - 1) + (if ActsOn(run[k - 1], events[k - 1]) then 1 else 0)
  }

  /** The current target's count after one event. */
  lemma FailuresMove(p: Page, e: Event)
    requires Inv(p) && Enabled(p, e) && HasTarget(Apply(p, e))
    ensures var q := Apply(p, e); var failures := q.targets[q.retryEventTarget.value].failures;
      if e.Opened? || e == Connect(false) then failures == 0
      else HasTarget(p) && failures == p.targets[p.retryEventTarget.value].failures + (if ActsOn(p, e) then 1 else 0)
  {
    hide Exponential, DelayOf;
  }

  lemma {:induction false} FailuresAreCounted(run: seq<Page>, events: seq<Event>, k: nat)
    requires IsRun(run, events) && k <= |events| && HasTarget(run[k])
    ensures run[k].targets[run[k].retryEventTarget.value].failures == FailuresSince(run, events, k)
  {
    hide Apply, Inv, Enabled, HasTarget, ActsOn;
    if k == 0 {
      NoTargetYet();
    } else {
      RunKeeps(run, events, k - 1);
      FailuresMove(run[k - 1], events[k - 1]);
      if !events[k - 1].Opened? && events[k - 1] != Connect(false) { FailuresAreCounted(run, events, k - 1); }
    }
  }

  lemma NoTargetYet()
    ensures !HasTarget(Start())
  {
  }

  /** In every run: a close that is acted on, after k earlier ones since the last open, leaves exactly one
      timer, of one second if k = 0, two if k = 1, and four after that. */
  lemma FailureWaits(run: seq<Page>, events: seq<Event>, k: nat)
    requires IsRun(run, events) && k < |events| && ActsOn(run[k], events[k])
    ensures HasTarget(run[k])
    ensures run[k + 1].timers.Values == {Timer(run[k].retryEventTarget.value, Delay(FailuresSince(run, events, k)))}
    ensures FailuresSince(run, events, k + 1) == FailuresSince(run, events, k) + 1
  {
    hide Inv, Apply;
    RunKeeps(run, events, k);
    CloseSchedules(run[k], events[k].socket, events[k].code);
    FailuresAreCounted(run, events, k);
    assert run[k + 1] == AfterClose(run[k], events[k].socket, events[k].code) by { ApplyClosed(run[k], events[k]); }
  }

  /** The delays in milliseconds: one second, two, and four from then on. */
  function Delay(failures: nat): nat { if failures == 0 then 1000 else if failures == 1 then 2000 else 4000 }

  lemma DelaysDouble(failures: nat)
    ensures Exponential(Least(failures, 2)) == Delay(failures)
  {
  }

  lemma ApplyClosed(p: Page, e: Event)
    requires Enabled(p, e) && e.Closed?
    ensures Apply(p, e) == AfterClose(p, e.socket, e.code)
  {
  }

  lemma CloseSchedules(p: Page, s: nat, code: int)
    requires Inv(p) && s < |p.sockets| && !p.sockets[s].inert && code != 1000
    ensures HasTarget(p)
    ensures var t := p.retryEventTarget.value; var q := AfterClose(p, s, code);
      && t < |q.targets| && q.targets[t].failures == p.targets[t].failures + 1
      && q.timers.Values == {Timer(t, Delay(p.targets[t].failures))}
  {
    assert p.ws == Some(s);
    var t := p.retryEventTarget.value;
    var closed := p.(sockets := p.sockets[s := p.sockets[s].(closed := true)]);
    assert Inv(closed);
    ScheduleKeeps(closed, t);
    DelaysDouble(p.targets[t].failures);
    OneValue(p.nextHandle, Timer(t, DelayOf(p.targets[t], p.targets[t].failures)));
  }

  lemma OneValue(h: nat, x: Timer)
    ensures map[h := x].Values == {x}
  {
    assert h in map[h := x];
  }

  // ---------------------------------------------------------------- what each event does

  /** What can be seen of one event.  A socket is created by an enabled connect and by a retry, and is the
      current one from then on; a disconnect leaves none current; the earlier current one becomes inert. */
  ghost predicate Moved(p: Page, e: Event, q: Page) {
    var made := e == Connect(false) || e.Fired?;
    && |q.sockets| == |p.sockets| + (if made then 1 else 0)
    && (made ==> !q.sockets[|p.sockets|].closed)
    && (forall s :: 0 <= s < |p.sockets| ==> (q.sockets[s].closed <==> p.sockets[s].closed || (e.Closed? && e.socket == s)))
    && (forall s :: 0 <= s < |q.sockets| ==> (!q.sockets[s].inert <==> if made then s == |p.sockets| else !e.Disconnect? && !p.sockets[s].inert))
    && (q.connected <==> e.Connect? || (p.connected && !e.Disconnect?))
  }

  lemma SocketsMove(p: Page, e: Event)
    requires Inv(p) && Enabled(p, e)
    ensures Moved(p, e, Apply(p, e))
  {
    hide Inv, Moved, Connected, Disconnected, AfterOpen, AfterClose, AfterTimer;
    match e {
      case Connect(disabled) => ConnectMoves(p, disabled);
      case Disconnect => DisconnectMoves(p);
      case Opened(s) => OpenMoves(p, s);
      case Closed(s, code) => CloseMoves(p, s, code);
      case Fired(h) => TimerMoves(p, h);
    }
  }

  lemma ConnectMoves(p: Page, disabled: bool)
    requires Inv(p) && !p.connected
    ensures Moved(p, Connect(disabled), Connected(p, disabled))
  {
    hide Exponential, DelayOf, OneTimer, Indexed;
  }

  lemma DisconnectMoves(p: Page)
    requires Inv(p) && p.connected
    ensures Moved(p, Disconnect, Disconnected(p))
  {
    hide Exponential, DelayOf, OneTimer, Indexed;
  }

  lemma OpenMoves(p: Page, s: nat)
    requires Inv(p)
    ensures Moved(p, Opened(s), AfterOpen(p))
  {
    hide Exponential, DelayOf, OneTimer, Indexed;
  }

  lemma CloseMoves(p: Page, s: nat, code: int)
    requires Inv(p) && s < |p.sockets|
    ensures Moved(p, Closed(s, code), AfterClose(p, s, code))
  {
    hide Exponential, DelayOf, OneTimer, Indexed;
  }

  lemma TimerMoves(p: Page, h: nat)
    requires Inv(p) && h in p.timers
    ensures Moved(p, Fired(h), AfterTimer(p, h))
  {
    hide Exponential, DelayOf, OneTimer, Indexed;
  }

  /** The pending retry is dropped by an open, a disconnect and its own firing, replaced by a close that is
      acted on, and left by everything else. */
  lemma TimersMove(p: Page, e: Event)
    requires Inv(p) && Enabled(p, e)
    ensures var q := Apply(p, e);
      if e.Fired? || e.Disconnect? || (e.Opened? && HasTarget(p)) then q.timers == map[]
      else if ActsOn(p, e) then HasTarget(p) && q.timers.Values == {Timer(p.retryEventTarget.value, Delay(p.targets[p.retryEventTarget.value].failures))}
      else q.timers == p.timers
  {
    hide Exponential, DelayOf, Scheduled, Cancelled, Succeeded, Disposed, Delay;
    match e {
      case Connect(_) => {}
      case Disconnect => DisconnectKeeps(p);
      case Opened(_) => if HasTarget(p) { MarkKeeps(p, p.retryEventTarget.value); }
      case Closed(s, code) => if ActsOn(p, e) { CloseSchedules(p, s, code); } else { NotActedOn(p, s, code); }
      case Fired(h) => TimerKeeps(p, h);
    }
  }

  lemma NotActedOn(p: Page, s: nat, code: int)
    requires Enabled(p, Closed(s, code)) && !ActsOn(p, Closed(s, code))
    ensures AfterClose(p, s, code).timers == p.timers
  {
  }

  /** While disconnected, an event other than connect creates no socket and leaves no timer. */
  lemma IdleStaysIdle(p: Page, e: Event)
    requires Inv(p) && Enabled(p, e) && !p.connected && !e.Connect?
    ensures !Apply(p, e).connected && |Apply(p, e).sockets| == |p.sockets| && Apply(p, e).timers == map[] == p.timers
  {
    assert forall h :: h !in p.timers;
  }

  /** After a disconnect, until the next connect, whatever old sockets still report: no timer is live and
      no socket is created. */
  lemma {:induction false} QuietAfterDisconnect(run: seq<Page>, events: seq<Event>, j: nat, k: nat)
    requires IsRun(run, events) && j < k < |run| && events[j].Disconnect?
    requires forall i :: j < i < k ==> !events[i].Connect?
    ensures run[k].timers == map[] && |run[k].sockets| == |run[j].sockets| && !run[k].connected
  {
    hide Inv;
    RunKeeps(run, events, k - 1);
    if k == j + 1 {
      DisconnectKeeps(run[j]);
    } else {
      QuietAfterDisconnect(run, events, j, k - 1);
      hide Apply;
      IdleStaysIdle(run[k - 1], events[k - 1]);
    }
  }

  // ---------------------------------------------------------------- never stuck

  /** A retry is pending, or the current socket may still report something. */
  predicate Alive(p: Page) { p.timers != map[] || SocketAlive(p) }

  /** The two ways to stop trying: the current socket is closed normally, or a socket disposed earlier
      opens late and its success cancels the pending retry. */
  predicate Silences(p: Page, e: Event) {
    || (e.Closed? && e.socket < |p.sockets| && !p.sockets[e.socket].inert && e.code == 1000)
    || (e.Opened? && p.timers != map[])
  }

  /** The late opener is never the current socket. */
  lemma OnlyDisposedOpensLate(p: Page, s: nat)
    requires Inv(p) && Enabled(p, Opened(s)) && p.timers != map[]
    ensures p.sockets[s].inert
  {
    var h :| h in p.timers;
  }

  lemma SilencedOnlySo(p: Page, e: Event)
    requires Inv(p) && Enabled(p, e) && HasTarget(Apply(p, e))
    ensures e == Connect(false) ==> Alive(Apply(p, e))
    ensures e != Connect(false) ==> HasTarget(p) && (Alive(Apply(p, e)) <==> Alive(p) && !Silences(p, e))
  {
    hide Exponential, DelayOf, Inv, Connected, Disconnected, AfterOpen, AfterClose, AfterTimer;
    match e {
      case Connect(disabled) => ConnectLives(p, disabled);
      case Disconnect => DisconnectDrops(p);
      case Opened(_) => OpenSilences(p);
      case Closed(s, code) => CloseSilences(p, s, code);
      case Fired(h) => TimerLives(p, h);
    }
  }

  lemma ConnectLives(p: Page, disabled: bool)
    requires Inv(p) && !p.connected
    ensures if disabled then !HasTarget(Connected(p, disabled)) else Alive(Connected(p, disabled))
  {
    hide Exponential, DelayOf;
  }

  lemma DisconnectDrops(p: Page)
    ensures !HasTarget(Disconnected(p))
  {
    hide Disposed, Cancelled;
  }

  lemma OpenSilences(p: Page)
    requires Inv(p)
    ensures HasTarget(AfterOpen(p)) == HasTarget(p)
    ensures HasTarget(p) ==> (Alive(AfterOpen(p)) <==> Alive(p) && p.timers == map[])
  {
    hide Exponential, DelayOf;
    if HasTarget(p) { MarkKeeps(p, p.retryEventTarget.value); }
  }

  lemma CloseSilences(p: Page, s: nat, code: int)
    requires Inv(p) && Enabled(p, Closed(s, code))
    ensures HasTarget(AfterClose(p, s, code)) == HasTarget(p)
    ensures HasTarget(p) ==> (Alive(AfterClose(p, s, code)) <==> Alive(p) && (p.sockets[s].inert || code != 1000))
  {
    hide Exponential, DelayOf;
  }

  lemma TimerLives(p: Page, h: nat)
    requires Inv(p) && h in p.timers
    ensures HasTarget(p) && Alive(AfterTimer(p, h)) && p.timers != map[]
  {
    hide Exponential, DelayOf;
  }

  /** Some event since the last connect silenced the page. */
  ghost predicate Silenced(run: seq<Page>, events: seq<Event>, k: nat)
    requires |run| == |events| + 1 && k <= |events|
  {
    k > 0 && events[k - 1] != Connect(false) && (Silences(run[k - 1], events[k - 1]) || Silenced(run, events, k - 1))
  }

  /** In every run, a connected page goes on trying if and only if nothing has silenced it since it
      connected: no normal close of its socket, and no late open of a socket of an earlier connect. */
  lemma {:induction false} NeverStuck(run: seq<Page>, events: seq<Event>, k: nat)
    requires IsRun(run, events) && k <= |events| && HasTarget(run[k])
    ensures Alive(run[k]) <==> !Silenced(run, events, k)
  {
    hide Apply, Inv, Enabled, HasTarget, Alive, Silences;
    if k == 0 {
      NoTargetYet();
    } else {
      RunKeeps(run, events, k - 1);
      SilencedOnlySo(run[k - 1], events[k - 1]);
      if events[k - 1] != Connect(false) { NeverStuck(run, events, k - 1); }
    }
  }

  /** Two sockets: the first disposed and still opening, the second current and closed, with its retry pending. */
  function LateOpenRun(): seq<Page> {
    var made := Target(DefaultOptions(), 0, None, 0);
    [ Start(),
      Page([Socket(false, false)], map[], 0, [made], Some(0), Some(0), Some(0), true),
      Page([Socket(true, false)], map[], 0, [made], None, None, None, false),
      Page([Socket(true, false), Socket(false, false)], map[], 0, [made, made], Some(1), Some(1), Some(1), true),
      Page([Socket(true, false), Socket(false, true)], map[0 := Timer(1, Exponential(0))], 1,
           [made, Target(DefaultOptions(), 1, Some(0), 1)], Some(1), Some(1), Some(1), true),
      Page([Socket(true, false), Socket(false, true)], map[], 1, [made, made], Some(1), Some(1), Some(1), true) ]
  }

  lemma LateOpenConnects()
    ensures var run := LateOpenRun();
      run[1] == Connected(run[0], false) && run[2] == Disconnected(run[1]) && run[3] == Connected(run[2], false)
  {
    hide Exponential, DefaultOptions;
  }

  lemma LateOpenCloses()
    ensures LateOpenRun()[4] == AfterClose(LateOpenRun()[3], 1, 1006)
  {
    hide Exponential;
    assert DefaultOptions().maxIndex == 2;
    assert DefaultOptions().indexToMillis(0) == Exponential(0);
    hide DefaultOptions;
    var p := LateOpenRun()[3];
    assert p.timers[0 := Timer(1, Exponential(0))] == map[0 := Timer(1, Exponential(0))];
  }

  lemma LateOpenOpens()
    ensures LateOpenRun()[5] == AfterOpen(LateOpenRun()[4])
  {
    hide Exponential, DefaultOptions;
    var p := LateOpenRun()[4];
    assert p.timers - {0} == map[];
  }

  /** So a page can be left waiting for nothing although its last close asked for a retry: connect,
      disconnect, connect again, lose the new socket, and only then the first socket opens. */
  lemma LateOpenSticks()
    ensures var events := [Connect(false), Disconnect, Connect(false), Closed(1, 1006), Opened(0)];
      && IsRun(LateOpenRun(), events) && ActsOn(LateOpenRun()[3], events[3])
      && HasTarget(LateOpenRun()[5]) && !Alive(LateOpenRun()[5])
  {
    hide Exponential, DefaultOptions, Connected, Disconnected, AfterClose, AfterOpen, AfterTimer;
    LateOpenConnects();
    LateOpenCloses();
    LateOpenOpens();
  }

  // ---------------------------------------------------------------- the handlers as written

  /** The page with its two classes of objects; each handler updates the fields in its own order. */
  class Controllers {
    var sockets: seq<Socket>
    var timers: map<nat, Timer>
    var nextHandle: nat
    var targets: seq<Target>
    var ws: Option<nat>
    var abortController: Option<nat>
    var retryEventTarget: Option<nat>
    var connected: bool

    function Value(): Page
      reads this
    {
      Page(sockets, timers, nextHandle, targets, ws, abortController, retryEventTarget, connected)
    }

    constructor ()
      ensures Value() == Start()
    {
      sockets, timers, nextHandle, targets := [], map[], 0, [];
      ws, abortController, retryEventTarget, connected := None, None, None, false;
    }

    method CancelSchedule(t: nat)
      requires t < |targets|
      modifies this`timers, this`targets
      ensures Value() == Cancelled(old(Value()), t)
    {
      if targets[t].handle.Some? {
        timers := timers - {targets[t].handle.value};
        targets := targets[t := targets[t].(handle := None)];
      }
    }

    method ScheduleRetry(t: nat)
      requires t < |targets|
      modifies this`timers, this`targets, this`nextHandle
      ensures Value() == Scheduled(old(Value()), t)
    {
      var maxIndex, indexToMillis := targets[t].options.maxIndex, targets[t].options.indexToMillis;
      var oldIndex := targets[t].index;
      var newIndex := if oldIndex < maxIndex then oldIndex + 1 else maxIndex;
      targets := targets[t := targets[t].(index := newIndex, failures := targets[t].failures + 1)];
      CancelSchedule(t);
      var delay := indexToMillis(oldIndex);
      timers := timers[nextHandle := Timer(t, delay)];
      targets := targets[t := targets[t].(handle := Some(nextHandle))];
      nextHandle := nextHandle + 1;
    }

    method MarkSuccess(t: nat)
      requires t < |targets|
      modifies this`timers, this`targets
      ensures Value() == Succeeded(old(Value()), t)
    {
      targets := targets[t := targets[t].(index := 0, failures := 0)];
      CancelSchedule(t);
    }

    method Dispose()
      modifies this`sockets, this`ws
      ensures Value() == Disposed(old(Value()))
    {
      if ws.Some? && ws.value < |sockets| {
        sockets := sockets[ws.value := sockets[ws.value].(inert := true)];
      }
      ws := None;
    }

    method ConnectWebSocket()
      modifies this`sockets, this`ws
      ensures Value() == SocketAdded(old(Value()))
    {
      sockets := sockets + [Socket(false, false)];
      ws := Some(|sockets| - 1);
    }

    method Connect(disabled: bool)
      modifies this
      ensures Value() == Connected(old(Value()), disabled)
    {
      connected := true;
      if disabled { return; }
      abortController := Some(|targets|);
      retryEventTarget := Some(|targets|);
      targets := targets + [Target(DefaultOptions(), 0, None, 0)];
      ConnectWebSocket();
    }

    method Disconnect()
      modifies this
      ensures Value() == Disconnected(old(Value()))
    {
      Dispose();
      if abortController.Some? && abortController.value < |targets| {
        CancelSchedule(abortController.value);
      }
      abortController := None;
      retryEventTarget := None;
      connected := false;
    }

    method OnOpen()
      modifies this
      ensures Value() == AfterOpen(old(Value()))
    {
      if retryEventTarget.Some? && retryEventTarget.value < |targets| { MarkSuccess(retryEventTarget.value); }
    }

    method OnClose(s: nat, code: int)
      requires s < |sockets|
      modifies this
      ensures Value() == AfterClose(old(Value()), s, code)
    {
      sockets := sockets[s := sockets[s].(closed := true)];
      if sockets[s].inert { return; }
      if code == 1000 { return; }
      if retryEventTarget.Some? && retryEventTarget.value < |targets| { ScheduleRetry(retryEventTarget.value); }
    }

    /** The "retry" listener. */
    method OnRetry(h: nat)
      modifies this
      ensures Value() == AfterTimer(old(Value()), h)
    {
      timers := timers - {h};
      Dispose();
      ConnectWebSocket();
    }
  }
}
