/**
 * The running cattle server as `cattle` leaves it after the spawn: the
 * readiness filter on IPC messages, the terminate function handed to the
 * caller, `_kill`'s disconnect-then-signal ordering and the `_doKill`
 * escalation on its `hasKill` flag.
 *
 * The child handle's events ('message', 'disconnect', 'exit') are delivered
 * by the runtime in an order the model leaves open: a run is any sequence of
 * enabled events. What the handlers do is recorded as a trace of actions.
 * The 'disconnect' and 'exit' events are emitted at most once each; a
 * listener registered after its event was emitted never runs.
 *
 * Two behaviours of the runtime's event emitter decide what the handlers do:
 * `cattle.on('exit', undefined)` throws, and `cattle.disconnect()` on a
 * channel that is already closed emits an 'error' event that nobody listens
 * to, which throws as well. A throw inside an event handler is uncaught and
 * ends the host; a throw from `disconnect()` goes to the caller of `_kill`.
 * `Code` chooses between the handlers as written and with the two defects
 * this causes corrected; after `process.exit` or a crash nothing runs.
 */
module Lifecycle {
  import opened Wrappers
  import opened JsValues

  datatype Signal = SIGTERM | SIGKILL

  /** The terminate function's signal: SIGKILL when `force` is truthy, SIGTERM otherwise. */
  function SignalFor(force: Value): (sig: Signal)
    ensures sig == SIGKILL <==> Truthy(force)
    ensures sig == SIGTERM <==> !Truthy(force)
  {
    if Truthy(force) then SIGKILL else SIGTERM
  }

  /** Which handlers run: the code as written, or with its two defects corrected. */
  datatype Code = AsWritten | Corrected

  /** What the orchestrator does, in the order it does it. */
  datatype Action =
    | ReadyCallback                // the launch callback runs with (null, terminate)
    | Disconnect                   // cattle.disconnect() on an open channel closes it
    | Thrown                       // cattle.disconnect() on a closed channel throws to the caller of _kill
    | Disconnected                 // the child's 'disconnect' event is emitted
    | Kill(sig: Option<Signal>)    // cattle.kill(sig); None: no signal given, the runtime's default
    | ExitCallback(listener: nat)  // an 'exit' callback registered by _kill runs
    | Crash                        // a 'disconnect' listener throws: the host ends on the uncaught exception
    | HostExit(status: int)        // process.exit(status)

  /** A 'disconnect' listener registered by `_kill`: the signal it will send and the 'exit' callback it will register. */
  datatype KillRequest = KillRequest(sig: Option<Signal>, onExit: Option<nat>)

  /** The state of one spawned cattle server. */
  datatype Session = Session(
    connected: bool,                  // the IPC channel is open on the parent's side
    disconnectEmitted: bool,          // the child's 'disconnect' event has been emitted
    onDisconnect: seq<KillRequest>,   // 'disconnect' listeners, in registration order
    onExit: seq<nat>,                 // 'exit' callbacks, in registration order
    exitEmitted: bool,                // the child's 'exit' event has been emitted
    hasKill: bool,                    // _doKill's flag
    hostEnded: bool,                  // process.exit has run or an uncaught exception ended the host
    trace: seq<Action>)

  /** Right after `childProcess.spawn(_cattlePath, args, {'stdio': ['ipc']})`. */
  const Spawned := Session(true, false, [], [], false, false, false, [])

  /** What can happen to a running server. */
  datatype Event =
    | Message(m: Value)                              // the child sends `m` over the IPC channel
    | DisconnectEvent                                // the child's 'disconnect' event
    | ExitEvent                                      // the child's 'exit' event
    | Terminate(force: Value, onExited: Option<nat>) // the caller calls the terminate function
    | DoKill                                         // _doKill() is called

  /**
   * When an event can happen: nothing once the host has ended; messages only
   * while the channel is open; each of 'disconnect' and 'exit' once; the
   * terminate function only once the caller has been handed it.
   */
  predicate Enabled(s: Session, e: Event)
  {
    !s.hostEnded &&
    match e
    case Message(_) => s.connected
    case DisconnectEvent => !s.disconnectEmitted
    case ExitEvent => !s.exitEmitted
    case Terminate(_, _) => ReadyCallback in s.trace
    case DoKill => true
  }

  /** The kills the 'disconnect' listeners send, in registration order. */
  function Kills(reqs: seq<KillRequest>): (r: seq<Action>)
    ensures |r| == |reqs|
    ensures forall i :: 0 <= i < |r| ==> r[i] == Kill(reqs[i].sig)
    decreases |reqs|
  {
    if reqs == [] then [] else [Kill(reqs[0].sig)] + Kills(reqs[1..])
  }

  /** The 'exit' callbacks the 'disconnect' listeners register, in registration order; a listener without one registers nothing. */
  function Callbacks(reqs: seq<KillRequest>): (r: seq<nat>)
    ensures |r| <= |reqs|
    ensures (forall i :: 0 <= i < |reqs| ==> reqs[i].onExit.Some?) ==>
      |r| == |reqs| && forall i :: 0 <= i < |r| ==> Some(r[i]) == reqs[i].onExit
    ensures (forall i :: 0 <= i < |reqs| ==> reqs[i].onExit.None?) ==> r == []
    decreases |reqs|
  {
    if reqs == [] then []
    else (if reqs[0].onExit.Some? then [reqs[0].onExit.value] else []) + Callbacks(reqs[1..])
  }

  /** How many listeners, from the first, carry an 'exit' callback: the rest start at the first that has none. */
  function FirstWithoutCallback(reqs: seq<KillRequest>): (k: nat)
    ensures k <= |reqs|
    ensures forall i :: 0 <= i < k ==> reqs[i].onExit.Some?
    ensures k < |reqs| ==> reqs[k].onExit.None?
    decreases |reqs|
  {
    if reqs == [] || reqs[0].onExit.None? then 0 else 1 + FirstWithoutCallback(reqs[1..])
  }

  /** The 'exit' callbacks running, in registration order. */
  function ExitCalls(listeners: seq<nat>): (r: seq<Action>)
    ensures |r| == |listeners|
    ensures forall i :: 0 <= i < |r| ==> r[i] == ExitCallback(listeners[i])
    decreases |listeners|
  {
    if listeners == [] then [] else [ExitCallback(listeners[0])] + ExitCalls(listeners[1..])
  }

  /**
   * `_kill(cattle, sig, callback)`: register a 'disconnect' listener that
   * will register `callback` for 'exit' and send `sig`, then disconnect. No
   * signal goes out now. On a channel already closed, `disconnect()` throws
   * after the listener is registered.
   */
  function KillVia(s: Session, sig: Option<Signal>, onExit: Option<nat>): (r: Session)
    ensures r.onDisconnect == s.onDisconnect + [KillRequest(sig, onExit)]
    ensures !r.connected
    ensures r.trace == s.trace + [if s.connected then Disconnect else Thrown]
    ensures r.disconnectEmitted == s.disconnectEmitted && r.onExit == s.onExit && r.exitEmitted == s.exitEmitted
    ensures r.hasKill == s.hasKill && r.hostEnded == s.hostEnded
  {
    var registered := s.(onDisconnect := s.onDisconnect + [KillRequest(sig, onExit)]);
    if s.connected then
      registered.(connected := false, trace := s.trace + [Disconnect])
    else
      registered.(trace := s.trace + [Thrown])
  }

  /**
   * The child's 'disconnect' event when the first `k` listeners run to the
   * end, each registering its 'exit' callback if it has one and then
   * signalling, and, if any listener remains, the next one throws and the
   * uncaught exception ends the host before the rest run.
   */
  function ListenersRun(s: Session, k: nat): Session
    requires k <= |s.onDisconnect|
  {
    var done := s.onDisconnect[..k];
    s.(connected := false, disconnectEmitted := true,
       onExit := s.onExit + Callbacks(done),
       hostEnded := s.hostEnded || k < |s.onDisconnect|,
       trace := s.trace + [Disconnected] + Kills(done) + (if k < |s.onDisconnect| then [Crash] else []))
  }

  /**
   * The 'disconnect' event as written: the listeners run in registration
   * order, each registering its 'exit' callback and then signalling. The
   * first listener without a callback throws in `cattle.on('exit', undefined)`
   * before its signal, and the uncaught exception ends the host before any
   * later listener runs.
   */
  function DisconnectAsWritten(s: Session): (r: Session)
    ensures !r.connected && r.disconnectEmitted
    ensures (forall i :: 0 <= i < |s.onDisconnect| ==> s.onDisconnect[i].onExit.Some?) ==>
      && r.hostEnded == s.hostEnded
      && r.trace == s.trace + [Disconnected] + Kills(s.onDisconnect)
      && r.onExit == s.onExit + Callbacks(s.onDisconnect)
    ensures (exists i :: 0 <= i < |s.onDisconnect| && s.onDisconnect[i].onExit.None?) ==>
      && r.hostEnded
      && |r.trace| >= 2 && r.trace[|r.trace| - 1] == Crash
    ensures s.onDisconnect != [] && s.onDisconnect[0].onExit.None? ==> r.trace == s.trace + [Disconnected, Crash]
  {
    var k := FirstWithoutCallback(s.onDisconnect);
    assert k == |s.onDisconnect| ==> s.onDisconnect[..k] == s.onDisconnect;
    ListenersRun(s, k)
  }

  /** The 'disconnect' event corrected: every listener signals, and only a callback that was given is registered for 'exit'. */
  function DisconnectCorrected(s: Session): (r: Session)
    ensures !r.connected && r.disconnectEmitted && r.hostEnded == s.hostEnded
    ensures r.trace == s.trace + [Disconnected] + Kills(s.onDisconnect)
    ensures r.onExit == s.onExit + Callbacks(s.onDisconnect)
  {
    assert s.onDisconnect[..|s.onDisconnect|] == s.onDisconnect;
    ListenersRun(s, |s.onDisconnect|)
  }

  /**
   * `_doKill` as written. The first call is `_kill(cattle)`. A later call is
   * `_kill(cattle, 'SIGKILL')` and then `process.exit(1)`; but the first call
   * closed the channel, so its `disconnect()` throws and the exit is not
   * reached. No call sends a signal itself.
   */
  function DoKillAsWritten(s: Session): (r: Session)
    ensures r.hasKill && s.trace <= r.trace
    ensures forall i :: |s.trace| <= i < |r.trace| ==> !r.trace[i].Kill?
    ensures r.hostEnded != s.hostEnded ==> s.hasKill && s.connected
    ensures s.hasKill && !s.connected ==> r.trace == s.trace + [Thrown]
  {
    if s.hasKill then
      var k := KillVia(s, Some(SIGKILL), None);
      if s.connected then k.(hostEnded := true, trace := k.trace + [HostExit(1)]) else k
    else
      KillVia(s.(hasKill := true), None, None)
  }

  /** `_doKill` corrected: a later call sends SIGKILL itself and then exits the host with status 1. */
  function DoKillCorrected(s: Session): (r: Session)
    ensures r.hasKill
    ensures s.hasKill ==> r.hostEnded && r.trace == s.trace + [Kill(Some(SIGKILL)), HostExit(1)]
    ensures !s.hasKill ==>
      && r.hostEnded == s.hostEnded && !r.connected
      && r.onDisconnect == s.onDisconnect + [KillRequest(None, None)]
      && |r.trace| == |s.trace| + 1 && s.trace <= r.trace && !r.trace[|s.trace|].Kill?
  {
    if s.hasKill then
      s.(hostEnded := true, trace := s.trace + [Kill(Some(SIGKILL)), HostExit(1)])
    else
      KillVia(s.(hasKill := true), None, None)
  }

  /** What one event does. The trace only grows; the channel never reopens; the flags are never reset. */
  function Next(code: Code, s: Session, e: Event): (r: Session)
    ensures s.trace <= r.trace
    ensures !s.connected ==> !r.connected
    ensures s.disconnectEmitted ==> r.disconnectEmitted
    ensures s.hasKill ==> r.hasKill
    ensures s.hostEnded ==> r.hostEnded
  {
    match e
    case Message(m) =>
      if m == Str("ready") then s.(trace := s.trace + [ReadyCallback]) else s
    case DisconnectEvent =>
      if code == AsWritten then DisconnectAsWritten(s) else DisconnectCorrected(s)
    case ExitEvent =>
      s.(exitEmitted := true, trace := s.trace + ExitCalls(s.onExit))
    case Terminate(force, onExited) =>
      KillVia(s, Some(SignalFor(force)), onExited)
    case DoKill =>
      if code == AsWritten then DoKillAsWritten(s) else DoKillCorrected(s)
  }

  /** `es` can happen, in order, from `s`. */
  predicate RunsFrom(code: Code, s: Session, es: seq<Event>)
    decreases |es|
  {
    es == [] || (Enabled(s, es[0]) && RunsFrom(code, Next(code, s, es[0]), es[1..]))
  }

  /** The state after the events `es`. */
  function Run(code: Code, s: Session, es: seq<Event>): Session
    requires RunsFrom(code, s, es)
    decreases |es|
  {
    if es == [] then s else Run(code, Next(code, s, es[0]), es[1..])
  }

  /** One more event at the end of a run. */
  lemma {:induction false} RunAppend(code: Code, s: Session, es: seq<Event>, e: Event)
    requires RunsFrom(code, s, es + [e])
    ensures RunsFrom(code, s, es) && Enabled(Run(code, s, es), e)
    ensures Run(code, s, es + [e]) == Next(code, Run(code, s, es), e)
    decreases |es|
  {
    if es == [] {
      assert es + [e] == [e];
    } else {
      assert (es + [e])[1..] == es[1..] + [e];
      RunAppend(code, Next(code, s, es[0]), es[1..], e);
    }
  }

  // ---------------------------------------------------------------------
  // The ordering invariant

  /** The kill at `i` is the escalation's SIGKILL, sent directly just before `process.exit(1)`. */
  predicate EscalationAt(t: seq<Action>, i: int)
    requires 0 <= i < |t|
  {
    i + 1 < |t| && t[i] == Kill(Some(SIGKILL)) && t[i + 1] == HostExit(1)
  }

  /** Every kill but the escalation's comes after the parent's disconnect and after the child's 'disconnect' event. */
  predicate KillsAwaitDisconnectEvent(t: seq<Action>)
  {
    forall i :: 0 <= i < |t| && t[i].Kill? && !EscalationAt(t, i) ==> Disconnect in t[..i] && Disconnected in t[..i]
  }

  /** Some kill has been sent. */
  predicate KillSent(t: seq<Action>)
  {
    exists i :: 0 <= i < |t| && t[i].Kill?
  }

  /** Every exit callback in the trace comes after some kill. */
  predicate KillBeforeExitCallback(t: seq<Action>)
  {
    forall i :: 0 <= i < |t| && t[i].ExitCallback? ==> KillSent(t[..i])
  }

  /** The host ended by an uncaught exception, or by `process.exit(1)` right after SIGKILL. */
  predicate Ended(t: seq<Action>)
  {
    || (|t| >= 1 && t[|t| - 1] == Crash)
    || (|t| >= 2 && t[|t| - 2] == Kill(Some(SIGKILL)) && t[|t| - 1] == HostExit(1))
  }

  /**
   * The orderings and what keeps them: a closed channel was closed by the
   * parent or by the child's 'disconnect' event; a registered listener means
   * a closed channel; an 'exit' callback is registered only after a kill.
   */
  predicate Ordered(s: Session)
  {
    && KillsAwaitDisconnectEvent(s.trace)
    && KillBeforeExitCallback(s.trace)
    && (!s.connected ==> Disconnect in s.trace || s.disconnectEmitted)
    && (s.disconnectEmitted ==> !s.connected)
    && (s.onDisconnect != [] ==> !s.connected)
    && (s.onExit != [] ==> KillSent(s.trace))
    && (s.hostEnded ==> Ended(s.trace))
  }

  /** What holds of every reachable session: the orderings, and `_doKill` has closed the channel once its flag is set. */
  predicate Valid(s: Session)
  {
    Ordered(s) && (s.hasKill ==> !s.connected)
  }

  /** Appending actions with no kill, and exit callbacks only after a kill, keeps both orderings. */
  lemma AppendQuiet(t: seq<Action>, u: seq<Action>)
    requires KillsAwaitDisconnectEvent(t) && KillBeforeExitCallback(t)
    requires forall j :: 0 <= j < |u| ==> !u[j].Kill?
    requires KillSent(t) || forall j :: 0 <= j < |u| ==> !u[j].ExitCallback?
    ensures KillsAwaitDisconnectEvent(t + u) && KillBeforeExitCallback(t + u)
    ensures KillSent(t) ==> KillSent(t + u)
  {
    var v := t + u;
    forall i | 0 <= i < |v| && v[i].Kill? && !EscalationAt(v, i)
      ensures Disconnect in v[..i] && Disconnected in v[..i]
    {
      assert i < |t| && v[..i] == t[..i];
      assert !EscalationAt(t, i);
    }
    forall i | 0 <= i < |v| && v[i].ExitCallback?
      ensures KillSent(v[..i])
    {
      if i < |t| {
        assert v[..i] == t[..i];
      } else {
        var k :| 0 <= k < |t| && t[k].Kill?;
        assert v[..i][k].Kill?;
      }
    }
    if KillSent(t) {
      var k :| 0 <= k < |t| && t[k].Kill?;
      assert v[k].Kill?;
    }
  }

  /** Appending the 'disconnect' event and then kills, after the parent's disconnect, keeps both orderings. */
  lemma AppendAfterEvent(t: seq<Action>, u: seq<Action>)
    requires KillsAwaitDisconnectEvent(t) && KillBeforeExitCallback(t) && Disconnect in t
    requires |u| >= 1 && u[0] == Disconnected
    requires forall j :: 0 <= j < |u| ==> !u[j].ExitCallback?
    ensures KillsAwaitDisconnectEvent(t + u) && KillBeforeExitCallback(t + u)
    ensures KillSent(t) ==> KillSent(t + u)
  {
    var v := t + u;
    var d :| 0 <= d < |t| && t[d] == Disconnect;
    forall i | 0 <= i < |v| && v[i].Kill? && !EscalationAt(v, i)
      ensures Disconnect in v[..i] && Disconnected in v[..i]
    {
      if i < |t| {
        assert v[..i] == t[..i];
        assert !EscalationAt(t, i);
      } else {
        assert i > |t|;
        assert v[..i][d] == Disconnect;
        assert v[..i][|t|] == Disconnected;
      }
    }
    forall i | 0 <= i < |v| && v[i].ExitCallback?
      ensures KillSent(v[..i])
    {
      assert i < |t| && v[..i] == t[..i];
    }
    if KillSent(t) {
      var k :| 0 <= k < |t| && t[k].Kill?;
      assert v[k].Kill?;
    }
  }

  /** Appending the escalation's SIGKILL and `process.exit(1)` keeps both orderings and ends the trace as the host ends. */
  lemma AppendEscalation(t: seq<Action>)
    requires KillsAwaitDisconnectEvent(t) && KillBeforeExitCallback(t)
    ensures var v := t + [Kill(Some(SIGKILL)), HostExit(1)];
      KillsAwaitDisconnectEvent(v) && KillBeforeExitCallback(v) && KillSent(v) && Ended(v)
  {
    var v := t + [Kill(Some(SIGKILL)), HostExit(1)];
    forall i | 0 <= i < |v| && v[i].Kill? && !EscalationAt(v, i)
      ensures Disconnect in v[..i] && Disconnected in v[..i]
    {
      assert i < |t| && v[..i] == t[..i];
      assert !EscalationAt(t, i);
    }
    forall i | 0 <= i < |v| && v[i].ExitCallback?
      ensures KillSent(v[..i])
    {
      assert i < |t| && v[..i] == t[..i];
    }
    assert v[|t|].Kill?;
  }

  /** `_kill` keeps the invariant: it sends no signal, it only registers the request and closes the channel or throws. */
  lemma KillViaKeepsValid(s: Session, sig: Option<Signal>, onExit: Option<nat>)
    requires Ordered(s) && !s.hostEnded
    ensures Valid(KillVia(s, sig, onExit))
    ensures !KillVia(s, sig, onExit).trace[|s.trace|].Kill?
  {
    var n := KillVia(s, sig, onExit);
    AppendQuiet(s.trace, [if s.connected then Disconnect else Thrown]);
    if s.connected {
      assert n.trace[|s.trace|] == Disconnect;
    } else {
      assert Disconnect in s.trace ==> Disconnect in n.trace;
    }
  }

  /** A message adds at most the launch callback. */
  lemma MessageKeepsValid(code: Code, s: Session, m: Value)
    requires Valid(s) && Enabled(s, Message(m))
    ensures Valid(Next(code, s, Message(m)))
  {
    if m == Str("ready") {
      var n := Next(code, s, Message(m));
      AppendQuiet(s.trace, [ReadyCallback]);
      assert n.trace[..|s.trace|] == s.trace;
      assert Disconnect in s.trace ==> Disconnect in n.trace;
    }
  }

  /** The actions of the 'disconnect' event keep both orderings: its kills follow the event and the parent's disconnect. */
  lemma EventActionsOrdered(t: seq<Action>, done: seq<KillRequest>, crash: bool)
    requires KillsAwaitDisconnectEvent(t) && KillBeforeExitCallback(t)
    requires done != [] ==> Disconnect in t
    ensures var v := t + [Disconnected] + Kills(done) + (if crash then [Crash] else []);
      && KillsAwaitDisconnectEvent(v) && KillBeforeExitCallback(v)
      && (KillSent(t) || done != [] ==> KillSent(v))
      && (crash ==> Ended(v))
  {
    var u := [Disconnected] + Kills(done) + (if crash then [Crash] else []);
    var v := t + [Disconnected] + Kills(done) + (if crash then [Crash] else []);
    assert v == t + u;
    if done == [] {
      assert u == [Disconnected] + (if crash then [Crash] else []);
      AppendQuiet(t, u);
    } else {
      AppendAfterEvent(t, u);
      assert v[|t| + 1].Kill?;
    }
  }

  /** However many listeners run before one throws, the 'disconnect' event keeps the invariant. */
  lemma ListenersRunKeepsValid(s: Session, k: nat)
    requires Valid(s) && Enabled(s, DisconnectEvent) && k <= |s.onDisconnect|
    ensures Valid(ListenersRun(s, k))
  {
    var done := s.onDisconnect[..k];
    EventActionsOrdered(s.trace, done, k < |s.onDisconnect|);
    assert Callbacks(done) != [] ==> done != [];
  }

  /** The 'disconnect' event sends its listeners' kills after itself and after the parent's disconnect. */
  lemma DisconnectEventKeepsValid(code: Code, s: Session)
    requires Valid(s) && Enabled(s, DisconnectEvent)
    ensures Valid(Next(code, s, DisconnectEvent))
  {
    if code == AsWritten {
      ListenersRunKeepsValid(s, FirstWithoutCallback(s.onDisconnect));
    } else {
      ListenersRunKeepsValid(s, |s.onDisconnect|);
    }
  }

  /** The 'exit' event runs exit callbacks only after a kill. */
  lemma ExitEventKeepsValid(code: Code, s: Session)
    requires Valid(s) && Enabled(s, ExitEvent)
    ensures Valid(Next(code, s, ExitEvent))
  {
    var n := Next(code, s, ExitEvent);
    AppendQuiet(s.trace, ExitCalls(s.onExit));
    assert n.trace[..|s.trace|] == s.trace;
    assert Disconnect in s.trace ==> Disconnect in n.trace;
  }

  /** `_doKill()` keeps the invariant, as written and corrected. */
  lemma DoKillKeepsValid(code: Code, s: Session)
    requires Valid(s) && Enabled(s, DoKill)
    ensures Valid(Next(code, s, DoKill))
  {
    var n := Next(code, s, DoKill);
    if !s.hasKill {
      KillViaKeepsValid(s.(hasKill := true), None, None);
    } else if code == AsWritten {
      KillViaKeepsValid(s, Some(SIGKILL), None);
    } else {
      AppendEscalation(s.trace);
      assert n.trace[..|s.trace|] == s.trace;
      assert Disconnect in s.trace ==> Disconnect in n.trace;
    }
  }

  /** Every enabled event keeps the invariant. */
  lemma NextKeepsValid(code: Code, s: Session, e: Event)
    requires Valid(s) && Enabled(s, e)
    ensures Valid(Next(code, s, e))
  {
    match e
    case Message(m) => MessageKeepsValid(code, s, m);
    case DisconnectEvent => DisconnectEventKeepsValid(code, s);
    case ExitEvent => ExitEventKeepsValid(code, s);
    case Terminate(force, onExited) => KillViaKeepsValid(s, Some(SignalFor(force)), onExited);
    case DoKill => DoKillKeepsValid(code, s);
  }

  /** Every run from a valid session ends in a valid session. */
  lemma {:induction false} RunKeepsValid(code: Code, s: Session, es: seq<Event>)
    requires Valid(s) && RunsFrom(code, s, es)
    ensures Valid(Run(code, s, es))
    decreases |es|
  {
    if es != [] {
      NextKeepsValid(code, s, es[0]);
      RunKeepsValid(code, Next(code, s, es[0]), es[1..]);
    }
  }

  /** Whatever happens after the spawn, the orderings hold. */
  lemma SpawnedRunsStayValid(code: Code, es: seq<Event>)
    requires RunsFrom(code, Spawned, es)
    ensures Valid(Run(code, Spawned, es))
  {
    RunKeepsValid(code, Spawned, es);
  }

  /** The 'disconnect' event shows in the trace exactly once it has happened. */
  lemma NextDisconnected(code: Code, s: Session, e: Event)
    ensures Disconnected in Next(code, s, e).trace <==> Disconnected in s.trace || e == DisconnectEvent
  {
    var n := Next(code, s, e);
    var u := n.trace[|s.trace|..];
    assert n.trace == s.trace + u;
    match e
    case Message(m) =>
      assert u == [] || u == [ReadyCallback];
    case DisconnectEvent =>
      assert u[0] == Disconnected;
    case ExitEvent =>
      assert u == ExitCalls(s.onExit);
    case Terminate(force, onExited) =>
      assert u == [if s.connected then Disconnect else Thrown];
    case DoKill =>
      if !s.hasKill || (code == AsWritten && !s.connected) {
        assert |u| == 1 && u[0] in {Disconnect, Thrown};
      } else if code == AsWritten {
        assert u == [Disconnect, HostExit(1)];
      } else {
        assert u == [Kill(Some(SIGKILL)), HostExit(1)];
      }
  }

  /** Over a run, the 'disconnect' event is in the trace exactly when it was in it before or the run delivers it. */
  lemma {:induction false} DisconnectedTraced(code: Code, s: Session, es: seq<Event>)
    requires RunsFrom(code, s, es)
    ensures Disconnected in Run(code, s, es).trace <==> Disconnected in s.trace || DisconnectEvent in es
    decreases |es|
  {
    if es != [] {
      NextDisconnected(code, s, es[0]);
      DisconnectedTraced(code, Next(code, s, es[0]), es[1..]);
      assert es == [es[0]] + es[1..];
    }
  }

  /**
   * `_kill`'s signal waits for the 'disconnect' event: in a run from the
   * spawn that does not deliver it, the only kill is the escalation's SIGKILL
   * right before `process.exit(1)`.
   */
  lemma KillsWaitForDisconnectEvent(code: Code, es: seq<Event>)
    requires RunsFrom(code, Spawned, es) && DisconnectEvent !in es
    ensures var t := Run(code, Spawned, es).trace;
      forall i :: 0 <= i < |t| && t[i].Kill? ==> EscalationAt(t, i)
  {
    SpawnedRunsStayValid(code, es);
    DisconnectedTraced(code, Spawned, es);
  }

  // ---------------------------------------------------------------------
  // Readiness: every 'ready' message calls back, nothing else does

  /** How many times the launch callback has run. */
  function ReadyCalls(t: seq<Action>): nat
    decreases |t|
  {
    if t == [] then 0 else (if t[|t| - 1] == ReadyCallback then 1 else 0) + ReadyCalls(t[..|t| - 1])
  }

  /** How many 'ready' messages `es` holds. */
  function ReadyMessages(es: seq<Event>): nat
    decreases |es|
  {
    if es == [] then 0 else (if es[0] == Message(Str("ready")) then 1 else 0) + ReadyMessages(es[1..])
  }

  lemma {:induction false} ReadyCallsAppend(t: seq<Action>, u: seq<Action>)
    ensures ReadyCalls(t + u) == ReadyCalls(t) + ReadyCalls(u)
    decreases |u|
  {
    if u == [] {
      assert t + u == t;
    } else {
      assert (t + u)[..|t + u| - 1] == t + u[..|u| - 1];
      ReadyCallsAppend(t, u[..|u| - 1]);
    }
  }

  /** Actions with no ReadyCallback among them add no call. */
  lemma {:induction false} NoReadyCalls(u: seq<Action>)
    requires ReadyCallback !in u
    ensures ReadyCalls(u) == 0
    decreases |u|
  {
    if u != [] {
      assert u == u[..|u| - 1] + [u[|u| - 1]];
      NoReadyCalls(u[..|u| - 1]);
    }
  }

  /**
   * A message calls back exactly when it is 'ready', once per message and
   * without a once-guard; any other message changes nothing at all; no other
   * event calls back.
   */
  lemma NextReadyCalls(code: Code, s: Session, e: Event)
    ensures ReadyCalls(Next(code, s, e).trace) == ReadyCalls(s.trace) + (if e == Message(Str("ready")) then 1 else 0)
    ensures e.Message? && e.m != Str("ready") ==> Next(code, s, e) == s
  {
    match e
    case Message(m) =>
      if m == Str("ready") {
        ReadyCallsAppend(s.trace, [ReadyCallback]);
        assert [ReadyCallback][..0] == [];
      }
    case DisconnectEvent =>
      if code == AsWritten {
        ListenersRunReadyCalls(s, FirstWithoutCallback(s.onDisconnect));
      } else {
        ListenersRunReadyCalls(s, |s.onDisconnect|);
      }
    case ExitEvent =>
      QuietAppend(s.trace, ExitCalls(s.onExit));
    case Terminate(_, _) =>
      QuietAppend(s.trace, [if s.connected then Disconnect else Thrown]);
    case DoKill =>
      DoKillReadyCalls(code, s);
  }

  /** The 'disconnect' event calls nothing back. */
  lemma ListenersRunReadyCalls(s: Session, k: nat)
    requires k <= |s.onDisconnect|
    ensures ReadyCalls(ListenersRun(s, k).trace) == ReadyCalls(s.trace)
  {
    var u := [Disconnected] + Kills(s.onDisconnect[..k]) + (if k < |s.onDisconnect| then [Crash] else []);
    assert ListenersRun(s, k).trace == s.trace + u;
    QuietAppend(s.trace, u);
  }

  /** `_doKill()` calls nothing back. */
  lemma DoKillReadyCalls(code: Code, s: Session)
    ensures ReadyCalls(Next(code, s, DoKill).trace) == ReadyCalls(s.trace)
  {
    if !s.hasKill || (code == AsWritten && !s.connected) {
      QuietAppend(s.trace, [if s.connected then Disconnect else Thrown]);
    } else if code == AsWritten {
      QuietAppend(s.trace, [Disconnect, HostExit(1)]);
    } else {
      QuietAppend(s.trace, [Kill(Some(SIGKILL)), HostExit(1)]);
    }
  }

  /** Appending actions that hold no launch callback leaves the count as it was. */
  lemma QuietAppend(t: seq<Action>, u: seq<Action>)
    requires ReadyCallback !in u
    ensures ReadyCalls(t + u) == ReadyCalls(t)
  {
    ReadyCallsAppend(t, u);
    NoReadyCalls(u);
  }

  /** Over any run, the launch callback runs once for every 'ready' message and at no other time. */
  lemma {:induction false} ReadyCallsMatchReadyMessages(code: Code, s: Session, es: seq<Event>)
    requires RunsFrom(code, s, es)
    ensures ReadyCalls(Run(code, s, es).trace) == ReadyCalls(s.trace) + ReadyMessages(es)
    decreases |es|
  {
    if es != [] {
      NextReadyCalls(code, s, es[0]);
      ReadyCallsMatchReadyMessages(code, Next(code, s, es[0]), es[1..]);
    }
  }

  // ---------------------------------------------------------------------
  // Escalation: the hasKill flag

  /** How many `_doKill()` calls `es` holds. */
  function DoKillCalls(es: seq<Event>): nat
    decreases |es|
  {
    if es == [] then 0 else (if es[0] == DoKill then 1 else 0) + DoKillCalls(es[1..])
  }

  /** `hasKill` is set by the first `_doKill()` and never reset. */
  lemma {:induction false} HasKillOnceSet(code: Code, s: Session, es: seq<Event>)
    requires RunsFrom(code, s, es)
    ensures Run(code, s, es).hasKill <==> s.hasKill || DoKillCalls(es) > 0
    decreases |es|
  {
    if es != [] {
      HasKillOnceSet(code, Next(code, s, es[0]), es[1..]);
    }
  }

  /** Corrected, the host ends exactly on the second `_doKill()` call, counting one already made when `hasKill` is set. */
  lemma {:induction false} HostExitsOnSecondDoKill(s: Session, es: seq<Event>)
    requires RunsFrom(Corrected, s, es) && !s.hostEnded
    ensures Run(Corrected, s, es).hostEnded <==> (if s.hasKill then 1 else 0) + DoKillCalls(es) >= 2
    decreases |es|
  {
    if es != [] {
      var n := Next(Corrected, s, es[0]);
      if n.hostEnded {
        assert es[0] == DoKill && s.hasKill;
        EndedHostRunsNothing(Corrected, n, es[1..]);
      } else {
        HostExitsOnSecondDoKill(n, es[1..]);
      }
    }
  }

  /** Once the host has ended no event happens. */
  lemma EndedHostRunsNothing(code: Code, s: Session, es: seq<Event>)
    requires s.hostEnded && RunsFrom(code, s, es)
    ensures es == []
  {
  }

  /**
   * Corrected, `_doKill()` after an earlier one, with anything in between,
   * sends SIGKILL and exits the host with status 1.
   */
  lemma DoKillEscalates(s: Session, es: seq<Event>)
    requires RunsFrom(Corrected, s, es + [DoKill])
    requires s.hasKill || DoKillCalls(es) > 0
    ensures var r := Run(Corrected, s, es + [DoKill]);
      && r.hostEnded && |r.trace| >= 2
      && r.trace[|r.trace| - 2..] == [Kill(Some(SIGKILL)), HostExit(1)]
  {
    RunAppend(Corrected, s, es, DoKill);
    HasKillOnceSet(Corrected, s, es);
  }

  // ---------------------------------------------------------------------
  // Termination protocol

  /** The handshake and a terminate: the launch callback has run, the channel is closed, one request waits. */
  lemma TerminateAfterReady(code: Code, force: Value, onExited: Option<nat>)
    ensures Next(code, Next(code, Spawned, Message(Str("ready"))), Terminate(force, onExited))
      == Session(false, false, [KillRequest(Some(SignalFor(force)), onExited)], [], false, false, false, [ReadyCallback, Disconnect])
  {
  }

  /** The 'disconnect' event with one request waiting sends its signal and registers its callback, if it has one. */
  lemma DisconnectWithOneRequest(code: Code, req: KillRequest, t: seq<Action>)
    requires code == Corrected || req.onExit.Some?
    ensures Next(code, Session(false, false, [req], [], false, false, false, t), DisconnectEvent)
      == Session(false, true, [req], if req.onExit.Some? then [req.onExit.value] else [], false, false, false,
                 t + [Disconnected, Kill(req.sig)])
  {
    assert [req][..1] == [req];
  }

  /**
   * After the handshake, `terminate(force, onExited)` disconnects; once the
   * 'disconnect' event comes the chosen signal goes out, and once 'exit'
   * comes `onExited` runs. As written this needs a callback; corrected, a
   * terminate without one signals as well.
   */
  lemma TerminateProtocol(code: Code, force: Value, onExited: Option<nat>)
    requires code == Corrected || onExited.Some?
    ensures var es := [Message(Str("ready")), Terminate(force, onExited), DisconnectEvent, ExitEvent];
      && RunsFrom(code, Spawned, es)
      && Run(code, Spawned, es).trace
         == [ReadyCallback, Disconnect, Disconnected, Kill(Some(SignalFor(force)))]
            + (if onExited.Some? then [ExitCallback(onExited.value)] else [])
  {
    var req := KillRequest(Some(SignalFor(force)), onExited);
    var es := [Message(Str("ready")), Terminate(force, onExited), DisconnectEvent, ExitEvent];
    var s1 := Spawned.(trace := [ReadyCallback]);
    var s2 := Session(false, false, [req], [], false, false, false, [ReadyCallback, Disconnect]);
    TerminateAfterReady(code, force, onExited);
    var callbacks := if onExited.Some? then [onExited.value] else [];
    var s3 := Session(false, true, [req], callbacks, false, false, false, [ReadyCallback, Disconnect, Disconnected, Kill(req.sig)]);
    DisconnectWithOneRequest(code, req, [ReadyCallback, Disconnect]);
    var s4 := s3.(exitEmitted := true, trace := s3.trace + ExitCalls(callbacks));
    assert Next(code, Spawned, Message(Str("ready"))) == s1;
    assert es[1..][1..] == es[2..] && es[2..][1..] == es[3..];
    RunStep(code, s3, es[3..], s4);
    RunStep(code, s2, es[2..], s4);
    RunStep(code, s1, es[1..], s4);
    RunStep(code, Spawned, es, s4);
  }

  /** A run is its first event followed by the rest. */
  lemma RunStep(code: Code, s: Session, es: seq<Event>, r: Session)
    requires es != [] && Enabled(s, es[0])
    requires RunsFrom(code, Next(code, s, es[0]), es[1..]) && Run(code, Next(code, s, es[0]), es[1..]) == r
    ensures RunsFrom(code, s, es) && Run(code, s, es) == r
  {
  }

  /**
   * A terminate after the 'disconnect' event was already emitted (the child
   * closed the channel first) throws at `disconnect()`, and without
   * `_doKill()` no kill follows: its listener waits for an event that does
   * not come again, so no entry the run appends after the call is a kill.
   */
  lemma LateTerminateNeverSignals(code: Code, s: Session, force: Value, onExited: Option<nat>, es: seq<Event>)
    requires Valid(s) && s.disconnectEmitted && Enabled(s, Terminate(force, onExited))
    requires RunsFrom(code, Next(code, s, Terminate(force, onExited)), es)
    requires forall j :: 0 <= j < |es| ==> !es[j].DoKill?
    ensures Next(code, s, Terminate(force, onExited)).trace == s.trace + [Thrown]
    ensures var r := Run(code, Next(code, s, Terminate(force, onExited)), es);
      && s.trace <= r.trace
      && forall i :: |s.trace| <= i < |r.trace| ==> !r.trace[i].Kill?
  {
    var n := Next(code, s, Terminate(force, onExited));
    NoNewKills(code, n, es);
  }

  /**
   * With 'disconnect' already emitted and no `_doKill()`, no event adds a
   * kill: every entry past the starting trace is something else.
   */
  lemma {:induction false} NoNewKills(code: Code, s: Session, es: seq<Event>)
    requires s.disconnectEmitted && RunsFrom(code, s, es)
    requires forall j :: 0 <= j < |es| ==> !es[j].DoKill?
    ensures var r := Run(code, s, es);
      && s.trace <= r.trace
      && forall i :: |s.trace| <= i < |r.trace| ==> !r.trace[i].Kill?
    decreases |es|
  {
    if es != [] {
      var n := Next(code, s, es[0]);
      assert !es[0].DisconnectEvent?;
      assert forall i :: |s.trace| <= i < |n.trace| ==> !n.trace[i].Kill? by {
        match es[0]
        case Message(m) =>
        case ExitEvent =>
          assert n.trace == s.trace + ExitCalls(s.onExit);
          assert forall a :: a in ExitCalls(s.onExit) ==> a.ExitCallback?;
        case Terminate(_, _) =>
          assert n.trace == s.trace + [if s.connected then Disconnect else Thrown];
      }
      NoNewKills(code, n, es[1..]);
    }
  }

  // ---------------------------------------------------------------------
  // The handlers as written

  /**
   * As written, a terminate without a callback never signals: at the
   * 'disconnect' event its listener throws in `cattle.on('exit', undefined)`
   * before `cattle.kill(sig)`, and the host ends on the uncaught exception.
   */
  lemma AsWrittenTerminateWithoutCallbackCrashes(force: Value)
    ensures var es := [Message(Str("ready")), Terminate(force, None), DisconnectEvent];
      && RunsFrom(AsWritten, Spawned, es)
      && Run(AsWritten, Spawned, es).hostEnded
      && Run(AsWritten, Spawned, es).trace == [ReadyCallback, Disconnect, Disconnected, Crash]
  {
    var s1 := Next(AsWritten, Spawned, Message(Str("ready")));
    var s2 := Next(AsWritten, s1, Terminate(force, None));
    var s3 := Next(AsWritten, s2, DisconnectEvent);
    assert s3.trace == [ReadyCallback, Disconnect, Disconnected, Crash];
    var es := [Message(Str("ready")), Terminate(force, None), DisconnectEvent];
    assert RunsFrom(AsWritten, s3, es[3..]) && Run(AsWritten, s3, es[3..]) == s3;
    assert RunsFrom(AsWritten, s2, es[2..]) && Run(AsWritten, s2, es[2..]) == s3;
    assert RunsFrom(AsWritten, s1, es[1..]) && Run(AsWritten, s1, es[1..]) == s3;
  }

  /** What `_doKill()` alone leaves behind: no kill, no exit, and only 'disconnect' listeners without an 'exit' callback. */
  predicate DoKillOnly(s: Session)
  {
    && (forall i :: 0 <= i < |s.trace| ==> !s.trace[i].Kill? && !s.trace[i].HostExit?)
    && (forall i :: 0 <= i < |s.onDisconnect| ==> s.onDisconnect[i].onExit.None?)
  }

  /** One event other than a terminate, as written, adds no kill and no exit. */
  lemma AsWrittenNextDoKillOnly(s: Session, e: Event)
    requires Valid(s) && DoKillOnly(s) && Enabled(s, e) && !e.Terminate?
    ensures DoKillOnly(Next(AsWritten, s, e))
  {
    var n := Next(AsWritten, s, e);
    match e
    case Message(m) =>
      assert n.trace == s.trace || n.trace == s.trace + [ReadyCallback];
    case DisconnectEvent =>
      if s.onDisconnect == [] {
        assert n.trace == s.trace + [Disconnected];
      } else {
        assert n.trace == s.trace + [Disconnected, Crash];
      }
    case ExitEvent =>
      assert n.trace == s.trace + ExitCalls(s.onExit);
    case DoKill =>
      assert n.trace == s.trace + [if s.connected then Disconnect else Thrown];
  }

  /**
   * As written, `_doKill()` never gets a signal out and never exits the host:
   * in a run from the spawn with no terminate, however often `_doKill()` is
   * called and whenever 'disconnect' and 'exit' come, the trace holds no kill
   * and no `process.exit`.
   */
  lemma {:induction false} AsWrittenDoKillNeverKills(s: Session, es: seq<Event>)
    requires Valid(s) && DoKillOnly(s) && RunsFrom(AsWritten, s, es)
    requires forall j :: 0 <= j < |es| ==> !es[j].Terminate?
    ensures DoKillOnly(Run(AsWritten, s, es))
    decreases |es|
  {
    if es != [] {
      AsWrittenNextDoKillOnly(s, es[0]);
      NextKeepsValid(AsWritten, s, es[0]);
      AsWrittenDoKillNeverKills(Next(AsWritten, s, es[0]), es[1..]);
    }
  }

  /**
   * The concrete run: ready, `_doKill()`, `_doKill()`, 'disconnect'. The
   * second call throws at `disconnect()` before `process.exit(1)`; at the
   * event the first call's listener throws before its signal.
   */
  lemma AsWrittenEscalationExample()
    ensures var es := [Message(Str("ready")), DoKill, DoKill, DisconnectEvent];
      && RunsFrom(AsWritten, Spawned, es)
      && Run(AsWritten, Spawned, es).trace == [ReadyCallback, Disconnect, Thrown, Disconnected, Crash]
  {
    var s1 := Next(AsWritten, Spawned, Message(Str("ready")));
    var s2 := Next(AsWritten, s1, DoKill);
    var s3 := Next(AsWritten, s2, DoKill);
    var s4 := Next(AsWritten, s3, DisconnectEvent);
    assert s3.trace == [ReadyCallback, Disconnect, Thrown];
    assert s4.trace == [ReadyCallback, Disconnect, Thrown, Disconnected, Crash];
    var es := [Message(Str("ready")), DoKill, DoKill, DisconnectEvent];
    assert RunsFrom(AsWritten, s4, es[4..]) && Run(AsWritten, s4, es[4..]) == s4;
    assert RunsFrom(AsWritten, s3, es[3..]) && Run(AsWritten, s3, es[3..]) == s4;
    assert RunsFrom(AsWritten, s2, es[2..]) && Run(AsWritten, s2, es[2..]) == s4;
    assert RunsFrom(AsWritten, s1, es[1..]) && Run(AsWritten, s1, es[1..]) == s4;
  }

  // ---------------------------------------------------------------------
  // The imperative server object

  /** One spawned cattle server with the corrected handlers: the child handle's channel and listeners, `hasKill`, and what has been done. */
  class CattleServer {
    var connected: bool
    var disconnectEmitted: bool
    var onDisconnect: seq<KillRequest>
    var onExit: seq<nat>
    var exitEmitted: bool
    var hasKill: bool
    var hostEnded: bool
    var trace: seq<Action>

    function State(): Session
      reads this
    {
      Session(connected, disconnectEmitted, onDisconnect, onExit, exitEmitted, hasKill, hostEnded, trace)
    }

    /** The spawn: the channel is open and nothing has happened yet. */
    constructor ()
      ensures State() == Spawned && Valid(State())
    {
      connected, disconnectEmitted, onDisconnect, onExit := true, false, [], [];
      exitEmitted, hasKill, hostEnded, trace := false, false, false, [];
    }

    /** The 'message' handler: only 'ready' hands the caller the terminate function. */
    method OnMessage(m: Value)
      requires Valid(State()) && Enabled(State(), Message(m))
      modifies this
      ensures Valid(State()) && State() == Next(Corrected, old(State()), Message(m))
    {
      NextKeepsValid(Corrected, State(), Message(m));
      if m == Str("ready") {
        trace := trace + [ReadyCallback];
      }
    }

    /** `_kill(cattle, sig, callback)`: register the listener, then disconnect; on a closed channel the call throws. */
    method KillWith(sig: Option<Signal>, callback: Option<nat>)
      requires Ordered(State()) && !hostEnded
      modifies this
      ensures Valid(State()) && State() == KillVia(old(State()), sig, callback)
    {
      KillViaKeepsValid(State(), sig, callback);
      onDisconnect := onDisconnect + [KillRequest(sig, callback)];
      if connected {
        connected := false;
        trace := trace + [Disconnect];
      } else {
        trace := trace + [Thrown];
      }
    }

    /** The terminate function handed to the caller: `_kill(cattle, force ? 'SIGKILL' : 'SIGTERM', callback)`. */
    method Terminate(force: Value, callback: Option<nat>)
      requires Valid(State()) && Enabled(State(), Event.Terminate(force, callback))
      modifies this
      ensures Valid(State()) && State() == Next(Corrected, old(State()), Event.Terminate(force, callback))
    {
      KillWith(Some(SignalFor(force)), callback);
    }

    /** `_doKill`, corrected: the first call is `_kill(cattle)`, any later one sends SIGKILL then exits with status 1. */
    method DoKill()
      requires Valid(State()) && Enabled(State(), Event.DoKill)
      modifies this
      ensures Valid(State()) && State() == Next(Corrected, old(State()), Event.DoKill)
    {
      NextKeepsValid(Corrected, State(), Event.DoKill);
      if hasKill {
        trace := trace + [Kill(Some(SIGKILL))];
        trace := trace + [HostExit(1)];
        hostEnded := true;
        assert trace == old(trace) + [Kill(Some(SIGKILL)), HostExit(1)];
      } else {
        hasKill := true;
        KillWith(None, None);
      }
    }

    /** The child's 'disconnect' event, corrected: each `_kill` listener registers its 'exit' callback, if any, and sends its signal. */
    method OnDisconnect()
      requires Valid(State()) && Enabled(State(), DisconnectEvent)
      modifies this
      ensures Valid(State()) && State() == Next(Corrected, old(State()), DisconnectEvent)
    {
      NextKeepsValid(Corrected, State(), DisconnectEvent);
      connected, disconnectEmitted := false, true;
      onExit := onExit + Callbacks(onDisconnect);
      trace := trace + [Disconnected] + Kills(onDisconnect);
    }

    /** The child's 'exit' event: the registered 'exit' callbacks run. */
    method OnExit()
      requires Valid(State()) && Enabled(State(), ExitEvent)
      modifies this
      ensures Valid(State()) && State() == Next(Corrected, old(State()), ExitEvent)
    {
      NextKeepsValid(Corrected, State(), ExitEvent);
      exitEmitted := true;
      trace := trace + ExitCalls(onExit);
    }
  }
}
