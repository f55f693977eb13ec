# cowboy-cli-api, modelled in Dafny

`index.js` drives two external binaries. `cowboy(...)` runs a short-lived
command and reports its exit code and output. `cattle(...)` launches a
long-running server over an IPC channel and hands the caller a terminate
function once the server says `'ready'`. This project models the logic in
that file, in these modules:

- `JsValues` (values.dfy): JavaScript values by kind. Underscore's `_.isObject`
  is true for objects, arrays and functions. `Truthy` is JavaScript's `if (x)`.
- `BinaryPaths` (paths.dfy): the module-level `_cattlePath` / `_cowboyPath`
  cells as a class `Paths` with two fields, plus their get-or-set rule `Accept`.
  The lemmas say that a series of calls leaves the last truthy argument stored.
- `Overloads` (overloads.dfy): the optional positional arguments. A fixed
  order of slots each shift the front argument when it has the slot's kind.
  The generic `Fill` is proved to consume a prefix. It inverts positional
  calling exactly when the call is unambiguous. `CowboyArguments` and
  `CattleArguments` are the shifting code, proved equal to the resolution
  functions.
- `ArgVector` (argvector.dfy): the spawned argument vector. A parser,
  `ParseCowboyVector`, is proved to invert assembly in both directions, except
  for one ambiguous layout: a command of `"--"` followed by command args, which
  reads the same as no command and command args starting with `"--"`.
- `Invocation` (invocation.dfy): one call end to end. The two file steps enter
  as outcomes. A failure goes to the resolved callback and nothing is
  spawned. A spawn always carries `--config <path>`.
- `Lifecycle` (lifecycle.dfy): the running server. The runtime's events
  ('message', 'disconnect', 'exit') and the calls (terminate, `_doKill`)
  form runs over a `Session`, and their effects are a trace of actions. The
  event emitter's throws are part of the model: `on('exit', undefined)`
  throws inside the 'disconnect' listener and ends the host, and
  `disconnect()` on a closed channel throws to the caller of `_kill`. `Code`
  selects the handlers as written or corrected (see Findings). An invariant
  is kept over every run under both: every kill except the escalation's
  SIGKILL waits for the 'disconnect' event, no exit callback comes before a
  kill, and the host ends only on an uncaught exception or right after a
  SIGKILL. `CattleServer` is the corrected state as a class whose methods
  update it in place. `_doKill` is defined but never called in index.js; the
  model lets a call come at any time.

A reader might expect a launch callback that runs once, a forced terminate
that skips the disconnect, and an escalation with four states. The code does
otherwise, and the model follows the code:

- Every `'ready'` message calls the launch callback again (no once-guard).
- `terminate(true)` goes through `_kill` too: it disconnects first and sends
  SIGKILL only when the 'disconnect' event comes.
- `_doKill` escalates on any second call, whether or not the first is still
  in flight. Its state is the single `hasKill` flag.
- A function passed first fills the config slot, so `cattle(function() {...})`
  (the example in the comment at index.js:126) never calls that function back.

## Model

| member | source | states |
|---|---|---|
| BinaryPaths.StoredAfter | index.js:14-31 | after a series of get-or-set calls the stored path is the initial path or one of the truthy arguments |
| BinaryPaths.Accept | index.js:14-20 | the stored path after a call is the argument or the old path; a truthy stored path stays truthy |
| BinaryPaths.StoredIsLastTruthy | index.js:25-31 | after any series of get-or-set calls the stored path is the last truthy argument, or the initial path when none was truthy |
| BinaryPaths.LastTruthyCons | index.js:14-20 | the last truthy argument of `[c] + t` is t's, or c when t has none (step of the proof above) |
| BinaryPaths.StoredStaysTruthy | index.js:8-9 | starting from the truthy initial names, the stored path is never falsy |
| BinaryPaths.AcceptIdempotent | index.js:15-17 | repeating a get-or-set call changes nothing further |
| BinaryPaths.Paths.constructor | index.js:8-9 | the initial paths are 'cattle' and 'cowboy' |
| BinaryPaths.Paths.CattlePath | index.js:14-20 | a truthy argument replaces the cattle path, a falsy one leaves it; answers the stored path; the cowboy path is untouched |
| BinaryPaths.Paths.CowboyPath | index.js:25-31 | the same for the cowboy path, leaving the cattle path untouched |
| Overloads.Fill | index.js:52-75 | filling gives one entry per slot |
| Overloads.FillTakesPrefix | index.js:52-75 | the arguments taken are a prefix of the call, in slot order, at most one per slot, each of its slot's kind |
| Overloads.FillRoundTrip | index.js:52-75 | resolving a positional call gives back exactly what it supplied if and only if the call is unambiguous |
| Overloads.ResolveCowboy | index.js:52-75 | config is taken exactly when the first argument is an object that is not an array, and is that argument; a resolved argv, command, command args or callback is one of the call's arguments, of its slot's kind |
| Overloads.ResolveCattle | index.js:136-149 | the same for cattle's config, argv and callback |
| Overloads.ResolveCowboyFills | index.js:52-75 | cowboy's five shifts are the filling over config, argv, command, commandArgv, callback |
| Overloads.ResolveCattleFills | index.js:136-149 | cattle's three shifts are the filling over config, argv, callback |
| Overloads.CowboyConsumesPrefix | index.js:44-75 | cowboy leaves a suffix of its arguments, at most five shorter |
| Overloads.CattleConsumesPrefix | index.js:130-149 | cattle leaves a suffix of its arguments, at most three shorter |
| Overloads.CowboyReadsBackUnambiguousCalls | index.js:43-75 | an unambiguous cowboy call resolves to exactly the values it supplied |
| Overloads.CattleReadsBackUnambiguousCalls | index.js:129-149 | an unambiguous cattle call resolves to exactly the values it supplied |
| Overloads.FunctionFirstIsConfig | index.js:137-139 | a function passed first fills the config slot and the callback stays the no-op |
| Overloads.EmptyStringIsConsumedAsCommand | index.js:63-65 | the empty string is taken as the command |
| Overloads.DefaultsWhenOmitted | index.js:46-50 | with no arguments the slots keep `{}`, `[]`, null, `[]` and the no-op |
| Overloads.CowboyDocumentedCalls | index.js:36-41 | the four documented calls resolve to the intended slots |
| Overloads.CowboyArguments | index.js:44-75 | the shifting code computes cowboy's resolution and leftover arguments |
| Overloads.CattleArguments | index.js:130-149 | the shifting code computes cattle's resolution and leftover arguments |
| ArgVector.CowboyVector | index.js:88-103 | argv unchanged in front, then `--config` and the path; the command only when truthy; `--` and the command args only when there are some; the length counts exactly these tokens |
| ArgVector.CattleVector | index.js:162-164 | argv unchanged in front, then `--config` and the path, and nothing else |
| ArgVector.ParseInvertsCowboyVector | index.js:88-103 | parsing the assembled vector gives back argv, path, the truthy command and the command args, except when the command is "--" and command args follow |
| ArgVector.ParsedVectorsAreAssembled | index.js:88-103 | every vector the parser accepts is the assembly of what it read |
| ArgVector.CowboyVectorBoundaries | index.js:94-103 | a null or empty command and empty command args emit no token; the layout on concrete vectors |
| ArgVector.CattleVectorIsBareCowboyVector | index.js:162-164 | the cattle vector is argv followed by the config pair, the cowboy layout with no command |
| ArgVector.AssembleCowboyArgs | index.js:89-103 | the pushes onto the copy build exactly the cowboy vector |
| ArgVector.AssembleCattleArgs | index.js:163-164 | the pushes onto the copy build exactly the cattle vector |
| Invocation.Cowboy | index.js:77-105 | a spawn happens if and only if both file steps succeed; the outcome goes to the resolved callback; a failure carries the first step's error |
| Invocation.Cattle | index.js:151-166 | the same for cattle |
| Invocation.CowboySpawnsOnlyWithConfig | index.js:77-105 | cowboy spawns if and only if both file steps succeed, with exactly the vector assembled from the resolved argv, command and command args around `--config <path>`, so the resolved argv comes first; otherwise the first error goes to the callback |
| Invocation.CattleSpawnsOnlyWithConfig | index.js:151-166 | cattle spawns if and only if both file steps succeed, with argv followed by `--config <path>`; otherwise the first error goes to the callback |
| Lifecycle.SignalFor | index.js:170 | SIGKILL exactly when force is truthy, SIGTERM otherwise |
| Lifecycle.KillVia | index.js:190-197 | `_kill` sends no signal itself: it adds a waiting 'disconnect' listener with the signal and callback, leaves the channel closed, and throws exactly when the channel was already closed; nothing else changes |
| Lifecycle.DisconnectAsWritten | index.js:191-194 | as written, when every listener has a callback, all signal in order after the event and register their callbacks; when one lacks a callback the host ends on the uncaught exception; a first listener without one sends nothing |
| Lifecycle.DisconnectCorrected | index.js:191-194 | corrected, every listener signals in order after the event, only given callbacks are registered, and the host goes on |
| Lifecycle.DoKillAsWritten | index.js:176-185 | as written, `_doKill` sets `hasKill` and never sends a signal itself; it could exit only on a channel still open; with the flag set and the channel closed it only throws |
| Lifecycle.DoKillCorrected | index.js:176-185 | corrected, the first call sets the flag and leaves a default-signal request with no callback, sending nothing yet; a later call sends SIGKILL and then exits with status 1 |
| Lifecycle.Next | index.js:167-197 | every event only extends the trace; a closed channel stays closed; the 'disconnect', `hasKill` and host-ended flags are never reset |
| Lifecycle.KillViaKeepsValid | index.js:190-197 | `_kill` keeps the invariant and adds no kill |
| Lifecycle.MessageKeepsValid | index.js:167-174 | a message keeps the invariant |
| Lifecycle.ListenersRunKeepsValid | index.js:191-194 | however many listeners complete before one throws, the 'disconnect' event keeps the invariant |
| Lifecycle.DisconnectEventKeepsValid | index.js:191-194 | as written and corrected, the listeners' kills come after the 'disconnect' event and after the parent's disconnect |
| Lifecycle.ExitEventKeepsValid | index.js:192 | exit callbacks run only after a kill |
| Lifecycle.DoKillKeepsValid | index.js:176-185 | `_doKill`, as written and corrected, keeps the invariant |
| Lifecycle.NextKeepsValid | index.js:167-197 | every enabled event keeps the invariant |
| Lifecycle.RunKeepsValid | index.js:167-197 | every run keeps the invariant |
| Lifecycle.SpawnedRunsStayValid | index.js:166-197 | from the spawn on, every kill but the escalation's SIGKILL follows both the parent's disconnect and the 'disconnect' event, a kill precedes every exit callback, and the host ends only on a crash or right after SIGKILL |
| Lifecycle.NextDisconnected | index.js:191 | the 'disconnect' event shows in the trace exactly once it has been emitted |
| Lifecycle.DisconnectedTraced | index.js:191 | over a run, the 'disconnect' event is in the trace if and only if it was before or the run delivers it |
| Lifecycle.KillsWaitForDisconnectEvent | index.js:190-197 | in a run from the spawn without the 'disconnect' event, the only kill is the escalation's SIGKILL right before `process.exit(1)` |
| Lifecycle.NextReadyCalls | index.js:167-174 | a message calls back if and only if it is 'ready'; any other message changes nothing |
| Lifecycle.ReadyCallsMatchReadyMessages | index.js:167-174 | over any run the callback runs once per 'ready' message and at no other time |
| Lifecycle.HasKillOnceSet | index.js:176-185 | `hasKill` is set if and only if `_doKill` was called; it is never reset |
| Lifecycle.HostExitsOnSecondDoKill | index.js:178-180 | corrected, the host ends if and only if `_doKill` has been called twice |
| Lifecycle.EndedHostRunsNothing | index.js:180 | nothing happens once the host has ended |
| Lifecycle.DoKillEscalates | index.js:176-185 | corrected, a `_doKill` after an earlier one, whatever came between, sends SIGKILL and then exits with status 1 |
| Lifecycle.TerminateAfterReady | index.js:168-171 | after 'ready', terminate leaves the channel closed and one request waiting, with nothing signalled |
| Lifecycle.DisconnectWithOneRequest | index.js:191-194 | the 'disconnect' event with one waiting request sends its signal and registers its callback |
| Lifecycle.TerminateProtocol | index.js:169-171 | after 'ready', terminate disconnects, the chosen signal follows the 'disconnect' event, and onExited follows 'exit' |
| Lifecycle.LateTerminateNeverSignals | index.js:190-197 | a terminate after the 'disconnect' event throws at `disconnect()`, and without `_doKill` no entry appended after it, at any position, is a kill |
| Lifecycle.NoNewKills | index.js:191-194 | with 'disconnect' already emitted and no `_doKill`, the trace only grows and no entry past the starting trace is a kill |
| Lifecycle.AsWrittenTerminateWithoutCallbackCrashes | index.js:191-193 | as written, a terminate without a callback ends the host at the 'disconnect' event, before its signal |
| Lifecycle.AsWrittenNextDoKillOnly | index.js:176-196 | as written, an event other than terminate adds no kill, no exit, and no listener with a callback |
| Lifecycle.AsWrittenDoKillNeverKills | index.js:176-185 | as written, with no terminate, however often `_doKill` runs and whatever the child does, no kill is sent and the host never exits |
| Lifecycle.AsWrittenEscalationExample | index.js:176-196 | as written, ready, `_doKill`, `_doKill`, 'disconnect' gives a disconnect, a throw, the event and a crash: no signal and no exit |
| Lifecycle.CattleServer.constructor | index.js:166 | after the spawn the channel is open and nothing has happened |
| Lifecycle.CattleServer.OnMessage | index.js:167-174 | the message handler is the readiness step, keeping the invariant |
| Lifecycle.CattleServer.KillWith | index.js:190-197 | `_kill` registers its listener, then disconnects or throws on a closed channel |
| Lifecycle.CattleServer.Terminate | index.js:169-172 | the terminate function is `_kill` with the chosen signal |
| Lifecycle.CattleServer.DoKill | index.js:176-185 | `_doKill` (corrected) sets `hasKill` on the first call; a later one sends SIGKILL and exits |
| Lifecycle.CattleServer.OnDisconnect | index.js:191-194 | the 'disconnect' listeners (corrected) register the callbacks they have and send their signals |
| Lifecycle.CattleServer.OnExit | index.js:192 | the registered exit callbacks run |

## Findings

| source | as written | input that shows it | evidently intended | confidence | as-written member | corrected member |
|---|---|---|---|---|---|---|
| index.js:191-193 | `_kill`'s 'disconnect' listener calls `cattle.on('exit', callback)` before `cattle.kill(sig)`. With no callback this throws, so the signal is never sent and the uncaught exception ends the host. | `terminate(false)` without a callback, then the 'disconnect' event; also every first `_doKill()`, which passes none | the exit callback is optional and the signal is always sent | high: the event emitter rejects a listener that is not a function; not executed | Lifecycle.AsWrittenTerminateWithoutCallbackCrashes | Lifecycle.TerminateProtocol |
| index.js:178-180 | the second `_doKill()` calls `_kill(cattle, 'SIGKILL')` on the channel the first call closed. `disconnect()` then emits an 'error' that nobody handles and throws, so `process.exit(1)` is never reached. Its SIGKILL listener waits for a 'disconnect' event that has already been emitted, or whose first listener (the first call's, with no callback) throws first. | two calls of `_doKill()` | send SIGKILL to the child, then exit with status 1 | medium: relies on Node's disconnect and event-emitter behaviour; not executed | Lifecycle.AsWrittenDoKillNeverKills | Lifecycle.DoKillEscalates |

`Lifecycle.Next` takes the `Code`. The lemmas on the invariant, readiness
and `hasKill` hold for both codes. `CattleServer` uses the corrected handlers.

## Left out

- Temporary-file creation, its `cowboy-<command>-config` prefix, `JSON.stringify` of the config and `fs.writeFile`. These enter only as the outcome of each file step (`TempFile`, and the write's optional error).
- `childProcess.spawn`, the stdio and IPC wiring, UTF-8 decoding and the `output +=` accumulation. Cowboy's `'close'` handler, which calls `callback(code, output)`, is also left out. This is process I/O; the model ends at the `Spawn` outcome.
- Real signal delivery and `process.exit`. They appear only as `Kill` and `HostExit` actions in the trace. A kill with no signal argument stays `Kill(None)`; the model does not resolve it to the runtime's default signal.
- The uncaught exception itself: `Crash` ends the host, but Node's exit status for it and any `'uncaughtException'` hook are not modelled.
- A throw from `disconnect()` reaches whoever called `_kill`. The model records it as `Thrown` and lets the run go on, as for a caller that catches it.
- Links between the child's events. The model lets 'disconnect' and 'exit' come in either order; it does not force a 'disconnect' when the child exits.
- Message payloads other than kinds. `message === 'ready'` is modelled as equality with `Str("ready")`.
- Array contents are strings only (`Arr(items: seq<string>)`). Numbers and booleans are kept only as their truthiness.
- `argv.slice()`: sequences are values, so the caller's argv cannot be changed by assembly. The model has no aliasing to prove this about.
- A working-directory setting is not in the source, so it is not part of this model.
