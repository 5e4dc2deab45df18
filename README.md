# Autopilot route sequencer

A Dafny model of the server side of the OpenROV cockpit autopilot plugin
(`src/plugins/autopilot/index.js`). The plugin takes a route from the browser:
an ordered list of `{type, value}` instructions, where `type` is one of `frw`,
`left`, `right`, `ascend` and `descend`. It runs the route one instruction at
a time:

- A forward move sets full throttle and arms a dead-reckoning timeout of
  `(d/2)*1000` ms.
- A turn sets the yaw rate and polls the heading every 100 ms. A depth change
  sets the lift rate and polls the depth the same way.
- A poll all-stops and advances the route once the reading has moved by 96%
  of the request.
- `abort` empties the queue and all-stops.

Files:

- `route_queue.dfy` (module `RouteQueue`): the queue is stored reversed and
  consumed with `pop`. This module proves that this hands the route out in
  client order.
- `sequencer.dfy` (module `Sequencer`): the plugin state as a value (`State`)
  and one transition function per listener handler (`OnStart`, `OnNext`,
  `OnParse`, `OnForward`, `OnTurn`, `OnLift`, `OnCheckDegrees`,
  `OnCheckDepth`, `OnAbort`, `OnNavigationData`). It also has the timer
  firings `OnInterval` and `OnTimeout`, and `Run` over a sequence of inputs.
- `sequencer_props.dfy` (module `SequencerProperties`): the lemmas.
- `autopilot.dfy` (module `AutopilotPlugin`): class `Autopilot`, with the
  plugin's fields and one method per handler. Each method is proved to have
  exactly the effect of its transition function.

Modelling decisions:

- The cockpit bus delivers an `emit` to listeners synchronously. When the
  plugin emits an event that one of its own listeners receives (a movement
  event from `parseInstruction`, a check event from an interval callback),
  that listener's effect follows at once. `log` records every emission in
  order.
- Timers are not real time. A live `setInterval`/`setTimeout` is an entry in
  `intervals`/`timeouts`, keyed by a fresh handle. The runtime calling a
  callback is the input `IntervalTick(h)`/`TimeoutExpiry(h)`, or the methods
  `FireInterval`/`FireTimeout`. Firing a handle that is not live does
  nothing. The run-level lemmas quantify over every order of inputs, so they
  hold for every timing.
- `navigationData` starts as `{}`. If a reading is missing, the JavaScript
  difference is NaN and the completion test is false. The model writes
  readings as `Option<real>`, and an absent reading never completes a check.
- Instruction values are numbers (`real`). The browser actually sends strings
  from text inputs that JavaScript coerces; that coercion is not modelled.

Behaviour of the code worth noting:

- Forward time is computed at a fixed 2 m/s (`distanceToTime`).
- Headings are compared with a plain absolute difference, without
  wrap-around normalisation: `TurnAcrossSeamCompletesEarly` shows a turn
  that crosses ±180° completing early.
- `abort` clears only the queue and cancels no timer. Live intervals and
  pending timeouts keep running. Up to the next `start`, a pending forward
  timeout only emits an extra all-stop later and dispatches nothing
  (`AbortSilences`). After a new `start`, that old timeout (like any stale
  interval) advances the new route: `AbortThenRestartCutsShort` shows it
  ending the new route's forward move early and dispatching the next turn
  while the new move's own timeout is still pending.
- An instruction of unknown kind is popped and nothing else happens. No timer
  is armed, so the rest of the route stalls, whether the unknown instruction
  comes first (`UnknownKindStalls`) or later (`UnknownInstructionStalls`). The
  route does not move on to the next instruction.
- A turn or depth change dispatched before the first navigation update reads
  its start heading or depth as `undefined`. Its check then compares against
  NaN and never completes, even after data arrives. The move never ends by
  itself: the yaw or lift stays on until the next all-stop (an abort, or the
  end of a later route's move), and the interval keeps polling even after that
  (`TurnBeforeNavigationNeverCompletes`).
- `start` during a route (or after `abort`) leaves the old route's intervals
  and timeouts live. If such a stale timer completes, it advances the new
  route. The dispatch order is still the client's (`DispatchOrder` allows any
  timer to fire), but the timing is not, and more than one timer can be live
  (`OneInFlight` holds only up to the next `start`).
- The server emits no `task-state` event: the only emissions are the movement
  events, the check events, the motor rate commands and all-stop.

## Model

| member | source | states |
|---|---|---|
| RouteQueue.Last | src/plugins/autopilot/index.js:44 | the element `pop` returns: the last stored one |
| RouteQueue.DropLast | src/plugins/autopilot/index.js:44 | what `pop` leaves: one element fewer |
| RouteQueue.Reversed | src/plugins/autopilot/index.js:63 | `reverse()` returns a sequence of the same length whose element i is element n-1-i of the input |
| RouteQueue.ReversedInvolution | src/plugins/autopilot/index.js:63 | reversing a route twice gives the route back |
| RouteQueue.PopReversed | src/plugins/autopilot/index.js:42-47 | `pop` on a reversed route returns its first element and leaves the reversed rest |
| RouteQueue.PopOrderOfReversed | src/plugins/autopilot/index.js:57-65 | popping a reversed route until it is empty visits the route in exactly the client's order |
| Sequencer.DistanceToTime | src/plugins/autopilot/index.js:49-51 | the forward delay is 500 ms per metre |
| Sequencer.Abs | src/plugins/autopilot/index.js:121 | `Math.abs` is non-negative and equals x or -x |
| Sequencer.Reached | src/plugins/autopilot/index.js:121-123 | the completion test holds only when both readings are present; with both present, a request of 0 or less completes at once |
| Sequencer.Movement | src/plugins/autopilot/index.js:21-39 | a dispatched event is a movement event naming the instruction's kind and carrying its value |
| Sequencer.OnForward | src/plugins/autopilot/index.js:72-79 | the forward listener leaves queue, navigation data and intervals alone and adds exactly one timeout, under the fresh handle |
| Sequencer.OnTurn | src/plugins/autopilot/index.js:81-97 | a turn listener leaves queue, navigation data and timeouts alone and adds exactly one interval, under the fresh handle, whose check starts from the current heading and names that handle |
| Sequencer.OnLift | src/plugins/autopilot/index.js:99-116 | the same for ascend and descend, polling the depth |
| Sequencer.OnMovement | src/plugins/autopilot/index.js:72-116 | a movement event delivered to its listener appends exactly its motor command (RateCommand: throttle 1, yaw -1/1, lift 1/-1), keeps the queue and navigation data, and arms one timer under the fresh handle |
| Sequencer.OnParse | src/plugins/autopilot/index.js:19-40 | parsing keeps the queue and navigation data, only appends to the log, and arms a timer under one fresh handle exactly when the kind is known; an unknown kind changes nothing |
| Sequencer.OnNext | src/plugins/autopilot/index.js:42-47 | on an empty queue nothing changes; otherwise exactly the last stored instruction is removed; the log is only appended to |
| Sequencer.OnStart | src/plugins/autopilot/index.js:57-65 | after `start` the queue holds one instruction fewer than a non-empty route and none for an empty one (which ones, in client order: StartEffect); navigation data is kept and the log only appended to |
| Sequencer.OnNavigationData | src/plugins/autopilot/index.js:67-70 | the snapshot is replaced; queue, log and timers are untouched |
| Sequencer.OnCheckDegrees | src/plugins/autopilot/index.js:118-128 | an incomplete check changes nothing; a complete one emits all-stop before anything else |
| Sequencer.OnCheckDepth | src/plugins/autopilot/index.js:130-140 | the same against the depth |
| Sequencer.OnAbort | src/plugins/autopilot/index.js:142-146 | abort empties the queue and keeps navigation data and every timer |
| Sequencer.OnInterval | src/plugins/autopilot/index.js:84-86 | a handle that is not live changes nothing; a live one first emits its check event |
| Sequencer.OnTimeout | src/plugins/autopilot/index.js:75-78 | a handle that is not pending changes nothing; a pending one first emits all-stop |
| Sequencer.OnInput | src/plugins/autopilot/index.js:57-146 | every input only appends to the log, and only a navigation update changes the navigation data |
| SequencerProperties.DistanceToTimeMonotone | src/plugins/autopilot/index.js:49-51 | the forward delay is monotone in the distance and 0 for 0 m |
| SequencerProperties.MovementTable | src/plugins/autopilot/index.js:19-40 | the dispatcher emits an event iff the kind is one of the five known ones; that event is a movement event naming the kind and carrying the instruction's value |
| SequencerProperties.MovementRoundTrip | src/plugins/autopilot/index.js:21-39 | each movement event is the dispatch of exactly the instruction with its kind and value (the table is invertible) |
| SequencerProperties.ParseEffect | src/plugins/autopilot/index.js:19-116 | an unknown kind changes nothing; a known kind appends its movement event and then its motor command, arms one timer under a fresh handle (forward: timeout of DistanceToTime(value); turn: heading poll from the current heading; lift: depth poll from the current depth), and leaves the queue and navigation data alone |
| SequencerProperties.MotorSigns | src/plugins/autopilot/index.js:72-116 | forward sets throttle 1, left yaw -1, right yaw 1, ascend lift 1, descend lift -1, each right after its movement event |
| SequencerProperties.NextEffect | src/plugins/autopilot/index.js:42-47 | on an empty queue nothing changes; otherwise the first pending instruction in client order is parsed, exactly one instruction (the last stored one) is removed, and the rest stays pending |
| SequencerProperties.StartEffect | src/plugins/autopilot/index.js:57-65 | the result does not depend on the queue before `start`; an empty route emits nothing; otherwise the route's first instruction is parsed and the rest is pending in client order |
| SequencerProperties.UnknownKindStalls | src/plugins/autopilot/index.js:19-47 | a route whose first kind is unknown is popped without any emission, and with no other timers live no timer firing changes the state afterwards |
| SequencerProperties.UnknownInstructionStalls | src/plugins/autopilot/index.js:19-47 | anywhere in a route: with no timer live, advancing onto an unknown kind pops it without emission or timer, and no later firing changes the state; the rest of the route stays pending |
| SequencerProperties.TurnBeforeNavigationNeverCompletes | src/plugins/autopilot/index.js:81-128 | a left turn started before any navigation data captures no start heading; after any navigation update its poll only re-emits the check and never completes |
| SequencerProperties.CheckDegreesRule | src/plugins/autopilot/index.js:118-128 | checkDegrees completes iff the start and current heading differ by at least 96% of the request; then all-stop is emitted, its interval is cleared, every other interval and timeout survives and the queue advances once; otherwise the state is unchanged |
| SequencerProperties.CheckDepthRule | src/plugins/autopilot/index.js:130-140 | the same rule for checkDepth against the depth |
| SequencerProperties.AbsentReadingNeverCompletes | src/plugins/autopilot/index.js:118-123 | a heading check with no start or no current heading (NaN in the code) leaves the state unchanged |
| SequencerProperties.TurnThreshold | src/plugins/autopilot/index.js:121-123 | a 90 degree turn from heading 10 completes exactly when the heading is at least 86.4 degrees away |
| SequencerProperties.TurnAcrossSeamCompletesEarly | src/plugins/autopilot/index.js:120-123 | without wrap-around, heading -175 to 179 counts as a completed 20 degree turn |
| SequencerProperties.AbortEffect | src/plugins/autopilot/index.js:142-146 | abort leaves the queue empty and appends one all-stop; navigation data and every live timer are left as they were |
| SequencerProperties.AbortIdempotent | src/plugins/autopilot/index.js:142-146 | a second abort leaves the same state apart from one more all-stop |
| SequencerProperties.AbortSilences | src/plugins/autopilot/index.js:142-146 | after an abort, for any later timer firings, navigation updates and aborts (no `start`): the queue stays empty, no handle is handed out, no timer is added, and no movement event or motor rate command is emitted |
| SequencerProperties.DispatchOrder | src/plugins/autopilot/index.js:42-65 | after `start(route)` and any sequence of timer firings and navigation updates: the movement events emitted are the dispatches of a prefix of the route in client order, and the rest of the route is exactly what is pending |
| SequencerProperties.RouteDrained | src/plugins/autopilot/index.js:42-65 | once the queue has drained, each known instruction of the route was dispatched exactly once, in client order |
| SequencerProperties.InitialWf | src/plugins/autopilot/index.js:14-15 | the state after construction has consistent timer bookkeeping |
| SequencerProperties.InputPreservesWf | src/plugins/autopilot/index.js:72-140 | every input keeps handles fresh and distinct, and keeps each interval's check naming its own handle |
| SequencerProperties.CompletedIntervalIsCleared | src/plugins/autopilot/index.js:84-86 | in a consistent state, a live interval whose check completes removes itself, after emitting its check event and all-stop |
| SequencerProperties.OneInFlight | src/plugins/autopilot/index.js:42-140 | after `start` from a state with no timer, and for any later inputs up to the next `start` (aborts included), at most one interval or timeout is live |
| SequencerProperties.AbortThenRestartCutsShort | src/plugins/autopilot/index.js:57-146 | route [forward 10], abort, then route [forward 10, left 90]: the first route's timeout stops the second forward move and dispatches left 90 while the second move's timeout is still pending |
| SequencerProperties.ForwardThenLeft | src/plugins/autopilot/index.js:57-128 | route [forward 5, left 90] from heading 10 emits throttle with a 2500 ms timeout, then all-stop and yaw -1 with one poll, then all-stop at heading -80, and ends with an empty queue and no timers |
| AutopilotPlugin.Autopilot.constructor | src/plugins/autopilot/index.js:14-15 | the queue is empty, navigation data is empty and no timer is live |
| AutopilotPlugin.Autopilot.ParseInstruction | src/plugins/autopilot/index.js:19-40 | the new state is OnParse of the old one: a known kind emits its movement event and its handler runs; any other kind changes nothing (see MovementTable, ParseEffect) |
| AutopilotPlugin.Autopilot.Emit | src/plugins/autopilot/index.js:74 | `cockpitBus.emit` appends the event to the log and changes nothing else |
| AutopilotPlugin.Autopilot.SetInterval | src/plugins/autopilot/index.js:84-86 | `setInterval` returns a fresh handle and records a 100 ms interval whose callback emits the check naming that handle |
| AutopilotPlugin.Autopilot.NextInstruction | src/plugins/autopilot/index.js:42-47 | the new state is OnNext of the old one: nothing on an empty queue, otherwise the last stored (first pending) instruction is removed and parsed (see NextEffect) |
| AutopilotPlugin.Autopilot.Start | src/plugins/autopilot/index.js:57-65 | the copy loop rebuilds the client list, which is stored reversed before the first instruction runs; the new state is OnStart of the old one |
| AutopilotPlugin.Autopilot.NavigationData | src/plugins/autopilot/index.js:67-70 | navigation data is overwritten and nothing else changes |
| AutopilotPlugin.Autopilot.Forward | src/plugins/autopilot/index.js:72-79 | the new state is OnForward: throttle 1 and a fresh timeout of DistanceToTime(distance) |
| AutopilotPlugin.Autopilot.Left | src/plugins/autopilot/index.js:81-88 | the new state is OnTurn with rate -1: a fresh heading poll from the current heading, then yaw -1 |
| AutopilotPlugin.Autopilot.Right | src/plugins/autopilot/index.js:90-97 | the new state is OnTurn with rate 1 |
| AutopilotPlugin.Autopilot.Ascend | src/plugins/autopilot/index.js:99-106 | the new state is OnLift with rate 1: a fresh depth poll from the current depth, then lift 1 |
| AutopilotPlugin.Autopilot.Descend | src/plugins/autopilot/index.js:108-116 | the new state is OnLift with rate -1 |
| AutopilotPlugin.Autopilot.CheckDegrees | src/plugins/autopilot/index.js:118-128 | the new state is OnCheckDegrees of the old one: all-stop, clear the interval and advance iff the heading moved by 96% of the request, else no change (see CheckDegreesRule) |
| AutopilotPlugin.Autopilot.CheckDepth | src/plugins/autopilot/index.js:130-140 | the new state is OnCheckDepth of the old one: the same rule against the depth (see CheckDepthRule) |
| AutopilotPlugin.Autopilot.Abort | src/plugins/autopilot/index.js:142-146 | the queue is empty, one all-stop is appended, and the rest is as OnAbort says |
| AutopilotPlugin.Autopilot.FireInterval | src/plugins/autopilot/index.js:84-86 | a live interval's callback emits its check event and the check listener runs; a cleared handle does nothing |
| AutopilotPlugin.Autopilot.FireTimeout | src/plugins/autopilot/index.js:75-78 | a pending forward timeout fires once: all-stop, then the next instruction |
| AutopilotPlugin.Autopilot.Receive | src/plugins/autopilot/index.js:57-146 | each input runs its listener with exactly the effect of OnInput, and keeps the timer bookkeeping consistent |

## Left out

- Plugin `start()`/`stop()` (enabling and disabling the listeners) and `getSettingSchema` (`src/plugins/autopilot/index.js:151-209`). This is scaffolding: the listeners are taken as always enabled, and the schema is unrelated to the sequencer.
- `src/libs/Listener.js` is not part of this model. Its delivery is taken to be synchronous, as an event emitter's is.
- Wall-clock time. Delays and periods are recorded with each timer, but the model does not order firings by them. Any firing order is allowed, which is more than the runtime allows. The recorded delay is the one requested from `setTimeout`; Node replaces a delay below 1 ms, above 2^31-1 ms or NaN by 1 ms, so `frw 0`, a negative distance or one above about 4 295 km ends the move at once. No lemma depends on this, since firings are not ordered by time.
- Console logging (`src/plugins/autopilot/index.js:122`, `:134`).
- Other members of the navigation payload: only `heading` and `depth` are modelled.
- JavaScript string-to-number coercion of instruction values. Values are numbers.
- Bus users other than the browser emitting `plugin.autopilot.forward`, `checkDegrees` and similar events directly. The class methods accept such calls, but `Input` and the run-level lemmas cover only route start, abort, navigation updates and timer firings.
- What the motor subsystem does with `setThrottle`, `setYaw`, `setLift` and `allStop`. These are only recorded.
- The browser plugin, object recognition and detection plugins, and classic UI: user interface and I/O.
- Number representation. Values are exact reals, not IEEE doubles. In JavaScript `90*0.96` is `86.39999999999999`, so the 96% thresholds (`src/plugins/autopilot/index.js:123`, `:135`) and `distanceToTime` (`:49-51`) can differ from the model in the last bit; `TurnThreshold` states the exact-real boundary 86.4.
