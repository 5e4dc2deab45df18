/** The server side of the autopilot plugin as a state machine over values.

    Every listener handler of `src/plugins/autopilot/index.js` is a function
    `OnX(s, ...)` from the plugin's state before the event to its state after.
    The cockpit bus delivers an `emit` to the listeners synchronously, so an
    emission that one of the plugin's own listeners receives is followed at
    once by that listener's effect. Timers are not real time: a live
    `setInterval` or `setTimeout` handle is an entry of a map, and a timer
    firing is the input `IntervalTick` or `TimeoutExpiry`. */
module Sequencer {
  import opened RouteQueue

  datatype Option<T> = None | Some(value: T)

  /** A route entry `{type, value}` as the browser sends it. `kind` is free
      text: anything but the five known kinds is dropped by the dispatcher. */
  datatype Instr = Instr(kind: string, value: real)

  /** The latest `plugin.navigationData.data` payload. A missing field reads
      as `undefined` in JavaScript, and arithmetic on it gives NaN. */
  datatype Nav = Nav(heading: Option<real>, depth: Option<real>)

  /** `navigationData` before the first update is `{}`. */
  const NoNavigation := Nav(None, None)

  /** An opaque timer handle, as returned by `setInterval`/`setTimeout`. */
  type Handle = nat

  /** The events the plugin emits on the cockpit bus. */
  datatype Event =
    | AutopilotForward(distance: real)                               // plugin.autopilot.forward
    | AutopilotLeft(degrees: real)                                   // plugin.autopilot.left
    | AutopilotRight(degrees: real)                                  // plugin.autopilot.right
    | AutopilotAscend(meters: real)                                  // plugin.autopilot.ascend
    | AutopilotDescend(meters: real)                                 // plugin.autopilot.descend
    | SetThrottle(rate: int)                                         // plugin.rovpilot.rates.setThrottle
    | SetYaw(rate: int)                                              // plugin.rovpilot.rates.setYaw
    | SetLift(rate: int)                                             // plugin.rovpilot.rates.setLift
    | AllStop                                                        // plugin.rovpilot.allStop
    | AutopilotCheckDegrees(start: Option<real>, degrees: real, interval: Handle)  // plugin.autopilot.checkDegrees
    | AutopilotCheckDepth(start: Option<real>, meters: real, interval: Handle)     // plugin.autopilot.checkDepth
  {
    /** One of the five movement events the dispatcher emits. */
    predicate IsMovement() {
      AutopilotForward? || AutopilotLeft? || AutopilotRight? || AutopilotAscend? || AutopilotDescend?
    }

    /** A motor rate command (all-stop is not one). */
    predicate IsRate() {
      SetThrottle? || SetYaw? || SetLift?
    }

    /** What a polling interval emits. */
    predicate IsCheck() {
      AutopilotCheckDegrees? || AutopilotCheckDepth?
    }
  }

  /** Period of every completion poll, in milliseconds. */
  const CheckPeriodMs: nat := 100

  /** Fraction of the requested turn or depth change that counts as done. */
  const Tolerance: real := 0.96

  /** A live `setInterval`: its period and the event its callback emits. */
  datatype Interval = Interval(periodMs: nat, check: Event)

  /** The fields of the plugin object, plus the bus log and the timers. */
  datatype State = State(
    instructions: seq<Instr>,          // stored reversed: the next instruction is the last element
    nav: Nav,
    log: seq<Event>,                   // every cockpit-bus emission, oldest first
    intervals: map<Handle, Interval>,  // live setInterval handles
    timeouts: map<Handle, real>,       // pending forward setTimeout handles and their requested delay in ms
    nextHandle: Handle)                // the next handle the runtime will return

  /** The state right after the constructor. */
  const Initial := State([], NoNavigation, [], map[], map[], 0)

  /** Timer bookkeeping is consistent: every handle was handed out before,
      no handle is both an interval and a timeout, and each interval's callback
      names its own handle. */
  ghost predicate Wf(s: State) {
    && (forall h :: h in s.intervals ==> h < s.nextHandle)
    && (forall h :: h in s.intervals ==> s.intervals[h].check.IsCheck() && s.intervals[h].check.interval == h)
    && (forall h :: h in s.timeouts ==> h < s.nextHandle)
    && s.intervals.Keys !! s.timeouts.Keys
  }

  /** The route still to run, in client order. */
  function Pending(s: State): seq<Instr> {
    Reversed(s.instructions)
  }

  // ---------------------------------------------------------------------------
  // Pure decisions

  /** Dead-reckoning duration of a forward move, at an assumed 2 m/s. */
  function DistanceToTime(distance: real): (ms: real)
    ensures ms == 500.0 * distance
  {
    (distance / 2.0) * 1000.0
  }

  function Abs(x: real): (r: real)
    ensures r >= 0.0 && (r == x || r == -x)
  {
    if x < 0.0 then -x else x
  }

  /** The completion test of `checkDegrees` and `checkDepth`: the reading has
      moved from its start by at least 96% of the request. An absent reading
      makes the difference NaN, and a comparison with NaN is false. */
  predicate Reached(start: Option<real>, current: Option<real>, amount: real)
    ensures Reached(start, current, amount) ==> start.Some? && current.Some?
    ensures start.Some? && current.Some? && amount <= 0.0 ==> Reached(start, current, amount)
  {
    start.Some? && current.Some? && Abs(start.value - current.value) >= amount * Tolerance
  }

  const KnownKinds: set<string> := {"frw", "left", "right", "ascend", "descend"}

  /** The `switch` of `parseInstruction`: the movement event to emit, if any. */
  function Movement(instr: Instr): (r: Option<Event>)
    ensures r.Some? ==> r.value.IsMovement() && KindOf(r.value) == instr.kind && Amount(r.value) == instr.value
  {
    if instr.kind == "frw" then Some(AutopilotForward(instr.value))
    else if instr.kind == "left" then Some(AutopilotLeft(instr.value))
    else if instr.kind == "right" then Some(AutopilotRight(instr.value))
    else if instr.kind == "ascend" then Some(AutopilotAscend(instr.value))
    else if instr.kind == "descend" then Some(AutopilotDescend(instr.value))
    else None
  }

  /** The magnitude a movement event carries. */
  function Amount(e: Event): real
    requires e.IsMovement()
  {
    match e
    case AutopilotForward(d) => d
    case AutopilotLeft(d) => d
    case AutopilotRight(d) => d
    case AutopilotAscend(m) => m
    case AutopilotDescend(m) => m
  }

  /** The instruction kind a movement event stands for. */
  function KindOf(e: Event): string
    requires e.IsMovement()
  {
    match e
    case AutopilotForward(_) => "frw"
    case AutopilotLeft(_) => "left"
    case AutopilotRight(_) => "right"
    case AutopilotAscend(_) => "ascend"
    case AutopilotDescend(_) => "descend"
  }

  /** The motor command each movement handler issues. */
  function RateCommand(e: Event): Event
    requires e.IsMovement()
  {
    match e
    case AutopilotForward(_) => SetThrottle(1)
    case AutopilotLeft(_) => SetYaw(-1)
    case AutopilotRight(_) => SetYaw(1)
    case AutopilotAscend(_) => SetLift(1)
    case AutopilotDescend(_) => SetLift(-1)
  }

  // ---------------------------------------------------------------------------
  // Listener handlers

  /** `forward`: full throttle, and a one-shot timer that ends the move. */
  function OnForward(s: State, distance: real): (r: State)
    ensures r.instructions == s.instructions && r.nav == s.nav && r.intervals == s.intervals
    ensures r.nextHandle == s.nextHandle + 1 && r.timeouts.Keys == s.timeouts.Keys + {s.nextHandle}
  {
    s.(log := s.log + [SetThrottle(1)],
       timeouts := s.timeouts[s.nextHandle := DistanceToTime(distance)],
       nextHandle := s.nextHandle + 1)
  }

  /** `left` (rate -1) and `right` (rate 1): poll the heading every 100 ms
      against the heading read now, then set the yaw rate. */
  function OnTurn(s: State, degrees: real, rate: int): (r: State)
    ensures r.instructions == s.instructions && r.nav == s.nav && r.timeouts == s.timeouts
    ensures r.nextHandle == s.nextHandle + 1 && r.intervals.Keys == s.intervals.Keys + {s.nextHandle}
    ensures var c := r.intervals[s.nextHandle].check;
      c.AutopilotCheckDegrees? && c.start == s.nav.heading && c.interval == s.nextHandle
  {
    var h := s.nextHandle;
    s.(intervals := s.intervals[h := Interval(CheckPeriodMs, AutopilotCheckDegrees(s.nav.heading, degrees, h))],
       nextHandle := h + 1,
       log := s.log + [SetYaw(rate)])
  }

  /** `ascend` (rate 1) and `descend` (rate -1): the same with the depth. */
  function OnLift(s: State, meters: real, rate: int): (r: State)
    ensures r.instructions == s.instructions && r.nav == s.nav && r.timeouts == s.timeouts
    ensures r.nextHandle == s.nextHandle + 1 && r.intervals.Keys == s.intervals.Keys + {s.nextHandle}
    ensures var c := r.intervals[s.nextHandle].check;
      c.AutopilotCheckDepth? && c.start == s.nav.depth && c.interval == s.nextHandle
  {
    var h := s.nextHandle;
    s.(intervals := s.intervals[h := Interval(CheckPeriodMs, AutopilotCheckDepth(s.nav.depth, meters, h))],
       nextHandle := h + 1,
       log := s.log + [SetLift(rate)])
  }

  /** The plugin's own listener for a movement event. */
  function OnMovement(s: State, e: Event): (r: State)
    requires e.IsMovement()
    ensures r.log == s.log + [RateCommand(e)]
    ensures r.instructions == s.instructions && r.nav == s.nav
    ensures r.nextHandle == s.nextHandle + 1
    ensures r.intervals.Keys + r.timeouts.Keys == s.intervals.Keys + s.timeouts.Keys + {s.nextHandle}
  {
    match e
    case AutopilotForward(d) => OnForward(s, d)
    case AutopilotLeft(d) => OnTurn(s, d, -1)
    case AutopilotRight(d) => OnTurn(s, d, 1)
    case AutopilotAscend(m) => OnLift(s, m, 1)
    case AutopilotDescend(m) => OnLift(s, m, -1)
  }

  /** `parseInstruction`: emit the movement event, which its listener handles
      at once; an unknown kind does nothing. */
  function OnParse(s: State, instr: Instr): (r: State)
    ensures r.instructions == s.instructions && r.nav == s.nav
    ensures |s.log| <= |r.log| && r.log[..|s.log|] == s.log
    ensures r.nextHandle == if Movement(instr).Some? then s.nextHandle + 1 else s.nextHandle
    ensures Movement(instr).None? ==> r == s
    ensures Movement(instr).Some? ==>
      r.intervals.Keys + r.timeouts.Keys == s.intervals.Keys + s.timeouts.Keys + {s.nextHandle}
  {
    match Movement(instr)
    case None => s
    case Some(e) => OnMovement(s.(log := s.log + [e]), e)
  }

  /** `nextInstruction`: pop and parse, or nothing on an empty queue. */
  function OnNext(s: State): (r: State)
    ensures r.nav == s.nav
    ensures |s.log| <= |r.log| && r.log[..|s.log|] == s.log
    ensures s.instructions == [] ==> r == s
    ensures s.instructions != [] ==> r.instructions == DropLast(s.instructions)
  {
    if |s.instructions| > 0 then
      OnParse(s.(instructions := DropLast(s.instructions)), Last(s.instructions))
    else
      s
  }

  /** `start`: replace the queue by the reversed route and run its head. */
  function OnStart(s: State, route: seq<Instr>): (r: State)
    ensures r.nav == s.nav
    ensures |s.log| <= |r.log| && r.log[..|s.log|] == s.log
    ensures |r.instructions| == if route == [] then 0 else |route| - 1
  {
    OnNext(s.(instructions := Reversed(route)))
  }

  /** `navigationData`: overwrite the snapshot. */
  function OnNavigationData(s: State, navdata: Nav): (r: State)
    ensures r.nav == navdata
    ensures r.instructions == s.instructions && r.log == s.log
    ensures r.intervals == s.intervals && r.timeouts == s.timeouts
  {
    s.(nav := navdata)
  }

  /** `checkDegrees`: on completion stop, clear the interval and advance. */
  function OnCheckDegrees(s: State, start: Option<real>, degrees: real, h: Handle): (r: State)
    ensures !Reached(start, s.nav.heading, degrees) ==> r == s
    ensures Reached(start, s.nav.heading, degrees) ==>
      |s.log| < |r.log| && r.log[..|s.log| + 1] == s.log + [AllStop]
    ensures r.nav == s.nav
  {
    if Reached(start, s.nav.heading, degrees) then
      OnNext(s.(log := s.log + [AllStop], intervals := s.intervals - {h}))
    else
      s
  }

  /** `checkDepth`: the same rule against the depth. */
  function OnCheckDepth(s: State, start: Option<real>, meters: real, h: Handle): (r: State)
    ensures !Reached(start, s.nav.depth, meters) ==> r == s
    ensures Reached(start, s.nav.depth, meters) ==>
      |s.log| < |r.log| && r.log[..|s.log| + 1] == s.log + [AllStop]
    ensures r.nav == s.nav
  {
    if Reached(start, s.nav.depth, meters) then
      OnNext(s.(log := s.log + [AllStop], intervals := s.intervals - {h}))
    else
      s
  }

  /** `abort`: empty the queue and stop; timers are left running. */
  function OnAbort(s: State): (r: State)
    ensures r.instructions == [] && Pending(r) == []
    ensures r.nav == s.nav && r.intervals == s.intervals && r.timeouts == s.timeouts
  {
    s.(instructions := [], log := s.log + [AllStop])
  }

  /** A live interval fires: its callback emits its check event, which the
      matching listener handles. A cleared handle never fires. */
  function OnInterval(s: State, h: Handle): (r: State)
    ensures h !in s.intervals ==> r == s
    ensures h in s.intervals ==> |s.log| < |r.log| && r.log[..|s.log| + 1] == s.log + [s.intervals[h].check]
    ensures r.nav == s.nav
  {
    if h in s.intervals then
      var e := s.intervals[h].check;
      var s' := s.(log := s.log + [e]);
      match e
      case AutopilotCheckDegrees(start, degrees, id) => OnCheckDegrees(s', start, degrees, id)
      case AutopilotCheckDepth(start, meters, id) => OnCheckDepth(s', start, meters, id)
      case _ => s'
    else
      s
  }

  /** A pending forward timeout fires once: stop and advance. */
  function OnTimeout(s: State, h: Handle): (r: State)
    ensures h !in s.timeouts ==> r == s
    ensures h in s.timeouts ==> |s.log| < |r.log| && r.log[..|s.log| + 1] == s.log + [AllStop]
    ensures r.nav == s.nav
  {
    if h in s.timeouts then
      OnNext(s.(timeouts := s.timeouts - {h}, log := s.log + [AllStop]))
    else
      s
  }

  // ---------------------------------------------------------------------------
  // Runs

  /** What reaches the plugin from outside: client events and timer firings. */
  datatype Input =
    | RouteStart(route: seq<Instr>)
    | NavigationUpdate(navdata: Nav)
    | RouteAbort
    | IntervalTick(handle: Handle)
    | TimeoutExpiry(handle: Handle)

  function OnInput(s: State, i: Input): (r: State)
    ensures |s.log| <= |r.log| && r.log[..|s.log|] == s.log
    ensures r.nav == if i.NavigationUpdate? then i.navdata else s.nav
  {
    match i
    case RouteStart(route) => OnStart(s, route)
    case NavigationUpdate(navdata) => OnNavigationData(s, navdata)
    case RouteAbort => OnAbort(s)
    case IntervalTick(h) => OnInterval(s, h)
    case TimeoutExpiry(h) => OnTimeout(s, h)
  }

  /** The state after handling `ins` in order. */
  function Run(s: State, ins: seq<Input>): State
    decreases |ins|
  {
    if ins == [] then s else Run(OnInput(s, ins[0]), ins[1..])
  }

  /** The movement events of a log, in order. */
  function Movements(log: seq<Event>): (m: seq<Event>)
    ensures |m| <= |log|
    ensures forall i :: 0 <= i < |m| ==> m[i].IsMovement()
    decreases |log|
  {
    if log == [] then []
    else Movements(DropLast(log)) + (if Last(log).IsMovement() then [Last(log)] else [])
  }

  /** The movement events a route should produce: one per known instruction. */
  function Dispatches(route: seq<Instr>): seq<Event>
    decreases |route|
  {
    if route == [] then []
    else Dispatches(DropLast(route)) + DispatchOf(Last(route))
  }

  function DispatchOf(instr: Instr): seq<Event> {
    match Movement(instr)
    case None => []
    case Some(e) => [e]
  }
}
