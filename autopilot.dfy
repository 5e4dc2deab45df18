/** The autopilot plugin object of `src/plugins/autopilot/index.js`. Its
    fields are the plugin's own (`instructions`, `navigationData`) plus the
    record of what it emits on the cockpit bus and the timers it owns. Each
    listener handler is a method whose effect is the matching transition
    function of `Sequencer`; `FireInterval` and `FireTimeout` stand for the
    JavaScript runtime calling a timer callback. */
module AutopilotPlugin {
  import opened RouteQueue
  import opened Sequencer
  import SequencerProperties

  class Autopilot {
    var instructions: seq<Instr>
    var navigationData: Nav
    var log: seq<Event>
    var intervals: map<Handle, Interval>
    var timeouts: map<Handle, real>
    var nextHandle: Handle

    /** The plugin's state as a value. */
    function Snapshot(): State
      reads this
    {
      State(instructions, navigationData, log, intervals, timeouts, nextHandle)
    }

    constructor ()
      ensures Snapshot() == Initial
      ensures Wf(Snapshot())
    {
      instructions := [];
      navigationData := NoNavigation;
      log := [];
      intervals := map[];
      timeouts := map[];
      nextHandle := 0;
    }

    /** Records one emission on the cockpit bus; when a listener here
        receives the event, the caller runs that listener next. */
    method Emit(e: Event)
      modifies this
      ensures Snapshot() == old(Snapshot()).(log := old(log) + [e])
    {
      log := log + [e];
    }

    /** `setInterval(..., 100)` whose callback emits `check(handle)`. */
    method SetInterval(check: Handle -> Event) returns (h: Handle)
      modifies this
      ensures h == old(nextHandle)
      ensures Snapshot() == old(Snapshot()).(intervals := old(intervals)[h := Interval(CheckPeriodMs, check(h))],
                                             nextHandle := h + 1)
    {
      h := nextHandle;
      nextHandle := nextHandle + 1;
      intervals := intervals[h := Interval(CheckPeriodMs, check(h))];
    }

    method ParseInstruction(instr: Instr)
      modifies this
      ensures Snapshot() == OnParse(old(Snapshot()), instr)
    {
      var kind := instr.kind;
      if kind == "frw" {
        Emit(AutopilotForward(instr.value));
        Forward(instr.value);
      } else if kind == "left" {
        Emit(AutopilotLeft(instr.value));
        Left(instr.value);
      } else if kind == "right" {
        Emit(AutopilotRight(instr.value));
        Right(instr.value);
      } else if kind == "ascend" {
        Emit(AutopilotAscend(instr.value));
        Ascend(instr.value);
      } else if kind == "descend" {
        Emit(AutopilotDescend(instr.value));
        Descend(instr.value);
      }
    }

    method NextInstruction()
      modifies this
      ensures Snapshot() == OnNext(old(Snapshot()))
    {
      if |instructions| > 0 {
        var instr := instructions[|instructions| - 1];
        instructions := instructions[..|instructions| - 1];
        ParseInstruction(instr);
      }
    }

    /** `start`: copy the client's list, reverse it, run its first entry. */
    method Start(instructionList: seq<Instr>)
      modifies this
      ensures Snapshot() == OnStart(old(Snapshot()), instructionList)
    {
      instructions := [];
      for i := 0 to |instructionList|
        invariant instructions == instructionList[..i]
        invariant Snapshot() == old(Snapshot()).(instructions := instructions)
      {
        instructions := instructions + [instructionList[i]];
      }
      assert instructionList[..|instructionList|] == instructionList;
      instructions := Reversed(instructions);
      NextInstruction();
    }

    method NavigationData(navdata: Nav)
      modifies this
      ensures Snapshot() == OnNavigationData(old(Snapshot()), navdata)
    {
      navigationData := navdata;
    }

    method Forward(distance: real)
      modifies this
      ensures Snapshot() == OnForward(old(Snapshot()), distance)
    {
      Emit(SetThrottle(1));
      var h := nextHandle;
      nextHandle := nextHandle + 1;
      timeouts := timeouts[h := DistanceToTime(distance)];
    }

    method Left(degrees: real)
      modifies this
      ensures Snapshot() == OnTurn(old(Snapshot()), degrees, -1)
    {
      var startHeading := navigationData.heading;
      var _ := SetInterval((h: Handle) => AutopilotCheckDegrees(startHeading, degrees, h));
      Emit(SetYaw(-1));
    }

    method Right(degrees: real)
      modifies this
      ensures Snapshot() == OnTurn(old(Snapshot()), degrees, 1)
    {
      var startHeading := navigationData.heading;
      var _ := SetInterval((h: Handle) => AutopilotCheckDegrees(startHeading, degrees, h));
      Emit(SetYaw(1));
    }

    method Ascend(metersToAscend: real)
      modifies this
      ensures Snapshot() == OnLift(old(Snapshot()), metersToAscend, 1)
    {
      var startDepth := navigationData.depth;
      var _ := SetInterval((h: Handle) => AutopilotCheckDepth(startDepth, metersToAscend, h));
      Emit(SetLift(1));
    }

    method Descend(metersToDescend: real)
      modifies this
      ensures Snapshot() == OnLift(old(Snapshot()), metersToDescend, -1)
    {
      var startDepth := navigationData.depth;
      var _ := SetInterval((h: Handle) => AutopilotCheckDepth(startDepth, metersToDescend, h));
      Emit(SetLift(-1));
    }

    method CheckDegrees(start: Option<real>, degrees: real, idInterval: Handle)
      modifies this
      ensures Snapshot() == OnCheckDegrees(old(Snapshot()), start, degrees, idInterval)
    {
      var heading := navigationData.heading;
      if Reached(start, heading, degrees) {
        Emit(AllStop);
        intervals := intervals - {idInterval};
        NextInstruction();
      }
    }

    method CheckDepth(initialDepth: Option<real>, meters: real, idInterval: Handle)
      modifies this
      ensures Snapshot() == OnCheckDepth(old(Snapshot()), initialDepth, meters, idInterval)
    {
      var currentDepth := navigationData.depth;
      if Reached(initialDepth, currentDepth, meters) {
        Emit(AllStop);
        intervals := intervals - {idInterval};
        NextInstruction();
      }
    }

    method Abort()
      modifies this
      ensures Snapshot() == OnAbort(old(Snapshot()))
      ensures instructions == [] && log == old(log) + [AllStop]
    {
      instructions := [];
      Emit(AllStop);
    }

    /** The runtime calls the callback of interval `h`, if it is still live. */
    method FireInterval(h: Handle)
      modifies this
      ensures Snapshot() == OnInterval(old(Snapshot()), h)
    {
      if h in intervals {
        var e := intervals[h].check;
        Emit(e);
        match e {
          case AutopilotCheckDegrees(start, degrees, id) => CheckDegrees(start, degrees, id);
          case AutopilotCheckDepth(start, meters, id) => CheckDepth(start, meters, id);
          case _ =>
        }
      }
    }

    /** The runtime calls the callback of forward timeout `h`, if pending. */
    method FireTimeout(h: Handle)
      modifies this
      ensures Snapshot() == OnTimeout(old(Snapshot()), h)
    {
      if h in timeouts {
        timeouts := timeouts - {h};
        Emit(AllStop);
        NextInstruction();
      }
    }

    /** Delivers one input to the matching handler. */
    method Receive(i: Input)
      modifies this
      ensures Snapshot() == OnInput(old(Snapshot()), i)
      ensures old(Wf(Snapshot())) ==> Wf(Snapshot())
    {
      if Wf(Snapshot()) {
        SequencerProperties.InputPreservesWf(Snapshot(), i);
      }
      match i {
        case RouteStart(route) => Start(route);
        case NavigationUpdate(navdata) => NavigationData(navdata);
        case RouteAbort => Abort();
        case IntervalTick(h) => FireInterval(h);
        case TimeoutExpiry(h) => FireTimeout(h);
      }
    }
  }
}
