/** What the autopilot plugin's handlers promise, proved about the transition
    functions of `Sequencer`. */
module SequencerProperties {
  import opened RouteQueue
  import opened Sequencer

  // ---------------------------------------------------------------------------
  // Dead reckoning

  /** The delay of a forward move grows with the distance and is 0 for 0 m. */
  lemma DistanceToTimeMonotone(d: real, d': real)
    requires d <= d'
    ensures DistanceToTime(d) <= DistanceToTime(d')
    ensures DistanceToTime(0.0) == 0.0
  {
  }

  // ---------------------------------------------------------------------------
  // The dispatch table

  /** Exactly the five known kinds produce an event; it is a movement event
      that names the instruction's kind and carries its value. */
  lemma MovementTable(instr: Instr)
    ensures Movement(instr).Some? <==> instr.kind in KnownKinds
    ensures Movement(instr).Some? ==>
      && Movement(instr).value.IsMovement()
      && KindOf(Movement(instr).value) == instr.kind
      && Amount(Movement(instr).value) == instr.value
  {
  }

  /** Every movement event is the dispatch of exactly one instruction. */
  lemma MovementRoundTrip(e: Event)
    requires e.IsMovement()
    ensures Movement(Instr(KindOf(e), Amount(e))) == Some(e)
  {
  }

  /** What `parseInstruction` does to the state: an unknown kind changes
      nothing; a known kind emits its movement event and then its motor
      command, installs one timer under a fresh handle, and touches nothing
      else. */
  lemma ParseEffect(s: State, instr: Instr)
    ensures Movement(instr).None? ==> OnParse(s, instr) == s
    ensures Movement(instr).Some? ==>
      var e, t, h := Movement(instr).value, OnParse(s, instr), s.nextHandle;
      && t.log == s.log + [e, RateCommand(e)]
      && t.instructions == s.instructions
      && t.nav == s.nav
      && t.nextHandle == h + 1
      && (e.AutopilotForward? ==>
            t.timeouts == s.timeouts[h := DistanceToTime(instr.value)] && t.intervals == s.intervals)
      && (e.AutopilotLeft? || e.AutopilotRight? ==>
            t.intervals == s.intervals[h := Interval(CheckPeriodMs, AutopilotCheckDegrees(s.nav.heading, instr.value, h))]
            && t.timeouts == s.timeouts)
      && (e.AutopilotAscend? || e.AutopilotDescend? ==>
            t.intervals == s.intervals[h := Interval(CheckPeriodMs, AutopilotCheckDepth(s.nav.depth, instr.value, h))]
            && t.timeouts == s.timeouts)
  {
  }

  /** The motor command of each handler, with its fixed sign. */
  lemma MotorSigns(s: State, v: real)
    ensures OnParse(s, Instr("frw", v)).log == s.log + [AutopilotForward(v), SetThrottle(1)]
    ensures OnParse(s, Instr("left", v)).log == s.log + [AutopilotLeft(v), SetYaw(-1)]
    ensures OnParse(s, Instr("right", v)).log == s.log + [AutopilotRight(v), SetYaw(1)]
    ensures OnParse(s, Instr("ascend", v)).log == s.log + [AutopilotAscend(v), SetLift(1)]
    ensures OnParse(s, Instr("descend", v)).log == s.log + [AutopilotDescend(v), SetLift(-1)]
  {
  }

  // ---------------------------------------------------------------------------
  // The queue

  /** `nextInstruction` on an empty queue changes nothing; otherwise it
      parses the first pending instruction in client order and leaves exactly
      the others pending. */
  lemma NextEffect(s: State)
    ensures s.instructions == [] ==> OnNext(s) == s
    ensures s.instructions != [] ==>
      && Pending(s) != []
      && OnNext(s) == OnParse(s.(instructions := DropLast(s.instructions)), Pending(s)[0])
      && OnNext(s).instructions == DropLast(s.instructions)
      && Pending(OnNext(s)) == Pending(s)[1..]
  {
    if s.instructions != [] {
      var q := s.instructions;
      ReversedInvolution(q);
      PopReversed(Reversed(q));
      ParseEffect(s.(instructions := DropLast(q)), Last(q));
      ReversedInvolution(Reversed(q)[1..]);
    }
  }

  /** `start` discards whatever was queued. An empty route leaves the queue
      empty and emits nothing; otherwise the route's first instruction is
      parsed and the rest is pending in client order. */
  lemma StartEffect(s: State, route: seq<Instr>, old_queue: seq<Instr>)
    ensures OnStart(s, route) == OnStart(s.(instructions := old_queue), route)
    ensures route == [] ==> OnStart(s, route) == s.(instructions := [])
    ensures route != [] ==>
      && OnStart(s, route) == OnParse(s.(instructions := Reversed(route[1..])), route[0])
      && Pending(OnStart(s, route)) == route[1..]
  {
    if route != [] {
      var u := s.(instructions := Reversed(route));
      NextEffect(u);
      ReversedInvolution(route);
      PopReversed(route);
    }
  }

  /** An instruction of unknown kind is popped without any emission and
      without a timer, so when no older timer is live nothing advances the
      queue again: the rest of the route waits for the next `start`. */
  lemma UnknownKindStalls(s: State, route: seq<Instr>)
    requires route != [] && route[0].kind !in KnownKinds
    requires s.intervals == map[] && s.timeouts == map[]
    ensures OnStart(s, route).log == s.log
    ensures Pending(OnStart(s, route)) == route[1..]
    ensures forall h :: OnInterval(OnStart(s, route), h) == OnStart(s, route)
    ensures forall h :: OnTimeout(OnStart(s, route), h) == OnStart(s, route)
  {
    StartEffect(s, route, s.instructions);
    MovementTable(route[0]);
  }

  /** The same anywhere in a route: when the move before an unknown
      instruction ends and no other timer is live, `nextInstruction` pops the
      unknown instruction silently, arms nothing, and no firing advances the
      queue again. */
  lemma UnknownInstructionStalls(s: State)
    requires s.instructions != [] && Pending(s)[0].kind !in KnownKinds
    requires s.intervals == map[] && s.timeouts == map[]
    ensures OnNext(s).log == s.log
    ensures Pending(OnNext(s)) == Pending(s)[1..]
    ensures OnNext(s).intervals == map[] && OnNext(s).timeouts == map[]
    ensures forall h :: OnInterval(OnNext(s), h) == OnNext(s)
    ensures forall h :: OnTimeout(OnNext(s), h) == OnNext(s)
  {
    NextEffect(s);
    MovementTable(Pending(s)[0]);
  }

  /** A turn dispatched before the first navigation update captures no start
      heading, so its poll never completes, whatever data arrives later: each
      tick only emits the check again. */
  lemma TurnBeforeNavigationNeverCompletes(nav: Nav)
    ensures var s1 := OnStart(Initial, [Instr("left", 90.0)]);
      var s2 := OnNavigationData(s1, nav);
      && s1.log == [AutopilotLeft(90.0), SetYaw(-1)]
      && s1.intervals == map[0 := Interval(CheckPeriodMs, AutopilotCheckDegrees(None, 90.0, 0))]
      && OnInterval(s2, 0) == s2.(log := s2.log + [AutopilotCheckDegrees(None, 90.0, 0)])
  {
    var route := [Instr("left", 90.0)];
    StartEffect(Initial, route, Initial.instructions);
    assert route[1..] == [];
  }

  // ---------------------------------------------------------------------------
  // Completion checks

  /** The rest of a pending route after one advance. */
  function Tail(q: seq<Instr>): seq<Instr> {
    if q == [] then [] else q[1..]
  }

  /** `checkDegrees` completes iff the heading moved by at least 96% of the
      request. Then it emits all-stop, clears its interval and advances once;
      otherwise it changes nothing and emits nothing. */
  lemma CheckDegreesRule(s: State, start: Option<real>, degrees: real, h: Handle)
    requires h < s.nextHandle
    ensures var t := OnCheckDegrees(s, start, degrees, h);
      && (!Reached(start, s.nav.heading, degrees) ==> t == s)
      && (Reached(start, s.nav.heading, degrees) ==>
            && |s.log| < |t.log| && t.log[..|s.log| + 1] == s.log + [AllStop]
            && h !in t.intervals
            && Pending(t) == Tail(Pending(s))
            && t.nav == s.nav
            && s.intervals.Keys - {h} <= t.intervals.Keys
            && s.timeouts.Keys <= t.timeouts.Keys)
  {
    if Reached(start, s.nav.heading, degrees) {
      var u := s.(log := s.log + [AllStop], intervals := s.intervals - {h});
      NextEffect(u);
      if u.instructions != [] {
        ParseEffect(u.(instructions := DropLast(u.instructions)), Pending(u)[0]);
      }
    }
  }

  /** `checkDepth` follows the same rule against the depth. */
  lemma CheckDepthRule(s: State, start: Option<real>, meters: real, h: Handle)
    requires h < s.nextHandle
    ensures var t := OnCheckDepth(s, start, meters, h);
      && (!Reached(start, s.nav.depth, meters) ==> t == s)
      && (Reached(start, s.nav.depth, meters) ==>
            && |s.log| < |t.log| && t.log[..|s.log| + 1] == s.log + [AllStop]
            && h !in t.intervals
            && Pending(t) == Tail(Pending(s))
            && t.nav == s.nav
            && s.intervals.Keys - {h} <= t.intervals.Keys
            && s.timeouts.Keys <= t.timeouts.Keys)
  {
    if Reached(start, s.nav.depth, meters) {
      var u := s.(log := s.log + [AllStop], intervals := s.intervals - {h});
      NextEffect(u);
      if u.instructions != [] {
        ParseEffect(u.(instructions := DropLast(u.instructions)), Pending(u)[0]);
      }
    }
  }

  /** A check against a reading that has not arrived never completes. */
  lemma AbsentReadingNeverCompletes(s: State, start: Option<real>, amount: real, h: Handle)
    requires s.nav.heading.None? || start.None?
    ensures OnCheckDegrees(s, start, amount, h) == s
  {
  }

  /** A 90 degree turn from heading 10 completes once the heading is 86.4
      degrees away, not before. */
  lemma TurnThreshold(heading: real)
    ensures Reached(Some(10.0), Some(heading), 90.0) <==> Abs(10.0 - heading) >= 86.4
  {
  }

  /** Headings are compared without wrap-around: a 20 degree left turn from
      -175 that crosses the +/-180 seam counts as done at 179, after 6 degrees,
      because the plain difference is 354. */
  lemma TurnAcrossSeamCompletesEarly()
    ensures Reached(Some(-175.0), Some(179.0), 20.0)
  {
  }

  // ---------------------------------------------------------------------------
  // Abort

  /** `abort` empties the queue and emits all-stop; it leaves the navigation
      data and every live timer as they were. */
  lemma AbortEffect(s: State)
    ensures OnAbort(s).instructions == [] && Pending(OnAbort(s)) == []
    ensures OnAbort(s).log == s.log + [AllStop]
    ensures OnAbort(s).nav == s.nav
    ensures OnAbort(s).intervals == s.intervals && OnAbort(s).timeouts == s.timeouts
    ensures OnAbort(s).nextHandle == s.nextHandle
  {
  }

  /** A second abort leaves the same state except for one more all-stop. */
  lemma AbortIdempotent(s: State)
    ensures OnAbort(OnAbort(s)) == OnAbort(s).(log := OnAbort(s).log + [AllStop])
  {
  }

  /** Since the state after an abort: the queue is empty, no handle has been
      handed out, no timer has been added, and no movement event or motor rate
      command has been emitted. */
  ghost predicate Quiet(a: State, t: State) {
    && t.instructions == []
    && t.nextHandle == a.nextHandle
    && t.intervals.Keys <= a.intervals.Keys
    && t.timeouts.Keys <= a.timeouts.Keys
    && |a.log| <= |t.log| && t.log[..|a.log|] == a.log
    && (forall i :: |a.log| <= i < |t.log| ==> !t.log[i].IsMovement() && !t.log[i].IsRate())
  }

  lemma QuietStep(a: State, t: State, i: Input)
    requires Wf(t) && Quiet(a, t) && !i.RouteStart?
    ensures Quiet(a, OnInput(t, i))
  {
    var u := OnInput(t, i);
    match i
    case NavigationUpdate(_) =>
    case RouteAbort =>
      QuietAppend(a, t, u, [AllStop]);
    case IntervalTick(h) =>
      if h in t.intervals {
        var e := t.intervals[h].check;
        var t' := t.(log := t.log + [e]);
        if (e.AutopilotCheckDegrees? && Reached(e.start, t.nav.heading, e.degrees))
          || (e.AutopilotCheckDepth? && Reached(e.start, t.nav.depth, e.meters)) {
          assert u == t'.(log := t'.log + [AllStop], intervals := t'.intervals - {h});
          QuietAppend(a, t, u, [e, AllStop]);
        } else {
          assert u == t';
          QuietAppend(a, t, u, [e]);
        }
      }
    case TimeoutExpiry(h) =>
      if h in t.timeouts {
        QuietAppend(a, t, u, [AllStop]);
      }
  }

  lemma QuietAppend(a: State, t: State, u: State, x: seq<Event>)
    requires Quiet(a, t)
    requires forall k :: 0 <= k < |x| ==> !x[k].IsMovement() && !x[k].IsRate()
    requires u.log == t.log + x && u.instructions == [] && u.nextHandle == t.nextHandle
    requires u.intervals.Keys <= t.intervals.Keys && u.timeouts.Keys <= t.timeouts.Keys
    ensures Quiet(a, u)
  {
    assert u.log[..|a.log|] == t.log[..|a.log|];
    forall k | |a.log| <= k < |u.log|
      ensures !u.log[k].IsMovement() && !u.log[k].IsRate()
    {
      if k >= |t.log| {
        assert u.log[k] == x[k - |t.log|];
      }
    }
  }

  /** After an abort, whatever timers still fire and whatever navigation data
      arrives, nothing is dispatched until the next `start`. */
  lemma {:induction false} AbortSilences(s: State, ins: seq<Input>)
    requires Wf(s)
    requires forall k :: 0 <= k < |ins| ==> !ins[k].RouteStart?
    ensures Quiet(OnAbort(s), Run(OnAbort(s), ins))
  {
    QuietRun(OnAbort(s), OnAbort(s), ins);
  }

  lemma {:induction false} QuietRun(a: State, t: State, ins: seq<Input>)
    requires Wf(t) && Quiet(a, t)
    requires forall k :: 0 <= k < |ins| ==> !ins[k].RouteStart?
    ensures Quiet(a, Run(t, ins))
    decreases |ins|
  {
    if ins != [] {
      QuietStep(a, t, ins[0]);
      InputPreservesWf(t, ins[0]);
      QuietRun(a, OnInput(t, ins[0]), ins[1..]);
    }
  }

  // ---------------------------------------------------------------------------
  // Dispatch order over a whole run

  lemma {:induction false} MovementsAppend(a: seq<Event>, b: seq<Event>)
    ensures Movements(a + b) == Movements(a) + Movements(b)
    decreases |b|
  {
    if b == [] {
      assert a + b == a;
    } else {
      assert DropLast(a + b) == a + DropLast(b);
      assert Last(a + b) == Last(b);
      MovementsAppend(a, DropLast(b));
    }
  }

  /** The movement events emitted since `base`, and the queue, match a route
      of which a prefix is consumed: the emitted movements are exactly the
      dispatches of that prefix, and the rest of the route is pending in
      client order. */
  ghost predicate RouteProgress(base: seq<Event>, route: seq<Instr>, t: State) {
    && |t.instructions| <= |route|
    && Pending(t) == route[|route| - |t.instructions|..]
    && |base| <= |t.log| && t.log[..|base|] == base
    && Movements(t.log[|base|..]) == Dispatches(route[..|route| - |t.instructions|])
  }

  /** Extending a log that extends `base` splits its part after `base`. */
  lemma LogExtension<T>(base: seq<T>, a: seq<T>, b: seq<T>)
    requires |base| <= |a| && a[..|base|] == base
    requires |a| <= |b| && b[..|a|] == a
    ensures b[..|base|] == base
    ensures b[|base|..] == a[|base|..] + b[|a|..]
  {
    assert b == a + b[|a|..];
  }

  /** Progress survives any change that keeps the queue and only appends
      non-movement events. */
  lemma ProgressFrame(base: seq<Event>, route: seq<Instr>, t: State, u: State)
    requires RouteProgress(base, route, t)
    requires u.instructions == t.instructions
    requires |t.log| <= |u.log| && u.log[..|t.log|] == t.log
    requires Movements(u.log[|t.log|..]) == []
    ensures RouteProgress(base, route, u)
  {
    LogExtension(base, t.log, u.log);
    MovementsAppend(t.log[|base|..], u.log[|t.log|..]);
  }

  lemma NoMovement(e: Event)
    requires !e.IsMovement()
    ensures Movements([e]) == []
  {
    assert DropLast([e]) == [];
  }

  /** Parsing an instruction emits exactly its dispatch among the movements. */
  lemma ParseMovements(u: State, instr: Instr)
    ensures Movements(OnParse(u, instr).log[|u.log|..]) == DispatchOf(instr)
  {
    var v := OnParse(u, instr);
    ParseEffect(u, instr);
    var y := v.log[|u.log|..];
    assert v.log == u.log + y;
    if Movement(instr).Some? {
      var e := Movement(instr).value;
      assert y == [e, RateCommand(e)];
      assert DropLast(y) == [e];
      assert DropLast([e]) == [];
    } else {
      assert y == [];
    }
  }

  /** The dispatches of one more instruction of the route. */
  lemma DispatchesStep(route: seq<Instr>, k: nat)
    requires k < |route|
    ensures Dispatches(route[..k + 1]) == Dispatches(route[..k]) + DispatchOf(route[k])
  {
    var p := route[..k + 1];
    assert DropLast(p) == route[..k] && Last(p) == route[k];
  }

  /** `nextInstruction` keeps progress: it consumes one more instruction of
      the route and emits exactly that instruction's dispatch. */
  lemma NextProgress(base: seq<Event>, route: seq<Instr>, t: State)
    requires RouteProgress(base, route, t)
    ensures RouteProgress(base, route, OnNext(t))
  {
    if t.instructions != [] {
      var k := |route| - |t.instructions|;
      NextEffect(t);
      var u := t.(instructions := DropLast(t.instructions));
      var instr := Pending(t)[0];
      assert instr == route[k];
      var v := OnNext(t);
      ParseMovements(u, instr);
      LogExtension(base, t.log, v.log);
      MovementsAppend(t.log[|base|..], v.log[|t.log|..]);
      DispatchesStep(route, k);
      assert Pending(v) == route[k + 1..];
    }
  }

  /** An all-stop followed by `nextInstruction` keeps progress. */
  lemma StopProgress(base: seq<Event>, route: seq<Instr>, t: State, u: State)
    requires RouteProgress(base, route, t)
    requires u.instructions == t.instructions && u.log == t.log + [AllStop]
    ensures RouteProgress(base, route, OnNext(u))
  {
    NoMovement(AllStop);
    assert u.log[|t.log|..] == [AllStop];
    ProgressFrame(base, route, t, u);
    NextProgress(base, route, u);
  }

  /** A live interval firing keeps progress: its check event is no movement,
      and a completed check stops and advances once. */
  lemma IntervalProgress(base: seq<Event>, route: seq<Instr>, t: State, h: Handle)
    requires Wf(t) && RouteProgress(base, route, t) && h in t.intervals
    ensures RouteProgress(base, route, OnInterval(t, h))
  {
    var e := t.intervals[h].check;
    var t' := t.(log := t.log + [e]);
    NoMovement(e);
    assert t'.log[|t.log|..] == [e];
    ProgressFrame(base, route, t, t');
    var u := t'.(log := t'.log + [AllStop], intervals := t'.intervals - {h});
    if e.AutopilotCheckDegrees? {
      assert OnInterval(t, h) == OnCheckDegrees(t', e.start, e.degrees, h);
      if Reached(e.start, t'.nav.heading, e.degrees) {
        assert OnInterval(t, h) == OnNext(u);
        StopProgress(base, route, t', u);
      }
    } else {
      assert OnInterval(t, h) == OnCheckDepth(t', e.start, e.meters, h);
      if Reached(e.start, t'.nav.depth, e.meters) {
        assert OnInterval(t, h) == OnNext(u);
        StopProgress(base, route, t', u);
      }
    }
  }

  lemma InputProgress(base: seq<Event>, route: seq<Instr>, t: State, i: Input)
    requires Wf(t) && RouteProgress(base, route, t)
    requires !i.RouteStart? && !i.RouteAbort?
    ensures RouteProgress(base, route, OnInput(t, i))
  {
    match i
    case NavigationUpdate(navdata) =>
      ProgressFrame(base, route, t, OnInput(t, i));
    case IntervalTick(h) =>
      if h in t.intervals {
        IntervalProgress(base, route, t, h);
      }
    case TimeoutExpiry(h) =>
      if h in t.timeouts {
        StopProgress(base, route, t, t.(timeouts := t.timeouts - {h}, log := t.log + [AllStop]));
      }
  }

  lemma {:induction false} RunProgress(base: seq<Event>, route: seq<Instr>, t: State, ins: seq<Input>)
    requires Wf(t) && RouteProgress(base, route, t)
    requires forall k :: 0 <= k < |ins| ==> !ins[k].RouteStart? && !ins[k].RouteAbort?
    ensures RouteProgress(base, route, Run(t, ins))
    decreases |ins|
  {
    if ins != [] {
      InputProgress(base, route, t, ins[0]);
      InputPreservesWf(t, ins[0]);
      RunProgress(base, route, OnInput(t, ins[0]), ins[1..]);
    }
  }

  lemma StartProgress(s: State, route: seq<Instr>)
    ensures RouteProgress(s.log, route, OnStart(s, route))
  {
    var u := s.(instructions := Reversed(route));
    assert RouteProgress(s.log, route, u) by {
      ReversedInvolution(route);
      assert Pending(u) == route == route[0..];
      assert u.log[|s.log|..] == [] && u.log[..|s.log|] == s.log;
      assert route[..0] == [];
    }
    NextProgress(s.log, route, u);
  }

  /** Dispatch order: after `start(route)`, whatever timers fire and whatever
      navigation data arrives (up to the next `start` or `abort`), the
      movement events emitted are the dispatches of an initial part of the
      route, in client order, and the rest of the route is what is pending. */
  lemma DispatchOrder(s: State, route: seq<Instr>, ins: seq<Input>)
    requires Wf(s)
    requires forall k :: 0 <= k < |ins| ==> !ins[k].RouteStart? && !ins[k].RouteAbort?
    ensures RouteProgress(s.log, route, Run(OnStart(s, route), ins))
  {
    var t := OnStart(s, route);
    StartProgress(s, route);
    NextPreservesWf(s.(instructions := Reversed(route)));
    RunProgress(s.log, route, t, ins);
  }

  /** Once the queue has drained, every known instruction of the route has
      been dispatched exactly once, in client order. */
  lemma RouteDrained(s: State, route: seq<Instr>, ins: seq<Input>)
    requires Wf(s)
    requires forall k :: 0 <= k < |ins| ==> !ins[k].RouteStart? && !ins[k].RouteAbort?
    requires Run(OnStart(s, route), ins).instructions == []
    ensures var t := Run(OnStart(s, route), ins);
      |s.log| <= |t.log| && Movements(t.log[|s.log|..]) == Dispatches(route)
  {
    DispatchOrder(s, route, ins);
    DrainedProgress(s.log, route, Run(OnStart(s, route), ins));
  }

  lemma DrainedProgress(base: seq<Event>, route: seq<Instr>, t: State)
    requires RouteProgress(base, route, t) && t.instructions == []
    ensures |base| <= |t.log| && Movements(t.log[|base|..]) == Dispatches(route)
  {
    assert route[..|route|] == route;
  }

  // ---------------------------------------------------------------------------
  // Timer bookkeeping

  lemma InitialWf()
    ensures Wf(Initial)
  {
  }

  lemma ParsePreservesWf(s: State, instr: Instr)
    requires Wf(s)
    ensures Wf(OnParse(s, instr))
  {
    ParseEffect(s, instr);
  }

  lemma NextPreservesWf(s: State)
    requires Wf(s)
    ensures Wf(OnNext(s))
  {
    if s.instructions != [] {
      ParsePreservesWf(s.(instructions := DropLast(s.instructions)), Last(s.instructions));
    }
  }

  lemma IntervalPreservesWf(s: State, h: Handle)
    requires Wf(s)
    ensures Wf(OnInterval(s, h))
  {
    if h in s.intervals {
      var e := s.intervals[h].check;
      var s' := s.(log := s.log + [e]);
      match e {
        case AutopilotCheckDegrees(_, _, id) =>
          NextPreservesWf(s'.(log := s'.log + [AllStop], intervals := s'.intervals - {id}));
        case AutopilotCheckDepth(_, _, id) =>
          NextPreservesWf(s'.(log := s'.log + [AllStop], intervals := s'.intervals - {id}));
      }
    }
  }

  /** Every input keeps the timer bookkeeping consistent. */
  lemma InputPreservesWf(s: State, i: Input)
    requires Wf(s)
    ensures Wf(OnInput(s, i))
  {
    match i
    case RouteStart(route) =>
      NextPreservesWf(s.(instructions := Reversed(route)));
    case NavigationUpdate(_) =>
    case RouteAbort =>
    case IntervalTick(h) =>
      IntervalPreservesWf(s, h);
    case TimeoutExpiry(h) =>
      if h in s.timeouts {
        NextPreservesWf(s.(timeouts := s.timeouts - {h}, log := s.log + [AllStop]));
      }
  }

  /** In a consistent state a live interval that completes removes itself. */
  lemma CompletedIntervalIsCleared(s: State, h: Handle)
    requires Wf(s) && h in s.intervals
    requires var e := s.intervals[h].check;
      if e.AutopilotCheckDegrees? then Reached(e.start, s.nav.heading, e.degrees)
      else Reached(e.start, s.nav.depth, e.meters)
    ensures h !in OnInterval(s, h).intervals
    ensures OnInterval(s, h).log[..|s.log| + 2] == s.log + [s.intervals[h].check, AllStop]
  {
    var e := s.intervals[h].check;
    var s' := s.(log := s.log + [e]);
    assert s'.log + [AllStop] == s.log + [e, AllStop];
    if e.AutopilotCheckDegrees? {
      assert OnInterval(s, h) == OnCheckDegrees(s', e.start, e.degrees, h);
      CheckDegreesRule(s', e.start, e.degrees, h);
    } else {
      assert OnInterval(s, h) == OnCheckDepth(s', e.start, e.meters, h);
      CheckDepthRule(s', e.start, e.meters, h);
    }
  }

  lemma {:induction false} RunPreservesWf(s: State, ins: seq<Input>)
    requires Wf(s)
    ensures Wf(Run(s, ins))
    decreases |ins|
  {
    if ins != [] {
      InputPreservesWf(s, ins[0]);
      RunPreservesWf(OnInput(s, ins[0]), ins[1..]);
    }
  }

  /** The handles of every live interval and pending timeout. */
  ghost function Timers(t: State): set<Handle> {
    t.intervals.Keys + t.timeouts.Keys
  }

  /** No two timers are live at once. */
  ghost predicate OneTimer(t: State) {
    forall h, h' :: h in Timers(t) && h' in Timers(t) ==> h == h'
  }

  /** From a state with no timer, `nextInstruction` arms at most one. */
  lemma NextArmsOne(s: State)
    requires Timers(s) == {}
    ensures OneTimer(OnNext(s))
  {
    if s.instructions != [] {
      var u := s.(instructions := DropLast(s.instructions));
      assert Timers(OnNext(s)) <= {u.nextHandle};
    }
  }

  /** Every input but `start` keeps at most one timer live: a timer that
      ends its move clears itself before the next instruction arms one. */
  lemma OneTimerStep(t: State, i: Input)
    requires Wf(t) && OneTimer(t) && !i.RouteStart?
    ensures OneTimer(OnInput(t, i))
  {
    match i
    case NavigationUpdate(_) =>
      assert Timers(OnInput(t, i)) == Timers(t);
    case RouteAbort =>
      assert Timers(OnInput(t, i)) == Timers(t);
    case IntervalTick(h) =>
      if h in t.intervals {
        var e := t.intervals[h].check;
        var t' := t.(log := t.log + [e]);
        var cleared := t'.(log := t'.log + [AllStop], intervals := t'.intervals - {h});
        assert h in Timers(t) && Timers(cleared) == Timers(t) - {h};
        match e {
          case AutopilotCheckDegrees(start, degrees, id) =>
            if Reached(start, t'.nav.heading, degrees) {
              NextArmsOne(cleared);
            } else {
              assert Timers(OnInput(t, i)) == Timers(t);
            }
          case AutopilotCheckDepth(start, meters, id) =>
            if Reached(start, t'.nav.depth, meters) {
              NextArmsOne(cleared);
            } else {
              assert Timers(OnInput(t, i)) == Timers(t);
            }
        }
      }
    case TimeoutExpiry(h) =>
      if h in t.timeouts {
        var cleared := t.(timeouts := t.timeouts - {h}, log := t.log + [AllStop]);
        assert h in Timers(t) && Timers(cleared) == Timers(t) - {h};
        NextArmsOne(cleared);
      }
  }

  lemma {:induction false} OneTimerRun(t: State, ins: seq<Input>)
    requires Wf(t) && OneTimer(t)
    requires forall k :: 0 <= k < |ins| ==> !ins[k].RouteStart?
    ensures OneTimer(Run(t, ins))
    decreases |ins|
  {
    if ins != [] {
      OneTimerStep(t, ins[0]);
      InputPreservesWf(t, ins[0]);
      OneTimerRun(OnInput(t, ins[0]), ins[1..]);
    }
  }

  /** Disjoint key sets with at most one handle between them hold at most one
      entry in total. */
  lemma TimerCount(t: State)
    requires Wf(t) && OneTimer(t)
    ensures |t.intervals.Keys| + |t.timeouts.Keys| <= 1
  {
    assert |Timers(t)| == |t.intervals.Keys| + |t.timeouts.Keys|;
    if Timers(t) != {} {
      var h :| h in Timers(t);
      assert Timers(t) == {h};
    }
  }

  /** One move at a time: after `start` from a state with no timer, and up to
      the next `start` (an `abort` included), at most one interval or timeout
      is live. */
  lemma OneInFlight(s: State, route: seq<Instr>, ins: seq<Input>)
    requires s.intervals == map[] && s.timeouts == map[]
    requires forall k :: 0 <= k < |ins| ==> !ins[k].RouteStart?
    ensures var t := Run(OnStart(s, route), ins);
      |t.intervals.Keys| + |t.timeouts.Keys| <= 1
  {
    var u := s.(instructions := Reversed(route));
    assert Wf(s) && Timers(u) == {};
    NextArmsOne(u);
    InputPreservesWf(s, RouteStart(route));
    OneTimerRun(OnStart(s, route), ins);
    RunPreservesWf(OnStart(s, route), ins);
    TimerCount(Run(OnStart(s, route), ins));
  }

  // ---------------------------------------------------------------------------
  // A worked route

  /** Route [forward 5, left 90] from heading 10: full throttle and a 2500 ms
      timeout; when it expires, all-stop and a left turn polled by interval 1;
      once the heading reads -80 the poll stops the turn and the route is over,
      with no timer left. */
  lemma ForwardThenLeft()
    ensures var s0 := OnNavigationData(Initial, Nav(Some(10.0), Some(0.0)));
      var s1 := OnStart(s0, [Instr("frw", 5.0), Instr("left", 90.0)]);
      var s2 := OnTimeout(s1, 0);
      var s3 := OnInterval(OnNavigationData(s2, Nav(Some(-80.0), Some(0.0))), 1);
      && s1.log == [AutopilotForward(5.0), SetThrottle(1)] && s1.timeouts == map[0 := 2500.0]
      && s2.log == s1.log + [AllStop, AutopilotLeft(90.0), SetYaw(-1)]
      && s2.intervals == map[1 := Interval(CheckPeriodMs, AutopilotCheckDegrees(Some(10.0), 90.0, 1))]
      && s3.log == s2.log + [AutopilotCheckDegrees(Some(10.0), 90.0, 1), AllStop]
      && s3.instructions == [] && s3.intervals == map[] && s3.timeouts == map[]
  {
    var route := [Instr("frw", 5.0), Instr("left", 90.0)];
    var s0 := OnNavigationData(Initial, Nav(Some(10.0), Some(0.0)));
    StartEffect(s0, route, s0.instructions);
    var s1 := OnStart(s0, route);
    assert route[1..] == [Instr("left", 90.0)];
    assert s1.instructions == [Instr("left", 90.0)];
    var s2 := OnTimeout(s1, 0);
    assert s2 == OnParse(s1.(timeouts := map[], log := s1.log + [AllStop], instructions := []), Instr("left", 90.0));
  }

  /** `abort` then `start` again cuts a move short: the forward move of the
      first route is still timed, and its expiry stops the second route's
      forward move and dispatches the turn while that move's own timeout
      (handle 1) is pending, so two timers are live. */
  lemma AbortThenRestartCutsShort()
    ensures var s1 := OnStart(Initial, [Instr("frw", 10.0)]);
      var s2 := OnAbort(s1);
      var s3 := OnStart(s2, [Instr("frw", 10.0), Instr("left", 90.0)]);
      var s4 := OnTimeout(s3, 0);
      && s3.timeouts == map[0 := 5000.0, 1 := 5000.0]
      && s4.log == s3.log + [AllStop, AutopilotLeft(90.0), SetYaw(-1)]
      && s4.timeouts == map[1 := 5000.0]
      && s4.intervals == map[2 := Interval(CheckPeriodMs, AutopilotCheckDegrees(None, 90.0, 2))]
  {
    var r1, r2 := [Instr("frw", 10.0)], [Instr("frw", 10.0), Instr("left", 90.0)];
    var log1 := [AutopilotForward(10.0), SetThrottle(1)];
    StartEffect(Initial, r1, Initial.instructions);
    assert r1[1..] == [];
    var s1 := OnStart(Initial, r1);
    assert s1 == State([], NoNavigation, log1, map[], map[0 := 5000.0], 1);
    var s2 := OnAbort(s1);
    assert s2 == State([], NoNavigation, log1 + [AllStop], map[], map[0 := 5000.0], 1);
    StartEffect(s2, r2, s2.instructions);
    assert r2[1..] == [Instr("left", 90.0)];
    var s3 := OnStart(s2, r2);
    assert s3 == State([Instr("left", 90.0)], NoNavigation, log1 + [AllStop] + log1,
                       map[], map[0 := 5000.0, 1 := 5000.0], 2);
    assert OnTimeout(s3, 0) == OnParse(s3.(timeouts := map[1 := 5000.0], log := s3.log + [AllStop], instructions := []), Instr("left", 90.0));
  }
}
