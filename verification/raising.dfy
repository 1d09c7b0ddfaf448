/** Exactly which episodes an agent can make raise. */
module Raising {
  import opened Text
  import opened Registry
  import opened Gates
  import opened Frozen
  import opened Replay
  import opened Episodes
  import opened EpisodeInvariants
  import opened Working
  import opened Completion
  import opened TurnCount
  import opened StateAwareCount
  import Tracker

  /** A state-aware condition whose ranking holds registered routes. */
  ghost predicate Ranked(b: Bench) {
    StateAware(b) && forall query: string :: AllRegistered(b.world.registry, TopFive(b, query))
  }

  /** The route can be shown at all. What the state-aware condition shows depends on what
      the agent makes the tracker hold. */
  ghost predicate CanShow(b: Bench, route: string) {
    StateAware(b) || route in ShownAt(b, 2)
  }

  /** An agent can get to step `i` and call it: every earlier step can be finished, and the
      step's route can be shown, named and given arguments that fit. */
  ghost predicate Callworthy(b: Bench, i: nat) {
    var steps := b.world.task.steps;
    && b.world.task.supported && i < |steps|
    && (forall j | 0 <= j < i :: Doable(b.world, j) && CanShow(b, steps[j].route))
    && CanShow(b, steps[i].route) && Callable(steps[i].route)
    && exists args :: Fits(b.world, i, args)
  }

  ghost predicate Harmless(b: Bench) {
    forall i | 0 <= i < |b.world.task.steps| && Callworthy(b, i) ::
      StepTrackable(b.world.task.steps[i]) && FaultTrackable(b.world.task.steps[i])
  }

  // ---- What an agent can get to --------------------------------------------------------------------

  lemma ExposedShown(b: Bench, s: Episode, route: string)
    requires (StagedExposure(b) || Ranked(b)) && Bookkept(b, s) && route in Exposed(s.history)
    ensures CanShow(b, route)
  {
    if StateAware(b) {
      return;
    }
    var k :| 0 <= k < |s.history| && route in s.history[k];
    assert s.history[k] == ShownAt(b, k) by { hide Stage, InitialRoutes; }
    ShownWidens(b, if k < 2 then k else 2, 2);
    hide Stage, InitialRoutes, Exposed;
  }

  lemma FittingIsCallworthy(b: Bench, s: Episode, tool: ToolCall)
    requires (StagedExposure(b) || Ranked(b)) && Kept(b, s) && Fitting(b, s, tool)
    ensures Callworthy(b, s.exec.core.progress)
  {
    var w, p := b.world, s.exec.core.progress;
    KeptParts(b, s);
    FittingFacts(b, s, tool);
    hide *;
    ExecParts(w, s.exec, s.tracker, s.history);
    VisibleExposed(b, s, w.task.steps[p].route);
    ExposedShown(b, s, w.task.steps[p].route);
    forall j | 0 <= j < p
      ensures Doable(w, j) && CanShow(b, w.task.steps[j].route)
    {
      ExposedShown(b, s, w.task.steps[j].route);
    }
    CallworthyIs(b, p);
  }

  lemma CallworthyIs(b: Bench, i: nat)
    requires b.world.task.supported && i < |b.world.task.steps|
    requires forall j | 0 <= j < i :: Doable(b.world, j) && CanShow(b, b.world.task.steps[j].route)
    requires CanShow(b, b.world.task.steps[i].route) && Callable(b.world.task.steps[i].route)
    requires exists args :: Fits(b.world, i, args)
    ensures Callworthy(b, i)
  {
    hide Doable, CanShow, Callable, Fits;
  }

  lemma FittingFacts(b: Bench, s: Episode, tool: ToolCall)
    requires Fitting(b, s, tool)
    ensures var w, p := b.world, s.exec.core.progress;
      && w.task.supported && p < |w.task.steps|
      && w.task.steps[p].route in s.visible && Callable(w.task.steps[p].route)
      && exists args :: Fits(w, p, args)
  {
    CalledIsCallable(tool.name);
    hide Fits, Callable, CalledRoute;
  }

  lemma ExecParts(w: World, x: Exec, t: Tracker.State, history: seq<seq<string>>)
    requires ExecKept(w, x, t, history)
    ensures x.core.progress <= |w.task.steps| && x.core.state == Merged(w.task.steps[..x.core.progress])
    ensures forall j | 0 <= j < x.core.progress ::
      Doable(w, j) && w.task.steps[j].route in Exposed(history)
  {
    hide Tracked, FaultsNamed, ConsumedPrefix, FaultsMatch, Merged, Doable, Exposed;
  }

  // ---- Where a turn raises ------------------------------------------------------------------------

  /** Only the first call of a turn can emit what the tracker rejects. */
  lemma LaterCallFine(b: Bench, s: Episode, u: Burst, last: ToolCall)
    requires WellFormed(b.world.registry) && Bookkept(b, s)
    requires ExecKept(b.world, u.exec, u.tracker, s.history)
    ensures OneCall(b, u, CallOf(s.visible, last, false)).Success?
  {
    var w, call := b.world, CallOf(s.visible, last, false);
    ExecParts(w, u.exec, u.tracker, s.history);
    assert call.available ==> call.route in s.visible;
    assert call.route == CalledRoute(last.name);
    hide ExecKept, Bookkept, GateAt, Tracker.Trackable, OneCall, AttemptAt, Perform, CalledRoute, Callable, CallOf,
      WellFormed;
    CalledIsCallable(last.name);
    if call.available {
      VisibleExposed(b, s, call.route);
    }
    OneCallKeeps(b, u, call, s.history);
    GateFlags(w, u.exec.core, call);
    EmissionTrackable(w, u.exec.core, call, Perform(w, u.exec, call).core);
  }

  lemma {:induction false} FirstCallDecides(b: Bench, s: Episode, calls: seq<ToolCall>)
    requires WellFormed(b.world.registry) && Bookkept(b, s) && calls != []
    requires ExecKept(b.world, s.exec, s.tracker, s.history)
    ensures Calls(b, s, calls).Success? <==> Calls(b, s, [calls[0]]).Success?
  {
    hide ExecKept, Bookkept, OneCall, WellFormed, CallOf;
    if |calls| == 1 {
      assert calls == [calls[0]];
    } else {
      var init, last := calls[..|calls| - 1], calls[|calls| - 1];
      FirstCallDecides(b, s, init);
      CallsKeep(b, s, init);
      if Calls(b, s, init).Success? {
        LaterCallFine(b, s, Calls(b, s, init).value, last);
      }
    }
  }

  lemma FirstCallRaises(b: Bench, s: Episode, tool: ToolCall)
    requires WellFormed(b.world.registry) && Kept(b, s) && Calls(b, s, [tool]).Failure?
    ensures Fitting(b, s, tool) && !CallTrackable(b.world, s.exec.core)
  {
    var w, u, call := b.world, Burst(s.exec, s.tracker, [], false), CallOf(s.visible, tool, true);
    KeptParts(b, s);
    assert call == Call(CalledRoute(tool.name), tool.arguments, CalledRoute(tool.name) in s.visible, true);
    FirstCall(b, s, tool);
    CalledIsCallable(tool.name);
    hide Kept, ExecKept, Bookkept, GateAt, Tracker.Trackable, OneCall, Calls, AttemptAt, Perform, CalledRoute, Callable,
      CallOf, WellFormed, Fits, Merged, CallTrackable, StepTrackable, FaultTrackable;
    if call.available {
      VisibleExposed(b, s, call.route);
    }
    OneCallKeeps(b, u, call, s.history);
    EmissionTrackable(w, s.exec.core, call, Perform(w, s.exec, call).core);
    GateFits(w, s.exec.core, call);
    WorkingCall(b, s, tool);
  }

  /** A turn raises only at a fitting call whose emission cannot be tracked. */
  lemma TurnRaises(b: Bench, s: Episode, g: Generated)
    requires WellFormed(b.world.registry) && Kept(b, s) && AllRegistered(b.world.registry, s.visible)
    requires Turn(b, s, g).Failure?
    ensures !s.halted && exists tool :: Fitting(b, s, tool) && !CallTrackable(b.world, s.exec.core)
  {
    hide Kept, Fitting, CallTurn, AllRegistered, Stage, Complete, WellFormed, CallTrackable;
    var tool, asked := g.calls[0], Asked(s, g.text);
    CallingTurnIs(b, s, g.text, g.calls);
    CallTurnIs(b, asked, g.calls);
    AskedKept(b, s, g.text);
    KeptParts(b, asked);
    hide Turn, Calls, AfterCalls;
    FirstCallDecides(b, asked, g.calls);
    FirstCallRaises(b, asked, tool);
    SameFitting(b, s, asked, tool);
  }

  /** For all rankings of registered routes: no agent can make the episode raise if and
      only if every call that fits, wherever an agent gets to make it, emits something the
      tracker accepts. */
  lemma RaisesWhereReached(b: Bench)
    requires WellFormed(b.world.registry) && !Blank(b.world.task.query)
    requires StagedExposure(b) || Ranked(b)
    ensures (forall script :: Run(b, script).Success?) <==>
      forall script, tool | Reached(b, script, tool) :: CallTrackable(b.world, Run(b, script).value.exec.core)
  {
    hide Run, Turn, StagedExposure, Ranked, WellFormed, Blank, CallTrackable, Fits, CalledRoute, Kept, AllRegistered;
    if forall script, tool | Reached(b, script, tool) :: CallTrackable(b.world, Run(b, script).value.exec.core) {
      forall script
        ensures Run(b, script).Success?
      {
        ReachedFine(b, script);
      }
    } else {
      var script, tool :| Reached(b, script, tool) && !CallTrackable(b.world, Run(b, script).value.exec.core);
      hide Fitting;
      ReachedRaises(b, script, tool);
    }
  }

  lemma ReachedRaises(b: Bench, script: seq<Generated>, tool: ToolCall)
    requires WellFormed(b.world.registry) && (StagedExposure(b) || Ranked(b)) && Reached(b, script, tool)
    requires !CallTrackable(b.world, Run(b, script).value.exec.core)
    ensures Run(b, script + [Reply("", [tool])]).Failure?
  {
    hide Run, Turn, StagedExposure, Ranked, WellFormed, CallTrackable, Fitting, Kept, AllRegistered;
    EveryEpisodeKept(b, script);
    VisibleAlwaysRegistered(b, script);
    FittingTurn(b, Run(b, script).value, "", tool);
    RunNext(b, script, Reply("", [tool]));
  }

  /** After this script the episode goes on, and the call fits. */
  ghost predicate Reached(b: Bench, script: seq<Generated>, tool: ToolCall) {
    Run(b, script).Success? && !Run(b, script).value.halted && Fitting(b, Run(b, script).value, tool)
  }

  lemma {:induction false} ReachedFine(b: Bench, script: seq<Generated>)
    requires WellFormed(b.world.registry) && (StagedExposure(b) || Ranked(b)) && !Blank(b.world.task.query)
    requires forall before, tool | Reached(b, before, tool) :: CallTrackable(b.world, Run(b, before).value.exec.core)
    ensures Run(b, script).Success?
  {
    hide StagedExposure, Ranked, WellFormed, Turn, Kept, Blank, AllRegistered, Fits, CalledRoute, CallTrackable;
    if script == [] {
      StartSucceeds(b);
    } else {
      var init, g := script[..|script| - 1], script[|script| - 1];
      ReachedFine(b, init);
      EveryEpisodeKept(b, init);
      VisibleAlwaysRegistered(b, init);
      var s := Run(b, init).value;
      forall tool | !s.halted && Fitting(b, s, tool)
        ensures CallTrackable(b.world, s.exec.core)
      {
        assert Reached(b, init, tool);
      }
      if Turn(b, s, g).Failure? {
        TurnRaises(b, s, g);
      }
    }
  }

  lemma RankedTurn(b: Bench, s: Episode, g: Generated)
    requires Ranked(b) && AllRegistered(b.world.registry, s.visible) && Turn(b, s, g).Success?
    ensures AllRegistered(b.world.registry, Turn(b, s, g).value.visible)
  {
    hide AllRegistered, Calls, Complete;
    assert forall seen :: AllRegistered(b.world.registry, Sorted(Take(b.rank(b.renderQuery(seen)), 5))) by {
      assert forall seen :: AllRegistered(b.world.registry, TopFive(b, b.renderQuery(seen)));
    }
    hide Sorted, Take;
  }

  lemma {:induction false} RankedVisible(b: Bench, script: seq<Generated>)
    requires Ranked(b) && Run(b, script).Success?
    ensures AllRegistered(b.world.registry, Run(b, script).value.visible)
  {
    if script == [] {
      assert InitialRoutes(b).value == TopFive(b, b.world.task.query);
      hide TopFive, AllRegistered;
    } else {
      hide Ranked, Turn, AllRegistered;
      RankedVisible(b, script[..|script| - 1]);
      RankedTurn(b, Run(b, script[..|script| - 1]).value, script[|script| - 1]);
    }
  }

  lemma VisibleAlwaysRegistered(b: Bench, script: seq<Generated>)
    requires WellFormed(b.world.registry) && (StagedExposure(b) || Ranked(b)) && Run(b, script).Success?
    ensures AllRegistered(b.world.registry, Run(b, script).value.visible)
  {
    hide Run, Kept, ShownAt, Ranked, WellFormed, AllRegistered;
    if StagedExposure(b) {
      NotStateAware(b);
      EveryEpisodeKept(b, script);
      VisibleIsShown(b, Run(b, script).value);
      ShownRegistered(b, Run(b, script).value.expansions);
    } else {
      RankedVisible(b, script);
    }
  }

  lemma StartSucceeds(b: Bench)
    requires (StagedExposure(b) || Ranked(b)) && !Blank(b.world.task.query)
    ensures Run(b, []).Success?
  {
    StripMeaning(b.world.task.query);
    hide Sorted, Take, Blank, Strip;
  }

  /** So a harmless fixture never raises. */
  lemma HarmlessRun(b: Bench, script: seq<Generated>)
    requires WellFormed(b.world.registry) && (StagedExposure(b) || Ranked(b)) && Harmless(b)
    requires !Blank(b.world.task.query)
    ensures Run(b, script).Success?
  {
    forall before, tool | Reached(b, before, tool)
      ensures CallTrackable(b.world, Run(b, before).value.exec.core)
    {
      EveryEpisodeKept(b, before);
      FittingIsCallworthy(b, Run(b, before).value, tool);
      HarmlessTracks(b, Run(b, before).value.exec.core);
    }
    ReachedFine(b, script);
    hide CallTrackable, Run, StagedExposure, Ranked, Harmless, Fits, CalledRoute;
  }

  lemma HarmlessTracks(b: Bench, core: Core)
    requires Harmless(b) && Callworthy(b, core.progress)
    ensures CallTrackable(b.world, core)
  {
    hide Doable, CanShow, Callable, Fits, StepTrackable, FaultTrackable, FaultDue;
  }

  // ---- A harmful one can be made to -----------------------------------------------------------------

  /** A fitting call whose emission cannot be tracked. */
  lemma RaisingCall(b: Bench, before: seq<Generated>, p: nat, used: bool) returns (script: seq<Generated>)
    requires WellFormed(b.world.registry) && StagedExposure(b) && Placed(b, before, p, used) && Callworthy(b, p)
    requires b.world.task.steps[p].route in ShownAt(b, |before|)
    requires Run(b, before).value.exec.core.progress == p && !CallTrackable(b.world, Run(b, before).value.exec.core)
    ensures Run(b, script).Failure?
  {
    var s := Run(b, before).value;
    assert At(b, s, |before|, p, used);
    hide Run, Turn, StagedExposure, WellFormed, Callable, Fits, ShownAt, CallTrackable, Doable, Faulty, Kept;
    var tool := FittingCall(b, s, |before|, p, used);
    ShownRegistered(b, |before|);
    hide Callworthy, Fitting, AllRegistered;
    FittingTurn(b, s, "", tool);
    RunNext(b, before, Reply("", [tool]));
    script := before + [Reply("", [tool])];
  }

  lemma EarlyEnough(b: Bench, i: nat)
    requires Callworthy(b, i) && !StateAware(b)
    ensures OnTime(b, i, Cost(b.world.task.steps, i) + 2)
  {
    hide Doable, ShownAt, Level, Fits, Callable;
    forall j | 0 <= j < i
      ensures Level(b, b.world.task.steps[j].route) <= 2
    {
      LevelSmall(b, b.world.task.steps[j].route);
    }
  }

  lemma RaisingEpisode(b: Bench, i: nat) returns (script: seq<Generated>)
    requires WellFormed(b.world.registry) && StagedExposure(b) && !Blank(b.world.task.query) && Callworthy(b, i)
    requires !(StepTrackable(b.world.task.steps[i]) && FaultTrackable(b.world.task.steps[i]))
    ensures Run(b, script).Failure?
  {
    hide StagedExposure, WellFormed, Blank, OnTime, ShownAt, Level, Cost;
    hide StepTrackable, Run, At, Doable, Fits, Callable;
    var step := b.world.task.steps[i];
    NotStateAware(b);
    EarlyEnough(b, i);
    LevelSmall(b, step.route);
    LevelMeaning(b, step.route, 0);
    assert step.failOnce == "" ==> FaultTrackable(step);
    hide FaultTrackable;
    script := Reach(b, i, Cost(b.world.task.steps, i) + 2);
    script := WaitUntil(b, script, i, Level(b, step.route));
    LevelMeaning(b, step.route, |script|);
    PlacedCore(b, script, i, false);
    if step.failOnce != "" && FaultTrackable(step) {
      ShownWidens(b, |script|, |script| + 1);
      script := BusyNext(b, script, i, false);
      PlacedCore(b, script, i, true);
      script := RaisingCall(b, script, i, true);
    } else {
      script := RaisingCall(b, script, i, false);
    }
  }

  lemma PlacedCore(b: Bench, script: seq<Generated>, p: nat, used: bool)
    requires Placed(b, script, p, used) && p < |b.world.task.steps|
    ensures Run(b, script).Success? && Run(b, script).value.exec.core.progress == p
    ensures FaultDue(b.world, Run(b, script).value.exec.core) <==> b.world.task.steps[p].failOnce != "" && !used
  {
    FaultyNext(b.world.task.steps, p);
    hide Run, Kept, Faulty, ShownAt;
  }

  /** Under the state-aware condition: stay on course up to the step, then call it. */
  lemma CourseRaises(b: Bench, i: nat) returns (script: seq<Generated>)
    requires WellFormed(b.world.registry) && StateAware(b) && ShowsNext(b) && !Blank(b.world.task.query)
    requires Callworthy(b, i)
    requires !(StepTrackable(b.world.task.steps[i]) && FaultTrackable(b.world.task.steps[i]))
    ensures Run(b, script).Failure?
  {
    var step := b.world.task.steps[i];
    assert step.failOnce == "" ==> FaultTrackable(step);
    assert ShowsAt(b, i, false);
    assert step.failOnce != "" ==> ShowsAt(b, i, true);
    assert Callable(step.route) && exists args :: Fits(b.world, i, args);
    hide WellFormed, Blank, StepTrackable, FaultTrackable, Run, Doable, Fits, Callable, ShowsAt, OnCourse;
    script := CourseReach(b, i);
    hide ShowsNext, Callworthy, Terse;
    CoursedCore(b, script, i, false);
    if step.failOnce != "" && FaultTrackable(step) {
      script := CourseGoesOn(b, script, i, false);
      CoursedCore(b, script, i, true);
      script := CourseRaise(b, script, i, true);
    } else {
      script := CourseRaise(b, script, i, false);
    }
  }

  lemma CoursedCore(b: Bench, script: seq<Generated>, p: nat, used: bool)
    requires Coursed(b, script, p, used) && p < |b.world.task.steps|
    ensures Run(b, script).Success? && Run(b, script).value.exec.core.progress == p
    ensures FaultDue(b.world, Run(b, script).value.exec.core) <==> b.world.task.steps[p].failOnce != "" && !used
  {
    CourseFault(b, Run(b, script).value, p, used);
    hide Run, OnCourse;
  }

  lemma CourseRaise(b: Bench, before: seq<Generated>, p: nat, used: bool) returns (script: seq<Generated>)
    requires WellFormed(b.world.registry) && StateAware(b) && b.world.task.supported
    requires Coursed(b, before, p, used) && p < |b.world.task.steps| && ShowsAt(b, p, used)
    requires Callable(b.world.task.steps[p].route) && exists args :: Fits(b.world, p, args)
    requires Run(b, before).value.exec.core.progress == p && !CallTrackable(b.world, Run(b, before).value.exec.core)
    ensures Run(b, script).Failure?
  {
    hide OnCourse, Turn, ShowsAt, WellFormed, Run, Fitting, CallTrackable, Fits, Callable, AllRegistered;
    var s := Run(b, before).value;
    var tool := RightCall(b, s, p, used);
    CourseTurn(b, s, p, used, "", tool);
    RunNext(b, before, Reply("", [tool]));
    script := before + [Reply("", [tool])];
  }

  /** With a visible query, no agent can make the episode raise if and only if every step
      an agent can get to and call has a trackable observation and, if it has a scripted
      fault, a trackable one. The state-aware condition is covered for rankings of
      registered routes that show, at each position, the route it needs. */
  lemma RaisesExactly(b: Bench)
    requires WellFormed(b.world.registry) && !Blank(b.world.task.query)
    requires StagedExposure(b) || (Ranked(b) && ShowsNext(b))
    ensures (forall script :: Run(b, script).Success?) <==> Harmless(b)
  {
    hide Run, StagedExposure, Ranked, ShowsNext, WellFormed, Callworthy, StepTrackable, FaultTrackable, Blank;
    if Harmless(b) {
      forall script
        ensures Run(b, script).Success?
      {
        HarmlessRun(b, script);
      }
    } else {
      var i :| 0 <= i < |b.world.task.steps| && Callworthy(b, i)
        && !(StepTrackable(b.world.task.steps[i]) && FaultTrackable(b.world.task.steps[i]));
      if StagedExposure(b) {
        var script := RaisingEpisode(b, i);
      } else {
        RankedIsStateAware(b);
        var script := CourseRaises(b, i);
      }
    }
  }

  lemma RankedIsStateAware(b: Bench)
    requires Ranked(b)
    ensures StateAware(b)
  {
  }
}
