/** Exactly which fixtures can be finished, and in how many turns. */
module Completion {
  import opened Wrappers
  import opened Text
  import opened Registry
  import opened Frozen
  import opened Replay
  import opened Episodes
  import opened EpisodeInvariants
  import opened EpisodeTheorems
  import opened Working

  // ---- What steps cost --------------------------------------------------------------------------

  /** A step takes one turn, and one more when it has a scripted fault. */
  function StepCost(step: Step): nat {
    if step.failOnce != "" then 2 else 1
  }

  /** The turns the first `i` steps take. */
  function Cost(steps: seq<Step>, i: nat): nat
    requires i <= |steps|
  {
    if i == 0 then 0 else Cost(steps, i - 1) + StepCost(steps[i - 1])
  }

  lemma FaultyNext(steps: seq<Step>, i: nat)
    requires i < |steps|
    ensures Faulty(steps[..i + 1]) == Faulty(steps[..i]) + (if steps[i].failOnce != "" then {i} else {})
    ensures i !in Faulty(steps[..i])
    ensures |Faulty(steps[..i + 1])| == |Faulty(steps[..i])| + (if steps[i].failOnce != "" then 1 else 0)
  {
  }

  lemma {:induction false} CostIs(steps: seq<Step>, i: nat)
    requires i <= |steps|
    ensures Cost(steps, i) == i + |Faulty(steps[..i])|
  {
    if i == 0 {
      assert Faulty(steps[..0]) == {};
    } else {
      CostIs(steps, i - 1);
      FaultyNext(steps, i - 1);
    }
  }

  lemma {:induction false} CostGrows(steps: seq<Step>, i: nat, j: nat)
    requires i <= j <= |steps|
    ensures Cost(steps, i) + (j - i) <= Cost(steps, j)
  {
    if i < j {
      CostGrows(steps, i, j - 1);
    }
  }

  // ---- What a condition shows, by the number of expansions ------------------------------------------

  function LastStage(k: nat): nat {
    if k < 2 then k else 2
  }

  /** The candidate set after `k` expansions, for a condition that does not follow the
      tracker state. Only progressive conditions change it, and they stop after two. */
  function ShownAt(b: Bench, k: nat): seq<string> {
    if Progressive(b) then Stage(b, LastStage(k))
    else match InitialRoutes(b)
      case Success(routes) => routes
      case Failure(_) => []
  }

  /** The condition's candidate sets do not depend on the run, and hold registered routes. */
  ghost predicate StagedExposure(b: Bench) {
    && !StateAware(b) && InitialRoutes(b).Success?
    && forall k | 0 <= k <= 2 :: AllRegistered(b.world.registry, ShownAt(b, k))
  }

  /** How many expansions it takes to show a route that can be shown at all. */
  function Level(b: Bench, route: string): nat {
    if route in ShownAt(b, 0) then 0 else if route in ShownAt(b, 1) then 1 else 2
  }

  lemma ShownWidens(b: Bench, j: nat, k: nat)
    requires StagedExposure(b) && j <= k
    ensures forall r | r in ShownAt(b, j) :: r in ShownAt(b, k)
  {
    if Progressive(b) && j < k && j < 2 {
      StageOneWidens(b);
      assert AllRegistered(b.world.registry, ShownAt(b, 1));
      hide Stage, InitialRoutes;
      EverythingShown(b);
    }
  }

  lemma StageOneWidens(b: Bench)
    ensures forall r | r in Stage(b, 0) :: r in Stage(b, 1)
  {
    var ranked := b.rank(b.world.task.query);
    SortedKeepsElements(Take(ranked, 3));
    SortedKeepsElements(Take(ranked, 10));
    TakeWithin(ranked, 3, 10);
    hide Sorted, Take;
  }

  lemma EverythingShown(b: Bench)
    ensures forall r :: r in Stage(b, 2) <==> r in RouteIds(b.world.registry)
  {
    SortedKeepsElements(RouteIds(b.world.registry));
    hide Sorted, RouteIds;
  }

  /** The level is the least number of expansions that shows the route. */
  lemma LevelMeaning(b: Bench, route: string, k: nat)
    requires StagedExposure(b) && route in ShownAt(b, 2)
    ensures route in ShownAt(b, k) <==> Level(b, route) <= k
    ensures !Progressive(b) ==> Level(b, route) == 0
  {
    ShownWidens(b, 0, k);
    ShownWidens(b, 0, 1);
    if k > 0 {
      ShownWidens(b, 1, k);
    }
    if k > 1 {
      ShownWidens(b, 2, k);
    }
    hide Stage, InitialRoutes;
  }

  // ---- Positions of an episode ------------------------------------------------------------------------

  /** A live episode after `t` busy or waiting turns: it has finished `p` steps, has used
      the next step's fault up or not, and sees what `t` expansions show. */
  ghost predicate At(b: Bench, s: Episode, t: nat, p: nat, used: bool) {
    && Kept(b, s) && !s.halted && !s.overflow
    && s.exec.core.progress == p <= |b.world.task.steps|
    && s.exec.core.failedOnce == Faulty(b.world.task.steps[..p]) + (if used then {p} else {})
    && (used ==> p < |b.world.task.steps| && b.world.task.steps[p].failOnce != "")
    && s.visible == ShownAt(b, t) && (Progressive(b) ==> s.stageIndex == LastStage(t))
  }

  lemma StartAt(b: Bench)
    requires StagedExposure(b) && !Blank(b.world.task.query)
    ensures Run(b, []).Success? && At(b, Run(b, []).value, 0, 0, false)
  {
    StripMeaning(b.world.task.query);
    StartKept(b);
    assert Faulty(b.world.task.steps[..0]) == {};
    assert Progressive(b) ==> InitialRoutes(b) == Success(Stage(b, 0));
    hide Kept, InitialRoutes, Faulty, Stage;
  }

  lemma ViewStaged(b: Bench, s: Episode, next: Episode, t: nat)
    requires !StateAware(b) && s.visible == ShownAt(b, t) && (Progressive(b) ==> s.stageIndex == LastStage(t))
    requires NextView(b, s, next)
    ensures next.visible == ShownAt(b, t + 1) && (Progressive(b) ==> next.stageIndex == LastStage(t + 1))
  {
    hide Stage, InitialRoutes, TopFive;
  }

  /** What one unit of work does to progress and remembered faults. */
  lemma CoreNext(w: World, core: Core, p: nat, used: bool)
    requires core.progress == p < |w.task.steps|
    requires core.failedOnce == Faulty(w.task.steps[..p]) + (if used then {p} else {})
    requires used ==> w.task.steps[p].failOnce != ""
    ensures var next, faulty := AfterWork(w, core), w.task.steps[p].failOnce != "";
      && FaultDue(w, core) == (faulty && !used)
      && next.progress == (if faulty && !used then p else p + 1)
      && next.failedOnce == if faulty && !used then Faulty(w.task.steps[..p]) + {p} else Faulty(w.task.steps[..p + 1])
  {
    FaultyNext(w.task.steps, p);
    hide Faulty, Absorb, Shown;
  }

  /** One busy turn on a fitting call: the fault, or the step. */
  lemma BusyAt(b: Bench, s: Episode, t: nat, p: nat, used: bool, tool: ToolCall)
    requires WellFormed(b.world.registry) && StagedExposure(b) && At(b, s, t, p, used) && Fitting(b, s, tool)
    requires CallTrackable(b.world, s.exec.core)
    ensures var r, faulty := Turn(b, s, BusyReply(tool)), b.world.task.steps[p].failOnce != "";
      r.Success? && if faulty && !used then At(b, r.value, t + 1, p, true) else At(b, r.value, t + 1, p + 1, false)
  {
    hide Kept, Faulty, ShownAt, NextView, CallTrackable, AfterWork, FaultDue, Fits, WellFormed, BusyReply, Turn,
      InitialRoutes, AllRegistered;
    ShownRegistered(b, t);
    assert !StateAware(b);
    hide StagedExposure;
    BusyTurn(b, s, tool);
    CoreNext(b.world, s.exec.core, p, used);
    ViewStaged(b, s, Turn(b, s, BusyReply(tool)).value, t);
  }

  lemma ShownRegistered(b: Bench, t: nat)
    requires StagedExposure(b)
    ensures AllRegistered(b.world.registry, ShownAt(b, t))
  {
    assert ShownAt(b, t) == ShownAt(b, LastStage(t)) by { hide Stage, InitialRoutes; }
    hide ShownAt, AllRegistered, InitialRoutes;
  }

  lemma WaitTurn(b: Bench, s: Episode)
    requires !s.halted && AllRegistered(b.world.registry, s.visible) && CanExpand(b, s)
    requires !Complete(b.world.task, s.exec.core.progress)
    ensures var r := Turn(b, s, Reply("", []));
      && r.Success? && r.value.exec == s.exec && !r.value.halted && r.value.overflow == s.overflow
      && NextView(b, s, r.value)
  {
    hide Stage, AllRegistered, Complete, TopFive;
  }

  /** A turn without calls, while a progressive condition can still widen. */
  lemma WaitAt(b: Bench, s: Episode, t: nat, p: nat)
    requires WellFormed(b.world.registry) && StagedExposure(b) && At(b, s, t, p, false)
    requires b.world.task.supported && p < |b.world.task.steps| && Progressive(b) && t < 2
    ensures Turn(b, s, Reply("", [])).Success? && At(b, Turn(b, s, Reply("", [])).value, t + 1, p, false)
  {
    hide Kept, Faulty, ShownAt, NextView, WellFormed, Turn, InitialRoutes, AllRegistered;
    ShownRegistered(b, t);
    assert !StateAware(b);
    hide StagedExposure;
    WaitTurn(b, s);
    TurnKeeps(b, s, Reply("", []));
    ViewStaged(b, s, Turn(b, s, Reply("", [])).value, t);
  }

  // ---- Reaching a position -------------------------------------------------------------------------

  ghost predicate Placed(b: Bench, script: seq<Generated>, p: nat, used: bool) {
    Run(b, script).Success? && At(b, Run(b, script).value, |script|, p, used)
  }

  lemma RunNext(b: Bench, script: seq<Generated>, g: Generated)
    requires Run(b, script).Success?
    ensures Run(b, script + [g]) == Turn(b, Run(b, script).value, g)
  {
    assert (script + [g])[..|script|] == script;
  }

  /** Wait, if need be, until a route of the given level shows. */
  lemma {:induction false} WaitUntil(b: Bench, before: seq<Generated>, p: nat, level: nat)
    returns (script: seq<Generated>)
    requires WellFormed(b.world.registry) && StagedExposure(b) && Placed(b, before, p, false)
    requires b.world.task.supported && p < |b.world.task.steps|
    requires level <= (if Progressive(b) then 2 else 0)
    ensures Placed(b, script, p, false) && |script| == if |before| < level then level else |before|
    decreases level - |before|
  {
    hide At, Turn, StagedExposure, WellFormed, Run;
    script := before;
    if |before| < level {
      WaitAt(b, Run(b, before).value, |before|, p);
      RunNext(b, before, Reply("", []));
      script := WaitUntil(b, before + [Reply("", [])], p, level);
    }
  }

  /** The call of a doable step, when the position sees its route. */
  lemma FittingCall(b: Bench, s: Episode, t: nat, p: nat, used: bool) returns (tool: ToolCall)
    requires At(b, s, t, p, used) && b.world.task.supported && p < |b.world.task.steps|
    requires Callable(b.world.task.steps[p].route) && b.world.task.steps[p].route in ShownAt(b, t)
    requires exists args :: Fits(b.world, p, args)
    ensures Fitting(b, s, tool)
  {
    hide Kept, Fits, ShownAt, Faulty, Callable, CalledRoute;
    var args :| Fits(b.world, p, args);
    var name := NameFor(b.world.task.steps[p].route);
    tool := ToolCall(name, args);
  }

  lemma DoableTrackable(w: World, core: Core)
    requires core.progress < |w.task.steps| && Doable(w, core.progress)
    ensures CallTrackable(w, core)
  {
    hide Fits, StepTrackable, FaultTrackable, Callable, FaultDue;
  }

  /** One busy turn from a placed episode. */
  lemma BusyNext(b: Bench, before: seq<Generated>, p: nat, used: bool) returns (script: seq<Generated>)
    requires WellFormed(b.world.registry) && StagedExposure(b) && Placed(b, before, p, used)
    requires b.world.task.supported && p < |b.world.task.steps|
    requires Callable(b.world.task.steps[p].route) && b.world.task.steps[p].route in ShownAt(b, |before|)
    requires exists args :: Fits(b.world, p, args)
    requires CallTrackable(b.world, Run(b, before).value.exec.core)
    ensures |script| == |before| + 1
    ensures if b.world.task.steps[p].failOnce != "" && !used then Placed(b, script, p, true)
            else Placed(b, script, p + 1, false)
  {
    hide At, Turn, StagedExposure, WellFormed, Run, Callable, Fits, Fitting, ShownAt, CallTrackable, BusyReply;
    var s := Run(b, before).value;
    var tool := FittingCall(b, s, |before|, p, used);
    BusyAt(b, s, |before|, p, used, tool);
    RunNext(b, before, BusyReply(tool));
    script := before + [BusyReply(tool)];
  }

  /** A doable step that shows is finished in as many turns as it costs. */
  lemma WorkStep(b: Bench, before: seq<Generated>, p: nat) returns (script: seq<Generated>)
    requires WellFormed(b.world.registry) && StagedExposure(b) && Placed(b, before, p, false)
    requires b.world.task.supported && p < |b.world.task.steps| && Doable(b.world, p)
    requires b.world.task.steps[p].route in ShownAt(b, |before|)
    ensures Placed(b, script, p + 1, false) && |script| == |before| + StepCost(b.world.task.steps[p])
  {
    ShownWidens(b, |before|, |before| + 1);
    assert Callable(b.world.task.steps[p].route) && exists args :: Fits(b.world, p, args);
    PlacedAt(b, before, p, false);
    DoableTrackable(b.world, Run(b, before).value.exec.core);
    hide At, Run, StagedExposure, WellFormed, ShownAt, Callable, Fits, Doable, CallTrackable, Placed;
    script := BusyNext(b, before, p, false);
    if b.world.task.steps[p].failOnce != "" {
      PlacedAt(b, script, p, true);
      DoableTrackable(b.world, Run(b, script).value.exec.core);
      script := BusyNext(b, script, p, true);
    }
  }

  lemma PlacedAt(b: Bench, script: seq<Generated>, p: nat, used: bool)
    requires Placed(b, script, p, used)
    ensures Run(b, script).Success? && Run(b, script).value.exec.core.progress == p
  {
    hide Run, Kept, Faulty, ShownAt;
  }

  /** The first `p` steps are doable and can be shown, each early enough to leave time for
      itself and the steps after it within `m` turns. */
  ghost predicate OnTime(b: Bench, p: nat, m: nat)
    requires p <= |b.world.task.steps|
  {
    var steps := b.world.task.steps;
    forall j | 0 <= j < p ::
      && Doable(b.world, j) && steps[j].route in ShownAt(b, 2)
      && Level(b, steps[j].route) + Cost(steps, p) <= m + Cost(steps, j)
  }

  /** Then some script finishes exactly those steps within `m` turns. */
  lemma {:induction false} Reach(b: Bench, p: nat, m: nat) returns (script: seq<Generated>)
    requires WellFormed(b.world.registry) && StagedExposure(b) && !Blank(b.world.task.query)
    requires b.world.task.supported && p <= |b.world.task.steps| && OnTime(b, p, m)
    ensures Placed(b, script, p, false) && |script| <= m
  {
    hide At, Run, StagedExposure, WellFormed, ShownAt, Level, Doable, Placed, Blank;
    if p == 0 {
      script := [];
      StartPlaced(b);
    } else {
      var steps := b.world.task.steps;
      var route, c := steps[p - 1].route, StepCost(steps[p - 1]);
      assert Level(b, route) + c <= m;
      assert OnTime(b, p - 1, m - c);
      script := Reach(b, p - 1, m - c);
      LevelMeaning(b, route, 0);
      LevelSmall(b, route);
      script := WaitUntil(b, script, p - 1, Level(b, route));
      LevelMeaning(b, route, |script|);
      script := WorkStep(b, script, p - 1);
    }
  }

  lemma LevelSmall(b: Bench, route: string)
    ensures Level(b, route) <= 2
  {
    hide ShownAt;
  }

  lemma StartPlaced(b: Bench)
    requires StagedExposure(b) && !Blank(b.world.task.query)
    ensures Placed(b, [], 0, false)
  {
    hide Run, At;
    StartAt(b);
  }

  /** Further turns do not undo a finished episode. */
  lemma {:induction false} Padded(b: Bench, script: seq<Generated>, m: nat) returns (longer: seq<Generated>)
    requires Run(b, script).Success? && b.world.task.supported && |script| <= m
    requires Passed(b, Run(b, script).value)
    requires AllRegistered(b.world.registry, Run(b, script).value.visible)
    ensures |longer| == m && Run(b, longer).Success? && Passed(b, Run(b, longer).value)
    decreases m - |script|
  {
    longer := script;
    if |script| < m {
      var s := Run(b, script).value;
      RunNext(b, script, Reply("", []));
      IdleTurn(b, s);
      hide Run, Turn, AllRegistered, Passed;
      longer := Padded(b, script + [Reply("", [])], m);
    }
  }

  lemma IdleTurn(b: Bench, s: Episode)
    requires b.world.task.supported && Passed(b, s) && AllRegistered(b.world.registry, s.visible)
    ensures var r := Turn(b, s, Reply("", [])); r.Success? && Passed(b, r.value) && r.value.visible == s.visible
  {
    hide AllRegistered;
  }
}
