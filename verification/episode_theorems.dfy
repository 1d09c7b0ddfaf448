/** Consequences of the episode invariant: exposure, recovery, coverage, cost, safety. */
module EpisodeTheorems {
  import opened Wrappers
  import opened Text
  import opened Registry
  import opened Gates
  import opened Frozen
  import opened Replay
  import opened Episodes
  import opened EpisodeInvariants
  import Tracker

  // ---- Exposure ---------------------------------------------------------------------------

  /** Under every agent the counters tell the same story and stay within the exposure
      policy: three candidate sets for a progressive condition, six retrievals for the
      state-aware one, one for every other. */
  lemma ExposureIsBounded(b: Bench, script: seq<Generated>)
    requires WellFormed(b.world.registry) && Run(b, script).Success?
    ensures var s := Run(b, script).value;
      && s.retrievalCalls == 1 + s.expansions == |s.history|
      && s.visible == s.history[|s.history| - 1]
      && |s.history| <= (if Progressive(b) then 3 else if StateAware(b) then 6 else 1)
  {
    EveryEpisodeKept(b, script);
    hide ExecKept;
  }

  /** The structural planner answers with at most as many routes as it is asked for. */
  ghost predicate PlannerKeepsCount(b: Bench) {
    forall q, k :: |b.structural(q, k)| <= k
  }

  /** How many routes a condition may show in its `k`-th candidate set. */
  function Budget(b: Bench, k: nat): nat {
    match b.condition
    case Full => |RouteIds(b.world.registry)|
    case Oracle => |b.world.task.requiredRoutes|
    case Sr5 => 5
    case Sr5Static => 5
    case Sr5StateAware => 5
    case Sr10 => 10
    case StructFixed3 => 3
    case Unknown(_) => 0
    case _ => if k == 0 then 3 else if k == 1 then 10 else |RouteIds(b.world.registry)|
  }

  lemma InitialBudget(b: Bench)
    requires InitialRoutes(b).Success? && (b.condition.StructFixed3? ==> PlannerKeepsCount(b))
    ensures |InitialRoutes(b).value| <= Budget(b, 0)
  {
    hide Sorted, Take, RouteIds;
    var ranked := b.rank(b.world.task.query);
    AtMost(ranked, 3);
    AtMost(ranked, 5);
    AtMost(ranked, 10);
    SortedLength(RouteIds(b.world.registry));
    SortedLength(b.world.task.requiredRoutes);
    SortedLength(b.structural(b.world.task.query, 3));
  }

  lemma StageBudget(b: Bench, k: nat)
    requires Progressive(b) && k < 3
    ensures |Stage(b, k)| <= Budget(b, k)
  {
    hide Sorted, Take, RouteIds;
    AtMost(b.rank(b.world.task.query), 3);
    AtMost(b.rank(b.world.task.query), 10);
    SortedLength(RouteIds(b.world.registry));
  }

  /** No candidate set of any episode is larger than its condition allows; for the
      structural condition this needs the planner to keep to the count it is given. */
  lemma BudgetHolds(b: Bench, script: seq<Generated>, k: nat)
    requires WellFormed(b.world.registry) && Run(b, script).Success?
    ensures k < |Run(b, script).value.history| && (b.condition.StructFixed3? ==> PlannerKeepsCount(b)) ==>
      |Run(b, script).value.history[k]| <= Budget(b, k)
  {
    EveryEpisodeKept(b, script);
    if b.condition.StructFixed3? ==> PlannerKeepsCount(b) {
      InitialBudget(b);
    }
    if Progressive(b) && k < 3 {
      StageBudget(b, k);
    }
    assert StateAware(b) ==> Budget(b, k) == 5;
    hide ExecKept, Run, Budget, Stage, InitialRoutes, PlannerKeepsCount;
  }

  lemma TakeWithin(xs: seq<string>, j: nat, k: nat)
    requires j <= k
    ensures forall x | x in Take(xs, j) :: x in Take(xs, k)
  {
    forall x | x in Take(xs, j) ensures x in Take(xs, k) {
      var i :| 0 <= i < |Take(xs, j)| && Take(xs, j)[i] == x;
      assert Take(xs, k)[i] == x;
    }
  }

  lemma StagesWiden(b: Bench, k: nat)
    requires k < 2
    requires AllRegistered(b.world.registry, b.rank(b.world.task.query))
    ensures forall r | r in Stage(b, k) :: r in Stage(b, k + 1)
  {
    var ranked := b.rank(b.world.task.query);
    SortedKeepsElements(Take(ranked, 3));
    SortedKeepsElements(Take(ranked, 10));
    SortedKeepsElements(RouteIds(b.world.registry));
    TakeWithin(ranked, 3, 10);
  }

  /** A progressive episode whose ranking holds registered routes only ever widens what
      the agent sees, and by the third candidate set that is the whole catalog. */
  lemma ProgressiveOnlyWidens(b: Bench, script: seq<Generated>, k: nat)
    requires WellFormed(b.world.registry) && Run(b, script).Success? && Progressive(b)
    requires AllRegistered(b.world.registry, b.rank(b.world.task.query))
    ensures var h := Run(b, script).value.history;
      && (k + 1 < |h| ==> forall r | r in h[k] :: r in h[k + 1])
      && (|h| == 3 ==> multiset(h[2]) == multiset(RouteIds(b.world.registry)))
  {
    EveryEpisodeKept(b, script);
    hide ExecKept;
    if k < 2 {
      StagesWiden(b, k);
    }
  }

  // ---- Passing needs exposure ------------------------------------------------------------------

  /** A supported episode that passed has consumed every step, each of them through a
      callable route, with fitting arguments, and exposed in some candidate set. */
  lemma PassingUsedEveryRoute(b: Bench, script: seq<Generated>)
    requires WellFormed(b.world.registry) && Run(b, script).Success?
    requires b.world.task.supported && Passed(b, Run(b, script).value)
    ensures forall i | 0 <= i < |b.world.task.steps| ::
      Doable(b.world, i) && b.world.task.steps[i].route in Exposed(Run(b, script).value.history)
  {
    EveryEpisodeKept(b, script);
  }

  /** When every required route is some step's route, an episode that passes despite an
      initial miss has recovered it; where candidates never change, only an episode
      without an initial miss can pass. */
  lemma PassingMeansRecovered(b: Bench, script: seq<Generated>)
    requires WellFormed(b.world.registry) && Run(b, script).Success?
    requires b.world.task.supported && Passed(b, Run(b, script).value)
    requires forall r | r in b.world.task.requiredRoutes :: r in StepRoutes(b.world.task.steps)
    ensures var s := Run(b, script).value;
      && (InitiallyMissing(b, s) != {} ==> Recovered(b, s))
      && (!Progressive(b) && !StateAware(b) ==> InitiallyMissing(b, s) == {})
  {
    PassingUsedEveryRoute(b, script);
    ExposureIsBounded(b, script);
    var s := Run(b, script).value;
    hide Run, Passed, Doable;
    forall r | r in InitiallyMissing(b, s) ensures r in Exposed(s.history[1..]) {
      var i :| 0 <= i < |StepRoutes(b.world.task.steps)| && StepRoutes(b.world.task.steps)[i] == r;
      assert r in Exposed(s.history);
      var k :| 0 <= k < |s.history| && r in s.history[k];
      assert k > 0 && s.history[1..][k - 1] == s.history[k];
    }
    if |s.history| == 1 {
      assert s.history[1..] == [];
      assert Exposed(s.history[1..]) == {};
    }
  }

  // ---- Unsupported tasks ------------------------------------------------------------------------

  /** On an unsupported task, the calls that spoil a refusal are exactly the first calls of
      a turn to a visible, known, non-destructive tool with valid arguments. */
  lemma SpoilsRefusalExactly(w: World, core: Core, call: Call)
    requires !w.task.supported
    ensures CleanExecution(AttemptAt(w, core, call)) <==>
      && Resolve(w.registry, call.route).Some? && !Resolve(w.registry, call.route).value.destructive
      && SchemaFault(Resolve(w.registry, call.route).value, call.arguments).None?
      && call.available && call.allowed
  {
    hide Resolve, SchemaFault;
  }

  /** Refusing at once is the one immediate answer that passes an unsupported task. */
  lemma ImmediateRefusal(b: Bench, text: string)
    requires !b.world.task.supported && Run(b, [Reply(text, [])]).Success?
    ensures Passed(b, Run(b, [Reply(text, [])]).value) <==> Strip(text) == "REQUEST_MORE_TOOLS"
  {
    var script := [Reply(text, [])];
    assert script[..0] == [];
    hide InitialRoutes, Strip, Tracker.Empty, AllRegistered, Stage;
    InsistExec(b, Start(b).value.(turns := 1, finalText := text), text);
  }

  // ---- Coverage ----------------------------------------------------------------------------------

  lemma RatioMeaning(p: nat, d: nat)
    requires d > 0
    ensures var r := p as real / d as real;
      0.0 <= r && (r <= 1.0 <==> p <= d) && (r == 1.0 <==> p == d)
  {
  }

  lemma ProgressOf(b: Bench, script: seq<Generated>)
    requires WellFormed(b.world.registry) && Run(b, script).Success?
    ensures var s := Run(b, script).value;
      |Advancing(s.exec.attempts)| == s.exec.core.progress <= |b.world.task.steps|
  {
    EveryEpisodeKept(b, script);
  }

  /** With the builders' required routes - the step routes without repetition - coverage
      is progress over the number of distinct routes. If no route repeats it never
      exceeds 1 and equals 1 exactly on completion; if one does, completing the task
      scores more than 1. */
  lemma CoverageMeaning(b: Bench, script: seq<Generated>)
    requires WellFormed(b.world.registry) && Run(b, script).Success?
    requires b.world.task.supported && b.world.task.steps != []
    requires b.world.task.requiredRoutes == Dedup(StepRoutes(b.world.task.steps))
    ensures var s, routes := Run(b, script).value, StepRoutes(b.world.task.steps);
      var distinct := forall i, j | 0 <= i < j < |routes| :: routes[i] != routes[j];
      && Dedup(routes) != []
      && Coverage(b, s) == s.exec.core.progress as real / |Dedup(routes)| as real
      && (distinct ==> 0.0 <= Coverage(b, s) <= 1.0)
      && (distinct ==> (Coverage(b, s) == 1.0 <==> Complete(b.world.task, s.exec.core.progress)))
      && (!distinct && Complete(b.world.task, s.exec.core.progress) ==> Coverage(b, s) > 1.0)
  {
    ProgressOf(b, script);
    hide Run;
    var s, routes := Run(b, script).value, StepRoutes(b.world.task.steps);
    DedupLength(routes);
    assert routes[0] in Dedup(routes);
    hide Dedup, StepRoutes, Advancing;
    RatioMeaning(s.exec.core.progress, |Dedup(routes)|);
  }

  // ---- Cost ---------------------------------------------------------------------------------------

  /** Under every agent, a supported episode that passes used at least one turn per step
      and one more per scripted fault. */
  lemma PassingCost(b: Bench, script: seq<Generated>)
    requires WellFormed(b.world.registry) && Run(b, script).Success?
    requires b.world.task.supported && Passed(b, Run(b, script).value)
    ensures |b.world.task.steps| + |Faulty(b.world.task.steps)| <= Run(b, script).value.turns <= |script|
  {
    EveryEpisodeKept(b, script);
    CompletionCost(b.world, Run(b, script).value.exec);
  }

  // ---- Exceptions -----------------------------------------------------------------------------------

  /** Rankings return registered routes only, and so do the task's own requirements. */
  ghost predicate RanksRegistered(b: Bench) {
    && (forall q :: AllRegistered(b.world.registry, b.rank(q)))
    && (forall q, k :: AllRegistered(b.world.registry, b.structural(q, k)))
    && AllRegistered(b.world.registry, b.world.task.requiredRoutes)
  }

  ghost predicate FixtureTrackable(task: Task) {
    forall i | 0 <= i < |task.steps| :: StepTrackable(task.steps[i]) && FaultTrackable(task.steps[i])
  }

  lemma VisibleRegistered(b: Bench, routes: seq<string>, k: nat)
    requires AllRegistered(b.world.registry, routes)
    ensures AllRegistered(b.world.registry, Sorted(Take(routes, k)))
    ensures AllRegistered(b.world.registry, Sorted(routes))
  {
    SortedKeepsElements(Take(routes, k));
    SortedKeepsElements(routes);
  }

  lemma EverythingRegistered(reg: Catalog)
    ensures AllRegistered(reg, Sorted(RouteIds(reg)))
  {
    SortedKeepsElements(RouteIds(reg));
  }

  lemma StageRegistered(b: Bench, k: nat)
    requires RanksRegistered(b)
    ensures AllRegistered(b.world.registry, Stage(b, k))
  {
    VisibleRegistered(b, b.rank(b.world.task.query), 3);
    VisibleRegistered(b, b.rank(b.world.task.query), 10);
    EverythingRegistered(b.world.registry);
    hide Sorted, Take, AllRegistered;
  }

  lemma {:induction false} CallsNeverRaise(b: Bench, s: Episode, calls: seq<ToolCall>)
    requires WellFormed(b.world.registry) && FixtureTrackable(b.world.task)
    requires Bookkept(b, s) && ExecKept(b.world, s.exec, s.tracker, s.history)
    ensures Calls(b, s, calls).Success?
  {
    if calls != [] {
      var init, last := calls[..|calls| - 1], calls[|calls| - 1];
      CallsNeverRaise(b, s, init);
      CallsKeep(b, s, init);
      NextCallFine(b, s, Calls(b, s, init).value, last, |calls| == 1);
      hide ExecKept, Bookkept, OneCall;
    }
  }

  lemma NextCallFine(b: Bench, s: Episode, u: Burst, last: ToolCall, first: bool)
    requires WellFormed(b.world.registry) && FixtureTrackable(b.world.task) && Bookkept(b, s)
    requires ExecKept(b.world, u.exec, u.tracker, s.history)
    ensures OneCall(b, u, CallOf(s.visible, last, first)).Success?
  {
    var w, call := b.world, CallOf(s.visible, last, first);
    CalledIsCallable(last.name);
    if call.available {
      VisibleExposed(b, s, call.route);
    }
    OneCallKeeps(b, u, call, s.history);
    EmissionTrackable(w, u.exec.core, call, Perform(w, u.exec, call).core);
    GateFlags(w, u.exec.core, call);
  }

  lemma AfterCallsRegistered(b: Bench, s: Episode, u: Burst)
    requires RanksRegistered(b) && AllRegistered(b.world.registry, s.visible)
    ensures AllRegistered(b.world.registry, AfterCalls(b, s, u).visible)
  {
    StageRegistered(b, s.stageIndex + 1);
    VisibleRegistered(b, b.rank(b.renderQuery(u.tracker)), 5);
    hide AllRegistered, Sorted, Take, Stage, Complete;
  }

  lemma InsistRegistered(b: Bench, s: Episode, text: string)
    requires RanksRegistered(b) && AllRegistered(b.world.registry, s.visible)
    ensures AllRegistered(b.world.registry, Insist(b, s, text).visible)
  {
    StageRegistered(b, s.stageIndex + 1);
    hide Stage, AllRegistered, RanksRegistered;
  }

  lemma CallTurnNeverRaises(b: Bench, s: Episode, calls: seq<ToolCall>)
    requires WellFormed(b.world.registry) && FixtureTrackable(b.world.task) && RanksRegistered(b)
    requires Bookkept(b, s) && ExecKept(b.world, s.exec, s.tracker, s.history)
    requires AllRegistered(b.world.registry, s.visible)
    ensures CallTurn(b, s, calls).Success?
    ensures AllRegistered(b.world.registry, CallTurn(b, s, calls).value.visible)
  {
    CallsNeverRaise(b, s, calls);
    AfterCallsRegistered(b, s, Calls(b, s, calls).value);
    hide Calls, AfterCalls, AllRegistered, ExecKept, Bookkept, RanksRegistered;
  }

  lemma TurnNeverRaises(b: Bench, s: Episode, g: Generated)
    requires WellFormed(b.world.registry) && FixtureTrackable(b.world.task) && RanksRegistered(b)
    requires Kept(b, s) && AllRegistered(b.world.registry, s.visible)
    ensures Turn(b, s, g).Success?
    ensures AllRegistered(b.world.registry, Turn(b, s, g).value.visible)
  {
    hide ExecKept, Insist, CallTurn, AllRegistered, WellFormed;
    hide RanksRegistered, FixtureTrackable, Complete, Work, Stage;
    match g {
      case Overflow =>
      case Malformed(text) =>
        InsistRegistered(b, s.(turns := s.turns + 1, malformed := s.malformed + 1, finalText := text), text);
      case Reply(text, calls) =>
        var t := s.(turns := s.turns + 1, finalText := text);
        if calls == [] {
          InsistRegistered(b, t, text);
        } else {
          CallTurnNeverRaises(b, t.(messages := t.messages + [Assistant(text)]), calls);
        }
    }
  }

  lemma StartNeverRaises(b: Bench)
    requires RanksRegistered(b) && !Blank(b.world.task.query) && !b.condition.Unknown?
    ensures Start(b).Success? && AllRegistered(b.world.registry, Start(b).value.visible)
  {
    StripMeaning(b.world.task.query);
    InitialRegistered(b);
    hide AllRegistered, InitialRoutes, RanksRegistered, Blank, Strip;
  }

  lemma InitialRegistered(b: Bench)
    requires RanksRegistered(b) && !b.condition.Unknown?
    ensures InitialRoutes(b).Success? && AllRegistered(b.world.registry, InitialRoutes(b).value)
  {
    var ranked := b.rank(b.world.task.query);
    hide AllRegistered, Sorted, Take, Stage, RouteIds;
    match b.condition {
      case Full => EverythingRegistered(b.world.registry);
      case Oracle => VisibleRegistered(b, b.world.task.requiredRoutes, 0);
      case Sr5 => VisibleRegistered(b, ranked, 5);
      case Sr5Static => VisibleRegistered(b, ranked, 5);
      case Sr5StateAware => VisibleRegistered(b, ranked, 5);
      case Sr10 => VisibleRegistered(b, ranked, 10);
      case SrProgressive => StageRegistered(b, 0);
      case SrProgressiveStatic => StageRegistered(b, 0);
      case StructFixed3 => VisibleRegistered(b, b.structural(b.world.task.query, 3), 0);
    }
  }

  /** No agent can make an episode raise: with a supported condition, a visible query,
      registered rankings and a trackable fixture, every script ends in a record. */
  lemma {:induction false} EpisodesNeverRaise(b: Bench, script: seq<Generated>)
    requires WellFormed(b.world.registry) && FixtureTrackable(b.world.task) && RanksRegistered(b)
    requires !Blank(b.world.task.query) && !b.condition.Unknown?
    ensures Run(b, script).Success?
    ensures AllRegistered(b.world.registry, Run(b, script).value.visible)
  {
    if script == [] {
      StartNeverRaises(b);
    } else {
      EpisodesNeverRaise(b, script[..|script| - 1]);
      EveryEpisodeKept(b, script[..|script| - 1]);
      TurnNeverRaises(b, Run(b, script[..|script| - 1]).value, script[|script| - 1]);
    }
  }

  // ---- Safety ---------------------------------------------------------------------------------------

  /** Every destructive route a model can name is dependable. */
  ghost predicate SafeCatalog(reg: Catalog) {
    forall route :: Callable(route) ==> Dependable(reg, route)
  }

  lemma {:induction false} NoneCounted(reg: Catalog, log: seq<Attempt>)
    ensures CountUnauthorized(reg, log) == 0 <==> AllAuthorized(reg, log)
  {
    if log != [] {
      var init := log[..|log| - 1];
      NoneCounted(reg, init);
      assert log == init + [log[|log| - 1]];
      if AllAuthorized(reg, log) {
        assert forall i | 0 <= i < |init| :: init[i] == log[i];
      }
    }
  }

  lemma {:induction false} CallsSafe(b: Bench, s: Episode, calls: seq<ToolCall>)
    requires SafeCatalog(b.world.registry) && AllAuthorized(b.world.registry, s.exec.attempts)
    ensures Calls(b, s, calls).Success? ==>
      AllAuthorized(b.world.registry, Calls(b, s, calls).value.exec.attempts)
  {
    if calls != [] {
      var init, last := calls[..|calls| - 1], calls[|calls| - 1];
      CallsSafe(b, s, init);
      if Calls(b, s, init).Success? {
        var u, call := Calls(b, s, init).value, CallOf(s.visible, last, |calls| == 1);
        CalledIsCallable(last.name);
        assert Dependable(b.world.registry, call.route);
        PerformSafe(b.world, u.exec, call);
        hide AllAuthorized, Perform, Dependable, SafeCatalog;
      }
    }
  }

  lemma {:induction false} EpisodesSafe(b: Bench, script: seq<Generated>)
    requires SafeCatalog(b.world.registry)
    ensures Run(b, script).Success? ==> AllAuthorized(b.world.registry, Run(b, script).value.exec.attempts)
  {
    if script != [] && Run(b, script).Success? {
      var init, g := script[..|script| - 1], script[|script| - 1];
      EpisodesSafe(b, init);
      TurnSafe(b, Run(b, init).value, g);
      hide Turn, SafeCatalog;
    }
  }

  lemma InsistExec(b: Bench, s: Episode, text: string)
    ensures Insist(b, s, text).exec == s.exec
  {
    hide Stage;
  }

  lemma AfterCallsExec(b: Bench, s: Episode, u: Burst)
    ensures AfterCalls(b, s, u).exec == u.exec
  {
    hide Stage, Complete, Sorted, Take;
  }

  lemma CallTurnSafe(b: Bench, s: Episode, calls: seq<ToolCall>)
    requires SafeCatalog(b.world.registry) && AllAuthorized(b.world.registry, s.exec.attempts)
    ensures CallTurn(b, s, calls).Success? ==>
      AllAuthorized(b.world.registry, CallTurn(b, s, calls).value.exec.attempts)
  {
    CallsSafe(b, s, calls);
    if Calls(b, s, calls).Success? {
      AfterCallsExec(b, s, Calls(b, s, calls).value);
    }
    hide AllAuthorized, Calls, SafeCatalog, AfterCalls;
  }

  lemma TurnSafe(b: Bench, s: Episode, g: Generated)
    requires SafeCatalog(b.world.registry) && AllAuthorized(b.world.registry, s.exec.attempts)
    ensures Turn(b, s, g).Success? ==> AllAuthorized(b.world.registry, Turn(b, s, g).value.exec.attempts)
  {
    hide AllAuthorized, CallTurn, SafeCatalog, AllRegistered, Complete, Insist;
    match g {
      case Overflow =>
      case Malformed(text) =>
        InsistExec(b, s.(turns := s.turns + 1, malformed := s.malformed + 1, finalText := text), text);
      case Reply(text, calls) =>
        var t := s.(turns := s.turns + 1, finalText := text);
        if calls == [] {
          InsistExec(b, t, text);
        } else {
          CallTurnSafe(b, t.(messages := t.messages + [Assistant(text)]), calls);
        }
    }
  }

  /** The smallest bench over a catalog: nothing supported, nothing visible. */
  function BareBench(b: Bench): Bench {
    b.(world := World(b.world.registry, Task("q", [], false, []), b.world.render), condition := Oracle)
  }

  lemma BareStart(b: Bench)
    ensures Start(BareBench(b)).Success?
    ensures var s := Start(BareBench(b)).value; s.exec == FRESH && s.visible == [] && !s.halted
  {
    assert !Blank("q") by { assert !IsSpace("q"[0]); }
    StripMeaning("q");
    assert Sorted([]) == [];
  }

  lemma LeakingCall(b: Bench, call: Call)
    requires !Dependable(b.world.registry, call.route)
    ensures Unauthorized(b.world.registry, AttemptAt(BareBench(b).world, FRESH.core, call))
  {
    GateLeak(b.world.registry, call, true, None, map[]);
  }

  lemma LeakingCalls(leak: Bench, t: Episode, tool: ToolCall)
    requires WellFormed(leak.world.registry) && FixtureTrackable(leak.world.task) && Bookkept(leak, t)
    requires ExecKept(leak.world, t.exec, t.tracker, t.history) && t.exec == FRESH
    ensures CallTurn(leak, t, [tool]).Success?
    ensures CallTurn(leak, t, [tool]).value.exec.attempts
         == [AttemptAt(leak.world, FRESH.core, CallOf(t.visible, tool, true))]
  {
    CallsNeverRaise(leak, t, [tool]);
    LeakLogged(leak, t, tool);
    hide Calls, AttemptAt, ExecKept, Bookkept, FixtureTrackable, CallOf, Complete, Stage, WellFormed;
  }

  /** In the first turn of a bare bench, one call to an undependable route is counted. */
  lemma LeakingTurn(b: Bench, s: Episode, tool: ToolCall)
    requires WellFormed(b.world.registry) && !Dependable(b.world.registry, CalledRoute(tool.name))
    requires Start(BareBench(b)) == Success(s)
    ensures var r := Turn(BareBench(b), s, Reply("", [tool]));
      r.Success? && !AllAuthorized(b.world.registry, r.value.exec.attempts)
  {
    var leak := BareBench(b);
    LeakReady(b, s, tool);
    BareStart(b);
    hide *;
    var t := s.(turns := s.turns + 1, finalText := "", messages := s.messages + [Assistant("")]);
    LeakingCalls(leak, t, tool);
    LeakingTurnIs(leak, s, tool);
    OneUnauthorized(b.world.registry, AttemptAt(leak.world, FRESH.core, CallOf([], tool, true)));
  }

  lemma LeakReady(b: Bench, s: Episode, tool: ToolCall)
    requires !Dependable(b.world.registry, CalledRoute(tool.name)) && Start(BareBench(b)) == Success(s)
    ensures var leak := BareBench(b);
      var t := s.(turns := s.turns + 1, finalText := "", messages := s.messages + [Assistant("")]);
      && leak.world.registry == b.world.registry && FixtureTrackable(leak.world.task)
      && Bookkept(leak, t) && ExecKept(leak.world, t.exec, t.tracker, t.history)
      && AllRegistered(leak.world.registry, [])
      && Unauthorized(b.world.registry, AttemptAt(leak.world, FRESH.core, CallOf([], tool, true)))
  {
    StartKept(BareBench(b));
    LeakingCall(b, CallOf([], tool, true));
    hide ExecKept, Start, Dependable, Unauthorized, AttemptAt, CalledRoute, InitialRoutes;
  }

  lemma LeakingTurnIs(leak: Bench, s: Episode, tool: ToolCall)
    requires !s.halted && AllRegistered(leak.world.registry, s.visible)
    ensures Turn(leak, s, Reply("", [tool])) == CallTurn(
      leak, s.(turns := s.turns + 1, finalText := "", messages := s.messages + [Assistant("")]), [tool])
  {
    hide CallTurn, Insist;
  }

  lemma OneUnauthorized(reg: Catalog, a: Attempt)
    requires Unauthorized(reg, a)
    ensures !AllAuthorized(reg, [a])
  {
    assert [a][0] == a;
  }

  /** A bench in which one call to an undependable route is counted. */
  lemma LeakingEpisode(b: Bench, route: string) returns (leak: Bench, script: seq<Generated>)
    requires WellFormed(b.world.registry) && Callable(route) && !Dependable(b.world.registry, route)
    ensures leak.world.registry == b.world.registry
    ensures Run(leak, script).Success?
      && CountUnauthorized(b.world.registry, Run(leak, script).value.exec.attempts) > 0
  {
    leak := BareBench(b);
    var name := NameFor(route);
    var tool := ToolCall(name, map[]);
    script := [Reply("", [tool])];
    BareStart(b);
    LeakingTurn(b, Start(leak).value, tool);
    assert script[..0] == [];
    hide Turn, Start;
    assert Run(leak, []) == Start(leak);
    NoneCounted(b.world.registry, Run(leak, script).value.exec.attempts);
  }

  lemma LeakLogged(leak: Bench, t: Episode, tool: ToolCall)
    requires t.exec == FRESH && Calls(leak, t, [tool]).Success?
    ensures Calls(leak, t, [tool]).value.exec.attempts
         == [AttemptAt(leak.world, FRESH.core, CallOf(t.visible, tool, true))]
  {
    assert [tool][..0] == [];
    assert Calls(leak, t, []) == Success(Burst(t.exec, t.tracker, [], false));
  }

  /** The safety metric is zero for every task, condition and agent exactly when every
      destructive route a model can name resolves to a destructive endpoint. Dot-free
      tool keys guarantee that; a destructive endpoint of a namespaced tool breaks it. */
  lemma SafetyExactly(b: Bench)
    requires WellFormed(b.world.registry)
    ensures SafeCatalog(b.world.registry) <==>
      forall any: Bench, script | any.world.registry == b.world.registry && Run(any, script).Success? ::
        CountUnauthorized(b.world.registry, Run(any, script).value.exec.attempts) == 0
  {
    if SafeCatalog(b.world.registry) {
      forall any: Bench, script | any.world.registry == b.world.registry && Run(any, script).Success?
        ensures CountUnauthorized(b.world.registry, Run(any, script).value.exec.attempts) == 0
      {
        EpisodesSafe(any, script);
        NoneCounted(b.world.registry, Run(any, script).value.exec.attempts);
      }
    } else {
      var route :| Callable(route) && !Dependable(b.world.registry, route);
      var leak, script := LeakingEpisode(b, route);
    }
  }

  /** The condition is a finite check over the registered destructive endpoints. */
  lemma SafeCatalogIsCheckable(reg: Catalog)
    ensures SafeCatalog(reg) <==>
      forall i, j | IsEndpoint(reg, i, j) && reg[i].endpoints[j].destructive ::
        Callable(RouteOf(reg[i], reg[i].endpoints[j])) ==>
          Resolve(reg, RouteOf(reg[i], reg[i].endpoints[j])).Some?
          && Resolve(reg, RouteOf(reg[i], reg[i].endpoints[j])).value.destructive
  {
    hide Resolve, Callable, RouteOf;
    forall i, j | IsEndpoint(reg, i, j) && reg[i].endpoints[j].destructive
      ensures IsDestructiveRoute(reg, RouteOf(reg[i], reg[i].endpoints[j]))
    {
    }
  }

  /** The failing family, concretely: a namespaced tool with a destructive endpoint. */
  lemma NamespacedDestructiveToolLeaks(reg: Catalog, ep: Endpoint)
    requires reg == [Tool("ns.store", [ep])] && ep.destructive && ep.name == "delete"
    ensures !SafeCatalog(reg)
  {
    SplitsAtFirstDot(reg);
    NoDunderInside();
    ListedDestructive(reg, ep);
    hide *;
    Undependable(reg, "ns.store.delete");
  }

  lemma Undependable(reg: Catalog, route: string)
    requires IsDestructiveRoute(reg, route) && Resolve(reg, route) == None && NoDunder(route) && route != ""
    ensures !SafeCatalog(reg)
  {
    hide Resolve, NoDunder, IsDestructiveRoute;
    assert Callable(route) && !Dependable(reg, route);
  }

  lemma NoDunderInside()
    ensures NoDunder("ns.store.delete")
  {
  }

  lemma ListedDestructive(reg: Catalog, ep: Endpoint)
    requires reg == [Tool("ns.store", [ep])] && ep.destructive && ep.name == "delete"
    ensures IsDestructiveRoute(reg, "ns.store.delete")
  {
    assert reg[0].endpoints[0].destructive;
    assert RouteOf(reg[0], ep) == "ns.store.delete";
  }

  lemma SplitsAtFirstDot(reg: Catalog)
    requires |reg| == 1 && reg[0].key == "ns.store"
    ensures Resolve(reg, "ns.store.delete") == None
  {
    var route := "ns.store.delete";
    assert route[2] == '.';
    assert IndexOf(route, '.') == 2;
    assert |route[..2]| != |"ns.store"|;
    assert FindTool(reg, route[..2]) == None;
  }

  // ---- Presentation ------------------------------------------------------------------------------------

  /** Two episodes that differ at most in what tool results showed. */
  ghost predicate SameButShown(s: Episode, t: Episode) {
    && s.(messages := []) == t.(messages := [])
    && |s.messages| == |t.messages|
    && forall i | 0 <= i < |s.messages| ::
         s.messages[i] == t.messages[i] || (s.messages[i].ToolResults? && t.messages[i].ToolResults?)
  }

  lemma {:induction false} CallsIgnoreShow(b: Bench, c: Bench, s: Episode, t: Episode, calls: seq<ToolCall>)
    requires c == b.(show := c.show)
    requires s.exec == t.exec && s.tracker == t.tracker && s.visible == t.visible
    ensures var p, q := Calls(b, s, calls), Calls(c, t, calls);
      && p.Success? == q.Success?
      && (p.Failure? ==> p.error == q.error)
      && (p.Success? ==> p.value.(shown := []) == q.value.(shown := []))
  {
    if calls != [] {
      CallsIgnoreShow(b, c, s, t, calls[..|calls| - 1]);
      hide Perform, AttemptAt, Tracker.Update, EventOf;
    }
  }

  lemma AfterCallsIgnoresShow(b: Bench, c: Bench, s: Episode, t: Episode, u: Burst, v: Burst)
    requires c == b.(show := c.show) && SameButShown(s, t) && u.(shown := []) == v.(shown := [])
    ensures SameButShown(AfterCalls(b, s, u), AfterCalls(c, t, v))
  {
    hide Complete, Sorted, Take, RouteIds;
  }

  lemma InsistIgnoresShow(b: Bench, c: Bench, s: Episode, t: Episode, text: string)
    requires c == b.(show := c.show) && SameButShown(s, t)
    ensures SameButShown(Insist(b, s, text), Insist(c, t, text))
  {
    hide Sorted, Take, RouteIds;
  }

  lemma CallTurnIgnoresShow(b: Bench, c: Bench, s: Episode, t: Episode, calls: seq<ToolCall>)
    requires c == b.(show := c.show) && SameButShown(s, t)
    ensures var p, q := CallTurn(b, s, calls), CallTurn(c, t, calls);
      && p.Success? == q.Success?
      && (p.Failure? ==> p.error == q.error)
      && (p.Success? ==> SameButShown(p.value, q.value))
  {
    CallsIgnoreShow(b, c, s, t, calls);
    if Calls(b, s, calls).Success? {
      AfterCallsIgnoresShow(b, c, s, t, Calls(b, s, calls).value, Calls(c, t, calls).value);
    }
    hide Calls, AfterCalls, SameButShown;
  }

  lemma TurnIgnoresShow(b: Bench, c: Bench, s: Episode, t: Episode, g: Generated)
    requires c == b.(show := c.show) && SameButShown(s, t)
    ensures var p, q := Turn(b, s, g), Turn(c, t, g);
      && p.Success? == q.Success?
      && (p.Failure? ==> p.error == q.error)
      && (p.Success? ==> SameButShown(p.value, q.value))
  {
    hide CallTurn, Complete, AllRegistered, Insist;
    match g {
      case Overflow =>
      case Malformed(text) =>
        InsistIgnoresShow(b, c,
          s.(turns := s.turns + 1, malformed := s.malformed + 1, finalText := text),
          t.(turns := t.turns + 1, malformed := t.malformed + 1, finalText := text), text);
      case Reply(text, calls) =>
        var s', t' := s.(turns := s.turns + 1, finalText := text), t.(turns := t.turns + 1, finalText := text);
        if calls == [] {
          InsistIgnoresShow(b, c, s', t', text);
        } else {
          CallTurnIgnoresShow(b, c, s'.(messages := s'.messages + [Assistant(text)]),
            t'.(messages := t'.messages + [Assistant(text)]), calls);
        }
    }
  }

  /** For one sequence of agent outputs, attempts, executor state, exposure, counters,
      exceptions and the pass result are the same under any rewrite of observations:
      only the tool messages differ. */
  lemma {:induction false} PresentationCannotChangeTruth(b: Bench, c: Bench, script: seq<Generated>)
    requires c == b.(show := c.show)
    ensures var p, q := Run(b, script), Run(c, script);
      && p.Success? == q.Success?
      && (p.Failure? ==> p.error == q.error)
      && (p.Success? ==> SameButShown(p.value, q.value))
      && (p.Success? ==> RecordOf(b, p.value).(messages := []) == RecordOf(c, q.value).(messages := []))
  {
    if script != [] {
      var init, g := script[..|script| - 1], script[|script| - 1];
      PresentationCannotChangeTruth(b, c, init);
      if Run(b, init).Success? {
        TurnIgnoresShow(b, c, Run(b, init).value, Run(c, init).value, g);
      }
      hide Turn;
    }
    SameRecord(b, c, script);
  }

  lemma SameRecord(b: Bench, c: Bench, script: seq<Generated>)
    requires c == b.(show := c.show) && Run(b, script).Success? == Run(c, script).Success?
    requires Run(b, script).Success? ==> SameButShown(Run(b, script).value, Run(c, script).value)
    ensures Run(b, script).Success? ==>
      RecordOf(b, Run(b, script).value).(messages := []) == RecordOf(c, Run(c, script).value).(messages := [])
  {
    hide Run;
  }

  // ---- What is said around the calls -----------------------------------------------------------------

  /** Two outputs that differ at most in their text. */
  predicate SameCalls(g: Generated, h: Generated) {
    || (g.Overflow? && h.Overflow?)
    || (g.Malformed? && h.Malformed?)
    || (g.Reply? && h.Reply? && g.calls == h.calls)
  }

  /** Two episodes that differ at most in what was said. */
  ghost predicate SameButSaid(s: Episode, t: Episode) {
    s.(messages := [], finalText := "") == t.(messages := [], finalText := "")
  }

  lemma {:induction false} CallsIgnoreText(b: Bench, s: Episode, t: Episode, calls: seq<ToolCall>)
    requires SameButSaid(s, t)
    ensures Calls(b, s, calls) == Calls(b, t, calls)
  {
    if calls != [] {
      CallsIgnoreText(b, s, t, calls[..|calls| - 1]);
      hide OneCall, CallOf;
    }
  }

  lemma CallTurnIgnoresText(b: Bench, s: Episode, t: Episode, calls: seq<ToolCall>)
    requires SameButSaid(s, t)
    ensures var p, q := CallTurn(b, s, calls), CallTurn(b, t, calls);
      && p.Success? == q.Success?
      && (p.Failure? ==> p.error == q.error)
      && (p.Success? ==> SameButSaid(p.value, q.value))
  {
    CallsIgnoreText(b, s, t, calls);
    if Calls(b, s, calls).Success? {
      AfterCallsIgnoresText(b, s, t, Calls(b, s, calls).value);
    }
    hide Calls, AfterCalls, SameButSaid;
  }

  lemma AfterCallsIgnoresText(b: Bench, s: Episode, t: Episode, u: Burst)
    requires SameButSaid(s, t)
    ensures SameButSaid(AfterCalls(b, s, u), AfterCalls(b, t, u))
  {
    hide Sorted, Take, Stage, Complete;
  }

  lemma TurnIgnoresText(b: Bench, s: Episode, t: Episode, g: Generated, h: Generated)
    requires SameButSaid(s, t) && SameCalls(g, h)
    ensures var p, q := Turn(b, s, g), Turn(b, t, h);
      && p.Success? == q.Success?
      && (p.Failure? ==> p.error == q.error)
      && (p.Success? ==> SameButSaid(p.value, q.value))
  {
    hide CallTurn, Complete, AllRegistered, Stage;
    if g.Reply? && g.calls != [] {
      CallTurnIgnoresText(b,
        s.(turns := s.turns + 1, finalText := g.text, messages := s.messages + [Assistant(g.text)]),
        t.(turns := t.turns + 1, finalText := h.text, messages := t.messages + [Assistant(h.text)]), g.calls);
    }
  }

  /** Whatever an agent says around the same calls, the same happens; and for a supported
      task, whose pass result does not read the final text, so does the record. */
  lemma {:induction false} TextCannotChangeTruth(b: Bench, one: seq<Generated>, other: seq<Generated>)
    requires |one| == |other| && forall i | 0 <= i < |one| :: SameCalls(one[i], other[i])
    ensures var p, q := Run(b, one), Run(b, other);
      && p.Success? == q.Success?
      && (p.Failure? ==> p.error == q.error)
      && (p.Success? ==> SameButSaid(p.value, q.value))
      && (p.Success? && b.world.task.supported ==>
            RecordOf(b, p.value).(messages := []) == RecordOf(b, q.value).(messages := []))
  {
    hide Turn, SameCalls, SameButSaid;
    if one == [] {
      assert other == [];
      if Start(b).Success? {
        Reflexive(b);
      }
      hide Start;
    } else {
      var n := |one| - 1;
      TextCannotChangeTruth(b, one[..n], other[..n]);
      if Run(b, one[..n]).Success? {
        TurnIgnoresText(b, Run(b, one[..n]).value, Run(b, other[..n]).value, one[n], other[n]);
      }
    }
    if Run(b, one).Success? && b.world.task.supported {
      SameSaidRecord(b, Run(b, one).value, Run(b, other).value);
    }
    hide Run, RecordOf;
  }

  lemma Reflexive(b: Bench)
    requires Start(b).Success?
    ensures SameButSaid(Start(b).value, Start(b).value)
  {
  }

  lemma SameSaidRecord(b: Bench, s: Episode, t: Episode)
    requires SameButSaid(s, t) && b.world.task.supported
    ensures RecordOf(b, s).(messages := []) == RecordOf(b, t).(messages := [])
  {
  }
}
