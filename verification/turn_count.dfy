/** The exact number of turns an episode needs, condition by condition. */
module TurnCount {
  import opened Text
  import opened Registry
  import opened Gates
  import opened Frozen
  import opened Replay
  import opened Episodes
  import opened EpisodeInvariants
  import opened EpisodeTheorems
  import opened Working
  import opened Completion
  import Tracker

  // ---- No agent is faster ------------------------------------------------------------------------

  lemma FaultsKnown(w: World, p: nat, failedOnce: set<nat>, log: seq<Attempt>)
    requires FaultsMatch(w, p, failedOnce, log) && p <= |w.task.steps|
    ensures failedOnce == Faulty(w.task.steps[..p])
         || (p < |w.task.steps| && w.task.steps[p].failOnce != "" && p !in Faulty(w.task.steps[..p])
             && failedOnce == Faulty(w.task.steps[..p]) + {p})
  {
    hide FaultLogged;
    var before := Faulty(w.task.steps[..p]);
    assert forall i | i in before :: i in failedOnce;
    assert forall i | i in failedOnce :: i in before || i == p;
  }

  /** Work done so far tells the position: the cost of the finished steps, and one more for
      a fault that has been used up. */
  lemma WorkBounds(w: World, x: Exec)
    requires Replays(w, x)
    ensures var p, steps := x.core.progress, w.task.steps;
      Work(x) == Cost(steps, p) || (p < |steps| && steps[p].failOnce != "" && Work(x) == Cost(steps, p) + 1)
  {
    hide FaultsMatch, ConsumedPrefix, Merged, Faulty, Cost;
    CostIs(w.task.steps, x.core.progress);
    FaultsKnown(w, x.core.progress, x.core.failedOnce, x.attempts);
  }

  lemma WorkAtCost(w: World, x: Exec, i: nat)
    requires Replays(w, x) && i < |w.task.steps| && Work(x) == Cost(w.task.steps, i)
    ensures x.core.progress == i
  {
    var p, steps := x.core.progress, w.task.steps;
    assert p <= |steps|;
    WorkBounds(w, x);
    hide Replays, Work;
    if i < p {
      CostGrows(steps, i, p);
    } else if p < i {
      CostGrows(steps, p + 1, i);
    }
  }

  lemma OneCallWork(b: Bench, u: Burst, call: Call)
    requires u.exec.core.progress <= |b.world.task.steps| && OneCall(b, u, call).Success?
    ensures var p := u.exec.core.progress;
      || OneCall(b, u, call).value.exec.core == u.exec.core
      || (p < |b.world.task.steps| && call.available && call.route == b.world.task.steps[p].route)
  {
    GateFlags(b.world, u.exec.core, call);
    hide Tracker.Update, Presented, GateAt, AttemptAt, Complete;
  }

  /** A turn works only on the current step, and only while its route is visible. */
  lemma {:induction false} WorkIsVisible(b: Bench, s: Episode, calls: seq<ToolCall>)
    requires s.exec.core.progress <= |b.world.task.steps|
    ensures var r, p := Calls(b, s, calls), s.exec.core.progress; r.Success? ==>
      || r.value.exec.core == s.exec.core
      || (p < |b.world.task.steps| && b.world.task.steps[p].route in s.visible)
  {
    hide OneCall;
    if calls != [] {
      var init, last := calls[..|calls| - 1], calls[|calls| - 1];
      WorkIsVisible(b, s, init);
      if Calls(b, s, calls).Success? && Calls(b, s, init).value.exec.core == s.exec.core {
        OneCallWork(b, Calls(b, s, init).value, CallOf(s.visible, last, |calls| == 1));
      }
    }
  }

  /** What one turn may do at most. */
  ghost predicate Modest(b: Bench, s: Episode, next: Episode) {
    var p := s.exec.core.progress;
    && next.turns <= s.turns + 1 && s.turns <= next.turns
    && next.expansions <= s.expansions + (next.turns - s.turns)
    && Work(next.exec) <= Work(s.exec) + (next.turns - s.turns)
    && (Work(next.exec) > Work(s.exec) ==>
          p < |b.world.task.steps| && b.world.task.steps[p].route in s.visible)
  }

  lemma CallTurnModest(b: Bench, s: Episode, calls: seq<ToolCall>)
    requires WellFormed(b.world.registry) && Kept(b, s) && calls != []
    ensures var r := CallTurn(b, s, calls); r.Success? ==>
      && r.value.turns == s.turns && r.value.expansions <= s.expansions + 1
      && Work(r.value.exec) <= Work(s.exec) + 1
      && (Work(r.value.exec) > Work(s.exec) ==>
            s.exec.core.progress < |b.world.task.steps|
            && b.world.task.steps[s.exec.core.progress].route in s.visible)
  {
    hide *;
    KeptParts(b, s);
    CallsKeep(b, s, calls);
    WorkIsVisible(b, s, calls);
    CallTurnIs(b, s, calls);
    if Calls(b, s, calls).Success? {
      var u := Calls(b, s, calls).value;
      AfterCallsModest(b, s, u);
      SameCoreSameWork(u.exec, s.exec);
    }
  }

  lemma SameCoreSameWork(x: Exec, y: Exec)
    ensures x.core == y.core ==> Work(x) == Work(y)
  {
  }

  lemma AfterCallsModest(b: Bench, s: Episode, u: Burst)
    ensures var t := AfterCalls(b, s, u);
      t.exec == u.exec && t.turns == s.turns && t.expansions <= s.expansions + 1
  {
    hide Stage, Complete, Sorted, Take;
  }

  lemma TurnsKept(b: Bench, s: Episode, t: Episode)
    requires Kept(b, s) && t == s.(turns := t.turns, finalText := t.finalText, messages := t.messages)
    requires s.turns <= t.turns
    ensures Kept(b, t)
  {
    hide ExecKept, Work;
  }

  lemma TurnModest(b: Bench, s: Episode, g: Generated)
    requires WellFormed(b.world.registry) && Kept(b, s)
    ensures Turn(b, s, g).Success? ==> Modest(b, s, Turn(b, s, g).value)
  {
    hide CallTurn, ExecKept, Bookkept, Stage, Complete, AllRegistered, WellFormed, Work;
    match g {
      case Overflow =>
      case Malformed(_) =>
      case Reply(text, calls) =>
        if calls != [] {
          var t := s.(turns := s.turns + 1, finalText := text, messages := s.messages + [Assistant(text)]);
          TurnsKept(b, s, t);
          CallTurnModest(b, t, calls);
        }
    }
  }

  /** Work on a step starts only once its route shows, and goes on at one unit a turn. */
  ghost predicate Punctual(b: Bench, s: Episode) {
    var steps := b.world.task.steps;
    && s.expansions <= s.turns
    && forall i | 0 <= i < |steps| && Cost(steps, i) < Work(s.exec) ::
         steps[i].route in ShownAt(b, 2) && Level(b, steps[i].route) + Work(s.exec) <= s.turns + Cost(steps, i)
  }

  /** The visible routes are what the expansions so far show. */
  lemma VisibleIsShown(b: Bench, s: Episode)
    requires !StateAware(b) && Kept(b, s)
    ensures s.visible == ShownAt(b, s.expansions)
  {
    hide ExecKept, Work, InitialRoutes, Stage;
  }

  lemma StepPunctual(b: Bench, s: Episode, next: Episode, i: nat)
    requires StagedExposure(b) && Kept(b, s) && Punctual(b, s) && Modest(b, s, next)
    requires i < |b.world.task.steps| && Cost(b.world.task.steps, i) < Work(next.exec)
    ensures var steps := b.world.task.steps;
      && steps[i].route in ShownAt(b, 2)
      && Level(b, steps[i].route) + Work(next.exec) <= next.turns + Cost(steps, i)
  {
    hide StagedExposure, Kept, Work, Cost, Level, ShownAt;
    if Work(s.exec) <= Cost(b.world.task.steps, i) {
      assert Work(s.exec) == Cost(b.world.task.steps, i);
      KeptParts(b, s);
      WorkAtCost(b.world, s.exec, i);
      NotStateAware(b);
      VisibleIsShown(b, s);
      ShownByTwo(b, b.world.task.steps[i].route, s.expansions);
      LevelMeaning(b, b.world.task.steps[i].route, s.expansions);
    }
  }

  lemma NotStateAware(b: Bench)
    requires StagedExposure(b)
    ensures !StateAware(b)
  {
  }

  lemma ShownByTwo(b: Bench, route: string, k: nat)
    requires StagedExposure(b) && route in ShownAt(b, k)
    ensures route in ShownAt(b, 2)
  {
    ShownWidens(b, if k < 2 then k else 2, 2);
    hide Stage, InitialRoutes;
  }

  lemma TurnPunctual(b: Bench, s: Episode, next: Episode)
    requires StagedExposure(b) && Kept(b, s) && Punctual(b, s) && Modest(b, s, next)
    ensures Punctual(b, next)
  {
    var steps := b.world.task.steps;
    forall i | 0 <= i < |steps| && Cost(steps, i) < Work(next.exec)
      ensures steps[i].route in ShownAt(b, 2)
      ensures Level(b, steps[i].route) + Work(next.exec) <= next.turns + Cost(steps, i)
    {
      StepPunctual(b, s, next, i);
    }
    hide StagedExposure, Kept, Work, Cost, Level, ShownAt;
  }

  lemma {:induction false} EveryEpisodePunctual(b: Bench, script: seq<Generated>)
    requires WellFormed(b.world.registry) && StagedExposure(b)
    ensures Run(b, script).Success? ==> Punctual(b, Run(b, script).value)
  {
    hide Punctual, StagedExposure, WellFormed, Turn, Start;
    if Run(b, script).Success? {
      if script == [] {
        StartPunctual(b);
      } else {
        var init := script[..|script| - 1];
        EveryEpisodePunctual(b, init);
        EveryEpisodeKept(b, init);
        TurnModest(b, Run(b, init).value, script[|script| - 1]);
        TurnPunctual(b, Run(b, init).value, Run(b, script).value);
      }
    }
  }

  lemma StartPunctual(b: Bench)
    requires Start(b).Success?
    ensures Punctual(b, Start(b).value)
  {
    hide ShownAt, Level, InitialRoutes, Tracker.Empty;
    assert Work(FRESH) == 0;
  }

  // ---- The exact count ------------------------------------------------------------------------------

  /** Some agent passes with `m` turns available. */
  ghost predicate PassableIn(b: Bench, m: nat) {
    exists script: seq<Generated> :: |script| == m && Run(b, script).Success? && Passed(b, Run(b, script).value)
  }

  lemma PassedOnTime(b: Bench, s: Episode, m: nat)
    requires Punctual(b, s) && s.turns <= m
    requires forall i | 0 <= i < |b.world.task.steps| :: Doable(b.world, i)
    requires Work(s.exec) == Cost(b.world.task.steps, |b.world.task.steps|)
    ensures OnTime(b, |b.world.task.steps|, m)
  {
    var n, steps := |b.world.task.steps|, b.world.task.steps;
    hide Doable, ShownAt, Level, Cost, Work;
    forall j | 0 <= j < n
      ensures steps[j].route in ShownAt(b, 2) && Level(b, steps[j].route) + Cost(steps, n) <= m + Cost(steps, j)
    {
      CostGrows(steps, j, n);
    }
  }

  lemma PassingIsOnTime(b: Bench, script: seq<Generated>)
    requires WellFormed(b.world.registry) && StagedExposure(b) && b.world.task.supported
    requires Run(b, script).Success? && Passed(b, Run(b, script).value)
    ensures !Blank(b.world.task.query) && OnTime(b, |b.world.task.steps|, |script|)
  {
    hide *;
    var s := Run(b, script).value;
    PassingUsedEveryRoute(b, script);
    EveryEpisodeKept(b, script);
    EveryEpisodePunctual(b, script);
    PassedProgress(b, s);
    VisibleQuery(b, s);
    KeptReplays(b, s);
    WorkBounds(b.world, s.exec);
    PassedOnTime(b, s, |script|);
  }

  lemma KeptReplays(b: Bench, s: Episode)
    requires Kept(b, s)
    ensures Replays(b.world, s.exec) && s.exec.core.progress <= |b.world.task.steps|
  {
    KeptParts(b, s);
  }

  lemma PassedProgress(b: Bench, s: Episode)
    requires Kept(b, s) && b.world.task.supported && Passed(b, s)
    ensures s.exec.core.progress == |b.world.task.steps|
  {
    KeptParts(b, s);
    hide Kept, Bookkept, ExecKept, Replays;
  }

  lemma VisibleQuery(b: Bench, s: Episode)
    requires Kept(b, s)
    ensures !Blank(b.world.task.query)
  {
    hide Bookkept, Replays, StepsDone, FaultsNamed, Blank, Work;
  }

  /** For every condition that does not follow the tracker state: some agent passes with
      `m` turns available if and only if the query is visible and every step is doable, can
      be shown, and can be shown early enough to leave, within `m`, the turns that it and
      the steps and faults after it cost. */
  lemma ExactTurnCount(b: Bench, m: nat)
    requires WellFormed(b.world.registry) && StagedExposure(b) && b.world.task.supported
    ensures PassableIn(b, m) <==> !Blank(b.world.task.query) && OnTime(b, |b.world.task.steps|, m)
  {
    hide Run, StagedExposure, WellFormed, Passed, OnTime, Blank;
    var n := |b.world.task.steps|;
    if !Blank(b.world.task.query) && OnTime(b, n, m) {
      var script := Reach(b, n, m);
      PlacedPasses(b, script);
      var longer := Padded(b, script, m);
    }
    if PassableIn(b, m) {
      var script :| |script| == m && Run(b, script).Success? && Passed(b, Run(b, script).value);
      PassingIsOnTime(b, script);
    }
  }

  lemma PlacedPasses(b: Bench, script: seq<Generated>)
    requires StagedExposure(b) && b.world.task.supported && Placed(b, script, |b.world.task.steps|, false)
    ensures Run(b, script).Success? && Passed(b, Run(b, script).value)
    ensures AllRegistered(b.world.registry, Run(b, script).value.visible)
  {
    hide Run, Kept, StagedExposure, ShownAt, AllRegistered, Faulty;
    ShownRegistered(b, |script|);
  }

  // ---- Fixed candidate sets --------------------------------------------------------------------------

  /** Every step can be carried out by a call to a route that is visible from the start. */
  ghost predicate Solvable(b: Bench, visible: seq<string>) {
    && b.world.task.supported && !Blank(b.world.task.query)
    && forall i | 0 <= i < |b.world.task.steps| ::
         Doable(b.world, i) && b.world.task.steps[i].route in visible
  }

  /** With one fixed candidate set, some agent passes with `m` turns available if and only
      if every step is doable on a visible route and `m` is at least the number of steps
      plus the number of scripted faults. */
  lemma TightCompletion(b: Bench, m: nat)
    requires WellFormed(b.world.registry) && StagedExposure(b) && !Progressive(b) && b.world.task.supported
    ensures PassableIn(b, m) <==>
      && Solvable(b, InitialRoutes(b).value)
      && |b.world.task.steps| + |Faulty(b.world.task.steps)| <= m
  {
    ExactTurnCount(b, m);
    FixedOnTime(b, m);
    hide PassableIn, Doable, OnTime, Faulty, Blank, InitialRoutes, StagedExposure, WellFormed;
  }

  lemma FixedOnTime(b: Bench, m: nat)
    requires StagedExposure(b) && !Progressive(b)
    ensures OnTime(b, |b.world.task.steps|, m) <==>
      && (forall i | 0 <= i < |b.world.task.steps| ::
            Doable(b.world, i) && b.world.task.steps[i].route in InitialRoutes(b).value)
      && (b.world.task.steps != [] ==> |b.world.task.steps| + |Faulty(b.world.task.steps)| <= m)
  {
    var steps := b.world.task.steps;
    var n := |steps|;
    CostIs(steps, n);
    assert steps[..n] == steps;
    hide Doable, Cost, Faulty, InitialRoutes, AllRegistered, Level;
    forall i | 0 <= i < n && steps[i].route in ShownAt(b, 2)
      ensures Level(b, steps[i].route) == 0
    {
      LevelMeaning(b, steps[i].route, 0);
    }
    assert ShownAt(b, 2) == InitialRoutes(b).value;
    NoCost(steps);
    if n > 0 && OnTime(b, n, m) {
      assert Level(b, steps[0].route) + Cost(steps, n) <= m + Cost(steps, 0);
    }
  }

  lemma NoCost(steps: seq<Step>)
    ensures Cost(steps, 0) == 0
  {
  }

  // ---- Progressive candidate sets -----------------------------------------------------------------------

  lemma ProgressiveStaged(b: Bench)
    requires Progressive(b) && AllRegistered(b.world.registry, b.rank(b.world.task.query))
    ensures StagedExposure(b)
  {
    hide Sorted, Take, AllRegistered, RouteIds;
    var ranked := b.rank(b.world.task.query);
    VisibleRegistered(b, ranked, 3);
    VisibleRegistered(b, ranked, 10);
    EverythingRegistered(b.world.registry);
  }

  /** The turns a step must leave: its own cost and that of the steps after it. */
  function CostFrom(steps: seq<Step>, i: nat): int
    requires i <= |steps|
  {
    Cost(steps, |steps|) - Cost(steps, i)
  }

  /** A progressive condition whose ranking holds registered routes: some agent passes with
      `m` turns available if and only if every step is doable on a registered route whose
      level - 0 in the top three, 1 in the top ten, 2 otherwise - plus the cost of that step
      and the ones after it is at most `m`. */
  lemma ProgressiveTurnCount(b: Bench, m: nat)
    requires WellFormed(b.world.registry) && Progressive(b) && b.world.task.supported
    requires AllRegistered(b.world.registry, b.rank(b.world.task.query))
    ensures var steps := b.world.task.steps;
      PassableIn(b, m) <==> !Blank(b.world.task.query) && forall i | 0 <= i < |steps| ::
        && Doable(b.world, i) && steps[i].route in RouteIds(b.world.registry)
        && Level(b, steps[i].route) + CostFrom(steps, i) <= m
  {
    ProgressiveStaged(b);
    ExactTurnCount(b, m);
    EverythingShown(b);
    hide PassableIn, Doable, Cost, Blank, InitialRoutes, AllRegistered;
    hide WellFormed, Level, Stage, RouteIds, StagedExposure;
    assert ShownAt(b, 2) == Stage(b, 2);
  }

  /** The level of a route, in terms of the ranking. */
  lemma LevelInRanking(b: Bench, route: string)
    requires Progressive(b)
    ensures var ranked := b.rank(b.world.task.query);
      Level(b, route) == if route in Take(ranked, 3) then 0 else if route in Take(ranked, 10) then 1 else 2
  {
    SortedKeepsElements(Take(b.rank(b.world.task.query), 3));
    SortedKeepsElements(Take(b.rank(b.world.task.query), 10));
    hide Sorted, Take, RouteIds;
  }

  /** Whatever the ranking, two turns more than the shortest always suffice, and with a
      ranking that never helps they are needed. */
  lemma ProgressiveSlack(b: Bench, m: nat)
    requires WellFormed(b.world.registry) && Progressive(b) && b.world.task.supported
    requires AllRegistered(b.world.registry, b.rank(b.world.task.query))
    requires Solvable(b, RouteIds(b.world.registry)) && b.world.task.steps != []
    ensures var least := |b.world.task.steps| + |Faulty(b.world.task.steps)|;
      && (least + 2 <= m ==> PassableIn(b, m))
      && (m < least ==> !PassableIn(b, m))
      && (b.rank(b.world.task.query) == [] ==> (PassableIn(b, m) <==> least + 2 <= m))
  {
    hide PassableIn, Doable, Cost, Faulty, Blank, AllRegistered, WellFormed, Level, RouteIds;
    var steps := b.world.task.steps;
    ProgressiveTurnCount(b, m);
    CostIs(steps, |steps|);
    assert steps[..|steps|] == steps;
    NoCost(steps);
    assert CostFrom(steps, 0) == Cost(steps, |steps|);
    LevelInRanking(b, steps[0].route);
    SlackSuffices(b);
  }

  lemma SlackSuffices(b: Bench)
    ensures var steps := b.world.task.steps;
      forall i | 0 <= i < |steps| :: Level(b, steps[i].route) <= 2 && CostFrom(steps, i) <= Cost(steps, |steps|)
  {
    hide Level;
    forall i | 0 <= i < |b.world.task.steps|
      ensures Level(b, b.world.task.steps[i].route) <= 2
    {
      LevelSmall(b, b.world.task.steps[i].route);
    }
  }
}
