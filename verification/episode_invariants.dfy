/** What every turn of every episode keeps, whatever the agent does. */
module EpisodeInvariants {
  import opened Wrappers
  import opened Text
  import opened JsonValues
  import opened Registry
  import opened Gates
  import opened Frozen
  import opened Replay
  import opened Episodes
  import Tracker

  // ---- Which observations the executor emits --------------------------------------------

  /** A consumed step's observation can be tracked. */
  ghost predicate StepTrackable(step: Step) {
    Tracker.StatusKnown(Shown(step)) && "" !in Shown(step)
  }

  /** A step's scripted fault, if any, has a trackable error text. */
  ghost predicate FaultTrackable(step: Step) {
    step.failOnce != "" ==> Tracker.ErrorNamed(Some(step.failOnce))
  }

  lemma NamedByHead(e: string)
    requires e != "" && !IsSpace(e[0]) && e[0] != ':'
    ensures Tracker.ErrorNamed(Some(e))
  {
    StripKeepsHead(e);
  }

  lemma SchemaErrorsNamed(ep: Endpoint, args: Object)
    requires SchemaFault(ep, args).Some?
    ensures Tracker.ErrorNamed(SchemaFault(ep, args))
  {
    var e := SchemaFault(ep, args).value;
    FirstFaultMeaning(ep.parameters, args);
    assert e[0] in {'u', 'm', 'i'};
    NamedByHead(e);
  }

  lemma ErrorObjectsTrackable(status: string, error: string)
    requires status in {"error", "blocked"}
    ensures Tracker.StatusKnown(ErrorObject(status, error)) && "" !in ErrorObject(status, error)
  {
    assert "" != "status" && "" != "error";
  }

  /** A call that does no work tells the tracker something it accepts. */
  lemma RefusalTrackable(g: Gate)
    requires !g.Advances? && !g.FailsOnce?
    requires g.SchemaInvalid? ==> Tracker.ErrorNamed(Some(g.error))
    ensures Tracker.StatusKnown(GateObservation(g)) && "" !in GateObservation(g)
    ensures Tracker.ErrorNamed(GateError(g))
  {
    hide Tracker.ErrorNamed, Tracker.StatusKnown;
    match g {
      case Advances(_) =>
      case FailsOnce(_) =>
      case Idle(_) =>
        IdleTrackable();
        NothingNamed();
      case SchemaInvalid(e) => ErrorObjectsTrackable("error", e);
      case _ =>
        NamedByHead(GateError(g).value);
        ErrorObjectsTrackable(if GateBlocks(g) then "blocked" else "error", GateError(g).value);
    }
  }

  lemma IdleTrackable()
    ensures Tracker.StatusKnown(UNFINISHED) && "" !in UNFINISHED
  {
    assert "" != "status" && "" != "message";
  }

  lemma GateSchema(w: World, core: Core, call: Call)
    requires core.progress <= |w.task.steps|
    ensures var g := GateAt(w, core, call); g.SchemaInvalid? ==> Tracker.ErrorNamed(Some(g.error))
  {
    hide ArgumentsValid, SchemaFault, Tracker.ErrorNamed, Resolve;
    if GateAt(w, core, call).SchemaInvalid? {
      SchemaErrorsNamed(Resolve(w.registry, call.route).value, call.arguments);
    }
  }

  /** The executor's own observations are always trackable; only a consumed step or a
      scripted fault can make the tracker reject, and exactly when the fixture says so. */
  lemma EmissionTrackable(w: World, core: Core, call: Call, after: Core)
    requires core.progress <= |w.task.steps|
    ensures var g, ev := GateAt(w, core, call), EventOf(w, AttemptAt(w, core, call), after);
      Tracker.Trackable(ev) <==>
        && (g.Advances? ==> core.progress < |w.task.steps| && StepTrackable(w.task.steps[core.progress]))
        && (g.FailsOnce? ==> core.progress < |w.task.steps| && FaultTrackable(w.task.steps[core.progress]))
  {
    var g := GateAt(w, core, call);
    GateFlags(w, core, call);
    GateSchema(w, core, call);
    hide GateAt, Tracker.StatusKnown, Tracker.ErrorNamed, Shown;
    match g {
      case Advances(_) => NothingNamed();
      case FailsOnce(e) => ErrorObjectsTrackable("error", e);
      case _ => RefusalTrackable(g);
    }
  }

  lemma NothingNamed()
    ensures Tracker.ErrorNamed(None)
  {
  }

  // ---- The invariant -----------------------------------------------------------------------

  /** Arguments that step `i` accepts once the earlier steps have been consumed. */
  ghost predicate Fits(w: World, i: nat, args: Object)
    requires i < |w.task.steps|
  {
    && Resolve(w.registry, w.task.steps[i].route).Some?
    && SchemaFault(Resolve(w.registry, w.task.steps[i].route).value, args).None?
    && ArgumentsValid(w.render, w.task.steps[i], args, Merged(w.task.steps[..i]))
  }

  /** Step `i` can be carried out by some call: its route is within a model's reach, some
      arguments fit, and nothing it emits is rejected. */
  ghost predicate Doable(w: World, i: nat)
    requires i < |w.task.steps|
  {
    && Callable(w.task.steps[i].route)
    && (exists args :: Fits(w, i, args))
    && StepTrackable(w.task.steps[i]) && FaultTrackable(w.task.steps[i])
  }

  /** Every consumed step was doable and had been exposed. */
  ghost predicate StepsDone(w: World, progress: nat, history: seq<seq<string>>) {
    forall i | 0 <= i < progress && i < |w.task.steps| ::
      Doable(w, i) && w.task.steps[i].route in Exposed(history)
  }

  ghost predicate FaultsNamed(w: World, failedOnce: set<nat>) {
    forall i | i in failedOnce && i < |w.task.steps| :: FaultTrackable(w.task.steps[i])
  }

  /** The log as the tracker was told about it. */
  function Events(w: World, log: seq<Attempt>): seq<Tracker.Event> {
    if log == [] then []
    else
      var a := log[|log| - 1];
      Events(w, log[..|log| - 1])
      + [Tracker.Event(a.route, a.observation, a.error, !Complete(w.task, |Advancing(log)|))]
  }

  /** The tracker holds the canonical form of the log. */
  ghost predicate Tracked(w: World, x: Exec, t: Tracker.State) {
    && !Blank(w.task.query) && Tracker.Empty(w.task.query).Some?
    && Tracker.Track(w.render, w.registry, Tracker.Empty(w.task.query).value, Events(w, x.attempts))
       == Success(t)
  }

  function Work(x: Exec): nat {
    x.core.progress + |x.core.failedOnce|
  }

  /** Counters, history and visible routes move together. */
  ghost predicate Bookkept(b: Bench, s: Episode) {
    && s.retrievalCalls == 1 + s.expansions == |s.history|
    && s.visible == s.history[|s.history| - 1]
    && InitialRoutes(b) == Success(s.history[0])
    && (if Progressive(b) then
          s.stageIndex == s.expansions <= 2 && forall k | 0 <= k < |s.history| :: s.history[k] == Stage(b, k)
        else if StateAware(b) then
          s.stageIndex == 0 && s.retrievalCalls <= 6 && forall k | 0 <= k < |s.history| :: |s.history[k]| <= 5
        else s.stageIndex == 0 && s.expansions == 0)
  }

  ghost predicate ExecKept(w: World, x: Exec, t: Tracker.State, history: seq<seq<string>>) {
    && Replays(w, x)
    && StepsDone(w, x.core.progress, history)
    && FaultsNamed(w, x.core.failedOnce)
    && Tracked(w, x, t)
  }

  ghost predicate Kept(b: Bench, s: Episode) {
    Bookkept(b, s) && ExecKept(b.world, s.exec, s.tracker, s.history) && Work(s.exec) <= s.turns
  }

  // ---- One call ------------------------------------------------------------------------------

  lemma TrackedNext(w: World, x: Exec, t: Tracker.State, call: Call)
    requires WellFormed(w.registry) && Replays(w, x) && Tracked(w, x, t)
    ensures Tracker.Valid(t)
    ensures var y := Perform(w, x, call);
      var r := Tracker.Update(w.render, w.registry, t, EventOf(w, AttemptAt(w, x.core, call), y.core));
      r.Success? ==> Tracked(w, y, r.value)
  {
    Tracker.TrackIsCanonical(w.render, w.registry, w.task.query, Events(w, x.attempts));
    EventsNext(w, x, call);
    var before, ev := Events(w, x.attempts), EventOf(w, AttemptAt(w, x.core, call), Perform(w, x, call).core);
    hide Events, Perform, EventOf, AttemptAt, Tracker.Update, Tracker.Valid, Tracker.Canonical, Replays, Blank;
    assert (before + [ev])[..|before|] == before;
  }

  lemma EventsNext(w: World, x: Exec, call: Call)
    requires Replays(w, x)
    ensures var y := Perform(w, x, call);
      Events(w, y.attempts) == Events(w, x.attempts) + [EventOf(w, AttemptAt(w, x.core, call), y.core)]
  {
    PerformReplays(w, x, call);
    var y := Perform(w, x, call);
    assert y.attempts[..|y.attempts| - 1] == x.attempts;
    hide GateAt, Consumes, FaultsMatch, Complete, Advancing;
  }

  /** A call adds at most one unit of work, and none unless it may execute. */
  lemma WorkNext(w: World, x: Exec, call: Call)
    requires x.core.progress <= |w.task.steps|
    ensures Work(x) <= Work(Perform(w, x, call)) <= Work(x) + 1
    ensures !call.allowed ==> Work(Perform(w, x, call)) == Work(x)
  {
    GateFlags(w, x.core, call);
  }

  lemma AdvanceDoable(w: World, x: Exec, call: Call)
    requires Replays(w, x) && GateAt(w, x.core, call).Advances? && Callable(call.route)
    requires Tracker.Trackable(EventOf(w, AttemptAt(w, x.core, call), Perform(w, x, call).core))
    requires FaultsNamed(w, x.core.failedOnce)
    ensures x.core.progress < |w.task.steps| && call.available
    ensures w.task.steps[x.core.progress].route == call.route && Doable(w, x.core.progress)
  {
    GateFlags(w, x.core, call);
    EmissionTrackable(w, x.core, call, Perform(w, x, call).core);
    AdvanceConsumes(w, x.core, call);
    assert Fits(w, x.core.progress, call.arguments);
  }

  lemma FaultNamed(w: World, x: Exec, call: Call)
    requires Replays(w, x) && GateAt(w, x.core, call).FailsOnce?
    requires Tracker.Trackable(EventOf(w, AttemptAt(w, x.core, call), Perform(w, x, call).core))
    ensures x.core.progress < |w.task.steps| && FaultTrackable(w.task.steps[x.core.progress])
  {
    GateFlags(w, x.core, call);
    EmissionTrackable(w, x.core, call, Perform(w, x, call).core);
  }

  lemma StepsDoneNext(w: World, x: Exec, call: Call, history: seq<seq<string>>)
    requires Replays(w, x) && StepsDone(w, x.core.progress, history) && FaultsNamed(w, x.core.failedOnce)
    requires Callable(call.route) && (call.available ==> call.route in Exposed(history))
    requires Tracker.Trackable(EventOf(w, AttemptAt(w, x.core, call), Perform(w, x, call).core))
    ensures StepsDone(w, Perform(w, x, call).core.progress, history)
    ensures FaultsNamed(w, Perform(w, x, call).core.failedOnce)
  {
    hide Doable, GateAt, AttemptAt, Replays, Tracker.Trackable, Exposed, FaultTrackable;
    if GateAt(w, x.core, call).Advances? {
      AdvanceDoable(w, x, call);
    } else if GateAt(w, x.core, call).FailsOnce? {
      FaultNamed(w, x, call);
    }
  }

  lemma OneCallKeeps(b: Bench, u: Burst, call: Call, history: seq<seq<string>>)
    requires WellFormed(b.world.registry) && ExecKept(b.world, u.exec, u.tracker, history)
    requires Callable(call.route) && (call.available ==> call.route in Exposed(history))
    ensures var r := OneCall(b, u, call);
      && (r.Success? ==> ExecKept(b.world, r.value.exec, r.value.tracker, history))
      && (r.Success? <==> Tracker.Trackable(
            EventOf(b.world, AttemptAt(b.world, u.exec.core, call), Perform(b.world, u.exec, call).core)))
  {
    var w := b.world;
    TrackedNext(w, u.exec, u.tracker, call);
    PerformReplays(w, u.exec, call);
    Tracker.UpdateAcceptsExactly(w.render, w.registry, u.tracker,
      EventOf(w, AttemptAt(w, u.exec.core, call), Perform(w, u.exec, call).core));
    if OneCall(b, u, call).Success? {
      StepsDoneNext(w, u.exec, call, history);
    }
  }

  lemma CalledIsCallable(name: ToolName)
    ensures Callable(CalledRoute(name))
  {
    CallableExactly(CalledRoute(name));
  }

  lemma VisibleExposed(b: Bench, s: Episode, route: string)
    requires Bookkept(b, s) && route in s.visible
    ensures route in Exposed(s.history)
  {
    assert route in s.history[|s.history| - 1];
  }

  lemma NextCallKeeps(b: Bench, s: Episode, u: Burst, last: ToolCall, first: bool)
    requires WellFormed(b.world.registry) && Bookkept(b, s)
    requires ExecKept(b.world, u.exec, u.tracker, s.history)
    ensures var r := OneCall(b, u, CallOf(s.visible, last, first)); r.Success? ==>
      && ExecKept(b.world, r.value.exec, r.value.tracker, s.history)
      && Work(r.value.exec) <= Work(u.exec) + (if first then 1 else 0)
  {
    var call := CallOf(s.visible, last, first);
    CalledIsCallable(last.name);
    if call.available {
      VisibleExposed(b, s, call.route);
    }
    OneCallKeeps(b, u, call, s.history);
    WorkNext(b.world, u.exec, call);
    hide Bookkept, ExecKept, Tracker.Trackable, Tracker.Update, AttemptAt, GateAt, Exposed, Work;
  }

  /** The calls of one turn: at most one unit of work, however many there are. */
  lemma {:induction false} CallsKeep(b: Bench, s: Episode, calls: seq<ToolCall>)
    requires WellFormed(b.world.registry) && Bookkept(b, s)
    requires ExecKept(b.world, s.exec, s.tracker, s.history)
    ensures var r := Calls(b, s, calls); r.Success? ==>
      && ExecKept(b.world, r.value.exec, r.value.tracker, s.history)
      && Work(r.value.exec) <= Work(s.exec) + (if calls == [] then 0 else 1)
  {
    hide ExecKept, OneCall, Bookkept, Work, CallOf, WellFormed;
    if calls != [] {
      var init, last := calls[..|calls| - 1], calls[|calls| - 1];
      CallsKeep(b, s, init);
      if Calls(b, s, init).Success? {
        NextCallKeeps(b, s, Calls(b, s, init).value, last, |calls| == 1);
      }
    }
  }

  // ---- One turn ----------------------------------------------------------------------------------

  lemma ExposedGrows(history: seq<seq<string>>, more: seq<string>)
    ensures Exposed(history) <= Exposed(history + [more])
  {
    forall r | r in Exposed(history) ensures r in Exposed(history + [more]) {
      var i :| 0 <= i < |history| && r in history[i];
      assert r in (history + [more])[i];
    }
  }

  lemma ExposeKeeps(b: Bench, s: Episode, routes: seq<string>)
    requires ExecKept(b.world, s.exec, s.tracker, s.history)
    ensures ExecKept(b.world, s.exec, s.tracker, Expose(s, routes).history)
  {
    ExposedGrows(s.history, routes);
  }

  lemma ExpandKeeps(b: Bench, s: Episode)
    requires Kept(b, s) && CanExpand(b, s)
    ensures Kept(b, Expand(b, s))
  {
    hide ExecKept, Work, Stage;
    ExposeKeeps(b, s, Stage(b, s.stageIndex + 1));
  }

  lemma AtMost(routes: seq<string>, k: nat)
    ensures |Sorted(Take(routes, k))| <= k && |Sorted(Take(routes, k))| <= |routes|
  {
    SortedLength(Take(routes, k));
  }

  lemma AfterCallsKeeps(b: Bench, s: Episode, u: Burst)
    requires Kept(b, s) && ExecKept(b.world, u.exec, u.tracker, s.history) && Work(u.exec) <= s.turns
    ensures Kept(b, AfterCalls(b, s, u))
  {
    hide ExecKept, Work, Stage, Complete, Sorted, Take, InitialRoutes;
    var t := s.(exec := u.exec, tracker := u.tracker, messages := s.messages + [ToolResults(u.shown)]);
    assert Kept(b, t);
    if StateAware(b) && !Complete(b.world.task, u.exec.core.progress) && t.retrievalCalls < 6 {
      AtMost(b.rank(b.renderQuery(u.tracker)), 5);
      ExposeKeeps(b, t, Sorted(Take(b.rank(b.renderQuery(u.tracker)), 5)));
    } else if u.failed && CanExpand(b, t) {
      ExpandKeeps(b, t);
    }
  }

  lemma InsistKeeps(b: Bench, s: Episode, text: string)
    requires Kept(b, s)
    ensures Kept(b, Insist(b, s, text)) && Insist(b, s, text).turns == s.turns
  {
    hide ExecKept, Work, Stage;
    if CanExpand(b, s) {
      ExpandKeeps(b, s.(messages := s.messages + [Assistant(text), User("TASK_INCOMPLETE")]));
    }
  }

  lemma CallTurnKeeps(b: Bench, s: Episode, calls: seq<ToolCall>)
    requires WellFormed(b.world.registry) && Bookkept(b, s) && calls != []
    requires ExecKept(b.world, s.exec, s.tracker, s.history) && Work(s.exec) + 1 <= s.turns
    ensures var r := CallTurn(b, s, calls); r.Success? ==> Kept(b, r.value) && r.value.turns == s.turns
  {
    CallsKeep(b, s, calls);
    if Calls(b, s, calls).Success? {
      AfterCallsKeeps(b, s, Calls(b, s, calls).value);
    }
    hide ExecKept, Calls, Kept, Bookkept;
  }

  lemma TurnKeeps(b: Bench, s: Episode, g: Generated)
    requires WellFormed(b.world.registry) && Kept(b, s)
    ensures var r := Turn(b, s, g); r.Success? ==> Kept(b, r.value) && r.value.turns <= s.turns + 1
  {
    hide ExecKept, CallTurn, AllRegistered, Insist, Work, WellFormed, Stage;
    match g {
      case Overflow =>
      case Malformed(text) =>
        InsistKeeps(b, s.(turns := s.turns + 1, malformed := s.malformed + 1, finalText := text), text);
      case Reply(text, calls) =>
        var t := s.(turns := s.turns + 1, finalText := text);
        if calls == [] {
          InsistKeeps(b, t, text);
        } else {
          CallTurnKeeps(b, t.(messages := t.messages + [Assistant(text)]), calls);
        }
    }
  }

  lemma StartBookkept(b: Bench)
    requires Start(b).Success?
    ensures Bookkept(b, Start(b).value)
  {
    hide Sorted, Take, RouteIds, Tracker.Empty;
    AtMost(b.rank(b.world.task.query), 5);
  }

  lemma StartExecKept(b: Bench)
    requires Start(b).Success?
    ensures ExecKept(b.world, FRESH, Start(b).value.tracker, Start(b).value.history)
    ensures Start(b).value.exec == FRESH
  {
    hide InitialRoutes;
    var w := b.world;
    StripMeaning(w.task.query);
    assert Events(w, []) == [];
    assert w.task.steps[..0] == [];
  }

  lemma StartKept(b: Bench)
    requires Start(b).Success?
    ensures Kept(b, Start(b).value)
  {
    StartBookkept(b);
    StartExecKept(b);
    hide Bookkept, ExecKept, Start;
    assert Work(FRESH) == 0;
  }

  /** Every episode that has not raised keeps the invariant, under every agent: it has
      replayed a prefix of the fixture, its tracker is the canonical form of its log,
      its counters agree, and it never did more than one unit of work per turn. */
  lemma {:induction false} EveryEpisodeKept(b: Bench, script: seq<Generated>)
    requires WellFormed(b.world.registry)
    ensures Run(b, script).Success? ==> Kept(b, Run(b, script).value) && Run(b, script).value.turns <= |script|
  {
    if Run(b, script).Success? {
      if script == [] {
        StartKept(b);
      } else {
        EveryEpisodeKept(b, script[..|script| - 1]);
        TurnKeeps(b, Run(b, script[..|script| - 1]).value, script[|script| - 1]);
      }
    }
  }
}
