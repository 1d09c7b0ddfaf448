/** One turn that does one unit of work: the agent calls the expected tool with fitting
    arguments, and adds a second, meaningless call. */
module Working {
  import opened Wrappers
  import opened Text
  import opened Registry
  import opened Gates
  import opened Frozen
  import opened Replay
  import opened Episodes
  import opened EpisodeInvariants
  import Tracker

  /** A call that resolves to nothing. Its error makes a progressive condition widen. */
  const JUNK := ToolCall("x", map[])

  /** The expected step still has its scripted fault to use up. */
  predicate FaultDue(w: World, core: Core)
    requires core.progress < |w.task.steps|
  {
    w.task.steps[core.progress].failOnce != "" && core.progress !in core.failedOnce
  }

  /** What a fitting call emits next can be tracked. */
  ghost predicate CallTrackable(w: World, core: Core)
    requires core.progress < |w.task.steps|
  {
    var step := w.task.steps[core.progress];
    if FaultDue(w, core) then FaultTrackable(step) else StepTrackable(step)
  }

  /** The fields one fitting call leaves behind: the fault used up, or the step consumed. */
  function AfterWork(w: World, core: Core): Core
    requires core.progress < |w.task.steps|
  {
    var step := w.task.steps[core.progress];
    if FaultDue(w, core) then core.(failedOnce := core.failedOnce + {core.progress})
    else Core(core.progress + 1, Absorb(core.state, Shown(step)), core.failedOnce)
  }

  /** The tool call names the expected route, which is visible, and its arguments fit. */
  ghost predicate Fitting(b: Bench, s: Episode, tool: ToolCall) {
    var w, p := b.world, s.exec.core.progress;
    && w.task.supported && p < |w.task.steps|
    && CalledRoute(tool.name) == w.task.steps[p].route && CalledRoute(tool.name) in s.visible
    && Fits(w, p, tool.arguments)
  }

  lemma FittingGate(w: World, core: Core, call: Call)
    requires w.task.supported && core.progress < |w.task.steps|
    requires core.state == Merged(w.task.steps[..core.progress])
    requires call.route == w.task.steps[core.progress].route && call.available && call.allowed
    requires Fits(w, core.progress, call.arguments)
    ensures var step := w.task.steps[core.progress];
      GateAt(w, core, call) == if FaultDue(w, core) then FailsOnce(step.failOnce) else Advances(Shown(step))
  {
  }

  /** A call that works carries fitting arguments. */
  lemma GateFits(w: World, core: Core, call: Call)
    requires core.progress <= |w.task.steps| && core.state == Merged(w.task.steps[..core.progress])
    requires GateAt(w, core, call).Advances? || GateAt(w, core, call).FailsOnce?
    ensures core.progress < |w.task.steps| && w.task.supported && call.available
    ensures call.route == w.task.steps[core.progress].route && Fits(w, core.progress, call.arguments)
  {
    GateFlags(w, core, call);
    hide ArgumentsValid, SchemaFault, Merged, Shown;
  }

  /** The tracker is told of a step's scripted fault. */
  function FaultTold(step: Step): Tracker.Event {
    Tracker.Event(step.route, ErrorObject("error", step.failOnce), Some(step.failOnce), true)
  }

  /** The tracker is told of the consumed step `p`. */
  function StepTold(w: World, p: nat): Tracker.Event
    requires p < |w.task.steps|
  {
    Tracker.Event(w.task.steps[p].route, Shown(w.task.steps[p]), None, p + 1 < |w.task.steps|)
  }

  /** What the tracker is told of one unit of work. */
  function WorkTold(w: World, core: Core): Tracker.Event
    requires core.progress < |w.task.steps|
  {
    if FaultDue(w, core) then FaultTold(w.task.steps[core.progress]) else StepTold(w, core.progress)
  }

  /** A fitting call leaves and tells what one unit of work leaves and tells. */
  lemma FittingWork(w: World, x: Exec, call: Call)
    requires w.task.supported && x.core.progress < |w.task.steps|
    requires x.core.state == Merged(w.task.steps[..x.core.progress])
    requires call.route == w.task.steps[x.core.progress].route && call.available && call.allowed
    requires Fits(w, x.core.progress, call.arguments)
    ensures Perform(w, x, call).core == AfterWork(w, x.core)
    ensures EventOf(w, AttemptAt(w, x.core, call), Perform(w, x, call).core) == WorkTold(w, x.core)
    ensures Tracker.Trackable(WorkTold(w, x.core)) <==> CallTrackable(w, x.core)
  {
    FittingGate(w, x.core, call);
    EmissionTrackable(w, x.core, call, Perform(w, x, call).core);
    hide Fits, GateAt, Shown, Tracker.Trackable, StepTrackable, FaultTrackable, Merged;
  }

  lemma FirstCall(b: Bench, s: Episode, tool: ToolCall)
    ensures Calls(b, s, [tool])
         == OneCall(b, Burst(s.exec, s.tracker, [], false), CallOf(s.visible, tool, true))
  {
    assert [tool][..0] == [];
    hide OneCall, CallOf;
  }

  lemma OneCallIs(b: Bench, u: Burst, call: Call)
    ensures var w, x := b.world, Perform(b.world, u.exec, call);
      var r, t := OneCall(b, u, call),
        Tracker.Update(w.render, w.registry, u.tracker, EventOf(w, AttemptAt(w, u.exec.core, call), x.core));
      && (r.Success? <==> t.Success?)
      && (r.Success? ==> r.value.exec == x && r.value.tracker == t.value)
  {
    hide Tracker.Update, Perform, AttemptAt, Presented, EventOf;
  }

  /** The call goes through exactly when what it emits can be tracked, and then the tracker
      has been told just that. */
  lemma WorkingCall(b: Bench, s: Episode, tool: ToolCall)
    requires WellFormed(b.world.registry) && Kept(b, s) && Fitting(b, s, tool)
    ensures var w, r := b.world, Calls(b, s, [tool]);
      && (r.Success? <==> CallTrackable(w, s.exec.core))
      && (r.Success? ==>
            && r.value.exec.core == AfterWork(w, s.exec.core)
            && Tracker.Update(w.render, w.registry, s.tracker, WorkTold(w, s.exec.core)) == Success(r.value.tracker)
            && ExecKept(w, r.value.exec, r.value.tracker, s.history))
  {
    var u, call := Burst(s.exec, s.tracker, [], false), CallOf(s.visible, tool, true);
    KeptParts(b, s);
    assert call == Call(CalledRoute(tool.name), tool.arguments, true, true);
    FittingWork(b.world, s.exec, call);
    hide *;
    hide Kept, Fitting;
    CalledIsCallable(tool.name);
    VisibleExposed(b, s, call.route);
    OneCallKeeps(b, u, call, s.history);
    FirstCall(b, s, tool);
    OneCallIs(b, u, call);
  }

  lemma KeptParts(b: Bench, s: Episode)
    requires Kept(b, s)
    ensures Bookkept(b, s) && ExecKept(b.world, s.exec, s.tracker, s.history) && Replays(b.world, s.exec)
    ensures s.exec.core.progress <= |b.world.task.steps|
    ensures s.exec.core.state == Merged(b.world.task.steps[..s.exec.core.progress])
  {
    hide Bookkept, StepsDone, FaultsNamed, Tracked, Work, ConsumedPrefix, FaultsMatch, Merged;
  }

  lemma JunkIsNothing(reg: Catalog)
    ensures CalledRoute(JUNK.name) == "x" && Resolve(reg, "x") == None
  {
    assert IndexOf("x", '.') == 1;
  }

  /** The meaningless call changes nothing but the log, and counts as a failure. */
  lemma JunkCall(b: Bench, u: Burst, visible: seq<string>, history: seq<seq<string>>)
    requires WellFormed(b.world.registry) && ExecKept(b.world, u.exec, u.tracker, history)
    requires "x" !in visible
    ensures var r := OneCall(b, u, CallOf(visible, JUNK, false));
      && r.Success? && r.value.exec.core == u.exec.core && r.value.failed
      && Tracker.Valid(r.value.tracker)
  {
    var call := CallOf(visible, JUNK, false);
    JunkIsNothing(b.world.registry);
    assert call == Call("x", map[], false, false);
    CalledIsCallable(JUNK.name);
    hide CalledRoute, CallOf, ExecKept, Tracker.Valid;
    UnknownCall(b, u, call, history);
  }

  lemma UnknownCall(b: Bench, u: Burst, call: Call, history: seq<seq<string>>)
    requires WellFormed(b.world.registry) && ExecKept(b.world, u.exec, u.tracker, history)
    requires Callable(call.route) && !call.available && Resolve(b.world.registry, call.route) == None
    ensures var r := OneCall(b, u, call);
      && r.Success? && r.value.exec.core == u.exec.core && r.value.failed
      && Tracker.Valid(r.value.tracker)
  {
    var w, x := b.world, Perform(b.world, u.exec, call);
    KeptProgress(w, u.exec, u.tracker, history);
    assert GateAt(w, u.exec.core, call) == UnknownTool by { hide SchemaFault, ArgumentsValid, Resolve; }
    OneCallKeeps(b, u, call, history);
    EmissionTrackable(w, u.exec.core, call, x.core);
    hide ExecKept, Tracker.Update, Tracker.Trackable, Tracker.Valid, Resolve, Callable, GateAt;
    TrackedValid(w, OneCall(b, u, call).value.exec, OneCall(b, u, call).value.tracker, history);
  }

  lemma KeptProgress(w: World, x: Exec, t: Tracker.State, history: seq<seq<string>>)
    requires ExecKept(w, x, t, history)
    ensures x.core.progress <= |w.task.steps|
  {
    hide StepsDone, FaultsNamed, Tracked, ConsumedPrefix, FaultsMatch, Merged;
  }

  lemma TrackedValid(w: World, x: Exec, t: Tracker.State, history: seq<seq<string>>)
    requires WellFormed(w.registry) && ExecKept(w, x, t, history)
    ensures Tracker.Valid(t)
  {
    hide Replays, StepsDone, FaultsNamed, Tracker.Track, Tracker.Canonical;
    Tracker.TrackIsCanonical(w.render, w.registry, w.task.query, Events(w, x.attempts));
  }

  lemma RegisteredIsNamed(reg: Catalog, routes: seq<string>)
    requires AllRegistered(reg, routes)
    ensures "x" !in routes
  {
    RouteIdsMembers(reg, "x");
    forall i, j | IsEndpoint(reg, i, j)
      ensures RouteOf(reg[i], reg[i].endpoints[j]) != "x"
    {
      assert |reg[i].key| == 0 || RouteOf(reg[i], reg[i].endpoints[j])[|reg[i].key|] == '.';
    }
  }

  lemma TwoCalls(b: Bench, s: Episode, tool: ToolCall)
    ensures var first := Calls(b, s, [tool]);
      Calls(b, s, [tool, JUNK]) ==
        if first.Failure? then first else OneCall(b, first.value, CallOf(s.visible, JUNK, false))
  {
    assert [tool, JUNK][..1] == [tool];
    hide OneCall, CallOf;
  }

  lemma BusyCalls(b: Bench, s: Episode, tool: ToolCall)
    requires WellFormed(b.world.registry) && Kept(b, s) && Fitting(b, s, tool)
    requires AllRegistered(b.world.registry, s.visible)
    ensures var r := Calls(b, s, [tool, JUNK]);
      && (r.Success? <==> CallTrackable(b.world, s.exec.core))
      && (r.Success? ==>
            && r.value.exec.core == AfterWork(b.world, s.exec.core) && r.value.failed
            && Tracker.Valid(r.value.tracker))
  {
    hide Calls, OneCall, CallOf, CallTrackable, AfterWork, ExecKept, Tracker.Valid, AllRegistered;
    WorkingCall(b, s, tool);
    TwoCalls(b, s, tool);
    if Calls(b, s, [tool]).Success? {
      RegisteredIsNamed(b.world.registry, s.visible);
      JunkCall(b, Calls(b, s, [tool]).value, s.visible, s.history);
    }
  }

  // ---- The turn ------------------------------------------------------------------------------

  /** The top five routes for a query. */
  function TopFive(b: Bench, query: string): seq<string> {
    Sorted(Take(b.rank(query), 5))
  }

  /** What a working turn leaves visible: the next stage, the top five for the new tracker
      state, or what was visible before. */
  ghost predicate NextView(b: Bench, s: Episode, t: Episode) {
    if CanExpand(b, s) then t.stageIndex == s.stageIndex + 1 && t.visible == Stage(b, s.stageIndex + 1)
    else
      && t.stageIndex == s.stageIndex
      && (|| t.visible == s.visible
          || (StateAware(b) && exists seen: Tracker.State ::
                Tracker.Valid(seen) && t.visible == TopFive(b, b.renderQuery(seen))))
  }

  lemma AfterBusyCalls(b: Bench, s: Episode, u: Burst)
    requires u.failed && Tracker.Valid(u.tracker)
    ensures var t := AfterCalls(b, s, u);
      && NextView(b, s, t) && t.exec == u.exec && t.halted == s.halted && t.overflow == s.overflow
  {
    hide Sorted, Take, Stage, Complete, Tracker.Valid;
  }

  function BusyReply(tool: ToolCall): Generated {
    Reply("", [tool, JUNK])
  }

  /** The episode as the calls of a turn find it. */
  function Asked(s: Episode, text: string): Episode {
    s.(turns := s.turns + 1, finalText := text, messages := s.messages + [Assistant(text)])
  }

  lemma CallingTurnIs(b: Bench, s: Episode, text: string, calls: seq<ToolCall>)
    requires !s.halted && AllRegistered(b.world.registry, s.visible) && calls != []
    ensures Turn(b, s, Reply(text, calls)) == CallTurn(b, Asked(s, text), calls)
  {
    hide CallTurn, Insist, Complete;
  }

  lemma CallTurnIs(b: Bench, s: Episode, calls: seq<ToolCall>)
    ensures CallTurn(b, s, calls) == match Calls(b, s, calls)
      case Failure(e) => Failure(e)
      case Success(u) => Success(AfterCalls(b, s, u))
  {
    hide Calls, AfterCalls;
  }

  lemma AskedKept(b: Bench, s: Episode, text: string)
    requires Kept(b, s)
    ensures Kept(b, Asked(s, text))
  {
    hide ExecKept, Work;
  }

  /** A fitting call is carried out unless what it emits is rejected; then the episode
      raises. Carried out, it does one unit of work and may change the view. */
  lemma BusyTurn(b: Bench, s: Episode, tool: ToolCall)
    requires WellFormed(b.world.registry) && Kept(b, s) && !s.halted && !s.overflow && Fitting(b, s, tool)
    requires AllRegistered(b.world.registry, s.visible)
    ensures var r := Turn(b, s, BusyReply(tool));
      && (r.Success? <==> CallTrackable(b.world, s.exec.core))
      && (r.Success? ==>
            && Kept(b, r.value) && !r.value.halted && !r.value.overflow
            && r.value.exec.core == AfterWork(b.world, s.exec.core) && NextView(b, s, r.value))
  {
    var asked := Asked(s, "");
    assert Fitting(b, asked, tool) by { hide Fits; }
    assert BusyReply(tool) == Reply("", [tool, JUNK]);
    hide *;
    AskedKept(b, s, "");
    CallingTurnIs(b, s, "", [tool, JUNK]);
    CallTurnIs(b, asked, [tool, JUNK]);
    SameAsked(b, s, "");
    BusyCalls(b, asked, tool);
    if Calls(b, asked, [tool, JUNK]).Success? {
      AfterBusyCalls(b, asked, Calls(b, asked, [tool, JUNK]).value);
      TurnKeeps(b, s, BusyReply(tool));
      SameView(b, s, AfterCalls(b, asked, Calls(b, asked, [tool, JUNK]).value));
    }
  }

  lemma SameAsked(b: Bench, s: Episode, text: string)
    ensures var t := Asked(s, text);
      t.exec == s.exec && t.visible == s.visible && t.halted == s.halted && t.overflow == s.overflow
  {
  }

  lemma SameView(b: Bench, s: Episode, t: Episode)
    ensures NextView(b, Asked(s, ""), t) <==> NextView(b, s, t)
  {
    hide Stage, TopFive, Tracker.Valid;
  }

  /** A turn with just one fitting call raises exactly when what the call emits is rejected. */
  lemma FittingTurn(b: Bench, s: Episode, text: string, tool: ToolCall)
    requires WellFormed(b.world.registry) && Kept(b, s) && !s.halted && Fitting(b, s, tool)
    requires AllRegistered(b.world.registry, s.visible)
    ensures Turn(b, s, Reply(text, [tool])).Success? <==> CallTrackable(b.world, s.exec.core)
  {
    var asked := Asked(s, text);
    assert Fitting(b, asked, tool) by { hide Fits; }
    hide *;
    AskedKept(b, s, text);
    SameAsked(b, s, text);
    CallingTurnIs(b, s, text, [tool]);
    CallTurnIs(b, asked, [tool]);
    WorkingCall(b, asked, tool);
  }
}
