/** The state-aware condition: what an agent that makes only the right calls is shown, and
    in how many turns it passes. */
module StateAwareCount {
  import opened Wrappers
  import opened Text
  import opened Registry
  import opened Frozen
  import opened Replay
  import opened Episodes
  import opened EpisodeInvariants
  import opened EpisodeTheorems
  import opened Working
  import opened Completion
  import opened TurnCount
  import Tracker

  // ---- What the fixture alone decides ---------------------------------------------------------

  /** Position `p`, or `p` with the scripted fault of step `p` used up. */
  predicate Position(w: World, p: nat, used: bool) {
    p <= |w.task.steps| && (used ==> p < |w.task.steps| && w.task.steps[p].failOnce != "")
  }

  /** What the tracker has been told at a position, when only the right calls were made. */
  function Told(w: World, p: nat, used: bool): seq<Tracker.Event>
    requires Position(w, p, used)
    decreases p, used
  {
    if used then Told(w, p, false) + [FaultTold(w.task.steps[p])]
    else if p == 0 then []
    else Told(w, p - 1, w.task.steps[p - 1].failOnce != "") + [StepTold(w, p - 1)]
  }

  /** The routes are ranked again after each of the first five calls only. */
  function Heard(evs: seq<Tracker.Event>): seq<Tracker.Event> {
    if |evs| <= 5 then evs else evs[..5]
  }

  /** The candidate set once the tracker has been told `evs`, one a turn: the top five for
      the query, then the top five for the tracker state. */
  function ViewAfter(b: Bench, evs: seq<Tracker.Event>): Option<seq<string>> {
    if evs == [] then Some(TopFive(b, b.world.task.query))
    else match Tracker.Empty(b.world.task.query)
      case None => None
      case Some(t) =>
        match Tracker.Track(b.world.render, b.world.registry, t, Heard(evs))
        case Failure(_) => None
        case Success(seen) => Some(TopFive(b, b.renderQuery(seen)))
  }

  /** At this position the agent is shown registered routes, and the one it needs. */
  ghost predicate ShowsAt(b: Bench, p: nat, used: bool)
    requires Position(b.world, p, used) && p < |b.world.task.steps|
  {
    var view := ViewAfter(b, Told(b.world, p, used));
    view.Some? ==> AllRegistered(b.world.registry, view.value) && b.world.task.steps[p].route in view.value
  }

  /** So it is at every position at which there is work left. Nothing is asked about what
      other calls would make the tracker hold, nor about routes not needed yet. */
  ghost predicate ShowsNext(b: Bench) {
    && AllRegistered(b.world.registry, TopFive(b, b.world.task.query))
    && forall p: nat, used | Position(b.world, p, used) && p < |b.world.task.steps| :: ShowsAt(b, p, used)
  }

  // ---- On course ------------------------------------------------------------------------------

  /** A live episode in which only right calls were made: its tracker and its candidate set
      are the ones the fixture decides. */
  ghost predicate OnCourse(b: Bench, s: Episode, p: nat, used: bool) {
    && Position(b.world, p, used) && Kept(b, s) && !s.halted && !s.overflow
    && s.exec.core.progress == p
    && s.exec.core.failedOnce == Faulty(b.world.task.steps[..p]) + (if used then {p} else {})
    && Listening(b, s, Told(b.world, p, used))
    && (if p < |b.world.task.steps| then Viewing(b, s, |Told(b.world, p, used)|, ViewAfter(b, Told(b.world, p, used)))
        else AllRegistered(b.world.registry, s.visible))
  }

  /** The tracker holds what it was told. */
  ghost predicate Listening(b: Bench, s: Episode, told: seq<Tracker.Event>) {
    && Tracker.Empty(b.world.task.query).Some?
    && Tracker.Track(b.world.render, b.world.registry, Tracker.Empty(b.world.task.query).value, told)
       == Success(s.tracker)
  }

  /** After `k` calls the candidate set is this one, ranked again at most five times. */
  predicate Viewing(b: Bench, s: Episode, k: nat, view: Option<seq<string>>) {
    view == Some(s.visible) && s.retrievalCalls == 1 + if k <= 5 then k else 5
  }

  lemma StartsOnCourse(b: Bench)
    requires StateAware(b) && !Blank(b.world.task.query)
    requires b.world.task.steps == [] ==> AllRegistered(b.world.registry, TopFive(b, b.world.task.query))
    ensures Run(b, []).Success? && OnCourse(b, Run(b, []).value, 0, false)
  {
    assert Start(b).Success? by { StripMeaning(b.world.task.query); hide Sorted, Take; }
    StartKept(b);
    assert Faulty(b.world.task.steps[..0]) == {};
    assert InitialRoutes(b) == Success(TopFive(b, b.world.task.query));
    hide Kept, Faulty, TopFive, AllRegistered, Blank, Tracker.Empty;
  }

  lemma TrackOne(w: World, t: Tracker.State, told: seq<Tracker.Event>, before: Tracker.State, ev: Tracker.Event)
    requires Tracker.Track(w.render, w.registry, t, told) == Success(before)
    ensures Tracker.Track(w.render, w.registry, t, told + [ev]) == Tracker.Update(w.render, w.registry, before, ev)
  {
    assert (told + [ev])[..|told|] == told;
    hide Tracker.Update;
  }

  lemma HeardNext(told: seq<Tracker.Event>, ev: Tracker.Event)
    ensures Heard(told + [ev]) == if |told| < 5 then told + [ev] else Heard(told)
  {
    assert |told| >= 5 ==> (told + [ev])[..5] == told[..5];
  }

  lemma ViewNext(b: Bench, t: Tracker.State, told: seq<Tracker.Event>, before: Tracker.State, ev: Tracker.Event,
                 seen: Tracker.State)
    requires Tracker.Empty(b.world.task.query) == Some(t)
    requires Tracker.Track(b.world.render, b.world.registry, t, told) == Success(before)
    requires Tracker.Update(b.world.render, b.world.registry, before, ev) == Success(seen)
    ensures Tracker.Track(b.world.render, b.world.registry, t, told + [ev]) == Success(seen)
    ensures ViewAfter(b, told + [ev])
         == if |told| < 5 then Some(TopFive(b, b.renderQuery(seen))) else ViewAfter(b, told)
  {
    TrackOne(b.world, t, told, before, ev);
    HeardNext(told, ev);
    hide Heard, Tracker.Track, TopFive, Tracker.Update, Tracker.Empty;
  }

  lemma AfterCallsView(b: Bench, s: Episode, u: Burst)
    requires StateAware(b) && !Complete(b.world.task, u.exec.core.progress)
    ensures var t := AfterCalls(b, s, u);
      && t.tracker == u.tracker
      && t.visible == (if s.retrievalCalls < 6 then TopFive(b, b.renderQuery(u.tracker)) else s.visible)
      && t.retrievalCalls == s.retrievalCalls + if s.retrievalCalls < 6 then 1 else 0
  {
    hide Sorted, Take, Complete;
  }

  /** One more call told: the next candidate set. */
  lemma NextHeard(b: Bench, s: Episode, u: Burst, told: seq<Tracker.Event>, ev: Tracker.Event)
    requires StateAware(b) && !Complete(b.world.task, u.exec.core.progress) && Listening(b, s, told)
    requires Viewing(b, s, |told|, ViewAfter(b, told))
    requires Tracker.Update(b.world.render, b.world.registry, s.tracker, ev) == Success(u.tracker)
    ensures var t := AfterCalls(b, s, u);
      Listening(b, t, told + [ev]) && Viewing(b, t, |told| + 1, ViewAfter(b, told + [ev]))
  {
    AfterCallsView(b, s, u);
    ViewNext(b, Tracker.Empty(b.world.task.query).value, told, s.tracker, ev, u.tracker);
    hide TopFive, Tracker.Update, Tracker.Empty, Tracker.Track, AfterCalls, ViewAfter, Complete;
  }

  /** With nothing left to do the candidate set stays. */
  lemma LastHeard(b: Bench, s: Episode, u: Burst, told: seq<Tracker.Event>, ev: Tracker.Event)
    requires StateAware(b) && Complete(b.world.task, u.exec.core.progress) && Listening(b, s, told)
    requires Tracker.Update(b.world.render, b.world.registry, s.tracker, ev) == Success(u.tracker)
    ensures Listening(b, AfterCalls(b, s, u), told + [ev]) && AfterCalls(b, s, u).visible == s.visible
  {
    assert (told + [ev])[..|told|] == told;
    hide Complete, Tracker.Update, Tracker.Empty;
  }

  lemma AfterCallsParts(b: Bench, s: Episode, u: Burst)
    ensures var t := AfterCalls(b, s, u);
      t.exec == u.exec && t.halted == s.halted && t.overflow == s.overflow
  {
    hide Sorted, Take, Stage, Complete;
  }

  /** The position after one unit of work. */
  function Later(w: World, p: nat, used: bool): (nat, bool)
    requires Position(w, p, used) && p < |w.task.steps|
  {
    if w.task.steps[p].failOnce != "" && !used then (p, true) else (p + 1, false)
  }

  lemma ToldNext(w: World, core: Core, p: nat, used: bool)
    requires Position(w, p, used) && core.progress == p < |w.task.steps|
    requires core.failedOnce == Faulty(w.task.steps[..p]) + if used then {p} else {}
    ensures var next := Later(w, p, used);
      && Position(w, next.0, next.1)
      && Told(w, next.0, next.1) == Told(w, p, used) + [WorkTold(w, core)]
      && AfterWork(w, core).progress == next.0
      && AfterWork(w, core).failedOnce == Faulty(w.task.steps[..next.0]) + if next.1 then {next.0} else {}
  {
    CoreNext(w, core, p, used);
    hide Faulty, AfterWork, FaultDue;
  }

  /** A single right call: it goes through exactly when what it emits can be tracked, and
      keeps the episode on course. */
  lemma CourseTurn(b: Bench, s: Episode, p: nat, used: bool, text: string, tool: ToolCall)
    requires WellFormed(b.world.registry) && StateAware(b) && OnCourse(b, s, p, used) && p < |b.world.task.steps|
    requires Fitting(b, s, tool) && AllRegistered(b.world.registry, s.visible)
    ensures var r, next := Turn(b, s, Reply(text, [tool])), Later(b.world, p, used);
      && (r.Success? <==> CallTrackable(b.world, s.exec.core))
      && (r.Success? ==> OnCourse(b, r.value, next.0, next.1))
  {
    var asked := Asked(s, text);
    assert Fitting(b, asked, tool) by { hide Fits; }
    CourseParts(b, s, p, used);
    hide *;
    AskedKept(b, s, text);
    SameAsked(b, s, text);
    CallingTurnIs(b, s, text, [tool]);
    CallTurnIs(b, asked, [tool]);
    WorkingCall(b, asked, tool);
    if Calls(b, asked, [tool]).Success? {
      TurnKeeps(b, s, Reply(text, [tool]));
      AfterCallsParts(b, asked, Calls(b, asked, [tool]).value);
      CourseNext(b, s, p, used, asked, Calls(b, asked, [tool]).value);
    }
  }

  lemma CourseParts(b: Bench, s: Episode, p: nat, used: bool)
    requires OnCourse(b, s, p, used)
    ensures Kept(b, s) && !s.halted && !s.overflow && s.exec.core.progress == p
  {
    hide Kept, Faulty, Told, Listening, Viewing, AllRegistered;
  }

  lemma CourseNext(b: Bench, s: Episode, p: nat, used: bool, asked: Episode, u: Burst)
    requires StateAware(b) && OnCourse(b, s, p, used) && p < |b.world.task.steps| && b.world.task.supported
    requires AllRegistered(b.world.registry, s.visible)
    requires asked == s.(turns := asked.turns, finalText := asked.finalText, messages := asked.messages)
    requires u.exec.core == AfterWork(b.world, s.exec.core)
    requires Tracker.Update(b.world.render, b.world.registry, s.tracker, WorkTold(b.world, s.exec.core))
          == Success(u.tracker)
    requires Kept(b, AfterCalls(b, asked, u))
    ensures var next := Later(b.world, p, used); OnCourse(b, AfterCalls(b, asked, u), next.0, next.1)
  {
    hide *;
    CourseHeard(b, s, p, used, asked);
    var told, ev := Told(b.world, p, used), WorkTold(b.world, s.exec.core);
    ToldNext(b.world, s.exec.core, p, used);
    AfterCallsParts(b, asked, u);
    CompleteAt(b.world.task, u.exec.core.progress);
    if Complete(b.world.task, u.exec.core.progress) {
      LastHeard(b, asked, u, told, ev);
    } else {
      NextHeard(b, asked, u, told, ev);
    }
    var next := Later(b.world, p, used);
    CourseIs(b, AfterCalls(b, asked, u), next.0, next.1);
  }

  lemma CompleteAt(task: Task, progress: nat)
    ensures Complete(task, progress) <==> task.supported && progress >= |task.steps|
  {
  }

  /** What a position says of the calls made so far. */
  lemma CourseHeard(b: Bench, s: Episode, p: nat, used: bool, asked: Episode)
    requires OnCourse(b, s, p, used) && p < |b.world.task.steps|
    requires asked == s.(turns := asked.turns, finalText := asked.finalText, messages := asked.messages)
    ensures Position(b.world, p, used) && !s.halted && !s.overflow && s.exec.core.progress == p
    ensures s.exec.core.failedOnce == Faulty(b.world.task.steps[..p]) + if used then {p} else {}
    ensures var told := Told(b.world, p, used);
      Listening(b, asked, told) && Viewing(b, asked, |told|, ViewAfter(b, told))
  {
    hide Kept, Faulty, Told, AllRegistered, ViewAfter, Tracker.Track, Tracker.Empty;
  }

  lemma CourseIs(b: Bench, s: Episode, p: nat, used: bool)
    requires Position(b.world, p, used) && Kept(b, s) && !s.halted && !s.overflow && s.exec.core.progress == p
    requires s.exec.core.failedOnce == Faulty(b.world.task.steps[..p]) + if used then {p} else {}
    requires Listening(b, s, Told(b.world, p, used))
    requires p < |b.world.task.steps| ==> Viewing(b, s, |Told(b.world, p, used)|, ViewAfter(b, Told(b.world, p, used)))
    requires p == |b.world.task.steps| ==> AllRegistered(b.world.registry, s.visible)
    ensures OnCourse(b, s, p, used)
  {
    hide Kept, Faulty, Told, AllRegistered, ViewAfter, Listening, Viewing;
  }

  // ---- Staying on course ----------------------------------------------------------------------

  ghost predicate Coursed(b: Bench, script: seq<Generated>, p: nat, used: bool) {
    Run(b, script).Success? && OnCourse(b, Run(b, script).value, p, used)
  }

  /** The agent makes at most one call a turn. */
  predicate Terse(script: seq<Generated>) {
    forall i | 0 <= i < |script| :: script[i].Reply? ==> |script[i].calls| <= 1
  }

  /** The right call, where the position shows it. */
  lemma RightCall(b: Bench, s: Episode, p: nat, used: bool) returns (tool: ToolCall)
    requires OnCourse(b, s, p, used) && b.world.task.supported && p < |b.world.task.steps| && ShowsAt(b, p, used)
    requires Callable(b.world.task.steps[p].route) && exists args :: Fits(b.world, p, args)
    ensures Fitting(b, s, tool) && AllRegistered(b.world.registry, s.visible)
  {
    hide Kept, Fits, Faulty, Callable, CalledRoute, AllRegistered, Told, ViewAfter, Listening;
    var args :| Fits(b.world, p, args);
    var name := NameFor(b.world.task.steps[p].route);
    tool := ToolCall(name, args);
  }

  lemma CourseGoesOn(b: Bench, before: seq<Generated>, p: nat, used: bool) returns (script: seq<Generated>)
    requires WellFormed(b.world.registry) && StateAware(b) && b.world.task.supported
    requires Coursed(b, before, p, used) && Terse(before) && p < |b.world.task.steps| && ShowsAt(b, p, used)
    requires Callable(b.world.task.steps[p].route) && exists args :: Fits(b.world, p, args)
    requires CallTrackable(b.world, Run(b, before).value.exec.core)
    ensures var next := Later(b.world, p, used); Coursed(b, script, next.0, next.1)
    ensures Terse(script) && |script| == |before| + 1
  {
    hide OnCourse, Turn, ShowsAt, WellFormed, Run, Fitting, CallTrackable, Fits, Callable, AllRegistered;
    var s := Run(b, before).value;
    var tool := RightCall(b, s, p, used);
    CourseTurn(b, s, p, used, "", tool);
    RunNext(b, before, Reply("", [tool]));
    script := before + [Reply("", [tool])];
  }

  /** A doable step is finished in as many turns as it costs. */
  lemma CourseStep(b: Bench, before: seq<Generated>, p: nat) returns (script: seq<Generated>)
    requires WellFormed(b.world.registry) && StateAware(b) && b.world.task.supported && ShowsNext(b)
    requires Coursed(b, before, p, false) && Terse(before) && p < |b.world.task.steps| && Doable(b.world, p)
    ensures Coursed(b, script, p + 1, false)
    ensures Terse(script) && |script| == |before| + StepCost(b.world.task.steps[p])
  {
    assert ShowsAt(b, p, false);
    assert b.world.task.steps[p].failOnce != "" ==> ShowsAt(b, p, true);
    assert Callable(b.world.task.steps[p].route) && exists args :: Fits(b.world, p, args);
    hide ShowsNext, ShowsAt, Coursed, WellFormed, Run, Fits, Callable, Doable, CallTrackable, Terse;
    CoursedTrackable(b, before, p, false);
    script := CourseGoesOn(b, before, p, false);
    if b.world.task.steps[p].failOnce != "" {
      CoursedTrackable(b, script, p, true);
      script := CourseGoesOn(b, script, p, true);
    }
  }

  lemma CoursedTrackable(b: Bench, script: seq<Generated>, p: nat, used: bool)
    requires Coursed(b, script, p, used) && p < |b.world.task.steps| && Doable(b.world, p)
    ensures Run(b, script).Success? && Run(b, script).value.exec.core.progress == p
    ensures CallTrackable(b.world, Run(b, script).value.exec.core)
  {
    CourseParts(b, Run(b, script).value, p, used);
    hide Run, OnCourse, Doable, CallTrackable;
    DoableTrackable(b.world, Run(b, script).value.exec.core);
  }

  lemma {:induction false} CourseReach(b: Bench, p: nat) returns (script: seq<Generated>)
    requires WellFormed(b.world.registry) && StateAware(b) && b.world.task.supported && ShowsNext(b)
    requires !Blank(b.world.task.query)
    requires p <= |b.world.task.steps| && forall i | 0 <= i < p :: Doable(b.world, i)
    ensures Coursed(b, script, p, false) && Terse(script) && |script| == Cost(b.world.task.steps, p)
  {
    hide OnCourse, WellFormed, Doable, Blank, Run, ShowsAt;
    if p == 0 {
      script := [];
      StartsOnCourse(b);
    } else {
      script := CourseReach(b, p - 1);
      hide Coursed, ShowsNext;
      script := CourseStep(b, script, p - 1);
    }
  }

  lemma CoursePasses(b: Bench, script: seq<Generated>)
    requires b.world.task.supported && Coursed(b, script, |b.world.task.steps|, false)
    ensures Run(b, script).Success? && Passed(b, Run(b, script).value)
    ensures AllRegistered(b.world.registry, Run(b, script).value.visible)
  {
    hide Run, Kept, AllRegistered, Faulty, Told, Listening;
  }

  /** When each position shows the route it needs, some agent passes the state-aware
      condition with `m` turns available if and only if every step is doable and `m` is at
      least the number of steps plus the number of scripted faults: routes missing at the
      start cost no turn. */
  lemma StateAwareTurnCount(b: Bench, m: nat)
    requires WellFormed(b.world.registry) && StateAware(b) && b.world.task.supported && ShowsNext(b)
    ensures PassableIn(b, m) <==>
      && !Blank(b.world.task.query) && (forall i | 0 <= i < |b.world.task.steps| :: Doable(b.world, i))
      && |b.world.task.steps| + |Faulty(b.world.task.steps)| <= m
  {
    hide Run, WellFormed, Passed, Blank, Doable, Coursed, ShowsNext, Faulty, Cost, Terse;
    var n := |b.world.task.steps|;
    CostIs(b.world.task.steps, n);
    assert b.world.task.steps[..n] == b.world.task.steps;
    if !Blank(b.world.task.query) && (forall i | 0 <= i < n :: Doable(b.world, i)) && Cost(b.world.task.steps, n) <= m {
      var script := CourseReach(b, n);
      CoursePasses(b, script);
      var longer := Padded(b, script, m);
    }
    if PassableIn(b, m) {
      var script :| |script| == m && Run(b, script).Success? && Passed(b, Run(b, script).value);
      PassingNeeds(b, script);
    }
  }

  /** What passing takes under every condition. */
  lemma PassingNeeds(b: Bench, script: seq<Generated>)
    requires WellFormed(b.world.registry) && b.world.task.supported
    requires Run(b, script).Success? && Passed(b, Run(b, script).value)
    ensures !Blank(b.world.task.query) && forall i | 0 <= i < |b.world.task.steps| :: Doable(b.world, i)
    ensures |b.world.task.steps| + |Faulty(b.world.task.steps)| <= |script|
  {
    hide Run, WellFormed, Passed, Blank, Doable, Faulty;
    PassingCost(b, script);
    PassingUsedEveryRoute(b, script);
    EveryEpisodeKept(b, script);
    VisibleQuery(b, Run(b, script).value);
  }

  // ---- What a terse agent proves -----------------------------------------------------------------

  /** Every position before this one showed its route. */
  ghost predicate ShownBefore(b: Bench, p: nat, used: bool) {
    forall q: nat, u | Position(b.world, q, u) && q < |b.world.task.steps| && (q < p || (q == p && used && !u)) ::
      ShowsAt(b, q, u)
  }

  /** One call that did work was the right one. */
  lemma WorkedCall(b: Bench, s: Episode, tool: ToolCall)
    requires Kept(b, s) && Calls(b, s, [tool]).Success?
    requires Calls(b, s, [tool]).value.exec.core != s.exec.core
    ensures Fitting(b, s, tool)
  {
    var u, call := Burst(s.exec, s.tracker, [], false), CallOf(s.visible, tool, true);
    KeptParts(b, s);
    FirstCall(b, s, tool);
    OneCallIs(b, u, call);
    hide Kept, Fits, GateAt, OneCall, Calls, CalledRoute, Merged;
    assert GateAt(b.world, s.exec.core, call).Advances? || GateAt(b.world, s.exec.core, call).FailsOnce?;
    GateFits(b.world, s.exec.core, call);
  }

  /** One turn with at most one call that did work made the right call. */
  lemma WorkedTurn(b: Bench, s: Episode, g: Generated)
    requires Kept(b, s) && Terse([g]) && Turn(b, s, g).Success?
    requires Turn(b, s, g).value.exec.core != s.exec.core
    ensures g.Reply? && |g.calls| == 1 && Fitting(b, s, g.calls[0])
    ensures AllRegistered(b.world.registry, s.visible)
  {
    hide Kept, Fitting, CallTurn, AllRegistered, Stage, Complete;
    assert [g][0] == g;
    assert g.Reply? && |g.calls| == 1;
    var tool, asked := g.calls[0], Asked(s, g.text);
    assert g.calls == [tool];
    CallingTurnIs(b, s, g.text, [tool]);
    CallTurnIs(b, asked, [tool]);
    AskedKept(b, s, g.text);
    AfterCallsParts(b, asked, Calls(b, asked, [tool]).value);
    hide Turn, Calls, AfterCalls;
    WorkedCall(b, asked, tool);
    SameFitting(b, s, asked, tool);
  }

  lemma SameFitting(b: Bench, s: Episode, t: Episode, tool: ToolCall)
    requires s.exec == t.exec && s.visible == t.visible
    ensures Fitting(b, s, tool) <==> Fitting(b, t, tool)
  {
    hide Fits;
  }

  /** An agent that has done one unit of work in every turn did so up to the last one. */
  lemma BusyThroughout(b: Bench, script: seq<Generated>)
    requires WellFormed(b.world.registry) && script != [] && Run(b, script).Success?
    requires Work(Run(b, script).value.exec) == |script|
    ensures var init := script[..|script| - 1];
      && Run(b, init).Success? && Kept(b, Run(b, init).value) && Work(Run(b, init).value.exec) == |init|
      && Run(b, script).value.exec.core != Run(b, init).value.exec.core
  {
    var init := script[..|script| - 1];
    RunLast(b, script);
    EveryEpisodeKept(b, init);
    TurnModest(b, Run(b, init).value, script[|script| - 1]);
    KeptWork(b, Run(b, init).value);
    SameCoreSameWork(Run(b, script).value.exec, Run(b, init).value.exec);
    hide Run, Kept, Turn, Work, WellFormed;
  }

  lemma RunLast(b: Bench, script: seq<Generated>)
    requires script != [] && Run(b, script).Success?
    ensures var init := script[..|script| - 1];
      Run(b, init).Success? && Run(b, script) == Turn(b, Run(b, init).value, script[|script| - 1])
  {
    hide Turn;
  }

  lemma KeptWork(b: Bench, s: Episode)
    requires Kept(b, s)
    ensures Work(s.exec) <= s.turns
  {
    hide Bookkept, ExecKept, Work;
  }

  /** Where an episode is, read off the executor. */
  predicate FaultUsed(s: Episode) {
    s.exec.core.progress in s.exec.core.failedOnce
  }

  lemma CourseFault(b: Bench, s: Episode, p: nat, used: bool)
    requires OnCourse(b, s, p, used)
    ensures FaultUsed(s) == used && s.exec.core.progress == p
  {
    hide Kept, Told, Listening, Viewing, AllRegistered;
  }

  /** The view of a position whose turn did work. */
  lemma CourseShows(b: Bench, s: Episode, p: nat, used: bool, tool: ToolCall)
    requires OnCourse(b, s, p, used) && p < |b.world.task.steps| && Fitting(b, s, tool)
    requires AllRegistered(b.world.registry, s.visible)
    ensures ShowsAt(b, p, used)
  {
    hide Kept, Told, Listening, ViewAfter, AllRegistered, Faulty, Fits, CalledRoute;
  }

  lemma ShownOneMore(b: Bench, p: nat, used: bool)
    requires Position(b.world, p, used) && p < |b.world.task.steps| && ShownBefore(b, p, used) && ShowsAt(b, p, used)
    ensures var next := Later(b.world, p, used); ShownBefore(b, next.0, next.1)
  {
    hide ShowsAt;
  }

  /** A terse agent that works in every turn stays on course, shown what it needs. */
  lemma {:induction false} TerseCourse(b: Bench, script: seq<Generated>)
    requires WellFormed(b.world.registry) && StateAware(b) && b.world.task.steps != [] && Terse(script)
    requires Run(b, script).Success? && Work(Run(b, script).value.exec) == |script|
    ensures var s := Run(b, script).value;
      OnCourse(b, s, s.exec.core.progress, FaultUsed(s)) && ShownBefore(b, s.exec.core.progress, FaultUsed(s))
  {
    hide OnCourse, ShownBefore, WellFormed, FaultUsed, Work, Turn;
    if script == [] {
      TerseStart(b);
    } else {
      var init, g := script[..|script| - 1], script[|script| - 1];
      BusyThroughout(b, script);
      RunLast(b, script);
      hide Run;
      TerseCourse(b, init);
      var s := Run(b, init).value;
      TerseTurn(b, s, s.exec.core.progress, FaultUsed(s), g);
    }
  }

  lemma TerseStart(b: Bench)
    requires StateAware(b) && b.world.task.steps != [] && Run(b, []).Success?
    ensures var s := Run(b, []).value;
      OnCourse(b, s, s.exec.core.progress, FaultUsed(s)) && ShownBefore(b, s.exec.core.progress, FaultUsed(s))
  {
    hide InitialRoutes, OnCourse, ShowsAt;
    StartVisible(b);
    StartsOnCourse(b);
    CourseFault(b, Run(b, []).value, 0, false);
  }

  lemma StartVisible(b: Bench)
    requires Run(b, []).Success?
    ensures !Blank(b.world.task.query)
  {
    hide InitialRoutes;
    StripMeaning(b.world.task.query);
  }

  lemma TerseTurn(b: Bench, s: Episode, p: nat, used: bool, g: Generated)
    requires WellFormed(b.world.registry) && StateAware(b) && Kept(b, s)
    requires OnCourse(b, s, p, used) && ShownBefore(b, p, used)
    requires Terse([g]) && Turn(b, s, g).Success? && Turn(b, s, g).value.exec.core != s.exec.core
    ensures var t := Turn(b, s, g).value;
      OnCourse(b, t, t.exec.core.progress, FaultUsed(t)) && ShownBefore(b, t.exec.core.progress, FaultUsed(t))
  {
    hide WellFormed, OnCourse, ShownBefore, Kept, Turn, ShowsAt, FaultUsed, AllRegistered, CallTrackable;
    WorkedTurn(b, s, g);
    CourseParts(b, s, p, used);
    var tool := g.calls[0];
    assert g == Reply(g.text, [tool]);
    FittingParts(b, s, tool);
    hide Fitting;
    CourseTurn(b, s, p, used, g.text, tool);
    CourseShows(b, s, p, used, tool);
    CoursePosition(b, s, p, used);
    ShownOneMore(b, p, used);
    var next := Later(b.world, p, used);
    CourseFault(b, Turn(b, s, g).value, next.0, next.1);
  }

  lemma FittingParts(b: Bench, s: Episode, tool: ToolCall)
    requires Fitting(b, s, tool)
    ensures b.world.task.supported && s.exec.core.progress < |b.world.task.steps|
  {
    hide Fits;
  }

  lemma CoursePosition(b: Bench, s: Episode, p: nat, used: bool)
    requires OnCourse(b, s, p, used)
    ensures Position(b.world, p, used)
  {
    hide Kept, Told, Listening, Viewing, AllRegistered, Faulty;
  }

  /** Some agent that makes at most one call a turn passes in the least number of turns. */
  ghost predicate PassableTersely(b: Bench) {
    exists script: seq<Generated> ::
      && |script| == |b.world.task.steps| + |Faulty(b.world.task.steps)| && Terse(script)
      && Run(b, script).Success? && Passed(b, Run(b, script).value)
  }

  /** With nothing assumed of the rankings: an agent that makes one call a turn can pass in
      the least number of turns if and only if every step is doable and every position
      shows the route it needs. */
  lemma TerseTurnCount(b: Bench)
    requires WellFormed(b.world.registry) && StateAware(b) && b.world.task.supported && b.world.task.steps != []
    ensures PassableTersely(b) <==>
      && !Blank(b.world.task.query) && (forall i | 0 <= i < |b.world.task.steps| :: Doable(b.world, i))
      && ShowsNext(b)
  {
    hide Run, WellFormed, Passed, Blank, Doable, Coursed, ShowsNext, Faulty, Cost, Terse;
    var n := |b.world.task.steps|;
    CostIs(b.world.task.steps, n);
    assert b.world.task.steps[..n] == b.world.task.steps;
    if !Blank(b.world.task.query) && (forall i | 0 <= i < n :: Doable(b.world, i)) && ShowsNext(b) {
      var script := CourseReach(b, n);
      CoursePasses(b, script);
    }
    if PassableTersely(b) {
      var script :| |script| == n + |Faulty(b.world.task.steps)| && Terse(script)
        && Run(b, script).Success? && Passed(b, Run(b, script).value);
      PassingNeeds(b, script);
      TersePassShows(b, script);
    }
  }

  lemma TersePassShows(b: Bench, script: seq<Generated>)
    requires WellFormed(b.world.registry) && StateAware(b) && b.world.task.supported && b.world.task.steps != []
    requires |script| == |b.world.task.steps| + |Faulty(b.world.task.steps)| && Terse(script)
    requires Run(b, script).Success? && Passed(b, Run(b, script).value)
    ensures ShowsNext(b)
  {
    hide *;
    var s := Run(b, script).value;
    EveryEpisodeKept(b, script);
    PassedProgress(b, s);
    KeptParts(b, s);
    WorkBounds(b.world, s.exec);
    KeptWork(b, s);
    CostIs(b.world.task.steps, |b.world.task.steps|);
    assert b.world.task.steps[..|b.world.task.steps|] == b.world.task.steps;
    TerseCourse(b, script);
    AllShown(b, FaultUsed(s));
  }

  lemma AllShown(b: Bench, used: bool)
    requires b.world.task.steps != [] && ShownBefore(b, |b.world.task.steps|, used)
    ensures ShowsNext(b)
  {
    assert ShowsAt(b, 0, false);
    assert Told(b.world, 0, false) == [];
    hide AllRegistered, Told, TopFive;
  }

  // ---- What the feedback is worth ------------------------------------------------------------------

  /** The same bench, its candidate set fixed at the top five for the query. */
  function WithoutFeedback(b: Bench): Bench {
    b.(condition := Sr5)
  }

  /** Suppose the top five for the query misses a step's route, and each position shows the
      route it needs. Without the feedback no agent passes, however many turns it has; with
      it, one turn per step and per fault is exactly enough. */
  lemma FeedbackRecovers(b: Bench, m: nat)
    requires WellFormed(b.world.registry) && StateAware(b) && b.world.task.supported && ShowsNext(b)
    requires !Blank(b.world.task.query) && forall i | 0 <= i < |b.world.task.steps| :: Doable(b.world, i)
    requires exists i | 0 <= i < |b.world.task.steps| ::
      b.world.task.steps[i].route !in TopFive(b, b.world.task.query)
    ensures !PassableIn(WithoutFeedback(b), m)
    ensures PassableIn(b, m) <==> |b.world.task.steps| + |Faulty(b.world.task.steps)| <= m
  {
    var fixed := WithoutFeedback(b);
    StateAwareTurnCount(b, m);
    assert InitialRoutes(fixed) == Success(TopFive(b, b.world.task.query));
    assert StagedExposure(fixed) by { hide TopFive, ShowsAt, AllRegistered, Doable, Blank, WellFormed; }
    hide WellFormed, ShowsNext, Doable, Blank, PassableIn, TopFive, StagedExposure, Faulty, InitialRoutes;
    TightCompletion(fixed, m);
  }

  /** Two steps without faults: it is enough that the ranking finds the first step's route
      for the query, and the second's for every tracker state. */
  lemma TwoRankings(b: Bench)
    requires |b.world.task.steps| == 2 && Faulty(b.world.task.steps) == {}
    requires AllRegistered(b.world.registry, TopFive(b, b.world.task.query))
    requires b.world.task.steps[0].route in TopFive(b, b.world.task.query)
    requires forall seen :: AllRegistered(b.world.registry, TopFive(b, b.renderQuery(seen)))
    requires forall seen :: b.world.task.steps[1].route in TopFive(b, b.renderQuery(seen))
    ensures ShowsNext(b)
  {
    var steps := b.world.task.steps;
    forall i | 0 <= i < 2
      ensures steps[i].failOnce == ""
    {
      assert i !in Faulty(steps);
    }
    forall p: nat, used | Position(b.world, p, used) && p < 2
      ensures ShowsAt(b, p, used)
    {
      assert Told(b.world, 0, false) == [];
      hide TopFive, AllRegistered, Tracker.Track, Tracker.Empty, Faulty;
    }
    hide ShowsAt;
  }
}
