/** Which candidate sets an episode shows, and when they change, said of the rankings. */
module Candidates {
  import opened Wrappers
  import opened Text
  import opened JsonValues
  import opened Registry
  import opened Gates
  import opened Frozen
  import opened Episodes
  import Tracker

  // ---- The first candidate set -----------------------------------------------------------------

  /** The route is among the first `k` of a ranking. */
  ghost predicate Among(ranked: seq<string>, k: nat, route: string) {
    exists i | 0 <= i < k && i < |ranked| :: ranked[i] == route
  }

  ghost predicate Registered(reg: Catalog, route: string) {
    exists t, e | 0 <= t < |reg| && 0 <= e < |reg[t].endpoints| ::
      reg[t].key + "." + reg[t].endpoints[e].name == route
  }

  lemma TakeExactly(ranked: seq<string>, k: nat, route: string)
    ensures route in Take(ranked, k) <==> Among(ranked, k, route)
  {
    if route in Take(ranked, k) {
      var i :| 0 <= i < |Take(ranked, k)| && Take(ranked, k)[i] == route;
      assert ranked[i] == route;
    }
    if i :| 0 <= i < k && i < |ranked| && ranked[i] == route {
      assert Take(ranked, k)[i] == route;
    }
  }

  lemma RegisteredExactly(reg: Catalog, route: string)
    ensures route in RouteIds(reg) <==> Registered(reg, route)
  {
    RouteIdsMembers(reg, route);
    if Registered(reg, route) {
      var t, e :| 0 <= t < |reg| && 0 <= e < |reg[t].endpoints| && reg[t].key + "." + reg[t].endpoints[e].name == route;
      assert IsEndpoint(reg, t, e) && RouteOf(reg[t], reg[t].endpoints[e]) == route;
    }
    hide RouteIds;
  }

  lemma SortedTake(ranked: seq<string>, k: nat)
    ensures forall route :: route in Sorted(Take(ranked, k)) <==> Among(ranked, k, route)
  {
    SortedKeepsElements(Take(ranked, k));
    forall route
      ensures route in Take(ranked, k) <==> Among(ranked, k, route)
    {
      TakeExactly(ranked, k, route);
    }
    hide Take, Among, Sorted;
  }

  lemma SortedRegistered(reg: Catalog)
    ensures forall route :: route in Sorted(RouteIds(reg)) <==> Registered(reg, route)
  {
    SortedKeepsElements(RouteIds(reg));
    forall route
      ensures route in RouteIds(reg) <==> Registered(reg, route)
    {
      RegisteredExactly(reg, route);
    }
    hide RouteIds, Registered, Sorted;
  }

  /** What a condition shows first: the whole catalog, the required routes, the head of the
      ranking, or what the planner returns. */
  ghost predicate ShownFirst(b: Bench, route: string) {
    var ranked := b.rank(b.world.task.query);
    match b.condition
    case Full => Registered(b.world.registry, route)
    case Oracle => route in b.world.task.requiredRoutes
    case Sr5 => Among(ranked, 5, route)
    case Sr5Static => Among(ranked, 5, route)
    case Sr5StateAware => Among(ranked, 5, route)
    case Sr10 => Among(ranked, 10, route)
    case SrProgressive => Among(ranked, 3, route)
    case SrProgressiveStatic => Among(ranked, 3, route)
    case StructFixed3 => route in b.structural(b.world.task.query, 3)
    case Unknown(_) => false
  }

  /** Every named condition has a first candidate set, and it holds exactly these routes. */
  lemma FirstExactly(b: Bench)
    ensures InitialRoutes(b).Failure? <==> b.condition.Unknown?
    ensures InitialRoutes(b).Success? ==> forall route :: route in InitialRoutes(b).value <==> ShownFirst(b, route)
  {
    hide Sorted, Take, RouteIds, Among, Registered;
    var ranked := b.rank(b.world.task.query);
    match b.condition {
      case Full => SortedRegistered(b.world.registry);
      case Oracle => SortedKeepsElements(b.world.task.requiredRoutes);
      case Sr5 => SortedTake(ranked, 5);
      case Sr5Static => SortedTake(ranked, 5);
      case Sr5StateAware => SortedTake(ranked, 5);
      case Sr10 => SortedTake(ranked, 10);
      case SrProgressive => SortedTake(ranked, 3);
      case SrProgressiveStatic => SortedTake(ranked, 3);
      case StructFixed3 => SortedKeepsElements(b.structural(b.world.task.query, 3));
      case Unknown(_) =>
    }
  }

  // ---- One turn ------------------------------------------------------------------------------------

  /** What the executor, the tracker and the agent are left with after some of a turn's calls. */
  datatype Point = Point(exec: Exec, tracker: Tracker.State, shown: seq<Object>)

  /** The calls of a turn, one after the other: each is carried out on the executor as the
      turn's visible routes and its position allow, told to the tracker, and shown. */
  ghost predicate CarriesOut(b: Bench, s: Episode, calls: seq<ToolCall>, points: seq<Point>) {
    && |points| == |calls| + 1
    && points[0] == Point(s.exec, s.tracker, [])
    && forall i | 0 <= i < |calls| :: CarriesOutOne(b, s, calls[i], i == 0, points[i], points[i + 1])
  }

  ghost predicate CarriesOutOne(b: Bench, s: Episode, tool: ToolCall, first: bool, p: Point, q: Point) {
    var w, route := b.world, CalledRoute(tool.name);
    && q.exec == Perform(w, p.exec, Call(route, tool.arguments, route in s.visible, first))
    && q.exec.attempts != []
    && var a := q.exec.attempts[|q.exec.attempts| - 1];
       && Tracker.Update(w.render, w.registry, p.tracker, Tracker.Event(
            route, a.observation, a.error, !(w.task.supported && q.exec.core.progress >= |w.task.steps|)))
          == Success(q.tracker)
       && q.shown == p.shown + [ShownOf(b, p.exec.core.progress, a)]
  }

  /** What is shown of an attempt: its observation, or its rewrite, which learns of the step
      only when the attempt consumed it. */
  function ShownOf(b: Bench, progress: nat, a: Attempt): Object {
    match b.show
    case None => a.observation
    case Some(rewrite) =>
      var steps := b.world.task.steps;
      rewrite(a.observation, if a.advancedTask && progress < |steps| then Some(steps[progress]) else None)
  }

  /** Some attempt logged since had an error or was blocked. */
  ghost predicate Failed(x: Exec, y: Exec) {
    exists i | |x.attempts| <= i < |y.attempts| :: y.attempts[i].error != None || y.attempts[i].policyBlocked
  }

  lemma {:induction false} CallsExactly(b: Bench, s: Episode, calls: seq<ToolCall>) returns (points: seq<Point>)
    requires Calls(b, s, calls).Success?
    ensures var u := Calls(b, s, calls).value;
      && CarriesOut(b, s, calls, points)
      && points[|calls|] == Point(u.exec, u.tracker, u.shown)
      && |u.exec.attempts| == |s.exec.attempts| + |calls| && |u.shown| == |calls|
      && (u.failed <==> Failed(s.exec, u.exec))
  {
    if calls == [] {
      points := [Point(s.exec, s.tracker, [])];
    } else {
      var init, last := calls[..|calls| - 1], calls[|calls| - 1];
      points := CallsExactly(b, s, init);
      LastCall(b, s, calls);
      var u, v := Calls(b, s, init).value, Calls(b, s, calls).value;
      hide Calls, CarriesOut, CarriesOutOne, Failed;
      FailedNext(s.exec, u.exec, v.exec);
      CarriesOn(b, s, calls, points, Point(v.exec, v.tracker, v.shown));
      points := points + [Point(v.exec, v.tracker, v.shown)];
    }
  }

  lemma CarriesOn(b: Bench, s: Episode, calls: seq<ToolCall>, points: seq<Point>, q: Point)
    requires calls != [] && CarriesOut(b, s, calls[..|calls| - 1], points)
    requires CarriesOutOne(b, s, calls[|calls| - 1], |calls| == 1, points[|calls| - 1], q)
    ensures CarriesOut(b, s, calls, points + [q]) && |points| == |calls|
  {
    hide CarriesOutOne;
  }

  lemma LastCall(b: Bench, s: Episode, calls: seq<ToolCall>)
    requires calls != [] && Calls(b, s, calls).Success?
    ensures var init, last := calls[..|calls| - 1], calls[|calls| - 1];
      && Calls(b, s, init).Success?
      && var u, v := Calls(b, s, init).value, Calls(b, s, calls).value;
         && CarriesOutOne(b, s, last, |calls| == 1,
              Point(u.exec, u.tracker, u.shown), Point(v.exec, v.tracker, v.shown))
         && |v.exec.attempts| == |u.exec.attempts| + 1 && v.exec.attempts[..|u.exec.attempts|] == u.exec.attempts
         && |v.shown| == |u.shown| + 1
         && var a := v.exec.attempts[|u.exec.attempts|];
            (v.failed <==> u.failed || a.error != None || a.policyBlocked)
  {
    hide GateAt, CalledRoute, Tracker.Update;
  }

  lemma FailedNext(x: Exec, y: Exec, z: Exec)
    requires |x.attempts| <= |y.attempts| && |z.attempts| == |y.attempts| + 1
    requires z.attempts[..|y.attempts|] == y.attempts
    ensures Failed(x, z) <==>
      Failed(x, y) || z.attempts[|y.attempts|].error != None || z.attempts[|y.attempts|].policyBlocked
  {
    assert forall i | 0 <= i < |y.attempts| :: z.attempts[i] == y.attempts[i];
  }

  // ---- When the candidate set changes -----------------------------------------------------------------

  /** The candidate set, its history and its counters are left alone. */
  predicate SameView(s: Episode, t: Episode) {
    && t.visible == s.visible && t.history == s.history && t.stageIndex == s.stageIndex
    && t.retrievalCalls == s.retrievalCalls && t.expansions == s.expansions
  }

  /** One more candidate set was retrieved and is shown. */
  predicate Retrieved(s: Episode, t: Episode) {
    && t.history == s.history + [t.visible]
    && t.retrievalCalls == s.retrievalCalls + 1 && t.expansions == s.expansions + 1
  }

  /** A progressive condition moved to its next stage: the top ten, then the catalog. */
  ghost predicate Widened(b: Bench, s: Episode, t: Episode) {
    && Retrieved(s, t) && t.stageIndex == s.stageIndex + 1
    && forall route :: route in t.visible <==>
         if s.stageIndex == 0 then Among(b.rank(b.world.task.query), 10, route) else Registered(b.world.registry, route)
  }

  /** The state-aware condition ranked again, for the tracker state the calls left. */
  ghost predicate Reranked(b: Bench, s: Episode, t: Episode) {
    && Retrieved(s, t) && t.stageIndex == s.stageIndex
    && forall route :: route in t.visible <==> Among(b.rank(b.renderQuery(t.tracker)), 5, route)
  }

  /** The condition still has a later stage to show. */
  predicate CanWiden(b: Bench, s: Episode) {
    (b.condition.SrProgressive? || b.condition.SrProgressiveStatic?) && s.stageIndex < 2
  }

  predicate Finished(b: Bench, x: Exec) {
    b.world.task.supported && x.core.progress >= |b.world.task.steps|
  }

  /** A turn that made no call and leaves the task unfinished: widen and say so, or stop. */
  ghost predicate Insisted(b: Bench, s: Episode, text: string, t: Episode) {
    && t.exec == s.exec && t.tracker == s.tracker
    && if CanWiden(b, s) then
         && Widened(b, s, t) && !t.halted
         && t.messages == s.messages + [Assistant(text), User("TASK_INCOMPLETE")]
       else SameView(s, t) && t.halted && t.messages == s.messages
  }

  /** A turn with calls: they are carried out, their results are shown, and the candidate
      set follows the tracker while the task is unfinished, at most six retrievals in all,
      or widens after a failure. */
  ghost predicate Called(b: Bench, s: Episode, text: string, calls: seq<ToolCall>, t: Episode) {
    && (exists points: seq<Point> | CarriesOut(b, s, calls, points) ::
          && t.exec == points[|calls|].exec && t.tracker == points[|calls|].tracker
          && t.messages == s.messages + [Assistant(text), ToolResults(points[|calls|].shown)])
    && !t.halted
    && if b.condition.Sr5StateAware? && !Finished(b, t.exec) && s.retrievalCalls < 6 then Reranked(b, s, t)
       else if CanWiden(b, s) && Failed(s.exec, t.exec) then Widened(b, s, t)
       else SameView(s, t)
  }

  /** Nothing was done, shown or said. */
  predicate Untouched(s: Episode, t: Episode) {
    SameView(s, t) && t.exec == s.exec && t.tracker == s.tracker && t.messages == s.messages
  }

  /** What one output does to an episode whose loop goes on. */
  ghost predicate Answers(b: Bench, s: Episode, g: Generated, t: Episode) {
    && t.turns == s.turns + 1
    && match g
       case Overflow =>
         t.overflow && t.halted && Untouched(s, t)
       case Malformed(text) => Insisted(b, s, text, t)
       case Reply(text, calls) =>
         if calls != [] then Called(b, s, text, calls, t)
         else if Finished(b, s.exec) then
           t.halted && Untouched(s, t)
         else Insisted(b, s, text, t)
  }

  lemma StageExactly(b: Bench, k: nat, route: string)
    requires k == 1 || k == 2
    ensures route in Stage(b, k) <==>
      if k == 1 then Among(b.rank(b.world.task.query), 10, route) else Registered(b.world.registry, route)
  {
    if k == 1 {
      SortedTake(b.rank(b.world.task.query), 10);
    } else {
      SortedRegistered(b.world.registry);
    }
    hide Sorted, Take, RouteIds, Among, Registered;
  }

  lemma ExpandWidens(b: Bench, s: Episode)
    requires CanExpand(b, s)
    ensures CanWiden(b, s) && Widened(b, s, Expand(b, s))
    ensures Expand(b, s) == s.(visible := Expand(b, s).visible, history := Expand(b, s).history,
      retrievalCalls := s.retrievalCalls + 1, expansions := s.expansions + 1, stageIndex := s.stageIndex + 1)
  {
    hide Stage, Among, Registered;
    StageShows(b, s.stageIndex + 1);
    ExpandIs(b, s);
    hide Expand;
  }

  lemma ExpandIs(b: Bench, s: Episode)
    ensures var next := Stage(b, s.stageIndex + 1);
      Expand(b, s) == s.(visible := next, history := s.history + [next],
        retrievalCalls := s.retrievalCalls + 1, expansions := s.expansions + 1, stageIndex := s.stageIndex + 1)
  {
    hide Stage;
  }

  lemma StageShows(b: Bench, k: nat)
    requires k == 1 || k == 2
    ensures forall route :: route in Stage(b, k) <==>
      if k == 1 then Among(b.rank(b.world.task.query), 10, route) else Registered(b.world.registry, route)
  {
    hide *;
    forall route
      ensures route in Stage(b, k) <==>
        if k == 1 then Among(b.rank(b.world.task.query), 10, route) else Registered(b.world.registry, route)
    {
      StageExactly(b, k, route);
    }
  }

  lemma InsistExactly(b: Bench, s: Episode, asked: Episode, text: string)
    requires asked == s.(turns := asked.turns, malformed := asked.malformed, finalText := asked.finalText) && !s.halted
    ensures Insisted(b, s, text, Insist(b, asked, text)) && Insist(b, asked, text).turns == asked.turns
  {
    var said := asked.(messages := asked.messages + [Assistant(text), User("TASK_INCOMPLETE")]);
    if CanExpand(b, asked) {
      ExpandWidens(b, said);
      SameWidening(b, s, said, Expand(b, said));
    }
    hide Stage, Among, Registered, Expand, Widened;
  }

  lemma SameWidening(b: Bench, s: Episode, said: Episode, t: Episode)
    requires said == s.(turns := said.turns, malformed := said.malformed, finalText := said.finalText,
      messages := said.messages)
    ensures Widened(b, s, t) <==> Widened(b, said, t)
  {
    hide Among, Registered;
  }

  lemma AfterCallsExactly(b: Bench, s: Episode, u: Burst)
    requires !s.halted
    ensures var t := AfterCalls(b, s, u);
      && t.exec == u.exec && t.tracker == u.tracker && !t.halted && t.turns == s.turns
      && t.messages == s.messages + [ToolResults(u.shown)]
      && if b.condition.Sr5StateAware? && !Finished(b, u.exec) && s.retrievalCalls < 6 then Reranked(b, s, t)
         else if CanWiden(b, s) && u.failed then Widened(b, s, t)
         else SameView(s, t)
  {
    var next := s.(exec := u.exec, tracker := u.tracker, messages := s.messages + [ToolResults(u.shown)]);
    AfterCallsIs(b, s, u, next);
    hide Stage, Among, Registered, Sorted, Take, AfterCalls;
    if b.condition.Sr5StateAware? && !Finished(b, u.exec) && s.retrievalCalls < 6 {
      RerankExactly(b, s, next);
    } else if CanExpand(b, next) && u.failed {
      ExpandWidens(b, next);
      WidensAfter(b, s, next, Expand(b, next));
    }
    hide Expose, Expand, Reranked, Widened;
  }

  lemma AfterCallsIs(b: Bench, s: Episode, u: Burst, next: Episode)
    requires next == s.(exec := u.exec, tracker := u.tracker, messages := s.messages + [ToolResults(u.shown)])
    ensures AfterCalls(b, s, u) ==
      if b.condition.Sr5StateAware? && !Finished(b, u.exec) && s.retrievalCalls < 6 then
        Expose(next, Sorted(Take(b.rank(b.renderQuery(next.tracker)), 5)))
      else if u.failed && CanExpand(b, next) then Expand(b, next)
      else next
    ensures CanExpand(b, next) == CanWiden(b, s)
  {
    hide Stage, Sorted, Take, Expose, Expand;
  }

  lemma RerankExactly(b: Bench, s: Episode, next: Episode)
    requires next == s.(exec := next.exec, tracker := next.tracker, messages := next.messages)
    ensures var t := Expose(next, Sorted(Take(b.rank(b.renderQuery(next.tracker)), 5)));
      && Reranked(b, s, t) && t.exec == next.exec && t.tracker == next.tracker && t.messages == next.messages
      && t.halted == s.halted && t.turns == s.turns
  {
    hide Sorted, Take, Among;
    SortedTake(b.rank(b.renderQuery(next.tracker)), 5);
  }

  lemma WidensAfter(b: Bench, s: Episode, next: Episode, t: Episode)
    requires next == s.(exec := next.exec, tracker := next.tracker, messages := next.messages)
    ensures Widened(b, s, t) <==> Widened(b, next, t)
  {
    hide Among, Registered;
  }

  lemma CallTurnExactly(b: Bench, s: Episode, asked: Episode, text: string, calls: seq<ToolCall>)
    requires !s.halted && CallTurn(b, asked, calls).Success?
    requires asked == s.(turns := asked.turns, finalText := text, messages := s.messages + [Assistant(text)])
    ensures Called(b, s, text, calls, CallTurn(b, asked, calls).value)
    ensures CallTurn(b, asked, calls).value.turns == asked.turns
  {
    var points := CallsExactly(b, asked, calls);
    var u := Calls(b, asked, calls).value;
    AfterCallsExactly(b, asked, u);
    SameCarried(b, s, asked, calls, points);
    hide Calls, AfterCalls, CarriesOut, Among, Registered;
    assert s.messages + [Assistant(text)] + [ToolResults(u.shown)]
        == s.messages + [Assistant(text), ToolResults(u.shown)];
    SameViews(b, s, asked, AfterCalls(b, asked, u));
  }

  lemma SameCarried(b: Bench, s: Episode, asked: Episode, calls: seq<ToolCall>, points: seq<Point>)
    requires CarriesOut(b, asked, calls, points)
    requires asked == s.(turns := asked.turns, finalText := asked.finalText, messages := asked.messages)
    ensures CarriesOut(b, s, calls, points)
  {
    forall i | 0 <= i < |calls|
      ensures CarriesOutOne(b, s, calls[i], i == 0, points[i], points[i + 1])
    {
      assert CarriesOutOne(b, asked, calls[i], i == 0, points[i], points[i + 1]);
      hide Perform, Tracker.Update, CalledRoute, ShownOf;
    }
    hide CarriesOutOne;
  }

  lemma SameViews(b: Bench, s: Episode, asked: Episode, t: Episode)
    requires asked == s.(turns := asked.turns, finalText := asked.finalText, messages := asked.messages)
    ensures SameView(s, t) <==> SameView(asked, t)
    ensures Widened(b, s, t) <==> Widened(b, asked, t)
    ensures Reranked(b, s, t) <==> Reranked(b, asked, t)
  {
    hide Among, Registered;
  }

  /** One turn, exactly: what it shows the agent, and when the loop ends. */
  lemma TurnExactly(b: Bench, s: Episode, g: Generated)
    requires !s.halted && Turn(b, s, g).Success?
    ensures Answers(b, s, g, Turn(b, s, g).value)
  {
    hide CallTurn, Insist, AllRegistered, Insisted, Called;
    match g {
      case Overflow =>
      case Malformed(text) =>
        InsistExactly(b, s, s.(turns := s.turns + 1, malformed := s.malformed + 1, finalText := text), text);
      case Reply(text, calls) =>
        var asked := s.(turns := s.turns + 1, finalText := text);
        if calls == [] {
          InsistExactly(b, s, asked, text);
        } else {
          CallTurnExactly(b, s, asked.(messages := s.messages + [Assistant(text)]), text, calls);
        }
    }
  }
}
