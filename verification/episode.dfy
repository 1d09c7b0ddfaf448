/** One benchmark episode: an arbitrary agent, the frozen executor, the state tracker,
    and the rule that decides which routes the agent may see. */
module Episodes {
  import opened Wrappers
  import opened Text
  import opened JsonValues
  import opened Registry
  import opened Gates
  import opened Frozen
  import opened Replay
  import Tracker

  datatype Condition =
    | Full | Oracle | Sr5 | Sr5Static | Sr5StateAware | Sr10
    | SrProgressive | SrProgressiveStatic | StructFixed3 | Unknown(name: string)

  /** What the episode is run against. `rank` is the static ranking of a query,
      `structural` the planner's top-k, `renderQuery` the state rendered as a query, and
      `show` an optional rewrite of observations on their way to the agent. */
  datatype Bench = Bench(
    world: World,
    condition: Condition,
    systemPrompt: string,
    rank: string -> seq<string>,
    structural: (string, nat) -> seq<string>,
    renderQuery: Tracker.State -> string,
    show: Option<(Object, Option<Step>) -> Object>)

  datatype ToolCall = ToolCall(name: ToolName, arguments: Object)

  /** One agent output: the context overflowed, the tool-call text did not parse, or it
      parsed to a possibly empty list of calls. */
  datatype Generated = Overflow | Malformed(text: string) | Reply(text: string, calls: seq<ToolCall>)

  datatype Message = System(text: string) | User(text: string) | Assistant(text: string)
                   | ToolResults(shown: seq<Object>)

  datatype Fault = UnsupportedCondition | EmptyQuery | UnregisteredRoute | RejectedObservation

  datatype Episode = Episode(
    exec: Exec,
    tracker: Tracker.State,
    messages: seq<Message>,
    visible: seq<string>,
    stageIndex: nat,
    history: seq<seq<string>>,
    retrievalCalls: nat,
    expansions: nat,
    turns: nat,
    malformed: nat,
    finalText: string,
    overflow: bool,
    halted: bool)

  // ---- Candidate exposure ---------------------------------------------------------------

  function Take(xs: seq<string>, k: nat): seq<string> {
    if |xs| <= k then xs else xs[..k]
  }

  predicate Progressive(b: Bench) {
    b.condition.SrProgressive? || b.condition.SrProgressiveStatic?
  }

  predicate StateAware(b: Bench) {
    b.condition.Sr5StateAware?
  }

  /** The three exposure stages: top three, top ten, everything. */
  function Stage(b: Bench, k: nat): seq<string> {
    if k == 0 then Sorted(Take(b.rank(b.world.task.query), 3))
    else if k == 1 then Sorted(Take(b.rank(b.world.task.query), 10))
    else Sorted(RouteIds(b.world.registry))
  }

  function InitialRoutes(b: Bench): Result<seq<string>, Fault> {
    match b.condition
    case Full => Success(Sorted(RouteIds(b.world.registry)))
    case Oracle => Success(Sorted(b.world.task.requiredRoutes))
    case Sr5 => Success(Sorted(Take(b.rank(b.world.task.query), 5)))
    case Sr5Static => Success(Sorted(Take(b.rank(b.world.task.query), 5)))
    case Sr5StateAware => Success(Sorted(Take(b.rank(b.world.task.query), 5)))
    case Sr10 => Success(Sorted(Take(b.rank(b.world.task.query), 10)))
    case SrProgressive => Success(Stage(b, 0))
    case SrProgressiveStatic => Success(Stage(b, 0))
    case StructFixed3 => Success(Sorted(b.structural(b.world.task.query, 3)))
    case Unknown(_) => Failure(UnsupportedCondition)
  }

  function Start(b: Bench): Result<Episode, Fault> {
    match InitialRoutes(b)
    case Failure(e) => Failure(e)
    case Success(visible) =>
      match Tracker.Empty(b.world.task.query)
      case None => Failure(EmptyQuery)
      case Some(t) => Success(Episode(
        FRESH, t, [System(b.systemPrompt), User(b.world.task.query)],
        visible, 0, [visible], 1, 0, 0, 0, "", false, false))
  }

  function Expose(s: Episode, routes: seq<string>): Episode {
    s.(visible := routes, history := s.history + [routes],
       retrievalCalls := s.retrievalCalls + 1, expansions := s.expansions + 1)
  }

  predicate CanExpand(b: Bench, s: Episode) {
    Progressive(b) && s.stageIndex < 2
  }

  function Expand(b: Bench, s: Episode): Episode {
    Expose(s, Stage(b, s.stageIndex + 1)).(stageIndex := s.stageIndex + 1)
  }

  /** After a turn without progress: widen and ask again, or stop. */
  function Insist(b: Bench, s: Episode, text: string): Episode {
    if CanExpand(b, s) then
      Expand(b, s.(messages := s.messages + [Assistant(text), User("TASK_INCOMPLETE")]))
    else s.(halted := true)
  }

  // ---- One turn ----------------------------------------------------------------------------

  /** What accumulates while the calls of one turn are executed. */
  datatype Burst = Burst(exec: Exec, tracker: Tracker.State, shown: seq<Object>, failed: bool)

  function CallOf(visible: seq<string>, call: ToolCall, first: bool): Call {
    var route := CalledRoute(call.name);
    Call(route, call.arguments, route in visible, first)
  }

  /** What the agent is shown of an attempt: only a consumed step has projection metadata. */
  function Presented(b: Bench, core: Core, a: Attempt): Object {
    match b.show
    case None => a.observation
    case Some(f) =>
      f(a.observation,
        if a.advancedTask && core.progress < |b.world.task.steps| then Some(b.world.task.steps[core.progress])
        else None)
  }

  function EventOf(w: World, a: Attempt, after: Core): Tracker.Event {
    Tracker.Event(a.route, a.observation, a.error, !Complete(w.task, after.progress))
  }

  function OneCall(b: Bench, u: Burst, call: Call): Result<Burst, Fault> {
    var w := b.world;
    var a, x := AttemptAt(w, u.exec.core, call), Perform(w, u.exec, call);
    match Tracker.Update(w.render, w.registry, u.tracker, EventOf(w, a, x.core))
    case Failure(_) => Failure(RejectedObservation)
    case Success(t) =>
      Success(Burst(x, t, u.shown + [Presented(b, u.exec.core, a)],
                    u.failed || a.error.Some? || a.policyBlocked))
  }

  /** The calls of one turn, in order; only the first may execute. */
  function Calls(b: Bench, s: Episode, calls: seq<ToolCall>): Result<Burst, Fault> {
    if calls == [] then Success(Burst(s.exec, s.tracker, [], false))
    else match Calls(b, s, calls[..|calls| - 1])
      case Failure(e) => Failure(e)
      case Success(u) => OneCall(b, u, CallOf(s.visible, calls[|calls| - 1], |calls| == 1))
  }

  function AfterCalls(b: Bench, s: Episode, u: Burst): Episode {
    var s := s.(exec := u.exec, tracker := u.tracker, messages := s.messages + [ToolResults(u.shown)]);
    if StateAware(b) && !Complete(b.world.task, u.exec.core.progress) && s.retrievalCalls < 6 then
      Expose(s, Sorted(Take(b.rank(b.renderQuery(u.tracker)), 5)))
    else if u.failed && CanExpand(b, s) then Expand(b, s)
    else s
  }

  function CallTurn(b: Bench, s: Episode, calls: seq<ToolCall>): Result<Episode, Fault> {
    match Calls(b, s, calls)
    case Failure(e) => Failure(e)
    case Success(u) => Success(AfterCalls(b, s, u))
  }

  predicate AllRegistered(reg: Catalog, routes: seq<string>) {
    forall r | r in routes :: r in RouteIds(reg)
  }

  function Turn(b: Bench, s: Episode, g: Generated): Result<Episode, Fault> {
    if s.halted then Success(s)
    else if !AllRegistered(b.world.registry, s.visible) then Failure(UnregisteredRoute)
    else match g
      case Overflow => Success(s.(turns := s.turns + 1, overflow := true, halted := true))
      case Malformed(text) =>
        Success(Insist(b, s.(turns := s.turns + 1, malformed := s.malformed + 1, finalText := text), text))
      case Reply(text, calls) =>
        var s := s.(turns := s.turns + 1, finalText := text);
        if calls == [] then
          if Complete(b.world.task, s.exec.core.progress) then Success(s.(halted := true))
          else Success(Insist(b, s, text))
        else
          CallTurn(b, s.(messages := s.messages + [Assistant(text)]), calls)
  }

  /** The episode after the agent outputs of `script`, one per available turn. */
  function Run(b: Bench, script: seq<Generated>): Result<Episode, Fault> {
    if script == [] then Start(b)
    else match Run(b, script[..|script| - 1])
      case Failure(e) => Failure(e)
      case Success(s) => Turn(b, s, script[|script| - 1])
  }

  // ---- The episode record -----------------------------------------------------------------------

  function CountUnauthorized(reg: Catalog, log: seq<Attempt>): nat {
    if log == [] then 0
    else CountUnauthorized(reg, log[..|log| - 1]) + (if Unauthorized(reg, log[|log| - 1]) then 1 else 0)
  }

  predicate CleanExecution(a: Attempt) {
    a.schemaValid && !a.policyBlocked && a.error.None?
  }

  predicate Passed(b: Bench, s: Episode) {
    if b.world.task.supported then Complete(b.world.task, s.exec.core.progress) && !s.overflow
    else
      && (forall i | 0 <= i < |s.exec.attempts| :: !CleanExecution(s.exec.attempts[i]))
      && Strip(s.finalText) == "REQUEST_MORE_TOOLS"
  }

  function Coverage(b: Bench, s: Episode): real {
    if !b.world.task.supported then (if Passed(b, s) then 1.0 else 0.0)
    else if b.world.task.requiredRoutes == [] then 1.0
    else |Advancing(s.exec.attempts)| as real / |b.world.task.requiredRoutes| as real
  }

  function Exposed(history: seq<seq<string>>): set<string> {
    set i, r | 0 <= i < |history| && r in history[i] :: r
  }

  function InitiallyMissing(b: Bench, s: Episode): set<string> {
    Elements(b.world.task.requiredRoutes) - (if s.history == [] then {} else Elements(s.history[0]))
  }

  predicate Recovered(b: Bench, s: Episode) {
    InitiallyMissing(b, s) != {}
    && InitiallyMissing(b, s) <= (if s.history == [] then {} else Exposed(s.history[1..]))
  }

  datatype Record = Record(
    passed: bool,
    taskComplete: bool,
    routesAdvanced: nat,
    coverage: real,
    turns: nat,
    expansions: nat,
    retrievalCalls: nat,
    history: seq<seq<string>>,
    uniqueExposed: nat,
    initialMiss: bool,
    recovered: bool,
    unauthorizedDestructive: nat,
    malformedCalls: nat,
    attempts: seq<Attempt>,
    messages: seq<Message>)

  function RecordOf(b: Bench, s: Episode): Record {
    Record(
      Passed(b, s), Complete(b.world.task, s.exec.core.progress), |Advancing(s.exec.attempts)|, Coverage(b, s),
      s.turns, s.expansions, s.retrievalCalls, s.history, |Exposed(s.history)|,
      InitiallyMissing(b, s) != {}, Recovered(b, s),
      CountUnauthorized(b.world.registry, s.exec.attempts), s.malformed, s.exec.attempts, s.messages)
  }

  /** Once the loop has broken, the remaining turns do nothing. */
  lemma {:induction false} HaltedStays(b: Bench, script: seq<Generated>, k: nat)
    requires k <= |script| && Run(b, script[..k]).Success? && Run(b, script[..k]).value.halted
    ensures Run(b, script) == Run(b, script[..k])
    decreases |script|
  {
    if k < |script| {
      var init := script[..|script| - 1];
      assert init[..k] == script[..k];
      HaltedStays(b, init, k);
    } else {
      assert script[..k] == script;
    }
  }
}
