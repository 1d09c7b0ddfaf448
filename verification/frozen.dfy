/** The frozen-corpus executor: a stateful automaton that replays a fixture step by step. */
module Frozen {
  import opened Wrappers
  import opened Text
  import opened JsonValues
  import opened Registry
  import opened Gates

  // ---- Fixtures ---------------------------------------------------------------------

  /** One argument rule; the first entry present decides. */
  datatype Rule = Rule(
    eq: Option<Json>, nonempty: bool, fromState: Option<string>, containsState: Option<string>)

  /** A fixture step. `rules` is `None` when the entry is not an object; `failOnce` is
      empty when the step has no fault; the last three entries are projection metadata
      that the executor never reads. */
  datatype Step = Step(
    route: string,
    rules: Option<map<string, Rule>>,
    observation: Object,
    failOnce: string,
    planned: seq<string>,
    gold: seq<string>,
    contracts: Object)

  datatype Task = Task(query: string, requiredRoutes: seq<string>, supported: bool, steps: seq<Step>)

  /** Everything an executor is constructed from, with Python's `str`. */
  datatype World = World(registry: Catalog, task: Task, render: Renderer)

  predicate RuleValid(render: Renderer, rule: Rule, value: Json, state: Object) {
    if rule.eq.Some? then
      if IsNumber(rule.eq.value) then IsNumber(value) && Numeric(value) == Numeric(rule.eq.value)
      else PyEq(value, rule.eq.value)
    else if rule.nonempty then value.Str? && !Blank(value.s)
    else if rule.fromState.Some? then
      rule.fromState.value in state && PyEq(value, state[rule.fromState.value])
    else if rule.containsState.Some? then
      rule.containsState.value in state
      && Contains(render(value), render(state[rule.containsState.value]))
    else true
  }

  predicate ArgumentsValid(render: Renderer, step: Step, arguments: Object, state: Object) {
    step.rules.Some? && forall k | k in step.rules.value ::
      k in arguments && RuleValid(render, step.rules.value[k], arguments[k], state)
  }

  /** The observation of a consumed step: its status defaults to "ok". */
  function Shown(step: Step): Object {
    if "status" in step.observation then step.observation
    else step.observation["status" := Str("ok")]
  }

  /** Task state absorbs an observation, except for its transport keys. */
  function Absorb(state: Object, observation: Object): Object {
    state + (observation - {"status", "error"})
  }

  /** Task state after the given steps, merged left to right. */
  function Merged(steps: seq<Step>): Object {
    if steps == [] then map[]
    else Absorb(Merged(steps[..|steps| - 1]), steps[|steps| - 1].observation)
  }

  function StepRoutes(steps: seq<Step>): seq<string> {
    seq(|steps|, i requires 0 <= i < |steps| => steps[i].route)
  }

  // ---- Specification -------------------------------------------------------------------

  datatype Core = Core(progress: nat, state: Object, failedOnce: set<nat>)

  datatype Exec = Exec(core: Core, attempts: seq<Attempt>)

  const FRESH := Exec(Core(0, map[], {}), [])

  function NextRoute(task: Task, progress: nat): Option<string> {
    if task.supported && progress < |task.steps| then Some(task.steps[progress].route) else None
  }

  predicate Complete(task: Task, progress: nat) {
    task.supported && progress >= |task.steps|
  }

  predicate IsExpected(w: World, core: Core, route: string) {
    NextRoute(w.task, core.progress) == Some(route)
  }

  function GateAt(w: World, core: Core, call: Call): Gate {
    var expected := IsExpected(w, core, call.route);
    GateFor(
      Resolve(w.registry, call.route), call, expected,
      !expected || ArgumentsValid(w.render, w.task.steps[core.progress], call.arguments, core.state),
      if expected && w.task.steps[core.progress].failOnce != "" && core.progress !in core.failedOnce
        then Some(w.task.steps[core.progress].failOnce) else None,
      if expected then Shown(w.task.steps[core.progress]) else map[])
  }

  /** Only two gates change the task: a scripted fault is remembered, and an advance
      absorbs the step. */
  function AfterGate(w: World, core: Core, g: Gate): Core {
    match g
    case FailsOnce(_) => core.(failedOnce := core.failedOnce + {core.progress})
    case Advances(shown) => Core(core.progress + 1, Absorb(core.state, shown), core.failedOnce)
    case _ => core
  }

  function AttemptAt(w: World, core: Core, call: Call): Attempt {
    AttemptFor(call, IsExpected(w, core, call.route), GateAt(w, core, call))
  }

  function Perform(w: World, x: Exec, call: Call): Exec {
    Exec(AfterGate(w, x.core, GateAt(w, x.core, call)), x.attempts + [AttemptAt(w, x.core, call)])
  }

  function PerformAll(w: World, calls: seq<Call>): Exec {
    if calls == [] then FRESH
    else Perform(w, PerformAll(w, calls[..|calls| - 1]), calls[|calls| - 1])
  }

  // ---- Implementation ---------------------------------------------------------------------

  class FrozenCorpusExecutor {
    const world: World
    var progress: nat
    var attempts: seq<Attempt>
    var state: Object
    var failedOnce: set<nat>

    constructor (world: World)
      ensures this.world == world
      ensures View() == FRESH
    {
      this.world := world;
      progress := 0;
      attempts := [];
      state := map[];
      failedOnce := {};
    }

    function View(): Exec
      reads this
    {
      Exec(Core(progress, state, failedOnce), attempts)
    }

    predicate IsComplete()
      reads this
    {
      world.task.supported && progress >= |world.task.steps|
    }

    function NextExpectedRoute(): Option<string>
      reads this
    {
      if IsComplete() || !world.task.supported || progress >= |world.task.steps| then None
      else Some(world.task.steps[progress].route)
    }

    method Log(attempt: Attempt)
      modifies `attempts
      ensures attempts == old(attempts) + [attempt]
    {
      attempts := attempts + [attempt];
    }

    /** Copy every payload key of an observation into the task state. */
    method Remember(observation: Object)
      modifies `state
      ensures state == Absorb(old(state), observation)
    {
      var todo := observation.Keys;
      while todo != {}
        invariant todo <= observation.Keys
        invariant forall k | k in observation && k !in todo && k !in {"status", "error"} ::
          k in state && state[k] == observation[k]
        invariant forall k | k in old(state) :: k in state
        invariant forall k | k in state ::
          || (k in observation && k !in {"status", "error"} && k !in todo)
          || (k in old(state) && state[k] == old(state)[k])
        decreases todo
      {
        var key :| key in todo;
        if key != "status" && key != "error" {
          state := state[key := observation[key]];
        }
        todo := todo - {key};
      }
    }

    /** Run one call through the gates, in order, and log it. */
    method Execute(call: Call) returns (attempt: Attempt)
      modifies this
      ensures View() == Perform(world, old(View()), call)
      ensures attempt == AttemptAt(world, old(View()).core, call)
    {
      hide ArgumentsValid, SchemaFault, Resolve;
      var endpoint := Resolve(world.registry, call.route);
      var expected := NextExpectedRoute() == Some(call.route);
      ghost var g := GateAt(world, View().core, call);
      if endpoint.None? {
        assert g == UnknownTool;
        attempt := Attempt(call.route, call.arguments, false, false, false, false, false,
                           Some("unknown_tool"), ErrorObject("error", "unknown_tool"));
        Log(attempt);
        return;
      }
      var destructive := endpoint.value.destructive;
      var schemaError := SchemaFault(endpoint.value, call.arguments);
      if !call.available {
        assert g == Unavailable(destructive, schemaError);
        attempt := Attempt(call.route, call.arguments, schemaError.None?, false, destructive, expected, false,
                           Some("unavailable_tool"),
                           ErrorObject(if destructive then "blocked" else "error", "unavailable_tool"));
        Log(attempt);
        return;
      }
      if destructive && !expected {
        assert g == DestructiveBlock(schemaError);
        attempt := Attempt(call.route, call.arguments, schemaError.None?, false, true, false, false,
                           Some("destructive_policy_block"),
                           ErrorObject("blocked", "destructive_policy_block"));
        Log(attempt);
        return;
      }
      if schemaError.Some? {
        assert g == SchemaInvalid(schemaError.value);
        attempt := Attempt(call.route, call.arguments, false, false, false, expected, false,
                           schemaError, ErrorObject("error", schemaError.value));
        Log(attempt);
        return;
      }
      if !call.allowed {
        assert g == ParallelCall;
        attempt := Attempt(call.route, call.arguments, true, false, false, expected, false,
                           Some("parallel_tool_call_requires_observation"),
                           ErrorObject("error", "parallel_tool_call_requires_observation"));
        Log(attempt);
        return;
      }
      if expected {
        attempt := ExecuteExpected(call);
      } else {
        assert g == Idle(true);
        attempt := Attempt(call.route, call.arguments, true, true, false, false, false, None, UNFINISHED);
        Log(attempt);
      }
    }

    /** The last gates, for a well-formed call to the route the fixture expects next. */
    method ExecuteExpected(call: Call) returns (attempt: Attempt)
      requires IsExpected(world, View().core, call.route)
      requires Resolve(world.registry, call.route).Some? && call.available && call.allowed
      requires SchemaFault(Resolve(world.registry, call.route).value, call.arguments).None?
      modifies this
      ensures View() == Perform(world, old(View()), call)
      ensures attempt == AttemptAt(world, old(View()).core, call)
    {
      hide ArgumentsValid, SchemaFault, Resolve;
      var step := world.task.steps[progress];
      ghost var g := GateAt(world, View().core, call);
      if !ArgumentsValid(world.render, step, call.arguments, state) {
        assert g == BadArguments;
        attempt := Attempt(call.route, call.arguments, true, false, false, true, false,
                           Some("invalid_task_arguments"), ErrorObject("error", "invalid_task_arguments"));
        Log(attempt);
        return;
      }
      if step.failOnce != "" && progress !in failedOnce {
        assert g == FailsOnce(step.failOnce);
        failedOnce := failedOnce + {progress};
        attempt := Attempt(call.route, call.arguments, true, true, false, true, false,
                           Some(step.failOnce), ErrorObject("error", step.failOnce));
        Log(attempt);
        return;
      }
      assert g == Advances(Shown(step));
      var observation := step.observation;
      if "status" !in observation {
        observation := observation["status" := Str("ok")];
      }
      Remember(observation);
      progress := progress + 1;
      attempt := Attempt(call.route, call.arguments, true, true, false, true, true, None, observation);
      Log(attempt);
    }
  }
}
