/** The second executor, for the hand-written catalog: same gates, no scripted faults,
    and a task state written while the observation is produced. */
module Deterministic {
  import opened Wrappers
  import opened JsonValues
  import opened Registry
  import opened Gates
  import Replay

  /** The task's route list and its two literal tables: which arguments are right in a
      state, and what a consumed route shows and stores. */
  datatype Script = Script(
    registry: Catalog,
    routes: seq<string>,
    semantic: (Object, string, Object) -> bool,
    shown: (Object, string) -> Object,
    stored: (Object, string) -> Object)

  datatype Run = Run(progress: nat, state: Object, attempts: seq<Attempt>)

  predicate Expects(s: Script, r: Run, route: string) {
    r.progress < |s.routes| && s.routes[r.progress] == route
  }

  function GateAt(s: Script, r: Run, call: Call): Gate {
    GateFor(Resolve(s.registry, call.route), call, Expects(s, r, call.route),
            s.semantic(r.state, call.route, call.arguments), None, s.shown(r.state, call.route))
  }

  function Perform(s: Script, r: Run, call: Call): Run {
    var g := GateAt(s, r, call);
    var log := r.attempts + [AttemptFor(call, Expects(s, r, call.route), g)];
    if g.Advances? then Run(r.progress + 1, r.state + s.stored(r.state, call.route), log)
    else r.(attempts := log)
  }

  function PerformAll(s: Script, calls: seq<Call>): Run {
    if calls == [] then Run(0, map[], [])
    else Perform(s, PerformAll(s, calls[..|calls| - 1]), calls[|calls| - 1])
  }

  /** The state after consuming the given routes in order. */
  function StateAfter(s: Script, routes: seq<string>): Object {
    if routes == [] then map[]
    else
      var before := StateAfter(s, routes[..|routes| - 1]);
      before + s.stored(before, routes[|routes| - 1])
  }

  class DeterministicTaskExecutor {
    const script: Script
    var progress: nat
    var attempts: seq<Attempt>
    var state: Object

    constructor (script: Script)
      ensures this.script == script
      ensures View() == Run(0, map[], [])
    {
      this.script := script;
      progress := 0;
      attempts := [];
      state := map[];
    }

    function View(): Run
      reads this
    {
      Run(progress, state, attempts)
    }

    function NextExpectedRoute(): Option<string>
      reads this
    {
      if progress >= |script.routes| then None else Some(script.routes[progress])
    }

    method Observe(route: string, expected: bool) returns (observation: Object)
      modifies `state
      ensures expected ==> observation == script.shown(old(state), route)
      ensures expected ==> state == old(state) + script.stored(old(state), route)
      ensures !expected ==> observation == UNFINISHED && state == old(state)
    {
      if !expected {
        return UNFINISHED;
      }
      observation := script.shown(state, route);
      state := state + script.stored(state, route);
    }

    method Execute(call: Call) returns (attempt: Attempt)
      modifies this
      ensures View() == Perform(script, old(View()), call)
      ensures attempts == old(attempts) + [attempt]
    {
      hide SchemaFault, Resolve;
      var endpoint := Resolve(script.registry, call.route);
      ghost var g := GateAt(script, View(), call);
      if endpoint.None? {
        assert g == UnknownTool;
        attempt := Attempt(call.route, call.arguments, false, false, false, false, false,
                           Some("unknown_tool"), ErrorObject("error", "unknown_tool"));
        attempts := attempts + [attempt];
        return;
      }
      var destructive := endpoint.value.destructive;
      var schemaError := SchemaFault(endpoint.value, call.arguments);
      var expected := NextExpectedRoute() == Some(call.route);
      if !call.available {
        assert g == Unavailable(destructive, schemaError);
        attempt := Attempt(call.route, call.arguments, schemaError.None?, false, destructive, expected, false,
                           Some("unavailable_tool"),
                           ErrorObject(if destructive then "blocked" else "error", "unavailable_tool"));
      } else if destructive && !expected {
        assert g == DestructiveBlock(schemaError);
        attempt := Attempt(call.route, call.arguments, schemaError.None?, false, true, false, false,
                           Some("destructive_policy_block"),
                           ErrorObject("blocked", "destructive_policy_block"));
      } else if schemaError.Some? {
        assert g == SchemaInvalid(schemaError.value);
        attempt := Attempt(call.route, call.arguments, false, false, false, expected, false,
                           schemaError, ErrorObject("error", schemaError.value));
      } else if !call.allowed {
        assert g == ParallelCall;
        attempt := Attempt(call.route, call.arguments, true, false, false, expected, false,
                           Some("parallel_tool_call_requires_observation"),
                           ErrorObject("error", "parallel_tool_call_requires_observation"));
      } else {
        var semantic := script.semantic(state, call.route, call.arguments);
        if expected && !semantic {
          assert g == BadArguments;
          attempt := Attempt(call.route, call.arguments, true, false, false, true, false,
                             Some("invalid_task_arguments"), ErrorObject("error", "invalid_task_arguments"));
        } else {
          var observation := Observe(call.route, expected);
          if expected {
            assert g == Advances(observation);
            progress := progress + 1;
          } else {
            assert g == Idle(semantic);
          }
          attempt := Attempt(call.route, call.arguments, true, semantic, false, expected, expected,
                             None, observation);
        }
      }
      attempts := attempts + [attempt];
    }
  }

  // ---- The same contract as the frozen executor -------------------------------------------

  /** Attempt `a` is the call that consumed required route `i`: it resolved, its arguments
      were schema valid and right in the state the earlier routes had stored, and it
      returned what the table shows in that state. */
  ghost predicate Consumes(s: Script, i: nat, a: Attempt)
    requires i < |s.routes|
  {
    var before := StateAfter(s, s.routes[..i]);
    && a.route == s.routes[i]
    && Resolve(s.registry, a.route).Some?
    && SchemaFault(Resolve(s.registry, a.route).value, a.arguments).None?
    && s.semantic(before, a.route, a.arguments)
    && a.schemaValid && a.semanticValid && a.expectedAtStep && !a.policyBlocked && a.error == None
    && a.observation == s.shown(before, a.route)
  }

  /** The executor has consumed a prefix of its routes, and its state is what they stored. */
  ghost predicate Replays(s: Script, r: Run) {
    && r.progress <= |s.routes| && r.state == StateAfter(s, s.routes[..r.progress])
    && ConsumedPrefix(s, r.progress, Replay.Advancing(r.attempts))
  }

  ghost predicate ConsumedPrefix(s: Script, p: nat, advancing: seq<Attempt>) {
    p <= |s.routes| && |advancing| == p && forall i | 0 <= i < p :: Consumes(s, i, advancing[i])
  }

  lemma AdvanceConsumes(s: Script, r: Run, call: Call)
    requires r.progress <= |s.routes| && r.state == StateAfter(s, s.routes[..r.progress])
    requires GateAt(s, r, call).Advances?
    ensures r.progress < |s.routes| && call.route == s.routes[r.progress]
    ensures Consumes(s, r.progress, AttemptFor(call, Expects(s, r, call.route), GateAt(s, r, call)))
  {
    hide Resolve, SchemaFault, StateAfter;
  }

  lemma StateNext(s: Script, p: nat)
    requires p < |s.routes|
    ensures StateAfter(s, s.routes[..p + 1])
         == StateAfter(s, s.routes[..p]) + s.stored(StateAfter(s, s.routes[..p]), s.routes[p])
  {
    assert s.routes[..p + 1][..p] == s.routes[..p];
  }

  lemma PerformReplays(s: Script, r: Run, call: Call)
    requires Replays(s, r)
    ensures Replays(s, Perform(s, r, call))
  {
    var g := GateAt(s, r, call);
    var a := AttemptFor(call, Expects(s, r, call.route), g);
    Replay.AppendLog(r.attempts, a);
    assert a.advancedTask <==> g.Advances?;
    assert Perform(s, r, call).attempts == r.attempts + [a];
    if g.Advances? {
      AdvanceConsumes(s, r, call);
      StateNext(s, r.progress);
    }
    hide Consumes, GateAt, StateAfter, Replay.Advancing;
  }

  /** After any calls, the advancing attempts consumed the first `progress` required routes
      in order, each right in the state the earlier ones stored, and the state is what
      they stored. */
  lemma {:induction false} EveryRunReplays(s: Script, calls: seq<Call>)
    ensures Replays(s, PerformAll(s, calls))
  {
    hide Replays, Perform;
    if calls == [] {
      StartReplays(s);
    } else {
      var init, call := calls[..|calls| - 1], calls[|calls| - 1];
      EveryRunReplays(s, init);
      PerformReplays(s, PerformAll(s, init), call);
    }
  }

  lemma StartReplays(s: Script)
    ensures Replays(s, PerformAll(s, []))
  {
    assert s.routes[..0] == [];
  }

  /** The calls that advanced the task. */
  function Effective(s: Script, calls: seq<Call>): seq<Call> {
    if calls == [] then []
    else
      var init, last := calls[..|calls| - 1], calls[|calls| - 1];
      if GateAt(s, PerformAll(s, init), last).Advances? then Effective(s, init) + [last] else Effective(s, init)
  }

  /** Every other call can be deleted from the run without changing progress or state, and
      what is left is one call per consumed route. */
  lemma {:induction false} NoiseIsInvisible(s: Script, calls: seq<Call>)
    ensures PerformAll(s, Effective(s, calls)).progress == PerformAll(s, calls).progress == |Effective(s, calls)|
    ensures PerformAll(s, Effective(s, calls)).state == PerformAll(s, calls).state
  {
    if calls != [] {
      var init, last := calls[..|calls| - 1], calls[|calls| - 1];
      NoiseIsInvisible(s, init);
      var before, kept := PerformAll(s, init), Effective(s, init);
      SameGate(s, before, PerformAll(s, kept), last);
      assert (kept + [last])[..|kept|] == kept;
      hide GateAt;
    }
  }

  /** A gate looks only at progress and state. */
  lemma SameGate(s: Script, r: Run, q: Run, call: Call)
    requires r.progress == q.progress && r.state == q.state
    ensures GateAt(s, r, call) == GateAt(s, q, call)
  {
    hide Resolve, SchemaFault;
  }

  /** Calls to dependable routes never leave an unauthorized destructive execution. */
  lemma {:induction false} NoUnauthorizedExecution(s: Script, calls: seq<Call>)
    requires forall i | 0 <= i < |calls| :: Dependable(s.registry, calls[i].route)
    ensures forall i | 0 <= i < |PerformAll(s, calls).attempts| ::
      !Unauthorized(s.registry, PerformAll(s, calls).attempts[i])
  {
    if calls == [] {
    } else {
      var init, call := calls[..|calls| - 1], calls[|calls| - 1];
      NoUnauthorizedExecution(s, init);
      var r := PerformAll(s, init);
      GateSafety(s.registry, call, Expects(s, r, call.route),
        s.semantic(r.state, call.route, call.arguments), None, s.shown(r.state, call.route));
    }
  }
}
