/** The whole effect of one call on the frozen-corpus executor, outcome by outcome. */
module Attempts {
  import opened Wrappers
  import opened Text
  import opened JsonValues
  import opened Registry
  import opened Gates
  import opened Frozen
  import opened ArgumentRules

  // ---- Schema types -------------------------------------------------------------------------------

  /** A value of a declared JSON type: a string must be visible, an integer is a number, and
      an undeclared type name admits everything. */
  ghost predicate OfType(v: Json, declared: string) {
    && (declared == "string" ==> VisibleText(v))
    && (declared == "number" ==> v.Int? || v.Num?)
    && (declared == "integer" ==> v.Int?)
    && (declared == "boolean" ==> v.Bool?)
    && (declared == "array" ==> v.Arr?)
    && (declared == "object" ==> v.Obj?)
  }

  ghost predicate Admits(t: SchemaType, v: Json) {
    match t
    case Untyped => true
    case One(name) => OfType(v, name)
    case AnyOf(names) => exists i | 0 <= i < |names| :: OfType(v, names[i])
  }

  lemma AdmitsExactly(v: Json, t: SchemaType)
    ensures ValueFits(v, t) <==> Admits(t, v)
  {
    forall name
      ensures TypeValid(v, name) <==> OfType(v, name)
    {
    }
    hide TypeValid, OfType;
  }

  ghost predicate Declared(ep: Endpoint, name: string) {
    exists i | 0 <= i < |ep.parameters| :: ep.parameters[i].name == name
  }

  /** A parameter is met: absent and optional, or present with an admitted value. */
  ghost predicate Met(p: Parameter, args: Object) {
    if p.name in args then Admits(p.schemaType, args[p.name]) else !p.required
  }

  /** The schema check: undeclared arguments first, in sorted order; then the first
      parameter, in declaration order, that is missing or of the wrong type. */
  ghost predicate SchemaSays(ep: Endpoint, args: Object, fault: Option<string>) {
    if exists k | k in args :: !Declared(ep, k) then
      exists extra | StrictlySorted(extra) && forall k :: k in extra <==> k in args && !Declared(ep, k) ::
        fault == Some("unexpected_arguments:" + Join(extra, ","))
    else if exists i | 0 <= i < |ep.parameters| :: !Met(ep.parameters[i], args) then
      exists i | 0 <= i < |ep.parameters| && !Met(ep.parameters[i], args) ::
        && (forall j | 0 <= j < i :: Met(ep.parameters[j], args))
        && fault == Some((if ep.parameters[i].name in args then "invalid_type:" else "missing_required_argument:")
                         + ep.parameters[i].name)
    else fault == None
  }

  lemma {:induction false} FirstFaultExactly(params: seq<Parameter>, args: Object)
    ensures FirstFault(params, args) == None <==> forall i | 0 <= i < |params| :: Met(params[i], args)
    ensures forall i | 0 <= i < |params| && !Met(params[i], args) && (forall j | 0 <= j < i :: Met(params[j], args)) ::
      FirstFault(params, args) == Some(
        (if params[i].name in args then "invalid_type:" else "missing_required_argument:") + params[i].name)
  {
    if params != [] {
      var p, rest := params[0], params[1..];
      if p.name in args {
        AdmitsExactly(args[p.name], p.schemaType);
      }
      FirstFaultExactly(rest, args);
      hide ValueFits, Admits;
      assert forall i | 0 < i < |params| :: params[i] == rest[i - 1];
      assert forall i | 0 <= i < |rest| :: rest[i] == params[i + 1];
    }
  }

  lemma {:induction false} FirstUnmet(params: seq<Parameter>, args: Object, i: nat) returns (first: nat)
    requires i < |params| && !Met(params[i], args)
    ensures first < |params| && !Met(params[first], args) && forall j | 0 <= j < first :: Met(params[j], args)
  {
    if j :| 0 <= j < i && !Met(params[j], args) {
      first := FirstUnmet(params, args, j);
    } else {
      first := i;
    }
  }

  lemma SchemaParts(ep: Endpoint, args: Object) returns (extra: seq<string>)
    ensures StrictlySorted(extra) && forall k :: k in extra <==> k in args && !Declared(ep, k)
    ensures SchemaFault(ep, args) == if extra != [] then Some("unexpected_arguments:" + Join(extra, ","))
                                     else FirstFault(ep.parameters, args)
  {
    var declared := set i | 0 <= i < |ep.parameters| :: ep.parameters[i].name;
    extra := SortedSet(args.Keys - declared);
    hide FirstFault, Join, StrictlySorted;
    assert forall k :: k in extra <==> k in args && !Declared(ep, k);
  }

  /** What the schema check answers, for every endpoint and every arguments. */
  lemma SchemaExactly(ep: Endpoint, args: Object)
    ensures SchemaSays(ep, args, SchemaFault(ep, args))
  {
    hide SchemaFault, FirstFault, Join, Met, Declared, StrictlySorted;
    var extra := SchemaParts(ep, args);
    if extra == [] {
      assert forall k | k in args :: Declared(ep, k);
      FirstFaultExactly(ep.parameters, args);
      if i :| 0 <= i < |ep.parameters| && !Met(ep.parameters[i], args) {
        var first := FirstUnmet(ep.parameters, args, i);
      }
    } else {
      assert extra[0] in extra;
    }
  }

  // ---- One call -----------------------------------------------------------------------------------------

  /** The call names the step that is due. */
  predicate Due(w: World, core: Core, call: Call) {
    w.task.supported && core.progress < |w.task.steps| && w.task.steps[core.progress].route == call.route
  }

  function Refusal(status: string, error: string): Object {
    map["status" := Str(status), "error" := Str(error)]
  }

  /** What is logged of a call that does not get past a gate. */
  function Refused(call: Call, schemaValid: bool, blocked: bool, expected: bool, error: string): Attempt {
    Attempt(call.route, call.arguments, schemaValid, false, blocked, expected, false, Some(error),
            Refusal(if blocked then "blocked" else "error", error))
  }

  /** The observation of a consumed step: the fixture's, and status "ok" when it has none. */
  ghost predicate Consumed(step: Step, observation: Object) {
    && (forall k | k in step.observation :: k in observation && observation[k] == step.observation[k])
    && "status" in observation
    && (forall k | k in observation && k !in step.observation :: k == "status" && observation[k] == Str("ok"))
  }

  /** The task state after a consumed step: its entries win, except status and error. */
  ghost predicate Updates(before: Object, observation: Object, after: Object) {
    forall k ::
      if k in observation && k != "status" && k != "error" then k in after && after[k] == observation[k]
      else (k in after <==> k in before) && (k in after ==> after[k] == before[k])
  }

  /** Everything a call does, by the first of these that applies: an unknown tool, one that
      was not offered, a destructive one out of turn, arguments the schema faults, a call
      that is not the turn's first, wrong arguments for the step that is due, its scripted
      fault, the step itself; and otherwise a call that runs without helping the task. */
  ghost predicate Does(w: World, core: Core, call: Call, a: Attempt, after: Core) {
    var ep, due := Resolve(w.registry, call.route), Due(w, core, call);
    if ep == None then a == Refused(call, false, false, false, "unknown_tool") && after == core
    else
      var destructive, fault := ep.value.destructive, SchemaFault(ep.value, call.arguments);
      if !call.available then
        a == Refused(call, fault == None, destructive, due, "unavailable_tool") && after == core
      else if destructive && !due then
        a == Refused(call, fault == None, true, false, "destructive_policy_block") && after == core
      else if fault != None then a == Refused(call, false, false, due, fault.value) && after == core
      else if !call.allowed then
        a == Refused(call, true, false, due, "parallel_tool_call_requires_observation") && after == core
      else if due then DoesDue(w, core, call, a, after)
      else
        && a == Attempt(call.route, call.arguments, true, true, false, false, false, None,
             map["status" := Str("executed"),
                 "message" := Str("Tool call completed but the user task is not complete.")])
        && after == core
  }

  ghost predicate DoesDue(w: World, core: Core, call: Call, a: Attempt, after: Core)
    requires Due(w, core, call)
  {
    var step := w.task.steps[core.progress];
    if !RulesMet(w, core, call.arguments) then
      a == Refused(call, true, false, true, "invalid_task_arguments") && after == core
    else if step.failOnce != "" && core.progress !in core.failedOnce then
      && a == Attempt(call.route, call.arguments, true, true, false, true, false, Some(step.failOnce),
           Refusal("error", step.failOnce))
      && after == core.(failedOnce := core.failedOnce + {core.progress})
    else
      && a == Attempt(call.route, call.arguments, true, true, false, true, true, None, a.observation)
      && Consumed(step, a.observation)
      && after.progress == core.progress + 1 && after.failedOnce == core.failedOnce
      && Updates(core.state, a.observation, after.state)
  }

  /** One call, exactly: what the executor logs and what it remembers. */
  lemma CallExactly(w: World, x: Exec, call: Call)
    ensures var y := Perform(w, x, call);
      && |y.attempts| == |x.attempts| + 1 && y.attempts[..|x.attempts|] == x.attempts
      && Does(w, x.core, call, y.attempts[|x.attempts|], y.core)
  {
    var y := Perform(w, x, call);
    assert y.attempts == x.attempts + [AttemptAt(w, x.core, call)];
    if Judged(w, x.core, call) {
      DueExactly(w, x, call);
    } else {
      hide RulesMet, SchemaFault, Resolve, ArgumentsValid;
    }
    hide DoesDue;
  }

  lemma DueExactly(w: World, x: Exec, call: Call)
    requires Judged(w, x.core, call)
    ensures Due(w, x.core, call)
    ensures DoesDue(w, x.core, call, AttemptAt(w, x.core, call), Perform(w, x, call).core)
  {
    ArgumentsDecide(w, x.core, call);
    hide RulesMet, SchemaFault, Resolve, ArgumentsValid;
    ShownConsumes(w.task.steps[x.core.progress], x.core.state);
    hide Shown, Absorb, Consumed, Updates;
  }

  lemma ShownConsumes(step: Step, before: Object)
    ensures Consumed(step, Shown(step)) && Updates(before, Shown(step), Absorb(before, Shown(step)))
  {
  }
}
