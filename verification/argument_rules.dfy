/** Which arguments the frozen-corpus executor accepts, said of the values themselves. */
module ArgumentRules {
  import opened Wrappers
  import opened Text
  import opened JsonValues
  import opened Registry
  import opened Gates
  import opened Frozen
  import opened Replay
  import opened Builders
  import opened Episodes
  import opened EpisodeInvariants

  // ---- Equal values -----------------------------------------------------------------------------

  /** A number of this value that is not a boolean. */
  predicate NumberOf(v: Json, n: real) {
    (v.Int? && v.i as real == n) || (v.Num? && v.r == n)
  }

  /** What equals a given value: a text only itself; a number or a boolean every number or
      boolean of its value; lists and objects whatever equals them entry by entry. */
  predicate SameValue(v: Json, w: Json) {
    match w
    case Null => v == Null
    case Str(s) => v == Str(s)
    case Bool(b) => v == Bool(b) || NumberOf(v, if b then 1.0 else 0.0)
    case Int(i) => NumberOf(v, i as real) || (v.Bool? && i == if v.b then 1 else 0)
    case Num(r) => NumberOf(v, r) || (v.Bool? && r == if v.b then 1.0 else 0.0)
    case Arr(ws) => v.Arr? && |v.items| == |ws| && forall i | 0 <= i < |ws| :: SameValue(v.items[i], ws[i])
    case Obj(fs) => v.Obj? && v.fields.Keys == fs.Keys && forall k | k in fs :: SameValue(v.fields[k], fs[k])
  }

  lemma {:induction false} PyEqExactly(v: Json, w: Json)
    ensures PyEq(v, w) <==> SameValue(v, w)
    decreases w
  {
    if v.Arr? && w.Arr? {
      if |v.items| == |w.items| {
        forall i | 0 <= i < |w.items|
          ensures PyEq(v.items[i], w.items[i]) <==> SameValue(v.items[i], w.items[i])
        {
          PyEqExactly(v.items[i], w.items[i]);
        }
      }
    } else if v.Obj? && w.Obj? {
      if v.fields.Keys == w.fields.Keys {
        forall k | k in w.fields
          ensures PyEq(v.fields[k], w.fields[k]) <==> SameValue(v.fields[k], w.fields[k])
        {
          PyEqExactly(v.fields[k], w.fields[k]);
        }
      }
    }
  }

  // ---- One call ---------------------------------------------------------------------------------------

  /** The call gets as far as the argument rules: it names the expected step's route, which
      is registered and offered, its arguments fit the schema, and it may execute. */
  ghost predicate Judged(w: World, core: Core, call: Call) {
    && w.task.supported && core.progress < |w.task.steps| && call.route == w.task.steps[core.progress].route
    && Resolve(w.registry, call.route).Some? && call.available && call.allowed
    && SchemaFault(Resolve(w.registry, call.route).value, call.arguments) == None
  }

  /** A text with a visible character. */
  ghost predicate VisibleText(v: Json) {
    v.Str? && exists i | 0 <= i < |v.s| :: !IsSpace(v.s[i])
  }

  ghost predicate Holds(text: string, part: string) {
    exists before: string, after: string :: text == before + part + after
  }

  lemma ContainsExactly(text: string, part: string)
    ensures Contains(text, part) <==> Holds(text, part)
  {
    if Contains(text, part) {
      var i :| 0 <= i <= |text| && OccursAt(text, part, i);
      assert text == text[..i] + part + text[i + |part|..];
    }
    if Holds(text, part) {
      var before: string, after: string :| text == before + part + after;
      assert text[|before|..|before| + |part|] == part;
      assert OccursAt(text, part, |before|);
    }
  }

  /** What one rule accepts in a task state. */
  ghost predicate Accepted(render: Renderer, rule: Rule, v: Json, state: Object) {
    match rule
    case Rule(Some(Int(i)), _, _, _) => NumberOf(v, i as real)
    case Rule(Some(Num(r)), _, _, _) => NumberOf(v, r)
    case Rule(Some(expected), _, _, _) => SameValue(v, expected)
    case Rule(None, true, _, _) => VisibleText(v)
    case Rule(None, false, Some(k), _) => k in state && SameValue(v, state[k])
    case Rule(None, false, None, Some(k)) => k in state && Holds(render(v), render(state[k]))
    case Rule(None, false, None, None) => true
  }

  lemma RuleExactly(render: Renderer, rule: Rule, v: Json, state: Object)
    ensures RuleValid(render, rule, v, state) <==> Accepted(render, rule, v, state)
  {
    if rule.eq.Some? {
      PyEqExactly(v, rule.eq.value);
    } else if rule.fromState.Some? && rule.fromState.value in state {
      PyEqExactly(v, state[rule.fromState.value]);
    } else if rule.containsState.Some? && rule.containsState.value in state {
      ContainsExactly(render(v), render(state[rule.containsState.value]));
    }
    hide PyEq, SameValue, Contains, Holds;
  }

  /** The rules of a step, met by these arguments in this state. */
  ghost predicate RulesMet(w: World, core: Core, arguments: Object)
    requires core.progress < |w.task.steps|
  {
    var rules := w.task.steps[core.progress].rules;
    rules.Some? && forall k | k in rules.value ::
      k in arguments && Accepted(w.render, rules.value[k], arguments[k], core.state)
  }

  /** A judged call counts as right exactly when every rule accepts its argument; otherwise
      it is refused and changes nothing. */
  lemma ArgumentsDecide(w: World, core: Core, call: Call)
    requires Judged(w, core, call)
    ensures var a, step, after := AttemptAt(w, core, call), w.task.steps[core.progress],
        AfterGate(w, core, GateAt(w, core, call));
      && (a.semanticValid <==> RulesMet(w, core, call.arguments))
      && (!RulesMet(w, core, call.arguments) ==>
            a.error == Some("invalid_task_arguments") && !a.advancedTask && after == core)
      && (RulesMet(w, core, call.arguments) && step.failOnce != "" && core.progress !in core.failedOnce ==>
            a.error == Some(step.failOnce) && !a.advancedTask && after.progress == core.progress)
      && (RulesMet(w, core, call.arguments) && (step.failOnce == "" || core.progress in core.failedOnce) ==>
            a.error == None && a.advancedTask && after.progress == core.progress + 1)
  {
    var rules := w.task.steps[core.progress].rules;
    if rules.Some? {
      forall k | k in rules.value && k in call.arguments
        ensures RuleValid(w.render, rules.value[k], call.arguments[k], core.state)
            <==> Accepted(w.render, rules.value[k], call.arguments[k], core.state)
      {
        RuleExactly(w.render, rules.value[k], call.arguments[k], core.state);
      }
    }
    hide RuleValid, Accepted, Resolve, SchemaFault, Shown, Absorb;
  }

  /** One judged call of a step with one rule. */
  ghost predicate JudgedOnce(w: World, core: Core, call: Call, key: string, rule: Rule) {
    Judged(w, core, call) && w.task.steps[core.progress].rules == Some(map[key := rule])
  }

  lemma OneRuleDecides(w: World, core: Core, call: Call, key: string, rule: Rule)
    requires JudgedOnce(w, core, call, key, rule)
    ensures AttemptAt(w, core, call).semanticValid <==>
      key in call.arguments && Accepted(w.render, rule, call.arguments[key], core.state)
  {
    ArgumentsDecide(w, core, call);
    hide Judged, AttemptAt, GateAt, AfterGate, Accepted;
  }

  /** An `eq` text accepts exactly that text. */
  lemma TextRuleAccepts(w: World, core: Core, call: Call, key: string, s: string)
    requires JudgedOnce(w, core, call, key, Equals(Str(s)))
    ensures AttemptAt(w, core, call).semanticValid <==> key in call.arguments && call.arguments[key] == Str(s)
  {
    OneRuleDecides(w, core, call, key, Equals(Str(s)));
    hide JudgedOnce, AttemptAt;
  }

  /** An `eq` number accepts exactly the numbers of that value, and no boolean. */
  lemma NumberRuleAccepts(w: World, core: Core, call: Call, key: string, i: int)
    requires JudgedOnce(w, core, call, key, Equals(Int(i)))
    ensures AttemptAt(w, core, call).semanticValid <==>
      key in call.arguments && (call.arguments[key] == Int(i) || call.arguments[key] == Num(i as real))
  {
    OneRuleDecides(w, core, call, key, Equals(Int(i)));
    hide JudgedOnce, AttemptAt;
  }

  /** A `state` entry that holds a text accepts exactly that text, and a missing one nothing. */
  lemma StateRuleAccepts(w: World, core: Core, call: Call, key: string, k: string)
    requires JudgedOnce(w, core, call, key, FromState(k))
    ensures k !in core.state ==> !AttemptAt(w, core, call).semanticValid
    ensures k in core.state && core.state[k].Str? ==>
      (AttemptAt(w, core, call).semanticValid <==> key in call.arguments && call.arguments[key] == core.state[k])
  {
    OneRuleDecides(w, core, call, key, FromState(k));
    hide JudgedOnce, AttemptAt;
  }

  /** A `contains_state` entry accepts exactly the values whose text holds the stored
      value's text, and a missing one nothing. */
  lemma ContainsRuleAccepts(w: World, core: Core, call: Call, key: string, k: string)
    requires JudgedOnce(w, core, call, key, Mentions(k))
    ensures AttemptAt(w, core, call).semanticValid <==>
      k in core.state && key in call.arguments && exists before: string, after: string ::
        w.render(call.arguments[key]) == before + w.render(core.state[k]) + after
  {
    OneRuleDecides(w, core, call, key, Mentions(k));
    hide JudgedOnce, AttemptAt;
  }

  /** `nonempty` accepts exactly the texts with a visible character. */
  lemma NonemptyRuleAccepts(w: World, core: Core, call: Call, key: string)
    requires JudgedOnce(w, core, call, key, ANY_TEXT)
    ensures AttemptAt(w, core, call).semanticValid <==>
      key in call.arguments && call.arguments[key].Str? &&
      exists i | 0 <= i < |call.arguments[key].s| :: !IsSpace(call.arguments[key].s[i])
  {
    OneRuleDecides(w, core, call, key, ANY_TEXT);
    hide JudgedOnce, AttemptAt;
  }

  // ---- Every run ----------------------------------------------------------------------------------------

  /** Step `j` is the last one before step `i` whose observation carries this entry. */
  ghost predicate LastWriter(steps: seq<Step>, i: nat, j: nat, k: string)
    requires i <= |steps|
  {
    && j < i && k in steps[j].observation && k != "status" && k != "error"
    && forall l | j < l < i :: k !in steps[l].observation
  }

  /** The task state holds, under each key, what the last step that carries it wrote. */
  lemma {:induction false} StateIsLastWritten(steps: seq<Step>, i: nat, k: string)
    requires i <= |steps|
    ensures k in Merged(steps[..i]) ==> exists j: nat :: LastWriter(steps, i, j, k)
    ensures forall j: nat | LastWriter(steps, i, j, k) ::
      k in Merged(steps[..i]) && Merged(steps[..i])[k] == steps[j].observation[k]
  {
    if i > 0 {
      StateIsLastWritten(steps, i - 1, k);
      assert steps[..i][..i - 1] == steps[..i - 1];
      assert Merged(steps[..i]) == Absorb(Merged(steps[..i - 1]), steps[i - 1].observation);
      var carried := k in steps[i - 1].observation && k != "status" && k != "error";
      if carried {
        assert LastWriter(steps, i, i - 1, k);
      } else {
        NotWritten(steps, i, k);
        AbsorbLeaves(Merged(steps[..i - 1]), steps[i - 1].observation, k);
        hide LastWriter, Merged, Absorb;
        if k in Merged(steps[..i - 1]) {
          var j: nat :| LastWriter(steps, i - 1, j, k);
          assert LastWriter(steps, i, j, k);
        }
      }
    }
  }

  lemma AbsorbLeaves(state: Object, observation: Object, k: string)
    requires k !in observation || k == "status" || k == "error"
    ensures k in Absorb(state, observation) <==> k in state
    ensures k in state ==> Absorb(state, observation)[k] == state[k]
  {
  }

  lemma NotWritten(steps: seq<Step>, i: nat, k: string)
    requires 0 < i <= |steps| && (k !in steps[i - 1].observation || k == "status" || k == "error")
    ensures forall j: nat | LastWriter(steps, i, j, k) :: LastWriter(steps, i - 1, j, k)
    ensures forall j: nat | LastWriter(steps, i - 1, j, k) :: LastWriter(steps, i, j, k)
  {
  }

  /** Argument `key` of step `i` is chained: its rule compares it with the task state. */
  predicate Chained(step: Step, key: string, k: string) {
    step.rules.Some? && key in step.rules.value && step.rules.value[key] == FromState(k)
  }

  /** The attempt gave, for a chained argument, what the last earlier step wrote there. */
  ghost predicate ArgumentWasWritten(steps: seq<Step>, i: nat, a: Attempt, key: string, k: string)
    requires i < |steps|
  {
    && key in a.arguments
    && exists j: nat | LastWriter(steps, i, j, k) :: SameValue(a.arguments[key], steps[j].observation[k])
  }

  lemma ChainedConsumed(w: World, x: Exec, i: nat, key: string, k: string)
    requires Replays(w, x) && i < x.core.progress && Chained(w.task.steps[i], key, k)
    ensures |Advancing(x.attempts)| == x.core.progress
    ensures ArgumentWasWritten(w.task.steps, i, Advancing(x.attempts)[i], key, k)
  {
    var a, state := Advancing(x.attempts)[i], Merged(w.task.steps[..i]);
    assert Consumes(w, i, a);
    RuleExactly(w.render, FromState(k), a.arguments[key], state);
    StateIsLastWritten(w.task.steps, i, k);
    hide FaultsMatch, Merged, Resolve, SchemaFault, SameValue, LastWriter;
  }

  /** Over every run of the executor: a consumed chained argument equals the value that the
      last earlier step carrying the key wrote - for a text, is that text. */
  lemma ChainedArguments(w: World, calls: seq<Call>, i: nat, key: string, k: string)
    requires i < PerformAll(w, calls).core.progress <= |w.task.steps| && Chained(w.task.steps[i], key, k)
    ensures var log := Advancing(PerformAll(w, calls).attempts);
      i < |log| && ArgumentWasWritten(w.task.steps, i, log[i], key, k)
  {
    EveryRunReplays(w, calls);
    ChainedConsumed(w, PerformAll(w, calls), i, key, k);
    hide Replays, ArgumentWasWritten;
  }

  /** And over every episode of every agent. */
  lemma EpisodeChains(b: Bench, script: seq<Generated>, i: nat, key: string, k: string)
    requires WellFormed(b.world.registry) && Run(b, script).Success?
    requires i < Run(b, script).value.exec.core.progress <= |b.world.task.steps|
    requires Chained(b.world.task.steps[i], key, k)
    ensures var log := Advancing(Run(b, script).value.exec.attempts);
      i < |log| && ArgumentWasWritten(b.world.task.steps, i, log[i], key, k)
  {
    EveryEpisodeKept(b, script);
    ChainedConsumed(b.world, Run(b, script).value.exec, i, key, k);
    hide Run, Replays, ArgumentWasWritten, Bookkept;
  }
}
