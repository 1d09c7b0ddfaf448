/** What every run of the frozen-corpus executor keeps: it is a replay of the fixture. */
module Replay {
  import opened Wrappers
  import opened JsonValues
  import opened Registry
  import opened Gates
  import opened Frozen

  /** The attempts that advanced the task, in order. */
  function Advancing(log: seq<Attempt>): seq<Attempt> {
    if log == [] then []
    else
      var before, a := Advancing(log[..|log| - 1]), log[|log| - 1];
      if a.advancedTask then before + [a] else before
  }

  /** How many logged attempts carried valid arguments for the expected step: exactly
      those that did work, by advancing or by triggering a scripted fault. */
  function Working(log: seq<Attempt>): nat {
    if log == [] then 0
    else
      var a := log[|log| - 1];
      Working(log[..|log| - 1]) + (if a.expectedAtStep && a.semanticValid then 1 else 0)
  }

  lemma AppendLog(log: seq<Attempt>, a: Attempt)
    ensures Advancing(log + [a]) == Advancing(log) + (if a.advancedTask then [a] else [])
    ensures Working(log + [a]) == Working(log) + (if a.expectedAtStep && a.semanticValid then 1 else 0)
  {
    assert (log + [a])[..|log|] == log;
  }

  /** Attempt `a` is the call that consumed fixture step `i`: right route, valid schema,
      rules met in the state the earlier steps built, and the step's own observation. */
  ghost predicate Consumes(w: World, i: nat, a: Attempt)
    requires i < |w.task.steps|
  {
    var step := w.task.steps[i];
    && a.route == step.route
    && Resolve(w.registry, a.route).Some?
    && SchemaFault(Resolve(w.registry, a.route).value, a.arguments).None?
    && ArgumentsValid(w.render, step, a.arguments, Merged(w.task.steps[..i]))
    && a.schemaValid && a.semanticValid && a.expectedAtStep && !a.policyBlocked
    && a.error == None
    && a.observation == Shown(step)
  }

  /** The fault of step `i` was seen in the log. */
  ghost predicate FaultLogged(w: World, i: nat, log: seq<Attempt>)
    requires i < |w.task.steps|
  {
    exists a :: a in log && a.route == w.task.steps[i].route && a.expectedAtStep && a.semanticValid
      && !a.advancedTask && a.error == Some(w.task.steps[i].failOnce)
  }

  /** The advancing attempts are the first `p` steps, in order. */
  ghost predicate ConsumedPrefix(w: World, p: nat, advancing: seq<Attempt>) {
    p <= |w.task.steps| && |advancing| == p && forall i | 0 <= i < p :: Consumes(w, i, advancing[i])
  }

  /** Remembered faults: every faulty step passed, at most the current one besides, and
      each was seen in the log. */
  ghost predicate FaultsMatch(w: World, p: nat, failedOnce: set<nat>, log: seq<Attempt>) {
    && (forall i | i in failedOnce :: i <= p && i < |w.task.steps| && w.task.steps[i].failOnce != "")
    && (forall i | 0 <= i < p && i < |w.task.steps| && w.task.steps[i].failOnce != "" :: i in failedOnce)
    && (forall i | i in failedOnce && i < |w.task.steps| :: FaultLogged(w, i, log))
  }

  /** The executor's fields are a function of how far the fixture has been replayed. */
  ghost predicate Replays(w: World, x: Exec) {
    var p := x.core.progress;
    && p <= |w.task.steps|
    && (!w.task.supported ==> p == 0)
    && x.core.state == Merged(w.task.steps[..p])
    && ConsumedPrefix(w, p, Advancing(x.attempts))
    && FaultsMatch(w, p, x.core.failedOnce, x.attempts)
    && Working(x.attempts) == p + |x.core.failedOnce|
  }

  lemma AbsorbShown(state: Object, step: Step)
    ensures Absorb(state, Shown(step)) == Absorb(state, step.observation)
  {
  }

  lemma FaultLoggedGrows(w: World, i: nat, log: seq<Attempt>, a: Attempt)
    requires i < |w.task.steps| && FaultLogged(w, i, log)
    ensures FaultLogged(w, i, log + [a])
  {
    var b :| b in log && b.route == w.task.steps[i].route && b.expectedAtStep && b.semanticValid
      && !b.advancedTask && b.error == Some(w.task.steps[i].failOnce);
    assert b in log + [a];
  }

  /** What each gate records: the attempt's flags tell the two working gates apart
      from every other, and those two fire only on the expected step. */
  lemma GateFlags(w: World, core: Core, call: Call)
    requires core.progress <= |w.task.steps|
    ensures var g, a := GateAt(w, core, call), AttemptAt(w, core, call);
      && (a.advancedTask <==> g.Advances?)
      && (a.expectedAtStep && a.semanticValid <==> g.Advances? || g.FailsOnce?)
      && (g.Advances? || g.FailsOnce? ==>
            call.allowed && call.available && w.task.supported && core.progress < |w.task.steps|
            && call.route == w.task.steps[core.progress].route)
      && (g.FailsOnce? ==>
            && w.task.steps[core.progress].failOnce != ""
            && a.error == Some(w.task.steps[core.progress].failOnce)
            && core.progress !in core.failedOnce)
      && (g.Advances? ==>
            && g.shown == Shown(w.task.steps[core.progress])
            && (w.task.steps[core.progress].failOnce != "" ==> core.progress in core.failedOnce))
  {
  }

  lemma AdvanceConsumes(w: World, core: Core, call: Call)
    requires GateAt(w, core, call).Advances? && core.progress < |w.task.steps|
    requires core.state == Merged(w.task.steps[..core.progress])
    ensures Consumes(w, core.progress, AttemptAt(w, core, call))
  {
  }

  lemma ConsumedGrows(w: World, p: nat, advancing: seq<Attempt>, a: Attempt)
    requires ConsumedPrefix(w, p, advancing) && p < |w.task.steps| && Consumes(w, p, a)
    ensures ConsumedPrefix(w, p + 1, advancing + [a])
  {
  }

  lemma FaultsGrow(w: World, p: nat, failedOnce: set<nat>, log: seq<Attempt>, a: Attempt)
    requires FaultsMatch(w, p, failedOnce, log)
    ensures FaultsMatch(w, p, failedOnce, log + [a])
  {
    forall i | i in failedOnce && i < |w.task.steps| ensures FaultLogged(w, i, log + [a]) {
      FaultLoggedGrows(w, i, log, a);
    }
  }

  lemma FaultAdds(w: World, p: nat, failedOnce: set<nat>, log: seq<Attempt>, a: Attempt)
    requires FaultsMatch(w, p, failedOnce, log)
    requires p < |w.task.steps| && w.task.steps[p].failOnce != ""
    requires a.route == w.task.steps[p].route && a.expectedAtStep && a.semanticValid && !a.advancedTask
    requires a.error == Some(w.task.steps[p].failOnce)
    ensures FaultsMatch(w, p, failedOnce + {p}, log + [a])
  {
    FaultsGrow(w, p, failedOnce, log, a);
    assert a in log + [a];
    assert FaultLogged(w, p, log + [a]);
  }

  lemma FaultsPassed(w: World, p: nat, failedOnce: set<nat>, log: seq<Attempt>)
    requires FaultsMatch(w, p, failedOnce, log)
    requires p < |w.task.steps| && (w.task.steps[p].failOnce != "" ==> p in failedOnce)
    ensures FaultsMatch(w, p + 1, failedOnce, log)
  {
  }

  lemma AdvanceKeeps(w: World, x: Exec, a: Attempt)
    requires Replays(w, x) && w.task.supported && x.core.progress < |w.task.steps|
    requires Consumes(w, x.core.progress, a) && a.advancedTask
    requires w.task.steps[x.core.progress].failOnce != "" ==> x.core.progress in x.core.failedOnce
    ensures var p := x.core.progress;
      Replays(w, Exec(Core(p + 1, Absorb(x.core.state, Shown(w.task.steps[p])), x.core.failedOnce),
                      x.attempts + [a]))
  {
    var p := x.core.progress;
    AppendLog(x.attempts, a);
    ConsumedGrows(w, p, Advancing(x.attempts), a);
    FaultsGrow(w, p, x.core.failedOnce, x.attempts, a);
    FaultsPassed(w, p, x.core.failedOnce, x.attempts + [a]);
    MergedNext(w.task.steps, p);
  }

  lemma MergedNext(steps: seq<Step>, p: nat)
    requires p < |steps|
    ensures Merged(steps[..p + 1]) == Absorb(Merged(steps[..p]), Shown(steps[p]))
  {
    AbsorbShown(Merged(steps[..p]), steps[p]);
    assert steps[..p + 1][..p] == steps[..p];
  }

  lemma FaultKeeps(w: World, x: Exec, a: Attempt)
    requires Replays(w, x) && x.core.progress < |w.task.steps|
    requires a.route == w.task.steps[x.core.progress].route
    requires a.expectedAtStep && a.semanticValid && !a.advancedTask
    requires w.task.steps[x.core.progress].failOnce != "" && x.core.progress !in x.core.failedOnce
    requires a.error == Some(w.task.steps[x.core.progress].failOnce)
    ensures Replays(w, Exec(x.core.(failedOnce := x.core.failedOnce + {x.core.progress}), x.attempts + [a]))
  {
    AppendLog(x.attempts, a);
    FaultAdds(w, x.core.progress, x.core.failedOnce, x.attempts, a);
  }

  lemma NoiseKeeps(w: World, x: Exec, a: Attempt)
    requires Replays(w, x) && !a.advancedTask && !(a.expectedAtStep && a.semanticValid)
    ensures Replays(w, Exec(x.core, x.attempts + [a]))
  {
    AppendLog(x.attempts, a);
    FaultsGrow(w, x.core.progress, x.core.failedOnce, x.attempts, a);
  }

  /** One call keeps the replay invariant. */
  lemma PerformReplays(w: World, x: Exec, call: Call)
    requires Replays(w, x)
    ensures Replays(w, Perform(w, x, call))
  {
    var a, g := AttemptAt(w, x.core, call), GateAt(w, x.core, call);
    GateFlags(w, x.core, call);
    assert Perform(w, x, call) == Exec(AfterGate(w, x.core, g), x.attempts + [a]);
    if g.Advances? {
      AdvanceConsumes(w, x.core, call);
      AdvanceKeeps(w, x, a);
    } else if g.FailsOnce? {
      FaultKeeps(w, x, a);
    } else {
      assert AfterGate(w, x.core, g) == x.core;
      NoiseKeeps(w, x, a);
    }
  }

  /** After any calls at all, the executor has replayed a prefix of its fixture: the
      advancing attempts are the first steps in order, the state is their merge, and
      the remembered faults are exactly those passed, plus at most the current one. */
  lemma {:induction false} EveryRunReplays(w: World, calls: seq<Call>)
    ensures Replays(w, PerformAll(w, calls))
  {
    if calls == [] {
    } else {
      EveryRunReplays(w, calls[..|calls| - 1]);
      PerformReplays(w, PerformAll(w, calls[..|calls| - 1]), calls[|calls| - 1]);
    }
  }

  // ---- Noise -----------------------------------------------------------------------

  /** The calls that changed the task, by advancing it or by using up a fault. */
  function Effective(w: World, calls: seq<Call>): seq<Call> {
    if calls == [] then []
    else
      var init, last := calls[..|calls| - 1], calls[|calls| - 1];
      var g := GateAt(w, PerformAll(w, init).core, last);
      if g.Advances? || g.FailsOnce? then Effective(w, init) + [last] else Effective(w, init)
  }

  /** Every other call - unknown, hidden, blocked, malformed, parallel, off-script - can
      be deleted from the run without changing progress, state or remembered faults. */
  lemma {:induction false} NoiseIsInvisible(w: World, calls: seq<Call>)
    ensures PerformAll(w, Effective(w, calls)).core == PerformAll(w, calls).core
    ensures |Effective(w, calls)| == Working(PerformAll(w, calls).attempts)
  {
    if calls == [] {
    } else {
      var init, last := calls[..|calls| - 1], calls[|calls| - 1];
      NoiseIsInvisible(w, init);
      EveryRunReplays(w, init);
      var before, kept := PerformAll(w, init), Effective(w, init);
      GateFlags(w, before.core, last);
      AppendLog(before.attempts, AttemptAt(w, before.core, last));
      assert PerformAll(w, calls) == Perform(w, before, last);
      assert (kept + [last])[..|kept|] == kept;
    }
  }

  /** Finishing takes one working call per step and one per scripted fault. */
  function Faulty(steps: seq<Step>): set<nat> {
    set i: nat | i < |steps| && steps[i].failOnce != ""
  }

  lemma CompletionCost(w: World, x: Exec)
    requires Replays(w, x) && Complete(w.task, x.core.progress)
    ensures x.core.failedOnce == Faulty(w.task.steps)
    ensures Working(x.attempts) == |w.task.steps| + |Faulty(w.task.steps)|
  {
    assert forall i :: i in x.core.failedOnce <==> i in Faulty(w.task.steps);
  }

  // ---- Safety --------------------------------------------------------------------------

  ghost predicate AllAuthorized(reg: Catalog, log: seq<Attempt>) {
    forall i | 0 <= i < |log| :: !Unauthorized(reg, log[i])
  }

  lemma PerformSafe(w: World, x: Exec, call: Call)
    requires Dependable(w.registry, call.route) && AllAuthorized(w.registry, x.attempts)
    ensures AllAuthorized(w.registry, Perform(w, x, call).attempts)
  {
    var core := x.core;
    var expected := IsExpected(w, core, call.route);
    GateSafety(w.registry, call, expected,
      !expected || ArgumentsValid(w.render, w.task.steps[core.progress], call.arguments, core.state),
      if expected && w.task.steps[core.progress].failOnce != "" && core.progress !in core.failedOnce
        then Some(w.task.steps[core.progress].failOnce) else None,
      if expected then Shown(w.task.steps[core.progress]) else map[]);
  }

  /** While calls keep to dependable routes, no logged attempt is unauthorized. */
  lemma {:induction false} NoUnauthorizedExecution(w: World, calls: seq<Call>)
    requires forall i | 0 <= i < |calls| :: Dependable(w.registry, calls[i].route)
    ensures AllAuthorized(w.registry, PerformAll(w, calls).attempts)
  {
    if calls == [] {
    } else {
      var init, last := calls[..|calls| - 1], calls[|calls| - 1];
      NoUnauthorizedExecution(w, init);
      PerformSafe(w, PerformAll(w, init), last);
    }
  }
}
