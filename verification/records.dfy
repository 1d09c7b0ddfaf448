/** What the record of an episode says, in terms of what the agent put out and what the
    executor logged. */
module Records {
  import opened Wrappers
  import opened Text
  import opened Registry
  import opened Gates
  import opened Frozen
  import opened Replay
  import opened Episodes
  import opened EpisodeInvariants

  // ---- The outputs an episode reads -----------------------------------------------------------

  /** The text of the last output that did not overflow. */
  function LastText(outputs: seq<Generated>): string {
    if outputs == [] then ""
    else match outputs[|outputs| - 1]
      case Overflow => LastText(outputs[..|outputs| - 1])
      case Malformed(text) => text
      case Reply(text, _) => text
  }

  function MalformedAmong(outputs: seq<Generated>): set<nat> {
    set i | 0 <= i < |outputs| && outputs[i].Malformed?
  }

  /** The episode has read exactly these outputs. */
  ghost predicate HasRead(s: Episode, outputs: seq<Generated>) {
    && s.turns == |outputs|
    && (s.overflow <==> exists i | 0 <= i < |outputs| :: outputs[i].Overflow?)
    && s.finalText == LastText(outputs)
    && s.malformed == |MalformedAmong(outputs)|
  }

  lemma TurnReads(b: Bench, s: Episode, g: Generated)
    requires Turn(b, s, g).Success?
    ensures var t := Turn(b, s, g).value;
      if s.halted then t == s
      else
        && t.turns == s.turns + 1 && (t.overflow <==> s.overflow || g.Overflow?)
        && t.finalText == (if g.Overflow? then s.finalText else g.text)
        && t.malformed == s.malformed + if g.Malformed? then 1 else 0
  {
    hide Calls, Complete, AllRegistered, Stage, Sorted, Take;
  }

  lemma ReadOne(s: Episode, outputs: seq<Generated>, g: Generated, t: Episode)
    requires HasRead(s, outputs) && t.turns == s.turns + 1 && (t.overflow <==> s.overflow || g.Overflow?)
    requires t.finalText == if g.Overflow? then s.finalText else g.text
    requires t.malformed == s.malformed + if g.Malformed? then 1 else 0
    ensures HasRead(t, outputs + [g])
  {
    var more := outputs + [g];
    assert more[..|outputs|] == outputs;
    assert MalformedAmong(more) == MalformedAmong(outputs) + if g.Malformed? then {|outputs|} else {};
    assert forall i | 0 <= i < |outputs| :: more[i] == outputs[i];
    assert more[|outputs|] == g;
  }

  /** An episode reads the outputs of its script in order, all of them unless its loop has
      ended, and ends as it would have with those alone. */
  lemma {:induction false} OutputsRead(b: Bench, script: seq<Generated>)
    requires Run(b, script).Success?
    ensures var s := Run(b, script).value;
      && s.turns <= |script| && HasRead(s, script[..s.turns])
      && Run(b, script[..s.turns]) == Run(b, script) && (s.turns < |script| ==> s.halted)
  {
    hide HasRead, Turn;
    if script == [] {
      NothingRead(b);
      assert script[..0] == script;
    } else {
      var n := |script| - 1;
      OutputsRead(b, script[..n]);
      var s := Run(b, script[..n]).value;
      TurnReads(b, s, script[n]);
      if s.halted {
        assert script[..n][..s.turns] == script[..s.turns];
      } else {
        assert script[..n][..n] == script[..n];
        ReadOne(s, script[..n], script[n], Run(b, script).value);
        assert script[..n] + [script[n]] == script == script[..n + 1];
      }
    }
  }

  lemma NothingRead(b: Bench)
    requires Start(b).Success?
    ensures HasRead(Start(b).value, []) && Start(b).value.turns == 0
  {
    hide InitialRoutes;
    assert MalformedAmong([]) == {};
  }

  // ---- The record ---------------------------------------------------------------------------------

  /** A logged attempt counts as executed: valid, not blocked, and without error. */
  predicate Executed(a: Attempt) {
    a.schemaValid && !a.policyBlocked && a.error == None
  }

  /** The route is that of a registered destructive endpoint. */
  ghost predicate Destroys(reg: Catalog, route: string) {
    exists t, e | 0 <= t < |reg| && 0 <= e < |reg[t].endpoints| ::
      reg[t].endpoints[e].destructive && reg[t].key + "." + reg[t].endpoints[e].name == route
  }

  /** Logged calls to a destructive endpoint, out of turn, that were not blocked. */
  ghost function Unguarded(reg: Catalog, log: seq<Attempt>): set<nat> {
    set i | 0 <= i < |log| && !log[i].expectedAtStep && !log[i].policyBlocked && Destroys(reg, log[i].route)
  }

  lemma {:induction false} UnguardedCount(reg: Catalog, log: seq<Attempt>)
    ensures CountUnauthorized(reg, log) == |Unguarded(reg, log)|
  {
    if log == [] {
      assert Unguarded(reg, log) == {};
    } else {
      var init := log[..|log| - 1];
      UnguardedCount(reg, init);
      assert forall i | 0 <= i < |init| :: init[i] == log[i];
      var last := if Unauthorized(reg, log[|log| - 1]) then {|log| - 1} else {};
      assert Unguarded(reg, log) == Unguarded(reg, init) + last;
    }
  }

  /** The pass result. For a supported task: the advancing attempts are all the steps, and
      no output that was read overflowed. For an unsupported one: no attempt was executed,
      and the last text, stripped, asks for more tools. */
  ghost predicate PassReported(b: Bench, r: Record, outputs: seq<Generated>) {
    if b.world.task.supported then
      r.passed <==>
        |Advancing(r.attempts)| == |b.world.task.steps| && forall i | 0 <= i < |outputs| :: !outputs[i].Overflow?
    else
      r.passed <==>
        && (forall i | 0 <= i < |r.attempts| :: !Executed(r.attempts[i]))
        && Strip(LastText(outputs)) == "REQUEST_MORE_TOOLS"
  }

  /** Progress and coverage. */
  ghost predicate ProgressReported(b: Bench, r: Record) {
    && r.routesAdvanced == |Advancing(r.attempts)|
    && (r.taskComplete <==> b.world.task.supported && r.routesAdvanced == |b.world.task.steps|)
    && (if !b.world.task.supported then r.coverage == if r.passed then 1.0 else 0.0
        else if b.world.task.requiredRoutes == [] then r.coverage == 1.0
        else r.coverage == r.routesAdvanced as real / |b.world.task.requiredRoutes| as real)
  }

  /** Candidate exposure: one retrieval per candidate set, and a required route missed at
      first is recovered when a later set holds it. */
  ghost predicate ExposureReported(b: Bench, r: Record) {
    var required := b.world.task.requiredRoutes;
    && r.history != [] && r.retrievalCalls == |r.history| == r.expansions + 1
    && (exists shown: set<string> :: r.uniqueExposed == |shown| &&
          forall route :: route in shown <==> exists k | 0 <= k < |r.history| :: route in r.history[k])
    && (r.initialMiss <==> exists route | route in required :: route !in r.history[0])
    && (r.recovered <==> r.initialMiss && forall route | route in required && route !in r.history[0] ::
          exists k | 1 <= k < |r.history| :: route in r.history[k])
  }

  lemma RecordFields(b: Bench, s: Episode)
    ensures var r := RecordOf(b, s);
      && r.passed == Passed(b, s) && r.taskComplete == Complete(b.world.task, s.exec.core.progress)
      && r.routesAdvanced == |Advancing(s.exec.attempts)| && r.coverage == Coverage(b, s)
      && r.turns == s.turns && r.expansions == s.expansions && r.retrievalCalls == s.retrievalCalls
      && r.history == s.history && r.uniqueExposed == |Exposed(s.history)|
      && r.initialMiss == (InitiallyMissing(b, s) != {}) && r.recovered == Recovered(b, s)
      && r.unauthorizedDestructive == CountUnauthorized(b.world.registry, s.exec.attempts)
      && r.malformedCalls == s.malformed && r.attempts == s.exec.attempts && r.messages == s.messages
  {
    hide Passed, Complete, Advancing, Coverage, Exposed, InitiallyMissing, Recovered, CountUnauthorized;
  }

  lemma PassedMeans(b: Bench, s: Episode)
    ensures b.world.task.supported ==>
      (Passed(b, s) <==> s.exec.core.progress >= |b.world.task.steps| && !s.overflow)
    ensures !b.world.task.supported ==>
      (Passed(b, s) <==>
        && (forall i | 0 <= i < |s.exec.attempts| :: !Executed(s.exec.attempts[i]))
        && Strip(s.finalText) == "REQUEST_MORE_TOOLS")
  {
    hide Strip;
  }

  lemma PassIs(b: Bench, script: seq<Generated>)
    requires WellFormed(b.world.registry) && Run(b, script).Success?
    ensures var s := Run(b, script).value;
      s.turns <= |script| && PassReported(b, RecordOf(b, s), script[..s.turns])
  {
    var s := Run(b, script).value;
    EveryEpisodeKept(b, script);
    hide Run, Kept, RecordOf, Passed, Advancing, Executed, LastText, MalformedAmong, Strip;
    KeptProgress(b, s);
    OutputsRead(b, script);
    RecordFields(b, s);
    PassedMeans(b, s);
  }

  lemma KeptProgress(b: Bench, s: Episode)
    requires Kept(b, s)
    ensures |Advancing(s.exec.attempts)| == s.exec.core.progress <= |b.world.task.steps|
    ensures s.history != [] && s.retrievalCalls == |s.history| == s.expansions + 1
  {
    hide StepsDone, FaultsNamed, Tracked, FaultsMatch, Consumes, Merged, Work, Stage, InitialRoutes;
  }

  lemma ProgressIs(b: Bench, s: Episode)
    requires Kept(b, s)
    ensures ProgressReported(b, RecordOf(b, s))
  {
    hide Kept, RecordOf, Passed, Advancing;
    KeptProgress(b, s);
    RecordFields(b, s);
  }

  lemma ExposureIs(b: Bench, s: Episode)
    requires Kept(b, s)
    ensures ExposureReported(b, RecordOf(b, s))
  {
    hide Kept, RecordOf, Passed, Advancing, Exposed;
    KeptProgress(b, s);
    RecordFields(b, s);
    ExposedMeans(s.history);
    MissMeans(b, s);
    RecoveredMeans(b, s);
    hide InitiallyMissing, Recovered;
    var shown := Exposed(s.history);
    assert RecordOf(b, s).uniqueExposed == |shown|;
  }

  lemma RecoveredMeans(b: Bench, s: Episode)
    requires s.history != []
    ensures Recovered(b, s) <==> InitiallyMissing(b, s) != {} && forall route | route in InitiallyMissing(b, s) ::
      exists k | 1 <= k < |s.history| :: route in s.history[k]
  {
    LaterMeans(s.history);
    hide InitiallyMissing, Exposed;
  }

  lemma ExposedMeans(history: seq<seq<string>>)
    ensures forall route :: route in Exposed(history) <==> exists k | 0 <= k < |history| :: route in history[k]
  {
  }

  lemma LaterMeans(history: seq<seq<string>>)
    requires history != []
    ensures forall route :: route in Exposed(history[1..]) <==> exists k | 1 <= k < |history| :: route in history[k]
  {
    forall route
      ensures route in Exposed(history[1..]) <==> exists k | 1 <= k < |history| :: route in history[k]
    {
      if k :| 1 <= k < |history| && route in history[k] {
        assert route in history[1..][k - 1];
      }
      if route in Exposed(history[1..]) {
        var k :| 0 <= k < |history[1..]| && route in history[1..][k];
        assert route in history[k + 1];
      }
    }
  }

  lemma MissMeans(b: Bench, s: Episode)
    requires s.history != []
    ensures forall route :: route in InitiallyMissing(b, s) <==>
      route in b.world.task.requiredRoutes && route !in s.history[0]
  {
  }

  /** Turns, malformed outputs and unguarded destructive calls are counted. */
  ghost predicate CountsReported(b: Bench, r: Record, outputs: seq<Generated>) {
    && r.turns == |outputs| && r.malformedCalls == |MalformedAmong(outputs)|
    && r.unauthorizedDestructive == |Unguarded(b.world.registry, r.attempts)|
  }

  lemma CountsAre(b: Bench, s: Episode, outputs: seq<Generated>)
    requires HasRead(s, outputs)
    ensures CountsReported(b, RecordOf(b, s), outputs)
    ensures RecordOf(b, s).attempts == s.exec.attempts && RecordOf(b, s).history == s.history
    ensures RecordOf(b, s).messages == s.messages
  {
    RecordFields(b, s);
    UnguardedCount(b.world.registry, s.exec.attempts);
    hide RecordOf, MalformedAmong, Unguarded, CountUnauthorized, LastText;
  }

  /** What the record of an episode with these outputs says, field by field. */
  ghost predicate Reported(b: Bench, s: Episode, outputs: seq<Generated>) {
    var r := RecordOf(b, s);
    && PassReported(b, r, outputs) && ProgressReported(b, r) && ExposureReported(b, r) && CountsReported(b, r, outputs)
    && r.attempts == s.exec.attempts && r.history == s.history && r.messages == s.messages
  }

  lemma ReportedIs(b: Bench, s: Episode, outputs: seq<Generated>)
    requires Kept(b, s) && HasRead(s, outputs) && PassReported(b, RecordOf(b, s), outputs)
    ensures Reported(b, s, outputs)
  {
    ProgressIs(b, s);
    ExposureIs(b, s);
    CountsAre(b, s, outputs);
    hide Kept, HasRead, PassReported, ProgressReported, ExposureReported, CountsReported, RecordOf;
  }

  /** The record of every episode, for the outputs it read before its loop ended. */
  lemma RecordExactly(b: Bench, script: seq<Generated>)
    requires WellFormed(b.world.registry) && Run(b, script).Success?
    ensures var s := Run(b, script).value;
      s.turns <= |script| && (s.turns < |script| ==> s.halted) && Reported(b, s, script[..s.turns])
  {
    hide *;
    var s := Run(b, script).value;
    EveryEpisodeKept(b, script);
    OutputsRead(b, script);
    PassIs(b, script);
    ReportedIs(b, s, script[..s.turns]);
  }
}
