/** The built corpora as a whole: every supported task is passable within the turn limit. */
module Corpora {
  import opened Text
  import opened Registry
  import opened Frozen
  import opened Replay
  import opened BaseCatalog
  import opened Builders
  import opened Solvability
  import opened Episodes
  import opened EpisodeInvariants
  import opened Completion
  import opened StateAwareCount
  import opened TurnCount

  const MAX_TURNS := 6

  function OpsOf(scenario: Scenario): seq<Op> {
    match scenario
    case MaterialSearchCurrent => [MaterialsSearch, MaterialsCurrent]
    case PaperSearchRetrieve => [PapersSearch, PapersRetrieve]
    case PaperSearchRetrieveSummary => [PapersSearch, PapersRetrieve, PapersSummarize]
    case MaterialSearchRetrieveExport => [MaterialsSearch, MaterialsRetrieve, ExportsExport]
    case MaterialRetrieveExport => [MaterialsRetrieve, ExportsExport]
    case CreditCreateShare => [CreditsCreate, MessagingShare]
    case InventoryCreateSend => [InventoryCreate, MessagingSend]
    case CurrentHistory => [MaterialsCurrent, MaterialsHistory]
    case CurrentForecast => [MaterialsCurrent, MaterialsForecast]
    case Direct(op) => [op]
  }

  function FinalOps(stratum: FinalStratum): seq<Op> {
    match stratum
    case SingleProperty => [MaterialsCurrent]
    case LiteratureFact => [PapersRetrieve]
    case MultiSource => [MaterialsCurrent, MaterialsHistory]
    case TransformOrExport => [MaterialsRetrieve, ExportsExport]
    case CorrectiveExpansion => [MaterialsRetrieve, ExportsExport, RuntimeRestart, MessagingSend]
    case Contradiction => [MaterialsForecast]
  }

  function Routes(ops: seq<Op>): seq<string> {
    seq(|ops|, i requires 0 <= i < |ops| => Route(ops[i]))
  }

  lemma ScenarioRoutes(scenario: Scenario, index: nat, failOnce: bool)
    ensures StepRoutes(ScenarioSteps(scenario, index, failOnce)) == Routes(OpsOf(scenario))
  {
    hide Route, Id, Digits, ValueOf, DirectObservation, DirectKey, DirectTarget, Equals, FromState, Mentions;
  }

  lemma FinalRoutes(stratum: FinalStratum, index: nat)
    ensures StepRoutes(FinalSteps(stratum, index)) == Routes(FinalOps(stratum))
    ensures Faulty(FinalSteps(stratum, index)) == {}
  {
    hide Route, Id, Digits, ValueOf, Equals, FromState, Sourced;
  }

  /** No built fixture visits a route twice, so no required route is dropped. */
  lemma RoutesDistinct(ops: seq<Op>)
    requires forall i, j | 0 <= i < j < |ops| :: ops[i] != ops[j]
    ensures |Dedup(Routes(ops))| == |ops|
  {
    forall i, j | 0 <= i < j < |Routes(ops)| ensures Routes(ops)[i] != Routes(ops)[j] {
      if Routes(ops)[i] == Routes(ops)[j] {
        RouteInjective(ops[i], ops[j]);
      }
    }
    DedupLength(Routes(ops));
  }

  // ---- When a built task can be passed -----------------------------------------------------------

  /** What holds of a built task under every condition. Everything shown, it is passable
      within the turn limit; so it is under a progressive condition, whatever the ranking;
      under the state-aware condition a terse agent passes in the least number of turns
      exactly when each position shows the route it needs; and under any other fixed
      candidate set the task is passable exactly when no required route is missing. */
  ghost predicate PassesWhenShown(b: Bench) {
    && |b.world.task.requiredRoutes| == |b.world.task.steps|
    && (b.condition.Full? || b.condition.Oracle? ==> PassableIn(b, MAX_TURNS))
    && (Progressive(b) && AllRegistered(b.world.registry, b.rank(b.world.task.query)) ==> PassableIn(b, MAX_TURNS))
    && (StateAware(b) ==> (PassableTersely(b) <==> ShowsNext(b)))
    && (StateAware(b) && ShowsNext(b) ==> PassableIn(b, MAX_TURNS))
    && (!Progressive(b) && StagedExposure(b) ==>
          (PassableIn(b, MAX_TURNS) <==> forall r | r in b.world.task.requiredRoutes :: r in InitialRoutes(b).value))
  }

  /** A task whose steps can all be done, that drops no route to deduplication, and that
      costs at most `least` turns. */
  ghost predicate Ready(b: Bench, least: nat) {
    && WellFormed(b.world.registry) && AllDone(b.world) && !Blank(b.world.task.query)
    && b.world.task == Supported(b.world.task.query, b.world.task.steps) && b.world.task.steps != []
    && |b.world.task.requiredRoutes| == |b.world.task.steps|
    && |b.world.task.steps| + |Faulty(b.world.task.steps)| == least
  }

  lemma ReadyParts(b: Bench, least: nat)
    requires Ready(b, least)
    ensures b.world.task.supported && WellFormed(b.world.registry)
    ensures Solvable(b, RouteIds(b.world.registry))
    ensures forall r :: r in b.world.task.requiredRoutes <==> r in StepRoutes(b.world.task.steps)
  {
    hide Doable, WellFormed, Dedup, RouteIds, Blank, Faulty, StepRoutes;
    forall i | 0 <= i < |b.world.task.steps|
      ensures Doable(b.world, i) && b.world.task.steps[i].route in RouteIds(b.world.registry)
    {
      assert Done(b.world, i);
    }
  }

  lemma StepRoutesAre(steps: seq<Step>, routes: seq<string>)
    ensures (forall i | 0 <= i < |steps| :: steps[i].route in routes) <==>
            (forall r | r in StepRoutes(steps) :: r in routes)
  {
    forall i | 0 <= i < |steps|
      ensures steps[i].route in StepRoutes(steps)
    {
      assert StepRoutes(steps)[i] == steps[i].route;
    }
  }

  /** FULL and ORACLE show registered routes, and every step's route. */
  lemma EverythingVisible(b: Bench, least: nat)
    requires Ready(b, least) && (b.condition.Full? || b.condition.Oracle?)
    ensures StagedExposure(b) && forall r | r in b.world.task.requiredRoutes :: r in InitialRoutes(b).value
  {
    hide Ready, Sorted, RouteIds, Solvable, StepRoutes;
    ReadyParts(b, least);
    RequiredRegistered(b, least);
    SortedKeepsElements(RouteIds(b.world.registry));
    SortedKeepsElements(b.world.task.requiredRoutes);
  }

  lemma RequiredRegistered(b: Bench, least: nat)
    requires Ready(b, least)
    ensures forall r | r in b.world.task.requiredRoutes :: r in RouteIds(b.world.registry)
  {
    ReadyParts(b, least);
    StepRoutesAre(b.world.task.steps, RouteIds(b.world.registry));
    hide Ready, RouteIds, StepRoutes, Doable, Blank;
  }

  /** Under a fixed candidate set a ready task is passable exactly when no required route
      is missing and there is time. */
  lemma FixedReady(b: Bench, least: nat, m: nat)
    requires Ready(b, least) && StagedExposure(b) && !Progressive(b)
    ensures PassableIn(b, m) <==>
      (forall r | r in b.world.task.requiredRoutes :: r in InitialRoutes(b).value) && least <= m
  {
    assert |b.world.task.steps| + |Faulty(b.world.task.steps)| == least;
    ReadyParts(b, least);
    StepRoutesAre(b.world.task.steps, InitialRoutes(b).value);
    TightCompletion(b, m);
    hide Ready, PassableIn, StagedExposure, WellFormed, Doable, Blank, Faulty, InitialRoutes, StepRoutes, RouteIds;
  }

  lemma ProgressiveReady(b: Bench, least: nat, m: nat)
    requires Ready(b, least) && Progressive(b) && AllRegistered(b.world.registry, b.rank(b.world.task.query))
    ensures least + 2 <= m ==> PassableIn(b, m)
    ensures b.rank(b.world.task.query) == [] ==> (PassableIn(b, m) <==> least + 2 <= m)
  {
    assert |b.world.task.steps| + |Faulty(b.world.task.steps)| == least && b.world.task.steps != [];
    ReadyParts(b, least);
    hide Ready, PassableIn, WellFormed, Solvable, Faulty, AllRegistered, RouteIds, StepRoutes;
    ProgressiveSlack(b, m);
  }

  lemma StateAwareReady(b: Bench, least: nat, m: nat)
    requires Ready(b, least) && StateAware(b)
    ensures PassableTersely(b) <==> ShowsNext(b)
    ensures ShowsNext(b) ==> (PassableIn(b, m) <==> least <= m)
  {
    assert |b.world.task.steps| + |Faulty(b.world.task.steps)| == least;
    ReadyParts(b, least);
    hide Ready, PassableIn, PassableTersely, WellFormed, Doable, Faulty, ShowsNext, RouteIds, StepRoutes, Blank;
    TerseTurnCount(b);
    if ShowsNext(b) {
      StateAwareTurnCount(b, m);
    }
  }

  lemma ReadyPasses(b: Bench, least: nat)
    requires Ready(b, least) && least <= 4
    ensures PassesWhenShown(b)
  {
    assert |b.world.task.requiredRoutes| == |b.world.task.steps|;
    hide Ready, PassableIn, PassableTersely, StagedExposure, ShowsNext, AllRegistered, InitialRoutes;
    if b.condition.Full? || b.condition.Oracle? {
      EverythingVisible(b, least);
    }
    if Progressive(b) {
      if AllRegistered(b.world.registry, b.rank(b.world.task.query)) {
        ProgressiveReady(b, least, MAX_TURNS);
      }
    } else if StagedExposure(b) {
      FixedReady(b, least, MAX_TURNS);
    }
    if StateAware(b) {
      StateAwareReady(b, least, MAX_TURNS);
    }
  }

  /** A built task over different operations is ready. */
  lemma ReadyFrom(b: Bench, ops: seq<Op>)
    requires WellFormed(b.world.registry) && AllDone(b.world) && !Blank(b.world.task.query) && ops != []
    requires b.world.task == Supported(b.world.task.query, b.world.task.steps)
    requires StepRoutes(b.world.task.steps) == Routes(ops)
    requires forall i, j | 0 <= i < j < |ops| :: ops[i] != ops[j]
    ensures Ready(b, |ops| + |Faulty(b.world.task.steps)|)
  {
    RoutesDistinct(ops);
    assert |StepRoutes(b.world.task.steps)| == |b.world.task.steps| == |ops|;
    hide WellFormed, AllDone, Blank, Dedup, StepRoutes, Routes, Faulty;
  }

  // ---- Scenarios ------------------------------------------------------------------------------------

  /** Which step of a scenario carries its scripted fault. */
  function FaultAt(scenario: Scenario): nat {
    match scenario
    case PaperSearchRetrieveSummary => 1
    case MaterialSearchRetrieveExport => 2
    case _ => 0
  }

  lemma ScenarioFaults(scenario: Scenario, index: nat, failOnce: bool)
    ensures var steps := ScenarioSteps(scenario, index, failOnce);
      && |steps| == |OpsOf(scenario)|
      && Faulty(steps) == if failOnce then {FaultAt(scenario)} else {}
  {
    hide Route, Id, Digits, ValueOf, DirectObservation, DirectKey, DirectTarget, Equals, FromState, Mentions;
    var steps := ScenarioSteps(scenario, index, failOnce);
    assert |steps| == |OpsOf(scenario)| && FaultAt(scenario) < |steps|;
    assert forall i | 0 <= i < |steps| :: steps[i].failOnce != "" <==> failOnce && i == FaultAt(scenario);
  }

  /** The turns a scenario costs. */
  function ScenarioCost(scenario: Scenario, failOnce: bool): nat {
    |OpsOf(scenario)| + if failOnce then 1 else 0
  }

  /** A built scenario task, for some bench. */
  ghost predicate IsScenario(b: Bench, scenario: Scenario, index: nat, failOnce: bool) {
    && WellFormed(b.world.registry) && Provides(b.world.registry) && !Blank(b.world.task.query)
    && b.world.task == Supported(b.world.task.query, ScenarioSteps(scenario, index, failOnce))
  }

  lemma ScenarioReady(b: Bench, scenario: Scenario, index: nat, failOnce: bool)
    requires IsScenario(b, scenario, index, failOnce)
    ensures Ready(b, ScenarioCost(scenario, failOnce)) && ScenarioCost(scenario, failOnce) <= 4
  {
    hide *;
    ScenarioTask(b, scenario, index, failOnce);
    ScenarioCosts(scenario, index, failOnce);
    ScenarioDone(b.world, scenario, index, failOnce);
    ScenarioRoutes(scenario, index, failOnce);
    OpsDistinct(scenario);
    ReadyFrom(b, OpsOf(scenario));
  }

  lemma ScenarioCosts(scenario: Scenario, index: nat, failOnce: bool)
    ensures OpsOf(scenario) != [] && ScenarioCost(scenario, failOnce) <= 4
    ensures |OpsOf(scenario)| + |Faulty(ScenarioSteps(scenario, index, failOnce))| == ScenarioCost(scenario, failOnce)
  {
    assert OpsOf(scenario) != [] && |OpsOf(scenario)| <= 3;
    hide ScenarioSteps, Faulty, OpsOf, FaultAt;
    ScenarioFaults(scenario, index, failOnce);
  }

  lemma ScenarioTask(b: Bench, scenario: Scenario, index: nat, failOnce: bool)
    requires IsScenario(b, scenario, index, failOnce)
    ensures WellFormed(b.world.registry) && Provides(b.world.registry) && !Blank(b.world.task.query)
    ensures b.world.task == Supported(b.world.task.query, b.world.task.steps)
    ensures b.world.task.steps == ScenarioSteps(scenario, index, failOnce)
  {
    SupportedSteps(b.world.task);
    hide WellFormed, Provides, Blank, ScenarioSteps, Supported;
  }

  lemma SupportedSteps(task: Task)
    ensures forall steps | task == Supported(task.query, steps) :: task.steps == steps
  {
    hide Dedup, StepRoutes;
  }

  lemma OpsDistinct(scenario: Scenario)
    ensures forall i, j | 0 <= i < j < |OpsOf(scenario)| :: OpsOf(scenario)[i] != OpsOf(scenario)[j]
  {
  }

  /** Every scenario, for every index, with or without its fault, drops no required route
      and is passable under every condition that shows what it needs. */
  lemma ScenarioTasksPass(b: Bench, scenario: Scenario, index: nat, failOnce: bool)
    requires IsScenario(b, scenario, index, failOnce)
    ensures PassesWhenShown(b)
  {
    hide IsScenario, Ready, PassesWhenShown, ScenarioCost;
    ScenarioReady(b, scenario, index, failOnce);
    ReadyPasses(b, ScenarioCost(scenario, failOnce));
  }

  /** The exact count: one turn per operation and one for the fault when everything is
      shown, or each position shows what it needs; and two more under a progressive
      condition whose ranking never helps. */
  lemma ScenarioTurnCount(b: Bench, scenario: Scenario, index: nat, failOnce: bool, m: nat)
    requires IsScenario(b, scenario, index, failOnce)
    ensures b.condition.Full? || b.condition.Oracle? ==>
      (PassableIn(b, m) <==> |OpsOf(scenario)| + (if failOnce then 1 else 0) <= m)
    ensures StateAware(b) && ShowsNext(b) ==>
      (PassableIn(b, m) <==> |OpsOf(scenario)| + (if failOnce then 1 else 0) <= m)
    ensures Progressive(b) && b.rank(b.world.task.query) == [] ==>
      (PassableIn(b, m) <==> |OpsOf(scenario)| + (if failOnce then 1 else 0) + 2 <= m)
  {
    hide IsScenario, Ready, PassableIn, OpsOf, ShowsNext;
    ScenarioReady(b, scenario, index, failOnce);
    ReadyTurnCount(b, ScenarioCost(scenario, failOnce), m);
  }

  lemma ReadyTurnCount(b: Bench, least: nat, m: nat)
    requires Ready(b, least)
    ensures b.condition.Full? || b.condition.Oracle? ==> (PassableIn(b, m) <==> least <= m)
    ensures StateAware(b) && ShowsNext(b) ==> (PassableIn(b, m) <==> least <= m)
    ensures Progressive(b) && b.rank(b.world.task.query) == [] ==> (PassableIn(b, m) <==> least + 2 <= m)
  {
    hide Ready, PassableIn, PassableTersely, StagedExposure, InitialRoutes, AllRegistered, ShowsNext;
    if b.condition.Full? || b.condition.Oracle? {
      EverythingVisible(b, least);
      FixedReady(b, least, m);
    }
    if StateAware(b) {
      StateAwareReady(b, least, m);
    }
    if Progressive(b) && b.rank(b.world.task.query) == [] {
      NothingRanked(b.world.registry);
      ProgressiveReady(b, least, m);
    }
  }

  lemma NothingRanked(reg: Catalog)
    ensures AllRegistered(reg, [])
  {
  }

  /** The turn limit is tight: a three-step scenario with its fault needs all six turns
      under a progressive condition whose ranking never helps. */
  lemma TurnLimitIsTight(b: Bench, scenario: Scenario, index: nat)
    requires IsScenario(b, scenario, index, true) && |OpsOf(scenario)| == 3
    requires Progressive(b) && b.rank(b.world.task.query) == []
    ensures PassableIn(b, MAX_TURNS) && !PassableIn(b, MAX_TURNS - 1)
  {
    hide IsScenario, PassableIn;
    ScenarioTurnCount(b, scenario, index, true, MAX_TURNS);
    ScenarioTurnCount(b, scenario, index, true, MAX_TURNS - 1);
  }

  // ---- The three corpora ------------------------------------------------------------------------------

  /** Every task of the corrective corpus. */
  lemma CorrectiveTasksPass(b: Bench, stratum: CorrectiveStratum, ordinal: int, index: nat)
    requires WellFormed(b.world.registry) && Provides(b.world.registry) && !Blank(b.world.task.query)
    requires b.world.task == BuildCorrective(stratum, ordinal, index, b.world.task.query)
    ensures PassesWhenShown(b)
  {
    var list := CorrectiveScenarios(stratum);
    hide Provides, WellFormed, ScenarioSteps, Supported, PassesWhenShown, CorrectiveScenarios;
    ScenarioTasksPass(b, list[(ordinal - 1) % |list|], index, stratum.RecoverableFailure?);
  }

  /** Every task of the held-out corpus: a task is unsupported exactly in the three strata
      without scenarios, and passable otherwise. */
  lemma HeldoutTasksPass(b: Bench, stratum: HeldoutStratum, ordinal: int, index: nat)
    requires WellFormed(b.world.registry) && Provides(b.world.registry) && !Blank(b.world.task.query)
    requires b.world.task == BuildHeldout(stratum, ordinal, index, b.world.task.query)
    ensures b.world.task.supported <==>
      !(stratum.InsufficientInformation? || stratum.MissingCapability? || stratum.OutOfDomain?)
    ensures b.world.task.supported ==> PassesWhenShown(b)
  {
    var list := HeldoutScenarios(stratum);
    HeldoutSupport(stratum, ordinal, index, b.world.task.query);
    if list != [] {
      hide *;
      HeldoutIsScenario(b, stratum, ordinal, index);
      ScenarioTasksPass(b, list[(ordinal - 1) % |list|], index, stratum.HeldoutFailure?);
    }
  }

  lemma HeldoutSupport(stratum: HeldoutStratum, ordinal: int, index: nat, query: string)
    ensures HeldoutScenarios(stratum) == [] <==>
      stratum.InsufficientInformation? || stratum.MissingCapability? || stratum.OutOfDomain?
    ensures BuildHeldout(stratum, ordinal, index, query).supported <==> HeldoutScenarios(stratum) != []
  {
    assert HeldoutScenarios(stratum) == [] <==>
      stratum.InsufficientInformation? || stratum.MissingCapability? || stratum.OutOfDomain?;
    hide HeldoutScenarios, ScenarioSteps, Dedup, StepRoutes;
  }

  lemma HeldoutIsScenario(b: Bench, stratum: HeldoutStratum, ordinal: int, index: nat)
    requires WellFormed(b.world.registry) && Provides(b.world.registry) && !Blank(b.world.task.query)
    requires b.world.task == BuildHeldout(stratum, ordinal, index, b.world.task.query)
    requires HeldoutScenarios(stratum) != []
    ensures var list := HeldoutScenarios(stratum);
      IsScenario(b, list[(ordinal - 1) % |list|], index, stratum.HeldoutFailure?)
  {
    hide HeldoutScenarios, ScenarioSteps, Dedup, StepRoutes, WellFormed, Provides, Blank, Supported;
    var list := HeldoutScenarios(stratum);
    assert BuildHeldout(stratum, ordinal, index, b.world.task.query) == Supported(
      b.world.task.query, ScenarioSteps(list[(ordinal - 1) % |list|], index, stratum.HeldoutFailure?));
  }

  lemma FinalReady(b: Bench, stratum: FinalStratum, index: nat)
    requires WellFormed(b.world.registry) && Provides(b.world.registry) && !Blank(b.world.task.query)
    requires b.world.task == BuildFinal(stratum, index, b.world.task.query)
    ensures Ready(b, |FinalOps(stratum)|) && |FinalOps(stratum)| <= 4
  {
    assert FinalOps(stratum) != [] && |FinalOps(stratum)| <= 4;
    FinalOpsDistinct(stratum);
    hide AllDone, Provides, WellFormed, FinalSteps, Faulty, Blank, Routes, Dedup, FinalOps, StepRoutes, Ready;
    FinalDone(b.world, stratum, index);
    FinalRoutes(stratum, index);
    ReadyFrom(b, FinalOps(stratum));
  }

  lemma FinalOpsDistinct(stratum: FinalStratum)
    ensures forall i, j | 0 <= i < j < |FinalOps(stratum)| :: FinalOps(stratum)[i] != FinalOps(stratum)[j]
  {
  }

  /** Every task of the final-answer corpus. */
  lemma FinalTasksPass(b: Bench, stratum: FinalStratum, index: nat)
    requires WellFormed(b.world.registry) && Provides(b.world.registry) && !Blank(b.world.task.query)
    requires b.world.task == BuildFinal(stratum, index, b.world.task.query)
    ensures PassesWhenShown(b)
  {
    hide WellFormed, Provides, Ready, PassesWhenShown, Builders.BuildFinal, Blank;
    FinalReady(b, stratum, index);
    ReadyPasses(b, |FinalOps(stratum)|);
  }

  /** So does the four-step stratum of the final-answer corpus. */
  lemma TurnLimitIsTightForFinals(b: Bench, index: nat)
    requires WellFormed(b.world.registry) && Provides(b.world.registry) && !Blank(b.world.task.query)
    requires b.world.task == BuildFinal(CorrectiveExpansion, index, b.world.task.query)
    requires Progressive(b) && b.rank(b.world.task.query) == []
    ensures PassableIn(b, MAX_TURNS) && !PassableIn(b, MAX_TURNS - 1)
  {
    assert |FinalOps(CorrectiveExpansion)| == 4 && MAX_TURNS == 6;
    hide *;
    FinalReady(b, CorrectiveExpansion, index);
    ReadyTurnCount(b, 4, 6);
    ReadyTurnCount(b, 4, 5);
  }
}
