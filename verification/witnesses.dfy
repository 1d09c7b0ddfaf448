/** Concrete inputs at which the harness does not do what its documentation suggests. */
module Witnesses {
  import opened Wrappers
  import opened Text
  import opened JsonValues
  import opened Registry
  import opened Frozen
  import opened Replay
  import opened BaseCatalog
  import opened Builders
  import opened Episodes
  import opened EpisodeInvariants
  import opened EpisodeTheorems
  import opened Completion
  import opened TurnCount
  import opened StateAwareCount
  import Corpora
  import opened Working
  import B2Suite
  import Projection
  import Tracker

  // ---- Names ----------------------------------------------------------------------------------

  /** A namespaced tool's endpoint: the name it is offered under calls another route. */
  lemma NamespacedNameIsLost()
    ensures CalledRoute(OfferedName("n.t.e")) != "n.t.e"
  {
    TwoDots();
    hide OfferedName, CalledRoute, Dots;
    OfferedNameRoundTrip("n.t.e");
  }

  lemma TwoDots()
    ensures Dots("n.t.e") == 2
  {
    assert Dots("t.e") == 1 by {
      assert "t.e"[1..] == ".e" && ".e"[1..] == "e" && "e"[1..] == "";
      assert Dots(".e") == 1;
    }
    assert "n.t.e"[1..] == ".t.e" && ".t.e"[1..] == "t.e";
    assert Dots(".t.e") == 2;
  }

  // ---- Projection -------------------------------------------------------------------------------

  /** With the contract entry itself planned and contracted, the second projection adds to
      what the first one added. */
  lemma SecondProjectionDiffers()
    ensures
      var observation: Object := map["v" := Int(1)];
      var contracts: Object := map["v" := Null, "field_contracts" := Null];
      var planned := ["v", "field_contracts"];
      var once := Projection.Project(observation, Projection.ProjectedContract, planned, [], contracts);
      Projection.Project(once, Projection.ProjectedContract, planned, [], contracts) != once
  {
    var observation: Object, contracts: Object := map["v" := Int(1)], map["v" := Null, "field_contracts" := Null];
    var planned := ["v", "field_contracts"];
    assert planned[0] == "v" && planned[1] == "field_contracts";
    assert Projection.Contracted(observation, planned, contracts, "v");
    assert "field_contracts" != "v";
    Projection.IdempotentExactly(observation, Projection.ProjectedContract, planned, [], contracts);
    hide Projection.Project;
  }

  // ---- Episodes ------------------------------------------------------------------------------------

  /** Listing the inventory, with a scripted observation. */
  function Listing(observation: Object): Step {
    MakeStep(InventoryList, map[], observation, "")
  }

  /** The base catalog, everything shown. */
  function Demo(steps: seq<Step>): Bench {
    Bench(
      World(BaseTools(), Supported("list", steps), (v: Json) => if v.Str? then v.s else ""),
      Full, "", (q: string) => [], (q: string, k: nat) => [], (t: Tracker.State) => "", None)
  }

  lemma DemoExposure(steps: seq<Step>)
    ensures WellFormed(BaseTools()) && Provides(BaseTools())
    ensures StagedExposure(Demo(steps)) && !Blank("list")
    ensures Route(InventoryList) in InitialRoutes(Demo(steps)).value
  {
    hide WellFormed, Provides, RouteIds, Sorted, BaseTools, Route;
    BaseWellFormed();
    ExtendedCatalogProvides(BaseTools());
    assert Route(InventoryList) in RouteIds(BaseTools()) by { ListingListed(); }
    SortedKeepsElements(RouteIds(BaseTools()));
    assert !IsSpace("list"[0]);
  }

  lemma ListingListed()
    ensures Route(InventoryList) in RouteIds(BaseTools())
    ensures Resolve(BaseTools(), Route(InventoryList)) == Some(Spec(InventoryList))
  {
    BaseWellFormed();
    ExtendedCatalogProvides(BaseTools());
    hide BaseTools, Route, RouteIds, Resolve, WellFormed, Spec;
  }

  lemma ListingFits(steps: seq<Step>, observation: Object, i: nat)
    requires i < |steps| && steps[i] == Listing(observation)
    ensures Fits(Demo(steps).world, i, map[]) && Callable(steps[i].route) && steps[i].failOnce == ""
  {
    ListingListed();
    B2Suite.NoArguments();
    RouteCallable(InventoryList);
    hide BaseTools, Route, Resolve, SchemaFault, Spec, Callable, Merged, Dedup;
  }

  /** The call that lists the inventory, as a model writes it. */
  const LIST := ToolCall("inventory__list", map[])

  lemma ListCalls()
    ensures CalledRoute(LIST.name) == Route(InventoryList)
  {
    InventoryClean();
    ListRoute();
    hide CalledRoute, Route, NoDunder;
    SplicedName("inventory", "list");
    assert LIST.name == "inventory" + "__" + "list";
  }

  lemma InventoryClean()
    ensures NoDunder("inventory" + "_")
  {
  }

  lemma ListRoute()
    ensures Route(InventoryList) == "inventory" + "." + "list"
  {
  }

  /** An unknown status in a fixture: this one call makes the episode raise. */
  lemma UnknownStatusRaises()
    ensures Run(Demo([Listing(map["status" := Str("done")])]), [Reply("", [LIST])]).Failure?
  {
    var observation: Object := map["status" := Str("done")];
    var steps := [Listing(observation)];
    var b := Demo(steps);
    DemoExposure(steps);
    DemoTask(steps);
    hide *;
    StartPlaced(b);
    ListingWaits(steps, observation);
    FittingTurn(b, Run(b, []).value, "", LIST);
    RunNext(b, [], Reply("", [LIST]));
    assert [] + [Reply("", [LIST])] == [Reply("", [LIST])];
  }

  /** At the start the listing call fits, and what it emits is rejected. */
  lemma ListingWaits(steps: seq<Step>, observation: Object)
    requires steps == [Listing(observation)] && observation == map["status" := Str("done")]
    requires Placed(Demo(steps), [], 0, false)
    ensures var b := Demo(steps);
      && Run(b, []).Success? && Kept(b, Run(b, []).value) && !Run(b, []).value.halted
      && AllRegistered(b.world.registry, Run(b, []).value.visible)
      && Fitting(b, Run(b, []).value, LIST) && !CallTrackable(b.world, Run(b, []).value.exec.core)
  {
    var b := Demo(steps);
    DemoExposure(steps);
    DemoTask(steps);
    ListCalls();
    ListingFits(steps, observation, 0);
    ListingRoute(observation);
    UnknownStatus(observation);
    ShownRegistered(b, 0);
    FixedShows(b);
    assert ShownAt(b, 0) == ShownAt(b, 2) by { hide InitialRoutes; }
    hide WellFormed, StagedExposure, StepTrackable, Run, BaseTools, Blank, Listing, Provides, Route, Fits, Kept, Demo,
      InitialRoutes, ShownAt, AllRegistered, CalledRoute, Callable, Faulty, Dedup, StepRoutes;
  }

  lemma UnknownStatus(observation: Object)
    requires observation == map["status" := Str("done")]
    ensures !StepTrackable(Listing(observation))
  {
    assert Shown(Listing(observation)) == observation;
  }

  lemma DemoTask(steps: seq<Step>)
    ensures var b := Demo(steps);
      && b.world.registry == BaseTools() && b.world.task.query == "list" && b.world.task.supported
      && b.world.task.steps == steps && b.world.task.requiredRoutes == Dedup(StepRoutes(steps))
      && !Progressive(b) && InitialRoutes(b).Success?
  {
    hide BaseTools, Dedup, StepRoutes, Sorted, RouteIds;
  }

  lemma FixedShows(b: Bench)
    requires !Progressive(b) && InitialRoutes(b).Success?
    ensures ShownAt(b, 2) == InitialRoutes(b).value
  {
    hide InitialRoutes;
  }

  lemma ListingRoute(observation: Object)
    ensures Listing(observation).route == Route(InventoryList)
  {
    hide Route;
  }

  /** Listing twice: the fixture repeats a route, and completing it covers more than all. */
  lemma RepeatedRouteExceedsOne()
    ensures var b := Demo([Listing(map["status" := OK]), Listing(map["status" := OK])]);
      exists script ::
        Run(b, script).Success? && Passed(b, Run(b, script).value) && Coverage(b, Run(b, script).value) > 1.0
  {
    var observation: Object := map["status" := OK];
    var steps := [Listing(observation), Listing(observation)];
    var b := Demo(steps);
    hide WellFormed, StagedExposure, Run, BaseTools, Blank, Listing, Provides, Route, Demo, Doable, Passed, Coverage,
      InitialRoutes, Solvable;
    DemoExposure(steps);
    DemoTask(steps);
    TwiceSolvable(steps, observation);
    TightCompletion(b, 2);
    var script :| |script| == 2 && Run(b, script).Success? && Passed(b, Run(b, script).value);
    TwiceCovers(steps, observation, script);
  }

  lemma TwiceSolvable(steps: seq<Step>, observation: Object)
    requires steps == [Listing(observation), Listing(observation)] && observation == map["status" := OK]
    ensures Solvable(Demo(steps), InitialRoutes(Demo(steps)).value)
    ensures |steps| + |Faulty(steps)| == 2
  {
    hide WellFormed, StagedExposure, Fits, Callable, BaseTools, Route, Blank, Listing, InitialRoutes, Demo, Provides,
      StepTrackable, FaultTrackable, Dedup, StepRoutes;
    DemoExposure(steps);
    DemoTask(steps);
    ListingTrackable(observation);
    ListingFits(steps, observation, 0);
    ListingFits(steps, observation, 1);
    ListingRoute(observation);
    assert Faulty(steps) == {};
  }

  lemma ListingTrackable(observation: Object)
    requires observation == map["status" := OK]
    ensures StepTrackable(Listing(observation)) && FaultTrackable(Listing(observation))
  {
    assert Shown(Listing(observation)) == observation;
  }

  lemma TwiceCovers(steps: seq<Step>, observation: Object, script: seq<Generated>)
    requires steps == [Listing(observation), Listing(observation)]
    requires Run(Demo(steps), script).Success? && Passed(Demo(steps), Run(Demo(steps), script).value)
    ensures Coverage(Demo(steps), Run(Demo(steps), script).value) > 1.0
  {
    var b := Demo(steps);
    var s := Run(b, script).value;
    DemoTask(steps);
    PassedIsComplete(b, s);
    hide WellFormed, Run, BaseTools, Blank, Listing, Provides, Demo, Passed, Coverage, Dedup, Complete;
    DemoExposure(steps);
    CoverageMeaning(b, script);
    assert StepRoutes(steps)[0] == StepRoutes(steps)[1];
  }

  lemma PassedIsComplete(b: Bench, s: Episode)
    requires b.world.task.supported && Passed(b, s)
    ensures Complete(b.world.task, s.exec.core.progress)
  {
  }

  // ---- Following the tracker state ---------------------------------------------------------------

  /** Retrieve a material, then export it: a built task, with a ranking that finds the first
      operation for the query and the second for whatever the tracker holds. */
  function Following(index: nat): Bench {
    Bench(
      World(BaseTools(), Supported("list", ScenarioSteps(MaterialRetrieveExport, index, false)),
        (v: Json) => if v.Str? then v.s else ""),
      Sr5StateAware, "",
      (q: string) => if q == "list" then [Route(MaterialsRetrieve)] else [Route(ExportsExport)],
      (q: string, k: nat) => [], (t: Tracker.State) => "state", None)
  }

  lemma FollowingRanks(index: nat)
    ensures var b := Following(index);
      && StateAware(b) && b.world.task.query == "list" && b.world.registry == BaseTools()
      && b.world.task == Supported("list", ScenarioSteps(MaterialRetrieveExport, index, false))
      && TopFive(b, "list") == [Route(MaterialsRetrieve)]
      && forall seen :: TopFive(b, b.renderQuery(seen)) == [Route(ExportsExport)]
  {
    assert forall r: string :: Take([r], 5) == [r] && Sorted([r]) == [r];
    hide BaseTools, Route, Supported, ScenarioSteps, Sorted;
  }

  lemma ExportSteps(index: nat)
    ensures var steps := ScenarioSteps(MaterialRetrieveExport, index, false);
      && |steps| == 2 && Faulty(steps) == {}
      && steps[0].route == Route(MaterialsRetrieve) && steps[1].route == Route(ExportsExport)
  {
    hide BaseTools, Route, ScenarioSteps;
    var steps := ScenarioSteps(MaterialRetrieveExport, index, false);
    Corpora.ScenarioRoutes(MaterialRetrieveExport, index, false);
    Corpora.ScenarioFaults(MaterialRetrieveExport, index, false);
    assert Corpora.OpsOf(MaterialRetrieveExport) == [MaterialsRetrieve, ExportsExport];
    assert StepRoutes(steps)[0] == steps[0].route && StepRoutes(steps)[1] == steps[1].route;
  }

  lemma FollowingSteps(index: nat)
    ensures var b := Following(index);
      && Corpora.IsScenario(b, MaterialRetrieveExport, index, false) && b.world.task.supported
      && b.world.task.steps == ScenarioSteps(MaterialRetrieveExport, index, false)
  {
    hide Following, BaseTools, Route, ScenarioSteps, Dedup, StepRoutes, WellFormed, Provides;
    FollowingRanks(index);
    BaseWellFormed();
    ExtendedCatalogProvides(BaseTools());
    assert !IsSpace("list"[0]);
  }

  /** With the feedback two turns are exactly enough; without it no number of turns is. */
  lemma FeedbackIsNeeded(index: nat, m: nat)
    ensures PassableIn(Following(index), m) <==> 2 <= m
    ensures !PassableIn(WithoutFeedback(Following(index)), m)
  {
    var b := Following(index);
    FollowingRanks(index);
    FollowingSteps(index);
    ExportSteps(index);
    FollowingShows(b);
    hide *;
    Corpora.ScenarioReady(b, MaterialRetrieveExport, index, false);
    Corpora.ReadyParts(b, 2);
    FeedbackRecovers(b, m);
  }

  lemma FollowingShows(b: Bench)
    requires b.world.registry == BaseTools() && b.world.task.query == "list"
    requires TopFive(b, "list") == [Route(MaterialsRetrieve)]
    requires forall seen :: TopFive(b, b.renderQuery(seen)) == [Route(ExportsExport)]
    requires |b.world.task.steps| == 2 && Faulty(b.world.task.steps) == {}
    requires b.world.task.steps[0].route == Route(MaterialsRetrieve)
    requires b.world.task.steps[1].route == Route(ExportsExport)
    ensures ShowsNext(b)
    ensures b.world.task.steps[1].route !in TopFive(b, "list")
  {
    hide BaseTools, Route, TopFive, Faulty, RouteIds, ShowsNext;
    BaseWellFormed();
    ExtendedCatalogProvides(BaseTools());
    if Route(MaterialsRetrieve) == Route(ExportsExport) {
      RouteInjective(MaterialsRetrieve, ExportsExport);
    }
    TwoRankings(b);
  }
}
