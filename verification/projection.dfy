/** Field projection: what each presentation condition hands to the agent, and why hiding
    fields neither starves a later step nor changes the outcome. */
module Projection {
  import opened Wrappers
  import opened Text
  import opened JsonValues
  import opened Registry
  import opened Frozen
  import opened Replay
  import opened BaseCatalog
  import opened Builders
  import opened Solvability
  import opened Episodes
  import opened EpisodeInvariants
  import EpisodeTheorems
  import Gates
  import Tracker
  import opened Corpora

  datatype View = RawFull | Projected | ProjectedContract | OracleMinimal

  const CONTROL_KEYS: set<string> := {"status", "error"}
  const CONTRACT_KEY := "field_contracts"

  /** The fields a view keeps besides the control keys. */
  function KeptFields(view: View, planned: seq<string>, gold: seq<string>): set<string> {
    Elements(if view.OracleMinimal? then gold else planned)
  }

  function Filtered(observation: Object, keep: set<string>): Object {
    map k | k in observation && (k in CONTROL_KEYS || k in keep) :: observation[k]
  }

  /** The contracts of the kept fields that the observation has. */
  function Surviving(observation: Object, keep: set<string>, contracts: Object): Object {
    map k | k in contracts && k in keep && k in observation :: contracts[k]
  }

  function Project(observation: Object, view: View, planned: seq<string>, gold: seq<string>, contracts: Object): Object
  {
    if view.RawFull? then observation
    else
      var keep := KeptFields(view, planned, gold);
      var projected := Filtered(observation, keep);
      var surviving := Surviving(observation, keep, contracts);
      if view.ProjectedContract? && surviving != map[] then projected[CONTRACT_KEY := Obj(surviving)]
      else projected
  }

  /** The rewrite an experiment passes to the episode loop. Calls that consumed no step
      come without projection metadata. */
  function Presenter(view: View): (Object, Option<Step>) -> Object {
    (observation: Object, step: Option<Step>) =>
      match step
      case None => Project(observation, view, [], [], map[])
      case Some(s) => Project(observation, view, s.planned, s.gold, s.contracts)
  }

  // ---- What a projection keeps -------------------------------------------------------------

  ghost predicate PartOf(part: Object, whole: Object) {
    forall k | k in part :: k in whole && part[k] == whole[k]
  }

  /** No view touches the control keys. */
  lemma ControlSurvives(
      observation: Object, view: View, planned: seq<string>, gold: seq<string>, contracts: Object, k: string)
    requires k == "status" || k == "error"
    ensures SameAt(Project(observation, view, planned, gold, contracts), observation, k)
  {
    assert CONTRACT_KEY !in CONTROL_KEYS;
  }

  ghost predicate SameAt(shown: Object, observation: Object, k: string) {
    (k in shown <==> k in observation) && (k in shown ==> shown[k] == observation[k])
  }

  /** A payload field is shown, unchanged, exactly when it was observed and the view's own
      list names it: every field under RAW-FULL, the planned ones under PROJECTED and
      PROJECTED+CONTRACT, the gold ones under ORACLE-MINIMAL. */
  lemma ShownExactly(
      observation: Object, view: View, planned: seq<string>, gold: seq<string>, contracts: Object, k: string)
    requires k != "status" && k != "error" && (k == "field_contracts" ==> !view.ProjectedContract?)
    ensures var shown := Project(observation, view, planned, gold, contracts);
      && (view.RawFull? ==> (k in shown <==> k in observation))
      && (view.Projected? || view.ProjectedContract? ==> (k in shown <==> k in observation && k in planned))
      && (view.OracleMinimal? ==> (k in shown <==> k in observation && k in gold))
      && (k in shown ==> shown[k] == observation[k])
  {
  }

  /** A planned, observed field that has a contract. */
  predicate Contracted(observation: Object, planned: seq<string>, contracts: Object, k: string) {
    k in contracts && k in planned && k in observation
  }

  /** The contracts of exactly the planned, observed fields that have one. */
  predicate Entry(v: Json, observation: Object, planned: seq<string>, contracts: Object) {
    && v.Obj?
    && (forall k | k in v.fields :: Contracted(observation, planned, contracts, k) && v.fields[k] == contracts[k])
    && (forall k | k in contracts && Contracted(observation, planned, contracts, k) :: k in v.fields)
  }

  /** The contract entry of PROJECTED+CONTRACT: when some planned, observed field has a
      contract, it holds exactly those fields' contracts; otherwise the entry is an ordinary
      payload field. */
  lemma ContractEntryExactly(observation: Object, planned: seq<string>, gold: seq<string>, contracts: Object)
    ensures var shown := Project(observation, ProjectedContract, planned, gold, contracts);
      if exists k :: Contracted(observation, planned, contracts, k) then
        "field_contracts" in shown && Entry(shown["field_contracts"], observation, planned, contracts)
      else
        && ("field_contracts" in shown <==> "field_contracts" in observation && "field_contracts" in planned)
        && ("field_contracts" in shown ==> shown["field_contracts"] == observation["field_contracts"])
  {
    SurvivingIs(observation, planned, gold, contracts);
    var surviving := Surviving(observation, KeptFields(ProjectedContract, planned, gold), contracts);
    if exists k :: Contracted(observation, planned, contracts, k) {
      var k :| Contracted(observation, planned, contracts, k);
      assert k in surviving;
    } else {
      assert surviving == map[];
    }
    hide Surviving;
  }

  lemma SurvivingIs(observation: Object, planned: seq<string>, gold: seq<string>, contracts: Object)
    ensures var surviving := Surviving(observation, KeptFields(ProjectedContract, planned, gold), contracts);
      && (forall k :: k in surviving <==> Contracted(observation, planned, contracts, k))
      && (forall k | k in surviving :: surviving[k] == contracts[k])
  {
  }

  /** The documentation promises that projection only ever removes. The code adds a
      contract entry in one view: the promise holds exactly when that view is not used,
      no planned, observed field has a contract, or the entry was there already. */
  lemma OnlyRemovesExactly(observation: Object, view: View, planned: seq<string>, gold: seq<string>, contracts: Object)
    ensures PartOf(Project(observation, view, planned, gold, contracts), observation) <==>
      || !view.ProjectedContract?
      || (forall k :: !Contracted(observation, planned, contracts, k))
      || ("field_contracts" in observation && Entry(observation["field_contracts"], observation, planned, contracts))
  {
    var shown := Project(observation, view, planned, gold, contracts);
    if view.ProjectedContract? {
      SurvivingIs(observation, planned, gold, contracts);
      var surviving := Surviving(observation, KeptFields(view, planned, gold), contracts);
      if k :| Contracted(observation, planned, contracts, k) {
        assert k in surviving;
        assert shown["field_contracts"] == Obj(surviving);
        if "field_contracts" in observation && Entry(observation["field_contracts"], observation, planned, contracts) {
          assert observation["field_contracts"].fields == surviving;
        }
      } else {
        assert surviving == map[];
      }
    }
    hide Surviving, KeptFields;
  }

  /** A concrete addition: one planned field with a contract. */
  lemma ContractViewAdds()
    ensures !PartOf(Project(map["v" := Int(1)], ProjectedContract, ["v"], [], map["v" := Null]), map["v" := Int(1)])
  {
    var observation: Object, contracts: Object := map["v" := Int(1)], map["v" := Null];
    assert Contracted(observation, ["v"], contracts, "v") by { assert ["v"][0] == "v"; }
    OnlyRemovesExactly(observation, ProjectedContract, ["v"], [], contracts);
    assert "field_contracts" != "v";
    hide Project, PartOf;
  }

  /** Projecting twice is projecting once, except in one corner of the contract view: some
      planned, observed field has a contract, and the contract entry is itself a planned
      field with a contract of its own that was not observed. */
  lemma IdempotentExactly(observation: Object, view: View, planned: seq<string>, gold: seq<string>, contracts: Object)
    ensures var once := Project(observation, view, planned, gold, contracts);
      Project(once, view, planned, gold, contracts) == once <==>
        !(&& view.ProjectedContract? && (exists k :: Contracted(observation, planned, contracts, k))
          && "field_contracts" in planned && "field_contracts" in contracts && "field_contracts" !in observation)
  {
    var keep := KeptFields(view, planned, gold);
    var once := Project(observation, view, planned, gold, contracts);
    var surviving := Surviving(observation, keep, contracts);
    if view.Projected? || view.OracleMinimal? {
      assert Filtered(once, keep) == once;
    } else if view.ProjectedContract? {
      SurvivingIs(observation, planned, gold, contracts);
      assert CONTRACT_KEY in planned <==> CONTRACT_KEY in keep;
      var again := Surviving(once, keep, contracts);
      if surviving == map[] {
        assert again == map[];
        assert Filtered(once, keep) == once;
        assert forall k :: !Contracted(observation, planned, contracts, k);
      } else {
        var k :| k in surviving;
        assert Contracted(observation, planned, contracts, k);
        if CONTRACT_KEY in keep && CONTRACT_KEY in contracts && CONTRACT_KEY !in observation {
          assert CONTRACT_KEY in again && CONTRACT_KEY !in surviving;
        } else {
          assert again == surviving;
          assert Filtered(once, keep)[CONTRACT_KEY := Obj(surviving)] == once;
        }
      }
    }
  }

  // ---- Projection tasks ------------------------------------------------------------------------

  datatype Stratum =
    | QualifierSibling | UnitVariant | SupersededDuplicate | NestedRecord | NameCollision | MultiStepProvenance

  function Tagged(kind: string, prefix: string, index: nat, suffix: string): string {
    kind + prefix + Pad4(index) + suffix
  }

  function Describe(step: Step, planned: seq<string>, gold: seq<string>, contracts: Object): Step {
    step.(planned := planned, gold := gold, contracts := contracts)
  }

  /** One property lookup: the asked value, and the competing content around it. */
  datatype Property = Property(key: string, value: real, unit: string, distractors: Object, contract: Object)

  function Lookup(prefix: string, index: nat, p: Property): Step {
    Describe(
      MakeStep(MaterialsCurrent, map["material_id" := Equals(Str(Tagged("MAT-", prefix, index, "")))],
        p.distractors + map["status" := OK, p.key := Num(p.value), "unit" := Str(p.unit),
                            "source_id" := Str(Tagged("SRC-", prefix, index, "-A"))], ""),
      [p.key, "unit", "source_id"], [p.key, "unit", "source_id"], map[p.key := Obj(p.contract)])
  }

  function RetrieveRecord(prefix: string, index: nat): Step {
    var artifact := Tagged("ART-", prefix, index, "");
    var material := Tagged("MAT-", prefix, index, "");
    Describe(
      MakeStep(MaterialsRetrieve, map["material_id" := Equals(Str(material))],
        map["status" := OK, "material_id" := Str(material), "artifact_id" := Str(artifact),
            "source_id" := Str(Tagged("SRC-", prefix, index, "-A")),
            "staging_artifact_id" := Str(artifact + "-STAGING"),
            "cache_artifact_id" := Str(artifact + "-CACHE"),
            "record_bytes" := Int(4096 + index)], ""),
      ["material_id", "artifact_id", "source_id"], ["artifact_id", "source_id"],
      map["artifact_id" := Obj(map["semantic_id" := Str("exports.artifact_id"), "unit" := Null])])
  }

  function ExportRecord(prefix: string, index: nat): Step {
    var artifact := Tagged("ART-", prefix, index, "");
    Describe(
      MakeStep(ExportsExport, map["artifact_id" := FromState("artifact_id")],
        map["status" := OK, "file_uri" := Str("file:///tmp/" + artifact + ".json"),
            "source_id" := Str(Tagged("SRC-", prefix, index, "-B")),
            "temp_file_uri" := Str("file:///tmp/" + artifact + ".partial"),
            "mirror_file_uri" := Str("s3://mirror/" + artifact + ".json"),
            "bytes_written" := Int(2048 + index)], ""),
      ["file_uri", "source_id"], ["file_uri", "source_id"],
      map["file_uri" := Obj(map["semantic_id" := Str("exports.file_uri"), "unit" := Null])])
  }

  /** What each single-step stratum asks for. Derived columns are exact here; the source
      rounds them to a few decimals. */
  function PropertyOf(stratum: Stratum, prefix: string, index: nat): Property
    requires !stratum.MultiStepProvenance?
  {
    match stratum
    case QualifierSibling =>
      var v := ValueOf(130.0, index, 23);
      Property("youngs_modulus", v, "GPa",
        map["youngs_modulus_at_77k" := Num(v * 1.11), "youngs_modulus_at_900k" := Num(v * 0.74),
            "measurement_campaign" := Str("CAMP-" + Pad3(index % 17))],
        map["semantic_id" := Str("materials.youngs_modulus"), "unit" := Str("GPa"),
            "qualifiers" := Obj(map["temperature_k" := Int(300)])])
    case UnitVariant =>
      var v := ValueOf(118.0, index, 19);
      Property("youngs_modulus", v, "GPa",
        map["youngs_modulus_mpa" := Num(v * 1000.0), "youngs_modulus_psi" := Num(v * 145037.7),
            "conversion_note" := Str("Derived columns are provider-side conveniences.")],
        map["semantic_id" := Str("materials.youngs_modulus"), "unit" := Str("GPa"), "canonical_unit" := Str("GPa")])
    case SupersededDuplicate =>
      var v := 7.8 + (index % 7) as real * 0.1;
      Property("density", v, "g/cm^3",
        map["density_legacy_2019" := Num(v - 0.4), "density_draft" := Num(v + 0.6),
            "record_state" := Str("current"),
            "superseded_record_ids" := Arr([Str("REC-" + Pad3(index % 13))])],
        map["semantic_id" := Str("materials.density"), "unit" := Str("g/cm^3")])
    case NestedRecord =>
      var v := 1.1 + (index % 11) as real * 0.05;
      Property("band_gap", v, "eV",
        map["record" := Obj(map[
              "material_id" := Str(Tagged("MAT-", prefix, index, "")),
              "computed" := Obj(map["band_gap" := Num(v + 0.35), "functional" := Str("PBE")]),
              "audit" := Obj(map["reviewer" := Str("lab-3"), "ticket" := Str("T-" + Pad3(index % 29))])])],
        map["semantic_id" := Str("materials.band_gap"), "unit" := Str("eV"),
            "qualifiers" := Obj(map["method" := Str("measured")])])
    case NameCollision =>
      var v := ValueOf(150.0, index, 31);
      Property("thermal_conductivity", v, "W/(m*K)",
        map["value" := Num(v - 12.0), "result" := Num(v + 9.0),
            "provider_b_thermal_conductivity" := Num(v - 5.0),
            "provider_b_source_id" := Str(Tagged("SRC-", prefix, index, "-B"))],
        map["semantic_id" := Str("materials.thermal_conductivity"), "unit" := Str("W/(m*K)"),
            "provider" := Str("materials.current")])
  }

  /** Decimal, zero-padded to at least three digits. */
  function Pad3(n: nat): string {
    var d := Digits(n);
    if |d| < 3 then Zeros(3 - |d|) + d else d
  }

  /** The fixture of a projection task. */
  function ProjectionSteps(stratum: Stratum, prefix: string, index: nat): seq<Step> {
    if stratum.MultiStepProvenance? then [RetrieveRecord(prefix, index), ExportRecord(prefix, index)]
    else [Lookup(prefix, index, PropertyOf(stratum, prefix, index))]
  }

  /** The state an observer of the projected records alone would have after these steps. */
  function SeenState(view: View, steps: seq<Step>): Object {
    if steps == [] then map[]
    else
      var last := steps[|steps| - 1];
      Absorb(SeenState(view, steps[..|steps| - 1]),
             Project(Shown(last), view, last.planned, last.gold, last.contracts))
  }

  /** Arguments that fit step `i` and take every state-dependent value from what the view
      has shown so far. */
  ghost predicate HonestFit(view: View, w: World, i: nat, args: Object)
    requires i < |w.task.steps|
  {
    && Fits(w, i, args)
    && forall k | k in args && w.task.steps[i].rules.Some? && k in w.task.steps[i].rules.value ::
         w.task.steps[i].rules.value[k].fromState.Some? ==>
           var key := w.task.steps[i].rules.value[k].fromState.value;
           var seen := SeenState(view, w.task.steps[..i]);
           key in seen && args[k] == seen[key]
  }

  ghost predicate Proper(p: Property) {
    p.key != "" && p.key != "status" && "" !in p.distractors
  }

  lemma PropertiesProper(stratum: Stratum, prefix: string, index: nat)
    requires !stratum.MultiStepProvenance?
    ensures Proper(PropertyOf(stratum, prefix, index))
  {
    hide Tagged, Pad3, ValueOf;
  }

  lemma LookupShape(prefix: string, index: nat, p: Property)
    requires Proper(p)
    ensures StepIs(Lookup(prefix, index, p), MaterialsCurrent,
      map["material_id" := Equals(Str(Tagged("MAT-", prefix, index, "")))])
  {
    hide Route, Tagged;
  }

  lemma TaggedVisible(prefix: string, index: nat)
    ensures !Blank(Tagged("MAT-", prefix, index, ""))
    ensures !Blank(Tagged("ART-", prefix, index, ""))
  {
    LabelVisible("MAT-", prefix + Pad4(index) + "");
    LabelVisible("ART-", prefix + Pad4(index) + "");
    assert "MAT-" + prefix + Pad4(index) + "" == "MAT-" + (prefix + Pad4(index) + "");
    assert "ART-" + prefix + Pad4(index) + "" == "ART-" + (prefix + Pad4(index) + "");
  }

  lemma RecordShapes(prefix: string, index: nat)
    ensures StepIs(RetrieveRecord(prefix, index), MaterialsRetrieve,
      map["material_id" := Equals(Str(Tagged("MAT-", prefix, index, "")))])
    ensures Shows(RetrieveRecord(prefix, index), "artifact_id", Tagged("ART-", prefix, index, ""))
    ensures StepIs(ExportRecord(prefix, index), ExportsExport, map["artifact_id" := FromState("artifact_id")])
  {
    TaggedVisible(prefix, index);
    hide Route, Tagged;
  }

  // ---- No view starves a later step ---------------------------------------------------------------

  lemma LookupTaskDone(w: World, prefix: string, index: nat, p: Property)
    requires Provides(w.registry) && Proper(p) && w.task.steps == [Lookup(prefix, index, p)]
    ensures AllDone(w)
  {
    LookupShape(prefix, index, p);
    TaggedVisible(prefix, index);
    hide Provides, Done, StepIs, Lookup, Tagged, Blank;
    EqualsStep(w, 0, MaterialsCurrent, "material_id", Tagged("MAT-", prefix, index, ""));
  }

  lemma MultiStepDone(w: World, prefix: string, index: nat)
    requires Provides(w.registry) && w.task.steps == [RetrieveRecord(prefix, index), ExportRecord(prefix, index)]
    ensures AllDone(w)
  {
    RecordShapes(prefix, index);
    TaggedVisible(prefix, index);
    ChainedParameters();
    hide *;
    EqualsStep(w, 0, MaterialsRetrieve, "material_id", Tagged("MAT-", prefix, index, ""));
    ChainedStep(w, 1, ExportsExport, "artifact_id", Tagged("ART-", prefix, index, ""));
    TwoDone(w);
  }

  lemma ProjectionDone(w: World, stratum: Stratum, prefix: string, index: nat)
    requires Provides(w.registry) && w.task.steps == ProjectionSteps(stratum, prefix, index)
    ensures AllDone(w)
  {
    hide Provides, AllDone, Lookup, RetrieveRecord, ExportRecord, PropertyOf, Proper;
    if stratum.MultiStepProvenance? {
      MultiStepDone(w, prefix, index);
    } else {
      PropertiesProper(stratum, prefix, index);
      LookupTaskDone(w, prefix, index, PropertyOf(stratum, prefix, index));
    }
  }

  /** Under every view, the exported artifact's identifier is shown by the first step. */
  lemma ArtifactSeen(view: View, prefix: string, index: nat)
    ensures var seen := SeenState(view, [RetrieveRecord(prefix, index)]);
      "artifact_id" in seen && seen["artifact_id"] == Str(Tagged("ART-", prefix, index, ""))
  {
    var step := RetrieveRecord(prefix, index);
    assert step.planned[1] == "artifact_id" && step.gold[0] == "artifact_id";
    assert "artifact_id" in KeptFields(view, step.planned, step.gold);
    ShownExactly(Shown(step), view, step.planned, step.gold, step.contracts, "artifact_id");
    assert [step][..0] == [];
    hide Project, Tagged, KeptFields;
  }

  /** In every projection task and under every view, each step has arguments that fit and
      whose state-dependent values are all taken from what the view has shown. */
  lemma NoViewStarvesAStep(view: View, w: World, stratum: Stratum, prefix: string, index: nat, i: nat)
    requires Provides(w.registry) && w.task.steps == ProjectionSteps(stratum, prefix, index)
    requires i < |w.task.steps|
    ensures exists args :: HonestFit(view, w, i, args)
  {
    ProjectionDone(w, stratum, prefix, index);
    assert Done(w, i);
    if i == 1 {
      ExportIsHonest(view, w, prefix, index);
    } else {
      var args :| Fits(w, i, args);
      FirstStepIndependent(w.task.steps[0], stratum, prefix, index);
      hide Fits, ProjectionSteps, SeenState, AllDone, Done;
      assert HonestFit(view, w, i, args);
    }
  }

  lemma FirstStepIndependent(step: Step, stratum: Stratum, prefix: string, index: nat)
    requires step == ProjectionSteps(stratum, prefix, index)[0]
    ensures step.rules.Some? && forall k | k in step.rules.value :: step.rules.value[k].fromState.None?
  {
    hide PropertyOf, Tagged;
  }

  lemma ChainedFits(w: World, i: nat, op: Op, key: string, v: string)
    requires Provides(w.registry) && 0 < i < |w.task.steps|
    requires StepIs(w.task.steps[i], op, map[key := FromState(key)]) && BaseCatalog.Parameters(op) == Text1(key)
    requires Shows(w.task.steps[i - 1], key, v)
    ensures Fits(w, i, map[key := Str(v)])
  {
    hide Merged, Route, Spec, SchemaFault, Blank, Resolve;
    assert Resolve(w.registry, Route(op)) == Some(Spec(op));
    hide Provides;
    PreviousWrites(w.task.steps, i, key);
    OneTextValid(op, key, v);
  }

  /** A chained step is honest when the view has shown the identifier it needs. */
  lemma ChainedHonest(view: View, w: World, i: nat, op: Op, key: string, v: string)
    requires Provides(w.registry) && 0 < i < |w.task.steps|
    requires StepIs(w.task.steps[i], op, map[key := FromState(key)]) && BaseCatalog.Parameters(op) == Text1(key)
    requires Shows(w.task.steps[i - 1], key, v)
    requires key in SeenState(view, w.task.steps[..i]) && SeenState(view, w.task.steps[..i])[key] == Str(v)
    ensures HonestFit(view, w, i, map[key := Str(v)])
  {
    hide SeenState, Fits, Provides, Shows, PlainObservation, Route;
    ChainedFits(w, i, op, key, v);
  }

  lemma ExportIsHonest(view: View, w: World, prefix: string, index: nat)
    requires Provides(w.registry)
    requires w.task.steps == [RetrieveRecord(prefix, index), ExportRecord(prefix, index)]
    ensures exists args :: HonestFit(view, w, 1, args)
  {
    hide *;
    var artifact := Tagged("ART-", prefix, index, "");
    ArtifactSeen(view, prefix, index);
    RecordShapes(prefix, index);
    ChainedParameters();
    assert w.task.steps[..1] == [RetrieveRecord(prefix, index)];
    ChainedHonest(view, w, 1, ExportsExport, "artifact_id", artifact);
  }

  function ProjectionOps(stratum: Stratum): seq<Op> {
    if stratum.MultiStepProvenance? then [MaterialsRetrieve, ExportsExport] else [MaterialsCurrent]
  }

  lemma ProjectionReady(b: Bench, stratum: Stratum, prefix: string, index: nat)
    requires WellFormed(b.world.registry) && Provides(b.world.registry) && !Blank(b.world.task.query)
    requires b.world.task == Supported(b.world.task.query, ProjectionSteps(stratum, prefix, index))
    ensures Ready(b, |ProjectionOps(stratum)|)
  {
    hide AllDone, Provides, WellFormed, ProjectionSteps, Faulty, Blank, Routes, Dedup, StepRoutes, Ready;
    ProjectionDone(b.world, stratum, prefix, index);
    ProjectionRoutes(stratum, prefix, index);
    ReadyFrom(b, ProjectionOps(stratum));
  }

  /** Every projection task, for every stratum, prefix and index, is passable under every
      condition that shows what it needs. */
  lemma ProjectionTasksPass(b: Bench, stratum: Stratum, prefix: string, index: nat)
    requires WellFormed(b.world.registry) && Provides(b.world.registry) && !Blank(b.world.task.query)
    requires b.world.task == Supported(b.world.task.query, ProjectionSteps(stratum, prefix, index))
    ensures PassesWhenShown(b)
  {
    hide WellFormed, Provides, Ready, PassesWhenShown, Blank, Supported, ProjectionSteps;
    ProjectionReady(b, stratum, prefix, index);
    ReadyPasses(b, |ProjectionOps(stratum)|);
  }

  lemma ProjectionRoutes(stratum: Stratum, prefix: string, index: nat)
    ensures StepRoutes(ProjectionSteps(stratum, prefix, index)) == Routes(ProjectionOps(stratum))
    ensures Faulty(ProjectionSteps(stratum, prefix, index)) == {}
  {
    hide Route, Tagged, PropertyOf;
  }

  /** For one sequence of agent outputs, all four views give the same record up to the
      tool messages: same attempts, same exposure, same pass result. */
  lemma ViewsAgreeOnTruth(b: Bench, one: View, other: View, script: seq<Generated>)
    ensures var p, q := Run(b.(show := Some(Presenter(one))), script), Run(b.(show := Some(Presenter(other))), script);
      && p.Success? == q.Success?
      && (p.Success? ==>
            RecordOf(b, p.value).(messages := []) == RecordOf(b, q.value).(messages := []))
  {
    var c, d := b.(show := Some(Presenter(one))), b.(show := Some(Presenter(other)));
    EpisodeTheorems.PresentationCannotChangeTruth(c, d, script);
    hide Run, Presenter;
  }

  // ---- What the agent is told of failures ------------------------------------------------------------

  /** Everything the agent was shown of its calls, in order. */
  function ShownIn(messages: seq<Message>): seq<Object> {
    if messages == [] then []
    else
      var before, last := ShownIn(messages[..|messages| - 1]), messages[|messages| - 1];
      if last.ToolResults? then before + last.shown else before
  }

  /** One observation was shown of each logged attempt, with the attempt's status and error. */
  ghost predicate Truthful(shown: seq<Object>, log: seq<Gates.Attempt>) {
    && |shown| == |log|
    && forall i, k | 0 <= i < |log| && k in {"status", "error"} :: SameAt(shown[i], log[i].observation, k)
  }

  lemma PresentedTruthfully(b: Bench, view: View, core: Core, a: Gates.Attempt)
    requires b.show == Some(Presenter(view))
    ensures forall k | k in {"status", "error"} :: SameAt(Presented(b, core, a), a.observation, k)
  {
    forall k | k in {"status", "error"}
      ensures SameAt(Presented(b, core, a), a.observation, k)
    {
      ControlSurvives(a.observation, view, [], [], map[], k);
      if a.advancedTask && core.progress < |b.world.task.steps| {
        var step := b.world.task.steps[core.progress];
        ControlSurvives(a.observation, view, step.planned, step.gold, step.contracts, k);
      }
    }
    hide Project, SameAt;
  }

  lemma TruthfulNext(shown: seq<Object>, log: seq<Gates.Attempt>, more: Object, a: Gates.Attempt)
    requires Truthful(shown, log) && forall k | k in {"status", "error"} :: SameAt(more, a.observation, k)
    ensures Truthful(shown + [more], log + [a])
  {
    hide SameAt;
  }

  lemma {:induction false} CallsTruthful(b: Bench, view: View, s: Episode, calls: seq<ToolCall>)
    requires b.show == Some(Presenter(view)) && Truthful(ShownIn(s.messages), s.exec.attempts)
    ensures var r := Calls(b, s, calls);
      r.Success? ==> Truthful(ShownIn(s.messages) + r.value.shown, r.value.exec.attempts)
  {
    hide Truthful, OneCall, Presenter, CallOf;
    if calls == [] {
      assert ShownIn(s.messages) + [] == ShownIn(s.messages);
    } else {
      var init, last := calls[..|calls| - 1], calls[|calls| - 1];
      CallsTruthful(b, view, s, init);
      if Calls(b, s, calls).Success? {
        OneCallTruthful(b, view, Calls(b, s, init).value, CallOf(s.visible, last, |calls| == 1), ShownIn(s.messages));
      }
    }
  }

  lemma OneCallTruthful(b: Bench, view: View, u: Burst, call: Gates.Call, before: seq<Object>)
    requires b.show == Some(Presenter(view)) && Truthful(before + u.shown, u.exec.attempts)
    ensures var r := OneCall(b, u, call);
      r.Success? ==> Truthful(before + r.value.shown, r.value.exec.attempts)
  {
    var a := AttemptAt(b.world, u.exec.core, call);
    PresentedTruthfully(b, view, u.exec.core, a);
    TruthfulNext(before + u.shown, u.exec.attempts, Presented(b, u.exec.core, a), a);
    assert before + (u.shown + [Presented(b, u.exec.core, a)]) == before + u.shown + [Presented(b, u.exec.core, a)];
    hide Truthful, Presented, AttemptAt, Tracker.Update;
  }

  lemma Said(messages: seq<Message>, m: Message)
    ensures ShownIn(messages + [m]) == ShownIn(messages) + if m.ToolResults? then m.shown else []
  {
    assert (messages + [m])[..|messages|] == messages;
  }

  lemma TurnTruthful(b: Bench, view: View, s: Episode, g: Generated)
    requires b.show == Some(Presenter(view)) && Truthful(ShownIn(s.messages), s.exec.attempts)
    ensures var r := Turn(b, s, g);
      r.Success? ==> Truthful(ShownIn(r.value.messages), r.value.exec.attempts)
  {
    hide Truthful, ShownIn, Presenter, CallTurn, AllRegistered, Complete, Stage;
    match g {
      case Overflow =>
      case Malformed(text) => InsistSays(s.messages, text);
      case Reply(text, calls) =>
        InsistSays(s.messages, text);
        if calls != [] {
          var t := s.(turns := s.turns + 1, finalText := text, messages := s.messages + [Assistant(text)]);
          CallTurnTruthful(b, view, t, calls);
        }
    }
  }

  lemma InsistSays(messages: seq<Message>, text: string)
    ensures ShownIn(messages + [Assistant(text)]) == ShownIn(messages)
    ensures ShownIn(messages + [Assistant(text), User("TASK_INCOMPLETE")]) == ShownIn(messages)
  {
    Said(messages, Assistant(text));
    Said(messages + [Assistant(text)], User("TASK_INCOMPLETE"));
    assert messages + [Assistant(text), User("TASK_INCOMPLETE")]
        == messages + [Assistant(text)] + [User("TASK_INCOMPLETE")];
    hide ShownIn;
  }

  lemma CallTurnTruthful(b: Bench, view: View, s: Episode, calls: seq<ToolCall>)
    requires b.show == Some(Presenter(view)) && Truthful(ShownIn(s.messages), s.exec.attempts)
    ensures var r := CallTurn(b, s, calls);
      r.Success? ==> Truthful(ShownIn(r.value.messages), r.value.exec.attempts)
  {
    CallsTruthful(b, view, s, calls);
    if Calls(b, s, calls).Success? {
      Said(s.messages, ToolResults(Calls(b, s, calls).value.shown));
    }
    hide Truthful, ShownIn, Presenter, Calls, Complete, Stage, Sorted, Take;
  }

  /** Under every view and every agent, the agent is shown one observation for each call it
      made, in order, with the very status and error that were logged: no view makes a
      failed call look like an empty result. */
  lemma {:induction false} FailuresStayVisible(b: Bench, view: View, script: seq<Generated>)
    requires b.show == Some(Presenter(view))
    ensures var r := Run(b, script);
      r.Success? ==> Truthful(ShownIn(r.value.messages), r.value.exec.attempts)
  {
    hide Truthful, Turn, Presenter;
    if script == [] {
      StartTruthful(b);
    } else {
      FailuresStayVisible(b, view, script[..|script| - 1]);
      if Run(b, script).Success? {
        TurnTruthful(b, view, Run(b, script[..|script| - 1]).value, script[|script| - 1]);
      }
    }
    hide ShownIn;
  }

  lemma StartTruthful(b: Bench)
    ensures Start(b).Success? ==> Truthful(ShownIn(Start(b).value.messages), Start(b).value.exec.attempts)
  {
    Said([], System(b.systemPrompt));
    Said([System(b.systemPrompt)], User(b.world.task.query));
    assert [] + [System(b.systemPrompt)] == [System(b.systemPrompt)];
    assert [System(b.systemPrompt)] + [User(b.world.task.query)] == [System(b.systemPrompt), User(b.world.task.query)];
    hide ShownIn, InitialRoutes;
  }

  // ---- The views differ ------------------------------------------------------------------------------

  /** What a view shows of a consumed step. */
  function Seen(step: Step, view: View): Object {
    Project(Shown(step), view, step.planned, step.gold, step.contracts)
  }

  /** The raw record carries more than the plan declared, all the plan declared is shown,
      and the contract view adds the contract entry. */
  ghost predicate Separated(step: Step) {
    && (exists k :: k in Seen(step, RawFull) && k !in Seen(step, Projected))
    && (forall k | k in step.planned :: k in Seen(step, Projected))
    && "field_contracts" in Seen(step, ProjectedContract) && "field_contracts" !in Seen(step, RawFull)
  }

  /** A field beyond the plan, and a planned field with a contract, separate the views. */
  lemma SeparatedBy(step: Step, extra: string, contracted: string)
    requires extra in step.observation && extra !in step.planned && extra != "status" && extra != "error"
    requires extra != "field_contracts" && "field_contracts" !in step.observation
    requires contracted in step.contracts && contracted in step.planned
    requires forall k | k in step.planned :: k in step.observation && k != "status" && k != "error"
    ensures Separated(step)
  {
    var shown := Shown(step);
    ShownExactly(shown, RawFull, step.planned, step.gold, step.contracts, extra);
    ShownExactly(shown, Projected, step.planned, step.gold, step.contracts, extra);
    forall k | k in step.planned
      ensures k in Seen(step, Projected)
    {
      ShownExactly(shown, Projected, step.planned, step.gold, step.contracts, k);
    }
    ShownExactly(shown, RawFull, step.planned, step.gold, step.contracts, "field_contracts");
    ContractEntryExactly(shown, step.planned, step.gold, step.contracts);
    assert Contracted(shown, step.planned, step.contracts, contracted);
    hide Project;
  }

  /** The field beyond the plan that each single-step stratum carries. */
  function ExtraField(stratum: Stratum): string {
    match stratum
    case QualifierSibling => "measurement_campaign"
    case UnitVariant => "conversion_note"
    case SupersededDuplicate => "density_draft"
    case NestedRecord => "record"
    case NameCollision => "provider_b_source_id"
    case MultiStepProvenance => ""
  }

  lemma LookupSeparated(stratum: Stratum, prefix: string, index: nat)
    requires !stratum.MultiStepProvenance?
    ensures var step := Lookup(prefix, index, PropertyOf(stratum, prefix, index));
      Separated(step) && Seen(step, Projected) == Seen(step, OracleMinimal)
  {
    var p := PropertyOf(stratum, prefix, index);
    var step, extra := Lookup(prefix, index, p), ExtraField(stratum);
    PropertyFields(stratum, prefix, index);
    assert step.planned == step.gold == [p.key, "unit", "source_id"];
    assert step.planned[0] == p.key;
    assert p.key in step.contracts;
    hide PropertyOf, Tagged, Separated, ExtraField, Route;
    SeparatedBy(step, extra, p.key);
    hide Lookup;
  }

  lemma PropertyFields(stratum: Stratum, prefix: string, index: nat)
    requires !stratum.MultiStepProvenance?
    ensures var p, extra := PropertyOf(stratum, prefix, index), ExtraField(stratum);
      && extra in p.distractors && extra !in {p.key, "unit", "source_id", "status", "error", "field_contracts"}
      && p.key !in {"status", "error", "field_contracts"} && "field_contracts" !in p.distractors
  {
    hide Tagged, Pad3, ValueOf;
  }

  /** In every projection task, at every step, RAW-FULL shows more than the plan, PROJECTED
      all of the plan, and PROJECTED+CONTRACT a contract entry; and PROJECTED differs from
      ORACLE-MINIMAL exactly at the first step of the two-step stratum. */
  lemma ViewsDiffer(stratum: Stratum, prefix: string, index: nat, i: nat)
    requires i < |ProjectionSteps(stratum, prefix, index)|
    ensures var step := ProjectionSteps(stratum, prefix, index)[i];
      && Separated(step)
      && (Seen(step, Projected) != Seen(step, OracleMinimal) <==> stratum.MultiStepProvenance? && i == 0)
  {
    if stratum.MultiStepProvenance? {
      RecordTellsApart(prefix, index);
      ExportSeparated(prefix, index);
    } else {
      LookupSeparated(stratum, prefix, index);
    }
    hide Separated, Seen, RetrieveRecord, ExportRecord, Lookup, PropertyOf;
  }

  /** The retrieved record: PROJECTED shows its material identifier, ORACLE-MINIMAL does not. */
  lemma RecordTellsApart(prefix: string, index: nat)
    ensures var step := RetrieveRecord(prefix, index);
      && Separated(step)
      && "material_id" in Seen(step, Projected) && "material_id" !in Seen(step, OracleMinimal)
      && Seen(step, Projected) != Seen(step, OracleMinimal)
  {
    var step := RetrieveRecord(prefix, index);
    assert step.planned[0] == "material_id" && step.planned[1] == "artifact_id" && step.planned[2] == "source_id";
    hide Tagged, Separated, Route;
    ShownExactly(Shown(step), Projected, step.planned, step.gold, step.contracts, "material_id");
    ShownExactly(Shown(step), OracleMinimal, step.planned, step.gold, step.contracts, "material_id");
    SeparatedBy(step, "record_bytes", "artifact_id");
    hide Project;
  }

  lemma ExportSeparated(prefix: string, index: nat)
    ensures var step := ExportRecord(prefix, index);
      Separated(step) && Seen(step, Projected) == Seen(step, OracleMinimal)
  {
    var step := ExportRecord(prefix, index);
    assert step.planned[0] == "file_uri" && step.planned[1] == "source_id";
    hide Tagged, Separated, Route;
    SeparatedBy(step, "bytes_written", "file_uri");
  }
}
